/** The canonical encoding of engine inputs, as fed to the input digest. */
module InputCodec {
  import opened Domain
  import opened Wire

  function HeadBytes(ingressSeq: u64, recvTimeNs: u64, tag: u8): Bytes {
    var o1 := Put([], 8, ingressSeq);
    var o2 := Put(o1, 8, recvTimeNs);
    var o3 := Put(o2, 1, tag);
    o3
  }

  function KindCode(kind: MarketKind): u8 {
    match kind
    case SnapshotBegin(_) => 1
    case SnapshotLevel(_, _, _) => 2
    case SnapshotEnd(_, _) => 3
    case LevelSet(_, _, _) => 4
    case MarketTrade(_, _, _) => 5
    case Heartbeat => 6
    case FeedReset(_) => 7
  }

  function LevelBytes(head: Bytes, side: Side, price: i64, quantity: u64): Bytes {
    var o1 := Put(head, 1, SideCode(side));
    var o2 := Put(o1, 8, Unsigned(price));
    var o3 := Put(o2, 8, quantity);
    o3
  }

  function KindBytes(head: Bytes, kind: MarketKind): Bytes {
    match kind
    case SnapshotBegin(n) => Put(head, 8, n)
    case SnapshotLevel(side, price, quantity) => LevelBytes(head, side, price, quantity)
    case SnapshotEnd(n, count) => Put(Put(head, 8, n), 4, count)
    case LevelSet(side, price, quantity) => LevelBytes(head, side, price, quantity)
    case MarketTrade(side, price, quantity) => LevelBytes(head, side, price, quantity)
    case Heartbeat => head
    case FeedReset(epoch) => Put(head, 8, epoch)
  }

  function MarketHead(head: Bytes, m: MarketEvent): Bytes {
    var o1 := Put(head, 4, m.instrument);
    var o2 := Put(o1, 8, m.sourceSeq);
    var o3 := Put(o2, 8, m.sourceTimeNs);
    var o4 := Put(o3, 1, KindCode(m.kind));
    o4
  }

  function OrderBytes(head: Bytes, r: Request): Bytes {
    var o1 := Put(head, 1, RequestKindCode(r.kind));
    var o2 := Put(o1, 1, SideCode(r.side));
    var o3 := Put(o2, 1, OrderTypeCode(r.orderType));
    var o4 := Put(o3, 4, r.account);
    var o5 := Put(o4, 4, r.instrument);
    var o6 := Put(o5, 8, r.requestId);
    var o7 := Put(o6, 8, r.clientSeq);
    var o8 := Put(o7, 8, r.clientOrderId);
    var o9 := Put(o8, 8, r.target);
    var o10 := Put(o9, 8, Unsigned(r.price));
    var o11 := Put(o10, 8, r.quantity);
    o11
  }

  function LimitsBytes(head: Bytes, account: u32, l: Limits): Bytes {
    var o1 := Put(head, 4, account);
    var o2 := Put(o1, 8, l.maxOrderQuantity);
    var o3 := Put(o2, 16, l.maxOrderNotional);
    var o4 := Put(o3, 8, l.maxPositionLots);
    var o5 := Put(o4, 16, l.maxGrossExposure);
    var o6 := Put(o5, 8, Unsigned(l.priceCollarTicks));
    o6
  }

  function CommandCode(c: Command): u8 {
    match c case SetGlobalKill(_) => 1 case SetAccountEnabled(_, _) => 2 case SetAccountLimits(_, _) => 3
  }

  function CommandBytes(head: Bytes, c: Command): Bytes {
    match c
    case SetGlobalKill(engaged) => Put(head, 1, FlagCode(engaged))
    case SetAccountEnabled(account, enabled) => Put(Put(head, 4, account), 1, FlagCode(enabled))
    case SetAccountLimits(account, limits) => LimitsBytes(head, account, limits)
  }

  function EventTag(e: Event): u8 {
    match e case MarketInput(_) => 1 case OrderInput(_) => 2 case ControlInput(_) => 3
  }

  function EventBytes(head: Bytes, e: Event): Bytes {
    match e
    case MarketInput(m) => KindBytes(MarketHead(head, m), m.kind)
    case OrderInput(r) => OrderBytes(head, r)
    case ControlInput(c) => CommandBytes(Put(head, 1, CommandCode(c)), c)
  }

  function InputBytes(input: Input): Bytes {
    EventBytes(HeadBytes(input.ingressSeq, input.recvTimeNs, EventTag(input.event)), input.event)
  }

  // ---- where the fields lie -----------------------------------------------

  ghost predicate HeadAt(ingressSeq: u64, recvTimeNs: u64, tag: u8, bytes: Bytes) {
    && |bytes| >= 17
    && At(bytes, 0, 8) == ingressSeq
    && At(bytes, 8, 8) == recvTimeNs
    && At(bytes, 16, 1) == tag
  }

  ghost predicate LevelAt(side: Side, price: i64, quantity: u64, bytes: Bytes) {
    && |bytes| >= 55
    && At(bytes, 38, 1) == SideCode(side)
    && At(bytes, 39, 8) == Unsigned(price)
    && At(bytes, 47, 8) == quantity
  }

  ghost predicate KindAt(kind: MarketKind, bytes: Bytes) {
    match kind
    case SnapshotBegin(n) => |bytes| >= 46 && At(bytes, 38, 8) == n
    case SnapshotLevel(side, price, quantity) => LevelAt(side, price, quantity, bytes)
    case SnapshotEnd(n, count) => |bytes| >= 50 && At(bytes, 38, 8) == n && At(bytes, 46, 4) == count
    case LevelSet(side, price, quantity) => LevelAt(side, price, quantity, bytes)
    case MarketTrade(side, price, quantity) => LevelAt(side, price, quantity, bytes)
    case Heartbeat => true
    case FeedReset(epoch) => |bytes| >= 46 && At(bytes, 38, 8) == epoch
  }

  ghost predicate MarketAt(m: MarketEvent, bytes: Bytes) {
    && |bytes| >= 38
    && At(bytes, 17, 4) == m.instrument
    && At(bytes, 21, 8) == m.sourceSeq
    && At(bytes, 29, 8) == m.sourceTimeNs
    && At(bytes, 37, 1) == KindCode(m.kind)
  }

  ghost predicate OrderAt(r: Request, bytes: Bytes) {
    && |bytes| >= 76
    && At(bytes, 17, 1) == RequestKindCode(r.kind)
    && At(bytes, 18, 1) == SideCode(r.side)
    && At(bytes, 19, 1) == OrderTypeCode(r.orderType)
    && At(bytes, 20, 4) == r.account
    && At(bytes, 24, 4) == r.instrument
    && At(bytes, 28, 8) == r.requestId
    && At(bytes, 36, 8) == r.clientSeq
    && At(bytes, 44, 8) == r.clientOrderId
    && At(bytes, 52, 8) == r.target
    && At(bytes, 60, 8) == Unsigned(r.price)
    && At(bytes, 68, 8) == r.quantity
  }

  ghost predicate LimitsAt(account: u32, l: Limits, bytes: Bytes) {
    && |bytes| >= 78
    && At(bytes, 18, 4) == account
    && At(bytes, 22, 8) == l.maxOrderQuantity
    && At(bytes, 30, 16) == l.maxOrderNotional
    && At(bytes, 46, 8) == l.maxPositionLots
    && At(bytes, 54, 16) == l.maxGrossExposure
    && At(bytes, 70, 8) == Unsigned(l.priceCollarTicks)
  }

  ghost predicate CommandAt(c: Command, bytes: Bytes) {
    match c
    case SetGlobalKill(engaged) => |bytes| >= 19 && At(bytes, 18, 1) == FlagCode(engaged)
    case SetAccountEnabled(account, enabled) =>
      |bytes| >= 23 && At(bytes, 18, 4) == account && At(bytes, 22, 1) == FlagCode(enabled)
    case SetAccountLimits(account, limits) => LimitsAt(account, limits, bytes)
  }

  ghost predicate EventAt(e: Event, bytes: Bytes) {
    match e
    case MarketInput(m) => MarketAt(m, bytes) && KindAt(m.kind, bytes)
    case OrderInput(r) => OrderAt(r, bytes)
    case ControlInput(c) => |bytes| >= 18 && At(bytes, 17, 1) == CommandCode(c) && CommandAt(c, bytes)
  }

  ghost predicate InputAt(input: Input, bytes: Bytes) {
    HeadAt(input.ingressSeq, input.recvTimeNs, EventTag(input.event), bytes) && EventAt(input.event, bytes)
  }

  lemma HeadFields(ingressSeq: u64, recvTimeNs: u64, tag: u8, bytes: Bytes)
    ensures |HeadBytes(ingressSeq, recvTimeNs, tag)| == 17
    ensures HeadBytes(ingressSeq, recvTimeNs, tag) <= bytes <==> HeadAt(ingressSeq, recvTimeNs, tag, bytes)
  {
    hide Put, At;
    Sizes();
    var o1 := Put([], 8, ingressSeq);
    PutHolds([], 8, ingressSeq, bytes);
    var o2 := Put(o1, 8, recvTimeNs);
    PutHolds(o1, 8, recvTimeNs, bytes);
    var o3 := Put(o2, 1, tag);
    PutHolds(o2, 1, tag, bytes);
  }

  lemma LevelFields(head: Bytes, side: Side, price: i64, quantity: u64, bytes: Bytes)
    requires |head| == 38
    ensures |LevelBytes(head, side, price, quantity)| == 55
    ensures LevelBytes(head, side, price, quantity) <= bytes <==> head <= bytes && LevelAt(side, price, quantity, bytes)
  {
    hide Put, At;
    Sizes();
    var o1 := Put(head, 1, SideCode(side));
    PutHolds(head, 1, SideCode(side), bytes);
    var o2 := Put(o1, 8, Unsigned(price));
    PutHolds(o1, 8, Unsigned(price), bytes);
    var o3 := Put(o2, 8, quantity);
    PutHolds(o2, 8, quantity, bytes);
  }

  lemma MarketFields(head: Bytes, m: MarketEvent, bytes: Bytes)
    requires |head| == 17
    ensures |MarketHead(head, m)| == 38
    ensures MarketHead(head, m) <= bytes <==> head <= bytes && MarketAt(m, bytes)
  {
    hide Put, At;
    Sizes();
    var o1 := Put(head, 4, m.instrument);
    PutHolds(head, 4, m.instrument, bytes);
    var o2 := Put(o1, 8, m.sourceSeq);
    PutHolds(o1, 8, m.sourceSeq, bytes);
    var o3 := Put(o2, 8, m.sourceTimeNs);
    PutHolds(o2, 8, m.sourceTimeNs, bytes);
    var o4 := Put(o3, 1, KindCode(m.kind));
    PutHolds(o3, 1, KindCode(m.kind), bytes);
  }

  lemma OrderFields(head: Bytes, r: Request, bytes: Bytes)
    requires |head| == 17
    ensures |OrderBytes(head, r)| == 76
    ensures OrderBytes(head, r) <= bytes <==> head <= bytes && OrderAt(r, bytes)
  {
    hide Put, At;
    Sizes();
    var o1 := Put(head, 1, RequestKindCode(r.kind));
    PutHolds(head, 1, RequestKindCode(r.kind), bytes);
    var o2 := Put(o1, 1, SideCode(r.side));
    PutHolds(o1, 1, SideCode(r.side), bytes);
    var o3 := Put(o2, 1, OrderTypeCode(r.orderType));
    PutHolds(o2, 1, OrderTypeCode(r.orderType), bytes);
    var o4 := Put(o3, 4, r.account);
    PutHolds(o3, 4, r.account, bytes);
    var o5 := Put(o4, 4, r.instrument);
    PutHolds(o4, 4, r.instrument, bytes);
    var o6 := Put(o5, 8, r.requestId);
    PutHolds(o5, 8, r.requestId, bytes);
    var o7 := Put(o6, 8, r.clientSeq);
    PutHolds(o6, 8, r.clientSeq, bytes);
    var o8 := Put(o7, 8, r.clientOrderId);
    PutHolds(o7, 8, r.clientOrderId, bytes);
    var o9 := Put(o8, 8, r.target);
    PutHolds(o8, 8, r.target, bytes);
    var o10 := Put(o9, 8, Unsigned(r.price));
    PutHolds(o9, 8, Unsigned(r.price), bytes);
    var o11 := Put(o10, 8, r.quantity);
    PutHolds(o10, 8, r.quantity, bytes);
  }

  lemma LimitsFields(head: Bytes, account: u32, l: Limits, bytes: Bytes)
    requires |head| == 18
    ensures |LimitsBytes(head, account, l)| == 78
    ensures LimitsBytes(head, account, l) <= bytes <==> head <= bytes && LimitsAt(account, l, bytes)
  {
    hide Put, At;
    Sizes();
    var o1 := Put(head, 4, account);
    PutHolds(head, 4, account, bytes);
    var o2 := Put(o1, 8, l.maxOrderQuantity);
    PutHolds(o1, 8, l.maxOrderQuantity, bytes);
    var o3 := Put(o2, 16, l.maxOrderNotional);
    PutHolds(o2, 16, l.maxOrderNotional, bytes);
    var o4 := Put(o3, 8, l.maxPositionLots);
    PutHolds(o3, 8, l.maxPositionLots, bytes);
    var o5 := Put(o4, 16, l.maxGrossExposure);
    PutHolds(o4, 16, l.maxGrossExposure, bytes);
    var o6 := Put(o5, 8, Unsigned(l.priceCollarTicks));
    PutHolds(o5, 8, Unsigned(l.priceCollarTicks), bytes);
  }

  lemma KindFields(head: Bytes, kind: MarketKind, bytes: Bytes)
    requires |head| == 38
    ensures KindBytes(head, kind) <= bytes <==> head <= bytes && KindAt(kind, bytes)
  {
    hide Put, At, LevelBytes, LevelAt;
    Sizes();
    match kind {
      case SnapshotBegin(n) => PutHolds(head, 8, n, bytes);
      case SnapshotLevel(side, price, quantity) => LevelFields(head, side, price, quantity, bytes);
      case SnapshotEnd(n, count) =>
        PutHolds(head, 8, n, bytes);
        PutHolds(Put(head, 8, n), 4, count, bytes);
      case LevelSet(side, price, quantity) => LevelFields(head, side, price, quantity, bytes);
      case MarketTrade(side, price, quantity) => LevelFields(head, side, price, quantity, bytes);
      case Heartbeat =>
      case FeedReset(epoch) => PutHolds(head, 8, epoch, bytes);
    }
  }

  lemma CommandFields(head: Bytes, c: Command, bytes: Bytes)
    requires |head| == 18
    ensures CommandBytes(head, c) <= bytes <==> head <= bytes && CommandAt(c, bytes)
  {
    hide Put, At, LimitsBytes, LimitsAt;
    Sizes();
    match c {
      case SetGlobalKill(engaged) => PutHolds(head, 1, FlagCode(engaged), bytes);
      case SetAccountEnabled(account, enabled) =>
        PutHolds(head, 4, account, bytes);
        PutHolds(Put(head, 4, account), 1, FlagCode(enabled), bytes);
      case SetAccountLimits(account, limits) => LimitsFields(head, account, limits, bytes);
    }
  }

  /** Bytes begin with an input's encoding exactly when they hold its fields. */
  lemma InputFields(input: Input, bytes: Bytes)
    ensures InputBytes(input) <= bytes <==> InputAt(input, bytes)
    ensures |InputBytes(input)| >= 17
  {
    hide Put, At, HeadBytes, HeadAt, MarketHead, MarketAt, KindBytes, KindAt, OrderBytes, OrderAt, CommandBytes, CommandAt;
    var tag := EventTag(input.event);
    var head := HeadBytes(input.ingressSeq, input.recvTimeNs, tag);
    HeadFields(input.ingressSeq, input.recvTimeNs, tag, bytes);
    HeadFields(input.ingressSeq, input.recvTimeNs, tag, InputBytes(input));
    EventFields(head, input.event, bytes);
    EventFields(head, input.event, InputBytes(input));
  }

  lemma EventFields(head: Bytes, e: Event, bytes: Bytes)
    requires |head| == 17
    ensures EventBytes(head, e) <= bytes <==> head <= bytes && EventAt(e, bytes)
  {
    hide Put, At, MarketHead, MarketAt, KindBytes, KindAt, OrderBytes, OrderAt, CommandBytes, CommandAt;
    Sizes();
    match e {
      case MarketInput(m) =>
        MarketFields(head, m, bytes);
        KindFields(MarketHead(head, m), m.kind, bytes);
      case OrderInput(r) => OrderFields(head, r, bytes);
      case ControlInput(c) =>
        PutHolds(head, 1, CommandCode(c), bytes);
        CommandFields(Put(head, 1, CommandCode(c)), c, bytes);
    }
  }

  // ---- unique decoding ----------------------------------------------------

  lemma MarketsEqual(m: MarketEvent, n: MarketEvent, bytes: Bytes)
    requires MarketAt(m, bytes) && KindAt(m.kind, bytes) && MarketAt(n, bytes) && KindAt(n.kind, bytes)
    ensures m == n
  {
    hide At;
  }

  lemma OrdersEqual(r: Request, q: Request, bytes: Bytes)
    requires OrderAt(r, bytes) && OrderAt(q, bytes)
    ensures r == q
  {
    hide At;
  }

  lemma CommandsEqual(c: Command, d: Command, bytes: Bytes)
    requires CommandCode(c) == CommandCode(d) && CommandAt(c, bytes) && CommandAt(d, bytes)
    ensures c == d
  {
    hide At;
  }

  /** The fields determine the input. */
  lemma InputDetermined(a: Input, b: Input, bytes: Bytes)
    requires InputAt(a, bytes) && InputAt(b, bytes)
    ensures a == b
  {
    hide At, MarketAt, KindAt, OrderAt, CommandAt;
    match (a.event, b.event) {
      case (MarketInput(m), MarketInput(n)) => MarketsEqual(m, n, bytes);
      case (OrderInput(r), OrderInput(q)) => OrdersEqual(r, q, bytes);
      case (ControlInput(c), ControlInput(d)) => CommandsEqual(c, d, bytes);
      case (_, _) =>
    }
  }

  lemma InputsPrefixFree()
    ensures PrefixFree(InputBytes)
  {
    hide InputBytes, InputAt;
    forall a, b | InputBytes(a) <= InputBytes(b) ensures a == b {
      InputFields(a, InputBytes(b));
      InputFields(b, InputBytes(b));
      InputDetermined(a, b, InputBytes(b));
    }
    forall a ensures InputBytes(a) != [] {
      InputFields(a, []);
    }
  }

  /** The recorded input bytes determine the inputs. */
  lemma InputStreamsDetermineInputs(xs: seq<Input>, ys: seq<Input>)
    requires Stream(InputBytes, xs) == Stream(InputBytes, ys)
    ensures xs == ys
  {
    hide InputBytes, Stream;
    InputsPrefixFree();
    StreamInjective(InputBytes, xs, ys);
  }

  // ---- the encoder --------------------------------------------------------

  method EncodeInput(input: Input, out: Buffer)
    requires out.Valid()
    modifies out
    ensures out.Valid() && out.data == old(out.data) + InputBytes(input)
  {
    hide Put, HeadBytes, EventBytes;
    out.Mark();
    EncodeHead(input.ingressSeq, input.recvTimeNs, EventTag(input.event), out);
    match input.event {
      case MarketInput(m) => EncodeMarket(m, out);
      case OrderInput(r) => EncodeOrder(r, out);
      case ControlInput(c) => EncodeCommand(c, out);
    }
  }

  method EncodeHead(ingressSeq: u64, recvTimeNs: u64, tag: u8, out: Buffer)
    requires out.Valid() && out.written == []
    modifies out
    ensures out.Valid() && out.base == old(out.base) && out.written == HeadBytes(ingressSeq, recvTimeNs, tag)
  {
    hide Put;
    out.Push(8, ingressSeq);
    out.Push(8, recvTimeNs);
    out.Push(1, tag);
  }

  method EncodeLevel(side: Side, price: i64, quantity: u64, out: Buffer)
    requires out.Valid()
    modifies out
    ensures out.Valid() && out.base == old(out.base) && out.written == LevelBytes(old(out.written), side, price, quantity)
  {
    hide Put;
    out.Push(1, SideCode(side));
    out.Push(8, Unsigned(price));
    out.Push(8, quantity);
  }

  method EncodeMarket(m: MarketEvent, out: Buffer)
    requires out.Valid()
    modifies out
    ensures out.Valid() && out.base == old(out.base) && out.written == EventBytes(old(out.written), MarketInput(m))
  {
    hide Put, LevelBytes;
    out.Push(4, m.instrument);
    out.Push(8, m.sourceSeq);
    out.Push(8, m.sourceTimeNs);
    match m.kind {
      case SnapshotBegin(n) =>
        out.Push(1, 1);
        out.Push(8, n);
      case SnapshotLevel(side, price, quantity) =>
        out.Push(1, 2);
        EncodeLevel(side, price, quantity, out);
      case SnapshotEnd(n, count) =>
        out.Push(1, 3);
        out.Push(8, n);
        out.Push(4, count);
      case LevelSet(side, price, quantity) =>
        out.Push(1, 4);
        EncodeLevel(side, price, quantity, out);
      case MarketTrade(side, price, quantity) =>
        out.Push(1, 5);
        EncodeLevel(side, price, quantity, out);
      case Heartbeat => out.Push(1, 6);
      case FeedReset(epoch) =>
        out.Push(1, 7);
        out.Push(8, epoch);
    }
  }

  method EncodeOrder(r: Request, out: Buffer)
    requires out.Valid()
    modifies out
    ensures out.Valid() && out.base == old(out.base) && out.written == EventBytes(old(out.written), OrderInput(r))
  {
    hide Put;
    out.Push(1, RequestKindCode(r.kind));
    out.Push(1, SideCode(r.side));
    out.Push(1, OrderTypeCode(r.orderType));
    out.Push(4, r.account);
    out.Push(4, r.instrument);
    out.Push(8, r.requestId);
    out.Push(8, r.clientSeq);
    out.Push(8, r.clientOrderId);
    out.Push(8, r.target);
    out.Push(8, Unsigned(r.price));
    out.Push(8, r.quantity);
  }

  method EncodeCommand(c: Command, out: Buffer)
    requires out.Valid()
    modifies out
    ensures out.Valid() && out.base == old(out.base) && out.written == EventBytes(old(out.written), ControlInput(c))
  {
    hide Put;
    match c {
      case SetGlobalKill(engaged) =>
        out.Push(1, 1);
        out.Push(1, FlagCode(engaged));
      case SetAccountEnabled(account, enabled) =>
        out.Push(1, 2);
        out.Push(4, account);
        out.Push(1, FlagCode(enabled));
      case SetAccountLimits(account, l) =>
        out.Push(1, 3);
        out.Push(4, account);
        out.Push(8, l.maxOrderQuantity);
        out.Push(16, l.maxOrderNotional);
        out.Push(8, l.maxPositionLots);
        out.Push(16, l.maxGrossExposure);
        out.Push(8, Unsigned(l.priceCollarTicks));
    }
  }
}
