/** The canonical encoding of output events, shared by the output digest and
    the journal, and its decoder. */
module Canonical {
  import opened Domain
  import opened Wire

  function TradeBytes(t: Trade): Bytes {
    var o1 := Put([], 1, 1);
    var o2 := Put(o1, 8, t.outputSeq);
    var o3 := Put(o2, 8, t.engineSeq);
    var o4 := Put(o3, 8, t.timeNs);
    var o5 := Put(o4, 8, t.tradeId);
    var o6 := Put(o5, 4, t.instrument);
    var o7 := Put(o6, 8, t.makerOrderId);
    var o8 := Put(o7, 8, t.takerOrderId);
    var o9 := Put(o8, 4, t.makerAccount);
    var o10 := Put(o9, 4, t.takerAccount);
    var o11 := Put(o10, 1, SideCode(t.aggressor));
    var o12 := Put(o11, 8, Unsigned(t.price));
    var o13 := Put(o12, 8, t.quantity);
    o13
  }

  /** A report up to its order id. */
  function ReportHead(r: Report): Bytes {
    var o1 := Put([], 1, 2);
    var o2 := Put(o1, 8, r.outputSeq);
    var o3 := Put(o2, 8, r.engineSeq);
    var o4 := Put(o3, 8, r.timeNs);
    var o5 := Put(o4, 4, r.account);
    var o6 := Put(o5, 4, r.instrument);
    var o7 := Put(o6, 8, r.requestId);
    var o8 := Put(o7, 8, r.clientOrderId);
    var o9 := Put(o8, 8, r.orderId);
    o9
  }

  function ReportBytes(r: Report): Bytes {
    var o9 := ReportHead(r);
    var o10 := Put(o9, 1, ReportKindCode(r.kind));
    var o11 := Put(o10, 1, StateCode(r.state));
    var o12 := Put(o11, 1, SideCode(r.side));
    var o13 := Put(o12, 1, OrderTypeCode(r.orderType));
    var o14 := Put(o13, 8, Unsigned(r.price));
    var o15 := Put(o14, 8, r.total);
    var o16 := Put(o15, 8, r.cumulative);
    var o17 := Put(o16, 8, r.remaining);
    var o18 := Put(o17, 8, r.lastQuantity);
    var o19 := Put(o18, 8, Unsigned(r.lastPrice));
    var o20 := Put(o19, 1, RejectCode(r.reject));
    o20
  }

  function StateHead(outputSeq: u64, engineSeq: u64, timeNs: u64, kind: u8): Bytes {
    Put(Put(Put(Put(Put([], 1, 3), 8, outputSeq), 8, engineSeq), 8, timeNs), 1, kind)
  }

  function ChangeKind(change: StateChange): u8 {
    match change
    case KillEngaged => 1
    case KillReleased => 2
    case EnabledChanged(_, _) => 3
    case LimitsChanged(_) => 4
    case FeedChanged(_, _) => 5
  }

  function ChangeBytes(head: Bytes, change: StateChange): Bytes {
    match change
    case KillEngaged => head
    case KillReleased => head
    case EnabledChanged(account, enabled) => Put(Put(head, 4, account), 1, FlagCode(enabled))
    case LimitsChanged(account) => Put(head, 4, account)
    case FeedChanged(instrument, state) => Put(Put(head, 4, instrument), 1, FeedCode(state))
  }

  function OutputBytes(e: Output): Bytes {
    match e
    case TradeOut(t) => TradeBytes(t)
    case ReportOut(r) => ReportBytes(r)
    case StateOut(outputSeq, engineSeq, timeNs, change) =>
      ChangeBytes(StateHead(outputSeq, engineSeq, timeNs, ChangeKind(change)), change)
  }

  // ---- where the fields lie -----------------------------------------------

  /** The fields of the event, at their offsets. */
  ghost predicate TradeAt(t: Trade, bytes: Bytes) {
    && |bytes| >= 78
    && At(bytes, 0, 1) == 1
    && At(bytes, 1, 8) == t.outputSeq
    && At(bytes, 9, 8) == t.engineSeq
    && At(bytes, 17, 8) == t.timeNs
    && At(bytes, 25, 8) == t.tradeId
    && At(bytes, 33, 4) == t.instrument
    && At(bytes, 37, 8) == t.makerOrderId
    && At(bytes, 45, 8) == t.takerOrderId
    && At(bytes, 53, 4) == t.makerAccount
    && At(bytes, 57, 4) == t.takerAccount
    && At(bytes, 61, 1) == SideCode(t.aggressor)
    && At(bytes, 62, 8) == Unsigned(t.price)
    && At(bytes, 70, 8) == t.quantity
  }

  ghost predicate ReportHeadAt(r: Report, bytes: Bytes) {
    && |bytes| >= 57
    && At(bytes, 0, 1) == 2
    && At(bytes, 1, 8) == r.outputSeq
    && At(bytes, 9, 8) == r.engineSeq
    && At(bytes, 17, 8) == r.timeNs
    && At(bytes, 25, 4) == r.account
    && At(bytes, 29, 4) == r.instrument
    && At(bytes, 33, 8) == r.requestId
    && At(bytes, 41, 8) == r.clientOrderId
    && At(bytes, 49, 8) == r.orderId
  }

  /** The fields of the event, at their offsets. */
  ghost predicate ReportAt(r: Report, bytes: Bytes) {
    && |bytes| >= 110
    && ReportHeadAt(r, bytes)
    && At(bytes, 57, 1) == ReportKindCode(r.kind)
    && At(bytes, 58, 1) == StateCode(r.state)
    && At(bytes, 59, 1) == SideCode(r.side)
    && At(bytes, 60, 1) == OrderTypeCode(r.orderType)
    && At(bytes, 61, 8) == Unsigned(r.price)
    && At(bytes, 69, 8) == r.total
    && At(bytes, 77, 8) == r.cumulative
    && At(bytes, 85, 8) == r.remaining
    && At(bytes, 93, 8) == r.lastQuantity
    && At(bytes, 101, 8) == Unsigned(r.lastPrice)
    && At(bytes, 109, 1) == RejectCode(r.reject)
  }

  ghost predicate HeadAt(outputSeq: u64, engineSeq: u64, timeNs: u64, kind: u8, bytes: Bytes) {
    && |bytes| >= 26
    && At(bytes, 0, 1) == 3
    && At(bytes, 1, 8) == outputSeq
    && At(bytes, 9, 8) == engineSeq
    && At(bytes, 17, 8) == timeNs
    && At(bytes, 25, 1) == kind
  }

  ghost predicate ChangeAt(change: StateChange, bytes: Bytes) {
    match change
    case KillEngaged => true
    case KillReleased => true
    case EnabledChanged(account, enabled) =>
      |bytes| >= 31 && At(bytes, 26, 4) == account && At(bytes, 30, 1) == FlagCode(enabled)
    case LimitsChanged(account) => |bytes| >= 30 && At(bytes, 26, 4) == account
    case FeedChanged(instrument, state) =>
      |bytes| >= 31 && At(bytes, 26, 4) == instrument && At(bytes, 30, 1) == FeedCode(state)
  }

  ghost predicate OutputAt(e: Output, bytes: Bytes) {
    match e
    case TradeOut(t) => TradeAt(t, bytes)
    case ReportOut(r) => ReportAt(r, bytes)
    case StateOut(outputSeq, engineSeq, timeNs, change) =>
      HeadAt(outputSeq, engineSeq, timeNs, ChangeKind(change), bytes) && ChangeAt(change, bytes)
  }

  function OutputLength(e: Output): nat {
    match e
    case TradeOut(_) => 78
    case ReportOut(_) => 110
    case StateOut(_, _, _, KillEngaged) => 26
    case StateOut(_, _, _, KillReleased) => 26
    case StateOut(_, _, _, LimitsChanged(_)) => 30
    case StateOut(_, _, _, _) => 31
  }

  lemma TradeFields(t: Trade, bytes: Bytes)
    ensures |TradeBytes(t)| == 78 && (TradeBytes(t) <= bytes <==> TradeAt(t, bytes))
  {
    hide Put, At;
    Sizes();
    var o1 := Put([], 1, 1);
    PutHolds([], 1, 1, bytes);
    var o2 := Put(o1, 8, t.outputSeq);
    PutHolds(o1, 8, t.outputSeq, bytes);
    var o3 := Put(o2, 8, t.engineSeq);
    PutHolds(o2, 8, t.engineSeq, bytes);
    var o4 := Put(o3, 8, t.timeNs);
    PutHolds(o3, 8, t.timeNs, bytes);
    var o5 := Put(o4, 8, t.tradeId);
    PutHolds(o4, 8, t.tradeId, bytes);
    var o6 := Put(o5, 4, t.instrument);
    PutHolds(o5, 4, t.instrument, bytes);
    var o7 := Put(o6, 8, t.makerOrderId);
    PutHolds(o6, 8, t.makerOrderId, bytes);
    var o8 := Put(o7, 8, t.takerOrderId);
    PutHolds(o7, 8, t.takerOrderId, bytes);
    var o9 := Put(o8, 4, t.makerAccount);
    PutHolds(o8, 4, t.makerAccount, bytes);
    var o10 := Put(o9, 4, t.takerAccount);
    PutHolds(o9, 4, t.takerAccount, bytes);
    var o11 := Put(o10, 1, SideCode(t.aggressor));
    PutHolds(o10, 1, SideCode(t.aggressor), bytes);
    var o12 := Put(o11, 8, Unsigned(t.price));
    PutHolds(o11, 8, Unsigned(t.price), bytes);
    var o13 := Put(o12, 8, t.quantity);
    PutHolds(o12, 8, t.quantity, bytes);
  }

  lemma ReportHeadFields(r: Report, bytes: Bytes)
    ensures |ReportHead(r)| == 57 && (ReportHead(r) <= bytes <==> ReportHeadAt(r, bytes))
  {
    hide Put, At;
    Sizes();
    var o1 := Put([], 1, 2);
    PutHolds([], 1, 2, bytes);
    var o2 := Put(o1, 8, r.outputSeq);
    PutHolds(o1, 8, r.outputSeq, bytes);
    var o3 := Put(o2, 8, r.engineSeq);
    PutHolds(o2, 8, r.engineSeq, bytes);
    var o4 := Put(o3, 8, r.timeNs);
    PutHolds(o3, 8, r.timeNs, bytes);
    var o5 := Put(o4, 4, r.account);
    PutHolds(o4, 4, r.account, bytes);
    var o6 := Put(o5, 4, r.instrument);
    PutHolds(o5, 4, r.instrument, bytes);
    var o7 := Put(o6, 8, r.requestId);
    PutHolds(o6, 8, r.requestId, bytes);
    var o8 := Put(o7, 8, r.clientOrderId);
    PutHolds(o7, 8, r.clientOrderId, bytes);
    var o9 := Put(o8, 8, r.orderId);
    PutHolds(o8, 8, r.orderId, bytes);
  }

  lemma ReportFields(r: Report, bytes: Bytes)
    ensures |ReportBytes(r)| == 110 && (ReportBytes(r) <= bytes <==> ReportAt(r, bytes))
  {
    hide Put, At, ReportHead, ReportHeadAt;
    Sizes();
    ReportHeadFields(r, bytes);
    var o9 := ReportHead(r);
    var o10 := Put(o9, 1, ReportKindCode(r.kind));
    PutHolds(o9, 1, ReportKindCode(r.kind), bytes);
    var o11 := Put(o10, 1, StateCode(r.state));
    PutHolds(o10, 1, StateCode(r.state), bytes);
    var o12 := Put(o11, 1, SideCode(r.side));
    PutHolds(o11, 1, SideCode(r.side), bytes);
    var o13 := Put(o12, 1, OrderTypeCode(r.orderType));
    PutHolds(o12, 1, OrderTypeCode(r.orderType), bytes);
    var o14 := Put(o13, 8, Unsigned(r.price));
    PutHolds(o13, 8, Unsigned(r.price), bytes);
    var o15 := Put(o14, 8, r.total);
    PutHolds(o14, 8, r.total, bytes);
    var o16 := Put(o15, 8, r.cumulative);
    PutHolds(o15, 8, r.cumulative, bytes);
    var o17 := Put(o16, 8, r.remaining);
    PutHolds(o16, 8, r.remaining, bytes);
    var o18 := Put(o17, 8, r.lastQuantity);
    PutHolds(o17, 8, r.lastQuantity, bytes);
    var o19 := Put(o18, 8, Unsigned(r.lastPrice));
    PutHolds(o18, 8, Unsigned(r.lastPrice), bytes);
    var o20 := Put(o19, 1, RejectCode(r.reject));
    PutHolds(o19, 1, RejectCode(r.reject), bytes);
  }

  lemma HeadFields(outputSeq: u64, engineSeq: u64, timeNs: u64, kind: u8, bytes: Bytes)
    ensures |StateHead(outputSeq, engineSeq, timeNs, kind)| == 26
    ensures StateHead(outputSeq, engineSeq, timeNs, kind) <= bytes <==> HeadAt(outputSeq, engineSeq, timeNs, kind, bytes)
  {
    hide Put, At;
    Sizes();
    var o1 := Put([], 1, 3);
    PutHolds([], 1, 3, bytes);
    var o2 := Put(o1, 8, outputSeq);
    PutHolds(o1, 8, outputSeq, bytes);
    var o3 := Put(o2, 8, engineSeq);
    PutHolds(o2, 8, engineSeq, bytes);
    var o4 := Put(o3, 8, timeNs);
    PutHolds(o3, 8, timeNs, bytes);
    PutHolds(o4, 1, kind, bytes);
  }

  lemma ChangeFields(head: Bytes, change: StateChange, bytes: Bytes)
    requires |head| == 26
    ensures ChangeBytes(head, change) <= bytes <==> head <= bytes && ChangeAt(change, bytes)
  {
    hide Put, At;
    Sizes();
    match change {
      case EnabledChanged(account, enabled) =>
        PutHolds(head, 4, account, bytes);
        PutHolds(Put(head, 4, account), 1, FlagCode(enabled), bytes);
      case LimitsChanged(account) => PutHolds(head, 4, account, bytes);
      case FeedChanged(instrument, state) =>
        PutHolds(head, 4, instrument, bytes);
        PutHolds(Put(head, 4, instrument), 1, FeedCode(state), bytes);
      case _ =>
    }
  }

  /** Bytes begin with an event's encoding exactly when they hold its fields. */
  lemma OutputFields(e: Output, bytes: Bytes)
    ensures |OutputBytes(e)| == OutputLength(e) && (OutputBytes(e) <= bytes <==> OutputAt(e, bytes))
  {
    hide TradeBytes, ReportBytes, StateHead, TradeAt, ReportAt, HeadAt, At;
    match e {
      case TradeOut(t) => TradeFields(t, bytes);
      case ReportOut(r) => ReportFields(r, bytes);
      case StateOut(outputSeq, engineSeq, timeNs, change) =>
        HeadFields(outputSeq, engineSeq, timeNs, ChangeKind(change), bytes);
        ChangeFields(StateHead(outputSeq, engineSeq, timeNs, ChangeKind(change)), change, bytes);
    }
  }

  // ---- unique decoding ----------------------------------------------------

  lemma TradesEqual(t: Trade, u: Trade, bytes: Bytes)
    requires TradeAt(t, bytes) && TradeAt(u, bytes)
    ensures t == u
  {
    hide At;
  }

  lemma ReportsEqual(r: Report, q: Report, bytes: Bytes)
    requires ReportAt(r, bytes) && ReportAt(q, bytes)
    ensures r == q
  {
    hide At, RejectCode, ReportKindCode, StateCode, SideCode, OrderTypeCode;
    CodesDetermine(r, q);
  }

  lemma CodesDetermine(r: Report, q: Report)
    ensures ReportKindCode(r.kind) == ReportKindCode(q.kind) ==> r.kind == q.kind
    ensures StateCode(r.state) == StateCode(q.state) ==> r.state == q.state
    ensures SideCode(r.side) == SideCode(q.side) ==> r.side == q.side
    ensures OrderTypeCode(r.orderType) == OrderTypeCode(q.orderType) ==> r.orderType == q.orderType
    ensures RejectCode(r.reject) == RejectCode(q.reject) ==> r.reject == q.reject
  {
    hide RejectCode;
    RejectsDetermine(r.reject, q.reject);
  }

  lemma RejectsDetermine(a: Option<RejectReason>, b: Option<RejectReason>)
    ensures RejectCode(a) == RejectCode(b) ==> a == b
  {
    hide ReasonCode, ReasonAt;
    if a.Some? {
      ReasonIsListed(a.value);
    }
    if b.Some? {
      ReasonIsListed(b.value);
    }
  }

  /** The fields determine the event. */
  lemma FieldsDetermine(a: Output, b: Output, bytes: Bytes)
    requires OutputAt(a, bytes) && OutputAt(b, bytes)
    ensures a == b
  {
    hide At;
    match (a, b) {
      case (TradeOut(t), TradeOut(u)) => TradesEqual(t, u, bytes);
      case (ReportOut(r), ReportOut(q)) => ReportsEqual(r, q, bytes);
      case (_, _) =>
    }
  }

  /** No encoding begins another, and none is empty. */
  lemma OutputsPrefixFree()
    ensures PrefixFree(OutputBytes)
  {
    hide OutputBytes, OutputAt;
    forall a, b | OutputBytes(a) <= OutputBytes(b) ensures a == b {
      OutputFields(a, OutputBytes(b));
      OutputFields(b, OutputBytes(b));
      FieldsDetermine(a, b, OutputBytes(b));
    }
    forall a ensures OutputBytes(a) != [] {
      OutputFields(a, []);
    }
  }

  /** The recorded output bytes determine the outputs. */
  lemma OutputStreamsDetermineOutputs(xs: seq<Output>, ys: seq<Output>)
    requires Stream(OutputBytes, xs) == Stream(OutputBytes, ys)
    ensures xs == ys
  {
    hide OutputBytes, Stream;
    OutputsPrefixFree();
    StreamInjective(OutputBytes, xs, ys);
  }

  // ---- the encoder --------------------------------------------------------

  method EncodeOutput(e: Output, out: Buffer)
    requires out.Valid()
    modifies out
    ensures out.Valid() && out.data == old(out.data) + OutputBytes(e)
  {
    out.Mark();
    match e {
      case TradeOut(t) => EncodeTrade(t, out);
      case ReportOut(r) => EncodeReport(r, out);
      case StateOut(outputSeq, engineSeq, timeNs, change) =>
        EncodeState(outputSeq, engineSeq, timeNs, change, out);
    }
  }

  method EncodeTrade(t: Trade, out: Buffer)
    requires out.Valid() && out.written == []
    modifies out
    ensures out.Valid() && out.base == old(out.base) && out.written == TradeBytes(t)
  {
    hide Put;
    out.Push(1, 1);
    out.Push(8, t.outputSeq);
    out.Push(8, t.engineSeq);
    out.Push(8, t.timeNs);
    out.Push(8, t.tradeId);
    out.Push(4, t.instrument);
    out.Push(8, t.makerOrderId);
    out.Push(8, t.takerOrderId);
    out.Push(4, t.makerAccount);
    out.Push(4, t.takerAccount);
    out.Push(1, SideCode(t.aggressor));
    out.Push(8, Unsigned(t.price));
    out.Push(8, t.quantity);
  }

  method EncodeReport(r: Report, out: Buffer)
    requires out.Valid() && out.written == []
    modifies out
    ensures out.Valid() && out.base == old(out.base) && out.written == ReportBytes(r)
  {
    hide Put;
    out.Push(1, 2);
    out.Push(8, r.outputSeq);
    out.Push(8, r.engineSeq);
    out.Push(8, r.timeNs);
    out.Push(4, r.account);
    out.Push(4, r.instrument);
    out.Push(8, r.requestId);
    out.Push(8, r.clientOrderId);
    out.Push(8, r.orderId);
    out.Push(1, ReportKindCode(r.kind));
    out.Push(1, StateCode(r.state));
    out.Push(1, SideCode(r.side));
    out.Push(1, OrderTypeCode(r.orderType));
    out.Push(8, Unsigned(r.price));
    out.Push(8, r.total);
    out.Push(8, r.cumulative);
    out.Push(8, r.remaining);
    out.Push(8, r.lastQuantity);
    out.Push(8, Unsigned(r.lastPrice));
    out.Push(1, RejectCode(r.reject));
  }

  method EncodeState(outputSeq: u64, engineSeq: u64, timeNs: u64, change: StateChange, out: Buffer)
    requires out.Valid() && out.written == []
    modifies out
    ensures out.Valid() && out.base == old(out.base)
    ensures out.written == OutputBytes(StateOut(outputSeq, engineSeq, timeNs, change))
  {
    hide Put;
    out.Push(1, 3);
    out.Push(8, outputSeq);
    out.Push(8, engineSeq);
    out.Push(8, timeNs);
    match change {
      case KillEngaged => out.Push(1, 1);
      case KillReleased => out.Push(1, 2);
      case EnabledChanged(account, enabled) =>
        out.Push(1, 3);
        out.Push(4, account);
        out.Push(1, FlagCode(enabled));
      case LimitsChanged(account) =>
        out.Push(1, 4);
        out.Push(4, account);
      case FeedChanged(instrument, state) =>
        out.Push(1, 5);
        out.Push(4, instrument);
        out.Push(1, FeedCode(state));
    }
  }

  // ---- beginnings of events -----------------------------------------------

  ghost predicate LegibleTrade(bytes: Bytes) {
    |bytes| > 61 ==> exists side :: At(bytes, 61, 1) == SideCode(side)
  }

  ghost predicate LegibleCodes(bytes: Bytes) {
    && (|bytes| > 57 ==> exists kind :: At(bytes, 57, 1) == ReportKindCode(kind))
    && (|bytes| > 58 ==> exists state :: At(bytes, 58, 1) == StateCode(state))
    && (|bytes| > 59 ==> exists side :: At(bytes, 59, 1) == SideCode(side))
    && (|bytes| > 60 ==> exists orderType :: At(bytes, 60, 1) == OrderTypeCode(orderType))
  }

  ghost predicate LegibleReport(bytes: Bytes) {
    LegibleCodes(bytes) && (|bytes| > 109 ==> exists reject :: At(bytes, 109, 1) == RejectCode(reject))
  }

  ghost predicate LegibleState(bytes: Bytes) {
    |bytes| > 25 ==>
      && 1 <= At(bytes, 25, 1) <= 5
      && (At(bytes, 25, 1) == 3 && |bytes| > 30 ==> exists flag :: At(bytes, 30, 1) == FlagCode(flag))
      && (At(bytes, 25, 1) == 5 && |bytes| > 30 ==> exists feed :: At(bytes, 30, 1) == FeedCode(feed))
  }

  /** Every code that has arrived means something. */
  ghost predicate Legible(bytes: Bytes) {
    |bytes| > 0 ==>
      && 1 <= At(bytes, 0, 1) <= 3
      && (At(bytes, 0, 1) == 1 ==> LegibleTrade(bytes))
      && (At(bytes, 0, 1) == 2 ==> LegibleReport(bytes))
      && (At(bytes, 0, 1) == 3 ==> LegibleState(bytes))
  }

  lemma SameByte(bytes: Bytes, longer: Bytes, at: nat)
    requires bytes <= longer && at < |bytes|
    ensures At(bytes, at, 1) == At(longer, at, 1)
  {
    assert bytes[at..at + 1] == longer[at..at + 1];
  }

  lemma LegibleBefore(bytes: Bytes, longer: Bytes)
    requires bytes <= longer && Legible(longer)
    ensures Legible(bytes)
  {
    hide At, SideCode, ReportKindCode, StateCode, OrderTypeCode, RejectCode, FlagCode, FeedCode;
    forall at | 0 <= at < |bytes| ensures At(bytes, at, 1) == At(longer, at, 1) {
      SameByte(bytes, longer, at);
    }
  }

  lemma EventIsLegible(e: Output, bytes: Bytes)
    requires OutputAt(e, bytes)
    ensures Legible(bytes)
  {
    hide At, SideCode, ReportKindCode, StateCode, OrderTypeCode, RejectCode, FlagCode, FeedCode;
  }

  /** Filled up with ones, legible bytes stay legible: one is a code everywhere. */
  lemma LegibleFilled(bytes: Bytes, longer: Bytes)
    requires Legible(bytes) && bytes <= longer && forall k :: |bytes| <= k < |longer| ==> longer[k] == 1
    ensures Legible(longer)
  {
    hide At, SideCode, ReportKindCode, StateCode, OrderTypeCode, RejectCode, FlagCode, FeedCode;
    forall at | 0 <= at < |longer|
      ensures At(longer, at, 1) == if at < |bytes| then At(bytes, at, 1) else 1
    {
      if at < |bytes| {
        SameByte(bytes, longer, at);
      } else {
        OneByte(longer, at);
      }
    }
    OneIsCode();
  }

  lemma OneByte(bytes: Bytes, at: nat)
    requires at < |bytes| && bytes[at] == 1
    ensures At(bytes, at, 1) == 1
  {
    var one := bytes[at..at + 1];
    assert one[0] == 1 && FromLe(one[1..]) == 0;
  }

  lemma OneIsCode()
    ensures SideCode(Buy) == ReportKindCode(Accepted) == StateCode(Working) == OrderTypeCode(LimitOrder) == 1
    ensures RejectCode(Some(MalformedRequest)) == FlagCode(true) == FeedCode(Unsynchronized) == 1
  {
  }

  /** Legible bytes that are long enough begin with an event. */
  lemma LegibleIsEvent(bytes: Bytes) returns (e: Output)
    requires |bytes| >= 110 && Legible(bytes)
    ensures OutputAt(e, bytes)
  {
    hide At, LegibleTrade, LegibleReport, LegibleState, TradeAt, ReportAt;
    match At(bytes, 0, 1) {
      case 1 =>
        var t := LegibleIsTrade(bytes);
        e := TradeOut(t);
      case 2 =>
        var r := LegibleIsReport(bytes);
        e := ReportOut(r);
      case _ =>
        e := LegibleIsState(bytes);
    }
  }

  lemma WordAt(bytes: Bytes, at: nat) returns (n: u64)
    requires at + 8 <= |bytes|
    ensures At(bytes, at, 8) == n && Unsigned(Signed(n)) == n
  {
    AtFits(bytes, at, 8);
    Sizes();
    n := At(bytes, at, 8);
    SignRoundTrips(0, n);
  }

  lemma HalfWordAt(bytes: Bytes, at: nat) returns (n: u32)
    requires at + 4 <= |bytes|
    ensures At(bytes, at, 4) == n
  {
    AtFits(bytes, at, 4);
    Sizes();
    n := At(bytes, at, 4);
  }

  lemma LegibleIsTrade(bytes: Bytes) returns (t: Trade)
    requires |bytes| >= 110 && At(bytes, 0, 1) == 1 && LegibleTrade(bytes)
    ensures TradeAt(t, bytes)
  {
    hide At, Unsigned, Signed, SideCode;
    var outputSeq := WordAt(bytes, 1);
    var engineSeq := WordAt(bytes, 9);
    var timeNs := WordAt(bytes, 17);
    var tradeId := WordAt(bytes, 25);
    var instrument := HalfWordAt(bytes, 33);
    var maker := WordAt(bytes, 37);
    var taker := WordAt(bytes, 45);
    var makerAccount := HalfWordAt(bytes, 53);
    var takerAccount := HalfWordAt(bytes, 57);
    var side :| At(bytes, 61, 1) == SideCode(side);
    var price := WordAt(bytes, 62);
    var quantity := WordAt(bytes, 70);
    t := Trade(outputSeq, engineSeq, timeNs, tradeId, instrument, maker, taker, makerAccount, takerAccount, side,
               Signed(price), quantity);
  }

  lemma LegibleIsReport(bytes: Bytes) returns (r: Report)
    requires |bytes| >= 110 && At(bytes, 0, 1) == 2 && LegibleReport(bytes)
    ensures ReportAt(r, bytes)
  {
    hide At, Unsigned, Signed, SideCode, ReportKindCode, StateCode, OrderTypeCode, RejectCode;
    var outputSeq := WordAt(bytes, 1);
    var engineSeq := WordAt(bytes, 9);
    var timeNs := WordAt(bytes, 17);
    var account := HalfWordAt(bytes, 25);
    var instrument := HalfWordAt(bytes, 29);
    var requestId := WordAt(bytes, 33);
    var client := WordAt(bytes, 41);
    var orderId := WordAt(bytes, 49);
    var kind :| At(bytes, 57, 1) == ReportKindCode(kind);
    var state :| At(bytes, 58, 1) == StateCode(state);
    var side :| At(bytes, 59, 1) == SideCode(side);
    var orderType :| At(bytes, 60, 1) == OrderTypeCode(orderType);
    var price := WordAt(bytes, 61);
    var total := WordAt(bytes, 69);
    var cumulative := WordAt(bytes, 77);
    var remaining := WordAt(bytes, 85);
    var lastQuantity := WordAt(bytes, 93);
    var lastPrice := WordAt(bytes, 101);
    var reject :| At(bytes, 109, 1) == RejectCode(reject);
    r := Report(outputSeq, engineSeq, timeNs, account, instrument, requestId, client, orderId, kind, state, side,
                orderType, Signed(price), total, cumulative, remaining, lastQuantity, Signed(lastPrice), reject);
  }

  lemma LegibleIsState(bytes: Bytes) returns (e: Output)
    requires |bytes| >= 110 && At(bytes, 0, 1) == 3 && LegibleState(bytes)
    ensures OutputAt(e, bytes)
  {
    hide At, FlagCode, FeedCode;
    var outputSeq := WordAt(bytes, 1);
    var engineSeq := WordAt(bytes, 9);
    var timeNs := WordAt(bytes, 17);
    var id := HalfWordAt(bytes, 26);
    match At(bytes, 25, 1) {
      case 1 =>
        e := StateOut(outputSeq, engineSeq, timeNs, KillEngaged);
      case 2 =>
        e := StateOut(outputSeq, engineSeq, timeNs, KillReleased);
      case 3 =>
        var flag :| At(bytes, 30, 1) == FlagCode(flag);
        e := StateOut(outputSeq, engineSeq, timeNs, EnabledChanged(id, flag));
      case 4 =>
        e := StateOut(outputSeq, engineSeq, timeNs, LimitsChanged(id));
      case _ =>
        var feed :| At(bytes, 30, 1) == FeedCode(feed);
        e := StateOut(outputSeq, engineSeq, timeNs, FeedChanged(id, feed));
    }
  }

  /** Bytes that begin with no event begin some event exactly when every code that
      has arrived means something. */
  lemma LegibleIsBegun(bytes: Bytes)
    requires forall e :: !(OutputBytes(e) <= bytes)
    ensures Legible(bytes) <==> exists e :: bytes < OutputBytes(e)
  {
    hide OutputBytes, OutputAt, Legible, OutputLength;
    if Legible(bytes) {
      var longer := bytes + seq(110, _ => 1);
      LegibleFilled(bytes, longer);
      var e := LegibleIsEvent(longer);
      OutputFields(e, longer);
      assert bytes <= longer && !(OutputBytes(e) <= bytes);
      NestedPrefixes(bytes, OutputBytes(e), longer);
    }
    if e :| bytes < OutputBytes(e) {
      OutputFields(e, OutputBytes(e));
      EventIsLegible(e, OutputBytes(e));
      LegibleBefore(bytes, OutputBytes(e));
    }
  }

  lemma NestedPrefixes(a: Bytes, b: Bytes, whole: Bytes)
    requires a <= whole && b <= whole && !(b <= a)
    ensures a < b
  {
  }

  // ---- the decoder --------------------------------------------------------

  datatype Decoded<+T> = Decoded(value: T, used: nat)

  /** Decodes the event at the start of the bytes: it succeeds exactly when the
      bytes begin with some event's encoding, and then returns that event and
      the length of its encoding. Otherwise the bytes are reported as truncated if
      more of them could make an event, and as an invalid field if none could. */
  method DecodeOutput(bytes: Bytes) returns (r: Result<Decoded<Output>>)
    ensures r.Ok? ==> r.value.used <= |bytes| && OutputBytes(r.value.value) == bytes[..r.value.used]
    ensures forall e :: OutputBytes(e) <= bytes ==> r == Ok(Decoded(e, |OutputBytes(e)|))
    ensures r.Err? ==> r.error.sourceSeq.None?
    ensures r.Err? ==> r.error.kind == if exists e :: bytes < OutputBytes(e) then Truncated else InvalidField
  {
    hide OutputBytes, At, TradeAt, ReportAt, Legible;
    var reader := new Reader(bytes);
    r := DecodeWith(reader);
    if r.Ok? {
      OutputFields(r.value.value, bytes);
    }
    forall e | OutputBytes(e) <= bytes ensures r == Ok(Decoded(e, |OutputBytes(e)|)) {
      OutputFields(e, bytes);
      if r.Ok? {
        FieldsDetermine(e, r.value.value, bytes);
      }
    }
    if r.Err? {
      LegibleIsBegun(bytes);
    }
  }

  method DecodeWith(reader: Reader) returns (r: Result<Decoded<Output>>)
    requires reader.offset == 0
    modifies reader
    ensures r.Ok? ==> OutputAt(r.value.value, reader.bytes) && r.value.used == OutputLength(r.value.value)
    ensures r.Err? ==> forall e :: !OutputAt(e, reader.bytes)
    ensures r.Err? ==> r.error.sourceSeq.None? && r.error.kind == if Legible(reader.bytes) then Truncated else InvalidField
  {
    hide At, LegibleTrade, LegibleReport, LegibleState;
    var tag :- reader.U8();
    match tag {
      case 1 =>
        var t :- ReadTrade(reader);
        return Ok(Decoded(TradeOut(t), reader.offset));
      case 2 =>
        var report :- ReadReport(reader);
        return Ok(Decoded(ReportOut(report), reader.offset));
      case 3 =>
        var e :- ReadState(reader);
        return Ok(Decoded(e, reader.offset));
      case _ => return Failure(InvalidField, reader.offset);
    }
  }

  /** A one-byte code is missing, or is there and means nothing. */
  ghost predicate CodeError(e: DecodeError, at: nat, bytes: Bytes) {
    e == if at < |bytes| then DecodeError(InvalidField, at + 1, None) else DecodeError(Truncated, at, None)
  }

  method ReadSide(reader: Reader) returns (r: Result<Side>)
    requires reader.Valid()
    modifies reader
    ensures reader.Valid()
    ensures r.Ok? ==> reader.offset == old(reader.offset) + 1
    ensures r.Ok? ==> At(reader.bytes, old(reader.offset), 1) == SideCode(r.value)
    ensures r.Err? ==> forall side ::
      old(reader.offset) + 1 > |reader.bytes| || At(reader.bytes, old(reader.offset), 1) != SideCode(side)
    ensures r.Err? ==> CodeError(r.error, old(reader.offset), reader.bytes)
  {
    var code :- reader.U8();
    match SideOf(code) {
      case None => return Failure(InvalidField, reader.offset);
      case Some(side) => return Ok(side);
    }
  }

  method ReadReportKind(reader: Reader) returns (r: Result<ReportKind>)
    requires reader.Valid()
    modifies reader
    ensures reader.Valid()
    ensures r.Ok? ==> reader.offset == old(reader.offset) + 1
    ensures r.Ok? ==> At(reader.bytes, old(reader.offset), 1) == ReportKindCode(r.value)
    ensures r.Err? ==> forall kind ::
      old(reader.offset) + 1 > |reader.bytes| || At(reader.bytes, old(reader.offset), 1) != ReportKindCode(kind)
    ensures r.Err? ==> CodeError(r.error, old(reader.offset), reader.bytes)
  {
    var code :- reader.U8();
    match ReportKindOf(code) {
      case None => return Failure(InvalidField, reader.offset);
      case Some(kind) => return Ok(kind);
    }
  }

  method ReadOrderState(reader: Reader) returns (r: Result<OrderState>)
    requires reader.Valid()
    modifies reader
    ensures reader.Valid()
    ensures r.Ok? ==> reader.offset == old(reader.offset) + 1
    ensures r.Ok? ==> At(reader.bytes, old(reader.offset), 1) == StateCode(r.value)
    ensures r.Err? ==> forall state ::
      old(reader.offset) + 1 > |reader.bytes| || At(reader.bytes, old(reader.offset), 1) != StateCode(state)
    ensures r.Err? ==> CodeError(r.error, old(reader.offset), reader.bytes)
  {
    var code :- reader.U8();
    match StateOf(code) {
      case None => return Failure(InvalidField, reader.offset);
      case Some(state) => return Ok(state);
    }
  }

  method ReadOrderType(reader: Reader) returns (r: Result<OrderType>)
    requires reader.Valid()
    modifies reader
    ensures reader.Valid()
    ensures r.Ok? ==> reader.offset == old(reader.offset) + 1
    ensures r.Ok? ==> At(reader.bytes, old(reader.offset), 1) == OrderTypeCode(r.value)
    ensures r.Err? ==> forall orderType ::
      old(reader.offset) + 1 > |reader.bytes| || At(reader.bytes, old(reader.offset), 1) != OrderTypeCode(orderType)
    ensures r.Err? ==> CodeError(r.error, old(reader.offset), reader.bytes)
  {
    var code :- reader.U8();
    match OrderTypeOf(code) {
      case None => return Failure(InvalidField, reader.offset);
      case Some(orderType) => return Ok(orderType);
    }
  }

  method ReadFeedState(reader: Reader) returns (r: Result<FeedState>)
    requires reader.Valid()
    modifies reader
    ensures reader.Valid()
    ensures r.Ok? ==> reader.offset == old(reader.offset) + 1
    ensures r.Ok? ==> At(reader.bytes, old(reader.offset), 1) == FeedCode(r.value)
    ensures r.Err? ==> forall feed ::
      old(reader.offset) + 1 > |reader.bytes| || At(reader.bytes, old(reader.offset), 1) != FeedCode(feed)
    ensures r.Err? ==> CodeError(r.error, old(reader.offset), reader.bytes)
  {
    var code :- reader.U8();
    match FeedOf(code) {
      case None => return Failure(InvalidField, reader.offset);
      case Some(feed) => return Ok(feed);
    }
  }

  method ReadFlag(reader: Reader) returns (r: Result<bool>)
    requires reader.Valid()
    modifies reader
    ensures reader.Valid()
    ensures r.Ok? ==> reader.offset == old(reader.offset) + 1
    ensures r.Ok? ==> At(reader.bytes, old(reader.offset), 1) == FlagCode(r.value)
    ensures r.Err? ==> forall flag ::
      old(reader.offset) + 1 > |reader.bytes| || At(reader.bytes, old(reader.offset), 1) != FlagCode(flag)
    ensures r.Err? ==> CodeError(r.error, old(reader.offset), reader.bytes)
  {
    var code :- reader.U8();
    match FlagOf(code) {
      case None => return Failure(InvalidField, reader.offset);
      case Some(flag) => return Ok(flag);
    }
  }

  method ReadReject(reader: Reader) returns (r: Result<Option<RejectReason>>)
    requires reader.Valid()
    modifies reader
    ensures reader.Valid()
    ensures r.Ok? ==> reader.offset == old(reader.offset) + 1
    ensures r.Ok? ==> At(reader.bytes, old(reader.offset), 1) == RejectCode(r.value)
    ensures r.Err? ==> forall reject ::
      old(reader.offset) + 1 > |reader.bytes| || At(reader.bytes, old(reader.offset), 1) != RejectCode(reject)
    ensures r.Err? ==> CodeError(r.error, old(reader.offset), reader.bytes)
  {
    hide RejectCode;
    var code :- reader.U8();
    var reject := RejectOf(code);
    match reject {
      case None => return Failure(InvalidField, reader.offset);
      case Some(value) => return Ok(value);
    }
  }

  /** The sequence numbers and the engine time every event begins with. */
  datatype Stamps = Stamps(outputSeq: u64, engineSeq: u64, timeNs: u64)

  ghost predicate StampsAt(s: Stamps, bytes: Bytes) {
    |bytes| >= 25 && At(bytes, 1, 8) == s.outputSeq && At(bytes, 9, 8) == s.engineSeq && At(bytes, 17, 8) == s.timeNs
  }

  method ReadStamps(reader: Reader) returns (r: Result<Stamps>)
    requires reader.offset == 1 <= |reader.bytes|
    modifies reader
    ensures reader.Valid()
    ensures r.Ok? <==> |reader.bytes| >= 25
    ensures r.Err? ==> r.error.kind.Truncated? && r.error.sourceSeq.None?
    ensures r.Ok? ==> reader.offset == 25 && StampsAt(r.value, reader.bytes)
  {
    hide At;
    var outputSeq :- reader.U64();
    var engineSeq :- reader.U64();
    var timeNs :- reader.U64();
    return Ok(Stamps(outputSeq, engineSeq, timeNs));
  }

  datatype Codes = Codes(kind: ReportKind, state: OrderState, side: Side, orderType: OrderType)

  ghost predicate CodesAt(c: Codes, bytes: Bytes) {
    && |bytes| >= 61
    && At(bytes, 57, 1) == ReportKindCode(c.kind)
    && At(bytes, 58, 1) == StateCode(c.state)
    && At(bytes, 59, 1) == SideCode(c.side)
    && At(bytes, 60, 1) == OrderTypeCode(c.orderType)
  }

  method ReadCodes(reader: Reader) returns (r: Result<Codes>)
    requires reader.offset == 57 <= |reader.bytes|
    modifies reader
    ensures reader.Valid()
    ensures r.Ok? ==> reader.offset == 61 && CodesAt(r.value, reader.bytes)
    ensures r.Err? ==> forall c :: !CodesAt(c, reader.bytes)
    ensures r.Err? ==> r.error.sourceSeq.None? && r.error.kind == if LegibleCodes(reader.bytes) then Truncated else InvalidField
    ensures r.Err? && LegibleCodes(reader.bytes) ==> |reader.bytes| < 61
  {
    hide At, ReportKindCode, StateCode, SideCode, OrderTypeCode;
    var kind :- ReadReportKind(reader);
    var state :- ReadOrderState(reader);
    var side :- ReadSide(reader);
    var orderType :- ReadOrderType(reader);
    return Ok(Codes(kind, state, side, orderType));
  }

  datatype Amounts = Amounts(price: i64, total: u64, cumulative: u64, remaining: u64, lastQuantity: u64, lastPrice: i64)

  ghost predicate AmountsAt(a: Amounts, bytes: Bytes) {
    && |bytes| >= 109
    && At(bytes, 61, 8) == Unsigned(a.price)
    && At(bytes, 69, 8) == a.total
    && At(bytes, 77, 8) == a.cumulative
    && At(bytes, 85, 8) == a.remaining
    && At(bytes, 93, 8) == a.lastQuantity
    && At(bytes, 101, 8) == Unsigned(a.lastPrice)
  }

  method ReadAmounts(reader: Reader) returns (r: Result<Amounts>)
    requires reader.offset == 61 <= |reader.bytes|
    modifies reader
    ensures reader.Valid()
    ensures r.Ok? <==> |reader.bytes| >= 109
    ensures r.Err? ==> r.error.kind.Truncated? && r.error.sourceSeq.None?
    ensures r.Ok? ==> reader.offset == 109 && AmountsAt(r.value, reader.bytes)
  {
    hide At, Unsigned;
    var price :- reader.I64();
    var total :- reader.U64();
    var cumulative :- reader.U64();
    var remaining :- reader.U64();
    var lastQuantity :- reader.U64();
    var lastPrice :- reader.I64();
    return Ok(Amounts(price, total, cumulative, remaining, lastQuantity, lastPrice));
  }

  datatype Parties = Parties(tradeId: u64, instrument: u32, maker: u64, taker: u64, makerAccount: u32, takerAccount: u32)

  ghost predicate PartiesAt(p: Parties, bytes: Bytes) {
    && |bytes| >= 61
    && At(bytes, 25, 8) == p.tradeId
    && At(bytes, 33, 4) == p.instrument
    && At(bytes, 37, 8) == p.maker
    && At(bytes, 45, 8) == p.taker
    && At(bytes, 53, 4) == p.makerAccount
    && At(bytes, 57, 4) == p.takerAccount
  }

  method ReadParties(reader: Reader) returns (r: Result<Parties>)
    requires reader.offset == 25 <= |reader.bytes|
    modifies reader
    ensures reader.Valid()
    ensures r.Ok? <==> |reader.bytes| >= 61
    ensures r.Err? ==> r.error.kind.Truncated? && r.error.sourceSeq.None?
    ensures r.Ok? ==> reader.offset == 61 && PartiesAt(r.value, reader.bytes)
  {
    hide At;
    var tradeId :- reader.U64();
    var instrument :- reader.U32();
    var maker :- reader.U64();
    var taker :- reader.U64();
    var makerAccount :- reader.U32();
    var takerAccount :- reader.U32();
    return Ok(Parties(tradeId, instrument, maker, taker, makerAccount, takerAccount));
  }

  method ReadTrade(reader: Reader) returns (r: Result<Trade>)
    requires reader.offset == 1 <= |reader.bytes| && At(reader.bytes, 0, 1) == 1
    modifies reader
    ensures reader.Valid()
    ensures r.Ok? ==> TradeAt(r.value, reader.bytes) && reader.offset == 78
    ensures r.Err? ==> forall t :: !TradeAt(t, reader.bytes)
    ensures r.Err? ==> r.error.sourceSeq.None? && r.error.kind == if LegibleTrade(reader.bytes) then Truncated else InvalidField
  {
    hide At, Unsigned, SideCode;
    var stamps :- ReadStamps(reader);
    var p :- ReadParties(reader);
    var aggressor :- ReadSide(reader);
    var price :- reader.I64();
    var quantity :- reader.U64();
    return Ok(Trade(stamps.outputSeq, stamps.engineSeq, stamps.timeNs, p.tradeId, p.instrument, p.maker, p.taker,
                    p.makerAccount, p.takerAccount, aggressor, price, quantity));
  }

  method ReadReport(reader: Reader) returns (r: Result<Report>)
    requires reader.offset == 1 <= |reader.bytes| && At(reader.bytes, 0, 1) == 2
    modifies reader
    ensures reader.Valid()
    ensures r.Ok? ==> ReportAt(r.value, reader.bytes) && reader.offset == 110
    ensures r.Err? ==> forall q :: !ReportAt(q, reader.bytes)
    ensures r.Err? ==> r.error.sourceSeq.None? && r.error.kind == if LegibleReport(reader.bytes) then Truncated else InvalidField
  {
    hide At, RejectCode, ReportKindCode, StateCode, SideCode, OrderTypeCode, Unsigned;
    var stamps :- ReadStamps(reader);
    var account :- reader.U32();
    var instrument :- reader.U32();
    var requestId :- reader.U64();
    var clientOrderId :- reader.U64();
    var orderId :- reader.U64();
    var codes := ReadCodes(reader);
    if codes.Err? {
      forall q ensures !ReportAt(q, reader.bytes) {
        assert !CodesAt(Codes(q.kind, q.state, q.side, q.orderType), reader.bytes);
      }
      return codes.PropagateFailure();
    }
    var c := codes.value;
    var a :- ReadAmounts(reader);
    var reject :- ReadReject(reader);
    return Ok(Report(stamps.outputSeq, stamps.engineSeq, stamps.timeNs, account, instrument, requestId, clientOrderId,
                     orderId, c.kind, c.state, c.side, c.orderType, a.price, a.total, a.cumulative, a.remaining,
                     a.lastQuantity, a.lastPrice, reject));
  }

  method ReadState(reader: Reader) returns (r: Result<Output>)
    requires reader.offset == 1 <= |reader.bytes| && At(reader.bytes, 0, 1) == 3
    modifies reader
    ensures reader.Valid()
    ensures r.Ok? ==> r.value.StateOut? && OutputAt(r.value, reader.bytes) && reader.offset == OutputLength(r.value)
    ensures r.Err? ==> forall e: Output :: e.StateOut? ==> !OutputAt(e, reader.bytes)
    ensures r.Err? ==> r.error.sourceSeq.None? && r.error.kind == if LegibleState(reader.bytes) then Truncated else InvalidField
  {
    hide At;
    var stamps :- ReadStamps(reader);
    var kind :- reader.U8();
    match kind {
      case 1 => return Ok(StateOut(stamps.outputSeq, stamps.engineSeq, stamps.timeNs, KillEngaged));
      case 2 => return Ok(StateOut(stamps.outputSeq, stamps.engineSeq, stamps.timeNs, KillReleased));
      case 3 =>
        var account :- reader.U32();
        var enabled :- ReadFlag(reader);
        return Ok(StateOut(stamps.outputSeq, stamps.engineSeq, stamps.timeNs, EnabledChanged(account, enabled)));
      case 4 =>
        var account :- reader.U32();
        return Ok(StateOut(stamps.outputSeq, stamps.engineSeq, stamps.timeNs, LimitsChanged(account)));
      case 5 =>
        var instrument :- reader.U32();
        var feed :- ReadFeedState(reader);
        return Ok(StateOut(stamps.outputSeq, stamps.engineSeq, stamps.timeNs, FeedChanged(instrument, feed)));
      case _ => return Failure(InvalidField, reader.offset);
    }
  }
}
