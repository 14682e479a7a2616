/** The binary feed format: length-delimited frames with a checksum. The
    checksum is a parameter; nothing is assumed of it. */
module FrameCodec {
  import opened Domain
  import opened Wire
  import opened Canonical

  const SCHEMA_VERSION: u16 := 1
  const MAX_FRAME_LEN: nat := 4096
  const FRAME_PREFIX_LEN: nat := 36
  const FRAME_CRC_LEN: nat := 4

  type Crc = Bytes -> u32

  datatype FrameBody =
    | BeginFrame(snapshotSeq: u64)
    | SnapshotLevelFrame(side: Side, price: i64, quantity: u64)
    | EndFrame(endSeq: u64, levelCount: u32, stateCrc: u32)
    | LevelSetFrame(side: Side, price: i64, quantity: u64)
    | TradeFrame(side: Side, price: i64, quantity: u64)
    | HeartbeatFrame
    | ResetFrame(newEpoch: u64)
    | OrderFrame(request: Request)

  datatype Frame = Frame(sourceSeq: u64, sourceTimeNs: u64, recvTimeNs: u64, instrument: u32, body: FrameBody)

  /** The frames that the format can carry back: an order travels without its
      instrument, which is the frame's, and a trade has a quantity. */
  predicate Encodable(f: Frame) {
    Carried(f.body, f.instrument)
  }

  predicate Carried(body: FrameBody, instrument: int) {
    (body.OrderFrame? ==> body.request.instrument == instrument) && (body.TradeFrame? ==> body.quantity > 0)
  }

  // ---- the format ---------------------------------------------------------

  function MessageType(body: FrameBody): u8 {
    match body
    case BeginFrame(_) => 1
    case SnapshotLevelFrame(_, _, _) => 2
    case EndFrame(_, _, _) => 3
    case LevelSetFrame(_, _, _) => 4
    case TradeFrame(_, _, _) => 5
    case HeartbeatFrame => 6
    case ResetFrame(_) => 7
    case OrderFrame(_) => 8
  }

  function PayloadSize(body: FrameBody): nat {
    match body
    case BeginFrame(_) => 8
    case SnapshotLevelFrame(_, _, _) => 17
    case EndFrame(_, _, _) => 16
    case LevelSetFrame(_, _, _) => 17
    case TradeFrame(_, _, _) => 17
    case HeartbeatFrame => 0
    case ResetFrame(_) => 8
    case OrderFrame(_) => 55
  }

  function FrameSize(f: Frame): nat {
    FRAME_PREFIX_LEN + PayloadSize(f.body) + FRAME_CRC_LEN
  }

  function PrefixBytes(length: nat, f: Frame): Bytes {
    var o1 := Put([], 4, length);
    var o2 := Put(o1, 1, MessageType(f.body));
    var o3 := Put(o2, 1, 0);
    var o4 := Put(o3, 2, SCHEMA_VERSION);
    var o5 := Put(o4, 8, f.sourceSeq);
    var o6 := Put(o5, 8, f.sourceTimeNs);
    var o7 := Put(o6, 8, f.recvTimeNs);
    var o8 := Put(o7, 4, f.instrument);
    o8
  }

  function LevelBytes(head: Bytes, side: Side, price: i64, quantity: u64): Bytes {
    var o1 := Put(head, 1, SideCode(side));
    var o2 := Put(o1, 8, Unsigned(price));
    var o3 := Put(o2, 8, quantity);
    o3
  }

  function OrderBytes(head: Bytes, r: Request): Bytes {
    var o1 := Put(head, 1, RequestKindCode(r.kind));
    var o2 := Put(o1, 1, SideCode(r.side));
    var o3 := Put(o2, 1, OrderTypeCode(r.orderType));
    var o4 := Put(o3, 4, r.account);
    var o5 := Put(o4, 8, r.clientOrderId);
    var o6 := Put(o5, 8, r.target);
    var o7 := Put(o6, 8, r.requestId);
    var o8 := Put(o7, 8, r.clientSeq);
    var o9 := Put(o8, 8, Unsigned(r.price));
    var o10 := Put(o9, 8, r.quantity);
    o10
  }

  function PayloadBytes(head: Bytes, body: FrameBody): Bytes {
    match body
    case BeginFrame(n) => Put(head, 8, n)
    case SnapshotLevelFrame(side, price, quantity) => LevelBytes(head, side, price, quantity)
    case EndFrame(n, count, crc) => Put(Put(Put(head, 8, n), 4, count), 4, crc)
    case LevelSetFrame(side, price, quantity) => LevelBytes(head, side, price, quantity)
    case TradeFrame(side, price, quantity) => LevelBytes(head, side, price, quantity)
    case HeartbeatFrame => head
    case ResetFrame(epoch) => Put(head, 8, epoch)
    case OrderFrame(r) => OrderBytes(head, r)
  }

  /** The frame up to its checksum. */
  function ContentBytes(f: Frame): Bytes {
    PayloadBytes(PrefixBytes(FrameSize(f), f), f.body)
  }

  function FrameBytes(crc: Crc, f: Frame): Bytes {
    ContentBytes(f) + ToLe(crc(ContentBytes(f)), 4)
  }

  // ---- where the fields lie -----------------------------------------------

  ghost predicate PrefixAt(length: nat, f: Frame, bytes: Bytes) {
    && |bytes| >= 36
    && At(bytes, 0, 4) == length
    && At(bytes, 4, 1) == MessageType(f.body)
    && At(bytes, 5, 1) == 0
    && At(bytes, 6, 2) == SCHEMA_VERSION
    && At(bytes, 8, 8) == f.sourceSeq
    && At(bytes, 16, 8) == f.sourceTimeNs
    && At(bytes, 24, 8) == f.recvTimeNs
    && At(bytes, 32, 4) == f.instrument
  }

  ghost predicate LevelAt(side: Side, price: i64, quantity: u64, bytes: Bytes) {
    && |bytes| >= 53
    && At(bytes, 36, 1) == SideCode(side)
    && At(bytes, 37, 8) == Unsigned(price)
    && At(bytes, 45, 8) == quantity
  }

  ghost predicate OrderAt(r: Request, bytes: Bytes) {
    && |bytes| >= 91
    && At(bytes, 36, 1) == RequestKindCode(r.kind)
    && At(bytes, 37, 1) == SideCode(r.side)
    && At(bytes, 38, 1) == OrderTypeCode(r.orderType)
    && At(bytes, 39, 4) == r.account
    && At(bytes, 43, 8) == r.clientOrderId
    && At(bytes, 51, 8) == r.target
    && At(bytes, 59, 8) == r.requestId
    && At(bytes, 67, 8) == r.clientSeq
    && At(bytes, 75, 8) == Unsigned(r.price)
    && At(bytes, 83, 8) == r.quantity
  }

  ghost predicate PayloadAt(body: FrameBody, bytes: Bytes) {
    match body
    case BeginFrame(n) => |bytes| >= 44 && At(bytes, 36, 8) == n
    case SnapshotLevelFrame(side, price, quantity) => LevelAt(side, price, quantity, bytes)
    case EndFrame(n, count, crc) =>
      |bytes| >= 52 && At(bytes, 36, 8) == n && At(bytes, 44, 4) == count && At(bytes, 48, 4) == crc
    case LevelSetFrame(side, price, quantity) => LevelAt(side, price, quantity, bytes)
    case TradeFrame(side, price, quantity) => LevelAt(side, price, quantity, bytes)
    case HeartbeatFrame => true
    case ResetFrame(epoch) => |bytes| >= 44 && At(bytes, 36, 8) == epoch
    case OrderFrame(r) => OrderAt(r, bytes)
  }

  /** The content is exactly this frame's. */
  ghost predicate ContentAt(f: Frame, bytes: Bytes) {
    |bytes| + FRAME_CRC_LEN == FrameSize(f) && PrefixAt(FrameSize(f), f, bytes) && PayloadAt(f.body, bytes)
  }

  lemma PrefixFields(length: nat, f: Frame, bytes: Bytes)
    requires length <= MAX_FRAME_LEN
    ensures |PrefixBytes(length, f)| == 36
    ensures PrefixBytes(length, f) <= bytes <==> PrefixAt(length, f, bytes)
  {
    hide Put, At;
    Sizes();
    var o1 := Put([], 4, length);
    PutHolds([], 4, length, bytes);
    var o2 := Put(o1, 1, MessageType(f.body));
    PutHolds(o1, 1, MessageType(f.body), bytes);
    var o3 := Put(o2, 1, 0);
    PutHolds(o2, 1, 0, bytes);
    var o4 := Put(o3, 2, SCHEMA_VERSION);
    PutHolds(o3, 2, SCHEMA_VERSION, bytes);
    var o5 := Put(o4, 8, f.sourceSeq);
    PutHolds(o4, 8, f.sourceSeq, bytes);
    var o6 := Put(o5, 8, f.sourceTimeNs);
    PutHolds(o5, 8, f.sourceTimeNs, bytes);
    var o7 := Put(o6, 8, f.recvTimeNs);
    PutHolds(o6, 8, f.recvTimeNs, bytes);
    var o8 := Put(o7, 4, f.instrument);
    PutHolds(o7, 4, f.instrument, bytes);
  }

  lemma LevelFields(head: Bytes, side: Side, price: i64, quantity: u64, bytes: Bytes)
    requires |head| == 36
    ensures |LevelBytes(head, side, price, quantity)| == 53
    ensures LevelBytes(head, side, price, quantity) <= bytes <==> head <= bytes && LevelAt(side, price, quantity, bytes)
  {
    hide Put, At;
    Sizes();
    var o1 := Put(head, 1, SideCode(side));
    PutHolds(head, 1, SideCode(side), bytes);
    var o2 := Put(o1, 8, Unsigned(price));
    PutHolds(o1, 8, Unsigned(price), bytes);
    var o3 := Put(o2, 8, quantity);
    PutHolds(o2, 8, quantity, bytes);
  }

  lemma OrderFields(head: Bytes, r: Request, bytes: Bytes)
    requires |head| == 36
    ensures |OrderBytes(head, r)| == 91
    ensures OrderBytes(head, r) <= bytes <==> head <= bytes && OrderAt(r, bytes)
  {
    hide Put, At;
    Sizes();
    var o1 := Put(head, 1, RequestKindCode(r.kind));
    PutHolds(head, 1, RequestKindCode(r.kind), bytes);
    var o2 := Put(o1, 1, SideCode(r.side));
    PutHolds(o1, 1, SideCode(r.side), bytes);
    var o3 := Put(o2, 1, OrderTypeCode(r.orderType));
    PutHolds(o2, 1, OrderTypeCode(r.orderType), bytes);
    var o4 := Put(o3, 4, r.account);
    PutHolds(o3, 4, r.account, bytes);
    var o5 := Put(o4, 8, r.clientOrderId);
    PutHolds(o4, 8, r.clientOrderId, bytes);
    var o6 := Put(o5, 8, r.target);
    PutHolds(o5, 8, r.target, bytes);
    var o7 := Put(o6, 8, r.requestId);
    PutHolds(o6, 8, r.requestId, bytes);
    var o8 := Put(o7, 8, r.clientSeq);
    PutHolds(o7, 8, r.clientSeq, bytes);
    var o9 := Put(o8, 8, Unsigned(r.price));
    PutHolds(o8, 8, Unsigned(r.price), bytes);
    var o10 := Put(o9, 8, r.quantity);
    PutHolds(o9, 8, r.quantity, bytes);
  }

  lemma PayloadFields(head: Bytes, body: FrameBody, bytes: Bytes)
    requires |head| == 36
    ensures |PayloadBytes(head, body)| == 36 + PayloadSize(body)
    ensures PayloadBytes(head, body) <= bytes <==> head <= bytes && PayloadAt(body, bytes)
  {
    hide Put, At, LevelBytes, LevelAt, OrderBytes, OrderAt;
    Sizes();
    match body {
      case BeginFrame(n) => PutHolds(head, 8, n, bytes);
      case SnapshotLevelFrame(side, price, quantity) => LevelFields(head, side, price, quantity, bytes);
      case EndFrame(n, count, crc) =>
        PutHolds(head, 8, n, bytes);
        PutHolds(Put(head, 8, n), 4, count, bytes);
        PutHolds(Put(Put(head, 8, n), 4, count), 4, crc, bytes);
      case LevelSetFrame(side, price, quantity) => LevelFields(head, side, price, quantity, bytes);
      case TradeFrame(side, price, quantity) => LevelFields(head, side, price, quantity, bytes);
      case HeartbeatFrame =>
      case ResetFrame(epoch) => PutHolds(head, 8, epoch, bytes);
      case OrderFrame(r) => OrderFields(head, r, bytes);
    }
  }

  lemma ContentFields(f: Frame, bytes: Bytes)
    ensures |ContentBytes(f)| + FRAME_CRC_LEN == FrameSize(f)
    ensures ContentBytes(f) == bytes <==> ContentAt(f, bytes)
  {
    hide PrefixBytes, PrefixAt, PayloadBytes, PayloadAt;
    PrefixFields(FrameSize(f), f, bytes);
    PayloadFields(PrefixBytes(FrameSize(f), f), f.body, bytes);
    if ContentBytes(f) <= bytes && |bytes| == |ContentBytes(f)| {
      assert ContentBytes(f) == bytes;
    }
  }

  // ---- unique decoding ----------------------------------------------------

  lemma RequestsEqual(r: Request, q: Request, bytes: Bytes)
    requires OrderAt(r, bytes) && OrderAt(q, bytes) && r.instrument == q.instrument
    ensures r == q
  {
    hide At;
  }

  lemma BodiesEqual(a: FrameBody, b: FrameBody, bytes: Bytes)
    requires MessageType(a) == MessageType(b) && PayloadAt(a, bytes) && PayloadAt(b, bytes)
    requires a.OrderFrame? && b.OrderFrame? ==> a.request.instrument == b.request.instrument
    ensures a == b
  {
    hide At, OrderAt;
    if a.OrderFrame? && b.OrderFrame? {
      RequestsEqual(a.request, b.request, bytes);
    }
  }

  /** The content determines an encodable frame. */
  lemma ContentDetermines(a: Frame, b: Frame, bytes: Bytes)
    requires Encodable(a) && Encodable(b) && ContentAt(a, bytes) && ContentAt(b, bytes)
    ensures a == b
  {
    hide At, PayloadAt;
    TypesEqual(a.body, b.body);
    BodiesEqual(a.body, b.body, bytes);
  }

  lemma TypesEqual(a: FrameBody, b: FrameBody)
    ensures MessageType(a) == MessageType(b) ==> (a.OrderFrame? <==> b.OrderFrame?)
  {
  }

  // ---- the encoder --------------------------------------------------------

  /** Writes a frame with a zero length, then patches the length in. */
  method EncodeFrame(crc: Crc, f: Frame, out: Buffer)
    requires out.Valid()
    modifies out
    ensures out.Valid() && out.data == old(out.data) + FrameBytes(crc, f)
  {
    hide Put, PrefixBytes, PayloadBytes, ContentBytes, ToLe, PayloadSize;
    var start := |out.data|;
    out.Mark();
    EncodePrefix(f, out);
    EncodePayload(f.body, out);
    Patched(f, out.written);
    var length := |out.data| - start + FRAME_CRC_LEN;
    out.Patch(start, length);
    Behind(out.base, out.written);
    var check := crc(out.data[start..]);
    PutIs(out.written, check);
    out.Push(4, check);
  }

  lemma Behind(base: Bytes, written: Bytes)
    ensures (base + written)[|base|..] == written
  {
  }

  lemma PutIs(out: Bytes, n: nat)
    ensures Put(out, 4, n) == out + ToLe(n, 4)
  {
  }

  method EncodePrefix(f: Frame, out: Buffer)
    requires out.Valid() && out.written == []
    modifies out
    ensures out.Valid() && out.base == old(out.base) && out.written == PrefixBytes(0, f)
  {
    hide Put;
    out.Push(4, 0);
    out.Push(1, MessageType(f.body));
    out.Push(1, 0);
    out.Push(2, SCHEMA_VERSION);
    out.Push(8, f.sourceSeq);
    out.Push(8, f.sourceTimeNs);
    out.Push(8, f.recvTimeNs);
    out.Push(4, f.instrument);
  }

  method EncodeLevel(side: Side, price: i64, quantity: u64, out: Buffer)
    requires out.Valid()
    modifies out
    ensures out.Valid() && out.base == old(out.base) && out.written == LevelBytes(old(out.written), side, price, quantity)
  {
    hide Put;
    out.Push(1, SideCode(side));
    out.Push(8, Unsigned(price));
    out.Push(8, quantity);
  }

  method EncodePayload(body: FrameBody, out: Buffer)
    requires out.Valid()
    modifies out
    ensures out.Valid() && out.base == old(out.base) && out.written == PayloadBytes(old(out.written), body)
  {
    hide Put, LevelBytes;
    match body {
      case BeginFrame(n) => out.Push(8, n);
      case SnapshotLevelFrame(side, price, quantity) => EncodeLevel(side, price, quantity, out);
      case EndFrame(n, count, crc) =>
        out.Push(8, n);
        out.Push(4, count);
        out.Push(4, crc);
      case LevelSetFrame(side, price, quantity) => EncodeLevel(side, price, quantity, out);
      case TradeFrame(side, price, quantity) => EncodeLevel(side, price, quantity, out);
      case HeartbeatFrame =>
      case ResetFrame(epoch) => out.Push(8, epoch);
      case OrderFrame(r) =>
        out.Push(1, RequestKindCode(r.kind));
        out.Push(1, SideCode(r.side));
        out.Push(1, OrderTypeCode(r.orderType));
        out.Push(4, r.account);
        out.Push(8, r.clientOrderId);
        out.Push(8, r.target);
        out.Push(8, r.requestId);
        out.Push(8, r.clientSeq);
        out.Push(8, Unsigned(r.price));
        out.Push(8, r.quantity);
    }
  }

  /** Patching the length of the unfinished content gives the content. */
  lemma Patched(f: Frame, w: Bytes)
    requires w == PayloadBytes(PrefixBytes(0, f), f.body)
    ensures |w| + FRAME_CRC_LEN == FrameSize(f)
    ensures ToLe(FrameSize(f), 4) + w[4..] == ContentBytes(f)
  {
    hide At, PrefixBytes, PayloadBytes, ContentBytes, PrefixAt, PayloadAt;
    PrefixFields(0, f, w);
    PayloadFields(PrefixBytes(0, f), f.body, w);
    var patched := ToLe(FrameSize(f), 4) + w[4..];
    SameFields(FrameSize(f), w, patched);
    PatchedPrefix(f, w, patched);
    PatchedPayload(f.body, w, patched);
    ContentFields(f, patched);
  }

  ghost predicate AgreeAfter(w: Bytes, p: Bytes) {
    |w| == |p| && forall at: nat, k: nat :: 4 <= at && at + k <= |p| ==> At(p, at, k) == At(w, at, k)
  }

  lemma SameFields(length: nat, w: Bytes, p: Bytes)
    requires |w| >= 4 && p == ToLe(length, 4) + w[4..] && length <= MAX_FRAME_LEN
    ensures AgreeAfter(w, p) && At(p, 0, 4) == length
  {
    Sizes();
    LeRoundTrip(length, 4);
    assert p[0..4] == ToLe(length, 4);
    forall at: nat, k: nat | 4 <= at && at + k <= |p| ensures At(p, at, k) == At(w, at, k) {
      assert p[at..at + k] == w[at..at + k];
    }
  }

  lemma PatchedPrefix(f: Frame, w: Bytes, p: Bytes)
    requires AgreeAfter(w, p) && PrefixAt(0, f, w) && At(p, 0, 4) == FrameSize(f)
    ensures PrefixAt(FrameSize(f), f, p)
  {
    hide At;
  }

  lemma PatchedPayload(body: FrameBody, w: Bytes, p: Bytes)
    requires AgreeAfter(w, p) && PayloadAt(body, w)
    ensures PayloadAt(body, p)
  {
    hide At;
  }

  // ---- the decoder --------------------------------------------------------

  /** The length field says a length a frame can have. */
  ghost predicate Plausible(bytes: Bytes) {
    |bytes| >= 4 && FRAME_PREFIX_LEN + FRAME_CRC_LEN <= At(bytes, 0, 4) <= MAX_FRAME_LEN
  }

  /** The rest of the frame has yet to arrive. */
  ghost predicate Incomplete(bytes: Bytes) {
    |bytes| < 4 || (Plausible(bytes) && |bytes| < At(bytes, 0, 4))
  }

  ghost predicate Whole(bytes: Bytes) {
    Plausible(bytes) && At(bytes, 0, 4) <= |bytes|
  }

  ghost predicate Intact(crc: Crc, bytes: Bytes) {
    Whole(bytes) && At(bytes, At(bytes, 0, 4) - 4, 4) == crc(bytes[..At(bytes, 0, 4) - 4])
  }

  /** What the content lacks, if it is not an encodable frame's: reserved flags and
      the schema version come first, and every later error carries the source
      sequence. */
  ghost predicate ContentError(content: Bytes, e: DecodeError)
    requires |content| >= 36
  {
    var current := At(content, 5, 1) == 0 && At(content, 6, 2) == SCHEMA_VERSION;
    && (e == DecodeError(ReservedFlags, 5, None) <==> At(content, 5, 1) != 0)
    && (e == DecodeError(UnsupportedVersion, 6, None) <==> At(content, 5, 1) == 0 && At(content, 6, 2) != SCHEMA_VERSION)
    && (e.sourceSeq.Some? <==> current) && (current ==> e.sourceSeq.value == At(content, 8, 8))
    && (e.kind.UnknownMessageType? <==> current && !(1 <= At(content, 4, 1) <= 8))
    && (e.kind.PayloadLength? <==> current && exists body :: Misfits(body, content))
    && (e.kind.InvalidField? <==> current && BadPayload(At(content, 4, 1), content))
    && (current ==> e.kind in {UnknownMessageType, PayloadLength, Truncated, InvalidField})
  }

  ghost predicate BadSide(content: Bytes) {
    |content| > 36 && forall side :: At(content, 36, 1) != SideCode(side)
  }

  ghost predicate BadOrder(content: Bytes) {
    || (|content| > 36 && forall kind :: At(content, 36, 1) != RequestKindCode(kind))
    || (|content| > 37 && forall side :: At(content, 37, 1) != SideCode(side))
    || (|content| > 38 && forall orderType :: At(content, 38, 1) != OrderTypeCode(orderType))
  }

  /** The payload has a code that means nothing, or trades nothing. */
  ghost predicate BadPayload(messageType: int, content: Bytes) {
    || (messageType in {2, 4, 5} && BadSide(content))
    || (messageType == 5 && |content| >= 53 && At(content, 45, 8) == 0)
    || (messageType == 8 && BadOrder(content))
  }

  /** A payload of the announced type lies there and leaves bytes over. */
  ghost predicate Misfits(body: FrameBody, content: Bytes)
    requires |content| >= 36
  {
    && MessageType(body) == At(content, 4, 1) && Carried(body, At(content, 32, 4)) && PayloadAt(body, content)
    && FRAME_PREFIX_LEN + PayloadSize(body) < |content|
  }

  /** Every proper beginning of a frame is reported as incomplete, never as bad. */
  lemma CutFrameIsIncomplete(crc: Crc, f: Frame, bytes: Bytes)
    requires bytes < FrameBytes(crc, f)
    ensures Incomplete(bytes)
  {
    hide FrameBytes, ContentAt, PayloadSize;
    var whole := FrameBytes(crc, f);
    FrameParts(crc, f, whole);
    SizesFit();
    if |bytes| >= 4 {
      assert bytes[0..4] == whole[0..4];
    }
  }

  /** Decodes the frame at the start of the bytes: it succeeds exactly when the
      bytes begin with the encoding of an encodable frame, and then returns that
      frame and the length of its encoding. Otherwise the error says what is wrong:
      more bytes are needed, the length or the checksum is, or the content is. */
  method DecodeFrame(crc: Crc, bytes: Bytes) returns (r: Result<Decoded<Frame>>)
    ensures r.Ok? ==> Encodable(r.value.value)
    ensures r.Ok? ==> r.value.used <= |bytes| && FrameBytes(crc, r.value.value) == bytes[..r.value.used]
    ensures forall f :: Encodable(f) && FrameBytes(crc, f) <= bytes ==> r == Ok(Decoded(f, |FrameBytes(crc, f)|))
    ensures r == Failure(Truncated, 0) <==> Incomplete(bytes)
    ensures r == Failure(FrameLength, 0) <==> |bytes| >= 4 && !Plausible(bytes)
    ensures Whole(bytes) ==> (r == Failure(Checksum, At(bytes, 0, 4) - 4) <==> !Intact(crc, bytes))
    ensures r.Err? && Intact(crc, bytes) ==> ContentError(bytes[..At(bytes, 0, 4) - 4], r.error)
  {
    hide FrameBytes, Encodable, Plausible, ContentError, At;
    r := DecodeChecked(crc, bytes);
    forall f | Encodable(f) && FrameBytes(crc, f) <= bytes ensures r == Ok(Decoded(f, |FrameBytes(crc, f)|)) {
      FrameParts(crc, f, bytes);
      if r.Ok? {
        FrameParts(crc, r.value.value, bytes);
        ContentDetermines(f, r.value.value, bytes[..FrameSize(f) - 4]);
      }
    }
  }

  /** What bytes that begin with a frame look like to the decoder. */
  ghost predicate Looks(crc: Crc, f: Frame, bytes: Bytes) {
    var length := FrameSize(f);
    && length <= |bytes| && At(bytes, 0, 4) == length
    && ContentAt(f, bytes[..length - 4]) && At(bytes, length - 4, 4) == crc(bytes[..length - 4])
  }

  lemma FrameParts(crc: Crc, f: Frame, bytes: Bytes)
    requires FrameBytes(crc, f) <= bytes
    ensures |FrameBytes(crc, f)| == FrameSize(f) && Looks(crc, f, bytes)
  {
    hide ContentBytes, ContentAt;
    var content := ContentBytes(f);
    ContentFields(f, content);
    var length := FrameSize(f);
    assert bytes[..length - 4] == FrameBytes(crc, f)[..length - 4] == content;
    Sizes();
    LeRoundTrip(crc(content), 4);
    assert bytes[length - 4..length] == FrameBytes(crc, f)[length - 4..] == ToLe(crc(content), 4);
    LengthField(f, content, bytes);
  }

  lemma LengthField(f: Frame, content: Bytes, bytes: Bytes)
    requires ContentAt(f, content) && content <= bytes
    ensures At(bytes, 0, 4) == FrameSize(f)
  {
    assert bytes[0..4] == content[0..4];
  }

  lemma PartsAreFrame(crc: Crc, f: Frame, bytes: Bytes)
    requires Looks(crc, f, bytes)
    ensures FrameBytes(crc, f) == bytes[..FrameSize(f)]
  {
    hide ContentBytes, ContentAt, At, PayloadSize;
    var length := FrameSize(f);
    var content := bytes[..length - 4];
    ContentFields(f, content);
    WordRoundTrip(bytes, length - 4);
    assert bytes[..length] == content + bytes[length - 4..length];
  }

  lemma WordRoundTrip(bytes: Bytes, at: nat)
    requires at + 4 <= |bytes|
    ensures ToLe(At(bytes, at, 4), 4) == bytes[at..at + 4]
  {
    BytesRoundTrip(bytes[at..at + 4]);
  }

  method DecodeChecked(crc: Crc, bytes: Bytes) returns (r: Result<Decoded<Frame>>)
    ensures r.Ok? ==> Encodable(r.value.value) && Looks(crc, r.value.value, bytes)
    ensures r.Ok? ==> r.value.used <= |bytes| && FrameBytes(crc, r.value.value) == bytes[..r.value.used]
    ensures r.Err? ==> forall f :: Encodable(f) ==> !Looks(crc, f, bytes)
    ensures r == Failure(Truncated, 0) <==> Incomplete(bytes)
    ensures r == Failure(FrameLength, 0) <==> |bytes| >= 4 && !Plausible(bytes)
    ensures Whole(bytes) ==> (r == Failure(Checksum, At(bytes, 0, 4) - 4) <==> !Intact(crc, bytes))
    ensures r.Err? && Intact(crc, bytes) ==> ContentError(bytes[..At(bytes, 0, 4) - 4], r.error)
  {
    hide FrameBytes, Encodable, ContentAt, At, PayloadSize, Misfits;
    if |bytes| < 4 {
      return Failure(Truncated, 0);
    }
    var length := FromLe(bytes[0..4]);
    assert length == At(bytes, 0, 4) by {
      ReadAt(bytes, 0);
    }
    if length < FRAME_PREFIX_LEN + FRAME_CRC_LEN || length > MAX_FRAME_LEN {
      assert forall f :: FRAME_PREFIX_LEN + FRAME_CRC_LEN <= FrameSize(f) <= MAX_FRAME_LEN by {
        SizesFit();
      }
      return Failure(FrameLength, 0);
    }
    if |bytes| < length {
      return Failure(Truncated, 0);
    }
    var stored := FromLe(bytes[length - 4..length]);
    assert stored == At(bytes, length - 4, 4) by {
      ReadAt(bytes, length - 4);
    }
    var content := bytes[..length - FRAME_CRC_LEN];
    if stored != crc(content) {
      return Failure(Checksum, length - 4);
    }
    assert At(content, 0, 4) == length by {
      ReadAt(content, 0);
      ReadAt(bytes, 0);
      assert content[0..4] == bytes[0..4];
    }
    var reader := new Reader(content);
    var f :- DecodeContent(reader);
    assert FrameSize(f) == length by {
      ContentSize(f, content);
    }
    PartsAreFrame(crc, f, bytes);
    return Ok(Decoded(f, length));
  }

  lemma ReadAt(bytes: Bytes, at: nat)
    requires at + 4 <= |bytes|
    ensures FromLe(bytes[at..at + 4]) == At(bytes, at, 4)
  {
  }

  lemma SizesFit()
    ensures forall f :: FRAME_PREFIX_LEN + FRAME_CRC_LEN <= FrameSize(f) <= MAX_FRAME_LEN
  {
  }

  lemma ContentSize(f: Frame, bytes: Bytes)
    requires ContentAt(f, bytes)
    ensures FrameSize(f) == |bytes| + FRAME_CRC_LEN
  {
  }

  method DecodeContent(reader: Reader) returns (r: Result<Frame>)
    requires reader.offset == 0
    requires |reader.bytes| >= 4 ==> At(reader.bytes, 0, 4) == |reader.bytes| + FRAME_CRC_LEN
    modifies reader
    ensures r.Ok? ==> Encodable(r.value) && ContentAt(r.value, reader.bytes)
    ensures r.Err? ==> forall f :: Encodable(f) ==> !ContentAt(f, reader.bytes)
    ensures r.Err? && |reader.bytes| >= 36 ==> ContentError(reader.bytes, r.error)
  {
    hide At, PayloadAt;
    var _ :- reader.Take(4);
    var messageType :- reader.U8();
    var flags :- reader.U8();
    if flags != 0 {
      return Failure(ReservedFlags, 5);
    }
    var schema :- reader.U16();
    if schema != SCHEMA_VERSION {
      return Failure(UnsupportedVersion, 6);
    }
    var sourceSeq :- reader.U64();
    var sourceTimeNs :- reader.U64();
    var recvTimeNs :- reader.U64();
    var instrument :- reader.U32();
    var payload := DecodePayload(messageType, reader, instrument);
    if payload.Err? {
      return Err(payload.error.(sourceSeq := Some(sourceSeq)));
    }
    if reader.offset != |reader.bytes| {
      forall f ensures !ContentAt(f, reader.bytes) {
        SizeByType(f.body, payload.value);
      }
      assert Misfits(payload.value, reader.bytes);
      return Err(DecodeError(PayloadLength, reader.offset, Some(sourceSeq)));
    }
    return Ok(Frame(sourceSeq, sourceTimeNs, recvTimeNs, instrument, payload.value));
  }

  lemma SizeByType(a: FrameBody, b: FrameBody)
    ensures MessageType(a) == MessageType(b) ==> PayloadSize(a) == PayloadSize(b)
  {
  }

  method DecodePayload(messageType: u8, reader: Reader, instrument: u32) returns (r: Result<FrameBody>)
    requires reader.Valid() && reader.offset == 36
    modifies reader
    ensures reader.Valid()
    ensures r.Ok? ==> MessageType(r.value) == messageType && Carried(r.value, instrument)
    ensures r.Ok? ==> PayloadAt(r.value, reader.bytes) && reader.offset == 36 + PayloadSize(r.value)
    ensures r.Err? ==> forall body ::
      MessageType(body) == messageType && Carried(body, instrument) ==> !PayloadAt(body, reader.bytes)
    ensures r.Err? ==> r.error.sourceSeq.None? && r.error.kind in {UnknownMessageType, Truncated, InvalidField}
    ensures r.Err? ==> (r.error.kind.UnknownMessageType? <==> !(1 <= messageType <= 8))
    ensures r.Err? ==> (r.error.kind.InvalidField? <==> BadPayload(messageType, reader.bytes))
    ensures BadPayload(messageType, reader.bytes) ==> r.Err?
  {
    hide At, OrderAt, BadSide, BadOrder;
    match messageType {
      case 1 =>
        var n :- reader.U64();
        return Ok(BeginFrame(n));
      case 2 =>
        var level :- ReadLevel(reader);
        return Ok(SnapshotLevelFrame(level.side, level.price, level.quantity));
      case 3 =>
        var n :- reader.U64();
        var count :- reader.U32();
        var crc :- reader.U32();
        return Ok(EndFrame(n, count, crc));
      case 4 =>
        var level :- ReadLevel(reader);
        return Ok(LevelSetFrame(level.side, level.price, level.quantity));
      case 5 =>
        var level :- ReadLevel(reader);
        if level.quantity == 0 {
          forall side, price, quantity | LevelAt(side, price, quantity, reader.bytes) ensures quantity == 0 {
            SameQuantity(level, side, price, quantity, reader.bytes);
          }
          return Failure(InvalidField, reader.offset);
        }
        return Ok(TradeFrame(level.side, level.price, level.quantity));
      case 6 => return Ok(HeartbeatFrame);
      case 7 =>
        var epoch :- reader.U64();
        return Ok(ResetFrame(epoch));
      case 8 =>
        var request := ReadRequest(reader, instrument);
        if request.Err? {
          return request.PropagateFailure();
        }
        return Ok(OrderFrame(request.value));
      case _ => return Failure(UnknownMessageType, reader.offset);
    }
  }

  datatype Level = Level(side: Side, price: i64, quantity: u64)

  lemma SameQuantity(level: Level, side: Side, price: i64, quantity: u64, bytes: Bytes)
    requires LevelAt(level.side, level.price, level.quantity, bytes) && LevelAt(side, price, quantity, bytes)
    ensures quantity == level.quantity
  {
  }

  method ReadLevel(reader: Reader) returns (r: Result<Level>)
    requires reader.Valid() && reader.offset == 36
    modifies reader
    ensures reader.Valid()
    ensures r.Ok? ==> LevelAt(r.value.side, r.value.price, r.value.quantity, reader.bytes) && reader.offset == 53
    ensures r.Err? ==> forall side, price, quantity :: !LevelAt(side, price, quantity, reader.bytes)
    ensures r.Err? ==> r.error.sourceSeq.None? && r.error.kind == if BadSide(reader.bytes) then InvalidField else Truncated
    ensures r.Ok? <==> |reader.bytes| >= 53 && !BadSide(reader.bytes)
  {
    hide At;
    var side :- ReadSide(reader);
    var price :- reader.I64();
    var quantity :- reader.U64();
    return Ok(Level(side, price, quantity));
  }

  method ReadRequestKind(reader: Reader) returns (r: Result<RequestKind>)
    requires reader.Valid()
    modifies reader
    ensures reader.Valid()
    ensures r.Ok? ==> reader.offset == old(reader.offset) + 1
    ensures r.Ok? ==> At(reader.bytes, old(reader.offset), 1) == RequestKindCode(r.value)
    ensures r.Err? ==> forall kind ::
      old(reader.offset) + 1 > |reader.bytes| || At(reader.bytes, old(reader.offset), 1) != RequestKindCode(kind)
    ensures r.Err? ==> CodeError(r.error, old(reader.offset), reader.bytes)
  {
    var code :- reader.U8();
    match RequestKindOf(code) {
      case None => return Failure(InvalidField, reader.offset);
      case Some(kind) => return Ok(kind);
    }
  }

  method ReadRequest(reader: Reader, instrument: u32) returns (r: Result<Request>)
    requires reader.Valid() && reader.offset == 36
    modifies reader
    ensures reader.Valid()
    ensures r.Ok? ==> OrderAt(r.value, reader.bytes) && r.value.instrument == instrument && reader.offset == 91
    ensures r.Err? ==> forall q :: !OrderAt(q, reader.bytes)
    ensures r.Err? ==> r.error.sourceSeq.None? && r.error.kind == if BadOrder(reader.bytes) then InvalidField else Truncated
    ensures r.Ok? ==> !BadOrder(reader.bytes)
  {
    hide At, RequestKindCode, SideCode, OrderTypeCode, Unsigned;
    var kind :- ReadRequestKind(reader);
    var side :- ReadSide(reader);
    var orderType :- ReadOrderType(reader);
    var account :- reader.U32();
    var clientOrderId :- reader.U64();
    var target :- reader.U64();
    var requestId :- reader.U64();
    var clientSeq :- reader.U64();
    var price :- reader.I64();
    var quantity :- reader.U64();
    return Ok(Request(kind, account, instrument, requestId, clientSeq, clientOrderId, target, side, orderType, price, quantity));
  }
}
