/** Little-endian fields, the bounds-checked cursor that reads them, wire codes
    of the enums, and streams of prefix-free codes. */
module Wire {
  import opened Domain

  type Bytes = seq<u8>

  // ---- little-endian integers ---------------------------------------------

  /** The number of values a field of `width` bytes can hold. */
  function Size(width: nat): (n: nat)
    ensures n > 0
  {
    if width == 0 then 1 else 256 * Size(width - 1)
  }

  function ToLe(n: nat, width: nat): (b: Bytes)
    ensures |b| == width
  {
    if width == 0 then [] else [n % 256] + ToLe(n / 256, width - 1)
  }

  function FromLe(b: Bytes): nat {
    if b == [] then 0 else b[0] + 256 * FromLe(b[1..])
  }

  lemma Sizes()
    ensures Size(1) == 0x100 && Size(2) == 0x1_0000 && Size(4) == 0x1_0000_0000
    ensures Size(8) == U64_MAX + 1 && Size(16) == U128_MAX + 1
  {
    assert Size(4) == 256 * 256 * Size(2);
    assert Size(8) == 256 * (256 * Size(6)) && Size(6) == 256 * (256 * Size(4));
    assert Size(12) == 256 * (256 * Size(10)) && Size(10) == 256 * (256 * Size(8));
    assert Size(16) == 256 * (256 * Size(14)) && Size(14) == 256 * (256 * Size(12));
  }

  lemma {:induction false} LeRoundTrip(n: nat, width: nat)
    requires n < Size(width)
    ensures FromLe(ToLe(n, width)) == n
  {
    if width > 0 {
      LeRoundTrip(n / 256, width - 1);
      assert ToLe(n, width)[1..] == ToLe(n / 256, width - 1);
    }
  }

  lemma Digits(low: u8, high: nat)
    ensures (low + 256 * high) % 256 == low && (low + 256 * high) / 256 == high
  {
  }

  lemma {:induction false} BytesRoundTrip(b: Bytes)
    ensures FromLe(b) < Size(|b|) && ToLe(FromLe(b), |b|) == b
  {
    if b != [] {
      BytesRoundTrip(b[1..]);
      Digits(b[0], FromLe(b[1..]));
      assert b == [b[0]] + b[1..];
    }
  }

  /** Two's complement in 64 bits. */
  function Unsigned(n: i64): u64 {
    if n < 0 then n + U64_MAX + 1 else n
  }

  function Signed(n: u64): i64 {
    if n > I64_MAX then n - U64_MAX - 1 else n
  }

  lemma SignRoundTrips(n: i64, m: u64)
    ensures Signed(Unsigned(n)) == n && Unsigned(Signed(m)) == m
  {
  }

  // ---- fields in a buffer -------------------------------------------------

  function Put(out: Bytes, width: nat, n: nat): (r: Bytes)
    ensures |r| == |out| + width
  {
    out + ToLe(n, width)
  }

  function At(bytes: Bytes, offset: nat, width: nat): nat
    requires offset + width <= |bytes|
  {
    FromLe(bytes[offset..offset + width])
  }

  lemma AtFits(bytes: Bytes, offset: nat, width: nat)
    requires offset + width <= |bytes|
    ensures At(bytes, offset, width) < Size(width)
  {
    BytesRoundTrip(bytes[offset..offset + width]);
  }

  /** A buffer begins with a written field exactly when it begins with what was
      written before and then holds the value. */
  lemma PutHolds(out: Bytes, width: nat, n: nat, bytes: Bytes)
    requires n < Size(width)
    ensures Put(out, width, n) <= bytes <==>
      out <= bytes && |out| + width <= |bytes| && At(bytes, |out|, width) == n
  {
    var field := ToLe(n, width);
    LeRoundTrip(n, width);
    if out <= bytes && |out| + width <= |bytes| {
      var slot := bytes[|out|..|out| + width];
      BytesRoundTrip(slot);
      assert bytes[..|out| + width] == out + slot;
      if out + field <= bytes {
        assert slot == (out + field)[|out|..] == field;
      }
    } else {
      ShorterBegins(out, field, bytes);
    }
  }

  lemma ShorterBegins(out: Bytes, field: Bytes, bytes: Bytes)
    ensures out + field <= bytes ==> out <= bytes && |out| + |field| <= |bytes|
  {
    if out + field <= bytes {
      assert out == (out + field)[..|out|] == bytes[..|out|];
    }
  }

  /** A growing output buffer. `written` is what was appended since `Mark`. */
  class Buffer {
    var data: Bytes
    ghost var base: Bytes
    ghost var written: Bytes

    ghost predicate Valid()
      reads this
    {
      data == base + written
    }

    constructor ()
      ensures Valid() && data == []
    {
      data, base, written := [], [], [];
    }

    ghost method Mark()
      requires Valid()
      modifies this`base, this`written
      ensures Valid() && base == data && written == []
    {
      base, written := data, [];
    }

    method Clear()
      modifies this
      ensures Valid() && data == []
    {
      data, base, written := [], [], [];
    }

    method Push(width: nat, n: nat)
      requires Valid()
      modifies this
      ensures Valid() && base == old(base) && written == Put(old(written), width, n)
    {
      data := data + ToLe(n, width);
      written := written + ToLe(n, width);
    }

    /** Overwrites the four bytes at `start`, where the marked part begins. */
    method Patch(start: nat, n: nat)
      requires Valid() && start == |base| && |written| >= 4
      modifies this
      ensures Valid() && base == old(base) && written == ToLe(n, 4) + old(written)[4..]
    {
      data := data[..start] + ToLe(n, 4) + data[start + 4..];
      written := ToLe(n, 4) + written[4..];
    }
  }

  // ---- reading ------------------------------------------------------------

  datatype ErrorKind =
    | Truncated
    | BadMagic
    | UnsupportedVersion
    | BadEndian
    | FrameLength
    | UnknownMessageType
    | ReservedFlags
    | PayloadLength
    | Checksum
    | InvalidField
    | InstrumentTable

  datatype DecodeError = DecodeError(kind: ErrorKind, offset: nat, sourceSeq: Option<u64>)

  datatype Result<+T> = Ok(value: T) | Err(error: DecodeError) {
    predicate IsFailure() {
      Err?
    }

    function PropagateFailure<U>(): Result<U>
      requires Err?
    {
      Err(error)
    }

    function Extract(): T
      requires Ok?
    {
      value
    }
  }

  function Failure<T>(kind: ErrorKind, offset: nat): Result<T> {
    Err(DecodeError(kind, offset, None))
  }

  /** The bounds-checked cursor: a read past the end fails and moves nothing. */
  class Reader {
    const bytes: Bytes
    var offset: nat

    constructor (bytes: Bytes)
      ensures this.bytes == bytes && offset == 0
    {
      this.bytes := bytes;
      offset := 0;
    }

    ghost predicate Valid()
      reads this
    {
      offset <= |bytes|
    }

    method Take(len: nat) returns (r: Result<Bytes>)
      requires Valid()
      modifies this
      ensures Valid()
      ensures r.Ok? <==> old(offset) + len <= |bytes|
      ensures r.Ok? ==> offset == old(offset) + len && r.value == bytes[old(offset)..offset]
      ensures r.Err? ==> offset == old(offset) && r == Failure(Truncated, offset)
    {
      var end := offset + len;
      if end > |bytes| {
        return Failure(Truncated, offset);
      }
      var slice := bytes[offset..end];
      offset := end;
      return Ok(slice);
    }

    /** An unsigned field of the given width. */
    method Field(width: nat) returns (r: Result<nat>)
      requires Valid()
      modifies this
      ensures Valid()
      ensures r.Ok? <==> old(offset) + width <= |bytes|
      ensures r.Ok? ==> offset == old(offset) + width && r.value == At(bytes, old(offset), width) < Size(width)
      ensures r.Err? ==> offset == old(offset) && r == Failure(Truncated, offset)
    {
      var slice :- Take(width);
      BytesRoundTrip(slice);
      return Ok(FromLe(slice));
    }

    method U8() returns (r: Result<u8>)
      requires Valid()
      modifies this
      ensures Valid()
      ensures r.Ok? <==> old(offset) + 1 <= |bytes|
      ensures r.Ok? ==> offset == old(offset) + 1 && r.value == At(bytes, old(offset), 1)
      ensures r.Err? ==> offset == old(offset) && r == Failure(Truncated, offset)
    {
      Sizes();
      var n :- Field(1);
      return Ok(n);
    }

    method U16() returns (r: Result<u16>)
      requires Valid()
      modifies this
      ensures Valid()
      ensures r.Ok? <==> old(offset) + 2 <= |bytes|
      ensures r.Ok? ==> offset == old(offset) + 2 && r.value == At(bytes, old(offset), 2)
      ensures r.Err? ==> offset == old(offset) && r == Failure(Truncated, offset)
    {
      Sizes();
      var n :- Field(2);
      return Ok(n);
    }

    method U32() returns (r: Result<u32>)
      requires Valid()
      modifies this
      ensures Valid()
      ensures r.Ok? <==> old(offset) + 4 <= |bytes|
      ensures r.Ok? ==> offset == old(offset) + 4 && r.value == At(bytes, old(offset), 4)
      ensures r.Err? ==> offset == old(offset) && r == Failure(Truncated, offset)
    {
      Sizes();
      var n :- Field(4);
      return Ok(n);
    }

    method U64() returns (r: Result<u64>)
      requires Valid()
      modifies this
      ensures Valid()
      ensures r.Ok? <==> old(offset) + 8 <= |bytes|
      ensures r.Ok? ==> offset == old(offset) + 8 && r.value == At(bytes, old(offset), 8)
      ensures r.Err? ==> offset == old(offset) && r == Failure(Truncated, offset)
    {
      Sizes();
      var n :- Field(8);
      return Ok(n);
    }

    method I64() returns (r: Result<i64>)
      requires Valid()
      modifies this
      ensures Valid()
      ensures r.Ok? <==> old(offset) + 8 <= |bytes|
      ensures r.Ok? ==> offset == old(offset) + 8 && Unsigned(r.value) == At(bytes, old(offset), 8)
      ensures r.Err? ==> offset == old(offset) && r == Failure(Truncated, offset)
    {
      var n :- U64();
      SignRoundTrips(0, n);
      return Ok(Signed(n));
    }
  }

  // ---- wire codes ---------------------------------------------------------

  function SideCode(side: Side): u8 {
    if side.Buy? then 1 else 2
  }

  function SideOf(code: u8): (r: Option<Side>)
    ensures forall side :: SideCode(side) == code <==> r == Some(side)
  {
    match code case 1 => Some(Buy) case 2 => Some(Sell) case _ => None
  }

  function OrderTypeCode(t: OrderType): u8 {
    if t.LimitOrder? then 1 else 2
  }

  function OrderTypeOf(code: u8): (r: Option<OrderType>)
    ensures forall t :: OrderTypeCode(t) == code <==> r == Some(t)
  {
    match code case 1 => Some(LimitOrder) case 2 => Some(MarketOrder) case _ => None
  }

  function RequestKindCode(k: RequestKind): u8 {
    match k case New => 1 case Cancel => 2 case Replace => 3
  }

  function RequestKindOf(code: u8): (r: Option<RequestKind>)
    ensures forall k :: RequestKindCode(k) == code <==> r == Some(k)
  {
    match code case 1 => Some(New) case 2 => Some(Cancel) case 3 => Some(Replace) case _ => None
  }

  function StateCode(s: OrderState): u8 {
    match s case Working => 1 case PartlyFilled => 2 case FullyFilled => 3 case CancelledState => 4
  }

  function StateOf(code: u8): (r: Option<OrderState>)
    ensures forall s :: StateCode(s) == code <==> r == Some(s)
  {
    match code
    case 1 => Some(Working) case 2 => Some(PartlyFilled) case 3 => Some(FullyFilled) case 4 => Some(CancelledState)
    case _ => None
  }

  function ReportKindCode(k: ReportKind): u8 {
    match k
    case Accepted => 1 case Rejected => 2 case PartiallyFilled => 3
    case Filled => 4 case Cancelled => 5 case Replaced => 6
  }

  function ReportKindOf(code: u8): (r: Option<ReportKind>)
    ensures forall k :: ReportKindCode(k) == code <==> r == Some(k)
  {
    match code
    case 1 => Some(Accepted) case 2 => Some(Rejected) case 3 => Some(PartiallyFilled)
    case 4 => Some(Filled) case 5 => Some(Cancelled) case 6 => Some(Replaced)
    case _ => None
  }

  function FeedCode(f: FeedState): u8 {
    match f case Unsynchronized => 1 case ApplyingSnapshot => 2 case Live => 3 case Gap => 4
  }

  function FeedOf(code: u8): (r: Option<FeedState>)
    ensures forall f :: FeedCode(f) == code <==> r == Some(f)
  {
    match code
    case 1 => Some(Unsynchronized) case 2 => Some(ApplyingSnapshot) case 3 => Some(Live) case 4 => Some(Gap)
    case _ => None
  }

  function FlagCode(b: bool): u8 {
    if b then 1 else 0
  }

  function FlagOf(code: u8): (r: Option<bool>)
    ensures forall b :: FlagCode(b) == code <==> r == Some(b)
  {
    match code case 0 => Some(false) case 1 => Some(true) case _ => None
  }

  /** Every reject reason, in wire order. */
  const REASONS: seq<RejectReason> := [
    MalformedRequest, UnknownInstrument, UnknownAccount, UnknownOrder, InvalidSide, InvalidOrderType,
    InvalidPrice, InvalidQuantity, PriceNotAligned, QuantityNotAligned, DuplicateRequestConflict,
    SequenceTooOld, SequenceOutOfOrder, DuplicateClientOrderId, AccountDisabled, GlobalKillActive,
    MarketDataUnsynchronized, MarketDataStale, MaxOrderQuantity, MaxOrderNotional, PriceCollar,
    MaxPosition, MaxGrossExposure, CapacityExhausted, ArithmeticOverflow, OrderAlreadyTerminal,
    InvalidReplaceQuantity, NoReferencePrice]

  function ReasonCode(r: RejectReason): u8 {
    match r
    case MalformedRequest => 1 case UnknownInstrument => 2 case UnknownAccount => 3 case UnknownOrder => 4
    case InvalidSide => 5 case InvalidOrderType => 6 case InvalidPrice => 7 case InvalidQuantity => 8
    case PriceNotAligned => 9 case QuantityNotAligned => 10 case DuplicateRequestConflict => 11
    case SequenceTooOld => 12 case SequenceOutOfOrder => 13 case DuplicateClientOrderId => 14
    case AccountDisabled => 15 case GlobalKillActive => 16 case MarketDataUnsynchronized => 17
    case MarketDataStale => 18 case MaxOrderQuantity => 19 case MaxOrderNotional => 20 case PriceCollar => 21
    case MaxPosition => 22 case MaxGrossExposure => 23 case CapacityExhausted => 24 case ArithmeticOverflow => 25
    case OrderAlreadyTerminal => 26 case InvalidReplaceQuantity => 27 case NoReferencePrice => 28
  }

  /** An optional reason; zero stands for none. */
  function RejectCode(r: Option<RejectReason>): u8 {
    match r case None => 0 case Some(reason) => ReasonCode(reason)
  }

  function ReasonAt(i: nat): RejectReason
    requires i < 28
  {
    REASONS[i]
  }

  lemma ReasonIsListed(r: RejectReason)
    ensures 1 <= ReasonCode(r) <= 28 && ReasonAt(ReasonCode(r) - 1) == r
  {
    match r {
      case MalformedRequest => case UnknownInstrument => case UnknownAccount => case UnknownOrder =>
      case InvalidSide => case InvalidOrderType => case InvalidPrice => case InvalidQuantity =>
      case PriceNotAligned => case QuantityNotAligned => case DuplicateRequestConflict =>
      case SequenceTooOld => case SequenceOutOfOrder => case DuplicateClientOrderId =>
      case AccountDisabled => case GlobalKillActive => case MarketDataUnsynchronized =>
      case MarketDataStale => case MaxOrderQuantity => case MaxOrderNotional => case PriceCollar =>
      case MaxPosition => case MaxGrossExposure => case CapacityExhausted => case ArithmeticOverflow =>
      case OrderAlreadyTerminal => case InvalidReplaceQuantity => case NoReferencePrice =>
    }
  }

  /** Finds the reason with a wire code by walking the list. */
  method RejectOf(code: u8) returns (r: Option<Option<RejectReason>>)
    ensures forall reject :: RejectCode(reject) == code <==> r == Some(reject)
  {
    hide ReasonCode, ReasonAt;
    forall reject: Option<RejectReason>
      ensures reject.Some? ==> 1 <= RejectCode(reject) <= 28 && ReasonAt(RejectCode(reject) - 1) == reject.value
    {
      if reject.Some? {
        ReasonIsListed(reject.value);
      }
    }
    if code == 0 {
      return Some(None);
    }
    for i := 0 to 28
      invariant forall k :: 0 <= k < i ==> ReasonCode(ReasonAt(k)) != code
    {
      if ReasonCode(ReasonAt(i)) == code {
        ReasonIsListed(ReasonAt(i));
        return Some(Some(ReasonAt(i)));
      }
    }
    r := None;
  }

  // ---- streams of codes ---------------------------------------------------

  /** No code word begins another, and none is empty. */
  ghost predicate PrefixFree<T(!new)>(code: T -> Bytes) {
    && (forall a, b :: code(a) <= code(b) ==> a == b)
    && (forall a :: code(a) != [])
  }

  function Stream<T>(code: T -> Bytes, xs: seq<T>): Bytes {
    if xs == [] then [] else code(xs[0]) + Stream(code, xs[1..])
  }

  lemma Associates(a: Bytes, b: Bytes, c: Bytes)
    ensures a + (b + c) == a + b + c
  {
  }

  lemma {:induction false} StreamMore<T>(code: T -> Bytes, xs: seq<T>, ys: seq<T>)
    ensures Stream(code, xs + ys) == Stream(code, xs) + Stream(code, ys)
  {
    if xs == [] {
      assert xs + ys == ys;
    } else {
      StreamMore(code, xs[1..], ys);
      assert (xs + ys)[1..] == xs[1..] + ys;
      Associates(code(xs[0]), Stream(code, xs[1..]), Stream(code, ys));
    }
  }

  lemma StreamSnoc<T>(code: T -> Bytes, xs: seq<T>, x: T)
    ensures Stream(code, xs + [x]) == Stream(code, xs) + code(x)
  {
    StreamMore(code, xs, [x]);
  }

  lemma SameHead(a: Bytes, b: Bytes, rest: Bytes)
    requires a <= rest && b <= rest
    ensures a <= b || b <= a
  {
    if |a| <= |b| {
      assert a == rest[..|a|] == b[..|a|];
    } else {
      assert b == rest[..|b|] == a[..|b|];
    }
  }

  /** Two streams that begin the same bytes nest: the one with fewer words is a
      prefix of the other. */
  lemma {:induction false} StreamsNest<T(!new)>(code: T -> Bytes, xs: seq<T>, ys: seq<T>, bytes: Bytes)
    requires PrefixFree(code) && Stream(code, xs) <= bytes && Stream(code, ys) <= bytes && |xs| <= |ys|
    ensures xs <= ys
  {
    if xs != [] {
      var x, y := code(xs[0]), code(ys[0]);
      assert x <= Stream(code, xs) && y <= Stream(code, ys);
      SameHead(x, y, bytes);
      assert xs[0] == ys[0];
      var rest := bytes[|x|..];
      assert Stream(code, xs)[|x|..] == Stream(code, xs[1..]) && Stream(code, ys)[|x|..] == Stream(code, ys[1..]);
      StreamsNest(code, xs[1..], ys[1..], rest);
      assert xs == [xs[0]] + xs[1..] && ys == [ys[0]] + ys[1..];
    }
  }

  /** Equal streams come from equal sequences. */
  lemma StreamInjective<T(!new)>(code: T -> Bytes, xs: seq<T>, ys: seq<T>)
    requires PrefixFree(code) && Stream(code, xs) == Stream(code, ys)
    ensures xs == ys
  {
    if |xs| <= |ys| {
      StreamsNest(code, xs, ys, Stream(code, ys));
      StreamTail(code, xs, ys);
    } else {
      StreamsNest(code, ys, xs, Stream(code, xs));
      StreamTail(code, ys, xs);
    }
  }

  lemma EmptyStream<T(!new)>(code: T -> Bytes, xs: seq<T>)
    requires PrefixFree(code)
    ensures Stream(code, xs) == [] <==> xs == []
  {
    if xs != [] {
      assert code(xs[0]) != [];
      assert |Stream(code, xs)| >= |code(xs[0])| > 0;
    }
  }

  lemma StreamTail<T(!new)>(code: T -> Bytes, xs: seq<T>, ys: seq<T>)
    requires PrefixFree(code) && xs <= ys && Stream(code, xs) == Stream(code, ys)
    ensures xs == ys
  {
    var more := ys[|xs|..];
    assert ys == xs + more;
    StreamMore(code, xs, more);
    assert |Stream(code, more)| == 0;
    EmptyStream(code, more);
  }
}
