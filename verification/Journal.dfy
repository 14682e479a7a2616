/** The durable output journal: a header, then length-prefixed checksummed
    records. The checksum is a parameter; nothing is assumed of it. */
module Journal {
  import opened Domain
  import opened Wire
  import opened Canonical

  const HEADER_LEN: nat := 24
  const MAX_RECORD_LEN: nat := 4096

  type Crc = Bytes -> u32

  // ---- the format ---------------------------------------------------------

  function Magic(): Bytes {
    ['R' as int, 'L' as int, 'T' as int, 'J' as int]
  }

  function Header(runId: u128): (b: Bytes)
    ensures |b| == HEADER_LEN
  {
    Put(Put(Put(Magic(), 2, 1), 2, 0), 16, runId)
  }

  function Framed(crc: Crc, payload: Bytes): (b: Bytes)
    ensures |b| == |payload| + 8
  {
    ToLe(|payload|, 4) + payload + ToLe(crc(payload), 4)
  }

  function Record(crc: Crc, e: Output): Bytes {
    Framed(crc, OutputBytes(e))
  }

  function RecordCode(crc: Crc): Output -> Bytes {
    (e: Output) => Record(crc, e)
  }

  /** The journal of an event list. */
  function JournalBytes(crc: Crc, runId: u128, events: seq<Output>): (b: Bytes)
    ensures |b| >= HEADER_LEN
  {
    Header(runId) + Stream(RecordCode(crc), events)
  }

  lemma PayloadLengths(e: Output)
    ensures 26 <= |OutputBytes(e)| <= 110
  {
    hide OutputBytes, OutputAt;
    OutputFields(e, []);
  }

  lemma FramedParts(crc: Crc, payload: Bytes)
    requires |payload| <= MAX_RECORD_LEN
    ensures var b := Framed(crc, payload);
      At(b, 0, 4) == |payload| && b[4..4 + |payload|] == payload && At(b, 4 + |payload|, 4) == crc(payload)
  {
    Sizes();
    var b := Framed(crc, payload);
    LeRoundTrip(|payload|, 4);
    LeRoundTrip(crc(payload), 4);
    assert b[0..4] == ToLe(|payload|, 4);
    assert b[4 + |payload|..4 + |payload| + 4] == ToLe(crc(payload), 4);
  }

  /** Bytes that hold a length, a payload of that length and its checksum begin
      with that payload's frame. */
  lemma PartsAreFramed(crc: Crc, rest: Bytes, len: nat)
    requires 8 + len <= |rest| && At(rest, 0, 4) == len && At(rest, 4 + len, 4) == crc(rest[4..4 + len])
    ensures Framed(crc, rest[4..4 + len]) == rest[..8 + len]
  {
    BytesRoundTrip(rest[0..4]);
    BytesRoundTrip(rest[4 + len..8 + len]);
    var payload := rest[4..4 + len];
    assert rest[4 + len..4 + len + 4] == rest[4 + len..8 + len];
    assert rest[..8 + len] == rest[0..4] + payload + rest[4 + len..8 + len];
  }

  lemma RecordsPrefixFree(crc: Crc)
    ensures PrefixFree(RecordCode(crc))
  {
    hide OutputBytes, Framed;
    var code := RecordCode(crc);
    forall a, b | code(a) <= code(b) ensures a == b {
      PayloadLengths(a);
      PayloadLengths(b);
      FramedParts(crc, OutputBytes(a));
      FramedParts(crc, OutputBytes(b));
      var x, y := code(a), code(b);
      assert x[0..4] == y[0..4];
      assert x[4..4 + |OutputBytes(a)|] == y[4..4 + |OutputBytes(a)|];
      OutputsPrefixFree();
    }
  }

  lemma OneMore(crc: Crc, events: seq<Output>, e: Output)
    ensures Stream(RecordCode(crc), events + [e]) == Stream(RecordCode(crc), events) + Record(crc, e)
  {
    hide Record, Stream;
    StreamSnoc(RecordCode(crc), events, e);
  }

  // ---- reading one record -------------------------------------------------

  /** What the bytes at a record boundary amount to. */
  datatype Scan = Complete(event: Output, size: nat) | Partial | Bad

  /** The bytes and some record agree as far as both go. */
  ghost predicate Compatible(crc: Crc, rest: Bytes, e: Output) {
    rest <= Record(crc, e) || Record(crc, e) <= rest
  }

  ghost predicate Carries(crc: Crc, rest: Bytes, payload: Bytes)
    requires |rest| >= 8 + |payload|
  {
    rest[4..4 + |payload|] == payload && At(rest, 4 + |payload|, 4) == crc(payload)
  }

  lemma SamePart(a: Bytes, b: Bytes, i: nat, j: nat)
    requires (a <= b || b <= a) && i <= j <= |a| && j <= |b|
    ensures a[i..j] == b[i..j]
  {
  }

  lemma RecordParts(crc: Crc, rest: Bytes, e: Output)
    requires Compatible(crc, rest, e) && |rest| >= 4
    ensures At(rest, 0, 4) == |OutputBytes(e)| && 26 <= |OutputBytes(e)| <= 110
    ensures |rest| >= 8 + |OutputBytes(e)| ==> Carries(crc, rest, OutputBytes(e))
  {
    hide OutputBytes, Framed;
    PayloadLengths(e);
    var b, len := Record(crc, e), |OutputBytes(e)|;
    FramedParts(crc, OutputBytes(e));
    SamePart(rest, b, 0, 4);
    if |rest| >= 8 + len {
      SamePart(rest, b, 4, 4 + len);
      SamePart(rest, b, 4 + len, 4 + len + 4);
    }
  }

  /** The four-byte integer at an offset. */
  function Word(b: Bytes, offset: nat): (n: nat)
    requires offset + 4 <= |b|
    ensures n == At(b, offset, 4)
  {
    var word := [b[offset], b[offset + 1], b[offset + 2], b[offset + 3]];
    assert b[offset..offset + 4] == word;
    FromLe(word)
  }

  /** Looks at the next record. `Partial` says there are too few bytes to tell,
      `Bad` that no record is compatible with them. */
  method ScanRecord(crc: Crc, rest: Bytes) returns (r: Scan)
    ensures r.Complete? ==> Record(crc, r.event) <= rest && r.size == |Record(crc, r.event)|
    ensures forall e :: Record(crc, e) <= rest ==> r == Complete(e, |Record(crc, e)|)
    ensures r.Bad? ==> |rest| >= 4 && forall e :: !Compatible(crc, rest, e)
  {
    hide OutputBytes, Framed, At;
    forall e | |rest| >= 4 && Compatible(crc, rest, e)
      ensures At(rest, 0, 4) == |OutputBytes(e)| && 26 <= |OutputBytes(e)| <= 110
      ensures |rest| >= 8 + |OutputBytes(e)| ==> Carries(crc, rest, OutputBytes(e))
    {
      RecordParts(crc, rest, e);
    }
    if |rest| < 4 {
      return Partial;
    }
    var len := Word(rest, 0);
    if len == 0 || len > MAX_RECORD_LEN {
      return Bad;
    }
    var end := 4 + len + 4;
    if |rest| < end {
      return Partial;
    }
    var payload := rest[4..4 + len];
    var stored := Word(rest, 4 + len);
    if stored != crc(payload) {
      return Bad;
    }
    var decoded := DecodeOutput(payload);
    if decoded.Err? || decoded.value.used != |payload| {
      return Bad;
    }
    PartsAreFramed(crc, rest, len);
    assert payload[..|payload|] == payload;
    r := Complete(decoded.value.value, end);
  }

  // ---- writing ------------------------------------------------------------

  class JournalWriter {
    const crc: Crc
    ghost const runId: u128
    var sink: Bytes
    var scratch: Buffer
    var records: nat
    ghost var events: seq<Output>

    ghost predicate Valid()
      reads this, scratch
    {
      && scratch.Valid()
      && sink == JournalBytes(crc, runId, events)
      && records == |events|
    }

    constructor (crc: Crc, runId: u128)
      ensures Valid() && fresh(scratch) && this.crc == crc && this.runId == runId && events == []
    {
      this.crc, this.runId := crc, runId;
      sink := Put(Put(Put(Magic(), 2, 1), 2, 0), 16, runId);
      scratch := new Buffer();
      records, events := 0, [];
    }

    /** One record is added to the journal. */
    method Append(e: Output)
      requires Valid()
      modifies this, scratch
      ensures Valid() && scratch == old(scratch) && events == old(events) + [e]
    {
      hide OutputBytes, Header;
      scratch.Clear();
      EncodeOutput(e, scratch);
      var payload := scratch.data;
      assert payload == OutputBytes(e);
      var check := crc(payload);
      StreamSnoc(RecordCode(crc), events, e);
      Sinks(sink, Stream(RecordCode(crc), events), e);
      sink := sink + ToLe(|payload|, 4);
      sink := sink + payload;
      sink := sink + ToLe(check, 4);
      records := records + 1;
      events := events + [e];
    }

    lemma Sinks(sink: Bytes, stream: Bytes, e: Output)
      requires sink == Header(runId) + stream
      ensures var payload := OutputBytes(e);
        sink + ToLe(|payload|, 4) + payload + ToLe(crc(payload), 4) == Header(runId) + (stream + Record(crc, e))
    {
      hide OutputBytes, Header;
    }
  }

  // ---- recovery -----------------------------------------------------------

  datatype JournalError = BadHeader | IncompleteHeader | Corrupt(offset: nat)

  datatype Recovery =
    | Recovered(runId: u128, events: seq<Output>, truncatedAt: Option<nat>)
    | Unreadable(error: JournalError)

  ghost predicate GoodHeader(bytes: Bytes) {
    |bytes| >= HEADER_LEN && bytes[..4] == Magic() && At(bytes, 4, 2) == 1
  }

  /** The events' records begin the bytes and no further whole record follows. */
  ghost predicate Longest(crc: Crc, body: Bytes, events: seq<Output>) {
    && Stream(RecordCode(crc), events) <= body
    && (forall e :: !(Stream(RecordCode(crc), events + [e]) <= body))
  }

  /** What recovery is for every sequence of bytes: the longest run of whole
      valid records, and a truncation mark exactly when something follows it. */
  ghost predicate Recovers(crc: Crc, bytes: Bytes, r: Recovery) {
    if |bytes| < HEADER_LEN then r == Unreadable(IncompleteHeader)
    else if !GoodHeader(bytes) then r == Unreadable(BadHeader)
    else
      && r.Recovered?
      && r.runId == At(bytes, 8, 16)
      && Longest(crc, bytes[HEADER_LEN..], r.events)
      && var end := HEADER_LEN + |Stream(RecordCode(crc), r.events)|;
         r.truncatedAt == if end == |bytes| then None else Some(end)
  }

  method ReadJournal(crc: Crc, bytes: Bytes) returns (r: Recovery)
    ensures Recovers(crc, bytes, r)
  {
    hide OutputBytes, Framed, Longest, RecordCode;
    if |bytes| < HEADER_LEN {
      return Unreadable(IncompleteHeader);
    }
    if bytes[..4] != Magic() || FromLe(bytes[4..6]) != 1 {
      return Unreadable(BadHeader);
    }
    Sizes();
    AtFits(bytes, 8, 16);
    var runId: u128 := FromLe(bytes[8..24]);
    ghost var code := RecordCode(crc);
    ghost var body := bytes[HEADER_LEN..];
    var events: seq<Output> := [];
    var offset := HEADER_LEN;
    var truncatedAt: Option<nat> := None;
    while offset < |bytes| && truncatedAt.None?
      invariant HEADER_LEN <= offset <= |bytes|
      invariant Stream(code, events) == bytes[HEADER_LEN..offset]
      invariant truncatedAt.Some? ==> truncatedAt.value == offset < |bytes| && Longest(crc, body, events)
      decreases |bytes| - offset, truncatedAt.None?
    {
      var scan := ScanRecord(crc, bytes[offset..]);
      match scan {
        case Complete(event, size) =>
          PayloadLengths(event);
          OneMore(crc, events, event);
          NextRecord(bytes, offset, Record(crc, event));
          events := events + [event];
          offset := offset + size;
        case _ =>
          truncatedAt := Some(offset);
          Stuck(crc, bytes, offset, events);
      }
    }
    if truncatedAt.None? {
      Stuck(crc, bytes, offset, events);
    }
    r := Recovered(runId, events, truncatedAt);
  }

  lemma NextRecord(bytes: Bytes, offset: nat, record: Bytes)
    requires HEADER_LEN <= offset <= |bytes| && record <= bytes[offset..]
    ensures offset + |record| <= |bytes|
    ensures bytes[HEADER_LEN..offset + |record|] == bytes[HEADER_LEN..offset] + record
  {
    assert record == bytes[offset..][..|record|] == bytes[offset..offset + |record|];
  }

  /** With no whole record at the offset, the events read so far are all. */
  lemma Stuck(crc: Crc, bytes: Bytes, offset: nat, events: seq<Output>)
    requires HEADER_LEN <= offset <= |bytes| && Stream(RecordCode(crc), events) == bytes[HEADER_LEN..offset]
    requires forall e :: !(Record(crc, e) <= bytes[offset..])
    ensures Longest(crc, bytes[HEADER_LEN..], events)
  {
    hide Record;
    var body := bytes[HEADER_LEN..];
    var done := Stream(RecordCode(crc), events);
    assert done == body[..offset - HEADER_LEN];
    assert body[|done|..] == bytes[offset..];
    forall e ensures !(Stream(RecordCode(crc), events + [e]) <= body) {
      StreamSnoc(RecordCode(crc), events, e);
      AfterPrefix(done, Record(crc, e), body);
    }
  }

  lemma AfterPrefix(done: Bytes, more: Bytes, body: Bytes)
    requires done <= body
    ensures done + more <= body <==> more <= body[|done|..]
  {
    if more <= body[|done|..] {
      assert body == done + body[|done|..];
    }
    if done + more <= body {
      assert more == (done + more)[|done|..] == body[|done|..|done| + |more|];
    }
  }

  // ---- every cut of a journal ---------------------------------------------

  /** The offset at which the first `k` records end. */
  function Boundary(crc: Crc, events: seq<Output>, k: nat): nat
    requires k <= |events|
  {
    HEADER_LEN + |Stream(RecordCode(crc), events[..k])|
  }

  lemma PrefixStreams(crc: Crc, runId: u128, events: seq<Output>, cut: nat, k: nat)
    requires k <= |events| && HEADER_LEN <= cut <= |JournalBytes(crc, runId, events)|
    ensures var body := JournalBytes(crc, runId, events)[..cut][HEADER_LEN..];
      && body <= Stream(RecordCode(crc), events)
      && (Stream(RecordCode(crc), events[..k]) <= body <==> Boundary(crc, events, k) <= cut)
  {
    hide Stream, Header;
    var code := RecordCode(crc);
    var whole := Stream(code, events);
    var body := JournalBytes(crc, runId, events)[..cut][HEADER_LEN..];
    assert body == whole[..cut - HEADER_LEN];
    assert events == events[..k] + events[k..];
    StreamMore(code, events[..k], events[k..]);
  }

  lemma HeaderIsGood(runId: u128, bytes: Bytes)
    requires Header(runId) <= bytes
    ensures GoodHeader(bytes) && At(bytes, 8, 16) == runId
  {
    Sizes();
    var a := Put(Magic(), 2, 1);
    var b := Put(a, 2, 0);
    PutHolds(b, 16, runId, bytes);
    PutHolds(a, 2, 0, bytes);
    PutHolds(Magic(), 2, 1, bytes);
    assert bytes[..4] == Magic();
  }

  /** Recovery of a journal cut anywhere at or past the header: the run id, the
      whole records before the cut and nothing else, and a truncation mark
      exactly when the cut is off every record boundary. */
  lemma CutRecovery(crc: Crc, runId: u128, events: seq<Output>, cut: nat, r: Recovery)
    requires HEADER_LEN <= cut <= |JournalBytes(crc, runId, events)|
    requires Recovers(crc, JournalBytes(crc, runId, events)[..cut], r)
    ensures r.Recovered? && r.runId == runId
    ensures r.events <= events && Boundary(crc, events, |r.events|) <= cut
    ensures forall k :: 0 <= k <= |events| ==> (k <= |r.events| <==> Boundary(crc, events, k) <= cut)
    ensures r.truncatedAt.None? <==> exists k :: 0 <= k <= |events| && Boundary(crc, events, k) == cut
    ensures r.truncatedAt.Some? ==> r.truncatedAt.value == Boundary(crc, events, |r.events|)
  {
    hide Stream, Header, RecordCode;
    var bytes := JournalBytes(crc, runId, events)[..cut];
    assert Header(runId) <= bytes;
    HeaderIsGood(runId, bytes);
    LongestOfCut(crc, runId, events, cut, r.events);
    assert r.events == events[..|r.events|];
    BoundariesRise(crc, events, |r.events|);
  }

  lemma LongestOfCut(crc: Crc, runId: u128, events: seq<Output>, cut: nat, got: seq<Output>)
    requires HEADER_LEN <= cut <= |JournalBytes(crc, runId, events)|
    requires Longest(crc, JournalBytes(crc, runId, events)[..cut][HEADER_LEN..], got)
    ensures got <= events
    ensures forall k :: 0 <= k <= |events| ==> (k <= |got| <==> Boundary(crc, events, k) <= cut)
  {
    hide Stream, Header, RecordCode, Boundary;
    var code := RecordCode(crc);
    var body := JournalBytes(crc, runId, events)[..cut][HEADER_LEN..];
    RecordsPrefixFree(crc);
    PrefixStreams(crc, runId, events, cut, 0);
    StreamBound(crc, runId, events, cut, got);
    assert got == events[..|got|];
    PrefixStreams(crc, runId, events, cut, |got|);
    forall k | 0 <= k <= |events| ensures k <= |got| <==> Boundary(crc, events, k) <= cut {
      PrefixStreams(crc, runId, events, cut, k);
      if k <= |got| {
        BoundaryGrows(crc, events, k, |got|);
      } else {
        assert events[..|got| + 1] == got + [events[|got|]];
        PrefixStreams(crc, runId, events, cut, |got| + 1);
        BoundaryGrows(crc, events, |got| + 1, k);
      }
    }
  }

  lemma StreamBound(crc: Crc, runId: u128, events: seq<Output>, cut: nat, got: seq<Output>)
    requires HEADER_LEN <= cut <= |JournalBytes(crc, runId, events)|
    requires Stream(RecordCode(crc), got) <= JournalBytes(crc, runId, events)[..cut][HEADER_LEN..]
    ensures got <= events
  {
    hide Stream, Header, RecordCode;
    var code := RecordCode(crc);
    var whole := Stream(code, events);
    RecordsPrefixFree(crc);
    PrefixStreams(crc, runId, events, cut, 0);
    var body := JournalBytes(crc, runId, events)[..cut][HEADER_LEN..];
    assert Stream(code, got) == whole[..|Stream(code, got)|];
    if |got| <= |events| {
      StreamsNest(code, got, events, whole);
    } else {
      StreamsNest(code, events, got, whole);
      var more := got[|events|..];
      assert got == events + more;
      StreamMore(code, events, more);
      EmptyStream(code, more);
    }
  }

  lemma BoundaryGrows(crc: Crc, events: seq<Output>, i: nat, j: nat)
    requires i <= j <= |events|
    ensures Boundary(crc, events, i) <= Boundary(crc, events, j)
    ensures i < j ==> Boundary(crc, events, i) < Boundary(crc, events, j)
  {
    hide Stream, RecordCode;
    var code := RecordCode(crc);
    assert events[..j] == events[..i] + events[i..j];
    StreamMore(code, events[..i], events[i..j]);
    RecordsPrefixFree(crc);
    EmptyStream(code, events[i..j]);
  }

  lemma BoundariesRise(crc: Crc, events: seq<Output>, i: nat)
    requires i <= |events|
    ensures forall k :: 0 <= k <= |events| && k < i ==> Boundary(crc, events, k) < Boundary(crc, events, i)
  {
    hide Boundary;
    forall k | 0 <= k <= |events| && k < i ensures Boundary(crc, events, k) < Boundary(crc, events, i) {
      BoundaryGrows(crc, events, k, i);
    }
  }

  // ---- following a growing journal ----------------------------------------

  datatype Polled = Polled(events: seq<Output>) | Failed(error: JournalError)

  lemma Slices(file: Bytes, seen: Bytes, offset: nat, i: nat, j: nat)
    requires seen <= file && HEADER_LEN <= offset <= i == |seen| <= j <= |file|
    ensures file[..j][offset..] == seen[offset..] + file[i..j]
    ensures file[..j][HEADER_LEN..offset] == seen[HEADER_LEN..offset]
  {
    assert seen == file[..i];
    assert file[..j] == file[..i] + file[i..j];
  }

  /** The incremental reader. `seen` is the part of the file it has read. */
  class JournalTail {
    const crc: Crc
    var position: nat
    var offset: nat
    var pending: Bytes
    var bytesRead: nat
    ghost var seen: Bytes
    ghost var delivered: seq<Output>

    ghost predicate Valid()
      reads this
    {
      && HEADER_LEN <= offset && position == offset + |pending| == HEADER_LEN + bytesRead == |seen|
      && seen[offset..] == pending
      && seen[HEADER_LEN..offset] == Stream(RecordCode(crc), delivered)
    }

    constructor (crc: Crc, ghost file: Bytes)
      requires |file| >= HEADER_LEN
      ensures Valid() && this.crc == crc && seen == file[..HEADER_LEN] && delivered == []
    {
      this.crc := crc;
      position, offset, pending, bytesRead := HEADER_LEN, HEADER_LEN, [], 0;
      seen, delivered := file[..HEADER_LEN], [];
    }

    /** Pulls what was appended since the last poll, in chunks. */
    method Pull(file: Bytes)
      requires Valid() && seen <= file
      modifies this
      ensures Valid() && seen == file && offset == old(offset) && delivered == old(delivered)
      ensures bytesRead == old(bytesRead) + |file| - |old(seen)|
    {
      hide Stream;
      while position < |file|
        invariant Valid() && seen <= file && offset == old(offset) && delivered == old(delivered)
        invariant bytesRead - old(bytesRead) == |seen| - |old(seen)|
      {
        var read := Min(8192, |file| - position);
        Grown(file, read);
        pending := pending + file[position..position + read];
        bytesRead := bytesRead + read;
        position := position + read;
        seen := file[..position];
      }
    }

    lemma Grown(file: Bytes, read: nat)
      requires Valid() && seen <= file && position + read <= |file|
      ensures file[..position + read][offset..] == pending + file[position..position + read]
      ensures file[..position + read][HEADER_LEN..offset] == seen[HEADER_LEN..offset]
    {
      hide Stream;
      Slices(file, seen, offset, position, position + read);
    }

    /** Delivers the next records, at most `limit` of them. Fewer means that no
        whole record is left. A failure delivers nothing, keeps the place, and
        names an offset whose bytes no record is compatible with. */
    method Poll(file: Bytes, limit: nat) returns (r: Polled)
      requires Valid() && seen <= file
      modifies this
      ensures Valid() && seen == file && bytesRead == old(bytesRead) + |file| - |old(seen)|
      ensures r.Polled? ==> delivered == old(delivered) + r.events && |r.events| <= limit
      ensures r.Polled? && |r.events| < limit ==> Longest(crc, file[HEADER_LEN..], delivered)
      ensures r.Failed? ==> delivered == old(delivered) && offset == old(offset)
      ensures r.Failed? ==> exists good :: Broken(crc, file, old(delivered) + good, r.error)
    {
      hide Record, RecordCode, Stream, Longest, Compatible;
      Pull(file);
      var events: seq<Output> := [];
      var consumed := 0;
      var whole := false;
      assert delivered + events == delivered;
      while |events| < limit && !whole
        invariant Valid() && seen == file && offset == old(offset) && delivered == old(delivered)
        invariant bytesRead == old(bytesRead) + |file| - |old(seen)|
        invariant consumed <= |pending| && |events| <= limit
        invariant file[HEADER_LEN..offset + consumed] == Stream(RecordCode(crc), delivered + events)
        invariant whole ==> Longest(crc, file[HEADER_LEN..], delivered + events)
        decreases limit - |events|, !whole
      {
        var rest := pending[consumed..];
        assert rest == file[offset + consumed..];
        var scan := ScanRecord(crc, rest);
        match scan {
          case Partial =>
            Stuck(crc, file, offset + consumed, delivered + events);
            whole := true;
          case Bad =>
            assert Broken(crc, file, delivered + events, Corrupt(offset + consumed));
            return Failed(Corrupt(offset + consumed));
          case Complete(event, size) =>
            OneMore(crc, delivered + events, event);
            assert delivered + events + [event] == delivered + (events + [event]);
            NextRecord(file, offset + consumed, Record(crc, event));
            events := events + [event];
            consumed := consumed + size;
        }
      }
      pending := pending[consumed..];
      offset := offset + consumed;
      delivered := delivered + events;
      r := Polled(events);
    }
  }

  /** No record is compatible with the bytes at the reported offset, which lies
      right behind whole records. */
  ghost predicate Broken(crc: Crc, file: Bytes, good: seq<Output>, error: JournalError) {
    && error.Corrupt?
    && HEADER_LEN <= error.offset && error.offset + 4 <= |file|
    && Stream(RecordCode(crc), good) == file[HEADER_LEN..error.offset]
    && forall e :: !Compatible(crc, file[error.offset..], e)
  }

  /** Attaches to a file whose header is complete and recognised. */
  method OpenTail(crc: Crc, file: Bytes) returns (error: Option<JournalError>, tail: JournalTail?)
    ensures error == if |file| < HEADER_LEN then Some(IncompleteHeader) else if GoodHeader(file) then None else Some(BadHeader)
    ensures error.None? <==> tail != null
    ensures tail != null ==> fresh(tail) && tail.Valid() && tail.crc == crc
    ensures tail != null ==> tail.seen == file[..HEADER_LEN] && tail.delivered == []
  {
    if |file| < HEADER_LEN {
      return Some(IncompleteHeader), null;
    }
    if file[..4] != Magic() || FromLe(file[4..6]) != 1 {
      return Some(BadHeader), null;
    }
    tail := new JournalTail(crc, file);
    error := None;
  }

  /** Whatever was delivered from a file is a prefix of its recovery. */
  lemma DeliveredIsRecovered(crc: Crc, file: Bytes, delivered: seq<Output>, r: Recovery)
    requires GoodHeader(file) && Recovers(crc, file, r)
    requires Stream(RecordCode(crc), delivered) <= file[HEADER_LEN..]
    ensures delivered <= r.events
  {
    hide Stream, RecordCode;
    var body, code := file[HEADER_LEN..], RecordCode(crc);
    RecordsPrefixFree(crc);
    if |delivered| <= |r.events| {
      StreamsNest(code, delivered, r.events, body);
    } else {
      StreamsNest(code, r.events, delivered, body);
      var e := delivered[|r.events|];
      assert delivered == (r.events + [e]) + delivered[|r.events| + 1..];
      StreamMore(code, r.events + [e], delivered[|r.events| + 1..]);
    }
  }

  /** A cut of a real journal is never broken. */
  lemma CutIsNotBroken(crc: Crc, runId: u128, events: seq<Output>, cut: nat, good: seq<Output>, error: JournalError)
    requires HEADER_LEN <= cut <= |JournalBytes(crc, runId, events)|
    ensures !Broken(crc, JournalBytes(crc, runId, events)[..cut], good, error)
  {
    hide Stream, Header, RecordCode, Record;
    var journal := JournalBytes(crc, runId, events);
    var file := journal[..cut];
    if Broken(crc, file, good, error) {
      var done := Stream(RecordCode(crc), good);
      assert done <= file[HEADER_LEN..];
      StreamBound(crc, runId, events, cut, good);
      assert good == events[..|good|];
      assert Boundary(crc, events, |good|) == error.offset;
      NextIsCompatible(crc, runId, events, cut, good);
    }
  }

  lemma NextIsCompatible(crc: Crc, runId: u128, events: seq<Output>, cut: nat, good: seq<Output>)
    requires HEADER_LEN <= cut <= |JournalBytes(crc, runId, events)| && good <= events
    requires Boundary(crc, events, |good|) < cut
    ensures |good| < |events|
    ensures Compatible(crc, JournalBytes(crc, runId, events)[..cut][Boundary(crc, events, |good|)..], events[|good|])
  {
    hide Stream, Header, RecordCode, Record;
    var code, at := RecordCode(crc), Boundary(crc, events, |good|);
    var more := events[|good|..];
    assert events == events[..|good|] + more;
    StreamMore(code, events[..|good|], more);
    var journal := JournalBytes(crc, runId, events);
    assert journal[at..] == Stream(code, more);
    RecordsPrefixFree(crc);
    EmptyStream(code, more);
    assert more == [more[0]] + more[1..];
    StreamMore(code, [more[0]], more[1..]);
    assert [] + [more[0]] == [more[0]];
    OneMore(crc, [], more[0]);
    EmptyStream(code, []);
    assert Record(crc, more[0]) <= journal[at..];
    assert journal[..cut][at..] == journal[at..][..cut - at];
  }

  /** A reader that polls a journal while it grows: for every sequence of file
      lengths and limits, the polls together deliver a prefix of the events, each
      once and in order, which is a prefix of the recovery of the last file; and
      when the last poll stayed under its limit it is all of that recovery. */
  method Follow(crc: Crc, runId: u128, events: seq<Output>, cuts: seq<nat>, limits: seq<nat>)
    returns (got: seq<Output>, last: seq<Output>)
    requires |cuts| == |limits|
    requires forall i :: 0 <= i < |cuts| ==> HEADER_LEN <= cuts[i] <= |JournalBytes(crc, runId, events)|
    requires forall i, j :: 0 <= i < j < |cuts| ==> cuts[i] <= cuts[j]
    ensures EndsWith(got, last) && Delivered(crc, runId, events, CutAt(cuts, |cuts|), got)
    ensures cuts != [] && |last| < limits[|cuts| - 1] ==> AllDelivered(crc, runId, events, CutAt(cuts, |cuts|), got)
  {
    hide Delivered, AllDelivered, EndsWith, JournalBytes;
    var journal := JournalBytes(crc, runId, events);
    var tail := new JournalTail(crc, journal);
    got, last := [], [];
    NothingDelivered(crc, runId, events);
    for i := 0 to |cuts|
      invariant fresh(tail) && tail.Valid() && tail.crc == crc && got == tail.delivered && EndsWith(got, last)
      invariant tail.seen == journal[..CutAt(cuts, i)] && Delivered(crc, runId, events, CutAt(cuts, i), got)
      invariant i > 0 && |last| < limits[i - 1] ==> AllDelivered(crc, runId, events, CutAt(cuts, i), got)
    {
      CutsNest(journal, CutAt(cuts, i), cuts[i]);
      last := PollCut(tail, journal[..cuts[i]], limits[i], runId, events, cuts[i]);
      Ended(got, last);
      got := got + last;
    }
  }

  /** The length of the file at the i-th moment; at first there is the header. */
  function CutAt(cuts: seq<nat>, i: nat): nat
    requires i <= |cuts|
  {
    if i == 0 then HEADER_LEN else cuts[i - 1]
  }

  ghost predicate EndsWith(got: seq<Output>, last: seq<Output>) {
    |last| <= |got| && got[|got| - |last|..] == last
  }

  lemma Ended(got: seq<Output>, last: seq<Output>)
    ensures EndsWith(got + last, last) && EndsWith([], [])
  {
  }

  /** The records of these events begin the file, and they are the first of the
      journal's events. */
  ghost predicate Delivered(crc: Crc, runId: u128, events: seq<Output>, cut: nat, got: seq<Output>) {
    && HEADER_LEN <= cut <= |JournalBytes(crc, runId, events)|
    && got <= events
    && Stream(RecordCode(crc), got) <= JournalBytes(crc, runId, events)[..cut][HEADER_LEN..]
  }

  ghost predicate AllDelivered(crc: Crc, runId: u128, events: seq<Output>, cut: nat, got: seq<Output>) {
    Delivered(crc, runId, events, cut, got) && Longest(crc, JournalBytes(crc, runId, events)[..cut][HEADER_LEN..], got)
  }

  lemma NothingDelivered(crc: Crc, runId: u128, events: seq<Output>)
    ensures Delivered(crc, runId, events, HEADER_LEN, []) && EndsWith([], [])
  {
  }

  lemma CutsNest(journal: Bytes, a: nat, b: nat)
    requires a <= b <= |journal|
    ensures journal[..a] <= journal[..b]
  {
  }

  /** One poll of a journal that so far reaches to the cut. */
  method PollCut(tail: JournalTail, file: Bytes, limit: nat, ghost runId: u128, ghost events: seq<Output>, ghost cut: nat)
    returns (more: seq<Output>)
    requires tail.Valid() && tail.seen <= file
    requires HEADER_LEN <= cut <= |JournalBytes(tail.crc, runId, events)|
    requires file == JournalBytes(tail.crc, runId, events)[..cut]
    modifies tail
    ensures tail.Valid() && tail.seen == file && tail.delivered == old(tail.delivered) + more
    ensures Delivered(tail.crc, runId, events, cut, tail.delivered)
    ensures |more| < limit ==> AllDelivered(tail.crc, runId, events, cut, tail.delivered)
  {
    hide Stream, Header, RecordCode, Longest, Broken, JournalBytes;
    forall good, error ensures !Broken(tail.crc, file, good, error) {
      CutIsNotBroken(tail.crc, runId, events, cut, good, error);
    }
    var polled := tail.Poll(file, limit);
    assert polled.Polled?;
    more := polled.events;
    assert file[HEADER_LEN..tail.offset] <= file[HEADER_LEN..];
    StreamBound(tail.crc, runId, events, cut, tail.delivered);
  }

  /** What was delivered of a cut journal is a prefix of the recovery of that cut,
      and all of it exactly when no whole record is left. */
  lemma DeliveredOfCut(crc: Crc, runId: u128, events: seq<Output>, cut: nat, got: seq<Output>, r: Recovery)
    requires Delivered(crc, runId, events, cut, got)
    requires Recovers(crc, JournalBytes(crc, runId, events)[..cut], r)
    ensures r.Recovered? && got <= r.events
    ensures got == r.events <==> AllDelivered(crc, runId, events, cut, got)
  {
    hide Stream, Header, RecordCode;
    var file := JournalBytes(crc, runId, events)[..cut];
    assert Header(runId) <= file;
    HeaderIsGood(runId, file);
    DeliveredIsRecovered(crc, file, got, r);
    if Longest(crc, file[HEADER_LEN..], got) && |got| < |r.events| {
      var e := r.events[|got|];
      assert r.events == (got + [e]) + r.events[|got| + 1..];
      StreamMore(RecordCode(crc), got + [e], r.events[|got| + 1..]);
    }
  }
}
