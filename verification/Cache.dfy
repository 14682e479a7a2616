/** The bounded request cache: a ring of outcomes with an index from request id
    to ring slot, proved to hold the most recent outcomes in order. */
module Cache {
  import opened Domain
  import opened Core

  /** Remainder of a position at most one turn past the end of the ring. */
  function Wrap(x: nat, size: nat): nat
    requires x < 2 * size
  {
    if x < size then x else x - size
  }

  lemma WrapIsRemainder(x: nat, size: nat)
    requires 0 < size && x < 2 * size
    ensures x % size == Wrap(x, size)
  {
    var k := x / size;
    assert x == size * k + x % size;
    if x < size {
      assert size * k < size;
    } else {
      assert k >= 1 && size * (k - 2) < 0;
    }
  }

  /** The ring read from its oldest slot. */
  ghost function Turned(entries: seq<Option<Cached>>, next: nat): seq<Option<Cached>>
    requires next <= |entries|
  {
    entries[next..] + entries[..next]
  }

  /** The ring holds these outcomes, oldest first, behind its empty slots. */
  ghost predicate Holds(entries: seq<Option<Cached>>, next: nat, cache: seq<Cached>) {
    && next < |entries| && |cache| <= |entries|
    && var empty := |entries| - |cache|;
    && (forall r :: 0 <= r < empty ==> Turned(entries, next)[r] == None)
    && (forall j :: 0 <= j < |cache| ==> Turned(entries, next)[empty + j] == Some(cache[j]))
  }

  /** Ring slot of the j-th retained outcome. */
  ghost function SlotOf(size: nat, next: nat, count: nat, j: nat): nat
    requires next < size && j < count <= size
  {
    Wrap(next + (size - count + j), size)
  }

  ghost predicate Newest(cache: seq<Cached>, j: nat) {
    j < |cache| && forall k :: j < k < |cache| ==> cache[k].requestId != cache[j].requestId
  }

  /** The index names the slot of the newest outcome of every retained id, and
      nothing else. */
  ghost predicate Points(index: map<u64, nat>, size: nat, next: nat, cache: seq<Cached>)
    requires next < size && |cache| <= size
  {
    && (forall j :: 0 <= j < |cache| ==> cache[j].requestId in index)
    && (forall id :: id in index ==> PointsAt(index, size, next, cache, id))
  }

  ghost predicate PointsAt(index: map<u64, nat>, size: nat, next: nat, cache: seq<Cached>, id: u64)
    requires id in index && next < size && |cache| <= size
  {
    exists j :: 0 <= j < |cache| && Newest(cache, j) && cache[j].requestId == id && index[id] == SlotOf(size, next, |cache|, j)
  }

  lemma HoldsAt(entries: seq<Option<Cached>>, next: nat, cache: seq<Cached>, j: nat)
    requires Holds(entries, next, cache) && j < |cache|
    ensures var slot := SlotOf(|entries|, next, |cache|, j);
      slot < |entries| && entries[slot] == Some(cache[j])
  {
    assert Turned(entries, next)[|entries| - |cache| + j] == Some(cache[j]);
  }

  lemma NextHolds(entries: seq<Option<Cached>>, next: nat, cache: seq<Cached>)
    requires Holds(entries, next, cache)
    ensures entries[next] == if |cache| == |entries| then Some(cache[0]) else None
  {
    assert Turned(entries, next)[0] == entries[next];
  }

  lemma TurnedRecord(entries: seq<Option<Cached>>, next: nat, e: Cached)
    requires next < |entries|
    ensures Turned(entries[next := Some(e)], Wrap(next + 1, |entries|)) == Turned(entries, next)[1..] + [Some(e)]
  {
  }

  lemma HoldsRecord(entries: seq<Option<Cached>>, next: nat, cache: seq<Cached>, e: Cached)
    requires Holds(entries, next, cache)
    ensures Holds(entries[next := Some(e)], Wrap(next + 1, |entries|), CacheRecord(cache, e, |entries|))
  {
    hide Turned;
    TurnedSize(entries, next);
    TurnedRecord(entries, next, e);
    var t, w := Turned(entries, next), |entries|;
    var cache' := CacheRecord(cache, e, w);
    var t' := t[1..] + [Some(e)];
    var empty, empty' := w - |cache|, w - |cache'|;
    forall j | 0 <= j < |cache'| ensures t'[empty' + j] == Some(cache'[j]) {
      var k := |cache| + 1 - |cache'| + j;
      assert cache'[j] == (cache + [e])[k];
      if k < |cache| {
        assert t'[empty' + j] == t[empty + k];
      }
    }
    forall r | 0 <= r < empty' ensures t'[r] == None {
      assert t'[r] == t[r + 1];
    }
  }

  lemma TurnedSize(entries: seq<Option<Cached>>, next: nat)
    requires next <= |entries|
    ensures |Turned(entries, next)| == |entries|
  {
  }

  /** Positions shift by one when the oldest outcome falls out. */
  lemma SlotShift(size: nat, next: nat, count: nat, j: nat)
    requires next < size && j < count <= size
    ensures count < size ==> SlotOf(size, Wrap(next + 1, size), count + 1, j) == SlotOf(size, next, count, j)
    ensures count == size && 0 < j ==> SlotOf(size, Wrap(next + 1, size), count, j - 1) == SlotOf(size, next, count, j)
    ensures count == size ==> (SlotOf(size, next, count, j) == next <==> j == 0)
    ensures count < size ==> SlotOf(size, next, count, j) != next
  {
  }

  lemma LastSlot(size: nat, next: nat, count: nat)
    requires next < size && 0 < count <= size
    ensures SlotOf(size, Wrap(next + 1, size), count, count - 1) == next
  {
  }

  /** The index once the outcome about to be overwritten is forgotten. */
  function Evicted(index: map<u64, nat>, previous: Option<Cached>, next: nat): map<u64, nat> {
    if previous.Some? && previous.value.requestId in index && index[previous.value.requestId] == next
    then index - {previous.value.requestId} else index
  }

  /** The new outcome is the newest under its id; the others keep their slots. */
  lemma PointsRecord(index: map<u64, nat>, entries: seq<Option<Cached>>, next: nat, cache: seq<Cached>, e: Cached)
    requires Holds(entries, next, cache) && Points(index, |entries|, next, cache)
    ensures Points(Evicted(index, entries[next], next)[e.requestId := next], |entries|, Wrap(next + 1, |entries|),
                   CacheRecord(cache, e, |entries|))
  {
    hide Holds, SlotOf;
    var w := |entries|;
    HoldsBounds(entries, next, cache);
    NextHolds(entries, next, cache);
    var cache' := CacheRecord(cache, e, w);
    var next' := Wrap(next + 1, w);
    var index' := Evicted(index, entries[next], next)[e.requestId := next];
    forall j | 0 <= j < |cache'| ensures cache'[j].requestId in index' {
      KeptInIndex(index, entries, next, cache, e, j);
    }
    forall id | id in index' ensures PointsAt(index', w, next', cache', id) {
      if id == e.requestId {
        LastSlot(w, next, |cache'|);
        assert Newest(cache', |cache'| - 1);
      } else {
        assert PointsAt(index, w, next, cache, id);
        var j :| 0 <= j < |cache| && Newest(cache, j) && cache[j].requestId == id && index[id] == SlotOf(w, next, |cache|, j);
        SlotShift(w, next, |cache|, j);
        StillNewest(cache, e, w, j);
      }
    }
  }

  lemma StillNewest(cache: seq<Cached>, e: Cached, window: nat, j: nat)
    requires Newest(cache, j) && cache[j].requestId != e.requestId && |cache| <= window && (|cache| == window ==> j > 0)
    ensures var k := if |cache| == window then j - 1 else j;
      Newest(CacheRecord(cache, e, window), k) && CacheRecord(cache, e, window)[k] == cache[j]
  {
    var cache' := CacheRecord(cache, e, window);
    var drop := |cache| + 1 - |cache'|;
    assert cache'[j - drop] == (cache + [e])[j];
    forall k | j - drop < k < |cache'| ensures cache'[k].requestId != cache[j].requestId {
      assert cache'[k] == (cache + [e])[k + drop];
    }
  }

  lemma HoldsBounds(entries: seq<Option<Cached>>, next: nat, cache: seq<Cached>)
    requires Holds(entries, next, cache)
    ensures next < |entries| && |cache| <= |entries|
  {
  }

  lemma KeptInIndex(index: map<u64, nat>, entries: seq<Option<Cached>>, next: nat, cache: seq<Cached>, e: Cached, j: nat)
    requires Holds(entries, next, cache) && Points(index, |entries|, next, cache)
    requires j < |CacheRecord(cache, e, |entries|)|
    ensures CacheRecord(cache, e, |entries|)[j].requestId in Evicted(index, entries[next], next)[e.requestId := next]
  {
    hide SlotOf;
    NextHolds(entries, next, cache);
    var w := |entries|;
    var cache' := CacheRecord(cache, e, w);
    var k := |cache| + 1 - |cache'| + j;
    assert cache'[j] == (cache + [e])[k];
    if k < |cache| && cache[k].requestId != e.requestId && |cache| == w && cache[k].requestId == cache[0].requestId {
      var id := cache[0].requestId;
      assert PointsAt(index, w, next, cache, id);
      var m :| 0 <= m < |cache| && Newest(cache, m) && cache[m].requestId == id && index[id] == SlotOf(w, next, |cache|, m);
      SlotShift(w, next, |cache|, m);
    }
  }

  class RequestCache {
    const entries: array<Option<Cached>>
    var index: map<u64, nat>
    var next: nat

    ghost var cache: seq<Cached>

    ghost predicate Valid()
      reads this, entries
    {
      && Holds(entries[..], next, cache)
      && Points(index, entries.Length, next, cache)
    }

    constructor (capacity: nat)
      ensures Valid() && cache == [] && fresh(entries)
      ensures entries.Length == if capacity == 0 then 1 else capacity
    {
      var size := if capacity == 0 then 1 else capacity;
      entries := new Option<Cached>[size](_ => None);
      index, next, cache := map[], 0, [];
    }

    /** The outcome recorded for an exact retry, or that the id was reused for
        something else. */
    method Lookup(requestId: u64, fingerprint: u64) returns (hit: CacheHit)
      requires Valid()
      ensures hit == CacheLookup(cache, requestId, fingerprint)
    {
      hide Holds, Points, CacheLookup;
      HoldsBounds(entries[..], next, cache);
      if requestId !in index {
        NotIndexed(index, entries.Length, next, cache, requestId, fingerprint);
        return Miss;
      }
      ghost var j := Indexed(index, entries[..], next, cache, requestId, fingerprint);
      var entry := entries[index[requestId]];
      if entry.None? || entry.value.requestId != requestId {
        return Miss;
      }
      return if entry.value.fingerprint == fingerprint then Retry(entry.value.report) else Conflict;
    }

    /** Overwrites the oldest slot. */
    method Record(requestId: u64, fingerprint: u64, outcome: Report)
      requires Valid()
      modifies this, entries
      ensures Valid()
      ensures cache == CacheRecord(old(cache), Cached(requestId, fingerprint, outcome), entries.Length)
    {
      hide Holds, Points, CacheRecord;
      ghost var e := Cached(requestId, fingerprint, outcome);
      HoldsBounds(entries[..], next, cache);
      HoldsRecord(entries[..], next, cache, e);
      PointsRecord(index, entries[..], next, cache, e);
      WrapIsRemainder(next + 1, entries.Length);
      var previous := entries[next];
      if previous.Some? && previous.value.requestId in index && index[previous.value.requestId] == next {
        index := index - {previous.value.requestId};
      }
      entries[next] := Some(Cached(requestId, fingerprint, outcome));
      index := index[requestId := next];
      assert entries[..] == old(entries[..])[next := Some(e)];
      next := (next + 1) % entries.Length;
      cache := CacheRecord(cache, e, entries.Length);
    }

    /** Retained outcomes in the order they were recorded. */
    method CanonicalEntries() returns (out: seq<Cached>)
      requires Valid()
      ensures out == cache
    {
      hide Points;
      out := [];
      var len := entries.Length;
      for offset := 0 to len
        invariant out == cache[..if offset < len - |cache| then 0 else offset - (len - |cache|)]
      {
        WrapIsRemainder(next + offset, len);
        assert Turned(entries[..], next)[offset] == entries[..][Wrap(next + offset, len)];
        ghost var j := offset - (len - |cache|);
        assert j >= 0 ==> Turned(entries[..], next)[len - |cache| + j] == Some(cache[j]);
        assert j >= 0 ==> cache[..j + 1] == cache[..j] + [cache[j]];
        var entry := entries[(next + offset) % len];
        if entry.Some? {
          out := out + [entry.value];
        }
      }
    }
  }

  lemma {:induction false} LookupMisses(cache: seq<Cached>, requestId: u64, fingerprint: u64)
    requires forall j :: 0 <= j < |cache| ==> cache[j].requestId != requestId
    ensures CacheLookup(cache, requestId, fingerprint) == Miss
    decreases |cache|
  {
    if cache != [] {
      LookupMisses(cache[..|cache| - 1], requestId, fingerprint);
    }
  }

  lemma {:induction false} LookupFinds(cache: seq<Cached>, j: nat, fingerprint: u64)
    requires Newest(cache, j)
    ensures CacheLookup(cache, cache[j].requestId, fingerprint)
         == if cache[j].fingerprint == fingerprint then Retry(cache[j].report) else Conflict
    decreases |cache|
  {
    var n := |cache| - 1;
    if j < n {
      LookupFinds(cache[..n], j, fingerprint);
    }
  }

  lemma NotIndexed(index: map<u64, nat>, size: nat, next: nat, cache: seq<Cached>, requestId: u64, fingerprint: u64)
    requires next < size && |cache| <= size && Points(index, size, next, cache) && requestId !in index
    ensures CacheLookup(cache, requestId, fingerprint) == Miss
  {
    LookupMisses(cache, requestId, fingerprint);
  }

  lemma Indexed(index: map<u64, nat>, entries: seq<Option<Cached>>, next: nat, cache: seq<Cached>, requestId: u64,
                fingerprint: u64) returns (j: nat)
    requires Holds(entries, next, cache) && Points(index, |entries|, next, cache) && requestId in index
    ensures j < |cache| && cache[j].requestId == requestId
    ensures index[requestId] < |entries| && entries[index[requestId]] == Some(cache[j])
    ensures CacheLookup(cache, requestId, fingerprint)
         == if cache[j].fingerprint == fingerprint then Retry(cache[j].report) else Conflict
  {
    assert PointsAt(index, |entries|, next, cache, requestId);
    j :| 0 <= j < |cache| && Newest(cache, j) && cache[j].requestId == requestId
      && index[requestId] == SlotOf(|entries|, next, |cache|, j);
    HoldsAt(entries, next, cache, j);
    LookupFinds(cache, j, fingerprint);
  }
}
