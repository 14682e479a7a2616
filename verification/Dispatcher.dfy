/** The settlement outbox, the simulated venue and the dispatcher as the source
    writes them. A whole tick without a crash is a run of the protocol. */
module Dispatching {
  import opened Domain
  import opened Settlement

  // ---- ascending lists ----------------------------------------------------

  lemma LeastOfSet(s: set<nat>) returns (least: nat)
    requires s != {}
    ensures least in s && forall x :: x in s ==> least <= x
  {
    var x :| x in s;
    least := x;
    if s != {x} {
      var rest := s - {x};
      assert s == rest + {x};
      var l := LeastOfSet(rest);
      least := if l < x then l else x;
    }
  }

  /** The least members of a set in ascending order, at most `limit`. */
  method TakeLeast(members: set<nat>, limit: nat) returns (list: seq<nat>)
    ensures Least(list, members, limit)
  {
    list := [];
    var left := members;
    while |list| < limit && left != {}
      invariant |list| <= limit && left <= members && Ascending(list)
      invariant forall k :: 0 <= k < |list| ==> list[k] in members && list[k] !in left
      invariant forall t :: t in members && t !in left ==> t in list
      invariant forall k, t :: 0 <= k < |list| && t in left ==> list[k] < t
      decreases left
    {
      ghost var l := LeastOfSet(left);
      var t :| t in left && forall x :: x in left ==> t <= x;
      list := list + [t];
      left := left - {t};
    }
  }

  /** The last element of an ascending list is its greatest. */
  lemma LastIsGreatest(a: seq<nat>, t: nat)
    requires Ascending(a) && t in a
    ensures a != [] && a[|a| - 1] in a && t <= a[|a| - 1]
  {
    var i :| 0 <= i < |a| && a[i] == t;
    if i < |a| - 1 { assert a[i] < a[|a| - 1]; }
  }

  lemma {:induction false} SameMembers(a: seq<nat>, b: seq<nat>)
    requires Ascending(a) && Ascending(b) && forall t :: t in a <==> t in b
    ensures a == b
    decreases |a|
  {
    if a != [] && b != [] {
      var m, n := |a| - 1, |b| - 1;
      assert a[m] in a && b[n] in b;
      LastIsGreatest(b, a[m]);
      LastIsGreatest(a, b[n]);
      forall t ensures t in a[..m] <==> t in b[..n] {
        Shortened(a, t);
        Shortened(b, t);
      }
      SameMembers(a[..m], b[..n]);
      assert a == a[..m] + [a[m]] && b == b[..n] + [b[n]];
    } else if a != [] {
      var t := Member(a);
    } else if b != [] {
      var t := Member(b);
    }
  }

  lemma Member(a: seq<nat>) returns (t: nat)
    requires a != []
    ensures t in a
  {
    t := a[0];
  }

  lemma Shortened(a: seq<nat>, t: nat)
    requires Ascending(a) && a != []
    ensures t in a[..|a| - 1] <==> t in a && t != a[|a| - 1]
  {
    var m := |a| - 1;
    if t in a && t != a[m] {
      var i :| 0 <= i < |a| && a[i] == t;
      assert a[..m][i] == t;
    }
    if t in a[..m] {
      var i :| 0 <= i < m && a[..m][i] == t;
      assert a[i] < a[m];
    }
  }

  // ---- the outbox ---------------------------------------------------------

  ghost predicate Listed(list: seq<Ticket>, id: Id) {
    exists k :: 0 <= k < |list| && list[k].id == id
  }

  lemma ListedMore(list: seq<Ticket>, t: Ticket)
    ensures forall id :: Listed(list + [t], id) <==> Listed(list, id) || id == t.id
  {
    forall id ensures Listed(list + [t], id) <==> Listed(list, id) || id == t.id {
      if Listed(list, id) {
        var k :| 0 <= k < |list| && list[k].id == id;
        assert (list + [t])[k].id == id;
      }
      assert (list + [t])[|list|] == t;
    }
  }

  /** The due open rows with the least first trades, at most `limit` of them, in
      the order of their first trades. */
  ghost predicate Selected(o: Outbox, due: set<Id>, limit: nat, list: seq<Ticket>) {
    && |list| <= limit
    && (forall k :: 0 <= k < |list| ==> list[k].id in due)
    && (forall i, j :: 0 <= i < j < |list| ==> list[i].id.first <= list[j].id.first)
    && (forall id :: id in due && id in o.rows && Open(o.rows[id].status) && !Listed(list, id) ==>
          |list| == limit && forall k :: 0 <= k < |list| ==> list[k].id.first <= id.first)
  }

  ghost function Candidates(o: Outbox, due: set<Id>): set<Id> {
    set id | id in due && id in o.rows && Open(o.rows[id].status)
  }

  /** The list so far and the candidates not yet on it, all of them later. */
  ghost predicate Choosing(o: Outbox, due: set<Id>, limit: nat, list: seq<Ticket>, left: set<Id>) {
    && |list| <= limit && AllDue(o, list) && left <= Candidates(o, due)
    && (forall k :: 0 <= k < |list| ==> list[k].id in due && list[k].id !in left)
    && (forall id :: id in Candidates(o, due) && id !in left ==> Listed(list, id))
    && (forall i, j :: 0 <= i < j < |list| ==> list[i].id.first <= list[j].id.first)
    && (forall k, id :: 0 <= k < |list| && id in left ==> list[k].id.first <= id.first)
  }

  lemma NoneChosen(o: Outbox, due: set<Id>, limit: nat, left: set<Id>)
    requires left == Candidates(o, due)
    ensures Choosing(o, due, limit, [], left)
  {
  }

  lemma Chosen(o: Outbox, due: set<Id>, limit: nat, list: seq<Ticket>, left: set<Id>, id: Id)
    requires Choosing(o, due, limit, list, left) && |list| < limit
    requires id in left && forall x :: x in left ==> id.first <= x.first
    ensures id in o.rows && Choosing(o, due, limit, list + [Ticket(id, o.rows[id].status)], left - {id})
  {
    hide Listed;
    var t := Ticket(id, o.rows[id].status);
    ListedMore(list, t);
    var more := list + [t];
    assert forall k :: 0 <= k < |list| ==> more[k] == list[k];
  }

  lemma AllChosen(o: Outbox, due: set<Id>, limit: nat, list: seq<Ticket>, left: set<Id>)
    requires Choosing(o, due, limit, list, left) && (|list| >= limit || left == {})
    ensures AllDue(o, list) && Selected(o, due, limit, list)
  {
    hide Listed;
    forall id | id in due && id in o.rows && Open(o.rows[id].status) && !Listed(list, id)
      ensures |list| == limit && forall k :: 0 <= k < |list| ==> list[k].id.first <= id.first
    {
      assert id in Candidates(o, due);
    }
  }

  /** Exactly the listed trades were unclaimed and now belong to their settlement. */
  ghost predicate Assigned(trades: map<nat, Option<Id>>, trades': map<nat, Option<Id>>, list: seq<nat>)
    requires list != []
  {
    && trades'.Keys == trades.Keys
    && (forall t :: t in list ==> t in trades && trades[t].None?)
    && forall t :: t in trades ==> trades'[t] == if t in list then Some(IdOf(list)) else trades[t]
  }

  lemma ListIsAssigned(o: Outbox, list: seq<nat>, limit: nat)
    requires list != [] && Least(list, Unclaimed(o), limit)
    ensures Assigned(o.trades, ClaimRange(o.trades, IdOf(list)), list)
  {
    hide Least;
    forall t ensures t in Unclaimed(o) && list[0] <= t <= list[|list| - 1] <==> t in list {
      RangeIsList(o, list, limit, t);
    }
  }

  class SettlementOutbox {
    var trades: map<nat, Option<Id>>
    var rows: map<Id, Row>

    function Abstract(): Outbox
      reads this
    {
      Outbox(trades, rows)
    }

    constructor ()
      ensures Abstract() == Start.outbox
    {
      trades, rows := map[], map[];
    }

    /** Claims the next unsettled trades as one settlement. */
    method CreateBatch(limit: nat) returns (list: seq<nat>, conflict: bool)
      modifies this
      ensures Least(list, Unclaimed(old(Abstract())), limit)
      ensures Abstract() == Claim(old(Abstract()), list)
      ensures conflict <==> list != [] && IdOf(list) in old(rows) && old(rows)[IdOf(list)].manifest != Manifest(IdOf(list), list)
      ensures conflict || list == [] ==> trades == old(trades) && rows == old(rows)
      ensures !conflict && list != [] ==>
        && Assigned(old(trades), trades, list)
        && IdOf(list) in rows && rows[IdOf(list)].manifest == Manifest(IdOf(list), list)
        && rows - {IdOf(list)} == old(rows) - {IdOf(list)}
    {
      hide Least;
      var open := set t | t in trades && trades[t].None?;
      list := TakeLeast(open, limit);
      conflict := false;
      if list == [] {
        return;
      }
      var id := IdOf(list);
      var manifest := Manifest(id, list);
      if id in rows && rows[id].manifest != manifest {
        conflict := true;
        return;
      }
      if id !in rows {
        rows := rows[id := Row(Waiting, manifest, 0, None)];
      }
      trades := ClaimRange(trades, id);
      ListIsAssigned(old(Abstract()), list, limit);
    }

    /** Rebuilds the manifest from the claimed trades; None is a conflict. */
    method ManifestFor(id: Id) returns (manifest: Option<Manifest>)
      requires id in rows
      ensures manifest.Some? <==> Rebuilt(Abstract(), id)
      ensures manifest.Some? ==> manifest.value == rows[id].manifest
    {
      var members := set t | t in trades && trades[t] == Some(id);
      var list := TakeLeast(members, |members| + 1);
      assert members == Claimed(Abstract(), id);
      WholeList(list, members);
      if Rebuilt(Abstract(), id) {
        SameMembers(list, rows[id].manifest.trades);
      }
      manifest := if Manifest(id, list) == rows[id].manifest then Some(Manifest(id, list)) else None;
    }

    /** Open rows that are due, in order of their first trade. */
    method Pending(due: set<Id>, limit: nat) returns (list: seq<Ticket>)
      ensures AllDue(Abstract(), list) && Selected(Abstract(), due, limit, list)
    {
      hide AllDue, Selected, Choosing;
      list := [];
      var left := set id | id in due && id in rows && Open(rows[id].status);
      assert Choosing(Abstract(), due, limit, list, left) by { NoneChosen(Abstract(), due, limit, left); }
      while |list| < limit && left != {}
        invariant Choosing(Abstract(), due, limit, list, left)
        decreases left
      {
        ghost var f := FirstOf(left);
        var id :| id in left && forall x :: x in left ==> id.first <= x.first;
        Chosen(Abstract(), due, limit, list, left, id);
        list := list + [Ticket(id, rows[id].status)];
        left := left - {id};
      }
      AllChosen(Abstract(), due, limit, list, left);
    }

    method Transition(id: Id, next: Status, increment: nat, receipt: Option<Receipt>)
      requires id in rows
      modifies this
      ensures Abstract() == Settlement.Transition(old(Abstract()), id, next, increment, receipt)
    {
      var row := rows[id];
      if row.status == Confirmed {
        return;
      }
      if row.status == Failed && next != Confirmed {
        return;
      }
      rows := rows[id := row.(status := next, attempts := row.attempts + increment,
                              receipt := if receipt.Some? then receipt else row.receipt)];
    }

    method RecordUnknown(id: Id)
      requires id in rows
      modifies this
      ensures Abstract() == Settlement.RecordUnknown(old(Abstract()), id)
    {
      if rows[id].status == Confirmed || rows[id].status == Failed {
        return;
      }
      if rows[id].attempts + 1 >= MAX_AUTO_ATTEMPTS {
        Transition(id, NeedsOperator, 1, None);
      } else {
        Transition(id, Unknown, 1, None);
      }
    }

    method ReleaseFailed(id: Id) returns (released: bool)
      modifies this
      ensures Abstract() == Settlement.ReleaseFailed(old(Abstract()), id)
      ensures released <==> id in old(rows) && old(rows)[id].status.Failed?
      ensures rows == if released then old(rows) - {id} else old(rows)
      ensures trades.Keys == old(trades).Keys
      ensures forall t :: t in trades ==> trades[t] == if released && old(trades)[t] == Some(id) then None else old(trades)[t]
    {
      if id !in rows || rows[id].status != Failed {
        return false;
      }
      trades := map t | t in trades :: if trades[t] == Some(id) then None else trades[t];
      rows := rows - {id};
      return true;
    }
  }

  lemma WholeList(list: seq<nat>, members: set<nat>)
    requires Least(list, members, |members| + 1)
    ensures Ascending(list) && forall t :: t in list <==> t in members
  {
    if |list| == |members| + 1 {
      DistinctSize(list, members);
    }
  }

  lemma {:induction false} DistinctSize(list: seq<nat>, members: set<nat>)
    requires Ascending(list) && forall k :: 0 <= k < |list| ==> list[k] in members
    ensures |list| <= |members|
    decreases |list|
  {
    if list != [] {
      var n := |list| - 1;
      var rest := members - {list[n]};
      assert members == rest + {list[n]};
      DistinctSize(list[..n], rest);
    }
  }

  lemma FirstOf(s: set<Id>) returns (id: Id)
    requires s != {}
    ensures id in s && forall x :: x in s ==> id.first <= x.first
  {
    var x :| x in s;
    id := x;
    if s != {x} {
      var rest := s - {x};
      assert s == rest + {x};
      var l := FirstOf(rest);
      id := if l.first < x.first then l else x;
    }
  }

  // ---- the venue ----------------------------------------------------------

  class SimulatedVenue {
    var applied: Venue

    constructor ()
      ensures applied == map[]
    {
      applied := map[];
    }

    method Submit(m: Manifest, faults: Faults) returns (outcome: Outcome)
      modifies this
      ensures (applied, outcome) == VenueSubmit(old(applied), m, faults)
    {
      if faults.unavailable {
        return NoAnswer;
      }
      if faults.reject {
        return Refused;
      }
      if m.id in applied {
        return if applied[m.id].manifest != m then Refused else AlreadyApplied(applied[m.id]);
      }
      var receipt := Receipt(m);
      applied := applied[m.id := receipt];
      if faults.timeoutAfterApply {
        return NoAnswer;
      }
      return Applied(receipt);
    }

    method Lookup(m: Manifest, faults: Faults) returns (outcome: Outcome)
      ensures outcome == VenueLookup(applied, m, faults)
    {
      if faults.unavailable {
        return NoAnswer;
      }
      if m.id !in applied {
        return NotFound;
      }
      return if applied[m.id].manifest != m then Refused else AlreadyApplied(applied[m.id]);
    }
  }

  // ---- the dispatcher -----------------------------------------------------

  /** The events lead from one world to the other. */
  ghost predicate Passes(w: World, events: seq<Happening>, w': World)
    decreases |events|
  {
    if events == [] then w == w'
    else Enabled(w, events[0]) && Passes(Happen(w, events[0]), events[1..], w')
  }

  lemma {:induction false} PassesMore(w: World, a: seq<Happening>, m: World, e: Happening)
    requires Passes(w, a, m) && Enabled(m, e)
    ensures Passes(w, a + [e], Happen(m, e))
    decreases |a|
  {
    hide Happen, Enabled;
    if a == [] {
      assert (a + [e])[1..] == [];
      assert Passes(Happen(m, e), [], Happen(m, e));
    } else {
      assert (a + [e])[1..] == a[1..] + [e];
      PassesMore(Happen(w, a[0]), a[1..], m, e);
    }
  }

  /** The dispatcher at work, without a crash or an outside change. */
  predicate Calm(e: Happening) {
    e.Advance? || e.Answer? || e.Record?
  }

  ghost predicate CalmFrom(events: seq<Happening>, n: nat) {
    n <= |events| && forall k :: n <= k < |events| ==> Calm(events[k])
  }

  const Healthy := Faults(false, false, false)

  /** The venue holds no other batch under the identity. */
  ghost predicate Matching(venue: Venue, m: Manifest) {
    m.id in venue ==> venue[m.id].manifest == m
  }

  // ---- what an advance comes to -------------------------------------------

  /** Whether the batch is sent: at once if it never was, and otherwise only if the
      venue says that it holds no receipt. */
  ghost predicate Sends(venue: Venue, id: Id, first: bool, lookup: Faults) {
    first || (!lookup.unavailable && id !in venue)
  }

  /** The venue says nothing: it cannot be reached, or the answer is lost after the
      batch was applied. */
  ghost predicate Silent(venue: Venue, id: Id, first: bool, lookup: Faults, submit: Faults) {
    if Sends(venue, id, first, lookup)
    then submit.unavailable || (!submit.reject && id !in venue && submit.timeoutAfterApply)
    else lookup.unavailable
  }

  /** The last answer of the venue about a batch, and the receipts it holds then: it
      never replaces one, and an answer that carries a receipt carries the one held. */
  ghost predicate Said(venue: Venue, m: Manifest, first: bool, lookup: Faults, submit: Faults, said: Outcome, venue': Venue) {
    var sends := Sends(venue, m.id, first, lookup);
    var applies := sends && !submit.unavailable && !submit.reject && m.id !in venue;
    && venue' == (if applies then venue[m.id := Receipt(m)] else venue)
    && (said.NoAnswer? <==> Silent(venue, m.id, first, lookup, submit))
    && (said.Applied? || said.AlreadyApplied? ==>
          m.id in venue' && said.receipt == venue'[m.id] && said.receipt.manifest == m)
    && (said.Refused? <==> !said.NoAnswer? && ((sends && submit.reject) || (m.id in venue && venue[m.id].manifest != m)))
    && !said.NotFound?
  }

  /** How an open row ends: a receipt confirms it, a refusal fails it, and without an
      answer it stays unknown until the automatic attempts are used up. */
  ghost predicate Concluded(row: Row, said: Outcome, row': Row) {
    match said
    case Applied(r) => row' == row.(status := Confirmed, receipt := Some(r))
    case AlreadyApplied(r) => row' == row.(status := Confirmed, receipt := Some(r))
    case Refused => row' == row.(status := Failed)
    case _ =>
      row' == row.(attempts := row.attempts + 1,
                   status := if row.attempts + 1 < MAX_AUTO_ATTEMPTS then Unknown else NeedsOperator)
  }

  /** From one outbox to the other only this row changed, and it was concluded. */
  ghost predicate Closed(o: Outbox, o': Outbox, id: Id, said: Outcome) {
    && id in o.rows && id in o'.rows && Concluded(o.rows[id], said, o'.rows[id])
    && o' == o.(rows := o.rows[id := o'.rows[id]])
  }

  class SettlementDispatcher {
    const outbox: SettlementOutbox
    const venue: SimulatedVenue

    constructor (outbox: SettlementOutbox, venue: SimulatedVenue)
      ensures this.outbox == outbox && this.venue == venue
    {
      this.outbox, this.venue := outbox, venue;
    }

    ghost function In(phase: Phase): World
      reads outbox, venue
    {
      World(outbox.Abstract(), venue.applied, phase)
    }

    /** Handles one row; `faults` are what the venue suffers at the lookup and at the
        submission, and `said` is its last answer. */
    method Advance(row: Ticket, faults: (Faults, Faults), ghost w: World, ghost before: seq<Happening>, ghost todo: seq<Ticket>)
      returns (ghost events: seq<Happening>, ghost said: Outcome)
      requires row.id in outbox.rows
      requires Passes(w, before, In(Sweeping([row] + todo)))
      modifies outbox, venue
      ensures Passes(w, events, In(Sweeping(todo))) && before <= events && CalmFrom(events, |before|)
      ensures outbox.rows.Keys == old(outbox.rows.Keys)
      ensures old(Due(outbox.Abstract(), row) && Rebuilt(outbox.Abstract(), row.id)) ==>
        && Said(old(venue.applied), old(outbox.rows)[row.id].manifest, row.status.Waiting?, faults.0, faults.1, said, venue.applied)
        && Closed(old(outbox.Abstract()), outbox.Abstract(), row.id, said)
        && (faults == (Healthy, Healthy) && old(Matching(venue.applied, outbox.rows[row.id].manifest)) ==>
              ConfirmedAt(outbox.Abstract(), venue.applied, row.id))
    {
      hide Passes, Rebuilt, Said, Closed, ConfirmedAt, Matching, VenueLookup, VenueSubmit, Settlement.Transition;
      events, said := before, NoAnswer;
      ghost var o := outbox.Abstract();
      assert ([row] + todo)[1..] == todo;
      PassesMore(w, events, In(Sweeping([row] + todo)), Happening.Advance);
      events := events + [Happening.Advance];
      var manifest := outbox.ManifestFor(row.id);
      if manifest.None? {
        outbox.Transition(row.id, NeedsOperator, 0, None);
        Retitled(o, row.id, NeedsOperator);
        return;
      }
      var m := manifest.value;
      RebuiltId(o, row.id);
      var submit := row.status == Waiting;
      if !submit {
        var found := venue.Lookup(m, faults.0);
        PassesMore(w, events, In(Looking(row.id, todo)), Answer(faults.0));
        events := events + [Answer(faults.0)];
        LookupSaid(venue.applied, m, faults.0, faults.1);
        if found != NotFound {
          events := Store(row.id, found, w, events, todo);
          said := found;
          HealthyCloses(o, outbox.Abstract(), row.id, said, old(venue.applied), submit, faults, venue.applied);
          return;
        }
      }
      SubmitSaid(venue.applied, m, submit, faults.0, faults.1);
      assert Passes(w, events, World(RecordAttempt(o, row.id), venue.applied, Submitting(row.id, todo)));
      Retitled(o, row.id, Submitted);
      var outcome;
      events, outcome := Send(row.id, m, faults.1, w, events, todo);
      said := outcome;
      events := Store(row.id, outcome, w, events, todo);
      if Open(o.rows[row.id].status) {
        AttemptClosed(o, outbox.Abstract(), row.id, said);
      }
      HealthyCloses(o, outbox.Abstract(), row.id, said, old(venue.applied), submit, faults, venue.applied);
    }

    /** Records the attempt and sends the batch. */
    method Send(id: Id, m: Manifest, faults: Faults, ghost w: World, ghost before: seq<Happening>, ghost todo: seq<Ticket>)
      returns (ghost events: seq<Happening>, outcome: Outcome)
      requires id in outbox.rows && RecordAttempt(outbox.Abstract(), id).rows[id].manifest == m
      requires Passes(w, before, World(RecordAttempt(outbox.Abstract(), id), venue.applied, Submitting(id, todo)))
      modifies outbox, venue
      ensures outbox.Abstract() == RecordAttempt(old(outbox.Abstract()), id)
      ensures (venue.applied, outcome) == VenueSubmit(old(venue.applied), m, faults)
      ensures Passes(w, events, In(Recording(id, outcome, todo))) && before <= events && CalmFrom(events, |before|)
    {
      hide Passes, VenueSubmit;
      outbox.Transition(id, Submitted, 0, None);
      PassesMore(w, before, In(Submitting(id, todo)), Answer(faults));
      outcome := venue.Submit(m, faults);
      events := before + [Answer(faults)];
    }

    method Store(id: Id, outcome: Outcome, ghost w: World, ghost before: seq<Happening>, ghost todo: seq<Ticket>)
      returns (ghost events: seq<Happening>)
      requires id in outbox.rows && Passes(w, before, In(Recording(id, outcome, todo)))
      modifies outbox
      ensures Passes(w, events, In(Sweeping(todo))) && before <= events && CalmFrom(events, |before|)
      ensures outbox.rows.Keys == old(outbox.rows.Keys)
      ensures old(Open(outbox.rows[id].status)) ==> Closed(old(outbox.Abstract()), outbox.Abstract(), id, outcome)
    {
      hide Passes;
      PassesMore(w, before, In(Recording(id, outcome, todo)), Record);
      events := before + [Record];
      match outcome {
        case Applied(r) => outbox.Transition(id, Confirmed, 0, Some(r));
        case AlreadyApplied(r) => outbox.Transition(id, Confirmed, 0, Some(r));
        case NoAnswer => outbox.RecordUnknown(id);
        case NotFound => outbox.RecordUnknown(id);
        case Refused => outbox.Transition(id, Failed, 0, None);
      }
    }

    /** One whole tick: claims the least unclaimed trades as a batch, selects the
        rows that are due and advances each of them to the end. In any world the
        protocol reaches, each of these rows is concluded by what the venue said about
        it, no other row changes, and a healthy venue confirms them all. */
    method Tick(batchSize: nat, limit: nat, due: set<Id>, script: seq<(Faults, Faults)>)
      returns (ghost events: seq<Happening>, ghost said: seq<Outcome>)
      modifies outbox, venue
      ensures Passes(old(In(Resting)), events, In(Resting)) && CalmFrom(events, 1)
      ensures events[0].Tick? && events[0].limit == batchSize
        && Selected(Claim(old(outbox.Abstract()), events[0].claimed), due, limit, events[0].due)
      ensures old(WorldOk(In(Resting))) ==>
        && |said| == |events[0].due|
        && Progress(Claim(old(outbox.Abstract()), events[0].claimed), outbox.Abstract(), events[0].due, said)
        && (AllHealthy(script) ==> forall k :: 0 <= k < |said| ==> ConfirmedAt(outbox.Abstract(), venue.applied, events[0].due[k].id))
    {
      hide Passes, Least, Unclaimed, Claim, Selected, WorldOk, Said, Closed, Progress, AllHealthy;
      ghost var w := In(Resting);
      assert Passes(w, [], w) by { PassesNothing(w); }
      var list, conflict := outbox.CreateBatch(batchSize);
      var rows := outbox.Pending(due, limit);
      ghost var o := outbox.Abstract();
      PassesMore(w, [], w, Happening.Tick(list, batchSize, rows));
      events, said := [] + [Happening.Tick(list, batchSize, rows)], [];
      ghost var first := events[0];
      assert rows[0..] == rows;
      NoProgress(o, rows);
      for k := 0 to |rows|
        invariant Passes(w, events, In(Sweeping(rows[k..])))
        invariant CalmFrom(events, 1) && events[0] == first
        invariant forall i :: 0 <= i < |rows| ==> rows[i].id in outbox.rows
        invariant WorldOk(w) ==> |said| == k && Progress(o, outbox.Abstract(), rows, said)
        invariant WorldOk(w) && AllHealthy(script) ==> forall j :: 0 <= j < |said| ==> Receipted(said[j])
      {
        assert rows[k..] == [rows[k]] + rows[k + 1..];
        ghost var m := In(Sweeping(rows[k..]));
        if WorldOk(w) {
          PassesOk(w, events, m);
          NextIsDue(m);
        }
        var faults := if k < |script| then script[k] else (Healthy, Healthy);
        ghost var word;
        events, word := Advance(rows[k], faults, w, events, rows[k + 1..]);
        if WorldOk(w) {
          ProgressMore(o, m.outbox, outbox.Abstract(), rows, said, word);
          if AllHealthy(script) {
            HealthyAt(script, k);
            HealthySays(m.outbox.rows[rows[k].id].manifest, m.venue, rows[k].status.Waiting?, word, venue.applied);
          }
          said := said + [word];
        }
      }
      assert rows[|rows|..] == [];
      PassesMore(w, events, In(Sweeping([])), Happening.Advance);
      events := events + [Happening.Advance];
      if WorldOk(w) {
        PassesOk(w, events, In(Resting));
        if AllHealthy(script) {
          AllConfirmed(o, In(Resting), rows, said);
        }
      }
    }
  }

  // ---- the course of a tick -----------------------------------------------

  ghost predicate AllHealthy(script: seq<(Faults, Faults)>) {
    forall k :: 0 <= k < |script| ==> script[k] == (Healthy, Healthy)
  }

  ghost predicate Receipted(said: Outcome) {
    said.Applied? || said.AlreadyApplied?
  }

  /** The row is confirmed with the receipt the venue holds. */
  ghost predicate ConfirmedAt(o: Outbox, venue: Venue, id: Id) {
    id in o.rows && id in venue && o.rows[id].status.Confirmed? && o.rows[id].receipt == Some(venue[id])
  }

  /** The rows answered for so far are concluded and all others are as they were. */
  ghost predicate Progress(o: Outbox, o': Outbox, rows: seq<Ticket>, said: seq<Outcome>) {
    && |said| <= |rows| && o'.trades == o.trades && o'.rows.Keys == o.rows.Keys
    && (forall j :: 0 <= j < |said| ==> rows[j].id in o.rows && Concluded(o.rows[rows[j].id], said[j], o'.rows[rows[j].id]))
    && (forall id :: id in o.rows && !Listed(rows[..|said|], id) ==> o'.rows[id] == o.rows[id])
  }

  lemma NoProgress(o: Outbox, rows: seq<Ticket>)
    ensures Progress(o, o, rows, [])
  {
  }

  lemma ProgressMore(o: Outbox, m: Outbox, o': Outbox, rows: seq<Ticket>, said: seq<Outcome>, word: Outcome)
    requires Progress(o, m, rows, said) && |said| < |rows| && Closed(m, o', rows[|said|].id, word)
    requires forall i, j :: 0 <= i < j < |rows| ==> rows[i].id != rows[j].id
    ensures Progress(o, o', rows, said + [word])
  {
    hide Concluded;
    var k := |said|;
    assert rows[..k + 1] == rows[..k] + [rows[k]];
    ListedMore(rows[..k], rows[k]);
    assert !Listed(rows[..k], rows[k].id);
  }

  lemma {:induction false} PassesOk(w: World, events: seq<Happening>, w': World)
    requires WorldOk(w) && Passes(w, events, w')
    ensures WorldOk(w')
    decreases |events|
  {
    hide WorldOk, Happen, Enabled;
    if events != [] {
      HappenKeeps(w, events[0]);
      PassesOk(Happen(w, events[0]), events[1..], w');
    }
  }

  lemma NextIsDue(w: World)
    requires WorldOk(w) && w.phase.Sweeping? && w.phase.todo != []
    ensures var t := w.phase.todo[0];
      && Due(w.outbox, t) && Rebuilt(w.outbox, t.id)
      && Matching(w.venue, w.outbox.rows[t.id].manifest)
  {
    var t := w.phase.todo[0];
    assert Due(w.outbox, t) && RowOk(w.outbox, t.id);
    if t.id in w.venue { assert AppliedOk(w, t.id); }
  }

  lemma HealthyAt(script: seq<(Faults, Faults)>, k: nat)
    requires AllHealthy(script)
    ensures (if k < |script| then script[k] else (Healthy, Healthy)) == (Healthy, Healthy)
  {
  }

  lemma HealthySays(m: Manifest, venue: Venue, first: bool, said: Outcome, venue': Venue)
    requires Said(venue, m, first, Healthy, Healthy, said, venue')
    requires Matching(venue, m)
    ensures Receipted(said)
  {
  }

  /** A healthy venue's word confirms the row with the receipt the venue holds. */
  lemma HealthyCloses(o: Outbox, o': Outbox, id: Id, said: Outcome, venue: Venue, first: bool, faults: (Faults, Faults), venue': Venue)
    requires id in o.rows && o.rows[id].manifest.id == id
    ensures
      && Said(venue, o.rows[id].manifest, first, faults.0, faults.1, said, venue') && Closed(o, o', id, said)
      && faults == (Healthy, Healthy) && Matching(venue, o.rows[id].manifest)
      ==> ConfirmedAt(o', venue', id)
  {
  }

  lemma AllConfirmed(o: Outbox, w: World, rows: seq<Ticket>, said: seq<Outcome>)
    requires WorldOk(w) && Progress(o, w.outbox, rows, said) && forall j :: 0 <= j < |said| ==> Receipted(said[j])
    ensures forall k :: 0 <= k < |said| ==> ConfirmedAt(w.outbox, w.venue, rows[k].id)
  {
    forall k | 0 <= k < |said| ensures ConfirmedAt(w.outbox, w.venue, rows[k].id) {
      assert Receipted(said[k]) && ConfirmedOk(w, rows[k].id);
    }
  }

  lemma LookupSaid(venue: Venue, m: Manifest, lookup: Faults, submit: Faults)
    ensures var found := VenueLookup(venue, m, lookup);
      if found.NotFound? then Sends(venue, m.id, false, lookup) else Said(venue, m, false, lookup, submit, found, venue)
  {
  }

  lemma SubmitSaid(venue: Venue, m: Manifest, first: bool, lookup: Faults, submit: Faults)
    requires Sends(venue, m.id, first, lookup)
    ensures Said(venue, m, first, lookup, submit, VenueSubmit(venue, m, submit).1, VenueSubmit(venue, m, submit).0)
  {
  }

  /** A transition that is no outcome touches one row and keeps its manifest. */
  lemma Retitled(o: Outbox, id: Id, next: Status)
    requires id in o.rows
    ensures var o' := Transition(o, id, next, 0, None);
      && o'.rows.Keys == o.rows.Keys && o'.rows[id].manifest == o.rows[id].manifest
      && (Open(o.rows[id].status) ==> o' == o.(rows := o.rows[id := o.rows[id].(status := next)]))
  {
  }

  lemma AttemptClosed(o: Outbox, o': Outbox, id: Id, said: Outcome)
    requires id in o.rows && Open(o.rows[id].status) && Closed(RecordAttempt(o, id), o', id, said)
    ensures Closed(o, o', id, said)
  {
    Retitled(o, id, Submitted);
  }

  lemma RebuiltId(o: Outbox, id: Id)
    requires id in o.rows && Rebuilt(o, id)
    ensures o.rows[id].manifest.id == id
  {
  }

  lemma PassesNothing(w: World)
    ensures Passes(w, [], w)
  {
  }
}
