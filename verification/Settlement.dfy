/** Settlement: the outbox that claims trades into batches, the venue that
    applies a batch at most once, and the dispatcher between them, which may
    crash at any point where it waits. */
module Settlement {
  import opened Domain

  // ---- data ---------------------------------------------------------------

  /** Business identity of a settlement: its trade range. The venue and the run
      are fixed, and the digest over them is taken to be injective. */
  datatype Id = Id(first: nat, last: nat)

  /** A batch as the venue sees it; it stands for its own hash. The content of
      a trade is fixed by its id. */
  datatype Manifest = Manifest(id: Id, trades: seq<nat>)

  /** Receipts are a digest of identity and manifest. */
  datatype Receipt = Receipt(manifest: Manifest)

  datatype Status = Waiting | Submitted | Unknown | Confirmed | Failed | NeedsOperator

  const MAX_AUTO_ATTEMPTS: nat := 8

  datatype Row = Row(status: Status, manifest: Manifest, attempts: nat, receipt: Option<Receipt>)

  datatype Outbox = Outbox(trades: map<nat, Option<Id>>, rows: map<Id, Row>)

  // ---- claiming trades ----------------------------------------------------

  ghost predicate Ascending(s: seq<nat>) {
    forall i, j :: 0 <= i < j < |s| ==> s[i] < s[j]
  }

  /** The list holds, in ascending order, the least members of the set. */
  ghost predicate Least(list: seq<nat>, members: set<nat>, limit: nat) {
    && Ascending(list)
    && (forall k :: 0 <= k < |list| ==> list[k] in members)
    && (if |list| < limit then forall t :: t in members ==> t in list
        else |list| == limit && forall t :: t in members && t !in list ==> forall k :: 0 <= k < |list| ==> list[k] < t)
  }

  ghost function Unclaimed(o: Outbox): set<nat> {
    set t | t in o.trades && o.trades[t].None?
  }

  ghost function Claimed(o: Outbox, id: Id): set<nat> {
    set t | t in o.trades && o.trades[t] == Some(id)
  }

  function IdOf(list: seq<nat>): Id
    requires list != []
  {
    Id(list[0], list[|list| - 1])
  }

  function ClaimRange(trades: map<nat, Option<Id>>, id: Id): map<nat, Option<Id>> {
    map t | t in trades :: if trades[t].None? && id.first <= t <= id.last then Some(id) else trades[t]
  }

  /** Claims the listed trades as one settlement; a repeated identity with
      another manifest is a conflict and changes nothing. */
  function Claim(o: Outbox, list: seq<nat>): Outbox {
    if list == [] then o
    else
      var id := IdOf(list);
      var manifest := Manifest(id, list);
      if id in o.rows && o.rows[id].manifest != manifest then o
      else Outbox(ClaimRange(o.trades, id), if id in o.rows then o.rows else o.rows[id := Row(Waiting, manifest, 0, None)])
  }

  // ---- the status machine -------------------------------------------------

  function Transition(o: Outbox, id: Id, next: Status, increment: nat, receipt: Option<Receipt>): Outbox {
    if id !in o.rows then o
    else
      var row := o.rows[id];
      if row.status.Confirmed? || (row.status.Failed? && !next.Confirmed?) then o
      else o.(rows := o.rows[id := row.(status := next, attempts := row.attempts + increment,
                                        receipt := if receipt.Some? then receipt else row.receipt)])
  }

  function RecordAttempt(o: Outbox, id: Id): Outbox {
    Transition(o, id, Submitted, 0, None)
  }

  function RecordConfirmed(o: Outbox, id: Id, receipt: Receipt): Outbox {
    Transition(o, id, Confirmed, 0, Some(receipt))
  }

  function RecordUnknown(o: Outbox, id: Id): Outbox {
    if id !in o.rows || o.rows[id].status.Confirmed? || o.rows[id].status.Failed? then o
    else if o.rows[id].attempts + 1 >= MAX_AUTO_ATTEMPTS then Transition(o, id, NeedsOperator, 1, None)
    else Transition(o, id, Unknown, 1, None)
  }

  function RecordFailed(o: Outbox, id: Id): Outbox {
    Transition(o, id, Failed, 0, None)
  }

  /** Only a failed settlement may be released for new claims. */
  function ReleaseFailed(o: Outbox, id: Id): Outbox {
    if id in o.rows && o.rows[id].status.Failed? then
      Outbox(map t | t in o.trades :: if o.trades[t] == Some(id) then None else o.trades[t], o.rows - {id})
    else o
  }

  // ---- the venue ----------------------------------------------------------

  datatype Faults = Faults(unavailable: bool, timeoutAfterApply: bool, reject: bool)

  datatype Outcome = Applied(receipt: Receipt) | AlreadyApplied(receipt: Receipt) | NoAnswer | NotFound | Refused

  type Venue = map<Id, Receipt>

  function VenueSubmit(v: Venue, m: Manifest, f: Faults): (Venue, Outcome) {
    if f.unavailable then (v, NoAnswer)
    else if f.reject then (v, Refused)
    else if m.id in v then (v, if v[m.id].manifest != m then Refused else AlreadyApplied(v[m.id]))
    else
      var applied: Venue := v[m.id := Receipt(m)];
      (applied, if f.timeoutAfterApply then NoAnswer else Applied(Receipt(m)))
  }

  function VenueLookup(v: Venue, m: Manifest, f: Faults): Outcome {
    if f.unavailable then NoAnswer
    else if m.id !in v then NotFound
    else if v[m.id].manifest != m then Refused
    else AlreadyApplied(v[m.id])
  }

  // ---- the dispatcher, one wait at a time ---------------------------------

  /** A row as the tick read it. */
  datatype Ticket = Ticket(id: Id, status: Status)

  /** Where the single dispatcher stands between two waits. */
  datatype Phase =
    | Resting
    | Sweeping(todo: seq<Ticket>)
    | Looking(id: Id, todo: seq<Ticket>)
    | Submitting(id: Id, todo: seq<Ticket>)
    | Recording(id: Id, outcome: Outcome, todo: seq<Ticket>)

  datatype World = World(outbox: Outbox, venue: Venue, phase: Phase)

  /** What can happen next. Which rows are due, and the venue's faults, are
      left open; a crash forgets the phase and nothing else. */
  datatype Happening =
    | NewTrade(trade: nat)
    | Tick(claimed: seq<nat>, limit: nat, due: seq<Ticket>)
    | Advance
    | Answer(faults: Faults)
    | Record
    | Crash
    | Release(id: Id)

  predicate Open(status: Status) {
    status.Waiting? || status.Submitted? || status.Unknown?
  }

  /** The ticket still says what the row says, and the row is open. */
  predicate Due(o: Outbox, t: Ticket) {
    t.id in o.rows && o.rows[t.id].status == t.status && Open(t.status)
  }

  ghost predicate AllDue(o: Outbox, todo: seq<Ticket>) {
    && (forall k :: 0 <= k < |todo| ==> Due(o, todo[k]))
    && (forall i, j :: 0 <= i < j < |todo| ==> todo[i].id != todo[j].id)
  }

  ghost predicate Enabled(w: World, e: Happening) {
    match e
    case NewTrade(t) => t !in w.outbox.trades
    case Tick(claimed, limit, due) =>
      && w.phase.Resting? && Least(claimed, Unclaimed(w.outbox), limit)
      && AllDue(Claim(w.outbox, claimed), due)
    case Advance => w.phase.Sweeping?
    case Answer(_) => w.phase.Looking? || w.phase.Submitting?
    case Record => w.phase.Recording?
    case Crash => true
    case Release(_) => true
  }

  /** The manifest rebuilt from the claimed trades, or a conflict. */
  ghost predicate Rebuilt(o: Outbox, id: Id) {
    && id in o.rows
    && Ascending(o.rows[id].manifest.trades)
    && o.rows[id].manifest.id == id
    && (forall t :: t in Claimed(o, id) <==> t in o.rows[id].manifest.trades)
  }

  function StoreOutcome(o: Outbox, id: Id, outcome: Outcome): Outbox {
    match outcome
    case Applied(r) => RecordConfirmed(o, id, r)
    case AlreadyApplied(r) => RecordConfirmed(o, id, r)
    case NoAnswer => RecordUnknown(o, id)
    case NotFound => RecordUnknown(o, id)
    case Refused => RecordFailed(o, id)
  }

  ghost function Happen(w: World, e: Happening): World
    requires Enabled(w, e)
  {
    match e
    case NewTrade(t) => w.(outbox := w.outbox.(trades := w.outbox.trades[t := None]))
    case Tick(claimed, _, due) => w.(outbox := Claim(w.outbox, claimed), phase := Sweeping(due))
    case Advance =>
      if w.phase.todo == [] then w.(phase := Resting)
      else
        var id, status, todo := w.phase.todo[0].id, w.phase.todo[0].status, w.phase.todo[1..];
        if id !in w.outbox.rows then w.(phase := Resting)
        else if !Rebuilt(w.outbox, id) then
          w.(outbox := Transition(w.outbox, id, NeedsOperator, 0, None), phase := Sweeping(todo))
        else if status.Waiting? then
          w.(outbox := RecordAttempt(w.outbox, id), phase := Submitting(id, todo))
        else w.(phase := Looking(id, todo))
    case Answer(faults) =>
      var id, todo := w.phase.id, w.phase.todo;
      if id !in w.outbox.rows then w.(phase := Resting)
      else
        var m := w.outbox.rows[id].manifest;
        if w.phase.Looking? then
          var outcome := VenueLookup(w.venue, m, faults);
          if outcome.NotFound? then w.(outbox := RecordAttempt(w.outbox, id), phase := Submitting(id, todo))
          else w.(phase := Recording(id, outcome, todo))
        else
          var (venue, outcome) := VenueSubmit(w.venue, m, faults);
          w.(venue := venue, phase := Recording(id, outcome, todo))
    case Record =>
      w.(outbox := StoreOutcome(w.outbox, w.phase.id, w.phase.outcome), phase := Sweeping(w.phase.todo))
    case Crash => w.(phase := Resting)
    case Release(id) => w.(outbox := ReleaseFailed(w.outbox, id))
  }

  // ---- what the outbox keeps ----------------------------------------------

  ghost predicate RowOk(o: Outbox, id: Id)
    requires id in o.rows
  {
    var row := o.rows[id];
    && row.manifest.trades != [] && row.manifest == Manifest(IdOf(row.manifest.trades), row.manifest.trades)
    && Rebuilt(o, id)
    && row.attempts <= (if Open(row.status) then MAX_AUTO_ATTEMPTS - 1 else MAX_AUTO_ATTEMPTS)
    && (row.receipt.Some? <==> row.status.Confirmed?)
  }

  ghost predicate TradeOk(o: Outbox, t: nat)
    requires t in o.trades
  {
    o.trades[t].Some? ==> o.trades[t].value in o.rows
  }

  ghost predicate OutboxOk(o: Outbox) {
    && (forall id :: id in o.rows ==> RowOk(o, id))
    && (forall t :: t in o.trades ==> TradeOk(o, t))
  }

  lemma FirstClaimed(o: Outbox, id: Id)
    requires OutboxOk(o) && id in o.rows
    ensures id.first in Claimed(o, id)
  {
    assert RowOk(o, id);
    assert o.rows[id].manifest.trades[0] == id.first;
  }

  lemma NoneClaimed(o: Outbox, id: Id)
    requires OutboxOk(o) && id !in o.rows
    ensures Claimed(o, id) == {}
  {
    assert forall t :: t in o.trades ==> TradeOk(o, t);
  }

  /** An unclaimed trade starts no existing settlement, so a new batch never
      meets a row under its identity. */
  lemma NewIdentity(o: Outbox, list: seq<nat>, limit: nat)
    requires OutboxOk(o) && list != [] && Least(list, Unclaimed(o), limit)
    ensures IdOf(list) !in o.rows
  {
    hide OutboxOk;
    assert list[0] in Unclaimed(o);
    if IdOf(list) in o.rows {
      FirstClaimed(o, IdOf(list));
    }
  }

  /** The unclaimed trades of the range are exactly the listed ones. */
  lemma RangeIsList(o: Outbox, list: seq<nat>, limit: nat, t: nat)
    requires list != [] && Least(list, Unclaimed(o), limit)
    ensures t in Unclaimed(o) && list[0] <= t <= list[|list| - 1] <==> t in list
  {
    if t in list {
      var k :| 0 <= k < |list| && list[k] == t;
      assert k == 0 || list[0] < list[k];
      assert k == |list| - 1 || list[k] < list[|list| - 1];
    } else if t in Unclaimed(o) && |list| >= limit {
      assert list[|list| - 1] < t;
    }
  }

  lemma ClaimKeeps(o: Outbox, list: seq<nat>, limit: nat)
    requires OutboxOk(o) && Least(list, Unclaimed(o), limit)
    ensures OutboxOk(Claim(o, list))
    ensures forall id :: id in o.rows ==> id in Claim(o, list).rows && Claim(o, list).rows[id] == o.rows[id]
    ensures list != [] ==> IdOf(list) !in o.rows && Claim(o, list).rows[IdOf(list)] == Row(Waiting, Manifest(IdOf(list), list), 0, None)
    ensures forall id :: id in Claim(o, list).rows ==> id in o.rows || (list != [] && id == IdOf(list))
  {
    hide Least;
    if list != [] {
      NewIdentity(o, list, limit);
      var id := IdOf(list);
      var c := Claim(o, list);
      forall t ensures t in Claimed(c, id) <==> t in list {
        RangeIsList(o, list, limit, t);
        NoneClaimed(o, id);
      }
      forall x | x in c.rows ensures RowOk(c, x) {
        if x == id {
          LeastAscends(list, Unclaimed(o), limit);
        } else {
          assert RowOk(o, x);
          forall t ensures t in Claimed(c, x) <==> t in Claimed(o, x) {
          }
        }
      }
      forall t | t in c.trades ensures TradeOk(c, t) {
        assert TradeOk(o, t);
      }
    }
  }

  lemma LeastAscends(list: seq<nat>, members: set<nat>, limit: nat)
    requires Least(list, members, limit)
    ensures Ascending(list)
  {
  }

  /** A change of status keeps the outbox in order. */
  lemma StatusKeeps(o: Outbox, id: Id, row: Row)
    requires OutboxOk(o) && id in o.rows && row.manifest == o.rows[id].manifest
    requires row.attempts <= if Open(row.status) then MAX_AUTO_ATTEMPTS - 1 else MAX_AUTO_ATTEMPTS
    requires row.receipt.Some? <==> row.status.Confirmed?
    ensures OutboxOk(o.(rows := o.rows[id := row]))
  {
    var c := o.(rows := o.rows[id := row]);
    forall x | x in c.rows ensures RowOk(c, x) {
      assert RowOk(o, x);
      forall t ensures t in Claimed(c, x) <==> t in Claimed(o, x) {
      }
    }
    forall t | t in c.trades ensures TradeOk(c, t) {
      assert TradeOk(o, t);
    }
  }

  lemma ReleaseKeeps(o: Outbox, id: Id)
    requires OutboxOk(o)
    ensures OutboxOk(ReleaseFailed(o, id))
  {
    if id in o.rows && o.rows[id].status.Failed? {
      var c := ReleaseFailed(o, id);
      forall x | x in c.rows ensures RowOk(c, x) {
        assert RowOk(o, x);
        forall t ensures t in Claimed(c, x) <==> t in Claimed(o, x) {
        }
      }
      forall t | t in c.trades ensures TradeOk(c, t) {
        assert TradeOk(o, t);
      }
    }
  }

  lemma NewTradeKeeps(o: Outbox, t: nat)
    requires OutboxOk(o) && t !in o.trades
    ensures OutboxOk(o.(trades := o.trades[t := None]))
  {
    var c := o.(trades := o.trades[t := None]);
    forall x | x in c.rows ensures RowOk(c, x) {
      assert RowOk(o, x);
      forall y ensures y in Claimed(c, x) <==> y in Claimed(o, x) {
      }
    }
    forall y | y in c.trades ensures TradeOk(c, y) {
      if y != t { assert TradeOk(o, y); }
    }
  }

  // ---- what the world keeps -----------------------------------------------

  /** Whatever the venue applied is a submitted, unresolved or confirmed row
      with the same manifest. */
  ghost predicate AppliedOk(w: World, id: Id)
    requires id in w.venue
  {
    && id in w.outbox.rows && w.venue[id] == Receipt(w.outbox.rows[id].manifest)
    && !w.outbox.rows[id].status.Waiting? && !w.outbox.rows[id].status.Failed?
  }

  ghost predicate ConfirmedOk(w: World, id: Id)
    requires id in w.outbox.rows
  {
    w.outbox.rows[id].status.Confirmed? ==> id in w.venue && w.outbox.rows[id].receipt == Some(w.venue[id])
  }

  ghost predicate PhaseOk(w: World) {
    match w.phase
    case Resting => true
    case Sweeping(todo) => AllDue(w.outbox, todo)
    case Looking(id, todo) => Handling(w, id, todo)
    case Submitting(id, todo) => Handling(w, id, todo) && w.outbox.rows[id].status.Submitted? && id !in w.venue
    case Recording(id, outcome, todo) =>
      && Handling(w, id, todo) && !w.outbox.rows[id].status.Waiting?
      && match outcome {
           case Applied(r) => id in w.venue && w.venue[id] == r
           case AlreadyApplied(r) => id in w.venue && w.venue[id] == r
           case NoAnswer => true
           case NotFound => true
           case Refused => id !in w.venue
         }
  }

  /** The row in hand is open and not among the tickets left. */
  ghost predicate Handling(w: World, id: Id, todo: seq<Ticket>) {
    && AllDue(w.outbox, todo)
    && id in w.outbox.rows && Open(w.outbox.rows[id].status)
    && (w.phase.Looking? ==> !w.outbox.rows[id].status.Waiting?)
    && forall k :: 0 <= k < |todo| ==> todo[k].id != id
  }

  ghost predicate WorldOk(w: World) {
    && OutboxOk(w.outbox)
    && (forall id :: id in w.venue ==> AppliedOk(w, id))
    && (forall id :: id in w.outbox.rows ==> ConfirmedOk(w, id))
    && PhaseOk(w)
  }

  lemma AllDueTail(o: Outbox, todo: seq<Ticket>)
    requires AllDue(o, todo) && todo != []
    ensures AllDue(o, todo[1..])
    ensures forall k :: 0 <= k < |todo[1..]| ==> todo[1..][k].id != todo[0].id
  {
    forall k | 0 <= k < |todo[1..]| ensures Due(o, todo[1..][k]) && todo[1..][k].id != todo[0].id {
      assert todo[1..][k] == todo[k + 1];
    }
  }

  /** Tickets stay due when another row changes. */
  lemma AllDueKept(o: Outbox, o': Outbox, todo: seq<Ticket>)
    requires AllDue(o, todo)
    requires forall k :: 0 <= k < |todo| ==> todo[k].id in o'.rows && o'.rows[todo[k].id] == o.rows[todo[k].id]
    ensures AllDue(o', todo)
  {
    forall k | 0 <= k < |todo| ensures Due(o', todo[k]) {
      assert Due(o, todo[k]);
    }
  }

  /** One row changes its status, attempts or receipt. */
  ghost predicate RowChange(w: World, w': World, id: Id, row: Row) {
    && id in w.outbox.rows && row.manifest == w.outbox.rows[id].manifest
    && w'.outbox == w.outbox.(rows := w.outbox.rows[id := row]) && w'.venue == w.venue
    && row.attempts <= (if Open(row.status) then MAX_AUTO_ATTEMPTS - 1 else MAX_AUTO_ATTEMPTS)
    && (row.receipt.Some? <==> row.status.Confirmed?)
    && (row.status.Waiting? || row.status.Failed? ==> id !in w.venue)
    && (row.status.Confirmed? ==> id in w.venue && row.receipt == Some(w.venue[id]))
  }

  lemma RowChangeKeeps(w: World, w': World, id: Id, row: Row)
    requires WorldOk(w) && RowChange(w, w', id, row) && PhaseOk(w')
    ensures WorldOk(w')
  {
    hide OutboxOk, PhaseOk;
    StatusKeeps(w.outbox, id, row);
    forall x | x in w'.venue ensures AppliedOk(w', x) {
      assert AppliedOk(w, x);
    }
    forall x | x in w'.outbox.rows ensures ConfirmedOk(w', x) {
      assert ConfirmedOk(w, x);
    }
  }

  lemma TickKeeps(w: World, e: Happening)
    requires WorldOk(w) && e.Tick? && Enabled(w, e)
    ensures WorldOk(Happen(w, e))
  {
    hide OutboxOk, Claim, Least;
    ClaimKeeps(w.outbox, e.claimed, e.limit);
    var w' := Happen(w, e);
    forall x | x in w'.venue ensures AppliedOk(w', x) {
      assert AppliedOk(w, x);
    }
    forall x | x in w'.outbox.rows ensures ConfirmedOk(w', x) {
      if x in w.outbox.rows { assert ConfirmedOk(w, x); }
    }
  }

  lemma AdvanceKeeps(w: World)
    requires WorldOk(w) && w.phase.Sweeping?
    ensures WorldOk(Happen(w, Advance))
  {
    hide OutboxOk;
    var w' := Happen(w, Advance);
    var todo := w.phase.todo;
    if todo == [] {
      PhaseChange(w, w');
    } else {
      var id := todo[0].id;
      assert Due(w.outbox, todo[0]);
      RowIntact(w.outbox, id);
      AllDueTail(w.outbox, todo);
      if todo[0].status.Waiting? {
        var row := w.outbox.rows[id].(status := Submitted);
        AllDueKept(w.outbox, w'.outbox, todo[1..]);
        WaitingUnapplied(w, id);
        RowChangeKeeps(w, w', id, row);
      } else {
        PhaseChange(w, w');
      }
    }
  }

  lemma WaitingUnapplied(w: World, id: Id)
    requires WorldOk(w) && id in w.outbox.rows && (w.outbox.rows[id].status.Waiting? || w.outbox.rows[id].status.Failed?)
    ensures id !in w.venue
  {
    hide OutboxOk, PhaseOk;
    assert id in w.venue ==> AppliedOk(w, id);
  }

  lemma RowIntact(o: Outbox, id: Id)
    requires OutboxOk(o) && id in o.rows
    ensures RowOk(o, id)
  {
  }

  /** Only the phase changed. */
  lemma PhaseChange(w: World, w': World)
    requires WorldOk(w) && w' == w.(phase := w'.phase) && PhaseOk(w')
    ensures WorldOk(w')
  {
    hide OutboxOk, PhaseOk;
    forall x | x in w'.venue ensures AppliedOk(w', x) {
      assert AppliedOk(w, x);
    }
    forall x | x in w'.outbox.rows ensures ConfirmedOk(w', x) {
      assert ConfirmedOk(w, x);
    }
  }

  lemma LookedUp(w: World, faults: Faults)
    requires WorldOk(w) && w.phase.Looking?
    ensures WorldOk(Happen(w, Answer(faults)))
  {
    hide OutboxOk;
    var w', id, todo := Happen(w, Answer(faults)), w.phase.id, w.phase.todo;
    RowIntact(w.outbox, id);
    if id in w.venue { assert AppliedOk(w, id); }
    if VenueLookup(w.venue, w.outbox.rows[id].manifest, faults).NotFound? {
      AllDueKept(w.outbox, w'.outbox, todo);
      RowChangeKeeps(w, w', id, w.outbox.rows[id].(status := Submitted));
    } else {
      PhaseChange(w, w');
    }
  }

  lemma SubmitAnswered(w: World, faults: Faults)
    requires WorldOk(w) && w.phase.Submitting?
    ensures WorldOk(Happen(w, Answer(faults)))
  {
    hide OutboxOk;
    var w', id := Happen(w, Answer(faults)), w.phase.id;
    RowIntact(w.outbox, id);
    forall x | x in w'.venue ensures AppliedOk(w', x) {
      if x != id { assert AppliedOk(w, x); }
    }
    forall x | x in w'.outbox.rows ensures ConfirmedOk(w', x) {
      assert ConfirmedOk(w, x);
    }
  }

  lemma RecordKeeps(w: World)
    requires WorldOk(w) && w.phase.Recording?
    ensures WorldOk(Happen(w, Record))
  {
    hide OutboxOk;
    var w', id, todo := Happen(w, Record), w.phase.id, w.phase.todo;
    RowIntact(w.outbox, id);
    AllDueKept(w.outbox, w'.outbox, todo);
    RowChangeKeeps(w, w', id, w'.outbox.rows[id]);
  }

  lemma ReleaseFine(w: World, id: Id)
    requires WorldOk(w)
    ensures WorldOk(Happen(w, Release(id)))
  {
    hide OutboxOk;
    var w' := Happen(w, Release(id));
    ReleaseKeeps(w.outbox, id);
    forall x | x in w'.venue ensures AppliedOk(w', x) {
      assert AppliedOk(w, x);
    }
    forall x | x in w'.outbox.rows ensures ConfirmedOk(w', x) {
      assert ConfirmedOk(w, x);
    }
    if id in w.outbox.rows && w.outbox.rows[id].status.Failed? {
      ReleaseTickets(w, id);
    }
  }

  /** No ticket and no row in hand is failed. */
  lemma ReleaseTickets(w: World, id: Id)
    requires PhaseOk(w) && id in w.outbox.rows && w.outbox.rows[id].status.Failed?
    ensures PhaseOk(w.(outbox := ReleaseFailed(w.outbox, id)))
  {
    if !w.phase.Resting? {
      var todo := w.phase.todo;
      forall k | 0 <= k < |todo| ensures todo[k].id != id {
        assert Due(w.outbox, todo[k]);
      }
      AllDueKept(w.outbox, ReleaseFailed(w.outbox, id), todo);
    }
  }

  lemma NewTradeFine(w: World, t: nat)
    requires WorldOk(w) && t !in w.outbox.trades
    ensures WorldOk(Happen(w, NewTrade(t)))
  {
    hide OutboxOk;
    var w' := Happen(w, NewTrade(t));
    NewTradeKeeps(w.outbox, t);
    forall x | x in w'.venue ensures AppliedOk(w', x) {
      assert AppliedOk(w, x);
    }
    forall x | x in w'.outbox.rows ensures ConfirmedOk(w', x) {
      assert ConfirmedOk(w, x);
    }
    if !w.phase.Resting? {
      AllDueKept(w.outbox, w'.outbox, w.phase.todo);
    }
  }

  /** Every event, a crash included, keeps the world in order. */
  lemma HappenKeeps(w: World, e: Happening)
    requires WorldOk(w) && Enabled(w, e)
    ensures WorldOk(Happen(w, e))
  {
    hide WorldOk, Happen;
    match e {
      case NewTrade(t) => NewTradeFine(w, t);
      case Tick(_, _, _) => TickKeeps(w, e);
      case Advance => AdvanceKeeps(w);
      case Answer(faults) =>
        if w.phase.Looking? {
          LookedUp(w, faults);
        } else {
          SubmitAnswered(w, faults);
        }
      case Record => RecordKeeps(w);
      case Crash => CrashKeeps(w);
      case Release(id) => ReleaseFine(w, id);
    }
  }

  lemma CrashKeeps(w: World)
    requires WorldOk(w)
    ensures WorldOk(Happen(w, Crash))
  {
    hide OutboxOk;
    PhaseChange(w, Happen(w, Crash));
  }

  // ---- whole runs ---------------------------------------------------------

  const Start := World(Outbox(map[], map[]), map[], Resting)

  /** The worlds a sequence of events passes through. */
  ghost predicate Path(worlds: seq<World>, events: seq<Happening>) {
    && |worlds| == |events| + 1 && worlds[0] == Start
    && forall k :: 0 <= k < |events| ==> Follows(worlds[k], events[k], worlds[k + 1])
  }

  ghost predicate Follows(w: World, e: Happening, w': World) {
    Enabled(w, e) && w' == Happen(w, e)
  }

  lemma {:induction false} PathOk(worlds: seq<World>, events: seq<Happening>, k: nat)
    requires Path(worlds, events) && k < |worlds|
    ensures WorldOk(worlds[k])
  {
    hide WorldOk, Happen, Enabled;
    if k == 0 {
      StartOk();
    } else {
      PathOk(worlds, events, k - 1);
      assert Follows(worlds[k - 1], events[k - 1], worlds[k - 1 + 1]);
      HappenKeeps(worlds[k - 1], events[k - 1]);
    }
  }

  lemma StartOk()
    ensures WorldOk(Start)
  {
  }

  /** A trade belongs to at most one settlement the venue applied, however
      often the dispatcher crashed or lost an answer. */
  lemma EachTradeSettlesOnce(worlds: seq<World>, events: seq<Happening>, k: nat, a: Id, b: Id, t: nat)
    requires Path(worlds, events) && k < |worlds|
    requires a in worlds[k].venue && b in worlds[k].venue
    requires t in worlds[k].venue[a].manifest.trades && t in worlds[k].venue[b].manifest.trades
    ensures a == b
  {
    hide Path, PhaseOk;
    PathOk(worlds, events, k);
    var w := worlds[k];
    assert AppliedOk(w, a) && AppliedOk(w, b);
    assert RowOk(w.outbox, a) && RowOk(w.outbox, b);
    assert t in Claimed(w.outbox, a) && t in Claimed(w.outbox, b);
  }

  /** A waiting or failed settlement has no receipt at the venue, a confirmed
      one has, and no settlement exceeds the automatic attempts. */
  lemma StatusesTellTheTruth(worlds: seq<World>, events: seq<Happening>, k: nat, id: Id)
    requires Path(worlds, events) && k < |worlds| && id in worlds[k].outbox.rows
    ensures var row, venue := worlds[k].outbox.rows[id], worlds[k].venue;
      && (row.status.Waiting? || row.status.Failed? ==> id !in venue)
      && (row.status.Confirmed? ==> id in venue && row.receipt == Some(venue[id]) && venue[id].manifest == row.manifest)
      && row.attempts <= MAX_AUTO_ATTEMPTS
  {
    hide Path, PhaseOk;
    PathOk(worlds, events, k);
    var w := worlds[k];
    assert id in w.venue ==> AppliedOk(w, id);
    assert RowOk(w.outbox, id) && ConfirmedOk(w, id);
  }

  /** No batch ever meets an existing row, and every manifest can be rebuilt
      from the claimed trades: the conflict branches are never taken. */
  lemma NoManifestConflict(worlds: seq<World>, events: seq<Happening>, k: nat)
    requires Path(worlds, events) && k < |worlds|
    ensures forall id :: id in worlds[k].outbox.rows ==> Rebuilt(worlds[k].outbox, id)
    ensures forall list: seq<nat>, limit: nat ::
      list != [] && Least(list, Unclaimed(worlds[k].outbox), limit) ==> IdOf(list) !in worlds[k].outbox.rows
  {
    hide Path, PhaseOk, Least;
    PathOk(worlds, events, k);
    var o := worlds[k].outbox;
    forall id | id in o.rows ensures Rebuilt(o, id) {
      assert RowOk(o, id);
    }
    forall list: seq<nat>, limit: nat | list != [] && Least(list, Unclaimed(o), limit) ensures IdOf(list) !in o.rows {
      NewIdentity(o, list, limit);
    }
  }

  /** What the venue applied stays applied, its row stays, and its trades stay
      claimed by it; a confirmed row never changes again. */
  ghost predicate Settled(w: World, w': World, id: Id) {
    && (id in w.venue ==> id in w'.venue && w'.venue[id] == w.venue[id])
    && (id in w.outbox.rows && w.outbox.rows[id].status.Confirmed? ==>
          id in w'.outbox.rows && w'.outbox.rows[id] == w.outbox.rows[id])
  }

  lemma HappenSettles(w: World, e: Happening, id: Id)
    requires WorldOk(w) && Enabled(w, e)
    ensures Settled(w, Happen(w, e), id)
  {
    hide OutboxOk, Least;
    match e {
      case Tick(claimed, limit, _) => ClaimKeeps(w.outbox, claimed, limit);
      case Advance =>
        if w.phase.todo != [] { assert Due(w.outbox, w.phase.todo[0]); }
      case _ =>
    }
  }

  lemma {:induction false} ConfirmedIsFinal(worlds: seq<World>, events: seq<Happening>, i: nat, j: nat, id: Id)
    requires Path(worlds, events) && i <= j < |worlds|
    ensures Settled(worlds[i], worlds[j], id)
    decreases j
  {
    hide WorldOk, Happen, Enabled;
    if i < j {
      ConfirmedIsFinal(worlds, events, i, j - 1, id);
      PathOk(worlds, events, j - 1);
      assert Follows(worlds[j - 1], events[j - 1], worlds[j - 1 + 1]);
      HappenSettles(worlds[j - 1], events[j - 1], id);
    }
  }

  /** Once a settlement is applied, its trades are never claimed by another. */
  lemma AppliedTradesStayClaimed(worlds: seq<World>, events: seq<Happening>, i: nat, j: nat, id: Id, t: nat)
    requires Path(worlds, events) && i <= j < |worlds|
    requires id in worlds[i].venue && t in worlds[i].venue[id].manifest.trades
    ensures t in worlds[j].outbox.trades && worlds[j].outbox.trades[t] == Some(id)
  {
    hide Path, PhaseOk;
    ConfirmedIsFinal(worlds, events, i, j, id);
    PathOk(worlds, events, j);
    var w := worlds[j];
    assert AppliedOk(w, id);
    assert RowOk(w.outbox, id);
    assert t in Claimed(w.outbox, id);
  }
}
