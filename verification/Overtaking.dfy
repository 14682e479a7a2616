/** A schedule in which an order trades although the latch was read as engaged
    for it: a release was queued as a command. */
module Overtaking {
  import opened Domain
  import opened PriceTime
  import opened Ledger
  import opened Core
  import opened Outputs
  import opened Pipelines
  import opened Scenario
  import Market

  /** Some schedule leads from the beginning to this state. */
  ghost predicate Reaches(setup: Setup, p: Pipe) {
    exists states, actions :: LeadsTo(setup, states, actions, p)
  }

  ghost predicate LeadsTo(setup: Setup, states: seq<Pipe>, actions: seq<Action>, p: Pipe) {
    Schedule(states, actions) && states[0] == Begin(setup) && states[|actions|] == p
  }

  lemma Starts(setup: Setup)
    ensures Reaches(setup, Begin(setup))
  {
    var states, actions: seq<Action> := [Begin(setup)], [];
    assert LeadsTo(setup, states, actions, Begin(setup));
  }

  lemma Prolonged(setup: Setup, states: seq<Pipe>, actions: seq<Action>, p: Pipe, a: Action)
    requires LeadsTo(setup, states, actions, p) && Enabled(p, a)
    ensures LeadsTo(setup, states + [Next(p, a)], actions + [a], Next(p, a))
  {
    hide Enabled, Next;
    var more, acts := states + [Next(p, a)], actions + [a];
    forall k | 0 <= k < |acts| ensures Follows(more[k], acts[k], more[k + 1]) {
      if k < |actions| {
        assert Follows(states[k], actions[k], states[k + 1]);
      }
    }
  }

  lemma Extend(setup: Setup, p: Pipe, a: Action)
    requires Reaches(setup, p) && Enabled(p, a)
    ensures Reaches(setup, Next(p, a))
  {
    hide LeadsTo, Enabled, Next;
    var states, actions :| LeadsTo(setup, states, actions, p);
    Prolonged(setup, states, actions, p, a);
  }

  /** Sends and records everything the engine has to send. */
  lemma {:induction false} Flush(setup: Setup, p: Pipe) returns (q: Pipe)
    requires Reaches(setup, p) && p.outputs == [] && p.recorder.Recording? && !p.phase.Stopped?
    requires p.setup.outputCapacity > 0
    ensures Reaches(setup, q) && q == p.(batch := [], taken := q.taken, journal := q.journal)
    decreases |p.batch|
  {
    hide Reaches;
    if p.batch == [] {
      q := p;
    } else {
      Extend(setup, p, EngineSends);
      var p1 := Next(p, EngineSends);
      Extend(setup, p1, OutputRecords);
      var p2 := Next(p1, OutputRecords);
      assert p2.outputs == [];
      q := Flush(setup, p2);
    }
  }

  /** Everything is quiet after the first k inputs. */
  ghost predicate Quiet(setup: Setup, p: Pipe, k: nat) {
    && Reaches(setup, p) && p.setup == setup && p.produced == k && !p.feedDone && p.inputs == [] && p.phase == Waiting
    && p.batch == [] && p.outputs == [] && p.recorder.Recording? && !p.outputFailed
    && !p.latch && p.commands == [] && !p.core.kill
    && setup.inputCapacity > 0 && setup.outputCapacity > 0
  }

  /** The next input is taken in hand and found worth checking the latch for. */
  lemma TakeInHand(setup: Setup, p: Pipe, k: nat) returns (q: Pipe)
    requires Quiet(setup, p, k) && k < |setup.feed|
    ensures Reaches(setup, q) && q == p.(produced := k + 1, phase := Checked(setup.feed[k]))
  {
    hide Reaches;
    Extend(setup, p, FeedSends);
    var p1 := Next(p, FeedSends);
    Extend(setup, p1, EngineReceives);
    var p2 := Next(p1, EngineReceives);
    assert p2.inputs == [];
    Extend(setup, p2, EngineChecks);
    q := Next(p2, EngineChecks);
  }

  /** One undisturbed input. */
  lemma Round(setup: Setup, p: Pipe, k: nat) returns (q: Pipe, input: Input)
    requires Quiet(setup, p, k) && k < |setup.feed|
    ensures input.event == setup.feed[k].event && q.core == Step(p.core, input).state
    ensures !q.core.kill ==> Quiet(setup, q, k + 1)
  {
    hide Reaches, Step;
    var p1 := TakeInHand(setup, p, k);
    Extend(setup, p1, EngineReadsLatch);
    var p2 := Next(p1, EngineReadsLatch);
    Extend(setup, p2, EngineDrains);
    var p3 := Next(p2, EngineDrains);
    q := Flush(setup, p3);
    input := Input((|p.captured| + 1) % (U64_MAX + 1), setup.feed[k].recvTimeNs, setup.feed[k].event);
  }

  // ---- the run ------------------------------------------------------------

  function Feed5(): seq<Input> {
    [Input(0, 0, Says(SnapshotBegin(1))), Input(0, 0, Says(SnapshotEnd(1, 0))),
     Input(0, 0, Says(MarketTrade(Buy, SALE_PRICE, 1))), Input(0, 0, OrderInput(Sale())),
     Input(0, 0, OrderInput(Purchase()))]
  }

  function Purchase(): Request {
    LimitOrderOf(2, 1, Buy, SALE_PRICE, 1)
  }

  function Tight(): Setup {
    Setup(Feed5(), Morning(), 1, 1)
  }

  /** The market opens and a sale rests. */
  lemma OpenAndSell() returns (p: Pipe, o: Order)
    ensures Quiet(Tight(), p, 4) && Offers(p.core, SALE_PRICE, 5, o)
  {
    hide Reaches, Step, Market.Apply, Trading, Morning, Offers;
    var setup := Tight();
    Starts(setup);
    Opened();
    var p0 := Begin(setup);
    var p1, i1 := Round(setup, p0, 0);
    MarketStep(p0.core, 0, SnapshotBegin(1), i1);
    var p2, i2 := Round(setup, p1, 1);
    MarketStep(p1.core, 1, SnapshotEnd(1, 0), i2);
    var p3, i3 := Round(setup, p2, 2);
    MarketStep(p2.core, 2, MarketTrade(Buy, SALE_PRICE, 1), i3);
    ViewOpens(SALE_PRICE, i1.recvTimeNs, i2.recvTimeNs, i3.recvTimeNs);
    forall a: nat | a < 3 ensures Untouched(p3.core, a) {
      assert Untouched(p0.core, a);
    }
    var i4;
    p, i4 := Round(setup, p3, 3);
    o := SaleRests(p3.core, 3, i4);
    OffersRuns(p.core, SALE_PRICE, 5, o);
  }

  lemma OffersRuns(s: State, price: i64, n: nat, o: Order)
    requires Offers(s, price, n, o)
    ensures s.fault.None? && !s.kill && s.engineSeq <= n < 100
  {
  }

  /** Nothing waits to be sent or recorded. */
  ghost predicate Idle(setup: Setup, p: Pipe) {
    && Reaches(setup, p) && p.setup == setup && p.batch == [] && p.outputs == [] && p.recorder.Recording?
    && p.commands == [] && setup.outputCapacity > 0
  }

  /** The operator engages the latch just before the engine reads it. */
  lemma ReadEngaged(setup: Setup, p: Pipe) returns (q: Pipe, on: Input)
    requires Idle(setup, p) && p.phase.Checked? && !p.core.kill
    ensures Idle(setup, q) && q.phase == Draining(p.phase.input, true, [])
    ensures on.event == ControlInput(SetGlobalKill(true)) && q.core == Step(p.core, on).state
  {
    hide Reaches, Step;
    Extend(setup, p, LatchSet(true));
    var p1 := Next(p, LatchSet(true));
    Extend(setup, p1, EngineReadsLatch);
    on := Input((|p.captured| + 1) % (U64_MAX + 1), p.core.time, ControlInput(SetGlobalKill(true)));
    q := Flush(setup, Next(p1, EngineReadsLatch));
  }

  /** The operator queues a release and the engine drains it. */
  lemma DrainRelease(setup: Setup, p: Pipe) returns (q: Pipe, off: Input)
    requires Idle(setup, p) && p.phase.Draining? && p.phase.drained == []
    ensures Idle(setup, q) && q.phase == Draining(p.phase.input, p.phase.latch, [SetGlobalKill(false)])
    ensures off.event == ControlInput(SetGlobalKill(false)) && q.core == Step(p.core, off).state
  {
    hide Reaches, Step;
    Extend(setup, p, CommandQueued(SetGlobalKill(false)));
    var p1 := Next(p, CommandQueued(SetGlobalKill(false)));
    Extend(setup, p1, EngineDrains);
    off := Input((|p.captured| + 1) % (U64_MAX + 1), p.core.time, ControlInput(SetGlobalKill(false)));
    q := Flush(setup, Next(p1, EngineDrains));
  }

  /** The purchase is in hand, the latch was read as engaged, and the release that
      was queued has been drained. */
  lemma Released() returns (p: Pipe, o: Order)
    ensures Idle(Tight(), p) && p.phase == Draining(Feed5()[4], true, [SetGlobalKill(false)])
    ensures Offers(p.core, SALE_PRICE, 7, o)
  {
    hide Reaches, Step, Offers, Tight, Feed5;
    FiveInputs();
    var p0;
    p0, o := OpenAndSell();
    var p1 := TakeInHand(Tight(), p0, 4);
    var p2, on := ReadEngaged(Tight(), p1);
    var off;
    p, off := DrainRelease(Tight(), p2);
    KillPasses(p0.core, SALE_PRICE, 5, o, on, off);
  }

  lemma FiveInputs()
    ensures |Tight().feed| == 5 && Tight().feed == Feed5() && Tight().outputCapacity > 0
  {
  }

  /** In this schedule the latch is read as engaged for the purchase, and when the
      purchase is applied it trades. */
  lemma KillCanBeOvertaken() returns (setup: Setup, states: seq<Pipe>, actions: seq<Action>, k: nat)
    ensures Schedule(states, actions) && states[0] == Begin(setup) && setup.start == Morning() && k < |actions|
    ensures actions[k].EngineDrains? && states[k].commands == []
    ensures states[k].phase.Draining? && states[k].phase.latch && states[k].phase.input.event.OrderInput?
    ensures TradesOf(states[k + 1].batch) != []
  {
    hide Step, Offers, TradesOf, Schedule, Enabled;
    setup := Tight();
    var p, o := Released();
    var before, acts :| LeadsTo(setup, before, acts, p);
    assert Enabled(p, EngineDrains) by { CanDrain(p); }
    Prolonged(setup, before, acts, p, EngineDrains);
    states, actions, k := before + [Next(p, EngineDrains)], acts + [EngineDrains], |acts|;
    Scheduled(before, acts);
    PurchaseDrained(p, o);
  }

  lemma CanDrain(p: Pipe)
    requires p.batch == [] && p.phase.Draining?
    ensures Enabled(p, EngineDrains)
  {
  }

  lemma Scheduled(states: seq<Pipe>, actions: seq<Action>)
    requires Schedule(states, actions)
    ensures |states| == |actions| + 1
  {
  }

  lemma PurchaseDrained(p: Pipe, o: Order)
    requires p.batch == [] && p.commands == [] && Offers(p.core, SALE_PRICE, 7, o)
    requires p.phase == Draining(Feed5()[4], true, [SetGlobalKill(false)])
    ensures TradesOf(Next(p, EngineDrains).batch) != []
  {
    hide ApplyRequest, TradesOf, BookAt, Trading;
    var s1 := p.core.(engineSeq := p.core.engineSeq + 1, time := p.phase.input.recvTimeNs);
    assert Untouched(p.core, 1);
    PurchaseTrades(s1, SALE_PRICE, 8, o, Purchase());
  }
}
