/** The three-thread pipeline as interleaved steps: feed, engine and output
    over bounded queues, with an operator at the kill latch and the command
    queue. */
module Pipelines {
  import opened Domain
  import opened Core
  import opened Outputs
  import opened Runs
  import opened Halts

  /** Who supplied an input: the feed, the kill latch or the operator's queue. */
  datatype Source = FromFeed | FromLatch | FromOperator

  datatype Applied = Applied(input: Input, source: Source)

  /** Where the engine thread stands once its batch has been sent; while it drains
      the command queue, the latch as it read it and the commands drained since. */
  datatype Phase =
    | Waiting
    | Holding(input: Input)
    | Checked(input: Input)
    | Draining(input: Input, latch: bool, drained: seq<Command>)
    | Stopped(lost: bool)

  /** The output thread: recording, broken by a journal error, or finished. */
  datatype Recorder = Recording | Broken | Closed

  /** What does not change during a run. */
  datatype Setup = Setup(feed: seq<Input>, start: State, inputCapacity: nat, outputCapacity: nat)

  datatype Pipe = Pipe(
    setup: Setup,
    produced: nat,
    feedDone: bool,
    inputs: seq<Input>,
    phase: Phase,
    captured: seq<Applied>,
    core: State,
    batch: seq<Output>,
    outputs: seq<Output>,
    taken: seq<Output>,
    journal: seq<Output>,
    recorder: Recorder,
    outputFailed: bool,
    latch: bool,
    commands: seq<Command>,
    shutdown: bool)

  datatype Action =
    | FeedSends
    | FeedStops
    | LatchSet(engaged: bool)
    | CommandQueued(command: Command)
    | ShutdownRequested
    | EngineReceives
    | EngineEnds
    | EngineChecks
    | EngineReadsLatch
    | EngineDrains
    | EngineSends
    | EngineGivesUp
    | OutputRecords
    | OutputBreaks(kept: bool)
    | OutputFlushFails
    | OutputRaisesFlag
    | OutputCloses

  ghost predicate Enabled(p: Pipe, a: Action) {
    match a
    case FeedSends => !p.feedDone && p.produced < |p.setup.feed| && |p.inputs| < p.setup.inputCapacity
    case FeedStops =>
      !p.feedDone && (p.produced == |p.setup.feed| || p.shutdown || (p.phase.Stopped? && |p.inputs| >= p.setup.inputCapacity))
    case LatchSet(_) => true
    case CommandQueued(_) => true
    case ShutdownRequested => true
    case EngineReceives => p.batch == [] && p.phase.Waiting? && p.inputs != []
    case EngineEnds => p.batch == [] && p.phase.Waiting? && p.inputs == [] && p.feedDone
    case EngineChecks => p.batch == [] && p.phase.Holding?
    case EngineReadsLatch => p.batch == [] && p.phase.Checked?
    case EngineDrains => p.batch == [] && p.phase.Draining?
    case EngineSends => p.batch != [] && !p.phase.Stopped? && |p.outputs| < p.setup.outputCapacity
    case EngineGivesUp => p.batch != [] && !p.phase.Stopped? && |p.outputs| >= p.setup.outputCapacity && !p.recorder.Recording?
    case OutputRecords => p.recorder.Recording? && p.outputs != []
    case OutputBreaks(_) => p.recorder.Recording? && p.outputs != []
    case OutputFlushFails => p.recorder.Recording?
    case OutputRaisesFlag => p.recorder.Broken? && !p.outputFailed
    case OutputCloses => p.recorder.Recording? && p.outputs == [] && p.phase.Stopped?
  }

  /** The engine stamps, captures and applies one input; its events wait to be
      sent. Control commands take the engine clock. */
  ghost function ApplyOne(p: Pipe, event: Domain.Event, time: u64, source: Source, next: Phase): Pipe {
    var input := Input((|p.captured| + 1) % (U64_MAX + 1), time, event);
    var e := Step(p.core, input);
    p.(captured := p.captured + [Applied(input, source)], core := e.state, batch := e.out, phase := next)
  }

  function Drained(p: Pipe): Phase
    requires p.phase.Draining? && p.commands != []
  {
    p.phase.(drained := p.phase.drained + [p.commands[0]])
  }

  ghost function Next(p: Pipe, a: Action): Pipe
    requires Enabled(p, a)
  {
    match a
    case FeedSends => p.(inputs := p.inputs + [p.setup.feed[p.produced]], produced := p.produced + 1)
    case FeedStops => p.(feedDone := true)
    case LatchSet(engaged) => p.(latch := engaged)
    case CommandQueued(c) => p.(commands := p.commands + [c])
    case ShutdownRequested => p.(shutdown := true)
    case EngineReceives => p.(phase := Holding(p.inputs[0]), inputs := p.inputs[1..])
    case EngineEnds => p.(phase := Stopped(false))
    case EngineChecks =>
      if p.outputFailed then p.(phase := Stopped(true), shutdown := true) else p.(phase := Checked(p.phase.input))
    case EngineReadsLatch =>
      var next := Draining(p.phase.input, p.latch, []);
      if p.latch != p.core.kill then ApplyOne(p, ControlInput(SetGlobalKill(p.latch)), p.core.time, FromLatch, next)
      else p.(phase := next)
    case EngineDrains =>
      if p.commands != [] then
        ApplyOne(p.(commands := p.commands[1..]), ControlInput(p.commands[0]), p.core.time, FromOperator, Drained(p))
      else ApplyOne(p, p.phase.input.event, p.phase.input.recvTimeNs, FromFeed, Waiting)
    case EngineSends => p.(outputs := p.outputs + [p.batch[0]], batch := p.batch[1..])
    case EngineGivesUp => p.(phase := Stopped(true), shutdown := true)
    case OutputRecords =>
      p.(taken := p.taken + [p.outputs[0]], journal := p.journal + [p.outputs[0]], outputs := p.outputs[1..])
    case OutputBreaks(kept) =>
      p.(taken := p.taken + [p.outputs[0]], journal := if kept then p.journal + [p.outputs[0]] else p.journal,
         outputs := p.outputs[1..], recorder := Broken)
    case OutputFlushFails => p.(recorder := Broken)
    case OutputRaisesFlag => p.(outputFailed := true)
    case OutputCloses => p.(recorder := Closed)
  }

  ghost function Begin(setup: Setup): Pipe {
    Pipe(setup, 0, false, [], Waiting, [], setup.start, [], [], [], [], Recording, false, false, [], false)
  }

  // ---- what every interleaving keeps --------------------------------------

  function InputsOf(captured: seq<Applied>): (r: seq<Input>)
    ensures |r| == |captured| && forall k :: 0 <= k < |r| ==> r[k] == captured[k].input
  {
    seq(|captured|, k requires 0 <= k < |captured| => captured[k].input)
  }

  /** An input without its stamp. */
  datatype Bare = Bare(time: u64, event: Domain.Event)

  function Unstamped(input: Input): Bare {
    Bare(input.recvTimeNs, input.event)
  }

  function FedOf(captured: seq<Applied>): seq<Bare>
    decreases |captured|
  {
    if captured == [] then []
    else
      var last := captured[|captured| - 1];
      FedOf(captured[..|captured| - 1]) + if last.source.FromFeed? then [Unstamped(last.input)] else []
  }

  function Unstamp(inputs: seq<Input>): (r: seq<Bare>)
    ensures |r| == |inputs| && forall k :: 0 <= k < |r| ==> r[k] == Unstamped(inputs[k])
  {
    seq(|inputs|, k requires 0 <= k < |inputs| => Unstamped(inputs[k]))
  }

  function InHand(phase: Phase): seq<Input> {
    match phase
    case Holding(input) => [input]
    case Checked(input) => [input]
    case Draining(input, _, _) => [input]
    case _ => []
  }

  /** Recorded, queued and unsent events are the replay of the captured inputs. */
  ghost predicate Replays(p: Pipe) {
    Emitted(p.core, p.taken + p.outputs + p.batch) == Run(p.setup.start, InputsOf(p.captured))
  }

  /** Captured inputs without the engine's own, then the one in hand, then the
      queued ones, are what the feed produced so far. */
  ghost predicate Feeds(p: Pipe) {
    p.produced <= |p.setup.feed| &&
      (p.phase == Stopped(true)
       || FedOf(p.captured) + Unstamp(InHand(p.phase)) + Unstamp(p.inputs) == Unstamp(p.setup.feed[..p.produced]))
  }

  ghost predicate FeedPrefix(p: Pipe) {
    FedOf(p.captured) <= Unstamp(p.setup.feed)
  }

  /** The journal holds what was taken, except perhaps the event it broke on. */
  ghost predicate Journals(p: Pipe) {
    && p.journal <= p.taken
    && (!p.recorder.Broken? ==> p.journal == p.taken)
    && (p.recorder.Closed? ==> p.outputs == [] && p.phase.Stopped?)
    && (p.phase == Stopped(false) ==> p.batch == [] && p.inputs == [] && p.feedDone)
    && (p.feedDone ==> p.produced == |p.setup.feed| || p.shutdown)
    && (p.phase == Stopped(true) ==> p.shutdown)
  }

  ghost predicate Bounded(p: Pipe) {
    |p.inputs| <= p.setup.inputCapacity && |p.outputs| <= p.setup.outputCapacity
  }

  ghost predicate PipeOk(p: Pipe) {
    Replays(p) && Feeds(p) && FeedPrefix(p) && Journals(p) && Bounded(p)
  }

  lemma RunMore(start: State, captured: seq<Applied>, a: Applied)
    ensures var before := Run(start, InputsOf(captured));
      var last := Step(before.state, a.input);
      Run(start, InputsOf(captured + [a])) == Emitted(last.state, before.out + last.out)
  {
    hide Step;
    var more := InputsOf(captured + [a]);
    assert more[..|captured|] == InputsOf(captured);
  }

  lemma AppliedReplays(p: Pipe, event: Domain.Event, time: u64, source: Source, next: Phase)
    requires Replays(p) && p.batch == []
    ensures Replays(ApplyOne(p, event, time, source, next))
  {
    hide Step, Run;
    var input := Input((|p.captured| + 1) % (U64_MAX + 1), time, event);
    RunMore(p.setup.start, p.captured, Applied(input, source));
    assert p.taken + p.outputs + p.batch == p.taken + p.outputs;
  }

  lemma DrainReplays(p: Pipe)
    requires Replays(p) && Enabled(p, EngineDrains)
    ensures Replays(Next(p, EngineDrains))
  {
    hide Run, ApplyOne;
    if p.commands != [] {
      AppliedReplays(p.(commands := p.commands[1..]), ControlInput(p.commands[0]), p.core.time, FromOperator, Drained(p));
    } else {
      AppliedReplays(p, p.phase.input.event, p.phase.input.recvTimeNs, FromFeed, Waiting);
    }
  }

  lemma LatchReplays(p: Pipe)
    requires Replays(p) && Enabled(p, EngineReadsLatch)
    ensures Replays(Next(p, EngineReadsLatch))
  {
    hide Run, ApplyOne;
    if p.latch != p.core.kill {
      AppliedReplays(p, ControlInput(SetGlobalKill(p.latch)), p.core.time, FromLatch, Draining(p.phase.input, p.latch, []));
    }
  }

  /** Events that only move along stay the same events. */
  lemma MovedReplays(p: Pipe, q: Pipe)
    requires Replays(p) && q.setup == p.setup && q.core == p.core && q.captured == p.captured
    requires q.taken + q.outputs + q.batch == p.taken + p.outputs + p.batch
    ensures Replays(q)
  {
    hide Run;
  }

  lemma Shifted(a: seq<Output>, b: seq<Output>, c: seq<Output>)
    ensures c != [] ==> a + (b + [c[0]]) + c[1..] == a + b + c
    ensures b != [] ==> a + [b[0]] + b[1..] + c == a + b + c
  {
  }

  lemma StepReplays(p: Pipe, a: Action)
    requires Replays(p) && Enabled(p, a)
    ensures Replays(Next(p, a))
  {
    hide Replays, ApplyOne;
    var q := Next(p, a);
    Shifted(p.taken, p.outputs, p.batch);
    match a {
      case EngineReadsLatch => LatchReplays(p);
      case EngineDrains => DrainReplays(p);
      case FeedSends => MovedReplays(p, q);
      case FeedStops => MovedReplays(p, q);
      case LatchSet(_) => MovedReplays(p, q);
      case CommandQueued(_) => MovedReplays(p, q);
      case ShutdownRequested => MovedReplays(p, q);
      case EngineReceives => MovedReplays(p, q);
      case EngineEnds => MovedReplays(p, q);
      case EngineChecks => MovedReplays(p, q);
      case EngineSends => MovedReplays(p, q);
      case EngineGivesUp => MovedReplays(p, q);
      case OutputRecords => MovedReplays(p, q);
      case OutputBreaks(_) => MovedReplays(p, q);
      case OutputFlushFails => MovedReplays(p, q);
      case OutputRaisesFlag => MovedReplays(p, q);
      case OutputCloses => MovedReplays(p, q);
    }
  }

  lemma FedMore(captured: seq<Applied>, a: Applied)
    ensures FedOf(captured + [a]) == FedOf(captured) + if a.source.FromFeed? then [Unstamped(a.input)] else []
  {
    assert (captured + [a])[..|captured|] == captured;
  }

  lemma ApplyOneFields(p: Pipe, event: Domain.Event, time: u64, source: Source, next: Phase)
    ensures var q := ApplyOne(p, event, time, source, next);
      && q == p.(captured := q.captured, core := q.core, batch := q.batch, phase := next)
      && |q.captured| == |p.captured| + 1 && q.captured[..|p.captured|] == p.captured
      && q.captured[|p.captured|].source == source && Unstamped(q.captured[|p.captured|].input) == Bare(time, event)
  {
    hide Step;
  }

  /** Nothing the feed's account depends on changed, or the engine stopped. */
  lemma FeedsSame(p: Pipe, q: Pipe)
    requires Feeds(p) && FeedPrefix(p)
    requires q.setup == p.setup && q.produced == p.produced && q.captured == p.captured
    requires q.phase == Stopped(true) || (q.phase == p.phase && q.inputs == p.inputs)
      || (InHand(q.phase) == InHand(p.phase) && q.inputs == p.inputs && !p.phase.Stopped?)
    ensures Feeds(q) && FeedPrefix(q)
  {
    hide FedOf;
  }

  lemma Longer(done: seq<Bare>, inputs: seq<Input>, feed: seq<Input>, n: nat)
    requires n < |feed| && done + Unstamp(inputs) == Unstamp(feed[..n])
    ensures done + Unstamp(inputs + [feed[n]]) == Unstamp(feed[..n + 1])
  {
    assert feed[..n + 1] == feed[..n] + [feed[n]];
    assert Unstamp(feed[..n + 1]) == Unstamp(feed[..n]) + [Unstamped(feed[n])];
    assert Unstamp(inputs + [feed[n]]) == Unstamp(inputs) + [Unstamped(feed[n])];
  }

  lemma SendFeeds(p: Pipe)
    requires Feeds(p) && FeedPrefix(p) && Enabled(p, FeedSends)
    ensures Feeds(Next(p, FeedSends)) && FeedPrefix(Next(p, FeedSends))
  {
    hide FedOf, Unstamp;
    if p.phase != Stopped(true) {
      Longer(FedOf(p.captured) + Unstamp(InHand(p.phase)), p.inputs, p.setup.feed, p.produced);
    }
  }

  lemma Rejoin(done: seq<Bare>, inputs: seq<Input>)
    requires inputs != []
    ensures done + Unstamp([inputs[0]]) + Unstamp(inputs[1..]) == done + Unstamp([]) + Unstamp(inputs)
  {
    assert Unstamp(inputs) == [Unstamped(inputs[0])] + Unstamp(inputs[1..]);
  }

  lemma ReceiveFeeds(p: Pipe)
    requires Feeds(p) && FeedPrefix(p) && Enabled(p, EngineReceives)
    ensures Feeds(Next(p, EngineReceives)) && FeedPrefix(Next(p, EngineReceives))
  {
    hide FedOf, Unstamp;
    Rejoin(FedOf(p.captured), p.inputs);
  }

  lemma DrainFeeds(p: Pipe)
    requires Feeds(p) && FeedPrefix(p) && Enabled(p, EngineDrains)
    ensures Feeds(Next(p, EngineDrains)) && FeedPrefix(Next(p, EngineDrains))
  {
    hide FedOf, Feeds, FeedPrefix, ApplyOne;
    var q := Next(p, EngineDrains);
    if p.commands != [] {
      ApplyOneFields(p.(commands := p.commands[1..]), ControlInput(p.commands[0]), p.core.time, FromOperator, Drained(p));
      FedSame(p, q);
    } else {
      ApplyOneFields(p, p.phase.input.event, p.phase.input.recvTimeNs, FromFeed, Waiting);
      assert q.captured == p.captured + [q.captured[|p.captured|]];
      FedMore(p.captured, q.captured[|p.captured|]);
      FedHead(p, q);
    }
  }

  lemma LatchFeeds(p: Pipe)
    requires Feeds(p) && FeedPrefix(p) && Enabled(p, EngineReadsLatch)
    ensures Feeds(Next(p, EngineReadsLatch)) && FeedPrefix(Next(p, EngineReadsLatch))
  {
    hide FedOf, Feeds, FeedPrefix, ApplyOne;
    ApplyOneFields(p, ControlInput(SetGlobalKill(p.latch)), p.core.time, FromLatch, Draining(p.phase.input, p.latch, []));
    FedSame(p, Next(p, EngineReadsLatch));
  }

  lemma StepFeeds(p: Pipe, a: Action)
    requires Feeds(p) && FeedPrefix(p) && Enabled(p, a)
    ensures Feeds(Next(p, a)) && FeedPrefix(Next(p, a))
  {
    hide FedOf, Feeds, FeedPrefix, ApplyOne;
    var q := Next(p, a);
    match a {
      case FeedSends => SendFeeds(p);
      case EngineReceives => ReceiveFeeds(p);
      case EngineReadsLatch => LatchFeeds(p);
      case EngineDrains => DrainFeeds(p);
      case FeedStops => FeedsSame(p, q);
      case LatchSet(_) => FeedsSame(p, q);
      case CommandQueued(_) => FeedsSame(p, q);
      case ShutdownRequested => FeedsSame(p, q);
      case EngineEnds => FeedsSame(p, q);
      case EngineChecks => FeedsSame(p, q);
      case EngineSends => FeedsSame(p, q);
      case EngineGivesUp => FeedsSame(p, q);
      case OutputRecords => FeedsSame(p, q);
      case OutputBreaks(_) => FeedsSame(p, q);
      case OutputFlushFails => FeedsSame(p, q);
      case OutputRaisesFlag => FeedsSame(p, q);
      case OutputCloses => FeedsSame(p, q);
    }
  }

  lemma FedSame(p: Pipe, q: Pipe)
    requires (p.phase.Checked? || p.phase.Draining?) && q.phase.Draining? && q.phase.input == p.phase.input
    requires Feeds(p) && FeedPrefix(p)
    requires q.produced == p.produced && q.setup == p.setup && q.inputs == p.inputs
    requires q.captured == p.captured || (|q.captured| == |p.captured| + 1 && q.captured[..|p.captured|] == p.captured && !q.captured[|p.captured|].source.FromFeed?)
    ensures Feeds(q) && FeedPrefix(q)
  {
    hide FedOf;
    if q.captured != p.captured {
      assert q.captured == p.captured + [q.captured[|p.captured|]];
      FedMore(p.captured, q.captured[|p.captured|]);
      assert FedOf(p.captured) + [] == FedOf(p.captured);
    }
    assert InHand(q.phase) == InHand(p.phase);
  }

  /** The input in hand moves to the captured ones. */
  lemma FedHead(p: Pipe, q: Pipe)
    requires p.phase.Draining? && q.phase.Waiting? && Feeds(p)
    requires q.produced == p.produced && q.setup == p.setup && q.inputs == p.inputs
    requires FedOf(q.captured) == FedOf(p.captured) + [Unstamped(p.phase.input)]
    ensures Feeds(q) && FeedPrefix(q)
  {
    hide FedOf;
    var head := [Unstamped(p.phase.input)];
    assert Unstamp(InHand(p.phase)) == head;
    assert Unstamp(InHand(q.phase)) == [];
    assert FedOf(p.captured) + head + [] + Unstamp(p.inputs) == FedOf(p.captured) + head + Unstamp(p.inputs);
    assert Unstamp(p.setup.feed[..p.produced]) == Unstamp(p.setup.feed)[..p.produced];
  }

  ghost predicate ByEngine(a: Action) {
    a.EngineReceives? || a.EngineEnds? || a.EngineChecks? || a.EngineReadsLatch? || a.EngineDrains? || a.EngineSends? || a.EngineGivesUp?
  }

  lemma ApplyingJournals(p: Pipe, event: Domain.Event, time: u64, source: Source, next: Phase)
    requires Journals(p) && Bounded(p) && !p.phase.Stopped? && !next.Stopped?
    ensures Journals(ApplyOne(p, event, time, source, next)) && Bounded(ApplyOne(p, event, time, source, next))
  {
    hide ApplyOne;
    ApplyOneFields(p, event, time, source, next);
  }

  lemma DrainJournals(p: Pipe)
    requires Journals(p) && Bounded(p) && Enabled(p, EngineDrains)
    ensures Journals(Next(p, EngineDrains)) && Bounded(Next(p, EngineDrains))
  {
    hide ApplyOne;
    if p.commands != [] {
      ApplyingJournals(p.(commands := p.commands[1..]), ControlInput(p.commands[0]), p.core.time, FromOperator, Drained(p));
    } else {
      ApplyingJournals(p, p.phase.input.event, p.phase.input.recvTimeNs, FromFeed, Waiting);
    }
  }

  lemma EngineJournals(p: Pipe, a: Action)
    requires Journals(p) && Bounded(p) && Enabled(p, a) && ByEngine(a)
    ensures Journals(Next(p, a)) && Bounded(Next(p, a))
  {
    hide ApplyOne;
    match a {
      case EngineReadsLatch =>
        ApplyingJournals(p, ControlInput(SetGlobalKill(p.latch)), p.core.time, FromLatch, Draining(p.phase.input, p.latch, []));
      case EngineDrains => DrainJournals(p);
      case EngineReceives =>
      case EngineEnds =>
      case EngineChecks =>
      case EngineSends =>
      case EngineGivesUp =>
    }
  }

  lemma StepJournals(p: Pipe, a: Action)
    requires Journals(p) && Bounded(p) && Enabled(p, a)
    ensures Journals(Next(p, a)) && Bounded(Next(p, a))
  {
    hide ApplyOne;
    if ByEngine(a) {
      EngineJournals(p, a);
    }
  }

  /** Every step of every thread keeps the pipeline's promises. */
  lemma StepKeeps(p: Pipe, a: Action)
    requires PipeOk(p) && Enabled(p, a)
    ensures PipeOk(Next(p, a))
  {
    hide Replays, Feeds, FeedPrefix, Journals, Bounded, Next;
    StepReplays(p, a);
    StepFeeds(p, a);
    StepJournals(p, a);
  }

  // ---- whole runs ---------------------------------------------------------

  /** The states a schedule of steps passes through. */
  ghost predicate Schedule(states: seq<Pipe>, actions: seq<Action>) {
    && |states| == |actions| + 1
    && forall k :: 0 <= k < |actions| ==> Follows(states[k], actions[k], states[k + 1])
  }

  ghost predicate Follows(p: Pipe, a: Action, q: Pipe) {
    Enabled(p, a) && q == Next(p, a)
  }

  lemma BeginOk(setup: Setup)
    ensures PipeOk(Begin(setup))
  {
    hide Step;
    var p := Begin(setup);
    assert InputsOf([]) == [];
    assert setup.feed[..0] == [] && Unstamp(setup.feed[..0]) == [];
    assert [] + [] + [] == p.taken + p.outputs + p.batch;
  }

  lemma AppliesSetup(p: Pipe, a: Action)
    requires Enabled(p, a) && (a.EngineReadsLatch? || a.EngineDrains?)
    ensures var q := Next(p, a); q.setup == p.setup && q.shutdown == p.shutdown && !q.phase.Stopped?
  {
    hide ApplyOne;
    if a.EngineReadsLatch? {
      ApplyOneFields(p, ControlInput(SetGlobalKill(p.latch)), p.core.time, FromLatch, Draining(p.phase.input, p.latch, []));
    } else if p.commands != [] {
      ApplyOneFields(p.(commands := p.commands[1..]), ControlInput(p.commands[0]), p.core.time, FromOperator, Drained(p));
    } else {
      ApplyOneFields(p, p.phase.input.event, p.phase.input.recvTimeNs, FromFeed, Waiting);
    }
  }

  lemma StepSetup(p: Pipe, a: Action)
    requires Enabled(p, a)
    ensures Next(p, a).setup == p.setup
  {
    hide ApplyOne;
    if a.EngineReadsLatch? || a.EngineDrains? {
      AppliesSetup(p, a);
    }
  }

  lemma {:induction false} ScheduleOk(states: seq<Pipe>, actions: seq<Action>, k: nat)
    requires Schedule(states, actions) && PipeOk(states[0]) && k < |states|
    ensures PipeOk(states[k]) && states[k].setup == states[0].setup
  {
    hide PipeOk, Next, Enabled;
    if k > 0 {
      ScheduleOk(states, actions, k - 1);
      assert Follows(states[k - 1], actions[k - 1], states[k - 1 + 1]);
      StepKeeps(states[k - 1], actions[k - 1]);
      StepSetup(states[k - 1], actions[k - 1]);
    }
  }

  /** In every interleaving, at every moment: what was taken from the output
      queue, then what is queued, then what is still to be sent, is the
      single-threaded replay of the captured inputs; those inputs without the
      engine's own are a prefix of the feed; the journal is a prefix of the
      replay, and while the output side is alive it is everything taken. */
  lemma PipelineIsReplay(states: seq<Pipe>, actions: seq<Action>, k: nat, setup: Setup)
    requires Schedule(states, actions) && k < |states| && states[0] == Begin(setup)
    ensures var p := states[k];
      var replay := Run(setup.start, InputsOf(p.captured));
      && p.core == replay.state
      && p.journal <= replay.out
      && (!p.recorder.Broken? ==> p.journal + p.outputs + p.batch == replay.out)
      && FedOf(p.captured) <= Unstamp(setup.feed)
      && |p.inputs| <= setup.inputCapacity && |p.outputs| <= setup.outputCapacity
  {
    hide Schedule, Run, FedOf;
    BeginOk(setup);
    ScheduleOk(states, actions, k);
    PrefixOfAll(states[k]);
  }

  lemma PrefixOfAll(p: Pipe)
    requires p.journal <= p.taken
    ensures p.journal <= p.taken + p.outputs + p.batch
  {
  }

  /** All threads joined without an error. */
  ghost predicate Succeeded(p: Pipe) {
    p.feedDone && p.phase == Stopped(false) && p.recorder.Closed?
  }

  /** The operator asked for a shutdown before the k-th state. */
  ghost predicate AskedToStop(actions: seq<Action>, k: nat) {
    exists j :: 0 <= j < k && j < |actions| && actions[j].ShutdownRequested?
  }

  lemma {:induction false} OnlyOperatorsStop(states: seq<Pipe>, actions: seq<Action>, k: nat)
    requires Schedule(states, actions) && k < |states| && !states[0].shutdown && !AskedToStop(actions, k)
    ensures states[k].shutdown ==> states[k].phase == Stopped(true)
  {
    hide Enabled, Next;
    if k > 0 {
      assert !AskedToStop(actions, k - 1);
      OnlyOperatorsStop(states, actions, k - 1);
      assert Follows(states[k - 1], actions[k - 1], states[k - 1 + 1]);
      StaysStopped(states[k - 1], actions[k - 1]);
    }
  }

  lemma StaysStopped(p: Pipe, a: Action)
    requires Enabled(p, a)
    ensures p.phase.Stopped? ==> Next(p, a).phase == p.phase
    ensures Next(p, a).shutdown && !p.shutdown ==> a.ShutdownRequested? || Next(p, a).phase == Stopped(true)
  {
    hide ApplyOne;
    if a.EngineReadsLatch? || a.EngineDrains? {
      AppliesSetup(p, a);
    }
  }

  /** A successful run applied exactly the inputs the feed produced, which are all
      of them unless the operator asked for a shutdown, and recorded every output
      of the replay. */
  lemma SuccessIsComplete(states: seq<Pipe>, actions: seq<Action>, k: nat, setup: Setup)
    requires Schedule(states, actions) && k < |states| && Succeeded(states[k]) && states[0] == Begin(setup)
    ensures var p := states[k];
      && p.journal == Run(setup.start, InputsOf(p.captured)).out
      && p.produced <= |setup.feed| && FedOf(p.captured) == Unstamp(setup.feed[..p.produced])
      && (!AskedToStop(actions, k) ==> FedOf(p.captured) == Unstamp(setup.feed))
  {
    hide Schedule, Run, FedOf, Unstamp, AskedToStop;
    PipelineIsReplay(states, actions, k, setup);
    BeginOk(setup);
    ScheduleOk(states, actions, k);
    var p := states[k];
    assert p.journal + p.outputs + p.batch == p.journal;
    assert Unstamp([]) == [];
    assert FedOf(p.captured) + [] + [] == FedOf(p.captured);
    assert setup.feed[..|setup.feed|] == setup.feed;
    if !AskedToStop(actions, k) {
      OnlyOperatorsStop(states, actions, k);
    }
  }

  // ---- the kill latch -----------------------------------------------------

  /** The switch after some commands. */
  function KillAfter(kill: bool, commands: seq<Command>): bool
    decreases |commands|
  {
    if commands == [] then kill
    else
      var last := commands[|commands| - 1];
      if last.SetGlobalKill? then last.engaged else KillAfter(kill, commands[..|commands| - 1])
  }

  /** The last kill command among some commands, if any. */
  function LastKill(commands: seq<Command>): Option<bool>
    decreases |commands|
  {
    if commands == [] then None
    else
      var last := commands[|commands| - 1];
      if last.SetGlobalKill? then Some(last.engaged) else LastKill(commands[..|commands| - 1])
  }

  lemma {:induction false} KillIsLast(kill: bool, commands: seq<Command>)
    ensures KillAfter(kill, commands) == if LastKill(commands).Some? then LastKill(commands).value else kill
    decreases |commands|
  {
    if commands != [] {
      KillIsLast(kill, commands[..|commands| - 1]);
    }
  }

  /** While the commands are drained, the switch is the latch as it was read with
      the drained commands applied to it. */
  ghost predicate Latched(p: Pipe) {
    p.phase.Draining? && p.core.fault.None? ==> p.core.kill == KillAfter(p.phase.latch, p.phase.drained)
  }

  lemma ControlKill(s: State, input: Input)
    requires input.event.ControlInput?
    ensures Step(s, input).state.fault.None? ==> s.fault.None?
    ensures Step(s, input).state.fault.None? ==>
      Step(s, input).state.kill == if input.event.command.SetGlobalKill? then input.event.command.engaged else s.kill
  {
  }

  lemma ReadLatched(p: Pipe)
    requires Enabled(p, EngineReadsLatch)
    ensures Latched(Next(p, EngineReadsLatch))
  {
    hide Step;
    ControlKill(p.core, Input((|p.captured| + 1) % (U64_MAX + 1), p.core.time, ControlInput(SetGlobalKill(p.latch))));
  }

  lemma DrainLatched(p: Pipe)
    requires Latched(p) && Enabled(p, EngineDrains)
    ensures Latched(Next(p, EngineDrains))
  {
    hide Step;
    if p.commands != [] {
      ControlKill(p.core, Input((|p.captured| + 1) % (U64_MAX + 1), p.core.time, ControlInput(p.commands[0])));
      var more := p.phase.drained + [p.commands[0]];
      assert more[..|more| - 1] == p.phase.drained;
    }
  }

  lemma StepLatched(p: Pipe, a: Action)
    requires Latched(p) && Enabled(p, a)
    ensures Latched(Next(p, a))
  {
    hide ApplyOne, KillAfter;
    match a {
      case EngineReadsLatch => ReadLatched(p);
      case EngineDrains => DrainLatched(p);
      case _ =>
    }
  }

  lemma {:induction false} LatchedBy(states: seq<Pipe>, actions: seq<Action>, k: nat)
    requires Schedule(states, actions) && k < |states| && Latched(states[0])
    ensures Latched(states[k])
  {
    hide Latched, Next, Enabled;
    if k > 0 {
      LatchedBy(states, actions, k - 1);
      assert Follows(states[k - 1], actions[k - 1], states[k - 1 + 1]);
      StepLatched(states[k - 1], actions[k - 1]);
    }
  }

  /** In every interleaving the input in hand is applied under the latch value that
      was read for it if and only if the last kill command drained for it, if there
      is one, says the same. */
  lemma AppliedUnderLatch(states: seq<Pipe>, actions: seq<Action>, setup: Setup, k: nat)
    requires Schedule(states, actions) && k < |states| && states[0] == Begin(setup)
    requires states[k].phase.Draining? && states[k].core.fault.None?
    ensures var phase := states[k].phase;
      states[k].core.kill == phase.latch <==>
        LastKill(phase.drained).None? || LastKill(phase.drained).value == phase.latch
  {
    hide Next, Enabled, KillAfter;
    LatchedBy(states, actions, k);
    KillIsLast(states[k].phase.latch, states[k].phase.drained);
  }

  /** An order applied while the switch is engaged trades nothing. */
  lemma EngagedOrderDoesNotTrade(p: Pipe)
    requires Enabled(p, EngineDrains) && p.commands == [] && p.phase.input.event.OrderInput?
    requires p.core.fault.None? ==> p.core.kill
    ensures TradesOf(Next(p, EngineDrains).batch) == []
  {
    hide ApplyRequest, TradesOf;
    NoTradesYet();
    var s := p.core;
    if s.fault.None? && s.engineSeq < U64_MAX {
      var s1 := s.(engineSeq := s.engineSeq + 1, time := p.phase.input.recvTimeNs);
      RequestContained(s1, p.phase.input.event.request);
    }
  }

  lemma NoTradesYet()
    ensures TradesOf([]) == []
  {
  }

  /** Whatever latch value the engine holds was read as engaged. */
  ghost predicate Engaged(p: Pipe) {
    p.latch && (p.phase.Draining? ==> p.phase.latch)
  }

  lemma StepEngaged(p: Pipe, a: Action)
    requires Engaged(p) && Enabled(p, a) && !a.LatchSet?
    ensures Engaged(Next(p, a))
  {
    hide Step;
  }

  lemma {:induction false} EngagedBy(states: seq<Pipe>, actions: seq<Action>, i: nat, k: nat)
    requires Schedule(states, actions) && i <= k < |states| && Engaged(states[i])
    requires forall j :: i <= j < |actions| ==> !actions[j].LatchSet?
    ensures Engaged(states[k])
    decreases k - i
  {
    hide Engaged, Next, Enabled;
    if k > i {
      EngagedBy(states, actions, i, k - 1);
      assert Follows(states[k - 1], actions[k - 1], states[k - 1 + 1]);
      StepEngaged(states[k - 1], actions[k - 1]);
    }
  }

  /** In every interleaving, once the latch is engaged and left alone, no order
      whose latch read is still to come trades, however many inputs were queued
      before, unless the last kill command drained for it was a release. */
  lemma KillIsNotOvertaken(states: seq<Pipe>, actions: seq<Action>, setup: Setup, i: nat, k: nat)
    requires Schedule(states, actions) && states[0] == Begin(setup) && i <= k < |actions|
    requires states[i].latch && !states[i].phase.Draining?
    requires forall j :: i <= j < |actions| ==> !actions[j].LatchSet?
    requires actions[k].EngineDrains? && states[k].commands == [] && states[k].phase.Draining?
    requires states[k].phase.input.event.OrderInput? && LastKill(states[k].phase.drained) != Some(false)
    ensures TradesOf(states[k + 1].batch) == []
  {
    hide TradesOf, Next, Enabled, LastKill;
    EngagedBy(states, actions, i, k);
    if states[k].core.fault.None? {
      AppliedUnderLatch(states, actions, setup, k);
    }
    assert Follows(states[k], actions[k], states[k + 1]);
    EngagedOrderDoesNotTrade(states[k]);
  }

  // ---- progress -----------------------------------------------------------

  ghost predicate ByOperator(a: Action) {
    a.LatchSet? || a.CommandQueued? || a.ShutdownRequested?
  }

  /** Every thread has finished. */
  ghost predicate Finished(p: Pipe) {
    p.feedDone && p.phase.Stopped? && !p.recorder.Recording? && (p.recorder.Broken? ==> p.outputFailed)
  }

  /** As long as some thread has not finished, some thread can move, provided
      the queues can hold anything at all. */
  lemma NoDeadlock(p: Pipe) returns (a: Action)
    requires p.setup.inputCapacity > 0 && p.setup.outputCapacity > 0 && p.produced <= |p.setup.feed| && !Finished(p)
    ensures Enabled(p, a) && !ByOperator(a)
  {
    if p.recorder.Recording? && p.outputs != [] {
      a := OutputRecords;
    } else if p.recorder.Broken? && !p.outputFailed {
      a := OutputRaisesFlag;
    } else if !p.phase.Stopped? && p.batch != [] {
      a := if |p.outputs| < p.setup.outputCapacity then EngineSends else EngineGivesUp;
    } else if p.phase.Holding? {
      a := EngineChecks;
    } else if p.phase.Checked? {
      a := EngineReadsLatch;
    } else if p.phase.Draining? {
      a := EngineDrains;
    } else if p.phase.Waiting? && p.inputs != [] {
      a := EngineReceives;
    } else if p.phase.Waiting? && p.feedDone {
      a := EngineEnds;
    } else if !p.feedDone {
      a := if p.produced == |p.setup.feed| || |p.inputs| >= p.setup.inputCapacity then FeedStops else FeedSends;
    } else {
      a := OutputCloses;
    }
  }

  /** What is left to do with the inputs and to finish, counted so that every
      thread's step lowers it or leaves it to the commands, the batch or the
      queued outputs, in this order. */
  ghost function Work(p: Pipe): nat {
    10 * (if p.produced <= |p.setup.feed| then |p.setup.feed| - p.produced else 0) + 9 * |p.inputs|
    + PhaseRank(p.phase) + (if p.feedDone then 0 else 1) + (if p.outputFailed then 0 else 1)
    + (match p.recorder case Recording => 2 case Broken => 1 case Closed => 0)
  }

  function PhaseRank(phase: Phase): nat {
    match phase
    case Waiting => 1
    case Holding(_) => 8
    case Checked(_) => 7
    case Draining(_, _, _) => 6
    case Stopped(_) => 0
  }

  /** The second rank is below the first, comparing work, commands, batch and
      outputs in this order. */
  ghost predicate Below(p: Pipe, q: Pipe) {
    || Work(q) < Work(p)
    || (Work(q) == Work(p) && |q.commands| < |p.commands|)
    || (Work(q) == Work(p) && |q.commands| == |p.commands| && |q.batch| < |p.batch|)
    || (Work(q) == Work(p) && |q.commands| == |p.commands| && |q.batch| == |p.batch| && |q.outputs| < |p.outputs|)
  }

  /** Applying an input costs what the phase gives up, whatever it emits. */
  lemma ApplyingDescends(p: Pipe, event: Domain.Event, time: u64, source: Source, next: Phase)
    ensures var q := ApplyOne(p, event, time, source, next);
      q.commands == p.commands && Work(q) + PhaseRank(p.phase) == Work(p) + PhaseRank(next)
  {
    hide ApplyOne, PhaseRank;
    ApplyOneFields(p, event, time, source, next);
  }

  lemma DrainDescends(p: Pipe)
    requires Enabled(p, EngineDrains)
    ensures Below(p, Next(p, EngineDrains))
  {
    hide ApplyOne, Work;
    if p.commands != [] {
      var popped := p.(commands := p.commands[1..]);
      SameWork(p, popped);
      ApplyingDescends(popped, ControlInput(p.commands[0]), p.core.time, FromOperator, Drained(p));
    } else {
      ApplyingDescends(p, p.phase.input.event, p.phase.input.recvTimeNs, FromFeed, Waiting);
    }
  }

  lemma SameWork(p: Pipe, q: Pipe)
    requires q == p.(commands := q.commands)
    ensures Work(q) == Work(p)
  {
  }

  lemma LatchDescends(p: Pipe)
    requires Enabled(p, EngineReadsLatch)
    ensures Below(p, Next(p, EngineReadsLatch))
  {
    hide ApplyOne;
    ApplyingDescends(p, ControlInput(SetGlobalKill(p.latch)), p.core.time, FromLatch, Draining(p.phase.input, p.latch, []));
  }

  lemma EngineDescends(p: Pipe, a: Action)
    requires Enabled(p, a) && ByEngine(a)
    ensures Below(p, Next(p, a))
  {
    hide ApplyOne;
    match a {
      case EngineReadsLatch => LatchDescends(p);
      case EngineDrains => DrainDescends(p);
      case EngineReceives =>
      case EngineEnds =>
      case EngineChecks =>
      case EngineSends =>
      case EngineGivesUp =>
    }
  }

  lemma StepsDescend(p: Pipe, a: Action)
    requires Enabled(p, a) && !ByOperator(a)
    ensures Below(p, Next(p, a))
  {
    hide ApplyOne;
    if ByEngine(a) {
      EngineDescends(p, a);
    } else {
      match a {
        case FeedSends =>
        case FeedStops =>
        case OutputRecords =>
        case OutputBreaks(_) =>
        case OutputFlushFails =>
        case OutputRaisesFlag =>
        case OutputCloses =>
      }
    }
  }

  /** An endless history in which threads move as long as one can and the operator
      is quiet. */
  ghost predicate History(states: nat -> Pipe, actions: nat -> Action) {
    forall k: nat ::
      if Finished(states(k)) then states(k + 1) == states(k)
      else !ByOperator(actions(k)) && Follows(states(k), actions(k), states(k + 1))
  }

  /** However the scheduler interleaves them, once the operator is quiet all
      threads finish. */
  lemma {:induction false} EveryRunFinishes(states: nat -> Pipe, actions: nat -> Action, k: nat) returns (n: nat)
    requires History(states, actions)
    ensures n >= k && Finished(states(n))
    decreases Work(states(k)), |states(k).commands|, |states(k).batch|, |states(k).outputs|
  {
    hide Finished, Enabled, Next, Work;
    if Finished(states(k)) {
      n := k;
    } else {
      assert Follows(states(k), actions(k), states(k + 1));
      StepsDescend(states(k), actions(k));
      n := EveryRunFinishes(states, actions, k + 1);
    }
  }
}
