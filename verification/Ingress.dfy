/** What the engine thread captures: the operator's commands, each once and in
    order, and every input with its number and clock. */
module Ingress {
  import opened Domain
  import opened Core
  import opened Pipelines
  import Runs

  // ---- the operator's commands --------------------------------------------

  function CommandsOf(captured: seq<Applied>): seq<Command> {
    if captured == [] then []
    else
      var last := captured[|captured| - 1];
      CommandsOf(captured[..|captured| - 1])
      + if last.source.FromOperator? && last.input.event.ControlInput? then [last.input.event.command] else []
  }

  function Queued(actions: seq<Action>): seq<Command> {
    if actions == [] then []
    else
      var last := actions[|actions| - 1];
      Queued(actions[..|actions| - 1]) + if last.CommandQueued? then [last.command] else []
  }

  lemma CommandsMore(captured: seq<Applied>, a: Applied)
    ensures CommandsOf(captured + [a]) == CommandsOf(captured)
      + if a.source.FromOperator? && a.input.event.ControlInput? then [a.input.event.command] else []
  {
    assert (captured + [a])[..|captured|] == captured;
  }

  /** The input an application adds. */
  function Captured(p: Pipe, event: Domain.Event, time: u64, source: Source): Applied {
    Applied(Input((|p.captured| + 1) % (U64_MAX + 1), time, event), source)
  }

  /** What a step does to the captured inputs and to the command queue. */
  lemma StepCaptures(p: Pipe, a: Action)
    requires Enabled(p, a)
    ensures var q := Next(p, a);
      match a
      case CommandQueued(c) => q.captured == p.captured && q.commands == p.commands + [c]
      case EngineReadsLatch =>
        && q.commands == p.commands
        && q.captured == p.captured + if p.latch != p.core.kill
                                      then [Captured(p, ControlInput(SetGlobalKill(p.latch)), p.core.time, FromLatch)] else []
      case EngineDrains =>
        if p.commands == [] then
          q.commands == [] && q.captured == p.captured + [Captured(p, p.phase.input.event, p.phase.input.recvTimeNs, FromFeed)]
        else
          && q.commands == p.commands[1..]
          && q.captured == p.captured + [Captured(p, ControlInput(p.commands[0]), p.core.time, FromOperator)]
      case _ => q.captured == p.captured && q.commands == p.commands
  {
    hide Step;
  }

  lemma StepCommands(p: Pipe, a: Action)
    requires Enabled(p, a)
    ensures var q := Next(p, a);
      CommandsOf(q.captured) + q.commands
        == CommandsOf(p.captured) + p.commands + if a.CommandQueued? then [a.command] else []
  {
    hide Next, Enabled, CommandsOf;
    StepCaptures(p, a);
    var q := Next(p, a);
    if a.EngineReadsLatch? && p.latch != p.core.kill {
      CommandsMore(p.captured, Captured(p, ControlInput(SetGlobalKill(p.latch)), p.core.time, FromLatch));
    } else if a.EngineDrains? && p.commands == [] {
      InputInHand(p);
      CommandsMore(p.captured, Captured(p, p.phase.input.event, p.phase.input.recvTimeNs, FromFeed));
    } else if a.EngineDrains? {
      CommandsMore(p.captured, Captured(p, ControlInput(p.commands[0]), p.core.time, FromOperator));
      assert p.commands == [p.commands[0]] + p.commands[1..];
    } else {
      assert q.captured == p.captured;
    }
  }

  lemma InputInHand(p: Pipe)
    requires Enabled(p, EngineDrains)
    ensures p.phase.Draining?
  {
  }

  /** In every interleaving, the commands the operator queued are those applied so
      far, in that order and each once, and then those still in the queue. */
  lemma {:induction false} CommandsAreKept(states: seq<Pipe>, actions: seq<Action>, setup: Setup, k: nat)
    requires Schedule(states, actions) && states[0] == Begin(setup) && k < |states|
    ensures Queued(actions[..k]) == CommandsOf(states[k].captured) + states[k].commands
  {
    hide Next, Enabled, CommandsOf;
    if k == 0 {
      NoCommands();
    } else {
      CommandsAreKept(states, actions, setup, k - 1);
      assert Follows(states[k - 1], actions[k - 1], states[k - 1 + 1]);
      StepCommands(states[k - 1], actions[k - 1]);
      assert actions[..k][..k - 1] == actions[..k - 1];
    }
  }

  lemma NoCommands()
    ensures CommandsOf([]) == [] && Queued([]) == []
  {
  }

  // ---- numbers and clocks -------------------------------------------------

  /** The k-th input bears the number k + 1. One that the feed did not supply takes the
      clock of the engine, and the latch supplies nothing but the kill switch. */
  ghost predicate StampedAt(start: State, captured: seq<Applied>, k: nat)
    requires k < |captured|
  {
    var a := captured[k];
    && a.input.ingressSeq == (k + 1) % (U64_MAX + 1)
    && (!a.source.FromFeed? ==>
          a.input.event.ControlInput? && a.input.recvTimeNs == Runs.Run(start, InputsOf(captured[..k])).state.time)
    && (a.source.FromLatch? ==> a.input.event.command.SetGlobalKill?)
  }

  ghost predicate AllStamped(p: Pipe) {
    forall k :: 0 <= k < |p.captured| ==> StampedAt(p.setup.start, p.captured, k)
  }

  lemma MoreStamped(p: Pipe, q: Pipe, a: Applied)
    requires AllStamped(p) && Replays(p) && q.setup == p.setup && q.captured == p.captured + [a]
    requires a.input.ingressSeq == (|p.captured| + 1) % (U64_MAX + 1)
    requires !a.source.FromFeed? ==> a.input.event.ControlInput? && a.input.recvTimeNs == p.core.time
    requires a.source.FromLatch? ==> a.input.event.command.SetGlobalKill?
    ensures AllStamped(q)
  {
    hide Runs.Run;
    forall k | 0 <= k < |q.captured| ensures StampedAt(q.setup.start, q.captured, k) {
      assert q.captured[..k] == p.captured[..k];
      if k < |p.captured| {
        assert StampedAt(p.setup.start, p.captured, k);
      } else {
        assert p.captured[..k] == p.captured;
      }
    }
  }

  lemma StepStamped(p: Pipe, a: Action)
    requires Enabled(p, a) && AllStamped(p) && Replays(p)
    ensures AllStamped(Next(p, a))
  {
    hide Next, Enabled, AllStamped, Replays;
    StepCaptures(p, a);
    StepSetup(p, a);
    var q := Next(p, a);
    if a.EngineReadsLatch? && p.latch != p.core.kill {
      MoreStamped(p, q, Captured(p, ControlInput(SetGlobalKill(p.latch)), p.core.time, FromLatch));
    } else if a.EngineDrains? && p.commands == [] {
      InputInHand(p);
      MoreStamped(p, q, Captured(p, p.phase.input.event, p.phase.input.recvTimeNs, FromFeed));
    } else if a.EngineDrains? {
      MoreStamped(p, q, Captured(p, ControlInput(p.commands[0]), p.core.time, FromOperator));
    } else {
      SameStamps(p, q);
    }
  }

  lemma SameStamps(p: Pipe, q: Pipe)
    requires AllStamped(p) && q.setup == p.setup && q.captured == p.captured
    ensures AllStamped(q)
  {
  }

  /** In every interleaving, every captured input bears its number, and what the feed
      did not supply bears the clock the engine had reached by then. */
  lemma {:induction false} CapturedAreStamped(states: seq<Pipe>, actions: seq<Action>, setup: Setup, k: nat)
    requires Schedule(states, actions) && states[0] == Begin(setup) && k < |states|
    ensures AllStamped(states[k])
  {
    hide Next, Enabled, AllStamped, PipeOk;
    if k == 0 {
      NothingStamped(setup);
    } else {
      CapturedAreStamped(states, actions, setup, k - 1);
      BeginOk(setup);
      ScheduleOk(states, actions, k - 1);
      assert Follows(states[k - 1], actions[k - 1], states[k - 1 + 1]);
      OkReplays(states[k - 1]);
      StepStamped(states[k - 1], actions[k - 1]);
    }
  }

  lemma OkReplays(p: Pipe)
    requires PipeOk(p)
    ensures Replays(p)
  {
    hide Replays, Feeds, FeedPrefix, Journals, Bounded;
  }

  lemma NothingStamped(setup: Setup)
    ensures AllStamped(Begin(setup))
  {
  }
}
