/** Replay with evidence: the canonical bytes of every input and output are
    streamed into the digests while the core runs. A digest is a function of
    the bytes it was fed. */
module Replaying {
  import opened Domain
  import opened Core
  import opened Wire
  import opened Canonical
  import opened InputCodec
  import opened Engine
  import Runs
  import Safety
  import IndexedBook
  import Cache

  class DigestRecorder {
    var inputStream: Bytes
    var outputStream: Bytes
    var scratch: Buffer
    var inputs: nat
    var outputs: nat
    ghost var seen: seq<Input>
    ghost var told: seq<Output>

    ghost predicate Valid()
      reads this, scratch
    {
      && scratch.Valid()
      && inputStream == Stream(InputBytes, seen) && inputs == |seen|
      && outputStream == Stream(OutputBytes, told) && outputs == |told|
    }

    constructor ()
      ensures Valid() && fresh(scratch) && seen == [] && told == []
    {
      scratch := new Buffer();
      inputStream, outputStream, inputs, outputs := [], [], 0, 0;
      seen, told := [], [];
    }

    method RecordInput(input: Input)
      requires Valid()
      modifies this, scratch
      ensures Valid() && scratch == old(scratch) && seen == old(seen) + [input] && told == old(told)
    {
      hide InputBytes, OutputBytes, Stream;
      scratch.Clear();
      EncodeInput(input, scratch);
      StreamSnoc(InputBytes, seen, input);
      inputStream := inputStream + scratch.data;
      inputs := inputs + 1;
      seen := seen + [input];
    }

    method RecordOutput(event: Output)
      requires Valid()
      modifies this, scratch
      ensures Valid() && scratch == old(scratch) && seen == old(seen) && told == old(told) + [event]
    {
      hide InputBytes, OutputBytes, Stream;
      scratch.Clear();
      EncodeOutput(event, scratch);
      StreamSnoc(OutputBytes, told, event);
      outputStream := outputStream + scratch.data;
      outputs := outputs + 1;
      told := told + [event];
    }
  }

  /** Applies one input and records it and its events. */
  method ReplayStep(core: TradingCore, recorder: DigestRecorder, input: Input) returns (out: seq<Output>)
    requires core.Valid() && recorder.Valid()
    modifies core, core.books, core.views, core.caches, set c | c in core.caches :: c.entries
    modifies recorder, recorder.scratch
    ensures core.Valid() && recorder.Valid() && recorder.scratch == old(recorder.scratch)
    ensures Emitted(core.s, out) == Step(old(core.s), input)
    ensures recorder.seen == old(recorder.seen) + [input] && recorder.told == old(recorder.told) + out
  {
    hide Step, InputBytes, OutputBytes, Stream, IndexedBook.Represents, Cache.Holds, Cache.Points, Safety.Good;
    recorder.RecordInput(input);
    out := core.Apply(input);
    for k := 0 to |out|
      invariant recorder.Valid() && recorder.scratch == old(recorder.scratch) && core.Valid()
      invariant Emitted(core.s, out) == Step(old(core.s), input)
      invariant recorder.seen == old(recorder.seen) + [input] && recorder.told == old(recorder.told) + out[..k]
    {
      recorder.RecordOutput(out[k]);
      assert out[..k + 1] == out[..k] + [out[k]];
    }
    assert out[..|out|] == out;
  }

  /** Runs the inputs in order: the streams grow by exactly the inputs and by
      exactly the events of their run. */
  method ReplayRun(core: TradingCore, recorder: DigestRecorder, inputs: seq<Input>) returns (out: seq<Output>)
    requires core.Valid() && recorder.Valid()
    modifies core, core.books, core.views, core.caches, set c | c in core.caches :: c.entries
    modifies recorder, recorder.scratch
    ensures core.Valid() && recorder.Valid()
    ensures Emitted(core.s, out) == Runs.Run(old(core.s), inputs)
    ensures recorder.seen == old(recorder.seen) + inputs && recorder.told == old(recorder.told) + out
  {
    hide Step, InputBytes, OutputBytes, Stream, Runs.Run, IndexedBook.Represents, Cache.Holds, Cache.Points, Safety.Good;
    out := [];
    NothingRuns(core.s, inputs);
    for k := 0 to |inputs|
      invariant core.Valid() && recorder.Valid() && recorder.scratch == old(recorder.scratch)
      invariant Emitted(core.s, out) == Runs.Run(old(core.s), inputs[..k])
      invariant recorder.seen == old(recorder.seen) + inputs[..k] && recorder.told == old(recorder.told) + out
    {
      OneMoreRuns(old(core.s), inputs, k);
      var events := ReplayStep(core, recorder, inputs[k]);
      out := out + events;
    }
    assert inputs[..|inputs|] == inputs;
  }

  lemma NothingRuns(start: State, inputs: seq<Input>)
    ensures inputs[..0] == [] && Runs.Run(start, inputs[..0]) == Emitted(start, [])
  {
  }

  lemma OneMoreRuns(start: State, inputs: seq<Input>, k: nat)
    requires k < |inputs|
    ensures inputs[..k + 1] == inputs[..k] + [inputs[k]]
    ensures var before := Runs.Run(start, inputs[..k]);
      var last := Step(before.state, inputs[k]);
      Runs.Run(start, inputs[..k + 1]) == Emitted(last.state, before.out + last.out)
  {
    hide Step;
    assert inputs[..k + 1][..k] == inputs[..k];
  }

  /** The recorded input bytes determine the run: two replays of one start that
      recorded the same input stream end in the same state and record the same
      output stream. */
  lemma EqualInputStreamsReplayEqually(start: State, xs: seq<Input>, ys: seq<Input>)
    requires Stream(InputBytes, xs) == Stream(InputBytes, ys)
    ensures Runs.Run(start, xs) == Runs.Run(start, ys)
    ensures Stream(OutputBytes, Runs.Run(start, xs).out) == Stream(OutputBytes, Runs.Run(start, ys).out)
  {
    hide Runs.Run, InputBytes, OutputBytes, Stream;
    InputStreamsDetermineInputs(xs, ys);
  }
}
