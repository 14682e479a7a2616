/** The pipeline, its journal and the read model together: what survives a
    crash, and what a consumer of the journal ends up with. */
module EndToEnd {
  import opened Domain
  import opened Core
  import opened Ledger
  import opened Runs
  import opened Pipelines
  import opened Projecting
  import Journal

  /** At any moment of any interleaving, whatever part of the journal file
      survives past its header recovers to a prefix of the single-threaded
      replay of the inputs the engine captured. */
  lemma SurvivingJournalIsReplay(states: seq<Pipe>, actions: seq<Action>, k: nat, setup: Setup, crc: Journal.Crc,
                                 runId: u128, cut: nat, r: Journal.Recovery)
    requires Schedule(states, actions) && k < |states| && states[0] == Begin(setup)
    requires Journal.HEADER_LEN <= cut <= |Journal.JournalBytes(crc, runId, states[k].journal)|
    requires Journal.Recovers(crc, Journal.JournalBytes(crc, runId, states[k].journal)[..cut], r)
    ensures r.Recovered? && r.runId == runId
    ensures r.events <= Run(setup.start, InputsOf(states[k].captured)).out
  {
    hide Run, Schedule, Journal.Recovers, Journal.JournalBytes, Journal.Boundary;
    PipelineIsReplay(states, actions, k, setup);
    Journal.CutRecovery(crc, runId, states[k].journal, cut, r);
  }

  /** After a run that ended without an error, a reader that has consumed the
      recovered journal, with any redelivery, shows every account's position as
      the engine holds it. */
  lemma CleanRunProjects(cfg: Config, openings: seq<Opening>, depth: nat, setup: Setup,
                         states: seq<Pipe>, actions: seq<Action>, k: nat, crc: Journal.Crc, runId: u128,
                         r: Journal.Recovery, positions: seq<nat>, a: nat, i: nat)
    requires |openings| == |cfg.accountIds.ids| && a < |openings| && i < |cfg.instruments|
    requires setup.start == Initial(cfg, openings, depth) && states != [] && states[0] == Begin(setup)
    requires Schedule(states, actions) && k < |states| && Succeeded(states[k]) && states[k].core.fault.None?
    requires Journal.Recovers(crc, Journal.JournalBytes(crc, runId, states[k].journal), r)
    requires r.Recovered? && FromStart(r.events, positions)
    requires DeliverAll(NewReader, Picked(r.events, positions)).last == |r.events|
    ensures LotsOf(DeliverAll(NewReader, Picked(r.events, positions)).tables, cfg.accountIds.ids[a], cfg.instruments[i].id)
      == Pos(states[k].core.desk, a, i).lots
  {
    hide Run, Initial, Schedule, Journal.Recovers, Journal.JournalBytes, Journal.Boundary, DeliverAll, LotsOf;
    var p := states[k];
    var inputs := InputsOf(p.captured);
    SuccessIsComplete(states, actions, k, setup);
    PipelineIsReplay(states, actions, k, setup);
    WholeJournal(crc, runId, p.journal, r);
    ProjectedPositionsAreEngines(cfg, openings, depth, inputs, positions, a, i);
  }

  /** An uncut journal recovers whole. */
  lemma WholeJournal(crc: Journal.Crc, runId: u128, events: seq<Output>, r: Journal.Recovery)
    requires Journal.Recovers(crc, Journal.JournalBytes(crc, runId, events), r)
    ensures r == Journal.Recovered(runId, events, None)
  {
    hide Journal.Recovers;
    var bytes := Journal.JournalBytes(crc, runId, events);
    assert bytes[..|bytes|] == bytes;
    Journal.CutRecovery(crc, runId, events, |bytes|, r);
    assert events[..|events|] == events;
    assert Journal.Boundary(crc, events, |events|) == |bytes|;
  }
}
