/** The read model: tables folded from the output stream, with redelivery and
    gaps. */
module Projecting {
  import opened Domain
  import opened Ledger
  import opened Core
  import opened Outputs
  import opened History
  import opened Runs

  datatype Holding = Holding(lots: int, bought: nat, sold: nat)

  datatype OrderRow = OrderRow(price: i64, total: u64, filled: u64)

  /** The tables the control plane serves. */
  datatype Tables = Tables(
    holdings: map<(u32, u32), Holding>,
    orders: map<u64, OrderRow>,
    rejects: map<RejectReason, nat>)

  const NoTables := Tables(map[], map[], map[])

  function AddHolding(h: map<(u32, u32), Holding>, account: u32, instrument: u32, delta: int): map<(u32, u32), Holding> {
    var key := (account, instrument);
    var before := if key in h then h[key] else Holding(0, 0, 0);
    h[key := Holding(before.lots + delta, before.bought + (if delta > 0 then delta else 0), before.sold + (if delta < 0 then -delta else 0))]
  }

  function ProjectTrade(t: Tables, e: Trade): Tables {
    var buys := e.aggressor.Buy?;
    var taken := AddHolding(t.holdings, e.takerAccount, e.instrument, if buys then e.quantity else 0 - e.quantity);
    t.(holdings := AddHolding(taken, e.makerAccount, e.instrument, if buys then 0 - e.quantity else e.quantity))
  }

  function ProjectReport(t: Tables, r: Report): Tables {
    if r.reject.Some? then
      t.(rejects := t.rejects[r.reject.value := (if r.reject.value in t.rejects then t.rejects[r.reject.value] else 0) + 1])
    else if r.orderId == 0 then t
    else if r.state.FullyFilled? || r.state.CancelledState? then t.(orders := t.orders - {r.orderId})
    else t.(orders := t.orders[r.orderId := OrderRow(r.price, r.total, r.cumulative)])
  }

  function Absorbed(t: Tables, e: Output): Tables {
    match e
    case TradeOut(trade) => ProjectTrade(t, trade)
    case ReportOut(report) => ProjectReport(t, report)
    case StateOut(_, _, _, _) => t
  }

  /** All events of a stream, once each, in order. */
  function Fold(t: Tables, out: seq<Output>): Tables
    decreases |out|
  {
    if out == [] then t else Absorbed(Fold(t, out[..|out| - 1]), out[|out| - 1])
  }

  lemma {:induction false} FoldConcat(t: Tables, a: seq<Output>, b: seq<Output>)
    ensures Fold(t, a + b) == Fold(Fold(t, a), b)
    decreases |b|
  {
    if b == [] {
      assert a + b == a;
    } else {
      var n := |b| - 1;
      assert (a + b)[..|a + b| - 1] == a + b[..n];
      FoldConcat(t, a, b[..n]);
    }
  }

  // ---- delivery -----------------------------------------------------------

  datatype Health = Healthy | Degraded

  datatype Reader = Reader(tables: Tables, last: nat, health: Health)

  /** One delivered event: skipped when old, applied when next, and a gap
      degrades the reader for good. */
  function Deliver(p: Reader, e: Output): Reader {
    if p.health.Degraded? || e.Seq() <= p.last then p
    else if e.Seq() != p.last + 1 && p.last != 0 then p.(health := Degraded)
    else p.(tables := Absorbed(p.tables, e), last := e.Seq())
  }

  function DeliverAll(p: Reader, events: seq<Output>): Reader
    decreases |events|
  {
    if events == [] then p else Deliver(DeliverAll(p, events[..|events| - 1]), events[|events| - 1])
  }

  const NewReader := Reader(NoTables, 0, Healthy)

  /** The reader holds exactly the events of the stream from the one it began with up
      to the last one applied, or nothing at all. */
  ghost predicate Current(p: Reader, out: seq<Output>, from: nat) {
    if p.last == 0 then p.tables == NoTables
    else from < p.last <= |out| && p.tables == Fold(NoTables, out[from..p.last])
  }

  ghost predicate Numbered(out: seq<Output>) {
    forall k :: 0 <= k < |out| ==> out[k].Seq() == k + 1
  }

  /** Any event of the stream may be delivered again, or too early: the reader stays
      exact. A fresh reader begins with whatever it is given first. */
  lemma DeliverKeeps(p: Reader, out: seq<Output>, from: nat, k: nat)
    requires Numbered(out) && Current(p, out, from) && k < |out| && (p.last == 0 ==> k == from)
    ensures Current(Deliver(p, out[k]), out, from)
    ensures Deliver(p, out[k]).last >= p.last
    ensures p.health.Degraded? ==> Deliver(p, out[k]) == p
    ensures p.health.Healthy? && p.last == 0 ==> Deliver(p, out[k]).last == k + 1
  {
    hide Absorbed;
    if p.health.Healthy? && (p.last == 0 || k == p.last) {
      FoldNext(out, from, k);
    }
  }

  lemma FoldNext(out: seq<Output>, from: nat, k: nat)
    requires from <= k < |out|
    ensures Fold(NoTables, out[from..k + 1]) == Absorbed(Fold(NoTables, out[from..k]), out[k])
    ensures k == from ==> Fold(NoTables, out[from..k]) == NoTables
  {
    hide Absorbed;
    var events := out[from..k + 1];
    assert events[..|events| - 1] == out[from..k];
  }

  /** Deliveries by position in the stream. */
  ghost predicate Delivered(out: seq<Output>, positions: seq<nat>) {
    forall j :: 0 <= j < |positions| ==> positions[j] < |out|
  }

  /** The first of them is the first event. */
  ghost predicate FromStart(out: seq<Output>, positions: seq<nat>) {
    Delivered(out, positions) && (positions != [] ==> positions[0] == 0)
  }

  function Picked(out: seq<Output>, positions: seq<nat>): (r: seq<Output>)
    requires forall j :: 0 <= j < |positions| ==> positions[j] < |out|
    ensures |r| == |positions| && forall j :: 0 <= j < |r| ==> r[j] == out[positions[j]]
  {
    seq(|positions|, j requires 0 <= j < |positions| => out[positions[j]])
  }

  /** Under any redelivery whatsoever the tables are the fold of exactly the events
      from the first one delivered up to the last one applied, each counted once. */
  lemma {:induction false} RedeliveryIsExact(out: seq<Output>, positions: seq<nat>)
    requires Numbered(out) && Delivered(out, positions) && positions != []
    ensures var p := DeliverAll(NewReader, Picked(out, positions));
      && positions[0] < p.last <= |out|
      && p.tables == Fold(NoTables, out[positions[0]..p.last])
    decreases |positions|
  {
    hide Fold, Absorbed;
    var events, n := Picked(out, positions), |positions| - 1;
    assert events[..n] == Picked(out, positions[..n]);
    if n == 0 {
      assert events[..n] == [];
      assert DeliverAll(NewReader, []) == NewReader;
    } else {
      RedeliveryIsExact(out, positions[..n]);
    }
    DeliverKeeps(DeliverAll(NewReader, events[..n]), out, positions[0], positions[n]);
  }

  lemma NothingFolds()
    ensures Fold(NoTables, []) == NoTables && DeliverAll(NewReader, []) == NewReader
  {
  }

  /** Overlapping in-order batches that reach the end without a gap leave the
      reader healthy with the whole stream. */
  ghost predicate Overlapping(positions: seq<nat>, reached: nat)
    decreases |positions|
  {
    if positions == [] then reached == 0
    else
      var n := |positions| - 1;
      exists before: nat :: Overlapping(positions[..n], before) && positions[n] <= before
        && reached == if positions[n] == before then before + 1 else before
  }

  lemma {:induction false} OverlapReaches(out: seq<Output>, positions: seq<nat>, reached: nat)
    requires Numbered(out) && (forall j :: 0 <= j < |positions| ==> positions[j] < |out|)
    requires Overlapping(positions, reached)
    ensures var p := DeliverAll(NewReader, Picked(out, positions));
      p.health.Healthy? && p.last == reached
    decreases |positions|
  {
    hide Absorbed;
    if positions != [] {
      var n := |positions| - 1;
      var before: nat :| Overlapping(positions[..n], before) && positions[n] <= before
        && reached == if positions[n] == before then before + 1 else before;
      assert Picked(out, positions)[..n] == Picked(out, positions[..n]);
      OverlapReaches(out, positions[..n], before);
    }
  }

  /** Once degraded, a reader ignores everything. */
  lemma {:induction false} GapFreezes(p: Reader, events: seq<Output>)
    requires p.health.Degraded?
    ensures DeliverAll(p, events) == p
    decreases |events|
  {
    if events != [] {
      GapFreezes(p, events[..|events| - 1]);
    }
  }

  // ---- positions ----------------------------------------------------------

  function LotsOf(t: Tables, account: u32, instrument: u32): int {
    if (account, instrument) in t.holdings then t.holdings[(account, instrument)].lots else 0
  }

  lemma ProjectLots(t: Tables, e: Trade, account: u32, instrument: u32)
    ensures LotsOf(ProjectTrade(t, e), account, instrument) == LotsOf(t, account, instrument) + Share(e, account, instrument)
  {
  }

  lemma {:induction false} FoldLots(out: seq<Output>, account: u32, instrument: u32)
    ensures LotsOf(Fold(NoTables, out), account, instrument) == Net(TradesOf(out), account, instrument)
    decreases |out|
  {
    hide ProjectTrade, Share, Net, TradesOf;
    if out == [] {
      NoneTraded();
      NetNothing(account, instrument);
    } else {
      var n := |out| - 1;
      var before, last := out[..n], out[n];
      FoldLots(before, account, instrument);
      assert out == before + [last];
      TradesConcat(before, [last]);
      NetConcat(TradesOf(before), TradesOf([last]), account, instrument);
      LastTrades(last);
      match last {
        case TradeOut(trade) =>
          ProjectLots(Fold(NoTables, before), trade, account, instrument);
          NetOne(trade, account, instrument);
        case ReportOut(_) => NetNothing(account, instrument);
        case StateOut(_, _, _, _) => NetNothing(account, instrument);
      }
    }
  }

  lemma NetNothing(account: u32, instrument: u32)
    ensures Net([], account, instrument) == 0
  {
  }

  lemma LastTrades(o: Output)
    ensures TradesOf([o]) == if o.TradeOut? then [o.trade] else []
  {
    assert [o][1..] == [];
  }

  // ---- turnover and rejections --------------------------------------------

  /** Lots of the event in which the account was on this side, twice in a trade with
      itself. */
  function OnSide(e: Output, account: u32, instrument: u32, side: Side): nat {
    if !e.TradeOut? || e.trade.instrument != instrument then 0
    else
      var t := e.trade;
      (if t.takerAccount == account && t.aggressor == side then t.quantity else 0)
      + (if t.makerAccount == account && t.aggressor != side then t.quantity else 0)
  }

  function Turnover(out: seq<Output>, account: u32, instrument: u32, side: Side): nat {
    if out == [] then 0
    else Turnover(out[..|out| - 1], account, instrument, side) + OnSide(out[|out| - 1], account, instrument, side)
  }

  function TurnoverOf(t: Tables, account: u32, instrument: u32, side: Side): nat {
    if (account, instrument) !in t.holdings then 0
    else if side.Buy? then t.holdings[(account, instrument)].bought
    else t.holdings[(account, instrument)].sold
  }

  /** The projected turnover is what the account bought and sold in the stream. */
  lemma {:induction false} FoldTurnover(out: seq<Output>, account: u32, instrument: u32, side: Side)
    ensures TurnoverOf(Fold(NoTables, out), account, instrument, side) == Turnover(out, account, instrument, side)
    decreases |out|
  {
    hide ProjectTrade;
    if out != [] {
      var n := |out| - 1;
      FoldTurnover(out[..n], account, instrument, side);
      if out[n].TradeOut? {
        ProjectTurnover(Fold(NoTables, out[..n]), out[n], account, instrument, side);
      }
    }
  }

  lemma ProjectTurnover(t: Tables, e: Output, account: u32, instrument: u32, side: Side)
    requires e.TradeOut?
    ensures TurnoverOf(ProjectTrade(t, e.trade), account, instrument, side)
         == TurnoverOf(t, account, instrument, side) + OnSide(e, account, instrument, side)
  {
  }

  function Rejections(out: seq<Output>, reason: RejectReason): nat {
    if out == [] then 0
    else
      var e := out[|out| - 1];
      Rejections(out[..|out| - 1], reason) + if e.ReportOut? && e.report.reject == Some(reason) then 1 else 0
  }

  /** The projected count of a reason is the number of reports that give it. */
  lemma {:induction false} FoldRejections(out: seq<Output>, reason: RejectReason)
    ensures var rejects := Fold(NoTables, out).rejects;
      (if reason in rejects then rejects[reason] else 0) == Rejections(out, reason)
    decreases |out|
  {
    hide ProjectTrade;
    if out != [] {
      var n := |out| - 1;
      FoldRejections(out[..n], reason);
      if out[n].TradeOut? {
        TradeRejects(Fold(NoTables, out[..n]), out[n].trade);
      }
    }
  }

  lemma TradeRejects(t: Tables, e: Trade)
    ensures ProjectTrade(t, e).rejects == t.rejects
  {
  }

  /** However the events are redelivered, once all are applied the projected
      positions are the engine's. */
  lemma ProjectedPositionsAreEngines(cfg: Config, openings: seq<Opening>, depth: nat, inputs: seq<Input>,
                                     positions: seq<nat>, a: nat, i: nat)
    requires |openings| == |cfg.accountIds.ids| && a < |openings| && i < |cfg.instruments|
    requires var e := Run(Initial(cfg, openings, depth), inputs);
      e.state.fault.None? && FromStart(e.out, positions)
      && DeliverAll(NewReader, Picked(e.out, positions)).last == |e.out|
    ensures var e := Run(Initial(cfg, openings, depth), inputs);
      LotsOf(DeliverAll(NewReader, Picked(e.out, positions)).tables, cfg.accountIds.ids[a], cfg.instruments[i].id)
        == Pos(e.state.desk, a, i).lots
  {
    hide Run, Initial, Fold, Net, TradesOf;
    var e := Run(Initial(cfg, openings, depth), inputs);
    OutputsAreDense(cfg, openings, depth, inputs);
    if positions == [] {
      assert Picked(e.out, positions) == [] && e.out == [];
      NothingFolds();
    } else {
      RedeliveryIsExact(e.out, positions);
      assert e.out[0..|e.out|] == e.out;
    }
    FoldLots(e.out, cfg.accountIds.ids[a], cfg.instruments[i].id);
    PositionsAreTrades(cfg, openings, depth, inputs, a, i);
  }

  // ---- the read model as the source keeps it ------------------------------

  class Projection {
    var holdings: map<(u32, u32), Holding>
    var orders: map<u64, OrderRow>
    var rejects: map<RejectReason, nat>
    var lastOutputSeq: nat
    var health: Health

    function Abstract(): Reader
      reads this
    {
      Reader(Tables(holdings, orders, rejects), lastOutputSeq, health)
    }

    constructor ()
      ensures Abstract() == NewReader
    {
      holdings, orders, rejects, lastOutputSeq, health := map[], map[], map[], 0, Healthy;
    }

    method AddPosition(account: u32, instrument: u32, delta: int)
      modifies this
      ensures Abstract() == old(Abstract()).(tables := old(Abstract()).tables.(
                              holdings := AddHolding(old(holdings), account, instrument, delta)))
    {
      var key := (account, instrument);
      var bought, sold := if delta > 0 then delta else 0, if delta < 0 then -delta else 0;
      if key in holdings {
        var h := holdings[key];
        holdings := holdings[key := Holding(h.lots + delta, h.bought + bought, h.sold + sold)];
      } else {
        holdings := holdings[key := Holding(delta, bought, sold)];
      }
    }

    method ApplyReport(r: Report)
      modifies this
      ensures Abstract() == old(Abstract()).(tables := ProjectReport(old(Abstract()).tables, r))
    {
      if r.reject.Some? {
        var reason := r.reject.value;
        rejects := rejects[reason := (if reason in rejects then rejects[reason] else 0) + 1];
        return;
      }
      if r.orderId == 0 {
        return;
      }
      if r.state.FullyFilled? || r.state.CancelledState? {
        orders := orders - {r.orderId};
        return;
      }
      orders := orders[r.orderId := OrderRow(r.price, r.total, r.cumulative)];
    }

    /** Applies one batch; a gap latches the projection and abandons the rest. */
    method Apply(events: seq<Output>)
      modifies this
      ensures Abstract() == DeliverAll(old(Abstract()), events)
    {
      hide Absorbed;
      if health.Degraded? {
        GapFreezes(Abstract(), events);
        return;
      }
      assert events[..0] == [];
      for k := 0 to |events|
        invariant Abstract() == DeliverAll(old(Abstract()), events[..k]) && health.Healthy?
      {
        assert events[..k + 1][..k] == events[..k];
        var event := events[k];
        if event.Seq() <= lastOutputSeq {
          continue;
        }
        if event.Seq() != lastOutputSeq + 1 && lastOutputSeq != 0 {
          health := Degraded;
          DeliverSplit(old(Abstract()), events, k + 1);
          GapFreezes(Abstract(), events[k + 1..]);
          return;
        }
        ApplyEvent(event);
        lastOutputSeq := event.Seq();
      }
      assert events[..|events|] == events;
    }

    method ApplyEvent(event: Output)
      modifies this
      ensures Abstract() == old(Abstract()).(tables := Absorbed(old(Abstract()).tables, event))
    {
      match event {
        case TradeOut(t) =>
          var buys := t.aggressor.Buy?;
          AddPosition(t.takerAccount, t.instrument, if buys then t.quantity else 0 - t.quantity);
          AddPosition(t.makerAccount, t.instrument, if buys then 0 - t.quantity else t.quantity);
        case ReportOut(r) => ApplyReport(r);
        case StateOut(_, _, _, _) =>
      }
    }
  }

  lemma {:induction false} DeliverSplit(p: Reader, events: seq<Output>, k: nat)
    requires k <= |events|
    ensures DeliverAll(p, events) == DeliverAll(DeliverAll(p, events[..k]), events[k..])
    decreases |events|
  {
    hide Deliver;
    if k == |events| {
      assert events[..k] == events && events[k..] == [];
    } else {
      var n := |events| - 1;
      DeliverSplit(p, events[..n], k);
      assert events[..n][..k] == events[..k];
      assert events[..n][k..] == events[k..][..n - k];
      assert events[k..][|events[k..]| - 1] == events[n];
    }
  }
}
