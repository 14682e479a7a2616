/** Whole runs of the trading core: the invariant of every reachable state,
    stated as the promises the engine makes. */
module Runs {
  import opened Domain
  import opened PriceTime
  import opened Ledger
  import opened Accounts
  import opened Core
  import opened Safety
  import opened Outputs
  import opened History
  import opened Halts
  import Market

  /** What an account starts with. */
  datatype Opening = Opening(enabled: bool, limits: Limits)

  function OpenAccount(o: Opening): Account {
    Account(o.enabled, o.limits, 0, [])
  }

  function OpenDesk(accounts: nat, instruments: nat): (d: Desk)
    ensures |d.books| == instruments && |d.positions| == accounts && d.live == map[] && d.clients == map[]
    ensures forall i: nat :: BookAt(d, i) == EmptyBook
    ensures forall a :: 0 <= a < accounts ==> |d.positions[a]| == instruments
    ensures forall a: nat, i: nat :: Pos(d, a, i) == Flat
  {
    Desk(seq(instruments, i => EmptyBook), seq(accounts, a => seq(instruments, i => Flat)), map[], map[])
  }

  function Initial(cfg: Config, openings: seq<Opening>, depth: nat): (s: State)
    requires |openings| == |cfg.accountIds.ids|
    ensures |s.accounts| == |openings| && forall a :: 0 <= a < |openings| ==> s.accounts[a] == OpenAccount(openings[a])
    ensures |s.views| == |cfg.instruments|
  {
    State(cfg, OpenDesk(|openings|, |cfg.instruments|),
          seq(|cfg.instruments|, i requires 0 <= i < |cfg.instruments| =>
                Market.NewView(cfg.instruments[i].lo, cfg.instruments[i].hi, depth)),
          seq(|openings|, a requires 0 <= a < |openings| => OpenAccount(openings[a])),
          false, 0, 0, 0, 0, 0, 0, None)
  }

  /** Everything a sequence of inputs does. */
  ghost function Run(s: State, inputs: seq<Input>): Emitted
    decreases |inputs|
  {
    if inputs == [] then Emitted(s, [])
    else
      var before := Run(s, inputs[..|inputs| - 1]);
      var last := Step(before.state, inputs[|inputs| - 1]);
      Emitted(last.state, before.out + last.out)
  }

  ghost predicate AllWithin(cfg: Config, inputs: seq<Input>, caps: seq<Cap>) {
    forall k :: 0 <= k < |inputs| ==> Within(cfg, inputs[k], caps)
  }

  ghost predicate OpeningsWithin(openings: seq<Opening>, caps: seq<Cap>) {
    && |caps| == |openings|
    && forall a :: 0 <= a < |caps| ==>
         && openings[a].limits.maxPositionLots <= caps[a].position
         && openings[a].limits.maxGrossExposure <= caps[a].gross
  }

  lemma {:induction false} FlatGross(ps: seq<Position>)
    requires forall i :: 0 <= i < |ps| ==> ps[i] == Flat
    ensures GrossOf(ps) == 0
  {
    if ps != [] {
      FlatGross(ps[1..]);
    }
  }

  lemma InitialGood(cfg: Config, openings: seq<Opening>, depth: nat, caps: seq<Cap>)
    requires |openings| == |cfg.accountIds.ids| && OpeningsWithin(openings, caps)
    ensures Good(Initial(cfg, openings, depth), caps)
  {
    var s := Initial(cfg, openings, depth);
    var d, r := s.desk, cfg.accountIds;
    assert Orderly(EmptyBook) && BookOk(EmptyBook, 0, 0);
    forall a, i, side, m | 0 <= a < |r.ids| && 0 <= i < |d.books| ensures ReservedAt(r, d, a, i, side, m) {
      assert BookAt(d, i).Of(side) == [];
    }
    forall a, i | 0 <= a < |caps| && 0 <= i < |d.books| ensures RoomFor(d, caps, Idle, a, i) {
      assert Pos(d, a, i) == Flat;
    }
    forall a | 0 <= a < |caps| ensures GrossFor(d, caps, Idle, a) {
      forall i | 0 <= i < |d.positions[a]| ensures d.positions[a][i] == Flat {
        assert Pos(d, a, i) == Flat;
      }
      FlatGross(d.positions[a]);
    }
  }

  lemma {:induction false} RunFine(s: State, inputs: seq<Input>, caps: seq<Cap>)
    requires Fine(s, caps) && AllWithin(s.cfg, inputs, caps)
    ensures Fine(Run(s, inputs).state, caps) && Run(s, inputs).state.cfg == s.cfg
    decreases |inputs|
  {
    hide Fine, Step, Within;
    if inputs != [] {
      var n := |inputs| - 1;
      assert AllWithin(s.cfg, inputs[..n], caps);
      RunFine(s, inputs[..n], caps);
      StepFine(Run(s, inputs[..n]).state, caps, inputs[n]);
    }
  }

  // ---- the largest limits in force ----------------------------------------

  function Larger(a: Cap, limits: Limits): Cap {
    Cap(if limits.maxPositionLots > a.position then limits.maxPositionLots else a.position,
        if limits.maxGrossExposure > a.gross then limits.maxGrossExposure else a.gross)
  }

  /** The largest limits ever in force for one account. */
  function Peak(account: u32, opening: Limits, inputs: seq<Input>): Cap
    decreases |inputs|
  {
    if inputs == [] then Cap(opening.maxPositionLots, opening.maxGrossExposure)
    else
      var last, before := inputs[|inputs| - 1].event, Peak(account, opening, inputs[..|inputs| - 1]);
      if last.ControlInput? && last.command.SetAccountLimits? && last.command.account == account
      then Larger(before, last.command.limits) else before
  }

  function Peaks(cfg: Config, openings: seq<Opening>, inputs: seq<Input>): (caps: seq<Cap>)
    requires |openings| == |cfg.accountIds.ids|
    ensures |caps| == |openings|
    ensures forall a :: 0 <= a < |caps| ==> caps[a] == Peak(cfg.accountIds.ids[a], openings[a].limits, inputs)
  {
    seq(|openings|, a requires 0 <= a < |openings| => Peak(cfg.accountIds.ids[a], openings[a].limits, inputs))
  }

  lemma {:induction false} PeakCovers(account: u32, opening: Limits, inputs: seq<Input>, k: nat)
    requires k < |inputs|
    ensures var p, e := Peak(account, opening, inputs), inputs[k].event;
      e.ControlInput? && e.command.SetAccountLimits? && e.command.account == account ==>
        e.command.limits.maxPositionLots <= p.position && e.command.limits.maxGrossExposure <= p.gross
    decreases |inputs|
  {
    var n := |inputs| - 1;
    if k < n {
      PeakCovers(account, opening, inputs[..n], k);
    }
  }

  lemma {:induction false} PeakCoversOpening(account: u32, opening: Limits, inputs: seq<Input>)
    ensures var p := Peak(account, opening, inputs);
      opening.maxPositionLots <= p.position && opening.maxGrossExposure <= p.gross
    decreases |inputs|
  {
    if inputs != [] {
      PeakCoversOpening(account, opening, inputs[..|inputs| - 1]);
    }
  }

  lemma PeaksCover(cfg: Config, openings: seq<Opening>, inputs: seq<Input>)
    requires |openings| == |cfg.accountIds.ids|
    ensures OpeningsWithin(openings, Peaks(cfg, openings, inputs))
    ensures AllWithin(cfg, inputs, Peaks(cfg, openings, inputs))
  {
    hide Peak;
    forall a | 0 <= a < |openings|
      ensures openings[a].limits.maxPositionLots <= Peaks(cfg, openings, inputs)[a].position
      ensures openings[a].limits.maxGrossExposure <= Peaks(cfg, openings, inputs)[a].gross
    {
      PeakCoversOpening(cfg.accountIds.ids[a], openings[a].limits, inputs);
    }
    forall k | 0 <= k < |inputs| ensures Within(cfg, inputs[k], Peaks(cfg, openings, inputs)) {
      var e := inputs[k].event;
      if e.ControlInput? && e.command.SetAccountLimits? && e.command.account in cfg.accountIds.index {
        var a := cfg.accountIds.index[e.command.account];
        PeakCovers(cfg.accountIds.ids[a], openings[a].limits, inputs, k);
      }
    }
  }

  // ---- the promises -------------------------------------------------------

  /** Every state a run reaches is fine under its own peak limits. */
  lemma Reachable(cfg: Config, openings: seq<Opening>, depth: nat, inputs: seq<Input>)
    requires |openings| == |cfg.accountIds.ids|
    ensures Fine(Run(Initial(cfg, openings, depth), inputs).state, Peaks(cfg, openings, inputs))
    ensures Run(Initial(cfg, openings, depth), inputs).state.cfg == cfg
  {
    hide Good, Initial;
    var s, caps := Initial(cfg, openings, depth), Peaks(cfg, openings, inputs);
    PeaksCover(cfg, openings, inputs);
    InitialGood(cfg, openings, depth, caps);
    InitialClean(cfg, openings, depth);
    RunFine(s, inputs, caps);
  }

  lemma InitialClean(cfg: Config, openings: seq<Opening>, depth: nat)
    requires |openings| == |cfg.accountIds.ids|
    ensures Initial(cfg, openings, depth).fault.None? && Initial(cfg, openings, depth).cfg == cfg
  {
  }

  /** No input sequence drives the engine into an accounting fault or into a
      failed expectation. */
  lemma NoAccountingFault(cfg: Config, openings: seq<Opening>, depth: nat, inputs: seq<Input>)
    requires |openings| == |cfg.accountIds.ids|
    ensures var f := Run(Initial(cfg, openings, depth), inputs).state.fault;
      f != Some(Accounting) && f != Some(Panic)
  {
    hide Run, Good;
    Reachable(cfg, openings, depth, inputs);
  }

  /** Each reservation is the sum of what the account's resting orders have
      left, in lots and in notional. */
  lemma ReservationsMatchBooks(cfg: Config, openings: seq<Opening>, depth: nat, inputs: seq<Input>,
                               a: nat, i: nat, side: Side)
    requires |openings| == |cfg.accountIds.ids| && a < |openings| && i < |cfg.instruments|
    ensures var s := Run(Initial(cfg, openings, depth), inputs).state;
      s.fault.None? ==>
        && i < |s.desk.books| && a < |s.desk.positions| && i < |s.desk.positions[a]|
        && s.desk.positions[a][i].Open(side) == Sum(s.desk.books[i].Of(side), Weight(InLots, cfg.accountIds.ids[a]))
        && s.desk.positions[a][i].Notional(side) == Sum(s.desk.books[i].Of(side), Weight(InNotional, cfg.accountIds.ids[a]))
  {
    hide Run, Orderlies, Keyed, Roomy, BooksOk, Sum;
    Reachable(cfg, openings, depth, inputs);
    var s := Run(Initial(cfg, openings, depth), inputs).state;
    if s.fault.None? {
      assert ReservedAt(cfg.accountIds, s.desk, a, i, side, InLots);
      assert ReservedAt(cfg.accountIds, s.desk, a, i, side, InNotional);
    }
  }

  /** An id is live exactly when some book holds it, its registration says
      which, and the client key of that order and of no other leads to it. */
  lemma RegistriesMatchBooks(cfg: Config, openings: seq<Opening>, depth: nat, inputs: seq<Input>, id: u64)
    requires |openings| == |cfg.accountIds.ids|
    ensures var s := Run(Initial(cfg, openings, depth), inputs).state;
      s.fault.None? ==>
        && (id in s.desk.live <==> exists i: nat :: Lookup(BookAt(s.desk, i), id).Some?)
        && (forall i: nat :: Lookup(BookAt(s.desk, i), id).Some? ==>
              var o := Lookup(BookAt(s.desk, i), id).value;
              && o.owner.account in cfg.accountIds.index
              && s.desk.live[id] == LiveOrder(cfg.accountIds.index[o.owner.account], i)
              && forall key :: key in s.desk.clients && s.desk.clients[key] == id <==> key == o.owner)
  {
    hide Run, Orderlies, Reserved, Roomy, BooksOk, Keyed, BookAt, Lookup;
    Reachable(cfg, openings, depth, inputs);
    var s := Run(Initial(cfg, openings, depth), inputs).state;
    if s.fault.None? {
      if id in s.desk.live {
        LiveRests(cfg.accountIds, s.desk, id);
      }
      forall i: nat | Lookup(BookAt(s.desk, i), id).Some?
        ensures var o := Lookup(BookAt(s.desk, i), id).value;
          && o.owner.account in cfg.accountIds.index && id in s.desk.live
          && s.desk.live[id] == LiveOrder(cfg.accountIds.index[o.owner.account], i)
          && forall key :: key in s.desk.clients && s.desk.clients[key] == id <==> key == o.owner
      {
        Registered(cfg.accountIds, s.desk, i, id);
        forall key | key in s.desk.clients && s.desk.clients[key] == id
          ensures key == Lookup(BookAt(s.desk, i), id).value.owner
        {
          ClientOrder(cfg.accountIds, s.desk, key);
        }
      }
    }
  }

  lemma LiveRests(r: Roster, d: Desk, id: u64)
    requires Keyed(r, d) && id in d.live
    ensures Lookup(BookAt(d, d.live[id].instrument), id).Some?
  {
    assert LiveOk(r, d, id);
  }

  /** Positions with everything working on either side stay within the largest
      position limit, and working notional within the largest gross limit,
      that was ever in force for the account. */
  lemma LimitsHold(cfg: Config, openings: seq<Opening>, depth: nat, inputs: seq<Input>, a: nat, i: nat)
    requires |openings| == |cfg.accountIds.ids| && a < |openings| && i < |cfg.instruments|
    ensures var s := Run(Initial(cfg, openings, depth), inputs).state;
      var peak := Peak(cfg.accountIds.ids[a], openings[a].limits, inputs);
      s.fault.None? ==>
        && a < |s.desk.positions| && i < |s.desk.positions[a]|
        && var p := s.desk.positions[a][i];
        && p.lots + p.openBuy <= peak.position && p.lots - p.openSell >= 0 - peak.position
        && GrossOf(s.desk.positions[a]) <= peak.gross
  {
    hide Run, Orderlies, Keyed, Reserved, BooksOk, Peak, GrossOf;
    Reachable(cfg, openings, depth, inputs);
    var s := Run(Initial(cfg, openings, depth), inputs).state;
    var caps := Peaks(cfg, openings, inputs);
    if s.fault.None? {
      assert RoomFor(s.desk, caps, Idle, a, i);
      assert GrossFor(s.desk, caps, Idle, a);
    }
  }

  /** Whatever is working may fill completely: the position with all working buys,
      and with all working sells, fits 64 signed bits. */
  lemma PositionsFit(cfg: Config, openings: seq<Opening>, depth: nat, inputs: seq<Input>, a: nat, i: nat)
    requires |openings| == |cfg.accountIds.ids| && a < |openings| && i < |cfg.instruments|
    ensures var s := Run(Initial(cfg, openings, depth), inputs).state;
      s.fault.None? ==>
        && a < |s.desk.positions| && i < |s.desk.positions[a]|
        && var p := s.desk.positions[a][i];
        && p.lots + p.openBuy <= I64_MAX && p.lots - p.openSell >= I64_MIN
  {
    hide Run, Orderlies, Keyed, Reserved, BooksOk;
    Reachable(cfg, openings, depth, inputs);
    var s := Run(Initial(cfg, openings, depth), inputs).state;
    if s.fault.None? {
      assert RoomFor(s.desk, Peaks(cfg, openings, inputs), Idle, a, i);
    }
  }

  /** Every reachable book is uncrossed, and within a price strictly ordered by
      priority. */
  lemma BooksStayUncrossed(cfg: Config, openings: seq<Opening>, depth: nat, inputs: seq<Input>, i: nat)
    requires |openings| == |cfg.accountIds.ids| && i < |cfg.instruments|
    ensures var s := Run(Initial(cfg, openings, depth), inputs).state;
      s.fault.None? ==>
        i < |s.desk.books| && Uncrossed(s.desk.books[i]) && Ordered(Buy, s.desk.books[i].bids) && Ordered(Sell, s.desk.books[i].asks)
  {
    hide Run, Keyed, Reserved, Roomy, Uncrossed, Ordered;
    Reachable(cfg, openings, depth, inputs);
    var s := Run(Initial(cfg, openings, depth), inputs).state;
    if s.fault.None? {
      assert BookOk(BookAt(s.desk, i), s.nextOrder, s.nextPriority);
      assert Orderly(BookAt(s.desk, i));
    }
  }

  lemma {:induction false} RunStreamed(s: State, inputs: seq<Input>)
    requires s.fault.None?
    ensures Streamed(s, Run(s, inputs).state, Run(s, inputs).out)
    decreases |inputs|
  {
    hide Step, Streamed;
    StreamedSame(s, s);
    if inputs != [] {
      var n := |inputs| - 1;
      var before := Run(s, inputs[..n]);
      RunStreamed(s, inputs[..n]);
      if before.state.fault.None? {
        StepStreamed(before.state, inputs[n]);
        StreamedThen(s, before.state, Step(before.state, inputs[n]).state, before.out, Step(before.state, inputs[n]).out);
      } else {
        StepFaulted(before.state, inputs[n]);
        assert Streamed(s, Run(s, inputs).state, Run(s, inputs).out) by { FaultStreams(s, Run(s, inputs).state, Run(s, inputs).out); }
      }
    }
  }

  lemma StepFaulted(s: State, input: Input)
    requires s.fault.Some?
    ensures Step(s, input) == Emitted(s, [])
  {
  }

  lemma FaultStreams(s: State, e: State, out: seq<Output>)
    requires e.fault.Some?
    ensures Streamed(s, e, out)
  {
  }

  /** Over a fault-free run the events carry 1, 2, 3, … and the trades too. */
  lemma OutputsAreDense(cfg: Config, openings: seq<Opening>, depth: nat, inputs: seq<Input>)
    requires |openings| == |cfg.accountIds.ids|
    ensures var e := Run(Initial(cfg, openings, depth), inputs);
      e.state.fault.None? ==>
        && (forall k :: 0 <= k < |e.out| ==> e.out[k].Seq() == k + 1)
        && (forall k :: 0 <= k < |TradesOf(e.out)| ==> TradesOf(e.out)[k].tradeId == k + 1)
        && e.state.outputSeq == |e.out| && e.state.nextTrade == |TradesOf(e.out)|
  {
    hide Run;
    InitialClean(cfg, openings, depth);
    RunStreamed(Initial(cfg, openings, depth), inputs);
  }

  // ---- the trades of a run ------------------------------------------------

  lemma RunFault(s: State, inputs: seq<Input>)
    requires inputs != [] && Run(s, inputs).state.fault.None?
    ensures Run(s, inputs[..|inputs| - 1]).state.fault.None?
  {
    hide ApplyMarket, ApplyRequest, ApplyControl;
    StepFaultedOnly(Run(s, inputs[..|inputs| - 1]).state, inputs[|inputs| - 1]);
  }

  lemma StepFaultedOnly(s: State, input: Input)
    ensures s.fault.Some? ==> Step(s, input) == Emitted(s, [])
  {
  }

  lemma {:induction false} RunAccounted(cfg: Config, openings: seq<Opening>, depth: nat, inputs: seq<Input>)
    requires |openings| == |cfg.accountIds.ids|
    ensures var e := Run(Initial(cfg, openings, depth), inputs);
      e.state.fault.None? ==> Accounted(cfg, e.state.desk, TradesOf(e.out)) && Known(cfg, TradesOf(e.out), e.state.nextOrder)
    decreases |inputs|
  {
    hide Step, Accounted, Known, Good, TradesOf, Initial, Peaks;
    var s := Initial(cfg, openings, depth);
    if inputs == [] {
      InitialAccounted(cfg, openings, depth);
    } else if Run(s, inputs).state.fault.None? {
      var n := |inputs| - 1;
      var before := Run(s, inputs[..n]);
      RunFault(s, inputs);
      RunAccounted(cfg, openings, depth, inputs[..n]);
      Reachable(cfg, openings, depth, inputs[..n]);
      var last := Step(before.state, inputs[n]);
      StepChronicle(before.state, Peaks(cfg, openings, inputs[..n]), inputs[n], TradesOf(before.out));
      TradesConcat(before.out, last.out);
      KnownThen(cfg, TradesOf(before.out), TradesOf(last.out), before.state.nextOrder, last.state.nextOrder);
    }
  }

  lemma KnownThen(cfg: Config, a: seq<Trade>, b: seq<Trade>, lower: u64, upper: u64)
    requires Known(cfg, a, lower) && Known(cfg, b, upper) && lower <= upper
    ensures Known(cfg, a + b, upper)
  {
  }

  lemma InitialAccounted(cfg: Config, openings: seq<Opening>, depth: nat)
    requires |openings| == |cfg.accountIds.ids|
    ensures TradesOf([]) == []
    ensures Accounted(cfg, Initial(cfg, openings, depth).desk, []) && Known(cfg, [], 0)
    ensures Initial(cfg, openings, depth).nextOrder == 0
  {
    var d := Initial(cfg, openings, depth).desk;
    forall a, i | 0 <= a < |cfg.accountIds.ids| && 0 <= i < |cfg.instruments| ensures LotsOk(cfg, d, [], a, i) {
      assert Pos(d, a, i) == Flat;
    }
    forall i: nat, id: u64 ensures FillOk(d, [], i, id) {
      assert BookAt(d, i) == EmptyBook;
    }
  }

  /** Every position is the signed sum of the account's trades. */
  lemma PositionsAreTrades(cfg: Config, openings: seq<Opening>, depth: nat, inputs: seq<Input>, a: nat, i: nat)
    requires |openings| == |cfg.accountIds.ids| && a < |openings| && i < |cfg.instruments|
    ensures var e := Run(Initial(cfg, openings, depth), inputs);
      e.state.fault.None? ==>
        Pos(e.state.desk, a, i).lots == Net(TradesOf(e.out), cfg.accountIds.ids[a], cfg.instruments[i].id)
  {
    hide Run, Net, Initial, TradesOf;
    RunAccounted(cfg, openings, depth, inputs);
    var e := Run(Initial(cfg, openings, depth), inputs);
    if e.state.fault.None? {
      assert LotsOk(cfg, e.state.desk, TradesOf(e.out), a, i);
    }
  }

  /** Every resting order has filled exactly what the trades naming it add up
      to, across replaces. */
  lemma FillsAreTrades(cfg: Config, openings: seq<Opening>, depth: nat, inputs: seq<Input>, i: nat, id: u64)
    requires |openings| == |cfg.accountIds.ids|
    ensures var e := Run(Initial(cfg, openings, depth), inputs);
      e.state.fault.None? && Lookup(BookAt(e.state.desk, i), id).Some? ==>
        Lookup(BookAt(e.state.desk, i), id).value.filled == Volume(TradesOf(e.out), id)
  {
    hide Run, Volume, Initial, TradesOf, Lookup;
    RunAccounted(cfg, openings, depth, inputs);
    var e := Run(Initial(cfg, openings, depth), inputs);
    if e.state.fault.None? {
      assert FillOk(e.state.desk, TradesOf(e.out), i, id);
    }
  }

  /** Net position of the first n accounts. */
  ghost function NetOfAll(cfg: Config, trades: seq<Trade>, n: nat, instrument: u32): int
    requires n <= |cfg.accountIds.ids|
  {
    if n == 0 then 0
    else NetOfAll(cfg, trades, n - 1, instrument) + Net(trades, cfg.accountIds.ids[n - 1], instrument)
  }

  ghost function ShareOfAll(cfg: Config, t: Trade, n: nat, instrument: u32): int
    requires n <= |cfg.accountIds.ids|
  {
    if n == 0 then 0
    else ShareOfAll(cfg, t, n - 1, instrument) + Share(t, cfg.accountIds.ids[n - 1], instrument)
  }

  /** The maker's and the taker's shares appear once each and cancel. */
  lemma {:induction false} SharesCancel(cfg: Config, t: Trade, n: nat, instrument: u32)
    requires n <= |cfg.accountIds.ids| && t.instrument == instrument
    requires t.makerAccount in cfg.accountIds.index && t.takerAccount in cfg.accountIds.index
    ensures ShareOfAll(cfg, t, n, instrument)
         == (if cfg.accountIds.index[t.makerAccount] < n then Signed(t.aggressor.Opposite(), t.quantity) else 0)
            + (if cfg.accountIds.index[t.takerAccount] < n then Signed(t.aggressor, t.quantity) else 0)
  {
    if n > 0 {
      SharesCancel(cfg, t, n - 1, instrument);
      assert cfg.accountIds.index[cfg.accountIds.ids[n - 1]] == n - 1;
    }
  }

  lemma {:induction false} NoShares(cfg: Config, t: Trade, n: nat, instrument: u32)
    requires n <= |cfg.accountIds.ids| && t.instrument != instrument
    ensures ShareOfAll(cfg, t, n, instrument) == 0
  {
    if n > 0 {
      NoShares(cfg, t, n - 1, instrument);
    }
  }

  lemma {:induction false} NetSplits(cfg: Config, trades: seq<Trade>, n: nat, instrument: u32)
    requires n <= |cfg.accountIds.ids| && trades != []
    ensures NetOfAll(cfg, trades, n, instrument)
         == ShareOfAll(cfg, trades[0], n, instrument) + NetOfAll(cfg, trades[1..], n, instrument)
  {
    if n > 0 {
      NetSplits(cfg, trades, n - 1, instrument);
    }
  }

  lemma {:induction false} NetsCancel(cfg: Config, trades: seq<Trade>, maxId: u64, instrument: u32)
    requires Known(cfg, trades, maxId)
    ensures NetOfAll(cfg, trades, |cfg.accountIds.ids|, instrument) == 0
    decreases |trades|
  {
    var n := |cfg.accountIds.ids|;
    if trades == [] {
      NoNets(cfg, n, instrument);
    } else {
      NetsCancel(cfg, trades[1..], maxId, instrument);
      NetSplits(cfg, trades, n, instrument);
      if trades[0].instrument == instrument {
        SharesCancel(cfg, trades[0], n, instrument);
      } else {
        NoShares(cfg, trades[0], n, instrument);
      }
    }
  }

  lemma {:induction false} NoNets(cfg: Config, n: nat, instrument: u32)
    requires n <= |cfg.accountIds.ids|
    ensures NetOfAll(cfg, [], n, instrument) == 0
  {
    if n > 0 {
      NoNets(cfg, n - 1, instrument);
    }
  }

  ghost function LotsOfAll(d: Desk, n: nat, i: nat): int {
    if n == 0 then 0 else LotsOfAll(d, n - 1, i) + Pos(d, n - 1, i).lots
  }

  lemma {:induction false} LotsAreNets(cfg: Config, d: Desk, trades: seq<Trade>, n: nat, i: nat)
    requires n <= |cfg.accountIds.ids| && i < |cfg.instruments| && Accounted(cfg, d, trades)
    ensures LotsOfAll(d, n, i) == NetOfAll(cfg, trades, n, cfg.instruments[i].id)
  {
    hide FillOk;
    if n > 0 {
      LotsAreNets(cfg, d, trades, n - 1, i);
      assert LotsOk(cfg, d, trades, n - 1, i);
    }
  }

  /** The positions of all accounts in an instrument sum to zero. */
  lemma PositionsSumToZero(cfg: Config, openings: seq<Opening>, depth: nat, inputs: seq<Input>, i: nat)
    requires |openings| == |cfg.accountIds.ids| && i < |cfg.instruments|
    ensures var s := Run(Initial(cfg, openings, depth), inputs).state;
      s.fault.None? ==> LotsOfAll(s.desk, |openings|, i) == 0
  {
    hide Run, Initial, TradesOf, Accounted, Known, NetOfAll, LotsOfAll;
    RunAccounted(cfg, openings, depth, inputs);
    var e := Run(Initial(cfg, openings, depth), inputs);
    if e.state.fault.None? {
      LotsAreNets(cfg, e.state.desk, TradesOf(e.out), |openings|, i);
      NetsCancel(cfg, TradesOf(e.out), e.state.nextOrder, cfg.instruments[i].id);
    }
  }

  /** Once an issued id is no longer live it never is again, and no later
      trade names it. */
  lemma {:induction false} TerminalStaysTerminal(cfg: Config, openings: seq<Opening>, depth: nat, inputs: seq<Input>,
                                                 n: nat, id: u64)
    requires |openings| == |cfg.accountIds.ids| && n <= |inputs|
    ensures var s0 := Initial(cfg, openings, depth);
      var s, e := Run(s0, inputs[..n]), Run(s0, inputs);
      e.state.fault.None? && id <= s.state.nextOrder && id !in s.state.desk.live ==>
        && s.state.nextOrder <= e.state.nextOrder
        && id !in e.state.desk.live
        && |TradesOf(s.out)| <= |TradesOf(e.out)|
        && forall k :: |TradesOf(s.out)| <= k < |TradesOf(e.out)| ==> !Names(TradesOf(e.out)[k], id)
    decreases |inputs|
  {
    hide Step, Accounted, Known, Good, TradesOf, Initial, Peaks;
    var s0 := Initial(cfg, openings, depth);
    if n == |inputs| {
      assert inputs[..n] == inputs;
    } else if Run(s0, inputs).state.fault.None? {
      var m := |inputs| - 1;
      var before := Run(s0, inputs[..m]);
      assert inputs[..m][..n] == inputs[..n];
      RunFault(s0, inputs);
      TerminalStaysTerminal(cfg, openings, depth, inputs[..m], n, id);
      RunAccounted(cfg, openings, depth, inputs[..m]);
      Reachable(cfg, openings, depth, inputs[..m]);
      var last := Step(before.state, inputs[m]);
      StepChronicle(before.state, Peaks(cfg, openings, inputs[..m]), inputs[m], TradesOf(before.out));
      TradesConcat(before.out, last.out);
      assert id <= before.state.nextOrder && id !in before.state.desk.live ==> !Current(before.state, id);
    }
  }

  // ---- halting ------------------------------------------------------------

  ghost predicate Halted(s: State, i: nat) {
    s.kill || !ViewAt(s, i).feed.Live?
  }

  ghost predicate NoTradeIn(trades: seq<Trade>, from: nat, instrument: u32) {
    forall k :: from <= k < |trades| ==> trades[k].instrument != instrument
  }

  ghost predicate LiveShrinks(d: Desk, d': Desk, i: nat) {
    forall id :: id in d'.live && d'.live[id].instrument == i ==> id in d.live && d.live[id] == d'.live[id]
  }

  lemma RequestHalted(s: State, r: Request, i: nat)
    requires Halted(s, i) && i < |s.cfg.instruments|
    ensures NoTradeIn(TradesOf(ApplyRequest(s, r).out), 0, s.cfg.instruments[i].id)
    ensures LiveShrinks(s.desk, ApplyRequest(s, r).state.desk, i)
  {
    hide ApplyRequest, TradesOf;
    RequestContained(s, r);
    if Open(s, r) {
      SharedInstrument(s.cfg, s.cfg.instrumentIds.index[r.instrument], i);
    }
  }

  lemma SharedInstrument(cfg: Config, i: nat, j: nat)
    requires i < |cfg.instruments| && j < |cfg.instruments|
    ensures cfg.instruments[i].id == cfg.instruments[j].id <==> i == j
  {
    assert cfg.instrumentIds.index[cfg.instrumentIds.ids[i]] == i && cfg.instrumentIds.index[cfg.instrumentIds.ids[j]] == j;
  }

  lemma StepHalted(s: State, input: Input, i: nat)
    requires Halted(s, i) && i < |s.cfg.instruments|
    ensures NoTradeIn(TradesOf(Step(s, input).out), 0, s.cfg.instruments[i].id)
    ensures LiveShrinks(s.desk, Step(s, input).state.desk, i)
  {
    hide ApplyRequest, ApplyMarket, ApplyControl, TradesOf;
    NoneTraded();
    if s.fault.None? {
      if input.event.OrderInput? {
        if Successor(s.engineSeq).Some? {
          RequestHalted(s.(engineSeq := s.engineSeq + 1, time := input.recvTimeNs), input.event.request, i);
        }
      } else {
        QuietStep(s, input);
      }
    }
  }

  lemma {:induction false} NetElsewhere(trades: seq<Trade>, from: nat, account: u32, instrument: u32)
    requires NoTradeIn(trades, from, instrument) && from <= |trades|
    ensures Net(trades, account, instrument) == Net(trades[..from], account, instrument)
    decreases |trades|
  {
    if from == |trades| {
      assert trades[..from] == trades;
    } else {
      var n := |trades| - 1;
      NetElsewhere(trades[..n], from, account, instrument);
      assert trades == trades[..n] + [trades[n]] && trades[..n][..from] == trades[..from];
      NetConcat(trades[..n], [trades[n]], account, instrument);
      NetOne(trades[n], account, instrument);
    }
  }

  /** Through any stretch of a run in which an instrument is halted before
      every input, by the kill switch or by its feed, the instrument does not
      trade and its live orders only disappear. */
  lemma {:induction false} HaltFreezes(cfg: Config, openings: seq<Opening>, depth: nat, inputs: seq<Input>, n: nat, i: nat)
    requires |openings| == |cfg.accountIds.ids| && n <= |inputs| && i < |cfg.instruments|
    requires forall m :: n <= m < |inputs| ==> Halted(Run(Initial(cfg, openings, depth), inputs[..m]).state, i)
    ensures var s0 := Initial(cfg, openings, depth);
      var s, e := Run(s0, inputs[..n]), Run(s0, inputs);
      && TradesOf(s.out) <= TradesOf(e.out)
      && NoTradeIn(TradesOf(e.out), |TradesOf(s.out)|, cfg.instruments[i].id)
      && LiveShrinks(s.state.desk, e.state.desk, i)
    decreases |inputs|
  {
    hide Step, TradesOf, Initial, Halted;
    var s0 := Initial(cfg, openings, depth);
    if n == |inputs| {
      assert inputs[..n] == inputs;
    } else {
      var m := |inputs| - 1;
      var before := Run(s0, inputs[..m]);
      assert inputs[..m][..n] == inputs[..n];
      forall k | n <= k < m ensures Halted(Run(s0, inputs[..m][..k]).state, i) {
        assert inputs[..m][..k] == inputs[..k];
      }
      HaltFreezes(cfg, openings, depth, inputs[..m], n, i);
      Reachable(cfg, openings, depth, inputs[..m]);
      StepHalted(before.state, inputs[m], i);
      TradesConcat(before.out, Step(before.state, inputs[m]).out);
    }
  }

  /** Nor does any position in it move. */
  lemma HaltFreezesPositions(cfg: Config, openings: seq<Opening>, depth: nat, inputs: seq<Input>, n: nat, i: nat, a: nat)
    requires |openings| == |cfg.accountIds.ids| && n <= |inputs| && i < |cfg.instruments| && a < |openings|
    requires forall m :: n <= m < |inputs| ==> Halted(Run(Initial(cfg, openings, depth), inputs[..m]).state, i)
    ensures var s0 := Initial(cfg, openings, depth);
      var s, e := Run(s0, inputs[..n]).state, Run(s0, inputs).state;
      e.fault.None? ==> Pos(e.desk, a, i).lots == Pos(s.desk, a, i).lots
  {
    hide Run, TradesOf, Initial, Halted, Net, Pos;
    var s0 := Initial(cfg, openings, depth);
    var s, e := Run(s0, inputs[..n]), Run(s0, inputs);
    if e.state.fault.None? {
      HaltFreezes(cfg, openings, depth, inputs, n, i);
      FaultFreePrefix(s0, inputs, n);
      PositionsAreTrades(cfg, openings, depth, inputs, a, i);
      PositionsAreTrades(cfg, openings, depth, inputs[..n], a, i);
      assert TradesOf(e.out)[..|TradesOf(s.out)|] == TradesOf(s.out);
      NetElsewhere(TradesOf(e.out), |TradesOf(s.out)|, cfg.accountIds.ids[a], cfg.instruments[i].id);
    }
  }

  lemma {:induction false} FaultFreePrefix(s: State, inputs: seq<Input>, n: nat)
    requires n <= |inputs| && Run(s, inputs).state.fault.None?
    ensures Run(s, inputs[..n]).state.fault.None?
    decreases |inputs|
  {
    hide Run;
    if n == |inputs| {
      assert inputs[..n] == inputs;
    } else {
      RunFault(s, inputs);
      assert inputs[..|inputs| - 1][..n] == inputs[..n];
      FaultFreePrefix(s, inputs[..|inputs| - 1], n);
    }
  }

  // ---- disabling an account -----------------------------------------------

  ghost predicate NoneTaken(trades: seq<Trade>, from: nat, account: u32) {
    forall k :: from <= k < |trades| ==> trades[k].takerAccount != account
  }

  ghost predicate OwnShrinks(d: Desk, d': Desk, a: nat) {
    forall id :: id in d'.live && d'.live[id].account == a ==> id in d.live && d.live[id] == d'.live[id]
  }

  lemma RequestDisabled(s: State, r: Request, a: nat)
    requires !AccountAt(s, a).enabled && a < |s.cfg.accountIds.ids|
    ensures NoneTaken(TradesOf(ApplyRequest(s, r).out), 0, s.cfg.accountIds.ids[a])
    ensures OwnShrinks(s.desk, ApplyRequest(s, r).state.desk, a)
  {
    hide ApplyRequest, TradesOf;
    RequestContained(s, r);
  }

  lemma StepDisabled(s: State, input: Input, a: nat)
    requires !AccountAt(s, a).enabled && a < |s.cfg.accountIds.ids|
    ensures NoneTaken(TradesOf(Step(s, input).out), 0, s.cfg.accountIds.ids[a])
    ensures OwnShrinks(s.desk, Step(s, input).state.desk, a)
  {
    hide ApplyRequest, ApplyMarket, ApplyControl, TradesOf;
    NoneTraded();
    if s.fault.None? {
      if input.event.OrderInput? {
        if Successor(s.engineSeq).Some? {
          RequestDisabled(s.(engineSeq := s.engineSeq + 1, time := input.recvTimeNs), input.event.request, a);
        }
      } else {
        QuietStep(s, input);
      }
    }
  }

  /** Through any stretch of a run in which an account is disabled before every
      input, it takes in no trade and its live orders only disappear. */
  lemma {:induction false} DisabledFreezes(cfg: Config, openings: seq<Opening>, depth: nat, inputs: seq<Input>, n: nat, a: nat)
    requires |openings| == |cfg.accountIds.ids| && n <= |inputs| && a < |openings|
    requires forall m :: n <= m < |inputs| ==> !AccountAt(Run(Initial(cfg, openings, depth), inputs[..m]).state, a).enabled
    ensures var s0 := Initial(cfg, openings, depth);
      var s, e := Run(s0, inputs[..n]), Run(s0, inputs);
      && TradesOf(s.out) <= TradesOf(e.out)
      && NoneTaken(TradesOf(e.out), |TradesOf(s.out)|, cfg.accountIds.ids[a])
      && OwnShrinks(s.state.desk, e.state.desk, a)
    decreases |inputs|
  {
    hide Step, TradesOf, Initial, AccountAt, NoneTaken, OwnShrinks;
    var s0 := Initial(cfg, openings, depth);
    if n == |inputs| {
      assert inputs[..n] == inputs;
      NothingTaken(TradesOf(Run(s0, inputs).out), Run(s0, inputs).state.desk, cfg.accountIds.ids[a], a);
    } else {
      var m := |inputs| - 1;
      var before, last := Run(s0, inputs[..m]), inputs[m];
      assert inputs[..m][..n] == inputs[..n];
      forall k | n <= k < m ensures !AccountAt(Run(s0, inputs[..m][..k]).state, a).enabled {
        assert inputs[..m][..k] == inputs[..k];
      }
      DisabledFreezes(cfg, openings, depth, inputs[..m], n, a);
      Reachable(cfg, openings, depth, inputs[..m]);
      StepDisabled(before.state, last, a);
      TradesConcat(before.out, Step(before.state, last).out);
      var s := Run(s0, inputs[..n]);
      TakenThen(TradesOf(s.out), TradesOf(before.out), TradesOf(Step(before.state, last).out), cfg.accountIds.ids[a]);
      OwnThen(s.state.desk, before.state.desk, Step(before.state, last).state.desk, a);
    }
  }

  lemma NothingTaken(trades: seq<Trade>, d: Desk, account: u32, a: nat)
    ensures NoneTaken(trades, |trades|, account) && OwnShrinks(d, d, a)
  {
  }

  lemma TakenThen(first: seq<Trade>, before: seq<Trade>, last: seq<Trade>, account: u32)
    requires first <= before && NoneTaken(before, |first|, account) && NoneTaken(last, 0, account)
    ensures first <= before + last && NoneTaken(before + last, |first|, account)
  {
  }

  lemma OwnThen(d: Desk, m: Desk, d': Desk, a: nat)
    requires OwnShrinks(d, m, a) && OwnShrinks(m, d', a)
    ensures OwnShrinks(d, d', a)
  {
  }
}
