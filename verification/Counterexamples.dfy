/** Runs from a fresh engine that show where a promise fails, one for each exact
    condition proved elsewhere. */
module Counterexamples {
  import opened Domain
  import opened PriceTime
  import opened Ledger
  import opened Core
  import opened Outputs
  import opened Runs
  import opened Retries
  import opened Scenario
  import opened Collar
  import opened Projecting
  import opened OrdersTable
  import Market
  import Cache

  lemma RunThen(s: State, xs: seq<Input>, x: Input)
    ensures var e, last := Runs.Run(s, xs), Step(Runs.Run(s, xs).state, x);
      Runs.Run(s, xs + [x]) == Emitted(last.state, e.out + last.out)
  {
    hide Step;
    assert (xs + [x])[..|xs|] == xs;
  }

  // ---- three messages open the market -------------------------------------

  function At0(event: Event): Input {
    Input(0, 0, event)
  }

  function Opening3(price: i64): seq<Input> {
    [At0(Says(SnapshotBegin(1)))] + [At0(Says(SnapshotEnd(1, 0)))] + [At0(Says(MarketTrade(Buy, price, 1)))]
  }

  lemma OpenMarket(price: i64)
    requires 1 <= price <= 2000
    ensures var s := Runs.Run(Morning(), Opening3(price)).state;
      Ready(s, price, 3) && BookAt(s.desk, 0) == EmptyBook && s.desk.live == map[] && s.desk.clients == map[] && s.nextOrder == 0
      && forall a: nat :: a < 3 ==> Untouched(s, a)
  {
    hide Step, Market.Apply, Trading, Morning;
    Opened();
    var s0 := Morning();
    var x1, x2, x3 := At0(Says(SnapshotBegin(1))), At0(Says(SnapshotEnd(1, 0))), At0(Says(MarketTrade(Buy, price, 1)));
    assert Runs.Run(s0, []) == Emitted(s0, []);
    RunThen(s0, [], x1);
    assert [] + [x1] == [x1];
    RunThen(s0, [x1], x2);
    RunThen(s0, [x1] + [x2], x3);
    var s1 := Step(s0, x1).state;
    var s2 := Step(s1, x2).state;
    MarketStep(s0, 0, SnapshotBegin(1), x1);
    MarketStep(s1, 1, SnapshotEnd(1, 0), x2);
    MarketStep(s2, 2, MarketTrade(Buy, price, 1), x3);
    ViewOpens(price, 0, 0, 0);
    forall a: nat | a < 3 ensures Untouched(Step(s2, x3).state, a) {
      assert Untouched(s0, a);
    }
  }

  // ---- a trade beyond the collar on the better side -----------------------

  /** A sale rests at 100, the reference moves to 1000, and a purchase limited to
      1000 with a collar of 10 trades at 100. */
  lemma BetterThanCollar() returns (inputs: seq<Input>, r: Request)
    ensures var s := Runs.Run(Morning(), inputs).state;
      && s.fault.None? && !AllInBand(s, r, TradesOf(ApplyRequest(s, r).out))
  {
    hide Step, ApplyRequest, TradesOf, Morning, Offers, Ready, Untouched;
    r := LimitOrderOf(2, 1, Buy, 1000, 1);
    OpenMarket(SALE_PRICE);
    var opening := Opening3(SALE_PRICE);
    var x, y := At0(OrderInput(Sale())), At0(Says(MarketTrade(Buy, 1000, 1)));
    inputs := opening + [x] + [y];
    RunThen(Morning(), opening, x);
    RunThen(Morning(), opening + [x], y);
    var s3 := Runs.Run(Morning(), opening).state;
    var s4 := Step(s3, x).state;
    var s5 := Step(s4, y).state;
    var o := SaleRests(s3, 3, x);
    OfferMoves(s4, SALE_PRICE, 5, o, 1000, y);
    PurchaseTrades(s5, 1000, 6, o, r);
    NotInBand(s5, 1000, 6, o, r, TradesOf(ApplyRequest(s5, r).out));
  }

  lemma NotInBand(s: State, price: i64, n: nat, o: Order, r: Request, trades: seq<Trade>)
    requires Offers(s, price, n, o) && r.account == 2 && r.instrument == 1
    requires trades != [] && Abs(trades[0].price - price) > 10
    ensures s.fault.None? && !AllInBand(s, r, trades)
  {
    assert Market.ReferencePrice(s.views[0]) == Some(price);
    assert !InBand(s, r, trades[0]);
  }

  // ---- a remainder that is reported and refused ---------------------------

  /** A report of a working order that is not live breaks the orders table. */
  lemma StaleRow(out: seq<Output>, r: Report, d: Desk)
    requires r.reject.None? && r.orderId != 0 && r.state.Working? && r.orderId !in d.live
    ensures !Mirrors(Fold(NoTables, out + [ReportOut(r)]).orders, d)
  {
    FoldLast(NoTables, out, r);
    assert r.orderId in Fold(NoTables, out + [ReportOut(r)]).orders;
  }

  /** Three accounts bid at one price; the level would exceed 64 bits with the third
      bid, which is accepted, reported and never rests. */
  lemma RefusedRemainder() returns (inputs: seq<Input>)
    ensures var e := Runs.Run(Morning(), inputs);
      e.state.fault.None? && !Mirrors(Fold(NoTables, e.out).orders, e.state.desk)
  {
    hide Step, Morning, Bidding, Untouched, Mirrors, Fold, Bid;
    OpenMarket(1);
    var opening := Opening3(1);
    var x, y, z := At0(OrderInput(Bid(1, I64_MAX))), At0(OrderInput(Bid(2, I64_MAX))), At0(OrderInput(Bid(3, 2)));
    inputs := opening + [x] + [y] + [z];
    RunThen(Morning(), opening, x);
    RunThen(Morning(), opening + [x], y);
    RunThen(Morning(), opening + [x] + [y], z);
    var s3 := Runs.Run(Morning(), opening).state;
    var s4 := Step(s3, x).state;
    var s5 := Step(s4, y).state;
    NoBids(s3);
    BidStep(s3, 3, 0, 0, 0, I64_MAX, x);
    BidStep(s4, 5, I64_MAX, 1, 1, I64_MAX, y);
    BidStep(s5, 7, 2 * I64_MAX, 2, 2, 2, z);
    LiveBids(s5, 7, 2 * I64_MAX, 2);
    var last := Step(s5, z);
    assert last.out == [ReportOut(last.out[0].report)];
    StaleRow(Runs.Run(Morning(), opening + [x] + [y]).out, last.out[0].report, last.state.desk);
  }

  lemma NoBids(s: State)
    requires Ready(s, 1, 3) && BookAt(s.desk, 0) == EmptyBook && s.desk.live == map[] && s.nextOrder == 0
    ensures Bidding(s, 3, 0, 0)
  {
  }

  lemma LiveBids(s: State, n: nat, lots: nat, count: nat)
    requires Bidding(s, n, lots, count)
    ensures forall id :: id in s.desk.live ==> id <= count
  {
  }

  // ---- a retry that resurrects a row --------------------------------------

  /** An order is accepted and cancelled; sent again, its remembered report puts the
      row back although nothing rests. */
  lemma RetryBreaksTable() returns (inputs: seq<Input>)
    ensures var e := Runs.Run(Morning(), inputs);
      e.state.fault.None? && !Mirrors(Fold(NoTables, e.out).orders, e.state.desk)
  {
    hide Step, Morning, Sold, Ready, Mirrors, Fold, Sale, Cancellation;
    OpenMarket(SALE_PRICE);
    var opening := Opening3(SALE_PRICE);
    var x, y := At0(OrderInput(Sale())), At0(OrderInput(Cancellation()));
    inputs := opening + [x] + [y] + [x];
    RunThen(Morning(), opening, x);
    RunThen(Morning(), opening + [x], y);
    RunThen(Morning(), opening + [x] + [y], x);
    var s3 := Runs.Run(Morning(), opening).state;
    var s4 := Step(s3, x).state;
    var s5 := Step(s4, y).state;
    var o, report := SaleSold(s3, 3, x);
    CancelStep(s4, 5, o, report, y);
    Repeats(s5, report, x);
    SoldReport(s4, 5, o, report);
    var last := Step(s5, x);
    assert last.out == [ReportOut(last.out[0].report)];
    StaleRow(Runs.Run(Morning(), opening + [x] + [y]).out, last.out[0].report, last.state.desk);
  }

  lemma SoldReport(s: State, n: nat, o: Order, report: Report)
    requires Sold(s, n, o, report)
    ensures report.orderId != 0 && report.reject.None? && report.state.Working?
  {
  }

  lemma OldestRetained(cache: seq<Cached>, e: Cached)
    requires |cache| == 2 && cache[0] == e && cache[1].requestId != e.requestId
    ensures Retained(cache, e, 1)
  {
    assert Cache.Newest(cache, 0) && cache[0] == e;
  }

  lemma Repeats(s: State, report: Report, input: Input)
    requires s.fault.None? && s.cfg == Small() && s.engineSeq < 100 && s.outputSeq < U64_MAX && |s.accounts| == 3
    requires |s.accounts[0].cache| == 2 && s.accounts[0].cache[0] == Cached(1, 0, report) && s.accounts[0].cache[1].requestId == 2
    requires input.event == OrderInput(Sale())
    ensures var e := Step(s, input);
      && e.state.fault.None? && e.state.desk == s.desk && |e.out| == 1 && e.out[0].ReportOut?
      && e.out[0].report == report.(outputSeq := e.state.outputSeq, engineSeq := e.state.engineSeq, timeNs := e.state.time)
  {
    hide Handle, CacheRecord, CacheLookup, Retained;
    assert Small().accountIds.index[1] == 0;
    var cache := s.accounts[0].cache;
    OldestRetained(cache, Cached(1, 0, report));
    RetainedHits(cache, Cached(1, 0, report), 1);
    RetryRepeats(s, input, 0, Cached(1, 0, report), 1);
  }
}
