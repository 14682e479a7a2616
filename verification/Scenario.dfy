/** A small market to run: three accounts with wide limits and one instrument
    whose feed is live with a last trade price. */
module Scenario {
  import opened Domain
  import opened PriceTime
  import opened Ledger
  import opened Core
  import opened Outputs
  import opened Runs
  import Market

  const Wide := Limits(U64_MAX, U128_MAX, U64_MAX, U128_MAX, 10)

  function Small(): (c: Config) {
    var c := RawConfig([InstrumentSpec(1, 1, 1, 1, 2000)], RawRoster([1], map[1 := 0]),
                       RawRoster([1, 2, 3], map[1 := 0, 2 := 1, 3 := 2]), 8, U64_MAX, 0, 4, (r: Request) => 0);
    c
  }

  function Openings(): (o: seq<Opening>)
    ensures |o| == 3
  {
    [Opening(true, Wide), Opening(true, Wide), Opening(true, Wide)]
  }

  function Morning(): State {
    Initial(Small(), Openings(), 1)
  }

  ghost predicate Counted(s: State, n: nat) {
    n < 100 && s.engineSeq <= n && s.outputSeq <= n && s.nextOrder <= n && s.nextTrade <= n && s.nextPriority <= n
  }

  /** Running over the small market, whatever its feed shows. */
  ghost predicate Running(s: State, n: nat) {
    && s.cfg == Small() && s.fault.None? && !s.kill && Counted(s, n)
    && |s.views| == 1 && |s.accounts| == 3 && |s.desk.books| == 1 && |s.desk.positions| == 3
    && forall a :: 0 <= a < 3 ==> |s.desk.positions[a]| == 1
  }

  /** The feed is live, nothing is quoted and the last trade was at this price. */
  ghost predicate Trading(v: Market.View, price: i64) {
    v.feed.Live? && v.shown == Market.NoQuotes && v.lastTrade == Some(price) && v.lo == 1 && v.hi == 2000
  }

  ghost predicate Ready(s: State, price: i64, n: nat) {
    Running(s, n) && Trading(s.views[0], price)
  }

  /** The account has done nothing yet. */
  ghost predicate Untouched(s: State, a: nat) {
    && a < 3 && a < |s.accounts| && s.accounts[a] == OpenAccount(Opening(true, Wide))
    && Pos(s.desk, a, 0) == Flat
    && forall key :: key in s.desk.clients ==> key.account != a + 1
  }

  function LimitOrderOf(account: u32, id: u64, side: Side, price: i64, quantity: u64): Request {
    Request(New, account, 1, id, 1, id, 0, side, LimitOrder, price, quantity)
  }

  // ---- one order ----------------------------------------------------------

  lemma ReferenceIsLast(s: State, price: i64, n: nat)
    requires Ready(s, price, n)
    ensures CheckReference(s, 0) == Pass(price)
  {
  }

  lemma ExposureFits(s: State, price: i64, n: nat, a: nat, side: Side, quantity: u64, at: i64)
    requires Ready(s, price, n) && Untouched(s, a) && 0 < quantity <= I64_MAX && 1 <= at <= 2000
    ensures CheckExposure(s, a, 0, side, quantity, at, 0, at) == None
  {
    NotionalFits(quantity, at);
    NotionalFits(0, at);
    var p := Flat.With(side, quantity, quantity * Abs(at));
    assert Project(Flat, side, quantity, quantity * Abs(at), 0, 0) == Some(p);
    assert Exposure(p, price) == Some(quantity * Abs(at));
    assert GrossFrom(s, a, 0, p, 1, quantity * Abs(at)) == Pass(quantity * Abs(at));
  }

  lemma OrderPasses(s: State, price: i64, n: nat, a: nat, r: Request)
    requires Ready(s, price, n) && Untouched(s, a)
    requires r == LimitOrderOf(a + 1, r.requestId, r.side, r.price, r.quantity)
    requires 0 < r.quantity <= I64_MAX && 1 <= r.price <= 2000 && Abs(r.price - price) <= 10
    requires BookAt(s.desk, 0).Size() < 8
    ensures CheckNew(s, r) == Pass(NewOrder(a, 0, r.price))
  {
    hide CheckExposure, CheckReference;
    ReferenceIsLast(s, price, n);
    ExposureFits(s, price, n, a, r.side, r.quantity, r.price);
    NotionalFits(r.quantity, r.price);
    assert Small().accountIds.index[(a + 1) as u32] == a;
  }

  /** The order a request would rest as. */
  function WouldRest(s: State, r: Request): Order
    requires s.nextOrder < U64_MAX && s.nextPriority < U64_MAX
  {
    Order(s.nextOrder + 1, Owner(r.account, r.clientOrderId), r.side, r.price, r.quantity, 0, s.nextPriority + 1)
  }

  function AcceptedReport(s: State, r: Request): Report
    requires s.nextOrder < U64_MAX && s.outputSeq < U64_MAX
  {
    BaseReport(s.(outputSeq := s.outputSeq + 1), r, s.nextOrder + 1)
  }

  lemma NothingToMatch(s: State, x: Taker, limit: i64)
    requires BookAt(s.desk, x.instrument).Of(x.side.Opposite()) == [] && x.instrument < |s.desk.books|
    ensures Execute(s, x, limit) == Emitted(s, []) && Filling(s, x, limit) == 0
  {
    var b, ms := BookAt(s.desk, x.instrument), x.side.Opposite();
    assert b.With(ms, []) == b;
    assert s.desk.books[x.instrument := b] == s.desk.books;
  }

  /** An order that meets nothing is accepted whole; it rests if the book admits
      it and is dropped otherwise. */
  lemma OrderRests(s: State, price: i64, n: nat, a: nat, r: Request)
    requires Ready(s, price, n) && Untouched(s, a)
    requires r == LimitOrderOf(a + 1, r.requestId, r.side, r.price, r.quantity)
    requires 0 < r.quantity <= I64_MAX && 1 <= r.price <= 2000 && Abs(r.price - price) <= 10
    requires BookAt(s.desk, 0).Size() < 8 && BookAt(s.desk, 0).Of(r.side.Opposite()) == []
    ensures var o, h := WouldRest(s, r), HandleNew(s, r);
      && h.out == [] && h.report == AcceptedReport(s, r)
      && h.state == s.(nextOrder := s.nextOrder + 1, nextPriority := s.nextPriority + 1, outputSeq := s.outputSeq + 1,
                       desk := if Admits(BookAt(s.desk, 0), o, 8) then Rest(s.desk, a, 0, o).desk else s.desk)
  {
    hide CheckNew, Execute, Filling, Admits, Rest, BookAt;
    OrderPasses(s, price, n, a, r);
    var x := Taker(a, 0, r, s.nextOrder + 1, r.side, r.quantity);
    NothingToMatch(s.(nextOrder := s.nextOrder + 1), x, r.price);
    NothingToMatch(s, x, r.price);
    RestFits(s, a, WouldRest(s, r));
  }

  lemma RestFits(s: State, a: nat, o: Order)
    requires a < |s.desk.positions| && |s.desk.positions[a]| > 0 && Pos(s.desk, a, 0) == Flat && o.filled <= o.total
    ensures Rest(s.desk, a, 0, o).ok
  {
    NotionalFits(o.Remaining(), o.price);
  }

  ghost predicate OthersUntouched(s: State, e: State, a: nat) {
    forall b: nat :: b != a && Untouched(s, b) ==> Untouched(e, b)
  }

  lemma DeskAfter(s: State, a: nat, r: Request)
    requires |s.desk.books| == 1 && a < |s.desk.positions| == 3 && s.nextOrder < U64_MAX && s.nextPriority < U64_MAX
    requires (forall b :: 0 <= b < 3 ==> |s.desk.positions[b]| == 1) && r.account == a + 1
    ensures var d, o := Rest(s.desk, a, 0, WouldRest(s, r)).desk, WouldRest(s, r);
      && |d.books| == 1 && BookAt(d, 0) == Insert(BookAt(s.desk, 0), o)
      && |d.positions| == 3 && (forall b :: 0 <= b < 3 ==> |d.positions[b]| == 1)
      && (forall b: nat :: b != a ==> Pos(d, b, 0) == Pos(s.desk, b, 0))
      && d.clients == s.desk.clients[o.owner := o.id] && d.live == s.desk.live[o.id := LiveOrder(a, 0)]
  {
    hide Insert, Reserve;
  }

  ghost predicate Modest(s: State, price: i64, a: nat, r: Request) {
    && a < 3 && r == LimitOrderOf(a + 1, r.requestId, r.side, r.price, r.quantity)
    && 0 < r.quantity <= I64_MAX && 1 <= r.price <= 2000 && Abs(r.price - price) <= 10
    && BookAt(s.desk, 0).Size() < 8 && BookAt(s.desk, 0).Of(r.side.Opposite()) == []
  }

  /** What an order that meets nothing leaves behind. */
  ghost predicate Placed(s: State, e: Emitted, price: i64, n: nat, a: nat, r: Request)
    requires Counted(s, n)
  {
    && Ready(e.state, price, n) && OthersUntouched(s, e.state, a)
    && |e.out| == 1 && e.out[0].ReportOut?
    && e.out[0].report == AcceptedReport(s, r).(engineSeq := e.state.engineSeq, timeNs := e.state.time)
    && e.state.desk == (if Admits(BookAt(s.desk, 0), WouldRest(s, r), 8) then Rest(s.desk, a, 0, WouldRest(s, r)).desk else s.desk)
    && a < |e.state.accounts| && e.state.accounts[a] == Account(true, Wide, 1, [Cached(r.requestId, 0, e.out[0].report)])
    && e.state.nextOrder == s.nextOrder + 1
  }

  /** The first request of an account is handled and remembered. */
  lemma FirstRequest(s: State, price: i64, n: nat, a: nat, r: Request)
    requires Ready(s, price, n) && Untouched(s, a) && r.account == a + 1
    ensures var h, e := Handle(s, r), ApplyRequest(s, r);
      e.out == h.out + [ReportOut(h.report)] && e.state == RecordOutcome(h.state, a, r, h.report)
  {
    hide Handle, RecordOutcome;
    assert Small().accountIds.index[(a + 1) as u32] == a;
  }

  lemma Remembered(s: State, a: nat, r: Request, report: Report)
    requires s.cfg == Small() && a < |s.accounts| && s.accounts[a] == OpenAccount(Opening(true, Wide))
    requires report.reject.None? && r.clientSeq == 1
    ensures RecordOutcome(s, a, r, report)
         == s.(accounts := s.accounts[a := Account(true, Wide, 1, [Cached(r.requestId, 0, report)])])
  {
    assert CacheRecord([], Cached(r.requestId, 0, report), 4) == [Cached(r.requestId, 0, report)];
  }

  lemma StillReady(s: State, e: State, price: i64, n: nat, a: nat, r: Request)
    requires Ready(s, price, n) && n < 99 && a < 3 && r.account == a + 1
    requires e == s.(nextOrder := s.nextOrder + 1, nextPriority := s.nextPriority + 1, outputSeq := s.outputSeq + 1,
                     desk := e.desk, accounts := e.accounts)
    requires e.desk == s.desk || e.desk == Rest(s.desk, a, 0, WouldRest(s, r)).desk
    requires |e.accounts| == 3 && forall b: nat :: b < 3 && b != a ==> e.accounts[b] == s.accounts[b]
    ensures Ready(e, price, n + 1) && OthersUntouched(s, e, a)
  {
    hide Rest, BookAt, Pos;
    DeskAfter(s, a, r);
  }

  lemma OrderApplied(s: State, price: i64, n: nat, a: nat, r: Request)
    requires Ready(s, price, n) && n < 99 && Untouched(s, a) && Modest(s, price, a, r)
    ensures Placed(s, ApplyRequest(s, r), price, n + 1, a, r)
  {
    hide HandleNew, ApplyRequest, RecordOutcome, Admits, Rest, BookAt, Pos, OthersUntouched;
    FirstRequest(s, price, n, a, r);
    OrderRests(s, price, n, a, r);
    var h := HandleNew(s, r);
    Remembered(h.state, a, r, h.report);
    assert [] + [ReportOut(h.report)] == [ReportOut(h.report)];
    StillReady(s, ApplyRequest(s, r).state, price, n, a, r);
  }

  lemma Ticked(s: State, price: i64, n: nat, a: nat, time: u64)
    requires Ready(s, price, n) && n < 98
    ensures var s1 := s.(engineSeq := s.engineSeq + 1, time := time);
      Ready(s1, price, n + 1) && OthersUntouched(s, s1, a) && (Untouched(s, a) ==> Untouched(s1, a))
  {
  }

  /** One accepted order as an input. */
  lemma OrderStep(s: State, price: i64, n: nat, a: nat, input: Input)
    requires Ready(s, price, n) && n < 97 && Untouched(s, a)
    requires input.event.OrderInput? && Modest(s, price, a, input.event.request)
    ensures Placed(s, Step(s, input), price, n + 2, a, input.event.request)
  {
    hide ApplyRequest, Admits, Rest, BookAt, Ready, Untouched;
    assert s.engineSeq < U64_MAX && s.fault.None? by { ReadyFacts(s, price, n); }
    var s1 := s.(engineSeq := s.engineSeq + 1, time := input.recvTimeNs);
    Ticked(s, price, n, a, input.recvTimeNs);
    OrderApplied(s1, price, n + 1, a, input.event.request);
  }

  lemma ReadyFacts(s: State, price: i64, n: nat)
    requires Ready(s, price, n)
    ensures s.fault.None? && Counted(s, n)
  {
  }

  lemma OneFill(s: State, x: Taker, limit: i64, o: Order)
    requires x.instrument < |s.desk.books| && BookAt(s.desk, x.instrument).Of(x.side.Opposite()) == [o]
    requires o.side == x.side.Opposite() && o.filled < o.total && o.Remaining() == x.quantity
    requires Eligible(o.side, o.price, limit)
    ensures Sweep(o.side, [o], limit, x.quantity).fills == [FillOf(o, x.quantity)]
  {
    assert [o][1..] == [];
    assert Match(o.side, [], limit, 0).fills == [];
  }

  /** An order that meets exactly one other trades with it at its price. */
  lemma OrderTrades(s: State, price: i64, n: nat, a: nat, r: Request, o: Order)
    requires Ready(s, price, n) && Untouched(s, a) && r == LimitOrderOf(a + 1, r.requestId, r.side, r.price, r.quantity)
    requires 0 < r.quantity <= I64_MAX && 1 <= r.price <= 2000 && Abs(r.price - price) <= 10
    requires BookAt(s.desk, 0).Size() < 8 && BookAt(s.desk, 0).Of(r.side.Opposite()) == [o]
    requires o.side == r.side.Opposite() && o.filled < o.total && o.Remaining() == r.quantity
    requires Eligible(o.side, o.price, r.price) && o.owner.account in s.cfg.accountIds.index
    ensures var trades := TradesOf(ApplyRequest(s, r).out);
      trades != [] && trades[0].price == o.price && trades[0].takerAccount == r.account && trades[0].aggressor == r.side
  {
    hide CheckNew, Sweep, SettleOne, TradesOf, BookAt, RestOrder, ApplyRequest;
    OrderPasses(s, price, n, a, r);
    var s1 := s.(nextOrder := s.nextOrder + 1);
    var x := Taker(a, 0, r, s.nextOrder + 1, r.side, r.quantity);
    OneFill(s1, x, r.price, o);
    var f := FillOf(o, r.quantity);
    var m := Sweep(o.side, [o], r.price, r.quantity);
    var s2 := s1.(desk := PutBook(s1.desk, 0, BookAt(s1.desk, 0).With(o.side, m.rest)), nextTrade := s.nextTrade + 1);
    SettleOneTrade(s2, x, f, r.quantity);
    var one := SettleOne(s2, x, f, r.quantity);
    var e := Execute(s1, x, r.price);
    assert e.out == one.out + SettleAll(one.state, x, [f][1..], r.quantity).out;
    TradesConcat(one.out, SettleAll(one.state, x, [f][1..], r.quantity).out);
    var h := HandleNew(s, r);
    assert h.out == e.out;
    FirstRequest(s, price, n, a, r);
    TradesConcat(h.out, [ReportOut(h.report)]);
  }

  // ---- opening the market -------------------------------------------------

  function Says(kind: MarketKind): Event {
    MarketInput(MarketEvent(1, 0, 0, kind))
  }

  /** A message without a source sequence moves the view and nothing else. */
  lemma MarketStep(s: State, n: nat, kind: MarketKind, input: Input)
    requires Running(s, n) && n < 99 && input.event == Says(kind)
    ensures var e := Step(s, input).state;
      && Running(e, n + 1) && e.desk == s.desk && e.accounts == s.accounts && e.nextOrder == s.nextOrder
      && e.views[0] == Market.Apply(s.views[0], 0, kind, input.recvTimeNs)
  {
    hide Market.Apply;
    assert Small().instrumentIds.index[1] == 0;
  }

  lemma ViewOpens(price: i64, a: u64, b: u64, c: u64)
    requires 1 <= price <= 2000
    ensures var v0 := Market.NewView(1, 2000, 1);
      var v1 := Market.Apply(v0, 0, SnapshotBegin(1), a);
      var v2 := Market.Apply(v1, 0, SnapshotEnd(1, 0), b);
      Trading(Market.Apply(v2, 0, MarketTrade(Buy, price, 1), c), price)
  {
    assert Market.TrimQuotes(Market.NoQuotes, 1) == Market.NoQuotes;
  }

  lemma PriceMoves(v: Market.View, price: i64, next: i64, time: u64)
    requires Trading(v, price) && 1 <= next <= 2000
    ensures Trading(Market.Apply(v, 0, MarketTrade(Buy, next, 1), time), next)
  {
  }

  lemma Opened()
    ensures Running(Morning(), 0) && Morning().views[0] == Market.NewView(1, 2000, 1)
    ensures Morning().desk.live == map[] && Morning().desk.clients == map[] && Morning().nextOrder == 0
    ensures BookAt(Morning().desk, 0) == EmptyBook && forall a: nat :: a < 3 ==> Untouched(Morning(), a)
  {
  }

  // ---- one sale resting ---------------------------------------------------

  const SALE_PRICE: i64 := 100

  function Sale(): Request {
    LimitOrderOf(1, 1, Sell, SALE_PRICE, 1)
  }

  /** Only a sale of one lot by the first account rests, and the second account has
      done nothing. */
  ghost predicate Offers(s: State, price: i64, n: nat, o: Order) {
    && Ready(s, price, n) && Untouched(s, 1)
    && BookAt(s.desk, 0).asks == [o] && BookAt(s.desk, 0).bids == []
    && o.side.Sell? && o.price == SALE_PRICE && o.total == 1 && o.filled == 0 && o.owner.account == 1
  }

  lemma FirstInBook(o: Order)
    ensures Insert(EmptyBook, o).Of(o.side) == [o] && Insert(EmptyBook, o).Of(o.side.Opposite()) == []
    ensures o.filled < o.total ==> Admits(EmptyBook, o, 8)
  {
    assert Place([], o.side, o.price) == 0;
  }

  lemma SaleRests(s: State, n: nat, input: Input) returns (o: Order)
    requires Ready(s, SALE_PRICE, n) && n < 90 && Untouched(s, 0) && Untouched(s, 1)
    requires BookAt(s.desk, 0) == EmptyBook && input.event == OrderInput(Sale())
    ensures Offers(Step(s, input).state, SALE_PRICE, n + 2, o)
  {
    hide Step, Admits, Rest, Insert, Ready, BookAt;
    ReadyFacts(s, SALE_PRICE, n);
    o := WouldRest(s, Sale());
    FirstInBook(o);
    OrderStep(s, SALE_PRICE, n, 0, input);
    ReadyShape(s, SALE_PRICE, n);
    DeskAfter(s, 0, Sale());
    assert OthersUntouched(s, Step(s, input).state, 0);
    assert Untouched(s, 1);
  }

  lemma ReadyShape(s: State, price: i64, n: nat)
    requires Ready(s, price, n)
    ensures |s.desk.books| == 1 && |s.desk.positions| == 3 && forall b :: 0 <= b < 3 ==> |s.desk.positions[b]| == 1
  {
  }

  lemma OfferMoves(s: State, price: i64, n: nat, o: Order, next: i64, input: Input)
    requires Offers(s, price, n, o) && n < 90 && 1 <= next <= 2000 && input.event == Says(MarketTrade(Buy, next, 1))
    ensures Offers(Step(s, input).state, next, n + 1, o)
  {
    hide Step, Market.Apply, Trading, BookAt;
    MarketStep(s, n, MarketTrade(Buy, next, 1), input);
    PriceMoves(s.views[0], price, next, input.recvTimeNs);
    assert Untouched(s, 1);
  }

  /** A purchase that accepts the sale's price trades at it. */
  lemma PurchaseTrades(s: State, price: i64, n: nat, o: Order, r: Request)
    requires Offers(s, price, n, o) && r == LimitOrderOf(2, 1, Buy, r.price, 1)
    requires SALE_PRICE <= r.price <= 2000 && Abs(r.price - price) <= 10
    ensures var trades := TradesOf(ApplyRequest(s, r).out); trades != [] && trades[0].price == SALE_PRICE
  {
    hide ApplyRequest, TradesOf, Trading, BookAt;
    OrderTrades(s, price, n, 1, r, o);
  }

  /** The kill engaged and released again leaves the market as it was. */
  lemma KillPasses(s: State, price: i64, n: nat, o: Order, on: Input, off: Input)
    requires Offers(s, price, n, o) && n < 90
    requires on.event == ControlInput(SetGlobalKill(true)) && off.event == ControlInput(SetGlobalKill(false))
    ensures var s1 := Step(s, on).state;
      s1.fault.None? && s1.kill && Offers(Step(s1, off).state, price, n + 2, o)
  {
    hide BookAt, Trading, ApplyMarket, ApplyRequest;
    var s2 := Step(Step(s, on).state, off).state;
    assert s2.desk == s.desk && s2.accounts == s.accounts && s2.views == s.views;
  }

  // ---- the sale cancelled -------------------------------------------------

  function Cancellation(): Request {
    Request(Cancel, 1, 1, 2, 0, 0, 1, Sell, LimitOrder, 0, 0)
  }

  /** The sale rests, is registered, reserved for and remembered. */
  ghost predicate Sold(s: State, n: nat, o: Order, report: Report) {
    && Ready(s, SALE_PRICE, n) && BookAt(s.desk, 0) == Book([], [o])
    && o == Order(o.id, Owner(1, 1), Sell, SALE_PRICE, 1, 0, o.priority)
    && s.desk.clients == map[Owner(1, 1) := o.id] && s.desk.live == map[o.id := LiveOrder(0, 0)]
    && Pos(s.desk, 0, 0) == Flat.With(Sell, 1, SALE_PRICE)
    && s.accounts[0] == Account(true, Wide, 1, [Cached(1, 0, report)])
    && report.orderId == o.id != 0 && report.reject.None? && report.state.Working?
  }

  lemma SaleSold(s: State, n: nat, input: Input) returns (o: Order, report: Report)
    requires Ready(s, SALE_PRICE, n) && n < 90 && Untouched(s, 0) && s.desk.clients == map[] && s.desk.live == map[]
    requires BookAt(s.desk, 0) == EmptyBook && input.event == OrderInput(Sale())
    ensures Step(s, input).out == [ReportOut(report)] && Sold(Step(s, input).state, n + 2, o, report)
  {
    hide Step, Admits, Insert, Ready, BookAt, Rest;
    ReadyFacts(s, SALE_PRICE, n);
    o := WouldRest(s, Sale());
    FirstInBook(o);
    OrderStep(s, SALE_PRICE, n, 0, input);
    ReadyShape(s, SALE_PRICE, n);
    DeskAfter(s, 0, Sale());
    SaleReserved(s.desk, o);
    report := Step(s, input).out[0].report;
  }

  lemma SaleReserved(d: Desk, o: Order)
    requires o.side.Sell? && o.price == SALE_PRICE && o.total == 1 && o.filled == 0
    requires |d.positions| == 3 && |d.positions[0]| == 1 && Pos(d, 0, 0) == Flat
    ensures Pos(Rest(d, 0, 0, o).desk, 0, 0) == Flat.With(Sell, 1, SALE_PRICE)
  {
  }

  lemma Withdrawn(d: Desk, o: Order)
    requires o == Order(o.id, Owner(1, 1), Sell, SALE_PRICE, 1, 0, o.priority) && |d.books| == 1
    requires BookAt(d, 0) == Book([], [o]) && Pos(d, 0, 0) == Flat.With(Sell, 1, SALE_PRICE)
    requires d.live == map[o.id := LiveOrder(0, 0)]
    ensures Lookup(BookAt(d, 0), o.id) == Some(o)
    ensures Withdraw(d, 0, 0, o).ok && Withdraw(d, 0, 0, o).desk.live == map[]
  {
  }

  lemma CancelHandled(s: State, o: Order)
    requires s.cfg == Small() && s.fault.None? && s.outputSeq < U64_MAX && |s.desk.books| == 1
    requires s.desk.clients == map[Owner(1, 1) := o.id] && s.desk.live == map[o.id := LiveOrder(0, 0)]
    requires o == Order(o.id, Owner(1, 1), Sell, SALE_PRICE, 1, 0, o.priority)
    requires BookAt(s.desk, 0) == Book([], [o]) && Pos(s.desk, 0, 0) == Flat.With(Sell, 1, SALE_PRICE)
    ensures HandleCancel(s, Cancellation()).state
            == s.(desk := Withdraw(s.desk, 0, 0, o).desk, outputSeq := s.outputSeq + 1)
    ensures Withdraw(s.desk, 0, 0, o).desk.live == map[]
  {
    hide Withdraw, Lookup, BookAt, Pos, BaseReport;
    Withdrawn(s.desk, o);
    assert Small().accountIds.index[1] == 0;
  }

  /** What an unremembered request leaves behind the sale in the cache. */
  lemma SecondRemembered(s: State, r: Request, report: Report)
    requires s.cfg == Small() && |s.accounts| == 3 && s.accounts[0].cache == [Cached(1, 0, report)]
    requires r.account == 1 && r.requestId == 2 && Handle(s, r).state.accounts == s.accounts && Handle(s, r).state.cfg == s.cfg
    ensures var e, h := ApplyRequest(s, r).state, Handle(s, r).state;
      && e == h.(accounts := e.accounts) && |e.accounts| == 3
      && |e.accounts[0].cache| == 2 && e.accounts[0].cache[0] == Cached(1, 0, report) && e.accounts[0].cache[1].requestId == 2
  {
    hide Handle;
    assert Small().accountIds.index[1] == 0;
    assert CacheLookup(s.accounts[0].cache, 2, 0) == Miss;
  }

  /** The cancel leaves no live order, and the sale is still remembered. */
  lemma CancelStep(s: State, n: nat, o: Order, report: Report, input: Input)
    requires Sold(s, n, o, report) && n < 90 && input.event == OrderInput(Cancellation())
    ensures var e := Step(s, input).state;
      && e.fault.None? && e.cfg == Small() && e.engineSeq <= n + 1 && e.outputSeq <= n + 1 && e.desk.live == map[] && |e.accounts| == 3
      && |e.accounts[0].cache| == 2 && e.accounts[0].cache[0] == Cached(1, 0, report) && e.accounts[0].cache[1].requestId == 2
  {
    hide Withdraw, Lookup, BookAt, Pos, HandleCancel, ApplyRequest, Trading, Small;
    var s1 := s.(engineSeq := s.engineSeq + 1, time := input.recvTimeNs);
    CancelHandled(s1, o);
    SecondRemembered(s1, Cancellation(), report);
  }

  // ---- bids at one price --------------------------------------------------

  /** So many bids of so many lots in all rest at price 1, and nothing else. */
  ghost predicate Bidding(s: State, n: nat, lots: nat, count: nat) {
    && Ready(s, 1, n) && BookAt(s.desk, 0).asks == [] && |BookAt(s.desk, 0).bids| == count
    && Sum(BookAt(s.desk, 0).bids, AtPrice(1)) == lots && Sum(BookAt(s.desk, 0).bids, CountAt(1)) == count
    && s.nextOrder == count && forall id :: id in s.desk.live ==> id <= count
  }

  function Bid(account: u32, quantity: u64): Request {
    LimitOrderOf(account, 1, Buy, 1, quantity)
  }

  /** A bid is accepted; it rests exactly if the level's lots still fit 64 bits. */
  lemma BidStep(s: State, n: nat, lots: nat, count: nat, a: nat, quantity: u64, input: Input)
    requires Bidding(s, n, lots, count) && n < 90 && count < 7 && Untouched(s, a) && 0 < quantity <= I64_MAX
    requires input.event == OrderInput(Bid(a + 1, quantity))
    ensures var e := Step(s, input);
      && OthersUntouched(s, e.state, a) && |e.out| == 1 && e.out[0].ReportOut?
      && e.out[0].report.orderId == count + 1 && e.out[0].report.reject.None? && e.out[0].report.state.Working?
      && e.out[0].report.kind.Accepted? && e.state.fault.None?
      && if lots + quantity <= U64_MAX then Bidding(e.state, n + 2, lots + quantity, count + 1)
         else e.state.desk == s.desk
  {
    hide Step, Rest, Insert, Ready, BookAt, Sum;
    ReadyFacts(s, 1, n);
    ReadyShape(s, 1, n);
    var r := Bid(a + 1, quantity);
    var o, b := WouldRest(s, r), BookAt(s.desk, 0);
    assert Modest(s, 1, a, r);
    OrderStep(s, 1, n, a, input);
    ReadyFacts(Step(s, input).state, 1, n + 2);
    DeskAfter(s, a, r);
    BidAdded(b, o);
  }

  lemma BidAdded(b: Book, o: Order)
    requires b.asks == [] && o.side.Buy? && o.price == 1 && o.filled == 0 && o.total > 0
    ensures Insert(b, o).asks == [] && |Insert(b, o).bids| == |b.bids| + 1
    ensures Sum(Insert(b, o).bids, AtPrice(1)) == Sum(b.bids, AtPrice(1)) + o.total
    ensures Sum(Insert(b, o).bids, CountAt(1)) == Sum(b.bids, CountAt(1)) + 1
  {
    SumInsertAt(b.bids, Place(b.bids, Buy, 1), o, AtPrice(1));
    SumInsertAt(b.bids, Place(b.bids, Buy, 1), o, CountAt(1));
  }
}
