/** What an accepted new order or replacement does to its book, and what its final
    report says about it. */
module Outcomes {
  import opened Domain
  import opened PriceTime
  import opened Ledger
  import opened Core
  import opened Accounts
  import opened Safety
  import opened Admission
  import opened Requests
  import opened OrdersTable
  import Cancels
  import Capacity
  import Verdicts

  /** What of so many lots finds acceptable liquidity on the other side. */
  ghost function Taken(b: Book, side: Side, limit: int, lots: nat): int {
    Min(lots, Sum(b.Of(side.Opposite()), PriceTime.Reachable(side.Opposite(), limit)))
  }

  /** The other side lost what price-time matching takes from it, and the own side
      gained the order behind its price if it rests. */
  ghost predicate Worked(b: Book, b': Book, limit: i64, lots: u64, o: Order, rests: bool) {
    var other := o.side.Opposite();
    && Queue(other, b.Of(other)) && b'.Of(other) == Match(other, b.Of(other), limit, lots).rest
    && b'.Of(o.side) == if rests then Enqueue(b.Of(o.side), o) else b.Of(o.side)
  }

  ghost predicate OnlyBook(d: Desk, d': Desk, i: nat) {
    |d'.books| == |d.books| && forall j: nat :: j != i ==> BookAt(d', j) == BookAt(d, j)
  }

  // ---- execution ----------------------------------------------------------

  lemma SettleOnePriority(s: State, x: Taker, f: Fill, cumulative: u64)
    ensures SettleOne(s, x, f, cumulative).state.nextPriority == s.nextPriority
  {
    hide SettleFill, TakeSeq;
    if f.owner.account in s.cfg.accountIds.index {
      var s1 := s.On(SettleFill(s.desk, s.cfg.accountIds.index[f.owner.account], x.account, x.instrument, x.side, f));
      TakeSeqFields(s1);
      TakeSeqFields(TakeSeq(s1));
      TakeSeqFields(TakeSeq(TakeSeq(s1)));
    }
  }

  lemma {:induction false} SettleAllPriority(s: State, x: Taker, fills: seq<Fill>, cumulative: u64)
    ensures SettleAll(s, x, fills, cumulative).state.nextPriority == s.nextPriority
    decreases |fills|
  {
    hide SettleOne;
    if fills != [] && cumulative + fills[0].quantity <= U64_MAX && Successor(s.nextTrade).Some? {
      var s0 := s.(nextTrade := s.nextTrade + 1);
      SettleOnePriority(s0, x, fills[0], cumulative + fills[0].quantity);
      SettleAllPriority(SettleOne(s0, x, fills[0], cumulative + fills[0].quantity).state, x, fills[1..],
                        cumulative + fills[0].quantity);
    }
  }

  /** An execution takes what it reaches, on one side of one book. */
  lemma ExecuteWorks(s: State, x: Taker, limit: i64, o: Order)
    requires x.instrument < |s.desk.books| && o.side == x.side
    requires Queue(x.side.Opposite(), BookAt(s.desk, x.instrument).Of(x.side.Opposite()))
    ensures var e, b := Execute(s, x, limit).state, BookAt(s.desk, x.instrument);
      && Filling(s, x, limit) == Taken(b, x.side, limit, x.quantity) && e.nextPriority == s.nextPriority
      && Worked(b, BookAt(e.desk, x.instrument), limit, x.quantity, o, false) && OnlyBook(s.desk, e.desk, x.instrument)
      && BookAt(e.desk, x.instrument).Size() <= b.Size() && e.cfg == s.cfg && |e.desk.books| == |s.desk.books|
  {
    hide Match, SettleAll, Queue, Sum, BookAt;
    var b, ms := BookAt(s.desk, x.instrument), x.side.Opposite();
    Capacity.ExecuteBooks(s, x, limit);
    BookAfter(s, x, limit);
    ExecuteFramed(s, x, limit);
    assert Resting(ms, b.Of(ms)) by { QueueIsResting(ms, b.Of(ms)); }
    var m := Sweep(ms, b.Of(ms), limit, x.quantity);
    SettleAllPriority(s.(desk := PutBook(s.desk, x.instrument, b.With(ms, m.rest))), x, m.fills, 0);
    SameBooks(Execute(s, x, limit).state.desk, PutBook(s.desk, x.instrument, b.With(ms, m.rest)));
  }

  lemma SameBooks(d: Desk, d': Desk)
    requires d.books == d'.books
    ensures forall j: nat :: BookAt(d, j) == BookAt(d', j)
  {
  }

  /** Resting puts the remainder behind its price, or leaves the book alone if the
      level has no room for it. */
  lemma RestWorks(e: State, x: Taker, client: u64, price: i64, total: u64, filled: u64)
    requires x.instrument < |e.desk.books| && BookAt(e.desk, x.instrument).Size() < e.cfg.capacity && filled < total
    requires RestOrder(e, x, client, price, total, filled).fault.None?
    ensures var d, b := RestOrder(e, x, client, price, total, filled).desk, BookAt(e.desk, x.instrument);
      && e.nextPriority < U64_MAX && OnlyBook(e.desk, d, x.instrument)
      && var o := Order(x.id, Owner(x.request.account, client), x.side, price, total, filled, e.nextPriority + 1);
      BookAt(d, x.instrument) == if Overflows(b.Of(x.side), price, total - filled) then b else Insert(b, o)
  {
    hide ReserveOrder, Sum, Insert;
    var o := Order(x.id, Owner(x.request.account, client), x.side, price, total, filled, e.nextPriority + 1);
    RefusesExactly(e, x, client, price, total, filled);
    RestedBook(e.desk, x.account, x.instrument, o);
  }

  lemma RestedBook(d: Desk, a: nat, i: nat, o: Order)
    requires o.filled <= o.total && i < |d.books|
    ensures var d' := Rest(d, a, i, o).desk;
      BookAt(d', i) == Insert(BookAt(d, i), o) && OnlyBook(d, d', i)
  {
    hide Insert;
  }

  // ---- new orders ---------------------------------------------------------

  /** The kind and state a final report gives an order that still has lots left. */
  ghost predicate Standing(final: Report, kind: ReportKind, filled: nat, left: nat) {
    && final.remaining == left && final.kind == kind
    && final.state == if filled == 0 then Working else PartlyFilled
  }

  ghost predicate Ended(final: Report, kind: ReportKind, state: OrderState) {
    final.remaining == 0 && final.kind == kind && final.state == state
  }

  function NextPriority(s: State): u64 {
    if s.nextPriority < U64_MAX then s.nextPriority + 1 else 0
  }

  /** The new order took what it could reach within its limit; what is left of a limit
      order rests behind its price under a new priority if its level has room, and
      what is left of a market order is cancelled. */
  ghost predicate NewDone(s: State, r: Request, d: Desk, final: Report) {
    var i := InstrumentOf(s, r);
    var b, limit := BookAt(s.desk, i), LimitOf(s, r);
    && I64_MIN <= limit <= I64_MAX && s.nextOrder < U64_MAX
    && var traded := Taken(b, r.side, limit, r.quantity);
    && 0 <= traded <= r.quantity
    && var left := r.quantity - traded;
    var o := Order(s.nextOrder + 1, Owner(r.account, r.clientOrderId), r.side, r.price, r.quantity, traded, NextPriority(s));
    && OnlyBook(s.desk, d, i)
    && Worked(b, BookAt(d, i), limit, r.quantity, o,
              r.orderType.LimitOrder? && left > 0 && !Overflows(b.Of(r.side), r.price, left))
    && final.orderId == o.id && final.account == r.account && final.clientOrderId == r.clientOrderId
    && final.side == r.side && final.price == r.price && final.total == r.quantity && final.cumulative == traded
    && if left == 0 then Ended(final, Filled, FullyFilled)
       else if r.orderType.MarketOrder? then Ended(final, Cancelled, CancelledState)
       else Standing(final, Accepted, traded, left)
  }

  lemma NewNames(s: State, r: Request)
    requires CheckNew(s, r).Pass?
    ensures var c := CheckNew(s, r).value;
      && c.account == AccountOf(s, r) && c.instrument == InstrumentOf(s, r) && c.limit == LimitOf(s, r)
      && c.instrument < |s.cfg.instruments| && r.kind.New? && BookAt(s.desk, c.instrument).Size() < s.cfg.capacity
      && (r.orderType.LimitOrder? ==> c.limit == r.price)
  {
    hide CheckRisk, CheckQuantity, CheckPrice, CheckPermitted;
  }

  lemma NewHandled(s: State, caps: seq<Cap>, r: Request)
    requires Good(s, caps) && s.fault.None? && CheckNew(s, r).Pass? && HandleNew(s, r).state.fault.None?
    ensures NewDone(s, r, HandleNew(s, r).state.desk, HandleNew(s, r).report)
  {
    hide Good, CheckNew, Execute, Filling, RestOrder, LimitOf, BookAt, Worked, Overflows, Taken, OnlyBook, Insert;
    NewNames(s, r);
    GoodKeyed(s, caps);
    if s.nextOrder < U64_MAX {
      var c, id := CheckNew(s, r).value, s.nextOrder + 1;
      var x := Taker(c.account, c.instrument, r, id, r.side, r.quantity);
      var s0, b := s.(nextOrder := id), BookAt(s.desk, c.instrument);
      OrderlySide(b, r.side.Opposite());
      var filled := Filling(s, x, c.limit);
      TakenBounds(b, r.side, c.limit, r.quantity);
      var o := Order(id, Owner(r.account, r.clientOrderId), r.side, r.price, r.quantity,
                     Taken(b, r.side, c.limit, r.quantity), NextPriority(s));
      ExecuteWorks(s0, x, c.limit, o);
      FillingSame(s, s0, x, c.limit);
      if filled < r.quantity && r.orderType.LimitOrder? {
        var e := Execute(s0, x, c.limit).state;
        RestWorks(e, x, r.clientOrderId, r.price, r.quantity, filled);
        RestedWorked(b, s.desk, e.desk, RestOrder(e, x, r.clientOrderId, r.price, r.quantity, filled).desk, c.instrument,
                     c.limit, r.quantity, o, r.quantity - filled);
      }
    }
  }

  lemma TakenBounds(b: Book, side: Side, limit: i64, lots: u64)
    requires Queue(side.Opposite(), b.Of(side.Opposite()))
    ensures 0 <= Taken(b, side, limit, lots) <= lots
  {
    hide Queue;
    QueueIsResting(side.Opposite(), b.Of(side.Opposite()));
    MatchFillsAllReachable(side.Opposite(), b.Of(side.Opposite()), limit, lots);
  }

  lemma RestedWorked(b: Book, d: Desk, m: Desk, d': Desk, i: nat, limit: i64, lots: u64, o: Order, left: int)
    requires Worked(b, BookAt(m, i), limit, lots, o, false) && OnlyBook(d, m, i) && OnlyBook(m, d', i)
    requires BookAt(d', i) == if Overflows(BookAt(m, i).Of(o.side), o.price, left) then BookAt(m, i) else Insert(BookAt(m, i), o)
    ensures OnlyBook(d, d', i) && Worked(b, BookAt(d', i), limit, lots, o, !Overflows(b.Of(o.side), o.price, left))
  {
    hide Queue, Match, Enqueue, Overflows, BookAt;
  }

  /** What an accepted new order comes to. */
  lemma NewTakesAndRests(s: State, caps: seq<Cap>, r: Request)
    requires Good(s, caps) && s.fault.None? && r.kind.New? && Novel(s, r) && ApplyRequest(s, r).state.fault.None?
    requires Final(ApplyRequest(s, r).out).Some? && Final(ApplyRequest(s, r).out).value.reject.None?
    ensures NewDone(s, r, ApplyRequest(s, r).state.desk, Final(ApplyRequest(s, r).out).value)
  {
    hide Good, ApplyRequest, HandleNew, CheckNew, NewDone, Novel;
    HandleFramed(s, r);
    NovelIsHandled(s, r);
    Verdicts.NewAnswered(s, r);
    NewHandled(s, caps, r);
  }

  // ---- replacements -------------------------------------------------------

  /** The order kept its place in the queue and only its total changed. */
  ghost predicate Resized(b: Book, b': Book, o: Order, total: u64) {
    && b'.Of(o.side.Opposite()) == b.Of(o.side.Opposite())
    && exists k :: 0 <= k < |b.Of(o.side)| && b.Of(o.side)[k] == o && b'.Of(o.side) == b.Of(o.side)[k := o.(total := total)]
  }

  /** A lower total at the same price keeps the order's place. Anything else takes it
      out of the queue; it then takes what the new price reaches, and what is left
      rests under the same id behind its price with a new priority. A total of
      exactly what is filled withdraws the order. */
  ghost predicate ReplaceDone(s: State, r: Request, o: Order, d: Desk, final: Report) {
    var a, i := AccountOf(s, r), InstrumentOf(s, r);
    var b := BookAt(s.desk, i);
    && o.filled <= r.quantity
    && final.orderId == o.id && final.account == r.account && final.clientOrderId == o.owner.client
    && final.side == o.side && final.price == r.price && final.total == r.quantity
    && if r.quantity == o.filled then
         final.cumulative == o.filled && Ended(final, Cancelled, CancelledState) && Cancels.Gone(s.desk, d, a, i, o)
       else if r.price == o.price && r.quantity < o.total then
         && final.cumulative == o.filled && Standing(final, Replaced, o.filled, r.quantity - o.filled)
         && OnlyBook(s.desk, d, i) && Resized(b, BookAt(d, i), o, r.quantity)
         && d.live == s.desk.live && d.clients == s.desk.clients
       else Requeued(s, r, o, d, final)
  }

  ghost predicate Requeued(s: State, r: Request, o: Order, d: Desk, final: Report)
    requires o.filled <= r.quantity
  {
    var i, lots := InstrumentOf(s, r), r.quantity - o.filled;
    var b := Remove(BookAt(s.desk, i), o.id);
    var traded := Taken(b, o.side, r.price, lots);
    && 0 <= traded <= lots && Cancels.Without(BookAt(s.desk, i), b, o)
    && var o' := Order(o.id, o.owner, o.side, r.price, r.quantity, o.filled + traded, NextPriority(s));
    && OnlyBook(s.desk, d, i)
    && Worked(b, BookAt(d, i), r.price, lots, o', traded < lots && !Overflows(b.Of(o.side), r.price, lots - traded))
    && final.cumulative == o.filled + traded
    && if traded == lots then Ended(final, Filled, FullyFilled)
       else Standing(final, Replaced, o.filled + traded, lots - traded)
  }

  lemma InPlaceDone(s: State, caps: seq<Cap>, r: Request, c: Replacement)
    requires Good(s, caps) && s.fault.None? && c.instrument < |s.desk.books|
    requires c.account == AccountOf(s, r) && c.instrument == InstrumentOf(s, r)
    requires var o := c.existing;
      && o.owner.account in s.cfg.accountIds.index && c.account == s.cfg.accountIds.index[o.owner.account]
      && Lookup(BookAt(s.desk, c.instrument), o.id) == Some(o)
      && o.filled <= r.quantity < o.total && r.price == o.price
    ensures ReplaceDone(s, r, c.existing, ReplaceInPlace(s, r, c).state.desk, ReplaceInPlace(s, r, c).report)
  {
    hide Good, Lookup, Withdraw, Shrink, Remove, Cancels.Gone, Requeued, BookAt, Resized, OnlyBook;
    var o, i := c.existing, c.instrument;
    GoodKeyed(s, caps);
    if r.quantity == o.filled {
      ShrinkAway(s.desk, c.account, i, o);
      Cancels.WithdrawIsGone(s, caps, c.account, i, o);
    } else {
      ShrinkGood(s, caps, c.account, i, o, r.quantity);
      ShrunkBook(s.desk, c.account, i, o, r.quantity);
    }
  }

  lemma ShrunkBook(d: Desk, a: nat, i: nat, o: Order, total: u64)
    requires i < |d.books| && Orderly(BookAt(d, i)) && Lookup(BookAt(d, i), o.id) == Some(o) && total <= o.total
    ensures var d' := Shrink(d, a, i, o, total).desk;
      && OnlyBook(d, d', i) && Resized(BookAt(d, i), BookAt(d', i), o, total)
      && d'.live == d.live && d'.clients == d.clients
  {
    hide Orderly, Lookup, Reduce, ReleaseOrder, Resized;
    ReleaseFrame(d, a, i, o.side, o.total - total, o.price);
    SameBooks(ReleaseOrder(d, a, i, o.side, o.total - total, o.price).desk, d);
    ReducedBook(BookAt(d, i), o, total);
  }

  lemma ReducedBook(b: Book, o: Order, total: u64)
    requires Orderly(b) && Lookup(b, o.id) == Some(o)
    ensures Resized(b, Reduce(b, o.id, total), o, total)
  {
    hide Orderly, Lookup, Reduce;
    var k := RemoveIsDrop(b, o.id);
    assert Reduce(b, o.id, total).Of(o.side) == b.Of(o.side)[k := o.(total := total)];
  }

  lemma AnewDone(s: State, caps: seq<Cap>, r: Request, c: Replacement)
    requires Good(s, caps) && s.fault.None? && c.instrument < |s.desk.books| && Capacity.Fits(s.desk.books, s.cfg.capacity)
    requires c.account == AccountOf(s, r) && c.instrument == InstrumentOf(s, r)
    requires var o := c.existing;
      && o.owner.account in s.cfg.accountIds.index && c.account == s.cfg.accountIds.index[o.owner.account]
      && Lookup(BookAt(s.desk, c.instrument), o.id) == Some(o) && o.owner.account == r.account
      && o.filled <= r.quantity && !(r.price == o.price && r.quantity < o.total)
    ensures c.existing.filled <= c.existing.total
    ensures var s1 := s.On(Withdraw(s.desk, c.account, c.instrument, c.existing));
      ReplaceAnew(s1, r, c).state.fault.None? ==>
        ReplaceDone(s, r, c.existing, ReplaceAnew(s1, r, c).state.desk, ReplaceAnew(s1, r, c).report)
  {
    hide Good, Lookup, Withdraw, Remove, Cancels.Gone, ReplaceAnew, Requeued, BookAt, OnlyBook, Resized;
    var o, i := c.existing, c.instrument;
    GoodKeyed(s, caps);
    Cancels.WithdrawIsGone(s, caps, c.account, i, o);
    var s1 := s.On(Withdraw(s.desk, c.account, i, o));
    if ReplaceAnew(s1, r, c).state.fault.None? {
      AnewReport(s1, r, c);
      if o.filled < r.quantity {
        AnewRequeues(s, s1, caps, r, c);
      }
    }
  }

  /** What the report of a replacement says whichever way it ends. */
  lemma AnewReport(s1: State, r: Request, c: Replacement)
    requires ReplaceAnew(s1, r, c).state.fault.None? && c.existing.filled <= r.quantity
    ensures var h, o := ReplaceAnew(s1, r, c), c.existing;
      && h.report.orderId == o.id && h.report.account == r.account && h.report.clientOrderId == o.owner.client
      && h.report.side == o.side && h.report.price == r.price && h.report.total == r.quantity
      && (r.quantity == o.filled ==>
            h.report.cumulative == o.filled && Ended(h.report, Cancelled, CancelledState) && h.state.desk == s1.desk)
  {
    hide Execute, Filling, RestOrder;
  }

  lemma AnewRequeues(s: State, s1: State, caps: seq<Cap>, r: Request, c: Replacement)
    requires Good(s, caps) && s.fault.None? && c.instrument < |s.desk.books| && Capacity.Fits(s.desk.books, s.cfg.capacity)
    requires c.instrument == InstrumentOf(s, r)
    requires var o := c.existing;
      && Lookup(BookAt(s.desk, c.instrument), o.id) == Some(o) && o.owner.account == r.account
      && o.filled < r.quantity && o.filled <= o.total
      && s1 == s.(desk := Withdraw(s.desk, c.account, c.instrument, o).desk)
    requires ReplaceAnew(s1, r, c).state.fault.None?
    ensures Requeued(s, r, c.existing, ReplaceAnew(s1, r, c).state.desk, ReplaceAnew(s1, r, c).report)
  {
    hide Good, Lookup, Withdraw, Remove, Execute, Filling, RestOrder, BookAt, Worked, Overflows, Taken, OnlyBook, Insert, Queue, Orderly,
      Cancels.Without;
    var o, i := c.existing, c.instrument;
    GoodKeyed(s, caps);
    BookWithout(s.desk, c.account, i, o, o.id);
    Cancels.RemovedWithout(BookAt(s.desk, i), o);
    BookFits(s.desk, i, s.cfg.capacity);
    WithdrawnEffects(s.desk, c.account, i, o);
    var lots := r.quantity - o.filled;
    var x := Taker(c.account, i, r, o.id, o.side, lots);
    var b, filled := BookAt(s1.desk, i), Filling(s1, x, r.price);
    TakenBounds(b, o.side, r.price, lots);
    var o' := Order(o.id, o.owner, o.side, r.price, r.quantity, o.filled + Taken(b, o.side, r.price, lots), NextPriority(s));
    ExecuteWorks(s1, x, r.price, o');
    if filled < lots {
      var e := Execute(s1, x, r.price).state;
      RestWorks(e, x, o.owner.client, r.price, r.quantity, o.filled + filled);
      RestedWorked(b, s1.desk, e.desk, RestOrder(e, x, o.owner.client, r.price, r.quantity, o.filled + filled).desk, i,
                   r.price, lots, o', lots - filled);
    }
    OnlyBookThen(s.desk, s1.desk, ReplaceAnew(s1, r, c).state.desk, i);
  }

  lemma OnlyBookThen(d: Desk, m: Desk, d': Desk, i: nat)
    requires OnlyBook(d, m, i) && OnlyBook(m, d', i)
    ensures OnlyBook(d, d', i)
  {
  }

  /** What an accepted replacement comes to. */
  lemma ReplaceKeepsPlaceOrRequeues(s: State, caps: seq<Cap>, r: Request)
    requires Good(s, caps) && s.fault.None? && Capacity.Fits(s.desk.books, s.cfg.capacity)
    requires r.kind.Replace? && Novel(s, r) && ApplyRequest(s, r).state.fault.None?
    requires Final(ApplyRequest(s, r).out).Some? && Final(ApplyRequest(s, r).out).value.reject.None?
    ensures Target(s, r).Some?
    ensures ReplaceDone(s, r, Target(s, r).value, ApplyRequest(s, r).state.desk, Final(ApplyRequest(s, r).out).value)
  {
    hide Good, ApplyRequest, CheckReplace, ReplaceInPlace, ReplaceAnew, Withdraw, Admitted, ReplaceDone, Novel, Lookup;
    HandleFramed(s, r);
    NovelIsHandled(s, r);
    Verdicts.ReplaceAnswered(s, r);
    ReplaceAdmitted(s, caps, r);
    ReplaceFound(s, r);
    var c := CheckReplace(s, r).value;
    ReplaceSides(s, r);
    if r.price == c.existing.price && r.quantity < c.existing.total {
      InPlaceDone(s, caps, r, c);
    } else {
      AnewDone(s, caps, r, c);
    }
  }

  lemma ReplaceSides(s: State, r: Request)
    requires CheckReplace(s, r).Pass?
    ensures var c := CheckReplace(s, r).value;
      c.account == AccountOf(s, r) && c.instrument == InstrumentOf(s, r) && Target(s, r) == Some(c.existing)
  {
    hide CheckRisk, CheckQuantity, CheckPrice, CheckReference, CheckPermitted, Lookup;
  }
}
