/** What an execution does to the books, and that no book ever holds more orders
    than its capacity. */
module Capacity {
  import opened Domain
  import opened PriceTime
  import opened Ledger
  import opened Core
  import opened Safety
  import opened Runs
  import Market

  // ---- settling leaves the books alone ------------------------------------

  lemma SettleFillBooks(d: Desk, maker: nat, taker: nat, i: nat, side: Side, f: Fill)
    ensures SettleFill(d, maker, taker, i, side, f).desk.books == d.books
  {
    hide Reserve, Release, ApplyFill;
  }

  lemma SettleOneBooks(s: State, x: Taker, f: Fill, cumulative: u64)
    ensures SettleOne(s, x, f, cumulative).state.desk.books == s.desk.books
  {
    hide SettleFill, BaseReport;
    if f.owner.account in s.cfg.accountIds.index {
      SettleFillBooks(s.desk, s.cfg.accountIds.index[f.owner.account], x.account, x.instrument, x.side, f);
    }
  }

  lemma {:induction false} SettleAllBooks(s: State, x: Taker, fills: seq<Fill>, cumulative: u64)
    ensures SettleAll(s, x, fills, cumulative).state.desk.books == s.desk.books
    decreases |fills|
  {
    hide SettleOne;
    if fills != [] && cumulative + fills[0].quantity <= U64_MAX && Successor(s.nextTrade).Some? {
      var s0 := s.(nextTrade := s.nextTrade + 1);
      SettleOneBooks(s0, x, fills[0], cumulative + fills[0].quantity);
      SettleAllBooks(SettleOne(s0, x, fills[0], cumulative + fills[0].quantity).state, x, fills[1..],
                     cumulative + fills[0].quantity);
    }
  }

  /** An execution changes one book, and there only the side it meets. */
  lemma ExecuteBooks(s: State, x: Taker, limit: i64)
    ensures var b, ms := BookAt(s.desk, x.instrument), x.side.Opposite();
      Execute(s, x, limit).state.desk.books
        == PutBook(s.desk, x.instrument, b.With(ms, Sweep(ms, b.Of(ms), limit, x.quantity).rest)).books
  {
    hide Sweep, SettleAll, BookAt;
    var b, ms := BookAt(s.desk, x.instrument), x.side.Opposite();
    var m := Sweep(ms, b.Of(ms), limit, x.quantity);
    SettleAllBooks(s.(desk := PutBook(s.desk, x.instrument, b.With(ms, m.rest))), x, m.fills, 0);
  }

  // ---- sizes --------------------------------------------------------------

  ghost predicate Fits(books: seq<Book>, capacity: nat) {
    forall i :: 0 <= i < |books| ==> books[i].Size() <= capacity
  }

  lemma FitsPut(d: Desk, i: nat, b: Book, capacity: nat)
    requires Fits(d.books, capacity) && (b.Size() <= capacity || b.Size() <= BookAt(d, i).Size())
    ensures Fits(PutBook(d, i, b).books, capacity)
  {
  }

  lemma SweptSize(side: Side, q: seq<Order>, limit: i64, quantity: u64)
    ensures |Sweep(side, q, limit, quantity).rest| <= |q|
  {
    hide Match;
    if Resting(side, q) {
      RestAfter(side, q, limit, quantity);
    }
  }

  lemma ExecuteFits(s: State, x: Taker, limit: i64)
    requires Fits(s.desk.books, s.cfg.capacity)
    ensures Fits(Execute(s, x, limit).state.desk.books, s.cfg.capacity)
  {
    hide Execute, Sweep, Fits;
    var b, ms := BookAt(s.desk, x.instrument), x.side.Opposite();
    ExecuteBooks(s, x, limit);
    SweptSize(ms, b.Of(ms), limit, x.quantity);
    FitsPut(s.desk, x.instrument, b.With(ms, Sweep(ms, b.Of(ms), limit, x.quantity).rest), s.cfg.capacity);
  }

  lemma RestFits(d: Desk, a: nat, i: nat, o: Order, capacity: nat)
    requires Fits(d.books, capacity) && Admits(BookAt(d, i), o, capacity)
    ensures Fits(Rest(d, a, i, o).desk.books, capacity)
  {
    hide Fits, Reserve;
    FitsPut(d, i, Insert(BookAt(d, i), o), capacity);
  }

  lemma RestOrderFits(s: State, x: Taker, client: u64, price: i64, total: u64, filled: u64)
    requires Fits(s.desk.books, s.cfg.capacity)
    ensures Fits(RestOrder(s, x, client, price, total, filled).desk.books, s.cfg.capacity)
  {
    hide Fits, Rest, Admits;
    if s.nextPriority < U64_MAX {
      var o := Order(x.id, Owner(x.request.account, client), x.side, price, total, filled, s.nextPriority + 1);
      if Admits(BookAt(s.desk, x.instrument), o, s.cfg.capacity) {
        assert o.filled <= o.total by { AdmitsFilled(BookAt(s.desk, x.instrument), o, s.cfg.capacity); }
        RestFits(s.desk, x.account, x.instrument, o, s.cfg.capacity);
      }
    }
  }

  lemma AdmitsFilled(b: Book, o: Order, capacity: nat)
    requires Admits(b, o, capacity)
    ensures o.filled <= o.total
  {
  }

  lemma RemoveSize(b: Book, id: u64)
    ensures Remove(b, id).Size() <= b.Size()
  {
  }

  lemma WithdrawFits(d: Desk, a: nat, i: nat, o: Order, capacity: nat)
    requires Fits(d.books, capacity) && o.filled <= o.total
    ensures Fits(Withdraw(d, a, i, o).desk.books, capacity)
  {
    hide Fits, Release, Remove;
    RemoveSize(BookAt(d, i), o.id);
    FitsPut(d, i, Remove(BookAt(d, i), o.id), capacity);
  }

  lemma ShrinkFits(d: Desk, a: nat, i: nat, o: Order, total: u64, capacity: nat)
    requires Fits(d.books, capacity) && total <= o.total
    ensures Fits(Shrink(d, a, i, o, total).desk.books, capacity)
  {
    hide Fits, Release;
    var freed := ReleaseOrder(d, a, i, o.side, o.total - total, o.price).desk;
    assert freed.books == d.books;
    FitsPut(freed, i, Reduce(BookAt(freed, i), o.id, total), capacity);
  }

  // ---- requests and runs --------------------------------------------------

  lemma NewFits(s: State, r: Request)
    requires Fits(s.desk.books, s.cfg.capacity)
    ensures Fits(HandleNew(s, r).state.desk.books, s.cfg.capacity)
  {
    hide Fits, CheckNew, Execute, Filling, RestOrder, BaseReport;
    var check := CheckNew(s, r);
    if check.Pass? && s.nextOrder < U64_MAX {
      var c, id := check.value, s.nextOrder + 1;
      var x := Taker(c.account, c.instrument, r, id, r.side, r.quantity);
      var e, filled := Execute(s.(nextOrder := id), x, c.limit), Filling(s, x, c.limit);
      ExecuteFits(s.(nextOrder := id), x, c.limit);
      ExecuteFramed(s.(nextOrder := id), x, c.limit);
      if filled <= r.quantity {
        RestOrderFits(e.state, x, r.clientOrderId, r.price, r.quantity, filled);
      }
    }
  }

  lemma CancelFits(s: State, r: Request)
    requires Fits(s.desk.books, s.cfg.capacity)
    ensures Fits(HandleCancel(s, r).state.desk.books, s.cfg.capacity)
  {
    hide Fits, Withdraw, Lookup, BaseReport;
    var key := Owner(r.account, r.target);
    if key in s.desk.clients && s.desk.clients[key] in s.desk.live {
      var id := s.desk.clients[key];
      var LiveOrder(a, i) := s.desk.live[id];
      var o := Lookup(BookAt(s.desk, i), id);
      if o.Some? && o.value.filled <= o.value.total {
        WithdrawFits(s.desk, a, i, o.value, s.cfg.capacity);
      }
    }
  }

  lemma InPlaceFits(s: State, r: Request, c: Replacement)
    requires Fits(s.desk.books, s.cfg.capacity) && r.quantity < c.existing.total
    ensures Fits(ReplaceInPlace(s, r, c).state.desk.books, s.cfg.capacity)
  {
    hide Fits, Shrink, BaseReport, Remove;
    var o := c.existing;
    var d := Shrink(s.desk, c.account, c.instrument, o, r.quantity).desk;
    ShrinkFits(s.desk, c.account, c.instrument, o, r.quantity, s.cfg.capacity);
    RemoveSize(BookAt(d, c.instrument), o.id);
    FitsPut(d, c.instrument, Remove(BookAt(d, c.instrument), o.id), s.cfg.capacity);
  }

  lemma AnewFits(s: State, r: Request, c: Replacement)
    requires Fits(s.desk.books, s.cfg.capacity)
    ensures Fits(ReplaceAnew(s, r, c).state.desk.books, s.cfg.capacity)
  {
    hide Fits, Execute, Filling, RestOrder, BaseReport;
    var o := c.existing;
    if r.quantity > o.filled {
      var x := Taker(c.account, c.instrument, r, o.id, o.side, r.quantity - o.filled);
      var e, cumulative := Execute(s, x, r.price), o.filled + Filling(s, x, r.price);
      ExecuteFits(s, x, r.price);
      ExecuteFramed(s, x, r.price);
      if cumulative <= U64_MAX {
        RestOrderFits(e.state, x, o.owner.client, r.price, r.quantity, cumulative);
      }
    }
  }

  lemma ReplaceFits(s: State, r: Request)
    requires Fits(s.desk.books, s.cfg.capacity)
    ensures Fits(HandleReplace(s, r).state.desk.books, s.cfg.capacity)
  {
    hide Fits, CheckReplace, ReplaceInPlace, ReplaceAnew, Withdraw, BaseReport;
    var check := CheckReplace(s, r);
    if check.Pass? {
      var c := check.value;
      if r.quantity < c.existing.total {
        InPlaceFits(s, r, c);
      }
      if c.existing.filled <= c.existing.total {
        WithdrawFits(s.desk, c.account, c.instrument, c.existing, s.cfg.capacity);
        AnewFits(s.On(Withdraw(s.desk, c.account, c.instrument, c.existing)), r, c);
      }
    }
  }

  lemma RequestFits(s: State, r: Request)
    requires Fits(s.desk.books, s.cfg.capacity)
    ensures Fits(ApplyRequest(s, r).state.desk.books, s.cfg.capacity)
  {
    hide Fits, HandleNew, HandleCancel, HandleReplace, CacheLookup, CacheRecord, BaseReport;
    NewFits(s, r);
    CancelFits(s, r);
    ReplaceFits(s, r);
  }

  lemma StepFits(s: State, input: Input)
    requires Fits(s.desk.books, s.cfg.capacity)
    ensures Fits(Step(s, input).state.desk.books, s.cfg.capacity)
  {
    hide Fits, ApplyRequest, Market.Apply;
    if s.fault.None? && s.engineSeq < U64_MAX && input.event.OrderInput? {
      RequestFits(s.(engineSeq := s.engineSeq + 1, time := input.recvTimeNs), input.event.request);
    }
  }

  /** In every reachable state each book holds at most its capacity of orders. */
  lemma {:induction false} BooksStayWithinCapacity(cfg: Config, openings: seq<Opening>, depth: nat, inputs: seq<Input>)
    requires |openings| == |cfg.accountIds.ids|
    ensures var s := Runs.Run(Initial(cfg, openings, depth), inputs).state;
      s.cfg == cfg && Fits(s.desk.books, cfg.capacity)
    decreases |inputs|
  {
    hide Step;
    if inputs != [] {
      var n := |inputs| - 1;
      BooksStayWithinCapacity(cfg, openings, depth, inputs[..n]);
      var s := Runs.Run(Initial(cfg, openings, depth), inputs[..n]).state;
      StepFits(s, inputs[n]);
      StepConfig(s, inputs[n]);
    }
  }
}
