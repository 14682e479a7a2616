/** The projected orders table against the live book: exact at every input
    boundary, except where a retry repeats an old report or a remainder that
    was reported as resting was refused by the book. */
module OrdersTable {
  import opened Domain
  import opened PriceTime
  import opened Ledger
  import opened Accounts
  import opened Core
  import opened Safety
  import opened Outputs
  import opened History
  import opened Projecting
  import opened Runs
  import opened Capacity
  import Market

  function RowOf(o: Order): OrderRow {
    OrderRow(o.price, o.total, o.filled)
  }

  ghost predicate RowMatches(orders: map<u64, OrderRow>, d: Desk, i: nat, id: u64) {
    Lookup(BookAt(d, i), id).Some? ==> id in orders && orders[id] == RowOf(Lookup(BookAt(d, i), id).value)
  }

  /** The table shows the live orders, except possibly one id. */
  ghost predicate MirrorsExcept(orders: map<u64, OrderRow>, d: Desk, x: Option<u64>) {
    && 0 !in d.live
    && (forall id :: id in orders && x != Some(id) ==> id in d.live)
    && (forall i: nat, id: u64 :: x != Some(id) ==> RowMatches(orders, d, i, id))
  }

  ghost predicate Mirrors(orders: map<u64, OrderRow>, d: Desk) {
    MirrorsExcept(orders, d, None)
  }

  lemma MirrorsLess(orders: map<u64, OrderRow>, d: Desk, id: u64)
    requires Mirrors(orders, d)
    ensures MirrorsExcept(orders, d, Some(id))
  {
    hide RowMatches;
  }

  // ---- what one fill's events do to the table -----------------------------

  function AfterFill(orders: map<u64, OrderRow>, f: Fill): map<u64, OrderRow> {
    if f.makerRemaining == 0 then orders - {f.makerId}
    else orders[f.makerId := OrderRow(f.price, f.makerTotal, f.makerCumulative)]
  }

  /** Only the aggressor's own row may differ. */
  ghost predicate SameBut(a: map<u64, OrderRow>, b: map<u64, OrderRow>, x: u64) {
    forall id: u64 :: id != x ==> (id in a <==> id in b) && (id in a ==> a[id] == b[id])
  }

  lemma FoldThree(t: Tables, a: Output, b: Output, c: Output)
    ensures Fold(t, [a, b, c]) == Absorbed(Absorbed(Absorbed(t, a), b), c)
  {
    hide Absorbed;
    assert [a, b, c][..2] == [a, b] && [a, b][..1] == [a] && [a][..0] == [];
    assert Fold(t, []) == t;
    assert Fold(t, [a]) == Absorbed(t, a);
    assert Fold(t, [a, b]) == Absorbed(Fold(t, [a]), b);
  }

  lemma FillTable(s: State, x: Taker, f: Fill, cumulative: u64, t: Tables)
    requires SettleOne(s, x, f, cumulative).state.fault.None? && f.makerId != 0
    ensures SameBut(Fold(t, SettleOne(s, x, f, cumulative).out).orders, AfterFill(t.orders, f), x.id)
  {
    hide SettleFill, ProjectTrade, TradeFor, InstrumentId;
    var out := SettleOne(s, x, f, cumulative).out;
    FoldThree(t, out[0], out[1], out[2]);
    assert Absorbed(t, out[0]).orders == t.orders by { TradeOrders(t, out[0].trade); }
    TakerOnly(Absorbed(Absorbed(t, out[0]), out[1]), out[2].report, x.id);
  }

  lemma TradeOrders(t: Tables, e: Trade)
    ensures ProjectTrade(t, e).orders == t.orders
  {
  }

  lemma TakerOnly(t: Tables, r: Report, x: u64)
    requires r.orderId == x
    ensures SameBut(ProjectReport(t, r).orders, t.orders, x)
  {
  }

  lemma SameMirrors(a: map<u64, OrderRow>, b: map<u64, OrderRow>, d: Desk, x: u64)
    requires SameBut(a, b, x) && MirrorsExcept(b, d, Some(x))
    ensures MirrorsExcept(a, d, Some(x))
  {
    hide Lookup, BookAt;
    forall i: nat, id: u64 | id != x ensures RowMatches(a, d, i, id) {
      assert RowMatches(b, d, i, id);
    }
  }

  /** One order of one book changed, and its row with it. */
  lemma MirrorsChange(orders: map<u64, OrderRow>, orders': map<u64, OrderRow>, d: Desk, d': Desk, i: nat, id: u64,
                      o: Option<Order>, x: Option<u64>)
    requires MirrorsExcept(orders, d, x) && OneChange(d, d', i, id, o)
    requires forall j: nat :: j != i ==> Lookup(BookAt(d, j), id).None?
    requires if o.Some? then orders' == orders[id := RowOf(o.value)] && d'.live.Keys == d.live.Keys + {id} && id != 0
             else orders' == orders - {id} && d'.live.Keys == d.live.Keys - {id}
    ensures MirrorsExcept(orders', d', if x == Some(id) then None else x)
  {
    hide Lookup, BookAt, OneChange;
    forall j: nat, y: u64 | (if x == Some(id) then None else x) != Some(y) ensures RowMatches(orders', d', j, y) {
      ChangeAt(d, d', i, id, o, j, y);
      if y != id { assert RowMatches(orders, d, j, y); }
    }
  }

  lemma Elsewhere(r: Roster, d: Desk, i: nat, id: u64)
    requires Keyed(r, d) && (id !in d.live || d.live[id].instrument == i)
    ensures forall j: nat :: j != i ==> Lookup(BookAt(d, j), id).None?
  {
    hide Lookup, BookAt, LiveOk, ClientOk;
    forall j: nat | j != i ensures Lookup(BookAt(d, j), id).None? {
      assert Listed(d, j, id);
    }
  }

  lemma FillMirrors(s: State, s1: State, x: Taker, caps: seq<Cap>, limit: i64, q: seq<Order>,
                    quantity: u64, cumulative: u64, traded: u64, t: Tables)
    requires x.account < |s.cfg.accountIds.ids| && x.instrument < |s.desk.books| && x.id !in s.desk.live
    requires q != [] && 0 < traded <= q[0].Remaining() && traded <= quantity && cumulative + quantity == x.quantity
    requires s.nextTrade < U64_MAX
    requires Sound(s.cfg.accountIds, Seen(s.desk, x.instrument, x.side.Opposite(), q), caps,
                   PendingOf(x, limit, quantity))
    requires s1 == SettleOne(s.(nextTrade := s.nextTrade + 1), x, FillOf(q[0], traded), cumulative + traded).state
    requires s1.fault.None?
    requires MirrorsExcept(t.orders, Seen(s.desk, x.instrument, x.side.Opposite(), q), Some(x.id))
    ensures var out := SettleOne(s.(nextTrade := s.nextTrade + 1), x, FillOf(q[0], traded), cumulative + traded).out;
      MirrorsExcept(Fold(t, out).orders, Seen(s1.desk, x.instrument, x.side.Opposite(), FillHead(q, traded)), Some(x.id))
  {
    hide Sound, SettleOne, SettleFill, FillHead, Lookup, Orderly, Fold, Keyed, MirrorsExcept, SameBut, OneChange, AfterFill;
    var r, i, ms := s.cfg.accountIds, x.instrument, x.side.Opposite();
    var pend := PendingOf(x, limit, quantity);
    var s0 := s.(nextTrade := s.nextTrade + 1);
    var f := FillOf(q[0], traded);
    var v := Seen(s.desk, i, ms, q);
    SeenSize(s.desk, i, ms, q);
    SeenTraded(s.desk, 0, pend, q, traded);
    TradeKeeps(r, v, caps, pend, traded);
    TradeLots(r, v, caps, pend, traded);
    var maker := r.index[q[0].owner.account];
    SeenTraded(s.desk, maker, pend, q, traded);
    SettleOneEffect(s0, x, f, cumulative + traded);
    var v1 := Traded(v, maker, pend, traded);
    FillChange(r, v, v1, caps, pend, i, ms, maker, traded);
    var o := q[0].(filled := q[0].filled + traded);
    MirrorsSome(t.orders, v, x.id);
    assert MirrorsExcept(AfterFill(t.orders, f), v1, Some(x.id)) by {
      AfterFillRow(t.orders, q[0], traded);
      MirrorsChange(t.orders, AfterFill(t.orders, f), v, v1, i, q[0].id,
                    if traded == q[0].Remaining() then None else Some(o), Some(x.id));
    }
    FillTable(s0, x, f, cumulative + traded, t);
    SameMirrors(Fold(t, SettleOne(s0, x, f, cumulative + traded).out).orders, AfterFill(t.orders, f), v1, x.id);
  }

  lemma AfterFillRow(orders: map<u64, OrderRow>, o: Order, traded: u64)
    requires 0 < traded <= o.Remaining()
    ensures AfterFill(orders, FillOf(o, traded))
         == if traded == o.Remaining() then orders - {o.id} else orders[o.id := RowOf(o.(filled := o.filled + traded))]
  {
  }

  lemma MirrorsSome(orders: map<u64, OrderRow>, d: Desk, x: u64)
    requires MirrorsExcept(orders, d, Some(x))
    ensures 0 !in d.live
  {
  }

  lemma FillChange(r: Roster, v: Desk, v1: Desk, caps: seq<Cap>, pend: Pending, i: nat, ms: Side, maker: nat, traded: u64)
    requires Sound(r, v, caps, pend) && i == pend.instrument && ms == pend.side.Opposite() && i < |v.books|
    requires BookAt(v, i).Of(ms) != [] && 0 < traded <= BookAt(v, i).Of(ms)[0].Remaining()
    requires v1 == Traded(v, maker, pend, traded)
    ensures var o := BookAt(v, i).Of(ms)[0];
      && o.id in v.live
      && OneChange(v, v1, i, o.id, if traded == o.Remaining() then None else Some(o.(filled := o.filled + traded)))
      && v1.live.Keys == (if traded == o.Remaining() then v.live.Keys - {o.id} else v.live.Keys + {o.id})
      && (forall j: nat :: j != i ==> Lookup(BookAt(v, j), o.id).None?)
  {
    hide Reserved, Roomy, Keyed, Lookup, FillHead, SettleFill, Unique, Ordered, Shaped;
    var o := BookAt(v, i).Of(ms)[0];
    assert Orderly(BookAt(v, i));
    LookupAt(BookAt(v, i), ms, 0);
    Registered(r, v, i, o.id);
    Elsewhere(r, v, i, o.id);
    SettledRegistries(v, maker, pend.account, i, pend.side, FillOf(o, traded));
    forall y: u64 ensures Lookup(BookAt(v1, i), y) == if y == o.id then
        (if traded == o.Remaining() then None else Some(o.(filled := o.filled + traded))) else Lookup(BookAt(v, i), y)
    {
      LookupFill(BookAt(v, i), ms, traded, y);
    }
  }

  lemma {:induction false} SettleMirrors(s: State, x: Taker, caps: seq<Cap>, limit: i64, q: seq<Order>,
                                         quantity: u64, cumulative: u64, t: Tables)
    requires x.account < |s.cfg.accountIds.ids| && x.instrument < |s.desk.books| && x.id !in s.desk.live
    requires cumulative + quantity == x.quantity
    requires Resting(x.side.Opposite(), q)
    requires Sound(s.cfg.accountIds, Seen(s.desk, x.instrument, x.side.Opposite(), q), caps,
                   PendingOf(x, limit, quantity))
    requires SettleAll(s, x, Match(x.side.Opposite(), q, limit, quantity).fills, cumulative).state.fault.None?
    requires MirrorsExcept(t.orders, Seen(s.desk, x.instrument, x.side.Opposite(), q), Some(x.id))
    ensures var ms := x.side.Opposite();
      var m := Match(ms, q, limit, quantity);
      var e := SettleAll(s, x, m.fills, cumulative);
      MirrorsExcept(Fold(t, e.out).orders, Seen(e.state.desk, x.instrument, ms, m.rest), Some(x.id))
    decreases quantity
  {
    hide Sound, Match, SettleOne, FillHead, Resting, Advanced, Seen, Lots, SettleAll, MirrorsExcept, Fold;
    var ms := x.side.Opposite();
    var m := Match(ms, q, limit, quantity);
    if quantity == 0 || q == [] || !Eligible(ms, q[0].price, limit) {
      MatchNothing(ms, q, limit, quantity);
      SettleNone(s, x, cumulative);
      assert Fold(t, []) == t by { FoldNothing(t); }
    } else {
      FirstFill(ms, q, limit, quantity);
      var traded := Min(quantity, q[0].Remaining());
      SettleSome(s, x, m.fills, cumulative);
      var s1 := SettleFirst(s, x, caps, limit, q, quantity, cumulative);
      var one := SettleOne(s.(nextTrade := s.nextTrade + 1), x, m.fills[0], cumulative + traded);
      AdvancedSame(s, s1);
      assert x.id !in s1.desk.live by { AdvancedLive(s, s1); }
      var m1 := Match(ms, FillHead(q, traded), limit, quantity - traded);
      var rest := SettleAll(s1, x, m1.fills, cumulative + traded);
      SettleAllEvents(s1, x, m1.fills, cumulative + traded);
      FillMirrors(s, s1, x, caps, limit, q, quantity, cumulative, traded, t);
      SettleMirrors(s1, x, caps, limit, FillHead(q, traded), quantity - traded, cumulative + traded, Fold(t, one.out));
      FoldConcat(t, one.out, rest.out);
    }
  }

  lemma FoldNothing(t: Tables)
    ensures Fold(t, []) == t
  {
  }

  lemma AdvancedLive(s: State, s1: State)
    requires Advanced(s, s1)
    ensures s1.desk.live.Keys <= s.desk.live.Keys
  {
  }

  lemma ExecuteMirrors(s: State, x: Taker, caps: seq<Cap>, limit: i64, t: Tables)
    requires x.account < |s.cfg.accountIds.ids| && x.instrument < |s.desk.books| && x.id !in s.desk.live
    requires Sound(s.cfg.accountIds, s.desk, caps, PendingOf(x, limit, x.quantity))
    requires Execute(s, x, limit).state.fault.None?
    requires MirrorsExcept(t.orders, s.desk, Some(x.id))
    ensures MirrorsExcept(Fold(t, Execute(s, x, limit).out).orders, Execute(s, x, limit).state.desk, Some(x.id))
  {
    hide Sound, Match, SettleAll, Queue, Disjoint, Lots, Seen, Resting, MirrorsExcept, Fold;
    var i, ms := x.instrument, x.side.Opposite();
    var b := BookAt(s.desk, i);
    var q := b.Of(ms);
    assert Orderly(b) by { SoundOrderly(s.cfg.accountIds, s.desk, caps, PendingOf(x, limit, x.quantity), i); }
    QueueRests(b);
    var m := Match(ms, q, limit, x.quantity);
    var s0 := s.(desk := PutBook(s.desk, i, b.With(ms, m.rest)));
    SeenWhole(s.desk, i, ms, m.rest);
    SettleKeeps(s0, x, caps, limit, q, x.quantity, 0);
    SettleMirrors(s0, x, caps, limit, q, x.quantity, 0, t);
    var e := SettleAll(s0, x, m.fills, 0).state;
    SeenSelf(e.desk, s0.desk, i, ms, m.rest);
  }

  // ---- the final report ---------------------------------------------------

  lemma FoldLast(t: Tables, out: seq<Output>, r: Report)
    ensures Fold(t, out + [ReportOut(r)]) == ProjectReport(Fold(t, out), r)
  {
    var all := out + [ReportOut(r)];
    assert all[..|all| - 1] == out;
  }

  /** A terminal report clears the aggressor's row. */
  lemma EndsTerminal(t: Tables, r: Roster, d: Desk, report: Report)
    requires MirrorsExcept(t.orders, d, Some(report.orderId)) && Keyed(r, d) && report.orderId !in d.live
    requires report.reject.None? && report.orderId != 0 && (report.state.FullyFilled? || report.state.CancelledState?)
    ensures Mirrors(ProjectReport(t, report).orders, d)
  {
    hide Lookup, BookAt, Keyed;
    forall i: nat, id: u64 ensures RowMatches(ProjectReport(t, report).orders, d, i, id) {
      if id == report.orderId {
        Unlisted(d, i, id, r);
      } else {
        assert RowMatches(t.orders, d, i, id);
      }
    }
  }

  /** A working report sets the row of the order that rests. */
  lemma EndsResting(t: Tables, r: Roster, d: Desk, d': Desk, i: nat, o: Order, report: Report)
    requires MirrorsExcept(t.orders, d, Some(o.id)) && Keyed(r, d) && o.id !in d.live && o.id != 0
    requires OneChange(d, d', i, o.id, Some(o)) && d'.live.Keys == d.live.Keys + {o.id}
    requires report.reject.None? && report.orderId == o.id && !report.state.FullyFilled? && !report.state.CancelledState?
    requires OrderRow(report.price, report.total, report.cumulative) == RowOf(o)
    ensures Mirrors(ProjectReport(t, report).orders, d')
  {
    hide Lookup, BookAt, Keyed, OneChange, RowMatches;
    Elsewhere(r, d, i, o.id);
    MirrorsChange(t.orders, ProjectReport(t, report).orders, d, d', i, o.id, Some(o), Some(o.id));
  }

  /** A working report without a resting order leaves a row behind. */
  lemma EndsDropped(t: Tables, d: Desk, report: Report)
    requires report.reject.None? && report.orderId != 0 && report.orderId !in d.live
    requires !report.state.FullyFilled? && !report.state.CancelledState?
    ensures !Mirrors(ProjectReport(t, report).orders, d)
  {
    assert report.orderId in ProjectReport(t, report).orders;
  }

  /** A reported remainder the book refuses: no room, or a level that would
      overflow. */
  ghost predicate Refuses(e: State, x: Taker, client: u64, price: i64, total: u64, filled: u64) {
    e.nextPriority < U64_MAX &&
      !Admits(BookAt(e.desk, x.instrument),
              Order(x.id, Owner(x.request.account, client), x.side, price, total, filled, e.nextPriority + 1), e.cfg.capacity)
  }

  /** Resting a remainder and reporting it. */
  lemma RestMirrors(e: State, x: Taker, caps: seq<Cap>, pend: Pending, client: u64, price: i64, total: u64, filled: u64,
                    t: Tables, report: Report)
    requires Sound(e.cfg.accountIds, e.desk, caps, pend) && BooksOk(e.desk, e.nextOrder, e.nextPriority)
    requires x.id !in e.desk.live && x.instrument < |e.desk.books| && filled < total && x.id != 0
    requires MirrorsExcept(t.orders, e.desk, Some(x.id))
    requires RestOrder(e, x, client, price, total, filled).fault.None?
    requires report.reject.None? && report.orderId == x.id && !report.state.FullyFilled? && !report.state.CancelledState?
    requires OrderRow(report.price, report.total, report.cumulative) == OrderRow(price, total, filled)
    ensures Mirrors(ProjectReport(t, report).orders, RestOrder(e, x, client, price, total, filled).desk)
      <==> !Refuses(e, x, client, price, total, filled)
  {
    hide Reserved, Roomy, BooksOk, Keyed, Orderly, Rest, Admits, Fresh, MirrorsExcept, OneChange, Lookup, BookAt, ProjectReport,
      ReserveOrder, Pos;
    var i, n := x.instrument, e.nextPriority + 1;
    var o := Order(x.id, Owner(x.request.account, client), x.side, price, total, filled, n);
    if Refuses(e, x, client, price, total, filled) {
      EndsDropped(t, e.desk, report);
    } else {
      FreshAgain(e.cfg.accountIds, e.desk, i, x.side, x.id, e.nextOrder, e.nextPriority, n);
      Unlisted(e.desk, i, x.id, e.cfg.accountIds);
      assert Orderly(BookAt(e.desk, i));
      RestChange(e.desk, x.account, i, o);
      RestedEffects(e.desk, x.account, i, o);
      EndsResting(t, e.cfg.accountIds, e.desk, Rest(e.desk, x.account, i, o).desk, i, o, report);
    }
  }

  // ---- requests -----------------------------------------------------------

  /** A new order whose remainder is reported as resting but refused. */
  ghost predicate NewRefused(s: State, r: Request) {
    && CheckNew(s, r).Pass? && s.nextOrder < U64_MAX && r.orderType.LimitOrder?
    && var c := CheckNew(s, r).value;
    var x := Taker(c.account, c.instrument, r, s.nextOrder + 1, r.side, r.quantity);
    var s0 := s.(nextOrder := s.nextOrder + 1);
    && Filling(s, x, c.limit) < r.quantity
    && Refuses(Execute(s0, x, c.limit).state, x, r.clientOrderId, r.price, r.quantity, Filling(s, x, c.limit))
  }

  ghost predicate TableFollows(t: Tables, h: Handled, drops: bool) {
    Mirrors(Fold(t, h.out + [ReportOut(h.report)]).orders, h.state.desk) <==> !drops
  }

  /** A rejection changes neither the book nor the table. */
  lemma RejectFollows(t: Tables, s: State, r: Request, reason: RejectReason)
    requires Mirrors(t.orders, s.desk)
    ensures TableFollows(t, Reject(s, r, reason, []), false)
  {
    hide Mirrors;
    FoldLast(t, [], Reject(s, r, reason, []).report);
    FoldNothing(t);
  }

  lemma AnswerDesk(s: State, out: seq<Output>, r: Request, id: u64, kind: ReportKind, state: OrderState, cumulative: u64, remaining: u64)
    ensures var h := Answer(s, out, r, id, kind, state, cumulative, remaining);
      && h.state.desk == s.desk && h.out == out && (h.state.fault.None? ==> s.fault.None?)
      && h.report.orderId == id && h.report.state == state && h.report.reject.None? && h.report.cumulative == cumulative
      && h.report.price == r.price && h.report.total == r.quantity
  {
  }

  lemma NewFollows(s: State, caps: seq<Cap>, r: Request, t: Tables)
    requires Good(s, caps) && s.fault.None? && Mirrors(t.orders, s.desk)
    requires HandleNew(s, r).state.fault.None?
    ensures TableFollows(t, HandleNew(s, r), NewRefused(s, r))
  {
    hide Good, Execute, Filling, CheckNew, RestOrder, Executed, Sound, BooksOk, Mirrors, MirrorsExcept, Answer, Fold, ProjectReport,
      Refuses, Fitted, CapsCover;
    if CheckNew(s, r).Refuse? {
      RejectFollows(t, s, r, CheckNew(s, r).reason);
    } else if s.nextOrder == U64_MAX {
      RejectFollows(t, s.(fault := Some(SequenceExhausted)), r, CapacityExhausted);
    } else {
      var c, id := CheckNew(s, r).value, s.nextOrder + 1;
      var x := Taker(c.account, c.instrument, r, id, r.side, r.quantity);
      var s0 := s.(nextOrder := id);
      NewPends(s, caps, r);
      ExecuteKeeps(s0, x, caps, c.limit);
      var e, filled := Execute(s0, x, c.limit), Filling(s, x, c.limit);
      FillingSame(s, s0, x, c.limit);
      ExecutedLeft(s0, e.state, x, caps, c.limit, r.quantity - filled);
      var t1 := Fold(t, e.out);
      FoldLast(t, e.out, HandleNew(s, r).report);
      MirrorsLess(t.orders, s.desk, id);
      if filled == r.quantity || r.orderType.MarketOrder? {
        AnswerDesk(e.state, e.out, r, id, Filled, FullyFilled, filled, 0);
        AnswerDesk(e.state, e.out, r, id, Cancelled, CancelledState, filled, 0);
        ExecutedSound(s0, e.state, x, caps, c.limit, r.quantity - filled);
        ExecuteMirrors(s0, x, caps, c.limit, t);
        SoundKeyed(s.cfg.accountIds, e.state.desk, caps, PendingOf(x, c.limit, r.quantity - filled));
        EndsTerminal(t1, s.cfg.accountIds, e.state.desk, HandleNew(s, r).report);
      } else {
        var rested := RestOrder(e.state, x, r.clientOrderId, r.price, r.quantity, filled);
        AnswerDesk(rested, e.out, r, id, Accepted, StateOf(filled), filled, r.quantity - filled);
        RestOrderFault(e.state, x, r.clientOrderId, r.price, r.quantity, filled);
        ExecutedSound(s0, e.state, x, caps, c.limit, r.quantity - filled);
        ExecuteMirrors(s0, x, caps, c.limit, t);
        RestMirrors(e.state, x, caps, PendingOf(x, c.limit, r.quantity - filled), r.clientOrderId, r.price, r.quantity, filled,
                    t1, HandleNew(s, r).report);
      }
    }
  }

  lemma SoundKeyed(r: Roster, d: Desk, caps: seq<Cap>, pend: Pending)
    requires Sound(r, d, caps, pend)
    ensures Keyed(r, d)
  {
    hide Keyed, Roomy, Reserved, Orderlies;
  }

  /** A withdrawn order with its row still in the table. */
  lemma WithdrawnMirrors(s: State, caps: seq<Cap>, a: nat, i: nat, o: Order, orders: map<u64, OrderRow>)
    requires Good(s, caps) && i < |s.desk.books| && Mirrors(orders, s.desk)
    requires Lookup(BookAt(s.desk, i), o.id) == Some(o)
    requires o.owner.account in s.cfg.accountIds.index && a == s.cfg.accountIds.index[o.owner.account]
    ensures o.filled < o.total && o.id != 0 && o.id in s.desk.live
    ensures var d := Withdraw(s.desk, a, i, o).desk;
      && Mirrors(orders - {o.id}, d) && MirrorsExcept(orders, d, Some(o.id)) && d.live == s.desk.live - {o.id}
  {
    hide Good, Lookup, BookAt, Withdraw, OneChange, ReleaseOrder, Keyed, RowMatches, Orderly;
    GoodKeyed(s, caps);
    Registered(s.cfg.accountIds, s.desk, i, o.id);
    Elsewhere(s.cfg.accountIds, s.desk, i, o.id);
    assert Orderly(BookAt(s.desk, i));
    WithdrawChange(s.desk, a, i, o);
    WithdrawnEffects(s.desk, a, i, o);
    var d := Withdraw(s.desk, a, i, o).desk;
    MirrorsChange(orders, orders - {o.id}, s.desk, d, i, o.id, None, None);
    Unmirrored(orders, d, o.id);
  }

  lemma Unmirrored(orders: map<u64, OrderRow>, d: Desk, id: u64)
    requires Mirrors(orders - {id}, d)
    ensures MirrorsExcept(orders, d, Some(id))
  {
    hide Lookup, BookAt;
    forall i: nat, x: u64 | x != id ensures RowMatches(orders, d, i, x) {
      assert RowMatches(orders - {id}, d, i, x);
    }
  }

  lemma CancelFollows(s: State, caps: seq<Cap>, r: Request, t: Tables)
    requires Good(s, caps) && s.fault.None? && Mirrors(t.orders, s.desk)
    ensures TableFollows(t, HandleCancel(s, r), false)
  {
    hide Good, Withdraw, Lookup, Keyed, Mirrors, MirrorsExcept, Fold, Reject;
    var key := Owner(r.account, r.target);
    if r.account !in s.cfg.accountIds.index {
      RejectFollows(t, s, r, UnknownAccount);
    } else if key !in s.desk.clients {
      RejectFollows(t, s, r, UnknownOrder);
    } else {
      GoodKeyed(s, caps);
      ClientOrder(s.cfg.accountIds, s.desk, key);
      var id := s.desk.clients[key];
      var LiveOrder(a, i) := s.desk.live[id];
      var o := Lookup(BookAt(s.desk, i), id).value;
      WithdrawnMirrors(s, caps, a, i, o, t.orders);
      FoldLast(t, [], HandleCancel(s, r).report);
      FoldNothing(t);
    }
  }

  lemma InPlaceFollows(s: State, caps: seq<Cap>, r: Request, c: Replacement, t: Tables)
    requires Good(s, caps) && s.fault.None? && c.instrument < |s.desk.books| && Mirrors(t.orders, s.desk)
    requires var o := c.existing;
      && o.owner.account in s.cfg.accountIds.index && c.account == s.cfg.accountIds.index[o.owner.account]
      && Lookup(BookAt(s.desk, c.instrument), o.id) == Some(o)
      && o.filled <= r.quantity < o.total && r.price == o.price
    ensures TableFollows(t, ReplaceInPlace(s, r, c), false)
  {
    hide Good, Withdraw, Lookup, Shrink, Remove, Mirrors, MirrorsExcept, Fold, Orderly, Keyed;
    var o, a, i := c.existing, c.account, c.instrument;
    var report := ReplaceInPlace(s, r, c).report;
    GoodKeyed(s, caps);
    assert Orderly(BookAt(s.desk, i));
    FoldLast(t, [], report);
    FoldNothing(t);
    WithdrawnMirrors(s, caps, a, i, o, t.orders);
    if r.quantity == o.filled {
      ShrinkAway(s.desk, a, i, o);
    } else {
      ShrunkMirrors(s, caps, a, i, o, r.quantity, t.orders);
    }
  }

  lemma ShrunkMirrors(s: State, caps: seq<Cap>, a: nat, i: nat, o: Order, total: u64, orders: map<u64, OrderRow>)
    requires Good(s, caps) && i < |s.desk.books| && Mirrors(orders, s.desk)
    requires Lookup(BookAt(s.desk, i), o.id) == Some(o) && o.filled < total < o.total && o.id in s.desk.live && o.id != 0
    ensures Mirrors(orders[o.id := OrderRow(o.price, total, o.filled)], Shrink(s.desk, a, i, o, total).desk)
  {
    hide Good, Lookup, BookAt, Shrink, OneChange, Keyed, RowMatches, Orderly;
    GoodKeyed(s, caps);
    Registered(s.cfg.accountIds, s.desk, i, o.id);
    Elsewhere(s.cfg.accountIds, s.desk, i, o.id);
    assert Orderly(BookAt(s.desk, i));
    ShrinkChange(s.desk, a, i, o, total);
    var d := Shrink(s.desk, a, i, o, total).desk;
    assert d.live == s.desk.live by { ShrunkLive(s.desk, a, i, o, total); }
    MirrorsChange(orders, orders[o.id := OrderRow(o.price, total, o.filled)], s.desk, d, i, o.id, Some(o.(total := total)), None);
  }

  lemma ShrunkLive(d: Desk, a: nat, i: nat, o: Order, total: u64)
    requires total <= o.total
    ensures Shrink(d, a, i, o, total).desk.live == d.live
  {
    ReleaseFrame(d, a, i, o.side, o.total - total, o.price);
  }

  /** A replacement whose remainder is reported as resting but refused. */
  ghost predicate AnewRefused(s1: State, r: Request, c: Replacement) {
    var o := c.existing;
    && o.filled < r.quantity
    && var x := Taker(c.account, c.instrument, r, o.id, o.side, r.quantity - o.filled);
    && Filling(s1, x, r.price) < x.quantity
    && Refuses(Execute(s1, x, r.price).state, x, o.owner.client, r.price, r.quantity, o.filled + Filling(s1, x, r.price))
  }

  ghost predicate ReplaceRefused(s: State, r: Request) {
    && CheckReplace(s, r).Pass?
    && var c := CheckReplace(s, r).value;
    && !(r.price == c.existing.price && r.quantity < c.existing.total) && c.existing.filled <= c.existing.total
    && AnewRefused(s.On(Withdraw(s.desk, c.account, c.instrument, c.existing)), r, c)
  }

  lemma AnewFollows(s1: State, caps: seq<Cap>, r: Request, c: Replacement, t: Tables)
    requires Good(s1, caps) && s1.fault.None?
    requires c.account < |s1.cfg.accountIds.ids| && c.instrument < |s1.desk.books|
    requires MirrorsExcept(t.orders, s1.desk, Some(c.existing.id))
    requires var o := c.existing;
      && r.account == s1.cfg.accountIds.ids[c.account] && o.filled <= r.quantity && o.id <= s1.nextOrder && o.id != 0
      && o.id !in s1.desk.live && r.side == o.side
      && (o.filled < r.quantity ==>
            var x := Taker(c.account, c.instrument, r, o.id, o.side, r.quantity - o.filled);
            Sound(s1.cfg.accountIds, s1.desk, caps, PendingOf(x, r.price, x.quantity)))
    requires ReplaceAnew(s1, r, c).state.fault.None?
    ensures TableFollows(t, ReplaceAnew(s1, r, c), AnewRefused(s1, r, c))
  {
    hide Execute, Filling, RestOrder, Executed, Sound, BooksOk, Mirrors, MirrorsExcept, Answer, Fold, ProjectReport, Refuses,
      Fitted, CapsCover;
    var o := c.existing;
    var report := ReplaceAnew(s1, r, c).report;
    if r.quantity == o.filled {
      AnswerDesk(s1, [], r, o.id, Cancelled, CancelledState, o.filled, 0);
      FoldLast(t, [], report);
      FoldNothing(t);
      SoundKeyed(s1.cfg.accountIds, s1.desk, caps, Idle);
      EndsTerminal(t, s1.cfg.accountIds, s1.desk, report);
    } else {
      var x := Taker(c.account, c.instrument, r, o.id, o.side, r.quantity - o.filled);
      ExecuteKeeps(s1, x, caps, r.price);
      var e, left := Execute(s1, x, r.price), x.quantity - Filling(s1, x, r.price);
      var cumulative := o.filled + Filling(s1, x, r.price);
      ExecutedLeft(s1, e.state, x, caps, r.price, left);
      FoldLast(t, e.out, report);
      if left == 0 {
        AnswerDesk(e.state, e.out, r, o.id, Filled, FullyFilled, cumulative, 0);
        ExecutedSound(s1, e.state, x, caps, r.price, left);
        ExecuteMirrors(s1, x, caps, r.price, t);
        SoundKeyed(s1.cfg.accountIds, e.state.desk, caps, PendingOf(x, r.price, left));
        EndsTerminal(Fold(t, e.out), s1.cfg.accountIds, e.state.desk, report);
      } else {
        var rested := RestOrder(e.state, x, o.owner.client, r.price, r.quantity, cumulative);
        AnswerDesk(rested, e.out, r, o.id, Replaced, StateOf(cumulative), cumulative, r.quantity - cumulative);
        RestOrderFault(e.state, x, o.owner.client, r.price, r.quantity, cumulative);
        ExecutedSound(s1, e.state, x, caps, r.price, left);
        ExecuteMirrors(s1, x, caps, r.price, t);
        RestMirrors(e.state, x, caps, PendingOf(x, r.price, left), o.owner.client, r.price, r.quantity, cumulative,
                    Fold(t, e.out), report);
      }
    }
  }

  lemma ReplaceFollows(s: State, caps: seq<Cap>, r: Request, t: Tables)
    requires Good(s, caps) && s.fault.None? && Mirrors(t.orders, s.desk)
    requires HandleReplace(s, r).state.fault.None?
    ensures TableFollows(t, HandleReplace(s, r), ReplaceRefused(s, r))
  {
    hide Good, ReplaceInPlace, ReplaceAnew, CheckReplace, Admitted, Sound, Withdraw, Lookup, Mirrors, MirrorsExcept, AnewRefused, Fold, Reject;
    if CheckReplace(s, r).Refuse? {
      RejectFollows(t, s, r, CheckReplace(s, r).reason);
    } else {
      var c := CheckReplace(s, r).value;
      ReplaceAdmitted(s, caps, r);
      var o := c.existing;
      if r.price == o.price && r.quantity < o.total {
        InPlaceFollows(s, caps, r, c, t);
      } else {
        WithdrawGood(s, caps, c.account, c.instrument, o);
        WithdrawnMirrors(s, caps, c.account, c.instrument, o, t.orders);
        var s1 := s.(desk := Withdraw(s.desk, c.account, c.instrument, o).desk);
        if o.filled < r.quantity {
          var x := Taker(c.account, c.instrument, r, o.id, o.side, r.quantity - o.filled);
          ReplacePends(s, s1, caps, x, r.price, o);
        }
        WithdrawnSize(s.desk, c.account, c.instrument, o);
        AnewFollows(s1, caps, r, c, t);
      }
    }
  }

  /** Its remainder is reported as resting and the book refuses it. */
  ghost predicate Refused(s: State, r: Request) {
    match r.kind
    case New => NewRefused(s, r)
    case Cancel => false
    case Replace => ReplaceRefused(s, r)
  }

  // ---- the same, seen before the call -------------------------------------

  /** What is left of a quantity after all liquidity within the limit is taken. */
  ghost function Unmet(q: seq<Order>, side: Side, limit: i64, quantity: u64): int {
    quantity - Min(quantity, Sum(q, PriceTime.Reachable(side, limit)))
  }

  /** The level has no room for so many more lots: its sum would exceed 64 bits or
      its count 32. */
  ghost predicate Overflows(q: seq<Order>, price: i64, lots: int) {
    lots > 0 && (Sum(q, AtPrice(price)) + lots > U64_MAX || Sum(q, CountAt(price)) + 1 > U32_MAX)
  }

  ghost predicate NewDrops(s: State, r: Request) {
    && CheckNew(s, r).Pass? && r.orderType.LimitOrder?
    && var b, other := BookAt(s.desk, CheckNew(s, r).value.instrument), r.side.Opposite();
    Overflows(b.Of(r.side), r.price, Unmet(b.Of(other), other, CheckNew(s, r).value.limit, r.quantity))
  }

  ghost predicate ReplaceDrops(s: State, r: Request) {
    && CheckReplace(s, r).Pass?
    && var c := CheckReplace(s, r).value;
    var o, b := c.existing, BookAt(s.desk, c.instrument);
    && !(r.price == o.price && r.quantity < o.total) && o.filled < r.quantity
    && Overflows(Remove(b, o.id).Of(o.side), r.price,
                 Unmet(b.Of(o.side.Opposite()), o.side.Opposite(), r.price, r.quantity - o.filled))
  }

  /** The exact condition for a request to leave the table out of step: it is
      accepted, something of it remains to rest, and the level it joins, without the
      order it replaces, has no room for that. */
  ghost predicate Drops(s: State, r: Request) {
    match r.kind
    case New => NewDrops(s, r)
    case Cancel => false
    case Replace => ReplaceDrops(s, r)
  }

  /** What execution leaves of the book it met. */
  lemma BookAfter(s: State, x: Taker, limit: i64)
    requires x.instrument < |s.desk.books| && Queue(x.side.Opposite(), BookAt(s.desk, x.instrument).Of(x.side.Opposite()))
    ensures var b, b', ms := BookAt(s.desk, x.instrument), BookAt(Execute(s, x, limit).state.desk, x.instrument), x.side.Opposite();
      && b'.Of(x.side) == b.Of(x.side) && b'.Size() <= b.Size()
      && Filling(s, x, limit) == x.quantity - Unmet(b.Of(ms), ms, limit, x.quantity)
  {
    hide Execute, Match, Queue, Sum;
    var b, ms := BookAt(s.desk, x.instrument), x.side.Opposite();
    ExecuteBooks(s, x, limit);
    SweptSize(ms, b.Of(ms), limit, x.quantity);
    assert Resting(ms, b.Of(ms)) by { QueueIsResting(ms, b.Of(ms)); }
    MatchFillsAllReachable(ms, b.Of(ms), limit, x.quantity);
  }

  lemma RefusesExactly(e: State, x: Taker, client: u64, price: i64, total: u64, filled: u64)
    requires BookAt(e.desk, x.instrument).Size() < e.cfg.capacity && filled < total
    requires RestOrder(e, x, client, price, total, filled).fault.None?
    ensures Refuses(e, x, client, price, total, filled)
      <==> Overflows(BookAt(e.desk, x.instrument).Of(x.side), price, total - filled)
  {
    hide Rest, Sum, BookAt;
  }

  lemma NewDropsExactly(s: State, caps: seq<Cap>, r: Request)
    requires Good(s, caps) && HandleNew(s, r).state.fault.None?
    ensures NewRefused(s, r) <==> NewDrops(s, r)
  {
    hide Good, Execute, Filling, RestOrder, Refuses, Overflows, Unmet, CheckNew, BookAt, Queue, Orderly, BaseReport;
    if CheckNew(s, r).Pass? && s.nextOrder < U64_MAX && r.orderType.LimitOrder? {
      var c, id := CheckNew(s, r).value, s.nextOrder + 1;
      var x := Taker(c.account, c.instrument, r, id, r.side, r.quantity);
      var s0 := s.(nextOrder := id);
      NewRoom(s, r);
      GoodKeyed(s, caps);
      OrderlySide(BookAt(s.desk, c.instrument), r.side.Opposite());
      BookAfter(s0, x, c.limit);
      FillingSame(s, s0, x, c.limit);
      ExecuteFramed(s0, x, c.limit);
      var e, filled := Execute(s0, x, c.limit).state, Filling(s, x, c.limit);
      if filled < r.quantity {
        RefusesExactly(e, x, r.clientOrderId, r.price, r.quantity, filled);
      } else {
        NoneLeft(BookAt(s.desk, c.instrument), r.side, r.price, c.limit, r.quantity);
      }
    }
  }

  /** The book without the order that is replaced. */
  lemma BookWithout(d: Desk, a: nat, i: nat, o: Order, id: u64)
    requires Orderly(BookAt(d, i)) && Lookup(BookAt(d, i), id) == Some(o) && i < |d.books|
    ensures o.id == id && o.filled < o.total
    ensures var b, b' := BookAt(d, i), BookAt(Withdraw(d, a, i, o).desk, i);
      && b' == Remove(b, o.id) && b'.Size() == b.Size() - 1
      && b'.Of(o.side.Opposite()) == b.Of(o.side.Opposite()) && Queue(o.side.Opposite(), b'.Of(o.side.Opposite()))
  {
    hide Orderly, Lookup, Remove, Withdraw, Queue, BookAt;
    var k := RemoveIsDrop(BookAt(d, i), id);
    WithdrawnEffects(d, a, i, o);
    OrderlySide(BookAt(d, i), o.side.Opposite());
  }

  lemma ReplaceDropsExactly(s: State, caps: seq<Cap>, r: Request)
    requires Good(s, caps) && s.fault.None? && Fits(s.desk.books, s.cfg.capacity) && HandleReplace(s, r).state.fault.None?
    ensures ReplaceRefused(s, r) <==> ReplaceDrops(s, r)
  {
    hide Good, Execute, Filling, ReplaceAnew, ReplaceInPlace, Refuses, Overflows, Unmet, CheckReplace, BookAt, Queue, Orderly,
      BaseReport, Withdraw, Remove, Lookup;
    if CheckReplace(s, r).Pass? {
      var c := CheckReplace(s, r).value;
      var o := c.existing;
      ReplaceFound(s, r);
      GoodKeyed(s, caps);
      BookWithout(s.desk, c.account, c.instrument, o, s.desk.clients[Owner(r.account, r.target)]);
      if !(r.price == o.price && r.quantity < o.total) && o.filled < r.quantity {
        BookFits(s.desk, c.instrument, s.cfg.capacity);
        WithdrawnSize(s.desk, c.account, c.instrument, o);
        AnewDropsExactly(s.On(Withdraw(s.desk, c.account, c.instrument, o)), r, c);
      }
    }
  }

  lemma BookFits(d: Desk, i: nat, capacity: nat)
    requires Fits(d.books, capacity) && i < |d.books|
    ensures BookAt(d, i).Size() <= capacity
  {
  }

  lemma ReplaceFound(s: State, r: Request)
    requires CheckReplace(s, r).Pass?
    ensures var c := CheckReplace(s, r).value;
      && Owner(r.account, r.target) in s.desk.clients && c.instrument < |s.cfg.instruments|
      && Lookup(BookAt(s.desk, c.instrument), s.desk.clients[Owner(r.account, r.target)]) == Some(c.existing)
  {
    hide CheckRisk, CheckQuantity, CheckPrice, CheckReference, CheckPermitted, Lookup;
  }

  lemma AnewDropsExactly(s1: State, r: Request, c: Replacement)
    requires c.instrument < |s1.desk.books| && c.existing.filled < r.quantity && ReplaceAnew(s1, r, c).state.fault.None?
    requires BookAt(s1.desk, c.instrument).Size() < s1.cfg.capacity
    requires Queue(c.existing.side.Opposite(), BookAt(s1.desk, c.instrument).Of(c.existing.side.Opposite()))
    ensures var o, b := c.existing, BookAt(s1.desk, c.instrument);
      AnewRefused(s1, r, c) <==>
        Overflows(b.Of(o.side), r.price, Unmet(b.Of(o.side.Opposite()), o.side.Opposite(), r.price, r.quantity - o.filled))
  {
    hide Execute, Filling, RestOrder, Refuses, Overflows, Unmet, BookAt, Queue, BaseReport;
    var o := c.existing;
    var x := Taker(c.account, c.instrument, r, o.id, o.side, r.quantity - o.filled);
    BookAfter(s1, x, r.price);
    ExecuteFramed(s1, x, r.price);
    var e, cumulative := Execute(s1, x, r.price).state, o.filled + Filling(s1, x, r.price);
    if cumulative < r.quantity {
      RefusesExactly(e, x, o.owner.client, r.price, r.quantity, cumulative);
    } else {
      NoneLeft(BookAt(s1.desk, c.instrument), o.side, r.price, r.price, x.quantity);
    }
  }

  lemma NoneLeft(b: Book, side: Side, price: i64, limit: i64, quantity: u64)
    ensures Unmet(b.Of(side.Opposite()), side.Opposite(), limit, quantity) <= 0 ==>
      !Overflows(b.Of(side), price, Unmet(b.Of(side.Opposite()), side.Opposite(), limit, quantity))
  {
  }

  lemma NewRoom(s: State, r: Request)
    requires CheckNew(s, r).Pass?
    ensures var c := CheckNew(s, r).value;
      && BookAt(s.desk, c.instrument).Size() < s.cfg.capacity && c.instrument < |s.cfg.instruments|
      && (r.orderType.LimitOrder? ==> c.limit == r.price)
  {
    hide CheckRisk, CheckQuantity, CheckPrice, CheckReference, CheckPermitted;
  }

  lemma QueueIsResting(side: Side, q: seq<Order>)
    requires Queue(side, q)
    ensures Resting(side, q)
  {
  }

  lemma OrderlySide(b: Book, side: Side)
    requires Orderly(b)
    ensures Queue(side, b.Of(side))
  {
  }

  ghost predicate IsRetry(s: State, r: Request) {
    && r.account in s.cfg.accountIds.index
    && CacheLookup(AccountAt(s, s.cfg.accountIds.index[r.account]).cache, r.requestId, s.cfg.fingerprint(r)).Retry?
  }

  ghost predicate IsConflict(s: State, r: Request) {
    && r.account in s.cfg.accountIds.index
    && CacheLookup(AccountAt(s, s.cfg.accountIds.index[r.account]).cache, r.requestId, s.cfg.fingerprint(r)).Conflict?
  }

  /** After a request that is not a retry, the table shows the live book if and
      only if no remainder of it was dropped. */
  lemma RequestFollows(s: State, caps: seq<Cap>, r: Request, t: Tables)
    requires Good(s, caps) && s.fault.None? && Fits(s.desk.books, s.cfg.capacity) && Mirrors(t.orders, s.desk)
    requires ApplyRequest(s, r).state.fault.None? && !IsRetry(s, r)
    ensures Mirrors(Fold(t, ApplyRequest(s, r).out).orders, ApplyRequest(s, r).state.desk)
      <==> IsConflict(s, r) || !Drops(s, r)
  {
    hide Good, HandleNew, HandleCancel, HandleReplace, CacheLookup, CacheRecord, Mirrors, Fold, NewRefused, ReplaceRefused,
      NewDrops, ReplaceDrops, Reject, Fits;
    if IsConflict(s, r) {
      RejectFollows(t, s, r, DuplicateRequestConflict);
      var h := Reject(s, r, DuplicateRequestConflict, []);
      RejectedOut(s, r, DuplicateRequestConflict);
      assert h.out + [ReportOut(h.report)] == [ReportOut(h.report)];
    } else {
      match r.kind {
        case New =>
          NewFollows(s, caps, r, t);
          NewDropsExactly(s, caps, r);
        case Cancel => CancelFollows(s, caps, r, t);
        case Replace =>
          ReplaceFollows(s, caps, r, t);
          ReplaceDropsExactly(s, caps, r);
      }
    }
  }

  lemma RejectedOut(s: State, r: Request, reason: RejectReason)
    ensures Reject(s, r, reason, []).out == []
  {
  }

  /** The report still describes the live orders: it was a rejection, or its order
      is gone as it said, or rests with the price, total and fill it said. */
  ghost predicate StillTrue(d: Desk, r: Report) {
    || r.reject.Some? || r.orderId == 0
    || (if r.state.FullyFilled? || r.state.CancelledState? then r.orderId !in d.live
        else
          && r.orderId in d.live
          && var o := Lookup(BookAt(d, d.live[r.orderId].instrument), r.orderId);
          o.Some? && RowOf(o.value) == OrderRow(r.price, r.total, r.cumulative))
  }

  /** What a true table holds under an id. */
  lemma RowOfLive(orders: map<u64, OrderRow>, roster: Roster, d: Desk, id: u64)
    requires Mirrors(orders, d) && Keyed(roster, d)
    ensures id in orders <==> id in d.live
    ensures id in d.live ==>
      var o := Lookup(BookAt(d, d.live[id].instrument), id); o.Some? && orders[id] == RowOf(o.value)
  {
    hide Lookup, BookAt;
    if id in d.live {
      assert LiveOk(roster, d, id);
      assert RowMatches(orders, d, d.live[id].instrument, id);
    }
  }

  lemma ReportedAgain(t: Tables, roster: Roster, d: Desk, r: Report)
    requires Mirrors(t.orders, d) && Keyed(roster, d)
    ensures Mirrors(ProjectReport(t, r).orders, d) <==> StillTrue(d, r)
  {
    hide Lookup, BookAt, Mirrors, Keyed;
    RowOfLive(t.orders, roster, d, r.orderId);
    var after := ProjectReport(t, r).orders;
    if StillTrue(d, r) {
      assert after == t.orders;
    } else if Mirrors(after, d) {
      RowOfLive(after, roster, d, r.orderId);
    }
  }

  /** The report remembered for a request. */
  ghost function RememberedReport(s: State, r: Request): Report
    requires IsRetry(s, r)
  {
    CacheLookup(AccountAt(s, s.cfg.accountIds.index[r.account]).cache, r.requestId, s.cfg.fingerprint(r)).report
  }

  lemma Restamped(d: Desk, r: Report, outputSeq: u64, engineSeq: u64, timeNs: u64)
    ensures StillTrue(d, r.(outputSeq := outputSeq, engineSeq := engineSeq, timeNs := timeNs)) <==> StillTrue(d, r)
  {
  }

  /** A retry repeats the remembered report: the table stays right if and only if
      that report still describes the live orders. */
  lemma RetryFollows(s: State, caps: seq<Cap>, r: Request, t: Tables)
    requires Good(s, caps) && Mirrors(t.orders, s.desk) && IsRetry(s, r)
    ensures var e := ApplyRequest(s, r);
      && e.state.desk == s.desk
      && (Mirrors(Fold(t, e.out).orders, e.state.desk) <==> StillTrue(s.desk, RememberedReport(s, r)))
  {
    hide CacheLookup, CacheRecord, Handle, Mirrors, Fold, Good, Keyed, StillTrue;
    var e := ApplyRequest(s, r);
    FoldNothing(t);
    FoldLast(t, [], e.out[0].report);
    assert [] + [e.out[0]] == e.out;
    GoodKeyed(s, caps);
    ReportedAgain(t, s.cfg.accountIds, s.desk, e.out[0].report);
    Restamped(s.desk, RememberedReport(s, r), e.state.outputSeq, e.state.engineSeq, e.state.time);
  }

  // ---- whole runs ---------------------------------------------------------

  /** Market and control inputs leave the orders table alone. */
  lemma QuietOrders(s: State, input: Input, t: Tables)
    requires s.fault.None? && !input.event.OrderInput?
    ensures Fold(t, Step(s, input).out).orders == t.orders
  {
    hide Market.Apply;
    var out := Step(s, input).out;
    FoldNothing(t);
    if out != [] {
      assert out == [out[0]] && out[..0] == [];
      assert Fold(t, out) == Absorbed(Fold(t, out[..0]), out[0]);
    }
  }

  /** The input keeps a right table right: it is no order, or a retry whose
      remembered report is still true, or a request of which nothing is dropped. */
  ghost predicate Plain(s: State, input: Input) {
    input.event.OrderInput? ==>
      var r := input.event.request;
      var s1 := s.(engineSeq := if s.engineSeq < U64_MAX then s.engineSeq + 1 else s.engineSeq, time := input.recvTimeNs);
      if IsRetry(s1, r) then StillTrue(s1.desk, RememberedReport(s1, r)) else IsConflict(s1, r) || !Drops(s1, r)
  }

  lemma StepFollows(s: State, caps: seq<Cap>, input: Input, t: Tables)
    requires Good(s, caps) && s.fault.None? && Fits(s.desk.books, s.cfg.capacity) && Mirrors(t.orders, s.desk)
    requires Step(s, input).state.fault.None?
    ensures Mirrors(Fold(t, Step(s, input).out).orders, Step(s, input).state.desk) <==> Plain(s, input)
  {
    hide Good, ApplyRequest, ApplyMarket, ApplyControl, Mirrors, Fold, Drops, IsRetry, IsConflict, StillTrue, RememberedReport, Fits;
    if input.event.OrderInput? {
      var r := input.event.request;
      var s1 := s.(engineSeq := s.engineSeq + 1, time := input.recvTimeNs);
      ClockGood(s, s1, caps);
      if IsRetry(s1, r) {
        RetryFollows(s1, caps, r, t);
      } else {
        RequestFollows(s1, caps, r, t);
      }
    } else {
      QuietStep(s, input);
      QuietOrders(s, input, t);
    }
  }

  /** The projected orders are the live book after the first k inputs. */
  ghost predicate RightAfter(start: State, inputs: seq<Input>, k: nat)
    requires k <= |inputs|
  {
    var e := Runs.Run(start, inputs[..k]);
    Mirrors(Fold(NoTables, e.out).orders, e.state.desk)
  }

  /** The k-th input is plain in the state it meets. */
  ghost predicate PlainAt(start: State, inputs: seq<Input>, k: nat)
    requires k < |inputs|
  {
    Plain(Runs.Run(start, inputs[..k]).state, inputs[k])
  }

  ghost predicate RightUpTo(start: State, inputs: seq<Input>, n: nat)
    requires n <= |inputs|
  {
    forall k :: 0 <= k <= n ==> RightAfter(start, inputs, k)
  }

  ghost predicate PlainUpTo(start: State, inputs: seq<Input>, n: nat)
    requires n <= |inputs|
  {
    forall k :: 0 <= k < n ==> PlainAt(start, inputs, k)
  }

  /** Over any run and at every point of it, the projected orders were the live book
      at every input boundary so far if and only if every input so far was plain. */
  lemma {:induction false} OrdersTableIsBook(cfg: Config, openings: seq<Opening>, depth: nat, inputs: seq<Input>, n: nat)
    requires |openings| == |cfg.accountIds.ids| && n <= |inputs|
    requires Runs.Run(Initial(cfg, openings, depth), inputs).state.fault.None?
    ensures RightUpTo(Initial(cfg, openings, depth), inputs, n) <==> PlainUpTo(Initial(cfg, openings, depth), inputs, n)
  {
    hide Runs.Run, Initial, RightAfter, PlainAt, Sane, Peaks;
    if n == 0 {
      StartsRight(cfg, openings, depth, inputs);
    } else {
      OrdersTableIsBook(cfg, openings, depth, inputs, n - 1);
      if RightAfter(Initial(cfg, openings, depth), inputs, n - 1) {
        RunsSane(cfg, openings, depth, inputs, n - 1);
        NextFollows(Initial(cfg, openings, depth), Peaks(cfg, openings, inputs[..n - 1]), inputs, n - 1);
      }
    }
  }

  lemma StartsRight(cfg: Config, openings: seq<Opening>, depth: nat, inputs: seq<Input>)
    requires |openings| == |cfg.accountIds.ids|
    ensures RightAfter(Initial(cfg, openings, depth), inputs, 0)
  {
    hide Mirrors, Fold, Initial;
    FreshMirrors(cfg, openings, depth);
    FoldNothing(NoTables);
    assert inputs[..0] == [];
  }

  lemma LastFollows(before: Emitted, caps: seq<Cap>, input: Input)
    requires var s := before.state;
      Good(s, caps) && s.fault.None? && Fits(s.desk.books, s.cfg.capacity) && Step(s, input).state.fault.None?
    requires Mirrors(Fold(NoTables, before.out).orders, before.state.desk)
    ensures var last := Step(before.state, input);
      Mirrors(Fold(NoTables, before.out + last.out).orders, last.state.desk) <==> Plain(before.state, input)
  {
    hide Step, Mirrors, Fold, Good, Plain, Fits;
    StepFollows(before.state, caps, input, Fold(NoTables, before.out));
    FoldConcat(NoTables, before.out, Step(before.state, input).out);
  }

  /** What is known of every state of a fault-free run. */
  ghost predicate Sane(start: State, inputs: seq<Input>, n: nat, caps: seq<Cap>)
    requires n <= |inputs|
  {
    var s := Runs.Run(start, inputs[..n]).state;
    Good(s, caps) && s.fault.None? && Fits(s.desk.books, s.cfg.capacity)
  }

  lemma RunsSane(cfg: Config, openings: seq<Opening>, depth: nat, inputs: seq<Input>, n: nat)
    requires |openings| == |cfg.accountIds.ids| && n <= |inputs|
    requires Runs.Run(Initial(cfg, openings, depth), inputs).state.fault.None?
    ensures Sane(Initial(cfg, openings, depth), inputs, n, Peaks(cfg, openings, inputs[..n]))
  {
    hide Runs.Run, Good, Initial, Peaks, Fits;
    FaultFreePrefix(Initial(cfg, openings, depth), inputs, n);
    Runs.Reachable(cfg, openings, depth, inputs[..n]);
    BooksStayWithinCapacity(cfg, openings, depth, inputs[..n]);
  }

  lemma NextFollows(start: State, caps: seq<Cap>, inputs: seq<Input>, n: nat)
    requires n < |inputs| && Sane(start, inputs, n, caps) && Runs.Run(start, inputs).state.fault.None?
    requires RightAfter(start, inputs, n)
    ensures RightAfter(start, inputs, n + 1) <==> PlainAt(start, inputs, n)
  {
    hide Runs.Run, Step, Mirrors, Fold, Good, Plain, Fits;
    FaultFreePrefix(start, inputs, n + 1);
    RunNext(start, inputs, n);
    LastFollows(Runs.Run(start, inputs[..n]), caps, inputs[n]);
  }

  lemma RunNext(start: State, inputs: seq<Input>, n: nat)
    requires n < |inputs|
    ensures var before := Runs.Run(start, inputs[..n]);
      var last := Step(before.state, inputs[n]);
      Runs.Run(start, inputs[..n + 1]) == Emitted(last.state, before.out + last.out)
  {
    hide Step;
    assert inputs[..n + 1][..n] == inputs[..n];
  }

  lemma FreshMirrors(cfg: Config, openings: seq<Opening>, depth: nat)
    requires |openings| == |cfg.accountIds.ids|
    ensures Mirrors(map[], Initial(cfg, openings, depth).desk)
  {
    var d := Initial(cfg, openings, depth).desk;
    forall i: nat, id: u64 ensures RowMatches(map[], d, i, id) {
      assert BookAt(d, i) == EmptyBook;
    }
  }
}
