/** What every input keeps: no accounting fault, reservations equal to resting
    remainders, consistent registries, uncrossed books and the risk limits. */
module Safety {
  import opened Domain
  import opened PriceTime
  import opened Ledger
  import opened Accounts
  import opened Core

  const Idle := Pending(0, 0, Buy, 0, 0)

  // ---- the books' own invariant -------------------------------------------

  ghost predicate Bounded(q: seq<Order>, id: u64, priority: u64) {
    forall k :: 0 <= k < |q| ==> q[k].id <= id && q[k].priority <= priority
  }

  /** Uncrossed, with ids and priorities already handed out. */
  ghost predicate BookOk(b: Book, id: u64, priority: u64) {
    Uncrossed(b) && Bounded(b.bids, id, priority) && Bounded(b.asks, id, priority)
  }

  ghost predicate BooksOk(d: Desk, id: u64, priority: u64) {
    forall i: nat :: BookOk(BookAt(d, i), id, priority)
  }

  lemma BooksPut(d: Desk, d': Desk, i: nat, id: u64, priority: u64, id': u64, priority': u64)
    requires BooksOk(d, id, priority) && id <= id' && priority <= priority'
    requires BookOk(BookAt(d', i), id', priority')
    requires forall j: nat :: j != i ==> BookAt(d', j) == BookAt(d, j)
    ensures BooksOk(d', id', priority')
  {
    hide BookAt, Uncrossed;
    forall j: nat ensures BookOk(BookAt(d', j), id', priority') {
      if j != i { assert BookOk(BookAt(d, j), id, priority); }
    }
  }

  lemma BooksSame(d: Desk, d': Desk, id: u64, priority: u64, id': u64, priority': u64)
    requires BooksOk(d, id, priority) && id <= id' && priority <= priority' && d'.books == d.books
    ensures BooksOk(d', id', priority')
  {
    forall j: nat ensures BookOk(BookAt(d', j), id', priority') {
      assert BookOk(BookAt(d, j), id, priority);
    }
  }

  lemma BookMatched(b: Book, maker: Side, limit: i64, quantity: u64, id: u64, priority: u64)
    requires Orderly(b) && BookOk(b, id, priority)
    ensures BookOk(b.With(maker, Match(maker, b.Of(maker), limit, quantity).rest), id, priority)
  {
    hide Queue, Match, Disjoint, Uncrossed;
    QueueRests(b);
    MatchKeepsUncrossed(b, maker, limit, quantity);
    var rest := Match(maker, b.Of(maker), limit, quantity).rest;
    forall k | 0 <= k < |rest| ensures rest[k].id <= id && rest[k].priority <= priority {
      var j := RestPrices(maker, b.Of(maker), limit, quantity, k);
    }
  }

  lemma BookInserted(b: Book, o: Order, id: u64, priority: u64)
    requires BookOk(b, id, priority) && o.id <= id && o.priority <= priority
    requires forall i :: 0 <= i < |b.Of(o.side.Opposite())| ==>
               !Eligible(o.side.Opposite(), b.Of(o.side.Opposite())[i].price, o.price)
    ensures BookOk(Insert(b, o), id, priority)
  {
    hide Uncrossed, Place;
    InsertKeepsUncrossed(b, o);
    var q, k := b.Of(o.side), Place(b.Of(o.side), o.side, o.price);
    forall i | 0 <= i < |Enqueue(q, o)|
      ensures Enqueue(q, o)[i].id <= id && Enqueue(q, o)[i].priority <= priority
    {
      assert Enqueue(q, o)[i] == if i < k then q[i] else if i == k then o else q[i - 1];
    }
  }

  lemma BookDropped(b: Book, side: Side, k: nat, id: u64, priority: u64)
    requires BookOk(b, id, priority) && k < |b.Of(side)|
    ensures BookOk(b.With(side, Drop(b.Of(side), k)), id, priority)
  {
  }

  lemma BookResized(b: Book, side: Side, k: nat, o: Order, id: u64, priority: u64)
    requires BookOk(b, id, priority) && k < |b.Of(side)|
    requires o == b.Of(side)[k].(total := o.total, filled := o.filled)
    ensures BookOk(b.With(side, b.Of(side)[k := o]), id, priority)
  {
  }

  /** An id that is not registered rests nowhere, so it may rest again. */
  lemma FreshAgain(r: Roster, d: Desk, i: nat, side: Side, id: u64, maxId: u64, last: u64, priority: u64)
    requires Keyed(r, d) && Orderlies(d) && BooksOk(d, maxId, last) && id !in d.live && last < priority
    ensures Fresh(BookAt(d, i).Of(side), id, priority)
  {
    hide Keyed, Orderly, BookAt, Lookup, Uncrossed;
    assert Orderly(BookAt(d, i)) && BookOk(BookAt(d, i), maxId, last);
    Unlisted(d, i, id, r);
    AbsentId(BookAt(d, i), id);
  }

  // ---- settling the fills of one match ------------------------------------

  /** The desk as it stands when only the fills settled so far have been
      matched: the maker list still holds the others. */
  ghost function Seen(d: Desk, i: nat, side: Side, q: seq<Order>): Desk {
    PutBook(d, i, BookAt(d, i).With(side, q))
  }

  lemma SeenTraded(d: Desk, maker: nat, pend: Pending, q: seq<Order>, traded: u64)
    requires pend.instrument < |d.books| && q != [] && traded <= q[0].Remaining()
    ensures var i, ms := pend.instrument, pend.side.Opposite();
      var f := FillOf(q[0], traded);
      var v := Seen(d, i, ms, q);
      var settled := SettleFill(d, maker, pend.account, i, pend.side, f);
      && BookAt(v, i).Of(ms) == q
      && SettleFill(v, maker, pend.account, i, pend.side, f).ok == settled.ok
      && Traded(v, maker, pend, traded) == Seen(settled.desk, i, ms, FillHead(q, traded))
      && settled.desk.books == d.books
  {
    hide FillHead;
    var i, ms := pend.instrument, pend.side.Opposite();
    var f := FillOf(q[0], traded);
    var b := BookAt(d, i);
    SettleAround(d, maker, pend.account, i, pend.side, f, b.With(ms, q));
    SettledRegistries(d, maker, pend.account, i, pend.side, f);
    assert d.books[i := b.With(ms, q)][i := b.With(ms, FillHead(q, traded))] == d.books[i := b.With(ms, FillHead(q, traded))];
  }

  lemma MoveAround(d: Desk, a: nat, i: nat, side: Side, lots: u64, j: nat, b: Book)
    ensures MovePosition(PutBook(d, j, b), a, i, side, lots).ok == MovePosition(d, a, i, side, lots).ok
    ensures MovePosition(PutBook(d, j, b), a, i, side, lots).desk == PutBook(MovePosition(d, a, i, side, lots).desk, j, b)
  {
    hide ApplyFill;
  }

  lemma SettleAround(d: Desk, maker: nat, taker: nat, i: nat, side: Side, f: Fill, b: Book)
    ensures SettleFill(PutBook(d, i, b), maker, taker, i, side, f)
         == SettleFill(d, maker, taker, i, side, f).(desk := PutBook(SettleFill(d, maker, taker, i, side, f).desk, i, b))
  {
    hide ReleaseOrder, MovePosition, PutBook;
    var freed := ReleaseOrder(d, maker, i, side.Opposite(), f.quantity, f.price).desk;
    ReleaseAround(d, maker, i, side.Opposite(), f.quantity, f.price, b);
    MoveAround(freed, maker, i, side.Opposite(), f.quantity, i, b);
    var moved := MovePosition(freed, maker, i, side.Opposite(), f.quantity).desk;
    MoveAround(moved, taker, i, side, f.quantity, i, b);
    var taken := MovePosition(moved, taker, i, side, f.quantity).desk;
    assert PutBook(Forget(taken, f.makerId, f.owner), i, b) == Forget(PutBook(taken, i, b), f.makerId, f.owner) by {
      ForgetAround(taken, f.makerId, f.owner, i, b);
    }
  }

  lemma ForgetAround(d: Desk, id: u64, owner: Owner, i: nat, b: Book)
    ensures PutBook(Forget(d, id, owner), i, b) == Forget(PutBook(d, i, b), id, owner)
  {
  }

  ghost predicate Calm(before: Option<Fault>, after: Option<Fault>) {
    after == before || after == Some(SequenceExhausted)
  }

  /** One settled fill changes the desk by SettleFill and otherwise only
      advances sequences. */
  lemma SettleOneEffect(s: State, x: Taker, f: Fill, cumulative: u64)
    requires f.owner.account in s.cfg.accountIds.index && cumulative <= x.quantity
    requires SettleFill(s.desk, s.cfg.accountIds.index[f.owner.account], x.account, x.instrument, x.side, f).ok
    ensures var e := SettleOne(s, x, f, cumulative).state;
      && e.desk == SettleFill(s.desk, s.cfg.accountIds.index[f.owner.account], x.account, x.instrument, x.side, f).desk
      && Calm(s.fault, e.fault)
      && e == s.(desk := e.desk, outputSeq := e.outputSeq, fault := e.fault)
  {
    hide SettleFill;
  }

  ghost function PendingOf(x: Taker, limit: int, lots: nat): Pending {
    Pending(x.account, x.instrument, x.side, lots, limit)
  }

  lemma LessRoom(d: Desk, caps: seq<Cap>, pend: Pending, lots: nat)
    requires Roomy(d, caps, pend) && lots <= pend.lots
    ensures Roomy(d, caps, pend.(lots := lots))
  {
    var less := pend.(lots := lots);
    MulMonotone(lots, pend.lots, Abs(pend.price));
    forall a, i | 0 <= a < |caps| && 0 <= i < |d.books| ensures RoomFor(d, caps, less, a, i) {
      assert RoomFor(d, caps, pend, a, i);
    }
    forall a | 0 <= a < |caps| ensures GrossFor(d, caps, less, a) {
      assert GrossFor(d, caps, pend, a);
    }
  }

  /** What settling the fills of a match leaves, whether or not the trade ids
      ran out on the way. */
  ghost predicate Settled(s: State, e: State, x: Taker, caps: seq<Cap>, limit: int, m: Matched, left: int) {
    var r, i, ms := s.cfg.accountIds, x.instrument, x.side.Opposite();
    && left >= 0
    && Calm(s.fault, e.fault)
    && e == s.(desk := e.desk, outputSeq := e.outputSeq, nextTrade := e.nextTrade, fault := e.fault)
    && e.desk.books == s.desk.books
    && e.desk.live.Keys <= s.desk.live.Keys && e.desk.clients.Keys <= s.desk.clients.Keys
    && Shaped(r, e.desk) && Roomy(e.desk, caps, PendingOf(x, limit, left))
    && (e.fault != Some(SequenceExhausted) ==>
          Sound(r, Seen(e.desk, i, ms, m.rest), caps, PendingOf(x, limit, left)))
  }

  /** What changes when one fill of a match has been settled. */
  ghost predicate Advanced(s: State, s1: State) {
    && Calm(s.fault, s1.fault)
    && s1 == s.(desk := s1.desk, outputSeq := s1.outputSeq, nextTrade := s1.nextTrade, fault := s1.fault)
    && s1.desk.books == s.desk.books
    && s1.desk.live.Keys <= s.desk.live.Keys && s1.desk.clients.Keys <= s.desk.clients.Keys
  }

  lemma SettledAfter(s: State, s1: State, e: State, x: Taker, caps: seq<Cap>, limit: int, m: Matched, left: int)
    requires Advanced(s, s1) && Settled(s1, e, x, caps, limit, m, left)
    ensures Settled(s, e, x, caps, limit, m, left)
  {
    hide Sound, Roomy, Shaped, Seen;
  }

  lemma SettleFirst(s: State, x: Taker, caps: seq<Cap>, limit: i64, q: seq<Order>, quantity: u64, cumulative: u64)
    returns (s1: State)
    requires x.account < |s.cfg.accountIds.ids| && x.instrument < |s.desk.books|
    requires cumulative + quantity == x.quantity && quantity > 0 && Successor(s.nextTrade).Some?
    requires Resting(x.side.Opposite(), q) && q != [] && Eligible(x.side.Opposite(), q[0].price, limit)
    requires Sound(s.cfg.accountIds, Seen(s.desk, x.instrument, x.side.Opposite(), q), caps,
                   PendingOf(x, limit, quantity))
    ensures var traded := Min(quantity, q[0].Remaining());
      && 0 < traded <= q[0].Remaining()
      && Advanced(s, s1)
      && s1 == SettleOne(s.(nextTrade := s.nextTrade + 1), x, FillOf(q[0], traded), cumulative + traded).state
      && Sound(s.cfg.accountIds, Seen(s1.desk, x.instrument, x.side.Opposite(), FillHead(q, traded)), caps,
               PendingOf(x, limit, quantity - traded))
  {
    hide Sound, SettleOne, SettleFill, FillHead, Match, Seen, Traded;
    var r, i, ms := s.cfg.accountIds, x.instrument, x.side.Opposite();
    FirstFill(ms, q, limit, quantity);
    var pend := PendingOf(x, limit, quantity);
    var traded := Min(quantity, q[0].Remaining());
    var f := FillOf(q[0], traded);
    var s0 := s.(nextTrade := s.nextTrade + 1);
    SeenTraded(s.desk, 0, pend, q, traded);
    SeenSize(s.desk, i, ms, q);
    TradeKeeps(r, Seen(s.desk, i, ms, q), caps, pend, traded);
    var maker := r.index[q[0].owner.account];
    SeenTraded(s.desk, maker, pend, q, traded);
    SettleOneEffect(s0, x, f, cumulative + traded);
    s1 := SettleOne(s0, x, f, cumulative + traded).state;
    SettledShrinks(s.desk, maker, x.account, i, x.side, f);
  }

  lemma SeenSize(d: Desk, i: nat, side: Side, q: seq<Order>)
    ensures |Seen(d, i, side, q).books| == |d.books|
  {
  }

  lemma {:induction false} SettleKeeps(s: State, x: Taker, caps: seq<Cap>, limit: i64, q: seq<Order>,
                                       quantity: u64, cumulative: u64)
    requires x.account < |s.cfg.accountIds.ids| && x.instrument < |s.desk.books|
    requires cumulative + quantity == x.quantity
    requires Resting(x.side.Opposite(), q)
    requires Sound(s.cfg.accountIds, Seen(s.desk, x.instrument, x.side.Opposite(), q), caps,
                   PendingOf(x, limit, quantity))
    ensures var m := Match(x.side.Opposite(), q, limit, quantity);
      && Lots(m.fills) <= quantity
      && Settled(s, SettleAll(s, x, m.fills, cumulative).state, x, caps, limit, m, quantity - Lots(m.fills))
    decreases quantity
  {
    hide Sound, Match, SettleOne, FillHead, Resting, Settled, Advanced, Seen, Lots, SettleAll;
    var ms := x.side.Opposite();
    var m := Match(ms, q, limit, quantity);
    if quantity == 0 || q == [] || !Eligible(ms, q[0].price, limit) {
      MatchNothing(ms, q, limit, quantity);
      SettleNothing(s, x, caps, limit, q, quantity, cumulative);
    } else if Successor(s.nextTrade).None? {
      SettleStops(s, x, caps, limit, q, quantity, cumulative);
    } else {
      FirstFill(ms, q, limit, quantity);
      var traded := Min(quantity, q[0].Remaining());
      var s1 := SettleFirst(s, x, caps, limit, q, quantity, cumulative);
      AdvancedSame(s, s1);
      SettleKeeps(s1, x, caps, limit, FillHead(q, traded), quantity - traded, cumulative + traded);
      var m1 := Match(ms, FillHead(q, traded), limit, quantity - traded);
      SettleUnfolds(s, x, m.fills, cumulative);
      SettledRest(s1, SettleAll(s1, x, m1.fills, cumulative + traded).state, x, caps, limit, m1, m, quantity - Lots(m.fills));
      SettledAfter(s, s1, SettleAll(s1, x, m1.fills, cumulative + traded).state, x, caps, limit, m, quantity - Lots(m.fills));
    }
  }

  lemma AdvancedSame(s: State, s1: State)
    requires Advanced(s, s1)
    ensures s1.cfg == s.cfg && |s1.desk.books| == |s.desk.books|
  {
  }

  lemma SettledRest(s: State, e: State, x: Taker, caps: seq<Cap>, limit: int, m: Matched, m': Matched, left: int)
    requires Settled(s, e, x, caps, limit, m, left) && m'.rest == m.rest
    ensures Settled(s, e, x, caps, limit, m', left)
  {
    hide Sound, Roomy, Shaped, Seen;
  }

  lemma SettleUnfolds(s: State, x: Taker, fills: seq<Fill>, cumulative: u64)
    requires fills != [] && cumulative + fills[0].quantity <= U64_MAX && Successor(s.nextTrade).Some?
    ensures SettleAll(s, x, fills, cumulative).state
         == SettleAll(SettleOne(s.(nextTrade := s.nextTrade + 1), x, fills[0], cumulative + fills[0].quantity).state,
                      x, fills[1..], cumulative + fills[0].quantity).state
  {
    hide SettleOne;
  }

  lemma SettleNothing(s: State, x: Taker, caps: seq<Cap>, limit: i64, q: seq<Order>, quantity: u64, cumulative: u64)
    requires Sound(s.cfg.accountIds, Seen(s.desk, x.instrument, x.side.Opposite(), q), caps,
                   PendingOf(x, limit, quantity))
    ensures Lots([]) == 0 && Settled(s, SettleAll(s, x, [], cumulative).state, x, caps, limit, Matched([], q), quantity)
  {
    hide Sound, Roomy, Seen;
    SeenRoom(s.cfg.accountIds, s.desk, x.instrument, x.side.Opposite(), q, caps, PendingOf(x, limit, quantity));
  }

  lemma SettleStops(s: State, x: Taker, caps: seq<Cap>, limit: i64, q: seq<Order>, quantity: u64, cumulative: u64)
    requires cumulative + quantity == x.quantity && Successor(s.nextTrade).None?
    requires quantity > 0 && q != [] && Eligible(x.side.Opposite(), q[0].price, limit)
    requires Resting(x.side.Opposite(), q)
    requires Sound(s.cfg.accountIds, Seen(s.desk, x.instrument, x.side.Opposite(), q), caps,
                   PendingOf(x, limit, quantity))
    ensures var m := Match(x.side.Opposite(), q, limit, quantity);
      && Lots(m.fills) <= quantity
      && Settled(s, SettleAll(s, x, m.fills, cumulative).state, x, caps, limit, m, quantity - Lots(m.fills))
  {
    hide Sound, Roomy, Seen, Match, FillHead, Lots;
    var ms := x.side.Opposite();
    FirstFill(ms, q, limit, quantity);
    FewerLots(ms, q, limit, quantity);
    var pend := PendingOf(x, limit, quantity);
    SeenRoom(s.cfg.accountIds, s.desk, x.instrument, ms, q, caps, pend);
    LessRoom(s.desk, caps, pend, quantity - Lots(Match(ms, q, limit, quantity).fills));
  }

  lemma SettledShrinks(d: Desk, maker: nat, taker: nat, i: nat, side: Side, f: Fill)
    ensures var s := SettleFill(d, maker, taker, i, side, f).desk;
      s.live.Keys <= d.live.Keys && s.clients.Keys <= d.clients.Keys && s.books == d.books
  {
    SettledRegistries(d, maker, taker, i, side, f);
  }

  lemma SeenRoom(r: Roster, d: Desk, i: nat, side: Side, q: seq<Order>, caps: seq<Cap>, pend: Pending)
    requires Sound(r, Seen(d, i, side, q), caps, pend)
    ensures Shaped(r, d) && Roomy(d, caps, pend)
  {
    hide Orderlies, Keyed, Reserved, Roomy;
    RoomFrame(r, Seen(d, i, side, q), d, caps, pend);
  }

  lemma MatchNothing(side: Side, q: seq<Order>, limit: i64, quantity: u64)
    requires Resting(side, q)
    requires quantity == 0 || q == [] || !Eligible(side, q[0].price, limit)
    ensures Match(side, q, limit, quantity) == Matched([], q)
  {
  }

  lemma FirstFill(side: Side, q: seq<Order>, limit: i64, quantity: u64)
    requires Resting(side, q) && quantity > 0 && q != [] && Eligible(side, q[0].price, limit)
    ensures var traded := Min(quantity, q[0].Remaining());
      && 0 < traded <= q[0].Remaining() && traded <= quantity
      && Resting(side, FillHead(q, traded))
      && var m, m1 := Match(side, q, limit, quantity), Match(side, FillHead(q, traded), limit, quantity - traded);
      && m.fills != [] && m.fills[0] == FillOf(q[0], traded) && m.fills[1..] == m1.fills && m.rest == m1.rest
      && Lots(m.fills) == traded + Lots(m1.fills)
  {
    MatchStep(side, q, limit, quantity);
  }

  lemma {:induction false} FewerLots(side: Side, q: seq<Order>, limit: i64, quantity: u64)
    requires Resting(side, q)
    ensures Lots(Match(side, q, limit, quantity).fills) <= quantity
    decreases quantity
  {
    hide Match, FillHead, Resting;
    if quantity == 0 || q == [] || !Eligible(side, q[0].price, limit) {
      MatchNothing(side, q, limit, quantity);
    } else {
      FirstFill(side, q, limit, quantity);
      var traded := Min(quantity, q[0].Remaining());
      FewerLots(side, FillHead(q, traded), limit, quantity - traded);
    }
  }

  // ---- admission ----------------------------------------------------------

  ghost predicate CapsCover(s: State, caps: seq<Cap>) {
    && |caps| == |s.accounts|
    && forall a :: 0 <= a < |caps| ==>
         && s.accounts[a].limits.maxPositionLots <= caps[a].position
         && s.accounts[a].limits.maxGrossExposure <= caps[a].gross
  }

  /** The gross exposure that was checked counts at least all the working
      notional from instrument k on. */
  lemma {:induction false} GrossCounts(s: State, a: nat, i: nat, projected: Position, k: nat, gross: u128)
    requires a < |s.desk.positions| && |s.desk.positions[a]| == |s.views| && i < |s.views| && k <= |s.views|
    requires GrossFrom(s, a, i, projected, k, gross).Pass?
    ensures GrossFrom(s, a, i, projected, k, gross).value >= gross + GrossOf(s.desk.positions[a][i := projected][k..])
    decreases |s.views| - k
  {
    hide Exposure, Market.ReferencePrice;
    var ps := s.desk.positions[a][i := projected];
    if k < |s.views| {
      var p := if k == i then projected else Pos(s.desk, a, k);
      assert ps[k..][0] == p && ps[k..][1..] == ps[k + 1..];
      if p.lots == 0 && p.buyNotional == 0 && p.sellNotional == 0 {
        GrossCounts(s, a, i, projected, k + 1, gross);
      } else {
        var mark := Market.ReferencePrice(s.views[k]);
        var e := Exposure(p, if mark.Some? then mark.value else 0);
        ExposureCounts(p, if mark.Some? then mark.value else 0);
        GrossCounts(s, a, i, projected, k + 1, gross + e.value);
      }
    }
  }

  lemma ExposureCounts(p: Position, mark: i64)
    ensures Exposure(p, mark).Some? ==> Exposure(p, mark).value >= p.Worth()
  {
  }

  /** A position and gross exposure with room for an admitted order once the
      replaced lots are gone. */
  ghost predicate Admitted(d: Desk, a: nat, i: nat, side: Side, cap: Cap, added: int, price: int,
                           replaced: int, replacedPrice: int)
    requires a < |d.positions| && i < |d.positions[a]|
  {
    && RoomAt(d.positions[a][i], cap, if side.Buy? then added - replaced else 0, if side.Buy? then 0 else added - replaced)
    && GrossOf(d.positions[a]) - Value(InNotional, replaced, replacedPrice) + Value(InNotional, added, price) <= cap.gross
  }

  lemma WorstRoom(p: Position, cap: Cap, side: Side, added: u64, replaced: u64, worst: nat, limit: u64,
                  released: u128, extra: u128)
    requires RoomAt(p, cap, 0, 0)
    requires Project(p, side, added, extra, replaced, released).Some?
    requires WorstCase(Project(p, side, added, extra, replaced, released).value, side) == Some(worst)
    requires worst <= limit <= cap.position
    ensures RoomAt(p, cap, if side.Buy? then added - replaced else 0, if side.Buy? then 0 else added - replaced)
    ensures Project(p, side, added, extra, replaced, released).value.Worth() == p.Worth() - released + extra
  {
  }

  lemma ExposureAdmits(s: State, caps: seq<Cap>, a: nat, i: nat, side: Side, added: u64, price: i64,
                       replaced: u64, replacedPrice: i64)
    requires CapsCover(s, caps) && Shaped(s.cfg.accountIds, s.desk) && Roomy(s.desk, caps, Idle)
    requires |s.desk.books| == |s.views| && a < |s.desk.positions| && i < |s.desk.books|
    requires CheckExposure(s, a, i, side, added, price, replaced, replacedPrice).None?
    ensures Admitted(s.desk, a, i, side, caps[a], added, price, replaced, replacedPrice)
  {
    hide GrossFrom, RoomAt;
    NotionalFits(replaced, replacedPrice);
    NotionalFits(added, price);
    var released, extra := replaced * Abs(replacedPrice), added * Abs(price);
    var p := Pos(s.desk, a, i);
    assert RoomFor(s.desk, caps, Idle, a, i);
    var projected := Project(p, side, added, extra, replaced, released).value;
    var worst := WorstCase(projected, side).value;
    WorstRoom(p, caps[a], side, added, replaced, worst, s.accounts[a].limits.maxPositionLots, released, extra);
    GrossCounts(s, a, i, projected, 0, 0);
    var ps := s.desk.positions[a];
    assert ps[i := projected][0..] == ps[i := projected];
    GrossPut(ps, i, projected);
  }

  /** With nothing pending it does not matter where. */
  lemma IdleRoom(d: Desk, caps: seq<Cap>, pend: Pending, pend': Pending)
    requires Roomy(d, caps, pend) && pend.lots == 0 && pend'.lots == 0
    ensures Roomy(d, caps, pend')
  {
    forall a, i | 0 <= a < |caps| && 0 <= i < |d.books| ensures RoomFor(d, caps, pend', a, i) {
      assert RoomFor(d, caps, pend, a, i);
    }
    forall a | 0 <= a < |caps| ensures GrossFor(d, caps, pend', a) {
      assert GrossFor(d, caps, pend, a);
    }
  }

  /** An admitted order may become pending. */
  lemma AdmitKeeps(r: Roster, d: Desk, caps: seq<Cap>, x: Taker, price: int, lots: nat)
    requires Sound(r, d, caps, Idle) && x.account < |r.ids| && x.instrument < |d.books|
    requires RoomAt(Pos(d, x.account, x.instrument), caps[x.account],
                    if x.side.Buy? then lots else 0, if x.side.Buy? then 0 else lots)
    requires GrossOf(d.positions[x.account]) + lots * Abs(price) <= caps[x.account].gross
    ensures Sound(r, d, caps, PendingOf(x, price, lots))
  {
    hide Orderlies, Keyed, Reserved, RoomAt;
    var pend := PendingOf(x, price, lots);
    forall a, i | 0 <= a < |caps| && 0 <= i < |d.books| ensures RoomFor(d, caps, pend, a, i) {
      assert RoomFor(d, caps, Idle, a, i);
    }
    forall a | 0 <= a < |caps| ensures GrossFor(d, caps, pend, a) {
      assert GrossFor(d, caps, Idle, a);
    }
  }

  // ---- every input --------------------------------------------------------

  ghost predicate Fitted(s: State) {
    && |s.desk.books| == |s.cfg.instruments| == |s.views|
    && |s.accounts| == |s.cfg.accountIds.ids|
  }

  /** The invariant of every fault-free reachable state. */
  ghost predicate Good(s: State, caps: seq<Cap>) {
    && Fitted(s) && CapsCover(s, caps)
    && Sound(s.cfg.accountIds, s.desk, caps, Idle)
    && BooksOk(s.desk, s.nextOrder, s.nextPriority)
  }

  /** Never an accounting fault or a failed expectation; good while fault-free. */
  ghost predicate Fine(s: State, caps: seq<Cap>) {
    && (s.fault.None? || s.fault == Some(SequenceExhausted))
    && (s.fault.None? ==> Good(s, caps))
  }

  lemma TakeSeqFine(s: State, caps: seq<Cap>)
    requires Fine(s, caps)
    ensures Fine(TakeSeq(s), caps)
  {
    hide Sound, BooksOk;
  }

  lemma RejectFine(s: State, caps: seq<Cap>, r: Request, reason: RejectReason, out: seq<Output>)
    requires Fine(s, caps)
    ensures Fine(Reject(s, r, reason, out).state, caps)
  {
    hide Fine, TakeSeq;
    TakeSeqFine(s, caps);
  }

  /** Dropping what is pending. */
  lemma SoundIdle(r: Roster, d: Desk, caps: seq<Cap>, pend: Pending)
    requires Sound(r, d, caps, pend)
    ensures Sound(r, d, caps, Idle)
  {
    hide Orderlies, Keyed, Reserved, Roomy;
    LessRoom(d, caps, pend, 0);
    IdleRoom(d, caps, pend.(lots := 0), Idle);
  }

  ghost predicate Unreachable(q: seq<Order>, maker: Side, limit: int) {
    forall k :: 0 <= k < |q| ==> !Eligible(maker, q[k].price, limit)
  }

  /** What executing an admitted order leaves. */
  ghost predicate Executed(s: State, e: State, x: Taker, caps: seq<Cap>, limit: int, left: int) {
    var r := s.cfg.accountIds;
    && 0 <= left <= x.quantity
    && Calm(s.fault, e.fault)
    && e == s.(desk := e.desk, outputSeq := e.outputSeq, nextTrade := e.nextTrade, fault := e.fault)
    && |e.desk.books| == |s.desk.books|
    && e.desk.live.Keys <= s.desk.live.Keys && e.desk.clients.Keys <= s.desk.clients.Keys
    && Shaped(r, e.desk) && Roomy(e.desk, caps, PendingOf(x, limit, left))
    && BooksOk(e.desk, s.nextOrder, s.nextPriority)
    && (left > 0 ==> Unreachable(BookAt(e.desk, x.instrument).Of(x.side.Opposite()), x.side.Opposite(), limit))
    && (e.fault != Some(SequenceExhausted) ==> Sound(r, e.desk, caps, PendingOf(x, limit, left)))
  }

  lemma ExecuteKeeps(s: State, x: Taker, caps: seq<Cap>, limit: i64)
    requires x.account < |s.cfg.accountIds.ids| && x.instrument < |s.desk.books|
    requires Sound(s.cfg.accountIds, s.desk, caps, PendingOf(x, limit, x.quantity))
    requires BooksOk(s.desk, s.nextOrder, s.nextPriority)
    ensures Executed(s, Execute(s, x, limit).state, x, caps, limit, x.quantity - Filling(s, x, limit))
  {
    hide Sound, BooksOk, Match, SettleAll, Keyed, Reserved, Roomy, Shaped, Queue, Disjoint, Lots, Seen, Resting;
    var i, ms := x.instrument, x.side.Opposite();
    var b := BookAt(s.desk, i);
    var q := b.Of(ms);
    assert Orderly(b) by { SoundOrderly(s.cfg.accountIds, s.desk, caps, PendingOf(x, limit, x.quantity), i); }
    QueueRests(b);
    var m := Match(ms, q, limit, x.quantity);
    var s0 := s.(desk := PutBook(s.desk, i, b.With(ms, m.rest)));
    SeenWhole(s.desk, i, ms, m.rest);
    SettleKeeps(s0, x, caps, limit, q, x.quantity, 0);
    var e := SettleAll(s0, x, m.fills, 0).state;
    SeenSelf(e.desk, s0.desk, i, ms, m.rest);
    BookMatchedDesk(s.desk, e.desk, i, ms, limit, x.quantity, s.nextOrder, s.nextPriority);
    LeftUnreachable(b, ms, limit, x.quantity);
  }

  lemma SoundOrderly(r: Roster, d: Desk, caps: seq<Cap>, pend: Pending, i: nat)
    requires Sound(r, d, caps, pend)
    ensures Orderly(BookAt(d, i))
  {
    hide Keyed, Reserved, Roomy, Orderly;
  }

  lemma SeenWhole(d: Desk, i: nat, side: Side, rest: seq<Order>)
    requires i < |d.books|
    ensures Seen(PutBook(d, i, BookAt(d, i).With(side, rest)), i, side, BookAt(d, i).Of(side)) == d
  {
    var b := BookAt(d, i);
    assert d.books[i := b.With(side, rest)][i := b] == d.books;
  }

  lemma SeenSelf(d: Desk, d0: Desk, i: nat, side: Side, rest: seq<Order>)
    requires i < |d0.books| && d.books == d0.books && BookAt(d0, i).Of(side) == rest
    ensures Seen(d, i, side, rest) == d
  {
    assert d.books[i := BookAt(d, i)] == d.books;
  }

  lemma BookMatchedDesk(d: Desk, e: Desk, i: nat, maker: Side, limit: i64, quantity: u64, id: u64, priority: u64)
    requires BooksOk(d, id, priority) && Orderly(BookAt(d, i)) && i < |d.books|
    requires Resting(maker, BookAt(d, i).Of(maker))
    requires e.books == d.books[i := BookAt(d, i).With(maker, Match(maker, BookAt(d, i).Of(maker), limit, quantity).rest)]
    ensures BooksOk(e, id, priority)
  {
    hide Orderly, Match, Uncrossed, Resting;
    assert BookOk(BookAt(d, i), id, priority);
    BookMatched(BookAt(d, i), maker, limit, quantity, id, priority);
    BooksPut(d, e, i, id, priority, id, priority);
  }

  lemma LeftUnreachable(b: Book, maker: Side, limit: i64, quantity: u64)
    requires Orderly(b) && Resting(maker, b.Of(maker))
    ensures var m := Match(maker, b.Of(maker), limit, quantity);
      Lots(m.fills) < quantity ==> Unreachable(m.rest, maker, limit)
  {
    hide Match, Disjoint;
    MatchRespectsLimit(maker, b.Of(maker), limit, quantity);
  }

  /** Resting a remainder ends the pending. */
  lemma RestOrderKeeps(s: State, x: Taker, caps: seq<Cap>, client: u64, price: i64, total: u64, filled: u64)
    requires x.account < |s.cfg.accountIds.ids| && x.instrument < |s.desk.books|
    requires x.request.account == s.cfg.accountIds.ids[x.account]
    requires filled < total && x.id <= s.nextOrder
    requires x.id !in s.desk.live && Owner(x.request.account, client) !in s.desk.clients
    requires s.fault.None? || s.fault == Some(SequenceExhausted)
    requires Shaped(s.cfg.accountIds, s.desk) && Roomy(s.desk, caps, PendingOf(x, price, total - filled))
    requires s.fault.None? ==> Sound(s.cfg.accountIds, s.desk, caps, PendingOf(x, price, total - filled))
    requires BooksOk(s.desk, s.nextOrder, s.nextPriority)
    requires Unreachable(BookAt(s.desk, x.instrument).Of(x.side.Opposite()), x.side.Opposite(), price)
    ensures var e := RestOrder(s, x, client, price, total, filled);
      && (e.fault.None? || e.fault == Some(SequenceExhausted))
      && e == s.(desk := e.desk, nextPriority := e.nextPriority, fault := e.fault)
      && |e.desk.books| == |s.desk.books|
      && (e.fault.None? ==> Sound(s.cfg.accountIds, e.desk, caps, Idle) && BooksOk(e.desk, s.nextOrder, e.nextPriority))
  {
    hide Sound, BooksOk, Roomy, Shaped, Fresh, ReserveOrder, Admits, Rest;
    var r, a, i := s.cfg.accountIds, x.account, x.instrument;
    var pend := PendingOf(x, price, total - filled);
    if Successor(s.nextPriority).Some? {
      var n := Successor(s.nextPriority).value;
      var o := Order(x.id, Owner(x.request.account, client), x.side, price, total, filled, n);
      if Admits(BookAt(s.desk, i), o, s.cfg.capacity) {
        RestPositions(r, s.desk, caps, pend, total - filled);
        RestedEffects(s.desk, a, i, o);
        if s.fault.None? {
          RestSound(s, r, caps, pend, o);
          BooksRested(s.desk, Rest(s.desk, a, i, o).desk, i, o, s.nextOrder, s.nextPriority);
        }
      } else if s.fault.None? {
        SoundIdle(r, s.desk, caps, pend);
        BooksSame(s.desk, s.desk, s.nextOrder, s.nextPriority, s.nextOrder, n);
      }
    }
  }

  lemma RestSound(s: State, r: Roster, caps: seq<Cap>, pend: Pending, o: Order)
    requires Sound(r, s.desk, caps, pend) && pend.account < |r.ids| && pend.instrument < |s.desk.books|
    requires BooksOk(s.desk, s.nextOrder, s.nextPriority) && s.nextPriority < o.priority
    requires o.side == pend.side && o.price == pend.price && 0 < o.Remaining() <= pend.lots
    requires o.owner.account == r.ids[pend.account] && o.owner !in s.desk.clients && o.id !in s.desk.live
    ensures Sound(r, Rest(s.desk, pend.account, pend.instrument, o).desk, caps, Idle)
  {
    hide Orderlies, Keyed, Reserved, Roomy, Rest, BooksOk, Fresh, Shaped;
    FreshAgain(r, s.desk, pend.instrument, o.side, o.id, s.nextOrder, s.nextPriority, o.priority);
    RestKeeps(r, s.desk, caps, pend, o);
    SoundIdle(r, Rest(s.desk, pend.account, pend.instrument, o).desk, caps, pend.(lots := 0));
  }

  lemma BooksRested(d: Desk, e: Desk, i: nat, o: Order, id: u64, priority: u64)
    requires BooksOk(d, id, priority) && o.id <= id && priority < o.priority
    requires BookAt(e, i) == Insert(BookAt(d, i), o) && forall j: nat :: j != i ==> BookAt(e, j) == BookAt(d, j)
    requires Unreachable(BookAt(d, i).Of(o.side.Opposite()), o.side.Opposite(), o.price)
    ensures BooksOk(e, id, o.priority)
  {
    hide Uncrossed, BookAt;
    assert BookOk(BookAt(d, i), id, priority);
    BookInserted(BookAt(d, i), o, id, o.priority);
    BooksPut(d, e, i, id, priority, id, o.priority);
  }

  lemma LiveBounded(r: Roster, d: Desk, id: u64, maxId: u64, priority: u64)
    requires Keyed(r, d) && BooksOk(d, maxId, priority) && id in d.live
    ensures id <= maxId
  {
    hide BookAt, Uncrossed;
    assert LiveOk(r, d, id);
    var i := d.live[id].instrument;
    assert BookOk(BookAt(d, i), maxId, priority);
  }

  /** What a passed check says about a new order. */
  lemma NewAdmitted(s: State, caps: seq<Cap>, r: Request)
    requires Good(s, caps) && CheckNew(s, r).Pass?
    ensures var c := CheckNew(s, r).value;
      && c.account < |s.cfg.accountIds.ids| && c.instrument < |s.desk.books|
      && r.account == s.cfg.accountIds.ids[c.account]
      && r.quantity > 0 && (r.orderType.LimitOrder? ==> c.limit == r.price)
      && Owner(r.account, r.clientOrderId) !in s.desk.clients
      && Admitted(s.desk, c.account, c.instrument, r.side, caps[c.account], r.quantity, c.limit, 0, c.limit)
  {
    hide CheckExposure, Orderlies, Keyed, Reserved, Roomy, BooksOk, Admitted, CheckReference, CheckPrice;
    var c := CheckNew(s, r).value;
    ExposureAdmits(s, caps, c.account, c.instrument, r.side, r.quantity, c.limit, 0, c.limit);
  }

  lemma AdmittedPends(s: State, caps: seq<Cap>, x: Taker, limit: i64)
    requires Good(s, caps) && x.account < |s.cfg.accountIds.ids| && x.instrument < |s.desk.books|
    requires Admitted(s.desk, x.account, x.instrument, x.side, caps[x.account], x.quantity, limit, 0, limit)
    ensures Sound(s.cfg.accountIds, s.desk, caps, PendingOf(x, limit, x.quantity))
  {
    hide Orderlies, Keyed, Reserved, BooksOk, RoomAt;
    AdmitKeeps(s.cfg.accountIds, s.desk, caps, x, limit, x.quantity);
  }

  /** After executing, nothing needs to rest. */
  lemma ExecutedFine(s: State, e: State, x: Taker, caps: seq<Cap>, limit: int, left: int)
    requires Fitted(s) && CapsCover(s, caps) && s.fault.None?
    requires Executed(s, e, x, caps, limit, left)
    ensures Fine(e, caps)
  {
    hide Sound, BooksOk, Roomy, Shaped, Unreachable;
    if e.fault.None? {
      SoundIdle(s.cfg.accountIds, e.desk, caps, PendingOf(x, limit, left));
    }
  }

  lemma ExecutedRests(s: State, e: State, x: Taker, caps: seq<Cap>, client: u64, price: i64, total: u64, filled: u64)
    requires Fitted(s) && CapsCover(s, caps) && s.fault.None?
    requires filled < total && Executed(s, e, x, caps, price, total - filled)
    requires x.account < |s.cfg.accountIds.ids| && x.instrument < |s.desk.books|
    requires x.request.account == s.cfg.accountIds.ids[x.account] && x.id <= s.nextOrder
    requires x.id !in s.desk.live && Owner(x.request.account, client) !in s.desk.clients
    ensures Fine(RestOrder(e, x, client, price, total, filled), caps)
  {
    hide Sound, BooksOk, Roomy, Shaped, Unreachable, RestOrder;
    assert x.id !in e.desk.live && Owner(x.request.account, client) !in e.desk.clients;
    RestOrderKeeps(e, x, caps, client, price, total, filled);
  }

  lemma NewFine(s: State, caps: seq<Cap>, r: Request)
    requires Good(s, caps) && s.fault.None?
    ensures Fine(HandleNew(s, r).state, caps)
  {
    hide Good, Fine, TakeSeq, Execute, Filling, CheckNew, RestOrder, Executed, Admitted, Sound, BooksOk, Fitted, CapsCover;
    match CheckNew(s, r) {
      case Refuse(reason) =>
        GoodFine(s, caps);
        RejectFine(s, caps, r, reason, []);
      case Pass(c) =>
        if Successor(s.nextOrder).None? {
          FaultFine(s, caps);
          RejectFine(s.(fault := Some(SequenceExhausted)), caps, r, CapacityExhausted, []);
        } else {
          var id := s.nextOrder + 1;
          var x := Taker(c.account, c.instrument, r, id, r.side, r.quantity);
          var s0 := s.(nextOrder := id);
          NewPends(s, caps, r);
          ExecuteKeeps(s0, x, caps, c.limit);
          var e, filled := Execute(s0, x, c.limit), Filling(s, x, c.limit);
          assert Filling(s0, x, c.limit) == filled by { FillingSame(s, s0, x, c.limit); }
          ExecutedFine(s0, e.state, x, caps, c.limit, r.quantity - filled);
          ExecutedLeft(s0, e.state, x, caps, c.limit, r.quantity - filled);
          if filled == r.quantity || r.orderType.MarketOrder? {
            TakeSeqFine(e.state, caps);
          } else {
            ExecutedRests(s0, e.state, x, caps, r.clientOrderId, r.price, r.quantity, filled);
            TakeSeqFine(RestOrder(e.state, x, r.clientOrderId, r.price, r.quantity, filled), caps);
          }
        }
    }
  }

  lemma GoodFine(s: State, caps: seq<Cap>)
    requires Good(s, caps) && s.fault.None?
    ensures Fine(s, caps)
  {
  }

  lemma FaultFine(s: State, caps: seq<Cap>)
    ensures Fine(s.(fault := Some(SequenceExhausted)), caps)
  {
  }

  lemma FillingSame(s: State, s0: State, x: Taker, limit: i64)
    requires s0.desk == s.desk
    ensures Filling(s0, x, limit) == Filling(s, x, limit)
  {
  }

  lemma ExecutedLeft(s: State, e: State, x: Taker, caps: seq<Cap>, limit: int, left: int)
    requires Executed(s, e, x, caps, limit, left)
    ensures 0 <= left <= x.quantity
  {
  }

  /** A new order under its fresh id, ready to execute. */
  lemma NewPends(s: State, caps: seq<Cap>, r: Request)
    requires Good(s, caps) && s.fault.None? && CheckNew(s, r).Pass? && Successor(s.nextOrder).Some?
    ensures var c := CheckNew(s, r).value;
      var s0 := s.(nextOrder := s.nextOrder + 1);
      var x := Taker(c.account, c.instrument, r, s.nextOrder + 1, r.side, r.quantity);
      && Fitted(s0) && CapsCover(s0, caps)
      && c.account < |s.cfg.accountIds.ids| && c.instrument < |s.desk.books|
      && r.account == s.cfg.accountIds.ids[c.account]
      && (r.orderType.LimitOrder? ==> c.limit == r.price)
      && Sound(s.cfg.accountIds, s.desk, caps, PendingOf(x, c.limit, x.quantity))
      && BooksOk(s.desk, s.nextOrder + 1, s.nextPriority)
      && x.id !in s.desk.live && Owner(r.account, r.clientOrderId) !in s.desk.clients
  {
    hide CheckNew, Admitted, BooksOk, Roomy, Reserved, Keyed, Orderlies;
    NewAdmitted(s, caps, r);
    var c := CheckNew(s, r).value;
    var x := Taker(c.account, c.instrument, r, s.nextOrder + 1, r.side, r.quantity);
    AdmittedPends(s, caps, x, c.limit);
    BooksSame(s.desk, s.desk, s.nextOrder, s.nextPriority, s.nextOrder + 1, s.nextPriority);
    if x.id in s.desk.live {
      LiveBounded(s.cfg.accountIds, s.desk, x.id, s.nextOrder, s.nextPriority);
      assert false;
    }
  }

  lemma BooksWithdrawn(d: Desk, e: Desk, i: nat, o: Order, id: u64, priority: u64)
    requires BooksOk(d, id, priority) && Orderly(BookAt(d, i)) && Lookup(BookAt(d, i), o.id) == Some(o)
    requires BookAt(e, i) == Remove(BookAt(d, i), o.id) && forall j: nat :: j != i ==> BookAt(e, j) == BookAt(d, j)
    ensures BooksOk(e, id, priority)
  {
    hide Queue, Disjoint, Uncrossed, BookAt, Lookup, Remove, Reduce;
    assert BookOk(BookAt(d, i), id, priority);
    var k := RemoveIsDrop(BookAt(d, i), o.id);
    BookDropped(BookAt(d, i), o.side, k, id, priority);
    BooksPut(d, e, i, id, priority, id, priority);
  }

  lemma BooksShrunk(d: Desk, e: Desk, i: nat, o: Order, total: u64, id: u64, priority: u64)
    requires BooksOk(d, id, priority) && Orderly(BookAt(d, i)) && Lookup(BookAt(d, i), o.id) == Some(o)
    requires BookAt(e, i) == Reduce(BookAt(d, i), o.id, total) && forall j: nat :: j != i ==> BookAt(e, j) == BookAt(d, j)
    ensures BooksOk(e, id, priority)
  {
    hide Queue, Disjoint, Uncrossed, BookAt, Lookup, Remove, Reduce;
    assert BookOk(BookAt(d, i), id, priority);
    var k := RemoveIsDrop(BookAt(d, i), o.id);
    BookResized(BookAt(d, i), o.side, k, o.(total := total), id, priority);
    BooksPut(d, e, i, id, priority, id, priority);
  }

  /** An order withdrawn from a good state leaves a good state. */
  lemma WithdrawGood(s: State, caps: seq<Cap>, a: nat, i: nat, o: Order)
    requires Good(s, caps) && i < |s.desk.books|
    requires Lookup(BookAt(s.desk, i), o.id) == Some(o)
    requires o.owner.account in s.cfg.accountIds.index && a == s.cfg.accountIds.index[o.owner.account]
    ensures o.filled < o.total
    ensures var done := Withdraw(s.desk, a, i, o);
      && done.ok && Good(s.(desk := done.desk), caps)
      && o.id !in done.desk.live && o.owner !in done.desk.clients
      && Lowered(Pos(s.desk, a, i), Pos(done.desk, a, i), o)
      && (forall b: nat, j: nat :: b != a || j != i ==> Pos(done.desk, b, j) == Pos(s.desk, b, j))
  {
    hide Sound, BooksOk, Lookup, Remove, ReleaseOrder, Withdraw, Orderly;
    SoundOrderly(s.cfg.accountIds, s.desk, caps, Idle, i);
    WithdrawKeeps(s.cfg.accountIds, s.desk, caps, Idle, i, o.id);
    WithdrawnEffects(s.desk, a, i, o);
    BooksWithdrawn(s.desk, Withdraw(s.desk, a, i, o).desk, i, o, s.nextOrder, s.nextPriority);
  }

  /** A registered client key leads to the order it names. */
  lemma ClientOrder(r: Roster, d: Desk, key: Owner)
    requires Keyed(r, d) && key in d.clients
    ensures d.clients[key] in d.live
    ensures var id := d.clients[key];
      var i := d.live[id].instrument;
      && i < |d.books| && key.account in r.index && d.live[id].account == r.index[key.account]
      && Lookup(BookAt(d, i), id).Some? && Lookup(BookAt(d, i), id).value.owner == key
      && Lookup(BookAt(d, i), id).value.id == id
  {
    hide BookAt;
    assert ClientOk(d, key);
    Registered(r, d, d.live[d.clients[key]].instrument, d.clients[key]);
  }

  lemma CancelFine(s: State, caps: seq<Cap>, r: Request)
    requires Good(s, caps) && s.fault.None?
    ensures Fine(HandleCancel(s, r).state, caps)
  {
    hide Good, Fine, TakeSeq, Withdraw, Lookup, Keyed;
    var key := Owner(r.account, r.target);
    GoodFine(s, caps);
    if r.account !in s.cfg.accountIds.index {
      RejectFine(s, caps, r, UnknownAccount, []);
    } else if key !in s.desk.clients {
      RejectFine(s, caps, r, UnknownOrder, []);
    } else {
      GoodKeyed(s, caps);
      ClientOrder(s.cfg.accountIds, s.desk, key);
      var id := s.desk.clients[key];
      var i := s.desk.live[id].instrument;
      var o := Lookup(BookAt(s.desk, i), id).value;
      WithdrawGood(s, caps, s.desk.live[id].account, i, o);
      var s1 := s.(desk := Withdraw(s.desk, s.desk.live[id].account, i, o).desk);
      GoodFine(s1, caps);
      TakeSeqFine(s1, caps);
    }
  }

  lemma GoodKeyed(s: State, caps: seq<Cap>)
    requires Good(s, caps)
    ensures Keyed(s.cfg.accountIds, s.desk) && Fitted(s) && CapsCover(s, caps)
    ensures forall i: nat :: Orderly(BookAt(s.desk, i))
  {
    hide Keyed, Roomy, Reserved, BooksOk, Orderly;
  }

  /** What a passed check says about a replacement. */
  lemma ReplaceAdmitted(s: State, caps: seq<Cap>, r: Request)
    requires Good(s, caps) && CheckReplace(s, r).Pass?
    ensures var c := CheckReplace(s, r).value;
      var o := c.existing;
      && c.account < |s.cfg.accountIds.ids| && c.instrument < |s.desk.books|
      && r.account == s.cfg.accountIds.ids[c.account] == o.owner.account
      && o.owner.account in s.cfg.accountIds.index && c.account == s.cfg.accountIds.index[o.owner.account]
      && Lookup(BookAt(s.desk, c.instrument), o.id) == Some(o) && o.id <= s.nextOrder
      && o.filled <= r.quantity && o.filled < o.total && r.side == o.side
      && Admitted(s.desk, c.account, c.instrument, o.side, caps[c.account], r.quantity - o.filled, r.price,
                  o.Remaining(), o.price)
  {
    hide CheckExposure, Orderlies, Keyed, Reserved, Roomy, BooksOk, Admitted, CheckReference, CheckPrice, CheckQuantity, Lookup;
    var c := CheckReplace(s, r).value;
    var o := c.existing;
    ReplaceNames(s, caps, r);
    ExposureAdmits(s, caps, c.account, c.instrument, o.side, r.quantity - o.filled, r.price, o.Remaining(), o.price);
  }

  lemma ReplaceNames(s: State, caps: seq<Cap>, r: Request)
    requires Good(s, caps) && CheckReplaceForm(s, r).Pass?
    ensures var c := CheckReplaceForm(s, r).value;
      var o := c.existing;
      && Lookup(BookAt(s.desk, c.instrument), o.id) == Some(o) && o.id <= s.nextOrder
      && o.owner == Owner(r.account, r.target)
      && o.filled < o.total
  {
    hide Orderly, Keyed, Reserved, Roomy, BooksOk, Lookup, CheckPrice, CheckQuantity;
    var key := Owner(r.account, r.target);
    ClientOrder(s.cfg.accountIds, s.desk, key);
    var c := CheckReplaceForm(s, r).value;
    var id := s.desk.clients[key];
    Registered(s.cfg.accountIds, s.desk, c.instrument, id);
    LiveBounded(s.cfg.accountIds, s.desk, id, s.nextOrder, s.nextPriority);
    assert Orderly(BookAt(s.desk, c.instrument));
    var k := LookupWhere(BookAt(s.desk, c.instrument), id);
  }

  lemma InPlaceFine(s: State, caps: seq<Cap>, r: Request, c: Replacement)
    requires Good(s, caps) && s.fault.None? && c.instrument < |s.desk.books|
    requires var o := c.existing;
      && o.owner.account in s.cfg.accountIds.index && c.account == s.cfg.accountIds.index[o.owner.account]
      && Lookup(BookAt(s.desk, c.instrument), o.id) == Some(o)
      && o.filled <= r.quantity < o.total
    ensures Fine(ReplaceInPlace(s, r, c).state, caps)
  {
    hide Good, Fine, TakeSeq, Withdraw, Lookup, Keyed, Shrink, Remove;
    var o, i := c.existing, c.instrument;
    GoodKeyed(s, caps);
    assert Orderly(BookAt(s.desk, i));
    if r.quantity == o.filled {
      ShrinkAway(s.desk, c.account, i, o);
      WithdrawGood(s, caps, c.account, i, o);
      var s1 := s.(desk := Withdraw(s.desk, c.account, i, o).desk);
      GoodFine(s1, caps);
      TakeSeqFine(s1, caps);
    } else {
      ShrinkGood(s, caps, c.account, i, o, r.quantity);
      var s1 := s.(desk := Shrink(s.desk, c.account, i, o, r.quantity).desk);
      GoodFine(s1, caps);
      TakeSeqFine(s1, caps);
    }
  }

  lemma ShrinkGood(s: State, caps: seq<Cap>, a: nat, i: nat, o: Order, total: u64)
    requires Good(s, caps) && i < |s.desk.books|
    requires Lookup(BookAt(s.desk, i), o.id) == Some(o) && o.filled < total < o.total
    requires o.owner.account in s.cfg.accountIds.index && a == s.cfg.accountIds.index[o.owner.account]
    ensures Shrink(s.desk, a, i, o, total).ok
    ensures Good(s.(desk := Shrink(s.desk, a, i, o, total).desk), caps)
  {
    hide Sound, BooksOk, Lookup, Reduce, ReleaseOrder, Orderly;
    SoundOrderly(s.cfg.accountIds, s.desk, caps, Idle, i);
    ShrinkKeeps(s.cfg.accountIds, s.desk, caps, Idle, i, o.id, total);
    ReleaseFrame(s.desk, a, i, o.side, o.total - total, o.price);
    BooksShrunk(s.desk, Shrink(s.desk, a, i, o, total).desk, i, o, total, s.nextOrder, s.nextPriority);
  }

  lemma LoweredRoom(p: Position, p': Position, o: Order, cap: Cap, added: nat)
    requires Lowered(p, p', o)
    requires RoomAt(p, cap, if o.side.Buy? then added - o.Remaining() else 0, if o.side.Buy? then 0 else added - o.Remaining())
    ensures RoomAt(p', cap, if o.side.Buy? then added else 0, if o.side.Buy? then 0 else added)
    ensures p'.Worth() == p.Worth() - Value(InNotional, o.Remaining(), o.price)
  {
    ValueMinus(InNotional, 0, o.Remaining(), o.price);
    assert p'.Booked(InLots, Buy) == p'.openBuy && p'.Booked(InLots, Sell) == p'.openSell;
    assert p'.Booked(InNotional, Buy) == p'.buyNotional && p'.Booked(InNotional, Sell) == p'.sellNotional;
  }

  /** Once the old order is withdrawn, the admitted replacement is pending. */
  lemma ReplacePends(s: State, s1: State, caps: seq<Cap>, x: Taker, price: i64, o: Order)
    requires Good(s, caps) && Good(s1, caps) && s1 == s.(desk := s1.desk)
    requires x.account < |s.cfg.accountIds.ids| && x.instrument < |s.desk.books| && x.side == o.side
    requires o.filled <= o.total
    requires Admitted(s.desk, x.account, x.instrument, o.side, caps[x.account], x.quantity, price,
                      o.Remaining(), o.price)
    requires Lowered(Pos(s.desk, x.account, x.instrument), Pos(s1.desk, x.account, x.instrument), o)
    requires forall b: nat, j: nat :: b != x.account || j != x.instrument ==> Pos(s1.desk, b, j) == Pos(s.desk, b, j)
    ensures Sound(s.cfg.accountIds, s1.desk, caps, PendingOf(x, price, x.quantity))
  {
    hide Orderlies, Keyed, Reserved, BooksOk, RoomAt, Roomy;
    var a, i := x.account, x.instrument;
    var ps, ps1 := s.desk.positions[a], s1.desk.positions[a];
    GrossPut(ps, i, ps1[i]);
    LoweredRoom(ps[i], ps1[i], o, caps[a], x.quantity);
    assert ps1 == ps[i := ps1[i]] by {
      forall j | 0 <= j < |ps1| ensures ps1[j] == ps[i := ps1[i]][j] {
        assert Pos(s1.desk, a, j) == ps1[j];
      }
    }
    AdmitKeeps(s.cfg.accountIds, s1.desk, caps, x, price, x.quantity);
  }

  lemma AnewFine(s: State, s1: State, caps: seq<Cap>, r: Request, c: Replacement)
    requires Good(s1, caps) && s1.fault.None? && s1 == s.(desk := s1.desk)
    requires c.account < |s.cfg.accountIds.ids| && c.instrument < |s1.desk.books|
    requires var o := c.existing;
      && r.account == s.cfg.accountIds.ids[c.account] == o.owner.account
      && o.filled <= r.quantity && o.id <= s.nextOrder
      && o.id !in s1.desk.live && o.owner !in s1.desk.clients
      && (o.filled < r.quantity ==>
            var x := Taker(c.account, c.instrument, r, o.id, o.side, r.quantity - o.filled);
            Sound(s.cfg.accountIds, s1.desk, caps, PendingOf(x, r.price, x.quantity)))
    ensures Fine(ReplaceAnew(s1, r, c).state, caps)
  {
    hide Fine, TakeSeq, Execute, Filling, RestOrder, Executed, Sound, BooksOk, Fitted, CapsCover;
    var o := c.existing;
    GoodFine(s1, caps);
    if r.quantity == o.filled {
      TakeSeqFine(s1, caps);
    } else {
      var x := Taker(c.account, c.instrument, r, o.id, o.side, r.quantity - o.filled);
      ExecuteKeeps(s1, x, caps, r.price);
      var e, left := Execute(s1, x, r.price).state, x.quantity - Filling(s1, x, r.price);
      var cumulative := o.filled + Filling(s1, x, r.price);
      ExecutedFine(s1, e, x, caps, r.price, left);
      ExecutedLeft(s1, e, x, caps, r.price, left);
      if left == 0 {
        TakeSeqFine(e, caps);
      } else {
        ExecutedRests(s1, e, x, caps, o.owner.client, r.price, r.quantity, cumulative);
        TakeSeqFine(RestOrder(e, x, o.owner.client, r.price, r.quantity, cumulative), caps);
      }
    }
  }

  lemma ReplaceFine(s: State, caps: seq<Cap>, r: Request)
    requires Good(s, caps) && s.fault.None?
    ensures Fine(HandleReplace(s, r).state, caps)
  {
    hide Good, Fine, TakeSeq, ReplaceInPlace, ReplaceAnew, CheckReplace, Admitted, Sound, Withdraw, Lookup;
    GoodFine(s, caps);
    match CheckReplace(s, r) {
      case Refuse(reason) => RejectFine(s, caps, r, reason, []);
      case Pass(c) =>
        ReplaceAdmitted(s, caps, r);
        var o := c.existing;
        if r.price == o.price && r.quantity < o.total {
          InPlaceFine(s, caps, r, c);
        } else {
          WithdrawGood(s, caps, c.account, c.instrument, o);
          var s1 := s.(desk := Withdraw(s.desk, c.account, c.instrument, o).desk);
          if o.filled < r.quantity {
            var x := Taker(c.account, c.instrument, r, o.id, o.side, r.quantity - o.filled);
            ReplacePends(s, s1, caps, x, r.price, o);
          }
          WithdrawnSize(s.desk, c.account, c.instrument, o);
          AnewFine(s, s1, caps, r, c);
        }
    }
  }

  lemma WithdrawnSize(d: Desk, a: nat, i: nat, o: Order)
    requires o.filled <= o.total
    ensures |Withdraw(d, a, i, o).desk.books| == |d.books|
  {
    ReleaseFrame(PutBook(d, i, Remove(BookAt(d, i), o.id)), a, i, o.side, o.Remaining(), o.price);
  }

  lemma RecordFine(s: State, caps: seq<Cap>, a: nat, r: Request, report: Report)
    requires Fine(s, caps)
    ensures Fine(RecordOutcome(s, a, r, report), caps)
  {
    hide Sound, BooksOk, CacheRecord;
  }

  lemma RequestFine(s: State, caps: seq<Cap>, r: Request)
    requires Good(s, caps) && s.fault.None?
    ensures Fine(ApplyRequest(s, r).state, caps)
  {
    hide Good, Fine, TakeSeq, HandleNew, HandleCancel, HandleReplace, CacheLookup, RecordOutcome, Reject;
    GoodFine(s, caps);
    TakeSeqFine(s, caps);
    RejectFine(s, caps, r, DuplicateRequestConflict, []);
    NewFine(s, caps, r);
    CancelFine(s, caps, r);
    ReplaceFine(s, caps, r);
    var known := r.account in s.cfg.accountIds.index;
    var a := if known then s.cfg.accountIds.index[r.account] else 0;
    var h, c := Handle(s, r), Reject(s, r, DuplicateRequestConflict, []);
    RecordFine(h.state, caps, a, r, h.report);
    RecordFine(c.state, caps, a, r, c.report);
  }

  /** The limits an input sets stay within the caps. */
  ghost predicate Within(cfg: Config, input: Input, caps: seq<Cap>) {
    input.event.ControlInput? && input.event.command.SetAccountLimits?
    && input.event.command.account in cfg.accountIds.index ==>
      var a := cfg.accountIds.index[input.event.command.account];
      && a < |caps|
      && input.event.command.limits.maxPositionLots <= caps[a].position
      && input.event.command.limits.maxGrossExposure <= caps[a].gross
  }

  lemma ControlFine(s: State, caps: seq<Cap>, input: Input)
    requires Good(s, caps) && s.fault.None? && input.event.ControlInput? && Within(s.cfg, input, caps)
    ensures Fine(ApplyControl(s, input.event.command).state, caps)
  {
    hide Sound, BooksOk;
  }

  lemma MarketFine(s: State, caps: seq<Cap>, e: MarketEvent)
    requires Good(s, caps) && s.fault.None?
    ensures Fine(ApplyMarket(s, e).state, caps)
  {
    hide Sound, BooksOk, Market.Apply;
  }

  // ---- what a request may change ------------------------------------------

  /** Only the desk, the sequences and the fault differ. */
  ghost predicate Framed(s: State, e: State) {
    e == s.(desk := e.desk, outputSeq := e.outputSeq, nextOrder := e.nextOrder, nextTrade := e.nextTrade,
            nextPriority := e.nextPriority, fault := e.fault)
  }

  lemma SettleOneFramed(s: State, x: Taker, f: Fill, cumulative: u64)
    ensures Framed(s, SettleOne(s, x, f, cumulative).state)
  {
    hide SettleFill, TakeSeq;
    if f.owner.account in s.cfg.accountIds.index {
      var s1 := s.On(SettleFill(s.desk, s.cfg.accountIds.index[f.owner.account], x.account, x.instrument, x.side, f));
      TakeSeqFields(s1);
      TakeSeqFields(TakeSeq(s1));
      TakeSeqFields(TakeSeq(TakeSeq(s1)));
    }
  }

  lemma {:induction false} SettleAllFramed(s: State, x: Taker, fills: seq<Fill>, cumulative: u64)
    ensures Framed(s, SettleAll(s, x, fills, cumulative).state)
    decreases |fills|
  {
    hide SettleOne;
    if fills != [] && cumulative + fills[0].quantity <= U64_MAX && Successor(s.nextTrade).Some? {
      var s0 := s.(nextTrade := s.nextTrade + 1);
      SettleOneFramed(s0, x, fills[0], cumulative + fills[0].quantity);
      SettleAllFramed(SettleOne(s0, x, fills[0], cumulative + fills[0].quantity).state, x, fills[1..],
                      cumulative + fills[0].quantity);
    }
  }

  lemma ExecuteFramed(s: State, x: Taker, limit: i64)
    ensures Framed(s, Execute(s, x, limit).state)
  {
    hide SettleAll;
    var b, ms := BookAt(s.desk, x.instrument), x.side.Opposite();
    var m := Sweep(ms, b.Of(ms), limit, x.quantity);
    SettleAllFramed(s.(desk := PutBook(s.desk, x.instrument, b.With(ms, m.rest))), x, m.fills, 0);
  }

  lemma RestOrderFramed(s: State, x: Taker, client: u64, price: i64, total: u64, filled: u64)
    ensures Framed(s, RestOrder(s, x, client, price, total, filled))
  {
    hide Rest, Admits;
  }

  lemma FramedSelf(s: State, desk: Desk, fault: Option<Fault>)
    ensures Framed(s, s.(desk := desk, fault := fault)) && Framed(s, s)
  {
  }

  lemma FramedThen(s: State, e: State, t: State)
    requires Framed(s, e) && Framed(e, t)
    ensures Framed(s, t)
  {
  }

  lemma ClosingFramed(s: State, e: State)
    requires Framed(s, e)
    ensures Framed(s, TakeSeq(e)) && Framed(s, TakeSeq(TakeSeq(e).(fault := Some(Accounting))))
    ensures forall f :: Framed(s, TakeSeq(e.(fault := Some(f)))) && Framed(s, TakeSeq(e).(fault := Some(f)))
  {
  }

  lemma NewFramed(s: State, r: Request)
    ensures Framed(s, HandleNew(s, r).state)
  {
    hide CheckNew, Execute, RestOrder, Filling, TakeSeq, Framed, BaseReport;
    FramedSelf(s, s.desk, s.fault);
    ClosingFramed(s, s);
    if CheckNew(s, r).Pass? && Successor(s.nextOrder).Some? {
      var c := CheckNew(s, r).value;
      var x := Taker(c.account, c.instrument, r, s.nextOrder + 1, r.side, r.quantity);
      var s0 := s.(nextOrder := s.nextOrder + 1);
      ExecuteFramed(s0, x, c.limit);
      var e := Execute(s0, x, c.limit).state;
      assert Framed(s, s0) by { OrderFramed(s); }
      FramedThen(s, s0, e);
      ClosingFramed(s, e);
      var filled := Filling(s, x, c.limit);
      if filled < r.quantity {
        RestOrderFramed(e, x, r.clientOrderId, r.price, r.quantity, filled);
        FramedThen(s, e, RestOrder(e, x, r.clientOrderId, r.price, r.quantity, filled));
        ClosingFramed(s, RestOrder(e, x, r.clientOrderId, r.price, r.quantity, filled));
      }
    }
  }

  lemma OrderFramed(s: State)
    requires s.nextOrder < U64_MAX
    ensures Framed(s, s.(nextOrder := s.nextOrder + 1))
  {
  }

  lemma InPlaceFramed(s: State, r: Request, c: Replacement)
    requires r.quantity < c.existing.total
    ensures Framed(s, ReplaceInPlace(s, r, c).state)
  {
    hide TakeSeq, Framed, BaseReport, Shrink, Remove;
    var o := c.existing;
    var s1 := s.On(Shrink(s.desk, c.account, c.instrument, o, r.quantity));
    FramedSelf(s, s1.desk, s1.fault);
    ClosingFramed(s, s1);
    var gone := Forget(PutBook(s1.desk, c.instrument, Remove(BookAt(s1.desk, c.instrument), o.id)), o.id, o.owner);
    FramedSelf(s, gone, s1.fault);
    ClosingFramed(s, s1.(desk := gone));
  }

  lemma AnewFramed(s: State, r: Request, c: Replacement)
    ensures Framed(s, ReplaceAnew(s, r, c).state)
  {
    hide TakeSeq, Framed, BaseReport, Execute, Filling, RestOrder;
    var o := c.existing;
    FramedSelf(s, s.desk, s.fault);
    ClosingFramed(s, s);
    if o.filled < r.quantity {
      var x := Taker(c.account, c.instrument, r, o.id, o.side, r.quantity - o.filled);
      ExecuteFramed(s, x, r.price);
      var e, cumulative := Execute(s, x, r.price).state, o.filled + Filling(s, x, r.price);
      ClosingFramed(s, e);
      if cumulative <= U64_MAX {
        var rested := RestOrder(e, x, o.owner.client, r.price, r.quantity, cumulative);
        RestOrderFramed(e, x, o.owner.client, r.price, r.quantity, cumulative);
        FramedThen(s, e, rested);
        ClosingFramed(s, rested);
      }
    }
  }

  lemma ReplaceFramed(s: State, r: Request)
    ensures Framed(s, HandleReplace(s, r).state)
  {
    hide CheckReplace, ReplaceInPlace, ReplaceAnew, Withdraw, TakeSeq, Framed, BaseReport;
    FramedSelf(s, s.desk, s.fault);
    ClosingFramed(s, s);
    if CheckReplace(s, r).Pass? {
      var c := CheckReplace(s, r).value;
      var o := c.existing;
      if r.price == o.price && r.quantity < o.total {
        InPlaceFramed(s, r, c);
      } else if o.filled <= o.total {
        var s1 := s.On(Withdraw(s.desk, c.account, c.instrument, o));
        FramedSelf(s, s1.desk, s1.fault);
        AnewFramed(s1, r, c);
        FramedThen(s, s1, ReplaceAnew(s1, r, c).state);
      }
    }
  }

  lemma CancelFramed(s: State, r: Request)
    ensures Framed(s, HandleCancel(s, r).state)
  {
    hide Withdraw, TakeSeq, Framed, BaseReport, Lookup;
    FramedSelf(s, s.desk, s.fault);
    ClosingFramed(s, s);
    var key := Owner(r.account, r.target);
    if key in s.desk.clients && s.desk.clients[key] in s.desk.live {
      var id := s.desk.clients[key];
      var LiveOrder(a, i) := s.desk.live[id];
      var o := Lookup(BookAt(s.desk, i), id);
      if o.Some? && o.value.filled <= o.value.total {
        var s1 := s.On(Withdraw(s.desk, a, i, o.value));
        FramedSelf(s, s1.desk, s1.fault);
        ClosingFramed(s, s1);
      }
    }
  }

  lemma HandleFramed(s: State, r: Request)
    ensures Framed(s, Handle(s, r).state)
  {
    hide HandleNew, HandleReplace, HandleCancel, Framed;
    NewFramed(s, r);
    CancelFramed(s, r);
    ReplaceFramed(s, r);
  }

  /** A request changes only the desk, the sequences, the fault and its
      account's cache and client sequence. */
  lemma RequestFrame(s: State, r: Request)
    ensures var e := ApplyRequest(s, r).state;
      && e == s.(desk := e.desk, accounts := e.accounts, outputSeq := e.outputSeq, nextOrder := e.nextOrder,
                 nextTrade := e.nextTrade, nextPriority := e.nextPriority, fault := e.fault)
      && |e.accounts| == |s.accounts|
      && forall a :: 0 <= a < |s.accounts| ==>
           e.accounts[a].limits == s.accounts[a].limits && e.accounts[a].enabled == s.accounts[a].enabled
  {
    hide Handle, CacheLookup, RecordOutcome, TakeSeq, BaseReport;
    HandleFramed(s, r);
    var known := r.account in s.cfg.accountIds.index;
    var a := if known then s.cfg.accountIds.index[r.account] else 0;
    var h, c := Handle(s, r), Reject(s, r, DuplicateRequestConflict, []);
    TakeSeqFields(s);
    RecordFramed(h.state, a, r, h.report);
    RecordFramed(c.state, a, r, c.report);
  }

  lemma RecordFramed(s: State, a: nat, r: Request, report: Report)
    ensures var e := RecordOutcome(s, a, r, report);
      && e == s.(accounts := e.accounts) && |e.accounts| == |s.accounts|
      && forall b :: 0 <= b < |s.accounts| ==>
           e.accounts[b].limits == s.accounts[b].limits && e.accounts[b].enabled == s.accounts[b].enabled
  {
    hide CacheRecord;
  }

  lemma StepConfig(s: State, input: Input)
    ensures Step(s, input).state.cfg == s.cfg
  {
    hide ApplyRequest, ApplyMarket, ApplyControl;
    if Successor(s.engineSeq).Some? {
      var s1 := s.(engineSeq := s.engineSeq + 1, time := input.recvTimeNs);
      match input.event {
        case MarketInput(e) => MarketConfig(s1, e);
        case OrderInput(r) => RequestFrame(s1, r);
        case ControlInput(c) => ControlConfig(s1, c);
      }
    }
  }

  lemma MarketConfig(s: State, e: MarketEvent)
    ensures ApplyMarket(s, e).state.cfg == s.cfg
  {
    hide Market.Apply;
  }

  lemma ControlConfig(s: State, c: Command)
    ensures ApplyControl(s, c).state.cfg == s.cfg
  {
  }

  /** One input, whatever it is, keeps the invariant. */
  lemma StepFine(s: State, caps: seq<Cap>, input: Input)
    requires Fine(s, caps) && Within(s.cfg, input, caps)
    ensures Fine(Step(s, input).state, caps) && Step(s, input).state.cfg == s.cfg
  {
    hide Good, ApplyMarket, ApplyRequest, ApplyControl;
    StepConfig(s, input);
    if s.fault.None? && Successor(s.engineSeq).Some? {
      var s1 := s.(engineSeq := s.engineSeq + 1, time := input.recvTimeNs);
      ClockGood(s, s1, caps);
      match input.event {
        case MarketInput(e) => MarketFine(s1, caps, e);
        case OrderInput(r) => RequestFine(s1, caps, r);
        case ControlInput(c) => ControlFine(s1, caps, input);
      }
    }
  }

  lemma ClockGood(s: State, s1: State, caps: seq<Cap>)
    requires Good(s, caps) && s1 == s.(engineSeq := s1.engineSeq, time := s1.time)
    ensures Good(s1, caps)
  {
    hide Sound, BooksOk;
  }
}
