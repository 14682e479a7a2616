/** The trades of a run account for every position and every fill. */
module History {
  import opened Domain
  import opened PriceTime
  import opened Ledger
  import opened Accounts
  import opened Core
  import opened Safety
  import opened Outputs
  import Market

  // ---- sums over trades ---------------------------------------------------

  /** What a trade adds to an account's position in an instrument. */
  function Share(t: Trade, account: u32, instrument: u32): int {
    if t.instrument != instrument then 0
    else (if t.makerAccount == account then Signed(t.aggressor.Opposite(), t.quantity) else 0)
         + (if t.takerAccount == account then Signed(t.aggressor, t.quantity) else 0)
  }

  function Net(trades: seq<Trade>, account: u32, instrument: u32): int {
    if trades == [] then 0 else Share(trades[0], account, instrument) + Net(trades[1..], account, instrument)
  }

  predicate Names(t: Trade, id: u64) {
    t.makerOrderId == id || t.takerOrderId == id
  }

  /** Lots traded under an order id. */
  function Volume(trades: seq<Trade>, id: u64): int {
    if trades == [] then 0
    else (if Names(trades[0], id) then trades[0].quantity else 0) + Volume(trades[1..], id)
  }

  lemma {:induction false} NetConcat(a: seq<Trade>, b: seq<Trade>, account: u32, instrument: u32)
    ensures Net(a + b, account, instrument) == Net(a, account, instrument) + Net(b, account, instrument)
  {
    if a == [] {
      assert a + b == b;
    } else {
      assert (a + b)[1..] == a[1..] + b;
      NetConcat(a[1..], b, account, instrument);
    }
  }

  lemma {:induction false} VolumeConcat(a: seq<Trade>, b: seq<Trade>, id: u64)
    ensures Volume(a + b, id) == Volume(a, id) + Volume(b, id)
  {
    if a == [] {
      assert a + b == b;
    } else {
      assert (a + b)[1..] == a[1..] + b;
      VolumeConcat(a[1..], b, id);
    }
  }

  lemma {:induction false} VolumeNone(trades: seq<Trade>, id: u64)
    requires forall k :: 0 <= k < |trades| ==> !Names(trades[k], id)
    ensures Volume(trades, id) == 0
  {
    if trades != [] {
      VolumeNone(trades[1..], id);
    }
  }

  // ---- what one match adds ------------------------------------------------

  ghost predicate Moved(cfg: Config, d: Desk, d': Desk, trades: seq<Trade>, a: nat, i: nat)
    requires a < |cfg.accountIds.ids| && i < |cfg.instruments|
  {
    Pos(d', a, i).lots == Pos(d, a, i).lots + Net(trades, cfg.accountIds.ids[a], cfg.instruments[i].id)
  }

  ghost predicate FilledBy(b: Book, b': Book, trades: seq<Trade>, id: u64) {
    Lookup(b', id).Some? ==>
      Lookup(b, id).Some? && Lookup(b', id).value.filled == Lookup(b, id).value.filled + Volume(trades, id)
  }

  /** The trade is between the taker and an order live at the time. */
  ghost predicate Between(cfg: Config, d: Desk, x: Taker, t: Trade) {
    && t.takerOrderId == x.id && t.takerAccount == x.request.account
    && t.makerOrderId in d.live && d.live[t.makerOrderId].instrument == x.instrument
    && t.makerAccount in cfg.accountIds.index
    && x.id !in d.live
  }

  /** From desk d to desk d', with book b turning into b', these trades happened. */
  ghost predicate Happened(cfg: Config, d: Desk, d': Desk, x: Taker, b: Book, b': Book, trades: seq<Trade>, lots: int) {
    && (forall a, i :: 0 <= a < |cfg.accountIds.ids| && 0 <= i < |cfg.instruments| ==> Moved(cfg, d, d', trades, a, i))
    && (forall id: u64 :: FilledBy(b, b', trades, id))
    && Volume(trades, x.id) == lots
    && (forall k :: 0 <= k < |trades| ==> Between(cfg, d, x, trades[k]))
    && (forall id :: id in d'.live ==> id in d.live && d'.live[id] == d.live[id])
  }

  lemma HappenedThen(cfg: Config, d: Desk, d1: Desk, d2: Desk, x: Taker, b: Book, b1: Book, b2: Book,
                     first: seq<Trade>, rest: seq<Trade>, lots: int, more: int)
    requires Happened(cfg, d, d1, x, b, b1, first, lots) && Happened(cfg, d1, d2, x, b1, b2, rest, more)
    requires first != []
    ensures Happened(cfg, d, d2, x, b, b2, first + rest, lots + more)
  {
    hide Lookup;
    var trades := first + rest;
    forall a, i | 0 <= a < |cfg.accountIds.ids| && 0 <= i < |cfg.instruments| ensures Moved(cfg, d, d2, trades, a, i) {
      assert Moved(cfg, d, d1, first, a, i) && Moved(cfg, d1, d2, rest, a, i);
      NetConcat(first, rest, cfg.accountIds.ids[a], cfg.instruments[i].id);
    }
    forall id: u64 ensures FilledBy(b, b2, trades, id) {
      assert FilledBy(b, b1, first, id) && FilledBy(b1, b2, rest, id);
      VolumeConcat(first, rest, id);
    }
    VolumeConcat(first, rest, x.id);
    assert Between(cfg, d, x, first[0]);
    forall k | 0 <= k < |trades| ensures Between(cfg, d, x, trades[k]) {
      if k < |first| {
        assert Between(cfg, d, x, first[k]);
      } else {
        assert Between(cfg, d1, x, rest[k - |first|]);
      }
    }
  }

  lemma NothingHappened(cfg: Config, d: Desk, x: Taker, b: Book)
    ensures Happened(cfg, d, d, x, b, b, [], 0)
  {
    hide Lookup;
    forall a, i | 0 <= a < |cfg.accountIds.ids| && 0 <= i < |cfg.instruments| ensures Moved(cfg, d, d, [], a, i) {
    }
    forall id: u64 ensures FilledBy(b, b, [], id) {
    }
  }

  lemma TradeLots(r: Roster, d: Desk, caps: seq<Cap>, pend: Pending, traded: u64)
    requires Sound(r, d, caps, pend) && pend.account < |r.ids| && pend.instrument < |d.books|
    requires var q := BookAt(d, pend.instrument).Of(pend.side.Opposite());
      q != [] && 0 < traded <= q[0].Remaining() && traded <= pend.lots
    ensures var o := BookAt(d, pend.instrument).Of(pend.side.Opposite())[0];
      && o.owner.account in r.index && o.id in d.live && d.live[o.id].instrument == pend.instrument
      && var maker := r.index[o.owner.account];
      var e := SettleFill(d, maker, pend.account, pend.instrument, pend.side, FillOf(o, traded)).desk;
      forall b: nat, j: nat :: Pos(e, b, j).lots == Pos(d, b, j).lots
        + (if b == maker && j == pend.instrument then Signed(pend.side.Opposite(), traded) else 0)
        + (if b == pend.account && j == pend.instrument then Signed(pend.side, traded) else 0)
  {
    hide Roomy, Reserved, Keyed, Lookup, Unique, Ordered, Value, SettleFill;
    var i, ms := pend.instrument, pend.side.Opposite();
    assert Orderly(BookAt(d, i));
    LookupAt(BookAt(d, i), ms, 0);
    var o := BookAt(d, i).Of(ms)[0];
    Registered(r, d, i, o.id);
    TradedPositions(r, d, caps, pend, r.index[o.owner.account], traded);
  }

  lemma OneHappened(s: State, s1: State, x: Taker, caps: seq<Cap>, limit: i64, q: seq<Order>,
                    quantity: u64, cumulative: u64, traded: u64)
    requires x.account < |s.cfg.accountIds.ids| && x.instrument < |s.desk.books| == |s.cfg.instruments|
    requires x.request.account == s.cfg.accountIds.ids[x.account] && x.id !in s.desk.live
    requires q != [] && 0 < traded <= q[0].Remaining() && traded <= quantity && cumulative + quantity == x.quantity
    requires s.nextTrade < U64_MAX
    requires Sound(s.cfg.accountIds, Seen(s.desk, x.instrument, x.side.Opposite(), q), caps,
                   PendingOf(x, limit, quantity))
    requires s1 == SettleOne(s.(nextTrade := s.nextTrade + 1), x, FillOf(q[0], traded), cumulative + traded).state
    requires s1.fault.None?
    ensures var i, ms, b := x.instrument, x.side.Opposite(), BookAt(s.desk, x.instrument);
      var out := SettleOne(s.(nextTrade := s.nextTrade + 1), x, FillOf(q[0], traded), cumulative + traded).out;
      && TradesOf(out) != []
      && Happened(s.cfg, s.desk, s1.desk, x, b.With(ms, q), b.With(ms, FillHead(q, traded)), TradesOf(out), traded)
      && BookAt(s1.desk, i) == b && x.id !in s1.desk.live
  {
    hide Sound, SettleOne, SettleFill, FillHead, Lookup, Orderly, Net, Volume, TradesOf;
    var r, i, ms := s.cfg.accountIds, x.instrument, x.side.Opposite();
    var pend := PendingOf(x, limit, quantity);
    var s0 := s.(nextTrade := s.nextTrade + 1);
    var f := FillOf(q[0], traded);
    var v := Seen(s.desk, i, ms, q);
    var b := BookAt(s.desk, i);
    SeenSize(s.desk, i, ms, q);
    SeenTraded(s.desk, 0, pend, q, traded);
    TradeKeeps(r, v, caps, pend, traded);
    TradeLots(r, v, caps, pend, traded);
    var maker := r.index[q[0].owner.account];
    SeenTraded(s.desk, maker, pend, q, traded);
    SettleOneEffect(s0, x, f, cumulative + traded);
    SettleOneTrade(s0, x, f, cumulative + traded);
    var trades := TradesOf(SettleOne(s0, x, f, cumulative + traded).out);
    var t := trades[0];
    assert trades == [t];
    SettledRegistries(s.desk, maker, x.account, i, x.side, f);
    SettleAround(s.desk, maker, x.account, i, x.side, f, b.With(ms, q));
    OneMoved(s.cfg, v, s.desk, s1.desk, maker, pend, traded, t);
    assert Orderly(BookAt(v, i)) by { SoundOrderly(r, v, caps, pend, i); }
    assert BookAt(v, i) == b.With(ms, q);
    NotListed(r, v, caps, pend, i, x.id);
    OneFilled(b.With(ms, q), ms, traded, t);
    VolumeOne(t, x.id);
  }

  lemma OneMoved(cfg: Config, v: Desk, d: Desk, d': Desk, maker: nat, pend: Pending, traded: u64, t: Trade)
    requires maker < |cfg.accountIds.ids| && pend.account < |cfg.accountIds.ids| && pend.instrument < |cfg.instruments|
    requires v.positions == d.positions
    requires t.makerAccount == cfg.accountIds.ids[maker] && t.takerAccount == cfg.accountIds.ids[pend.account]
    requires t.instrument == cfg.instruments[pend.instrument].id && t.aggressor == pend.side && t.quantity == traded
    requires forall b: nat, j: nat ::
      Pos(d', b, j).lots == Pos(v, b, j).lots
      + (if b == maker && j == pend.instrument then Signed(pend.side.Opposite(), traded) else 0)
      + (if b == pend.account && j == pend.instrument then Signed(pend.side, traded) else 0)
    ensures forall a, j :: 0 <= a < |cfg.accountIds.ids| && 0 <= j < |cfg.instruments| ==> Moved(cfg, d, d', [t], a, j)
  {
    hide Net;
    forall a, j | 0 <= a < |cfg.accountIds.ids| && 0 <= j < |cfg.instruments| ensures Moved(cfg, d, d', [t], a, j) {
      NetOne(t, cfg.accountIds.ids[a], cfg.instruments[j].id);
      assert Pos(v, a, j) == Pos(d, a, j);
      SharedIndex(cfg, a, maker, j, pend.instrument);
      SharedIndex(cfg, a, pend.account, j, pend.instrument);
    }
  }

  lemma OneFilled(b: Book, side: Side, traded: u64, t: Trade)
    requires Orderly(b) && b.Of(side) != [] && 0 < traded <= b.Of(side)[0].Remaining()
    requires t.makerOrderId == b.Of(side)[0].id && t.quantity == traded && Lookup(b, t.takerOrderId).None?
    ensures forall id: u64 :: FilledBy(b, b.With(side, FillHead(b.Of(side), traded)), [t], id)
  {
    hide Orderly, Lookup, FillHead, Volume;
    forall id: u64 ensures FilledBy(b, b.With(side, FillHead(b.Of(side), traded)), [t], id) {
      VolumeOne(t, id);
      FillLooks(b, side, traded, id);
    }
  }

  lemma NetOne(t: Trade, account: u32, instrument: u32)
    ensures Net([t], account, instrument) == Share(t, account, instrument)
  {
    assert [t][1..] == [];
  }

  lemma VolumeOne(t: Trade, id: u64)
    ensures Volume([t], id) == if Names(t, id) then t.quantity else 0
  {
    assert [t][1..] == [];
  }

  /** Distinct indices carry distinct ids. */
  lemma SharedIndex(cfg: Config, a: nat, b: nat, i: nat, j: nat)
    requires a < |cfg.accountIds.ids| && b < |cfg.accountIds.ids| && i < |cfg.instruments| && j < |cfg.instruments|
    ensures cfg.accountIds.ids[a] == cfg.accountIds.ids[b] <==> a == b
    ensures cfg.instruments[i].id == cfg.instruments[j].id <==> i == j
  {
    assert cfg.accountIds.index[cfg.accountIds.ids[a]] == a && cfg.accountIds.index[cfg.accountIds.ids[b]] == b;
    assert cfg.instrumentIds.index[cfg.instrumentIds.ids[i]] == i && cfg.instrumentIds.index[cfg.instrumentIds.ids[j]] == j;
  }

  lemma FillLooks(b: Book, side: Side, traded: u64, id: u64)
    requires Orderly(b) && b.Of(side) != [] && 0 < traded <= b.Of(side)[0].Remaining()
    ensures var c, o := b.With(side, FillHead(b.Of(side), traded)), b.Of(side)[0];
      Lookup(c, id).Some? ==>
        Lookup(b, id).Some? && Lookup(c, id).value.filled == Lookup(b, id).value.filled + if id == o.id then traded else 0
  {
    hide Lookup, Orderly;
    LookupFill(b, side, traded, id);
    LookupAt(b, side, 0);
  }

  lemma NotListed(r: Roster, d: Desk, caps: seq<Cap>, pend: Pending, i: nat, id: u64)
    requires Sound(r, d, caps, pend) && id !in d.live
    ensures Lookup(BookAt(d, i), id).None?
  {
    hide Keyed, Reserved, Roomy, Orderlies;
    Unlisted(d, i, id, r);
  }

  lemma {:induction false} SettleHappened(s: State, x: Taker, caps: seq<Cap>, limit: i64, q: seq<Order>,
                                          quantity: u64, cumulative: u64)
    requires x.account < |s.cfg.accountIds.ids| && x.instrument < |s.desk.books| == |s.cfg.instruments|
    requires x.request.account == s.cfg.accountIds.ids[x.account] && x.id !in s.desk.live
    requires cumulative + quantity == x.quantity
    requires Resting(x.side.Opposite(), q)
    requires Sound(s.cfg.accountIds, Seen(s.desk, x.instrument, x.side.Opposite(), q), caps,
                   PendingOf(x, limit, quantity))
    requires SettleAll(s, x, Match(x.side.Opposite(), q, limit, quantity).fills, cumulative).state.fault.None?
    ensures var ms, b := x.side.Opposite(), BookAt(s.desk, x.instrument);
      var m := Match(ms, q, limit, quantity);
      var e := SettleAll(s, x, m.fills, cumulative);
      Happened(s.cfg, s.desk, e.state.desk, x, b.With(ms, q), b.With(ms, m.rest), TradesOf(e.out), Lots(m.fills))
    decreases quantity
  {
    hide Sound, Match, SettleOne, FillHead, Resting, Happened, Advanced, Seen, Lots, SettleAll, TradesOf;
    var ms, b := x.side.Opposite(), BookAt(s.desk, x.instrument);
    var m := Match(ms, q, limit, quantity);
    if quantity == 0 || q == [] || !Eligible(ms, q[0].price, limit) {
      MatchNothing(ms, q, limit, quantity);
      SettleNone(s, x, cumulative);
      NothingHappened(s.cfg, s.desk, x, b.With(ms, q));
    } else {
      FirstFill(ms, q, limit, quantity);
      var traded := Min(quantity, q[0].Remaining());
      SettleSome(s, x, m.fills, cumulative);
      var s1 := SettleFirst(s, x, caps, limit, q, quantity, cumulative);
      var one := SettleOne(s.(nextTrade := s.nextTrade + 1), x, m.fills[0], cumulative + traded);
      AdvancedSame(s, s1);
      var m1 := Match(ms, FillHead(q, traded), limit, quantity - traded);
      var rest := SettleAll(s1, x, m1.fills, cumulative + traded);
      SettleAllEvents(s1, x, m1.fills, cumulative + traded);
      OneHappened(s, s1, x, caps, limit, q, quantity, cumulative, traded);
      SettleHappened(s1, x, caps, limit, FillHead(q, traded), quantity - traded, cumulative + traded);
      TradesConcat(one.out, rest.out);
      HappenedThen(s.cfg, s.desk, s1.desk, rest.state.desk, x, b.With(ms, q), b.With(ms, FillHead(q, traded)),
                   b.With(ms, m.rest), TradesOf(one.out), TradesOf(rest.out), traded, Lots(m1.fills));
    }
  }

  lemma SettleNone(s: State, x: Taker, cumulative: u64)
    ensures SettleAll(s, x, [], cumulative) == Emitted(s, []) && TradesOf([]) == [] && Lots([]) == 0
  {
  }

  lemma SettleSome(s: State, x: Taker, fills: seq<Fill>, cumulative: u64)
    requires fills != [] && SettleAll(s, x, fills, cumulative).state.fault.None?
    ensures cumulative + fills[0].quantity <= U64_MAX && Successor(s.nextTrade).Some?
    ensures var one := SettleOne(s.(nextTrade := s.nextTrade + 1), x, fills[0], cumulative + fills[0].quantity);
      var rest := SettleAll(one.state, x, fills[1..], cumulative + fills[0].quantity);
      SettleAll(s, x, fills, cumulative) == Emitted(rest.state, one.out + rest.out)
  {
    hide SettleOne;
  }

  /** Executing an admitted order moves exactly the positions its trades say. */
  lemma ExecuteHappened(s: State, x: Taker, caps: seq<Cap>, limit: i64)
    requires x.account < |s.cfg.accountIds.ids| && x.instrument < |s.desk.books| == |s.cfg.instruments|
    requires x.request.account == s.cfg.accountIds.ids[x.account] && x.id !in s.desk.live
    requires Sound(s.cfg.accountIds, s.desk, caps, PendingOf(x, limit, x.quantity))
    requires Execute(s, x, limit).state.fault.None?
    ensures var e := Execute(s, x, limit);
      && Happened(s.cfg, s.desk, e.state.desk, x, BookAt(s.desk, x.instrument), BookAt(e.state.desk, x.instrument),
                  TradesOf(e.out), Filling(s, x, limit))
      && forall j: nat :: j != x.instrument ==> BookAt(e.state.desk, j) == BookAt(s.desk, j)
  {
    hide Sound, Match, SettleAll, Keyed, Reserved, Roomy, Shaped, Queue, Disjoint, Lots, Seen, Resting, Happened, TradesOf;
    var i, ms := x.instrument, x.side.Opposite();
    var b := BookAt(s.desk, i);
    var q := b.Of(ms);
    assert Orderly(b) by { SoundOrderly(s.cfg.accountIds, s.desk, caps, PendingOf(x, limit, x.quantity), i); }
    QueueRests(b);
    var m := Match(ms, q, limit, x.quantity);
    var s0 := s.(desk := PutBook(s.desk, i, b.With(ms, m.rest)));
    SeenWhole(s.desk, i, ms, m.rest);
    SettleKeeps(s0, x, caps, limit, q, x.quantity, 0);
    SettleHappened(s0, x, caps, limit, q, x.quantity, 0);
    var e := SettleAll(s0, x, m.fills, 0);
    assert BookAt(s0.desk, i).With(ms, q) == b && BookAt(s0.desk, i).With(ms, m.rest) == b.With(ms, m.rest);
    HappenedFrom(s.cfg, s.desk, s0.desk, e.state.desk, x, b, b.With(ms, m.rest), TradesOf(e.out), Lots(m.fills));
  }

  lemma HappenedFrom(cfg: Config, d: Desk, d0: Desk, d': Desk, x: Taker, b: Book, b': Book, trades: seq<Trade>, lots: int)
    requires Happened(cfg, d0, d', x, b, b', trades, lots) && d0 == d.(books := d0.books)
    ensures Happened(cfg, d, d', x, b, b', trades, lots)
  {
    hide Lookup;
    forall a, i | 0 <= a < |cfg.accountIds.ids| && 0 <= i < |cfg.instruments| ensures Moved(cfg, d, d', trades, a, i) {
      assert Moved(cfg, d0, d', trades, a, i);
      assert Pos(d0, a, i) == Pos(d, a, i);
    }
    forall k | 0 <= k < |trades| ensures Between(cfg, d, x, trades[k]) {
      assert Between(cfg, d0, x, trades[k]);
    }
  }

  // ---- the account of a run -----------------------------------------------

  ghost predicate LotsOk(cfg: Config, d: Desk, trades: seq<Trade>, a: nat, i: nat)
    requires a < |cfg.accountIds.ids| && i < |cfg.instruments|
  {
    Pos(d, a, i).lots == Net(trades, cfg.accountIds.ids[a], cfg.instruments[i].id)
  }

  ghost predicate FillOk(d: Desk, trades: seq<Trade>, i: nat, id: u64) {
    Lookup(BookAt(d, i), id).Some? ==> Lookup(BookAt(d, i), id).value.filled == Volume(trades, id)
  }

  /** Positions are the signed sums of the trades, and every resting order has
      filled what the trades naming it add up to. */
  ghost predicate Accounted(cfg: Config, d: Desk, trades: seq<Trade>) {
    && (forall a, i :: 0 <= a < |cfg.accountIds.ids| && 0 <= i < |cfg.instruments| ==> LotsOk(cfg, d, trades, a, i))
    && (forall i: nat, id: u64 :: FillOk(d, trades, i, id))
  }

  ghost predicate Known(cfg: Config, trades: seq<Trade>, maxId: u64) {
    forall k :: 0 <= k < |trades| ==>
      && trades[k].makerOrderId <= maxId && trades[k].takerOrderId <= maxId
      && trades[k].makerAccount in cfg.accountIds.index && trades[k].takerAccount in cfg.accountIds.index
  }

  lemma AccountedChange(cfg: Config, d: Desk, d': Desk, trades: seq<Trade>, i: nat, id: u64, o: Option<Order>)
    requires Accounted(cfg, d, trades) && OneChange(d, d', i, id, o)
    requires forall a: nat, j: nat :: Pos(d', a, j).lots == Pos(d, a, j).lots
    requires o.Some? ==> o.value.filled == Volume(trades, id)
    ensures Accounted(cfg, d', trades)
  {
    hide Lookup, OneChange, Net, Volume, BookAt;
    forall a, j | 0 <= a < |cfg.accountIds.ids| && 0 <= j < |cfg.instruments| ensures LotsOk(cfg, d', trades, a, j) {
      assert LotsOk(cfg, d, trades, a, j);
      assert Pos(d', a, j).lots == Pos(d, a, j).lots;
    }
    forall j: nat, x: u64 ensures FillOk(d', trades, j, x) {
      assert FillOk(d, trades, j, x);
      ChangeAt(d, d', i, id, o, j, x);
    }
  }

  lemma AccountedTrades(cfg: Config, d: Desk, d': Desk, x: Taker, trades: seq<Trade>, more: seq<Trade>, lots: int)
    requires Accounted(cfg, d, trades)
    requires Happened(cfg, d, d', x, BookAt(d, x.instrument), BookAt(d', x.instrument), more, lots)
    requires forall j: nat :: j != x.instrument ==> BookAt(d', j) == BookAt(d, j)
    requires Keyed(cfg.accountIds, d)
    ensures Accounted(cfg, d', trades + more)
  {
    hide Lookup, BookAt, LiveOk, ClientOk;
    forall a, j | 0 <= a < |cfg.accountIds.ids| && 0 <= j < |cfg.instruments| ensures LotsOk(cfg, d', trades + more, a, j) {
      assert LotsOk(cfg, d, trades, a, j) && Moved(cfg, d, d', more, a, j);
      NetConcat(trades, more, cfg.accountIds.ids[a], cfg.instruments[j].id);
    }
    forall j: nat, id: u64 ensures FillOk(d', trades + more, j, id) {
      assert FillOk(d, trades, j, id);
      VolumeConcat(trades, more, id);
      if j == x.instrument {
        assert FilledBy(BookAt(d, j), BookAt(d', j), more, id);
      } else if Lookup(BookAt(d, j), id).Some? {
        assert Listed(d, j, id);
        forall k | 0 <= k < |more| ensures !Names(more[k], id) {
          assert Between(cfg, d, x, more[k]);
        }
        VolumeNone(more, id);
      }
    }
  }

  /** Not yet handed out, or live: an id that may still trade. */
  ghost predicate Current(s: State, id: u64) {
    id in s.desk.live || s.nextOrder < id
  }

  /** What a request adds to the account of the run. */
  ghost predicate Chronicle(s: State, e: State, trades: seq<Trade>, more: seq<Trade>) {
    && Accounted(s.cfg, e.desk, trades + more)
    && Known(s.cfg, more, e.nextOrder)
    && s.nextOrder <= e.nextOrder
    && (forall k :: 0 <= k < |more| ==> Current(s, more[k].makerOrderId) && Current(s, more[k].takerOrderId))
    && (forall id :: id in e.desk.live ==> Current(s, id))
  }

  lemma ExecuteAccounted(s: State, x: Taker, caps: seq<Cap>, limit: i64, trades: seq<Trade>)
    requires x.account < |s.cfg.accountIds.ids| && x.instrument < |s.desk.books| == |s.cfg.instruments|
    requires x.request.account == s.cfg.accountIds.ids[x.account] && x.id !in s.desk.live
    requires Sound(s.cfg.accountIds, s.desk, caps, PendingOf(x, limit, x.quantity))
    requires BooksOk(s.desk, s.nextOrder, s.nextPriority) && x.id <= s.nextOrder
    requires Execute(s, x, limit).state.fault.None?
    requires Accounted(s.cfg, s.desk, trades)
    ensures var e := Execute(s, x, limit);
      var more := TradesOf(e.out);
      && Accounted(s.cfg, e.state.desk, trades + more)
      && Known(s.cfg, more, s.nextOrder)
      && Volume(more, x.id) == Filling(s, x, limit)
      && (forall k :: 0 <= k < |more| ==> more[k].makerOrderId in s.desk.live && more[k].takerOrderId == x.id)
      && (forall id :: id in e.state.desk.live ==> id in s.desk.live)
  {
    hide Orderlies, Keyed, Reserved, Roomy, BooksOk, Execute, Filling, Accounted, TradesOf, Net, Volume, Shaped;
    ExecuteHappened(s, x, caps, limit);
    var e := Execute(s, x, limit);
    var more := TradesOf(e.out);
    AccountedTrades(s.cfg, s.desk, e.state.desk, x, trades, more, Filling(s, x, limit));
    forall k | 0 <= k < |more|
      ensures more[k].makerOrderId in s.desk.live && more[k].takerOrderId == x.id && more[k].makerOrderId <= s.nextOrder
      ensures more[k].makerAccount in s.cfg.accountIds.index && more[k].takerAccount in s.cfg.accountIds.index
    {
      assert Between(s.cfg, s.desk, x, more[k]);
      LiveBounded(s.cfg.accountIds, s.desk, more[k].makerOrderId, s.nextOrder, s.nextPriority);
    }
  }

  lemma RestAccounted(s: State, x: Taker, caps: seq<Cap>, pend: Pending, client: u64, price: i64, total: u64, filled: u64,
                      trades: seq<Trade>)
    requires Sound(s.cfg.accountIds, s.desk, caps, pend) && BooksOk(s.desk, s.nextOrder, s.nextPriority)
    requires x.id !in s.desk.live && x.instrument < |s.desk.books|
    requires filled < total && filled == Volume(trades, x.id)
    requires Accounted(s.cfg, s.desk, trades)
    ensures var e := RestOrder(s, x, client, price, total, filled);
      && Accounted(s.cfg, e.desk, trades)
      && (forall id :: id in e.desk.live ==> id in s.desk.live || id == x.id)
  {
    hide Reserved, Roomy, BooksOk, Accounted, Volume, Shaped, Keyed, Orderly, Rest, Admits, Fresh, OneChange, BookAt, Pos, Lookup, ReserveOrder;
    if Successor(s.nextPriority).Some? {
      var n := s.nextPriority + 1;
      var o := Order(x.id, Owner(x.request.account, client), x.side, price, total, filled, n);
      var i := x.instrument;
      FreshAgain(s.cfg.accountIds, s.desk, i, x.side, x.id, s.nextOrder, s.nextPriority, n);
      Unlisted(s.desk, i, x.id, s.cfg.accountIds);
      assert Orderly(BookAt(s.desk, i));
      RestChange(s.desk, x.account, i, o);
      RestLots(s.desk, x.account, i, o);
      RestedEffects(s.desk, x.account, i, o);
      AccountedChange(s.cfg, s.desk, Rest(s.desk, x.account, i, o).desk, trades, i, x.id, Some(o));
    }
  }

  lemma RestLots(d: Desk, a: nat, i: nat, o: Order)
    requires o.filled <= o.total && i < |d.books|
    ensures forall b: nat, j: nat :: Pos(Rest(d, a, i, o).desk, b, j).lots == Pos(d, b, j).lots
  {
    hide ReserveOrder, Rest;
    RestedEffects(d, a, i, o);
    forall b: nat, j: nat ensures Pos(Rest(d, a, i, o).desk, b, j).lots == Pos(d, b, j).lots {
      ReserveLots(d, a, i, o.side, o.Remaining(), o.price, b, j);
    }
  }

  lemma WithdrawLots(d: Desk, a: nat, i: nat, o: Order)
    requires o.filled <= o.total && i < |d.books|
    ensures forall b: nat, j: nat :: Pos(Withdraw(d, a, i, o).desk, b, j).lots == Pos(d, b, j).lots
  {
    hide ReleaseOrder, Withdraw;
    WithdrawnEffects(d, a, i, o);
    forall b: nat, j: nat ensures Pos(Withdraw(d, a, i, o).desk, b, j).lots == Pos(d, b, j).lots {
      ReserveLots(d, a, i, o.side, o.Remaining(), o.price, b, j);
    }
  }

  lemma WithdrawAccounted(s: State, a: nat, i: nat, o: Order, trades: seq<Trade>)
    requires i < |s.desk.books| && Orderly(BookAt(s.desk, i)) && Lookup(BookAt(s.desk, i), o.id) == Some(o)
    requires Accounted(s.cfg, s.desk, trades)
    ensures o.filled < o.total && o.filled == Volume(trades, o.id)
    ensures Accounted(s.cfg, Withdraw(s.desk, a, i, o).desk, trades)
    ensures Withdraw(s.desk, a, i, o).desk.live == s.desk.live - {o.id}
  {
    hide Lookup, Orderly, Withdraw, ReleaseOrder, Volume, Net;
    assert FillOk(s.desk, trades, i, o.id);
    WithdrawChange(s.desk, a, i, o);
    WithdrawLots(s.desk, a, i, o);
    WithdrawnEffects(s.desk, a, i, o);
    AccountedChange(s.cfg, s.desk, Withdraw(s.desk, a, i, o).desk, trades, i, o.id, None);
  }

  lemma ShrinkAccounted(s: State, a: nat, i: nat, o: Order, total: u64, trades: seq<Trade>)
    requires i < |s.desk.books| && Orderly(BookAt(s.desk, i)) && Lookup(BookAt(s.desk, i), o.id) == Some(o)
    requires Accounted(s.cfg, s.desk, trades) && o.filled < total < o.total
    ensures Accounted(s.cfg, Shrink(s.desk, a, i, o, total).desk, trades)
    ensures Shrink(s.desk, a, i, o, total).desk.live == s.desk.live
  {
    hide Lookup, Orderly, ReleaseOrder, Volume, Net, Reduce;
    assert FillOk(s.desk, trades, i, o.id);
    ShrinkChange(s.desk, a, i, o, total);
    ReleaseFrame(s.desk, a, i, o.side, o.total - total, o.price);
    var e := Shrink(s.desk, a, i, o, total).desk;
    forall b: nat, j: nat ensures Pos(e, b, j).lots == Pos(s.desk, b, j).lots {
      ReserveLots(s.desk, a, i, o.side, o.total - total, o.price, b, j);
    }
    AccountedChange(s.cfg, s.desk, e, trades, i, o.id, Some(o.(total := total)));
  }

  /** A request without trades. */
  lemma QuietChronicle(s: State, e: State, trades: seq<Trade>)
    requires Accounted(s.cfg, e.desk, trades) && e.nextOrder >= s.nextOrder
    requires forall id :: id in e.desk.live ==> id in s.desk.live
    ensures Chronicle(s, e, trades, [])
  {
    hide Accounted;
    assert trades + [] == trades;
  }

  lemma NewChronicle(s: State, caps: seq<Cap>, r: Request, trades: seq<Trade>)
    requires Good(s, caps) && s.fault.None? && Accounted(s.cfg, s.desk, trades) && Known(s.cfg, trades, s.nextOrder)
    requires HandleNew(s, r).state.fault.None?
    ensures Chronicle(s, HandleNew(s, r).state, trades, TradesOf(HandleNew(s, r).out))
  {
    hide Execute, Filling, CheckNew, RestOrder, Executed, Sound, BooksOk, CapsCover, Accounted, Known, Volume, Answer, BaseReport;
    if CheckNew(s, r).Refuse? || Successor(s.nextOrder).None? {
      QuietChronicle(s, HandleNew(s, r).state, trades);
    } else {
      var c := CheckNew(s, r).value;
      var id := s.nextOrder + 1;
      var x := Taker(c.account, c.instrument, r, id, r.side, r.quantity);
      var s0 := s.(nextOrder := id);
      NewPends(s, caps, r);
      ExecuteKeeps(s0, x, caps, c.limit);
      var e, filled := Execute(s0, x, c.limit), Filling(s, x, c.limit);
      FillingSame(s, s0, x, c.limit);
      ExecutedLeft(s0, e.state, x, caps, c.limit, r.quantity - filled);
      NewCloses(e, x, r, filled);
      ExecuteAccounted(s0, x, caps, c.limit, trades);
      var more := TradesOf(e.out);
      NewVolume(s, trades, id);
      VolumeConcat(trades, more, id);
      ExecutedSound(s0, e.state, x, caps, c.limit, r.quantity - filled);
      if filled < r.quantity && r.orderType.LimitOrder? {
        RestAccounted(e.state, x, caps, PendingOf(x, c.limit, r.quantity - filled), r.clientOrderId, r.price, r.quantity, filled,
                      trades + more);
        RestOrderFramed(e.state, x, r.clientOrderId, r.price, r.quantity, filled);
        RestOrderIds(e.state, x, r.clientOrderId, r.price, r.quantity, filled);
      }
    }
  }

  /** How a new order's execution is closed. */
  lemma NewCloses(e: Emitted, x: Taker, r: Request, filled: u64)
    requires filled <= r.quantity
    ensures var h := Answer(e.state, e.out, r, x.id, Filled, FullyFilled, filled, 0);
      h.out == e.out && h.state == e.state.(outputSeq := h.state.outputSeq, fault := h.state.fault)
      && (h.state.fault.None? ==> e.state.fault.None?)
    ensures var h := Answer(e.state, e.out, r, x.id, Cancelled, CancelledState, filled, 0);
      h.out == e.out && h.state == e.state.(outputSeq := h.state.outputSeq, fault := h.state.fault)
      && (h.state.fault.None? ==> e.state.fault.None?)
    ensures var rested := RestOrder(e.state, x, r.clientOrderId, r.price, r.quantity, filled);
      var h := Answer(rested, e.out, r, x.id, Accepted, StateOf(filled), filled, r.quantity - filled);
      h.out == e.out && h.state == rested.(outputSeq := h.state.outputSeq, fault := h.state.fault)
      && (h.state.fault.None? ==> rested.fault.None? && e.state.fault.None?)
  {
    hide Answer, RestOrder;
    var rested := RestOrder(e.state, x, r.clientOrderId, r.price, r.quantity, filled);
    AnswerFields(e.state, e.out, r, x.id, Filled, FullyFilled, filled, 0);
    AnswerFields(e.state, e.out, r, x.id, Cancelled, CancelledState, filled, 0);
    AnswerFields(rested, e.out, r, x.id, Accepted, StateOf(filled), filled, r.quantity - filled);
    RestOrderFault(e.state, x, r.clientOrderId, r.price, r.quantity, filled);
  }

  lemma RestOrderFault(s: State, x: Taker, client: u64, price: i64, total: u64, filled: u64)
    ensures RestOrder(s, x, client, price, total, filled).fault.None? ==> s.fault.None?
  {
    hide Rest, Admits;
  }

  lemma RestOrderIds(s: State, x: Taker, client: u64, price: i64, total: u64, filled: u64)
    ensures RestOrder(s, x, client, price, total, filled).nextOrder == s.nextOrder
  {
    hide Rest, Admits;
  }

  lemma NewVolume(s: State, trades: seq<Trade>, id: u64)
    requires Known(s.cfg, trades, s.nextOrder) && s.nextOrder < id
    ensures Volume(trades, id) == 0
  {
    VolumeNone(trades, id);
  }

  lemma ExecutedSound(s: State, e: State, x: Taker, caps: seq<Cap>, limit: int, left: int)
    requires Executed(s, e, x, caps, limit, left) && e.fault.None?
    ensures Sound(s.cfg.accountIds, e.desk, caps, PendingOf(x, limit, left))
    ensures BooksOk(e.desk, e.nextOrder, e.nextPriority) && |e.desk.books| == |s.desk.books|
    ensures e.nextOrder == s.nextOrder && e.cfg == s.cfg
    ensures forall id :: id in e.desk.live ==> id in s.desk.live
  {
    hide Sound, BooksOk, Roomy, Shaped, Unreachable;
  }

  lemma CancelChronicle(s: State, caps: seq<Cap>, r: Request, trades: seq<Trade>)
    requires Good(s, caps) && s.fault.None? && Accounted(s.cfg, s.desk, trades)
    ensures Chronicle(s, HandleCancel(s, r).state, trades, TradesOf(HandleCancel(s, r).out))
  {
    hide Good, Withdraw, Lookup, Keyed, Accounted, Chronicle;
    var key := Owner(r.account, r.target);
    if r.account in s.cfg.accountIds.index && key in s.desk.clients {
      GoodKeyed(s, caps);
      ClientOrder(s.cfg.accountIds, s.desk, key);
      var id := s.desk.clients[key];
      var LiveOrder(a, i) := s.desk.live[id];
      var o := Lookup(BookAt(s.desk, i), id).value;
      WithdrawAccounted(s, a, i, o, trades);
      QuietChronicle(s, HandleCancel(s, r).state, trades);
    } else {
      QuietChronicle(s, HandleCancel(s, r).state, trades);
    }
  }

  lemma InPlaceChronicle(s: State, caps: seq<Cap>, r: Request, c: Replacement, trades: seq<Trade>)
    requires Good(s, caps) && s.fault.None? && c.instrument < |s.desk.books| && Accounted(s.cfg, s.desk, trades)
    requires var o := c.existing;
      && o.owner.account in s.cfg.accountIds.index && c.account == s.cfg.accountIds.index[o.owner.account]
      && Lookup(BookAt(s.desk, c.instrument), o.id) == Some(o)
      && o.filled <= r.quantity < o.total
    ensures Chronicle(s, ReplaceInPlace(s, r, c).state, trades, TradesOf(ReplaceInPlace(s, r, c).out))
  {
    hide Good, Withdraw, Lookup, Shrink, Remove, Accounted, Chronicle, Keyed, Orderly, Answer, BaseReport;
    var o, i := c.existing, c.instrument;
    GoodKeyed(s, caps);
    assert Orderly(BookAt(s.desk, i));
    var s1 := s.On(Shrink(s.desk, c.account, i, o, r.quantity));
    if r.quantity == o.filled {
      ShrinkAway(s.desk, c.account, i, o);
      WithdrawAccounted(s, c.account, i, o, trades);
      var gone := Forget(PutBook(s1.desk, i, Remove(BookAt(s1.desk, i), o.id)), o.id, o.owner);
      AnswerFields(s1.(desk := gone), [], r, o.id, Cancelled, CancelledState, o.filled, 0);
    } else {
      ShrinkAccounted(s, c.account, i, o, r.quantity, trades);
      AnswerFields(s1, [], r, o.id, Replaced, StateOf(o.filled), o.filled, r.quantity - o.filled);
    }
    QuietChronicle(s, ReplaceInPlace(s, r, c).state, trades);
  }

  lemma AnewChronicle(s: State, s1: State, caps: seq<Cap>, r: Request, c: Replacement, trades: seq<Trade>)
    requires Good(s1, caps) && s1.fault.None? && s1 == s.(desk := s1.desk)
    requires c.account < |s.cfg.accountIds.ids| && c.instrument < |s1.desk.books|
    requires Accounted(s.cfg, s1.desk, trades) && Known(s.cfg, trades, s.nextOrder)
    requires c.existing.id in s.desk.live && forall id :: id in s1.desk.live ==> id in s.desk.live
    requires var o := c.existing;
      && r.account == s.cfg.accountIds.ids[c.account] == o.owner.account
      && o.filled <= r.quantity && o.id <= s.nextOrder && o.filled == Volume(trades, o.id)
      && o.id !in s1.desk.live
      && (o.filled < r.quantity ==>
            var x := Taker(c.account, c.instrument, r, o.id, o.side, r.quantity - o.filled);
            Sound(s.cfg.accountIds, s1.desk, caps, PendingOf(x, r.price, x.quantity)))
    requires ReplaceAnew(s1, r, c).state.fault.None?
    ensures Chronicle(s, ReplaceAnew(s1, r, c).state, trades, TradesOf(ReplaceAnew(s1, r, c).out))
  {
    hide Execute, Filling, RestOrder, Executed, Sound, BooksOk, CapsCover, Accounted, Known, Volume, Answer, BaseReport;
    var o := c.existing;
    if r.quantity == o.filled {
      AnswerFields(s1, [], r, o.id, Cancelled, CancelledState, o.filled, 0);
      QuietChronicle(s, ReplaceAnew(s1, r, c).state, trades);
    } else {
      var x := Taker(c.account, c.instrument, r, o.id, o.side, r.quantity - o.filled);
      ExecuteKeeps(s1, x, caps, r.price);
      var e, left := Execute(s1, x, r.price), x.quantity - Filling(s1, x, r.price);
      var cumulative := o.filled + Filling(s1, x, r.price);
      ExecutedLeft(s1, e.state, x, caps, r.price, left);
      var rested := RestOrder(e.state, x, o.owner.client, r.price, r.quantity, cumulative);
      AnswerFields(e.state, e.out, r, o.id, Filled, FullyFilled, cumulative, 0);
      AnswerFields(rested, e.out, r, o.id, Replaced, StateOf(cumulative), cumulative, r.quantity - cumulative);
      RestOrderFault(e.state, x, o.owner.client, r.price, r.quantity, cumulative);
      ExecuteAccounted(s1, x, caps, r.price, trades);
      var more := TradesOf(e.out);
      VolumeConcat(trades, more, o.id);
      ExecutedSound(s1, e.state, x, caps, r.price, left);
      if left > 0 {
        RestAccounted(e.state, x, caps, PendingOf(x, r.price, left), o.owner.client, r.price, r.quantity, cumulative,
                      trades + more);
        RestOrderIds(e.state, x, o.owner.client, r.price, r.quantity, cumulative);
      }
    }
  }

  lemma ReplaceChronicle(s: State, caps: seq<Cap>, r: Request, trades: seq<Trade>)
    requires Good(s, caps) && s.fault.None? && Accounted(s.cfg, s.desk, trades) && Known(s.cfg, trades, s.nextOrder)
    requires HandleReplace(s, r).state.fault.None?
    ensures Chronicle(s, HandleReplace(s, r).state, trades, TradesOf(HandleReplace(s, r).out))
  {
    hide Good, ReplaceInPlace, ReplaceAnew, CheckReplace, Admitted, Sound, Withdraw, Lookup, Accounted, Known, Chronicle, Volume, Orderly;
    if CheckReplace(s, r).Refuse? {
      QuietChronicle(s, HandleReplace(s, r).state, trades);
    } else {
      var c := CheckReplace(s, r).value;
      ReplaceAdmitted(s, caps, r);
      var o := c.existing;
      if r.price == o.price && r.quantity < o.total {
        InPlaceChronicle(s, caps, r, c, trades);
      } else {
        GoodKeyed(s, caps);
        assert Orderly(BookAt(s.desk, c.instrument));
        WithdrawGood(s, caps, c.account, c.instrument, o);
        WithdrawAccounted(s, c.account, c.instrument, o, trades);
        Registered(s.cfg.accountIds, s.desk, c.instrument, o.id);
        var s1 := s.(desk := Withdraw(s.desk, c.account, c.instrument, o).desk);
        if o.filled < r.quantity {
          var x := Taker(c.account, c.instrument, r, o.id, o.side, r.quantity - o.filled);
          ReplacePends(s, s1, caps, x, r.price, o);
        }
        WithdrawnSize(s.desk, c.account, c.instrument, o);
        AnewChronicle(s, s1, caps, r, c, trades);
      }
    }
  }

  lemma NoTrades(out: seq<Output>, r: Report)
    ensures TradesOf(out + [ReportOut(r)]) == TradesOf(out)
  {
    TradesConcat(out, [ReportOut(r)]);
    assert [ReportOut(r)][1..] == [];
    assert TradesOf([ReportOut(r)]) == [];
  }

  lemma RequestChronicle(s: State, caps: seq<Cap>, r: Request, trades: seq<Trade>)
    requires Good(s, caps) && s.fault.None? && Accounted(s.cfg, s.desk, trades) && Known(s.cfg, trades, s.nextOrder)
    requires ApplyRequest(s, r).state.fault.None?
    ensures Chronicle(s, ApplyRequest(s, r).state, trades, TradesOf(ApplyRequest(s, r).out))
  {
    hide Good, HandleNew, HandleCancel, HandleReplace, CacheLookup, CacheRecord, Accounted, Known, TradesOf;
    var known := r.account in s.cfg.accountIds.index;
    var a := if known then s.cfg.accountIds.index[r.account] else 0;
    var hit := if known then CacheLookup(AccountAt(s, a).cache, r.requestId, s.cfg.fingerprint(r)) else Miss;
    var e := ApplyRequest(s, r);
    if hit.Miss? {
      var h := Handle(s, r);
      match r.kind {
        case New => NewChronicle(s, caps, r, trades);
        case Cancel => CancelChronicle(s, caps, r, trades);
        case Replace => ReplaceChronicle(s, caps, r, trades);
      }
      NoTrades(h.out, h.report);
    } else {
      assert e.out == [] + [e.out[0]];
      NoTrades([], e.out[0].report);
      NoneTraded();
      QuietChronicle(s, e.state, trades);
    }
  }

  lemma NoneTraded()
    ensures TradesOf([]) == []
  {
  }

  /** The same books, positions and registries, and no trade. */
  ghost predicate Quiet(s: State, e: Emitted) {
    && e.state.desk == s.desk && e.state.nextOrder == s.nextOrder && e.state.nextPriority == s.nextPriority
    && TradesOf(e.out) == []
  }

  lemma PushQuiet(s: State, m: State, change: StateChange)
    requires m.desk == s.desk && m.nextOrder == s.nextOrder && m.nextPriority == s.nextPriority
    ensures Quiet(s, PushState(m, change)) && Quiet(s, Emitted(m, []))
  {
    assert PushState(m, change).out[1..] == [];
    assert TradesOf(PushState(m, change).out[1..]) == [];
  }

  lemma ControlQuiet(s: State, c: Command)
    ensures Quiet(s, ApplyControl(s, c))
  {
    hide Quiet, PushState;
    PushQuiet(s, s, KillEngaged);
    match c {
      case SetGlobalKill(engaged) => PushQuiet(s, s.(kill := engaged), if engaged then KillEngaged else KillReleased);
      case SetAccountEnabled(account, enabled) =>
        if account in s.cfg.accountIds.index {
          var a := s.cfg.accountIds.index[account];
          PushQuiet(s, PutAccount(s, a, AccountAt(s, a).(enabled := enabled)), EnabledChanged(account, enabled));
        }
      case SetAccountLimits(account, limits) =>
        if account in s.cfg.accountIds.index {
          var a := s.cfg.accountIds.index[account];
          PushQuiet(s, PutAccount(s, a, AccountAt(s, a).(limits := limits)), LimitsChanged(account));
        }
    }
  }

  lemma MarketQuiet(s: State, e: MarketEvent)
    ensures Quiet(s, ApplyMarket(s, e))
  {
    hide Quiet, PushState, Market.Apply;
    PushQuiet(s, s, KillEngaged);
    if e.instrument in s.cfg.instrumentIds.index {
      var i := s.cfg.instrumentIds.index[e.instrument];
      var v := Market.Apply(ViewAt(s, i), e.sourceSeq, e.kind, s.time);
      PushQuiet(s, PutView(s, i, v), FeedChanged(e.instrument, v.feed));
    }
  }

  /** Market and control inputs do not touch the desk. */
  lemma QuietStep(s: State, input: Input)
    requires s.fault.None? && !input.event.OrderInput?
    ensures Quiet(s, Step(s, input))
  {
    hide ApplyMarket, ApplyControl, ApplyRequest;
    NoneTraded();
    if Successor(s.engineSeq).Some? {
      var s1 := s.(engineSeq := s.engineSeq + 1, time := input.recvTimeNs);
      match input.event {
        case MarketInput(e) => MarketQuiet(s1, e);
        case ControlInput(c) => ControlQuiet(s1, c);
      }
    }
  }

  /** One input keeps the account of the run. */
  lemma StepChronicle(s: State, caps: seq<Cap>, input: Input, trades: seq<Trade>)
    requires Good(s, caps) && s.fault.None? && Accounted(s.cfg, s.desk, trades) && Known(s.cfg, trades, s.nextOrder)
    requires Step(s, input).state.fault.None?
    ensures Chronicle(s, Step(s, input).state, trades, TradesOf(Step(s, input).out))
  {
    hide Good, Accounted, Known, ApplyRequest, ApplyMarket, ApplyControl, TradesOf;
    if input.event.OrderInput? {
      var s1 := s.(engineSeq := s.engineSeq + 1, time := input.recvTimeNs);
      ClockGood(s, s1, caps);
      RequestChronicle(s1, caps, input.event.request, trades);
    } else {
      QuietStep(s, input);
      QuietChronicle(s, Step(s, input).state, trades);
    }
  }
}
