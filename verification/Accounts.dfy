/** What the desk keeps: reservations equal to the resting remainders, the
    registries describing exactly the resting orders, and room under every
    limit for what is working and what is about to trade. */
module Accounts {
  import opened Domain
  import opened PriceTime
  import opened Ledger

  // ---- room under the limits ----------------------------------------------

  /** The largest limits ever in force for an account. */
  datatype Cap = Cap(position: u64, gross: u128)

  /** Lots an admitted order may still trade or rest. */
  datatype Pending = Pending(account: nat, instrument: nat, side: Side, lots: nat, price: int) {
    function Lots(a: nat, i: nat, s: Side): nat {
      if a == account && i == instrument && s == side then lots else 0
    }

    function Worth(a: nat): nat {
      if a == account then lots * Abs(price) else 0
    }
  }

  ghost predicate RoomAt(p: Position, cap: Cap, buy: int, sell: int) {
    && p.lots + p.openBuy + buy <= Min(cap.position, I64_MAX)
    && p.lots - p.openSell - sell >= -Min(cap.position, -I64_MIN)
    && p.openBuy + buy <= I64_MAX
    && p.openSell + sell <= I64_MAX
  }

  /** A maker moves lots from its reservation to its position. */
  lemma MakerRoom(p: Position, cap: Cap, buy: nat, sell: nat, side: Side, lots: u64, notional: u128)
    requires RoomAt(p, cap, buy, sell)
    requires lots <= p.Open(side) && notional <= p.Notional(side)
    ensures Release(p, side, lots, notional).ok
    ensures var r := Release(p, side, lots, notional).position;
      && r == p.With(side, p.Open(side) - lots, p.Notional(side) - notional)
      && ApplyFill(r, side, lots).ok
      && ApplyFill(r, side, lots).position == r.(lots := p.lots + Signed(side, lots))
      && RoomAt(ApplyFill(r, side, lots).position, cap, buy, sell)
  {
  }

  /** A taker moves lots from what it had pending to its position. */
  lemma TakerRoom(p: Position, cap: Cap, buy: nat, sell: nat, side: Side, lots: u64)
    requires RoomAt(p, cap, buy, sell)
    requires lots <= if side.Buy? then buy else sell
    ensures ApplyFill(p, side, lots) == Booking(p.(lots := p.lots + Signed(side, lots)), true)
    ensures if side.Buy? then RoomAt(ApplyFill(p, side, lots).position, cap, buy - lots, sell)
            else RoomAt(ApplyFill(p, side, lots).position, cap, buy, sell - lots)
  {
  }

  /** A remainder moves from what was pending to a reservation. */
  lemma RestRoom(p: Position, cap: Cap, buy: nat, sell: nat, side: Side, lots: u64, notional: u128)
    requires RoomAt(p, cap, buy, sell)
    requires lots <= if side.Buy? then buy else sell
    requires p.Notional(side) + notional <= U128_MAX
    ensures Reserve(p, side, lots, notional)
         == Booking(p.With(side, p.Open(side) + lots, p.Notional(side) + notional), true)
    ensures RoomAt(Reserve(p, side, lots, notional).position, cap, 0, 0)
  {
  }

  function GrossOf(ps: seq<Position>): (g: nat) {
    if ps == [] then 0 else ps[0].Worth() + GrossOf(ps[1..])
  }

  lemma {:induction false} GrossPut(ps: seq<Position>, i: nat, p: Position)
    requires i < |ps|
    ensures GrossOf(ps[i := p]) == GrossOf(ps) - ps[i].Worth() + p.Worth()
  {
    if i == 0 {
      assert ps[i := p][1..] == ps[1..];
    } else {
      assert ps[i := p][1..] == ps[1..][i - 1 := p];
      GrossPut(ps[1..], i - 1, p);
    }
  }

  lemma {:induction false} GrossBounds(ps: seq<Position>, i: nat)
    requires i < |ps|
    ensures ps[i].Worth() <= GrossOf(ps)
  {
    if i > 0 {
      GrossBounds(ps[1..], i - 1);
    }
  }

  ghost predicate RoomFor(d: Desk, caps: seq<Cap>, pend: Pending, a: nat, i: nat)
    requires a < |caps|
  {
    RoomAt(Pos(d, a, i), caps[a], pend.Lots(a, i, Buy), pend.Lots(a, i, Sell))
  }

  ghost predicate GrossFor(d: Desk, caps: seq<Cap>, pend: Pending, a: nat)
    requires a < |caps| && a < |d.positions|
  {
    GrossOf(d.positions[a]) + pend.Worth(a) <= caps[a].gross
  }

  ghost predicate Roomy(d: Desk, caps: seq<Cap>, pend: Pending) {
    && |caps| == |d.positions|
    && (forall a, i :: 0 <= a < |caps| && 0 <= i < |d.books| ==> RoomFor(d, caps, pend, a, i))
    && (forall a :: 0 <= a < |caps| ==> GrossFor(d, caps, pend, a))
  }

  ghost predicate Shaped(r: Roster, d: Desk) {
    && |d.positions| == |r.ids|
    && (forall a :: 0 <= a < |d.positions| ==> |d.positions[a]| == |d.books|)
  }

  /** Replacing one position by one with room and no more worth. */
  lemma RoomyPut(d: Desk, caps: seq<Cap>, pend: Pending, less: Pending, a: nat, i: nat, p: Position)
    requires Roomy(d, caps, pend) && a < |caps| && i < |d.positions[a]| && i < |d.books|
    requires less == pend.(lots := less.lots) && less.lots <= pend.lots
    requires less.lots < pend.lots ==> a == pend.account && i == pend.instrument
    requires RoomAt(p, caps[a], less.Lots(a, i, Buy), less.Lots(a, i, Sell))
    requires p.Worth() + less.Worth(a) <= Pos(d, a, i).Worth() + pend.Worth(a)
    ensures Roomy(PutPos(d, a, i, p), caps, less)
  {
    var d' := PutPos(d, a, i, p);
    forall b, j | 0 <= b < |caps| && 0 <= j < |d.books| ensures RoomFor(d', caps, less, b, j) {
      assert RoomFor(d, caps, pend, b, j);
    }
    forall b | 0 <= b < |caps| ensures GrossFor(d', caps, less, b) {
      assert GrossFor(d, caps, pend, b);
      GrossPut(d.positions[a], i, p);
    }
  }

  // ---- reservations -------------------------------------------------------

  function Weight(m: Measure, account: u32): Order -> int {
    (o: Order) => if o.owner.account == account then Value(m, o.Remaining(), o.price) else 0
  }

  ghost predicate ReservedAt(r: Roster, d: Desk, a: nat, i: nat, side: Side, m: Measure)
    requires a < |r.ids|
  {
    Pos(d, a, i).Booked(m, side) == Sum(BookAt(d, i).Of(side), Weight(m, r.ids[a]))
  }

  /** Every reservation is the sum over the account's resting orders. */
  ghost predicate Reserved(r: Roster, d: Desk) {
    forall a, i, side, m :: 0 <= a < |r.ids| && 0 <= i < |d.books| ==> ReservedAt(r, d, a, i, side, m)
  }

  /** One side of one book changed by `lots` at `price` for one account. */
  ghost predicate Shifted(q: seq<Order>, q': seq<Order>, account: u32, lots: int, price: int) {
    forall m, x: u32 {:trigger Sum(q', Weight(m, x))} ::
      Sum(q', Weight(m, x)) == Sum(q, Weight(m, x)) + if x == account then Value(m, lots, price) else 0
  }

  lemma ValueMinus(m: Measure, a: int, b: int, price: int)
    ensures Value(m, a - b, price) == Value(m, a, price) - Value(m, b, price)
    ensures Value(m, -b, price) == -Value(m, b, price)
  {
  }

  lemma ShiftInsert(q: seq<Order>, o: Order)
    ensures Shifted(q, Enqueue(q, o), o.owner.account, o.Remaining(), o.price)
  {
    forall m, x: u32
      ensures Sum(Enqueue(q, o), Weight(m, x))
           == Sum(q, Weight(m, x)) + if x == o.owner.account then Value(m, o.Remaining(), o.price) else 0
    {
      SumInsertAt(q, Place(q, o.side, o.price), o, Weight(m, x));
    }
  }

  lemma ShiftDrop(q: seq<Order>, k: nat)
    requires k < |q|
    ensures Shifted(q, Drop(q, k), q[k].owner.account, -q[k].Remaining(), q[k].price)
  {
    forall m, x: u32
      ensures Sum(Drop(q, k), Weight(m, x))
           == Sum(q, Weight(m, x)) + if x == q[k].owner.account then Value(m, -q[k].Remaining(), q[k].price) else 0
    {
      SumDrop(q, k, Weight(m, x));
      ValueMinus(m, 0, q[k].Remaining(), q[k].price);
    }
  }

  lemma ShiftResize(q: seq<Order>, k: nat, o: Order)
    requires k < |q| && o == q[k].(total := o.total, filled := o.filled)
    ensures Shifted(q, q[k := o], o.owner.account, o.Remaining() - q[k].Remaining(), o.price)
  {
    forall m, x: u32
      ensures Sum(q[k := o], Weight(m, x)) == Sum(q, Weight(m, x))
                + if x == o.owner.account then Value(m, o.Remaining() - q[k].Remaining(), o.price) else 0
    {
      SumReplace(q, k, o, Weight(m, x));
      ValueMinus(m, o.Remaining(), q[k].Remaining(), o.price);
    }
  }

  lemma ShiftFill(q: seq<Order>, traded: u64)
    requires q != [] && traded <= q[0].Remaining()
    ensures Shifted(q, FillHead(q, traded), q[0].owner.account, 0 - traded, q[0].price)
  {
    if traded == q[0].Remaining() {
      assert FillHead(q, traded) == Drop(q, 0);
      ShiftDrop(q, 0);
    } else {
      ShiftResize(q, 0, q[0].(filled := q[0].filled + traded));
    }
  }

  lemma ReservedShift(r: Roster, d: Desk, d': Desk, a: nat, i: nat, side: Side, q': seq<Order>, lots: int, price: int)
    requires Reserved(r, d) && a < |r.ids| && i < |d.books| == |d'.books|
    requires BookAt(d', i) == BookAt(d, i).With(side, q')
    requires forall j: nat :: j != i ==> BookAt(d', j) == BookAt(d, j)
    requires Shifted(BookAt(d, i).Of(side), q', r.ids[a], lots, price)
    requires forall b: nat, j: nat :: b != a || j != i ==> forall s, m :: Pos(d', b, j).Booked(m, s) == Pos(d, b, j).Booked(m, s)
    requires forall m, s :: Pos(d', a, i).Booked(m, s) == Pos(d, a, i).Booked(m, s) + if s == side then Value(m, lots, price) else 0
    ensures Reserved(r, d')
  {
    forall b, j, s, m | 0 <= b < |r.ids| && 0 <= j < |d'.books| ensures ReservedAt(r, d', b, j, s, m) {
      assert ReservedAt(r, d, b, j, s, m);
      if b != a { assert r.index[r.ids[b]] == b && r.index[r.ids[a]] == a; }
    }
  }

  lemma ValueBounds(m: Measure, x: nat, y: nat, price: int)
    requires x <= y
    ensures 0 <= Value(m, x, price) <= Value(m, y, price)
  {
    MulMonotone(x, y, Abs(price));
  }

  /** A resting order is covered by its owner's reservation. */
  lemma ReservedCovers(r: Roster, d: Desk, i: nat, side: Side, k: nat, a: nat, lots: nat, m: Measure)
    requires Reserved(r, d) && i < |d.books| && a < |r.ids|
    requires Resting(side, BookAt(d, i).Of(side))
    requires k < |BookAt(d, i).Of(side)| && BookAt(d, i).Of(side)[k].owner.account == r.ids[a]
    requires lots <= BookAt(d, i).Of(side)[k].Remaining()
    ensures Value(m, lots, BookAt(d, i).Of(side)[k].price) <= Pos(d, a, i).Booked(m, side)
  {
    hide Value, Sum;
    var q := BookAt(d, i).Of(side);
    var w := Weight(m, r.ids[a]);
    assert ReservedAt(r, d, a, i, side, m);
    forall j | 0 <= j < |q| ensures w(q[j]) >= 0 {
      ValueBounds(m, 0, q[j].Remaining(), q[j].price);
    }
    SumNonNegative(q, w);
    assert w(q[k]) == Value(m, q[k].Remaining(), q[k].price);
    ValueBounds(m, lots, q[k].Remaining(), q[k].price);
  }

  // ---- the registries -----------------------------------------------------

  ghost predicate LiveOk(r: Roster, d: Desk, id: u64)
    requires id in d.live
  {
    var l := d.live[id];
    && l.instrument < |d.books| && l.account < |r.ids|
    && var o := Lookup(BookAt(d, l.instrument), id);
    && o.Some? && o.value.owner.account == r.ids[l.account]
    && o.value.owner in d.clients && d.clients[o.value.owner] == id
  }

  ghost predicate Listed(d: Desk, i: nat, id: u64) {
    Lookup(BookAt(d, i), id).Some? ==> id in d.live && d.live[id].instrument == i
  }

  ghost predicate ClientOk(d: Desk, key: Owner)
    requires key in d.clients
  {
    var id := d.clients[key];
    && id in d.live
    && var o := Lookup(BookAt(d, d.live[id].instrument), id);
    o.Some? && o.value.owner == key
  }

  /** The live orders, the client orders and the resting orders are the same
      orders, one to one. */
  ghost predicate Keyed(r: Roster, d: Desk) {
    && (forall id :: id in d.live ==> LiveOk(r, d, id))
    && (forall i: nat, id: u64 :: Listed(d, i, id))
    && (forall key :: key in d.clients ==> ClientOk(d, key))
  }

  /** Book i of one desk differs from the other's in one order at most. */
  ghost predicate OneChange(d: Desk, d': Desk, i: nat, id: u64, o: Option<Order>) {
    && i < |d.books| == |d'.books|
    && (forall x: u64 :: Lookup(BookAt(d', i), x) == if x == id then o else Lookup(BookAt(d, i), x))
    && (forall j: nat :: j != i ==> BookAt(d', j) == BookAt(d, j))
  }

  lemma ChangeAt(d: Desk, d': Desk, i: nat, id: u64, o: Option<Order>, j: nat, x: u64)
    requires OneChange(d, d', i, id, o)
    ensures Lookup(BookAt(d', j), x) == if j == i && x == id then o else Lookup(BookAt(d, j), x)
  {
    hide Lookup, BookAt;
  }

  lemma KeyedForget(r: Roster, d: Desk, d': Desk, i: nat, o: Order)
    requires Keyed(r, d) && Lookup(BookAt(d, i), o.id) == Some(o)
    requires OneChange(d, d', i, o.id, None)
    requires d'.live == d.live - {o.id} && d'.clients == d.clients - {o.owner}
    ensures Keyed(r, d')
  {
    hide Lookup, BookAt, OneChange;
    assert |d'.books| == |d.books| by { ChangeSize(d, d', i, o.id, None); }
    assert Listed(d, i, o.id);
    assert LiveOk(r, d, o.id);
    forall id | id in d'.live ensures LiveOk(r, d', id) {
      assert LiveOk(r, d, id);
      ChangeAt(d, d', i, o.id, None, d.live[id].instrument, id);
    }
    forall j: nat, id: u64 ensures Listed(d', j, id) {
      assert Listed(d, j, id);
      ChangeAt(d, d', i, o.id, None, j, id);
    }
    forall key | key in d'.clients ensures ClientOk(d', key) {
      assert ClientOk(d, key);
      ChangeAt(d, d', i, o.id, None, d.live[d.clients[key]].instrument, d.clients[key]);
    }
  }

  lemma ChangeSize(d: Desk, d': Desk, i: nat, id: u64, o: Option<Order>)
    requires OneChange(d, d', i, id, o)
    ensures i < |d.books| == |d'.books|
  {
  }

  /** An order that changes only its quantities keeps its registration. */
  lemma KeyedKeep(r: Roster, d: Desk, d': Desk, i: nat, o: Order, o': Order)
    requires Keyed(r, d) && Lookup(BookAt(d, i), o.id) == Some(o) && o'.owner == o.owner && o'.id == o.id
    requires OneChange(d, d', i, o.id, Some(o'))
    requires d'.live == d.live && d'.clients == d.clients
    ensures Keyed(r, d')
  {
    hide Lookup, BookAt, OneChange;
    assert |d'.books| == |d.books| by { ChangeSize(d, d', i, o.id, Some(o')); }
    assert Listed(d, i, o.id);
    forall id | id in d'.live ensures LiveOk(r, d', id) {
      assert LiveOk(r, d, id);
      ChangeAt(d, d', i, o.id, Some(o'), d.live[id].instrument, id);
    }
    forall j: nat, id: u64 ensures Listed(d', j, id) {
      assert Listed(d, j, id);
      ChangeAt(d, d', i, o.id, Some(o'), j, id);
    }
    forall key | key in d'.clients ensures ClientOk(d', key) {
      assert ClientOk(d, key);
      ChangeAt(d, d', i, o.id, Some(o'), d.live[d.clients[key]].instrument, d.clients[key]);
    }
  }

  lemma KeyedAdd(r: Roster, d: Desk, d': Desk, a: nat, i: nat, o: Order)
    requires Keyed(r, d) && a < |r.ids|
    requires o.id !in d.live && o.owner !in d.clients && o.owner.account == r.ids[a]
    requires OneChange(d, d', i, o.id, Some(o))
    requires d'.live == d.live[o.id := LiveOrder(a, i)] && d'.clients == d.clients[o.owner := o.id]
    ensures Keyed(r, d')
  {
    hide Lookup, BookAt, OneChange;
    assert i < |d'.books| == |d.books| by { ChangeSize(d, d', i, o.id, Some(o)); }
    forall id | id in d'.live ensures LiveOk(r, d', id) {
      if id != o.id { assert LiveOk(r, d, id); }
      ChangeAt(d, d', i, o.id, Some(o), d'.live[id].instrument, id);
    }
    forall j: nat, id: u64 ensures Listed(d', j, id) {
      assert Listed(d, j, id);
      ChangeAt(d, d', i, o.id, Some(o), j, id);
    }
    forall key | key in d'.clients ensures ClientOk(d', key) {
      if key != o.owner { assert ClientOk(d, key); }
      ChangeAt(d, d', i, o.id, Some(o), d'.live[d'.clients[key]].instrument, d'.clients[key]);
    }
  }

  // ---- the invariant and what every operation keeps -----------------------

  ghost predicate Orderlies(d: Desk) {
    forall i: nat :: Orderly(BookAt(d, i))
  }

  /** Every fault-free desk between operations, and inside one with the
      admitted order still pending. */
  ghost predicate Sound(r: Roster, d: Desk, caps: seq<Cap>, pend: Pending) {
    Shaped(r, d) && Orderlies(d) && Keyed(r, d) && Reserved(r, d) && Roomy(d, caps, pend)
  }

  lemma BookedReserve(p: Position, side: Side, lots: u64, price: i64)
    requires p.Open(side) + lots <= U64_MAX && p.Notional(side) + lots * Abs(price) <= U128_MAX
    ensures CheckedNotional(lots, price) == Some(lots * Abs(price))
    ensures var b := Reserve(p, side, lots, lots * Abs(price));
      && b.ok && b.position.lots == p.lots
      && forall m, s :: b.position.Booked(m, s) == p.Booked(m, s) + if s == side then Value(m, lots, price) else 0
  {
    NotionalFits(lots, price);
  }

  lemma BookedRelease(p: Position, side: Side, lots: u64, price: i64)
    requires lots <= p.Open(side) && lots * Abs(price) <= p.Notional(side)
    ensures CheckedNotional(lots, price) == Some(lots * Abs(price))
    ensures var b := Release(p, side, lots, lots * Abs(price));
      && b.ok && b.position.lots == p.lots
      && b.position == p.With(side, p.Open(side) - lots, p.Notional(side) - lots * Abs(price))
      && forall m, s :: b.position.Booked(m, s) == p.Booked(m, s) + if s == side then Value(m, 0 - lots, price) else 0
  {
    NotionalFits(lots, price);
    forall m ensures Value(m, 0 - lots, price) == -Value(m, lots, price) {
      ValueMinus(m, 0, lots, price);
    }
  }

  lemma PutTwice(d: Desk, a: nat, i: nat, p: Position, p': Position)
    ensures PutPos(PutPos(d, a, i, p), a, i, p') == PutPos(d, a, i, p')
  {
    if a < |d.positions| && i < |d.positions[a]| {
      assert d.positions[a][i := p][i := p'] == d.positions[a][i := p'];
      assert d.positions[a := d.positions[a][i := p]][a := d.positions[a][i := p']]
          == d.positions[a := d.positions[a][i := p']];
    }
  }

  /** A maker's position after a fill. */
  function Made(p: Position, side: Side, f: Fill): Position
    requires f.quantity <= p.Open(side) && f.quantity * Abs(f.price) <= p.Notional(side)
    requires ToI64(p.lots + Signed(side, f.quantity)).Some?
  {
    p.With(side, p.Open(side) - f.quantity, p.Notional(side) - f.quantity * Abs(f.price))
     .(lots := p.lots + Signed(side, f.quantity))
  }

  lemma MakerPosition(p: Position, cap: Cap, buy: nat, sell: nat, side: Side, f: Fill)
    requires RoomAt(p, cap, buy, sell) && f.quantity > 0
    requires f.quantity <= p.Open(side) && f.quantity * Abs(f.price) <= p.Notional(side)
    ensures CheckedNotional(f.quantity, f.price) == Some(f.quantity * Abs(f.price))
    ensures ToI64(p.lots + Signed(side, f.quantity)).Some?
    ensures var freed := Release(p, side, f.quantity, f.quantity * Abs(f.price));
      freed.ok && ApplyFill(freed.position, side, f.quantity) == Booking(Made(p, side, f), true)
    ensures RoomAt(Made(p, side, f), cap, buy, sell) && Made(p, side, f).Worth() <= p.Worth()
  {
    BookedRelease(p, side, f.quantity, f.price);
    MakerRoom(p, cap, buy, sell, side, f.quantity, f.quantity * Abs(f.price));
  }

  lemma MadeBooked(p: Position, side: Side, f: Fill, m: Measure, s: Side)
    requires f.quantity <= p.Open(side) && f.quantity * Abs(f.price) <= p.Notional(side)
    requires ToI64(p.lots + Signed(side, f.quantity)).Some?
    ensures Made(p, side, f).Booked(m, s) == p.Booked(m, s) + if s == side then Value(m, 0 - f.quantity, f.price) else 0
  {
    ValueMinus(m, 0, f.quantity, f.price);
  }

  /** The maker's half of a fill, on positions. */
  lemma MakerSettles(r: Roster, d: Desk, caps: seq<Cap>, pend: Pending, i: nat, side: Side, f: Fill, maker: nat)
    requires Shaped(r, d) && Roomy(d, caps, pend) && maker < |r.ids| && i < |d.books| && f.quantity > 0
    requires f.quantity <= Pos(d, maker, i).Open(side) && f.quantity * Abs(f.price) <= Pos(d, maker, i).Notional(side)
    ensures ToI64(Pos(d, maker, i).lots + Signed(side, f.quantity)).Some?
    ensures var done := SettleMaker(d, maker, i, side, f);
      && done == Done(PutPos(d, maker, i, Made(Pos(d, maker, i), side, f)), true)
      && Shaped(r, done.desk) && Roomy(done.desk, caps, pend)
  {
    hide RoomAt, Release, ApplyFill;
    var p := Pos(d, maker, i);
    assert RoomFor(d, caps, pend, maker, i);
    MakerPosition(p, caps[maker], pend.Lots(maker, i, Buy), pend.Lots(maker, i, Sell), side, f);
    RoomyPut(d, caps, pend, pend, maker, i, Made(p, side, f));
    PutTwice(d, maker, i, Release(p, side, f.quantity, f.quantity * Abs(f.price)).position, Made(p, side, f));
  }

  /** The taker's half of a fill. */
  lemma TakerSettles(r: Roster, d: Desk, caps: seq<Cap>, pend: Pending, lots: u64)
    requires Shaped(r, d) && Roomy(d, caps, pend) && pend.account < |r.ids| && pend.instrument < |d.books|
    requires lots <= pend.lots
    ensures var a, i := pend.account, pend.instrument;
      var p := Pos(d, a, i);
      && ToI64(p.lots + Signed(pend.side, lots)).Some?
      && MovePosition(d, a, i, pend.side, lots) == Done(PutPos(d, a, i, p.(lots := p.lots + Signed(pend.side, lots))), true)
      && Shaped(r, MovePosition(d, a, i, pend.side, lots).desk)
      && Roomy(MovePosition(d, a, i, pend.side, lots).desk, caps, pend.(lots := pend.lots - lots))
  {
    hide RoomAt, ApplyFill;
    var a, i := pend.account, pend.instrument;
    var p := Pos(d, a, i);
    var less := pend.(lots := pend.lots - lots);
    assert RoomFor(d, caps, pend, a, i);
    TakerRoom(p, caps[a], pend.Lots(a, i, Buy), pend.Lots(a, i, Sell), pend.side, lots);
    MulMonotone(less.lots, pend.lots, Abs(pend.price));
    RoomyPut(d, caps, pend, less, a, i, ApplyFill(p, pend.side, lots).position);
  }

  lemma RoomFrame(r: Roster, d: Desk, d': Desk, caps: seq<Cap>, pend: Pending)
    requires Shaped(r, d) && Roomy(d, caps, pend)
    requires d'.positions == d.positions && |d'.books| == |d.books|
    ensures Shaped(r, d') && Roomy(d', caps, pend)
  {
    forall a, i | 0 <= a < |caps| && 0 <= i < |d'.books| ensures RoomFor(d', caps, pend, a, i) {
      assert RoomFor(d, caps, pend, a, i);
    }
    forall a | 0 <= a < |caps| ensures GrossFor(d', caps, pend, a) {
      assert GrossFor(d, caps, pend, a);
    }
  }

  /** Who owns a resting order, and that its registration says so. */
  lemma Registered(r: Roster, d: Desk, i: nat, id: u64)
    requires Keyed(r, d) && Lookup(BookAt(d, i), id).Some?
    ensures var o := Lookup(BookAt(d, i), id).value;
      && i < |d.books|
      && o.owner.account in r.index && id in d.live
      && d.live[id] == LiveOrder(r.index[o.owner.account], i)
      && o.owner in d.clients && d.clients[o.owner] == id
  {
    hide Lookup, BookAt;
    assert Listed(d, i, id);
    assert LiveOk(r, d, id);
  }

  /** The desk after the first order of the maker side traded. */
  function Traded(d: Desk, maker: nat, pend: Pending, traded: u64): Desk
    requires var q := BookAt(d, pend.instrument).Of(pend.side.Opposite());
      q != [] && traded <= q[0].Remaining()
  {
    var ms := pend.side.Opposite();
    var b := BookAt(d, pend.instrument);
    var f := FillOf(b.Of(ms)[0], traded);
    PutBook(SettleFill(d, maker, pend.account, pend.instrument, pend.side, f).desk, pend.instrument,
            b.With(ms, FillHead(b.Of(ms), traded)))
  }

  lemma TradedPositions(r: Roster, d: Desk, caps: seq<Cap>, pend: Pending, maker: nat, traded: u64)
    requires Shaped(r, d) && Roomy(d, caps, pend) && Reserved(r, d)
    requires pend.account < |r.ids| && pend.instrument < |d.books| && maker < |r.ids|
    requires var q := BookAt(d, pend.instrument).Of(pend.side.Opposite());
      && Resting(pend.side.Opposite(), q) && q != [] && 0 < traded <= q[0].Remaining() && traded <= pend.lots
      && q[0].owner.account == r.ids[maker]
    ensures var ms, i := pend.side.Opposite(), pend.instrument;
      var f := FillOf(BookAt(d, i).Of(ms)[0], traded);
      var done := SettleFill(d, maker, pend.account, i, pend.side, f);
      && done.ok && done.desk.books == d.books
      && Shaped(r, done.desk) && Roomy(done.desk, caps, pend.(lots := pend.lots - traded))
      && (forall b: nat, j: nat :: b != maker || j != i ==>
            forall s, m :: Pos(done.desk, b, j).Booked(m, s) == Pos(d, b, j).Booked(m, s))
      && (forall m, s :: Pos(done.desk, maker, i).Booked(m, s)
            == Pos(d, maker, i).Booked(m, s) + if s == ms then Value(m, 0 - traded, f.price) else 0)
      && (forall b: nat, j: nat :: Pos(done.desk, b, j).lots == Pos(d, b, j).lots
            + (if b == maker && j == i then Signed(ms, traded) else 0)
            + (if b == pend.account && j == i then Signed(pend.side, traded) else 0))
  {
    hide Roomy, Reserved, Resting, Value;
    var ms, i := pend.side.Opposite(), pend.instrument;
    var f := FillOf(BookAt(d, i).Of(ms)[0], traded);
    ReservedLots(r, d, i, ms, maker, traded);
    MakerSettles(r, d, caps, pend, i, ms, f, maker);
    var d1 := SettleMaker(d, maker, i, ms, f).desk;
    TakerSettles(r, d1, caps, pend, traded);
    var d2 := MovePosition(d1, pend.account, i, pend.side, traded).desk;
    var done := SettleFill(d, maker, pend.account, i, pend.side, f);
    RoomFrame(r, d2, done.desk, caps, pend.(lots := pend.lots - traded));
    forall b: nat, j: nat, s, m ensures Pos(done.desk, b, j).Booked(m, s) == Pos(d1, b, j).Booked(m, s) {
      assert Pos(done.desk, b, j) == Pos(d2, b, j);
    }
    forall b: nat, j: nat ensures Pos(done.desk, b, j).lots == Pos(d, b, j).lots
            + (if b == maker && j == i then Signed(ms, traded) else 0)
            + (if b == pend.account && j == i then Signed(pend.side, traded) else 0)
    {
      assert Pos(done.desk, b, j) == Pos(d2, b, j);
    }
    forall m, s ensures Pos(d1, maker, i).Booked(m, s)
            == Pos(d, maker, i).Booked(m, s) + if s == ms then Value(m, 0 - traded, f.price) else 0
    {
      MadeBooked(Pos(d, maker, i), ms, f, m, s);
    }
  }

  lemma ReservedLots(r: Roster, d: Desk, i: nat, side: Side, a: nat, lots: nat)
    requires Reserved(r, d) && i < |d.books| && a < |r.ids|
    requires var q := BookAt(d, i).Of(side);
      && Resting(side, q) && q != [] && lots <= q[0].Remaining() && q[0].owner.account == r.ids[a]
    ensures lots <= Pos(d, a, i).Open(side)
    ensures lots * Abs(BookAt(d, i).Of(side)[0].price) <= Pos(d, a, i).Notional(side)
  {
    ReservedCovers(r, d, i, side, 0, a, lots, InLots);
    ReservedCovers(r, d, i, side, 0, a, lots, InNotional);
  }

  lemma PutOrderlies(d: Desk, d': Desk, i: nat)
    requires Orderlies(d) && Orderly(BookAt(d', i))
    requires forall j: nat :: j != i ==> BookAt(d', j) == BookAt(d, j)
    ensures Orderlies(d')
  {
    hide Orderly, BookAt;
    forall j: nat ensures Orderly(BookAt(d', j)) {
      if j != i { assert Orderly(BookAt(d, j)); }
    }
  }

  lemma TradedBooks(r: Roster, d: Desk, d': Desk, i: nat, side: Side, traded: u64)
    requires Orderlies(d) && Keyed(r, d) && i < |d.books| == |d'.books|
    requires BookAt(d, i).Of(side) != [] && 0 < traded <= BookAt(d, i).Of(side)[0].Remaining()
    requires BookAt(d', i) == BookAt(d, i).With(side, FillHead(BookAt(d, i).Of(side), traded))
    requires forall j: nat :: j != i ==> BookAt(d', j) == BookAt(d, j)
    requires var o := BookAt(d, i).Of(side)[0];
      if traded == o.Remaining() then d'.live == d.live - {o.id} && d'.clients == d.clients - {o.owner}
      else d'.live == d.live && d'.clients == d.clients
    ensures Orderlies(d') && Keyed(r, d')
  {
    hide Orderly, BookAt, Lookup, Keyed, FillHead;
    var o := BookAt(d, i).Of(side)[0];
    assert Orderly(BookAt(d, i));
    LookupAt(BookAt(d, i), side, 0);
    LookupFill(BookAt(d, i), side, traded, o.id);
    PutOrderlies(d, d', i);
    var after := o.(filled := o.filled + traded);
    forall x: u64 ensures Lookup(BookAt(d', i), x)
        == if x != o.id then Lookup(BookAt(d, i), x) else if traded == o.Remaining() then None else Some(after)
    {
      LookupFill(BookAt(d, i), side, traded, x);
    }
    if traded == o.Remaining() {
      KeyedForget(r, d, d', i, o);
    } else {
      KeyedKeep(r, d, d', i, o, after);
    }
  }

  /** One fill keeps the desk sound, whoever the maker is. */
  lemma TradeKeeps(r: Roster, d: Desk, caps: seq<Cap>, pend: Pending, traded: u64)
    requires Sound(r, d, caps, pend) && pend.account < |r.ids| && pend.instrument < |d.books|
    requires var q := BookAt(d, pend.instrument).Of(pend.side.Opposite());
      q != [] && 0 < traded <= q[0].Remaining() && traded <= pend.lots
    ensures var o := BookAt(d, pend.instrument).Of(pend.side.Opposite())[0];
      && o.owner.account in r.index
      && var maker := r.index[o.owner.account];
      && SettleFill(d, maker, pend.account, pend.instrument, pend.side, FillOf(o, traded)).ok
      && Sound(r, Traded(d, maker, pend, traded), caps, pend.(lots := pend.lots - traded))
  {
    hide Roomy, Reserved, Keyed, Lookup, Resting, Unique, Ordered, FillHead, Value, Shifted, SettleFill;
    var i, ms := pend.instrument, pend.side.Opposite();
    var q := BookAt(d, i).Of(ms);
    var o := q[0];
    assert Orderly(BookAt(d, i));
    LookupAt(BookAt(d, i), ms, 0);
    Registered(r, d, i, o.id);
    var maker := r.index[o.owner.account];
    TradedPositions(r, d, caps, pend, maker, traded);
    var settled := SettleFill(d, maker, pend.account, i, pend.side, FillOf(o, traded)).desk;
    var d' := Traded(d, maker, pend, traded);
    SettledRegistries(d, maker, pend.account, i, pend.side, FillOf(o, traded));
    TradedBooks(r, d, d', i, ms, traded);
    ShiftFill(q, traded);
    ReservedShift(r, d, d', maker, i, ms, FillHead(q, traded), 0 - traded, o.price);
    RoomFrame(r, settled, d', caps, pend.(lots := pend.lots - traded));
  }

  lemma SettledRegistries(d: Desk, maker: nat, taker: nat, i: nat, side: Side, f: Fill)
    ensures var s := SettleFill(d, maker, taker, i, side, f).desk;
      && s.books == d.books
      && if f.makerRemaining == 0 then s.live == d.live - {f.makerId} && s.clients == d.clients - {f.owner}
         else s.live == d.live && s.clients == d.clients
  {
  }

  /** Resting the remainder turns what was pending into a reservation. */
  lemma RestKeeps(r: Roster, d: Desk, caps: seq<Cap>, pend: Pending, o: Order)
    requires Sound(r, d, caps, pend) && pend.account < |r.ids| && pend.instrument < |d.books|
    requires o.side == pend.side && o.price == pend.price && 0 < o.Remaining() <= pend.lots
    requires o.owner.account == r.ids[pend.account] && o.owner !in d.clients && o.id !in d.live
    requires Fresh(BookAt(d, pend.instrument).Of(o.side), o.id, o.priority)
    ensures Rest(d, pend.account, pend.instrument, o).ok
    ensures Sound(r, Rest(d, pend.account, pend.instrument, o).desk, caps, pend.(lots := 0))
  {
    hide Roomy, Reserved, Keyed, Lookup, Orderly, Value, Shifted, Fresh, Enqueue;
    var a, i := pend.account, pend.instrument;
    var b := BookAt(d, i);
    assert Orderly(b);
    assert Lookup(b, o.id).None? by { Unlisted(d, i, o.id, r); }
    RestPositions(r, d, caps, pend, o.Remaining());
    var done := Rest(d, a, i, o);
    RestedEffects(d, a, i, o);
    LookupInsert(b, o, o.id);
    PutOrderlies(d, done.desk, i);
    RestChange(d, a, i, o);
    KeyedAdd(r, d, done.desk, a, i, o);
    ShiftInsert(b.Of(o.side), o);
    ReservedShift(r, d, done.desk, a, i, o.side, Enqueue(b.Of(o.side), o), o.Remaining(), o.price);
    RoomFrame(r, ReserveOrder(d, a, i, o.side, o.Remaining(), o.price).desk, done.desk, caps, pend.(lots := 0));
  }

  lemma RestChange(d: Desk, a: nat, i: nat, o: Order)
    requires i < |d.books| && Orderly(BookAt(d, i)) && o.filled < o.total
    requires Fresh(BookAt(d, i).Of(o.side), o.id, o.priority) && Lookup(BookAt(d, i), o.id).None?
    ensures OneChange(d, Rest(d, a, i, o).desk, i, o.id, Some(o))
  {
    hide Lookup, Orderly, Fresh, Rest, Insert, ReserveOrder;
    RestedEffects(d, a, i, o);
    forall x: u64
      ensures Lookup(BookAt(Rest(d, a, i, o).desk, i), x) == if x == o.id then Some(o) else Lookup(BookAt(d, i), x)
    {
      LookupInsert(BookAt(d, i), o, x);
    }
  }

  lemma Unlisted(d: Desk, i: nat, id: u64, r: Roster)
    requires Keyed(r, d) && id !in d.live
    ensures Lookup(BookAt(d, i), id).None?
  {
    assert Listed(d, i, id);
  }

  lemma RestPositions(r: Roster, d: Desk, caps: seq<Cap>, pend: Pending, lots: u64)
    requires Shaped(r, d) && Roomy(d, caps, pend) && pend.account < |r.ids| && pend.instrument < |d.books|
    requires I64_MIN <= pend.price <= I64_MAX && lots <= pend.lots
    ensures var a, i := pend.account, pend.instrument;
      var done := ReserveOrder(d, a, i, pend.side, lots, pend.price);
      && done.ok && Shaped(r, done.desk) && Roomy(done.desk, caps, pend.(lots := 0))
      && (forall m, s :: Pos(done.desk, a, i).Booked(m, s)
            == Pos(d, a, i).Booked(m, s) + if s == pend.side then Value(m, lots, pend.price) else 0)
  {
    hide RoomAt;
    var a, i := pend.account, pend.instrument;
    var p := Pos(d, a, i);
    var n := lots * Abs(pend.price);
    assert RoomFor(d, caps, pend, a, i);
    assert GrossFor(d, caps, pend, a);
    GrossBounds(d.positions[a], i);
    MulMonotone(lots, pend.lots, Abs(pend.price));
    RestRoom(p, caps[a], pend.Lots(a, i, Buy), pend.Lots(a, i, Sell), pend.side, lots, n);
    BookedReserve(p, pend.side, lots, pend.price);
    RoomyPut(d, caps, pend, pend.(lots := 0), a, i, Reserve(p, pend.side, lots, n).position);
  }

  lemma RestedEffects(d: Desk, a: nat, i: nat, o: Order)
    requires o.filled <= o.total && i < |d.books|
    ensures var done := Rest(d, a, i, o);
      var booked := ReserveOrder(d, a, i, o.side, o.Remaining(), o.price);
      && done.ok == booked.ok && done.desk.positions == booked.desk.positions
      && BookAt(done.desk, i) == Insert(BookAt(d, i), o)
      && (forall j: nat :: j != i ==> BookAt(done.desk, j) == BookAt(d, j))
      && |done.desk.books| == |d.books| == |booked.desk.books|
      && done.desk.live == d.live[o.id := LiveOrder(a, i)]
      && done.desk.clients == d.clients[o.owner := o.id]
      && (forall b: nat, j: nat :: b != a || j != i ==> Pos(done.desk, b, j) == Pos(d, b, j))
      && Pos(done.desk, a, i) == Pos(booked.desk, a, i)
  {
  }

  /** A position with the reservation of one order gone. */
  ghost predicate Lowered(p: Position, p': Position, o: Order) {
    && p'.lots == p.lots
    && (forall m, s :: p'.Booked(m, s) == p.Booked(m, s) + if s == o.side then Value(m, 0 - o.Remaining(), o.price) else 0)
  }

  /** Releasing part of what a resting order reserved. */
  lemma ReleasePositions(r: Roster, d: Desk, caps: seq<Cap>, pend: Pending, i: nat, side: Side, k: nat, a: nat, lots: u64)
    requires Shaped(r, d) && Roomy(d, caps, pend) && Reserved(r, d) && a < |r.ids| && i < |d.books| && pend.lots == 0
    requires Resting(side, BookAt(d, i).Of(side)) && k < |BookAt(d, i).Of(side)|
    requires var o := BookAt(d, i).Of(side)[k];
      o.owner.account == r.ids[a] && 0 < lots <= o.Remaining()
    ensures var price := BookAt(d, i).Of(side)[k].price;
      var done := ReleaseOrder(d, a, i, side, lots, price);
      && done.ok && Shaped(r, done.desk) && Roomy(done.desk, caps, pend)
      && done.desk == d.(positions := done.desk.positions)
      && (forall m, s :: Pos(done.desk, a, i).Booked(m, s)
            == Pos(d, a, i).Booked(m, s) + if s == side then Value(m, 0 - lots, price) else 0)
      && (forall b: nat, j: nat :: b != a || j != i ==> Pos(done.desk, b, j) == Pos(d, b, j))
      && Pos(done.desk, a, i).lots == Pos(d, a, i).lots
  {
    hide Reserved, Resting;
    var price := BookAt(d, i).Of(side)[k].price;
    var p := Pos(d, a, i);
    ReservedCovers(r, d, i, side, k, a, lots, InLots);
    ReservedCovers(r, d, i, side, k, a, lots, InNotional);
    BookedRelease(p, side, lots, price);
    assert RoomFor(d, caps, pend, a, i);
    RoomyPut(d, caps, pend, pend, a, i, Release(p, side, lots, lots * Abs(price)).position);
  }

  /** Taking an order away. */
  lemma WithdrawKeeps(r: Roster, d: Desk, caps: seq<Cap>, pend: Pending, i: nat, id: u64)
    requires Sound(r, d, caps, pend) && pend.lots == 0 && Lookup(BookAt(d, i), id).Some?
    ensures var o := Lookup(BookAt(d, i), id).value;
      && o.filled < o.total && o.owner.account in r.index
      && var a := r.index[o.owner.account];
      var done := Withdraw(d, a, i, o);
      && done.ok && Sound(r, done.desk, caps, pend)
      && id !in done.desk.live && o.owner !in done.desk.clients
      && Lowered(Pos(d, a, i), Pos(done.desk, a, i), o)
      && (forall b: nat, j: nat :: b != a || j != i ==> Pos(done.desk, b, j) == Pos(d, b, j))
  {
    hide Roomy, Reserved, Keyed, Lookup, Queue, Disjoint, Shifted, Remove, Reduce, ReleaseOrder;
    Registered(r, d, i, id);
    assert Orderly(BookAt(d, i));
    var o := Lookup(BookAt(d, i), id).value;
    var a := r.index[o.owner.account];
    var k := RemoveIsDrop(BookAt(d, i), id);
    var q := BookAt(d, i).Of(o.side);
    assert Resting(o.side, q) by { QueueRests(BookAt(d, i)); }
    ReleasePositions(r, d, caps, pend, i, o.side, k, a, o.Remaining());
    var done := Withdraw(d, a, i, o);
    WithdrawnEffects(d, a, i, o);
    LookupDrop(BookAt(d, i), o.side, k, id);
    PutOrderlies(d, done.desk, i);
    WithdrawChange(d, a, i, o);
    KeyedForget(r, d, done.desk, i, o);
    ShiftDrop(q, k);
    ReservedShift(r, d, done.desk, a, i, o.side, Drop(q, k), 0 - o.Remaining(), o.price);
    RoomFrame(r, ReleaseOrder(d, a, i, o.side, o.Remaining(), o.price).desk, done.desk, caps, pend);
  }

  lemma WithdrawChange(d: Desk, a: nat, i: nat, o: Order)
    requires i < |d.books| && Orderly(BookAt(d, i)) && Lookup(BookAt(d, i), o.id) == Some(o)
    ensures o.filled < o.total && OneChange(d, Withdraw(d, a, i, o).desk, i, o.id, None)
  {
    hide Lookup, Queue, Disjoint, Withdraw, Remove, Reduce, ReleaseOrder;
    var k := RemoveIsDrop(BookAt(d, i), o.id);
    WithdrawnEffects(d, a, i, o);
    forall x: u64 ensures Lookup(BookAt(Withdraw(d, a, i, o).desk, i), x) == if x == o.id then None else Lookup(BookAt(d, i), x) {
      LookupDrop(BookAt(d, i), o.side, k, x);
    }
  }

  lemma QueueRests(b: Book)
    requires Orderly(b)
    ensures Resting(Buy, b.bids) && Resting(Sell, b.asks)
  {
  }

  lemma WithdrawnEffects(d: Desk, a: nat, i: nat, o: Order)
    requires o.filled <= o.total && i < |d.books|
    ensures var done := Withdraw(d, a, i, o);
      var freed := ReleaseOrder(d, a, i, o.side, o.Remaining(), o.price);
      && done.ok == freed.ok && done.desk.positions == freed.desk.positions
      && BookAt(done.desk, i) == Remove(BookAt(d, i), o.id)
      && (forall j: nat :: j != i ==> BookAt(done.desk, j) == BookAt(d, j))
      && |done.desk.books| == |d.books| == |freed.desk.books|
      && done.desk.live == d.live - {o.id} && done.desk.clients == d.clients - {o.owner}
      && (forall b: nat, j: nat :: Pos(done.desk, b, j) == Pos(freed.desk, b, j))
  {
  }

  /** Lowering a total in place. */
  lemma ShrinkKeeps(r: Roster, d: Desk, caps: seq<Cap>, pend: Pending, i: nat, id: u64, total: u64)
    requires Sound(r, d, caps, pend) && pend.lots == 0 && Lookup(BookAt(d, i), id).Some?
    requires Lookup(BookAt(d, i), id).value.filled < total < Lookup(BookAt(d, i), id).value.total
    ensures var o := Lookup(BookAt(d, i), id).value;
      && o.owner.account in r.index
      && var done := Shrink(d, r.index[o.owner.account], i, o, total);
      done.ok && Sound(r, done.desk, caps, pend)
  {
    hide Roomy, Reserved, Keyed, Lookup, Queue, Disjoint, Value, Shifted, Remove, Reduce, ReleaseOrder;
    Registered(r, d, i, id);
    assert Orderly(BookAt(d, i));
    var o := Lookup(BookAt(d, i), id).value;
    var a := r.index[o.owner.account];
    var k := RemoveIsDrop(BookAt(d, i), id);
    var q := BookAt(d, i).Of(o.side);
    var o' := o.(total := total);
    assert Resting(o.side, q) by { QueueRests(BookAt(d, i)); }
    ReleasePositions(r, d, caps, pend, i, o.side, k, a, o.total - total);
    var freed := ReleaseOrder(d, a, i, o.side, o.total - total, o.price);
    var done := Shrink(d, a, i, o, total);
    LookupResize(BookAt(d, i), o.side, k, o', id);
    PutOrderlies(d, done.desk, i);
    ShrinkChange(d, a, i, o, total);
    KeyedKeep(r, d, done.desk, i, o, o');
    ShiftResize(q, k, o');
    ReservedShift(r, d, done.desk, a, i, o.side, q[k := o'], 0 - (o.total - total), o.price);
    RoomFrame(r, freed.desk, done.desk, caps, pend);
  }

  lemma ShrinkChange(d: Desk, a: nat, i: nat, o: Order, total: u64)
    requires i < |d.books| && Orderly(BookAt(d, i)) && Lookup(BookAt(d, i), o.id) == Some(o)
    requires o.filled < total <= o.total
    ensures OneChange(d, Shrink(d, a, i, o, total).desk, i, o.id, Some(o.(total := total)))
  {
    hide Lookup, Queue, Disjoint, Remove, Reduce, ReleaseOrder;
    var k := RemoveIsDrop(BookAt(d, i), o.id);
    ReleaseFrame(d, a, i, o.side, o.total - total, o.price);
    var done, o' := Shrink(d, a, i, o, total), o.(total := total);
    forall x: u64 ensures Lookup(BookAt(done.desk, i), x) == if x == o.id then Some(o') else Lookup(BookAt(d, i), x) {
      LookupResize(BookAt(d, i), o.side, k, o', x);
    }
  }

  /** Reservations never move a position. */
  lemma ReserveLots(d: Desk, a: nat, i: nat, side: Side, lots: u64, price: i64, b: nat, j: nat)
    ensures Pos(ReserveOrder(d, a, i, side, lots, price).desk, b, j).lots == Pos(d, b, j).lots
    ensures Pos(ReleaseOrder(d, a, i, side, lots, price).desk, b, j).lots == Pos(d, b, j).lots
  {
  }

  /** Shrinking an order to what it has filled and then removing it is
      withdrawing it. */
  lemma ShrinkAway(d: Desk, a: nat, i: nat, o: Order)
    requires i < |d.books| && Orderly(BookAt(d, i)) && Lookup(BookAt(d, i), o.id) == Some(o)
    ensures o.filled < o.total
    ensures var shrunk := Shrink(d, a, i, o, o.filled);
      && shrunk.ok == Withdraw(d, a, i, o).ok
      && Forget(PutBook(shrunk.desk, i, Remove(BookAt(shrunk.desk, i), o.id)), o.id, o.owner) == Withdraw(d, a, i, o).desk
  {
    hide Lookup, Queue, Disjoint, ReleaseOrder;
    var b := BookAt(d, i);
    var k := RemoveIsDrop(b, o.id);
    RemoveReduced(b, o.id, o.filled);
    assert ReleaseOrder(d, a, i, o.side, o.Remaining(), o.price).desk.books == d.books by { ReleaseFrame(d, a, i, o.side, o.Remaining(), o.price); }
    ReleaseAround(d, a, i, o.side, o.Remaining(), o.price, Remove(b, o.id));
    var shrunk := Shrink(d, a, i, o, o.filled);
    assert shrunk.desk.books[i := Remove(b, o.id)] == d.books[i := Remove(b, o.id)];
  }

  lemma {:induction false} FindResized(q: seq<Order>, k: nat, o: Order, id: u64)
    requires k < |q| && o.id == q[k].id
    ensures Find(q[k := o], id) == Find(q, id)
  {
    var f, g := Find(q, id), Find(q[k := o], id);
    assert f < |q| ==> q[k := o][f].id == id;
    assert g < |q| ==> q[g].id == id;
  }

  lemma RemoveReduced(b: Book, id: u64, total: u64)
    ensures Remove(Reduce(b, id, total), id) == Remove(b, id)
  {
    hide Find;
    if Find(b.bids, id) < |b.bids| {
      var k := Find(b.bids, id);
      FindResized(b.bids, k, b.bids[k].(total := total), id);
      assert Drop(Resize(b.bids, k, total), k) == Drop(b.bids, k);
    } else if Find(b.asks, id) < |b.asks| {
      var k := Find(b.asks, id);
      FindResized(b.asks, k, b.asks[k].(total := total), id);
      assert Drop(Resize(b.asks, k, total), k) == Drop(b.asks, k);
    }
  }

  lemma ReleaseFrame(d: Desk, a: nat, i: nat, side: Side, lots: u64, price: i64)
    ensures ReleaseOrder(d, a, i, side, lots, price).desk == d.(positions := ReleaseOrder(d, a, i, side, lots, price).desk.positions)
  {
  }

  lemma ReleaseAround(d: Desk, a: nat, i: nat, side: Side, lots: u64, price: i64, b: Book)
    ensures ReleaseOrder(PutBook(d, i, b), a, i, side, lots, price).ok == ReleaseOrder(d, a, i, side, lots, price).ok
    ensures ReleaseOrder(PutBook(d, i, b), a, i, side, lots, price).desk == PutBook(ReleaseOrder(d, a, i, side, lots, price).desk, i, b)
  {
  }
}
