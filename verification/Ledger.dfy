/** The economic state of the engine: books, positions with working-order
    reservations, and the two registries of live orders. */
module Ledger {
  import opened Domain
  import opened PriceTime

  // ---- positions ----------------------------------------------------------

  /** What a reservation counts: lots, or lots times the absolute price. */
  datatype Measure = InLots | InNotional

  function Value(m: Measure, lots: int, price: int): int {
    if m.InLots? then lots else lots * Abs(price)
  }

  datatype Position = Position(
    lots: i64,
    openBuy: u64,
    openSell: u64,
    buyNotional: u128,
    sellNotional: u128)
  {
    function Open(side: Side): u64 {
      if side.Buy? then openBuy else openSell
    }

    function Notional(side: Side): u128 {
      if side.Buy? then buyNotional else sellNotional
    }

    function Booked(m: Measure, side: Side): int {
      if m.InLots? then Open(side) else Notional(side)
    }

    function Worth(): int {
      buyNotional + sellNotional
    }

    function With(side: Side, open: u64, notional: u128): Position {
      if side.Buy? then this.(openBuy := open, buyNotional := notional)
      else this.(openSell := open, sellNotional := notional)
    }
  }

  const Flat := Position(0, 0, 0, 0, 0)

  /** A position after an update that may have overflowed; the source keeps
      whatever it had stored before the overflowing operation. */
  datatype Booking = Booking(position: Position, ok: bool)

  function BookOpen(p: Position, side: Side, open: int, notional: int): Booking {
    if !(0 <= open <= U64_MAX) then Booking(p, false)
    else if !(0 <= notional <= U128_MAX) then Booking(p.With(side, open, p.Notional(side)), false)
    else Booking(p.With(side, open, notional), true)
  }

  function Reserve(p: Position, side: Side, lots: u64, notional: u128): Booking {
    BookOpen(p, side, p.Open(side) + lots, p.Notional(side) + notional)
  }

  function Release(p: Position, side: Side, lots: u64, notional: u128): Booking {
    BookOpen(p, side, p.Open(side) - lots, p.Notional(side) - notional)
  }

  function Signed(side: Side, lots: int): int {
    if side.Buy? then lots else -lots
  }

  function ApplyFill(p: Position, side: Side, lots: u64): Booking {
    if lots <= I64_MAX && ToI64(p.lots + Signed(side, lots)).Some? then
      Booking(p.(lots := p.lots + Signed(side, lots)), true)
    else Booking(p, false)
  }

  // ---- rosters ------------------------------------------------------------

  /** Configured ids with the map from an id to its index. */
  datatype RawRoster = RawRoster(ids: seq<u32>, index: map<u32, nat>)

  ghost predicate Indexes(r: RawRoster) {
    && (forall a :: 0 <= a < |r.ids| ==> r.ids[a] in r.index && r.index[r.ids[a]] == a)
    && (forall id :: id in r.index ==> r.index[id] < |r.ids| && r.ids[r.index[id]] == id)
  }

  type Roster = r: RawRoster | Indexes(r) witness RawRoster([], map[])

  // ---- the desk -----------------------------------------------------------

  datatype LiveOrder = LiveOrder(account: nat, instrument: nat)

  datatype Desk = Desk(
    books: seq<Book>,
    positions: seq<seq<Position>>,
    live: map<u64, LiveOrder>,
    clients: map<Owner, u64>)

  /** The source indexes its vectors; the index is always in range for a desk
      shaped like its configuration, and the fallback values are never used. */
  function BookAt(d: Desk, i: nat): Book {
    if i < |d.books| then d.books[i] else EmptyBook
  }

  function PutBook(d: Desk, i: nat, b: Book): (r: Desk)
    ensures r == d.(books := r.books) && |r.books| == |d.books|
    ensures i < |d.books| ==> BookAt(r, i) == b
    ensures forall j: nat :: j != i ==> BookAt(r, j) == BookAt(d, j)
  {
    if i < |d.books| then d.(books := d.books[i := b]) else d
  }

  function Pos(d: Desk, a: nat, i: nat): Position {
    if a < |d.positions| && i < |d.positions[a]| then d.positions[a][i] else Flat
  }

  function PutPos(d: Desk, a: nat, i: nat, p: Position): (r: Desk)
    ensures r == d.(positions := r.positions)
    ensures |r.positions| == |d.positions|
    ensures forall b :: 0 <= b < |d.positions| ==> |r.positions[b]| == |d.positions[b]|
    ensures a < |d.positions| && i < |d.positions[a]| ==> Pos(r, a, i) == p
    ensures forall b: nat, j: nat :: b != a || j != i ==> Pos(r, b, j) == Pos(d, b, j)
  {
    if a < |d.positions| && i < |d.positions[a]| then
      d.(positions := d.positions[a := d.positions[a][i := p]])
    else d
  }

  /** A desk after an operation, and whether its arithmetic stayed in range. */
  datatype Done = Done(desk: Desk, ok: bool)

  function ReserveOrder(d: Desk, a: nat, i: nat, side: Side, lots: u64, price: i64): Done {
    match CheckedNotional(lots, price)
    case None => Done(d, false)
    case Some(n) =>
      var b := Reserve(Pos(d, a, i), side, lots, n);
      Done(PutPos(d, a, i, b.position), b.ok)
  }

  function ReleaseOrder(d: Desk, a: nat, i: nat, side: Side, lots: u64, price: i64): Done {
    if lots == 0 then Done(d, true)
    else match CheckedNotional(lots, price)
      case None => Done(d, false)
      case Some(n) =>
        var b := Release(Pos(d, a, i), side, lots, n);
        Done(PutPos(d, a, i, b.position), b.ok)
  }

  function MovePosition(d: Desk, a: nat, i: nat, side: Side, lots: u64): Done {
    var b := ApplyFill(Pos(d, a, i), side, lots);
    Done(PutPos(d, a, i, b.position), b.ok)
  }

  /** The maker's half of a fill: its reservation shrinks and it trades. */
  function SettleMaker(d: Desk, maker: nat, i: nat, side: Side, f: Fill): Done {
    var freed := ReleaseOrder(d, maker, i, side, f.quantity, f.price);
    var moved := MovePosition(freed.desk, maker, i, side, f.quantity);
    Done(moved.desk, freed.ok && moved.ok)
  }

  function Forget(d: Desk, id: u64, owner: Owner): Desk {
    d.(live := d.live - {id}, clients := d.clients - {owner})
  }

  /** Both halves of a fill, and the registries when the maker is done. */
  function SettleFill(d: Desk, maker: nat, taker: nat, i: nat, side: Side, f: Fill): Done {
    var made := SettleMaker(d, maker, i, side.Opposite(), f);
    var taken := MovePosition(made.desk, taker, i, side, f.quantity);
    Done(if f.makerRemaining == 0 then Forget(taken.desk, f.makerId, f.owner) else taken.desk, made.ok && taken.ok)
  }

  /** Puts an admitted order on the book, reserves for it and registers it. */
  function Rest(d: Desk, a: nat, i: nat, o: Order): Done
    requires o.filled <= o.total
  {
    var placed := PutBook(d, i, Insert(BookAt(d, i), o));
    var booked := ReserveOrder(placed, a, i, o.side, o.Remaining(), o.price);
    Done(booked.desk.(live := booked.desk.live[o.id := LiveOrder(a, i)],
                      clients := booked.desk.clients[o.owner := o.id]), booked.ok)
  }

  /** Takes an order off the book, releases what it reserved, unregisters it. */
  function Withdraw(d: Desk, a: nat, i: nat, o: Order): Done
    requires o.filled <= o.total
  {
    var freed := ReleaseOrder(PutBook(d, i, Remove(BookAt(d, i), o.id)), a, i, o.side, o.Remaining(), o.price);
    Done(Forget(freed.desk, o.id, o.owner), freed.ok)
  }

  /** Lowers the total of a resting order in place. */
  function Shrink(d: Desk, a: nat, i: nat, o: Order, total: u64): Done
    requires total <= o.total
  {
    var freed := ReleaseOrder(d, a, i, o.side, o.total - total, o.price);
    Done(PutBook(freed.desk, i, Reduce(BookAt(freed.desk, i), o.id, total)), freed.ok)
  }
}
