/** The book as a specification: each side is one list of resting orders in
    execution order, best price first and earliest priority first within a
    price. Inserting, removing, shrinking and matching are defined on that list. */
module PriceTime {
  import opened Domain

  datatype Owner = Owner(account: u32, client: u64)

  datatype Order = Order(
    id: u64,
    owner: Owner,
    side: Side,
    price: i64,
    total: u64,
    filled: u64,
    priority: u64)
  {
    function Remaining(): int {
      total - filled
    }
  }

  /** A fill of one resting order, with that order's figures after the fill. */
  datatype Fill = Fill(
    makerId: u64,
    owner: Owner,
    price: i64,
    quantity: u64,
    makerTotal: u64,
    makerCumulative: u64,
    makerRemaining: u64)

  /** Smaller is better for a resting order of `side`. */
  function Rank(side: Side, price: int): int {
    if side.Buy? then -price else price
  }

  /** A resting `price` on `side` is acceptable to a taker bounded by `limit`. */
  predicate Eligible(side: Side, price: int, limit: int) {
    Rank(side, price) <= Rank(side, limit)
  }

  ghost predicate Ahead(side: Side, a: Order, b: Order) {
    Rank(side, a.price) < Rank(side, b.price) || (a.price == b.price && a.priority < b.priority)
  }

  ghost predicate Ordered(side: Side, q: seq<Order>) {
    forall i, j :: 0 <= i < j < |q| ==> Ahead(side, q[i], q[j])
  }

  ghost predicate Unique(q: seq<Order>) {
    forall i, j :: 0 <= i < j < |q| ==> q[i].id != q[j].id
  }

  /** Every order of the list rests on this side with something left to fill. */
  ghost predicate Resting(side: Side, q: seq<Order>) {
    forall i :: 0 <= i < |q| ==> q[i].side == side && q[i].filled < q[i].total
  }

  ghost predicate Queue(side: Side, q: seq<Order>) {
    Resting(side, q) && Ordered(side, q) && Unique(q)
  }

  // ---- list operations ----------------------------------------------------

  /** Where a new order joins: behind every order priced at least as well. */
  function Place(q: seq<Order>, side: Side, price: int): (k: nat)
    ensures k <= |q|
    ensures forall i :: 0 <= i < k ==> Rank(side, q[i].price) <= Rank(side, price)
    ensures k < |q| ==> Rank(side, q[k].price) > Rank(side, price)
  {
    if q != [] && Rank(side, q[0].price) <= Rank(side, price) then
      var k := Place(q[1..], side, price);
      assert forall i :: 0 < i < k + 1 ==> q[i] == q[1..][i - 1];
      k + 1
    else 0
  }

  function InsertAt<T>(s: seq<T>, k: nat, x: T): (r: seq<T>)
    requires k <= |s|
    ensures |r| == |s| + 1 && r[k] == x
    ensures forall i :: 0 <= i < k ==> r[i] == s[i]
    ensures forall i :: k < i < |r| ==> r[i] == s[i - 1]
  {
    s[..k] + [x] + s[k..]
  }

  function Drop<T>(s: seq<T>, k: nat): (r: seq<T>)
    requires k < |s|
    ensures |r| == |s| - 1
    ensures forall i :: 0 <= i < k ==> r[i] == s[i]
    ensures forall i :: k <= i < |r| ==> r[i] == s[i + 1]
  {
    s[..k] + s[k + 1..]
  }

  function Enqueue(q: seq<Order>, o: Order): (r: seq<Order>) {
    InsertAt(q, Place(q, o.side, o.price), o)
  }

  /** Position of the order with this id, or the length when there is none. */
  function Find(q: seq<Order>, id: u64): (k: nat)
    ensures k <= |q|
    ensures k < |q| ==> q[k].id == id
    ensures forall i :: 0 <= i < k ==> q[i].id != id
  {
    if q == [] || q[0].id == id then 0
    else
      var k := Find(q[1..], id);
      assert forall i :: 0 < i < k + 1 ==> q[i] == q[1..][i - 1];
      k + 1
  }

  function FillOf(o: Order, traded: u64): Fill
    requires traded <= o.Remaining()
  {
    Fill(o.id, o.owner, o.price, traded, o.total, o.filled + traded, o.Remaining() - traded)
  }

  /** The list after its first order traded; a fully filled order leaves. */
  function FillHead(q: seq<Order>, traded: u64): (r: seq<Order>)
    requires q != [] && traded <= q[0].Remaining()
  {
    if traded == q[0].Remaining() then q[1..]
    else q[0 := q[0].(filled := q[0].filled + traded)]
  }

  datatype Matched = Matched(fills: seq<Fill>, rest: seq<Order>)

  /** Price-time matching: take whole orders off the front while they are
      eligible and still needed, then part of the next one. */
  function Match(side: Side, q: seq<Order>, limit: i64, quantity: u64): (m: Matched)
    requires Resting(side, q)
  {
    if quantity == 0 || q == [] || !Eligible(side, q[0].price, limit) then Matched([], q)
    else if quantity < q[0].Remaining() then Matched([FillOf(q[0], quantity)], FillHead(q, quantity))
    else
      var m := Match(side, q[1..], limit, quantity - q[0].Remaining());
      Matched([FillOf(q[0], q[0].Remaining())] + m.fills, m.rest)
  }

  // ---- sums over a list ---------------------------------------------------

  function Sum(q: seq<Order>, w: Order -> int): int {
    if q == [] then 0 else w(q[0]) + Sum(q[1..], w)
  }

  function Lots(fills: seq<Fill>): (n: nat) {
    if fills == [] then 0 else fills[0].quantity + Lots(fills[1..])
  }

  /** Remaining quantity at one price. */
  function AtPrice(price: int): Order -> int {
    (o: Order) => if o.price == price then o.Remaining() else 0
  }

  function CountAt(price: int): Order -> int {
    (o: Order) => if o.price == price then 1 else 0
  }

  /** Remaining quantity a taker bounded by `limit` may reach. */
  function Reachable(side: Side, limit: int): Order -> int {
    (o: Order) => if Eligible(side, o.price, limit) then o.Remaining() else 0
  }

  lemma {:induction false} SumConcat(a: seq<Order>, b: seq<Order>, w: Order -> int)
    ensures Sum(a + b, w) == Sum(a, w) + Sum(b, w)
  {
    if a == [] {
      assert a + b == b;
    } else {
      assert (a + b)[1..] == a[1..] + b;
      SumConcat(a[1..], b, w);
    }
  }

  lemma SumSplit(q: seq<Order>, k: nat, w: Order -> int)
    requires k < |q|
    ensures Sum(q, w) == Sum(q[..k], w) + w(q[k]) + Sum(q[k + 1..], w)
  {
    assert q == q[..k] + q[k..];
    assert q[k..][1..] == q[k + 1..];
    SumConcat(q[..k], q[k..], w);
  }

  lemma SumDrop(q: seq<Order>, k: nat, w: Order -> int)
    requires k < |q|
    ensures Sum(Drop(q, k), w) == Sum(q, w) - w(q[k])
  {
    SumSplit(q, k, w);
    SumConcat(q[..k], q[k + 1..], w);
  }

  lemma SumReplace(q: seq<Order>, k: nat, o: Order, w: Order -> int)
    requires k < |q|
    ensures Sum(q[k := o], w) == Sum(q, w) - w(q[k]) + w(o)
  {
    SumSplit(q, k, w);
    var r := q[k := o];
    SumSplit(r, k, w);
    assert r[..k] == q[..k] && r[k + 1..] == q[k + 1..];
  }

  lemma SumInsertAt(q: seq<Order>, k: nat, o: Order, w: Order -> int)
    requires k <= |q|
    ensures Sum(InsertAt(q, k, o), w) == Sum(q, w) + w(o)
  {
    SumConcat(q[..k] + [o], q[k..], w);
    SumConcat(q[..k], [o], w);
    assert q == q[..k] + q[k..];
    SumConcat(q[..k], q[k..], w);
  }

  lemma {:induction false} SumNonNegative(q: seq<Order>, w: Order -> int)
    requires forall i :: 0 <= i < |q| ==> w(q[i]) >= 0
    ensures Sum(q, w) >= 0
    ensures forall i :: 0 <= i < |q| ==> w(q[i]) <= Sum(q, w)
  {
    if q != [] {
      forall i | 0 <= i < |q[1..]| ensures w(q[1..][i]) >= 0 {
        assert q[1..][i] == q[i + 1];
      }
      SumNonNegative(q[1..], w);
      forall i | 0 <= i < |q| ensures w(q[i]) <= Sum(q, w) {
        if i > 0 {
          assert q[1..][i - 1] == q[i];
        }
      }
    }
  }

  lemma {:induction false} SumZero(q: seq<Order>, w: Order -> int)
    requires forall i :: 0 <= i < |q| ==> w(q[i]) == 0
    ensures Sum(q, w) == 0
  {
    if q != [] {
      forall i | 0 <= i < |q[1..]| ensures w(q[1..][i]) == 0 {
        assert q[1..][i] == q[i + 1];
      }
      SumZero(q[1..], w);
    }
  }

  // ---- the operations keep the list a queue -------------------------------

  /** Joining behind equals keeps price-time order as long as the priority is
      newer than everything resting. */
  lemma EnqueueKeepsQueue(q: seq<Order>, o: Order)
    requires Queue(o.side, q)
    requires o.filled < o.total
    requires forall i :: 0 <= i < |q| ==> q[i].id != o.id && q[i].priority < o.priority
    ensures Queue(o.side, Enqueue(q, o))
  {
    var k := Place(q, o.side, o.price);
    var r := Enqueue(q, o);
    forall i, j | 0 <= i < j < |r| ensures Ahead(o.side, r[i], r[j]) && r[i].id != r[j].id {
      var i' := if i < k then i else i - 1;
      var j' := if j < k then j else j - 1;
      if i == k {
        assert r[j] == q[j'];
        if k < j' { assert Ahead(o.side, q[k], q[j']); }
      } else if j == k {
        assert r[i] == q[i'];
      } else {
        assert r[i] == q[i'] && r[j] == q[j'];
        assert Ahead(o.side, q[i'], q[j']);
      }
    }
  }

  lemma DropKeepsQueue(side: Side, q: seq<Order>, k: nat)
    requires Queue(side, q) && k < |q|
    ensures Queue(side, Drop(q, k))
  {
    var r := Drop(q, k);
    forall i, j | 0 <= i < j < |r| ensures Ahead(side, r[i], r[j]) && r[i].id != r[j].id {
      var i' := if i < k then i else i + 1;
      var j' := if j < k then j else j + 1;
      assert r[i] == q[i'] && r[j] == q[j'];
      assert Ahead(side, q[i'], q[j']);
    }
  }

  /** Changing only the quantities of an order keeps its place. */
  lemma ResizeKeepsQueue(side: Side, q: seq<Order>, k: nat, o: Order)
    requires Queue(side, q) && k < |q|
    requires o.filled < o.total
    requires o == q[k].(total := o.total, filled := o.filled)
    ensures Queue(side, q[k := o])
  {
    var r := q[k := o];
    forall i, j | 0 <= i < j < |r| ensures Ahead(side, r[i], r[j]) && r[i].id != r[j].id {
      assert Ahead(side, q[i], q[j]);
    }
  }

  lemma FillHeadKeepsQueue(side: Side, q: seq<Order>, traded: u64)
    requires Queue(side, q) && q != [] && traded <= q[0].Remaining()
    ensures Queue(side, FillHead(q, traded))
  {
    if traded == q[0].Remaining() {
      var r := q[1..];
      assert r == Drop(q, 0);
      DropKeepsQueue(side, q, 0);
    } else {
      ResizeKeepsQueue(side, q, 0, q[0].(filled := q[0].filled + traded));
    }
  }

  // ---- what matching computes ---------------------------------------------

  /** What one order leaves behind after trading. */
  function LeftOf(o: Order, traded: u64): (r: seq<Order>)
    ensures |r| <= 1
  {
    if 0 <= traded < o.Remaining() then [o.(filled := o.filled + traded)] else []
  }

  /** Matching consumes a prefix of the list, in list order: the i-th fill is
      with the i-th order at that order's price, every fill but the last takes
      everything its order had left, and the orders behind are untouched. */
  ghost predicate ConsumesPrefix(q: seq<Order>, m: Matched) {
    var n := |m.fills|;
    && n <= |q|
    && (forall i :: 0 <= i < n ==>
          && 0 < m.fills[i].quantity <= q[i].Remaining()
          && m.fills[i] == FillOf(q[i], m.fills[i].quantity))
    && (forall i :: 0 <= i < n - 1 ==> m.fills[i].quantity == q[i].Remaining())
    && m.rest == (if n == 0 then q else LeftOf(q[n - 1], m.fills[n - 1].quantity) + q[n..])
  }

  lemma {:induction false} FillAt(side: Side, q: seq<Order>, limit: i64, quantity: u64, i: nat)
    requires Resting(side, q)
    requires i < |Match(side, q, limit, quantity).fills|
    ensures var f := Match(side, q, limit, quantity).fills;
      && i < |q|
      && 0 < f[i].quantity <= q[i].Remaining()
      && f[i] == FillOf(q[i], f[i].quantity)
      && (i < |f| - 1 ==> f[i].quantity == q[i].Remaining())
  {
    if i > 0 {
      FillAt(side, q[1..], limit, quantity - q[0].Remaining(), i - 1);
    }
  }

  lemma {:induction false} RestAfter(side: Side, q: seq<Order>, limit: i64, quantity: u64)
    requires Resting(side, q)
    ensures var m := Match(side, q, limit, quantity);
      var n := |m.fills|;
      && n <= |q|
      && m.rest == if n == 0 then q else LeftOf(q[n - 1], m.fills[n - 1].quantity) + q[n..]
  {
    if quantity == 0 || q == [] || !Eligible(side, q[0].price, limit) {
    } else if quantity < q[0].Remaining() {
      assert FillHead(q, quantity) == LeftOf(q[0], quantity) + q[1..];
    } else {
      var m1 := Match(side, q[1..], limit, quantity - q[0].Remaining());
      var n := |m1.fills|;
      RestAfter(side, q[1..], limit, quantity - q[0].Remaining());
      var m := Match(side, q, limit, quantity);
      assert m.rest == m1.rest && |m.fills| == n + 1;
      if n == 0 {
        assert m.rest == LeftOf(q[0], q[0].Remaining()) + q[1..];
      } else {
        assert m.fills[n] == m1.fills[n - 1];
        assert q[1..][n..] == q[n + 1..];
      }
    }
  }

  lemma MatchConsumesPrefix(side: Side, q: seq<Order>, limit: i64, quantity: u64)
    requires Resting(side, q)
    ensures ConsumesPrefix(q, Match(side, q, limit, quantity))
  {
    var m := Match(side, q, limit, quantity);
    RestAfter(side, q, limit, quantity);
    forall i | 0 <= i < |m.fills|
      ensures 0 < m.fills[i].quantity <= q[i].Remaining()
      ensures m.fills[i] == FillOf(q[i], m.fills[i].quantity)
      ensures i < |m.fills| - 1 ==> m.fills[i].quantity == q[i].Remaining()
    {
      FillAt(side, q, limit, quantity, i);
    }
  }

  /** Matching is one trade with the head followed by matching the remainder
      against the list that trade leaves. */
  lemma MatchStep(side: Side, q: seq<Order>, limit: i64, quantity: u64)
    requires Resting(side, q)
    requires quantity > 0 && q != [] && Eligible(side, q[0].price, limit)
    ensures var traded := Min(quantity, q[0].Remaining());
      && Resting(side, FillHead(q, traded))
      && var m := Match(side, FillHead(q, traded), limit, quantity - traded);
         Match(side, q, limit, quantity) == Matched([FillOf(q[0], traded)] + m.fills, m.rest)
  {
  }

  lemma TailIsQueue(side: Side, q: seq<Order>)
    requires Queue(side, q) && q != []
    ensures Queue(side, q[1..])
  {
    assert q[1..] == Drop(q, 0);
    DropKeepsQueue(side, q, 0);
  }

  /** The taker gets the smaller of what it asked for and what it may reach. */
  lemma {:induction false} MatchFillsAllReachable(side: Side, q: seq<Order>, limit: i64, quantity: u64)
    requires Queue(side, q)
    ensures Lots(Match(side, q, limit, quantity).fills)
         == Min(quantity, Sum(q, Reachable(side, limit)))
  {
    var w := Reachable(side, limit);
    SumNonNegative(q, w);
    if quantity == 0 || q == [] {
    } else if !Eligible(side, q[0].price, limit) {
      forall i | 0 <= i < |q| ensures w(q[i]) == 0 {
        if i > 0 { assert Ahead(side, q[0], q[i]); }
      }
      SumZero(q, w);
    } else if quantity >= q[0].Remaining() {
      TailIsQueue(side, q);
      MatchFillsAllReachable(side, q[1..], limit, quantity - q[0].Remaining());
      SumNonNegative(q[1..], w);
    }
  }

  /** No fill is at a price the taker did not accept, and when the taker is
      left with a remainder nothing acceptable is left resting. */
  lemma {:induction false} MatchRespectsLimit(side: Side, q: seq<Order>, limit: i64, quantity: u64)
    requires Queue(side, q)
    ensures var m := Match(side, q, limit, quantity);
      && (forall i :: 0 <= i < |m.fills| ==> Eligible(side, m.fills[i].price, limit))
      && Lots(m.fills) <= quantity
      && (Lots(m.fills) < quantity ==>
            forall i :: 0 <= i < |m.rest| ==> !Eligible(side, m.rest[i].price, limit))
  {
    if quantity == 0 || q == [] {
    } else if !Eligible(side, q[0].price, limit) {
      forall i | 0 <= i < |q| ensures !Eligible(side, q[i].price, limit) {
        if i > 0 { assert Ahead(side, q[0], q[i]); }
      }
    } else if quantity >= q[0].Remaining() {
      TailIsQueue(side, q);
      MatchRespectsLimit(side, q[1..], limit, quantity - q[0].Remaining());
    }
  }

  lemma {:induction false} MatchKeepsQueue(side: Side, q: seq<Order>, limit: i64, quantity: u64)
    requires Queue(side, q)
    ensures Queue(side, Match(side, q, limit, quantity).rest)
  {
    if quantity != 0 && q != [] && Eligible(side, q[0].price, limit) {
      if quantity < q[0].Remaining() {
        FillHeadKeepsQueue(side, q, quantity);
      } else {
        TailIsQueue(side, q);
        MatchKeepsQueue(side, q[1..], limit, quantity - q[0].Remaining());
      }
    }
  }

  /** Strict price-time priority of the executions themselves. */
  lemma MatchIsPriceTime(side: Side, q: seq<Order>, limit: i64, quantity: u64, i: nat, j: nat)
    requires Queue(side, q)
    requires i < j < |Match(side, q, limit, quantity).fills|
    ensures var f := Match(side, q, limit, quantity).fills;
      && j < |q|
      && f[i].makerId == q[i].id && f[j].makerId == q[j].id
      && (Rank(side, f[i].price) < Rank(side, f[j].price)
          || (f[i].price == f[j].price && q[i].priority < q[j].priority))
      && f[i].makerRemaining == 0
  {
    FillAt(side, q, limit, quantity, i);
    FillAt(side, q, limit, quantity, j);
    assert Ahead(side, q[i], q[j]);
  }

  // ---- both sides ---------------------------------------------------------

  datatype Book = Book(bids: seq<Order>, asks: seq<Order>) {
    function Of(side: Side): seq<Order> {
      if side.Buy? then bids else asks
    }

    function With(side: Side, q: seq<Order>): Book {
      if side.Buy? then Book(q, asks) else Book(bids, q)
    }

    function Size(): nat {
      |bids| + |asks|
    }
  }

  const EmptyBook := Book([], [])

  /** The order with this id, on whichever side it rests. */
  function Lookup(b: Book, id: u64): (r: Option<Order>)
    ensures r.Some? ==> r.value.id == id && (r.value in b.bids || r.value in b.asks)
  {
    if Find(b.bids, id) < |b.bids| then Some(b.bids[Find(b.bids, id)])
    else if Find(b.asks, id) < |b.asks| then Some(b.asks[Find(b.asks, id)])
    else None
  }

  /** Room for one more order under the source's capacity, u64 and u32 limits. */
  predicate Admits(b: Book, o: Order, capacity: nat) {
    && b.Size() < capacity
    && o.filled <= o.total
    && Sum(b.Of(o.side), AtPrice(o.price)) + o.Remaining() <= U64_MAX
    && Sum(b.Of(o.side), CountAt(o.price)) + 1 <= U32_MAX
  }

  function Insert(b: Book, o: Order): Book {
    b.With(o.side, Enqueue(b.Of(o.side), o))
  }

  function Remove(b: Book, id: u64): Book {
    if Find(b.bids, id) < |b.bids| then Book(Drop(b.bids, Find(b.bids, id)), b.asks)
    else if Find(b.asks, id) < |b.asks| then Book(b.bids, Drop(b.asks, Find(b.asks, id)))
    else b
  }

  function Resize(q: seq<Order>, k: nat, total: u64): seq<Order>
    requires k < |q|
  {
    q[k := q[k].(total := total)]
  }

  function Reduce(b: Book, id: u64, total: u64): Book {
    if Find(b.bids, id) < |b.bids| then Book(Resize(b.bids, Find(b.bids, id), total), b.asks)
    else if Find(b.asks, id) < |b.asks| then Book(b.bids, Resize(b.asks, Find(b.asks, id), total))
    else b
  }

  ghost predicate Disjoint(a: seq<Order>, b: seq<Order>) {
    forall i, j :: 0 <= i < |a| && 0 <= j < |b| ==> a[i].id != b[j].id
  }

  /** Both lists are price-time queues and no id rests twice. */
  ghost predicate Orderly(b: Book) {
    Queue(Buy, b.bids) && Queue(Sell, b.asks) && Disjoint(b.bids, b.asks)
  }

  ghost predicate Uncrossed(b: Book) {
    forall i, j :: 0 <= i < |b.bids| && 0 <= j < |b.asks| ==> b.bids[i].price < b.asks[j].price
  }

  ghost predicate Fresh(q: seq<Order>, id: u64, priority: u64) {
    forall i :: 0 <= i < |q| ==> q[i].id != id && q[i].priority < priority
  }

  lemma AbsentId(b: Book, id: u64)
    requires Lookup(b, id).None?
    ensures forall i :: 0 <= i < |b.bids| ==> b.bids[i].id != id
    ensures forall i :: 0 <= i < |b.asks| ==> b.asks[i].id != id
  {
  }

  lemma InsertOrderly(b: Book, o: Order)
    requires Orderly(b) && o.filled < o.total
    requires Fresh(b.Of(o.side), o.id, o.priority) && Lookup(b, o.id).None?
    ensures Orderly(Insert(b, o))
  {
    AbsentId(b, o.id);
    EnqueueKeepsQueue(b.Of(o.side), o);
    var k := Place(b.Of(o.side), o.side, o.price);
    var q' := Enqueue(b.Of(o.side), o);
    var other := b.Of(o.side.Opposite());
    forall i, j | 0 <= i < |q'| && 0 <= j < |other| ensures q'[i].id != other[j].id {
      if i < k {
        assert q'[i] == b.Of(o.side)[i];
      } else if i > k {
        assert q'[i] == b.Of(o.side)[i - 1];
      }
    }
  }

  lemma DropOrderly(b: Book, side: Side, k: nat)
    requires Orderly(b) && k < |b.Of(side)|
    ensures Orderly(b.With(side, Drop(b.Of(side), k)))
  {
    DropKeepsQueue(side, b.Of(side), k);
  }

  lemma ResizeOrderly(b: Book, side: Side, k: nat, o: Order)
    requires Orderly(b) && k < |b.Of(side)| && o.filled < o.total
    requires o == b.Of(side)[k].(total := o.total, filled := o.filled)
    ensures Orderly(b.With(side, b.Of(side)[k := o]))
  {
    ResizeKeepsQueue(side, b.Of(side), k, o);
  }

  lemma FillOrderly(b: Book, side: Side, traded: u64)
    requires Orderly(b) && b.Of(side) != [] && traded <= b.Of(side)[0].Remaining()
    ensures Orderly(b.With(side, FillHead(b.Of(side), traded)))
  {
    hide Orderly;
    var q := b.Of(side);
    if traded == q[0].Remaining() {
      assert FillHead(q, traded) == Drop(q, 0);
      DropOrderly(b, side, 0);
    } else {
      assert q[0].filled < q[0].total by { OrderlyRests(b, side); }
      ResizeOrderly(b, side, 0, q[0].(filled := q[0].filled + traded));
    }
  }

  lemma OrderlyRests(b: Book, side: Side)
    requires Orderly(b)
    ensures Resting(side, b.Of(side))
  {
  }

  // ---- the book as a map from ids -----------------------------------------

  lemma FindAt(q: seq<Order>, k: nat)
    requires Unique(q) && k < |q|
    ensures Find(q, q[k].id) == k
  {
    hide Find;
    assert Find(q, q[k].id) >= k;
  }

  lemma LookupAt(b: Book, side: Side, k: nat)
    requires Orderly(b) && k < |b.Of(side)|
    ensures Lookup(b, b.Of(side)[k].id) == Some(b.Of(side)[k])
  {
    hide Find, Ordered, Resting;
    FindAt(b.Of(side), k);
    assert Find(b.Of(side.Opposite()), b.Of(side)[k].id) == |b.Of(side.Opposite())|;
  }

  /** Where a looked-up order rests. */
  lemma LookupWhere(b: Book, id: u64) returns (k: nat)
    requires Orderly(b) && Lookup(b, id).Some?
    ensures var o := Lookup(b, id).value;
      && k < |b.Of(o.side)| && b.Of(o.side)[k] == o && Find(b.Of(o.side), id) == k
      && Find(b.Of(o.side.Opposite()), id) == |b.Of(o.side.Opposite())|
      && o.id == id && o.filled < o.total
  {
    hide Find, Ordered, Unique;
    k := if Find(b.bids, id) < |b.bids| then Find(b.bids, id) else Find(b.asks, id);
    assert Find(b.bids, id) == |b.bids| || Find(b.asks, id) == |b.asks|;
  }

  /** Two orderly books that hold the same orders, up to one id, look the same
      up to that id. */
  lemma LookupSame(b: Book, c: Book, id: u64)
    requires Orderly(b) && Orderly(c)
    requires forall side, i :: 0 <= i < |b.Of(side)| && b.Of(side)[i].id == id ==> b.Of(side)[i] in c.Of(side)
    requires forall side, i :: 0 <= i < |c.Of(side)| && c.Of(side)[i].id == id ==> c.Of(side)[i] in b.Of(side)
    ensures Lookup(b, id) == Lookup(c, id)
  {
    hide Queue, Disjoint, Lookup, Find;
    if Lookup(b, id).Some? {
      var k := LookupWhere(b, id);
      var o := Lookup(b, id).value;
      assert o in c.Of(o.side);
      var j :| 0 <= j < |c.Of(o.side)| && c.Of(o.side)[j] == o;
      LookupAt(c, o.side, j);
    } else if Lookup(c, id).Some? {
      var k := LookupWhere(c, id);
      var o := Lookup(c, id).value;
      assert o in b.Of(o.side);
      var j :| 0 <= j < |b.Of(o.side)| && b.Of(o.side)[j] == o;
      LookupAt(b, o.side, j);
    }
  }

  lemma LookupInsert(b: Book, o: Order, id: u64)
    requires Orderly(b) && o.filled < o.total
    requires Fresh(b.Of(o.side), o.id, o.priority) && Lookup(b, o.id).None?
    ensures Orderly(Insert(b, o))
    ensures Lookup(Insert(b, o), id) == if id == o.id then Some(o) else Lookup(b, id)
  {
    hide Orderly, Fresh, Lookup, Place;
    InsertOrderly(b, o);
    var q, k := b.Of(o.side), Place(b.Of(o.side), o.side, o.price);
    var c := Insert(b, o);
    var q' := c.Of(o.side);
    if id == o.id {
      LookupAt(c, o.side, k);
    } else {
      forall i | 0 <= i < |q| ensures q[i] in q' {
        assert q'[if i < k then i else i + 1] == q[i];
      }
      forall i | 0 <= i < |q'| && q'[i].id == id ensures q'[i] in q {
        assert q'[i] == q[if i < k then i else i - 1];
      }
      LookupSame(b, c, id);
    }
  }

  lemma LookupDrop(b: Book, side: Side, k: nat, id: u64)
    requires Orderly(b) && k < |b.Of(side)|
    ensures var c := b.With(side, Drop(b.Of(side), k));
      && Orderly(c)
      && Lookup(c, id) == if id == b.Of(side)[k].id then None else Lookup(b, id)
  {
    hide Find, Ordered, Resting;
    DropOrderly(b, side, k);
    var q := b.Of(side);
    var c := b.With(side, Drop(q, k));
    var q' := c.Of(side);
    forall i | 0 <= i < |q'| ensures q'[i] in q && q'[i].id != q[k].id {
      assert q'[i] == q[if i < k then i else i + 1];
    }
    if id == q[k].id {
      assert Find(c.Of(side.Opposite()), id) == |c.Of(side.Opposite())|;
    } else {
      forall i | 0 <= i < |q| && q[i].id == id ensures q[i] in q' {
        assert q'[if i < k then i else i - 1] == q[i];
      }
      LookupSame(b, c, id);
    }
  }

  lemma LookupResize(b: Book, side: Side, k: nat, o: Order, id: u64)
    requires Orderly(b) && k < |b.Of(side)| && o.filled < o.total
    requires o == b.Of(side)[k].(total := o.total, filled := o.filled)
    ensures var c := b.With(side, b.Of(side)[k := o]);
      && Orderly(c)
      && Lookup(c, id) == if id == o.id then Some(o) else Lookup(b, id)
  {
    hide Orderly, Lookup;
    ResizeOrderly(b, side, k, o);
    var q := b.Of(side);
    var c := b.With(side, q[k := o]);
    var q' := c.Of(side);
    if id == o.id {
      LookupAt(c, side, k);
    } else {
      forall i | 0 <= i < |q| && q[i].id == id ensures q[i] in q' && q'[i] in q {
        assert q'[i] == q[i];
      }
      LookupSame(b, c, id);
    }
  }

  lemma LookupFill(b: Book, side: Side, traded: u64, id: u64)
    requires Orderly(b) && b.Of(side) != [] && traded <= b.Of(side)[0].Remaining()
    ensures var q := b.Of(side);
      var c := b.With(side, FillHead(q, traded));
      && Orderly(c)
      && Lookup(c, id) == (if id != q[0].id then Lookup(b, id)
                           else if traded == q[0].Remaining() then None
                           else Some(q[0].(filled := q[0].filled + traded)))
  {
    hide Orderly, Lookup;
    if traded == b.Of(side)[0].Remaining() {
      assert FillHead(b.Of(side), traded) == Drop(b.Of(side), 0);
      LookupDrop(b, side, 0, id);
    } else {
      LookupResize(b, side, 0, b.Of(side)[0].(filled := b.Of(side)[0].filled + traded), id);
    }
  }

  /** Removal and shrinking act at the place of the looked-up order. */
  lemma RemoveIsDrop(b: Book, id: u64) returns (k: nat)
    requires Orderly(b) && Lookup(b, id).Some?
    ensures var o := Lookup(b, id).value;
      && k < |b.Of(o.side)| && b.Of(o.side)[k] == o && o.id == id && o.filled < o.total
      && Remove(b, id) == b.With(o.side, Drop(b.Of(o.side), k))
      && forall t: u64 :: Reduce(b, id, t) == b.With(o.side, b.Of(o.side)[k := o.(total := t)])
  {
    hide Find, Queue, Disjoint;
    k := LookupWhere(b, id);
  }

  /** Whatever matching leaves resting was resting before, at the same price. */
  lemma RestPrices(side: Side, q: seq<Order>, limit: i64, quantity: u64, i: nat) returns (k: nat)
    requires Resting(side, q)
    requires i < |Match(side, q, limit, quantity).rest|
    ensures k < |q|
    ensures Match(side, q, limit, quantity).rest[i] == q[k].(filled := Match(side, q, limit, quantity).rest[i].filled)
  {
    hide Match, Resting;
    RestAfter(side, q, limit, quantity);
    k := |q| - |Match(side, q, limit, quantity).rest| + i;
  }

  /** A matched remainder never rests across the spread: after matching up to
      the limit, an order resting at that limit keeps the book uncrossed. */
  lemma RestingRemainderKeepsUncrossed(b: Book, o: Order, quantity: u64)
    requires Orderly(b) && Uncrossed(b)
    requires Lots(Match(o.side.Opposite(), b.Of(o.side.Opposite()), o.price, quantity).fills) < quantity
    ensures Uncrossed(Insert(b.With(o.side.Opposite(),
                                    Match(o.side.Opposite(), b.Of(o.side.Opposite()), o.price, quantity).rest), o))
  {
    var maker := o.side.Opposite();
    var rest := Match(maker, b.Of(maker), o.price, quantity).rest;
    MatchRespectsLimit(maker, b.Of(maker), o.price, quantity);
    MatchKeepsUncrossed(b, maker, o.price, quantity);
    InsertKeepsUncrossed(b.With(maker, rest), o);
  }

  lemma MatchKeepsUncrossed(b: Book, maker: Side, limit: i64, quantity: u64)
    requires Orderly(b) && Uncrossed(b)
    ensures Uncrossed(b.With(maker, Match(maker, b.Of(maker), limit, quantity).rest))
  {
    var rest := Match(maker, b.Of(maker), limit, quantity).rest;
    forall i | 0 <= i < |rest|
      ensures exists k :: 0 <= k < |b.Of(maker)| && b.Of(maker)[k].price == rest[i].price
    {
      var k := RestPrices(maker, b.Of(maker), limit, quantity, i);
    }
  }

  lemma InsertKeepsUncrossed(b: Book, o: Order)
    requires Uncrossed(b)
    requires forall i :: 0 <= i < |b.Of(o.side.Opposite())| ==>
               !Eligible(o.side.Opposite(), b.Of(o.side.Opposite())[i].price, o.price)
    ensures Uncrossed(Insert(b, o))
  {
    var q := b.Of(o.side);
    var k := Place(q, o.side, o.price);
    var r := Enqueue(q, o);
    var b' := Insert(b, o);
    assert r == b'.Of(o.side);
    assert forall i :: 0 <= i < |r| ==> r[i] == if i < k then q[i] else if i == k then o else q[i - 1];
    forall i, j | 0 <= i < |b'.bids| && 0 <= j < |b'.asks| ensures b'.bids[i].price < b'.asks[j].price {
      if o.side.Buy? {
        assert !Eligible(Sell, b.Of(o.side.Opposite())[j].price, o.price);
      } else {
        assert !Eligible(Buy, b.Of(o.side.Opposite())[i].price, o.price);
      }
    }
  }

  // ---- matching one fill at a time ----------------------------------------

  lemma {:induction false} LotsAppend(a: seq<Fill>, f: Fill)
    ensures Lots(a + [f]) == Lots(a) + f.quantity
  {
    if a == [] {
      assert a + [f] == [f];
    } else {
      assert (a + [f])[1..] == a[1..] + [f];
      LotsAppend(a[1..], f);
    }
  }

  /** The fills so far, followed by matching what is left against the book as
      it stands, are the whole match. */
  ghost predicate Underway(b0: Book, b: Book, maker: Side, limit: i64, quantity: u64,
                           fills: seq<Fill>, remaining: int)
  {
    && 0 <= remaining <= quantity
    && b == b0.With(maker, b.Of(maker))
    && Resting(maker, b0.Of(maker)) && Resting(maker, b.Of(maker))
    && Lots(fills) + remaining == quantity
    && var m := Match(maker, b.Of(maker), limit, remaining);
       Match(maker, b0.Of(maker), limit, quantity) == Matched(fills + m.fills, m.rest)
  }

  lemma Start(b: Book, maker: Side, limit: i64, quantity: u64)
    requires Resting(maker, b.Of(maker))
    ensures Underway(b, b, maker, limit, quantity, [], quantity)
  {
    var m := Match(maker, b.Of(maker), limit, quantity);
    assert [] + m.fills == m.fills;
  }

  lemma Advance(b0: Book, b: Book, maker: Side, limit: i64, quantity: u64, fills: seq<Fill>, remaining: u64)
    requires Underway(b0, b, maker, limit, quantity, fills, remaining)
    requires remaining > 0 && b.Of(maker) != [] && Eligible(maker, b.Of(maker)[0].price, limit)
    ensures var q := b.Of(maker);
      var traded := Min(remaining, q[0].Remaining());
      && 0 < traded <= remaining
      && Underway(b0, b.With(maker, FillHead(q, traded)), maker, limit, quantity,
                  fills + [FillOf(q[0], traded)], remaining - traded)
  {
    var q := b.Of(maker);
    var traded := Min(remaining, q[0].Remaining());
    MatchStep(maker, q, limit, remaining);
    var m := Match(maker, FillHead(q, traded), limit, remaining - traded);
    assert fills + ([FillOf(q[0], traded)] + m.fills) == fills + [FillOf(q[0], traded)] + m.fills;
    LotsAppend(fills, FillOf(q[0], traded));
  }

  lemma Finish(b0: Book, b: Book, maker: Side, limit: i64, quantity: u64, fills: seq<Fill>, remaining: u64)
    requires Underway(b0, b, maker, limit, quantity, fills, remaining)
    requires remaining == 0 || b.Of(maker) == [] || !Eligible(maker, b.Of(maker)[0].price, limit)
    ensures Resting(maker, b0.Of(maker))
    ensures var m := Match(maker, b0.Of(maker), limit, quantity);
      fills == m.fills && b == b0.With(maker, m.rest) && quantity - remaining == Lots(m.fills)
  {
    assert fills + [] == fills;
  }

  ghost predicate NoneBetter(side: Side, q: seq<Order>, price: i64) {
    forall i :: 0 <= i < |q| ==> Rank(side, price) <= Rank(side, q[i].price)
  }

  lemma FirstIsBest(side: Side, q: seq<Order>)
    requires Ordered(side, q) && q != []
    ensures NoneBetter(side, q, q[0].price)
  {
    forall i | 0 < i < |q| ensures Rank(side, q[0].price) <= Rank(side, q[i].price) {
      assert Ahead(side, q[0], q[i]);
    }
  }

  lemma StillNoneBetter(side: Side, q: seq<Order>, price: i64, traded: u64)
    requires NoneBetter(side, q, price) && q != [] && traded <= q[0].Remaining()
    ensures NoneBetter(side, FillHead(q, traded), price)
  {
  }

  lemma BestOf(side: Side, prices: set<i64>) returns (best: i64)
    requires prices != {}
    ensures best in prices && forall p :: p in prices ==> Rank(side, best) <= Rank(side, p)
  {
    var p :| p in prices;
    best := p;
    if prices != {p} {
      var rest := prices - {p};
      assert prices == rest + {p};
      var b := BestOf(side, rest);
      best := if Rank(side, b) < Rank(side, p) then b else p;
      forall x | x in prices ensures Rank(side, best) <= Rank(side, x) {
        if x != p { assert x in rest; }
      }
    }
  }

  // ---- canonical rows -----------------------------------------------------

  datatype Cell = Cell(id: u64, remaining: int, priority: u64)

  datatype Row = Row(side: Side, price: i64, cells: seq<Cell>)

  function CellOf(o: Order): Cell {
    Cell(o.id, o.Remaining(), o.priority)
  }

  function Cells(q: seq<Order>): (r: seq<Cell>)
    ensures |r| == |q|
    ensures forall i :: 0 <= i < |r| ==> r[i] == CellOf(q[i])
  {
    if q == [] then [] else Cells(q[..|q| - 1]) + [CellOf(q[|q| - 1])]
  }

  /** Length of the run of equal prices a list starts with. */
  function Run(q: seq<Order>): (n: nat)
    requires q != []
    ensures 0 < n <= |q|
    ensures forall i :: 0 <= i < n ==> q[i].price == q[0].price
    ensures n < |q| ==> q[n].price != q[0].price
  {
    if |q| > 1 && q[1].price == q[0].price then
      var n := Run(q[1..]);
      assert forall i :: 0 < i < n + 1 ==> q[i] == q[1..][i - 1];
      1 + n
    else 1
  }

  /** One row per price in execution order, each with its orders in FIFO order. */
  function Rows(side: Side, q: seq<Order>): seq<Row> {
    if q == [] then []
    else [Row(side, q[0].price, Cells(q[..Run(q)]))] + Rows(side, q[Run(q)..])
  }

  function BookRows(b: Book): seq<Row> {
    Rows(Buy, b.bids) + Rows(Sell, b.asks)
  }

  /** Walking a side by its prices: `keys` are the prices still to visit when
      the first `done` orders have been shown. */
  ghost predicate ToVisit(side: Side, q: seq<Order>, done: nat, keys: set<i64>) {
    && done <= |q|
    && (forall i :: done <= i < |q| ==> q[i].price in keys)
    && (forall i :: 0 <= i < done ==> q[i].price !in keys)
    && (forall p :: p in keys ==> Priced(q, p))
  }

  ghost predicate Priced(q: seq<Order>, price: i64) {
    exists i :: 0 <= i < |q| && q[i].price == price
  }

  /** From `done` on, exactly the run has the price of its first order. */
  lemma RunIsPrice(side: Side, q: seq<Order>, done: nat)
    requires Ordered(side, q) && done < |q|
    ensures var n := Run(q[done..]);
      && done + n <= |q|
      && (forall j :: done <= j < done + n ==> q[j].price == q[done].price)
      && (forall j :: done + n <= j < |q| ==> q[j].price != q[done].price)
  {
    var tail := q[done..];
    var n := Run(tail);
    forall j | done <= j < done + n ensures q[j].price == q[done].price {
      assert q[j] == tail[j - done];
    }
    forall j | done + n <= j < |q| ensures q[j].price != q[done].price {
      assert tail[n].price != tail[0].price;
      assert Ahead(side, q[done], q[done + n]);
      if done + n < j { assert Ahead(side, q[done + n], q[j]); }
    }
  }

  lemma FirstToVisit(side: Side, q: seq<Order>, done: nat, keys: set<i64>, best: i64)
    requires Ordered(side, q) && ToVisit(side, q, done, keys)
    requires best in keys && forall p :: p in keys ==> Rank(side, best) <= Rank(side, p)
    ensures done < |q| && q[done].price == best
  {
    assert Priced(q, best);
    var i :| 0 <= i < |q| && q[i].price == best;
    if done < i { assert Ahead(side, q[done], q[i]); }
  }

  lemma NextVisit(side: Side, q: seq<Order>, done: nat, keys: set<i64>)
    requires Ordered(side, q) && ToVisit(side, q, done, keys) && done < |q|
    ensures done + Run(q[done..]) <= |q|
    ensures ToVisit(side, q, done + Run(q[done..]), keys - {q[done].price})
  {
    hide Run, Ordered;
    RunIsPrice(side, q, done);
  }

  lemma VisitStarts(side: Side, q: seq<Order>, keys: set<i64>)
    requires forall i :: 0 <= i < |q| ==> q[i].price in keys
    requires forall p :: p in keys ==> Priced(q, p)
    ensures ToVisit(side, q, 0, keys)
  {
  }

  lemma VisitEnds(side: Side, q: seq<Order>, done: nat, keys: set<i64>)
    requires ToVisit(side, q, done, keys)
    ensures done < |q| ==> q[done].price in keys
    ensures 0 < done ==> q[done - 1].price !in keys
  {
  }

  lemma RowsSplit(side: Side, q: seq<Order>, done: nat)
    requires done < |q|
    ensures var n := Run(q[done..]);
      Rows(side, q[done..]) == [Row(side, q[done].price, Cells(q[done..done + n]))] + Rows(side, q[done + n..])
  {
    var n := Run(q[done..]);
    assert q[done..][..n] == q[done..done + n];
    assert q[done..][n..] == q[done + n..];
  }

  lemma CellsAppend(q: seq<Order>, done: nat, i: nat)
    requires done <= i < |q|
    ensures Cells(q[done..i + 1]) == Cells(q[done..i]) + [CellOf(q[i])]
  {
    assert q[done..i + 1][..i - done] == q[done..i];
  }

  /** Rows shown so far: those of the first `done` orders. */
  ghost predicate Shown(side: Side, q: seq<Order>, done: nat, keys: set<i64>, rows: seq<Row>) {
    ToVisit(side, q, done, keys) && rows + Rows(side, q[done..]) == Rows(side, q)
  }

  lemma ShowFirst(side: Side, q: seq<Order>, keys: set<i64>)
    requires ToVisit(side, q, 0, keys)
    ensures Shown(side, q, 0, keys, [])
  {
    assert q[0..] == q;
  }

  lemma ShowNext(side: Side, q: seq<Order>, done: nat, keys: set<i64>, rows: seq<Row>)
    requires Ordered(side, q) && Shown(side, q, done, keys, rows) && done < |q|
    ensures var n := Run(q[done..]);
      Shown(side, q, done + n, keys - {q[done].price},
            rows + [Row(side, q[done].price, Cells(q[done..done + n]))])
  {
    hide Run, Rows, ToVisit, Ordered;
    var n := Run(q[done..]);
    NextVisit(side, q, done, keys);
    RowsSplit(side, q, done);
    var row := [Row(side, q[done].price, Cells(q[done..done + n]))];
    assert rows + (row + Rows(side, q[done + n..])) == rows + row + Rows(side, q[done + n..]);
  }

  lemma ShowBest(side: Side, q: seq<Order>, done: nat, keys: set<i64>, rows: seq<Row>, best: i64)
    requires Ordered(side, q) && Shown(side, q, done, keys, rows)
    requires best in keys && forall p :: p in keys ==> Rank(side, best) <= Rank(side, p)
    ensures done < |q| && q[done].price == best
    ensures forall i :: 0 <= i < done ==> q[i].price != best
  {
    FirstToVisit(side, q, done, keys, best);
  }

  lemma ShowLast(side: Side, q: seq<Order>, done: nat, rows: seq<Row>)
    requires Shown(side, q, done, {}, rows)
    ensures rows == Rows(side, q)
  {
    VisitEnds(side, q, done, {});
    assert q[done..] == [];
  }
}
