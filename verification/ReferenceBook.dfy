/** The deliberately simple book of the source: ordered maps of queues, scanned
    linearly. It is proved against the same price-time lists as the indexed
    book. It stores no owners, so they are ghost arguments of its insertions. */
module SimpleBook {
  import opened Domain
  import opened PriceTime

  datatype RefOrder = RefOrder(id: u64, priority: u64, total: u64, filled: u64) {
    function Remaining(): int {
      total - filled
    }
  }

  datatype RefFill = RefFill(makerId: u64, price: i64, quantity: u64, makerRemaining: u64)

  function Plain(o: Order): RefOrder {
    RefOrder(o.id, o.priority, o.total, o.filled)
  }

  ghost function Placed(side: Side, price: i64, r: RefOrder, owner: Owner): Order {
    Order(r.id, owner, side, price, r.total, r.filled, r.priority)
  }

  function PlainFill(f: Fill): RefFill {
    RefFill(f.makerId, f.price, f.quantity, f.makerRemaining)
  }

  /** The queue the list holds at one price. */
  ghost function Line(q: seq<Order>, price: i64): seq<RefOrder> {
    if q == [] then []
    else if q[0].price == price then [Plain(q[0])] + Line(q[1..], price)
    else Line(q[1..], price)
  }

  ghost predicate LineAt(levels: map<i64, seq<RefOrder>>, q: seq<Order>, price: i64)
    requires price in levels
  {
    levels[price] != [] && levels[price] == Line(q, price)
  }

  /** The level map holds exactly the list's queues, none of them empty. */
  ghost predicate Stacked(levels: map<i64, seq<RefOrder>>, q: seq<Order>) {
    && (forall i :: 0 <= i < |q| ==> q[i].price in levels)
    && (forall p :: p in levels ==> LineAt(levels, q, p))
  }

  lemma {:induction false} LineConcat(a: seq<Order>, b: seq<Order>, price: i64)
    ensures Line(a + b, price) == Line(a, price) + Line(b, price)
  {
    if a == [] {
      assert a + b == b;
    } else {
      assert (a + b)[1..] == a[1..] + b;
      LineConcat(a[1..], b, price);
      if a[0].price == price {
        var x, y, z := [Plain(a[0])], Line(a[1..], price), Line(b, price);
        assert x + (y + z) == (x + y) + z;
      }
    }
  }

  lemma {:induction false} LineEmpty(q: seq<Order>, price: i64)
    requires forall i :: 0 <= i < |q| ==> q[i].price != price
    ensures Line(q, price) == []
  {
    if q != [] {
      forall i | 0 <= i < |q[1..]| ensures q[1..][i].price != price {
        assert q[1..][i] == q[i + 1];
      }
      LineEmpty(q[1..], price);
    }
  }

  lemma LineSplit(q: seq<Order>, k: nat, price: i64)
    requires k < |q|
    ensures q[k].price == price ==> Line(q, price) == Line(q[..k], price) + [Plain(q[k])] + Line(q[k + 1..], price)
    ensures q[k].price != price ==> Line(q, price) == Line(q[..k], price) + Line(q[k + 1..], price)
  {
    assert q == q[..k] + q[k..] && q[k..][1..] == q[k + 1..];
    LineConcat(q[..k], q[k..], price);
    var x, y := Line(q[..k], price), Line(q[k + 1..], price);
    assert x + ([Plain(q[k])] + y) == x + [Plain(q[k])] + y;
  }

  lemma DropMiddle<T>(a: seq<T>, x: T, b: seq<T>)
    ensures Drop(a + [x] + b, |a|) == a + b
  {
  }

  lemma ChangeMiddle<T>(a: seq<T>, x: T, b: seq<T>, y: T)
    ensures (a + [x] + b)[|a| := y] == a + [y] + b
  {
  }

  // ---- insertion ----------------------------------------------------------

  lemma LineInsert(q: seq<Order>, k: nat, o: Order, price: i64)
    requires k <= |q|
    requires forall i :: k <= i < |q| ==> q[i].price != o.price
    ensures Line(InsertAt(q, k, o), price) == if price == o.price then Line(q, price) + [Plain(o)] else Line(q, price)
  {
    var r := InsertAt(q, k, o);
    LineSplit(r, k, price);
    assert r[..k] == q[..k] && r[k + 1..] == q[k..] && q == q[..k] + q[k..];
    LineConcat(q[..k], q[k..], price);
    if price == o.price {
      forall i | 0 <= i < |q[k..]| ensures q[k..][i].price != price {
        assert q[k..][i] == q[k + i];
      }
      LineEmpty(q[k..], price);
    }
  }

  lemma StackedInsert(levels: map<i64, seq<RefOrder>>, q: seq<Order>, o: Order)
    requires Stacked(levels, q) && Ordered(o.side, q)
    ensures var line := if o.price in levels then levels[o.price] else [];
      Stacked(levels[o.price := line + [Plain(o)]], Enqueue(q, o))
  {
    var k := Place(q, o.side, o.price);
    var line := if o.price in levels then levels[o.price] else [];
    var l' := levels[o.price := line + [Plain(o)]];
    forall i | k <= i < |q| ensures q[i].price != o.price {
      if k < i { assert Ahead(o.side, q[k], q[i]); }
    }
    forall p | p in l' ensures LineAt(l', Enqueue(q, o), p) {
      LineInsert(q, k, o, p);
      if p in levels {
        assert LineAt(levels, q, p);
      } else {
        LineEmpty(q, p);
      }
    }
  }

  // ---- removal and change -------------------------------------------------

  /** Position of an order within its price's queue. */
  ghost function Rung(q: seq<Order>, k: nat): nat
    requires k < |q|
  {
    |Line(q[..k], q[k].price)|
  }

  lemma RungHolds(q: seq<Order>, k: nat)
    requires k < |q|
    ensures Rung(q, k) < |Line(q, q[k].price)| && Line(q, q[k].price)[Rung(q, k)] == Plain(q[k])
  {
    LineSplit(q, k, q[k].price);
  }

  /** Every rung of a price's queue is the rung of an order of the list. */
  lemma {:induction false} RungMember(q: seq<Order>, price: i64, j: nat) returns (i: nat)
    requires j < |Line(q, price)|
    ensures i < |q| && q[i].price == price && Line(q, price)[j] == Plain(q[i]) && Rung(q, i) == j
  {
    if q[0].price == price && j == 0 {
      i := 0;
    } else {
      var n := RungMember(q[1..], price, if q[0].price == price then j - 1 else j);
      i := n + 1;
      assert q[..i] == [q[0]] + q[1..][..n];
      assert q[..i][1..] == q[1..][..n];
    }
  }

  lemma LineDrop(q: seq<Order>, k: nat, price: i64)
    requires k < |q|
    ensures price != q[k].price ==> Line(Drop(q, k), price) == Line(q, price)
    ensures price == q[k].price ==>
      Rung(q, k) < |Line(q, price)| && Line(Drop(q, k), price) == Drop(Line(q, price), Rung(q, k))
  {
    LineSplit(q, k, price);
    LineConcat(q[..k], q[k + 1..], price);
    if price == q[k].price {
      DropMiddle(Line(q[..k], price), Plain(q[k]), Line(q[k + 1..], price));
    }
  }

  /** Removing rung j of a price, and the level with it once it is empty. */
  function Cleared(levels: map<i64, seq<RefOrder>>, price: i64, j: nat): map<i64, seq<RefOrder>>
    requires price in levels && j < |levels[price]|
  {
    if |levels[price]| == 1 then levels - {price} else levels[price := Drop(levels[price], j)]
  }

  lemma ClearSteps(levels: map<i64, seq<RefOrder>>, price: i64, j: nat)
    requires price in levels && j < |levels[price]|
    ensures var l := levels[price := Drop(levels[price], j)];
      (if l[price] == [] then l - {price} else l) == Cleared(levels, price, j)
  {
  }

  lemma StackedDrop(levels: map<i64, seq<RefOrder>>, q: seq<Order>, k: nat)
    requires Stacked(levels, q) && k < |q|
    ensures q[k].price in levels && Rung(q, k) < |levels[q[k].price]|
    ensures Stacked(Cleared(levels, q[k].price, Rung(q, k)), Drop(q, k))
  {
    var price := q[k].price;
    assert LineAt(levels, q, price);
    RungHolds(q, k);
    var l' := Cleared(levels, price, Rung(q, k));
    var q' := Drop(q, k);
    forall p | p in l' ensures LineAt(l', q', p) {
      assert LineAt(levels, q, p);
      LineDrop(q, k, p);
    }
    forall i | 0 <= i < |q'| ensures q'[i].price in l' {
      if q'[i].price == price {
        LineDrop(q, k, price);
        LinePresent(q', i);
      }
    }
  }

  lemma LinePresent(q: seq<Order>, i: nat)
    requires i < |q|
    ensures Line(q, q[i].price) != []
  {
    LineSplit(q, i, q[i].price);
  }

  lemma LineResize(q: seq<Order>, k: nat, o: Order, price: i64)
    requires k < |q| && o.price == q[k].price
    ensures price != q[k].price ==> Line(q[k := o], price) == Line(q, price)
    ensures price == q[k].price ==>
      Rung(q, k) < |Line(q, price)| && Line(q[k := o], price) == Line(q, price)[Rung(q, k) := Plain(o)]
  {
    var r := q[k := o];
    LineSplit(q, k, price);
    LineSplit(r, k, price);
    assert r[..k] == q[..k] && r[k + 1..] == q[k + 1..];
    if price == q[k].price {
      ChangeMiddle(Line(q[..k], price), Plain(q[k]), Line(q[k + 1..], price), Plain(o));
    }
  }

  lemma StackedResize(levels: map<i64, seq<RefOrder>>, q: seq<Order>, k: nat, o: Order)
    requires Stacked(levels, q) && k < |q| && o.price == q[k].price
    ensures q[k].price in levels && Rung(q, k) < |levels[q[k].price]|
    ensures Stacked(levels[o.price := levels[o.price][Rung(q, k) := Plain(o)]], q[k := o])
  {
    assert LineAt(levels, q, o.price);
    RungHolds(q, k);
    var q', l' := q[k := o], levels[o.price := levels[o.price][Rung(q, k) := Plain(o)]];
    forall p | p in l' ensures LineAt(l', q', p) {
      assert LineAt(levels, q, p);
      LineResize(q, k, o, p);
    }
  }

  // ---- trading with the first order ---------------------------------------

  /** As Stacked, except that the queue at `price` may have run empty. */
  ghost predicate StackedAround(levels: map<i64, seq<RefOrder>>, q: seq<Order>, price: i64) {
    && price in levels && levels[price] == Line(q, price)
    && (forall i :: 0 <= i < |q| ==> q[i].price in levels)
    && (forall p :: p in levels && p != price ==> LineAt(levels, q, p))
  }

  lemma FirstInLine(side: Side, q: seq<Order>, price: i64)
    requires Ordered(side, q) && NoneBetter(side, q, price)
    ensures Line(q, price) != [] <==> q != [] && q[0].price == price
    ensures Line(q, price) != [] ==> Line(q, price)[0] == Plain(q[0]) && Rung(q, 0) == 0
  {
    if Line(q, price) != [] {
      var i := RungMember(q, price, 0);
      if i > 0 { assert Ahead(side, q[0], q[i]); }
    }
  }

  lemma StackedFill(levels: map<i64, seq<RefOrder>>, q: seq<Order>, price: i64, traded: u64)
    requires StackedAround(levels, q, price) && q != [] && q[0].price == price && 0 < traded <= q[0].Remaining()
    ensures levels[price] != [] && levels[price][0] == Plain(q[0])
    ensures var line := levels[price];
      StackedAround(levels[price := if traded == q[0].Remaining() then line[1..]
                                    else line[0 := line[0].(filled := line[0].filled + traded)]],
                    FillHead(q, traded), price)
  {
    var o := q[0].(filled := q[0].filled + traded);
    var line := levels[price];
    assert Line(q, price) == [Plain(q[0])] + Line(q[1..], price);
    var whole := traded == q[0].Remaining();
    var l' := levels[price := if whole then line[1..] else line[0 := line[0].(filled := line[0].filled + traded)]];
    var q' := FillHead(q, traded);
    if whole {
      assert line[1..] == Line(q[1..], price);
    } else {
      assert q'[1..] == q[1..];
      assert Line(q', price) == [Plain(o)] + Line(q[1..], price);
    }
    forall p | p in l' && p != price ensures LineAt(l', q', p) {
      assert LineAt(levels, q, p);
    }
  }

  lemma StackedSettle(levels: map<i64, seq<RefOrder>>, q: seq<Order>, price: i64)
    requires StackedAround(levels, q, price)
    ensures Stacked(if levels[price] == [] then levels - {price} else levels, q)
  {
    var l' := if levels[price] == [] then levels - {price} else levels;
    forall p | p in l' ensures LineAt(l', q, p) {
      if p != price { assert LineAt(levels, q, p); }
    }
    if levels[price] == [] {
      forall i | 0 <= i < |q| ensures q[i].price != price {
        if q[i].price == price { LinePresent(q, i); }
      }
    }
  }

  lemma StackedOpen(levels: map<i64, seq<RefOrder>>, q: seq<Order>, price: i64)
    requires Stacked(levels, q) && price in levels
    ensures StackedAround(levels, q, price)
  {
    assert LineAt(levels, q, price);
    forall p | p in levels && p != price ensures LineAt(levels, q, p) {}
  }

  ghost function PlainFills(fills: seq<Fill>): (r: seq<RefFill>)
    ensures |r| == |fills|
    ensures forall i :: 0 <= i < |r| ==> r[i] == PlainFill(fills[i])
  {
    seq(|fills|, i requires 0 <= i < |fills| => PlainFill(fills[i]))
  }

  // ---- the scanning book --------------------------------------------------

  class ReferenceBook {
    var bids: map<i64, seq<RefOrder>>
    var asks: map<i64, seq<RefOrder>>

    ghost var book: Book

    ghost predicate Valid()
      reads this
    {
      Orderly(book) && Stacked(bids, book.bids) && Stacked(asks, book.asks)
    }

    constructor ()
      ensures Valid() && book == EmptyBook
    {
      bids, asks := map[], map[];
      book := EmptyBook;
    }

    method Insert(side: Side, price: i64, order: RefOrder, ghost owner: Owner)
      requires Valid() && order.filled < order.total
      requires Fresh(book.Of(side), order.id, order.priority) && Lookup(book, order.id).None?
      modifies this
      ensures Valid() && book == PriceTime.Insert(old(book), Placed(side, price, order, owner))
    {
      hide Stacked, Ordered, Lookup, Fresh, Place;
      ghost var o := Placed(side, price, order, owner);
      InsertOrderly(book, o);
      StackedInsert(if side.Buy? then bids else asks, book.Of(side), o);
      var levels := if side.Buy? then bids else asks;
      levels := levels[price := (if price in levels then levels[price] else []) + [order]];
      if side.Buy? {
        bids := levels;
      } else {
        asks := levels;
      }
      book := PriceTime.Insert(book, o);
    }

    /** Scans both sides, each price in ascending order, for an id. */
    method Search(id: u64) returns (found: Option<(Side, i64, nat)>)
      requires Valid()
      ensures found.None? <==> Lookup(book, id).None?
      ensures found.Some? ==>
        var (side, price, j) := found.value;
        var levels, q := if side.Buy? then bids else asks, book.Of(side);
        var k := Find(q, id);
        && k < |q| && q[k].price == price && q[k].side == side && Rung(q, k) == j
        && Lookup(book, id) == Some(q[k])
        && price in levels && j < |levels[price]| && levels[price][j] == Plain(q[k])
    {
      hide Orderly, Line, Find;
      Uniques(book);
      var inBids := SearchSide(bids, book.bids, id);
      if inBids.Some? {
        return Some((Buy, inBids.value.0, inBids.value.1));
      }
      var inAsks := SearchSide(asks, book.asks, id);
      if inAsks.Some? {
        return Some((Sell, inAsks.value.0, inAsks.value.1));
      }
      return None;
    }

    method Remove(id: u64) returns (removed: Option<(Side, i64, RefOrder)>)
      requires Valid()
      modifies this
      ensures Valid() && book == PriceTime.Remove(old(book), id)
      ensures removed == match Lookup(old(book), id)
                         case None => None
                         case Some(o) => Some((o.side, o.price, Plain(o)))
    {
      hide Stacked, Line, Ordered, Unique, Disjoint, Resting, Cleared;
      var found := Search(id);
      if found.None? {
        return None;
      }
      var (side, price, j) := found.value;
      ghost var k := Find(book.Of(side), id);
      SidesDiffer(book, id);
      DropOrderly(book, side, k);
      var levels := if side.Buy? then bids else asks;
      StackedDrop(levels, book.Of(side), k);
      removed := Some((side, price, levels[price][j]));
      ClearSteps(levels, price, j);
      levels := levels[price := Drop(levels[price], j)];
      if levels[price] == [] {
        levels := levels - {price};
      }
      if side.Buy? {
        bids := levels;
      } else {
        asks := levels;
      }
      book := book.With(side, Drop(book.Of(side), k));
    }

    method ReduceTotal(id: u64, total: u64)
      requires Valid()
      requires Lookup(book, id).Some? ==> Lookup(book, id).value.filled < total <= Lookup(book, id).value.total
      modifies this
      ensures Valid() && book == Reduce(old(book), id, total)
    {
      hide Stacked, Line, Ordered, Unique, Disjoint;
      var found := Search(id);
      if found.None? {
        return;
      }
      var (side, price, j) := found.value;
      ghost var k := Find(book.Of(side), id);
      SidesDiffer(book, id);
      ghost var changed := book.Of(side)[k].(total := total);
      ResizeOrderly(book, side, k, changed);
      var levels := if side.Buy? then bids else asks;
      StackedResize(levels, book.Of(side), k, changed);
      levels := levels[price := levels[price][j := levels[price][j].(total := total)]];
      if side.Buy? {
        bids := levels;
      } else {
        asks := levels;
      }
      book := book.With(side, book.Of(side)[k := changed]);
    }

    method MatchOrder(taker: Side, limit: i64, quantity: u64) returns (filled: u64, fills: seq<RefFill>)
      requires Valid()
      modifies this
      ensures Valid()
      ensures Resting(taker.Opposite(), old(book).Of(taker.Opposite()))
      ensures var m := Match(taker.Opposite(), old(book).Of(taker.Opposite()), limit, quantity);
        && fills == PlainFills(m.fills)
        && filled == Lots(m.fills)
        && book == old(book).With(taker.Opposite(), m.rest)
    {
      hide Stacked, Match, FillHead, Underway, NoneBetter, Orderly, Lots;
      var maker := taker.Opposite();
      ghost var b0 := book;
      Uniques(b0);
      Start(b0, maker, limit, quantity);
      var remaining: int := quantity;
      ghost var made: seq<Fill> := [];
      fills := [];
      while remaining > 0
        invariant Valid()
        invariant 0 <= remaining <= quantity
        invariant Underway(b0, book, maker, limit, quantity, made, remaining)
        invariant fills == PlainFills(made)
      {
        var best := Best(maker);
        if best.None? || !Eligible(maker, best.value, limit) {
          Finish(b0, book, maker, limit, quantity, made, remaining);
          return quantity - remaining, fills;
        }
        var more;
        ghost var moreMade;
        more, moreMade, remaining := SweepLevel(maker, best.value, limit, b0, quantity, made, remaining);
        made := made + moreMade;
        fills := fills + more;
      }
      Finish(b0, book, maker, limit, quantity, made, remaining);
      filled := quantity - remaining;
    }

    /** Best price of a side. */
    method Best(side: Side) returns (price: Option<i64>)
      requires Valid()
      ensures price == if book.Of(side) == [] then None else Some(book.Of(side)[0].price)
    {
      var levels := if side.Buy? then bids else asks;
      BestLevel(side, levels, book.Of(side));
      if levels == map[] {
        return None;
      }
      var best :| best in levels && forall p :: p in levels ==> Rank(side, best) <= Rank(side, p);
      return Some(best);
    }

    /** Trades with the queue at the best price until it or the taker is done,
        and forgets the price once its queue is empty. */
    method SweepLevel(maker: Side, price: i64, limit: i64, ghost b0: Book, ghost quantity: u64,
                      ghost made: seq<Fill>, wanted: u64)
      returns (fills: seq<RefFill>, ghost more: seq<Fill>, remaining: int)
      requires Valid() && wanted > 0
      requires book.Of(maker) != [] && book.Of(maker)[0].price == price && Eligible(maker, price, limit)
      requires Underway(b0, book, maker, limit, quantity, made, wanted)
      modifies this
      ensures Valid()
      ensures 0 <= remaining < wanted
      ensures fills == PlainFills(more)
      ensures Underway(b0, book, maker, limit, quantity, made + more, remaining)
    {
      hide Stacked, StackedAround, Match, FillHead, Underway, NoneBetter, Orderly, Lots;
      var levels: map<i64, seq<RefOrder>> := if maker.Buy? then bids else asks;
      Uniques(book);
      FirstIsBest(maker, book.Of(maker));
      PresentLevel(levels, book.Of(maker), 0);
      StackedOpen(levels, book.Of(maker), price);
      fills, more, remaining := [], [], wanted;
      ghost var b := book;
      assert made + more == made;
      while remaining > 0
        invariant Valid()
        invariant Orderly(b) && StackedAround(levels, b.Of(maker), price)
        invariant b == book.With(maker, b.Of(maker))
        invariant 0 <= remaining <= wanted
        invariant Underway(b0, b, maker, limit, quantity, made + more, remaining)
        invariant NoneBetter(maker, b.Of(maker), price)
        invariant fills == PlainFills(more)
        invariant remaining == wanted ==> b.Of(maker) != [] && b.Of(maker)[0].price == price
      {
        Uniques(b);
        AroundLine(maker, levels, b.Of(maker), price);
        var orders := levels[price];
        if orders == [] {
          break;
        }
        var front := orders[0];
        var traded := Min(remaining, front.Remaining());
        Advance(b0, b, maker, limit, quantity, made + more, remaining);
        StackedFill(levels, b.Of(maker), price, traded);
        StillNoneBetter(maker, b.Of(maker), price, traded);
        FillOrderly(b, maker, traded);
        front := front.(filled := front.filled + traded);
        orders := orders[0 := front];
        remaining := remaining - traded;
        if front.Remaining() == 0 {
          orders := orders[1..];
        }
        levels := levels[price := orders];
        fills := fills + [RefFill(front.id, price, traded, front.Remaining())];
        ghost var fill := FillOf(b.Of(maker)[0], traded);
        assert made + (more + [fill]) == made + more + [fill];
        more := more + [fill];
        b := b.With(maker, FillHead(b.Of(maker), traded));
      }
      Uniques(b);
      AroundLine(maker, levels, b.Of(maker), price);
      StackedSettle(levels, b.Of(maker), price);
      if levels[price] == [] {
        levels := levels - {price};
      }
      if maker.Buy? {
        bids := levels;
      } else {
        asks := levels;
      }
      book := b;
    }

    /** One side as canonical rows, best price first. */
    method SideRows(side: Side) returns (rows: seq<Row>)
      requires Valid()
      ensures rows == Rows(side, book.Of(side))
    {
      hide Rows, Shown, Run, Stacked, Ordered, Line, Unique, Resting, Disjoint, PlainCells, Cells;
      var levels := if side.Buy? then bids else asks;
      var keys := levels.Keys;
      ghost var done: nat := 0;
      rows := [];
      LinesToVisit(side, levels, book.Of(side));
      while keys != {}
        invariant keys <= levels.Keys
        invariant Shown(side, book.Of(side), done, keys, rows)
        decreases keys
      {
        ghost var least := BestOf(side, keys);
        var best :| best in keys && forall p :: p in keys ==> Rank(side, best) <= Rank(side, p);
        ShowBest(side, book.Of(side), done, keys, rows, best);
        LineOfRun(side, levels, book.Of(side), done);
        var cells := CanonicalOrders(levels[best]);
        ShowNext(side, book.Of(side), done, keys, rows);
        rows := rows + [Row(side, best, cells)];
        done := done + Run(book.Of(side)[done..]);
        keys := keys - {best};
      }
      ShowLast(side, book.Of(side), done, rows);
    }

    /** Bids then asks, each from its best price. */
    method Snapshot() returns (rows: seq<Row>)
      requires Valid()
      ensures rows == BookRows(book)
    {
      var bidRows := SideRows(Buy);
      var askRows := SideRows(Sell);
      rows := bidRows + askRows;
    }
  }

  function PlainCell(r: RefOrder): Cell {
    Cell(r.id, r.Remaining(), r.priority)
  }

  ghost function PlainCells(line: seq<RefOrder>): seq<Cell> {
    seq(|line|, j requires 0 <= j < |line| => PlainCell(line[j]))
  }

  method CanonicalOrders(line: seq<RefOrder>) returns (cells: seq<Cell>)
    ensures cells == PlainCells(line)
  {
    cells := [];
    for j := 0 to |line|
      invariant |cells| == j
      invariant forall i :: 0 <= i < j ==> cells[i] == PlainCell(line[i])
    {
      cells := cells + [PlainCell(line[j])];
    }
  }

  lemma {:induction false} LineAll(q: seq<Order>, price: i64)
    requires forall i :: 0 <= i < |q| ==> q[i].price == price
    ensures |Line(q, price)| == |q|
    ensures forall i :: 0 <= i < |q| ==> Line(q, price)[i] == Plain(q[i])
  {
    if q != [] {
      forall i | 0 <= i < |q[1..]| ensures q[1..][i].price == price {
        assert q[1..][i] == q[i + 1];
      }
      LineAll(q[1..], price);
    }
  }

  lemma LineOfSlice(q: seq<Order>, done: nat, n: nat, price: i64)
    requires done + n <= |q|
    requires forall i :: 0 <= i < done || done + n <= i < |q| ==> q[i].price != price
    requires forall i :: done <= i < done + n ==> q[i].price == price
    ensures Line(q, price) == Line(q[done..done + n], price)
  {
    hide Line;
    var a, m, z := q[..done], q[done..done + n], q[done + n..];
    assert q == a + (m + z);
    LineConcat(a, m + z, price);
    LineConcat(m, z, price);
    LineEmpty(a, price);
    LineEmpty(z, price);
  }

  lemma LineCells(q: seq<Order>, price: i64)
    requires forall i :: 0 <= i < |q| ==> q[i].price == price
    ensures PlainCells(Line(q, price)) == Cells(q)
  {
    hide Line;
    LineAll(q, price);
  }

  /** The queue stored at a price is the run of the list at that price. */
  lemma LineOfRun(side: Side, levels: map<i64, seq<RefOrder>>, q: seq<Order>, done: nat)
    requires Ordered(side, q) && Stacked(levels, q) && done < |q|
    requires forall i :: 0 <= i < done ==> q[i].price != q[done].price
    ensures var n := Run(q[done..]);
      && q[done].price in levels && done + n <= |q|
      && PlainCells(levels[q[done].price]) == Cells(q[done..done + n])
  {
    hide Run, Ordered, Line, PlainCells, Cells;
    var p, n := q[done].price, Run(q[done..]);
    RunIsPrice(side, q, done);
    assert LineAt(levels, q, p);
    LineOfSlice(q, done, n, p);
    LineCells(q[done..done + n], p);
  }

  lemma LinesToVisit(side: Side, levels: map<i64, seq<RefOrder>>, q: seq<Order>)
    requires Stacked(levels, q)
    ensures Shown(side, q, 0, levels.Keys, [])
  {
    forall p | p in levels.Keys ensures Priced(q, p) {
      assert LineAt(levels, q, p);
      var i := RungMember(q, p, 0);
    }
    VisitStarts(side, q, levels.Keys);
    ShowFirst(side, q, levels.Keys);
  }

  lemma Uniques(b: Book)
    requires Orderly(b)
    ensures Queue(Buy, b.bids) && Queue(Sell, b.asks)
  {
  }

  lemma SidesDiffer(b: Book, id: u64)
    requires Orderly(b)
    ensures Find(b.bids, id) == |b.bids| || Find(b.asks, id) == |b.asks|
  {
  }

  lemma PresentLevel(levels: map<i64, seq<RefOrder>>, q: seq<Order>, i: nat)
    requires Stacked(levels, q) && i < |q|
    ensures q[i].price in levels
  {
  }

  lemma AroundLine(side: Side, levels: map<i64, seq<RefOrder>>, q: seq<Order>, price: i64)
    requires StackedAround(levels, q, price) && Ordered(side, q) && NoneBetter(side, q, price)
    ensures price in levels
    ensures levels[price] != [] <==> q != [] && q[0].price == price
    ensures levels[price] != [] ==> levels[price][0] == Plain(q[0])
  {
    FirstInLine(side, q, price);
  }

  lemma BestLevel(side: Side, levels: map<i64, seq<RefOrder>>, q: seq<Order>)
    requires Stacked(levels, q) && Ordered(side, q)
    ensures levels == map[] <==> q == []
    ensures q != [] ==>
      && q[0].price in levels
      && (forall p :: p in levels ==> Rank(side, q[0].price) <= Rank(side, p))
  {
    forall p | p in levels ensures q != [] && Rank(side, q[0].price) <= Rank(side, p) {
      assert LineAt(levels, q, p);
      var i := RungMember(q, p, 0);
      if i > 0 { assert Ahead(side, q[0], q[i]); }
    }
  }

  /** One side's scan: prices ascending, then positions. */
  method SearchSide(levels: map<i64, seq<RefOrder>>, ghost q: seq<Order>, id: u64)
    returns (found: Option<(i64, nat)>)
    requires Stacked(levels, q) && Unique(q)
    ensures found.None? <==> Find(q, id) == |q|
    ensures found.Some? ==>
      var (price, j) := found.value;
      var k := Find(q, id);
      && k < |q| && q[k].price == price && Rung(q, k) == j
      && price in levels && j < |levels[price]| && levels[price][j] == Plain(q[k])
  {
    hide Line, Find, Unique;
    var keys := levels.Keys;
    while keys != {}
      invariant keys <= levels.Keys
      invariant forall p :: p in levels && p !in keys ==> NotThere(levels[p], id)
      decreases keys
    {
      ghost var least := LeastOf(keys);
      var price :| price in keys && forall p :: p in keys ==> price <= p;
      var j := Position(levels[price], id);
      if j < |levels[price]| {
        FoundAt(levels, q, price, j, id);
        return Some((price, j));
      }
      keys := keys - {price};
    }
    NotFound(levels, q, id);
    return None;
  }

  ghost predicate NotThere(line: seq<RefOrder>, id: u64) {
    forall j :: 0 <= j < |line| ==> line[j].id != id
  }

  method Position(line: seq<RefOrder>, id: u64) returns (j: nat)
    ensures j <= |line|
    ensures j < |line| ==> line[j].id == id
    ensures j == |line| ==> NotThere(line, id)
  {
    j := 0;
    while j < |line| && line[j].id != id
      invariant j <= |line|
      invariant forall i :: 0 <= i < j ==> line[i].id != id
    {
      j := j + 1;
    }
  }

  lemma FoundAt(levels: map<i64, seq<RefOrder>>, q: seq<Order>, price: i64, j: nat, id: u64)
    requires Stacked(levels, q) && Unique(q) && price in levels && j < |levels[price]| && levels[price][j].id == id
    ensures var k := Find(q, id);
      k < |q| && q[k].price == price && Rung(q, k) == j && levels[price][j] == Plain(q[k])
  {
    assert LineAt(levels, q, price);
    var i := RungMember(q, price, j);
    assert Find(q, id) == i;
  }

  lemma NotFound(levels: map<i64, seq<RefOrder>>, q: seq<Order>, id: u64)
    requires Stacked(levels, q)
    requires forall p :: p in levels ==> NotThere(levels[p], id)
    ensures Find(q, id) == |q|
  {
    var k := Find(q, id);
    if k < |q| {
      assert LineAt(levels, q, q[k].price);
      RungHolds(q, k);
    }
  }

  lemma LeastOf(keys: set<i64>) returns (least: i64)
    requires keys != {}
    ensures least in keys && forall p :: p in keys ==> least <= p
  {
    var p :| p in keys;
    least := p;
    if keys != {p} {
      var rest := keys - {p};
      assert keys == rest + {p};
      var l := LeastOf(rest);
      least := if l < p then l else p;
    }
  }
}
