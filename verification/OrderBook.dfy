/** The indexed book: price levels in ordered maps, orders in a slab, and the
    orders of one level as a doubly linked FIFO over slab slots. A ghost `book`
    holds the price-time lists the structure stands for. */
module IndexedBook {
  import opened Domain
  import opened PriceTime

  datatype Node = Node(order: Order, prev: Option<nat>, next: Option<nat>)

  datatype Level = Level(head: Option<nat>, tail: Option<nat>, count: u32, total: u64)

  // ---- links of one side --------------------------------------------------

  /** The slot before position i when it holds the same price. */
  ghost function PrevOf(q: seq<Order>, chain: seq<nat>, i: nat): Option<nat>
    requires i < |q| == |chain|
  {
    if i > 0 && q[i - 1].price == q[i].price then Some(chain[i - 1]) else None
  }

  ghost function NextOf(q: seq<Order>, chain: seq<nat>, i: nat): Option<nat>
    requires i < |q| == |chain|
  {
    if i + 1 < |q| && q[i + 1].price == q[i].price then Some(chain[i + 1]) else None
  }

  ghost predicate NodeAt(slab: map<nat, Node>, chain: seq<nat>, q: seq<Order>, i: nat)
    requires i < |q| == |chain|
  {
    chain[i] in slab && slab[chain[i]] == Node(q[i], PrevOf(q, chain, i), NextOf(q, chain, i))
  }

  /** `chain` lists the slots of `q`; neighbours of equal price are linked. */
  ghost predicate Linked(slab: map<nat, Node>, chain: seq<nat>, q: seq<Order>) {
    && |chain| == |q|
    && (forall i :: 0 <= i < |q| ==> NodeAt(slab, chain, q, i))
  }

  ghost predicate NoRepeats(chain: seq<nat>) {
    forall i, j :: 0 <= i < j < |chain| ==> chain[i] != chain[j]
  }

  /** Orders of one price are neighbours. */
  ghost predicate Contiguous(q: seq<Order>) {
    forall i, j, l :: 0 <= i < j < l < |q| && q[i].price == q[l].price ==> q[j].price == q[i].price
  }

  lemma QueueIsContiguous(side: Side, q: seq<Order>)
    requires Ordered(side, q)
    ensures Contiguous(q)
  {
    forall i, j, l | 0 <= i < j < l < |q| && q[i].price == q[l].price ensures q[j].price == q[i].price {
      assert Ahead(side, q[i], q[j]) && Ahead(side, q[j], q[l]);
    }
  }

  // ---- levels of one side -------------------------------------------------

  /** Each level carries its count and its total remaining quantity, and no
      level is empty. */
  ghost predicate TotalAt(levels: map<i64, Level>, q: seq<Order>, p: i64)
    requires p in levels
  {
    && levels[p].count > 0
    && levels[p].count == Sum(q, CountAt(p))
    && levels[p].total == Sum(q, AtPrice(p))
  }

  ghost predicate Totalled(levels: map<i64, Level>, q: seq<Order>) {
    && (forall i :: 0 <= i < |q| ==> q[i].price in levels)
    && (forall p :: p in levels ==> TotalAt(levels, q, p))
  }

  /** The first order of a price is its level's head, the last one its tail. */
  ghost predicate EndsAt(levels: map<i64, Level>, chain: seq<nat>, q: seq<Order>, i: nat)
    requires i < |q| == |chain|
  {
    && q[i].price in levels
    && (PrevOf(q, chain, i).None? ==> levels[q[i].price].head == Some(chain[i]))
    && (NextOf(q, chain, i).None? ==> levels[q[i].price].tail == Some(chain[i]))
  }

  ghost predicate Levelled(levels: map<i64, Level>, chain: seq<nat>, q: seq<Order>) {
    && |chain| == |q|
    && Totalled(levels, q)
    && (forall i :: 0 <= i < |q| ==> EndsAt(levels, chain, q, i))
  }

  lemma {:induction false} CountIsPresence(q: seq<Order>, price: int) returns (i: nat)
    requires Sum(q, CountAt(price)) > 0
    ensures i < |q| && q[i].price == price
  {
    if q[0].price == price {
      i := 0;
    } else {
      i := CountIsPresence(q[1..], price);
      i := i + 1;
    }
  }

  lemma PresenceIsCount(q: seq<Order>, i: nat)
    requires i < |q|
    ensures Sum(q, CountAt(q[i].price)) > 0
  {
    SumNonNegative(q, CountAt(q[i].price));
  }

  lemma AbsentSums(levels: map<i64, Level>, q: seq<Order>, price: i64)
    requires Totalled(levels, q) && price !in levels
    ensures Sum(q, CountAt(price)) == 0 && Sum(q, AtPrice(price)) == 0
  {
    SumZero(q, CountAt(price));
    SumZero(q, AtPrice(price));
  }

  // ---- where an insertion lands -------------------------------------------

  /** Position k ends the run of `price`, if there is one. */
  ghost predicate RunEnd(q: seq<Order>, k: nat, price: i64) {
    && k <= |q|
    && (forall i :: k <= i < |q| ==> q[i].price != price)
    && (0 < k < |q| ==> q[k - 1].price == price || q[k - 1].price != q[k].price)
    && (forall i :: 0 <= i < k && q[i].price == price ==> q[k - 1].price == price)
  }

  lemma PlaceIsRunEnd(side: Side, q: seq<Order>, price: i64)
    requires Ordered(side, q)
    ensures RunEnd(q, Place(q, side, price), price)
  {
    SplitIsRunEnd(side, q, Place(q, side, price), price);
  }

  lemma SplitIsRunEnd(side: Side, q: seq<Order>, k: nat, price: i64)
    requires Ordered(side, q) && k <= |q|
    requires forall i :: 0 <= i < k ==> Rank(side, q[i].price) <= Rank(side, price)
    requires k < |q| ==> Rank(side, q[k].price) > Rank(side, price)
    ensures RunEnd(q, k, price)
  {
    forall i | k <= i < |q| ensures q[i].price != price {
      if k < i { assert Ahead(side, q[k], q[i]); }
    }
    forall i | 0 <= i < k && q[i].price == price ensures q[k - 1].price == price {
      if i < k - 1 { assert Ahead(side, q[i], q[k - 1]); }
    }
  }

  /** The price has a level exactly when it is the price in front of k. */
  lemma PresentAtRunEnd(levels: map<i64, Level>, q: seq<Order>, k: nat, price: i64)
    requires Totalled(levels, q) && RunEnd(q, k, price)
    ensures price in levels <==> k > 0 && q[k - 1].price == price
  {
    if price in levels {
      assert TotalAt(levels, q, price);
      var i := CountIsPresence(q, price);
    }
  }

  // ---- hooking a slot in --------------------------------------------------

  function SetNext(slab: map<nat, Node>, at: Option<nat>, next: Option<nat>): map<nat, Node> {
    if at.Some? && at.value in slab then slab[at.value := slab[at.value].(next := next)] else slab
  }

  function SetPrev(slab: map<nat, Node>, at: Option<nat>, prev: Option<nat>): map<nat, Node> {
    if at.Some? && at.value in slab then slab[at.value := slab[at.value].(prev := prev)] else slab
  }

  /** The slab with `o` stored in `slot` behind slot `at`. */
  function Hooked(slab: map<nat, Node>, at: Option<nat>, slot: nat, o: Order): map<nat, Node> {
    SetNext(slab, at, Some(slot))[slot := Node(o, at, None)]
  }

  lemma HookedAt(slab: map<nat, Node>, at: Option<nat>, slot: nat, o: Order, x: nat)
    requires x in slab && x != slot
    ensures x in Hooked(slab, at, slot, o)
    ensures Hooked(slab, at, slot, o)[x]
         == Node(slab[x].order, slab[x].prev, if at == Some(x) then Some(slot) else slab[x].next)
  {
  }

  ghost function Behind(q: seq<Order>, chain: seq<nat>, k: nat, price: i64): Option<nat>
    requires k <= |q| == |chain|
  {
    if k > 0 && q[k - 1].price == price then Some(chain[k - 1]) else None
  }

  /** The links a list wants after inserting at the end of a price run. */
  lemma InsertLinks(chain: seq<nat>, q: seq<Order>, k: nat, o: Order, slot: nat, i: nat)
    requires |chain| == |q| && RunEnd(q, k, o.price) && i < |q|
    ensures var q', c' := InsertAt(q, k, o), InsertAt(chain, k, slot);
      var j := if i < k then i else i + 1;
      && q'[j] == q[i] && c'[j] == chain[i]
      && PrevOf(q', c', j) == PrevOf(q, chain, i)
      && NextOf(q', c', j) == (if i + 1 == k && q[i].price == o.price then Some(slot) else NextOf(q, chain, i))
  {
    var q', c' := InsertAt(q, k, o), InsertAt(chain, k, slot);
    if i < k {
      if i > 0 { assert q'[i - 1] == q[i - 1] && c'[i - 1] == chain[i - 1]; }
      if i + 1 < k { assert q'[i + 1] == q[i + 1] && c'[i + 1] == chain[i + 1]; }
    } else {
      if i > k { assert q'[i] == q[i - 1] && c'[i] == chain[i - 1]; }
      if i + 1 < |q| { assert q'[i + 2] == q[i + 1] && c'[i + 2] == chain[i + 1]; }
    }
  }

  lemma NewLinks(chain: seq<nat>, q: seq<Order>, k: nat, o: Order, slot: nat)
    requires |chain| == |q| && RunEnd(q, k, o.price)
    ensures var q', c' := InsertAt(q, k, o), InsertAt(chain, k, slot);
      && PrevOf(q', c', k) == Behind(q, chain, k, o.price)
      && NextOf(q', c', k) == None
  {
    var q', c' := InsertAt(q, k, o), InsertAt(chain, k, slot);
    if k > 0 { assert q'[k - 1] == q[k - 1] && c'[k - 1] == chain[k - 1]; }
    if k < |q| { assert q'[k + 1] == q[k]; }
  }

  lemma LinkedInsert(slab: map<nat, Node>, chain: seq<nat>, q: seq<Order>, k: nat, o: Order, slot: nat)
    requires Linked(slab, chain, q) && NoRepeats(chain) && slot !in slab && RunEnd(q, k, o.price)
    ensures Linked(Hooked(slab, Behind(q, chain, k, o.price), slot, o), InsertAt(chain, k, slot), InsertAt(q, k, o))
  {
    var at := Behind(q, chain, k, o.price);
    var q', c', slab' := InsertAt(q, k, o), InsertAt(chain, k, slot), Hooked(slab, at, slot, o);
    forall j | 0 <= j < |q'| ensures NodeAt(slab', c', q', j) {
      if j == k {
        NewLinks(chain, q, k, o, slot);
      } else {
        LinkedInsertNode(slab, chain, q, k, o, slot, if j < k then j else j - 1);
      }
    }
  }

  lemma LinkedInsertNode(slab: map<nat, Node>, chain: seq<nat>, q: seq<Order>, k: nat, o: Order, slot: nat, i: nat)
    requires |chain| == |q| && NoRepeats(chain) && slot !in slab && RunEnd(q, k, o.price)
    requires i < |q| && NodeAt(slab, chain, q, i)
    ensures NodeAt(Hooked(slab, Behind(q, chain, k, o.price), slot, o),
                   InsertAt(chain, k, slot), InsertAt(q, k, o), if i < k then i else i + 1)
  {
    var at := Behind(q, chain, k, o.price);
    HookedAt(slab, at, slot, o, chain[i]);
    InsertLinks(chain, q, k, o, slot, i);
    assert at == Some(chain[i]) <==> i + 1 == k && q[i].price == o.price;
  }

  /** `level` is what joining order leaves of its price level. */
  ghost predicate Joined(levels: map<i64, Level>, o: Order, slot: nat, level: Level) {
    && o.filled <= o.total
    && level.tail == Some(slot)
    && level.head == (if o.price in levels then levels[o.price].head else Some(slot))
    && level.count == (if o.price in levels then levels[o.price].count else 0) + 1
    && level.total == (if o.price in levels then levels[o.price].total else 0) + o.Remaining()
  }

  lemma TotalledInsert(levels: map<i64, Level>, q: seq<Order>, k: nat, o: Order, slot: nat, level: Level)
    requires Totalled(levels, q) && k <= |q| && Joined(levels, o, slot, level)
    ensures Totalled(levels[o.price := level], InsertAt(q, k, o))
  {
    var q', l' := InsertAt(q, k, o), levels[o.price := level];
    forall p | p in l' ensures TotalAt(l', q', p) {
      SumInsertAt(q, k, o, CountAt(p));
      SumInsertAt(q, k, o, AtPrice(p));
      if p !in levels {
        AbsentSums(levels, q, p);
      } else {
        assert TotalAt(levels, q, p);
      }
    }
  }

  lemma LevelledInsert(levels: map<i64, Level>, chain: seq<nat>, q: seq<Order>, k: nat, o: Order, slot: nat,
                       level: Level)
    requires Levelled(levels, chain, q) && RunEnd(q, k, o.price) && Joined(levels, o, slot, level)
    requires Contiguous(q)
    ensures Levelled(levels[o.price := level], InsertAt(chain, k, slot), InsertAt(q, k, o))
  {
    TotalledInsert(levels, q, k, o, slot, level);
    PresentAtRunEnd(levels, q, k, o.price);
    var q', c', l' := InsertAt(q, k, o), InsertAt(chain, k, slot), levels[o.price := level];
    forall j | 0 <= j < |q'| ensures EndsAt(l', c', q', j) {
      if j == k {
        NewLinks(chain, q, k, o, slot);
      } else {
        var i := if j < k then j else j - 1;
        assert EndsAt(levels, chain, q, i);
        EndsInsert(levels, chain, q, k, o, slot, level, i);
      }
    }
  }

  lemma EndsInsert(levels: map<i64, Level>, chain: seq<nat>, q: seq<Order>, k: nat, o: Order, slot: nat,
                   level: Level, i: nat)
    requires |chain| == |q| && RunEnd(q, k, o.price) && Joined(levels, o, slot, level)
    requires i < |q| && EndsAt(levels, chain, q, i)
    requires Contiguous(q)
    ensures EndsAt(levels[o.price := level], InsertAt(chain, k, slot), InsertAt(q, k, o), if i < k then i else i + 1)
  {
    InsertLinks(chain, q, k, o, slot, i);
    if i + 1 < k && q[i].price == o.price && i + 2 < k {
      assert q[k - 1].price == o.price;
    }
  }

  // ---- unhooking a slot ---------------------------------------------------

  function Unhooked(slab: map<nat, Node>, slot: nat): map<nat, Node>
    requires slot in slab
  {
    var n := slab[slot];
    SetPrev(SetNext(slab - {slot}, n.prev, n.next), n.next, n.prev)
  }

  /** What unhooking does to any other slot. */
  lemma UnhookedAt(slab: map<nat, Node>, slot: nat, x: nat)
    requires slot in slab && x in slab && x != slot
    requires slab[slot].prev != Some(slot) && slab[slot].next != Some(slot)
    ensures var n := slab[slot];
      && x in Unhooked(slab, slot)
      && Unhooked(slab, slot)[x] == Node(slab[x].order,
           if n.next == Some(x) then n.prev else slab[x].prev,
           if n.prev == Some(x) then n.next else slab[x].next)
  {
  }

  /** The links a list wants after dropping position k. */
  lemma DropLinks(chain: seq<nat>, q: seq<Order>, k: nat, i: nat)
    requires |chain| == |q| && Contiguous(q) && k < |q| && i < |q| && i != k
    ensures var q', c' := Drop(q, k), Drop(chain, k);
      var j := if i < k then i else i - 1;
      && q'[j] == q[i] && c'[j] == chain[i]
      && PrevOf(q', c', j)
         == (if i == k + 1 && q[i].price == q[k].price then PrevOf(q, chain, k) else PrevOf(q, chain, i))
      && NextOf(q', c', j)
         == (if i == k - 1 && q[i].price == q[k].price then NextOf(q, chain, k) else NextOf(q, chain, i))
  {
    var q', c' := Drop(q, k), Drop(chain, k);
    if 0 < k < |q| - 1 && q[k - 1].price == q[k + 1].price {
      assert q[k].price == q[k - 1].price;
    }
    if i < k {
      if i > 0 { assert q'[i - 1] == q[i - 1] && c'[i - 1] == chain[i - 1]; }
      if i + 1 < k {
        assert q'[i + 1] == q[i + 1] && c'[i + 1] == chain[i + 1];
      } else if i + 2 < |q| {
        assert q'[i + 1] == q[i + 2] && c'[i + 1] == chain[i + 2];
      }
    } else {
      if i + 1 < |q| { assert q'[i] == q[i + 1] && c'[i] == chain[i + 1]; }
      if i - 1 > k {
        assert q'[i - 2] == q[i - 1] && c'[i - 2] == chain[i - 1];
      } else if i > 1 {
        assert q'[i - 2] == q[i - 2] && c'[i - 2] == chain[i - 2];
      }
    }
  }

  lemma LinkedDropNode(slab: map<nat, Node>, chain: seq<nat>, q: seq<Order>, k: nat, i: nat)
    requires |chain| == |q| && NoRepeats(chain) && Contiguous(q)
    requires k < |q| && i < |q| && i != k && NodeAt(slab, chain, q, k) && NodeAt(slab, chain, q, i)
    ensures NodeAt(Unhooked(slab, chain[k]), Drop(chain, k), Drop(q, k), if i < k then i else i - 1)
  {
    UnhookedAt(slab, chain[k], chain[i]);
    DropLinks(chain, q, k, i);
    assert NextOf(q, chain, k) == Some(chain[i]) <==> i == k + 1 && q[i].price == q[k].price;
    assert PrevOf(q, chain, k) == Some(chain[i]) <==> i == k - 1 && q[i].price == q[k].price;
  }

  lemma LinkedDrop(slab: map<nat, Node>, chain: seq<nat>, q: seq<Order>, k: nat)
    requires Linked(slab, chain, q) && NoRepeats(chain) && Contiguous(q) && k < |q|
    requires chain[k] in slab
    ensures Linked(Unhooked(slab, chain[k]), Drop(chain, k), Drop(q, k))
  {
    assert NodeAt(slab, chain, q, k);
    forall j | 0 <= j < |q| - 1 ensures NodeAt(Unhooked(slab, chain[k]), Drop(chain, k), Drop(q, k), j) {
      var i := if j < k then j else j + 1;
      assert NodeAt(slab, chain, q, i);
      LinkedDropNode(slab, chain, q, k, i);
    }
  }

  /** The level map after an order with these links left its level. */
  function Shrunk(levels: map<i64, Level>, n: Node): map<i64, Level>
    requires n.order.price in levels
    requires levels[n.order.price].count > 0
    requires 0 <= n.order.Remaining() <= levels[n.order.price].total
  {
    var p := n.order.price;
    var l := levels[p];
    if l.count == 1 then levels - {p}
    else levels[p := Level(if n.prev.None? then n.next else l.head,
                           if n.next.None? then n.prev else l.tail,
                           l.count - 1, l.total - n.order.Remaining())]
  }

  /** An order's remainder is part of its level's total. */
  lemma RemainderInTotal(levels: map<i64, Level>, side: Side, q: seq<Order>, k: nat)
    requires Totalled(levels, q) && k < |q|
    requires forall i :: 0 <= i < |q| ==> q[i].filled <= q[i].total
    ensures q[k].price in levels && levels[q[k].price].count > 0
    ensures 0 <= q[k].Remaining() <= levels[q[k].price].total
  {
    assert TotalAt(levels, q, q[k].price);
    var w := AtPrice(q[k].price);
    SumNonNegative(q, w);
    assert w(q[k]) <= Sum(q, w);
  }

  lemma TotalledDrop(levels: map<i64, Level>, q: seq<Order>, k: nat, n: Node)
    requires Totalled(levels, q) && k < |q| && n.order == q[k]
    requires q[k].price in levels && levels[q[k].price].count > 0
    requires 0 <= q[k].Remaining() <= levels[q[k].price].total
    ensures Totalled(Shrunk(levels, n), Drop(q, k))
  {
    var q', l' := Drop(q, k), Shrunk(levels, n);
    forall p | p in l' ensures TotalAt(l', q', p) {
      assert TotalAt(levels, q, p);
      SumDrop(q, k, CountAt(p));
      SumDrop(q, k, AtPrice(p));
    }
    forall j | 0 <= j < |q'| ensures q'[j].price in l' {
      PresenceIsCount(q', j);
      SumDrop(q, k, CountAt(q'[j].price));
      assert TotalAt(levels, q, q[k].price);
    }
  }

  lemma LevelledDrop(levels: map<i64, Level>, chain: seq<nat>, q: seq<Order>, k: nat, n: Node)
    requires Levelled(levels, chain, q) && Contiguous(q) && k < |q|
    requires n == Node(q[k], PrevOf(q, chain, k), NextOf(q, chain, k))
    requires q[k].price in levels && levels[q[k].price].count > 0
    requires 0 <= q[k].Remaining() <= levels[q[k].price].total
    ensures Levelled(Shrunk(levels, n), Drop(chain, k), Drop(q, k))
  {
    hide EndsAt, TotalAt, PrevOf, NextOf, Shrunk, Contiguous;
    TotalledDrop(levels, q, k, n);
    var q', c', l' := Drop(q, k), Drop(chain, k), Shrunk(levels, n);
    forall j | 0 <= j < |q'| ensures EndsAt(l', c', q', j) {
      var i := if j < k then j else j + 1;
      assert EndsAt(levels, chain, q, i);
      assert q'[j].price in l';
      EndsDrop(levels, chain, q, k, n, i);
    }
  }

  lemma EndsDrop(levels: map<i64, Level>, chain: seq<nat>, q: seq<Order>, k: nat, n: Node, i: nat)
    requires |chain| == |q| && Contiguous(q) && k < |q| && i < |q| && i != k
    requires n == Node(q[k], PrevOf(q, chain, k), NextOf(q, chain, k))
    requires q[k].price in levels && levels[q[k].price].count > 0
    requires 0 <= q[k].Remaining() <= levels[q[k].price].total
    requires EndsAt(levels, chain, q, i) && q[i].price in Shrunk(levels, n)
    ensures EndsAt(Shrunk(levels, n), Drop(chain, k), Drop(q, k), if i < k then i else i - 1)
  {
    DropLinks(chain, q, k, i);
    if q[i].price == q[k].price {
      if i + 1 < k {
        assert q[k - 1].price == q[k].price && q[i + 1].price == q[k].price;
      } else if i > k + 1 {
        assert q[k + 1].price == q[k].price && q[i - 1].price == q[k].price;
      }
    }
  }

  // ---- quantity changes ---------------------------------------------------

  lemma LinkedResize(slab: map<nat, Node>, chain: seq<nat>, q: seq<Order>, k: nat, o: Order)
    requires Linked(slab, chain, q) && NoRepeats(chain) && k < |q| && o.price == q[k].price
    requires chain[k] in slab
    ensures Linked(slab[chain[k] := slab[chain[k]].(order := o)], chain, q[k := o])
  {
    var q', slab' := q[k := o], slab[chain[k] := slab[chain[k]].(order := o)];
    forall i | 0 <= i < |q'| ensures NodeAt(slab', chain, q', i) {
      assert NodeAt(slab, chain, q, i);
      ResizeLinks(chain, q, k, o, i);
    }
  }

  lemma ResizeLinks(chain: seq<nat>, q: seq<Order>, k: nat, o: Order, i: nat)
    requires |chain| == |q| && k < |q| && o.price == q[k].price && i < |q|
    ensures PrevOf(q[k := o], chain, i) == PrevOf(q, chain, i)
    ensures NextOf(q[k := o], chain, i) == NextOf(q, chain, i)
  {
  }

  lemma TotalledResize(levels: map<i64, Level>, q: seq<Order>, k: nat, o: Order, total: u64)
    requires Totalled(levels, q) && k < |q| && o.price == q[k].price && o.price in levels
    requires total == levels[o.price].total - q[k].Remaining() + o.Remaining()
    ensures Totalled(levels[o.price := levels[o.price].(total := total)], q[k := o])
  {
    var q', l' := q[k := o], levels[o.price := levels[o.price].(total := total)];
    forall p | p in l' ensures TotalAt(l', q', p) {
      assert TotalAt(levels, q, p);
      SumReplace(q, k, o, CountAt(p));
      SumReplace(q, k, o, AtPrice(p));
    }
  }

  lemma LevelledResize(levels: map<i64, Level>, chain: seq<nat>, q: seq<Order>, k: nat, o: Order, total: u64)
    requires Levelled(levels, chain, q) && k < |q| && o.price == q[k].price && o.price in levels
    requires total == levels[o.price].total - q[k].Remaining() + o.Remaining()
    ensures Levelled(levels[o.price := levels[o.price].(total := total)], chain, q[k := o])
  {
    TotalledResize(levels, q, k, o, total);
    var q', l' := q[k := o], levels[o.price := levels[o.price].(total := total)];
    forall i | 0 <= i < |q'| ensures EndsAt(l', chain, q', i) {
      assert EndsAt(levels, chain, q, i);
      ResizeLinks(chain, q, k, o, i);
    }
  }

  // ---- one side as a whole ------------------------------------------------

  ghost predicate Indexed(index: map<u64, nat>, chain: seq<nat>, q: seq<Order>) {
    && |chain| == |q|
    && forall i :: 0 <= i < |q| ==> q[i].id in index && index[q[i].id] == chain[i]
  }

  ghost predicate SideOk(slab: map<nat, Node>, index: map<u64, nat>, levels: map<i64, Level>,
                         chain: seq<nat>, q: seq<Order>)
  {
    Linked(slab, chain, q) && NoRepeats(chain) && Levelled(levels, chain, q) && Indexed(index, chain, q)
  }

  ghost predicate ChainsApart(a: seq<nat>, b: seq<nat>) {
    && (forall i, j :: 0 <= i < |a| && 0 <= j < |b| ==> a[i] != b[j])
    && (forall i, j :: 0 <= i < |b| && 0 <= j < |a| ==> b[i] != a[j])
  }

  /** Nothing is indexed beyond the orders of the two lists. */
  ghost predicate OnlyIndexes(index: map<u64, nat>, b: Book) {
    forall id :: id in index ==> Find(b.bids, id) < |b.bids| || Find(b.asks, id) < |b.asks|
  }

  lemma SideInsert(slab: map<nat, Node>, index: map<u64, nat>, levels: map<i64, Level>, chain: seq<nat>,
                   q: seq<Order>, o: Order, slot: nat, level: Level)
    requires SideOk(slab, index, levels, chain, q) && Ordered(o.side, q)
    requires slot !in slab && Joined(levels, o, slot, level)
    requires forall i :: 0 <= i < |q| ==> q[i].id != o.id
    ensures var k := Place(q, o.side, o.price);
      SideOk(Hooked(slab, Behind(q, chain, k, o.price), slot, o), index[o.id := slot],
             levels[o.price := level], InsertAt(chain, k, slot), Enqueue(q, o))
  {
    var k := Place(q, o.side, o.price);
    PlaceIsRunEnd(o.side, q, o.price);
    QueueIsContiguous(o.side, q);
    LinkedInsert(slab, chain, q, k, o, slot);
    LevelledInsert(levels, chain, q, k, o, slot, level);
    IndexedInsert(index, chain, q, k, o, slot);
    NoRepeatsInsert(slab, chain, q, k, slot);
  }

  lemma IndexedInsert(index: map<u64, nat>, chain: seq<nat>, q: seq<Order>, k: nat, o: Order, slot: nat)
    requires Indexed(index, chain, q) && k <= |q|
    requires forall i :: 0 <= i < |q| ==> q[i].id != o.id
    ensures Indexed(index[o.id := slot], InsertAt(chain, k, slot), InsertAt(q, k, o))
  {
  }

  lemma NoRepeatsInsert(slab: map<nat, Node>, chain: seq<nat>, q: seq<Order>, k: nat, slot: nat)
    requires Linked(slab, chain, q) && NoRepeats(chain) && slot !in slab && k <= |q|
    ensures NoRepeats(InsertAt(chain, k, slot))
  {
    forall i | 0 <= i < |chain| ensures chain[i] != slot {
      assert NodeAt(slab, chain, q, i);
    }
  }

  /** Hooking a slot in elsewhere leaves this side as it was. */
  lemma LinkedHookFrame(slab: map<nat, Node>, chain: seq<nat>, q: seq<Order>, at: Option<nat>, slot: nat, o: Order)
    requires Linked(slab, chain, q) && slot !in slab
    requires forall i :: 0 <= i < |chain| ==> at != Some(chain[i])
    ensures Linked(Hooked(slab, at, slot, o), chain, q)
  {
    forall i | 0 <= i < |q| ensures NodeAt(Hooked(slab, at, slot, o), chain, q, i) {
      assert NodeAt(slab, chain, q, i);
      HookedAt(slab, at, slot, o, chain[i]);
    }
  }

  lemma ApartInsert(slab: map<nat, Node>, a: seq<nat>, b: seq<nat>, qb: seq<Order>, k: nat, slot: nat)
    requires ChainsApart(a, b) && k <= |a| && slot !in slab && Linked(slab, b, qb)
    ensures ChainsApart(InsertAt(a, k, slot), b)
  {
    forall j | 0 <= j < |b| ensures b[j] != slot {
      assert NodeAt(slab, b, qb, j);
    }
  }

  lemma EnqueueFinds(q: seq<Order>, o: Order, id: u64)
    requires id == o.id || Find(q, id) < |q|
    ensures Find(Enqueue(q, o), id) < |Enqueue(q, o)|
  {
    hide Place;
    var k, q' := Place(q, o.side, o.price), Enqueue(q, o);
    if id == o.id {
      assert q'[k].id == id;
    } else {
      var i := Find(q, id);
      assert q'[if i < k then i else i + 1].id == id;
    }
  }

  lemma OnlyIndexesInsert(index: map<u64, nat>, b: Book, o: Order, slot: nat)
    requires OnlyIndexes(index, b)
    ensures OnlyIndexes(index[o.id := slot], Insert(b, o))
  {
    hide Find, Enqueue;
    forall id | id in index[o.id := slot]
      ensures Find(Insert(b, o).bids, id) < |Insert(b, o).bids| || Find(Insert(b, o).asks, id) < |Insert(b, o).asks|
    {
      if id == o.id || Find(b.Of(o.side), id) < |b.Of(o.side)| {
        EnqueueFinds(b.Of(o.side), o, id);
      }
    }
  }

  // ---- the whole representation -------------------------------------------

  datatype Rep = Rep(
    bids: map<i64, Level>,
    asks: map<i64, Level>,
    slab: map<nat, Node>,
    index: map<u64, nat>,
    bidChain: seq<nat>,
    askChain: seq<nat>)
  {
    function Levels(side: Side): map<i64, Level> {
      if side.Buy? then bids else asks
    }

    function Chain(side: Side): seq<nat> {
      if side.Buy? then bidChain else askChain
    }
  }

  /** Slots, links, levels and index agree with both lists of b. */
  ghost predicate Sides(r: Rep, b: Book) {
    && SideOk(r.slab, r.index, r.bids, r.bidChain, b.bids)
    && SideOk(r.slab, r.index, r.asks, r.askChain, b.asks)
    && ChainsApart(r.bidChain, r.askChain)
    && |r.slab| == b.Size()
  }

  /** Links, level aggregates, slab and index describe exactly `b`. */
  ghost predicate Represents(r: Rep, b: Book) {
    Orderly(b) && Sides(r, b) && OnlyIndexes(r.index, b)
  }

  ghost function InsertRep(r: Rep, b: Book, o: Order, slot: nat, level: Level): Rep
    requires |r.Chain(o.side)| == |b.Of(o.side)|
  {
    var k := Place(b.Of(o.side), o.side, o.price);
    var chain := InsertAt(r.Chain(o.side), k, slot);
    var slab := Hooked(r.slab, Behind(b.Of(o.side), r.Chain(o.side), k, o.price), slot, o);
    var levels := r.Levels(o.side)[o.price := level];
    var index := r.index[o.id := slot];
    if o.side.Buy? then Rep(levels, r.asks, slab, index, chain, r.askChain)
    else Rep(r.bids, levels, slab, index, r.bidChain, chain)
  }

  /** The untouched side after an insertion on the other one. */
  lemma OtherInsert(slab: map<nat, Node>, index: map<u64, nat>, levels: map<i64, Level>, chain: seq<nat>,
                    q: seq<Order>, mine: seq<nat>, mq: seq<Order>, k: nat, o: Order, slot: nat)
    requires SideOk(slab, index, levels, chain, q) && slot !in slab
    requires |mine| == |mq| && k <= |mq| && ChainsApart(mine, chain)
    requires forall i :: 0 <= i < |q| ==> q[i].id != o.id
    ensures SideOk(Hooked(slab, Behind(mq, mine, k, o.price), slot, o), index[o.id := slot], levels, chain, q)
    ensures ChainsApart(InsertAt(mine, k, slot), chain) && ChainsApart(chain, InsertAt(mine, k, slot))
  {
    LinkedHookFrame(slab, chain, q, Behind(mq, mine, k, o.price), slot, o);
    ApartInsert(slab, mine, chain, q, k, slot);
  }

  /** Both sides after an insertion, as the two lists' own facts. */
  lemma InsertSides(slab: map<nat, Node>, index: map<u64, nat>,
                    mine: map<i64, Level>, chain: seq<nat>, q: seq<Order>,
                    other: map<i64, Level>, otherChain: seq<nat>, oq: seq<Order>, o: Order, slot: nat, level: Level)
    requires SideOk(slab, index, mine, chain, q) && SideOk(slab, index, other, otherChain, oq)
    requires ChainsApart(chain, otherChain) &&  Ordered(o.side, q) && slot !in slab && Joined(mine, o, slot, level)
    requires forall i :: 0 <= i < |q| ==> q[i].id != o.id
    requires forall i :: 0 <= i < |oq| ==> oq[i].id != o.id
    ensures |chain| == |q|
    ensures var k := Place(q, o.side, o.price);
      var slab' := Hooked(slab, Behind(q, chain, k, o.price), slot, o);
      && SideOk(slab', index[o.id := slot], mine[o.price := level], InsertAt(chain, k, slot), Enqueue(q, o))
      && SideOk(slab', index[o.id := slot], other, otherChain, oq)
      && ChainsApart(InsertAt(chain, k, slot), otherChain) && ChainsApart(otherChain, InsertAt(chain, k, slot))
      && |slab'| == |slab| + 1
  {
    var k := Place(q, o.side, o.price);
    SideInsert(slab, index, mine, chain, q, o, slot, level);
    OtherInsert(slab, index, other, otherChain, oq, chain, q, k, o, slot);
    HookedSize(slab, Behind(q, chain, k, o.price), slot, o);
  }

  lemma ApartSwap(a: seq<nat>, b: seq<nat>)
    ensures ChainsApart(a, b) == ChainsApart(b, a)
  {
  }

  lemma InsertBid(r: Rep, b: Book, o: Order, slot: nat, level: Level)
    requires Sides(r, b) && Ordered(Buy, b.bids) && slot !in r.slab && Joined(r.bids, o, slot, level)
    requires o.side.Buy?
    requires forall i :: 0 <= i < |b.bids| ==> b.bids[i].id != o.id
    requires forall i :: 0 <= i < |b.asks| ==> b.asks[i].id != o.id
    ensures |r.bidChain| == |b.bids|
    ensures Sides(InsertRep(r, b, o, slot, level), Insert(b, o))
  {
    hide SideOk, ChainsApart, Ordered, Place;
    InsertSides(r.slab, r.index, r.bids, r.bidChain, b.bids, r.asks, r.askChain, b.asks, o, slot, level);
  }

  lemma InsertAsk(r: Rep, b: Book, o: Order, slot: nat, level: Level)
    requires Sides(r, b) && Ordered(Sell, b.asks) && slot !in r.slab && Joined(r.asks, o, slot, level)
    requires o.side.Sell?
    requires forall i :: 0 <= i < |b.bids| ==> b.bids[i].id != o.id
    requires forall i :: 0 <= i < |b.asks| ==> b.asks[i].id != o.id
    ensures |r.askChain| == |b.asks|
    ensures Sides(InsertRep(r, b, o, slot, level), Insert(b, o))
  {
    hide SideOk, ChainsApart, Ordered, Place;
    ApartSwap(r.bidChain, r.askChain);
    InsertSides(r.slab, r.index, r.asks, r.askChain, b.asks, r.bids, r.bidChain, b.bids, o, slot, level);
  }

  lemma InsertRepresents(r: Rep, b: Book, o: Order, slot: nat, level: Level)
    requires Represents(r, b) && slot !in r.slab && Joined(r.Levels(o.side), o, slot, level)
    requires o.filled < o.total && Fresh(b.Of(o.side), o.id, o.priority) && Lookup(b, o.id).None?
    ensures |r.Chain(o.side)| == |b.Of(o.side)|
    ensures Represents(InsertRep(r, b, o, slot, level), Insert(b, o))
  {
    hide Sides, OnlyIndexes, Ordered, Resting, Unique, Disjoint, Place, Find, Lookup, Fresh;
    AbsentId(b, o.id);
    InsertOrderly(b, o);
    OnlyIndexesInsert(r.index, b, o, slot);
    if o.side.Buy? {
      InsertBid(r, b, o, slot, level);
    } else {
      InsertAsk(r, b, o, slot, level);
    }
  }

  lemma HookedSize(slab: map<nat, Node>, at: Option<nat>, slot: nat, o: Order)
    requires slot !in slab
    ensures |Hooked(slab, at, slot, o)| == |slab| + 1
  {
    var s1 := SetNext(slab, at, Some(slot));
    assert s1.Keys == slab.Keys;
    assert Hooked(slab, at, slot, o).Keys == slab.Keys + {slot};
  }

  /** A level's tail is the order a newcomer of that price queues behind. */
  lemma TailIsBehind(levels: map<i64, Level>, chain: seq<nat>, q: seq<Order>, k: nat, price: i64)
    requires Levelled(levels, chain, q) && RunEnd(q, k, price)
    ensures Behind(q, chain, k, price) == if price in levels then levels[price].tail else None
  {
    PresentAtRunEnd(levels, q, k, price);
    if price in levels {
      assert EndsAt(levels, chain, q, k - 1);
    }
  }

  /** What an insertion relies on about the level it joins. */
  lemma JoinFacts(r: Rep, b: Book, o: Order)
    requires Represents(r, b)
    ensures var levels, q, chain := r.Levels(o.side), b.Of(o.side), r.Chain(o.side);
      var k := Place(q, o.side, o.price);
      && |q| == |chain|
      && Sum(q, AtPrice(o.price)) == (if o.price in levels then levels[o.price].total else 0)
      && Sum(q, CountAt(o.price)) == (if o.price in levels then levels[o.price].count else 0)
      && Behind(q, chain, k, o.price) == (if o.price in levels then levels[o.price].tail else None)
      && (o.price in levels ==> levels[o.price].tail.Some?)
  {
    var levels, q, chain := r.Levels(o.side), b.Of(o.side), r.Chain(o.side);
    var k := Place(q, o.side, o.price);
    LevelRoom(levels, q, o.price);
    PlaceIsRunEnd(o.side, q, o.price);
    PresentAtRunEnd(levels, q, k, o.price);
    TailIsBehind(levels, chain, q, k, o.price);
  }

  /** The level a new order finds, empty when its price has none. */
  function LevelFor(levels: map<i64, Level>, price: i64): Level {
    if price in levels then levels[price] else Level(None, None, 0, 0)
  }

  /** That level once the order in `slot` has joined it. */
  function Join(l: Level, slot: nat, remaining: u64): Level
    requires l.count < U32_MAX && l.total + remaining <= U64_MAX
  {
    Level(if l.tail.None? then Some(slot) else l.head, Some(slot), l.count + 1, l.total + remaining)
  }

  /** Storing the order and then linking both ends is one hooking. */
  lemma HookSteps(slab: map<nat, Node>, at: Option<nat>, slot: nat, o: Order)
    requires slot !in slab && (at.Some? ==> at.value in slab)
    ensures at.None? ==> slab[slot := Node(o, None, None)] == Hooked(slab, at, slot, o)
    ensures at.Some? ==>
      var s1 := slab[slot := Node(o, None, None)];
      var s2 := s1[at.value := s1[at.value].(next := Some(slot))];
      s2[slot := s2[slot].(prev := at)] == Hooked(slab, at, slot, o)
  {
  }

  lemma TailStored(r: Rep, b: Book, o: Order)
    requires Represents(r, b)
    ensures var l := LevelFor(r.Levels(o.side), o.price);
      l.tail.Some? ==> l.tail.value in r.slab
  {
    JoinFacts(r, b, o);
    var k := Place(b.Of(o.side), o.side, o.price);
    if k > 0 { assert NodeAt(r.slab, r.Chain(o.side), b.Of(o.side), k - 1); }
  }

  lemma PlanInsert(r: Rep, b: Book, o: Order, slot: nat, capacity: nat)
    requires Represents(r, b) && slot !in r.slab && Admits(b, o, capacity)
    requires o.filled < o.total && Fresh(b.Of(o.side), o.id, o.priority) && Lookup(b, o.id).None?
    ensures var l := LevelFor(r.Levels(o.side), o.price);
      && l.count < U32_MAX && l.total + o.Remaining() <= U64_MAX
      && |r.Chain(o.side)| == |b.Of(o.side)|
      && (l.tail.Some? ==> l.tail.value in r.slab)
      && var r1 := InsertRep(r, b, o, slot, Join(l, slot, o.Remaining()));
         Represents(r1, Insert(b, o)) && r1.slab == Hooked(r.slab, l.tail, slot, o)
  {
    hide Represents, Place, Find, Lookup, Fresh;
    JoinFacts(r, b, o);
    TailStored(r, b, o);
    var l := LevelFor(r.Levels(o.side), o.price);
    InsertRepresents(r, b, o, slot, Join(l, slot, o.Remaining()));
  }

  lemma VacantSlot(slab: map<nat, Node>) returns (slot: nat)
    ensures slot !in slab
  {
    slot := AboveAll(slab.Keys);
  }

  lemma AboveAll(s: set<nat>) returns (n: nat)
    ensures forall x :: x in s ==> x < n
  {
    if s == {} {
      n := 0;
    } else {
      var x :| x in s;
      var m := AboveAll(s - {x});
      n := if m <= x then x + 1 else m;
      forall y | y in s ensures y < n {
        if y != x { assert y in s - {x}; }
      }
    }
  }

  lemma LevelRoom(levels: map<i64, Level>, q: seq<Order>, price: i64)
    requires Totalled(levels, q)
    ensures Sum(q, AtPrice(price)) == (if price in levels then levels[price].total else 0)
    ensures Sum(q, CountAt(price)) == (if price in levels then levels[price].count else 0)
  {
    if price in levels {
      assert TotalAt(levels, q, price);
    } else {
      AbsentSums(levels, q, price);
    }
  }

  // ---- removal from the representation ------------------------------------

  lemma SideDrop(slab: map<nat, Node>, index: map<u64, nat>, levels: map<i64, Level>, chain: seq<nat>,
                 side: Side, q: seq<Order>, k: nat)
    requires SideOk(slab, index, levels, chain, q) && Queue(side, q) && k < |q|
    ensures |chain| == |q| && chain[k] in slab && slab[chain[k]].order == q[k]
    ensures q[k].price in levels && levels[q[k].price].count > 0
    ensures q[k].Remaining() <= levels[q[k].price].total
    ensures SideOk(Unhooked(slab, chain[k]), index - {q[k].id}, Shrunk(levels, slab[chain[k]]), Drop(chain, k), Drop(q, k))
  {
    assert NodeAt(slab, chain, q, k);
    QueueIsContiguous(side, q);
    RemainderInTotal(levels, side, q, k);
    LinkedDrop(slab, chain, q, k);
    LevelledDrop(levels, chain, q, k, slab[chain[k]]);
    IndexedDrop(index, chain, q, k);
  }

  lemma IndexedDrop(index: map<u64, nat>, chain: seq<nat>, q: seq<Order>, k: nat)
    requires Indexed(index, chain, q) && Unique(q) && k < |q|
    ensures Indexed(index - {q[k].id}, Drop(chain, k), Drop(q, k))
  {
  }

  /** The untouched side after a removal on the other one. */
  lemma OtherDrop(slab: map<nat, Node>, index: map<u64, nat>, levels: map<i64, Level>, chain: seq<nat>,
                  q: seq<Order>, mine: seq<nat>, mq: seq<Order>, k: nat)
    requires SideOk(slab, index, levels, chain, q)
    requires Linked(slab, mine, mq) && NoRepeats(mine) && k < |mq| && ChainsApart(mine, chain) && Disjoint(mq, q)
    ensures mine[k] in slab
    ensures SideOk(Unhooked(slab, mine[k]), index - {mq[k].id}, levels, chain, q)
    ensures ChainsApart(Drop(mine, k), chain)
  {
    assert NodeAt(slab, mine, mq, k);
    forall i | 0 <= i < |q| ensures NodeAt(Unhooked(slab, mine[k]), chain, q, i) {
      assert NodeAt(slab, chain, q, i);
      UnhookedAt(slab, mine[k], chain[i]);
    }
  }

  lemma UnhookedSize(slab: map<nat, Node>, slot: nat)
    requires slot in slab
    ensures |Unhooked(slab, slot)| == |slab| - 1
  {
    var n := slab[slot];
    var s1 := slab - {slot};
    assert s1.Keys == slab.Keys - {slot};
    assert SetNext(s1, n.prev, n.next).Keys == s1.Keys;
    assert Unhooked(slab, slot).Keys == s1.Keys;
  }

  lemma DropSides(slab: map<nat, Node>, index: map<u64, nat>, side: Side,
                  mine: map<i64, Level>, chain: seq<nat>, q: seq<Order>,
                  other: map<i64, Level>, otherChain: seq<nat>, oq: seq<Order>, k: nat)
    requires SideOk(slab, index, mine, chain, q) && SideOk(slab, index, other, otherChain, oq)
    requires ChainsApart(chain, otherChain) && Queue(side, q) && Disjoint(q, oq) && k < |q|
    ensures |chain| == |q| && chain[k] in slab && slab[chain[k]].order == q[k]
    ensures q[k].price in mine && mine[q[k].price].count > 0
    ensures q[k].Remaining() <= mine[q[k].price].total
    ensures var slab' := Unhooked(slab, chain[k]);
      && SideOk(slab', index - {q[k].id}, Shrunk(mine, slab[chain[k]]), Drop(chain, k), Drop(q, k))
      && SideOk(slab', index - {q[k].id}, other, otherChain, oq)
      && ChainsApart(Drop(chain, k), otherChain)
      && |slab'| == |slab| - 1
  {
    SideDrop(slab, index, mine, chain, side, q, k);
    OtherDrop(slab, index, other, otherChain, oq, chain, q, k);
    UnhookedSize(slab, chain[k]);
  }

  lemma ApartIds(a: seq<Order>, b: seq<Order>)
    ensures Disjoint(a, b) == Disjoint(b, a)
  {
  }

  lemma OnlyIndexesDrop(index: map<u64, nat>, b: Book, side: Side, k: nat)
    requires OnlyIndexes(index, b) && k < |b.Of(side)|
    ensures OnlyIndexes(index - {b.Of(side)[k].id}, b.With(side, Drop(b.Of(side), k)))
  {
    var q := b.Of(side);
    var b' := b.With(side, Drop(q, k));
    forall id | id in index - {q[k].id}
      ensures Find(b'.bids, id) < |b'.bids| || Find(b'.asks, id) < |b'.asks|
    {
      FindAfterDrop(q, k, id);
    }
  }

  lemma FindAfterDrop(q: seq<Order>, k: nat, id: u64)
    requires k < |q| && q[k].id != id
    ensures Find(q, id) < |q| ==> Find(Drop(q, k), id) < |q| - 1
  {
    var i := Find(q, id);
    if i < |q| {
      assert Drop(q, k)[if i < k then i else i - 1].id == id;
    }
  }

  ghost function DropRep(r: Rep, b: Book, side: Side, k: nat): Rep
    requires k < |b.Of(side)| == |r.Chain(side)| && r.Chain(side)[k] in r.slab
    requires var n := r.slab[r.Chain(side)[k]];
      && n.order.price in r.Levels(side) && r.Levels(side)[n.order.price].count > 0
      && 0 <= n.order.Remaining() <= r.Levels(side)[n.order.price].total
  {
    var slot := r.Chain(side)[k];
    var levels := Shrunk(r.Levels(side), r.slab[slot]);
    var index := r.index - {b.Of(side)[k].id};
    if side.Buy? then Rep(levels, r.asks, Unhooked(r.slab, slot), index, Drop(r.bidChain, k), r.askChain)
    else Rep(r.bids, levels, Unhooked(r.slab, slot), index, r.bidChain, Drop(r.askChain, k))
  }

  lemma DropSide(r: Rep, b: Book, side: Side, k: nat)
    requires Sides(r, b) && Queue(side, b.Of(side)) && Disjoint(b.bids, b.asks) && k < |b.Of(side)|
    ensures |b.Of(side)| == |r.Chain(side)| && r.Chain(side)[k] in r.slab
    ensures var n := r.slab[r.Chain(side)[k]];
      && n.order == b.Of(side)[k]
      && n.order.price in r.Levels(side) && r.Levels(side)[n.order.price].count > 0
      && 0 <= n.order.Remaining() <= r.Levels(side)[n.order.price].total
    ensures Sides(DropRep(r, b, side, k), b.With(side, Drop(b.Of(side), k)))
  {
    hide SideOk, ChainsApart, Ordered, Unique, Disjoint;
    ApartSwap(r.bidChain, r.askChain);
    ApartIds(b.bids, b.asks);
    if side.Buy? {
      DropSides(r.slab, r.index, side, r.bids, r.bidChain, b.bids, r.asks, r.askChain, b.asks, k);
    } else {
      DropSides(r.slab, r.index, side, r.asks, r.askChain, b.asks, r.bids, r.bidChain, b.bids, k);
      ApartSwap(Drop(r.askChain, k), r.bidChain);
    }
  }

  lemma DropRepresents(r: Rep, b: Book, side: Side, k: nat)
    requires Represents(r, b) && k < |b.Of(side)|
    ensures |b.Of(side)| == |r.Chain(side)| && r.Chain(side)[k] in r.slab
    ensures var n := r.slab[r.Chain(side)[k]];
      && n.order == b.Of(side)[k]
      && n.order.price in r.Levels(side) && r.Levels(side)[n.order.price].count > 0
      && 0 <= n.order.Remaining() <= r.Levels(side)[n.order.price].total
    ensures Represents(DropRep(r, b, side, k), b.With(side, Drop(b.Of(side), k)))
  {
    hide Sides, OnlyIndexes, Queue, Disjoint;
    DropOrderly(b, side, k);
    OnlyIndexesDrop(r.index, b, side, k);
    DropSide(r, b, side, k);
  }

  // ---- quantity changes in the representation -----------------------------

  lemma SideResize(slab: map<nat, Node>, index: map<u64, nat>, levels: map<i64, Level>, chain: seq<nat>,
                   q: seq<Order>, k: nat, o: Order, total: u64)
    requires SideOk(slab, index, levels, chain, q) && k < |q|
    requires o.price == q[k].price && o.id == q[k].id
    requires o.price in levels && total == levels[o.price].total - q[k].Remaining() + o.Remaining()
    ensures |chain| == |q| && chain[k] in slab
    ensures SideOk(slab[chain[k] := slab[chain[k]].(order := o)], index,
                   levels[o.price := levels[o.price].(total := total)], chain, q[k := o])
  {
    assert NodeAt(slab, chain, q, k);
    LinkedResize(slab, chain, q, k, o);
    LevelledResize(levels, chain, q, k, o, total);
  }

  lemma OtherResize(slab: map<nat, Node>, index: map<u64, nat>, levels: map<i64, Level>, chain: seq<nat>,
                    q: seq<Order>, mine: seq<nat>, k: nat, o: Order)
    requires SideOk(slab, index, levels, chain, q) && ChainsApart(mine, chain) && k < |mine| && mine[k] in slab
    ensures SideOk(slab[mine[k] := slab[mine[k]].(order := o)], index, levels, chain, q)
  {
    var slab' := slab[mine[k] := slab[mine[k]].(order := o)];
    forall i | 0 <= i < |q| ensures NodeAt(slab', chain, q, i) {
      assert NodeAt(slab, chain, q, i);
    }
  }

  lemma ResizeSides(slab: map<nat, Node>, index: map<u64, nat>,
                    mine: map<i64, Level>, chain: seq<nat>, q: seq<Order>,
                    other: map<i64, Level>, otherChain: seq<nat>, oq: seq<Order>, k: nat, o: Order, total: u64)
    requires SideOk(slab, index, mine, chain, q) && SideOk(slab, index, other, otherChain, oq)
    requires ChainsApart(chain, otherChain) && k < |q| && o.price == q[k].price && o.id == q[k].id
    requires o.price in mine && total == mine[o.price].total - q[k].Remaining() + o.Remaining()
    ensures |chain| == |q| && chain[k] in slab
    ensures var slab' := slab[chain[k] := slab[chain[k]].(order := o)];
      && SideOk(slab', index, mine[o.price := mine[o.price].(total := total)], chain, q[k := o])
      && SideOk(slab', index, other, otherChain, oq)
      && |slab'| == |slab|
  {
    SideResize(slab, index, mine, chain, q, k, o, total);
    OtherResize(slab, index, other, otherChain, oq, chain, k, o);
    assert slab[chain[k] := slab[chain[k]].(order := o)].Keys == slab.Keys;
  }

  lemma OnlyIndexesResize(index: map<u64, nat>, b: Book, side: Side, k: nat, o: Order)
    requires OnlyIndexes(index, b) && k < |b.Of(side)| && o.id == b.Of(side)[k].id
    ensures OnlyIndexes(index, b.With(side, b.Of(side)[k := o]))
  {
    var q := b.Of(side);
    var b' := b.With(side, q[k := o]);
    forall id | id in index
      ensures Find(b'.bids, id) < |b'.bids| || Find(b'.asks, id) < |b'.asks|
    {
      var i := Find(q, id);
      if i < |q| { assert q[k := o][i].id == id; }
    }
  }

  ghost function ResizeRep(r: Rep, side: Side, k: nat, o: Order, total: u64): Rep
    requires k < |r.Chain(side)| && r.Chain(side)[k] in r.slab && o.price in r.Levels(side)
  {
    var slot := r.Chain(side)[k];
    var slab := r.slab[slot := r.slab[slot].(order := o)];
    var levels := r.Levels(side)[o.price := r.Levels(side)[o.price].(total := total)];
    if side.Buy? then r.(slab := slab, bids := levels) else r.(slab := slab, asks := levels)
  }

  lemma ResizeSide(r: Rep, b: Book, side: Side, k: nat, o: Order, total: u64)
    requires Sides(r, b) && k < |b.Of(side)| && o.price == b.Of(side)[k].price && o.id == b.Of(side)[k].id
    requires o.price in r.Levels(side)
    requires total == r.Levels(side)[o.price].total - b.Of(side)[k].Remaining() + o.Remaining()
    ensures k < |r.Chain(side)| && r.Chain(side)[k] in r.slab
    ensures Sides(ResizeRep(r, side, k, o, total), b.With(side, b.Of(side)[k := o]))
  {
    hide SideOk, ChainsApart;
    ApartSwap(r.bidChain, r.askChain);
    if side.Buy? {
      ResizeSides(r.slab, r.index, r.bids, r.bidChain, b.bids, r.asks, r.askChain, b.asks, k, o, total);
    } else {
      ResizeSides(r.slab, r.index, r.asks, r.askChain, b.asks, r.bids, r.bidChain, b.bids, k, o, total);
    }
  }

  lemma ResizeRepresents(r: Rep, b: Book, side: Side, k: nat, o: Order, total: u64)
    requires Represents(r, b) && k < |b.Of(side)| && o.filled < o.total
    requires o == b.Of(side)[k].(total := o.total, filled := o.filled)
    requires o.price in r.Levels(side)
    requires total == r.Levels(side)[o.price].total - b.Of(side)[k].Remaining() + o.Remaining()
    ensures k < |r.Chain(side)| && r.Chain(side)[k] in r.slab
    ensures Represents(ResizeRep(r, side, k, o, total), b.With(side, b.Of(side)[k := o]))
  {
    hide Sides, OnlyIndexes, Orderly;
    ResizeOrderly(b, side, k, o);
    OnlyIndexesResize(r.index, b, side, k, o);
    ResizeSide(r, b, side, k, o, total);
  }

  // ---- filling the first order --------------------------------------------

  /** The first order is filled in place and, when nothing remains, unhooked. */
  ghost function FillRep(r: Rep, side: Side, quantity: u64): Rep
    requires Headed(r, side, quantity)
  {
    var slot := r.Chain(side)[0];
    var n := r.slab[slot];
    var p, whole := n.order.price, quantity == n.order.Remaining();
    var filled := n.(order := n.order.(filled := n.order.filled + quantity));
    var part := r.Levels(side)[p := r.Levels(side)[p].(total := r.Levels(side)[p].total - quantity)];
    var levels := if whole then Shrunk(part, filled) else part;
    var slab := if whole then Unhooked(r.slab[slot := filled], slot) else r.slab[slot := filled];
    var index := if whole then r.index - {n.order.id} else r.index;
    var chain := if whole then Drop(r.Chain(side), 0) else r.Chain(side);
    if side.Buy? then Rep(levels, r.asks, slab, index, chain, r.askChain)
    else Rep(r.bids, levels, slab, index, r.bidChain, chain)
  }

  ghost predicate Headed(r: Rep, side: Side, quantity: u64) {
    && r.Chain(side) != [] && r.Chain(side)[0] in r.slab
    && var n := r.slab[r.Chain(side)[0]];
    && n.order.price in r.Levels(side) && r.Levels(side)[n.order.price].count > 0
    && 0 < quantity <= n.order.Remaining() <= r.Levels(side)[n.order.price].total
  }

  lemma FillRepresents(r: Rep, b: Book, side: Side, quantity: u64)
    requires Represents(r, b) && b.Of(side) != [] && 0 < quantity <= b.Of(side)[0].Remaining()
    ensures Headed(r, side, quantity) && r.slab[r.Chain(side)[0]].order == b.Of(side)[0]
    ensures Represents(FillRep(r, side, quantity), b.With(side, FillHead(b.Of(side), quantity)))
  {
    hide Represents, Shrunk, SetNext, SetPrev;
    DropRepresents(r, b, side, 0);
    var slot := r.Chain(side)[0];
    var o := r.slab[slot].order;
    if quantity == o.Remaining() {
      FullFill(r.slab, r.Levels(side), slot, quantity);
      assert FillHead(b.Of(side), quantity) == Drop(b.Of(side), 0);
      assert FillRep(r, side, quantity) == DropRep(r, b, side, 0);
    } else {
      var sum := r.Levels(side)[o.price].total - quantity;
      ResizeRepresents(r, b, side, 0, o.(filled := o.filled + quantity), sum);
    }
  }

  // ---- finding an order ---------------------------------------------------

  /** The index leads to the slot of the order with that id. */
  lemma Locate(r: Rep, b: Book, id: u64) returns (k: nat)
    requires Represents(r, b) && id in r.index
    ensures r.index[id] in r.slab
    ensures var side := r.slab[r.index[id]].order.side;
      && k == Find(b.Of(side), id) < |b.Of(side)| == |r.Chain(side)|
      && r.Chain(side)[k] == r.index[id]
      && r.slab[r.index[id]].order == b.Of(side)[k]
      && Lookup(b, id) == Some(b.Of(side)[k])
      && Remove(b, id) == b.With(side, Drop(b.Of(side), k))
      && (forall t: u64 :: Reduce(b, id, t) == b.With(side, Resize(b.Of(side), k, t)))
  {
    var side := if Find(b.bids, id) < |b.bids| then Buy else Sell;
    k := Find(b.Of(side), id);
    LocateOn(r, b, side, k);
  }

  lemma LocateOn(r: Rep, b: Book, side: Side, k: nat)
    requires Sides(r, b) && Resting(side, b.Of(side)) && k < |b.Of(side)|
    ensures |r.Chain(side)| == |b.Of(side)|
    ensures b.Of(side)[k].id in r.index && r.index[b.Of(side)[k].id] == r.Chain(side)[k]
    ensures r.Chain(side)[k] in r.slab && r.slab[r.Chain(side)[k]].order == b.Of(side)[k]
    ensures b.Of(side)[k].side == side
  {
    assert NodeAt(r.slab, r.Chain(side), b.Of(side), k);
  }

  lemma IndexIsLookup(r: Rep, b: Book, id: u64)
    requires Represents(r, b)
    ensures id in r.index <==> Lookup(b, id).Some?
  {
    if Find(b.bids, id) < |b.bids| {
      LocateOn(r, b, Buy, Find(b.bids, id));
    } else if Find(b.asks, id) < |b.asks| {
      LocateOn(r, b, Sell, Find(b.asks, id));
    }
  }

  /** The level of an order holds at least that order. */
  lemma LevelOf(r: Rep, b: Book, side: Side, k: nat)
    requires Represents(r, b) && k < |b.Of(side)|
    ensures var o := b.Of(side)[k];
      && o.price in r.Levels(side)
      && r.Levels(side)[o.price].count > 0
      && 0 < o.Remaining() <= r.Levels(side)[o.price].total
  {
    RemainderInTotal(r.Levels(side), side, b.Of(side), k);
  }

  // ---- the best price -----------------------------------------------------

  lemma LevelPrices(r: Rep, b: Book, side: Side, price: i64) returns (i: nat)
    requires Sides(r, b) && price in r.Levels(side)
    ensures i < |b.Of(side)| && b.Of(side)[i].price == price
  {
    assert TotalAt(r.Levels(side), b.Of(side), price);
    i := CountIsPresence(b.Of(side), price);
  }

  /** The best key of a side's level map is the price of the first order, whose
      slot is that level's head. */
  lemma BestIsFirst(r: Rep, b: Book, side: Side, price: i64)
    requires Represents(r, b) && price in r.Levels(side)
    requires forall p :: p in r.Levels(side) ==> Rank(side, price) <= Rank(side, p)
    ensures b.Of(side) != [] && b.Of(side)[0].price == price
  {
    var q := b.Of(side);
    var i := LevelPrices(r, b, side, price);
    assert q[0].price in r.Levels(side);
    if i > 0 { assert Ahead(side, q[0], q[i]); }
  }

  lemma HeadIsFirst(r: Rep, b: Book, side: Side)
    requires Represents(r, b) && b.Of(side) != []
    ensures r.Chain(side) != []
    ensures var q := b.Of(side);
      q[0].price in r.Levels(side) && r.Levels(side)[q[0].price].head == Some(r.Chain(side)[0])
  {
    assert EndsAt(r.Levels(side), r.Chain(side), b.Of(side), 0);
  }

  lemma EmptySide(r: Rep, b: Book, side: Side)
    requires Sides(r, b)
    ensures b.Of(side) == [] <==> r.Levels(side) == map[]
  {
    if b.Of(side) != [] {
      assert b.Of(side)[0].price in r.Levels(side);
    } else if r.Levels(side) != map[] {
      var p :| p in r.Levels(side);
      var i := LevelPrices(r, b, side, p);
    }
  }

  lemma BestKey(side: Side, levels: map<i64, Level>) returns (best: i64)
    requires levels != map[]
    ensures best in levels && forall p :: p in levels ==> Rank(side, best) <= Rank(side, p)
  {
    best := BestOf(side, levels.Keys);
  }

  // ---- the mutable book ---------------------------------------------------

  class OrderBook {
    var bids: map<i64, Level>
    var asks: map<i64, Level>
    var slab: map<nat, Node>
    var index: map<u64, nat>
    const capacity: nat

    ghost var book: Book
    ghost var bidChain: seq<nat>
    ghost var askChain: seq<nat>

    ghost function ToRep(): Rep
      reads this
    {
      Rep(bids, asks, slab, index, bidChain, askChain)
    }

    ghost predicate Valid()
      reads this
    {
      Represents(ToRep(), book)
    }

    constructor (capacity: nat)
      ensures Valid() && book == EmptyBook && this.capacity == capacity
    {
      this.capacity := capacity;
      bids, asks, slab, index := map[], map[], map[], map[];
      book, bidChain, askChain := EmptyBook, [], [];
    }

    method IsFull() returns (full: bool)
      requires Valid()
      ensures full <==> book.Size() >= capacity
    {
      full := |slab| >= capacity;
    }

    method Get(id: u64) returns (order: Option<Order>)
      requires Valid()
      ensures order == Lookup(book, id)
    {
      hide Represents, Lookup, Find;
      IndexIsLookup(ToRep(), book, id);
      if id !in index {
        return None;
      }
      ghost var k := Locate(ToRep(), book, id);
      order := Some(slab[index[id]].order);
    }

    /** Appends an order at the tail of its price level; refused when the slab
        is full or the level's aggregates would overflow. */
    method Insert(order: Order) returns (ok: bool)
      requires Valid()
      requires order.filled != order.total
      requires Fresh(book.Of(order.side), order.id, order.priority)
      requires Lookup(book, order.id).None?
      modifies this
      ensures Valid()
      ensures ok == Admits(old(book), order, capacity)
      ensures book == if ok then PriceTime.Insert(old(book), order) else old(book)
    {
      hide Represents, Fresh, Lookup, Place;
      var full := IsFull();
      if full || order.filled > order.total {
        return false;
      }
      var levels := if order.side.Buy? then bids else asks;
      JoinFacts(ToRep(), book, order);
      if order.price in levels {
        var level := levels[order.price];
        if level.total + order.Remaining() > U64_MAX || level.count + 1 > U32_MAX {
          return false;
        }
      }
      LinkIn(order);
      return true;
    }

    /** Stores the order in a vacant slot and hooks it behind its level's tail. */
    method LinkIn(order: Order)
      requires Valid() && order.filled < order.total
      requires Admits(book, order, capacity)
      requires Fresh(book.Of(order.side), order.id, order.priority)
      requires Lookup(book, order.id).None?
      modifies this
      ensures Valid() && book == PriceTime.Insert(old(book), order)
    {
      hide Represents, Fresh, Lookup, Place, Admits, Hooked;
      ghost var r0, b0 := ToRep(), book;
      var levels := if order.side.Buy? then bids else asks;
      ghost var unused := VacantSlot(slab);
      var slot: nat :| slot !in slab;
      PlanInsert(r0, b0, order, slot, capacity);
      var level := LevelFor(levels, order.price);
      HookSteps(slab, level.tail, slot, order);
      slab := slab[slot := Node(order, None, None)];
      index := index[order.id := slot];
      match level.tail {
        case Some(tail) =>
          slab := slab[tail := slab[tail].(next := Some(slot))];
          slab := slab[slot := slab[slot].(prev := Some(tail))];
        case None =>
          level := level.(head := Some(slot));
      }
      level := level.(tail := Some(slot), count := level.count + 1, total := level.total + order.Remaining());
      if order.side.Buy? {
        bids := levels[order.price := level];
      } else {
        asks := levels[order.price := level];
      }
      ghost var r1 := InsertRep(r0, b0, order, slot, level);
      book, bidChain, askChain := PriceTime.Insert(b0, order), r1.bidChain, r1.askChain;
      assert ToRep() == r1;
    }

    /** Unlinks and removes an order, returning its last state. */
    method Remove(id: u64) returns (removed: Option<Order>)
      requires Valid()
      modifies this
      ensures Valid()
      ensures removed == Lookup(old(book), id)
      ensures book == PriceTime.Remove(old(book), id)
    {
      hide Represents, Lookup, Find, PriceTime.Remove;
      IndexIsLookup(ToRep(), book, id);
      if id !in index {
        AbsentRemove(book, id);
        return None;
      }
      ghost var k := Locate(ToRep(), book, id);
      var slot := index[id];
      removed := Some(slab[slot].order);
      Unlink(slot, k);
    }

    /** Takes the order at position k of its side out of every structure. */
    method Unlink(slot: nat, ghost k: nat)
      requires Valid() && slot in slab
      requires var side := slab[slot].order.side;
        && k < |book.Of(side)| == |ToRep().Chain(side)|
        && ToRep().Chain(side)[k] == slot
      modifies this
      ensures Valid()
      ensures var side := old(slab[slot].order.side);
        book == old(book).With(side, Drop(old(book).Of(side), k))
    {
      hide Represents, SetNext, SetPrev, Shrunk;
      ghost var r0, b0 := ToRep(), book;
      var node := slab[slot];
      DropRepresents(r0, b0, node.order.side, k);
      slab := slab - {slot};
      index := index - {node.order.id};
      slab := SetNext(slab, node.prev, node.next);
      slab := SetPrev(slab, node.next, node.prev);
      if node.order.side.Buy? {
        bids := Shrunk(bids, node);
      } else {
        asks := Shrunk(asks, node);
      }
      ghost var r1 := DropRep(r0, b0, node.order.side, k);
      book, bidChain, askChain := b0.With(node.order.side, Drop(b0.Of(node.order.side), k)), r1.bidChain, r1.askChain;
      assert ToRep() == r1;
    }

    /** Lowers the total of a resting order; it keeps its place in the queue. */
    method ReduceTotal(id: u64, total: u64)
      requires Valid()
      requires Lookup(book, id).Some? ==> Lookup(book, id).value.filled < total <= Lookup(book, id).value.total
      modifies this
      ensures Valid()
      ensures book == Reduce(old(book), id, total)
    {
      hide Represents, Lookup, Find, Reduce;
      IndexIsLookup(ToRep(), book, id);
      if id !in index {
        AbsentRemove(book, id);
        return;
      }
      ghost var r0, b0 := ToRep(), book;
      ghost var k := Locate(r0, b0, id);
      var slot := index[id];
      var node := slab[slot];
      var side, price := node.order.side, node.order.price;
      LevelOf(r0, b0, side, k);
      var levels := if side.Buy? then bids else asks;
      var changed := node.order.(total := total);
      var sum := levels[price].total - node.order.Remaining() + changed.Remaining();
      ResizeRepresents(r0, b0, side, k, changed, sum);
      slab := slab[slot := node.(order := changed)];
      if side.Buy? {
        bids := levels[price := levels[price].(total := sum)];
      } else {
        asks := levels[price := levels[price].(total := sum)];
      }
      book := b0.With(side, b0.Of(side)[k := changed]);
      assert ToRep() == ResizeRep(r0, side, k, changed, sum);
    }

    /** Applies a fill to the first order of a side and removes it when it is
        fully filled. Returns the order as the fill left it. */
    method FillMaker(slot: nat, quantity: u64) returns (after: Order)
      requires Valid() && slot in slab
      requires var side := slab[slot].order.side;
        && book.Of(side) != [] && ToRep().Chain(side) != [] && ToRep().Chain(side)[0] == slot
        && 0 < quantity <= book.Of(side)[0].Remaining()
      modifies this
      ensures Valid()
      ensures var side := old(slab[slot].order.side);
        && after == old(book).Of(side)[0].(filled := old(book).Of(side)[0].filled + quantity)
        && book == old(book).With(side, FillHead(old(book).Of(side), quantity))
    {
      hide Represents, SetNext, SetPrev, Shrunk;
      ghost var r0, b0 := ToRep(), book;
      FillRepresents(r0, b0, slab[slot].order.side, quantity);
      ghost var r1 := FillRep(r0, slab[slot].order.side, quantity);
      var node := slab[slot];
      var side, price := node.order.side, node.order.price;
      after := node.order.(filled := node.order.filled + quantity);
      var levels := if side.Buy? then bids else asks;
      slab := slab[slot := node.(order := after)];
      levels := levels[price := levels[price].(total := levels[price].total - quantity)];
      if after.Remaining() == 0 {
        index := index - {after.id};
        slab := slab - {slot};
        slab := SetNext(slab, node.prev, node.next);
        slab := SetPrev(slab, node.next, node.prev);
        levels := Shrunk(levels, node.(order := after));
      }
      if side.Buy? {
        bids := levels;
      } else {
        asks := levels;
      }
      book, bidChain, askChain := b0.With(side, FillHead(b0.Of(side), quantity)), r1.bidChain, r1.askChain;
      assert ToRep() == r1;
    }

    /** Slot of the first order at a price. */
    method HeadSlot(side: Side, price: i64) returns (slot: Option<nat>)
      requires Valid()
      requires forall i :: 0 <= i < |book.Of(side)| ==> Rank(side, price) <= Rank(side, book.Of(side)[i].price)
      ensures slot.Some? <==> book.Of(side) != [] && book.Of(side)[0].price == price
      ensures slot.Some? ==>
        && slot.value in slab && slab[slot.value].order == book.Of(side)[0] && slab[slot.value].order.side == side
        && ToRep().Chain(side) != [] && ToRep().Chain(side)[0] == slot.value
    {
      hide Represents;
      var levels := if side.Buy? then bids else asks;
      BestPresent(ToRep(), book, side, price);
      slot := if price in levels then levels[price].head else None;
    }

    /** Best resting price on `side` that a taker bounded by `limit` accepts. */
    method NextEligiblePrice(side: Side, limit: i64) returns (price: Option<i64>)
      requires Valid()
      ensures price == if book.Of(side) != [] && Eligible(side, book.Of(side)[0].price, limit)
                       then Some(book.Of(side)[0].price) else None
    {
      hide Represents;
      var levels := if side.Buy? then bids else asks;
      SidesOf(ToRep(), book);
      EmptySide(ToRep(), book, side);
      if levels == map[] {
        return None;
      }
      ghost var witnessed := BestKey(side, levels);
      var best :| best in levels && forall p :: p in levels ==> Rank(side, best) <= Rank(side, p);
      BestIsFirst(ToRep(), book, side, best);
      return if Eligible(side, best, limit) then Some(best) else None;
    }

    /** The orders of one level, following the links from its head. */
    method LevelCells(side: Side, price: i64, ghost done: nat) returns (cells: seq<Cell>)
      requires Valid() && done < |book.Of(side)| && book.Of(side)[done].price == price
      requires 0 < done ==> book.Of(side)[done - 1].price != price
      requires price in ToRep().Levels(side)
      ensures cells == Cells(book.Of(side)[done..done + Run(book.Of(side)[done..])])
    {
      hide Represents, Run, Cells, Walked;
      var cursor := (if side.Buy? then bids else asks)[price].head;
      cells := [];
      ghost var i: nat := done;
      WalkStart(ToRep(), book, side, done);
      while cursor.Some?
        invariant Walked(ToRep(), book, side, done, i, cursor, cells)
        decreases |book.Of(side)| - i
      {
        WalkStep(ToRep(), book, side, done, i, cursor, cells);
        var node := slab[cursor.value];
        cells := cells + [CellOf(node.order)];
        cursor := node.next;
        i := i + 1;
      }
      WalkEnd(ToRep(), book, side, done, i, cells);
    }

    /** One side as canonical rows, best price first. */
    method SideRows(side: Side) returns (rows: seq<Row>)
      requires Valid()
      ensures rows == Rows(side, book.Of(side))
    {
      hide Represents, Rows, Shown, Run, Queue;
      var levels := if side.Buy? then bids else asks;
      var keys := levels.Keys;
      ghost var done: nat := 0;
      rows := [];
      LevelsToVisit(ToRep(), book, side);
      while keys != {}
        invariant keys <= levels.Keys
        invariant Shown(side, book.Of(side), done, keys, rows)
        decreases keys
      {
        ghost var least := BestOf(side, keys);
        var best :| best in keys && forall p :: p in keys ==> Rank(side, best) <= Rank(side, p);
        ShowBest(side, book.Of(side), done, keys, rows, best);
        var cells := LevelCells(side, best, done);
        ShowNext(side, book.Of(side), done, keys, rows);
        rows := rows + [Row(side, best, cells)];
        done := done + Run(book.Of(side)[done..]);
        keys := keys - {best};
      }
      ShowLast(side, book.Of(side), done, rows);
    }

    /** Bids then asks, each from its best price. */
    method Snapshot() returns (rows: seq<Row>)
      requires Valid()
      ensures rows == BookRows(book)
    {
      var bidRows := SideRows(Buy);
      var askRows := SideRows(Sell);
      rows := bidRows + askRows;
    }
  }

  /** A cursor following the links of the run that starts at `done`. */
  ghost predicate Walked(r: Rep, b: Book, side: Side, done: nat, i: nat, cursor: Option<nat>, cells: seq<Cell>) {
    var q, chain := b.Of(side), r.Chain(side);
    && done < |q| == |chain|
    && var end := done + Run(q[done..]);
    && done <= i <= end <= |q|
    && cursor == (if i < end then Some(chain[i]) else None)
    && cells == Cells(q[done..i])
  }

  lemma WalkStart(r: Rep, b: Book, side: Side, done: nat)
    requires Represents(r, b) && done < |b.Of(side)|
    requires 0 < done ==> b.Of(side)[done - 1].price != b.Of(side)[done].price
    requires b.Of(side)[done].price in r.Levels(side)
    ensures Walked(r, b, side, done, done, r.Levels(side)[b.Of(side)[done].price].head, [])
  {
    hide Run;
    RunIsPrice(side, b.Of(side), done);
    assert EndsAt(r.Levels(side), r.Chain(side), b.Of(side), done);
    assert b.Of(side)[done..done] == [];
  }

  /** Within a run of one price the links lead to the next order, and out of
      the run to nothing. */
  lemma WalkStep(r: Rep, b: Book, side: Side, done: nat, i: nat, cursor: Option<nat>, cells: seq<Cell>)
    requires Represents(r, b) && Walked(r, b, side, done, i, cursor, cells) && cursor.Some?
    ensures cursor.value in r.slab && i < |b.Of(side)|
    ensures var node := r.slab[cursor.value];
      Walked(r, b, side, done, i + 1, node.next, cells + [CellOf(node.order)])
  {
    hide Run, Cells;
    RunIsPrice(side, b.Of(side), done);
    CellsAppend(b.Of(side), done, i);
    assert NodeAt(r.slab, r.Chain(side), b.Of(side), i);
  }

  lemma WalkEnd(r: Rep, b: Book, side: Side, done: nat, i: nat, cells: seq<Cell>)
    requires Walked(r, b, side, done, i, None, cells)
    ensures cells == Cells(b.Of(side)[done..done + Run(b.Of(side)[done..])])
  {
  }

  lemma LevelsToVisit(r: Rep, b: Book, side: Side)
    requires Represents(r, b)
    ensures Shown(side, b.Of(side), 0, r.Levels(side).Keys, [])
    ensures Ordered(side, b.Of(side))
  {
    forall p | p in r.Levels(side).Keys ensures Priced(b.Of(side), p) {
      var i := LevelPrices(r, b, side, p);
    }
    VisitStarts(side, b.Of(side), r.Levels(side).Keys);
    ShowFirst(side, b.Of(side), r.Levels(side).Keys);
  }

  lemma SidesOf(r: Rep, b: Book)
    requires Represents(r, b)
    ensures Sides(r, b)
    ensures Queue(Buy, b.bids) && Queue(Sell, b.asks)
  {
  }

  /** When nothing on the side ranks better than `price`, its level exists
      exactly when the first order has that price. */
  lemma BestPresent(r: Rep, b: Book, side: Side, price: i64)
    requires Represents(r, b)
    requires forall i :: 0 <= i < |b.Of(side)| ==> Rank(side, price) <= Rank(side, b.Of(side)[i].price)
    ensures price in r.Levels(side) <==> b.Of(side) != [] && b.Of(side)[0].price == price
    ensures price in r.Levels(side) ==>
      && r.Chain(side) != [] && r.Chain(side)[0] in r.slab
      && r.Levels(side)[price].head == Some(r.Chain(side)[0])
      && r.slab[r.Chain(side)[0]].order == b.Of(side)[0] && b.Of(side)[0].side == side
  {
    var q := b.Of(side);
    if price in r.Levels(side) {
      var i := LevelPrices(r, b, side, price);
      if i > 0 { assert Ahead(side, q[0], q[i]); }
      LocateOn(r, b, side, 0);
      HeadIsFirst(r, b, side);
    } else if q != [] {
      assert q[0].price in r.Levels(side);
    }
  }

  /** Filling an order completely and then unhooking it is just unhooking it. */
  lemma FullFill(slab: map<nat, Node>, levels: map<i64, Level>, slot: nat, quantity: u64)
    requires slot in slab && quantity == slab[slot].order.Remaining()
    requires slab[slot].order.price in levels && levels[slab[slot].order.price].count > 0
    requires quantity <= levels[slab[slot].order.price].total
    ensures var n := slab[slot];
      var after := n.order.(filled := n.order.filled + quantity);
      var p := n.order.price;
      && slab[slot := n.(order := after)] - {slot} == slab - {slot}
      && Shrunk(levels[p := levels[p].(total := levels[p].total - quantity)], n.(order := after)) == Shrunk(levels, n)
  {
    var n := slab[slot];
    var p := n.order.price;
    if levels[p].count == 1 {
      assert levels[p := levels[p].(total := levels[p].total - quantity)] - {p} == levels - {p};
    }
  }

  lemma AbsentRemove(b: Book, id: u64)
    requires Lookup(b, id).None?
    ensures Remove(b, id) == b
    ensures forall t: u64 :: Reduce(b, id, t) == b
  {
  }
}
