/** Matching on the indexed book: the source's nested price-then-FIFO loop,
    proved to compute the list specification. */
module Matching {
  import opened Domain
  import opened PriceTime
  import opened IndexedBook

  /** Matches `quantity` from a taker against resting liquidity, filling makers
      in execution order. */
  method MatchOrder(book: OrderBook, taker: Side, limit: i64, quantity: u64)
    returns (filled: u64, fills: seq<Fill>)
    requires book.Valid()
    modifies book
    ensures book.Valid()
    ensures Resting(taker.Opposite(), old(book.book).Of(taker.Opposite()))
    ensures var m := Match(taker.Opposite(), old(book.book).Of(taker.Opposite()), limit, quantity);
      && fills == m.fills
      && filled == Lots(m.fills)
      && book.book == old(book.book).With(taker.Opposite(), m.rest)
  {
    hide Represents, Match, FillHead, Underway, NoneBetter, Resting, Ordered, Unique, Lots;
    var maker := taker.Opposite();
    ghost var b0 := book.book;
    SidesOf(book.ToRep(), book.book);
    Start(b0, maker, limit, quantity);
    var remaining: int := quantity;
    fills := [];
    while remaining > 0
      invariant book.Valid()
      invariant 0 <= remaining <= quantity
      invariant Underway(b0, book.book, maker, limit, quantity, fills, remaining)
    {
      var best := book.NextEligiblePrice(maker, limit);
      if best.None? {
        Finish(b0, book.book, maker, limit, quantity, fills, remaining);
        return quantity - remaining, fills;
      }
      var price := best.value;
      ghost var start := remaining;
      SidesOf(book.ToRep(), book.book);
      FirstIsBest(maker, book.book.Of(maker));
      while remaining > 0
        invariant book.Valid()
        invariant 0 <= remaining <= start
        invariant Underway(b0, book.book, maker, limit, quantity, fills, remaining)
        invariant NoneBetter(maker, book.book.Of(maker), price)
        invariant remaining == start ==> book.book.Of(maker) != [] && book.book.Of(maker)[0].price == price
      {
        var head := TakeHead(book, maker, price, limit, b0, quantity, fills, remaining);
        if head.None? {
          break;
        }
        fills := fills + [head.value];
        remaining := remaining - head.value.quantity;
      }
    }
    Finish(b0, book.book, maker, limit, quantity, fills, remaining);
    filled := quantity - remaining;
  }

  /** One turn of the inner loop: trade with the first order at `price`, or
      report that the level is exhausted. */
  method TakeHead(book: OrderBook, maker: Side, price: i64, limit: i64, ghost b0: Book, ghost quantity: u64,
                  ghost fills: seq<Fill>, remaining: u64) returns (fill: Option<Fill>)
    requires book.Valid() && remaining > 0
    requires Underway(b0, book.book, maker, limit, quantity, fills, remaining)
    requires NoneBetter(maker, book.book.Of(maker), price) && Eligible(maker, price, limit)
    modifies book
    ensures book.Valid()
    ensures NoneBetter(maker, book.book.Of(maker), price)
    ensures fill.None? ==> book.book == old(book.book)
    ensures fill.None? <==> old(book.book).Of(maker) == [] || old(book.book).Of(maker)[0].price != price
    ensures fill.Some? ==>
      && 0 < fill.value.quantity <= remaining
      && Underway(b0, book.book, maker, limit, quantity, fills + [fill.value], remaining - fill.value.quantity)
  {
    hide Represents, Match, FillHead, Lots;
    var head := book.HeadSlot(maker, price);
    if head.None? {
      return None;
    }
    var slot := head.value;
    var before := book.slab[slot].order;
    var traded := Min(remaining, before.Remaining());
    Advance(b0, book.book, maker, limit, quantity, fills, remaining);
    StillNoneBetter(maker, book.book.Of(maker), price, traded);
    var after := book.FillMaker(slot, traded);
    fill := Some(Fill(before.id, before.owner, price, traded, after.total, after.filled, after.Remaining()));
  }
}
