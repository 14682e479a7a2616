/** The ladder's guarantee cannot be improved: for every depth there are feeds
    after which its best price is wrong, as soon as as many retained levels
    were deleted as it is deep. */
module Tightness {
  import opened Domain
  import opened PriceTime
  import opened Market
  import opened BoundedLadder
  import opened Feed

  /** One lot at every price from a to b. */
  function Range(a: i64, b: i64): (m: Ladder)
    ensures forall p :: p in m <==> a <= p <= b
    ensures forall p :: p in m ==> m[p] == 1
    decreases b - a
  {
    if a > b then map[] else if a == b then map[a := 1] else Range(a, b - 1)[b := 1]
  }

  lemma {:induction false} RangeSize(n: i64)
    requires 0 <= n
    ensures |Range(1, n)| == n
    decreases n
  {
    if n > 1 {
      RangeSize(n - 1);
      AddSize(Range(1, n - 1), n, 1);
    }
  }

  lemma SameRange(m: Ladder, a: i64, b: i64)
    requires forall p :: p in m <==> a <= p <= b
    requires forall p :: p in m ==> m[p] == 1
    ensures m == Range(a, b)
  {
    assert m.Keys == Range(a, b).Keys;
  }

  function Quote(price: i64, quantity: u64): Message {
    Message(0, LevelSet(Sell, price, quantity), 0)
  }

  /** An empty snapshot, which makes the feed live. */
  function Opening(): seq<Message> {
    [Message(0, SnapshotBegin(0), 0), Message(0, SnapshotEnd(0, 0), 0)]
  }

  function Ups(n: i64): seq<Message>
    requires 0 <= n
    decreases n
  {
    if n == 0 then Opening() else Ups(n - 1) + [Quote(n, 1)]
  }

  function Downs(top: i64, n: i64): seq<Message>
    requires 0 <= n && 0 <= top
    decreases n
  {
    if n == 0 then Ups(top) else Downs(top, n - 1) + [Quote(n, 0)]
  }

  /** Quoting and deleting a worse level again and again. */
  function Churn(top: i64, n: i64, extra: nat): seq<Message>
    requires 0 <= n && 0 <= top < I64_MAX
    decreases extra
  {
    if extra == 0 then Downs(top, n) else Churn(top, n, extra - 1) + [Quote(top + 1, 1)] + [Quote(top + 1, 0)]
  }

  ghost predicate Shows(f: Followed, levels: Ladder, full: Ladder, losses: nat) {
    && f.view.feed.Live?
    && f.view.shown.asks == levels && f.shadow.shown.asks == full && f.shadow.losses.asks == losses
  }

  lemma QuoteStep(hi: i64, depth: nat, feed: seq<Message>, price: i64, quantity: u64,
                  levels: Ladder, full: Ladder, losses: nat)
    requires depth > 0 && 1 <= price <= hi
    requires Shows(Follow(1, hi, depth, feed), levels, full, losses)
    ensures Shows(Follow(1, hi, depth, feed + [Quote(price, quantity)]),
                  if quantity == 0 then levels - {price} else SetBounded(Sell, levels, price, quantity, depth),
                  if quantity == 0 then full - {price} else full[price := quantity],
                  if quantity == 0 && price in levels then losses + 1 else losses)
  {
    hide SetBounded, QuotesTrack, Domestic, InStep;
    var longer := feed + [Quote(price, quantity)];
    assert longer[..|longer| - 1] == feed && longer[|longer| - 1] == Quote(price, quantity);
    FollowTracks(1, hi, depth, feed);
    FollowKeeps(1, hi, depth, feed);
  }

  lemma OpeningShows(hi: i64, depth: nat)
    requires depth > 0
    ensures Shows(Follow(1, hi, depth, Opening()), map[], map[], 0)
  {
    hide SetQuote, DeleteQuote, Put;
    var one := [Message(0, SnapshotBegin(0), 0)];
    assert Opening()[..1] == one && one[..0] == [];
    assert Follow(1, hi, depth, []) == Followed(NewView(1, hi, depth), NoShadow);
    var f := Follow(1, hi, depth, one);
    assert f.view.feed.ApplyingSnapshot? && f.view.snapshotSeq == 0 && f.view.scratchLevels == 0;
    assert f.view.scratch == NoQuotes && f.shadow.scratch == NoQuotes && f.view.depth == depth;
    TrimNone(Sell, map[], depth);
    TrimNone(Buy, map[], depth);
  }

  lemma {:induction false} UpsShow(hi: i64, depth: i64, n: i64)
    requires 0 < depth && 0 <= n <= depth + 1 <= hi
    ensures Shows(Follow(1, hi, depth, Ups(n)), Range(1, if n <= depth then n else depth), Range(1, n), 0)
    decreases n
  {
    hide Follow, Shows, Trim, Worst;
    if n == 0 {
      OpeningShows(hi, depth);
      SameRange(map[], 1, 0);
    } else {
      UpsShow(hi, depth, n - 1);
      var levels := Range(1, n - 1);
      RangeSize(n - 1);
      QuoteStep(hi, depth, Ups(n - 1), n, 1, levels, levels, 0);
      SameRange(levels[n := 1], 1, n);
      if n <= depth {
        AddSize(levels, n, 1);
        TrimNone(Sell, levels[n := 1], depth);
      } else {
        assert !Improves(Sell, n, levels);
      }
    }
  }

  lemma {:induction false} DownsShow(hi: i64, depth: i64, n: i64)
    requires 0 < depth && 0 <= n <= depth && depth + 1 <= hi
    ensures Shows(Follow(1, hi, depth, Downs(depth + 1, n)), Range(n + 1, depth), Range(n + 1, depth + 1), n)
    decreases n
  {
    hide Follow, Shows;
    if n == 0 {
      UpsShow(hi, depth, depth + 1);
    } else {
      DownsShow(hi, depth, n - 1);
      QuoteStep(hi, depth, Downs(depth + 1, n - 1), n, 0, Range(n, depth), Range(n, depth + 1), n - 1);
      SameRange(Range(n, depth) - {n}, n + 1, depth);
      SameRange(Range(n, depth + 1) - {n}, n + 1, depth + 1);
    }
  }

  lemma {:induction false} ChurnShows(hi: i64, depth: i64, extra: nat)
    requires 0 < depth && depth + 2 <= hi
    ensures Shows(Follow(1, hi, depth, Churn(depth + 1, depth, extra)), map[], map[depth + 1 := 1], depth + extra)
    decreases extra
  {
    hide Follow, Shows, SetBounded, Downs, Range, Quote;
    if extra == 0 {
      DownsShow(hi, depth, depth);
      LastRange(depth);
    } else {
      ChurnShows(hi, depth, extra - 1);
      ChurnOnce(hi, depth, Churn(depth + 1, depth, extra - 1), depth + extra - 1);
    }
  }

  lemma LastRange(depth: i64)
    requires 0 < depth < I64_MAX
    ensures Range(depth + 1, depth) == map[] && Range(depth + 1, depth + 1) == map[depth + 1 := 1]
  {
  }

  /** One level quoted and deleted behind the last one costs one more loss. */
  lemma ChurnOnce(hi: i64, depth: i64, feed: seq<Message>, losses: nat)
    requires 0 < depth && depth + 2 <= hi
    requires Shows(Follow(1, hi, depth, feed), map[], map[depth + 1 := 1], losses)
    ensures Shows(Follow(1, hi, depth, feed + [Quote(depth + 2, 1)] + [Quote(depth + 2, 0)]), map[],
                  map[depth + 1 := 1], losses + 1)
  {
    hide Follow, Shows, SetBounded, Quote;
    var full: Ladder, worse: i64 := map[depth + 1 := 1], depth + 2;
    var one: Ladder := map[worse := 1];
    QuoteStep(hi, depth, feed, worse, 1, map[], full, losses);
    SetFirst(worse, depth);
    QuoteStep(hi, depth, feed + [Quote(worse, 1)], worse, 0, one, full[worse := 1], losses);
    assert one - {worse} == map[];
    assert full[worse := 1] - {worse} == full;
  }

  lemma SetFirst(price: i64, depth: nat)
    requires depth > 0
    ensures SetBounded(Sell, map[], price, 1, depth) == map[price := 1]
  {
    AddSize(map[], price, 1);
    TrimNone(Sell, map[price := 1], depth);
  }

  /** With as many deletions of retained levels as the ladder is deep, or any
      number more, the ladder can be empty while the book is not. */
  lemma BestCanBeLost(depth: i64, losses: nat) returns (feed: seq<Message>)
    requires 0 < depth <= losses && depth + 2 <= I64_MAX
    ensures var f := Follow(1, depth + 2, depth, feed);
      f.shadow.losses.Of(Sell) == losses && Best(Sell, f.view.shown.Of(Sell)) != Best(Sell, f.shadow.shown.Of(Sell))
  {
    hide Follow;
    feed := Churn(depth + 1, depth, losses - depth);
    ChurnShows(depth + 2, depth, losses - depth);
    var full: Ladder := map[depth + 1 := 1];
    assert full != map[] by { assert depth + 1 in full; }
  }

  ghost predicate AlwaysExact(depth: nat, losses: nat) {
    forall lo: i64, hi: i64, feed: seq<Message>, side ::
      ExactAfter(lo, hi, depth, feed, side, losses)
  }

  ghost predicate ExactAfter(lo: i64, hi: i64, depth: nat, feed: seq<Message>, side: Side, losses: nat) {
    var f := Follow(lo, hi, depth, feed);
    f.shadow.losses.Of(side) == losses ==> Best(side, f.view.shown.Of(side)) == Best(side, f.shadow.shown.Of(side))
  }

  /** The best price is right after every feed with a given number of lost
      levels exactly when that number is below the depth. */
  lemma ExactExactlyBelowDepth(depth: i64, losses: nat)
    requires 0 < depth && depth + 2 <= I64_MAX
    ensures AlwaysExact(depth, losses) <==> losses < depth
  {
    hide Follow;
    if losses < depth {
      forall lo: i64, hi: i64, feed: seq<Message>, side ensures ExactAfter(lo, hi, depth, feed, side, losses) {
        LadderShowsBest(lo, hi, depth, feed, side);
        FollowTracks(lo, hi, depth, feed);
      }
    } else {
      var feed := BestCanBeLost(depth, losses);
      assert !ExactAfter(1, depth + 2, depth, feed, Sell, losses);
    }
  }
}
