/** What the bounded ladder knows about the unbounded book built from the same
    messages. */
module BoundedLadder {
  import opened Domain
  import opened PriceTime
  import opened Market

  // ---- one side -----------------------------------------------------------

  /** Levels strictly better than a price. */
  ghost function Better(side: Side, full: Ladder, price: i64): set<i64> {
    set p | p in full && Rank(side, p) < Rank(side, price)
  }

  ghost predicate Needed(side: Side, full: Ladder, price: i64, top: int) {
    price in full && |Better(side, full, price)| < top
  }

  /** The ladder is a part of the full book, within its depth, and after
      `losses` deletions of levels it retained it still has the best
      `depth - losses` levels. */
  ghost predicate Tracks(side: Side, levels: Ladder, full: Ladder, depth: nat, losses: nat) {
    && (forall p :: p in levels ==> p in full && full[p] == levels[p])
    && |levels| <= depth
    && (forall p :: Needed(side, full, p, depth - losses) ==> p in levels)
  }

  lemma SubsetSize(a: set<i64>, b: set<i64>)
    requires a <= b
    ensures |a| <= |b|
  {
    var c := b - a;
    assert b == a + c;
  }

  lemma KeysSize(m: Ladder)
    ensures |m.Keys| == |m|
  {
  }

  /** A level that is worse than `depth` others is not needed. */
  lemma Unneeded(side: Side, full: Ladder, price: i64, better: set<i64>, depth: nat)
    requires better <= Better(side, full, price) && |better| >= depth
    ensures forall top: int :: top <= depth ==> !Needed(side, full, price, top)
  {
    SubsetSize(better, Better(side, full, price));
  }

  /** Fewer levels can only make a level needed that was. */
  lemma BetterGrows(side: Side, full: Ladder, price: i64, quantity: u64, p: i64)
    ensures |Better(side, full, p)| <= |Better(side, full[price := quantity], p)|
  {
    SubsetSize(Better(side, full, p), Better(side, full[price := quantity], p));
  }

  lemma TrimOne(side: Side, levels: Ladder, depth: nat)
    requires |levels| == depth + 1
    ensures Trim(side, levels, depth) == levels - {Worst(side, levels)} && |Trim(side, levels, depth)| == depth
  {
    var w := Worst(side, levels);
    var rest := levels - {w};
    assert rest.Keys == levels.Keys - {w};
    KeysSize(levels);
    KeysSize(rest);
  }

  lemma TrimNone(side: Side, levels: Ladder, depth: nat)
    requires |levels| <= depth
    ensures Trim(side, levels, depth) == levels
  {
  }

  lemma AddSize(levels: Ladder, price: i64, quantity: u64)
    ensures |levels[price := quantity]| == if price in levels then |levels| else |levels| + 1
  {
    KeysSize(levels);
    KeysSize(levels[price := quantity]);
    assert levels[price := quantity].Keys == levels.Keys + {price};
    if price in levels {
      assert levels.Keys + {price} == levels.Keys;
    }
  }

  /** Whatever else was needed after a level is set was needed before. */
  lemma NeededBefore(side: Side, full: Ladder, price: i64, quantity: u64, p: i64, top: int)
    requires Needed(side, full[price := quantity], p, top) && p != price
    ensures Needed(side, full, p, top)
  {
    BetterGrows(side, full, price, quantity, p);
  }

  /** A level that does not improve a full ladder is not needed. */
  lemma RefusedTracks(side: Side, levels: Ladder, full: Ladder, depth: nat, losses: nat, price: i64, quantity: u64)
    requires Tracks(side, levels, full, depth, losses) && depth > 0
    requires price !in levels && |levels| >= depth && !Improves(side, price, levels)
    ensures Tracks(side, levels, full[price := quantity], depth, losses)
  {
    hide Needed;
    var full' := full[price := quantity];
    forall p | p in levels.Keys ensures p in Better(side, full', price) {
      assert Rank(side, p) <= Rank(side, Worst(side, levels));
    }
    Unneeded(side, full', price, levels.Keys, depth);
    forall p: i64 | Needed(side, full', p, depth - losses) ensures p in levels {
      if p != price { NeededBefore(side, full, price, quantity, p, depth - losses); }
    }
  }

  lemma GrownTracks(side: Side, levels: Ladder, full: Ladder, depth: nat, losses: nat, price: i64, quantity: u64)
    requires Tracks(side, levels, full, depth, losses) && |levels[price := quantity]| <= depth
    ensures Tracks(side, levels[price := quantity], full[price := quantity], depth, losses)
  {
    hide Needed;
    var full', grown := full[price := quantity], levels[price := quantity];
    forall p: i64 | Needed(side, full', p, depth - losses) ensures p in grown {
      if p != price { NeededBefore(side, full, price, quantity, p, depth - losses); }
    }
  }

  lemma WorstUnneeded(side: Side, levels: Ladder, full: Ladder, depth: nat)
    requires |levels| == depth + 1 && levels.Keys <= full.Keys
    ensures forall top: int :: top <= depth ==> !Needed(side, full, Worst(side, levels), top)
  {
    hide Needed;
    var w := Worst(side, levels);
    var better := levels.Keys - {w};
    assert levels.Keys == better + {w};
    forall p | p in better ensures p in Better(side, full, w) {
      assert Rank(side, p) <= Rank(side, w);
    }
    Unneeded(side, full, w, better, depth);
  }

  /** The level pushed out has `depth` better ones, so it is not needed. */
  lemma PushedTracks(side: Side, levels: Ladder, full: Ladder, depth: nat, losses: nat, price: i64, quantity: u64)
    requires Tracks(side, levels, full, depth, losses) && |levels[price := quantity]| == depth + 1
    ensures Tracks(side, Trim(side, levels[price := quantity], depth), full[price := quantity], depth, losses)
  {
    hide Needed, Trim, Worst;
    var grown, full' := levels[price := quantity], full[price := quantity];
    TrimOne(side, grown, depth);
    WorstUnneeded(side, grown, full', depth);
    var w := Worst(side, grown);
    var kept := Trim(side, grown, depth);
    forall p: i64 | Needed(side, full', p, depth - losses) ensures p in kept {
      if p != price { NeededBefore(side, full, price, quantity, p, depth - losses); }
    }
  }

  /** Setting a level. */
  lemma SetTracks(side: Side, levels: Ladder, full: Ladder, depth: nat, losses: nat, price: i64, quantity: u64)
    requires Tracks(side, levels, full, depth, losses) && depth > 0
    ensures Tracks(side, SetBounded(side, levels, price, quantity, depth), full[price := quantity], depth, losses)
  {
    hide Needed, Trim, Improves, Tracks;
    AddSize(levels, price, quantity);
    TracksSize(side, levels, full, depth, losses);
    if price !in levels && |levels| >= depth && !Improves(side, price, levels) {
      RefusedTracks(side, levels, full, depth, losses, price, quantity);
    } else if |levels[price := quantity]| <= depth {
      TrimNone(side, levels[price := quantity], depth);
      GrownTracks(side, levels, full, depth, losses, price, quantity);
    } else {
      PushedTracks(side, levels, full, depth, losses, price, quantity);
    }
  }

  lemma TracksSize(side: Side, levels: Ladder, full: Ladder, depth: nat, losses: nat)
    requires Tracks(side, levels, full, depth, losses)
    ensures |levels| <= depth
  {
  }

  /** Deleting a level, retained or not. */
  lemma DeleteTracks(side: Side, levels: Ladder, full: Ladder, depth: nat, losses: nat, price: i64)
    requires Tracks(side, levels, full, depth, losses)
    ensures Tracks(side, levels - {price}, full - {price}, depth, if price in levels then losses + 1 else losses)
  {
    var full', levels' := full - {price}, levels - {price};
    assert |levels'| <= |levels| by {
      KeysSize(levels);
      KeysSize(levels');
      SubsetSize(levels'.Keys, levels.Keys);
    }
    var losses' := if price in levels then losses + 1 else losses;
    forall p: i64 | Needed(side, full', p, depth - losses') ensures p in levels' {
      DeleteNeeds(side, full, price, p);
      if price !in levels && price in full && Rank(side, price) < Rank(side, p) {
        NotBetter(side, levels, full, depth, losses, price, p);
      }
    }
  }

  lemma DeleteNeeds(side: Side, full: Ladder, price: i64, p: i64)
    ensures |Better(side, full, p)| == |Better(side, full - {price}, p)|
              + if price in full && Rank(side, price) < Rank(side, p) then 1 else 0
  {
    var was, now := Better(side, full, p), Better(side, full - {price}, p);
    if price in full && Rank(side, price) < Rank(side, p) {
      assert was == now + {price};
    } else {
      assert was == now;
    }
  }

  /** An unretained level that is better than p already has too many levels
      ahead of it for p to be needed once it is gone. */
  lemma NotBetter(side: Side, levels: Ladder, full: Ladder, depth: nat, losses: nat, price: i64, p: i64)
    requires Tracks(side, levels, full, depth, losses) && price !in levels && price in full
    requires Rank(side, price) < Rank(side, p)
    ensures |Better(side, full, p)| >= depth - losses + 1
  {
    assert !Needed(side, full, price, depth - losses);
    var ahead := Better(side, full, price) + {price};
    assert price !in Better(side, full, price);
    SubsetSize(ahead, Better(side, full, p));
  }

  /** The best price is exact as long as fewer retained levels were deleted
      than the ladder is deep. */
  lemma BestIsExact(side: Side, levels: Ladder, full: Ladder, depth: nat, losses: nat)
    requires Tracks(side, levels, full, depth, losses) && losses < depth
    ensures Best(side, levels) == Best(side, full)
  {
    hide Best, Needed;
    BestIn(side, full);
    BestIn(side, levels);
    if full == map[] {
      assert levels.Keys == {};
    } else {
      BestNeeded(side, full, depth - losses);
      SameRank(side, Best(side, levels).value, Best(side, full).value);
    }
  }

  lemma BestNeeded(side: Side, full: Ladder, top: int)
    requires full != map[] && top > 0
    ensures Needed(side, full, Best(side, full).value, top)
  {
    assert Better(side, full, Best(side, full).value) == {};
  }

  lemma BestIn(side: Side, levels: Ladder)
    ensures Best(side, levels).None? <==> levels.Keys == {}
  {
    assert levels.Keys == {} <==> levels == map[];
  }

  lemma SameRank(side: Side, a: i64, b: i64)
    ensures a == b <==> Rank(side, a) == Rank(side, b)
  {
  }
}
