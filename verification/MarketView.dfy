/** The market view as the source keeps it: ladders changed in place, proved
    against the view's functions. */
module MarketFeed {
  import opened Domain
  import opened PriceTime
  import Market
  import Reference
  import opened BoundedLadder

  method WorstPrice(side: Side, levels: Market.Ladder) returns (worst: i64)
    requires levels != map[]
    ensures worst == Market.Worst(side, levels)
  {
    ghost var w := Market.WorstOf(side, levels.Keys);
    worst :| worst in levels && forall p :: p in levels ==> Rank(side, p) <= Rank(side, worst);
    OneWorst(side, levels, worst);
  }

  lemma OneWorst(side: Side, levels: Market.Ladder, worst: i64)
    requires worst in levels && forall p :: p in levels ==> Rank(side, p) <= Rank(side, worst)
    ensures worst == Market.Worst(side, levels)
  {
    assert Rank(side, worst) == Rank(side, Market.Worst(side, levels));
  }

  method BestPrice(side: Side, levels: Market.Ladder) returns (best: Option<i64>)
    ensures best == Market.Best(side, levels)
  {
    if levels == map[] {
      return None;
    }
    var b := WorstPrice(side.Opposite(), levels);
    best := Some(b);
  }

  /** Pops the worst level until the depth is respected. */
  method Trimmed(side: Side, given: Market.Ladder, depth: nat) returns (levels: Market.Ladder)
    ensures levels == Market.Trim(side, given, depth)
  {
    levels := given;
    while |levels| > depth
      invariant Market.Trim(side, levels, depth) == Market.Trim(side, given, depth)
      decreases |levels|
    {
      var worst := WorstPrice(side, levels);
      DropSize(levels, worst);
      levels := levels - {worst};
    }
  }

  lemma DropSize(levels: Market.Ladder, price: i64)
    requires price in levels
    ensures |levels - {price}| == |levels| - 1
  {
    var rest := levels - {price};
    assert levels.Keys == rest.Keys + {price};
    KeysSize(levels);
    KeysSize(rest);
  }

  method BoundedSet(side: Side, levels: Market.Ladder, price: i64, quantity: u64, depth: nat) returns (r: Market.Ladder)
    ensures r == Market.SetBounded(side, levels, price, quantity, depth)
  {
    hide Market.Trim;
    if price in levels {
      return levels[price := quantity];
    }
    if |levels| >= depth {
      if levels == map[] {
        return levels;
      }
      var worst := WorstPrice(side, levels);
      if Rank(side, price) >= Rank(side, worst) {
        return levels;
      }
    }
    r := Trimmed(side, levels[price := quantity], depth);
  }

  class MarketView {
    var state: FeedState
    var epoch: u64
    var lastSourceSeq: u64
    var bids: Market.Ladder
    var asks: Market.Ladder
    var scratchBids: Market.Ladder
    var scratchAsks: Market.Ladder
    var scratchLevels: u32
    var snapshotSeq: u64
    var lastTradePrice: Option<i64>
    var lastUpdateTimeNs: u64
    const minPriceTicks: i64
    const maxPriceTicks: i64
    const maxDepth: nat

    function Abstract(): Market.View
      reads this
    {
      Market.View(state, epoch, lastSourceSeq, Market.Quotes(bids, asks), Market.Quotes(scratchBids, scratchAsks),
                  scratchLevels, snapshotSeq, lastTradePrice, lastUpdateTimeNs, minPriceTicks, maxPriceTicks, maxDepth)
    }

    constructor (minPriceTicks: i64, maxPriceTicks: i64, maxDepth: nat)
      ensures Abstract() == Market.NewView(minPriceTicks, maxPriceTicks, maxDepth)
    {
      state, epoch, lastSourceSeq := Unsynchronized, 0, 0;
      bids, asks, scratchBids, scratchAsks := map[], map[], map[], map[];
      scratchLevels, snapshotSeq, lastTradePrice, lastUpdateTimeNs := 0, 0, None, 0;
      this.minPriceTicks, this.maxPriceTicks := minPriceTicks, maxPriceTicks;
      this.maxDepth := if maxDepth == 0 then 1 else maxDepth;
    }

    method ReferencePrice() returns (price: Option<i64>)
      ensures price == Market.ReferencePrice(Abstract())
      ensures Reference.Marks(Abstract(), price)
    {
      hide Market.Best, Reference.Marks;
      Reference.ReferenceMarks(Abstract());
      var bid := BestPrice(Buy, bids);
      var ask := BestPrice(Sell, asks);
      if bid.Some? && ask.Some? && bid.value < ask.value {
        return Midpoint(bid.value, ask.value);
      }
      return lastTradePrice;
    }

    method ClearScratch()
      modifies this
      ensures Abstract() == old(Abstract()).ClearScratch()
    {
      scratchBids, scratchAsks, scratchLevels := map[], map[], 0;
    }

    method EnterGap()
      modifies this
      ensures Abstract() == old(Abstract()).EnterGap()
    {
      state := Gap;
      scratchBids, scratchAsks, scratchLevels := map[], map[], 0;
    }

    /** One feed message; reports the states before and after. */
    method Apply(sourceSeq: u64, kind: MarketKind, recvTimeNs: u64) returns (previous: FeedState, current: FeedState)
      modifies this
      ensures Abstract() == Market.Apply(old(Abstract()), sourceSeq, kind, recvTimeNs)
      ensures previous == old(state) && current == state
    {
      hide Market.Absorb;
      previous := state;
      if sourceSeq != 0 {
        match Market.CheckSequence(Abstract(), sourceSeq) {
          case Duplicate => return previous, state;
          case InOrder => lastSourceSeq := sourceSeq;
          case _ =>
            EnterGap();
            return previous, state;
        }
      }
      var quoted := Market.QuotedPrice(kind);
      if quoted.Some? && (quoted.value < minPriceTicks || quoted.value > maxPriceTicks) {
        EnterGap();
        return previous, state;
      }
      if kind.FeedReset? && kind.newEpoch <= epoch {
        return previous, state;
      }
      lastUpdateTimeNs := recvTimeNs;
      Absorb(kind);
      return previous, state;
    }

    /** A level of the snapshot being assembled. */
    method SetPending(side: Side, price: i64, quantity: u64)
      modifies this
      ensures Abstract() == Market.Absorb(old(Abstract()), SnapshotLevel(side, price, quantity))
    {
      hide Market.SetBounded;
      if state == ApplyingSnapshot && quantity != 0 {
        if side.Buy? {
          scratchBids := BoundedSet(side, scratchBids, price, quantity, maxDepth);
        } else {
          scratchAsks := BoundedSet(side, scratchAsks, price, quantity, maxDepth);
        }
        scratchLevels := (scratchLevels + 1) % (U32_MAX + 1);
      }
    }

    /** Publishes the assembled snapshot if its sequence and level count agree. */
    method EndSnapshot(n: u64, count: u32)
      modifies this
      ensures Abstract() == Market.Absorb(old(Abstract()), SnapshotEnd(n, count))
    {
      hide Market.Trim;
      if state == ApplyingSnapshot && n == snapshotSeq && count == scratchLevels {
        bids := Trimmed(Buy, scratchBids, maxDepth);
        asks := Trimmed(Sell, scratchAsks, maxDepth);
        state := Live;
        ClearScratch();
      } else {
        EnterGap();
      }
    }

    /** A change to a visible level. */
    method SetShown(side: Side, price: i64, quantity: u64)
      modifies this
      ensures Abstract() == Market.Absorb(old(Abstract()), LevelSet(side, price, quantity))
    {
      hide Market.SetBounded;
      if state == Live {
        if quantity == 0 {
          if side.Buy? {
            bids := bids - {price};
          } else {
            asks := asks - {price};
          }
        } else if side.Buy? {
          bids := BoundedSet(side, bids, price, quantity, maxDepth);
        } else {
          asks := BoundedSet(side, asks, price, quantity, maxDepth);
        }
      }
    }

    method Absorb(kind: MarketKind)
      modifies this
      ensures Abstract() == Market.Absorb(old(Abstract()), kind)
    {
      hide Market.SetQuote, Market.DeleteQuote, Market.TrimQuotes;
      match kind {
        case SnapshotBegin(n) =>
          ClearScratch();
          snapshotSeq := n;
          state := ApplyingSnapshot;
        case SnapshotLevel(side, price, quantity) =>
          SetPending(side, price, quantity);
        case SnapshotEnd(n, count) =>
          EndSnapshot(n, count);
        case LevelSet(side, price, quantity) =>
          SetShown(side, price, quantity);
        case MarketTrade(_, price, _) =>
          if state == Live {
            lastTradePrice := Some(price);
          }
        case Heartbeat =>
        case FeedReset(newEpoch) =>
          epoch, lastSourceSeq := newEpoch, 0;
          bids, asks := map[], map[];
          ClearScratch();
          lastTradePrice := None;
          state := Unsynchronized;
      }
    }
  }
}
