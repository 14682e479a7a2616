/** External market view: the feed synchronization state machine and its
    bounded ladder, as functions of the view. */
module Market {
  import opened Domain
  import opened PriceTime

  type Ladder = map<i64, u64>

  datatype Sequencing = InOrder | Duplicate | Missing | OutOfOrder

  /** Both sides of a ladder. */
  datatype Quotes = Quotes(bids: Ladder, asks: Ladder) {
    function Of(side: Side): Ladder {
      if side.Buy? then bids else asks
    }

    function With(side: Side, levels: Ladder): Quotes {
      if side.Buy? then Quotes(levels, asks) else Quotes(bids, levels)
    }
  }

  const NoQuotes := Quotes(map[], map[])

  datatype View = View(
    feed: FeedState,
    epoch: u64,
    lastSeq: u64,
    shown: Quotes,
    scratch: Quotes,
    scratchLevels: u32,
    snapshotSeq: u64,
    lastTrade: Option<i64>,
    lastUpdate: u64,
    lo: i64,
    hi: i64,
    depth: nat)
  {
    function ClearScratch(): View {
      this.(scratch := NoQuotes, scratchLevels := 0)
    }

    /** The feed can no longer be trusted until the next snapshot. */
    function EnterGap(): View {
      this.(scratch := NoQuotes, scratchLevels := 0, feed := Gap)
    }
  }

  function NewView(lo: i64, hi: i64, depth: nat): View {
    View(Unsynchronized, 0, 0, NoQuotes, NoQuotes, 0, 0, None, 0, lo, hi, if depth == 0 then 1 else depth)
  }

  function QuotedPrice(kind: MarketKind): Option<i64> {
    match kind
    case SnapshotLevel(_, price, _) => Some(price)
    case LevelSet(_, price, _) => Some(price)
    case MarketTrade(_, price, _) => Some(price)
    case _ => None
  }

  function CheckSequence(v: View, seq_: u64): Sequencing {
    if v.feed.Unsynchronized? || v.feed.Gap? || v.lastSeq == 0 then InOrder
    else if seq_ == v.lastSeq then Duplicate
    else if seq_ < v.lastSeq then OutOfOrder
    else if seq_ == v.lastSeq + 1 then InOrder
    else Missing
  }

  lemma WorstOf(side: Side, prices: set<i64>) returns (worst: i64)
    requires prices != {}
    ensures worst in prices && forall p :: p in prices ==> Rank(side, p) <= Rank(side, worst)
  {
    worst := BestOf(side.Opposite(), prices);
  }

  ghost function Worst(side: Side, levels: Ladder): (worst: i64)
    requires levels != map[]
    ensures worst in levels && forall p :: p in levels ==> Rank(side, p) <= Rank(side, worst)
  {
    assert exists w :: w in levels && forall p :: p in levels ==> Rank(side, p) <= Rank(side, w) by {
      var w := WorstOf(side, levels.Keys);
    }
    var w :| w in levels && forall p :: p in levels ==> Rank(side, p) <= Rank(side, w);
    w
  }

  ghost function Best(side: Side, levels: Ladder): (best: Option<i64>)
    ensures best.None? <==> levels == map[]
    ensures best.Some? ==> best.value in levels && forall p :: p in levels ==> Rank(side, best.value) <= Rank(side, p)
  {
    if levels == map[] then None else Some(Worst(side.Opposite(), levels))
  }

  /** Drops the worst levels until at most `depth` are left. */
  ghost function Trim(side: Side, levels: Ladder, depth: nat): Ladder
    decreases |levels|
  {
    if |levels| > depth then Trim(side, levels - {Worst(side, levels)}, depth) else levels
  }

  ghost predicate Improves(side: Side, price: i64, levels: Ladder) {
    levels != map[] && Rank(side, price) < Rank(side, Worst(side, levels))
  }

  ghost function SetBounded(side: Side, levels: Ladder, price: i64, quantity: u64, depth: nat): Ladder {
    if price in levels then levels[price := quantity]
    else if |levels| >= depth && !Improves(side, price, levels) then levels
    else Trim(side, levels[price := quantity], depth)
  }

  /** Midpoint when both sides are valid, otherwise the last trade price. */
  ghost function ReferencePrice(v: View): Option<i64> {
    var bid, ask := Best(Buy, v.shown.bids), Best(Sell, v.shown.asks);
    if bid.Some? && ask.Some? && bid.value < ask.value then Midpoint(bid.value, ask.value) else v.lastTrade
  }

  ghost function SetQuote(q: Quotes, side: Side, price: i64, quantity: u64, depth: nat): Quotes {
    q.With(side, SetBounded(side, q.Of(side), price, quantity, depth))
  }

  function DeleteQuote(q: Quotes, side: Side, price: i64): Quotes {
    q.With(side, q.Of(side) - {price})
  }

  ghost function TrimQuotes(q: Quotes, depth: nat): Quotes {
    Quotes(Trim(Buy, q.bids, depth), Trim(Sell, q.asks, depth))
  }

  /** What an in-order, in-domain event does. */
  ghost function Absorb(v: View, kind: MarketKind): View {
    match kind
    case SnapshotBegin(n) => v.ClearScratch().(snapshotSeq := n, feed := ApplyingSnapshot)
    case SnapshotLevel(side, price, quantity) =>
      if v.feed.ApplyingSnapshot? && quantity != 0 then
        v.(scratch := SetQuote(v.scratch, side, price, quantity, v.depth),
           scratchLevels := (v.scratchLevels + 1) % (U32_MAX + 1))
      else v
    case SnapshotEnd(n, count) =>
      if v.feed.ApplyingSnapshot? && n == v.snapshotSeq && count == v.scratchLevels then
        v.(shown := TrimQuotes(v.scratch, v.depth), feed := Live).ClearScratch()
      else v.EnterGap()
    case LevelSet(side, price, quantity) =>
      if !v.feed.Live? then v
      else if quantity == 0 then v.(shown := DeleteQuote(v.shown, side, price))
      else v.(shown := SetQuote(v.shown, side, price, quantity, v.depth))
    case MarketTrade(_, price, _) => if v.feed.Live? then v.(lastTrade := Some(price)) else v
    case Heartbeat => v
    case FeedReset(epoch) =>
      v.ClearScratch().(epoch := epoch, lastSeq := 0, shown := NoQuotes, lastTrade := None, feed := Unsynchronized)
  }

  /** One feed message. */
  ghost function Apply(v: View, seq_: u64, kind: MarketKind, now: u64): View {
    if seq_ != 0 && CheckSequence(v, seq_).Duplicate? then v
    else if seq_ != 0 && !CheckSequence(v, seq_).InOrder? then v.EnterGap()
    else
      var v := if seq_ != 0 then v.(lastSeq := seq_) else v;
      if QuotedPrice(kind).Some? && !(v.lo <= QuotedPrice(kind).value <= v.hi) then v.EnterGap()
      else if kind.FeedReset? && kind.newEpoch <= v.epoch then v
      else Absorb(v.(lastUpdate := now), kind)
  }
}
