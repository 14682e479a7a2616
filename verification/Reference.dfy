/** The reference price of a market view and how recent the view is, read off the
    visible levels and the messages of the feed. */
module Reference {
  import opened Domain
  import opened Market
  import opened Feed

  // ---- the price ----------------------------------------------------------

  ghost predicate BestBid(v: View, bid: i64) {
    bid in v.shown.bids && forall p :: p in v.shown.bids ==> p <= bid
  }

  ghost predicate BestAsk(v: View, ask: i64) {
    ask in v.shown.asks && forall p :: p in v.shown.asks ==> ask <= p
  }

  /** Both sides are quoted and do not meet. */
  ghost predicate Quoted(v: View, bid: i64, ask: i64) {
    BestBid(v, bid) && BestAsk(v, ask) && bid < ask
  }

  /** As far from the bid as from the ask, or one nearer to the bid. */
  ghost predicate Halfway(m: int, bid: int, ask: int) {
    bid <= m < ask && 0 <= (ask - m) - (m - bid) <= 1
  }

  /** What the reference price has to be: halfway between the best bid and the best
      ask if their sum fits 64 bits, and the last trade if the sides are not both
      quoted or meet. */
  ghost predicate Marks(v: View, m: Option<i64>) {
    && (forall bid: i64, ask: i64 :: Quoted(v, bid, ask) ==>
          (m.Some? <==> I64_MIN <= bid + ask <= I64_MAX) && (m.Some? ==> Halfway(m.value, bid, ask)))
    && ((forall bid: i64, ask: i64 :: !Quoted(v, bid, ask)) ==> m == v.lastTrade)
  }

  lemma ReferenceMarks(v: View)
    ensures Marks(v, ReferencePrice(v))
  {
    var bid, ask := Best(Buy, v.shown.bids), Best(Sell, v.shown.asks);
    forall b: i64, a: i64 | Quoted(v, b, a) ensures bid == Some(b) && ask == Some(a) {
    }
    if bid.Some? && ask.Some? && bid.value < ask.value {
      assert Quoted(v, bid.value, ask.value);
    }
  }

  /** Nothing else marks the view. */
  lemma OneMark(v: View, m: Option<i64>, n: Option<i64>)
    requires Marks(v, m) && Marks(v, n)
    ensures m == n
  {
    if bid: i64, ask: i64 :| Quoted(v, bid, ask) {
      assert Quoted(v, bid, ask);
    }
  }

  // ---- recency ------------------------------------------------------------

  /** The view can tell which number comes next. */
  ghost predicate Numbering(v: View) {
    !v.feed.Unsynchronized? && !v.feed.Gap? && v.lastSeq != 0
  }

  ghost predicate InSequence(v: View, m: Message) {
    m.seq_ == 0 || !Numbering(v) || m.seq_ == v.lastSeq + 1
  }

  /** The message counts: it is in sequence, it quotes no price outside the domain,
      and it does not reset to an epoch already seen. */
  ghost predicate Heard(v: View, m: Message) {
    && InSequence(v, m)
    && (QuotedPrice(m.kind).Some? ==> v.lo <= QuotedPrice(m.kind).value <= v.hi)
    && (m.kind.FeedReset? ==> m.kind.newEpoch > v.epoch)
  }

  /** After every feed, a further message moves the time of the last update exactly
      when it counts, and the last trade exactly when it is a trade on a live feed,
      or a reset. */
  lemma RecencyFollowsFeed(lo: i64, hi: i64, depth: nat, feed: seq<Message>, m: Message)
    ensures var f, g := Follow(lo, hi, depth, feed).view, Follow(lo, hi, depth, feed + [m]).view;
      && g.lastUpdate == (if Heard(f, m) then m.now else f.lastUpdate)
      && g.lastTrade == (if !Heard(f, m) then f.lastTrade
                         else if m.kind.FeedReset? then None
                         else if m.kind.MarketTrade? && f.feed.Live? then Some(m.kind.price)
                         else f.lastTrade)
  {
    hide Absorb, ShadowApply;
    assert (feed + [m])[..|feed|] == feed;
    var f := Follow(lo, hi, depth, feed).view;
    AbsorbHears(f.(lastSeq := if m.seq_ != 0 then m.seq_ else f.lastSeq, lastUpdate := m.now), m.kind);
  }

  lemma AbsorbHears(v: View, kind: MarketKind)
    ensures var w := Absorb(v, kind);
      && w.lastUpdate == v.lastUpdate
      && w.lastTrade == if kind.FeedReset? then None
                        else if kind.MarketTrade? && v.feed.Live? then Some(kind.price) else v.lastTrade
  {
    hide SetQuote, DeleteQuote, TrimQuotes;
  }

  /** The message says nothing new: it repeats the last number, or resets to an epoch
      already seen. */
  ghost predicate Stale(v: View, m: Message) {
    || (m.seq_ != 0 && Numbering(v) && m.seq_ == v.lastSeq)
    || (InSequence(v, m) && m.kind.FeedReset? && m.kind.newEpoch <= v.epoch)
  }

  /** After every feed: a message that counts moves the state as its kind says, a stale
      one leaves it, and any other opens a gap. A snapshot that ends goes live exactly
      when it completes the one that began. */
  lemma FeedStateFollows(lo: i64, hi: i64, depth: nat, feed: seq<Message>, m: Message)
    ensures var f := Follow(lo, hi, depth, feed);
      var v, w := f.view, Follow(lo, hi, depth, feed + [m]).view;
      && w.feed == (if Heard(v, m) then
                      if m.kind.SnapshotBegin? then ApplyingSnapshot
                      else if m.kind.SnapshotEnd? then (if Completes(f, m) then Live else Gap)
                      else if m.kind.FeedReset? then Unsynchronized
                      else v.feed
                    else if Stale(v, m) then v.feed else Gap)
      && w.snapshotSeq == (if Heard(v, m) && m.kind.SnapshotBegin? then m.kind.snapshotSeq else v.snapshotSeq)
      && w.epoch == (if Heard(v, m) && m.kind.FeedReset? then m.kind.newEpoch else v.epoch)
      && w.lastSeq == (if Heard(v, m) && m.kind.FeedReset? then 0
                       else if m.seq_ != 0 && InSequence(v, m) then m.seq_ else v.lastSeq)
  {
    hide SetQuote, DeleteQuote, TrimQuotes, ShadowApply, InStep, Absorb;
    assert (feed + [m])[..|feed|] == feed;
    FollowKeeps(lo, hi, depth, feed);
    var f := Follow(lo, hi, depth, feed);
    CountsAgree(f.view, f.shadow);
    var v := f.view.(lastSeq := if m.seq_ != 0 then m.seq_ else f.view.lastSeq, lastUpdate := m.now);
    AbsorbMoves(v, m.kind);
  }

  lemma CountsAgree(v: View, h: Shadow)
    requires InStep(v, h)
    ensures v.scratchLevels == h.levels % (U32_MAX + 1)
  {
  }

  lemma AbsorbMoves(v: View, kind: MarketKind)
    ensures var w := Absorb(v, kind);
      && w.feed == (if kind.SnapshotBegin? then ApplyingSnapshot
                    else if kind.SnapshotEnd? then
                      if v.feed.ApplyingSnapshot? && kind.endSeq == v.snapshotSeq && kind.levelCount == v.scratchLevels then Live
                      else Gap
                    else if kind.FeedReset? then Unsynchronized
                    else v.feed)
      && w.snapshotSeq == (if kind.SnapshotBegin? then kind.snapshotSeq else v.snapshotSeq)
      && w.epoch == (if kind.FeedReset? then kind.newEpoch else v.epoch)
      && w.lastSeq == (if kind.FeedReset? then 0 else v.lastSeq)
  {
    hide SetQuote, DeleteQuote, TrimQuotes;
  }
}
