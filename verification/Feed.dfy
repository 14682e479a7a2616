/** Whole feeds: the ladder against the unbounded book, sequence continuity,
    complete snapshots and the price domain. */
module Feed {
  import opened Domain
  import opened Market
  import opened BoundedLadder

  datatype Message = Message(seq_: u64, kind: MarketKind, now: u64)

  /** Deletions of retained levels since the last snapshot, per side. */
  datatype Losses = Losses(bids: nat, asks: nat) {
    function Of(side: Side): nat {
      if side.Buy? then bids else asks
    }

    function Count(side: Side, lost: bool): Losses {
      if !lost then this else if side.Buy? then Losses(bids + 1, asks) else Losses(bids, asks + 1)
    }
  }

  /** What the same messages build without a depth bound, the losses, and the
      log of the current synchronization. */
  datatype Shadow = Shadow(shown: Quotes, scratch: Quotes, losses: Losses, seqs: seq<u64>, levels: nat) {
    function ClearScratch(): Shadow {
      this.(scratch := NoQuotes, levels := 0)
    }
  }

  const NoShadow := Shadow(NoQuotes, NoQuotes, Losses(0, 0), [], 0)

  function Put(q: Quotes, side: Side, price: i64, quantity: u64): Quotes {
    q.With(side, q.Of(side)[price := quantity])
  }

  function ShadowAbsorb(v: View, h: Shadow, kind: MarketKind): Shadow {
    match kind
    case SnapshotBegin(_) => h.ClearScratch()
    case SnapshotLevel(side, price, quantity) =>
      if v.feed.ApplyingSnapshot? && quantity != 0 then
        h.(scratch := Put(h.scratch, side, price, quantity), levels := h.levels + 1)
      else h
    case SnapshotEnd(n, count) =>
      if v.feed.ApplyingSnapshot? && n == v.snapshotSeq && count == v.scratchLevels then
        h.(shown := h.scratch, losses := Losses(0, 0)).ClearScratch()
      else h.ClearScratch()
    case LevelSet(side, price, quantity) =>
      if !v.feed.Live? then h
      else if quantity == 0 then
        h.(shown := DeleteQuote(h.shown, side, price), losses := h.losses.Count(side, price in v.shown.Of(side)))
      else h.(shown := Put(h.shown, side, price, quantity))
    case MarketTrade(_, _, _) => h
    case Heartbeat => h
    case FeedReset(_) => NoShadow.(seqs := h.seqs)
  }

  function Logged(h: Shadow, m: Message): Shadow {
    if m.kind.SnapshotBegin? then h.(seqs := if m.seq_ == 0 then [] else [m.seq_])
    else if m.seq_ == 0 then h
    else h.(seqs := h.seqs + [m.seq_])
  }

  function ShadowApply(v: View, h: Shadow, m: Message): Shadow {
    if m.seq_ != 0 && CheckSequence(v, m.seq_).Duplicate? then h
    else if m.seq_ != 0 && !CheckSequence(v, m.seq_).InOrder? then h.ClearScratch()
    else
      var h := Logged(h, m);
      if QuotedPrice(m.kind).Some? && !(v.lo <= QuotedPrice(m.kind).value <= v.hi) then h.ClearScratch()
      else if m.kind.FeedReset? && m.kind.newEpoch <= v.epoch then h
      else ShadowAbsorb(v, h, m.kind)
  }

  datatype Followed = Followed(view: View, shadow: Shadow)

  ghost function Follow(lo: i64, hi: i64, depth: nat, feed: seq<Message>): Followed
    decreases |feed|
  {
    if feed == [] then Followed(NewView(lo, hi, depth), NoShadow)
    else
      var f, m := Follow(lo, hi, depth, feed[..|feed| - 1]), feed[|feed| - 1];
      Followed(Apply(f.view, m.seq_, m.kind, m.now), ShadowApply(f.view, f.shadow, m))
  }

  // ---- the ladder ---------------------------------------------------------

  ghost predicate QuotesTrack(q: Quotes, full: Quotes, depth: nat, losses: Losses) {
    && Tracks(Buy, q.bids, full.bids, depth, losses.bids)
    && Tracks(Sell, q.asks, full.asks, depth, losses.asks)
  }

  ghost predicate AllTracks(v: View, h: Shadow) {
    && v.depth > 0
    && QuotesTrack(v.shown, h.shown, v.depth, h.losses)
    && QuotesTrack(v.scratch, h.scratch, v.depth, Losses(0, 0))
  }

  lemma EmptyTracks(depth: nat, losses: Losses)
    ensures QuotesTrack(NoQuotes, NoQuotes, depth, losses)
  {
  }

  lemma PutTracks(q: Quotes, full: Quotes, depth: nat, losses: Losses, side: Side, price: i64, quantity: u64)
    requires QuotesTrack(q, full, depth, losses) && depth > 0
    ensures QuotesTrack(SetQuote(q, side, price, quantity, depth), Put(full, side, price, quantity), depth, losses)
  {
    hide Tracks, SetBounded;
    SetTracks(side, q.Of(side), full.Of(side), depth, losses.Of(side), price, quantity);
  }

  lemma LostTracks(q: Quotes, full: Quotes, depth: nat, losses: Losses, side: Side, price: i64)
    requires QuotesTrack(q, full, depth, losses)
    ensures QuotesTrack(DeleteQuote(q, side, price), DeleteQuote(full, side, price), depth,
                        losses.Count(side, price in q.Of(side)))
  {
    hide Tracks;
    DeleteTracks(side, q.Of(side), full.Of(side), depth, losses.Of(side), price);
  }

  lemma TrimTracks(q: Quotes, full: Quotes, depth: nat, losses: Losses)
    requires QuotesTrack(q, full, depth, losses)
    ensures TrimQuotes(q, depth) == q
  {
    hide Trim;
    TrimNone(Buy, q.bids, depth);
    TrimNone(Sell, q.asks, depth);
  }

  lemma AbsorbTracks(v: View, h: Shadow, kind: MarketKind)
    requires AllTracks(v, h)
    ensures AllTracks(Absorb(v, kind), ShadowAbsorb(v, h, kind))
  {
    hide QuotesTrack, SetQuote, DeleteQuote, TrimQuotes, Put;
    EmptyTracks(v.depth, Losses(0, 0));
    match kind {
      case SnapshotBegin(_) =>
      case SnapshotLevel(side, price, quantity) =>
        PutTracks(v.scratch, h.scratch, v.depth, Losses(0, 0), side, price, quantity);
      case SnapshotEnd(n, count) =>
        TrimTracks(v.scratch, h.scratch, v.depth, Losses(0, 0));
      case LevelSet(side, price, quantity) =>
        PutTracks(v.shown, h.shown, v.depth, h.losses, side, price, quantity);
        LostTracks(v.shown, h.shown, v.depth, h.losses, side, price);
      case MarketTrade(_, _, _) =>
      case Heartbeat =>
      case FeedReset(_) =>
    }
  }

  lemma ApplyTracks(v: View, h: Shadow, m: Message)
    requires AllTracks(v, h)
    ensures AllTracks(Apply(v, m.seq_, m.kind, m.now), ShadowApply(v, h, m))
  {
    hide QuotesTrack, Absorb, ShadowAbsorb;
    EmptyTracks(v.depth, Losses(0, 0));
    var v1 := (if m.seq_ != 0 then v.(lastSeq := m.seq_) else v).(lastUpdate := m.now);
    AbsorbTracks(v1, Logged(h, m), m.kind);
    AbsorbSame(v, v1, Logged(h, m), m.kind);
  }

  lemma AbsorbSame(v: View, v1: View, h: Shadow, kind: MarketKind)
    requires v1 == v.(lastSeq := v1.lastSeq, lastUpdate := v1.lastUpdate)
    ensures ShadowAbsorb(v1, h, kind) == ShadowAbsorb(v, h, kind)
  {
  }

  lemma {:induction false} FollowTracks(lo: i64, hi: i64, depth: nat, feed: seq<Message>)
    ensures var f := Follow(lo, hi, depth, feed);
      AllTracks(f.view, f.shadow) && f.view.depth == (if depth == 0 then 1 else depth)
    decreases |feed|
  {
    hide QuotesTrack, Apply, ShadowApply;
    if feed == [] {
      EmptyTracks(NewView(lo, hi, depth).depth, Losses(0, 0));
    } else {
      var f, m := Follow(lo, hi, depth, feed[..|feed| - 1]), feed[|feed| - 1];
      FollowTracks(lo, hi, depth, feed[..|feed| - 1]);
      ApplyTracks(f.view, f.shadow, m);
      ApplyDomain(f.view, m);
    }
  }

  lemma AbsorbDomain(v: View, kind: MarketKind)
    ensures Absorb(v, kind).depth == v.depth && Absorb(v, kind).lo == v.lo && Absorb(v, kind).hi == v.hi
  {
    hide SetQuote, DeleteQuote, TrimQuotes;
  }

  lemma ApplyDomain(v: View, m: Message)
    ensures var w := Apply(v, m.seq_, m.kind, m.now);
      w.depth == v.depth && w.lo == v.lo && w.hi == v.hi
  {
    hide Absorb;
    var v1 := (if m.seq_ != 0 then v.(lastSeq := m.seq_) else v).(lastUpdate := m.now);
    AbsorbDomain(v1, m.kind);
  }

  /** For every feed: the ladder shows only levels of the full book with their
      quantities, never more than its depth, and with fewer deletions of
      retained levels since the last snapshot than its depth, its best price
      is the full book's best price. */
  lemma LadderShowsBest(lo: i64, hi: i64, depth: nat, feed: seq<Message>, side: Side)
    ensures var f := Follow(lo, hi, depth, feed);
      var levels, full, losses := f.view.shown.Of(side), f.shadow.shown.Of(side), f.shadow.losses.Of(side);
      && (forall p :: p in levels ==> p in full && full[p] == levels[p])
      && |levels| <= f.view.depth
      && (forall p :: Needed(side, full, p, f.view.depth - losses) ==> p in levels)
      && (losses < f.view.depth ==> Best(side, levels) == Best(side, full))
  {
    hide Follow, Needed;
    FollowTracks(lo, hi, depth, feed);
    var f := Follow(lo, hi, depth, feed);
    if f.shadow.losses.Of(side) < f.view.depth {
      BestIsExact(side, f.view.shown.Of(side), f.shadow.shown.Of(side), f.view.depth, f.shadow.losses.Of(side));
    }
  }

  // ---- sequences, snapshots and the price domain --------------------------

  ghost predicate Consecutive(seqs: seq<u64>) {
    forall k :: 0 <= k < |seqs| - 1 ==> seqs[k + 1] as int == seqs[k] as int + 1
  }

  ghost predicate InDomain(levels: Ladder, lo: i64, hi: i64) {
    forall p :: p in levels ==> lo <= p <= hi
  }

  ghost predicate QuotesIn(q: Quotes, lo: i64, hi: i64) {
    InDomain(q.bids, lo, hi) && InDomain(q.asks, lo, hi)
  }

  /** Everything the view may show lies in the instrument's price domain. */
  ghost predicate Domestic(v: View) {
    && QuotesIn(v.shown, v.lo, v.hi) && QuotesIn(v.scratch, v.lo, v.hi)
    && (v.lastTrade.Some? ==> v.lo <= v.lastTrade.value <= v.hi)
  }

  /** While a snapshot is applied or the feed is live, the sequences accepted
      since the snapshot began are consecutive. */
  ghost predicate InStep(v: View, h: Shadow) {
    && (v.feed.ApplyingSnapshot? || v.feed.Live? ==>
          Consecutive(h.seqs) && (h.seqs != [] ==> h.seqs[|h.seqs| - 1] == v.lastSeq && v.lastSeq != 0))
    && v.scratchLevels == h.levels % (U32_MAX + 1)
  }

  lemma {:induction false} TrimDomain(side: Side, levels: Ladder, depth: nat, lo: i64, hi: i64)
    requires InDomain(levels, lo, hi)
    ensures InDomain(Trim(side, levels, depth), lo, hi)
    decreases |levels|
  {
    if |levels| > depth {
      var rest := levels - {Worst(side, levels)};
      assert rest.Keys == levels.Keys - {Worst(side, levels)};
      KeysSize(levels);
      KeysSize(rest);
      TrimDomain(side, rest, depth, lo, hi);
    }
  }

  lemma SetDomain(q: Quotes, side: Side, price: i64, quantity: u64, depth: nat, lo: i64, hi: i64)
    requires QuotesIn(q, lo, hi) && lo <= price <= hi
    ensures QuotesIn(SetQuote(q, side, price, quantity, depth), lo, hi)
  {
    hide Trim;
    TrimDomain(side, q.Of(side)[price := quantity], depth, lo, hi);
  }

  lemma AbsorbDomestic(v: View, kind: MarketKind)
    requires Domestic(v) && (QuotedPrice(kind).Some? ==> v.lo <= QuotedPrice(kind).value <= v.hi)
    ensures Domestic(Absorb(v, kind))
  {
    hide SetQuote, DeleteQuote, TrimQuotes, QuotesIn;
    EmptyDomain(v.lo, v.hi);
    match kind {
      case SnapshotBegin(_) =>
      case SnapshotLevel(side, price, quantity) =>
        SetDomain(v.scratch, side, price, quantity, v.depth, v.lo, v.hi);
      case SnapshotEnd(n, count) => TrimQuotesDomain(v.scratch, v.depth, v.lo, v.hi);
      case LevelSet(side, price, quantity) =>
        SetDomain(v.shown, side, price, quantity, v.depth, v.lo, v.hi);
        DeleteDomain(v.shown, side, price, v.lo, v.hi);
      case MarketTrade(_, _, _) =>
      case Heartbeat =>
      case FeedReset(_) =>
    }
  }

  lemma EmptyDomain(lo: i64, hi: i64)
    ensures QuotesIn(NoQuotes, lo, hi)
  {
  }

  lemma DeleteDomain(q: Quotes, side: Side, price: i64, lo: i64, hi: i64)
    requires QuotesIn(q, lo, hi)
    ensures QuotesIn(DeleteQuote(q, side, price), lo, hi)
  {
  }

  lemma TrimQuotesDomain(q: Quotes, depth: nat, lo: i64, hi: i64)
    requires QuotesIn(q, lo, hi)
    ensures QuotesIn(TrimQuotes(q, depth), lo, hi)
  {
    hide Trim;
    TrimDomain(Buy, q.bids, depth, lo, hi);
    TrimDomain(Sell, q.asks, depth, lo, hi);
  }

  lemma ApplyDomestic(v: View, m: Message)
    requires Domestic(v)
    ensures Domestic(Apply(v, m.seq_, m.kind, m.now))
  {
    hide Absorb, QuotesIn;
    EmptyDomain(v.lo, v.hi);
    var v1 := (if m.seq_ != 0 then v.(lastSeq := m.seq_) else v).(lastUpdate := m.now);
    if !(QuotedPrice(m.kind).Some? && !(v.lo <= QuotedPrice(m.kind).value <= v.hi)) {
      AbsorbDomestic(v1, m.kind);
    }
  }

  lemma AbsorbInStep(v: View, h: Shadow, kind: MarketKind)
    requires InStep(v, h) && !kind.SnapshotBegin?
    ensures InStep(Absorb(v, kind), ShadowAbsorb(v, h, kind))
  {
    hide SetQuote, DeleteQuote, TrimQuotes, Put, Consecutive;
  }

  lemma BeginInStep(v: View, h: Shadow, m: Message)
    requires m.kind.SnapshotBegin?
    ensures InStep(Absorb(if m.seq_ != 0 then v.(lastSeq := m.seq_, lastUpdate := m.now) else v.(lastUpdate := m.now), m.kind),
                   ShadowAbsorb(v, Logged(h, m), m.kind))
  {
  }

  /** An accepted sequence continues the log. */
  lemma LogInStep(v: View, h: Shadow, m: Message)
    requires InStep(v, h) && !m.kind.SnapshotBegin? && (m.seq_ != 0 ==> CheckSequence(v, m.seq_).InOrder?)
    ensures InStep(if m.seq_ != 0 then v.(lastSeq := m.seq_) else v, Logged(h, m))
  {
    if m.seq_ != 0 && h.seqs != [] && (v.feed.ApplyingSnapshot? || v.feed.Live?) {
      var seqs := h.seqs + [m.seq_];
      forall k | 0 <= k < |seqs| - 1 ensures seqs[k + 1] as int == seqs[k] as int + 1 {
        if k < |h.seqs| - 1 {
          assert seqs[k + 1] == h.seqs[k + 1] && seqs[k] == h.seqs[k];
        }
      }
    }
  }

  lemma ApplyInStep(v: View, h: Shadow, m: Message)
    requires InStep(v, h)
    ensures InStep(Apply(v, m.seq_, m.kind, m.now), ShadowApply(v, h, m))
  {
    hide Absorb, ShadowAbsorb, Consecutive;
    var v1 := if m.seq_ != 0 then v.(lastSeq := m.seq_) else v;
    var v2 := v1.(lastUpdate := m.now);
    if m.seq_ == 0 || CheckSequence(v, m.seq_).InOrder? {
      AbsorbSame(v, v2, Logged(h, m), m.kind);
      if m.kind.SnapshotBegin? {
        BeginInStep(v, h, m);
      } else {
        LogInStep(v, h, m);
        AbsorbInStep(v2, Logged(h, m), m.kind);
      }
    }
  }

  lemma {:induction false} FollowKeeps(lo: i64, hi: i64, depth: nat, feed: seq<Message>)
    ensures var f := Follow(lo, hi, depth, feed);
      Domestic(f.view) && InStep(f.view, f.shadow) && f.view.lo == lo && f.view.hi == hi
    decreases |feed|
  {
    hide Apply, ShadowApply, Domestic, InStep;
    if feed == [] {
      FreshKeeps(lo, hi, depth);
    } else {
      var f, m := Follow(lo, hi, depth, feed[..|feed| - 1]), feed[|feed| - 1];
      FollowKeeps(lo, hi, depth, feed[..|feed| - 1]);
      ApplyDomestic(f.view, m);
      ApplyInStep(f.view, f.shadow, m);
      ApplyDomain(f.view, m);
    }
  }

  lemma FreshKeeps(lo: i64, hi: i64, depth: nat)
    ensures Domestic(NewView(lo, hi, depth)) && InStep(NewView(lo, hi, depth), NoShadow)
  {
  }

  /** Whenever the feed is live, the source sequences accepted since its
      snapshot began are consecutive. */
  lemma LiveIsContinuous(lo: i64, hi: i64, depth: nat, feed: seq<Message>)
    ensures var f := Follow(lo, hi, depth, feed);
      f.view.feed.Live? ==> Consecutive(f.shadow.seqs)
  {
    hide Follow, Consecutive;
    FollowKeeps(lo, hi, depth, feed);
  }

  /** The message ends the snapshot being applied, with its number and with the
      count of the levels received. */
  ghost predicate Completes(f: Followed, m: Message) {
    && f.view.feed.ApplyingSnapshot? && m.kind.SnapshotEnd?
    && m.kind.endSeq == f.view.snapshotSeq && m.kind.levelCount == f.shadow.levels % (U32_MAX + 1)
  }

  /** A live view is entered only by completing a snapshot. The visible levels are
      then the pending ones cut to the depth: of all the levels the snapshot
      delivered, the best ones with their quantities. */
  lemma LiveIsComplete(lo: i64, hi: i64, depth: nat, feed: seq<Message>, m: Message, side: Side)
    ensures var f := Follow(lo, hi, depth, feed);
      var g := Follow(lo, hi, depth, feed + [m]);
      var levels, delivered := g.view.shown.Of(side), f.shadow.scratch.Of(side);
      g.view.feed.Live? && !f.view.feed.Live? ==>
        && Completes(f, m)
        && g.view.shown == TrimQuotes(f.view.scratch, f.view.depth)
        && (forall p :: p in levels ==> p in delivered && delivered[p] == levels[p])
        && (forall p :: Needed(side, delivered, p, f.view.depth) ==> p in levels)
  {
    hide Apply, ShadowApply, TrimQuotes, Domestic, InStep, Completes, Needed;
    assert (feed + [m])[..|feed|] == feed;
    FollowKeeps(lo, hi, depth, feed);
    BecomesLive(Follow(lo, hi, depth, feed), m);
    LadderShowsBest(lo, hi, depth, feed + [m], side);
  }

  lemma BecomesLive(f: Followed, m: Message)
    requires InStep(f.view, f.shadow)
    ensures var v, h := Apply(f.view, m.seq_, m.kind, m.now), ShadowApply(f.view, f.shadow, m);
      v.feed.Live? && !f.view.feed.Live? ==>
        && Completes(f, m) && v.shown == TrimQuotes(f.view.scratch, f.view.depth) && v.depth == f.view.depth
        && h.shown == f.shadow.scratch && h.losses == Losses(0, 0)
  {
    hide TrimQuotes, SetQuote, DeleteQuote, Put, Consecutive;
  }

  /** The visible book changes only by completing a snapshot, by a level message
      while live, or by a reset to a newer epoch. */
  lemma VisibleBookChangesOnly(lo: i64, hi: i64, depth: nat, feed: seq<Message>, m: Message)
    ensures var f := Follow(lo, hi, depth, feed);
      var shown, after := f.view.shown, Follow(lo, hi, depth, feed + [m]).view.shown;
      || after == shown
      || (Completes(f, m) && after == TrimQuotes(f.view.scratch, f.view.depth))
      || (&& f.view.feed.Live? && m.kind.LevelSet?
          && after == if m.kind.quantity == 0 then DeleteQuote(shown, m.kind.side, m.kind.price)
                      else SetQuote(shown, m.kind.side, m.kind.price, m.kind.quantity, f.view.depth))
      || (m.kind.FeedReset? && m.kind.newEpoch > f.view.epoch && after == NoQuotes)
  {
    hide TrimQuotes, SetQuote, DeleteQuote, ShadowApply, Domestic, Consecutive;
    assert (feed + [m])[..|feed|] == feed;
    FollowKeeps(lo, hi, depth, feed);
  }

  /** Every visible and every pending level, and the last trade, lie in the
      instrument's price domain. */
  lemma LevelsStayInDomain(lo: i64, hi: i64, depth: nat, feed: seq<Message>, side: Side)
    ensures var v := Follow(lo, hi, depth, feed).view;
      && (forall p :: p in v.shown.Of(side) ==> lo <= p <= hi)
      && (forall p :: p in v.scratch.Of(side) ==> lo <= p <= hi)
      && (v.lastTrade.Some? ==> lo <= v.lastTrade.value <= hi)
  {
    hide Follow, InStep;
    FollowKeeps(lo, hi, depth, feed);
  }

  /** The reference price always lies in the instrument's price domain. */
  lemma ReferenceInDomain(lo: i64, hi: i64, depth: nat, feed: seq<Message>)
    ensures var p := ReferencePrice(Follow(lo, hi, depth, feed).view);
      p.Some? ==> lo <= p.value <= hi
  {
    hide Follow, InStep;
    FollowKeeps(lo, hi, depth, feed);
  }
}
