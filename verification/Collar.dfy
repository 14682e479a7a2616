/** The price collar from the check to the tape. A request never trades at a price
    worse for it than its account's collar allows. It may trade at a better one:
    it does exactly when it meets a best price beyond the collar. */
module Collar {
  import opened Domain
  import opened PriceTime
  import opened Ledger
  import opened Accounts
  import opened Core
  import opened Safety
  import opened Outputs
  import opened Halts
  import opened Attacks
  import Market

  // ---- the trades of one execution ----------------------------------------

  /** A trade of this taker at a price its limit accepts. */
  ghost predicate Caused(t: Trade, side: Side, account: u32, instrument: u32, limit: i64) {
    && t.aggressor == side && t.takerAccount == account && t.instrument == instrument
    && Eligible(side.Opposite(), t.price, limit)
  }

  ghost predicate AllCaused(trades: seq<Trade>, side: Side, account: u32, instrument: u32, limit: i64) {
    forall k :: 0 <= k < |trades| ==> Caused(trades[k], side, account, instrument, limit)
  }

  ghost predicate Within(fills: seq<Fill>, side: Side, limit: i64) {
    forall k :: 0 <= k < |fills| ==> Eligible(side, fills[k].price, limit)
  }

  lemma {:induction false} FillsWithin(side: Side, q: seq<Order>, limit: i64, quantity: u64)
    requires Resting(side, q)
    ensures Within(Match(side, q, limit, quantity).fills, side, limit)
  {
    if quantity > 0 && q != [] && Eligible(side, q[0].price, limit) && quantity >= q[0].Remaining() {
      FillsWithin(side, q[1..], limit, quantity - q[0].Remaining());
    }
  }

  lemma {:induction false} SettledCaused(s: State, x: Taker, fills: seq<Fill>, cumulative: u64, limit: i64)
    requires Within(fills, x.side.Opposite(), limit)
    ensures AllCaused(TradesOf(SettleAll(s, x, fills, cumulative).out), x.side, x.request.account,
                      InstrumentId(s, x.instrument), limit)
    decreases |fills|
  {
    hide SettleOne, TradesOf, Eligible;
    NoTrades();
    if fills != [] && cumulative + fills[0].quantity <= U64_MAX && Successor(s.nextTrade).Some? {
      var s0 := s.(nextTrade := s.nextTrade + 1);
      var one := SettleOne(s0, x, fills[0], cumulative + fills[0].quantity);
      SettleOneTrade(s0, x, fills[0], cumulative + fills[0].quantity);
      SettleOneLive(s0, x, fills[0], cumulative + fills[0].quantity);
      SettledCaused(one.state, x, fills[1..], cumulative + fills[0].quantity, limit);
      TradesConcat(one.out, SettleAll(one.state, x, fills[1..], cumulative + fills[0].quantity).out);
    }
  }

  /** Settled without a fault, the trades are the fills, price by price. */
  ghost predicate SamePrices(trades: seq<Trade>, fills: seq<Fill>) {
    |trades| == |fills| && forall k :: 0 <= k < |trades| ==> trades[k].price == fills[k].price
  }

  lemma {:induction false} SettledPrices(s: State, x: Taker, fills: seq<Fill>, cumulative: u64)
    requires SettleAll(s, x, fills, cumulative).state.fault.None?
    ensures s.fault.None? && SamePrices(TradesOf(SettleAll(s, x, fills, cumulative).out), fills)
    decreases |fills|
  {
    hide SettleOne, TradesOf, InstrumentId;
    NoTrades();
    if fills == [] {
      assert SamePrices([], []);
    } else {
      var s0 := s.(nextTrade := s.nextTrade + 1);
      var one := SettleOne(s0, x, fills[0], cumulative + fills[0].quantity);
      SettledPrices(one.state, x, fills[1..], cumulative + fills[0].quantity);
      SettleOneTrade(s0, x, fills[0], cumulative + fills[0].quantity);
      SettleOneFault(s0, x, fills[0], cumulative + fills[0].quantity);
      var rest := SettleAll(one.state, x, fills[1..], cumulative + fills[0].quantity);
      TradesConcat(one.out, rest.out);
      FirstPrice(TradesOf(one.out), TradesOf(rest.out), fills);
    }
  }

  lemma FirstPrice(first: seq<Trade>, rest: seq<Trade>, fills: seq<Fill>)
    requires fills != [] && |first| == 1 && first[0].price == fills[0].price && SamePrices(rest, fills[1..])
    ensures SamePrices(first + rest, fills)
  {
  }

  lemma ExecutedCaused(s: State, x: Taker, limit: i64)
    ensures AllCaused(TradesOf(Execute(s, x, limit).out), x.side, x.request.account, InstrumentId(s, x.instrument), limit)
  {
    hide SettleAll, TradesOf, Match, Resting, AllCaused;
    var b, ms := BookAt(s.desk, x.instrument), x.side.Opposite();
    var m := Sweep(ms, b.Of(ms), limit, x.quantity);
    if Resting(ms, b.Of(ms)) {
      FillsWithin(ms, b.Of(ms), limit, x.quantity);
    }
    SettledCaused(s.(desk := PutBook(s.desk, x.instrument, b.With(ms, m.rest))), x, m.fills, 0, limit);
  }

  /** The first trade is with the best resting price if the limit accepts it, and
      no trade is at a better price. */
  ghost predicate FromBest(trades: seq<Trade>, q: seq<Order>, side: Side, limit: i64) {
    && (q != [] && Eligible(side, q[0].price, limit) ==> trades != [] && trades[0].price == q[0].price)
    && (forall k :: 0 <= k < |trades| ==> q != [] && Rank(side, q[0].price) <= Rank(side, trades[k].price))
  }

  lemma FillsFromBest(side: Side, q: seq<Order>, limit: i64, quantity: u64)
    requires Queue(side, q) && quantity > 0
    ensures var f := Match(side, q, limit, quantity).fills;
      && |f| <= |q| && (forall k :: 0 <= k < |f| ==> f[k].price == q[k].price)
      && (q != [] && Eligible(side, q[0].price, limit) ==> f != [])
  {
    MatchConsumesPrefix(side, q, limit, quantity);
  }

  lemma ExecutedFromBest(s: State, x: Taker, limit: i64)
    requires Queue(x.side.Opposite(), BookAt(s.desk, x.instrument).Of(x.side.Opposite())) && x.quantity > 0
    requires Execute(s, x, limit).state.fault.None?
    ensures FromBest(TradesOf(Execute(s, x, limit).out), BookAt(s.desk, x.instrument).Of(x.side.Opposite()),
                     x.side.Opposite(), limit)
  {
    hide SettleAll, TradesOf, Match, Eligible;
    var b, ms := BookAt(s.desk, x.instrument), x.side.Opposite();
    var q, m := b.Of(ms), Sweep(ms, b.Of(ms), limit, x.quantity);
    SettledPrices(s.(desk := PutBook(s.desk, x.instrument, b.With(ms, m.rest))), x, m.fills, 0);
    FillsFromBest(ms, q, limit, x.quantity);
    forall k | 0 < k < |q| ensures Rank(ms, q[0].price) <= Rank(ms, q[k].price) {
      assert Ahead(ms, q[0], q[k]);
    }
  }

  // ---- the collar ---------------------------------------------------------

  /** What the checks established for an execution. */
  ghost predicate Checked(s: State, r: Request, k: Attack) {
    && r.account in s.cfg.accountIds.index && s.cfg.accountIds.index[r.account] == k.taker.account
    && r.instrument in s.cfg.instrumentIds.index && s.cfg.instrumentIds.index[r.instrument] == k.taker.instrument
    && k.state.cfg == s.cfg && k.taker.request == r && k.taker.side == r.side && k.taker.quantity > 0
    && !s.kill && ViewAt(s, k.taker.instrument).feed.Live?
    && s.time - ViewAt(s, k.taker.instrument).lastUpdate <= s.cfg.maxAge
    && Market.ReferencePrice(ViewAt(s, k.taker.instrument)).Some?
    && Abs(k.limit - Market.ReferencePrice(ViewAt(s, k.taker.instrument)).value)
         <= CollarTicks(AccountAt(s, k.taker.account).limits)
    && (r.orderType.LimitOrder? ==> k.limit == r.price)
  }

  lemma NewChecked(s: State, r: Request)
    requires AttackOf(s, r).Some? && r.kind.New?
    ensures Checked(s, r, AttackOf(s, r).value)
  {
    hide CheckExposure, CheckPrice, CacheLookup;
  }

  lemma ReplaceChecked(s: State, r: Request)
    requires AttackOf(s, r).Some? && r.kind.Replace?
    ensures Checked(s, r, AttackOf(s, r).value)
  {
    hide CheckExposure, CheckPrice, CheckQuantity, CacheLookup, Lookup, Withdraw;
  }

  /** The request trades under a live and fresh feed with a reference price, as
      taker in its own instrument, at no price worse for it than the collar allows
      around that reference, and for a limit request none worse than its limit. */
  ghost predicate Collared(s: State, r: Request, t: Trade) {
    && r.account in s.cfg.accountIds.index && r.instrument in s.cfg.instrumentIds.index && !s.kill
    && var a, v := s.cfg.accountIds.index[r.account], ViewAt(s, s.cfg.instrumentIds.index[r.instrument]);
    && v.feed.Live? && s.time - v.lastUpdate <= s.cfg.maxAge
    && Market.ReferencePrice(v).Some?
    && var reference, collar := Market.ReferencePrice(v).value, CollarTicks(AccountAt(s, a).limits);
    && t.takerAccount == r.account && t.instrument == r.instrument && t.aggressor == r.side
    && (if t.aggressor.Buy? then t.price <= reference + collar else t.price >= reference - collar)
    && (r.orderType.LimitOrder? ==> Eligible(t.aggressor.Opposite(), t.price, r.price))
  }

  ghost predicate AllCollared(s: State, r: Request, trades: seq<Trade>) {
    forall k :: 0 <= k < |trades| ==> Collared(s, r, trades[k])
  }

  lemma CausedCollared(s: State, r: Request, k: Attack, trades: seq<Trade>)
    requires Checked(s, r, k)
    requires AllCaused(trades, k.taker.side, r.account, InstrumentId(k.state, k.taker.instrument), k.limit)
    ensures AllCollared(s, r, trades)
  {
  }

  /** In every state, no request trades at a price worse for it than its collar
      allows. */
  lemma NeverWorseThanCollar(s: State, r: Request)
    ensures AllCollared(s, r, TradesOf(ApplyRequest(s, r).out))
  {
    hide TradesOf, AttackOf, ApplyRequest, Execute, Collared, Checked, AllCaused;
    RequestAttacks(s, r);
    if AttackOf(s, r).Some? {
      var k := AttackOf(s, r).value;
      AttackKinds(s, r);
      if r.kind.New? {
        NewChecked(s, r);
      } else {
        ReplaceChecked(s, r);
      }
      assert k.taker.request == r by { TakerOf(s, r, k); }
      ExecutedCaused(k.state, k.taker, k.limit);
      CausedCollared(s, r, k, TradesOf(Execute(k.state, k.taker, k.limit).out));
    }
  }

  lemma AttackKinds(s: State, r: Request)
    ensures AttackOf(s, r).Some? ==> r.kind.New? || r.kind.Replace?
  {
  }

  lemma TakerOf(s: State, r: Request, k: Attack)
    requires Checked(s, r, k)
    ensures k.taker.request == r && k.taker.side == r.side && k.taker.quantity > 0
  {
  }

  // ---- both sides of the collar -------------------------------------------

  /** The trade is no further from the reference price than the collar. */
  ghost predicate InBand(s: State, r: Request, t: Trade) {
    && r.account in s.cfg.accountIds.index && r.instrument in s.cfg.instrumentIds.index
    && var reference := Market.ReferencePrice(ViewAt(s, s.cfg.instrumentIds.index[r.instrument]));
    && reference.Some?
    && Abs(t.price - reference.value) <= CollarTicks(AccountAt(s, s.cfg.accountIds.index[r.account]).limits)
  }

  ghost predicate AllInBand(s: State, r: Request, trades: seq<Trade>) {
    forall k :: 0 <= k < |trades| ==> InBand(s, r, trades[k])
  }

  /** The best price the request meets is better for it by more than the collar. */
  ghost predicate MeetsFarPrice(s: State, r: Request) {
    && r.account in s.cfg.accountIds.index && r.instrument in s.cfg.instrumentIds.index
    && var i := s.cfg.instrumentIds.index[r.instrument];
    && var q, reference := BookAt(s.desk, i).Of(r.side.Opposite()), Market.ReferencePrice(ViewAt(s, i));
    && var collar := CollarTicks(AccountAt(s, s.cfg.accountIds.index[r.account]).limits);
    && q != [] && reference.Some?
    && if r.side.Buy? then q[0].price < reference.value - collar else q[0].price > reference.value + collar
  }

  /** The side a request meets is the same before and after its own order is
      withdrawn. */
  lemma MeetsSame(s: State, caps: seq<Cap>, r: Request)
    requires Good(s, caps) && AttackOf(s, r).Some?
    ensures var k := AttackOf(s, r).value;
      var q := BookAt(k.state.desk, k.taker.instrument).Of(r.side.Opposite());
      q == BookAt(s.desk, k.taker.instrument).Of(r.side.Opposite()) && Queue(r.side.Opposite(), q)
  {
    hide Good, CheckNew, CheckRisk, CheckReference, CheckQuantity, CheckPrice, CheckPermitted, CheckReplace, CacheLookup, Lookup, Withdraw, Queue, Orderly;
    GoodKeyed(s, caps);
    var i := AttackOf(s, r).value.taker.instrument;
    OrderlyQueue(BookAt(s.desk, i), r.side.Opposite());
    if r.kind.Replace? {
      var c := CheckReplace(s, r).value;
      ReplaceSide(s, r);
      OtherSideStays(s.desk, c.account, c.instrument, c.existing, s.desk.clients[Owner(r.account, r.target)]);
    }
  }

  lemma OrderlyQueue(b: Book, side: Side)
    requires Orderly(b)
    ensures Queue(side, b.Of(side))
  {
  }

  lemma OtherSideStays(d: Desk, a: nat, i: nat, o: Order, id: u64)
    requires Orderly(BookAt(d, i)) && Lookup(BookAt(d, i), id) == Some(o) && o.filled <= o.total
    ensures BookAt(Withdraw(d, a, i, o).desk, i).Of(o.side.Opposite()) == BookAt(d, i).Of(o.side.Opposite())
  {
    hide Orderly, Lookup, Remove, Release;
    var k := RemoveIsDrop(BookAt(d, i), id);
  }

  lemma BandOfAttack(s: State, r: Request, k: Attack, q: seq<Order>, trades: seq<Trade>)
    requires Checked(s, r, k) && AllCollared(s, r, trades) && FromBest(trades, q, r.side.Opposite(), k.limit)
    requires q == BookAt(s.desk, k.taker.instrument).Of(r.side.Opposite())
    ensures AllInBand(s, r, trades) <==> !MeetsFarPrice(s, r)
  {
    if MeetsFarPrice(s, r) {
      assert Eligible(r.side.Opposite(), q[0].price, k.limit);
      assert !InBand(s, r, trades[0]);
    } else {
      forall j | 0 <= j < |trades| ensures InBand(s, r, trades[j]) {
        assert Collared(s, r, trades[j]);
      }
    }
  }

  /** All trades of a request are within the collar on both sides if and only if it
      does not execute against a best price beyond the collar. */
  lemma BothSidesExactly(s: State, caps: seq<Cap>, r: Request)
    requires Good(s, caps) && ApplyRequest(s, r).state.fault.None?
    ensures AllInBand(s, r, TradesOf(ApplyRequest(s, r).out)) <==> AttackOf(s, r).None? || !MeetsFarPrice(s, r)
  {
    hide Good, TradesOf, AttackOf, ApplyRequest, Execute, Collared, InBand, Checked, MeetsFarPrice, FromBest, BookAt, Queue;
    RequestAttacks(s, r);
    NeverWorseThanCollar(s, r);
    if AttackOf(s, r).Some? {
      var k := AttackOf(s, r).value;
      AttackKinds(s, r);
      if r.kind.New? {
        NewChecked(s, r);
      } else {
        ReplaceChecked(s, r);
      }
      TakerOf(s, r, k);
      MeetsSame(s, caps, r);
      ExecutedFromBest(k.state, k.taker, k.limit);
      BandOfAttack(s, r, k, BookAt(s.desk, k.taker.instrument).Of(r.side.Opposite()), TradesOf(ApplyRequest(s, r).out));
    }
  }
}
