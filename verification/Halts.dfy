/** Halting: while the kill switch is engaged, an instrument's feed is not live or an
    account is disabled, nothing trades there and its live orders only disappear. */
module Halts {
  import opened Domain
  import opened PriceTime
  import opened Ledger
  import opened Core
  import opened Outputs

  /** Every registration of e is one of s. */
  ghost predicate Shrunk(s: State, e: State) {
    forall id :: id in e.desk.live ==> id in s.desk.live && e.desk.live[id] == s.desk.live[id]
  }

  ghost predicate TradedIn(trades: seq<Trade>, taker: u32, instrument: u32) {
    forall k :: 0 <= k < |trades| ==> trades[k].instrument == instrument && trades[k].takerAccount == taker
  }

  /** Only one account acted, in one instrument: it took in all trades, and it is the
      owner of every new registration. */
  ghost predicate Confined(s: State, e: State, out: seq<Output>, taker: u32, l: LiveOrder) {
    && TradedIn(TradesOf(out), taker, InstrumentId(s, l.instrument))
    && forall id :: id in e.desk.live ==>
         (id in s.desk.live && e.desk.live[id] == s.desk.live[id]) || e.desk.live[id] == l
  }

  lemma SettledLive(d: Desk, maker: nat, taker: nat, i: nat, side: Side, f: Fill)
    ensures SettleFill(d, maker, taker, i, side, f).desk.live
         == if f.makerRemaining == 0 then d.live - {f.makerId} else d.live
  {
    hide Release, ApplyFill;
  }

  lemma SettleOneLive(s: State, x: Taker, f: Fill, cumulative: u64)
    ensures Shrunk(s, SettleOne(s, x, f, cumulative).state)
    ensures SettleOne(s, x, f, cumulative).state.cfg == s.cfg
  {
    hide SettleFill, TradeFor, MakerReport, TakerReport, TakeSeq;
    if f.owner.account in s.cfg.accountIds.index {
      var maker := s.cfg.accountIds.index[f.owner.account];
      SettledLive(s.desk, maker, x.account, x.instrument, x.side, f);
      var s1 := s.On(SettleFill(s.desk, maker, x.account, x.instrument, x.side, f));
      TakeSeqFields(s1);
      TakeSeqFields(TakeSeq(s1));
      TakeSeqFields(TakeSeq(TakeSeq(s1)));
    }
  }

  lemma SettleOneConfined(s: State, x: Taker, f: Fill, cumulative: u64)
    ensures Confined(s, SettleOne(s, x, f, cumulative).state, SettleOne(s, x, f, cumulative).out, x.request.account, LiveOrder(x.account, x.instrument))
    ensures Shrunk(s, SettleOne(s, x, f, cumulative).state)
    ensures SettleOne(s, x, f, cumulative).state.cfg == s.cfg
  {
    hide SettleOne, TradesOf;
    SettleOneLive(s, x, f, cumulative);
    SettleOneTrade(s, x, f, cumulative);
  }

  lemma ConfinedThen(s: State, m: State, e: State, a: seq<Output>, b: seq<Output>, taker: u32, l: LiveOrder)
    requires Confined(s, m, a, taker, l) && Confined(m, e, b, taker, l) && m.cfg == s.cfg
    ensures Confined(s, e, a + b, taker, l)
    ensures Shrunk(s, m) && Shrunk(m, e) ==> Shrunk(s, e)
  {
    TradesConcat(a, b);
  }

  lemma {:induction false} SettleAllConfined(s: State, x: Taker, fills: seq<Fill>, cumulative: u64)
    ensures Confined(s, SettleAll(s, x, fills, cumulative).state, SettleAll(s, x, fills, cumulative).out, x.request.account, LiveOrder(x.account, x.instrument))
    ensures Shrunk(s, SettleAll(s, x, fills, cumulative).state)
    ensures SettleAll(s, x, fills, cumulative).state.cfg == s.cfg
    decreases |fills|
  {
    hide SettleOne, TradesOf;
    if fills != [] && cumulative + fills[0].quantity <= U64_MAX && Successor(s.nextTrade).Some? {
      var s0 := s.(nextTrade := s.nextTrade + 1);
      var one := SettleOne(s0, x, fills[0], cumulative + fills[0].quantity);
      SettleOneConfined(s0, x, fills[0], cumulative + fills[0].quantity);
      SettleAllConfined(one.state, x, fills[1..], cumulative + fills[0].quantity);
      var rest := SettleAll(one.state, x, fills[1..], cumulative + fills[0].quantity);
      ConfinedThen(s, one.state, rest.state, one.out, rest.out, x.request.account, LiveOrder(x.account, x.instrument));
    } else {
      NothingConfined(s, x.request.account, LiveOrder(x.account, x.instrument));
    }
  }

  lemma ExecuteConfined(s: State, x: Taker, limit: i64)
    ensures Confined(s, Execute(s, x, limit).state, Execute(s, x, limit).out, x.request.account, LiveOrder(x.account, x.instrument))
    ensures Shrunk(s, Execute(s, x, limit).state)
  {
    hide SettleAll, Sweep, TradesOf;
    var b, ms := BookAt(s.desk, x.instrument), x.side.Opposite();
    var m := Sweep(ms, b.Of(ms), limit, x.quantity);
    SettleAllConfined(s.(desk := PutBook(s.desk, x.instrument, b.With(ms, m.rest))), x, m.fills, 0);
  }

  lemma RestLive(d: Desk, a: nat, i: nat, o: Order)
    requires o.filled <= o.total
    ensures Rest(d, a, i, o).desk.live == d.live[o.id := LiveOrder(a, i)]
  {
  }

  lemma AdmitsTotal(b: Book, o: Order, capacity: nat)
    ensures Admits(b, o, capacity) ==> o.filled <= o.total
  {
  }

  lemma RestConfined(s: State, m: State, out: seq<Output>, x: Taker, client: u64, price: i64, total: u64, filled: u64)
    requires Confined(s, m, out, x.request.account, LiveOrder(x.account, x.instrument))
    ensures Confined(s, RestOrder(m, x, client, price, total, filled), out, x.request.account, LiveOrder(x.account, x.instrument))
  {
    hide Rest, Admits, TradedIn;
    if Successor(m.nextPriority).Some? {
      var o := Order(x.id, Owner(x.request.account, client), x.side, price, total, filled, m.nextPriority + 1);
      AdmitsTotal(BookAt(m.desk, x.instrument), o, m.cfg.capacity);
      if filled <= total {
        RestLive(m.desk, x.account, x.instrument, o);
      }
    }
  }

  /** Closing a request changes no registration. */
  lemma AnswerConfined(s: State, m: State, out: seq<Output>, taker: u32, l: LiveOrder)
    requires Confined(s, m, out, taker, l)
    ensures Confined(s, TakeSeq(m), out, taker, l)
    ensures forall f :: Confined(s, TakeSeq(m.(fault := f)), out, taker, l)
  {
    hide TradedIn;
  }

  /** The request may trade: account and instrument are known, the kill switch is
      released, the account enabled, its client sequence new, and the feed live. */
  ghost predicate Open(s: State, r: Request) {
    && r.account in s.cfg.accountIds.index && r.instrument in s.cfg.instrumentIds.index && !s.kill
    && var account := AccountAt(s, s.cfg.accountIds.index[r.account]);
    && account.enabled && r.clientSeq > account.lastSeq
    && ViewAt(s, s.cfg.instrumentIds.index[r.instrument]).feed.Live?
  }

  /** Where an order of this request is registered. */
  ghost function Home(s: State, r: Request): LiveOrder
    requires Open(s, r)
  {
    LiveOrder(s.cfg.accountIds.index[r.account], s.cfg.instrumentIds.index[r.instrument])
  }

  /** Either nothing traded and nothing was registered, or the request was
      free to trade and stayed within its account and instrument. */
  ghost predicate Contained(s: State, r: Request, e: State, out: seq<Output>) {
    || (TradesOf(out) == [] && Shrunk(s, e))
    || (Open(s, r) && Confined(s, e, out, r.account, Home(s, r)))
  }

  lemma NewOpen(s: State, r: Request)
    requires CheckNew(s, r).Pass?
    ensures Open(s, r) && Home(s, r) == LiveOrder(CheckNew(s, r).value.account, CheckNew(s, r).value.instrument)
  {
    hide CheckRisk, CheckQuantity, CheckPrice;
  }

  lemma NewContained(s: State, r: Request)
    ensures Contained(s, r, HandleNew(s, r).state, HandleNew(s, r).out)
  {
    hide Execute, RestOrder, Filling, Confined, CheckNew, Open, TakeSeq;
    assert TradesOf([]) == [];
    if CheckNew(s, r).Pass? && Successor(s.nextOrder).Some? {
      NewOpen(s, r);
      var c := CheckNew(s, r).value;
      var x := Taker(c.account, c.instrument, r, s.nextOrder + 1, r.side, r.quantity);
      var s0 := s.(nextOrder := s.nextOrder + 1);
      ExecuteConfined(s0, x, c.limit);
      var e, filled := Execute(s0, x, c.limit), Filling(s, x, c.limit);
      ConfinedFrom(s, s0, e.state, e.out, r.account, LiveOrder(c.account, c.instrument));
      AnswerConfined(s, e.state, e.out, r.account, LiveOrder(c.account, c.instrument));
      if filled < r.quantity {
        RestConfined(s, e.state, e.out, x, r.clientOrderId, r.price, r.quantity, filled);
        AnswerConfined(s, RestOrder(e.state, x, r.clientOrderId, r.price, r.quantity, filled), e.out, r.account, LiveOrder(c.account, c.instrument));
      }
    } else {
      AnswerShrunk(s, s);
    }
  }

  lemma AnswerShrunk(s: State, m: State)
    requires Shrunk(s, m)
    ensures Shrunk(s, TakeSeq(m)) && forall f :: Shrunk(s, TakeSeq(m.(fault := f)))
  {
  }

  lemma ConfinedFrom(s: State, s0: State, e: State, out: seq<Output>, taker: u32, l: LiveOrder)
    requires Confined(s0, e, out, taker, l) && s0.cfg == s.cfg && Shrunk(s, s0)
    ensures Confined(s, e, out, taker, l)
  {
    hide TradedIn;
  }

  lemma WithdrawLive(d: Desk, a: nat, i: nat, o: Order)
    requires o.filled <= o.total
    ensures Withdraw(d, a, i, o).desk.live == d.live - {o.id}
  {
  }

  lemma ShrinkLive(d: Desk, a: nat, i: nat, o: Order, total: u64)
    requires total <= o.total
    ensures Shrink(d, a, i, o, total).desk.live == d.live
  {
  }

  lemma CancelContained(s: State, r: Request)
    ensures Contained(s, r, HandleCancel(s, r).state, HandleCancel(s, r).out)
  {
    hide Withdraw, Lookup;
    var key := Owner(r.account, r.target);
    if key in s.desk.clients && s.desk.clients[key] in s.desk.live {
      var id := s.desk.clients[key];
      var LiveOrder(a, i) := s.desk.live[id];
      var o := Lookup(BookAt(s.desk, i), id);
      if o.Some? && o.value.filled <= o.value.total {
        WithdrawLive(s.desk, a, i, o.value);
      }
    }
  }

  lemma AnewConfined(s: State, r: Request, c: Replacement)
    ensures Confined(s, ReplaceAnew(s, r, c).state, ReplaceAnew(s, r, c).out, r.account, LiveOrder(c.account, c.instrument))
  {
    hide Execute, RestOrder, Filling, Confined, TakeSeq;
    var o := c.existing;
    assert Confined(s, s, [], r.account, LiveOrder(c.account, c.instrument)) by { NothingConfined(s, r.account, LiveOrder(c.account, c.instrument)); }
    AnswerConfined(s, s, [], r.account, LiveOrder(c.account, c.instrument));
    if o.filled < r.quantity {
      var x := Taker(c.account, c.instrument, r, o.id, o.side, r.quantity - o.filled);
      ExecuteConfined(s, x, r.price);
      var e, cumulative := Execute(s, x, r.price), o.filled + Filling(s, x, r.price);
      AnswerConfined(s, e.state, e.out, r.account, LiveOrder(c.account, c.instrument));
      if cumulative <= U64_MAX {
        RestConfined(s, e.state, e.out, x, o.owner.client, r.price, r.quantity, cumulative);
        var rested := RestOrder(e.state, x, o.owner.client, r.price, r.quantity, cumulative);
        AnswerConfined(s, rested, e.out, r.account, LiveOrder(c.account, c.instrument));
        FaultConfined(s, TakeSeq(rested), e.out, r.account, LiveOrder(c.account, c.instrument));
      }
    }
  }

  lemma NothingConfined(s: State, taker: u32, l: LiveOrder)
    ensures Confined(s, s, [], taker, l)
  {
  }

  lemma FaultConfined(s: State, e: State, out: seq<Output>, taker: u32, l: LiveOrder)
    requires Confined(s, e, out, taker, l)
    ensures forall f :: Confined(s, e.(fault := f), out, taker, l)
  {
    hide TradedIn;
  }

  lemma ReplaceOpen(s: State, r: Request)
    requires CheckReplace(s, r).Pass?
    ensures Open(s, r) && Home(s, r) == LiveOrder(CheckReplace(s, r).value.account, CheckReplace(s, r).value.instrument)
  {
    hide CheckRisk, CheckQuantity, CheckPrice, Lookup;
  }

  lemma InPlaceShrunk(s: State, r: Request, c: Replacement)
    requires r.quantity < c.existing.total
    ensures Shrunk(s, ReplaceInPlace(s, r, c).state) && ReplaceInPlace(s, r, c).out == []
  {
    hide Shrink, Remove, BaseReport;
    ShrinkLive(s.desk, c.account, c.instrument, c.existing, r.quantity);
  }

  lemma ReplaceContained(s: State, r: Request)
    ensures Contained(s, r, HandleReplace(s, r).state, HandleReplace(s, r).out)
  {
    hide ReplaceAnew, ReplaceInPlace, Confined, CheckReplace, Withdraw, Open, TakeSeq;
    assert TradesOf([]) == [];
    AnswerShrunk(s, s);
    if CheckReplace(s, r).Pass? {
      ReplaceOpen(s, r);
      var c := CheckReplace(s, r).value;
      var o := c.existing;
      if r.price == o.price && r.quantity < o.total {
        InPlaceShrunk(s, r, c);
      } else if o.filled <= o.total {
        var s1 := s.On(Withdraw(s.desk, c.account, c.instrument, o));
        WithdrawLive(s.desk, c.account, c.instrument, o);
        AnewConfined(s1, r, c);
        ConfinedFrom(s, s1, ReplaceAnew(s1, r, c).state, ReplaceAnew(s1, r, c).out, r.account, LiveOrder(c.account, c.instrument));
      }
    }
  }

  lemma HandleContained(s: State, r: Request)
    ensures Contained(s, r, Handle(s, r).state, Handle(s, r).out)
  {
    hide HandleNew, HandleReplace, HandleCancel, Contained;
    NewContained(s, r);
    CancelContained(s, r);
    ReplaceContained(s, r);
  }

  lemma ContainedDesk(s: State, r: Request, e: State, e': State, out: seq<Output>, out': seq<Output>)
    requires Contained(s, r, e, out) && e'.desk == e.desk && TradesOf(out') == TradesOf(out)
    ensures Contained(s, r, e', out')
  {
    hide TradesOf, TradedIn, Open;
  }

  lemma RecordDesk(s: State, a: nat, r: Request, report: Report)
    ensures RecordOutcome(s, a, r, report).desk == s.desk && TakeSeq(s).desk == s.desk
  {
  }

  lemma RequestContained(s: State, r: Request)
    ensures Contained(s, r, ApplyRequest(s, r).state, ApplyRequest(s, r).out)
  {
    hide Handle, CacheLookup, RecordOutcome, TakeSeq, TradesOf, Contained, BaseReport;
    var known := r.account in s.cfg.accountIds.index;
    var a := if known then s.cfg.accountIds.index[r.account] else 0;
    var hit := if known then CacheLookup(AccountAt(s, a).cache, r.requestId, s.cfg.fingerprint(r)) else Miss;
    var h, e := Handle(s, r), ApplyRequest(s, r);
    HandleContained(s, r);
    if hit.Miss? {
      ReportsOnly(h.out, h.report);
      RecordDesk(h.state, a, r, h.report);
      ContainedDesk(s, r, h.state, e.state, h.out, e.out);
    } else {
      assert e.out == [] + [e.out[0]];
      ReportsOnly([], e.out[0].report);
      RecordDesk(s, a, r, h.report);
      var c := Reject(s, r, DuplicateRequestConflict, []);
      RecordDesk(c.state, a, r, c.report);
      SelfContained(s, r);
      ContainedDesk(s, r, s, e.state, [], e.out);
    }
  }

  lemma SelfContained(s: State, r: Request)
    ensures Contained(s, r, s, [])
  {
  }

  lemma ReportsOnly(out: seq<Output>, r: Report)
    ensures TradesOf(out + [ReportOut(r)]) == TradesOf(out)
    ensures TradesOf([]) == []
  {
    TradesConcat(out, [ReportOut(r)]);
    assert [ReportOut(r)][1..] == [];
    assert TradesOf([ReportOut(r)]) == [];
  }
}
