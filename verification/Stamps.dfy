/** Every event bears the number and the time of the input that caused it. */
module Stamps {
  import opened Domain
  import opened PriceTime
  import opened Ledger
  import opened Core
  import opened Safety

  predicate Bears(e: Output, engineSeq: u64, time: u64) {
    match e
    case TradeOut(t) => t.engineSeq == engineSeq && t.timeNs == time
    case ReportOut(r) => r.engineSeq == engineSeq && r.timeNs == time
    case StateOut(_, n, t, _) => n == engineSeq && t == time
  }

  ghost predicate Stamped(out: seq<Output>, s: State) {
    forall k :: 0 <= k < |out| ==> Bears(out[k], s.engineSeq, s.time)
  }

  lemma SettleOneStamped(s: State, x: Taker, f: Fill, cumulative: u64)
    ensures Stamped(SettleOne(s, x, f, cumulative).out, s)
  {
    hide SettleFill, TakeSeq;
    if f.owner.account in s.cfg.accountIds.index {
      var s1 := s.On(SettleFill(s.desk, s.cfg.accountIds.index[f.owner.account], x.account, x.instrument, x.side, f));
      TakeSeqFields(s1);
      TakeSeqFields(TakeSeq(s1));
      TakeSeqFields(TakeSeq(TakeSeq(s1)));
    }
  }

  lemma {:induction false} SettleAllStamped(s: State, x: Taker, fills: seq<Fill>, cumulative: u64)
    ensures Stamped(SettleAll(s, x, fills, cumulative).out, s)
    decreases |fills|
  {
    hide SettleOne;
    if fills != [] && cumulative + fills[0].quantity <= U64_MAX && Successor(s.nextTrade).Some? {
      var s0 := s.(nextTrade := s.nextTrade + 1);
      var one := SettleOne(s0, x, fills[0], cumulative + fills[0].quantity);
      SettleOneStamped(s0, x, fills[0], cumulative + fills[0].quantity);
      SettleOneFramed(s0, x, fills[0], cumulative + fills[0].quantity);
      SettleAllStamped(one.state, x, fills[1..], cumulative + fills[0].quantity);
    }
  }

  lemma ExecuteStamped(s: State, x: Taker, limit: i64)
    ensures Stamped(Execute(s, x, limit).out, s)
    ensures Execute(s, x, limit).state.engineSeq == s.engineSeq && Execute(s, x, limit).state.time == s.time
  {
    hide SettleAll;
    var b, ms := BookAt(s.desk, x.instrument), x.side.Opposite();
    var m := Sweep(ms, b.Of(ms), limit, x.quantity);
    SettleAllStamped(s.(desk := PutBook(s.desk, x.instrument, b.With(ms, m.rest))), x, m.fills, 0);
    ExecuteFramed(s, x, limit);
  }

  /** The events of a request and its report bear its stamp. */
  ghost predicate Marked(h: Handled, s: State) {
    Stamped(h.out, s) && h.report.engineSeq == s.engineSeq && h.report.timeNs == s.time
  }

  lemma RestStamped(s: State, x: Taker, client: u64, price: i64, total: u64, filled: u64)
    ensures var e := RestOrder(s, x, client, price, total, filled);
      e.engineSeq == s.engineSeq && e.time == s.time
  {
    hide Rest, Admits;
  }

  lemma NewStamped(s: State, r: Request)
    ensures Marked(HandleNew(s, r), s)
  {
    hide CheckNew, Execute, Filling, RestOrder;
    if CheckNew(s, r).Pass? && Successor(s.nextOrder).Some? {
      var c := CheckNew(s, r).value;
      var x := Taker(c.account, c.instrument, r, s.nextOrder + 1, r.side, r.quantity);
      ExecuteStamped(s.(nextOrder := s.nextOrder + 1), x, c.limit);
      var e, filled := Execute(s.(nextOrder := s.nextOrder + 1), x, c.limit).state, Filling(s, x, c.limit);
      if filled < r.quantity {
        RestStamped(e, x, r.clientOrderId, r.price, r.quantity, filled);
      }
    }
  }

  lemma CancelStamped(s: State, r: Request)
    ensures Marked(HandleCancel(s, r), s)
  {
    hide Lookup, Withdraw;
  }

  lemma InPlaceStamped(s: State, r: Request, c: Replacement)
    requires r.quantity < c.existing.total
    ensures Marked(ReplaceInPlace(s, r, c), s)
  {
    hide Shrink, Remove;
  }

  lemma AnewStamped(s: State, r: Request, c: Replacement)
    ensures Marked(ReplaceAnew(s, r, c), s)
  {
    hide Execute, Filling, RestOrder;
    var o := c.existing;
    if o.filled < r.quantity {
      var x := Taker(c.account, c.instrument, r, o.id, o.side, r.quantity - o.filled);
      ExecuteStamped(s, x, r.price);
      var e, cumulative := Execute(s, x, r.price).state, o.filled + Filling(s, x, r.price);
      if cumulative <= U64_MAX {
        RestStamped(e, x, o.owner.client, r.price, r.quantity, cumulative);
      }
    }
  }

  lemma ReplaceStamped(s: State, r: Request)
    ensures Marked(HandleReplace(s, r), s)
  {
    hide CheckReplace, ReplaceInPlace, ReplaceAnew, Withdraw;
    if CheckReplace(s, r).Pass? {
      var c := CheckReplace(s, r).value;
      var o := c.existing;
      if r.price == o.price && r.quantity < o.total {
        InPlaceStamped(s, r, c);
      } else if o.filled <= o.total {
        AnewStamped(s.On(Withdraw(s.desk, c.account, c.instrument, o)), r, c);
      }
    }
  }

  lemma RequestStamped(s: State, r: Request)
    ensures Stamped(ApplyRequest(s, r).out, s)
  {
    hide HandleNew, HandleCancel, HandleReplace, CacheLookup, RecordOutcome;
    NewStamped(s, r);
    CancelStamped(s, r);
    ReplaceStamped(s, r);
  }

  /** Every event of a step bears the input's engine sequence, one above the last, and
      the time at which the input was received. */
  lemma EventsBearTheirInput(s: State, input: Input)
    ensures forall k :: 0 <= k < |Step(s, input).out| ==> Bears(Step(s, input).out[k], s.engineSeq + 1, input.recvTimeNs)
    ensures s.fault.None? && s.engineSeq < U64_MAX ==>
      Step(s, input).state.engineSeq == s.engineSeq + 1 && Step(s, input).state.time == input.recvTimeNs
  {
    hide ApplyRequest, ApplyMarket, ApplyControl;
    if s.fault.None? && s.engineSeq < U64_MAX {
      var s1 := s.(engineSeq := s.engineSeq + 1, time := input.recvTimeNs);
      match input.event {
        case MarketInput(e) => MarketStamped(s1, e);
        case OrderInput(r) =>
          RequestStamped(s1, r);
          RequestFrame(s1, r);
        case ControlInput(c) => ControlStamped(s1, c);
      }
    }
  }

  lemma MarketStamped(s: State, e: MarketEvent)
    ensures Stamped(ApplyMarket(s, e).out, s)
    ensures ApplyMarket(s, e).state.engineSeq == s.engineSeq && ApplyMarket(s, e).state.time == s.time
  {
  }

  lemma ControlStamped(s: State, c: Command)
    ensures Stamped(ApplyControl(s, c).out, s)
    ensures ApplyControl(s, c).state.engineSeq == s.engineSeq && ApplyControl(s, c).state.time == s.time
  {
  }
}
