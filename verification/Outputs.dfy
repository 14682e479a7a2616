/** The output stream: sequence numbers and trade ids without gaps, and the
    fixed order of the events of one request. */
module Outputs {
  import opened Domain
  import opened PriceTime
  import opened Ledger
  import opened Core
  import Market

  function TradesOf(out: seq<Output>): seq<Trade> {
    if out == [] then []
    else if out[0].TradeOut? then [out[0].trade] + TradesOf(out[1..])
    else TradesOf(out[1..])
  }

  lemma {:induction false} TradesConcat(a: seq<Output>, b: seq<Output>)
    ensures TradesOf(a + b) == TradesOf(a) + TradesOf(b)
  {
    if a == [] {
      assert a + b == b;
    } else {
      assert (a + b)[1..] == a[1..] + b;
      TradesConcat(a[1..], b);
      if a[0].TradeOut? {
        assert [a[0].trade] + (TradesOf(a[1..]) + TradesOf(b)) == [a[0].trade] + TradesOf(a[1..]) + TradesOf(b);
      }
    }
  }

  /** Output sequences continue `first` without a gap up to `last`. */
  ghost predicate Dense(out: seq<Output>, first: int, last: int) {
    && |out| == last - first
    && forall k :: 0 <= k < |out| ==> out[k].Seq() == first + 1 + k
  }

  /** Trade ids continue `first` without a gap up to `last`. */
  ghost predicate DenseTrades(trades: seq<Trade>, first: int, last: int) {
    && |trades| == last - first
    && forall k :: 0 <= k < |trades| ==> trades[k].tradeId == first + 1 + k
  }

  /** One fill: the trade, then the maker's report, then the taker's. */
  ghost predicate FillEvent(x: Taker, t: Output, m: Output, r: Output) {
    && t.TradeOut? && m.ReportOut? && r.ReportOut?
    && t.trade.takerOrderId == x.id && t.trade.takerAccount == x.request.account && t.trade.aggressor == x.side
    && m.report.orderId == t.trade.makerOrderId && m.report.account == t.trade.makerAccount
    && m.report.side == x.side.Opposite()
    && m.report.lastQuantity == t.trade.quantity && m.report.lastPrice == t.trade.price == m.report.price
    && m.report.instrument == t.trade.instrument && m.report.requestId == 0
    && m.report.reject.None? && r.report.reject.None?
    && m.report.state == (if m.report.remaining == 0 then FullyFilled else PartlyFilled)
    && r.report.state == (if r.report.remaining == 0 then FullyFilled else PartlyFilled)
    && r.report.requestId == x.request.requestId && r.report.clientOrderId == x.request.clientOrderId
    && r.report.instrument == x.request.instrument && r.report.price == x.request.price && r.report.total == x.request.quantity
    && r.report.orderId == x.id && r.report.account == x.request.account && r.report.side == x.side
    && r.report.lastQuantity == t.trade.quantity && r.report.lastPrice == t.trade.price
    && m.report.kind == (if m.report.remaining == 0 then Filled else PartiallyFilled)
    && r.report.kind == (if r.report.remaining == 0 then Filled else PartiallyFilled)
    && r.report.cumulative + r.report.remaining == x.quantity
  }

  /** The fills of one aggressor in order, its reports counting up what it
      has filled since `done`. */
  ghost predicate FillEvents(x: Taker, out: seq<Output>, done: int) {
    out == []
    || (&& |out| >= 3 && FillEvent(x, out[0], out[1], out[2])
        && out[2].report.cumulative == done + out[0].trade.quantity
        && FillEvents(x, out[3..], out[2].report.cumulative))
  }

  /** What a state change with its events promises when no fault occurs. */
  ghost predicate Streamed(s: State, e: State, out: seq<Output>) {
    e.fault.None? ==>
      && s.fault.None?
      && Dense(out, s.outputSeq, e.outputSeq)
      && DenseTrades(TradesOf(out), s.nextTrade, e.nextTrade)
  }

  lemma StreamedThen(s: State, m: State, e: State, a: seq<Output>, b: seq<Output>)
    requires Streamed(s, m, a) && Streamed(m, e, b)
    ensures Streamed(s, e, a + b)
  {
    TradesConcat(a, b);
  }

  lemma StreamedSame(s: State, e: State)
    requires e.outputSeq == s.outputSeq && e.nextTrade == s.nextTrade && (e.fault.None? ==> s.fault.None?)
    ensures Streamed(s, e, [])
  {
  }

  /** Taking a sequence and emitting one report with it. */
  lemma StreamedReport(s: State, e: State, r: Report)
    requires e == TakeSeq(s) && r.outputSeq == e.outputSeq
    ensures Streamed(s, e, [ReportOut(r)])
  {
    assert TradesOf([ReportOut(r)]) == [] by {
      assert [ReportOut(r)][1..] == [];
    }
  }

  lemma SettleOneStreamed(s: State, x: Taker, f: Fill, cumulative: u64)
    requires s.nextTrade < U64_MAX
    ensures Streamed(s, SettleOne(s.(nextTrade := s.nextTrade + 1), x, f, cumulative).state,
                     SettleOne(s.(nextTrade := s.nextTrade + 1), x, f, cumulative).out)
  {
    hide SettleFill, TakeSeq;
    if f.owner.account in s.cfg.accountIds.index {
      var s0 := s.(nextTrade := s.nextTrade + 1);
      var s1 := s0.On(SettleFill(s.desk, s.cfg.accountIds.index[f.owner.account], x.account, x.instrument, x.side, f));
      TakeSeqFields(s1);
      TakeSeqFields(TakeSeq(s1));
      TakeSeqFields(TakeSeq(TakeSeq(s1)));
      var out := SettleOne(s0, x, f, cumulative).out;
      OnlyTrade(out[0], out[1], out[2]);
    }
  }

  lemma OnlyTrade(t: Output, m: Output, r: Output)
    requires t.TradeOut? && m.ReportOut? && r.ReportOut?
    ensures TradesOf([t, m, r]) == [t.trade]
  {
    assert [t, m, r][1..] == [m, r] && [m, r][1..] == [r] && [r][1..] == [];
    assert TradesOf([r]) == TradesOf([r][1..]) == [];
    assert TradesOf([m, r]) == TradesOf([m, r][1..]);
    assert TradesOf([t, m, r]) == [t.trade] + TradesOf([t, m, r][1..]);
  }

  /** A settled fill emits its one trade; a failed lookup emits nothing. */
  lemma SettleOneTrade(s: State, x: Taker, f: Fill, cumulative: u64)
    ensures var e := SettleOne(s, x, f, cumulative);
      && (e.state.fault.None? ==> f.owner.account in s.cfg.accountIds.index)
      && if f.owner.account in s.cfg.accountIds.index then
           var trades := TradesOf(e.out);
           && |trades| == 1
           && trades[0].takerOrderId == x.id && trades[0].takerAccount == x.request.account
           && trades[0].makerOrderId == f.makerId && trades[0].makerAccount == f.owner.account
           && trades[0].aggressor == x.side && trades[0].quantity == f.quantity && trades[0].price == f.price
           && trades[0].instrument == InstrumentId(s, x.instrument)
         else TradesOf(e.out) == []
  {
    hide SettleFill, BaseReport;
    var out := SettleOne(s, x, f, cumulative).out;
    if out != [] {
      assert out[1..][1..] == out[2..] && out[2..][1..] == [];
      assert TradesOf(out[2..]) == TradesOf([]) && TradesOf(out[1..]) == TradesOf(out[2..]);
      assert TradesOf(out) == [out[0].trade] + TradesOf(out[1..]);
    }
  }

  lemma SettleOneEvents(s: State, x: Taker, f: Fill, cumulative: u64)
    requires SettleOne(s, x, f, cumulative).state.fault.None?
    ensures var out := SettleOne(s, x, f, cumulative).out;
      && |out| == 3 && FillEvent(x, out[0], out[1], out[2])
      && out[0].trade.quantity == f.quantity && out[2].report.cumulative == cumulative
  {
    hide SettleFill;
  }

  lemma {:induction false} SettleAllStreamed(s: State, x: Taker, fills: seq<Fill>, cumulative: u64)
    ensures Streamed(s, SettleAll(s, x, fills, cumulative).state, SettleAll(s, x, fills, cumulative).out)
    decreases |fills|
  {
    hide SettleOne, Streamed;
    if fills == [] || cumulative + fills[0].quantity > U64_MAX || Successor(s.nextTrade).None? {
      StreamedSame(s, SettleAll(s, x, fills, cumulative).state);
    } else {
      var one := SettleOne(s.(nextTrade := s.nextTrade + 1), x, fills[0], cumulative + fills[0].quantity);
      SettleOneStreamed(s, x, fills[0], cumulative + fills[0].quantity);
      SettleAllStreamed(one.state, x, fills[1..], cumulative + fills[0].quantity);
      var rest := SettleAll(one.state, x, fills[1..], cumulative + fills[0].quantity);
      StreamedThen(s, one.state, rest.state, one.out, rest.out);
    }
  }

  lemma {:induction false} SettleAllEvents(s: State, x: Taker, fills: seq<Fill>, cumulative: u64)
    requires SettleAll(s, x, fills, cumulative).state.fault.None?
    ensures s.fault.None? && FillEvents(x, SettleAll(s, x, fills, cumulative).out, cumulative)
    decreases |fills|
  {
    hide SettleOne, FillEvent;
    if fills != [] {
      var one := SettleOne(s.(nextTrade := s.nextTrade + 1), x, fills[0], cumulative + fills[0].quantity);
      SettleAllEvents(one.state, x, fills[1..], cumulative + fills[0].quantity);
      var rest := SettleAll(one.state, x, fills[1..], cumulative + fills[0].quantity);
      SettleOneEvents(s.(nextTrade := s.nextTrade + 1), x, fills[0], cumulative + fills[0].quantity);
      assert (one.out + rest.out)[3..] == rest.out;
      SettleOneFault(s.(nextTrade := s.nextTrade + 1), x, fills[0], cumulative + fills[0].quantity);
    }
  }

  lemma SettleOneFault(s: State, x: Taker, f: Fill, cumulative: u64)
    ensures SettleOne(s, x, f, cumulative).state.fault.None? ==> s.fault.None?
  {
    hide SettleFill;
  }

  lemma ExecuteStreamed(s: State, x: Taker, limit: i64)
    ensures Streamed(s, Execute(s, x, limit).state, Execute(s, x, limit).out)
    ensures Execute(s, x, limit).state.fault.None? ==> FillEvents(x, Execute(s, x, limit).out, 0)
  {
    hide SettleAll, Sweep, FillEvents;
    var b, ms := BookAt(s.desk, x.instrument), x.side.Opposite();
    var m := Sweep(ms, b.Of(ms), limit, x.quantity);
    var s0 := s.(desk := PutBook(s.desk, x.instrument, b.With(ms, m.rest)));
    SettleAllStreamed(s0, x, m.fills, 0);
    if SettleAll(s0, x, m.fills, 0).state.fault.None? {
      SettleAllEvents(s0, x, m.fills, 0);
    }
  }

  /** The events of one request: those of its fills, then one final report
      carrying the last sequence taken. */
  ghost predicate Answered(s: State, h: Handled) {
    && Streamed(s, h.state, h.out + [ReportOut(h.report)])
    && (h.state.fault.None? ==>
          h.out == [] || exists x: Taker :: x.request.account == h.report.account && x.id == h.report.orderId && FillEvents(x, h.out, 0))
  }

  /** Closing a request whose fills have been emitted. */
  lemma Closed(s: State, m: State, out: seq<Output>, h: Handled, x: Taker)
    requires Streamed(s, m, out) && h.out == out && h.state == TakeSeq(m) && h.report.outputSeq == h.state.outputSeq
    requires m.fault.None? ==> out == [] || (FillEvents(x, out, 0) && x.request.account == h.report.account && x.id == h.report.orderId)
    ensures Answered(s, h)
  {
    hide Streamed, FillEvents, TradesOf;
    StreamedReport(m, h.state, h.report);
    StreamedThen(s, m, h.state, out, [ReportOut(h.report)]);
    SeqFault(m);
  }

  lemma SeqFault(s: State)
    ensures TakeSeq(s).fault.None? ==> s.fault.None?
  {
  }

  lemma RestStreamed(s: State, m: State, out: seq<Output>, x: Taker, client: u64, price: i64, total: u64, filled: u64)
    requires Streamed(s, m, out)
    ensures Streamed(s, RestOrder(m, x, client, price, total, filled), out)
    ensures RestOrder(m, x, client, price, total, filled).fault.None? ==> m.fault.None?
  {
    hide Rest, Admits, Dense, DenseTrades;
  }

  /** A request that ends in a fault has nothing to answer for. */
  lemma Faulted(s: State, h: Handled)
    requires h.state.fault.Some?
    ensures Answered(s, h)
  {
  }

  lemma RejectAnswered(s: State, m: State, r: Request, reason: RejectReason)
    requires Streamed(s, m, [])
    ensures Answered(s, Reject(m, r, reason, []))
  {
    hide Streamed, FillEvents, TakeSeq;
    Closed(s, m, [], Reject(m, r, reason, []), Taker(0, 0, r, 0, r.side, 0));
  }

  lemma FinishAnswered(s: State, m: State, out: seq<Output>, r: Request, id: u64, kind: ReportKind, state: OrderState,
                       cumulative: u64, remaining: u64, x: Taker)
    requires Streamed(s, m, out)
    requires m.fault.None? ==> out == [] || (FillEvents(x, out, 0) && x.request.account == r.account && x.id == id)
    ensures Answered(s, Answer(m, out, r, id, kind, state, cumulative, remaining))
  {
    hide Streamed, FillEvents, TakeSeq;
    Closed(s, m, out, Answer(m, out, r, id, kind, state, cumulative, remaining), x);
  }

  lemma NewAnswered(s: State, r: Request)
    ensures Answered(s, HandleNew(s, r))
  {
    hide CheckNew, Execute, RestOrder, Filling, Streamed, FillEvents, Answered, Answer, Reject;
    StreamedSame(s, s);
    if CheckNew(s, r).Refuse? {
      RejectAnswered(s, s, r, CheckNew(s, r).reason);
    } else if Successor(s.nextOrder).None? {
      StreamedSame(s, s.(fault := Some(SequenceExhausted)));
      RejectAnswered(s, s.(fault := Some(SequenceExhausted)), r, CapacityExhausted);
    } else {
      var c := CheckNew(s, r).value;
      var x := Taker(c.account, c.instrument, r, s.nextOrder + 1, r.side, r.quantity);
      var s0 := s.(nextOrder := s.nextOrder + 1);
      ExecuteStreamed(s0, x, c.limit);
      var e, filled := Execute(s0, x, c.limit), Filling(s, x, c.limit);
      StreamedFrom(s, s0, e.state, e.out);
      if filled > r.quantity {
        RejectFaulted(s, e.state, r, ArithmeticOverflow, e.out);
      } else {
        FinishAnswered(s, e.state, e.out, r, x.id, Filled, FullyFilled, filled, 0, x);
        FinishAnswered(s, e.state, e.out, r, x.id, Cancelled, CancelledState, filled, 0, x);
        if filled < r.quantity {
          RestStreamed(s, e.state, e.out, x, r.clientOrderId, r.price, r.quantity, filled);
          var rested := RestOrder(e.state, x, r.clientOrderId, r.price, r.quantity, filled);
          FinishAnswered(s, rested, e.out, r, x.id, Accepted, StateOf(filled), filled, r.quantity - filled, x);
        }
      }
    }
  }

  lemma RejectFaulted(s: State, m: State, r: Request, reason: RejectReason, out: seq<Output>)
    ensures Answered(s, Reject(m.(fault := Some(Accounting)), r, reason, out))
  {
    Faulted(s, Reject(m.(fault := Some(Accounting)), r, reason, out));
  }

  lemma StreamedFrom(s: State, s0: State, e: State, out: seq<Output>)
    requires s0.outputSeq == s.outputSeq && s0.nextTrade == s.nextTrade && (s0.fault.None? ==> s.fault.None?)
    requires Streamed(s0, e, out)
    ensures Streamed(s, e, out)
  {
    hide Dense, DenseTrades;
  }

  /** Renaming the order in the final report keeps the answer. */
  lemma NamedAnswered(s: State, h: Handled, h': Handled)
    requires Answered(s, h) && h'.state == h.state && h'.out == h.out
    requires h'.report.outputSeq == h.report.outputSeq && h'.report.account == h.report.account
    requires h'.report.orderId == h.report.orderId
    ensures Answered(s, h')
  {
    hide FillEvents;
    TradesConcat(h.out, [ReportOut(h.report)]);
    TradesConcat(h.out, [ReportOut(h'.report)]);
    assert TradesOf([ReportOut(h.report)]) == [] && TradesOf([ReportOut(h'.report)]) == [] by {
      assert [ReportOut(h.report)][1..] == [] && [ReportOut(h'.report)][1..] == [];
    }
    var a, b := h.out + [ReportOut(h.report)], h'.out + [ReportOut(h'.report)];
    assert TradesOf(a) == TradesOf(b);
    forall k | 0 <= k < |b| ensures b[k].Seq() == a[k].Seq() {
      assert k < |h.out| ==> a[k] == h.out[k] == b[k];
    }
  }

  lemma CancelAnswered(s: State, r: Request)
    ensures Answered(s, HandleCancel(s, r))
  {
    hide Streamed, FillEvents, Answered, Reject, Withdraw, Lookup;
    StreamedSame(s, s);
    var key := Owner(r.account, r.target);
    if r.account !in s.cfg.accountIds.index {
      RejectAnswered(s, s, r, UnknownAccount);
    } else if key !in s.desk.clients {
      RejectAnswered(s, s, r, UnknownOrder);
    } else if s.desk.clients[key] !in s.desk.live {
      RejectAnswered(s, s, r, OrderAlreadyTerminal);
    } else {
      var id := s.desk.clients[key];
      var LiveOrder(a, i) := s.desk.live[id];
      var o := Lookup(BookAt(s.desk, i), id);
      StreamedSame(s, s.(fault := Some(Panic)));
      RejectAnswered(s, s.(fault := Some(Panic)), r, UnknownOrder);
      if o.Some? && o.value.filled <= o.value.total {
        var s1 := s.On(Withdraw(s.desk, a, i, o.value));
        StreamedSame(s, s1);
        var h := Answer(s1, [], r, id, Cancelled, CancelledState, o.value.filled, 0);
        FinishAnswered(s, s1, [], r, id, Cancelled, CancelledState, o.value.filled, 0, Taker(0, 0, r, 0, r.side, 0));
        NamedAnswered(s, h, HandleCancel(s, r));
      }
    }
  }

  lemma InPlaceAnswered(s: State, r: Request, c: Replacement)
    requires r.quantity < c.existing.total
    ensures Answered(s, ReplaceInPlace(s, r, c))
  {
    hide Streamed, FillEvents, Answered, Shrink, Remove, Answer;
    var o := c.existing;
    var x := Taker(0, 0, r, 0, r.side, 0);
    var s1 := s.On(Shrink(s.desk, c.account, c.instrument, o, r.quantity));
    if r.quantity == o.filled {
      var gone := Forget(PutBook(s1.desk, c.instrument, Remove(BookAt(s1.desk, c.instrument), o.id)), o.id, o.owner);
      var s2 := s1.(desk := gone);
      StreamedSame(s, s2);
      FinishAnswered(s, s2, [], r, o.id, Cancelled, CancelledState, o.filled, 0, x);
      NamedAnswered(s, Answer(s2, [], r, o.id, Cancelled, CancelledState, o.filled, 0), ReplaceInPlace(s, r, c));
    } else if r.quantity < o.filled {
      RejectFaulted(s, TakeSeq(s1), r, ArithmeticOverflow, []);
    } else {
      StreamedSame(s, s1);
      FinishAnswered(s, s1, [], r, o.id, Replaced, StateOf(o.filled), o.filled, r.quantity - o.filled, x);
      NamedAnswered(s, Answer(s1, [], r, o.id, Replaced, StateOf(o.filled), o.filled, r.quantity - o.filled), ReplaceInPlace(s, r, c));
    }
  }

  lemma AnewAnswered(s: State, r: Request, c: Replacement)
    ensures Answered(s, ReplaceAnew(s, r, c))
  {
    hide Streamed, FillEvents, Answered, Execute, Filling, RestOrder, Answer, Reject;
    var o := c.existing;
    StreamedSame(s, s);
    if r.quantity == o.filled {
      FinishAnswered(s, s, [], r, o.id, Cancelled, CancelledState, o.filled, 0, Taker(0, 0, r, 0, r.side, 0));
      NamedAnswered(s, Answer(s, [], r, o.id, Cancelled, CancelledState, o.filled, 0), ReplaceAnew(s, r, c));
    } else if r.quantity < o.filled {
      RejectFaulted(s, s, r, ArithmeticOverflow, []);
    } else {
      var x := Taker(c.account, c.instrument, r, o.id, o.side, r.quantity - o.filled);
      ExecuteStreamed(s, x, r.price);
      var e, cumulative := Execute(s, x, r.price), o.filled + Filling(s, x, r.price);
      if cumulative > U64_MAX {
        RejectFaulted(s, e.state, r, ArithmeticOverflow, e.out);
      } else if cumulative == r.quantity {
        FinishAnswered(s, e.state, e.out, r, o.id, Filled, FullyFilled, cumulative, 0, x);
        NamedAnswered(s, Answer(e.state, e.out, r, o.id, Filled, FullyFilled, cumulative, 0), ReplaceAnew(s, r, c));
      } else {
        RestStreamed(s, e.state, e.out, x, o.owner.client, r.price, r.quantity, cumulative);
        var rested := RestOrder(e.state, x, o.owner.client, r.price, r.quantity, cumulative);
        var left := if cumulative <= r.quantity then r.quantity - cumulative else 0;
        var h := Answer(rested, e.out, r, o.id, Replaced, StateOf(cumulative), cumulative, left);
        FinishAnswered(s, rested, e.out, r, o.id, Replaced, StateOf(cumulative), cumulative, left, x);
        if cumulative <= r.quantity {
          NamedAnswered(s, h, ReplaceAnew(s, r, c));
        } else {
          Faulted(s, ReplaceAnew(s, r, c));
        }
      }
    }
  }

  lemma HandleAnswered(s: State, r: Request)
    ensures Answered(s, Handle(s, r))
  {
    hide Streamed, FillEvents, Answered, HandleNew, HandleCancel, ReplaceInPlace, ReplaceAnew, CheckReplace, Reject, Withdraw;
    NewAnswered(s, r);
    CancelAnswered(s, r);
    if r.kind.Replace? {
      StreamedSame(s, s);
      if CheckReplace(s, r).Refuse? {
        RejectAnswered(s, s, r, CheckReplace(s, r).reason);
      } else {
        var c := CheckReplace(s, r).value;
        var o := c.existing;
        if r.price == o.price && r.quantity < o.total {
          InPlaceAnswered(s, r, c);
        } else if o.filled > o.total {
          StreamedSame(s, s.(fault := Some(Panic)));
          RejectAnswered(s, s.(fault := Some(Panic)), r, ArithmeticOverflow);
        } else {
          var s1 := s.On(Withdraw(s.desk, c.account, c.instrument, o));
          AnewAnswered(s1, r, c);
          AnsweredFrom(s, s1, ReplaceAnew(s1, r, c));
        }
      }
    }
  }

  lemma AnsweredFrom(s: State, s1: State, h: Handled)
    requires s1.outputSeq == s.outputSeq && s1.nextTrade == s.nextTrade && (s1.fault.None? ==> s.fault.None?)
    requires Answered(s1, h)
    ensures Answered(s, h)
  {
    hide FillEvents, Dense, DenseTrades, TradesOf;
  }

  lemma PushStreamed(s: State, m: State, change: StateChange)
    requires m.outputSeq == s.outputSeq && m.nextTrade == s.nextTrade && (m.fault.None? ==> s.fault.None?)
    ensures Streamed(s, PushState(m, change).state, PushState(m, change).out)
  {
    assert TradesOf(PushState(m, change).out) == [] by {
      assert PushState(m, change).out[1..] == [];
    }
  }

  lemma RequestStreamed(s: State, r: Request)
    ensures Streamed(s, ApplyRequest(s, r).state, ApplyRequest(s, r).out)
  {
    hide Streamed, Handle, CacheLookup, CacheRecord, Reject, TakeSeq, FillEvents, TradesOf;
    HandleAnswered(s, r);
    StreamedSame(s, s);
    RejectAnswered(s, s, r, DuplicateRequestConflict);
    var h, c := Handle(s, r), Reject(s, r, DuplicateRequestConflict, []);
    assert c.out + [ReportOut(c.report)] == [ReportOut(c.report)] by { RejectOut(s, r, DuplicateRequestConflict); }
    var a := if r.account in s.cfg.accountIds.index then s.cfg.accountIds.index[r.account] else 0;
    RecordStreamed(s, h.state, h.out + [ReportOut(h.report)], a, r, h.report);
    RecordStreamed(s, c.state, [ReportOut(c.report)], a, r, c.report);
    var hit := CacheLookup(AccountAt(s, a).cache, r.requestId, s.cfg.fingerprint(r));
    if hit.Retry? {
      var s1 := TakeSeq(s);
      StreamedReport(s, s1, hit.report.(outputSeq := s1.outputSeq, engineSeq := s1.engineSeq, timeNs := s1.time));
    }
  }

  lemma RejectOut(s: State, r: Request, reason: RejectReason)
    ensures Reject(s, r, reason, []).out == []
  {
  }

  lemma RecordStreamed(s: State, m: State, out: seq<Output>, a: nat, r: Request, report: Report)
    requires Streamed(s, m, out)
    ensures Streamed(s, RecordOutcome(m, a, r, report), out)
  {
    hide Dense, DenseTrades, CacheRecord;
  }

  /** Every input continues both sequences without a gap. */
  lemma StepStreamed(s: State, input: Input)
    requires s.fault.None?
    ensures Streamed(s, Step(s, input).state, Step(s, input).out)
  {
    hide Streamed, ApplyRequest, Market.Apply, PushState;
    if Successor(s.engineSeq).None? {
      StreamedSame(s, Step(s, input).state);
    } else {
      var s1 := s.(engineSeq := s.engineSeq + 1, time := input.recvTimeNs);
      match input.event {
        case OrderInput(r) =>
          RequestStreamed(s1, r);
          StreamedFrom(s, s1, Step(s, input).state, Step(s, input).out);
        case MarketInput(e) => MarketStreamed(s, s1, e);
        case ControlInput(c) => ControlStreamed(s, s1, c);
      }
    }
  }

  lemma MarketStreamed(s: State, s1: State, e: MarketEvent)
    requires s1.outputSeq == s.outputSeq && s1.nextTrade == s.nextTrade && s1.fault == s.fault
    ensures Streamed(s, ApplyMarket(s1, e).state, ApplyMarket(s1, e).out)
  {
    hide Streamed, Market.Apply, PushState;
    if e.instrument in s1.cfg.instrumentIds.index {
      var i := s1.cfg.instrumentIds.index[e.instrument];
      var v := Market.Apply(ViewAt(s1, i), e.sourceSeq, e.kind, s1.time);
      PushStreamed(s, PutView(s1, i, v), FeedChanged(e.instrument, v.feed));
      StreamedSame(s, PutView(s1, i, v));
    } else {
      StreamedSame(s, s1);
    }
  }

  lemma ControlStreamed(s: State, s1: State, c: Command)
    requires s1.outputSeq == s.outputSeq && s1.nextTrade == s.nextTrade && s1.fault == s.fault
    ensures Streamed(s, ApplyControl(s1, c).state, ApplyControl(s1, c).out)
  {
    hide Streamed, PushState;
    StreamedSame(s, s1);
    match c {
      case SetGlobalKill(engaged) =>
        PushStreamed(s, s1.(kill := engaged), if engaged then KillEngaged else KillReleased);
      case SetAccountEnabled(account, enabled) =>
        if account in s1.cfg.accountIds.index {
          var a := s1.cfg.accountIds.index[account];
          PushStreamed(s, PutAccount(s1, a, AccountAt(s1, a).(enabled := enabled)), EnabledChanged(account, enabled));
        }
      case SetAccountLimits(account, limits) =>
        if account in s1.cfg.accountIds.index {
          var a := s1.cfg.accountIds.index[account];
          PushStreamed(s, PutAccount(s1, a, AccountAt(s1, a).(limits := limits)), LimitsChanged(account));
        }
    }
  }
}
