/** Which requests execute, and how the events of a request follow from that
    execution. */
module Attacks {
  import opened Domain
  import opened PriceTime
  import opened Ledger
  import opened Core
  import opened Safety
  import opened Outputs
  import opened Halts
  import opened History

  lemma NoTrades()
    ensures TradesOf([]) == []
  {
  }

  // ---- which requests aggress ---------------------------------------------

  /** An execution about to happen: the state it starts from, the taker and how
      far it may go. */
  datatype Attack = Attack(state: State, taker: Taker, limit: i64)

  /** The execution a request leads to, if any: of a new order or of a replaced one
      with something left, that is not a retry or a conflict and passes its checks. */
  ghost function AttackOf(s: State, r: Request): Option<Attack> {
    if r.account !in s.cfg.accountIds.index then None
    else if !CacheLookup(AccountAt(s, s.cfg.accountIds.index[r.account]).cache, r.requestId, s.cfg.fingerprint(r)).Miss? then None
    else match r.kind
      case Cancel => None
      case New =>
        var check := CheckNew(s, r);
        if check.Refuse? || Successor(s.nextOrder).None? then None
        else
          var c, id := check.value, s.nextOrder + 1;
          Some(Attack(s.(nextOrder := id), Taker(c.account, c.instrument, r, id, r.side, r.quantity), c.limit))
      case Replace =>
        var check := CheckReplace(s, r);
        if check.Refuse? then None
        else
          var c := check.value;
          var o := c.existing;
          if (r.price == o.price && r.quantity < o.total) || o.filled > o.total || r.quantity <= o.filled then None
          else Some(Attack(s.On(Withdraw(s.desk, c.account, c.instrument, o)),
                           Taker(c.account, c.instrument, r, o.id, o.side, r.quantity - o.filled), r.price))
  }

  ghost function AttackTrades(s: State, r: Request): seq<Trade> {
    match AttackOf(s, r)
    case None => []
    case Some(k) => TradesOf(Execute(k.state, k.taker, k.limit).out)
  }

  lemma NewAttacks(s: State, r: Request)
    requires r.account in s.cfg.accountIds.index && r.kind.New?
    requires CacheLookup(AccountAt(s, s.cfg.accountIds.index[r.account]).cache, r.requestId, s.cfg.fingerprint(r)).Miss?
    ensures TradesOf(HandleNew(s, r).out) == AttackTrades(s, r)
    ensures HandleNew(s, r).state.fault.None? && AttackOf(s, r).Some? ==>
      var k := AttackOf(s, r).value; Execute(k.state, k.taker, k.limit).state.fault.None?
  {
    hide TradesOf, Execute, Filling, RestOrder, CheckNew, BaseReport, CacheLookup;
    NoTrades();
    var k := AttackOf(s, r);
    if k.Some? {
      var e, x := Execute(k.value.state, k.value.taker, k.value.limit), k.value.taker;
      var filled := Filling(s, x, k.value.limit);
      if filled <= r.quantity {
        RestOrderFault(e.state, x, r.clientOrderId, r.price, r.quantity, filled);
      }
    }
  }

  lemma ReplaceAttacks(s: State, r: Request)
    requires r.account in s.cfg.accountIds.index && r.kind.Replace?
    requires CacheLookup(AccountAt(s, s.cfg.accountIds.index[r.account]).cache, r.requestId, s.cfg.fingerprint(r)).Miss?
    ensures TradesOf(HandleReplace(s, r).out) == AttackTrades(s, r)
    ensures HandleReplace(s, r).state.fault.None? && AttackOf(s, r).Some? ==>
      var k := AttackOf(s, r).value; Execute(k.state, k.taker, k.limit).state.fault.None?
  {
    hide TradesOf, Execute, CheckReplace, ReplaceAnew, ReplaceInPlace, CacheLookup, Withdraw;
    NoTrades();
    var check := CheckReplace(s, r);
    if check.Pass? {
      var c := check.value;
      if r.quantity < c.existing.total {
        InPlaceOut(s, r, c);
      }
      if c.existing.filled <= c.existing.total {
        AnewOut(s.On(Withdraw(s.desk, c.account, c.instrument, c.existing)), r, c);
      }
    }
  }

  lemma InPlaceOut(s: State, r: Request, c: Replacement)
    requires r.quantity < c.existing.total
    ensures ReplaceInPlace(s, r, c).out == []
  {
    hide Shrink, TakeSeq, BaseReport;
  }

  lemma AnewOut(s: State, r: Request, c: Replacement)
    ensures var o, h := c.existing, ReplaceAnew(s, r, c);
      if r.quantity <= o.filled then h.out == []
      else
        var e := Execute(s, Taker(c.account, c.instrument, r, o.id, o.side, r.quantity - o.filled), r.price);
        h.out == e.out && (h.state.fault.None? ==> e.state.fault.None?)
  {
    hide Execute, Filling, RestOrder, BaseReport;
    var o := c.existing;
    if r.quantity > o.filled {
      var x := Taker(c.account, c.instrument, r, o.id, o.side, r.quantity - o.filled);
      var e, cumulative := Execute(s, x, r.price), o.filled + Filling(s, x, r.price);
      if cumulative <= U64_MAX {
        RestOrderFault(e.state, x, o.owner.client, r.price, r.quantity, cumulative);
      }
    }
  }

  /** A request's trades are those of its execution. */
  lemma RequestAttacks(s: State, r: Request)
    ensures TradesOf(ApplyRequest(s, r).out) == AttackTrades(s, r)
    ensures ApplyRequest(s, r).state.fault.None? && AttackOf(s, r).Some? ==>
      var k := AttackOf(s, r).value; Execute(k.state, k.taker, k.limit).state.fault.None?
  {
    hide TradesOf, HandleNew, HandleReplace, CacheLookup, RecordOutcome, TakeSeq, BaseReport, Execute, CheckNew, CheckReplace,
      Withdraw;
    NoTrades();
    var out, h := ApplyRequest(s, r).out, Handle(s, r);
    ReportsOnly(h.out, h.report);
    var known := r.account in s.cfg.accountIds.index;
    var a := if known then s.cfg.accountIds.index[r.account] else 0;
    var hit := if known then CacheLookup(AccountAt(s, a).cache, r.requestId, s.cfg.fingerprint(r)) else Miss;
    if hit.Miss? {
      Unrecorded(h.state, a, r, h.report);
      if known {
        match r.kind {
          case New => NewAttacks(s, r);
          case Cancel => CancelOut(s, r);
          case Replace => ReplaceAttacks(s, r);
        }
      } else {
        UnknownOut(s, r);
      }
    } else {
      assert out == [] + [out[0]];
      ReportsOnly([], out[0].report);
    }
  }

  lemma Unrecorded(s: State, a: nat, r: Request, report: Report)
    ensures RecordOutcome(s, a, r, report).fault == s.fault
  {
  }

  lemma CancelOut(s: State, r: Request)
    ensures HandleCancel(s, r).out == []
  {
    hide Withdraw, TakeSeq, BaseReport;
  }

  lemma UnknownOut(s: State, r: Request)
    requires r.account !in s.cfg.accountIds.index
    ensures Handle(s, r).out == []
  {
    hide CheckQuantity, CheckPrice, Execute, TakeSeq, BaseReport;
  }

  // ---- the shape of a request's events ------------------------------------

  function TradedLots(trades: seq<Trade>): int {
    if trades == [] then 0 else trades[0].quantity + TradedLots(trades[1..])
  }

  lemma {:induction false} TradedConcat(a: seq<Trade>, b: seq<Trade>)
    ensures TradedLots(a + b) == TradedLots(a) + TradedLots(b)
  {
    if a == [] {
      assert a + b == b;
    } else {
      assert (a + b)[1..] == a[1..] + b;
      TradedConcat(a[1..], b);
    }
  }

  /** Settled without a fault, the trades add up to the fills. */
  lemma {:induction false} SettledLots(s: State, x: Taker, fills: seq<Fill>, cumulative: u64)
    requires SettleAll(s, x, fills, cumulative).state.fault.None?
    ensures s.fault.None? && TradedLots(TradesOf(SettleAll(s, x, fills, cumulative).out)) == Lots(fills)
    decreases |fills|
  {
    hide SettleOne, TradesOf, InstrumentId;
    NoTrades();
    if fills != [] {
      var s0 := s.(nextTrade := s.nextTrade + 1);
      var one := SettleOne(s0, x, fills[0], cumulative + fills[0].quantity);
      SettledLots(one.state, x, fills[1..], cumulative + fills[0].quantity);
      SettleOneTrade(s0, x, fills[0], cumulative + fills[0].quantity);
      SettleOneFault(s0, x, fills[0], cumulative + fills[0].quantity);
      var rest := SettleAll(one.state, x, fills[1..], cumulative + fills[0].quantity);
      TradesConcat(one.out, rest.out);
      TradedConcat(TradesOf(one.out), TradesOf(rest.out));
      assert TradesOf(one.out)[1..] == [];
    }
  }

  lemma ExecutedLots(s: State, x: Taker, limit: i64)
    requires Execute(s, x, limit).state.fault.None?
    ensures TradedLots(TradesOf(Execute(s, x, limit).out)) == Filling(s, x, limit)
  {
    hide SettleAll, TradesOf, Sweep, TradedLots;
    var b, ms := BookAt(s.desk, x.instrument), x.side.Opposite();
    var m := Sweep(ms, b.Of(ms), limit, x.quantity);
    SettledLots(s.(desk := PutBook(s.desk, x.instrument, b.With(ms, m.rest))), x, m.fills, 0);
  }

  /** The final report of an execution names the taker's order and accounts for
      what it had filled before and what was traded now. */
  ghost predicate Closes(k: Attack, r: Request, final: Report) {
    && k.taker.request == r && k.taker.quantity <= r.quantity
    && final.account == r.account && final.orderId == k.taker.id && final.side == k.taker.side
    && final.reject.None? && final.total == r.quantity
    && final.cumulative == r.quantity - k.taker.quantity + Filling(k.state, k.taker, k.limit)
    && final.remaining == (if r.orderType.LimitOrder? then r.quantity - final.cumulative else 0)
  }

  lemma NewCloses(s: State, r: Request)
    requires r.kind.New? && AttackOf(s, r).Some? && HandleNew(s, r).state.fault.None?
    ensures var k, h := AttackOf(s, r).value, HandleNew(s, r);
      Closes(k, r, h.report) && h.out == Execute(k.state, k.taker, k.limit).out && k.taker.side == r.side
  {
    hide CheckNew, Execute, Filling, RestOrder, CacheLookup;
    var k := AttackOf(s, r).value;
    FillingSame(s, k.state, k.taker, k.limit);
  }

  lemma ReplaceCloses(s: State, r: Request)
    requires r.kind.Replace? && AttackOf(s, r).Some? && HandleReplace(s, r).state.fault.None?
    ensures var k, h := AttackOf(s, r).value, HandleReplace(s, r);
      Closes(k, r, h.report) && h.out == Execute(k.state, k.taker, k.limit).out && k.taker.side == r.side
  {
    hide CheckReplace, Execute, Filling, RestOrder, CacheLookup, Withdraw;
    ReplaceSide(s, r);
  }

  lemma ReplaceSide(s: State, r: Request)
    requires CheckReplace(s, r).Pass?
    ensures var c := CheckReplace(s, r).value;
      && c.existing.side == r.side && r.orderType.LimitOrder? && Owner(r.account, r.target) in s.desk.clients
      && Lookup(BookAt(s.desk, c.instrument), s.desk.clients[Owner(r.account, r.target)]) == Some(c.existing)
  {
    hide CheckRisk, CheckQuantity, CheckPrice, CheckReference, CheckPermitted, Lookup;
  }

  /** A request emits, for each fill of its execution, the trade, the maker's report
      and the taker's report, the taker counting up, and then exactly one final
      report, whose cumulative quantity is what the order had filled before plus what
      these trades add up to. A request that does not execute emits only its report. */
  lemma RequestShape(s: State, r: Request)
    requires ApplyRequest(s, r).state.fault.None?
    ensures var out := ApplyRequest(s, r).out;
      && out != [] && out[|out| - 1].ReportOut?
      && var fills, final := out[..|out| - 1], out[|out| - 1].report;
         match AttackOf(s, r)
         case None => fills == []
         case Some(k) =>
           && k.taker.side == r.side && FillEvents(k.taker, fills, 0) && Closes(k, r, final)
           && final.cumulative == r.quantity - k.taker.quantity + TradedLots(TradesOf(fills))
  {
    hide HandleNew, HandleReplace, Execute, Filling, FillEvents, TradesOf, TradedLots, CacheLookup, CacheRecord, CheckNew,
      CheckReplace, Withdraw, TakeSeq, BaseReport, Closes;
    var out, h := ApplyRequest(s, r).out, Handle(s, r);
    if AttackOf(s, r).None? {
      QuietOut(s, r);
    } else {
      var k := AttackOf(s, r).value;
      var a := s.cfg.accountIds.index[r.account];
      Unrecorded(h.state, a, r, h.report);
      RequestAttacks(s, r);
      if r.kind.New? {
        NewCloses(s, r);
      } else {
        ReplaceCloses(s, r);
      }
      ExecuteStreamed(k.state, k.taker, k.limit);
      ExecutedLots(k.state, k.taker, k.limit);
      assert out[..|out| - 1] == h.out;
      CloseSum(k, r, h.report);
    }
  }

  lemma CloseSum(k: Attack, r: Request, final: Report)
    requires Closes(k, r, final)
    ensures final.cumulative == r.quantity - k.taker.quantity + Filling(k.state, k.taker, k.limit)
  {
  }

  /** A request that does not execute only reports. */
  lemma QuietOut(s: State, r: Request)
    requires AttackOf(s, r).None? && ApplyRequest(s, r).state.fault.None?
    ensures |ApplyRequest(s, r).out| == 1 && ApplyRequest(s, r).out[0].ReportOut?
  {
    hide HandleNew, HandleReplace, HandleCancel, CacheLookup, CacheRecord, CheckNew, CheckReplace, TakeSeq, BaseReport, Withdraw;
    var known := r.account in s.cfg.accountIds.index;
    var a := if known then s.cfg.accountIds.index[r.account] else 0;
    var hit := if known then CacheLookup(AccountAt(s, a).cache, r.requestId, s.cfg.fingerprint(r)) else Miss;
    if hit.Miss? {
      Unrecorded(Handle(s, r).state, a, r, Handle(s, r).report);
      if known {
        match r.kind {
          case New => NewQuiet(s, r);
          case Cancel => CancelOut(s, r);
          case Replace => ReplaceQuiet(s, r);
        }
      } else {
        UnknownOut(s, r);
      }
    }
  }

  lemma NewQuiet(s: State, r: Request)
    requires r.kind.New? && (CheckNew(s, r).Refuse? || Successor(s.nextOrder).None?)
    ensures HandleNew(s, r).out == []
  {
    hide CheckNew, TakeSeq, BaseReport;
  }

  lemma ReplaceQuiet(s: State, r: Request)
    requires r.kind.Replace?
    requires CheckReplace(s, r).Refuse? || var o := CheckReplace(s, r).value.existing;
      (r.price == o.price && r.quantity < o.total) || o.filled > o.total || r.quantity <= o.filled
    ensures HandleReplace(s, r).out == []
  {
    hide CheckReplace, TakeSeq, BaseReport, ReplaceInPlace, ReplaceAnew, Withdraw;
    if CheckReplace(s, r).Pass? {
      var c := CheckReplace(s, r).value;
      if r.quantity < c.existing.total {
        InPlaceOut(s, r, c);
      }
      if c.existing.filled <= c.existing.total {
        AnewOut(s.On(Withdraw(s.desk, c.account, c.instrument, c.existing)), r, c);
      }
    }
  }
}
