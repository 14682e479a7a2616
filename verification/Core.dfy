/** The deterministic trading state machine as a function from a state and an
    input to the next state and the events it emits. */
module Core {
  import opened Domain
  import opened PriceTime
  import opened Ledger
  import Market

  // ---- configuration and state --------------------------------------------

  datatype InstrumentSpec = InstrumentSpec(id: u32, tick: i64, lot: u64, lo: i64, hi: i64)

  datatype RawConfig = RawConfig(
    instruments: seq<InstrumentSpec>,
    instrumentIds: Roster,
    accountIds: Roster,
    capacity: nat,
    maxAge: u64,
    protection: i64,
    window: nat,
    fingerprint: Request -> u64)

  ghost predicate WellFormed(c: RawConfig) {
    && |c.instruments| == |c.instrumentIds.ids|
    && (forall i :: 0 <= i < |c.instruments| ==>
          && c.instruments[i].id == c.instrumentIds.ids[i]
          && c.instruments[i].tick > 0 && c.instruments[i].lot > 0)
    && c.window > 0
  }

  /** Distinct ids and positive tick and lot sizes, as the engine assumes. */
  type Config = c: RawConfig | WellFormed(c)
    witness RawConfig([], RawRoster([], map[]), RawRoster([], map[]), 0, 0, 0, 1, (r: Request) => 0)

  datatype Cached = Cached(requestId: u64, fingerprint: u64, report: Report)

  datatype Account = Account(enabled: bool, limits: Limits, lastSeq: u64, cache: seq<Cached>)

  /** The two fatal conditions of the source, and a failed `expect` or index. */
  datatype Fault = SequenceExhausted | Accounting | Panic

  datatype State = State(
    cfg: Config,
    desk: Desk,
    views: seq<Market.View>,
    accounts: seq<Account>,
    kill: bool,
    engineSeq: u64,
    outputSeq: u64,
    nextOrder: u64,
    nextTrade: u64,
    nextPriority: u64,
    time: u64,
    fault: Option<Fault>)
  {
    function Failing(ok: bool, f: Fault): State {
      if ok then this else this.(fault := Some(f))
    }

    function On(done: Done): State {
      this.(desk := done.desk).Failing(done.ok, Accounting)
    }
  }

  function Disabled(): Account {
    Account(false, Limits(0, 0, 0, 0, 0), 0, [])
  }

  function AccountAt(s: State, a: nat): Account {
    if a < |s.accounts| then s.accounts[a] else Disabled()
  }

  function PutAccount(s: State, a: nat, x: Account): State {
    if a < |s.accounts| then s.(accounts := s.accounts[a := x]) else s
  }

  function ViewAt(s: State, i: nat): Market.View {
    if i < |s.views| then s.views[i] else Market.NewView(0, 0, 1)
  }

  function PutView(s: State, i: nat, v: Market.View): State {
    if i < |s.views| then s.(views := s.views[i := v]) else s
  }

  // ---- sequences and reports ----------------------------------------------

  /** The next output sequence; it stays put once exhausted. */
  function TakeSeq(s: State): State {
    match Successor(s.outputSeq)
    case Some(n) => s.(outputSeq := n)
    case None => s.(fault := Some(SequenceExhausted))
  }

  /** Taking a sequence moves the counter, or faults. */
  lemma TakeSeqFields(s: State)
    ensures var e := TakeSeq(s);
      && e == s.(outputSeq := e.outputSeq, fault := e.fault)
      && (e.fault.None? ==> s.fault.None? && e.outputSeq == s.outputSeq + 1)
      && (e.fault != s.fault ==> e.fault == Some(SequenceExhausted))
  {
  }

  /** A report carrying the sequence just taken. */
  function BaseReport(s: State, r: Request, id: u64): Report {
    Report(s.outputSeq, s.engineSeq, s.time, r.account, r.instrument, r.requestId, r.clientOrderId, id,
           Accepted, Working, r.side, r.orderType, r.price, r.quantity, 0, r.quantity, 0, 0, None)
  }

  datatype Emitted = Emitted(state: State, out: seq<Output>)

  /** A handled request: the events of its fills and its final report. */
  datatype Handled = Handled(state: State, out: seq<Output>, report: Report)

  function Reject(s: State, r: Request, reason: RejectReason, out: seq<Output>): Handled {
    var s := TakeSeq(s);
    Handled(s, out, BaseReport(s, r, 0).(kind := Rejected, state := CancelledState, remaining := 0, reject := Some(reason)))
  }

  // ---- the request cache --------------------------------------------------

  datatype CacheHit = Miss | Retry(report: Report) | Conflict

  /** The newest retained entry for a request id decides. */
  function CacheLookup(cache: seq<Cached>, requestId: u64, fingerprint: u64): CacheHit {
    if cache == [] then Miss
    else
      var e := cache[|cache| - 1];
      if e.requestId != requestId then CacheLookup(cache[..|cache| - 1], requestId, fingerprint)
      else if e.fingerprint == fingerprint then Retry(e.report)
      else Conflict
  }

  function CacheRecord(cache: seq<Cached>, e: Cached, window: nat): seq<Cached> {
    var all := cache + [e];
    if |all| > window then all[|all| - window..] else all
  }

  function RecordOutcome(s: State, a: nat, r: Request, report: Report): State {
    var x := AccountAt(s, a);
    var cache := CacheRecord(x.cache, Cached(r.requestId, s.cfg.fingerprint(r), report), s.cfg.window);
    PutAccount(s, a, x.(cache := cache, lastSeq := if report.reject.None? && r.clientSeq > 0 then r.clientSeq else x.lastSeq))
  }

  // ---- pre-trade risk -----------------------------------------------------

  datatype Verdict<+T> = Pass(value: T) | Refuse(reason: RejectReason)

  function CheckQuantity(spec: InstrumentSpec, quantity: u64): Option<RejectReason>
    requires spec.lot > 0
  {
    if quantity == 0 then Some(InvalidQuantity)
    else if quantity % spec.lot != 0 then Some(QuantityNotAligned)
    else None
  }

  function CheckPrice(spec: InstrumentSpec, price: i64): Option<RejectReason>
    requires spec.tick > 0
  {
    if price < spec.lo || price > spec.hi then Some(InvalidPrice)
    else if price % spec.tick != 0 then Some(PriceNotAligned)
    else None
  }

  function CheckPermitted(s: State, a: nat, clientSeq: u64): Option<RejectReason> {
    if s.kill then Some(GlobalKillActive)
    else if !AccountAt(s, a).enabled then Some(AccountDisabled)
    else if clientSeq == 0 then Some(MalformedRequest)
    else if clientSeq <= AccountAt(s, a).lastSeq then Some(SequenceTooOld)
    else None
  }

  /** Requires a synchronized and sufficiently fresh market view. */
  ghost function CheckReference(s: State, i: nat): Verdict<i64> {
    var v := ViewAt(s, i);
    if !v.feed.Live? then Refuse(MarketDataUnsynchronized)
    else if s.time - v.lastUpdate > s.cfg.maxAge then Refuse(MarketDataStale)
    else match Market.ReferencePrice(v)
      case None => Refuse(NoReferencePrice)
      case Some(p) => Pass(p)
  }

  function CollarTicks(limits: Limits): int {
    if limits.priceCollarTicks < 0 then 0 else limits.priceCollarTicks
  }

  /** Market orders execute up to a bounded distance from the reference. */
  function ProtectionPrice(reference: i64, side: Side, ticks: i64): Option<i64> {
    ToI64(reference + Signed(side, ticks))
  }

  /** The position as it would be with the replaced lots gone and the added
      lots working. */
  function Project(p: Position, side: Side, added: u64, addedNotional: u128, replaced: u64, released: u128): Option<Position> {
    var open := p.Open(side) - replaced + added;
    var notional := p.Notional(side) - released + addedNotional;
    if p.Open(side) < replaced || open > U64_MAX then None
    else if p.Notional(side) < released || notional > U128_MAX then None
    else Some(p.With(side, open, notional))
  }

  function WorstCase(p: Position, side: Side): Option<nat> {
    if p.Open(side) > I64_MAX then None
    else match ToI64(p.lots + Signed(side, p.Open(side)))
      case None => None
      case Some(x) => Some(Abs(x))
  }

  function Exposure(p: Position, mark: i64): Option<u128> {
    var value := Abs(p.lots) * Abs(mark);
    if value > U128_MAX || value + p.buyNotional > U128_MAX then None
    else ToU128(value + p.buyNotional + p.sellNotional)
  }

  /** Gross exposure from instrument k on, with one position projected. */
  ghost function GrossFrom(s: State, a: nat, i: nat, projected: Position, k: nat, gross: u128): Verdict<u128>
    decreases |s.views| - k
  {
    if k >= |s.views| then Pass(gross)
    else
      var p := if k == i then projected else Pos(s.desk, a, k);
      if p.lots == 0 && p.buyNotional == 0 && p.sellNotional == 0 then GrossFrom(s, a, i, projected, k + 1, gross)
      else
        var mark := Market.ReferencePrice(s.views[k]);
        if mark.None? && p.lots != 0 then Refuse(NoReferencePrice)
        else match Exposure(p, if mark.Some? then mark.value else 0)
          case None => Refuse(ArithmeticOverflow)
          case Some(e) =>
            if gross + e > U128_MAX then Refuse(ArithmeticOverflow)
            else GrossFrom(s, a, i, projected, k + 1, gross + e)
  }

  /** Worst-case position and gross exposure including working orders. */
  ghost function CheckExposure(s: State, a: nat, i: nat, side: Side, added: u64, addedPrice: i64,
                               replaced: u64, replacedPrice: i64): Option<RejectReason>
  {
    var limits := AccountAt(s, a).limits;
    var released, extra := CheckedNotional(replaced, replacedPrice), CheckedNotional(added, addedPrice);
    if released.None? || extra.None? then Some(ArithmeticOverflow)
    else
      match Project(Pos(s.desk, a, i), side, added, extra.value, replaced, released.value)
      case None => Some(ArithmeticOverflow)
      case Some(projected) =>
        match WorstCase(projected, side)
        case None => Some(ArithmeticOverflow)
        case Some(worst) =>
          if worst > limits.maxPositionLots then Some(MaxPosition)
          else match GrossFrom(s, a, i, projected, 0, 0)
            case Refuse(reason) => Some(reason)
            case Pass(gross) => if gross > limits.maxGrossExposure then Some(MaxGrossExposure) else None
  }

  /** The checks both kinds of risk-taking requests share. */
  ghost function CheckRisk(s: State, a: nat, i: nat, side: Side, lots: u64, limit: i64, reference: i64,
                           replaced: u64, replacedPrice: i64): Option<RejectReason>
  {
    var limits := AccountAt(s, a).limits;
    if Abs(limit - reference) > CollarTicks(limits) then Some(PriceCollar)
    else match CheckedNotional(lots, limit)
      case None => Some(ArithmeticOverflow)
      case Some(n) =>
        if n > limits.maxOrderNotional then Some(MaxOrderNotional)
        else CheckExposure(s, a, i, side, lots, limit, replaced, replacedPrice)
  }

  datatype NewOrder = NewOrder(account: nat, instrument: nat, limit: i64)

  /** The request is well formed and names known parties. */
  function CheckNewForm(s: State, r: Request): Verdict<NewOrder> {
    if !r.kind.New? then Refuse(MalformedRequest)
    else if r.account !in s.cfg.accountIds.index then Refuse(UnknownAccount)
    else if r.instrument !in s.cfg.instrumentIds.index then Refuse(UnknownInstrument)
    else
      var a, i := s.cfg.accountIds.index[r.account], s.cfg.instrumentIds.index[r.instrument];
      var bad := CheckQuantity(s.cfg.instruments[i], r.quantity);
      if bad.Some? then Refuse(bad.value)
      else
        var bad := if r.orderType.LimitOrder? then CheckPrice(s.cfg.instruments[i], r.price) else None;
        if bad.Some? then Refuse(bad.value)
        else if Owner(r.account, r.clientOrderId) in s.desk.clients then Refuse(DuplicateClientOrderId)
        else Pass(NewOrder(a, i, r.price))
  }

  ghost function CheckNew(s: State, r: Request): Verdict<NewOrder> {
    var form := CheckNewForm(s, r);
    if form.Refuse? then form
    else
      var a, i := form.value.account, form.value.instrument;
      var bad := CheckPermitted(s, a, r.clientSeq);
      if bad.Some? then Refuse(bad.value)
      else
        var reference := CheckReference(s, i);
        if reference.Refuse? then Refuse(reference.reason)
        else if r.quantity > AccountAt(s, a).limits.maxOrderQuantity then Refuse(MaxOrderQuantity)
        else
          var limit := if r.orderType.LimitOrder? then Some(r.price)
                       else ProtectionPrice(reference.value, r.side, s.cfg.protection);
          if limit.None? then Refuse(ArithmeticOverflow)
          else
            var bad := CheckRisk(s, a, i, r.side, r.quantity, limit.value, reference.value, 0, limit.value);
            if bad.Some? then Refuse(bad.value)
            else if BookAt(s.desk, i).Size() >= s.cfg.capacity then Refuse(CapacityExhausted)
            else Pass(NewOrder(a, i, limit.value))
  }

  datatype Replacement = Replacement(account: nat, instrument: nat, existing: Order)

  function CheckReplaceForm(s: State, r: Request): Verdict<Replacement> {
    if r.account !in s.cfg.accountIds.index then Refuse(UnknownAccount)
    else if r.instrument !in s.cfg.instrumentIds.index then Refuse(UnknownInstrument)
    else if Owner(r.account, r.target) !in s.desk.clients then Refuse(UnknownOrder)
    else
      var a, i := s.cfg.accountIds.index[r.account], s.cfg.instrumentIds.index[r.instrument];
      match Lookup(BookAt(s.desk, i), s.desk.clients[Owner(r.account, r.target)])
      case None => Refuse(OrderAlreadyTerminal)
      case Some(o) =>
        if r.side != o.side || !r.orderType.LimitOrder? then Refuse(MalformedRequest)
        else
          var bad := CheckPrice(s.cfg.instruments[i], r.price);
          if bad.Some? then Refuse(bad.value)
          else
            var bad := CheckQuantity(s.cfg.instruments[i], r.quantity);
            if bad.Some? then Refuse(bad.value)
            else if r.quantity < o.filled then Refuse(InvalidReplaceQuantity)
            else Pass(Replacement(a, i, o))
  }

  ghost function CheckReplace(s: State, r: Request): Verdict<Replacement> {
    var form := CheckReplaceForm(s, r);
    if form.Refuse? then form
    else
      var Replacement(a, i, o) := form.value;
      var bad := CheckPermitted(s, a, r.clientSeq);
      if bad.Some? then Refuse(bad.value)
      else
        var reference := CheckReference(s, i);
        if reference.Refuse? then Refuse(reference.reason)
        else
          var lots := r.quantity - o.filled;
          if lots < 0 || o.Remaining() < 0 then Refuse(ArithmeticOverflow)
          else if lots > AccountAt(s, a).limits.maxOrderQuantity then Refuse(MaxOrderQuantity)
          else
            var bad := CheckRisk(s, a, i, o.side, lots, r.price, reference.value, o.Remaining(), o.price);
            if bad.Some? then Refuse(bad.value) else Pass(form.value)
  }

  // ---- execution ----------------------------------------------------------

  /** An aggressing order: who trades, what, and under which order id. */
  datatype Taker = Taker(account: nat, instrument: nat, request: Request, id: u64, side: Side, quantity: u64)

  function TradeFor(s: State, x: Taker, f: Fill): Trade {
    Trade(s.outputSeq, s.engineSeq, s.time, s.nextTrade, InstrumentId(s, x.instrument), f.makerId, x.id,
          f.owner.account, x.request.account, x.side, f.price, f.quantity)
  }

  function InstrumentId(s: State, i: nat): u32 {
    if i < |s.cfg.instruments| then s.cfg.instruments[i].id else 0
  }

  function MakerReport(s: State, x: Taker, f: Fill): Report {
    Report(s.outputSeq, s.engineSeq, s.time, f.owner.account, InstrumentId(s, x.instrument), 0, f.owner.client, f.makerId,
           if f.makerRemaining == 0 then Filled else PartiallyFilled,
           if f.makerRemaining == 0 then FullyFilled else PartlyFilled,
           x.side.Opposite(), LimitOrder, f.price, f.makerTotal, f.makerCumulative, f.makerRemaining,
           f.quantity, f.price, None)
  }

  function TakerReport(s: State, x: Taker, f: Fill, cumulative: u64): Report {
    var done := cumulative == x.quantity;
    BaseReport(s, x.request, x.id).(
      side := x.side,
      kind := if done then Filled else PartiallyFilled,
      state := if done then FullyFilled else PartlyFilled,
      cumulative := cumulative,
      remaining := if cumulative <= x.quantity then x.quantity - cumulative else 0,
      lastQuantity := f.quantity,
      lastPrice := f.price)
  }

  /** Settles one fill and emits its trade, maker report and taker report. */
  function SettleOne(s: State, x: Taker, f: Fill, cumulative: u64): Emitted {
    if f.owner.account !in s.cfg.accountIds.index then Emitted(s.(fault := Some(Panic)), [])
    else
      var maker := s.cfg.accountIds.index[f.owner.account];
      var s1 := s.On(SettleFill(s.desk, maker, x.account, x.instrument, x.side, f));
      var s2 := TakeSeq(s1);
      var s3 := TakeSeq(s2);
      var s4 := TakeSeq(s3);
      Emitted(s4.Failing(cumulative <= x.quantity, Accounting),
              [TradeOut(TradeFor(s2, x, f)), ReportOut(MakerReport(s3, x, f)), ReportOut(TakerReport(s4, x, f, cumulative))])
  }

  /** Settles the fills of one match in order; stops where a sequence ends. */
  function SettleAll(s: State, x: Taker, fills: seq<Fill>, cumulative: u64): Emitted
    decreases |fills|
  {
    if fills == [] then Emitted(s, [])
    else if cumulative + fills[0].quantity > U64_MAX then Emitted(s.(fault := Some(Accounting)), [])
    else
      match Successor(s.nextTrade)
      case None => Emitted(s.(fault := Some(SequenceExhausted)), [])
      case Some(n) =>
        var one := SettleOne(s.(nextTrade := n), x, fills[0], cumulative + fills[0].quantity);
        var rest := SettleAll(one.state, x, fills[1..], cumulative + fills[0].quantity);
        Emitted(rest.state, one.out + rest.out)
  }

  /** Matching is defined on lists of resting orders, as every reachable book is. */
  ghost function Sweep(side: Side, q: seq<Order>, limit: i64, quantity: u64): Matched {
    if Resting(side, q) then Match(side, q, limit, quantity) else Matched([], q)
  }

  /** The whole match is taken off the book before any fill is settled. */
  ghost function Execute(s: State, x: Taker, limit: i64): Emitted {
    var b, ms := BookAt(s.desk, x.instrument), x.side.Opposite();
    var m := Sweep(ms, b.Of(ms), limit, x.quantity);
    SettleAll(s.(desk := PutBook(s.desk, x.instrument, b.With(ms, m.rest))), x, m.fills, 0)
  }

  ghost function Filling(s: State, x: Taker, limit: i64): nat {
    Lots(Sweep(x.side.Opposite(), BookAt(s.desk, x.instrument).Of(x.side.Opposite()), limit, x.quantity).fills)
  }

  /** Rests a remainder under a fresh priority; a level that would overflow or
      a full book drops it silently. */
  function RestOrder(s: State, x: Taker, client: u64, price: i64, total: u64, filled: u64): State {
    match Successor(s.nextPriority)
    case None => s.(fault := Some(SequenceExhausted))
    case Some(n) =>
      var s := s.(nextPriority := n);
      var o := Order(x.id, Owner(x.request.account, client), x.side, price, total, filled, n);
      if Admits(BookAt(s.desk, x.instrument), o, s.cfg.capacity) then s.On(Rest(s.desk, x.account, x.instrument, o))
      else s
  }

  // ---- requests -----------------------------------------------------------

  function Answer(s: State, out: seq<Output>, r: Request, id: u64, kind: ReportKind, state: OrderState,
                  cumulative: u64, remaining: u64): Handled
  {
    var s := TakeSeq(s);
    Handled(s, out, BaseReport(s, r, id).(kind := kind, state := state, cumulative := cumulative, remaining := remaining))
  }

  /** A final report takes a sequence and changes nothing else. */
  lemma AnswerFields(s: State, out: seq<Output>, r: Request, id: u64, kind: ReportKind, state: OrderState,
                     cumulative: u64, remaining: u64)
    ensures var h := Answer(s, out, r, id, kind, state, cumulative, remaining);
      && h.out == out && h.state == s.(outputSeq := h.state.outputSeq, fault := h.state.fault)
      && (h.state.fault.None? ==> s.fault.None?)
  {
  }

  function StateOf(filled: u64): OrderState {
    if filled == 0 then Working else PartlyFilled
  }

  ghost function HandleNew(s: State, r: Request): Handled {
    match CheckNew(s, r)
    case Refuse(reason) => Reject(s, r, reason, [])
    case Pass(c) =>
      match Successor(s.nextOrder)
      case None => Reject(s.(fault := Some(SequenceExhausted)), r, CapacityExhausted, [])
      case Some(id) =>
        var x := Taker(c.account, c.instrument, r, id, r.side, r.quantity);
        var e, filled := Execute(s.(nextOrder := id), x, c.limit), Filling(s, x, c.limit);
        if filled > r.quantity then Reject(e.state.(fault := Some(Accounting)), r, ArithmeticOverflow, e.out)
        else if filled == r.quantity then Answer(e.state, e.out, r, id, Filled, FullyFilled, filled, 0)
        else if r.orderType.MarketOrder? then Answer(e.state, e.out, r, id, Cancelled, CancelledState, filled, 0)
        else
          var rested := RestOrder(e.state, x, r.clientOrderId, r.price, r.quantity, filled);
          Answer(rested, e.out, r, id, Accepted, StateOf(filled), filled, r.quantity - filled)
  }

  function HandleCancel(s: State, r: Request): Handled {
    var key := Owner(r.account, r.target);
    if r.account !in s.cfg.accountIds.index then Reject(s, r, UnknownAccount, [])
    else if key !in s.desk.clients then Reject(s, r, UnknownOrder, [])
    else if s.desk.clients[key] !in s.desk.live then Reject(s, r, OrderAlreadyTerminal, [])
    else
      var id := s.desk.clients[key];
      var LiveOrder(a, i) := s.desk.live[id];
      match Lookup(BookAt(s.desk, i), id)
      case None => Reject(s.(fault := Some(Panic)), r, UnknownOrder, [])
      case Some(o) =>
        if o.filled > o.total then Reject(s.(fault := Some(Panic)), r, UnknownOrder, [])
        else
          var h := Answer(s.On(Withdraw(s.desk, a, i, o)), [], r, id, Cancelled, CancelledState, o.filled, 0);
          h.(report := h.report.(clientOrderId := o.owner.client, side := o.side, price := o.price, total := o.total))
  }

  /** The report of a request acting on an existing order names that order. */
  function Naming(h: Handled, o: Order): Handled {
    h.(report := h.report.(clientOrderId := o.owner.client, side := o.side))
  }

  ghost function HandleReplace(s: State, r: Request): Handled {
    match CheckReplace(s, r)
    case Refuse(reason) => Reject(s, r, reason, [])
    case Pass(c) =>
      var o := c.existing;
      if r.price == o.price && r.quantity < o.total then ReplaceInPlace(s, r, c)
      else if o.filled > o.total then Reject(s.(fault := Some(Panic)), r, ArithmeticOverflow, [])
      else ReplaceAnew(s.On(Withdraw(s.desk, c.account, c.instrument, o)), r, c)
  }

  /** Same price and a lower total keeps queue priority. */
  function ReplaceInPlace(s: State, r: Request, c: Replacement): Handled
    requires r.quantity < c.existing.total
  {
    var o := c.existing;
    var s1 := s.On(Shrink(s.desk, c.account, c.instrument, o, r.quantity));
    if r.quantity == o.filled then
      var gone := Forget(PutBook(s1.desk, c.instrument, Remove(BookAt(s1.desk, c.instrument), o.id)), o.id, o.owner);
      Naming(Answer(s1.(desk := gone), [], r, o.id, Cancelled, CancelledState, o.filled, 0), o)
    else if r.quantity < o.filled then
      Reject(TakeSeq(s1).(fault := Some(Accounting)), r, ArithmeticOverflow, [])
    else Naming(Answer(s1, [], r, o.id, Replaced, StateOf(o.filled), o.filled, r.quantity - o.filled), o)
  }

  /** A price change or a larger total loses priority: the order, already
      taken off the book, aggresses again with what it has left. */
  ghost function ReplaceAnew(s: State, r: Request, c: Replacement): Handled {
    var o := c.existing;
    if r.quantity == o.filled then Naming(Answer(s, [], r, o.id, Cancelled, CancelledState, o.filled, 0), o)
    else if r.quantity < o.filled then Reject(s.(fault := Some(Accounting)), r, ArithmeticOverflow, [])
    else
      var x := Taker(c.account, c.instrument, r, o.id, o.side, r.quantity - o.filled);
      var e, cumulative := Execute(s, x, r.price), o.filled + Filling(s, x, r.price);
      if cumulative > U64_MAX then Reject(e.state.(fault := Some(Accounting)), r, ArithmeticOverflow, e.out)
      else if cumulative == r.quantity then Naming(Answer(e.state, e.out, r, o.id, Filled, FullyFilled, cumulative, 0), o)
      else
        var rested := RestOrder(e.state, x, o.owner.client, r.price, r.quantity, cumulative);
        var h := Naming(Answer(rested, e.out, r, o.id, Replaced, StateOf(cumulative), cumulative,
                               if cumulative <= r.quantity then r.quantity - cumulative else 0), o);
        h.(state := h.state.Failing(cumulative <= r.quantity, Accounting))
  }

  ghost function Handle(s: State, r: Request): Handled {
    match r.kind
    case New => HandleNew(s, r)
    case Cancel => HandleCancel(s, r)
    case Replace => HandleReplace(s, r)
  }

  ghost function ApplyRequest(s: State, r: Request): Emitted {
    var known := r.account in s.cfg.accountIds.index;
    var a := if known then s.cfg.accountIds.index[r.account] else 0;
    var hit := if known then CacheLookup(AccountAt(s, a).cache, r.requestId, s.cfg.fingerprint(r)) else Miss;
    match hit
    case Retry(previous) =>
      var s := TakeSeq(s);
      Emitted(s, [ReportOut(previous.(outputSeq := s.outputSeq, engineSeq := s.engineSeq, timeNs := s.time))])
    case Conflict =>
      var h := Reject(s, r, DuplicateRequestConflict, []);
      Emitted(RecordOutcome(h.state, a, r, h.report), [ReportOut(h.report)])
    case Miss =>
      var h := Handle(s, r);
      Emitted(if known then RecordOutcome(h.state, a, r, h.report) else h.state, h.out + [ReportOut(h.report)])
  }

  // ---- the other inputs ---------------------------------------------------

  function PushState(s: State, change: StateChange): Emitted {
    var s := TakeSeq(s);
    Emitted(s, [StateOut(s.outputSeq, s.engineSeq, s.time, change)])
  }

  ghost function ApplyMarket(s: State, e: MarketEvent): Emitted {
    if e.instrument !in s.cfg.instrumentIds.index then Emitted(s, [])
    else
      var i := s.cfg.instrumentIds.index[e.instrument];
      var v := Market.Apply(ViewAt(s, i), e.sourceSeq, e.kind, s.time);
      var changed := v.feed != ViewAt(s, i).feed;
      var s := PutView(s, i, v);
      if changed then PushState(s, FeedChanged(e.instrument, v.feed)) else Emitted(s, [])
  }

  function ApplyControl(s: State, c: Command): Emitted {
    match c
    case SetGlobalKill(engaged) =>
      if s.kill == engaged then Emitted(s, [])
      else PushState(s.(kill := engaged), if engaged then KillEngaged else KillReleased)
    case SetAccountEnabled(account, enabled) =>
      if account !in s.cfg.accountIds.index then Emitted(s, [])
      else
        var a := s.cfg.accountIds.index[account];
        if AccountAt(s, a).enabled == enabled then Emitted(s, [])
        else PushState(PutAccount(s, a, AccountAt(s, a).(enabled := enabled)), EnabledChanged(account, enabled))
    case SetAccountLimits(account, limits) =>
      if account !in s.cfg.accountIds.index then Emitted(s, [])
      else
        var a := s.cfg.accountIds.index[account];
        PushState(PutAccount(s, a, AccountAt(s, a).(limits := limits)), LimitsChanged(account))
  }

  /** One input. A faulted engine ignores everything. */
  ghost function Step(s: State, input: Input): Emitted {
    if s.fault.Some? then Emitted(s, [])
    else
      match Successor(s.engineSeq)
      case None => Emitted(s.(fault := Some(SequenceExhausted)), [])
      case Some(n) =>
        var s := s.(engineSeq := n, time := input.recvTimeNs);
        match input.event
        case MarketInput(e) => ApplyMarket(s, e)
        case OrderInput(r) => ApplyRequest(s, r)
        case ControlInput(c) => ApplyControl(s, c)
  }
}
