/** Which requests are taken and why the others are not: the checks of a new order
    and of a replacement as conditions on the state before the call, in the order
    in which they decide. */
module Admission {
  import opened Domain
  import opened PriceTime
  import opened Ledger
  import opened Core
  import opened Margin
  import Market

  datatype Check =
    | KnownAccount
    | KnownInstrument
    | KnownOrder
    | RestingThere
    | SameTerms
    | SomeQuantity
    | WholeLots
    | PriceInDomain
    | WholeTicks
    | NotBelowFilled
    | UnusedClientId
    | KillOff
    | AccountEnabled
    | Sequenced
    | SequenceFresh
    | FeedLive
    | FeedFresh
    | Referenced
    | QuantityAllowed
    | LimitFits
    | WithinCollar
    | NotionalAllowed
    | PositionFits
    | PositionAllowed
    | AllPriced
    | GrossFits
    | GrossAllowed
    | RoomInBook

  function ReasonOf(x: Check): RejectReason {
    match x
    case KnownAccount => UnknownAccount
    case KnownInstrument => UnknownInstrument
    case KnownOrder => UnknownOrder
    case RestingThere => OrderAlreadyTerminal
    case SameTerms => MalformedRequest
    case SomeQuantity => InvalidQuantity
    case WholeLots => QuantityNotAligned
    case PriceInDomain => InvalidPrice
    case WholeTicks => PriceNotAligned
    case NotBelowFilled => InvalidReplaceQuantity
    case UnusedClientId => DuplicateClientOrderId
    case KillOff => GlobalKillActive
    case AccountEnabled => AccountDisabled
    case Sequenced => MalformedRequest
    case SequenceFresh => SequenceTooOld
    case FeedLive => MarketDataUnsynchronized
    case FeedFresh => MarketDataStale
    case Referenced => NoReferencePrice
    case QuantityAllowed => MaxOrderQuantity
    case LimitFits => ArithmeticOverflow
    case WithinCollar => PriceCollar
    case NotionalAllowed => MaxOrderNotional
    case PositionFits => ArithmeticOverflow
    case PositionAllowed => MaxPosition
    case AllPriced => NoReferencePrice
    case GrossFits => ArithmeticOverflow
    case GrossAllowed => MaxGrossExposure
    case RoomInBook => CapacityExhausted
  }

  const NEVER: nat := 100

  /** The order in which the checks decide, for a new order and for a replacement. */
  function Turn(kind: RequestKind, x: Check): nat {
    match x
    case KnownAccount => 0
    case KnownInstrument => 1
    case KnownOrder => if kind.Replace? then 2 else NEVER
    case RestingThere => if kind.Replace? then 3 else NEVER
    case SameTerms => if kind.Replace? then 4 else NEVER
    case SomeQuantity => if kind.Replace? then 7 else 2
    case WholeLots => if kind.Replace? then 8 else 3
    case PriceInDomain => if kind.Replace? then 5 else 4
    case WholeTicks => if kind.Replace? then 6 else 5
    case NotBelowFilled => if kind.Replace? then 9 else NEVER
    case UnusedClientId => if kind.Replace? then NEVER else 6
    case KillOff => 10
    case AccountEnabled => 11
    case Sequenced => 12
    case SequenceFresh => 13
    case FeedLive => 14
    case FeedFresh => 15
    case Referenced => 16
    case QuantityAllowed => 17
    case LimitFits => 18
    case WithinCollar => 19
    case NotionalAllowed => 20
    case PositionFits => 21
    case PositionAllowed => 22
    case AllPriced => 23
    case GrossFits => 24
    case GrossAllowed => 25
    case RoomInBook => 26
  }

  // ---- what a request asks for --------------------------------------------

  function AccountOf(s: State, r: Request): nat {
    if r.account in s.cfg.accountIds.index then s.cfg.accountIds.index[r.account] else 0
  }

  function InstrumentOf(s: State, r: Request): nat {
    if r.instrument in s.cfg.instrumentIds.index then s.cfg.instrumentIds.index[r.instrument] else 0
  }

  /** The resting order a replacement names. */
  function Target(s: State, r: Request): Option<Order> {
    var key := Owner(r.account, r.target);
    if key in s.desk.clients then Lookup(BookAt(s.desk, InstrumentOf(s, r)), s.desk.clients[key]) else None
  }

  ghost function ReferenceOf(s: State, r: Request): Option<i64> {
    Market.ReferencePrice(ViewAt(s, InstrumentOf(s, r)))
  }

  /** The worst price the request may execute at. */
  ghost function LimitOf(s: State, r: Request): int {
    if r.kind.Replace? || r.orderType.LimitOrder? || ReferenceOf(s, r).None? then r.price
    else ReferenceOf(s, r).value + Signed(r.side, s.cfg.protection)
  }

  /** What would work for the account that does not now, and the other way round. */
  ghost function ChangeOf(s: State, r: Request): Change {
    var i := InstrumentOf(s, r);
    if r.kind.Replace? && Target(s, r).Some? then
      var o := Target(s, r).value;
      Change(i, o.side, if o.filled <= r.quantity then r.quantity - o.filled else 0, r.price,
             if o.filled <= o.total then o.total - o.filled else 0, o.price)
    else Change(i, r.side, r.quantity, LimitOf(s, r), 0, 0)
  }

  ghost predicate Sized(s: State, r: Request) {
    var a, i := AccountOf(s, r), InstrumentOf(s, r);
    && a < |s.desk.positions| && a < |s.accounts| && |s.desk.positions[a]| == |s.views| == |s.cfg.instruments| && i < |s.views|
  }

  // ---- the conditions -----------------------------------------------------

  /** The request and what it names are not as they should be. */
  ghost predicate Misformed(s: State, r: Request, x: Check) {
    var i := InstrumentOf(s, r);
    match x
    case KnownAccount => r.account !in s.cfg.accountIds.ids
    case KnownInstrument => r.instrument !in s.cfg.instrumentIds.ids
    case KnownOrder => r.kind.Replace? && Owner(r.account, r.target) !in s.desk.clients
    case RestingThere => r.kind.Replace? && Target(s, r).None?
    case SameTerms => r.kind.Replace? && Target(s, r).Some? && (r.side != Target(s, r).value.side || r.orderType.MarketOrder?)
    case SomeQuantity => r.quantity == 0
    case WholeLots => i < |s.cfg.instruments| && r.quantity % s.cfg.instruments[i].lot != 0
    case PriceInDomain =>
      && i < |s.cfg.instruments| && (r.kind.Replace? || r.orderType.LimitOrder?)
      && !(s.cfg.instruments[i].lo <= r.price <= s.cfg.instruments[i].hi)
    case WholeTicks =>
      && i < |s.cfg.instruments| && (r.kind.Replace? || r.orderType.LimitOrder?)
      && r.price % s.cfg.instruments[i].tick != 0
    case NotBelowFilled => r.kind.Replace? && Target(s, r).Some? && r.quantity < Target(s, r).value.filled
    case UnusedClientId => r.kind.New? && Owner(r.account, r.clientOrderId) in s.desk.clients
    case _ => false
  }

  /** The account may not trade now, or the market cannot be relied on. */
  ghost predicate Forbidden(s: State, r: Request, x: Check) {
    var x0, v := AccountAt(s, AccountOf(s, r)), ViewAt(s, InstrumentOf(s, r));
    match x
    case KillOff => s.kill
    case AccountEnabled => !x0.enabled
    case Sequenced => r.clientSeq == 0
    case SequenceFresh => r.clientSeq <= x0.lastSeq
    case FeedLive => !v.feed.Live?
    case FeedFresh => s.time - v.lastUpdate > s.cfg.maxAge
    case Referenced => ReferenceOf(s, r).None?
    case _ => false
  }

  /** A limit of the account, of the arithmetic or of the book is exceeded. */
  ghost predicate Excessive(s: State, r: Request, x: Check) {
    var a, limits, c := AccountOf(s, r), AccountAt(s, AccountOf(s, r)).limits, ChangeOf(s, r);
    match x
    case QuantityAllowed => c.added > limits.maxOrderQuantity
    case LimitFits => !(I64_MIN <= c.price <= I64_MAX)
    case WithinCollar =>
      && ReferenceOf(s, r).Some?
      && Abs(c.price - ReferenceOf(s, r).value) > (if limits.priceCollarTicks < 0 then 0 else limits.priceCollarTicks)
    case NotionalAllowed => c.added * Abs(c.price) > limits.maxOrderNotional
    case PositionFits => Sized(s, r) && !Fits(s.desk.positions[a][c.instrument], c)
    case PositionAllowed => Sized(s, r) && Abs(Worst(s.desk.positions[a][c.instrument], c)) > limits.maxPositionLots
    case AllPriced => Sized(s, r) && Unpriced(s.desk.positions[a], s.views, c)
    case GrossFits => Sized(s, r) && MarkedWith(s.desk.positions[a], s.views, |s.views|, c) > U128_MAX
    case GrossAllowed => Sized(s, r) && MarkedWith(s.desk.positions[a], s.views, |s.views|, c) > limits.maxGrossExposure
    case RoomInBook => r.kind.New? && BookAt(s.desk, c.instrument).Size() >= s.cfg.capacity
    case _ => false
  }

  ghost predicate Fails(s: State, r: Request, x: Check) {
    Misformed(s, r, x) || Forbidden(s, r, x) || Excessive(s, r, x)
  }

  ghost predicate Stands(s: State, r: Request, n: nat) {
    forall x: Check :: Turn(r.kind, x) < n ==> !Fails(s, r, x)
  }

  ghost predicate FirstFailure(s: State, r: Request, x: Check) {
    Fails(s, r, x) && Stands(s, r, Turn(r.kind, x))
  }

  /** The verdict is the reason of the first check that fails, or none if all hold. */
  ghost predicate Judged(s: State, r: Request, verdict: Option<RejectReason>) {
    match verdict
    case None => forall x: Check :: !Fails(s, r, x)
    case Some(reason) => exists x: Check :: FirstFailure(s, r, x) && ReasonOf(x) == reason
  }

  // ---- one check after the other ------------------------------------------

  lemma NothingBefore(s: State, r: Request)
    ensures Stands(s, r, 0)
  {
  }

  /** A check that holds leaves the next one to decide. */
  lemma Holds(s: State, r: Request, x: Check)
    requires Stands(s, r, Turn(r.kind, x)) && !Fails(s, r, x) && Turn(r.kind, x) != NEVER
    ensures Stands(s, r, Turn(r.kind, x) + 1)
  {
    hide Fails;
    forall y: Check | Turn(r.kind, y) < Turn(r.kind, x) + 1 ensures !Fails(s, r, y) {
      if y != x {
        TurnsDiffer(r.kind, x, y);
      }
    }
  }

  lemma TurnsDiffer(kind: RequestKind, x: Check, y: Check)
    requires x != y && Turn(kind, x) != NEVER
    ensures Turn(kind, x) != Turn(kind, y)
  {
  }

  /** The verdict of the checks before the n-th: a first failure, or that all hold. */
  ghost predicate Decides(s: State, r: Request, verdict: Option<RejectReason>, n: nat) {
    match verdict
    case None => Stands(s, r, n)
    case Some(reason) => exists x: Check :: FirstFailure(s, r, x) && ReasonOf(x) == reason
  }

  lemma Decided(s: State, r: Request, x: Check, n: nat)
    requires Stands(s, r, Turn(r.kind, x)) && Fails(s, r, x)
    ensures Decides(s, r, Some(ReasonOf(x)), n)
  {
    hide Fails, Stands;
    assert FirstFailure(s, r, x);
  }

  /** Once all before it hold, a check decides or hands on. */
  lemma Try(s: State, r: Request, x: Check, n: nat)
    requires Turn(r.kind, x) != NEVER
    ensures Stands(s, r, Turn(r.kind, x)) ==>
      var fails := if Turn(r.kind, x) < 10 then Misformed(s, r, x)
                   else if Turn(r.kind, x) < 17 then Forbidden(s, r, x) else Excessive(s, r, x);
      if fails then Decides(s, r, Some(ReasonOf(x)), n)
      else Stands(s, r, Turn(r.kind, x) + 1) && (n == Turn(r.kind, x) + 1 ==> Decides(s, r, None, n))
  {
    hide Fails, Stands, Turn, ReasonOf, Misformed, Forbidden, Excessive;
    Concerns(s, r, x);
    if Stands(s, r, Turn(r.kind, x)) {
      if Fails(s, r, x) {
        Decided(s, r, x, n);
      } else {
        Holds(s, r, x);
      }
    }
  }

  lemma Concerns(s: State, r: Request, x: Check)
    requires Turn(r.kind, x) != NEVER
    ensures Fails(s, r, x) <==>
      if Turn(r.kind, x) < 10 then Misformed(s, r, x)
      else if Turn(r.kind, x) < 17 then Forbidden(s, r, x) else Excessive(s, r, x)
  {
    hide Lookup, Market.ReferencePrice, ChangeOf, Sized, ViewAt, AccountAt, InstrumentOf, AccountOf, Target;
  }

  function ReasonIn<T>(v: Verdict<T>): Option<RejectReason> {
    match v case Pass(_) => None case Refuse(reason) => Some(reason)
  }

  lemma PermittedDecides(s: State, r: Request)
    requires Stands(s, r, 10)
    ensures Decides(s, r, CheckPermitted(s, AccountOf(s, r), r.clientSeq), 14)
  {
    hide Stands, Decides, Market.ReferencePrice, ViewAt, AccountAt, Misformed, Excessive;
    Try(s, r, KillOff, 14);
    Try(s, r, AccountEnabled, 14);
    Try(s, r, Sequenced, 14);
    Try(s, r, SequenceFresh, 14);
  }

  lemma ReferenceDecides(s: State, r: Request)
    requires Stands(s, r, 14)
    ensures Decides(s, r, ReasonIn(CheckReference(s, InstrumentOf(s, r))), 17)
    ensures CheckReference(s, InstrumentOf(s, r)).Pass? ==> ReferenceOf(s, r) == Some(CheckReference(s, InstrumentOf(s, r)).value)
  {
    hide Stands, Decides, Market.ReferencePrice, ViewAt, AccountAt, Misformed, Excessive;
    Try(s, r, FeedLive, 17);
    Try(s, r, FeedFresh, 17);
    Try(s, r, Referenced, 17);
  }

  lemma NewFormDecides(s: State, r: Request)
    requires r.kind.New?
    ensures Decides(s, r, ReasonIn(CheckNewForm(s, r)), 10)
    ensures CheckNewForm(s, r).Pass? ==>
      && CheckNewForm(s, r).value.account == AccountOf(s, r) && CheckNewForm(s, r).value.instrument == InstrumentOf(s, r)
      && r.account in s.cfg.accountIds.index && r.instrument in s.cfg.instrumentIds.index
  {
    hide Stands, Decides, Target, Forbidden, Excessive;
    KnownIds(s, r);
    NothingBefore(s, r);
    Try(s, r, KnownAccount, 10);
    Try(s, r, KnownInstrument, 10);
    Try(s, r, SomeQuantity, 10);
    Try(s, r, WholeLots, 10);
    Try(s, r, PriceInDomain, 10);
    Try(s, r, WholeTicks, 10);
    Try(s, r, UnusedClientId, 10);
    NoneBetween(s, r);
  }

  lemma KnownIds(s: State, r: Request)
    ensures r.account in s.cfg.accountIds.index <==> r.account in s.cfg.accountIds.ids
    ensures r.instrument in s.cfg.instrumentIds.index <==> r.instrument in s.cfg.instrumentIds.ids
    ensures r.instrument in s.cfg.instrumentIds.index ==> InstrumentOf(s, r) < |s.cfg.instruments|
  {
    if r.account in s.cfg.accountIds.ids {
      var a :| 0 <= a < |s.cfg.accountIds.ids| && s.cfg.accountIds.ids[a] == r.account;
    }
    if r.instrument in s.cfg.instrumentIds.ids {
      var i :| 0 <= i < |s.cfg.instrumentIds.ids| && s.cfg.instrumentIds.ids[i] == r.instrument;
    }
  }

  lemma NoneBetween(s: State, r: Request)
    requires r.kind.New?
    ensures Stands(s, r, 7) ==> Decides(s, r, None, 10)
  {
    hide Fails;
  }

  // ---- risk ---------------------------------------------------------------

  /** With nothing replaced, the replaced price does not matter. */
  lemma NothingReplaced(s: State, a: nat, i: nat, side: Side, added: u64, price: i64, x: i64, y: i64)
    ensures CheckExposure(s, a, i, side, added, price, 0, x) == CheckExposure(s, a, i, side, added, price, 0, y)
  {
    hide GrossFrom, Project, WorstCase;
    NotionalFits(0, x);
    NotionalFits(0, y);
  }

  lemma ExposureDecides(s: State, r: Request, verdict: Option<RejectReason>)
    requires Stands(s, r, 21) && Sized(s, r)
    requires var a := AccountOf(s, r);
      Measured(s.desk.positions[a], s.views, s.accounts[a].limits, ChangeOf(s, r), verdict)
    ensures Decides(s, r, verdict, 26)
  {
    hide Stands, Decides, Misformed, Forbidden, ChangeOf, Fits, Worst, Unpriced, MarkedWith;
    Try(s, r, PositionFits, 26);
    Try(s, r, PositionAllowed, 26);
    Try(s, r, AllPriced, 26);
    Try(s, r, GrossFits, 26);
    Try(s, r, GrossAllowed, 26);
  }

  lemma RiskDecides(s: State, r: Request, c: Change, lots: u64, limit: i64, reference: i64, replaced: u64, replacedPrice: i64)
    requires Stands(s, r, 19) && Sized(s, r) && ReferenceOf(s, r) == Some(reference) && c == ChangeOf(s, r)
    requires c.instrument == InstrumentOf(s, r) && c.added == lots && c.price == limit && c.replaced == replaced
    requires if replaced == 0 then c.replacedPrice == 0 || c.replacedPrice == replacedPrice else c.replacedPrice == replacedPrice
    requires var p := s.desk.positions[AccountOf(s, r)][c.instrument];
      replaced <= p.Open(c.side) && replaced * Abs(replacedPrice) <= p.Notional(c.side)
    ensures Decides(s, r, CheckRisk(s, AccountOf(s, r), c.instrument, c.side, lots, limit, reference, replaced, replacedPrice), 26)
  {
    hide Stands, Decides, Misformed, Forbidden, ChangeOf, Fits, Worst, Unpriced, MarkedWith, CheckExposure, Measured, CheckedNotional;
    var a := AccountOf(s, r);
    NotionalFits(lots, limit);
    Try(s, r, WithinCollar, 26);
    Try(s, r, NotionalAllowed, 26);
    if replaced == 0 {
      NothingReplaced(s, a, c.instrument, c.side, lots, limit, replacedPrice, c.replacedPrice);
    }
    ExposureIsMeasured(s, a, c, lots, limit, replaced, c.replacedPrice);
    if Stands(s, r, 21) {
      ExposureDecides(s, r, CheckExposure(s, a, c.instrument, c.side, lots, limit, replaced, replacedPrice));
    }
  }

  lemma AllDecided(s: State, r: Request, verdict: Option<RejectReason>)
    requires Decides(s, r, verdict, 27) && !r.kind.Cancel?
    ensures Judged(s, r, verdict)
  {
    if verdict.None? {
      forall x: Check ensures !Fails(s, r, x) {
        if Turn(r.kind, x) == NEVER {
          NeverFails(s, r, x);
        }
      }
    }
  }

  lemma NeverFails(s: State, r: Request, x: Check)
    requires !r.kind.Cancel? && Turn(r.kind, x) == NEVER
    ensures !Fails(s, r, x)
  {
    hide Target;
  }

  /** A failure stays the first one, whatever comes after. */
  lemma Later(s: State, r: Request, verdict: Option<RejectReason>, n: nat, m: nat)
    requires Decides(s, r, verdict, n)
    ensures verdict.Some? ==> Decides(s, r, verdict, m)
    ensures verdict.None? ==> Stands(s, r, n)
  {
  }

  // ---- new orders ---------------------------------------------------------

  /** What CheckNew does once the form, the permission and the reference are in order. */
  ghost function NewRisk(s: State, r: Request, reference: i64): Option<RejectReason>
    requires r.instrument in s.cfg.instrumentIds.index
  {
    var a, i := AccountOf(s, r), InstrumentOf(s, r);
    if r.quantity > AccountAt(s, a).limits.maxOrderQuantity then Some(MaxOrderQuantity)
    else
      var limit := if r.orderType.LimitOrder? then Some(r.price) else ProtectionPrice(reference, r.side, s.cfg.protection);
      if limit.None? then Some(ArithmeticOverflow)
      else
        var bad := CheckRisk(s, a, i, r.side, r.quantity, limit.value, reference, 0, limit.value);
        if bad.Some? then bad
        else if BookAt(s.desk, i).Size() >= s.cfg.capacity then Some(CapacityExhausted)
        else None
  }

  lemma NewRiskDecides(s: State, r: Request, reference: i64)
    requires r.kind.New? && r.instrument in s.cfg.instrumentIds.index && Sized(s, r)
    requires Stands(s, r, 17) && ReferenceOf(s, r) == Some(reference)
    ensures Decides(s, r, NewRisk(s, r, reference), 27)
  {
    hide Stands, Decides, Misformed, Forbidden, CheckRisk, Fits, Worst, Unpriced, MarkedWith, ReferenceOf, Target, Sized;
    var c := ChangeOf(s, r);
    Try(s, r, QuantityAllowed, 27);
    Try(s, r, LimitFits, 27);
    if Stands(s, r, 19) && I64_MIN <= c.price <= I64_MAX {
      RiskDecides(s, r, c, r.quantity, c.price, reference, 0, c.price);
      Later(s, r, CheckRisk(s, AccountOf(s, r), c.instrument, r.side, r.quantity, c.price, reference, 0, c.price), 26, 27);
      Try(s, r, RoomInBook, 27);
    }
  }

  lemma NewDecides(s: State, r: Request)
    requires r.kind.New?
    requires r.account in s.cfg.accountIds.index && r.instrument in s.cfg.instrumentIds.index ==> Sized(s, r)
    ensures Decides(s, r, ReasonIn(CheckNew(s, r)), 27)
  {
    hide Stands, Decides, CheckNewForm, CheckPermitted, CheckReference, CheckRisk, Sized, ReferenceOf;
    NewFormDecides(s, r);
    Later(s, r, ReasonIn(CheckNewForm(s, r)), 10, 27);
    if CheckNewForm(s, r).Pass? {
      PermittedDecides(s, r);
      var permitted := CheckPermitted(s, AccountOf(s, r), r.clientSeq);
      Later(s, r, permitted, 14, 27);
      if permitted.None? {
        ReferenceDecides(s, r);
        var reference := CheckReference(s, InstrumentOf(s, r));
        Later(s, r, ReasonIn(reference), 17, 27);
        if reference.Pass? {
          NewRiskDecides(s, r, reference.value);
        }
      }
    }
  }

  // ---- replacements -------------------------------------------------------

  lemma ReplaceFormDecides(s: State, r: Request)
    requires r.kind.Replace?
    ensures Decides(s, r, ReasonIn(CheckReplaceForm(s, r)), 10)
    ensures CheckReplaceForm(s, r).Pass? ==>
      && var c := CheckReplaceForm(s, r).value;
      && c.account == AccountOf(s, r) && c.instrument == InstrumentOf(s, r) && Target(s, r) == Some(c.existing)
      && r.account in s.cfg.accountIds.index && r.instrument in s.cfg.instrumentIds.index
      && c.existing.filled <= r.quantity
  {
    hide Stands, Decides, Lookup, Forbidden, Excessive;
    KnownIds(s, r);
    NothingBefore(s, r);
    Try(s, r, KnownAccount, 10);
    Try(s, r, KnownInstrument, 10);
    Try(s, r, KnownOrder, 10);
    Try(s, r, RestingThere, 10);
    Try(s, r, SameTerms, 10);
    Try(s, r, PriceInDomain, 10);
    Try(s, r, WholeTicks, 10);
    Try(s, r, SomeQuantity, 10);
    Try(s, r, WholeLots, 10);
    Try(s, r, NotBelowFilled, 10);
  }

  /** The resting order is backed by its owner's reservation. */
  ghost predicate Backed(s: State, r: Request) {
    Target(s, r).Some? && Sized(s, r) ==>
      var o, p := Target(s, r).value, s.desk.positions[AccountOf(s, r)][InstrumentOf(s, r)];
      o.filled <= o.total && o.Remaining() <= p.Open(o.side) && o.Remaining() * Abs(o.price) <= p.Notional(o.side)
  }

  lemma ReplaceRiskDecides(s: State, r: Request, o: Order, reference: i64)
    requires r.kind.Replace? && Target(s, r) == Some(o) && Sized(s, r) && Backed(s, r) && o.filled <= r.quantity
    requires Stands(s, r, 17) && ReferenceOf(s, r) == Some(reference)
    ensures var a, i, lots := AccountOf(s, r), InstrumentOf(s, r), r.quantity - o.filled;
      Decides(s, r, if lots > AccountAt(s, a).limits.maxOrderQuantity then Some(MaxOrderQuantity)
                    else CheckRisk(s, a, i, o.side, lots, r.price, reference, o.Remaining(), o.price), 27)
  {
    hide Stands, Decides, Misformed, Forbidden, CheckRisk, Fits, Worst, Unpriced, MarkedWith, ReferenceOf, Target, Sized;
    var c, lots := ChangeOf(s, r), r.quantity - o.filled;
    Try(s, r, QuantityAllowed, 27);
    Try(s, r, LimitFits, 27);
    if Stands(s, r, 19) {
      RiskDecides(s, r, c, lots, r.price, reference, o.Remaining(), o.price);
      Later(s, r, CheckRisk(s, AccountOf(s, r), c.instrument, o.side, lots, r.price, reference, o.Remaining(), o.price), 26, 27);
      Try(s, r, RoomInBook, 27);
    }
  }

  lemma ReplaceDecides(s: State, r: Request)
    requires r.kind.Replace? && Backed(s, r)
    requires r.account in s.cfg.accountIds.index && r.instrument in s.cfg.instrumentIds.index ==> Sized(s, r)
    ensures Decides(s, r, ReasonIn(CheckReplace(s, r)), 27)
  {
    hide Stands, Decides, CheckReplaceForm, CheckPermitted, CheckReference, CheckRisk, Sized, ReferenceOf, Target;
    ReplaceFormDecides(s, r);
    Later(s, r, ReasonIn(CheckReplaceForm(s, r)), 10, 27);
    if CheckReplaceForm(s, r).Pass? {
      PermittedDecides(s, r);
      var permitted := CheckPermitted(s, AccountOf(s, r), r.clientSeq);
      Later(s, r, permitted, 14, 27);
      if permitted.None? {
        ReferenceDecides(s, r);
        var reference := CheckReference(s, InstrumentOf(s, r));
        Later(s, r, ReasonIn(reference), 17, 27);
        if reference.Pass? {
          ReplaceRiskDecides(s, r, CheckReplaceForm(s, r).value.existing, reference.value);
        }
      }
    }
  }
}
