/** What the final report of a new order or a replacement says, and what a request
    that was accepted had to be. */
module Verdicts {
  import opened Domain
  import opened PriceTime
  import opened Ledger
  import opened Core
  import opened Accounts
  import opened Safety
  import opened Margin
  import opened Admission
  import opened Requests
  import Halts

  // ---- the invariant behind the checks ------------------------------------

  lemma GoodSized(s: State, caps: seq<Cap>, r: Request)
    requires Good(s, caps)
    ensures r.account in s.cfg.accountIds.index && r.instrument in s.cfg.instrumentIds.index ==> Sized(s, r)
  {
    hide Orderlies, Keyed, Reserved, Roomy, BooksOk;
  }

  lemma TargetOwned(s: State, caps: seq<Cap>, r: Request)
    requires Good(s, caps) && Target(s, r).Some? && Sized(s, r)
    ensures var o, i := Target(s, r).value, InstrumentOf(s, r);
      && Lookup(BookAt(s.desk, i), o.id) == Some(o) && o.owner == Owner(r.account, r.target)
      && r.account in s.cfg.accountIds.index && i < |s.desk.books|
  {
    hide Good, Keyed, Lookup;
    GoodKeyed(s, caps);
    var key := Owner(r.account, r.target);
    ClientOrder(s.cfg.accountIds, s.desk, key);
    InOneBook(s.cfg.accountIds, s.desk, InstrumentOf(s, r), s.desk.clients[key]);
  }

  lemma InOneBook(r: Roster, d: Desk, i: nat, id: u64)
    requires Keyed(r, d) && Lookup(BookAt(d, i), id).Some?
    ensures id in d.live && d.live[id].instrument == i
  {
    hide Lookup;
    assert Listed(d, i, id);
  }

  lemma GoodBacked(s: State, caps: seq<Cap>, r: Request)
    requires Good(s, caps)
    ensures Backed(s, r)
  {
    hide Good, Lookup, Withdraw;
    if Target(s, r).Some? && Sized(s, r) {
      var o, a, i := Target(s, r).value, AccountOf(s, r), InstrumentOf(s, r);
      TargetOwned(s, caps, r);
      WithdrawGood(s, caps, a, i, o);
      LoweredBacks(Pos(s.desk, a, i), Pos(Withdraw(s.desk, a, i, o).desk, a, i), o);
    }
  }

  lemma LoweredBacks(p: Position, p': Position, o: Order)
    requires Lowered(p, p', o) && o.filled <= o.total
    ensures o.Remaining() <= p.Open(o.side) && o.Remaining() * Abs(o.price) <= p.Notional(o.side)
  {
    assert p'.Booked(InLots, o.side) == p'.Open(o.side) && p'.Booked(InNotional, o.side) == p'.Notional(o.side);
    ValueMinus(InNotional, 0, o.Remaining(), o.price);
  }

  // ---- the final report ---------------------------------------------------

  lemma NewAnswered(s: State, r: Request)
    requires HandleNew(s, r).state.fault.None?
    ensures HandleNew(s, r).report.reject == ReasonIn(CheckNew(s, r))
  {
    hide CheckNew, Execute, Filling, RestOrder;
    if CheckNew(s, r).Pass? && Successor(s.nextOrder).Some? {
      var c := CheckNew(s, r).value;
      var x := Taker(c.account, c.instrument, r, s.nextOrder + 1, r.side, r.quantity);
      var filled := Filling(s, x, c.limit);
    }
  }

  lemma ReplaceAnswered(s: State, r: Request)
    requires HandleReplace(s, r).state.fault.None?
    ensures HandleReplace(s, r).report.reject == ReasonIn(CheckReplace(s, r))
  {
    hide CheckReplace, Execute, Filling, RestOrder, Withdraw, Shrink, Remove;
    if CheckReplace(s, r).Pass? {
      NotBelow(s, r);
    }
  }

  lemma NotBelow(s: State, r: Request)
    requires CheckReplace(s, r).Pass?
    ensures CheckReplace(s, r).value.existing.filled <= r.quantity
  {
    hide CheckRisk, CheckQuantity, CheckPrice, CheckReference, CheckPermitted, Lookup;
  }

  /** The final report of a new order or a replacement that is not remembered gives
      the reason of the first check that fails, and is no rejection if all hold. */
  lemma RequestIsJudged(s: State, caps: seq<Cap>, r: Request)
    requires Good(s, caps) && s.fault.None? && !r.kind.Cancel? && Novel(s, r) && ApplyRequest(s, r).state.fault.None?
    ensures Final(ApplyRequest(s, r).out).Some? && Judged(s, r, Final(ApplyRequest(s, r).out).value.reject)
  {
    hide Good, ApplyRequest, HandleNew, HandleReplace, CheckNew, CheckReplace, Judged, Decides, Novel, Backed, Sized;
    HandleFramed(s, r);
    NovelIsHandled(s, r);
    GoodSized(s, caps, r);
    GoodBacked(s, caps, r);
    if r.kind.New? {
      NewAnswered(s, r);
      NewDecides(s, r);
      AllDecided(s, r, ReasonIn(CheckNew(s, r)));
    } else {
      ReplaceAnswered(s, r);
      ReplaceDecides(s, r);
      AllDecided(s, r, ReasonIn(CheckReplace(s, r)));
    }
  }

  /** The checks leave no choice of verdict. */
  lemma OneVerdict(s: State, r: Request, v: Option<RejectReason>, w: Option<RejectReason>)
    requires Judged(s, r, v) && Judged(s, r, w) && !r.kind.Cancel?
    ensures v == w
  {
    hide Fails;
    if v.Some? && w.Some? {
      var x: Check :| FirstFailure(s, r, x) && ReasonOf(x) == v.value;
      var y: Check :| FirstFailure(s, r, y) && ReasonOf(y) == w.value;
      SameFailure(s, r, x, y);
    }
  }

  lemma SameFailure(s: State, r: Request, x: Check, y: Check)
    requires FirstFailure(s, r, x) && FirstFailure(s, r, y) && !r.kind.Cancel?
    ensures x == y
  {
    hide Fails;
    if x != y {
      if Turn(r.kind, x) == NEVER {
        NeverFails(s, r, x);
      } else {
        TurnsDiffer(r.kind, x, y);
      }
    }
  }

  lemma FirstDecides(s: State, r: Request, verdict: Option<RejectReason>, x: Check)
    requires Judged(s, r, verdict) && !r.kind.Cancel? && FirstFailure(s, r, x)
    ensures verdict == Some(ReasonOf(x))
  {
    hide Fails, ReasonOf;
    if verdict.Some? {
      var y: Check :| FirstFailure(s, r, y) && ReasonOf(y) == verdict.value;
      SameFailure(s, r, x, y);
    }
  }

  /** A check that comes to decide gives its reason if and only if it fails, provided
      no other check has that reason. */
  lemma DecidesExactly(s: State, r: Request, verdict: Option<RejectReason>, x: Check)
    requires Judged(s, r, verdict) && !r.kind.Cancel? && Stands(s, r, Turn(r.kind, x))
    requires forall y: Check :: ReasonOf(y) == ReasonOf(x) ==> y == x
    ensures verdict == Some(ReasonOf(x)) <==> Fails(s, r, x)
  {
    hide Fails, ReasonOf;
    if Fails(s, r, x) {
      FirstDecides(s, r, verdict, x);
    }
  }

  // ---- exposure -----------------------------------------------------------

  /** Gross exposure of the account at the reference prices, with the order asked for
      in and the order replaced out. */
  ghost function GrossAfter(s: State, r: Request): int
    requires Sized(s, r)
  {
    MarkedWith(s.desk.positions[AccountOf(s, r)], s.views, |s.views|, ChangeOf(s, r))
  }

  ghost function WorstAfter(s: State, r: Request): int
    requires Sized(s, r)
  {
    Worst(s.desk.positions[AccountOf(s, r)][InstrumentOf(s, r)], ChangeOf(s, r))
  }

  lemma ExcessMeans(s: State, r: Request)
    requires Sized(s, r)
    ensures var limits := s.accounts[AccountOf(s, r)].limits;
      && (Fails(s, r, GrossAllowed) <==> GrossAfter(s, r) > limits.maxGrossExposure)
      && (Fails(s, r, PositionAllowed) <==> Abs(WorstAfter(s, r)) > limits.maxPositionLots)
  {
    hide Misformed, Forbidden, MarkedWith, Worst, ChangeOf;
    Concerns(s, r, GrossAllowed);
    Concerns(s, r, PositionAllowed);
    ChangeThere(s, r);
  }

  /** Whatever is accepted leaves the worst position and the marked gross exposure
      within the account's limits. */
  lemma AcceptedWithinLimits(s: State, caps: seq<Cap>, r: Request)
    requires Good(s, caps) && s.fault.None? && !r.kind.Cancel? && Novel(s, r) && ApplyRequest(s, r).state.fault.None?
    requires Final(ApplyRequest(s, r).out).Some? && Final(ApplyRequest(s, r).out).value.reject.None?
    ensures Sized(s, r)
    ensures var limits := s.accounts[AccountOf(s, r)].limits;
      GrossAfter(s, r) <= limits.maxGrossExposure && Abs(WorstAfter(s, r)) <= limits.maxPositionLots
  {
    hide Good, ApplyRequest, Novel, GrossAfter, WorstAfter, Sized, Fails;
    RequestIsJudged(s, caps, r);
    assert !Fails(s, r, KnownAccount) && !Fails(s, r, KnownInstrument);
    assert !Fails(s, r, GrossAllowed) && !Fails(s, r, PositionAllowed);
    KnownNames(s, r);
    GoodSized(s, caps, r);
    ExcessMeans(s, r);
  }

  lemma KnownNames(s: State, r: Request)
    requires !Fails(s, r, KnownAccount) && !Fails(s, r, KnownInstrument)
    ensures r.account in s.cfg.accountIds.index && r.instrument in s.cfg.instrumentIds.index
  {
    hide Excessive, Forbidden;
    KnownIds(s, r);
  }

  lemma ChangeThere(s: State, r: Request)
    ensures ChangeOf(s, r).instrument == InstrumentOf(s, r)
  {
  }

  /** A request that passes every earlier check is refused for its gross exposure if
      and only if the marked sum exceeds the account's limit. */
  lemma GrossExactly(s: State, caps: seq<Cap>, r: Request)
    requires Good(s, caps) && s.fault.None? && !r.kind.Cancel? && Novel(s, r) && ApplyRequest(s, r).state.fault.None?
    requires Stands(s, r, Turn(r.kind, GrossAllowed))
    ensures Sized(s, r) && Final(ApplyRequest(s, r).out).Some?
    ensures Final(ApplyRequest(s, r).out).value.reject == Some(MaxGrossExposure)
      <==> GrossAfter(s, r) > s.accounts[AccountOf(s, r)].limits.maxGrossExposure
  {
    hide Good, ApplyRequest, Novel, GrossAfter, Sized, Fails, Judged;
    RequestIsJudged(s, caps, r);
    assert !Fails(s, r, KnownAccount) && !Fails(s, r, KnownInstrument);
    KnownNames(s, r);
    GoodSized(s, caps, r);
    ExcessMeans(s, r);
    DecidesExactly(s, r, Final(ApplyRequest(s, r).out).value.reject, GrossAllowed);
  }

  // ---- permission ---------------------------------------------------------

  lemma PermissionMeans(s: State, r: Request)
    ensures var account := AccountAt(s, AccountOf(s, r));
      && (Fails(s, r, KillOff) <==> s.kill) && (Fails(s, r, AccountEnabled) <==> !account.enabled)
      && (Fails(s, r, Sequenced) <==> r.clientSeq == 0) && (Fails(s, r, SequenceFresh) <==> r.clientSeq <= account.lastSeq)
  {
    hide Misformed, Excessive, AccountAt;
    Concerns(s, r, KillOff);
    Concerns(s, r, AccountEnabled);
    Concerns(s, r, Sequenced);
    Concerns(s, r, SequenceFresh);
  }

  /** In the source's order: the kill switch, then whether the account is enabled,
      then that a client sequence is given, then that it is new. */
  lemma PermissionExactly(s: State, caps: seq<Cap>, r: Request)
    requires Good(s, caps) && s.fault.None? && !r.kind.Cancel? && Novel(s, r) && ApplyRequest(s, r).state.fault.None?
    requires Stands(s, r, Turn(r.kind, KillOff))
    ensures Final(ApplyRequest(s, r).out).Some?
    ensures var reject, account := Final(ApplyRequest(s, r).out).value.reject, AccountAt(s, AccountOf(s, r));
      && (reject == Some(GlobalKillActive) <==> s.kill)
      && (reject == Some(AccountDisabled) <==> !s.kill && !account.enabled)
      && (reject == Some(SequenceTooOld) <==> !s.kill && account.enabled && 0 < r.clientSeq <= account.lastSeq)
  {
    hide Good, ApplyRequest, Novel, Fails, Judged, Stands;
    PermissionMeans(s, r);
    RequestIsJudged(s, caps, r);
    var reject := Final(ApplyRequest(s, r).out).value.reject;
    DecidesExactly(s, r, reject, KillOff);
    if !s.kill {
      Holds(s, r, KillOff);
      DecidesExactly(s, r, reject, AccountEnabled);
      if AccountAt(s, AccountOf(s, r)).enabled {
        Holds(s, r, AccountEnabled);
        if r.clientSeq == 0 {
          FirstDecides(s, r, reject, Sequenced);
        } else {
          Holds(s, r, Sequenced);
          DecidesExactly(s, r, reject, SequenceFresh);
        }
      }
    }
  }

  ghost predicate Repeated(s: State, r: Request) {
    && r.account in s.cfg.accountIds.index
    && CacheLookup(AccountAt(s, s.cfg.accountIds.index[r.account]).cache, r.requestId, s.cfg.fingerprint(r)).Retry?
  }

  /** In every state, a new order or a replacement that is answered without a
      rejection, and is no retry, comes with the kill switch released, from an enabled
      account, under a client sequence above the account's last, for a live feed. */
  lemma AcceptedIsPermitted(s: State, r: Request)
    requires !r.kind.Cancel? && !Repeated(s, r)
    requires Final(ApplyRequest(s, r).out).Some? && Final(ApplyRequest(s, r).out).value.reject.None?
    ensures Halts.Open(s, r)
  {
    hide CacheLookup, CacheRecord, HandleNew, HandleReplace, HandleCancel, CheckNew, CheckReplace, Halts.Open;
    if r.kind.New? {
      NewPasses(s, r);
      if CheckNew(s, r).Pass? {
        Halts.NewOpen(s, r);
      }
    } else {
      ReplacePasses(s, r);
      if CheckReplace(s, r).Pass? {
        Halts.ReplaceOpen(s, r);
      }
    }
  }

  lemma NewPasses(s: State, r: Request)
    ensures HandleNew(s, r).report.reject.None? ==> CheckNew(s, r).Pass?
  {
    hide CheckNew, Execute, Filling, RestOrder;
  }

  lemma ReplacePasses(s: State, r: Request)
    ensures HandleReplace(s, r).report.reject.None? ==> CheckReplace(s, r).Pass?
  {
    hide CheckReplace, ReplaceInPlace, ReplaceAnew;
  }

  /** The last client sequence of an account is that of its last accepted request
      that carries one: a step moves it exactly when it accepts such a request. */
  lemma SequenceFollows(s: State, input: Input, a: nat)
    requires s.fault.None? && s.engineSeq < U64_MAX && a < |s.accounts| == |s.cfg.accountIds.ids|
    ensures var e := Step(s, input);
      && |e.state.accounts| == |s.accounts|
      && e.state.accounts[a].lastSeq ==
           if && input.event.OrderInput? && input.event.request.account == s.cfg.accountIds.ids[a]
              && !Repeated(s, input.event.request) && input.event.request.clientSeq > 0
              && Final(e.out).Some? && Final(e.out).value.reject.None?
           then input.event.request.clientSeq else s.accounts[a].lastSeq
  {
    hide ApplyRequest, ApplyMarket, ApplyControl;
    var s1 := s.(engineSeq := s.engineSeq + 1, time := input.recvTimeNs);
    match input.event {
      case MarketInput(e) => MarketLeaves(s1, e);
      case OrderInput(r) => RequestSequence(s1, r, a);
      case ControlInput(c) => ControlLeaves(s1, c, a);
    }
  }

  lemma MarketLeaves(s: State, e: MarketEvent)
    ensures ApplyMarket(s, e).state.accounts == s.accounts
  {
  }

  lemma ControlLeaves(s: State, c: Command, a: nat)
    requires a < |s.accounts|
    ensures |ApplyControl(s, c).state.accounts| == |s.accounts|
    ensures ApplyControl(s, c).state.accounts[a].lastSeq == s.accounts[a].lastSeq
  {
  }

  lemma RequestSequence(s: State, r: Request, a: nat)
    requires a < |s.accounts| == |s.cfg.accountIds.ids|
    ensures var e := ApplyRequest(s, r);
      && |e.state.accounts| == |s.accounts|
      && e.state.accounts[a].lastSeq ==
           if && r.account == s.cfg.accountIds.ids[a] && !Repeated(s, r) && r.clientSeq > 0
              && Final(e.out).Some? && Final(e.out).value.reject.None?
           then r.clientSeq else s.accounts[a].lastSeq
  {
    hide CacheLookup, CacheRecord, Handle, TakeSeq;
    HandleFramed(s, r);
    TakeSeqFields(s);
  }
}
