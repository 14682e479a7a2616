/** A rejected request leaves nothing behind but its report and its entry in
    the account's request cache. */
module Rejections {
  import opened Domain
  import opened Ledger
  import opened Core

  lemma NewRejected(s: State, r: Request)
    requires HandleNew(s, r).report.reject.Some? && HandleNew(s, r).state.fault.None?
    ensures HandleNew(s, r).state == TakeSeq(s) && HandleNew(s, r).out == []
  {
    hide CheckNew, Execute, Filling, RestOrder;
  }

  lemma CancelRejected(s: State, r: Request)
    requires HandleCancel(s, r).report.reject.Some? && HandleCancel(s, r).state.fault.None?
    ensures HandleCancel(s, r).state == TakeSeq(s) && HandleCancel(s, r).out == []
  {
    hide Withdraw;
  }

  lemma InPlaceAccepts(s: State, r: Request, c: Replacement)
    requires r.quantity < c.existing.total
    ensures var h := ReplaceInPlace(s, r, c); h.report.reject.None? || h.state.fault.Some?
  {
    hide Shrink;
  }

  lemma AnewAccepts(s: State, r: Request, c: Replacement)
    ensures var h := ReplaceAnew(s, r, c); h.report.reject.None? || h.state.fault.Some?
  {
    hide Execute, Filling, RestOrder;
  }

  lemma ReplaceRejected(s: State, r: Request)
    requires HandleReplace(s, r).report.reject.Some? && HandleReplace(s, r).state.fault.None?
    ensures HandleReplace(s, r).state == TakeSeq(s) && HandleReplace(s, r).out == []
  {
    hide CheckReplace, Withdraw, ReplaceInPlace, ReplaceAnew;
    var check := CheckReplace(s, r);
    if check.Pass? {
      var c := check.value;
      if r.quantity < c.existing.total {
        InPlaceAccepts(s, r, c);
      }
      AnewAccepts(s.On(Withdraw(s.desk, c.account, c.instrument, c.existing)), r, c);
    }
  }

  /** The states differ at most in what an account remembers of its requests. */
  ghost predicate OnlyRemembers(s: State, e: State) {
    && e == s.(accounts := e.accounts) && |e.accounts| == |s.accounts|
    && forall a :: 0 <= a < |s.accounts| ==> e.accounts[a] == s.accounts[a].(cache := e.accounts[a].cache)
  }

  lemma RecordedRejection(s: State, a: nat, r: Request, report: Report)
    requires report.reject.Some?
    ensures OnlyRemembers(s, RecordOutcome(s, a, r, report))
  {
  }

  /** Whenever the final report of a request carries a reject reason, it is the
      only event, and books, positions, registries, limits, client sequences and
      ids are as they were. */
  lemma RejectionChangesNothing(s: State, r: Request)
    requires var e := ApplyRequest(s, r);
      e.state.fault.None? && e.out != [] && e.out[|e.out| - 1].ReportOut? && e.out[|e.out| - 1].report.reject.Some?
    ensures var e := ApplyRequest(s, r);
      |e.out| == 1 && OnlyRemembers(TakeSeq(s), e.state)
  {
    hide HandleNew, HandleCancel, HandleReplace, CacheLookup, RecordOutcome, OnlyRemembers;
    var known := r.account in s.cfg.accountIds.index;
    var a := if known then s.cfg.accountIds.index[r.account] else 0;
    var hit := if known then CacheLookup(AccountAt(s, a).cache, r.requestId, s.cfg.fingerprint(r)) else Miss;
    Unchanged(TakeSeq(s));
    match hit {
      case Retry(_) =>
      case Conflict =>
        var h := Reject(s, r, DuplicateRequestConflict, []);
        RecordedRejection(h.state, a, r, h.report);
      case Miss =>
        var h := Handle(s, r);
        Faultless(h.state, a, r, h.report);
        HandleRejected(s, r);
        RecordedRejection(h.state, a, r, h.report);
    }
  }

  lemma Unchanged(s: State)
    ensures OnlyRemembers(s, s)
  {
  }

  lemma Faultless(s: State, a: nat, r: Request, report: Report)
    ensures RecordOutcome(s, a, r, report).fault == s.fault
  {
  }

  lemma HandleRejected(s: State, r: Request)
    requires Handle(s, r).report.reject.Some? && Handle(s, r).state.fault.None?
    ensures Handle(s, r).state == TakeSeq(s) && Handle(s, r).out == []
  {
    hide HandleNew, HandleCancel, HandleReplace;
    match r.kind {
      case New => NewRejected(s, r);
      case Cancel => CancelRejected(s, r);
      case Replace => ReplaceRejected(s, r);
    }
  }
}
