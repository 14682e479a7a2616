/** What every request the cache does not remember comes to, whatever it asks. */
module Requests {
  import opened Domain
  import opened Core
  import Cache

  /** Nothing remembered for the account bears the request's id. */
  ghost predicate Novel(s: State, r: Request) {
    r.account in s.cfg.accountIds.index ==>
      var cache := AccountAt(s, s.cfg.accountIds.index[r.account]).cache;
      forall k :: 0 <= k < |cache| ==> cache[k].requestId != r.requestId
  }

  lemma {:induction false} UnknownMisses(cache: seq<Cached>, requestId: u64, fingerprint: u64)
    ensures CacheLookup(cache, requestId, fingerprint).Miss? <==> forall k :: 0 <= k < |cache| ==> cache[k].requestId != requestId
  {
    if cache != [] {
      var n := |cache| - 1;
      UnknownMisses(cache[..n], requestId, fingerprint);
      assert cache == cache[..n] + [cache[n]];
    }
  }

  /** The final report of what was emitted. */
  function Final(out: seq<Output>): Option<Report> {
    if out != [] && out[|out| - 1].ReportOut? then Some(out[|out| - 1].report) else None
  }

  /** From s to e the accounts differ only in what one of them remembers, and its
      last client sequence is the request's if that was accepted and carries one. */
  ghost predicate Remembers(s: State, e: State, r: Request, report: Report) {
    && |e.accounts| == |s.accounts|
    && forall a :: 0 <= a < |s.accounts| ==>
         if r.account in s.cfg.accountIds.index && a == s.cfg.accountIds.index[r.account] then
           && e.accounts[a] == s.accounts[a].(cache := e.accounts[a].cache, lastSeq := e.accounts[a].lastSeq)
           && e.accounts[a].lastSeq == (if report.reject.None? && r.clientSeq > 0 then r.clientSeq else s.accounts[a].lastSeq)
         else e.accounts[a] == s.accounts[a]
  }

  /** A novel request is handled, its report comes last and is remembered. */
  lemma NovelIsHandled(s: State, r: Request)
    requires Novel(s, r) && Handle(s, r).state.cfg == s.cfg
    ensures var e, h := ApplyRequest(s, r), Handle(s, r);
      && e.out == h.out + [ReportOut(h.report)] && Final(e.out) == Some(h.report)
      && e.state == h.state.(accounts := e.state.accounts) && Remembers(h.state, e.state, r, h.report)
  {
    hide Handle, CacheLookup, CacheRecord;
    if r.account in s.cfg.accountIds.index {
      UnknownMisses(AccountAt(s, s.cfg.accountIds.index[r.account]).cache, r.requestId, s.cfg.fingerprint(r));
    }
  }

  /** The newest entry under the request's id was for other content. */
  ghost predicate Conflicting(s: State, r: Request) {
    && r.account in s.cfg.accountIds.index
    && var cache := AccountAt(s, s.cfg.accountIds.index[r.account]).cache;
    exists k :: 0 <= k < |cache| && Cache.Newest(cache, k) && cache[k].requestId == r.requestId
                && cache[k].fingerprint != s.cfg.fingerprint(r)
  }

  /** A known id with other content is refused, and the desk stays as it is. */
  lemma ConflictIsRefused(s: State, r: Request)
    requires Conflicting(s, r)
    ensures var e := ApplyRequest(s, r);
      && |e.out| == 1 && Final(e.out).Some? && Final(e.out).value.reject == Some(DuplicateRequestConflict)
      && e.state.desk == s.desk && Remembers(s, e.state, r, Final(e.out).value)
  {
    hide Handle, CacheLookup, CacheRecord;
    var cache := AccountAt(s, s.cfg.accountIds.index[r.account]).cache;
    var k :| 0 <= k < |cache| && Cache.Newest(cache, k) && cache[k].requestId == r.requestId
             && cache[k].fingerprint != s.cfg.fingerprint(r);
    Cache.LookupFinds(cache, k, s.cfg.fingerprint(r));
  }
}
