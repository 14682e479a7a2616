/** Retries: re-sending a request while its outcome is still retained returns
    that outcome and changes nothing else. */
module Retries {
  import opened Domain
  import opened Accounts
  import opened Core
  import opened Safety
  import opened Runs
  import opened Cache
  import Market

  // ---- the retained outcomes of one account -------------------------------

  /** The newest entry under a request id is this one, with at most `after`
      entries behind it. */
  ghost predicate Retained(cache: seq<Cached>, e: Cached, after: nat) {
    exists k: nat :: Newest(cache, k) && |cache| - 1 - k <= after && cache[k] == e
  }

  /** An entry survives another entry under a different id while fewer than
      the window have followed it. */
  lemma RecordRetains(cache: seq<Cached>, e: Cached, after: nat, other: Cached, window: nat)
    requires Retained(cache, e, after) && other.requestId != e.requestId && after + 1 < window
    ensures Retained(CacheRecord(cache, other, window), e, after + 1)
  {
    var k: nat :| Newest(cache, k) && |cache| - 1 - k <= after && cache[k] == e;
    var all := cache + [other];
    var r := CacheRecord(cache, other, window);
    var cut := |all| - |r|;
    assert r == all[cut..];
    assert r[k - cut] == e;
    forall j | k - cut < j < |r| ensures r[j].requestId != e.requestId {
      assert r[j] == all[j + cut];
    }
    assert Newest(r, k - cut);
  }

  lemma RecordNewest(cache: seq<Cached>, e: Cached, window: nat)
    requires window > 0
    ensures Retained(CacheRecord(cache, e, window), e, 0)
  {
    var r := CacheRecord(cache, e, window);
    assert Newest(r, |r| - 1) && r[|r| - 1] == e;
  }

  lemma RetainedHits(cache: seq<Cached>, e: Cached, after: nat)
    requires Retained(cache, e, after)
    ensures CacheLookup(cache, e.requestId, e.fingerprint) == Retry(e.report)
  {
    var k: nat :| Newest(cache, k) && |cache| - 1 - k <= after && cache[k] == e;
    LookupFinds(cache, k, e.fingerprint);
  }

  // ---- across inputs ------------------------------------------------------

  lemma RecordAccounts(s: State, a: nat, r: Request, report: Report, b: nat)
    requires b < |s.accounts|
    ensures |RecordOutcome(s, a, r, report).accounts| == |s.accounts|
    ensures AccountAt(RecordOutcome(s, a, r, report), b).cache
         == if a == b then CacheRecord(s.accounts[b].cache, Cached(r.requestId, s.cfg.fingerprint(r), report), s.cfg.window)
            else s.accounts[b].cache
  {
  }

  ghost predicate Records(s: State, r: Request, b: nat)
    requires b < |s.accounts| == |s.cfg.accountIds.ids|
  {
    && r.account == s.cfg.accountIds.ids[b]
    && !CacheLookup(s.accounts[b].cache, r.requestId, s.cfg.fingerprint(r)).Retry?
  }

  /** A request touches the cache of its own account only, and there records
      its final report under its own id unless it is a retry. */
  lemma RequestCaches(s: State, r: Request, b: nat)
    requires b < |s.accounts| == |s.cfg.accountIds.ids|
    ensures var e := ApplyRequest(s, r);
      && |e.state.accounts| == |s.accounts|
      && e.out != [] && e.out[|e.out| - 1].ReportOut?
      && e.state.accounts[b].cache ==
           if Records(s, r, b) then
             CacheRecord(s.accounts[b].cache, Cached(r.requestId, s.cfg.fingerprint(r), e.out[|e.out| - 1].report), s.cfg.window)
           else s.accounts[b].cache
  {
    hide Handle, CacheLookup, CacheRecord, RecordOutcome, TakeSeq, BaseReport;
    HandleFramed(s, r);
    var known := r.account in s.cfg.accountIds.index;
    var a := if known then s.cfg.accountIds.index[r.account] else 0;
    var h, c := Handle(s, r), Reject(s, r, DuplicateRequestConflict, []);
    RecordAccounts(h.state, a, r, h.report, b);
    SeqAccounts(s);
    RecordAccounts(c.state, a, r, c.report, b);
  }

  lemma SeqAccounts(s: State)
    ensures TakeSeq(s).accounts == s.accounts && TakeSeq(s).cfg == s.cfg
  {
  }

  lemma StepCaches(s: State, input: Input, b: nat)
    requires b < |s.accounts| == |s.cfg.accountIds.ids|
    ensures var e := Step(s, input);
      && |e.state.accounts| == |s.accounts| && e.state.cfg == s.cfg
      && if s.fault.None? && s.engineSeq < U64_MAX && input.event.OrderInput? && Records(s, input.event.request, b) then
           && e.out != [] && e.out[|e.out| - 1].ReportOut?
           && e.state.accounts[b].cache == CacheRecord(s.accounts[b].cache,
                Cached(input.event.request.requestId, s.cfg.fingerprint(input.event.request), e.out[|e.out| - 1].report),
                s.cfg.window)
         else e.state.accounts[b].cache == s.accounts[b].cache
  {
    hide ApplyRequest, ApplyMarket, ApplyControl, CacheRecord, CacheLookup;
    StepConfig(s, input);
    if s.fault.None? && Successor(s.engineSeq).Some? {
      var s1 := s.(engineSeq := s.engineSeq + 1, time := input.recvTimeNs);
      match input.event {
        case MarketInput(e) => MarketCaches(s1, e);
        case OrderInput(r) => RequestCaches(s1, r, b);
        case ControlInput(c) => ControlCaches(s1, c, b);
      }
    }
  }

  lemma MarketCaches(s: State, e: MarketEvent)
    ensures ApplyMarket(s, e).state.accounts == s.accounts
  {
    hide Market.Apply;
  }

  lemma ControlCaches(s: State, c: Command, b: nat)
    requires b < |s.accounts|
    ensures |ApplyControl(s, c).state.accounts| == |s.accounts|
    ensures ApplyControl(s, c).state.accounts[b].cache == s.accounts[b].cache
  {
  }

  /** The input adds an entry to the cache of account b: a request of that
      account that is not itself a retry. */
  ghost predicate Adds(s: State, input: Input, b: nat) {
    && s.fault.None? && s.engineSeq < U64_MAX && input.event.OrderInput?
    && b < |s.accounts| == |s.cfg.accountIds.ids| && Records(s, input.event.request, b)
  }

  /** How many entries a run adds to the cache of account b. */
  ghost function Added(s: State, inputs: seq<Input>, b: nat): nat
    decreases |inputs|
  {
    if inputs == [] then 0
    else
      var n := |inputs| - 1;
      Added(s, inputs[..n], b) + if Adds(Run(s, inputs[..n]).state, inputs[n], b) then 1 else 0
  }

  /** Whatever the account sends under this id is the same request again. */
  ghost predicate Undisputed(cfg: Config, inputs: seq<Input>, account: u32, requestId: u64, fingerprint: u64) {
    forall k :: 0 <= k < |inputs| && Under(inputs[k], account, requestId) ==>
      cfg.fingerprint(inputs[k].event.request) == fingerprint
  }

  predicate Under(input: Input, account: u32, requestId: u64) {
    && input.event.OrderInput?
    && input.event.request.account == account && input.event.request.requestId == requestId
  }

  lemma {:induction false} RunRetains(s: State, inputs: seq<Input>, b: nat, e: Cached)
    requires b < |s.accounts| == |s.cfg.accountIds.ids|
    requires Retained(s.accounts[b].cache, e, 0)
    requires Undisputed(s.cfg, inputs, s.cfg.accountIds.ids[b], e.requestId, e.fingerprint)
    requires Added(s, inputs, b) < s.cfg.window
    ensures var t := Run(s, inputs).state;
      && |t.accounts| == |s.accounts| && t.cfg == s.cfg
      && Retained(t.accounts[b].cache, e, Added(s, inputs, b))
    decreases |inputs|
  {
    hide Step, CacheRecord, Retained, CacheLookup;
    if inputs != [] {
      var n := |inputs| - 1;
      RunRetains(s, inputs[..n], b, e);
      var t := Run(s, inputs[..n]).state;
      StepCaches(t, inputs[n], b);
      var after := Added(s, inputs[..n], b);
      RetainedHits(t.accounts[b].cache, e, after);
      if Adds(t, inputs[n], b) {
        var r, last := inputs[n].event.request, Step(t, inputs[n]);
        RecordRetains(t.accounts[b].cache, e, after,
                      Cached(r.requestId, s.cfg.fingerprint(r), last.out[|last.out| - 1].report), s.cfg.window);
      }
    }
  }

  /** A retained request only takes a sequence and repeats its report. */
  lemma RetryRepeats(s: State, input: Input, a: nat, e: Cached, after: nat)
    requires s.fault.None? && s.engineSeq < U64_MAX && input.event.OrderInput?
    requires var r := input.event.request;
      && r.account in s.cfg.accountIds.index && s.cfg.accountIds.index[r.account] == a && a < |s.accounts|
      && e.requestId == r.requestId && e.fingerprint == s.cfg.fingerprint(r)
    requires Retained(s.accounts[a].cache, e, after)
    ensures var t := Step(s, input);
      && t.out == [ReportOut(e.report.(outputSeq := t.state.outputSeq, engineSeq := t.state.engineSeq, timeNs := t.state.time))]
      && t.state == s.(engineSeq := s.engineSeq + 1, time := input.recvTimeNs, outputSeq := t.state.outputSeq, fault := t.state.fault)
  {
    hide Handle, CacheLookup, CacheRecord, Retained;
    RetainedHits(s.accounts[a].cache, e, after);
  }

  /** Sending a request, then any inputs that add fewer than the window of
      entries to that account's cache, among them any number of retries and
      nothing else under its id, then the request again: the same report comes
      back, up to sequences and time, and books, positions, registries, accounts
      and ids are as they were. */
  lemma RetryIsIdempotent(s: State, caps: seq<Cap>, first: Input, middle: seq<Input>, again: Input)
    requires Good(s, caps) && s.fault.None? && first.event.OrderInput? && again.event == first.event
    requires first.event.request.account in s.cfg.accountIds.index
    requires var r := first.event.request;
      var a := s.cfg.accountIds.index[r.account];
      var one := Step(s, first).state;
      && a < |s.accounts| && !CacheLookup(s.accounts[a].cache, r.requestId, s.cfg.fingerprint(r)).Retry?
      && s.engineSeq < U64_MAX
      && Undisputed(s.cfg, middle, r.account, r.requestId, s.cfg.fingerprint(r))
      && Added(one, middle, a) < s.cfg.window
      && Run(one, middle).state.fault.None? && Run(one, middle).state.engineSeq < U64_MAX
    ensures var one := Step(s, first);
      var before := Run(one.state, middle).state;
      var t := Step(before, again);
      && one.out != [] && one.out[|one.out| - 1].ReportOut?
      && t.out == [ReportOut(one.out[|one.out| - 1].report.(outputSeq := t.state.outputSeq,
                                                            engineSeq := t.state.engineSeq, timeNs := t.state.time))]
      && t.state.desk == before.desk && t.state.accounts == before.accounts && t.state.nextOrder == before.nextOrder
      && t.state.nextTrade == before.nextTrade && t.state.nextPriority == before.nextPriority
  {
    hide Step, Sound, BooksOk, CacheRecord, Run, Retained, CacheLookup, Added, Undisputed;
    var r := first.event.request;
    var a := s.cfg.accountIds.index[r.account];
    var one := Step(s, first);
    StepCaches(s, first, a);
    var e := Cached(r.requestId, s.cfg.fingerprint(r), one.out[|one.out| - 1].report);
    RecordNewest(s.accounts[a].cache, e, s.cfg.window);
    RunRetains(one.state, middle, a, e);
    RetryRepeats(Run(one.state, middle).state, again, a, e, Added(one.state, middle, a));
  }
}
