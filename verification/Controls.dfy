/** Operator commands and market events: what they change, what they announce, and
    that they touch nothing else. */
module Controls {
  import opened Domain
  import opened Core
  import Market

  /** Everything but the switch, the accounts and the counters is as it was. */
  ghost predicate Elsewhere(s: State, e: State) {
    e == s.(kill := e.kill, accounts := e.accounts, engineSeq := e.engineSeq, time := e.time, outputSeq := e.outputSeq,
            fault := e.fault)
  }

  /** The event announces the change, or nothing is said. */
  ghost predicate Announces(out: seq<Output>, said: Option<StateChange>) {
    match said
    case None => out == []
    case Some(change) => |out| == 1 && out[0].StateOut? && out[0].change == change
  }

  /** One account has these settings, and its memory and all other accounts are kept. */
  ghost predicate Settings(s: State, e: State, a: nat, enabled: bool, limits: Limits)
    requires a < |s.accounts|
  {
    e.accounts == s.accounts[a := s.accounts[a].(enabled := enabled, limits := limits)]
  }

  lemma KillSwitches(s: State, input: Input, engaged: bool)
    requires s.fault.None? && s.engineSeq < U64_MAX && input.event == ControlInput(SetGlobalKill(engaged))
    ensures var e := Step(s, input);
      && e.state.kill == engaged && e.state.accounts == s.accounts && Elsewhere(s, e.state)
      && Announces(e.out, if s.kill == engaged then None else Some(if engaged then KillEngaged else KillReleased))
  {
    hide ApplyRequest, ApplyMarket;
  }

  lemma EnablingSwitches(s: State, input: Input, account: u32, enabled: bool)
    requires s.fault.None? && s.engineSeq < U64_MAX && |s.accounts| == |s.cfg.accountIds.ids|
    requires input.event == ControlInput(SetAccountEnabled(account, enabled))
    ensures var e := Step(s, input);
      && e.state.kill == s.kill && Elsewhere(s, e.state)
      && if account !in s.cfg.accountIds.ids then e.state.accounts == s.accounts && e.out == []
         else
           && account in s.cfg.accountIds.index
           && var a := s.cfg.accountIds.index[account];
           && Settings(s, e.state, a, enabled, s.accounts[a].limits)
           && Announces(e.out, if s.accounts[a].enabled == enabled then None else Some(EnabledChanged(account, enabled)))
  {
    hide ApplyRequest, ApplyMarket;
    KnownAccount(s, account);
  }

  lemma LimitsSwitch(s: State, input: Input, account: u32, limits: Limits)
    requires s.fault.None? && s.engineSeq < U64_MAX && |s.accounts| == |s.cfg.accountIds.ids|
    requires input.event == ControlInput(SetAccountLimits(account, limits))
    ensures var e := Step(s, input);
      && e.state.kill == s.kill && Elsewhere(s, e.state)
      && if account !in s.cfg.accountIds.ids then e.state.accounts == s.accounts && e.out == []
         else
           && account in s.cfg.accountIds.index
           && var a := s.cfg.accountIds.index[account];
           && Settings(s, e.state, a, s.accounts[a].enabled, limits)
           && Announces(e.out, Some(LimitsChanged(account)))
  {
    hide ApplyRequest, ApplyMarket;
    KnownAccount(s, account);
  }

  lemma KnownAccount(s: State, account: u32)
    ensures account in s.cfg.accountIds.ids <==> account in s.cfg.accountIds.index
    ensures account in s.cfg.accountIds.index ==> s.cfg.accountIds.index[account] < |s.cfg.accountIds.ids|
  {
    if account in s.cfg.accountIds.ids {
      var a :| 0 <= a < |s.cfg.accountIds.ids| && s.cfg.accountIds.ids[a] == account;
    }
  }

  /** A market event moves the view of its instrument, and nothing else but the
      counters; the change of a feed's state is announced and nothing else is. */
  lemma MarketEventMovesView(s: State, input: Input, m: MarketEvent)
    requires s.fault.None? && s.engineSeq < U64_MAX && |s.views| == |s.cfg.instruments| && input.event == MarketInput(m)
    ensures var e := Step(s, input);
      && e.state == s.(views := e.state.views, engineSeq := e.state.engineSeq, time := e.state.time,
                       outputSeq := e.state.outputSeq, fault := e.state.fault)
      && if m.instrument !in s.cfg.instrumentIds.ids then e.state.views == s.views && e.out == []
         else
           && m.instrument in s.cfg.instrumentIds.index
           && var i := s.cfg.instrumentIds.index[m.instrument];
           && i < |s.views| && |e.state.views| == |s.views|
           && e.state.views[i] == Market.Apply(s.views[i], m.sourceSeq, m.kind, input.recvTimeNs)
           && (forall j :: 0 <= j < |s.views| && j != i ==> e.state.views[j] == s.views[j])
           && Announces(e.out, if e.state.views[i].feed == s.views[i].feed then None
                               else Some(FeedChanged(m.instrument, e.state.views[i].feed)))
  {
    hide ApplyRequest, ApplyControl, Market.Apply;
    if m.instrument in s.cfg.instrumentIds.ids {
      var i :| 0 <= i < |s.cfg.instrumentIds.ids| && s.cfg.instrumentIds.ids[i] == m.instrument;
    }
  }
}
