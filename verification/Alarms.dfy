// The alarm: exact, always making progress, and bounded.
module Alarms {
  import opened Domain
  import opened Machine
  import opened Lifecycle

  // --- One alarm ----------------------------------------------------------------------------

  ghost predicate AllAfter(deadlines: seq<Deadline>, now: int) {
    forall d | d in deadlines :: now < d.at
  }

  // Whatever a tick makes of an agent has no deadline left that has come.
  lemma TickAgentLater(a: Agent, createdAt: int, now: int)
    ensures AllAfter(DeadlinesOf(TickAgent(a, createdAt, now), createdAt), now)
  {
    var ds := DeadlinesOf(a, createdAt);
    if FailsNow(a, createdAt, now) {
    } else if IsDue(a, createdAt, now) {
      assert |ds| == 2 && now < ds[0].at;
    }
  }

  lemma DueIff(a: Agent, createdAt: int, now: int)
    ensures IsDue(a, createdAt, now) <==> !AllAfter(DeadlinesOf(a, createdAt), now)
  {
  }

  lemma AlarmMeansDue(s: RunState, now: int)
    requires s.status == OnTheHill && NextAlarm(s).Some? && NextAlarm(s).value <= now
    ensures SomeDue(s, |s.agents|, now)
  {
    var d :| d in AllDeadlines(s.agents, s.createdAt) && d.at == NextAlarm(s).value;
    var a :| a in s.agents && d in DeadlinesOf(a, s.createdAt);
    var i :| 0 <= i < |s.agents| && s.agents[i] == a;
    DueIff(s.agents[i], s.createdAt, now);
    assert IsDue(s.agents[i], s.createdAt, now);
  }

  lemma AlarmDue(s: RunState, now: int)
    requires s.status == OnTheHill && SomeDue(s, |s.agents|, now)
    ensures NextAlarm(s).Some? && NextAlarm(s).value <= now
  {
    var i :| 0 <= i < |s.agents| && IsDue(s.agents[i], s.createdAt, now);
    assert s.agents[i] in s.agents;
    DueIff(s.agents[i], s.createdAt, now);
    var d :| d in DeadlinesOf(s.agents[i], s.createdAt) && d.at <= now;
    assert d in AllDeadlines(s.agents, s.createdAt);
  }

  // The alarm is later than `now` exactly when no agent is due.
  lemma AlarmIff(s: RunState, now: int)
    requires s.status == OnTheHill
    ensures (NextAlarm(s).None? || now < NextAlarm(s).value) <==> !SomeDue(s, |s.agents|, now)
  {
    if SomeDue(s, |s.agents|, now) {
      AlarmDue(s, now);
    } else if NextAlarm(s).Some? && NextAlarm(s).value <= now {
      AlarmMeansDue(s, now);
    }
  }

  // Before the alarm a tick does nothing; at it or after, it changes the state, and then no alarm
  // is set for a time that has come.
  lemma TickExact(s: RunState, now: int)
    requires Inv(s) && s.status == OnTheHill
    ensures var t := OnTick(s, now);
      && (NextAlarm(s).None? || now < NextAlarm(s).value ==> !t.moved && t.state == s)
      && (NextAlarm(s).Some? && NextAlarm(s).value <= now ==> t.moved && t.state.agents != s.agents)
      && (NextAlarm(t.state).None? || now < NextAlarm(t.state).value)
  {
    AlarmIff(s, now);
    TickFirstMeaning(s, |s.agents|, now);
    var next := TickFirst(s, |s.agents|, now).next;
    SweptFacts(next, now);
    LaterAlarm(next, s, now);
    if SomeDue(s, |s.agents|, now) {
      DueChanges(s, now);
    }
    TickCloses(s, now);
    hide SweptState, AllDeadlines, MinAt, TickFirst, Inv;
  }

  lemma DueChanges(s: RunState, now: int)
    requires SomeDue(s, |s.agents|, now)
    ensures TickAgents(s, |s.agents|, now) != s.agents
  {
    hide IsDue, TickAgents, TickAgent;
    var i :| 0 <= i < |s.agents| && IsDue(s.agents[i], s.createdAt, now);
    DueChangesStatus(s.agents[i], s.createdAt, now);
  }

  lemma DueChangesStatus(a: Agent, createdAt: int, now: int)
    requires IsDue(a, createdAt, now)
    ensures TickAgent(a, createdAt, now).status != a.status
  {
  }

  lemma LaterAlarm(t: RunState, s: RunState, now: int)
    requires t.agents == TickAgents(s, |s.agents|, now) && t.createdAt == s.createdAt
    ensures NextAlarm(t).None? || now < NextAlarm(t).value
  {
    if t.status == OnTheHill {
      forall i | 0 <= i < |t.agents| ensures !IsDue(t.agents[i], t.createdAt, now) {
        TickAgentLater(s.agents[i], s.createdAt, now);
        DueIff(t.agents[i], t.createdAt, now);
      }
      AlarmIff(t, now);
    }
  }

  // --- Alarms alone end the sweep -----------------------------------------------------------

  // How many alarms an agent can still cost: one while its job has yet to start or has stalled, two
  // while it is watched for a stall and then for a timeout.
  function Budget(a: Agent): nat {
    if IsTerminal(a) then 0 else if a.briefedAt.Some? && a.status != AgentStalled then 2 else 1
  }

  function TotalBudget(agents: seq<Agent>): nat {
    if agents == [] then 0 else Budget(agents[0]) + TotalBudget(agents[1..])
  }

  lemma BudgetBound(agents: seq<Agent>)
    ensures TotalBudget(agents) <= 2 * |agents|
    ensures SomeOut(agents) ==> TotalBudget(agents) > 0
  {
    if agents != [] {
      BudgetBound(agents[1..]);
      if SomeOut(agents) && IsTerminal(agents[0]) {
        var i :| 0 <= i < |agents| && !IsTerminal(agents[i]);
        assert !IsTerminal(agents[1..][i - 1]);
      }
    }
  }

  lemma TickAgentSpends(a: Agent, createdAt: int, now: int)
    ensures Budget(TickAgent(a, createdAt, now)) <= Budget(a)
    ensures IsDue(a, createdAt, now) ==> Budget(TickAgent(a, createdAt, now)) < Budget(a)
  {
  }

  lemma {:induction false} BudgetFalls(agents: seq<Agent>, others: seq<Agent>)
    requires |agents| == |others|
    requires forall i | 0 <= i < |agents| :: Budget(others[i]) <= Budget(agents[i])
    ensures TotalBudget(others) <= TotalBudget(agents)
    ensures (exists i | 0 <= i < |agents| :: Budget(others[i]) < Budget(agents[i]))
      ==> TotalBudget(others) < TotalBudget(agents)
  {
    if agents != [] {
      BudgetFalls(agents[1..], others[1..]);
      if i :| 0 <= i < |agents| && Budget(others[i]) < Budget(agents[i]) {
        if i > 0 {
          assert Budget(others[1..][i - 1]) < Budget(agents[1..][i - 1]);
        }
      }
    }
  }

  lemma TickedBudget(s: RunState, now: int)
    requires SomeDue(s, |s.agents|, now)
    ensures TotalBudget(TickAgents(s, |s.agents|, now)) < TotalBudget(s.agents)
  {
    var next := TickAgents(s, |s.agents|, now);
    forall i | 0 <= i < |s.agents|
      ensures Budget(next[i]) <= Budget(s.agents[i])
      ensures IsDue(s.agents[i], s.createdAt, now) ==> Budget(next[i]) < Budget(s.agents[i])
    {
      TickAgentSpends(s.agents[i], s.createdAt, now);
    }
    BudgetFalls(s.agents, next);
  }

  lemma TickSpends(s: RunState, now: int)
    requires Inv(s) && s.status == OnTheHill && NextAlarm(s).Some? && NextAlarm(s).value <= now
    ensures TotalBudget(OnTick(s, now).state.agents) < TotalBudget(s.agents)
  {
    AlarmIff(s, now);
    TickedBudget(s, now);
    TickFirstMeaning(s, |s.agents|, now);
    TickCloses(s, now);
    SweptFacts(TickFirst(s, |s.agents|, now).next, now);
    hide SweptState, TickFirst, OnTick;
  }

  // The run after alarms at these times, with nothing else happening.
  function AfterAlarms(s: RunState, times: seq<int>): RunState {
    if times == [] then s
    else OnTick(AfterAlarms(s, times[..|times| - 1]), times[|times| - 1]).state
  }

  // Each alarm went off no earlier than it was set for.
  ghost predicate OnTime(s: RunState, times: seq<int>) {
    forall k | 0 <= k < |times| ::
      var t := AfterAlarms(s, times[..k]);
      t.status == OnTheHill ==> NextAlarm(t).Some? && NextAlarm(t).value <= times[k]
  }

  lemma {:induction false} AlarmsSpend(s: RunState, times: seq<int>)
    requires Inv(s) && s.status == OnTheHill && OnTime(s, times)
    ensures var t := AfterAlarms(s, times);
      && Inv(t)
      && (t.status == OnTheHill || t.status == Swept)
      && (t.status == OnTheHill ==> TotalBudget(t.agents) + |times| <= TotalBudget(s.agents))
  {
    if times != [] {
      var init, now := times[..|times| - 1], times[|times| - 1];
      forall k | 0 <= k < |init| ensures init[..k] == times[..k] {
      }
      AlarmsSpend(s, init);
      var t := AfterAlarms(s, init);
      TickKeepsInv(t, now);
      if t.status == OnTheHill {
        assert init == times[..|init|];
        TickSpends(t, now);
        TickCloses(t, now);
        TickFirstMeaning(t, |t.agents|, now);
        SweptFacts(TickFirst(t, |t.agents|, now).next, now);
      }
      hide SweptState, Inv, TickFirst, NextAlarm;
    }
  }

  // With no reports at all, two alarms an agent are enough: the sweep is then over.
  lemma AlarmsReachSwept(s: RunState, times: seq<int>)
    requires Inv(s) && s.status == OnTheHill && OnTime(s, times) && |times| >= 2 * |s.agents|
    ensures AfterAlarms(s, times).status == Swept
  {
    AlarmsSpend(s, times);
    BudgetBound(s.agents);
    BudgetBound(AfterAlarms(s, times).agents);
  }

  // An alarm is set as long as the run is on the hill, so there is a next one to wait for.
  lemma AlarmSet(s: RunState)
    requires Inv(s) && s.status == OnTheHill
    ensures NextAlarm(s).Some?
  {
    var i :| 0 <= i < |s.agents| && !IsTerminal(s.agents[i]);
    var ds := DeadlinesOf(s.agents[i], s.createdAt);
    assert s.agents[i] in s.agents && ds[0] in ds;
    assert ds[0] in AllDeadlines(s.agents, s.createdAt);
  }

  // --- One late alarm ends it at once -------------------------------------------------------

  predicate By(at: Option<int>, t: int) {
    at.None? || at.value <= t
  }

  ghost predicate AgentClocksBy(a: Agent, t: int) {
    By(a.dispatchedAt, t) && By(a.briefedAt, t) && By(a.lastEventAt, t) && By(a.retriedAt, t)
  }

  // No clock an agent's deadlines run from is later than `t`.
  ghost predicate ClocksBy(s: RunState, t: int) {
    s.createdAt <= t && forall i | 0 <= i < |s.agents| :: AgentClocksBy(s.agents[i], t)
  }

  lemma LateFails(a: Agent, createdAt: int, t: int, now: int)
    requires AgentClocksBy(a, t) && createdAt <= t && t + AGENT_TIMEOUT_MS <= now
    ensures IsTerminal(TickAgent(a, createdAt, now))
  {
  }

  // A tick half an hour after the latest clock closes the sweep at once.
  lemma LateTickCloses(s: RunState, t: int, now: int)
    requires Inv(s) && s.status == OnTheHill && ClocksBy(s, t) && t + AGENT_TIMEOUT_MS <= now
    ensures OnTick(s, now).state.status == Swept
  {
    TickFirstMeaning(s, |s.agents|, now);
    var next := TickFirst(s, |s.agents|, now).next;
    forall i | 0 <= i < |s.agents| ensures IsTerminal(next.agents[i]) {
      LateFails(s.agents[i], s.createdAt, t, now);
    }
    SomeoneDue(s, t, now);
    TickCloses(s, now);
    SweptFacts(next, now);
    hide SweptState, Inv, TickFirst;
  }

  lemma SomeoneDue(s: RunState, t: int, now: int)
    requires SomeOut(s.agents) && ClocksBy(s, t) && t + AGENT_TIMEOUT_MS <= now
    ensures SomeDue(s, |s.agents|, now)
  {
    var i :| 0 <= i < |s.agents| && !IsTerminal(s.agents[i]);
    LateFails(s.agents[i], s.createdAt, t, now);
    assert IsDue(s.agents[i], s.createdAt, now);
  }

  // The clock an event is handed, if any.
  predicate EventBy(e: Event, t: int) {
    e.Transcript? || e.CheckCreated? || e.AskRepost? || e.CheckReposted? || e.now <= t
  }

  lemma TickBy(s: RunState, k: nat, now: int, t: int)
    requires k <= |s.agents| && ClocksBy(s, t)
    ensures ClocksBy(TickFirst(s, k, now).next, t)
  {
    hide DeadlinesOf, FirstDue;
    if k > 0 {
      TickBy(s, k - 1, now, t);
    }
  }

  lemma SweptBy(s: RunState, now: int, t: int)
    requires ClocksBy(s, t)
    ensures ClocksBy(SweptState(s, now).Or(s), t)
  {
    SweptFacts(s, now);
  }

  lemma ClosedBy(s: RunState, now: int, earned: seq<Effect>, t: int)
    requires ClocksBy(s, t)
    ensures ClocksBy(CloseSweepIfDone(s, now, earned).state, t)
  {
    SweptBy(s, now, t);
  }

  lemma LiveClocks(s: RunState, id: string, t: int)
    requires ClocksBy(s, t) && LiveAgent(s, id).Some?
    ensures AgentClocksBy(LiveAgent(s, id).value, t)
  {
  }

  lemma HeardBy(s: RunState, e: Event, t: int)
    requires ClocksBy(s, t) && EventBy(e, t)
    requires e.Dispatched? || e.Events? || e.Briefed? || e.Transcript?
    ensures ClocksBy(Apply(s, e).state, t)
  {
    if Apply(s, e).moved && !e.Transcript? {
      LiveClocks(s, e.agentId, t);
    }
  }

  lemma ReportedBy(s: RunState, e: Event, t: int)
    requires ClocksBy(s, t) && (e.Reported? || e.GaveUp?)
    ensures ClocksBy(Apply(s, e).state, t)
  {
    hide ConditionsReport, DeadlinesOf, SweptState;
    if Apply(s, e).moved && e.Reported? {
      var v := e.verdict;
      ClosedBy(PatchAgent(s, e.agentId, (a: Agent) => a.(
          status := v.status, summary := Some(v.summary), hazards := v.hazards, finishedAt := Some(e.now)), e.now),
        e.now, [], t);
    } else if Apply(s, e).moved {
      var failure := FailedState(s, e.agentId, e.reason, e.now);
      ClosedBy(failure, e.now, [Log(AgentFailed(e.agentId, e.reason))], t);
      ClosedBy(PatchAgent(failure, e.agentId, (a: Agent) => a.(jobUrl := e.jobUrl), e.now),
        e.now, [Log(AgentFailed(e.agentId, e.reason))], t);
    }
  }

  lemma OthersBy(s: RunState, e: Event, t: int)
    requires ClocksBy(s, t) && EventBy(e, t)
    requires e.Alarm? || e.Stop? || e.Retry? || e.Land? || e.Bypass? || e.AskRepost? || e.Retitle?
      || e.CheckCreated? || e.CheckReposted?
    ensures ClocksBy(Apply(s, e).state, t)
  {
    assert e.Bypass? && !CanBypassDesign(s) ==> Apply(s, e).state == s;
    hide OnTick, RetryAgents, StopRun, LandRun, BypassDesign;
    if e.Alarm? {
      AlarmBy(s, e.now, t);
    } else if e.Retry? {
      RetryBy(s, e, t);
    } else if e.Stop? || e.Land? {
      EndBy(s, e, t);
    } else if e.Bypass? && CanBypassDesign(s) {
      BypassFacts(s, e.now);
    }
  }

  lemma EndBy(s: RunState, e: Event, t: int)
    requires ClocksBy(s, t) && (e.Stop? || e.Land?)
    ensures ClocksBy(Apply(s, e).state, t)
  {
    hide ReviewOutcome, LandSteps, JobCancels;
  }

  lemma AlarmBy(s: RunState, now: int, t: int)
    requires ClocksBy(s, t)
    ensures ClocksBy(OnTick(s, now).state, t)
  {
    TickBy(s, |s.agents|, now, t);
    ClosedBy(TickFirst(s, |s.agents|, now).next, now, TickFirst(s, |s.agents|, now).logs, t);
    hide CloseSweepIfDone, TickFirst;
  }

  lemma RetryBy(s: RunState, e: Event, t: int)
    requires ClocksBy(s, t) && e.Retry? && EventBy(e, t)
    ensures ClocksBy(RetryAgents(s, e.target, e.now, e.mint).state, t)
  {
    hide Minted, Retried, JobCancels, RetryableAgents;
  }

  // A run whose every event came by `t` has no clock later than `t`.
  lemma {:induction false} ClocksBounded(a: Start, es: seq<Event>, t: int)
    requires a.now <= t && forall k | 0 <= k < |es| :: EventBy(es[k], t)
    ensures ClocksBy(After(a, es), t)
  {
    if |es| == 0 {
      SweptBy(FreshRun(a), a.now, t);
    } else {
      var s, e := After(a, es[..|es| - 1]), es[|es| - 1];
      ClocksBounded(a, es[..|es| - 1], t);
      if e.Dispatched? || e.Events? || e.Briefed? || e.Transcript? {
        HeardBy(s, e, t);
      } else if e.Reported? || e.GaveUp? {
        ReportedBy(s, e, t);
      } else {
        OthersBy(s, e, t);
      }
      hide Apply;
    }
  }

  // Whatever has happened to a run by `t`, an alarm half an hour later leaves its sweep over.
  lemma LateAlarmEnds(a: Start, es: seq<Event>, t: int, now: int)
    requires DistinctRoster(a.cfg.roster) && AllLegal(es)
    requires a.now <= t && forall k | 0 <= k < |es| :: EventBy(es[k], t)
    requires t + AGENT_TIMEOUT_MS <= now
    ensures OnTick(After(a, es), now).state.status != OnTheHill
  {
    AlwaysInv(a, es);
    ClocksBounded(a, es, t);
    if After(a, es).status == OnTheHill {
      LateTickCloses(After(a, es), t, now);
    }
  }
}
