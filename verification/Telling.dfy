// What the run's own log lines tell: who failed, stalled or was retried, and what the sweep came to.
module Telling {
  import opened Domain
  import opened Machine
  import opened Lifecycle
  import opened Effects
  import opened Attempts
  import opened Outcomes
  import opened Transitions

  // --- The tick -----------------------------------------------------------------------------

  // The patroller is failed by a tick, for this reason.
  predicate FailedFor(a: Agent, createdAt: int, now: int, reason: string) {
    !IsTerminal(a) && LapseOf(a, createdAt, now) == Fails(reason)
  }

  lemma FailsAsLapsed(a: Agent, createdAt: int, now: int)
    ensures var due := FirstDue(DeadlinesOf(a, createdAt), now);
      && (due.None? <==> IsTerminal(a) || LapseOf(a, createdAt, now) == OnTime)
      && (due.Some? && due.value.failure.None? <==> !IsTerminal(a) && LapseOf(a, createdAt, now) == Stalls)
      && forall reason ::
           due.Some? && due.value.failure == Some(reason) <==> FailedFor(a, createdAt, now, reason)
  {
    var ds := DeadlinesOf(a, createdAt);
    assert |ds| == 2 ==> ds[1..][0] == ds[1] && ds[1..][1..] == [];
    assert |ds| == 1 ==> ds[1..] == [];
  }

  ghost predicate SomeFailedFor(s: RunState, k: nat, now: int, id: string, reason: string)
    requires k <= |s.agents|
  {
    exists i | 0 <= i < k :: s.agents[i].id == id && FailedFor(s.agents[i], s.createdAt, now, reason)
  }

  lemma TurnTells(t: Ticked, a: Agent, createdAt: int, now: int, id: string, reason: string)
    ensures Log(AgentFailed(id, reason)) in TickOne(t, a, createdAt, now).logs <==>
      Log(AgentFailed(id, reason)) in t.logs || (a.id == id && FailedFor(a, createdAt, now, reason))
  {
    FailsAsLapsed(a, createdAt, now);
    hide DeadlinesOf, FirstDue, FailedState, PatchAgent, LapseOf, FailedFor;
  }

  lemma {:induction false} TurnsTell(s: RunState, k: nat, now: int, id: string, reason: string)
    requires k <= |s.agents|
    ensures Log(AgentFailed(id, reason)) in TickFirst(s, k, now).logs <==> SomeFailedFor(s, k, now, id, reason)
  {
    hide TickOne, FailedFor;
    if k > 0 {
      TurnsTell(s, k - 1, now, id, reason);
      TurnTells(TickFirst(s, k - 1, now), s.agents[k - 1], s.createdAt, now, id, reason);
    }
  }

  // A tick tells of exactly the failures it makes, each with its reason.
  lemma TickTells(s: RunState, now: int, id: string, reason: string)
    requires s.status == OnTheHill
    ensures Log(AgentFailed(id, reason)) in OnTick(s, now).effects <==> SomeFailedFor(s, |s.agents|, now, id, reason)
  {
    var t := TickFirst(s, |s.agents|, now);
    TurnsTell(s, |s.agents|, now, id, reason);
    if SomeFailedFor(s, |s.agents|, now, id, reason) {
      FailingActs(s, |s.agents|, now, id, reason);
    }
    UnactedTellsNothing(s, |s.agents|, now);
    ClosingTells(t.next, now, t.logs, id, reason);
    hide TickFirst, CloseSweepIfDone, SomeFailedFor;
  }

  lemma ClosingTells(s: RunState, now: int, earned: seq<Effect>, id: string, reason: string)
    ensures var line := Log(AgentFailed(id, reason));
      line in CloseSweepIfDone(s, now, earned).effects <==> line in earned
  {
    hide SweptState, SweepsOf, OpenHazardCount, CountErrors;
  }

  lemma {:induction false} UnactedTellsNothing(s: RunState, k: nat, now: int)
    requires k <= |s.agents|
    ensures !TickFirst(s, k, now).acted ==> TickFirst(s, k, now).logs == []
  {
    if k > 0 {
      UnactedTellsNothing(s, k - 1, now);
      hide FirstDue, DeadlinesOf, FailedState, PatchAgent;
    }
  }

  lemma {:induction false} FailingActs(s: RunState, k: nat, now: int, id: string, reason: string)
    requires k <= |s.agents| && SomeFailedFor(s, k, now, id, reason)
    ensures TickFirst(s, k, now).acted
  {
    if SomeFailedFor(s, k - 1, now, id, reason) {
      FailingActs(s, k - 1, now, id, reason);
    } else {
      FailsAsLapsed(s.agents[k - 1], s.createdAt, now);
    }
    hide FirstDue, DeadlinesOf, FailedState, PatchAgent, LapseOf, IsTerminal;
  }

  predicate StallsNow(a: Agent, createdAt: int, now: int) {
    !IsTerminal(a) && LapseOf(a, createdAt, now) == Stalls
  }

  ghost predicate SomeStalls(s: RunState, k: nat, now: int, id: string)
    requires k <= |s.agents|
  {
    exists i | 0 <= i < k :: s.agents[i].id == id && StallsNow(s.agents[i], s.createdAt, now)
  }

  // After ten minutes of silence.
  function StallLine(id: string): Effect {
    Log(AgentStalledFor(id, 10))
  }

  lemma TurnTellsStall(t: Ticked, a: Agent, createdAt: int, now: int, id: string)
    ensures var u, stalls := TickOne(t, a, createdAt, now), a.id == id && StallsNow(a, createdAt, now);
      && (id in u.next.stalledLogged <==> id in t.next.stalledLogged || stalls)
      && (StallLine(id) in u.logs <==> StallLine(id) in t.logs || (stalls && id !in t.next.stalledLogged))
  {
    FailsAsLapsed(a, createdAt, now);
    hide DeadlinesOf, FirstDue, LapseOf, WithAgent, FailedFor;
  }

  lemma {:induction false} TurnsTellStall(s: RunState, k: nat, now: int, id: string)
    requires k <= |s.agents|
    ensures var t := TickFirst(s, k, now);
      && (id in t.next.stalledLogged <==> id in s.stalledLogged || SomeStalls(s, k, now, id))
      && (StallLine(id) in t.logs <==> id !in s.stalledLogged && SomeStalls(s, k, now, id))
  {
    hide TickOne, StallsNow, StallLine;
    if k > 0 {
      TurnsTellStall(s, k - 1, now, id);
      TurnTellsStall(TickFirst(s, k - 1, now), s.agents[k - 1], s.createdAt, now, id);
    }
  }

  // A tick tells of exactly the patrollers it calls stalled that it has not told of in this attempt.
  lemma TickTellsStalls(s: RunState, now: int, id: string)
    requires s.status == OnTheHill
    ensures StallLine(id) in OnTick(s, now).effects <==> id !in s.stalledLogged && SomeStalls(s, |s.agents|, now, id)
  {
    var t := TickFirst(s, |s.agents|, now);
    TurnsTellStall(s, |s.agents|, now, id);
    UnactedTellsNothing(s, |s.agents|, now);
    ClosingTellsStall(t.next, now, t.logs, id);
    hide TickFirst, CloseSweepIfDone, SomeStalls;
  }

  lemma ClosingTellsStall(s: RunState, now: int, earned: seq<Effect>, id: string)
    ensures StallLine(id) in CloseSweepIfDone(s, now, earned).effects <==> StallLine(id) in earned
  {
    hide SweptState, SweepsOf, OpenHazardCount, CountErrors;
  }

  // --- The retry ----------------------------------------------------------------------------

  // A retry tells of exactly the patrollers it gives a fresh attempt, with the attempt's number.
  lemma RetryTells(s: RunState, target: RetryTarget, now: int, mint: nat -> string, id: string, attempt: nat)
    requires Inv(s)
    ensures Log(AgentRetried(id, attempt)) in RetryAgents(s, target, now, mint).effects <==>
      exists i | 0 <= i < |s.agents| ::
        s.agents[i].id == id && ToRetry(s, target, s.agents[i]) && attempt == s.agents[i].retries + 2
  {
    var ids := RetryableAgents(s, target);
    RetryHits(s, target, now, mint);
    hide *;
    if |ids| > 0 {
      RetriedLines(s, target, now, mint, id, attempt);
      RetriedTold(s.agents, ids, id, attempt);
    } else {
      UnretriedLines(s, target, now, mint, id, attempt);
    }
  }

  lemma UnretriedLines(s: RunState, target: RetryTarget, now: int, mint: nat -> string, id: string, attempt: nat)
    requires |RetryableAgents(s, target)| == 0
    ensures Log(AgentRetried(id, attempt)) !in RetryAgents(s, target, now, mint).effects
  {
    hide RetryableAgents, RetriedState, JobCancels, Retried;
  }

  lemma RetriedLines(s: RunState, target: RetryTarget, now: int, mint: nat -> string, id: string, attempt: nat)
    requires |RetryableAgents(s, target)| > 0
    ensures var retried := Retried(s.agents, RetryableAgents(s, target));
      Log(AgentRetried(id, attempt)) in RetryAgents(s, target, now, mint).effects <==>
        Log(AgentRetried(id, attempt)) in Map(retried, (a: Agent) => Log(AgentRetried(a.id, a.retries + 2)))
  {
    var line := Log(AgentRetried(id, attempt));
    var ids := RetryableAgents(s, target);
    var retried := Retried(s.agents, ids);
    var lines := Map(retried, (a: Agent) => Log(AgentRetried(a.id, a.retries + 2)));
    var rest := [Index] + Map(ids, (x: string) => Dispatch(x)) + [Broadcast, Check] + JobCancels(s.jobRuns, retried);
    CancelsTellNothing(s.jobRuns, retried, line);
    hide RetryableAgents, RetriedState, JobCancels, Retried;
    assert RetryAgents(s, target, now, mint).effects == lines + rest;
    assert line !in rest;
  }

  lemma CancelsTellNothing(jobRuns: map<string, string>, agents: seq<Agent>, line: Effect)
    requires line.Log?
    ensures line !in JobCancels(jobRuns, agents)
  {
  }

  lemma RetriedTold(agents: seq<Agent>, ids: seq<string>, id: string, attempt: nat)
    ensures var lines := Map(Retried(agents, ids), (a: Agent) => Log(AgentRetried(a.id, a.retries + 2)));
      Log(AgentRetried(id, attempt)) in lines <==>
        exists i | 0 <= i < |agents| :: agents[i].id == id && agents[i].id in ids && attempt == agents[i].retries + 2
  {
    var retried := Retried(agents, ids);
    var lines := Map(retried, (a: Agent) => Log(AgentRetried(a.id, a.retries + 2)));
    if Log(AgentRetried(id, attempt)) in lines {
      var k :| 0 <= k < |lines| && lines[k] == Log(AgentRetried(id, attempt));
      assert retried[k] in agents;
    }
    if i :| 0 <= i < |agents| && agents[i].id == id && agents[i].id in ids && attempt == agents[i].retries + 2 {
      assert agents[i] in retried;
      var k :| 0 <= k < |retried| && retried[k] == agents[i];
      assert lines[k] == Log(AgentRetried(id, attempt));
    }
  }

  // --- The sweep ----------------------------------------------------------------------------

  lemma ClosingTallies(s: RunState, now: int, earned: seq<Effect>, sweeps: nat, hazards: nat, errors: nat)
    requires SweepsOf(s.agents) == s.agents && Log(SweepsIn(sweeps, hazards, errors)) !in earned
    requires s.status == OnTheHill
    ensures var r := CloseSweepIfDone(s, now, earned);
      Log(SweepsIn(sweeps, hazards, errors)) in r.effects <==>
        r.state.status == Swept && Tallied(r.state, sweeps, hazards, errors)
  {
    SweptFacts(s, now);
    var r := CloseSweepIfDone(s, now, earned).state;
    CountsAre(r.designBypassedAt.Some?, r.agents);
    CheckLines(r);
    hide SweptState, SweepsOf, OpenHazardCount, CountErrors, CheckRunOf, HazardLines, AllIn;
  }

  // So many patrollers, hazards the check lists, and failures.
  ghost predicate Tallied(s: RunState, sweeps: nat, hazards: nat, errors: nat) {
    && sweeps == |s.agents| && hazards == |CheckRunOf(s).summary.hazards|
    && errors == |Filter(s.agents, (a: Agent) => a.status == AgentError)|
  }

  lemma VerdictTold(s: RunState, e: Event, sweeps: nat, hazards: nat, errors: nat)
    requires Inv(s) && e.Reported? && Apply(s, e).moved
    ensures ToldOf(Apply(s, e), sweeps, hazards, errors)
  {
    var reported := PatchAgent(s, e.agentId, (a: Agent) => a.(
        status := e.verdict.status, summary := Some(e.verdict.summary), hazards := e.verdict.hazards,
        finishedAt := Some(e.now)), e.now);
    AllSweep(s);
    SweepsAreAll(reported.agents);
    hide Inv, Tallied, CloseSweepIfDone, SweepsOf, AgentIndex;
    ClosingTallies(reported, e.now, [], sweeps, hazards, errors);
  }

  lemma FailureTold(s: RunState, e: Event, sweeps: nat, hazards: nat, errors: nat)
    requires Inv(s) && e.GaveUp? && Apply(s, e).moved
    ensures ToldOf(Apply(s, e), sweeps, hazards, errors)
  {
    hide *;
    var failure, earned := FailedState(s, e.agentId, e.reason, e.now), [Log(AgentFailed(e.agentId, e.reason))];
    var linked := PatchAgent(failure, e.agentId, (a: Agent) => a.(jobUrl := e.jobUrl), e.now);
    AllSweep(s);
    FailedSweeps(s, e.agentId, e.reason, e.now, e.jobUrl);
    GaveUpCloses(s, e);
    ClosingTallies(failure, e.now, earned, sweeps, hazards, errors);
    ClosingTallies(linked, e.now, earned, sweeps, hazards, errors);
    ToldMeans(Apply(s, e), sweeps, hazards, errors);
  }

  lemma ToldMeans(r: Transition, sweeps: nat, hazards: nat, errors: nat)
    ensures ToldOf(r, sweeps, hazards, errors) <==> (Log(SweepsIn(sweeps, hazards, errors)) in r.effects <==>
      r.state.status == Swept && Tallied(r.state, sweeps, hazards, errors))
  {
    hide Tallied;
  }

  lemma GaveUpCloses(s: RunState, e: Event)
    requires e.GaveUp? && Apply(s, e).moved
    ensures s.status == OnTheHill
    ensures var failure, earned := FailedState(s, e.agentId, e.reason, e.now), [Log(AgentFailed(e.agentId, e.reason))];
      var linked := PatchAgent(failure, e.agentId, (a: Agent) => a.(jobUrl := e.jobUrl), e.now);
      || Apply(s, e) == CloseSweepIfDone(failure, e.now, earned)
      || Apply(s, e) == CloseSweepIfDone(linked, e.now, earned)
  {
    hide CloseSweepIfDone, FailedState, AgentIndex, WithAgent, IsTerminal;
  }

  lemma FailedSweeps(s: RunState, id: string, reason: string, now: int, url: string)
    requires forall i | 0 <= i < |s.agents| :: s.agents[i].step == Sweep
    ensures var failure := FailedState(s, id, reason, now);
      var linked := PatchAgent(failure, id, (a: Agent) => a.(jobUrl := url), now);
      && failure.status == s.status && linked.status == s.status
      && SweepsOf(failure.agents) == failure.agents && SweepsOf(linked.agents) == linked.agents
  {
    var failure := FailedState(s, id, reason, now);
    SweepsAreAll(failure.agents);
    SweepsAreAll(PatchAgent(failure, id, (a: Agent) => a.(jobUrl := url), now).agents);
    hide SweepsOf;
  }

  // Only lines about patrollers, and everybody still of the sweep.
  ghost predicate Untallied(s: RunState, t: Ticked) {
    && (forall j | 0 <= j < |t.logs| :: t.logs[j].Log? && !t.logs[j].text.SweepsIn?)
    && t.next.status == s.status && forall i | 0 <= i < |t.next.agents| :: t.next.agents[i].step == Sweep
  }

  lemma TurnTalliesNothing(s: RunState, t: Ticked, a: Agent, now: int)
    requires Untallied(s, t)
    ensures Untallied(s, TickOne(t, a, s.createdAt, now))
  {
    hide FirstDue, DeadlinesOf;
  }

  lemma {:induction false} TurnsTallyNothing(s: RunState, k: nat, now: int)
    requires k <= |s.agents| && forall i | 0 <= i < |s.agents| :: s.agents[i].step == Sweep
    ensures Untallied(s, TickFirst(s, k, now))
  {
    hide TickOne;
    if k > 0 {
      hide Untallied;
      TurnsTallyNothing(s, k - 1, now);
      TurnTalliesNothing(s, TickFirst(s, k - 1, now), s.agents[k - 1], now);
    }
  }

  lemma AlarmTold(s: RunState, e: Event, sweeps: nat, hazards: nat, errors: nat)
    requires Inv(s) && e.Alarm? && Apply(s, e).moved
    ensures ToldOf(Apply(s, e), sweeps, hazards, errors)
  {
    AllSweep(s);
    hide Inv, DistinctAgents;
    var t := TickFirst(s, |s.agents|, e.now);
    TurnsTallyNothing(s, |s.agents|, e.now);
    assert SweepsOf(t.next.agents) == t.next.agents by {
      SweepsAreAll(t.next.agents);
    }
    hide Tallied, CloseSweepIfDone, SweepsOf, TickFirst;
    ClosingTallies(t.next, e.now, t.logs, sweeps, hazards, errors);
  }

  ghost predicate ToldOf(r: Transition, sweeps: nat, hazards: nat, errors: nat) {
    Log(SweepsIn(sweeps, hazards, errors)) in r.effects <==>
      r.state.status == Swept && Tallied(r.state, sweeps, hazards, errors)
  }

  // The report, failure or tick that closes the sweep tells what it came to, and one that does not
  // close it tells nothing of the kind.
  lemma SweepTold(s: RunState, e: Event, sweeps: nat, hazards: nat, errors: nat)
    requires Inv(s) && (e.Reported? || e.GaveUp? || e.Alarm?) && Apply(s, e).moved
    ensures var r := Apply(s, e);
      Log(SweepsIn(sweeps, hazards, errors)) in r.effects <==>
        r.state.status == Swept && Tallied(r.state, sweeps, hazards, errors)
  {
    assert ToldOf(Apply(s, e), sweeps, hazards, errors) by {
      hide *;
      if e.Reported? {
        VerdictTold(s, e, sweeps, hazards, errors);
      } else if e.GaveUp? {
        FailureTold(s, e, sweeps, hazards, errors);
      } else {
        AlarmTold(s, e, sweeps, hazards, errors);
      }
    }
    hide Inv, Apply, Tallied;
  }
}
