// What one attempt of a patroller keeps, and what each event does to its clock.
module Attempts {
  import opened Domain
  import opened Machine
  import opened Lifecycle

  // --- Within an attempt --------------------------------------------------------------------

  // `b` is a later state of the attempt `a` is a state of: once off the queue it stays off, and keeps
  // its dispatch time if it has one; its job link, once known, stays; a transcript once stored stays;
  // and once it is over nothing changes but that a transcript may still come.
  predicate SameAttempt(a: Agent, b: Agent) {
    && (a.status != AgentQueued ==> b.status != AgentQueued)
    && (a.status != AgentQueued && a.dispatchedAt.Some? ==> b.dispatchedAt == a.dispatchedAt)
    && (a.jobUrl != "" ==> b.jobUrl == a.jobUrl)
    && (a.hasTranscript ==> b.hasTranscript)
    && (IsTerminal(a) ==> b == a.(hasTranscript := b.hasTranscript))
  }

  // `b` is a fresh attempt, following the failed one `a`.
  predicate Replaced(a: Agent, b: Agent) {
    && a.status == AgentError && b.retries == a.retries + 1
    && b.status == AgentQueued && b.dispatchedAt.None? && b.briefedAt.None? && b.lastEventAt.None?
    && b.jobUrl == "" && !b.hasTranscript && b.summary.None? && b.hazards == []
  }

  // `b` is what one event makes of the patroller `a`.
  ghost predicate Stepped(a: Agent, b: Agent) {
    && b.id == a.id && b.role == a.role && b.step == a.step
    && (if b.retries == a.retries then SameAttempt(a, b) else Replaced(a, b))
  }

  ghost predicate AllStepped(agents: seq<Agent>, others: seq<Agent>) {
    |agents| == |others| && forall i | 0 <= i < |agents| :: Stepped(agents[i], others[i])
  }

  lemma SteppedReflexive(agents: seq<Agent>)
    ensures AllStepped(agents, agents)
  {
  }

  // What a verdict and a failure make of a patroller.
  function WithVerdict(a: Agent, v: Verdict, now: int): Agent {
    a.(status := v.status, summary := Some(v.summary), hazards := v.hazards, finishedAt := Some(now))
  }

  function WithFailure(a: Agent, reason: string, now: int, url: string): Agent {
    a.(status := AgentError, summary := Some(reason), finishedAt := Some(now), jobUrl := Linked(a.jobUrl, url))
  }

  lemma ClosingKeepsAgents(s: RunState, now: int, earned: seq<Effect>)
    ensures CloseSweepIfDone(s, now, earned).state.agents == s.agents
  {
    SweptFacts(s, now);
    hide SweptState, AllIn, SweepsOf, OpenHazardCount, CountErrors;
  }

  lemma VerdictAgents(s: RunState, id: string, v: Verdict, now: int)
    requires OnVerdict(s, id, v, now).moved
    ensures LiveAgent(s, id).Some?
    ensures OnVerdict(s, id, v, now).state.agents == WithAgent(s.agents, id, (a: Agent) => WithVerdict(a, v, now))
  {
    var reported := PatchAgent(s, id, (a: Agent) => a.(
        status := v.status, summary := Some(v.summary), hazards := v.hazards, finishedAt := Some(now)), now);
    ClosingKeepsAgents(reported, now, []);
    hide CloseSweepIfDone, LiveAgent;
  }

  lemma FailureAgents(s: RunState, id: string, reason: string, now: int, url: string)
    requires DistinctAgents(s.agents) && OnFailure(s, id, reason, now, url).moved
    ensures LiveAgent(s, id).Some?
    ensures OnFailure(s, id, reason, now, url).state.agents
      == WithAgent(s.agents, id, (a: Agent) => WithFailure(a, reason, now, url))
  {
    var failure := FailedState(s, id, reason, now);
    var linked := PatchAgent(failure, id, (a: Agent) => a.(jobUrl := url), now);
    var earned := [Log(AgentFailed(id, reason))];
    FailedThenLinked(s, id, reason, now, url);
    ClosingKeepsAgents(failure, now, earned);
    ClosingKeepsAgents(linked, now, earned);
    hide CloseSweepIfDone, FailedState, WithFailure, IsTerminal, DistinctAgents;
  }

  lemma FailedThenLinked(s: RunState, id: string, reason: string, now: int, url: string)
    requires DistinctAgents(s.agents) && AgentIndex(s.agents, id) < |s.agents|
    ensures var failure := FailedState(s, id, reason, now);
      WithAgent(s.agents, id, (a: Agent) => WithFailure(a, reason, now, url))
        == if s.agents[AgentIndex(s.agents, id)].jobUrl == "" && url != ""
           then WithAgent(failure.agents, id, (a: Agent) => a.(jobUrl := url)) else failure.agents
  {
    OneOf(s.agents, id);
    hide AgentIndex, DistinctAgents;
  }

  lemma OneOf(agents: seq<Agent>, id: string)
    requires DistinctAgents(agents) && AgentIndex(agents, id) < |agents|
    ensures forall i | 0 <= i < |agents| && agents[i].id == id :: agents[i] == agents[AgentIndex(agents, id)]
  {
  }

  // A patch of one live agent that takes its attempt onward.
  lemma LiveOnward(s: RunState, id: string, patch: Agent -> Agent)
    requires Inv(s) && LiveAgent(s, id).Some?
    requires var a := LiveAgent(s, id).value;
      Stepped(a, patch(a))
    ensures AllStepped(s.agents, WithAgent(s.agents, id, patch))
  {
    WithAgentReplaces(s.agents, id, patch);
    SteppedReflexive(s.agents);
    hide Stepped, Inv;
  }

  lemma DispatchedOnward(s: RunState, id: string, now: int)
    requires Inv(s)
    ensures AllStepped(s.agents, OnDispatched(s, id, now).state.agents)
  {
    SteppedReflexive(s.agents);
    if OnDispatched(s, id, now).moved {
      LiveOnward(s, id, (a: Agent) => a.(status := AgentDispatched, dispatchedAt := Some(now)));
    }
  }

  lemma EventsOnward(s: RunState, id: string, count: nat, now: int, url: string)
    requires Inv(s)
    ensures AllStepped(s.agents, OnEvents(s, id, count, now, url).state.agents)
  {
    SteppedReflexive(s.agents);
    if OnEvents(s, id, count, now, url).moved {
      var agent := LiveAgent(s, id).value;
      LiveOnward(s, id, (a: Agent) => a.(
          status := AgentRunning, lastEventAt := Some(now),
          dispatchedAt := Some(agent.dispatchedAt.Or(now)),
          jobUrl := Linked(agent.jobUrl, url)));
    }
  }

  lemma BriefedOnward(s: RunState, id: string, now: int, job: string, url: string)
    requires Inv(s)
    ensures AllStepped(s.agents, OnBriefed(s, id, now, job, url).state.agents)
  {
    SteppedReflexive(s.agents);
    if OnBriefed(s, id, now, job, url).moved {
      var agent := LiveAgent(s, id).value;
      var briefed := agent.(
          lastEventAt := None, briefedAt := Some(now),
          status := if agent.status == AgentStalled then AgentRunning else agent.status,
          jobUrl := Linked(agent.jobUrl, url));
      LiveOnward(s, id, (a: Agent) => briefed);
    }
  }

  lemma VerdictSteps(a: Agent, v: Verdict, now: int)
    requires !IsTerminal(a) && ParsedVerdict(v)
    ensures Stepped(a, WithVerdict(a, v, now))
  {
  }

  lemma ReportedOnward(s: RunState, id: string, v: Verdict, now: int)
    requires Inv(s) && ParsedVerdict(v)
    ensures AllStepped(s.agents, OnVerdict(s, id, v, now).state.agents)
  {
    SteppedReflexive(s.agents);
    if OnVerdict(s, id, v, now).moved {
      VerdictAgents(s, id, v, now);
      VerdictSteps(LiveAgent(s, id).value, v, now);
      hide AllStepped, Stepped, Inv, OnVerdict, LiveAgent, WithVerdict, ParsedVerdict;
      LiveOnward(s, id, (a: Agent) => WithVerdict(a, v, now));
    }
  }

  // A failure, and the link it may bring.
  lemma GaveUpOnward(s: RunState, id: string, reason: string, now: int, url: string)
    requires Inv(s)
    ensures AllStepped(s.agents, OnFailure(s, id, reason, now, url).state.agents)
  {
    SteppedReflexive(s.agents);
    if OnFailure(s, id, reason, now, url).moved {
      FailureAgents(s, id, reason, now, url);
      LiveOnward(s, id, (a: Agent) => WithFailure(a, reason, now, url));
      hide AllStepped, Inv, OnFailure;
    }
  }

  lemma TranscriptOnward(s: RunState, id: string)
    requires Inv(s)
    ensures AllStepped(s.agents, OnTranscript(s, id).state.agents)
  {
    SteppedReflexive(s.agents);
  }

  lemma TickAgentOnward(a: Agent, createdAt: int, now: int)
    ensures Stepped(a, TickAgent(a, createdAt, now))
  {
  }

  lemma TickedOnward(s: RunState, now: int)
    requires DistinctAgents(s.agents)
    ensures AllStepped(s.agents, TickFirst(s, |s.agents|, now).next.agents)
  {
    TickFirstMeaning(s, |s.agents|, now);
    hide DistinctAgents, TickFirst, TickAgent, Stepped;
    var t := TickFirst(s, |s.agents|, now).next;
    forall i | 0 <= i < |s.agents| ensures Stepped(s.agents[i], t.agents[i]) {
      TickAgentOnward(s.agents[i], s.createdAt, now);
    }
  }

  lemma AlarmOnward(s: RunState, now: int)
    requires Inv(s)
    ensures AllStepped(s.agents, OnTick(s, now).state.agents)
  {
    SteppedReflexive(s.agents);
    if s.status == OnTheHill {
      var t := TickFirst(s, |s.agents|, now).next;
      TickedOnward(s, now);
      SweptFacts(t, now);
      hide AllStepped, Inv, TickFirst;
    }
  }

  lemma HaltOnward(agents: seq<Agent>, summary: string, now: int)
    ensures AllStepped(agents, Map(agents, (a: Agent) => HaltAgent(a, summary, now)))
  {
  }

  lemma RetryOnward(s: RunState, target: RetryTarget, now: int, mint: nat -> string)
    requires Inv(s)
    ensures AllStepped(s.agents, RetryAgents(s, target, now, mint).state.agents)
  {
    RetryableFacts(s, target);
    SteppedReflexive(s.agents);
    var ids := RetryableAgents(s, target);
    if |ids| > 0 {
      var r := RetriedState(s, ids, now, mint).agents;
      forall i | 0 <= i < |r| ensures Stepped(s.agents[i], r[i]) {
        assert s.agents[i].id in ids ==> Retries(s, target, s.agents[i]);
      }
    }
  }

  // Every event takes every patroller's attempt onward.
  lemma EveryStepOnward(s: RunState, e: Event)
    requires Inv(s) && Legal(e)
    ensures AllStepped(s.agents, Apply(s, e).state.agents)
  {
    hide Inv, AllStepped, SweptState, RetriedState;
    SteppedReflexive(s.agents);
    match e
    case Dispatched(id, now) => DispatchedOnward(s, id, now);
    case Events(id, count, now, url) => EventsOnward(s, id, count, now, url);
    case Briefed(id, now, job, url) => BriefedOnward(s, id, now, job, url);
    case Reported(id, v, now) => ReportedOnward(s, id, v, now);
    case GaveUp(id, reason, now, url) => GaveUpOnward(s, id, reason, now, url);
    case Transcript(id) => TranscriptOnward(s, id);
    case Alarm(now) => AlarmOnward(s, now);
    case Retry(target, now, mint) => RetryOnward(s, target, now, mint);
    case Stop(reason, now) => HaltOnward(s.agents, "stopped · " + reason, now);
    case Land(sha, now) => HaltOnward(s.agents, "stopped · PR merged", now);
    case _ =>
  }

  // --- Across a run -------------------------------------------------------------------------

  predicate Replaceable(a: Agent) {
    !(a.status == AgentClear || a.status == AgentHazards || a.status == AgentStopped)
  }

  // `b` is a later state of the patroller `a`: of the same attempt, or of a later one, and then `a` was
  // not clear, stopped or found to have hazards.
  ghost predicate Onward(a: Agent, b: Agent) {
    && b.id == a.id && b.role == a.role && b.step == a.step && b.retries >= a.retries
    && (if b.retries == a.retries then SameAttempt(a, b) else Replaceable(a))
  }

  ghost predicate AllOnward(agents: seq<Agent>, others: seq<Agent>) {
    |agents| == |others| && forall i | 0 <= i < |agents| :: Onward(agents[i], others[i])
  }

  lemma OnwardReflexive(agents: seq<Agent>)
    ensures AllOnward(agents, agents)
  {
  }

  lemma SteppedOnward(agents: seq<Agent>, others: seq<Agent>)
    requires AllStepped(agents, others)
    ensures AllOnward(agents, others)
  {
    forall i | 0 <= i < |agents| ensures Onward(agents[i], others[i]) {
      assert Stepped(agents[i], others[i]);
    }
  }

  lemma OnwardTransitive(a: Agent, b: Agent, c: Agent)
    requires Onward(a, b) && Onward(b, c)
    ensures Onward(a, c)
  {
  }

  lemma AllOnwardTransitive(xs: seq<Agent>, ys: seq<Agent>, zs: seq<Agent>)
    requires AllOnward(xs, ys) && AllOnward(ys, zs)
    ensures AllOnward(xs, zs)
  {
    forall i | 0 <= i < |xs| ensures Onward(xs[i], zs[i]) {
      OnwardTransitive(xs[i], ys[i], zs[i]);
    }
  }

  // An attempt that is over is final, but for its transcript, and unless it failed is never followed by
  // another; within an attempt the dispatch time, the job link and the transcript are written once.
  lemma {:induction false} AttemptsFinal(a: Start, es: seq<Event>, fs: seq<Event>)
    requires DistinctRoster(a.cfg.roster) && AllLegal(es) && AllLegal(fs)
    ensures AllOnward(After(a, es).agents, After(a, es + fs).agents)
  {
    hide *;
    if |fs| == 0 {
      assert es + fs == es;
      OnwardReflexive(After(a, es).agents);
    } else {
      var init, last := fs[..|fs| - 1], fs[|fs| - 1];
      LegalInit(fs);
      AttemptsFinal(a, es, init);
      StepAfter(a, es, fs);
      SteppedOnward(After(a, es + init).agents, After(a, es + fs).agents);
      AllOnwardTransitive(After(a, es).agents, After(a, es + init).agents, After(a, es + fs).agents);
    }
  }

  lemma LegalInit(fs: seq<Event>)
    requires AllLegal(fs) && fs != []
    ensures AllLegal(fs[..|fs| - 1]) && Legal(fs[|fs| - 1])
  {
  }

  lemma LegalAppend(es: seq<Event>, fs: seq<Event>)
    requires AllLegal(es) && AllLegal(fs)
    ensures AllLegal(es + fs)
  {
  }

  lemma AfterLast(a: Start, es: seq<Event>, fs: seq<Event>)
    requires fs != []
    ensures After(a, es + fs) == Apply(After(a, es + fs[..|fs| - 1]), fs[|fs| - 1]).state
  {
    hide Apply;
    assert (es + fs)[..|es + fs| - 1] == es + fs[..|fs| - 1];
  }

  // The last event of a run takes every patroller on from the state before it.
  lemma StepAfter(a: Start, es: seq<Event>, fs: seq<Event>)
    requires DistinctRoster(a.cfg.roster) && AllLegal(es) && AllLegal(fs) && fs != []
    ensures AllStepped(After(a, es + fs[..|fs| - 1]).agents, After(a, es + fs).agents)
  {
    hide *;
    var init := fs[..|fs| - 1];
    LegalInit(fs);
    LegalAppend(es, init);
    AlwaysInv(a, es + init);
    AfterLast(a, es, fs);
    EveryStepOnward(After(a, es + init), fs[|fs| - 1]);
  }

  // Only a failed attempt is ever followed by another: each attempt a patroller has left behind had
  // failed at some time on the way.
  lemma {:induction false} OnlyFailedReplaced(a: Start, es: seq<Event>, fs: seq<Event>, i: nat, r: nat) returns (k: nat)
    requires DistinctRoster(a.cfg.roster) && AllLegal(es) && AllLegal(fs)
    requires i < |After(a, es).agents| == |After(a, es + fs).agents|
    requires After(a, es).agents[i].retries <= r < After(a, es + fs).agents[i].retries
    ensures k <= |fs| && i < |After(a, es + fs[..k]).agents|
    ensures var b := After(a, es + fs[..k]).agents[i]; b.retries == r && b.status == AgentError
    decreases |fs|
  {
    assert fs != [] by {
      assert fs == [] ==> es + fs == es;
    }
    hide *;
    var init := fs[..|fs| - 1];
    LegalInit(fs);
    StepAfter(a, es, fs);
    LastStepped(After(a, es + init).agents, After(a, es + fs).agents, i);
    var before := After(a, es + init).agents;
    if before[i].retries > r {
      k := OnlyFailedReplaced(a, es, init, i, r);
      assert init[..k] == fs[..k];
    } else {
      k := |init|;
      assert fs[..k] == init;
    }
  }

  lemma LastStepped(agents: seq<Agent>, others: seq<Agent>, i: nat)
    requires AllStepped(agents, others) && i < |others|
    ensures |agents| == |others|
    ensures others[i].retries == agents[i].retries
      || (others[i].retries == agents[i].retries + 1 && agents[i].status == AgentError)
  {
    assert Stepped(agents[i], others[i]);
  }

  // --- Clocks -------------------------------------------------------------------------------

  // When an agent is next due.
  function DueAt(a: Agent, createdAt: int): Option<int> {
    MinAt(DeadlinesOf(a, createdAt))
  }

  // The agent an event is about.
  function About(e: Event): Option<string> {
    match e
    case Dispatched(id, _) => Some(id)
    case Events(id, _, _, _) => Some(id)
    case Briefed(id, _, _, _) => Some(id)
    case Reported(id, _, _) => Some(id)
    case GaveUp(id, _, _, _) => Some(id)
    case _ => None
  }

  lemma MinOfTwo(x: Deadline, y: Deadline)
    ensures MinAt([x]) == Some(x.at)
    ensures MinAt([x, y]) == Some(if x.at <= y.at then x.at else y.at)
  {
    assert [x, y][1..] == [y] && [y][1..] == [] && [x][1..] == [];
  }

  // A brief gives a job ten minutes to be heard from; each batch of events heard gives it ten more,
  // but never past half an hour after the brief; a dispatch gives it half an hour to start; a fresh
  // attempt is given ten minutes to be dispatched; a finished one has no clock.
  lemma ClockMeaning(a: Agent, createdAt: int, now: int)
    requires !IsTerminal(a)
    ensures a.briefedAt == Some(now) && a.lastEventAt.None? && a.status != AgentStalled ==>
      DueAt(a, createdAt) == Some(now + STALL_MS)
    ensures a.briefedAt.Some? && a.lastEventAt == Some(now) && a.status != AgentStalled ==>
      DueAt(a, createdAt) == Some(if a.briefedAt.value + AGENT_TIMEOUT_MS <= now + STALL_MS
        then a.briefedAt.value + AGENT_TIMEOUT_MS else now + STALL_MS)
    ensures a.briefedAt.None? && a.dispatchedAt == Some(now) ==> DueAt(a, createdAt) == Some(now + JOB_START_MS)
    ensures a.briefedAt.None? && a.dispatchedAt.None? && a.retriedAt == Some(now) ==>
      DueAt(a, createdAt) == Some(now + STALL_MS)
  {
    var d := DeadlinesOf(a, createdAt);
    if |d| == 2 {
      MinOfTwo(d[0], d[1]);
    } else {
      MinOfTwo(d[0], d[0]);
      assert d == [d[0]];
    }
  }

  // What a moved event sets an agent's clock to.
  function ClockSet(e: Event, a: Agent): Option<int> {
    match e
    case Briefed(_, now, _, _) => Some(now + STALL_MS)
    case Events(_, _, now, _) =>
      if a.briefedAt.Some? && a.briefedAt.value + AGENT_TIMEOUT_MS <= now + STALL_MS
      then Some(a.briefedAt.value + AGENT_TIMEOUT_MS)
      else if a.briefedAt.Some? then Some(now + STALL_MS)
      else Some(a.dispatchedAt.Or(now) + JOB_START_MS)
    case Dispatched(_, now) =>
      if a.briefedAt.Some? then DueAt(a, 0) else Some(now + JOB_START_MS)
    case _ => None
  }

  lemma OthersStand(s: RunState, e: Event, i: nat)
    requires Inv(s) && Legal(e) && About(e).Some? && i < |s.agents| && s.agents[i].id != About(e).value
    ensures |Apply(s, e).state.agents| == |s.agents| && Apply(s, e).state.agents[i] == s.agents[i]
  {
    assert DistinctAgents(s.agents);
    hide Inv, DistinctAgents, Legal;
    if e.Reported? && Apply(s, e).moved {
      VerdictAgents(s, e.agentId, e.verdict, e.now);
      hide OnVerdict;
    } else if e.GaveUp? && Apply(s, e).moved {
      FailureAgents(s, e.agentId, e.reason, e.now, e.jobUrl);
      hide OnFailure;
    }
  }

  // An event about an agent sets that agent's clock, and leaves every other agent as it was.
  lemma ClocksSet(s: RunState, e: Event, i: nat)
    requires Inv(s) && Legal(e) && i < |s.agents| && About(e).Some? && Apply(s, e).moved
    ensures var r := Apply(s, e).state.agents;
      && |r| == |s.agents|
      && (s.agents[i].id != About(e).value ==> r[i] == s.agents[i])
      && (s.agents[i].id == About(e).value ==> DueAt(r[i], s.createdAt) == ClockSet(e, s.agents[i]))
  {
    if s.agents[i].id != About(e).value {
      OthersStand(s, e, i);
    } else if e.Reported? || e.GaveUp? {
      FinishedClock(s, e, i);
    } else {
      HeardClock(s, e, i);
    }
  }

  lemma FinishedClock(s: RunState, e: Event, i: nat)
    requires Inv(s) && Legal(e) && i < |s.agents| && Apply(s, e).moved
    requires (e.Reported? || e.GaveUp?) && s.agents[i].id == e.agentId
    ensures |Apply(s, e).state.agents| == |s.agents| && IsTerminal(Apply(s, e).state.agents[i])
    ensures DueAt(Apply(s, e).state.agents[i], s.createdAt).None?
  {
    if e.Reported? {
      VerdictAgents(s, e.agentId, e.verdict, e.now);
      hide OnVerdict, Inv;
    } else {
      FailureAgents(s, e.agentId, e.reason, e.now, e.jobUrl);
      hide OnFailure, Inv;
    }
  }

  lemma HeardClock(s: RunState, e: Event, i: nat)
    requires Inv(s) && i < |s.agents| && Apply(s, e).moved
    requires (e.Dispatched? || e.Events? || e.Briefed?) && s.agents[i].id == e.agentId
    ensures |Apply(s, e).state.agents| == |s.agents|
    ensures DueAt(Apply(s, e).state.agents[i], s.createdAt) == ClockSet(e, s.agents[i])
  {
    assert DistinctAgents(s.agents);
    hide Inv, DistinctAgents, DueAt, ClockSet, OnDispatched, OnEvents, OnBriefed, OnVerdict, OnFailure,
      OnTranscript, OnTick, StopRun, RetryAgents, BypassDesign, LandRun, OnRetitled, OnCheckCreated,
      AskCheckRepost, OnCheckReposted;
    if e.Dispatched? {
      DispatchedClock(s, e.agentId, e.now, i);
    } else if e.Events? {
      EventsClocked(s, e.agentId, e.count, e.now, e.jobUrl, i);
    } else {
      BriefedClock(s, e.agentId, e.now, e.githubRunId, e.jobUrl, i);
    }
  }

  lemma IndexIs(agents: seq<Agent>, id: string, i: nat)
    requires DistinctAgents(agents) && i < |agents| && agents[i].id == id
    ensures AgentIndex(agents, id) == i
  {
    var k := AgentIndex(agents, id);
    hide AgentIndex;
  }

  lemma DispatchedClock(s: RunState, id: string, now: int, i: nat)
    requires DistinctAgents(s.agents) && i < |s.agents| && s.agents[i].id == id && OnDispatched(s, id, now).moved
    ensures var r := OnDispatched(s, id, now).state.agents;
      |r| == |s.agents| && DueAt(r[i], s.createdAt) == ClockSet(Dispatched(id, now), s.agents[i])
  {
    IndexIs(s.agents, id, i);
    hide DistinctAgents, AgentIndex, DueAt;
    DispatchClock(s.agents[i], s.createdAt, now);
  }

  lemma EventsClocked(s: RunState, id: string, count: nat, now: int, url: string, i: nat)
    requires DistinctAgents(s.agents) && i < |s.agents| && s.agents[i].id == id
    requires OnEvents(s, id, count, now, url).moved
    ensures var r := OnEvents(s, id, count, now, url).state.agents;
      |r| == |s.agents| && DueAt(r[i], s.createdAt) == ClockSet(Events(id, count, now, url), s.agents[i])
  {
    IndexIs(s.agents, id, i);
    hide DistinctAgents, AgentIndex, DueAt;
    EventsClock(s.agents[i], s.createdAt, count, now, url);
  }

  lemma BriefedClock(s: RunState, id: string, now: int, job: string, url: string, i: nat)
    requires DistinctAgents(s.agents) && i < |s.agents| && s.agents[i].id == id && OnBriefed(s, id, now, job, url).moved
    ensures var r := OnBriefed(s, id, now, job, url).state.agents;
      |r| == |s.agents| && DueAt(r[i], s.createdAt) == ClockSet(Briefed(id, now, job, url), s.agents[i])
  {
    IndexIs(s.agents, id, i);
    hide DistinctAgents, AgentIndex, DueAt;
    BriefClock(s.agents[i], s.createdAt, now, url);
  }

  lemma DispatchClock(a: Agent, createdAt: int, now: int)
    requires a.status == AgentQueued
    ensures var b := a.(status := AgentDispatched, dispatchedAt := Some(now));
      DueAt(b, createdAt) == if a.briefedAt.Some? then DueAt(a, 0) else Some(now + JOB_START_MS)
  {
    var b := a.(status := AgentDispatched, dispatchedAt := Some(now));
    if a.briefedAt.None? {
      ClockMeaning(b, createdAt, now);
    } else {
      assert DeadlinesOf(b, createdAt) == DeadlinesOf(a, 0);
    }
  }

  lemma EventsClock(a: Agent, createdAt: int, count: nat, now: int, url: string)
    requires !IsTerminal(a)
    ensures var b := a.(status := AgentRunning, lastEventAt := Some(now), dispatchedAt := Some(a.dispatchedAt.Or(now)),
        jobUrl := Linked(a.jobUrl, url));
      DueAt(b, createdAt) == ClockSet(Events(a.id, count, now, url), a)
  {
    var b := a.(status := AgentRunning, lastEventAt := Some(now), dispatchedAt := Some(a.dispatchedAt.Or(now)),
        jobUrl := Linked(a.jobUrl, url));
    ClockMeaning(b, createdAt, now);
    ClockMeaning(b, createdAt, a.dispatchedAt.Or(now));
    hide DueAt;
  }

  lemma BriefClock(a: Agent, createdAt: int, now: int, url: string)
    requires !IsTerminal(a)
    ensures var b := a.(lastEventAt := None, briefedAt := Some(now),
        status := if a.status == AgentStalled then AgentRunning else a.status, jobUrl := Linked(a.jobUrl, url));
      DueAt(b, createdAt) == Some(now + STALL_MS)
  {
    var b := a.(lastEventAt := None, briefedAt := Some(now),
        status := if a.status == AgentStalled then AgentRunning else a.status, jobUrl := Linked(a.jobUrl, url));
    ClockMeaning(b, createdAt, now);
    hide DueAt;
  }
}
