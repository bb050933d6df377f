// What every reachable state of a run satisfies, proved step by step over all event sequences.
module Lifecycle {
  import opened Domain
  import opened Machine

  // --- Runs of the machine ------------------------------------------------------------------

  // Everything that can happen to a run, with the clock it is handed.
  datatype Event =
    | Dispatched(agentId: string, now: int)
    | Events(agentId: string, count: nat, now: int, jobUrl: string)
    | Briefed(agentId: string, now: int, githubRunId: string, jobUrl: string)
    | Reported(agentId: string, verdict: Verdict, now: int)
    | GaveUp(agentId: string, reason: string, now: int, jobUrl: string)
    | Transcript(agentId: string)
    | Alarm(now: int)
    | Stop(reason: string, now: int)
    | Retry(target: RetryTarget, now: int, mint: nat -> string)
    | Bypass(now: int)
    | Land(mergeSha: string, now: int)
    | Retitle(title: string, now: int)
    | CheckCreated(id: int)
    | AskRepost
    | CheckReposted(id: int, asked: nat)

  function Apply(s: RunState, e: Event): Transition {
    match e
    case Dispatched(id, now) => OnDispatched(s, id, now)
    case Events(id, count, now, url) => OnEvents(s, id, count, now, url)
    case Briefed(id, now, job, url) => OnBriefed(s, id, now, job, url)
    case Reported(id, v, now) => OnVerdict(s, id, v, now)
    case GaveUp(id, reason, now, url) => OnFailure(s, id, reason, now, url)
    case Transcript(id) => OnTranscript(s, id)
    case Alarm(now) => OnTick(s, now)
    case Stop(reason, now) => StopRun(s, reason, now)
    case Retry(target, now, mint) => RetryAgents(s, target, now, mint)
    case Bypass(now) => BypassDesign(s, now)
    case Land(sha, now) => LandRun(s, sha, now)
    case Retitle(title, now) => OnRetitled(s, title, now)
    case CheckCreated(id) => OnCheckCreated(s, id)
    case AskRepost => AskCheckRepost(s)
    case CheckReposted(id, asked) => OnCheckReposted(s, id, asked)
  }

  // A verdict reaches the machine only through parseVerdict (run/do.ts:150-159).
  predicate Legal(e: Event) {
    e.Reported? ==> ParsedVerdict(e.verdict)
  }

  ghost predicate AllLegal(es: seq<Event>) {
    forall k | 0 <= k < |es| :: Legal(es[k])
  }

  // The state after `es`, from a run just created.
  function After(a: Start, es: seq<Event>): RunState {
    if |es| == 0 then CreateRun(a).state
    else Apply(After(a, es[..|es| - 1]), es[|es| - 1]).state
  }

  // --- The invariant ------------------------------------------------------------------------

  ghost predicate DistinctAgents(agents: seq<Agent>) {
    forall i, j | 0 <= i < j < |agents| :: agents[i].id != agents[j].id
  }

  ghost predicate DistinctRoster(roster: seq<RosterEntry>) {
    forall i, j | 0 <= i < j < |roster| :: roster[i].id != roster[j].id
  }

  // An agent of the sweep; hazards are listed by a hazards verdict and by nothing else.
  ghost predicate SoundAgent(a: Agent) {
    && a.step == Sweep
    && a.round == 0
    && a.id == AgentIdFor(a.role)
    && (a.status == AgentHazards <==> a.hazards != [])
  }

  ghost predicate SoundAgents(agents: seq<Agent>) {
    DistinctAgents(agents) && forall i | 0 <= i < |agents| :: SoundAgent(agents[i])
  }

  ghost predicate SomeOut(agents: seq<Agent>) {
    exists i | 0 <= i < |agents| :: !IsTerminal(agents[i])
  }

  ghost predicate SomeStopped(agents: seq<Agent>) {
    exists i | 0 <= i < |agents| :: agents[i].status == AgentStopped
  }

  // A step's place in STEP_ORDER.
  function Place(id: StepId): nat {
    match id
    case LiftLine => 0
    case TrailMap => 1
    case Sweep => 2
    case Huddle => 3
    case Summit => 4
    case DropIn => 5
    case SendIt => 6
  }

  // What the step in place `i` may be: only the sweep is ever under way.
  ghost predicate SoundStep(i: nat, step: Step, landed: bool) {
    && Place(step.id) == i
    && match i
       case 0 => step.status == StepDone
       case 1 => step.status == StepDone
       case 2 => step.status in {StepActive, StepDone, StepStopped}
       case 5 => step.status == (if landed then StepDone else StepPending)
       case _ => step.status == (if landed then StepSkipped else StepPending)
  }

  ghost predicate SoundSteps(steps: seq<Step>, landed: bool) {
    |steps| == 7 && forall i | 0 <= i < 7 :: SoundStep(i, steps[i], landed)
  }

  ghost predicate SweepMatches(s: RunState)
    requires |s.steps| == 7
  {
    var sweep := s.steps[2].status;
    && s.status != Failed
    && (s.status == OnTheHill <==> sweep == StepActive)
    && (s.status == OnTheHill <==> SomeOut(s.agents))
    && (s.status == Swept ==> sweep == StepDone)
    && (sweep == StepStopped <==> SomeStopped(s.agents))
  }

  ghost predicate HoldsWaived(agents: seq<Agent>) {
    exists i | 0 <= i < |agents| :: HasWaivable(agents[i])
  }

  ghost predicate KeyedBy(m: map<string, string>, ids: seq<string>) {
    forall id :: id in m <==> id in ids
  }

  ghost predicate KeyedWithin(m: map<string, string>, ids: seq<string>) {
    forall id | id in m :: id in ids
  }

  ghost predicate Inv(s: RunState) {
    && SoundAgents(s.agents)
    && SoundSteps(s.steps, s.status == Landed)
    && SweepMatches(s)
    && (s.status == Landed <==> s.mergeSha.Some?)
    && KeyedBy(s.nonces, AgentIds(s.agents))
    && KeyedWithin(s.jobRuns, AgentIds(s.agents))
    && (s.designBypassedAt.Some? ==> HoldsWaived(s.agents))
    && s.checkReposts != Some(0)
  }

  // --- Small facts --------------------------------------------------------------------------

  // Two roles never share an agent id: the part before the fixed suffix is the role's own name.
  lemma {:induction false} AgentIdInjective(r: Role, q: Role)
    requires AgentIdFor(r) == AgentIdFor(q)
    ensures r == q
  {
    assert RoleName(r) == AgentIdFor(r)[..|AgentIdFor(r)| - 8];
    assert RoleName(q) == AgentIdFor(q)[..|AgentIdFor(q)| - 8];
    assert RoleName(r)[..2] == RoleName(q)[..2];
    assert RoleName(r)[1] == RoleName(q)[1] && RoleName(r)[0] == RoleName(q)[0];
    assert |RoleName(r)| == |RoleName(q)|;
    assert RoleName(r)[2] == RoleName(q)[2];
  }

  lemma StepsFound(s: RunState)
    requires |s.steps| == 7 && forall i | 0 <= i < 7 :: Place(s.steps[i].id) == i
    ensures forall status :: StepIs(s, Sweep, status) <==> s.steps[2].status == status
    ensures forall status :: StepIs(s, Huddle, status) <==> s.steps[3].status == status
    ensures forall status :: StepIs(s, Summit, status) <==> s.steps[4].status == status
  {
    assert Place(s.steps[2].id) == 2 && Place(s.steps[3].id) == 3 && Place(s.steps[4].id) == 4;
  }

  lemma SweepsAreAll(agents: seq<Agent>)
    requires forall i | 0 <= i < |agents| :: agents[i].step == Sweep
    ensures SweepsOf(agents) == agents
  {
    if agents != [] {
      SweepsAreAll(agents[1..]);
    }
  }

  lemma MintedKeys(base: map<string, string>, ids: seq<string>, mint: nat -> string)
    ensures forall id :: id in Minted(base, ids, mint) <==> id in base || id in ids
  {
    if ids != [] {
      MintedKeys(base, ids[..|ids| - 1], mint);
      assert ids == ids[..|ids| - 1] + [ids[|ids| - 1]];
    }
  }

  lemma PatrollersDistinct(roster: seq<RosterEntry>, enabled: seq<Role>, panels: seq<Panel>)
    requires DistinctRoster(roster)
    ensures DistinctRoster(Patrollers(roster, enabled, panels))
  {
    if roster != [] {
      PatrollersDistinct(roster[1..], enabled, panels);
      assert forall e | e in Patrollers(roster[1..], enabled, panels) :: e in roster[1..];
      assert forall e | e in roster[1..] :: e.id != roster[0].id;
    }
  }

  // Closing a sweep that is over rewrites the sweep step, the status and the clock, nothing else.
  lemma SweptFacts(s: RunState, now: int)
    ensures SweptState(s, now).Some? <==> AllIn(s.agents)
    ensures SweptState(s, now).Some? ==>
      var t := SweptState(s, now).value;
      && t == s.(status := Swept, updatedAt := now, steps := t.steps)
      && |t.steps| == |s.steps|
      && forall i | 0 <= i < |s.steps| ::
           t.steps[i] == if s.steps[i].id == Sweep
             then s.steps[i].(status := StepDone, finishedAt := Some(now), notes := t.steps[i].notes)
             else s.steps[i]
  {
  }

  // A run on the hill in the middle of a transition: whether an agent is still out is open.
  ghost predicate MidSweep(s: RunState) {
    && SoundAgents(s.agents)
    && SoundSteps(s.steps, false)
    && s.status == OnTheHill
    && s.steps[2].status == StepActive
    && !SomeStopped(s.agents)
    && s.mergeSha.None?
    && KeyedBy(s.nonces, AgentIds(s.agents))
    && KeyedWithin(s.jobRuns, AgentIds(s.agents))
    && (s.designBypassedAt.Some? ==> HoldsWaived(s.agents))
    && s.checkReposts != Some(0)
  }

  lemma ClosedInv(s: RunState, now: int)
    requires MidSweep(s)
    ensures Inv(SweptState(s, now).Or(s))
  {
    SweptFacts(s, now);
    if AllIn(s.agents) {
      assert SoundSteps(SweptState(s, now).value.steps, false);
      assert !SomeOut(s.agents);
    }
  }

  lemma FreshStepsSound(goal: string, a: Start)
    ensures var steps := Map(STEP_ORDER, (id: StepId) => FreshStep(id, a.triage, goal, a.now));
      SoundSteps(steps, false) && steps[2].status == StepActive
  {
    forall i | 0 <= i < 7 ensures Place(STEP_ORDER[i]) == i {
    }
  }

  lemma FreshMidSweep(a: Start)
    requires DistinctRoster(a.cfg.roster)
    ensures MidSweep(FreshRun(a))
  {
    var entries := Patrollers(a.cfg.roster, a.cfg.enabledRoles, a.triage.panels);
    PatrollersDistinct(a.cfg.roster, a.cfg.enabledRoles, a.triage.panels);
    var agents := FreshAgents(a);
    forall i, j | 0 <= i < j < |agents| ensures agents[i].id != agents[j].id {
      if agents[i].id == agents[j].id {
        AgentIdInjective(entries[i].id, entries[j].id);
      }
    }
    MintedKeys(map[], AgentIds(agents), a.mint);
    FreshStepsSound(FreshRun(a).card.goal, a);
  }

  lemma CreatedInv(a: Start)
    requires DistinctRoster(a.cfg.roster)
    ensures Inv(CreateRun(a).state)
  {
    hide Inv, MidSweep, SweptState, FreshRun, DistinctRoster;
    FreshMidSweep(a);
    ClosedInv(FreshRun(a), a.now);
  }

  // --- The same patrollers, changed ---------------------------------------------------------

  ghost predicate SameWho(agents: seq<Agent>, others: seq<Agent>) {
    && |agents| == |others|
    && forall i | 0 <= i < |agents| :: others[i].id == agents[i].id && others[i].role == agents[i].role
  }

  // A change that keeps who the agents are and what the owner waived.
  lemma Carried(agents: seq<Agent>, others: seq<Agent>)
    requires SoundAgents(agents) && SameWho(agents, others)
    requires forall i | 0 <= i < |others| :: SoundAgent(others[i])
    requires forall i | 0 <= i < |agents| :: HasWaivable(agents[i]) ==> HasWaivable(others[i])
    ensures SoundAgents(others)
    ensures AgentIds(others) == AgentIds(agents)
    ensures HoldsWaived(agents) ==> HoldsWaived(others)
  {
    if HoldsWaived(agents) {
      var i :| 0 <= i < |agents| && HasWaivable(agents[i]);
      assert HasWaivable(others[i]);
    }
  }

  lemma NoHazardsNoWaiver(a: Agent)
    ensures a.hazards == [] ==> !HasWaivable(a)
  {
  }

  lemma SameHazardsSameWaiver(a: Agent, b: Agent)
    requires a.role == b.role && a.hazards == b.hazards
    ensures HasWaivable(a) <==> HasWaivable(b)
  {
    if HasWaivable(a) {
      var j :| 0 <= j < |a.hazards| && Waivable(a, a.hazards[j]);
      assert Waivable(b, b.hazards[j]);
    }
    if HasWaivable(b) {
      var j :| 0 <= j < |b.hazards| && Waivable(b, b.hazards[j]);
      assert Waivable(a, a.hazards[j]);
    }
  }

  lemma WithAgentReplaces(agents: seq<Agent>, id: string, patch: Agent -> Agent)
    requires DistinctAgents(agents) && AgentIndex(agents, id) < |agents|
    ensures var k := AgentIndex(agents, id); WithAgent(agents, id, patch) == agents[k := patch(agents[k])]
  {
  }

  lemma ReplacedCarried(agents: seq<Agent>, k: nat, b: Agent)
    requires SoundAgents(agents) && k < |agents|
    requires SoundAgent(b) && b.id == agents[k].id && b.role == agents[k].role
    requires b.hazards == agents[k].hazards || agents[k].hazards == []
    ensures var r := agents[k := b];
      SoundAgents(r) && AgentIds(r) == AgentIds(agents) && (HoldsWaived(agents) ==> HoldsWaived(r))
  {
    NoHazardsNoWaiver(agents[k]);
    if b.hazards == agents[k].hazards {
      SameHazardsSameWaiver(agents[k], b);
    }
    Carried(agents, agents[k := b]);
  }

  // A live agent that has been heard from, in whatever way, leaves the sweep under way or over.
  lemma LivePatched(s: RunState, id: string, patch: Agent -> Agent, now: int)
    requires Inv(s) && LiveAgent(s, id).Some?
    requires var b := patch(LiveAgent(s, id).value);
      SoundAgent(b) && b.id == id && b.role == LiveAgent(s, id).value.role && b.status != AgentStopped
    ensures MidSweep(PatchAgent(s, id, patch, now))
  {
    var k := AgentIndex(s.agents, id);
    WithAgentReplaces(s.agents, id, patch);
    ReplacedCarried(s.agents, k, patch(s.agents[k]));
  }

  // When it is still out afterwards, the sweep is still under way.
  lemma LiveStaysOut(s: RunState, id: string, patch: Agent -> Agent, now: int)
    requires Inv(s) && LiveAgent(s, id).Some?
    requires var b := patch(LiveAgent(s, id).value);
      SoundAgent(b) && b.id == id && b.role == LiveAgent(s, id).value.role && !IsTerminal(b)
    ensures Inv(PatchAgent(s, id, patch, now))
  {
    LivePatched(s, id, patch, now);
    var k := AgentIndex(s.agents, id);
    WithAgentReplaces(s.agents, id, patch);
    assert PatchAgent(s, id, patch, now).agents[k] == patch(s.agents[k]);
  }

  lemma DispatchedKeepsInv(s: RunState, id: string, now: int)
    requires Inv(s)
    ensures Inv(OnDispatched(s, id, now).state)
  {
    if OnDispatched(s, id, now).moved {
      LiveStaysOut(s, id, (b: Agent) => b.(status := AgentDispatched, dispatchedAt := Some(now)), now);
    }
  }

  lemma EventsKeepInv(s: RunState, id: string, count: nat, now: int, url: string)
    requires Inv(s)
    ensures Inv(OnEvents(s, id, count, now, url).state)
  {
    if OnEvents(s, id, count, now, url).moved {
      var a := LiveAgent(s, id).value;
      LiveStaysOut(s, id, (b: Agent) => b.(
          status := AgentRunning, lastEventAt := Some(now),
          dispatchedAt := Some(a.dispatchedAt.Or(now)), jobUrl := Linked(a.jobUrl, url)), now);
    }
  }

  lemma BriefedKeepsInv(s: RunState, id: string, now: int, job: string, url: string)
    requires Inv(s)
    ensures Inv(OnBriefed(s, id, now, job, url).state)
  {
    if OnBriefed(s, id, now, job, url).moved {
      var a := LiveAgent(s, id).value;
      var briefed := a.(lastEventAt := None, briefedAt := Some(now),
          status := if a.status == AgentStalled then AgentRunning else a.status,
          jobUrl := Linked(a.jobUrl, url));
      var patch := (b: Agent) => briefed;
      LiveStaysOut(s, id, patch, now);
      var k := AgentIndex(s.agents, id);
      assert AgentIds(s.agents)[k] == id;
      WithAgentReplaces(s.agents, id, patch);
      assert OnBriefed(s, id, now, job, url).state
          == PatchAgent(s, id, patch, now).(jobRuns := s.jobRuns[id := job]);
    }
  }

  lemma VerdictKeepsInv(s: RunState, id: string, v: Verdict, now: int)
    requires Inv(s) && ParsedVerdict(v)
    ensures Inv(OnVerdict(s, id, v, now).state)
  {
    if OnVerdict(s, id, v, now).moved {
      var patch := (b: Agent) => b.(
          status := v.status, summary := Some(v.summary), hazards := v.hazards, finishedAt := Some(now));
      LivePatched(s, id, patch, now);
      ClosedInv(PatchAgent(s, id, patch, now), now);
    }
  }

  lemma TranscriptKeepsInv(s: RunState, id: string)
    requires Inv(s)
    ensures Inv(OnTranscript(s, id).state)
  {
    if OnTranscript(s, id).moved {
      var k := AgentIndex(s.agents, id);
      var patch := (a: Agent) => a.(hasTranscript := true);
      WithAgentReplaces(s.agents, id, patch);
      ReplacedCarried(s.agents, k, patch(s.agents[k]));
      StatusesDecide(s.agents, WithAgent(s.agents, id, patch));
    }
  }

  // What the lifecycle reads of the agents is their statuses, in order.
  lemma StatusesDecide(agents: seq<Agent>, others: seq<Agent>)
    requires |agents| == |others|
    requires forall i | 0 <= i < |agents| :: agents[i].status == others[i].status
    ensures SomeOut(agents) <==> SomeOut(others)
    ensures SomeStopped(agents) <==> SomeStopped(others)
  {
    if SomeOut(agents) {
      var i :| 0 <= i < |agents| && !IsTerminal(agents[i]);
      assert !IsTerminal(others[i]);
    }
    if SomeStopped(agents) {
      var i :| 0 <= i < |agents| && agents[i].status == AgentStopped;
      assert others[i].status == AgentStopped;
    }
  }

  // What a failure leaves of the run before the sweep is closed.
  lemma FailureMidSweep(s: RunState, id: string, reason: string, now: int, url: string)
    requires Inv(s) && LiveAgent(s, id).Some?
    ensures MidSweep(FailedState(s, id, reason, now))
    ensures MidSweep(PatchAgent(FailedState(s, id, reason, now), id, (a: Agent) => a.(jobUrl := url), now))
  {
    var fail := (b: Agent) => b.(status := AgentError, summary := Some(reason), finishedAt := Some(now));
    LivePatched(s, id, fail, now);
    var failure := FailedState(s, id, reason, now);
    var k := AgentIndex(s.agents, id);
    WithAgentReplaces(s.agents, id, fail);
    assert failure.agents[k].id == id;
    LinkedMidSweep(failure, id, url, now);
  }

  lemma LinkedMidSweep(s: RunState, id: string, url: string, now: int)
    requires MidSweep(s) && AgentIndex(s.agents, id) < |s.agents|
    ensures MidSweep(PatchAgent(s, id, (a: Agent) => a.(jobUrl := url), now))
  {
    var link := (b: Agent) => b.(jobUrl := url);
    var k := AgentIndex(s.agents, id);
    WithAgentReplaces(s.agents, id, link);
    ReplacedCarried(s.agents, k, link(s.agents[k]));
    StatusesDecide(s.agents, WithAgent(s.agents, id, link));
  }

  lemma FailureKeepsInv(s: RunState, id: string, reason: string, now: int, url: string)
    requires Inv(s)
    ensures Inv(OnFailure(s, id, reason, now, url).state)
  {
    if OnFailure(s, id, reason, now, url).moved {
      FailureMidSweep(s, id, reason, now, url);
      var failure := FailedState(s, id, reason, now);
      ClosedInv(failure, now);
      ClosedInv(PatchAgent(failure, id, (a: Agent) => a.(jobUrl := url), now), now);
    }
  }

  // --- The alarm ----------------------------------------------------------------------------

  predicate IsDue(a: Agent, createdAt: int, now: int) {
    FirstDue(DeadlinesOf(a, createdAt), now).Some?
  }

  predicate FailsNow(a: Agent, createdAt: int, now: int) {
    var due := FirstDue(DeadlinesOf(a, createdAt), now);
    due.Some? && due.value.failure.Some?
  }

  // What a tick makes of one agent.
  function TickAgent(a: Agent, createdAt: int, now: int): Agent {
    if FailsNow(a, createdAt, now) then
      a.(status := AgentError, summary := FirstDue(DeadlinesOf(a, createdAt), now).value.failure,
         finishedAt := Some(now))
    else if IsDue(a, createdAt, now) then a.(status := AgentStalled)
    else a
  }

  // The agents with the first `k` of them ticked.
  function TickAgents(s: RunState, k: nat, now: int): (r: seq<Agent>)
    requires k <= |s.agents|
    ensures |r| == |s.agents|
    ensures forall i | 0 <= i < k :: r[i] == TickAgent(s.agents[i], s.createdAt, now)
    ensures forall i | k <= i < |r| :: r[i] == s.agents[i]
  {
    seq(|s.agents|, i requires 0 <= i < |s.agents| =>
      if i < k then TickAgent(s.agents[i], s.createdAt, now) else s.agents[i])
  }

  ghost predicate SomeDue(s: RunState, k: nat, now: int)
    requires k <= |s.agents|
  {
    exists i | 0 <= i < k :: IsDue(s.agents[i], s.createdAt, now)
  }

  ghost predicate SomeFails(s: RunState, k: nat, now: int)
    requires k <= |s.agents|
  {
    exists i | 0 <= i < k :: FailsNow(s.agents[i], s.createdAt, now)
  }

  // How many of the first `k` agents are past a limit that fails them.
  function FailCount(s: RunState, k: nat, now: int): (n: nat)
    requires k <= |s.agents|
    ensures n > 0 <==> SomeFails(s, k, now)
  {
    if k == 0 then 0
    else FailCount(s, k - 1, now) + (if FailsNow(s.agents[k - 1], s.createdAt, now) then 1 else 0)
  }

  lemma TickOneAgents(agents: seq<Agent>, next: seq<Agent>, k: nat, patch: Agent -> Agent)
    requires DistinctAgents(agents) && |next| == |agents| && k < |agents|
    requires forall i | 0 <= i < |agents| :: next[i].id == agents[i].id
    ensures WithAgent(next, agents[k].id, patch) == next[k := patch(next[k])]
  {
  }

  // Where onTick's loop stands after `k` turns: the first `k` agents have been ticked, and nothing
  // else of the run but its clock and its stall log has changed.
  ghost predicate TickedTo(s: RunState, k: nat, now: int, t: Ticked)
    requires k <= |s.agents|
  {
    && t.next == s.(agents := TickAgents(s, k, now), stalledLogged := t.next.stalledLogged,
                    updatedAt := t.next.updatedAt)
    && (t.acted <==> SomeDue(s, k, now))
    && t.failures == FailCount(s, k, now)
    && (!t.acted ==> t == Ticked(s, false, 0, []))
  }

  lemma TickTurn(s: RunState, t: Ticked, k: nat, now: int)
    requires DistinctAgents(s.agents) && k < |s.agents|
    requires t.next.agents == TickAgents(s, k, now)
    ensures var u := TickOne(t, s.agents[k], s.createdAt, now);
      && u.next == t.next.(agents := TickAgents(s, k + 1, now), stalledLogged := u.next.stalledLogged,
                           updatedAt := u.next.updatedAt)
      && u.acted == (t.acted || IsDue(s.agents[k], s.createdAt, now))
      && u.failures == t.failures + (if FailsNow(s.agents[k], s.createdAt, now) then 1 else 0)
      && (!u.acted ==> u == t)
  {
    var a := s.agents[k];
    var due := FirstDue(DeadlinesOf(a, s.createdAt), now);
    assert TickAgents(s, k + 1, now) == t.next.agents[k := TickAgent(a, s.createdAt, now)];
    if due.Some? && due.value.failure.Some? {
      TickOneAgents(s.agents, t.next.agents, k, (b: Agent) => b.(
          status := AgentError, summary := Some(due.value.failure.value), finishedAt := Some(now)));
    } else if due.Some? {
      TickOneAgents(s.agents, t.next.agents, k, (b: Agent) => b.(status := AgentStalled));
    }
  }

  lemma TickTurnFlags(s: RunState, k: nat, now: int)
    requires k < |s.agents|
    ensures SomeDue(s, k + 1, now) <==> SomeDue(s, k, now) || IsDue(s.agents[k], s.createdAt, now)
    ensures FailCount(s, k + 1, now)
      == FailCount(s, k, now) + (if FailsNow(s.agents[k], s.createdAt, now) then 1 else 0)
  {
    hide IsDue, FailsNow, SomeFails;
  }

  lemma TickedOn(s: RunState, t: Ticked, k: nat, now: int)
    requires DistinctAgents(s.agents) && k < |s.agents| && TickedTo(s, k, now, t)
    ensures TickedTo(s, k + 1, now, TickOne(t, s.agents[k], s.createdAt, now))
  {
    hide TickOne, TickAgents, SomeDue, SomeFails, FailCount, DistinctAgents, IsDue, FailsNow;
    TickTurn(s, t, k, now);
    TickTurnFlags(s, k, now);
  }

  lemma NoneTicked(s: RunState, now: int)
    ensures TickedTo(s, 0, now, TickFirst(s, 0, now))
  {
    assert TickAgents(s, 0, now) == s.agents;
  }

  lemma OneMoreTicked(s: RunState, k: nat, now: int)
    requires 0 < k <= |s.agents|
    ensures TickFirst(s, k, now) == TickOne(TickFirst(s, k - 1, now), s.agents[k - 1], s.createdAt, now)
  {
    hide TickOne;
  }

  // The loop of onTick treats each agent by itself.
  lemma {:induction false} TickFirstMeaning(s: RunState, k: nat, now: int)
    requires DistinctAgents(s.agents) && k <= |s.agents|
    ensures TickedTo(s, k, now, TickFirst(s, k, now))
  {
    hide *;
    if k == 0 {
      NoneTicked(s, now);
    } else {
      TickFirstMeaning(s, k - 1, now);
      TickedOn(s, TickFirst(s, k - 1, now), k - 1, now);
      OneMoreTicked(s, k, now);
    }
  }

  lemma TickAgentSound(a: Agent, createdAt: int, now: int)
    requires SoundAgent(a)
    ensures var b := TickAgent(a, createdAt, now);
      && SoundAgent(b)
      && b == a.(status := b.status, summary := b.summary, finishedAt := b.finishedAt)
      && (b.status == AgentStopped ==> a.status == AgentStopped)
      && (IsTerminal(a) ==> b == a)
      && (IsTerminal(b) <==> IsTerminal(a) || FailsNow(a, createdAt, now))
  {
  }

  lemma TickedCarried(s: RunState, now: int)
    requires SoundAgents(s.agents)
    ensures var r := TickAgents(s, |s.agents|, now);
      && SoundAgents(r) && AgentIds(r) == AgentIds(s.agents)
      && (HoldsWaived(s.agents) ==> HoldsWaived(r))
      && (!SomeStopped(s.agents) ==> !SomeStopped(r))
      && (SomeOut(s.agents) && !SomeFails(s, |s.agents|, now) ==> SomeOut(r))
  {
    var r := TickAgents(s, |s.agents|, now);
    forall i | 0 <= i < |r|
      ensures SoundAgent(r[i]) && r[i].id == s.agents[i].id && r[i].role == s.agents[i].role
      ensures r[i].status == AgentStopped ==> s.agents[i].status == AgentStopped
      ensures HasWaivable(s.agents[i]) ==> HasWaivable(r[i])
      ensures !IsTerminal(s.agents[i]) && !FailsNow(s.agents[i], s.createdAt, now) ==> !IsTerminal(r[i])
    {
      TickAgentSound(s.agents[i], s.createdAt, now);
      SameHazardsSameWaiver(s.agents[i], r[i]);
    }
    Carried(s.agents, r);
    if SomeOut(s.agents) && !SomeFails(s, |s.agents|, now) {
      var i :| 0 <= i < |s.agents| && !IsTerminal(s.agents[i]);
      assert !IsTerminal(r[i]);
    }
  }

  lemma TickedMidSweep(s: RunState, now: int)
    requires Inv(s) && s.status == OnTheHill
    ensures MidSweep(TickFirst(s, |s.agents|, now).next)
  {
    TickFirstMeaning(s, |s.agents|, now);
    TickedCarried(s, now);
  }

  // A tick that fails nobody leaves somebody out, so every tick that acts ends as a close would.
  lemma TickCloses(s: RunState, now: int)
    requires SoundAgents(s.agents) && SomeOut(s.agents) && s.status == OnTheHill
    ensures var t := TickFirst(s, |s.agents|, now);
      OnTick(s, now).state == if t.acted then SweptState(t.next, now).Or(t.next) else s
  {
    var t := TickFirst(s, |s.agents|, now);
    if t.failures == 0 {
      NoFailureNoClose(s, now);
    }
    hide TickFirst, SoundAgents, SomeOut, AllIn;
  }

  lemma NoFailureNoClose(s: RunState, now: int)
    requires SoundAgents(s.agents) && SomeOut(s.agents)
    requires TickFirst(s, |s.agents|, now).failures == 0
    ensures !AllIn(TickFirst(s, |s.agents|, now).next.agents)
  {
    TickFirstMeaning(s, |s.agents|, now);
    hide TickFirst, SoundAgents, SomeOut, SomeStopped, HoldsWaived, SomeFails, AllIn, AgentIds;
    TickedCarried(s, now);
    OutNotIn(TickFirst(s, |s.agents|, now).next.agents);
  }

  lemma OutNotIn(agents: seq<Agent>)
    requires SoundAgents(agents) && SomeOut(agents)
    ensures !AllIn(agents)
  {
  }

  lemma TickKeepsInv(s: RunState, now: int)
    requires Inv(s)
    ensures Inv(OnTick(s, now).state)
  {
    if s.status == OnTheHill {
      TickedMidSweep(s, now);
      ClosedInv(TickFirst(s, |s.agents|, now).next, now);
      TickCloses(s, now);
      hide *;
    }
  }

  // --- The owner and GitHub -----------------------------------------------------------------

  lemma HaltedCarried(agents: seq<Agent>, summary: string, now: int)
    requires SoundAgents(agents)
    ensures var r := Map(agents, (a: Agent) => HaltAgent(a, summary, now));
      && SoundAgents(r) && AgentIds(r) == AgentIds(agents)
      && (HoldsWaived(agents) ==> HoldsWaived(r))
      && !SomeOut(r)
      && (SomeStopped(r) <==> SomeStopped(agents) || SomeOut(agents))
  {
    var r := Map(agents, (a: Agent) => HaltAgent(a, summary, now));
    forall i | 0 <= i < |r|
      ensures r[i] == HaltAgent(agents[i], summary, now)
      ensures SoundAgent(r[i]) && (HasWaivable(agents[i]) ==> HasWaivable(r[i]))
    {
      SameHazardsSameWaiver(agents[i], r[i]);
    }
    HaltedOut(agents, r);
    hide SoundAgent, SoundAgents, HasWaivable, HoldsWaived, SomeOut, SomeStopped, AgentIds;
    Carried(agents, r);
  }

  lemma HaltedOut(agents: seq<Agent>, r: seq<Agent>)
    requires |r| == |agents|
    requires forall i | 0 <= i < |r| ::
      r[i].status == if IsTerminal(agents[i]) then agents[i].status else AgentStopped
    ensures !SomeOut(r) && (SomeStopped(r) <==> SomeStopped(agents) || SomeOut(agents))
  {
    if SomeStopped(agents) {
      var i :| 0 <= i < |agents| && agents[i].status == AgentStopped;
      assert r[i].status == AgentStopped;
    }
    if SomeOut(agents) {
      var i :| 0 <= i < |agents| && !IsTerminal(agents[i]);
      assert r[i].status == AgentStopped;
    }
  }

  lemma HaltedSteps(steps: seq<Step>, now: int)
    requires SoundSteps(steps, false)
    ensures Map(steps, (step: Step) => HaltStep(step, now)) == steps[2 := HaltStep(steps[2], now)]
  {
  }

  lemma HaltedInv(s: RunState, summary: string, now: int)
    requires Inv(s) && s.status == OnTheHill
    ensures Inv(Halted(s, summary, now).(status := Stopped))
  {
    HaltedCarried(s.agents, summary, now);
    HaltedSteps(s.steps, now);
  }

  lemma StopKeepsInv(s: RunState, reason: string, now: int)
    requires Inv(s)
    ensures Inv(StopRun(s, reason, now).state)
  {
    if s.status == OnTheHill {
      HaltedInv(s, "stopped · " + reason, now);
    }
  }

  // `r` is `halted` with its steps after the sweep settled by a merge.
  ghost predicate PastSweepSettled(halted: seq<Step>, r: seq<Step>) {
    && |r| == |halted| == 7
    && (forall i | 0 <= i < 3 :: r[i] == halted[i])
    && (forall i | 3 <= i < 7 :: r[i].id == halted[i].id && r[i].status == (if i == 5 then StepDone else StepSkipped))
  }

  lemma SettledSound(halted: seq<Step>, r: seq<Step>)
    requires SoundSteps(halted, false) && PastSweepSettled(halted, r)
    ensures SoundSteps(r, true)
  {
    forall i | 0 <= i < 7 ensures SoundStep(i, r[i], true) {
      assert SoundStep(i, halted[i], false);
    }
  }

  lemma SkippedInPlace(steps: seq<Step>, id: StepId, note: Note)
    requires |steps| == 7 && (forall i | 0 <= i < 7 :: Place(steps[i].id) == i)
    requires steps[Place(id)].status == StepPending
    ensures var k := Place(id);
      SkipIfPending(steps, id, note) == steps[k := steps[k].(status := StepSkipped, notes := [note])]
  {
    assert Place(steps[Place(id)].id) == Place(id);
  }

  lemma LandedSettles(halted: seq<Step>, mergeSha: string, now: int)
    requires |halted| == 7 && (forall i | 0 <= i < 7 :: Place(halted[i].id) == i)
    requires halted[3].status == StepPending && halted[4].status == StepPending
    ensures PastSweepSettled(halted, LandSteps(halted, mergeSha, now))
  {
    SkippedInPlace(halted, Huddle, NoHuddle);
    SkippedInPlace(SkipIfPending(halted, Huddle, NoHuddle), Summit, NoSummit);
    hide SkipIfPending;
  }

  // Landing settles the steps after the sweep.
  lemma LandedSteps(halted: seq<Step>, mergeSha: string, now: int)
    requires SoundSteps(halted, false)
    ensures var r := LandSteps(halted, mergeSha, now); SoundSteps(r, true) && r[2] == halted[2]
  {
    assert forall i | 0 <= i < 7 :: SoundStep(i, halted[i], false);
    LandedSettles(halted, mergeSha, now);
    hide LandSteps, SoundSteps;
    SettledSound(halted, LandSteps(halted, mergeSha, now));
  }

  lemma LandedInv(s: RunState, mergeSha: string, now: int)
    requires Inv(s) && s.status != Landed
    ensures Inv(LandedState(s, mergeSha, now))
  {
    hide SoundAgents, SoundSteps, HoldsWaived, SomeOut, SomeStopped, AgentIds, HaltAgent;
    HaltedCarried(s.agents, "stopped · PR merged", now);
    LandedStepsSound(s, mergeSha, now);
    hide LandSteps;
  }

  lemma LandedStepsSound(s: RunState, mergeSha: string, now: int)
    requires SoundSteps(s.steps, false)
    ensures var steps := LandedState(s, mergeSha, now).steps;
      |s.steps| == 7 && SoundSteps(steps, true) && |steps| == 7 && steps[2] == HaltStep(s.steps[2], now)
  {
    HaltedSteps(s.steps, now);
    HaltedSound(s.steps, now);
    hide LandSteps;
    LandedSteps(Halted(s, "stopped · PR merged", now).steps, mergeSha, now);
  }

  lemma HaltedSound(steps: seq<Step>, now: int)
    requires SoundSteps(steps, false)
    ensures SoundSteps(steps[2 := HaltStep(steps[2], now)], false)
  {
  }

  lemma LandKeepsInv(s: RunState, mergeSha: string, now: int)
    requires Inv(s)
    ensures Inv(LandRun(s, mergeSha, now).state)
  {
    if s.status != Landed {
      LandedInv(s, mergeSha, now);
      hide LandedState, Inv;
    }
  }

  // The agents a retry covers, as a property of one agent.
  predicate Retries(s: RunState, target: RetryTarget, a: Agent) {
    IsOpen(s) && a.status == AgentError && Covered(target, a)
  }

  // The ids a retry covers are those of the failed agents it targets.
  lemma RetryableFacts(s: RunState, target: RetryTarget)
    requires DistinctAgents(s.agents)
    ensures forall i | 0 <= i < |s.agents| ::
      s.agents[i].id in RetryableAgents(s, target) <==> Retries(s, target, s.agents[i])
    ensures forall id | id in RetryableAgents(s, target) :: exists i | 0 <= i < |s.agents| :: s.agents[i].id == id
  {
    if IsOpen(s) {
      var failed := Filter(s.agents, (a: Agent) => a.status == AgentError && Covered(target, a));
      var ids := RetryableAgents(s, target);
      forall id | id in ids
        ensures exists i | 0 <= i < |s.agents| :: s.agents[i].id == id && Retries(s, target, s.agents[i])
      {
        var j :| 0 <= j < |ids| && ids[j] == id;
        assert failed[j] in failed;
        var i :| 0 <= i < |s.agents| && s.agents[i] == failed[j];
        assert s.agents[i].id == id;
      }
      forall i | 0 <= i < |s.agents| && Retries(s, target, s.agents[i]) ensures s.agents[i].id in ids {
        assert s.agents[i] in failed;
        var j :| 0 <= j < |failed| && failed[j] == s.agents[i];
        assert ids[j] == s.agents[i].id;
      }
    }
  }

  // Ids of failed agents, at least one.
  ghost predicate FailedIds(agents: seq<Agent>, ids: seq<string>) {
    && (exists i | 0 <= i < |agents| :: agents[i].id in ids)
    && (forall i | 0 <= i < |agents| :: agents[i].id in ids ==> agents[i].status == AgentError)
    && (forall id | id in ids :: exists i | 0 <= i < |agents| :: agents[i].id == id)
  }

  lemma RequeuedCarried(agents: seq<Agent>, ids: seq<string>, now: int)
    requires SoundAgents(agents) && FailedIds(agents, ids)
    ensures var r := Map(agents, (a: Agent) => if a.id in ids then Requeued(a, now) else a);
      && SoundAgents(r) && AgentIds(r) == AgentIds(agents)
      && (HoldsWaived(agents) ==> HoldsWaived(r))
      && (SomeStopped(r) <==> SomeStopped(agents))
      && SomeOut(r)
  {
    var r := Map(agents, (a: Agent) => if a.id in ids then Requeued(a, now) else a);
    forall i | 0 <= i < |r|
      ensures r[i] == if agents[i].id in ids then Requeued(agents[i], now) else agents[i]
      ensures SoundAgent(r[i]) && (HasWaivable(agents[i]) ==> HasWaivable(r[i]))
    {
      NoHazardsNoWaiver(agents[i]);
    }
    RequeuedOut(agents, r, ids);
    hide SoundAgent, SoundAgents, HasWaivable, HoldsWaived, SomeOut, SomeStopped, AgentIds, FailedIds;
    Carried(agents, r);
  }

  lemma RequeuedOut(agents: seq<Agent>, r: seq<Agent>, ids: seq<string>)
    requires FailedIds(agents, ids) && |r| == |agents|
    requires forall i | 0 <= i < |r| ::
      r[i].status == if agents[i].id in ids then AgentQueued else agents[i].status
    ensures SomeOut(r) && (SomeStopped(r) <==> SomeStopped(agents))
  {
    var k :| 0 <= k < |agents| && agents[k].id in ids;
    assert !IsTerminal(r[k]);
    if SomeStopped(agents) {
      var i :| 0 <= i < |agents| && agents[i].status == AgentStopped;
      assert r[i].status == agents[i].status;
    }
  }

  // A retry reopens the sweep step, the one step its agents were on.
  lemma ReopenedSteps(s: RunState, retried: seq<Agent>, now: int)
    requires SoundSteps(s.steps, false)
    requires |retried| > 0 && forall i | 0 <= i < |retried| :: retried[i].step == Sweep
    ensures Map(s.steps, (step: Step) => ReopenStep(step, retried, now))
      == s.steps[2 := Step(Sweep, StepActive, Some(s.steps[2].startedAt.Or(now)), None, [])]
  {
    var r := Map(s.steps, (step: Step) => ReopenStep(step, retried, now));
    forall i | 0 <= i < 7 && i != 2 ensures r[i] == s.steps[i] {
      assert s.steps[i].id != Sweep;
    }
    assert retried[0].step == s.steps[2].id;
  }

  lemma RetriedOnSweep(agents: seq<Agent>, ids: seq<string>)
    requires forall i | 0 <= i < |agents| :: agents[i].step == Sweep
    requires exists i | 0 <= i < |agents| :: agents[i].id in ids
    ensures var retried := Retried(agents, ids);
      |retried| > 0 && forall i | 0 <= i < |retried| :: retried[i].step == Sweep
  {
    var retried := Retried(agents, ids);
    var i :| 0 <= i < |agents| && agents[i].id in ids;
    assert agents[i] in retried;
    forall j | 0 <= j < |retried| ensures retried[j].step == Sweep {
      assert retried[j] in agents;
    }
  }

  // A retry of failed agents of an open run puts it back on the hill.
  lemma RetriedInv(s: RunState, ids: seq<string>, now: int, mint: nat -> string)
    requires Inv(s) && IsOpen(s)
    requires FailedIds(s.agents, ids)
    ensures Inv(RetriedState(s, ids, now, mint))
  {
    hide FailedIds;
    RequeuedCarried(s.agents, ids, now);
    RetriedNonces(s, ids, mint);
    RetriedSteps(s, ids, now);
    hide SoundAgents, SoundSteps, KeyedBy, HoldsWaived, Retried, SomeStopped, SomeOut;
  }

  lemma RetriedSteps(s: RunState, ids: seq<string>, now: int)
    requires SoundSteps(s.steps, false) && SoundAgents(s.agents) && FailedIds(s.agents, ids)
    ensures var steps := Map(s.steps, (step: Step) => ReopenStep(step, Retried(s.agents, ids), now));
      SoundSteps(steps, false) && steps[2].status == StepActive
  {
    RetriedOnSweep(s.agents, ids);
    ReopenedSteps(s, Retried(s.agents, ids), now);
  }

  lemma RetryKeepsInv(s: RunState, target: RetryTarget, now: int, mint: nat -> string)
    requires Inv(s)
    ensures Inv(RetryAgents(s, target, now, mint).state)
  {
    var ids := RetryableAgents(s, target);
    if |ids| > 0 {
      RetryableFacts(s, target);
      assert ids[0] in ids;
      RetriedInv(s, ids, now, mint);
      hide Inv, RetriedState;
    }
  }

  lemma RetriedNonces(s: RunState, ids: seq<string>, mint: nat -> string)
    requires KeyedBy(s.nonces, AgentIds(s.agents)) && FailedIds(s.agents, ids)
    ensures KeyedBy(Minted(s.nonces, ids, mint), AgentIds(s.agents))
  {
    MintedKeys(s.nonces, ids, mint);
    forall id | id in ids ensures id in AgentIds(s.agents) {
      var i :| 0 <= i < |s.agents| && s.agents[i].id == id;
      assert AgentIds(s.agents)[i] == id;
    }
  }

  lemma BypassKeepsInv(s: RunState, now: int)
    requires Inv(s)
    ensures Inv(BypassDesign(s, now).state)
  {
    if CanBypassDesign(s) {
      BypassFacts(s, now);
    }
  }

  lemma BypassFacts(s: RunState, now: int)
    requires CanBypassDesign(s)
    ensures var t := BypassDesign(s, now).state;
      && t == s.(designBypassedAt := Some(now), checkReposts := Some(s.checkReposts.Or(0) + 1),
                 updatedAt := now, steps := t.steps)
      && |t.steps| == |s.steps|
      && forall i | 0 <= i < |s.steps| ::
           t.steps[i] == if s.steps[i].id == Sweep then s.steps[i].(notes := t.steps[i].notes) else s.steps[i]
  {
    hide CanBypassDesign, ConditionsReport;
  }

  lemma AsideKeepsInv(s: RunState, e: Event)
    requires Inv(s) && (e.Retitle? || e.CheckCreated? || e.AskRepost? || e.CheckReposted?)
    ensures Inv(Apply(s, e).state)
  {
    hide SoundAgents, SoundSteps, KeyedBy, KeyedWithin, HoldsWaived, SomeOut, SomeStopped;
  }

  // --- What only the owner and GitHub change ------------------------------------------------

  // `t` has the nonces, the bypass and the check run of `s`.
  predicate SameBooks(s: RunState, t: RunState) {
    && t.nonces == s.nonces && t.designBypassedAt == s.designBypassedAt
    && t.checkRunId == s.checkRunId && t.checkReposts == s.checkReposts
  }

  predicate BooksUntouchedBy(e: Event) {
    !e.Retry? && !e.Bypass? && !e.AskRepost? && !e.CheckCreated? && !e.CheckReposted?
  }

  lemma HeardKeepsBooks(s: RunState, e: Event)
    requires e.Dispatched? || e.Events? || e.Briefed? || e.Transcript? || e.Retitle?
    ensures SameBooks(s, Apply(s, e).state) && (!e.Briefed? ==> Apply(s, e).state.jobRuns == s.jobRuns)
  {
    hide WithAgent, IsTerminal, AgentIndex, Linked;
  }

  lemma ClosingKeepsBooks(s: RunState, now: int, earned: seq<Effect>)
    ensures var t := CloseSweepIfDone(s, now, earned).state; SameBooks(s, t) && t.jobRuns == s.jobRuns
  {
    SweptFacts(s, now);
    hide SweptState, AllIn, SweepsOf, OpenHazardCount, CountErrors;
  }

  lemma VerdictKeepsBooks(s: RunState, id: string, v: Verdict, now: int)
    ensures var t := OnVerdict(s, id, v, now).state; SameBooks(s, t) && t.jobRuns == s.jobRuns
  {
    var reported := PatchAgent(s, id, (a: Agent) => a.(
        status := v.status, summary := Some(v.summary), hazards := v.hazards, finishedAt := Some(now)), now);
    ClosingKeepsBooks(reported, now, []);
    hide CloseSweepIfDone, LiveAgent, WithAgent;
  }

  lemma FailureKeepsBooks(s: RunState, id: string, reason: string, now: int, url: string)
    ensures var t := OnFailure(s, id, reason, now, url).state; SameBooks(s, t) && t.jobRuns == s.jobRuns
  {
    var failure := FailedState(s, id, reason, now);
    var earned := [Log(AgentFailed(id, reason))];
    ClosingKeepsBooks(failure, now, earned);
    ClosingKeepsBooks(PatchAgent(failure, id, (a: Agent) => a.(jobUrl := url), now), now, earned);
    hide CloseSweepIfDone, LiveAgent, WithAgent;
  }

  lemma TurnKeepsBooks(t: Ticked, a: Agent, createdAt: int, now: int)
    ensures var u := TickOne(t, a, createdAt, now).next; SameBooks(t.next, u) && u.jobRuns == t.next.jobRuns
  {
    hide DeadlinesOf, FirstDue, WithAgent;
  }

  lemma {:induction false} TurnsKeepBooks(s: RunState, k: nat, now: int)
    requires k <= |s.agents|
    ensures var t := TickFirst(s, k, now).next; SameBooks(s, t) && t.jobRuns == s.jobRuns
  {
    hide TickOne;
    if k > 0 {
      TurnsKeepBooks(s, k - 1, now);
      TurnKeepsBooks(TickFirst(s, k - 1, now), s.agents[k - 1], s.createdAt, now);
    }
  }

  lemma TickKeepsBooks(s: RunState, now: int)
    ensures var t := OnTick(s, now).state; SameBooks(s, t) && t.jobRuns == s.jobRuns
  {
    var t := TickFirst(s, |s.agents|, now);
    TurnsKeepBooks(s, |s.agents|, now);
    ClosingKeepsBooks(t.next, now, t.logs);
    hide CloseSweepIfDone, TickFirst;
  }

  lemma EndingKeepsBooks(s: RunState, e: Event)
    requires e.Stop? || e.Land?
    ensures SameBooks(s, Apply(s, e).state) && Apply(s, e).state.jobRuns == s.jobRuns
  {
    hide LandSteps, ReviewOutcome, JobCancels, Map, StillOut;
  }

  // Of all events only a retry, a bypass and the asks and answers about the check touch these, and only
  // a brief the jobs as well.
  lemma BooksKept(s: RunState, e: Event)
    requires BooksUntouchedBy(e)
    ensures SameBooks(s, Apply(s, e).state) && (!e.Briefed? ==> Apply(s, e).state.jobRuns == s.jobRuns)
  {
    hide SameBooks, OnVerdict, OnFailure, OnTick;
    match e
    case Reported(id, v, now) => VerdictKeepsBooks(s, id, v, now);
    case GaveUp(id, reason, now, url) => FailureKeepsBooks(s, id, reason, now, url);
    case Alarm(now) => TickKeepsBooks(s, now);
    case Stop(_, _) => EndingKeepsBooks(s, e);
    case Land(_, _) => EndingKeepsBooks(s, e);
    case _ => HeardKeepsBooks(s, e);
  }

  // --- Every event --------------------------------------------------------------------------

  // Every transition keeps the invariant.
  lemma StepKeepsInv(s: RunState, e: Event)
    requires Inv(s) && Legal(e)
    ensures Inv(Apply(s, e).state)
  {
    hide Inv;
    match e
    case Dispatched(id, now) => DispatchedKeepsInv(s, id, now);
    case Events(id, count, now, url) => EventsKeepInv(s, id, count, now, url);
    case Briefed(id, now, job, url) => BriefedKeepsInv(s, id, now, job, url);
    case Reported(id, v, now) => VerdictKeepsInv(s, id, v, now);
    case GaveUp(id, reason, now, url) => FailureKeepsInv(s, id, reason, now, url);
    case Transcript(id) => TranscriptKeepsInv(s, id);
    case Alarm(now) => TickKeepsInv(s, now);
    case Stop(reason, now) => StopKeepsInv(s, reason, now);
    case Retry(target, now, mint) => RetryKeepsInv(s, target, now, mint);
    case Bypass(now) => BypassKeepsInv(s, now);
    case Land(sha, now) => LandKeepsInv(s, sha, now);
    case Retitle(_, _) => AsideKeepsInv(s, e);
    case CheckCreated(_) => AsideKeepsInv(s, e);
    case AskRepost => AsideKeepsInv(s, e);
    case CheckReposted(_, _) => AsideKeepsInv(s, e);
  }

  // Every state a run can reach satisfies the invariant.
  lemma {:induction false} AlwaysInv(a: Start, es: seq<Event>)
    requires DistinctRoster(a.cfg.roster) && AllLegal(es)
    ensures Inv(After(a, es))
  {
    if |es| == 0 {
      CreatedInv(a);
    } else {
      AlwaysInv(a, es[..|es| - 1]);
      StepKeepsInv(After(a, es[..|es| - 1]), es[|es| - 1]);
    }
  }
}
