// Who patrols a run when it is created, and whose jobs are dispatched, then and ever after.
module Starting {
  import opened Domain
  import opened Machine
  import opened Lifecycle
  import opened Attempts

  // --- Who patrols --------------------------------------------------------------------------

  // The change is the entry's to patrol: its role is enabled, and one of its panels is touched.
  predicate Wanted(a: Start, e: RosterEntry) {
    e.id in a.cfg.enabledRoles && exists p | p in e.panels :: p in a.triage.panels
  }

  // A patroller as it starts: on the sweep, queued, with nothing heard, linked, said or found.
  predicate Starts(agent: Agent, role: Role) {
    && agent.id == RoleName(role) + "-sweep-0" && agent.role == role
    && agent.step == Sweep && agent.round == 0 && agent.status == AgentQueued
    && agent.dispatchedAt.None? && agent.briefedAt.None? && agent.lastEventAt.None? && agent.finishedAt.None?
    && agent.jobUrl == "" && !agent.hasTranscript && agent.summary.None? && agent.hazards == []
    && agent.retries == 0 && agent.retriedAt.None?
  }

  ghost predicate Rising(picks: seq<nat>) {
    forall j, k | 0 <= j < k < |picks| :: picks[j] < picks[k]
  }

  ghost predicate Hits<T>(xs: seq<T>, p: T -> bool, picks: seq<nat>) {
    forall k | 0 <= k < |picks| :: picks[k] < |xs| && p(xs[picks[k]])
  }

  ghost predicate HitsAll<T>(xs: seq<T>, p: T -> bool, picks: seq<nat>) {
    forall j: nat | j < |xs| && p(xs[j]) :: j in picks
  }

  // `picks` are the places in `xs` of all that satisfies `p`, in order.
  ghost predicate Picked<T>(xs: seq<T>, p: T -> bool, picks: seq<nat>) {
    Rising(picks) && Hits(xs, p, picks) && HitsAll(xs, p, picks)
  }

  function Later(picks: seq<nat>): seq<nat> {
    Map(picks, (k: nat) => k + 1)
  }

  lemma LaterHas(picks: seq<nat>, j: nat)
    requires j in picks
    ensures j + 1 in Later(picks)
  {
    var k :| 0 <= k < |picks| && picks[k] == j;
    assert Later(picks)[k] == j + 1;
  }

  lemma LaterRises(picks: seq<nat>)
    requires Rising(picks)
    ensures Rising(Later(picks)) && Rising([0] + Later(picks))
  {
  }

  lemma LaterHits<T>(xs: seq<T>, p: T -> bool, rest: seq<nat>)
    requires xs != [] && Hits(xs[1..], p, rest)
    ensures Hits(xs, p, Later(rest)) && (p(xs[0]) ==> Hits(xs, p, [0] + Later(rest)))
  {
    assert forall k | 0 <= k < |rest| :: xs[1..][rest[k]] == xs[rest[k] + 1];
  }

  lemma LaterHitsAll<T>(xs: seq<T>, p: T -> bool, rest: seq<nat>)
    requires xs != [] && HitsAll(xs[1..], p, rest)
    ensures HitsAll(xs, p, [0] + Later(rest)) && (!p(xs[0]) ==> HitsAll(xs, p, Later(rest)))
  {
    forall j: nat | 0 < j < |xs| && p(xs[j]) ensures j in Later(rest) {
      assert xs[1..][j - 1] == xs[j];
      LaterHas(rest, j - 1);
    }
    hide Later;
  }

  lemma PickedFrom<T>(xs: seq<T>, p: T -> bool, rest: seq<nat>)
    requires xs != [] && Picked(xs[1..], p, rest)
    ensures Picked(xs, p, (if p(xs[0]) then [0] else []) + Later(rest))
  {
    hide Rising, Hits, HitsAll, Later;
    LaterRises(rest);
    LaterHits(xs, p, rest);
    LaterHitsAll(xs, p, rest);
    assert [] + Later(rest) == Later(rest);
  }

  // `ys` is what stands at the places `picks` of `xs`.
  ghost predicate Selects<T>(xs: seq<T>, picks: seq<nat>, ys: seq<T>) {
    |ys| == |picks| && forall k | 0 <= k < |picks| :: picks[k] < |xs| && ys[k] == xs[picks[k]]
  }

  lemma SelectsFrom<T>(xs: seq<T>, rest: seq<nat>, ys: seq<T>)
    requires xs != [] && Selects(xs[1..], rest, ys)
    ensures Selects(xs, Later(rest), ys) && Selects(xs, [0] + Later(rest), [xs[0]] + ys)
  {
    assert forall k | 0 <= k < |rest| :: xs[1..][rest[k]] == xs[rest[k] + 1];
  }

  lemma {:induction false} PicksOf<T>(xs: seq<T>, p: T -> bool) returns (picks: seq<nat>)
    ensures Picked(xs, p, picks) && Selects(xs, picks, Filter(xs, p))
  {
    hide Picked, Selects, Later;
    if xs == [] {
      picks := [];
      NothingPicked(p);
    } else {
      var rest := PicksOf(xs[1..], p);
      PickedFrom(xs, p, rest);
      SelectsFrom(xs, rest, Filter(xs[1..], p));
      picks := (if p(xs[0]) then [0] else []) + Later(rest);
      assert [] + Later(rest) == Later(rest) && [] + Filter(xs[1..], p) == Filter(xs[1..], p);
    }
  }

  lemma NothingPicked<T>(p: T -> bool)
    ensures Picked([], p, []) && Selects([], [], Filter([], p))
  {
  }

  lemma CreatedAgents(a: Start)
    ensures CreateRun(a).state.agents == FreshAgents(a)
  {
    SweptFacts(FreshRun(a), a.now);
    hide SweptState, FreshAgents, AllIn;
  }

  // Exactly the roster's entries that are enabled and have a panel of the change patrol it, in the
  // roster's order, each freshly queued.
  lemma StartsExactly(a: Start) returns (picks: seq<nat>)
    ensures Picked(a.cfg.roster, (e: RosterEntry) => Wanted(a, e), picks)
    ensures var agents := CreateRun(a).state.agents;
      |agents| == |picks| && forall k | 0 <= k < |picks| :: Starts(agents[k], a.cfg.roster[picks[k]].id)
  {
    CreatedAgents(a);
    hide CreateRun;
    var roster := a.cfg.roster;
    var wanted := (e: RosterEntry) => e.id in a.cfg.enabledRoles && exists p | p in e.panels :: p in a.triage.panels;
    picks := PicksOf(roster, wanted);
    assert Patrollers(roster, a.cfg.enabledRoles, a.triage.panels) == Filter(roster, wanted);
    hide Filter;
  }

  // So a role patrols exactly when the roster has an entry for it that is wanted.
  lemma RolePatrols(a: Start, role: Role)
    ensures (exists k | 0 <= k < |CreateRun(a).state.agents| :: CreateRun(a).state.agents[k].role == role)
      <==> exists j | 0 <= j < |a.cfg.roster| :: a.cfg.roster[j].id == role && Wanted(a, a.cfg.roster[j])
  {
    var picks := StartsExactly(a);
    var agents, roster := CreateRun(a).state.agents, a.cfg.roster;
    hide CreateRun, Wanted;
    if k :| 0 <= k < |agents| && agents[k].role == role {
      assert Starts(agents[k], roster[picks[k]].id);
    }
    if j :| 0 <= j < |roster| && roster[j].id == role && Wanted(a, roster[j]) {
      var k :| 0 <= k < |picks| && picks[k] == j;
      assert Starts(agents[k], roster[picks[k]].id);
    }
  }

  // --- Whose jobs are dispatched ------------------------------------------------------------

  function DispatchedIds(effects: seq<Effect>): seq<string> {
    if effects == [] then []
    else (if effects[0].Dispatch? then [effects[0].agentId] else []) + DispatchedIds(effects[1..])
  }

  // A close that comes during the dispatches finds the run in the index.
  ghost predicate IndexedFirst(effects: seq<Effect>) {
    forall k | 0 <= k < |effects| && effects[k].Dispatch? :: exists p :: 0 <= p < k && effects[p] == Index
  }

  ghost predicate NoDispatch(effects: seq<Effect>) {
    forall k | 0 <= k < |effects| :: !effects[k].Dispatch?
  }

  ghost predicate EachOnce(ids: seq<string>) {
    forall j, k | 0 <= j < k < |ids| :: ids[j] != ids[k]
  }

  lemma {:induction false} DispatchedAppend(x: seq<Effect>, y: seq<Effect>)
    ensures DispatchedIds(x + y) == DispatchedIds(x) + DispatchedIds(y)
  {
    if x == [] {
      assert x + y == y;
    } else {
      assert (x + y)[1..] == x[1..] + y;
      DispatchedAppend(x[1..], y);
    }
  }

  lemma {:induction false} NoneDispatched(effects: seq<Effect>)
    requires NoDispatch(effects)
    ensures DispatchedIds(effects) == []
  {
    if effects != [] {
      NoneDispatched(effects[1..]);
    }
  }

  lemma {:induction false} AllDispatched(effects: seq<Effect>, ids: seq<string>)
    requires |effects| == |ids| && forall k | 0 <= k < |ids| :: effects[k] == Dispatch(ids[k])
    ensures DispatchedIds(effects) == ids
  {
    if ids != [] {
      AllDispatched(effects[1..], ids[1..]);
      assert ids == [ids[0]] + ids[1..];
    }
  }

  // Effects of which a stretch dispatches `ids`, after an index, and the rest nobody.
  lemma DispatchedWithin(before: seq<Effect>, effects: seq<Effect>, after: seq<Effect>, ids: seq<string>)
    requires NoDispatch(before) && NoDispatch(after) && Index in before
    requires |effects| == |ids| && forall k | 0 <= k < |ids| :: effects[k] == Dispatch(ids[k])
    ensures DispatchedIds(before + effects + after) == ids && IndexedFirst(before + effects + after)
  {
    NoneDispatched(before);
    NoneDispatched(after);
    AllDispatched(effects, ids);
    DispatchedAppend(before + effects, after);
    DispatchedAppend(before, effects);
    var p :| 0 <= p < |before| && before[p] == Index;
    assert (before + effects + after)[p] == Index;
  }

  // A run's creation dispatches every patroller, once each and in order.
  lemma CreateDispatches(a: Start)
    ensures DispatchedIds(CreateRun(a).effects) == AgentIds(CreateRun(a).state.agents)
    ensures IndexedFirst(CreateRun(a).effects)
  {
    CreatedAgents(a);
    var before, after: seq<Effect> := [Log(RunCreated(a.triage.runName)), Index], [Broadcast, Check];
    var effects := Map(FreshAgents(a), (agent: Agent) => Dispatch(agent.id));
    DispatchedWithin(before, effects, after, AgentIds(FreshAgents(a)));
    hide FreshAgents, SweptState, FreshRun, IndexedFirst;
  }

  // The event puts the patroller on the queue again.
  ghost predicate Requeues(s: RunState, t: RunState, id: string) {
    |s.agents| == |t.agents|
    && exists i | 0 <= i < |t.agents| ::
         t.agents[i].id == id && t.agents[i].retries > s.agents[i].retries && t.agents[i].status == AgentQueued
  }

  lemma RetryDispatches(s: RunState, target: RetryTarget, now: int, mint: nat -> string)
    requires |RetryableAgents(s, target)| > 0
    ensures DispatchedIds(RetryAgents(s, target, now, mint).effects) == RetryableAgents(s, target)
    ensures IndexedFirst(RetryAgents(s, target, now, mint).effects)
  {
    var ids := RetryableAgents(s, target);
    var retried := Retried(s.agents, ids);
    var before := Map(retried, (a: Agent) => Log(AgentRetried(a.id, a.retries + 2))) + [Index];
    var effects := Map(ids, (id: string) => Dispatch(id));
    var after := [Broadcast, Check] + JobCancels(s.jobRuns, retried);
    CancelsDispatchNone(s.jobRuns, retried);
    DispatchedWithin(before, effects, after, ids);
    var all := RetryAgents(s, target, now, mint).effects;
    hide RetryableAgents, Retried, JobCancels, RetriedState, IndexedFirst, DispatchedIds;
    assert all == before + effects + after;
  }

  lemma CancelsDispatchNone(jobRuns: map<string, string>, agents: seq<Agent>)
    ensures NoDispatch(JobCancels(jobRuns, agents))
  {
  }

  lemma {:induction false} RetryableOnce(s: RunState, target: RetryTarget)
    requires DistinctAgents(s.agents)
    ensures EachOnce(RetryableAgents(s, target))
  {
    if IsOpen(s) {
      var hit := (a: Agent) => a.status == AgentError && Covered(target, a);
      var picks := PicksOf(s.agents, hit);
      hide Covered;
      assert RetryableAgents(s, target) == AgentIds(Filter(s.agents, hit));
    }
  }

  // The others neither dispatch nor queue anybody.
  ghost predicate SameRetries(s: RunState, t: RunState) {
    |t.agents| == |s.agents| && forall i | 0 <= i < |s.agents| :: t.agents[i].retries == s.agents[i].retries
  }

  lemma HeardDispatchesNone(s: RunState, e: Event)
    requires DistinctAgents(s.agents) && (e.Dispatched? || e.Events? || e.Briefed? || e.Transcript?)
    ensures NoDispatch(Apply(s, e).effects) && SameRetries(s, Apply(s, e).state)
  {
    if AgentIndex(s.agents, e.agentId) < |s.agents| {
      OneOf(s.agents, e.agentId);
    }
    hide Inv, LiveAgent, WithAgent, AgentIndex;
  }

  lemma ClosingDispatchesNone(s: RunState, now: int, earned: seq<Effect>)
    requires NoDispatch(earned)
    ensures NoDispatch(CloseSweepIfDone(s, now, earned).effects)
    ensures CloseSweepIfDone(s, now, earned).state.agents == s.agents
  {
    ClosingKeepsAgents(s, now, earned);
    hide SweptState, SweepsOf, OpenHazardCount, CountErrors;
  }

  lemma WithAgentSameRetries(s: RunState, t: RunState, id: string, patch: Agent -> Agent)
    requires t.agents == WithAgent(s.agents, id, patch) && forall a: Agent :: patch(a).retries == a.retries
    ensures SameRetries(s, t)
  {
  }

  lemma VerdictDispatchesNone(s: RunState, id: string, v: Verdict, now: int)
    ensures NoDispatch(OnVerdict(s, id, v, now).effects) && SameRetries(s, OnVerdict(s, id, v, now).state)
  {
    if LiveAgent(s, id).Some? {
      VerdictAgents(s, id, v, now);
      WithAgentSameRetries(s, OnVerdict(s, id, v, now).state, id, (a: Agent) => WithVerdict(a, v, now));
      var reported := PatchAgent(s, id, (a: Agent) => a.(
          status := v.status, summary := Some(v.summary), hazards := v.hazards, finishedAt := Some(now)), now);
      ClosingDispatchesNone(reported, now, []);
    }
    hide LiveAgent, CloseSweepIfDone, WithAgent;
  }

  lemma FailureDispatchesNone(s: RunState, id: string, reason: string, now: int, url: string)
    requires DistinctAgents(s.agents)
    ensures NoDispatch(OnFailure(s, id, reason, now, url).effects)
    ensures SameRetries(s, OnFailure(s, id, reason, now, url).state)
  {
    if LiveAgent(s, id).Some? {
      var failure, earned := FailedState(s, id, reason, now), [Log(AgentFailed(id, reason))];
      FailureAgents(s, id, reason, now, url);
      var t := OnFailure(s, id, reason, now, url).state;
      WithAgentSameRetries(s, t, id, (a: Agent) => WithFailure(a, reason, now, url));
      ClosingDispatchesNone(failure, now, earned);
      ClosingDispatchesNone(PatchAgent(failure, id, (a: Agent) => a.(jobUrl := url), now), now, earned);
    }
    hide LiveAgent, CloseSweepIfDone, WithAgent, DistinctAgents, FailedState;
  }

  lemma TurnDispatchesNone(t: Ticked, a: Agent, createdAt: int, now: int)
    requires NoDispatch(t.logs)
    ensures NoDispatch(TickOne(t, a, createdAt, now).logs)
  {
    hide FirstDue, DeadlinesOf, FailedState, PatchAgent;
  }

  lemma {:induction false} TurnsDispatchNone(s: RunState, k: nat, now: int)
    requires k <= |s.agents|
    ensures NoDispatch(TickFirst(s, k, now).logs)
  {
    hide TickOne;
    if k > 0 {
      TurnsDispatchNone(s, k - 1, now);
      TurnDispatchesNone(TickFirst(s, k - 1, now), s.agents[k - 1], s.createdAt, now);
    }
  }

  lemma TickedSameRetries(s: RunState, t: Ticked, now: int)
    requires TickedTo(s, |s.agents|, now, t)
    ensures SameRetries(s, t.next)
  {
    hide FailCount, SomeDue;
  }

  lemma InvDistinct(s: RunState)
    requires Inv(s)
    ensures DistinctAgents(s.agents)
  {
  }

  lemma TickDispatchesNone(s: RunState, now: int)
    requires Inv(s)
    ensures NoDispatch(OnTick(s, now).effects) && SameRetries(s, OnTick(s, now).state)
  {
    InvDistinct(s);
    hide Inv, TickFirst, CloseSweepIfDone, TickedTo, DistinctAgents;
    if s.status == OnTheHill {
      var t := TickFirst(s, |s.agents|, now);
      TurnsDispatchNone(s, |s.agents|, now);
      assert SameRetries(s, t.next) by {
        hide *;
        TickFirstMeaning(s, |s.agents|, now);
        TickedSameRetries(s, t, now);
      }
      ClosingDispatchesNone(t.next, now, t.logs);
    }
  }

  lemma OwnerDispatchesNone(s: RunState, e: Event)
    requires e.Stop? || e.Land? || e.Bypass? || e.Retitle? || e.CheckCreated? || e.AskRepost? || e.CheckReposted?
    ensures NoDispatch(Apply(s, e).effects) && SameRetries(s, Apply(s, e).state)
  {
    CancelsDispatchNone(s.jobRuns, StillOut(s.agents));
    hide JobCancels, StillOut, LandSteps, ReviewOutcome, ConditionsReport, CanBypassDesign, StepIs, HaltStep, WithStep;
  }

  lemma OthersDispatchNone(s: RunState, e: Event)
    requires Inv(s) && !(e.Retry? && Apply(s, e).moved)
    ensures NoDispatch(Apply(s, e).effects) && SameRetries(s, Apply(s, e).state)
  {
    InvDistinct(s);
    hide Inv, NoDispatch, SameRetries, DistinctAgents;
    match e
    case Reported(id, v, now) => VerdictDispatchesNone(s, id, v, now);
    case GaveUp(id, reason, now, url) => FailureDispatchesNone(s, id, reason, now, url);
    case Alarm(now) => TickDispatchesNone(s, now);
    case Retry(_, _, _) => UnmovedDispatchesNone(s, e);
    case Dispatched(_, _) => HeardDispatchesNone(s, e);
    case Events(_, _, _, _) => HeardDispatchesNone(s, e);
    case Briefed(_, _, _, _) => HeardDispatchesNone(s, e);
    case Transcript(_) => HeardDispatchesNone(s, e);
    case _ => OwnerDispatchesNone(s, e);
  }

  lemma UnmovedDispatchesNone(s: RunState, e: Event)
    requires e.Retry? && !Apply(s, e).moved
    ensures NoDispatch(Apply(s, e).effects) && SameRetries(s, Apply(s, e).state)
  {
    hide RetriedState, RetryableAgents;
  }

  // Every event dispatches exactly the patrollers it puts back on the queue, once each, and after the
  // index.
  lemma DispatchExactly(s: RunState, e: Event)
    requires Inv(s) && Legal(e)
    ensures var ids := DispatchedIds(Apply(s, e).effects);
      && (forall id :: id in ids <==> Requeues(s, Apply(s, e).state, id))
      && EachOnce(ids) && IndexedFirst(Apply(s, e).effects)
  {
    if e.Retry? && Apply(s, e).moved {
      RetryDispatches(s, e.target, e.now, e.mint);
      RetryableOnce(s, e.target);
      RetryRequeues(s, e);
      hide Inv, Requeues, EachOnce, IndexedFirst, RetriedState;
    } else {
      OthersDispatchNone(s, e);
      NoneDispatched(Apply(s, e).effects);
      hide Inv, Apply;
    }
  }

  lemma RetriedAgents(s: RunState, ids: seq<string>, now: int, mint: nat -> string)
    ensures var t := RetriedState(s, ids, now, mint);
      |t.agents| == |s.agents| && forall i | 0 <= i < |s.agents| ::
        t.agents[i] == if s.agents[i].id in ids then Requeued(s.agents[i], now) else s.agents[i]
  {
    hide ReopenStep, Minted, Retried;
  }

  lemma IdsRequeue(s: RunState, t: RunState, ids: seq<string>, now: int)
    requires forall id | id in ids :: exists i | 0 <= i < |s.agents| :: s.agents[i].id == id
    requires |t.agents| == |s.agents| && forall i | 0 <= i < |s.agents| ::
      t.agents[i] == if s.agents[i].id in ids then Requeued(s.agents[i], now) else s.agents[i]
    ensures forall id :: id in ids <==> Requeues(s, t, id)
  {
    forall id | id in ids ensures Requeues(s, t, id) {
      var i :| 0 <= i < |s.agents| && s.agents[i].id == id;
      assert t.agents[i].id == id;
    }
  }

  lemma RetryRequeues(s: RunState, e: Event)
    requires Inv(s) && e.Retry? && Apply(s, e).moved
    ensures forall id :: id in RetryableAgents(s, e.target) <==> Requeues(s, Apply(s, e).state, id)
  {
    InvDistinct(s);
    hide Inv, DistinctAgents, RetryableAgents, RetriedState;
    RetryableFacts(s, e.target);
    RetriedAgents(s, RetryableAgents(s, e.target), e.now, e.mint);
    IdsRequeue(s, Apply(s, e).state, RetryableAgents(s, e.target), e.now);
  }

  // --- Over a run ---------------------------------------------------------------------------

  // Every effect of a run so far.
  function EffectsOf(a: Start, es: seq<Event>): seq<Effect> {
    if |es| == 0 then CreateRun(a).effects
    else EffectsOf(a, es[..|es| - 1]) + Apply(After(a, es[..|es| - 1]), es[|es| - 1]).effects
  }

  lemma {:induction false} OnceCounts(ids: seq<string>, id: string)
    requires EachOnce(ids)
    ensures multiset(ids)[id] == if id in ids then 1 else 0
  {
    if ids != [] {
      var last := |ids| - 1;
      assert ids == ids[..last] + [ids[last]];
      OnceCounts(ids[..last], id);
      assert id in ids[..last] ==> id != ids[last];
    }
  }

  // How often each patroller has been dispatched: once an attempt.
  ghost predicate OnceAnAttempt(agents: seq<Agent>, ids: seq<string>) {
    && (forall i | 0 <= i < |agents| :: multiset(ids)[agents[i].id] == agents[i].retries + 1)
    && forall id | id in ids :: exists i | 0 <= i < |agents| :: agents[i].id == id
  }

  lemma FreshOnce(agents: seq<Agent>)
    requires DistinctAgents(agents) && forall i | 0 <= i < |agents| :: agents[i].retries == 0
    ensures OnceAnAttempt(agents, AgentIds(agents))
  {
    var ids := AgentIds(agents);
    forall i | 0 <= i < |agents| ensures multiset(ids)[agents[i].id] == 1 {
      OnceCounts(ids, agents[i].id);
      assert ids[i] in ids;
    }
  }

  lemma RequeuedHere(s: RunState, t: RunState, i: nat)
    requires DistinctAgents(s.agents) && AllStepped(s.agents, t.agents) && i < |s.agents|
    ensures t.agents[i].id == s.agents[i].id
    ensures t.agents[i].retries == s.agents[i].retries + (if Requeues(s, t, s.agents[i].id) then 1 else 0)
  {
    assert Stepped(s.agents[i], t.agents[i]);
    forall j | 0 <= j < |s.agents| && t.agents[j].id == s.agents[i].id ensures j == i {
      assert Stepped(s.agents[j], t.agents[j]);
    }
    hide SameAttempt;
  }

  lemma OnceMore(s: RunState, t: RunState, ids: seq<string>, more: seq<string>)
    requires DistinctAgents(s.agents) && AllStepped(s.agents, t.agents) && OnceAnAttempt(s.agents, ids)
    requires EachOnce(more) && forall id :: id in more <==> Requeues(s, t, id)
    ensures OnceAnAttempt(t.agents, ids + more)
  {
    forall i | 0 <= i < |t.agents| ensures multiset(ids + more)[t.agents[i].id] == t.agents[i].retries + 1 {
      RequeuedHere(s, t, i);
      OnceCounts(more, t.agents[i].id);
    }
    forall id | id in ids + more ensures exists i | 0 <= i < |t.agents| :: t.agents[i].id == id {
      if id in more {
        assert Requeues(s, t, id);
      } else {
        var i :| 0 <= i < |s.agents| && s.agents[i].id == id;
        RequeuedHere(s, t, i);
      }
    }
  }

  lemma CreatedOnce(a: Start)
    requires DistinctRoster(a.cfg.roster)
    ensures OnceAnAttempt(CreateRun(a).state.agents, DispatchedIds(CreateRun(a).effects))
  {
    CreatedInv(a);
    InvDistinct(CreateRun(a).state);
    CreatedAgents(a);
    CreateDispatches(a);
    hide Inv, CreateRun, DistinctAgents, DispatchedIds, OnceAnAttempt;
    FreshOnce(CreateRun(a).state.agents);
  }

  // Over a whole run each patroller is dispatched exactly once an attempt, and nobody else is.
  lemma {:induction false} DispatchedEachAttempt(a: Start, es: seq<Event>)
    requires DistinctRoster(a.cfg.roster) && AllLegal(es)
    ensures OnceAnAttempt(After(a, es).agents, DispatchedIds(EffectsOf(a, es)))
  {
    if |es| == 0 {
      CreatedOnce(a);
    } else {
      var init, last := es[..|es| - 1], es[|es| - 1];
      var s := After(a, init);
      assert After(a, es) == Apply(s, last).state;
      assert EffectsOf(a, es) == EffectsOf(a, init) + Apply(s, last).effects;
      assert AllLegal(init) && Legal(last);
      hide *;
      DispatchedEachAttempt(a, init);
      AlwaysInv(a, init);
      InvDistinct(s);
      EveryStepOnward(s, last);
      DispatchExactly(s, last);
      DispatchedAppend(EffectsOf(a, init), Apply(s, last).effects);
      OnceMore(s, Apply(s, last).state, DispatchedIds(EffectsOf(a, init)), DispatchedIds(Apply(s, last).effects));
    }
  }

  // --- The run as it is created -------------------------------------------------------------

  lemma {:induction false} MintedAt(ids: seq<string>, mint: nat -> string, k: nat)
    requires EachOnce(ids) && k < |ids|
    ensures ids[k] in Minted(map[], ids, mint) && Minted(map[], ids, mint)[ids[k]] == mint(k)
  {
    var last := |ids| - 1;
    if k < last {
      MintedAt(ids[..last], mint, k);
      assert ids[k] != ids[last];
    }
  }

  lemma {:induction false} NamedAt(agents: seq<Agent>, roster: seq<RosterEntry>, k: nat)
    requires DistinctAgents(agents) && k < |agents|
    ensures var names := AgentNames(agents, roster);
      agents[k].id in names && names[agents[k].id] == RosterName(roster, agents[k].role)
  {
    var last := |agents| - 1;
    if k < last {
      NamedAt(agents[..last], roster, k);
    }
  }

  lemma {:induction false} RosterNameIs(roster: seq<RosterEntry>, j: nat)
    requires DistinctRoster(roster) && j < |roster|
    ensures RosterName(roster, roster[j].id) == roster[j].name
  {
    if j > 0 {
      RosterNameIs(roster[1..], j - 1);
    }
  }

  // A run is created for the PR's head, on the hill with its sweep under way, or swept at once where
  // nobody patrols; each patroller has a nonce of its own, and its roster entry's name.
  lemma CreatedAs(a: Start) returns (picks: seq<nat>)
    requires DistinctRoster(a.cfg.roster)
    ensures Picked(a.cfg.roster, (e: RosterEntry) => Wanted(a, e), picks)
    ensures var s := CreateRun(a).state;
      && |s.agents| == |picks|
      && s.status == (if picks == [] then Swept else OnTheHill)
      && (s.card.repo, s.card.prNumber, s.card.headSha, s.prTitle) == (a.pr.repo, a.pr.number, a.pr.headSha, a.pr.title)
      && s.createdAt == a.now && s.designBypassedAt.None? && s.checkRunId.None? && s.jobRuns == map[]
      && forall k | 0 <= k < |picks| :: var id := s.agents[k].id;
           && picks[k] < |a.cfg.roster|
           && id in s.nonces && s.nonces[id] == a.mint(k)
           && id in s.origin.agentNames && s.origin.agentNames[id] == a.cfg.roster[picks[k]].name
  {
    picks := StartsExactly(a);
    CreatedInv(a);
    CreatedAgents(a);
    CreatedFields(a);
    var s := CreateRun(a).state;
    InvDistinct(s);
    CreatedStatus(a);
    hide Inv, CreateRun, DistinctAgents, FreshRun, Wanted, SweptState;
    forall k | 0 <= k < |picks| ensures
      && picks[k] < |a.cfg.roster|
      && s.agents[k].id in s.nonces && s.nonces[s.agents[k].id] == a.mint(k)
      && s.agents[k].id in s.origin.agentNames && s.origin.agentNames[s.agents[k].id] == a.cfg.roster[picks[k]].name
    {
      IdsOnce(s.agents);
      MintedAt(AgentIds(s.agents), a.mint, k);
      NamedAt(s.agents, a.cfg.roster, k);
      RosterNameIs(a.cfg.roster, picks[k]);
    }
  }

  // The first two steps are done as it is created, the sweep begins then, and the rest are to come; the
  // goal is the title, and the body under it if there is one.
  lemma CreatedSteps(a: Start)
    ensures var s := CreateRun(a).state;
      && |s.steps| == 7 && (forall i | 0 <= i < 7 :: Place(s.steps[i].id) == i)
      && (forall i | 0 <= i < 2 ::
            s.steps[i].status == StepDone && s.steps[i].startedAt == s.steps[i].finishedAt == Some(a.now))
      && s.steps[2].startedAt == Some(a.now)
      && s.steps[2].status == (if s.agents == [] then StepDone else StepActive)
      && s.steps[2].finishedAt == (if s.agents == [] then Some(a.now) else None)
      && (forall i | 3 <= i < 7 :: s.steps[i] == Step(STEP_ORDER[i], StepPending, None, None, []))
      && a.pr.title <= s.card.goal && (a.pr.body == "" ==> s.card.goal == a.pr.title)
      && (a.pr.body != "" ==> s.card.goal[|a.pr.title|..] == "\n\n" + a.pr.body)
  {
    var s := FreshRun(a);
    SweptFacts(s, a.now);
    FreshAllIn(a);
    hide SweptState, FreshAgents, AllIn, Minted, AgentNames;
    assert forall i | 0 <= i < 7 :: Place(STEP_ORDER[i]) == i;
  }

  lemma FreshAllIn(a: Start)
    ensures FreshRun(a).agents == FreshAgents(a) && (AllIn(FreshAgents(a)) <==> FreshAgents(a) == [])
  {
    var agents := FreshAgents(a);
    if agents != [] {
      assert agents[0].step == Sweep && !IsTerminal(agents[0]);
    }
    hide Patrollers, Minted, AgentNames;
  }

  lemma IdsOnce(agents: seq<Agent>)
    requires DistinctAgents(agents)
    ensures EachOnce(AgentIds(agents))
  {
  }

  lemma CreatedFields(a: Start)
    ensures var s, agents := CreateRun(a).state, FreshAgents(a);
      && s.nonces == Minted(map[], AgentIds(agents), a.mint)
      && s.origin.agentNames == AgentNames(agents, a.cfg.roster)
      && (s.card.repo, s.card.prNumber, s.card.headSha, s.prTitle) == (a.pr.repo, a.pr.number, a.pr.headSha, a.pr.title)
      && s.createdAt == a.now && s.designBypassedAt.None? && s.checkRunId.None? && s.jobRuns == map[]
  {
    SweptFacts(FreshRun(a), a.now);
    hide SweptState, FreshAgents, AllIn, Minted, AgentNames;
  }

  lemma CreatedStatus(a: Start)
    ensures CreateRun(a).state.status == if FreshAgents(a) == [] then Swept else OnTheHill
  {
    var s := FreshRun(a);
    SweptFacts(s, a.now);
    if s.agents != [] {
      assert s.agents[0].step == Sweep && !IsTerminal(s.agents[0]);
    }
    hide SweptState, Patrollers, Minted, AgentNames;
  }
}
