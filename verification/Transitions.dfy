// What each event does to a run, agent by agent and step by step.
module Transitions {
  import opened Domain
  import opened Machine
  import opened Lifecycle
  import opened Effects
  import opened Attempts
  import opened Review
  import opened Outcomes

  // --- What is heard of a patroller ---------------------------------------------------------

  // The patroller's report is awaited: the run is on the hill, and it is not in, failed or stopped.
  predicate Awaited(s: RunState, a: Agent) {
    s.status == OnTheHill
    && (a.status == AgentQueued || a.status == AgentDispatched || a.status == AgentRunning || a.status == AgentStalled)
  }

  // What an event makes of the patroller it is about.
  ghost predicate Heard(e: Event, a: Agent, b: Agent) {
    match e
    case Dispatched(_, now) => b == a.(status := AgentDispatched, dispatchedAt := Some(now))
    case Events(_, _, now, url) =>
      && b == a.(status := AgentRunning, lastEventAt := Some(now), dispatchedAt := b.dispatchedAt, jobUrl := b.jobUrl)
      && b.dispatchedAt == Some(a.dispatchedAt.Or(now)) && FirstLink(a.jobUrl, url, b.jobUrl)
    case Briefed(_, now, _, url) =>
      && b == a.(status := b.status, lastEventAt := None, briefedAt := Some(now), jobUrl := b.jobUrl)
      && b.status == (if a.status == AgentStalled then AgentRunning else a.status) && FirstLink(a.jobUrl, url, b.jobUrl)
    case Reported(_, v, now) =>
      b == a.(status := v.status, hazards := v.hazards, summary := Some(v.summary), finishedAt := Some(now))
    case GaveUp(_, reason, now, url) =>
      && b == a.(status := AgentError, summary := Some(reason), finishedAt := Some(now), jobUrl := b.jobUrl)
      && FirstLink(a.jobUrl, url, b.jobUrl)
    case _ => false
  }

  // The first link a job gives is kept.
  predicate FirstLink(known: string, given: string, link: string) {
    link == if known != "" then known else given
  }

  // Whether the event counts: the patroller is awaited; a dispatch result finds it queued still, and a
  // batch of events held one that is new.
  predicate Counts(s: RunState, e: Event, a: Agent) {
    Awaited(s, a) && (e.Dispatched? ==> a.status == AgentQueued) && (e.Events? ==> e.count > 0)
  }

  lemma Found(s: RunState, id: string, i: nat)
    requires DistinctAgents(s.agents) && i < |s.agents| && s.agents[i].id == id
    ensures LiveAgent(s, id) == if Awaited(s, s.agents[i]) then Some(s.agents[i]) else None
  {
    IndexIs(s.agents, id, i);
    hide AgentIndex, DistinctAgents;
  }

  // An event about a patroller moves the run exactly when it counts, and then makes of the patroller
  // what it says.
  lemma HeardExactly(s: RunState, e: Event, i: nat)
    requires Inv(s) && i < |s.agents| && About(e) == Some(s.agents[i].id)
    ensures Apply(s, e).moved <==> Counts(s, e, s.agents[i])
    ensures Apply(s, e).moved ==>
      i < |Apply(s, e).state.agents| && Heard(e, s.agents[i], Apply(s, e).state.agents[i])
    ensures Apply(s, e).moved && e.Briefed? ==>
      Apply(s, e).state.jobRuns == s.jobRuns[e.agentId := e.githubRunId]
  {
    assert DistinctAgents(s.agents);
    hide Inv, DistinctAgents;
    Found(s, s.agents[i].id, i);
    hide LiveAgent, Awaited;
    if e.Reported? {
      VerdictHeard(s, e, i);
    } else if e.GaveUp? {
      FailureHeard(s, e, i);
    } else {
      hide OnVerdict, OnFailure, Heard;
      LinkHeard(s, e, i);
    }
  }

  lemma VerdictHeard(s: RunState, e: Event, i: nat)
    requires e.Reported? && i < |s.agents| && s.agents[i].id == e.agentId
    ensures Apply(s, e).moved <==> LiveAgent(s, e.agentId).Some?
    ensures Apply(s, e).moved ==>
      i < |Apply(s, e).state.agents| && Heard(e, s.agents[i], Apply(s, e).state.agents[i])
  {
    if LiveAgent(s, e.agentId).Some? {
      MovedOnClose(s, e);
      VerdictAgents(s, e.agentId, e.verdict, e.now);
      hide OnVerdict;
    }
  }

  lemma FailureHeard(s: RunState, e: Event, i: nat)
    requires DistinctAgents(s.agents) && e.GaveUp? && i < |s.agents| && s.agents[i].id == e.agentId
    ensures Apply(s, e).moved <==> LiveAgent(s, e.agentId).Some?
    ensures Apply(s, e).moved ==>
      i < |Apply(s, e).state.agents| && Heard(e, s.agents[i], Apply(s, e).state.agents[i])
  {
    if LiveAgent(s, e.agentId).Some? {
      MovedOnClose(s, e);
      FailureAgents(s, e.agentId, e.reason, e.now, e.jobUrl);
      hide OnFailure, DistinctAgents;
    }
  }

  lemma MovedOnClose(s: RunState, e: Event)
    requires (e.Reported? || e.GaveUp?) && LiveAgent(s, e.agentId).Some?
    ensures Apply(s, e).moved
  {
    hide LiveAgent, SweptState, SweepsOf, OpenHazardCount, CountErrors, FailedState, PatchAgent;
  }

  lemma LinkHeard(s: RunState, e: Event, i: nat)
    requires (e.Dispatched? || e.Events? || e.Briefed?) && i < |s.agents| && s.agents[i].id == e.agentId
    requires LiveAgent(s, e.agentId) == if Awaited(s, s.agents[i]) then Some(s.agents[i]) else None
    ensures Apply(s, e).moved <==> Counts(s, e, s.agents[i])
    ensures Apply(s, e).moved ==>
      i < |Apply(s, e).state.agents| && Heard(e, s.agents[i], Apply(s, e).state.agents[i])
    ensures Apply(s, e).moved && e.Briefed? ==>
      Apply(s, e).state.jobRuns == s.jobRuns[e.agentId := e.githubRunId]
  {
    hide LiveAgent, Awaited;
  }

  // An event about nobody of the run does nothing, and a transcript counts once, whenever it comes.
  lemma StrangersUnheard(s: RunState, e: Event)
    requires About(e).Some? && forall i | 0 <= i < |s.agents| :: s.agents[i].id != About(e).value
    ensures !Apply(s, e).moved
  {
    hide CloseSweepIfDone, FailedState, PatchAgent;
  }

  lemma TranscriptExactly(s: RunState, id: string, i: nat)
    requires DistinctAgents(s.agents) && i < |s.agents| && s.agents[i].id == id
    ensures var t := OnTranscript(s, id);
      && (t.moved <==> !s.agents[i].hasTranscript)
      && t.state == s.(agents := s.agents[i := s.agents[i].(hasTranscript := true)])
  {
    IndexIs(s.agents, id, i);
    hide AgentIndex;
  }

  // --- The clock ----------------------------------------------------------------------------

  // Which limit a patroller still out has passed, if any: silence, or one that fails it.
  datatype Lapse = OnTime | Stalls | Fails(reason: string)

  // A brief gives half an hour, of which no ten minutes in silence; a dispatch half an hour for the job
  // to start; the creation or a retry ten minutes for the dispatch.
  function LapseOf(a: Agent, createdAt: int, now: int): Lapse {
    if a.briefedAt.Some? then
      if now - a.briefedAt.value >= 30 * 60_000 then Fails("timed out")
      else if a.status != AgentStalled && now - a.lastEventAt.Or(a.briefedAt.value) >= 10 * 60_000 then Stalls
      else OnTime
    else if a.dispatchedAt.Some? then
      if now - a.dispatchedAt.value >= 30 * 60_000 then Fails("job never started on GitHub") else OnTime
    else if now - a.retriedAt.Or(createdAt) >= 10 * 60_000 then Fails("never dispatched")
    else OnTime
  }

  // A tick fails a patroller that is past a limit, calls a silent one stalled, and leaves every other,
  // and everyone done, as it was.
  lemma TickExactly(a: Agent, createdAt: int, now: int)
    ensures var b := TickAgent(a, createdAt, now);
      if IsTerminal(a) then b == a
      else match LapseOf(a, createdAt, now)
        case OnTime => b == a
        case Stalls => b == a.(status := AgentStalled)
        case Fails(reason) => b == a.(status := AgentError, summary := Some(reason), finishedAt := Some(now))
  {
    var ds := DeadlinesOf(a, createdAt);
    assert |ds| == 2 ==> ds[1..][0] == ds[1] && ds[1..][1..] == [];
    assert |ds| == 1 ==> ds[1..] == [];
  }

  // --- Retrying and bypassing ---------------------------------------------------------------

  // A failed patroller the retry is for, of a run that still speaks for its PR.
  predicate ToRetry(s: RunState, target: RetryTarget, a: Agent) {
    (s.status == OnTheHill || s.status == Swept) && a.status == AgentError
    && match target case RetryStep(step) => a.step == step case RetryAgent(id) => a.id == id
  }

  // The attempt `b` that follows the failed `a`: nothing but who the patroller is carries over.
  predicate FreshAttempt(a: Agent, b: Agent, now: int) {
    && b.id == a.id && b.role == a.role && b.step == a.step && b.round == a.round
    && b.status == AgentQueued && b.retries == a.retries + 1 && b.retriedAt == Some(now)
    && b.dispatchedAt.None? && b.briefedAt.None? && b.lastEventAt.None? && b.finishedAt.None?
    && b.jobUrl == "" && !b.hasTranscript && b.summary.None? && b.hazards == []
  }

  // A retry gives exactly the failed patrollers it is for a fresh attempt, a fresh nonce and no job, and
  // leaves the others theirs; the run is on the hill again, its sweep under way from when it began.
  lemma RetryExactly(s: RunState, target: RetryTarget, now: int, mint: nat -> string)
    requires Inv(s)
    ensures var r := RetryAgents(s, target, now, mint);
      r.moved <==> exists i | 0 <= i < |s.agents| :: ToRetry(s, target, s.agents[i])
    ensures RetryAgents(s, target, now, mint).moved ==>
      var t := RetryAgents(s, target, now, mint).state;
      && |t.agents| == |s.agents| && t.status == OnTheHill
      && forall i | 0 <= i < |s.agents| :: RetriedAs(s, t, ToRetry(s, target, s.agents[i]), i, now)
    ensures RetryAgents(s, target, now, mint).moved ==>
      var t := RetryAgents(s, target, now, mint).state;
      && |t.steps| == |s.steps| == 7 && (forall i | 0 <= i < 7 && i != 2 :: t.steps[i] == s.steps[i])
      && t.steps[2] == Step(Sweep, StepActive, Some(s.steps[2].startedAt.Or(now)), None, [])
  {
    hide *;
    RetryHits(s, target, now, mint);
    if RetryAgents(s, target, now, mint).moved {
      RetrySteps(s, target, now, mint);
      RetriesEach(s, target, now, mint);
    }
  }

  lemma RetryHits(s: RunState, target: RetryTarget, now: int, mint: nat -> string)
    requires Inv(s)
    ensures forall i | 0 <= i < |s.agents| ::
      s.agents[i].id in RetryableAgents(s, target) <==> ToRetry(s, target, s.agents[i])
    ensures RetryAgents(s, target, now, mint).moved <==> |RetryableAgents(s, target)| > 0
    ensures RetryAgents(s, target, now, mint).moved <==>
      exists i | 0 <= i < |s.agents| :: ToRetry(s, target, s.agents[i])
  {
    var ids := RetryableAgents(s, target);
    assert DistinctAgents(s.agents);
    RetryableFacts(s, target);
    hide Inv, DistinctAgents, RetryableAgents, RetriedState, Retried, JobCancels;
    assert forall i | 0 <= i < |s.agents| :: s.agents[i].id in ids <==> ToRetry(s, target, s.agents[i]);
    if |ids| > 0 {
      assert ids[0] in ids;
    }
  }

  lemma RetriesEach(s: RunState, target: RetryTarget, now: int, mint: nat -> string)
    requires Inv(s) && RetryAgents(s, target, now, mint).moved
    ensures var t := RetryAgents(s, target, now, mint).state;
      && |t.agents| == |s.agents| && t.status == OnTheHill
      && forall i | 0 <= i < |s.agents| :: RetriedAs(s, t, ToRetry(s, target, s.agents[i]), i, now)
  {
    var ids, t := RetryableAgents(s, target), RetryAgents(s, target, now, mint).state;
    RetryHits(s, target, now, mint);
    assert t == RetriedState(s, ids, now, mint);
    hide Inv, RetryableAgents, ToRetry, RetryAgents, RetriedAs;
    forall i | 0 <= i < |s.agents|
      ensures |t.agents| == |s.agents| && RetriedAs(s, t, ToRetry(s, target, s.agents[i]), i, now)
    {
      RetriedOne(s, ids, now, mint, i);
    }
    assert |t.agents| == |s.agents| && t.status == OnTheHill;
  }

  lemma RetriedOne(s: RunState, ids: seq<string>, now: int, mint: nat -> string, i: nat)
    requires i < |s.agents|
    ensures var t := RetriedState(s, ids, now, mint);
      |t.agents| == |s.agents| && RetriedAs(s, t, s.agents[i].id in ids, i, now)
  {
    MintedKeysOnly(s.nonces, ids, mint);
    hide Minted, ReopenStep, Retried;
  }

  // What a retry makes of one patroller, if it is for it, and of all that is kept under its id.
  ghost predicate RetriedAs(s: RunState, t: RunState, retried: bool, i: nat, now: int)
    requires i < |s.agents| && i < |t.agents|
  {
    var id := s.agents[i].id;
    if retried then
      FreshAttempt(s.agents[i], t.agents[i], now) && id !in t.jobRuns && id !in t.stalledLogged
    else
      && t.agents[i] == s.agents[i]
      && (id in t.nonces <==> id in s.nonces) && (id in s.nonces ==> t.nonces[id] == s.nonces[id])
      && (id in t.jobRuns <==> id in s.jobRuns) && (id in s.jobRuns ==> t.jobRuns[id] == s.jobRuns[id])
      && (id in t.stalledLogged <==> id in s.stalledLogged)
  }

  lemma {:induction false} MintedKeysOnly(base: map<string, string>, ids: seq<string>, mint: nat -> string)
    ensures var m := Minted(base, ids, mint);
      forall id | id !in ids :: (id in m <==> id in base) && (id in base ==> m[id] == base[id])
  {
    if ids != [] {
      MintedKeysOnly(base, ids[..|ids| - 1], mint);
      assert ids == ids[..|ids| - 1] + [ids[|ids| - 1]];
    }
  }

  lemma RetrySteps(s: RunState, target: RetryTarget, now: int, mint: nat -> string)
    requires Inv(s)
    ensures RetryAgents(s, target, now, mint).moved ==>
      var t := RetryAgents(s, target, now, mint).state;
      && |t.steps| == |s.steps| == 7 && (forall i | 0 <= i < 7 && i != 2 :: t.steps[i] == s.steps[i])
      && t.steps[2] == Step(Sweep, StepActive, Some(s.steps[2].startedAt.Or(now)), None, [])
  {
    UnderWay(s);
    var ids := RetryableAgents(s, target);
    if |ids| > 0 {
      RetriedFound(s, target);
      hide Inv, RetryableAgents, Retried, Minted, JobCancels;
      assert Place(s.steps[2].id) == 2;
      assert forall i | 0 <= i < 7 && i != 2 :: Place(s.steps[i].id) != 2;
      ReopenedSteps(s.steps, Retried(s.agents, ids), now);
    }
  }

  lemma ReopenedSteps(steps: seq<Step>, retried: seq<Agent>, now: int)
    requires retried != [] && forall i | 0 <= i < |retried| :: retried[i].step == Sweep
    ensures forall i | 0 <= i < |steps| ::
      ReopenStep(steps[i], retried, now) == if steps[i].id != Sweep then steps[i]
        else Step(Sweep, StepActive, Some(steps[i].startedAt.Or(now)), None, [])
  {
    assert retried[0].step == Sweep;
  }

  lemma AllSweep(s: RunState)
    requires Inv(s)
    ensures DistinctAgents(s.agents) && forall i | 0 <= i < |s.agents| :: s.agents[i].step == Sweep
  {
    assert forall i | 0 <= i < |s.agents| :: SoundAgent(s.agents[i]);
  }

  lemma RetriedFound(s: RunState, target: RetryTarget)
    requires Inv(s) && |RetryableAgents(s, target)| > 0
    ensures var retried := Retried(s.agents, RetryableAgents(s, target));
      retried != [] && forall i | 0 <= i < |retried| :: retried[i].step == Sweep
  {
    AllSweep(s);
    hide Inv, RetryableAgents, DistinctAgents;
    var ids := RetryableAgents(s, target);
    RetryableFacts(s, target);
    assert ids[0] in ids;
    FoundAmong(s.agents, ids);
  }

  lemma FoundAmong(agents: seq<Agent>, ids: seq<string>)
    requires ids != [] && exists i | 0 <= i < |agents| :: agents[i].id == ids[0]
    requires forall i | 0 <= i < |agents| :: agents[i].step == Sweep
    ensures var retried := Retried(agents, ids);
      retried != [] && forall i | 0 <= i < |retried| :: retried[i].step == Sweep
  {
    var retried := Retried(agents, ids);
    var i :| 0 <= i < |agents| && agents[i].id == ids[0];
    assert agents[i] in retried;
    assert forall k | 0 <= k < |retried| :: retried[k] in retried;
  }

  // A bypass counts exactly once, for a run that still speaks for its PR and whose Granite Chief has
  // found the design missing; it is remembered, and asks for a new check.
  lemma BypassExactly(s: RunState, now: int)
    ensures var r := BypassDesign(s, now);
      && (r.moved <==>
          && (s.status == OnTheHill || s.status == Swept) && s.designBypassedAt.None?
          && exists i | 0 <= i < |s.agents| :: !NoneMissing(s.agents[i]))
      && r.state == (if r.moved
           then s.(designBypassedAt := Some(now), checkReposts := Some(s.checkReposts.Or(0) + 1), updatedAt := now,
                   steps := r.state.steps)
           else s)
  {
    forall i | 0 <= i < |s.agents| ensures NoneMissing(s.agents[i]) <==> !HasWaivable(s.agents[i]) {
      MissingIsWaivable(s.agents[i]);
    }
    if CanBypassDesign(s) {
      BypassFacts(s, now);
    }
    hide NoneMissing, HasWaivable, ConditionsReport, StepIs, WithStep;
  }

  // --- Titles and checks --------------------------------------------------------------------

  // What is heard of the title and of the check changes those alone: a new title is taken, the first check
  // run created is kept, an open run counts one more ask for a repost, and a repost names the check run it
  // made and leaves the asks that came after it was begun.
  lemma AsideExactly(s: RunState, e: Event)
    requires e.Retitle? || e.CheckCreated? || e.AskRepost? || e.CheckReposted?
    ensures var r := Apply(s, e);
      && r.state == s.(prTitle := r.state.prTitle, updatedAt := r.state.updatedAt,
                       checkRunId := r.state.checkRunId, checkReposts := r.state.checkReposts)
      && match e
         case Retitle(title, now) =>
           && (r.moved <==> title != s.prTitle) && r.state.prTitle == title
           && (r.moved ==> r.state.updatedAt == now) && r.state.checkReposts == s.checkReposts
         case CheckCreated(id) =>
           && (r.moved <==> s.checkRunId.None?) && r.state.prTitle == s.prTitle
           && r.state.checkRunId == Some(s.checkRunId.Or(id)) && r.state.checkReposts == s.checkReposts
         case AskRepost =>
           && (r.moved <==> s.status == OnTheHill || s.status == Swept) && r.state.prTitle == s.prTitle
           && r.state.checkRunId == s.checkRunId
           && r.state.checkReposts == (if r.moved then Some(s.checkReposts.Or(0) + 1) else s.checkReposts)
         case CheckReposted(id, asked) =>
           && r.moved && r.state.checkRunId == Some(id) && r.state.prTitle == s.prTitle
           && (r.state.checkReposts.None? <==> s.checkReposts.None? || s.checkReposts == Some(asked))
           && (r.state.checkReposts.Some? ==> r.state.checkReposts == s.checkReposts)
         case _ => true
  {
  }

  // --- Ending -------------------------------------------------------------------------------

  function EndText(e: Event): string
    requires e.Stop? || e.Land?
  {
    if e.Land? then "stopped · PR merged" else "stopped · " + e.reason
  }

  // What an end makes of a patroller.
  predicate EndedAs(s: RunState, e: Event, a: Agent, b: Agent)
    requires e.Stop? || e.Land?
  {
    b == if !Awaited(s, a) then a
      else a.(status := AgentStopped, summary := Some(EndText(e)), finishedAt := Some(e.now))
  }

  lemma EndMoves(s: RunState, e: Event)
    requires e.Stop? || e.Land?
    ensures Apply(s, e).moved <==> if e.Land? then s.status != Landed else s.status == OnTheHill || s.status == Swept
    ensures Apply(s, e).moved ==>
      var t := Apply(s, e).state;
      && t.status == (if e.Land? then Landed else Stopped)
      && t.mergeSha == (if e.Land? then Some(e.mergeSha) else s.mergeSha)
  {
    hide LandSteps, ReviewOutcome, JobCancels, StillOut, HaltAgent, HaltStep;
  }

  lemma EndAgents(s: RunState, e: Event)
    requires Inv(s) && (e.Stop? || e.Land?) && Apply(s, e).moved
    ensures var t := Apply(s, e).state;
      |t.agents| == |s.agents| && forall i | 0 <= i < |s.agents| :: EndedAs(s, e, s.agents[i], t.agents[i])
  {
    DoneOffTheHill(s);
    EndHalts(s, e);
    HaltedAgents(s, EndText(e), e.now);
    hide Inv, Apply, Halted;
  }

  lemma EndHalts(s: RunState, e: Event)
    requires (e.Stop? || e.Land?) && Apply(s, e).moved
    ensures Apply(s, e).state.agents
      == if e.Land? || s.status == OnTheHill then Halted(s, EndText(e), e.now).agents else s.agents
  {
    if e.Land? {
      LandHalts(s, e.mergeSha, e.now);
      hide LandRun, Halted;
    } else {
      StopHalts(s, e.reason, e.now);
      hide StopRun, Halted;
    }
  }

  lemma LandHalts(s: RunState, sha: string, now: int)
    requires LandRun(s, sha, now).moved
    ensures LandRun(s, sha, now).state.agents == Halted(s, "stopped · PR merged", now).agents
  {
    hide LandSteps, ReviewOutcome, JobCancels, StillOut, Halted;
  }

  lemma StopHalts(s: RunState, reason: string, now: int)
    requires StopRun(s, reason, now).moved
    ensures StopRun(s, reason, now).state.agents
      == if s.status == OnTheHill then Halted(s, "stopped · " + reason, now).agents else s.agents
  {
    hide JobCancels, StillOut, Halted;
  }

  lemma DoneOffTheHill(s: RunState)
    requires Inv(s)
    ensures s.status != OnTheHill ==> forall i | 0 <= i < |s.agents| :: IsTerminal(s.agents[i])
  {
  }

  lemma HaltedAgents(s: RunState, summary: string, now: int)
    requires s.status != OnTheHill ==> forall i | 0 <= i < |s.agents| :: IsTerminal(s.agents[i])
    ensures var t := Halted(s, summary, now);
      |t.agents| == |s.agents| && forall i | 0 <= i < |s.agents| ::
        t.agents[i] == if !Awaited(s, s.agents[i]) then s.agents[i]
          else s.agents[i].(status := AgentStopped, summary := Some(summary), finishedAt := Some(now))
  {
    hide HaltStep;
  }

  lemma EndSweep(s: RunState, e: Event)
    requires Inv(s) && (e.Stop? || e.Land?) && Apply(s, e).moved
    ensures var t := Apply(s, e).state;
      && |t.steps| == |s.steps| == 7
      && t.steps[2] == (if s.status == OnTheHill then s.steps[2].(status := StepStopped, finishedAt := Some(e.now))
                        else s.steps[2])
  {
    UnderWay(s);
    EndMoves(s, e);
    if s.status == OnTheHill || e.Land? {
      HaltedSteps(s.steps, e.now);
      if e.Land? {
        LandedStepsSound(s, e.mergeSha, e.now);
      }
    }
    hide Inv, SoundSteps, LandSteps, ReviewOutcome, JobCancels, StillOut, HaltAgent;
  }

  // Stopping ends an open run, and a merge, which is remembered, any that has not landed. Whoever is
  // still out is stopped, and so is the sweep if it is under way; nobody else is touched.
  lemma EndExactly(s: RunState, e: Event)
    requires Inv(s) && (e.Stop? || e.Land?)
    ensures Apply(s, e).moved <==> if e.Land? then s.status != Landed else s.status == OnTheHill || s.status == Swept
    ensures Apply(s, e).moved ==>
      var t := Apply(s, e).state;
      && t.status == (if e.Land? then Landed else Stopped)
      && t.mergeSha == (if e.Land? then Some(e.mergeSha) else s.mergeSha)
      && |t.agents| == |s.agents| && (forall i | 0 <= i < |s.agents| :: EndedAs(s, e, s.agents[i], t.agents[i]))
      && |t.steps| == |s.steps| == 7
      && t.steps[2] == (if s.status == OnTheHill then s.steps[2].(status := StepStopped, finishedAt := Some(e.now))
                        else s.steps[2])
  {
    hide *;
    EndMoves(s, e);
    if Apply(s, e).moved {
      EndAgents(s, e);
      EndSweep(s, e);
    }
  }

  // A merge settles the steps after the sweep: nobody huddled or went to the summit, the drop-in is done
  // and names the commit, and nothing is deployed.
  lemma LandSettles(s: RunState, sha: string, now: int)
    requires Inv(s) && s.status != Landed
    ensures var steps := LandRun(s, sha, now).state.steps;
      && |steps| == 7 && steps[3].status == steps[4].status == steps[6].status == StepSkipped
      && steps[3].notes == [NoHuddle] && steps[4].notes == [NoSummit] && steps[6].notes == [NoDeploy]
      && steps[5] == Step(DropIn, StepDone, Some(now), Some(now), [MergedAs(if |sha| < 7 then sha else sha[..7])])
  {
    UnderWay(s);
    HaltedSteps(s.steps, now);
    var halted := Halted(s, "stopped · PR merged", now).steps;
    assert forall i | 0 <= i < 7 :: SoundStep(i, s.steps[i], false);
    assert forall i | 0 <= i < 7 && i != 2 :: halted[i] == s.steps[i];
    assert LandRun(s, sha, now).state.steps == LandSteps(halted, sha, now) by {
      hide LandSteps, ReviewOutcome, JobCancels, StillOut, Halted;
    }
    hide Inv, LandRun, Halted, SoundStep;
    LandedNotes(halted, sha, now);
  }

  lemma LandedNotes(halted: seq<Step>, sha: string, now: int)
    requires |halted| == 7 && (forall i | 0 <= i < 7 :: Place(halted[i].id) == i)
    requires halted[3].status == StepPending && halted[4].status == StepPending
    ensures var steps := LandSteps(halted, sha, now);
      && |steps| == 7 && steps[3].status == steps[4].status == steps[6].status == StepSkipped
      && steps[3].notes == [NoHuddle] && steps[4].notes == [NoSummit] && steps[6].notes == [NoDeploy]
      && steps[5] == Step(DropIn, StepDone, Some(now), Some(now), [MergedAs(if |sha| < 7 then sha else sha[..7])])
  {
    var skipped := SkipIfPending(SkipIfPending(halted, Huddle, NoHuddle), Summit, NoSummit);
    SkippedInPlace(halted, Huddle, NoHuddle);
    SkippedInPlace(SkipIfPending(halted, Huddle, NoHuddle), Summit, NoSummit);
    hide SkipIfPending;
    assert |sha| == 7 ==> sha[..7] == sha;
    assert skipped[5] == halted[5] && skipped[6] == halted[6];
    assert Place(halted[5].id) == 5 && Place(halted[6].id) == 6;
    assert Place(skipped[3].id) == 3 && Place(skipped[4].id) == 4;
  }

  lemma OthersLandNothing(s: RunState, e: Event)
    requires !e.Land? && s.status != Landed
    ensures Apply(s, e).state.status != Landed
  {
    hide DeadlinesOf, TickOne, ConditionsReport, WithAgent, AgentIndex, LandSteps, ReviewOutcome, JobCancels;
    if e.Alarm? {
      TicksLandNothing(s, |s.agents|, e.now);
    }
  }

  lemma {:induction false} TicksLandNothing(s: RunState, k: nat, now: int)
    requires k <= |s.agents|
    ensures TickFirst(s, k, now).next.status == s.status
  {
    if k > 0 {
      TicksLandNothing(s, k - 1, now);
      hide FirstDue, DeadlinesOf, WithAgent;
    }
  }

  lemma LastEvent(a: Start, es: seq<Event>)
    requires es != []
    ensures After(a, es) == Apply(After(a, es[..|es| - 1]), es[|es| - 1]).state
    ensures AllLegal(es) ==> AllLegal(es[..|es| - 1]) && Legal(es[|es| - 1])
  {
    hide Apply;
  }

  lemma NoEvents(a: Start)
    ensures After(a, []) == CreateRun(a).state
  {
    hide CreateRun;
  }

  // A run that has landed holds the commit of the first merge it was told of.
  lemma {:induction false} LandedOnFirst(a: Start, es: seq<Event>) returns (k: nat)
    requires DistinctRoster(a.cfg.roster) && AllLegal(es)
    requires After(a, es).status == Landed
    ensures k < |es| && es[k].Land? && After(a, es).mergeSha == Some(es[k].mergeSha)
    ensures forall j | 0 <= j < k :: !es[j].Land?
  {
    hide *;
    if |es| == 0 {
      NoEvents(a);
      CreatedNotLanded(a);
    } else {
      var init, last := es[..|es| - 1], es[|es| - 1];
      var s := After(a, init);
      LastEvent(a, es);
      if s.status == Landed {
        k := LandedOnFirst(a, init);
        EndsStay(s, last);
      } else {
        k := |init|;
        if !last.Land? {
          OthersLandNothing(s, last);
        }
        EndMoves(s, last);
        NoneLandedYet(a, init);
      }
    }
  }

  lemma CreatedNotLanded(a: Start)
    ensures CreateRun(a).state.status != Landed
  {
    SweptFacts(FreshRun(a), a.now);
    hide SweptState, AllIn;
  }

  lemma {:induction false} NoneLandedYet(a: Start, es: seq<Event>)
    requires After(a, es).status != Landed
    ensures forall j | 0 <= j < |es| :: !es[j].Land?
  {
    hide *;
    if |es| > 0 {
      var init, last := es[..|es| - 1], es[|es| - 1];
      LastEvent(a, es);
      LandsForGood(After(a, init), last);
      NoneLandedYet(a, init);
      assert forall j | 0 <= j < |init| :: es[j] == init[j];
    }
  }

  lemma LandsForGood(s: RunState, e: Event)
    requires Apply(s, e).state.status != Landed
    ensures s.status != Landed && !e.Land?
  {
    hide *;
    EndsStay(s, e);
    if e.Land? {
      EndMoves(s, e);
    }
  }

  // --- The step the index shows -------------------------------------------------------------

  // `k` is the place of the step a run is at: the first under way, else the last one it reached, else
  // the first of all.
  ghost predicate At(steps: seq<Step>, k: nat) {
    && k < |steps|
    && (steps[k].status == StepActive ==> forall j | 0 <= j < k :: steps[j].status != StepActive)
    && (steps[k].status != StepActive ==>
        && (forall j | 0 <= j < |steps| :: steps[j].status != StepActive)
        && (forall j | k < j < |steps| :: steps[j].status == StepPending)
        && (steps[k].status == StepPending ==> k == 0))
  }

  lemma {:induction false} ActiveIs(steps: seq<Step>)
    ensures FirstActive(steps).None? <==> forall j | 0 <= j < |steps| :: steps[j].status != StepActive
    ensures forall k: nat | k < |steps| && steps[k].status == StepActive
        && (forall j | 0 <= j < k :: steps[j].status != StepActive) :: FirstActive(steps) == Some(steps[k].id)
  {
    if steps != [] {
      ActiveIs(steps[1..]);
      forall k: nat | k < |steps| && steps[k].status == StepActive
          && (forall j | 0 <= j < k :: steps[j].status != StepActive)
        ensures FirstActive(steps) == Some(steps[k].id)
      {
        if k > 0 {
          assert steps[1..][k - 1] == steps[k];
          assert forall j | 0 <= j < k - 1 :: steps[1..][j] == steps[j + 1];
        }
      }
    }
  }

  lemma {:induction false} ReachedIs(steps: seq<Step>, k: nat)
    requires k < |steps| && steps[k].status != StepPending
    requires forall j | k < j < |steps| :: steps[j].status == StepPending
    ensures LastReached(steps) == Some(steps[k].id)
  {
    if k < |steps| - 1 {
      ReachedIs(steps[..|steps| - 1], k);
    }
  }

  lemma {:induction false} NoneReached(steps: seq<Step>)
    requires forall j | 0 <= j < |steps| :: steps[j].status == StepPending
    ensures LastReached(steps).None?
  {
    if steps != [] {
      NoneReached(steps[..|steps| - 1]);
    }
  }

  // The index shows the step under way, or of a run with none the last one reached.
  lemma CurrentStepIs(steps: seq<Step>, k: nat)
    requires At(steps, k)
    ensures CurrentStep(steps) == steps[k].id
  {
    ActiveIs(steps);
    if steps[k].status == StepPending {
      NoneReached(steps);
    } else if steps[k].status != StepActive {
      ReachedIs(steps, k);
    }
    hide FirstActive, LastReached;
  }

  // In every reachable state that is the sweep, and of a landed run the last step of all.
  lemma IndexShowsStep(a: Start, es: seq<Event>)
    requires DistinctRoster(a.cfg.roster) && AllLegal(es)
    ensures IndexRowOf(After(a, es)).currentStep == if After(a, es).status == Landed then SendIt else Sweep
  {
    hide *;
    AlwaysInv(a, es);
    StepAt(After(a, es));
  }

  lemma StepAt(s: RunState)
    requires Inv(s)
    ensures IndexRowOf(s).currentStep == if s.status == Landed then SendIt else Sweep
  {
    UnderWay(s);
    var k := if s.status == Landed then 6 else 2;
    assert forall i | 0 <= i < 7 :: SoundStep(i, s.steps[i], s.status == Landed);
    hide Inv, ReviewOutcome, CurrentStep;
    assert At(s.steps, k);
    assert Place(s.steps[k].id) == k;
    hide At;
    CurrentStepIs(s.steps, k);
  }
}
