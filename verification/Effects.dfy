// A transition that does not ask for a write leaves what that write would send as it was.
module Effects {
  import opened Domain
  import opened Machine
  import opened Lifecycle
  import opened Views

  // --- Faces through each quiet transition --------------------------------------------------

  lemma FacesReflexive(agents: seq<Agent>)
    ensures SameFaces(agents, agents)
  {
  }

  // A live agent still out, whatever became of its clocks and links, shows the same face.
  lemma QuietPatch(s: RunState, id: string, patch: Agent -> Agent)
    requires Inv(s) && LiveAgent(s, id).Some?
    requires var a := LiveAgent(s, id).value; SameFace(a, patch(a))
    ensures SameFaces(s.agents, WithAgent(s.agents, id, patch))
  {
    WithAgentReplaces(s.agents, id, patch);
  }

  lemma TickFaces(s: RunState, now: int)
    requires !SomeFails(s, |s.agents|, now)
    ensures SameFaces(s.agents, TickAgents(s, |s.agents|, now))
  {
    var r := TickAgents(s, |s.agents|, now);
    forall i | 0 <= i < |r| ensures SameFace(s.agents[i], r[i]) {
      assert !FailsNow(s.agents[i], s.createdAt, now);
    }
  }

  lemma HaltedFaces(agents: seq<Agent>, summary: string, now: int)
    requires !SomeOut(agents)
    ensures Map(agents, (a: Agent) => HaltAgent(a, summary, now)) == agents
  {
  }

  // All the check reads is as it was.
  ghost predicate Quiet(s: RunState, t: RunState) {
    && SameFaces(s.agents, t.agents) && t.steps == s.steps && t.card == s.card && t.origin == s.origin
    && t.designBypassedAt == s.designBypassedAt && t.status == s.status
  }

  lemma QuietDispatched(s: RunState, id: string, now: int)
    requires Inv(s)
    ensures Quiet(s, OnDispatched(s, id, now).state)
  {
    FacesReflexive(s.agents);
    if OnDispatched(s, id, now).moved {
      QuietPatch(s, id, (a: Agent) => a.(status := AgentDispatched, dispatchedAt := Some(now)));
    }
  }

  lemma QuietEvents(s: RunState, id: string, count: nat, now: int, url: string)
    requires Inv(s)
    ensures Quiet(s, OnEvents(s, id, count, now, url).state)
  {
    FacesReflexive(s.agents);
    if OnEvents(s, id, count, now, url).moved {
      var a := LiveAgent(s, id).value;
      QuietPatch(s, id, (b: Agent) => b.(
          status := AgentRunning, lastEventAt := Some(now),
          dispatchedAt := Some(a.dispatchedAt.Or(now)), jobUrl := Linked(a.jobUrl, url)));
    }
  }

  lemma QuietBriefed(s: RunState, id: string, now: int, job: string, url: string)
    requires Inv(s)
    ensures Quiet(s, OnBriefed(s, id, now, job, url).state)
  {
    FacesReflexive(s.agents);
    if OnBriefed(s, id, now, job, url).moved {
      var a := LiveAgent(s, id).value;
      var briefed := a.(lastEventAt := None, briefedAt := Some(now),
          status := if a.status == AgentStalled then AgentRunning else a.status,
          jobUrl := Linked(a.jobUrl, url));
      QuietPatch(s, id, (b: Agent) => briefed);
    }
  }

  // What an agent's own progress, a title and a check run's id leave alone.
  lemma QuietReview(s: RunState, e: Event)
    requires Inv(s)
    requires e.Dispatched? || e.Events? || e.Briefed? || e.Transcript? || e.Retitle? || e.CheckCreated?
      || e.CheckReposted?
    ensures Quiet(s, Apply(s, e).state)
  {
    hide Inv, Quiet;
    match e
    case Dispatched(id, now) => QuietDispatched(s, id, now);
    case Events(id, count, now, url) => QuietEvents(s, id, count, now, url);
    case Briefed(id, now, job, url) => QuietBriefed(s, id, now, job, url);
    case _ => QuietRest(s, e);
  }

  lemma QuietRest(s: RunState, e: Event)
    requires e.Transcript? || e.Retitle? || e.CheckCreated? || e.CheckReposted?
    ensures Quiet(s, Apply(s, e).state)
  {
    FacesReflexive(s.agents);
  }

  lemma TickQuiet(s: RunState, now: int)
    requires Inv(s) && Check !in OnTick(s, now).effects
    ensures Quiet(s, OnTick(s, now).state)
  {
    FacesReflexive(s.agents);
    if s.status == OnTheHill {
      assert TickedTo(s, |s.agents|, now, TickFirst(s, |s.agents|, now)) by {
        TickFirstMeaning(s, |s.agents|, now);
      }
      hide *;
      TickedQuiet(s, now);
    }
  }

  lemma TickedQuiet(s: RunState, now: int)
    requires TickedTo(s, |s.agents|, now, TickFirst(s, |s.agents|, now))
    requires s.status == OnTheHill && Check !in OnTick(s, now).effects
    ensures Quiet(s, OnTick(s, now).state)
  {
    FacesReflexive(s.agents);
    if TickFirst(s, |s.agents|, now).failures == 0 {
      TickFaces(s, now);
    }
    hide TickFirst, TickAgents, FailCount, SomeDue, SweptState, SweepsOf, OpenHazardCount, CountErrors;
  }

  // In a run that is off the hill, stopping and landing touch no patroller and no sweep.
  lemma EndingQuiet(s: RunState, e: Event)
    requires Inv(s) && s.status != OnTheHill && (e.Stop? || e.Land?)
    ensures var t := Apply(s, e).state;
      t.agents == s.agents && t.card == s.card && t.origin == s.origin
      && t.designBypassedAt == s.designBypassedAt
      && |t.steps| == |s.steps| == 7 && t.steps[2] == s.steps[2] && t.checkRunId == s.checkRunId
  {
    if e.Land? && s.status != Landed {
      HaltedFaces(s.agents, "stopped · PR merged", e.now);
      HaltedSteps(s.steps, e.now);
      LandedSteps(Halted(s, "stopped · PR merged", e.now).steps, e.mergeSha, e.now);
      hide LandSteps;
    }
  }

  // --- The check ----------------------------------------------------------------------------

  // What a transition that owes no check leaves as it was.
  ghost predicate CheckUntouched(s: RunState, t: RunState) {
    CheckRunOf(t) == CheckRunOf(s) && ReviewOutcome(t) == ReviewOutcome(s)
  }

  lemma SameStepsSameReview(s: RunState, t: RunState)
    requires Inv(s) && t.status != Failed
    requires SameFaces(s.agents, t.agents) && |t.steps| == 7 && t.card == s.card && t.origin == s.origin
    requires t.designBypassedAt == s.designBypassedAt
    requires (forall i | 0 <= i < 7 :: Place(t.steps[i].id) == i) && t.steps[2] == s.steps[2]
    ensures SameReview(s, t)
  {
    StepsFound(s);
    StepsFound(t);
  }

  lemma PendingIff(s: RunState)
    requires Inv(s)
    ensures ReviewOutcome(s) == OutcomePending <==> s.steps[2].status != StepDone
  {
    StepsFound(s);
  }

  // A run on the hill that is landed was never reviewed to the end: its check is owed.
  lemma LandFromHillPending(s: RunState, mergeSha: string, now: int)
    requires Inv(s) && s.status == OnTheHill
    ensures ReviewOutcome(LandRun(s, mergeSha, now).state) == OutcomePending
    ensures ReviewOutcome(Halted(s, "", now).(status := Stopped)) == OutcomePending
  {
    HaltedSteps(s.steps, now);
    LandedSteps(Halted(s, "stopped · PR merged", now).steps, mergeSha, now);
    LandKeepsInv(s, mergeSha, now);
    PendingIff(LandRun(s, mergeSha, now).state);
    HaltedInv(s, "", now);
    PendingIff(Halted(s, "", now).(status := Stopped));
    hide LandSteps, Inv, ReviewOutcome;
  }

  lemma ReportsOweCheck(s: RunState, e: Event)
    requires e.Reported? || e.GaveUp? || e.Retry? || e.Bypass? || e.AskRepost?
    requires Apply(s, e).moved
    ensures Check in Apply(s, e).effects
  {
    hide SweptState, RetriedState, PatchAgent, FailedState;
  }

  lemma QuietCheck(s: RunState, t: RunState)
    requires Inv(s) && Quiet(s, t)
    ensures CheckUntouched(s, t)
  {
    assert forall i | 0 <= i < 7 :: SoundStep(i, s.steps[i], s.status == Landed);
    SameStepsSameReview(s, t);
    SameOutcome(s, t);
    SameCheck(s, t);
    hide ReviewOutcome, CheckRunOf;
  }

  // In a run off the hill, stopping and landing leave all that its review reads.
  lemma EndingReview(s: RunState, e: Event)
    requires Inv(s) && s.status != OnTheHill && (e.Stop? || e.Land?)
    ensures SameReview(s, Apply(s, e).state)
  {
    var t := Apply(s, e).state;
    assert Inv(t) by {
      assert Legal(e);
      hide *;
      StepKeepsInv(s, e);
    }
    EndingQuiet(s, e);
    hide SoundAgents, HoldsWaived, SomeOut, SomeStopped, KeyedBy, KeyedWithin, Apply;
    FacesReflexive(s.agents);
    StepsFound(s);
    StepsFound(t);
  }

  lemma EndingCheck(s: RunState, e: Event)
    requires Inv(s) && (e.Stop? || e.Land?) && Check !in Apply(s, e).effects
    ensures CheckUntouched(s, Apply(s, e).state)
  {
    var t := Apply(s, e).state;
    OffTheHillOnly(s, e);
    hide *;
    EndingReview(s, e);
    SameOutcome(s, t);
    EndingPends(s, e);
    SameCheck(s, t);
    Untouched(s, t);
  }

  lemma OffTheHillOnly(s: RunState, e: Event)
    requires Inv(s) && (e.Stop? || e.Land?) && Check !in Apply(s, e).effects
    ensures s.status != OnTheHill
  {
    if e.Land? && s.status == OnTheHill {
      LandFromHillPending(s, e.mergeSha, e.now);
    }
    hide Inv, Map, Sha7, Halted, LandedState, JobCancels, StillOut, ReviewOutcome;
  }

  lemma Untouched(s: RunState, t: RunState)
    requires CheckRunOf(s) == CheckRunOf(t) && ReviewOutcome(s) == ReviewOutcome(t)
    ensures CheckUntouched(s, t)
  {
  }

  // A run off the hill whose end owes no check is settled, or had ended alike.
  lemma EndingPends(s: RunState, e: Event)
    requires Inv(s) && (e.Stop? || e.Land?) && s.status != OnTheHill && Check !in Apply(s, e).effects
    ensures ReviewOutcome(s) == OutcomePending ==> SameEnding(s, Apply(s, e).state)
  {
    PendingIff(s);
    EndingReview(s, e);
    SameOutcome(s, Apply(s, e).state);
    hide Halted, LandSteps, JobCancels, ReviewOutcome, SameReview;
  }

  lemma UnmovedSame(s: RunState, e: Event)
    requires !Apply(s, e).moved
    ensures Apply(s, e).state == s
  {
    hide RetriedState, LandedState, Halted, ReviewOutcome, SweptState, WithAgent, DeadlinesOf, TickOne;
  }

  // A transition without a check effect leaves the whole check body as it was.
  lemma CheckComplete(s: RunState, e: Event)
    requires Inv(s) && Legal(e) && Check !in Apply(s, e).effects
    ensures CheckUntouched(s, Apply(s, e).state)
  {
    hide Inv;
    if !Apply(s, e).moved {
      UnmovedSame(s, e);
    } else if e.Stop? || e.Land? {
      EndingCheck(s, e);
    } else if e.Alarm? {
      TickQuiet(s, e.now);
      QuietCheck(s, Apply(s, e).state);
    } else if e.Reported? || e.GaveUp? || e.Retry? || e.Bypass? || e.AskRepost? {
      ReportsOweCheck(s, e);
    } else {
      QuietReview(s, e);
      QuietCheck(s, Apply(s, e).state);
    }
    hide *;
  }

  // Nor does it make a run that had no check to write want one, but for GitHub's own answer.
  lemma WantsNoMore(s: RunState, e: Event)
    requires Inv(s) && Legal(e) && !e.CheckCreated? && !e.CheckReposted?
    requires WantsCheck(Apply(s, e).state)
    ensures WantsCheck(s)
  {
    var t := Apply(s, e).state;
    if s.status == Stopped || s.status == Landed {
      EndedStays(s, e);
    }
  }

  // An ended run's outcome is final whatever comes, and so is its check run but for GitHub's answer.
  lemma EndedStays(s: RunState, e: Event)
    requires Inv(s) && Legal(e)
    requires s.status == Stopped || s.status == Landed
    ensures var t := Apply(s, e).state;
      && (t.status == s.status || t.status == Landed)
      && ReviewOutcome(t) == ReviewOutcome(s)
      && (!e.CheckCreated? && !e.CheckReposted? ==> t.checkRunId == s.checkRunId)
  {
    var t := Apply(s, e).state;
    if e.Stop? || e.Land? {
      hide *;
      EndingStays(s, e);
    } else if e.Transcript? || e.Retitle? {
      hide *;
      AsideStays(s, e);
    } else if e.CheckCreated? || e.CheckReposted? {
      hide Inv, ReviewOutcome;
      AnswerKeepsOutcome(s, t);
    } else {
      EndedUnmoved(s, e);
    }
  }

  // An ended run takes nothing more of its patrollers, nor of its owner.
  lemma EndedUnmoved(s: RunState, e: Event)
    requires s.status == Stopped || s.status == Landed
    requires e.Dispatched? || e.Events? || e.Briefed? || e.Reported? || e.GaveUp? || e.Alarm?
      || e.Retry? || e.Bypass? || e.AskRepost?
    ensures Apply(s, e).state == s
  {
    hide ReviewOutcome, WithAgent, RetriedState, AgentIndex, TickFirst, ConditionsReport;
  }

  lemma AsideStays(s: RunState, e: Event)
    requires Inv(s) && (e.Transcript? || e.Retitle?)
    ensures var t := Apply(s, e).state;
      t.status == s.status && ReviewOutcome(t) == ReviewOutcome(s) && t.checkRunId == s.checkRunId
  {
    QuietReview(s, e);
    QuietCheck(s, Apply(s, e).state);
    HeardKeepsBooks(s, e);
    hide Inv, ReviewOutcome, SameFaces, Apply, CheckRunOf;
  }

  lemma AnswerKeepsOutcome(s: RunState, t: RunState)
    requires t == s.(checkRunId := t.checkRunId, checkReposts := t.checkReposts)
    ensures ReviewOutcome(t) == ReviewOutcome(s)
  {
  }

  lemma EndingStays(s: RunState, e: Event)
    requires Inv(s) && s.status != OnTheHill && (e.Stop? || e.Land?) && Legal(e)
    ensures var t := Apply(s, e).state;
      && (t.status == s.status || t.status == Landed || (s.status == Swept && t.status == Stopped))
      && ReviewOutcome(t) == ReviewOutcome(s) && t.checkRunId == s.checkRunId
  {
    EndingReview(s, e);
    EndingQuiet(s, e);
    SameOutcome(s, Apply(s, e).state);
    hide Halted, LandSteps, JobCancels, ReviewOutcome, SameReview;
  }

  // --- The index ----------------------------------------------------------------------------

  lemma SameRow(s: RunState, t: RunState)
    requires ReviewOutcome(s) == ReviewOutcome(t) && s.steps == t.steps && s.card == t.card
    requires s.prTitle == t.prTitle && s.status == t.status && s.createdAt == t.createdAt
    requires s.designBypassedAt == t.designBypassedAt
    ensures IndexRowOf(s) == IndexRowOf(t)
  {
  }

  // A report that leaves somebody out changes the patrollers only.
  lemma ReportNoIndex(s: RunState, e: Event)
    requires Inv(s) && (e.Reported? || e.GaveUp?) && Apply(s, e).moved
    requires Index !in Apply(s, e).effects
    ensures var t := Apply(s, e).state;
      t == s.(agents := t.agents, updatedAt := t.updatedAt)
  {
    hide Inv, SweepsOf, OpenHazardCount, CountErrors, SweptState, AgentIndex, WithAgent;
  }

  lemma TickNoIndex(s: RunState, now: int)
    requires Inv(s) && Index !in OnTick(s, now).effects
    ensures var t := OnTick(s, now).state;
      t == s.(agents := t.agents, updatedAt := t.updatedAt, stalledLogged := t.stalledLogged)
  {
    if s.status == OnTheHill {
      assert TickedTo(s, |s.agents|, now, TickFirst(s, |s.agents|, now)) by {
        TickFirstMeaning(s, |s.agents|, now);
      }
      hide *;
      TickedNoIndex(s, now);
    }
  }

  lemma TickedNoIndex(s: RunState, now: int)
    requires TickedTo(s, |s.agents|, now, TickFirst(s, |s.agents|, now))
    requires s.status == OnTheHill && Index !in OnTick(s, now).effects
    ensures var t := OnTick(s, now).state;
      t == s.(agents := t.agents, updatedAt := t.updatedAt, stalledLogged := t.stalledLogged)
  {
    hide TickFirst, TickAgents, FailCount, SomeDue, SweptState, SweepsOf, OpenHazardCount, CountErrors;
  }

  lemma SameStepsPending(s: RunState, t: RunState)
    requires Inv(s) && s.status == OnTheHill && t.steps == s.steps && t.status == OnTheHill
    ensures ReviewOutcome(t) == ReviewOutcome(s)
  {
    StepsFound(s);
    StepsFound(t);
  }

  // A transition without an index effect leaves the run's row as it was, but for its clock.
  lemma IndexComplete(s: RunState, e: Event)
    requires Inv(s) && Legal(e) && Index !in Apply(s, e).effects
    ensures IndexRowOf(Apply(s, e).state) == IndexRowOf(s)
  {
    hide Inv;
    var t := Apply(s, e).state;
    if !Apply(s, e).moved {
      UnmovedSame(s, e);
    } else if e.Reported? || e.GaveUp? {
      ReportNoIndex(s, e);
      assert s.status == OnTheHill;
      SameStepsPending(s, t);
      SameRow(s, t);
    } else if e.Alarm? {
      TickNoIndex(s, e.now);
      assert s.status == OnTheHill;
      SameStepsPending(s, t);
      SameRow(s, t);
    } else if e.Stop? || e.Land? || e.Retry? || e.Bypass? || e.Retitle? {
      OwesIndex(s, e);
    } else if e.AskRepost? {
      FacesReflexive(s.agents);
      assert t == s.(checkReposts := t.checkReposts);
      QuietCheck(s, t);
      SameRow(s, t);
    } else {
      QuietReview(s, e);
      QuietCheck(s, t);
      QuietCard(s, e);
      SameRow(s, t);
    }
    hide *;
  }

  lemma OwesIndex(s: RunState, e: Event)
    requires e.Stop? || e.Land? || e.Retry? || e.Bypass? || e.Retitle?
    requires Apply(s, e).moved
    ensures Index in Apply(s, e).effects
  {
    hide RetriedState, LandedState, Halted, ReviewOutcome;
  }

  lemma QuietCard(s: RunState, e: Event)
    requires e.Dispatched? || e.Events? || e.Briefed? || e.Transcript? || e.CheckCreated? || e.CheckReposted?
    ensures var t := Apply(s, e).state; t.prTitle == s.prTitle && t.createdAt == s.createdAt
  {
  }

  // --- The dashboard ------------------------------------------------------------------------

  lemma SameSnapshot(s: RunState, t: RunState)
    requires t == s.(checkRunId := t.checkRunId, checkReposts := t.checkReposts)
    ensures SnapshotOf(t) == SnapshotOf(s)
  {
  }

  lemma OwesBroadcast(s: RunState, e: Event)
    requires !e.CheckCreated? && !e.CheckReposted? && !e.AskRepost?
    requires Apply(s, e).moved
    ensures Broadcast in Apply(s, e).effects
  {
    hide RetriedState, LandedState, Halted, ReviewOutcome, SweptState, WithAgent, DeadlinesOf, TickOne;
  }

  // A transition without a broadcast effect leaves what the dashboard shows as it was.
  lemma BroadcastComplete(s: RunState, e: Event)
    requires Broadcast !in Apply(s, e).effects
    ensures SnapshotOf(Apply(s, e).state) == SnapshotOf(s)
  {
    if e.CheckCreated? || e.CheckReposted? || e.AskRepost? {
      SameSnapshot(s, Apply(s, e).state);
    } else if Apply(s, e).moved {
      OwesBroadcast(s, e);
    } else {
      UnmovedSame(s, e);
    }
    hide *;
  }
}
