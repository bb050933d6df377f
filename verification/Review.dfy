// What the review comes to: when the check passes, what a bypass waives, and what is never undone.
module Review {
  import opened Domain
  import opened Machine
  import opened Lifecycle
  import opened Views
  import opened Effects
  import opened Attempts

  // --- The lifecycle, spelled out -----------------------------------------------------------

  // The run is on the hill exactly while its sweep is under way, which is exactly while a patroller
  // is still out; it has landed exactly when it holds a merge commit, which is exactly when Drop in
  // is done; every patroller has a nonce and nobody else does; it never fails.
  lemma LifecycleAlways(a: Start, es: seq<Event>)
    requires DistinctRoster(a.cfg.roster) && AllLegal(es)
    ensures var s := After(a, es);
      && |s.steps| == 7
      && (s.status == OnTheHill <==> s.steps[2].status == StepActive)
      && (s.status == OnTheHill <==> exists i | 0 <= i < |s.agents| :: !IsTerminal(s.agents[i]))
      && (s.status == Landed <==> s.mergeSha.Some?)
      && (s.status == Landed <==> s.steps[5].status == StepDone)
      && (forall id :: id in s.nonces <==> exists i | 0 <= i < |s.agents| :: s.agents[i].id == id)
      && s.status != Failed
  {
    hide After, DistinctRoster;
    AlwaysInv(a, es);
    var s := After(a, es);
    assert SoundStep(5, s.steps[5], s.status == Landed);
    hide SoundAgents, HoldsWaived, SoundStep, KeyedWithin;
    forall id ensures id in s.nonces <==> exists i | 0 <= i < |s.agents| :: s.agents[i].id == id {
      if i :| 0 <= i < |s.agents| && s.agents[i].id == id {
        assert AgentIds(s.agents)[i] == id;
      }
      if id in AgentIds(s.agents) {
        var i :| 0 <= i < |s.agents| && AgentIds(s.agents)[i] == id;
        assert s.agents[i].id == id;
      }
    }
  }

  // A landed run stays landed, on the same merge; a stopped one can only land.
  lemma EndsStay(s: RunState, e: Event)
    ensures s.status == Landed ==>
      Apply(s, e).state.status == Landed && Apply(s, e).state.mergeSha == s.mergeSha
    ensures s.status == Stopped ==> Apply(s, e).state.status == Stopped || e.Land?
    ensures s.status == Stopped && e.Land? ==> Apply(s, e).state.status == Landed
  {
    hide SweptState, DeadlinesOf, TickOne, ConditionsReport, RetriedState;
  }

  // --- Reports are permanent ----------------------------------------------------------------

  predicate HasReport(a: Agent) {
    a.status == AgentClear || a.status == AgentHazards
  }

  // `b` is the same patroller as `a`, retried no less often, with the same report if `a` had made one.
  ghost predicate Kept(a: Agent, b: Agent) {
    && b.id == a.id && b.role == a.role && b.step == a.step && a.retries <= b.retries
    && (HasReport(a) ==> b.status == a.status && b.summary == a.summary && b.hazards == a.hazards)
  }

  ghost predicate AllKept(agents: seq<Agent>, others: seq<Agent>) {
    |agents| == |others| && forall i | 0 <= i < |agents| :: Kept(agents[i], others[i])
  }

  lemma OnwardKept(agents: seq<Agent>, others: seq<Agent>)
    requires AllOnward(agents, others)
    ensures AllKept(agents, others)
  {
    forall i | 0 <= i < |agents| ensures Kept(agents[i], others[i]) {
      assert Onward(agents[i], others[i]);
    }
  }

  // No transition takes back, or changes, a report a patroller has made.
  lemma ReportsKept(s: RunState, e: Event)
    requires Inv(s) && Legal(e)
    ensures AllKept(s.agents, Apply(s, e).state.agents)
  {
    hide *;
    EveryStepOnward(s, e);
    SteppedOnward(s.agents, Apply(s, e).state.agents);
    OnwardKept(s.agents, Apply(s, e).state.agents);
  }

  // Whatever happens later, a report stands as it was made.
  lemma ReportsPermanent(a: Start, es: seq<Event>, fs: seq<Event>)
    requires DistinctRoster(a.cfg.roster) && AllLegal(es) && AllLegal(fs)
    ensures AllLegal(es + fs)
    ensures AllKept(After(a, es).agents, After(a, es + fs).agents)
  {
    assert AllLegal(es + fs);
    hide *;
    AttemptsFinal(a, es, fs);
    OnwardKept(After(a, es).agents, After(a, es + fs).agents);
  }

  // --- Success is exact ---------------------------------------------------------------------

  // A patroller that counts as a pass: clear, or, once the owner has bypassed the design, Granite
  // Chief with the missing design for its one hazard.
  predicate Passes(bypassed: bool, a: Agent) {
    || a.status == AgentClear
    || (bypassed && a.status == AgentHazards && a.role == GraniteChief
        && |a.hazards| == 1 && a.hazards[0].title == NO_DESIGN_TITLE)
  }

  lemma PassesExactly(bypassed: bool, a: Agent)
    requires SoundAgent(a) && IsTerminal(a)
    ensures Passes(bypassed, a) <==> !Silent(a) && !Flagged(bypassed, a)
  {
  }

  // The check passes if and only if the sweep is done, somebody patrolled, and everybody who did
  // counts as a pass; it is in progress if and only if the run is on the hill.
  lemma SuccessIff(s: RunState)
    requires Inv(s)
    ensures CheckRunOf(s).Completed? && CheckRunOf(s).conclusion == Success <==>
      s.steps[2].status == StepDone && s.agents != []
      && forall i | 0 <= i < |s.agents| :: Passes(s.designBypassedAt.Some?, s.agents[i])
    ensures CheckRunOf(s).InProgress? <==> s.status == OnTheHill
  {
    StepsFound(s);
    SweepsAreAll(s.agents);
    var bypassed := s.designBypassedAt.Some?;
    if s.steps[2].status == StepDone {
      forall i | 0 <= i < |s.agents|
        ensures Passes(bypassed, s.agents[i]) <==> !Silent(s.agents[i]) && !Flagged(bypassed, s.agents[i])
      {
        PassesExactly(bypassed, s.agents[i]);
      }
      OutcomeWhenDone(s);
      hide Flagged, Passes;
    }
    hide CheckSummary, FailureTitle;
  }

  ghost predicate AnySilent(agents: seq<Agent>) {
    exists i | 0 <= i < |agents| :: Silent(agents[i])
  }

  ghost predicate AnyFlagged(bypassed: bool, agents: seq<Agent>) {
    exists i | 0 <= i < |agents| :: Flagged(bypassed, agents[i])
  }

  lemma DoneOutcome(s: RunState)
    requires Inv(s) && s.steps[2].status == StepDone
    ensures ReviewOutcome(s) ==
      if AnySilent(s.agents) then OutcomeFailed
      else if AnyFlagged(s.designBypassedAt.Some?, s.agents) then OutcomeHazards
      else if s.agents == [] then OutcomeNone
      else OutcomeClear
  {
    StepsFound(s);
    SweepsAreAll(s.agents);
    hide Silent, Flagged, SweepsOf, StepIs, SoundAgents, SoundSteps, HoldsWaived;
  }

  lemma OutcomeWhenDone(s: RunState)
    requires Inv(s) && s.steps[2].status == StepDone
    ensures ReviewOutcome(s) == OutcomeClear <==>
      s.agents != [] && forall i | 0 <= i < |s.agents| ::
        !Silent(s.agents[i]) && !Flagged(s.designBypassedAt.Some?, s.agents[i])
  {
    DoneOutcome(s);
    hide Inv, ReviewOutcome, Silent, Flagged;
  }

  lemma SuccessExact(a: Start, es: seq<Event>)
    requires DistinctRoster(a.cfg.roster) && AllLegal(es)
    ensures var s := After(a, es);
      && |s.steps| == 7
      && (CheckRunOf(s).Completed? && CheckRunOf(s).conclusion == Success <==>
            s.steps[2].status == StepDone && s.agents != []
            && forall i | 0 <= i < |s.agents| :: Passes(s.designBypassedAt.Some?, s.agents[i]))
      && (CheckRunOf(s).InProgress? <==> s.status == OnTheHill)
  {
    AlwaysInv(a, es);
    SuccessIff(After(a, es));
  }

  // --- The bypass ---------------------------------------------------------------------------

  function TotalHazards(agents: seq<Agent>): nat {
    if agents == [] then 0 else |agents[0].hazards| + TotalHazards(agents[1..])
  }

  lemma WaivesOne(a: Agent)
    ensures |a.hazards| == |OpenHazards(true, a)| + (if HasWaivable(a) then 1 else 0)
  {
  }

  // No two patrollers are Granite Chief.
  lemma OneGraniteChief(agents: seq<Agent>, i: nat, j: nat)
    requires SoundAgents(agents) && i < |agents| && j < |agents|
    requires HasWaivable(agents[i]) && HasWaivable(agents[j])
    ensures i == j
  {
    assert SoundAgent(agents[i]) && SoundAgent(agents[j]);
    assert agents[i].id == agents[j].id;
  }

  lemma {:induction false} WaivedTotal(agents: seq<Agent>)
    requires forall i, j | 0 <= i < |agents| && 0 <= j < |agents| ::
      HasWaivable(agents[i]) && HasWaivable(agents[j]) ==> i == j
    ensures TotalHazards(agents) == OpenHazardCount(true, agents) + (if HoldsWaived(agents) then 1 else 0)
  {
    if agents != [] {
      WaivesOne(agents[0]);
      var rest := agents[1..];
      forall i, j | 0 <= i < |rest| && 0 <= j < |rest| && HasWaivable(rest[i]) && HasWaivable(rest[j]) ensures i == j {
        assert HasWaivable(agents[i + 1]) && HasWaivable(agents[j + 1]);
      }
      WaivedTotal(rest);
      if HoldsWaived(rest) {
        var i :| 0 <= i < |rest| && HasWaivable(rest[i]);
        assert HasWaivable(agents[i + 1]);
      }
      if HoldsWaived(agents) {
        var i :| 0 <= i < |agents| && HasWaivable(agents[i]);
        if i > 0 {
          assert HasWaivable(rest[i - 1]);
        }
      }
    }
  }

  // Once bypassed, the hazards reported are the open ones and exactly one more.
  lemma BypassWaivesOne(s: RunState)
    requires Inv(s) && s.designBypassedAt.Some?
    ensures TotalHazards(s.agents) == OpenHazardCount(true, s.agents) + 1
  {
    forall i, j | 0 <= i < |s.agents| && 0 <= j < |s.agents| && HasWaivable(s.agents[i]) && HasWaivable(s.agents[j])
      ensures i == j
    {
      OneGraniteChief(s.agents, i, j);
    }
    WaivedTotal(s.agents);
  }

  // The patroller that holds the waived hazard.
  ghost predicate HoldsIt(agents: seq<Agent>, k: nat) {
    && k < |agents|
    && agents[k].role == GraniteChief && agents[k].status == AgentHazards && HasWaivable(agents[k])
  }

  lemma HolderExists(s: RunState)
    requires Inv(s) && s.designBypassedAt.Some?
    ensures exists k: nat :: HoldsIt(s.agents, k)
  {
    var k :| 0 <= k < |s.agents| && HasWaivable(s.agents[k]);
    assert SoundAgent(s.agents[k]);
    assert HoldsIt(s.agents, k);
  }

  lemma BypassStays(s: RunState, e: Event)
    requires s.designBypassedAt.Some?
    ensures Apply(s, e).state.designBypassedAt == s.designBypassedAt
  {
    if BooksUntouchedBy(e) {
      hide Apply;
      BooksKept(s, e);
    } else {
      hide ConditionsReport, RetryableAgents, Minted, Retried, JobCancels, WithStep, StepIs;
    }
  }

  // A bypass is for good: ever after, one hazard more is reported than is open, the same Granite
  // Chief holds the waived one among the same hazards, and the bypass keeps its time.
  lemma {:induction false} BypassForGood(a: Start, es: seq<Event>, fs: seq<Event>)
    requires DistinctRoster(a.cfg.roster) && AllLegal(es) && AllLegal(fs)
    requires After(a, es).designBypassedAt.Some?
    ensures var s, t := After(a, es), After(a, es + fs);
      && t.designBypassedAt == s.designBypassedAt
      && TotalHazards(t.agents) == OpenHazardCount(true, t.agents) + 1
      && SameHolder(s.agents, t.agents)
  {
    hide HoldsIt, SameHolder, AllKept, Inv, AllLegal, DistinctRoster, After;
    BypassedAfter(a, es, fs);
    ReportsPermanent(a, es, fs);
    AlwaysInv(a, es);
    AlwaysInv(a, es + fs);
    var s, t := After(a, es), After(a, es + fs);
    BypassWaivesOne(t);
    HolderExists(s);
    HolderKept(s.agents, t.agents);
  }

  // One patroller holds the waived hazard in both, among the same hazards.
  ghost predicate SameHolder(agents: seq<Agent>, others: seq<Agent>) {
    exists k: nat :: HoldsIt(agents, k) && HoldsIt(others, k) && others[k].hazards == agents[k].hazards
  }

  lemma HolderKept(agents: seq<Agent>, others: seq<Agent>)
    requires AllKept(agents, others)
    requires exists k: nat :: HoldsIt(agents, k)
    ensures SameHolder(agents, others)
  {
    var k: nat :| HoldsIt(agents, k);
    assert Kept(agents[k], others[k]);
    SameHazardsSameWaiver(agents[k], others[k]);
    assert HoldsIt(others, k);
  }

  lemma {:induction false} BypassedAfter(a: Start, es: seq<Event>, fs: seq<Event>)
    requires After(a, es).designBypassedAt.Some?
    ensures After(a, es + fs).designBypassedAt == After(a, es).designBypassedAt
  {
    if |fs| == 0 {
      assert es + fs == es;
    } else {
      BypassedAfter(a, es, fs[..|fs| - 1]);
      assert (es + fs)[..|es + fs| - 1] == es + fs[..|fs| - 1];
      BypassStays(After(a, es + fs[..|fs| - 1]), fs[|fs| - 1]);
      hide BypassDesign;
    }
  }

  // --- The outcome --------------------------------------------------------------------------

  // Stopping or landing a run leaves what its review came to as it was, from every reachable state.
  lemma EndKeepsOutcome(s: RunState, e: Event)
    requires Inv(s) && (e.Stop? || e.Land?)
    ensures ReviewOutcome(Apply(s, e).state) == ReviewOutcome(s)
  {
    var t := Apply(s, e).state;
    StepKeepsInv(s, e);
    if s.status == OnTheHill {
      LandFromHillPending(s, if e.Land? then e.mergeSha else "", e.now);
      PendingIff(s);
      PendingIff(t);
      HaltedSteps(s.steps, e.now);
      EndedSweep(s, e);
    } else {
      EndingQuiet(s, e);
      FacesReflexive(s.agents);
      StepsFound(s);
      StepsFound(t);
      SameOutcome(s, t);
    }
    hide ReviewOutcome, Apply;
  }

  lemma EndedSweep(s: RunState, e: Event)
    requires Inv(s) && s.status == OnTheHill && (e.Stop? || e.Land?)
    ensures |Apply(s, e).state.steps| == 7 && Apply(s, e).state.steps[2].status == StepStopped
  {
    HaltedSteps(s.steps, e.now);
    if e.Land? {
      LandedSteps(Halted(s, "stopped · PR merged", e.now).steps, e.mergeSha, e.now);
    }
    hide LandSteps;
  }

  // Once the review has an outcome, only a retry, which makes it pending, and a bypass, which can
  // turn hazards into a pass, ever change it.
  lemma OutcomeChanges(s: RunState, e: Event)
    requires Inv(s) && Legal(e) && ReviewOutcome(s) != OutcomePending
    ensures var t := Apply(s, e).state;
      || ReviewOutcome(t) == ReviewOutcome(s)
      || (e.Retry? && ReviewOutcome(t) == OutcomePending && t.status == OnTheHill)
      || (e.Bypass? && ReviewOutcome(s) == OutcomeHazards && ReviewOutcome(t) == OutcomeClear)
  {
    hide Inv, ReviewOutcome, IsOpen;
    OffTheHill(s);
    var t := Apply(s, e).state;
    if !Apply(s, e).moved {
      UnmovedSame(s, e);
    } else if e.Stop? || e.Land? {
      EndKeepsOutcome(s, e);
    } else if e.Retry? {
      RetryPends(s, e);
    } else if e.Bypass? {
      BypassOutcome(s, e.now);
    } else if e.AskRepost? {
      FacesReflexive(s.agents);
      QuietCheck(s, t);
    } else if e.Reported? || e.GaveUp? || e.Alarm? {
      OffTheHillUnheard(s, e);
    } else {
      QuietReview(s, e);
      QuietCheck(s, t);
    }
  }

  lemma OffTheHill(s: RunState)
    requires Inv(s) && ReviewOutcome(s) != OutcomePending
    ensures s.status != OnTheHill
  {
    PendingIff(s);
    hide ReviewOutcome;
  }

  lemma OffTheHillUnheard(s: RunState, e: Event)
    requires s.status != OnTheHill && (e.Reported? || e.GaveUp? || e.Alarm?)
    ensures !Apply(s, e).moved
  {
  }

  lemma RetryPends(s: RunState, e: Event)
    requires Inv(s) && e.Retry? && Apply(s, e).moved
    ensures var t := Apply(s, e).state; ReviewOutcome(t) == OutcomePending && t.status == OnTheHill
  {
    var t := Apply(s, e).state;
    StepKeepsInv(s, e);
    PendingIff(t);
    hide ReviewOutcome;
  }

  // A bypass removes one hazard of Granite Chief's from what counts, so it can only turn hazards
  // into a pass.
  lemma BypassOutcome(s: RunState, now: int)
    requires Inv(s) && ReviewOutcome(s) != OutcomePending && CanBypassDesign(s)
    ensures var t := BypassDesign(s, now).state;
      ReviewOutcome(t) == ReviewOutcome(s)
      || (ReviewOutcome(s) == OutcomeHazards && ReviewOutcome(t) == OutcomeClear)
  {
    var t := BypassDesign(s, now).state;
    BypassFacts(s, now);
    BypassKeepsInv(s, now);
    BypassedVerdict(s, t);
  }

  lemma BypassedVerdict(s: RunState, t: RunState)
    requires Inv(s) && Inv(t) && t.agents == s.agents && t.steps[2].status == s.steps[2].status
    requires s.designBypassedAt.None? && t.designBypassedAt.Some?
    requires exists i | 0 <= i < |s.agents| :: HasWaivable(s.agents[i])
    requires ReviewOutcome(s) != OutcomePending
    ensures ReviewOutcome(t) == ReviewOutcome(s)
      || (ReviewOutcome(s) == OutcomeHazards && ReviewOutcome(t) == OutcomeClear)
  {
    StepsFound(s);
    StepsFound(t);
    SweepsAreAll(s.agents);
    var i :| 0 <= i < |s.agents| && HasWaivable(s.agents[i]);
    WaivableFlagged(s.agents[i]);
    hide Flagged, HasWaivable, Silent, SoundSteps, SoundAgents, HoldsWaived, KeyedBy, SweepsOf, StepIs;
  }

  lemma WaivableFlagged(a: Agent)
    requires HasWaivable(a)
    ensures Flagged(false, a)
  {
  }
}
