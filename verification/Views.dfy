// What the check run, the outcome and the index read of a run. Two runs whose patrollers show the
// same faces look the same to all of them.
module Views {
  import opened Domain
  import opened Machine
  import opened Lifecycle

  // All that a view other than the dashboard's tells of an agent: of one still out, only that it is.
  ghost predicate SameFace(a: Agent, b: Agent) {
    && a.id == b.id && a.role == b.role && a.step == b.step
    && a.hazards == b.hazards && a.summary == b.summary && a.retries == b.retries
    && (a.status == b.status || (!IsTerminal(a) && !IsTerminal(b)))
  }

  ghost predicate SameFaces(agents: seq<Agent>, others: seq<Agent>) {
    |agents| == |others| && forall i | 0 <= i < |agents| :: SameFace(agents[i], others[i])
  }

  lemma FirstWaivableFace(a: Agent, b: Agent, hazards: seq<Hazard>)
    requires a.role == b.role
    ensures FirstWaivable(a, hazards) == FirstWaivable(b, hazards)
  {
  }

  lemma OpenHazardsFace(bypassed: bool, a: Agent, b: Agent)
    requires SameFace(a, b)
    ensures OpenHazards(bypassed, a) == OpenHazards(bypassed, b)
    ensures Flagged(bypassed, a) == Flagged(bypassed, b)
    ensures Silent(a) == Silent(b)
    ensures Machine.Reported(a) == Machine.Reported(b)
  {
    FirstWaivableFace(a, b, a.hazards);
  }

  lemma SweepsFaces(agents: seq<Agent>, others: seq<Agent>)
    requires SameFaces(agents, others)
    ensures SameFaces(SweepsOf(agents), SweepsOf(others))
  {
    if agents != [] {
      assert SameFace(agents[0], others[0]);
      SweepsFaces(agents[1..], others[1..]);
    }
  }

  lemma CountsFaces(bypassed: bool, agents: seq<Agent>, others: seq<Agent>)
    requires SameFaces(agents, others)
    ensures CountReported(agents) == CountReported(others)
    ensures CountErrors(agents) == CountErrors(others)
    ensures OpenHazardCount(bypassed, agents) == OpenHazardCount(bypassed, others)
  {
    if agents != [] {
      assert SameFace(agents[0], others[0]);
      OpenHazardsFace(bypassed, agents[0], others[0]);
      CountsFaces(bypassed, agents[1..], others[1..]);
    }
  }

  lemma SummariesFaces(names: map<string, string>, agents: seq<Agent>, others: seq<Agent>)
    requires SameFaces(agents, others)
    ensures Summaries(names, agents) == Summaries(names, others)
  {
    if agents != [] {
      assert SameFace(agents[0], others[0]);
      SummariesFaces(names, agents[1..], others[1..]);
    }
  }

  lemma HazardLinesFaces(names: map<string, string>, bypassed: bool, agents: seq<Agent>, others: seq<Agent>)
    requires SameFaces(agents, others)
    ensures HazardLines(names, bypassed, agents) == HazardLines(names, bypassed, others)
  {
    if agents != [] {
      assert SameFace(agents[0], others[0]);
      OpenHazardsFace(bypassed, agents[0], others[0]);
      HazardLinesFaces(names, bypassed, agents[1..], others[1..]);
    }
  }

  lemma FirstSilentFaces(agents: seq<Agent>, others: seq<Agent>)
    requires SameFaces(agents, others)
    ensures FirstSilent(agents) == FirstSilent(others)
  {
    if agents != [] {
      assert SameFace(agents[0], others[0]);
      FirstSilentFaces(agents[1..], others[1..]);
    }
  }

  lemma VerdictsFaces(bypassed: bool, agents: seq<Agent>, others: seq<Agent>)
    requires SameFaces(agents, others)
    ensures (exists i | 0 <= i < |agents| :: Silent(agents[i])) <==> (exists i | 0 <= i < |others| :: Silent(others[i]))
    ensures (exists i | 0 <= i < |agents| :: Flagged(bypassed, agents[i]))
      <==> (exists i | 0 <= i < |others| :: Flagged(bypassed, others[i]))
  {
    forall i | 0 <= i < |agents|
      ensures Silent(agents[i]) == Silent(others[i]) && Flagged(bypassed, agents[i]) == Flagged(bypassed, others[i])
    {
      assert SameFace(agents[i], others[i]);
      OpenHazardsFace(bypassed, agents[i], others[i]);
    }
  }

  // The same patrollers' faces, the same names and the same place in the sweep.
  ghost predicate SameReview(s: RunState, t: RunState) {
    && SameFaces(s.agents, t.agents)
    && s.card == t.card && s.origin == t.origin
    && (s.designBypassedAt.Some? <==> t.designBypassedAt.Some?)
    && (StepIs(s, Sweep, StepDone) <==> StepIs(t, Sweep, StepDone))
    && s.status != Failed && t.status != Failed
  }

  lemma SameOutcome(s: RunState, t: RunState)
    requires SameReview(s, t)
    ensures ReviewOutcome(s) == ReviewOutcome(t)
  {
    SweepsFaces(s.agents, t.agents);
    VerdictsFaces(s.designBypassedAt.Some?, SweepsOf(s.agents), SweepsOf(t.agents));
  }

  lemma SameConditions(s: RunState, t: RunState)
    requires SameReview(s, t)
    ensures ConditionsReport(s) == ConditionsReport(t)
  {
    SameOutcome(s, t);
    SweepsFaces(s.agents, t.agents);
    CountsFaces(s.designBypassedAt.Some?, SweepsOf(s.agents), SweepsOf(t.agents));
    SummariesFaces(s.origin.agentNames, SweepsOf(s.agents), SweepsOf(t.agents));
  }

  lemma SameFailureTitle(s: RunState, t: RunState)
    requires SameReview(s, t)
    ensures FailureTitle(s) == FailureTitle(t)
  {
    SweepsFaces(s.agents, t.agents);
    CountsFaces(s.designBypassedAt.Some?, SweepsOf(s.agents), SweepsOf(t.agents));
    FirstSilentFaces(SweepsOf(s.agents), SweepsOf(t.agents));
    var k := FirstSilent(SweepsOf(s.agents));
    if k < |SweepsOf(s.agents)| {
      assert SameFace(SweepsOf(s.agents)[k], SweepsOf(t.agents)[k]);
    }
  }

  // Whether the run has ended, all the check reads of its status while the review is pending.
  ghost predicate SameEnding(s: RunState, t: RunState) {
    (s.status == Stopped <==> t.status == Stopped) && (s.status == Landed <==> t.status == Landed)
  }

  lemma SameCheck(s: RunState, t: RunState)
    requires SameReview(s, t)
    requires ReviewOutcome(s) == OutcomePending ==> SameEnding(s, t)
    ensures CheckRunOf(s) == CheckRunOf(t)
  {
    SameOutcome(s, t);
    SameConditions(s, t);
    SameFailureTitle(s, t);
    HazardLinesFaces(s.origin.agentNames, s.designBypassedAt.Some?, s.agents, t.agents);
    hide ReviewOutcome, ConditionsReport, FailureTitle, HazardLines, SameFaces;
  }
}
