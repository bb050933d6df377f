// What the check tells of a run: its conclusion from the patrollers' reports, the hazards it lists
// less the one waived, its tally, and the note the sweep is left with.
module Outcomes {
  import opened Domain
  import opened Machine
  import opened Lifecycle
  import opened Views
  import opened Effects
  import opened Review

  // --- The outcome --------------------------------------------------------------------------

  // Never came in with a verdict.
  predicate Unreported(a: Agent) {
    a.status == AgentError || a.status == AgentStopped
  }

  predicate SomeUnreported(agents: seq<Agent>) {
    exists i | 0 <= i < |agents| :: Unreported(agents[i])
  }

  predicate AllPass(bypassed: bool, agents: seq<Agent>) {
    forall i | 0 <= i < |agents| :: Passes(bypassed, agents[i])
  }

  lemma DoneMeansIn(s: RunState)
    requires Inv(s) && s.steps[2].status == StepDone
    ensures forall i | 0 <= i < |s.agents| :: IsTerminal(s.agents[i]) && SoundAgent(s.agents[i])
  {
  }

  lemma PassesMeans(bypassed: bool, agents: seq<Agent>)
    requires forall i | 0 <= i < |agents| :: IsTerminal(agents[i]) && SoundAgent(agents[i])
    ensures AnySilent(agents) <==> SomeUnreported(agents)
    ensures !SomeUnreported(agents) ==> (AnyFlagged(bypassed, agents) <==> !AllPass(bypassed, agents))
    ensures SomeUnreported(agents) ==> !AllPass(bypassed, agents)
  {
    forall i | 0 <= i < |agents|
      ensures Silent(agents[i]) <==> Unreported(agents[i])
      ensures Passes(bypassed, agents[i]) <==> !Silent(agents[i]) && !Flagged(bypassed, agents[i])
    {
      PassesExactly(bypassed, agents[i]);
    }
    hide Silent, Flagged, Passes, Unreported, IsTerminal, SoundAgent;
  }

  // The review fails once its sweep is done if a patroller never reported; else has hazards if one
  // does not pass; else is clear if anybody patrolled.
  lemma OutcomeIff(s: RunState)
    requires Inv(s)
    ensures |s.steps| == 7
    ensures ReviewOutcome(s) == OutcomePending <==> s.steps[2].status != StepDone
    ensures ReviewOutcome(s) == OutcomeFailed <==> s.steps[2].status == StepDone && SomeUnreported(s.agents)
    ensures ReviewOutcome(s) == OutcomeHazards <==>
      s.steps[2].status == StepDone && !SomeUnreported(s.agents) && !AllPass(s.designBypassedAt.Some?, s.agents)
    ensures ReviewOutcome(s) == OutcomeNone <==> s.steps[2].status == StepDone && s.agents == []
    ensures ReviewOutcome(s) == OutcomeClear <==>
      s.steps[2].status == StepDone && s.agents != [] && AllPass(s.designBypassedAt.Some?, s.agents)
  {
    PendingIff(s);
    UnderWay(s);
    hide Inv, ReviewOutcome, AnySilent, AnyFlagged, SomeUnreported, AllPass;
    if s.steps[2].status == StepDone {
      DoneOutcome(s);
      DoneMeansIn(s);
      PassesMeans(s.designBypassedAt.Some?, s.agents);
      NobodyFails(s.designBypassedAt.Some?, s.agents);
    }
  }

  lemma NobodyFails(bypassed: bool, agents: seq<Agent>)
    ensures agents == [] ==> !SomeUnreported(agents) && AllPass(bypassed, agents)
  {
  }

  // The check's conclusion, from the sweep and the reports alone: it is never `skipped`.
  lemma ConclusionIff(s: RunState)
    requires Inv(s)
    ensures |s.steps| == 7
    ensures CheckRunOf(s).InProgress? <==> s.status == OnTheHill
    ensures CheckRunOf(s).Completed? ==>
      var c, done, pass := CheckRunOf(s).conclusion, s.steps[2].status == StepDone,
        AllPass(s.designBypassedAt.Some?, s.agents);
      && (c == Failure <==> done && !pass)
      && (c == Success <==> done && s.agents != [] && pass)
      && (c == Neutral <==> done && s.agents == [])
      && (c == Cancelled <==> !done && (s.status == Stopped || s.status == Landed))
      && c != Skipped
  {
    OutcomeIff(s);
    OnHillMeansActive(s);
    if SomeUnreported(s.agents) {
      UnreportedFails(s.designBypassedAt.Some?, s.agents);
    }
    hide Inv, ReviewOutcome, CheckSummary, FailureTitle, AllPass, SomeUnreported;
  }

  lemma OnHillMeansActive(s: RunState)
    requires Inv(s)
    ensures |s.steps| == 7 && (s.status == OnTheHill ==> s.steps[2].status == StepActive)
    ensures s.steps[2].status != StepDone && s.status != OnTheHill ==> s.status == Stopped || s.status == Landed
    ensures s.agents == [] ==> s.status != OnTheHill
  {
  }

  lemma UnreportedFails(bypassed: bool, agents: seq<Agent>)
    requires SomeUnreported(agents)
    ensures !AllPass(bypassed, agents)
  {
    var i :| 0 <= i < |agents| && Unreported(agents[i]);
    assert !Passes(bypassed, agents[i]);
  }

  // In every reachable state the check is in progress on the hill; once the sweep is done it fails if
  // somebody does not pass, is neutral if nobody patrolled and succeeds otherwise; and it is cancelled
  // where the run ended first.
  lemma ConclusionExact(a: Start, es: seq<Event>)
    requires DistinctRoster(a.cfg.roster) && AllLegal(es)
    ensures var s := After(a, es);
      && |s.steps| == 7
      && var c, done, pass := CheckRunOf(s), s.steps[2].status == StepDone,
           AllPass(s.designBypassedAt.Some?, s.agents);
      && (c.InProgress? <==> s.status == OnTheHill)
      && (c.Completed? ==>
          && (c.conclusion == Failure <==> done && !pass)
          && (c.conclusion == Success <==> done && s.agents != [] && pass)
          && (c.conclusion == Neutral <==> done && s.agents == [])
          && (c.conclusion == Cancelled <==> !done && (s.status == Stopped || s.status == Landed))
          && c.conclusion != Skipped)
  {
    hide *;
    AlwaysInv(a, es);
    ConclusionIff(After(a, es));
  }

  // A check sync writes nothing exactly for a run that ended before its sweep was done and whose check
  // GitHub has not created.
  lemma WantsCheckIff(s: RunState)
    requires Inv(s)
    ensures |s.steps| == 7
    ensures !WantsCheck(s) <==>
      s.checkRunId.None? && (s.status == Stopped || s.status == Landed) && s.steps[2].status != StepDone
  {
    OutcomeIff(s);
    hide Inv, ReviewOutcome;
  }

  // --- The hazards --------------------------------------------------------------------------

  // Granite Chief's finding that a design is missing.
  predicate MissingDesign(a: Agent, h: Hazard) {
    a.role == GraniteChief && h.title == NO_DESIGN_TITLE
  }

  // `k` is the place of the agent's first such finding.
  ghost predicate FirstMissing(a: Agent, k: nat) {
    && k < |a.hazards| && MissingDesign(a, a.hazards[k])
    && forall j | 0 <= j < k :: !MissingDesign(a, a.hazards[j])
  }

  ghost predicate NoneMissing(a: Agent) {
    forall j | 0 <= j < |a.hazards| :: !MissingDesign(a, a.hazards[j])
  }

  // Every hazard counts, but that a bypass takes away Granite Chief's first missing design and nothing
  // else.
  lemma OpenExactly(bypassed: bool, a: Agent) returns (k: nat)
    ensures !bypassed || NoneMissing(a) ==> OpenHazards(bypassed, a) == a.hazards
    ensures bypassed && !NoneMissing(a) ==>
      FirstMissing(a, k) && OpenHazards(bypassed, a) == a.hazards[..k] + a.hazards[k + 1..]
  {
    k := FirstWaivable(a, a.hazards);
  }

  datatype Finding = Finding(agent: Agent, hazard: Hazard)

  // Every hazard reported, patroller by patroller.
  function Findings(agents: seq<Agent>): seq<Finding> {
    if agents == [] then []
    else Map(agents[0].hazards, (h: Hazard) => Finding(agents[0], h)) + Findings(agents[1..])
  }

  function Lines(names: map<string, string>, findings: seq<Finding>): seq<(Hazard, string)> {
    Map(findings, (f: Finding) => (f.hazard, NameOf(names, f.agent)))
  }

  lemma LinesAppend(names: map<string, string>, x: seq<Finding>, y: seq<Finding>)
    ensures Lines(names, x + y) == Lines(names, x) + Lines(names, y)
  {
  }

  ghost predicate NoneOfFindings(findings: seq<Finding>) {
    forall j | 0 <= j < |findings| :: !MissingDesign(findings[j].agent, findings[j].hazard)
  }

  // `p` is the place of the first missing design among them.
  ghost predicate WaivedAt(findings: seq<Finding>, p: nat) {
    && p < |findings| && MissingDesign(findings[p].agent, findings[p].hazard)
    && NoneOfFindings(findings[..p])
  }

  function Own(a: Agent): (r: seq<Finding>)
    ensures |r| == |a.hazards| && forall j | 0 <= j < |r| :: r[j] == Finding(a, a.hazards[j])
  {
    Map(a.hazards, (h: Hazard) => Finding(a, h))
  }

  lemma FindingsSplit(agents: seq<Agent>)
    requires agents != []
    ensures Findings(agents) == Own(agents[0]) + Findings(agents[1..])
  {
  }

  lemma LinesSplit(names: map<string, string>, bypassed: bool, agents: seq<Agent>)
    requires agents != []
    ensures HazardLines(names, bypassed, agents)
      == Map(OpenHazards(bypassed, agents[0]), (h: Hazard) => (h, NameOf(names, agents[0])))
         + HazardLines(names, bypassed, agents[1..])
  {
  }

  // Where nobody has a missing design, or nothing is bypassed, every finding is listed.
  lemma {:induction false} AllListed(names: map<string, string>, bypassed: bool, agents: seq<Agent>)
    requires !bypassed || forall i | 0 <= i < |agents| :: NoneMissing(agents[i])
    ensures HazardLines(names, bypassed, agents) == Lines(names, Findings(agents))
    ensures bypassed ==> NoneOfFindings(Findings(agents))
  {
    if agents != [] {
      FindingsSplit(agents);
      LinesSplit(names, bypassed, agents);
      var k := OpenExactly(bypassed, agents[0]);
      AllListed(names, bypassed, agents[1..]);
      LinesAppend(names, Own(agents[0]), Findings(agents[1..]));
      hide OpenHazards, HazardLines, Findings;
    }
  }

  lemma OwnLines(names: map<string, string>, a: Agent, hazards: seq<Hazard>, findings: seq<Finding>)
    requires |hazards| == |findings| && forall j | 0 <= j < |hazards| :: findings[j] == Finding(a, hazards[j])
    ensures Map(hazards, (h: Hazard) => (h, NameOf(names, a))) == Lines(names, findings)
  {
  }

  function Without<T>(xs: seq<T>, p: nat): seq<T>
    requires p < |xs|
  {
    xs[..p] + xs[p + 1..]
  }

  lemma WithoutAppend<T>(xs: seq<T>, ys: seq<T>, p: nat)
    ensures p < |xs| ==> Without(xs + ys, p) == Without(xs, p) + ys && (xs + ys)[..p] == xs[..p]
    ensures p < |ys| ==> Without(xs + ys, |xs| + p) == xs + Without(ys, p) && (xs + ys)[..|xs| + p] == xs + ys[..p]
  {
  }

  lemma FirstMissingWaived(a: Agent, k: nat, rest: seq<Finding>)
    requires FirstMissing(a, k)
    ensures WaivedAt(Own(a) + rest, k)
  {
  }

  lemma WaivedBeyond(a: Agent, rest: seq<Finding>, p: nat)
    requires NoneMissing(a) && WaivedAt(rest, p)
    ensures WaivedAt(Own(a) + rest, |Own(a)| + p)
  {
    var own := Own(a);
    WithoutAppend(own, rest, p);
    forall j | 0 <= j < |own| + p ensures !MissingDesign((own + rest)[j].agent, (own + rest)[j].hazard) {
      assert j >= |own| ==> (own + rest)[j] == rest[..p][j - |own|];
    }
  }

  lemma FirstLess(names: map<string, string>, agents: seq<Agent>, k: nat)
    requires agents != [] && FirstMissing(agents[0], k)
    requires OpenHazards(true, agents[0]) == agents[0].hazards[..k] + agents[0].hazards[k + 1..]
    requires forall j | 0 < j < |agents| :: NoneMissing(agents[j])
    ensures WaivedAt(Findings(agents), k)
    ensures HazardLines(names, true, agents) == Lines(names, Without(Findings(agents), k))
  {
    var own, rest := Own(agents[0]), Findings(agents[1..]);
    FindingsSplit(agents);
    LinesSplit(names, true, agents);
    AllListed(names, true, agents[1..]);
    FirstMissingWaived(agents[0], k, rest);
    OwnLines(names, agents[0], OpenHazards(true, agents[0]), Without(own, k));
    hide OpenHazards, HazardLines, Findings, FirstMissing, NoneMissing, WaivedAt, Lines, Own, Without;
    WithoutAppend(own, rest, k);
    LinesAppend(names, Without(own, k), rest);
  }

  // Where exactly one patroller has, every finding but its first missing design is.
  lemma {:induction false} AllButOne(names: map<string, string>, agents: seq<Agent>, i: nat) returns (p: nat)
    requires i < |agents| && !NoneMissing(agents[i])
    requires forall j | 0 <= j < |agents| && j != i :: NoneMissing(agents[j])
    ensures WaivedAt(Findings(agents), p) && p < |Findings(agents)|
    ensures HazardLines(names, true, agents) == Lines(names, Without(Findings(agents), p))
  {
    hide *;
    var k := OpenExactly(true, agents[0]);
    if i == 0 {
      p := k;
      FirstLess(names, agents, k);
    } else {
      var q := AllButOne(names, agents[1..], i - 1);
      p := |Own(agents[0])| + q;
      LaterLess(names, agents, q);
    }
    WaivedIn(Findings(agents), p);
  }

  lemma WaivedIn(findings: seq<Finding>, p: nat)
    requires WaivedAt(findings, p)
    ensures p < |findings|
  {
  }

  lemma LaterLess(names: map<string, string>, agents: seq<Agent>, q: nat)
    requires agents != [] && NoneMissing(agents[0]) && OpenHazards(true, agents[0]) == agents[0].hazards
    requires WaivedAt(Findings(agents[1..]), q)
    requires HazardLines(names, true, agents[1..]) == Lines(names, Without(Findings(agents[1..]), q))
    ensures var p := |Own(agents[0])| + q;
      WaivedAt(Findings(agents), p) && HazardLines(names, true, agents) == Lines(names, Without(Findings(agents), p))
  {
    hide *;
    var own, rest := Own(agents[0]), Findings(agents[1..]);
    FindingsSplit(agents);
    LinesSplit(names, true, agents);
    WaivedBeyond(agents[0], rest, q);
    WaivedIn(rest, q);
    OwnLines(names, agents[0], agents[0].hazards, own);
    WithoutAppend(own, rest, q);
    LinesAppend(names, own, Without(rest, q));
  }

  // The check lists every hazard reported, in order, under its patroller's name; in a bypassed run, less
  // Granite Chief's first missing design.
  lemma LinesExactly(s: RunState) returns (p: nat)
    requires Inv(s)
    ensures var lines, all, names := CheckRunOf(s).summary.hazards, Findings(s.agents), s.origin.agentNames;
      && (s.designBypassedAt.None? ==> lines == Lines(names, all))
      && (s.designBypassedAt.Some? ==> p < |all| && WaivedAt(all, p) && lines == Lines(names, Without(all, p)))
  {
    var names := s.origin.agentNames;
    hide *;
    CheckLines(s);
    p := 0;
    if s.designBypassedAt.None? {
      AllListed(names, false, s.agents);
    } else {
      var i := OnlyHolder(s);
      p := AllButOne(names, s.agents, i);
    }
  }

  lemma CheckLines(s: RunState)
    ensures CheckRunOf(s).summary.hazards == HazardLines(s.origin.agentNames, s.designBypassedAt.Some?, s.agents)
  {
    hide ReviewOutcome, FailureTitle, ConditionsReport, HazardLines;
  }

  lemma OnlyHolder(s: RunState) returns (i: nat)
    requires Inv(s) && s.designBypassedAt.Some?
    ensures i < |s.agents| && !NoneMissing(s.agents[i])
    ensures forall j | 0 <= j < |s.agents| && j != i :: NoneMissing(s.agents[j])
  {
    var k :| 0 <= k < |s.agents| && HasWaivable(s.agents[k]);
    i := k;
    forall j | 0 <= j < |s.agents| ensures NoneMissing(s.agents[j]) <==> !HasWaivable(s.agents[j]) {
      MissingIsWaivable(s.agents[j]);
    }
    forall j | 0 <= j < |s.agents| && HasWaivable(s.agents[j]) ensures j == i {
      OneGraniteChief(s.agents, i, j);
    }
  }

  lemma MissingIsWaivable(a: Agent)
    ensures NoneMissing(a) <==> !HasWaivable(a)
  {
    if !NoneMissing(a) {
      var j :| 0 <= j < |a.hazards| && MissingDesign(a, a.hazards[j]);
      assert Waivable(a, a.hazards[j]);
    }
  }

  // In every reachable state.
  lemma LinesAlways(a: Start, es: seq<Event>) returns (p: nat)
    requires DistinctRoster(a.cfg.roster) && AllLegal(es)
    ensures var s := After(a, es);
      var lines, all, names := CheckRunOf(s).summary.hazards, Findings(s.agents), s.origin.agentNames;
      && (s.designBypassedAt.None? ==> lines == Lines(names, all))
      && (s.designBypassedAt.Some? ==> p < |all| && WaivedAt(all, p) && lines == Lines(names, Without(all, p)))
  {
    hide *;
    AlwaysInv(a, es);
    p := LinesExactly(After(a, es));
  }

  // --- The report and the title -------------------------------------------------------------

  lemma {:induction false} CountsAre(bypassed: bool, agents: seq<Agent>)
    ensures CountReported(agents)
      == |Filter(agents, (a: Agent) => a.status == AgentClear || a.status == AgentHazards || a.status == AgentError)|
    ensures CountErrors(agents) == |Filter(agents, (a: Agent) => a.status == AgentError)|
    ensures forall names :: OpenHazardCount(bypassed, agents) == |HazardLines(names, bypassed, agents)|
  {
    if agents != [] {
      CountsAre(bypassed, agents[1..]);
      hide OpenHazards;
    }
  }

  predicate Says(a: Agent) {
    a.summary.Or("") != ""
  }

  function Said(names: map<string, string>, a: Agent): (string, string) {
    (NameOf(names, a), a.summary.Or(""))
  }

  lemma {:induction false} SummariesAre(names: map<string, string>, agents: seq<Agent>)
    ensures Summaries(names, agents) == Map(Filter(agents, a => Says(a)), (a: Agent) => Said(names, a))
  {
    if agents != [] {
      var rest := agents[1..];
      SummariesAre(names, rest);
      assert Summaries(names, agents)
          == (if Says(agents[0]) then [Said(names, agents[0])] else []) + Summaries(names, rest);
      hide Says, Said, Summaries;
      MapAppend(if Says(agents[0]) then [agents[0]] else [], Filter(rest, a => Says(a)), (a: Agent) => Said(names, a));
    }
  }

  lemma MapAppend<A, B>(xs: seq<A>, ys: seq<A>, f: A -> B)
    ensures Map(xs + ys, f) == Map(xs, f) + Map(ys, f)
  {
  }

  // What the report counts: the patrollers, those in with a verdict or a failure, those failed, the
  // hazards listed; and each patroller's summary, in order.
  lemma ReportExactly(s: RunState)
    requires Inv(s)
    ensures var c, agents := CheckRunOf(s).summary.conditions, s.agents;
      && c.outcome == (if ReviewOutcome(s) == OutcomePending then None else Some(ReviewOutcome(s)))
      && c.patrollers == |agents| && c.bypassed == s.designBypassedAt.Some?
      && c.reported == |Filter(agents, (a: Agent) =>
           a.status == AgentClear || a.status == AgentHazards || a.status == AgentError)|
      && c.failed == |Filter(agents, (a: Agent) => a.status == AgentError)|
      && c.hazards == |CheckRunOf(s).summary.hazards|
      && c.summaries == Map(Filter(agents, a => Says(a)), (a: Agent) => Said(s.origin.agentNames, a))
  {
    AllSwept(s);
    hide *;
    CountsAre(s.designBypassedAt.Some?, s.agents);
    SummariesAre(s.origin.agentNames, s.agents);
    CheckLines(s);
    CheckConditions(s);
    ConditionsAre(s);
  }

  lemma AllSwept(s: RunState)
    requires Inv(s)
    ensures SweepsOf(s.agents) == s.agents
  {
    SweepsAreAll(s.agents);
  }

  lemma CheckConditions(s: RunState)
    ensures CheckRunOf(s).summary.conditions == ConditionsReport(s)
  {
    hide ReviewOutcome, FailureTitle, ConditionsReport, HazardLines;
  }

  lemma ConditionsAre(s: RunState)
    requires SweepsOf(s.agents) == s.agents
    ensures var c, bypassed := ConditionsReport(s), s.designBypassedAt.Some?;
      && c.outcome == (if ReviewOutcome(s) == OutcomePending then None else Some(ReviewOutcome(s)))
      && c.patrollers == |s.agents| && c.bypassed == bypassed
      && c.reported == CountReported(s.agents) && c.failed == CountErrors(s.agents)
      && c.hazards == OpenHazardCount(bypassed, s.agents)
      && c.summaries == Summaries(s.origin.agentNames, s.agents)
  {
    hide ReviewOutcome, CountReported, CountErrors, OpenHazardCount, Summaries, SweepsOf;
  }

  // `k` is the place of the first patroller that never reported.
  ghost predicate FirstUnreported(agents: seq<Agent>, k: nat) {
    k < |agents| && Unreported(agents[k]) && forall j | 0 <= j < k :: !Unreported(agents[j])
  }

  // A check that fails says how many hazards it lists, and names the first patroller that never
  // reported, if there is one, with what it left.
  lemma FailureSays(s: RunState)
    requires Inv(s) && CheckRunOf(s).Completed? && CheckRunOf(s).conclusion == Failure
    ensures var title := CheckRunOf(s).title;
      && title.Failing? && title.hazards == |CheckRunOf(s).summary.hazards|
      && (title.why.NoWhy? <==> !SomeUnreported(s.agents))
      && (title.why.WhyAgent? <==> SomeUnreported(s.agents))
      && forall k: nat | FirstUnreported(s.agents, k) :: title.why == WhyOf(s.origin.agentNames, s.agents[k])
  {
    hide *;
    FailingTitle(s);
    CountsAre(s.designBypassedAt.Some?, s.agents);
    CheckLines(s);
    FailureTitleIs(s);
    FirstOfThem(s.agents);
  }

  // What the title says of a patroller that never reported.
  function WhyOf(names: map<string, string>, a: Agent): (why: Why)
    ensures why.WhyAgent?
  {
    WhyAgent(NameOf(names, a), a.summary.Or(if a.status == AgentError then "error" else "stopped"))
  }

  lemma FailingTitle(s: RunState)
    requires CheckRunOf(s).Completed? && CheckRunOf(s).conclusion == Failure
    ensures CheckRunOf(s).title == FailureTitle(s)
  {
    hide ReviewOutcome, CheckSummary, FailureTitle;
  }

  lemma FirstOfThem(agents: seq<Agent>)
    ensures SomeUnreported(agents) <==> FirstSilent(agents) < |agents|
    ensures forall k: nat :: FirstUnreported(agents, k) <==> k < |agents| && k == FirstSilent(agents)
  {
    var f := FirstSilent(agents);
    assert f < |agents| ==> Unreported(agents[f]);
    forall j | 0 <= j < |agents| ensures Unreported(agents[j]) <==> Silent(agents[j]) {
    }
    hide FirstSilent, Silent, Unreported;
  }

  lemma FailureTitleIs(s: RunState)
    requires Inv(s)
    ensures var t, f := FailureTitle(s), FirstSilent(s.agents);
      && t.Failing? && t.hazards == OpenHazardCount(s.designBypassedAt.Some?, s.agents)
      && t.why == if f < |s.agents| then WhyOf(s.origin.agentNames, s.agents[f]) else NoWhy
  {
    AllSwept(s);
    assert s.status != Failed;
    hide Inv, SweepsOf, OpenHazardCount, FirstSilent, NameOf;
  }

  // What any other check is headed: the run's name while it sweeps, and a pass the bypass made says so.
  lemma OthersSay(s: RunState)
    ensures var c := CheckRunOf(s);
      && (c.InProgress? ==> c.title == Sweeping(s.card.runName))
      && (c.Completed? && c.conclusion == Success ==> c.title == AllClear(s.designBypassedAt.Some?))
      && (c.Completed? && c.conclusion == Neutral ==> c.title == NoPatrollers)
      && (c.Completed? && c.conclusion == Cancelled ==>
          c.title == if s.status == Landed then MergedEarly else StoppedEarly)
      && c.summary.runId == s.card.id && c.summary.runName == s.card.runName
  {
    hide ReviewOutcome, FailureTitle, ConditionsReport, HazardLines;
  }

  // --- The sweep's note ---------------------------------------------------------------------

  // A done sweep's note is the report of the run as it is now.
  ghost predicate NoteTrue(s: RunState) {
    |s.steps| == 7
    && (s.steps[2].status == StepDone ==> s.steps[2].notes == [ConditionsNote(ConditionsReport(s))])
  }

  lemma NoteCarried(s: RunState, t: RunState)
    requires NoteTrue(s) && SameReview(s, t)
    requires |t.steps| == 7 && (t.steps[2].status == StepDone ==> t.steps[2] == s.steps[2])
    ensures NoteTrue(t)
  {
    hide SameReview, ConditionsReport;
    SameConditions(s, t);
  }

  // `t` is `s` but for the notes of its steps.
  ghost predicate NotesApart(s: RunState, t: RunState) {
    && t == s.(steps := t.steps) && |t.steps| == |s.steps|
    && forall i | 0 <= i < |s.steps| :: t.steps[i] == s.steps[i].(notes := t.steps[i].notes)
  }

  lemma {:induction false} StepAtNotes(steps: seq<Step>, others: seq<Step>, id: StepId, status: StepStatus)
    requires |others| == |steps|
    requires forall i | 0 <= i < |steps| :: others[i] == steps[i].(notes := others[i].notes)
    ensures StepAtIs(steps, id, status) <==> StepAtIs(others, id, status)
  {
    if steps != [] {
      StepAtNotes(steps[1..], others[1..], id, status);
    }
  }

  // The report reads no note.
  lemma ReportReadsNoNote(s: RunState, t: RunState)
    requires NotesApart(s, t)
    ensures ConditionsReport(t) == ConditionsReport(s)
  {
    StepAtNotes(s.steps, t.steps, Sweep, StepDone);
    hide StepAtIs, CountReported, CountErrors, OpenHazardCount, Summaries, SweepsOf, Flagged, Silent;
  }

  lemma SweptNote(s: RunState, now: int)
    requires |s.steps| == 7 && (forall i | 0 <= i < 7 :: Place(s.steps[i].id) == i)
    requires SweptState(s, now).Some?
    ensures NoteTrue(SweptState(s, now).value)
  {
    var t := SweptState(s, now).value;
    assert Place(s.steps[2].id) == 2;
    var swept := PatchStep(s, Sweep, (step: Step) => step.(status := StepDone, finishedAt := Some(now)))
                 .(status := Swept, updatedAt := now);
    hide ConditionsReport, AllIn;
    assert NotesApart(swept, t);
    assert t.steps[2].notes == [ConditionsNote(ConditionsReport(swept))];
    ReportReadsNoNote(swept, t);
  }

  lemma ClosedNote(s: RunState, now: int, earned: seq<Effect>)
    requires |s.steps| == 7 && (forall i | 0 <= i < 7 :: Place(s.steps[i].id) == i)
    requires s.steps[2].status == StepActive
    ensures NoteTrue(CloseSweepIfDone(s, now, earned).state)
  {
    if SweptState(s, now).Some? {
      SweptNote(s, now);
    }
    hide SweptState, SweepsOf, OpenHazardCount, CountErrors;
  }

  lemma UnderWay(s: RunState)
    requires Inv(s)
    ensures |s.steps| == 7 && (forall i | 0 <= i < 7 :: Place(s.steps[i].id) == i)
    ensures s.status == OnTheHill <==> s.steps[2].status == StepActive
  {
    forall i | 0 <= i < 7 ensures Place(s.steps[i].id) == i {
      assert SoundStep(i, s.steps[i], s.status == Landed);
    }
  }

  lemma VerdictNote(s: RunState, id: string, v: Verdict, now: int)
    requires Inv(s) && NoteTrue(s)
    ensures NoteTrue(OnVerdict(s, id, v, now).state)
  {
    UnderWay(s);
    var reported := PatchAgent(s, id, (a: Agent) => a.(
        status := v.status, summary := Some(v.summary), hazards := v.hazards, finishedAt := Some(now)), now);
    assert reported.steps == s.steps;
    hide Inv, NoteTrue, CloseSweepIfDone;
    if LiveAgent(s, id).Some? {
      ClosedNote(reported, now, []);
    }
  }

  lemma FailureNote(s: RunState, id: string, reason: string, now: int, url: string)
    requires Inv(s) && NoteTrue(s)
    ensures NoteTrue(OnFailure(s, id, reason, now, url).state)
  {
    UnderWay(s);
    var failure := FailedState(s, id, reason, now);
    var linked := PatchAgent(failure, id, (a: Agent) => a.(jobUrl := url), now);
    var earned := [Log(AgentFailed(id, reason))];
    assert failure.steps == s.steps && linked.steps == s.steps;
    hide Inv, NoteTrue, CloseSweepIfDone, FailedState;
    if LiveAgent(s, id).Some? {
      ClosedNote(failure, now, earned);
      ClosedNote(linked, now, earned);
    }
  }

  lemma TickNote(s: RunState, now: int)
    requires Inv(s) && NoteTrue(s)
    ensures NoteTrue(OnTick(s, now).state)
  {
    UnderWay(s);
    if s.status == OnTheHill {
      var t := TickFirst(s, |s.agents|, now);
      assert t.next.steps == s.steps by {
        TickFirstMeaning(s, |s.agents|, now);
      }
      hide Inv, TickFirst, CloseSweepIfDone, ConditionsReport;
      ClosedNote(t.next, now, t.logs);
    }
  }

  lemma EndNote(s: RunState, e: Event)
    requires Inv(s) && NoteTrue(s) && (e.Stop? || e.Land?)
    ensures NoteTrue(Apply(s, e).state)
  {
    var t := Apply(s, e).state;
    hide Inv, NoteTrue, Apply;
    if s.status == OnTheHill {
      EndedSweep(s, e);
      NotDoneNote(t);
    } else {
      EndingReview(s, e);
      EndingQuiet(s, e);
      NoteCarried(s, t);
    }
  }

  lemma NotDoneNote(s: RunState)
    requires |s.steps| == 7 && s.steps[2].status != StepDone
    ensures NoteTrue(s)
  {
  }

  lemma RetryNote(s: RunState, e: Event)
    requires Inv(s) && NoteTrue(s) && e.Retry? && Apply(s, e).moved
    ensures NoteTrue(Apply(s, e).state)
  {
    var t := Apply(s, e).state;
    assert t.status == OnTheHill;
    hide Inv, Apply, NoteTrue;
    StepKeepsInv(s, e);
    UnderWay(t);
    NotDoneNote(t);
  }

  lemma BypassNote(s: RunState, now: int)
    requires Inv(s) && CanBypassDesign(s)
    ensures NoteTrue(BypassDesign(s, now).state)
  {
    UnderWay(s);
    StepsFound(s);
    var bypassed := s.(
        designBypassedAt := Some(now), checkReposts := Some(s.checkReposts.Or(0) + 1), updatedAt := now);
    var t := BypassDesign(s, now).state;
    BypassFacts(s, now);
    hide Inv, ConditionsReport, CanBypassDesign;
    assert s.steps[2].id == Sweep by {
      assert Place(s.steps[2].id) == 2;
    }
    if s.steps[2].status == StepDone {
      assert NotesApart(bypassed, t);
      ReportReadsNoNote(bypassed, t);
    }
  }

  lemma QuietNote(s: RunState, t: RunState)
    requires Inv(s) && NoteTrue(s) && Quiet(s, t)
    ensures NoteTrue(t)
  {
    UnderWay(s);
    SameStepsSameReview(s, t);
    hide Inv, ConditionsReport;
    NoteCarried(s, t);
  }

  lemma NoteThrough(s: RunState, e: Event)
    requires Inv(s) && Legal(e) && NoteTrue(s)
    ensures NoteTrue(Apply(s, e).state)
  {
    var t := Apply(s, e).state;
    hide Inv, NoteTrue, Quiet;
    if !Apply(s, e).moved {
      UnmovedSame(s, e);
    } else {
      match e
      case Reported(id, v, now) => VerdictNote(s, id, v, now);
      case GaveUp(id, reason, now, url) => FailureNote(s, id, reason, now, url);
      case Alarm(now) => TickNote(s, now);
      case Stop(_, _) => EndNote(s, e);
      case Land(_, _) => EndNote(s, e);
      case Retry(_, _, _) => RetryNote(s, e);
      case Bypass(now) => BypassNote(s, now);
      case AskRepost =>
        AskedQuiet(s);
        QuietNote(s, t);
      case _ =>
        QuietReview(s, e);
        QuietNote(s, t);
    }
  }

  lemma AskedQuiet(s: RunState)
    ensures Quiet(s, AskCheckRepost(s).state)
  {
    FacesReflexive(s.agents);
  }

  lemma FreshNote(a: Start)
    requires DistinctRoster(a.cfg.roster)
    ensures NoteTrue(CreateRun(a).state)
  {
    var s := FreshRun(a);
    FreshStepsSound(s.card.goal, a);
    assert forall i | 0 <= i < 7 :: SoundStep(i, s.steps[i], false);
    hide SweptState, NoteTrue;
    if SweptState(s, a.now).Some? {
      SweptNote(s, a.now);
    } else {
      NotDoneNote(s);
    }
  }

  // In every reachable state the note of a done sweep is the report of the run as it then is, bypassed,
  // stopped or landed since or not.
  lemma {:induction false} NoteAlways(a: Start, es: seq<Event>)
    requires DistinctRoster(a.cfg.roster) && AllLegal(es)
    ensures NoteTrue(After(a, es))
  {
    hide Inv, NoteTrue, Apply;
    if |es| == 0 {
      FreshNote(a);
    } else {
      var init := es[..|es| - 1];
      NoteAlways(a, init);
      AlwaysInv(a, init);
      NoteThrough(After(a, init), es[|es| - 1]);
    }
  }
}
