// The run machine (dispatch/src/run/machine.ts): one function per transition, and the views the
// check, the index and the dashboard read.
module Machine {
  import opened Domain

  const STALL_MS := 600_000
  const AGENT_TIMEOUT_MS := 1_800_000
  const JOB_START_MS := 1_800_000

  datatype LogText =
    | RunCreated(runName: string)
    | AgentFailed(id: string, reason: string)
    | AgentStalledFor(id: string, minutes: int)
    | RunStopped(text: string)
    | AgentRetried(id: string, attempt: nat)
    | DesignBypassed
    | RunLanded(sha7: string)
    | SweepsIn(sweeps: nat, hazards: nat, errors: nat)

  datatype Effect =
    | Dispatch(agentId: string)
    | Log(text: LogText)
    | Index
    | Broadcast
    | Check
    | Cancel(agentId: string, githubRunId: string)

  // `moved` is whether the source hands back a new state object: step commits only then.
  datatype Transition = Transition(moved: bool, state: RunState, effects: seq<Effect>)

  function Unchanged(s: RunState): Transition {
    Transition(false, s, [])
  }

  function Moved(s: RunState, effects: seq<Effect>): Transition {
    Transition(true, s, effects)
  }

  // --- Agents and steps ---------------------------------------------------------------------

  function RoleName(role: Role): string {
    match role
    case GraniteChief => "granite-chief"
    case GoldCoast => "gold-coast"
    case SummitSix => "summit-six"
    case Kt22 => "kt-22"
    case Mainline => "mainline"
    case Corduroy => "corduroy"
    case MagicCarpet => "magic-carpet"
    case Bluebird => "bluebird"
    case Groomer => "groomer"
  }

  // machine.ts:593-595, for the only step and round the machine gives an agent.
  function AgentIdFor(role: Role): string {
    RoleName(role) + "-sweep-0"
  }

  predicate IsTerminal(a: Agent) {
    a.status == AgentClear || a.status == AgentHazards || a.status == AgentError || a.status == AgentStopped
  }

  predicate IsOpen(s: RunState) {
    s.status == OnTheHill || s.status == Swept
  }

  // The position of the first agent of that id, or the length when there is none.
  function AgentIndex(agents: seq<Agent>, id: string): (k: nat)
    ensures k <= |agents|
    ensures k < |agents| ==> agents[k].id == id
    ensures forall j | 0 <= j < k :: agents[j].id != id
  {
    if agents == [] || agents[0].id == id then 0
    else 1 + AgentIndex(agents[1..], id)
  }

  // An agent whose report is still awaited: its run is on the hill, and it is not done.
  function LiveAgent(s: RunState, id: string): Option<Agent> {
    var k := AgentIndex(s.agents, id);
    if s.status == OnTheHill && k < |s.agents| && !IsTerminal(s.agents[k]) then Some(s.agents[k]) else None
  }

  function WithAgent(agents: seq<Agent>, id: string, patch: Agent -> Agent): (r: seq<Agent>)
    ensures |r| == |agents|
    ensures forall i | 0 <= i < |agents| :: r[i] == if agents[i].id == id then patch(agents[i]) else agents[i]
  {
    Map(agents, (a: Agent) => if a.id == id then patch(a) else a)
  }

  function PatchAgent(s: RunState, id: string, patch: Agent -> Agent, now: int): RunState {
    s.(agents := WithAgent(s.agents, id, patch), updatedAt := now)
  }

  function StepIndex(steps: seq<Step>, id: StepId): (k: nat)
    ensures k <= |steps|
    ensures k < |steps| ==> steps[k].id == id
    ensures forall j | 0 <= j < k :: steps[j].id != id
  {
    if steps == [] || steps[0].id == id then 0
    else 1 + StepIndex(steps[1..], id)
  }

  predicate StepAtIs(steps: seq<Step>, id: StepId, status: StepStatus) {
    var k := StepIndex(steps, id);
    k < |steps| && steps[k].status == status
  }

  predicate StepIs(s: RunState, id: StepId, status: StepStatus) {
    StepAtIs(s.steps, id, status)
  }

  function WithStep(steps: seq<Step>, id: StepId, patch: Step -> Step): (r: seq<Step>)
    ensures |r| == |steps|
    ensures forall i | 0 <= i < |steps| :: r[i] == if steps[i].id == id then patch(steps[i]) else steps[i]
  {
    Map(steps, (step: Step) => if step.id == id then patch(step) else step)
  }

  function PatchStep(s: RunState, id: StepId, patch: Step -> Step): RunState {
    s.(steps := WithStep(s.steps, id, patch))
  }

  function SkipIfPending(steps: seq<Step>, id: StepId, note: Note): seq<Step> {
    if !StepAtIs(steps, id, StepPending) then steps
    else WithStep(steps, id, (step: Step) => step.(status := StepSkipped, notes := [note]))
  }

  // --- Views --------------------------------------------------------------------------------

  predicate Waivable(a: Agent, h: Hazard) {
    a.role == GraniteChief && h.title == NO_DESIGN_TITLE
  }

  // The position of the agent's first waivable hazard, or the length when it has none.
  function FirstWaivable(a: Agent, hazards: seq<Hazard>): (k: nat)
    ensures k <= |hazards|
    ensures k < |hazards| ==> Waivable(a, hazards[k])
    ensures forall j | 0 <= j < k :: !Waivable(a, hazards[j])
  {
    if hazards == [] || Waivable(a, hazards[0]) then 0
    else 1 + FirstWaivable(a, hazards[1..])
  }

  predicate HasWaivable(a: Agent) {
    exists j | 0 <= j < |a.hazards| :: Waivable(a, a.hazards[j])
  }

  // The hazards that still count: a bypass takes the waived one away (machine.ts:714-718).
  function OpenHazards(bypassed: bool, a: Agent): seq<Hazard> {
    if !bypassed then a.hazards
    else
      var waived := FirstWaivable(a, a.hazards);
      if waived == |a.hazards| then a.hazards
      else a.hazards[..waived] + a.hazards[waived + 1..]
  }

  function SweepsOf(agents: seq<Agent>): seq<Agent> {
    Filter(agents, (a: Agent) => a.step == Sweep)
  }

  function OpenHazardCount(bypassed: bool, agents: seq<Agent>): nat {
    if agents == [] then 0
    else |OpenHazards(bypassed, agents[0])| + OpenHazardCount(bypassed, agents[1..])
  }

  predicate Silent(a: Agent) {
    a.status == AgentError || a.status == AgentStopped
  }

  predicate Flagged(bypassed: bool, a: Agent) {
    OpenHazards(bypassed, a) != [] || (a.status == AgentHazards && a.hazards == [])
  }

  // machine.ts:529-542.
  function ReviewOutcome(s: RunState): Outcome {
    if s.status == Failed then OutcomeFailed
    else if !StepIs(s, Sweep, StepDone) then OutcomePending
    else
      var sweeps := SweepsOf(s.agents);
      if exists i | 0 <= i < |sweeps| :: Silent(sweeps[i]) then OutcomeFailed
      else if exists i | 0 <= i < |sweeps| :: Flagged(s.designBypassedAt.Some?, sweeps[i]) then OutcomeHazards
      else if sweeps == [] then OutcomeNone
      else OutcomeClear
  }

  function NameOf(names: map<string, string>, a: Agent): string {
    if a.id in names then names[a.id] else RoleName(a.role)
  }

  function Summaries(names: map<string, string>, agents: seq<Agent>): seq<(string, string)> {
    if agents == [] then []
    else
      (if agents[0].summary.Or("") == "" then [] else [(NameOf(names, agents[0]), agents[0].summary.value)])
      + Summaries(names, agents[1..])
  }

  predicate Reported(a: Agent) {
    IsTerminal(a) && a.status != AgentStopped
  }

  function CountReported(agents: seq<Agent>): nat {
    if agents == [] then 0 else (if Reported(agents[0]) then 1 else 0) + CountReported(agents[1..])
  }

  function CountErrors(agents: seq<Agent>): nat {
    if agents == [] then 0 else (if agents[0].status == AgentError then 1 else 0) + CountErrors(agents[1..])
  }

  // machine.ts:726-747.
  function ConditionsReport(s: RunState): Conditions {
    var outcome := ReviewOutcome(s);
    var sweeps := SweepsOf(s.agents);
    Conditions(
      if outcome == OutcomePending then None else Some(outcome),
      CountReported(sweeps), |sweeps|,
      OpenHazardCount(s.designBypassedAt.Some?, sweeps),
      CountErrors(sweeps),
      s.designBypassedAt.Some?,
      Summaries(s.origin.agentNames, sweeps))
  }

  // The position of the first patroller that never came in, or the length when there is none.
  function FirstSilent(agents: seq<Agent>): (k: nat)
    ensures k <= |agents|
    ensures k < |agents| ==> Silent(agents[k])
    ensures forall j | 0 <= j < k :: !Silent(agents[j])
  {
    if agents == [] || Silent(agents[0]) then 0 else 1 + FirstSilent(agents[1..])
  }

  datatype Why = WhyAgent(name: string, reason: string) | WhyRun | NoWhy

  datatype Title =
    | Sweeping(runName: string)
    | NoPatrollers
    | AllClear(designBypassed: bool)
    | StoppedEarly
    | MergedEarly
    | Failing(hazards: nat, why: Why)

  // machine.ts:755-766.
  function FailureTitle(s: RunState): Title {
    var sweeps := SweepsOf(s.agents);
    var failed := FirstSilent(sweeps);
    Failing(
      OpenHazardCount(s.designBypassedAt.Some?, sweeps),
      if failed < |sweeps| then WhyAgent(
          NameOf(s.origin.agentNames, sweeps[failed]),
          sweeps[failed].summary.Or(if sweeps[failed].status == AgentError then "error" else "stopped"))
      else if s.status == Failed then WhyRun
      else NoWhy)
  }

  function HazardLines(names: map<string, string>, bypassed: bool, agents: seq<Agent>): seq<(Hazard, string)> {
    if agents == [] then []
    else
      Map(OpenHazards(bypassed, agents[0]), (h: Hazard) => (h, NameOf(names, agents[0])))
      + HazardLines(names, bypassed, agents[1..])
  }

  datatype Summary = Summary(
    conditions: Conditions, hazards: seq<(Hazard, string)>, runId: string, runName: string)

  datatype Conclusion = Success | Failure | Neutral | Cancelled | Skipped

  datatype CheckBody =
    | InProgress(title: Title, summary: Summary)
    | Completed(conclusion: Conclusion, title: Title, summary: Summary)

  function CheckSummary(s: RunState): Summary {
    Summary(
      ConditionsReport(s),
      HazardLines(s.origin.agentNames, s.designBypassedAt.Some?, s.agents),
      s.card.id, s.card.runName)
  }

  // What the check shows of a state (machine.ts:490-526).
  function CheckRunOf(s: RunState): CheckBody {
    var outcome := ReviewOutcome(s);
    var summary := CheckSummary(s);
    if outcome == OutcomePending && (s.status == Stopped || s.status == Landed) then
      Completed(Cancelled, if s.status == Landed then MergedEarly else StoppedEarly, summary)
    else
      match outcome
      case OutcomePending => InProgress(Sweeping(s.card.runName), summary)
      case OutcomeNone => Completed(Neutral, NoPatrollers, summary)
      case OutcomeClear => Completed(Success, AllClear(s.designBypassedAt.Some?), summary)
      case OutcomeHazards => Completed(Failure, FailureTitle(s), summary)
      case OutcomeFailed => Completed(Failure, FailureTitle(s), summary)
  }

  // Whether a check sync writes anything (machine.ts:468-471).
  predicate WantsCheck(s: RunState) {
    || s.checkRunId.Some?
    || !(s.status == Stopped || s.status == Landed)
    || ReviewOutcome(s) != OutcomePending
  }

  datatype Snapshot = Snapshot(
    card: Card, prTitle: string, status: RunStatus, outcome: Outcome, mergeSha: Option<string>,
    designBypassedAt: Option<int>, steps: seq<(Step, Option<Outcome>)>, agents: seq<Agent>,
    createdAt: int, updatedAt: int)

  // machine.ts:551-575.
  function SnapshotOf(s: RunState): Snapshot {
    var outcome := ReviewOutcome(s);
    Snapshot(
      s.card, s.prTitle, s.status, outcome, s.mergeSha, s.designBypassedAt,
      Map(s.steps, (step: Step) => (step, if step.id == Sweep then Some(outcome) else None)),
      s.agents, s.createdAt, s.updatedAt)
  }

  function LastReached(steps: seq<Step>): Option<StepId> {
    if steps == [] then None
    else if steps[|steps| - 1].status != StepPending then Some(steps[|steps| - 1].id)
    else LastReached(steps[..|steps| - 1])
  }

  function FirstActive(steps: seq<Step>): Option<StepId> {
    if steps == [] then None
    else if steps[0].status == StepActive then Some(steps[0].id)
    else FirstActive(steps[1..])
  }

  // runs/index.ts:191-197. A run has steps, so the source's throw is not reached.
  function CurrentStep(steps: seq<Step>): StepId {
    var active := FirstActive(steps);
    var reached := LastReached(steps);
    if active.Some? then active.value
    else if reached.Some? then reached.value
    else if steps != [] then steps[0].id
    else LiftLine
  }

  // A run's row, less `updated_at` (runs/index.ts:31-56). `covers` is a function of the goal.
  datatype IndexRow = IndexRow(
    id: string, repo: string, prNumber: nat, prTitle: string, headSha: string, runName: string,
    rating: Rating, status: RunStatus, outcome: Outcome, currentStep: StepId, createdAt: int,
    designBypassedAt: Option<int>, goal: string)

  function IndexRowOf(s: RunState): IndexRow {
    IndexRow(
      s.card.id, s.card.repo, s.card.prNumber, s.prTitle, s.card.headSha, s.card.runName,
      s.card.rating, s.status, ReviewOutcome(s), CurrentStep(s.steps), s.createdAt,
      s.designBypassedAt, s.card.goal)
  }

  // --- Closing the sweep --------------------------------------------------------------------

  predicate AllIn(agents: seq<Agent>) {
    forall i | 0 <= i < |agents| :: agents[i].step != Sweep || IsTerminal(agents[i])
  }

  function SweptState(s: RunState, now: int): Option<RunState> {
    if !AllIn(s.agents) then None
    else
      var swept := PatchStep(s, Sweep, (step: Step) => step.(status := StepDone, finishedAt := Some(now)))
                   .(status := Swept, updatedAt := now);
      Some(PatchStep(swept, Sweep, (step: Step) => step.(notes := [ConditionsNote(ConditionsReport(swept))])))
  }

  // machine.ts:788-806.
  function CloseSweepIfDone(s: RunState, now: int, earned: seq<Effect>): Transition {
    var swept := SweptState(s, now);
    if swept.None? then Moved(s, earned + [Broadcast, Check])
    else
      var sweeps := SweepsOf(swept.value.agents);
      var text := SweepsIn(
        |sweeps|, OpenHazardCount(swept.value.designBypassedAt.Some?, sweeps), CountErrors(sweeps));
      Moved(swept.value, earned + [Log(text), Index, Broadcast, Check])
  }

  // --- Starting a run -----------------------------------------------------------------------

  datatype Start = Start(
    pr: PullRequest, runId: string, triage: Triage, cfg: Config, now: int, mint: nat -> string)

  // The entries whose role is enabled and whose panels the change touches.
  function Patrollers(roster: seq<RosterEntry>, enabled: seq<Role>, panels: seq<Panel>): seq<RosterEntry> {
    Filter(roster, (e: RosterEntry) => e.id in enabled && exists p | p in e.panels :: p in panels)
  }

  function FreshAgent(role: Role): Agent {
    Agent(AgentIdFor(role), role, Sweep, 0, AgentQueued, None, None, None, None, "", false, None, [], 0, None)
  }

  // `base` with the k-th nonce minted for the k-th id.
  function Minted(base: map<string, string>, ids: seq<string>, mint: nat -> string): map<string, string> {
    if ids == [] then base
    else
      var last := |ids| - 1;
      Minted(base, ids[..last], mint)[ids[last] := mint(last)]
  }

  function RosterName(roster: seq<RosterEntry>, role: Role): string {
    if roster == [] then RoleName(role)
    else if roster[0].id == role then roster[0].name
    else RosterName(roster[1..], role)
  }

  function AgentNames(agents: seq<Agent>, roster: seq<RosterEntry>): map<string, string> {
    if agents == [] then map[]
    else
      var last := |agents| - 1;
      AgentNames(agents[..last], roster)[agents[last].id := RosterName(roster, agents[last].role)]
  }

  function AgentIds(agents: seq<Agent>): (r: seq<string>)
    ensures |r| == |agents|
    ensures forall i | 0 <= i < |agents| :: r[i] == agents[i].id
  {
    Map(agents, (a: Agent) => a.id)
  }

  function FirstLine(text: string): string {
    if text == "" || text[0] == '\n' then "" else [text[0]] + FirstLine(text[1..])
  }

  function FreshAgents(a: Start): seq<Agent> {
    Map(Patrollers(a.cfg.roster, a.cfg.enabledRoles, a.triage.panels), (e: RosterEntry) => FreshAgent(e.id))
  }

  // A step as createRun leaves it: the first two done and the sweep under way.
  function FreshStep(id: StepId, triage: Triage, goal: string, now: int): Step {
    match id
    case LiftLine => Step(id, StepDone, Some(now), Some(now), [])
    case TrailMap =>
      Step(id, StepDone, Some(now), Some(now),
        [PanelNote(triage.panels), RatingNote(triage), GoalNote(FirstLine(goal))])
    case Sweep => Step(id, StepActive, Some(now), None, [])
    case _ => Step(id, StepPending, None, None, [])
  }

  // The run with its sweep under way (machine.ts:82-138). `pr.body` is already trimmed.
  function FreshRun(a: Start): RunState {
    var goal := if a.pr.body == "" then a.pr.title else a.pr.title + "\n\n" + a.pr.body;
    var agents := FreshAgents(a);
    RunState(
      Card(a.runId, a.pr.repo, a.pr.number, a.pr.url, a.pr.branch, a.pr.headSha,
        a.triage.panels, a.triage.rating, a.triage.runName, goal),
      Origin(a.pr.installationId, a.pr.defaultBranch, a.pr.baseSha, AgentNames(agents, a.cfg.roster)),
      a.pr.title, OnTheHill, Map(STEP_ORDER, (id: StepId) => FreshStep(id, a.triage, goal, a.now)), agents,
      None, None, a.now, a.now,
      Minted(map[], AgentIds(agents), a.mint), [], None, None, map[])
  }

  // machine.ts:74-153. A run nobody patrols is created with its sweep closed.
  function CreateRun(a: Start): Transition {
    Moved(SweptState(FreshRun(a), a.now).Or(FreshRun(a)),
      [Log(RunCreated(a.triage.runName)), Index]
      + Map(FreshAgents(a), (agent: Agent) => Dispatch(agent.id))
      + [Broadcast, Check])
  }

  // --- Reports ------------------------------------------------------------------------------

  // machine.ts:155-160.
  function OnDispatched(s: RunState, agentId: string, now: int): Transition {
    var agent := LiveAgent(s, agentId);
    if agent.None? || agent.value.status != AgentQueued then Unchanged(s)
    else Moved(
      PatchAgent(s, agentId, (a: Agent) => a.(status := AgentDispatched, dispatchedAt := Some(now)), now),
      [Broadcast])
  }

  function Linked(known: string, jobUrl: string): string {
    if known == "" then jobUrl else known
  }

  // machine.ts:162-180.
  function OnEvents(s: RunState, agentId: string, count: nat, now: int, jobUrl: string): Transition {
    var agent := LiveAgent(s, agentId);
    if agent.None? || count < 1 then Unchanged(s)
    else Moved(
      PatchAgent(s, agentId, (a: Agent) => a.(
        status := AgentRunning, lastEventAt := Some(now),
        dispatchedAt := Some(agent.value.dispatchedAt.Or(now)),
        jobUrl := Linked(agent.value.jobUrl, jobUrl)), now),
      [Broadcast])
  }

  // machine.ts:184-203.
  function OnBriefed(s: RunState, agentId: string, now: int, githubRunId: string, jobUrl: string): Transition {
    var agent := LiveAgent(s, agentId);
    if agent.None? then Unchanged(s)
    else
      var briefed := agent.value.(
        lastEventAt := None, briefedAt := Some(now),
        status := if agent.value.status == AgentStalled then AgentRunning else agent.value.status,
        jobUrl := Linked(agent.value.jobUrl, jobUrl));
      Moved(
        PatchAgent(s, agentId, (a: Agent) => briefed, now).(jobRuns := s.jobRuns[agentId := githubRunId]),
        [Broadcast])
  }

  // machine.ts:205-214.
  function OnVerdict(s: RunState, agentId: string, v: Verdict, now: int): Transition {
    if LiveAgent(s, agentId).None? then Unchanged(s)
    else
      var reported := PatchAgent(s, agentId, (a: Agent) => a.(
        status := v.status, summary := Some(v.summary), hazards := v.hazards, finishedAt := Some(now)), now);
      CloseSweepIfDone(reported, now, [])
  }

  function FailedState(s: RunState, id: string, reason: string, now: int): RunState {
    PatchAgent(s, id, (a: Agent) => a.(
      status := AgentError, summary := Some(reason), finishedAt := Some(now)), now)
  }

  // machine.ts:217-230.
  function OnFailure(s: RunState, agentId: string, reason: string, now: int, jobUrl: string): Transition {
    var agent := LiveAgent(s, agentId);
    if agent.None? then Unchanged(s)
    else
      var failure := FailedState(s, agentId, reason, now);
      var linked :=
        if agent.value.jobUrl == "" && jobUrl != ""
        then PatchAgent(failure, agentId, (a: Agent) => a.(jobUrl := jobUrl), now)
        else failure;
      CloseSweepIfDone(linked, now, [Log(AgentFailed(agentId, reason))])
  }

  // machine.ts:235-240.
  function OnTranscript(s: RunState, agentId: string): Transition {
    var k := AgentIndex(s.agents, agentId);
    if k == |s.agents| || s.agents[k].hasTranscript then Unchanged(s)
    else Moved(
      s.(agents := WithAgent(s.agents, agentId, (a: Agent) => a.(hasTranscript := true))), [Broadcast])
  }

  // --- The clock ----------------------------------------------------------------------------

  datatype Deadline = Deadline(at: int, failure: Option<string>)

  // machine.ts:611-625, most severe first.
  function DeadlinesOf(a: Agent, createdAt: int): seq<Deadline> {
    if IsTerminal(a) then []
    else if a.briefedAt.Some? then
      var timeout := Deadline(a.briefedAt.value + AGENT_TIMEOUT_MS, Some("timed out"));
      if a.status == AgentStalled then [timeout]
      else [timeout, Deadline(a.lastEventAt.Or(a.briefedAt.value) + STALL_MS, None)]
    else if a.dispatchedAt.None? then
      [Deadline(a.retriedAt.Or(createdAt) + STALL_MS, Some("never dispatched"))]
    else
      [Deadline(a.dispatchedAt.value + JOB_START_MS, Some("job never started on GitHub"))]
  }

  function FirstDue(deadlines: seq<Deadline>, now: int): (r: Option<Deadline>)
    ensures r.Some? ==> r.value in deadlines && now >= r.value.at
    ensures r.None? ==> forall d | d in deadlines :: now < d.at
  {
    if deadlines == [] then None
    else if now >= deadlines[0].at then Some(deadlines[0])
    else FirstDue(deadlines[1..], now)
  }

  datatype Ticked = Ticked(next: RunState, acted: bool, failures: nat, logs: seq<Effect>)

  // One turn of onTick's loop, for one agent of the state the tick began with.
  function TickOne(t: Ticked, agent: Agent, createdAt: int, now: int): Ticked {
    var due := FirstDue(DeadlinesOf(agent, createdAt), now);
    if due.None? then t
    else if due.value.failure.Some? then
      Ticked(FailedState(t.next, agent.id, due.value.failure.value, now), true, t.failures + 1,
        t.logs + [Log(AgentFailed(agent.id, due.value.failure.value))])
    else
      var stalled := PatchAgent(t.next, agent.id, (a: Agent) => a.(status := AgentStalled), now);
      if agent.id in t.next.stalledLogged then t.(next := stalled, acted := true)
      else Ticked(stalled.(stalledLogged := t.next.stalledLogged + [agent.id]), true, t.failures,
        t.logs + [Log(AgentStalledFor(agent.id, STALL_MS / 60_000))])
  }

  // The loop's variables once the first `k` agents have been looked at.
  function TickFirst(s: RunState, k: nat, now: int): Ticked
    requires k <= |s.agents|
  {
    if k == 0 then Ticked(s, false, 0, [])
    else TickOne(TickFirst(s, k - 1, now), s.agents[k - 1], s.createdAt, now)
  }

  // machine.ts:242-262.
  function OnTick(s: RunState, now: int): Transition {
    if s.status != OnTheHill then Unchanged(s)
    else
      var t := TickFirst(s, |s.agents|, now);
      if !t.acted then Unchanged(s)
      else if t.failures == 0 then Moved(t.next, t.logs + [Broadcast])
      else CloseSweepIfDone(t.next, now, t.logs)
  }

  function MinAt(deadlines: seq<Deadline>): (r: Option<int>)
    ensures r.None? <==> deadlines == []
    ensures r.Some? ==> exists d | d in deadlines :: d.at == r.value
    ensures r.Some? ==> forall d | d in deadlines :: r.value <= d.at
  {
    if deadlines == [] then None
    else
      var rest := MinAt(deadlines[1..]);
      assert deadlines[0] in deadlines;
      if rest.None? || deadlines[0].at <= rest.value then Some(deadlines[0].at) else rest
  }

  function AllDeadlines(agents: seq<Agent>, createdAt: int): (r: seq<Deadline>)
    ensures forall d :: d in r <==> exists a | a in agents :: d in DeadlinesOf(a, createdAt)
  {
    if agents == [] then []
    else DeadlinesOf(agents[0], createdAt) + AllDeadlines(agents[1..], createdAt)
  }

  // machine.ts:545-549.
  function NextAlarm(s: RunState): Option<int> {
    if s.status != OnTheHill then None else MinAt(AllDeadlines(s.agents, s.createdAt))
  }

  // --- Stopping, retrying, bypassing, landing -----------------------------------------------

  function HaltStep(step: Step, now: int): Step {
    if step.status == StepActive then step.(status := StepStopped, finishedAt := Some(now)) else step
  }

  function HaltAgent(a: Agent, summary: string, now: int): Agent {
    if IsTerminal(a) then a else a.(status := AgentStopped, summary := Some(summary), finishedAt := Some(now))
  }

  // Everybody still out is stopped, and so is the step under way (machine.ts:657-668).
  function Halted(s: RunState, summary: string, now: int): RunState {
    s.(steps := Map(s.steps, (step: Step) => HaltStep(step, now)),
       agents := Map(s.agents, (a: Agent) => HaltAgent(a, summary, now)),
       updatedAt := now)
  }

  // The agents' jobs known to GitHub, cancelled one by one (machine.ts:671-676).
  function JobCancels(jobRuns: map<string, string>, agents: seq<Agent>): seq<Effect> {
    if agents == [] then []
    else
      (if agents[0].id in jobRuns then [Cancel(agents[0].id, jobRuns[agents[0].id])] else [])
      + JobCancels(jobRuns, agents[1..])
  }

  function StillOut(agents: seq<Agent>): seq<Agent> {
    Filter(agents, (a: Agent) => !IsTerminal(a))
  }

  // machine.ts:266-287.
  function StopRun(s: RunState, reason: string, now: int): Transition {
    var stopped := "stopped · " + reason;
    if s.status == Swept then
      Moved(s.(status := Stopped, updatedAt := now), [Log(RunStopped(stopped)), Index, Broadcast])
    else if s.status != OnTheHill then Unchanged(s)
    else
      Moved(Halted(s, stopped, now).(status := Stopped),
        [Log(RunStopped(stopped)), Index, Broadcast, Check] + JobCancels(s.jobRuns, StillOut(s.agents)))
  }

  datatype RetryTarget = RetryStep(step: StepId) | RetryAgent(agentId: string)

  predicate Covered(target: RetryTarget, a: Agent) {
    match target
    case RetryStep(step) => a.step == step
    case RetryAgent(id) => a.id == id
  }

  // machine.ts:294-299.
  function RetryableAgents(s: RunState, target: RetryTarget): seq<string> {
    if !IsOpen(s) then []
    else AgentIds(Filter(s.agents, (a: Agent) => a.status == AgentError && Covered(target, a)))
  }

  function Requeued(a: Agent, now: int): Agent {
    Agent(a.id, a.role, a.step, a.round, AgentQueued, None, None, None, None, "", false, None, [],
      a.retries + 1, Some(now))
  }

  function ReopenStep(step: Step, retried: seq<Agent>, now: int): Step {
    if exists i | 0 <= i < |retried| :: retried[i].step == step.id
    then Step(step.id, StepActive, Some(step.startedAt.Or(now)), None, [])
    else step
  }

  function Retried(agents: seq<Agent>, ids: seq<string>): seq<Agent> {
    Filter(agents, (a: Agent) => a.id in ids)
  }

  // The run with the agents `ids` queued afresh and their step reopened (machine.ts:312-352).
  function RetriedState(s: RunState, ids: seq<string>, now: int, mint: nat -> string): RunState {
    s.(status := OnTheHill,
       steps := Map(s.steps, (step: Step) => ReopenStep(step, Retried(s.agents, ids), now)),
       agents := Map(s.agents, (a: Agent) => if a.id in ids then Requeued(a, now) else a),
       nonces := Minted(s.nonces, ids, mint),
       jobRuns := map id | id in s.jobRuns && id !in ids :: s.jobRuns[id],
       stalledLogged := Filter(s.stalledLogged, (id: string) => id !in ids),
       checkReposts := Some(s.checkReposts.Or(0) + 1),
       updatedAt := now)
  }

  // machine.ts:304-367.
  function RetryAgents(s: RunState, target: RetryTarget, now: int, mint: nat -> string): Transition {
    var ids := RetryableAgents(s, target);
    if |ids| == 0 then Unchanged(s)
    else
      Moved(RetriedState(s, ids, now, mint),
        Map(Retried(s.agents, ids), (a: Agent) => Log(AgentRetried(a.id, a.retries + 2)))
        + [Index]
        + Map(ids, (id: string) => Dispatch(id))
        + [Broadcast, Check]
        + JobCancels(s.jobRuns, Retried(s.agents, ids)))
  }

  // machine.ts:372-376.
  predicate CanBypassDesign(s: RunState) {
    && IsOpen(s)
    && s.designBypassedAt.None?
    && exists i | 0 <= i < |s.agents| :: HasWaivable(s.agents[i])
  }

  // machine.ts:381-404.
  function BypassDesign(s: RunState, now: int): Transition {
    if !CanBypassDesign(s) then Unchanged(s)
    else
      var bypassed := s.(
        designBypassedAt := Some(now), checkReposts := Some(s.checkReposts.Or(0) + 1), updatedAt := now);
      var state :=
        if StepIs(s, Sweep, StepDone)
        then PatchStep(bypassed, Sweep,
          (step: Step) => step.(notes := [ConditionsNote(ConditionsReport(bypassed))]))
        else bypassed;
      Moved(state, [Log(DesignBypassed), Index, Broadcast, Check])
  }

  function Sha7(sha: string): string {
    if |sha| <= 7 then sha else sha[..7]
  }

  // The steps of a run halted by a merge (machine.ts:412-420).
  function LandSteps(halted: seq<Step>, mergeSha: string, now: int): seq<Step> {
    var skipped := SkipIfPending(SkipIfPending(halted, Huddle, NoHuddle), Summit, NoSummit);
    var dropped := WithStep(skipped, DropIn, (step: Step) => step.(
      status := StepDone, startedAt := Some(now), finishedAt := Some(now), notes := [MergedAs(Sha7(mergeSha))]));
    WithStep(dropped, SendIt, (step: Step) => step.(status := StepSkipped, notes := [NoDeploy]))
  }

  // The landed state (machine.ts:410-420).
  function LandedState(s: RunState, mergeSha: string, now: int): RunState {
    var halt := Halted(s, "stopped · PR merged", now);
    halt.(status := Landed, mergeSha := Some(mergeSha), steps := LandSteps(halt.steps, mergeSha, now))
  }

  // machine.ts:407-433.
  function LandRun(s: RunState, mergeSha: string, now: int): Transition {
    if s.status == Landed then Unchanged(s)
    else
      var state := LandedState(s, mergeSha, now);
      Moved(state,
        [Log(RunLanded(Sha7(mergeSha))), Index, Broadcast]
        + (if ReviewOutcome(state) == OutcomePending then [Check] else [])
        + JobCancels(s.jobRuns, StillOut(s.agents)))
  }

  // machine.ts:436-442.
  function OnRetitled(s: RunState, title: string, now: int): Transition {
    if s.prTitle == title then Unchanged(s)
    else Moved(s.(prTitle := title, updatedAt := now), [Index, Broadcast])
  }

  // --- The check run ------------------------------------------------------------------------

  // machine.ts:445-448.
  function OnCheckCreated(s: RunState, id: int): Transition {
    if s.checkRunId.Some? then Unchanged(s) else Moved(s.(checkRunId := Some(id)), [])
  }

  // machine.ts:452-455.
  function AskCheckRepost(s: RunState): Transition {
    if !IsOpen(s) then Unchanged(s)
    else Moved(s.(checkReposts := Some(s.checkReposts.Or(0) + 1)), [Check])
  }

  // machine.ts:459-463.
  function OnCheckReposted(s: RunState, id: int, asked: nat): Transition {
    Moved(s.(checkReposts := if s.checkReposts == Some(asked) then None else s.checkReposts,
        checkRunId := Some(id)), [])
  }

  // --- Loops --------------------------------------------------------------------------------

  // createRun's and retryAgents' loop over the agents that need a nonce (machine.ts:102, 332).
  method MintNonces(base: map<string, string>, ids: seq<string>, mint: nat -> string)
    returns (nonces: map<string, string>)
    ensures nonces == Minted(base, ids, mint)
  {
    nonces := base;
    for k := 0 to |ids|
      invariant nonces == Minted(base, ids[..k], mint)
    {
      assert ids[..k + 1][..k] == ids[..k];
      nonces := nonces[ids[k] := mint(k)];
    }
    assert ids[..|ids|] == ids;
  }

  // onTick as the source runs it, one pass over the agents (machine.ts:242-262).
  method Tick(s: RunState, now: int) returns (t: Transition)
    ensures t == OnTick(s, now)
  {
    if s.status != OnTheHill {
      return Unchanged(s);
    }
    var next, acted, failures, logs: seq<Effect> := s, false, 0, [];
    for k := 0 to |s.agents|
      invariant failures >= 0
      invariant Ticked(next, acted, failures, logs) == TickFirst(s, k, now)
    {
      var turn := TickOne(Ticked(next, acted, failures, logs), s.agents[k], s.createdAt, now);
      next, acted, failures, logs := turn.next, turn.acted, turn.failures, turn.logs;
    }
    if !acted {
      return Unchanged(s);
    }
    if failures == 0 {
      return Moved(next, logs + [Broadcast]);
    }
    t := CloseSweepIfDone(next, now, logs);
  }
}
