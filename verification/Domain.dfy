// The values a run is made of (shared/src/types.ts, shared/src/config.ts).
module Domain {

  datatype Option<+T> = None | Some(value: T) {
    function Or(default: T): T {
      if None? then default else value
    }
  }

  // Array.prototype.map.
  function Map<A, B>(xs: seq<A>, f: A -> B): (r: seq<B>)
    ensures |r| == |xs|
    ensures forall i | 0 <= i < |xs| :: r[i] == f(xs[i])
  {
    seq(|xs|, i requires 0 <= i < |xs| => f(xs[i]))
  }

  // Array.prototype.filter.
  function Filter<A>(xs: seq<A>, p: A -> bool): (r: seq<A>)
    ensures forall x | x in r :: x in xs && p(x)
    ensures forall x | x in xs :: p(x) ==> x in r
    ensures |r| <= |xs|
  {
    if xs == [] then []
    else (if p(xs[0]) then [xs[0]] else []) + Filter(xs[1..], p)
  }

  datatype Panel = Backend | Frontend
  datatype Rating = Green | Blue | Black | DoubleBlack
  datatype Role =
    | GraniteChief | GoldCoast | SummitSix | Kt22 | Mainline | Corduroy | MagicCarpet | Bluebird | Groomer

  datatype RosterEntry = RosterEntry(id: Role, name: string, panels: seq<Panel>)
  datatype Config = Config(roster: seq<RosterEntry>, enabledRoles: seq<Role>)

  datatype PullRequest = PullRequest(
    repo: string, number: nat, title: string, body: string, url: string, branch: string,
    headSha: string, installationId: int, defaultBranch: string, baseSha: string)

  datatype Triage = Triage(
    panels: seq<Panel>, rating: Rating, runName: string, files: nat, additions: nat, deletions: nat)

  datatype StepId = LiftLine | TrailMap | Sweep | Huddle | Summit | DropIn | SendIt
  datatype StepStatus = StepPending | StepActive | StepDone | StepStopped | StepSkipped
  datatype RunStatus = OnTheHill | Swept | Landed | Stopped | Failed
  datatype AgentStatus =
    | AgentQueued | AgentDispatched | AgentRunning | AgentStalled
    | AgentClear | AgentHazards | AgentError | AgentStopped
  datatype Outcome = OutcomePending | OutcomeNone | OutcomeClear | OutcomeHazards | OutcomeFailed

  const STEP_ORDER: seq<StepId> := [LiftLine, TrailMap, Sweep, Huddle, Summit, DropIn, SendIt]

  // How Granite Chief names a hazard of a design that is missing (shared/src/design.ts:3).
  const NO_DESIGN_TITLE := "No approved design"

  datatype Hazard = Hazard(id: string, title: string, detail: string)

  datatype Verdict = Verdict(status: AgentStatus, hazards: seq<Hazard>, summary: string)

  // What parseVerdict promises of the verdict it returns (shared/src/verdict.ts:59-76).
  predicate ParsedVerdict(v: Verdict) {
    && (v.status == AgentClear || v.status == AgentHazards)
    && (v.status == AgentClear <==> v.hazards == [])
    && v.summary != ""
  }

  // A link no job has given yet is "". `retries` is 0 until the first retry.
  datatype Agent = Agent(
    id: string, role: Role, step: StepId, round: nat, status: AgentStatus,
    dispatchedAt: Option<int>, briefedAt: Option<int>, lastEventAt: Option<int>, finishedAt: Option<int>,
    jobUrl: string, hasTranscript: bool, summary: Option<string>, hazards: seq<Hazard>,
    retries: nat, retriedAt: Option<int>)

  // The Conditions report, a record of what its lines say.
  datatype Conditions = Conditions(
    outcome: Option<Outcome>, reported: nat, patrollers: nat, hazards: nat, failed: nat,
    bypassed: bool, summaries: seq<(string, string)>)

  datatype Note =
    | PanelNote(panels: seq<Panel>)
    | RatingNote(triage: Triage)
    | GoalNote(goal: string)
    | ConditionsNote(conditions: Conditions)
    | NoHuddle | NoSummit | NoDeploy
    | MergedAs(sha7: string)

  datatype Step = Step(
    id: StepId, status: StepStatus, startedAt: Option<int>, finishedAt: Option<int>, notes: seq<Note>)

  // What a run shows and never changes, and what it keeps to itself and never changes.
  datatype Card = Card(
    id: string, repo: string, prNumber: nat, prUrl: string, branch: string, headSha: string,
    panels: seq<Panel>, rating: Rating, runName: string, goal: string)
  datatype Origin = Origin(
    installationId: int, defaultBranch: string, baseSha: string, agentNames: map<string, string>)

  // `jobRuns` is empty where the source leaves it undefined.
  datatype RunState = RunState(
    card: Card, origin: Origin, prTitle: string, status: RunStatus, steps: seq<Step>, agents: seq<Agent>,
    mergeSha: Option<string>, designBypassedAt: Option<int>, createdAt: int, updatedAt: int,
    nonces: map<string, string>, stalledLogged: seq<string>,
    checkRunId: Option<int>, checkReposts: Option<nat>, jobRuns: map<string, string>)
}
