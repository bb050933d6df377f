// A job belongs to the attempt it was briefed for: what is cancelled, and how often a stall is told.
module Jobs {
  import opened Domain
  import opened Machine
  import opened Lifecycle
  import opened Review

  // A job that was given its brief, with the nonce it showed.
  datatype Brief = Brief(agentId: string, nonce: string, githubRunId: string)

  // A run with its past: every brief given, every nonce ever issued, the nonces retries replaced,
  // and every effect.
  datatype Trace = Trace(
    s: RunState, briefs: seq<Brief>, issued: set<string>, retired: set<string>, effects: seq<Effect>)

  ghost function Values(m: map<string, string>): set<string> {
    set id | id in m :: m[id]
  }

  ghost function Play(t: Trace, e: Event): Trace {
    var r := Apply(t.s, e);
    Trace(
      r.state,
      if e.Briefed? && r.moved && e.agentId in t.s.nonces
      then t.briefs + [Brief(e.agentId, t.s.nonces[e.agentId], e.githubRunId)] else t.briefs,
      t.issued + Values(r.state.nonces),
      t.retired + (Values(t.s.nonces) - Values(r.state.nonces)),
      t.effects + r.effects)
  }

  ghost function Begin(a: Start): Trace {
    var r := CreateRun(a);
    Trace(r.state, [], Values(r.state.nonces), {}, r.effects)
  }

  ghost function TraceOf(a: Start, es: seq<Event>): Trace {
    if |es| == 0 then Begin(a) else Play(TraceOf(a, es[..|es| - 1]), es[|es| - 1])
  }

  // The first `n` nonces minted are new and differ.
  ghost predicate MintsFresh(mint: nat -> string, n: nat, issued: set<string>) {
    && (forall k: nat | k < n :: mint(k) !in issued)
    && (forall j: nat, k: nat | j < k < n :: mint(j) != mint(k))
  }

  // Nonces are random: a retry mints ones never issued before.
  ghost predicate FreshIn(t: Trace, e: Event) {
    e.Retry? ==> MintsFresh(e.mint, |RetryableAgents(t.s, e.target)|, t.issued)
  }

  ghost predicate Plays(a: Start, es: seq<Event>) {
    && DistinctRoster(a.cfg.roster) && AllLegal(es)
    && MintsFresh(a.mint, |FreshAgents(a)|, {})
    && forall k | 0 <= k < |es| :: FreshIn(TraceOf(a, es[..k]), es[k])
  }

  // The last brief given to an agent's job.
  function LastBrief(briefs: seq<Brief>, id: string): Option<Brief> {
    if briefs == [] then None
    else if briefs[|briefs| - 1].agentId == id then Some(briefs[|briefs| - 1])
    else LastBrief(briefs[..|briefs| - 1], id)
  }

  // The job GitHub has started for the agent's current attempt: the last briefed under its nonce.
  ghost function StartedJob(t: Trace, id: string): Option<string> {
    var last := LastBrief(t.briefs, id);
    if last.Some? && id in t.s.nonces && last.value.nonce == t.s.nonces[id]
    then Some(last.value.githubRunId) else None
  }

  function CountStalls(effects: seq<Effect>, id: string): nat {
    if effects == [] then 0
    else
      (if effects[0].Log? && effects[0].text.AgentStalledFor? && effects[0].text.id == id then 1 else 0)
      + CountStalls(effects[1..], id)
  }

  // `jobRuns` is exactly the started jobs.
  ghost predicate JobsCurrent(t: Trace) {
    forall id :: JobCurrent(t, id)
  }

  ghost predicate NoncesCurrent(t: Trace) {
    && (forall id, other | id in t.s.nonces && other in t.s.nonces && id != other ::
          t.s.nonces[id] != t.s.nonces[other])
    && Values(t.s.nonces) <= t.issued
    && t.retired <= t.issued
    && t.retired !! Values(t.s.nonces)
    && forall k | 0 <= k < |t.briefs| :: t.briefs[k].nonce in t.issued
  }

  ghost predicate StallsBounded(t: Trace) {
    forall i | 0 <= i < |t.s.agents| :: StallBounded(t, t.s.agents[i])
  }

  ghost predicate StallBounded(t: Trace, a: Agent) {
    CountStalls(t.effects, a.id) <= a.retries + (if a.id in t.s.stalledLogged then 1 else 0)
  }

  // --- Nonces -------------------------------------------------------------------------------

  ghost predicate MintedFor(base: map<string, string>, ids: seq<string>, mint: nat -> string, id: string) {
    && id in Minted(base, ids, mint)
    && exists k: nat :: k < |ids| && ids[k] == id && Minted(base, ids, mint)[id] == mint(k)
  }

  // What minting for `ids` leaves: an old nonce for everybody else, and a minted one for each of them.
  lemma {:induction false} MintedValues(base: map<string, string>, ids: seq<string>, mint: nat -> string)
    ensures forall id :: id in base && id !in ids ==>
      id in Minted(base, ids, mint) && Minted(base, ids, mint)[id] == base[id]
    ensures forall id | id in ids :: MintedFor(base, ids, mint, id)
  {
    if ids != [] {
      var last := |ids| - 1;
      MintedValues(base, ids[..last], mint);
      forall id | id in ids
        ensures MintedFor(base, ids, mint, id)
      {
        if id == ids[last] {
          assert Minted(base, ids, mint)[id] == mint(last);
        } else {
          assert id in ids[..last] && MintedFor(base, ids[..last], mint, id);
          var k: nat :| k < last && ids[..last][k] == id && Minted(base, ids[..last], mint)[id] == mint(k);
          assert ids[k] == id;
        }
      }
    }
  }

  ghost predicate Injective(m: map<string, string>) {
    forall id, other | id in m && other in m && id != other :: m[id] != m[other]
  }

  // `m` holds a new nonce for each of `ids`, and the old one for everybody else.
  ghost predicate Renewed(base: map<string, string>, ids: seq<string>, issued: set<string>, m: map<string, string>) {
    forall id | id in m :: (if id in ids then m[id] !in issued else id in base && m[id] == base[id])
  }

  lemma MintedInjective(base: map<string, string>, ids: seq<string>, mint: nat -> string, issued: set<string>)
    requires Injective(base) && Values(base) <= issued && MintsFresh(mint, |ids|, issued)
    ensures Injective(Minted(base, ids, mint))
    ensures Renewed(base, ids, issued, Minted(base, ids, mint))
  {
    var m := Minted(base, ids, mint);
    MintedValues(base, ids, mint);
    MintedKeys(base, ids, mint);
    assert forall id | id in ids :: MintedFor(base, ids, mint, id);
    forall id | id in base ensures base[id] in issued {
      assert base[id] in Values(base);
    }
    assert Renewed(base, ids, issued, m);
    forall id, other | id in m && other in m && id != other ensures m[id] != m[other] {
    }
  }

  // No other event touches a nonce.
  lemma NoncesKept(s: RunState, e: Event)
    requires !e.Retry?
    ensures Apply(s, e).state.nonces == s.nonces
    ensures !e.Briefed? ==> Apply(s, e).state.jobRuns == s.jobRuns
  {
    if BooksUntouchedBy(e) {
      hide Apply;
      BooksKept(s, e);
    } else {
      hide ConditionsReport, CanBypassDesign, WithStep, StepIs;
    }
  }

  // --- Jobs ---------------------------------------------------------------------------------

  lemma LastBriefIn(briefs: seq<Brief>, id: string)
    ensures LastBrief(briefs, id).Some? ==>
      exists k | 0 <= k < |briefs| :: briefs[k] == LastBrief(briefs, id).value && briefs[k].agentId == id
  {
    if briefs != [] && briefs[|briefs| - 1].agentId != id {
      LastBriefIn(briefs[..|briefs| - 1], id);
    }
  }

  lemma LastBriefAfter(briefs: seq<Brief>, b: Brief, id: string)
    ensures LastBrief(briefs + [b], id) == if b.agentId == id then Some(b) else LastBrief(briefs, id)
  {
    assert (briefs + [b])[..|briefs + [b]| - 1] == briefs;
  }

  // The brief is recorded under the agent's nonce, and its job as the agent's.
  lemma BriefFacts(t: Trace, e: Event)
    requires Inv(t.s) && e.Briefed? && Apply(t.s, e).moved
    ensures var u := Play(t, e);
      && e.agentId in t.s.nonces
      && u.briefs == t.briefs + [Brief(e.agentId, t.s.nonces[e.agentId], e.githubRunId)]
      && u.s.jobRuns == t.s.jobRuns[e.agentId := e.githubRunId]
      && u.s.nonces == t.s.nonces
  {
    var k := AgentIndex(t.s.agents, e.agentId);
    assert AgentIds(t.s.agents)[k] == e.agentId;
  }

  ghost predicate JobCurrent(t: Trace, id: string) {
    StartedJob(t, id) == (if id in t.s.jobRuns then Some(t.s.jobRuns[id]) else None)
  }

  lemma SameJobs(t: Trace, u: Trace)
    requires JobsCurrent(t)
    requires u.s.jobRuns == t.s.jobRuns && u.s.nonces == t.s.nonces && u.briefs == t.briefs
    ensures JobsCurrent(u)
  {
    forall id ensures JobCurrent(u, id) {
      assert JobCurrent(t, id);
    }
  }

  lemma JobsThroughBrief(t: Trace, e: Event)
    requires Inv(t.s) && JobsCurrent(t) && e.Briefed?
    ensures JobsCurrent(Play(t, e))
  {
    hide Inv;
    var u := Play(t, e);
    if Apply(t.s, e).moved {
      BriefFacts(t, e);
      hide Play, Apply;
      forall id ensures JobCurrent(u, id) {
        assert JobCurrent(t, id);
        LastBriefAfter(t.briefs, Brief(e.agentId, t.s.nonces[e.agentId], e.githubRunId), id);
      }
    } else {
      SameJobs(t, u);
    }
  }

  // A retry's fresh nonces leave the retried agents without a job, and the others with theirs.
  lemma JobsThroughRetry(t: Trace, e: Event)
    requires Inv(t.s) && JobsCurrent(t) && NoncesCurrent(t) && e.Retry? && FreshIn(t, e)
    ensures JobsCurrent(Play(t, e))
    ensures forall id | id in RetryableAgents(t.s, e.target) :: StartedJob(Play(t, e), id) == None
  {
    hide Inv;
    var ids := RetryableAgents(t.s, e.target);
    var u := Play(t, e);
    if |ids| > 0 {
      RetryFacts(t, e);
      hide Play, Apply, RetryableAgents, NoncesCurrent;
      forall id ensures JobCurrent(u, id) && (id in ids ==> StartedJob(u, id) == None) {
        assert JobCurrent(t, id);
        LastBriefIn(t.briefs, id);
      }
    } else {
      SameJobs(t, u);
    }
  }

  // A retry renews the nonces of `ids` with ones never issued, and drops their jobs.
  lemma RetryFacts(t: Trace, e: Event)
    requires e.Retry? && NoncesCurrent(t) && FreshIn(t, e) && |RetryableAgents(t.s, e.target)| > 0
    ensures var u, ids := Play(t, e), RetryableAgents(t.s, e.target);
      && u.briefs == t.briefs
      && u.s.jobRuns == (map id | id in t.s.jobRuns && id !in ids :: t.s.jobRuns[id])
      && Injective(u.s.nonces)
      && Renewed(t.s.nonces, ids, t.issued, u.s.nonces)
      && (forall id | id in t.s.nonces && id !in ids :: id in u.s.nonces)
  {
    var ids := RetryableAgents(t.s, e.target);
    MintedInjective(t.s.nonces, ids, e.mint, t.issued);
    MintedKeys(t.s.nonces, ids, e.mint);
    hide RetryableAgents, MintsFresh;
  }

  lemma NoncesThrough(t: Trace, e: Event)
    requires Inv(t.s) && NoncesCurrent(t) && FreshIn(t, e)
    ensures NoncesCurrent(Play(t, e))
    ensures e.Retry? ==> forall id | id in RetryableAgents(t.s, e.target) && id in t.s.nonces ::
      t.s.nonces[id] in Play(t, e).retired
  {
    var u := Play(t, e);
    hide Inv, RetryableAgents;
    if e.Retry? && |RetryableAgents(t.s, e.target)| > 0 {
      RetryFacts(t, e);
      RetiredApart(t.s.nonces, u.s.nonces, RetryableAgents(t.s, e.target), t.issued, t.retired);
      hide RetryableAgents, Apply;
    } else {
      if !e.Retry? {
        NoncesKept(t.s, e);
      }
      assert u.s.nonces == t.s.nonces;
    }
  }

  // Old nonces never come back: those kept were not retired, those minted were never issued.
  lemma RetiredApart(was: map<string, string>, now: map<string, string>, ids: seq<string>, issued: set<string>,
                     retired: set<string>)
    requires Injective(was) && Values(was) <= issued && retired <= issued && retired !! Values(was)
    requires Renewed(was, ids, issued, now)
    ensures retired + (Values(was) - Values(now)) !! Values(now)
    ensures forall id | id in was && id in ids :: was[id] in Values(was) - Values(now)
  {
    forall id | id in was ensures was[id] in Values(was) {
    }
  }

  // --- Stalls -------------------------------------------------------------------------------

  lemma CountAppend(a: seq<Effect>, b: seq<Effect>, id: string)
    ensures CountStalls(a + b, id) == CountStalls(a, id) + CountStalls(b, id)
  {
    if a == [] {
      assert a + b == b;
    } else {
      assert (a + b)[1..] == a[1..] + b;
      CountAppend(a[1..], b, id);
    }
  }

  // A tick tells of an agent's stall exactly when it first records it.
  lemma {:induction false} TickStalls(s: RunState, k: nat, now: int, id: string)
    requires k <= |s.agents|
    ensures var t := TickFirst(s, k, now);
      CountStalls(t.logs, id) + (if id in s.stalledLogged then 1 else 0)
        == (if id in t.next.stalledLogged then 1 else 0)
  {
    hide DeadlinesOf, FirstDue;
    if k > 0 {
      TickStalls(s, k - 1, now, id);
      var before := TickFirst(s, k - 1, now);
      var a := s.agents[k - 1];
      CountAppend(before.logs, [Log(AgentStalledFor(a.id, STALL_MS / 60_000))], id);
      var due := FirstDue(DeadlinesOf(a, s.createdAt), now);
      if due.Some? && due.value.failure.Some? {
        CountAppend(before.logs, [Log(AgentFailed(a.id, due.value.failure.value))], id);
      }
    }
  }

  predicate TellsNoStall(e: Effect) {
    !(e.Log? && e.text.AgentStalledFor?)
  }

  lemma NoStalls(effects: seq<Effect>, id: string)
    requires forall k | 0 <= k < |effects| :: TellsNoStall(effects[k])
    ensures CountStalls(effects, id) == 0
  {
    if effects != [] {
      assert TellsNoStall(effects[0]);
    }
  }

  lemma CancelsTellNoStall(jobRuns: map<string, string>, agents: seq<Agent>)
    ensures forall k | 0 <= k < |JobCancels(jobRuns, agents)| :: TellsNoStall(JobCancels(jobRuns, agents)[k])
  {
  }

  lemma OtherEffectsTellNoStall(s: RunState, e: Event)
    requires !e.Alarm?
    ensures forall k | 0 <= k < |Apply(s, e).effects| :: TellsNoStall(Apply(s, e).effects[k])
  {
    if e.Stop? || e.Land? || e.Retry? {
      hide Apply;
      CancelEffectsTellNoStall(s, e);
    } else if e.Reported? || e.GaveUp? {
      ReportEffectsTellNoStall(s, e);
    } else {
      hide CanBypassDesign, ConditionsReport, WithStep, WithAgent, AgentIndex, IsOpen;
    }
  }

  lemma ReportEffectsTellNoStall(s: RunState, e: Event)
    requires e.Reported? || e.GaveUp?
    ensures forall k | 0 <= k < |Apply(s, e).effects| :: TellsNoStall(Apply(s, e).effects[k])
  {
    hide SweptState, SweepsOf, OpenHazardCount, CountErrors, LiveAgent, WithAgent;
  }

  lemma CancelEffectsTellNoStall(s: RunState, e: Event)
    requires e.Stop? || e.Land? || e.Retry?
    ensures forall k | 0 <= k < |Apply(s, e).effects| :: TellsNoStall(Apply(s, e).effects[k])
  {
    hide JobCancels, ReviewOutcome, RetriedState, LandedState, Halted, Retried, IsOpen;
    if e.Retry? {
      CancelsTellNoStall(s.jobRuns, Retried(s.agents, RetryableAgents(s, e.target)));
    } else {
      CancelsTellNoStall(s.jobRuns, StillOut(s.agents));
    }
  }

  lemma StalledLoggedKept(s: RunState, e: Event)
    requires !e.Alarm? && !e.Retry?
    ensures Apply(s, e).state.stalledLogged == s.stalledLogged
  {
    hide DeadlinesOf, ConditionsReport, ReviewOutcome, LandSteps, JobCancels, Map, WithAgent, IsTerminal;
  }

  lemma TickTells(s: RunState, now: int, id: string)
    ensures var r := OnTick(s, now);
      CountStalls(r.effects, id) + (if id in s.stalledLogged then 1 else 0)
      == (if id in r.state.stalledLogged then 1 else 0)
  {
    if s.status == OnTheHill {
      var t := TickFirst(s, |s.agents|, now);
      TickStalls(s, |s.agents|, now, id);
      SweptFacts(t.next, now);
      ClosingTells(t.next, now, t.logs, id);
      CountAppend(t.logs, [Broadcast], id);
      NoStalls([Broadcast], id);
      if !t.acted {
        UnactedTick(s, |s.agents|, now);
      }
      hide TickFirst, CountStalls, CloseSweepIfDone;
    }
  }

  lemma UnactedTick(s: RunState, k: nat, now: int)
    requires k <= |s.agents| && !TickFirst(s, k, now).acted
    ensures TickFirst(s, k, now) == Ticked(s, false, 0, [])
  {
    hide DeadlinesOf;
  }

  lemma ClosingTells(s: RunState, now: int, earned: seq<Effect>, id: string)
    ensures CountStalls(CloseSweepIfDone(s, now, earned).effects, id) == CountStalls(earned, id)
    ensures CloseSweepIfDone(s, now, earned).state.stalledLogged == s.stalledLogged
  {
    var effects := CloseSweepIfDone(s, now, earned).effects;
    var own := effects[|earned|..];
    assert effects == earned + own;
    CountAppend(earned, own, id);
    assert forall k | 0 <= k < |own| :: TellsNoStall(own[k]);
    NoStalls(own, id);
    SweptFacts(s, now);
  }

  lemma StallsThrough(t: Trace, e: Event)
    requires Inv(t.s) && Legal(e) && StallsBounded(t)
    ensures StallsBounded(Play(t, e))
  {
    ReportsKept(t.s, e);
    var r := Apply(t.s, e);
    forall i | 0 <= i < |r.state.agents|
      ensures StallBounded(Play(t, e), r.state.agents[i])
    {
      assert Kept(t.s.agents[i], r.state.agents[i]);
      StallThrough(t, e, i);
    }
    hide Apply;
  }

  lemma StallThrough(t: Trace, e: Event, i: nat)
    requires Inv(t.s) && StallsBounded(t)
    requires |Apply(t.s, e).state.agents| == |t.s.agents| && i < |t.s.agents|
    requires Kept(t.s.agents[i], Apply(t.s, e).state.agents[i])
    ensures StallBounded(Play(t, e), Apply(t.s, e).state.agents[i])
  {
    var id := t.s.agents[i].id;
    var r := Apply(t.s, e);
    assert StallBounded(t, t.s.agents[i]);
    CountAppend(t.effects, r.effects, id);
    if e.Alarm? {
      TickTells(t.s, e.now, id);
    } else {
      OtherEffectsTellNoStall(t.s, e);
      NoStalls(r.effects, id);
      if e.Retry? {
        RetryStallLog(t.s, e, i);
      } else {
        StalledLoggedKept(t.s, e);
      }
    }
    hide Apply, CountStalls, Inv;
  }

  function Told(s: RunState, id: string): nat {
    if id in s.stalledLogged then 1 else 0
  }

  // A retry takes an agent off the stall log only by counting one retry more for it.
  lemma RetryStallLog(s: RunState, e: Event, i: nat)
    requires e.Retry? && i < |s.agents| && |Apply(s, e).state.agents| == |s.agents|
    ensures var r := Apply(s, e).state;
      Told(s, s.agents[i].id) + s.agents[i].retries <= Told(r, s.agents[i].id) + r.agents[i].retries
  {
  }

  // --- Every run ----------------------------------------------------------------------------

  ghost predicate JobInv(t: Trace) {
    Inv(t.s) && JobsCurrent(t) && NoncesCurrent(t) && StallsBounded(t)
  }

  lemma BeginInv(a: Start)
    requires DistinctRoster(a.cfg.roster) && MintsFresh(a.mint, |FreshAgents(a)|, {})
    ensures JobInv(Begin(a))
  {
    CreatedInv(a);
    BeginTrace(a);
    forall i | 0 <= i < |Begin(a).s.agents| ensures StallBounded(Begin(a), Begin(a).s.agents[i]) {
      BeginQuiet(a, Begin(a).s.agents[i].id);
    }
    hide Begin, Inv;
  }

  lemma BeginTrace(a: Start)
    requires MintsFresh(a.mint, |FreshAgents(a)|, {})
    ensures var t := Begin(a); JobsCurrent(t) && NoncesCurrent(t)
  {
    MintedInjective(map[], AgentIds(FreshAgents(a)), a.mint, {});
    SweptFacts(FreshRun(a), a.now);
    var t := Begin(a);
    assert t.s.nonces == Minted(map[], AgentIds(FreshAgents(a)), a.mint);
    assert t.s.jobRuns == map[] && t.briefs == [] && t.retired == {} && t.issued == Values(t.s.nonces);
    hide Begin, CreateRun, SweptState, FreshAgents;
  }

  lemma BeginQuiet(a: Start, id: string)
    ensures CountStalls(Begin(a).effects, id) == 0
  {
    assert forall k | 0 <= k < |Begin(a).effects| :: TellsNoStall(Begin(a).effects[k]);
    NoStalls(Begin(a).effects, id);
  }

  lemma JobStep(t: Trace, e: Event)
    requires JobInv(t) && Legal(e) && FreshIn(t, e)
    ensures JobInv(Play(t, e))
  {
    hide Inv, JobsCurrent, NoncesCurrent, StallsBounded, FreshIn;
    StepKeepsInv(t.s, e);
    NoncesThrough(t, e);
    StallsThrough(t, e);
    if e.Briefed? {
      JobsThroughBrief(t, e);
    } else if e.Retry? {
      JobsThroughRetry(t, e);
    } else {
      JobsUntouched(t, e);
    }
  }

  lemma JobsUntouched(t: Trace, e: Event)
    requires JobsCurrent(t) && !e.Briefed? && !e.Retry?
    ensures JobsCurrent(Play(t, e))
  {
    NoncesKept(t.s, e);
    var u := Play(t, e);
    assert u.briefs == t.briefs;
    hide Play;
    forall id ensures JobCurrent(u, id) {
      assert JobCurrent(t, id);
    }
  }

  lemma PlaysPrefix(a: Start, es: seq<Event>)
    requires Plays(a, es) && |es| > 0
    ensures Plays(a, es[..|es| - 1])
    ensures var last := |es| - 1; Legal(es[last]) && FreshIn(TraceOf(a, es[..last]), es[last])
  {
    var init := es[..|es| - 1];
    forall k | 0 <= k < |init| ensures FreshIn(TraceOf(a, init[..k]), init[k]) {
      assert init[..k] == es[..k];
    }
  }

  // In every run: the jobs kept are exactly those started for the current attempts, a nonce a retry
  // replaced is never current again, and an agent's stall is told at most once an attempt.
  lemma {:induction false} JobsBelong(a: Start, es: seq<Event>)
    requires Plays(a, es)
    ensures JobInv(TraceOf(a, es))
  {
    if |es| == 0 {
      BeginInv(a);
    } else {
      var init := es[..|es| - 1];
      PlaysPrefix(a, es);
      JobsBelong(a, init);
      hide JobInv, Play, FreshIn;
      JobStep(TraceOf(a, init), es[|es| - 1]);
    }
  }

  lemma StallsAtMost(a: Start, es: seq<Event>, i: nat)
    requires Plays(a, es) && i < |TraceOf(a, es).s.agents|
    ensures var t := TraceOf(a, es);
      CountStalls(t.effects, t.s.agents[i].id) <= t.s.agents[i].retries + 1
  {
    JobsBelong(a, es);
    assert StallBounded(TraceOf(a, es), TraceOf(a, es).s.agents[i]);
  }

  // --- What is cancelled --------------------------------------------------------------------

  lemma {:induction false} CancelsExactly(jobRuns: map<string, string>, agents: seq<Agent>, id: string, job: string)
    ensures Cancel(id, job) in JobCancels(jobRuns, agents) <==>
      id in jobRuns && jobRuns[id] == job && exists i | 0 <= i < |agents| :: agents[i].id == id
  {
    if agents != [] {
      CancelsExactly(jobRuns, agents[1..], id, job);
      if i :| 0 <= i < |agents| && agents[i].id == id {
        if i > 0 {
          assert agents[1..][i - 1].id == id;
        }
      }
    }
  }

  lemma FilterHas(agents: seq<Agent>, p: Agent -> bool, id: string)
    ensures (exists i | 0 <= i < |Filter(agents, p)| :: Filter(agents, p)[i].id == id)
      <==> exists i | 0 <= i < |agents| :: agents[i].id == id && p(agents[i])
  {
    var r := Filter(agents, p);
    hide Filter;
    forall i | 0 <= i < |r| && r[i].id == id
      ensures exists j :: 0 <= j < |agents| && agents[j].id == id && p(agents[j])
    {
      assert r[i] in r;
      var j :| 0 <= j < |agents| && agents[j] == r[i];
    }
    forall i | 0 <= i < |agents| && agents[i].id == id && p(agents[i])
      ensures exists j :: 0 <= j < |r| && r[j].id == id
    {
      assert agents[i] in agents;
      var j :| 0 <= j < |r| && r[j] == agents[i];
    }
  }

  // Stopping a run on the hill, or landing any run, cancels exactly the started jobs of the agents
  // still out.
  lemma EndCancels(t: Trace, e: Event, id: string, job: string)
    requires JobInv(t) && ((e.Stop? && t.s.status == OnTheHill) || (e.Land? && t.s.status != Landed))
    ensures Cancel(id, job) in Apply(t.s, e).effects <==>
      StartedJob(t, id) == Some(job)
      && exists i | 0 <= i < |t.s.agents| :: t.s.agents[i].id == id && !IsTerminal(t.s.agents[i])
  {
    assert JobCurrent(t, id);
    EndEffects(t.s, e, id, job);
    hide *;
    CancelsExactly(t.s.jobRuns, StillOut(t.s.agents), id, job);
    FilterHas(t.s.agents, (a: Agent) => !IsTerminal(a), id);
    JobMeaning(t, id);
  }

  lemma JobMeaning(t: Trace, id: string)
    requires JobCurrent(t, id)
    ensures StartedJob(t, id) == if id in t.s.jobRuns then Some(t.s.jobRuns[id]) else None
  {
  }

  lemma EndEffects(s: RunState, e: Event, id: string, job: string)
    requires (e.Stop? && s.status == OnTheHill) || (e.Land? && s.status != Landed)
    ensures Cancel(id, job) in Apply(s, e).effects <==> Cancel(id, job) in JobCancels(s.jobRuns, StillOut(s.agents))
    ensures StillOut(s.agents) == Filter(s.agents, (a: Agent) => !IsTerminal(a))
  {
    hide JobCancels, LandedState, Halted, ReviewOutcome;
  }

  // A retry cancels exactly the started jobs of the attempts it replaces, and leaves them with none.
  lemma RetryCancels(t: Trace, e: Event, id: string, job: string)
    requires JobInv(t) && e.Retry? && FreshIn(t, e)
    ensures Cancel(id, job) in Apply(t.s, e).effects <==>
      StartedJob(t, id) == Some(job) && id in RetryableAgents(t.s, e.target)
    ensures id in RetryableAgents(t.s, e.target) ==> StartedJob(Play(t, e), id) == None
  {
    var ids := RetryableAgents(t.s, e.target);
    JobsThroughRetry(t, e);
    RetryableFacts(t.s, e.target);
    CancelsExactly(t.s.jobRuns, Retried(t.s.agents, ids), id, job);
    FilterHas(t.s.agents, (a: Agent) => a.id in ids, id);
    assert JobCurrent(t, id);
    RetryEffects(t.s, e, id, job);
    hide Apply, Inv, StartedJob, JobCancels;
  }

  lemma RetryEffects(s: RunState, e: Event, id: string, job: string)
    requires e.Retry?
    ensures var ids := RetryableAgents(s, e.target);
      && (Cancel(id, job) in Apply(s, e).effects
          <==> ids != [] && Cancel(id, job) in JobCancels(s.jobRuns, Retried(s.agents, ids)))
      && Retried(s.agents, ids) == Filter(s.agents, (a: Agent) => a.id in ids)
  {
    hide JobCancels, RetriedState, RetryableAgents;
  }
}
