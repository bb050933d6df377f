// Bringing a PR's runs in line with the PR (dispatch/src/reconcile/pr.ts), alone and in a race.
module Reconcile {
  import opened Domain

  // GitHub's view of the PR. `merged` is only ever true of a closed one.
  datatype Pull = Pull(
    open: bool, merged: bool, draft: bool, headSha: string, baseRef: string, defaultBranch: string,
    title: string)

  datatype IndexedRun = IndexedRun(id: string, headSha: string, status: RunStatus, prTitle: string, createdAt: int)

  predicate IsOpen(run: IndexedRun) {
    run.status == OnTheHill || run.status == Swept
  }

  // --- The newest run -----------------------------------------------------------------------

  // JavaScript's `<` on strings.
  predicate Before(a: string, b: string) {
    if b == "" then false
    else if a == "" then true
    else if a[0] != b[0] then a[0] < b[0]
    else Before(a[1..], b[1..])
  }

  predicate Later(x: IndexedRun, y: IndexedRun) {
    x.createdAt > y.createdAt || (x.createdAt == y.createdAt && Before(y.id, x.id))
  }

  function NewestFrom(best: Option<IndexedRun>, runs: seq<IndexedRun>): Option<IndexedRun>
    decreases runs
  {
    if runs == [] then best
    else NewestFrom(if best.None? || Later(runs[0], best.value) then Some(runs[0]) else best, runs[1..])
  }

  // pr.ts:222-232.
  function Newest(runs: seq<IndexedRun>): Option<IndexedRun> {
    NewestFrom(None, runs)
  }

  method FindNewest(runs: seq<IndexedRun>) returns (best: Option<IndexedRun>)
    ensures best == Newest(runs)
  {
    best := None;
    for k := 0 to |runs|
      invariant NewestFrom(best, runs[k..]) == Newest(runs)
    {
      assert runs[k..][0] == runs[k] && runs[k..][1..] == runs[k + 1..];
      if best.None? || Later(runs[k], best.value) {
        best := Some(runs[k]);
      }
    }
  }

  lemma {:induction false} BeforeTotal(a: string, b: string)
    ensures !(Before(a, b) && Before(b, a))
    ensures Before(a, b) || Before(b, a) || a == b
  {
    if a != "" && b != "" && a[0] == b[0] {
      BeforeTotal(a[1..], b[1..]);
      assert a == [a[0]] + a[1..] && b == [b[0]] + b[1..];
    }
  }

  lemma {:induction false} BeforeTransitive(a: string, b: string, c: string)
    requires Before(a, b) && Before(b, c)
    ensures Before(a, c)
  {
    if a != "" && a[0] == b[0] == c[0] {
      BeforeTransitive(a[1..], b[1..], c[1..]);
    }
  }

  lemma LaterTransitive(x: IndexedRun, y: IndexedRun, z: IndexedRun)
    requires Later(x, y) && Later(y, z)
    ensures Later(x, z)
  {
    if x.createdAt == z.createdAt {
      BeforeTransitive(z.id, y.id, x.id);
    }
  }

  // `a` and `b` first differ at place `p`, where `a` is the smaller or has ended.
  ghost predicate SmallerAt(a: string, b: string, p: nat) {
    p <= |a| && p < |b| && a[..p] == b[..p] && (p == |a| || a[p] < b[p])
  }

  lemma FirstSame(a: string, b: string, p: nat)
    requires SmallerAt(a, b, p) && p > 0
    ensures a != [] && b != [] && a[0] == b[0]
  {
    assert a[..p][0] == a[0] && b[..p][0] == b[0];
  }

  lemma {:induction false} BeforeIsSmaller(a: string, b: string)
    ensures Before(a, b) <==> exists p: nat :: SmallerAt(a, b, p)
  {
    if a != [] && b != [] && a[0] == b[0] {
      BeforeIsSmaller(a[1..], b[1..]);
      if p: nat :| SmallerAt(a[1..], b[1..], p) {
        assert a[..p + 1] == [a[0]] + a[1..][..p] && b[..p + 1] == [b[0]] + b[1..][..p];
        assert SmallerAt(a, b, p + 1);
      }
      if p: nat :| SmallerAt(a, b, p) {
        assert p > 0;
        assert a[1..][..p - 1] == a[..p][1..] && b[1..][..p - 1] == b[..p][1..];
        assert SmallerAt(a[1..], b[1..], p - 1);
      }
    } else {
      assert a == [] && b != [] ==> SmallerAt(a, b, 0);
      assert a != [] && b != [] && a[0] < b[0] ==> SmallerAt(a, b, 0);
      if p: nat :| SmallerAt(a, b, p) && p > 0 {
        FirstSame(a, b, p);
      }
    }
  }

  // A later run was created later, or at the same time under a greater id.
  lemma LaterMeans(x: IndexedRun, y: IndexedRun)
    ensures Later(x, y) <==>
      x.createdAt > y.createdAt || (x.createdAt == y.createdAt && exists p: nat :: SmallerAt(y.id, x.id, p))
  {
    BeforeIsSmaller(y.id, x.id);
  }

  lemma LaterTotal(x: IndexedRun, y: IndexedRun)
    ensures !(Later(x, y) && Later(y, x))
    ensures Later(x, y) || Later(y, x) || (x.id == y.id && x.createdAt == y.createdAt)
  {
    BeforeTotal(x.id, y.id);
  }

  // Run ids are the index's primary key.
  ghost predicate DistinctIds(runs: seq<IndexedRun>) {
    forall i, j | 0 <= i < j < |runs| :: runs[i].id != runs[j].id
  }

  ghost predicate Latest(run: IndexedRun, runs: seq<IndexedRun>) {
    run in runs && forall r | r in runs :: r == run || Later(run, r)
  }

  function HeadOf(best: Option<IndexedRun>): seq<IndexedRun> {
    if best.Some? then [best.value] else []
  }

  // The better of the best so far and the next run.
  function BetterOf(best: Option<IndexedRun>, run: IndexedRun): IndexedRun {
    if best.None? || Later(run, best.value) then run else best.value
  }

  lemma DistinctRest(best: Option<IndexedRun>, runs: seq<IndexedRun>)
    requires runs != [] && DistinctIds(HeadOf(best) + runs)
    ensures DistinctIds([BetterOf(best, runs[0])] + runs[1..])
  {
    var all, next := HeadOf(best) + runs, BetterOf(best, runs[0]);
    var rest := [next] + runs[1..];
    var shift := |HeadOf(best)|;
    hide Later;
    assert exists p :: 0 <= p <= shift && all[p] == next by {
      assert all[0] == next || all[shift] == next;
    }
    var p :| 0 <= p <= shift && all[p] == next;
    forall i, j | 0 <= i < j < |rest| ensures rest[i].id != rest[j].id {
      assert rest[j] == all[j + shift] && rest[i] == (if i == 0 then all[p] else all[i + shift]);
    }
  }

  lemma LatestOfAll(best: Option<IndexedRun>, runs: seq<IndexedRun>, r: IndexedRun)
    requires runs != [] && DistinctIds(HeadOf(best) + runs)
    requires Latest(r, [BetterOf(best, runs[0])] + runs[1..])
    ensures Latest(r, HeadOf(best) + runs)
  {
    var all, next := HeadOf(best) + runs, BetterOf(best, runs[0]);
    var rest := [next] + runs[1..];
    assert next in rest && (forall x | x in rest :: x in all);
    forall x | x in all ensures x == r || Later(r, x) {
      if x !in rest {
        assert x in HeadOf(best) || x == runs[0];
        BeatenBy(best, runs, x);
        if r != next {
          LaterTransitive(r, next, x);
        }
      }
    }
  }

  lemma BeatenBy(best: Option<IndexedRun>, runs: seq<IndexedRun>, x: IndexedRun)
    requires runs != [] && DistinctIds(HeadOf(best) + runs)
    requires (x in HeadOf(best) || x == runs[0]) && x != BetterOf(best, runs[0])
    ensures Later(BetterOf(best, runs[0]), x)
  {
    var all := HeadOf(best) + runs;
    assert best.Some? && all[0] == best.value && all[1] == runs[0];
    LaterTotal(runs[0], best.value);
    hide Later;
  }

  lemma {:induction false} NewestFromIsLatest(best: Option<IndexedRun>, runs: seq<IndexedRun>)
    requires DistinctIds(HeadOf(best) + runs)
    ensures match NewestFrom(best, runs) case None => HeadOf(best) + runs == []
      case Some(r) => Latest(r, HeadOf(best) + runs)
    decreases runs
  {
    if runs != [] {
      var next := Some(BetterOf(best, runs[0]));
      DistinctRest(best, runs);
      NewestFromIsLatest(next, runs[1..]);
      assert NewestFrom(best, runs) == NewestFrom(next, runs[1..]);
      hide DistinctIds, Latest, Later, NewestFrom;
      LatestOfAll(best, runs, NewestFrom(best, runs).value);
    }
  }

  // The newest run is the latest by start, then by id, whatever order they are read in.
  lemma NewestIsLatest(runs: seq<IndexedRun>)
    requires DistinctIds(runs)
    ensures match Newest(runs) case None => runs == [] case Some(r) => Latest(r, runs)
  {
    assert HeadOf(None) + runs == runs;
    NewestFromIsLatest(None, runs);
  }

  // --- One reconcile ------------------------------------------------------------------------

  type Index = map<string, IndexedRun>

  ghost predicate Keyed(runs: Index) {
    forall id | id in runs :: runs[id].id == id
  }

  predicate Listed(run: IndexedRun, openOnly: bool) {
    openOnly ==> IsOpen(run)
  }

  // A query's answer: the runs, or the open ones, each once and in whatever order.
  ghost predicate Lists(rows: seq<IndexedRun>, runs: Index, openOnly: bool) {
    && DistinctIds(rows)
    && (forall k | 0 <= k < |rows| :: rows[k].id in runs && runs[rows[k].id] == rows[k] && Listed(rows[k], openOnly))
    && forall id | id in runs && Listed(runs[id], openOnly) :: runs[id] in rows
  }

  function OnHead(runs: seq<IndexedRun>, headSha: string): seq<IndexedRun> {
    Filter(runs, (run: IndexedRun) => run.headSha == headSha)
  }

  predicate Patrolled(pull: Pull) {
    pull.open && !pull.draft && pull.baseRef == pull.defaultBranch
  }

  predicate Merged(pull: Pull) {
    !pull.open && pull.merged && pull.baseRef == pull.defaultBranch
  }

  // The run to land (pr.ts:80-87).
  function ToLand(pull: Pull, all: seq<IndexedRun>): Option<IndexedRun> {
    if Merged(pull) then
      var newest := Newest(OnHead(all, pull.headSha));
      if newest.Some? && newest.value.status == Landed then None else newest
    else None
  }

  function Live(landed: Option<IndexedRun>, open: seq<IndexedRun>): seq<IndexedRun> {
    Filter(open, (run: IndexedRun) => landed.None? || run.id != landed.value.id)
  }

  // What is asked of the runs the index has as open (pr.ts:88-109).
  datatype Plan = Plan(
    kept: Option<IndexedRun>, stale: seq<IndexedRun>, retitled: seq<IndexedRun>, repost: bool)

  function PlanOf(pull: Pull, landed: Option<IndexedRun>, open: seq<IndexedRun>): Plan {
    var live := Live(landed, open);
    var kept := if Patrolled(pull) then Newest(OnHead(live, pull.headSha)) else None;
    var stale := Filter(live, (run: IndexedRun) => kept != Some(run));
    Plan(kept, stale,
      if pull.open then Filter(live, (run: IndexedRun) => run.prTitle != pull.title) else [],
      kept.Some? && AnyOnHead(stale, kept.value.headSha))
  }

  predicate AnyOnHead(runs: seq<IndexedRun>, headSha: string) {
    exists k | 0 <= k < |runs| :: runs[k].headSha == headSha
  }

  lemma {:induction false} FilterDistinct(runs: seq<IndexedRun>, p: IndexedRun -> bool)
    requires DistinctIds(runs)
    ensures DistinctIds(Filter(runs, p))
  {
    if runs != [] {
      FilterDistinct(runs[1..], p);
      var rest := Filter(runs[1..], p);
      forall k | 0 <= k < |rest| ensures rest[k].id != runs[0].id {
        assert rest[k] in rest && rest[k] in runs[1..];
      }
    }
  }

  // Who survives: of a patrolled PR, the latest open run on its head; of any other, nobody.
  ghost predicate Survives(pull: Pull, open: seq<IndexedRun>, run: IndexedRun) {
    pull.open && !pull.draft && pull.baseRef == pull.defaultBranch && run in open && run.headSha == pull.headSha
    && forall r | r in open && r.headSha == pull.headSha :: r == run || Later(run, r)
  }

  lemma NewestSurvives(pull: Pull, open: seq<IndexedRun>, run: IndexedRun)
    requires DistinctIds(open) && Patrolled(pull)
    ensures Newest(OnHead(open, pull.headSha)) == Some(run) <==> Survives(pull, open, run)
  {
    var onHead := OnHead(open, pull.headSha);
    FilterDistinct(open, (r: IndexedRun) => r.headSha == pull.headSha);
    NewestIsLatest(onHead);
    if Survives(pull, open, run) {
      LaterTotal(Newest(onHead).value, run);
    }
  }

  // What lands is the latest run on the merged head, whatever its status short of landed.
  lemma LandsExactly(pull: Pull, all: seq<IndexedRun>, run: IndexedRun)
    requires DistinctIds(all)
    ensures ToLand(pull, all) == Some(run) <==>
      && !pull.open && pull.merged && pull.baseRef == pull.defaultBranch
      && run in all && run.headSha == pull.headSha && run.status != Landed
      && forall r | r in all && r.headSha == pull.headSha :: r == run || Later(run, r)
  {
    var onHead := OnHead(all, pull.headSha);
    FilterDistinct(all, (r: IndexedRun) => r.headSha == pull.headSha);
    NewestIsLatest(onHead);
    if run in onHead {
      LaterTotal(Newest(onHead).value, run);
    }
  }

  // A reconcile keeps exactly the survivor, stops every other open run, and retitles those whose
  // title is not the PR's, if the PR is open. The run it lands takes no part.
  lemma PlanExact(pull: Pull, landed: Option<IndexedRun>, open: seq<IndexedRun>, run: IndexedRun)
    requires DistinctIds(open)
    ensures var live := Live(landed, open);
      var plan := PlanOf(pull, landed, open);
      && (run in live <==> run in open && (landed.Some? ==> run.id != landed.value.id))
      && (plan.kept == Some(run) <==> Survives(pull, live, run))
      && (run in plan.stale <==> run in live && !Survives(pull, live, run))
      && (run in plan.retitled <==> pull.open && run in live && run.prTitle != pull.title)
  {
    FilterDistinct(open, (r: IndexedRun) => landed.None? || r.id != landed.value.id);
    if Patrolled(pull) {
      NewestSurvives(pull, Live(landed, open), run);
    }
  }

  // A repost is asked of the kept run exactly when the reconcile stops a run on the PR's head.
  lemma RepostExact(pull: Pull, landed: Option<IndexedRun>, open: seq<IndexedRun>)
    requires DistinctIds(open)
    ensures var plan := PlanOf(pull, landed, open);
      plan.repost <==>
        && pull.open && !pull.draft && pull.baseRef == pull.defaultBranch
        && exists k | 0 <= k < |plan.stale| :: plan.stale[k].headSha == pull.headSha
  {
    var plan := PlanOf(pull, landed, open);
    var live := Live(landed, open);
    KeptOnHead(pull, landed, open);
    if Patrolled(pull) && AnyOnHead(plan.stale, pull.headSha) {
      var k :| 0 <= k < |plan.stale| && plan.stale[k].headSha == pull.headSha;
      assert plan.stale[k] in live;
      assert plan.stale[k] in OnHead(live, pull.headSha);
    }
  }

  lemma KeptOnHead(pull: Pull, landed: Option<IndexedRun>, open: seq<IndexedRun>)
    requires DistinctIds(open)
    ensures var kept := PlanOf(pull, landed, open).kept;
      && (kept.Some? ==> Patrolled(pull) && kept.value.headSha == pull.headSha)
      && (kept.None? && Patrolled(pull) ==> OnHead(Live(landed, open), pull.headSha) == [])
  {
    var live := Live(landed, open);
    FilterDistinct(open, (r: IndexedRun) => landed.None? || r.id != landed.value.id);
    FilterDistinct(live, (r: IndexedRun) => r.headSha == pull.headSha);
    NewestIsLatest(OnHead(live, pull.headSha));
  }

  // --- The runs it leaves -------------------------------------------------------------------

  // What a run's own object does with what is asked of it (machine.ts: LandRun, StopRun, OnRetitled).
  function LandedRun(run: IndexedRun): IndexedRun {
    run.(status := Landed)
  }

  function StoppedRun(run: IndexedRun): IndexedRun {
    if IsOpen(run) then run.(status := Stopped) else run
  }

  function RetitledRun(run: IndexedRun, title: string): IndexedRun {
    run.(prTitle := title)
  }

  // The run as a reconcile leaves it.
  function LeftBy(pull: Pull, landed: Option<IndexedRun>, plan: Plan, run: IndexedRun): IndexedRun {
    if landed == Some(run) then LandedRun(run)
    else
      var titled := if run in plan.retitled then RetitledRun(run, pull.title) else run;
      if run in plan.stale then StoppedRun(titled) else titled
  }

  function Reconciled(pull: Pull, landed: Option<IndexedRun>, plan: Plan, runs: Index): Index {
    map id | id in runs :: LeftBy(pull, landed, plan, runs[id])
  }

  function WithLanded(landed: Option<IndexedRun>, runs: Index): Index {
    if landed.Some? then runs[landed.value.id := LandedRun(landed.value)] else runs
  }

  // findOpenRuns's answer, read after the landing has been asked for: the row of the run landed may
  // say so, or not yet.
  ghost predicate AnswersOpen(open: seq<IndexedRun>, landed: Option<IndexedRun>, runs: Index) {
    Lists(open, runs, true) || Lists(open, WithLanded(landed, runs), true)
  }

  // Either way it lists the open runs other than the one landed.
  ghost predicate ListsOthers(open: seq<IndexedRun>, landed: Option<IndexedRun>, runs: Index) {
    && DistinctIds(open)
    && (forall k | 0 <= k < |open| && !Lands(landed, open[k].id) ::
          open[k].id in runs && runs[open[k].id] == open[k] && IsOpen(open[k]))
    && forall id | id in runs && IsOpen(runs[id]) && !Lands(landed, id) :: runs[id] in open
  }

  predicate Lands(landed: Option<IndexedRun>, id: string) {
    landed.Some? && landed.value.id == id
  }

  lemma AnswerListsOthers(open: seq<IndexedRun>, landed: Option<IndexedRun>, runs: Index)
    requires AnswersOpen(open, landed, runs)
    ensures ListsOthers(open, landed, runs)
  {
    var later := WithLanded(landed, runs);
    assert forall id | id in later && !Lands(landed, id) :: id in runs && later[id] == runs[id];
    forall id | id in runs && IsOpen(runs[id]) && !Lands(landed, id) ensures runs[id] in open {
      assert id in later && later[id] == runs[id];
    }
  }

  // The PR's runs, each in its own object. Every row is up to date, so the index and the objects are
  // one map here; `Race` is where they differ.
  class PrRuns {
    var runs: Index

    constructor (runs: Index)
      ensures this.runs == runs
    {
      this.runs := runs;
    }

    method Land(id: string)
      requires id in runs
      modifies this
      ensures runs == old(runs)[id := LandedRun(old(runs)[id])]
    {
      runs := runs[id := runs[id].(status := Landed)];
    }

    method Stop(id: string)
      requires id in runs
      modifies this
      ensures runs == old(runs)[id := StoppedRun(old(runs)[id])]
    {
      if IsOpen(runs[id]) {
        runs := runs[id := runs[id].(status := Stopped)];
      }
    }

    method Retitle(id: string, title: string)
      requires id in runs
      modifies this
      ensures runs == old(runs)[id := RetitledRun(old(runs)[id], title)]
    {
      runs := runs[id := runs[id].(prTitle := title)];
    }

    method LandMerged(pull: Pull, all: seq<IndexedRun>) returns (landed: Option<IndexedRun>)
      requires Lists(all, runs, false)
      modifies this
      ensures landed == ToLand(pull, all)
      ensures landed.Some? ==> landed.value.id in old(runs) && old(runs)[landed.value.id] == landed.value
      ensures runs == WithLanded(landed, old(runs))
    {
      landed := None;
      if Merged(pull) {
        landed := FindNewest(OnHead(all, pull.headSha));
        if landed.Some? && landed.value.status == RunStatus.Landed {
          landed := None;
        }
        LandedIsRun(pull, all, runs);
        if landed.Some? {
          Land(landed.value.id);
        }
      }
    }

    // The retitle and the stop of each live run (pr.ts:98-104), here in turn: they touch a run each.
    method AskEach(pull: Pull, landed: Option<IndexedRun>, plan: Plan, live: seq<IndexedRun>, ghost was: Index)
      requires AllLive(live, landed, was)
      requires runs == Partly(pull, landed, plan, was, {})
      modifies this
      ensures runs == Partly(pull, landed, plan, was, IdsOf(live))
    {
      for k := 0 to |live|
        invariant runs == Partly(pull, landed, plan, was, IdsOf(live[..k]))
      {
        var run := live[k];
        NotBefore(live, k);
        PartlyNext(pull, landed, plan, was, IdsOf(live[..k]), run);
        hide Partly, IdsOf, AllLive;
        if run in plan.retitled {
          Retitle(run.id, pull.title);
        }
        if run in plan.stale {
          Stop(run.id);
        }
      }
      assert live[..|live|] == live;
    }

    // `all` is what findPrRuns answers and `open` what findOpenRuns does (pr.ts:72-110). The run just
    // landed takes no part, whether or not its row still says open.
    method ReconcilePr(pull: Pull, all: seq<IndexedRun>, open: seq<IndexedRun>)
      returns (landed: Option<IndexedRun>, plan: Plan)
      requires Keyed(runs) && Lists(all, runs, false) && AnswersOpen(open, ToLand(pull, all), runs)
      modifies this
      ensures landed == ToLand(pull, all) && plan == PlanOf(pull, landed, open)
      ensures runs == Reconciled(pull, landed, plan, old(runs))
    {
      landed := LandMerged(pull, all);
      plan := PlanOf(pull, landed, open);
      AnswerListsOthers(open, landed, old(runs));
      LiveListed(landed, open, old(runs));
      LeaveOthers(pull, landed, open, old(runs));
      hide *;
      PartlyLanded(pull, landed, plan, old(runs));
      AskEach(pull, landed, plan, Live(landed, open), old(runs));
    }
  }

  ghost predicate AllLive(live: seq<IndexedRun>, landed: Option<IndexedRun>, runs: Index) {
    && DistinctIds(live)
    && forall k | 0 <= k < |live| :: live[k].id in runs && runs[live[k].id] == live[k] && IsOpen(live[k])
         && landed != Some(live[k])
  }

  // The runs once those with an id in `done` have been seen to.
  function Partly(pull: Pull, landed: Option<IndexedRun>, plan: Plan, runs: Index, done: set<string>): Index {
    map id | id in runs ::
      if id in done || landed == Some(runs[id]) then LeftBy(pull, landed, plan, runs[id]) else runs[id]
  }

  lemma PartlyLanded(pull: Pull, landed: Option<IndexedRun>, plan: Plan, runs: Index)
    requires Keyed(runs) && (landed.Some? ==> landed.value.id in runs && runs[landed.value.id] == landed.value)
    ensures Partly(pull, landed, plan, runs, {})
      == WithLanded(landed, runs)
  {
  }

  lemma PartlyNext(pull: Pull, landed: Option<IndexedRun>, plan: Plan, runs: Index, done: set<string>, run: IndexedRun)
    requires run.id in runs && runs[run.id] == run && run.id !in done && landed != Some(run)
    ensures var part := Partly(pull, landed, plan, runs, done);
      var next := Partly(pull, landed, plan, runs, done + {run.id});
      var titled := if run in plan.retitled then part[run.id := RetitledRun(run, pull.title)] else part;
      && part[run.id] == run && titled.Keys == part.Keys == runs.Keys
      && next == if run in plan.stale then titled[run.id := StoppedRun(titled[run.id])] else titled
  {
  }

  function IdsOf(runs: seq<IndexedRun>): (r: set<string>)
    ensures forall k | 0 <= k < |runs| :: runs[k].id in r
    ensures forall id | id in r :: exists k :: 0 <= k < |runs| && runs[k].id == id
  {
    set k | 0 <= k < |runs| :: runs[k].id
  }

  lemma NotBefore(live: seq<IndexedRun>, k: nat)
    requires k < |live| && DistinctIds(live)
    ensures live[k].id !in IdsOf(live[..k])
    ensures IdsOf(live[..k + 1]) == IdsOf(live[..k]) + {live[k].id}
  {
    assert live[..k + 1] == live[..k] + [live[k]];
    assert forall j | 0 <= j < k :: live[..k][j] == live[..k + 1][j];
    assert live[..k + 1][k] == live[k];
  }

  lemma LandedIsRun(pull: Pull, all: seq<IndexedRun>, runs: Index)
    requires Lists(all, runs, false)
    ensures var landed := ToLand(pull, all);
      landed.Some? ==> landed.value.id in runs && runs[landed.value.id] == landed.value
  {
    if Merged(pull) {
      FilterDistinct(all, (r: IndexedRun) => r.headSha == pull.headSha);
      NewestIsLatest(OnHead(all, pull.headSha));
    }
  }

  lemma LiveListed(landed: Option<IndexedRun>, open: seq<IndexedRun>, runs: Index)
    requires ListsOthers(open, landed, runs)
    ensures AllLive(Live(landed, open), landed, runs)
  {
    FilterDistinct(open, (r: IndexedRun) => landed.None? || r.id != landed.value.id);
    var live := Live(landed, open);
    forall k | 0 <= k < |live|
      ensures live[k].id in runs && runs[live[k].id] == live[k] && IsOpen(live[k]) && landed != Some(live[k])
    {
      assert live[k] in live;
      assert live[k] in open;
      assert !Lands(landed, live[k].id);
    }
  }

  // A run that is not among the live ones is asked nothing.
  lemma LeaveOthers(pull: Pull, landed: Option<IndexedRun>, open: seq<IndexedRun>, runs: Index)
    requires Keyed(runs) && ListsOthers(open, landed, runs)
    ensures var plan := PlanOf(pull, landed, open);
      Partly(pull, landed, plan, runs, IdsOf(Live(landed, open))) == Reconciled(pull, landed, plan, runs)
  {
    var plan := PlanOf(pull, landed, open);
    forall id | id in runs && id !in IdsOf(Live(landed, open)) && landed != Some(runs[id])
      ensures LeftBy(pull, landed, plan, runs[id]) == runs[id]
    {
      assert runs[id] !in Live(landed, open);
      PlanExact(pull, landed, open, runs[id]);
    }
  }

  predicate OpenBeside(landed: Option<IndexedRun>, run: IndexedRun) {
    (run.status == OnTheHill || run.status == Swept) && !Lands(landed, run.id)
  }

  // The run stays: the PR is patrolled, and of the open runs on its head that do not land this one started
  // last.
  ghost predicate Stays(pull: Pull, landed: Option<IndexedRun>, runs: Index, id: string) {
    && id in runs && pull.open && !pull.draft && pull.baseRef == pull.defaultBranch
    && runs[id].headSha == pull.headSha
    && forall other | other in runs && OpenBeside(landed, runs[other]) && runs[other].headSha == pull.headSha ::
         other == id || Later(runs[id], runs[other])
  }

  lemma StaysSurvives(pull: Pull, landed: Option<IndexedRun>, open: seq<IndexedRun>, runs: Index, id: string)
    requires Keyed(runs) && ListsOthers(open, landed, runs)
    requires id in runs && IsOpen(runs[id]) && !Lands(landed, id)
    ensures Survives(pull, Live(landed, open), runs[id]) <==> Stays(pull, landed, runs, id)
  {
    var live := Live(landed, open);
    assert forall other | other in runs && IsOpen(runs[other]) && !Lands(landed, other) :: runs[other] in live;
    forall r | r in live ensures r.id in runs && runs[r.id] == r && IsOpen(r) && !Lands(landed, r.id) {
      assert r in open;
    }
    hide Live, Later;
    if Survives(pull, live, runs[id]) {
      forall other | other in runs && OpenBeside(landed, runs[other]) && runs[other].headSha == pull.headSha
        ensures other == id || Later(runs[id], runs[other])
      {
        assert runs[other] in live;
      }
    }
  }

  // What a reconcile leaves of every run: the one it lands has landed; an ended one is as it was; an open
  // one has an open PR's title, and is stopped unless it stays.
  lemma ReconcileLeaves(pull: Pull, landed: Option<IndexedRun>, open: seq<IndexedRun>, runs: Index, id: string)
    requires Keyed(runs) && ListsOthers(open, landed, runs) && id in runs
    requires landed.Some? ==> landed.value.id in runs && runs[landed.value.id] == landed.value
    ensures var run, now := runs[id], LeftBy(pull, landed, PlanOf(pull, landed, open), runs[id]);
      if Lands(landed, id) then now == run.(status := Landed)
      else if !IsOpen(run) then now == run
      else now == run.(prTitle := if pull.open then pull.title else run.prTitle,
                       status := if Stays(pull, landed, runs, id) then run.status else Stopped)
  {
    var run := runs[id];
    PlanExact(pull, landed, open, run);
    assert run in Live(landed, open) ==> run in open && !Lands(landed, id);
    if !Lands(landed, id) && IsOpen(run) {
      StaysSurvives(pull, landed, open, runs, id);
      assert run in Live(landed, open);
    }
    hide PlanOf, Survives, Stays, Live;
  }

  // --- Again --------------------------------------------------------------------------------

  lemma {:induction false} LeftOpen(pull: Pull, landed: Option<IndexedRun>, open: seq<IndexedRun>, runs: Index,
                                    id: string)
    requires Keyed(runs) && ListsOthers(open, landed, runs) && id in runs
    requires landed.Some? ==> landed.value.id in runs && runs[landed.value.id] == landed.value
    ensures var now := LeftBy(pull, landed, PlanOf(pull, landed, open), runs[id]);
      && now.id == id && now.headSha == runs[id].headSha && now.createdAt == runs[id].createdAt
      && (IsOpen(now) ==> Survives(pull, Live(landed, open), runs[id]) && (pull.open ==> now.prTitle == pull.title))
  {
    var plan := PlanOf(pull, landed, open);
    PlanExact(pull, landed, open, runs[id]);
  }

  lemma SurvivorStays(pull: Pull, landed: Option<IndexedRun>, open: seq<IndexedRun>, runs: Index, id: string)
    requires Keyed(runs) && ListsOthers(open, landed, runs) && id in runs
    requires Survives(pull, Live(landed, open), runs[id])
    ensures IsOpen(LeftBy(pull, landed, PlanOf(pull, landed, open), runs[id]))
  {
    PlanExact(pull, landed, open, runs[id]);
  }

  // Safe to repeat: after a reconcile, another against the same PR state lands, stops and retitles
  // nothing, whatever order the queries answer in, so it leaves every run as it is.
  lemma ReconcileSettles(pull: Pull, all: seq<IndexedRun>, open: seq<IndexedRun>, runs: Index,
    all': seq<IndexedRun>, open': seq<IndexedRun>)
    requires Keyed(runs) && Lists(all, runs, false) && AnswersOpen(open, ToLand(pull, all), runs)
    requires var landed := ToLand(pull, all);
      var after := Reconciled(pull, landed, PlanOf(pull, landed, open), runs);
      Lists(all', after, false) && Lists(open', after, true)
    ensures ToLand(pull, all') == None
    ensures var plan := PlanOf(pull, None, open'); plan.stale == [] && plan.retitled == [] && !plan.repost
  {
    AnswerListsOthers(open, ToLand(pull, all), runs);
    LandsOnce(pull, all, open, runs, all');
    var again := PlanOf(pull, None, open');
    forall k | 0 <= k < |open'| ensures open'[k] !in again.stale && open'[k] !in again.retitled {
      OpenSettled(pull, all, open, runs, open', k);
      PlanExact(pull, None, open', open'[k]);
    }
    StaleIsOpen(pull, open');
    hide PlanOf;
  }

  lemma StaleIsOpen(pull: Pull, open: seq<IndexedRun>)
    ensures var plan := PlanOf(pull, None, open);
      && (plan.stale == [] || exists k :: 0 <= k < |open| && open[k] in plan.stale)
      && (plan.retitled == [] || exists k :: 0 <= k < |open| && open[k] in plan.retitled)
      && (plan.stale == [] ==> !plan.repost)
  {
    var plan := PlanOf(pull, None, open);
    if plan.stale != [] {
      assert plan.stale[0] in plan.stale;
    }
    if plan.retitled != [] {
      assert plan.retitled[0] in plan.retitled;
    }
  }

  // What is still open after a reconcile is the survivor, under its right title.
  lemma OpenSettled(pull: Pull, all: seq<IndexedRun>, open: seq<IndexedRun>, runs: Index,
    open': seq<IndexedRun>, k: nat)
    requires Keyed(runs) && Lists(all, runs, false) && ListsOthers(open, ToLand(pull, all), runs) && k < |open'|
    requires var landed := ToLand(pull, all);
      Lists(open', Reconciled(pull, landed, PlanOf(pull, landed, open), runs), true)
    ensures Survives(pull, open', open'[k]) && (pull.open ==> open'[k].prTitle == pull.title)
  {
    var landed := ToLand(pull, all);
    LandedIsRun(pull, all, runs);
    var run := open'[k];
    hide ToLand, PlanOf, Live;
    LeftOpen(pull, landed, open, runs, run.id);
    forall r | r in open' && r.headSha == pull.headSha ensures r == run || Later(run, r) {
      LeftOpen(pull, landed, open, runs, r.id);
    }
  }

  // Every run of `xs` is in `ys` too, whatever its status and title there.
  ghost predicate Matched(xs: seq<IndexedRun>, ys: seq<IndexedRun>) {
    forall x | x in xs :: exists y :: y in ys && y.id == x.id && y.createdAt == x.createdAt
  }

  lemma MatchedEmpty(xs: seq<IndexedRun>, ys: seq<IndexedRun>)
    requires Matched(xs, ys)
    ensures ys == [] ==> xs == []
  {
    if xs != [] {
      assert xs[0] in xs;
    }
  }

  lemma BelowLatest(xs: seq<IndexedRun>, ys: seq<IndexedRun>, x: IndexedRun, y: IndexedRun)
    requires x in xs && Matched(xs, ys) && Latest(y, ys)
    ensures x.id == y.id || Later(y, x)
  {
    var r :| r in ys && r.id == x.id && r.createdAt == x.createdAt;
    hide Matched;
  }

  lemma LatestSame(xs: seq<IndexedRun>, ys: seq<IndexedRun>, x: IndexedRun, y: IndexedRun)
    requires Latest(x, xs) && Latest(y, ys) && Matched(xs, ys) && Matched(ys, xs)
    ensures x.id == y.id
  {
    hide Matched;
    BelowLatest(xs, ys, x, y);
    BelowLatest(ys, xs, y, x);
    hide Latest;
    LaterTotal(x, y);
  }

  // Newest does not depend on the order of the runs, nor on their status and title.
  lemma NewestSame(xs: seq<IndexedRun>, ys: seq<IndexedRun>)
    requires DistinctIds(xs) && DistinctIds(ys)
    requires Matched(xs, ys) && Matched(ys, xs)
    ensures Newest(xs).None? <==> Newest(ys).None?
    ensures Newest(xs).Some? ==> Newest(xs).value.id == Newest(ys).value.id
  {
    NewestIsLatest(xs);
    NewestIsLatest(ys);
    hide Newest, DistinctIds, Matched, Latest;
    if xs != [] && ys != [] {
      LatestSame(xs, ys, Newest(xs).value, Newest(ys).value);
    }
    MatchedEmpty(xs, ys);
    MatchedEmpty(ys, xs);
  }

  lemma LandsOnce(pull: Pull, all: seq<IndexedRun>, open: seq<IndexedRun>, runs: Index, all': seq<IndexedRun>)
    requires Keyed(runs) && Lists(all, runs, false) && ListsOthers(open, ToLand(pull, all), runs)
    requires var landed := ToLand(pull, all);
      Lists(all', Reconciled(pull, landed, PlanOf(pull, landed, open), runs), false)
    ensures ToLand(pull, all') == None
  {
    if Merged(pull) {
      SameNewest(pull, all, open, runs, all');
      if Newest(OnHead(all', pull.headSha)).Some? {
        NewestListed(all, pull.headSha);
        NewestListed(all', pull.headSha);
        NewestLands(pull, all, open, runs);
      }
    }
  }

  lemma NewestListed(all: seq<IndexedRun>, headSha: string)
    requires DistinctIds(all)
    ensures var newest := Newest(OnHead(all, headSha)); newest.Some? ==> newest.value in all
  {
    FilterDistinct(all, (r: IndexedRun) => r.headSha == headSha);
    NewestIsLatest(OnHead(all, headSha));
  }

  lemma NewestLands(pull: Pull, all: seq<IndexedRun>, open: seq<IndexedRun>, runs: Index)
    requires Lists(all, runs, false) && ListsOthers(open, ToLand(pull, all), runs)
    requires Merged(pull) && Newest(OnHead(all, pull.headSha)).Some?
    ensures var landed, newest := ToLand(pull, all), Newest(OnHead(all, pull.headSha)).value;
      LeftBy(pull, landed, PlanOf(pull, landed, open), newest).status == RunStatus.Landed
  {
    PlanExact(pull, ToLand(pull, all), open, Newest(OnHead(all, pull.headSha)).value);
  }

  lemma SameNewest(pull: Pull, all: seq<IndexedRun>, open: seq<IndexedRun>, runs: Index, all': seq<IndexedRun>)
    requires Keyed(runs) && Lists(all, runs, false) && ListsOthers(open, ToLand(pull, all), runs)
    requires var landed := ToLand(pull, all);
      Lists(all', Reconciled(pull, landed, PlanOf(pull, landed, open), runs), false)
    ensures var newest, newest' := Newest(OnHead(all, pull.headSha)), Newest(OnHead(all', pull.headSha));
      (newest.None? <==> newest'.None?) && (newest.Some? ==> newest.value.id == newest'.value.id)
  {
    SameHeads(pull, all, open, runs, all');
    FilterDistinct(all, (r: IndexedRun) => r.headSha == pull.headSha);
    FilterDistinct(all', (r: IndexedRun) => r.headSha == pull.headSha);
    hide PlanOf, Newest, ToLand;
    NewestSame(OnHead(all, pull.headSha), OnHead(all', pull.headSha));
  }

  lemma HeadsKept(pull: Pull, all: seq<IndexedRun>, open: seq<IndexedRun>, runs: Index, all': seq<IndexedRun>)
    requires Keyed(runs) && Lists(all, runs, false) && ListsOthers(open, ToLand(pull, all), runs)
    requires var landed := ToLand(pull, all);
      Lists(all', Reconciled(pull, landed, PlanOf(pull, landed, open), runs), false)
    ensures Matched(OnHead(all, pull.headSha), OnHead(all', pull.headSha))
  {
    var landed := ToLand(pull, all);
    var after := Reconciled(pull, landed, PlanOf(pull, landed, open), runs);
    var onHead, onHead' := OnHead(all, pull.headSha), OnHead(all', pull.headSha);
    LandedIsRun(pull, all, runs);
    hide PlanOf, ToLand, Newest;
    forall x | x in onHead ensures exists y :: y in onHead' && y.id == x.id && y.createdAt == x.createdAt {
      LeftOpen(pull, landed, open, runs, x.id);
      assert after[x.id] in all';
    }
  }

  lemma SameHeads(pull: Pull, all: seq<IndexedRun>, open: seq<IndexedRun>, runs: Index, all': seq<IndexedRun>)
    requires Keyed(runs) && Lists(all, runs, false) && ListsOthers(open, ToLand(pull, all), runs)
    requires var landed := ToLand(pull, all);
      Lists(all', Reconciled(pull, landed, PlanOf(pull, landed, open), runs), false)
    ensures var onHead, onHead' := OnHead(all, pull.headSha), OnHead(all', pull.headSha);
      Matched(onHead, onHead') && Matched(onHead', onHead)
  {
    HeadsKept(pull, all, open, runs, all');
    var landed := ToLand(pull, all);
    var onHead, onHead' := OnHead(all, pull.headSha), OnHead(all', pull.headSha);
    LandedIsRun(pull, all, runs);
    hide PlanOf, ToLand, Newest;
    forall y | y in onHead' ensures exists x :: x in onHead && x.id == y.id && x.createdAt == y.createdAt {
      LeftOpen(pull, landed, open, runs, y.id);
      assert runs[y.id] in all;
    }
  }
}
