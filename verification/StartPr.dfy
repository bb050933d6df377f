// The start path of a PR's head (dispatch/src/reconcile/pr.ts:114-176).
module StartPr {
  import opened Domain
  import opened Reconcile

  // A changed file, as the globs see it.
  datatype File = File(unpatrolled: bool, refresh: bool)

  // The event's head, and whether its author is the refresh workflow.
  datatype PrEvent = PrEvent(headSha: string, byRefresh: bool)

  datatype Reason = Stale | Draft | Base | Duplicate | Unpatrolled | Author

  // `GitHubFailed` is a GitHub call that failed.
  datatype Started = Ran(runId: string) | Ignored(reason: Reason) | GitHubFailed

  // The answers of findPrRuns and findOpenRuns, in an order of the database's own.
  type Query = (Index, bool) -> seq<IndexedRun>

  ghost predicate Answers(query: Query) {
    forall runs, openOnly :: Keyed(runs) ==> Lists(query(runs, openOnly), runs, openOnly)
  }

  // The runs as a reconcile against `pull` leaves them.
  function ReconciledBy(query: Query, pull: Pull, runs: Index): Index {
    var landed := ToLand(pull, query(runs, false));
    Reconciled(pull, landed, PlanOf(pull, landed, query(WithLanded(landed, runs), true)), runs)
  }

  // As reconcileAfter leaves them: GitHub's PR is read anew, and a failed read stops nothing.
  function ReconciledAfter(query: Query, again: Option<Pull>, runs: Index): Index {
    if again.None? then runs else ReconciledBy(query, again.value, runs)
  }

  // What GitHub answers on the way; None is a failed call.
  datatype GitHubAnswers = GitHubAnswers(
    live: Option<Pull>, files: Option<seq<File>>, posted: bool, again: Option<Pull>)

  predicate AnyUnpatrolled(files: seq<File>) {
    exists k | 0 <= k < |files| :: files[k].unpatrolled
  }

  predicate AllRefresh(files: seq<File>) {
    forall k | 0 <= k < |files| :: files[k].refresh
  }

  // Whether an event starts a run: its head is the PR's, the PR is patrolled, no open run is on the
  // head already unless the PR was retargeted, and its files call for one.
  predicate CallsForRun(pr: PrEvent, a: GitHubAnswers, retarget: bool, open: seq<IndexedRun>) {
    && a.live.Some? && Patrolled(a.live.value) && a.live.value.headSha == pr.headSha
    && (retarget || !exists k | 0 <= k < |open| :: open[k].headSha == pr.headSha)
    && a.files.Some? && (forall k | 0 <= k < |a.files.value| :: !a.files.value[k].unpatrolled)
    && (pr.byRefresh ==> a.files.value != [] && forall k | 0 <= k < |a.files.value| :: a.files.value[k].refresh)
  }

  // The event's head is still the live PR's.
  predicate Current(pr: PrEvent, a: GitHubAnswers) {
    a.live.Some? && a.live.value.open && a.live.value.headSha == pr.headSha
  }

  // The head is the live PR's, patrolled, and wants a run: its files are read.
  predicate Wanted(pr: PrEvent, a: GitHubAnswers, retarget: bool, open: seq<IndexedRun>) {
    Current(pr, a) && Patrolled(a.live.value)
    && (retarget || !exists k | 0 <= k < |open| :: open[k].headSha == pr.headSha)
  }

  // The refresh workflow may change trail names and nothing else.
  predicate Overreaches(pr: PrEvent, files: seq<File>) {
    pr.byRefresh && (files == [] || exists k | 0 <= k < |files| :: !files[k].refresh)
  }

  // When an event is ignored for a reason.
  predicate IgnoredFor(reason: Reason, pr: PrEvent, a: GitHubAnswers, retarget: bool, open: seq<IndexedRun>) {
    match reason
    case Stale => a.live.Some? && !Current(pr, a)
    case Draft => Current(pr, a) && a.live.value.draft
    case Base => Current(pr, a) && !a.live.value.draft && a.live.value.baseRef != a.live.value.defaultBranch
    case Duplicate =>
      Current(pr, a) && Patrolled(a.live.value) && !retarget
      && exists k | 0 <= k < |open| :: open[k].headSha == pr.headSha
    case Author => Wanted(pr, a, retarget, open) && a.files.Some? && Overreaches(pr, a.files.value)
    case Unpatrolled =>
      && Wanted(pr, a, retarget, open) && a.files.Some? && !Overreaches(pr, a.files.value)
      && (exists k | 0 <= k < |a.files.value| :: a.files.value[k].unpatrolled) && a.posted
  }

  // When a failed call ends the start: the PR cannot be read, or the files it wants, or the neutral check
  // it calls for cannot be posted.
  predicate CallFails(pr: PrEvent, a: GitHubAnswers, retarget: bool, open: seq<IndexedRun>) {
    a.live.None? || (Wanted(pr, a, retarget, open) && (a.files.None?
      || (!Overreaches(pr, a.files.value) && !a.posted
          && exists k | 0 <= k < |a.files.value| :: a.files.value[k].unpatrolled)))
  }

  method ReconcileAfter(prRuns: PrRuns, query: Query, again: Option<Pull>)
    requires Keyed(prRuns.runs) && Answers(query)
    modifies prRuns
    ensures prRuns.runs == ReconciledAfter(query, again, old(prRuns.runs))
  {
    if again.Some? {
      var all := query(prRuns.runs, false);
      var toLand := ToLand(again.value, all);
      LandedIsRun(again.value, all, prRuns.runs);
      var open := query(WithLanded(toLand, prRuns.runs), true);
      var landed, plan := prRuns.ReconcilePr(again.value, all, open);
    }
  }

  lemma KeyedWith(runs: Index, run: IndexedRun)
    requires Keyed(runs)
    ensures Keyed(runs[run.id := run])
  {
  }

  // `run` is the run that is started, if one is.
  method Begin(prRuns: PrRuns, query: Query, pr: PrEvent, a: GitHubAnswers, retarget: bool, run: IndexedRun)
    returns (r: Started)
    requires Keyed(prRuns.runs) && Answers(query)
    requires run.id !in prRuns.runs && run.headSha == pr.headSha && run.status == OnTheHill
    modifies prRuns
    ensures r.Ran? <==> CallsForRun(pr, a, retarget, query(old(prRuns.runs), true))
    ensures r.Ran? ==>
      r.runId == run.id && prRuns.runs == ReconciledAfter(query, a.again, old(prRuns.runs)[run.id := run])
    ensures forall reason ::
      r == Ignored(reason) <==> IgnoredFor(reason, pr, a, retarget, query(old(prRuns.runs), true))
    ensures r.GitHubFailed? <==> CallFails(pr, a, retarget, query(old(prRuns.runs), true))
    ensures r.GitHubFailed? ==> prRuns.runs == old(prRuns.runs)
    ensures r.Ignored? ==>
      match r.reason
      case Unpatrolled => a.posted && prRuns.runs == ReconciledAfter(query, a.again, old(prRuns.runs))
      case Draft => a.live.Some? && a.live.value.draft
        && prRuns.runs == ReconciledBy(query, a.live.value, old(prRuns.runs))
      case Base => a.live.Some? && a.live.value.baseRef != a.live.value.defaultBranch
        && prRuns.runs == ReconciledBy(query, a.live.value, old(prRuns.runs))
      case _ => prRuns.runs == old(prRuns.runs)
  {
    hide ReconciledBy, Answers, Keyed;
    if a.live.None? {
      return GitHubFailed;
    }
    var live := a.live.value;
    if !live.open || live.headSha != pr.headSha {
      return Ignored(Stale);
    }
    if live.draft {
      ReconcileAfter(prRuns, query, a.live);
      return Ignored(Draft);
    }
    if live.baseRef != live.defaultBranch {
      ReconcileAfter(prRuns, query, a.live);
      return Ignored(Base);
    }
    if !retarget && AnyOnHead(query(prRuns.runs, true), pr.headSha) {
      return Ignored(Duplicate);
    }
    if a.files.None? {
      return GitHubFailed;
    }
    if pr.byRefresh && (a.files.value == [] || !AllRefresh(a.files.value)) {
      return Ignored(Author);
    }
    if AnyUnpatrolled(a.files.value) {
      if !a.posted {
        return GitHubFailed;
      }
      ReconcileAfter(prRuns, query, a.again);
      return Ignored(Unpatrolled);
    }
    KeyedWith(prRuns.runs, run);
    prRuns.runs := prRuns.runs[run.id := run];
    ReconcileAfter(prRuns, query, a.again);
    return Ran(run.id);
  }

  // Of a patrolled PR's runs, the survivor is the open one on the head that started last.
  ghost predicate LatestOpen(pull: Pull, runs: Index, id: string) {
    && id in runs && IsOpen(runs[id]) && runs[id].headSha == pull.headSha
    && forall other | other in runs && IsOpen(runs[other]) && runs[other].headSha == pull.headSha ::
         other == id || Later(runs[id], runs[other])
  }

  lemma SurvivesLatest(pull: Pull, open: seq<IndexedRun>, runs: Index, id: string)
    requires Patrolled(pull) && Keyed(runs) && Lists(open, runs, true) && id in runs
    ensures Survives(pull, Live(None, open), runs[id]) <==> LatestOpen(pull, runs, id)
  {
    if Survives(pull, Live(None, open), runs[id]) {
      forall other | other in runs && IsOpen(runs[other]) && runs[other].headSha == pull.headSha
        ensures other == id || Later(runs[id], runs[other])
      {
        assert runs[other] in Live(None, open);
      }
    }
    if LatestOpen(pull, runs, id) {
      assert runs[id] in Live(None, open);
      forall r | r in Live(None, open) && r.headSha == pull.headSha ensures r == runs[id] || Later(runs[id], r) {
        assert runs[r.id] == r;
      }
    }
  }

  // A reconcile of a patrolled PR leaves open exactly the latest of its open runs on the head, under
  // the PR's title.
  lemma ReconcileLeavesLatest(query: Query, pull: Pull, runs: Index, id: string)
    requires Keyed(runs) && Answers(query) && Patrolled(pull) && id in runs
    ensures var after := ReconciledBy(query, pull, runs);
      && after.Keys == runs.Keys
      && (IsOpen(after[id]) <==> LatestOpen(pull, runs, id))
      && (IsOpen(after[id]) ==> after[id].prTitle == pull.title)
  {
    var open := query(runs, true);
    LeftOpen(pull, None, open, runs, id);
    SurvivesLatest(pull, open, runs, id);
    if LatestOpen(pull, runs, id) {
      SurvivorStays(pull, None, open, runs, id);
    }
  }

  // A start that finds the PR unmoved leaves one run open: the new one, unless a run open on the head
  // claims a later start, and then the latest of those.
  lemma StartLeavesOne(query: Query, pull: Pull, runs: Index, run: IndexedRun, id: string)
    requires Keyed(runs) && Answers(query) && run.id !in runs
    requires Patrolled(pull) && run.headSha == pull.headSha && IsOpen(run)
    requires id in runs || id == run.id
    ensures var after := ReconciledBy(query, pull, runs[run.id := run]);
      && id in after
      && (IsOpen(after[id]) <==> LatestOpen(pull, runs[run.id := run], id))
      && (IsOpen(after[id]) ==> after[id].prTitle == pull.title)
      && (id != run.id && IsOpen(after[id]) ==> LatestOpen(pull, runs, id) && Later(runs[id], run))
  {
    ReconcileLeavesLatest(query, pull, runs[run.id := run], id);
    var was := runs[run.id := run];
    hide ReconciledBy;
    if id != run.id && LatestOpen(pull, was, id) {
      assert run.id in was && was[run.id] == run;
      assert forall other | other in runs :: was[other] == runs[other];
    }
  }
}
