// Several starts and reconciles of one PR, racing (dispatch/src/reconcile/pr.ts:72-176), while
// GitHub's view of it, a patrolled PR, stays put.
module Race {
  import opened Domain
  import opened Reconcile

  // A reconcile under way. `full` records that the index it read had every run started so far.
  datatype Proc =
    | Starting(id: string)
    | Ready
    | Acting(stops: set<string>, retitles: set<string>, full: bool)
    | Done(full: bool)
    | Broken

  // `runs` is what the runs' own objects hold, `rows` what the index has of them. `contenders` are
  // the runs that were open on the head at the outset, and every run started since.
  datatype World = World(runs: Index, rows: Index, procs: seq<Proc>, contenders: set<string>)

  datatype Move =
    | Start(run: IndexedRun)
    | Begin
    | WriteRow(id: string, row: IndexedRun)
    | StartIndexed(p: nat, row: IndexedRun)
    | Read(p: nat, open: seq<IndexedRun>)
    | Retitle(p: nat, id: string)
    | Stop(p: nat, id: string)
    | Finish(p: nat)
    | Fail(p: nat)
    | Work(id: string, status: RunStatus)

  // A row is its run as it once was.
  predicate Behind(pull: Pull, row: IndexedRun, run: IndexedRun) {
    && row.id == run.id && row.headSha == run.headSha && row.createdAt == run.createdAt
    && (IsOpen(run) ==> IsOpen(row))
    && (row.prTitle == run.prTitle || run.prTitle == pull.title)
  }

  // A write may go out: its snapshot was taken at some time in the race, which need not be now, nor
  // later than the row it replaces was taken. Only a contender was ever open on the head.
  predicate Writable(pull: Pull, w: World, id: string, row: IndexedRun) {
    && id in w.runs && Behind(pull, row, w.runs[id])
    && (IsOpen(row) && row.headSha == pull.headSha ==> id in w.contenders)
  }

  ghost predicate Enabled(pull: Pull, w: World, m: Move) {
    match m
    case Start(run) => run.id !in w.runs && run.headSha == pull.headSha && IsOpen(run)
    case Begin => true
    case WriteRow(id, row) => Writable(pull, w, id, row)
    case StartIndexed(p, row) => p < |w.procs| && w.procs[p].Starting? && Writable(pull, w, w.procs[p].id, row)
    case Read(p, open) => p < |w.procs| && w.procs[p].Ready? && Lists(open, w.rows, true)
    case Retitle(p, id) => p < |w.procs| && w.procs[p].Acting? && id in w.procs[p].retitles && id in w.runs
    case Stop(p, id) =>
      && p < |w.procs| && w.procs[p].Acting? && id in w.procs[p].stops && id in w.runs
      && id !in w.procs[p].retitles
    case Finish(p) => p < |w.procs| && w.procs[p].Acting? && w.procs[p].stops == {} == w.procs[p].retitles
    case Fail(p) => p < |w.procs| && !w.procs[p].Done?
    case Work(id, status) => id in w.runs && IsOpen(w.runs[id]) && (status == OnTheHill || status == Swept)
  }

  function Unfilled(p: Proc): Proc {
    match p
    case Acting(stops, retitles, _) => Acting(stops, retitles, false)
    case Done(_) => Done(false)
    case _ => p
  }

  function Decided(pull: Pull, w: World, open: seq<IndexedRun>): Proc {
    var plan := PlanOf(pull, None, open);
    Acting(IdsOf(plan.stale), IdsOf(plan.retitled), w.runs.Keys <= w.rows.Keys)
  }

  ghost function Next(pull: Pull, w: World, m: Move): World
    requires Enabled(pull, w, m)
  {
    match m
    case Start(run) =>
      World(w.runs[run.id := run], w.rows, Map(w.procs, p => Unfilled(p)) + [Starting(run.id)],
        w.contenders + {run.id})
    case Begin => w.(procs := w.procs + [Ready])
    case WriteRow(id, row) => w.(rows := w.rows[id := row])
    case StartIndexed(p, row) =>
      w.(rows := w.rows[w.procs[p].id := row], procs := w.procs[p := Ready])
    case Read(p, open) => w.(procs := w.procs[p := Decided(pull, w, open)])
    case Retitle(p, id) =>
      var proc := w.procs[p];
      w.(runs := w.runs[id := RetitledRun(w.runs[id], pull.title)],
        procs := w.procs[p := proc.(retitles := proc.retitles - {id})])
    case Stop(p, id) =>
      var proc := w.procs[p];
      w.(runs := w.runs[id := StoppedRun(w.runs[id])],
        procs := w.procs[p := proc.(stops := proc.stops - {id})])
    case Finish(p) => w.(procs := w.procs[p := Done(w.procs[p].full)])
    case Fail(p) => w.(procs := w.procs[p := Broken])
    case Work(id, status) => w.(runs := w.runs[id := w.runs[id].(status := status)])
  }

  // The outset: any runs whatever, with their rows up to date.
  ghost function Initial(pull: Pull, runs: Index): World {
    World(runs, runs, [], set id | id in runs && IsOpen(runs[id]) && runs[id].headSha == pull.headSha)
  }

  ghost predicate Behaviour(pull: Pull, ws: seq<World>, ms: seq<Move>) {
    && Patrolled(pull)
    && |ws| == |ms| + 1
    && Keyed(ws[0].runs)
    && ws[0] == Initial(pull, ws[0].runs)
    && forall k | 0 <= k < |ms| :: Enabled(pull, ws[k], ms[k]) && ws[k + 1] == Next(pull, ws[k], ms[k])
  }

  // --- The invariant ------------------------------------------------------------------------

  ghost predicate Beaten(pull: Pull, w: World, run: IndexedRun) {
    run.headSha != pull.headSha || exists c :: c in w.contenders && c in w.runs && Later(w.runs[c], run)
  }

  ghost predicate RowsGood(pull: Pull, w: World) {
    && Keyed(w.runs) && Keyed(w.rows)
    && (forall id | id in w.rows :: id in w.runs && Behind(pull, w.rows[id], w.runs[id]))
  }

  ghost predicate ContendersGood(pull: Pull, w: World) {
    && (forall c | c in w.contenders :: c in w.runs && w.runs[c].headSha == pull.headSha)
    && (forall id | id in w.runs && IsOpen(w.runs[id]) && w.runs[id].headSha == pull.headSha :: id in w.contenders)
    && (forall id | id in w.rows && IsOpen(w.rows[id]) && w.rows[id].headSha == pull.headSha :: id in w.contenders)
    && (forall c | c in w.contenders :: IsOpen(w.runs[c]) || Beaten(pull, w, w.runs[c]))
  }

  ghost predicate StopsGood(pull: Pull, w: World, stops: set<string>) {
    forall id | id in stops :: id in w.runs && Beaten(pull, w, w.runs[id])
  }

  // What is wrong with the PR's runs is all in hand.
  ghost predicate InHand(pull: Pull, w: World, stops: set<string>, retitles: set<string>) {
    forall id | id in w.runs && IsOpen(w.runs[id]) ::
      && (Beaten(pull, w, w.runs[id]) ==> id in stops)
      && (w.runs[id].prTitle != pull.title ==> id in retitles)
  }

  ghost predicate ProcGood(pull: Pull, w: World, p: Proc) {
    match p
    case Acting(stops, retitles, full) => StopsGood(pull, w, stops) && (full ==> InHand(pull, w, stops, retitles))
    case Done(full) => full ==> InHand(pull, w, {}, {})
    case _ => true
  }

  ghost predicate ProcsGood(pull: Pull, w: World) {
    forall p | 0 <= p < |w.procs| :: ProcGood(pull, w, w.procs[p])
  }

  // A reconcile that is still to read the index, or has read all of it.
  predicate Hopeful(p: Proc) {
    p.Starting? || p.Ready? || (p.Acting? && p.full) || (p.Done? && p.full)
  }

  ghost predicate AnyBroken(w: World) {
    exists p :: 0 <= p < |w.procs| && w.procs[p].Broken?
  }

  // Unless one broke off, every run not yet indexed is still being started, and some reconcile, if
  // there was any, has all of the index before it or behind it.
  ghost predicate HopeGood(w: World) {
    AnyBroken(w) || (
      && (forall id | id in w.runs :: id in w.rows || Starting(id) in w.procs)
      && (w.procs == [] || exists p :: 0 <= p < |w.procs| && Hopeful(w.procs[p])))
  }

  ghost predicate Good(pull: Pull, w: World) {
    RowsGood(pull, w) && ContendersGood(pull, w) && ProcsGood(pull, w) && HopeGood(w)
  }

  // --- Each step keeps it -------------------------------------------------------------------

  lemma RowsThrough(pull: Pull, w: World, m: Move)
    requires Enabled(pull, w, m) && RowsGood(pull, w)
    ensures RowsGood(pull, Next(pull, w, m))
  {
  }

  lemma BrokenStays(pull: Pull, w: World, m: Move)
    requires Enabled(pull, w, m) && AnyBroken(w)
    ensures AnyBroken(Next(pull, w, m))
  {
    var p :| 0 <= p < |w.procs| && w.procs[p].Broken?;
    assert Next(pull, w, m).procs[p].Broken?;
  }

  lemma StartsListed(pull: Pull, w: World, m: Move)
    requires Enabled(pull, w, m)
    requires !m.Fail? && forall id | id in w.runs :: id in w.rows || Starting(id) in w.procs
    ensures var v := Next(pull, w, m);
      forall id | id in v.runs :: id in v.rows || Starting(id) in v.procs
  {
    var v := Next(pull, w, m);
    forall id | id in v.runs && id !in v.rows ensures Starting(id) in v.procs {
      if m.Start? && id == m.run.id {
        assert v.procs[|w.procs|] == Starting(id);
      } else {
        var p :| 0 <= p < |w.procs| && w.procs[p] == Starting(id);
        assert v.procs[p] == Starting(id);
      }
    }
  }

  lemma HopeThrough(pull: Pull, w: World, m: Move)
    requires Enabled(pull, w, m) && HopeGood(w)
    ensures HopeGood(Next(pull, w, m))
  {
    var v := Next(pull, w, m);
    if AnyBroken(w) {
      BrokenStays(pull, w, m);
    } else if m.Fail? {
      assert v.procs[m.p].Broken?;
    } else {
      StartsListed(pull, w, m);
      if m.Start? || m.Begin? {
        assert Hopeful(v.procs[|w.procs|]);
      } else if w.procs != [] {
        var p :| 0 <= p < |w.procs| && Hopeful(w.procs[p]);
        HopeStays(pull, w, m, p);
      }
    }
  }

  lemma HopeStays(pull: Pull, w: World, m: Move, p: nat)
    requires Enabled(pull, w, m) && p < |w.procs| && Hopeful(w.procs[p])
    requires !m.Fail? && !m.Start?
    requires forall id | id in w.runs :: id in w.rows || Starting(id) in w.procs
    ensures var v := Next(pull, w, m); exists q :: 0 <= q < |v.procs| && Hopeful(v.procs[q])
  {
    var v := Next(pull, w, m);
    if m.Read? && m.p == p && !v.procs[p].full {
      var id :| id in w.runs && id !in w.rows;
      var q :| 0 <= q < |w.procs| && w.procs[q] == Starting(id);
      assert Hopeful(v.procs[q]);
    } else {
      assert Hopeful(v.procs[p]);
    }
  }

  // What beats a run goes on beating it.
  lemma BeatenStays(pull: Pull, w: World, m: Move, run: IndexedRun)
    requires Enabled(pull, w, m) && RowsGood(pull, w) && Beaten(pull, w, run)
    ensures Beaten(pull, Next(pull, w, m), run)
  {
    var v := Next(pull, w, m);
    if run.headSha == pull.headSha {
      var c :| c in w.contenders && c in w.runs && Later(w.runs[c], run);
      assert c in v.contenders && c in v.runs && Later(v.runs[c], run);
    }
  }

  // Only a start changes who is beaten.
  lemma BeatenSame(pull: Pull, w: World, m: Move, run: IndexedRun)
    requires Enabled(pull, w, m) && RowsGood(pull, w) && !m.Start?
    ensures Beaten(pull, Next(pull, w, m), run) <==> Beaten(pull, w, run)
  {
    if Beaten(pull, w, run) {
      BeatenStays(pull, w, m, run);
    }
  }

  // Every run keeps its id, head and start.
  predicate SameStart(x: IndexedRun, y: IndexedRun) {
    x.id == y.id && x.headSha == y.headSha && x.createdAt == y.createdAt
  }

  lemma BeatenBySame(pull: Pull, w: World, x: IndexedRun, y: IndexedRun)
    requires SameStart(x, y)
    ensures Beaten(pull, w, x) <==> Beaten(pull, w, y)
  {
    if Beaten(pull, w, x) && x.headSha == pull.headSha {
      var c :| c in w.contenders && c in w.runs && Later(w.runs[c], x);
      assert Later(w.runs[c], y);
    }
    if Beaten(pull, w, y) && x.headSha == pull.headSha {
      var c :| c in w.contenders && c in w.runs && Later(w.runs[c], y);
      assert Later(w.runs[c], x);
    }
  }

  lemma RunsKept(pull: Pull, w: World, m: Move, id: string)
    requires Enabled(pull, w, m) && RowsGood(pull, w) && id in w.runs
    ensures var v := Next(pull, w, m);
      && id in v.runs && SameStart(v.runs[id], w.runs[id])
      && (id in w.contenders ==> id in v.contenders)
      && (IsOpen(w.runs[id]) != IsOpen(v.runs[id]) ==> IsOpen(w.runs[id]) && m.Stop? && m.id == id)
      && (v.runs[id].prTitle == w.runs[id].prTitle || (m.Retitle? && m.id == id && v.runs[id].prTitle == pull.title))
  {
  }

  lemma ContendersThrough(pull: Pull, w: World, m: Move)
    requires Enabled(pull, w, m) && RowsGood(pull, w) && ContendersGood(pull, w) && ProcsGood(pull, w)
    ensures ContendersGood(pull, Next(pull, w, m))
  {
    var v := Next(pull, w, m);
    forall c | c in v.contenders ensures IsOpen(v.runs[c]) || Beaten(pull, v, v.runs[c]) {
      if c in w.contenders {
        RunsKept(pull, w, m, c);
        BeatenBySame(pull, w, w.runs[c], v.runs[c]);
        if !IsOpen(v.runs[c]) {
          if IsOpen(w.runs[c]) {
            assert ProcGood(pull, w, w.procs[m.p]);
          }
          BeatenStays(pull, w, m, v.runs[c]);
        }
      }
    }
  }

  // --- What a full read decides -------------------------------------------------------------

  // The contender that started last.
  ghost predicate Leads(w: World, id: string) {
    id in w.contenders && id in w.runs
    && forall c | c in w.contenders && c in w.runs :: c == id || Later(w.runs[id], w.runs[c])
  }

  lemma {:induction false} LeaderAmong(runs: Index, ids: set<string>) returns (m: string)
    requires Keyed(runs) && ids <= runs.Keys && ids != {}
    ensures m in ids && forall c | c in ids :: c == m || Later(runs[m], runs[c])
    decreases |ids|
  {
    var first :| first in ids;
    m := first;
    var rest := ids - {first};
    assert forall c | c in ids :: c == first || c in rest;
    if rest != {} {
      var n := LeaderAmong(runs, rest);
      LaterTotal(runs[first], runs[n]);
      if Later(runs[n], runs[first]) {
        m := n;
      } else {
        assert Later(runs[first], runs[n]);
        forall c | c in rest ensures Later(runs[first], runs[c]) {
          if c != n {
            LaterTransitive(runs[first], runs[n], runs[c]);
          }
        }
      }
    }
  }

  lemma LeaderOpen(pull: Pull, w: World, id: string)
    requires RowsGood(pull, w) && ContendersGood(pull, w) && Leads(w, id)
    ensures IsOpen(w.runs[id]) && !Beaten(pull, w, w.runs[id])
  {
    forall c | c in w.contenders && c in w.runs ensures !Later(w.runs[c], w.runs[id]) {
      LaterTotal(w.runs[c], w.runs[id]);
    }
  }

  // A reconcile never decides to stop a run unless a later one contends.
  lemma ReadStopsBeaten(pull: Pull, w: World, open: seq<IndexedRun>)
    requires Patrolled(pull) && RowsGood(pull, w) && ContendersGood(pull, w) && Lists(open, w.rows, true)
    ensures StopsGood(pull, w, Decided(pull, w, open).stops)
  {
    var plan := PlanOf(pull, None, open);
    forall id | id in IdsOf(plan.stale) ensures id in w.runs && Beaten(pull, w, w.runs[id]) {
      var k :| 0 <= k < |plan.stale| && plan.stale[k].id == id;
      StaleBeaten(pull, w, open, plan.stale[k]);
    }
  }

  lemma StaleBeaten(pull: Pull, w: World, open: seq<IndexedRun>, row: IndexedRun)
    requires Patrolled(pull) && RowsGood(pull, w) && ContendersGood(pull, w) && Lists(open, w.rows, true)
    requires row in PlanOf(pull, None, open).stale
    ensures row.id in w.runs && Beaten(pull, w, w.runs[row.id])
  {
    var plan := PlanOf(pull, None, open);
    PlanExact(pull, None, open, row);
    if row.headSha == pull.headSha {
      KeptOnHead(pull, None, open);
      assert row in OnHead(Live(None, open), pull.headSha);
      PlanExact(pull, None, open, plan.kept.value);
      hide PlanOf, Live, OnHead;
      KeptContends(pull, w, open, plan.kept.value, row);
    }
  }

  lemma KeptContends(pull: Pull, w: World, open: seq<IndexedRun>, kept: IndexedRun, row: IndexedRun)
    requires RowsGood(pull, w) && ContendersGood(pull, w) && Lists(open, w.rows, true)
    requires kept in open && kept.headSha == pull.headSha && row in open && Later(kept, row)
    ensures Beaten(pull, w, w.runs[row.id])
  {
    assert w.rows[kept.id] == kept && w.rows[row.id] == row;
    assert Later(w.runs[kept.id], w.runs[row.id]);
  }

  lemma FullReadHasAll(pull: Pull, w: World, open: seq<IndexedRun>)
    requires Patrolled(pull) && RowsGood(pull, w) && ContendersGood(pull, w) && Lists(open, w.rows, true)
    requires w.runs.Keys <= w.rows.Keys
    ensures var d := Decided(pull, w, open); InHand(pull, w, d.stops, d.retitles)
  {
    var d := Decided(pull, w, open);
    forall id | id in w.runs && IsOpen(w.runs[id])
      ensures Beaten(pull, w, w.runs[id]) ==> id in d.stops
      ensures w.runs[id].prTitle != pull.title ==> id in d.retitles
    {
      var row := w.rows[id];
      assert row in open;
      PlanExact(pull, None, open, row);
      if Beaten(pull, w, w.runs[id]) {
        BeatenDies(pull, w, open, id);
      }
    }
  }

  lemma BeatenDies(pull: Pull, w: World, open: seq<IndexedRun>, id: string)
    requires RowsGood(pull, w) && ContendersGood(pull, w) && Lists(open, w.rows, true)
    requires w.runs.Keys <= w.rows.Keys && id in w.runs && Beaten(pull, w, w.runs[id])
    ensures !Survives(pull, Live(None, open), w.rows[id])
  {
    var row := w.rows[id];
    if row.headSha == pull.headSha {
      var c :| c in w.contenders && c in w.runs && Later(w.runs[c], w.runs[id]);
      var m := LeaderAmong(w.runs, w.contenders);
      LeaderOpen(pull, w, m);
      LaterTotal(w.runs[m], w.runs[id]);
      if c != m {
        LaterTransitive(w.runs[m], w.runs[c], w.runs[id]);
      }
      LeaderSurvives(pull, w, open, m, id);
    }
  }

  lemma LeaderSurvives(pull: Pull, w: World, open: seq<IndexedRun>, m: string, id: string)
    requires RowsGood(pull, w) && Lists(open, w.rows, true)
    requires m in w.rows && id in w.rows && IsOpen(w.runs[m]) && w.runs[m].headSha == pull.headSha
    requires Later(w.runs[m], w.runs[id])
    ensures !Survives(pull, Live(None, open), w.rows[id])
  {
    assert w.rows[m] in Live(None, open);
    LaterTotal(w.rows[m], w.rows[id]);
  }

  // --- The reconciles under way -------------------------------------------------------------

  lemma StopsStay(pull: Pull, w: World, m: Move, stops: set<string>)
    requires Enabled(pull, w, m) && RowsGood(pull, w) && StopsGood(pull, w, stops)
    ensures StopsGood(pull, Next(pull, w, m), stops)
  {
    var v := Next(pull, w, m);
    forall id | id in stops ensures id in v.runs && Beaten(pull, v, v.runs[id]) {
      RunsKept(pull, w, m, id);
      BeatenBySame(pull, w, w.runs[id], v.runs[id]);
      BeatenStays(pull, w, m, v.runs[id]);
    }
  }

  lemma InHandStays(pull: Pull, w: World, m: Move, stops: set<string>, retitles: set<string>)
    requires Enabled(pull, w, m) && RowsGood(pull, w) && !m.Start? && InHand(pull, w, stops, retitles)
    ensures InHand(pull, Next(pull, w, m),
      if m.Stop? then stops - {m.id} else stops, if m.Retitle? then retitles - {m.id} else retitles)
  {
    var v := Next(pull, w, m);
    forall id | id in v.runs && IsOpen(v.runs[id])
      ensures Beaten(pull, v, v.runs[id]) ==> id in stops && (m.Stop? ==> id != m.id)
      ensures v.runs[id].prTitle != pull.title ==> id in retitles && (m.Retitle? ==> id != m.id)
    {
      RunsKept(pull, w, m, id);
      BeatenBySame(pull, w, w.runs[id], v.runs[id]);
      BeatenSame(pull, w, m, v.runs[id]);
    }
  }

  // A reconcile that the move does not concern.
  lemma OtherThrough(pull: Pull, w: World, m: Move, p: Proc)
    requires Enabled(pull, w, m) && RowsGood(pull, w) && ProcGood(pull, w, p)
    ensures ProcGood(pull, Next(pull, w, m), if m.Start? then Unfilled(p) else p)
  {
    if p.Acting? {
      StopsStay(pull, w, m, p.stops);
      if !m.Start? && p.full {
        InHandStays(pull, w, m, p.stops, p.retitles);
      }
    }
    if p.Done? && !m.Start? && p.full {
      InHandStays(pull, w, m, {}, {});
    }
  }

  // The one that makes it.
  lemma OwnThrough(pull: Pull, w: World, m: Move)
    requires Patrolled(pull) && Enabled(pull, w, m) && RowsGood(pull, w) && ContendersGood(pull, w)
    requires m.StartIndexed? || m.Read? || m.Retitle? || m.Stop? || m.Finish? || m.Fail?
    requires ProcGood(pull, w, w.procs[m.p])
    ensures var v := Next(pull, w, m); ProcGood(pull, v, v.procs[m.p])
  {
    var v := Next(pull, w, m);
    var p := w.procs[m.p];
    if m.Read? {
      var d := Decided(pull, w, m.open);
      ReadStopsBeaten(pull, w, m.open);
      StopsStay(pull, w, m, d.stops);
      if d.full {
        FullReadHasAll(pull, w, m.open);
        InHandStays(pull, w, m, d.stops, d.retitles);
      }
    } else if p.Acting? {
      StopsStay(pull, w, m, p.stops);
      if p.full {
        InHandStays(pull, w, m, p.stops, p.retitles);
      }
    }
  }

  lemma ProcsThrough(pull: Pull, w: World, m: Move)
    requires Patrolled(pull) && Enabled(pull, w, m) && RowsGood(pull, w) && ContendersGood(pull, w)
    requires ProcsGood(pull, w)
    ensures ProcsGood(pull, Next(pull, w, m))
  {
    var v := Next(pull, w, m);
    forall q | 0 <= q < |v.procs| ensures ProcGood(pull, v, v.procs[q]) {
      if q < |w.procs| {
        if v.procs[q] == if m.Start? then Unfilled(w.procs[q]) else w.procs[q] {
          OtherThrough(pull, w, m, w.procs[q]);
        } else {
          OwnThrough(pull, w, m);
        }
      }
    }
  }

  // --- Every run of the race ----------------------------------------------------------------

  lemma {:induction false} AlwaysGood(pull: Pull, ws: seq<World>, ms: seq<Move>, k: nat)
    requires Behaviour(pull, ws, ms) && k <= |ms|
    ensures Good(pull, ws[k])
  {
    if k > 0 {
      AlwaysGood(pull, ws, ms, k - 1);
      var w, m := ws[k - 1], ms[k - 1];
      RowsThrough(pull, w, m);
      ContendersThrough(pull, w, m);
      ProcsThrough(pull, w, m);
      HopeThrough(pull, w, m);
    }
  }

  lemma {:induction false} RunsLast(pull: Pull, ws: seq<World>, ms: seq<Move>, j: nat, k: nat, id: string)
    requires Behaviour(pull, ws, ms) && j <= k <= |ms| && id in ws[j].runs
    ensures id in ws[k].runs && SameStart(ws[k].runs[id], ws[j].runs[id])
    ensures id in ws[j].contenders <==> id in ws[k].contenders
    decreases k
  {
    if j < k {
      RunsLast(pull, ws, ms, j, k - 1, id);
      AlwaysGood(pull, ws, ms, k - 1);
      RunsKept(pull, ws[k - 1], ms[k - 1], id);
    }
  }

  // All the reconciles agree: the run that turns out to have started last on the head is never
  // stopped, nor does any of them ever mean to stop it.
  lemma LatestNeverStopped(pull: Pull, ws: seq<World>, ms: seq<Move>, j: nat, k: nat, id: string)
    requires Behaviour(pull, ws, ms) && j <= k <= |ms|
    requires Leads(ws[k], id) && id in ws[j].runs
    ensures IsOpen(ws[j].runs[id])
    ensures forall p | 0 <= p < |ws[j].procs| && ws[j].procs[p].Acting? :: id !in ws[j].procs[p].stops
  {
    RunsLast(pull, ws, ms, j, k, id);
    AlwaysGood(pull, ws, ms, j);
    forall c | c in ws[j].contenders && c in ws[j].runs ensures c == id || Later(ws[j].runs[id], ws[j].runs[c]) {
      RunsLast(pull, ws, ms, j, k, c);
    }
    LeaderOpen(pull, ws[j], id);
    forall p | 0 <= p < |ws[j].procs| && ws[j].procs[p].Acting? ensures id !in ws[j].procs[p].stops {
      assert ProcGood(pull, ws[j], ws[j].procs[p]);
    }
  }

  // One run is open: the contender that started last, under the PR's title.
  ghost predicate Settled(pull: Pull, w: World) {
    && (forall id | id in w.runs :: IsOpen(w.runs[id]) <==> Leads(w, id))
    && (forall id | id in w.runs && IsOpen(w.runs[id]) :: w.runs[id].prTitle == pull.title)
    && (w.contenders != {} ==> exists id :: id in w.runs && Leads(w, id))
  }

  lemma InHandSettles(pull: Pull, w: World)
    requires RowsGood(pull, w) && ContendersGood(pull, w) && InHand(pull, w, {}, {})
    ensures Settled(pull, w)
  {
    forall id | id in w.runs ensures IsOpen(w.runs[id]) <==> Leads(w, id) {
      if IsOpen(w.runs[id]) {
        forall c | c in w.contenders && c in w.runs ensures c == id || Later(w.runs[id], w.runs[c]) {
          LaterTotal(w.runs[id], w.runs[c]);
        }
      } else if Leads(w, id) {
        LeaderOpen(pull, w, id);
      }
    }
    if w.contenders != {} {
      var m := LeaderAmong(w.runs, w.contenders);
      assert Leads(w, m);
    }
  }

  // Once one reconcile that read the whole index is through, whatever became of the others, the
  // race is decided, until the next start.
  lemma FullReadDecides(pull: Pull, ws: seq<World>, ms: seq<Move>, k: nat, p: nat)
    requires Behaviour(pull, ws, ms) && k <= |ms| && p < |ws[k].procs| && ws[k].procs[p] == Done(true)
    ensures Settled(pull, ws[k])
  {
    AlwaysGood(pull, ws, ms, k);
    assert ProcGood(pull, ws[k], ws[k].procs[p]);
    InHandSettles(pull, ws[k]);
  }

  // When every reconcile has come through, the race is decided.
  lemma RacingStartsConverge(pull: Pull, ws: seq<World>, ms: seq<Move>, k: nat)
    requires Behaviour(pull, ws, ms) && k <= |ms|
    requires ws[k].procs != [] && forall p | 0 <= p < |ws[k].procs| :: ws[k].procs[p].Done?
    ensures Settled(pull, ws[k])
  {
    AlwaysGood(pull, ws, ms, k);
    var p :| 0 <= p < |ws[k].procs| && Hopeful(ws[k].procs[p]);
    FullReadDecides(pull, ws, ms, k, p);
  }

  // And once the rows say so too, one more reconcile lands, stops and retitles nothing.
  lemma DecidedIsQuiet(pull: Pull, ws: seq<World>, ms: seq<Move>, k: nat, all: seq<IndexedRun>, open: seq<IndexedRun>)
    requires Behaviour(pull, ws, ms) && k <= |ms| && Settled(pull, ws[k])
    requires ws[k].rows == ws[k].runs && Lists(all, ws[k].rows, false) && Lists(open, ws[k].rows, true)
    ensures ToLand(pull, all) == None
    ensures var plan := PlanOf(pull, None, open); plan.stale == [] && plan.retitled == [] && !plan.repost
  {
    AlwaysGood(pull, ws, ms, k);
    var plan := PlanOf(pull, None, open);
    forall i | 0 <= i < |open| ensures open[i] !in plan.stale && open[i] !in plan.retitled {
      PlanExact(pull, None, open, open[i]);
      SettledSurvives(pull, ws[k], open, open[i]);
    }
    StaleIsOpen(pull, open);
  }

  lemma SettledSurvives(pull: Pull, w: World, open: seq<IndexedRun>, run: IndexedRun)
    requires Patrolled(pull) && RowsGood(pull, w) && ContendersGood(pull, w) && Settled(pull, w)
    requires w.rows == w.runs && Lists(open, w.rows, true) && run in open
    ensures Survives(pull, Live(None, open), run) && run.prTitle == pull.title
  {
    assert w.runs[run.id] == run;
    forall r | r in Live(None, open) && r.headSha == pull.headSha ensures r == run || Later(run, r) {
      assert r in open && w.runs[r.id] == r;
    }
  }
}
