// The run's row in the index, against the run, under concurrent writes, failures and resets
// (dispatch/src/run/do.ts:284-343).
module IndexMirror {
  import opened Domain
  import opened Machine
  import opened Lifecycle
  import opened Effects

  // --- The writes ---------------------------------------------------------------------------

  // A row write: the mark read first and the row read then, whether the database has applied it, and
  // whether the object still awaits it. Unlike check syncs, any number may be under way.
  datatype Write = Write(rev: nat, row: IndexRow, applied: bool, awaited: bool)

  // The stored state, its mark and the last revision given out; the writes ever made; which of them
  // the row is from; and, for the proof, the newest revision the row was ever of.
  datatype World = World(
    state: RunState, mark: Option<nat>, lastRev: nat, writes: seq<Write>, row: Option<nat>, newest: nat)

  datatype Move =
    | Commit(e: Event)
    | Begin
    | Take(place: nat)
    | Answer(place: nat, announced: bool)
    | Fail(place: nat)
    | Crash

  function Initial(a: Start): World {
    World(CreateRun(a).state, Some(1), 1, [], None, 0)
  }

  // A write the object has stopped waiting for may still be applied, at any time.
  predicate Enabled(w: World, m: Move) {
    match m
    case Commit(e) => Legal(e)
    case Begin => w.mark.Some?
    case Take(place) => place < |w.writes| && !w.writes[place].applied
    case Answer(place, _) => place < |w.writes| && w.writes[place].applied && w.writes[place].awaited
    case Fail(place) => place < |w.writes| && w.writes[place].awaited
    case Crash => true
  }

  // settle (do.ts:346-348).
  function SettledMark(mark: Option<nat>, rev: nat): Option<nat> {
    if mark == Some(rev) then None else mark
  }

  function Forgotten(writes: seq<Write>): (r: seq<Write>)
    ensures |r| == |writes|
    ensures forall k | 0 <= k < |r| :: r[k] == writes[k].(awaited := false)
  {
    Map(writes, (x: Write) => x.(awaited := false))
  }

  function Next(w: World, m: Move): World
    requires Enabled(w, m)
  {
    match m
    case Commit(e) =>
      var t := Apply(w.state, e);
      if t.moved && Index in t.effects
      then w.(state := t.state, mark := Some(w.lastRev + 1), lastRev := w.lastRev + 1)
      else w.(state := t.state)
    case Begin => w.(writes := w.writes + [Write(w.mark.value, IndexRowOf(w.state), false, true)])
    case Take(place) =>
      var x := w.writes[place];
      w.(writes := w.writes[place := x.(applied := true)], row := Some(place),
         newest := if x.rev > w.newest then x.rev else w.newest)
    case Answer(place, announced) =>
      var x := w.writes[place];
      w.(writes := w.writes[place := x.(awaited := false)],
         mark := if announced then SettledMark(w.mark, x.rev) else w.mark)
    case Fail(place) => w.(writes := w.writes[place := w.writes[place].(awaited := false)])
    case Crash => w.(writes := Forgotten(w.writes))
  }

  ghost predicate Behaviour(a: Start, ws: seq<World>, ms: seq<Move>) {
    && |ws| == |ms| + 1
    && ws[0] == Initial(a)
    && forall k | 0 <= k < |ms| :: Enabled(ws[k], ms[k]) && ws[k + 1] == Next(ws[k], ms[k])
  }

  // The row as it stands shows the run as it is.
  predicate Shows(w: World) {
    w.row.Some? && w.row.value < |w.writes| && w.writes[w.row.value].row == IndexRowOf(w.state)
  }

  // The row's write had been overtaken when it was applied: one begun under a newer mark was before it.
  predicate Overtaken(w: World) {
    w.row.Some? && w.row.value < |w.writes| && w.writes[w.row.value].rev < w.newest
  }

  // --- The invariant ------------------------------------------------------------------------

  ghost predicate WriteSound(w: World, x: Write) {
    && x.rev <= w.lastRev
    && (x.rev == w.lastRev ==> x.row == IndexRowOf(w.state))
    && (x.applied ==> x.rev <= w.newest)
  }

  ghost predicate Good(w: World) {
    && Inv(w.state)
    && (w.mark.Some? ==> w.mark.value == w.lastRev)
    && (w.mark.None? ==> w.newest == w.lastRev)
    && 0 < w.lastRev && w.newest <= w.lastRev
    && (forall k | 0 <= k < |w.writes| :: WriteSound(w, w.writes[k]))
    && (w.row.None? ==> w.newest == 0)
    && (w.row.Some? ==> w.row.value < |w.writes| && w.writes[w.row.value].applied)
  }

  lemma CommitGood(w: World, e: Event)
    requires Good(w) && Legal(e)
    ensures Good(Next(w, Commit(e)))
  {
    hide Inv, Apply, IndexRowOf, Legal;
    StepKeepsInv(w.state, e);
    if !Apply(w.state, e).moved {
      UnmovedSame(w.state, e);
    } else if Index !in Apply(w.state, e).effects {
      IndexComplete(w.state, e);
    }
    var v := Next(w, Commit(e));
    forall k | 0 <= k < |v.writes| ensures WriteSound(v, v.writes[k]) {
      assert WriteSound(w, w.writes[k]);
    }
  }

  lemma WriteGood(w: World, m: Move)
    requires Good(w) && Enabled(w, m) && !m.Commit?
    ensures Good(Next(w, m))
  {
    hide Inv, IndexRowOf;
    var v := Next(w, m);
    forall k | 0 <= k < |v.writes| ensures WriteSound(v, v.writes[k]) {
      if k < |w.writes| {
        assert WriteSound(w, w.writes[k]);
      }
    }
    if m.Answer? {
      assert WriteSound(w, w.writes[m.place]);
    }
  }

  lemma MoveGood(w: World, m: Move)
    requires Good(w) && Enabled(w, m)
    ensures Good(Next(w, m))
  {
    hide Good, Next;
    if m.Commit? {
      CommitGood(w, m.e);
    } else {
      WriteGood(w, m);
    }
  }

  lemma InitialGood(a: Start)
    requires DistinctRoster(a.cfg.roster)
    ensures Good(Initial(a))
  {
    CreatedInv(a);
    hide Inv, CreateRun;
  }

  // However commits, writes, failures and resets interleave, the invariant holds.
  lemma {:induction false} AlwaysGood(a: Start, ws: seq<World>, ms: seq<Move>, k: nat)
    requires DistinctRoster(a.cfg.roster) && Behaviour(a, ws, ms) && k < |ws|
    ensures Good(ws[k])
  {
    hide Good, Next, Enabled;
    if k == 0 {
      InitialGood(a);
    } else {
      AlwaysGood(a, ws, ms, k - 1);
      MoveGood(ws[k - 1], ms[k - 1]);
    }
  }

  // --- What this comes to -------------------------------------------------------------------

  // With no write owed, the row is of the newest revision unless its write was overtaken, and then
  // shows the run as it is; one that was overtaken is of an older revision.
  lemma MirrorsUnlessOvertaken(a: Start, ws: seq<World>, ms: seq<Move>, k: nat)
    requires DistinctRoster(a.cfg.roster) && Behaviour(a, ws, ms) && k < |ws| && ws[k].mark.None?
    ensures var w := ws[k];
      && w.row.Some? && w.row.value < |w.writes|
      && (w.writes[w.row.value].rev == w.lastRev <==> !Overtaken(w))
      && (!Overtaken(w) ==> Shows(w))
  {
    AlwaysGood(a, ws, ms, k);
    hide Inv, IndexRowOf, Behaviour;
    var w := ws[k];
    assert WriteSound(w, w.writes[w.row.value]);
  }

  // The row becomes overtaken exactly when the database applies a write begun under an older mark than
  // that of one it has applied; and the next write that is not sets it right.
  lemma OvertakenExactly(w: World, m: Move)
    requires Good(w) && Enabled(w, m)
    ensures Overtaken(Next(w, m)) <==> (if m.Take? then w.writes[m.place].rev < w.newest else Overtaken(w))
  {
    hide Inv, IndexRowOf, Apply;
  }

  // The database applies writes in the order of their marks.
  ghost predicate InOrder(ws: seq<World>, ms: seq<Move>)
    requires |ws| == |ms| + 1
  {
    forall k | 0 <= k < |ms| && ms[k].Take? ::
      ms[k].place < |ws[k].writes| && ws[k].newest <= ws[k].writes[ms[k].place].rev
  }

  lemma {:induction false} NeverOvertaken(a: Start, ws: seq<World>, ms: seq<Move>, k: nat)
    requires DistinctRoster(a.cfg.roster) && Behaviour(a, ws, ms) && InOrder(ws, ms) && k < |ws|
    ensures !Overtaken(ws[k])
  {
    hide Good, Next, Enabled, Overtaken;
    if k == 0 {
      NoRowYet(a);
    } else {
      NeverOvertaken(a, ws, ms, k - 1);
      AlwaysGood(a, ws, ms, k - 1);
      OvertakenExactly(ws[k - 1], ms[k - 1]);
    }
  }

  lemma NoRowYet(a: Start)
    ensures !Overtaken(Initial(a))
  {
  }

  // Applied in order, the writes leave the row showing the run whenever none is owed.
  lemma RowMirrorsRun(a: Start, ws: seq<World>, ms: seq<Move>, k: nat)
    requires DistinctRoster(a.cfg.roster) && Behaviour(a, ws, ms) && InOrder(ws, ms) && k < |ws|
    requires ws[k].mark.None?
    ensures Shows(ws[k])
  {
    hide *;
    NeverOvertaken(a, ws, ms, k);
    MirrorsUnlessOvertaken(a, ws, ms, k);
  }

  // One write that nothing disturbs is enough: begun while a mark stands, applied and announced, it
  // leaves nothing owed and the row showing the run.
  lemma QuietWriteSettles(w: World)
    requires Good(w) && w.mark.Some?
    ensures var place := |w.writes|;
      && Enabled(w, Begin) && Enabled(Next(w, Begin), Take(place))
      && Enabled(Next(Next(w, Begin), Take(place)), Answer(place, true))
      && var v := Next(Next(Next(w, Begin), Take(place)), Answer(place, true));
         v.mark.None? && Shows(v) && !Overtaken(v)
  {
    hide Inv, IndexRowOf, Apply;
  }

  // --- Out of order -------------------------------------------------------------------------

  // A run is created and its write begun; it is retitled, and that write goes out and is announced; then
  // the first is applied. No write is owed, and the row has the old title.
  lemma LateWriteHidesTitle(a: Start, title: string, now: int) returns (ws: seq<World>, ms: seq<Move>)
    requires title != CreateRun(a).state.prTitle
    ensures Behaviour(a, ws, ms) && |ws| == 7
    ensures ws[6].mark.None? && !Shows(ws[6])
  {
    hide CreateRun, ReviewOutcome, CurrentStep;
    var s := CreateRun(a).state;
    var t := s.(prTitle := title, updatedAt := now);
    var first, second := Write(1, IndexRowOf(s), false, true), Write(2, IndexRowOf(t), false, true);
    ms := [Begin, Commit(Retitle(title, now)), Begin, Take(1), Answer(1, true), Take(0)];
    ws := [
      World(s, Some(1), 1, [], None, 0),
      World(s, Some(1), 1, [first], None, 0),
      World(t, Some(2), 2, [first], None, 0),
      World(t, Some(2), 2, [first, second], None, 0),
      World(t, Some(2), 2, [first, second.(applied := true)], Some(1), 2),
      World(t, None, 2, [first, second.(applied := true, awaited := false)], Some(1), 2),
      World(t, None, 2, [first.(applied := true), second.(applied := true, awaited := false)], Some(0), 2)];
    Retitled(ws[1], title, now);
    assert first.row.prTitle != IndexRowOf(t).prTitle;
    hide IndexRowOf, Apply;
  }

  lemma Retitled(w: World, title: string, now: int)
    requires title != w.state.prTitle
    ensures Next(w, Commit(Retitle(title, now)))
      == w.(state := w.state.(prTitle := title, updatedAt := now),
            mark := Some(w.lastRev + 1), lastRev := w.lastRev + 1)
  {
  }
}
