// Which PRs a design covers, as the runs index stores and searches it (shared/src/design.ts:7-11,
// dispatch/src/runs/index.ts:31-53, 90-114).
module Covers {
  import opened Domain
  import opened ForLines
  import opened RunNames
  import opened Reconcile

  // --- The numbers, each once ---------------------------------------------------------------

  ghost predicate Once(numbers: seq<nat>) {
    forall i, j | 0 <= i < j < |numbers| :: numbers[i] != numbers[j]
  }

  function FirstPlace(numbers: seq<nat>, n: nat): (i: nat)
    requires n in numbers
    ensures i < |numbers| && numbers[i] == n && forall j | 0 <= j < i :: numbers[j] != n
  {
    if numbers[0] == n then 0 else 1 + FirstPlace(numbers[1..], n)
  }

  ghost predicate InFirstOrder(numbers: seq<nat>, covered: seq<nat>) {
    && (forall i | 0 <= i < |covered| :: covered[i] in numbers)
    && forall i, j | 0 <= i < j < |covered| :: FirstPlace(numbers, covered[i]) < FirstPlace(numbers, covered[j])
  }

  // The matches, one after the other, each number added once.
  method CoversOf(goal: string) returns (covered: seq<nat>)
    ensures Once(covered)
    ensures forall n :: n in covered <==> n in LineNumbers(goal, 0)
    ensures InFirstOrder(LineNumbers(goal, 0), covered)
  {
    hide LineNumbers, NumbersFrom, MatchAt, InFirstOrder;
    covered := [];
    var from := 0;
    ghost var seen: seq<nat> := [];
    AtTheEnds(goal);
    NothingCovered();
    while from < |goal|
      invariant from <= |goal| && LineNumbers(goal, 0) == seen + NumbersFrom(goal, from)
      invariant Once(covered) && InFirstOrder(seen, covered)
      invariant forall n :: n in covered <==> n in seen
    {
      var m := MatchAt(goal, from);
      if m.None? {
        StepOver(goal, from);
        from := from + 1;
      } else {
        var number := m.value.number;
        MatchTakesOne(goal, from);
        OrderNext(seen, covered, number);
        seen := seen + [number];
        if number !in covered {
          covered := covered + [number];
        }
        from := m.value.end;
      }
    }
    assert LineNumbers(goal, 0) == seen;
  }

  lemma NothingCovered()
    ensures InFirstOrder([], [])
  {
  }

  lemma FirstStays(numbers: seq<nat>, next: nat, n: nat)
    requires n in numbers
    ensures FirstPlace(numbers + [next], n) == FirstPlace(numbers, n)
  {
    var p := FirstPlace(numbers, n);
    assert (numbers + [next])[p] == n;
  }

  lemma OrderNext(numbers: seq<nat>, covered: seq<nat>, next: nat)
    requires InFirstOrder(numbers, covered) && forall n :: n in covered <==> n in numbers
    ensures InFirstOrder(numbers + [next], if next in covered then covered else covered + [next])
  {
    forall i | 0 <= i < |covered| ensures FirstPlace(numbers + [next], covered[i]) == FirstPlace(numbers, covered[i]) {
      FirstStays(numbers, next, covered[i]);
    }
    if next !in covered {
      var p := FirstPlace(numbers + [next], next);
      assert forall k | 0 <= k < |numbers| :: numbers[k] in numbers;
    }
  }

  // --- The search ---------------------------------------------------------------------------

  // Array.prototype.join(",").
  function Joined(numbers: seq<nat>): string {
    if numbers == [] then ""
    else if |numbers| == 1 then Decimal(numbers[0])
    else Decimal(numbers[0]) + "," + Joined(numbers[1..])
  }

  // upsertRun's `covers` column: NULL for no numbers.
  function Column(numbers: seq<nat>): Option<string> {
    if numbers == [] then None else Some(Joined(numbers))
  }

  // x LIKE '%part%', for a part without wildcards.
  predicate Has(text: string, part: string) {
    exists p :: 0 <= p <= |text| && At(text, p, part)
  }

  // ',' || covers || ',' LIKE '%,' || n || ',%', which NULL is not.
  predicate Matches(covers: Option<string>, n: nat) {
    covers.Some? && Has("," + covers.value + ",", "," + Decimal(n) + ",")
  }

  // Each number and the comma after it.
  function Listed(numbers: seq<nat>): string {
    if numbers == [] then "" else Decimal(numbers[0]) + "," + Listed(numbers[1..])
  }

  lemma {:induction false} JoinedListed(numbers: seq<nat>)
    requires numbers != []
    ensures Joined(numbers) + "," == Listed(numbers)
  {
    if |numbers| > 1 {
      JoinedListed(numbers[1..]);
      assert Joined(numbers) + "," == Decimal(numbers[0]) + "," + (Joined(numbers[1..]) + ",");
    } else {
      assert Listed(numbers[1..]) == "";
    }
  }

  lemma SameHead(x: string, rest: string, y: string)
    requires forall k | 0 <= k < |x| :: IsDigit(x[k])
    requires forall k | 0 <= k < |y| :: IsDigit(y[k])
    requires At("," + x + "," + rest, 0, "," + y + ",")
    ensures x == y
  {
    var text, part := "," + x + "," + rest, "," + y + ",";
    assert forall k | 0 <= k < |part| :: text[k] == part[k];
    assert text[|x| + 1] == ',' && part[|y| + 1] == ',';
    assert forall k | 0 <= k < |x| :: text[k + 1] == x[k];
    assert forall k | 0 <= k < |y| :: part[k + 1] == y[k];
    assert |x| == |y|;
  }

  // A number between commas, at the head of a list, is its first.
  lemma HeadIs(first: nat, rest: string, n: nat)
    requires At("," + Decimal(first) + "," + rest, 0, "," + Decimal(n) + ",")
    ensures n == first
  {
    SameHead(Decimal(first), rest, Decimal(n));
    DecimalInjective(n, first);
  }

  lemma AtShifts(head: string, tail: string, p: nat, part: string)
    ensures At(head + tail, |head| + p, part) <==> At(tail, p, part)
  {
    var text := head + tail;
    if |head| + p + |part| <= |text| {
      assert text[|head| + p..|head| + p + |part|] == tail[p..p + |part|];
    }
  }

  // One that starts further on is in the rest.
  lemma TailHas(x: string, rest: string, part: string, p: nat)
    requires part != "" && part[0] == ',' && p > 0 && forall k | 0 <= k < |x| :: IsDigit(x[k])
    requires At("," + x + "," + rest, p, part)
    ensures Has("," + rest, part)
  {
    var head, tail := "," + x, "," + rest;
    assert "," + x + "," + rest == head + tail;
    assert (head + tail)[p] == part[0];
    assert forall k | 1 <= k < |head| :: (head + tail)[k] == x[k - 1];
    hide At;
    AtShifts(head, tail, p - |head|, part);
  }

  lemma HasLater(x: string, rest: string, part: string)
    requires Has("," + rest, part)
    ensures Has("," + x + "," + rest, part)
  {
    var head, tail := "," + x, "," + rest;
    assert "," + x + "," + rest == head + tail;
    hide At;
    var p :| 0 <= p <= |tail| && At(tail, p, part);
    AtShifts(head, tail, p, part);
  }

  lemma {:induction false} ListedHas(numbers: seq<nat>, n: nat)
    ensures Has("," + Listed(numbers), "," + Decimal(n) + ",") <==> n in numbers
  {
    var part := "," + Decimal(n) + ",";
    if numbers == [] {
      assert |part| > 1;
    } else {
      var first, rest := numbers[0], Listed(numbers[1..]);
      var text := "," + Decimal(first) + "," + rest;
      assert "," + Listed(numbers) == text;
      ListedHas(numbers[1..], n);
      if p :| 0 <= p <= |text| && At(text, p, part) {
        if p == 0 {
          HeadIs(first, rest, n);
        } else {
          TailHas(Decimal(first), rest, part, p);
        }
      }
      if n == first {
        assert text[0..|part|] == part;
        assert At(text, 0, part);
      } else if n in numbers[1..] {
        HasLater(Decimal(first), rest, part);
      }
    }
  }

  // The search is membership: a number is found between commas only where it stands whole.
  lemma SearchIsMembership(numbers: seq<nat>, n: nat)
    ensures Matches(Column(numbers), n) <==> n in numbers
  {
    if numbers != [] {
      JoinedListed(numbers);
      assert "," + Joined(numbers) + "," == "," + (Joined(numbers) + ",");
      ListedHas(numbers, n);
    }
  }

  // --- The designs owed ---------------------------------------------------------------------

  // A run as the index hears of it; `covers` is what coversOf makes of its goal.
  datatype Run = Run(
    id: string, repo: string, prNumber: nat, status: RunStatus, outcome: Outcome, createdAt: int,
    bypassedAt: Option<int>, covers: seq<nat>)

  datatype Row = Row(
    id: string, repo: string, prNumber: nat, status: RunStatus, outcome: Outcome, createdAt: int,
    bypassedAt: Option<int>, covers: Option<string>)

  function RowOf(run: Run): Row {
    Row(run.id, run.repo, run.prNumber, run.status, run.outcome, run.createdAt, run.bypassedAt, Column(run.covers))
  }

  predicate Open(status: RunStatus) {
    status == OnTheHill || status == Swept
  }

  // ORDER BY open DESC, created_at DESC, id DESC.
  predicate RanksBefore(x: Row, y: Row) {
    if Open(x.status) != Open(y.status) then Open(x.status)
    else if x.createdAt != y.createdAt then x.createdAt > y.createdAt
    else Before(y.id, x.id)
  }

  predicate Speaks(x: Row) {
    Open(x.status) || x.status == Landed
  }

  // ROW_NUMBER() = 1 among the PR's open and landed rows.
  ghost predicate First(rows: seq<Row>, x: Row) {
    Speaks(x) && forall j | 0 <= j < |rows| ::
      Speaks(rows[j]) && rows[j].repo == x.repo && rows[j].prNumber == x.prNumber && rows[j].id != x.id
      ==> RanksBefore(x, rows[j])
  }

  // The row is one of listOwedDesigns's (index.ts:96-114).
  ghost predicate Owed(rows: seq<Row>, x: Row) {
    && First(rows, x)
    && x.bypassedAt.Some?
    && !exists j :: 0 <= j < |rows| && rows[j].status == Landed && rows[j].outcome == OutcomeClear
         && rows[j].repo == x.repo && rows[j].prNumber != x.prNumber && Matches(rows[j].covers, x.prNumber)
  }

  predicate Newer(x: Run, y: Run) {
    x.createdAt > y.createdAt || (x.createdAt == y.createdAt && Before(y.id, x.id))
  }

  predicate OfPr(run: Run, repo: string, prNumber: nat) {
    run.repo == repo && run.prNumber == prNumber
  }

  ghost predicate NoNewer(runs: seq<Run>, s: Run, status: RunStatus -> bool) {
    forall j | 0 <= j < |runs| ::
      OfPr(runs[j], s.repo, s.prNumber) && status(runs[j].status) && runs[j].id != s.id ==> Newer(s, runs[j])
  }

  // The run that speaks for its PR: the newest open one, else the newest landed one.
  ghost predicate SpeaksFor(runs: seq<Run>, s: Run) {
    if exists j :: 0 <= j < |runs| && OfPr(runs[j], s.repo, s.prNumber) && Open(runs[j].status)
    then Open(s.status) && NoNewer(runs, s, Open)
    else s.status == Landed && NoNewer(runs, s, status => status == Landed)
  }

  // Another PR's design has landed, its review clear, with the number among those it covers.
  ghost predicate Designed(runs: seq<Run>, repo: string, prNumber: nat) {
    exists j :: 0 <= j < |runs| && runs[j].status == Landed && runs[j].outcome == OutcomeClear
      && runs[j].repo == repo && runs[j].prNumber != prNumber && prNumber in runs[j].covers
  }

  function RowsOf(runs: seq<Run>): (rows: seq<Row>)
    ensures |rows| == |runs| && forall i | 0 <= i < |runs| :: rows[i] == RowOf(runs[i])
  {
    Map(runs, (run: Run) => RowOf(run))
  }

  // The id is the table's key.
  ghost predicate Keys(runs: seq<Run>) {
    forall i, j | 0 <= i < j < |runs| :: runs[i].id != runs[j].id
  }

  lemma FirstSpeaks(runs: seq<Run>, i: nat)
    requires Keys(runs) && i < |runs|
    ensures First(RowsOf(runs), RowOf(runs[i])) <==> SpeaksFor(runs, runs[i])
  {
    var rows, s := RowsOf(runs), runs[i];
    if j :| 0 <= j < |runs| && OfPr(runs[j], s.repo, s.prNumber) && Open(runs[j].status) {
      if First(rows, RowOf(s)) {
        assert runs[j].id == s.id || RanksBefore(RowOf(s), rows[j]);
      }
    }
  }

  // A PR owes a design exactly when the run that speaks for it was bypassed and no other PR's clear,
  // landed run in the repository covers it.
  lemma OwedExactly(runs: seq<Run>, i: nat)
    requires Keys(runs) && i < |runs|
    ensures var s := runs[i];
      Owed(RowsOf(runs), RowOf(s)) <==>
        SpeaksFor(runs, s) && s.bypassedAt.Some? && !Designed(runs, s.repo, s.prNumber)
  {
    var rows, s := RowsOf(runs), runs[i];
    FirstSpeaks(runs, i);
    forall j | 0 <= j < |runs|
      ensures Matches(rows[j].covers, s.prNumber) <==> s.prNumber in runs[j].covers
    {
      SearchIsMembership(runs[j].covers, s.prNumber);
    }
  }

  // A PR is listed once.
  lemma OwedOnce(runs: seq<Run>, i: nat, j: nat)
    requires i < |runs| && j < |runs|
    requires Owed(RowsOf(runs), RowOf(runs[i])) && Owed(RowsOf(runs), RowOf(runs[j]))
    requires OfPr(runs[j], runs[i].repo, runs[i].prNumber)
    ensures runs[i].id == runs[j].id
  {
    BeforeTotal(runs[i].id, runs[j].id);
    var rows := RowsOf(runs);
    assert rows[i] == RowOf(runs[i]) && rows[j] == RowOf(runs[j]);
  }
}
