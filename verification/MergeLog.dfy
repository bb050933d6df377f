// The run page's log, merged as lines come in (dashboard/src/useRunLive.ts:16-21).
module MergeLog {
  import opened Sets

  datatype Line = Line(id: int, text: string)

  // --- Lines by id --------------------------------------------------------------------------

  // Map.prototype.set, line by line: of an id's lines the last stays.
  function ById(lines: seq<Line>): map<int, Line> {
    if lines == [] then map[]
    else
      var last := lines[|lines| - 1];
      ById(lines[..|lines| - 1])[last.id := last]
  }

  lemma {:induction false} ByIdHas(lines: seq<Line>)
    ensures var m := ById(lines);
      (forall id | id in m :: m[id] in lines && m[id].id == id) && (forall l | l in lines :: l.id in m)
  {
    if lines != [] {
      ByIdHas(lines[..|lines| - 1]);
    }
  }

  lemma ByIdNext(lines: seq<Line>, l: Line)
    ensures ById(lines + [l]) == ById(lines)[l.id := l]
  {
    assert (lines + [l])[..|lines|] == lines;
  }

  lemma {:induction false} ByIdConcat(a: seq<Line>, b: seq<Line>)
    ensures ById(a + b) == ById(a) + ById(b)
  {
    if b == [] {
      assert a + b == a;
    } else {
      var init, last := b[..|b| - 1], b[|b| - 1];
      assert a + b == (a + init) + [last] && b == init + [last];
      hide ById;
      ByIdConcat(a, init);
      ByIdNext(a + init, last);
      ByIdNext(init, last);
      PlusNext(ById(a), ById(init), last);
    }
  }

  lemma PlusNext(m: map<int, Line>, n: map<int, Line>, l: Line)
    ensures (m + n)[l.id := l] == m + n[l.id := l]
  {
  }

  ghost predicate Sorted(lines: seq<Line>) {
    forall i, j | 0 <= i < j < |lines| :: lines[i].id < lines[j].id
  }

  ghost predicate OnePerId(lines: seq<Line>) {
    forall k, l | k in lines && l in lines && k.id == l.id :: k == l
  }

  // A Map's values come in the order their keys were first set.
  function Values(keys: seq<int>, m: map<int, Line>): (lines: seq<Line>)
    requires forall i | 0 <= i < |keys| :: keys[i] in m
    ensures |lines| == |keys| && forall i | 0 <= i < |keys| :: lines[i] == m[keys[i]]
  {
    seq(|keys|, i requires 0 <= i < |keys| => m[keys[i]])
  }

  // --- Sorting and capping ------------------------------------------------------------------

  // Array.prototype.sort((x, y) => x.id - y.id), which is stable.
  function SortById(lines: seq<Line>): seq<Line> {
    if lines == [] then [] else Insert(lines[0], SortById(lines[1..]))
  }

  function Insert(line: Line, sorted: seq<Line>): seq<Line> {
    if sorted == [] || line.id <= sorted[0].id then [line] + sorted
    else [sorted[0]] + Insert(line, sorted[1..])
  }

  lemma {:induction false} InsertSorted(line: Line, sorted: seq<Line>)
    requires Sorted(sorted) && forall k | 0 <= k < |sorted| :: sorted[k].id != line.id
    ensures var r := Insert(line, sorted); Sorted(r) && forall l :: l in r <==> l == line || l in sorted
  {
    if sorted != [] && line.id > sorted[0].id {
      InsertSorted(line, sorted[1..]);
      var rest := Insert(line, sorted[1..]);
      assert sorted == [sorted[0]] + sorted[1..];
      forall j | 0 <= j < |rest| ensures sorted[0].id < rest[j].id {
        assert rest[j] in rest;
      }
    }
  }

  ghost predicate DistinctLines(lines: seq<Line>) {
    forall i, j | 0 <= i < j < |lines| :: lines[i].id != lines[j].id
  }

  lemma {:induction false} SortSorts(lines: seq<Line>)
    requires DistinctLines(lines)
    ensures Sorted(SortById(lines)) && forall l :: l in SortById(lines) <==> l in lines
  {
    if lines != [] {
      SortSorts(lines[1..]);
      var rest := SortById(lines[1..]);
      assert lines == [lines[0]] + lines[1..];
      forall k | 0 <= k < |rest| ensures rest[k].id != lines[0].id {
        assert rest[k] in rest;
      }
      InsertSorted(lines[0], rest);
    }
  }

  function LastOf(lines: seq<Line>, cap: nat): seq<Line> {
    if |lines| > cap then lines[|lines| - cap..] else lines
  }

  // --- What is kept -------------------------------------------------------------------------

  function Above(ids: set<int>, id: int): set<int> {
    set i | i in ids && i > id
  }

  // The `cap` greatest.
  function Top(ids: set<int>, cap: nat): set<int> {
    set i | i in ids && |Above(ids, i)| < cap
  }

  // The log of what `m` holds: its newest `cap` lines, in order.
  ghost predicate Shows(lines: seq<Line>, m: map<int, Line>, cap: nat) {
    && Sorted(lines)
    && Top(m.Keys, cap) <= m.Keys
    && forall l :: l in lines <==> l.id in Top(m.Keys, cap) && m[l.id] == l
  }

  method Merge(a: seq<Line>, b: seq<Line>, cap: nat) returns (lines: seq<Line>)
    ensures Shows(lines, ById(a + b), cap)
    ensures |lines| == if |ById(a + b)| < cap then |ById(a + b)| else cap
  {
    var keys, byId := Index(a + b);
    var sorted := SortById(Values(keys, byId));
    hide *;
    SortedShows(keys, byId, sorted);
    lines := LastOf(sorted, cap);
    CapShows(sorted, byId, cap);
  }

  method Index(all: seq<Line>) returns (keys: seq<int>, byId: map<int, Line>)
    ensures byId == ById(all) && Keys(keys, byId)
  {
    keys, byId := [], map[];
    for k := 0 to |all|
      invariant byId == ById(all[..k]) && Keys(keys, byId)
    {
      assert all[..k + 1] == all[..k] + [all[k]];
      ByIdNext(all[..k], all[k]);
      if all[k].id !in byId {
        keys := keys + [all[k].id];
      }
      byId := byId[all[k].id := all[k]];
    }
    assert all[..|all|] == all;
  }

  // A Map's keys, once each.
  ghost predicate Keys(keys: seq<int>, m: map<int, Line>) {
    && (forall i | 0 <= i < |keys| :: keys[i] in m)
    && (forall id | id in m :: id in keys && m[id].id == id)
    && (forall i, j | 0 <= i < j < |keys| :: keys[i] != keys[j])
  }

  // Sorted, the lines of `m` are all there, once each.
  ghost predicate Lays(sorted: seq<Line>, m: map<int, Line>) {
    Sorted(sorted) && (forall id | id in m :: m[id].id == id) && forall l :: l in sorted <==> l.id in m && m[l.id] == l
  }

  lemma SortedShows(keys: seq<int>, m: map<int, Line>, sorted: seq<Line>)
    requires Keys(keys, m) && sorted == SortById(Values(keys, m))
    ensures Lays(sorted, m)
  {
    var values := Values(keys, m);
    SortSorts(values);
    forall l ensures l in values <==> l.id in m && m[l.id] == l {
      if l in values {
        var i :| 0 <= i < |values| && values[i] == l;
        assert m[keys[i]].id == keys[i];
      }
      if l.id in m && m[l.id] == l {
        var i :| 0 <= i < |keys| && keys[i] == l.id;
        assert values[i] == l;
      }
    }
  }

  function IdsOf(lines: seq<Line>): (r: set<int>)
    ensures forall k | 0 <= k < |lines| :: lines[k].id in r
    ensures forall id | id in r :: exists k :: 0 <= k < |lines| && lines[k].id == id
  {
    set k | 0 <= k < |lines| :: lines[k].id
  }

  lemma {:induction false} IdsCount(lines: seq<Line>)
    requires Sorted(lines)
    ensures |IdsOf(lines)| == |lines|
  {
    if lines == [] {
      assert IdsOf(lines) == {};
    } else {
      var init, last := lines[..|lines| - 1], lines[|lines| - 1];
      LastIdNew(lines);
      hide Sorted, IdsOf;
      IdsCount(init);
    }
  }

  lemma LastIdNew(lines: seq<Line>)
    requires Sorted(lines) && lines != []
    ensures var init, last := lines[..|lines| - 1], lines[|lines| - 1];
      Sorted(init) && last.id !in IdsOf(init) && IdsOf(lines) == IdsOf(init) + {last.id}
  {
    var init, last := lines[..|lines| - 1], lines[|lines| - 1];
    assert lines == init + [last];
    forall k | 0 <= k < |init| ensures init[k].id < last.id {
      assert lines[k] == init[k];
    }
  }

  lemma PlaceIn(sorted: seq<Line>, m: map<int, Line>, id: int) returns (k: nat)
    requires Lays(sorted, m) && id in m
    ensures k < |sorted| && sorted[k].id == id
  {
    assert m[id] in sorted;
    k :| 0 <= k < |sorted| && sorted[k] == m[id];
  }

  lemma AboveCount(sorted: seq<Line>, m: map<int, Line>, k: nat)
    requires Lays(sorted, m) && k < |sorted|
    ensures |Above(m.Keys, sorted[k].id)| == |sorted| - k - 1
  {
    var later := sorted[k + 1..];
    forall id | id in Above(m.Keys, sorted[k].id) ensures id in IdsOf(later) {
      var j := PlaceIn(sorted, m, id);
      assert later[j - k - 1].id == id;
    }
    forall j | 0 <= j < |later| ensures later[j].id in Above(m.Keys, sorted[k].id) {
      assert later[j] == sorted[j + k + 1] && sorted[j + k + 1] in sorted;
    }
    IdsCount(later);
    assert Above(m.Keys, sorted[k].id) == IdsOf(later);
  }

  lemma LaidTop(sorted: seq<Line>, m: map<int, Line>, cap: nat, k: nat)
    requires Lays(sorted, m) && k < |sorted|
    ensures sorted[k].id in Top(m.Keys, cap) <==> k + cap >= |sorted|
  {
    assert sorted[k] in sorted;
    AboveCount(sorted, m, k);
  }

  lemma LaidCount(sorted: seq<Line>, m: map<int, Line>)
    requires Lays(sorted, m)
    ensures |sorted| == |m|
  {
    IdsCount(sorted);
    forall id ensures id in IdsOf(sorted) <==> id in m.Keys {
      if id in m {
        assert m[id] in sorted;
      }
      if id in IdsOf(sorted) {
        var k :| 0 <= k < |sorted| && sorted[k].id == id;
        assert sorted[k] in sorted;
      }
    }
    assert IdsOf(sorted) == m.Keys;
  }

  lemma CapShows(sorted: seq<Line>, m: map<int, Line>, cap: nat)
    requires Lays(sorted, m)
    ensures Shows(LastOf(sorted, cap), m, cap)
    ensures |LastOf(sorted, cap)| == if |m| < cap then |m| else cap
  {
    LaidCount(sorted, m);
    var lines, from := LastOf(sorted, cap), if |sorted| > cap then |sorted| - cap else 0;
    assert lines == sorted[from..];
    hide Top, LastOf;
    forall l ensures l in lines <==> l.id in Top(m.Keys, cap) && l in sorted {
      if l in sorted {
        var k :| 0 <= k < |sorted| && sorted[k] == l;
        LaidTop(sorted, m, cap, k);
        if k >= from {
          assert lines[k - from] == l;
        }
      }
    }
    TopWithin(m.Keys, cap);
  }

  lemma TopWithin(ids: set<int>, cap: nat)
    ensures Top(ids, cap) <= ids
  {
  }

  // --- Capping early loses nothing ----------------------------------------------------------

  lemma {:induction false} LeastOf(ids: set<int>) returns (least: int)
    requires ids != {}
    ensures least in ids && forall i | i in ids :: least <= i
    decreases |ids|
  {
    least := AnyOf(ids);
    var rest := ids - {least};
    assert ids == rest + {least};
    if rest != {} {
      var other := LeastOf(rest);
      least := if other < least then other else least;
    }
  }

  // There are `cap` greatest, if there are as many.
  lemma {:induction false} TopCount(ids: set<int>, cap: nat)
    ensures |Top(ids, cap)| == if |ids| < cap then |ids| else cap
    decreases |ids|
  {
    if ids == {} {
      assert Top(ids, cap) == {};
    } else {
      var m := LeastOf(ids);
      var rest := ids - {m};
      TopCount(rest, cap);
      forall i | i in rest ensures Above(ids, i) == Above(rest, i) {
      }
      assert Above(ids, m) == rest;
      assert Top(ids, cap) == Top(rest, cap) + (if |rest| < cap then {m} else {});
    }
  }

  // Adding ids only pushes others down.
  lemma TopShrinks(some: set<int>, ids: set<int>, cap: nat, id: int)
    requires some <= ids && id in some && id in Top(ids, cap)
    ensures id in Top(some, cap)
  {
    SubsetCount(Above(some, id), Above(ids, id));
  }

  lemma TopUpward(ids: set<int>, cap: nat, x: int, y: int)
    requires x in Top(ids, cap) && y in ids && y >= x
    ensures y in Top(ids, cap)
  {
    SubsetCount(Above(ids, y), Above(ids, x));
  }

  // What is not among the greatest now will not be once more have come.
  lemma TopOfTop(a: set<int>, b: set<int>, cap: nat)
    ensures Top(Top(a, cap) + b, cap) == Top(a + b, cap)
  {
    var kept, all := Top(a, cap) + b, a + b;
    hide Top, Above;
    TopWithin(a, cap);
    TopWithin(all, cap);
    TopWithin(kept, cap);
    forall id | id in Top(all, cap) ensures id in kept && id in Top(kept, cap) {
      if id in a {
        TopShrinks(a, all, cap, id);
      }
      TopShrinks(kept, all, cap, id);
    }
    forall id | id in Top(kept, cap) ensures id in Top(all, cap) {
      if id !in Top(all, cap) {
        TopOutside(kept, all, cap, id);
      }
    }
  }

  lemma TopOutside(kept: set<int>, all: set<int>, cap: nat, id: int)
    requires kept <= all && Top(all, cap) <= kept && id in kept && id !in Top(all, cap)
    ensures id !in Top(kept, cap)
  {
    forall y | y in Top(all, cap) ensures y in Above(kept, id) {
      if y <= id {
        TopUpward(all, cap, y, id);
      }
    }
    TopCount(all, cap);
    SubsetCount(Above(all, id), all);
    SubsetCount(Top(all, cap), Above(kept, id));
  }

  // A log is all its lines say it is: there is only one of them.
  lemma ShownOnce(x: seq<Line>, y: seq<Line>, m: map<int, Line>, cap: nat)
    requires Shows(x, m, cap) && Shows(y, m, cap)
    ensures x == y
  {
    hide Top;
    assert forall l :: l in x <==> l in y;
    SortedOnce(x, y);
  }

  lemma InitHas(x: seq<Line>, l: Line)
    requires Sorted(x) && x != []
    ensures l in x[..|x| - 1] <==> l in x && l != x[|x| - 1]
  {
    var init := x[..|x| - 1];
    assert x == init + [x[|x| - 1]];
    if l in init {
      var k :| 0 <= k < |init| && init[k] == l;
      assert x[k].id < x[|x| - 1].id;
    }
  }

  lemma {:induction false} SortedOnce(x: seq<Line>, y: seq<Line>)
    requires Sorted(x) && Sorted(y) && forall l :: l in x <==> l in y
    ensures x == y
  {
    assert (x == [] || x[0] in y) && (y == [] || y[0] in x);
    if x != [] && y != [] {
      var a, b := |x| - 1, |y| - 1;
      SameLast(x, y);
      hide Sorted;
      forall l ensures l in x[..a] <==> l in y[..b] {
        InitHas(x, l);
        InitHas(y, l);
      }
      SortedInit(x);
      SortedInit(y);
      SortedOnce(x[..a], y[..b]);
      assert x == x[..a] + [x[a]] && y == y[..b] + [y[b]];
    }
  }

  lemma SortedInit(x: seq<Line>)
    requires Sorted(x) && x != []
    ensures Sorted(x[..|x| - 1])
  {
  }

  lemma LastGreatest(x: seq<Line>, l: Line)
    requires Sorted(x) && l in x
    ensures l == x[|x| - 1] || l.id < x[|x| - 1].id
  {
    var k :| 0 <= k < |x| && x[k] == l;
  }

  lemma SameLast(x: seq<Line>, y: seq<Line>)
    requires Sorted(x) && Sorted(y) && x != [] && y != [] && forall l :: l in x <==> l in y
    ensures x[|x| - 1] == y[|y| - 1]
  {
    assert x[|x| - 1] in x && y[|y| - 1] in y;
    LastGreatest(x, y[|y| - 1]);
    LastGreatest(y, x[|x| - 1]);
  }

  // A log merged with more lines is what all the lines it was made of and these would make.
  lemma MergeAgain(seen: seq<Line>, log: seq<Line>, more: seq<Line>, lines: seq<Line>, cap: nat)
    requires Shows(log, ById(seen), cap) && Shows(lines, ById(log + more), cap)
    ensures Shows(lines, ById(seen + more), cap)
  {
    var m, n := ById(seen), ById(more);
    ByIdConcat(seen, more);
    ByIdConcat(log, more);
    ByIdHas(seen);
    LogById(log, m, cap);
    var kept := ById(log);
    hide ById, Top;
    assert kept.Keys == Top(m.Keys, cap);
    assert (kept + n).Keys == Top(m.Keys, cap) + n.Keys;
    assert (m + n).Keys == m.Keys + n.Keys;
    TopOfTop(m.Keys, n.Keys, cap);
    TopWithin((kept + n).Keys, cap);
    TopWithin((m + n).Keys, cap);
    forall l ensures l in lines <==> l.id in Top((m + n).Keys, cap) && (m + n)[l.id] == l {
    }
  }

  lemma LogById(log: seq<Line>, m: map<int, Line>, cap: nat)
    requires Shows(log, m, cap) && forall id | id in m :: m[id].id == id
    ensures var kept := ById(log); kept.Keys == Top(m.Keys, cap) && forall id | id in kept :: kept[id] == m[id]
  {
    hide Top;
    ByIdHas(log);
    var kept := ById(log);
    forall id | id in kept ensures id in Top(m.Keys, cap) && kept[id] == m[id] {
      assert kept[id] in log;
    }
    forall id | id in Top(m.Keys, cap) ensures id in kept {
      assert m[id] in log;
    }
    assert kept.Keys == Top(m.Keys, cap);
  }

  // The page's log: what it held at first, and each message's lines as they came.
  ghost predicate Logs(logs: seq<seq<Line>>, batches: seq<seq<Line>>, cap: nat) {
    && |logs| == |batches| > 0
    && Shows(logs[0], ById([] + batches[0]), cap)
    && forall k | 0 < k < |logs| :: Shows(logs[k], ById(logs[k - 1] + batches[k]), cap)
  }

  function Concat(batches: seq<seq<Line>>): seq<Line> {
    if batches == [] then [] else Concat(batches[..|batches| - 1]) + batches[|batches| - 1]
  }

  // Merging batch by batch with the cap each time comes to merging all the lines and capping once.
  lemma {:induction false} CappingEarlyLosesNothing(logs: seq<seq<Line>>, batches: seq<seq<Line>>, cap: nat)
    requires Logs(logs, batches, cap)
    ensures Shows(logs[|logs| - 1], ById(Concat(batches)), cap)
    decreases |logs|
  {
    var k := |logs| - 1;
    hide Shows;
    if k == 0 {
      assert batches[..0] == [] && Concat(batches) == [] + batches[0];
    } else {
      CappingEarlyLosesNothing(logs[..k], batches[..k], cap);
      MergeAgain(Concat(batches[..k]), logs[k - 1], batches[k], logs[k], cap);
    }
  }

  // With one line an id, neither the order the lines come in nor their repetition matters.
  lemma OrderAndRepetitionVanish(a: seq<Line>, b: seq<Line>, x: seq<Line>, y: seq<Line>, cap: nat)
    requires OnePerId(a) && forall l :: l in a <==> l in b
    requires Shows(x, ById(a), cap) && Shows(y, ById(b), cap)
    ensures x == y
  {
    ByIdHas(a);
    ByIdHas(b);
    var m, n := ById(a), ById(b);
    hide ById, Shows;
    forall id ensures id in m <==> id in n {
      if id in m {
        assert m[id] in b;
      }
      if id in n {
        assert n[id] in a;
      }
    }
    forall id | id in m ensures m[id] == n[id] {
      assert m[id] in a && n[id] in a;
    }
    assert m == n;
    ShownOnce(x, y, m, cap);
  }
}
