// The trail name of a run (shared/src/triage.ts:84-105).
module RunNames {
  import opened Domain
  import opened Sets

  // --- Numbers as JavaScript writes them ----------------------------------------------------

  const DIGITS := "0123456789"

  predicate IsDigit(c: char) {
    '0' <= c <= '9'
  }

  function Decimal(n: nat): (s: string)
    ensures s != "" && forall k | 0 <= k < |s| :: IsDigit(s[k])
  {
    (if n < 10 then "" else Decimal(n / 10)) + [DIGITS[n % 10]]
  }

  lemma {:induction false} DecimalInjective(m: nat, n: nat)
    requires Decimal(m) == Decimal(n)
    ensures m == n
  {
    var s, t := Decimal(m), Decimal(n);
    assert s[|s| - 1] == DIGITS[m % 10] && t[|t| - 1] == DIGITS[n % 10];
    assert s[..|s| - 1] == (if m < 10 then "" else Decimal(m / 10));
    assert t[..|t| - 1] == (if n < 10 then "" else Decimal(n / 10));
    if m >= 10 && n >= 10 {
      DecimalInjective(m / 10, n / 10);
    }
  }

  // --- Where the last name was --------------------------------------------------------------

  // Array.prototype.indexOf.
  function IndexOf(names: seq<string>, name: string): (i: int)
    ensures -1 <= i < |names|
    ensures i >= 0 ==> names[i] == name && forall j | 0 <= j < i :: names[j] != name
    ensures i == -1 ==> name !in names
  {
    if names == [] then -1
    else if names[0] == name then 0
    else
      var i := IndexOf(names[1..], name);
      if i == -1 then -1 else i + 1
  }

  // How many characters from the end are digits.
  function DigitTail(name: string): (n: nat)
    ensures n <= |name|
  {
    if name == "" || !IsDigit(name[|name| - 1]) then 0 else 1 + DigitTail(name[..|name| - 1])
  }

  // name.replace(/ \d+$/, "").
  function Unlapped(name: string): string {
    var digits := DigitTail(name);
    if 0 < digits < |name| && name[|name| - digits - 1] == ' ' then name[..|name| - digits - 1] else name
  }

  function IndexOfName(names: seq<string>, name: string): (i: int)
    ensures -1 <= i < |names|
  {
    var exact := IndexOf(names, name);
    if exact != -1 then exact else IndexOf(names, Unlapped(name))
  }

  function Lapped(name: string, lap: nat): string {
    if lap == 1 then name else name + " " + Decimal(lap)
  }

  lemma {:induction false} TailOf(name: string, digits: string)
    requires forall k | 0 <= k < |digits| :: IsDigit(digits[k])
    ensures DigitTail(name + " " + digits) == |digits|
  {
    var s := name + " " + digits;
    if digits != "" {
      assert s[..|s| - 1] == name + " " + digits[..|digits| - 1];
      TailOf(name, digits[..|digits| - 1]);
    }
  }

  // A lapped name is read back as the name it laps, unless the list has a trail of that very name.
  lemma LapReadBack(names: seq<string>, name: string, lap: nat)
    requires lap >= 2
    ensures var lapped := Lapped(name, lap);
      IndexOfName(names, lapped) == if lapped in names then IndexOf(names, lapped) else IndexOf(names, name)
  {
    TailOf(name, Decimal(lap));
    var lapped := Lapped(name, lap);
    assert lapped[..|name|] == name;
  }

  lemma LapsDiffer(name: string, m: nat, n: nat)
    requires 1 <= m < n
    ensures Lapped(name, m) != Lapped(name, n)
  {
    assert |Lapped(name, n)| > |name|;
    if m > 1 && Lapped(name, m) == Lapped(name, n) {
      assert Lapped(name, m)[|name| + 1..] == Decimal(m) && Lapped(name, n)[|name| + 1..] == Decimal(n);
      DecimalInjective(m, n);
    }
  }

  // --- The pick -----------------------------------------------------------------------------

  function Start(names: seq<string>, last: Option<string>): (start: int)
    ensures -1 <= start < |names|
  {
    if last.None? then -1 else IndexOfName(names, last.value)
  }

  function Candidate(names: seq<string>, start: int, lap: nat, step: nat): string
    requires names != [] && start >= -1 && step >= 1
  {
    Lapped(names[(start + step) % |names|], lap)
  }

  // A whole lap is taken.
  ghost predicate LapTaken(names: seq<string>, active: set<string>, start: int, lap: nat)
    requires names != [] && start >= -1
  {
    forall step | 1 <= step <= |names| :: Candidate(names, start, lap, step) in active
  }

  // The pick: the first free candidate, lap by lap and, within a lap, in cyclic order from the one
  // after the last.
  ghost predicate FirstFree(names: seq<string>, active: set<string>, start: int, lap: nat, step: nat)
    requires names != [] && start >= -1
  {
    && 1 <= lap && 1 <= step <= |names|
    && Candidate(names, start, lap, step) !in active
    && (forall s | 1 <= s < step :: Candidate(names, start, lap, s) in active)
    && forall l | 1 <= l < lap :: LapTaken(names, active, start, l)
  }

  function LapsOf(name: string, laps: nat): (r: set<string>)
    ensures forall s :: s in r <==> exists l :: 1 <= l <= laps && Lapped(name, l) == s
  {
    set l | 1 <= l <= laps :: Lapped(name, l)
  }

  lemma {:induction false} LapsCount(name: string, laps: nat)
    ensures |LapsOf(name, laps)| == laps
  {
    hide Lapped;
    if laps > 0 {
      LapsCount(name, laps - 1);
      forall l | 1 <= l < laps ensures Lapped(name, l) != Lapped(name, laps) {
        LapsDiffer(name, l, laps);
      }
      var fewer, last := LapsOf(name, laps - 1), Lapped(name, laps);
      assert last !in fewer;
      forall s ensures s in LapsOf(name, laps) <==> s in fewer + {last} {
        if s in LapsOf(name, laps) {
          var l :| 1 <= l <= laps && Lapped(name, l) == s;
        }
      }
      assert LapsOf(name, laps) == fewer + {last};
    } else {
      assert LapsOf(name, laps) == {};
    }
  }

  // Laps that are taken whole need as many active names.
  lemma LapsBound(names: seq<string>, active: set<string>, start: int, laps: nat)
    requires names != [] && start >= -1
    requires forall l | 1 <= l <= laps :: LapTaken(names, active, start, l)
    ensures laps <= |active|
  {
    var name := names[(start + 1) % |names|];
    forall s | s in LapsOf(name, laps) ensures s in active {
      var l :| 1 <= l <= laps && Lapped(name, l) == s;
      assert LapTaken(names, active, start, l);
      assert Candidate(names, start, l, 1) == s;
    }
    LapsCount(name, laps);
    SubsetCount(LapsOf(name, laps), active);
  }

  // The search has no bound of its own: it ends within one lap more than there are active names.
  method PickRunName(names: seq<string>, active: set<string>, last: Option<string>)
    returns (name: string, ghost lap: nat, ghost step: nat)
    requires names != []
    ensures name !in active
    ensures FirstFree(names, active, Start(names, last), lap, step)
    ensures name == Candidate(names, Start(names, last), lap, step)
    ensures lap <= |active| + 1
  {
    var start := -1;
    if last.Some? {
      start := IndexOfName(names, last.value);
    }
    var l := 1;
    while true
      invariant 1 <= l <= |active| + 1
      invariant forall k | 1 <= k < l :: LapTaken(names, active, start, k)
      decreases |active| + 1 - l
    {
      for s := 1 to |names| + 1
        invariant forall k | 1 <= k < s :: Candidate(names, start, l, k) in active
      {
        var plain := names[(start + s) % |names|];
        var candidate := if l == 1 then plain else plain + " " + Decimal(l);
        if candidate !in active {
          return candidate, l, s;
        }
      }
      LapsBound(names, active, start, l);
      l := l + 1;
    }
  }

  // A lap number follows only when every plain name is active.
  lemma PlainWhileFree(names: seq<string>, active: set<string>, last: Option<string>, lap: nat, step: nat)
    requires names != [] && FirstFree(names, active, Start(names, last), lap, step)
    ensures lap == 1 <==> exists k :: 0 <= k < |names| && names[k] !in active
  {
    var start := Start(names, last);
    if lap == 1 {
      assert names[(start + step) % |names|] !in active;
    } else {
      assert LapTaken(names, active, start, 1);
      forall k | 0 <= k < |names| ensures names[k] in active {
        var s := StepTo(start, |names|, k);
        assert Candidate(names, start, 1, s) == names[k];
      }
    }
  }

  lemma StepTo(start: int, n: nat, k: nat) returns (step: nat)
    requires -1 <= start < n && k < n
    ensures 1 <= step <= n && (start + step) % n == k
  {
    step := if k > start then k - start else k - start + n;
    if k > start {
      assert start + step == k;
    } else {
      assert start + step == k + n;
      ModShift(k, n);
    }
  }

  lemma ModShift(k: nat, n: nat)
    requires k < n
    ensures (k + n) % n == k
  {
  }

  // Each run gets a new name: the last one comes round again only when every other is active.
  lemma LastComesLast(names: seq<string>, active: set<string>, last: string, lap: nat, step: nat)
    requires last in names && forall i, j | 0 <= i < j < |names| :: names[i] != names[j]
    requires FirstFree(names, active, Start(names, Some(last)), lap, step)
    requires Candidate(names, Start(names, Some(last)), lap, step) == last && lap == 1
    ensures forall k | 0 <= k < |names| && names[k] != last :: names[k] in active
  {
    var start := Start(names, Some(last));
    assert names[start] == last;
    assert (start + step) % |names| == start;
    forall k | 0 <= k < |names| && names[k] != last ensures names[k] in active {
      var s := StepTo(start, |names|, k);
      assert step == |names| by {
        if step < |names| {
          NotRound(start, |names|, step);
        }
      }
      ModShift(start, |names|);
      assert s < step;
      assert Candidate(names, start, 1, s) == names[k];
    }
  }

  lemma NotRound(start: nat, n: nat, step: nat)
    requires start < n && 1 <= step < n
    ensures (start + step) % n != start
  {
    if start + step >= n {
      ModShift(start + step - n, n);
    }
  }
}
