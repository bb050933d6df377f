// The `For: #<n>` lines of a goal, and the regular expression that finds them
// (shared/src/design.ts:7-11).
module ForLines {
  import opened Domain
  import opened RunNames

  predicate At(text: string, p: nat, part: string) {
    p + |part| <= |text| && text[p..p + |part|] == part
  }

  // --- Lines --------------------------------------------------------------------------------

  const FOR := "For: #"

  predicate IsTerminator(c: char) {
    c == '\n' || c == '\r' || c == '\U{2028}' || c == '\U{2029}'
  }

  // `\s`.
  predicate IsSpace(c: char) {
    || IsTerminator(c) || c == ' ' || '\t' <= c <= '\U{0C}' || c == '\U{A0}' || c == '\U{1680}'
    || '\U{2000}' <= c <= '\U{200A}' || c == '\U{202F}' || c == '\U{205F}' || c == '\U{3000}' || c == '\U{FEFF}'
  }

  // `^` and `$` with the m flag.
  predicate StartsLine(text: string, p: nat) {
    p == 0 || (p <= |text| && IsTerminator(text[p - 1]))
  }

  predicate EndsLine(text: string, p: nat) {
    p == |text| || (p < |text| && IsTerminator(text[p]))
  }

  // Where the run of characters of one kind that starts at `p` ends.
  function RunEnd(text: string, p: nat, kind: char -> bool): (q: nat)
    requires p <= |text|
    ensures p <= q <= |text|
    ensures forall k | p <= k < q :: kind(text[k])
    ensures q < |text| ==> !kind(text[q])
    decreases |text| - p
  {
    if p < |text| && kind(text[p]) then RunEnd(text, p + 1, kind) else p
  }

  function LineEnd(text: string, p: nat): (q: nat)
    requires p <= |text|
    ensures p <= q <= |text| && EndsLine(text, q)
    ensures forall k | p <= k < q :: !IsTerminator(text[k])
  {
    RunEnd(text, p, c => !IsTerminator(c))
  }

  // The number that digits write.
  function Value(digits: string): nat
    requires forall k | 0 <= k < |digits| :: IsDigit(digits[k])
  {
    if digits == "" then 0
    else
      var last := digits[|digits| - 1];
      assert IsDigit(last);
      10 * Value(digits[..|digits| - 1]) + (last as int - '0' as int)
  }

  // The number a whole line gives: the fixed words, digits, and nothing more but white space.
  function ForNumber(line: string): Option<nat> {
    if !At(line, 0, FOR) then None
    else
      var digits := RunEnd(line, |FOR|, IsDigit);
      if digits == |FOR| || RunEnd(line, digits, IsSpace) != |line| then None
      else Some(Value(line[|FOR|..digits]))
  }

  function One(number: Option<nat>): seq<nat> {
    if number.None? then [] else [number.value]
  }

  // The numbers the lines from `p` on give, line by line.
  function LineNumbers(text: string, p: nat): seq<nat>
    requires p <= |text|
    decreases |text| - p
  {
    var q := LineEnd(text, p);
    One(ForNumber(text[p..q])) + if q == |text| then [] else LineNumbers(text, q + 1)
  }

  // --- The regular expression ---------------------------------------------------------------

  datatype Found = Found(number: nat, end: nat)

  // Where `\s*$` leaves off in a run of white space: as late as it can.
  function LastEnd(text: string, low: nat, high: nat): (r: Option<nat>)
    requires low <= high <= |text|
    ensures r.Some? ==> low <= r.value <= high && EndsLine(text, r.value)
    ensures r.None? ==> forall k | low <= k <= high :: !EndsLine(text, k)
    decreases high
  {
    if EndsLine(text, high) then Some(high)
    else if high == low then None
    else LastEnd(text, low, high - 1)
  }

  // The match of /^For: #(\d+)\s*$/m at `p`. With fewer digits it could not go on, since a digit is no
  // white space and ends no line.
  function MatchAt(text: string, p: nat): (m: Option<Found>)
    requires p <= |text|
    ensures m.Some? ==> p < m.value.end <= |text|
  {
    if !StartsLine(text, p) || !At(text, p, FOR) then None
    else
      var digits := RunEnd(text, p + |FOR|, IsDigit);
      if digits == p + |FOR| then None
      else
        var end := LastEnd(text, digits, RunEnd(text, digits, IsSpace));
        if end.None? then None else Some(Found(Value(text[p + |FOR|..digits]), end.value))
  }

  // --- The expression reads whole lines, and misses none ------------------------------------

  // The numbers of the lines that start at `p` or later.
  function NumbersFrom(text: string, p: nat): seq<nat>
    requires p <= |text|
  {
    if StartsLine(text, p) then LineNumbers(text, p)
    else
      var q := LineEnd(text, p);
      if q == |text| then [] else LineNumbers(text, q + 1)
  }

  lemma RunEndIs(text: string, p: nat, kind: char -> bool, q: nat)
    requires p <= q <= |text|
    requires forall k | p <= k < q :: kind(text[k])
    requires q < |text| ==> !kind(text[q])
    ensures RunEnd(text, p, kind) == q
  {
    var r := RunEnd(text, p, kind);
    assert forall k | p <= k < q :: kind(text[k]);
  }

  lemma AtChars(text: string, p: nat, part: string)
    ensures At(text, p, part) <==> p + |part| <= |text| && forall k | 0 <= k < |part| :: text[p + k] == part[k]
  {
    if p + |part| <= |text| {
      var here := text[p..p + |part|];
      assert forall k | 0 <= k < |part| :: here[k] == text[p + k];
    }
  }

  lemma OnOneLine(text: string, p: nat)
    requires At(text, p, FOR)
    ensures forall k | p <= k < p + |FOR| :: !IsTerminator(text[k])
    ensures !IsSpace(text[p])
  {
    AtChars(text, p, FOR);
    forall k | p <= k < p + |FOR| ensures !IsTerminator(text[k]) {
      assert text[k] == FOR[k - p];
    }
    assert text[p] == FOR[0];
  }

  lemma DigitsAreText(c: char)
    requires IsDigit(c)
    ensures !IsSpace(c) && !IsTerminator(c)
  {
  }

  // A line's fixed words and digits are the text's.
  lemma LineDigits(text: string, p: nat)
    requires p <= |text| && At(text[p..LineEnd(text, p)], 0, FOR)
    ensures At(text, p, FOR)
    ensures var line := text[p..LineEnd(text, p)];
      RunEnd(text, p + |FOR|, IsDigit) == p + RunEnd(line, |FOR|, IsDigit)
  {
    var q := LineEnd(text, p);
    var line := text[p..q];
    assert text[p..p + |FOR|] == line[0..|FOR|];
    var r := RunEnd(line, |FOR|, IsDigit);
    assert forall k | p + |FOR| <= k < p + r :: text[k] == line[k - p];
    assert p + r < |text| ==> !IsDigit(text[p + r]);
    RunEndIs(text, p + |FOR|, IsDigit, p + r);
  }

  // What a match at `p` says of the text: the fixed words, digits, then white space to a line's end.
  ghost predicate Shape(text: string, p: nat, digits: nat, m: Found) {
    && p + |FOR| < digits <= m.end <= |text| && StartsLine(text, p) && At(text, p, FOR)
    && digits == RunEnd(text, p + |FOR|, IsDigit)
    && m.number == Value(text[p + |FOR|..digits])
    && EndsLine(text, m.end) && forall k | digits <= k < m.end :: IsSpace(text[k])
  }

  lemma MatchShape(text: string, p: nat) returns (digits: nat)
    requires p <= |text| && MatchAt(text, p).Some?
    ensures Shape(text, p, digits, MatchAt(text, p).value)
  {
    digits := RunEnd(text, p + |FOR|, IsDigit);
    hide RunEnd, LastEnd, At, StartsLine, EndsLine, Value, IsSpace, IsDigit;
  }

  lemma ShapeEnds(text: string, p: nat, digits: nat, m: Found)
    requires Shape(text, p, digits, m)
    ensures digits <= LineEnd(text, p) <= m.end
  {
    OnOneLine(text, p);
    forall k | p + |FOR| <= k < digits ensures !IsTerminator(text[k]) {
      DigitsAreText(text[k]);
    }
    hide RunEnd, Value, IsSpace, IsDigit, At, IsTerminator;
  }

  // Where the expression matches, the line is a `For:` line, of the same number.
  lemma MatchIsLine(text: string, p: nat, digits: nat, m: Found)
    requires Shape(text, p, digits, m)
    ensures ForNumber(text[p..LineEnd(text, p)]) == Some(m.number)
  {
    ShapeEnds(text, p, digits, m);
    var q := LineEnd(text, p);
    var line := text[p..q];
    AtChars(text, p, FOR);
    AtChars(line, 0, FOR);
    hide At, Value, IsSpace, IsDigit, IsTerminator, StartsLine, EndsLine, LineEnd;
    assert forall k | 0 <= k < |line| :: line[k] == text[p + k];
    LineDigits(text, p);
    assert line[|FOR|..digits - p] == text[p + |FOR|..digits];
    RunEndIs(line, digits - p, IsSpace, |line|);
  }

  // Where a line is a `For:` line, the expression matches.
  lemma LineIsMatch(text: string, p: nat)
    requires p <= |text| && StartsLine(text, p) && ForNumber(text[p..LineEnd(text, p)]).Some?
    ensures MatchAt(text, p).Some?
  {
    var q := LineEnd(text, p);
    var line := text[p..q];
    LineDigits(text, p);
    var digits := RunEnd(line, |FOR|, IsDigit);
    var spaces := RunEnd(text, p + digits, IsSpace);
    assert forall k | p + digits <= k < q :: text[k] == line[k - p];
    assert q <= spaces;
  }

  lemma SameLineEnd(text: string, p: nat)
    requires p < |text| && !IsTerminator(text[p])
    ensures LineEnd(text, p) == LineEnd(text, p + 1)
  {
    hide IsTerminator;
    RunEndIs(text, p, c => !IsTerminator(c), LineEnd(text, p + 1));
  }

  lemma EmptyLineEnd(text: string, p: nat)
    requires p <= |text| && EndsLine(text, p)
    ensures LineEnd(text, p) == p
  {
  }

  lemma NoNumberHere(text: string, p: nat)
    requires p <= |text| && MatchAt(text, p).None? && StartsLine(text, p)
    ensures ForNumber(text[p..LineEnd(text, p)]).None?
  {
    hide *;
    if ForNumber(text[p..LineEnd(text, p)]).Some? {
      LineIsMatch(text, p);
    }
  }

  // Going on by one character where nothing matches loses no line.
  lemma StepOver(text: string, p: nat)
    requires p < |text| && MatchAt(text, p).None?
    ensures NumbersFrom(text, p) == NumbersFrom(text, p + 1)
  {
    hide MatchAt, ForNumber, LineEnd, IsTerminator, LineNumbers;
    if StartsLine(text, p) {
      NoNumberHere(text, p);
      LineWithout(text, p);
    }
    if IsTerminator(text[p]) {
      EmptyLineEnd(text, p);
    } else {
      SameLineEnd(text, p);
    }
  }

  // A line that gives no number leaves the lines after it.
  lemma LineWithout(text: string, p: nat)
    requires p <= |text| && ForNumber(text[p..LineEnd(text, p)]).None?
    ensures var q := LineEnd(text, p); LineNumbers(text, p) == if q == |text| then [] else LineNumbers(text, q + 1)
  {
    hide ForNumber, LineEnd;
  }

  lemma NoMatchAtSpace(text: string, p: nat)
    requires p < |text| && IsSpace(text[p])
    ensures MatchAt(text, p).None?
  {
    if At(text, p, FOR) {
      OnOneLine(text, p);
    }
    hide At, IsSpace;
  }

  lemma {:induction false} SpacesStepOver(text: string, p: nat, q: nat)
    requires p <= q <= |text| && forall k | p <= k < q :: IsSpace(text[k])
    ensures NumbersFrom(text, p) == NumbersFrom(text, q)
    decreases q - p
  {
    hide *;
    if p < q {
      NoMatchAtSpace(text, p);
      StepOver(text, p);
      SpacesStepOver(text, p + 1, q);
    }
  }

  lemma LineWith(text: string, p: nat, n: nat)
    requires p <= |text| && ForNumber(text[p..LineEnd(text, p)]) == Some(n)
    ensures var q := LineEnd(text, p);
      LineNumbers(text, p) == [n] + if q == |text| then [] else LineNumbers(text, q + 1)
  {
    hide ForNumber, LineEnd;
  }

  lemma NotStart(text: string, q: nat)
    requires 0 < q <= |text| && !IsTerminator(text[q - 1])
    ensures !StartsLine(text, q)
  {
  }

  lemma LineEndStartsNone(text: string, p: nat)
    requires p <= |text| && p < LineEnd(text, p)
    ensures var q := LineEnd(text, p);
      NumbersFrom(text, q) == if q == |text| then [] else LineNumbers(text, q + 1)
  {
    hide LineEnd, IsTerminator, LineNumbers;
    var q := LineEnd(text, p);
    NotStart(text, q);
    EmptyLineEnd(text, q);
  }

  // The line at `p` gives `n`, and what is left are the lines from its end on.
  lemma LineTaken(text: string, p: nat, n: nat)
    requires p <= |text| && p < LineEnd(text, p) && StartsLine(text, p)
    requires ForNumber(text[p..LineEnd(text, p)]) == Some(n)
    ensures NumbersFrom(text, p) == [n] + NumbersFrom(text, LineEnd(text, p))
  {
    LineWith(text, p, n);
    LineEndStartsNone(text, p);
    assert NumbersFrom(text, p) == LineNumbers(text, p);
    hide *;
  }

  // A match may take blank lines with it, but never one that gives a number.
  lemma MatchTakesOne(text: string, p: nat)
    requires p <= |text| && MatchAt(text, p).Some?
    ensures NumbersFrom(text, p) == [MatchAt(text, p).value.number] + NumbersFrom(text, MatchAt(text, p).value.end)
  {
    hide *;
    var m := MatchAt(text, p).value;
    var digits := MatchShape(text, p);
    ShapeEnds(text, p, digits, m);
    MatchIsLine(text, p, digits, m);
    ShapeFacts(text, p, digits, m);
    LineTaken(text, p, m.number);
    SpacesStepOver(text, LineEnd(text, p), m.end);
  }

  lemma ShapeFacts(text: string, p: nat, digits: nat, m: Found)
    requires Shape(text, p, digits, m)
    ensures p < digits && StartsLine(text, p) && m.end <= |text| && forall k | digits <= k < m.end :: IsSpace(text[k])
  {
  }

  lemma NothingAtTheEnd(text: string)
    ensures NumbersFrom(text, |text|) == []
  {
    var p := |text|;
    EmptyLineEnd(text, p);
    assert ForNumber(text[p..p]).None? by {
      hide LineEnd, NumbersFrom, LineNumbers;
    }
    hide LineEnd, ForNumber, StartsLine;
    LineWithout(text, p);
    hide LineNumbers;
  }

  lemma AtTheEnds(text: string)
    ensures NumbersFrom(text, 0) == LineNumbers(text, 0) && NumbersFrom(text, |text|) == []
  {
    NothingAtTheEnd(text);
    hide LineEnd, LineNumbers;
  }

  lemma WrittenRuns(digits: string, spaces: string)
    requires digits != "" && forall k | 0 <= k < |digits| :: IsDigit(digits[k])
    requires forall k | 0 <= k < |spaces| :: IsSpace(spaces[k])
    ensures var line, p := FOR + digits + spaces, |FOR| + |digits|;
      && line[..|FOR|] == FOR && line[|FOR|..p] == digits
      && RunEnd(line, |FOR|, IsDigit) == p && RunEnd(line, p, IsSpace) == |line|
  {
    var line, p := FOR + digits + spaces, |FOR| + |digits|;
    forall k | |FOR| <= k < p ensures IsDigit(line[k]) {
      assert line[k] == digits[k - |FOR|];
    }
    forall k | p <= k < |line| ensures IsSpace(line[k]) {
      assert line[k] == spaces[k - p];
    }
    if p < |line| && IsDigit(line[p]) {
      DigitsAreText(line[p]);
    }
    hide IsDigit, IsSpace;
    RunEndIs(line, |FOR|, IsDigit, p);
    RunEndIs(line, p, IsSpace, |line|);
  }

  // A line written as asked is read as it was written.
  lemma LineReadBack(n: nat, spaces: string)
    requires forall k | 0 <= k < |spaces| :: IsSpace(spaces[k])
    ensures ForNumber(FOR + Decimal(n) + spaces) == Some(n)
  {
    ValueOfDecimal(n);
    WrittenRuns(Decimal(n), spaces);
    hide Decimal, Value, RunEnd, IsDigit, IsSpace;
  }

  lemma {:induction false} ValueOfDecimal(n: nat)
    ensures Value(Decimal(n)) == n
  {
    var digits := Decimal(n);
    assert digits[..|digits| - 1] == if n < 10 then "" else Decimal(n / 10);
    if n >= 10 {
      ValueOfDecimal(n / 10);
    }
  }
}
