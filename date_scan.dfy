/**
  The two regular expressions of `callOpenAIAPI` (src/taskpane/taskpane.js) and
  `String.prototype.replace` with a global regular expression and a replacement function.

  `\d{1,2}\.\d{1,2}\.\d{4}` matches one or two digits, a dot, one or two digits, a dot and
  four digits; the range expression is two of these around a hyphen. Neither is anchored
  and neither looks behind, so whether a match starts at an index depends only on the text
  from that index on: matching is defined on a suffix of the text.
 */
module DateScan {
  import opened Wrappers
  import opened Text

  // ---------------------------------------------------------------------------
  // Matching at the front of a text
  // ---------------------------------------------------------------------------

  /** `t` starts with a date whose day has `n1` digits and whose month has `n2` digits. */
  predicate DateShape(t: string, n1: nat, n2: nat) {
    1 <= n1 <= 2 && 1 <= n2 <= 2 && n1 + n2 + 6 <= |t|
    && IsDigit(t[0]) && (n1 == 2 ==> IsDigit(t[1])) && t[n1] == '.'
    && IsDigit(t[n1 + 1]) && (n2 == 2 ==> IsDigit(t[n1 + 2])) && t[n1 + n2 + 1] == '.'
    && IsDigit(t[n1 + n2 + 2]) && IsDigit(t[n1 + n2 + 3]) && IsDigit(t[n1 + n2 + 4]) && IsDigit(t[n1 + n2 + 5])
  }

  /**
    At most one shape fits the front of a text: a third character that is a digit rules out
    a one-digit day, a dot rules out a two-digit day, and likewise for the month. So the
    order in which the regular expression engine backtracks through `\d{1,2}` does not
    change which text a match covers.
   */
  lemma DateShapeUnique(t: string, n1: nat, n2: nat, m1: nat, m2: nat)
    requires DateShape(t, n1, n2) && DateShape(t, m1, m2)
    ensures n1 == m1 && n2 == m2
  {
  }

  /**
    The length of the match of `\d{1,2}\.\d{1,2}\.\d{4}` at the front of `t`, trying the
    shapes in the engine's backtracking order (greedy first), or None.
   */
  function DateLength(t: string): (n: Option<nat>)
    ensures n.Some? ==> 8 <= n.value <= 10 && n.value <= |t|
  {
    if DateShape(t, 2, 2) then Some(10)
    else if DateShape(t, 2, 1) then Some(9)
    else if DateShape(t, 1, 2) then Some(9)
    else if DateShape(t, 1, 1) then Some(8)
    else None
  }

  /** The match covers the shape that fits the front of the text, whichever it is. */
  lemma DateLengthOfShape(t: string, n1: nat, n2: nat)
    requires DateShape(t, n1, n2)
    ensures DateLength(t) == Some(n1 + n2 + 6)
  {
    if n1 == 1 { assert !DateShape(t, 2, 2) && !DateShape(t, 2, 1); }
    if n2 == 1 { assert !DateShape(t, n1, 2); }
  }

  /** A match has the shape of a date. */
  lemma ShapeOfDateLength(t: string) returns (n1: nat, n2: nat)
    requires DateLength(t).Some?
    ensures DateShape(t, n1, n2) && DateLength(t) == Some(n1 + n2 + 6)
  {
    if DateShape(t, 2, 2) { n1, n2 := 2, 2; }
    else if DateShape(t, 2, 1) { n1, n2 := 2, 1; }
    else if DateShape(t, 1, 2) { n1, n2 := 1, 2; }
    else { n1, n2 := 1, 1; }
  }

  /** `t` is exactly one date. */
  predicate IsDate(t: string) {
    DateLength(t) == Some(|t|)
  }

  /**
    The length of the match of the range expression at the front of `t`: a date, a hyphen
    right after it, and a date right after that.
   */
  function RangeLength(t: string): (n: Option<nat>)
    ensures n.Some? ==> DateLength(t).Some? && DateLength(t).value < |t|
    ensures n.Some? ==> 17 <= n.value <= |t|
  {
    var d := DateLength(t);
    if d.None? || d.value == |t| || t[d.value] != '-' then None
    else
      var e := DateLength(t[d.value + 1..]);
      if e.None? then None else Some(d.value + 1 + e.value)
  }

  /**
    The expressions the model knows: the single date and the range of `callOpenAIAPI`, and
    `\d{1,2}\.\d{1,2}\.\d{4}(?:-\d{1,2}\.\d{1,2}\.\d{4})?`, a range or else a single date,
    which the corrected rewrite uses.
   */
  datatype Pattern = SingleDate | DateRange | RangeOrDate

  /** The length of the match of `p` at the front of `t`, or None. */
  function MatchAt(p: Pattern, t: string): (n: Option<nat>)
    ensures n.Some? ==> 0 < n.value <= |t|
    ensures n.Some? ==> DateLength(t).Some?
  {
    match p
    case SingleDate => DateLength(t)
    case DateRange => RangeLength(t)
    case RangeOrDate => if RangeLength(t).Some? then RangeLength(t) else DateLength(t)
  }

  /**
    How a regular expression is seen by `test` and `replace`: the length of its match at the
    front of a text, or None. A match is never empty and never runs past the text.
   */
  type Matcher = m: string -> Option<nat> | forall u :: m(u).Some? ==> 0 < m(u).value <= |u|
    witness u => None

  /** The matcher of pattern `p`. */
  function Matching(p: Pattern): Matcher {
    u => MatchAt(p, u)
  }

  /** A match starts somewhere in `t`: `re.test(t)`. */
  predicate HasMatch(m: Matcher, t: string)
    decreases |t|
  {
    t != [] && (m(t).Some? || HasMatch(m, t[1..]))
  }

  // ---------------------------------------------------------------------------
  // Global replacement
  // ---------------------------------------------------------------------------

  /**
    `t.replace(re, f)` with the global flag: the leftmost match is replaced by `f` of the
    matched text, the search resumes right after it, and text that no match covers is copied.
   */
  function Replaced(m: Matcher, t: string, f: string -> string): string
    decreases |t|
  {
    if t == [] then []
    else if m(t).Some? then f(t[..m(t).value]) + Replaced(m, t[m(t).value..], f)
    else [t[0]] + Replaced(m, t[1..], f)
  }

  /** The scan loop behind `replace`, proved to compute `Replaced`. */
  method GlobalReplace(m: Matcher, t: string, f: string -> string) returns (r: string)
    ensures r == Replaced(m, t, f)
  {
    r := [];
    var i := 0;
    while i < |t|
      invariant 0 <= i <= |t|
      invariant r + Replaced(m, t[i..], f) == Replaced(m, t, f)
      decreases |t| - i
    {
      var piece, next := ScanStep(m, t, i, f);
      r, i := r + piece, next;
    }
    assert t[i..] == [];
  }

  /**
    One step of the scan at index `i`: the replacement of the match that starts there, or
    the character there when none does, and the index where the scan resumes.
   */
  method ScanStep(m: Matcher, t: string, i: nat, f: string -> string) returns (piece: string, next: nat)
    requires i < |t|
    ensures i < next <= |t|
    ensures Replaced(m, t[i..], f) == piece + Replaced(m, t[next..], f)
  {
    var n := m(t[i..]);
    if n.Some? {
      piece, next := f(t[i..i + n.value]), i + n.value;
      assert t[i..][..n.value] == t[i..i + n.value];
      assert t[i..][n.value..] == t[next..];
    } else {
      piece, next := [t[i]], i + 1;
      assert t[i..][1..] == t[next..];
    }
  }

  // ---------------------------------------------------------------------------
  // Properties of matching
  // ---------------------------------------------------------------------------

  /** No match starts at a character that is not a digit. */
  lemma NoMatchAtNonDigit(p: Pattern, t: string)
    requires t != [] && !IsDigit(t[0])
    ensures MatchAt(p, t).None?
  {
  }

  /** Every match of `m` starts with a digit. */
  ghost predicate DigitLed(m: Matcher) {
    forall v :: v != [] && !IsDigit(v[0]) ==> m(v).None?
  }

  /** Every match of the three date expressions starts with a digit. */
  lemma MatchingDigitLed(p: Pattern)
    ensures DigitLed(Matching(p))
  {
    forall v | v != [] && !IsDigit(v[0]) {
      NoMatchAtNonDigit(p, v);
    }
  }

  /** A range starts with a date, so a text with a range match has a date match at the same place. */
  lemma RangeStartsWithDate(t: string)
    requires RangeLength(t).Some?
    ensures DateLength(t).Some?
  {
  }

  /** A date shape at the front of `a` is one at the front of `a + t`. */
  lemma ShapeOfPrefix(a: string, t: string, n1: nat, n2: nat)
    requires DateShape(a, n1, n2)
    ensures DateShape(a + t, n1, n2)
  {
    assert forall k :: 0 <= k < |a| ==> (a + t)[k] == a[k];
  }

  /** A date followed by anything is still matched as that date. */
  lemma DateOfPrefix(a: string, t: string)
    requires IsDate(a)
    ensures DateLength(a + t) == Some(|a|)
  {
    var n1, n2 := ShapeOfDateLength(a);
    ShapeOfPrefix(a, t, n1, n2);
    DateLengthOfShape(a + t, n1, n2);
  }

  /** A date has no hyphen and two dots. */
  lemma DateHasTwoDots(a: string)
    requires IsDate(a)
    ensures '-' !in a
    ensures Count(a, '.') == 2
  {
    var n1, n2 := ShapeOfDateLength(a);
    DateRuns(a, n1, n2);
    DatePieces(a, n1, n2);
    var day, month, year := a[..n1], a[n1 + 1..n1 + 1 + n2], a[n1 + n2 + 2..];
    CountSplit(month, '.', year);
    CountSplit(day, '.', month + ['.'] + year);
  }

  /** Day, month and year of a date hold no dot, and the date holds no hyphen. */
  lemma DateRuns(a: string, n1: nat, n2: nat)
    requires DateShape(a, n1, n2) && |a| == n1 + n2 + 6
    ensures a[n1] == '.' && a[n1 + n2 + 1] == '.' && '-' !in a
    ensures '.' !in a[..n1] && '.' !in a[n1 + 1..n1 + 1 + n2] && '.' !in a[n1 + n2 + 2..]
  {
    DateCharacters(a, n1, n2);
    DigitRun(a, 0, n1);
    DigitRun(a, n1 + 1, n1 + 1 + n2);
    DigitRun(a, n1 + n2 + 2, |a|);
  }

  /** A run of digits holds neither a dot nor a hyphen. */
  lemma DigitRun(a: string, lo: nat, hi: nat)
    requires lo <= hi <= |a|
    requires forall k :: lo <= k < hi ==> IsDigit(a[k])
    ensures '.' !in a[lo..hi] && '-' !in a[lo..hi]
  {
  }

  /** A date is its day, a dot, its month, a dot and its year. */
  lemma DatePieces(a: string, n1: nat, n2: nat)
    requires n1 + n2 + 2 <= |a|
    requires a[n1] == '.' && a[n1 + n2 + 1] == '.'
    ensures a == a[..n1] + ['.'] + (a[n1 + 1..n1 + 1 + n2] + ['.'] + a[n1 + n2 + 2..])
  {
    var rest := a[n1 + 1..];
    SplitAround(a, n1);
    SplitAround(rest, n2);
    assert rest[..n2] == a[n1 + 1..n1 + 1 + n2];
    assert rest[n2 + 1..] == a[n1 + n2 + 2..];
  }

  /** The characters of a date: digits, except for the two dots. */
  lemma DateCharacters(a: string, n1: nat, n2: nat)
    requires DateShape(a, n1, n2) && |a| == n1 + n2 + 6
    ensures a[n1] == '.' && a[n1 + n2 + 1] == '.'
    ensures forall k :: 0 <= k < |a| && k != n1 && k != n1 + n2 + 1 ==> IsDigit(a[k])
  {
  }

  /** A text is what comes before index `i`, the character there, and what comes after. */
  lemma SplitAround(a: string, i: nat)
    requires i < |a|
    ensures a == a[..i] + [a[i]] + a[i + 1..]
  {
  }

  /** The range match of `a + "-" + b + t` for dates `a` and `b` covers exactly `a + "-" + b`. */
  lemma RangeOfDates(a: string, b: string, t: string)
    requires IsDate(a) && IsDate(b)
    ensures RangeLength(a + "-" + b + t) == Some(|a| + 1 + |b|)
  {
    var s := a + "-" + b + t;
    assert s == a + ("-" + b + t);
    DateOfPrefix(a, "-" + b + t);
    assert s[|a|] == '-';
    assert s[|a| + 1..] == b + t;
    DateOfPrefix(b, t);
  }

  /** The text a range match covers is a date, a hyphen and a date. */
  lemma RangeMatchParts(t: string) returns (a: string, b: string)
    requires RangeLength(t).Some?
    ensures IsDate(a) && IsDate(b)
    ensures t[..RangeLength(t).value] == a + "-" + b
  {
    var d := DateLength(t).value;
    var u := t[d + 1..];
    a := DateAtFront(t);
    b := DateAtFront(u);
    TakeAround(t, d, DateLength(u).value);
  }

  /** The date a date match covers. */
  lemma DateAtFront(t: string) returns (a: string)
    requires DateLength(t).Some?
    ensures IsDate(a) && a == t[..DateLength(t).value]
  {
    var n1, n2 := ShapeOfDateLength(t);
    a := t[..n1 + n2 + 6];
    assert DateShape(a, n1, n2);
    DateLengthOfShape(a, n1, n2);
  }

  /** A prefix that runs past index `d` is what comes before `d`, the character there, and what follows. */
  lemma TakeAround(t: string, d: nat, e: nat)
    requires d + 1 + e <= |t| && t[d] == '-'
    ensures t[..d + 1 + e] == t[..d] + "-" + t[d + 1..][..e]
  {
  }

  // ---------------------------------------------------------------------------
  // Properties of global replacement
  // ---------------------------------------------------------------------------

  /** A text in which no match starts comes back unchanged, whatever the replacement. */
  lemma {:induction false} NoMatchUnchanged(m: Matcher, t: string, f: string -> string)
    requires !HasMatch(m, t)
    ensures Replaced(m, t, f) == t
    decreases |t|
  {
    if t != [] {
      NoMatchUnchanged(m, t[1..], f);
    }
  }

  /** Replacing every match by itself changes nothing. */
  lemma {:induction false} IdentityUnchanged(m: Matcher, t: string, f: string -> string)
    requires forall u :: f(u) == u
    ensures Replaced(m, t, f) == t
    decreases |t|
  {
    if t != [] {
      var n := m(t);
      if n.Some? {
        IdentityUnchanged(m, t[n.value..], f);
        assert t[..n.value] + t[n.value..] == t;
      } else {
        IdentityUnchanged(m, t[1..], f);
      }
    }
  }

  /** Characters that are not digits are copied and the scan goes on after them. */
  lemma {:induction false} SkipNonDigits(m: Matcher, u: string, t: string, f: string -> string)
    requires DigitLed(m)
    requires forall k :: 0 <= k < |u| ==> !IsDigit(u[k])
    ensures Replaced(m, u + t, f) == u + Replaced(m, t, f)
    decreases |u|
  {
    if u == [] {
      assert u + t == t;
    } else {
      var v := u + t;
      assert v[0] == u[0] && v[1..] == u[1..] + t;
      CopyFront(m, v, f);
      SkipNonDigits(m, u[1..], t, f);
      ConsAppend(u, Replaced(m, t, f));
    }
  }

  /** Where no match starts, the scan copies one character and goes on. */
  lemma CopyFront(m: Matcher, v: string, f: string -> string)
    requires DigitLed(m) && v != [] && !IsDigit(v[0])
    ensures Replaced(m, v, f) == [v[0]] + Replaced(m, v[1..], f)
  {
  }

  /** A match at the front is replaced and the scan resumes right after it, never inside it. */
  lemma ReplaceAtMatch(m: Matcher, a: string, t: string, f: string -> string)
    requires m(a + t) == Some(|a|)
    ensures Replaced(m, a + t, f) == f(a) + Replaced(m, t, f)
  {
    assert (a + t)[..|a|] == a;
    assert (a + t)[|a|..] == t;
  }

  /** A range of two dates at the front is replaced whole by the range and the combined expressions. */
  lemma ReplaceRange(p: Pattern, a: string, b: string, t: string, f: string -> string)
    requires p != SingleDate && IsDate(a) && IsDate(b)
    ensures Replaced(Matching(p), a + "-" + b + t, f) == f(a + "-" + b) + Replaced(Matching(p), t, f)
  {
    var u := a + "-" + b + t;
    RangeMatch(p, a, b, t);
    assert Matching(p)(u) == MatchAt(p, u);
    ReplaceAtMatch(Matching(p), a + "-" + b, t, f);
  }

  /** A pattern that takes ranges matches the whole of a range at the front. */
  lemma RangeMatch(p: Pattern, a: string, b: string, t: string)
    requires p != SingleDate && IsDate(a) && IsDate(b)
    ensures MatchAt(p, a + "-" + b + t) == Some(|a| + 1 + |b|)
  {
    RangeOfDates(a, b, t);
  }

  /** A date at the front that starts no range is replaced alone by the combined expression. */
  lemma ReplaceLoneDate(a: string, t: string, f: string -> string)
    requires IsDate(a) && RangeLength(a + t).None?
    ensures Replaced(Matching(RangeOrDate), a + t, f) == f(a) + Replaced(Matching(RangeOrDate), t, f)
  {
    DateOfPrefix(a, t);
    ReplaceAtMatch(Matching(RangeOrDate), a, t, f);
  }

  /** A date at the front is replaced alone by the single-date expression. */
  lemma ReplaceDate(a: string, t: string, f: string -> string)
    requires IsDate(a)
    ensures Replaced(Matching(SingleDate), a + t, f) == f(a) + Replaced(Matching(SingleDate), t, f)
  {
    DateOfPrefix(a, t);
    ReplaceAtMatch(Matching(SingleDate), a, t, f);
  }

  /** A text with a match has a match after any character put in front of it. */
  lemma HasMatchAfter(m: Matcher, c: char, t: string)
    requires HasMatch(m, t)
    ensures HasMatch(m, [c] + t)
  {
    assert ([c] + t)[1..] == t;
  }

  /** A text that starts with a date has a single-date match. */
  lemma HasMatchOfDate(a: string, t: string)
    requires IsDate(a)
    ensures HasMatch(Matching(SingleDate), a + t)
  {
    DateOfPrefix(a, t);
  }

  /** A text without a date has no match of any of the three expressions, a range included. */
  lemma {:induction false} NoDateNoMatch(p: Pattern, t: string)
    requires !HasMatch(Matching(SingleDate), t)
    ensures !HasMatch(Matching(p), t)
    decreases |t|
  {
    if t != [] {
      NoDateNoMatch(p, t[1..]);
    }
  }
}
