/**
  The JavaScript string built-ins the core relies on: `split` with a one-character
  separator, `join`, `includes`, `startsWith`, `trim`, `parseInt(_, 10)` and the decimal
  rendering of a non-negative integer in a template string.
  A JavaScript string is modelled as a sequence of Unicode characters; JavaScript counts
  UTF-16 code units instead, so a character outside the Basic Multilingual Plane has length
  1 here and 2 there.
 */
module Text {
  import opened Wrappers

  // ---------------------------------------------------------------------------
  // includes / startsWith
  // ---------------------------------------------------------------------------

  /** `s.startsWith(p)` */
  predicate StartsWith(s: string, p: string) {
    |p| <= |s| && s[..|p|] == p
  }

  /** `s.includes(p)`: an occurrence of `p` starts at the front of `s` or further on. */
  predicate Contains(s: string, p: string)
    decreases |s|
  {
    StartsWith(s, p) || (|s| > 0 && Contains(s[1..], p))
  }

  /** `p` occurs in `s` at index `i`. */
  predicate OccursAt(s: string, p: string, i: nat) {
    i + |p| <= |s| && s[i..i + |p|] == p
  }

  /** `includes` agrees with its positional reading: `p` occurs at some index of `s`. */
  lemma {:induction false} ContainsAt(s: string, p: string)
    ensures Contains(s, p) <==> exists i: nat :: OccursAt(s, p, i)
    decreases |s|
  {
    if Contains(s, p) {
      if !StartsWith(s, p) {
        ContainsAt(s[1..], p);
        var j: nat :| OccursAt(s[1..], p, j);
        assert s[j + 1..j + 1 + |p|] == s[1..][j..j + |p|];
        assert OccursAt(s, p, j + 1);
      } else {
        assert OccursAt(s, p, 0);
      }
    }
    if exists i: nat :: OccursAt(s, p, i) {
      var i: nat :| OccursAt(s, p, i);
      if i > 0 {
        assert s[1..][i - 1..i - 1 + |p|] == s[i..i + |p|];
        assert OccursAt(s[1..], p, i - 1);
        ContainsAt(s[1..], p);
      } else {
        assert s[..|p|] == s[0..0 + |p|];
      }
    }
  }

  /** A text whose front holds no first character of `p` contains `p` exactly when the rest does. */
  lemma {:induction false} ContainsAfterForeignPrefix(a: string, b: string, p: string)
    requires |p| > 0 && p[0] !in a
    ensures Contains(a + b, p) <==> Contains(b, p)
    decreases |a|
  {
    if a != [] {
      assert (a + b)[1..] == a[1..] + b;
      assert (a + b)[0] == a[0];
      ContainsAfterForeignPrefix(a[1..], b, p);
    } else {
      assert a + b == b;
    }
  }

  /** A text without the first character of `p` does not contain `p`. */
  lemma NotContainsForeign(s: string, p: string)
    requires |p| > 0 && p[0] !in s
    ensures !Contains(s, p)
  {
    ContainsAfterForeignPrefix(s, "", p);
    assert s + "" == s;
  }

  /**
    A text whose first character is followed by one that breaks the pattern, and whose
    remainder holds no first character of the pattern, does not contain the pattern.
   */
  lemma NotContainsAfterMismatch(s: string, p: string)
    requires |s| >= 2 && |p| >= 2 && s[1] != p[1] && p[0] !in s[1..]
    ensures !Contains(s, p)
  {
    NotContainsForeign(s[1..], p);
  }

  /** An occurrence at a known index is found by `includes`. */
  lemma ContainsWitness(s: string, p: string, i: nat)
    requires OccursAt(s, p, i)
    ensures Contains(s, p)
  {
    ContainsAt(s, p);
  }

  /**
    When the first character of `b` does not occur in `p`, no occurrence of `p` in `a + b`
    spans the join, so `p` occurs in `a + b` exactly when it occurs in `a` or in `b`.
   */
  lemma {:induction false} ContainsAroundBreak(a: string, b: string, p: string)
    requires b != [] && b[0] !in p
    ensures Contains(a + b, p) <==> Contains(a, p) || Contains(b, p)
    decreases |a|
  {
    if a == [] {
      assert a + b == b;
    } else {
      assert (a + b)[1..] == a[1..] + b;
      ContainsAroundBreak(a[1..], b, p);
      if |p| > |a| {
        assert (a + b)[|a|] == b[0];
        if |p| <= |a + b| {
          assert (a + b)[..|p|][|a|] == b[0];
        }
      } else {
        assert (a + b)[..|p|] == a[..|p|];
      }
    }
  }

  /** A text as long as the pattern contains it only by being equal to it. */
  lemma ContainsSameLength(s: string, p: string)
    requires |s| == |p|
    ensures Contains(s, p) <==> s == p
  {
    if s != [] && Contains(s[1..], p) {
      ContainsAt(s[1..], p);
    }
    assert s[..|p|] == s;
  }

  // ---------------------------------------------------------------------------
  // split / join
  // ---------------------------------------------------------------------------

  /** Number of occurrences of the character `c` in `s`. */
  function Count(s: string, c: char): (n: nat)
    ensures n == 0 <==> c !in s
    decreases |s|
  {
    if s == [] then 0 else (if s[0] == c then 1 else 0) + Count(s[1..], c)
  }

  /** The occurrences of `c` in `a + [c] + b`, when `a` has none. */
  lemma {:induction false} CountSplit(a: string, c: char, b: string)
    requires c !in a
    ensures Count(a + [c] + b, c) == 1 + Count(b, c)
    decreases |a|
  {
    if a == [] {
      assert a + [c] + b == [c] + b;
      assert ([c] + b)[1..] == b;
    } else {
      assert (a + [c] + b)[1..] == a[1..] + [c] + b;
      CountSplit(a[1..], c, b);
    }
  }

  /** `s.split(c)` for a one-character separator `c`: the pieces between the occurrences of `c`. */
  function Split(s: string, c: char): (parts: seq<string>)
    ensures |parts| == Count(s, c) + 1
    ensures forall i :: 0 <= i < |parts| ==> c !in parts[i]
    decreases |s|
  {
    if s == [] then [""]
    else
      var rest := Split(s[1..], c);
      if s[0] == c then [""] + rest
      else [[s[0]] + rest[0]] + rest[1..]
  }

  /** `parts.join(sep)` */
  function Join(parts: seq<string>, sep: string): string
    decreases |parts|
  {
    if |parts| == 0 then ""
    else if |parts| == 1 then parts[0]
    else parts[0] + sep + Join(parts[1..], sep)
  }

  /** Joining the pieces of a split with the separator gives back the original text. */
  lemma {:induction false} JoinSplit(s: string, c: char)
    ensures Join(Split(s, c), [c]) == s
    decreases |s|
  {
    if s != [] {
      var x, t := s[0], s[1..];
      JoinSplit(t, c);
      if x == c {
        JoinAfterEmpty(Split(t, c), [c]);
      } else {
        JoinExtendFirst(x, Split(t, c), [c]);
      }
      assert s == [x] + t;
    }
  }

  /** Joining after an empty first piece starts with the separator. */
  lemma JoinAfterEmpty(parts: seq<string>, sep: string)
    requires parts != []
    ensures Join([""] + parts, sep) == sep + Join(parts, sep)
  {
    assert ([""] + parts)[1..] == parts;
  }

  /** Putting a character in front of the first piece puts it in front of the joined text. */
  lemma JoinExtendFirst(x: char, parts: seq<string>, sep: string)
    requires parts != []
    ensures Join([[x] + parts[0]] + parts[1..], sep) == [x] + Join(parts, sep)
  {
    var whole := [[x] + parts[0]] + parts[1..];
    assert whole[0] == [x] + parts[0] && whole[1..] == parts[1..];
  }

  /** Lines without the separator, joined in front of a last piece, split back into themselves. */
  lemma {:induction false} SplitJoinedLines(lines: seq<string>, last: string, c: char)
    requires forall i :: 0 <= i < |lines| ==> c !in lines[i]
    ensures Split(Join(lines + [last], [c]), c) == lines + Split(last, c)
    decreases |lines|
  {
    if lines != [] {
      var whole, tail := lines + [last], lines[1..] + [last];
      assert whole[1..] == tail && whole[0] == lines[0];
      assert Join(whole, [c]) == lines[0] + [c] + Join(tail, [c]);
      SplitJoinedLines(lines[1..], last, c);
      SplitAtFirst(lines[0], c, Join(tail, [c]));
      ConsAppend(lines, Split(last, c));
    }
  }

  lemma ConsAppend<T>(xs: seq<T>, ys: seq<T>)
    requires xs != []
    ensures xs + ys == [xs[0]] + (xs[1..] + ys)
  {
    assert xs == [xs[0]] + xs[1..];
  }

  /** Three texts concatenated, regrouped. */
  lemma AppendAssoc(x: string, y: string, z: string)
    ensures (x + y) + z == x + (y + z)
  {
  }

  /** Four texts concatenated, regrouped. */
  lemma Regroup(w: string, x: string, y: string, z: string)
    ensures w + x + y + z == w + ((x + y) + z)
  {
  }

  /** The last piece of a join ends the joined text. */
  lemma {:induction false} JoinLast(parts: seq<string>, last: string, sep: string)
    ensures var s := Join(parts + [last], sep);
            |s| >= |last| && s[|s| - |last|..] == last
    decreases |parts|
  {
    if parts != [] {
      assert (parts + [last])[1..] == parts[1..] + [last];
      JoinLast(parts[1..], last, sep);
    }
  }

  /** A text without the separator splits into itself alone. */
  lemma {:induction false} SplitWithoutSeparator(s: string, c: char)
    requires c !in s
    ensures Split(s, c) == [s]
    decreases |s|
  {
    if s != [] {
      assert c !in s[1..];
      SplitWithoutSeparator(s[1..], c);
      assert [s[0]] + s[1..] == s;
    }
  }

  /** The first piece of a split is the text before the first separator. */
  lemma {:induction false} SplitAtFirst(a: string, c: char, b: string)
    requires c !in a
    ensures Split(a + [c] + b, c) == [a] + Split(b, c)
    decreases |a|
  {
    if a == [] {
      assert a + [c] + b == [c] + b;
      assert ([c] + b)[1..] == b;
    } else {
      var t := a[1..] + [c] + b;
      ConsAppend(a, [c] + b);
      assert a + [c] + b == [a[0]] + t;
      SplitAtFirst(a[1..], c, b);
      SplitCons(a[0], t, c);
      assert [a[0]] + a[1..] == a;
    }
  }

  /** Splitting a text that starts with a character other than the separator. */
  lemma SplitCons(x: char, t: string, c: char)
    requires x != c
    ensures Split([x] + t, c) == [[x] + Split(t, c)[0]] + Split(t, c)[1..]
  {
    assert ([x] + t)[1..] == t;
  }

  // ---------------------------------------------------------------------------
  // trim
  // ---------------------------------------------------------------------------

  /** JavaScript's WhiteSpace and LineTerminator characters: what `trim` and `parseInt` skip. */
  predicate IsJsSpace(ch: char) {
    ch == '\t' || ch == '\n' || ch == '\U{B}' || ch == '\U{C}' || ch == '\r' || ch == ' '
    || ch == '\U{A0}' || ch == '\U{1680}' || ('\U{2000}' <= ch <= '\U{200A}')
    || ch == '\U{2028}' || ch == '\U{2029}' || ch == '\U{202F}' || ch == '\U{205F}'
    || ch == '\U{3000}' || ch == '\U{FEFF}'
  }

  /** `s.trimStart()`: the suffix of `s` after its leading white space. */
  function TrimStart(s: string): (r: string)
    ensures |r| <= |s| && r == s[|s| - |r|..]
    ensures r == [] || !IsJsSpace(r[0])
    ensures forall i :: 0 <= i < |s| - |r| ==> IsJsSpace(s[i])
    decreases |s|
  {
    if s != [] && IsJsSpace(s[0]) then TrimStart(s[1..]) else s
  }

  /** `s.trimEnd()`: the prefix of `s` before its trailing white space. */
  function TrimEnd(s: string): (r: string)
    ensures |r| <= |s| && r == s[..|r|]
    ensures r == [] || !IsJsSpace(r[|r| - 1])
    ensures forall i :: |r| <= i < |s| ==> IsJsSpace(s[i])
    decreases |s|
  {
    if s != [] && IsJsSpace(s[|s| - 1]) then TrimEnd(s[..|s| - 1]) else s
  }

  /** `r` is the slice of `s` at `k` and everything of `s` around it is white space. */
  predicate SurroundedBySpace(s: string, r: string, k: nat) {
    k + |r| <= |s| && s[k..k + |r|] == r
    && (forall i :: 0 <= i < k ==> IsJsSpace(s[i]))
    && (forall i :: k + |r| <= i < |s| ==> IsJsSpace(s[i]))
  }

  /** `s.trim()`: `s` without white space at either end; everything between is kept as it was. */
  function Trim(s: string): (r: string)
    ensures r == [] || (!IsJsSpace(r[0]) && !IsJsSpace(r[|r| - 1]))
    ensures exists k: nat :: SurroundedBySpace(s, r, k)
  {
    var t := TrimStart(s);
    TrimEndOfSuffix(s, t);
    TrimEnd(t)
  }

  lemma TrimEndOfSuffix(s: string, t: string)
    requires |t| <= |s| && t == s[|s| - |t|..]
    requires t == [] || !IsJsSpace(t[0])
    requires forall i :: 0 <= i < |s| - |t| ==> IsJsSpace(s[i])
    ensures var r := TrimEnd(t); r == [] || !IsJsSpace(r[0])
    ensures SurroundedBySpace(s, TrimEnd(t), |s| - |t|)
  {
    var r := TrimEnd(t);
    SliceOfSuffix(s, t, r);
    TrailingOfSuffix(s, t, r);
  }

  /** A prefix `r` of the suffix `t` of `s` is the slice of `s` where `t` starts. */
  lemma SliceOfSuffix(s: string, t: string, r: string)
    requires |t| <= |s| && t == s[|s| - |t|..]
    requires |r| <= |t| && r == t[..|r|]
    ensures s[|s| - |t|..|s| - |t| + |r|] == r
    ensures r != [] ==> r[0] == t[0]
  {
  }

  /** What follows `r` in `s` is what follows it in `t`. */
  lemma TrailingOfSuffix(s: string, t: string, r: string)
    requires |t| <= |s| && t == s[|s| - |t|..]
    requires |r| <= |t| && forall i :: |r| <= i < |t| ==> IsJsSpace(t[i])
    ensures forall i :: |s| - |t| + |r| <= i < |s| ==> IsJsSpace(s[i])
  {
    var k := |s| - |t|;
    forall i | k + |r| <= i < |s|
      ensures IsJsSpace(s[i])
    {
      assert s[i] == t[i - k];
    }
  }

  /** A text with no white space at either end is left as it is by `trim`. */
  lemma TrimKeepsTrimmed(s: string)
    requires s == [] || (!IsJsSpace(s[0]) && !IsJsSpace(s[|s| - 1]))
    ensures Trim(s) == s
  {
    assert TrimStart(s) == s;
    assert TrimEnd(s) == s;
  }

  /** Trimming twice is trimming once. */
  lemma TrimIdempotent(s: string)
    ensures Trim(Trim(s)) == Trim(s)
  {
    TrimKeepsTrimmed(Trim(s));
  }

  // ---------------------------------------------------------------------------
  // parseInt and decimal numerals
  // ---------------------------------------------------------------------------

  /** The ASCII decimal digits matched by `\d` and read by `parseInt(_, 10)`. */
  predicate IsDigit(ch: char) {
    '0' <= ch <= '9'
  }

  predicate AllDigits(s: string) {
    forall i :: 0 <= i < |s| ==> IsDigit(s[i])
  }

  function DigitValue(ch: char): (d: nat)
    requires IsDigit(ch)
    ensures d < 10
  {
    (ch as int) - ('0' as int)
  }

  function DigitChar(d: nat): (ch: char)
    requires d < 10
    ensures IsDigit(ch) && DigitValue(ch) == d
  {
    ('0' as int + d) as char
  }

  /** Length of the run of decimal digits at the front of `s`. */
  function DigitRunLength(s: string): (n: nat)
    ensures n <= |s| && AllDigits(s[..n])
    ensures n < |s| ==> !IsDigit(s[n])
    decreases |s|
  {
    if s == [] || !IsDigit(s[0]) then 0 else 1 + DigitRunLength(s[1..])
  }

  /** The value of a decimal numeral (leading zeros allowed). */
  function NumeralValue(ds: string): nat
    requires AllDigits(ds)
    decreases |ds|
  {
    if ds == [] then 0 else 10 * NumeralValue(ds[..|ds| - 1]) + DigitValue(ds[|ds| - 1])
  }

  /**
    `parseInt(s, 10)`: skip leading white space, read an optional sign, then the run of
    decimal digits that follows; `NaN` (here `None`) when that run is empty. Anything after
    the run is ignored.
   */
  function ParseInt(s: string): (r: Option<int>)
    ensures r.Some? <==> (var t := TrimStart(s);
                          var u := if t != [] && (t[0] == '+' || t[0] == '-') then t[1..] else t;
                          u != [] && IsDigit(u[0]))
  {
    ParseTrimmed(TrimStart(s))
  }

  /** What `parseInt` reads once the leading white space is skipped. */
  function ParseTrimmed(t: string): Option<int> {
    var signed := t != [] && (t[0] == '+' || t[0] == '-');
    var u := if signed then t[1..] else t;
    var n := DigitRunLength(u);
    var v: int := if n == 0 then 0 else NumeralValue(u[..n]);
    if n == 0 then None
    else if signed && t[0] == '-' then Some(-v)
    else Some(v)
  }

  /**
    `parseInt` of leading white space, an optional sign, a numeral and a rest that does not
    start with a digit: the signed value of the numeral.
   */
  lemma ParseIntOfParts(w: string, sign: string, ds: string, rest: string)
    requires forall i :: 0 <= i < |w| ==> IsJsSpace(w[i])
    requires sign == "" || sign == "+" || sign == "-"
    requires ds != [] && AllDigits(ds)
    requires rest == [] || !IsDigit(rest[0])
    ensures ParseInt(w + sign + ds + rest) == Some(if sign == "-" then -(NumeralValue(ds) as int) else NumeralValue(ds))
  {
    var x := sign + (ds + rest);
    assert w + sign + ds + rest == w + x;
    assert x[0] == (if sign == "" then ds[0] else sign[0]);
    TrimStartAfterSpace(w, x);
    ParseTrimmedOfParts(sign, ds, rest);
  }

  /** Once the white space is skipped, the sign and the run of digits decide the value. */
  lemma ParseTrimmedOfParts(sign: string, ds: string, rest: string)
    requires sign == "" || sign == "+" || sign == "-"
    requires AllDigits(ds) && ds != []
    requires rest == [] || !IsDigit(rest[0])
    ensures ParseTrimmed(sign + (ds + rest)) == Some(if sign == "-" then -(NumeralValue(ds) as int) else NumeralValue(ds))
  {
    var t, u := sign + (ds + rest), ds + rest;
    DigitRunOfParts(ds, rest);
    assert u[..|ds|] == ds;
    if sign == "" {
      assert t == u && IsDigit(t[0]);
    } else {
      assert t[0] == sign[0] && t[1..] == u;
    }
  }

  /** `trimStart` drops leading white space up to a character that is not white space. */
  lemma {:induction false} TrimStartAfterSpace(w: string, x: string)
    requires forall i :: 0 <= i < |w| ==> IsJsSpace(w[i])
    requires x == [] || !IsJsSpace(x[0])
    ensures TrimStart(w + x) == x
    decreases |w|
  {
    if w == [] {
      assert w + x == x;
    } else {
      assert (w + x)[1..] == w[1..] + x;
      TrimStartAfterSpace(w[1..], x);
    }
  }

  /** The run of digits at the front of a numeral and a rest that starts with no digit is the numeral. */
  lemma {:induction false} DigitRunOfParts(ds: string, rest: string)
    requires AllDigits(ds)
    requires rest == [] || !IsDigit(rest[0])
    ensures DigitRunLength(ds + rest) == |ds|
    decreases |ds|
  {
    if ds == [] {
      assert ds + rest == rest;
    } else {
      assert (ds + rest)[1..] == ds[1..] + rest;
      DigitRunOfParts(ds[1..], rest);
    }
  }

  /** A numeral with nothing around it parses to its value. */
  lemma ParseNumeral(ds: string)
    requires ds != [] && AllDigits(ds)
    ensures ParseInt(ds) == Some(NumeralValue(ds))
  {
    DigitsUntrimmed(ds);
    DigitRunOfNumeral(ds);
    assert ds[..|ds|] == ds;
  }

  /** A numeral has no leading white space. */
  lemma DigitsUntrimmed(ds: string)
    requires ds != [] && AllDigits(ds)
    ensures TrimStart(ds) == ds
  {
    assert IsDigit(ds[0]);
  }

  lemma DigitRunOfNumeral(ds: string)
    requires AllDigits(ds)
    ensures DigitRunLength(ds) == |ds|
  {
  }

  /** `String(n)` for a non-negative integer `n`: its shortest decimal numeral. */
  function Decimal(n: nat): (s: string)
    ensures s != [] && AllDigits(s)
    ensures NumeralValue(s) == n
    ensures |s| > 1 ==> s[0] != '0'
    decreases n
  {
    if n < 10 then [DigitChar(n)]
    else
      var s := Decimal(n / 10) + [DigitChar(n % 10)];
      assert s[..|s| - 1] == Decimal(n / 10);
      s
  }

  /** A number from 100 to 999 is written with three digits. */
  lemma DecimalThreeDigits(n: nat)
    requires 100 <= n <= 999
    ensures |Decimal(n)| == 3
  {
    assert Decimal(n) == Decimal(n / 10) + [DigitChar(n % 10)];
    assert Decimal(n / 10) == Decimal(n / 100) + [DigitChar(n / 10 % 10)];
  }

  /** Different numbers are written differently. */
  lemma DecimalInjective(m: nat, n: nat)
    requires Decimal(m) == Decimal(n)
    ensures m == n
  {
  }

  /** `parseInt(String(n), 10) == n` for every non-negative integer `n`. */
  lemma ParseDecimal(n: nat)
    ensures ParseInt(Decimal(n)) == Some(n)
  {
    ParseNumeral(Decimal(n));
  }
}
