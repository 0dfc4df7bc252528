/** The few JavaScript string operations the application relies on, over strings of
    Unicode scalar values (one `char` each; JavaScript counts UTF-16 code units, and the
    two agree inside the Basic Multilingual Plane): `Array.prototype.join`, a global
    single-character `replace`, the `\s` class with `trim`, `slice(0, n)`, and the
    decimal rendering of an integer in a template literal. */
module Strings {

  /** `xs.join(sep)` */
  function Join(sep: string, xs: seq<string>): string
    decreases |xs|
  {
    if |xs| == 0 then ""
    else if |xs| == 1 then xs[0]
    else xs[0] + sep + Join(sep, xs[1..])
  }

  /** Appending one more element to a non-empty join appends the separator and the element:
      a joined list is its elements in order, separated exactly once. */
  lemma {:induction false} JoinSnoc(sep: string, xs: seq<string>, x: string)
    requires |xs| >= 1
    ensures Join(sep, xs + [x]) == Join(sep, xs) + sep + x
    decreases |xs|
  {
    if |xs| == 1 {
      assert xs + [x] == [xs[0], x];
      assert ([xs[0], x])[1..] == [x];
    } else {
      assert (xs + [x])[1..] == xs[1..] + [x];
      JoinSnoc(sep, xs[1..], x);
    }
  }

  /** `s.split(sep)` for a single-character separator. */
  function SplitOn(s: string, sep: char): (r: seq<string>)
    ensures |r| >= 1
  {
    if |s| == 0 then [""]
    else
      var rest := SplitOn(s[1..], sep);
      if s[0] == sep then [""] + rest else [[s[0]] + rest[0]] + rest[1..]
  }

  /** Splitting a text without the separator gives the text alone. */
  lemma {:induction false} SplitWithoutSeparator(a: string, sep: char)
    requires sep !in a
    ensures SplitOn(a, sep) == [a]
    decreases |a|
  {
    if |a| > 0 {
      SplitWithoutSeparator(a[1..], sep);
      assert a == [a[0]] + a[1..];
    }
  }

  /** Splitting `a`, a separator, then `b` gives `a` followed by the pieces of `b`. */
  lemma {:induction false} SplitAtFirstSeparator(a: string, sep: char, b: string)
    requires sep !in a
    ensures SplitOn(a + [sep] + b, sep) == [a] + SplitOn(b, sep)
    decreases |a|
  {
    if |a| == 0 {
      assert a + [sep] + b == [sep] + b;
      assert ([sep] + b)[1..] == b;
    } else {
      assert (a + [sep] + b)[1..] == a[1..] + [sep] + b;
      SplitAtFirstSeparator(a[1..], sep, b);
      assert a == [a[0]] + a[1..];
    }
  }

  /** Splitting a join recovers the list when no element holds the separator. */
  lemma {:induction false} SplitJoin(xs: seq<string>, sep: char)
    requires |xs| >= 1
    requires forall i :: 0 <= i < |xs| ==> sep !in xs[i]
    ensures SplitOn(Join([sep], xs), sep) == xs
    decreases |xs|
  {
    if |xs| == 1 {
      SplitWithoutSeparator(xs[0], sep);
    } else {
      SplitJoin(xs[1..], sep);
      SplitAtFirstSeparator(xs[0], sep, Join([sep], xs[1..]));
      assert xs == [xs[0]] + xs[1..];
    }
  }

  /** `s.replace(/c/g, rep)` for a single character `c`. */
  function ReplaceChar(s: string, c: char, rep: string): (r: string)
    ensures c !in rep ==> c !in r
  {
    if |s| == 0 then ""
    else (if s[0] == c then rep else [s[0]]) + ReplaceChar(s[1..], c, rep)
  }

  /** The characters of the ECMAScript `\s` class (WhiteSpace and LineTerminator),
      which is also the set `String.prototype.trim` removes. */
  predicate IsJsSpace(c: char) {
    || c == '\t' || c == '\n' || c == '\U{000B}' || c == '\U{000C}' || c == '\r' || c == ' '
    || c == '\U{00A0}' || c == '\U{1680}' || ('\U{2000}' <= c <= '\U{200A}')
    || c == '\U{2028}' || c == '\U{2029}' || c == '\U{202F}' || c == '\U{205F}'
    || c == '\U{3000}' || c == '\U{FEFF}'
  }

  /** The characters a regular-expression `.` does not match. */
  predicate IsLineTerminator(c: char) {
    c == '\n' || c == '\r' || c == '\U{2028}' || c == '\U{2029}'
  }

  /** No character of `s` is whitespace. */
  predicate NoSpace(s: string) {
    forall i :: 0 <= i < |s| ==> !IsJsSpace(s[i])
  }

  /** Every character of `s` is whitespace. */
  predicate AllSpace(s: string) {
    forall i :: 0 <= i < |s| ==> IsJsSpace(s[i])
  }

  /** Whitespace in `s` is only the plain space, and never two in a row. */
  predicate SingleSpaced(s: string) {
    && (forall i :: 0 <= i < |s| && IsJsSpace(s[i]) ==> s[i] == ' ')
    && (forall i :: 0 <= i < |s| - 1 && IsJsSpace(s[i]) ==> !IsJsSpace(s[i + 1]))
  }

  /** The non-whitespace characters of `s`, in order. */
  function Visible(s: string): string {
    if |s| == 0 then ""
    else (if IsJsSpace(s[0]) then "" else [s[0]]) + Visible(s[1..])
  }

  /** The end of the run of whitespace that starts at `k`. */
  function SkipSpaces(s: string, k: nat): (e: nat)
    requires k <= |s|
    ensures k <= e <= |s|
    ensures forall i :: k <= i < e ==> IsJsSpace(s[i])
    ensures e == |s| || !IsJsSpace(s[e])
    decreases |s| - k
  {
    if k < |s| && IsJsSpace(s[k]) then SkipSpaces(s, k + 1) else k
  }

  /** The start of the run of whitespace that ends just before `k`. */
  function SkipSpacesBack(s: string, k: nat): (b: nat)
    requires k <= |s|
    ensures b <= k
    ensures forall i :: b <= i < k ==> IsJsSpace(s[i])
    ensures b == 0 || !IsJsSpace(s[b - 1])
    decreases k
  {
    if k > 0 && IsJsSpace(s[k - 1]) then SkipSpacesBack(s, k - 1) else k
  }

  /** `s.trim()`: `s` without its leading and trailing whitespace. */
  function Trim(s: string): (r: string)
    ensures r == "" || (!IsJsSpace(r[0]) && !IsJsSpace(r[|r| - 1]))
    ensures exists i, j :: 0 <= i <= j <= |s| && r == s[i..j] && AllSpace(s[..i]) && AllSpace(s[j..])
  {
    var i := SkipSpaces(s, 0);
    var j := SkipSpacesBack(s, |s|);
    if j <= i then
      assert AllSpace(s[..i]) && AllSpace(s[i..]);
      ""
    else
      assert !IsJsSpace(s[i]);
      assert AllSpace(s[..i]) && AllSpace(s[j..]);
      s[i..j]
  }

  /** Text without whitespace is its own trim. */
  lemma TrimWithoutSpaces(s: string)
    requires forall i :: 0 <= i < |s| ==> !IsJsSpace(s[i])
    ensures Trim(s) == s
  {
    SkipSpacesIs(s, 0, 0);
    if |s| > 0 {
      assert SkipSpacesBack(s, |s|) == |s|;
      assert s[0..|s|] == s;
    }
  }

  /** `s.replace(/\s+/g, " ")`: every maximal run of whitespace becomes one space. */
  function CollapseSpaces(s: string): (r: string)
    ensures |r| <= |s|
    ensures SingleSpaced(r)
    ensures Visible(r) == Visible(s)
    ensures |s| > 0 ==> |r| > 0 && (IsJsSpace(s[0]) <==> IsJsSpace(r[0]))
    ensures |s| > 0 && !IsJsSpace(s[0]) ==> r[0] == s[0]
    decreases |s|
  {
    if |s| == 0 then ""
    else if IsJsSpace(s[0]) then
      var e := SkipSpaces(s, 0);
      var rest := CollapseSpaces(s[e..]);
      assert AllSpace(s[..e]);
      VisibleOfSpaces(s[..e], s[e..]);
      assert s == s[..e] + s[e..];
      " " + rest
    else
      var rest := CollapseSpaces(s[1..]);
      assert s == [s[0]] + s[1..];
      VisibleOfConcat([s[0]], s[1..]);
      [s[0]] + rest
  }

  /** `SkipSpaces` stops at the first non-space at or after `k`. */
  lemma {:induction false} SkipSpacesIs(s: string, k: nat, e: nat)
    requires k <= e <= |s|
    requires forall i :: k <= i < e ==> IsJsSpace(s[i])
    requires e == |s| || !IsJsSpace(s[e])
    ensures SkipSpaces(s, k) == e
    decreases e - k
  {
    if k < e {
      SkipSpacesIs(s, k + 1, e);
    }
  }

  /** Text without whitespace is left as it is. */
  lemma {:induction false} CollapseWithoutSpaces(s: string)
    requires forall i :: 0 <= i < |s| ==> !IsJsSpace(s[i])
    ensures CollapseSpaces(s) == s
    decreases |s|
  {
    if |s| > 0 {
      CollapseWithoutSpaces(s[1..]);
      assert s == [s[0]] + s[1..];
    }
  }

  /** A maximal whitespace run `w` becomes one space, and the text on either side is
      collapsed on its own. Together with `CollapseWithoutSpaces` this determines
      `CollapseSpaces` on every input. */
  lemma {:induction false} CollapseRun(a: string, w: string, c: string)
    requires |w| > 0 && AllSpace(w)
    requires a == "" || !IsJsSpace(a[|a| - 1])
    requires c == "" || !IsJsSpace(c[0])
    ensures CollapseSpaces(a + w + c) == CollapseSpaces(a) + " " + CollapseSpaces(c)
    decreases |a|
  {
    if |a| == 0 {
      CollapseRunAtStart(w, c);
    } else if IsJsSpace(a[0]) {
      var e := SkipSpaces(a, 0);
      CollapseRun(a[e..], w, c);
      CollapseRunAfterSpaces(a, w, c, e);
    } else {
      CollapseRun(a[1..], w, c);
      CollapseRunAfterVisible(a, w, c);
    }
  }

  /** `CollapseRun` with nothing before the run. */
  lemma CollapseRunAtStart(w: string, c: string)
    requires |w| > 0 && AllSpace(w)
    requires c == "" || !IsJsSpace(c[0])
    ensures CollapseSpaces("" + w + c) == CollapseSpaces("") + " " + CollapseSpaces(c)
  {
    var s := "" + w + c;
    assert s == w + c;
    SkipSpacesIs(s, 0, |w|);
    assert s[|w|..] == c;
    CollapseSpaceHead(s);
  }

  /** The step of `CollapseRun` when `a` begins with the whitespace run ending at `e`. */
  lemma CollapseRunAfterSpaces(a: string, w: string, c: string, e: nat)
    requires |w| > 0 && AllSpace(w)
    requires |a| > 0 && IsJsSpace(a[0]) && !IsJsSpace(a[|a| - 1])
    requires e == SkipSpaces(a, 0)
    requires e <= |a| && CollapseSpaces(a[e..] + w + c) == CollapseSpaces(a[e..]) + " " + CollapseSpaces(c)
    ensures CollapseSpaces(a + w + c) == CollapseSpaces(a) + " " + CollapseSpaces(c)
  {
    var s := a + w + c;
    var mid := CollapseSpaces(a[e..]);
    var tail := CollapseSpaces(c);
    calc {
      CollapseSpaces(s);
      { CollapseSpaceHead(s); }
      " " + CollapseSpaces(s[SkipSpaces(s, 0)..]);
      { assert e < |a|; SkipSpacesIs(s, 0, e); DropOfJoin(a, w, c, e); }
      " " + (mid + " " + tail);
      { Regroup(" ", mid, tail); }
      (" " + mid) + " " + tail;
      { CollapseSpaceHead(a); }
      CollapseSpaces(a) + " " + tail;
    }
  }

  /** The step of `CollapseRun` when `a` begins with a non-space. */
  lemma CollapseRunAfterVisible(a: string, w: string, c: string)
    requires |a| > 0 && !IsJsSpace(a[0])
    requires CollapseSpaces(a[1..] + w + c) == CollapseSpaces(a[1..]) + " " + CollapseSpaces(c)
    ensures CollapseSpaces(a + w + c) == CollapseSpaces(a) + " " + CollapseSpaces(c)
  {
    var s := a + w + c;
    var mid := CollapseSpaces(a[1..]);
    var tail := CollapseSpaces(c);
    calc {
      CollapseSpaces(s);
      { CollapseVisibleHead(s); }
      [s[0]] + CollapseSpaces(s[1..]);
      { DropOfJoin(a, w, c, 1); }
      [a[0]] + (mid + " " + tail);
      { Regroup([a[0]], mid, tail); }
      ([a[0]] + mid) + " " + tail;
      { CollapseVisibleHead(a); }
      CollapseSpaces(a) + " " + tail;
    }
  }

  /** Dropping a prefix of `a` from `a + w + c`. */
  lemma DropOfJoin(a: string, w: string, c: string, e: nat)
    requires e <= |a|
    ensures (a + w + c)[e..] == a[e..] + w + c
    ensures e < |a| ==> (a + w + c)[e] == a[e]
  {
  }

  lemma Regroup(x: string, m: string, t: string)
    ensures x + (m + " " + t) == (x + m) + " " + t
  {
  }

  /** Leading whitespace collapses to one space before the rest. */
  lemma CollapseSpaceHead(s: string)
    requires |s| > 0 && IsJsSpace(s[0])
    ensures CollapseSpaces(s) == " " + CollapseSpaces(s[SkipSpaces(s, 0)..])
  {
  }

  /** A leading non-space is kept before the rest. */
  lemma CollapseVisibleHead(s: string)
    requires |s| > 0 && !IsJsSpace(s[0])
    ensures CollapseSpaces(s) == [s[0]] + CollapseSpaces(s[1..])
  {
  }

  /** Visible distributes over concatenation. */
  lemma {:induction false} VisibleOfConcat(a: string, b: string)
    ensures Visible(a + b) == Visible(a) + Visible(b)
    decreases |a|
  {
    if |a| == 0 {
      assert a + b == b;
    } else {
      assert (a + b)[1..] == a[1..] + b;
      VisibleOfConcat(a[1..], b);
    }
  }

  /** Whitespace contributes nothing to Visible. */
  lemma {:induction false} VisibleOfSpaces(w: string, b: string)
    requires AllSpace(w)
    ensures Visible(w + b) == Visible(b)
    decreases |w|
  {
    if |w| > 0 {
      assert (w + b)[1..] == w[1..] + b;
      VisibleOfSpaces(w[1..], b);
    } else {
      assert w + b == b;
    }
  }

  /** Any slice of a single-spaced string is single-spaced. */
  lemma SingleSpacedSlice(s: string, i: nat, j: nat)
    requires i <= j <= |s|
    requires SingleSpaced(s)
    ensures SingleSpaced(s[i..j])
  {
    var t := s[i..j];
    forall k | 0 <= k < |t| - 1 && IsJsSpace(t[k]) ensures !IsJsSpace(t[k + 1]) {
      assert t[k] == s[i + k] && t[k + 1] == s[i + k + 1];
    }
  }

  /** `s.slice(0, n)` */
  function Take(s: string, n: nat): (r: string)
    ensures |r| == if |s| <= n then |s| else n
    ensures r == s[..|r|]
    ensures |s| <= n ==> r == s
  {
    if |s| <= n then s else s[..n]
  }

  /** The decimal digit character for `d`. */
  function DigitChar(d: nat): (c: char)
    requires d < 10
    ensures '0' <= c <= '9'
  {
    "0123456789"[d]
  }

  /** The value of a decimal digit character. */
  function DigitValue(c: char): nat
    requires '0' <= c <= '9'
  {
    c as int - '0' as int
  }

  predicate AllDigits(s: string) {
    forall i :: 0 <= i < |s| ==> '0' <= s[i] <= '9'
  }

  /** The decimal rendering of a natural number in a template literal. */
  function NatToDecimal(n: nat): (r: string)
    ensures |r| >= 1 && AllDigits(r)
    ensures r[0] == '0' ==> n == 0
    decreases n
  {
    if n < 10 then [DigitChar(n)] else NatToDecimal(n / 10) + [DigitChar(n % 10)]
  }

  /** The number a string of decimal digits denotes. */
  function DecimalValue(s: string): nat
    requires AllDigits(s)
  {
    if |s| == 0 then 0 else 10 * DecimalValue(s[..|s| - 1]) + DigitValue(s[|s| - 1])
  }

  /** Reading back the decimal rendering of `n` gives `n`. */
  lemma {:induction false} DecimalRoundTrip(n: nat)
    ensures DecimalValue(NatToDecimal(n)) == n
    decreases n
  {
    var r := NatToDecimal(n);
    if n < 10 {
      assert DigitValue(DigitChar(n)) == n;
    } else {
      DecimalRoundTrip(n / 10);
      assert r[..|r| - 1] == NatToDecimal(n / 10);
      assert DigitValue(DigitChar(n % 10)) == n % 10;
    }
  }

  /** The decimal rendering of an integer in a template literal (`${n}`). */
  function IntToDecimal(n: int): (r: string)
    ensures |r| >= 1
    ensures n < 0 <==> r[0] == '-'
    ensures n < 0 ==> AllDigits(r[1..]) && DecimalValue(r[1..]) == -n
    ensures n >= 0 ==> AllDigits(r) && DecimalValue(r) == n
  {
    if n < 0 then
      DecimalRoundTrip(-n);
      "-" + NatToDecimal(-n)
    else
      DecimalRoundTrip(n);
      NatToDecimal(n)
  }
}
