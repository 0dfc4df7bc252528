/** The two case-insensitive regular expressions src/app/api/fetch-metadata/route.ts
    uses to split a page title into role and company:
      at:   (.+?)\s+(?:at|chez|@)\s+(.+?)(?:\s*[|\-–]|$)
      dash: (.+?)\s*[|\-–]\s*(.+?)(?:\s*[|\-–]|$)
    `Match` follows the backtracking order of the ECMAScript matcher (leftmost start,
    lazy groups, greedy whitespace); `IsMatch` says declaratively which pairs of groups
    the pattern accepts. */
module TitleSplit {
  import opened Types
  import opened Strings

  datatype Pattern = At | Dash

  /** A half-open range of character positions. */
  datatype Span = Span(start: nat, end: nat)

  /** The two capture groups of a match. */
  datatype Split = Split(first: Span, second: Span)

  /** `[|\-–]` */
  predicate IsSeparator(c: char) {
    c == '|' || c == '-' || c == '\U{2013}'
  }

  /** Positions `a` to `b` are all `\s`. */
  predicate SpaceBetween(s: string, a: nat, b: nat) {
    a <= b <= |s| && forall i {:trigger IsJsSpace(s[i])} :: a <= i < b ==> IsJsSpace(s[i])
  }

  /** Positions `a` to `b` are a non-empty run that `.+` can match. */
  predicate Dots(s: string, a: nat, b: nat) {
    a < b <= |s| && forall i {:trigger IsLineTerminator(s[i])} :: a <= i < b ==> !IsLineTerminator(s[i])
  }

  /** `(?:\s*[|\-–]|$)` matches at `k`. */
  ghost predicate TailAt(s: string, k: nat) {
    k == |s| || exists j: nat {:trigger SpaceBetween(s, k, j)} :: SpaceBetween(s, k, j) && j < |s| && IsSeparator(s[j])
  }

  /** `c` equals the lower-case ASCII letter `lower` under the `i` flag. */
  predicate FoldsTo(c: char, lower: char) {
    c == lower || c as int == lower as int - 32
  }

  /** `(?:at|chez|@)` matches the `n` characters at `k`. */
  predicate IsKeyword(s: string, k: nat, n: nat) {
    && k + n <= |s|
    && (|| (n == 2 && FoldsTo(s[k], 'a') && FoldsTo(s[k + 1], 't'))
        || (n == 4 && FoldsTo(s[k], 'c') && FoldsTo(s[k + 1], 'h') && FoldsTo(s[k + 2], 'e') && FoldsTo(s[k + 3], 'z'))
        || (n == 1 && s[k] == '@'))
  }

  /** What lies between the two groups: `\s+(?:at|chez|@)\s+` or `\s*[|\-–]\s*`. */
  ghost predicate Connects(s: string, pat: Pattern, a: nat, b: nat) {
    match pat
    case At => exists k: nat, n: nat {:trigger IsKeyword(s, k, n)} :: a < k && k + n < b && SpaceBetween(s, a, k) && IsKeyword(s, k, n) && SpaceBetween(s, k + n, b)
    case Dash => exists k: nat {:trigger SpaceBetween(s, a, k)} :: SpaceBetween(s, a, k) && k < |s| && IsSeparator(s[k]) && SpaceBetween(s, k + 1, b)
  }

  /** `m` holds the groups of some way the whole pattern matches `s`. */
  ghost predicate IsMatch(s: string, pat: Pattern, m: Split) {
    && Dots(s, m.first.start, m.first.end)
    && m.first.end <= m.second.start
    && Connects(s, pat, m.first.end, m.second.start)
    && Dots(s, m.second.start, m.second.end)
    && TailAt(s, m.second.end)
  }

  /** The tail test as the matcher runs it: greedy `\s*`, then a separator, or the end. */
  function TailHolds(s: string, k: nat): (b: bool)
    requires k <= |s|
    ensures b <==> TailAt(s, k)
  {
    var j := SkipSpaces(s, k);
    assert j < |s| && IsSeparator(s[j]) ==> SpaceBetween(s, k, j);
    k == |s| || (j < |s| && IsSeparator(s[j]))
  }

  /** `(?:at|chez|@)` at `k`: the length matched, or 0. */
  function KeywordLength(s: string, k: nat): (n: nat)
    ensures forall j :: IsKeyword(s, k, j) <==> j != 0 && j == n
  {
    if IsKeyword(s, k, 2) then 2
    else if IsKeyword(s, k, 4) then 4
    else if IsKeyword(s, k, 1) then 1
    else 0
  }

  /** A keyword never starts with whitespace, so `\s+` before it can only end where the
      whitespace run ends. */
  lemma KeywordIsNotSpace(s: string, k: nat, n: nat)
    requires IsKeyword(s, k, n)
    ensures !IsJsSpace(s[k])
  {
  }

  /** The lazy `(.+?)` of the second group started at `w`, tried with end `e`, then
      `e + 1`, and so on: the first end at which the tail matches. */
  function LazyEnd(s: string, w: nat, e: nat): (r: Option<nat>)
    requires w < e <= |s|
    requires forall i :: w <= i < e - 1 ==> !IsLineTerminator(s[i])
    decreases |s| - e
    ensures r.Some? ==> e <= r.value && Dots(s, w, r.value) && TailAt(s, r.value)
  {
    if IsLineTerminator(s[e - 1]) then None
    else if TailHolds(s, e) then Some(e)
    else LazyEnd(s, w, e + 1)
  }

  /** The second group after greedy whitespace: start at `w`, the end of the run, and
      give back one whitespace character at a time down to `lo`. */
  function SecondGroup(s: string, lo: nat, w: nat): (r: Option<Span>)
    requires SpaceBetween(s, lo, w)
    decreases w - lo
    ensures r.Some? ==> lo <= r.value.start <= w && Dots(s, r.value.start, r.value.end) && TailAt(s, r.value.end)
  {
    var e := if w < |s| then LazyEnd(s, w, w + 1) else None;
    if e.Some? then Some(Span(w, e.value))
    else if w > lo then SecondGroup(s, lo, w - 1)
    else None
  }

  /** When the lazy second group finds no end from `e` on, no end from `e` on that `.+`
      can reach is followed by the tail. */
  lemma {:induction false} LazyEndComplete(s: string, w: nat, e: nat, b: nat)
    requires w < e <= |s|
    requires forall i :: w <= i < e - 1 ==> !IsLineTerminator(s[i])
    requires LazyEnd(s, w, e).None? && e <= b && Dots(s, w, b)
    ensures !TailAt(s, b)
    decreases |s| - e
  {
    assert !IsLineTerminator(s[e - 1]);
    if b != e {
      LazyEndComplete(s, w, e + 1, b);
    }
  }

  /** When the second group fails for every start from `w` down to `lo`, no group
      starting in that range is followed by the tail. */
  lemma {:induction false} SecondGroupComplete(s: string, lo: nat, w: nat, g: Span)
    requires SpaceBetween(s, lo, w) && SecondGroup(s, lo, w).None?
    requires lo <= g.start <= w && Dots(s, g.start, g.end)
    ensures !TailAt(s, g.end)
    decreases w - lo
  {
    if g.start == w {
      LazyEndComplete(s, w, w + 1, g.end);
    } else {
      SecondGroupComplete(s, lo, w - 1, g);
    }
  }

  /** Everything after the first group ending at `a`: the connector, then the second
      group. */
  function Connect(s: string, pat: Pattern, a: nat): (r: Option<Span>)
    requires a <= |s|
    ensures r.Some? ==> a <= r.value.start && Connects(s, pat, a, r.value.start)
                        && Dots(s, r.value.start, r.value.end) && TailAt(s, r.value.end)
  {
    match pat
    case At => ConnectAtSound(s, a); ConnectAt(s, a)
    case Dash => ConnectDashSound(s, a); ConnectDash(s, a)
  }

  /** `\s+(?:at|chez|@)\s+(.+?)(?:\s*[|\-–]|$)` from `a`: the greedy whitespace can only
      stop where its run ends, since no keyword starts with whitespace. */
  function ConnectAt(s: string, a: nat): (r: Option<Span>)
    requires a <= |s|
  {
    var k := SkipSpaces(s, a);
    var n := KeywordLength(s, k);
    if k == a || n == 0 then None else AfterKeyword(s, k + n)
  }

  /** `\s+(.+?)(?:\s*[|\-–]|$)` from `p`, just after the keyword. */
  function AfterKeyword(s: string, p: nat): (r: Option<Span>)
    requires p <= |s|
    ensures r.Some? ==> p < r.value.start && SpaceBetween(s, p, r.value.start)
                        && Dots(s, r.value.start, r.value.end) && TailAt(s, r.value.end)
  {
    var m := SkipSpaces(s, p);
    if m == p then None else SecondGroup(s, p + 1, m)
  }

  /** `\s*[|\-–]\s*(.+?)(?:\s*[|\-–]|$)` from `a`. */
  function ConnectDash(s: string, a: nat): (r: Option<Span>)
    requires a <= |s|
  {
    var k := SkipSpaces(s, a);
    if k == |s| || !IsSeparator(s[k]) then None else AfterSeparator(s, k + 1)
  }

  /** `\s*(.+?)(?:\s*[|\-–]|$)` from `p`, just after the separator. */
  function AfterSeparator(s: string, p: nat): (r: Option<Span>)
    requires p <= |s|
    ensures r.Some? ==> p <= r.value.start && SpaceBetween(s, p, r.value.start)
                        && Dots(s, r.value.start, r.value.end) && TailAt(s, r.value.end)
  {
    SecondGroup(s, p, SkipSpaces(s, p))
  }

  /** What `ConnectAt` finds is a genuine `at` connector followed by a second group and
      the tail. */
  lemma ConnectAtSound(s: string, a: nat)
    requires a <= |s|
    ensures var r := ConnectAt(s, a);
      r.Some? ==> a <= r.value.start && Connects(s, At, a, r.value.start)
                  && Dots(s, r.value.start, r.value.end) && TailAt(s, r.value.end)
  {
    var k := SkipSpaces(s, a);
    var n := KeywordLength(s, k);
    if k != a && n != 0 {
      var g := AfterKeyword(s, k + n);
      if g.Some? {
        assert SpaceBetween(s, a, k) && IsKeyword(s, k, n) && SpaceBetween(s, k + n, g.value.start);
      }
    }
  }

  /** What `ConnectDash` finds is a genuine separator connector followed by a second
      group and the tail. */
  lemma ConnectDashSound(s: string, a: nat)
    requires a <= |s|
    ensures var r := ConnectDash(s, a);
      r.Some? ==> a <= r.value.start && Connects(s, Dash, a, r.value.start)
                  && Dots(s, r.value.start, r.value.end) && TailAt(s, r.value.end)
  {
    var k := SkipSpaces(s, a);
    if k < |s| && IsSeparator(s[k]) {
      var g := AfterSeparator(s, k + 1);
      if g.Some? {
        assert SpaceBetween(s, a, k) && SpaceBetween(s, k + 1, g.value.start);
      }
    }
  }

  /** What the rest of a pattern matches once the first group ends at a position. */
  function Rest(s: string, pat: Pattern): nat -> Option<Span> {
    (a: nat) => if a <= |s| then Connect(s, pat, a) else None
  }

  /** The lazy `(.+?)` of the first group started at `st`, tried with end `e1`, then
      `e1 + 1`, and so on, until `rest` matches after it. */
  function FirstGroupFrom(s: string, rest: nat -> Option<Span>, st: nat, e1: nat): (r: Option<Split>)
    requires st < e1 <= |s|
    requires forall i :: st <= i < e1 - 1 ==> !IsLineTerminator(s[i])
    decreases |s| - e1
    ensures r.Some? ==> && r.value.first.start == st && e1 <= r.value.first.end
                        && Dots(s, st, r.value.first.end) && rest(r.value.first.end) == Some(r.value.second)
  {
    if IsLineTerminator(s[e1 - 1]) then None
    else match rest(e1)
      case Some(g) => Some(Split(Span(st, e1), g))
      case None => if e1 < |s| then FirstGroupFrom(s, rest, st, e1 + 1) else None
  }

  /** The unanchored search: try each start position from `st` on. */
  function SearchFrom(s: string, rest: nat -> Option<Span>, st: nat): (r: Option<Split>)
    requires st <= |s|
    decreases |s| - st
    ensures r.Some? ==> && st <= r.value.first.start && Dots(s, r.value.first.start, r.value.first.end)
                        && rest(r.value.first.end) == Some(r.value.second)
  {
    if st == |s| then None
    else match FirstGroupFrom(s, rest, st, st + 1)
      case Some(m) => Some(m)
      case None => SearchFrom(s, rest, st + 1)
  }

  /** `s.match(pattern)`: the capture groups, or `None` for `null`. */
  function Match(s: string, pat: Pattern): (r: Option<Split>)
    ensures r.Some? ==> IsMatch(s, pat, r.value)
  {
    var r := SearchFrom(s, Rest(s, pat), 0);
    assert r.Some? ==> Connect(s, pat, r.value.first.end) == Some(r.value.second);
    r
  }

  /** A whitespace run followed by a non-space character ends exactly there. */
  lemma SkipSpacesStopsAt(s: string, a: nat, k: nat)
    requires SpaceBetween(s, a, k) && k < |s| && !IsJsSpace(s[k])
    ensures SkipSpaces(s, a) == k
  {
  }

  /** A whitespace run reaches at least as far as any all-space range from its start. */
  lemma SkipSpacesReaches(s: string, a: nat, b: nat)
    requires SpaceBetween(s, a, b)
    ensures b <= SkipSpaces(s, a)
  {
  }

  /** When `Connect` finds nothing after a first group ending at `a`, no connector and
      second group after `a` lead to the tail. */
  lemma ConnectComplete(s: string, pat: Pattern, a: nat, g: Span)
    requires a <= |s| && Connect(s, pat, a).None?
    requires a <= g.start && Connects(s, pat, a, g.start) && Dots(s, g.start, g.end)
    ensures !TailAt(s, g.end)
  {
    match pat
    case At =>
      var k: nat, n: nat :| a < k && k + n < g.start && SpaceBetween(s, a, k) && IsKeyword(s, k, n) && SpaceBetween(s, k + n, g.start);
      ConnectAtComplete(s, a, k, n, g);
    case Dash =>
      var k: nat :| SpaceBetween(s, a, k) && k < |s| && IsSeparator(s[k]) && SpaceBetween(s, k + 1, g.start);
      ConnectDashComplete(s, a, k, g);
  }

  /** The `at` case of `ConnectComplete`, for the keyword at `k` of length `n`. */
  lemma ConnectAtComplete(s: string, a: nat, k: nat, n: nat, g: Span)
    requires a <= |s| && ConnectAt(s, a).None?
    requires a < k && k + n < g.start && SpaceBetween(s, a, k) && IsKeyword(s, k, n) && SpaceBetween(s, k + n, g.start)
    requires Dots(s, g.start, g.end)
    ensures !TailAt(s, g.end)
  {
    KeywordIsNotSpace(s, k, n);
    SkipSpacesStopsAt(s, a, k);
    KeywordLengthIs(s, k, n);
    ConnectAtUnfolds(s, a, k, n);
    AfterKeywordComplete(s, k + n, g);
  }

  /** The dash case of `ConnectComplete`, for the separator at `k`. */
  lemma ConnectDashComplete(s: string, a: nat, k: nat, g: Span)
    requires a <= |s| && ConnectDash(s, a).None?
    requires SpaceBetween(s, a, k) && k < |s| && IsSeparator(s[k]) && SpaceBetween(s, k + 1, g.start)
    requires Dots(s, g.start, g.end)
    ensures !TailAt(s, g.end)
  {
    ConnectDashUnfolds(s, a, k);
    AfterSeparatorComplete(s, k + 1, g);
  }

  /** With the whitespace run from `a` ending at `k`, where a keyword of length `n`
      starts, `ConnectAt` is what follows the keyword. */
  lemma ConnectAtUnfolds(s: string, a: nat, k: nat, n: nat)
    requires a < k <= |s| && SkipSpaces(s, a) == k && KeywordLength(s, k) == n && n != 0
    ensures ConnectAt(s, a) == AfterKeyword(s, k + n)
  {
  }

  /** When nothing matches after the keyword, no whitespace and second group after it
      lead to the tail. */
  lemma AfterKeywordComplete(s: string, p: nat, g: Span)
    requires p <= |s| && AfterKeyword(s, p).None?
    requires p < g.start && SpaceBetween(s, p, g.start) && Dots(s, g.start, g.end)
    ensures !TailAt(s, g.end)
  {
    SkipSpacesReaches(s, p, g.start);
    SecondGroupComplete(s, p + 1, SkipSpaces(s, p), g);
  }

  /** The keyword at `k` is the one `KeywordLength` reports. */
  lemma KeywordLengthIs(s: string, k: nat, n: nat)
    requires IsKeyword(s, k, n)
    ensures KeywordLength(s, k) == n && n != 0
  {
  }

  /** With the separator at `k`, `ConnectDash` is what follows the separator. */
  lemma ConnectDashUnfolds(s: string, a: nat, k: nat)
    requires SpaceBetween(s, a, k) && k < |s| && IsSeparator(s[k])
    ensures ConnectDash(s, a) == AfterSeparator(s, k + 1)
  {
    SkipSpacesStopsAt(s, a, k);
  }

  /** When nothing matches after the separator, no whitespace and second group after it
      lead to the tail. */
  lemma AfterSeparatorComplete(s: string, p: nat, g: Span)
    requires p <= |s| && AfterSeparator(s, p).None?
    requires p <= g.start && SpaceBetween(s, p, g.start) && Dots(s, g.start, g.end)
    ensures !TailAt(s, g.end)
  {
    SkipSpacesReaches(s, p, g.start);
    SecondGroupComplete(s, p, SkipSpaces(s, p), g);
  }

  /** A match whose first group ends at `f` gives `Connect` something to find there. */
  lemma MatchNeedsConnect(s: string, pat: Pattern, m: Split)
    requires IsMatch(s, pat, m)
    ensures Connect(s, pat, m.first.end).Some?
  {
    if Connect(s, pat, m.first.end).None? {
      ConnectComplete(s, pat, m.first.end, m.second);
      assert false;
    }
  }

  /** Trying first-group ends from `e1` on succeeds no later than at any end `f` that
      `.+` reaches and after which `rest` matches. */
  lemma {:induction false} FirstGroupComplete(s: string, rest: nat -> Option<Span>, st: nat, e1: nat, f: nat)
    requires st < e1 <= f && Dots(s, st, f) && rest(f).Some?
    ensures FirstGroupFrom(s, rest, st, e1).Some?
    ensures FirstGroupFrom(s, rest, st, e1).value.first.end <= f
    decreases f - e1
  {
    if rest(e1).None? {
      FirstGroupComplete(s, rest, st, e1 + 1, f);
    }
  }

  /** Trying start positions from `st` on finds a match whenever one starting there or
      later exists; it starts no later than that one, and with the same start its first
      group is no longer. */
  lemma {:induction false} SearchComplete(s: string, rest: nat -> Option<Span>, st: nat, m: Split)
    requires st <= m.first.start && Dots(s, m.first.start, m.first.end) && rest(m.first.end).Some?
    ensures st <= |s| && SearchFrom(s, rest, st).Some?
    ensures var r := SearchFrom(s, rest, st).value;
      r.first.start <= m.first.start && (r.first.start == m.first.start ==> r.first.end <= m.first.end)
    decreases |s| - st
  {
    if st == m.first.start {
      FirstGroupComplete(s, rest, st, st + 1, m.first.end);
    } else if FirstGroupFrom(s, rest, st, st + 1).None? {
      SearchComplete(s, rest, st + 1, m);
    }
  }

  /** `Match` fails exactly when the pattern matches nowhere; otherwise it returns the
      leftmost match, and among those the one with the shortest first group, as the
      ECMAScript matcher does. */
  lemma MatchIsLeftmostShortest(s: string, pat: Pattern)
    ensures Match(s, pat).None? <==> forall m :: !IsMatch(s, pat, m)
    ensures Match(s, pat).Some? ==> forall m :: IsMatch(s, pat, m) ==>
      var r := Match(s, pat).value;
      r.first.start <= m.first.start && (r.first.start == m.first.start ==> r.first.end <= m.first.end)
  {
    forall m | IsMatch(s, pat, m)
      ensures Match(s, pat).Some?
      ensures Match(s, pat).value.first.start <= m.first.start
      ensures Match(s, pat).value.first.start == m.first.start ==> Match(s, pat).value.first.end <= m.first.end
    {
      MatchNeedsConnect(s, pat, m);
      SearchComplete(s, Rest(s, pat), 0, m);
    }
  }
  /** The lazy second group ends no later than any end `.+` reaches from `w` on after
      which the tail matches. */
  lemma {:induction false} LazyEndBest(s: string, w: nat, e: nat, b: nat)
    requires w < e <= b && Dots(s, w, b) && TailAt(s, b)
    ensures LazyEnd(s, w, e).Some? && LazyEnd(s, w, e).value <= b
    decreases b - e
  {
    if !TailHolds(s, e) {
      LazyEndBest(s, w, e + 1, b);
    }
  }

  /** Greedy whitespace before the second group: among the starts from `lo` to `w` from
      which some group reaches the tail, `SecondGroup` takes the latest, and from that
      start the shortest group. */
  lemma {:induction false} SecondGroupBest(s: string, lo: nat, w: nat, g: Span)
    requires SpaceBetween(s, lo, w)
    requires lo <= g.start <= w && Dots(s, g.start, g.end) && TailAt(s, g.end)
    ensures SecondGroup(s, lo, w).Some?
    ensures var r := SecondGroup(s, lo, w).value;
      g.start <= r.start && (r.start == g.start ==> r.end <= g.end)
    decreases w - lo
  {
    if g.start == w {
      LazyEndBest(s, w, w + 1, g.end);
    } else if w < |s| && LazyEnd(s, w, w + 1).Some? {
    } else {
      SecondGroupBest(s, lo, w - 1, g);
    }
  }

  /** After a first group ending at `a`, `Connect` returns the second group that starts
      latest, and the shortest from that start, among all groups the connector and the
      tail allow. */
  lemma ConnectBest(s: string, pat: Pattern, a: nat, g: Span)
    requires a <= |s| && a <= g.start && Connects(s, pat, a, g.start)
    requires Dots(s, g.start, g.end) && TailAt(s, g.end)
    ensures Connect(s, pat, a).Some?
    ensures var r := Connect(s, pat, a).value;
      g.start <= r.start && (r.start == g.start ==> r.end <= g.end)
  {
    match pat
    case At =>
      var k: nat, n: nat :| a < k && k + n < g.start && SpaceBetween(s, a, k) && IsKeyword(s, k, n) && SpaceBetween(s, k + n, g.start);
      ConnectAtBest(s, a, k, n, g);
    case Dash =>
      var k: nat :| SpaceBetween(s, a, k) && k < |s| && IsSeparator(s[k]) && SpaceBetween(s, k + 1, g.start);
      ConnectDashBest(s, a, k, g);
  }

  /** The `at` case of `ConnectBest`, for the keyword at `k` of length `n`. */
  lemma ConnectAtBest(s: string, a: nat, k: nat, n: nat, g: Span)
    requires a < k && k + n < g.start && SpaceBetween(s, a, k) && IsKeyword(s, k, n) && SpaceBetween(s, k + n, g.start)
    requires Dots(s, g.start, g.end) && TailAt(s, g.end)
    ensures ConnectAt(s, a).Some?
    ensures var r := ConnectAt(s, a).value;
      g.start <= r.start && (r.start == g.start ==> r.end <= g.end)
  {
    KeywordIsNotSpace(s, k, n);
    SkipSpacesStopsAt(s, a, k);
    KeywordLengthIs(s, k, n);
    ConnectAtUnfolds(s, a, k, n);
    AfterKeywordBest(s, k + n, g);
  }

  /** The dash case of `ConnectBest`, for the separator at `k`. */
  lemma ConnectDashBest(s: string, a: nat, k: nat, g: Span)
    requires SpaceBetween(s, a, k) && k < |s| && IsSeparator(s[k]) && SpaceBetween(s, k + 1, g.start)
    requires Dots(s, g.start, g.end) && TailAt(s, g.end)
    ensures ConnectDash(s, a).Some?
    ensures var r := ConnectDash(s, a).value;
      g.start <= r.start && (r.start == g.start ==> r.end <= g.end)
  {
    ConnectDashUnfolds(s, a, k);
    SkipSpacesReaches(s, k + 1, g.start);
    SecondGroupBest(s, k + 1, SkipSpaces(s, k + 1), g);
  }

  /** The `at` case of `ConnectBest`, just after the keyword. */
  lemma AfterKeywordBest(s: string, p: nat, g: Span)
    requires p < g.start && SpaceBetween(s, p, g.start) && Dots(s, g.start, g.end) && TailAt(s, g.end)
    ensures AfterKeyword(s, p).Some?
    ensures var r := AfterKeyword(s, p).value;
      g.start <= r.start && (r.start == g.start ==> r.end <= g.end)
  {
    SkipSpacesReaches(s, p, g.start);
    SecondGroupBest(s, p + 1, SkipSpaces(s, p), g);
  }

  /** Among the matches with the first group `Match` returns, its second group starts
      latest (the whitespace before it is greedy) and, from that start, is the shortest
      (the group is lazy). For "Dev at Acme - Paris" this prefers the company "Acme"
      to "Acme - Paris", and for "Dev at  Acme" (two spaces) "Acme" to " Acme". */
  lemma MatchSecondGroup(s: string, pat: Pattern, m: Split)
    requires IsMatch(s, pat, m)
    requires Match(s, pat).Some? && Match(s, pat).value.first == m.first
    ensures var r := Match(s, pat).value;
      m.second.start <= r.second.start && (r.second.start == m.second.start ==> r.second.end <= m.second.end)
  {
    var r := SearchFrom(s, Rest(s, pat), 0).value;
    assert Connect(s, pat, r.first.end) == Some(r.second);
    ConnectBest(s, pat, m.first.end, m.second);
  }
}
