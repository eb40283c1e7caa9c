// The Python `str` behaviour the service relies on: whitespace stripping and
// splitting, ASCII case mapping, containment, slicing, decimal conversion and
// the code-point order used by `sorted`.
module Text {
  import opened Wrappers

  /** The characters for which Python's `str.isspace` holds. */
  predicate IsSpace(c: char) {
    c == ' ' || ('\t' <= c <= '\r') || ('\U{1C}' <= c <= '\U{1F}') || c == '\U{85}' || c == '\U{A0}'
    || c == '\U{1680}' || ('\U{2000}' <= c <= '\U{200A}') || c == '\U{2028}' || c == '\U{2029}'
    || c == '\U{202F}' || c == '\U{205F}' || c == '\U{3000}'
  }

  /** `s.lstrip()` */
  function LStrip(s: string): (r: string)
    ensures |r| <= |s|
    ensures r == [] || !IsSpace(r[0])
  {
    if s != [] && IsSpace(s[0]) then LStrip(s[1..]) else s
  }

  /** `lstrip` brings in no character. */
  lemma {:induction false} LStripAbsent(s: string, c: char)
    requires c !in s
    ensures c !in LStrip(s)
    decreases |s|
  {
    if s != [] && IsSpace(s[0]) {
      assert c !in s[1..];
      LStripAbsent(s[1..], c);
    }
  }

  /** `lstrip` removes only whitespace. */
  lemma {:induction false} LStripSkipsSpaces(s: string)
    ensures forall i :: 0 <= i < |s| - |LStrip(s)| ==> IsSpace(s[i])
    decreases |s|
  {
    if s != [] && IsSpace(s[0]) {
      LStripSkipsSpaces(s[1..]);
    }
  }

  /** What `lstrip` leaves is a suffix of its argument. */
  lemma {:induction false} LStripSuffix(s: string)
    ensures LStrip(s) == s[|s| - |LStrip(s)|..]
    decreases |s|
  {
    if s != [] && IsSpace(s[0]) {
      LStripSuffix(s[1..]);
    }
  }

  /** `s.rstrip()` */
  function RStrip(s: string): (r: string)
    ensures |r| <= |s| && r == s[..|r|]
    ensures r == [] || !IsSpace(r[|r| - 1])
  {
    if s != [] && IsSpace(s[|s| - 1]) then RStrip(s[..|s| - 1]) else s
  }

  /** `rstrip` removes only whitespace. */
  lemma {:induction false} RStripSkipsSpaces(s: string)
    ensures forall i :: |RStrip(s)| <= i < |s| ==> IsSpace(s[i])
    decreases |s|
  {
    if s != [] && IsSpace(s[|s| - 1]) {
      RStripSkipsSpaces(s[..|s| - 1]);
    }
  }

  /** `s.strip()` */
  function Strip(s: string): (r: string)
    ensures r == [] || (!IsSpace(r[0]) && !IsSpace(r[|r| - 1]))
    ensures |r| <= |s|
  {
    RStrip(LStrip(s))
  }

  /** Stripping a string that neither starts nor ends with whitespace changes nothing. */
  lemma StripUnchanged(s: string)
    requires s == [] || (!IsSpace(s[0]) && !IsSpace(s[|s| - 1]))
    ensures Strip(s) == s
  {
  }

  lemma StripIdempotent(s: string)
    ensures Strip(Strip(s)) == Strip(s)
  {
    StripUnchanged(Strip(s));
  }

  /** Whether `s` is empty once stripped: Python's `not s.strip()`. */
  predicate Blank(s: string) {
    forall i :: 0 <= i < |s| ==> IsSpace(s[i])
  }

  lemma BlankIffStripEmpty(s: string)
    ensures Blank(s) <==> Strip(s) == []
  {
    var l := LStrip(s);
    LStripSuffix(s);
    LStripSkipsSpaces(s);
    RStripSkipsSpaces(l);
    if l != [] {
      assert !IsSpace(s[|s| - |l|]);
      assert !IsSpace(l[0]);
      assert |RStrip(l)| > 0;
    } else {
      forall i | 0 <= i < |s| ensures IsSpace(s[i]) { }
    }
  }

  function LowerChar(c: char): char {
    if 'A' <= c <= 'Z' then (c as int + 32) as char else c
  }

  function UpperChar(c: char): char {
    if 'a' <= c <= 'z' then (c as int - 32) as char else c
  }

  /** `s.lower()` on ASCII letters. */
  function Lower(s: string): (r: string)
    ensures |r| == |s|
  {
    seq(|s|, i requires 0 <= i < |s| => LowerChar(s[i]))
  }

  /** `s.upper()` on ASCII letters. */
  function Upper(s: string): (r: string)
    ensures |r| == |s|
  {
    seq(|s|, i requires 0 <= i < |s| => UpperChar(s[i]))
  }

  lemma UpperAppend(a: string, b: string)
    ensures Upper(a + b) == Upper(a) + Upper(b)
  {
  }

  lemma LowerAppend(a: string, b: string)
    ensures Lower(a + b) == Lower(a) + Lower(b)
  {
  }

  /** `a.lower() == w` for a lower-case word `w`, compared character by character. */
  predicate FoldEquals(a: string, w: string) {
    |a| == |w| && (a == [] || (LowerChar(a[0]) == w[0] && FoldEquals(a[1..], w[1..])))
  }

  lemma {:induction false} FoldEqualsLower(a: string, w: string)
    ensures FoldEquals(a, w) <==> Lower(a) == w
  {
    if a != [] && |a| == |w| {
      FoldEqualsLower(a[1..], w[1..]);
      assert Lower(a) == [LowerChar(a[0])] + Lower(a[1..]);
      assert w == [w[0]] + w[1..];
    }
  }

  /** `a.lower().startswith(w)` for a lower-case word `w`. */
  predicate FoldStartsWith(a: string, w: string) {
    |w| <= |a| && (w == [] || (LowerChar(a[0]) == w[0] && FoldStartsWith(a[1..], w[1..])))
  }

  /** `w in a.lower()` for a lower-case word `w`. */
  predicate FoldContains(a: string, w: string) {
    FoldStartsWith(a, w) || (a != [] && FoldContains(a[1..], w))
  }

  /** `sub in s` for strings. */
  predicate Contains(s: string, sub: string) {
    exists i :: 0 <= i <= |s| - |sub| && OccursAt(s, sub, i)
  }

  predicate OccursAt(s: string, sub: string, i: int) {
    0 <= i <= |s| - |sub| && s[i..i + |sub|] == sub
  }

  predicate StartsWith(s: string, prefix: string) {
    |prefix| <= |s| && s[..|prefix|] == prefix
  }

  predicate EndsWith(s: string, suffix: string) {
    |suffix| <= |s| && s[|s| - |suffix|..] == suffix
  }

  /** `s[:n]` for a non-negative `n`. */
  function Take(s: string, n: nat): (r: string)
    ensures |r| <= n && StartsWith(s, r)
    ensures |s| <= n ==> r == s
    ensures |s| > n ==> |r| == n
  {
    if |s| <= n then s else s[..n]
  }

  /** `s.replace(c, rep)` for a single-character pattern. */
  function ReplaceChar(s: string, c: char, rep: string): (r: string)
    ensures c !in s ==> r == s
    ensures c !in rep ==> c !in r
  {
    if s == [] then []
    else (if s[0] == c then rep else [s[0]]) + ReplaceChar(s[1..], c, rep)
  }

  lemma {:induction false} ReplaceCharAppend(a: string, b: string, c: char, rep: string)
    ensures ReplaceChar(a + b, c, rep) == ReplaceChar(a, c, rep) + ReplaceChar(b, c, rep)
  {
    if a != [] {
      var h := if a[0] == c then rep else [a[0]];
      assert (a + b)[0] == a[0] && (a + b)[1..] == a[1..] + b;
      assert ReplaceChar(a + b, c, rep) == h + ReplaceChar(a[1..] + b, c, rep);
      ReplaceCharAppend(a[1..], b, c, rep);
      assert ReplaceChar(a, c, rep) == h + ReplaceChar(a[1..], c, rep);
    } else {
      assert a + b == b;
    }
  }

  /** `sep.join(parts)` */
  function Join(sep: string, parts: seq<string>): string {
    if parts == [] then ""
    else if |parts| == 1 then parts[0]
    else parts[0] + sep + Join(sep, parts[1..])
  }

  // ----- s.split() and ' '.join(s.split()) -----

  predicate IsWord(w: string) {
    w != [] && forall i :: 0 <= i < |w| ==> !IsSpace(w[i])
  }

  function NonSpaceRun(s: string): (n: nat)
    ensures n <= |s| && (n == |s| || IsSpace(s[n]))
    ensures forall i :: 0 <= i < n ==> !IsSpace(s[i])
  {
    if s == [] || IsSpace(s[0]) then 0 else 1 + NonSpaceRun(s[1..])
  }

  lemma NonSpaceRunAt(s: string, k: nat)
    requires k < |s| && IsSpace(s[k])
    requires forall i :: 0 <= i < k ==> !IsSpace(s[i])
    ensures NonSpaceRun(s) == k
  {
  }

  /** `s.split()` with no separator: the maximal runs of non-whitespace, in order. */
  function Words(s: string): seq<string>
    decreases |s|
  {
    if s == [] then []
    else if IsSpace(s[0]) then Words(s[1..])
    else
      var n := NonSpaceRun(s);
      [s[..n]] + Words(s[n..])
  }

  /** `' '.join(s.split())`: runs of whitespace become one space, none at either end. */
  function Collapse(s: string): string {
    Join(" ", Words(s))
  }

  lemma {:induction false} WordsAreWords(s: string)
    ensures forall k :: 0 <= k < |Words(s)| ==> IsWord(Words(s)[k])
    decreases |s|
  {
    if s != [] {
      if IsSpace(s[0]) {
        WordsAreWords(s[1..]);
      } else {
        var n := NonSpaceRun(s);
        WordsAreWords(s[n..]);
        assert IsWord(s[..n]);
      }
    }
  }

  lemma {:induction false} WordsOfLStrip(s: string)
    ensures Words(LStrip(s)) == Words(s)
    decreases |s|
  {
    if s != [] && IsSpace(s[0]) {
      WordsOfLStrip(s[1..]);
    }
  }

  lemma {:induction false} WordsOfBlank(s: string)
    requires Blank(s)
    ensures Words(s) == []
    decreases |s|
  {
    if s != [] {
      WordsOfBlank(s[1..]);
    }
  }

  lemma {:induction false} JoinWordsEnds(ws: seq<string>)
    requires forall k :: 0 <= k < |ws| ==> IsWord(ws[k])
    ensures var j := Join(" ", ws);
      (ws == [] ==> j == []) &&
      (ws != [] ==> j != [] && !IsSpace(j[0]) && !IsSpace(j[|j| - 1]))
  {
    if |ws| > 1 {
      JoinWordsEnds(ws[1..]);
    }
  }

  lemma WordsSingle(w: string)
    requires IsWord(w)
    ensures Words(w) == [w]
  {
    assert NonSpaceRun(w) == |w|;
    assert w[..|w|] == w && w[|w|..] == [];
  }

  lemma WordsCons(w: string, rest: string)
    requires IsWord(w)
    ensures Words(w + " " + rest) == [w] + Words(rest)
  {
    var j := w + " " + rest;
    forall i | 0 <= i < |w| ensures !IsSpace(j[i]) {
      assert j[i] == w[i];
    }
    NonSpaceRunAt(j, |w|);
    assert j[..|w|] == w;
    assert j[|w|..] == " " + rest;
    assert (" " + rest)[1..] == rest;
  }

  /** Splitting a space-joined list of words gives the words back. */
  lemma {:induction false} WordsOfJoin(ws: seq<string>)
    requires forall k :: 0 <= k < |ws| ==> IsWord(ws[k])
    ensures Words(Join(" ", ws)) == ws
  {
    if ws == [] {
    } else if |ws| == 1 {
      WordsSingle(ws[0]);
    } else {
      WordsCons(ws[0], Join(" ", ws[1..]));
      WordsOfJoin(ws[1..]);
    }
  }

  lemma NonSpaceRunAppendSpace(t: string, sp: string)
    requires Blank(sp)
    ensures NonSpaceRun(t + sp) == NonSpaceRun(t)
  {
    var n := NonSpaceRun(t);
    var u := t + sp;
    forall i | 0 <= i < n ensures !IsSpace(u[i]) {
      assert u[i] == t[i];
    }
    if n < |t| {
      assert u[n] == t[n];
      NonSpaceRunAt(u, n);
    } else if sp != [] {
      assert u[n] == sp[0];
      NonSpaceRunAt(u, n);
    } else {
      assert u == t;
    }
  }

  /** Trailing whitespace adds no words. */
  lemma {:induction false} WordsIgnoresTrailingSpace(s: string, sp: string)
    requires Blank(sp)
    ensures Words(s + sp) == Words(s)
    decreases |s|
  {
    var u := s + sp;
    if s == [] {
      assert u == sp;
      WordsOfBlank(sp);
    } else if IsSpace(s[0]) {
      assert u[0] == s[0] && u[1..] == s[1..] + sp;
      WordsIgnoresTrailingSpace(s[1..], sp);
    } else {
      assert u[0] == s[0];
      var n := NonSpaceRun(s);
      NonSpaceRunAppendSpace(s, sp);
      assert u[..n] == s[..n];
      assert u[n..] == s[n..] + sp;
      WordsIgnoresTrailingSpace(s[n..], sp);
    }
  }

  /** `rstrip` removes a blank suffix and nothing else. */
  lemma RStripSplit(l: string)
    ensures var r := RStrip(l); l == r + l[|r|..] && Blank(l[|r|..])
  {
    var r := RStrip(l);
    var sp := l[|r|..];
    RStripSkipsSpaces(l);
    forall i | 0 <= i < |sp| ensures IsSpace(sp[i]) {
      assert sp[i] == l[|r| + i];
    }
  }

  /** `' '.join(s.strip().split())` is `' '.join(s.split())`. */
  lemma CollapseOfStrip(s: string)
    ensures Collapse(Strip(s)) == Collapse(s)
  {
    var l := LStrip(s);
    var r := RStrip(l);
    RStripSplit(l);
    WordsIgnoresTrailingSpace(r, l[|r|..]);
    WordsOfLStrip(s);
  }

  lemma CollapseIdempotent(s: string)
    ensures Collapse(Collapse(s)) == Collapse(s)
  {
    WordsAreWords(s);
    WordsOfJoin(Words(s));
  }

  /** A collapsed string needs no stripping. */
  lemma CollapseStripped(s: string)
    ensures Strip(Collapse(s)) == Collapse(s)
  {
    WordsAreWords(s);
    JoinWordsEnds(Words(s));
    StripUnchanged(Collapse(s));
  }

  /** The shape `' '.join(s.split())` leaves: single spaces between words, none at the ends. */
  predicate Canonical(s: string) {
    (s == [] || (!IsSpace(s[0]) && !IsSpace(s[|s| - 1])))
    && (forall i :: 0 <= i < |s| && IsSpace(s[i]) ==> s[i] == ' ')
    && (forall i :: 0 <= i < |s| - 1 ==> !(IsSpace(s[i]) && IsSpace(s[i + 1])))
  }

  lemma {:induction false} CanonicalOfJoinWords(ws: seq<string>)
    requires forall k :: 0 <= k < |ws| ==> IsWord(ws[k])
    ensures Canonical(Join(" ", ws))
  {
    if |ws| > 1 {
      var w := ws[0];
      var rest := Join(" ", ws[1..]);
      CanonicalOfJoinWords(ws[1..]);
      JoinWordsEnds(ws[1..]);
      var s := w + " " + rest;
      assert Join(" ", ws) == s;
      forall i | 0 <= i < |s| ensures s[i] == (if i < |w| then w[i] else if i == |w| then ' ' else rest[i - |w| - 1]) {
      }
      assert IsWord(w);
    }
  }

  /** What follows the first space of a collapsed string is collapsed. */
  lemma CanonicalAfterSpace(s: string, n: nat)
    requires Canonical(s) && n + 1 < |s| && s[n] == ' '
    ensures Canonical(s[n + 1..])
  {
    var rest := s[n + 1..];
    forall i | 0 <= i < |rest| ensures rest[i] == s[n + 1 + i] { }
  }

  /** A string already in collapsed form is left alone by stripping and collapsing. */
  lemma {:induction false} CanonicalCollapse(s: string)
    requires Canonical(s)
    ensures Collapse(s) == s && Strip(s) == s
    decreases |s|
  {
    StripUnchanged(s);
    if s != [] {
      assert LStrip(s) == s;
      var n := NonSpaceRun(s);
      if n == |s| {
        WordsSingle(s);
      } else {
        assert n >= 1 && s[n] == ' ';
        assert n + 1 < |s|;
        var w := s[..n];
        var rest := s[n + 1..];
        assert s == w + " " + rest;
        CanonicalAfterSpace(s, n);
        WordsCons(w, rest);
        CanonicalCollapse(rest);
        assert Words(s) == [w] + Words(rest);
        assert Join(" ", Words(rest)) == rest != [];
        assert Words(rest) != [];
      }
    }
  }

  lemma {:induction false} UpperJoin(ws: seq<string>)
    ensures Upper(Join(" ", ws)) == Join(" ", seq(|ws|, k requires 0 <= k < |ws| => Upper(ws[k])))
  {
    var us := seq(|ws|, k requires 0 <= k < |ws| => Upper(ws[k]));
    if |ws| > 1 {
      UpperJoin(ws[1..]);
      assert us[1..] == seq(|ws[1..]|, k requires 0 <= k < |ws[1..]| => Upper(ws[1..][k]));
      UpperAppend(ws[0] + " ", Join(" ", ws[1..]));
      UpperAppend(ws[0], " ");
    }
  }

  /** Upper-casing a collapsed string leaves it collapsed. */
  lemma CollapseUpperCollapse(s: string)
    ensures Collapse(Upper(Collapse(s))) == Upper(Collapse(s))
  {
    var ws := Words(s);
    var us := seq(|ws|, k requires 0 <= k < |ws| => Upper(ws[k]));
    WordsAreWords(s);
    UpperJoin(ws);
    forall k | 0 <= k < |us| ensures IsWord(us[k]) {
      assert IsWord(ws[k]);
    }
    WordsOfJoin(us);
  }

  // ----- decimal numbers -----

  predicate IsDigit(c: char) {
    '0' <= c <= '9'
  }

  predicate AllDigits(s: string) {
    forall i :: 0 <= i < |s| ==> IsDigit(s[i])
  }

  function DigitChar(d: nat): (c: char)
    requires d < 10
    ensures IsDigit(c)
  {
    ('0' as int + d) as char
  }

  /** `str(n)` for a natural number. */
  function NatToString(n: nat): (s: string)
    ensures s != [] && AllDigits(s)
  {
    if n < 10 then [DigitChar(n)] else NatToString(n / 10) + [DigitChar(n % 10)]
  }

  /** `str(i)` for an integer. */
  function IntToString(i: int): string {
    if i < 0 then "-" + NatToString(-i) else NatToString(i)
  }

  function DigitsValue(s: string): nat
    requires AllDigits(s)
  {
    if s == [] then 0 else DigitsValue(s[..|s| - 1]) * 10 + (s[|s| - 1] as int - '0' as int)
  }

  lemma {:induction false} DigitsValueOfNatToString(n: nat)
    ensures DigitsValue(NatToString(n)) == n
  {
    if n >= 10 {
      var s := NatToString(n);
      assert s[..|s| - 1] == NatToString(n / 10);
      DigitsValueOfNatToString(n / 10);
    }
  }

  predicate DoubleUnderscoreAt(s: string, i: nat)
    requires i < |s| - 1
  {
    s[i] == '_' && s[i + 1] == '_'
  }

  /**
   * `int(s)` for a decimal literal: surrounding whitespace, an optional sign
   * and ASCII digits grouped by underscores; anything else raises (here
   * `None`).
   */
  function ParseInt(s: string): Option<int> {
    SignedValue(Strip(s))
  }

  /** Without surrounding whitespace there is nothing to strip. */
  lemma ParseIntOfStripped(s: string)
    requires s == [] || (!IsSpace(s[0]) && !IsSpace(s[|s| - 1]))
    ensures ParseInt(s) == SignedValue(s)
  {
    StripUnchanged(s);
  }

  /** The value of a numeral with an optional sign and no surrounding whitespace. */
  function SignedValue(t: string): Option<int> {
    if t != [] && (t[0] == '-' || t[0] == '+') then
      match GroupedFrom(t, 1)
      case Some(magnitude) => Some(if t[0] == '-' then -magnitude else magnitude)
      case None => None
    else GroupedFrom(t, 0)
  }

  /**
   * The value of `t[lo..]` when it is ASCII digits in groups joined by single
   * underscores, as in "8_000"; `None` for anything else, a leading, trailing
   * or doubled underscore included. Read from the last digit backwards.
   */
  function GroupedFrom(t: string, lo: nat): (r: Option<int>)
    ensures r.Some? ==> r.value >= 0
    decreases |t|
  {
    if |t| <= lo || !IsDigit(t[|t| - 1]) then None
    else
      var d := t[|t| - 1] as int - '0' as int;
      var rest := if |t| >= lo + 2 && t[|t| - 2] == '_' then t[..|t| - 2] else t[..|t| - 1];
      if |rest| == lo then (if |t| == lo + 1 then Some(d) else None)
      else
        match GroupedFrom(rest, lo)
        case Some(v) => Some(v * 10 + d)
        case None => None
  }

  /** A plain run of digits is grouped, and its value is the digits' value. */
  lemma {:induction false} GroupedFromDigits(t: string)
    requires t != [] && AllDigits(t)
    ensures GroupedFrom(t, 0) == Some(DigitsValue(t))
    decreases |t|
  {
    if |t| > 1 {
      GroupedFromDigits(t[..|t| - 1]);
    }
  }

  /** A leading underscore is refused. */
  lemma {:induction false} GroupedFromLeadingUnderscore(t: string)
    requires t != [] && t[0] == '_'
    ensures GroupedFrom(t, 0) == None
    decreases |t|
  {
    if |t| > 2 && IsDigit(t[|t| - 1]) {
      var rest := if t[|t| - 2] == '_' then t[..|t| - 2] else t[..|t| - 1];
      GroupedFromLeadingUnderscore(rest);
    }
  }

  /** A doubled underscore anywhere is refused. */
  lemma {:induction false} GroupedFromDoubledUnderscore(t: string, i: nat)
    requires i < |t| - 1 && DoubleUnderscoreAt(t, i)
    ensures GroupedFrom(t, 0) == None
    decreases |t|
  {
    if IsDigit(t[|t| - 1]) && i + 2 < |t| - 1 {
      var rest := if t[|t| - 2] == '_' then t[..|t| - 2] else t[..|t| - 1];
      GroupedFromDoubledUnderscore(rest, i);
    }
  }

  /** Reading past a first character is reading the rest. */
  lemma {:induction false} GroupedFromCons(c: char, d: string)
    ensures GroupedFrom([c] + d, 1) == GroupedFrom(d, 0)
    decreases |d|
  {
    var t := [c] + d;
    if d != [] {
      assert t[|t| - 1] == d[|d| - 1];
      if |d| >= 2 {
        assert t[|t| - 2] == d[|d| - 2];
        assert t[..|t| - 2] == [c] + d[..|d| - 2];
        GroupedFromCons(c, d[..|d| - 2]);
      }
      assert t[..|t| - 1] == [c] + d[..|d| - 1];
      GroupedFromCons(c, d[..|d| - 1]);
    }
  }

  /** A numeral without sign or surrounding whitespace is read as an unsigned one. */
  lemma ParseIntUnsigned(s: string)
    requires s != [] && !IsSpace(s[0]) && !IsSpace(s[|s| - 1]) && s[0] != '-' && s[0] != '+'
    ensures ParseInt(s) == GroupedFrom(s, 0)
  {
    ParseIntOfStripped(s);
  }

  /** Underscores between digits are accepted and dropped. */
  lemma ParseIntGrouped()
    ensures ParseInt("8_000") == Some(8000)
  {
    var s := "8_000";
    assert GroupedFrom("8", 0) == Some(8);
    assert GroupedFrom("8_0", 0) == Some(80) by {
      assert "8_0"[..1] == "8";
    }
    assert GroupedFrom("8_00", 0) == Some(800) by {
      assert "8_00"[..3] == "8_0";
    }
    assert GroupedFrom(s, 0) == Some(8000) by {
      assert s[..4] == "8_00";
    }
    ParseIntUnsigned(s);
  }

  /** A leading or trailing underscore is refused, as in "_8000" or "8000_". */
  lemma ParseIntRefusesEdgeUnderscore(s: string)
    requires s != [] && !IsSpace(s[0]) && !IsSpace(s[|s| - 1]) && s[0] != '-' && s[0] != '+'
    requires s[0] == '_' || s[|s| - 1] == '_'
    ensures ParseInt(s) == None
  {
    ParseIntUnsigned(s);
    if s[0] == '_' {
      GroupedFromLeadingUnderscore(s);
    }
  }

  /** A doubled underscore is refused, as in "8__000". */
  lemma ParseIntRefusesDoubledUnderscore(s: string, i: nat)
    requires s != [] && !IsSpace(s[0]) && !IsSpace(s[|s| - 1]) && s[0] != '-' && s[0] != '+'
    requires i < |s| - 1 && DoubleUnderscoreAt(s, i)
    ensures ParseInt(s) == None
  {
    ParseIntUnsigned(s);
    GroupedFromDoubledUnderscore(s, i);
  }

  lemma ParseIntOfNatToString(n: nat)
    ensures ParseInt(NatToString(n)) == Some(n)
  {
    var d := NatToString(n);
    assert IsDigit(d[0]) && IsDigit(d[|d| - 1]);
    StripUnchanged(d);
    DigitsValueOfNatToString(n);
    GroupedFromDigits(d);
  }

  /** A minus sign before a grouped numeral negates its value. */
  lemma SignedValueOfMinus(t: string, v: int)
    requires t != [] && t[0] == '-' && GroupedFrom(t, 1) == Some(v)
    ensures SignedValue(t) == Some(-v)
  {
  }

  lemma ParseIntOfMinus(s: string, v: int)
    requires |s| > 1 && s[0] == '-' && !IsSpace(s[|s| - 1]) && GroupedFrom(s, 1) == Some(v)
    ensures ParseInt(s) == Some(-v)
  {
    SignedValueOfMinus(s, v);
    ParseIntOfStripped(s);
  }

  /** A minus sign before plain digits negates their value. */
  lemma ParseIntOfMinusDigits(d: string)
    requires d != [] && AllDigits(d)
    ensures ParseInt("-" + d) == Some(-(DigitsValue(d) as int))
  {
    MinusDigitsShape(d);
    ParseIntOfMinus("-" + d, DigitsValue(d));
  }

  lemma MinusDigitsShape(d: string)
    requires d != [] && AllDigits(d)
    ensures var s := "-" + d;
      |s| > 1 && s[0] == '-' && !IsSpace(s[|s| - 1]) && GroupedFrom(s, 1) == Some(DigitsValue(d) as int)
  {
    var s := "-" + d;
    assert s[|s| - 1] == d[|d| - 1];
    DigitNotSpace(d[|d| - 1]);
    GroupedFromMinus(d);
  }

  lemma DigitNotSpace(c: char)
    requires IsDigit(c)
    ensures !IsSpace(c)
  {
  }

  lemma GroupedFromMinus(d: string)
    requires d != [] && AllDigits(d)
    ensures GroupedFrom("-" + d, 1) == Some(DigitsValue(d) as int)
  {
    GroupedFromCons('-', d);
    GroupedFromDigits(d);
  }

  lemma ParseIntOfNegative(m: nat)
    requires m > 0
    ensures ParseInt("-" + NatToString(m)) == Some(-(m as int))
  {
    DigitsValueOfNatToString(m);
    ParseIntOfMinusValue(NatToString(m), m);
  }

  lemma ParseIntOfMinusValue(d: string, m: nat)
    requires d != [] && AllDigits(d) && DigitsValue(d) == m
    ensures ParseInt("-" + d) == Some(-(m as int))
  {
    ParseIntOfMinusDigits(d);
  }

  /** Parsing the decimal rendering of an integer gives the integer back. */
  lemma ParseIntOfIntToString(i: int)
    ensures ParseInt(IntToString(i)) == Some(i)
  {
    if i < 0 {
      ParseIntOfNegativeInt(i);
    } else {
      ParseIntOfNatInt(i);
    }
  }

  lemma ParseIntOfNegativeInt(i: int)
    requires i < 0
    ensures ParseInt(IntToString(i)) == Some(i)
  {
    ParseIntOfNegative(-i);
  }

  lemma ParseIntOfNatInt(i: int)
    requires i >= 0
    ensures ParseInt(IntToString(i)) == Some(i)
  {
    ParseIntOfNatToString(i);
  }

  // ----- the order of `sorted` on strings (code-point lexicographic) -----

  predicate Le(a: string, b: string)
    decreases |a|
  {
    a == [] || (b != [] && (a[0] < b[0] || (a[0] == b[0] && Le(a[1..], b[1..]))))
  }

  lemma {:induction false} LeReflexive(a: string)
    ensures Le(a, a)
    decreases |a|
  {
    if a != [] {
      LeReflexive(a[1..]);
    }
  }

  lemma {:induction false} LeTotal(a: string, b: string)
    ensures Le(a, b) || Le(b, a)
    decreases |a|
  {
    if a != [] && b != [] && a[0] == b[0] {
      LeTotal(a[1..], b[1..]);
    }
  }

  lemma {:induction false} LeAntisymmetric(a: string, b: string)
    requires Le(a, b) && Le(b, a)
    ensures a == b
    decreases |a|
  {
    if a != [] {
      LeAntisymmetric(a[1..], b[1..]);
      assert a == [a[0]] + a[1..] && b == [b[0]] + b[1..];
    }
  }

  lemma {:induction false} LeTransitive(a: string, b: string, c: string)
    requires Le(a, b) && Le(b, c)
    ensures Le(a, c)
    decreases |a|
  {
    if a != [] && a[0] == b[0] && b[0] == c[0] {
      LeTransitive(a[1..], b[1..], c[1..]);
    }
  }

  predicate SortedStrings(s: seq<string>) {
    forall i, j :: 0 <= i < j < |s| ==> Le(s[i], s[j])
  }

  function InsertSorted(x: string, s: seq<string>): seq<string> {
    if s == [] then [x]
    else if Le(x, s[0]) then [x] + s
    else [s[0]] + InsertSorted(x, s[1..])
  }

  /** `sorted(s)` */
  function SortStrings(s: seq<string>): seq<string> {
    if s == [] then [] else InsertSorted(s[0], SortStrings(s[1..]))
  }

  /** `lo` is at most every element of `s`. */
  predicate Below(lo: string, s: seq<string>) {
    forall k :: 0 <= k < |s| ==> Le(lo, s[k])
  }

  lemma SortedCons(h: string, t: seq<string>)
    requires Below(h, t) && SortedStrings(t)
    ensures SortedStrings([h] + t)
  {
    var r := [h] + t;
    forall i, j | 0 <= i < j < |r| ensures Le(r[i], r[j]) {
      assert r[j] == t[j - 1];
      if i > 0 {
        assert r[i] == t[i - 1];
      }
    }
  }

  lemma SortedTail(s: seq<string>)
    requires s != [] && SortedStrings(s)
    ensures Below(s[0], s[1..]) && SortedStrings(s[1..])
  {
    forall i, j | 0 <= i < j < |s[1..]| ensures Le(s[1..][i], s[1..][j]) {
      assert s[1..][i] == s[i + 1] && s[1..][j] == s[j + 1];
    }
  }

  lemma {:induction false} InsertSortedPerm(x: string, s: seq<string>)
    ensures multiset(InsertSorted(x, s)) == multiset(s) + multiset{x}
  {
    if s != [] && !Le(x, s[0]) {
      InsertSortedPerm(x, s[1..]);
      assert s == [s[0]] + s[1..];
    }
  }

  lemma {:induction false} InsertSortedBelow(lo: string, x: string, s: seq<string>)
    requires Below(lo, s) && Le(lo, x)
    ensures Below(lo, InsertSorted(x, s))
  {
    if s != [] && !Le(x, s[0]) {
      InsertSortedBelow(lo, x, s[1..]);
      var t := InsertSorted(x, s[1..]);
      assert forall k :: 0 < k < |t| + 1 ==> ([s[0]] + t)[k] == t[k - 1];
    }
  }

  lemma {:induction false} InsertSortedCorrect(x: string, s: seq<string>)
    requires SortedStrings(s)
    ensures SortedStrings(InsertSorted(x, s))
    ensures multiset(InsertSorted(x, s)) == multiset(s) + multiset{x}
  {
    InsertSortedPerm(x, s);
    if s == [] {
    } else if Le(x, s[0]) {
      SortedTail(s);
      forall k | 0 <= k < |s| ensures Le(x, s[k]) {
        if k > 0 {
          LeTransitive(x, s[0], s[k]);
        }
      }
      SortedCons(x, s);
    } else {
      LeTotal(x, s[0]);
      SortedTail(s);
      InsertSortedCorrect(x, s[1..]);
      InsertSortedBelow(s[0], x, s[1..]);
      SortedCons(s[0], InsertSorted(x, s[1..]));
    }
  }

  /** `sorted` returns an ascending permutation of its argument. */
  lemma {:induction false} SortStringsCorrect(s: seq<string>)
    ensures SortedStrings(SortStrings(s))
    ensures multiset(SortStrings(s)) == multiset(s)
  {
    if s != [] {
      SortStringsCorrect(s[1..]);
      InsertSortedCorrect(s[0], SortStrings(s[1..]));
      assert s == [s[0]] + s[1..];
    }
  }

  /** The head of an ascending sequence is at most each of its elements. */
  lemma SortedHeadLe(a: seq<string>, x: string)
    requires SortedStrings(a) && x in multiset(a)
    ensures Le(a[0], x)
  {
    var i :| 0 <= i < |a| && a[i] == x;
    if i == 0 {
      LeReflexive(x);
    }
  }

  /** Removing equal heads from two sequences with the same elements leaves tails with the same elements. */
  lemma MultisetTails(a: seq<string>, b: seq<string>)
    requires a != [] && b != [] && a[0] == b[0] && multiset(a) == multiset(b)
    ensures multiset(a[1..]) == multiset(b[1..])
  {
    assert a == [a[0]] + a[1..] && b == [b[0]] + b[1..];
    assert multiset(a) == multiset{a[0]} + multiset(a[1..]);
    assert multiset(b) == multiset{b[0]} + multiset(b[1..]);
    assert multiset(a[1..]) == multiset(a) - multiset{a[0]};
  }

  /** There is only one ascending arrangement of a multiset of strings. */
  lemma {:induction false} SortedUnique(a: seq<string>, b: seq<string>)
    requires SortedStrings(a) && SortedStrings(b)
    requires multiset(a) == multiset(b)
    ensures a == b
  {
    if a == [] {
      assert |b| == |multiset(b)|;
    } else {
      assert |b| == |multiset(b)| == |a|;
      assert a[0] in multiset(a) && b[0] in multiset(b);
      SortedHeadLe(b, a[0]);
      SortedHeadLe(a, b[0]);
      LeAntisymmetric(a[0], b[0]);
      MultisetTails(a, b);
      SortedTail(a);
      SortedTail(b);
      SortedUnique(a[1..], b[1..]);
      assert a == [a[0]] + a[1..] && b == [b[0]] + b[1..];
    }
  }

  /** `sorted` does not depend on the order of its input. */
  lemma SortStringsOrderFree(a: seq<string>, b: seq<string>)
    requires multiset(a) == multiset(b)
    ensures SortStrings(a) == SortStrings(b)
  {
    SortStringsCorrect(a);
    SortStringsCorrect(b);
    SortedUnique(SortStrings(a), SortStrings(b));
  }

  // ----- character positions -----

  /** Position of the first occurrence of `c` in `s`, or `|s|`. */
  function IndexOf(s: string, c: char): (k: nat)
    ensures k <= |s| && c !in s[..k]
    ensures k < |s| ==> s[k] == c
  {
    if s == [] then 0
    else if s[0] == c then 0
    else
      var k := 1 + IndexOf(s[1..], c);
      assert s[..k] == [s[0]] + s[1..][..k - 1];
      k
  }

  /** Position of the last occurrence of `c` in `s`, or `|s|` when there is none. */
  function LastIndexOf(s: string, c: char): (k: nat)
    ensures k <= |s|
    ensures k < |s| ==> s[k] == c && c !in s[k + 1..]
    ensures k == |s| ==> c !in s
  {
    if s == [] then 0
    else if s[|s| - 1] == c then |s| - 1
    else
      var k := LastIndexOf(s[..|s| - 1], c);
      if k == |s| - 1 then
        assert s == s[..|s| - 1] + [s[|s| - 1]];
        |s|
      else
        assert s[k + 1..] == s[..|s| - 1][k + 1..] + [s[|s| - 1]];
        k
  }

  /** The first `c` in `p + [c] + rest` is the one after `p` when `p` has none. */
  lemma IndexOfAt(s: string, c: char, p: string)
    requires |p| < |s| && s[..|p|] == p && s[|p|] == c && c !in p
    ensures IndexOf(s, c) == |p|
  {
    var k := IndexOf(s, c);
    assert k >= |p|;
    assert s[..k + 1][|p|] == c;
  }

  /** The last `c` in `p + [c] + rest` is the one after `p` when `rest` has none. */
  lemma LastIndexOfAt(s: string, c: char, p: string, rest: string)
    requires s == p + [c] + rest && c !in rest
    ensures LastIndexOf(s, c) == |p|
  {
    var k := LastIndexOf(s, c);
    assert k <= |p|;
    assert s[|p|] == c;
  }

  /** The first occurrence is at or before any occurrence. */
  lemma {:induction false} IndexOfAtMost(s: string, c: char, a: nat)
    requires a < |s| && s[a] == c
    ensures IndexOf(s, c) <= a
  {
    if s[0] != c {
      IndexOfAtMost(s[1..], c, a - 1);
    }
  }

  /** The last occurrence is at or after any occurrence. */
  lemma {:induction false} LastIndexOfAtLeast(s: string, c: char, b: nat)
    requires b < |s| && s[b] == c
    ensures b <= LastIndexOf(s, c) < |s|
  {
    if s[|s| - 1] != c {
      LastIndexOfAtLeast(s[..|s| - 1], c, b);
    }
  }
}
