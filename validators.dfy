// Field validators and the sanitiser applied to COA field values
// (lot numbers, storage conditions, manufacturer names, PDF file names).
module Validators {
  import opened Wrappers
  import opened Text

  /** `(True, None)` or `(False, message)`. */
  datatype Verdict = Valid | Invalid(message: string)

  // ----- lot numbers -----

  predicate IsLotChar(c: char) {
    ('A' <= c <= 'Z') || ('0' <= c <= '9') || c == '-'
  }

  predicate AllLotChars(s: string) {
    forall i :: 0 <= i < |s| ==> IsLotChar(s[i])
  }

  /**
   * `re.match(r'^[A-Z0-9\-]+$', u)`: one or more allowed characters up to the
   * end, where `$` also matches just before a final newline.
   */
  predicate MatchesLotPattern(u: string) {
    (u != [] && AllLotChars(u))
    || (|u| >= 2 && u[|u| - 1] == '\n' && AllLotChars(u[..|u| - 1]))
  }

  function ValidateLotNumber(lot: string): (v: Verdict)
    ensures v == Valid <==> lot != [] && MatchesLotPattern(Upper(lot)) && 3 <= |lot| <= 50
    ensures v.Invalid? && lot == [] ==> v.message == "Lot number cannot be empty"
  {
    if lot == [] then Invalid("Lot number cannot be empty")
    else if !MatchesLotPattern(Upper(lot)) then Invalid("Lot number must contain only letters, numbers, and hyphens")
    else if |lot| < 3 then Invalid("Lot number must be at least 3 characters long")
    else if |lot| > 50 then Invalid("Lot number cannot exceed 50 characters")
    else Valid
  }

  /** The `$` anchor lets one trailing newline through. */
  lemma LotNumberTrailingNewlineAccepted()
    ensures ValidateLotNumber("ab1\n") == Valid
  {
    var u := Upper("ab1\n");
    assert u == "AB1\n";
    assert u[..3] == "AB1";
  }

  // ----- storage conditions -----

  predicate IsDash(c: char) {
    c == '-' || c == '\U{2013}'
  }

  /** Length of the leading run of ASCII digits (`\d+`). */
  function DigitRun(s: string): (n: nat)
    ensures n <= |s| && forall i :: 0 <= i < n ==> IsDigit(s[i])
    ensures n == |s| || !IsDigit(s[n])
  {
    if s != [] && IsDigit(s[0]) then 1 + DigitRun(s[1..]) else 0
  }

  /** `[CF]` under `re.IGNORECASE`. */
  predicate IsUnitChar(c: char) {
    c == 'C' || c == 'F' || c == 'c' || c == 'f'
  }

  /** Full match of `\s*\d+\s*°?[CF]` (case-insensitive). */
  predicate TemperatureTail(t: string) {
    var a := LStrip(t);
    var n := DigitRun(a);
    n > 0 &&
    var b := LStrip(a[n..]);
    var c := if b != [] && b[0] == '\U{B0}' then b[1..] else b;
    |c| == 1 && IsUnitChar(c[0])
  }

  /** Full match of `\d+\s*[-–]\s*\d+\s*°?[CF]`. */
  predicate RangePattern(t: string) {
    var n := DigitRun(t);
    n > 0 &&
    var b := LStrip(t[n..]);
    b != [] && IsDash(b[0]) && TemperatureTail(b[1..])
  }

  /** Full match of `(?:≤|<=|NMT)\s*\d+\s*°?[CF]`. */
  predicate UpperBoundPattern(t: string) {
    (StartsWith(t, "\U{2264}") && TemperatureTail(t[1..]))
    || (StartsWith(t, "<=") && TemperatureTail(t[2..]))
    || (|t| >= 3 && Lower(t[..3]) == "nmt" && TemperatureTail(t[3..]))
  }

  /** Full match of `(?:≥|>=)\s*\d+\s*°?[CF]`. */
  predicate LowerBoundPattern(t: string) {
    (StartsWith(t, "\U{2265}") && TemperatureTail(t[1..]))
    || (StartsWith(t, ">=") && TemperatureTail(t[2..]))
  }

  /** Full match of `room\s*temperature`. */
  predicate RoomTemperaturePattern(t: string) {
    |t| >= 4 && Lower(t[..4]) == "room" && Lower(LStrip(t[4..])) == "temperature"
  }

  /** Some substring `c[i..j]` matches one of the anchored temperature patterns. */
  predicate TemperatureMatchAt(c: string, i: int, j: int) {
    0 <= i <= j <= |c| &&
    var t := c[i..j];
    RangePattern(t) || UpperBoundPattern(t) || LowerBoundPattern(t) || RoomTemperaturePattern(t)
  }

  /** `any(re.search(p, condition, re.IGNORECASE) for p in temp_patterns)` */
  predicate HasTemperature(c: string) {
    (exists i, j :: 0 <= i <= j <= |c| && TemperatureMatchAt(c, i, j))
    || Contains(Lower(c), "ambient") || Contains(Lower(c), "frozen") || Contains(Lower(c), "refrigerat")
  }

  function ValidateStorageCondition(c: string): (v: Verdict)
    ensures v == Valid <==> c != [] && (|c| >= 5 || HasTemperature(c))
  {
    if c == [] then Invalid("Storage condition cannot be empty")
    else if !HasTemperature(c) && |c| < 5 then Invalid("Storage condition seems too short or invalid")
    else Valid
  }

  lemma DigitUnitTail(t: string)
    requires |t| == 2 && IsDigit(t[0]) && IsUnitChar(t[1])
    ensures TemperatureTail(t)
  {
    var u := t[1..];
    assert u[0] == t[1];
    assert !IsSpace(t[0]) && !IsSpace(u[0]) && !IsDigit(u[0]) && u[0] != '\U{B0}';
    assert LStrip(t) == t;
    assert DigitRun(u) == 0;
    assert DigitRun(t) == 1;
    assert LStrip(u) == u;
  }

  lemma DigitDashDigitUnit(c: string)
    requires |c| == 4 && IsDigit(c[0]) && IsDash(c[1]) && IsDigit(c[2]) && IsUnitChar(c[3])
    ensures RangePattern(c)
  {
    assert DigitRun(c[1..]) == 0;
    assert DigitRun(c) == 1;
    assert LStrip(c[1..]) == c[1..];
    assert c[1..][1..] == c[2..];
    DigitUnitTail(c[2..]);
  }

  /** A four-character range such as `2-8C` is accepted because it names a temperature. */
  lemma ShortRangeAccepted()
    ensures ValidateStorageCondition("2-8C") == Valid
  {
    var c := "2-8C";
    DigitDashDigitUnit(c);
    WholeMatch(c);
  }

  lemma WholeMatch(c: string)
    requires RangePattern(c)
    ensures HasTemperature(c)
  {
    assert c[0..|c|] == c;
    assert TemperatureMatchAt(c, 0, |c|);
  }

  predicate PlainStart(t: string) {
    t == [] || ('a' <= t[0] <= 'z' && t[0] != 'n' && t[0] != 'r')
  }

  lemma NoRangeAt(t: string)
    requires PlainStart(t)
    ensures !RangePattern(t)
  {
    if t != [] { assert !IsDigit(t[0]); }
  }

  lemma NoUpperBoundAt(t: string)
    requires PlainStart(t)
    ensures !UpperBoundPattern(t)
  {
    if t != [] {
      assert !StartsWith(t, "\U{2264}") by { assert t[..1][0] == t[0]; }
    }
    if |t| >= 2 {
      assert !StartsWith(t, "<=") by { assert t[..2][0] == t[0]; }
    }
    if |t| >= 3 {
      assert Lower(t[..3])[0] == LowerChar(t[0]) == t[0];
    }
  }

  lemma NoLowerBoundAt(t: string)
    requires PlainStart(t)
    ensures !LowerBoundPattern(t)
  {
    if t != [] {
      assert !StartsWith(t, "\U{2265}") by { assert t[..1][0] == t[0]; }
    }
    if |t| >= 2 {
      assert !StartsWith(t, ">=") by { assert t[..2][0] == t[0]; }
    }
  }

  lemma NoRoomAt(t: string)
    requires PlainStart(t)
    ensures !RoomTemperaturePattern(t)
  {
    if |t| >= 4 {
      assert Lower(t[..4])[0] == LowerChar(t[0]) == t[0];
    }
  }

  /** A piece starting with a lower-case letter other than `n` and `r` matches no pattern. */
  lemma NoPatternAt(t: string)
    requires PlainStart(t)
    ensures !RangePattern(t) && !UpperBoundPattern(t) && !LowerBoundPattern(t) && !RoomTemperaturePattern(t)
  {
    NoRangeAt(t);
    NoUpperBoundAt(t);
    NoLowerBoundAt(t);
    NoRoomAt(t);
  }

  lemma NoTemperatureMatch(c: string)
    requires forall k :: 0 <= k < |c| ==> 'a' <= c[k] <= 'z' && c[k] != 'n' && c[k] != 'r'
    ensures forall i, j :: 0 <= i <= j <= |c| ==> !TemperatureMatchAt(c, i, j)
  {
    forall i, j | 0 <= i <= j <= |c| ensures !TemperatureMatchAt(c, i, j) {
      var t := c[i..j];
      if t != [] { assert t[0] == c[i]; }
      NoPatternAt(t);
    }
  }

  /** A short text without a temperature is refused. */
  lemma ShortTextRefused()
    ensures ValidateStorageCondition("cold") == Invalid("Storage condition seems too short or invalid")
  {
    var c := "cold";
    NoTemperatureMatch(c);
    assert |Lower(c)| == 4;
  }

  // ----- manufacturer names -----

  function ValidateManufacturer(m: string): (v: Verdict)
    ensures v == Valid <==> 3 <= |Collapse(m)| <= 200
  {
    if m == [] then Invalid("Manufacturer name cannot be empty")
    else
      var name := Collapse(m);
      if |name| < 3 then Invalid("Manufacturer name is too short")
      else if |name| > 200 then Invalid("Manufacturer name is too long")
      else Valid
  }

  // ----- sanitising -----

  /**
   * `re.sub(r'\s*[-–]\s*', '-', s)`: scanning left to right, whitespace that
   * leads up to a dash, the dash, and the whitespace after it become one `-`.
   */
  function SubDash(s: string): string
    decreases |s|
  {
    if s == [] then []
    else
      var t := LStrip(s);
      if t != [] && IsDash(t[0]) then "-" + SubDash(LStrip(t[1..]))
      else [s[0]] + SubDash(s[1..])
  }

  function StandardizeDegrees(s: string): string {
    ReplaceChar(ReplaceChar(s, '\U{2103}', "\U{B0}C"), '\U{2109}', "\U{B0}F")
  }

  /** `sanitize_field_value(value, field_type)`; `None` stands for a missing value. */
  function SanitizeFieldValue(value: Option<string>, fieldType: string): (r: string)
    ensures value == None || value == Some("") ==> r == ""
  {
    if value == None || value.value == [] then ""
    else
      var v := Collapse(Strip(value.value));
      if fieldType == "lot_number" then Upper(v)
      else if fieldType == "storage_condition" then SubDash(StandardizeDegrees(v))
      else v
  }

  // ----- shape of sanitised values -----

  /** Every whitespace character is a plain space. */
  predicate SpacesPlain(s: string) {
    forall i :: 0 <= i < |s| && IsSpace(s[i]) ==> s[i] == ' '
  }

  predicate NoSpaceRuns(s: string) {
    forall i :: 0 <= i < |s| - 1 ==> !(IsSpace(s[i]) && IsSpace(s[i + 1]))
  }

  /** Collapsed except perhaps for whitespace at the front: closed under taking suffixes. */
  predicate CollapsedTail(s: string) {
    SpacesPlain(s) && NoSpaceRuns(s) && (s == [] || !IsSpace(s[|s| - 1]))
  }

  /** No en dash, and no whitespace on either side of a dash. */
  predicate DashTight(s: string) {
    (forall i :: 0 <= i < |s| ==> s[i] != '\U{2013}')
    && (forall i :: 0 <= i < |s| - 1 ==> !(IsSpace(s[i]) && IsDash(s[i + 1])) && !(IsDash(s[i]) && IsSpace(s[i + 1])))
  }

  lemma CanonicalIsCollapsedTail(s: string)
    ensures Canonical(s) <==> CollapsedTail(s) && (s == [] || !IsSpace(s[0]))
  {
  }

  /** A non-empty run of non-whitespace put in front keeps the tail collapsed. */
  lemma CollapsedTailPrefix(h: string, t: string)
    requires h != [] && forall i :: 0 <= i < |h| ==> !IsSpace(h[i])
    requires CollapsedTail(t)
    ensures CollapsedTail(h + t)
  {
    var u := h + t;
    forall i | 0 <= i < |u| - 1 ensures !(IsSpace(u[i]) && IsSpace(u[i + 1])) {
      if i < |h| { assert u[i] == h[i]; } else { assert u[i] == t[i - |h|] && u[i + 1] == t[i + 1 - |h|]; }
    }
  }

  lemma CollapsedTailSpace(t: string)
    requires CollapsedTail(t) && t != [] && !IsSpace(t[0])
    ensures CollapsedTail(" " + t)
  {
    var u := " " + t;
    forall i | 0 <= i < |u| - 1 ensures !(IsSpace(u[i]) && IsSpace(u[i + 1])) {
      if i > 0 { assert u[i] == t[i - 1] && u[i + 1] == t[i]; }
    }
  }

  /** Replacing a non-whitespace character by a non-empty run of non-whitespace keeps the shape. */
  lemma {:induction false} ReplaceCharCollapsed(s: string, c: char, rep: string)
    requires !IsSpace(c) && rep != [] && forall i :: 0 <= i < |rep| ==> !IsSpace(rep[i])
    requires CollapsedTail(s)
    ensures CollapsedTail(ReplaceChar(s, c, rep))
    ensures s != [] && !IsSpace(s[0]) ==> ReplaceChar(s, c, rep) != [] && !IsSpace(ReplaceChar(s, c, rep)[0])
  {
    if s != [] {
      var t := ReplaceChar(s[1..], c, rep);
      ReplaceCharCollapsed(s[1..], c, rep);
      if s[0] == c {
        CollapsedTailPrefix(rep, t);
      } else if IsSpace(s[0]) {
        assert s[1] == s[1..][0];
        CollapsedTailSpace(t);
      } else {
        CollapsedTailPrefix([s[0]], t);
      }
    }
  }

  lemma {:induction false} ReplaceCharAbsent(s: string, c: char, rep: string, d: char)
    requires d !in s && d !in rep
    ensures d !in ReplaceChar(s, c, rep)
  {
    if s != [] {
      assert d !in s[1..];
      ReplaceCharAbsent(s[1..], c, rep, d);
    }
  }

  lemma StandardizeDegreesShape(s: string)
    requires Canonical(s)
    ensures var r := StandardizeDegrees(s);
      Canonical(r) && '\U{2103}' !in r && '\U{2109}' !in r
  {
    var r1 := ReplaceChar(s, '\U{2103}', "\U{B0}C");
    ReplaceCharCollapsed(s, '\U{2103}', "\U{B0}C");
    ReplaceCharCollapsed(r1, '\U{2109}', "\U{B0}F");
    ReplaceCharAbsent(r1, '\U{2109}', "\U{B0}F", '\U{2103}');
  }

  /** Text with no degree signs to standardise is left alone. */
  lemma StandardizeDegreesUnchanged(s: string)
    requires '\U{2103}' !in s && '\U{2109}' !in s
    ensures StandardizeDegrees(s) == s
  {
  }

  /** The first character `SubDash` emits. */
  lemma SubDashHead(s: string)
    requires s != []
    ensures SubDash(s) != []
    ensures var t := LStrip(s);
      SubDash(s)[0] == if t != [] && IsDash(t[0]) then '-' else s[0]
  {
  }

  lemma {:induction false} SubDashEmpty(s: string)
    ensures SubDash(s) == [] <==> s == []
  {
    if s != [] { SubDashHead(s); }
  }

  lemma {:induction false} SubDashAbsent(s: string, d: char)
    requires d !in s && d != '-'
    ensures d !in SubDash(s)
    decreases |s|
  {
    if s != [] {
      var t := LStrip(s);
      if t != [] && IsDash(t[0]) {
        var u := LStrip(t[1..]);
        LStripAbsent(s, d);
        assert d !in t[1..];
        LStripAbsent(t[1..], d);
        SubDashAbsent(u, d);
      } else {
        assert d !in s[1..];
        SubDashAbsent(s[1..], d);
      }
    }
  }

  /** The shape `SubDashShape` establishes for the output `o` of input `s`. */
  predicate SubDashOutputShape(s: string, o: string) {
    CollapsedTail(o) && DashTight(o) && (o == [] <==> s == [])
    && (s != [] ==> o[0] == '-' || o[0] == s[0])
  }

  lemma CollapsedTailSuffix(s: string, k: nat)
    requires CollapsedTail(s) && k <= |s|
    ensures CollapsedTail(s[k..])
  {
    var u := s[k..];
    forall i | 0 <= i < |u| ensures u[i] == s[k + i] { }
  }

  /** What follows an optionally indented dash and the whitespace after it is still a collapsed tail. */
  lemma CollapsedTailAfterDash(s: string)
    requires CollapsedTail(s) && LStrip(s) != []
    ensures CollapsedTail(LStrip(LStrip(s)[1..]))
  {
    var t := LStrip(s);
    CollapsedTailSuffix(s, |s| - |t|);
    CollapsedTailSuffix(t, 1);
    var u := LStrip(t[1..]);
    CollapsedTailSuffix(t[1..], |t[1..]| - |u|);
  }

  /** On a collapsed tail, the output is collapsed, dash-tight, and starts like the input. */
  lemma {:induction false} SubDashShape(s: string)
    requires CollapsedTail(s)
    ensures SubDashOutputShape(s, SubDash(s))
    decreases |s|
  {
    if s != [] {
      var t := LStrip(s);
      if t != [] && IsDash(t[0]) {
        var u := LStrip(t[1..]);
        CollapsedTailAfterDash(s);
        SubDashShape(u);
        SubDashShapeDash(s);
      } else {
        CollapsedTailSuffix(s, 1);
        SubDashShape(s[1..]);
        SubDashShapeKeep(s);
      }
    }
  }

  /** The step of `SubDashShape` where a dash and the whitespace around it become `-`. */
  lemma SubDashShapeDash(s: string)
    requires s != [] && LStrip(s) != [] && IsDash(LStrip(s)[0])
    requires var u := LStrip(LStrip(s)[1..]); SubDashOutputShape(u, SubDash(u))
    ensures SubDashOutputShape(s, SubDash(s))
  {
    var u := LStrip(LStrip(s)[1..]);
    SubDashAtDash(s);
    ShapeDashStep(s, u, SubDash(u));
  }

  /** Unfolding `SubDash` where the input starts with an optionally indented dash. */
  lemma SubDashAtDash(s: string)
    requires s != [] && LStrip(s) != [] && IsDash(LStrip(s)[0])
    ensures SubDash(s) == ['-'] + SubDash(LStrip(LStrip(s)[1..]))
  {
  }

  /** The step of `SubDashShape` where a dash and the whitespace around it become `-`. */
  lemma ShapeDashStep(s: string, u: string, ou: string)
    requires s != [] && (u == [] || !IsSpace(u[0]))
    requires SubDashOutputShape(u, ou)
    ensures SubDashOutputShape(s, ['-'] + ou)
  {
    ShapeCons('-', ou);
  }

  /** The step of `SubDashShape` where the first character is kept. */
  lemma SubDashShapeKeep(s: string)
    requires s != [] && CollapsedTail(s)
    requires var t := LStrip(s); !(t != [] && IsDash(t[0]))
    requires SubDashOutputShape(s[1..], SubDash(s[1..]))
    ensures SubDashOutputShape(s, SubDash(s))
  {
    var rest := s[1..];
    var orest := SubDash(rest);
    assert SubDash(s) == [s[0]] + orest;
    SubDashHead(s);
    if IsSpace(s[0]) {
      assert rest != [] && !IsSpace(rest[0]) by { assert rest[0] == s[1]; }
      SubDashHead(rest);
      assert LStrip(rest) == rest == LStrip(s);
    } else {
      assert LStrip(s) == s;
      assert !IsDash(s[0]);
      if rest != [] { SubDashHead(rest); }
    }
    ShapeCons(s[0], orest);
  }

  /** The shape of `[x] + o` from the shape of `o` and the pair at the seam. */
  lemma ShapeCons(x: char, o: string)
    requires CollapsedTail(o) && DashTight(o) && x != '\U{2013}' && (IsSpace(x) ==> x == ' ')
    requires o == [] ==> !IsSpace(x)
    requires o != [] ==> !(IsSpace(x) && IsSpace(o[0])) && !(IsSpace(x) && IsDash(o[0])) && !(IsDash(x) && IsSpace(o[0]))
    ensures CollapsedTail([x] + o) && DashTight([x] + o)
  {
    ShapeConsCollapsed(x, o);
    ShapeConsDashTight(x, o);
  }

  lemma ShapeConsCollapsed(x: char, o: string)
    requires CollapsedTail(o) && (IsSpace(x) ==> x == ' ')
    requires o == [] ==> !IsSpace(x)
    requires o != [] ==> !(IsSpace(x) && IsSpace(o[0]))
    ensures CollapsedTail([x] + o)
  {
    var u := [x] + o;
    forall i | 0 < i < |u| ensures u[i] == o[i - 1] { }
  }

  lemma ShapeConsDashTight(x: char, o: string)
    requires DashTight(o) && x != '\U{2013}'
    requires o != [] ==> !(IsSpace(x) && IsDash(o[0])) && !(IsDash(x) && IsSpace(o[0]))
    ensures DashTight([x] + o)
  {
    var u := [x] + o;
    forall i | 0 < i < |u| ensures u[i] == o[i - 1] { }
  }


  /** One step of `SubDashFixpoint`: the first character of dash-tight text is kept. */
  lemma SubDashFixpointStep(s: string)
    requires DashTight(s) && s != [] && SubDash(s[1..]) == s[1..]
    ensures SubDash(s) == s
  {
    if LStrip(s) != [] && IsDash(LStrip(s)[0]) {
      SubDashFixpointDash(s);
    } else {
      SubDashKeep(s);
      assert s == [s[0]] + s[1..];
    }
  }

  lemma SubDashFixpointDash(s: string)
    requires DashTight(s) && s != [] && SubDash(s[1..]) == s[1..]
    requires LStrip(s) != [] && IsDash(LStrip(s)[0])
    ensures SubDash(s) == s
  {
    DashTightDashStep(s);
    SubDashAtDash(s);
    assert s == [s[0]] + s[1..];
  }

  /** Dash-tight text is a fixpoint of the dash rewrite. */
  lemma {:induction false} SubDashFixpoint(s: string)
    requires DashTight(s)
    ensures SubDash(s) == s
    decreases |s|
  {
    if s != [] {
      var rest := s[1..];
      assert DashTight(rest) by {
        forall i | 0 <= i < |rest| ensures rest[i] == s[i + 1] { }
      }
      SubDashFixpoint(rest);
      SubDashFixpointStep(s);
    }
  }

  /** In dash-tight text a dash is never preceded by whitespace, and never followed by it. */
  lemma DashTightDashStep(s: string)
    requires DashTight(s) && LStrip(s) != [] && IsDash(LStrip(s)[0])
    ensures s[0] == '-' && LStrip(LStrip(s)[1..]) == s[1..]
  {
    var t := LStrip(s);
    var k := |s| - |t|;
    assert s[k] == t[0];
    assert k == 0 by {
      if k > 0 {
        DashTightAt(s, k - 1);
        assert false;
      }
    }
    if |s| > 1 { assert !IsSpace(s[1..][0]); }
  }

  /** One instance of `DashTight`, stated without a precondition. */
  lemma DashTightAt(s: string, i: int)
    ensures DashTight(s) && 0 <= i < |s| - 1 ==> !(IsSpace(s[i]) && IsDash(s[i + 1]))
  {
  }

  /** Unfolding `SubDash` where the first character is kept. */
  lemma SubDashKeep(s: string)
    requires s != [] && !(LStrip(s) != [] && IsDash(LStrip(s)[0]))
    ensures SubDash(s) == [s[0]] + SubDash(s[1..])
  {
  }

  /** `sanitize_field_value` yields collapsed text: no whitespace at the ends, single spaces inside. */
  lemma SanitizeCanonical(value: Option<string>, fieldType: string)
    ensures Canonical(SanitizeFieldValue(value, fieldType))
  {
    if value != None && value.value != [] {
      var v := Collapse(Strip(value.value));
      WordsAreWords(Strip(value.value));
      CanonicalOfJoinWords(Words(Strip(value.value)));
      if fieldType == "lot_number" {
        CollapseUpperCollapse(Strip(value.value));
        WordsAreWords(Upper(v));
        CanonicalOfJoinWords(Words(Upper(v)));
      } else if fieldType == "storage_condition" {
        StandardizeDegreesShape(v);
        var d := StandardizeDegrees(v);
        SubDashShape(d);
      }
    }
  }

  /** A sanitised lot number holds no lower-case letter. */
  lemma SanitizeLotUpper(value: Option<string>)
    ensures var r := SanitizeFieldValue(value, "lot_number");
      forall i :: 0 <= i < |r| ==> !('a' <= r[i] <= 'z')
  {
  }

  /**
   * A sanitised storage condition writes degrees as `°C`/`°F`, has only `-` as a
   * dash, and no whitespace on either side of one.
   */
  lemma SanitizeStorageShape(value: Option<string>)
    ensures var r := SanitizeFieldValue(value, "storage_condition");
      DashTight(r) && '\U{2103}' !in r && '\U{2109}' !in r
  {
    if value != None && value.value != [] {
      var v := Collapse(Strip(value.value));
      WordsAreWords(Strip(value.value));
      CanonicalOfJoinWords(Words(Strip(value.value)));
      StandardizeDegreesShape(v);
      var d := StandardizeDegrees(v);
      SubDashShape(d);
      SubDashAbsent(d, '\U{2103}');
      SubDashAbsent(d, '\U{2109}');
    }
  }

  lemma UpperIdempotent(s: string)
    ensures Upper(Upper(s)) == Upper(s)
  {
  }

  /** Sanitising a sanitised value changes nothing, for every field type. */
  lemma SanitizeIdempotent(value: Option<string>, fieldType: string)
    ensures var r := SanitizeFieldValue(value, fieldType);
      SanitizeFieldValue(Some(r), fieldType) == r
  {
    var r := SanitizeFieldValue(value, fieldType);
    SanitizeCanonical(value, fieldType);
    if r != [] {
      CanonicalCollapse(r);
      if fieldType == "lot_number" {
        UpperIdempotent(Collapse(Strip(value.value)));
      } else if fieldType == "storage_condition" {
        StorageSanitizeIdempotent(value.value);
      }
    }
  }

  /** The storage-condition case of `SanitizeIdempotent`. */
  lemma StorageSanitizeIdempotent(value: string)
    requires value != []
    ensures var r := SanitizeFieldValue(Some(value), "storage_condition");
      r != [] ==> SubDash(StandardizeDegrees(r)) == r
  {
    var r := SanitizeFieldValue(Some(value), "storage_condition");
    StorageSanitizedShape(value);
    StandardizeDegreesUnchanged(r);
    SubDashFixpoint(r);
  }

  /** A sanitised storage condition is dash-tight and holds no degree sign left to standardise. */
  lemma StorageSanitizedShape(value: string)
    requires value != []
    ensures var r := SanitizeFieldValue(Some(value), "storage_condition");
      DashTight(r) && '\U{2103}' !in r && '\U{2109}' !in r
  {
    var v := Collapse(Strip(value));
    WordsAreWords(Strip(value));
    CanonicalOfJoinWords(Words(Strip(value)));
    StandardizeDegreesShape(v);
    var d := StandardizeDegrees(v);
    SubDashShape(d);
    SubDashAbsent(d, '\U{2103}');
    SubDashAbsent(d, '\U{2109}');
  }



  // ----- PDF file names -----

  const InvalidFilenameChars: string := "<>:\"|?*"

  function ValidatePdfFilename(f: string): (v: Verdict)
    ensures v == Valid <==>
      f != [] && EndsWith(Lower(f), ".pdf") && (forall c :: c in InvalidFilenameChars ==> c !in f) && |f| <= 255
  {
    if f == [] then Invalid("Filename cannot be empty")
    else if !EndsWith(Lower(f), ".pdf") then Invalid("File must be a PDF")
    else if exists c :: c in InvalidFilenameChars && c in f then
      Invalid("Filename contains invalid characters: " + InvalidFilenameChars)
    else if |f| > 255 then Invalid("Filename is too long")
    else Valid
  }

  /** The suffix test ignores case: a clean stem with `.PDF` is a valid PDF name. */
  lemma UpperCaseSuffixAccepted(stem: string)
    requires forall c :: c in InvalidFilenameChars ==> c !in stem
    requires |stem| <= 251
    ensures ValidatePdfFilename(stem + ".PDF") == Valid
  {
    var f := stem + ".PDF";
    LowerAppend(stem, ".PDF");
    assert Lower(".PDF") == ".pdf" by {
      assert Lower(".PDF")[1] == 'p' && Lower(".PDF")[2] == 'd' && Lower(".PDF")[3] == 'f';
    }
    assert Lower(f)[|f| - 4..] == ".pdf";
    forall c | c in InvalidFilenameChars ensures c !in f {
      assert c !in ".PDF";
    }
  }
}
