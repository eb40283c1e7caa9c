// The upload store: the name a saved upload gets, the path it is written to,
// and deleting and inspecting stored files. The file system is a map from
// paths to nodes; the wall-clock reading and the random id are parameters.
module FileManager {
  import opened Wrappers
  import opened Models
  import opened Text
  import opened Streams

  // ----- os.path -----

  /** `s.rfind(c)`: the last position of `c`, or -1 when there is none. */
  function RFind(s: string, c: char): (k: int)
    ensures -1 <= k < |s|
    ensures k >= 0 ==> s[k] == c
    ensures forall i :: k < i < |s| ==> s[i] != c
  {
    if s == [] then -1
    else if s[|s| - 1] == c then |s| - 1
    else RFind(s[..|s| - 1], c)
  }

  /** `s.rfind(c)` is the position of a `c` with none after it. */
  lemma {:induction false} RFindAt(s: string, c: char, k: nat)
    requires k < |s| && s[k] == c && forall i :: k < i < |s| ==> s[i] != c
    ensures RFind(s, c) == k
    decreases |s|
  {
    if k < |s| - 1 {
      RFindAt(s[..|s| - 1], c, k);
    }
  }

  /** `c` does not occur in `s`. */
  predicate Free(s: string, c: char) {
    forall i :: 0 <= i < |s| ==> s[i] != c
  }

  lemma FreeConcat(a: string, b: string, c: char)
    requires Free(a, c) && Free(b, c)
    ensures Free(a + b, c)
  {
    assert forall i :: |a| <= i < |a + b| ==> (a + b)[i] == b[i - |a|];
  }

  predicate AllDots(s: string) {
    forall i :: 0 <= i < |s| ==> s[i] == '.'
  }

  /**
   * `os.path.splitext(p)[1]`: from the last dot of the final path component
   * to the end, unless only dots precede that dot within the component (a
   * leading dot does not start an extension).
   */
  function Extension(p: string): (e: string)
    ensures e == [] || (e[0] == '.' && forall i :: 0 < i < |e| ==> e[i] != '.')
    ensures Free(e, '/') && |e| <= |p|
  {
    var sep := RFind(p, '/');
    var dot := RFind(p, '.');
    if dot > sep && !AllDots(p[sep + 1..dot]) then
      SuffixFrom(p, sep, dot);
      p[dot..]
    else []
  }

  /** The extension is taken from the end of the path. */
  lemma ExtensionIsSuffix(p: string)
    ensures EndsWith(p, Extension(p))
  {
    var sep := RFind(p, '/');
    var dot := RFind(p, '.');
    if dot > sep && !AllDots(p[sep + 1..dot]) {
      DroppedIsSuffix(p, dot);
    } else {
      DroppedIsSuffix(p, |p|);
    }
  }

  lemma DroppedIsSuffix(p: string, k: nat)
    requires k <= |p|
    ensures EndsWith(p, p[k..])
  {
  }

  /** The suffix from the last dot, after the last slash, holds no further dot and no slash. */
  lemma SuffixFrom(p: string, sep: int, dot: int)
    requires -1 <= sep < dot < |p| && p[dot] == '.'
    requires forall i :: dot < i < |p| ==> p[i] != '.'
    requires forall i :: sep < i < |p| ==> p[i] != '/'
    ensures var e := p[dot..]; e[0] == '.' && (forall i :: 0 < i < |e| ==> e[i] != '.') && Free(e, '/')
  {
    var e := p[dot..];
    forall i | 0 < i < |e| ensures e[i] != '.' {
      assert e[i] == p[dot + i];
    }
    forall i | 0 <= i < |e| ensures e[i] != '/' {
      assert e[i] == p[dot + i];
    }
  }

  /** A name with a stem that is not only dots keeps the suffix after its last dot. */
  lemma ExtensionOfName(stem: string, ext: string)
    requires Free(stem, '/') && !AllDots(stem)
    requires Free(ext, '.') && Free(ext, '/')
    ensures Extension(stem + "." + ext) == "." + ext
  {
    var p := stem + "." + ext;
    FreeConcat(stem, ".", '/');
    FreeConcat(stem + ".", ext, '/');
    assert RFind(p, '/') == -1;
    LastBeforeFree(stem + ".", ext, '.');
    assert p[..|stem|] == stem && p[|stem|..] == "." + ext;
  }

  /** When `b` is free of `c` and `a` ends with `c`, the last `c` of `a + b` is `a`'s last character. */
  lemma LastBeforeFree(a: string, b: string, c: char)
    requires a != [] && a[|a| - 1] == c && Free(b, c)
    ensures RFind(a + b, c) == |a| - 1
  {
    var p := a + b;
    assert forall i :: |a| <= i < |p| ==> p[i] == b[i - |a|];
    assert p[|a| - 1] == c;
    var k := RFind(p, c);
    assert k >= |a| - 1;
  }

  /** Leading dots and then a dot-free name: no extension (`.bashrc`, `..profile`, `README`). */
  lemma NoExtensionAfterLeadingDots(dots: string, name: string)
    requires AllDots(dots) && Free(name, '.') && Free(name, '/')
    ensures Extension(dots + name) == []
  {
    var p := dots + name;
    assert forall i :: |dots| <= i < |p| ==> p[i] == name[i - |dots|];
    assert forall i :: 0 <= i < |p| ==> p[i] != '/' by {
      forall i | 0 <= i < |p| ensures p[i] != '/' {
        if i < |dots| {
          assert p[i] == dots[i];
        }
      }
    }
    var dot := RFind(p, '.');
    assert dot < |dots|;
    if dot >= 0 {
      assert forall i :: 0 <= i < dot ==> p[0..dot][i] == dots[i];
    }
  }

  /**
   * `os.path.join(a, b)`: an absolute `b` replaces `a`; otherwise a slash is
   * put between them unless `a` is empty or already ends with one.
   */
  function JoinPath(a: string, b: string): (r: string)
    ensures EndsWith(r, b)
    ensures |b| > 0 && b[0] == '/' ==> r == b
    ensures (|b| == 0 || b[0] != '/') && a != [] && a[|a| - 1] != '/' ==> r == a + "/" + b
  {
    if |b| > 0 && b[0] == '/' then b
    else if a == [] || a[|a| - 1] == '/' then
      assert (a + b)[|a + b| - |b|..] == b;
      a + b
    else
      assert (a + "/" + b)[|a + "/" + b| - |b|..] == b;
      a + "/" + b
  }

  /** `os.path.basename(p)`: what follows the last slash. */
  function Basename(p: string): (r: string)
    ensures Free(r, '/') && |r| <= |p| && r == p[|p| - |r|..]
  {
    p[RFind(p, '/') + 1..]
  }

  /** Joining a slash-free name and taking the base name gives the name back. */
  lemma BasenameOfJoin(a: string, b: string)
    requires b != [] && Free(b, '/')
    ensures Basename(JoinPath(a, b)) == b
  {
    var r := JoinPath(a, b);
    var n := |r| - |b|;
    assert r[n..] == b;
    assert forall i :: n <= i < |r| ==> r[i] == b[i - n];
    var k := RFind(r, '/');
    if n > 0 {
      assert r[n - 1] == '/';
    }
    assert k == n - 1;
  }

  // ----- generated names -----

  /** `datetime.now()` as read from the local wall clock. */
  datatype DateTime = DateTime(year: nat, month: nat, day: nat, hour: nat, minute: nat, second: nat)

  /**
   * The field ranges of a `datetime`, with four-digit years (`%Y` does not
   * pad years below 1000 on every platform).
   */
  predicate ValidDateTime(d: DateTime) {
    1000 <= d.year <= 9999 && 1 <= d.month <= 12 && 1 <= d.day <= 31
    && d.hour < 24 && d.minute < 60 && d.second < 60
  }

  function Pow10(n: nat): (p: nat)
    ensures p >= 1
  {
    if n == 0 then 1 else 10 * Pow10(n - 1)
  }

  /** `n` written with exactly `width` decimal digits, zero-padded. */
  function Padded(n: nat, width: nat): (s: string)
    requires n < Pow10(width)
    ensures |s| == width && AllDigits(s) && DigitsValue(s) == n
    decreases width
  {
    if width == 0 then ""
    else
      var s := Padded(n / 10, width - 1) + [DigitChar(n % 10)];
      assert s[..|s| - 1] == Padded(n / 10, width - 1);
      s
  }

  /** Three fields, the first `width` digits wide and the other two two digits wide. */
  function Fields(a: nat, b: nat, c: nat, width: nat): (s: string)
    requires a < Pow10(width) && b < 100 && c < 100
    ensures |s| == width + 4 && AllDigits(s)
  {
    var s := Padded(a, width) + Padded(b, 2) + Padded(c, 2);
    DigitsConcat(Padded(a, width), Padded(b, 2));
    DigitsConcat(Padded(a, width) + Padded(b, 2), Padded(c, 2));
    s
  }

  /** Reads back what `Fields` writes. */
  function ReadFields(s: string, width: nat): (r: (nat, nat, nat))
    requires |s| == width + 4 && AllDigits(s)
  {
    DigitsSlice(s, 0, width);
    DigitsSlice(s, width, width + 2);
    DigitsSlice(s, width + 2, |s|);
    (DigitsValue(s[..width]), DigitsValue(s[width..width + 2]), DigitsValue(s[width + 2..]))
  }

  lemma FieldsRoundTrip(a: nat, b: nat, c: nat, width: nat)
    requires a < Pow10(width) && b < 100 && c < 100
    ensures ReadFields(Fields(a, b, c, width), width) == (a, b, c)
  {
    var s := Fields(a, b, c, width);
    assert s[..width] == Padded(a, width);
    assert s[width..width + 2] == Padded(b, 2);
    assert s[width + 2..] == Padded(c, 2);
  }

  /** `strftime("%Y%m%d_%H%M%S")`: fifteen characters, all digits but the underscore at 8. */
  function Stamp(d: DateTime): (s: string)
    requires ValidDateTime(d)
    ensures |s| == 15 && s[8] == '_' && AllDigits(s[..8]) && AllDigits(s[9..])
  {
    Around(Fields(d.year, d.month, d.day, 4), Fields(d.hour, d.minute, d.second, 2))
  }

  /** `a` and `b` on either side of an underscore. */
  function Around(a: string, b: string): (r: string)
    ensures |r| == |a| + |b| + 1 && r[|a|] == '_' && r[..|a|] == a && r[|a| + 1..] == b
  {
    a + "_" + b
  }

  lemma DigitsSlice(s: string, a: nat, b: nat)
    requires a <= b <= |s| && AllDigits(s)
    ensures AllDigits(s[a..b])
  {
    assert forall i :: 0 <= i < b - a ==> s[a..b][i] == s[a + i];
  }

  lemma DigitsConcat(a: string, b: string)
    requires AllDigits(a) && AllDigits(b)
    ensures AllDigits(a + b)
  {
    assert forall i :: |a| <= i < |a + b| ==> (a + b)[i] == b[i - |a|];
  }

  /** Reads a stamp back: the inverse of `Stamp`. */
  function ParseStamp(s: string): (r: Option<DateTime>)
    ensures r.Some? ==> |s| == 15 && s[8] == '_'
  {
    if |s| == 15 && s[8] == '_' && AllDigits(s[..8]) && AllDigits(s[9..]) then
      var (year, month, day) := ReadFields(s[..8], 4);
      var (hour, minute, second) := ReadFields(s[9..], 2);
      Some(DateTime(year, month, day, hour, minute, second))
    else None
  }

  /** Every stamp reads back as the time it was made from, so distinct times give distinct stamps. */
  lemma StampRoundTrip(d: DateTime)
    requires ValidDateTime(d)
    ensures ParseStamp(Stamp(d)) == Some(d)
  {
    FieldsRoundTrip(d.year, d.month, d.day, 4);
    FieldsRoundTrip(d.hour, d.minute, d.second, 2);
  }

  /** `f"{a}_{b}_{c}{d}"` */
  function Joined(a: string, b: string, c: string, d: string): (r: string)
    ensures |r| == |a| + |b| + |c| + |d| + 2
    ensures r[..|a| + 1] == a + "_" && r[|r| - |d|..] == d
    ensures r[|a| + 1..|a| + 1 + |b|] == b && r[|a| + 2 + |b|..|a| + 2 + |b| + |c|] == c
  {
    var r := a + "_" + b + "_" + c + d;
    assert forall i :: 0 <= i < |b| ==> r[|a| + 1 + i] == b[i];
    assert forall i :: 0 <= i < |c| ==> r[|a| + 2 + |b| + i] == c[i];
    assert forall i :: 0 <= i < |d| ==> r[|r| - |d| + i] == d[i];
    assert r[|a| + 1..|a| + 1 + |b|] == b;
    assert r[|a| + 2 + |b|..|a| + 2 + |b| + |c|] == c;
    assert r[|r| - |d|..] == d;
    r
  }

  /**
   * `_generate_filename`: the compound id, the stamp, the first eight
   * characters of the random id and the original's extension, joined by
   * underscores.
   */
  function GenerateFilename(original: string, compoundId: string, stamp: string, uuid: string): (name: string)
    ensures StartsWith(name, compoundId + "_") && EndsWith(name, Extension(original))
    ensures |name| == |compoundId| + |stamp| + 2 + |Take(uuid, 8)| + |Extension(original)|
  {
    Joined(compoundId, stamp, Take(uuid, 8), Extension(original))
  }

  /**
   * A generated name can be taken apart again: the stamp between the first
   * two separators reads back as the time, and the random part follows.
   */
  lemma GeneratedNameParts(original: string, compoundId: string, now: DateTime, uuid: string)
    requires ValidDateTime(now)
    ensures var name := GenerateFilename(original, compoundId, Stamp(now), uuid);
      var c := |compoundId|;
      ParseStamp(name[c + 1..c + 16]) == Some(now) && name[c + 17..c + 17 + |Take(uuid, 8)|] == Take(uuid, 8)
  {
    StampRoundTrip(now);
  }

  /** Two uploads of one name for one compound in the same second differ when their random ids' prefixes do. */
  lemma GeneratedNamesDiffer(original: string, compoundId: string, stamp: string, uuid1: string, uuid2: string)
    requires |uuid1| >= 8 && |uuid2| >= 8 && uuid1[..8] != uuid2[..8]
    ensures GenerateFilename(original, compoundId, stamp, uuid1) != GenerateFilename(original, compoundId, stamp, uuid2)
  {
    var n1 := GenerateFilename(original, compoundId, stamp, uuid1);
    var n2 := GenerateFilename(original, compoundId, stamp, uuid2);
    var c := |compoundId| + 2 + |stamp|;
    assert n1[c..c + 8] == uuid1[..8] && n2[c..c + 8] == uuid2[..8];
  }

  /** An upload named `stem.ext` is stored under a name ending in `.ext`. */
  lemma GeneratedNameKeepsExtension(stem: string, ext: string, compoundId: string, stamp: string, uuid: string)
    requires Free(stem, '/') && !AllDots(stem) && Free(ext, '.') && Free(ext, '/')
    ensures EndsWith(GenerateFilename(stem + "." + ext, compoundId, stamp, uuid), "." + ext)
  {
    ExtensionOfName(stem, ext);
  }

  // ----- the file system -----

  /** What a path names, with its status-change and modification times. */
  datatype Node =
    | File(content: seq<byte>, changed: Instant, modified: Instant)
    | Directory(size: nat, changed: Instant, modified: Instant)

  /**
   * The `OSError`s the operations raise, with the path the failing call was
   * given: `EEXIST`, `EISDIR`, `ENOTDIR` and `ENOENT`.
   */
  datatype FsError =
    | FileExists(path: string)
    | IsADirectory(path: string)
    | NotADirectory(path: string)
    | FileNotFound(path: string)

  predicate AllSlashes(s: string) {
    forall i :: 0 <= i < |s| ==> s[i] == '/'
  }

  /** The root, however many slashes spell it; it always exists as a directory. */
  predicate IsRoot(p: string) {
    p != [] && AllSlashes(p)
  }

  /** A non-empty path that does not end in a slash. */
  predicate Trimmed(p: string) {
    p != [] && p[|p| - 1] != '/'
  }

  /** `s.rstrip("/")` */
  function TrimSlashes(s: string): (r: string)
    ensures |r| <= |s| && r == s[..|r|]
    ensures r == [] || r[|r| - 1] != '/'
    ensures forall i :: |r| <= i < |s| ==> s[i] == '/'
  {
    if s == [] || s[|s| - 1] != '/' then s else TrimSlashes(s[..|s| - 1])
  }

  /**
   * `os.path.split(p)`: the part after the last slash, and the part before
   * it with its trailing slashes removed unless it consists of slashes only.
   */
  function Split(p: string): (r: (string, string))
    ensures |r.0| + |r.1| <= |p|
    ensures r.0 == [] || IsRoot(r.0) || (|r.0| < |p| - |r.1| && Trimmed(r.0))
    ensures Trimmed(p) ==> r.1 != []
  {
    var i := RFind(p, '/') + 1;
    var head := p[..i];
    if head == [] || AllSlashes(head) then (head, p[i..])
    else
      var t := TrimSlashes(head);
      assert head[i - 1] == '/';
      (t, p[i..])
  }

  /** The parts of `os.path.split(p)`: a prefix of `p`, and a slash-free suffix of it. */
  lemma SplitParts(p: string)
    ensures Split(p).0 == p[..|Split(p).0|]
    ensures Split(p).1 == p[|p| - |Split(p).1|..] && Free(Split(p).1, '/')
  {
    var i := RFind(p, '/') + 1;
    var head := p[..i];
    var tail := p[i..];
    assert Split(p).1 == tail;
    assert forall j :: 0 <= j < |tail| ==> tail[j] == p[i + j];
    if head == [] || AllSlashes(head) {
      assert Split(p).0 == head;
    } else {
      var t := TrimSlashes(head);
      assert Split(p).0 == t;
      assert t == head[..|t|] == p[..|t|];
    }
  }


  /** `os.path.dirname(p)`: the directory a path lives in; `""` is the working directory. */
  function Dirname(p: string): string {
    Split(p).0
  }

  /** `os.path.exists` on a path of the tree. */
  predicate Exists(tree: map<string, Node>, p: string) {
    IsRoot(p) || p in tree
  }

  /** `os.path.isdir` on a path of the tree. */
  predicate IsDir(tree: map<string, Node>, p: string) {
    IsRoot(p) || (p in tree && tree[p].Directory?)
  }

  /**
   * The error the OS gives when it resolves the directory `p` lives in:
   * none when that is the working directory or an existing directory;
   * otherwise the topmost ancestor that is not a directory decides: a file
   * gives `ENOTDIR`, a missing one `ENOENT`.
   */
  function ParentError(tree: map<string, Node>, p: string): (e: Option<FsError>)
    ensures e.None? <==> Dirname(p) == [] || IsDir(tree, Dirname(p))
    ensures e.Some? ==> e.value == NotADirectory(p) || e.value == FileNotFound(p)
    decreases |p|
  {
    var h := Dirname(p);
    if h == [] || IsDir(tree, h) then None
    else
      match ParentError(tree, h)
      case Some(NotADirectory(_)) => Some(NotADirectory(p))
      case Some(_) => Some(FileNotFound(p))
      case None => Some(if h in tree then NotADirectory(p) else FileNotFound(p))
  }

  /** `os.mkdir(p)`: the directory `p` lives in must resolve, and nothing may have the name yet. */
  function MkDir(tree: map<string, Node>, p: string, clock: Instant, dirSize: nat): (r: Result<map<string, Node>, FsError>)
    ensures r.Ok? <==> p != [] && ParentError(tree, p).None? && !Exists(tree, p)
    ensures r.Err? ==> r.error.path == p
  {
    if p == [] then Err(FileNotFound(p))
    else match ParentError(tree, p)
      case Some(e) => Err(e)
      case None =>
        if Exists(tree, p) then Err(FileExists(p)) else Ok(tree[p := Directory(dirSize, clock, clock)])
  }

  /** The head and tail `os.makedirs` works with: a path ending in a slash is split once more. */
  function MakeDirsSplit(p: string): (r: (string, string))
    ensures r.0 == [] || IsRoot(r.0) || r.1 == [] || |r.0| < |p|
    ensures Trimmed(p) ==> r == Split(p)
  {
    var (head, tail) := Split(p);
    if tail == [] then Split(head) else (head, tail)
  }

  /** `q` is one of the directories above `p` that `os.makedirs(p)` walks up to. */
  predicate IsAncestor(q: string, p: string)
    decreases |p|
  {
    HasHead(p) && (q == MakeDirsSplit(p).0 || IsAncestor(q, MakeDirsSplit(p).0))
  }

  /** `os.makedirs(p)` has a directory above `p` to consider: a head that is neither empty nor the root, and a tail. */
  predicate HasHead(p: string)
    ensures HasHead(p) ==> |MakeDirsSplit(p).0| < |p|
  {
    MakeDirsSplit(p).0 != [] && MakeDirsSplit(p).1 != [] && !IsRoot(MakeDirsSplit(p).0)
  }

  lemma {:induction false} AncestorShorter(q: string, p: string)
    requires IsAncestor(q, p)
    ensures |q| < |p| && !IsRoot(q)
    decreases |p|
  {
    if q != MakeDirsSplit(p).0 {
      AncestorShorter(q, MakeDirsSplit(p).0);
    }
  }

  /**
   * `os.makedirs(name, exist_ok=True)`: first, when the head of the path
   * does not exist, the same call on the head, whose `FileExistsError` is
   * ignored; then `mkdir(name)`, whose error is ignored when `name` is a
   * directory. What was created before an error stays.
   */
  function MakeDirsStep(tree: map<string, Node>, name: string, clock: Instant, dirSize: nat)
    : (r: (map<string, Node>, Option<FsError>))
    decreases |name|, 1
  {
    var pre := MakeHead(tree, name, clock, dirSize);
    if pre.1.Some? then pre else MkDirExistOk(pre.0, name, clock, dirSize)
  }

  /** The call on a missing head of `name`, with its `FileExistsError` ignored. */
  function MakeHead(tree: map<string, Node>, name: string, clock: Instant, dirSize: nat)
    : (r: (map<string, Node>, Option<FsError>))
    decreases |name|, 0
  {
    var head := MakeDirsSplit(name).0;
    if HasHead(name) && head !in tree then
      var sub := MakeDirsStep(tree, head, clock, dirSize);
      (sub.0, if sub.1.Some? && sub.1.value.FileExists? then None else sub.1)
    else (tree, None)
  }

  /** `mkdir(name)` with its error ignored when `name` is a directory. */
  function MkDirExistOk(tree: map<string, Node>, name: string, clock: Instant, dirSize: nat)
    : (r: (map<string, Node>, Option<FsError>))
    ensures r.0 == tree || (name !in tree && r.0 == tree[name := Directory(dirSize, clock, clock)])
    ensures r.1.None? ==> IsDir(r.0, name)
    ensures r.1.Some? ==> r.1.value.path == name && r.0 == tree
  {
    match MkDir(tree, name, clock, dirSize)
    case Ok(made) => (made, None)
    case Err(e) => (tree, if IsDir(tree, name) then None else Some(e))
  }

  /**
   * Whatever the tree, `os.makedirs` only adds directories, only at the name
   * and the ancestors it walks, leaves every existing entry as it was, and
   * reports an error about one of those paths; without an error the name is
   * a directory.
   */
  lemma MakeDirsGrows(tree: map<string, Node>, name: string, clock: Instant, dirSize: nat)
    ensures var r := MakeDirsStep(tree, name, clock, dirSize);
      (forall p :: p in tree ==> p in r.0 && r.0[p] == tree[p])
      && (forall p :: p in r.0 && p !in tree ==> r.0[p] == Directory(dirSize, clock, clock) && (p == name || IsAncestor(p, name)))
      && (r.1.None? ==> IsDir(r.0, name))
      && (r.1.Some? ==> r.1.value.path == name || IsAncestor(r.1.value.path, name))
  {
    MakeDirsKeeps(tree, name, clock, dirSize);
    MakeDirsAdds(tree, name, clock, dirSize);
    MakeDirsReports(tree, name, clock, dirSize);
  }

  /** `os.makedirs` leaves every existing entry as it was. */
  lemma {:induction false} MakeDirsKeeps(tree: map<string, Node>, name: string, clock: Instant, dirSize: nat)
    ensures var r := MakeDirsStep(tree, name, clock, dirSize);
      forall p :: p in tree ==> p in r.0 && r.0[p] == tree[p]
    decreases |name|
  {
    var pre := MakeHead(tree, name, clock, dirSize);
    assert forall p :: p in tree ==> p in pre.0 && pre.0[p] == tree[p] by {
      var head := MakeDirsSplit(name).0;
      if HasHead(name) && head !in tree {
        MakeDirsKeeps(tree, head, clock, dirSize);
      }
    }
    assert MakeDirsStep(tree, name, clock, dirSize)
      == if pre.1.Some? then pre else MkDirExistOk(pre.0, name, clock, dirSize);
  }


  /** `os.makedirs` adds directories only, at the name and the ancestors it walks. */
  lemma {:induction false} MakeDirsAdds(tree: map<string, Node>, name: string, clock: Instant, dirSize: nat)
    ensures var r := MakeDirsStep(tree, name, clock, dirSize);
      forall p :: p in r.0 && p !in tree ==> r.0[p] == Directory(dirSize, clock, clock) && (p == name || IsAncestor(p, name))
    decreases |name|, 1
  {
    var pre := MakeHead(tree, name, clock, dirSize);
    MakeHeadAdds(tree, name, clock, dirSize);
    assert MakeDirsStep(tree, name, clock, dirSize)
      == if pre.1.Some? then pre else MkDirExistOk(pre.0, name, clock, dirSize);
  }

  /** What the call on the head adds are directories above the name. */
  lemma {:induction false} MakeHeadAdds(tree: map<string, Node>, name: string, clock: Instant, dirSize: nat)
    ensures var pre := MakeHead(tree, name, clock, dirSize);
      forall p :: p in pre.0 && p !in tree ==> pre.0[p] == Directory(dirSize, clock, clock) && IsAncestor(p, name)
    decreases |name|, 0
  {
    var head := MakeDirsSplit(name).0;
    if HasHead(name) && head !in tree {
      MakeDirsAdds(tree, head, clock, dirSize);
      var sub := MakeDirsStep(tree, head, clock, dirSize);
      assert MakeHead(tree, name, clock, dirSize).0 == sub.0;
      forall p | p in sub.0 && p !in tree ensures IsAncestor(p, name) {
      }
    }
  }



  /** Without an error the name is a directory; an error names the name or an ancestor. */
  lemma {:induction false} MakeDirsReports(tree: map<string, Node>, name: string, clock: Instant, dirSize: nat)
    ensures var r := MakeDirsStep(tree, name, clock, dirSize);
      (r.1.None? ==> IsDir(r.0, name))
      && (r.1.Some? ==> r.1.value.path == name || IsAncestor(r.1.value.path, name))
    decreases |name|
  {
    var pre := MakeHead(tree, name, clock, dirSize);
    var head := MakeDirsSplit(name).0;
    if HasHead(name) && head !in tree {
      MakeDirsReports(tree, head, clock, dirSize);
      var sub := MakeDirsStep(tree, head, clock, dirSize);
      assert pre.1.Some? ==> pre.1 == sub.1;
    } else {
      assert pre.1.None?;
    }
    assert MakeDirsStep(tree, name, clock, dirSize)
      == if pre.1.Some? then pre else MkDirExistOk(pre.0, name, clock, dirSize);
  }

  /** The directory `p` lives in exists. */
  predicate InPlace(tree: map<string, Node>, p: string) {
    Dirname(p) == [] || IsDir(tree, Dirname(p))
  }

  /** A tree the OS could hold: every entry has a plain name and sits in the working directory or in a directory. */
  predicate Grounded(tree: map<string, Node>) {
    forall p :: p in tree ==> Trimmed(p) && InPlace(tree, p)
  }

  /** A file stands at `p` or at one of the ancestors `os.makedirs(p)` walks. */
  predicate Blocked(tree: map<string, Node>, p: string)
    decreases |p|
  {
    (p in tree && tree[p].File?) || (HasHead(p) && Blocked(tree, MakeDirsSplit(p).0))
  }

  /** In a grounded tree, nothing blocks an existing directory and all its ancestors are directories. */
  lemma {:induction false} GroundedDir(tree: map<string, Node>, p: string)
    requires Grounded(tree) && p in tree && tree[p].Directory?
    ensures !Blocked(tree, p) && forall q :: IsAncestor(q, p) ==> IsDir(tree, q)
    decreases |p|
  {
    var h := Dirname(p);
    if h != [] && !IsRoot(h) {
      GroundedDir(tree, h);
    }
  }

  /** What `MakeDirsOutcome` promises about the result `r` of `os.makedirs(name)` on `tree`. */
  ghost predicate MakeDirsSound(tree: map<string, Node>, name: string, r: (map<string, Node>, Option<FsError>)) {
    (r.1.None? <==> !Blocked(tree, name))
    && (r.1 == Some(FileExists(name)) <==> name in tree && tree[name].File?)
    && (r.1.Some? ==> r.0 == tree && (r.1.value.FileExists? || r.1.value.NotADirectory?))
    && (r.1.None? ==> IsDir(r.0, name) && forall q :: IsAncestor(q, name) ==> IsDir(r.0, q))
    && Grounded(r.0)
  }

  /**
   * On a grounded tree `os.makedirs(name, exist_ok=True)` fails exactly when
   * a file stands at the name or at an ancestor, and then changes nothing:
   * `FileExistsError` when it is the name, `NotADirectoryError` otherwise.
   * When it succeeds the name and all its ancestors are directories, and the
   * tree is still grounded.
   */
  lemma {:induction false} MakeDirsOutcome(tree: map<string, Node>, name: string, clock: Instant, dirSize: nat)
    requires Grounded(tree) && Trimmed(name)
    ensures var r := MakeDirsStep(tree, name, clock, dirSize);
      (r.1.None? <==> !Blocked(tree, name))
      && (r.1 == Some(FileExists(name)) <==> name in tree && tree[name].File?)
      && (r.1.Some? ==> r.0 == tree && (r.1.value.FileExists? || r.1.value.NotADirectory?))
      && (r.1.None? ==> IsDir(r.0, name) && forall q :: IsAncestor(q, name) ==> IsDir(r.0, q))
      && Grounded(r.0)
    decreases |name|, 1
  {
    var head := Dirname(name);
    assert MakeDirsSplit(name).0 == head;
    if HasHead(name) && head !in tree {
      MakeDirsBelowMissing(tree, name, clock, dirSize);
    } else if HasHead(name) && tree[head].File? {
      MakeDirsBelowFile(tree, name, clock, dirSize);
    } else {
      MakeDirsBelowDir(tree, name, clock, dirSize);
    }
  }

  /** `MakeDirsOutcome` when the head is missing: it is made first. */
  lemma {:induction false} MakeDirsBelowMissing(tree: map<string, Node>, name: string, clock: Instant, dirSize: nat)
    requires Grounded(tree) && Trimmed(name) && HasHead(name) && Dirname(name) !in tree
    ensures MakeDirsSound(tree, name, MakeDirsStep(tree, name, clock, dirSize))
    decreases |name|, 0
  {
    var head := Dirname(name);
    assert MakeDirsSplit(name).0 == head;
    MakeDirsOutcome(tree, head, clock, dirSize);
    if MakeDirsStep(tree, head, clock, dirSize).1.Some? {
      MakeDirsHeadFails(tree, name, clock, dirSize);
    } else {
      MakeDirsHeadMade(tree, name, clock, dirSize);
    }
  }

  /** The missing head cannot be made: its error is the name's, and nothing changes. */
  lemma MakeDirsHeadFails(tree: map<string, Node>, name: string, clock: Instant, dirSize: nat)
    requires Grounded(tree) && Trimmed(name) && HasHead(name) && Dirname(name) !in tree
    requires MakeDirsSound(tree, Dirname(name), MakeDirsStep(tree, Dirname(name), clock, dirSize))
    requires MakeDirsStep(tree, Dirname(name), clock, dirSize).1.Some?
    ensures MakeDirsSound(tree, name, MakeDirsStep(tree, name, clock, dirSize))
  {
    var head := Dirname(name);
    var sub := MakeDirsStep(tree, head, clock, dirSize);
    assert MakeDirsSplit(name).0 == head;
    assert MakeHead(tree, name, clock, dirSize) == sub;
    assert MakeDirsStep(tree, name, clock, dirSize) == sub;
    // In a grounded tree the name would need its directory.
    assert name !in tree;
  }

  /** The missing head is made: then `mkdir(name)` makes the name. */
  lemma MakeDirsHeadMade(tree: map<string, Node>, name: string, clock: Instant, dirSize: nat)
    requires Grounded(tree) && Trimmed(name) && HasHead(name) && Dirname(name) !in tree
    requires MakeDirsSound(tree, Dirname(name), MakeDirsStep(tree, Dirname(name), clock, dirSize))
    requires MakeDirsStep(tree, Dirname(name), clock, dirSize).1.None?
    ensures MakeDirsSound(tree, name, MakeDirsStep(tree, name, clock, dirSize))
  {
    var head := Dirname(name);
    var sub := MakeDirsStep(tree, head, clock, dirSize);
    var made := sub.0[name := Directory(dirSize, clock, clock)];
    MakeDirsHeadMadeStep(tree, name, clock, dirSize);
    assert MakeDirsSplit(name).0 == head;
    assert !Blocked(tree, name) by {
      assert !Blocked(tree, head);
    }
    assert forall q :: IsAncestor(q, name) ==> IsDir(made, q) by {
      forall q | IsAncestor(q, name) ensures IsDir(made, q) {
        assert q == head || IsAncestor(q, head);
      }
    }
    assert Grounded(made) by {
      GroundedAdd(sub.0, name, clock, dirSize);
    }
  }

  /** After the head is made, `mkdir(name)` adds the name as a new directory. */
  lemma MakeDirsHeadMadeStep(tree: map<string, Node>, name: string, clock: Instant, dirSize: nat)
    requires Grounded(tree) && Trimmed(name) && HasHead(name) && Dirname(name) !in tree
    requires MakeDirsStep(tree, Dirname(name), clock, dirSize).1.None?
    ensures var sub := MakeDirsStep(tree, Dirname(name), clock, dirSize);
      name !in sub.0 && MakeDirsStep(tree, name, clock, dirSize) == (sub.0[name := Directory(dirSize, clock, clock)], None)
  {
    var head := Dirname(name);
    var sub := MakeDirsStep(tree, head, clock, dirSize);
    assert MakeDirsSplit(name).0 == head;
    assert name !in tree;
    assert name !in sub.0 by {
      MakeDirsAdds(tree, head, clock, dirSize);
      if name in sub.0 {
        AncestorShorter(name, head);
      }
    }
    MakeDirsReports(tree, head, clock, dirSize);
    assert MakeHead(tree, name, clock, dirSize) == (sub.0, None);
    assert MkDir(sub.0, name, clock, dirSize) == Ok(sub.0[name := Directory(dirSize, clock, clock)]);
  }

  /** `MakeDirsOutcome` when a file is the head: `mkdir` gives `ENOTDIR`. */
  lemma MakeDirsBelowFile(tree: map<string, Node>, name: string, clock: Instant, dirSize: nat)
    requires Grounded(tree) && Trimmed(name) && HasHead(name) && Dirname(name) in tree && tree[Dirname(name)].File?
    ensures MakeDirsSound(tree, name, MakeDirsStep(tree, name, clock, dirSize))
  {
    var r := MakeDirsStep(tree, name, clock, dirSize);
    var pre := MakeHead(tree, name, clock, dirSize);
    var head := Dirname(name);
    assert MakeDirsSplit(name).0 == head;
    assert r == if pre.1.Some? then pre else MkDirExistOk(pre.0, name, clock, dirSize);
    assert pre == (tree, None);
    assert name !in tree;
    assert ParentError(tree, head).None?;
    assert MkDir(tree, name, clock, dirSize) == Err(NotADirectory(name));
  }

  /** `MakeDirsOutcome` when the head is empty, the root or a directory: only `mkdir(name)` runs. */
  lemma MakeDirsBelowDir(tree: map<string, Node>, name: string, clock: Instant, dirSize: nat)
    requires Grounded(tree) && Trimmed(name)
    requires !HasHead(name) || (Dirname(name) in tree && tree[Dirname(name)].Directory?)
    ensures MakeDirsSound(tree, name, MakeDirsStep(tree, name, clock, dirSize))
  {
    var r := MakeDirsStep(tree, name, clock, dirSize);
    var pre := MakeHead(tree, name, clock, dirSize);
    var head := Dirname(name);
    assert MakeDirsSplit(name).0 == head;
    assert r == if pre.1.Some? then pre else MkDirExistOk(pre.0, name, clock, dirSize);
    assert pre == (tree, None);
    if HasHead(name) {
      GroundedDir(tree, head);
    }
    if name !in tree {
      assert MkDir(tree, name, clock, dirSize) == Ok(tree[name := Directory(dirSize, clock, clock)]);
      GroundedAdd(tree, name, clock, dirSize);
    }
  }

  /** A new directory whose own directory exists keeps a tree grounded. */
  lemma GroundedAdd(tree: map<string, Node>, name: string, clock: Instant, dirSize: nat)
    requires Grounded(tree) && Trimmed(name) && InPlace(tree, name)
    ensures Grounded(tree[name := Directory(dirSize, clock, clock)])
  {
    var t := tree[name := Directory(dirSize, clock, clock)];
    forall p | p in t ensures Trimmed(p) && InPlace(t, p) {
      if p != name {
        assert InPlace(tree, p);
      }
    }
  }

  /**
   * `open(path, 'wb').write(content)`: the directory the path lives in must
   * resolve; a directory at the path raises `IsADirectoryError`; otherwise
   * the file holds exactly `content`.
   */
  function WriteStep(tree: map<string, Node>, path: string, content: seq<byte>, clock: Instant): (r: Result<map<string, Node>, FsError>)
    ensures r.Ok? <==> path != [] && InPlace(tree, path) && !IsDir(tree, path)
    ensures r.Ok? ==> (path in r.value && r.value[path] == File(content, clock, clock)
      && r.value.Keys == tree.Keys + {path} && forall p :: p in tree && p != path ==> r.value[p] == tree[p])
    ensures r.Err? ==> r.error.path == path
    ensures r.Err? && path != [] && InPlace(tree, path) ==> r.error.IsADirectory?
    ensures r.Err? && path != [] && !InPlace(tree, path) ==> r.error.NotADirectory? || r.error.FileNotFound?
  {
    if path == [] then Err(FileNotFound(path))
    else match ParentError(tree, path)
      case Some(e) => Err(e)
      case None =>
        if IsDir(tree, path) then Err(IsADirectory(path)) else Ok(tree[path := File(content, clock, clock)])
  }

  /** `os.path.join(upload_dir, compound_id)` */
  function CompoundDir(uploadDir: string, compoundId: string): string {
    JoinPath(uploadDir, compoundId)
  }

  /** Where `save_upload` writes: the generated name joined to the compound's directory, never that directory itself. */
  function UploadPath(uploadDir: string, original: string, compoundId: string, stamp: string, uuid: string): (path: string)
    ensures |path| > |CompoundDir(uploadDir, compoundId)|
  {
    var dir := CompoundDir(uploadDir, compoundId);
    var name := GenerateFilename(original, compoundId, stamp, uuid);
    assert name[..|compoundId| + 1] == compoundId + "_";
    if |name| > 0 && name[0] == '/' then
      assert compoundId != [] && compoundId[0] == '/';
      assert dir == compoundId;
      JoinPath(dir, name)
    else JoinPath(dir, name)
  }

  /**
   * `save_upload`: make `upload_dir/compound_id`, write the bytes to a
   * generated name in it and give that path. A failure leaves what was
   * already done (the directories) in place. `now` and `clock` are the same
   * instant as a local date and as a timestamp.
   */
  function SaveUploadStep(tree: map<string, Node>, uploadDir: string, content: seq<byte>, original: string,
                          compoundId: string, stamp: string, clock: Instant, uuid: string, dirSize: nat)
    : (r: (map<string, Node>, Result<string, FsError>))
    ensures var path := UploadPath(uploadDir, original, compoundId, stamp, uuid);
      (r.1.Ok? ==> r.1.value == path && path in r.0 && r.0[path] == File(content, clock, clock))
      && forall p :: p in tree && p != path ==> p in r.0 && r.0[p] == tree[p]
  {
    var dir := CompoundDir(uploadDir, compoundId);
    var path := UploadPath(uploadDir, original, compoundId, stamp, uuid);
    MakeDirsGrows(tree, dir, clock, dirSize);
    var (withDir, made) := MakeDirsStep(tree, dir, clock, dirSize);
    if made.Some? then (withDir, Err(made.value))
    else
      match WriteStep(withDir, path, content, clock)
      case Err(e) => (withDir, Err(e))
      case Ok(written) => (written, Ok(path))
  }

  /** The directory `q` after `os.makedirs(dir)` succeeded: it was one already, or it is `dir` or one of its ancestors. */
  predicate DirAfterMakeDirs(tree: map<string, Node>, dir: string, q: string) {
    IsDir(tree, q) || q == dir || IsAncestor(q, dir)
  }

  /** After a successful `os.makedirs(dir)` on a grounded tree, exactly the paths `DirAfterMakeDirs` names are directories. */
  lemma DirsAfterMakeDirs(tree: map<string, Node>, dir: string, clock: Instant, dirSize: nat)
    requires Grounded(tree) && Trimmed(dir) && !Blocked(tree, dir)
    ensures forall q :: IsDir(MakeDirsStep(tree, dir, clock, dirSize).0, q) <==> DirAfterMakeDirs(tree, dir, q)
  {
    MakeDirsOutcome(tree, dir, clock, dirSize);
    MakeDirsGrows(tree, dir, clock, dirSize);
  }

  /** After a successful `os.makedirs(dir)` on a grounded tree, the paths are the old ones, `dir` and its ancestors. */
  lemma MakeDirsKeys(tree: map<string, Node>, dir: string, clock: Instant, dirSize: nat)
    requires Grounded(tree) && Trimmed(dir) && !Blocked(tree, dir)
    ensures var made := MakeDirsStep(tree, dir, clock, dirSize).0;
      forall q :: q in made <==> q in tree || q == dir || IsAncestor(q, dir)
  {
    var made := MakeDirsStep(tree, dir, clock, dirSize).0;
    MakeDirsOutcome(tree, dir, clock, dirSize);
    MakeDirsKeeps(tree, dir, clock, dirSize);
    MakeDirsAdds(tree, dir, clock, dirSize);
    forall q | IsAncestor(q, dir) ensures q in made {
      AncestorShorter(q, dir);
    }
  }

  /**
   * On a grounded tree `save_upload` succeeds exactly when nothing blocks
   * the compound directory, the directory the file lives in is one after
   * `os.makedirs`, and no directory has the file's name. A blocked compound
   * directory raises what `os.makedirs` raised and changes nothing; any
   * later error names the file's path.
   */
  lemma SaveUploadOutcome(tree: map<string, Node>, uploadDir: string, content: seq<byte>, original: string,
                          compoundId: string, stamp: string, clock: Instant, uuid: string, dirSize: nat)
    requires Grounded(tree) && Trimmed(CompoundDir(uploadDir, compoundId))
    ensures var r := SaveUploadStep(tree, uploadDir, content, original, compoundId, stamp, clock, uuid, dirSize);
      var dir := CompoundDir(uploadDir, compoundId);
      var path := UploadPath(uploadDir, original, compoundId, stamp, uuid);
      var parent := Dirname(path);
      (r.1.Ok? <==> !Blocked(tree, dir) && (parent == [] || DirAfterMakeDirs(tree, dir, parent)) && !IsDir(tree, path))
      && (Blocked(tree, dir) ==> r.0 == tree && r.1.Err? && MakeDirsStep(tree, dir, clock, dirSize).1 == Some(r.1.error))
      && (dir in tree && tree[dir].File? ==> r.1 == Err(FileExists(dir)))
      && (!Blocked(tree, dir) && r.1.Err? ==> r.1.error.path == path)
  {
    var dir := CompoundDir(uploadDir, compoundId);
    var path := UploadPath(uploadDir, original, compoundId, stamp, uuid);
    var parent := Dirname(path);
    var r := SaveUploadStep(tree, uploadDir, content, original, compoundId, stamp, clock, uuid, dirSize);
    var made := MakeDirsStep(tree, dir, clock, dirSize);
    MakeDirsOutcome(tree, dir, clock, dirSize);
    if made.1.Some? {
      assert r == (made.0, Err(made.1.value));
    } else {
      var w := WriteStep(made.0, path, content, clock);
      assert r == if w.Ok? then (w.value, Ok(path)) else (made.0, Err(w.error));
      assert IsDir(made.0, path) <==> IsDir(tree, path) by {
        MakeDirsKeeps(tree, dir, clock, dirSize);
        MakeDirsAdds(tree, dir, clock, dirSize);
        if path in made.0 && path !in tree && path != dir {
          AncestorShorter(path, dir);
        }
      }
      assert InPlace(made.0, path) <==> parent == [] || DirAfterMakeDirs(tree, dir, parent) by {
        DirsAfterMakeDirs(tree, dir, clock, dirSize);
      }
    }
  }


  /**
   * On a grounded tree a successful `save_upload` leaves the paths that were
   * there, the compound directory with the ancestors `os.makedirs` created,
   * and the file: the new ones besides the file are directories. The
   * compound directory stays even when the write fails.
   */
  lemma SaveUploadEffect(tree: map<string, Node>, uploadDir: string, content: seq<byte>, original: string,
                         compoundId: string, stamp: string, clock: Instant, uuid: string, dirSize: nat)
    requires Grounded(tree) && Trimmed(CompoundDir(uploadDir, compoundId))
    ensures var r := SaveUploadStep(tree, uploadDir, content, original, compoundId, stamp, clock, uuid, dirSize);
      var dir := CompoundDir(uploadDir, compoundId);
      var path := UploadPath(uploadDir, original, compoundId, stamp, uuid);
      (r.1.Ok? ==> ((forall q :: q in r.0 <==> q in tree || q == path || q == dir || IsAncestor(q, dir))
        && forall q :: q in r.0 && q !in tree && q != path ==> r.0[q] == Directory(dirSize, clock, clock)))
      && (!Blocked(tree, dir) ==> IsDir(r.0, dir))
  {
    var dir := CompoundDir(uploadDir, compoundId);
    var path := UploadPath(uploadDir, original, compoundId, stamp, uuid);
    var r := SaveUploadStep(tree, uploadDir, content, original, compoundId, stamp, clock, uuid, dirSize);
    var made := MakeDirsStep(tree, dir, clock, dirSize);
    MakeDirsOutcome(tree, dir, clock, dirSize);
    if made.1.None? {
      var w := WriteStep(made.0, path, content, clock);
      assert r == if w.Ok? then (w.value, Ok(path)) else (made.0, Err(w.error));
      if w.Ok? {
        SaveUploadAdds(tree, made.0, w.value, dir, path, content, clock, dirSize);
      }
    }
  }

  /** The paths after the compound directory is made and the file written, and what the new ones hold. */
  lemma SaveUploadAdds(tree: map<string, Node>, made: map<string, Node>, written: map<string, Node>, dir: string, path: string,
                       content: seq<byte>, clock: Instant, dirSize: nat)
    requires Grounded(tree) && Trimmed(dir) && !Blocked(tree, dir) && |path| > |dir|
    requires made == MakeDirsStep(tree, dir, clock, dirSize).0
    requires written == made[path := File(content, clock, clock)]
    ensures forall q :: q in written <==> q in tree || q == path || q == dir || IsAncestor(q, dir)
    ensures forall q :: q in written && q !in tree && q != path ==> written[q] == Directory(dirSize, clock, clock)
    ensures IsDir(written, dir)
  {
    MakeDirsKeys(tree, dir, clock, dirSize);
    MakeDirsAdds(tree, dir, clock, dirSize);
    MakeDirsOutcome(tree, dir, clock, dirSize);
  }



  /** A slash-free name joined onto a directory lives in that directory. */
  lemma DirnameOfJoin(dir: string, name: string)
    requires Trimmed(dir) && name != [] && Free(name, '/')
    ensures Dirname(dir + "/" + name) == dir
  {
    var p := dir + "/" + name;
    assert forall i :: |dir| < i < |p| ==> p[i] == name[i - |dir| - 1];
    RFindAt(p, '/', |dir|);
    var head := p[..|dir| + 1];
    assert head == dir + "/";
    assert !AllSlashes(head) by {
      assert head[|dir| - 1] != '/';
    }
    assert TrimSlashes(head) == TrimSlashes(dir) == dir;
  }

  /**
   * A compound id without a slash is saved: on a grounded tree where
   * nothing blocks the compound directory and no directory has the file's
   * name, `save_upload` writes the file and returns its path.
   */
  lemma PlainIdSaved(tree: map<string, Node>, uploadDir: string, content: seq<byte>, original: string,
                     compoundId: string, now: DateTime, clock: Instant, uuid: string, dirSize: nat)
    requires ValidDateTime(now) && compoundId != [] && Free(compoundId, '/') && Free(uuid, '/')
    requires Grounded(tree) && !Blocked(tree, CompoundDir(uploadDir, compoundId))
    requires !IsDir(tree, UploadPath(uploadDir, original, compoundId, Stamp(now), uuid))
    ensures SaveUploadStep(tree, uploadDir, content, original, compoundId, Stamp(now), clock, uuid, dirSize).1
      == Ok(UploadPath(uploadDir, original, compoundId, Stamp(now), uuid))
  {
    var dir := CompoundDir(uploadDir, compoundId);
    var name := GenerateFilename(original, compoundId, Stamp(now), uuid);
    assert Trimmed(dir) by {
      assert dir[|dir| - |compoundId|..] == compoundId;
      assert dir[|dir| - 1] == compoundId[|compoundId| - 1];
    }
    StampFree(now);
    SavedInCompoundDirectory(uploadDir, original, compoundId, Stamp(now), uuid);
    GeneratedNameFree(original, compoundId, Stamp(now), uuid);
    DirnameOfJoin(dir, name);
    SaveUploadOutcome(tree, uploadDir, content, original, compoundId, Stamp(now), clock, uuid, dirSize);
  }

  /** `os.path.split` keeps at least what comes before a slash that follows a non-slash. */
  lemma SplitHeadAtLeast(p: string, n: nat)
    requires 0 < n < |p| && p[n] == '/' && p[n - 1] != '/'
    ensures |Dirname(p)| >= n
  {
    var i := RFind(p, '/') + 1;
    var head := p[..i];
    assert head[n - 1] == p[n - 1];
  }

  /**
   * Below an existing directory with nothing in it, any path whose own
   * directory lies further down cannot be opened: `ENOENT`.
   */
  lemma {:induction false} ParentErrorBelow(tree: map<string, Node>, dir: string, p: string)
    requires Trimmed(dir) && IsDir(tree, dir)
    requires forall q :: q in tree ==> !StartsWith(q, dir + "/")
    requires StartsWith(p, dir + "/") && |Dirname(p)| > |dir|
    ensures ParentError(tree, p) == Some(FileNotFound(p))
    decreases |p|
  {
    var h := Dirname(p);
    assert h[..|dir| + 1] == p[..|dir| + 1];
    assert StartsWith(h, dir + "/");
    assert h[|dir| - 1] != '/';
    SplitHeadAtLeast(h, |dir|);
    var h2 := Dirname(h);
    if |h2| > |dir| {
      ParentErrorBelow(tree, dir, h);
    } else {
      assert h2 == h[..|dir|] == dir;
    }
  }

  /**
   * A compound id with a slash in it (`a/b`) names a directory
   * `save_upload` creates, but the generated name repeats the slash, so the
   * file would go one level further down, where nothing exists: with
   * nothing stored below the compound directory the write fails with
   * `FileNotFoundError` on the file's path.
   */
  lemma NestedIdNotSaved(tree: map<string, Node>, uploadDir: string, content: seq<byte>, original: string,
                         cid: string, top: string, rest: string, stamp: string, clock: Instant, uuid: string, dirSize: nat)
    requires cid == top + "/" + rest && top != [] && Free(top, '/')
    requires Grounded(tree) && Trimmed(CompoundDir(uploadDir, cid))
    requires !Blocked(tree, CompoundDir(uploadDir, cid))
    requires forall q :: q in tree ==> !StartsWith(q, CompoundDir(uploadDir, cid) + "/")
    ensures SaveUploadStep(tree, uploadDir, content, original, cid, stamp, clock, uuid, dirSize).1
      == Err(FileNotFound(UploadPath(uploadDir, original, cid, stamp, uuid)))
  {
    var dir := CompoundDir(uploadDir, cid);
    var path := UploadPath(uploadDir, original, cid, stamp, uuid);
    assert |Dirname(path)| > |dir| && StartsWith(path, dir + "/") by {
      NestedPath(uploadDir, original, top, rest, stamp, uuid);
    }
    var made := MakeDirsStep(tree, dir, clock, dirSize);
    MakeDirsOutcome(tree, dir, clock, dirSize);
    assert forall q :: q in made.0 ==> !StartsWith(q, dir + "/") by {
      MakeDirsAdds(tree, dir, clock, dirSize);
      forall q | q in made.0 ensures !StartsWith(q, dir + "/") {
        if q !in tree && q != dir {
          AncestorShorter(q, dir);
        }
      }
    }
    ParentErrorBelow(made.0, dir, path);
    assert WriteStep(made.0, path, content, clock) == Err(FileNotFound(path));
  }

  /** The file for a compound id `top/rest` lives below the compound directory, more than one level down. */
  lemma NestedPath(uploadDir: string, original: string, top: string, rest: string, stamp: string, uuid: string)
    requires top != [] && Free(top, '/') && Trimmed(CompoundDir(uploadDir, top + "/" + rest))
    ensures var dir := CompoundDir(uploadDir, top + "/" + rest);
      var path := UploadPath(uploadDir, original, top + "/" + rest, stamp, uuid);
      |Dirname(path)| > |dir| && StartsWith(path, dir + "/")
  {
    var cid := top + "/" + rest;
    var dir := CompoundDir(uploadDir, cid);
    var name := GenerateFilename(original, cid, stamp, uuid);
    var path := UploadPath(uploadDir, original, cid, stamp, uuid);
    NestedName(original, top, rest, stamp, uuid);
    assert path == dir + "/" + name;
    var n := |dir| + 1 + |top|;
    assert path[n] == name[|top|] && path[n - 1] == name[|top| - 1];
    SplitHeadAtLeast(path, n);
    assert path[..|dir| + 1] == dir + "/";
  }

  /** The name generated for a compound id `top/rest` starts with `top` and then a slash. */
  lemma NestedName(original: string, top: string, rest: string, stamp: string, uuid: string)
    requires top != [] && Free(top, '/')
    ensures var name := GenerateFilename(original, top + "/" + rest, stamp, uuid);
      |name| > |top| && name[0] != '/' && name[|top|] == '/' && name[|top| - 1] != '/'
  {
    var cid := top + "/" + rest;
    var name := GenerateFilename(original, cid, stamp, uuid);
    assert name[..|cid| + 1] == cid + "_";
    assert name[0] == cid[0] == top[0];
    assert name[|top|] == cid[|top|];
    assert name[|top| - 1] == cid[|top| - 1] == top[|top| - 1];
  }



  /**
   * `delete_file`: true when the path was a file, which is now gone; false,
   * with nothing changed, when it does not exist or is a directory (the
   * error `os.remove` raises there is caught).
   */
  function DeleteStep(tree: map<string, Node>, path: string): (r: (map<string, Node>, bool))
    ensures r.1 <==> path in tree && tree[path].File?
    ensures path !in r.0 || !r.1
    ensures r.0.Keys == if r.1 then tree.Keys - {path} else tree.Keys
    ensures forall p :: p in r.0 ==> r.0[p] == tree[p]
  {
    if path in tree && tree[path].File? then (tree - {path}, true) else (tree, false)
  }

  /** What `get_file_info` reports: the path, the `stat` size and the two times. */
  datatype FileInfo = FileInfo(path: string, size: nat, created: Instant, modified: Instant)

  /** `get_file_info`: None for a missing path, otherwise the node's size and times. */
  function GetFileInfo(tree: map<string, Node>, path: string): (r: Option<FileInfo>)
    ensures r.None? <==> path !in tree
    ensures r.Some? ==> r.value.path == path && r.value.created == tree[path].changed && r.value.modified == tree[path].modified
    ensures r.Some? && tree[path].File? ==> r.value.size == |tree[path].content|
    ensures r.Some? && tree[path].Directory? ==> r.value.size == tree[path].size
  {
    if path !in tree then None
    else
      var node := tree[path];
      Some(FileInfo(path, if node.File? then |node.content| else node.size, node.changed, node.modified))
  }

  /** A saved upload is found with the size of its bytes; deleting it succeeds and it is then gone. */
  lemma SaveThenInspectAndDelete(tree: map<string, Node>, uploadDir: string, content: seq<byte>, original: string,
                                 compoundId: string, stamp: string, clock: Instant, uuid: string, dirSize: nat)
    requires SaveUploadStep(tree, uploadDir, content, original, compoundId, stamp, clock, uuid, dirSize).1.Ok?
    ensures var (saved, r) := SaveUploadStep(tree, uploadDir, content, original, compoundId, stamp, clock, uuid, dirSize);
      GetFileInfo(saved, r.value) == Some(FileInfo(r.value, |content|, clock, clock))
      && DeleteStep(saved, r.value).1
      && GetFileInfo(DeleteStep(saved, r.value).0, r.value).None?
  {
  }

  /** Deleting twice: the second call finds nothing and answers false. */
  lemma DeleteTwice(tree: map<string, Node>, path: string)
    ensures var once := DeleteStep(tree, path).0; DeleteStep(once, path) == (once, false)
  {
  }

  /**
   * With a slash-free compound id and random id, the upload lands directly in
   * the compound's directory under the generated name.
   */
  lemma SavedInCompoundDirectory(uploadDir: string, original: string, compoundId: string, stamp: string, uuid: string)
    requires compoundId != [] && Free(compoundId, '/') && Free(stamp, '/') && Free(uuid, '/')
    ensures var name := GenerateFilename(original, compoundId, stamp, uuid);
      UploadPath(uploadDir, original, compoundId, stamp, uuid) == CompoundDir(uploadDir, compoundId) + "/" + name
      && Basename(UploadPath(uploadDir, original, compoundId, stamp, uuid)) == name
  {
    var name := GenerateFilename(original, compoundId, stamp, uuid);
    GeneratedNameFree(original, compoundId, stamp, uuid);
    JoinUnderCompound(uploadDir, compoundId, name);
  }

  /** A name generated from slash-free parts has no slash. */
  lemma GeneratedNameFree(original: string, compoundId: string, stamp: string, uuid: string)
    requires Free(compoundId, '/') && Free(stamp, '/') && Free(uuid, '/')
    ensures GenerateFilename(original, compoundId, stamp, uuid) != []
    ensures Free(GenerateFilename(original, compoundId, stamp, uuid), '/')
  {
    var t := Take(uuid, 8);
    assert forall i :: 0 <= i < |t| ==> t[i] == uuid[i];
    JoinedFree(compoundId, stamp, t, Extension(original), '/');
  }

  /** A name not starting with a slash, joined to a slash-free compound's directory, is put just below it. */
  lemma JoinUnderCompound(uploadDir: string, compoundId: string, name: string)
    requires compoundId != [] && Free(compoundId, '/') && Free(name, '/') && name != []
    ensures JoinPath(CompoundDir(uploadDir, compoundId), name) == CompoundDir(uploadDir, compoundId) + "/" + name
    ensures Basename(JoinPath(CompoundDir(uploadDir, compoundId), name)) == name
  {
    var dir := CompoundDir(uploadDir, compoundId);
    assert dir[|dir| - |compoundId|..] == compoundId;
    assert dir[|dir| - 1] == compoundId[|compoundId| - 1];
    BasenameOfJoin(dir, name);
  }

  lemma StampFree(d: DateTime)
    requires ValidDateTime(d)
    ensures Free(Stamp(d), '/')
  {
    var s := Stamp(d);
    forall i | 0 <= i < 15 ensures s[i] != '/' {
      if i < 8 {
        assert IsDigit(s[..8][i]);
      } else if i > 8 {
        assert IsDigit(s[9..][i - 9]);
      }
    }
  }

  lemma JoinedFree(a: string, b: string, c: string, d: string, ch: char)
    requires Free(a, ch) && Free(b, ch) && Free(c, ch) && Free(d, ch) && ch != '_'
    ensures Free(Joined(a, b, c, d), ch)
  {
    FreeConcat(a, "_", ch);
    FreeConcat(a + "_", b, ch);
    FreeConcat(a + "_" + b, "_", ch);
    FreeConcat(a + "_" + b + "_", c, ch);
    FreeConcat(a + "_" + b + "_" + c, d, ch);
  }

  // ----- the stateful objects -----

  /** The host file system. */
  class FileSystem {
    var tree: map<string, Node>

    constructor(tree: map<string, Node>)
      ensures this.tree == tree
    {
      this.tree := tree;
    }

    /** `os.makedirs(name, exist_ok=True)`, walking up the path as `MakeDirsStep` does. */
    method MakeDirs(name: string, clock: Instant, dirSize: nat) returns (r: Option<FsError>)
      modifies this
      ensures (tree, r) == MakeDirsStep(old(tree), name, clock, dirSize)
      decreases |name|
    {
      ghost var pre := MakeHead(tree, name, clock, dirSize);
      var head := MakeDirsSplit(name).0;
      if HasHead(name) && head !in tree {
        var e := MakeDirs(head, clock, dirSize);
        if e.Some? && !e.value.FileExists? {
          return e;
        }
      }
      assert tree == pre.0 && pre.1.None?;
      var made := MkDir(tree, name, clock, dirSize);
      if made.Ok? {
        tree := made.value;
        r := None;
      } else {
        r := if IsDir(tree, name) then None else Some(made.error);
      }
    }

    method Write(path: string, content: seq<byte>, clock: Instant) returns (r: Result<(), FsError>)
      modifies this
      ensures var step := WriteStep(old(tree), path, content, clock);
        (r.Ok? <==> step.Ok?) && tree == (if step.Ok? then step.value else old(tree))
        && (r.Err? ==> r.error == step.error)
    {
      if path == [] {
        return Err(FileNotFound(path));
      }
      var unresolved := ParentError(tree, path);
      if unresolved.Some? {
        return Err(unresolved.value);
      }
      if IsDir(tree, path) {
        return Err(IsADirectory(path));
      }
      tree := tree[path := File(content, clock, clock)];
      r := Ok(());
    }
  }

  /** `FileManager`: the upload directory it stores files under. */
  class Store {
    const uploadDir: string

    /**
     * `__init__` with `_ensure_upload_dir`: the directory exists afterwards.
     * When `os.makedirs` fails construction raises; the model requires it does not.
     */
    constructor(uploadDir: string, fs: FileSystem, clock: Instant, dirSize: nat)
      requires MakeDirsStep(fs.tree, uploadDir, clock, dirSize).1.None?
      modifies fs
      ensures this.uploadDir == uploadDir
      ensures fs.tree == MakeDirsStep(old(fs.tree), uploadDir, clock, dirSize).0
    {
      this.uploadDir := uploadDir;
      var _ := fs.MakeDirs(uploadDir, clock, dirSize);
    }

    method SaveUpload(fs: FileSystem, content: seq<byte>, original: string, compoundId: string,
                      now: DateTime, clock: Instant, uuid: string, dirSize: nat)
      returns (r: Result<string, FsError>)
      requires ValidDateTime(now)
      modifies fs
      ensures (fs.tree, r) == SaveUploadStep(old(fs.tree), uploadDir, content, original, compoundId, Stamp(now), clock, uuid, dirSize)
    {
      var dir := CompoundDir(uploadDir, compoundId);
      var made := fs.MakeDirs(dir, clock, dirSize);
      if made.Some? {
        return Err(made.value);
      }
      var path := UploadPath(uploadDir, original, compoundId, Stamp(now), uuid);
      var written := fs.Write(path, content, clock);
      if written.Err? {
        return Err(written.error);
      }
      r := Ok(path);
    }

    method DeleteFile(fs: FileSystem, path: string) returns (r: bool)
      modifies fs
      ensures (fs.tree, r) == DeleteStep(old(fs.tree), path)
    {
      if path in fs.tree {
        if fs.tree[path].Directory? {
          // `os.remove` raises on a directory; the error is caught.
          return false;
        }
        fs.tree := fs.tree - {path};
        return true;
      }
      r := false;
    }
  }
}
