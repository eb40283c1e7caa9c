// The batch result cache (`batch_data_cache`): at most one row per compound
// and template, written by an UPDATE followed by an INSERT when the UPDATE
// touched no row, read by key, deleted with a row count and summarised; and
// the directory fingerprint a local cache entry is checked against.
module ResultCache {
  import opened Wrappers
  import opened Models
  import opened Text
  import opened AiExtractor

  /** A row of `batch_data_cache`; `batchData` is the stored list of records. */
  datatype CacheRow = CacheRow(
    compoundId: string, templateId: string,
    batchData: seq<BatchInfo>, fileHashes: seq<string>, totalFiles: nat, processedFiles: seq<string>,
    createdAt: Instant, updatedAt: Instant)

  predicate Keyed(r: CacheRow, compoundId: string, templateId: string) {
    r.compoundId == compoundId && r.templateId == templateId
  }

  /** `UNIQUE(compound_id, template_id)` */
  predicate UniqueKeys(rows: seq<CacheRow>) {
    forall i, j :: 0 <= i < |rows| && 0 <= j < |rows| && Keyed(rows[i], rows[j].compoundId, rows[j].templateId) ==> i == j
  }

  /** The number of rows holding the key: what an UPDATE or DELETE on it reports. */
  function Count(rows: seq<CacheRow>, compoundId: string, templateId: string): (n: nat)
    ensures n <= |rows|
    ensures n == 0 <==> forall i :: 0 <= i < |rows| ==> !Keyed(rows[i], compoundId, templateId)
  {
    if rows == [] then 0
    else
      var front := rows[..|rows| - 1];
      assert forall i :: 0 <= i < |front| ==> front[i] == rows[i];
      Count(front, compoundId, templateId) + (if Keyed(rows[|rows| - 1], compoundId, templateId) then 1 else 0)
  }

  /** Under the uniqueness constraint a key is held by at most one row. */
  lemma {:induction false} CountAtMostOne(rows: seq<CacheRow>, compoundId: string, templateId: string)
    requires UniqueKeys(rows)
    ensures Count(rows, compoundId, templateId) <= 1
    decreases |rows|
  {
    if rows != [] {
      var n := |rows| - 1;
      var front := rows[..n];
      assert UniqueKeys(front) by {
        forall i, j | 0 <= i < |front| && 0 <= j < |front| && Keyed(front[i], front[j].compoundId, front[j].templateId)
          ensures i == j
        {
          assert front[i] == rows[i] && front[j] == rows[j];
        }
      }
      CountAtMostOne(front, compoundId, templateId);
      if Keyed(rows[n], compoundId, templateId) {
        forall i | 0 <= i < |front| ensures !Keyed(front[i], compoundId, templateId) {
          assert front[i] == rows[i];
        }
      }
    }
  }

  /** What `get_cache_record` returns for a row. */
  datatype CacheRecord = CacheRecord(
    batchData: seq<BatchInfo>, lastUpdated: Instant, totalFiles: nat,
    processedFiles: seq<string>, fileHashes: seq<string>)

  function RecordOf(r: CacheRow): CacheRecord {
    CacheRecord(r.batchData, r.updatedAt, r.totalFiles, r.processedFiles, r.fileHashes)
  }

  /** A row holding the key (`fetchone`); with the key unique there is at most one. */
  function Find(rows: seq<CacheRow>, compoundId: string, templateId: string): (r: Option<nat>)
    ensures r.Some? ==> r.value < |rows| && Keyed(rows[r.value], compoundId, templateId)
    ensures r.None? <==> Count(rows, compoundId, templateId) == 0
  {
    if rows == [] then None
    else if Keyed(rows[|rows| - 1], compoundId, templateId) then Some(|rows| - 1)
    else
      var front := rows[..|rows| - 1];
      assert forall i :: 0 <= i < |front| ==> front[i] == rows[i];
      Find(front, compoundId, templateId)
  }

  /**
   * `get_cache_record`: the record of the key's row; `None` when there is no
   * such row, and also when the query fails (`fault`), since the error is
   * swallowed.
   */
  function Lookup(rows: seq<CacheRow>, compoundId: string, templateId: string, fault: bool): (r: Option<CacheRecord>)
    ensures r.Some? <==> !fault && Count(rows, compoundId, templateId) > 0
    ensures r.Some? ==> exists i :: 0 <= i < |rows| && Keyed(rows[i], compoundId, templateId) && r.value == RecordOf(rows[i])
  {
    if fault then None
    else match Find(rows, compoundId, templateId)
      case None => None
      case Some(i) => Some(RecordOf(rows[i]))
  }

  /** With unique keys, the record found is that of the key's one row. */
  lemma LookupUnique(rows: seq<CacheRow>, i: nat)
    requires UniqueKeys(rows) && i < |rows|
    ensures Lookup(rows, rows[i].compoundId, rows[i].templateId, false) == Some(RecordOf(rows[i]))
  {
    var j := Find(rows, rows[i].compoundId, rows[i].templateId).value;
    assert Keyed(rows[j], rows[i].compoundId, rows[i].templateId);
  }

  // ----- update_cache_record -----

  /** The columns the UPDATE sets; `total_files` is the number of records, not of files. */
  function Refresh(r: CacheRow, batchData: seq<BatchInfo>, fileHashes: seq<string>, processedFiles: seq<string>, now: Instant)
    : CacheRow
  {
    r.(batchData := batchData, fileHashes := fileHashes, totalFiles := |batchData|,
       processedFiles := processedFiles, updatedAt := now)
  }

  /** A row as the UPDATE leaves it. */
  function Touch(r: CacheRow, compoundId: string, templateId: string, batchData: seq<BatchInfo>,
                 fileHashes: seq<string>, processedFiles: seq<string>, now: Instant): CacheRow
  {
    if Keyed(r, compoundId, templateId) then Refresh(r, batchData, fileHashes, processedFiles, now) else r
  }

  /** The row the INSERT adds. */
  function NewRow(compoundId: string, templateId: string, batchData: seq<BatchInfo>, fileHashes: seq<string>,
                  processedFiles: seq<string>, now: Instant): CacheRow
  {
    CacheRow(compoundId, templateId, batchData, fileHashes, |batchData|, processedFiles, now, now)
  }

  /** The table after the UPDATE: every row holding the key refreshed, the rest as they were. */
  function UpdateRows(rows: seq<CacheRow>, compoundId: string, templateId: string, batchData: seq<BatchInfo>,
                      fileHashes: seq<string>, processedFiles: seq<string>, now: Instant): (r: seq<CacheRow>)
    ensures |r| == |rows|
    ensures forall i :: 0 <= i < |rows| ==> r[i] == Touch(rows[i], compoundId, templateId, batchData, fileHashes, processedFiles, now)
  {
    seq(|rows|, i requires 0 <= i < |rows| => Touch(rows[i], compoundId, templateId, batchData, fileHashes, processedFiles, now))
  }

  /** The UPDATE statement: every row holding the key rewritten, and the number of rows it touched. */
  method TouchRows(current: seq<CacheRow>, compoundId: string, templateId: string, batchData: seq<BatchInfo>,
                   fileHashes: seq<string>, processedFiles: seq<string>, now: Instant)
    returns (updated: seq<CacheRow>, touched: nat)
    ensures updated == UpdateRows(current, compoundId, templateId, batchData, fileHashes, processedFiles, now)
    ensures touched == Count(current, compoundId, templateId)
  {
    updated := [];
    touched := 0;
    var i := 0;
    while i < |current|
      invariant 0 <= i <= |current|
      invariant |updated| == i
      invariant forall k :: 0 <= k < i ==> updated[k] == Touch(current[k], compoundId, templateId, batchData, fileHashes, processedFiles, now)
      invariant touched == Count(current[..i], compoundId, templateId)
    {
      CountPrefixStep(current, i, compoundId, templateId);
      updated := updated + [Touch(current[i], compoundId, templateId, batchData, fileHashes, processedFiles, now)];
      if Keyed(current[i], compoundId, templateId) {
        touched := touched + 1;
      }
      i := i + 1;
    }
    assert current[..i] == current;
  }

  /** Counting one more row of a prefix adds one exactly when that row holds the key. */
  lemma CountPrefixStep(rows: seq<CacheRow>, i: nat, compoundId: string, templateId: string)
    requires i < |rows|
    ensures Count(rows[..i + 1], compoundId, templateId)
         == Count(rows[..i], compoundId, templateId) + if Keyed(rows[i], compoundId, templateId) then 1 else 0
  {
    assert rows[..i + 1][..i] == rows[..i];
  }

  /** UPDATE, then INSERT when the UPDATE touched no row. */
  function Upserted(rows: seq<CacheRow>, compoundId: string, templateId: string, batchData: seq<BatchInfo>,
                    fileHashes: seq<string>, processedFiles: seq<string>, now: Instant): seq<CacheRow>
  {
    UpdateRows(rows, compoundId, templateId, batchData, fileHashes, processedFiles, now)
      + if Count(rows, compoundId, templateId) == 0
        then [NewRow(compoundId, templateId, batchData, fileHashes, processedFiles, now)] else []
  }

  /**
   * A successful `update_cache_record` keeps the constraint and leaves exactly
   * one row for the key, holding the new records, hashes and files with
   * `total_files` the number of records.
   */
  lemma UpsertedEntry(rows: seq<CacheRow>, compoundId: string, templateId: string, batchData: seq<BatchInfo>,
                      fileHashes: seq<string>, processedFiles: seq<string>, now: Instant)
    requires UniqueKeys(rows)
    ensures var r := Upserted(rows, compoundId, templateId, batchData, fileHashes, processedFiles, now);
      UniqueKeys(r) && Count(r, compoundId, templateId) == 1
      && Lookup(r, compoundId, templateId, false).Some?
      && var e := Lookup(r, compoundId, templateId, false).value;
         e.batchData == batchData && e.fileHashes == fileHashes && e.processedFiles == processedFiles
         && e.totalFiles == |batchData| && e.lastUpdated == now
  {
    var u := UpdateRows(rows, compoundId, templateId, batchData, fileHashes, processedFiles, now);
    var r := Upserted(rows, compoundId, templateId, batchData, fileHashes, processedFiles, now);
    forall i | 0 <= i < |rows| ensures u[i].compoundId == rows[i].compoundId && u[i].templateId == rows[i].templateId {
    }
    assert forall i :: 0 <= i < |u| ==> r[i] == u[i];
    assert UniqueKeys(r);
    CountAtMostOne(r, compoundId, templateId);
    var k := Find(r, compoundId, templateId);
    if Count(rows, compoundId, templateId) == 0 {
      assert Keyed(r[|u|], compoundId, templateId);
    } else {
      var j := Find(rows, compoundId, templateId).value;
      assert Keyed(r[j], compoundId, templateId);
    }
    LookupUnique(r, k.value);
  }

  /** `update_cache_record` never changes the entry of any other key. */
  lemma UpsertIsolated(rows: seq<CacheRow>, compoundId: string, templateId: string, batchData: seq<BatchInfo>,
                       fileHashes: seq<string>, processedFiles: seq<string>, now: Instant, c: string, t: string)
    requires UniqueKeys(rows) && (c != compoundId || t != templateId)
    ensures Lookup(Upserted(rows, compoundId, templateId, batchData, fileHashes, processedFiles, now), c, t, false)
         == Lookup(rows, c, t, false)
  {
    var u := UpdateRows(rows, compoundId, templateId, batchData, fileHashes, processedFiles, now);
    var r := Upserted(rows, compoundId, templateId, batchData, fileHashes, processedFiles, now);
    assert forall i :: 0 <= i < |u| ==> r[i] == u[i];
    UpsertedEntry(rows, compoundId, templateId, batchData, fileHashes, processedFiles, now);
    if Count(rows, c, t) > 0 {
      var j := Find(rows, c, t).value;
      LookupUnique(rows, j);
      assert r[j] == rows[j];
      LookupUnique(r, j);
    } else {
      forall i | 0 <= i < |r| ensures !Keyed(r[i], c, t) {
        if i < |u| {
          assert r[i] == u[i];
        }
      }
    }
  }

  // ----- delete_cache_record -----

  /** The rows that do not hold the key, in order. */
  function Without(rows: seq<CacheRow>, compoundId: string, templateId: string): (r: seq<CacheRow>)
    ensures |r| + Count(rows, compoundId, templateId) == |rows|
    ensures forall i :: 0 <= i < |r| ==> !Keyed(r[i], compoundId, templateId)
    ensures forall i :: 0 <= i < |r| ==> r[i] in rows
    ensures forall i :: 0 <= i < |rows| && !Keyed(rows[i], compoundId, templateId) ==> rows[i] in r
  {
    if rows == [] then []
    else
      var front := rows[..|rows| - 1];
      var last := rows[|rows| - 1];
      assert rows == front + [last];
      FilterStep(front, last, Without(front, compoundId, templateId), compoundId, templateId);
      Without(front, compoundId, templateId) + if Keyed(last, compoundId, templateId) then [] else [last]
  }

  /** One more row keeps the properties of the filtered rows. */
  lemma FilterStep(front: seq<CacheRow>, last: CacheRow, kept: seq<CacheRow>, compoundId: string, templateId: string)
    requires |kept| + Count(front, compoundId, templateId) == |front|
    requires forall i :: 0 <= i < |kept| ==> !Keyed(kept[i], compoundId, templateId)
    requires forall i :: 0 <= i < |kept| ==> kept[i] in front
    requires forall i :: 0 <= i < |front| && !Keyed(front[i], compoundId, templateId) ==> front[i] in kept
    ensures var rows := front + [last];
      var r := kept + if Keyed(last, compoundId, templateId) then [] else [last];
      |r| + Count(rows, compoundId, templateId) == |rows|
      && (forall i :: 0 <= i < |r| ==> !Keyed(r[i], compoundId, templateId))
      && (forall i :: 0 <= i < |r| ==> r[i] in rows)
      && (forall i :: 0 <= i < |rows| && !Keyed(rows[i], compoundId, templateId) ==> rows[i] in r)
  {
    var rows := front + [last];
    var r := kept + if Keyed(last, compoundId, templateId) then [] else [last];
    assert rows[..|rows| - 1] == front;
    forall i | 0 <= i < |r| ensures r[i] in rows {
      if i < |kept| { assert r[i] == kept[i]; } else { assert r[i] == rows[|rows| - 1]; }
    }
    forall i | 0 <= i < |rows| && !Keyed(rows[i], compoundId, templateId) ensures rows[i] in r {
      if i < |front| { assert rows[i] == front[i]; } else { assert r[|r| - 1] == last; }
    }
  }

  /**
   * After a delete the key has no row, every other key keeps its entry, and the
   * count reported is at most one.
   */
  lemma DeleteEffect(rows: seq<CacheRow>, compoundId: string, templateId: string, c: string, t: string)
    requires UniqueKeys(rows)
    ensures Count(rows, compoundId, templateId) <= 1
    ensures Lookup(Without(rows, compoundId, templateId), compoundId, templateId, false) == None
    ensures c != compoundId || t != templateId ==>
      Lookup(Without(rows, compoundId, templateId), c, t, false) == Lookup(rows, c, t, false)
  {
    CountAtMostOne(rows, compoundId, templateId);
    if c != compoundId || t != templateId {
      if Count(rows, c, t) > 0 {
        DeleteKeepsPresent(rows, compoundId, templateId, c, t);
      } else {
        DeleteKeepsAbsent(rows, compoundId, templateId, c, t);
      }
    }
  }

  lemma DeleteKeepsPresent(rows: seq<CacheRow>, compoundId: string, templateId: string, c: string, t: string)
    requires UniqueKeys(rows) && (c != compoundId || t != templateId) && Count(rows, c, t) > 0
    ensures Lookup(Without(rows, compoundId, templateId), c, t, false) == Lookup(rows, c, t, false)
  {
    var w := Without(rows, compoundId, templateId);
    var j := Find(rows, c, t).value;
    LookupUnique(rows, j);
    assert rows[j] in w;
    var k :| 0 <= k < |w| && w[k] == rows[j];
    WithoutKeepsUnique(rows, compoundId, templateId);
    LookupUnique(w, k);
  }

  lemma DeleteKeepsAbsent(rows: seq<CacheRow>, compoundId: string, templateId: string, c: string, t: string)
    requires Count(rows, c, t) == 0
    ensures Lookup(Without(rows, compoundId, templateId), c, t, false) == None
  {
    var w := Without(rows, compoundId, templateId);
    forall i | 0 <= i < |w| ensures !Keyed(w[i], c, t) {
      assert w[i] in rows;
    }
  }

  lemma WithoutKeepsUnique(rows: seq<CacheRow>, compoundId: string, templateId: string)
    requires UniqueKeys(rows)
    ensures UniqueKeys(Without(rows, compoundId, templateId))
  {
    var w := Without(rows, compoundId, templateId);
    forall a, b | 0 <= a < |w| && 0 <= b < |w| && Keyed(w[a], w[b].compoundId, w[b].templateId) ensures a == b {
      WithoutUnique(rows, compoundId, templateId, a, b);
    }
  }

  /** Two positions of the filtered rows holding one key are one position. */
  lemma {:induction false} WithoutUnique(rows: seq<CacheRow>, compoundId: string, templateId: string, a: nat, b: nat)
    requires UniqueKeys(rows)
    requires a < |Without(rows, compoundId, templateId)| && b < |Without(rows, compoundId, templateId)|
    requires var w := Without(rows, compoundId, templateId); Keyed(w[a], w[b].compoundId, w[b].templateId)
    ensures a == b
    decreases |rows|
  {
    var front := rows[..|rows| - 1];
    var last := rows[|rows| - 1];
    var wf := Without(front, compoundId, templateId);
    var w := Without(rows, compoundId, templateId);
    assert forall i :: 0 <= i < |wf| ==> w[i] == wf[i];
    assert UniqueKeys(front) by {
      forall i, j | 0 <= i < |front| && 0 <= j < |front| && Keyed(front[i], front[j].compoundId, front[j].templateId)
        ensures i == j
      {
        assert front[i] == rows[i] && front[j] == rows[j];
      }
    }
    if a < |wf| && b < |wf| {
      WithoutUnique(front, compoundId, templateId, a, b);
    }
  }

  // ----- get_cache_status -----

  /** The three aggregates: `COUNT(*)`, `MAX(updated_at)` and `SUM(total_files)`, both NULL on an empty table. */
  datatype CacheStats = CacheStats(totalRecords: nat, lastUpdated: Option<Instant>, totalCachedFiles: Option<nat>)

  function Latest(rows: seq<CacheRow>): (m: Option<Instant>)
    ensures m.None? <==> rows == []
    ensures m.Some? ==> forall i :: 0 <= i < |rows| ==> rows[i].updatedAt <= m.value
    ensures m.Some? ==> exists i :: 0 <= i < |rows| && rows[i].updatedAt == m.value
  {
    if rows == [] then None
    else
      var front := rows[..|rows| - 1];
      var last := rows[|rows| - 1].updatedAt;
      assert forall i :: 0 <= i < |front| ==> front[i] == rows[i];
      match Latest(front)
      case None => Some(last)
      case Some(m) => Some(if m < last then last else m)
  }

  function FilesTotal(rows: seq<CacheRow>): nat {
    if rows == [] then 0 else FilesTotal(rows[..|rows| - 1]) + rows[|rows| - 1].totalFiles
  }

  function StatsOf(rows: seq<CacheRow>): CacheStats {
    CacheStats(|rows|, Latest(rows), if rows == [] then None else Some(FilesTotal(rows)))
  }

  /** The figures reported when the aggregate query fails. */
  const NoStats: CacheStats := CacheStats(0, None, Some(0))

  // ----- the directory fingerprint -----

  /** `os.stat`: the size and the modification time in microseconds. */
  datatype Stat = Stat(size: nat, mtime: int)

  /** A directory entry; `stat` is `None` when `os.stat` fails on it (a dangling link). */
  datatype DirEntry = DirEntry(name: string, stat: Option<Stat>)

  /** `glob('*.pdf')` matches names ending in `.pdf` that do not start with a dot. */
  predicate IsPdfName(name: string) {
    EndsWith(name, ".pdf") && name[0] != '.'
  }

  const Micro: int := 1_000_000

  /** `int(st_mtime)`: whole seconds, truncated toward zero. */
  function WholeSeconds(mtime: int): (s: int)
    ensures 0 <= mtime ==> s * Micro <= mtime < (s + 1) * Micro
    ensures mtime < 0 ==> (s - 1) * Micro < mtime <= s * Micro
  {
    if mtime >= 0 then mtime / Micro else -((-mtime) / Micro)
  }

  /** `f"{filename}:{st_size}:{int(st_mtime)}"` */
  function FileHash(name: string, st: Stat): string {
    name + ":" + NatToString(st.size) + ":" + IntToString(WholeSeconds(st.mtime))
  }

  /** The hashes in listing order, up to the first entry whose `stat` fails. */
  function Hashes(entries: seq<DirEntry>): seq<string> {
    if entries == [] then []
    else if !IsPdfName(entries[0].name) then Hashes(entries[1..])
    else match entries[0].stat
      case None => []
      case Some(st) => [FileHash(entries[0].name, st)] + Hashes(entries[1..])
  }

  /** What `calculate_file_hashes` returns: the hashes, sorted. */
  function Fingerprint(entries: seq<DirEntry>): seq<string> {
    SortStrings(Hashes(entries))
  }

  /** `calculate_file_hashes` over a listing in `glob` order. */
  method CalculateFileHashes(entries: seq<DirEntry>) returns (hashes: seq<string>)
    ensures hashes == Fingerprint(entries)
  {
    var acc: seq<string> := [];
    var i := 0;
    while i < |entries|
      invariant 0 <= i <= |entries|
      invariant acc + Hashes(entries[i..]) == Hashes(entries)
    {
      var e := entries[i];
      HashesAt(entries, i);
      if IsPdfName(e.name) {
        if e.stat.None? {
          assert acc + [] == acc;
          break;
        }
        var h := FileHash(e.name, e.stat.value);
        assert (acc + [h]) + Hashes(entries[i + 1..]) == acc + ([h] + Hashes(entries[i + 1..]));
        acc := acc + [h];
      }
      i := i + 1;
    }
    if i == |entries| {
      assert entries[i..] == [];
      assert acc + [] == acc;
    }
    hashes := SortStrings(acc);
  }

  /** One step of `Hashes` at position `i` of the listing. */
  lemma HashesAt(entries: seq<DirEntry>, i: nat)
    requires i < |entries|
    ensures !IsPdfName(entries[i].name) ==> Hashes(entries[i..]) == Hashes(entries[i + 1..])
    ensures IsPdfName(entries[i].name) && entries[i].stat.None? ==> Hashes(entries[i..]) == []
    ensures IsPdfName(entries[i].name) && entries[i].stat.Some? ==>
      Hashes(entries[i..]) == [FileHash(entries[i].name, entries[i].stat.value)] + Hashes(entries[i + 1..])
  {
    assert entries[i..][1..] == entries[i + 1..];
  }

  /** The fingerprint is ascending and holds one hash per listed PDF when every `stat` succeeds. */
  lemma FingerprintSorted(entries: seq<DirEntry>)
    ensures SortedStrings(Fingerprint(entries))
    ensures multiset(Fingerprint(entries)) == multiset(Hashes(entries))
  {
    SortStringsCorrect(Hashes(entries));
  }

  predicate AllStat(entries: seq<DirEntry>) {
    forall i :: 0 <= i < |entries| ==> entries[i].stat.Some?
  }

  lemma {:induction false} HashesAppend(a: seq<DirEntry>, b: seq<DirEntry>)
    requires AllStat(a)
    ensures Hashes(a + b) == Hashes(a) + Hashes(b)
    decreases |a|
  {
    if a != [] {
      var e := a[0];
      assert (a + b)[0] == e && (a + b)[1..] == a[1..] + b && e.stat.Some?;
      assert AllStat(a[1..]) by {
        forall i | 0 <= i < |a[1..]| ensures a[1..][i].stat.Some? {
          assert a[1..][i] == a[i + 1];
        }
      }
      HashesAppend(a[1..], b);
      if IsPdfName(e.name) {
        var h := FileHash(e.name, e.stat.value);
        assert Hashes(a + b) == [h] + Hashes(a[1..] + b);
        assert Hashes(a) == [h] + Hashes(a[1..]);
        assert [h] + (Hashes(a[1..]) + Hashes(b)) == ([h] + Hashes(a[1..])) + Hashes(b);
      } else {
        assert Hashes(a + b) == Hashes(a[1..] + b);
      }
    } else {
      assert a + b == b;
    }
  }

  /** Listing the same entries in another order gives the same fingerprint. */
  lemma {:induction false} FingerprintOrderFree(a: seq<DirEntry>, b: seq<DirEntry>)
    requires AllStat(a) && multiset(a) == multiset(b)
    ensures Fingerprint(a) == Fingerprint(b)
    decreases |a|
  {
    HashesPermuted(a, b);
    SortStringsOrderFree(Hashes(a), Hashes(b));
  }

  lemma {:induction false} HashesPermuted(a: seq<DirEntry>, b: seq<DirEntry>)
    requires AllStat(a) && multiset(a) == multiset(b)
    ensures multiset(Hashes(a)) == multiset(Hashes(b))
    decreases |a|
  {
    if a == [] {
      assert |b| == |multiset(b)| == 0;
    } else {
      assert a[0] in multiset(b);
      var j :| 0 <= j < |b| && b[j] == a[0];
      AllStatPermuted(a, b);
      var rest := RemoveAt(b, j);
      AllStatTail(a);
      HashesPermuted(a[1..], rest);
      HashesAppend([a[0]], a[1..]);
    }
  }

  lemma AllStatPermuted(a: seq<DirEntry>, b: seq<DirEntry>)
    requires AllStat(a) && multiset(a) == multiset(b)
    ensures AllStat(b)
  {
    forall i | 0 <= i < |b| ensures b[i].stat.Some? {
      assert b[i] in multiset(a);
    }
  }

  lemma AllStatTail(a: seq<DirEntry>)
    requires a != [] && AllStat(a)
    ensures AllStat(a[1..]) && multiset(a) == multiset{a[0]} + multiset(a[1..])
  {
    assert a == [a[0]] + a[1..];
    forall i | 0 <= i < |a[1..]| ensures a[1..][i].stat.Some? {
      assert a[1..][i] == a[i + 1];
    }
  }

  /**
   * `b` without position `j`, with its elements and its hashes those of `b`
   * less the removed entry's.
   */
  function RemoveAt(b: seq<DirEntry>, j: nat): (rest: seq<DirEntry>)
    requires j < |b| && AllStat(b)
    ensures multiset(rest) == multiset(b) - multiset{b[j]}
    ensures AllStat(rest)
    ensures multiset(Hashes(b)) == multiset(Hashes([b[j]])) + multiset(Hashes(rest))
  {
    var rest := b[..j] + b[j + 1..];
    RemoveAtElements(b, j);
    RemoveAtHashes(b, j);
    rest
  }

  lemma RemoveAtElements(b: seq<DirEntry>, j: nat)
    requires j < |b| && AllStat(b)
    ensures multiset(b[..j] + b[j + 1..]) == multiset(b) - multiset{b[j]}
    ensures AllStat(b[..j] + b[j + 1..])
  {
    var rest := b[..j] + b[j + 1..];
    assert b == b[..j] + [b[j]] + b[j + 1..];
    assert multiset(b) == multiset(b[..j]) + multiset{b[j]} + multiset(b[j + 1..]);
    forall i | 0 <= i < |rest| ensures rest[i].stat.Some? {
      if i < j {
        assert rest[i] == b[i];
      } else {
        assert rest[i] == b[i + 1];
      }
    }
  }

  lemma RemoveAtHashes(b: seq<DirEntry>, j: nat)
    requires j < |b| && AllStat(b)
    ensures multiset(Hashes(b)) == multiset(Hashes([b[j]])) + multiset(Hashes(b[..j] + b[j + 1..]))
  {
    SplitAround(b, j);
    AllStatPrefix(b, j);
    HashesWithout(b[..j], b[j], b[j + 1..]);
  }

  lemma SplitAround(b: seq<DirEntry>, j: nat)
    requires j < |b|
    ensures b == b[..j] + ([b[j]] + b[j + 1..])
  {
  }

  lemma HashesWithout(front: seq<DirEntry>, e: DirEntry, back: seq<DirEntry>)
    requires AllStat(front) && AllStat([e])
    ensures multiset(Hashes(front + ([e] + back))) == multiset(Hashes([e])) + multiset(Hashes(front + back))
  {
    HashesAppend(front, [e] + back);
    HashesAppend([e], back);
    HashesAppend(front, back);
    MiddleOut(Hashes(front), Hashes([e]), Hashes(back));
  }

  lemma AllStatPrefix(b: seq<DirEntry>, j: nat)
    requires j < |b| && AllStat(b)
    ensures AllStat(b[..j]) && AllStat([b[j]])
  {
    forall i | 0 <= i < j ensures b[..j][i].stat.Some? {
      assert b[..j][i] == b[i];
    }
  }

  /** Taking the middle part out of a sequence takes its elements out of the multiset. */
  lemma MiddleOut(x: seq<string>, y: seq<string>, z: seq<string>)
    ensures multiset(x + (y + z)) == multiset(y) + multiset(x + z)
  {
    assert multiset(x + (y + z)) == multiset(x) + (multiset(y) + multiset(z));
    assert multiset(x + z) == multiset(x) + multiset(z);
  }

  /** Rewriting a file within the same second and at the same size leaves its hash unchanged. */
  lemma SameSecondSameHash(name: string, size: nat, m1: int, m2: int)
    requires WholeSeconds(m1) == WholeSeconds(m2)
    ensures FileHash(name, Stat(size, m1)) == FileHash(name, Stat(size, m2))
  {
  }

  /** Whether the cached entry matches: the hash lists compared as sets (`set(a) == set(b)`). */
  predicate SameFiles(current: seq<string>, cached: seq<string>) {
    (set h | h in current) == (set h | h in cached)
  }

  /** The answer of `check_cache`. */
  datatype CacheCheck = Fresh(record: CacheRecord) | Changed | Missing

  function CheckCacheOf(rows: seq<CacheRow>, compoundId: string, templateId: string, fault: bool, current: seq<string>)
    : (r: CacheCheck)
    ensures r.Fresh? <==> Lookup(rows, compoundId, templateId, fault).Some?
                          && SameFiles(current, Lookup(rows, compoundId, templateId, fault).value.fileHashes)
    ensures r.Missing? <==> Lookup(rows, compoundId, templateId, fault).None?
  {
    match Lookup(rows, compoundId, templateId, fault)
    case None => Missing
    case Some(r) => if SameFiles(current, r.fileHashes) then Fresh(r) else Changed
  }

  /** A cache written from a listing is fresh for that listing, and for any reordering of it. */
  lemma FreshAfterWrite(rows: seq<CacheRow>, compoundId: string, templateId: string, batchData: seq<BatchInfo>,
                        processedFiles: seq<string>, now: Instant, entries: seq<DirEntry>, later: seq<DirEntry>)
    requires UniqueKeys(rows) && AllStat(entries) && multiset(later) == multiset(entries)
    ensures var r := Upserted(rows, compoundId, templateId, batchData, Fingerprint(entries), processedFiles, now);
      CheckCacheOf(r, compoundId, templateId, false, Fingerprint(later)).Fresh?
  {
    FingerprintOrderFree(entries, later);
    UpsertedEntry(rows, compoundId, templateId, batchData, Fingerprint(entries), processedFiles, now);
  }

  // ----- the table -----

  class CacheTable {
    var rows: seq<CacheRow>

    /** The table as `CREATE TABLE IF NOT EXISTS` leaves a new database: empty. */
    constructor()
      ensures rows == []
    {
      rows := [];
    }

    /**
     * `update_cache_record`. Any database error (`fault`) is rolled back and
     * reported as `false`.
     */
    method UpdateCacheRecord(compoundId: string, templateId: string, batchData: seq<BatchInfo>,
                             fileHashes: seq<string>, processedFiles: seq<string>, now: Instant, fault: bool)
      returns (ok: bool)
      modifies this
      ensures ok <==> !fault
      ensures rows == if fault then old(rows)
                      else Upserted(old(rows), compoundId, templateId, batchData, fileHashes, processedFiles, now)
    {
      if fault {
        return false;
      }
      var updated, touched := TouchRows(rows, compoundId, templateId, batchData, fileHashes, processedFiles, now);
      if touched == 0 {
        updated := updated + [NewRow(compoundId, templateId, batchData, fileHashes, processedFiles, now)];
      }
      rows := updated;
      ok := true;
    }

    /** `delete_cache_record`: the number of rows removed, or 0 with nothing removed on an error. */
    method DeleteCacheRecord(compoundId: string, templateId: string, fault: bool) returns (count: nat)
      modifies this
      ensures fault ==> count == 0 && rows == old(rows)
      ensures !fault ==> count == Count(old(rows), compoundId, templateId) && rows == Without(old(rows), compoundId, templateId)
    {
      if fault {
        return 0;
      }
      var kept: seq<CacheRow> := [];
      count := 0;
      var i := 0;
      while i < |rows|
        invariant 0 <= i <= |rows|
        invariant kept == Without(rows[..i], compoundId, templateId)
        invariant count == Count(rows[..i], compoundId, templateId)
      {
        assert rows[..i + 1][..i] == rows[..i];
        if Keyed(rows[i], compoundId, templateId) {
          count := count + 1;
        } else {
          kept := kept + [rows[i]];
        }
        i := i + 1;
      }
      assert rows[..i] == rows;
      rows := kept;
    }

    /** `get_cache_status`' aggregates; a failing query reports zero records. */
    method CacheStatus(fault: bool) returns (s: CacheStats)
      ensures s == if fault then NoStats else StatsOf(rows)
    {
      if fault {
        return NoStats;
      }
      var latest: Option<Instant> := None;
      var total := 0;
      var i := 0;
      while i < |rows|
        invariant 0 <= i <= |rows|
        invariant latest == Latest(rows[..i]) && total == FilesTotal(rows[..i])
      {
        assert rows[..i + 1][..i] == rows[..i];
        var u := rows[i].updatedAt;
        latest := if latest.None? || latest.value < u then Some(u) else latest;
        total := total + rows[i].totalFiles;
        i := i + 1;
      }
      assert rows[..i] == rows;
      s := CacheStats(|rows|, latest, if rows == [] then None else Some(total));
    }
  }
}
