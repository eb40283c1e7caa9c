// The processing endpoints: the local directory run with its result cache,
// the Veeva Vault run, the hybrid router that picks one of them, and the
// legacy upload. Each endpoint is a function from the tables, the cache and
// the collaborators' answers to the new state and the reply, and a method
// that performs it on the database, the cache table and the file system.
module Endpoints {
  import opened Wrappers
  import opened Text
  import opened Json
  import opened Models
  import opened Http
  import opened AiExtractor
  import opened DocStore
  import opened Pipeline
  import opened Streams
  import Vault = Veeva
  import ResultCache
  import Config
  import Schemas
  import Files = FileManager

  /** The `data` of a batch-processing reply; `cacheUpdated` only on a local run, `source` only from the Vault. */
  datatype BatchReply = BatchReply(
    processedFiles: seq<string>, failedFiles: seq<FailedEntry>, totalFiles: nat,
    batchData: seq<BatchInfo>, status: string, fromCache: bool,
    cacheUpdated: Option<bool>, source: Option<string>)

  const InternalError: HttpError := Fail(InternalServerError, "Internal Server Error")

  /** The reply built from a cached record. */
  function CachedReply(rec: ResultCache.CacheRecord, source: Option<string>): BatchReply {
    BatchReply(rec.processedFiles, [], rec.totalFiles, rec.batchData, "success", true, None, source)
  }

  /** The reply built from a run's outcomes: `success` when at least one document was processed. */
  function RunReply(os: seq<Outcome>, total: nat, cacheUpdated: Option<bool>, source: Option<string>): BatchReply {
    var processed := ProcessedNames(os);
    BatchReply(processed, FailedEntries(os), total, Batches(os),
               if processed != [] then "success" else "failed", false, cacheUpdated, source)
  }

  /** Whether `force_reprocess` is set; a missing or null flag is off. */
  predicate Forced(force: Option<bool>) {
    force == Some(true)
  }

  /**
   * A run's reply accounts for every document: each processed one gives a
   * name and a record read from that file, each failed one an entry, and the
   * rest were skipped; the run succeeds iff something was processed.
   */
  lemma RunReplyAccounts(os: seq<Outcome>, total: nat, cacheUpdated: Option<bool>, source: Option<string>)
    requires NamedAfterFile(os)
    ensures var reply := RunReply(os, total, cacheUpdated, source);
      |reply.processedFiles| == |reply.batchData|
      && |reply.batchData| + |reply.failedFiles| + SkippedCount(os) == |os|
      && (forall i :: 0 <= i < |reply.batchData| ==> reply.processedFiles[i] == reply.batchData[i].filename)
      && (reply.status == "success" <==> reply.batchData != [])
      && !reply.fromCache
  {
    OneOutcomeEach(os);
  }

  // ----- process_directory -----

  /** `glob("*.pdf")` over the directory listing, in listing order. */
  function Pdfs(entries: seq<ResultCache.DirEntry>): (ps: seq<ResultCache.DirEntry>)
    ensures |ps| <= |entries|
    ensures forall e :: e in ps <==> e in entries && ResultCache.IsPdfName(e.name)
  {
    if entries == [] then []
    else (if ResultCache.IsPdfName(entries[0].name) then [entries[0]] else []) + Pdfs(entries[1..])
  }

  const NoPdfsMessage: string :=
    "No PDF files found in directory: " + Config.PdfDirectory + ". Please upload PDF files first."

  /**
   * `process_directory` over the listing of the PDF directory: no PDF is a
   * 404; unless reprocessing is forced, a cached entry whose hashes equal the
   * directory's as a set is returned as it is; otherwise every PDF is run
   * and, when at least one record came out, the cache is rewritten with the
   * records, the names and the directory's hashes (a failed write is
   * ignored). A failed lookup is swallowed without a rollback, so the run
   * then starts in an aborted transaction. `ms` holds the id and time
   * minted for each PDF.
   */
  function DirectoryResult(t: Tables, rows: seq<ResultCache.CacheRow>, req: Schemas.DirectoryRequest,
                           entries: seq<ResultCache.DirEntry>, ms: seq<Minted>, env: Services, now: Instant,
                           lookupFault: bool, writeFault: bool)
    : (r: (Tables, seq<ResultCache.CacheRow>, Result<BatchReply, HttpError>))
    requires |ms| == |Pdfs(entries)|
    ensures r.2.Err? <==> Pdfs(entries) == []
    ensures r.2.Err? ==> r.2.error == Fail(NotFound, NoPdfsMessage)
    ensures r.2.Ok? && r.2.value.fromCache <==>
      Pdfs(entries) != [] && !Forced(req.forceReprocess)
      && ResultCache.CheckCacheOf(rows, req.compoundId, req.templateId, lookupFault, ResultCache.Fingerprint(entries)).Fresh?
    ensures r.2.Err? || r.2.value.fromCache ==> r.0 == t && r.1 == rows
  {
    var pdfs := Pdfs(entries);
    var check := ResultCache.CheckCacheOf(rows, req.compoundId, req.templateId, lookupFault,
                                          ResultCache.Fingerprint(entries));
    if pdfs == [] then (t, rows, Err(Fail(NotFound, NoPdfsMessage)))
    else if !Forced(req.forceReprocess) && check.Fresh? then (t, rows, Ok(CachedReply(check.record, None)))
    else DirectoryRun(t, rows, req, entries, ms, env, now, !Forced(req.forceReprocess) && lookupFault, writeFault)
  }

  /**
   * The run over the PDFs, `aborted` when it starts in an aborted
   * transaction: the tables after every file, the cache after the run, and
   * the reply.
   */
  function DirectoryRun(t: Tables, rows: seq<ResultCache.CacheRow>, req: Schemas.DirectoryRequest,
                        entries: seq<ResultCache.DirEntry>, ms: seq<Minted>, env: Services, now: Instant,
                        aborted: bool, writeFault: bool)
    : (r: (Tables, seq<ResultCache.CacheRow>, Result<BatchReply, HttpError>))
    requires |ms| == |Pdfs(entries)|
    ensures r.2.Ok? && !r.2.value.fromCache && r.2.value.source == None
  {
    var run := LocalRun(t, Pdfs(entries), req.compoundId, ms, env, aborted);
    (run.0, DirectoryCacheAfter(rows, req, entries, run.1, now, writeFault),
     Ok(RunReply(run.1, |Pdfs(entries)|, Some(Batches(run.1) != []), None)))
  }

  /** The cache after a local run: rewritten only when a record came out and the write succeeds. */
  function DirectoryCacheAfter(rows: seq<ResultCache.CacheRow>, req: Schemas.DirectoryRequest,
                               entries: seq<ResultCache.DirEntry>, os: seq<Outcome>, now: Instant, writeFault: bool)
    : seq<ResultCache.CacheRow>
  {
    if Batches(os) != [] && !writeFault
    then ResultCache.Upserted(rows, req.compoundId, req.templateId, Batches(os),
                              ResultCache.Fingerprint(entries), ProcessedNames(os), now)
    else rows
  }

  /** `process_directory`, run on the database and the cache table. */
  method ProcessDirectory(db: Database, cache: ResultCache.CacheTable, req: Schemas.DirectoryRequest,
                          entries: seq<ResultCache.DirEntry>, ms: seq<Minted>, env: Services, now: Instant,
                          lookupFault: bool, writeFault: bool)
    returns (r: Result<BatchReply, HttpError>)
    requires |ms| == |Pdfs(entries)|
    modifies db, cache
    ensures (db.State(), cache.rows, r)
      == DirectoryResult(old(db.State()), old(cache.rows), req, entries, ms, env, now, lookupFault, writeFault)
  {
    var pdfs := Pdfs(entries);
    if pdfs == [] {
      return Err(Fail(NotFound, NoPdfsMessage));
    }
    if !Forced(req.forceReprocess) {
      var cached := ResultCache.Lookup(cache.rows, req.compoundId, req.templateId, lookupFault);
      if cached.Some? {
        var current := ResultCache.CalculateFileHashes(entries);
        if ResultCache.SameFiles(current, cached.value.fileHashes) {
          return Ok(CachedReply(cached.value, None));
        }
      }
    }
    r := RunDirectory(db, cache, req, entries, pdfs, ms, env, now, !Forced(req.forceReprocess) && lookupFault,
                      writeFault);
  }

  /** The run part of `process_directory`: the loop over the PDFs, then the cache write. */
  method RunDirectory(db: Database, cache: ResultCache.CacheTable, req: Schemas.DirectoryRequest,
                      entries: seq<ResultCache.DirEntry>, pdfs: seq<ResultCache.DirEntry>, ms: seq<Minted>,
                      env: Services, now: Instant, aborted: bool, writeFault: bool)
    returns (r: Result<BatchReply, HttpError>)
    requires pdfs == Pdfs(entries) && |ms| == |pdfs|
    modifies db, cache
    ensures (db.State(), cache.rows, r)
      == DirectoryRun(old(db.State()), old(cache.rows), req, entries, ms, env, now, aborted, writeFault)
  {
    ghost var start := db.State();
    LocalStepperSteps(req.compoundId, env);
    LocalAbortAborts();
    var batches, processed, failed :=
      ProcessLocalFiles(db, pdfs, req.compoundId, ms, env, aborted, LocalStepper(req.compoundId, env), LocalAbort());
    ghost var os := LocalRun(start, pdfs, req.compoundId, ms, env, aborted).1;
    if batches != [] {
      var hashes := ResultCache.CalculateFileHashes(entries);
      var _ := cache.UpdateCacheRecord(req.compoundId, req.templateId, batches, hashes, processed, now, writeFault);
    }
    r := Ok(BatchReply(processed, failed, |pdfs|, batches, if processed != [] then "success" else "failed",
                       false, Some(batches != []), None));
    assert r == Ok(RunReply(os, |pdfs|, Some(Batches(os) != []), None));
  }

  /**
   * The cache after a local run keeps one row per key, and when a record
   * came out and the write succeeded the entry holds exactly the run's
   * records, names and the directory's hashes, stamped now.
   */
  lemma DirectoryCacheWritten(rows: seq<ResultCache.CacheRow>, req: Schemas.DirectoryRequest,
                              entries: seq<ResultCache.DirEntry>, os: seq<Outcome>, now: Instant, writeFault: bool)
    requires ResultCache.UniqueKeys(rows)
    ensures var c := DirectoryCacheAfter(rows, req, entries, os, now, writeFault);
      ResultCache.UniqueKeys(c)
      && (Batches(os) == [] || writeFault ==> c == rows)
      && (Batches(os) != [] && !writeFault ==>
            ResultCache.Lookup(c, req.compoundId, req.templateId, false)
            == Some(ResultCache.CacheRecord(Batches(os), now, |Batches(os)|, ProcessedNames(os),
                                            ResultCache.Fingerprint(entries))))
  {
    ResultCache.UpsertedEntry(rows, req.compoundId, req.templateId, Batches(os), ResultCache.Fingerprint(entries),
                              ProcessedNames(os), now);
  }

  /**
   * A local run answers for every PDF found: the processed names and
   * records are parallel and name the same files, each PDF is processed,
   * failed or skipped, `cacheUpdated` says whether a record came out, and
   * the cache then holds that run's records.
   */
  lemma DirectoryRunAccounts(t: Tables, rows: seq<ResultCache.CacheRow>, req: Schemas.DirectoryRequest,
                             entries: seq<ResultCache.DirEntry>, ms: seq<Minted>, env: Services, now: Instant,
                             aborted: bool, writeFault: bool)
    requires |ms| == |Pdfs(entries)| && ResultCache.UniqueKeys(rows)
    ensures var r := DirectoryRun(t, rows, req, entries, ms, env, now, aborted, writeFault);
      var reply := r.2.value;
      var os := LocalRun(t, Pdfs(entries), req.compoundId, ms, env, aborted).1;
      reply.totalFiles == |Pdfs(entries)|
      && |reply.processedFiles| == |reply.batchData|
      && |reply.batchData| + |reply.failedFiles| + SkippedCount(os) == |Pdfs(entries)|
      && (forall i :: 0 <= i < |reply.batchData| ==> reply.processedFiles[i] == reply.batchData[i].filename)
      && (reply.status == "success" <==> reply.batchData != [])
      && reply.cacheUpdated == Some(reply.batchData != [])
      && ResultCache.UniqueKeys(r.1)
      && (reply.batchData == [] || writeFault ==> r.1 == rows)
      && (reply.batchData != [] && !writeFault ==>
            ResultCache.Lookup(r.1, req.compoundId, req.templateId, false)
            == Some(ResultCache.CacheRecord(reply.batchData, now, |reply.batchData|, reply.processedFiles,
                                            ResultCache.Fingerprint(entries))))
  {
    var run := LocalRun(t, Pdfs(entries), req.compoundId, ms, env, aborted);
    LocalRunNamed(t, Pdfs(entries), req.compoundId, ms, env, aborted);
    RunReplyAccounts(run.1, |Pdfs(entries)|, Some(Batches(run.1) != []), None);
    DirectoryCacheWritten(rows, req, entries, run.1, now, writeFault);
  }

  /**
   * A failed cache lookup on an unforced request leaves the transaction
   * aborted: the first PDF fails with the database's refusal, creating no
   * row, and the other PDFs run as usual and decide the cache write.
   */
  lemma LookupFaultFailsFirstPdf(t: Tables, rows: seq<ResultCache.CacheRow>, req: Schemas.DirectoryRequest,
                                 entries: seq<ResultCache.DirEntry>, ms: seq<Minted>, env: Services, now: Instant,
                                 writeFault: bool)
    requires |ms| == |Pdfs(entries)| && Pdfs(entries) != [] && !Forced(req.forceReprocess)
    ensures var pdfs := Pdfs(entries);
      var rest := LocalRun(t, pdfs[1..], req.compoundId, ms[1..], env, false);
      var r := DirectoryResult(t, rows, req, entries, ms, env, now, true, writeFault);
      r == (rest.0, DirectoryCacheAfter(rows, req, entries, rest.1, now, writeFault),
            Ok(RunReply([Errored(FailedEntry(None, pdfs[0].name, AbortedMessage))] + rest.1, |pdfs|,
                        Some(Batches(rest.1) != []), None)))
      && r.2.value.failedFiles == [FailedEntry(None, pdfs[0].name, AbortedMessage)] + FailedEntries(rest.1)
      && r.2.value.batchData == Batches(rest.1) && r.2.value.processedFiles == ProcessedNames(rest.1)
      && r.1 == DirectoryCacheAfter(rows, req, entries, rest.1, now, writeFault)
  {
    var pdfs := Pdfs(entries);
    AbortedLocalRunFailsFirst(t, pdfs, req.compoundId, ms, env);
    var rest := LocalRun(t, pdfs[1..], req.compoundId, ms[1..], env, false);
    FailureFirst(FailedEntry(None, pdfs[0].name, AbortedMessage), rest.1);
  }

  /**
   * With one new PDF, a failed lookup fails that PDF with the database's
   * refusal: nothing is processed, no row is created and the cache is not
   * written.
   */
  lemma LookupFaultSinglePdf(t: Tables, rows: seq<ResultCache.CacheRow>, req: Schemas.DirectoryRequest,
                             e: ResultCache.DirEntry, m: Minted, env: Services, now: Instant, writeFault: bool)
    requires ResultCache.IsPdfName(e.name) && !Forced(req.forceReprocess)
    ensures DirectoryResult(t, rows, req, [e], [m], env, now, true, writeFault)
      == (t, rows, Ok(BatchReply([], [FailedEntry(None, e.name, AbortedMessage)], 1, [], "failed", false,
                                 Some(false), None)))
  {
    assert Pdfs([e]) == [e] by {
      assert [e][1..] == [];
    }
    assert [e][1..] == [] && [m][1..] == [];
    assert Zip<ResultCache.DirEntry, Minted>([], []) == [];
    assert LocalRun(t, [], req.compoundId, [], env, false) == (t, []);
    LookupFaultFailsFirstPdf(t, rows, req, [e], [m], env, now, writeFault);
    var os := [Errored(FailedEntry(None, e.name, AbortedMessage))];
    assert os + [] == os && os[..0] == [];
    assert Batches(os) == [] && ProcessedNames(os) == [] && FailedEntries(os) == [os[0].entry];
  }

  /**
   * Once a run has written the cache, the next unforced request for the
   * same compound and template over the same files, listed in any order,
   * is answered from the cache with that run's records and changes nothing.
   */
  lemma DirectoryRerunHits(rows: seq<ResultCache.CacheRow>, req: Schemas.DirectoryRequest,
                           entries: seq<ResultCache.DirEntry>, os: seq<Outcome>, now: Instant,
                           t: Tables, again: Schemas.DirectoryRequest, later: seq<ResultCache.DirEntry>,
                           ms: seq<Minted>, env: Services, now2: Instant, writeFault: bool)
    requires ResultCache.UniqueKeys(rows) && Batches(os) != []
    requires ResultCache.AllStat(entries) && multiset(later) == multiset(entries)
    requires again.compoundId == req.compoundId && again.templateId == req.templateId && !Forced(again.forceReprocess)
    requires |ms| == |Pdfs(later)| && Pdfs(later) != []
    ensures var c := DirectoryCacheAfter(rows, req, entries, os, now, false);
      DirectoryResult(t, c, again, later, ms, env, now2, false, writeFault)
      == (t, c, Ok(CachedReply(ResultCache.CacheRecord(Batches(os), now, |Batches(os)|, ProcessedNames(os),
                                                       ResultCache.Fingerprint(entries)), None)))
  {
    var c := DirectoryCacheAfter(rows, req, entries, os, now, false);
    ResultCache.FreshAfterWrite(rows, req.compoundId, req.templateId, Batches(os), ProcessedNames(os), now, entries, later);
    DirectoryCacheWritten(rows, req, entries, os, now, false);
  }

  // ----- process_from_veeva -----

  const VeevaDisabledMessage: string := "Veeva integration is not enabled"
  const VaultUnreachableMessage: string := "Failed to connect to Veeva Vault"

  /** The cache key of a Vault run: the digest of the sorted ids joined by commas. */
  function CacheKey(ids: seq<string>, digest: string -> string): string {
    digest(Join(",", SortStrings(ids)))
  }

  /** Whether the cached entry answers a Vault request: not forced, caching on, and the key among its hashes. */
  predicate VaultHit(rows: seq<ResultCache.CacheRow>, req: Schemas.VeevaRequest, enableCache: bool,
                     digest: string -> string, lookupFault: bool)
  {
    var cached := ResultCache.Lookup(rows, req.compoundId, req.templateId, lookupFault);
    !Forced(req.forceReprocess) && enableCache && cached.Some?
    && CacheKey(req.documentIds, digest) in cached.value.fileHashes
  }

  /**
   * `process_from_veeva`: refused with 503 when the integration is off;
   * answered from the cache on a hit; refused with 503 when the connection
   * test fails to authenticate; otherwise every id is downloaded and run in
   * order on the new session, and with caching on and a record out, the
   * cache is rewritten under the run's key. A failed lookup is swallowed
   * without a rollback, so the run then starts in an aborted transaction.
   * `connect` is the Vault's answer
   * to the connection test at `connectNow`; `inputs` and `ms` hold the
   * answers and the minted ids for each document.
   */
  function VaultResult(t: Tables, rows: seq<ResultCache.CacheRow>, req: Schemas.VeevaRequest, enabled: bool,
                       enableCache: bool, connectNow: Instant, connect: Vault.AuthReply,
                       inputs: seq<Vault.BatchInput>, ms: seq<Minted>, env: Services, digest: string -> string,
                       now: Instant, lookupFault: bool, writeFault: bool)
    : (r: (Tables, seq<ResultCache.CacheRow>, Result<BatchReply, HttpError>))
    requires |inputs| == |req.documentIds| && |ms| == |req.documentIds|
    ensures r.2 == Err(Fail(ServiceUnavailable, VeevaDisabledMessage)) <==> !enabled
    ensures r.2.Ok? && r.2.value.fromCache <==> enabled && VaultHit(rows, req, enableCache, digest, lookupFault)
    ensures r.2 == Err(Fail(ServiceUnavailable, VaultUnreachableMessage)) <==>
      enabled && !VaultHit(rows, req, enableCache, digest, lookupFault)
      && Vault.AuthStep(Vault.Session(None, None), connectNow, connect).1.Err?
    ensures r.2.Err? || r.2.value.fromCache ==> r.0 == t && r.1 == rows
    ensures r.2.Ok? ==> r.2.value.source == Some("veeva")
  {
    var connected := Vault.AuthStep(Vault.Session(None, None), connectNow, connect);
    if !enabled then (t, rows, Err(Fail(ServiceUnavailable, VeevaDisabledMessage)))
    else if VaultHit(rows, req, enableCache, digest, lookupFault) then
      (t, rows, Ok(CachedReply(ResultCache.Lookup(rows, req.compoundId, req.templateId, lookupFault).value, Some("veeva"))))
    else if connected.1.Err? then (t, rows, Err(Fail(ServiceUnavailable, VaultUnreachableMessage)))
    else VaultRun(t, rows, connected.0, req, enableCache, inputs, ms, env, digest, now,
                  !Forced(req.forceReprocess) && enableCache && lookupFault, writeFault)
  }

  /**
   * The run on a connected session, `aborted` when it starts in an aborted
   * transaction: the tables after every id, the cache after the run, and
   * the reply.
   */
  function VaultRun(t: Tables, rows: seq<ResultCache.CacheRow>, s: Vault.Session, req: Schemas.VeevaRequest,
                    enableCache: bool, inputs: seq<Vault.BatchInput>, ms: seq<Minted>, env: Services,
                    digest: string -> string, now: Instant, aborted: bool, writeFault: bool)
    : (r: (Tables, seq<ResultCache.CacheRow>, Result<BatchReply, HttpError>))
    requires |inputs| == |req.documentIds| && |ms| == |req.documentIds|
    ensures r.2.Ok? && !r.2.value.fromCache && r.2.value.source == Some("veeva")
  {
    var run := VeevaRun(t, s, req.documentIds, inputs, req.compoundId, ms, env, aborted);
    (run.0.0, VaultCacheAfter(rows, req, enableCache, digest, run.1, now, writeFault),
     Ok(RunReply(run.1, |req.documentIds|, None, Some("veeva"))))
  }

  /** The cache after a Vault run: rewritten under the key when caching is on, a record came out and the write succeeds. */
  function VaultCacheAfter(rows: seq<ResultCache.CacheRow>, req: Schemas.VeevaRequest, enableCache: bool,
                           digest: string -> string, os: seq<Outcome>, now: Instant, writeFault: bool)
    : seq<ResultCache.CacheRow>
  {
    if Batches(os) != [] && enableCache && !writeFault
    then ResultCache.Upserted(rows, req.compoundId, req.templateId, Batches(os),
                              [CacheKey(req.documentIds, digest)], ProcessedNames(os), now)
    else rows
  }

  /** `process_from_veeva`, run on the database and the cache table with a new Vault client. */
  method ProcessFromVeeva(db: Database, cache: ResultCache.CacheTable, req: Schemas.VeevaRequest, enabled: bool,
                          enableCache: bool, connectNow: Instant, connect: Vault.AuthReply,
                          inputs: seq<Vault.BatchInput>, ms: seq<Minted>, env: Services, digest: string -> string,
                          now: Instant, lookupFault: bool, writeFault: bool)
    returns (r: Result<BatchReply, HttpError>)
    requires |inputs| == |req.documentIds| && |ms| == |req.documentIds|
    modifies db, cache
    ensures (db.State(), cache.rows, r)
      == VaultResult(old(db.State()), old(cache.rows), req, enabled, enableCache, connectNow, connect,
                     inputs, ms, env, digest, now, lookupFault, writeFault)
  {
    if !enabled {
      return Err(Fail(ServiceUnavailable, VeevaDisabledMessage));
    }
    if VaultHit(cache.rows, req, enableCache, digest, lookupFault) {
      var cached := ResultCache.Lookup(cache.rows, req.compoundId, req.templateId, lookupFault);
      return Ok(CachedReply(cached.value, Some("veeva")));
    }
    var vault := new Vault.VeevaService();
    var ok := vault.TestConnection(connectNow, connect);
    if !ok {
      return Err(Fail(ServiceUnavailable, VaultUnreachableMessage));
    }
    r := RunOnVault(db, cache, vault, req, enableCache, inputs, ms, env, digest, now,
                    !Forced(req.forceReprocess) && enableCache && lookupFault, writeFault);
  }

  /** The run part of `process_from_veeva`: the loop over the ids on the connected client, the close, then the cache write. */
  method RunOnVault(db: Database, cache: ResultCache.CacheTable, vault: Vault.VeevaService, req: Schemas.VeevaRequest,
                    enableCache: bool, inputs: seq<Vault.BatchInput>, ms: seq<Minted>, env: Services,
                    digest: string -> string, now: Instant, aborted: bool, writeFault: bool)
    returns (r: Result<BatchReply, HttpError>)
    requires |inputs| == |req.documentIds| && |ms| == |req.documentIds|
    modifies db, cache, vault
    ensures (db.State(), cache.rows, r)
      == VaultRun(old(db.State()), old(cache.rows), old(vault.State()), req, enableCache, inputs, ms, env, digest,
                  now, aborted, writeFault)
  {
    ghost var start := (db.State(), vault.State());
    VeevaStepperSteps(req.compoundId, env);
    VeevaAbortAborts(req.compoundId, env);
    var batches, processed, failed :=
      ProcessVeevaDocuments(db, vault, req.documentIds, inputs, req.compoundId, ms, env, aborted,
                            VeevaStepper(req.compoundId, env), VeevaAbort(req.compoundId, env));
    ghost var os := VeevaRun(start.0, start.1, req.documentIds, inputs, req.compoundId, ms, env, aborted).1;
    vault.Close();
    if batches != [] && enableCache {
      var key := CacheKey(req.documentIds, digest);
      var _ := cache.UpdateCacheRecord(req.compoundId, req.templateId, batches, [key], processed, now, writeFault);
    }
    r := Ok(BatchReply(processed, failed, |req.documentIds|, batches,
                       if processed != [] then "success" else "failed", false, None, Some("veeva")));
    assert r == Ok(RunReply(os, |req.documentIds|, None, Some("veeva")));
  }

  /**
   * The cache after a Vault run keeps one row per key, and when caching is
   * on, a record came out and the write succeeded, the entry holds the run's
   * records and names under the single hash that is the run's key.
   */
  lemma VaultCacheWritten(rows: seq<ResultCache.CacheRow>, req: Schemas.VeevaRequest, enableCache: bool,
                          digest: string -> string, os: seq<Outcome>, now: Instant, writeFault: bool)
    requires ResultCache.UniqueKeys(rows)
    ensures var c := VaultCacheAfter(rows, req, enableCache, digest, os, now, writeFault);
      ResultCache.UniqueKeys(c)
      && (Batches(os) == [] || !enableCache || writeFault ==> c == rows)
      && (Batches(os) != [] && enableCache && !writeFault ==>
            ResultCache.Lookup(c, req.compoundId, req.templateId, false)
            == Some(ResultCache.CacheRecord(Batches(os), now, |Batches(os)|, ProcessedNames(os),
                                            [CacheKey(req.documentIds, digest)])))
  {
    ResultCache.UpsertedEntry(rows, req.compoundId, req.templateId, Batches(os), [CacheKey(req.documentIds, digest)],
                              ProcessedNames(os), now);
  }

  /**
   * A Vault run answers for every requested id: the processed names and
   * records are parallel and name the same files, each id is processed,
   * failed or skipped, and the cache then holds that run's records.
   */
  lemma VaultRunAccounts(t: Tables, rows: seq<ResultCache.CacheRow>, s: Vault.Session, req: Schemas.VeevaRequest,
                         enableCache: bool, inputs: seq<Vault.BatchInput>, ms: seq<Minted>, env: Services,
                         digest: string -> string, now: Instant, aborted: bool, writeFault: bool)
    requires |inputs| == |req.documentIds| && |ms| == |req.documentIds| && ResultCache.UniqueKeys(rows)
    ensures var r := VaultRun(t, rows, s, req, enableCache, inputs, ms, env, digest, now, aborted, writeFault);
      var reply := r.2.value;
      var os := VeevaRun(t, s, req.documentIds, inputs, req.compoundId, ms, env, aborted).1;
      reply.totalFiles == |req.documentIds|
      && |reply.processedFiles| == |reply.batchData|
      && |reply.batchData| + |reply.failedFiles| + SkippedCount(os) == |req.documentIds|
      && (forall i :: 0 <= i < |reply.batchData| ==> reply.processedFiles[i] == reply.batchData[i].filename)
      && (reply.status == "success" <==> reply.batchData != [])
      && ResultCache.UniqueKeys(r.1)
      && (reply.batchData == [] || !enableCache || writeFault ==> r.1 == rows)
      && (reply.batchData != [] && enableCache && !writeFault ==>
            ResultCache.Lookup(r.1, req.compoundId, req.templateId, false)
            == Some(ResultCache.CacheRecord(reply.batchData, now, |reply.batchData|, reply.processedFiles,
                                            [CacheKey(req.documentIds, digest)])))
  {
    var run := VeevaRun(t, s, req.documentIds, inputs, req.compoundId, ms, env, aborted);
    VeevaRunNamed(t, s, req.documentIds, inputs, req.compoundId, ms, env, aborted);
    RunReplyAccounts(run.1, |req.documentIds|, None, Some("veeva"));
    VaultCacheWritten(rows, req, enableCache, digest, run.1, now, writeFault);
  }

  /**
   * With caching on, a failed lookup on an unforced request leaves the
   * transaction aborted: a single requested document that downloads and
   * whose compound id parses fails with the database's refusal under its
   * file name; nothing is processed, no row is created and the cache is not
   * written.
   */
  lemma LookupFaultSingleDocument(t: Tables, rows: seq<ResultCache.CacheRow>, req: Schemas.VeevaRequest,
                                  connectNow: Instant, connect: Vault.AuthReply, input: Vault.BatchInput, m: Minted,
                                  env: Services, digest: string -> string, now: Instant, writeFault: bool)
    requires |req.documentIds| == 1 && !Forced(req.forceReprocess)
    requires Vault.AuthStep(Vault.Session(None, None), connectNow, connect).1.Ok?
    requires var s := Vault.AuthStep(Vault.Session(None, None), connectNow, connect).0;
      Vault.DownloadStep(s, input.now, input.replies, req.documentIds[0], input.stamp).1.Ok?
    requires env.parseUuid(req.compoundId).Some?
    ensures var s := Vault.AuthStep(Vault.Session(None, None), connectNow, connect).0;
      var id := req.documentIds[0];
      var d := Vault.DownloadStep(s, input.now, input.replies, id, input.stamp).1.value;
      VaultResult(t, rows, req, true, true, connectNow, connect, [input], [m], env, digest, now, true, writeFault)
      == (t, rows, Ok(BatchReply([], [FailedEntry(Some(id), VeevaFilename(id, d.metadata), AbortedMessage)], 1, [],
                                 "failed", false, None, Some("veeva"))))
  {
    var s := Vault.AuthStep(Vault.Session(None, None), connectNow, connect).0;
    var id := req.documentIds[0];
    var (s1, d) := Vault.DownloadStep(s, input.now, input.replies, id, input.stamp);
    var failure := Errored(FailedEntry(Some(id), VeevaFilename(id, d.value.metadata), AbortedMessage));
    assert VeevaAborted((t, s), (id, input, m), req.compoundId, env) == Some(((t, s1), failure));
    assert !VaultHit(rows, req, true, digest, true);
    AbortedVeevaRunFirst(t, s, req.documentIds, [input], req.compoundId, [m], env);
    assert req.documentIds[1..] == [] && [input][1..] == [] && [m][1..] == [];
    assert Zip3<string, Vault.BatchInput, Minted>([], [], []) == [];
    assert VeevaRun(t, s1, [], [], req.compoundId, [], env, false) == ((t, s1), []);
    var os := [failure];
    assert os + [] == os;
    assert VeevaRun(t, s, req.documentIds, [input], req.compoundId, [m], env, true) == ((t, s1), os);
    assert os[..0] == [];
    assert Batches(os) == [] && ProcessedNames(os) == [] && FailedEntries(os) == [failure.entry];
  }

  /**
   * Once a Vault run has written the cache, the next unforced request for
   * the same compound and template naming the same ids, in any order, is
   * answered from the cache without connecting, and changes nothing.
   */
  lemma VaultRerunHits(rows: seq<ResultCache.CacheRow>, req: Schemas.VeevaRequest, digest: string -> string,
                       os: seq<Outcome>, now: Instant, t: Tables, again: Schemas.VeevaRequest,
                       connectNow: Instant, connect: Vault.AuthReply, inputs: seq<Vault.BatchInput>,
                       ms: seq<Minted>, env: Services, now2: Instant, writeFault: bool)
    requires ResultCache.UniqueKeys(rows) && Batches(os) != []
    requires again.compoundId == req.compoundId && again.templateId == req.templateId && !Forced(again.forceReprocess)
    requires multiset(again.documentIds) == multiset(req.documentIds)
    requires |inputs| == |again.documentIds| && |ms| == |again.documentIds|
    ensures var c := VaultCacheAfter(rows, req, true, digest, os, now, false);
      VaultResult(t, c, again, true, true, connectNow, connect, inputs, ms, env, digest, now2, false, writeFault)
      == (t, c, Ok(CachedReply(ResultCache.CacheRecord(Batches(os), now, |Batches(os)|, ProcessedNames(os),
                                                       [CacheKey(req.documentIds, digest)]), Some("veeva"))))
  {
    SortStringsOrderFree(again.documentIds, req.documentIds);
    assert CacheKey(again.documentIds, digest) == CacheKey(req.documentIds, digest);
    VaultCacheWritten(rows, req, true, digest, os, now, false);
  }

  // ----- process_hybrid -----

  /** Which endpoint a hybrid request goes to, with the request built for it. */
  datatype Route = ToVault(vault: Schemas.VeevaRequest) | ToDirectory(directory: Schemas.DirectoryRequest)

  const NoRouteMessage: string :=
    "Invalid request: must specify either document_ids for Veeva or directory_path for local processing"

  /** `request.get("source", "auto")`, compared with a source name. */
  predicate SourceIs(raw: Schemas.Raw, name: string) {
    Get(raw, "source", JStr("auto")) == JStr(name)
  }

  /** The Vault branch is taken: source `veeva`, or `auto` with a non-empty `document_ids`. */
  predicate WantsVault(raw: Schemas.Raw) {
    SourceIs(raw, "veeva") || (SourceIs(raw, "auto") && Truthy(Get(raw, "document_ids", JNull)))
  }

  /** The local branch is taken: source `local`, or `auto` with a non-empty `directory_path`. */
  predicate WantsDirectory(raw: Schemas.Raw) {
    SourceIs(raw, "local") || (SourceIs(raw, "auto") && Truthy(Get(raw, "directory_path", JNull)))
  }

  /**
   * The keyword arguments `VeevaProcessRequest(...)` is called with; `None`
   * when one of the three looked up with `[...]` is missing (`KeyError`).
   */
  function VaultArguments(raw: Schemas.Raw): (r: Option<Schemas.Raw>)
    ensures r.Some? <==> "compound_id" in raw && "template_id" in raw && "document_ids" in raw
    ensures r.Some? ==> r.value.Keys == Schemas.VeevaFields
  {
    if "compound_id" in raw && "template_id" in raw && "document_ids" in raw then
      Some(map["compound_id" := raw["compound_id"], "template_id" := raw["template_id"],
               "document_ids" := raw["document_ids"],
               "force_reprocess" := Get(raw, "force_reprocess", JBool(false))])
    else None
  }

  /** The keyword arguments of `DirectoryProcessRequest(...)`; `None` on a `KeyError`. */
  function DirectoryArguments(raw: Schemas.Raw): (r: Option<Schemas.Raw>)
    ensures r.Some? <==> "compound_id" in raw && "template_id" in raw
    ensures r.Some? ==> r.value.Keys == Schemas.DirectoryFields
  {
    if "compound_id" in raw && "template_id" in raw then
      Some(map["compound_id" := raw["compound_id"], "template_id" := raw["template_id"],
               "directory_path" := Get(raw, "directory_path", JNull),
               "force_reprocess" := Get(raw, "force_reprocess", JBool(false))])
    else None
  }

  /**
   * `process_hybrid`: the body is an untyped dictionary, so the hybrid
   * schema is never applied. The Vault branch is tried first, then the local
   * one, and neither gives a 400. A missing key or a request the chosen
   * model refuses escapes the endpoint and is answered as a bare 500.
   */
  function HybridRoute(raw: Schemas.Raw): (r: Result<Route, HttpError>)
    ensures r.Ok? && r.value.ToVault? ==> WantsVault(raw)
    ensures r.Ok? && r.value.ToDirectory? ==> !WantsVault(raw) && WantsDirectory(raw)
    ensures r == Err(Fail(BadRequest, NoRouteMessage)) <==> !WantsVault(raw) && !WantsDirectory(raw)
    ensures r.Err? && r.error.status != BadRequest ==> r.error == InternalError
  {
    if WantsVault(raw) then
      match VaultArguments(raw)
      case None => Err(InternalError)
      case Some(args) =>
        (match Schemas.ParseVeevaRequest(args)
         case Ok(req) => Ok(ToVault(req))
         case Err(_) => Err(InternalError))
    else if WantsDirectory(raw) then
      match DirectoryArguments(raw)
      case None => Err(InternalError)
      case Some(args) =>
        (match Schemas.ParseDirectoryRequest(args)
         case Ok(req) => Ok(ToDirectory(req))
         case Err(_) => Err(InternalError))
    else Err(Fail(BadRequest, NoRouteMessage))
  }

  /**
   * For a body the hybrid schema would accept, the router follows the
   * schema's reading of it: the branch is the one the source names (with
   * `auto` choosing by which of the ids and the path is non-empty, the ids
   * first), and the chosen request carries the same ids, flag and path. A
   * `veeva` source without ids is a 500, not a 400.
   */
  lemma HybridRouteOfParsed(raw: Schemas.Raw, h: Schemas.HybridRequest)
    requires Schemas.ParseHybridRequest(raw) == Ok(h)
    ensures WantsVault(raw) <==> h.source == "veeva" || (h.source == "auto" && h.documentIds.Some? && h.documentIds.value != [])
    ensures WantsDirectory(raw) <==> h.source == "local" || (h.source == "auto" && h.directoryPath.Some? && h.directoryPath.value != [])
    ensures WantsVault(raw) && h.documentIds.Some? && h.documentIds.value != [] ==>
      HybridRoute(raw) == Ok(ToVault(Schemas.VeevaRequest(h.compoundId, h.templateId, h.documentIds.value, h.forceReprocess)))
    ensures WantsVault(raw) && (h.documentIds.None? || h.documentIds.value == []) ==> HybridRoute(raw) == Err(InternalError)
    ensures !WantsVault(raw) && WantsDirectory(raw) ==>
      HybridRoute(raw) == Ok(ToDirectory(Schemas.DirectoryRequest(h.compoundId, h.templateId, h.directoryPath, h.forceReprocess)))
  {
    assert "compound_id" in raw && raw["compound_id"] == JStr(h.compoundId);
    assert "template_id" in raw && raw["template_id"] == JStr(h.templateId);
    assert Schemas.SourceField(raw) == Ok(h.source);
    assert Schemas.OptIdsField(raw) == Ok(h.documentIds);
    assert Schemas.OptStrField(raw, "directory_path") == Ok(h.directoryPath);
    assert Schemas.OptBoolField(raw, "force_reprocess") == Ok(h.forceReprocess);
    if WantsVault(raw) {
      if h.documentIds.Some? && h.documentIds.value != [] {
        var args := VaultArguments(raw).value;
        assert Schemas.OnlyFields(args, Schemas.VeevaFields);
        assert Schemas.OptBoolField(args, "force_reprocess") == Ok(h.forceReprocess);
        assert Schemas.DocumentIdsField(args) == Ok(h.documentIds.value);
      }
    } else if WantsDirectory(raw) {
      var args := DirectoryArguments(raw).value;
      assert Schemas.OnlyFields(args, Schemas.DirectoryFields);
      assert Schemas.OptBoolField(args, "force_reprocess") == Ok(h.forceReprocess);
      assert Schemas.OptStrField(args, "directory_path") == Ok(h.directoryPath);
    }
  }

  /**
   * The hybrid schema is not applied: a body with a field it does not
   * declare is refused by it but routed to the Vault all the same.
   */
  lemma HybridIgnoresSchema()
    ensures var raw := UndeclaredFieldBody();
      Schemas.ParseHybridRequest(raw).Err?
      && HybridRoute(raw) == Ok(ToVault(Schemas.VeevaRequest("c", "t", ["VV-1"], Some(false))))
  {
    var raw := UndeclaredFieldBody();
    assert "note" in raw && "note" !in Schemas.HybridFields;
    VaultArgumentsOfUndeclared();
  }

  /** A Vault request with an extra `note` field. */
  function UndeclaredFieldBody(): Schemas.Raw {
    map["compound_id" := JStr("c"), "template_id" := JStr("t"),
        "document_ids" := JArr([JStr("VV-1")]), "note" := JStr("x")]
  }

  lemma VaultArgumentsOfUndeclared()
    ensures WantsVault(UndeclaredFieldBody())
    ensures Schemas.ParseVeevaRequest(VaultArguments(UndeclaredFieldBody()).value)
      == Ok(Schemas.VeevaRequest("c", "t", ["VV-1"], Some(false)))
  {
    var raw := UndeclaredFieldBody();
    assert Get(raw, "source", JStr("auto")) == JStr("auto");
    var args := VaultArguments(raw).value;
    assert args == map["compound_id" := JStr("c"), "template_id" := JStr("t"),
                       "document_ids" := JArr([JStr("VV-1")]), "force_reprocess" := JBool(false)];
    assert Schemas.OnlyFields(args, Schemas.VeevaFields);
    assert Schemas.Strings([JStr("VV-1")]) == ["VV-1"];
  }

  // ----- upload_document -----

  /** The multipart form: the file's name and bytes and the compound id. */
  datatype Upload = Upload(filename: string, content: seq<byte>, compoundId: string)

  /** The `data` of a stored upload. */
  datatype UploadReply = UploadReply(documentId: Uuid, filename: string, status: string)

  const NotPdfMessage: string := "Only PDF files are allowed"
  /** `settings.MAX_FILE_SIZE / 1024 / 1024` is printed as the float `10.0`. */
  const TooLargeMessage: string := "File size exceeds maximum allowed size of 10.0MB"

  /** The two checks made before anything is stored: the name's suffix, then the size. */
  function UploadRefusal(u: Upload): (m: Option<string>)
    ensures m.None? <==> EndsWith(u.filename, ".pdf") && |u.content| <= Config.MaxFileSize
  {
    if !EndsWith(u.filename, ".pdf") then Some(NotPdfMessage)
    else if |u.content| > Config.MaxFileSize then Some(TooLargeMessage)
    else None
  }

  /**
   * The checks as written: each raises a 400 inside the endpoint's
   * catch-all, which turns it into a 500 whose detail is the 400's text,
   * `"400: ..."`.
   */
  function UploadCheckAsWritten(u: Upload): (e: Option<HttpError>)
    ensures e.None? <==> UploadCheck(u).None?
    ensures e.Some? ==> e.value.status == InternalServerError && e.value.detail == "400: " + UploadCheck(u).value.detail
  {
    match UploadRefusal(u)
    case None => None
    case Some(m) => Some(Fail(InternalServerError, "400: " + m))
  }

  /** The checks as evidently intended: a refused upload is a 400 carrying the refusal. */
  function UploadCheck(u: Upload): (e: Option<HttpError>)
    ensures e.None? <==> EndsWith(u.filename, ".pdf") && |u.content| <= Config.MaxFileSize
    ensures e.Some? ==> e.value.status == BadRequest && Some(e.value.detail) == UploadRefusal(u)
  {
    match UploadRefusal(u)
    case None => None
    case Some(m) => Some(Fail(BadRequest, m))
  }

  /**
   * A file that is not a PDF is a client error the endpoint means to answer
   * with 400; as written the answer is a 500.
   */
  lemma RefusalBecomesServerError()
    ensures var u := Upload("notes.txt", [], "c");
      UploadCheckAsWritten(u) == Some(Fail(InternalServerError, "400: Only PDF files are allowed"))
      && UploadCheck(u) == Some(Fail(BadRequest, NotPdfMessage))
  {
    var u := Upload("notes.txt", [], "c");
    TextNameNotPdf();
    assert UploadRefusal(u) == Some(NotPdfMessage);
    assert "400: " + NotPdfMessage == "400: Only PDF files are allowed";
  }

  lemma TextNameNotPdf()
    ensures !EndsWith("notes.txt", ".pdf")
  {
  }

  /** `str(OSError)` for the errors `save_upload` can raise. */
  function FsMessage(e: Files.FsError): string {
    match e
    case FileExists(p) => "[Errno 17] File exists: '" + p + "'"
    case IsADirectory(p) => "[Errno 21] Is a directory: '" + p + "'"
    case NotADirectory(p) => "[Errno 20] Not a directory: '" + p + "'"
    case FileNotFound(p) => "[Errno 2] No such file or directory: '" + p + "'"
  }

  /**
   * `upload_document`: after the checks (whose 400 the catch-all turns
   * into a 500, as written) the bytes are saved under a
   * generated name in the compound's directory; only then is the compound id
   * parsed and the `pending` row inserted. Every failure after the checks is
   * a 500 carrying the error's text, and a file already written stays on
   * disk. `now` and `clock` are the time of the save as a local date and as
   * an instant, `uuid` the random part of the name and `id` the new row's id.
   */
  function UploadResult(t: Tables, tree: map<string, Files.Node>, u: Upload, uploadDir: string, now: Files.DateTime,
                        clock: Instant, uuid: string, dirSize: nat, id: Uuid, parseUuid: string -> Option<Uuid>)
    : (r: (Tables, map<string, Files.Node>, Result<UploadReply, HttpError>))
    requires Files.ValidDateTime(now)
  {
    match UploadCheckAsWritten(u)
    case Some(e) => (t, tree, Err(e))
    case None =>
      var saved := Files.SaveUploadStep(tree, uploadDir, u.content, u.filename, u.compoundId, Files.Stamp(now),
                                        clock, uuid, dirSize);
      match saved.1
      case Err(e) => (t, saved.0, Err(Fail(InternalServerError, FsMessage(e))))
      case Ok(path) =>
        match parseUuid(u.compoundId)
        case None => (t, saved.0, Err(Fail(InternalServerError, BadUuidMessage)))
        case Some(cid) =>
          var doc := NewDocument(id, cid, u.filename, path, Some(KbLabel(|u.content|)), clock);
          if !DocumentFits(doc) then (t, saved.0, Err(Fail(InternalServerError, TooLongMessage)))
          else (t.(documents := t.documents + [doc]), saved.0, Ok(UploadReply(id, u.filename, StatusValue(Pending))))
  }

  /** `upload_document`, run on the database and the file system. */
  method UploadDocument(db: Database, store: Files.Store, fs: Files.FileSystem, u: Upload, now: Files.DateTime,
                        clock: Instant, uuid: string, dirSize: nat, id: Uuid, parseUuid: string -> Option<Uuid>)
    returns (r: Result<UploadReply, HttpError>)
    requires Files.ValidDateTime(now)
    modifies db, fs
    ensures (db.State(), fs.tree, r)
      == UploadResult(old(db.State()), old(fs.tree), u, store.uploadDir, now, clock, uuid, dirSize, id, parseUuid)
  {
    var refusal := UploadCheckAsWritten(u);
    if refusal.Some? {
      return Err(refusal.value);
    }
    var saved := store.SaveUpload(fs, u.content, u.filename, u.compoundId, now, clock, uuid, dirSize);
    if saved.Err? {
      return Err(Fail(InternalServerError, FsMessage(saved.error)));
    }
    var parsed := parseUuid(u.compoundId);
    if parsed.None? {
      return Err(Fail(InternalServerError, BadUuidMessage));
    }
    var doc := NewDocument(id, parsed.value, u.filename, saved.value, Some(KbLabel(|u.content|)), clock);
    var added := db.AddDocument(doc);
    if added.Err? {
      return Err(Fail(InternalServerError, added.error));
    }
    r := Ok(UploadReply(id, u.filename, StatusValue(doc.status)));
  }

  /**
   * An upload is stored exactly when the checks pass, the save succeeds,
   * the compound id parses and the row fits; then the tables gain one
   * `pending` row for the file, whose path holds exactly the uploaded bytes,
   * and the reply names that row. Any other outcome leaves the tables as
   * they were.
   */
  lemma UploadStored(t: Tables, tree: map<string, Files.Node>, u: Upload, uploadDir: string, now: Files.DateTime,
                     clock: Instant, uuid: string, dirSize: nat, id: Uuid, parseUuid: string -> Option<Uuid>)
    requires Files.ValidDateTime(now)
    ensures var r := UploadResult(t, tree, u, uploadDir, now, clock, uuid, dirSize, id, parseUuid);
      var path := Files.UploadPath(uploadDir, u.filename, u.compoundId, Files.Stamp(now), uuid);
      var saved := Files.SaveUploadStep(tree, uploadDir, u.content, u.filename, u.compoundId, Files.Stamp(now),
                                        clock, uuid, dirSize);
      (r.2.Ok? <==> UploadRefusal(u).None? && saved.1.Ok? && parseUuid(u.compoundId).Some?
                    && DocumentFits(NewDocument(id, parseUuid(u.compoundId).value, u.filename, path,
                                                Some(KbLabel(|u.content|)), clock)))
      && (r.2.Err? ==> r.0 == t)
      && (UploadRefusal(u).Some? ==>
            r.2 == Err(Fail(InternalServerError, "400: " + UploadRefusal(u).value)) && r.1 == tree)
      && (r.2.Ok? ==>
            r.2.value == UploadReply(id, u.filename, "pending")
            && r.0.extracted == t.extracted && |r.0.documents| == |t.documents| + 1
            && r.0.documents[..|t.documents|] == t.documents
            && var d := r.0.documents[|t.documents|];
               d.id == id && d.status == Pending && d.filename == u.filename && d.filePath == path
               && d.compoundId == parseUuid(u.compoundId).value
               && path in r.1 && r.1[path] == Files.File(u.content, clock, clock))
  {
    var r := UploadResult(t, tree, u, uploadDir, now, clock, uuid, dirSize, id, parseUuid);
    var saved := Files.SaveUploadStep(tree, uploadDir, u.content, u.filename, u.compoundId, Files.Stamp(now),
                                      clock, uuid, dirSize);
    if UploadRefusal(u).None? {
      if saved.1.Ok? && parseUuid(u.compoundId).Some? {
        var doc := NewDocument(id, parseUuid(u.compoundId).value, u.filename, saved.1.value,
                               Some(KbLabel(|u.content|)), clock);
        if DocumentFits(doc) {
          assert r.0.documents == t.documents + [doc];
          assert r.0.documents[..|t.documents|] == t.documents;
        }
      }
    }
  }

  /**
   * The compound id is parsed only after the bytes are written: an upload
   * with a malformed id whose save succeeds (as `FileManager.PlainIdSaved`
   * says it does for a slash-free id on a ready tree) is refused with a
   * 500, no row is added, and the file stays on disk.
   */
  lemma UploadOrphansFile(t: Tables, tree: map<string, Files.Node>, u: Upload, uploadDir: string, now: Files.DateTime,
                          clock: Instant, uuid: string, dirSize: nat, id: Uuid, parseUuid: string -> Option<Uuid>)
    requires Files.ValidDateTime(now)
    requires UploadRefusal(u).None? && parseUuid(u.compoundId).None?
    requires Files.SaveUploadStep(tree, uploadDir, u.content, u.filename, u.compoundId, Files.Stamp(now),
                                  clock, uuid, dirSize).1.Ok?
    ensures var r := UploadResult(t, tree, u, uploadDir, now, clock, uuid, dirSize, id, parseUuid);
      var path := Files.UploadPath(uploadDir, u.filename, u.compoundId, Files.Stamp(now), uuid);
      r.2 == Err(Fail(InternalServerError, BadUuidMessage)) && r.0 == t
      && path in r.1 && r.1[path] == Files.File(u.content, clock, clock)
  {
  }

  /** A save that raises answers 500 with the text of the `OSError`, and adds no row. */
  lemma SaveErrorAnswered(t: Tables, tree: map<string, Files.Node>, u: Upload, uploadDir: string, now: Files.DateTime,
                          clock: Instant, uuid: string, dirSize: nat, id: Uuid, parseUuid: string -> Option<Uuid>)
    requires Files.ValidDateTime(now) && UploadRefusal(u).None?
    requires Files.SaveUploadStep(tree, uploadDir, u.content, u.filename, u.compoundId, Files.Stamp(now),
                                  clock, uuid, dirSize).1.Err?
    ensures var saved := Files.SaveUploadStep(tree, uploadDir, u.content, u.filename, u.compoundId, Files.Stamp(now),
                                              clock, uuid, dirSize);
      UploadResult(t, tree, u, uploadDir, now, clock, uuid, dirSize, id, parseUuid)
        == (t, saved.0, Err(Fail(InternalServerError, FsMessage(saved.1.error))))
  {
    assert UploadCheckAsWritten(u).None?;
  }

  /**
   * An upload for a compound id with a slash in it (`top/rest`), into a
   * compound directory with nothing below it, answers 500 with the
   * `FileNotFoundError` text for the file's path, and adds no row.
   */
  lemma NestedIdUploadFails(t: Tables, tree: map<string, Files.Node>, u: Upload, uploadDir: string, now: Files.DateTime,
                            clock: Instant, uuid: string, dirSize: nat, id: Uuid, parseUuid: string -> Option<Uuid>,
                            top: string, rest: string)
    requires Files.ValidDateTime(now) && UploadRefusal(u).None? && u.compoundId == top + "/" + rest
    requires top != [] && Files.Free(top, '/')
    requires Files.Grounded(tree) && Files.Trimmed(Files.CompoundDir(uploadDir, u.compoundId))
    requires !Files.Blocked(tree, Files.CompoundDir(uploadDir, u.compoundId))
    requires forall q :: q in tree ==> !StartsWith(q, Files.CompoundDir(uploadDir, u.compoundId) + "/")
    ensures var r := UploadResult(t, tree, u, uploadDir, now, clock, uuid, dirSize, id, parseUuid);
      var path := Files.UploadPath(uploadDir, u.filename, u.compoundId, Files.Stamp(now), uuid);
      r.0 == t && r.2 == Err(Fail(InternalServerError, "[Errno 2] No such file or directory: '" + path + "'"))
  {
    var path := Files.UploadPath(uploadDir, u.filename, u.compoundId, Files.Stamp(now), uuid);
    Files.NestedIdNotSaved(tree, uploadDir, u.content, u.filename, u.compoundId, top, rest, Files.Stamp(now),
                           clock, uuid, dirSize);
    SaveErrorAnswered(t, tree, u, uploadDir, now, clock, uuid, dirSize, id, parseUuid);
    NotFoundMessage(path);
  }

  /** The text of a `FileNotFoundError`, for any path. */
  lemma NotFoundMessage(path: string)
    ensures FsMessage(Files.FileNotFound(path)) == "[Errno 2] No such file or directory: '" + path + "'"
  {
  }

}
