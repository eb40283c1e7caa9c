// The per-document lifecycle shared by the two batch endpoints of
// `documents.py`: a document is skipped, processed or failed; its row is
// created as `processing`, then completed with its extracted fields, or
// rolled back and recorded as failed. Each endpoint's loop runs the step over
// its files in order and collects the three result lists.
module Pipeline {
  import opened Wrappers
  import opened Text
  import opened Json
  import opened Models
  import opened AiExtractor
  import opened DocStore
  import Pdf = PdfProcessor
  import Vault = Veeva
  import ResultCache
  import Config

  /** The collaborators a run calls into, each an oracle. */
  datatype Services = Services(
    parser: Pdf.Parser,
    hasClient: bool,
    llm: string -> Option<string>,
    loads: string -> Option<Json>,
    adapt: Adapter,
    parseUuid: string -> Option<Uuid>)

  /** What `uuid4()` and the clock give for one document. */
  datatype Minted = Minted(id: Uuid, now: Instant)

  /** An entry of `failed_files`; the Vault path also names the document id. */
  datatype FailedEntry = FailedEntry(documentId: Option<string>, filename: string, error: string)

  /** How one document ends. */
  datatype Outcome =
    | Skipped
    | Succeeded(batch: BatchInfo, filename: string)
    | Errored(entry: FailedEntry)

  /** `str(ValueError)` raised by `UUID(...)` on a malformed id. */
  const BadUuidMessage: string := "badly formed hexadecimal UUID string"
  const NoTextMessage: string := "No text content found in PDF"

  // ----- the size label -----

  /**
   * `n / 1024` in hundredths, rounded to nearest with ties to even, as `.2f`
   * formatting rounds the exact binary quotient.
   */
  function Hundredths(n: nat): (q: nat)
    ensures 256 * q <= 25 * n + 128 && 25 * n <= 256 * q + 128
    ensures (256 * q == 25 * n + 128 || 256 * q + 128 == 25 * n) ==> q % 2 == 0
  {
    var m := 25 * n;
    RoundHalfEven(m, m / 256, m % 256)
  }

  /** Rounds `m / 256` to nearest, ties to even, from its quotient and remainder. */
  function RoundHalfEven(m: nat, q: nat, r: nat): (h: nat)
    requires m == 256 * q + r && r < 256
    ensures 256 * h <= m + 128 && m <= 256 * h + 128
    ensures (256 * h == m + 128 || 256 * h + 128 == m) ==> h % 2 == 0
  {
    if r > 128 || (r == 128 && q % 2 == 1) then q + 1 else q
  }

  function TwoDigits(d: nat): (s: string)
    requires d < 100
    ensures |s| == 2
  {
    if d < 10 then ['0', DigitChar(d)] else [DigitChar(d / 10), DigitChar(d % 10)]
  }

  /** `f"{n / 1024:.2f} KB"`; a negative size keeps its sign even when it rounds to zero. */
  function KbLabel(n: int): (s: string)
    ensures EndsWith(s, " KB")
    ensures n < 0 <==> s[0] == '-'
  {
    var q := Hundredths(if n < 0 then -n else n);
    var digits := NatToString(q / 100) + "." + TwoDigits(q % 100);
    assert digits[0] != '-';
    (if n < 0 then "-" else "") + digits + " KB"
  }

  /** The label of a size, assembled from the digits of its whole and fractional hundredths. */
  lemma KbLabelOf(n: int, whole: string, frac: string)
    requires var q := Hundredths(if n < 0 then -n else n); NatToString(q / 100) == whole && TwoDigits(q % 100) == frac
    ensures KbLabel(n) == (if n < 0 then "-" else "") + whole + "." + frac + " KB"
  {
  }

  /** Exact halves of a hundredth round to the even neighbour, as `.2f` does. */
  lemma KbLabelRounding()
    ensures KbLabel(1536) == "1.50 KB"
    ensures KbLabel(128) == "0.12 KB" && KbLabel(384) == "0.38 KB"
    ensures KbLabel(-1) == "-0.00 KB"
  {
    KbLabelExact();
    KbLabelTieDown();
    KbLabelTieUp();
    KbLabelNegativeZero();
  }

  lemma KbLabelExact()
    ensures KbLabel(1536) == "1.50 KB"
  {
    assert Hundredths(1536) == 150 && NatToString(1) == "1" && TwoDigits(50) == "50";
    KbLabelOf(1536, "1", "50");
  }

  /** 0.125 rounds down to the even 0.12. */
  lemma KbLabelTieDown()
    ensures KbLabel(128) == "0.12 KB"
  {
    assert Hundredths(128) == 12 && NatToString(0) == "0" && TwoDigits(12) == "12";
    KbLabelOf(128, "0", "12");
  }

  /** 0.375 rounds up to the even 0.38. */
  lemma KbLabelTieUp()
    ensures KbLabel(384) == "0.38 KB"
  {
    assert Hundredths(384) == 38 && NatToString(0) == "0" && TwoDigits(38) == "38";
    KbLabelOf(384, "0", "38");
  }

  /** A negative size that rounds to zero keeps its sign. */
  lemma KbLabelNegativeZero()
    ensures KbLabel(-1) == "-0.00 KB"
  {
    assert Hundredths(1) == 0 && NatToString(0) == "0" && TwoDigits(0) == "00";
    KbLabelOf(-1, "0", "00");
  }

  /** `metadata.get('downloaded_size', 0) / 1024` formatted; a bool counts as 0 or 1. */
  function SizeLabel(v: Json): (r: Result<string, string>)
    ensures r.Ok? <==> v.JInt? || v.JBool?
    ensures v.JInt? ==> r == Ok(KbLabel(v.i))
  {
    match v
    case JInt(n) => Ok(KbLabel(n))
    case JBool(b) => Ok(KbLabel(if b then 1 else 0))
    case _ => Err("unsupported operand type(s) for /: '" + TypeName(v) + "' and 'int'")
  }

  // ----- the document row -----

  /** The row created before extraction: status `processing`. */
  function Started(m: Minted, compoundId: Uuid, filename: string, path: string, size: string): (d: CoaDocument)
    ensures d.id == m.id && d.status == Processing && d.errorMessage == None
  {
    CoaDocument(m.id, compoundId, filename, path, Some(size), Processing, None, m.now, None)
  }

  /** The row once its data is saved: `completed`, stamped with the processing time. */
  function Finished(d: CoaDocument, now: Instant): CoaDocument {
    d.(status := Completed, processedAt := Some(now))
  }

  /** The row as the failure handler means to leave it. */
  function MarkedFailed(d: CoaDocument, msg: string): CoaDocument {
    d.(status := Failed, errorMessage := Some(TruncateError(msg)))
  }

  /**
   * The failure handler: the transaction was rolled back to `snapshot`; the
   * document is recorded with status `failed` and the truncated message.
   */
  function RecordFailure(snapshot: Tables, doc: CoaDocument, msg: string): Tables {
    snapshot.(documents := snapshot.documents + [MarkedFailed(doc, msg)])
  }

  /**
   * The failure handler as written: after `rollback()` the document is looked
   * up by id in the rolled-back tables and marked failed only if found; an
   * update that does not fit its columns is rolled back in turn.
   */
  function RecordFailureAsWritten(snapshot: Tables, id: Uuid, msg: string): Tables {
    match IndexOfId(snapshot.documents, id)
    case None => snapshot
    case Some(i) =>
      var marked := MarkedFailed(snapshot.documents[i], msg);
      if DocumentFits(marked) then snapshot.(documents := snapshot.documents[i := marked]) else snapshot
  }

  /**
   * The lookup runs after the rollback removed the row it looks for, so a
   * document with a new id is never marked failed and leaves no row; the
   * intended handler leaves a failed row with that id and the truncated
   * message.
   */
  lemma FailureLostAsWritten(snapshot: Tables, doc: CoaDocument, msg: string)
    requires FreshId(snapshot.documents, doc.id)
    ensures RecordFailureAsWritten(snapshot, doc.id, msg) == snapshot
    ensures FreshId(RecordFailureAsWritten(snapshot, doc.id, msg).documents, doc.id)
    ensures var t := RecordFailure(snapshot, doc, msg);
      IndexOfId(t.documents, doc.id) == Some(|snapshot.documents|)
      && t.documents[|snapshot.documents|].status == Failed
      && t.documents[|snapshot.documents|].errorMessage == Some(TruncateError(msg))
  {
    var t := RecordFailure(snapshot, doc, msg);
    assert t.documents[..|t.documents| - 1] == snapshot.documents;
  }

  /** A failure record fits the table whenever the created row did. */
  lemma RecordFailureFits(snapshot: Tables, doc: CoaDocument, msg: string)
    requires DocumentFits(doc)
    ensures var t := RecordFailure(snapshot, doc, msg);
      t.extracted == snapshot.extracted && |t.documents| == |snapshot.documents| + 1
      && DocumentFits(t.documents[|snapshot.documents|])
      && |t.documents[|snapshot.documents|].errorMessage.value| <= ErrorMessageMax
  {
    FailedStatusFits(doc, msg);
  }

  // ----- one document -----

  /**
   * The steps after the row is flushed that can raise: text extraction, the
   * empty-text check, and validation of the extracted record.
   */
  function Analysed(text: Result<string, string>, filename: string, env: Services): (r: Result<BatchInfo, string>)
    ensures r.Ok? ==> r.value.filename == filename && SchemaFilled(r.value)
    ensures text.Err? ==> r == Err(text.error)
    ensures text.Ok? && Blank(text.value) ==> r == Err(NoTextMessage)
  {
    match text
    case Err(e) => Err(e)
    case Ok(s) =>
      if Blank(s) then Err(NoTextMessage)
      else
        var b := Extracted(env.hasClient, env.llm, env.loads, s, filename);
        ExtractionAlwaysFilled(env.hasClient, env.llm, env.loads, s, filename);
        match ValidatedBatch(b)
        case Err(e) => Err(e)
        case Ok(v) =>
          ValidatedBatchKeeps(b);
          assert v.testResults.Keys == b.testResults.Keys;
          Ok(v)
  }

  /** `extract_coa_batch_data` followed by `validate_batch_data`, after the empty-text check. */
  method Analyse(text: Result<string, string>, filename: string, env: Services) returns (r: Result<BatchInfo, string>)
    ensures r == Analysed(text, filename, env)
  {
    if text.Err? {
      return Err(text.error);
    }
    if Blank(text.value) {
      return Err(NoTextMessage);
    }
    var b := ExtractCoaBatchData(env.hasClient, env.llm, env.loads, text.value, filename);
    r := ValidateBatchData(b);
  }

  /**
   * After the row is flushed: on success the row is completed and the wanted
   * fields written; on any failure the tables go back to `snapshot` and the
   * failure handler runs as written.
   */
  function Settled(snapshot: Tables, doc: CoaDocument, analysed: Result<BatchInfo, string>, now: Instant, adapt: Adapter)
    : (r: (Tables, Result<BatchInfo, string>))
  {
    match analysed
    case Err(e) => (RecordFailureAsWritten(snapshot, doc.id, e), Err(e))
    case Ok(b) =>
      match RowsOf(doc.id, WantedFields(b), adapt)
      case Err(e) => (RecordFailureAsWritten(snapshot, doc.id, e), Err(e))
      case Ok(rows) => (Tables(snapshot.documents + [Finished(doc, now)], snapshot.extracted + rows), Ok(b))
  }

  function OutcomeOf(r: Result<BatchInfo, string>, documentId: Option<string>, filename: string): Outcome {
    match r
    case Ok(b) => Succeeded(b, filename)
    case Err(e) => Errored(FailedEntry(documentId, filename, e))
  }

  /**
   * Everything from the flushed row on: the analysis, then completion or
   * rollback. A Vault document's record is tagged with its id and version,
   * and its failures name the id.
   */
  function Process(t: Tables, doc: CoaDocument, text: Result<string, string>, now: Instant, env: Services,
                   vaultId: Option<string>, version: string)
    : (r: (Tables, Outcome))
  {
    var s := Settled(t, doc, Analysed(text, doc.filename, env), now, env.adapt);
    var result := if vaultId.Some? then Tagged(s.1, vaultId.value, version) else s.1;
    (s.0, OutcomeOf(result, vaultId, doc.filename))
  }

  /** `os.path.join(pdf_directory, name)` */
  function PdfPath(name: string): string {
    Config.PdfDirectory + "/" + name
  }

  function MissingFileMessage(path: string): string {
    "[Errno 2] No such file or directory: '" + path + "'"
  }

  /**
   * One iteration of `process_directory`'s loop: the compound id is parsed
   * in the duplicate query, an existing document is skipped, the size is read
   * before the row is created, and the row's insert fails when a value is
   * too long for its column.
   */
  function LocalStep(t: Tables, e: ResultCache.DirEntry, compoundId: string, m: Minted, env: Services)
    : (r: (Tables, Outcome))
  {
    match env.parseUuid(compoundId)
    case None => (t, Errored(FailedEntry(None, e.name, BadUuidMessage)))
    case Some(cid) =>
      if HasDocument(t.documents, e.name, cid) then (t, Skipped)
      else match e.stat
        case None => (t, Errored(FailedEntry(None, e.name, MissingFileMessage(PdfPath(e.name)))))
        case Some(st) =>
          var doc := Started(m, cid, e.name, PdfPath(e.name), KbLabel(st.size));
          if !DocumentFits(doc) then (t, Errored(FailedEntry(None, e.name, TooLongMessage)))
          else
            Process(t, doc, Pdf.ExtractTextResult(Pdf.PathSource(PdfPath(e.name)), env.parser), m.now, env, None, "")
  }

  /** `f"{major}.{minor}"` from the document's metadata, defaulting to `1.0`. */
  function VersionOf(metadata: Vault.Metadata): string {
    PyStr(Get(metadata, "major_version_number__v", JInt(1))) + "."
      + PyStr(Get(metadata, "minor_version_number__v", JInt(0)))
  }

  /** `f"{doc_name}_v{doc_version}.pdf"`, the name defaulting to the document id. */
  function VeevaFilename(documentId: string, metadata: Vault.Metadata): string {
    PyStr(Get(metadata, "name__v", JStr(documentId))) + "_v" + VersionOf(metadata) + ".pdf"
  }

  /** The Vault fields added to a processed record after it is saved. */
  function Tagged(r: Result<BatchInfo, string>, documentId: string, version: string): Result<BatchInfo, string> {
    match r
    case Ok(b) => Ok(b.(veeva := Some(VeevaTag(documentId, version))))
    case Err(e) => Err(e)
  }

  /** `process_veeva_document_stream` on a downloaded document. */
  function StreamStep(t: Tables, documentId: string, d: Vault.Downloaded, cid: Uuid, m: Minted, env: Services)
    : (r: (Tables, Outcome))
  {
    var filename := VeevaFilename(documentId, d.metadata);
    if HasDocument(t.documents, filename, cid) then (t, Skipped)
    else match SizeLabel(Get(d.metadata, "downloaded_size", JInt(0)))
      case Err(e) => (t, Errored(FailedEntry(Some(documentId), filename, e)))
      case Ok(size) =>
        var doc := Started(m, cid, filename, "veeva://" + documentId, size);
        if !DocumentFits(doc) then (t, Errored(FailedEntry(Some(documentId), filename, TooLongMessage)))
        else
          Process(t, doc, Pdf.ExtractTextResult(Pdf.BytesSource(d.stream), env.parser), m.now, env,
                  Some(documentId), VersionOf(d.metadata))
  }

  /**
   * One iteration of `process_from_veeva`'s loop: the download comes first,
   * then the compound id is parsed; either failing is reported under the
   * document id.
   */
  function VeevaStep(t: Tables, s: Vault.Session, documentId: string, input: Vault.BatchInput, compoundId: string,
                     m: Minted, env: Services)
    : (r: (Tables, Vault.Session, Outcome))
  {
    var (s1, d) := Vault.DownloadStep(s, input.now, input.replies, documentId, input.stamp);
    match d
    case Err(err) => (t, s1, Errored(FailedEntry(Some(documentId), documentId, err.message)))
    case Ok(dl) =>
      match env.parseUuid(compoundId)
      case None => (t, s1, Errored(FailedEntry(Some(documentId), documentId, BadUuidMessage)))
      case Some(cid) =>
        var (t1, o) := StreamStep(t, documentId, dl, cid, m, env);
        (t1, s1, o)
  }

  // ----- the loops -----

  /** A loop over `xs` in order, the state carried from one item to the next. */
  function Run<S, X>(s: S, xs: seq<X>, step: (S, X) -> (S, Outcome)): (r: (S, seq<Outcome>))
    ensures |r.1| == |xs|
    decreases |xs|
  {
    if xs == [] then (s, [])
    else
      var (s1, o) := step(s, xs[0]);
      var (s2, rest) := Run(s1, xs[1..], step);
      (s2, [o] + rest)
  }

  /**
   * A loop that starts inside a transaction the database has aborted. An
   * item that does not reach the database runs as usual (`abort` gives
   * `None`); the first item that does fails as `abort` says, and its
   * handler's rollback ends the aborted transaction, so the items after it
   * run as usual.
   */
  function RunAborted<S, X>(s: S, xs: seq<X>, step: (S, X) -> (S, Outcome), abort: (S, X) -> Option<(S, Outcome)>)
    : (r: (S, seq<Outcome>))
    ensures |r.1| == |xs|
    decreases |xs|
  {
    if xs == [] then (s, [])
    else match abort(s, xs[0])
      case Some(f) =>
        var (s2, rest) := Run(f.0, xs[1..], step);
        (s2, [f.1] + rest)
      case None =>
        var (s1, o) := step(s, xs[0]);
        var (s2, rest) := RunAborted(s1, xs[1..], step, abort);
        (s2, [o] + rest)
  }

  /** A loop started in an aborted transaction or in a working one. */
  function RunFrom<S, X>(s: S, xs: seq<X>, step: (S, X) -> (S, Outcome), abort: (S, X) -> Option<(S, Outcome)>,
                         aborted: bool)
    : (r: (S, seq<Outcome>))
    ensures |r.1| == |xs|
  {
    if aborted then RunAborted(s, xs, step, abort) else Run(s, xs, step)
  }

  function Zip<A, B>(a: seq<A>, b: seq<B>): (z: seq<(A, B)>)
    requires |a| == |b|
    ensures |z| == |a| && forall i :: 0 <= i < |z| ==> z[i] == (a[i], b[i])
  {
    seq(|a|, i requires 0 <= i < |a| => (a[i], b[i]))
  }

  function Zip3<A, B, C>(a: seq<A>, b: seq<B>, c: seq<C>): (z: seq<(A, B, C)>)
    requires |a| == |b| == |c|
    ensures |z| == |a| && forall i :: 0 <= i < |z| ==> z[i] == (a[i], b[i], c[i])
  {
    seq(|a|, i requires 0 <= i < |a| => (a[i], b[i], c[i]))
  }

  /** One local file, with the id and time minted for it. */
  function LocalStepper(compoundId: string, env: Services): (Tables, (ResultCache.DirEntry, Minted)) -> (Tables, Outcome) {
    (t: Tables, x: (ResultCache.DirEntry, Minted)) => LocalStep(t, x.0, compoundId, x.1, env)
  }

  /**
   * A local file in an aborted transaction: the nested transaction opened
   * for it is refused, so the file fails under its name before anything is
   * read, and the tables stay as they were.
   */
  function LocalAborted(t: Tables, x: (ResultCache.DirEntry, Minted)): Option<(Tables, Outcome)> {
    Some((t, Errored(FailedEntry(None, x.0.name, AbortedMessage))))
  }

  function LocalAbort(): (Tables, (ResultCache.DirEntry, Minted)) -> Option<(Tables, Outcome)> {
    (t: Tables, x: (ResultCache.DirEntry, Minted)) => LocalAborted(t, x)
  }

  /**
   * The local loop: each file in listing order, the tables carried from one
   * to the next; `aborted` when the loop starts inside an aborted transaction.
   */
  function LocalRun(t: Tables, files: seq<ResultCache.DirEntry>, compoundId: string, ms: seq<Minted>, env: Services,
                    aborted: bool)
    : (Tables, seq<Outcome>)
    requires |ms| == |files|
  {
    RunFrom(t, Zip(files, ms), LocalStepper(compoundId, env), LocalAbort(), aborted)
  }

  /**
   * In an aborted transaction the local loop fails its first file with the
   * database's refusal, leaving the tables alone, and runs the other files
   * as usual.
   */
  lemma AbortedLocalRunFailsFirst(t: Tables, files: seq<ResultCache.DirEntry>, compoundId: string, ms: seq<Minted>,
                                  env: Services)
    requires |ms| == |files| && files != []
    ensures var rest := LocalRun(t, files[1..], compoundId, ms[1..], env, false);
      LocalRun(t, files, compoundId, ms, env, true)
      == (rest.0, [Errored(FailedEntry(None, files[0].name, AbortedMessage))] + rest.1)
  {
    assert Zip(files, ms)[1..] == Zip(files[1..], ms[1..]);
  }

  /** One Vault document, with its download replies and the id and time minted for it. */
  function VeevaStepper(compoundId: string, env: Services)
    : ((Tables, Vault.Session), (string, Vault.BatchInput, Minted)) -> ((Tables, Vault.Session), Outcome)
  {
    (ts: (Tables, Vault.Session), x: (string, Vault.BatchInput, Minted)) =>
      var r := VeevaStep(ts.0, ts.1, x.0, x.1, compoundId, x.2, env);
      ((r.0, r.1), r.2)
  }

  /**
   * A Vault document in an aborted transaction. A failed download or a
   * malformed compound id fails before the database is reached, so the
   * transaction stays aborted (`None`). Otherwise the duplicate query is
   * refused: the document fails under its file name, and only the download
   * has changed anything (the session).
   */
  function VeevaAborted(ts: (Tables, Vault.Session), x: (string, Vault.BatchInput, Minted), compoundId: string,
                        env: Services)
    : Option<((Tables, Vault.Session), Outcome)>
  {
    var (s1, d) := Vault.DownloadStep(ts.1, x.1.now, x.1.replies, x.0, x.1.stamp);
    if d.Err? || env.parseUuid(compoundId).None? then None
    else Some(((ts.0, s1), Errored(FailedEntry(Some(x.0), VeevaFilename(x.0, d.value.metadata), AbortedMessage))))
  }

  function VeevaAbort(compoundId: string, env: Services)
    : ((Tables, Vault.Session), (string, Vault.BatchInput, Minted)) -> Option<((Tables, Vault.Session), Outcome)>
  {
    (ts: (Tables, Vault.Session), x: (string, Vault.BatchInput, Minted)) => VeevaAborted(ts, x, compoundId, env)
  }

  /**
   * A Vault document that does not reach the database fails and leaves the
   * tables as they were; one that does fails with the database's refusal
   * after the same download as the usual step.
   */
  lemma VeevaAbortedAgrees(t: Tables, s: Vault.Session, documentId: string, input: Vault.BatchInput,
                           compoundId: string, m: Minted, env: Services)
    ensures var a := VeevaAborted((t, s), (documentId, input, m), compoundId, env);
      var r := VeevaStep(t, s, documentId, input, compoundId, m, env);
      (a.None? ==> r.0 == t && r.2.Errored?)
      && (a.Some? ==> a.value.0 == (t, r.1) && a.value.1.Errored? && a.value.1.entry.error == AbortedMessage)
  {
  }

  /**
   * The Vault loop: each id in request order, the tables and the session
   * carried along; `aborted` when the loop starts inside an aborted
   * transaction.
   */
  function VeevaRun(t: Tables, s: Vault.Session, ids: seq<string>, inputs: seq<Vault.BatchInput>,
                    compoundId: string, ms: seq<Minted>, env: Services, aborted: bool)
    : ((Tables, Vault.Session), seq<Outcome>)
    requires |inputs| == |ids| && |ms| == |ids|
  {
    RunFrom((t, s), Zip3(ids, inputs, ms), VeevaStepper(compoundId, env), VeevaAbort(compoundId, env), aborted)
  }

  /**
   * In an aborted transaction the Vault loop's first document either fails
   * before the database, leaving the tables and the abort as they were, or
   * fails with the database's refusal, after which the other documents run
   * as usual.
   */
  lemma AbortedVeevaRunFirst(t: Tables, s: Vault.Session, ids: seq<string>, inputs: seq<Vault.BatchInput>,
                             compoundId: string, ms: seq<Minted>, env: Services)
    requires |inputs| == |ids| && |ms| == |ids| && ids != []
    ensures var a := VeevaAborted((t, s), (ids[0], inputs[0], ms[0]), compoundId, env);
      var r := VeevaStep(t, s, ids[0], inputs[0], compoundId, ms[0], env);
      var all := VeevaRun(t, s, ids, inputs, compoundId, ms, env, true);
      (a.None? ==> var rest := VeevaRun(t, r.1, ids[1..], inputs[1..], compoundId, ms[1..], env, true);
                   r.0 == t && r.2.Errored? && all == (rest.0, [r.2] + rest.1))
      && (a.Some? ==> var rest := VeevaRun(t, a.value.0.1, ids[1..], inputs[1..], compoundId, ms[1..], env, false);
                      a.value.0.0 == t && all == (rest.0, [a.value.1] + rest.1))
  {
    assert Zip3(ids, inputs, ms)[0] == (ids[0], inputs[0], ms[0]);
    assert Zip3(ids, inputs, ms)[1..] == Zip3(ids[1..], inputs[1..], ms[1..]);
    VeevaAbortedAgrees(t, s, ids[0], inputs[0], compoundId, ms[0], env);
  }

  /** `batch_data_list`: the records of the processed documents, in order. */
  function Batches(os: seq<Outcome>): (bs: seq<BatchInfo>)
    ensures |bs| <= |os|
  {
    if os == [] then []
    else
      var o := os[|os| - 1];
      Batches(os[..|os| - 1]) + (if o.Succeeded? then [o.batch] else [])
  }

  /** `processed_files`: their file names, in the same order. */
  function ProcessedNames(os: seq<Outcome>): (ns: seq<string>)
    ensures |ns| <= |os|
  {
    if os == [] then []
    else
      var o := os[|os| - 1];
      ProcessedNames(os[..|os| - 1]) + (if o.Succeeded? then [o.filename] else [])
  }

  /** `failed_files`, in order. */
  function FailedEntries(os: seq<Outcome>): (fs: seq<FailedEntry>)
    ensures |fs| <= |os|
  {
    if os == [] then []
    else
      var o := os[|os| - 1];
      FailedEntries(os[..|os| - 1]) + (if o.Errored? then [o.entry] else [])
  }

  function SkippedCount(os: seq<Outcome>): nat {
    if os == [] then 0 else SkippedCount(os[..|os| - 1]) + (if os[|os| - 1].Skipped? then 1 else 0)
  }

  /** A failure ahead of a run adds its entry to the front of the failed list and nothing else. */
  lemma {:induction false} FailureFirst(f: FailedEntry, os: seq<Outcome>)
    ensures Batches([Errored(f)] + os) == Batches(os)
    ensures ProcessedNames([Errored(f)] + os) == ProcessedNames(os)
    ensures FailedEntries([Errored(f)] + os) == [f] + FailedEntries(os)
    decreases |os|
  {
    var all := [Errored(f)] + os;
    if os == [] {
      assert all[..0] == [];
    } else {
      var init := os[..|os| - 1];
      FailureFirst(f, init);
      assert all[..|all| - 1] == [Errored(f)] + init;
      assert all[|all| - 1] == os[|os| - 1];
    }
  }

  /** Each processed record carries the name of the file it was read from. */
  predicate NamedAfterFile(os: seq<Outcome>) {
    forall j :: 0 <= j < |os| && os[j].Succeeded? ==> os[j].batch.filename == os[j].filename
  }

  /**
   * Every document lands in exactly one of the three places: the processed
   * lists (which stay parallel), the failed list, or nowhere when skipped.
   */
  lemma {:induction false} OneOutcomeEach(os: seq<Outcome>)
    requires NamedAfterFile(os)
    ensures |Batches(os)| == |ProcessedNames(os)|
    ensures |Batches(os)| + |FailedEntries(os)| + SkippedCount(os) == |os|
    ensures forall i :: 0 <= i < |Batches(os)| ==> ProcessedNames(os)[i] == Batches(os)[i].filename
  {
    if os != [] {
      var front := os[..|os| - 1];
      assert NamedAfterFile(front) by {
        forall j | 0 <= j < |front| ensures front[j] == os[j] { }
      }
      OneOutcomeEach(front);
    }
  }

  // ----- what a step does to the tables -----

  /**
   * The tables after one document: a skip changes nothing; a processed
   * document adds its completed row (with the new id and its file name) and
   * exactly its fields' rows; a failure leaves the tables as they were before
   * the document, apart from what the as-written failure handler does there.
   */
  ghost predicate StepEffect(t: Tables, t1: Tables, o: Outcome, id: Uuid, adapt: Adapter) {
    match o
    case Skipped => t1 == t
    case Succeeded(b, name) =>
      |t1.documents| == |t.documents| + 1 && t1.documents[..|t.documents|] == t.documents
      && t1.documents[|t.documents|].id == id && t1.documents[|t.documents|].status == Completed
      && t1.documents[|t.documents|].filename == name
      && |t.extracted| <= |t1.extracted| && t1.extracted[..|t.extracted|] == t.extracted
      && RowsOf(id, WantedFields(b), adapt) == Ok(t1.extracted[|t.extracted|..])
    case Errored(f) => t1 == t || t1 == RecordFailureAsWritten(t, id, f.error)
  }

  /** With a new id, as `uuid4()` gives, a failed document leaves no trace in the tables. */
  lemma FailedStepLeavesNoRow(t: Tables, t1: Tables, f: FailedEntry, id: Uuid, adapt: Adapter)
    requires FreshId(t.documents, id) && StepEffect(t, t1, Errored(f), id, adapt)
    ensures t1 == t
  {
  }

  /** The effect of the part every document with a row goes through. */
  lemma ProcessEffect(t: Tables, doc: CoaDocument, text: Result<string, string>, now: Instant, env: Services,
                      vaultId: Option<string>, version: string)
    ensures var r := Process(t, doc, text, now, env, vaultId, version);
      StepEffect(t, r.0, r.1, doc.id, env.adapt)
      && (r.1.Succeeded? ==> r.1.filename == doc.filename && r.1.batch.filename == doc.filename
                             && (vaultId.Some? ==> r.1.batch.veeva == Some(VeevaTag(vaultId.value, version))))
      && (r.1.Errored? ==> r.1.entry.filename == doc.filename && r.1.entry.documentId == vaultId)
  {
    var s := Settled(t, doc, Analysed(text, doc.filename, env), now, env.adapt);
    if s.1.Ok? {
      var n := |t.documents|;
      assert s.0.documents[..n] == t.documents;
      var rows := RowsOf(doc.id, WantedFields(s.1.value), env.adapt).value;
      assert s.0.extracted[..|t.extracted|] == t.extracted && s.0.extracted[|t.extracted|..] == rows;
    } else {
      assert s.0 == RecordFailureAsWritten(t, doc.id, s.1.error);
    }
  }

  /**
   * One local file: skipped exactly when the compound id parses and a document
   * of that name exists under it, and in every case the tables change as
   * `StepEffect` says, with the processed record named after the file.
   */
  lemma LocalStepEffect(t: Tables, e: ResultCache.DirEntry, compoundId: string, m: Minted, env: Services)
    ensures var r := LocalStep(t, e, compoundId, m, env);
      (r.1.Skipped? <==> env.parseUuid(compoundId).Some? && HasDocument(t.documents, e.name, env.parseUuid(compoundId).value))
      && StepEffect(t, r.0, r.1, m.id, env.adapt)
      && (r.1.Succeeded? ==> r.1.filename == e.name && r.1.batch.filename == e.name)
      && (r.1.Errored? ==> r.1.entry.filename == e.name && r.1.entry.documentId == None)
  {
    match env.parseUuid(compoundId)
    case None =>
    case Some(cid) =>
      if !HasDocument(t.documents, e.name, cid) && e.stat.Some? {
        var doc := Started(m, cid, e.name, PdfPath(e.name), KbLabel(e.stat.value.size));
        ProcessEffect(t, doc, Pdf.ExtractTextResult(Pdf.PathSource(PdfPath(e.name)), env.parser), m.now, env, None, "");
      }
  }

  /**
   * A file that failed under a new id leaves no row behind, so the next run
   * over the same tables takes it up again instead of skipping it.
   */
  lemma FailedFileRetried(t: Tables, e: ResultCache.DirEntry, compoundId: string, m: Minted, m2: Minted, env: Services)
    requires FreshId(t.documents, m.id)
    requires LocalStep(t, e, compoundId, m, env).1.Errored?
    ensures LocalStep(t, e, compoundId, m, env).0 == t
    ensures !LocalStep(LocalStep(t, e, compoundId, m, env).0, e, compoundId, m2, env).1.Skipped?
  {
    var r := LocalStep(t, e, compoundId, m, env);
    LocalStepEffect(t, e, compoundId, m, env);
    FailedStepLeavesNoRow(t, r.0, r.1.entry, m.id, env.adapt);
    LocalStepEffect(t, e, compoundId, m2, env);
  }

  /** The same for one Vault document, whose records are also tagged with the document and version. */
  lemma VeevaStepEffect(t: Tables, s: Vault.Session, documentId: string, input: Vault.BatchInput, compoundId: string,
                        m: Minted, env: Services)
    ensures var r := VeevaStep(t, s, documentId, input, compoundId, m, env);
      StepEffect(t, r.0, r.2, m.id, env.adapt)
      && (r.2.Succeeded? ==> r.2.batch.filename == r.2.filename
                             && r.2.batch.veeva.Some? && r.2.batch.veeva.value.documentId == documentId)
      && (r.2.Errored? ==> r.2.entry.documentId == Some(documentId))
  {
    var d := Vault.DownloadStep(s, input.now, input.replies, documentId, input.stamp).1;
    if d.Ok? && env.parseUuid(compoundId).Some? {
      StreamStepEffect(t, documentId, d.value, env.parseUuid(compoundId).value, m, env);
    }
  }

  lemma StreamStepEffect(t: Tables, documentId: string, d: Vault.Downloaded, cid: Uuid, m: Minted, env: Services)
    ensures var r := StreamStep(t, documentId, d, cid, m, env);
      StepEffect(t, r.0, r.1, m.id, env.adapt)
      && (r.1.Succeeded? ==> r.1.batch.filename == r.1.filename
                             && r.1.batch.veeva == Some(VeevaTag(documentId, VersionOf(d.metadata))))
      && (r.1.Errored? ==> r.1.entry.documentId == Some(documentId))
  {
    var filename := VeevaFilename(documentId, d.metadata);
    var size := SizeLabel(Get(d.metadata, "downloaded_size", JInt(0)));
    if !HasDocument(t.documents, filename, cid) && size.Ok? {
      var doc := Started(m, cid, filename, "veeva://" + documentId, size.value);
      ProcessEffect(t, doc, Pdf.ExtractTextResult(Pdf.BytesSource(d.stream), env.parser), m.now, env,
                    Some(documentId), VersionOf(d.metadata));
    }
  }

  /**
   * The round trip of a processed document: reading the compound's batches
   * back finds the new row completed, and the record rebuilt from its rows is
   * the summary of the record that was saved.
   */
  lemma SettledReadsBack(t: Tables, doc: CoaDocument, a: Result<BatchInfo, string>, now: Instant, adapt: Adapter)
    requires forall x :: x in t.extracted ==> x.documentId != doc.id
    requires a.Ok? ==> a.value.filename == doc.filename
    requires Settled(t, doc, a, now, adapt).1.Ok?
    ensures var t1 := Settled(t, doc, a, now, adapt).0;
      |t1.documents| == |t.documents| + 1
      && CompletedFor(t1.documents[|t.documents|], doc.compoundId)
      && Rebuild(doc.filename, RowsFor(t1.extracted, doc.id)) == Summary(a.value, adapt)
  {
    SettledOk(t, doc, a, now, adapt);
    WrittenReadsBack(t.extracted, doc.id, a.value, adapt);
  }

  /**
   * After a document is processed, the compound's batch analysis answers and
   * holds the summary of the record that was saved, provided the record had
   * at least one field to write.
   */
  lemma SettledInAnalysis(t: Tables, doc: CoaDocument, a: Result<BatchInfo, string>, now: Instant, adapt: Adapter)
    requires forall x :: x in t.extracted ==> x.documentId != doc.id
    requires a.Ok? ==> a.value.filename == doc.filename && WantedFields(a.value) != []
    requires Settled(t, doc, a, now, adapt).1.Ok?
    ensures var r := BatchAnalysis(Settled(t, doc, a, now, adapt).0, doc.compoundId);
      r.Ok? && Summary(a.value, adapt) in r.value
  {
    var t1 := Settled(t, doc, a, now, adapt).0;
    SettledOk(t, doc, a, now, adapt);
    SettledReadsBack(t, doc, a, now, adapt);
    var d := t1.documents[|t.documents|];
    assert d == Finished(doc, now) && d in t1.documents;
    var rows := Rows(doc.id, WantedFields(a.value), adapt);
    RowsForFresh(t.extracted, rows, doc.id) by {
      forall x | x in rows ensures x.documentId == doc.id {
        var k :| 0 <= k < |rows| && rows[k] == x;
      }
    }
    assert RowsFor(t1.extracted, d.id) == rows != [];
  }

  /** A settlement that succeeds completed the row and wrote the wanted fields' rows. */
  lemma SettledOk(t: Tables, doc: CoaDocument, a: Result<BatchInfo, string>, now: Instant, adapt: Adapter)
    requires Settled(t, doc, a, now, adapt).1.Ok?
    ensures a.Ok? && Adapted(WantedFields(a.value), adapt)
    ensures Settled(t, doc, a, now, adapt).0
         == Tables(t.documents + [Finished(doc, now)], t.extracted + Rows(doc.id, WantedFields(a.value), adapt))
  {
  }

  /** A loop whose every step names its record after its file keeps the processed lists aligned. */
  lemma {:induction false} RunNamed<S, X>(s: S, xs: seq<X>, step: (S, X) -> (S, Outcome))
    requires forall s0, x :: NamedAfterFile([step(s0, x).1])
    ensures NamedAfterFile(Run(s, xs, step).1)
    decreases |xs|
  {
    if xs != [] {
      var (s1, o) := step(s, xs[0]);
      RunNamed(s1, xs[1..], step);
      var os := Run(s, xs, step).1;
      var rest := Run(s1, xs[1..], step).1;
      assert os == [o] + rest;
      assert NamedAfterFile([o]);
      forall j | 1 <= j < |os| ensures os[j] == rest[j - 1] { }
    }
  }

  /** The same for a loop that may start in an aborted transaction, whose refusals process nothing. */
  lemma {:induction false} RunFromNamed<S, X>(s: S, xs: seq<X>, step: (S, X) -> (S, Outcome),
                                              abort: (S, X) -> Option<(S, Outcome)>, aborted: bool)
    requires forall s0, x :: NamedAfterFile([step(s0, x).1])
    requires forall s0, x :: abort(s0, x).Some? ==> !abort(s0, x).value.1.Succeeded?
    ensures NamedAfterFile(RunFrom(s, xs, step, abort, aborted).1)
    decreases |xs|
  {
    if !aborted {
      RunNamed(s, xs, step);
    } else if xs != [] {
      var os := RunFrom(s, xs, step, abort, aborted).1;
      match abort(s, xs[0]) {
        case Some(f) =>
          RunNamed(f.0, xs[1..], step);
          var rest := Run(f.0, xs[1..], step).1;
          assert os == [f.1] + rest;
          forall j | 1 <= j < |os| ensures os[j] == rest[j - 1] { }
        case None =>
          var (s1, o) := step(s, xs[0]);
          RunFromNamed(s1, xs[1..], step, abort, true);
          var rest := RunAborted(s1, xs[1..], step, abort).1;
          assert os == [o] + rest;
          assert NamedAfterFile([o]);
          forall j | 1 <= j < |os| ensures os[j] == rest[j - 1] { }
      }
    }
  }

  /** Every local outcome names its record after its file. */
  lemma LocalRunNamed(t: Tables, files: seq<ResultCache.DirEntry>, compoundId: string, ms: seq<Minted>, env: Services,
                      aborted: bool)
    requires |ms| == |files|
    ensures NamedAfterFile(LocalRun(t, files, compoundId, ms, env, aborted).1)
  {
    var step := LocalStepper(compoundId, env);
    forall t0, x ensures NamedAfterFile([step(t0, x).1]) {
      LocalStepEffect(t0, x.0, compoundId, x.1, env);
    }
    RunFromNamed(t, Zip(files, ms), step, LocalAbort(), aborted);
  }

  /** Every Vault outcome names its record after its file. */
  lemma VeevaRunNamed(t: Tables, s: Vault.Session, ids: seq<string>, inputs: seq<Vault.BatchInput>,
                      compoundId: string, ms: seq<Minted>, env: Services, aborted: bool)
    requires |inputs| == |ids| && |ms| == |ids|
    ensures NamedAfterFile(VeevaRun(t, s, ids, inputs, compoundId, ms, env, aborted).1)
  {
    var step := VeevaStepper(compoundId, env);
    forall ts, x ensures NamedAfterFile([step(ts, x).1]) {
      VeevaStepEffect(ts.0, ts.1, x.0, x.1, compoundId, x.2, env);
    }
    RunFromNamed((t, s), Zip3(ids, inputs, ms), step, VeevaAbort(compoundId, env), aborted);
  }

  // ----- the imperative loops over the database -----

  /** The failure handler on the rolled-back database. */
  method MarkFailed(db: Database, doc: CoaDocument, msg: string)
    requires DocumentFits(doc)
    modifies db
    ensures db.State() == RecordFailure(old(db.State()), doc, msg)
  {
    FailedStatusFits(doc, msg);
    var _ := db.AddDocument(MarkedFailed(doc, msg));
  }

  /**
   * The failure handler as written, on the rolled-back database: the row is
   * looked up by id and marked failed only if it is found and still fits.
   */
  method MarkFailedAsWritten(db: Database, id: Uuid, msg: string)
    modifies db
    ensures db.State() == RecordFailureAsWritten(old(db.State()), id, msg)
  {
    var found := IndexOfId(db.documents, id);
    if found.Some? {
      var _ := db.UpdateDocument(found.value, MarkedFailed(db.documents[found.value], msg));
    }
  }

  /**
   * Completes the flushed row and writes the fields, or rolls back to
   * `snapshot` and runs the failure handler.
   */
  method Settle(db: Database, snapshot: Tables, doc: CoaDocument, analysed: Result<BatchInfo, string>, now: Instant,
                adapt: Adapter)
    returns (r: Result<BatchInfo, string>)
    requires DocumentFits(doc)
    requires db.State() == Tables(snapshot.documents + [doc], snapshot.extracted)
    modifies db
    ensures (db.State(), r) == Settled(snapshot, doc, analysed, now, adapt)
  {
    if analysed.Err? {
      db.Restore(snapshot);
      MarkFailedAsWritten(db, doc.id, analysed.error);
      return Err(analysed.error);
    }
    var b := analysed.value;
    var _ := db.UpdateDocument(|db.documents| - 1, Finished(doc, now));
    assert db.documents == snapshot.documents + [Finished(doc, now)];
    var written := db.AddFields(doc.id, WantedFields(b), adapt);
    assert written.Err? ==> RowsOf(doc.id, WantedFields(b), adapt) == Err(written.error);
    if written.Err? {
      db.Restore(snapshot);
      MarkFailedAsWritten(db, doc.id, written.error);
      return Err(written.error);
    }
    r := Ok(b);
  }

  /** From the flushed row on: the text is extracted, analysed, and the row settled. */
  method ProcessRow(db: Database, snapshot: Tables, doc: CoaDocument, text: Result<string, string>, now: Instant,
                    env: Services, vaultId: Option<string>, version: string)
    returns (o: Outcome)
    requires DocumentFits(doc)
    requires db.State() == Tables(snapshot.documents + [doc], snapshot.extracted)
    modifies db
    ensures (db.State(), o) == Process(snapshot, doc, text, now, env, vaultId, version)
  {
    var analysed := Analyse(text, doc.filename, env);
    var r := Settle(db, snapshot, doc, analysed, now, env.adapt);
    if vaultId.Some? {
      r := Tagged(r, vaultId.value, version);
    }
    o := OutcomeOf(r, vaultId, doc.filename);
  }

  /** One iteration of `process_directory`'s loop, inside its nested transaction. */
  method ProcessLocalFile(db: Database, e: ResultCache.DirEntry, compoundId: string, m: Minted, env: Services)
    returns (o: Outcome)
    modifies db
    ensures (db.State(), o) == LocalStep(old(db.State()), e, compoundId, m, env)
  {
    var parsed := env.parseUuid(compoundId);
    if parsed.None? {
      return Errored(FailedEntry(None, e.name, BadUuidMessage));
    }
    var cid := parsed.value;
    if HasDocument(db.documents, e.name, cid) {
      return Skipped;
    }
    if e.stat.None? {
      return Errored(FailedEntry(None, e.name, MissingFileMessage(PdfPath(e.name))));
    }
    var path := PdfPath(e.name);
    var doc := Started(m, cid, e.name, path, KbLabel(e.stat.value.size));
    var snapshot := db.State();
    var added := db.AddDocument(doc);
    if added.Err? {
      return Errored(FailedEntry(None, e.name, TooLongMessage));
    }
    var text, _ := Pdf.ExtractText(Pdf.PathSource(path), env.parser);
    o := ProcessRow(db, snapshot, doc, text, m.now, env, None, "");
  }

  /** `process_veeva_document_stream` */
  method ProcessVeevaStream(db: Database, documentId: string, d: Vault.Downloaded, cid: Uuid, m: Minted, env: Services)
    returns (o: Outcome)
    modifies db
    ensures (db.State(), o) == StreamStep(old(db.State()), documentId, d, cid, m, env)
  {
    var filename := VeevaFilename(documentId, d.metadata);
    if HasDocument(db.documents, filename, cid) {
      return Skipped;
    }
    var size := SizeLabel(Get(d.metadata, "downloaded_size", JInt(0)));
    if size.Err? {
      return Errored(FailedEntry(Some(documentId), filename, size.error));
    }
    var doc := Started(m, cid, filename, "veeva://" + documentId, size.value);
    var snapshot := db.State();
    var added := db.AddDocument(doc);
    if added.Err? {
      return Errored(FailedEntry(Some(documentId), filename, TooLongMessage));
    }
    var text := Pdf.ExtractTextFromStream(d.stream, env.parser);
    o := ProcessRow(db, snapshot, doc, text, m.now, env, Some(documentId), VersionOf(d.metadata));
  }

  /** One iteration of `process_from_veeva`'s loop: the download, then the stream. */
  method ProcessVeevaDocument(db: Database, vault: Vault.VeevaService, documentId: string, input: Vault.BatchInput,
                              compoundId: string, m: Minted, env: Services)
    returns (o: Outcome)
    modifies db, vault
    ensures (db.State(), vault.State(), o) == VeevaStep(old(db.State()), old(vault.State()), documentId, input, compoundId, m, env)
  {
    var d := vault.DownloadDocumentAsStream(input.now, input.replies, documentId, input.stamp);
    if d.Err? {
      return Errored(FailedEntry(Some(documentId), documentId, d.error.message));
    }
    var parsed := env.parseUuid(compoundId);
    if parsed.None? {
      return Errored(FailedEntry(Some(documentId), documentId, BadUuidMessage));
    }
    o := ProcessVeevaStream(db, documentId, d.value, parsed.value, m, env);
  }

  /**
   * The same iteration inside an aborted transaction: a failed download or a
   * malformed compound id fails as usual and leaves the transaction aborted;
   * otherwise the duplicate query is refused and the handler's rollback ends
   * the aborted transaction (`still` is false).
   */
  method ProcessVeevaDocumentAborted(vault: Vault.VeevaService, documentId: string, input: Vault.BatchInput,
                                     compoundId: string, ghost t: Tables, m: Minted, env: Services)
    returns (o: Outcome, still: bool)
    modifies vault
    ensures var a := VeevaAborted((t, old(vault.State())), (documentId, input, m), compoundId, env);
      var r := VeevaStep(t, old(vault.State()), documentId, input, compoundId, m, env);
      still == a.None?
      && (a.Some? ==> ((t, vault.State()), o) == a.value)
      && (a.None? ==> (t, vault.State(), o) == r)
  {
    var d := vault.DownloadDocumentAsStream(input.now, input.replies, documentId, input.stamp);
    if d.Err? {
      return Errored(FailedEntry(Some(documentId), documentId, d.error.message)), true;
    }
    var parsed := env.parseUuid(compoundId);
    if parsed.None? {
      return Errored(FailedEntry(Some(documentId), documentId, BadUuidMessage)), true;
    }
    o := Errored(FailedEntry(Some(documentId), VeevaFilename(documentId, d.value.metadata), AbortedMessage));
    still := false;
  }

  /**
   * `step` is the local step: stated with the step itself as the trigger, so
   * that a loop over `step` does not unfold it.
   */
  ghost predicate StepsLocally(step: (Tables, (ResultCache.DirEntry, Minted)) -> (Tables, Outcome),
                               compoundId: string, env: Services)
  {
    forall t, e, m {:trigger LocalStep(t, e, compoundId, m, env)} ::
      step(t, (e, m)) == LocalStep(t, e, compoundId, m, env)
  }

  lemma LocalStepperSteps(compoundId: string, env: Services)
    ensures StepsLocally(LocalStepper(compoundId, env), compoundId, env)
  {
  }

  ghost predicate StepsOnVault(step: ((Tables, Vault.Session), (string, Vault.BatchInput, Minted))
                                     -> ((Tables, Vault.Session), Outcome),
                               compoundId: string, env: Services)
  {
    forall t, s, id, input, m {:trigger VeevaStep(t, s, id, input, compoundId, m, env)} ::
      var r := VeevaStep(t, s, id, input, compoundId, m, env);
      step((t, s), (id, input, m)) == ((r.0, r.1), r.2)
  }

  lemma VeevaStepperSteps(compoundId: string, env: Services)
    ensures StepsOnVault(VeevaStepper(compoundId, env), compoundId, env)
  {
  }

  /** `abort` is the local refusal, stated with the refusal itself as the trigger. */
  ghost predicate AbortsLocally(abort: (Tables, (ResultCache.DirEntry, Minted)) -> Option<(Tables, Outcome)>) {
    forall t, x {:trigger LocalAborted(t, x)} :: abort(t, x) == LocalAborted(t, x)
  }

  lemma LocalAbortAborts()
    ensures AbortsLocally(LocalAbort())
  {
  }

  /** `abort` is the Vault refusal, stated with the refusal itself as the trigger. */
  ghost predicate AbortsOnVault(abort: ((Tables, Vault.Session), (string, Vault.BatchInput, Minted))
                                       -> Option<((Tables, Vault.Session), Outcome)>,
                                compoundId: string, env: Services)
  {
    forall ts, x {:trigger VeevaAborted(ts, x, compoundId, env)} :: abort(ts, x) == VeevaAborted(ts, x, compoundId, env)
  }

  lemma VeevaAbortAborts(compoundId: string, env: Services)
    ensures AbortsOnVault(VeevaAbort(compoundId, env), compoundId, env)
  {
  }

  /** One file of the local loop, keeping the loop's account of the run. */
  method LocalTurn(db: Database, x: (ResultCache.DirEntry, Minted), ghost items: seq<(ResultCache.DirEntry, Minted)>,
                   ghost i: nat, compoundId: string, env: Services,
                   ghost step: (Tables, (ResultCache.DirEntry, Minted)) -> (Tables, Outcome),
                   ghost abort: (Tables, (ResultCache.DirEntry, Minted)) -> Option<(Tables, Outcome)>,
                   aborted: bool, ghost all: (Tables, seq<Outcome>), ghost done: seq<Outcome>)
    returns (o: Outcome)
    requires i < |items| && items[i] == x && StepsLocally(step, compoundId, env) && AbortsLocally(abort)
    requires var rest := RunFrom(db.State(), items[i..], step, abort, aborted);
      all.0 == rest.0 && all.1 == done + rest.1
    modifies db
    ensures var rest := RunFrom(db.State(), items[i + 1..], step, abort, false);
      all.0 == rest.0 && all.1 == (done + [o]) + rest.1
  {
    RunFromAdvance(all, done, db.State(), items, i, step, abort, aborted);
    if aborted {
      assert abort(db.State(), x) == LocalAborted(db.State(), x);
      o := Errored(FailedEntry(None, x.0.name, AbortedMessage));
    } else {
      o := ProcessLocalFile(db, x.0, compoundId, x.1, env);
    }
  }

  /** One document of the Vault loop, keeping the loop's account of the run. */
  method VeevaTurn(db: Database, vault: Vault.VeevaService, x: (string, Vault.BatchInput, Minted),
                   ghost items: seq<(string, Vault.BatchInput, Minted)>, ghost i: nat, compoundId: string, env: Services,
                   ghost step: ((Tables, Vault.Session), (string, Vault.BatchInput, Minted))
                               -> ((Tables, Vault.Session), Outcome),
                   ghost abort: ((Tables, Vault.Session), (string, Vault.BatchInput, Minted))
                                -> Option<((Tables, Vault.Session), Outcome)>,
                   aborted: bool, ghost all: ((Tables, Vault.Session), seq<Outcome>), ghost done: seq<Outcome>)
    returns (o: Outcome, still: bool)
    requires i < |items| && items[i] == x && StepsOnVault(step, compoundId, env)
    requires AbortsOnVault(abort, compoundId, env)
    requires var rest := RunFrom((db.State(), vault.State()), items[i..], step, abort, aborted);
      all.0 == rest.0 && all.1 == done + rest.1
    modifies db, vault
    ensures still ==> aborted
    ensures var rest := RunFrom((db.State(), vault.State()), items[i + 1..], step, abort, still);
      all.0 == rest.0 && all.1 == (done + [o]) + rest.1
  {
    RunFromAdvance(all, done, (db.State(), vault.State()), items, i, step, abort, aborted);
    if aborted {
      ghost var ts := (db.State(), vault.State());
      assert abort(ts, x) == VeevaAborted(ts, x, compoundId, env);
      o, still := ProcessVeevaDocumentAborted(vault, x.0, x.1, compoundId, db.State(), x.2, env);
    } else {
      o := ProcessVeevaDocument(db, vault, x.0, x.1, compoundId, x.2, env);
      still := false;
    }
  }

  /**
   * One turn of a loop that follows `RunFrom`: the item is refused when the
   * transaction is aborted and the item reaches the database, and stepped
   * otherwise; the transaction stays aborted only while no item reaches it.
   */
  lemma RunFromAdvance<S, X>(all: (S, seq<Outcome>), done: seq<Outcome>, s: S, xs: seq<X>, i: nat,
                             step: (S, X) -> (S, Outcome), abort: (S, X) -> Option<(S, Outcome)>, aborted: bool)
    requires i < |xs|
    requires var r := RunFrom(s, xs[i..], step, abort, aborted); all.0 == r.0 && all.1 == done + r.1
    ensures var a := if aborted then abort(s, xs[i]) else None;
      var turn := if a.Some? then a.value else step(s, xs[i]);
      var rest := RunFrom(turn.0, xs[i + 1..], step, abort, aborted && a.None?);
      all.0 == rest.0 && all.1 == (done + [turn.1]) + rest.1
  {
    assert xs[i..][0] == xs[i] && xs[i..][1..] == xs[i + 1..];
  }

  /** The loop body's bookkeeping: a processed document goes to both processed lists, a failure to the failed list. */
  method Collect(ghost done: seq<Outcome>, o: Outcome, batches: seq<BatchInfo>, processed: seq<string>,
                 failed: seq<FailedEntry>)
    returns (batches': seq<BatchInfo>, processed': seq<string>, failed': seq<FailedEntry>)
    requires batches == Batches(done) && processed == ProcessedNames(done) && failed == FailedEntries(done)
    ensures batches' == Batches(done + [o]) && processed' == ProcessedNames(done + [o])
    ensures failed' == FailedEntries(done + [o])
  {
    assert (done + [o])[..|done|] == done;
    batches', processed', failed' := batches, processed, failed;
    match o {
      case Succeeded(b, name) =>
        batches' := batches + [b];
        processed' := processed + [name];
      case Errored(f) =>
        failed' := failed + [f];
      case Skipped =>
    }
  }

  /**
   * `process_directory`'s loop over the PDF files, filling the three lists;
   * `step` is the local step (`LocalStepper`), so the result is `LocalRun`'s.
   */
  method ProcessLocalFiles(db: Database, files: seq<ResultCache.DirEntry>, compoundId: string, ms: seq<Minted>,
                           env: Services, aborted: bool,
                           ghost step: (Tables, (ResultCache.DirEntry, Minted)) -> (Tables, Outcome),
                           ghost abort: (Tables, (ResultCache.DirEntry, Minted)) -> Option<(Tables, Outcome)>)
    returns (batches: seq<BatchInfo>, processed: seq<string>, failed: seq<FailedEntry>)
    requires |ms| == |files| && StepsLocally(step, compoundId, env) && AbortsLocally(abort)
    modifies db
    ensures var run := RunFrom(old(db.State()), Zip(files, ms), step, abort, aborted);
      db.State() == run.0
      && batches == Batches(run.1) && processed == ProcessedNames(run.1) && failed == FailedEntries(run.1)
  {
    batches, processed, failed := [], [], [];
    ghost var items := Zip(files, ms);
    ghost var all := RunFrom(db.State(), items, step, abort, aborted);
    ghost var done: seq<Outcome> := [];
    var still := aborted;
    var i := 0;
    assert items[i..] == items;
    while i < |files|
      invariant 0 <= i <= |files|
      invariant var rest := RunFrom(db.State(), items[i..], step, abort, still);
        all.0 == rest.0 && all.1 == done + rest.1
      invariant batches == Batches(done) && processed == ProcessedNames(done) && failed == FailedEntries(done)
    {
      var o := LocalTurn(db, (files[i], ms[i]), items, i, compoundId, env, step, abort, still, all, done);
      still := false;
      batches, processed, failed := Collect(done, o, batches, processed, failed);
      done := done + [o];
      i := i + 1;
    }
    assert done + [] == done;
  }

  /**
   * `process_from_veeva`'s loop over the requested ids, filling the three
   * lists; `step` is the Vault step (`VeevaStepper`), so the result is
   * `VeevaRun`'s.
   */
  method ProcessVeevaDocuments(db: Database, vault: Vault.VeevaService, ids: seq<string>, inputs: seq<Vault.BatchInput>,
                               compoundId: string, ms: seq<Minted>, env: Services,
                               aborted: bool,
                               ghost step: ((Tables, Vault.Session), (string, Vault.BatchInput, Minted))
                                           -> ((Tables, Vault.Session), Outcome),
                               ghost abort: ((Tables, Vault.Session), (string, Vault.BatchInput, Minted))
                                            -> Option<((Tables, Vault.Session), Outcome)>)
    returns (batches: seq<BatchInfo>, processed: seq<string>, failed: seq<FailedEntry>)
    requires |inputs| == |ids| && |ms| == |ids| && StepsOnVault(step, compoundId, env)
    requires AbortsOnVault(abort, compoundId, env)
    modifies db, vault
    ensures var run := RunFrom((old(db.State()), old(vault.State())), Zip3(ids, inputs, ms), step, abort, aborted);
      db.State() == run.0.0 && vault.State() == run.0.1
      && batches == Batches(run.1) && processed == ProcessedNames(run.1) && failed == FailedEntries(run.1)
  {
    batches, processed, failed := [], [], [];
    ghost var items := Zip3(ids, inputs, ms);
    ghost var all := RunFrom((db.State(), vault.State()), items, step, abort, aborted);
    ghost var done: seq<Outcome> := [];
    var still := aborted;
    var i := 0;
    assert items[i..] == items;
    while i < |ids|
      invariant 0 <= i <= |ids|
      invariant var rest := RunFrom((db.State(), vault.State()), items[i..], step, abort, still);
        all.0 == rest.0 && all.1 == done + rest.1
      invariant batches == Batches(done) && processed == ProcessedNames(done) && failed == FailedEntries(done)
    {
      var o;
      o, still := VeevaTurn(db, vault, (ids[i], inputs[i], ms[i]), items, i, compoundId, env, step, abort, still,
                            all, done);
      batches, processed, failed := Collect(done, o, batches, processed, failed);
      done := done + [o];
      i := i + 1;
    }
    assert done + [] == done;
  }
}
