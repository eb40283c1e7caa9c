// The Veeva Vault client: a cached session with a 20-minute lifetime and a
// 5-minute refresh margin, document lookup by number, streamed download, and
// the per-document batch download. The clock and every HTTP reply are
// parameters; a reply stands for whatever the Vault (or the transport) sent.
module Veeva {
  import opened Wrappers
  import opened Json
  import opened Streams
  import opened Models

  const Minute: int := 60_000_000
  /** Vault sessions are taken to last 20 minutes from authentication. */
  const SessionLifetime: int := 20 * Minute
  /** A session is renewed once fewer than 5 minutes of it remain. */
  const RefreshBuffer: int := 5 * Minute
  const DownloadChunkSize: nat := 8192

  /** `session_id` and `session_expires_at`. */
  datatype Session = Session(id: Option<string>, expiresAt: Option<Instant>)

  /** `VeevaAPIError`, or any other exception escaping the client. */
  datatype VeevaError = ApiError(message: string) | OtherError(message: string)

  type Metadata = map<string, Json>

  /**
   * A reply from the Vault. `Transport` is any `requests` failure (connection,
   * an HTTP error status, a body that is not JSON); `errors` is the body's
   * `errors` list, each entry's `message` if it has one, or `None` when the
   * key is absent.
   */
  datatype AuthReply =
    | AuthTransport(failure: string)
    | AuthBody(responseStatus: Option<string>, sessionId: Option<string>, errors: Option<seq<Option<string>>>)

  datatype SearchReply =
    | SearchTransport(failure: string)
    | SearchBody(responseStatus: Option<string>, rows: Option<seq<Metadata>>, errors: Option<seq<Option<string>>>)

  /** The rendition request: a transport failure, a JSON error body, or the PDF bytes in chunks. */
  datatype DownloadReply =
    | DownloadTransport(failure: string)
    | DownloadJson(errors: Option<seq<Option<string>>>)
    | DownloadBody(chunks: seq<seq<byte>>)

  /** The replies one document download consumes, in request order. */
  datatype VaultReplies = VaultReplies(auth: AuthReply, search: SearchReply, download: DownloadReply)

  /** A downloaded document: the rewound stream and the enriched metadata. */
  datatype Downloaded = Downloaded(stream: ByteStream, metadata: Metadata)

  /** `_is_session_valid`: both fields set (the id non-empty) and more than the buffer left. */
  predicate SessionValid(s: Session, now: Instant) {
    s.id.Some? && s.id.value != [] && s.expiresAt.Some? && now < s.expiresAt.value - RefreshBuffer
  }

  /** A closed or never-opened client has no valid session at any time. */
  lemma NoSessionNeverValid(now: Instant)
    ensures !SessionValid(Session(None, None), now)
  {
  }

  /** A session opened at `t` is reused until 15 minutes after `t`, and not from then on. */
  lemma FreshSessionValidity(id: string, t: Instant, later: Instant)
    requires id != []
    ensures SessionValid(Session(Some(id), Some(t + SessionLifetime)), later) <==> later < t + 15 * Minute
  {
  }

  /**
   * `data.get("errors", [{"message": "Unknown error"}])[0].get("message")`:
   * an empty list raises `IndexError`, a missing message reads as `None`.
   */
  function FirstErrorMessage(errors: Option<seq<Option<string>>>): (r: Result<string, VeevaError>)
    ensures errors.None? ==> r == Ok("Unknown error")
    ensures r.Err? <==> errors == Some([])
  {
    match errors
    case None => Ok("Unknown error")
    case Some(es) =>
      if es == [] then Err(OtherError("list index out of range"))
      else Ok(if es[0].Some? then es[0].value else "None")
  }

  /** The exception an unsuccessful body raises: `prefix` and the first error message. */
  function FailureOf(prefix: string, errors: Option<seq<Option<string>>>): (e: VeevaError)
    ensures e.ApiError? <==> errors != Some([])
  {
    match FirstErrorMessage(errors)
    case Ok(m) => ApiError(prefix + m)
    case Err(e) => e
  }

  /**
   * `authenticate`: the current id when the session is valid, with no
   * request; otherwise the reply decides. Success stores the id and an expiry
   * 20 minutes from now; any failure leaves the session as it was.
   */
  function AuthStep(s: Session, now: Instant, reply: AuthReply): (r: (Session, Result<Option<string>, VeevaError>))
    ensures SessionValid(s, now) ==> r == (s, Ok(s.id))
    ensures r.1.Err? ==> r.0 == s
    ensures !SessionValid(s, now) && r.1.Ok? ==>
      reply.AuthBody? && reply.responseStatus == Some("SUCCESS")
      && r.0 == Session(reply.sessionId, Some(now + SessionLifetime)) && r.1.value == reply.sessionId
  {
    if SessionValid(s, now) then (s, Ok(s.id))
    else
      match reply
      case AuthTransport(f) => (s, Err(ApiError("Authentication request failed: " + f)))
      case AuthBody(st, id, errors) =>
        if st == Some("SUCCESS") then (Session(id, Some(now + SessionLifetime)), Ok(id))
        else (s, Err(FailureOf("Authentication failed: ", errors)))
  }

  /** A fresh authentication that yields an id makes the session valid for the next 15 minutes. */
  lemma AuthenticatedSessionValid(s: Session, now: Instant, reply: AuthReply, id: string, later: Instant)
    requires !SessionValid(s, now) && AuthStep(s, now, reply).1 == Ok(Some(id)) && id != []
    requires now <= later < now + 15 * Minute
    ensures SessionValid(AuthStep(s, now, reply).0, later)
  {
    FreshSessionValidity(id, now, later);
  }

  /**
   * After a fresh authentication, a second `authenticate` within 15 minutes
   * sends no request: it returns the same id and keeps the session, whatever
   * the Vault would reply.
   */
  lemma AuthenticateReusesSession(s: Session, now: Instant, reply: AuthReply, id: string, later: Instant, other: AuthReply)
    requires !SessionValid(s, now) && AuthStep(s, now, reply).1 == Ok(Some(id)) && id != []
    requires now <= later < now + 15 * Minute
    ensures var s1 := AuthStep(s, now, reply).0; AuthStep(s1, later, other) == (s1, Ok(Some(id)))
  {
    AuthenticatedSessionValid(s, now, reply, id, later);
  }

  /** `search_documents`: authenticate, then the query reply's `data` rows (none if absent). */
  function SearchStep(s: Session, now: Instant, auth: AuthReply, reply: SearchReply): (r: (Session, Result<seq<Metadata>, VeevaError>))
    ensures r.0 == AuthStep(s, now, auth).0
    ensures AuthStep(s, now, auth).1.Err? ==> r.1 == Err(AuthStep(s, now, auth).1.error)
  {
    var (s1, a) := AuthStep(s, now, auth);
    if a.Err? then (s1, Err(a.error))
    else
      match reply
      case SearchTransport(f) => (s1, Err(ApiError("Search request failed: " + f)))
      case SearchBody(st, rows, errors) =>
        if st == Some("SUCCESS") then (s1, Ok(if rows.Some? then rows.value else []))
        else (s1, Err(FailureOf("Search failed: ", errors)))
  }

  /** The message raised for a document number the query does not find. */
  function NotFoundMessage(documentNumber: string): string {
    "Document Number '" + documentNumber + "' not found in Veeva Vault."
  }

  /** The first row of the query result, or an error when there is none. */
  function FirstRow(rows: seq<Metadata>, documentNumber: string): (r: Result<Metadata, VeevaError>)
    ensures r.Ok? <==> rows != []
    ensures r.Ok? ==> r.value == rows[0]
    ensures r.Err? ==> r.error == ApiError(NotFoundMessage(documentNumber))
  {
    if rows == [] then Err(ApiError(NotFoundMessage(documentNumber))) else Ok(rows[0])
  }

  /** `get_document_metadata_by_number`: the first row of the lookup query. */
  function MetadataStep(s: Session, now: Instant, auth: AuthReply, reply: SearchReply, documentNumber: string)
    : (r: (Session, Result<Metadata, VeevaError>))
    ensures r.0 == SearchStep(s, now, auth, reply).0
    ensures r.1.Ok? <==> SearchStep(s, now, auth, reply).1.Ok? && SearchStep(s, now, auth, reply).1.value != []
  {
    var (s1, rows) := SearchStep(s, now, auth, reply);
    match rows
    case Err(e) => (s1, Err(e))
    case Ok(rs) => (s1, FirstRow(rs, documentNumber))
  }

  /** The metadata returned with a download: the row plus the size and time of the download. */
  function Enrich(metadata: Metadata, size: nat, stamp: string): (m: Metadata)
    ensures m.Keys == metadata.Keys + {"downloaded_size", "download_timestamp"}
    ensures m["downloaded_size"] == JInt(size) && m["download_timestamp"] == JStr(stamp)
    ensures forall k :: k in metadata && k != "downloaded_size" && k != "download_timestamp" ==> m[k] == metadata[k]
  {
    metadata["downloaded_size" := JInt(size)]["download_timestamp" := JStr(stamp)]
  }

  /**
   * `download_document_as_stream`: look the number up, refuse a row without an
   * internal id before any download, refuse a JSON reply, and otherwise
   * return every chunk's bytes in a stream rewound to 0, with the downloaded
   * size recorded as the sum of the chunk lengths. `stamp` is the time of
   * the download in ISO form.
   */
  function DownloadStep(s: Session, now: Instant, replies: VaultReplies, documentNumber: string, stamp: string)
    : (r: (Session, Result<Downloaded, VeevaError>))
    ensures r.0 == SearchStep(s, now, replies.auth, replies.search).0
    ensures r.1.Ok? ==>
      replies.download.DownloadBody? && MetadataStep(s, now, replies.auth, replies.search, documentNumber).1.Ok?
      && r.1.value.stream == ByteStream(Concat(replies.download.chunks), 0)
      && "downloaded_size" in r.1.value.metadata && r.1.value.metadata["downloaded_size"] == JInt(SumLengths(replies.download.chunks))
  {
    var (s1, found) := MetadataStep(s, now, replies.auth, replies.search, documentNumber);
    match found
    case Err(e) => (s1, Err(e))
    case Ok(metadata) =>
      if !Truthy(Get(metadata, "id", JNull)) then
        (s1, Err(ApiError("Internal ID not found for document " + documentNumber + ".")))
      else
        match replies.download
        case DownloadTransport(f) => (s1, Err(ApiError("Document download failed: " + f)))
        case DownloadJson(errors) => (s1, Err(FailureOf("Failed to download document: ", errors)))
        case DownloadBody(chunks) =>
          (s1, Ok(Downloaded(ByteStream(Concat(chunks), 0), Enrich(metadata, SumLengths(chunks), stamp))))
  }

  /** A row whose `id` is missing or empty never reaches the download request. */
  lemma MissingIdRefused(s: Session, now: Instant, replies: VaultReplies, documentNumber: string, stamp: string)
    requires MetadataStep(s, now, replies.auth, replies.search, documentNumber).1.Ok?
    requires !Truthy(Get(MetadataStep(s, now, replies.auth, replies.search, documentNumber).1.value, "id", JNull))
    ensures DownloadStep(s, now, replies, documentNumber, stamp).1
         == Err(ApiError("Internal ID not found for document " + documentNumber + "."))
  {
  }

  /** One entry of `batch_download_documents`' result list. */
  datatype BatchItem = BatchItem(
    success: bool, documentNumber: string, stream: Option<ByteStream>, metadata: Option<Metadata>, error: Option<string>)

  /** The entry for one document: the download, or its error captured as text. */
  function ItemOf(documentNumber: string, outcome: Result<Downloaded, VeevaError>): (b: BatchItem)
    ensures b.documentNumber == documentNumber
    ensures b.success <==> outcome.Ok?
    ensures b.success <==> b.error.None?
    ensures b.success <==> b.stream.Some? && b.metadata.Some?
    ensures outcome.Ok? ==> b.stream == Some(outcome.value.stream) && b.metadata == Some(outcome.value.metadata)
    ensures outcome.Err? && outcome.error.ApiError? ==> b.error == Some(outcome.error.message)
    ensures outcome.Err? && outcome.error.OtherError? ==> b.error == Some("Unexpected error: " + outcome.error.message)
  {
    match outcome
    case Ok(d) => BatchItem(true, documentNumber, Some(d.stream), Some(d.metadata), None)
    case Err(ApiError(m)) => BatchItem(false, documentNumber, None, None, Some(m))
    case Err(OtherError(m)) => BatchItem(false, documentNumber, None, None, Some("Unexpected error: " + m))
  }

  /** What one iteration of the batch loop is given: the time, the Vault's replies and the ISO stamp. */
  datatype BatchInput = BatchInput(now: Instant, replies: VaultReplies, stamp: string)

  /** The batch: each document downloaded in turn, the session carried from one to the next. */
  function BatchSpec(s: Session, docs: seq<string>, inputs: seq<BatchInput>): (r: (Session, seq<BatchItem>))
    requires |inputs| == |docs|
    decreases |docs|
  {
    if docs == [] then (s, [])
    else
      var (s1, d) := DownloadStep(s, inputs[0].now, inputs[0].replies, docs[0], inputs[0].stamp);
      var (s2, rest) := BatchSpec(s1, docs[1..], inputs[1..]);
      (s2, [ItemOf(docs[0], d)] + rest)
  }

  /**
   * Exactly one entry per input, in input order, and an entry succeeds iff it
   * carries a stream and no error.
   */
  lemma {:induction false} BatchSpecShape(s: Session, docs: seq<string>, inputs: seq<BatchInput>)
    requires |inputs| == |docs|
    ensures var items := BatchSpec(s, docs, inputs).1;
      |items| == |docs|
      && (forall i :: 0 <= i < |docs| ==> items[i].documentNumber == docs[i])
      && (forall i :: 0 <= i < |docs| ==> (items[i].success <==> items[i].error.None? && items[i].stream.Some?))
    decreases |docs|
  {
    if docs != [] {
      var (s1, d) := DownloadStep(s, inputs[0].now, inputs[0].replies, docs[0], inputs[0].stamp);
      BatchSpecShape(s1, docs[1..], inputs[1..]);
    }
  }

  /** A failing document does not stop the batch: the later documents are still attempted. */
  lemma BatchContinuesAfterFailure(s: Session, docs: seq<string>, inputs: seq<BatchInput>)
    requires |inputs| == |docs| && docs != []
    requires DownloadStep(s, inputs[0].now, inputs[0].replies, docs[0], inputs[0].stamp).1.Err?
    ensures var s1 := DownloadStep(s, inputs[0].now, inputs[0].replies, docs[0], inputs[0].stamp).0;
      BatchSpec(s, docs, inputs).1 == [ItemOf(docs[0], DownloadStep(s, inputs[0].now, inputs[0].replies, docs[0], inputs[0].stamp).1)]
                                       + BatchSpec(s1, docs[1..], inputs[1..]).1
  {
  }

  /** A call of the progress callback: `(idx, total, doc_number)`. */
  datatype Progress = Progress(index: nat, total: nat, documentNumber: string)

  /** The progress calls for the first `n` documents of a batch, each numbered from 1. */
  function ProgressCalls(docs: seq<string>, n: nat): (r: seq<Progress>)
    requires n <= |docs|
    ensures |r| == n && forall k :: 0 <= k < n ==> r[k] == Progress(k + 1, |docs|, docs[k])
  {
    seq(n, k requires 0 <= k < n => Progress(k + 1, |docs|, docs[k]))
  }

  lemma ProgressCallsStep(docs: seq<string>, n: nat)
    requires n < |docs|
    ensures ProgressCalls(docs, n + 1) == ProgressCalls(docs, n) + [Progress(n + 1, |docs|, docs[n])]
  {
  }

  /** The Vault client; its two fields are the session it caches. */
  class VeevaService {
    var sessionId: Option<string>
    var expiresAt: Option<Instant>

    function State(): Session
      reads this
    {
      Session(sessionId, expiresAt)
    }

    constructor()
      ensures State() == Session(None, None)
    {
      sessionId := None;
      expiresAt := None;
    }

    /** `authenticate` */
    method Authenticate(now: Instant, reply: AuthReply) returns (r: Result<Option<string>, VeevaError>)
      modifies this
      ensures (State(), r) == AuthStep(old(State()), now, reply)
    {
      if SessionValid(State(), now) {
        return Ok(sessionId);
      }
      match reply
      case AuthTransport(f) =>
        r := Err(ApiError("Authentication request failed: " + f));
      case AuthBody(st, id, errors) =>
        if st == Some("SUCCESS") {
          sessionId := id;
          expiresAt := Some(now + SessionLifetime);
          r := Ok(id);
        } else {
          r := Err(FailureOf("Authentication failed: ", errors));
        }
    }

    /** `search_documents` */
    method SearchDocuments(now: Instant, auth: AuthReply, reply: SearchReply) returns (r: Result<seq<Metadata>, VeevaError>)
      modifies this
      ensures (State(), r) == SearchStep(old(State()), now, auth, reply)
    {
      var a := Authenticate(now, auth);
      if a.Err? {
        return Err(a.error);
      }
      match reply
      case SearchTransport(f) =>
        r := Err(ApiError("Search request failed: " + f));
      case SearchBody(st, rows, errors) =>
        if st == Some("SUCCESS") {
          r := Ok(if rows.Some? then rows.value else []);
        } else {
          r := Err(FailureOf("Search failed: ", errors));
        }
    }

    /** `get_document_metadata_by_number` */
    method GetDocumentMetadataByNumber(now: Instant, auth: AuthReply, reply: SearchReply, documentNumber: string)
      returns (r: Result<Metadata, VeevaError>)
      modifies this
      ensures (State(), r) == MetadataStep(old(State()), now, auth, reply, documentNumber)
    {
      var rows := SearchDocuments(now, auth, reply);
      if rows.Err? {
        return Err(rows.error);
      }
      if rows.value == [] {
        return Err(ApiError(NotFoundMessage(documentNumber)));
      }
      r := Ok(rows.value[0]);
    }

    /** `download_document_as_stream` */
    method DownloadDocumentAsStream(now: Instant, replies: VaultReplies, documentNumber: string, stamp: string)
      returns (r: Result<Downloaded, VeevaError>)
      modifies this
      ensures (State(), r) == DownloadStep(old(State()), now, replies, documentNumber, stamp)
    {
      var found := GetDocumentMetadataByNumber(now, replies.auth, replies.search, documentNumber);
      if found.Err? {
        return Err(found.error);
      }
      var metadata := found.value;
      if !Truthy(Get(metadata, "id", JNull)) {
        return Err(ApiError("Internal ID not found for document " + documentNumber + "."));
      }
      match replies.download
      case DownloadTransport(f) =>
        r := Err(ApiError("Document download failed: " + f));
      case DownloadJson(errors) =>
        r := Err(FailureOf("Failed to download document: ", errors));
      case DownloadBody(chunks) =>
        var stream, size := WriteChunks(chunks);
        stream := Seek(stream, 0);
        r := Ok(Downloaded(stream, Enrich(metadata, size, stamp)));
    }

    /**
     * `batch_download_documents`: one entry per document, in order; the
     * progress callback (when given) is called once per document and the
     * pause comes between documents only.
     */
    method BatchDownloadDocuments(docs: seq<string>, inputs: seq<BatchInput>, withProgress: bool)
      returns (results: seq<BatchItem>, progress: seq<Progress>, pauses: nat)
      requires |inputs| == |docs|
      modifies this
      ensures (State(), results) == BatchSpec(old(State()), docs, inputs)
      ensures |progress| == (if withProgress then |docs| else 0)
      ensures forall i :: 0 <= i < |progress| ==> progress[i] == Progress(i + 1, |docs|, docs[i])
      ensures pauses == if docs == [] then 0 else |docs| - 1
    {
      results, progress, pauses := [], [], 0;
      ghost var all := BatchSpec(State(), docs, inputs);
      var i := 0;
      assert docs[i..] == docs && inputs[i..] == inputs;
      while i < |docs|
        invariant 0 <= i <= |docs|
        invariant all.0 == BatchSpec(State(), docs[i..], inputs[i..]).0
        invariant all.1 == results + BatchSpec(State(), docs[i..], inputs[i..]).1
        invariant progress == if withProgress then ProgressCalls(docs, i) else []
        invariant pauses == if i == |docs| && i > 0 then i - 1 else i
      {
        var d := DownloadTurn(docs, inputs, i, all, results);
        results := results + [ItemOf(docs[i], d)];
        if withProgress {
          ProgressCallsStep(docs, i);
          progress := progress + [Progress(i + 1, |docs|, docs[i])];
        }
        if i + 1 < |docs| {
          pauses := pauses + 1;
        }
        i := i + 1;
      }
      assert docs[i..] == [] && inputs[i..] == [];
      assert results + BatchSpec(State(), docs[i..], inputs[i..]).1 == results;
    }

    /** One document of the batch loop, keeping the loop's account of the batch. */
    method DownloadTurn(docs: seq<string>, inputs: seq<BatchInput>, i: nat,
                        ghost all: (Session, seq<BatchItem>), ghost results: seq<BatchItem>)
      returns (d: Result<Downloaded, VeevaError>)
      requires |inputs| == |docs| && i < |docs|
      requires all.0 == BatchSpec(State(), docs[i..], inputs[i..]).0
      requires all.1 == results + BatchSpec(State(), docs[i..], inputs[i..]).1
      modifies this
      ensures all.0 == BatchSpec(State(), docs[i + 1..], inputs[i + 1..]).0
      ensures all.1 == (results + [ItemOf(docs[i], d)]) + BatchSpec(State(), docs[i + 1..], inputs[i + 1..]).1
    {
      BatchAdvance(all, results, State(), docs, inputs, i);
      d := DownloadDocumentAsStream(inputs[i].now, inputs[i].replies, docs[i], inputs[i].stamp);
    }

    /** `close`: both session fields cleared, so no session is valid afterwards. */
    method Close()
      modifies this
      ensures State() == Session(None, None)
      ensures forall now :: !SessionValid(State(), now)
    {
      sessionId := None;
      expiresAt := None;
    }

    /** `test_connection`: true exactly when `authenticate` returns instead of raising. */
    method TestConnection(now: Instant, reply: AuthReply) returns (ok: bool)
      modifies this
      ensures State() == AuthStep(old(State()), now, reply).0
      ensures ok <==> AuthStep(old(State()), now, reply).1.Ok?
    {
      var r := Authenticate(now, reply);
      ok := r.Ok?;
    }
  }

  /** One turn of the batch loop: the item joins those done, and the rest runs from the new session. */
  lemma BatchAdvance(all: (Session, seq<BatchItem>), results: seq<BatchItem>, s: Session, docs: seq<string>,
                     inputs: seq<BatchInput>, i: nat)
    requires |inputs| == |docs| && i < |docs|
    requires all.0 == BatchSpec(s, docs[i..], inputs[i..]).0 && all.1 == results + BatchSpec(s, docs[i..], inputs[i..]).1
    ensures var next := DownloadStep(s, inputs[i].now, inputs[i].replies, docs[i], inputs[i].stamp);
      all.0 == BatchSpec(next.0, docs[i + 1..], inputs[i + 1..]).0
      && all.1 == (results + [ItemOf(docs[i], next.1)]) + BatchSpec(next.0, docs[i + 1..], inputs[i + 1..]).1
  {
    assert docs[i..][0] == docs[i] && docs[i..][1..] == docs[i + 1..];
    assert inputs[i..][0] == inputs[i] && inputs[i..][1..] == inputs[i + 1..];
  }

  /**
   * The download loop: every non-empty chunk is written in turn and its length
   * added to the running size; the stream ends positioned after the last byte.
   */
  method WriteChunks(chunks: seq<seq<byte>>) returns (stream: ByteStream, size: nat)
    ensures stream.data == Concat(chunks) && stream.pos == |stream.data|
    ensures size == SumLengths(chunks)
  {
    stream, size := ByteStream([], 0), 0;
    var i := 0;
    while i < |chunks|
      invariant 0 <= i <= |chunks|
      invariant stream.data == Concat(chunks[..i]) && stream.pos == |stream.data| && size == |stream.data|
    {
      ConcatSnoc(chunks[..i], chunks[i]);
      assert chunks[..i + 1] == chunks[..i] + [chunks[i]];
      if chunks[i] != [] {
        stream := Append(stream, chunks[i]);
        size := size + |chunks[i]|;
      }
      i := i + 1;
    }
    assert chunks[..i] == chunks;
    ConcatLength(chunks);
  }
}
