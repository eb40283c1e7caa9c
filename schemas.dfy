// Request and record schemas: the constraints the validation layer enforces
// on incoming JSON objects and on the records the API exchanges.
module Schemas {
  import opened Wrappers
  import opened Text
  import opened Json
  import opened Models
  import AiExtractor
  import DocStore

  type Raw = map<string, Json>

  // ----- field coercions of the validation layer (lax mode) -----

  /** What each kind of field accepts. */
  predicate StrGiven(raw: Raw, key: string) {
    key in raw && raw[key].JStr?
  }

  predicate OptStrGiven(raw: Raw, key: string) {
    key !in raw || raw[key].JNull? || raw[key].JStr?
  }

  predicate OptBoolGiven(raw: Raw, key: string) {
    key !in raw || raw[key].JNull? || BoolValue(raw[key]).Some?
  }

  /** A `str` field accepts strings only. */
  function StrField(raw: Raw, key: string): (r: Result<string, string>)
    ensures r.Ok? <==> StrGiven(raw, key)
    ensures r.Ok? ==> r.value == raw[key].s
  {
    if key in raw && raw[key].JStr? then Ok(raw[key].s)
    else if key in raw then Err(key + ": Input should be a valid string")
    else Err(key + ": Field required")
  }

  /** An `Optional[str]` field: absent or `null` give `None`. */
  function OptStrField(raw: Raw, key: string): (r: Result<Option<string>, string>)
    ensures r.Err? <==> key in raw && !raw[key].JStr? && !raw[key].JNull?
    ensures r.Ok? <==> OptStrGiven(raw, key)
    ensures r == Ok(None) <==> key !in raw || raw[key].JNull?
    ensures key in raw && raw[key].JStr? ==> r == Ok(Some(raw[key].s))
  {
    if key !in raw || raw[key].JNull? then Ok(None)
    else if raw[key].JStr? then Ok(Some(raw[key].s))
    else Err(key + ": Input should be a valid string")
  }

  const TrueSpellings: seq<string> := ["1", "on", "t", "true", "y", "yes"]
  const FalseSpellings: seq<string> := ["0", "off", "f", "false", "n", "no"]

  /** Lax `bool`: booleans, the integers 0 and 1, and the usual spellings in any case. */
  function BoolValue(j: Json): (r: Option<bool>)
    ensures j.JBool? ==> r == Some(j.b)
    ensures r.Some? ==> j.JBool? || j.JInt? || j.JStr?
  {
    match j
    case JBool(b) => Some(b)
    case JInt(i) => if i == 0 then Some(false) else if i == 1 then Some(true) else None
    case JStr(s) =>
      if Lower(s) in TrueSpellings then Some(true)
      else if Lower(s) in FalseSpellings then Some(false)
      else None
    case _ => None
  }

  /** An `Optional[bool]` field defaulting to `False`; an explicit `null` gives `None`. */
  function OptBoolField(raw: Raw, key: string): (r: Result<Option<bool>, string>)
    ensures r.Ok? <==> OptBoolGiven(raw, key)
    ensures key !in raw ==> r == Ok(Some(false))
    ensures key in raw && raw[key].JNull? ==> r == Ok(None)
    ensures key in raw && BoolValue(raw[key]).Some? ==> r == Ok(BoolValue(raw[key]))
    ensures key in raw && raw[key].JBool? ==> r == Ok(Some(raw[key].b))
  {
    if key !in raw then Ok(Some(false))
    else if raw[key].JNull? then Ok(None)
    else match BoolValue(raw[key])
      case Some(b) => Ok(Some(b))
      case None => Err(key + ": Input should be a valid boolean")
  }

  predicate AllStrings(xs: seq<Json>) {
    forall i :: 0 <= i < |xs| ==> xs[i].JStr?
  }

  function Strings(xs: seq<Json>): (r: seq<string>)
    requires AllStrings(xs)
    ensures |r| == |xs| && forall i :: 0 <= i < |xs| ==> r[i] == xs[i].s
  {
    if xs == [] then [] else [xs[0].s] + Strings(xs[1..])
  }

  /** `extra = "forbid"`: every key must name a declared field. */
  predicate OnlyFields(raw: Raw, fields: set<string>) {
    forall k :: k in raw ==> k in fields
  }

  // ----- DirectoryProcessRequest -----

  datatype DirectoryRequest = DirectoryRequest(
    compoundId: string, templateId: string, directoryPath: Option<string>, forceReprocess: Option<bool>)

  const DirectoryFields: set<string> := {"compound_id", "template_id", "directory_path", "force_reprocess"}

  /**
   * Accepted exactly when only declared keys appear and each field has a
   * value of its type; every field then carries the value given, or its
   * default.
   */
  function ParseDirectoryRequest(raw: Raw): (r: Result<DirectoryRequest, string>)
    ensures r.Ok? <==> OnlyFields(raw, DirectoryFields) && StrGiven(raw, "compound_id") && StrGiven(raw, "template_id")
                       && OptStrGiven(raw, "directory_path") && OptBoolGiven(raw, "force_reprocess")
    ensures r.Ok? ==> "compound_id" in raw && raw["compound_id"] == JStr(r.value.compoundId)
    ensures r.Ok? ==> "template_id" in raw && raw["template_id"] == JStr(r.value.templateId)
    ensures r.Ok? ==> r.value.directoryPath == OptStrField(raw, "directory_path").value
                      && r.value.forceReprocess == OptBoolField(raw, "force_reprocess").value
  {
    if !OnlyFields(raw, DirectoryFields) then Err("Extra inputs are not permitted")
    else match (StrField(raw, "compound_id"), StrField(raw, "template_id"),
                OptStrField(raw, "directory_path"), OptBoolField(raw, "force_reprocess"))
      case (Ok(c), Ok(t), Ok(d), Ok(f)) => Ok(DirectoryRequest(c, t, d, f))
      case _ => Err("validation error")
  }

  /** Only the two ids are required; the path is optional and reprocessing is off by default. */
  lemma DirectoryRequestMinimal(c: string, t: string)
    ensures ParseDirectoryRequest(map["compound_id" := JStr(c), "template_id" := JStr(t)])
      == Ok(DirectoryRequest(c, t, None, Some(false)))
  {
    var raw := map["compound_id" := JStr(c), "template_id" := JStr(t)];
    assert OnlyFields(raw, DirectoryFields);
  }

  /** A key the model does not declare is refused. */
  lemma DirectoryRequestForbidsExtra(raw: Raw, k: string)
    requires k in raw && k !in DirectoryFields
    ensures ParseDirectoryRequest(raw).Err?
  {
  }

  // ----- VeevaProcessRequest -----

  datatype VeevaRequest = VeevaRequest(
    compoundId: string, templateId: string, documentIds: seq<string>, forceReprocess: Option<bool>)

  const VeevaFields: set<string> := {"compound_id", "template_id", "document_ids", "force_reprocess"}

  predicate IdsGiven(raw: Raw) {
    "document_ids" in raw && raw["document_ids"].JArr?
    && raw["document_ids"].items != [] && AllStrings(raw["document_ids"].items)
  }

  /** `List[str]` with `min_items=1`. */
  function DocumentIdsField(raw: Raw): (r: Result<seq<string>, string>)
    ensures r.Ok? ==> |r.value| >= 1
    ensures r.Ok? <==> IdsGiven(raw)
    ensures r.Ok? ==> |r.value| == |raw["document_ids"].items|
                      && forall i :: 0 <= i < |r.value| ==> r.value[i] == raw["document_ids"].items[i].s
  {
    if "document_ids" !in raw then Err("document_ids: Field required")
    else match raw["document_ids"]
      case JArr(xs) =>
        if !AllStrings(xs) then Err("document_ids: Input should be a valid string")
        else if xs == [] then Err("document_ids: List should have at least 1 item")
        else Ok(Strings(xs))
      case _ => Err("document_ids: Input should be a valid list")
  }

  /**
   * Accepted exactly when only declared keys appear, both ids are strings,
   * the id list is a non-empty list of strings and the flag a boolean;
   * every field then carries the value given.
   */
  function ParseVeevaRequest(raw: Raw): (r: Result<VeevaRequest, string>)
    ensures r.Ok? <==> OnlyFields(raw, VeevaFields) && StrGiven(raw, "compound_id") && StrGiven(raw, "template_id")
                       && IdsGiven(raw) && OptBoolGiven(raw, "force_reprocess")
    ensures r.Ok? ==> OnlyFields(raw, VeevaFields) && |r.value.documentIds| >= 1
    ensures r.Ok? ==> "compound_id" in raw && raw["compound_id"] == JStr(r.value.compoundId)
    ensures r.Ok? ==> "template_id" in raw && raw["template_id"] == JStr(r.value.templateId)
    ensures r.Ok? ==> |r.value.documentIds| == |raw["document_ids"].items|
                      && (forall i :: 0 <= i < |r.value.documentIds| ==> r.value.documentIds[i] == raw["document_ids"].items[i].s)
    ensures r.Ok? ==> r.value.forceReprocess == OptBoolField(raw, "force_reprocess").value
  {
    if !OnlyFields(raw, VeevaFields) then Err("Extra inputs are not permitted")
    else match (StrField(raw, "compound_id"), StrField(raw, "template_id"),
                DocumentIdsField(raw), OptBoolField(raw, "force_reprocess"))
      case (Ok(c), Ok(t), Ok(ids), Ok(f)) => Ok(VeevaRequest(c, t, ids, f))
      case _ => Err("validation error")
  }

  /** An empty id list is refused. */
  lemma VeevaRequestNeedsIds(raw: Raw)
    requires "document_ids" in raw && raw["document_ids"] == JArr([])
    ensures ParseVeevaRequest(raw).Err?
  {
  }

  /** Reprocessing defaults to off. */
  lemma VeevaRequestDefaultForce(c: string, t: string, id: string)
    ensures ParseVeevaRequest(map["compound_id" := JStr(c), "template_id" := JStr(t),
                                  "document_ids" := JArr([JStr(id)])])
      == Ok(VeevaRequest(c, t, [id], Some(false)))
  {
    var raw := map["compound_id" := JStr(c), "template_id" := JStr(t), "document_ids" := JArr([JStr(id)])];
    assert OnlyFields(raw, VeevaFields);
    assert Strings([JStr(id)]) == [id];
  }

  // ----- HybridProcessRequest -----

  datatype HybridRequest = HybridRequest(
    compoundId: string, templateId: string, source: string,
    documentIds: Option<seq<string>>, directoryPath: Option<string>, forceReprocess: Option<bool>)

  const HybridFields: set<string> :=
    {"compound_id", "template_id", "source", "document_ids", "directory_path", "force_reprocess"}
  const Sources: seq<string> := ["local", "veeva", "auto"]

  predicate SourceGiven(raw: Raw) {
    "source" !in raw || (raw["source"].JStr? && raw["source"].s in Sources)
  }

  /** `source`: one of the three names, `"auto"` when absent. */
  function SourceField(raw: Raw): (r: Result<string, string>)
    ensures r.Ok? <==> SourceGiven(raw)
    ensures r.Ok? ==> r.value in Sources
    ensures "source" !in raw ==> r == Ok("auto")
    ensures "source" in raw && r.Ok? ==> raw["source"] == JStr(r.value)
  {
    if "source" !in raw then Ok("auto")
    else if raw["source"].JStr? && raw["source"].s in Sources then Ok(raw["source"].s)
    else Err("source: String should match pattern '^(local|veeva|auto)$'")
  }

  predicate OptIdsGiven(raw: Raw) {
    "document_ids" !in raw || raw["document_ids"].JNull?
    || (raw["document_ids"].JArr? && AllStrings(raw["document_ids"].items))
  }

  /** `Optional[List[str]]`: absent or `null` give `None`. */
  function OptIdsField(raw: Raw): (r: Result<Option<seq<string>>, string>)
    ensures r.Ok? <==> OptIdsGiven(raw)
    ensures r == Ok(None) <==> "document_ids" !in raw || raw["document_ids"].JNull?
    ensures r.Ok? && r.value.Some? ==>
      |r.value.value| == |raw["document_ids"].items|
      && forall i :: 0 <= i < |r.value.value| ==> r.value.value[i] == raw["document_ids"].items[i].s
  {
    if "document_ids" !in raw || raw["document_ids"].JNull? then Ok(None)
    else match raw["document_ids"]
      case JArr(xs) => if AllStrings(xs) then Ok(Some(Strings(xs))) else Err("document_ids: Input should be a valid string")
      case _ => Err("document_ids: Input should be a valid list")
  }

  /**
   * Accepted exactly when only declared keys appear and each field has a
   * value of its type; every field then carries the value given, or its
   * default.
   */
  function ParseHybridRequest(raw: Raw): (r: Result<HybridRequest, string>)
    ensures r.Ok? <==> OnlyFields(raw, HybridFields) && StrGiven(raw, "compound_id") && StrGiven(raw, "template_id")
                       && SourceGiven(raw) && OptIdsGiven(raw) && OptStrGiven(raw, "directory_path")
                       && OptBoolGiven(raw, "force_reprocess")
    ensures r.Ok? ==> OnlyFields(raw, HybridFields) && r.value.source in Sources
    ensures r.Ok? ==> "compound_id" in raw && raw["compound_id"] == JStr(r.value.compoundId)
    ensures r.Ok? ==> "template_id" in raw && raw["template_id"] == JStr(r.value.templateId)
    ensures r.Ok? ==> r.value.source == SourceField(raw).value && r.value.documentIds == OptIdsField(raw).value
                      && r.value.directoryPath == OptStrField(raw, "directory_path").value
                      && r.value.forceReprocess == OptBoolField(raw, "force_reprocess").value
  {
    if !OnlyFields(raw, HybridFields) then Err("Extra inputs are not permitted")
    else match (StrField(raw, "compound_id"), StrField(raw, "template_id"), SourceField(raw))
      case (Ok(c), Ok(t), Ok(src)) =>
        (match (OptIdsField(raw), OptStrField(raw, "directory_path"), OptBoolField(raw, "force_reprocess"))
         case (Ok(ids), Ok(d), Ok(f)) => Ok(HybridRequest(c, t, src, ids, d, f))
         case _ => Err("validation error"))
      case _ => Err("validation error")
  }

  /** With no source given the request is `auto`. */
  lemma HybridRequestDefaultSource(c: string, t: string)
    ensures ParseHybridRequest(map["compound_id" := JStr(c), "template_id" := JStr(t)])
      == Ok(HybridRequest(c, t, "auto", None, None, Some(false)))
  {
    var raw := map["compound_id" := JStr(c), "template_id" := JStr(t)];
    assert OnlyFields(raw, HybridFields);
  }

  // ----- extracted data -----

  /** `ExtractedDataBase`: confidence is a fraction in [0, 1]. */
  datatype ExtractedData = ExtractedData(
    documentId: Uuid, fieldName: string, fieldValue: string, confidence: real,
    originalText: Option<string>, pageNumber: Option<string>, boundingBox: Option<string>)

  predicate ConfidenceOk(c: real) {
    0.0 <= c <= 1.0
  }

  predicate ExtractedDataValid(d: ExtractedData) {
    1 <= |d.fieldName| <= FieldNameMax && ConfidenceOk(d.confidence)
  }

  /** `ExtractedDataUpdate`: both fields optional, the same bound on confidence when present. */
  datatype ExtractedDataUpdate = ExtractedDataUpdate(fieldValue: Option<string>, confidence: Option<real>)

  predicate ExtractedDataUpdateValid(u: ExtractedDataUpdate) {
    u.confidence.Some? ==> ConfidenceOk(u.confidence.value)
  }

  /** Applying a valid update to a valid record keeps it valid. */
  function ApplyExtractedDataUpdate(d: ExtractedData, u: ExtractedDataUpdate): (r: ExtractedData)
    requires ExtractedDataValid(d) && ExtractedDataUpdateValid(u)
    ensures ExtractedDataValid(r)
    ensures r.fieldName == d.fieldName && r.documentId == d.documentId
  {
    d.(fieldValue := if u.fieldValue.Some? then u.fieldValue.value else d.fieldValue,
       confidence := if u.confidence.Some? then u.confidence.value else d.confidence)
  }

  /**
   * Every row the pipeline writes for a processed record carries a confidence
   * (stored in hundredths) that the `ExtractedData` schema accepts.
   */
  lemma PipelineConfidencesValid(docId: Uuid, b: AiExtractor.BatchInfo, adapt: DocStore.Adapter)
    requires DocStore.Adapted(DocStore.WantedFields(b), adapt)
    ensures forall row :: row in DocStore.Rows(docId, DocStore.WantedFields(b), adapt) ==>
      ConfidenceOk(row.confidence as real / 100.0)
  {
    var fields := DocStore.WantedFields(b);
    var basic := DocStore.BasicFields(b);
    DocStore.TestFieldsValues(AiExtractor.TestParameters, b.testResults);
    forall f | f in fields
      ensures f.confidence == DocStore.BasicConfidence || f.confidence == DocStore.TestConfidence
    {
      if f in basic {
        assert f.confidence == DocStore.BasicConfidence;
      }
    }
    forall row | row in DocStore.Rows(docId, fields, adapt)
      ensures ConfidenceOk(row.confidence as real / 100.0)
    {
      var i :| 0 <= i < |fields| && DocStore.Rows(docId, fields, adapt)[i] == row;
      assert fields[i] in fields;
    }
  }

  /** `ApiResponse`: `success` is required, everything else optional. */
  datatype ApiResponse = ApiResponse(success: bool, data: Option<Json>, error: Option<string>, message: Option<string>)

  /** An `Optional[dict]` field: absent, null or an object. */
  predicate OptObjGiven(raw: Raw, key: string) {
    key !in raw || raw[key].JNull? || raw[key].JObj?
  }

  /** The value of an `Optional[str]` field that validated. */
  function OptStrOf(raw: Raw, key: string): Option<string> {
    if key in raw && raw[key].JStr? then Some(raw[key].s) else None
  }

  /**
   * `ApiResponse(**raw)`: accepted exactly when `success` is present and a
   * boolean, `data` is absent, null or an object, and `error` and `message`
   * are absent, null or strings; the fields then carry the given values.
   */
  function ParseApiResponse(raw: Raw): (r: Result<ApiResponse, string>)
    ensures r.Ok? ==> "success" in raw && BoolValue(raw["success"]) == Some(r.value.success)
    ensures "success" !in raw ==> r.Err?
    ensures r.Ok? <==>
      && "success" in raw && BoolValue(raw["success"]).Some?
      && OptObjGiven(raw, "data") && OptStrGiven(raw, "error") && OptStrGiven(raw, "message")
    ensures r.Ok? ==>
      && r.value.data == (if "data" in raw && raw["data"].JObj? then Some(raw["data"]) else None)
      && r.value.error == OptStrOf(raw, "error")
      && r.value.message == OptStrOf(raw, "message")
  {
    if "success" !in raw then Err("success: Field required")
    else match BoolValue(raw["success"])
      case None => Err("success: Input should be a valid boolean")
      case Some(b) =>
        var data := if "data" in raw && raw["data"].JObj? then Some(raw["data"]) else None;
        match (OptStrField(raw, "error"), OptStrField(raw, "message"))
        case (Ok(e), Ok(m)) =>
          if "data" in raw && !raw["data"].JObj? && !raw["data"].JNull? then Err("data: Input should be a valid dictionary")
          else Ok(ApiResponse(b, data, e, m))
        case _ => Err("validation error")
  }

  /** `model_dump()`: every field, `None` as null. */
  function DumpApiResponse(v: ApiResponse): (raw: Raw)
    ensures raw.Keys == {"success", "data", "error", "message"}
  {
    map["success" := JBool(v.success),
        "data" := (if v.data.Some? then v.data.value else JNull),
        "error" := (if v.error.Some? then JStr(v.error.value) else JNull),
        "message" := (if v.message.Some? then JStr(v.message.value) else JNull)]
  }

  /** A response whose `data` is an object or nothing parses back from its dump unchanged. */
  lemma ApiResponseRoundTrip(v: ApiResponse)
    requires v.data.Some? ==> v.data.value.JObj?
    ensures ParseApiResponse(DumpApiResponse(v)) == Ok(v)
  {
    var raw := DumpApiResponse(v);
    assert raw["success"] == JBool(v.success);
    assert raw["error"] == (if v.error.Some? then JStr(v.error.value) else JNull);
    assert raw["message"] == (if v.message.Some? then JStr(v.message.value) else JNull);
    assert raw["data"] == (if v.data.Some? then v.data.value else JNull);
  }

  /** `ProcessingResultResponse`: `success` defaults to true; the id is read by alias or by name. */
  datatype ProcessingResult = ProcessingResult(success: bool, documentId: string, status: string, message: Option<string>)

  /**
   * `ProcessingResultResponse`: the id is read from `document_id`, or from
   * `documentId` when that is absent, and must parse as a UUID (`parseUuid`
   * is the UUID parser); `success` defaults to true.
   */
  function ParseProcessingResult(raw: Raw, parseUuid: string -> Option<Uuid>): (r: Result<ProcessingResult, string>)
    ensures r.Ok? && "success" !in raw ==> r.value.success
    ensures r.Ok? ==> var idKey := if "document_id" in raw then "document_id" else "documentId";
      idKey in raw && raw[idKey].JStr? && parseUuid(raw[idKey].s) == Some(r.value.documentId)
    ensures var idKey := if "document_id" in raw then "document_id" else "documentId";
      idKey in raw && raw[idKey].JStr? && parseUuid(raw[idKey].s).None? ==> r.Err?
  {
    var idKey := if "document_id" in raw then "document_id" else "documentId";
    var success := if "success" in raw then BoolValue(raw["success"]) else Some(true);
    match (success, StrField(raw, idKey), StrField(raw, "status"), OptStrField(raw, "message"))
    case (Some(b), Ok(id), Ok(st), Ok(m)) =>
      (match parseUuid(id)
       case Some(u) => Ok(ProcessingResult(b, u, st, m))
       case None => Err("documentId: Input should be a valid UUID"))
    case _ => Err("validation error")
  }

  // ----- compounds -----

  datatype CompoundCreate = CompoundCreate(code: string, name: string, description: Option<string>)

  predicate CompoundCreateValid(c: CompoundCreate) {
    1 <= |c.code| <= CompoundCodeMax && 1 <= |c.name| <= CompoundNameMax
  }

  /** A valid create request makes a row that fits the table's columns. */
  lemma CompoundCreateFits(c: CompoundCreate, id: Uuid)
    requires CompoundCreateValid(c)
    ensures CompoundFits(Compound(id, c.code, c.name, c.description))
  {
  }

  datatype CompoundUpdate = CompoundUpdate(code: Option<string>, name: Option<string>, description: Option<string>)

  predicate CompoundUpdateValid(u: CompoundUpdate) {
    (u.code.Some? ==> 1 <= |u.code.value| <= CompoundCodeMax)
    && (u.name.Some? ==> 1 <= |u.name.value| <= CompoundNameMax)
  }

  /** Applying a valid update keeps a fitting row fitting. */
  function ApplyCompoundUpdate(c: Compound, u: CompoundUpdate): (r: Compound)
    requires CompoundFits(c) && CompoundUpdateValid(u)
    ensures CompoundFits(r) && r.id == c.id
    ensures u == CompoundUpdate(None, None, None) ==> r == c
  {
    Compound(c.id,
      if u.code.Some? then u.code.value else c.code,
      if u.name.Some? then u.name.value else c.name,
      if u.description.Some? then u.description else c.description)
  }

  /** `CompoundListResponse` and `TemplateListResponse`: `success` defaults to true. */
  datatype ListResponse<T> = ListResponse(success: bool, data: seq<T>, total: int, message: Option<string>)

  function NewListResponse<T>(data: seq<T>, total: int): (r: ListResponse<T>)
    ensures r.success && r.data == data && r.total == total && r.message == None
  {
    ListResponse(true, data, total, None)
  }

  // ----- templates -----

  datatype TemplateCreate = TemplateCreate(
    compoundId: Uuid, region: Region, content: string, fieldMapping: Option<map<string, string>>)

  predicate TemplateCreateValid(t: TemplateCreate) {
    |t.content| >= 1
  }

  /** Parses the region by its value: only `CN`, `EU` and `US` name a region. */
  function ParseRegion(v: Json): (r: Result<Region, string>)
    ensures r.Ok? <==> v.JStr? && v.s in ["CN", "EU", "US"]
  {
    if v.JStr? then
      match RegionOfValue(v.s)
      case Some(reg) => Ok(reg)
      case None => Err("region: Input should be 'CN', 'EU' or 'US'")
    else Err("region: Input should be 'CN', 'EU' or 'US'")
  }

  /**
   * `TemplateUpdate` carries only the content (non-empty when given) and the
   * mapping; the compound and the region are not part of it.
   */
  datatype TemplateUpdate = TemplateUpdate(content: Option<Option<string>>, fieldMapping: Option<Option<map<string, string>>>)

  predicate TemplateUpdateValid(u: TemplateUpdate) {
    u.content.Some? && u.content.value.Some? ==> |u.content.value.value| >= 1
  }
}
