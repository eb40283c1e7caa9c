// Persistent entities: the processing-status enum, the COA document row with
// its column limits, and the rows of the compound, template and extracted-data
// tables that the core reads and writes.
module Models {
  import opened Wrappers
  import opened Text

  /** Lifecycle of an uploaded or discovered COA document. */
  datatype ProcessingStatus = Pending | Processing | Completed | Failed

  /** The lower-case value stored in the database column. */
  function StatusValue(s: ProcessingStatus): (v: string)
    ensures v != [] && Lower(v) == v
  {
    match s
    case Pending => "pending"
    case Processing => "processing"
    case Completed => "completed"
    case Failed => "failed"
  }

  /** `ProcessingStatus(value)`: the member with that value, if any. */
  function StatusOfValue(v: string): (r: Option<ProcessingStatus>)
    ensures r.Some? ==> StatusValue(r.value) == v
  {
    if v == "pending" then Some(Pending)
    else if v == "processing" then Some(Processing)
    else if v == "completed" then Some(Completed)
    else if v == "failed" then Some(Failed)
    else None
  }

  /** The values the database enum accepts. */
  const AllowedStatusValues: seq<string> := ["pending", "processing", "completed", "failed"]

  /** Name and value determine each other: every member reads back from its value. */
  lemma StatusValueRoundTrip(s: ProcessingStatus)
    ensures StatusOfValue(StatusValue(s)) == Some(s)
    ensures StatusValue(s) in AllowedStatusValues
  {
  }

  /** Exactly the allowed values name a member. */
  lemma StatusValuesAllowed(v: string)
    ensures StatusOfValue(v).Some? <==> v in AllowedStatusValues
  {
  }

  /** Different members have different values. */
  lemma StatusValueInjective(a: ProcessingStatus, b: ProcessingStatus)
    requires StatusValue(a) == StatusValue(b)
    ensures a == b
  {
    StatusValueRoundTrip(a);
    StatusValueRoundTrip(b);
  }

  /** The regulatory regions a template can target. */
  datatype Region = CN | EU | US

  function RegionValue(r: Region): string {
    match r
    case CN => "CN"
    case EU => "EU"
    case US => "US"
  }

  function RegionOfValue(v: string): (r: Option<Region>)
    ensures r.Some? ==> RegionValue(r.value) == v
  {
    if v == "CN" then Some(CN) else if v == "EU" then Some(EU) else if v == "US" then Some(US) else None
  }

  lemma RegionValueRoundTrip(r: Region)
    ensures RegionOfValue(RegionValue(r)) == Some(r)
  {
  }

  // ----- column limits -----

  const FilenameMax: nat := 255
  const FilePathMax: nat := 500
  const FileSizeMax: nat := 50
  const ErrorMessageMax: nat := 500
  const CompoundCodeMax: nat := 50
  const CompoundNameMax: nat := 200
  const FieldNameMax: nat := 100

  /** Identifiers are canonical UUID strings; time is in microseconds since the epoch. */
  type Uuid = string
  type Instant = int

  /** A row of `coa_documents`. */
  datatype CoaDocument = CoaDocument(
    id: Uuid,
    compoundId: Uuid,
    filename: string,
    filePath: string,
    fileSize: Option<string>,
    status: ProcessingStatus,
    errorMessage: Option<string>,
    uploadedAt: Instant,
    processedAt: Option<Instant>)

  /** The `String(n)` limits a row must meet for the insert or update to succeed. */
  predicate DocumentFits(d: CoaDocument) {
    |d.filename| <= FilenameMax && |d.filePath| <= FilePathMax
    && (d.fileSize.Some? ==> |d.fileSize.value| <= FileSizeMax)
    && (d.errorMessage.Some? ==> |d.errorMessage.value| <= ErrorMessageMax)
  }

  /** A document as created when no status is given: pending, no error, not yet processed. */
  function NewDocument(id: Uuid, compoundId: Uuid, filename: string, filePath: string,
                       fileSize: Option<string>, now: Instant): (d: CoaDocument)
    ensures d.status == Pending && d.errorMessage == None && d.processedAt == None
    ensures d.filename == filename && d.filePath == filePath && d.compoundId == compoundId
  {
    CoaDocument(id, compoundId, filename, filePath, fileSize, Pending, None, now, None)
  }

  /** `error_msg[:500]`, the truncation applied before writing an error message. */
  function TruncateError(msg: string): (r: string)
    ensures |r| <= ErrorMessageMax
    ensures |msg| <= ErrorMessageMax ==> r == msg
    ensures StartsWith(msg, r)
  {
    Take(msg, ErrorMessageMax)
  }

  /** A truncated error message always fits the column. */
  lemma FailedStatusFits(d: CoaDocument, msg: string)
    requires DocumentFits(d)
    ensures DocumentFits(d.(status := Failed, errorMessage := Some(TruncateError(msg))))
  {
  }

  /** A row of `extracted_data`. Confidence is kept in hundredths. */
  datatype ExtractedRow = ExtractedRow(documentId: Uuid, fieldName: string, fieldValue: string, confidence: int)

  predicate RowFits(r: ExtractedRow) {
    |r.fieldName| <= FieldNameMax
  }

  /** A row of `compounds`. */
  datatype Compound = Compound(id: Uuid, code: string, name: string, description: Option<string>)

  predicate CompoundFits(c: Compound) {
    |c.code| <= CompoundCodeMax && |c.name| <= CompoundNameMax
  }

  /** A row of `templates`; `fieldMapping` is the optional JSON column. */
  datatype Template = Template(
    id: Uuid, compoundId: Uuid, region: Region, content: string,
    fieldMapping: Option<map<string, string>>)
}
