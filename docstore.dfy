// The two tables the batch pipeline writes, the COA documents and their
// extracted fields: which extracted values are persisted, how the rows are
// written, and how `get_batch_analysis_data` rebuilds batch records from
// them.
module DocStore {
  import opened Wrappers
  import opened Text
  import opened Json
  import opened Http
  import opened Models
  import opened AiExtractor

  /** The documents and extracted-data tables, each in insertion order. */
  datatype Tables = Tables(documents: seq<CoaDocument>, extracted: seq<ExtractedRow>)

  /** The document has this file name and belongs to this compound. */
  predicate Named(d: CoaDocument, filename: string, compoundId: Uuid) {
    d.filename == filename && d.compoundId == compoundId
  }

  /** The duplicate check: some document already has this name under this compound. */
  predicate HasDocument(docs: seq<CoaDocument>, filename: string, compoundId: Uuid) {
    exists i :: 0 <= i < |docs| && Named(docs[i], filename, compoundId)
  }

  /** No document has this id yet. */
  predicate FreshId(docs: seq<CoaDocument>, id: Uuid) {
    forall i :: 0 <= i < |docs| ==> docs[i].id != id
  }

  /** The position of the document with this id, if any (`query(...).filter(id == ...).first()`). */
  function IndexOfId(docs: seq<CoaDocument>, id: Uuid): (r: Option<nat>)
    ensures r.Some? ==> r.value < |docs| && docs[r.value].id == id
    ensures r.None? <==> FreshId(docs, id)
  {
    if docs == [] then None
    else if docs[|docs| - 1].id == id then Some(|docs| - 1)
    else IndexOfId(docs[..|docs| - 1], id)
  }

  /** The driver's message when a value is longer than its `String(n)` column. */
  const TooLongMessage: string := "value too long for type character varying"

  /**
   * The driver's message for any statement sent inside a transaction that an
   * earlier failed statement has aborted; only a rollback ends that state.
   */
  const AbortedMessage: string := "current transaction is aborted, commands ignored until end of transaction block"

  // ----- which extracted values are persisted -----

  /** Confidence scores in hundredths: 0.95 for basic fields, 0.90 for test results. */
  const BasicConfidence: int := 95
  const TestConfidence: int := 90

  const BatchNumberField: string := "batch_number"
  const ManufactureDateField: string := "manufacture_date"
  const ManufacturerField: string := "manufacturer"

  predicate IsBasicName(n: string) {
    n == BatchNumberField || n == ManufactureDateField || n == ManufacturerField
  }

  /** A value about to be written, with the column values that go with it. */
  datatype Field = Field(name: string, value: Json, confidence: int)

  /** A basic field is written when its value is truthy. */
  function Kept(name: string, v: Json): (fs: seq<Field>)
    ensures fs == [] <==> !Truthy(v)
    ensures fs != [] ==> fs == [Field(name, v, BasicConfidence)]
  {
    if Truthy(v) then [Field(name, v, BasicConfidence)] else []
  }

  /** The basic fields written, in the order the loop visits them. */
  function BasicFields(b: BatchInfo): (fs: seq<Field>)
  {
    Kept(BatchNumberField, b.batchNumber) + Kept(ManufactureDateField, b.manufactureDate)
      + Kept(ManufacturerField, b.manufacturer)
  }

  /**
   * A test result is written when it is truthy and not `"TBD"`; the empty
   * string is not truthy, and `"ND"` is written.
   */
  predicate StoredResult(v: Json) {
    Truthy(v) && v != JStr(Tbd)
  }

  /** Each test field written is a persisted result under its own parameter name. */
  lemma {:induction false} TestFieldsValues(params: seq<string>, results: map<string, Json>)
    ensures forall f :: f in TestFields(params, results) ==>
      f.name in results && f.value == results[f.name] && StoredResult(f.value) && f.confidence == TestConfidence
  {
    if params != [] {
      TestFieldsValues(params[1..], results);
    }
  }

  /** The test results written, visiting the parameters in order. */
  function TestFields(params: seq<string>, results: map<string, Json>): (fs: seq<Field>)
  {
    if params == [] then []
    else
      var p := params[0];
      (if p in results && StoredResult(results[p]) then [Field(p, results[p], TestConfidence)] else [])
        + TestFields(params[1..], results)
  }

  /**
   * Every field a processed record writes: the basic fields, then the test
   * results. A record's results are keyed by the schema's parameters in
   * schema order, so visiting the parameters is visiting the dictionary.
   */
  function WantedFields(b: BatchInfo): seq<Field> {
    BasicFields(b) + TestFields(TestParameters, b.testResults)
  }

  // ----- writing rows -----

  /**
   * How the database driver turns a value into the text column's content,
   * or the error it raises. Strings are written as they are.
   */
  type Adapter = Json -> Result<string, string>

  ghost predicate KeepsText(adapt: Adapter) {
    forall s :: adapt(JStr(s)) == Ok(s)
  }

  /** The driver accepts every value. */
  predicate Adapted(fields: seq<Field>, adapt: Adapter) {
    forall i :: 0 <= i < |fields| ==> adapt(fields[i].value).Ok?
  }

  function RowOf(docId: Uuid, f: Field, adapt: Adapter): ExtractedRow
    requires adapt(f.value).Ok?
  {
    ExtractedRow(docId, f.name, adapt(f.value).value, f.confidence)
  }

  /** The rows the fields become, one each, in order. */
  function Rows(docId: Uuid, fields: seq<Field>, adapt: Adapter): (rows: seq<ExtractedRow>)
    requires Adapted(fields, adapt)
    ensures |rows| == |fields|
  {
    seq(|fields|, i requires 0 <= i < |fields| => RowOf(docId, fields[i], adapt))
  }

  /** The first refusal from position `i` on: the value at `i`, or else the first refusal after it. */
  lemma RefusalAt(fields: seq<Field>, i: nat, adapt: Adapter)
    requires i < |fields|
    ensures FirstRefusal(fields[i..], adapt) ==
      if adapt(fields[i].value).Err? then Some(adapt(fields[i].value).error) else FirstRefusal(fields[i + 1..], adapt)
  {
    assert fields[i..][0] == fields[i] && fields[i..][1..] == fields[i + 1..];
  }

  /** One more accepted field of a prefix appends its row. */
  lemma RowsPrefixStep(docId: Uuid, fields: seq<Field>, i: nat, adapt: Adapter)
    requires i < |fields| && Adapted(fields[..i], adapt) && adapt(fields[i].value).Ok?
    ensures Adapted(fields[..i + 1], adapt)
    ensures Rows(docId, fields[..i + 1], adapt) == Rows(docId, fields[..i], adapt) + [RowOf(docId, fields[i], adapt)]
  {
    assert fields[..i + 1] == fields[..i] + [fields[i]];
  }

  /** The error of the first value the driver refuses, if any. */
  function FirstRefusal(fields: seq<Field>, adapt: Adapter): (r: Option<string>)
    ensures r.None? <==> Adapted(fields, adapt)
    ensures r.Some? ==> exists i :: 0 <= i < |fields| && adapt(fields[i].value) == Err(r.value)
  {
    if fields == [] then None
    else match adapt(fields[0].value)
      case Err(e) => Some(e)
      case Ok(_) =>
        var rest := FirstRefusal(fields[1..], adapt);
        assert forall i :: 1 <= i < |fields| ==> fields[i] == fields[1..][i - 1];
        rest
  }

  /** The flush of a document's rows: all of them, or the first refusal and none. */
  function RowsOf(docId: Uuid, fields: seq<Field>, adapt: Adapter): (r: Result<seq<ExtractedRow>, string>)
    ensures r.Ok? <==> Adapted(fields, adapt)
  {
    match FirstRefusal(fields, adapt)
    case Some(e) => Err(e)
    case None => Ok(Rows(docId, fields, adapt))
  }

  lemma RowsAppend(docId: Uuid, a: seq<Field>, b: seq<Field>, adapt: Adapter)
    requires Adapted(a + b, adapt)
    ensures Adapted(a, adapt) && Adapted(b, adapt)
    ensures Rows(docId, a + b, adapt) == Rows(docId, a, adapt) + Rows(docId, b, adapt)
  {
    var ab := a + b;
    assert forall i :: 0 <= i < |a| ==> ab[i] == a[i];
    assert forall i :: 0 <= i < |b| ==> ab[|a| + i] == b[i];
  }

  // ----- rebuilding records -----

  /** A record as `get_batch_analysis_data` returns it: every value is the stored text. */
  datatype BatchRecord = BatchRecord(
    filename: string, batchNumber: string, manufactureDate: string, manufacturer: string,
    testResults: map<string, string>)

  function EmptyRecord(filename: string): BatchRecord {
    BatchRecord(filename, "", "", "", map[])
  }

  /** One stored row read back: a basic name sets that field, any other name a test result. */
  function Apply(r: BatchRecord, row: ExtractedRow): BatchRecord {
    if row.fieldName == BatchNumberField then r.(batchNumber := row.fieldValue)
    else if row.fieldName == ManufactureDateField then r.(manufactureDate := row.fieldValue)
    else if row.fieldName == ManufacturerField then r.(manufacturer := row.fieldValue)
    else r.(testResults := r.testResults[row.fieldName := row.fieldValue])
  }

  function RebuildFrom(r: BatchRecord, rows: seq<ExtractedRow>): (out: BatchRecord)
    ensures out.filename == r.filename
    decreases |rows|
  {
    if rows == [] then r else RebuildFrom(Apply(r, rows[0]), rows[1..])
  }

  /** The reconstruction loop: the rows applied in order, a later row winning. */
  function Rebuild(filename: string, rows: seq<ExtractedRow>): BatchRecord {
    RebuildFrom(EmptyRecord(filename), rows)
  }

  lemma {:induction false} RebuildAppend(r: BatchRecord, a: seq<ExtractedRow>, b: seq<ExtractedRow>)
    ensures RebuildFrom(r, a + b) == RebuildFrom(RebuildFrom(r, a), b)
    decreases |a|
  {
    if a == [] {
      assert a + b == b;
    } else {
      assert (a + b)[0] == a[0] && (a + b)[1..] == a[1..] + b;
      RebuildAppend(Apply(r, a[0]), a[1..], b);
    }
  }

  /** Reading back the rows of `a + b` is reading back those of `a`, then those of `b`. */
  lemma RebuildOfConcat(r: BatchRecord, docId: Uuid, a: seq<Field>, b: seq<Field>, adapt: Adapter)
    requires Adapted(a + b, adapt)
    ensures Adapted(a, adapt) && Adapted(b, adapt)
    ensures RebuildFrom(r, Rows(docId, a + b, adapt))
         == RebuildFrom(RebuildFrom(r, Rows(docId, a, adapt)), Rows(docId, b, adapt))
  {
    RowsAppend(docId, a, b, adapt);
    RebuildAppend(r, Rows(docId, a, adapt), Rows(docId, b, adapt));
  }

  lemma RebuildSingle(r: BatchRecord, row: ExtractedRow)
    ensures RebuildFrom(r, [row]) == Apply(r, row)
  {
    assert [row][1..] == [];
  }

  /** The text a persisted value reads back as. */
  function TextOf(adapt: Adapter, v: Json): string {
    match adapt(v)
    case Ok(s) => s
    case Err(_) => ""
  }

  /** A basic field reads back as its text when it was written, and as `""` otherwise. */
  function BasicText(adapt: Adapter, v: Json): string {
    if Truthy(v) then TextOf(adapt, v) else ""
  }

  /** The test results that read back: each persisted parameter with its text. */
  function StoredResults(params: seq<string>, results: map<string, Json>, adapt: Adapter): map<string, string> {
    map p | p in params && p in results && StoredResult(results[p]) :: TextOf(adapt, results[p])
  }

  /** What a processed record reads back as, stated from the record alone. */
  function Summary(b: BatchInfo, adapt: Adapter): BatchRecord {
    BatchRecord(b.filename, BasicText(adapt, b.batchNumber), BasicText(adapt, b.manufactureDate),
                BasicText(adapt, b.manufacturer), StoredResults(TestParameters, b.testResults, adapt))
  }

  lemma RebuildKept(r: BatchRecord, docId: Uuid, name: string, v: Json, adapt: Adapter)
    requires Adapted(Kept(name, v), adapt)
    ensures RebuildFrom(r, Rows(docId, Kept(name, v), adapt))
         == if Truthy(v) then Apply(r, ExtractedRow(docId, name, TextOf(adapt, v), BasicConfidence)) else r
  {
    if Truthy(v) {
      var rows := Rows(docId, Kept(name, v), adapt);
      assert rows == [ExtractedRow(docId, name, TextOf(adapt, v), BasicConfidence)];
      RebuildSingle(r, rows[0]);
    } else {
      assert Rows(docId, Kept(name, v), adapt) == [];
    }
  }

  /** The persisted results of a parameter list, seen from its first parameter. */
  lemma StoredResultsCons(params: seq<string>, results: map<string, Json>, adapt: Adapter)
    requires params != []
    ensures var p := params[0];
      var tail := StoredResults(params[1..], results, adapt);
      StoredResults(params, results, adapt)
        == if p in results && StoredResult(results[p]) then tail[p := TextOf(adapt, results[p])] else tail
  {
    var p := params[0];
    assert forall q :: q in params <==> q == p || q in params[1..];
  }

  lemma EmptyUnion(m: map<string, string>)
    ensures map[] + m == m
  {
  }

  lemma UnionUpdate(m: map<string, string>, tail: map<string, string>, p: string, t: string)
    requires p in tail ==> tail[p] == t
    ensures m[p := t] + tail == m + tail[p := t]
  {
  }

  /** Reading back the test rows adds exactly the persisted results. */
  lemma {:induction false} RebuildTests(r: BatchRecord, docId: Uuid, params: seq<string>,
                                        results: map<string, Json>, adapt: Adapter)
    requires forall i :: 0 <= i < |params| ==> !IsBasicName(params[i])
    requires Adapted(TestFields(params, results), adapt)
    ensures RebuildFrom(r, Rows(docId, TestFields(params, results), adapt))
         == r.(testResults := r.testResults + StoredResults(params, results, adapt))
    decreases |params|
  {
    if params == [] {
      assert StoredResults(params, results, adapt) == map[];
      assert r.testResults + map[] == r.testResults;
    } else {
      var p := params[0];
      var rest := params[1..];
      var stored := p in results && StoredResult(results[p]);
      var head := if stored then [Field(p, results[p], TestConfidence)] else [];
      var tests := TestFields(rest, results);
      assert TestFields(params, results) == head + tests;
      RowsAppend(docId, head, tests, adapt);
      RebuildAppend(r, Rows(docId, head, adapt), Rows(docId, tests, adapt));
      var r1 := RebuildFrom(r, Rows(docId, head, adapt));
      assert forall i :: 0 <= i < |rest| ==> !IsBasicName(rest[i]) by {
        forall i | 0 <= i < |rest| ensures !IsBasicName(rest[i]) {
          assert rest[i] == params[i + 1];
        }
      }
      RebuildTests(r1, docId, rest, results, adapt);
      StoredResultsCons(params, results, adapt);
      var tail := StoredResults(rest, results, adapt);
      if stored {
        var t := TextOf(adapt, results[p]);
        assert Rows(docId, head, adapt) == [ExtractedRow(docId, p, t, TestConfidence)];
        RebuildSingle(r, ExtractedRow(docId, p, t, TestConfidence));
        assert !IsBasicName(params[0]);
        UnionUpdate(r.testResults, tail, p, t);
      } else {
        assert Rows(docId, head, adapt) == [];
      }
    }
  }

  /**
   * The round trip of processing and `get_batch_analysis_data`: the rows
   * written for a record read back as the record's summary.
   */
  lemma RebuildOfWritten(docId: Uuid, b: BatchInfo, adapt: Adapter)
    requires Adapted(WantedFields(b), adapt)
    ensures Rebuild(b.filename, Rows(docId, WantedFields(b), adapt)) == Summary(b, adapt)
  {
    BasicNamesNotParameters();
    RebuildOfWrittenFor(docId, b, TestParameters, adapt);
  }

  lemma RebuildOfWrittenFor(docId: Uuid, b: BatchInfo, params: seq<string>, adapt: Adapter)
    requires forall i :: 0 <= i < |params| ==> !IsBasicName(params[i])
    requires Adapted(BasicFields(b) + TestFields(params, b.testResults), adapt)
    ensures Rebuild(b.filename, Rows(docId, BasicFields(b) + TestFields(params, b.testResults), adapt))
         == BatchRecord(b.filename, BasicText(adapt, b.batchNumber), BasicText(adapt, b.manufactureDate),
                        BasicText(adapt, b.manufacturer), StoredResults(params, b.testResults, adapt))
  {
    var e3 := RebuildBasic(docId, b, TestFields(params, b.testResults), adapt);
    RebuildTestsFromEmpty(e3, docId, params, b.testResults, adapt);
  }

  lemma RebuildTestsFromEmpty(r: BatchRecord, docId: Uuid, params: seq<string>,
                              results: map<string, Json>, adapt: Adapter)
    requires forall i :: 0 <= i < |params| ==> !IsBasicName(params[i])
    requires Adapted(TestFields(params, results), adapt)
    requires r.testResults == map[]
    ensures RebuildFrom(r, Rows(docId, TestFields(params, results), adapt))
         == r.(testResults := StoredResults(params, results, adapt))
  {
    RebuildTests(r, docId, params, results, adapt);
    EmptyUnion(StoredResults(params, results, adapt));
  }

  /** Reading back the basic rows, whatever follows them, sets the three fields to their texts. */
  lemma RebuildBasic(docId: Uuid, b: BatchInfo, tests: seq<Field>, adapt: Adapter) returns (e3: BatchRecord)
    requires Adapted(BasicFields(b) + tests, adapt)
    ensures Adapted(tests, adapt)
    ensures RebuildFrom(EmptyRecord(b.filename), Rows(docId, BasicFields(b) + tests, adapt))
         == RebuildFrom(e3, Rows(docId, tests, adapt))
    ensures e3 == BatchRecord(b.filename, BasicText(adapt, b.batchNumber), BasicText(adapt, b.manufactureDate),
                              BasicText(adapt, b.manufacturer), map[])
  {
    var k1 := Kept(BatchNumberField, b.batchNumber);
    var k2 := Kept(ManufactureDateField, b.manufactureDate);
    var k3 := Kept(ManufacturerField, b.manufacturer);
    assert BasicFields(b) + tests == k1 + (k2 + (k3 + tests));
    var e := EmptyRecord(b.filename);
    RebuildOfConcat(e, docId, k1, k2 + (k3 + tests), adapt);
    RebuildKept(e, docId, BatchNumberField, b.batchNumber, adapt);
    var e1 := RebuildFrom(e, Rows(docId, k1, adapt));
    RebuildOfConcat(e1, docId, k2, k3 + tests, adapt);
    RebuildKept(e1, docId, ManufactureDateField, b.manufactureDate, adapt);
    var e2 := RebuildFrom(e1, Rows(docId, k2, adapt));
    RebuildOfConcat(e2, docId, k3, tests, adapt);
    RebuildKept(e2, docId, ManufacturerField, b.manufacturer, adapt);
    e3 := RebuildFrom(e2, Rows(docId, k3, adapt));
  }

  lemma BasicNamesNotParameters()
    ensures forall i :: 0 <= i < |TestParameters| ==> !IsBasicName(TestParameters[i])
  {
  }

  /** A driver that writes strings as they are accepts a record whose values are all strings. */
  lemma TextRecordAdapted(b: BatchInfo, params: seq<string>, adapt: Adapter)
    requires KeepsText(adapt)
    requires forall k :: k in b.testResults ==> b.testResults[k].JStr?
    requires b.batchNumber.JStr? && b.manufactureDate.JStr? && b.manufacturer.JStr?
    ensures Adapted(BasicFields(b) + TestFields(params, b.testResults), adapt)
  {
    var basic := BasicFields(b);
    var tests := TestFields(params, b.testResults);
    var all: seq<Field> := basic + tests;
    TestFieldsValues(params, b.testResults);
    forall i | 0 <= i < |all| ensures adapt(all[i].value).Ok? {
      if i < |basic| {
        assert all[i] == basic[i];
      } else {
        assert all[i] == tests[i - |basic|];
        assert tests[i - |basic|] in tests;
      }
    }
  }

  /** What the test results of an all-string record read back as. */
  function TextResults(results: map<string, Json>): map<string, string> {
    map k | k in results && results[k].JStr? && results[k] != JStr(Tbd) && results[k] != JStr("") :: results[k].s
  }

  lemma StoredTextResults(params: seq<string>, results: map<string, Json>, adapt: Adapter)
    requires KeepsText(adapt)
    requires forall k :: k in results ==> results[k].JStr? && k in params
    ensures StoredResults(params, results, adapt) == TextResults(results)
  {
    var m := StoredResults(params, results, adapt);
    var t := TextResults(results);
    forall k | k in m ensures k in t && m[k] == t[k] {
      assert adapt(JStr(results[k].s)) == Ok(results[k].s);
    }
    forall k | k in t ensures k in m {
    }
  }

  lemma BasicTextOfString(adapt: Adapter, s: string)
    requires KeepsText(adapt)
    ensures BasicText(adapt, JStr(s)) == s
  {
    assert adapt(JStr(s)) == Ok(s);
  }

  /**
   * For a record whose values are all strings and a driver that writes
   * strings as they are, reading back gives the record's own strings, less
   * the results still `"TBD"`.
   */
  lemma RebuildOfTextRecord(docId: Uuid, b: BatchInfo, adapt: Adapter)
    requires KeepsText(adapt)
    requires b.batchNumber.JStr? && b.manufactureDate.JStr? && b.manufacturer.JStr?
    requires forall k :: k in b.testResults ==> b.testResults[k].JStr?
    requires SchemaFilled(b)
    ensures Adapted(WantedFields(b), adapt)
    ensures Rebuild(b.filename, Rows(docId, WantedFields(b), adapt))
         == BatchRecord(b.filename, b.batchNumber.s, b.manufactureDate.s, b.manufacturer.s, TextResults(b.testResults))
  {
    forall k | k in b.testResults ensures k in TestParameters {
      InParameterSet(k);
    }
    TextRecordAdapted(b, TestParameters, adapt);
    RebuildOfWritten(docId, b, adapt);
    StoredTextResults(TestParameters, b.testResults, adapt);
    BasicTextOfString(adapt, b.batchNumber.s);
    BasicTextOfString(adapt, b.manufactureDate.s);
    BasicTextOfString(adapt, b.manufacturer.s);
  }

  lemma InParameterSet(k: string)
    requires k in ParameterSet
    ensures k in TestParameters
  {
  }

  // ----- reading records back -----

  /** The rows stored for one document, in table order. */
  function RowsFor(rows: seq<ExtractedRow>, docId: Uuid): (r: seq<ExtractedRow>)
    ensures forall x :: x in r <==> x in rows && x.documentId == docId
    ensures |r| <= |rows|
  {
    if rows == [] then []
    else
      var last := rows[|rows| - 1];
      RowsFor(rows[..|rows| - 1], docId) + (if last.documentId == docId then [last] else [])
  }

  /** Appending rows of a document with no earlier rows: its rows are exactly those. */
  lemma {:induction false} RowsForFresh(rows: seq<ExtractedRow>, added: seq<ExtractedRow>, docId: Uuid)
    requires forall x :: x in rows ==> x.documentId != docId
    requires forall x :: x in added ==> x.documentId == docId
    ensures RowsFor(rows + added, docId) == added
    decreases |added|
  {
    if added == [] {
      assert rows + added == rows;
      RowsForNone(rows, docId);
    } else {
      var front := added[..|added| - 1];
      DropLast(rows, added);
      RowsForFresh(rows, front, docId);
    }
  }

  lemma DropLast(rows: seq<ExtractedRow>, added: seq<ExtractedRow>)
    requires added != []
    ensures (rows + added)[..|rows + added| - 1] == rows + added[..|added| - 1]
    ensures (rows + added)[|rows + added| - 1] == added[|added| - 1]
    ensures added[..|added| - 1] + [added[|added| - 1]] == added
  {
  }

  /** A document's written rows read back, after any earlier rows of other documents, into its summary. */
  lemma WrittenReadsBack(extracted: seq<ExtractedRow>, docId: Uuid, b: BatchInfo, adapt: Adapter)
    requires forall x :: x in extracted ==> x.documentId != docId
    requires Adapted(WantedFields(b), adapt)
    ensures Rebuild(b.filename, RowsFor(extracted + Rows(docId, WantedFields(b), adapt), docId)) == Summary(b, adapt)
  {
    var rows := Rows(docId, WantedFields(b), adapt);
    forall x | x in rows ensures x.documentId == docId {
      var k :| 0 <= k < |rows| && rows[k] == x;
    }
    RowsForFresh(extracted, rows, docId);
    RebuildOfWritten(docId, b, adapt);
  }

  lemma {:induction false} RowsForNone(rows: seq<ExtractedRow>, docId: Uuid)
    requires forall x :: x in rows ==> x.documentId != docId
    ensures RowsFor(rows, docId) == []
  {
    if rows != [] {
      var front := rows[..|rows| - 1];
      assert forall x :: x in front ==> x in rows;
      assert rows[|rows| - 1] in rows;
      RowsForNone(front, docId);
    }
  }

  predicate CompletedFor(d: CoaDocument, compoundId: Uuid) {
    d.compoundId == compoundId && d.status == Completed
  }

  /** The compound's completed documents, in table order. */
  function CompletedDocs(docs: seq<CoaDocument>, compoundId: Uuid): (r: seq<CoaDocument>)
    ensures forall d :: d in r <==> d in docs && CompletedFor(d, compoundId)
  {
    if docs == [] then []
    else
      var last := docs[|docs| - 1];
      CompletedDocs(docs[..|docs| - 1], compoundId) + (if CompletedFor(last, compoundId) then [last] else [])
  }

  /** The documents that have at least one stored row, in table order. */
  function WithRows(docs: seq<CoaDocument>, rows: seq<ExtractedRow>): (w: seq<CoaDocument>)
    ensures |w| <= |docs|
    ensures forall d :: d in w <==> d in docs && RowsFor(rows, d.id) != []
  {
    if docs == [] then []
    else
      var last := docs[|docs| - 1];
      WithRows(docs[..|docs| - 1], rows) + (if RowsFor(rows, last.id) != [] then [last] else [])
  }

  /** One more document of a prefix adds its record exactly when it has rows. */
  lemma RecordsPrefixStep(docs: seq<CoaDocument>, i: nat, rows: seq<ExtractedRow>)
    requires i < |docs|
    ensures var found := RowsFor(rows, docs[i].id);
      Records(docs[..i + 1], rows)
      == Records(docs[..i], rows) + if found != [] then [Rebuild(docs[i].filename, found)] else []
  {
    assert docs[..i + 1][..i] == docs[..i];
  }

  /**
   * One record per document that has rows, rebuilt from them, in document
   * order: the i-th record is that of the i-th document with rows.
   */
  function Records(docs: seq<CoaDocument>, rows: seq<ExtractedRow>): (r: seq<BatchRecord>)
    ensures |r| == |WithRows(docs, rows)| <= |docs|
    ensures forall i :: 0 <= i < |r| ==>
      r[i] == Rebuild(WithRows(docs, rows)[i].filename, RowsFor(rows, WithRows(docs, rows)[i].id))
  {
    if docs == [] then []
    else
      var last := docs[|docs| - 1];
      var found := RowsFor(rows, last.id);
      var front := Records(docs[..|docs| - 1], rows);
      assert WithRows(docs, rows) == WithRows(docs[..|docs| - 1], rows) + (if found != [] then [last] else []);
      front + (if found != [] then [Rebuild(last.filename, found)] else [])
  }

  /** Every document with rows has its record, and every record is some document's. */
  lemma RecordsComplete(docs: seq<CoaDocument>, rows: seq<ExtractedRow>)
    ensures forall d :: d in docs && RowsFor(rows, d.id) != [] ==> Rebuild(d.filename, RowsFor(rows, d.id)) in Records(docs, rows)
    ensures forall i :: 0 <= i < |Records(docs, rows)| ==>
      exists d :: d in docs && Records(docs, rows)[i] == Rebuild(d.filename, RowsFor(rows, d.id))
  {
    forall d | d in docs && RowsFor(rows, d.id) != []
      ensures Rebuild(d.filename, RowsFor(rows, d.id)) in Records(docs, rows)
    {
      RecordOfDocument(docs, rows, d);
    }
    var r := Records(docs, rows);
    forall i | 0 <= i < |r|
      ensures exists d :: d in docs && r[i] == Rebuild(d.filename, RowsFor(rows, d.id))
    {
      DocumentOfRecord(docs, rows, i);
    }
  }

  lemma RecordOfDocument(docs: seq<CoaDocument>, rows: seq<ExtractedRow>, d: CoaDocument)
    requires d in docs && RowsFor(rows, d.id) != []
    ensures Rebuild(d.filename, RowsFor(rows, d.id)) in Records(docs, rows)
  {
    var w := WithRows(docs, rows);
    assert d in w;
    var j :| 0 <= j < |w| && w[j] == d;
    assert Records(docs, rows)[j] == Rebuild(d.filename, RowsFor(rows, d.id));
  }

  lemma DocumentOfRecord(docs: seq<CoaDocument>, rows: seq<ExtractedRow>, i: nat)
    requires i < |Records(docs, rows)|
    ensures exists d :: d in docs && Records(docs, rows)[i] == Rebuild(d.filename, RowsFor(rows, d.id))
  {
    var w := WithRows(docs, rows);
    assert w[i] in w;
  }

  function NoProcessedMessage(compoundId: Uuid): string {
    "No processed documents found for compound " + compoundId
  }

  /** `get_batch_analysis_data`: 404 when the compound has no completed document. */
  function BatchAnalysis(t: Tables, compoundId: Uuid): (r: Result<seq<BatchRecord>, HttpError>)
    ensures r.Err? <==> CompletedDocs(t.documents, compoundId) == []
    ensures r.Err? ==> r.error == Fail(NotFound, NoProcessedMessage(compoundId))
    ensures r.Ok? ==> forall i :: 0 <= i < |r.value| ==>
      exists d :: d in t.documents && CompletedFor(d, compoundId) && r.value[i] == Rebuild(d.filename, RowsFor(t.extracted, d.id))
    ensures r.Ok? ==> forall d :: d in t.documents && CompletedFor(d, compoundId) && RowsFor(t.extracted, d.id) != [] ==>
      Rebuild(d.filename, RowsFor(t.extracted, d.id)) in r.value
    ensures r.Ok? ==> |r.value| == |WithRows(CompletedDocs(t.documents, compoundId), t.extracted)|
  {
    var docs := CompletedDocs(t.documents, compoundId);
    RecordsComplete(docs, t.extracted);
    if docs == [] then Err(Fail(NotFound, NoProcessedMessage(compoundId)))
    else Ok(Records(docs, t.extracted))
  }

  /** Both tables, updated in place; a nested transaction is a snapshot restored on rollback. */
  class Database {
    var documents: seq<CoaDocument>
    var extracted: seq<ExtractedRow>

    function State(): Tables
      reads this
    {
      Tables(documents, extracted)
    }

    constructor(t: Tables)
      ensures State() == t
    {
      documents := t.documents;
      extracted := t.extracted;
    }

    /** `rollback()`: back to the snapshot taken when the transaction began. */
    method Restore(t: Tables)
      modifies this
      ensures State() == t
    {
      documents := t.documents;
      extracted := t.extracted;
    }

    /** `add(document)` and `flush()`: the insert fails when a value is too long for its column. */
    method AddDocument(d: CoaDocument) returns (r: Result<(), string>)
      modifies this
      ensures r.Ok? <==> DocumentFits(d)
      ensures r.Err? ==> r.error == TooLongMessage && State() == old(State())
      ensures r.Ok? ==> State() == old(State()).(documents := old(documents) + [d])
    {
      if !DocumentFits(d) {
        return Err(TooLongMessage);
      }
      documents := documents + [d];
      r := Ok(());
    }

    /** Assigning the attributes of a loaded document, written at the next flush. */
    method UpdateDocument(i: nat, d: CoaDocument) returns (r: Result<(), string>)
      requires i < |documents|
      modifies this
      ensures r.Ok? <==> DocumentFits(d)
      ensures r.Err? ==> r.error == TooLongMessage && State() == old(State())
      ensures r.Ok? ==> State() == old(State()).(documents := old(documents)[i := d])
    {
      if !DocumentFits(d) {
        return Err(TooLongMessage);
      }
      documents := documents[i := d];
      r := Ok(());
    }

    /**
     * The two `db.add(ExtractedData(...))` loops and the flush that writes
     * them: every row, or none and the first value the driver refuses.
     */
    method AddFields(docId: Uuid, fields: seq<Field>, adapt: Adapter) returns (r: Result<(), string>)
      modifies this
      ensures r.Ok? <==> Adapted(fields, adapt)
      ensures r.Err? ==> Some(r.error) == FirstRefusal(fields, adapt) && State() == old(State())
      ensures r.Ok? ==> State() == old(State()).(extracted := old(extracted) + Rows(docId, fields, adapt))
    {
      var pending: seq<ExtractedRow> := [];
      var i := 0;
      while i < |fields|
        invariant 0 <= i <= |fields|
        invariant Adapted(fields[..i], adapt) && pending == Rows(docId, fields[..i], adapt)
        invariant FirstRefusal(fields, adapt) == FirstRefusal(fields[i..], adapt)
        invariant unchanged(this)
      {
        var v := adapt(fields[i].value);
        RefusalAt(fields, i, adapt);
        if v.Err? {
          return Err(v.error);
        }
        RowsPrefixStep(docId, fields, i, adapt);
        pending := pending + [RowOf(docId, fields[i], adapt)];
        i := i + 1;
      }
      assert fields[..i] == fields;
      extracted := extracted + pending;
      r := Ok(());
    }

    /** `get_batch_analysis_data` */
    method GetBatchAnalysisData(compoundId: Uuid) returns (r: Result<seq<BatchRecord>, HttpError>)
      ensures r == BatchAnalysis(State(), compoundId)
    {
      var docs := CompletedDocs(documents, compoundId);
      if docs == [] {
        return Err(Fail(NotFound, NoProcessedMessage(compoundId)));
      }
      var records: seq<BatchRecord> := [];
      var i := 0;
      while i < |docs|
        invariant 0 <= i <= |docs|
        invariant records == Records(docs[..i], extracted)
      {
        RecordsPrefixStep(docs, i, extracted);
        var found := RowsFor(extracted, docs[i].id);
        if found != [] {
          var record := ReadBack(docs[i].filename, found);
          records := records + [record];
        }
        i := i + 1;
      }
      assert docs[..i] == docs;
      r := Ok(records);
    }
  }

  /** The reconstruction loop over one document's rows. */
  method ReadBack(filename: string, rows: seq<ExtractedRow>) returns (record: BatchRecord)
    ensures record == Rebuild(filename, rows)
  {
    record := EmptyRecord(filename);
    var i := 0;
    while i < |rows|
      invariant 0 <= i <= |rows|
      invariant RebuildFrom(record, rows[i..]) == Rebuild(filename, rows)
    {
      assert rows[i..][0] == rows[i] && rows[i..][1..] == rows[i + 1..];
      record := Apply(record, rows[i]);
      i := i + 1;
    }
    assert rows[i..] == [];
  }
}
