// The field extractor around the language model: the fixed parameter schema,
// the prompt truncation, the reading of the model's reply into a batch record,
// and the clean-up of extracted values. The model itself and `json.loads` are
// oracles passed in as functions.
module AiExtractor {
  import opened Wrappers
  import opened Text
  import opened Json

  /** The 24 test parameters every batch record reports, in schema order. */
  const TestParameters: seq<string> := [
    "Appearance -- visual inspection",
    "IR",
    "HPLC",
    "Assay -- HPLC (on anhydrous basis, %w/w)",
    "Single unspecified impurity",
    "BGB-24860",
    "RRT 0.56",
    "RRT 0.70",
    "RRT 0.72-0.73",
    "RRT 0.76",
    "RRT 0.80",
    "RRT 1.10",
    "Total impurities",
    "Enantiomeric Impurity -- HPLC (%w/w)",
    "Dichloromethane",
    "Ethyl acetate",
    "Isopropanol",
    "Methanol",
    "Tetrahydrofuran",
    "Residue on Ignition (%w/w)",
    "Palladium (ppm)",
    "Polymorphic Form -- XRPD",
    "Water Content -- KF (%w/w)",
    "RRT 0.83"
  ]

  const Appearance: string := "Appearance -- visual inspection"
  const Tbd: string := "TBD"
  const Nd: string := "ND"
  const ConformsShort: string := "Conforms"
  const ConformsFull: string := "Conforms to reference standard"

  /** The identification tests whose "conforms" result is reported in full. */
  predicate IsIdentificationTest(p: string) {
    p == "IR" || p == "HPLC" || p == "Polymorphic Form -- XRPD"
  }

  /** Where a record came from when it was read from the document vault. */
  datatype VeevaTag = VeevaTag(documentId: string, version: string)

  /**
   * One extracted batch: the file it came from, the three basic fields as the
   * model returned them, the test results, and the vault tag when there is one.
   */
  datatype BatchInfo = BatchInfo(
    filename: string,
    batchNumber: Json,
    manufactureDate: Json,
    manufacturer: Json,
    testResults: map<string, Json>,
    veeva: Option<VeevaTag>)

  /** The record reports exactly the schema's parameters. */
  predicate SchemaFilled(b: BatchInfo) {
    b.testResults.Keys == ParameterSet
  }

  const ParameterSet: set<string> := set p | p in TestParameters

  /** `_create_empty_batch_info`: empty basic fields and every parameter `"TBD"`. */
  function EmptyBatchInfo(filename: string): BatchInfo {
    BatchInfo(filename, JStr(""), JStr(""), JStr(""), map p | p in TestParameters :: JStr(Tbd), None)
  }

  lemma EmptyBatchInfoShape(filename: string)
    ensures var b := EmptyBatchInfo(filename);
      SchemaFilled(b) && b.filename == filename && b.veeva == None
      && b.batchNumber == JStr("") && b.manufactureDate == JStr("") && b.manufacturer == JStr("")
      && forall p :: p in b.testResults ==> b.testResults[p] == JStr(Tbd)
  {
  }

  /** The schema lists 24 distinct parameters. */
  lemma TestParametersDistinct()
    ensures |TestParameters| == 24
    ensures forall i, j :: 0 <= i < j < |TestParameters| ==> TestParameters[i] != TestParameters[j]
  {
  }

  method CreateEmptyBatchInfo(filename: string) returns (b: BatchInfo)
    ensures b == EmptyBatchInfo(filename)
  {
    var results: map<string, Json> := map[];
    var i := 0;
    while i < |TestParameters|
      invariant 0 <= i <= |TestParameters|
      invariant results == map p | p in TestParameters[..i] :: JStr(Tbd)
    {
      assert TestParameters[..i + 1] == TestParameters[..i] + [TestParameters[i]];
      results := results[TestParameters[i] := JStr(Tbd)];
      i := i + 1;
    }
    assert TestParameters[..i] == TestParameters;
    b := BatchInfo(filename, JStr(""), JStr(""), JStr(""), results, None);
  }

  /** `get_test_parameters`: the schema as a fresh list, the keys of every empty record. */
  function GetTestParameters(): (r: seq<string>)
    ensures |r| == 24
    ensures forall p :: p in r <==> p in EmptyBatchInfo("").testResults
  {
    TestParameters
  }

  // ----- the request sent to the model -----

  const MaxPromptChars: nat := 8000
  const UserPrefix: string := "Extract all test results from this COA document:\n\n"

  /** Text above 8000 characters is cut to its first 8000 and marked with `"..."`. */
  function TruncateForPrompt(text: string): (r: string)
    ensures |text| <= MaxPromptChars ==> r == text
    ensures |text| > MaxPromptChars ==> |r| == MaxPromptChars + 3 && r == text[..MaxPromptChars] + "..."
    ensures StartsWith(r, Take(text, MaxPromptChars))
  {
    if |text| > MaxPromptChars then text[..MaxPromptChars] + "..." else text
  }

  /** The user message: a fixed instruction followed by the (truncated) document text. */
  function Prompt(text: string): (r: string)
    ensures StartsWith(r, UserPrefix) && r[|UserPrefix|..] == TruncateForPrompt(text)
  {
    UserPrefix + TruncateForPrompt(text)
  }

  /** Truncation depends only on the first 8000 characters once the text is longer. */
  lemma PromptIgnoresTail(a: string, b: string)
    requires |a| > MaxPromptChars && |b| > MaxPromptChars && a[..MaxPromptChars] == b[..MaxPromptChars]
    ensures Prompt(a) == Prompt(b)
  {
  }

  // ----- reading the reply -----

  /** Some `{` comes before some `}`: the regular expression `\{.*\}` finds a match. */
  predicate HasBracePair(s: string) {
    exists a, b :: 0 <= a < b < |s| && s[a] == '{' && s[b] == '}'
  }

  /**
   * The text handed to the JSON parser: from the first `{` to the last `}`
   * (greedy, across lines) when the reply has such a span, else the whole reply.
   */
  function JsonCandidate(response: string): (r: string)
    ensures !HasBracePair(response) ==> r == response
    ensures HasBracePair(response) ==>
      var i := IndexOf(response, '{');
      0 <= i && i + |r| <= |response| && r == response[i..i + |r|]
      && |r| >= 2 && r[0] == '{' && r[|r| - 1] == '}'
      && '{' !in response[..i] && '}' !in response[i + |r|..]
  {
    JsonCandidateMatch(response);
    var i := IndexOf(response, '{');
    var j := LastIndexOf(response, '}');
    if i < j < |response| then response[i..j + 1] else response
  }

  lemma JsonCandidateMatch(response: string)
    ensures HasBracePair(response) <==> IndexOf(response, '{') < LastIndexOf(response, '}') < |response|
  {
    var i := IndexOf(response, '{');
    var j := LastIndexOf(response, '}');
    if HasBracePair(response) {
      var a, b :| 0 <= a < b < |response| && response[a] == '{' && response[b] == '}';
      IndexOfAtMost(response, '{', a);
      LastIndexOfAtLeast(response, '}', b);
    }
  }

  /** The span is greedy: two objects in one reply are handed over together. */
  lemma GreedySpanJoinsObjects()
    ensures JsonCandidate("{} {}") == "{} {}"
  {
    var s := "{} {}";
    assert IndexOf(s, '{') == 0;
    assert LastIndexOf(s, '}') == 4;
  }

  /** How parameter `p` is read from the reply's `test_results`; `None` where Python raises. */
  function LookupParameter(source: Json, p: string): Option<Json> {
    match PyIn(p, source)
    case None => None
    case Some(found) =>
      if !found then Some(JStr(Tbd))
      else if source.JObj? then Some(source.fields[p])
      else None
  }

  /** The values read for `params`, or `None` when reading one of them raises. */
  function ResultsFor(source: Json, params: seq<string>): Option<map<string, Json>> {
    if forall p :: p in params ==> LookupParameter(source, p).Some? then
      Some(map p | p in params :: LookupParameter(source, p).value)
    else None
  }

  /** The test results read from the reply, or `None` when the loop raises. */
  function TestResultsFrom(source: Json): Option<map<string, Json>> {
    ResultsFor(source, TestParameters)
  }

  /** Reading from a JSON object copies the schema's parameters and fills the rest with `"TBD"`. */
  lemma TestResultsFromObject(fields: map<string, Json>)
    ensures var r := TestResultsFrom(JObj(fields));
      r.Some? && r.value.Keys == ParameterSet
      && forall p :: p in r.value ==> r.value[p] == Get(fields, p, JStr(Tbd))
  {
  }

  /** A reply whose `test_results` is not a container makes the loop raise. */
  lemma TestResultsFromScalar(source: Json)
    requires source.JNull? || source.JInt? || source.JBool?
    ensures TestResultsFrom(source) == None
  {
    assert LookupParameter(source, TestParameters[0]).None?;
  }

  /** The loop over the parameters, copying each value found or `"TBD"`. */
  method FillResults(source: Json, params: seq<string>) returns (r: Option<map<string, Json>>)
    ensures r == ResultsFor(source, params)
  {
    var results: map<string, Json> := map[];
    var i := 0;
    while i < |params|
      invariant 0 <= i <= |params|
      invariant forall p :: p in params[..i] ==> LookupParameter(source, p).Some?
      invariant results == map p | p in params[..i] :: LookupParameter(source, p).value
    {
      var p := params[i];
      var found := PyIn(p, source);
      if found.None? || (found.value && !source.JObj?) {
        assert LookupParameter(source, p).None?;
        return None;
      }
      var v := if found.value then source.fields[p] else JStr(Tbd);
      assert params[..i + 1] == params[..i] + [p];
      results := results[p := v];
      i := i + 1;
    }
    assert params[..i] == params;
    r := Some(results);
  }

  method FillTestResults(source: Json) returns (r: Option<map<string, Json>>)
    ensures r == TestResultsFrom(source)
  {
    r := FillResults(source, TestParameters);
  }

  /** `len(manufacturer)` and `manufacturer[:50]` in the summary line succeed. */
  predicate ManufacturerPrintable(m: Json) {
    HasLen(m) && !(m.JObj? && |m.fields| > 50)
  }

  /**
   * `_parse_batch_ai_response`: the record the reply describes, or the empty
   * record when the reply is missing, does not parse to an object, or makes a
   * step raise.
   */
  function ParsedBatch(response: Option<string>, filename: string, loads: string -> Option<Json>): BatchInfo {
    if response.None? then EmptyBatchInfo(filename)
    else match loads(JsonCandidate(response.value))
      case Some(JObj(data)) =>
        var bn := Get(data, "batch_number", JStr(""));
        var md := Get(data, "manufacture_date", JStr(""));
        var mf := Get(data, "manufacturer", JStr(""));
        (match TestResultsFrom(Get(data, "test_results", JObj(map[])))
         case Some(tr) =>
           if ManufacturerPrintable(mf) then BatchInfo(filename, bn, md, mf, tr, None)
           else EmptyBatchInfo(filename)
         case None => EmptyBatchInfo(filename))
      case _ => EmptyBatchInfo(filename)
  }

  method ParseBatchResponse(response: Option<string>, filename: string, loads: string -> Option<Json>)
    returns (b: BatchInfo)
    ensures b == ParsedBatch(response, filename, loads)
  {
    if response.None? {
      b := CreateEmptyBatchInfo(filename);
      return;
    }
    var data := loads(JsonCandidate(response.value));
    if !(data.Some? && data.value.JObj?) {
      b := CreateEmptyBatchInfo(filename);
      return;
    }
    var fields := data.value.fields;
    var tr := FillTestResults(Get(fields, "test_results", JObj(map[])));
    var mf := Get(fields, "manufacturer", JStr(""));
    if tr.None? || !ManufacturerPrintable(mf) {
      b := CreateEmptyBatchInfo(filename);
      return;
    }
    b := BatchInfo(filename, Get(fields, "batch_number", JStr("")), Get(fields, "manufacture_date", JStr("")),
                   mf, tr.value, None);
  }

  /** Whatever the reply, the record names the file and reports exactly the schema. */
  lemma ParsedBatchFilled(response: Option<string>, filename: string, loads: string -> Option<Json>)
    ensures SchemaFilled(ParsedBatch(response, filename, loads))
    ensures ParsedBatch(response, filename, loads).filename == filename
  {
    EmptyBatchInfoShape(filename);
  }

  /**
   * A reply whose candidate parses to an object with an object of test
   * results and a string manufacturer yields its basic fields (`""` when
   * missing) and, per parameter, its value or `"TBD"`; other keys are dropped.
   */
  lemma ParsedBatchOfObject(response: string, filename: string, loads: string -> Option<Json>,
                            data: map<string, Json>, tests: map<string, Json>, manufacturer: string)
    requires loads(JsonCandidate(response)) == Some(JObj(data))
    requires Get(data, "test_results", JObj(map[])) == JObj(tests)
    requires Get(data, "manufacturer", JStr("")) == JStr(manufacturer)
    ensures var b := ParsedBatch(Some(response), filename, loads);
      b.batchNumber == Get(data, "batch_number", JStr(""))
      && b.manufactureDate == Get(data, "manufacture_date", JStr(""))
      && b.manufacturer == JStr(manufacturer)
      && b.testResults.Keys == ParameterSet
      && forall p :: p in b.testResults ==> b.testResults[p] == Get(tests, p, JStr(Tbd))
  {
    TestResultsFromObject(tests);
  }

  /**
   * `extract_coa_batch_data`: without a client, or when the call fails or
   * returns no content, the empty record; otherwise the parsed reply.
   */
  function Extracted(hasClient: bool, llm: string -> Option<string>, loads: string -> Option<Json>,
                     text: string, filename: string): BatchInfo {
    if !hasClient then EmptyBatchInfo(filename)
    else ParsedBatch(llm(Prompt(text)), filename, loads)
  }

  method ExtractCoaBatchData(hasClient: bool, llm: string -> Option<string>, loads: string -> Option<Json>,
                             text: string, filename: string) returns (b: BatchInfo)
    ensures b == Extracted(hasClient, llm, loads, text, filename)
  {
    if !hasClient {
      b := CreateEmptyBatchInfo(filename);
      return;
    }
    var reply := llm(Prompt(text));
    b := ParseBatchResponse(reply, filename, loads);
  }

  /** Extraction never fails: every outcome is a record with the full schema. */
  lemma ExtractionAlwaysFilled(hasClient: bool, llm: string -> Option<string>, loads: string -> Option<Json>,
                               text: string, filename: string)
    ensures SchemaFilled(Extracted(hasClient, llm, loads, text, filename))
    ensures !hasClient || llm(Prompt(text)).None? ==> Extracted(hasClient, llm, loads, text, filename) == EmptyBatchInfo(filename)
  {
    ParsedBatchFilled(llm(Prompt(text)), filename, loads);
  }

  // ----- clean-up of extracted values -----

  /** The three kinds of standard value a whole result can stand for. */
  datatype Standard = NotDetected | ToBeDetermined | Conforming

  /** The word lists of the source, compared against the lower-cased value. */
  const NotDetectedWords: seq<string> := ["not detected", "none detected", "nd"]
  const TbdWords: seq<string> := ["to be determined", "tbd", ""]
  const ConformsWords: seq<string> := ["conforms", "conform"]

  /**
   * The kind of value a stripped result stands for, tried in order: the
   * not-detected words, the to-be-determined words (the empty value among
   * them), then the conformance words, each compared ignoring case.
   */
  function Classify(c: string): Option<Standard> {
    if FoldEquals(c, "not detected") || FoldEquals(c, "none detected") || FoldEquals(c, "nd") then Some(NotDetected)
    else if FoldEquals(c, "to be determined") || FoldEquals(c, "tbd") || FoldEquals(c, "") then Some(ToBeDetermined)
    else if FoldEquals(c, "conforms") || FoldEquals(c, "conform") then Some(Conforming)
    else None
  }

  /** The standard form of a bare "conforms" for parameter `param`. */
  function ConformsFor(param: string): string {
    if IsIdentificationTest(param) then ConformsFull else ConformsShort
  }

  /** The word written for a kind of standard value. */
  function StandardText(param: string, k: Standard): (w: string)
    ensures IsStandard(param, w)
  {
    match k
    case NotDetected => Nd
    case ToBeDetermined => Tbd
    case Conforming => ConformsFor(param)
  }

  /** The words clean-up may produce for parameter `param`. */
  predicate IsStandard(param: string, w: string) {
    w == Nd || w == Tbd || w == ConformsFull || (w == ConformsShort && !IsIdentificationTest(param))
  }

  /** The standard word a value stands for, compared case-insensitively, if any. */
  function StandardWord(param: string, c: string): (r: Option<string>)
    ensures r.Some? ==> IsStandard(param, r.value)
  {
    match Classify(c)
    case Some(k) => Some(StandardText(param, k))
    case None => if FoldContains(c, "conforms to reference") then Some(ConformsFull) else None
  }

  /** The first character upper-cased. */
  function Capitalize(c: string): (r: string)
    ensures |r| == |c|
  {
    if c == [] then [] else [UpperChar(c[0])] + c[1..]
  }

  /**
   * The cleaned form of one string result of parameter `param`: stripped,
   * replaced by the standard word it stands for, and capitalised when it
   * describes appearance unless it is empty, "TBD" or "ND". A stripped value
   * that stands for no standard word is neither "TBD" nor "ND" (those match
   * the "tbd" and "nd" rules), so that branch only checks for emptiness.
   */
  function CleanString(param: string, s: string): string {
    var c := Strip(s);
    match StandardWord(param, c)
    case Some(w) => if param == Appearance && w != Tbd && w != Nd then Capitalize(w) else w
    case None => if param == Appearance && c != [] then Capitalize(c) else c
  }

  function CleanTestValue(param: string, v: Json): Json {
    if v.JStr? then JStr(CleanString(param, v.s)) else v
  }

  function CleanedResults(tr: map<string, Json>): (r: map<string, Json>)
    ensures r.Keys == tr.Keys
    ensures forall k :: k in tr ==> r[k] == CleanTestValue(k, tr[k])
  {
    map k | k in tr :: CleanTestValue(k, tr[k])
  }

  /** The loop over the test results, rewriting each value in place. */
  method CleanTestResults(tr: map<string, Json>) returns (out: map<string, Json>)
    ensures out == CleanedResults(tr)
  {
    out := tr;
    var todo := tr.Keys;
    while todo != {}
      invariant todo <= tr.Keys && out.Keys == tr.Keys
      invariant forall k :: k in tr ==> out[k] == if k in todo then tr[k] else CleanTestValue(k, tr[k])
      decreases |todo|
    {
      var k :| k in todo;
      out := out[k := CleanTestValue(k, tr[k])];
      todo := todo - {k};
    }
    assert out == CleanedResults(tr);
  }

  /** `str(AttributeError)` for a value of the wrong type. */
  function NoAttribute(v: Json, attribute: string): string {
    "'" + TypeName(v) + "' object has no attribute '" + attribute + "'"
  }

  /** A truthy basic field is stripped; a truthy value that is not a string has no `.strip()`. */
  function StripField(v: Json): (r: Result<Json, string>)
    ensures r.Err? <==> Truthy(v) && !v.JStr?
    ensures r.Err? ==> r.error == NoAttribute(v, "strip")
    ensures r.Ok? ==> r.value == if Truthy(v) then JStr(Strip(v.s)) else v
  {
    if !Truthy(v) then Ok(v)
    else if v.JStr? then Ok(JStr(Strip(v.s)))
    else Err(NoAttribute(v, "strip"))
  }

  /** A truthy date has its dots replaced by dashes. */
  function DateField(v: Json): (r: Result<Json, string>)
    ensures r.Err? <==> Truthy(v) && !v.JStr?
    ensures r.Err? ==> r.error == NoAttribute(v, "replace")
    ensures r.Ok? ==> r.value == if Truthy(v) then JStr(ReplaceChar(v.s, '.', "-")) else v
  {
    if !Truthy(v) then Ok(v)
    else if v.JStr? then Ok(JStr(ReplaceChar(v.s, '.', "-")))
    else Err(NoAttribute(v, "replace"))
  }

  /**
   * `validate_batch_data` as a value: the cleaned record, or the error of
   * the first basic field, in the order batch number, date, manufacturer,
   * that is truthy but not a string.
   */
  function ValidatedBatch(b: BatchInfo): (r: Result<BatchInfo, string>)
    ensures r.Err? <==> exists v :: v in [b.batchNumber, b.manufactureDate, b.manufacturer] && Truthy(v) && !v.JStr?
    ensures r.Err? && Truthy(b.batchNumber) && !b.batchNumber.JStr? ==> r.error == NoAttribute(b.batchNumber, "strip")
    ensures r.Err? && !(Truthy(b.batchNumber) && !b.batchNumber.JStr?) ==>
      r.error == if Truthy(b.manufactureDate) && !b.manufactureDate.JStr? then NoAttribute(b.manufactureDate, "replace")
                 else NoAttribute(b.manufacturer, "strip")
    ensures r.Ok? ==>
      && StripField(b.batchNumber) == Ok(r.value.batchNumber)
      && DateField(b.manufactureDate) == Ok(r.value.manufactureDate)
      && StripField(b.manufacturer) == Ok(r.value.manufacturer)
      && r.value.testResults == CleanedResults(b.testResults)
      && r.value.filename == b.filename && r.value.veeva == b.veeva
  {
    match StripField(b.batchNumber)
    case Err(e) => Err(e)
    case Ok(bn) =>
      match DateField(b.manufactureDate)
      case Err(e) => Err(e)
      case Ok(md) =>
        match StripField(b.manufacturer)
        case Err(e) => Err(e)
        case Ok(mf) =>
          Ok(b.(batchNumber := bn, manufactureDate := md, manufacturer := mf,
                testResults := CleanedResults(b.testResults)))
  }

  method ValidateBatchData(b: BatchInfo) returns (r: Result<BatchInfo, string>)
    ensures r == ValidatedBatch(b)
  {
    var bn := StripField(b.batchNumber);
    if bn.Err? {
      return Err(bn.error);
    }
    var md := DateField(b.manufactureDate);
    if md.Err? {
      return Err(md.error);
    }
    var mf := StripField(b.manufacturer);
    if mf.Err? {
      return Err(mf.error);
    }
    var tr := CleanTestResults(b.testResults);
    r := Ok(b.(batchNumber := bn.value, manufactureDate := md.value, manufacturer := mf.value, testResults := tr));
  }

  /**
   * Clean-up keeps the record's file, tag and parameter keys, and leaves every
   * value that is not a string as it was.
   */
  lemma ValidatedBatchKeeps(b: BatchInfo)
    requires ValidatedBatch(b).Ok?
    ensures var r := ValidatedBatch(b).value;
      r.filename == b.filename && r.veeva == b.veeva && r.testResults.Keys == b.testResults.Keys
      && forall k :: k in b.testResults && !b.testResults[k].JStr? ==> r.testResults[k] == b.testResults[k]
  {
  }

  /** The values a cleaned string can take: a standard word, or the stripped input up to case. */
  lemma CleanStringCases(param: string, s: string)
    ensures var r := CleanString(param, s);
      r == Nd || r == Tbd || r == ConformsShort || r == ConformsFull
      || (Lower(r) == Lower(Strip(s)) && |r| == |Strip(s)|)
  {
    var c := Strip(s);
    match StandardWord(param, c)
    case Some(w) => CapitalizeStandard(param, w);
    case None => LowerCapitalize(c);
  }

  lemma LowerCapitalize(c: string)
    ensures Lower(Capitalize(c)) == Lower(c)
  {
    if c != [] {
      assert Lower(Capitalize(c))[0] == LowerChar(UpperChar(c[0])) == Lower(c)[0];
    }
  }

  lemma StripCapitalize(c: string)
    requires Strip(c) == c
    ensures Strip(Capitalize(c)) == Capitalize(c)
  {
    if c != [] {
      assert !IsSpace(c[0]) && !IsSpace(c[|c| - 1]);
      StripUnchanged(Capitalize(c));
    }
  }

  lemma CapitalizeIdempotent(c: string)
    ensures Capitalize(Capitalize(c)) == Capitalize(c)
  {
  }

  lemma FoldEqualsCapitalize(c: string, w: string)
    ensures FoldEquals(Capitalize(c), w) == FoldEquals(c, w)
  {
    if c != [] {
      assert Capitalize(c)[1..] == c[1..];
      assert LowerChar(UpperChar(c[0])) == LowerChar(c[0]);
    }
  }

  lemma FoldStartsWithCapitalize(c: string, w: string)
    ensures FoldStartsWith(Capitalize(c), w) == FoldStartsWith(c, w)
  {
    if c != [] {
      assert Capitalize(c)[1..] == c[1..];
      assert LowerChar(UpperChar(c[0])) == LowerChar(c[0]);
    }
  }

  lemma FoldContainsCapitalize(c: string, w: string)
    ensures FoldContains(Capitalize(c), w) == FoldContains(c, w)
  {
    FoldStartsWithCapitalize(c, w);
    if c != [] {
      assert Capitalize(c)[1..] == c[1..];
    }
  }

  lemma ClassifyCapitalize(c: string)
    ensures Classify(Capitalize(c)) == Classify(c)
  {
    FoldEqualsCapitalize(c, "not detected");
    FoldEqualsCapitalize(c, "none detected");
    FoldEqualsCapitalize(c, "nd");
    FoldEqualsCapitalize(c, "to be determined");
    FoldEqualsCapitalize(c, "tbd");
    FoldEqualsCapitalize(c, "");
    FoldEqualsCapitalize(c, "conforms");
    FoldEqualsCapitalize(c, "conform");
  }

  /** Capitalising does not change which standard word a value stands for. */
  lemma StandardWordCapitalize(param: string, c: string)
    ensures StandardWord(param, Capitalize(c)) == StandardWord(param, c)
  {
    ClassifyCapitalize(c);
    FoldContainsCapitalize(c, "conforms to reference");
  }

  /**
   * The classification is the source's chain of `c.lower() in [...]` tests:
   * each kind is chosen exactly when the lower-cased value is in its list and
   * in none of the lists tried before it.
   */
  lemma ClassifyMeaning(c: string)
    ensures Classify(c) == Some(NotDetected) <==> Lower(c) in NotDetectedWords
    ensures Classify(c) == Some(ToBeDetermined) <==> Lower(c) !in NotDetectedWords && Lower(c) in TbdWords
    ensures Classify(c) == Some(Conforming)
      <==> Lower(c) !in NotDetectedWords && Lower(c) !in TbdWords && Lower(c) in ConformsWords
  {
    FoldEqualsLower(c, "not detected");
    FoldEqualsLower(c, "none detected");
    FoldEqualsLower(c, "nd");
    FoldEqualsLower(c, "to be determined");
    FoldEqualsLower(c, "tbd");
    FoldEqualsLower(c, "");
    FoldEqualsLower(c, "conforms");
    FoldEqualsLower(c, "conform");
  }

  lemma StandardWordOfNd(param: string)
    ensures StandardWord(param, Nd) == Some(Nd)
  {
    assert FoldEquals(Nd, "nd");
  }

  lemma StandardWordOfTbd(param: string)
    ensures StandardWord(param, Tbd) == Some(Tbd)
  {
    assert FoldEquals(Tbd, "tbd");
  }

  lemma StandardWordOfConforms(param: string)
    ensures StandardWord(param, ConformsShort) == Some(ConformsFor(param))
  {
    ClassifyConforms();
  }

  lemma ClassifyConforms()
    ensures Classify(ConformsShort) == Some(Conforming)
  {
    ConformsFolds();
  }

  lemma ConformsFolds()
    ensures FoldEquals(ConformsShort, "conforms")
  {
  }

  /** A value that starts with anything but a lower-case letter is its own capitalisation. */
  lemma CapitalizeUnchanged(w: string)
    requires w != [] && !('a' <= w[0] <= 'z')
    ensures Capitalize(w) == w
  {
    assert [w[0]] + w[1..] == w;
  }

  /** Every standard word starts with a capital letter already. */
  lemma CapitalizeStandard(param: string, w: string)
    requires IsStandard(param, w)
    ensures Capitalize(w) == w
  {
    if w == Nd {
      CapitalizeUnchanged(Nd);
    } else if w == Tbd {
      CapitalizeUnchanged(Tbd);
    } else if w == ConformsShort {
      CapitalizeUnchanged(ConformsShort);
    } else {
      CapitalizeUnchanged(ConformsFull);
    }
  }

  lemma CleanNd(param: string)
    ensures CleanString(param, Nd) == Nd
  {
    StripUnchanged(Nd);
    StandardWordOfNd(param);
  }

  lemma CleanTbd(param: string)
    ensures CleanString(param, Tbd) == Tbd
  {
    StripUnchanged(Tbd);
    StandardWordOfTbd(param);
  }

  lemma CleanConformsShort(param: string)
    requires !IsIdentificationTest(param)
    ensures CleanString(param, ConformsShort) == ConformsShort
  {
    StripUnchanged(ConformsShort);
    StandardWordOfConforms(param);
    CapitalizeUnchanged(ConformsShort);
  }

  /** The full phrase starts with an upper-case letter. */
  lemma ConformsFullHead()
    ensures ConformsFull != [] && ConformsFull[0] == 'C'
  {
  }

  lemma CleanConformsFull(param: string)
    ensures CleanString(param, ConformsFull) == ConformsFull
  {
    assert Strip(ConformsFull) == ConformsFull by { StripUnchanged(ConformsFull); }
    assert Capitalize(ConformsFull) == ConformsFull by {
      ConformsFullHead();
      CapitalizeUnchanged(ConformsFull);
    }
    assert Classify(ConformsFull) == None by { ConformsFullUnlisted(); }
    CleanUnlisted(param, ConformsFull);
  }

  lemma ConformsFullUnlisted()
    ensures Classify(ConformsFull) == None
  {
  }

  /** A stripped, capitalised value on no word list is kept, or replaced by the full conformance phrase. */
  lemma CleanUnlisted(param: string, c: string)
    requires Strip(c) == c && Classify(c) == None && Capitalize(c) == c
    ensures CleanString(param, c) == if FoldContains(c, "conforms to reference") then ConformsFull else c
  {
    CapitalizeUnchanged(ConformsFull);
  }

  /** A stripped value that is no standard word is kept, capitalised when it describes appearance. */
  lemma CleanUnclassified(param: string, c: string)
    requires Strip(c) == c && StandardWord(param, c) == None
    ensures CleanString(param, c) == if param == Appearance && c != [] then Capitalize(c) else c
  {
  }

  /** A standard word is left as it is by clean-up. */
  lemma CleanStandardWord(param: string, w: string)
    requires IsStandard(param, w)
    ensures CleanString(param, w) == w
  {
    if w == Nd {
      CleanNd(param);
    } else if w == Tbd {
      CleanTbd(param);
    } else if w == ConformsShort {
      CleanConformsShort(param);
    } else {
      CleanConformsFull(param);
    }
  }

  /** A value that stands for a standard word is cleaned to that word. */
  lemma CleanClassified(param: string, s: string, w: string)
    requires StandardWord(param, Strip(s)) == Some(w)
    ensures CleanString(param, s) == w
  {
    CapitalizeStandard(param, w);
  }

  /** Cleaning a string twice gives the same as cleaning it once. */
  lemma CleanStringIdempotent(param: string, s: string)
    ensures CleanString(param, CleanString(param, s)) == CleanString(param, s)
  {
    var c := Strip(s);
    var sw := StandardWord(param, c);
    if sw.Some? {
      CleanClassified(param, s, sw.value);
      CleanStandardWord(param, sw.value);
    } else {
      StripIdempotent(s);
      var r := if param == Appearance && c != [] then Capitalize(c) else c;
      assert CleanString(param, s) == r;
      StripCapitalize(c);
      StandardWordCapitalize(param, c);
      assert Strip(r) == r && StandardWord(param, r) == None;
      CleanUnclassified(param, r);
      CapitalizeIdempotent(c);
    }
  }

  lemma StripFieldIdempotent(v: Json)
    requires StripField(v).Ok?
    ensures StripField(StripField(v).value) == StripField(v)
  {
    if Truthy(v) {
      StripIdempotent(v.s);
    }
  }

  lemma DateFieldIdempotent(v: Json)
    requires DateField(v).Ok?
    ensures DateField(DateField(v).value) == DateField(v)
  {
  }

  /** `validate_batch_data` is idempotent: a cleaned record is left as it is. */
  lemma ValidatedBatchIdempotent(b: BatchInfo)
    requires ValidatedBatch(b).Ok?
    ensures ValidatedBatch(ValidatedBatch(b).value) == ValidatedBatch(b)
  {
    var r := ValidatedBatch(b).value;
    StripFieldIdempotent(b.batchNumber);
    DateFieldIdempotent(b.manufactureDate);
    StripFieldIdempotent(b.manufacturer);
    forall k | k in r.testResults
      ensures CleanTestValue(k, r.testResults[k]) == r.testResults[k]
    {
      if b.testResults[k].JStr? {
        CleanStringIdempotent(k, b.testResults[k].s);
      }
    }
    assert CleanedResults(r.testResults) == r.testResults;
  }
}
