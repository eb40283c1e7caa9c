# COA batch-processing backend, modelled in Dafny

This project models the core of a FastAPI service that reads Certificates of
Analysis (COA) for pharmaceutical compounds and extracts per-batch test
results from them. PDFs come from a local upload directory or from a Veeva
Vault. Their text is assembled page by page, a language model reads the
text into a batch record, the values are cleaned, and the record is stored
as extracted-data rows of a COA document. The records of a run are cached
per (compound, template) pair, keyed by file hashes or by a digest of the
Vault ids.

The model has one Dafny module per source file of the core:

- `Models`: the processing status and the rows with their column limits.
- `Config`: the settings validators.
- `Validators`: the field validators.
- `AiExtractor`: prompt truncation, reading the reply and value clean-up.
- `Veeva`: the Vault client with its cached session.
- `PdfProcessor`: text, span and table assembly and the header check.
- `Streams`: in-memory byte streams.
- `Auth`: the key cache, token outcomes, roles and the per-user rate limiter.
- `Deps`: request dependencies and pagination.
- `Compounds`, `Templates` and `Catalog`: the compound and template endpoints over their tables.
- `InitData`: idempotent seeding.
- `FileManager`: file naming and storage over a file system modelled as a map from paths to files and directories, in which every operation resolves the directories above a path as the OS does.
- `Schemas`: the request and response schemas as parsers of decoded JSON.

`app/api/v1/documents.py` is split in four:

- `ResultCache`: the cache table and the file hashes.
- `DocStore`: the document and extracted-data tables.
- `Pipeline`: the per-document processing step and the loops over documents.
- `Endpoints`: the endpoints themselves.

`Wrappers`, `Text`, `Json`, `Http` and `Clock` hold the Python behaviour the
service relies on: `Option`/`Result`, `str` operations, decoded JSON values,
`HTTPException` and `timedelta` arithmetic.

State the source changes in place is modelled by classes with
`modifies` clauses:

- the database tables, with snapshot and restore for `rollback`;
- the cache table;
- the Vault client's session;
- the rate limiters;
- the key cache;
- the file system.

Each method is proved against a function on values, and the properties are
proved as lemmas about those functions.

## Model

| member | source | states |
|---|---|---|
| Models.StatusValue | app/models/document.py:11-15 | every status is stored as a non-empty lower-case value |
| Models.StatusOfValue | app/models/document.py:11-15 | a value that names a member names the member whose value it is |
| Models.StatusValueRoundTrip | app/models/document.py:11-15 | each member reads back from its value, and that value is one of "pending", "processing", "completed", "failed" |
| Models.StatusValuesAllowed | app/models/document.py:11-15 | a string names a member iff it is one of the four allowed values |
| Models.StatusValueInjective | app/models/document.py:11-15 | distinct members have distinct values, so name and value determine each other |
| Models.RegionOfValue | app/models/template.py:11-14 | a region value that names a member names the member whose value it is |
| Models.RegionValueRoundTrip | app/models/template.py:11-14 | each region reads back from its value |
| Models.NewDocument | app/models/document.py:26-33 | a new document row is pending, has no error and no processing time, and keeps the given compound, filename and path |
| Models.TruncateError | app/api/v1/documents.py:1094 | the stored error is a prefix of the message, at most 500 characters, and the whole message when it is short enough |
| Models.FailedStatusFits | app/models/document.py:31 | a row within its column limits stays within them when marked failed with a truncated error |
| Config.ParsePort | app/config.py:79-82 | `int(v)`: an int passes, a bool is 0 or 1, a string passes iff it parses as a decimal (digits perhaps grouped by single underscores) and then gives that number, and any other value is refused with int()'s TypeError text |
| Config.ParsePortGrouped | app/config.py:79-82 | "8_000" is read as the port 8000 |
| Text.ParseIntRefusesEdgeUnderscore | app/config.py:82 | `int()` refuses any unsigned numeral with a leading or a trailing underscore, such as "_8000" or "8000_" |
| Text.ParseIntRefusesDoubledUnderscore | app/config.py:82 | `int()` refuses any unsigned numeral with two underscores in a row, such as "8__000" |
| Config.ParsePortOfDecimal | app/config.py:79-82 | every port written in decimal parses back to itself |
| Config.ParseBoolFlag | app/config.py:84-96 | a bool passes through; a string is on iff its lower-case form is "true", "1" or "yes"; other values fail |
| Config.ParseBoolFlagIgnoresCase | app/config.py:84-96 | an upper-cased flag string reads the same as the original |
| Config.ParseBoolFlagOff | app/config.py:84-96 | any string other than the three true words leaves the flag off |
| Config.ValidateProcessingMode | app/config.py:98-104 | accepted iff the value is exactly "local", "veeva" or "hybrid", and then returned unchanged |
| Config.ProcessingModeIsCaseSensitive | app/config.py:98-104 | "Local" is refused: modes are compared case-sensitively |
| Config.UseAzureOpenAi | app/config.py:46-48 | the Azure client is chosen iff the Azure key is non-empty |
| Config.DatabaseUrl | app/config.py:29-31 | the URL starts with `postgresql://` and ends with `/` and the database name |
| Config.DatabaseUrlRoundTrip | app/config.py:29-31 | the user, password, host, port and name read back from the URL when the separators are unambiguous |
| Validators.ValidateLotNumber | app/utils/validators.py:8-27 | valid iff non-empty, the upper-cased value matches `^[A-Z0-9\-]+$`, and the length is 3 to 50; the empty value gets its own message |
| Validators.LotNumberTrailingNewlineAccepted | app/utils/validators.py:17-18 | the `$` anchor lets one trailing newline through: "ab1\n" is accepted |
| Validators.ValidateStorageCondition | app/utils/validators.py:30-55 | valid iff non-empty and either at least 5 characters long or containing one of the temperature patterns |
| Validators.ShortRangeAccepted | app/utils/validators.py:39-53 | a four-character range such as "2-8C" is accepted because it names a temperature |
| Validators.ShortTextRefused | app/utils/validators.py:39-53 | a four-letter text without a temperature ("cold") is refused with the too-short message |
| Validators.ValidateManufacturer | app/utils/validators.py:58-92 | valid iff the whitespace-collapsed name has 3 to 200 characters; a missing company suffix never refuses |
| Validators.SanitizeFieldValue | app/utils/validators.py:96-118 | a missing or empty value becomes "" |
| Validators.SanitizeCanonical | app/utils/validators.py:103-107 | the result has no whitespace at either end and single spaces inside, for every field type |
| Validators.SanitizeLotUpper | app/utils/validators.py:109-111 | a sanitised lot number holds no lower-case letter |
| Validators.SanitizeStorageShape | app/utils/validators.py:112-116 | a sanitised storage condition has no `℃`/`℉`, only `-` as a dash, and no whitespace beside a dash |
| Validators.SanitizeIdempotent | app/utils/validators.py:96-118 | sanitising a sanitised value returns it unchanged, for every field type |
| Validators.SubDashFixpoint | app/utils/validators.py:116 | text that is already dash-tight is left unchanged by the dash rewrite |
| Validators.SubDashShape | app/utils/validators.py:116 | on collapsed text the dash rewrite yields collapsed, dash-tight text |
| Validators.ValidatePdfFilename | app/utils/validators.py:121-141 | valid iff non-empty, ending in ".pdf" in any case, free of `<>:"\|?*`, and at most 255 characters |
| Validators.UpperCaseSuffixAccepted | app/utils/validators.py:129 | the suffix test ignores case: a clean stem with ".PDF" is accepted |
| AiExtractor.TestParametersDistinct | app/services/ai_extractor.py:41-71 | the schema lists 24 distinct test parameters |
| AiExtractor.EmptyBatchInfoShape | app/services/ai_extractor.py:254-268 | the empty record names the file, has three empty basic fields, no vault tag, and exactly the 24 parameters, each "TBD" |
| AiExtractor.CreateEmptyBatchInfo | app/services/ai_extractor.py:254-268 | the loop that fills the empty record builds exactly `EmptyBatchInfo` |
| AiExtractor.GetTestParameters | app/services/ai_extractor.py:270-272 | the returned list has 24 entries, exactly the keys of every empty record |
| AiExtractor.TruncateForPrompt | app/services/ai_extractor.py:155-159 | text of at most 8000 characters is unchanged; longer text becomes its first 8000 characters followed by "..." |
| AiExtractor.Prompt | app/services/ai_extractor.py:161-164 | the user message is the fixed instruction followed by the truncated text |
| AiExtractor.PromptIgnoresTail | app/services/ai_extractor.py:156-158 | two long texts that agree on their first 8000 characters give the same prompt |
| AiExtractor.JsonCandidate | app/services/ai_extractor.py:193-197 | with a `{` before a `}` the candidate runs from the first `{` to the last `}`; otherwise it is the whole reply |
| AiExtractor.JsonCandidateMatch | app/services/ai_extractor.py:193 | the pattern `\{.*\}` matches iff the first `{` comes before the last `}` |
| AiExtractor.GreedySpanJoinsObjects | app/services/ai_extractor.py:193 | the match is greedy: "{} {}" is handed to the parser whole |
| AiExtractor.TestResultsFromObject | app/services/ai_extractor.py:208-216 | from an object of results, exactly the schema keys are read, each value copied when present and "TBD" otherwise |
| AiExtractor.TestResultsFromScalar | app/services/ai_extractor.py:209-212 | a `test_results` that is null, a number or a bool makes the membership test raise |
| AiExtractor.FillResults | app/services/ai_extractor.py:211-216 | the parameter loop computes exactly `ResultsFor` |
| AiExtractor.FillTestResults | app/services/ai_extractor.py:209-216 | the test-results loop computes exactly `TestResultsFrom` |
| AiExtractor.ParseBatchResponse | app/services/ai_extractor.py:189-252 | the parse computes exactly `ParsedBatch`, including the fall-back to the empty record on every failure |
| AiExtractor.ParsedBatchFilled | app/services/ai_extractor.py:189-252 | whatever the reply, the record names the file and reports exactly the schema's parameters |
| AiExtractor.ParsedBatchOfObject | app/services/ai_extractor.py:199-216 | a reply that parses to an object gives its basic fields ("" when missing) and per parameter its value or "TBD"; extra keys are dropped |
| AiExtractor.ExtractCoaBatchData | app/services/ai_extractor.py:133-151 | extraction computes exactly `Extracted` |
| AiExtractor.ExtractionAlwaysFilled | app/services/ai_extractor.py:133-151 | extraction never fails: every outcome has the full schema, and without a client or a reply it is the empty record |
| AiExtractor.StandardText | app/services/ai_extractor.py:296-307 | every standard word is one clean-up may produce for the parameter |
| AiExtractor.StandardWord | app/services/ai_extractor.py:296-307 | a value that stands for a word stands for a standard one |
| AiExtractor.ClassifyMeaning | app/services/ai_extractor.py:296-305 | each kind is chosen exactly when the lower-cased value is in its list and in none of the lists tried before it |
| AiExtractor.CleanedResults | app/services/ai_extractor.py:290-314 | clean-up keeps exactly the keys of the test results, and each value becomes the cleaned form of that parameter's value |
| AiExtractor.CleanTestResults | app/services/ai_extractor.py:290-314 | the rewrite loop computes exactly `CleanedResults` |
| AiExtractor.ValidateBatchData | app/services/ai_extractor.py:274-316 | the method computes exactly `ValidatedBatch` |
| AiExtractor.ValidatedBatch | app/services/ai_extractor.py:274-316 | fails iff a basic field is truthy and not a string, with the AttributeError text of the first such field in source order; on success the batch number and manufacturer are their stripped values, the date its dashed value, the test results their cleaned map, and the file and vault tag are kept |
| AiExtractor.StripField | app/services/ai_extractor.py:277-278 | fails iff the value is truthy and not a string, with "'<type>' object has no attribute 'strip'"; otherwise a truthy string is stripped and a falsy value kept |
| AiExtractor.DateField | app/services/ai_extractor.py:281-283 | fails iff the value is truthy and not a string, with "'<type>' object has no attribute 'replace'"; otherwise a truthy string has every dot replaced by a dash and a falsy value is kept |
| AiExtractor.ValidatedBatchKeeps | app/services/ai_extractor.py:289-316 | clean-up keeps the file, the vault tag and the parameter keys, and leaves every non-string value as it was |
| AiExtractor.CleanStringCases | app/services/ai_extractor.py:292-312 | a cleaned string is "ND", "TBD", "Conforms", the full phrase, or the stripped input up to the case of its first letter |
| AiExtractor.CleanStandardWord | app/services/ai_extractor.py:296-312 | clean-up leaves every standard word as it is |
| AiExtractor.CleanClassified | app/services/ai_extractor.py:296-307 | a value that stands for a standard word is cleaned to that word |
| AiExtractor.CleanUnclassified | app/services/ai_extractor.py:306-312 | a stripped value that stands for no word is kept, capitalised when it describes appearance |
| AiExtractor.CleanNd | app/services/ai_extractor.py:296-297 | "ND" cleans to itself |
| AiExtractor.CleanTbd | app/services/ai_extractor.py:298-299 | "TBD" cleans to itself |
| AiExtractor.CleanConformsShort | app/services/ai_extractor.py:300-305 | "Conforms" stays short for parameters that are not identification tests |
| AiExtractor.CleanConformsFull | app/services/ai_extractor.py:306-307 | the full conformance phrase cleans to itself |
| AiExtractor.CleanStringIdempotent | app/services/ai_extractor.py:292-314 | cleaning a string twice gives the same as cleaning it once |
| AiExtractor.StripFieldIdempotent | app/services/ai_extractor.py:277-287 | stripping a basic field twice gives the same as once |
| AiExtractor.DateFieldIdempotent | app/services/ai_extractor.py:281-283 | replacing the date's dots by dashes twice gives the same as once |
| AiExtractor.ValidatedBatchIdempotent | app/services/ai_extractor.py:274-316 | `validate_batch_data` is idempotent: a cleaned record is left as it is |
| Veeva.NoSessionNeverValid | app/services/veeva_service.py:55-58 | a client without session fields has no valid session at any time |
| Veeva.FreshSessionValidity | app/services/veeva_service.py:55-62 | a session that expires 20 minutes after `t` is valid exactly until 15 minutes after `t` |
| Veeva.FirstErrorMessage | app/services/veeva_service.py:105 | a body without `errors` reads "Unknown error"; an empty `errors` list raises |
| Veeva.FailureOf | app/services/veeva_service.py:104-106 | an unsuccessful body raises the Vault error unless its error list is empty |
| Veeva.AuthStep | app/services/veeva_service.py:64-110 | a valid session returns its id with no request; success stores the id and an expiry 20 minutes ahead; a failure leaves the session as it was |
| Veeva.AuthenticatedSessionValid | app/services/veeva_service.py:91-95 | a fresh authentication that yields an id makes the session valid for the next 15 minutes |
| Veeva.AuthenticateReusesSession | app/services/veeva_service.py:69-72 | within those 15 minutes a second call returns the same id and keeps the session, whatever the Vault would reply |
| Veeva.SearchStep | app/services/veeva_service.py:112-146 | searching authenticates first, and an authentication failure is the search's failure |
| Veeva.FirstRow | app/services/veeva_service.py:163-167 | the first query row when there is one, otherwise the not-found error |
| Veeva.MetadataStep | app/services/veeva_service.py:148-167 | the lookup succeeds iff the search succeeds with at least one row |
| Veeva.Enrich | app/services/veeva_service.py:222-223 | the metadata gains `downloaded_size` and `download_timestamp` and keeps every other key |
| Veeva.DownloadStep | app/services/veeva_service.py:169-231 | a successful download had a PDF body and a found row; the stream holds all chunk bytes at position 0 and the size is the sum of the chunk lengths |
| Veeva.MissingIdRefused | app/services/veeva_service.py:185-187 | a row without an internal id is refused before any download |
| Veeva.ItemOf | app/services/veeva_service.py:252-285 | an entry names its document, succeeds iff the download returned, carries the stream and metadata exactly then, and otherwise the error text |
| Veeva.BatchSpecShape | app/services/veeva_service.py:248-295 | one entry per document, in input order, each succeeding iff it has a stream and no error |
| Veeva.BatchContinuesAfterFailure | app/services/veeva_service.py:265-285 | a failed document is recorded and the remaining documents are still attempted |
| Veeva.ProgressCalls | app/services/veeva_service.py:287-289 | the `n` callback calls are numbered 1 to `n`, each with the total and its document number |
| Veeva.VeevaService.Authenticate | app/services/veeva_service.py:64-110 | the session fields and the result follow `AuthStep` |
| Veeva.VeevaService.SearchDocuments | app/services/veeva_service.py:112-146 | the session fields and the result follow `SearchStep` |
| Veeva.VeevaService.GetDocumentMetadataByNumber | app/services/veeva_service.py:148-167 | the session fields and the result follow `MetadataStep` |
| Veeva.VeevaService.DownloadDocumentAsStream | app/services/veeva_service.py:169-231 | the session fields and the result follow `DownloadStep` |
| Veeva.VeevaService.BatchDownloadDocuments | app/services/veeva_service.py:233-295 | the results follow `BatchSpec`; the callback runs once per document, numbered from 1; the pause comes between documents only |
| Veeva.VeevaService.Close | app/services/veeva_service.py:297-305 | both session fields are cleared, so no session is valid afterwards |
| Veeva.VeevaService.TestConnection | app/services/veeva_service.py:315-327 | true exactly when `authenticate` returns; the session is left as `authenticate` leaves it |
| Veeva.WriteChunks | app/services/veeva_service.py:211-220 | the stream holds the chunks' bytes in order and the size is the sum of their lengths |
| PdfProcessor.Open | app/services/pdf_processor.py:27-45 | a path goes to the parser as is, a `BytesIO` as all its bytes; unsupported source types are refused |
| PdfProcessor.ReadPages | app/services/pdf_processor.py:13 | only the first min(page count, 10) pages are read (also app/services/pdf_processor.py:50) |
| PdfProcessor.Kept | app/services/pdf_processor.py:50-54 | every contribution carries the 1-based number and text of a page whose text is not blank |
| PdfProcessor.KeptIff | app/services/pdf_processor.py:52-54 | a page contributes iff its text has non-whitespace content |
| PdfProcessor.KeptInOrder | app/services/pdf_processor.py:50-54 | contributions appear in increasing page order |
| PdfProcessor.RenderAll | app/services/pdf_processor.py:54 | each contribution is rendered as "--- Page n ---" and a newline before its text |
| PdfProcessor.ExtractTextResult | app/services/pdf_processor.py:15-64 | the text fails iff the document cannot be opened, and then with "Failed to extract text from PDF: " and the cause |
| PdfProcessor.NoTextIsEmpty | app/services/pdf_processor.py:47-56 | a document none of whose first ten pages has text yields "" rather than an error |
| PdfProcessor.PagesBeyondLimitIgnored | app/services/pdf_processor.py:50 | pages after the tenth never change the text |
| PdfProcessor.SinglePageText | app/services/pdf_processor.py:54-56 | a one-page document with text yields that page under its header |
| PdfProcessor.KeptStep | app/services/pdf_processor.py:50-54 | one more page read adds that page's rendering iff its text is not blank |
| PdfProcessor.ExtractText | app/services/pdf_processor.py:15-64 | the page loop computes `ExtractTextResult`, and the document is closed on every path on which it was opened |
| PdfProcessor.ExtractTextFromStream | app/services/pdf_processor.py:66-77 | the same as `extract_text` on the stream; it succeeds iff the parser accepts the stream's bytes |
| PdfProcessor.SpanEntries | app/services/pdf_processor.py:109-116 | one entry per span, each tagged with the page |
| PdfProcessor.BlockEntries | app/services/pdf_processor.py:106-108 | a block that is not a text block (type 0) adds no entries |
| PdfProcessor.PageEntries | app/services/pdf_processor.py:102-116 | every entry carries a 1-based page number within the pages read |
| PdfProcessor.NonTextBlocksIgnored | app/services/pdf_processor.py:107 | a page without text blocks adds no entries |
| PdfProcessor.LineEntriesCount | app/services/pdf_processor.py:108-116 | a text block adds exactly as many entries as it has spans |
| PdfProcessor.PositionsResult | app/services/pdf_processor.py:79-125 | fails iff the document cannot be opened; otherwise every entry's page is between 1 and 10 |
| PdfProcessor.ExtractTextWithPositions | app/services/pdf_processor.py:79-125 | the page loop computes `PositionsResult` |
| PdfProcessor.AppendBlocks | app/services/pdf_processor.py:106-116 | the block loop appends exactly the page's entries |
| PdfProcessor.AppendBlock | app/services/pdf_processor.py:107-116 | one block appends its span entries if it is a text block and nothing otherwise |
| PdfProcessor.AppendLines | app/services/pdf_processor.py:108-116 | the line loop appends exactly the block's span entries |
| PdfProcessor.AppendSpans | app/services/pdf_processor.py:109-116 | the span loop appends one entry per span, in order |
| PdfProcessor.CleanRow | app/services/pdf_processor.py:157 | a cell becomes "" iff it is `None` or empty, and keeps its text otherwise |
| PdfProcessor.CleanTable | app/services/pdf_processor.py:155-157 | one cleaned row per row |
| PdfProcessor.PageTables | app/services/pdf_processor.py:154-160 | no table without rows is kept |
| PdfProcessor.TablesResult | app/services/pdf_processor.py:127-169 | any failure gives no tables; every table returned has rows |
| PdfProcessor.PageTablesCount | app/services/pdf_processor.py:154-160 | a page yields exactly as many tables as it has tables with rows |
| PdfProcessor.ExtractTables | app/services/pdf_processor.py:127-169 | the page loop computes `TablesResult` |
| PdfProcessor.AppendPageTables | app/services/pdf_processor.py:154-160 | the table loop appends exactly the page's non-empty cleaned tables |
| PdfProcessor.CleanRows | app/services/pdf_processor.py:155-157 | the row loop computes the cleaned table |
| PdfProcessor.ValidatePdfStream | app/services/pdf_processor.py:171-202 | valid iff the first five bytes are `%PDF-` and the parser accepts the bytes; the stream is left at position 0 |
| PdfProcessor.NoHeaderRefused | app/services/pdf_processor.py:187-189 | a stream without the `%PDF-` header is refused whatever the parser would say |
| Auth.KeysStep | app/auth/middleware.py:38-68 | fresh cached keys are served without a fetch; a stale or empty cache is refilled for one hour from a successful fetch; a failed fetch leaves the cache as it was and fails iff no keys were ever cached |
| Auth.RefreshedKeysServedForAnHour | app/auth/middleware.py:45-57 | after a refresh, every lookup within the hour returns the same keys whatever the network would say |
| Auth.StaleKeysServedOnFailure | app/auth/middleware.py:62-67 | when the fetch fails, expired keys still in the cache are served |
| Auth.FirstStop | app/auth/middleware.py:72-74 | where the loop stops: the first entry that is not an object or whose `kid` matches; every entry before it is an object with another `kid` |
| Auth.ScanKeys | app/auth/middleware.py:72-75 | over a list: raises iff an entry that is not an object comes before every match, with the `AttributeError` text for that entry; nothing iff every entry is an object with another `kid`; otherwise the first match |
| Auth.FindKeyByKid | app/auth/middleware.py:70-75 | raises iff `"keys"` is a list with a non-object entry before every match, a non-empty dict or string, or not iterable; finds nothing iff it is a list of objects none of which matches, an empty dict or an empty string; a key found is an entry of the list with that `kid` |
| Auth.LookupErrorMessages | app/auth/middleware.py:72-74 | the error texts: "'T' object is not iterable" for a `"keys"` value that cannot be iterated, "'str' object has no attribute 'get'" for a dict or a string, and the type of the first non-object entry for a list |
| Auth.NonObjectEntryRefused | app/auth/middleware.py:72-74 | `{"keys": [x, {"kid": k}]}` with `x` not an object raises on `x`, although a matching key follows |
| Auth.VerifyStep | app/auth/middleware.py:77-127 | a payload is returned only when the token decodes, the keys are available and the lookup finds a key with the token's `kid`, and it is the decoded payload; a header without a `kid` is refused with the wrapped "Token missing 'kid' in header" and the cache untouched |
| Auth.MalformedKeysRefuseToken | app/auth/middleware.py:77-127 | a key document whose first entry is not an object refuses the token with "Token verification failed: " and the `AttributeError` text, even when a matching key follows (also app/auth/middleware.py:72-74) |
| Auth.KeyCache.GetMicrosoftPublicKeys | app/auth/middleware.py:38-68 | updates the module cache as `KeysStep` says and returns its answer |
| Auth.KeyCache.VerifyJwtToken | app/auth/middleware.py:77-127 | updates the cache and answers as `VerifyStep` says |
| Auth.Or | app/auth/middleware.py:132 | Python `a or b`: `a` when it is truthy, else `b` (also app/auth/middleware.py:134) |
| Auth.UserIdFallsBackToOid | app/auth/middleware.py:132 | a user without a truthy `sub` takes its id from `oid` |
| Auth.UserOfSubjectOnly | app/auth/middleware.py:131-139 | a payload with only `sub` gives empty name and email and no roles or groups |
| Auth.HasAnyRole | app/auth/middleware.py:145-147 | no wanted roles means false |
| Auth.HasAnyRoleOfList | app/auth/middleware.py:145-147 | with a list of roles, true iff some wanted role is held |
| Auth.AdminRolesMatchedExactly | app/auth/middleware.py:267-270 | "ADMIN" does not grant admin access: the match is case-sensitive |
| Auth.AdminRoleGrants | app/auth/middleware.py:267-270 | holding any of the four admin role names grants admin access |
| Auth.RequireAdmin | app/auth/middleware.py:201-210 | the user passes iff the admin check holds; otherwise 403 "Administrator privileges required" |
| Auth.RequireRoles | app/auth/middleware.py:189-199 | the user passes iff some required role is held; an empty requirement always gives 403 |
| Auth.RequireAuthentication | app/auth/middleware.py:167-187 | a user iff credentials are present and the token verifies, built from the payload; otherwise 401 with a bearer challenge, whose detail is the verification error when there were credentials |
| Auth.OptionalMatchesRequired | app/auth/middleware.py:153-165 | the optional and current-user dependencies agree, and give a user exactly when required authentication would (also app/auth/middleware.py:212-223) |
| Auth.AuthResponseHeaders | app/auth/middleware.py:252-258 | exactly the three headers; each truthy claim is carried as it is, a missing or empty one becomes "" |
| Auth.RateLimiter.IsAllowed | app/auth/middleware.py:277-296 | prunes the user's history to the window, allows iff fewer than `limit` remain, records the request only when allowed, and keeps every history within the limit |
| Auth.CheckRateLimit | app/auth/middleware.py:301-308 | the user passes iff fewer than `limit` of their requests remain in the hour, otherwise 429 "Rate limit exceeded"; their history becomes the pruned one, plus this request when it passes; a bounded limiter stays bounded |
| Deps.GetCurrentUser | app/api/deps.py:30-56 | there is never a current user, whatever the credentials |
| Deps.RequireAuth | app/api/deps.py:59-71 | passes iff a non-empty user is given; otherwise 401 "Authentication required" with a bearer challenge |
| Deps.RequireAuthAlwaysRefuses | app/api/deps.py:30-71 | every request to a route that requires authentication is refused with 401 |
| Deps.VerifyApiKey | app/api/deps.py:83-100 | in debug mode every key passes; otherwise refused with 401 "Invalid API key" iff a non-empty key other than the expected one is given; a key that passes is returned unchanged |
| Deps.MissingKeyPasses | app/api/deps.py:94 | a missing or empty key is accepted outside debug mode |
| Deps.GetPaginationParams | app/api/deps.py:143-162 | accepted iff skip >= 0 and 1 <= limit <= 1000, unchanged; a negative skip is reported before a bad limit |
| Deps.RateLimiter.Call | app/api/deps.py:112-135 | prunes the id's history to the period, passes iff fewer than `calls` remain, records the request only when it passes, leaves every other id's history alone and keeps every history within `calls` |
| Deps.CheckPermissions | app/api/deps.py:197-219 | passes, with true, iff a non-empty user is given; otherwise 401 |
| Deps.PermissionCheckersRefuse | app/api/deps.py:190-219 | every permission checker refuses with 401, whatever the permissions asked for |
| Clock.TimedeltaSeconds | app/auth/middleware.py:287 | `timedelta.seconds` of a difference of instants is always in [0, 86400) (also app/api/deps.py:126) |
| Clock.TimedeltaSecondsWithinDay | app/auth/middleware.py:287 | for a non-negative difference under a day it is the whole number of elapsed seconds |
| Clock.TimedeltaSecondsIgnoresDays | app/auth/middleware.py:287 | adding a whole day to the difference does not change it (also app/api/deps.py:126) |
| Clock.Prune | app/auth/middleware.py:284-288 | exactly the recorded instants whose `timedelta.seconds` to now is under the window are kept, and nothing else (also app/api/deps.py:123-127) |
| Clock.PruneIdempotent | app/auth/middleware.py:284-288 | pruning twice at the same instant is pruning once (also app/api/deps.py:123-127) |
| Clock.DayOldRequestKept | app/auth/middleware.py:287 | a request exactly one day old is kept in any positive window, as written (also app/api/deps.py:126) |
| Compounds.GetCompounds | app/api/v1/compounds.py:36-79 | succeeds iff the database works and skip and limit are non-negative: the total is the table size and the data the window of at most `limit` rows starting at `skip`, fewer only at the end; otherwise the fallback reply fails the response model and the answer is 500 |
| Compounds.FallbackRowRefused | app/api/v1/compounds.py:65-79 | the fallback row's id "test-compound-1" cannot be a UUID, so `CompoundListResponse` refuses the reply (also app/schemas/compound.py:24) |
| Compounds.TotalIgnoresPaging | app/api/v1/compounds.py:50-51 | the total does not depend on skip and limit |
| Compounds.ConsecutivePages | app/api/v1/compounds.py:50 | two consecutive pages of `limit` rows are the page of `2 * limit` rows |
| Compounds.GetCompound | app/api/v1/compounds.py:126-138 | found iff a compound has that id, and then it is one with that id; otherwise 404 naming the id |
| Compounds.GetCompoundFindsTheRow | app/api/v1/compounds.py:132 | with unique ids, looking up a stored compound's id returns that compound |
| Compounds.CreateCompoundStep | app/api/v1/compounds.py:140-159 | refused with 400 iff the code is already used, leaving the table alone; otherwise the new compound is appended and returned |
| Compounds.CreateKeepsUnique | app/api/v1/compounds.py:140-159 | creation keeps ids and codes unique, and the new compound can be looked up by its id |
| Compounds.CreateTwiceRefused | app/api/v1/compounds.py:147-152 | creating the same code a second time is refused and changes nothing |
| Compounds.CreateCompound | app/api/v1/compounds.py:140-159 | updates the compounds table as `CreateCompoundStep` says, leaves templates alone and keeps the database valid |
| Compounds.InitializeDefaultsStep | app/api/v1/compounds.py:162-187 | afterwards every default code is present; existing rows are kept in front and at most three are added; the reply is the added rows, or the whole table when none was added |
| Compounds.InitializeTwiceCreatesNothing | app/api/v1/compounds.py:184-187 | a second initialisation adds nothing and returns the whole table |
| Compounds.InitializeKeepsValid | app/api/v1/compounds.py:170-180 | initialisation with fresh ids keeps the database valid |
| Compounds.InitializeDefaultCompounds | app/api/v1/compounds.py:162-187 | the loop updates the compounds table as `InitializeDefaultsStep` says and leaves templates alone |
| Templates.OfCompound | app/api/v1/templates.py:28-29 | exactly the templates of the compound, and no more of them than there are templates |
| Templates.GetTemplates | app/api/v1/templates.py:18-38 | succeeds iff skip and limit are non-negative (otherwise 500); the total counts the selected templates and the page is the window of the selected templates starting at `skip`: at most `limit` of them, fewer only at the end, all of the filter's compound |
| Templates.UnfilteredTotal | app/api/v1/templates.py:27-32 | without a compound filter the total is the table size |
| Templates.OfCompoundOfItsOwn | app/api/v1/templates.py:28-29 | filtering a list of one compound's templates by that compound keeps them all |
| Templates.OfCompoundAtMostThree | app/models/template.py:11-14 | with one template per compound and region, a compound has at most three templates (also app/api/v1/templates.py:60-71) |
| Templates.DistinctRegionsBound | app/models/template.py:11-14 | one template per region means at most three, counting those already seen (also app/api/v1/templates.py:60-71) |
| Templates.OfCompoundUnique | app/api/v1/templates.py:28-29 | the filtered list keeps the compound-and-region uniqueness |
| Templates.GetTemplate | app/api/v1/templates.py:40-52 | found iff a template has that id, and then it is one with that id; otherwise 404 naming the id |
| Templates.CreateTemplateStep | app/api/v1/templates.py:55-78 | created iff the compound exists and no template has its compound and region; a duplicate is refused with 400 naming both; the only other refusal is the 500 of the missing compound's foreign key; refusals change nothing |
| Templates.CreateTemplateKeepsValid | app/api/v1/templates.py:55-78 | creation with a fresh id keeps the database valid |
| Templates.CreateTemplate | app/api/v1/templates.py:55-78 | updates the templates table as `CreateTemplateStep` says and keeps the database valid |
| Templates.Assignments | app/api/v1/templates.py:96 | exactly the fields set in the request are assigned, at most two |
| Templates.UpdatedDraft | app/api/v1/templates.py:96-98 | assigning the set fields replaces exactly those and keeps the others |
| Templates.UpdateTemplateStep | app/api/v1/templates.py:81-103 | 404 iff no template has the id; otherwise that template alone is replaced, keeping its id, compound and region; the only other failure is the 500 of setting the content to null, which changes nothing |
| Templates.EmptyUpdateChangesNothing | app/api/v1/templates.py:96-98 | an update that sets nothing leaves the table as it was |
| Templates.UpdateTemplateKeepsValid | app/api/v1/templates.py:81-103 | an update keeps the database valid |
| Templates.UpdateTemplate | app/api/v1/templates.py:81-103 | updates the templates table as `UpdateTemplateStep` says and leaves compounds alone |
| Templates.DeleteTemplateStep | app/api/v1/templates.py:106-122 | 404 iff no template has the id, changing nothing; otherwise exactly one row with that id is removed |
| Templates.DeleteRemovesExactly | app/api/v1/templates.py:106-122 | with unique ids, after deletion the table holds exactly the other templates |
| Templates.DeleteTemplate | app/api/v1/templates.py:106-122 | updates the templates table as `DeleteTemplateStep` says and leaves compounds alone |
| Catalog.CompoundById | app/api/v1/compounds.py:132 | the position of a compound with that id, or none iff no compound has it |
| Catalog.CompoundByCode | app/api/v1/compounds.py:147 | the position of a compound with that code, or none iff no compound has it (also app/init_data.py:43) |
| Catalog.TemplateById | app/api/v1/templates.py:47 | the position of a template with that id, or none iff no template has it |
| Catalog.TemplateFor | app/api/v1/templates.py:62-65 | the position of a template of that compound and region, or none iff there is none (also app/init_data.py:102-105) |
| Catalog.Window | app/api/v1/compounds.py:50 | `offset(skip).limit(limit)`: defined iff both are non-negative; at most `limit` rows, exactly `limit` when enough rows follow `skip`, each the row at `skip` plus its position (also app/api/v1/templates.py:31) |
| Catalog.WindowsTile | app/api/v1/compounds.py:50 | the window of `a` rows followed by the next window of `b` rows is the window of `a + b` rows |
| Catalog.FirstPageOfAll | app/api/v1/compounds.py:50 | a window from 0 as long as the table is the whole table |
| Catalog.ReferencesSurviveGrowth | app/models/template.py:21 | adding compounds never breaks a template's reference to its compound |
| Catalog.SeedCompounds | app/init_data.py:41-54 | for seeds with distinct codes, the table only grows, by the inserted rows, at most one per seed and each with one of the given ids; each seed resolves to a row of the table holding its code (also app/api/v1/compounds.py:170-175) |
| Catalog.NothingToSeed | app/init_data.py:43-50 | when every seed's code is present, nothing is inserted |
| Catalog.SeedsPresent | app/init_data.py:41-54 | afterwards every seed's code is in the table |
| Catalog.FirstHolderStays | app/init_data.py:43 | adding rows does not change which row a present code is found at |
| Catalog.ResolvedIsFirstMatch | app/init_data.py:48-50 | a seed whose code was already present resolves to the existing row |
| Catalog.SeedingIdempotent | app/init_data.py:41-54 | seeding a second time inserts nothing and leaves the table as it was |
| Catalog.FoundByUniqueCode | app/models/compound.py:14 | with unique codes, looking up a stored compound's code finds that compound |
| Catalog.ReseedingResolvesAlike | app/init_data.py:41-54 | seeding again resolves every seed to the same rows as the first seeding |
| Catalog.AppendKeepsUnique | app/models/compound.py:13-14 | appending a compound with a new code and id keeps codes and ids unique |
| Catalog.SeedingKeepsUnique | app/models/compound.py:13-14 | seeding with fresh ids keeps codes and ids unique (also app/init_data.py:41-54) |
| Catalog.SeedLoop | app/init_data.py:41-54 | the loop looks each code up in the committed table, as the session without autoflush does, and still changes the compounds table and returns what `SeedCompounds` says, leaving templates alone (also app/api/v1/compounds.py:170-175) |
| Catalog.OtherCodesUnseen | app/database.py:27 | rows added for codes other than the one looked up do not change what the lookup finds |
| Catalog.PendingRowsUnseen | app/init_data.py:41-43 | with distinct codes, looking a seed's code up in the table grown by the earlier seeds finds the same row as in the committed table |
| Catalog.SeedUnfold | app/init_data.py:42-50 | one more seed either resolves to the present row or appends a new one |
| InitData.RegionsComplete | app/models/template.py:11-14 | iterating `RegionEnum` visits every region (also app/init_data.py:101) |
| InitData.SeedRegions | app/init_data.py:101-122 | existing templates are kept in front; afterwards the compound has a template for every region; every added one is a default template of that compound |
| InitData.CoversOneMore | app/init_data.py:101-107 | a region covered by the step extends the coverage of the earlier regions |
| InitData.SeedRegionsUnfold | app/init_data.py:102-118 | one more region adds a default template iff the compound has none for it yet |
| InitData.FoundInExtension | app/init_data.py:102-105 | a template found before more are added is still found |
| InitData.SeedTemplates | app/init_data.py:100-124 | existing templates are kept in front; afterwards every compound has a template for every region; every added one is a default template of one of the compounds |
| InitData.HasCompoundInPrefix | app/init_data.py:100 | a compound of the processed prefix is one of the compounds |
| InitData.SeedTemplatesUnfold | app/init_data.py:100-101 | one more compound seeds its regions on top of what the earlier ones left |
| InitData.CompoundsCoveredOneMore | app/init_data.py:100-122 | coverage of the earlier compounds plus the new one is coverage of all |
| InitData.CoversInExtension | app/init_data.py:102-105 | coverage survives adding templates |
| InitData.NoRegionToSeed | app/init_data.py:107 | a compound already covered gets no template (also app/init_data.py:121-122) |
| InitData.NothingToSeedTemplates | app/init_data.py:100-124 | when every compound is covered nothing is added |
| InitData.SeedTemplatesIdempotent | app/init_data.py:100-124 | seeding templates a second time changes nothing |
| InitData.SeedRegionsKeepsOnePerRegion | app/init_data.py:101-118 | seeding one compound keeps at most one template per compound and region |
| InitData.SeedTemplatesKeepsOnePerRegion | app/init_data.py:100-124 | seeding keeps at most one template per compound and region |
| InitData.CreateDefaultCompounds | app/init_data.py:21-54 | the loop changes the compounds table as `SeedCompounds` says for the three script defaults and returns each default's row |
| InitData.CreateCompoundTemplates | app/init_data.py:101-122 | the inner loop changes the templates table as `SeedRegions` says |
| InitData.CreateDefaultTemplates | app/init_data.py:57-124 | the loops change the templates table as `SeedTemplates` says with the regional contents and the default field mapping |
| InitData.SeedDatabaseStep | app/init_data.py:127-152 | success iff nothing fails; a compound failure leaves both tables alone; a template failure leaves templates alone but keeps the committed compounds; otherwise every default code is present; rows are only ever added |
| InitData.RerunAfterTemplateFailure | app/init_data.py:53 | running again after a template failure ends where a clean run would (also app/init_data.py:146-149) |
| InitData.SeedDatabase | app/init_data.py:127-152 | changes both tables and answers as `SeedDatabaseStep` says |
| FileManager.RFind | app/services/file_manager.py:22 | the last position of the character, or -1 iff it does not occur |
| FileManager.Extension | app/services/file_manager.py:22 | `os.path.splitext(p)[1]`: empty or a dot followed by no other dot, with no slash, so within the last path component |
| FileManager.ExtensionIsSuffix | app/services/file_manager.py:22 | the extension is a suffix of the path |
| FileManager.ExtensionOfName | app/services/file_manager.py:22 | a name `stem.ext` has extension `.ext` |
| FileManager.NoExtensionAfterLeadingDots | app/services/file_manager.py:22 | leading dots do not start an extension: `.bashrc` has none |
| FileManager.JoinPath | app/services/file_manager.py:30 | `os.path.join`: an absolute second part replaces the first; otherwise a `/` is put between them unless the first already ends in one (also app/services/file_manager.py:35) |
| FileManager.Basename | app/services/file_manager.py:35 | the last path component, without any `/` |
| FileManager.BasenameOfJoin | app/services/file_manager.py:35 | joining a name onto a directory and taking the last component gives the name back |
| FileManager.Padded | app/services/file_manager.py:21 | a zero-padded decimal of the given width that reads back as the number |
| FileManager.FieldsRoundTrip | app/services/file_manager.py:21 | three zero-padded fields read back as the numbers written |
| FileManager.Stamp | app/services/file_manager.py:21 | `%Y%m%d_%H%M%S`: fifteen characters, eight digits, `_`, six digits |
| FileManager.StampRoundTrip | app/services/file_manager.py:21 | the stamp reads back as the date and time it was made from |
| FileManager.GenerateFilename | app/services/file_manager.py:19-25 | starts with the compound id and `_`, ends with the original's extension, and has the length of its four parts and two separators |
| FileManager.GeneratedNameParts | app/services/file_manager.py:21-25 | the stamp and the first eight characters of the UUID can be read back from the name |
| FileManager.GeneratedNamesDiffer | app/services/file_manager.py:23-25 | two UUIDs with different first eight characters give different names |
| FileManager.GeneratedNameKeepsExtension | app/services/file_manager.py:22-25 | the generated name keeps the uploaded file's `.ext` |
| FileManager.Split | app/services/file_manager.py:31 | `os.path.split`: the head is empty, the root, or a path not ending in `/` that is shorter than what precedes the tail; a path not ending in `/` has a non-empty tail (also app/services/file_manager.py:17) |
| FileManager.SplitParts | app/services/file_manager.py:31 | the head of `os.path.split` is a prefix of the path and the tail a slash-free suffix |
| FileManager.ParentError | app/services/file_manager.py:38-40 | resolving a path's directory fails iff that directory is neither the working directory nor an existing directory; the error, on the path, is `ENOTDIR` or `ENOENT` |
| FileManager.MkDir | app/services/file_manager.py:31 | `os.mkdir`: succeeds iff the path is non-empty, its directory resolves and nothing has its name; every error names the path |
| FileManager.MakeDirsGrows | app/services/file_manager.py:31 | `os.makedirs(exist_ok=True)` on any tree keeps every existing entry as it was, adds only directories, at the name or an ancestor it walks, reports errors only about those paths, and without an error leaves the name a directory (also app/services/file_manager.py:17) |
| FileManager.MakeDirsKeeps | app/services/file_manager.py:31 | `os.makedirs` leaves every existing entry as it was |
| FileManager.MakeDirsAdds | app/services/file_manager.py:31 | `os.makedirs` adds only directories, at the name or at an ancestor it walks |
| FileManager.MakeDirsReports | app/services/file_manager.py:31 | without an error the name is a directory; an error names the name or an ancestor |
| FileManager.MakeDirsOutcome | app/services/file_manager.py:31 | on a tree the OS could hold, `os.makedirs` fails iff a file stands at the name or at an ancestor, and then changes nothing: `FileExistsError` iff the file is at the name, `NotADirectoryError` otherwise; on success the name and all its ancestors are directories and the tree stays one the OS could hold (also app/services/file_manager.py:17) |
| FileManager.GroundedDir | app/services/file_manager.py:31 | in a tree the OS could hold, nothing blocks an existing directory and all its ancestors are directories |
| FileManager.DirsAfterMakeDirs | app/services/file_manager.py:31 | after a successful `os.makedirs`, the directories are exactly the old ones, the name and its ancestors |
| FileManager.MakeDirsKeys | app/services/file_manager.py:31 | after a successful `os.makedirs`, the paths are exactly the old ones, the name and its ancestors |
| FileManager.WriteStep | app/services/file_manager.py:38-40 | `open(path, 'wb')`: succeeds iff the path is non-empty, its directory exists and it is not a directory; then the path holds exactly the content and nothing else changes; otherwise `IsADirectoryError`, or `ENOTDIR`/`ENOENT` from the directory, each naming the path |
| FileManager.UploadPath | app/services/file_manager.py:30-35 | the file path is longer than the compound directory, so it is never that directory |
| FileManager.SaveUploadStep | app/services/file_manager.py:27-42 | a success returns the generated path, which holds exactly the content; every other existing path keeps what it held, whether or not the save succeeds |
| FileManager.SaveUploadOutcome | app/services/file_manager.py:27-42 | on a tree the OS could hold, the save succeeds iff no file blocks the compound directory, the file's own directory is a directory after `os.makedirs`, and no directory has the file's name; a blocked compound directory raises what `os.makedirs` raised and changes nothing (`FileExistsError` for a file at the directory itself); every later error names the file's path |
| FileManager.SaveUploadEffect | app/services/file_manager.py:27-42 | after a successful save the paths are the old ones, the file, the compound directory and its ancestors, and the new ones besides the file are directories; the compound directory stays even when the write fails |
| FileManager.SaveUploadAdds | app/services/file_manager.py:27-42 | making the compound directory and writing the file adds exactly the file, the directory and its ancestors, the new ones besides the file as directories |
| FileManager.DirnameOfJoin | app/services/file_manager.py:35 | a slash-free name joined onto a directory lives in that directory |
| FileManager.PlainIdSaved | app/services/file_manager.py:27-42 | a compound id without a slash is saved, and its path returned, whenever no file blocks the compound directory and no directory has the file's name |
| FileManager.ParentErrorBelow | app/services/file_manager.py:38-40 | below an existing directory with nothing in it, a path whose own directory lies further down cannot be opened: `ENOENT` |
| FileManager.NestedIdNotSaved | app/services/file_manager.py:30-40 | a compound id `top/rest` creates the nested directory, but the generated name repeats the slash, so the write goes one level further down and fails with `FileNotFoundError` on the file's path |
| FileManager.DeleteStep | app/services/file_manager.py:44-53 | true iff the path is a file, which is then removed; a directory or a missing path gives false and changes nothing |
| FileManager.GetFileInfo | app/services/file_manager.py:55-66 | none iff the path does not exist; otherwise its path, its size and its change and modification times |
| FileManager.SaveThenInspectAndDelete | app/services/file_manager.py:27-66 | a saved upload is reported with its size and time, can be deleted, and is then gone |
| FileManager.DeleteTwice | app/services/file_manager.py:44-53 | deleting again reports false and changes nothing |
| FileManager.SavedInCompoundDirectory | app/services/file_manager.py:30-35 | the upload is saved directly inside the compound directory under the generated name |
| FileManager.JoinUnderCompound | app/services/file_manager.py:35 | joining a plain name onto the compound directory puts it directly inside |
| FileManager.FileSystem.MakeDirs | app/services/file_manager.py:17 | changes the tree and answers as `MakeDirsStep` says, first calling itself on a missing head (also app/services/file_manager.py:31) |
| FileManager.FileSystem.Write | app/services/file_manager.py:38-40 | changes the tree and answers as `WriteStep` says |
| FileManager.Store.constructor | app/services/file_manager.py:11-17 | the tree becomes what `os.makedirs` of the upload directory makes of it |
| FileManager.Store.SaveUpload | app/services/file_manager.py:27-42 | changes the tree and answers as `SaveUploadStep` says with the formatted current time |
| FileManager.Store.DeleteFile | app/services/file_manager.py:44-53 | changes the tree and answers as `DeleteStep` says |
| Streams.ConcatLength | app/services/veeva_service.py:215-218 | the bytes written are as many as the chunk lengths add up to, so `downloaded_size` is the stream's length |
| Streams.ConcatSnoc | app/services/veeva_service.py:216-217 | writing one more chunk appends exactly its bytes |
| Streams.Seek | app/services/pdf_processor.py:183 | moves the position and leaves the bytes alone (also app/services/pdf_processor.py:185) |
| Streams.Read | app/services/pdf_processor.py:184 | at most `n` bytes: exactly the next `n` when there are that many, the rest of the stream with the position moved to its end when fewer remain, none and no move at the end; the bytes are unchanged |
| Streams.Append | app/services/veeva_service.py:217 | a write at the end appends the bytes and leaves the position at the new end |
| ResultCache.Count | app/api/v1/documents.py:108-128 | the rows an UPDATE or DELETE on the key reports: none iff no row holds the key (also app/api/v1/documents.py:159-167) |
| ResultCache.CountAtMostOne | app/api/v1/documents.py:65 | under `UNIQUE(compound_id, template_id)` a key is held by at most one row |
| ResultCache.Find | app/api/v1/documents.py:79-86 | the position of a row holding the key, or none iff no row holds it |
| ResultCache.Lookup | app/api/v1/documents.py:76-98 | a record iff the query works and some row holds the key, and then it is that row's record; a failing query gives none (the transaction it leaves aborted is carried by the endpoints' runs) |
| ResultCache.LookupUnique | app/api/v1/documents.py:76-98 | with unique keys, looking up a stored row's key returns that row's record |
| ResultCache.UpdateRows | app/api/v1/documents.py:108-125 | the UPDATE refreshes every row holding the key and leaves the others |
| ResultCache.TouchRows | app/api/v1/documents.py:108-125 | the rows after the UPDATE are exactly `UpdateRows` of the table, and the count it reports is the number of rows holding the key |
| ResultCache.UpsertedEntry | app/api/v1/documents.py:100-150 | after the upsert the key has exactly one row, holding the new records, hashes, files and time with `total_files` the number of records, and keys stay unique |
| ResultCache.UpsertIsolated | app/api/v1/documents.py:100-150 | the upsert never changes another key's entry |
| ResultCache.Without | app/api/v1/documents.py:159-165 | the DELETE keeps exactly the rows not holding the key, and removes as many rows as it reports |
| ResultCache.DeleteEffect | app/api/v1/documents.py:156-171 | after the delete the key has no entry, every other key keeps its entry, and the count reported is at most one |
| ResultCache.WithoutKeepsUnique | app/api/v1/documents.py:156-171 | deleting keeps keys unique |
| ResultCache.Latest | app/api/v1/documents.py:680 | `MAX(updated_at)`: none iff the table is empty, otherwise a row's time no earlier than any other |
| ResultCache.WholeSeconds | app/api/v1/documents.py:183 | `int(st_mtime)` truncates toward zero, also for times before 1970 |
| ResultCache.CalculateFileHashes | app/api/v1/documents.py:174-187 | the loop computes the fingerprint: the hashes collected up to the first failing `stat`, sorted |
| ResultCache.FingerprintSorted | app/api/v1/documents.py:187 | the fingerprint is ascending and is a permutation of the collected hashes |
| ResultCache.FingerprintOrderFree | app/api/v1/documents.py:178-187 | when every `stat` succeeds, the listing order does not change the fingerprint |
| ResultCache.HashesPermuted | app/api/v1/documents.py:179-184 | permuting a listing permutes its hashes |
| ResultCache.SameSecondSameHash | app/api/v1/documents.py:183 | a file rewritten within the same second at the same size keeps its hash, so the change goes unnoticed |
| ResultCache.CheckCacheOf | app/api/v1/documents.py:606-632 | fresh iff an entry is found and its hashes are the current ones as sets; missing iff no entry is found; changed otherwise |
| ResultCache.FreshAfterWrite | app/api/v1/documents.py:100-150 | an entry written from a listing is fresh for that listing and any reordering of it (also app/api/v1/documents.py:606-626) |
| ResultCache.CacheTable.constructor | app/api/v1/documents.py:51-66 | a new table is empty |
| ResultCache.CacheTable.UpdateCacheRecord | app/api/v1/documents.py:100-154 | true iff no database error; on error the table is rolled back, otherwise it is the upserted table |
| ResultCache.CacheTable.DeleteCacheRecord | app/api/v1/documents.py:156-171 | on error 0 and nothing removed; otherwise the rows holding the key are removed and their number returned |
| ResultCache.CacheTable.CacheStatus | app/api/v1/documents.py:676-719 | the count, the latest time and the sum of `total_files` (null on an empty table), or zero records when the query fails |
| DocStore.IndexOfId | app/api/v1/documents.py:1088 | the position of the document with the id, or none iff no document has it |
| DocStore.Kept | app/api/v1/documents.py:284-293 | a basic field is written iff its value is truthy, once, with confidence 0.95 |
| DocStore.TestFieldsValues | app/api/v1/documents.py:296-306 | every test row written carries a result of that parameter that is truthy and not "TBD", with confidence 0.90 |
| DocStore.Rows | app/api/v1/documents.py:286-306 | one extracted row per field written |
| DocStore.FirstRefusal | app/api/v1/documents.py:308-309 | none iff the driver accepts every value; otherwise the error of a value it refuses |
| DocStore.RowsOf | app/api/v1/documents.py:293-309 | the flush writes all the rows iff the driver accepts every value |
| DocStore.RowsAppend | app/api/v1/documents.py:284-306 | the rows of two field lists are the rows of the first followed by those of the second |
| DocStore.RebuildFrom | app/api/v1/documents.py:1212-1220 | reading back rows never changes the record's file name |
| DocStore.RebuildAppend | app/api/v1/documents.py:1212-1220 | reading back `a + b` is reading back `a`, then `b` |
| DocStore.RebuildOfConcat | app/api/v1/documents.py:1212-1220 | the same for the rows written from two field lists |
| DocStore.RebuildKept | app/api/v1/documents.py:284-293 | a basic field reads back as its text iff it was written (also app/api/v1/documents.py:1212-1218) |
| DocStore.RebuildTests | app/api/v1/documents.py:296-306 | reading back the test rows adds exactly the persisted results, with their texts (also app/api/v1/documents.py:1219-1220) |
| DocStore.RebuildOfWritten | app/api/v1/documents.py:272-306 | the rows written for a processed record read back as the record's summary: basic fields as their texts or "", and the persisted test results (also app/api/v1/documents.py:1204-1222) |
| DocStore.RebuildOfWrittenFor | app/api/v1/documents.py:272-306 | the same for any parameter list not using a basic field's name (also app/api/v1/documents.py:1204-1222) |
| DocStore.RebuildBasic | app/api/v1/documents.py:1204-1218 | reading back the basic rows sets the three fields to their texts and leaves the results empty |
| DocStore.BasicNamesNotParameters | app/services/ai_extractor.py:41-71 | no test parameter is named like a basic field, so no result is read back as one (also app/api/v1/documents.py:1213-1220) |
| DocStore.TextRecordAdapted | app/api/v1/documents.py:284-306 | a driver that writes strings as they are accepts a record of strings |
| DocStore.StoredTextResults | app/api/v1/documents.py:296-306 | with such a driver, the stored results of a record of strings are its results other than "" and "TBD" |
| DocStore.RebuildOfTextRecord | app/api/v1/documents.py:272-306 | a record of strings reads back as its own strings, less the results that are still "TBD" or empty (also app/api/v1/documents.py:1204-1222) |
| DocStore.RowsFor | app/api/v1/documents.py:1198-1200 | exactly the rows of the document, in the order they are kept |
| DocStore.RowsForFresh | app/api/v1/documents.py:1198-1200 | a new document's rows are exactly those written for it |
| DocStore.WrittenReadsBack | app/api/v1/documents.py:272-306 | after other documents' rows, a document's written rows read back into its summary (also app/api/v1/documents.py:1196-1222) |
| DocStore.RowsForNone | app/api/v1/documents.py:1198-1202 | a document without rows has none to read back |
| DocStore.CompletedDocs | app/api/v1/documents.py:1183-1186 | exactly the compound's documents whose status is completed |
| DocStore.WithRows | app/api/v1/documents.py:1196-1201 | the documents kept are exactly those with at least one stored row |
| DocStore.Records | app/api/v1/documents.py:1194-1222 | the i-th record is rebuilt from the rows of the i-th document that has rows, so there is one per such document and no other |
| DocStore.RecordsComplete | app/api/v1/documents.py:1194-1222 | every document with rows has its rebuilt record among the records, and every record is some document's |
| DocStore.BatchAnalysis | app/api/v1/documents.py:1176-1239 | 404 "No processed documents found for compound ..." iff the compound has no completed document; otherwise every record is rebuilt from the rows of one of its completed documents, every completed document with rows has its record, and there are as many records as such documents |
| DocStore.Database.Restore | app/api/v1/documents.py:1074-1076 | a rollback restores the snapshot |
| DocStore.Database.AddDocument | app/api/v1/documents.py:1002-1003 | the insert succeeds iff every value fits its column, appending the document; otherwise nothing changes and the driver's "value too long" error is returned |
| DocStore.Database.UpdateDocument | app/api/v1/documents.py:1022-1023 | the update succeeds iff every value fits, replacing that document alone; otherwise nothing changes (also app/api/v1/documents.py:1091-1094) |
| DocStore.Database.AddFields | app/api/v1/documents.py:1037-1062 | all the rows are appended iff the driver accepts every value; otherwise nothing changes and the first refusal is returned |
| DocStore.Database.GetBatchAnalysisData | app/api/v1/documents.py:1176-1239 | answers as `BatchAnalysis` says on the current tables: exactly one record per completed document with rows |
| DocStore.ReadBack | app/api/v1/documents.py:1212-1220 | the loop computes `Rebuild` |
| Pipeline.Hundredths | app/api/v1/documents.py:998 | the size in KiB to the nearest hundredth, ties to the even neighbour (also app/api/v1/documents.py:245) |
| Pipeline.KbLabel | app/api/v1/documents.py:998 | `f"{n / 1024:.2f} KB"`: ends in " KB" and starts with a minus sign iff the size is negative (also app/api/v1/documents.py:245) |
| Pipeline.KbLabelRounding | app/api/v1/documents.py:998 | 1536 bytes is "1.50 KB"; 128 and 384 bytes round to the even hundredth; -1 byte is "-0.00 KB" |
| Pipeline.SizeLabel | app/api/v1/documents.py:245 | the label is produced iff the downloaded size is an integer or a bool; a number is labelled as such, anything else raises |
| Pipeline.Started | app/api/v1/documents.py:994-1000 | the new row has the minted id, status `processing` and no error message (also app/api/v1/documents.py:241-247) |
| Pipeline.FailureLostAsWritten | app/api/v1/documents.py:1074-1098 | as written, a newly created document is never marked failed and its failure leaves the tables unchanged; the corrected handler leaves a failed row with its id and the truncated message (also app/api/v1/documents.py:324-343) |
| Pipeline.RecordFailureFits | app/api/v1/documents.py:1094 | the corrected failure record changes no field row, adds one document, and fits every column, the message within 500 characters (also app/api/v1/documents.py:339) |
| Pipeline.Analysed | app/api/v1/documents.py:1007-1019 | an extraction error is reported as such; blank text fails with "No text content found in PDF"; a record is named after the file and holds every schema parameter (also app/api/v1/documents.py:254-266) |
| Pipeline.Analyse | app/api/v1/documents.py:1007-1019 | computes `Analysed` |
| Pipeline.Run | app/api/v1/documents.py:971-1100 | a loop over the items yields one outcome per item (also app/api/v1/documents.py:441-482) |
| Pipeline.RunAborted | app/api/v1/documents.py:971-1081 | a loop started in an aborted transaction also yields one outcome per item; the first item that reaches the database is refused and its rollback ends the abort (also app/api/v1/documents.py:441-482) |
| Pipeline.RunFrom | app/api/v1/documents.py:971-1100 | a loop started in an aborted or a working transaction yields one outcome per item (also app/api/v1/documents.py:441-482) |
| Pipeline.AbortedLocalRunFailsFirst | app/api/v1/documents.py:976-1081 | in an aborted transaction the nested transaction of the first PDF is refused: that file fails under its name with the database's refusal, the tables stay as they were, and the other files run as in a working transaction |
| Pipeline.VeevaAbortedAgrees | app/api/v1/documents.py:441-482 | in an aborted transaction, a document that fails before the database (download or compound id) fails exactly as in a working one and leaves the tables alone; one that reaches the duplicate query makes the same download and fails with the refusal (also app/api/v1/documents.py:224-229, app/api/v1/documents.py:324-350) |
| Pipeline.AbortedVeevaRunFirst | app/api/v1/documents.py:441-482 | in an aborted transaction the first document either fails before the database and the rest still run aborted, or is refused and the rest run as in a working transaction, the tables unchanged by it (also app/api/v1/documents.py:224-229, app/api/v1/documents.py:324-326) |
| Pipeline.FailureFirst | app/api/v1/documents.py:1074-1081 | a failure ahead of a run adds its entry at the front of the failed list and changes neither processed list (also app/api/v1/documents.py:463-467) |
| Pipeline.Zip | app/api/v1/documents.py:971 | pairs each file with what is minted for it |
| Pipeline.Zip3 | app/api/v1/documents.py:441 | pairs each id with its Vault replies and what is minted for it |
| Pipeline.Batches | app/api/v1/documents.py:1065 | `batch_data_list` holds at most one record per document (also app/api/v1/documents.py:458) |
| Pipeline.ProcessedNames | app/api/v1/documents.py:1066 | `processed_files` holds at most one name per document (also app/api/v1/documents.py:459) |
| Pipeline.FailedEntries | app/api/v1/documents.py:1081 | `failed_files` holds at most one entry per document (also app/api/v1/documents.py:463-482) |
| Pipeline.OneOutcomeEach | app/api/v1/documents.py:971-1100 | every document is either processed (both lists, kept parallel, record named after the file), failed, or skipped: the three counts add up to the number of documents (also app/api/v1/documents.py:441-482) |
| Pipeline.ProcessEffect | app/api/v1/documents.py:1002-1098 | from the flushed row on, the tables change only by the completed row and exactly its fields, or, on a failure, only as the failure handler as written does on the rolled-back tables; a Vault record is tagged with its id and version, and a failure names the file and the id (also app/api/v1/documents.py:249-343) |
| Pipeline.LocalStepEffect | app/api/v1/documents.py:976-1100 | a local file is skipped iff the compound id parses and a document of that name exists under it; every outcome changes the tables as stated, and names the file |
| Pipeline.FailedFileRetried | app/api/v1/documents.py:976-1100 | a file that fails under a new id leaves the tables as they were, so a second run over them does not skip it |
| Pipeline.VeevaStepEffect | app/api/v1/documents.py:441-482 | a Vault document changes the tables as stated; a processed record is tagged with its document id; a failure names the document id |
| Pipeline.StreamStepEffect | app/api/v1/documents.py:195-356 | `process_veeva_document_stream` changes the tables as stated and tags the record with the document id and version |
| Pipeline.SettledReadsBack | app/api/v1/documents.py:1022-1062 | a processed document's row is completed and its record reads back as the summary of the record saved (also app/api/v1/documents.py:1176-1222) |
| Pipeline.SettledOk | app/api/v1/documents.py:1022-1062 | a successful settlement completed the row and wrote exactly the wanted fields' rows |
| Pipeline.SettledInAnalysis | app/api/v1/documents.py:1176-1222 | after a document with at least one field to write is processed, `get_batch_analysis_data` for its compound answers and holds the summary of the record saved (also app/api/v1/documents.py:1022-1062) |
| Pipeline.RunNamed | app/api/v1/documents.py:1065-1066 | a loop whose every step names its record after its file keeps the processed lists aligned |
| Pipeline.LocalRunNamed | app/api/v1/documents.py:1065-1066 | every local outcome names its record after its file |
| Pipeline.VeevaRunNamed | app/api/v1/documents.py:458-459 | every Vault outcome names its record after its file |
| Pipeline.RunFromNamed | app/api/v1/documents.py:1065-1066 | the same for a loop started in an aborted transaction, whose refusals process nothing (also app/api/v1/documents.py:458-459) |
| Pipeline.MarkFailed | app/api/v1/documents.py:1083-1095 | the corrected failure handler: the failed row is recorded on the rolled-back tables |
| Pipeline.MarkFailedAsWritten | app/api/v1/documents.py:1083-1098 | the failure handler as written: on the rolled-back tables the row is looked up by id and marked failed only if found and fitting (also app/api/v1/documents.py:331-343) |
| Pipeline.Settle | app/api/v1/documents.py:1022-1098 | changes the tables and answers as `Settled` says: completion with the fields' rows, or rollback followed by the as-written failure handler, which for a new document leaves no row |
| Pipeline.ProcessRow | app/api/v1/documents.py:1005-1098 | changes the tables and answers as `Process` says, with the as-written failure handler |
| Pipeline.ProcessLocalFile | app/api/v1/documents.py:976-1100 | one iteration of the local loop changes the tables as `LocalStep` says; a failed new file leaves no row |
| Pipeline.ProcessVeevaStream | app/api/v1/documents.py:195-356 | changes the tables as `StreamStep` says; after `db.rollback()` a failed new document leaves no row (also app/api/v1/documents.py:324-343) |
| Pipeline.ProcessVeevaDocument | app/api/v1/documents.py:442-482 | the download then the stream: changes the tables and the Vault session as `VeevaStep` says, failures running the as-written handler |
| Pipeline.ProcessVeevaDocumentAborted | app/api/v1/documents.py:442-482 | the same iteration in an aborted transaction: a failed download or compound id fails as usual and the transaction stays aborted; otherwise the refused duplicate query fails the document under its file name and the rollback ends the abort (also app/api/v1/documents.py:224-229, app/api/v1/documents.py:324-350) |
| Pipeline.LocalStepperSteps | app/api/v1/documents.py:971-1100 | the local stepper is the local step |
| Pipeline.VeevaStepperSteps | app/api/v1/documents.py:441-482 | the Vault stepper is the Vault step |
| Pipeline.LocalAbortAborts | app/api/v1/documents.py:976-981 | the local refusal function is the refusal of the nested transaction |
| Pipeline.VeevaAbortAborts | app/api/v1/documents.py:224-229 | the Vault refusal function is the refusal of the duplicate query |
| Pipeline.LocalTurn | app/api/v1/documents.py:971-1100 | one local iteration keeps the loop's account of the run; after it the transaction is never aborted, since a refused file is rolled back |
| Pipeline.VeevaTurn | app/api/v1/documents.py:441-482 | one Vault iteration keeps the loop's account of the run; the transaction stays aborted only if it was and the document did not reach the database |
| Pipeline.RunFromAdvance | app/api/v1/documents.py:971-1100 | one turn of a loop that follows `RunFrom` adds that item's outcome, the refusal when aborted and the item reaches the database, and leaves the rest to run from the new state, still aborted only if no item reached it (also app/api/v1/documents.py:441-482) |
| Pipeline.Collect | app/api/v1/documents.py:1065-1081 | a processed document goes to both processed lists, a failure to the failed list, a skip nowhere (also app/api/v1/documents.py:457-482) |
| Pipeline.ProcessLocalFiles | app/api/v1/documents.py:967-1100 | the loop, started in an aborted or a working transaction, leaves the tables as the run over the files does and fills the three lists from its outcomes, in order |
| Pipeline.ProcessVeevaDocuments | app/api/v1/documents.py:434-482 | the loop, started in an aborted or a working transaction, leaves the tables and the session as the run over the ids does and fills the three lists from its outcomes, in order |
| Schemas.StrField | app/schemas/document.py:45-46 | a `str` field accepts exactly a string under its key, and gives it back |
| Schemas.OptStrField | app/schemas/document.py:47 | an `Optional[str]` field is `None` iff absent or null, carries a given string, and refuses anything other than a string or null |
| Schemas.BoolValue | app/schemas/document.py:48 | a boolean passes as itself; only booleans, integers and strings can be read as one |
| Schemas.OptBoolField | app/schemas/document.py:48 | `force_reprocess` is accepted iff absent, null or a lax boolean; it defaults to false, null gives `None` and a boolean passes as itself (also app/schemas/document.py:69, app/schemas/document.py:100) |
| Schemas.Strings | app/schemas/document.py:64-68 | a list of strings, item by item |
| Schemas.ParseDirectoryRequest | app/schemas/document.py:43-58 | a request is accepted iff every key is a declared field and each field has a value of its type; it then carries the given ids, path and flag, or their defaults |
| Schemas.DirectoryRequestMinimal | app/schemas/document.py:43-48 | the two ids alone make a request with no path and reprocessing off |
| Schemas.DirectoryRequestForbidsExtra | app/schemas/document.py:49-50 | an undeclared key is refused |
| Schemas.DocumentIdsField | app/schemas/document.py:64-68 | accepted iff a non-empty list of strings is given, and then gives those strings in order |
| Schemas.ParseVeevaRequest | app/schemas/document.py:60-81 | a request is accepted iff only declared keys appear, both ids are strings, the document ids a non-empty list of strings and the flag a boolean; it then carries the given compound id, template id, document ids in order and flag |
| Schemas.VeevaRequestNeedsIds | app/schemas/document.py:64-68 | an empty id list is refused |
| Schemas.VeevaRequestDefaultForce | app/schemas/document.py:69 | reprocessing is off when not given |
| Schemas.SourceField | app/schemas/document.py:87-91 | accepted iff absent or one of `local`, `veeva` and `auto`; a given source is carried, `auto` when absent |
| Schemas.OptIdsField | app/schemas/document.py:92-95 | accepted iff absent, null or a list of strings; `None` iff absent or null, else those strings in order |
| Schemas.ParseHybridRequest | app/schemas/document.py:83-110 | a request is accepted iff only declared keys appear and each field has a value of its type; it then carries the given ids, source, document ids, path and flag, or their defaults |
| Schemas.HybridRequestDefaultSource | app/schemas/document.py:87-100 | the two ids alone make an `auto` request with no ids, no path and reprocessing off |
| Schemas.ApplyExtractedDataUpdate | app/schemas/extracted_data.py:7-23 | the bounds of `ExtractedDataUpdate` (no route applies it): an update within them leaves a valid record valid, with its field name and document |
| Schemas.PipelineConfidencesValid | app/schemas/extracted_data.py:11 | every row the pipeline writes for a processed record has a confidence the `ExtractedData` schema accepts, in [0, 1] (also app/api/v1/documents.py:290, app/api/v1/documents.py:303) |
| Schemas.ParseApiResponse | app/schemas/extracted_data.py:49-53 | accepted iff `success` is present and a boolean, `data` is absent, null or an object, and `error` and `message` are absent, null or strings; the fields then carry the given values, a null or absent one as none |
| Schemas.DumpApiResponse | app/schemas/extracted_data.py:49-53 | the dump has exactly the four fields |
| Schemas.ApiResponseRoundTrip | app/schemas/extracted_data.py:49-53 | a response whose `data` is an object or none parses back from its dump unchanged |
| Schemas.ParseProcessingResult | app/schemas/extracted_data.py:38-46 | `success` is true when absent; the id is taken from `document_id`, or from `documentId` when that is absent, and is accepted only when it parses as a UUID, which it then is |
| Schemas.CompoundCreateFits | app/schemas/compound.py:7-13 | a valid create request makes a row that fits the table's columns (also app/models/compound.py:14-15) |
| Schemas.ApplyCompoundUpdate | app/schemas/compound.py:17-20 | the bounds of `CompoundUpdate` (no route applies it): an update within them keeps a fitting row fitting and keeps its id; an empty update changes nothing |
| Schemas.NewListResponse | app/schemas/compound.py:36-40 | `success` defaults to true and the message to none (also app/schemas/template.py:37-41) |
| Schemas.ParseRegion | app/models/template.py:11-14 | a region is accepted iff it is the string `CN`, `EU` or `US` (also app/schemas/template.py:10) |
| Endpoints.RunReplyAccounts | app/api/v1/documents.py:1147-1159 | the reply accounts for every document: processed names and records are parallel and name the same files, processed plus failed plus skipped is the number of documents, and the status is `success` iff something was processed (also app/api/v1/documents.py:516-528) |
| Endpoints.Pdfs | app/api/v1/documents.py:905 | the PDFs are exactly the listed entries whose name ends in `.pdf`, and there are no more of them than entries |
| Endpoints.DirectoryResult | app/api/v1/documents.py:876-1171 | 404 iff the directory holds no PDF; answered from the cache iff not forced and the cached hashes equal the directory's as a set; a refusal or a cache hit changes neither the tables nor the cache; otherwise the PDFs are run, in an aborted transaction when the unforced lookup failed (`Endpoints.LookupFaultFailsFirstPdf`) |
| Endpoints.DirectoryRun | app/api/v1/documents.py:971-1159 | a run always answers, never from the cache and without a `source`; its tables are those of the loop, started in an aborted transaction after a failed lookup, where a failed new file leaves no row |
| Endpoints.ProcessDirectory | app/api/v1/documents.py:876-1171 | the endpoint leaves the tables and the cache as `DirectoryResult` says and answers with its reply |
| Endpoints.RunDirectory | app/api/v1/documents.py:971-1159 | the loop and the cache write leave the tables and the cache as `DirectoryRun` says |
| Endpoints.DirectoryCacheWritten | app/api/v1/documents.py:1102-1117 | after a local run keys stay unique; with no record or a failed write the cache is unchanged, otherwise the entry holds exactly the run's records, names and the directory's hashes, stamped now |
| Endpoints.DirectoryRunAccounts | app/api/v1/documents.py:971-1159 | `totalFiles` is the number of PDFs, each is processed, failed or skipped, `cacheUpdated` says whether a record came out, and the cache then holds that run's records |
| Endpoints.LookupFaultFailsFirstPdf | app/api/v1/documents.py:76-98 | after a failed lookup on an unforced request, which is not rolled back, the first PDF's nested transaction is refused: it fails with the refusal and no row, and the reply, the tables and the cache are those of the other PDFs run as usual with that failure first (also app/api/v1/documents.py:976-981, app/api/v1/documents.py:1074-1081) |
| Endpoints.LookupFaultSinglePdf | app/api/v1/documents.py:76-98 | with one new PDF, a failed lookup gives a `failed` reply whose one failed entry is that PDF with the refusal; no row is created and the cache is not written (also app/api/v1/documents.py:976-981, app/api/v1/documents.py:1074-1081) |
| Endpoints.DirectoryRerunHits | app/api/v1/documents.py:913-939 | after a run has written the cache, an unforced request for the same key over the same files in any order is answered from the cache with that run's records and changes nothing (also app/api/v1/documents.py:1102-1117) |
| Endpoints.VaultResult | app/api/v1/documents.py:360-540 | 503 iff the integration is off; from the cache iff enabled, not forced, caching on and the key among the cached hashes; 503 "Failed to connect" iff otherwise the connection test fails to authenticate; refusals and hits change nothing; every answer carries source `veeva`; otherwise the ids are run, in an aborted transaction when the unforced lookup with caching on failed (`Endpoints.LookupFaultSingleDocument`) |
| Endpoints.VaultRun | app/api/v1/documents.py:441-528 | a run on a connected session always answers, never from the cache, with source `veeva`; its tables are those of the loop, started in an aborted transaction after a failed lookup, where a failed new id leaves no row |
| Endpoints.ProcessFromVeeva | app/api/v1/documents.py:360-540 | the endpoint leaves the tables and the cache as `VaultResult` says and answers with its reply |
| Endpoints.RunOnVault | app/api/v1/documents.py:441-528 | the loop over the ids, the close and the cache write leave the tables and the cache as `VaultRun` says |
| Endpoints.VaultCacheWritten | app/api/v1/documents.py:487-500 | after a Vault run keys stay unique; unless caching is on, a record came out and the write succeeds the cache is unchanged, otherwise the entry holds the run's records and names under the run's key as its one hash |
| Endpoints.VaultRunAccounts | app/api/v1/documents.py:441-528 | `totalFiles` is the number of ids, each id is processed, failed or skipped, and the cache then holds that run's records |
| Endpoints.LookupFaultSingleDocument | app/api/v1/documents.py:76-98 | with caching on, after a failed lookup on an unforced request, one requested document that downloads and whose compound id parses fails under its file name with the refusal of the duplicate query; nothing is processed, no row is created and the cache is not written (also app/api/v1/documents.py:224-229, app/api/v1/documents.py:324-350) |
| Endpoints.VaultRerunHits | app/api/v1/documents.py:394-420 | after a Vault run has written the cache, an unforced request for the same key naming the same ids in any order is answered from the cache without connecting, and changes nothing (also app/api/v1/documents.py:487-500) |
| Endpoints.VaultArguments | app/api/v1/documents.py:567-572 | the Vault request's arguments exist iff the body has `compound_id`, `template_id` and `document_ids`, and then they are exactly the Vault request's fields |
| Endpoints.DirectoryArguments | app/api/v1/documents.py:577-582 | the local request's arguments exist iff the body has `compound_id` and `template_id`, and then they are exactly the local request's fields |
| Endpoints.HybridRoute | app/api/v1/documents.py:544-589 | the Vault branch only when the source is `veeva` or `auto` with ids; the local one only otherwise when the source is `local` or `auto` with a path; 400 iff neither; any other error is a bare 500 |
| Endpoints.HybridRouteOfParsed | app/api/v1/documents.py:563-583 | for a body the hybrid schema accepts, the branch is the one its source names and the routed request carries its ids, flag and path; `veeva` without ids is a 500 (also app/schemas/document.py:83-101) |
| Endpoints.HybridIgnoresSchema | app/api/v1/documents.py:546 | a body with an undeclared field is refused by the hybrid schema yet routed to the Vault (also app/api/v1/documents.py:565-573) |
| Endpoints.VaultArgumentsOfUndeclared | app/api/v1/documents.py:567-572 | the arguments built from that body make a valid Vault request |
| Endpoints.UploadRefusal | app/api/v1/documents.py:1250-1260 | no refusal iff the name ends in `.pdf` and the size is at most the 10 MiB limit |
| Endpoints.UploadCheckAsWritten | app/api/v1/documents.py:1250-1260 | the checks as written: refused exactly when the corrected check refuses, and then a 500 whose detail is "400: " followed by the refusal (also app/api/v1/documents.py:1286-1290) |
| Endpoints.UploadCheck | app/api/v1/documents.py:1250-1260 | the corrected checks: no error iff the name ends in `.pdf` and the size fits; otherwise a 400 carrying the refusal |
| Endpoints.RefusalBecomesServerError | app/api/v1/documents.py:1250-1254 | as written, a `.txt` upload is answered 500 "400: Only PDF files are allowed" where a 400 is meant (also app/api/v1/documents.py:1286-1290) |
| Endpoints.UploadDocument | app/api/v1/documents.py:1241-1290 | the endpoint leaves the tables and the file system as `UploadResult` says and answers with its reply; a refused upload is a 500 "400: ...", a failed save a 500 carrying the `OSError` text "[Errno N] ...: 'path'" |
| Endpoints.UploadStored | app/api/v1/documents.py:1241-1290 | stored iff the checks pass, the save succeeds, the compound id parses and the row fits; then exactly one `pending` row for the file is appended, its path holds exactly the bytes, and the reply names it; any failure leaves the tables as they were; a refused upload is a 500 "400: ..." and touches neither the tables nor the files |
| Endpoints.UploadOrphansFile | app/api/v1/documents.py:1262-1275 | when the save succeeds but the compound id is not a UUID, the answer is a 500 with no row added, while the saved file stays on disk (also app/api/v1/documents.py:1286-1290) |
| Endpoints.SaveErrorAnswered | app/api/v1/documents.py:1262-1290 | a save that raises answers 500 with the text of the `OSError`, leaves the tables as they were and the file system as the failed save left it |
| Endpoints.NestedIdUploadFails | app/api/v1/documents.py:1262-1290 | an upload for a compound id `top/rest`, into a compound directory with nothing below it, is a 500 "[Errno 2] No such file or directory: '<path>'" and adds no row |

The rate limiters in `app/auth/middleware.py` and `app/api/deps.py` read the
age of a request through `timedelta.seconds`, which drops whole days. The
model keeps this as written: `Clock.DayOldRequestKept` shows a request
exactly one day old still counted.

## Left out

- LLM calls: the OpenAI and Azure clients are a parameter, a function from prompt to an optional reply.
- JSON decoding: `json.loads` is a partial-function parameter. Only the substring rule around it is modelled: from the first `{` to the last `}`, a greedy span rather than the first balanced object.
- JSON numbers are integers; floats, and float formatting beyond the `"%.2f KB"` labels and the 0.95/0.90 confidence range, are not modelled.
- `str()` of a decoded JSON list or object is rendered by a placeholder rather than Python's `repr`.
- PyMuPDF: page texts, blocks and spans, and tables are inputs, and a failing open is a message. `get_pdf_metadata` (app/services/pdf_processor.py:204-239) is a thin wrapper and is not modelled.
- HTTP: the `requests` session, the retry adapter, URL construction and `iter_content` are replaced by reply values and chunk sequences.
- MD5: the digest in the Vault cache key (app/api/v1/documents.py:397, app/api/v1/documents.py:490) is a function parameter.
- JWT: signature, audience and issuer checks (app/auth/middleware.py:80-127) are a verification parameter; `create_access_token` (app/api/deps.py:165-187) is a foreign `jwt.encode` call and is not modelled.
- `AuthLoggingMiddleware` (app/auth/middleware.py:226-250, installed at app/main.py:57) is not modelled. It calls `verify_jwt_token` for every request with a Bearer header before any route dependency runs, so it refreshes the key cache as `Auth.KeysStep` says; it ignores the result and only logs. The model starts each dependency from the key cache as it finds it, and does not add that earlier refresh.
- `check_document_access` (app/auth/middleware.py:261-265) always allows and is not modelled.
- SQL text, table creation and ORM sessions: tables are sequences of rows; `rollback` restores a snapshot; a failing query or write is a boolean fault parameter; the database's error text is approximated by a fixed message.
- Endpoints.DirectoryResult: the refusal of a statement in an aborted transaction is `DocStore.AbortedMessage`, the core of PostgreSQL's message. The driver's text also names the exception class and carries the SQL and a link, which are not modelled. The `SAVEPOINT` is taken to be sent when `begin_nested()` opens, so a malformed compound id on the first PDF fails with the refusal and not with the `ValueError`.
- Endpoints.VaultResult: the same refusal text as `Endpoints.DirectoryResult`. Only a failed lookup aborts the transaction here; the cache table's creation in `BatchDataCache` rolls back its own failure (app/api/v1/documents.py:72-74).
- Cascading deletes from a document to its extracted rows are not modelled, since no core operation deletes a document.
- `get_cache_status` `recent_records` (app/api/v1/documents.py:684-705): the ten latest rows by `updated_at` are not modelled, since the order of rows with equal times is unspecified.
- The `message` fields of replies and `clear_cache`'s text are not modelled.
- `download_pdfs_if_needed` (app/api/v1/documents.py:812-873) downloads from fixed URLs; `debug_directory_info` (app/api/v1/documents.py:728-808) only reports. Neither is modelled.
- `os.makedirs` of the PDF directory: the listing is an input. The "PDF directory not found" branch (app/api/v1/documents.py:898-903) cannot be taken after it and is not modelled.
- `calculate_file_hashes` is modelled on the same listing as the endpoint's `glob`. A directory that changes between the two reads is not modelled.
- `DirectoryProcessRequest.directory_path` is read but never used by `process_directory`, and the model ignores it as the code does.
- `print`, logging, `traceback`, `gc.collect`, `time.sleep` and `async`/`await`: awaits are sequential, so every loop is modelled sequentially.
- Clocks, `uuid4` and the directory sizes reported by the file system are parameters. Parsing a compound id as a UUID is a function parameter.
- Case mapping is ASCII only, and Python's `str.isspace` set is written out as a fixed set of characters.
- The hard-coded settings values and the `os.makedirs` calls made at import (app/config.py:117-118) are not modelled.
- app/main.py, run.py, app/database.py, app/api/v1/health.py and the `__init__.py` files are plumbing and are not part of this model.
- The `test`, `simple` and `debug` compound routes are not modelled. `get_compounds` is defined twice in app/api/v1/compounds.py; the first registered route answers, and that one is modelled.
- Compounds.GetCompounds: the fallback reply's message and the text of the response-validation error are not modelled; the model states only that the client gets the generic 500.
- FileManager.Store.constructor: requires that `os.makedirs` of the upload directory succeeds; where it raises, construction raises, and that is not modelled.
- FileManager.MakeDirsStep: paths are compared as strings: `.` and `..` components and repeated inner slashes are not resolved, the early return of `os.makedirs` for a last component equal to `os.curdir` is not modelled, and symbolic links and permissions do not exist in the tree.
- Text.IsDigit: digits are ASCII `0`-`9`; Python's `\d` and `int()` also accept the other Unicode decimal digits, which the model refuses.
- Validators.ValidateStorageCondition: the temperature patterns' `\d` matches ASCII digits only, so a condition under five characters written with other Unicode decimal digits is refused where Python accepts it.
- Config.ParsePort: a string port is read with ASCII digits only; Python's `int()` also accepts other Unicode decimal digits.
- Config.ParsePort: the error texts are the fixed part of Python's. The `ValueError` text leaves out the `: '<value>'` suffix. The `TypeError` text is the older wording and leaves out the type name.
- Config.ParseBoolFlag: the refusal text leaves out the quoted type name at the head of Python's `AttributeError` (`'int' object has no attribute 'lower'`).
- Catalog.SeedCompounds: the seeds must have distinct codes, and so must those of `Catalog.SeedLoop`. Both callers pass three distinct codes (app/api/v1/compounds.py:164-168, app/init_data.py:22-38). With a repeated code the session, which does not flush before its queries (app/database.py:27), would add two rows for that code and the commit would fail on the unique index (app/models/compound.py:14). The model does not cover that input.
- InitData.SeedRegions: the lookup runs over the table as it grows, where the session without autoflush (app/database.py:27) sees only the committed table. The two find the same rows because the script looks each (compound, region) pair up once: the regions are the three members of `RegionEnum`, and the compounds are distinct rows. That agreement is argued here, not proved for templates (for compounds it is `Catalog.PendingRowsUnseen`).
- Templates.CreateTemplateStep: the duplicate message shows the region by its value ("CN"), as `f"{region}"` does for a `str` enum up to Python 3.10. From Python 3.11 that text reads "RegionEnum.CN" (app/models/template.py:11, app/schemas/template.py:10). The model keeps the value form.
- Catalog.Window: the queries have no `ORDER BY`, so the database may return rows in any order; the model fixes that order as the order the rows are kept (insertion order).
- Compounds.ConsecutivePages: stated over the fixed row order of `Catalog.Window`; with no `ORDER BY` the database does not promise that two queries page the same order.
- Catalog.WindowsTile: as `Compounds.ConsecutivePages`, stated over the fixed row order the model keeps.
- Templates.GetTemplates: the page is taken from the selected templates in the order the model keeps them; the query has no `ORDER BY`.
- DocStore.RowsFor: the rows are given in the order the model keeps them; the query has no `ORDER BY`, so the database's order is not modelled.
- DocStore.Records: the documents and their rows are visited in the order the model keeps them; the queries have no `ORDER BY`.
- Schemas.ParseProcessingResult: does not check that `extracted_data` is a list of extracted-data records; only the fields the core reads are parsed.

## Findings

| source | as written | input that shows it | evidently intended | confidence | as-written member | corrected member |
|---|---|---|---|---|---|---|
| app/api/v1/documents.py:1083-1098, app/api/v1/documents.py:331-343 | on an error the session is rolled back, then the document is looked up by id and marked `failed`; the rollback has removed the row just created, so nothing is marked and no failed row remains | a new PDF whose text extraction raises | the document stays recorded with status `failed` and the truncated error message | not executed | Pipeline.RecordFailureAsWritten, Pipeline.FailureLostAsWritten | Pipeline.RecordFailure, Pipeline.MarkFailed, Pipeline.RecordFailureFits |
| app/api/v1/documents.py:1250-1260, app/api/v1/documents.py:1286-1290 | the 400 raised for a non-PDF or oversized upload is caught by `except Exception` and re-raised as a 500 with detail "400: ..." | an upload named `notes.txt` | a 400 with the refusal text | not executed | Endpoints.UploadCheckAsWritten, Endpoints.RefusalBecomesServerError | Endpoints.UploadCheck |

The endpoint and loop members run the code as written: `Pipeline.Settled` fails through `Pipeline.RecordFailureAsWritten` and `Endpoints.UploadResult` checks through `Endpoints.UploadCheckAsWritten`. The corrected members are stated and proved beside them.
