# Verified model of the study utilities' core

This project models, in Dafny, the core logic of a small Go code base made of
independent utilities:

- **Record pipeline** (`record_pipeline.dfy`, module `RecordPipeline`): a
  `DataProcessor` holds an ordered list of validators and an ordered list of
  transformers. `ProcessRecord` runs every validator in order and stops at the
  first error, returning the zero record and a "validation failed" error;
  otherwise it threads the record through every transformer in order.
  `ProcessBatch` processes each record on its own and collects successes and
  per-record errors (index, ID, cause) in input order. The concrete rules are
  `EmailValidator` (the email must contain `@`), `AgeValidator` (age within
  `[MinAge, MaxAge]`, bounds included) and `NameTransformer` (a non-empty name
  is lower-cased, then title-cased). Validators and transformers are
  arbitrary functions, so every contract holds for any rule set.
- **String helpers** (`string_utils.dfy`, module `StringUtils`): `ReverseString`
  (two-index swap loop over an array of runes), `CountWords` (the number of
  fields `strings.Fields` returns) and `IsPalindrome` (drop spaces and
  punctuation, lower-case, compare with the reverse).
- **Email check** (`email.dfy`, module `Email`): `IsValidEmail` as a predicate
  deciding the language of the anchored pattern
  `^[a-zA-Z0-9._%+-]+@[a-zA-Z0-9.-]+\.[a-zA-Z]{2,}$`.
- **Request metrics** (`metrics.dfy`, module `Metrics`): the `MetricsCollector`
  object with its request, latency and error counters, `RecordRequest`,
  `GetAverageLatency` (Go's truncating integer division) and `Reset`.
- **CSV loader** (`csv_loader.dfy`, module `CsvLoader`): `ProcessCSVFile` over a
  file already split into rows of fields, including the CSV reader's rule that
  every row must have as many fields as the header, `strconv.Atoi` for the ID,
  and `ValidateRecords`.
- **Configuration gate** (`config_parser.dfy`, module `ConfigParser`):
  `validateConfig` (host, then port in 1..65535, then database URL; the first
  failure is reported) and the gate `ParseConfig` puts after decoding.
- Shared modules: `Wrappers` (`Option`, `Result`) and `Text` (the character
  classes and case mappings of the Go standard library functions called).

The model follows what the code does where that is narrower than its own
messages and comments suggest. The CSV loader's "expected 3" error is reached
only by rows as wide as the header: `csv.Reader` rejects any other width
first, with its own field-count error. `IsPalindrome`'s doc comment speaks of
palindromes in general, but the code removes only what `unicode.IsSpace` and
`unicode.IsPunct` accept, so symbols such as `$` or `+` are still compared.

## Model

| member | source | states |
|---|---|---|
| RecordPipeline.EmailValidator.Validate | study17/src/main/resources/data_processor.go:33-38 | a record passes iff its email contains '@'; otherwise the error is the invalid-email-format error |
| RecordPipeline.AgeValidator.Validate | study17/src/main/resources/data_processor.go:46-51 | a record passes iff MinAge <= age <= MaxAge; otherwise the error carries the age and both bounds |
| RecordPipeline.NameTransformer.Transform | study17/src/main/resources/data_processor.go:56-61 | ID, email and age are unchanged; an empty name leaves the record as it is; otherwise each rune of the name is upper-cased where a word starts and lower-cased elsewhere, length kept |
| RecordPipeline.NameTransformIdempotent | study17/src/main/resources/data_processor.go:56-61 | applying the name transformer twice equals applying it once |
| Text.IsSpace | study02/src/test/utils.go:35 | unicode.IsSpace: a space is never an ASCII letter, digit or '_' (so it separates words for strings.Title), and the only ASCII spaces are ' ' and tab through carriage return |
| Text.SpaceTable | study02/src/test/utils.go:35 | unicode.IsSpace accepts exactly the 25 runes of the Unicode White_Space table |
| Text.IsPunct | study02/src/test/utils.go:35 | unicode.IsPunct on ASCII: punctuation lies between '!' and '}' and is never a letter, a digit or a space |
| Text.PunctuationTable | study02/src/test/utils.go:35 | IsPunct accepts exactly the ASCII characters of general category P, listed one by one |
| Text.ToLower | study02/src/test/utils.go:38 | unicode.ToLower maps an upper-case letter to the lower-case letter at the same place in the alphabet and keeps every other rune, so no upper-case letter is left |
| Text.ToUpper | study17/src/main/resources/data_processor.go:58 | the title-casing of strings.Title maps a lower-case letter to the upper-case letter at the same place in the alphabet and keeps every other rune, so no lower-case letter is left |
| Text.IsTitleSeparator | study17/src/main/resources/data_processor.go:58 | strings.Title's word-boundary test: every space and every punctuation character except '_' separates words; ASCII letters, digits and '_' never do |
| Text.Title | study17/src/main/resources/data_processor.go:58 | strings.Title: a rune at a word start (first rune, or after a separator) is upper-cased, every other rune kept |
| Text.TitleOfLower | study17/src/main/resources/data_processor.go:58 | Title of the lower-cased name: word starts upper-cased, all other runes lower-cased; word starts are those of the original name |
| Text.CaseMappingFacts | study17/src/main/resources/data_processor.go:58 | upper- and lower-casing absorb each other and never move a word boundary |
| Text.LowerString | study17/src/main/resources/data_processor.go:58 | strings.ToLower keeps the length and maps rune k to ToLower of rune k, so no upper-case letter is left while every non-letter and every lower-case letter is kept |
| RecordPipeline.FirstRejection | study17/src/main/resources/data_processor.go:87-91 | the index found rejects the record and every earlier validator accepts it; none is found iff every validator accepts |
| RecordPipeline.ApplyTransformers | study17/src/main/resources/data_processor.go:94-97 | the transformer loop: with no transformers the record is returned as it is; with one, its output |
| RecordPipeline.ApplyTransformersConcat | study17/src/main/resources/data_processor.go:94-97 | running two transformer lists one after the other equals running their concatenation |
| RecordPipeline.ApplyTransformersFirst | study17/src/main/resources/data_processor.go:94-97 | the first transformer sees the input record and the rest see its output |
| RecordPipeline.Process | study17/src/main/resources/data_processor.go:85-100 | ProcessRecord's result as one value: an error iff some validator rejects, then the first rejecting validator's error wrapped; otherwise the transformers' fold |
| RecordPipeline.ProcessCharacterised | study17/src/main/resources/data_processor.go:85-100 | a record is accepted iff every validator accepts it; the output is then the transformers' fold; otherwise the error wraps the first rejecting validator's error |
| RecordPipeline.EmptyRuleLists | study17/src/main/resources/data_processor.go:85-100 | with no validators every record is accepted; with no transformers an accepted record comes back unchanged |
| RecordPipeline.DataProcessor.constructor | study17/src/main/resources/data_processor.go:69-74 | a new processor has no validators and no transformers |
| RecordPipeline.DataProcessor.AddValidator | study17/src/main/resources/data_processor.go:76-78 | appends the validator at the end; transformers unchanged |
| RecordPipeline.DataProcessor.AddTransformer | study17/src/main/resources/data_processor.go:80-82 | appends the transformer at the end; validators unchanged |
| RecordPipeline.DataProcessor.ProcessRecord | study17/src/main/resources/data_processor.go:85-100 | on the first rejecting validator: zero record and the wrapped error of that validator; otherwise no error and the record folded through all transformers in order |
| RecordPipeline.DataProcessor.ProcessBatch | study17/src/main/resources/data_processor.go:103-117 | the outputs are exactly the successes and the failures of the records, each in input order |
| RecordPipeline.Successes | study17/src/main/resources/data_processor.go:107-114 | ProcessBatch's first output: at most one output per record |
| RecordPipeline.Failures | study17/src/main/resources/data_processor.go:107-112 | ProcessBatch's second output: at most one error per record |
| RecordPipeline.BatchPartition | study17/src/main/resources/data_processor.go:103-117 | every record yields exactly one success or one error |
| RecordPipeline.FailuresSound | study17/src/main/resources/data_processor.go:107-112 | every error names a rejected record by its index and ID with that record's error, and errors come in increasing index order |
| RecordPipeline.FailuresComplete | study17/src/main/resources/data_processor.go:107-112 | every rejected record has an error carrying its index |
| RecordPipeline.SuccessesAppend | study17/src/main/resources/data_processor.go:107-114 | records are processed independently: the successes of a concatenated batch are the concatenated successes |
| RecordPipeline.RecordOutcome | study17/src/main/resources/data_processor.go:85-100 | ProcessRecord's pair of results is exactly Process's value |
| RecordPipeline.BatchGrows | study17/src/main/resources/data_processor.go:107-114 | after record i, the outputs grow by its output if it has no error, and the errors by its index, ID and error otherwise |
| RecordPipeline.BatchStep | study17/src/main/resources/data_processor.go:107-114 | the outputs for a batch grow by the outcome of the next record only |
| RecordPipeline.AllValidBatch | study17/src/main/resources/data_processor.go:103-117 | when every validator accepts every record there are no errors and the successes are the transformed records one for one |
| RecordPipeline.ExampleNames | study17/src/main/resources/data_processor.go:56-61 | in an example of this model's own (the program has no sample data), the name transformer turns "JOHN" into "John" and "jane" into "Jane" |
| RecordPipeline.ExampleAccepted | study17/src/main/resources/data_processor.go:85-100 | in the model's own example, with the email and age(18, 120) validators and the name transformer, the first two records pass with title-cased names |
| RecordPipeline.ExampleRejected | study17/src/main/resources/data_processor.go:33-51 | in the model's own example, the record without '@' (also under age) fails on its email, as that validator runs first; the one aged 150 fails on its age |
| RecordPipeline.PassPassFailFail | study17/src/main/resources/data_processor.go:103-117 | a four-record batch whose first two records pass and last two fail yields those two outputs and two errors with indices 2 and 3 |
| RecordPipeline.ExampleBatch | study17/src/main/resources/data_processor.go:103-117 | the model's own example batch yields the two title-cased records and the email and age errors of records 3 and 4, in that order |
| StringUtils.Reverse | study02/src/test/utils.go:18-24 | the result has the input's length and rune k is input rune len-1-k |
| StringUtils.ReverseString | study02/src/test/utils.go:18-24 | the in-place swap loop leaves rune k equal to input rune len-1-k, i.e. Reverse of the input |
| StringUtils.ReverseInvolution | study02/src/test/utils.go:18-24 | reversing twice gives back the input |
| StringUtils.ReverseShort | study02/src/test/utils.go:20 | the loop never runs for fewer than two runes: such strings are their own reverse |
| StringUtils.ReverseConcat | study02/src/test/utils.go:18-24 | the reverse of a + b is the reverse of b followed by the reverse of a |
| StringUtils.RunLength | study02/src/test/utils.go:28 | the leading run of non-space runes ends at a space or at the end |
| StringUtils.Fields | study02/src/test/utils.go:28 | strings.Fields: never more fields than runes (each field is non-empty, see FieldsAreWords) |
| StringUtils.FieldsAreWords | study02/src/test/utils.go:28 | every field strings.Fields returns is non-empty and holds no space |
| StringUtils.CountPastSpace | study02/src/test/utils.go:28 | a space adds no field |
| StringUtils.CountPastRun | study02/src/test/utils.go:28 | a run of non-space runes adds exactly one field |
| StringUtils.FieldsCountRuns | study02/src/test/utils.go:27-30 | the number of fields equals the number of positions where a run of non-space runes begins |
| StringUtils.CountWords | study02/src/test/utils.go:27-30 | the count is the number of maximal runs of non-space runes |
| StringUtils.NoWordsIffAllSpace | study02/src/test/utils.go:27-30 | the count is 0 iff every rune is a space (so 0 for the empty string) |
| StringUtils.Cleaned | study02/src/test/utils.go:34-39 | a single space or punctuation rune is dropped and any other single rune is kept lower-cased (with CleanedConcat this fixes the whole map); the result is no longer than the input and holds no space, no punctuation and no upper-case letter |
| StringUtils.SelfReverseIff | study02/src/test/utils.go:41 | a string equals its reverse iff each rune equals its mirror rune |
| StringUtils.IsPalindrome | study02/src/test/utils.go:33-42 | true iff the cleaned string reads the same from both ends |
| StringUtils.CleanedConcat | study02/src/test/utils.go:34-39 | cleaning works rune by rune: it distributes over concatenation |
| StringUtils.NothingToCompare | study02/src/test/utils.go:33-42 | a string of spaces and punctuation only (or the empty string) cleans to nothing and is a palindrome |
| StringUtils.CleanedEmptyIff | study02/src/test/utils.go:34-39 | a string cleans to nothing exactly when each of its runes is a space or punctuation |
| StringUtils.CleanedReverse | study02/src/test/utils.go:34-41 | cleaning commutes with reversal |
| StringUtils.ReversePreservesPalindrome | study02/src/test/utils.go:33-42 | a string and its reverse get the same verdict |
| StringUtils.CleanedIgnoresCase | study02/src/test/utils.go:34-39 | lower-casing first does not change the cleaned string |
| StringUtils.PalindromeIgnoresCase | study02/src/test/utils.go:33-42 | lower-casing first does not change the verdict |
| Email.IndexOf | study17/src/main/resources/utils.go:10 | the first position of a rune, or none iff it does not occur |
| Email.LastIndexOf | study17/src/main/resources/utils.go:10 | the last position of a rune, or none iff it does not occur |
| Email.IsValidEmail | study17/src/main/resources/utils.go:8-13 | an accepted address has at least 6 runes, starts with a local-part rune and ends with two letters; exact language in ValidEmailIsLanguage |
| Email.SplitIsCanonical | study17/src/main/resources/utils.go:10 | any split that fits the pattern has its '@' first and its '.' last |
| Email.ValidEmailIsLanguage | study17/src/main/resources/utils.go:8-13 | IsValidEmail holds iff some split into local part, '@', domain, '.', top-level part fits the pattern's classes |
| Email.ComposedEmailAccepted | study17/src/main/resources/utils.go:10 | any fitting local part, domain and top-level part joined with '@' and '.' are accepted |
| Email.EmailParts | study17/src/main/resources/utils.go:10 | an accepted address is its three parts joined with '@' and '.', each fitting its class |
| Email.ExactlyOneAt | study17/src/main/resources/utils.go:10 | an accepted address holds exactly one '@' |
| Email.EndsInTopLevelPart | study17/src/main/resources/utils.go:10 | after the last '.' of an accepted address come at least two letters and nothing else |
| Email.RejectsForeignRunes | study17/src/main/resources/utils.go:10-11 | the anchored match rejects the empty string and any string with a rune outside every class |
| Metrics.ErrorCountBounded | study02/src/test/metrics_collector.go:21-27 | the error count lies between 0 and the request count |
| Metrics.Quotient | study02/src/test/metrics_collector.go:33 | Go's integer division truncates toward zero: the remainder has the dividend's sign and is smaller than the divisor |
| Metrics.TotalLatencyBounds | study02/src/test/metrics_collector.go:23 | latencies within [lo, hi] sum to within [n*lo, n*hi] |
| Metrics.AverageWithinBounds | study02/src/test/metrics_collector.go:29-34 | the truncated average of latencies within [lo, hi] lies within [lo, hi], for negative totals (truncated upward) as well as non-negative ones |
| Metrics.MetricsCollector.constructor | study02/src/test/metrics_collector.go:17-19 | all three counters start at zero, with no requests recorded |
| Metrics.MetricsCollector.RecordRequest | study02/src/test/metrics_collector.go:21-27 | the request count grows by one, the total latency by the latency, the error count by one iff the request failed; the counters keep summarising the recorded requests |
| Metrics.MetricsCollector.GetAverageLatency | study02/src/test/metrics_collector.go:29-34 | 0 with no requests, otherwise the total latency divided by the request count, truncated toward zero |
| Metrics.MetricsCollector.Reset | study02/src/test/metrics_collector.go:43-47 | all three counters return to zero and the recorded history is empty |
| Metrics.ResetClearsAverage | study02/src/test/metrics_collector.go:43-47 | after a reset the average latency is 0 |
| CsvLoader.Atoi | study02/src/test/data_processor.go:47-50 | a parsed ID fits in 64 bits and comes from a digit or a sign followed by at least one digit, then digits only; its value is the digits' value, negated iff the sign is '-'; a negative ID comes only from a '-' |
| CsvLoader.AtoiSigned | study02/src/test/data_processor.go:47 | '+' and '-' before in-range digits give the value and its negation ('-' reaching one further, to the 64-bit minimum); beyond that range neither is accepted |
| CsvLoader.AtoiDigits | study02/src/test/data_processor.go:47 | a plain digit string whose value fits is read back as that value |
| CsvLoader.ParseRow | study02/src/test/data_processor.go:35-63 | a row yields a record iff it has as many fields as the header, exactly 3, an integer ID and a parsable value; the record is (ID, name, value); otherwise the error is, in this order: the reader's field-count error for a row wider or narrower than the header, the row-length error for a header-width row of other than 3 fields, the ID error when Atoi fails, the value error when ParseFloat fails |
| CsvLoader.ProcessCSVFile | study02/src/test/data_processor.go:18-67 | no header: error; success iff every data row parses, then one record per data row in order with the row's name; otherwise the error of the first bad row and no records; a row of other than 3 fields or a bad ID or value always aborts |
| CsvLoader.IsNegative | study02/src/test/data_processor.go:77 | Go's `value < 0` on a float64: true exactly for a negative finite value and for negative infinity; false for NaN, zero (either sign) and positive infinity |
| CsvLoader.RecordFault | study02/src/test/data_processor.go:70-80 | no fault iff ID > 0, name non-empty and value not negative; a fault is the first failing check, in the order ID, name, value, and carries the record's ID |
| CsvLoader.ValidateRecords | study02/src/test/data_processor.go:69-82 | no error iff every record is acceptable; otherwise the fault of the first unacceptable record |
| ConfigParser.ValidateConfig | study17/src/main/resources/parser.go:49-63 | no error iff host non-empty, 0 < port <= 65535 and URL non-empty; the error is the first failing check in that order and an invalid port is reported with its value |
| ConfigParser.ValidationIgnoresCredentialsAndFeatures | study17/src/main/resources/parser.go:49-63 | username, password and feature flags never affect validation |
| ConfigParser.ParseConfig | study17/src/main/resources/parser.go:34-46 | a configuration is returned iff decoding succeeded and validation passed, and it is the decoded one unchanged; a decoding error or the validation error is passed on |
| ConfigParser.ParsedConfigIsStable | study17/src/main/resources/parser.go:34-46 | a returned configuration passes the gate again unchanged and has a host and a port in 1..65535 |
| ConfigParser.GateOnSampleDocuments | study17/src/main/resources/parser.go:76-92 | the usage example's configuration passes unchanged; a document that sets nothing is refused for its empty host |

## Left out

- Opening and reading files, the CSV tokeniser itself (quoting, comments, line splitting) and the program entry points: `ProcessCSVFile` takes the file's rows already split into fields.
- The HTTP server and `time.Now`/`time.Since` in the metrics program; latencies are given as integer nanoseconds.
- JSON decoding and encoding in the configuration parser and `Config.String`: `ParseConfig` takes the outcome of decoding (a configuration or a decoding error).
- `GetErrorRate` and `MetricsCollector.String`: floating-point formatting.
- `strconv.ParseFloat`: passed to `CsvLoader.ProcessCSVFile` as a parameter; values are only compared with 0, so they are kept as finite reals, the two infinities and NaN.
- Metrics.MetricsCollector.RecordRequest: 64-bit wrap-around of the counters and of the total latency is not modelled; the counters are unbounded integers.
- Text.ToLower, Text.ToUpper and Text.IsPunct cover ASCII only; Unicode case mapping and punctuation beyond ASCII are not modelled (`unicode.IsSpace` is modelled in full).
- The regular-expression engine: `Email.IsValidEmail` decides the pattern's language directly.
- The exact text of error messages: errors are datatype values carrying the same data (index, ID, age and bounds, port).
- The `Timestamp` field of the pipeline's `DataRecord`: never read by the modelled code.
- The decoding of strings into runes (`[]rune(s)`): strings are sequences of runes from the start.
- The first, duplicate definition of `ReverseString` in study02/src/test/utils.go (lines 1-9): identical to the one modelled.
