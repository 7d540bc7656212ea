# Bulk training of the SIM API, modelled in Dafny

The script `index.js` reads a JSON array of question/answer records and posts
each one, in order, to a chatbot training API. This project models its
sequential logic:

- **Payload normalisation** (`Training`): each optional field falls back to a
  fixed default through JavaScript `||`, so an empty string counts as missing;
  `response` falls back to `answer` and then to `""`; `question` and the
  credential `api` are copied unchanged.
- **Validation and reply classification** (`Training.TrainOne`): a record
  without a truthy `question` is rejected before any request; otherwise the
  submission succeeds exactly when the reply's `status_code` is the number 201,
  and every other reply or transport failure is a plain failure.
- **Loading** (`Loader`): only a top-level array is accepted; read, parse and
  shape failures abort the run.
- **The batch run** (`Batch`): a fold over the records in input order (with a `null` element read as a record without a question; see ## Findings) that
  counts successes, records the requests posted and reports progress after
  every tenth record and after the last one, then the totals.

The network is an oracle `reply: nat -> Outcome` giving the reply the API
would send for the record at each position; it is consulted only for records
that pass validation. Reading and parsing the file is abstracted to a
`Source` value (unreadable, malformed, or a parsed `Json` value).

Files: `wrappers.dfy` (Option, Result), `training.dfy`, `loader.dfy`, `batch.dfy`.

## Model

| member | source | states |
|---|---|---|
| Training.Normalize | index.js:38-49 | builds the payload; its contract states that the key and question are copied unchanged, and PayloadShape, FieldDefaults and ResponseFallback state the defaulting rules |
| Training.PayloadShape | index.js:38-49 | the payload carries the configured key and the record's question unchanged, never leaves a defaulted field empty, sends `image_url` as null or a non-empty string, and sends `response` as the record's response or else the payload's answer |
| Training.FieldDefaults | index.js:41-48 | each optional field that is missing or `""` takes its default (`""`, `text`, `bn`, `neutral`, `general`, `good`, null) and every non-empty value passes through unchanged |
| Training.ResponseFallback | index.js:46 | `response` is the record's response if non-empty, else its answer if non-empty, else `""` |
| Training.OnlyQuestionAndAnswer | index.js:41-48 | a record with only a question and an answer gets every default and `response` equal to the answer |
| Training.EmptyMeansAbsent | index.js:41-48 | replacing every empty optional field by a missing one never changes the payload |
| Training.NormalizeStable | index.js:38-49 | a payload fed back as a record normalises to the same payload |
| Training.Accepted | index.js:63-71 | a reply counts as accepted exactly when its `status_code` is the number 201 (a string "201", a missing code or a transport error do not) |
| Training.TrainOne | index.js:37-76 | a request is made exactly when the question is truthy, and then with the normalised payload; success holds exactly when the question is truthy and the reply is status 201 |
| Loader.LoadJsonFile | index.js:22-34 | the load succeeds exactly for a parsed top-level array, yielding its elements in order; a parsed non-array fails with the shape error |
| Loader.FieldsOf | index.js:40-48 | an object element is read field by field; any other element reads as a record whose every field is missing, so it has no truthy question and an empty response; for `null` this is the corrected reading (see ## Findings) |
| Loader.FieldsAsWritten | index.js:40 | reading the fields of an element fails exactly for `null`, and otherwise agrees with FieldsOf |
| Batch.CountTrue | index.js:91-99 | the success count never exceeds the number of verdicts |
| Batch.ProgressDue | index.js:105 | the reporting condition after record k of n; ProgressReported states that reports happen exactly at these k, in increasing order, and ProgressSchedule that a run makes ceil(n/10) of them |
| Batch.Prefix | index.js:90-108 | after k iterations there are k verdicts, the success counter is their count of successes and at most k, and progress follows the reporting schedule |
| Batch.CountTrueExtremes | index.js:97-99 | the success count equals the number of records exactly when every submission succeeded, and is zero exactly when none did |
| Batch.RequestsArePosted | index.js:94-99 | after k iterations the requests posted are exactly the normalised payloads of the valid records among the first k, in input order |
| Batch.VerdictsInOrder | index.js:94-99 | the i-th verdict is the outcome of submitting the i-th record with the i-th reply |
| Batch.ProgressReported | index.js:105-107 | progress is reported after record k exactly when k is a multiple of 10 or the last, in strictly increasing order |
| Batch.ProgressCount | index.js:105-107 | before the last record there are k/10 reports; after it ceil(n/10), with no double report when 10 divides n |
| Batch.Run | index.js:79-113 | in the corrected reading of `null` elements, a run fails exactly when loading fails; otherwise it processes every record, reports successes plus failures equal to the total and posts exactly the valid records' payloads in order |
| Batch.EveryRecordCounted | index.js:94-112 | every record is submitted once in input order, and 0 <= successes <= n with successes + failures = n |
| Batch.ProgressSchedule | index.js:105-107 | a completed run reports progress ceil(n/10) times, in increasing order, and for n > 0 the last report is n of n |
| Batch.InvalidRecordNotPosted | index.js:51-55 | a record without a truthy question makes no request and counts as a failure |
| Batch.LoadFailureSubmitsNothing | index.js:84-88 | an unreadable file, a parse failure or a non-array top level ends the run with no submission and no summary |
| Batch.GreetingThenNoQuestion | index.js:79-113 | a valid record followed by one without a question, with the API accepting, gives one request, 1 success and 1 failure of 2, and one progress report at 2 |
| Batch.FirstNull | index.js:40 | finds the first `null` element, or states there is none |
| Batch.RunAsWritten | index.js:94-97 | the script as written stops at the first `null` element (every earlier element is not `null`), having processed only the earlier records, and otherwise behaves as Run |
| Batch.NullElementAbortsBatch | index.js:40 | with input `[null, {question, answer}]` the script as written stops with no request and no summary, while Run posts the second record and reports 2 records |
| Batch.NullCountsAsInvalid | index.js:40-55 | in the corrected reading a `null` element makes no request and counts as a failure |
| Batch.SubmitAll | index.js:90-108 | the loop computes the same state as the fold over all records |
| Batch.BulkTrain | index.js:79-113 | the load, loop and summary compute exactly Run, with successes plus failures equal to the total; in the corrected reading, where a `null` element counts as a record without a question (see ## Findings) |

## Left out

- Reading the input file, appending to the log file, timestamps and the text of every log line: I/O and presentation. Every log append is assumed to succeed: a failed append at index.js:64 (inside the `try`) would turn an accepted reply into a failure, and one at index.js:53, 73 or 106 would end the run with no summary.
- `JSON.parse`: a foreign library; its result is the abstract `Source`/`Json` value.
- The axios POST, its headers and the endpoint URL: replaced by the `reply` oracle; axios throwing on a non-2xx status is a `TransportError`.
- The one-second delay between requests and the promise machinery: timing only, no effect on the counts.
- Field values that are not strings (numbers, booleans, nested objects) and the rest of JavaScript truthiness: record fields are optional strings.
- Reply bodies are reduced to their `status_code`; a non-integer number there is `JsOther`.
- The top-level `.catch` logger (index.js:116-118), apart from the run ending that RunAsWritten's `Crashed` result stands for.

## Findings

| source | as written | input that shows it | evidently intended | confidence | as-written member | corrected member |
|---|---|---|---|---|---|---|
| index.js:40 | `data.question` is read while building the payload, before the `try` of line 57, so a `null` array element throws out of `trainSimApi` and the loop at line 97, ending the whole run with no summary | `[null, {"question":"Hi","answer":"Hello"}]` | a bad element is a record-level failure: counted as a record without a question while the batch continues | medium, not executed | Batch.NullElementAbortsBatch | Batch.Run |
