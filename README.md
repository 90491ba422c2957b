# Site Excel Escola: contact cleaning and WhatsApp dispatch, in Dafny

This project models the contact-cleaning and dispatch logic of the school
contact tool. The tool has three parts, and each carries its own copy of
that logic:

- **The Streamlit tool** (`whatsapp_excel_integrator.py`):
  - the phone normaliser `clean_and_standardize_phone`;
  - the vCard display formatter `format_phone_for_vcf`;
  - `generate_vcf_content`, the one pass over the spreadsheet rows that fills the caller's success and failure lists and returns the vCard file;
  - `find_initial_column`.
- **The FastAPI server** (`proxy_server.py`):
  - the Redis rate limiter `check_rate_limit`;
  - the fallback column detection `heuristic_column_detection`;
  - the guards of `send_whatsapp_batch`;
  - the background job `process_whatsapp_batch`, which sends in slices of ten and rewrites the job record after each slice;
  - `send_whatsapp_batch_api`, which builds one Cloud API request per contact and records one result per contact.
- **The browser client** (`main.js`):
  - `NumberCleaner.clean`;
  - `processContacts` and `updateContactPhone` with their valid-first ordering;
  - `VCFGenerator.generate` / `generateSingle`;
  - the bounded chat history `addMessage`;
  - `findHeuristicColumn`.

How each part is modelled:

- **Pure code** becomes functions over datatypes. This covers the normaliser, the formatter, the cleaner, payload choice, vCard text and column matching.
- **Code that updates state** becomes imperative Dafny, each method proved against a specification function:
  - The caller-supplied report lists are `ReportList` objects.
  - The browser manager is the class `BulkManager.Manager`, with fields `contacts`, `processedContacts` and `chatHistory`.
  - Redis is the class `Store.RedisStore`. It holds counters with an optional deadline, values with a time-to-live, an abstract clock in seconds, and a ghost log of every `SETEX`.
  - The loops of the server are `while`/`for` loops with invariants.
- **What the model cannot see** becomes a parameter:
  - The HTTP client is a function `post` from a request (URL, `Authorization` header, JSON payload) to a reply. A reply is a status code with body and message id, or the text of a raised exception.
  - A store call that raises is a `Fault` value.
  - The job id is supplied by the caller.

Modules, one per file: `Wrappers`, `Text` (ASCII string helpers, Python `replace`/`split`/`join`), `Seqs` (filter, indexed map, chunking), `Vcard`, `Normalizer` (+ `NormalizerExamples`), `VcfReport`, `Cleaner` (+ `CleanerExamples`), `BulkManager`, `ColumnDetection`, `Store`, `RateLimit`, `Dispatch`.

Two behaviours of the code worth knowing:

- `"5531876-5432"` with configuration `"5531"` passes the hyphen check and is accepted as `"5555318765432"` (`NormalizerExamples.HyphenWithFourDigits`).
- The job's `setex` calls are unguarded, so a store failure raises out of the job; the model's store does not fail.

## Model

| member | source | states |
|---|---|---|
| Normalizer.CountryCode | whatsapp_excel_integrator.py:28 | CC always has two characters: the first two of the configuration when it has at least two, otherwise `"55"` |
| Normalizer.AreaCode | whatsapp_excel_integrator.py:29 | DD always has two characters: characters 2..4 of the configuration when it has at least four, otherwise `"31"` |
| Normalizer.CleanAndStandardizePhone | whatsapp_excel_integrator.py:17-95 | exactly one of (phone, reason) is present on every path; a reason is never empty; empty input is rejected with the empty-input reason before any other rule; an accepted number starts with CC and has 13 characters, or 12 when the input had 8 digits |
| Normalizer.MoreThanOneHyphenRejected | whatsapp_excel_integrator.py:33-38 | a raw value with two or more hyphens is rejected with the hyphen-count reason, whatever its digits |
| Normalizer.SuffixDigitsChecked | whatsapp_excel_integrator.py:40-46 | with exactly one hyphen, a suffix without exactly four digits is rejected with a reason naming the count found; with four digits the pre-check passes |
| Normalizer.Rules | whatsapp_excel_integrator.py:49-95 | the result for every digit count once the pre-checks pass. 12 digits with CC get `9` inserted at position 4, and without CC fall to the catch-all. 10 digits become CC + DDD + `9` + rest. 8 or 9 digits become CC + DD + digits. 11 digits get CC prepended whether or not they start with DD. 13 digits are kept only with CC. Fewer than 8 are "muito curto". More than 13 without CC are "muito longo", and with CC the catch-all |
| Normalizer.NineInsertedAfterAreaCode | whatsapp_excel_integrator.py:61-70 | for 10 digits, or 12 digits with CC, the result has 13 characters with `9` at index 4; deleting that `9` gives CC + input digits (10) or the input digits (12) |
| Normalizer.AcceptedIsDigits | whatsapp_excel_integrator.py:49-86 | with an all-digit configuration every accepted number is all digits |
| Normalizer.FormatPhoneForVcf | whatsapp_excel_integrator.py:97-112 | input returned unchanged unless it has 13 characters; otherwise 19 characters with `+`, ` (`, `) ` and `-` at their fixed positions |
| Normalizer.FormatPhoneRoundTrip | whatsapp_excel_integrator.py:102-112 | dropping the punctuation of a formatted 13-digit number gives back the 13 digits |
| NormalizerExamples.ElevenDigits | whatsapp_excel_integrator.py:76-81 | `"31987654321"` with `"5531"` becomes `"5531987654321"` |
| NormalizerExamples.EightDigits | whatsapp_excel_integrator.py:73-74 | `"87654321"` with `"5531"` becomes `"553187654321"`, 12 characters, no `9` inserted |
| NormalizerExamples.HyphenWithFourDigits | whatsapp_excel_integrator.py:33-81 | `"5531876-5432"` passes the hyphen check and is accepted with CC prepended |
| NormalizerExamples.HyphenWithThreeDigits | whatsapp_excel_integrator.py:40-46 | `"553187-654"` is rejected by the hyphen check, reporting 3 digits |
| VcfReport.ClassifyRowSpec | whatsapp_excel_integrator.py:125-172 | a row succeeds iff its trimmed responsible name is non-empty and its phone normalises. A success carries the index, the E.164 value and its display form. A failure carries the index, the whole row, and the normaliser's reason or the default "Nome ou Número Limpo Inválido." |
| VcfReport.FailureDictRowWins | whatsapp_excel_integrator.py:162-172 | in `failed_entry \| row.to_dict()` every row cell is kept and wins on a key clash; the index and reason survive when the row has no such columns |
| VcfReport.GenerateVcfContent | whatsapp_excel_integrator.py:116-174 | the success list gains exactly the success records of the rows in order, the failure list exactly the failure records, and the returned text is the vCards of the successes joined by newlines |
| VcfReport.PartitionSizes | whatsapp_excel_integrator.py:136-172 | successes + failures = rows; one vCard per success |
| VcfReport.RowReported | whatsapp_excel_integrator.py:136-172 | each row's record is in the list its classification selects |
| VcfReport.OutcomesIndexed | whatsapp_excel_integrator.py:123-172 | row `k` (0-based) carries the index `k + 1` |
| VcfReport.SuccessIndicesIncrease | whatsapp_excel_integrator.py:123-158 | success records keep row order: their indices strictly increase and lie in 1..rows |
| VcfReport.VcfFileHasOneCardPerSuccess | whatsapp_excel_integrator.py:141-174 | the returned file reads back, six lines at a time, as exactly the successes' vCards in order, when no field holds a newline |
| VcfReport.FindInitialColumn | whatsapp_excel_integrator.py:236-247 | `None` iff there are no columns; otherwise a column; the hint itself when it is a column |
| VcfReport.FindInitialColumnOrder | whatsapp_excel_integrator.py:242-247 | without an exact hit, the first column equal to the hint under trim/lower-case wins; with none, the first column |
| Cleaner.Clean | main.js:946-949 | falsy input (`undefined`, `''`, `0`) gives `('', '', invalid)` |
| Cleaner.CleanValidity | main.js:952-988 | with one leading `55` and then one `0` removed from the digits, the result is valid iff 10 digits remain, or 11 with the third a `9`. An invalid result echoes the input. The DDD is empty below 10 digits and the first two digits otherwise |
| Cleaner.ValidShape | main.js:990-997 | a valid result is `+55` + DDD + `9` + the last eight national digits: 14 characters, all digits after `+` |
| Cleaner.CleanOfNational | main.js:970-997 | the valid result in terms of the national digits, for 10 digits and for 11 digits whose third is `9` |
| Cleaner.CleanOfCleaned | main.js:952-997 | what cleaning a cleaned number gives: the same result when the DDD does not start with `0`, otherwise a shifted DDD |
| Cleaner.CleanIdempotent | main.js:946-998 | cleaning a valid result again gives the same result iff its DDD does not start with `0` |
| CleanerExamples.ZeroDddAccepted | main.js:956-997 | `"5500198765432"` is valid with DDD `"01"`, so the exception above occurs |
| BulkManager.Or | main.js:498-499 | JavaScript `a \|\| b`: `a` unless it is falsy |
| BulkManager.BuildAllAt | main.js:496-523 | row `k` becomes the record with id `k + 1` built from that row, keeping the row as `originalData` |
| BulkManager.Manager.ProcessContacts | main.js:494-533 | `processedContacts` becomes the non-invalid records followed by the invalid ones, each group in row order; other fields unchanged |
| BulkManager.PartitionPermutes | main.js:525-532 | the reordered list is a permutation of the records |
| BulkManager.PartitionInvalidLast | main.js:525-532 | no invalid contact precedes a non-invalid one |
| BulkManager.PartitionStable | main.js:525-532 | within each group the original relative order is kept |
| BulkManager.PartitionIdempotent | main.js:615-619 | re-partitioning a partitioned list changes nothing |
| BulkManager.ProcessedContactsShape | main.js:494-533 | after `processContacts`: a permutation of the built records, invalid ones last, ids equal to sheet position + 1 |
| BulkManager.WithPhone | main.js:607-613 | the updated contact takes its cleaned phone, DDD and status from cleaning the new value, records that value as its original phone, and keeps id, name, responsible, student, class and row |
| BulkManager.Manager.UpdateContactPhone | main.js:606-623 | for an existing index the contact is re-cleaned and the list re-partitioned; any other index changes nothing |
| BulkManager.Manager.AddMessage | main.js:163-178 | a silent message leaves the history unchanged; otherwise the stored text is appended, dropping the oldest entry at twenty; a history within 20 stays within 20 |
| BulkManager.StoredTextClean | main.js:164-168 | AI text keeps no `*` or `#`; other roles' text is stored unchanged |
| BulkManager.PushAllKeepsLatest | main.js:170-178 | any run of non-silent messages leaves exactly the last twenty entries of the whole conversation |
| BulkManager.GenerateSingleLines | main.js:1015-1026 | one contact's block reads back as its six vCard lines, name defaulting to `Unknown` |
| BulkManager.GenerateReadsBack | main.js:1004-1013 | `generate` writes one card per contact whose cleaned phone starts with `+`, in list order; when no name or phone holds a newline the file reads back as exactly those cards |
| BulkManager.FindHeuristicColumn | main.js:467-475 | the first header whose lower-cased form, with characters outside `[a-z0-9]` turned into spaces, contains a pattern; `''` when none does |
| ColumnDetection.FindExact | proxy_server.py:360-379 | the nested exact-match loops with `break` compute the pattern-priority exact match |
| ColumnDetection.FindContaining | proxy_server.py:381-399 | the nested substring loops with `break` compute the first header containing a pattern |
| ColumnDetection.HeuristicColumnDetection | proxy_server.py:351-401 | each key is the exact match when there is one, else the substring match |
| ColumnDetection.DetectInHeaders | proxy_server.py:351-401 | each detected key is `""` or one of the headers |
| ColumnDetection.ExactMatchFound | proxy_server.py:360-379 | the exact search succeeds iff some pattern equals a non-empty header after lower-casing and `_`→space. What it finds matches the earliest such pattern, and is the first header matching it |
| ColumnDetection.ExactWins | proxy_server.py:360-399 | any exact match beats every substring match |
| ColumnDetection.FallbackIsFirstContaining | proxy_server.py:381-399 | without an exact match, the key is the first non-empty header containing a pattern, or `""` |
| Store.Incremented | proxy_server.py:86 | `INCR` yields one more than the live value, 1 for an absent or expired key |
| Store.RedisStore.Incr | proxy_server.py:86 | `INCR` returns the new count and changes only that key's counter |
| Store.RedisStore.Expire | proxy_server.py:88 | `EXPIRE` sets the deadline of a live key and leaves an absent key alone |
| Store.RedisStore.SetEx | proxy_server.py:446-492 | `SETEX` stores the value with its deadline and is logged |
| RateLimit.CheckRateLimit | proxy_server.py:79-94 | without a store the request is admitted; with one, the counters and the verdict are those of one rate step |
| RateLimit.FailOpen | proxy_server.py:81-94 | a raising `INCR` admits and changes nothing. A raising `EXPIRE` admits on the call that opens a window, the only call that issues it; on any other call the fault makes no difference |
| RateLimit.StepCounts | proxy_server.py:84-91 | each check adds one to the key's live count and touches no other key; the expiry is set only when the count becomes 1; admitted iff the new count is at most 100 |
| RateLimit.WindowVerdicts | proxy_server.py:84-91 | within one window opened by a first request, the n-th request sees count n, so exactly the first 100 are admitted |
| RateLimit.HundredFirstDenied | proxy_server.py:31-32 | the 101st request of a window is denied and the first 100 are admitted |
| RateLimit.ExpiredWindowResets | proxy_server.py:86-89 | after the deadline the next request opens a fresh window and is admitted |
| RateLimit.FailedExpireIsPermanent | proxy_server.py:86-94 | if `EXPIRE` raises on the request that opened a window, that counter never expires |
| Text.StripNonEmpty | proxy_server.py:515 | `s.strip()` is non-empty exactly when `s` has a character that is not whitespace |
| Text.StripRemovesSeparators | whatsapp_excel_integrator.py:125-128 | Python's `strip` removes U+001F where JavaScript's `trim` keeps it |
| Dispatch.TemplateCondition | proxy_server.py:515 | a template is used iff `template_name.strip()` is non-empty and the name is not `hello_world` |
| Dispatch.BuildPayload | proxy_server.py:503-547 | a template payload iff the template name is usable; `to` is the dialled number |
| Dispatch.PayloadChoice | proxy_server.py:503-547 | a template iff the template name is non-blank and not `hello_world`, carrying name, language (default `pt_BR`) and the contact's name. Otherwise a text whose body is the message with every `{name}` replaced. `to` is the phone with every `+` removed |
| Dispatch.SendOne | proxy_server.py:500-584 | a result carries the contact's id and cleaned phone, and succeeds iff it has no error |
| Dispatch.ResultFollowsReply | proxy_server.py:549-584 | with both credentials, the request goes to the v18.0 `messages` URL of the phone number id with a `Bearer` token; the result succeeds iff the API answered 200, then carrying the message id; any other status records the response text as the error, and a raised exception its message |
| Dispatch.MissingNumberIdFailsAll | proxy_server.py:500-584 | without `phoneNumberId` every contact fails with the `KeyError` text `'phoneNumberId'` |
| Dispatch.ResultsFollowContacts | proxy_server.py:498-586 | one result per contact, in contact order, each with that contact's id |
| Dispatch.SendWhatsappBatchApi | proxy_server.py:494-586 | the per-contact loop returns one result per contact, in order |
| Dispatch.SaveJob | proxy_server.py:465-475 | the job record written holds the success and failure counts of the results |
| Dispatch.RecordBatch | proxy_server.py:464-475 | the record after batch `b` extends the job's writes by that batch's record |
| Dispatch.Round | proxy_server.py:458-475 | one round sends slice `b` and records the results so far |
| Dispatch.RunBatches | proxy_server.py:457-479 | slices of ten in order; results for all contacts; ceil(K/10) − 1 sleeps for K ≥ 1, none for K = 0; one record per batch |
| Dispatch.NextBatch | proxy_server.py:457-479 | while unsent contacts remain, the loop is within the batch count, and another batch follows iff contacts remain after this one |
| Dispatch.LastBatch | proxy_server.py:457-479 | when every contact has been sent, the loop has run exactly ceil(K/10) batches |
| Dispatch.ProcessWhatsappBatch | proxy_server.py:442-492 | the results are one per contact in order; the store receives the initial record, one per batch and a final `completed` record under `job:{id}` with TTL 3600; counters untouched |
| Dispatch.NumBatchesBounds | proxy_server.py:457-479 | the number of batches is the ceiling of K/10 |
| Dispatch.ProgressConsistent | proxy_server.py:465-467 | every record has `completed + failed == len(results)` |
| Dispatch.SendAllPrefix | proxy_server.py:457-475 | the results for the first `i` contacts are the first `i` results for all contacts |
| Dispatch.JobWritesFramed | proxy_server.py:446-492 | the job writes ceil(K/10) + 2 records: the first says `processing` with no results, the last says `completed` with every result |
| Dispatch.JobWriteOfBatch | proxy_server.py:464-475 | write `w`, for `1 <= w <= batches`, is the record of batch `w - 1` |
| Dispatch.JobWriteAt | proxy_server.py:446-492 | the job's writes are the initial record, the batch records and the final record, in that order |
| Dispatch.JobWritesShape | proxy_server.py:446-492 | batches + 2 writes, all under the job key with `total == len(contacts)` and consistent counts. All are `processing` except the last, which is `completed` with one result per contact |
| Dispatch.JobProgressGrows | proxy_server.py:457-475 | each intermediate record holds a prefix of the final results |
| Dispatch.DecideCases | proxy_server.py:404-425 | 429 iff rate-limited; otherwise 400 without contacts, then 400 naming `accessToken` before `phoneNumberId`; accepted iff admitted with contacts and both credentials non-empty, carrying the job id and the contact count |
| Dispatch.FirstMissingCredential | proxy_server.py:421-425 | the loop over `accessToken`, `phoneNumberId` stops at the first credential that is missing or empty |
| Dispatch.StartJob | proxy_server.py:416-440 | after the rate check: the guards' answer; a rejected request changes nothing; an accepted job's records are all written, with the completed record left under its key for 3600 seconds |
| Dispatch.SendWhatsappBatch | proxy_server.py:404-440 | the answer is the guards' decision after one rate step; a rejected request changes only the rate counter; an accepted job's records are all written and its key ends holding the completed record with a 3600-second TTL; the clock is unchanged |

## Left out

- Python's `\D`, `str.lower` and `str.strip`, and JavaScript's `toLowerCase` and `trim`, also act on non-ASCII characters; the model handles ASCII only. Python's `strip` is modelled with the ASCII characters `str.isspace` accepts, including the separators U+001C–U+001F (`Text.Strip`). JavaScript's `trim` is modelled without those separators (`Text.Trim`). JavaScript's `/\D/g` has no `u` flag, so `DigitsOf` matches it exactly.
- Cleaner.CellString: numeric spreadsheet cells are non-negative integers; JavaScript's `toString` of fractions, negatives and exponents is not modelled.
- `None`/`null` values inside rows, contacts and credentials (as opposed to missing keys) are not modelled, nor are pandas `NaN` cells, which would print as `nan`.
- VcfReport.GenerateVcfContent: the pandas index is taken to be the row position.
- Dispatch.SendOne: per-contact timestamps (`datetime.utcnow()`) are omitted. The message id is part of the reply: a 200 reply without a `messages` key is a success with no id (`Response(200, _, None)`). Two 200 replies cannot be represented: a body that is not JSON, and an empty `messages` list, where `[0]` raises `IndexError` and the `except` turns the 200 into a failure with error `list index out of range`.
- Dispatch.SendWhatsappBatch: the job id comes from the clock and is a parameter here. The background task runs to completion before the answer is returned. `estimatedTime` (seconds, a float) is given as whole milliseconds.
- Dispatch.RunBatches: a sleep is counted, not timed, and does not move the store's clock, so job records do not expire while the job runs.
- Store.RedisStore.SetEx: store writes never fail in the model. In the source an unreachable store would raise out of the job.
- `get_job_status`, the chat and AI column-detection endpoints, the HTTP retry logic, CORS and the exception handlers are not part of this model.
- Browser DOM updates, file parsing, storage, polling timers, `formatFileSize`/`updateProgress` and `replacePlaceholders` are not part of this model.
- BulkManager.Manager.UpdateContactPhone: the source mutates the contact object in place; the model replaces the list entry with an updated value. Nothing else holds a reference to it.
- `send_whatsapp_template_message`, Streamlit's `main()` and `openrouter_backend_api.py` / `security_guide.php` are not part of this model.
