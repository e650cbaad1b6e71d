# api-presenca-node, modelled in Dafny

This project models the core of `api-presenca-node`, a Node.js service that
checks clients against the Presença bank API for private payroll credit.
Clients are identified by CPF, the 11-digit Brazilian taxpayer number. The
parts modelled are:

- **CSV route** (`POST /api/process/csv`). It applies a row limit, an optional
  random sample, de-duplication by CPF and a filter against the CPFs already
  consulted today. It then opens a job, draws the daily quota, runs the client
  workflow for every row, saves the results and closes the job.
- **Client workflow** (`processClient`). This is the chain of partner calls:
  login, consent term, optional headless acceptance, employment links, margin,
  offer tables. The retry policy of the HTTP client is modelled with it.
- **Daily quota ledger** (`consult_day`). Consumption is an all-or-nothing
  check-and-increment. A separate sweep resets counters at the date rollover.
- **Result store** (`consulta_presenca`). It covers the column coercions, the
  expansion of one result into rows and the all-or-nothing insert.
- **In-memory job tracker**, with its counters and time estimate.
- **Single-lane consultation serializer.**
- **Pending-queue monitor.** It claims pending rows, consumes quota, runs the
  workflow and records each row's final status. It can be paused and resumed.
- **Reset monitor**, which runs the quota sweep on a timer.
- **Input normalisers** for CPFs, phone numbers, names and spreadsheet
  headers.

Each module follows one source file:

| File | Module | Source file |
|---|---|---|
| `utils.dfy` | `Utils` | `src/utils.js` |
| `consult_day_repo.dfy` | `ConsultDayRepo` | `src/consultDayRepo.js` |
| `consulta_presenca_repo.dfy` | `ConsultaPresencaRepo` | `src/consultaPresencaRepo.js` |
| `processor.dfy` | `Processor` | `src/processor.js` |
| `presenca_client.dfy` | `PresencaClient` | `src/presencaClient.js` |
| `consultation_queue.dfy` | `ConsultationQueue` | `src/consultationQueue.js` |
| `status_tracker.dfy` | `StatusTracker` | `src/statusTracker.js` |
| `consult_day_reset_monitor.dfy` | `ConsultDayResetMonitor` | `src/consultDayResetMonitor.js` |
| `pending_monitor.dfy` | `PendingMonitor` | `src/pendingMonitor.js` |
| `server.dfy` | `Server` | `src/server.js` |

Three support modules round this out:

- `PendingQueue` is the pending-row store the monitor works against.
- `JsString` holds the ECMAScript string built-ins the source uses (`trim`,
  `toUpperCase`, `padStart`, `includes`, …).
- `Wrappers` holds `Option` and `Result`.

Each kind of source code is modelled in a matching form:

- **Pure code** becomes functions with named results. The promised properties
  are `ensures` clauses or lemmas.
- **State the source mutates** becomes a class. This covers the tracker's
  `jobs` map, the ledger and store tables, the monitors' flags and the
  serializer's counters. Each class has methods whose `modifies` and `ensures`
  give the whole new state in terms of a specification function of the old
  one.
- **Loops** become `while` loops with invariants: the retry loop, the batch
  loops, the CPF de-duplication, the row insert and the pending-cycle loops.

Everything outside the process is a parameter: the clock, `randomUUID`, the
random shuffle, the partner's replies, the store's failures, and the pause or
resume calls that arrive while a cycle awaits.

## Model

| member | source | states |
|---|---|---|
| Utils.OnlyDigits | src/utils.js:1 | the result is all digits and no longer than the input; it is empty exactly when the input has no digit |
| Utils.OnlyDigitsAppend | src/utils.js:1 | digit extraction distributes over concatenation, so the result is exactly the input's digits in order |
| Utils.OnlyDigitsOfDigits | src/utils.js:1 | a string of digits is its own digit extraction |
| Utils.NormalizeCpf | src/utils.js:3-7 | "" when there is no digit or more than 11; otherwise the digits left-padded with '0' to 11 characters |
| Utils.NormalizeCpfIdempotent | src/utils.js:3-7 | normalising a CPF twice gives the same result as normalising it once |
| Utils.NormalizeTelefone | src/utils.js:9-16 | "" or 11 digits whose third is '9'; a 10-digit input gets '9' inserted after the area code first |
| Utils.NormalizeTelefoneIdempotent | src/utils.js:9-16 | a normalised phone number normalises to itself |
| Utils.StripMarks | src/utils.js:21 | no combining mark (U+0300–U+036F) is left, the result is no longer than the input, and a text without marks is unchanged; a lone combining mark becomes the empty text |
| Utils.StripMarksAppend | src/utils.js:21 | stripping a text is stripping its two halves, so each mark is removed and every other character kept in order |
| Utils.CollapseSpaces | src/utils.js:22 | no two adjacent white-space characters remain; empty only for empty input; the first character's kind is kept |
| Utils.CollapseSpacesIsScan | src/utils.js:22 | the result is a left-to-right scan that copies every non-space character and writes one space for each run of white space |
| Utils.CollapseScanAfterSpace | src/utils.js:22 | inside a run of white space, the following white space is dropped |
| Utils.NormalizeNomeShape | src/utils.js:18-24 | a normalised name has no leading or trailing white space and no run of two or more |
| JsString.TrimStartShape | src/utils.js:23 | the left trim is a suffix of the input that does not start with white space, and only white space was removed |
| JsString.TrimEndShape | src/utils.js:23 | the right trim is a prefix of the input that does not end with white space, and only white space was removed |
| JsString.TrimShape | src/processor.js:73 | `trim` leaves no white space at either end and never lengthens the text |
| JsString.TrimKeepsNoAdjacentSpaces | src/utils.js:22-23 | trimming a text without adjacent spaces keeps that property |
| JsString.UpperCharKeepsSpace | src/utils.js:24 | upper-casing a character keeps whether it is white space |
| JsString.ToUpperKeepsNoAdjacentSpaces | src/utils.js:22-24 | upper-casing keeps both the absence of adjacent spaces and white space at the ends |
| JsString.PadStart | src/utils.js:6 | a text shorter than the target gets exactly target length: the pad character, then the input; a longer text is returned as is |
| JsString.NatToString | src/server.js:100 | the decimal text of a number is a non-empty string of digits |
| JsString.NatToStringValue | src/server.js:100 | the decimal text of a number reads back as that number and has no leading zero unless it is "0" |
| ConsultDayRepo.StoredTotal | src/consultDayRepo.js:46 | a null or zero stored ceiling falls back to the configured one; any other stored value is used |
| ConsultDayRepo.Remaining | src/consultDayRepo.js:77-78 | `max(0, total - used)`: never negative, and either 0 or the difference |
| ConsultDayRepo.LatestFor | src/consultDayRepo.js:31-36 | none exactly when the principal has no row; otherwise the principal's row with the highest id |
| ConsultDayRepo.LatestForAppended | src/consultDayRepo.js:48-75 | in a table in id order, a row appended for the principal becomes its latest row |
| ConsultDayRepo.LockedRow | src/consultDayRepo.js:38-75 | the row checked is the principal's latest row, or the fresh row with total = restantes = configured and usado = 0 |
| ConsultDayRepo.Consume | src/consultDayRepo.js:14-126 | missing credentials and a non-positive delta are refused with the table unchanged; over the remaining quota the refusal carries {total, usado, restantes, solicitado} and the table is unchanged, the lazily inserted row included; on success only that row changes, with usado + delta ≤ total and restantes = max(0, total − usado') |
| ConsultDayRepo.ResetRestantes | src/consultDayRepo.js:138-141 | the reset `restantes` is never negative: the total, or 0 for a null or negative total |
| ConsultDayRepo.ResetTable | src/consultDayRepo.js:135-155 | exactly the stale rows (older day, usado > 0, matching filters) get usado 0, the reset restantes and today; total and every other row are untouched |
| ConsultDayRepo.StaleRows | src/consultDayRepo.js:152-155 | the rows the sweep touches are exactly the stale rows of the table |
| ConsultDayRepo.StaleRowsAppend | src/consultDayRepo.js:152-155 | the stale rows of a table are those of its first part followed by those of the rest, so table order is kept |
| ConsultDayRepo.ResetSnapshots | src/consultDayRepo.js:143-151 | one record per stale row, in table order: its id, login and password, the old `usado` (positive) and 0, the reset restantes, and the old day (before today) and today |
| ConsultDayRepo.ResetIsIdempotent | src/consultDayRepo.js:128-159 | a second sweep on the same day changes nothing and reports no row |
| ConsultDayRepo.ConsultDayTable.constructor | src/consultDayRepo.js:14 | the table starts with the given rows and identity seed |
| ConsultDayRepo.ConsultDayTable.ConsumeConsultDay | src/consultDayRepo.js:14-126 | the transaction run step by step (insert, re-read, check, update, commit or rollback) leaves the table `Consume` gives and returns its result |
| ConsultDayRepo.ConsultDayTable.ResetStaleConsultDayCounters | src/consultDayRepo.js:128-159 | the table becomes `ResetTable` of the old one and the output is `ResetSnapshots` of it |
| ConsultaPresencaRepo.ToBigIntOrNull | src/consultaPresencaRepo.js:4-8 | null exactly when the value has no digit; otherwise the digit string |
| ConsultaPresencaRepo.ToVarcharOrNull | src/consultaPresencaRepo.js:9-14 | null for null or blank text; otherwise the trimmed text cut to at most `max` characters |
| ConsultaPresencaRepo.ToVarcharOrNullFits | src/consultaPresencaRepo.js:9-14 | a coerced text never exceeds its column width |
| ConsultaPresencaRepo.ElegivelColumn | src/consultaPresencaRepo.js:24 | null when the link's flag is null or absent, else "true" or "false" |
| ConsultaPresencaRepo.TipoConsultaOrDefault | src/consultaPresencaRepo.js:32 | a falsy consultation type becomes "Individual" |
| ConsultaPresencaRepo.BuildRowsFromResult | src/consultaPresencaRepo.js:16-61 | every row carries the same base columns; no offers gives exactly one row with null offer columns, otherwise one row per offer in order |
| ConsultaPresencaRepo.BuildRowsCpf | src/consultaPresencaRepo.js:18 | the rows of a result without CPF digits have a null CPF; the rows of a valid CPF carry its digits |
| ConsultaPresencaRepo.ValidRows | src/consultaPresencaRepo.js:118 | keeps exactly the rows with a CPF, never more rows than given |
| ConsultaPresencaRepo.ValidRowsAppend | src/consultaPresencaRepo.js:118 | filtering a concatenation is concatenating the filtered parts, so order and repeats are kept |
| ConsultaPresencaRepo.SkippedRows | src/consultaPresencaRepo.js:119-124 | exactly the rows without a CPF, never more rows than given |
| ConsultaPresencaRepo.SkippedRowsAppend | src/consultaPresencaRepo.js:119-124 | the skipped rows of a concatenation are those of each part in turn, so order and repeats are kept |
| ConsultaPresencaRepo.ValidAndSkippedPartition | src/consultaPresencaRepo.js:116-125 | inserted plus skipped equals the number of rows built |
| ConsultaPresencaRepo.CollectRows | src/consultaPresencaRepo.js:116-118 | the push loop collects every result's rows in order, at least one per result |
| ConsultaPresencaRepo.PresencaTable.constructor | src/consultaPresencaRepo.js:63 | the store starts with the given rows |
| ConsultaPresencaRepo.PresencaTable.InsertConsultaPresencaRows | src/consultaPresencaRepo.js:63-114 | empty input returns 0 and writes nothing; otherwise all rows are appended in order and counted, or a rejected INSERT rolls back and nothing is appended |
| ConsultaPresencaRepo.PresencaTable.SaveConsultaPresencaResults | src/consultaPresencaRepo.js:116-125 | the rows with a CPF are appended and counted as inserted, the rest counted as skipped; a failure changes nothing |
| Processor.NormalizeHeaderShape | src/processor.js:70-74 | a normalised header has no white space at either end and is no longer than its input |
| Processor.NormalizeHeaderIdempotent | src/processor.js:70-74 | normalising a header twice gives the same result as once |
| Processor.MissingColumns | src/processor.js:77-78 | exactly the required columns absent after normalisation, in the order CPF, NOME, TELEFONE |
| Processor.Absent | src/processor.js:78 | the filtered list is no longer than the column list |
| Processor.AbsentMembers | src/processor.js:78 | the filter keeps exactly the columns not present |
| Processor.AbsentKeepsOrder | src/processor.js:78 | the filter keeps the order of the column list |
| Processor.BeforeInTail | src/processor.js:78 | an order between two elements of the tail holds in the whole list |
| Processor.HeadBefore | src/processor.js:78 | the head of a list comes before every element of its tail |
| Processor.AssertRequiredColumns | src/processor.js:76-84 | passes exactly when every required column is present; otherwise the message lists the missing ones in order |
| Processor.HeaderValueIsLastMatch | src/processor.js:89-91 | a later raw key that normalises to the same header overwrites an earlier one |
| Processor.NormalizedRecordLookup | src/processor.js:88-95 | reading a normalised column gives the value of the last raw key normalising to it, or "" |
| Processor.NormalizeKeys | src/processor.js:88-91 | the `forEach` fills a record in which every column reads as its last matching raw key |
| Processor.MapIndexedAt | src/processor.js:87 | the i-th mapped element is the function of the i-th input and its position |
| Processor.MapToClientRows | src/processor.js:86-98 | the same number of rows, in order, each one the normalised CPF, name and phone of its columns |
| Processor.MapClientRow | src/processor.js:87-97 | one record gives the client of its normalised columns |
| Processor.ParseInputRowsFromUpload | src/processor.js:133-147 | a file name not ending in .csv or .xlsx (case-insensitive) is refused; the parser matches the extension and its error is passed on for either kind; an empty result is refused |
| Processor.FirstEligible | src/processor.js:225 | the first link with `elegivel === true`, if there is one |
| Processor.ChooseVinculo | src/processor.js:223-225 | the first eligible link, else the first link, and none only for an empty list |
| Processor.TabelasFailureMessage | src/processor.js:282-286 | the `errors` joined with a vertical-bar separator when present, else the status |
| Processor.FullLog | src/processor.js:174-278 | one log entry per step, in the order the chain attempts them |
| Processor.RunSteps | src/processor.js:174-287 | the first entry is the login; OK exactly when every partner step passes, and exactly when the tables step answered 200 |
| Processor.RunStepsLogOrder | src/processor.js:174-278 | the log is a prefix of the step order, and the whole of it for a successful chain |
| Processor.RunStepsLogOk | src/processor.js:176-246 | every step logged before the last one succeeded |
| Processor.RunStepsOkMessage | src/processor.js:279-281 | a successful chain says "Fluxo completo OK" |
| Processor.RunStepsMessage | src/processor.js:176-286 | a failed chain carries the message of the step it stopped at |
| Processor.RunStepsRecords | src/processor.js:215-277 | the chosen link is recorded once the links step answered 200; the tables body and margin once the tables step ran |
| Processor.ProcessClient | src/processor.js:149-288 | an invalid CPF gives ERRO "CPF invalido" with no step attempted; the fields are normalised with the phone fallback; OK exactly when every step passes |
| Processor.ProcessCsvBatch | src/processor.js:318-330 | one result per row, in order, each `processClient` of its row |
| Processor.FlattenApi5 | src/processor.js:33-60 | every row carries the base columns; one row per offer of a 200 array body, otherwise one base row |
| PresencaClient.AttemptCount | src/presencaClient.js:7 | `max(1, retries + 1)` |
| PresencaClient.Pow2 | src/presencaClient.js:20 | a power of two is at least 1 |
| PresencaClient.FirstAnswer | src/presencaClient.js:9-18 | the first attempt in range that got an HTTP answer, with every earlier one unanswered |
| PresencaClient.PostWithRetry | src/presencaClient.js:6-30 | the first answer (success or HTTP error) is returned as is after exactly that many attempts; waits of `retryDelayMs * 2^(k-1)` follow each unanswered attempt but the last; all unanswered gives status 0 |
| PresencaClient.Needle | src/presencaClient.js:76 | the needle ends with the authorisation id when there is one, else it is the generic path |
| PresencaClient.TermoAccepted | src/presencaClient.js:77 | accepted exactly when some recorded PUT with a 2xx status has a URL containing the needle |
| PresencaClient.IncludesPrefix | src/presencaClient.js:77 | a text containing `a + b` contains `a` |
| PresencaClient.AcceptedForIdIsAccepted | src/presencaClient.js:76-77 | acceptance for a specific id implies acceptance for the generic path |
| ConsultationQueue.Tickets | src/consultationQueue.js:5-23 | the tickets 0 … n−1 in submission order |
| ConsultationQueue.Submit | src/consultationQueue.js:5-23 | a non-function is refused with the lane unchanged; otherwise `waiting` grows by one and the new ticket is queued last |
| ConsultationQueue.Begin | src/consultationQueue.js:11-13 | once the previous task has settled the head ticket starts and `running` is set; otherwise nothing happens |
| ConsultationQueue.Settle | src/consultationQueue.js:14-18 | the running task takes its outcome and `running` is cleared |
| ConsultationQueue.Stats | src/consultationQueue.js:25-30 | the pair (`running`, `waiting`); for a lane keeping its invariant, running exactly when a task is in flight and waiting the number of queued tasks |
| ConsultationQueue.InitialInv | src/consultationQueue.js:1-3 | the empty lane satisfies the invariant |
| ConsultationQueue.SubmitKeepsInv | src/consultationQueue.js:10-22 | a submit keeps the invariant |
| ConsultationQueue.BeginKeepsInv | src/consultationQueue.js:12 | a start keeps the invariant, and `waiting` drops by exactly one (the clamp never bites) |
| ConsultationQueue.SettleKeepsInv | src/consultationQueue.js:16-18 | settling keeps the invariant |
| ConsultationQueue.OutcomesAreFinal | src/consultationQueue.js:15-22 | a recorded outcome is never changed by later events, so each submit settles with its own task's outcome |
| ConsultationQueue.BeginIsFifo | src/consultationQueue.js:11-21 | tasks start in submission order, and only after every earlier task has settled |
| ConsultationQueue.RejectionDoesNotStopLane | src/consultationQueue.js:21 | after a rejection the next queued task can start |
| ConsultationQueue.ConsultationLane.constructor | src/consultationQueue.js:1-3 | the lane starts empty and satisfies the lane invariant |
| ConsultationQueue.ConsultationLane.RunInConsultationQueue | src/consultationQueue.js:5-23 | the lane's fields become `Submit` of the old state, and the ticket is returned; the lane invariant is kept |
| ConsultationQueue.ConsultationLane.StartNext | src/consultationQueue.js:11-13 | the lane becomes `Begin` of the old state; the lane invariant is kept |
| ConsultationQueue.ConsultationLane.SettleCurrent | src/consultationQueue.js:14-18 | the lane becomes `Settle` of the old state; the lane invariant is kept |
| ConsultationQueue.ConsultationLane.GetConsultationQueueStats | src/consultationQueue.js:25-30 | returns `running` and `waiting` |
| StatusTracker.RoundDiv | src/statusTracker.js:40 | `Math.round(e / p)`: the integer nearest to e / p, halves rounded up |
| StatusTracker.RemainingItems | src/statusTracker.js:41 | `max(0, total - processed)` |
| StatusTracker.UpdateEta | src/statusTracker.js:33-44 | elapsed time set; with nothing processed the average and estimate are null, otherwise estimate = items left × rounded average; nothing else changes |
| StatusTracker.NewJob | src/statusTracker.js:10-31 | a running job with zero counters, no finish time and no error |
| StatusTracker.MarkProgressJob | src/statusTracker.js:46-55 | a non-running job is unchanged; otherwise processed + 1, ok or error + 1 exactly for `true` or `false`, skips added, last error replaced only by a truthy message; id, type, start, end and total kept; elapsed time, average and estimate recomputed as `updateEta` does |
| StatusTracker.MarkSkippedJob | src/statusTracker.js:57-62 | a non-running job is unchanged; otherwise the count is added to `skipped`, every other counter, id, type, start, end, total and last error are kept, and elapsed time, average and estimate are recomputed as `updateEta` does |
| StatusTracker.FinishJobValue | src/statusTracker.js:64-76 | a truthy error makes the job an error from any status; otherwise running becomes done and other statuses stay; finish time set, estimate 0, counters, id, type, start and total kept; the elapsed time and average recomputed as `updateEta` does |
| StatusTracker.CountersStayConsistent | src/statusTracker.js:10-76 | every operation keeps okCount + errorCount ≤ processed |
| StatusTracker.FinishedJobIsFrozen | src/statusTracker.js:46-62 | a finished job is not running, so later progress and skips leave it as it is |
| StatusTracker.EtaWhenAllProcessed | src/statusTracker.js:40-42 | once every item is processed the estimate is 0 ms |
| StatusTracker.JobTracker.constructor | src/statusTracker.js:3-4 | no jobs and no current job |
| StatusTracker.JobTracker.CreateJob | src/statusTracker.js:10-31 | stores a fresh running job under the id and makes it the current job |
| StatusTracker.JobTracker.MarkProgress | src/statusTracker.js:46-55 | a missing job is ignored; otherwise the job becomes `MarkProgressJob` of it |
| StatusTracker.JobTracker.MarkSkipped | src/statusTracker.js:57-62 | a missing job is ignored; otherwise the job becomes `MarkSkippedJob` of it |
| StatusTracker.JobTracker.FinishJob | src/statusTracker.js:64-76 | a missing job is ignored; otherwise the job becomes `FinishJobValue` of it |
| StatusTracker.JobTracker.GetJob | src/statusTracker.js:78-80 | the stored job exactly when the id is known |
| StatusTracker.JobTracker.GetCurrentJob | src/statusTracker.js:82-85 | the most recently created job, or null before the first one |
| ConsultDayResetMonitor.EnvFilter | src/consultDayResetMonitor.js:15-16 | an unset or empty variable means no filter, else the value |
| ConsultDayResetMonitor.ResetEnabled | src/consultDayResetMonitor.js:4 | enabled exactly when the variable reads "true" ignoring case; disabled when unset |
| ConsultDayResetMonitor.ResetEnabledExamples | src/consultDayResetMonitor.js:4 | "true", "TRUE" and "True" enable; "false", "1" and "" do not |
| ConsultDayResetMonitor.ResetMonitor.constructor | src/consultDayResetMonitor.js:3-7 | no cycle running, no timer, and the enabled flag read from the environment once |
| ConsultDayResetMonitor.ResetMonitor.BeginCycle | src/consultDayResetMonitor.js:10-11 | a no-op while a cycle runs, otherwise the flag is set |
| ConsultDayResetMonitor.ResetMonitor.FinishCycle | src/consultDayResetMonitor.js:13-30 | the sweep runs with the login and password filters the environment holds at this cycle, or the store's error is swallowed with nothing changed; the flag is cleared either way |
| ConsultDayResetMonitor.ResetMonitor.RunConsultDayResetCycle | src/consultDayResetMonitor.js:9-31 | nothing while another cycle runs; otherwise one sweep (or none on error) and the flag ends cleared |
| ConsultDayResetMonitor.ResetMonitor.Start | src/consultDayResetMonitor.js:33-59 | an existing timer is returned with nothing new; disabled returns null with no timer; otherwise a first cycle starts and the new timer is kept |
| ConsultDayResetMonitor.ResetMonitor.Stop | src/consultDayResetMonitor.js:61-65 | afterwards no timer is set; a cycle in flight is not touched |
| ConsultDayResetMonitor.StartIsIdempotent | src/consultDayResetMonitor.js:34 | starting twice returns the same handle, the first one |
| PendingQueue.WithStatus | src/pendingMonitor.js:129-162 | only the named row changes: its status, and its message when one is given |
| PendingQueue.LeavingPending | src/pendingMonitor.js:125 | moving a pending row to another status removes exactly that row from the pending set |
| PendingQueue.StayingOutOfPending | src/pendingMonitor.js:156-160 | re-marking a non-pending row to a non-pending status keeps the pending set |
| PendingQueue.OutsideProcessing | src/pendingMonitor.js:90-95 | a change that neither starts nor ends in progress keeps the in-progress set |
| PendingQueue.WithStatusTwice | src/pendingMonitor.js:156-160 | a second status change with a message overrides the first |
| PendingQueue.ClaimThenRevert | src/pendingMonitor.js:125-133 | claiming a pending row and setting it back to pending restores the table |
| PendingQueue.QueueTable.constructor | src/pendingMonitor.js:5-8 | the store starts with the given rows |
| PendingQueue.QueueTable.ListPending | src/pendingMonitor.js:117 | at most `limit` distinct pending rows as stored, and at least one when one is pending and the limit allows |
| PendingQueue.QueueTable.Claim | src/pendingMonitor.js:125-126 | a pending row is returned and marked in progress; otherwise null and nothing changes |
| PendingQueue.QueueTable.MarkStatus | src/pendingMonitor.js:129-162 | a stored row gets the status (and message); an unknown id changes nothing |
| PendingQueue.QueueTable.Replace | src/pendingMonitor.js:90-95 | the row gets its final status and message, or the store fails and nothing changes |
| PendingMonitor.NormalizeReason | src/pendingMonitor.js:42 | the trimmed reason, or the default when it is absent or blank; never empty or padded |
| PendingMonitor.Paused | src/pendingMonitor.js:41-50 | paused with the normalised reason; `pausedAt` set only by the first pause; nothing else changes |
| PendingMonitor.Resumed | src/pendingMonitor.js:52-58 | a paused monitor is unpaused with no reason and a resume time; an unpaused one is unchanged |
| PendingMonitor.PauseResumeRoundTrip | src/pendingMonitor.js:41-58 | pausing twice keeps the first pause time; resuming clears the reason and records the resume |
| PendingMonitor.LoginFor | src/pendingMonitor.js:136 | the row's own login when it has one, else the default login |
| PendingMonitor.QueueStatusFor | src/pendingMonitor.js:89 | "Concluido" exactly for an OK result, "Erro" otherwise |
| PendingMonitor.FinalMark | src/pendingMonitor.js:89-162 | Concluido exactly for an OK workflow; Limite exactly for a quota refusal; Erro otherwise, with the workflow's or the error's message |
| PendingMonitor.RowOutcome | src/pendingMonitor.js:65-98 | a quota refusal is the ledger's own error; a success drew one unit within the ceiling |
| PendingMonitor.QuotaGatesWorkflow | src/pendingMonitor.js:69-76 | a row the quota refuses never reaches the workflow: its outcome is independent of the partner's replies |
| PendingMonitor.TallyKeepsBalance | src/pendingMonitor.js:144-162 | settling a claimed row keeps the cycle counters balanced |
| PendingMonitor.Monitor.constructor | src/pendingMonitor.js:11-23 | unpaused, no cycle running, with the configured poll interval, batch size and credentials |
| PendingMonitor.Monitor.GetPendingMonitorState | src/pendingMonitor.js:25-35 | returns the pause state, the running flag and the configuration |
| PendingMonitor.Monitor.BeginCycle | src/pendingMonitor.js:101-103 | a cycle starts exactly when the monitor is neither paused nor already running one |
| PendingMonitor.Monitor.PausePendingMonitor | src/pendingMonitor.js:41-50 | the state becomes `Paused` of the old one and is returned |
| PendingMonitor.Monitor.ResumePendingMonitor | src/pendingMonitor.js:52-63 | the state becomes `Resumed` of the old one, and a cycle is in flight afterwards |
| PendingMonitor.Monitor.Checkpoint | src/pendingMonitor.js:116-129 | the next scripted pause or resume, if any, takes effect before the flag is read; with no pause call in the script an unpaused monitor stays unpaused |
| PendingMonitor.Monitor.ProcessPendingRow | src/pendingMonitor.js:65-98 | one unit is consumed for the row's login first; the workflow runs and the row is replaced only when that succeeds |
| PendingMonitor.Monitor.SettleClaimed | src/pendingMonitor.js:135-163 | a claimed row gets its final mark whether processing succeeds or throws |
| PendingMonitor.Monitor.HandleRow | src/pendingMonitor.js:124-163 | a row whose claim fails is skipped untouched; a pause after the claim sets it back to pending; otherwise it is settled and leaves the pending set; other rows are untouched and the counters stay balanced; with no pause call in the script the row is never handed back |
| PendingMonitor.Monitor.ProcessBatch | src/pendingMonitor.js:123-164 | the first `handled` rows are settled with a final status and the rest are exactly as before (still pending); the pending set shrinks by `handled`; the batch stops early only when paused, and with no pause call in the script every row is settled; no row is left in progress and the counters stay balanced |
| PendingMonitor.Monitor.CycleBody | src/pendingMonitor.js:114-176 | the cycle re-lists until the list is empty or the monitor is paused; then no row is in progress and the flag is cleared |
| PendingMonitor.Monitor.RunPendingCycle | src/pendingMonitor.js:100-177 | nothing happens when paused or while another cycle runs; otherwise a whole cycle, after which the flag is clear and, unless paused, no row is pending |
| PendingMonitor.SettledRowLeavesQueue | src/pendingMonitor.js:135-163 | a settled row leaves the pending set and the in-progress set is unchanged |
| Server.OrDefault | src/server.js:94-95 | an empty field takes the configured default |
| Server.AutoAcceptFlag | src/server.js:179 | headless acceptance is off exactly for a spelling of "false"; on when absent |
| Server.FileNameValue | src/server.js:142 | the trimmed file name field, else the trimmed original name, else "Arquivo em lote" |
| Server.SelectRows | src/server.js:103-107 | with a positive sample size below the row count, that many rows drawn from the file; otherwise every row |
| Server.KeptPositions | src/server.js:109-115 | the kept positions are increasing and in range |
| Server.KeptPositionsExact | src/server.js:110-115 | a position is kept exactly when its row has no CPF or is the first with its CPF |
| Server.UniqueRowsHaveDistinctCpfs | src/server.js:109-115 | no two kept rows share a non-empty CPF |
| Server.FirstOccurrenceExists | src/server.js:111-114 | every row's CPF first occurs at a kept position at or before it |
| Server.UniqueRowsKeepEveryCpf | src/server.js:109-115 | every CPF of the input is kept, and every row without a CPF is kept |
| Server.DedupByCpf | src/server.js:109-115 | the `seenInFile` loop yields exactly the first-occurrence rows in order |
| Server.CpfsToCheck | src/server.js:118 | exactly the non-empty CPFs of the kept rows |
| Server.NotConsultedToday | src/server.js:120 | never longer than its input |
| Server.NotConsultedTodayAppend | src/server.js:120 | filtering a concatenation is concatenating the filtered parts, so the kept rows keep their order and repeats |
| Server.NotConsultedTodayMembers | src/server.js:120 | the filter keeps exactly the rows with no CPF or a CPF not consulted today |
| Server.OnlyCheckedCpfsMatter | src/server.js:118-120 | only the store's answer about the CPFs asked for affects the filter |
| Server.NarrowerAnswer | src/server.js:118-120 | two answers that agree on the CPFs asked about filter alike |
| Server.SelectRowsToProcess | src/server.js:103-121 | sample, de-duplicate and filter; the rows processed plus the two skip counts equal the rows selected, and every processed row is a file row not consulted today |
| Server.CountOk | src/server.js:193 | no more than the results, and 0 exactly when every result is an error |
| Server.CountOkAppend | src/server.js:193 | the OK count of a concatenation is the sum of the parts' counts, so with the one-result case it is the number of OK results |
| Server.RunBatch | src/processor.js:318-330 | `processCsvBatch` of the rows to process, with no sample |
| Server.AdmittedJobCounts | src/server.js:122-123 | the job counts the rows to process as its total and every dropped row as skipped; nothing is processed yet |
| Server.AdmittedJobCloses | src/server.js:122-126 | closing the admitted job keeps its counts; without an error it is done |
| Server.AdmitSelection | src/server.js:122-123 | `createJob` then `markSkipped`: the admitted job is stored and becomes current |
| Server.BatchAnsweredCloses | src/server.js:156-206 | the quota is drawn for exactly the rows to process; the job ends closed; a 200 answer reports the results, okCount + erroCount = rows processed, and the skip counts |
| Server.RunSelection | src/server.js:125-206 | with nothing to process the job is closed at once, nothing is enqueued and quota and store are untouched; otherwise the selected rows are enqueued and the batch runs; the job ends closed, and done unless the answer is an error |
| Server.RunAdmitted | src/server.js:144-206 | the batch part for a just-admitted job: the selected rows are enqueued, then the quota step, the batch and the save, and the job ends closed |
| Server.ProcessCsvUpload | src/server.js:87-214 | no file, a rejected file and more than 1000 rows answer 400, enqueue nothing and touch nothing; otherwise the job is created for the selected rows, exactly those rows are enqueued (also when the quota then refuses), and the job ends closed |
| Server.ProcessRows | src/server.js:103-206 | selection, job creation and the rest of the route for a file within the limit; exactly the selected rows are enqueued |
| Server.RunCsvBatch | src/server.js:144-206 | the rows to process are enqueued, and stay enqueued when the quota refuses; the quota is consumed for exactly that many; a refusal closes the job and answers; otherwise the results are saved and the job closed |
| Server.RefusalOf | src/server.js:165-174 | a quota refusal answers 403 with the limit's figures; any other rejection answers 500 |
| Server.RefuseBatch | src/server.js:165-212 | the job is closed with the rejection's message and the answer is `RefusalOf` |
| Server.FinishBatch | src/server.js:187-206 | the results are saved; a save failure answers 500; otherwise the answer reports the OK and error counts; the job is closed |
| Server.CloseMessage | src/server.js:194-208 | the job is closed with a message exactly when the answer is a 500 |

## Left out

- Express, multer and HTTP glue are not modelled. This covers the health and status routes (`src/server.js:21-39`), `app.listen` and its logs (`src/server.js:216-221`). `src/server.individual.js` and `src/db.js` are not part of this model.
- The individual route (`POST /api/process/individual`, `src/server.js:41-85`) is not modelled. It is the CSV route's quota, workflow and save steps for one client.
- The CSV route's outer `catch` is modelled only for validation errors, which arise before the job exists (400). An unexpected exception from the parser, the store or a library (500) is not modelled, except for the rejections of the quota step and the save.
- `insertPendingConsultaPresenca` and `getConsultedCpfsTodayByLogin` are not defined in the source files modelled here. The route methods give the rows they enqueue as an extra result, which the HTTP answer does not carry; the answer about the consulted CPFs is a parameter.
- Server.ProcessCsvUpload: `stepDelayMs` and `produtoId` are passed through to the workflow and left out, as is the `createdAt` timestamp. `produtoId` only reaches the request payloads of the consent and simulation steps (see the next line).
- Processor.ProcessClient: a log entry keeps only its step, status and `ok` flag. The logged request payloads (which carry `produtoId` and the margin-based simulation body), the logged response bodies and the result's `original` input are not modelled, so the answer's `results` omit them.
- Processor.ProcessCsvBatch: random sampling is not modelled (the route always passes `randomRows: 0`). The delay between steps is not modelled. The `onItemProcessed` callback is never invoked by the source, so it is not modelled either. This is why the job's `processed` count stays 0 on the route's jobs.
- `saveConsultaPresencaResults` ignores its `status`, `mensagem` and `createdAt` options, and the model does too.
- ConsultaPresencaRepo.PresencaTable.InsertConsultaPresencaRows: the column types of the SQL request and the date columns are not modelled. A rejected insert is given by the index at which the store fails.
- ConsultDayRepo.ConsultDayTable.ConsumeConsultDay: isolation levels and lock hints are not modelled, only the sequential all-or-nothing effect. The identity seed advances even when the transaction rolls back, as in SQL Server. The environment variable `CONSULT_DAY_TOTAL` is not read: `DefaultTotalLimit` is 1000, its fallback when unset (`src/consultDayRepo.js:3`).
- ConsultDayRepo.ResetSnapshots: the records come in table order. SQL Server does not promise an order for the rows of an `OUTPUT` clause, so the model fixes one the source does not.
- ConsultDayRepo.Consume: dates are whole day numbers. Timestamp precision and `SYSDATETIME()` are not modelled; the current day is a parameter.
- The reset sweep's and the pending monitor's console logs, and the stats log line, are not modelled.
- PendingQueue.QueueTable.ListPending: the order and fairness of the listing, claim locking, and the replace's sibling-row upsert are not defined in the source files modelled here. They are given only the contracts the monitor relies on.
- PendingMonitor.Monitor.CycleBody: the outer `catch` of a cycle (`src/pendingMonitor.js:166-168`) is not modelled, because listing and marking cannot fail in the model. The cycle terminates here because every handled row leaves "Pendente". In the real service, repeated null claims could make the outer loop spin.
- PendingMonitor.Monitor.ProcessPendingRow: `runInConsultationQueue` is not threaded through the monitor. The lane is modelled on its own in `ConsultationQueue`, and the monitor runs its one task to completion. The two-second step delay is not modelled.
- `startPendingMonitor` and `isPendingMonitorPaused` are not modelled. They are a `setInterval` wrapper and a field read.
- Timers are abstract handles: `setInterval` and `clearInterval` only set and clear the handle. The poll interval has no effect in the model.
- PresencaClient.PostWithRetry: the waits are recorded, not slept. The request's timeout and headers are not modelled. Each attempt's outcome is an input.
- PresencaClient.TermoAccepted: only the acceptance predicate is modelled. The browser session that records the calls (Playwright) is an input.
- The partner API's replies, the headless acceptance and the random fallback phone number (`generateRandomTelefone`) are inputs of the workflow.
- Processor.ParseInputRowsFromUpload: parsing CSV and XLSX bytes (csv-parse, XLSX) is not modelled. What each parser returns for the file is an input, and the header check is modelled separately. `saveResultsFile` and `nowFileStamp` write or name files and are not modelled.
- Utils.NormalizeNomeShape: NFD decomposition is not modelled; the name is taken as already decomposed. `toUpperCase` and `toLowerCase` map ASCII letters only, so Unicode case mapping is not captured.
- StatusTracker.UpdateEta: times are integer milliseconds passed in, not ISO strings. `Math.round` is modelled for a positive divisor only, which is the only case the source reaches.
- JsString: a string is a sequence of Unicode characters. JavaScript's `length`, `slice` and `padStart` count UTF-16 code units, so for characters outside the Basic Multilingual Plane the lengths and cut points differ (for example the cut of `toVarcharOrNull` to the column width, `src/consultaPresencaRepo.js:13`); the model does not capture that.
- PendingMonitor.Monitor.Checkpoint: at most one pause or resume call takes effect between two reads of the pause flag. Several calls during one `await` (a pause and a resume together, say) are not modelled.
- Dynamic JavaScript values are given their JSON type. Coercions of other types (numbers passed where text is expected, objects as messages) are not modelled.
