/**
 * The CSV upload route of `src/server.js` (`POST /api/process/csv`): the row
 * limit, the optional random sample, the in-file de-duplication by CPF, the
 * filter against the CPFs already consulted today, the skip counts, and then
 * the job, the pending rows, the quota step, the batch and its persistence.
 *
 * The request is given already parsed (`parsed` is what
 * `parseInputRowsFromUpload` returned for the uploaded file), the random
 * shuffle is a parameter `shuffled`, the answer of
 * `getConsultedCpfsTodayByLogin` is a parameter `consulted`, and the job id
 * drawn by `randomUUID` and the clock are parameters.
 */
module Server {
  import opened Wrappers
  import opened JsString
  import opened Processor
  import opened ConsultDayRepo
  import opened StatusTracker
  import opened ConsultaPresencaRepo

  /** `MAX_CSV_ROWS`. */
  const MaxCsvRows: nat := 1000

  const NothingToProcessText :=
    "Nenhum registro para processar. Todos os CPFs ja foram consultados hoje para este login."
  const NoFileText := "Envie um arquivo CSV (;) ou XLSX no campo file"
  const DefaultFileName := "Arquivo em lote"
  const BatchJobType := "lote"

  /** The 400 message for a file over the row limit. */
  function RowLimitMessage(count: nat): string {
    "Arquivo possui " + NatToString(count) + " registros. O limite maximo e " + NatToString(MaxCsvRows) + "."
  }

  /** `String(value || fallback)`: an absent or empty field takes the configured default. */
  function OrDefault(value: string, fallback: string): (r: string)
    ensures value != "" ==> r == value
    ensures value == "" ==> r == fallback
  {
    if value == "" then fallback else value
  }

  /** `String(autoAcceptHeadless).toLowerCase() !== "false"`: only a spelling of "false" turns it off. */
  function AutoAcceptFlag(field: string): (on: bool)
    ensures on <==> ToLower(field) != "false"
    ensures field == "" ==> on
  {
    ToLower(field) != "false"
  }

  /** `String(req.body?.fileName || req.file?.originalname || "Arquivo em lote").trim()`. */
  function FileNameValue(fileName: string, originalName: string): (name: string)
    ensures fileName != "" ==> name == Trim(fileName)
    ensures fileName == "" && originalName != "" ==> name == Trim(originalName)
    ensures fileName == "" && originalName == "" ==> name == DefaultFileName
  {
    var chosen := if fileName != "" then fileName else if originalName != "" then originalName else DefaultFileName;
    assert Trim(DefaultFileName) == DefaultFileName by {
      assert TrimStart(DefaultFileName) == DefaultFileName;
      assert TrimEnd(DefaultFileName) == DefaultFileName;
    }
    Trim(chosen)
  }

  // ---------------------------------------------------------------------------
  // Sampling

  /**
   * `selectedRows`: with a positive `randomRows` below the row count, the
   * first `randomRows` rows of a random shuffle of the rows; otherwise all of
   * them. `shuffled` is the order the shuffle produced.
   */
  function SelectRows(rows: seq<ClientRow>, randomRows: int, shuffled: seq<ClientRow>): (selected: seq<ClientRow>)
    requires multiset(shuffled) == multiset(rows)
    ensures randomRows > 0 && |rows| > randomRows ==> |selected| == randomRows && multiset(selected) <= multiset(rows)
    ensures !(randomRows > 0 && |rows| > randomRows) ==> selected == rows
  {
    if randomRows > 0 && |rows| > randomRows then
      assert |shuffled| == |multiset(rows)| == |rows|;
      assert shuffled == shuffled[..randomRows] + shuffled[randomRows..];
      assert multiset(shuffled) == multiset(shuffled[..randomRows]) + multiset(shuffled[randomRows..]);
      shuffled[..randomRows]
    else rows
  }

  // ---------------------------------------------------------------------------
  // In-file de-duplication

  /** Row `i` has no CPF, or no earlier row has its CPF: the rows the de-duplication keeps. */
  predicate FirstOfItsCpf(rows: seq<ClientRow>, i: nat)
    requires i < |rows|
  {
    rows[i].cpf == "" || forall j :: 0 <= j < i ==> rows[j].cpf != rows[i].cpf
  }

  /** The positions among the first `n` rows that the de-duplication keeps, in increasing order. */
  function KeptPositions(rows: seq<ClientRow>, n: nat): (ps: seq<nat>)
    requires n <= |rows|
    ensures |ps| <= n
    ensures forall k :: 0 <= k < |ps| ==> ps[k] < n
    ensures forall k, l :: 0 <= k < l < |ps| ==> ps[k] < ps[l]
  {
    if n == 0 then []
    else
      var ps := KeptPositions(rows, n - 1);
      if FirstOfItsCpf(rows, n - 1) then ps + [n - 1] else ps
  }

  /** A position is kept exactly when its row is the first with its CPF or has none. */
  lemma {:induction false} KeptPositionsExact(rows: seq<ClientRow>, n: nat)
    requires n <= |rows|
    ensures forall i :: 0 <= i < n ==> (i in KeptPositions(rows, n) <==> FirstOfItsCpf(rows, i))
  {
    if n > 0 {
      KeptPositionsExact(rows, n - 1);
      var ps := KeptPositions(rows, n - 1);
      assert n - 1 !in ps;
    }
  }

  /** The rows at the kept positions, in their order. */
  function UniqueRows(rows: seq<ClientRow>): seq<ClientRow> {
    var ps := KeptPositions(rows, |rows|);
    seq(|ps|, k requires 0 <= k < |ps| => rows[ps[k]])
  }

  /** No two kept rows share a non-empty CPF. */
  lemma UniqueRowsHaveDistinctCpfs(rows: seq<ClientRow>)
    ensures var u := UniqueRows(rows);
      forall a, b :: 0 <= a < b < |u| && u[a].cpf != "" ==> u[a].cpf != u[b].cpf
  {
    var ps := KeptPositions(rows, |rows|);
    var u := UniqueRows(rows);
    KeptPositionsExact(rows, |rows|);
    forall a, b | 0 <= a < b < |u| && u[a].cpf != ""
      ensures u[a].cpf != u[b].cpf
    {
      assert ps[b] in ps;
      assert FirstOfItsCpf(rows, ps[b]);
      assert ps[a] < ps[b];
    }
  }

  /** Some row with the CPF of row `i` is kept, at or before `i`. */
  lemma {:induction false} FirstOccurrenceExists(rows: seq<ClientRow>, i: nat) returns (j: nat)
    requires i < |rows|
    ensures j <= i && rows[j].cpf == rows[i].cpf && FirstOfItsCpf(rows, j)
    decreases i
  {
    if FirstOfItsCpf(rows, i) {
      j := i;
    } else {
      var earlier :| 0 <= earlier < i && rows[earlier].cpf == rows[i].cpf;
      j := FirstOccurrenceExists(rows, earlier);
    }
  }

  /**
   * The de-duplication drops no CPF and no row without a CPF: every CPF of the
   * input is the CPF of a kept row, and every row without a CPF is kept.
   */
  lemma UniqueRowsKeepEveryCpf(rows: seq<ClientRow>)
    ensures var u := UniqueRows(rows);
      && (forall i :: 0 <= i < |rows| ==> exists k :: 0 <= k < |u| && u[k].cpf == rows[i].cpf)
      && (forall i :: 0 <= i < |rows| && rows[i].cpf == "" ==> rows[i] in u)
  {
    var ps := KeptPositions(rows, |rows|);
    var u := UniqueRows(rows);
    KeptPositionsExact(rows, |rows|);
    forall i | 0 <= i < |rows|
      ensures exists k :: 0 <= k < |u| && u[k].cpf == rows[i].cpf
      ensures rows[i].cpf == "" ==> rows[i] in u
    {
      var j := FirstOccurrenceExists(rows, i);
      assert j in ps;
      var k :| 0 <= k < |ps| && ps[k] == j;
      assert u[k] == rows[j];
      if rows[i].cpf == "" {
        assert FirstOfItsCpf(rows, i) && i in ps;
        var m :| 0 <= m < |ps| && ps[m] == i;
        assert u[m] == rows[i];
      }
    }
  }

  /** The non-empty CPFs among the first `n` rows: what `seenInFile` holds after `n` rows. */
  function SeenCpfs(rows: seq<ClientRow>, n: nat): set<string>
    requires n <= |rows|
  {
    set j | 0 <= j < n && rows[j].cpf != "" :: rows[j].cpf
  }

  /**
   * `selectedRows.filter(...)` with the `seenInFile` set: a row without a CPF
   * is kept, a row whose CPF was seen is dropped, any other row is kept and
   * its CPF remembered.
   */
  method DedupByCpf(selected: seq<ClientRow>) returns (unique: seq<ClientRow>)
    ensures unique == UniqueRows(selected)
  {
    var seen: set<string> := {};
    unique := [];
    var i := 0;
    while i < |selected|
      invariant 0 <= i <= |selected|
      invariant seen == SeenCpfs(selected, i)
      invariant |unique| == |KeptPositions(selected, i)|
      invariant forall k :: 0 <= k < |unique| ==> unique[k] == selected[KeptPositions(selected, i)[k]]
    {
      var row := selected[i];
      if row.cpf == "" {
        unique := unique + [row];
      } else if row.cpf in seen {
        assert !FirstOfItsCpf(selected, i);
      } else {
        assert FirstOfItsCpf(selected, i);
        unique := unique + [row];
        seen := seen + {row.cpf};
      }
      i := i + 1;
    }
    var ps := KeptPositions(selected, |selected|);
    assert forall k :: 0 <= k < |unique| ==> unique[k] == UniqueRows(selected)[k];
  }

  // ---------------------------------------------------------------------------
  // The consulted-today filter

  /** `uniqueRows.map((r) => r.cpf).filter(Boolean)`: what the route asks the store about. */
  function CpfsToCheck(rows: seq<ClientRow>): (cpfs: seq<string>)
    ensures forall c :: c in cpfs <==> c != "" && exists i :: 0 <= i < |rows| && rows[i].cpf == c
  {
    if rows == [] then []
    else
      var rest := CpfsToCheck(rows[..|rows| - 1]);
      var last := rows[|rows| - 1];
      assert forall i :: 0 <= i < |rows| - 1 ==> rows[..|rows| - 1][i] == rows[i];
      if last.cpf == "" then rest else rest + [last.cpf]
  }

  /** A row the consulted-today filter lets through: no CPF, or a CPF not consulted today. */
  predicate Pending(row: ClientRow, consulted: set<string>) {
    row.cpf == "" || row.cpf !in consulted
  }

  /** `uniqueRows.filter((r) => !r.cpf || !consultedToday.has(r.cpf))`. */
  function NotConsultedToday(rows: seq<ClientRow>, consulted: set<string>): (out: seq<ClientRow>)
    ensures |out| <= |rows|
  {
    if rows == [] then []
    else
      var rest := NotConsultedToday(rows[..|rows| - 1], consulted);
      var last := rows[|rows| - 1];
      if Pending(last, consulted) then rest + [last] else rest
  }

  /** The filter works piece by piece, so the kept rows keep their order and repeats. */
  lemma {:induction false} NotConsultedTodayAppend(a: seq<ClientRow>, b: seq<ClientRow>, consulted: set<string>)
    ensures NotConsultedToday(a + b, consulted) == NotConsultedToday(a, consulted) + NotConsultedToday(b, consulted)
    decreases |b|
  {
    if b == [] {
      assert a + b == a;
    } else {
      var init := b[..|b| - 1];
      assert (a + b)[..|a + b| - 1] == a + init;
      assert (a + b)[|a + b| - 1] == b[|b| - 1];
      NotConsultedTodayAppend(a, init, consulted);
    }
  }

  /** The filter keeps exactly the rows it lets through. */
  lemma {:induction false} NotConsultedTodayMembers(rows: seq<ClientRow>, consulted: set<string>)
    ensures forall r :: r in NotConsultedToday(rows, consulted) <==> r in rows && Pending(r, consulted)
  {
    if rows != [] {
      var init := rows[..|rows| - 1];
      NotConsultedTodayMembers(init, consulted);
      assert rows == init + [rows[|rows| - 1]];
    }
  }

  /** Only the answer about the CPFs the route asked for matters. */
  lemma {:induction false} OnlyCheckedCpfsMatter(rows: seq<ClientRow>, consulted: set<string>)
    ensures NotConsultedToday(rows, consulted) == NotConsultedToday(rows, consulted * (set c | c in CpfsToCheck(rows)))
  {
    if rows != [] {
      var init := rows[..|rows| - 1];
      var last := rows[|rows| - 1];
      OnlyCheckedCpfsMatter(init, consulted);
      var asked := set c | c in CpfsToCheck(rows);
      var askedInit := set c | c in CpfsToCheck(init);
      assert askedInit <= asked;
      assert last.cpf != "" ==> last.cpf in asked;
      NarrowerAnswer(init, consulted * askedInit, consulted * asked);
    }
  }

  /** Two answers that agree on the CPFs asked about filter alike. */
  lemma {:induction false} NarrowerAnswer(rows: seq<ClientRow>, small: set<string>, large: set<string>)
    requires small <= large
    requires forall c :: c in large && c in CpfsToCheck(rows) ==> c in small
    ensures NotConsultedToday(rows, small) == NotConsultedToday(rows, large)
  {
    if rows != [] {
      var init := rows[..|rows| - 1];
      var last := rows[|rows| - 1];
      assert forall c :: c in CpfsToCheck(init) ==> c in CpfsToCheck(rows);
      NarrowerAnswer(init, small, large);
      assert last.cpf != "" ==> last.cpf in CpfsToCheck(rows);
    }
  }

  /** What the route keeps of a parsed file, and how many rows each filter dropped. */
  datatype Selection = Selection(toProcess: seq<ClientRow>, skippedInFile: nat, skippedToday: nat)

  /** The selection as a function of the parsed rows, the shuffle and the consulted-today answer. */
  function SelectionOf(rows: seq<ClientRow>, randomRows: int, shuffled: seq<ClientRow>, consulted: set<string>): Selection
    requires multiset(shuffled) == multiset(rows)
  {
    var selected := SelectRows(rows, randomRows, shuffled);
    var unique := UniqueRows(selected);
    var toProcess := NotConsultedToday(unique, consulted);
    Selection(toProcess, |selected| - |unique|, |unique| - |toProcess|)
  }

  /**
   * The route between parsing and the job: sample, de-duplicate and filter.
   * Every selected row is either processed or counted in one of the two skip
   * counts.
   */
  method SelectRowsToProcess(rows: seq<ClientRow>, randomRows: int, shuffled: seq<ClientRow>, consulted: set<string>)
    returns (sel: Selection)
    requires multiset(shuffled) == multiset(rows)
    ensures sel == SelectionOf(rows, randomRows, shuffled, consulted)
    ensures |sel.toProcess| + sel.skippedInFile + sel.skippedToday == |SelectRows(rows, randomRows, shuffled)|
    ensures forall r :: r in sel.toProcess ==> r in rows && Pending(r, consulted)
  {
    var selected := SelectRows(rows, randomRows, shuffled);
    var unique := DedupByCpf(selected);
    var toProcess := NotConsultedToday(unique, consulted);
    sel := Selection(toProcess, |selected| - |unique|, |unique| - |toProcess|);
    NotConsultedTodayMembers(unique, consulted);
    forall r | r in toProcess
      ensures r in rows
    {
      var k :| 0 <= k < |unique| && unique[k] == r;
      var ps := KeptPositions(selected, |selected|);
      assert r == selected[ps[k]] && r in multiset(selected);
    }
  }

  // ---------------------------------------------------------------------------
  // The route

  /** The body fields of the upload that shape the route; "" stands for an absent field. */
  datatype CsvRequest = CsvRequest(
    randomRows: int, autoAcceptHeadless: string, login: string, senha: string, fileName: string, originalName: string)

  /** The JSON answer of the route, one constructor per `res.json` it can send. */
  datatype CsvResponse =
    | BadRequest(error: string)
    | NothingToProcess(jobId: string, skippedInFile: nat, skippedToday: nat)
    | QuotaRefused(error: string, meta: LimitMeta)
    | ServerError(error: string)
    | Processed(jobId: string, okCount: nat, erroCount: nat, consultDay: ConsultDayRow, persisted: SaveCounts,
                skippedInFile: nat, skippedToday: nat, results: seq<ClientResult>)

  /** The HTTP status each answer is sent with. */
  function HttpStatus(r: CsvResponse): int {
    match r
    case BadRequest(_) => 400
    case QuotaRefused(_, _) => 403
    case ServerError(_) => 500
    case _ => 200
  }

  /** `results.filter((r) => r.final_status === "OK").length`. */
  function CountOk(results: seq<ClientResult>): (n: nat)
    ensures n <= |results|
    ensures n == 0 <==> forall i :: 0 <= i < |results| ==> results[i].finalStatus == ERRO
  {
    if results == [] then 0
    else
      var rest := results[..|results| - 1];
      assert forall i :: 0 <= i < |rest| ==> rest[i] == results[i];
      CountOk(rest) + (if results[|results| - 1].finalStatus == OK then 1 else 0)
  }

  /** The OK results of a batch are those of its first part plus those of the rest. */
  lemma {:induction false} CountOkAppend(a: seq<ClientResult>, b: seq<ClientResult>)
    ensures CountOk(a + b) == CountOk(a) + CountOk(b)
    decreases |b|
  {
    if b == [] {
      assert a + b == a;
    } else {
      var init := b[..|b| - 1];
      assert (a + b)[..|a + b| - 1] == a + init;
      assert (a + b)[|a + b| - 1] == b[|b| - 1];
      CountOkAppend(a, init);
    }
  }

  /** What `processCsvBatch` returns for the rows to process: `processClient` of each, in order. */
  function BatchResults(rows: seq<ClientRow>, autoAccept: bool, phoneFor: nat -> string, respFor: nat -> Responses): seq<ClientResult> {
    seq(|rows|, i requires 0 <= i < |rows| => ProcessClient(rows[i], autoAccept, phoneFor(i), respFor(i)))
  }

  /** `processCsvBatch` as the route calls it (no sampling). */
  method RunBatch(rows: seq<ClientRow>, autoAccept: bool, phoneFor: nat -> string, respFor: nat -> Responses)
    returns (results: seq<ClientResult>)
    ensures results == BatchResults(rows, autoAccept, phoneFor, respFor)
  {
    results := ProcessCsvBatch(rows, autoAccept, phoneFor, respFor);
  }

  /** The job record once `createJob` and `markSkipped` have run. */
  function AdmittedJob(sel: Selection, jobId: string, now: int): Job {
    MarkSkippedJob(NewJob(jobId, BatchJobType, |sel.toProcess|, now), sel.skippedInFile + sel.skippedToday, now)
  }

  /** The job counts the rows to process, and every skipped row as skipped; nothing is processed yet. */
  lemma AdmittedJobCounts(sel: Selection, jobId: string, now: int)
    ensures var j := AdmittedJob(sel, jobId, now);
      && j.status == Running && j.total == |sel.toProcess| && j.processed == 0
      && j.skipped == sel.skippedInFile + sel.skippedToday
  {
  }

  /** Once closed, the job is done or failed; its counts are those it was admitted with. */
  lemma AdmittedJobCloses(sel: Selection, jobId: string, now: int, m: Option<string>)
    ensures ClosedBatchJob(FinishJobValue(AdmittedJob(sel, jobId, now), m, now), sel, now)
    ensures !StatusTracker.Truthy(m) ==> FinishJobValue(AdmittedJob(sel, jobId, now), m, now).status == Done
  {
    AdmittedJobCounts(sel, jobId, now);
  }

  /** What the tracker holds for the route's job once the answer is sent. */
  predicate ClosedBatchJob(job: Job, sel: Selection, now: int) {
    && job.status != Running && job.finishedAt == Some(now)
    && job.total == |sel.toProcess| && job.processed == 0
    && job.skipped == sel.skippedInFile + sel.skippedToday
  }

  /** `createJob({ type: "lote", total })` followed by `markSkipped(jobId, skipped)`. */
  method AdmitSelection(sel: Selection, jobId: string, now: int, tracker: JobTracker)
    requires tracker.Valid()
    modifies tracker
    ensures tracker.Valid() && tracker.currentJobId == Some(jobId)
    ensures tracker.jobs == old(tracker.jobs)[jobId := AdmittedJob(sel, jobId, now)]
  {
    var id := tracker.CreateJob(jobId, BatchJobType, |sel.toProcess|, now);
    tracker.MarkSkipped(id, sel.skippedInFile + sel.skippedToday, now);
  }

  /**
   * What the route has decided once the job exists: the selection, the
   * credentials and file name it goes on with, the job, the clock, and the
   * outside world the batch meets (the gateway's answers per row, the row at
   * which the store rejects the save, if any).
   */
  datatype BatchInput = BatchInput(
    sel: Selection, login: string, senha: string, fileName: string, autoAccept: bool,
    jobId: string, now: int, today: int,
    phoneFor: nat -> string, respFor: nat -> Responses, saveFailAt: Option<nat>)

  /**
   * The batch part of the route, from the quota table, store and job before
   * to those after and the answer: the quota is consumed for every row to
   * process; a refusal leaves the results store alone (the rows stay enqueued
   * as pending) and closes the job with the refusal's message; otherwise every row is processed, the results are
   * saved and the job is closed, with the store's error when the save fails.
   */
  ghost predicate BatchAnswered(b: BatchInput, ledgerBefore: seq<ConsultDayRow>, nextIdBefore: nat,
                                ledgerAfter: seq<ConsultDayRow>, storeBefore: seq<PresencaRow>, storeAfter: seq<PresencaRow>,
                                jobBefore: Job, jobAfter: Job, resp: CsvResponse)
  {
    var c := Consume(ledgerBefore, nextIdBefore, b.login, b.senha, |b.sel.toProcess|, DefaultTotalLimit, b.today);
    && ledgerAfter == c.rows
    && (c.result.Err? ==>
          && storeAfter == storeBefore
          && jobAfter == FinishJobValue(jobBefore, Some(ConsumeErrorMessage(c.result.error)), b.now)
          && resp == RefusalOf(c.result.error))
    && (c.result.Ok? ==>
          var results := BatchResults(b.sel.toProcess, b.autoAccept, b.phoneFor, b.respFor);
          && (resp.Processed? || resp.ServerError?)
          && Saved(results, Some(b.login), Some(b.fileName), b.saveFailAt, storeBefore, storeAfter, SaveResultOf(resp))
          && (resp.Processed? ==>
                resp == Processed(b.jobId, CountOk(results), |results| - CountOk(results), c.result.value,
                                  resp.persisted, b.sel.skippedInFile, b.sel.skippedToday, results))
          && jobAfter == FinishJobValue(jobBefore, CloseMessage(resp), b.now))
  }

  /** For a job as admitted, the batch part closes it, and an answer other than an error leaves it done. */
  lemma {:induction false} BatchAnsweredCloses(b: BatchInput, ledgerBefore: seq<ConsultDayRow>, nextIdBefore: nat,
                                               ledgerAfter: seq<ConsultDayRow>, storeBefore: seq<PresencaRow>, storeAfter: seq<PresencaRow>,
                                               jobAfter: Job, resp: CsvResponse)
    requires BatchAnswered(b, ledgerBefore, nextIdBefore, ledgerAfter, storeBefore, storeAfter,
                           AdmittedJob(b.sel, b.jobId, b.now), jobAfter, resp)
    ensures ledgerAfter == Consume(ledgerBefore, nextIdBefore, b.login, b.senha, |b.sel.toProcess|, DefaultTotalLimit, b.today).rows
    ensures ClosedBatchJob(jobAfter, b.sel, b.now)
    ensures resp.QuotaRefused? || resp.ServerError? || resp.Processed?
    ensures resp.Processed? ==>
      && jobAfter.status == Done
      && resp.results == BatchResults(b.sel.toProcess, b.autoAccept, b.phoneFor, b.respFor)
      && resp.okCount + resp.erroCount == |b.sel.toProcess|
      && resp.skippedInFile == b.sel.skippedInFile && resp.skippedToday == b.sel.skippedToday
  {
    var c := Consume(ledgerBefore, nextIdBefore, b.login, b.senha, |b.sel.toProcess|, DefaultTotalLimit, b.today);
    if c.result.Err? {
      AdmittedJobCloses(b.sel, b.jobId, b.now, Some(ConsumeErrorMessage(c.result.error)));
    } else {
      AdmittedJobCloses(b.sel, b.jobId, b.now, CloseMessage(resp));
    }
  }

  /**
   * The route after `createJob` and `markSkipped`: with nothing left to process the job is
   * closed at once and the answer says so; otherwise the batch runs. Either
   * way the job ends closed, and done unless the answer is an error.
   */
  method RunSelection(b: BatchInput, tracker: JobTracker, ledger: ConsultDayTable, store: PresencaTable)
    returns (resp: CsvResponse, enqueued: seq<ClientRow>)
    requires tracker.Valid() && ledger.Valid()
    requires b.jobId in tracker.jobs && tracker.jobs[b.jobId] == AdmittedJob(b.sel, b.jobId, b.now)
    modifies tracker, ledger, store
    ensures tracker.Valid() && ledger.Valid() && tracker.currentJobId == old(tracker.currentJobId)
    ensures b.jobId in tracker.jobs && tracker.jobs == old(tracker.jobs)[b.jobId := tracker.jobs[b.jobId]]
    ensures ClosedBatchJob(tracker.jobs[b.jobId], b.sel, b.now)
    ensures resp.NothingToProcess? || resp.Processed? ==> tracker.jobs[b.jobId].status == Done
    ensures enqueued == b.sel.toProcess
    ensures b.sel.toProcess == [] ==>
      && resp == NothingToProcess(b.jobId, b.sel.skippedInFile, b.sel.skippedToday)
      && ledger.rows == old(ledger.rows) && store.rows == old(store.rows)
    ensures b.sel.toProcess != [] ==>
      && BatchAnswered(b, old(ledger.rows), old(ledger.nextId), ledger.rows, old(store.rows), store.rows,
                       AdmittedJob(b.sel, b.jobId, b.now), tracker.jobs[b.jobId], resp)
      && HttpStatus(resp) != 400
  {
    if b.sel.toProcess == [] {
      tracker.FinishJob(b.jobId, None, b.now);
      AdmittedJobCloses(b.sel, b.jobId, b.now, None);
      return NothingToProcess(b.jobId, b.sel.skippedInFile, b.sel.skippedToday), [];
    }
    resp, enqueued := RunAdmitted(b, tracker, ledger, store);
  }

  /** The batch part of the route for a job just admitted: it ends closed, and done unless the answer is an error. */
  method RunAdmitted(b: BatchInput, tracker: JobTracker, ledger: ConsultDayTable, store: PresencaTable)
    returns (resp: CsvResponse, enqueued: seq<ClientRow>)
    requires tracker.Valid() && ledger.Valid() && b.sel.toProcess != []
    requires b.jobId in tracker.jobs && tracker.jobs[b.jobId] == AdmittedJob(b.sel, b.jobId, b.now)
    modifies tracker, ledger, store
    ensures tracker.Valid() && ledger.Valid() && tracker.currentJobId == old(tracker.currentJobId)
    ensures b.jobId in tracker.jobs && tracker.jobs == old(tracker.jobs)[b.jobId := tracker.jobs[b.jobId]]
    ensures ClosedBatchJob(tracker.jobs[b.jobId], b.sel, b.now)
    ensures resp.QuotaRefused? || resp.ServerError? || resp.Processed?
    ensures resp.Processed? ==> tracker.jobs[b.jobId].status == Done
    ensures enqueued == b.sel.toProcess
    ensures BatchAnswered(b, old(ledger.rows), old(ledger.nextId), ledger.rows, old(store.rows), store.rows,
                          AdmittedJob(b.sel, b.jobId, b.now), tracker.jobs[b.jobId], resp)
  {
    resp, enqueued := RunCsvBatch(b, tracker, ledger, store);
    BatchAnsweredCloses(b, old(ledger.rows), old(ledger.nextId), ledger.rows, old(store.rows), store.rows,
                        tracker.jobs[b.jobId], resp);
  }

  /**
   * What the route decides from a parsed file within the row limit and the
   * request body: the selection, the login and password (the configured
   * defaults when the fields are empty), the file name and the headless flag.
   */
  function BatchInputOf(rows: seq<ClientRow>, req: CsvRequest, defaultLogin: string, defaultSenha: string,
                        shuffled: seq<ClientRow>, consulted: set<string>, jobId: string, now: int, today: int,
                        phoneFor: nat -> string, respFor: nat -> Responses, saveFailAt: Option<nat>): BatchInput
    requires multiset(shuffled) == multiset(rows)
  {
    BatchInput(SelectionOf(rows, req.randomRows, shuffled, consulted),
               OrDefault(req.login, defaultLogin), OrDefault(req.senha, defaultSenha),
               FileNameValue(req.fileName, req.originalName), AutoAcceptFlag(req.autoAcceptHeadless),
               jobId, now, today, phoneFor, respFor, saveFailAt)
  }

  /**
   * `POST /api/process/csv`. `upload` is the uploaded file as parsed (absent
   * when no file was sent). A missing file, a file rejected by validation and
   * a file over the row limit answer 400 and touch nothing; otherwise a job
   * is created for the selected rows, and either closed at once when nothing
   * is left to process or carried through the batch.
   */
  method ProcessCsvUpload(upload: Option<Result<seq<ClientRow>, string>>, req: CsvRequest,
                          defaultLogin: string, defaultSenha: string,
                          shuffled: seq<ClientRow>, consulted: set<string>, jobId: string, now: int, today: int,
                          phoneFor: nat -> string, respFor: nat -> Responses, saveFailAt: Option<nat>,
                          tracker: JobTracker, ledger: ConsultDayTable, store: PresencaTable)
    returns (resp: CsvResponse, enqueued: seq<ClientRow>)
    requires tracker.Valid() && ledger.Valid()
    requires upload.Some? && upload.value.Ok? ==> multiset(shuffled) == multiset(upload.value.value)
    modifies tracker, ledger, store
    ensures tracker.Valid() && ledger.Valid()
    ensures upload.None? ==> resp == BadRequest(NoFileText)
    ensures upload.Some? && upload.value.Err? ==> resp == BadRequest(upload.value.error)
    ensures upload.Some? && upload.value.Ok? && |upload.value.value| > MaxCsvRows ==>
      resp == BadRequest(RowLimitMessage(|upload.value.value|))
    ensures resp.BadRequest? ==>
      && enqueued == []
      && tracker.jobs == old(tracker.jobs) && tracker.currentJobId == old(tracker.currentJobId)
      && ledger.rows == old(ledger.rows) && store.rows == old(store.rows)
    ensures upload.Some? && upload.value.Ok? && |upload.value.value| <= MaxCsvRows ==>
      var b := BatchInputOf(upload.value.value, req, defaultLogin, defaultSenha, shuffled, consulted,
                            jobId, now, today, phoneFor, respFor, saveFailAt);
      && HttpStatus(resp) != 400
      && enqueued == b.sel.toProcess
      && tracker.currentJobId == Some(jobId)
      && jobId in tracker.jobs && tracker.jobs == old(tracker.jobs)[jobId := tracker.jobs[jobId]]
      && ClosedBatchJob(tracker.jobs[jobId], b.sel, now)
      && (resp.NothingToProcess? || resp.Processed? ==> tracker.jobs[jobId].status == Done)
      && (b.sel.toProcess == [] ==>
            && resp == NothingToProcess(jobId, b.sel.skippedInFile, b.sel.skippedToday)
            && ledger.rows == old(ledger.rows) && store.rows == old(store.rows))
      && (b.sel.toProcess != [] ==>
            BatchAnswered(b, old(ledger.rows), old(ledger.nextId), ledger.rows, old(store.rows), store.rows,
                          AdmittedJob(b.sel, jobId, now), tracker.jobs[jobId], resp))
  {
    if upload.None? {
      return BadRequest(NoFileText), [];
    }
    if upload.value.Err? {
      return BadRequest(upload.value.error), [];
    }
    var rows := upload.value.value;
    if |rows| > MaxCsvRows {
      return BadRequest(RowLimitMessage(|rows|)), [];
    }
    resp, enqueued := ProcessRows(rows, req, defaultLogin, defaultSenha, shuffled, consulted, jobId, now, today,
                        phoneFor, respFor, saveFailAt, tracker, ledger, store);
  }

  /** The route for a parsed file within the row limit: select, admit the job, and answer. */
  method ProcessRows(rows: seq<ClientRow>, req: CsvRequest, defaultLogin: string, defaultSenha: string,
                     shuffled: seq<ClientRow>, consulted: set<string>, jobId: string, now: int, today: int,
                     phoneFor: nat -> string, respFor: nat -> Responses, saveFailAt: Option<nat>,
                     tracker: JobTracker, ledger: ConsultDayTable, store: PresencaTable)
    returns (resp: CsvResponse, enqueued: seq<ClientRow>)
    requires tracker.Valid() && ledger.Valid()
    requires multiset(shuffled) == multiset(rows)
    modifies tracker, ledger, store
    ensures tracker.Valid() && ledger.Valid()
    ensures var b := BatchInputOf(rows, req, defaultLogin, defaultSenha, shuffled, consulted,
                                  jobId, now, today, phoneFor, respFor, saveFailAt);
      && HttpStatus(resp) != 400
      && enqueued == b.sel.toProcess
      && tracker.currentJobId == Some(jobId)
      && jobId in tracker.jobs && tracker.jobs == old(tracker.jobs)[jobId := tracker.jobs[jobId]]
      && ClosedBatchJob(tracker.jobs[jobId], b.sel, now)
      && (resp.NothingToProcess? || resp.Processed? ==> tracker.jobs[jobId].status == Done)
      && (b.sel.toProcess == [] ==>
            && resp == NothingToProcess(jobId, b.sel.skippedInFile, b.sel.skippedToday)
            && ledger.rows == old(ledger.rows) && store.rows == old(store.rows))
      && (b.sel.toProcess != [] ==>
            BatchAnswered(b, old(ledger.rows), old(ledger.nextId), ledger.rows, old(store.rows), store.rows,
                          AdmittedJob(b.sel, jobId, now), tracker.jobs[jobId], resp))
  {
    var sel := SelectRowsToProcess(rows, req.randomRows, shuffled, consulted);
    var b := BatchInput(sel, OrDefault(req.login, defaultLogin), OrDefault(req.senha, defaultSenha),
                        FileNameValue(req.fileName, req.originalName), AutoAcceptFlag(req.autoAcceptHeadless),
                        jobId, now, today, phoneFor, respFor, saveFailAt);
    AdmitSelection(b.sel, b.jobId, b.now, tracker);
    resp, enqueued := RunSelection(b, tracker, ledger, store);
  }

  /**
   * The route once the rows to process are known and not empty: enqueue them
   * as pending, consume that many consultations from the daily quota, and go
   * on with the batch. A quota refusal answers 403; any other rejection of the
   * quota step answers 500; either way the job is closed with the message.
   */
  method RunCsvBatch(b: BatchInput, tracker: JobTracker, ledger: ConsultDayTable, store: PresencaTable)
    returns (resp: CsvResponse, enqueued: seq<ClientRow>)
    requires tracker.Valid() && ledger.Valid() && b.jobId in tracker.jobs && b.sel.toProcess != []
    modifies tracker, ledger, store
    ensures tracker.Valid() && ledger.Valid() && tracker.currentJobId == old(tracker.currentJobId)
    ensures enqueued == b.sel.toProcess
    ensures b.jobId in tracker.jobs && tracker.jobs == old(tracker.jobs)[b.jobId := tracker.jobs[b.jobId]]
    ensures BatchAnswered(b, old(ledger.rows), old(ledger.nextId), ledger.rows, old(store.rows), store.rows,
                          old(tracker.jobs)[b.jobId], tracker.jobs[b.jobId], resp)
  {
    enqueued := b.sel.toProcess;  // insertPendingConsultaPresenca
    var consultDay := ledger.ConsumeConsultDay(b.login, b.senha, |b.sel.toProcess|, DefaultTotalLimit, b.today);
    if consultDay.Err? {
      resp := RefuseBatch(consultDay.error, b.jobId, b.now, tracker);
      return;
    }
    var results := RunBatch(b.sel.toProcess, b.autoAccept, b.phoneFor, b.respFor);
    resp := FinishBatch(results, b.sel, b.login, b.fileName, b.jobId, b.now, b.saveFailAt, consultDay.value, tracker, store);
  }

  /** The answer to a rejected quota step: 403 with the limit's figures, or 500; the job is closed with the message. */
  function RefusalOf(e: ConsumeError): (resp: CsvResponse)
    ensures e.LimitExceeded? ==> resp == QuotaRefused(LimitExceededText, e.meta)
    ensures !e.LimitExceeded? ==> resp == ServerError(ConsumeErrorMessage(e))
  {
    if e.LimitExceeded? then QuotaRefused(ConsumeErrorMessage(e), e.meta) else ServerError(ConsumeErrorMessage(e))
  }

  /** The `catch` around `consumeConsultDay`: `finishJob` with the error, then the answer. */
  method RefuseBatch(e: ConsumeError, jobId: string, now: int, tracker: JobTracker) returns (resp: CsvResponse)
    requires tracker.Valid() && jobId in tracker.jobs
    modifies tracker
    ensures tracker.Valid() && tracker.currentJobId == old(tracker.currentJobId)
    ensures resp == RefusalOf(e)
    ensures tracker.jobs == old(tracker.jobs)[jobId := FinishJobValue(old(tracker.jobs)[jobId], Some(ConsumeErrorMessage(e)), now)]
  {
    var message := ConsumeErrorMessage(e);
    tracker.FinishJob(jobId, Some(message), now);
    resp := RefusalOf(e);
  }

  /**
   * The end of the route: `saveConsultaPresencaResults`, the OK count and
   * `finishJob`. A store failure answers 500 and closes the job with its
   * message.
   */
  method FinishBatch(results: seq<ClientResult>, sel: Selection, login: string, fileName: string,
                     jobId: string, now: int, saveFailAt: Option<nat>, consultDay: ConsultDayRow,
                     tracker: JobTracker, store: PresencaTable)
    returns (resp: CsvResponse)
    requires tracker.Valid() && jobId in tracker.jobs
    modifies tracker, store
    ensures tracker.Valid() && tracker.currentJobId == old(tracker.currentJobId)
    ensures resp.Processed? || resp.ServerError?
    ensures Saved(results, Some(login), Some(fileName), saveFailAt, old(store.rows), store.rows, SaveResultOf(resp))
    ensures resp.Processed? ==>
      resp == Processed(jobId, CountOk(results), |results| - CountOk(results), consultDay,
                        resp.persisted, sel.skippedInFile, sel.skippedToday, results)
    ensures tracker.jobs == old(tracker.jobs)[jobId := FinishJobValue(old(tracker.jobs)[jobId], CloseMessage(resp), now)]
  {
    var persisted := store.SaveConsultaPresencaResults(results, Some(login), Some(fileName), saveFailAt);
    if persisted.Err? {
      resp := ServerError(persisted.error);
    } else {
      var okCount := CountOk(results);
      resp := Processed(jobId, okCount, |results| - okCount, consultDay, persisted.value,
                        sel.skippedInFile, sel.skippedToday, results);
    }
    tracker.FinishJob(jobId, CloseMessage(resp), now);
  }

  /** The message `finishJob` closes the job with: the error of a 500 answer, none otherwise. */
  function CloseMessage(resp: CsvResponse): (m: Option<string>)
    ensures m.Some? <==> resp.ServerError?
  {
    if resp.ServerError? then Some(resp.error) else None
  }

  /** The result of `saveConsultaPresencaResults` that an answer of the end of the route carries. */
  function SaveResultOf(resp: CsvResponse): Result<SaveCounts, string>
    requires resp.Processed? || resp.ServerError?
  {
    if resp.Processed? then Ok(resp.persisted) else Err(resp.error)
  }
}
