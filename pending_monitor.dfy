/**
 * The pending-queue consumer of `src/pendingMonitor.js`: the pause/resume
 * state, the reentrancy flag and the cycle that lists pending rows, claims
 * each one, consumes one unit of daily quota, runs the workflow and writes
 * the row's final status.
 *
 * A cycle is split at its first `await`, as the reset monitor is:
 * `BeginCycle` is what runs synchronously when the cycle is called (both
 * guards and the flag), `CycleBody` is the rest. Pause and resume calls that
 * arrive while the cycle awaits are a script of interjections, one consumed
 * at each of the three places where the cycle reads the pause flag (lines
 * 116, 124 and 129 of the source). The workflow's partner responses, the
 * fallback phone number and the store failure of a replace are per-row
 * oracles in an `Environment`; `DEFAULT_LOGIN` / `DEFAULT_SENHA` are
 * constructor parameters (never empty: the source falls back to literals).
 */
module PendingMonitor {
  import opened Wrappers
  import opened JsString
  import opened ConsultDayRepo
  import opened Processor
  import opened PendingQueue

  const DefaultPauseReason := "Pausa manual via API"

  /** A call to `pausePendingMonitor(reason)` or `resumePendingMonitor()` made at time `at`. */
  datatype Interjection = PauseCall(reason: Option<string>, at: int) | ResumeCall(at: int)

  /** What `getPendingMonitorState` returns. */
  datatype MonitorState = MonitorState(
    paused: bool, reason: Option<string>, pausedAt: Option<int>, resumedAt: Option<int>,
    runningCycle: bool, pollMs: int, batchSize: nat)

  /** The counters of one cycle. */
  datatype CycleStats = CycleStats(found: nat, claimed: nat, consulted: nat, concluded: nat, limitErrors: nat, errors: nat)

  const NoStats := CycleStats(0, 0, 0, 0, 0, 0)

  /** Why processing a claimed row threw: the quota ledger refused it, or the store failed. */
  datatype RowError = Quota(error: ConsumeError) | Store(message: string)

  /** What `processPendingRow` returns, as far as the monitor reads it. */
  datatype RowDone = RowDone(consultDay: ConsultDayRow, result: ClientResult)

  /** How handling one listed row ended. */
  datatype Handled = NotClaimed | Reverted | Settled

  /** Everything outside the monitor that decides a row's fate, per row id. */
  datatype Environment = Environment(
    respFor: nat -> Responses, phoneFor: nat -> string, replaceFault: nat -> Option<string>, today: int)

  /** `String(reason || DEFAULT).trim() || DEFAULT`. */
  function NormalizeReason(reason: Option<string>): (r: string)
    ensures r != [] && !IsSpace(r[0]) && !IsSpace(r[|r| - 1])
    ensures Trim(reason.GetOr("")) != "" ==> r == Trim(reason.GetOr(""))
    ensures (reason.None? || forall i :: 0 <= i < |reason.value| ==> IsSpace(reason.value[i])) ==> r == DefaultPauseReason
  {
    TrimShape(reason.GetOr(""));
    var t := Trim(reason.GetOr(""));
    if t == "" then DefaultPauseReason else t
  }

  /** `pausePendingMonitor`: `pausedAt` is set by the first pause only; the reason is always replaced. */
  function Paused(st: MonitorState, reason: Option<string>, now: int): (r: MonitorState)
    ensures r.paused && r.reason == Some(NormalizeReason(reason))
    ensures r.pausedAt == (if st.paused then st.pausedAt else Some(now))
    ensures r == st.(paused := true, reason := r.reason, pausedAt := r.pausedAt)
  {
    st.(paused := true, reason := Some(NormalizeReason(reason)), pausedAt := if st.paused then st.pausedAt else Some(now))
  }

  /** The state change of `resumePendingMonitor`: a paused monitor is unpaused; any other is left as it is. */
  function Resumed(st: MonitorState, now: int): (r: MonitorState)
    ensures !r.paused
    ensures st.paused ==> r == st.(paused := false, reason := None, resumedAt := Some(now))
    ensures !st.paused ==> r == st
  {
    if st.paused then st.(paused := false, reason := None, resumedAt := Some(now)) else st
  }

  /** A script in which nobody calls `pausePendingMonitor`. */
  predicate NoPauseIn(script: seq<Option<Interjection>>) {
    forall i :: 0 <= i < |script| ==> !(script[i].Some? && script[i].value.PauseCall?)
  }

  /** The state change an interjection makes. */
  function Interjected(st: MonitorState, i: Option<Interjection>): MonitorState {
    match i
    case None => st
    case Some(PauseCall(reason, at)) => Paused(st, reason, at)
    case Some(ResumeCall(at)) => Resumed(st, at)
  }

  /** Pausing twice keeps the first pause time; resuming then clears the reason and records the resume. */
  lemma PauseResumeRoundTrip(st: MonitorState, r1: Option<string>, t1: int, r2: Option<string>, t2: int, t3: int)
    requires !st.paused && st.reason.None?
    ensures var twice := Paused(Paused(st, r1, t1), r2, t2);
      && twice.pausedAt == Some(t1) && twice.reason == Some(NormalizeReason(r2))
      && Resumed(twice, t3) == st.(pausedAt := Some(t1), resumedAt := Some(t3))
  {
  }

  /** `String(claimed.loginP || DEFAULT_LOGIN)`: the row's own login, else the default one. */
  function LoginFor(row: QueueRow, defaultLogin: string): (login: string)
    ensures row.loginP.Some? && row.loginP.value != "" ==> login == row.loginP.value
    ensures (row.loginP.None? || row.loginP.value == "") ==> login == defaultLogin
  {
    if row.loginP.Some? && row.loginP.value != "" then row.loginP.value else defaultLogin
  }

  /** The workflow's input: `{ cpf, nome, telefone }` of the row. */
  function WorkflowInput(row: QueueRow): ClientRow {
    ClientRow(row.cpf, row.nome, row.telefone)
  }

  /** `final_status === "OK" ? "Concluido" : "Erro"`. */
  function QueueStatusFor(result: ClientResult): (s: QueueStatus)
    ensures s == Concluido <==> result.finalStatus.OK?
    ensures s == Erro <==> result.finalStatus.ERRO?
  {
    if result.finalStatus == OK then Concluido else Erro
  }

  function ErrorMessage(e: RowError): string {
    match e
    case Quota(q) => ConsumeErrorMessage(q)
    case Store(m) => m
  }

  /**
   * The status and message a row ends with: the workflow's verdict and final
   * message, "Limite" with the ledger's message when the daily quota is
   * exhausted, and "Erro" with the error's message for any other failure.
   */
  function FinalMark(outcome: Result<RowDone, RowError>): (m: (QueueStatus, string))
    ensures m.0 == Concluido <==> outcome.Ok? && outcome.value.result.finalStatus == OK
    ensures m.0 == Limite <==> outcome.Err? && outcome.error.Quota? && outcome.error.error.LimitExceeded?
    ensures m.0 == Concluido || m.0 == Erro || m.0 == Limite
    ensures outcome.Ok? ==> m.1 == outcome.value.result.finalMessage
    ensures outcome.Err? ==> m.1 == ErrorMessage(outcome.error)
  {
    match outcome
    case Ok(done) => (QueueStatusFor(done.result), done.result.finalMessage)
    case Err(e) => (if e.Quota? && e.error.LimitExceeded? then Limite else Erro, ErrorMessage(e))
  }

  /**
   * `processPendingRow` plus the replace: one unit of quota is consumed
   * first, and only when that succeeds is the workflow run (with headless
   * acceptance on) and its result persisted.
   */
  function RowOutcome(ledgerRows: seq<ConsultDayRow>, nextId: nat, row: QueueRow, login: string, senha: string,
                      env: Environment): (r: Result<RowDone, RowError>)
    ensures login != "" && senha != "" && r.Err? && r.error.Quota? ==>
      r.error.error.LimitExceeded? && FinalMark(r) == (Limite, LimitExceededText)
    ensures r.Ok? ==> r.value.consultDay.usado.Some? && r.value.consultDay.usado.value <= StoredTotal(r.value.consultDay.total, DefaultTotalLimit)
  {
    var c := Consume(ledgerRows, nextId, login, senha, 1, DefaultTotalLimit, env.today);
    if c.result.Err? then Err(Quota(c.result.error))
    else if env.replaceFault(row.id).Some? then Err(Store(env.replaceFault(row.id).value))
    else Ok(RowDone(c.result.value, ProcessClient(WorkflowInput(row), true, env.phoneFor(row.id), env.respFor(row.id))))
  }

  /** A row refused by the quota never reaches the workflow: its outcome does not depend on the partner's responses. */
  lemma QuotaGatesWorkflow(ledgerRows: seq<ConsultDayRow>, nextId: nat, row: QueueRow, login: string, senha: string,
                           env: Environment, otherResponses: nat -> Responses)
    requires Consume(ledgerRows, nextId, login, senha, 1, DefaultTotalLimit, env.today).result.Err?
    ensures RowOutcome(ledgerRows, nextId, row, login, senha, env)
         == RowOutcome(ledgerRows, nextId, row, login, senha, env.(respFor := otherResponses))
  {
  }

  /** A status a claimed row is settled with. */
  predicate IsFinal(s: QueueStatus) {
    s == Concluido || s == Erro || s == Limite
  }

  /** The counters after one settled row. */
  function Tally(stats: CycleStats, outcome: Result<RowDone, RowError>): CycleStats {
    match outcome
    case Ok(done) =>
      if done.result.finalStatus == OK then stats.(consulted := stats.consulted + 1, concluded := stats.concluded + 1)
      else stats.(consulted := stats.consulted + 1, errors := stats.errors + 1)
    case Err(e) =>
      if e.Quota? && e.error.LimitExceeded? then stats.(limitErrors := stats.limitErrors + 1)
      else stats.(errors := stats.errors + 1)
  }

  /**
   * The counters agree: every claimed row was concluded, refused by the
   * quota, counted as an error or handed back on a pause; every concluded row
   * was consulted; and no more rows were claimed than found.
   */
  predicate Balanced(stats: CycleStats, reverted: nat) {
    && stats.claimed == stats.concluded + stats.limitErrors + stats.errors + reverted
    && stats.concluded <= stats.consulted
    && stats.claimed <= stats.found
  }

  /** Settling a claimed row keeps the counters balanced. */
  lemma TallyKeepsBalance(stats: CycleStats, reverted: nat, outcome: Result<RowDone, RowError>)
    requires stats.claimed == stats.concluded + stats.limitErrors + stats.errors + reverted + 1
    requires stats.concluded <= stats.consulted
    ensures var t := Tally(stats, outcome);
      && t.claimed == t.concluded + t.limitErrors + t.errors + reverted
      && t.concluded <= t.consulted
      && t.found == stats.found && t.claimed == stats.claimed
  {
  }

  class Monitor {
    var paused: bool
    var reason: Option<string>
    var pausedAt: Option<int>
    var resumedAt: Option<int>
    var isRunningCycle: bool
    const pollMs: int
    const batchSize: nat
    const defaultLogin: string
    const defaultSenha: string

    constructor (pollMs: int, batchSize: nat, defaultLogin: string, defaultSenha: string)
      requires defaultLogin != "" && defaultSenha != ""
      ensures State() == MonitorState(false, None, None, None, false, pollMs, batchSize)
      ensures Configured() && this.defaultLogin == defaultLogin && this.defaultSenha == defaultSenha
    {
      this.pollMs := pollMs;
      this.batchSize := batchSize;
      this.defaultLogin := defaultLogin;
      this.defaultSenha := defaultSenha;
      paused := false;
      reason := None;
      pausedAt := None;
      resumedAt := None;
      isRunningCycle := false;
    }

    /** The default credentials are never empty. */
    predicate Configured() {
      defaultLogin != "" && defaultSenha != ""
    }

    function State(): MonitorState
      reads this
    {
      MonitorState(paused, reason, pausedAt, resumedAt, isRunningCycle, pollMs, batchSize)
    }

    /** `getPendingMonitorState`. */
    method GetPendingMonitorState() returns (s: MonitorState)
      ensures s == State()
    {
      s := MonitorState(paused, reason, pausedAt, resumedAt, isRunningCycle, pollMs, batchSize);
    }

    /** The synchronous part of `runPendingCycle`: a no-op when paused or while a cycle runs, else the flag is set. */
    method BeginCycle() returns (started: bool)
      modifies this
      ensures started <==> !old(paused) && !old(isRunningCycle)
      ensures State() == old(State()).(runningCycle := old(isRunningCycle) || started)
    {
      if paused || isRunningCycle {
        return false;
      }
      isRunningCycle := true;
      started := true;
    }

    /** `pausePendingMonitor(reason)`. */
    method PausePendingMonitor(why: Option<string>, now: int) returns (s: MonitorState)
      modifies this
      ensures State() == Paused(old(State()), why, now) && s == State()
    {
      var normalized := NormalizeReason(why);
      if !paused {
        paused := true;
        pausedAt := Some(now);
      }
      reason := Some(normalized);
      s := State();
    }

    /**
     * `resumePendingMonitor()`: unpauses a paused monitor and then calls the
     * cycle, whose synchronous part either starts a cycle or finds one
     * running; either way a cycle is in flight when the state is returned.
     */
    method ResumePendingMonitor(now: int) returns (s: MonitorState)
      modifies this
      ensures State() == Resumed(old(State()), now).(runningCycle := true) && s == State()
    {
      if paused {
        paused := false;
        reason := None;
        resumedAt := Some(now);
      }
      var _ := BeginCycle();
      s := State();
    }

    /** A place where the cycle reads the pause flag after an `await`: the next scripted call, if any, happens first. */
    method Checkpoint(script: seq<Option<Interjection>>) returns (rest: seq<Option<Interjection>>)
      requires isRunningCycle
      modifies this
      ensures isRunningCycle
      ensures script == [] ==> rest == [] && State() == old(State())
      ensures script != [] ==> rest == script[1..] && State() == Interjected(old(State()), script[0])
      ensures NoPauseIn(script) ==> NoPauseIn(rest) && (!old(paused) ==> !paused)
    {
      if script == [] {
        return [];
      }
      match script[0] {
        case None =>
        case Some(PauseCall(why, at)) =>
          var _ := PausePendingMonitor(why, at);
        case Some(ResumeCall(at)) =>
          var _ := ResumePendingMonitor(at);
      }
      rest := script[1..];
    }

    /**
     * `processPendingRow(claimed)` followed by the replace of the row: the
     * ledger consumes one unit for the row's login first; the workflow runs
     * only when that succeeds, and the row then gets its final status.
     */
    method ProcessPendingRow(row: QueueRow, queue: QueueTable, ledger: ConsultDayTable, env: Environment)
      returns (r: Result<RowDone, RowError>)
      requires Configured() && queue.Valid() && ledger.Valid()
      modifies queue, ledger
      ensures queue.Valid() && ledger.Valid()
      ensures r == RowOutcome(old(ledger.rows), old(ledger.nextId), row, LoginFor(row, defaultLogin), defaultSenha, env)
      ensures ledger.rows == Consume(old(ledger.rows), old(ledger.nextId), LoginFor(row, defaultLogin), defaultSenha,
                                     1, DefaultTotalLimit, env.today).rows
      ensures r.Ok? && row.id in old(queue.rows) ==>
        queue.rows == WithStatus(old(queue.rows), row.id, FinalMark(r).0, Some(FinalMark(r).1))
      ensures r.Err? || row.id !in old(queue.rows) ==> queue.rows == old(queue.rows)
    {
      var login := LoginFor(row, defaultLogin);
      var consultDay := ledger.ConsumeConsultDay(login, defaultSenha, 1, DefaultTotalLimit, env.today);
      if consultDay.Err? {
        return Err(Quota(consultDay.error));
      }
      var result := ProcessClient(WorkflowInput(row), true, env.phoneFor(row.id), env.respFor(row.id));
      var persisted := queue.Replace(row.id, QueueStatusFor(result), result.finalMessage, env.replaceFault(row.id));
      if persisted.Err? {
        return Err(Store(persisted.error));
      }
      r := Ok(RowDone(consultDay.value, result));
    }

    /** A claimed row is processed and gets its final mark, whether processing succeeds or throws. */
    method SettleClaimed(row: QueueRow, queue: QueueTable, ledger: ConsultDayTable, env: Environment)
      returns (outcome: Result<RowDone, RowError>)
      requires Configured() && queue.Valid() && ledger.Valid() && row.id in queue.rows
      modifies queue, ledger
      ensures queue.Valid() && ledger.Valid()
      ensures outcome == RowOutcome(old(ledger.rows), old(ledger.nextId), row, LoginFor(row, defaultLogin), defaultSenha, env)
      ensures queue.rows == WithStatus(old(queue.rows), row.id, FinalMark(outcome).0, Some(FinalMark(outcome).1))
    {
      outcome := ProcessPendingRow(row, queue, ledger, env);
      if outcome.Err? {
        var mark := FinalMark(outcome);
        queue.MarkStatus(row.id, mark.0, Some(mark.1));
      }
    }

    /**
     * One listed row (lines 125-163 of the source): claim it, skip it when the
     * claim returns null, hand it back when a pause arrived meanwhile, and
     * otherwise process it, marking "Limite" or "Erro" when that throws.
     */
    method HandleRow(id: nat, queue: QueueTable, ledger: ConsultDayTable, env: Environment,
                     script: seq<Option<Interjection>>, stats: CycleStats, ghost reverted: nat)
      returns (rest: seq<Option<Interjection>>, action: Handled, stats': CycleStats, ghost reverted': nat)
      requires Configured() && isRunningCycle && !paused && queue.Valid() && ledger.Valid()
      requires Balanced(stats, reverted)
      modifies this, queue, ledger
      ensures isRunningCycle && queue.Valid() && ledger.Valid()
      ensures |rest| <= |script|
      ensures stats'.found == stats.found && stats'.claimed == stats.claimed + (if action == NotClaimed then 0 else 1)
      ensures stats'.claimed == stats'.concluded + stats'.limitErrors + stats'.errors + reverted'
      ensures stats'.concluded <= stats'.consulted
      ensures action == NotClaimed <==> !(id in old(queue.rows) && old(queue.rows)[id].status == Pendente)
      ensures action == NotClaimed ==>
        && rest == script && stats' == stats && reverted' == reverted
        && queue.rows == old(queue.rows) && ledger.rows == old(ledger.rows) && State() == old(State())
      ensures action == Reverted ==>
        && paused && |rest| < |script| && reverted' == reverted + 1
        && queue.rows == old(queue.rows) && ledger.rows == old(ledger.rows)
      ensures action == Settled ==>
        var row := old(queue.rows)[id].(status := Processando);
        var outcome := RowOutcome(old(ledger.rows), old(ledger.nextId), row, LoginFor(row, defaultLogin), defaultSenha, env);
        && queue.rows == WithStatus(old(queue.rows), id, FinalMark(outcome).0, Some(FinalMark(outcome).1))
        && stats' == Tally(stats.(claimed := stats.claimed + 1), outcome) && reverted' == reverted
      ensures script == [] ==> rest == [] && !paused && action != Reverted
      ensures NoPauseIn(script) ==> NoPauseIn(rest) && !paused && action != Reverted
      ensures queue.rows.Keys == old(queue.rows).Keys
      ensures forall x :: x in old(queue.rows) && x != id ==> queue.rows[x] == old(queue.rows)[x]
      ensures ProcessingIds(queue.rows) == ProcessingIds(old(queue.rows))
      ensures action == Settled ==> |PendingIds(queue.rows)| == |PendingIds(old(queue.rows))| - 1
    {
      rest, stats', reverted' := script, stats, reverted;
      ghost var before := queue.rows;
      var claimed := queue.Claim(id);
      if claimed.None? {
        return rest, NotClaimed, stats', reverted';
      }
      var row := claimed.value;
      stats' := stats'.(claimed := stats'.claimed + 1);
      rest := Checkpoint(script);
      if paused {
        queue.MarkStatus(row.id, Pendente, None);
        ClaimThenRevert(before, id);
        return rest, Reverted, stats', reverted' + 1;
      }
      var outcome := SettleClaimed(row, queue, ledger, env);
      WithStatusTwice(before, id, Processando, None, FinalMark(outcome).0, FinalMark(outcome).1);
      SettledRowLeavesQueue(before, id, FinalMark(outcome).0, FinalMark(outcome).1);
      TallyKeepsBalance(stats', reverted', outcome);
      stats' := Tally(stats', outcome);
      action := Settled;
    }

    /**
     * The `for` loop over one listed batch (lines 123-164 of the source):
     * before each row the pause flag is read again, and a pause stops the
     * batch. The first `handled` rows are settled; the rest, including a row
     * handed back on a pause, are exactly as they were, so still pending.
     * Only a pause stops the batch early.
     */
    method ProcessBatch(batch: seq<QueueRow>, queue: QueueTable, ledger: ConsultDayTable, env: Environment,
                        script: seq<Option<Interjection>>, stats: CycleStats, ghost reverted: nat)
      returns (rest: seq<Option<Interjection>>, stats': CycleStats, ghost reverted': nat, ghost handled: nat)
      requires Configured() && isRunningCycle && queue.Valid() && ledger.Valid()
      requires forall k, l :: 0 <= k < l < |batch| ==> batch[k].id != batch[l].id
      requires forall k :: 0 <= k < |batch| ==> batch[k].id in queue.rows && queue.rows[batch[k].id].status == Pendente
      requires stats.claimed == stats.concluded + stats.limitErrors + stats.errors + reverted
      requires stats.concluded <= stats.consulted && stats.claimed + |batch| <= stats.found
      modifies this, queue, ledger
      ensures isRunningCycle && queue.Valid() && ledger.Valid()
      ensures queue.rows.Keys == old(queue.rows).Keys
      ensures ProcessingIds(queue.rows) == ProcessingIds(old(queue.rows))
      ensures Balanced(stats', reverted')
      ensures |rest| <= |script| && |PendingIds(queue.rows)| <= |PendingIds(old(queue.rows))|
      ensures handled <= |batch| && |PendingIds(queue.rows)| == |PendingIds(old(queue.rows))| - handled
      ensures forall k :: 0 <= k < handled ==> IsFinal(queue.rows[batch[k].id].status)
      ensures forall k :: handled <= k < |batch| ==> queue.rows[batch[k].id] == old(queue.rows)[batch[k].id]
      ensures handled < |batch| ==> paused
      ensures NoPauseIn(script) && !old(paused) ==> handled == |batch| && !paused && NoPauseIn(rest)
    {
      rest, stats', reverted' := script, stats, reverted;
      var j := 0;
      while j < |batch|
        invariant 0 <= j <= |batch|
        invariant isRunningCycle && queue.Valid() && ledger.Valid()
        invariant queue.rows.Keys == old(queue.rows).Keys
        invariant ProcessingIds(queue.rows) == ProcessingIds(old(queue.rows))
        invariant stats'.claimed == stats'.concluded + stats'.limitErrors + stats'.errors + reverted'
        invariant stats'.concluded <= stats'.consulted
        invariant stats'.claimed + (|batch| - j) <= stats'.found
        invariant forall k :: 0 <= k < j ==> IsFinal(queue.rows[batch[k].id].status)
        invariant forall k :: j <= k < |batch| ==> queue.rows[batch[k].id] == old(queue.rows)[batch[k].id]
        invariant |rest| <= |script| && |PendingIds(queue.rows)| == |PendingIds(old(queue.rows))| - j
        invariant NoPauseIn(script) && !old(paused) ==> !paused && NoPauseIn(rest)
      {
        rest := Checkpoint(rest);
        if paused {
          break;
        }
        var action;
        rest, action, stats', reverted' := HandleRow(batch[j].id, queue, ledger, env, rest, stats', reverted');
        if action == Reverted {
          break;
        }
        j := j + 1;
      }
      handled := j;
    }

    /**
     * The asynchronous part of `runPendingCycle`: re-list up to `batchSize`
     * rows until the list is empty or the monitor is paused. Afterwards no row
     * is left in progress by this cycle, and either the monitor is paused or
     * no row is pending (or the batch size is 0).
     */
    method CycleBody(queue: QueueTable, ledger: ConsultDayTable, env: Environment, script0: seq<Option<Interjection>>)
      returns (stats: CycleStats, ghost reverted: nat)
      requires Configured() && isRunningCycle && queue.Valid() && ledger.Valid()
      modifies this, queue, ledger
      ensures !isRunningCycle && queue.Valid() && ledger.Valid()
      ensures Balanced(stats, reverted)
      ensures queue.rows.Keys == old(queue.rows).Keys
      ensures ProcessingIds(queue.rows) == ProcessingIds(old(queue.rows))
      ensures paused || batchSize == 0 || PendingIds(queue.rows) == {}
    {
      stats, reverted := NoStats, 0;
      var script := script0;
      while true
        invariant isRunningCycle && queue.Valid() && ledger.Valid()
        invariant queue.rows.Keys == old(queue.rows).Keys
        invariant ProcessingIds(queue.rows) == ProcessingIds(old(queue.rows))
        invariant Balanced(stats, reverted)
        decreases |script| + |PendingIds(queue.rows)|
      {
        ghost var s0, p0 := |script|, |PendingIds(queue.rows)|;
        script := Checkpoint(script);
        if paused {
          break;
        }
        var batch := queue.ListPending(batchSize);
        if batch == [] {
          break;
        }
        stats := stats.(found := stats.found + |batch|);
        ghost var handled;
        script, stats, reverted, handled := ProcessBatch(batch, queue, ledger, env, script, stats, reverted);
      }
      isRunningCycle := false;
    }

    /** `runPendingCycle()`: nothing when paused or while another cycle runs; otherwise a whole cycle. */
    method RunPendingCycle(queue: QueueTable, ledger: ConsultDayTable, env: Environment, script: seq<Option<Interjection>>)
      returns (stats: CycleStats, ghost reverted: nat)
      requires Configured() && queue.Valid() && ledger.Valid()
      modifies this, queue, ledger
      ensures queue.Valid() && ledger.Valid()
      ensures old(paused) || old(isRunningCycle) ==>
        stats == NoStats && queue.rows == old(queue.rows) && ledger.rows == old(ledger.rows) && State() == old(State())
      ensures !old(paused) && !old(isRunningCycle) ==>
        && !isRunningCycle && Balanced(stats, reverted)
        && queue.rows.Keys == old(queue.rows).Keys
        && ProcessingIds(queue.rows) == ProcessingIds(old(queue.rows))
        && (paused || batchSize == 0 || PendingIds(queue.rows) == {})
    {
      var started := BeginCycle();
      if !started {
        return NoStats, 0;
      }
      stats, reverted := CycleBody(queue, ledger, env, script);
    }
  }

  /** A settled row leaves both the pending set and the in-progress set. */
  lemma SettledRowLeavesQueue(before: map<nat, QueueRow>, id: nat, s: QueueStatus, m: string)
    requires id in before && before[id].status == Pendente && s != Pendente && s != Processando
    ensures ProcessingIds(WithStatus(before, id, s, Some(m))) == ProcessingIds(before)
    ensures |PendingIds(WithStatus(before, id, s, Some(m)))| == |PendingIds(before)| - 1
  {
    LeavingPending(before, id, s, Some(m));
    OutsideProcessing(before, id, s, Some(m));
  }
}
