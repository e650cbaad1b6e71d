/**
 * The daily quota ledger of `src/consultDayRepo.js`: the `consult_day` table,
 * the all-or-nothing check-and-increment `consumeConsultDay`, and the
 * date-rollover sweep `resetStaleConsultDayCounters`.
 *
 * Dates are day numbers (the date part of `updated_at`); the table is a
 * sequence of rows in identity (`id`) order.
 */
module ConsultDayRepo {
  import opened Wrappers

  /** `DEFAULT_TOTAL_LIMIT` when `CONSULT_DAY_TOTAL` is not set. */
  const DefaultTotalLimit: int := 1000

  /** One row of `consult_day`; `total`, `usado` and `restantes` are nullable columns. */
  datatype ConsultDayRow = ConsultDayRow(
    id: nat,
    loginP: string,
    senhaP: string,
    total: Option<int>,
    usado: Option<int>,
    restantes: Option<int>,
    updatedDay: int)

  /** The `meta` of a `ConsultDayLimitError`. */
  datatype LimitMeta = LimitMeta(total: int, usado: int, restantes: int, solicitado: int)

  datatype ConsumeError =
    | MissingCredentials
    | NonPositiveDelta
    | LimitExceeded(meta: LimitMeta)

  const MissingCredentialsText := "loginP e senhaP sao obrigatorios para atualizar consult_day"
  const NonPositiveDeltaText := "usedDelta deve ser maior que zero"
  const LimitExceededText := "Limite diario de consultas excedido para este login/senha"

  /** The message each rejection carries. */
  function ConsumeErrorMessage(e: ConsumeError): string {
    match e
    case MissingCredentials => MissingCredentialsText
    case NonPositiveDelta => NonPositiveDeltaText
    case LimitExceeded(_) => LimitExceededText
  }

  /** The returned row (or the error) together with the table after commit or rollback. */
  datatype Consumed = Consumed(result: Result<ConsultDayRow, ConsumeError>, rows: seq<ConsultDayRow>)

  /** `Number(total || DEFAULT_TOTAL_LIMIT)`. */
  function ConfiguredTotal(total: int): int {
    if total == 0 then DefaultTotalLimit else total
  }

  /** `Number(row.total || configuredTotal)`: a null or zero ceiling falls back to the configured one. */
  function StoredTotal(stored: Option<int>, configured: int): (t: int)
    ensures stored == None || stored == Some(0) ==> t == configured
    ensures stored.Some? && stored.value != 0 ==> t == stored.value
  {
    match stored
    case Some(v) => if v == 0 then configured else v
    case None => configured
  }

  /** `Number(row.usado || 0)`: a null counter reads as zero. */
  function StoredUsed(stored: Option<int>): int {
    stored.GetOr(0)
  }

  /** `Math.max(0, total - used)`. */
  function Remaining(total: int, used: int): (r: int)
    ensures r >= 0 && r >= total - used
    ensures r == 0 || r == total - used
  {
    if total - used < 0 then 0 else total - used
  }

  predicate OwnedBy(row: ConsultDayRow, loginP: string, senhaP: string) {
    row.loginP == loginP && row.senhaP == senhaP
  }

  /** Identity values grow with insertion order. */
  predicate IdsIncreasing(rows: seq<ConsultDayRow>) {
    forall i, j :: 0 <= i < j < |rows| ==> rows[i].id < rows[j].id
  }

  /**
   * `SELECT TOP (1) ... WHERE loginP = @loginP AND senhaP = @senhaP ORDER BY id DESC`:
   * the position of the principal's row with the highest id, if any.
   */
  function LatestFor(rows: seq<ConsultDayRow>, loginP: string, senhaP: string): (k: Option<nat>)
    ensures k.None? <==> forall j :: 0 <= j < |rows| ==> !OwnedBy(rows[j], loginP, senhaP)
    ensures k.Some? ==> k.value < |rows| && OwnedBy(rows[k.value], loginP, senhaP)
    ensures k.Some? ==> forall j :: 0 <= j < |rows| && OwnedBy(rows[j], loginP, senhaP) ==> rows[j].id <= rows[k.value].id
  {
    if rows == [] then None
    else
      var k := LatestFor(rows[..|rows| - 1], loginP, senhaP);
      var last := |rows| - 1;
      if OwnedBy(rows[last], loginP, senhaP) && (k.None? || rows[k.value].id < rows[last].id) then Some(last)
      else k
  }

  /** In a table in identity order, a row appended for the principal is its latest one. */
  lemma LatestForAppended(rows: seq<ConsultDayRow>, row: ConsultDayRow)
    requires forall i :: 0 <= i < |rows| ==> rows[i].id < row.id
    ensures LatestFor(rows + [row], row.loginP, row.senhaP) == Some(|rows|)
  {
    assert (rows + [row])[..|rows|] == rows;
  }

  /** The row the lazy insert creates: `total = usado + restantes = configured`, `usado = 0`. */
  function FreshRow(id: nat, loginP: string, senhaP: string, configured: int, today: int): ConsultDayRow {
    ConsultDayRow(id, loginP, senhaP, Some(configured), Some(0), Some(configured), today)
  }

  /** The row the check reads under lock: the principal's latest row, or the one created for it. */
  function LockedRow(rows: seq<ConsultDayRow>, nextId: nat, loginP: string, senhaP: string, total: int, today: int): (row: ConsultDayRow)
    ensures LatestFor(rows, loginP, senhaP).None? ==> row == FreshRow(nextId, loginP, senhaP, ConfiguredTotal(total), today)
    ensures LatestFor(rows, loginP, senhaP).Some? ==> row == rows[LatestFor(rows, loginP, senhaP).value]
  {
    match LatestFor(rows, loginP, senhaP)
    case Some(k) => rows[k]
    case None => FreshRow(nextId, loginP, senhaP, ConfiguredTotal(total), today)
  }

  /**
   * What `consumeConsultDay` commits: missing credentials and a non-positive
   * delta are refused before the transaction; otherwise the locked row's
   * counters are checked, and either the whole increment is committed or the
   * table is left exactly as it was (the lazily inserted row included).
   */
  function Consume(rows: seq<ConsultDayRow>, nextId: nat, loginP: string, senhaP: string,
                   usedDelta: int, total: int, today: int): (c: Consumed)
    ensures loginP == "" || senhaP == "" ==> c == Consumed(Err(MissingCredentials), rows)
    ensures loginP != "" && senhaP != "" && usedDelta <= 0 ==> c == Consumed(Err(NonPositiveDelta), rows)
    ensures c.result.Err? ==> c.rows == rows
    ensures loginP != "" && senhaP != "" && usedDelta > 0 ==>
      var row := LockedRow(rows, nextId, loginP, senhaP, total, today);
      var t := StoredTotal(row.total, ConfiguredTotal(total));
      var u := StoredUsed(row.usado);
      && (c.result.Err? <==> usedDelta > Remaining(t, u))
      && (c.result.Err? ==> c.result.error == LimitExceeded(LimitMeta(t, u, Remaining(t, u), usedDelta)))
      && (c.result.Ok? ==>
            && c.result.value == row.(usado := Some(u + usedDelta), restantes := Some(t - (u + usedDelta)), updatedDay := today)
            && u + usedDelta <= t)
    ensures c.result.Ok? ==>
      match LatestFor(rows, loginP, senhaP)
      case Some(k) => c.rows == rows[k := c.result.value] && c.result.value.id == rows[k].id
      case None => c.rows == rows + [c.result.value] && c.result.value.id == nextId
  {
    if loginP == "" || senhaP == "" then Consumed(Err(MissingCredentials), rows)
    else if usedDelta <= 0 then Consumed(Err(NonPositiveDelta), rows)
    else
      var k := LatestFor(rows, loginP, senhaP);
      var row := LockedRow(rows, nextId, loginP, senhaP, total, today);
      var currentTotal := StoredTotal(row.total, ConfiguredTotal(total));
      var currentUsed := StoredUsed(row.usado);
      var remaining := Remaining(currentTotal, currentUsed);
      if usedDelta > remaining then
        Consumed(Err(LimitExceeded(LimitMeta(currentTotal, currentUsed, remaining, usedDelta))), rows)
      else
        var nextUsed := currentUsed + usedDelta;
        var updated := row.(usado := Some(nextUsed), restantes := Some(Remaining(currentTotal, nextUsed)), updatedDay := today);
        if k.Some? then Consumed(Ok(updated), rows[k.value := updated])
        else Consumed(Ok(updated), rows + [updated])
  }

  // ---------------------------------------------------------------------------
  // The reset sweep

  /** An optional `@loginP` / `@senhaP` filter: an absent or empty value matches every row. */
  predicate FilterMatches(filter: Option<string>, value: string) {
    filter.None? || filter.value == "" || filter.value == value
  }

  /** The `WHERE` clause of the reset `UPDATE`. */
  predicate IsStale(row: ConsultDayRow, today: int, loginP: Option<string>, senhaP: Option<string>) {
    && row.updatedDay < today
    && row.usado.Some? && row.usado.value > 0
    && FilterMatches(loginP, row.loginP)
    && FilterMatches(senhaP, row.senhaP)
  }

  /** `CASE WHEN total IS NULL OR total < 0 THEN 0 ELSE total END`. */
  function ResetRestantes(total: Option<int>): (r: int)
    ensures r >= 0
  {
    if total.None? || total.value < 0 then 0 else total.value
  }

  /** The `SET` clause of the reset `UPDATE`. */
  function Cleared(row: ConsultDayRow, today: int): ConsultDayRow {
    row.(usado := Some(0), restantes := Some(ResetRestantes(row.total)), updatedDay := today)
  }

  /** One `OUTPUT` row: the counter and date before and after. */
  datatype ResetRecord = ResetRecord(
    id: nat, loginP: string, senhaP: string,
    usadoAnterior: int, usadoAtual: int, restantesAtual: int,
    updatedDayAnterior: int, updatedDayAtual: int)

  /** The table after the reset: exactly the stale rows are cleared, nothing else moves. */
  function ResetTable(rows: seq<ConsultDayRow>, today: int, loginP: Option<string>, senhaP: Option<string>): (out: seq<ConsultDayRow>)
    ensures |out| == |rows|
    ensures forall i :: 0 <= i < |rows| ==>
      out[i] == (if IsStale(rows[i], today, loginP, senhaP) then Cleared(rows[i], today) else rows[i])
  {
    if rows == [] then []
    else
      [if IsStale(rows[0], today, loginP, senhaP) then Cleared(rows[0], today) else rows[0]]
      + ResetTable(rows[1..], today, loginP, senhaP)
  }

  /** The rows the reset touches, in table order. */
  function StaleRows(rows: seq<ConsultDayRow>, today: int, loginP: Option<string>, senhaP: Option<string>): (out: seq<ConsultDayRow>)
    ensures |out| <= |rows|
    ensures forall k :: 0 <= k < |out| ==> out[k] in rows && IsStale(out[k], today, loginP, senhaP)
    ensures forall i :: 0 <= i < |rows| && IsStale(rows[i], today, loginP, senhaP) ==> rows[i] in out
    ensures out == [] <==> forall i :: 0 <= i < |rows| ==> !IsStale(rows[i], today, loginP, senhaP)
  {
    if rows == [] then []
    else
      (if IsStale(rows[0], today, loginP, senhaP) then [rows[0]] else [])
      + StaleRows(rows[1..], today, loginP, senhaP)
  }

  /** The stale rows of two stretches of the table, one after the other, are those of the whole: table order is kept. */
  lemma {:induction false} StaleRowsAppend(a: seq<ConsultDayRow>, b: seq<ConsultDayRow>, today: int,
                                           loginP: Option<string>, senhaP: Option<string>)
    ensures StaleRows(a + b, today, loginP, senhaP) == StaleRows(a, today, loginP, senhaP) + StaleRows(b, today, loginP, senhaP)
  {
    if a == [] {
      assert a + b == b;
    } else {
      assert (a + b)[1..] == a[1..] + b;
      StaleRowsAppend(a[1..], b, today, loginP, senhaP);
    }
  }

  function Snapshot(row: ConsultDayRow, today: int): ResetRecord
    requires row.usado.Some?
  {
    ResetRecord(row.id, row.loginP, row.senhaP, row.usado.value, 0, ResetRestantes(row.total), row.updatedDay, today)
  }

  /** One before/after record per affected row. */
  function ResetSnapshots(rows: seq<ConsultDayRow>, today: int, loginP: Option<string>, senhaP: Option<string>): (snaps: seq<ResetRecord>)
    ensures var stale := StaleRows(rows, today, loginP, senhaP);
      && |snaps| == |stale|
      && forall k :: 0 <= k < |snaps| ==>
           && snaps[k].id == stale[k].id && snaps[k].loginP == stale[k].loginP && snaps[k].senhaP == stale[k].senhaP
           && stale[k].usado.Some? && snaps[k].usadoAnterior == stale[k].usado.value > 0
           && snaps[k].usadoAtual == 0 && snaps[k].restantesAtual == ResetRestantes(stale[k].total) >= 0
           && snaps[k].updatedDayAnterior == stale[k].updatedDay < today && snaps[k].updatedDayAtual == today
  {
    var stale := StaleRows(rows, today, loginP, senhaP);
    seq(|stale|, k requires 0 <= k < |stale| => Snapshot(stale[k], today))
  }

  /** A second sweep on the same day changes nothing and reports nothing. */
  lemma ResetIsIdempotent(rows: seq<ConsultDayRow>, today: int, loginP: Option<string>, senhaP: Option<string>)
    ensures var once := ResetTable(rows, today, loginP, senhaP);
      && ResetTable(once, today, loginP, senhaP) == once
      && ResetSnapshots(once, today, loginP, senhaP) == []
  {
    var once := ResetTable(rows, today, loginP, senhaP);
    assert forall i :: 0 <= i < |once| ==> !IsStale(once[i], today, loginP, senhaP);
  }

  // ---------------------------------------------------------------------------
  // The table

  class ConsultDayTable {
    var rows: seq<ConsultDayRow>
    /** The identity seed: the id the next insert receives. Like SQL Server's, it is not rolled back. */
    var nextId: nat

    ghost predicate Valid()
      reads this
    {
      IdsIncreasing(rows) && forall i :: 0 <= i < |rows| ==> rows[i].id < nextId
    }

    constructor (initial: seq<ConsultDayRow>, seed: nat)
      requires IdsIncreasing(initial) && forall i :: 0 <= i < |initial| ==> initial[i].id < seed
      ensures Valid() && rows == initial && nextId == seed
    {
      rows := initial;
      nextId := seed;
    }

    /**
     * `consumeConsultDay`, step by step inside one transaction: lazily insert
     * the principal's row, re-read it, check, and either update it and commit
     * or roll everything back.
     */
    method ConsumeConsultDay(loginP: string, senhaP: string, usedDelta: int, total: int, today: int)
      returns (r: Result<ConsultDayRow, ConsumeError>)
      requires Valid()
      modifies this
      ensures Valid()
      ensures var c := Consume(old(rows), old(nextId), loginP, senhaP, usedDelta, total, today);
        r == c.result && rows == c.rows
      ensures nextId == old(nextId) + (
        if loginP != "" && senhaP != "" && usedDelta > 0 && LatestFor(old(rows), loginP, senhaP).None? then 1 else 0)
    {
      if loginP == "" || senhaP == "" {
        return Err(MissingCredentials);
      }
      if usedDelta <= 0 {
        return Err(NonPositiveDelta);
      }
      var snapshot := rows;
      var configured := ConfiguredTotal(total);
      var currentIndex: nat;
      var currentUsed := 0;
      var currentTotal := configured;
      var existing := LatestFor(rows, loginP, senhaP);
      if existing.Some? {
        currentIndex := existing.value;
        currentUsed := StoredUsed(rows[currentIndex].usado);
        currentTotal := StoredTotal(rows[currentIndex].total, configured);
      } else {
        var created := FreshRow(nextId, loginP, senhaP, configured, today);
        LatestForAppended(rows, created);
        rows := rows + [created];
        nextId := nextId + 1;
        var reload := LatestFor(rows, loginP, senhaP);
        currentIndex := reload.value;
        currentUsed := StoredUsed(rows[currentIndex].usado);
        currentTotal := StoredTotal(rows[currentIndex].total, configured);
      }
      var remaining := Remaining(currentTotal, currentUsed);
      if usedDelta > remaining {
        rows := snapshot;  // rollback, the lazily inserted row included
        return Err(LimitExceeded(LimitMeta(currentTotal, currentUsed, remaining, usedDelta)));
      }
      var nextUsed := currentUsed + usedDelta;
      var updated := rows[currentIndex].(usado := Some(nextUsed), restantes := Some(Remaining(currentTotal, nextUsed)), updatedDay := today);
      rows := rows[currentIndex := updated];
      r := Ok(updated);
    }

    /** `resetStaleConsultDayCounters`: one `UPDATE ... OUTPUT` over the whole table. */
    method ResetStaleConsultDayCounters(loginP: Option<string>, senhaP: Option<string>, today: int)
      returns (snaps: seq<ResetRecord>)
      requires Valid()
      modifies this
      ensures Valid() && nextId == old(nextId)
      ensures rows == ResetTable(old(rows), today, loginP, senhaP)
      ensures snaps == ResetSnapshots(old(rows), today, loginP, senhaP)
    {
      snaps := ResetSnapshots(rows, today, loginP, senhaP);
      rows := ResetTable(rows, today, loginP, senhaP);
    }
  }
}
