/**
 * The reset monitor of `src/consultDayResetMonitor.js`: a reentrancy flag
 * around the daily counter sweep and an idempotent start/stop over a timer
 * handle.
 *
 * A cycle is split at its one `await`: `BeginCycle` is what runs
 * synchronously when the cycle is called (the guard and the flag), and
 * `FinishCycle` is the settling of the sweep (the `finally`). A tick that
 * arrives while a sweep is in flight is a `BeginCycle` that finds the flag
 * set. `CONSULT_DAY_RESET_ENABLED` is read once, when the module loads, so it
 * is a constructor parameter; the login and password filters are read again
 * by every cycle, so they are parameters of the cycle ("" when unset). The
 * timer handle that `setInterval` returns is a parameter of `Start`, and
 * whether the sweep's UPDATE is rejected by the store is a parameter of
 * `FinishCycle`.
 */
module ConsultDayResetMonitor {
  import opened Wrappers
  import opened JsString
  import opened ConsultDayRepo

  /** `process.env.X || null`: an unset or empty variable means "no filter". */
  function EnvFilter(env: string): (f: Option<string>)
    ensures f.None? <==> env == ""
    ensures f.Some? ==> f.value == env
  {
    if env == "" then None else Some(env)
  }

  /** `String(env || "false").toLowerCase() === "true"`. */
  function ResetEnabled(env: string): (enabled: bool)
    ensures enabled <==> |env| == 4 && ToLower(env) == "true"
    ensures env == "" ==> !enabled
  {
    ToLower(if env == "" then "false" else env) == "true"
  }

  /** The `true` flag is read case-insensitively. */
  lemma ResetEnabledExamples()
    ensures ResetEnabled("true") && ResetEnabled("TRUE") && ResetEnabled("True")
    ensures !ResetEnabled("false") && !ResetEnabled("1") && !ResetEnabled("")
  {
    assert ToLower("TRUE") == "true";
    assert ToLower("True") == "true";
    assert ToLower("false") != "true";
  }

  class ResetMonitor {
    var isRunningCycle: bool
    var intervalRef: Option<nat>
    const enabled: bool

    constructor (enabledEnv: string)
      ensures !isRunningCycle && intervalRef.None?
      ensures enabled == ResetEnabled(enabledEnv)
    {
      isRunningCycle := false;
      intervalRef := None;
      enabled := ResetEnabled(enabledEnv);
    }

    /** The synchronous part of `runConsultDayResetCycle`: a no-op while a cycle runs, else the flag is set. */
    method BeginCycle() returns (started: bool)
      modifies this
      ensures started <==> !old(isRunningCycle)
      ensures isRunningCycle && intervalRef == old(intervalRef)
    {
      if isRunningCycle {
        return false;
      }
      isRunningCycle := true;
      started := true;
    }

    /**
     * The sweep settles: with the filters the environment holds now
     * (`loginEnv`, `senhaEnv`) it resets the stale rows,
     * or, when the store rejects it, changes nothing and the error is
     * swallowed. Either way the flag is cleared.
     */
    method FinishCycle(table: ConsultDayTable, loginEnv: string, senhaEnv: string, today: int, fails: bool) returns (reset: Option<seq<ResetRecord>>)
      requires table.Valid()
      modifies this, table
      ensures !isRunningCycle && intervalRef == old(intervalRef)
      ensures table.Valid() && table.nextId == old(table.nextId)
      ensures fails ==> reset.None? && table.rows == old(table.rows)
      ensures !fails ==> reset == Some(ResetSnapshots(old(table.rows), today, EnvFilter(loginEnv), EnvFilter(senhaEnv)))
                         && table.rows == ResetTable(old(table.rows), today, EnvFilter(loginEnv), EnvFilter(senhaEnv))
    {
      if fails {
        reset := None;
      } else {
        var snaps := table.ResetStaleConsultDayCounters(EnvFilter(loginEnv), EnvFilter(senhaEnv), today);
        reset := Some(snaps);
      }
      isRunningCycle := false;
    }

    /** A whole cycle, run to the end when no other cycle is in flight. */
    method RunConsultDayResetCycle(table: ConsultDayTable, loginEnv: string, senhaEnv: string, today: int, fails: bool) returns (reset: Option<seq<ResetRecord>>)
      requires table.Valid()
      modifies this, table
      ensures table.Valid() && intervalRef == old(intervalRef)
      ensures old(isRunningCycle) ==> reset.None? && isRunningCycle && table.rows == old(table.rows)
      ensures !old(isRunningCycle) ==> !isRunningCycle
      ensures !old(isRunningCycle) && fails ==> reset.None? && table.rows == old(table.rows)
      ensures !old(isRunningCycle) && !fails ==>
        && reset == Some(ResetSnapshots(old(table.rows), today, EnvFilter(loginEnv), EnvFilter(senhaEnv)))
        && table.rows == ResetTable(old(table.rows), today, EnvFilter(loginEnv), EnvFilter(senhaEnv))
    {
      var started := BeginCycle();
      if !started {
        return None;
      }
      reset := FinishCycle(table, loginEnv, senhaEnv, today, fails);
    }

    /**
     * `startConsultDayResetMonitor`: with a timer already set it returns that
     * timer; when disabled it returns null and sets none; otherwise it kicks
     * off a first cycle (which then runs up to its `await`) and keeps the new
     * timer `handle`.
     */
    method Start(handle: nat) returns (r: Option<nat>)
      modifies this
      ensures old(intervalRef).Some? ==>
        r == old(intervalRef) && intervalRef == old(intervalRef) && isRunningCycle == old(isRunningCycle)
      ensures old(intervalRef).None? && !enabled ==> r.None? && intervalRef.None? && isRunningCycle == old(isRunningCycle)
      ensures old(intervalRef).None? && enabled ==> r == Some(handle) && intervalRef == Some(handle) && isRunningCycle
    {
      if intervalRef.Some? {
        return intervalRef;
      }
      if !enabled {
        return None;
      }
      var _ := BeginCycle();
      intervalRef := Some(handle);
      r := intervalRef;
    }

    /** `stopConsultDayResetMonitor`: afterwards no timer is set; a cycle in flight is not cancelled. */
    method Stop()
      modifies this
      ensures intervalRef.None? && isRunningCycle == old(isRunningCycle)
    {
      if intervalRef.None? {
        return;
      }
      intervalRef := None;
    }
  }

  /** Starting twice creates one timer: the second start returns the first handle. */
  method StartIsIdempotent(m: ResetMonitor, first: nat, second: nat) returns (a: Option<nat>, b: Option<nat>)
    modifies m
    ensures a == b
    ensures m.enabled && old(m.intervalRef).None? ==> b == Some(first)
  {
    a := m.Start(first);
    b := m.Start(second);
  }
}
