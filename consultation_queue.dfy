/**
 * The single-lane serializer of `src/consultationQueue.js`. Every submitted
 * task is chained onto `tail`, so tasks run one at a time in submission order,
 * and `tail` swallows rejections so that a failing task does not stop the
 * lane. The JS event loop is replaced by three explicit events: a submit, the
 * start of the task at the head of the lane, and the settling of the running
 * task. Tasks are identified by the ticket their submit returns; a submit's
 * promise settles with `outcomes[ticket]`.
 */
module ConsultationQueue {
  import opened Wrappers

  /** How a task's promise settled. */
  datatype Outcome = Resolved(value: int) | Rejected(reason: string)

  const NotAFunctionText := "task precisa ser uma funcao"

  /**
   * The lane: the two counters the source keeps (`running`, `waiting`), plus
   * what the promise chain holds implicitly: the tickets still queued behind
   * `tail`, the running one, the tickets started so far and the outcomes.
   */
  datatype Lane = Lane(running: bool, waiting: int, queued: seq<nat>, current: Option<nat>,
                       started: seq<nat>, outcomes: map<nat, Outcome>, nextTicket: nat)

  /** The lane before any submit. */
  const Initial := Lane(false, 0, [], None, [], map[], 0)

  /** The tickets 0, 1, ..., n - 1 in submission order. */
  function Tickets(n: nat): (ts: seq<nat>)
    ensures |ts| == n && forall i :: 0 <= i < n ==> ts[i] == i
  {
    if n == 0 then [] else Tickets(n - 1) + [n - 1]
  }

  /**
   * The lane's invariant: `waiting` counts the queued tickets, `running` says
   * whether a task runs, tickets start in submission order, and every started
   * ticket other than the running one has settled.
   */
  ghost predicate Inv(l: Lane) {
    && l.waiting == |l.queued|
    && (l.running <==> l.current.Some?)
    && l.started + l.queued == Tickets(l.nextTicket)
    && (l.current.Some? ==> l.started != [] && l.current.value == l.started[|l.started| - 1])
    && (forall t :: t in l.outcomes <==> t in l.started && l.current != Some(t))
  }

  /** `runInConsultationQueue`: a non-function is refused; anything else is queued behind `tail`. */
  function Submit(l: Lane, isFunction: bool): (r: Result<(Lane, nat), string>)
    ensures !isFunction ==> r == Err(NotAFunctionText)
    ensures isFunction ==> (
      && r.Ok?
      && r.value.1 == l.nextTicket
      && r.value.0 == l.(waiting := l.waiting + 1, queued := l.queued + [l.nextTicket], nextTicket := l.nextTicket + 1))
  {
    if !isFunction then Err(NotAFunctionText)
    else Ok((l.(waiting := l.waiting + 1, queued := l.queued + [l.nextTicket], nextTicket := l.nextTicket + 1), l.nextTicket))
  }

  /** Whether the task at the head of the lane may start: the previous task has settled. */
  predicate CanStart(l: Lane) {
    l.current.None? && l.queued != []
  }

  /** The `tail.then` callback: the head ticket starts, `waiting` drops (clamped at 0), `running` is set. */
  function Begin(l: Lane): (r: Lane)
    ensures CanStart(l) ==> r.current == Some(l.queued[0]) && r.queued == l.queued[1..] && r.running
    ensures !CanStart(l) ==> r == l
  {
    if !CanStart(l) then l
    else l.(waiting := if l.waiting - 1 < 0 then 0 else l.waiting - 1, running := true,
            queued := l.queued[1..], current := Some(l.queued[0]), started := l.started + [l.queued[0]])
  }

  /** The running task settles: `finally` clears `running` and its promise takes the outcome. */
  function Settle(l: Lane, outcome: Outcome): (r: Lane)
    ensures l.current.Some? ==> !r.running && r.current.None? && r.outcomes == l.outcomes[l.current.value := outcome]
    ensures l.current.None? ==> r == l
  {
    if l.current.None? then l
    else l.(running := false, current := None, outcomes := l.outcomes[l.current.value := outcome])
  }

  /** `getConsultationQueueStats`. */
  function Stats(l: Lane): (s: (bool, int))
    ensures s == (l.running, l.waiting)
    ensures Inv(l) ==> (s.0 <==> l.current.Some?) && s.1 == |l.queued|
  {
    (l.running, l.waiting)
  }

  lemma InitialInv()
    ensures Inv(Initial)
  {
  }

  lemma {:induction false} SubmitKeepsInv(l: Lane, isFunction: bool)
    requires Inv(l)
    ensures Submit(l, isFunction).Ok? ==> Inv(Submit(l, isFunction).value.0)
  {
    if isFunction {
      assert Tickets(l.nextTicket + 1) == Tickets(l.nextTicket) + [l.nextTicket];
      assert l.started + (l.queued + [l.nextTicket]) == (l.started + l.queued) + [l.nextTicket];
    }
  }

  /** With the invariant, the clamp of `Math.max(0, waiting - 1)` never bites: `waiting` stays the queue length. */
  lemma {:induction false} BeginKeepsInv(l: Lane)
    requires Inv(l)
    ensures Inv(Begin(l))
    ensures CanStart(l) ==> Begin(l).waiting == l.waiting - 1
  {
    if CanStart(l) {
      var r := Begin(l);
      assert r.started + r.queued == l.started + l.queued by {
        assert l.queued == [l.queued[0]] + l.queued[1..];
      }
      forall t
        ensures t in r.outcomes <==> t in r.started && r.current != Some(t)
      {
        if t == l.queued[0] {
          // A queued ticket has not started yet, so it has no outcome.
          assert (l.started + l.queued)[|l.started|] == t;
          assert t == |l.started|;
          assert forall k :: 0 <= k < |l.started| ==> l.started[k] == (l.started + l.queued)[k];
          assert t !in l.started;
        }
      }
    }
  }

  lemma SettleKeepsInv(l: Lane, outcome: Outcome)
    requires Inv(l)
    ensures Inv(Settle(l, outcome))
  {
  }

  /** An outcome, once recorded, is never changed by later events: each submit settles with its own task's outcome. */
  lemma OutcomesAreFinal(l: Lane, isFunction: bool, outcome: Outcome, t: nat)
    requires Inv(l) && t in l.outcomes
    ensures Submit(l, isFunction).Ok? ==> Submit(l, isFunction).value.0.outcomes[t] == l.outcomes[t]
    ensures Begin(l).outcomes[t] == l.outcomes[t]
    ensures Settle(l, outcome).outcomes[t] == l.outcomes[t]
  {
  }

  /**
   * Tasks start in submission order, and only once the previous one has
   * settled: the ticket that starts is the next one after every started
   * ticket, all of which have an outcome.
   */
  lemma {:induction false} BeginIsFifo(l: Lane)
    requires Inv(l) && CanStart(l)
    ensures Begin(l).current == Some(|l.started|)
    ensures forall t :: t in l.started ==> t in l.outcomes
  {
    assert (l.started + l.queued)[|l.started|] == l.queued[0];
  }

  /** A rejected task does not block the lane: after it settles, the next queued task can start. */
  lemma RejectionDoesNotStopLane(l: Lane, reason: string)
    requires Inv(l) && l.current.Some? && l.queued != []
    ensures CanStart(Settle(l, Rejected(reason)))
    ensures Begin(Settle(l, Rejected(reason))).current == Some(l.queued[0])
  {
  }

  /** The serializer's module-level state. */
  class ConsultationLane {
    var running: bool
    var waiting: int
    var queued: seq<nat>
    var current: Option<nat>
    var started: seq<nat>
    var outcomes: map<nat, Outcome>
    var nextTicket: nat

    function State(): Lane
      reads this
    {
      Lane(running, waiting, queued, current, started, outcomes, nextTicket)
    }

    /** The lane's state keeps the invariant its transitions are proved to preserve. */
    ghost predicate Valid()
      reads this
    {
      Inv(State())
    }

    constructor ()
      ensures State() == Initial && Valid()
    {
      running := false;
      waiting := 0;
      queued := [];
      current := None;
      started := [];
      outcomes := map[];
      nextTicket := 0;
      InitialInv();
    }

    /** `runInConsultationQueue(task)`: returns the ticket whose outcome the caller's promise takes. */
    method RunInConsultationQueue(isFunction: bool) returns (r: Result<nat, string>)
      requires Valid()
      modifies this
      ensures Valid()
      ensures var s := Submit(old(State()), isFunction);
        && (s.Err? ==> r == Err(s.error) && State() == old(State()))
        && (s.Ok? ==> r == Ok(s.value.1) && State() == s.value.0)
    {
      if !isFunction {
        return Err(NotAFunctionText);
      }
      waiting := waiting + 1;
      queued := queued + [nextTicket];
      r := Ok(nextTicket);
      nextTicket := nextTicket + 1;
      SubmitKeepsInv(old(State()), isFunction);
    }

    /** The head task starts once the previous one has settled. */
    method StartNext()
      requires Valid()
      modifies this
      ensures Valid() && State() == Begin(old(State()))
    {
      BeginKeepsInv(State());
      if current.None? && queued != [] {
        waiting := if waiting - 1 < 0 then 0 else waiting - 1;
        running := true;
        current := Some(queued[0]);
        started := started + [queued[0]];
        queued := queued[1..];
      }
    }

    /** The running task settles with `outcome`. */
    method SettleCurrent(outcome: Outcome)
      requires Valid()
      modifies this
      ensures Valid() && State() == Settle(old(State()), outcome)
    {
      SettleKeepsInv(State(), outcome);
      if current.Some? {
        outcomes := outcomes[current.value := outcome];
        running := false;
        current := None;
      }
    }

    /** `getConsultationQueueStats`. */
    method GetConsultationQueueStats() returns (isRunning: bool, isWaiting: int)
      ensures (isRunning, isWaiting) == Stats(State())
    {
      isRunning, isWaiting := running, waiting;
    }
  }
}
