/**
 * The partner-API client of `src/presencaClient.js`: the retry and back-off
 * policy of `postWithRetry`, and the predicate by which `acceptTermoHeadless`
 * decides that the consent page accepted the term.
 *
 * The transport is an oracle: `outcome(k)` is what the k-th POST attempt
 * (counting from 1) produced. Waits are recorded, not slept.
 */
module PresencaClient {
  import opened Wrappers
  import opened JsString

  /** What one `axios.post` produced. */
  datatype Attempt<D> =
    | Answered(status: int, data: D)     // a 2xx response
    | HttpError(status: int, data: D)    // a thrown error carrying `err.response`
    | NoResponse(detail: string)         // a thrown error without a response; `detail` is `String(err.message || err)`

  datatype Body<D> = Data(d: D) | CommError(error: string, detail: string)

  /** The `{ status, data }` that `postWithRetry` resolves to. */
  datatype Reply<D> = Reply(status: int, body: Body<D>)

  const CommErrorText: string := "Falha de comunicacao com a API"

  /** `Math.max(1, retries + 1)`. */
  function AttemptCount(retries: int): (n: nat)
    ensures n >= 1 && n >= retries + 1
    ensures n == 1 || n == retries + 1
  {
    if retries + 1 < 1 then 1 else retries + 1
  }

  function Pow2(k: nat): (p: nat)
    ensures p >= 1
  {
    if k == 0 then 1 else 2 * Pow2(k - 1)
  }

  /** The waits after the first `count` failed attempts: `retryDelayMs * 2 ** (attempt - 1)`. */
  function Schedule(retryDelayMs: int, count: nat): seq<int> {
    seq(count, k requires 0 <= k < count => retryDelayMs * Pow2(k))
  }

  /** The first attempt in `[from, n]` that got an HTTP answer, if any. */
  function FirstAnswer<D>(outcome: nat -> Attempt<D>, from: nat, n: nat): (k: Option<nat>)
    ensures k.Some? ==> from <= k.value <= n && !outcome(k.value).NoResponse?
    ensures k.Some? ==> forall j :: from <= j < k.value ==> outcome(j).NoResponse?
    ensures k.None? ==> forall j :: from <= j <= n ==> outcome(j).NoResponse?
    decreases n + 1 - from
  {
    if from > n then None
    else if !outcome(from).NoResponse? then Some(from)
    else FirstAnswer(outcome, from + 1, n)
  }

  function ReplyOf<D>(a: Attempt<D>): Reply<D>
    requires !a.NoResponse?
  {
    Reply(a.status, Data(a.data))
  }

  /**
   * `postWithRetry`: at most `max(1, retries + 1)` attempts; the first answer,
   * success or HTTP error, is returned as it is; between attempts without an
   * answer it waits `retryDelayMs * 2^(k-1)` after attempt k, never after the
   * last; when every attempt fails it returns status 0 with an error payload.
   */
  method PostWithRetry<D>(retries: int, retryDelayMs: int, outcome: nat -> Attempt<D>)
    returns (reply: Reply<D>, waits: seq<int>)
    ensures var n := AttemptCount(retries);
      match FirstAnswer(outcome, 1, n)
      case Some(k) => reply == ReplyOf(outcome(k)) && waits == Schedule(retryDelayMs, k - 1)
      case None =>
        && reply == Reply(0, CommError(CommErrorText, outcome(n).detail))
        && waits == Schedule(retryDelayMs, n - 1)
  {
    var attempts := AttemptCount(retries);
    var lastErr: Option<string> := None;
    waits := [];
    var attempt := 1;
    while attempt <= attempts
      invariant 1 <= attempt <= attempts + 1
      invariant forall j :: 1 <= j < attempt ==> outcome(j).NoResponse?
      invariant FirstAnswer(outcome, 1, attempts) == FirstAnswer(outcome, attempt, attempts)
      invariant waits == Schedule(retryDelayMs, if attempt <= attempts then attempt - 1 else attempts - 1)
      invariant attempt > 1 ==> lastErr == Some(outcome(attempt - 1).detail)
    {
      var o := outcome(attempt);
      if o.Answered? {
        return Reply(o.status, Data(o.data)), waits;
      }
      lastErr := if o.NoResponse? then Some(o.detail) else lastErr;
      if o.HttpError? {
        return Reply(o.status, Data(o.data)), waits;
      }
      if attempt < attempts {
        var wait := retryDelayMs * Pow2(attempt - 1);
        assert Schedule(retryDelayMs, attempt) == Schedule(retryDelayMs, attempt - 1) + [wait];
        waits := waits + [wait];
      }
      attempt := attempt + 1;
    }
    var detail := if lastErr.Some? then lastErr.value else "erro desconhecido";
    reply := Reply(0, CommError(CommErrorText, detail));
  }

  // ---------------------------------------------------------------------------
  // Acceptance of the consent term

  /** A POST/PUT/PATCH response the headless browser recorded. */
  datatype Call = Call(verb: string, url: string, status: int)

  const TermoPath: string := "/consultas/termo-inss/"

  /** The URL fragment the accepting PUT must contain. */
  function Needle(autorizacaoId: Option<string>): (n: string)
    ensures autorizacaoId.Some? && autorizacaoId.value != "" ==> n == TermoPath + autorizacaoId.value
    ensures autorizacaoId.None? || autorizacaoId.value == "" ==> n == TermoPath
  {
    if autorizacaoId.Some? && autorizacaoId.value != "" then TermoPath + autorizacaoId.value else TermoPath
  }

  predicate IsAcceptingCall(c: Call, needle: string) {
    c.verb == "PUT" && 200 <= c.status < 300 && Includes(c.url, needle)
  }

  /** `calls.some(...)`, the `ok` of `acceptTermoHeadless`. */
  function TermoAccepted(calls: seq<Call>, autorizacaoId: Option<string>): (ok: bool)
    ensures ok <==> exists i :: 0 <= i < |calls| && IsAcceptingCall(calls[i], Needle(autorizacaoId))
  {
    if calls == [] then false
    else IsAcceptingCall(calls[0], Needle(autorizacaoId)) || TermoAccepted(calls[1..], autorizacaoId)
  }

  /** A string that contains `a + b` contains `a`. */
  lemma IncludesPrefix(s: string, a: string, b: string)
    requires Includes(s, a + b)
    ensures Includes(s, a)
  {
    var i :| 0 <= i <= |s| - |a + b| && OccursAt(s, a + b, i);
    assert s[i..i + |a|] == (a + b)[..|a|] == a;
    assert OccursAt(s, a, i);
  }

  /** Acceptance against a specific authorisation id implies acceptance against the generic path. */
  lemma AcceptedForIdIsAccepted(calls: seq<Call>, autorizacaoId: Option<string>)
    ensures TermoAccepted(calls, autorizacaoId) ==> TermoAccepted(calls, None)
  {
    if TermoAccepted(calls, autorizacaoId) {
      var i :| 0 <= i < |calls| && IsAcceptingCall(calls[i], Needle(autorizacaoId));
      if autorizacaoId.Some? && autorizacaoId.value != "" {
        IncludesPrefix(calls[i].url, TermoPath, autorizacaoId.value);
      }
      assert IsAcceptingCall(calls[i], Needle(None));
    }
  }
}
