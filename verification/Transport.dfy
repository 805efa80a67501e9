/** The retry loop every outbound identity request goes through. */
module Transport {
  import opened Basics

  datatype TransportKind = Dns | ConnectionRefused | Tls | OtherTransport
  datatype HttpError = Transport(kind: TransportKind) | RateLimited(retryAfterMs: U64) | Refused
  datatype Outcome = Response(status: nat) | Failure(error: HttpError)

  datatype Retry = NeverLeftOnly | Repeatable

  /** The request certainly never reached the server. */
  predicate NeverLeft(e: HttpError) {
    e.RateLimited? || (e.Transport? && !e.kind.OtherTransport?)
  }

  /** The server may have seen the request: it answered, or a connection to it was up when the execution
      failed. No name, no connection, no handshake or no leave of the rate limiter means it did not. */
  predicate MayHaveArrived(o: Outcome) {
    match o
    case Response(_) => true
    case Failure(Transport(Dns)) => false
    case Failure(Transport(ConnectionRefused)) => false
    case Failure(Transport(Tls)) => false
    case Failure(Transport(OtherTransport)) => true
    case Failure(RateLimited(_)) => false
    case Failure(Refused) => true
  }

  /** What is tried again: always what never arrived, and what may have only in repeatable requests, when
      the transport failed or the server did. */
  lemma AgainIff(o: Outcome, retry: Retry)
    ensures Again(o, retry) <==>
            !MayHaveArrived(o)
            || (retry.Repeatable? && ((o.Response? && o.status >= 500) || o == Failure(Transport(OtherTransport))))
  {
  }

  predicate Again(o: Outcome, retry: Retry) {
    match o
    case Failure(e) => NeverLeft(e) || (e.Transport? && retry.Repeatable?)
    case Response(status) => retry.Repeatable? && status >= 500
  }

  function Max(a: int, b: int): int {
    if a >= b then a else b
  }

  function Min(a: int, b: int): int {
    if a <= b then a else b
  }

  /** `2^n` for the shift of the back-off. */
  function Shift(n: nat): nat {
    if n == 0 then 1 else 2 * Shift(n - 1)
  }

  /** The delay after the failed execution number `attempt` (from 1). */
  function Delay(backoff: Duration, attempt: nat, o: Outcome): Duration
    requires attempt >= 1
  {
    var base := Min(backoff * Shift(Min(attempt - 1, 4)), DURATION_MAX);
    if o.Failure? && o.error.RateLimited?
    then Max(base, Min(o.error.retryAfterMs, 2_000) * NANOS_PER_MILLI)
    else base
  }

  lemma {:induction false} ShiftAtMost16(n: nat)
    requires n <= 4
    ensures 1 <= Shift(n) <= 16
    ensures n < 4 ==> Shift(n) <= 8
    ensures n < 3 ==> Shift(n) <= 4
    ensures n < 2 ==> Shift(n) <= 2
  {
    if n > 0 {
      ShiftAtMost16(n - 1);
    }
  }

  /** No single delay exceeds sixteen times the base or two seconds, whichever is more. */
  lemma DelayIsBounded(backoff: Duration, attempt: nat, o: Outcome)
    requires attempt >= 1
    ensures Delay(backoff, attempt, o) <= Max(16 * backoff, 2_000 * NANOS_PER_MILLI)
  {
    var n := Min(attempt - 1, 4);
    ShiftAtMost16(n);
    assert backoff * Shift(n) <= backoff * 16;
  }

  /** How many of the first `n` executions the server may have seen. */
  function Delivered(script: nat -> Outcome, n: nat): nat {
    if n == 0 then 0 else Delivered(script, n - 1) + if MayHaveArrived(script(n - 1)) then 1 else 0
  }

  lemma {:induction false} NeverLeftIsUnspent(script: nat -> Outcome, n: nat)
    requires forall k :: 0 <= k < n ==> Again(script(k), NeverLeftOnly)
    ensures Delivered(script, n) == 0
  {
    if n > 0 {
      NeverLeftIsUnspent(script, n - 1);
      assert Again(script(n - 1), NeverLeftOnly);
    }
  }

  /** The schedule of the delays: doubling to sixteen times the base, saturating, and at least what a rate
      limiter asks for up to two seconds. */
  lemma DelaySchedule(backoff: Duration, attempt: nat, o: Outcome)
    requires attempt >= 1
    ensures var times := if attempt == 1 then 1 else if attempt == 2 then 2 else if attempt == 3 then 4
                         else if attempt == 4 then 8 else 16;
            var base := if backoff * times > DURATION_MAX then DURATION_MAX else backoff * times;
            var asked := if o.Failure? && o.error.RateLimited?
                         then (if o.error.retryAfterMs > 2_000 then 2_000 else o.error.retryAfterMs) * NANOS_PER_MILLI
                         else 0;
            Delay(backoff, attempt, o) == if asked > base then asked else base
  {
    assert Shift(0) == 1 && Shift(1) == 2 && Shift(2) == 4 && Shift(3) == 8 && Shift(4) == 16 by {
      assert Shift(2) == 2 * Shift(1) && Shift(3) == 2 * Shift(2) && Shift(4) == 2 * Shift(3);
    }
  }

  /**
   Executes `script(0)`, `script(1)`, … and stops at the first outcome that is not retried, or at the
   last attempt. Under `NeverLeftOnly` the server sees the request at most once, and the result tells
   whether it may have: if not, a one-time code or a rotating refresh token is still unspent.
   */
  method Send(script: nat -> Outcome, retry: Retry, requestAttempts: nat, backoff: Duration)
    returns (result: Outcome, executions: nat, delays: seq<Duration>)
    ensures 1 <= executions <= Max(1, requestAttempts)
    ensures result == script(executions - 1)
    ensures forall k :: 0 <= k < executions - 1 ==> Again(script(k), retry)
    ensures executions < Max(1, requestAttempts) ==> !Again(result, retry)
    ensures retry.NeverLeftOnly? ==> Delivered(script, executions) == if MayHaveArrived(result) then 1 else 0
    ensures |delays| == executions - 1
    ensures forall k :: 0 <= k < |delays| ==> delays[k] == Delay(backoff, k + 1, script(k))
  {
    var attempts := Max(1, requestAttempts);
    var attempt := 1;
    delays := [];
    result := script(0);
    while attempt < attempts && Again(result, retry)
      invariant 1 <= attempt <= attempts
      invariant result == script(attempt - 1)
      invariant forall k :: 0 <= k < attempt - 1 ==> Again(script(k), retry)
      invariant |delays| == attempt - 1
      invariant forall k :: 0 <= k < |delays| ==> delays[k] == Delay(backoff, k + 1, script(k))
    {
      delays := delays + [Delay(backoff, attempt, result)];
      attempt := attempt + 1;
      result := script(attempt - 1);
    }
    executions := attempt;
    if retry.NeverLeftOnly? {
      NeverLeftIsUnspent(script, attempt - 1);
    }
  }
}
