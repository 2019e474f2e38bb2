/**
 * The retry policy of the blocking client's `post`, `get` and `delete`, as a function of the
 * outcomes the transport produces: attempt `k` (from 0) meets `replies(k)`. A 502 response or a
 * `RequestException` is retried after sleeping `backoff * 2^k` seconds, as long as attempts remain.
 */
module Retry {
  import opened Transport

  /** The attempt budget and backoff factor a call gets when its caller does not choose them. */
  const DefaultRetries: int := 3
  const DefaultBackoff: real := 0.5

  /** What a call did: its result, how many transport calls it made, the sleeps it asked for. */
  datatype Trace = Trace(result: CallResult, calls: nat, sleeps: seq<real>)

  function Pow2(k: nat): (p: nat)
    ensures p >= 1
  {
    if k == 0 then 1 else 2 * Pow2(k - 1)
  }

  /** The sleep before the attempt after attempt `k`. */
  function Backoff(backoff: real, k: nat): real {
    backoff * Pow2(k) as real
  }

  /** Outcomes the client retries while attempts remain: a 502, or a `RequestException`. */
  predicate IsRetryable(o: Outcome) {
    (o.Replied? && o.response.status == 502) || (o.Failed? && o.fault.RequestError?)
  }

  /** Attempts `attempt`, `attempt + 1`, ... of a call allowed `retries` attempts. */
  function RunFrom(replies: nat -> Outcome, retries: int, backoff: real, attempt: nat): Trace
    requires attempt < retries
    decreases retries - attempt
  {
    var o := replies(attempt);
    if !IsRetryable(o) || attempt == retries - 1 then
      Trace(Final(o), attempt + 1, [])
    else if Backoff(backoff, attempt) < 0.0 then
      Trace(Raised(NegativeSleep), attempt + 1, [])
    else
      var rest := RunFrom(replies, retries, backoff, attempt + 1);
      Trace(rest.result, rest.calls, [Backoff(backoff, attempt)] + rest.sleeps)
  }

  /** A whole call; with no attempt allowed, it raises a generic error naming the method. */
  function Run(replies: nat -> Outcome, retries: int, backoff: real, verb: Verb): Trace {
    if retries <= 0 then Trace(Raised(Unexpected("Unexpected error in " + verb.Name() + " request")), 0, [])
    else RunFrom(replies, retries, backoff, 0)
  }

  lemma {:induction false} RunFromShape(replies: nat -> Outcome, retries: int, backoff: real, attempt: nat)
    requires attempt < retries
    ensures var t := RunFrom(replies, retries, backoff, attempt);
      && attempt < t.calls <= retries
      && (forall j :: attempt <= j < t.calls - 1 ==> IsRetryable(replies(j)))
      && (backoff >= 0.0 ==>
            && t.result == Final(replies(t.calls - 1))
            && (t.calls == retries || !IsRetryable(replies(t.calls - 1)))
            && |t.sleeps| == t.calls - 1 - attempt
            && forall k :: 0 <= k < |t.sleeps| ==> t.sleeps[k] == Backoff(backoff, attempt + k))
    decreases retries - attempt
  {
    var o := replies(attempt);
    if IsRetryable(o) && attempt < retries - 1 && Backoff(backoff, attempt) >= 0.0 {
      RunFromShape(replies, retries, backoff, attempt + 1);
    }
  }

  /** Without an attempt the call raises at once; otherwise it makes between 1 and `retries` calls. */
  lemma RunCallBudget(replies: nat -> Outcome, retries: int, backoff: real, verb: Verb)
    ensures var t := Run(replies, retries, backoff, verb);
      && (retries <= 0 ==> t == Trace(Raised(Unexpected("Unexpected error in " + verb.Name() + " request")), 0, []))
      && (retries > 0 ==> 1 <= t.calls <= retries && |t.sleeps| < t.calls)
  {
    if retries > 0 {
      RunFromShape(replies, retries, backoff, 0);
      RunFromSleeps(replies, retries, backoff, 0);
    }
  }

  lemma {:induction false} RunFromSleeps(replies: nat -> Outcome, retries: int, backoff: real, attempt: nat)
    requires attempt < retries
    ensures var t := RunFrom(replies, retries, backoff, attempt); |t.sleeps| < t.calls - attempt
    decreases retries - attempt
  {
    var o := replies(attempt);
    if IsRetryable(o) && attempt < retries - 1 && Backoff(backoff, attempt) >= 0.0 {
      RunFromSleeps(replies, retries, backoff, attempt + 1);
    }
  }

  /**
   * With a non-negative backoff, a call ends on the first outcome that is not retryable, or on the
   * last allowed attempt, and passes that outcome on unchanged: a 502 on the last attempt is
   * returned, a `RequestException` on the last attempt is raised.
   */
  lemma RunEndsOnDecisiveOutcome(replies: nat -> Outcome, retries: int, backoff: real, verb: Verb)
    requires retries > 0 && backoff >= 0.0
    ensures var t := Run(replies, retries, backoff, verb);
      && 1 <= t.calls
      && t.result == Final(replies(t.calls - 1))
      && (forall j :: 0 <= j < t.calls - 1 ==> IsRetryable(replies(j)))
      && (t.calls == retries || !IsRetryable(replies(t.calls - 1)))
  {
    RunFromShape(replies, retries, backoff, 0);
  }

  /** With a non-negative backoff the call sleeps before every retry, `backoff * 2^k` after attempt `k`. */
  lemma RunBackoffSchedule(replies: nat -> Outcome, retries: int, backoff: real, verb: Verb)
    requires retries > 0 && backoff >= 0.0
    ensures var t := Run(replies, retries, backoff, verb);
      && |t.sleeps| == t.calls - 1
      && forall k :: 0 <= k < |t.sleeps| ==> t.sleeps[k] == backoff * Pow2(k) as real
  {
    RunFromShape(replies, retries, backoff, 0);
  }

  /** Conversely: if attempts `0..n-1` all meet retryable outcomes and attempt `n` does not, the call ends there. */
  lemma {:induction false} RunFromStopsAt(replies: nat -> Outcome, retries: int, backoff: real, attempt: nat, n: nat)
    requires attempt <= n < retries && backoff >= 0.0
    requires forall j :: attempt <= j < n ==> IsRetryable(replies(j))
    requires !IsRetryable(replies(n))
    ensures var t := RunFrom(replies, retries, backoff, attempt); t.result == Final(replies(n)) && t.calls == n + 1
    decreases n - attempt
  {
    if attempt < n {
      assert IsRetryable(replies(attempt));
      RunFromStopsAt(replies, retries, backoff, attempt + 1, n);
    }
  }

  /** Any exception other than a `RequestException`, and any status other than 502, ends the call at once. */
  lemma RunStopsAtFirstDecisiveOutcome(replies: nat -> Outcome, retries: int, backoff: real, verb: Verb, n: nat)
    requires n < retries && backoff >= 0.0
    requires forall j :: 0 <= j < n ==> IsRetryable(replies(j))
    requires !IsRetryable(replies(n))
    ensures var t := Run(replies, retries, backoff, verb); t.result == Final(replies(n)) && t.calls == n + 1
  {
    RunFromStopsAt(replies, retries, backoff, 0, n);
  }

  /** A negative backoff makes the first retry's sleep raise `ValueError` after one call. */
  lemma RunNegativeBackoff(replies: nat -> Outcome, retries: int, backoff: real, verb: Verb)
    requires retries > 1 && backoff < 0.0 && IsRetryable(replies(0))
    ensures Run(replies, retries, backoff, verb) == Trace(Raised(NegativeSleep), 1, [])
  {
    assert Backoff(backoff, 0) == backoff;
  }

  function Status(code: int): Outcome {
    Replied(Response(code, ""))
  }

  function GatewayErrorsThenOk(k: nat): Outcome {
    if k < 2 then Status(502) else Status(200)
  }

  function AlwaysGatewayError(k: nat): Outcome {
    Status(502)
  }

  function AlwaysTransportFault(k: nat): Outcome {
    Failed(RequestError("ConnectionError"))
  }

  /** 502, 502, 200 with three attempts: the 200 is returned after exactly three calls. */
  lemma ScenarioTwoGatewayErrorsThenSuccess(backoff: real)
    requires backoff >= 0.0
    ensures var t := Run(GatewayErrorsThenOk, 3, backoff, Post);
      t.result == Returned(Response(200, "")) && t.calls == 3 && t.sleeps == [backoff, 2.0 * backoff]
  {
    RunFromStopsAt(GatewayErrorsThenOk, 3, backoff, 0, 2);
    RunFromShape(GatewayErrorsThenOk, 3, backoff, 0);
    assert Pow2(1) == 2;
  }

  /** 502 on every attempt with two attempts: the last 502 is returned, not raised, after two calls. */
  lemma ScenarioGatewayErrorExhausted(backoff: real)
    requires backoff >= 0.0
    ensures var t := Run(AlwaysGatewayError, 2, backoff, Post);
      t.result == Returned(Response(502, "")) && t.calls == 2 && t.sleeps == [backoff]
  {
    RunFromShape(AlwaysGatewayError, 2, backoff, 0);
  }

  /** A transport fault on every attempt with two attempts: raised after two calls and one sleep of `backoff`. */
  lemma ScenarioTransportFaultExhausted(backoff: real)
    requires backoff >= 0.0
    ensures var t := Run(AlwaysTransportFault, 2, backoff, Get);
      t.result == Raised(RequestError("ConnectionError")) && t.calls == 2 && t.sleeps == [backoff]
  {
    RunFromShape(AlwaysTransportFault, 2, backoff, 0);
  }

  /**
   * Under the default policy a call makes one to three transport calls and sleeps 0.5 s before
   * the second and 1 s before the third.
   */
  lemma DefaultPolicy(replies: nat -> Outcome, verb: Verb)
    ensures var t := Run(replies, DefaultRetries, DefaultBackoff, verb);
      1 <= t.calls <= 3 && t.sleeps == [0.5, 1.0][..t.calls - 1]
  {
    var t := Run(replies, DefaultRetries, DefaultBackoff, verb);
    RunCallBudget(replies, DefaultRetries, DefaultBackoff, verb);
    RunBackoffSchedule(replies, DefaultRetries, DefaultBackoff, verb);
    assert Pow2(1) == 2;
    if t.calls == 3 {
      assert t.sleeps == [t.sleeps[0], t.sleeps[1]];
    } else if t.calls == 2 {
      assert t.sleeps == [t.sleeps[0]];
    }
  }

  /** The whole call agrees with what attempts `attempt`, `attempt + 1`, ... do after the sleeps in `slept`. */
  predicate RunsOnFrom(replies: nat -> Outcome, retries: int, backoff: real, verb: Verb, attempt: nat, slept: seq<real>)
    requires attempt < retries
  {
    var t := RunFrom(replies, retries, backoff, attempt);
    Run(replies, retries, backoff, verb) == Trace(t.result, t.calls, slept + t.sleeps)
  }

  /** One retry: the sleep before the next attempt joins the ones already taken. */
  lemma RunsOnFromNext(replies: nat -> Outcome, retries: int, backoff: real, verb: Verb, attempt: nat, slept: seq<real>)
    requires attempt < retries - 1 && IsRetryable(replies(attempt)) && Backoff(backoff, attempt) >= 0.0
    requires RunsOnFrom(replies, retries, backoff, verb, attempt, slept)
    ensures RunsOnFrom(replies, retries, backoff, verb, attempt + 1, slept + [Backoff(backoff, attempt)])
  {
    var rest := RunFrom(replies, retries, backoff, attempt + 1);
    assert slept + ([Backoff(backoff, attempt)] + rest.sleeps) == (slept + [Backoff(backoff, attempt)]) + rest.sleeps;
  }

  /** The call ends at `attempt` with its outcome passed on. */
  lemma RunsOnFromFinal(replies: nat -> Outcome, retries: int, backoff: real, verb: Verb, attempt: nat, slept: seq<real>)
    requires attempt < retries && (!IsRetryable(replies(attempt)) || attempt == retries - 1)
    requires RunsOnFrom(replies, retries, backoff, verb, attempt, slept)
    ensures Run(replies, retries, backoff, verb) == Trace(Final(replies(attempt)), attempt + 1, slept)
  {
    assert slept + [] == slept;
  }

  /** The call ends at `attempt` because the sleep before the next one is negative. */
  lemma RunsOnFromNegative(replies: nat -> Outcome, retries: int, backoff: real, verb: Verb, attempt: nat, slept: seq<real>)
    requires attempt < retries - 1 && IsRetryable(replies(attempt)) && Backoff(backoff, attempt) < 0.0
    requires RunsOnFrom(replies, retries, backoff, verb, attempt, slept)
    ensures Run(replies, retries, backoff, verb) == Trace(Raised(NegativeSleep), attempt + 1, slept)
  {
    assert slept + [] == slept;
  }
}
