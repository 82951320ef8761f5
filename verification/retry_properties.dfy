/** What the retry loop guarantees, proved of the recursive reference `RunFrom`, which `Chat`
    is proved equal to. */
module RetryProperties {
  import opened Wrappers
  import opened Json
  import opened Errors
  import opened Transport
  import Decimal

  /** The sleeps after the first `n` failed attempts counted from `from`: linear backoff. */
  function Backoff(delay: int, from: nat, n: nat): (s: seq<int>)
    ensures |s| == n
    ensures forall i :: 0 <= i < n ==> s[i] == delay * (from + i + 1)
  {
    seq(n, i => delay * (from + i + 1))
  }

  /** The first delay, then the rest of the schedule. */
  lemma BackoffCons(delay: int, from: nat, n: nat)
    ensures [delay * (from + 1)] + Backoff(delay, from + 1, n) == Backoff(delay, from, n + 1)
  {
    var s := [delay * (from + 1)] + Backoff(delay, from + 1, n);
    forall i | 0 <= i < n + 1
      ensures s[i] == Backoff(delay, from, n + 1)[i]
    {
      if i > 0 {
        assert s[i] == Backoff(delay, from + 1, n)[i - 1];
      }
    }
  }

  /** Only retryable outcomes are ever followed by another call. */
  lemma {:induction false} RunRetriesOnlyRetryable(c: Client, outcomes: seq<Outcome>, attempt: nat)
    requires c.maxRetries <= |outcomes| && attempt < c.maxRetries
    ensures forall i :: attempt <= i < attempt + RunFrom(c, outcomes, attempt).calls - 1 ==> Retryable(outcomes[i])
    decreases c.maxRetries - attempt
  {
    var o := outcomes[attempt];
    if Retryable(o) && attempt + 1 < c.maxRetries && c.retryDelay * (attempt + 1) >= 0 {
      RunRetriesOnlyRetryable(c, outcomes, attempt + 1);
    }
  }

  /** After `j` retryable outcomes, the first outcome that is not retryable settles the call:
      `j + 1` calls, the linear delays between them, and no further call or sleep. A success
      returns its body there and then. */
  lemma {:induction false} RunStopsAtFirstSettled(c: Client, outcomes: seq<Outcome>, attempt: nat, j: nat)
    requires c.maxRetries <= |outcomes| && c.retryDelay >= 0
    requires attempt + j < c.maxRetries
    requires forall i :: attempt <= i < attempt + j ==> Retryable(outcomes[i])
    requires !Retryable(outcomes[attempt + j])
    ensures RunFrom(c, outcomes, attempt) == Run(Settle(outcomes[attempt + j]), j + 1, Backoff(c.retryDelay, attempt, j))
    decreases j
  {
    if j > 0 {
      RunStopsAtFirstSettled(c, outcomes, attempt + 1, j - 1);
      BackoffCons(c.retryDelay, attempt, j - 1);
    }
  }

  /** When every allowed attempt fails retryably, exactly `maxRetries` calls are made, with the
      delays d, 2d, ... between them and none after the last, and the last failure is rewrapped
      with the attempt count. */
  lemma {:induction false} RunExhausts(c: Client, outcomes: seq<Outcome>, attempt: nat)
    requires c.maxRetries <= |outcomes| && c.retryDelay >= 0 && attempt < c.maxRetries
    requires forall i :: attempt <= i < c.maxRetries ==> Retryable(outcomes[i])
    ensures RunFrom(c, outcomes, attempt) ==
      Run(Failure(Exhausted(c.maxRetries, Cause(outcomes[c.maxRetries - 1]))),
          c.maxRetries - attempt,
          Backoff(c.retryDelay, attempt, c.maxRetries - attempt - 1))
    decreases c.maxRetries - attempt
  {
    if attempt + 1 < c.maxRetries {
      RunExhausts(c, outcomes, attempt + 1);
      BackoffCons(c.retryDelay, attempt, c.maxRetries - attempt - 2);
    }
  }

  /** With no attempt allowed, no call is made and the fallback exception is raised. */
  lemma NoAttemptsAllowed(c: Client, outcomes: seq<Outcome>)
    requires c.maxRetries <= 0
    ensures RunFrom(c, outcomes, 0) == Run(Failure(Fallback), 0, [])
  {
  }

  /** 401 and 429 are never retried: the first one ends the call without a sleep. */
  lemma RejectedStatusIsFinal(c: Client, outcomes: seq<Outcome>, j: nat)
    requires c.maxRetries <= |outcomes| && c.retryDelay >= 0 && j < c.maxRetries
    requires forall i :: 0 <= i < j ==> Retryable(outcomes[i])
    requires outcomes[j].Reply? && (outcomes[j].status == 401 || outcomes[j].status == 429)
    ensures RunFrom(c, outcomes, 0).calls == j + 1
    ensures |RunFrom(c, outcomes, 0).sleeps| == j
    ensures outcomes[j].status == 401 ==>
              RunFrom(c, outcomes, 0).result ==
              Failure(AuthenticationException("Authentication failed: " + ErrorMessage(outcomes[j].body)))
    ensures outcomes[j].status == 429 ==>
              RunFrom(c, outcomes, 0).result ==
              Failure(RateLimitException("Rate limit exceeded: " + ErrorMessage(outcomes[j].body)))
  {
    RunStopsAtFirstSettled(c, outcomes, 0, j);
  }

  /** A negative retry delay makes the first sleep raise, so a first retryable failure ends the
      call after one attempt. */
  lemma NegativeDelayRaises(c: Client, outcomes: seq<Outcome>)
    requires c.maxRetries <= |outcomes| && 1 < c.maxRetries && c.retryDelay < 0
    requires Retryable(outcomes[0])
    ensures RunFrom(c, outcomes, 0) == Run(Failure(SleepError), 1, [])
  {
  }

  /** A server that always answers 500: exactly `maxRetries` calls, then "Request failed after N
      attempts: API request failed (500): ..." with code 0, chaining the status-carrying exception. */
  lemma AlwaysServerError(c: Client, outcomes: seq<Outcome>, body: Json)
    requires 1 <= c.maxRetries <= |outcomes| && c.retryDelay >= 0
    requires forall i :: 0 <= i < |outcomes| ==> outcomes[i] == Reply(500, body)
    ensures RunFrom(c, outcomes, 0).calls == c.maxRetries
    ensures RunFrom(c, outcomes, 0).sleeps == Backoff(c.retryDelay, 0, c.maxRetries - 1)
    ensures var statusError := ChatGPTException(
              "API request failed (" + Decimal.IntToString(500) + "): " + ErrorMessage(body), 500, None);
            RunFrom(c, outcomes, 0).result == Failure(ChatGPTException(
              "Request failed after " + Decimal.IntToString(c.maxRetries) + " attempts: " + statusError.message,
              0,
              Some(statusError)))
  {
    assert outcomes[c.maxRetries - 1] == Reply(500, body);
    assert forall i :: 0 <= i < c.maxRetries ==> Retryable(outcomes[i]);
    RunExhausts(c, outcomes, 0);
  }

  /** The provider's `error.message` reaches the caller: whatever the status, the exception
      raised for the response ends with that string, or with the fixed text when the body has
      none. */
  lemma ProviderMessageReported(status: int, body: Json)
    ensures var m := Get(Get(Some(body), "error"), "message");
            var e := ResponseError(status, body);
            m.Some? && m.value.JStr? ==>
              |m.value.s| <= |e.message| && e.message[|e.message| - |m.value.s|..] == m.value.s
    ensures var e := ResponseError(status, body);
            Get(Get(Some(body), "error"), "message").None? ==>
              |UnknownError| <= |e.message| && e.message[|e.message| - |UnknownError|..] == UnknownError
  {
    var e := ResponseError(status, body);
    assert e.message[|e.message| - |ErrorMessage(body)|..] == ErrorMessage(body);
  }

  /** A client that is built at all sends the configured key as a bearer token, and that key is
      one `empty()` accepts: the validation guards exactly what is sent. */
  lemma ClientSendsKey(config: Config, payload: Json)
    requires NewClient(config).Success?
    ensures var r := Request(NewClient(config).value, payload);
            r.headers[0] == Header("Authorization", "Bearer " + config.apiKey.value) &&
            TruthyString(config.apiKey.value)
  {
  }

  /** The loop's classification agrees with its first catch block: a failed attempt is retried
      exactly when the exception it raises is neither an AuthenticationException nor a
      RateLimitException. */
  lemma RetryMatchesCatch(o: Outcome)
    requires !(o.Reply? && Successful(o.status))
    ensures Retryable(o) <==> !(Cause(o).AuthenticationException? || Cause(o).RateLimitException?)
  {
  }
}
