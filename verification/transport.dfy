/** OpenAIClient: configuration defaults, request headers, error classification, and the
    retrying `chat` call. The HTTP layer is replaced by the sequence of outcomes its successive
    calls produce; `sleep` is replaced by the list of delays it is asked for. */
module Transport {
  import opened Wrappers
  import opened Json
  import opened Errors
  import Decimal

  /** The `laravel-gpt` configuration array; `None` is a missing or null entry. */
  datatype Config = Config(
    apiKey: Option<string>,
    defaultModel: Option<string>,
    baseUrl: Option<string>,
    timeout: Option<int>,
    maxRetries: Option<int>,
    retryDelay: Option<int>,
    organization: Option<string>)

  /** A constructed client: the configuration with every default applied. */
  datatype Client = Client(
    apiKey: string,
    baseUrl: string,
    timeout: int,
    maxRetries: int,
    retryDelay: int,
    organization: Option<string>)

  const DefaultBaseUrl: string := "https://api.openai.com/v1"
  const DefaultTimeout: int := 30
  const DefaultMaxRetries: int := 3
  const DefaultRetryDelay: int := 1
  const MissingKeyMessage: string :=
    "OpenAI API key is not configured. Please set OPENAI_API_KEY in your .env file."

  /** The constructor: each setting falls back to its default, and a key that PHP's `empty()`
      rejects ("" or "0", or none at all) is an AuthenticationException. */
  function NewClient(config: Config): (r: Result<Client, Failure>)
    ensures r.Failure? <==> config.apiKey.None? || !TruthyString(config.apiKey.value)
    ensures r.Failure? ==> r.error == AuthenticationException(MissingKeyMessage)
    ensures r.Success? ==> r.value.apiKey == config.apiKey.value
    ensures r.Success? ==> r.value.baseUrl == config.baseUrl.GetOr(DefaultBaseUrl)
    ensures r.Success? ==> r.value.timeout == config.timeout.GetOr(DefaultTimeout)
    ensures r.Success? ==> r.value.maxRetries == config.maxRetries.GetOr(DefaultMaxRetries)
    ensures r.Success? ==> r.value.retryDelay == config.retryDelay.GetOr(DefaultRetryDelay)
    ensures r.Success? ==> r.value.organization == config.organization
  {
    var key := config.apiKey.GetOr("");
    if !TruthyString(key) then Failure(AuthenticationException(MissingKeyMessage))
    else Success(Client(
      key,
      config.baseUrl.GetOr(DefaultBaseUrl),
      config.timeout.GetOr(DefaultTimeout),
      config.maxRetries.GetOr(DefaultMaxRetries),
      config.retryDelay.GetOr(DefaultRetryDelay),
      config.organization))
  }

  datatype Header = Header(name: string, value: string)

  /** getHeaders: bearer authorisation and a JSON content type, then the organisation header
      only when the organisation is a truthy string. */
  function Headers(c: Client): (hs: seq<Header>)
    ensures |hs| >= 2
    ensures hs[0] == Header("Authorization", "Bearer " + c.apiKey)
    ensures hs[1] == Header("Content-Type", "application/json")
    ensures |hs| == 3 <==> c.organization.Some? && TruthyString(c.organization.value)
    ensures |hs| == 3 ==> hs[2] == Header("OpenAI-Organization", c.organization.value)
    ensures |hs| <= 3
  {
    var base := [Header("Authorization", "Bearer " + c.apiKey), Header("Content-Type", "application/json")];
    match c.organization
    case Some(org) => if TruthyString(org) then base + [Header("OpenAI-Organization", org)] else base
    case None => base
  }

  /** One POST of the payload, as `chat` issues it on every attempt. */
  datatype HttpRequest = HttpRequest(url: string, headers: seq<Header>, timeout: int, body: Json)

  function Request(c: Client, payload: Json): (r: HttpRequest)
    ensures |r.url| == |c.baseUrl| + 17
    ensures r.url[..|c.baseUrl|] == c.baseUrl && r.url[|c.baseUrl|..] == "/chat/completions"
    ensures r.headers == Headers(c) && r.timeout == c.timeout
    ensures r.body == payload
  {
    HttpRequest(c.baseUrl + "/chat/completions", Headers(c), c.timeout, payload)
  }

  /** What one HTTP call comes back with: a response (its status and decoded JSON body, `JNull`
      when the body does not decode) or an exception thrown by the HTTP layer. */
  datatype Outcome = Reply(status: int, body: Json) | Thrown(message: string)

  /** `$response->successful()` */
  predicate Successful(status: int) {
    200 <= status < 300
  }

  /** The outcomes that use up an attempt rather than end the call: every unsuccessful status
      except 401 and 429, and every exception of the HTTP layer. */
  predicate Retryable(o: Outcome) {
    match o
    case Reply(status, _) => !Successful(status) && status != 401 && status != 429
    case Thrown(_) => true
  }

  const UnknownError: string := "Unknown error occurred"

  /** The provider's message, `error.message` of the body, as it is interpolated. */
  function ErrorMessage(body: Json): (message: string)
    ensures Get(Get(Some(body), "error"), "message").None? ==> message == UnknownError
    ensures var m := Get(Get(Some(body), "error"), "message");
            m.Some? && m.value.JStr? ==> message == m.value.s
    ensures var m := Get(Get(Some(body), "error"), "message");
            m.Some? && IsArray(m.value) ==> message == "Array"
  {
    Interpolate(Get(Get(Some(body), "error"), "message").GetOr(JStr(UnknownError)))
  }

  /** handleErrorResponse: the exception an unsuccessful response is turned into. */
  function ResponseError(status: int, body: Json): (e: Failure)
    ensures status == 401 <==> e.AuthenticationException?
    ensures status == 429 <==> e.RateLimitException?
    ensures e.ChatGPTException? <==> status != 401 && status != 429
    ensures e.ChatGPTException? ==> e.code == status && e.previous.None?
    ensures |ErrorMessage(body)| <= |e.message|
    ensures e.message[|e.message| - |ErrorMessage(body)|..] == ErrorMessage(body)
  {
    var message := ErrorMessage(body);
    if status == 401 then AuthenticationException("Authentication failed: " + message)
    else if status == 429 then RateLimitException("Rate limit exceeded: " + message)
    else ChatGPTException("API request failed (" + Decimal.IntToString(status) + "): " + message, status, None)
  }

  /** The exception an attempt that used up the budget is reported with. */
  function Cause(o: Outcome): Failure {
    match o
    case Reply(status, body) => ResponseError(status, body)
    case Thrown(message) => ConnectionException(message)
  }

  /** The generic handler's rewrap, after the last attempt: code 0, the cause chained. */
  function Exhausted(maxRetries: int, cause: Failure): Failure {
    ChatGPTException("Request failed after " + Decimal.IntToString(maxRetries) + " attempts: " + cause.message, 0, Some(cause))
  }

  /** The exception after the loop, reached only when no attempt is allowed. */
  const Fallback: Failure := ChatGPTException("Request failed after all retry attempts.", 0, None)

  /** How a PHP type error names the offending value: its type, or the literal for a boolean. */
  function ValueName(j: Json): string {
    match j
    case JNull => "null"
    case JBool(b) => if b then "true" else "false"
    case JInt(_) => "int"
    case JStr(_) => "string"
    case _ => "array"
  }

  /** `chat`'s `array` return type, applied to a successful body that is not an array. */
  function BodyTypeError(body: Json): Failure {
    TypeError(ReturnTypeMessage + ValueName(body) + " returned")
  }

  const ReturnTypeMessage: string :=
    "AllanBernier\\LaravelGpt\\Services\\OpenAIClient::chat(): Return value must be of type array, "

  /** `sleep` with a negative argument. */
  const SleepError: Failure := ValueError("sleep(): Argument #1 ($seconds) must be greater than or equal to 0")

  /** How an attempt whose outcome is not retryable ends the call. */
  function Settle(o: Outcome): Result<Json, Failure>
    requires !Retryable(o)
  {
    if Successful(o.status) then (if IsArray(o.body) then Success(o.body) else Failure(BodyTypeError(o.body)))
    else Failure(ResponseError(o.status, o.body))
  }

  /** A whole call to `chat`: its result, the number of HTTP calls made, the sleeps asked for. */
  datatype Run = Run(result: Result<Json, Failure>, calls: nat, sleeps: seq<int>)

  /** The retry loop from the point where `attempt` attempts have been used, as a recursion:
      the reference the imperative `Chat` is proved against. */
  function RunFrom(c: Client, outcomes: seq<Outcome>, attempt: nat): (run: Run)
    requires c.maxRetries <= |outcomes|
    ensures run.result.Success? ==> IsArray(run.result.value)
    ensures run.calls <= if attempt < c.maxRetries then c.maxRetries - attempt else 0
    decreases c.maxRetries - attempt
  {
    if attempt >= c.maxRetries then Run(Failure(Fallback), 0, [])
    else
      var o := outcomes[attempt];
      if !Retryable(o) then Run(Settle(o), 1, [])
      else
        var used := attempt + 1;
        if used >= c.maxRetries then Run(Failure(Exhausted(c.maxRetries, Cause(o))), 1, [])
        else if c.retryDelay * used < 0 then Run(Failure(SleepError), 1, [])
        else
          var rest := RunFrom(c, outcomes, used);
          Run(rest.result, rest.calls + 1, [c.retryDelay * used] + rest.sleeps)
  }

  /** `attempt` calls and `sleeps` already behind, `rest` still to come. */
  function Continue(attempt: nat, sleeps: seq<int>, rest: Run): Run {
    Run(rest.result, attempt + rest.calls, sleeps + rest.sleeps)
  }

  /** One more retried attempt moves from what is to come to what is behind. */
  lemma ContinueStep(attempt: nat, sleeps: seq<int>, delay: int, rest: Run)
    ensures Continue(attempt, sleeps, Run(rest.result, rest.calls + 1, [delay] + rest.sleeps))
              == Continue(attempt + 1, sleeps + [delay], rest)
  {
    assert sleeps + ([delay] + rest.sleeps) == (sleeps + [delay]) + rest.sleeps;
  }

  /** One pass through the body of `chat`'s loop, the try block and its two catch blocks: either
      the call ends here (`done`) with `result`, or the attempt is used up and the loop sleeps
      for `delay` before the next one. */
  method Attempt(c: Client, outcomes: seq<Outcome>, attempt: nat)
    returns (done: bool, result: Result<Json, Failure>, delay: int)
    requires attempt < c.maxRetries <= |outcomes|
    ensures done ==> RunFrom(c, outcomes, attempt) == Run(result, 1, [])
    ensures !done ==> attempt + 1 < c.maxRetries && delay == c.retryDelay * (attempt + 1) && delay >= 0
    ensures !done ==>
              var rest := RunFrom(c, outcomes, attempt + 1);
              RunFrom(c, outcomes, attempt) == Run(rest.result, rest.calls + 1, [delay] + rest.sleeps)
  {
    var o := outcomes[attempt];
    done, result, delay := true, Failure(Fallback), 0;
    if o.Reply? && Successful(o.status) {
      if IsArray(o.body) {
        result := Success(o.body);
      } else {
        result := Failure(BodyTypeError(o.body));
      }
      return;
    }
    if o.Reply? && (o.status == 401 || o.status == 429) {
      // thrown by handleErrorResponse, rethrown by the first catch
      result := Failure(ResponseError(o.status, o.body));
      return;
    }
    // a status error and an exception of the HTTP layer both cost one attempt; a status error
    // raised after the last attempt reaches the generic catch as well, which increments the
    // counter a second time before rethrowing, unobservably
    var cause := if o.Reply? then ResponseError(o.status, o.body) else ConnectionException(o.message);
    var used := attempt + 1;
    if used >= c.maxRetries {
      result := Failure(Exhausted(c.maxRetries, cause));
      return;
    }
    delay := c.retryDelay * used;
    if delay < 0 {
      result := Failure(SleepError);
      return;
    }
    done := false;
  }

  /** `chat`: the loop as written, one outcome consumed per HTTP call. */
  method Chat(c: Client, payload: Json, outcomes: seq<Outcome>)
    returns (result: Result<Json, Failure>, sent: seq<HttpRequest>, sleeps: seq<int>)
    requires c.maxRetries <= |outcomes|
    ensures Run(result, |sent|, sleeps) == RunFrom(c, outcomes, 0)
    ensures forall i :: 0 <= i < |sent| ==> sent[i] == Request(c, payload)
    ensures |sent| <= if c.maxRetries > 0 then c.maxRetries else 0
  {
    var attempt: nat := 0;
    var request := Request(c, payload);
    sent := [];
    sleeps := [];
    while attempt < c.maxRetries
      invariant attempt == 0 || attempt < c.maxRetries
      invariant sent == seq(attempt, _ => request)
      invariant RunFrom(c, outcomes, 0) == Continue(attempt, sleeps, RunFrom(c, outcomes, attempt))
      decreases c.maxRetries - attempt
    {
      sent := sent + [request];
      var done, delay;
      done, result, delay := Attempt(c, outcomes, attempt);
      if done {
        return;
      }
      ContinueStep(attempt, sleeps, delay, RunFrom(c, outcomes, attempt + 1));
      attempt := attempt + 1;
      sleeps := sleeps + [delay];
    }
    result := Failure(Fallback);
  }
}
