# laravel-gpt, modelled in Dafny

laravel-gpt is a Laravel package that wraps OpenAI's chat-completion endpoint behind a fluent
builder (`ChatGPT`). A caller picks a model, sets a prompt and earlier messages, and registers
"tools": PHP classes the model may ask to call. The package then:

- sends the request through a retrying HTTP client (`OpenAIClient`);
- reads the reply into a `Response`;
- records a requested tool call as a `ToolResult`, which can be executed.

`ChatTool` is the base class for tools. It supplies a default name, which is the class's
basename in snake case, and default values for the other properties.

This project models that core as pure Dafny functions over immutable data, plus three methods:
two mirror the retry loop, and `RequestBuilder.Send` runs it on the built payload.

- **Wrappers, Decimal, Json** hold the PHP rules the code relies on:
  - `??` lookups, in which `null` counts as missing;
  - `empty()` and truthiness, where `""` and `"0"` are falsy;
  - `$x[0]` on lists, objects and strings;
  - coercion of scalars into `string`-typed slots, where an array raises a TypeError;
  - array-key conversion;
  - string interpolation.
- **Naming** models `strtolower(preg_replace('/(?<!^)[A-Z]/', '_$0', …))` and `class_basename`.
- **ChatTools** models the ChatTool constructor and its getters.
- **Registry** stands for `class_exists`, `app()` and `instanceof IChatTool`, over an explicit
  table of loadable classes.
- **Transport** models OpenAIClient:
  - configuration defaults and headers;
  - turning error statuses into exceptions;
  - the retry loop, twice: a recursive reference `RunFrom` and the loop as written, `Chat`. The
    two are proved equal.
- **RetryProperties** states what the retry loop guarantees:
  - only retryable failures are retried;
  - 401 and 429 end the call at once;
  - the backoff is linear;
  - after the last attempt the failure is rewrapped with the attempt count.
- **ResponseParser** models the Response constructor, including every TypeError a badly typed
  reply can raise.
- **ToolInvoker** models `ToolResult::execute`.
- **RequestBuilder** models the ChatGPT builder, the payload it sends, and `send`.
- **BuilderProperties** and **RoundTrip** relate several calls:
  - setters that overwrite;
  - `tools()` stopping at the first rejected class;
  - the invariant linking the registered tools, the advertised names and the tool mapping;
  - the full round trip. A tool registered by class is advertised under its name. A reply that
    calls that name is mapped back to the class, and `execute()` invokes that class with the
    decoded arguments.

Effects are parameters:

- The HTTP layer is a sequence of outcomes, one per call, each a reply (status and decoded
  body) or a thrown connection exception. The model returns the requests it would send.
- `sleep` becomes the list of delays requested.
- `json_decode` is a function parameter `decode`.
- A tool's `invoke` is a function parameter `invoke`.

The naming rule's regular expression puts `_` before every upper-case letter except the first
character. Only index 0 is spared, so `ABTest` becomes `a_b_test` (`Naming.ABTestExample`).

## Model

| member | source | states |
|---|---|---|
| Transport.NewClient | src/Services/OpenAIClient.php:19-31 | Every setting falls back to its documented default: base URL, 30 s timeout, 3 retries, 1 s delay. The client is refused with an AuthenticationException exactly when the API key is missing, "" or "0". |
| Transport.Headers | src/Services/OpenAIClient.php:78-90 | Bearer authorisation and the JSON content type always come first. The organisation header is added exactly when the organisation is a truthy string. |
| Transport.Request | src/Services/OpenAIClient.php:39-41 | Each POST goes to the base URL followed by "/chat/completions", with the client's headers and timeout, and carries the payload unchanged. |
| Transport.ResponseError | src/Services/OpenAIClient.php:92-108 | 401 maps to AuthenticationException and 429 to RateLimitException (both directions). Every other status becomes a ChatGPTException whose code is the status and which chains nothing. Every message ends with the provider's message. |
| Transport.ErrorMessage | src/Services/OpenAIClient.php:95-97 | The provider's message is the string at error.message; "Unknown error occurred" when error.message is missing or null; "Array" when it is an array. |
| Transport.RunFrom | src/Services/OpenAIClient.php:33-76 | A successful call returns an array body, and the loop never makes more HTTP calls than the attempts it has left. |
| Transport.Attempt | src/Services/OpenAIClient.php:38-72 | One pass of the loop body either ends the call exactly as the reference does, or uses up the attempt and asks for a non-negative delay of retryDelay times the attempts used. |
| Transport.Chat | src/Services/OpenAIClient.php:33-76 | The loop as written returns the same result, makes the same number of calls and sleeps the same delays as the recursive reference. Every call sends the same request, and there are at most max(maxRetries, 0) calls. |
| RetryProperties.RunRetriesOnlyRetryable | src/Services/OpenAIClient.php:43-59 | An attempt is followed by another only when its outcome was retryable. |
| RetryProperties.RunStopsAtFirstSettled | src/Services/OpenAIClient.php:37-59 | After j retryable failures, the first success or non-retryable status ends the call. It ends after j+1 calls with the delays d, 2d, ..., jd. |
| RetryProperties.RunExhausts | src/Services/OpenAIClient.php:53-71 | When every attempt fails retryably, exactly maxRetries calls are made and no sleep follows the last. The last failure is rewrapped as "Request failed after N attempts", with code 0 and the cause chained. |
| RetryProperties.NoAttemptsAllowed | src/Services/OpenAIClient.php:35-75 | With maxRetries <= 0 no call is made and the fallback exception is raised. |
| RetryProperties.RejectedStatusIsFinal | src/Services/OpenAIClient.php:47-63 | The first 401 or 429 ends the call at once, with the authentication or rate-limit exception carrying the provider's message. |
| RetryProperties.NegativeDelayRaises | src/Services/OpenAIClient.php:54-59 | With a negative delay, sleep's ValueError escapes both catch blocks after the first retryable failure. |
| RetryProperties.AlwaysServerError | src/Services/OpenAIClient.php:53-68 | A server that always answers 500 gets maxRetries calls, then "Request failed after N attempts: API request failed (500): …", which chains the status-carrying exception. |
| RetryProperties.ProviderMessageReported | src/Services/OpenAIClient.php:92-108 | Whatever the status, the exception raised for an error response ends with the provider's error.message string, or with "Unknown error occurred" when the body has none. |
| RetryProperties.ClientSendsKey | src/Services/OpenAIClient.php:28-41 | A client that could be built sends the configured key as its bearer token, and that key is one `empty()` accepts. |
| RetryProperties.RetryMatchesCatch | src/Services/OpenAIClient.php:47-64 | A failed attempt is retried exactly when the exception it raises is neither an AuthenticationException nor a RateLimitException, the two the first catch rethrows. |
| Decimal.NatToStringRoundTrip | src/Services/OpenAIClient.php:106 | The decimal text interpolated for a status code reads back as that code. |
| Json.CoerceToString | src/Response.php:18 | Assigning a value to a `string` property succeeds exactly for strings, integers and booleans, and a string is kept unchanged. |
| Json.ArrayKey | src/Response.php:36 | A value can be used as a mapping key exactly when it is not an array, and a string is its own key. |
| Naming.LowercaseLowers | src/ChatTool.php:48 | strtolower lowers each character in place and leaves no upper-case letter. |
| Naming.SnakeCaseIsPiecewise | src/ChatTool.php:48 | The two-step snake case (insert underscores, then lower) equals a one-pass, character-by-character definition. |
| Naming.SnakeCaseLength | src/ChatTool.php:48 | The result is longer than the input by the number of upper-case letters after the first character. |
| Naming.SnakeCaseNoUpper | src/ChatTool.php:48 | The result has no upper-case letter. |
| Naming.SnakeCaseIdempotent | src/ChatTool.php:48 | Applying the conversion twice equals applying it once. |
| Naming.SnakeCaseCharset | src/ChatTool.php:48 | A name spelled in [A-Za-z0-9_] converts to one spelled in [a-z0-9_]. |
| Naming.SnakeCaseJoin | src/ChatTool.php:48 | Appending a word that starts with a capital appends "_" and that word's conversion. |
| Naming.SnakeCaseOneWord | src/ChatTool.php:48 | A capitalised word with no other capital only has its initial lowered. |
| Naming.SnakeCaseTwoWords | src/ChatTool.php:48 | Two capitalised words become both lowered, joined by one underscore. |
| Naming.WeatherExample | src/ChatTool.php:48 | `Weather` becomes `weather`. |
| Naming.WeatherLookupExample | src/ChatTool.php:48 | `WeatherLookup` becomes `weather_lookup`. |
| Naming.HttpFetcherExample | src/ChatTool.php:48 | `HttpFetcher` becomes `http_fetcher`. |
| Naming.ABTestExample | src/ChatTool.php:48 | `ABTest` becomes `a_b_test`, because only the first character is exempt. |
| Naming.ClassBasename | src/ChatTool.php:47 | The basename has no namespace separator, is a suffix of the class name, and is the whole name when there is no namespace. |
| Naming.ClassBasenameAfterSeparator | src/ChatTool.php:47 | The basename of a namespaced class is the part after its last separator, whatever the namespace holds. |
| ChatTools.DefaultName | src/ChatTool.php:45-49 | The default tool name has no upper-case letter. |
| ChatTools.DefaultNameCharset | src/ChatTool.php:45-49 | A class name in [A-Za-z0-9_\\] yields a default name in [a-z0-9_], the character set the name property documents. No length bound is stated, because the documented 64-character limit is never checked. |
| ChatTools.Construct | src/ChatTool.php:29-40 | The constructor fills a null name with the default name and a null strict flag with false. It keeps any declared value and leaves the description alone. |
| ChatTools.ConstructKeepsGetters | src/ChatTool.php:54-73 | The getters report the same values before and after construction, and constructing twice equals constructing once. |
| ChatTools.GetName | src/ChatTool.php:54-57 | getName reports the name the constructor stores: the declared name, else the default, which has no upper-case letter. |
| ChatTools.GetDescription | src/ChatTool.php:62-65 | getDescription reports the declared description, or "" when it is null. |
| ChatTools.GetStrict | src/ChatTool.php:70-73 | getStrict reports the flag the constructor stores, which is false when none is declared. |
| Registry.App | src/ChatGPT.php:41 | The container runs ChatTool's constructor on a ChatTool subclass and returns every other object as declared. The class and IChatTool-ness are kept, and a ChatTool comes out with its name and strict flag set. |
| Registry.Resolve | src/ChatGPT.php:37-45 | A class is rejected as missing exactly when it does not exist, and as not-a-tool exactly when its object is not an IChatTool. Otherwise the container's object is returned. |
| ToolInvoker.Execute | src/ToolResult.php:20-33 | Execution raises "Tool class X does not exist." or "Class X does not implement IChatTool interface." as RuntimeExceptions. Otherwise it returns the tool's invoke on exactly the stored arguments. |
| ResponseParser.ToolArgs | src/Response.php:28-33 | The stored arguments are always an array: the decoded value when it is one, and the empty array for invalid JSON or a scalar. |
| ResponseParser.ToolCall | src/Response.php:24-40 | No tool is read unless tool_calls is set and non-empty. Array-valued arguments raise json_decode's TypeError, and an array name raises the offset TypeError. A ToolResult is produced exactly when the first call's name maps to a truthy class, and it carries the coerced name, the repaired arguments and that class. |
| ResponseParser.Parse | src/Response.php:15-52 | Parsing fails, always with a TypeError, exactly when the model, the content or the tool call holds an array where PHP needs a string. On success the raw reply is kept verbatim; model and content are the coerced fields or ""; usage counts default to 0; the tool is what the tool-call branch reads. |
| ResponseParser.WellFormedReplyParses | src/Response.php:15-52 | A reply whose model, content, tool name and arguments are strings whenever present always parses. |
| ResponseParser.EmptyReplyDefaults | src/Response.php:17-51 | An empty reply reads as an empty model and content, zero usage and no tool. |
| ResponseParser.OnlyFirstToolCallCounts | src/Response.php:25 | Replies that differ only in the tool calls after the first give the same response. |
| ResponseParser.ToolCallCongruence | src/Response.php:24-27 | The tool-call branch reads the message only through whether tool_calls is set and non-empty, and through its first element. |
| ResponseParser.ParseCongruence | src/Response.php:15-52 | The constructor reads a reply only through its model, its first message's content and tool call, and its usage. |
| RequestBuilder.New | src/ChatGPT.php:17-27 | The model is the argument, else the configured default, else gpt-3.5-turbo. A client refusal propagates, and a new builder starts with no prompt, tools, mapping or messages. |
| RequestBuilder.Prompt | src/ChatGPT.php:29-33 | prompt() sets the prompt and changes nothing else, and the prompt is then sent as the last message, after the stored ones. |
| RequestBuilder.Messages | src/ChatGPT.php:80-84 | messages() replaces the message list and changes nothing else, and the list is then sent first, unchanged. |
| RequestBuilder.ToolName | src/ChatGPT.php:54-69 | A tool's name is its declared name, for a ChatTool and a plain tool alike. Without one it is the snake-cased class basename, which has no upper-case letter. |
| RequestBuilder.ToolDescription | src/ChatGPT.php:147-160 | A tool's description is its declared description, or "" when it has none. |
| RequestBuilder.ToolStrict | src/ChatGPT.php:162-175 | A tool's strict flag is its declared flag, or false when it has none. |
| RequestBuilder.ToolPropertiesUniform | src/ChatGPT.php:54-175 | A ChatTool and a plain IChatTool get the same name, description and strict flag from their properties, with the same defaults. A constructed ChatTool's name is its declared name. |
| RequestBuilder.AddTool | src/ChatGPT.php:35-52 | A missing class or a non-tool is rejected with the documented InvalidArgumentException messages and the builder unchanged. Otherwise the tool is appended and its name maps to the class. |
| RequestBuilder.AddTools | src/ChatGPT.php:71-78 | Registering a list only appends tools and changes nothing but the tool list and mapping. When nothing is rejected, one tool is added per class. |
| RequestBuilder.BuildMessages | src/ChatGPT.php:109-122 | The stored messages are sent first, unchanged, and the prompt follows as one user message exactly when it is set. |
| RequestBuilder.Descriptor | src/ChatGPT.php:128-142 | One tool's description has exactly the keys "type" (always "function") and "function". |
| RequestBuilder.FunctionFields | src/ChatGPT.php:129-140 | The "function" part has exactly the keys name, description, parameters and strict, holding the tool's name, description and strict flag and its parameter schema. |
| RequestBuilder.BuildTools | src/ChatGPT.php:124-145 | One function description is sent per registered tool, in registration order. |
| RequestBuilder.BuildPayload | src/ChatGPT.php:94-107 | The payload holds the model and the messages, and holds "tools" exactly when a tool is registered. |
| RequestBuilder.Send | src/ChatGPT.php:86-92 | Sending makes the calls and sleeps of the retry loop, each with the built payload. It propagates the loop's exception, or parses the reply with the builder's tool mapping. |
| BuilderProperties.PromptReplaces | src/ChatGPT.php:29-33 | A second prompt replaces the first and is sent once, last. |
| BuilderProperties.MessagesReplace | src/ChatGPT.php:80-84 | A second message list replaces the first, and the prompt is appended after the current list whatever the call order. |
| BuilderProperties.BarePayload | src/ChatGPT.php:94-107 | Without prompt or tools, the payload is exactly the model and the stored messages. |
| BuilderProperties.AddToolsAllAccepted | src/ChatGPT.php:71-78 | When every class is a tool, the tools are appended in list order and each name is mapped. |
| BuilderProperties.MappingKeysGrow | src/ChatGPT.php:71-78 | Registering never removes a name from the mapping. |
| BuilderProperties.AddToolsStopsAtFirstRejection | src/ChatGPT.php:71-78 | The first rejected class ends the call with its exception. The classes before it stay registered, and the later ones are never looked at. |
| BuilderProperties.DuplicateNameLastWins | src/ChatGPT.php:47-49 | Two tools with the same name are both advertised, but the mapping keeps the class registered last. |
| BuilderProperties.NewIsCoherent | src/ChatGPT.php:17-22 | A freshly constructed builder satisfies the registration invariant. |
| BuilderProperties.AddToolCoherent | src/ChatGPT.php:35-52 | Registration, accepted or not, keeps the invariant: every registered tool's name is mapped, and every mapped class is a loadable tool. |
| BuilderProperties.AddToolsCoherent | src/ChatGPT.php:71-78 | Registering a list keeps that invariant, even when it stops early. |
| BuilderProperties.AdvertisedNamesResolve | src/ChatGPT.php:124-145 | Every name the payload advertises is a key of the tool mapping. |
| BuilderProperties.ParsedToolExecutes | src/ToolResult.php:20-33 | Any tool call the response reads with a coherent builder's mapping names a class that execute() accepts, so execution reaches the tool's invoke with the stored arguments. |
| RoundTrip.ReplyNamesRegisteredTool | src/Response.php:24-40 | Right after registration, a reply calling the tool's name parses to a ToolResult for the registered class, with the decoded arguments. |
| RoundTrip.ToolCallRoundTrip | src/ToolResult.php:20-33 | Register, advertise, reply, parse and execute: the registered tool is invoked on exactly the decoded arguments. |
| RoundTrip.WeatherDefaultName | src/ChatTool.php:45-49 | `App\Tools\Weather` gets the default name `weather`. |
| RoundTrip.WeatherBasename | src/ChatTool.php:47 | The basename of `App\Tools\Weather` is `Weather`. |
| RoundTrip.WeatherRoundTrip | src/ChatGPT.php:35-52 | The Weather tool is registered as `weather`, and a reply calling `weather` with {"city":"Paris"} yields a ToolResult for it. |
| RoundTrip.ExecuteChecksLikeRegistration | src/ToolResult.php:20-30 | tool() and execute() reject the same classes with the same message, as InvalidArgumentException and RuntimeException respectively. |

## Left out

- HTTP: no request is sent. Outcomes are an input sequence. The timeout and URL are recorded in
  each request but not enforced.
- `sleep` is recorded as the list of requested delays. Time is not modelled.
- JSON encoding of the payload is left out, and `json_decode` is an uninterpreted parameter.
  The decoded JSON has no floats.
- PHP arrays are ordered maps, but JSON objects here are unordered maps: the key order of the
  payload and the reply is not modelled. Header order is modelled.
- `messages()` takes any PHP array. Here it is a list, so appending the prompt to a non-list
  array (which would take the next integer key) is not modelled.
- Integer width: `retryDelay * attempt` is unbounded here. PHP would overflow to a float.
- Configuration values are typed. Environment strings such as "30" reaching the typed
  properties through coercion are not modelled.
- PHP warnings do not interrupt execution in the model. This covers an undefined `[0]` on a
  non-list `tool_calls`, and an array interpolated into an error message. Under Laravel's
  default error handler such warnings become ErrorException, which the model does not follow.
- Tool classes that override `getName`, `getDescription` or `getStrict` are not modelled.
- Subclasses that override the protected `getDefaultName` are not modelled. The default name is
  always the snake-cased class basename.
- The container is total over existing classes. A class that exists but cannot be built, so
  that `app()` throws a BindingResolutionException in `tool()` or `execute()`, is not modelled.
- A plain IChatTool whose `name`, `description` or `strict` property is protected or private is
  not modelled. `property_exists` accepts such a property, and reading it then raises an Error.
- Naming.ClassBasename: returns "" for a class name that ends in a separator, where PHP's
  `basename` would drop the trailing separator. No name PHP reports for a class ends that way.
- Plain tools whose `name`, `description` or `strict` property holds a value of another type
  are not modelled.
- The tool's own `invoke` and `parameters` are opaque. `invoke` is a parameter and
  `parameters` a stored value.
- The exception classes under src/Exceptions are not part of this model. ChatGPTException,
  AuthenticationException and RateLimitException are taken to extend `\Exception`, which is
  what makes the generic catch in `chat` rewrap a status error after the last attempt.
- The exact texts of PHP's own TypeError and ValueError messages vary between PHP versions.
  The model uses the PHP 8.3 wording, including the return-type error of `chat`, which names
  the returned value's type ("null", "int", "string") or the boolean literal ("true", "false").
- `$errorCode` in handleErrorResponse is computed but never used, so it is not modelled.
- PHP class lookups ignore case. The table is keyed by the spelling passed to `tool()`.
- MakeChatToolCommand, the service provider and the configuration file are outside the core.
- Transport.RunFrom: its contract states only the array result and the call bound. What it
  computes is stated through Transport.Chat and the RetryProperties lemmas.
- RequestBuilder.AddTools: its contract does not state the mapping's contents. The
  BuilderProperties lemmas state them.
