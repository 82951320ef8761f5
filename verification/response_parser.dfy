/** Response: how a decoded chat-completion reply becomes the object `send()` returns. */
module ResponseParser {
  import opened Wrappers
  import opened Json
  import opened Errors
  import opened ToolInvoker

  /** The usage object: each count as the reply gives it, 0 when absent. */
  datatype Usage = Usage(promptTokens: Json, completionTokens: Json, totalTokens: Json)

  /** The public properties of a Response. */
  datatype ChatResponse = ChatResponse(
    raw: Json,
    model: string,
    content: string,
    usage: Usage,
    tool: Option<ToolResult>)

  /** The TypeError PHP raises when an array is assigned to one of the `string` properties. */
  function PropertyTypeError(property: string): Failure {
    TypeError("Cannot assign array to property AllanBernier\\LaravelGpt\\Response::$" + property + " of type string")
  }

  /** The TypeError `json_decode` raises when the arguments are an array rather than text. */
  const DecodeTypeError: Failure := TypeError("json_decode(): Argument #1 ($json) must be of type string, array given")

  /** The TypeError an array raises as a key of the tool mapping. */
  const OffsetTypeError: Failure := TypeError("Cannot access offset of type array in isset or empty")

  /** `$apiResponse['model'] ?? ''` */
  function ModelField(api: Json): Json {
    Get(Some(api), "model").GetOr(JStr(""))
  }

  /** `$apiResponse['choices'][0]['message']`, `None` standing for the `[]` default. */
  function MessageOf(api: Json): Option<Json> {
    Get(At0(Get(Some(api), "choices")), "message")
  }

  /** `$message['content'] ?? ''` */
  function ContentField(message: Option<Json>): Json {
    Get(message, "content").GetOr(JStr(""))
  }

  /** `isset($message['tool_calls']) && !empty($message['tool_calls'])` */
  predicate CallsTool(message: Option<Json>) {
    var calls := Get(message, "tool_calls");
    calls.Some? && Truthy(calls.value)
  }

  /** `$message['tool_calls'][0]['function']`: only the first tool call is ever read. */
  function FunctionOf(message: Option<Json>): Option<Json> {
    Get(At0(Get(message, "tool_calls")), "function")
  }

  /** `$toolCall['function']['name'] ?? ''` */
  function CallName(message: Option<Json>): Json {
    Get(FunctionOf(message), "name").GetOr(JStr(""))
  }

  /** `$toolCall['function']['arguments'] ?? '{}'` */
  function CallArguments(message: Option<Json>): Json {
    Get(FunctionOf(message), "arguments").GetOr(JStr("{}"))
  }

  /** `$apiResponse['usage'][key] ?? 0` */
  function UsageField(api: Json, key: string): Json {
    Get(Get(Some(api), "usage"), key).GetOr(JInt(0))
  }

  /** The decoded arguments when they form an array; otherwise (invalid JSON, or a scalar) the
      empty array. */
  function ToolArgs(decoded: Option<Json>): (args: Json)
    ensures IsArray(args)
    ensures decoded.Some? && IsArray(decoded.value) ==> args == decoded.value
    ensures !(decoded.Some? && IsArray(decoded.value)) ==> args == EmptyArray
  {
    if decoded.Some? && IsArray(decoded.value) then decoded.value else EmptyArray
  }

  /** The tool-call branch of the constructor. `decode` stands for `json_decode($text, true)`,
      `None` being its `null` for text that is not JSON. The name is looked up in the mapping
      `send()` passes; a truthy class yields a ToolResult. */
  function ToolCall(message: Option<Json>, mapping: map<string, string>, decode: string -> Option<Json>)
    : (r: Result<Option<ToolResult>, Failure>)
    ensures !CallsTool(message) ==> r == Success(None)
    ensures r.Failure? <==> CallsTool(message) && (IsArray(CallArguments(message)) || IsArray(CallName(message)))
    ensures CallsTool(message) && IsArray(CallArguments(message)) ==> r == Failure(DecodeTypeError)
    ensures CallsTool(message) && !IsArray(CallArguments(message)) && IsArray(CallName(message)) ==>
              r == Failure(OffsetTypeError)
    ensures r.Success? && r.value.Some? ==>
              var key := ArrayKey(CallName(message));
              CallsTool(message) && key.Some? && key.value in mapping && TruthyString(mapping[key.value])
    ensures r.Success? && CallsTool(message) ==>
              var key := ArrayKey(CallName(message)).value;
              key in mapping && TruthyString(mapping[key]) ==>
                r.value.Some? &&
                r.value.value.toolClass == mapping[key] &&
                Some(r.value.value.name) == CoerceToString(CallName(message)) &&
                r.value.value.args == ToolArgs(decode(CoerceToString(CallArguments(message)).value))
  {
    if !CallsTool(message) then Success(None)
    else
      var name := CallName(message);
      var text :- CoerceToString(CallArguments(message)).ToResult(DecodeTypeError);
      var args := ToolArgs(decode(text));
      var key :- ArrayKey(name).ToResult(OffsetTypeError);
      if key in mapping && TruthyString(mapping[key]) then
        Success(Some(ToolResult(CoerceToString(name).value, args, mapping[key])))
      else
        Success(None)
  }

  /** The constructor. It fails only with a TypeError, when a field PHP must turn into a string
      holds an array. */
  function Parse(api: Json, mapping: map<string, string>, decode: string -> Option<Json>)
    : (r: Result<ChatResponse, Failure>)
    requires IsArray(api)
    ensures r.Failure? <==>
              IsArray(ModelField(api)) ||
              ToolCall(MessageOf(api), mapping, decode).Failure? ||
              IsArray(ContentField(MessageOf(api)))
    ensures r.Failure? ==> r.error.TypeError?
    ensures r.Success? ==> r.value.raw == api
    ensures r.Success? ==> Some(r.value.model) == CoerceToString(ModelField(api))
    ensures r.Success? ==> Some(r.value.content) == CoerceToString(ContentField(MessageOf(api)))
    ensures r.Success? ==> r.value.tool == ToolCall(MessageOf(api), mapping, decode).value
    ensures r.Success? ==>
              r.value.usage == Usage(UsageField(api, "prompt_tokens"),
                                     UsageField(api, "completion_tokens"),
                                     UsageField(api, "total_tokens"))
  {
    var model :- CoerceToString(ModelField(api)).ToResult(PropertyTypeError("model"));
    var message := MessageOf(api);
    var tool :- ToolCall(message, mapping, decode);
    var content :- CoerceToString(ContentField(message)).ToResult(PropertyTypeError("content"));
    Success(ChatResponse(api, model, content,
                         Usage(UsageField(api, "prompt_tokens"),
                               UsageField(api, "completion_tokens"),
                               UsageField(api, "total_tokens")),
                         tool))
  }

  /** A field that is absent, null, or a JSON string. */
  predicate StringOrAbsent(field: Option<Json>) {
    field.None? || field.value.JStr?
  }

  /** A reply whose model, content, tool name and tool arguments are strings whenever present is
      always accepted: the TypeErrors need a field of the wrong type. */
  lemma WellFormedReplyParses(api: Json, mapping: map<string, string>, decode: string -> Option<Json>)
    requires IsArray(api)
    requires StringOrAbsent(Get(Some(api), "model"))
    requires StringOrAbsent(Get(MessageOf(api), "content"))
    requires StringOrAbsent(Get(FunctionOf(MessageOf(api)), "name"))
    requires StringOrAbsent(Get(FunctionOf(MessageOf(api)), "arguments"))
    ensures Parse(api, mapping, decode).Success?
  {
  }

  /** An empty reply reads as all defaults: empty model and content, zero usage, no tool. */
  lemma EmptyReplyDefaults(mapping: map<string, string>, decode: string -> Option<Json>)
    ensures Parse(EmptyArray, mapping, decode)
              == Success(ChatResponse(EmptyArray, "", "", Usage(JInt(0), JInt(0), JInt(0)), None))
  {
  }

  /** A reply that carries `calls` as the first choice's tool calls, around otherwise arbitrary
      fields. */
  function WithToolCalls(top: map<string, Json>, choice: map<string, Json>, message: map<string, Json>, calls: Json): Json {
    JObj(top["choices" := JArr([JObj(choice["message" := JObj(message["tool_calls" := calls])])])])
  }

  /** Two constructor outcomes that agree on everything but the raw copy of the reply. */
  predicate SameApartFromRaw(r1: Result<ChatResponse, Failure>, r2: Result<ChatResponse, Failure>) {
    r1.Success? == r2.Success? &&
    (r1.Success? ==> r1.value.(raw := JNull) == r2.value.(raw := JNull))
  }

  /** Only the first tool call is read: replies built by `WithToolCalls` that differ only in the
      later calls give the same response (apart from the raw copy). The statement over every
      pair of replies is `ParseCongruence`, with `ToolCallCongruence` for the tool-call branch. */
  lemma OnlyFirstToolCallCounts(
    top: map<string, Json>, choice: map<string, Json>, message: map<string, Json>,
    first: Json, rest1: seq<Json>, rest2: seq<Json>,
    mapping: map<string, string>, decode: string -> Option<Json>)
    ensures SameApartFromRaw(Parse(WithToolCalls(top, choice, message, JArr([first] + rest1)), mapping, decode),
                             Parse(WithToolCalls(top, choice, message, JArr([first] + rest2)), mapping, decode))
  {
    var api1 := WithToolCalls(top, choice, message, JArr([first] + rest1));
    var api2 := WithToolCalls(top, choice, message, JArr([first] + rest2));
    TopFieldsUnchanged(top, choice, message, JArr([first] + rest1), JArr([first] + rest2));
    FirstToolCallFields(top, choice, message, first, rest1, rest2, mapping, decode);
    ParseCongruence(api1, api2, mapping, decode);
  }

  /** The fields the constructor reads agree between the two replies of `OnlyFirstToolCallCounts`. */
  lemma FirstToolCallFields(
    top: map<string, Json>, choice: map<string, Json>, message: map<string, Json>,
    first: Json, rest1: seq<Json>, rest2: seq<Json>,
    mapping: map<string, string>, decode: string -> Option<Json>)
    ensures var api1 := WithToolCalls(top, choice, message, JArr([first] + rest1));
            var api2 := WithToolCalls(top, choice, message, JArr([first] + rest2));
            ToolCall(MessageOf(api1), mapping, decode) == ToolCall(MessageOf(api2), mapping, decode) &&
            ContentField(MessageOf(api1)) == ContentField(MessageOf(api2))
  {
    MessageOfWithToolCalls(top, choice, message, JArr([first] + rest1));
    MessageOfWithToolCalls(top, choice, message, JArr([first] + rest2));
    MessageFirstCall(message, first, rest1, rest2, mapping, decode);
    MessageContentUnchanged(message, JArr([first] + rest1), JArr([first] + rest2));
  }

  /** Within one message, tool-call lists with the same first element read alike. */
  lemma MessageFirstCall(message: map<string, Json>, first: Json, rest1: seq<Json>, rest2: seq<Json>,
                         mapping: map<string, string>, decode: string -> Option<Json>)
    ensures ToolCall(Some(JObj(message["tool_calls" := JArr([first] + rest1)])), mapping, decode)
         == ToolCall(Some(JObj(message["tool_calls" := JArr([first] + rest2)])), mapping, decode)
  {
    var m1 := Some(JObj(message["tool_calls" := JArr([first] + rest1)]));
    var m2 := Some(JObj(message["tool_calls" := JArr([first] + rest2)]));
    assert Get(m1, "tool_calls") == Some(JArr([first] + rest1));
    assert Get(m2, "tool_calls") == Some(JArr([first] + rest2));
    ToolCallCongruence(m1, m2, mapping, decode);
  }

  /** The tool calls do not touch the message's content. */
  lemma MessageContentUnchanged(message: map<string, Json>, calls1: Json, calls2: Json)
    ensures ContentField(Some(JObj(message["tool_calls" := calls1])))
         == ContentField(Some(JObj(message["tool_calls" := calls2])))
  {
  }

  /** The tool calls do not touch the model or the usage counts. */
  lemma TopFieldsUnchanged(top: map<string, Json>, choice: map<string, Json>, message: map<string, Json>, calls1: Json, calls2: Json)
    ensures var api1 := WithToolCalls(top, choice, message, calls1);
            var api2 := WithToolCalls(top, choice, message, calls2);
            ModelField(api1) == ModelField(api2) && Get(Some(api1), "usage") == Get(Some(api2), "usage")
  {
  }

  /** The tool-call branch reads the message only through the truthiness of its tool calls and
      the function of the first one. */
  lemma ToolCallCongruence(m1: Option<Json>, m2: Option<Json>, mapping: map<string, string>, decode: string -> Option<Json>)
    requires CallsTool(m1) == CallsTool(m2)
    requires At0(Get(m1, "tool_calls")) == At0(Get(m2, "tool_calls"))
    ensures ToolCall(m1, mapping, decode) == ToolCall(m2, mapping, decode)
  {
    assert FunctionOf(m1) == FunctionOf(m2);
  }

  /** The constructor reads the reply only through the model, the message's content and tool
      call, and the usage counts. */
  lemma ParseCongruence(api1: Json, api2: Json, mapping: map<string, string>, decode: string -> Option<Json>)
    requires IsArray(api1) && IsArray(api2)
    requires ModelField(api1) == ModelField(api2)
    requires ToolCall(MessageOf(api1), mapping, decode) == ToolCall(MessageOf(api2), mapping, decode)
    requires ContentField(MessageOf(api1)) == ContentField(MessageOf(api2))
    requires Get(Some(api1), "usage") == Get(Some(api2), "usage")
    ensures SameApartFromRaw(Parse(api1, mapping, decode), Parse(api2, mapping, decode))
  {
  }

  /** Where `WithToolCalls` puts the message. */
  lemma MessageOfWithToolCalls(top: map<string, Json>, choice: map<string, Json>, message: map<string, Json>, calls: Json)
    ensures calls != JNull ==> MessageOf(WithToolCalls(top, choice, message, calls)) == Some(JObj(message["tool_calls" := calls]))
  {
  }
}
