/** ChatGPT: the fluent builder that collects a model, a prompt, messages and tools, turns them
    into the chat-completion payload, and sends it. */
module RequestBuilder {
  import opened Wrappers
  import opened Json
  import opened Errors
  import opened ChatTools
  import Naming
  import opened Registry
  import opened Transport
  import opened ResponseParser

  /** The model used when neither the caller nor the configuration names one. */
  const FallbackModel: string := "gpt-3.5-turbo"

  /** The builder's state. `toolMapping` sends each registered tool name to the class name it was
      registered under. */
  datatype Builder = Builder(
    model: string,
    prompt: Option<string>,
    tools: seq<Tool>,
    toolMapping: map<string, string>,
    messages: seq<Json>,
    client: Client)

  /** The constructor (and `new`): the model is the argument, else the configured default, else
      the fallback; the client is built from the same configuration and may refuse it. */
  function New(model: Option<string>, config: Config): (r: Result<Builder, Failure>)
    ensures r.Failure? <==> NewClient(config).Failure?
    ensures r.Failure? ==> r.error == NewClient(config).error
    ensures r.Success? ==> r.value.client == NewClient(config).value
    ensures r.Success? && model.Some? ==> r.value.model == model.value
    ensures r.Success? && model.None? && config.defaultModel.Some? ==> r.value.model == config.defaultModel.value
    ensures r.Success? && model.None? && config.defaultModel.None? ==> r.value.model == FallbackModel
    ensures r.Success? ==>
              r.value.prompt.None? && r.value.tools == [] && r.value.toolMapping == map[] && r.value.messages == []
  {
    var client :- NewClient(config);
    Success(Builder(model.GetOr(config.defaultModel.GetOr(FallbackModel)), None, [], map[], [], client))
  }

  /** prompt: replaces any earlier prompt. */
  function Prompt(b: Builder, prompt: string): (r: Builder)
    ensures r.prompt == Some(prompt)
    ensures r.model == b.model && r.tools == b.tools && r.toolMapping == b.toolMapping
    ensures r.messages == b.messages && r.client == b.client
    ensures BuildMessages(r) == b.messages + [UserMessage(prompt)]
  {
    b.(prompt := Some(prompt))
  }

  /** messages: replaces the whole earlier message list. */
  function Messages(b: Builder, messages: seq<Json>): (r: Builder)
    ensures r.messages == messages
    ensures r.model == b.model && r.prompt == b.prompt && r.tools == b.tools
    ensures r.toolMapping == b.toolMapping && r.client == b.client
    ensures BuildMessages(r)[..|messages|] == messages
  {
    b.(messages := messages)
  }

  /** getToolName: a ChatTool's getName, else a non-null `name` property, else the snake-cased
      basename of the class. */
  function ToolName(t: Tool): (name: string)
    ensures t.props.name.Some? ==> name == t.props.name.value
    ensures t.props.name.None? ==> name == DefaultName(t.className) && Naming.NoUpper(name)
  {
    match t
    case ChatToolInstance(className, props, _) => GetName(props, className)
    case PlainToolInstance(className, props, _) =>
      if props.name.Some? then props.name.value else DefaultName(className)
  }

  /** getToolDescription: a ChatTool's getDescription, else a non-null `description`, else "". */
  function ToolDescription(t: Tool): (description: string)
    ensures t.props.description.Some? ==> description == t.props.description.value
    ensures t.props.description.None? ==> description == ""
  {
    match t
    case ChatToolInstance(_, props, _) => GetDescription(props)
    case PlainToolInstance(_, props, _) =>
      if props.description.Some? then props.description.value else ""
  }

  /** getToolStrict: a ChatTool's getStrict, else a non-null `strict`, else false. */
  function ToolStrict(t: Tool): (strict: bool)
    ensures t.props.strict.Some? ==> strict == t.props.strict.value
    ensures t.props.strict.None? ==> !strict
  {
    match t
    case ChatToolInstance(_, props, _) => GetStrict(props)
    case PlainToolInstance(_, props, _) =>
      if props.strict.Some? then props.strict.value else false
  }

  /** A ChatTool subclass and a class that only implements the interface are described alike:
      the declared value, or the same default. A ChatTool built by the container always has
      its name and flag set by then. */
  lemma ToolPropertiesUniform(t: Tool)
    ensures ToolName(t) == t.props.name.GetOr(DefaultName(t.className))
    ensures ToolDescription(t) == t.props.description.GetOr("")
    ensures ToolStrict(t) == t.props.strict.GetOr(false)
    ensures t.ChatToolInstance? && t.props == Construct(t.props, t.className) ==>
              Some(ToolName(t)) == t.props.name
  {
  }

  /** The result of `tool()` or `tools()`: the builder afterwards, and the exception that
      interrupted the call, if any. */
  datatype Step = Step(builder: Builder, error: Option<Failure>)

  /** tool: check the class, then append the object and map its name to the class. A rejected
      class leaves the builder as it was. */
  function AddTool(b: Builder, table: ClassTable, cls: string): (s: Step)
    ensures cls !in table ==>
              s == Step(b, Some(InvalidArgumentException("Tool class " + cls + " does not exist.")))
    ensures cls in table && !table[cls].IsTool() ==>
              s == Step(b, Some(InvalidArgumentException("Class " + cls + " does not implement IChatTool interface.")))
    ensures cls in table && table[cls].IsTool() ==>
              var t := App(table, cls);
              s.error.None? &&
              s.builder == b.(tools := b.tools + [t], toolMapping := b.toolMapping[ToolName(t) := cls])
  {
    match Resolve(table, cls)
    case Failure(why) => Step(b, Some(InvalidArgumentException(RejectionMessage(why, cls))))
    case Success(t) => Step(b.(tools := b.tools + [t], toolMapping := b.toolMapping[ToolName(t) := cls]), None)
  }

  /** tools: `tool` for each class in order; the first rejection ends the call, and the classes
      before it stay registered. */
  function AddTools(b: Builder, table: ClassTable, classes: seq<string>): (s: Step)
    ensures s.error.None? ==> |s.builder.tools| == |b.tools| + |classes|
    ensures b.tools <= s.builder.tools
    ensures s.builder.(tools := b.tools, toolMapping := b.toolMapping) == b
    decreases |classes|
  {
    if |classes| == 0 then Step(b, None)
    else
      var s := AddTool(b, table, classes[0]);
      if s.error.Some? then s
      else
        var rest := AddTools(s.builder, table, classes[1..]);
        rest
  }

  /** The user message a prompt becomes. */
  function UserMessage(prompt: string): Json {
    JObj(map["role" := JStr("user"), "content" := JStr(prompt)])
  }

  /** buildMessages: the stored messages, then the prompt as a user message when one is set. */
  function BuildMessages(b: Builder): (ms: seq<Json>)
    ensures |ms| == |b.messages| + (if b.prompt.Some? then 1 else 0)
    ensures ms[..|b.messages|] == b.messages
    ensures b.prompt.Some? ==> ms[|b.messages|] == UserMessage(b.prompt.value)
  {
    if b.prompt.Some? then b.messages + [UserMessage(b.prompt.value)] else b.messages
  }

  /** The function description sent for one tool. */
  function Descriptor(t: Tool): (d: Json)
    ensures d.JObj? && d.fields.Keys == {"type", "function"}
    ensures d.fields["type"] == JStr("function")
    ensures d.fields["function"] == JObj(FunctionFields(t))
  {
    JObj(map["type" := JStr("function"), "function" := JObj(FunctionFields(t))])
  }

  /** The `function` part of a description: exactly the four keys, filled from the getters and
      the tool's parameter schema. */
  function FunctionFields(t: Tool): (f: map<string, Json>)
    ensures f.Keys == {"name", "description", "parameters", "strict"}
    ensures f["name"] == JStr(ToolName(t)) && f["description"] == JStr(ToolDescription(t))
    ensures f["parameters"] == t.parameters && f["strict"] == JBool(ToolStrict(t))
  {
    map[
      "name" := JStr(ToolName(t)),
      "description" := JStr(ToolDescription(t)),
      "parameters" := t.parameters,
      "strict" := JBool(ToolStrict(t))]
  }

  /** buildTools: one description per registered tool, in registration order. */
  function BuildTools(tools: seq<Tool>): (ds: seq<Json>)
    ensures |ds| == |tools|
    ensures forall i :: 0 <= i < |tools| ==> ds[i] == Descriptor(tools[i])
  {
    if |tools| == 0 then [] else [Descriptor(tools[0])] + BuildTools(tools[1..])
  }

  /** buildPayload: model and messages, and the tools only when at least one is registered. */
  function BuildPayload(b: Builder): (p: Json)
    ensures p.JObj?
    ensures "tools" in p.fields <==> |b.tools| > 0
    ensures p.fields.Keys == {"model", "messages"} + (if |b.tools| > 0 then {"tools"} else {})
    ensures p.fields["model"] == JStr(b.model)
    ensures p.fields["messages"] == JArr(BuildMessages(b))
    ensures |b.tools| > 0 ==> p.fields["tools"] == JArr(BuildTools(b.tools))
  {
    var base := map["model" := JStr(b.model), "messages" := JArr(BuildMessages(b))];
    if |b.tools| > 0 then JObj(base["tools" := JArr(BuildTools(b.tools))]) else JObj(base)
  }

  /** send: build the payload, `chat` it, and read the reply with the current tool mapping. */
  method Send(b: Builder, outcomes: seq<Outcome>, decode: string -> Option<Json>)
    returns (r: Result<ChatResponse, Failure>, sent: seq<HttpRequest>, sleeps: seq<int>)
    requires b.client.maxRetries <= |outcomes|
    ensures var run := RunFrom(b.client, outcomes, 0);
            |sent| == run.calls && sleeps == run.sleeps &&
            (run.result.Failure? ==> r == Failure(run.result.error)) &&
            (run.result.Success? ==> r == Parse(run.result.value, b.toolMapping, decode))
    ensures forall i :: 0 <= i < |sent| ==> sent[i] == Request(b.client, BuildPayload(b))
  {
    var reply;
    reply, sent, sleeps := Chat(b.client, BuildPayload(b), outcomes);
    if reply.Failure? {
      r := Failure(reply.error);
    } else {
      r := Parse(reply.value, b.toolMapping, decode);
    }
  }
}
