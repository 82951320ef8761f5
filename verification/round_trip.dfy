/** The tool-calling round trip across the three classes: a tool registered with `tool()` is
    advertised under its name, a reply naming it is read back into a ToolResult for the
    registered class, and `execute()` calls that tool with the decoded arguments. */
module RoundTrip {
  import opened Wrappers
  import opened Json
  import opened Errors
  import opened ChatTools
  import opened Registry
  import opened RequestBuilder
  import opened ToolInvoker
  import opened ResponseParser
  import Naming

  /** A reply without usage or content whose first choice calls `name` with `arguments`. */
  function ToolCallReply(name: string, arguments: string): Json {
    var call := JObj(map["name" := JStr(name), "arguments" := JStr(arguments)]);
    var message := JObj(map["tool_calls" := JArr([JObj(map["function" := call])])]);
    JObj(map["choices" := JArr([JObj(map["message" := message])])])
  }

  /** The name a reply finds in the mapping right after registration is the class just
      registered, and the reply becomes a ToolResult for it with the decoded arguments. */
  lemma ReplyNamesRegisteredTool(b: Builder, table: ClassTable, cls: string, arguments: string, args: Json,
                                 decode: string -> Option<Json>)
    requires cls in table && table[cls].IsTool()
    requires TruthyString(cls)
    requires decode(arguments) == Some(args) && IsArray(args)
    ensures var name := ToolName(App(table, cls));
            var reply := ToolCallReply(name, arguments);
            Parse(reply, AddTool(b, table, cls).builder.toolMapping, decode)
              == Success(ChatResponse(reply, "", "", Usage(JInt(0), JInt(0), JInt(0)),
                                      Some(ToolResult(name, args, cls))))
  {
    var name := ToolName(App(table, cls));
    var mapping := AddTool(b, table, cls).builder.toolMapping;
    assert name in mapping && mapping[name] == cls;
    ParseToolCallReply(name, arguments, mapping, cls, args, decode);
  }

  /** A reply calling a name the mapping sends to a truthy class, with arguments that decode to
      an array, parses to a ToolResult for that class and nothing else. */
  lemma ParseToolCallReply(name: string, arguments: string, mapping: map<string, string>, cls: string, args: Json,
                           decode: string -> Option<Json>)
    requires name in mapping && mapping[name] == cls && TruthyString(cls)
    requires decode(arguments) == Some(args) && IsArray(args)
    ensures var reply := ToolCallReply(name, arguments);
            Parse(reply, mapping, decode)
              == Success(ChatResponse(reply, "", "", Usage(JInt(0), JInt(0), JInt(0)),
                                      Some(ToolResult(name, args, cls))))
  {
    var reply := ToolCallReply(name, arguments);
    ToolCallReplyFields(name, arguments);
    assert ToolCall(MessageOf(reply), mapping, decode) == Success(Some(ToolResult(name, args, cls))) by {
      ToolCallOfReply(name, arguments, mapping, cls, args, decode);
    }
  }

  /** The tool-call branch on `ToolCallReply`. */
  lemma ToolCallOfReply(name: string, arguments: string, mapping: map<string, string>, cls: string, args: Json,
                        decode: string -> Option<Json>)
    requires name in mapping && mapping[name] == cls && TruthyString(cls)
    requires decode(arguments) == Some(args) && IsArray(args)
    ensures ToolCall(MessageOf(ToolCallReply(name, arguments)), mapping, decode) == Success(Some(ToolResult(name, args, cls)))
  {
    ToolCallReplyFields(name, arguments);
  }

  /** What the constructor reads from `ToolCallReply`. */
  lemma ToolCallReplyFields(name: string, arguments: string)
    ensures var reply := ToolCallReply(name, arguments);
            var message := MessageOf(reply);
            IsArray(reply) && ModelField(reply) == JStr("") && ContentField(message) == JStr("") &&
            CallsTool(message) && CallName(message) == JStr(name) && CallArguments(message) == JStr(arguments) &&
            UsageField(reply, "prompt_tokens") == JInt(0) &&
            UsageField(reply, "completion_tokens") == JInt(0) &&
            UsageField(reply, "total_tokens") == JInt(0)
  {
    var reply := ToolCallReply(name, arguments);
    var message := MessageOf(reply);
    assert Get(FunctionOf(message), "name") == Some(JStr(name));
    assert Get(FunctionOf(message), "arguments") == Some(JStr(arguments));
  }

  /** The whole round trip: the tool is advertised under a name; a reply calling that name with
      arguments that decode to an array yields a ToolResult whose `execute()` invokes the
      registered tool on exactly those arguments. */
  lemma ToolCallRoundTrip(b: Builder, table: ClassTable, cls: string, arguments: string, args: Json,
                          decode: string -> Option<Json>, invoke: (Tool, Json) -> Result<Json, Failure>)
    requires cls in table && table[cls].IsTool()
    requires TruthyString(cls)
    requires decode(arguments) == Some(args) && IsArray(args)
    ensures var after := AddTool(b, table, cls).builder;
            var t := App(table, cls);
            var reply := ToolCallReply(ToolName(t), arguments);
            var parsed := Parse(reply, after.toolMapping, decode);
            BuildTools(after.tools)[|b.tools|] == Descriptor(t) &&
            parsed.Success? && parsed.value.tool.Some? &&
            Execute(table, parsed.value.tool.value, invoke) == invoke(t, args)
  {
    ReplyNamesRegisteredTool(b, table, cls, arguments, args, decode);
  }

  /** The default name of a namespaced single-word class is its basename with the initial
      lowered: `App\Tools\Weather` is called `weather`. */
  lemma WeatherDefaultName(cls: string)
    requires cls == "App\\Tools\\Weather"
    ensures DefaultName(cls) == "weather"
  {
    WeatherBasename(cls);
    Naming.WeatherExample(Naming.ClassBasename(cls));
  }

  /** The basename of `App\Tools\Weather`. */
  lemma WeatherBasename(cls: string)
    requires cls == "App\\Tools\\Weather"
    ensures Naming.ClassBasename(cls) == "Weather"
  {
    var ns, base := cls[..9], cls[10..];
    assert cls == ns + "\\" + base;
    Naming.ClassBasenameAfterSeparator(ns, base);
  }

  /** A ChatTool `App\Tools\Weather` that declares no name is advertised as `weather`, and a reply
      calling `weather` with `{"city":"Paris"}` comes back as a ToolResult for that class. */
  lemma WeatherRoundTrip(cls: string, name: string, arguments: string, b: Builder, decode: string -> Option<Json>)
    requires cls == "App\\Tools\\Weather" && name == "weather" && arguments == "{\"city\":\"Paris\"}"
    requires decode(arguments) == Some(JObj(map["city" := JStr("Paris")]))
    ensures var table := map[cls := ChatToolInstance(cls, Props(None, None, None), EmptyArray)];
            var after := AddTool(b, table, cls).builder;
            var parsed := Parse(ToolCallReply(name, arguments), after.toolMapping, decode);
            name in after.toolMapping && after.toolMapping[name] == cls &&
            parsed.Success? && parsed.value.tool == Some(ToolResult(name, JObj(map["city" := JStr("Paris")]), cls))
  {
    var table := map[cls := ChatToolInstance(cls, Props(None, None, None), EmptyArray)];
    WeatherDefaultName(cls);
    assert ToolName(App(table, cls)) == name;
    ReplyNamesRegisteredTool(b, table, cls, arguments, JObj(map["city" := JStr("Paris")]), decode);
  }

  /** `tool()` and `execute()` check a class the same way: they reject the same classes with
      the same message (an InvalidArgumentException at registration, a RuntimeException at
      execution), and a class `tool()` accepts is one `execute()` hands to the tool. */
  lemma ExecuteChecksLikeRegistration(b: Builder, table: ClassTable, t: ToolResult,
                                      invoke: (Tool, Json) -> Result<Json, Failure>)
    ensures var step := AddTool(b, table, t.toolClass);
            var run := Execute(table, t, invoke);
            (step.error.Some? <==> Resolve(table, t.toolClass).Failure?) &&
            (step.error.Some? ==>
               step.error.value.InvalidArgumentException? && run.Failure? && run.error.RuntimeException? &&
               step.error.value.message == run.error.message) &&
            (step.error.None? ==> run == invoke(step.builder.tools[|b.tools|], t.args))
  {
  }
}
