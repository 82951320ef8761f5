/** Properties of the ChatGPT builder that relate several calls: overwriting setters, tool
    registration in order, the first rejection of `tools()`, and the invariants that tie the
    tool list, the payload and the tool mapping together. */
module BuilderProperties {
  import opened Wrappers
  import opened Json
  import opened Errors
  import opened Registry
  import opened Transport
  import opened RequestBuilder
  import opened ToolInvoker
  import opened ResponseParser

  /** A second prompt replaces the first, and it is the last message sent, exactly once. */
  lemma PromptReplaces(b: Builder, first: string, second: string)
    ensures Prompt(Prompt(b, first), second) == Prompt(b, second)
    ensures BuildMessages(Prompt(Prompt(b, first), second)) == b.messages + [UserMessage(second)]
  {
  }

  /** A second message list replaces the first, and the prompt is appended after whichever list
      is current, whatever the order of the two calls. */
  lemma MessagesReplace(b: Builder, first: seq<Json>, second: seq<Json>, prompt: string)
    ensures Messages(Messages(b, first), second) == Messages(b, second)
    ensures Prompt(Messages(b, second), prompt) == Messages(Prompt(b, prompt), second)
    ensures BuildMessages(Prompt(Messages(b, second), prompt)) == second + [UserMessage(prompt)]
  {
  }

  /** Without a prompt the stored messages are sent unchanged, and without tools the payload has
      no `tools` key. */
  lemma BarePayload(b: Builder)
    requires b.prompt.None? && b.tools == []
    ensures BuildPayload(b) == JObj(map["model" := JStr(b.model), "messages" := JArr(b.messages)])
  {
  }

  /** Every class in `classes` exists and builds an IChatTool. */
  predicate AllTools(table: ClassTable, classes: seq<string>) {
    forall i :: 0 <= i < |classes| ==> classes[i] in table && table[classes[i]].IsTool()
  }

  /** When every class is accepted, `tools()` appends the objects in order and maps each of their
      names. */
  lemma {:induction false} AddToolsAllAccepted(b: Builder, table: ClassTable, classes: seq<string>)
    requires AllTools(table, classes)
    ensures AddTools(b, table, classes).error.None?
    ensures var after := AddTools(b, table, classes).builder;
            forall i :: 0 <= i < |classes| ==>
              after.tools[|b.tools| + i] == App(table, classes[i]) &&
              ToolName(App(table, classes[i])) in after.toolMapping
    decreases |classes|
  {
    if |classes| > 0 {
      var s := AddTool(b, table, classes[0]);
      AllToolsTail(table, classes);
      AddToolsAllAccepted(s.builder, table, classes[1..]);
      var after := AddTools(b, table, classes).builder;
      assert after == AddTools(s.builder, table, classes[1..]).builder;
      MappingKeysGrow(s.builder, table, classes[1..]);
      forall i | 0 <= i < |classes|
        ensures after.tools[|b.tools| + i] == App(table, classes[i])
        ensures ToolName(App(table, classes[i])) in after.toolMapping
      {
        if i > 0 {
          assert classes[i] == classes[1..][i - 1];
        }
      }
    }
  }

  /** The classes after the first of an accepted list are accepted too. */
  lemma AllToolsTail(table: ClassTable, classes: seq<string>)
    requires |classes| > 0 && AllTools(table, classes)
    ensures AllTools(table, classes[1..])
  {
    forall i | 0 <= i < |classes| - 1
      ensures classes[1..][i] in table && table[classes[1..][i]].IsTool()
    {
      assert classes[1..][i] == classes[i + 1];
    }
  }

  /** `tools()` never removes a name from the mapping. */
  lemma {:induction false} MappingKeysGrow(b: Builder, table: ClassTable, classes: seq<string>)
    ensures b.toolMapping.Keys <= AddTools(b, table, classes).builder.toolMapping.Keys
    decreases |classes|
  {
    if |classes| > 0 {
      var s := AddTool(b, table, classes[0]);
      if s.error.None? {
        MappingKeysGrow(s.builder, table, classes[1..]);
      }
    }
  }

  /** The first rejected class ends `tools()` with its exception, after the classes before it
      were registered; the classes after it are never looked at. */
  lemma {:induction false} AddToolsStopsAtFirstRejection(b: Builder, table: ClassTable, classes: seq<string>, j: nat)
    requires j < |classes|
    requires AllTools(table, classes[..j])
    requires !(classes[j] in table && table[classes[j]].IsTool())
    ensures var prefix := AddTools(b, table, classes[..j]).builder;
            AddTools(b, table, classes) == Step(prefix, AddTool(prefix, table, classes[j]).error)
    ensures AddTools(b, table, classes).error.Some?
    decreases j
  {
    var s := AddTool(b, table, classes[0]);
    if j > 0 {
      assert classes[..j][0] == classes[0];
      var before := classes[1..][..j - 1];
      assert before == classes[..j][1..];
      assert AllTools(table, before) by {
        forall i | 0 <= i < j - 1
          ensures before[i] in table && table[before[i]].IsTool()
        {
          assert before[i] == classes[..j][i + 1];
        }
      }
      AddToolsStopsAtFirstRejection(s.builder, table, classes[1..], j - 1);
    }
  }

  /** Registering two classes whose tools share a name sends both descriptions, but the mapping
      keeps only the class registered last. */
  lemma DuplicateNameLastWins(b: Builder, table: ClassTable, first: string, second: string)
    requires first in table && table[first].IsTool()
    requires second in table && table[second].IsTool()
    requires ToolName(App(table, first)) == ToolName(App(table, second))
    ensures var after := AddTool(AddTool(b, table, first).builder, table, second).builder;
            after.tools == b.tools + [App(table, first), App(table, second)] &&
            after.toolMapping[ToolName(App(table, first))] == second
  {
  }

  /** The invariant registration keeps: every registered tool's name is in the mapping, and every
      class in the mapping still exists and builds an IChatTool. */
  predicate Coherent(b: Builder, table: ClassTable) {
    (forall i :: 0 <= i < |b.tools| ==> ToolName(b.tools[i]) in b.toolMapping) &&
    (forall name :: name in b.toolMapping ==>
       b.toolMapping[name] in table && table[b.toolMapping[name]].IsTool())
  }

  /** A freshly constructed builder is coherent: it has no tools and an empty mapping. */
  lemma NewIsCoherent(model: Option<string>, config: Config, table: ClassTable)
    requires New(model, config).Success?
    ensures Coherent(New(model, config).value, table)
  {
  }

  /** `tool()` keeps the builder coherent whether or not it accepts the class. */
  lemma AddToolCoherent(b: Builder, table: ClassTable, cls: string)
    requires Coherent(b, table)
    ensures Coherent(AddTool(b, table, cls).builder, table)
  {
    if cls in table && table[cls].IsTool() {
      var after := AddTool(b, table, cls).builder;
      forall i | 0 <= i < |after.tools|
        ensures ToolName(after.tools[i]) in after.toolMapping
      {
        if i < |b.tools| {
          assert after.tools[i] == b.tools[i];
        }
      }
    }
  }

  /** `tools()` keeps the builder coherent, even when it stops at a rejected class. */
  lemma {:induction false} AddToolsCoherent(b: Builder, table: ClassTable, classes: seq<string>)
    requires Coherent(b, table)
    ensures Coherent(AddTools(b, table, classes).builder, table)
    decreases |classes|
  {
    if |classes| > 0 {
      AddToolCoherent(b, table, classes[0]);
      var s := AddTool(b, table, classes[0]);
      if s.error.None? {
        AddToolsCoherent(s.builder, table, classes[1..]);
      }
    }
  }

  /** Every name the payload advertises is one a reply can be mapped back from. */
  lemma AdvertisedNamesResolve(b: Builder, table: ClassTable, i: nat)
    requires Coherent(b, table)
    requires i < |b.tools|
    ensures var d := BuildTools(b.tools)[i];
            Get(Get(Some(d), "function"), "name") == Some(JStr(ToolName(b.tools[i]))) &&
            ToolName(b.tools[i]) in b.toolMapping
  {
  }

  /** A tool call read with a coherent builder's mapping always names a class `execute()`
      accepts: the call reaches the tool's `invoke` with the decoded arguments. */
  lemma ParsedToolExecutes(b: Builder, table: ClassTable, message: Option<Json>, t: ToolResult,
                           decode: string -> Option<Json>, invoke: (Tool, Json) -> Result<Json, Failure>)
    requires Coherent(b, table)
    requires ToolCall(message, b.toolMapping, decode) == Success(Some(t))
    ensures t.toolClass in table && Execute(table, t, invoke) == invoke(App(table, t.toolClass), t.args)
  {
    var key := ArrayKey(CallName(message)).value;
    assert key in b.toolMapping;
  }
}
