/** ToolResult: the tool call a response asks for, and its execution through the container. */
module ToolInvoker {
  import opened Wrappers
  import opened Json
  import opened Errors
  import opened Registry

  /** The constructor stores the three values unchanged; `args` is the decoded argument array. */
  datatype ToolResult = ToolResult(name: string, args: Json, toolClass: string)

  /** execute: resolve the stored class again and call `invoke` with exactly the stored
      arguments. `invoke` stands for the tool's own code, whose value or exception is passed
      through untouched. An unknown class or an object that is not an IChatTool is a
      RuntimeException. */
  function Execute(table: ClassTable, t: ToolResult, invoke: (Tool, Json) -> Result<Json, Failure>): (r: Result<Json, Failure>)
    ensures t.toolClass !in table ==>
              r == Failure(RuntimeException("Tool class " + t.toolClass + " does not exist."))
    ensures t.toolClass in table && !table[t.toolClass].IsTool() ==>
              r == Failure(RuntimeException("Class " + t.toolClass + " does not implement IChatTool interface."))
    ensures t.toolClass in table && table[t.toolClass].IsTool() ==>
              r == invoke(App(table, t.toolClass), t.args)
  {
    match Resolve(table, t.toolClass)
    case Failure(why) => Failure(RuntimeException(RejectionMessage(why, t.toolClass)))
    case Success(tool) => invoke(tool, t.args)
  }
}
