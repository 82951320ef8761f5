/** What the Laravel container stands for in this model: `class_exists`, `app($class)` and the
    `instanceof IChatTool` test, over an explicit table of loadable classes. */
module Registry {
  import opened Wrappers
  import opened Json
  import opened ChatTools

  /** An object `app($class)` can produce. `parameters` is what its `parameters()` returns;
      `invoke` is not interpreted. */
  datatype Instance =
      /** A subclass of ChatTool, with the property values it declares. */
    | ChatToolInstance(className: string, props: Props, parameters: Json)
      /** A class implementing IChatTool directly; a property it does not declare is `None`,
          like one that holds null. */
    | PlainToolInstance(className: string, props: Props, parameters: Json)
      /** Any other class. */
    | OtherInstance(className: string)
  {
    /** `$instance instanceof IChatTool` */
    predicate IsTool() {
      !OtherInstance?
    }
  }

  type Tool = i: Instance | i.IsTool() witness PlainToolInstance("", Props(None, None, None), JNull)

  /** The loadable classes, by the name `tool()` is given: each maps to the object as declared,
      before any constructor runs. The instance carries its own class name, because PHP class
      lookups ignore case while `get_class` reports the declared spelling. */
  type ClassTable = map<string, Instance>

  /** `app($class)`: a fresh object, with ChatTool's constructor applied to ChatTool subclasses. */
  function App(table: ClassTable, cls: string): (inst: Instance)
    requires cls in table
    ensures inst.IsTool() == table[cls].IsTool()
    ensures inst.className == table[cls].className
    ensures inst.ChatToolInstance? ==> inst.props.name.Some? && inst.props.strict.Some?
    ensures table[cls].ChatToolInstance? ==>
              inst == ChatToolInstance(table[cls].className,
                                       Construct(table[cls].props, table[cls].className),
                                       table[cls].parameters)
    ensures !table[cls].ChatToolInstance? ==> inst == table[cls]
  {
    match table[cls]
    case ChatToolInstance(className, props, parameters) =>
      ChatToolInstance(className, Construct(props, className), parameters)
    case other => other
  }

  /** Why a class name could not be turned into a tool. */
  datatype Rejection = Missing | NotATool

  /** The two checks `tool()` and `execute()` share: the class must exist, and the object the
      container builds from it must implement IChatTool. */
  function Resolve(table: ClassTable, cls: string): (r: Result<Tool, Rejection>)
    ensures r == Failure(Missing) <==> cls !in table
    ensures r == Failure(NotATool) <==> cls in table && !table[cls].IsTool()
    ensures r.Success? ==> cls in table && r.value == App(table, cls)
  {
    if cls !in table then Failure(Missing)
    else if !App(table, cls).IsTool() then Failure(NotATool)
    else Success(App(table, cls))
  }

  /** The text both `tool()` and `execute()` put in the exception for a rejected class. */
  function RejectionMessage(why: Rejection, cls: string): string {
    match why
    case Missing => "Tool class " + cls + " does not exist."
    case NotATool => "Class " + cls + " does not implement IChatTool interface."
  }
}
