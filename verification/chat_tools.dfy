/** The abstract ChatTool base class: its three optional properties, the defaults its
    constructor fills in, and its getters. */
module ChatTools {
  import opened Wrappers
  import Naming

  /** The public properties `name`, `description` and `strict`; `None` is PHP `null`. */
  datatype Props = Props(name: Option<string>, description: Option<string>, strict: Option<bool>)

  /** getDefaultName: the basename of the concrete class, in snake case. */
  function DefaultName(className: string): (r: string)
    ensures Naming.NoUpper(r)
  {
    var base := Naming.ClassBasename(className);
    Naming.SnakeCaseNoUpper(base);
    Naming.SnakeCase(base)
  }

  /** A class name spelled in `[A-Za-z0-9_\\]` gets a default name spelled in `[a-z0-9_]`. The
      64-character limit the property's documentation mentions is checked nowhere, so no length
      bound is stated. */
  lemma DefaultNameCharset(className: string)
    requires forall i :: 0 <= i < |className| ==> Naming.IsWordChar(className[i]) || className[i] == '\\'
    ensures forall i :: 0 <= i < |DefaultName(className)| ==>
              Naming.IsLowerOrDigitOrUnderscore(DefaultName(className)[i])
  {
    var base := Naming.ClassBasename(className);
    forall i | 0 <= i < |base|
      ensures Naming.IsWordChar(base[i])
    {
      assert base[i] == className[|className| - |base| + i];
      assert base[i] != '\\';
    }
    Naming.SnakeCaseCharset(base);
  }

  /** The constructor: a null name becomes the default name and a null strict flag becomes
      false; a value the subclass declared is kept, and the description is never touched. */
  function Construct(p: Props, className: string): (q: Props)
    ensures q.name.Some? && q.strict.Some?
    ensures q.name == (if p.name.Some? then p.name else Some(DefaultName(className)))
    ensures q.strict == (if p.strict.Some? then p.strict else Some(false))
    ensures q.description == p.description
  {
    p.(name := Some(p.name.GetOr(DefaultName(className))), strict := Some(p.strict.GetOr(false)))
  }

  /** getName: the name, or the default one while it is null. */
  function GetName(p: Props, className: string): (r: string)
    ensures Construct(p, className).name == Some(r)
    ensures p.name.None? ==> Naming.NoUpper(r)
  {
    p.name.GetOr(DefaultName(className))
  }

  /** getDescription: the description, or "" while it is null. */
  function GetDescription(p: Props): (r: string)
    ensures p.description.Some? ==> r == p.description.value
    ensures p.description.None? ==> r == ""
  {
    p.description.GetOr("")
  }

  /** getStrict: the flag, or false while it is null. */
  function GetStrict(p: Props): (r: bool)
    ensures forall className :: Construct(p, className).strict == Some(r)
    ensures p.strict.None? ==> !r
  {
    p.strict.GetOr(false)
  }

  /** Construction changes nothing a getter reports: the getters apply the same defaults the
      constructor writes, and constructing twice is constructing once. */
  lemma ConstructKeepsGetters(p: Props, className: string)
    ensures GetName(Construct(p, className), className) == GetName(p, className)
    ensures GetDescription(Construct(p, className)) == GetDescription(p)
    ensures GetStrict(Construct(p, className)) == GetStrict(p)
    ensures Construct(Construct(p, className), className) == Construct(p, className)
  {
  }
}
