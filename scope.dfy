/**
 * Variable scoping (`Context`): a frame's own map of local bindings in
 * front of the host's shared tables.  Names starting with `global_` live in
 * the host table.  These are the pure operations the interpreter threads;
 * the `Context` class is proved to perform them.
 */
module Scope {
  import opened Values
  import opened Ast

  /** The tables of a `ScriptHost` that scripts read and write. */
  datatype Tables = Tables(globals: map<string, Binding>, functions: map<string, Udf>)

  /** A Context: its local variables and the tables of its host. */
  datatype Frame = Frame(locals: map<string, Binding>, host: Tables)

  const GLOBAL_PREFIX := "global_"

  predicate StartsWith(s: string, prefix: string) {
    |prefix| <= |s| && s[..|prefix|] == prefix
  }

  predicate IsGlobalName(name: string) {
    StartsWith(name, GLOBAL_PREFIX)
  }

  /** `getVariable`: the local binding, else the host's global binding, else `null`. */
  function GetVariable(f: Frame, name: string): Binding {
    if name in f.locals then f.locals[name]
    else if name in f.host.globals then f.host.globals[name]
    else Missing
  }

  /** `setVariable`: a `global_` name goes to the host table, any other name to the locals. */
  function SetVariable(f: Frame, name: string, b: Binding): (r: Frame)
    ensures IsGlobalName(name) ==> r.locals == f.locals && r.host.functions == f.host.functions
    ensures !IsGlobalName(name) ==> r.host == f.host
  {
    if IsGlobalName(name) then f.(host := f.host.(globals := f.host.globals[name := b]))
    else f.(locals := f.locals[name := b])
  }

  /** `isAVariable`. */
  predicate IsAVariable(f: Frame, name: string) {
    name in f.locals || name in f.host.globals
  }

  /** `delVariable` (and `clearAll`, which does the same). */
  function DelVariable(f: Frame, name: string): (r: Frame)
    ensures IsGlobalName(name) ==> r.locals == f.locals && r.host.functions == f.host.functions
    ensures !IsGlobalName(name) ==> r.host == f.host
  {
    if IsGlobalName(name) then f.(host := f.host.(globals := f.host.globals - {name}))
    else f.(locals := f.locals - {name})
  }

  /** `with`: a local binding whatever the name. */
  function With(f: Frame, name: string, b: Binding): (r: Frame)
    ensures r.host == f.host
  {
    f.(locals := f.locals[name := b])
  }

  /** `recreate`: a frame on the same host with no locals. */
  function Recreate(f: Frame): (r: Frame)
    ensures r.host == f.host && |r.locals| == 0
  {
    Frame(map[], f.host)
  }

  /** `getAllVariableNames`: the local names only. */
  function AllVariableNames(f: Frame): (names: set<string>)
    ensures forall n :: n in names <==> n in f.locals
  {
    f.locals.Keys
  }

  // ---------------------------------------------------------------------
  // Properties.

  /**
   * A value set is read back, unless a local binding of the same `global_`
   * name (only `with` can make one) hides the host entry it went to.
   */
  lemma SetThenGet(f: Frame, name: string, b: Binding)
    ensures GetVariable(SetVariable(f, name, b), name) == b
            <==> !(IsGlobalName(name) && name in f.locals && f.locals[name] != b)
    ensures IsAVariable(SetVariable(f, name, b), name)
  {
  }

  /** Setting one name leaves every other name's binding alone. */
  lemma SetKeepsOthers(f: Frame, name: string, other: string, b: Binding)
    requires other != name
    ensures GetVariable(SetVariable(f, name, b), other) == GetVariable(f, other)
    ensures IsAVariable(SetVariable(f, name, b), other) == IsAVariable(f, other)
  {
  }

  /**
   * After deleting a local name, reading it falls through to the host's
   * global table; after deleting a `global_` name with no local shadow,
   * nothing is left.
   */
  lemma DeleteThenGet(f: Frame, name: string)
    ensures !IsGlobalName(name) ==>
              GetVariable(DelVariable(f, name), name)
              == (if name in f.host.globals then f.host.globals[name] else Missing)
    ensures IsGlobalName(name) && name !in f.locals ==>
              GetVariable(DelVariable(f, name), name) == Missing
              && !IsAVariable(DelVariable(f, name), name)
  {
  }

  /** `with` always makes the local binding visible, `global_` name or not. */
  lemma WithThenGet(f: Frame, name: string, b: Binding)
    ensures GetVariable(With(f, name, b), name) == b
    ensures AllVariableNames(With(f, name, b)) == AllVariableNames(f) + {name}
  {
  }

  /** A recreated frame sees exactly the host's globals. */
  lemma RecreateSeesGlobals(f: Frame, name: string)
    ensures GetVariable(Recreate(f), name)
            == (if name in f.host.globals then f.host.globals[name] else Missing)
    ensures IsAVariable(Recreate(f), name) <==> name in f.host.globals
  {
  }
}
