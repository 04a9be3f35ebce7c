/**
 * The generator's external collaborators, given as data: the symbol table
 * (function name to signature and declaration) and the expression type
 * checker (a function from the checker's state and an expression to a type).
 */
module Symbols {
  import opened Wrappers
  import opened Ast
  import opened Declarations

  /**
   * A function's symbol-table item: parameter names with their types, in the
   * iteration order of its argument-type map, the return type, and the
   * declaration node.
   */
  datatype Signature = Signature(argTypes: seq<(string, Type)>, returnType: Type, decl: FunctionDeclaration)

  /** The type checker's state: the function it is inside and whether it checks a call statement. */
  datatype Checker = Checker(curFunction: Option<string>, inCallStmt: bool)

  datatype Env = Env(symbols: map<string, Signature>, typeOf: (Checker, Expression) -> Type)

  /** The parameter names of a signature, in its map's key order. */
  function ArgNames(argTypes: seq<(string, Type)>): (names: seq<string>)
    ensures |names| == |argTypes|
    ensures forall i | 0 <= i < |names| :: names[i] == argTypes[i].0
  {
    if |argTypes| == 0 then [] else ArgNames(argTypes[..|argTypes| - 1]) + [argTypes[|argTypes| - 1].0]
  }

  /** `Map.get` on the argument-type map: the type recorded for `name`, if any. */
  function ArgType(argTypes: seq<(string, Type)>, name: string): (r: Option<Type>)
    ensures r.Some? <==> exists i | 0 <= i < |argTypes| :: argTypes[i].0 == name
  {
    if |argTypes| == 0 then None
    else if argTypes[0].0 == name then Some(argTypes[0].1)
    else ArgType(argTypes[1..], name)
  }

  /** A type lookup that succeeds returns the type of the first parameter of that name. */
  lemma {:induction false} ArgTypeFirstMatch(argTypes: seq<(string, Type)>, name: string)
    ensures var r := ArgType(argTypes, name);
      r.Some? ==> exists i | 0 <= i < |argTypes| ::
        argTypes[i] == (name, r.value) && forall j | 0 <= j < i :: argTypes[j].0 != name
    decreases |argTypes|
  {
    var r := ArgType(argTypes, name);
    if |argTypes| > 0 && argTypes[0].0 != name && r.Some? {
      ArgTypeFirstMatch(argTypes[1..], name);
      var i :| 0 <= i < |argTypes| - 1 && argTypes[1..][i] == (name, r.value) && forall j | 0 <= j < i :: argTypes[1..][j].0 != name;
      assert argTypes[i + 1] == (name, r.value) && forall j | 0 <= j < i + 1 :: argTypes[j].0 != name;
    }
  }

  /**
   * The keyword argument bound to `name` at a call site: the first key, in the
   * call's key order, whose name equals `name`.
   */
  function KeywordIndex(kw: seq<(string, Expression)>, name: string): (r: Option<nat>)
    ensures r.Some? ==> r.value < |kw| && kw[r.value].0 == name
    ensures r.Some? ==> forall j | 0 <= j < r.value :: kw[j].0 != name
    ensures r.None? ==> forall j | 0 <= j < |kw| :: kw[j].0 != name
  {
    if |kw| == 0 then None
    else if kw[0].0 == name then Some(0)
    else match KeywordIndex(kw[1..], name)
      case None => None
      case Some(i) => Some(i + 1)
  }
}
