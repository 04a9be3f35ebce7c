/**
 * A declared function as the generator sees it: its name, its formal
 * parameters in declaration order, its body, and the counter of temporary
 * slots handed out while its body is lowered.
 */
module Declarations {
  import opened Ast

  class FunctionDeclaration {
    var functionName: string
    var args: seq<string>
    var body: Statement
    var usedTemps: nat

    /** A fresh declaration has no parameters yet and has used no temporaries. */
    constructor (name: string, body: Statement)
      ensures functionName == name && this.body == body
      ensures args == [] && usedTemps == 0
    {
      functionName := name;
      args := [];
      this.body := body;
      usedTemps := 0;
    }

    method GetArgs() returns (r: seq<string>)
      ensures r == args
    {
      r := args;
    }

    method SetArgs(newArgs: seq<string>)
      modifies this`args
      ensures args == newArgs
    {
      args := newArgs;
    }

    /** Appends one parameter at the end; the earlier parameters keep their positions. */
    method AddArg(argument: string)
      modifies this`args
      ensures args == old(args) + [argument]
      ensures |args| == |old(args)| + 1 && args[..|old(args)|] == old(args)
    {
      args := args + [argument];
    }

    /** Raises the temporary counter by exactly one; nothing else changes. */
    method IncreaseUsedTemps()
      modifies this`usedTemps
      ensures usedTemps == old(usedTemps) + 1
    {
      usedTemps := usedTemps + 1;
    }

    method GetUsedTemps() returns (r: nat)
      ensures r == usedTemps
    {
      r := usedTemps;
    }
  }

  /**
   * No operation of the class lowers the temporary counter: whatever sequence
   * of them runs, the counter afterwards is at least what it was before.
   */
  method CounterOnlyGrows(d: FunctionDeclaration, ops: seq<DeclarationOp>)
    modifies d
    ensures d.usedTemps >= old(d.usedTemps)
    ensures d.usedTemps == old(d.usedTemps) + IncrementsIn(ops)
  {
    var i := 0;
    while i < |ops|
      invariant 0 <= i <= |ops|
      invariant d.usedTemps == old(d.usedTemps) + IncrementsIn(ops[..i])
    {
      assert ops[..i + 1] == ops[..i] + [ops[i]];
      IncrementsAppend(ops[..i], ops[i]);
      match ops[i] {
        case SetArgsOp(a) => d.SetArgs(a);
        case AddArgOp(a) => d.AddArg(a);
        case IncreaseUsedTempsOp => d.IncreaseUsedTemps();
        case GetArgsOp => var _ := d.GetArgs();
        case GetUsedTempsOp => var _ := d.GetUsedTemps();
      }
      i := i + 1;
    }
    assert ops[..|ops|] == ops;
  }

  /** The operations of `FunctionDeclaration` that touch its parameters or its counter. */
  datatype DeclarationOp =
    | SetArgsOp(newArgs: seq<string>)
    | AddArgOp(argument: string)
    | IncreaseUsedTempsOp
    | GetArgsOp
    | GetUsedTempsOp

  function IncrementsIn(ops: seq<DeclarationOp>): nat
  {
    if |ops| == 0 then 0
    else IncrementsIn(ops[..|ops| - 1]) + (if ops[|ops| - 1].IncreaseUsedTempsOp? then 1 else 0)
  }

  lemma IncrementsAppend(ops: seq<DeclarationOp>, op: DeclarationOp)
    ensures IncrementsIn(ops + [op]) == IncrementsIn(ops) + (if op.IncreaseUsedTempsOp? then 1 else 0)
  {
    assert (ops + [op])[..|ops|] == ops;
  }
}
