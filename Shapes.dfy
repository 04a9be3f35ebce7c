/**
 * Where things sit in the generated code: the operand order of arithmetic,
 * the placement of the right operand of `and`/`or` behind its jump, the
 * labels a conditional jumps to, the function name that wins over a
 * parameter of the same name, and keyword arguments that follow the
 * callee's signature rather than the call site.
 */
module Shapes {
  import opened Wrappers
  import opened Labels
  import opened Ast
  import opened Symbols
  import opened Lowering
  import opened LoweringProps
  import opened StmtProps

  /**
   * Arithmetic is left operand, unbox, right operand, unbox, the one
   * primitive instruction of the operator, box: the left operand's
   * instructions come first.
   */
  lemma ArithmeticOrder(env: Env, ck: Checker, args: seq<string>, e: Expression, c: Counters)
    requires e.Binary? && IsArith(e.op) && Resolved(env, ck, e)
    ensures var L := LowerExpr(env, ck, args, e.left, c);
      var R := LowerExpr(env, ck, args, e.right, L.after);
      var B := LowerBinary(env, ck, args, e, c);
      var k := |L.code|;
      && |B.code| == k + |R.code| + 4
      && B.code[..k] == L.code && B.code[k] == UnboxInt
      && B.code[k + 1..k + 1 + |R.code|] == R.code
      && B.code[k + 1 + |R.code|..] == [UnboxInt, ArithInstr(e.op), BoxInt]
      && B.after == R.after
    ensures ArithInstr(e.op) == if e.op.Add? then "iadd" else if e.op.Sub? then "isub" else if e.op.Mult? then "imul" else "idiv"
  {
    var L := LowerExpr(env, ck, args, e.left, c);
    var R := LowerExpr(env, ck, args, e.right, L.after);
    var code := L.code + [UnboxInt] + R.code + [UnboxInt, ArithInstr(e.op), BoxInt];
    assert LowerBinary(env, ck, args, e, c).code == code;
    var k := |L.code|;
    assert code[k + 1..k + 1 + |R.code|] == R.code;
    assert code[k + 1 + |R.code|..] == [UnboxInt, ArithInstr(e.op), BoxInt];
  }

  /**
   * Short-circuit placement: after the left operand, `and` jumps with `ifeq`
   * to `Label_false<n>` and `or` with `ifne` to `Label_true<n>`; the right
   * operand follows that jump, and the label it jumps to pushes the boxed
   * `0` (for `and`) or `1` (for `or`). `L` and `R` are the lowered left and
   * right operands; the label number `n` is the counter after the left one.
   */
  lemma ShortCircuitPlacement(env: Env, ck: Checker, args: seq<string>, e: Expression, c: Counters, L: Code, R: Code)
    requires e.Binary? && (e.op.And? || e.op.Or?) && Resolved(env, ck, e)
    requires L == LowerExpr(env, ck, args, e.left, c)
    requires R == LowerExpr(env, ck, args, e.right, L.after.(labels := L.after.labels + 1))
    ensures var n := L.after.labels;
      var code := LowerBinary(env, ck, args, e, c).code;
      var role := if e.op.And? then "false" else "true";
      var k := |L.code|;
      var p := k + 2 + |R.code|;
      && |code| == p + 5
      && code[..k] == L.code && code[k] == UnboxBool
      && code[k + 1] == (if e.op.And? then "ifeq " else "ifne ") + LabelName(role, n)
      && code[k + 2..p] == R.code
      && code[p + 1] == LabelDef(role, n)
      && code[p + 2] == (if e.op.And? then "ldc 0" else "ldc 1") && code[p + 3] == BoxBool
  {
    ShortCircuitIs(env, ck, args, e, c, L, R);
    var role := if e.op.And? then "false" else "true";
    Segments(L.code, UnboxBool, (if e.op.And? then "ifeq " else "ifne ") + LabelName(role, L.after.labels), R.code,
             ShortCircuitTail(role, L.after.labels, R.after.labels, if e.op.And? then "ldc 0" else "ldc 1"));
  }

  /** The pieces of `a + [x, y] + b + t`, found again by position. */
  lemma Segments(a: seq<string>, x: string, y: string, b: seq<string>, t: seq<string>)
    ensures var s := a + [x, y] + b + t;
      && |s| == |a| + 2 + |b| + |t|
      && s[..|a|] == a && s[|a|] == x && s[|a| + 1] == y
      && s[|a| + 2..|a| + 2 + |b|] == b && s[|a| + 2 + |b|..] == t
  {
    var s := a + [x, y] + b + t;
    assert s[..|a|] == a;
    assert s[|a| + 2..|a| + 2 + |b|] == b;
    assert s[|a| + 2 + |b|..] == t;
  }

  /**
   * A conditional with an else branch: the test jumps to `Label_else<n>`, the
   * then branch ends with a jump to `Label_endif<m>` followed by the
   * definition of `Label_else<n>`, and `Label_endif<m>` closes the
   * statement. `C` is the lowered condition and `T` the lowered then branch;
   * `n` is the counter after the condition and `m`, the counter after the
   * then branch, is larger.
   */
  lemma IfElseTargets(env: Env, ck: Checker, args: seq<string>, s: Statement, c: Counters, C: Code, T: Emitted)
    requires s.Conditional? && s.elseBody.Else? && StmtResolved(env, ck, s)
    requires C == LowerExpr(env, ck, args, s.condition, c)
    requires T == LowerStmt(env, ck, args, s.thenBody, Counters(C.after.labels + 1, C.after.temps))
    ensures var n := C.after.labels;
      var m := T.after.labels;
      var S := LowerConditional(env, ck, args, s, c);
      && n < m
      && |S.commands| >= 3 + |T.commands|
      && S.commands[0] == C.code + [UnboxBool, "ifeq " + LabelName("else", n)]
      && S.commands[1..1 + |T.commands|] == T.commands
      && S.commands[1 + |T.commands|] == ["goto " + LabelName("endif", m), LabelDef("else", n)]
      && S.commands[|S.commands| - 1] == [LabelDef("endif", m)]
  {
    var n := C.after.labels;
    var m := T.after.labels;
    var E := LowerStmt(env, ck, args, s.elseBody.body, Counters(m + 1, T.after.temps));
    StmtLabels(env, ck, args, s.thenBody, Counters(n + 1, C.after.temps));
    ElseIs(env, ck, args, s, c, C, T, E);
    Commands5(C.code + [UnboxBool, "ifeq " + LabelName("else", n)], T.commands,
              ["goto " + LabelName("endif", m), LabelDef("else", n)], E.commands, [LabelDef("endif", m)]);
  }

  /** The pieces of `[a] + t + [b] + e + [z]`, found again by position. */
  lemma Commands5(a: seq<string>, t: seq<seq<string>>, b: seq<string>, e: seq<seq<string>>, z: seq<string>)
    ensures var s := [a] + t + [b] + e + [z];
      && |s| == 3 + |t| + |e| && s[0] == a && s[1..1 + |t|] == t && s[1 + |t|] == b && s[|s| - 1] == z
  {
    var s := [a] + t + [b] + e + [z];
    assert s[1..1 + |t|] == t;
  }

  /**
   * A conditional without an else branch consumes one label: the test jumps
   * straight to `Label_endif<n>`, which follows the then branch.
   */
  lemma IfThenTarget(env: Env, ck: Checker, args: seq<string>, s: Statement, c: Counters, C: Code, T: Emitted)
    requires s.Conditional? && !s.elseBody.Else? && StmtResolved(env, ck, s)
    requires C == LowerExpr(env, ck, args, s.condition, c)
    requires T == LowerStmt(env, ck, args, s.thenBody, Counters(C.after.labels + 1, C.after.temps))
    ensures var n := C.after.labels;
      var S := LowerConditional(env, ck, args, s, c);
      && |S.commands| == 2 + |T.commands|
      && S.commands[0] == C.code + [UnboxBool, "ifeq " + LabelName("endif", n)]
      && S.commands[1..1 + |T.commands|] == T.commands
      && S.commands[1 + |T.commands|] == [LabelDef("endif", n)]
      && S.after == T.after
  {
    var n := C.after.labels;
    ThenIs(env, ck, args, s, c, C, T);
    var cmds := [C.code + [UnboxBool, "ifeq " + LabelName("endif", n)]] + T.commands + [[LabelDef("endif", n)]];
    assert cmds[1..1 + |T.commands|] == T.commands;
  }

  /**
   * A name the symbol table knows is a function value whatever the
   * parameters are, so it wins over a parameter of the same name; any other
   * name is loaded from the slot of its first parameter occurrence (or -1
   * when there is none). Neither touches the counters.
   */
  lemma NameLowering(env: Env, args: seq<string>, name: string, c: Counters)
    ensures name in env.symbols ==> forall a: seq<string> :: LowerName(env, a, name, c) == Code(FptrValue(name), c)
    ensures name !in env.symbols ==>
      var r := LowerName(env, args, name, c);
      && r.after == c && |r.code| == 1
      && r.code[0] == ALoad(ParamSlot(args, name))
      && (ParamSlot(args, name) == -1 <==> name !in args)
      && (name in args ==> 1 <= ParamSlot(args, name) <= |args| && args[ParamSlot(args, name) - 1] == name)
  {
    ParamSlotFirstMatch(args, name);
  }

  /** The expression a call site binds to the parameter `name`: its first keyword argument with that key. */
  function Bound(call: Expression, name: string): Expression
    requires call.FunctionCall? && KeywordIndex(call.argsWithKey, name).Some?
  {
    call.argsWithKey[KeywordIndex(call.argsWithKey, name).value].1
  }

  /**
   * Keyword arguments are marshalled in the order of the parameter names
   * `names`: two call sites that bind the same expressions to those names, in
   * whatever order they write them, produce the same code.
   */
  lemma {:induction false} KeywordOrderIrrelevant(env: Env, ck: Checker, args: seq<string>, slot: int,
                                                  call1: Expression, call2: Expression, names: seq<string>, c: Counters)
    requires call1.FunctionCall? && call2.FunctionCall?
    requires KeywordsResolved(env, ck, call1, names) && KeywordsResolved(env, ck, call2, names)
    requires forall j | 0 <= j < |names| :: Bound(call1, names[j]) == Bound(call2, names[j])
    ensures LowerKeywordArgs(env, ck, args, slot, call1, names, c) == LowerKeywordArgs(env, ck, args, slot, call2, names, c)
    decreases |names|
  {
    if |names| > 0 {
      var init := names[..|names| - 1];
      assert forall j | 0 <= j < |init| :: init[j] == names[j];
      KeywordOrderIrrelevant(env, ck, args, slot, call1, call2, init, c);
      assert Bound(call1, names[|names| - 1]) == Bound(call2, names[|names| - 1]);
    }
  }

  /**
   * A whole keyword call: calls of the same callee whose keyword arguments
   * bind the same expression to each parameter of the callee's signature
   * lower to the same code, however the call sites order their arguments.
   */
  lemma CallKeywordOrder(env: Env, ck: Checker, args: seq<string>, e1: Expression, e2: Expression, c: Counters)
    requires e1.FunctionCall? && e2.FunctionCall? && e1.callee == e2.callee
    requires |e1.args| == 0 && |e2.args| == 0 && |e1.argsWithKey| > 0 && |e2.argsWithKey| > 0
    requires Resolved(env, ck, e1) && Resolved(env, ck, e2)
    requires var names := ArgNames(CalleeSignature(env, ck, e1.callee).argTypes);
      && KeywordsResolved(env, ck, e1, names) && KeywordsResolved(env, ck, e2, names)
      && forall j | 0 <= j < |names| :: Bound(e1, names[j]) == Bound(e2, names[j])
    ensures LowerCall(env, ck, args, e1, c) == LowerCall(env, ck, args, e2, c)
  {
    var F := LowerExpr(env, ck, args, e1.callee, c);
    var sig := CalleeSignature(env, ck, e1.callee);
    var (slot, temps) := SlotOf(args, Temporary, F.after.temps);
    KeywordOrderIrrelevant(env, ck, args, slot, e1, e2, ArgNames(sig.argTypes), F.after.(temps := temps));
  }
}
