/**
 * The code generator as the visitor it is: one object holding the global
 * label counter, the declaration whose parameters and temporaries are in
 * use, the type checker's state and the text written to `Main.j` so far.
 * Each visit method advances that state exactly as the lowering functions
 * say; the program-level method adds that every label of the class is
 * defined at most once.
 */
module CodeGen {
  import opened Wrappers
  import opened Labels
  import opened Ast
  import opened Declarations
  import opened Symbols
  import opened Descriptors
  import opened Indentation
  import opened Lowering
  import opened LoweringProps
  import opened StmtProps

  /** The texts `addCommand` writes for a sequence of commands, one write per command. */
  function Texts(commands: seq<seq<string>>): seq<string>
  {
    if |commands| == 0 then [] else Texts(commands[..|commands| - 1]) + [Render(commands[|commands| - 1])]
  }

  lemma {:induction false} TextsConcat(a: seq<seq<string>>, b: seq<seq<string>>)
    ensures Texts(a + b) == Texts(a) + Texts(b)
    decreases |b|
  {
    if |b| == 0 {
      assert a + b == a;
    } else {
      assert (a + b)[..|a + b| - 1] == a + b[..|b| - 1];
      TextsConcat(a, b[..|b| - 1]);
    }
  }

  lemma TextsOne(x: seq<string>)
    ensures Texts([x]) == [Render(x)]
  {
    assert [x][..0] == [];
  }

  /** Every declaration the symbol table holds. */
  function Declared(env: Env): set<FunctionDeclaration>
  {
    set name | name in env.symbols :: env.symbols[name].decl
  }

  class CodeGenerator {
    const env: Env
    /** The functions reached from main, in the order the generator visits them. */
    const visited: seq<string>
    var labelCnt: nat
    var curFunc: FunctionDeclaration?
    var checker: Checker
    /** What has been written to `Main.j`: one text per `addCommand`. */
    var output: seq<string>
    /** The commands behind `output`, as lists of instruction lines. */
    ghost var commands: seq<seq<string>>

    constructor (env: Env, visited: seq<string>, checker: Checker)
      ensures this.env == env && this.visited == visited && this.checker == checker
      ensures labelCnt == 0 && curFunc == null && output == [] && commands == []
    {
      this.env := env;
      this.visited := visited;
      this.checker := checker;
      labelCnt := 0;
      curFunc := null;
      output := [];
      commands := [];
    }

    ghost function Cur(): set<FunctionDeclaration>
      reads this`curFunc
    {
      if curFunc == null then {} else {curFunc}
    }

    /** The current declaration's parameters. */
    ghost function Args(): seq<string>
      reads this`curFunc, Cur()`args
    {
      if curFunc == null then [] else curFunc.args
    }

    ghost function State(): Counters
      reads this`labelCnt, this`curFunc, Cur()`usedTemps
    {
      Counters(labelCnt, if curFunc == null then 0 else curFunc.usedTemps)
    }

    /** The inputs on which visiting `e` does not fail. */
    predicate CanLower(e: Expression)
      reads this`checker, this`curFunc
    {
      Resolved(env, checker, e) && (curFunc != null || !UsesSlots(env, e))
    }

    predicate CanLowerStmt(s: Statement)
      reads this`checker, this`curFunc
    {
      !checker.inCallStmt && StmtResolved(env, checker, s) && (curFunc != null || !StmtUsesSlots(env, checker, s))
    }

    /** `addCommand`: writes the command's text and records its lines. */
    method AddCommand(lines: seq<string>)
      modifies this`output, this`commands
      ensures output == old(output) + [Render(lines)]
      ensures commands == old(commands) + [lines]
    {
      output := output + [AddCommandText(Unlines(lines))];
      commands := commands + [lines];
    }

    /** `slotOf`: a temporary after the parameters and earlier temporaries, or a parameter's position. */
    method SlotOf(req: SlotRequest) returns (slot: int)
      requires curFunc != null
      modifies Cur()`usedTemps
      ensures (slot, curFunc.usedTemps) == Lowering.SlotOf(curFunc.args, req, old(curFunc.usedTemps))
    {
      match req {
        case Temporary =>
          curFunc.IncreaseUsedTemps();
          var args := curFunc.GetArgs();
          var temps := curFunc.GetUsedTemps();
          slot := |args| + temps;
        case Named(name) =>
          var args := curFunc.GetArgs();
          ParamSlotFirstMatch(args, name);
          var i := 0;
          slot := -1;
          while i < |args|
            invariant 0 <= i <= |args|
            invariant forall k | 0 <= k < i :: args[k] != name
          {
            if args[i] == name {
              slot := i + 1;
              return;
            }
            i := i + 1;
          }
      }
    }

    // ---- expressions ----

    method VisitExpr(e: Expression) returns (code: seq<string>)
      requires CanLower(e)
      modifies this`labelCnt, Cur()`usedTemps
      ensures code == LowerExpr(env, checker, Args(), e, old(State())).code
      ensures State() == LowerExpr(env, checker, Args(), e, old(State())).after
      decreases e, 2
    {
      match e {
        case Binary(_, _, _) => code := VisitBinary(e);
        case Unary(_, _) => code := VisitUnary(e);
        case Identifier(name) => code := VisitName(name);
        case AnonymousFunction(name) => code := VisitName(name);
        case ListAccessByIndex(l, i) =>
          var L := VisitExpr(l);
          var I := VisitExpr(i);
          code := L + I + [UnboxInt, Invokevirtual("List/getElement(I)Ljava/lang/Object;"), "checkcast java/lang/Integer"];
        case ListSize(l) =>
          var L := VisitExpr(l);
          code := L + [Invokevirtual("List/getSize()I"), BoxInt];
        case FunctionCall(_, _, _) => code := VisitCall(e);
        case ListValue(_) => code := VisitListValue(e);
        case IntValue(v) => code := IntLiteral(v);
        case BoolValue(b) => code := BoolLiteral(b);
        case StringValue(s) => code := StringLiteral(s);
        case VoidValue => code := [];
      }
    }

    method VisitBinary(e: Expression) returns (code: seq<string>)
      requires e.Binary? && CanLower(e)
      modifies this`labelCnt, Cur()`usedTemps
      ensures code == LowerBinary(env, checker, Args(), e, old(State())).code
      ensures State() == LowerBinary(env, checker, Args(), e, old(State())).after
      decreases e, 1
    {
      var L := VisitExpr(e.left);
      if e.op.And? || e.op.Or? {
        code := VisitShortCircuit(e, L, old(State()));
      } else {
        code := VisitStrict(e, L, old(State()));
      }
    }

    /** `and` and `or` once the left operand is visited: the right operand only runs when it decides. */
    method VisitShortCircuit(e: Expression, L: seq<string>, ghost c: Counters) returns (code: seq<string>)
      requires e.Binary? && (e.op.And? || e.op.Or?) && CanLower(e)
      requires L == LowerExpr(env, checker, Args(), e.left, c).code && State() == LowerExpr(env, checker, Args(), e.left, c).after
      modifies this`labelCnt, Cur()`usedTemps
      ensures code == LowerBinary(env, checker, Args(), e, c).code
      ensures State() == LowerBinary(env, checker, Args(), e, c).after
      decreases e, 0
    {
      var role := if e.op.And? then "false" else "true";
      var n := labelCnt;
      labelCnt := labelCnt + 1;
      var jump := (if e.op.And? then "ifeq " else "ifne ") + LabelName(role, n);
      ghost var c1 := State();
      var R := VisitExpr(e.right);
      var m := labelCnt;
      labelCnt := labelCnt + 1;
      code := L + [UnboxBool, jump] + R + ShortCircuitTail(role, n, m, if e.op.And? then "ldc 0" else "ldc 1");
      ShortCircuitIs(env, checker, Args(), e, c, LowerExpr(env, checker, Args(), e.left, c),
                     LowerExpr(env, checker, Args(), e.right, c1));
    }

    /** The other binary operators once the left operand is visited: the right operand, then the operator. */
    method VisitStrict(e: Expression, L: seq<string>, ghost c: Counters) returns (code: seq<string>)
      requires e.Binary? && !(e.op.And? || e.op.Or?) && CanLower(e)
      requires L == LowerExpr(env, checker, Args(), e.left, c).code && State() == LowerExpr(env, checker, Args(), e.left, c).after
      modifies this`labelCnt, Cur()`usedTemps
      ensures code == LowerBinary(env, checker, Args(), e, c).code
      ensures State() == LowerBinary(env, checker, Args(), e, c).after
      decreases e, 0
    {
      var op := e.op;
      var R := VisitExpr(e.right);
      if IsArith(op) {
        code := L + [UnboxInt] + R + [UnboxInt, ArithInstr(op), BoxInt];
      } else if op.Eq? || op.Neq? {
        var n := labelCnt;
        labelCnt := labelCnt + 2;
        code := L + R + TwoLabel(if op.Eq? then "if_acmpne " else "if_acmpeq ", n, "after", "ldc 1", "ldc 0");
      } else if op.Lt? || op.Gt? {
        var n := labelCnt;
        labelCnt := labelCnt + 2;
        code := L + [UnboxInt] + R + [UnboxInt] +
                TwoLabel(if op.Lt? then "if_icmpge " else "if_icmple ", n, "endif", "ldc 1", "ldc 0");
      } else {
        code := L + ["dup"] + R + [Invokevirtual("List/addElement(Ljava/lang/Object;)V")];
      }
    }

    method VisitUnary(e: Expression) returns (code: seq<string>)
      requires e.Unary? && CanLower(e)
      modifies this`labelCnt, Cur()`usedTemps
      ensures code == LowerUnary(env, checker, Args(), e, old(State())).code
      ensures State() == LowerUnary(env, checker, Args(), e, old(State())).after
      decreases e, 1
    {
      var X := VisitExpr(e.operand);
      if e.uop.Not? {
        var n := labelCnt;
        labelCnt := labelCnt + 2;
        code := X + [UnboxBool] + TwoLabel("ifeq ", n, "after", "ldc 0", "ldc 1");
      } else {
        code := X + [UnboxInt, "ineg", BoxInt];
      }
    }

    /** `Identifier` and `AnonymousFunction`: a function value if the symbol table knows the name, else a load. */
    method VisitName(name: string) returns (code: seq<string>)
      requires curFunc != null || name in env.symbols
      modifies Cur()`usedTemps
      ensures code == LowerName(env, Args(), name, old(State())).code
      ensures State() == LowerName(env, Args(), name, old(State())).after
    {
      if name in env.symbols {
        code := FptrValue(name);
      } else {
        var slot := SlotOf(Named(name));
        code := [ALoad(slot)];
      }
    }

    method VisitCall(e: Expression) returns (code: seq<string>)
      requires e.FunctionCall? && CanLower(e)
      modifies this`labelCnt, Cur()`usedTemps
      ensures code == LowerCall(env, checker, Args(), e, old(State())).code
      ensures State() == LowerCall(env, checker, Args(), e, old(State())).after
      decreases e, 1
    {
      var F := VisitExpr(e.callee);
      var sig := env.symbols[env.typeOf(checker, e.callee).functionName];
      code := F + NewArrayList;
      var slot := SlotOf(Temporary);
      code := code + [AStore(slot)];
      if |e.args| > 0 {
        var A := VisitArgList(slot, e.args);
        code := code + A;
      } else if |e.argsWithKey| > 0 {
        var A := VisitKeywordArgs(slot, e, ArgNames(sig.argTypes));
        code := code + A;
      }
      code := code + [ALoad(slot), FptrInvoke] + CheckcastFor(sig.returnType);
    }

    method VisitListValue(e: Expression) returns (code: seq<string>)
      requires e.ListValue? && CanLower(e)
      modifies this`labelCnt, Cur()`usedTemps
      ensures code == LowerListValue(env, checker, Args(), e, old(State())).code
      ensures State() == LowerListValue(env, checker, Args(), e, old(State())).after
      decreases e, 1
    {
      code := NewArrayList;
      var slot := SlotOf(Temporary);
      code := code + [AStore(slot)];
      var A := VisitArgList(slot, e.elements);
      code := code + A + ["new List", "dup", ALoad(slot), Invokespecial("List/<init>(Ljava/util/ArrayList;)V")];
    }

    /** The loop over positional arguments or list elements, each appended to the list in `slot`. */
    method VisitArgList(slot: int, es: seq<Expression>) returns (code: seq<string>)
      requires curFunc != null && AllResolved(env, checker, es)
      modifies this`labelCnt, Cur()`usedTemps
      ensures code == LowerArgList(env, checker, Args(), slot, es, old(State())).code
      ensures State() == LowerArgList(env, checker, Args(), slot, es, old(State())).after
      decreases es, 1
    {
      code := [];
      var i := 0;
      while i < |es|
        invariant 0 <= i <= |es|
        invariant AllResolved(env, checker, es[..i])
        invariant code == LowerArgList(env, checker, Args(), slot, es[..i], old(State())).code
        invariant State() == LowerArgList(env, checker, Args(), slot, es[..i], old(State())).after
      {
        ArgListStep(env, checker, Args(), slot, es, i, old(State()));
        var X := VisitExpr(es[i]);
        code := code + AddToList(slot, X);
        i := i + 1;
      }
      assert es[..|es|] == es;
    }

    /**
     * The loop over the callee's parameter names `names`: for each, the call
     * site's argument with that key is found and appended.
     */
    method VisitKeywordArgs(slot: int, call: Expression, names: seq<string>) returns (code: seq<string>)
      requires call.FunctionCall? && curFunc != null && KeywordsResolved(env, checker, call, names)
      modifies this`labelCnt, Cur()`usedTemps
      ensures code == LowerKeywordArgs(env, checker, Args(), slot, call, names, old(State())).code
      ensures State() == LowerKeywordArgs(env, checker, Args(), slot, call, names, old(State())).after
      decreases call, 0
    {
      code := [];
      var i := 0;
      while i < |names|
        invariant 0 <= i <= |names|
        invariant KeywordsResolved(env, checker, call, names[..i])
        invariant code == LowerKeywordArgs(env, checker, Args(), slot, call, names[..i], old(State())).code
        invariant State() == LowerKeywordArgs(env, checker, Args(), slot, call, names[..i], old(State())).after
      {
        KeywordArgsStep(env, checker, Args(), slot, call, names, i, old(State()));
        var k := FindKeyword(call.argsWithKey, names[i]);
        var X := VisitExpr(call.argsWithKey[k.value].1);
        code := code + AddToList(slot, X);
        i := i + 1;
      }
      assert names[..|names|] == names;
    }

    // ---- statements ----

    method VisitStmt(s: Statement)
      requires CanLowerStmt(s)
      modifies this`labelCnt, this`output, this`commands, this`checker, Cur()`usedTemps
      ensures checker == old(checker)
      ensures commands == old(commands) + LowerStmt(env, checker, Args(), s, old(State())).commands
      ensures output == old(output) + Texts(LowerStmt(env, checker, Args(), s, old(State())).commands)
      ensures State() == LowerStmt(env, checker, Args(), s, old(State())).after
      decreases s, 2
    {
      match s {
        case Block(ss) => VisitBlock(ss);
        case Conditional(_, _, _) => VisitConditional(s);
        case FunctionCallStmt(callee, pos, kw) => VisitCallStmt(callee, pos, kw);
        case Print(_) => VisitPrint(s);
        case Return(x) =>
          var X := VisitExpr(x);
          var t := env.typeOf(checker, x);
          AddCommand(X + [if t.VoidType? then "return" else "areturn"]);
      }
    }

    method VisitBlock(ss: seq<Statement>)
      requires !checker.inCallStmt && BlockResolved(env, checker, ss)
      requires curFunc != null || forall i | 0 <= i < |ss| :: !StmtUsesSlots(env, checker, ss[i])
      modifies this`labelCnt, this`output, this`commands, this`checker, Cur()`usedTemps
      ensures checker == old(checker)
      ensures commands == old(commands) + LowerBlock(env, checker, Args(), ss, old(State())).commands
      ensures output == old(output) + Texts(LowerBlock(env, checker, Args(), ss, old(State())).commands)
      ensures State() == LowerBlock(env, checker, Args(), ss, old(State())).after
      decreases ss, 1
    {
      var i := 0;
      while i < |ss|
        invariant 0 <= i <= |ss|
        invariant checker == old(checker)
        invariant BlockResolved(env, checker, ss[..i])
        invariant commands == old(commands) + LowerBlock(env, checker, Args(), ss[..i], old(State())).commands
        invariant output == old(output) + Texts(LowerBlock(env, checker, Args(), ss[..i], old(State())).commands)
        invariant State() == LowerBlock(env, checker, Args(), ss[..i], old(State())).after
      {
        BlockStep(env, checker, Args(), ss, i, old(State()));
        ghost var P := LowerBlock(env, checker, Args(), ss[..i], old(State()));
        VisitStmt(ss[i]);
        ghost var S := LowerStmt(env, checker, Args(), ss[i], P.after);
        Extend(old(commands), old(output), P.commands, S.commands, commands, output);
        i := i + 1;
      }
      assert ss[..|ss|] == ss;
    }

    method VisitConditional(s: Statement)
      requires s.Conditional? && CanLowerStmt(s)
      modifies this`labelCnt, this`output, this`commands, this`checker, Cur()`usedTemps
      ensures checker == old(checker)
      ensures commands == old(commands) + LowerConditional(env, checker, Args(), s, old(State())).commands
      ensures output == old(output) + Texts(LowerConditional(env, checker, Args(), s, old(State())).commands)
      ensures State() == LowerConditional(env, checker, Args(), s, old(State())).after
      decreases s, 1
    {
      if s.elseBody.Else? {
        VisitIfElse(s);
      } else {
        VisitIfThen(s);
      }
    }

    /** A conditional with an else branch: test, then branch, jump over the else branch, else branch. */
    method VisitIfElse(s: Statement)
      requires s.Conditional? && s.elseBody.Else? && CanLowerStmt(s)
      modifies this`labelCnt, this`output, this`commands, this`checker, Cur()`usedTemps
      ensures checker == old(checker)
      ensures commands == old(commands) + LowerConditional(env, checker, Args(), s, old(State())).commands
      ensures output == old(output) + Texts(LowerConditional(env, checker, Args(), s, old(State())).commands)
      ensures State() == LowerConditional(env, checker, Args(), s, old(State())).after
      decreases s, 0
    {
      ghost var A := Args();
      ghost var c0 := State();
      ghost var C := LowerExpr(env, checker, A, s.condition, State());
      ghost var cmd0 := commands;
      ghost var out0 := output;
      var n := VisitTest(s.condition, "else");
      ghost var G := [C.code + [UnboxBool, "ifeq " + LabelName("else", n)]];
      assert Args() == A;
      assert State() == Counters(C.after.labels + 1, C.after.temps);
      ghost var T := VisitBranch(s.thenBody, cmd0, out0, G);
      G := G + T.commands;
      var m := labelCnt;
      labelCnt := labelCnt + 1;
      var jump := ["goto " + LabelName("endif", m), LabelDef("else", n)];
      AddToGroup(jump, cmd0, out0, G);
      G := G + [jump];
      assert State() == Counters(T.after.labels + 1, T.after.temps);
      ghost var E := VisitBranch(s.elseBody.body, cmd0, out0, G);
      G := G + E.commands;
      AddToGroup([LabelDef("endif", m)], cmd0, out0, G);
      assert Args() == A;
      ElseIs(env, checker, A, s, c0, C, T, E);
    }

    /** A conditional without an else branch: test, then branch, the `endif` label. */
    method VisitIfThen(s: Statement)
      requires s.Conditional? && !s.elseBody.Else? && CanLowerStmt(s)
      modifies this`labelCnt, this`output, this`commands, this`checker, Cur()`usedTemps
      ensures checker == old(checker)
      ensures commands == old(commands) + LowerConditional(env, checker, Args(), s, old(State())).commands
      ensures output == old(output) + Texts(LowerConditional(env, checker, Args(), s, old(State())).commands)
      ensures State() == LowerConditional(env, checker, Args(), s, old(State())).after
      decreases s, 0
    {
      ghost var A := Args();
      ghost var c0 := State();
      ghost var C := LowerExpr(env, checker, A, s.condition, State());
      ghost var cmd0 := commands;
      ghost var out0 := output;
      var n := VisitTest(s.condition, "endif");
      ghost var G := [C.code + [UnboxBool, "ifeq " + LabelName("endif", n)]];
      assert Args() == A;
      assert State() == Counters(C.after.labels + 1, C.after.temps);
      ghost var T := VisitBranch(s.thenBody, cmd0, out0, G);
      G := G + T.commands;
      AddToGroup([LabelDef("endif", n)], cmd0, out0, G);
      assert Args() == A;
      ThenIs(env, checker, A, s, c0, C, T);
    }

    /** A branch of a conditional, written after the group `G` of the conditional's commands so far. */
    method VisitBranch(body: Statement, ghost cmd0: seq<seq<string>>, ghost out0: seq<string>, ghost G: seq<seq<string>>)
      returns (ghost T: Emitted)
      requires CanLowerStmt(body) && commands == cmd0 + G && output == out0 + Texts(G)
      modifies this`labelCnt, this`output, this`commands, this`checker, Cur()`usedTemps
      ensures checker == old(checker) && Args() == old(Args())
      ensures T == LowerStmt(env, checker, Args(), body, old(State()))
      ensures commands == cmd0 + (G + T.commands) && output == out0 + Texts(G + T.commands)
      ensures State() == T.after
      decreases body, 3
    {
      VisitStmt(body);
      T := LowerStmt(env, checker, Args(), body, old(State()));
      Extend(cmd0, out0, G, T.commands, commands, output);
    }

    /** `addCommand` of the next command of a conditional, after the group `G` of its commands so far. */
    method AddToGroup(x: seq<string>, ghost cmd0: seq<seq<string>>, ghost out0: seq<string>, ghost G: seq<seq<string>>)
      requires commands == cmd0 + G && output == out0 + Texts(G)
      modifies this`output, this`commands
      ensures commands == cmd0 + (G + [x]) && output == out0 + Texts(G + [x])
    {
      AddCommand(x);
      ExtendOne(cmd0, out0, G, x, commands, output);
    }

    /** The first command of a conditional: the condition, unboxed, and a jump to a fresh `role` label when it is false. */
    method VisitTest(cond: Expression, role: string) returns (n: nat)
      requires CanLower(cond)
      modifies this`labelCnt, this`output, this`commands, Cur()`usedTemps
      ensures var C := LowerExpr(env, checker, Args(), cond, old(State()));
        && n == C.after.labels
        && State() == C.after.(labels := n + 1)
        && commands == old(commands) + [C.code + [UnboxBool, "ifeq " + LabelName(role, n)]]
        && output == old(output) + Texts([C.code + [UnboxBool, "ifeq " + LabelName(role, n)]])
    {
      var C := VisitExpr(cond);
      n := labelCnt;
      labelCnt := labelCnt + 1;
      AddCommand(C + [UnboxBool, "ifeq " + LabelName(role, n)]);
      TextsOne(C + [UnboxBool, "ifeq " + LabelName(role, n)]);
    }

    /** `FunctionCallStmt`: the call's value is dropped; the checker knows it is inside a call statement meanwhile. */
    method VisitCallStmt(callee: Expression, pos: seq<Expression>, kw: seq<(string, Expression)>)
      requires CanLowerStmt(FunctionCallStmt(callee, pos, kw))
      modifies this`labelCnt, this`output, this`commands, this`checker, Cur()`usedTemps
      ensures checker == old(checker)
      ensures commands == old(commands) + LowerStmt(env, checker, Args(), FunctionCallStmt(callee, pos, kw), old(State())).commands
      ensures output == old(output) + Texts(LowerStmt(env, checker, Args(), FunctionCallStmt(callee, pos, kw), old(State())).commands)
      ensures State() == LowerStmt(env, checker, Args(), FunctionCallStmt(callee, pos, kw), old(State())).after
      decreases FunctionCallStmt(callee, pos, kw), 1
    {
      checker := checker.(inCallStmt := true);
      var X := VisitCall(FunctionCall(callee, pos, kw));
      AddCommand(X + ["pop"]);
      checker := checker.(inCallStmt := false);
    }

    method VisitPrint(s: Statement)
      requires s.Print? && CanLowerStmt(s)
      modifies this`labelCnt, this`output, this`commands, this`checker, Cur()`usedTemps
      ensures checker == old(checker)
      ensures commands == old(commands) + LowerPrint(env, checker, Args(), s, old(State())).commands
      ensures output == old(output) + Texts(LowerPrint(env, checker, Args(), s, old(State())).commands)
      ensures State() == LowerPrint(env, checker, Args(), s, old(State())).after
      decreases s, 1
    {
      var t := env.typeOf(checker, s.arg);
      var A := VisitExpr(s.arg);
      if t.ListType? {
        VisitPrintList(s, A, old(State()));
      } else {
        var show :=
          if t.IntType? then [UnboxInt, Invokevirtual("java/io/PrintStream/println(I)V")]
          else if t.BoolType? then [Invokevirtual("java/io/PrintStream/println(Ljava/lang/Object;)V")]
          else if t.StringType? then [PrintlnString]
          else [];
        AddCommand([GetOut] + A + show);
      }
    }

    /** Printing a list once it is on the stack: a loop over its elements in two fresh temporaries. */
    method VisitPrintList(s: Statement, A: seq<string>, ghost c: Counters)
      requires s.Print? && CanLowerStmt(s) && env.typeOf(checker, s.arg).ListType?
      requires A == LowerExpr(env, checker, Args(), s.arg, c).code && State() == LowerExpr(env, checker, Args(), s.arg, c).after
      modifies this`labelCnt, this`output, this`commands, Cur()`usedTemps
      ensures commands == old(commands) + LowerPrint(env, checker, Args(), s, c).commands
      ensures output == old(output) + Texts(LowerPrint(env, checker, Args(), s, c).commands)
      ensures State() == LowerPrint(env, checker, Args(), s, c).after
    {
      var whileEnd := labelCnt;
      labelCnt := labelCnt + 3;
      var index := SlotOf(Temporary);
      var element := SlotOf(Temporary);
      AddCommand(A + PrintListLoop(whileEnd, index, element));
    }

    // ---- declarations and the program ----

    /**
     * `visit(FunctionDeclaration)`: the header, with one descriptor per
     * parameter of the declaration built in a loop, then the body, then
     * `.end method`.
     */
    method VisitFunction(decl: FunctionDeclaration)
      requires decl.functionName in env.symbols && curFunc != null && CanLowerStmt(decl.body)
      modifies this`labelCnt, this`output, this`commands, this`checker, Cur()`usedTemps
      ensures checker == old(checker)
      ensures var F := LowerFunction(env, checker, decl.functionName, decl.args, decl.body, Args(), old(State()));
        commands == old(commands) + F.commands && output == old(output) + Texts(F.commands) && State() == F.after
    {
      var sig := env.symbols[decl.functionName];
      var declArgs := decl.args;
      var descriptors := "";
      var i := 0;
      while i < |declArgs|
        invariant 0 <= i <= |declArgs|
        invariant descriptors == ArgDescriptors(declArgs[..i], sig.argTypes)
      {
        assert declArgs[..i + 1][..i] == declArgs[..i];
        descriptors := descriptors + ArgDescriptor(ArgType(sig.argTypes, declArgs[i]));
        i := i + 1;
      }
      assert declArgs[..|declArgs|] == declArgs;
      var header := [".method public " + decl.functionName + "(" + descriptors + ")" + ReturnDescriptor(sig.returnType),
                     ".limit stack 128", ".limit locals 128"];
      ghost var out0 := output;
      ghost var cmd0 := commands;
      AddCommand(header);
      ghost var b0 := State();
      VisitStmt(decl.body);
      ghost var B := LowerStmt(env, checker, Args(), decl.body, b0);
      AddCommand(EndMethod);
      Written3(cmd0, out0, header, B.commands, EndMethod, commands, output);
    }

    /** `visit(MainDeclaration)`: the constructor `<init>` around the main body. */
    method VisitMain(body: Statement)
      requires CanLowerStmt(body)
      modifies this`labelCnt, this`output, this`commands, this`checker, Cur()`usedTemps
      ensures checker == old(checker)
      ensures var M := LowerMain(env, checker, Args(), body, old(State()));
        commands == old(commands) + M.commands && output == old(output) + Texts(M.commands) && State() == M.after
    {
      ghost var out0 := output;
      ghost var cmd0 := commands;
      AddCommand(InitHeader);
      ghost var b0 := State();
      VisitStmt(body);
      ghost var B := LowerStmt(env, checker, Args(), body, b0);
      AddCommand(InitFooter);
      Written3(cmd0, out0, InitHeader, B.commands, InitFooter, commands, output);
    }

    /** Every visited function is in the symbol table, and no two visited names share a declaration. */
    ghost predicate NamesDeclared()
    {
      && (forall i | 0 <= i < |visited| :: visited[i] in env.symbols)
      && (forall i, j | 0 <= i < j < |visited| :: env.symbols[visited[i]].decl != env.symbols[visited[j]].decl)
    }

    /** The body of the function `name`'s declaration visits without failing with it current. */
    ghost predicate Lowerable(name: string)
      requires name in env.symbols
      reads env.symbols[name].decl`functionName, env.symbols[name].decl`body
    {
      var d := env.symbols[name].decl;
      d.functionName in env.symbols && StmtResolved(env, Checker(Some(name), false), d.body)
    }

    /** The visited functions are declared and every one of them can be lowered. */
    ghost predicate FunctionsReady()
      reads Declared(env)`functionName, Declared(env)`body
    {
      NamesDeclared() && forall i | 0 <= i < |visited| :: Lowerable(visited[i])
    }

    /** The name, parameters and body of the first `k` visited declarations. */
    ghost function ViewsUpTo(k: nat): (vs: seq<DeclView>)
      requires k <= |visited| && NamesDeclared()
      reads Declared(env)`functionName, Declared(env)`args, Declared(env)`body
      ensures |vs| == k
      ensures forall j | 0 <= j < k ::
        var d := env.symbols[visited[j]].decl; vs[j] == DeclView(d.functionName, d.args, d.body)
    {
      if k == 0 then []
      else
        var d := env.symbols[visited[k - 1]].decl;
        ViewsUpTo(k - 1) + [DeclView(d.functionName, d.args, d.body)]
    }

    /** The name, parameters and body of every visited declaration, when they can all be lowered. */
    ghost function Views(): (vs: seq<DeclView>)
      requires FunctionsReady()
      reads Declared(env)`functionName, Declared(env)`args, Declared(env)`body
      ensures |vs| == |visited| && AllLowerable(env, visited, vs, |visited|)
      ensures forall j | 0 <= j < |visited| ::
        var d := env.symbols[visited[j]].decl; vs[j] == DeclView(d.functionName, d.args, d.body)
    {
      var vs := ViewsUpTo(|visited|);
      assert forall j | 0 <= j < |visited| :: Lowerable(visited[j]);
      LowerableAll(env, visited, vs, |visited|);
      vs
    }

    /** The temporary counters the first `k` visited declarations hold. */
    ghost function TempsUpTo(k: nat): (t: seq<nat>)
      requires k <= |visited| && NamesDeclared()
      reads Declared(env)`usedTemps
      ensures |t| == k && forall j | 0 <= j < k :: t[j] == env.symbols[visited[j]].decl.usedTemps
    {
      if k == 0 then [] else TempsUpTo(k - 1) + [env.symbols[visited[k - 1]].decl.usedTemps]
    }

    /**
     * What `visit(Program)` writes after its two preamble commands, from the
     * current state: the methods of the visited functions, then `<init>`,
     * lowered with the last visited function current (or the current one
     * when none is visited). `after` is the final counters of that one.
     */
    ghost function ProgramCode(main: Statement): Emitted
      requires ProgramReady(main)
      reads this`checker, this`curFunc, this`labelCnt, Cur()`args, Cur()`usedTemps
      reads Declared(env)`functionName, Declared(env)`args, Declared(env)`body, Declared(env)`usedTemps
    {
      ProgramOf(env, visited, Views(), TempsUpTo(|visited|), checker, Args(), State(), main)
    }

    /**
     * The inputs on which `visit(Program)` does not fail: the visited
     * functions are ready, and `main` is resolved with the last of them
     * current (it uses no parameter slot if there is none).
     */
    ghost predicate ProgramReady(main: Statement)
      reads this`checker, this`curFunc, Declared(env)`functionName, Declared(env)`body
    {
      && Cur() <= Declared(env) && !checker.inCallStmt && FunctionsReady()
      && var ck := if |visited| > 0 then Checker(Some(visited[|visited| - 1]), false) else checker;
         StmtResolved(env, ck, main) && (|visited| > 0 || curFunc != null || !StmtUsesSlots(env, ck, main))
    }

    /**
     * `visit(Program)`: the class header and `main`, then every visited
     * function, then the main declaration, which keeps the last function's
     * declaration current. The ghost `g` is the group of commands appended;
     * no label is defined twice in it.
     */
    method VisitProgram(main: Statement) returns (ghost g: seq<seq<string>>)
      requires ProgramReady(main)
      modifies this`labelCnt, this`output, this`commands, this`checker, this`curFunc, Declared(env)`usedTemps
      ensures Wrote(old(commands), old(output), old(labelCnt), g, commands, output, labelCnt)
      ensures var P := old(ProgramCode(main)); g == [ClassHeader] + [StaticMain] + P.commands && State() == P.after
      ensures curFunc == (if |visited| > 0 then env.symbols[visited[|visited| - 1]].decl else old(curFunc))
    {
      ghost var p := AddPreamble(main);
      ghost var cmd1, out1, lab1 := commands, output, labelCnt;
      ghost var d := VisitDeclarations(main, Views(), TempsUpTo(|visited|));
      WroteChain(old(commands), old(output), old(labelCnt), p, cmd1, out1, lab1, d, commands, output, labelCnt);
      g := p + d;
    }

    /** The two commands in front of every method: the class header and the static `main`. */
    method AddPreamble(ghost main: Statement) returns (ghost g: seq<seq<string>>)
      requires ProgramReady(main)
      modifies this`output, this`commands
      ensures Wrote(old(commands), old(output), labelCnt, g, commands, output, labelCnt)
      ensures g == [ClassHeader] + [StaticMain]
      ensures ProgramReady(main) && ProgramCode(main) == old(ProgramCode(main))
    {
      ghost var cmd0, out0 := commands, output;
      AddClassHeader();
      ghost var cmdH, outH := commands, output;
      AddStaticMainMethod();
      WroteChain(cmd0, out0, labelCnt, [ClassHeader], cmdH, outH, labelCnt, [StaticMain], commands, output, labelCnt);
      g := [ClassHeader] + [StaticMain];
    }

    /** The visited functions, then the main declaration, which keeps the last function's declaration current. */
    method VisitDeclarations(main: Statement, ghost vs: seq<DeclView>, ghost t0: seq<nat>) returns (ghost g: seq<seq<string>>)
      requires ProgramReady(main) && vs == Views() && t0 == TempsUpTo(|visited|)
      modifies this`labelCnt, this`output, this`commands, this`checker, this`curFunc, Declared(env)`usedTemps
      ensures Wrote(old(commands), old(output), old(labelCnt), g, commands, output, labelCnt)
      ensures curFunc == (if |visited| > 0 then env.symbols[visited[|visited| - 1]].decl else old(curFunc))
      ensures var P := ProgramOf(env, visited, vs, t0, old(checker), old(Args()), old(State()), main);
        g == P.commands && State() == P.after
      ensures var M := MethodsOf(env, visited, vs, old(labelCnt), t0, |visited|);
        forall j | 0 <= j < |visited| - 1 :: env.symbols[visited[j]].decl.usedTemps == M.temps[j]
    {
      ghost var cmd0, out0 := commands, output;
      ghost var ck0, a0, c0 := checker, Args(), State();
      ghost var f := VisitFunctions(vs, t0);
      ghost var cmd1, out1, lab1, ck1, a1, c1 := commands, output, labelCnt, checker, Args(), State();
      MainEntry(main, vs, t0, ck0, a0, c0);
      ghost var m := VisitMainDeclaration(main);
      WroteChain(cmd0, out0, old(labelCnt), f, cmd1, out1, lab1, m, commands, output, labelCnt);
      g := f + m;
      ProgramSplit(env, visited, vs, t0, ck0, a0, c0, main, ck1, a1, c1);
    }

    /**
     * Once the visited functions are written, from the checker `ck0`, the
     * parameters `a0` and the counters `c0`, the main declaration can be
     * visited, and it is lowered with the checker, parameters and counters
     * that `<init>` takes in the whole program.
     */
    lemma MainEntry(main: Statement, vs: seq<DeclView>, t0: seq<nat>, ck0: Checker, a0: seq<string>, c0: Counters)
      requires NamesDeclared() && |vs| == |visited| && |t0| == |visited| && AllLowerable(env, visited, vs, |visited|)
      requires !ck0.inCallStmt
      requires StmtResolved(env, if |visited| > 0 then Checker(Some(visited[|visited| - 1]), false) else ck0, main)
      requires |visited| > 0 ==>
        checker == ck0.(curFunction := Some(visited[|visited| - 1])) && curFunc == env.symbols[visited[|visited| - 1]].decl
      requires |visited| == 0 ==>
        checker == ck0 && Args() == a0 && State() == c0 && (curFunc != null || !StmtUsesSlots(env, ck0, main))
      requires var M := MethodsOf(env, visited, vs, c0.labels, t0, |visited|);
        && labelCnt == M.labels
        && forall j | 0 <= j < |visited| ::
             var d := env.symbols[visited[j]].decl; vs[j] == DeclView(d.functionName, d.args, d.body) && d.usedTemps == M.temps[j]
      ensures CanLowerStmt(main) && ProgramLowerable(env, visited, vs, t0, ck0, main)
      ensures var M := MethodsOf(env, visited, vs, c0.labels, t0, |visited|);
        if |visited| > 0 then
          checker == Checker(Some(visited[|visited| - 1]), false) && Args() == vs[|visited| - 1].args
          && State() == Counters(M.labels, M.temps[|visited| - 1])
          && forall j | 0 <= j < |visited| - 1 :: env.symbols[visited[j]].decl !in Cur()
        else checker == ck0 && Args() == a0 && State() == c0
    {
    }

    /** The first command of the class: its name and superclass. */
    method AddClassHeader()
      modifies this`output, this`commands
      ensures Wrote(old(commands), old(output), labelCnt, [ClassHeader], commands, output, labelCnt)
    {
      AddCommand(ClassHeader);
      TextsOne(ClassHeader);
      PreambleLabels(labelCnt);
    }

    /** `addStaticMainMethod`: the static `main` that constructs a `Main`. */
    method AddStaticMainMethod()
      modifies this`output, this`commands
      ensures Wrote(old(commands), old(output), labelCnt, [StaticMain], commands, output, labelCnt)
    {
      AddCommand(StaticMain);
      TextsOne(StaticMain);
      PreambleLabels(labelCnt);
    }

    /**
     * One iteration of the loop of `visit(Program)`: the function `name`'s
     * declaration becomes current, in the generator and in the type
     * checker, and is visited.
     */
    method VisitNamed(name: string) returns (ghost g: seq<seq<string>>)
      requires name in env.symbols && env.symbols[name].decl.functionName in env.symbols
      requires !checker.inCallStmt && StmtResolved(env, checker.(curFunction := Some(name)), env.symbols[name].decl.body)
      modifies this`labelCnt, this`output, this`commands, this`checker, this`curFunc, env.symbols[name].decl`usedTemps
      ensures curFunc == env.symbols[name].decl && checker == old(checker).(curFunction := Some(name))
      ensures Wrote(old(commands), old(output), old(labelCnt), g, commands, output, labelCnt)
      ensures |g| > 0 && g[0] == old(Header(name))
      ensures var d := env.symbols[name].decl;
        var F := LowerFunction(env, checker, d.functionName, d.args, d.body, d.args, Counters(old(labelCnt), old(d.usedTemps)));
        g == F.commands && labelCnt == F.after.labels && d.usedTemps == F.after.temps
    {
      var decl := env.symbols[name].decl;
      curFunc := decl;
      checker := checker.(curFunction := Some(name));
      ghost var c0 := State();
      VisitFunction(decl);
      ghost var F := LowerFunction(env, checker, decl.functionName, decl.args, decl.body, Args(), c0);
      FunctionLabels(env, checker, decl.functionName, decl.args, decl.body, Args(), c0);
      g := F.commands;
    }

    /** The main declaration, visited last. */
    method VisitMainDeclaration(main: Statement) returns (ghost g: seq<seq<string>>)
      requires CanLowerStmt(main)
      modifies this`labelCnt, this`output, this`commands, this`checker, Cur()`usedTemps
      ensures checker == old(checker)
      ensures Wrote(old(commands), old(output), old(labelCnt), g, commands, output, labelCnt)
      ensures |g| >= 2 && g[0] == InitHeader && g[|g| - 1] == InitFooter
      ensures var M := LowerMain(env, checker, old(Args()), main, old(State())); g == M.commands && State() == M.after
      ensures forall j | 0 <= j < |visited| && visited[j] in env.symbols && env.symbols[visited[j]].decl !in Cur() ::
        env.symbols[visited[j]].decl.usedTemps == old(env.symbols[visited[j]].decl.usedTemps)
    {
      ghost var c0 := State();
      VisitMain(main);
      ghost var M := LowerMain(env, checker, Args(), main, c0);
      MainLabels(env, checker, Args(), main, c0);
      g := M.commands;
    }

    /** The header line group of the function `name`'s declaration. */
    ghost function Header(name: string): seq<string>
      requires name in env.symbols && env.symbols[name].decl.functionName in env.symbols
      reads env.symbols[name].decl`functionName, env.symbols[name].decl`args
    {
      var d := env.symbols[name].decl;
      FunctionHeader(d.functionName, d.args, env.symbols[d.functionName])
    }

    /** The loop of `visit(Program)` over the visited functions. */
    method VisitFunctions(ghost vs: seq<DeclView>, ghost t0: seq<nat>) returns (ghost g: seq<seq<string>>)
      requires Cur() <= Declared(env) && !checker.inCallStmt && FunctionsReady()
      requires vs == Views() && t0 == TempsUpTo(|visited|)
      modifies this`labelCnt, this`output, this`commands, this`checker, this`curFunc, Declared(env)`usedTemps
      ensures Cur() <= Declared(env)
      ensures checker == if |visited| > 0 then old(checker).(curFunction := Some(visited[|visited| - 1])) else old(checker)
      ensures curFunc == if |visited| > 0 then env.symbols[visited[|visited| - 1]].decl else old(curFunc)
      ensures Wrote(old(commands), old(output), old(labelCnt), g, commands, output, labelCnt)
      ensures var M := MethodsOf(env, visited, vs, old(labelCnt), t0, |visited|);
        && g == M.commands && labelCnt == M.labels
        && forall j | 0 <= j < |visited| :: env.symbols[visited[j]].decl.usedTemps == M.temps[j]
      ensures forall j | 0 <= j < |visited| ::
        var d := env.symbols[visited[j]].decl; vs[j] == DeclView(d.functionName, d.args, d.body)
      ensures |visited| == 0 ==> Args() == old(Args()) && State() == old(State())
    {
      ghost var cmd0, out0 := commands, output;
      g := [];
      LoopStart(cmd0, out0, vs, t0);
      var i := 0;
      while i < |visited|
        invariant InLoop(i, old(checker), old(curFunc), cmd0, out0, old(labelCnt), vs, t0, g)
        invariant i == 0 ==> Args() == old(Args()) && State() == old(State())
      {
        g := Round(i, old(checker), old(curFunc), cmd0, out0, old(labelCnt), vs, t0, g);
        i := i + 1;
      }
      LoopDone(old(checker), old(curFunc), cmd0, out0, old(labelCnt), vs, t0, g);
    }

    /** The state of the loop of `visit(Program)` before its first round. */
    lemma LoopStart(cmd0: seq<seq<string>>, out0: seq<string>, vs: seq<DeclView>, t0: seq<nat>)
      requires Cur() <= Declared(env) && !checker.inCallStmt && FunctionsReady()
      requires vs == Views() && t0 == TempsUpTo(|visited|) && cmd0 == commands && out0 == output
      ensures InLoop(0, checker, curFunc, cmd0, out0, labelCnt, vs, t0, [])
    {
      PlainLines([], labelCnt);
    }

    /** What the loop of `visit(Program)` leaves once every visited function is written. */
    lemma LoopDone(ck0: Checker, cf0: FunctionDeclaration?, cmd0: seq<seq<string>>, out0: seq<string>,
                   lo: nat, vs: seq<DeclView>, t0: seq<nat>, g: seq<seq<string>>)
      requires InLoop(|visited|, ck0, cf0, cmd0, out0, lo, vs, t0, g)
      ensures checker == if |visited| > 0 then ck0.(curFunction := Some(visited[|visited| - 1])) else ck0
      ensures Cur() <= Declared(env)
      ensures curFunc == if |visited| > 0 then env.symbols[visited[|visited| - 1]].decl else cf0
      ensures Wrote(cmd0, out0, lo, g, commands, output, labelCnt)
      ensures var M := MethodsOf(env, visited, vs, lo, t0, |visited|);
        && g == M.commands && labelCnt == M.labels
        && forall j | 0 <= j < |visited| :: env.symbols[visited[j]].decl.usedTemps == M.temps[j]
      ensures forall j | 0 <= j < |visited| ::
        var d := env.symbols[visited[j]].decl; vs[j] == DeclView(d.functionName, d.args, d.body)
    {
    }

    /**
     * The state of the loop of `visit(Program)` after `i` rounds, entered with
     * the checker `ck0`, the current declaration `cf0`, the writer state
     * (cmd0, out0, lo), the visited declarations `vs` and their temporary
     * counters `t0`: the `i`-th visited function is current, `g`, the group
     * written so far, is the first `i` methods, the declarations visited so
     * far hold their final temporary counters and the others still hold
     * theirs from `t0`.
     */
    ghost predicate InLoop(i: nat, ck0: Checker, cf0: FunctionDeclaration?, cmd0: seq<seq<string>>, out0: seq<string>,
                           lo: nat, vs: seq<DeclView>, t0: seq<nat>, g: seq<seq<string>>)
      reads this`labelCnt, this`output, this`commands, this`checker, this`curFunc
      reads Declared(env)`functionName, Declared(env)`args, Declared(env)`body, Declared(env)`usedTemps
    {
      && i <= |visited| && |vs| == |visited| && |t0| == |visited| && NamesDeclared()
      && AllLowerable(env, visited, vs, |visited|)
      && Cur() <= Declared(env) && !checker.inCallStmt && !ck0.inCallStmt
      && checker.curFunction == (if i > 0 then Some(visited[i - 1]) else ck0.curFunction)
      && curFunc == (if i > 0 then env.symbols[visited[i - 1]].decl else cf0)
      && Wrote(cmd0, out0, lo, g, commands, output, labelCnt)
      && (LowerableAt(env, visited, vs, |visited|, i);
          var M := MethodsOf(env, visited, vs, lo, t0, i);
          && g == M.commands && labelCnt == M.labels
          && (forall j | 0 <= j < |visited| ::
                var d := env.symbols[visited[j]].decl;
                vs[j] == DeclView(d.functionName, d.args, d.body) && d.usedTemps == M.temps[j]))
    }

    /** One round of that loop, which keeps its state. */
    method Round(i: nat, ghost ck0: Checker, ghost cf0: FunctionDeclaration?, ghost cmd0: seq<seq<string>>,
                 ghost out0: seq<string>, ghost lo: nat, ghost vs: seq<DeclView>, ghost t0: seq<nat>,
                 ghost g: seq<seq<string>>)
      returns (ghost g2: seq<seq<string>>)
      requires i < |visited| && InLoop(i, ck0, cf0, cmd0, out0, lo, vs, t0, g)
      modifies this`labelCnt, this`output, this`commands, this`checker, this`curFunc, Declared(env)`usedTemps
      ensures InLoop(i + 1, ck0, cf0, cmd0, out0, lo, vs, t0, g2)
    {
      LowerableAt(env, visited, vs, |visited|, i + 1);
      LowerableAt(env, visited, vs, |visited|, i);
      assert ViewLowerable(env, visited[i], vs[i]);
      ghost var P := MethodsOf(env, visited, vs, lo, t0, i);
      g2 := VisitNext(i, cmd0, out0, lo, g, vs, P.temps);
      InLoopStep(i, ck0, cf0, cmd0, out0, lo, vs, t0, P, g2);
    }

    /** The state of the loop after one more round, from what that round did. */
    lemma InLoopStep(i: nat, ck0: Checker, cf0: FunctionDeclaration?, cmd0: seq<seq<string>>, out0: seq<string>,
                     lo: nat, vs: seq<DeclView>, t0: seq<nat>, P: Methods, g2: seq<seq<string>>)
      requires i < |visited| && |vs| == |visited| && |t0| == |visited| && NamesDeclared()
      requires AllLowerable(env, visited, vs, |visited|) && AllLowerable(env, visited, vs, i + 1)
      requires P == MethodsOf(env, visited, vs, lo, t0, i)
      requires Cur() <= Declared(env) && !checker.inCallStmt && !ck0.inCallStmt
      requires checker.curFunction == Some(visited[i]) && curFunc == env.symbols[visited[i]].decl
      requires Wrote(cmd0, out0, lo, g2, commands, output, labelCnt)
      requires var F := MethodOf(env, visited[i], vs[i], Counters(P.labels, P.temps[i]));
        && g2 == P.commands + F.commands && labelCnt == F.after.labels
        && forall j | 0 <= j < |visited| ::
             var d := env.symbols[visited[j]].decl;
             vs[j] == DeclView(d.functionName, d.args, d.body) && d.usedTemps == P.temps[i := F.after.temps][j]
      ensures InLoop(i + 1, ck0, cf0, cmd0, out0, lo, vs, t0, g2)
    {
      MethodsStep(env, visited, vs, lo, t0, i);
    }

    /** One round of that loop: the `i`-th visited function, written after the group `g` written so far. */
    method VisitNext(i: nat, ghost cmd0: seq<seq<string>>, ghost out0: seq<string>, ghost lo: nat, ghost g: seq<seq<string>>,
                     ghost vs: seq<DeclView>, ghost temps: seq<nat>)
      returns (ghost g2: seq<seq<string>>)
      requires i < |visited| && Cur() <= Declared(env) && !checker.inCallStmt && NamesDeclared()
      requires Wrote(cmd0, out0, lo, g, commands, output, labelCnt)
      requires |vs| == |visited| && |temps| == |visited| && ViewLowerable(env, visited[i], vs[i])
      requires forall j | 0 <= j < |visited| ::
        var d := env.symbols[visited[j]].decl; vs[j] == DeclView(d.functionName, d.args, d.body) && d.usedTemps == temps[j]
      modifies this`labelCnt, this`output, this`commands, this`checker, this`curFunc, Declared(env)`usedTemps
      ensures Cur() <= Declared(env)
      ensures checker == old(checker).(curFunction := Some(visited[i]))
      ensures curFunc == env.symbols[visited[i]].decl
      ensures Wrote(cmd0, out0, lo, g2, commands, output, labelCnt)
      ensures var F := MethodOf(env, visited[i], vs[i], Counters(old(labelCnt), temps[i]));
        && g2 == g + F.commands && labelCnt == F.after.labels
        && forall j | 0 <= j < |visited| ::
             var d := env.symbols[visited[j]].decl;
             vs[j] == DeclView(d.functionName, d.args, d.body) && d.usedTemps == temps[i := F.after.temps][j]
    {
      ghost var cmd1, out1, lab1 := commands, output, labelCnt;
      ghost var d := env.symbols[visited[i]].decl;
      assert vs[i] == DeclView(d.functionName, d.args, d.body) && d.usedTemps == temps[i];
      ghost var n := VisitNamed(visited[i]);
      WroteChain(cmd0, out0, lo, g, cmd1, out1, lab1, n, commands, output, labelCnt);
      g2 := g + n;
      assert forall j | 0 <= j < |visited| && j != i :: env.symbols[visited[j]].decl != env.symbols[visited[i]].decl;
    }
  }

  /** The parts of a function declaration that the lowering of its method reads. */
  datatype DeclView = DeclView(functionName: string, args: seq<string>, body: Statement)

  /** The function `name`, declared with the parts `v`, visits without failing with it current. */
  ghost predicate ViewLowerable(env: Env, name: string, v: DeclView)
  {
    v.functionName in env.symbols && StmtResolved(env, Checker(Some(name), false), v.body)
  }

  /** The first `k` of the functions `names`, declared with the parts `views`, can all be lowered. */
  ghost predicate AllLowerable(env: Env, names: seq<string>, views: seq<DeclView>, k: nat)
    requires k <= |names| && k <= |views|
  {
    k == 0 || (AllLowerable(env, names, views, k - 1) && ViewLowerable(env, names[k - 1], views[k - 1]))
  }

  /** Functions that can each be lowered can all be lowered. */
  lemma {:induction false} LowerableAll(env: Env, names: seq<string>, views: seq<DeclView>, k: nat)
    requires k <= |names| && k <= |views|
    requires forall j | 0 <= j < k :: ViewLowerable(env, names[j], views[j])
    ensures AllLowerable(env, names, views, k)
    decreases k
  {
    if k > 0 {
      LowerableAll(env, names, views, k - 1);
    }
  }

  /** Among functions that can all be lowered, each one can. */
  lemma {:induction false} LowerableAt(env: Env, names: seq<string>, views: seq<DeclView>, k: nat, i: nat)
    requires k <= |names| && k <= |views| && AllLowerable(env, names, views, k)
    ensures i < k ==> ViewLowerable(env, names[i], views[i])
    ensures i <= k ==> AllLowerable(env, names, views, i)
    decreases k
  {
    if i < k {
      LowerableAt(env, names, views, k - 1, i);
    }
  }

  /**
   * The methods of the first `k` of the functions `names`, declared with the
   * parts `views`, written from the label counter `lo` while the declarations
   * hold the temporary counters `t0`: each is the lowering of its declaration
   * against its own parameters, from the label counter the one before it left
   * and the declaration's own temporary counter, which it then replaces.
   */
  ghost function MethodsOf(env: Env, names: seq<string>, views: seq<DeclView>, lo: nat, t0: seq<nat>, k: nat): (r: Methods)
    requires k <= |names| && k <= |views| && k <= |t0| && AllLowerable(env, names, views, k)
    ensures |r.temps| == |t0| && lo <= r.labels
    ensures forall j | k <= j < |t0| :: r.temps[j] == t0[j]
    decreases k
  {
    if k == 0 then Methods([], lo, t0)
    else
      var P := MethodsOf(env, names, views, lo, t0, k - 1);
      assert ViewLowerable(env, names[k - 1], views[k - 1]);
      var F := MethodOf(env, names[k - 1], views[k - 1], Counters(P.labels, P.temps[k - 1]));
      Methods(P.commands + F.commands, F.after.labels, P.temps[k - 1 := F.after.temps])
  }

  /** The method of the function `name`, declared with the parts `v`, lowered from the counters `c` with it current. */
  ghost function MethodOf(env: Env, name: string, v: DeclView, c: Counters): (r: Emitted)
    requires ViewLowerable(env, name, v)
    ensures c.labels <= r.after.labels
  {
    var ck := Checker(Some(name), false);
    FunctionLabels(env, ck, v.functionName, v.args, v.body, v.args, c);
    LowerFunction(env, ck, v.functionName, v.args, v.body, v.args, c)
  }

  /** One more function's method, after those of the ones before it. */
  lemma MethodsStep(env: Env, names: seq<string>, views: seq<DeclView>, lo: nat, t0: seq<nat>, i: nat)
    requires i < |names| && i < |views| && i < |t0| && AllLowerable(env, names, views, i + 1)
    ensures AllLowerable(env, names, views, i) && ViewLowerable(env, names[i], views[i])
    ensures var P := MethodsOf(env, names, views, lo, t0, i);
      var F := MethodOf(env, names[i], views[i], Counters(P.labels, P.temps[i]));
      MethodsOf(env, names, views, lo, t0, i + 1) == Methods(P.commands + F.commands, F.after.labels, P.temps[i := F.after.temps])
  {
  }

  /** The functions `names`, declared with the parts `views`, and then `main` can all be lowered. */
  ghost predicate ProgramLowerable(env: Env, names: seq<string>, views: seq<DeclView>, t0: seq<nat>, ck: Checker,
                                   main: Statement)
  {
    && |names| <= |views| && |names| <= |t0| && AllLowerable(env, names, views, |names|)
    && StmtResolved(env, if |names| > 0 then Checker(Some(names[|names| - 1]), false) else ck, main)
  }

  /**
   * What `visit(Program)` writes after its two preamble commands: the
   * methods of the functions `names`, declared with the parts `views` and
   * holding the temporary counters `t0`, from the counters `c`, then
   * `<init>`, lowered with the last of them current, or with the checker
   * `ck`, the parameters `args` and the counters `c` when there is none.
   */
  ghost function ProgramOf(env: Env, names: seq<string>, views: seq<DeclView>, t0: seq<nat>, ck: Checker,
                           args: seq<string>, c: Counters, main: Statement): Emitted
    requires ProgramLowerable(env, names, views, t0, ck, main)
  {
    var n := |names|;
    var M := MethodsOf(env, names, views, c.labels, t0, n);
    var B := if n > 0 then LowerMain(env, Checker(Some(names[n - 1]), false), views[n - 1].args,
                                     main, Counters(M.labels, M.temps[n - 1]))
             else LowerMain(env, ck, args, main, c);
    Emitted(M.commands + B.commands, B.after)
  }

  /**
   * Those commands start with the first function's header, or with the
   * header of `<init>` when there is no function, and end with the footer
   * of `<init>`.
   */
  lemma ProgramShape(env: Env, names: seq<string>, views: seq<DeclView>, t0: seq<nat>, ck: Checker,
                     args: seq<string>, c: Counters, main: Statement)
    requires ProgramLowerable(env, names, views, t0, ck, main)
    ensures |names| > 0 ==> ViewLowerable(env, names[0], views[0])
    ensures var P := ProgramOf(env, names, views, t0, ck, args, c, main);
      && |P.commands| >= 2 && P.commands[|P.commands| - 1] == InitFooter
      && P.commands[0] == if |names| > 0 then FunctionHeader(views[0].functionName, views[0].args, env.symbols[views[0].functionName])
                          else InitHeader
  {
    if |names| > 0 {
      MethodsFirst(env, names, views, c.labels, t0, |names|);
    }
  }

  /** A run of at least one method starts with the first one's header. */
  lemma {:induction false} MethodsFirst(env: Env, names: seq<string>, views: seq<DeclView>, lo: nat, t0: seq<nat>, k: nat)
    requires 0 < k <= |names| && k <= |views| && k <= |t0| && AllLowerable(env, names, views, k)
    ensures ViewLowerable(env, names[0], views[0])
    ensures var M := MethodsOf(env, names, views, lo, t0, k);
      |M.commands| > 0 && M.commands[0] == FunctionHeader(views[0].functionName, views[0].args, env.symbols[views[0].functionName])
    decreases k
  {
    if k > 1 {
      MethodsFirst(env, names, views, lo, t0, k - 1);
    }
  }

  /**
   * Those commands are the methods, then `<init>` lowered with the checker,
   * parameters and counters the methods leave: `ck1`, `a1` and `c1`.
   */
  lemma ProgramSplit(env: Env, names: seq<string>, views: seq<DeclView>, t0: seq<nat>, ck: Checker,
                     args: seq<string>, c: Counters, main: Statement, ck1: Checker, a1: seq<string>, c1: Counters)
    requires ProgramLowerable(env, names, views, t0, ck, main)
    requires var M := MethodsOf(env, names, views, c.labels, t0, |names|);
      if |names| > 0 then
        ck1 == Checker(Some(names[|names| - 1]), false) && a1 == views[|names| - 1].args
        && c1 == Counters(M.labels, M.temps[|names| - 1])
      else ck1 == ck && a1 == args && c1 == c
    ensures var M := MethodsOf(env, names, views, c.labels, t0, |names|);
      var B := LowerMain(env, ck1, a1, main, c1);
      ProgramOf(env, names, views, t0, ck, args, c, main) == Emitted(M.commands + B.commands, B.after)
  {
  }

  /** A run of methods: their commands, the label counter after them, and each one's final temporary counter. */
  datatype Methods = Methods(commands: seq<seq<string>>, labels: nat, temps: seq<nat>)

  /**
   * Between the writer states (cmd0, out0, lo) and (cmd, out, hi): the
   * group `g` of commands was appended, its text was written, and its
   * lines define labels numbered from `lo` up to `hi`, none twice.
   */
  ghost predicate Wrote(cmd0: seq<seq<string>>, out0: seq<string>, lo: nat, g: seq<seq<string>>,
                        cmd: seq<seq<string>>, out: seq<string>, hi: nat)
  {
    cmd == cmd0 + g && out == out0 + Texts(g) && lo <= hi && LabelsFrom(Flatten(g), lo, hi)
  }

  /** Two stretches of writing one after the other are one stretch. */
  lemma WroteChain(cmd0: seq<seq<string>>, out0: seq<string>, lo: nat, g1: seq<seq<string>>,
                   cmd1: seq<seq<string>>, out1: seq<string>, mid: nat, g2: seq<seq<string>>,
                   cmd: seq<seq<string>>, out: seq<string>, hi: nat)
    requires Wrote(cmd0, out0, lo, g1, cmd1, out1, mid) && Wrote(cmd1, out1, mid, g2, cmd, out, hi)
    ensures Wrote(cmd0, out0, lo, g1 + g2, cmd, out, hi)
  {
    assert cmd == cmd0 + (g1 + g2) by {
      assert cmd0 + g1 + g2 == cmd0 + (g1 + g2);
    }
    assert out == out0 + Texts(g1 + g2) by {
      TextsConcat(g1, g2);
      assert out0 + Texts(g1) + Texts(g2) == out0 + (Texts(g1) + Texts(g2));
    }
    FlattenConcat(g1, g2);
    ChainLabels(Flatten(g1), lo, mid, Flatten(g2), hi);
  }

  /** The loop over a call site's keyword arguments that stops at the first key equal to `name`. */
  method FindKeyword(kw: seq<(string, Expression)>, name: string) returns (k: Option<nat>)
    ensures k == KeywordIndex(kw, name)
  {
    var i := 0;
    while i < |kw|
      invariant 0 <= i <= |kw|
      invariant forall j | 0 <= j < i :: kw[j].0 != name
    {
      if kw[i].0 == name {
        return Some(i);
      }
      i := i + 1;
    }
    return None;
  }

  /** One more statement in the block loop. */
  lemma BlockStep(env: Env, ck: Checker, args: seq<string>, ss: seq<Statement>, i: nat, c: Counters)
    requires BlockResolved(env, ck, ss) && i < |ss|
    ensures BlockResolved(env, ck, ss[..i]) && BlockResolved(env, ck, ss[..i + 1]) && StmtResolved(env, ck, ss[i])
    ensures var P := LowerBlock(env, ck, args, ss[..i], c);
      var S := LowerStmt(env, ck, args, ss[i], P.after);
      LowerBlock(env, ck, args, ss[..i + 1], c) == Emitted(P.commands + S.commands, S.after)
  {
    assert ss[..i + 1][..i] == ss[..i] && ss[..i + 1][i] == ss[i];
  }

  /** One more expression in the loop over positional arguments or list elements. */
  lemma ArgListStep(env: Env, ck: Checker, args: seq<string>, slot: int, es: seq<Expression>, i: nat, c: Counters)
    requires AllResolved(env, ck, es) && i < |es|
    ensures AllResolved(env, ck, es[..i]) && AllResolved(env, ck, es[..i + 1]) && Resolved(env, ck, es[i])
    ensures var P := LowerArgList(env, ck, args, slot, es[..i], c);
      var X := LowerExpr(env, ck, args, es[i], P.after);
      LowerArgList(env, ck, args, slot, es[..i + 1], c) == Code(P.code + AddToList(slot, X.code), X.after)
  {
    assert es[..i + 1][..i] == es[..i] && es[..i + 1][i] == es[i];
  }

  /** One more parameter name in the keyword-argument loop. */
  lemma KeywordArgsStep(env: Env, ck: Checker, args: seq<string>, slot: int, call: Expression, names: seq<string>,
                        i: nat, c: Counters)
    requires call.FunctionCall? && KeywordsResolved(env, ck, call, names) && i < |names|
    ensures KeywordsResolved(env, ck, call, names[..i]) && KeywordsResolved(env, ck, call, names[..i + 1])
    ensures KeywordIndex(call.argsWithKey, names[i]).Some?
    ensures var k := KeywordIndex(call.argsWithKey, names[i]).value;
      && Resolved(env, ck, call.argsWithKey[k].1)
      && var P := LowerKeywordArgs(env, ck, args, slot, call, names[..i], c);
         var X := LowerExpr(env, ck, args, call.argsWithKey[k].1, P.after);
         LowerKeywordArgs(env, ck, args, slot, call, names[..i + 1], c) == Code(P.code + AddToList(slot, X.code), X.after)
  {
    assert names[..i + 1][..i] == names[..i] && names[..i + 1][i] == names[i];
  }

  /** A group of commands written after the group `g`: the two as one group. */
  lemma Extend(cmd0: seq<seq<string>>, out0: seq<string>, g: seq<seq<string>>, p: seq<seq<string>>,
               cmd: seq<seq<string>>, out: seq<string>)
    requires cmd == cmd0 + g + p
    requires out == out0 + Texts(g) + Texts(p)
    ensures cmd == cmd0 + (g + p)
    ensures out == out0 + Texts(g + p)
  {
    TextsConcat(g, p);
  }

  /** One command written after the group `g`. */
  lemma ExtendOne(cmd0: seq<seq<string>>, out0: seq<string>, g: seq<seq<string>>, x: seq<string>,
                  cmd: seq<seq<string>>, out: seq<string>)
    requires cmd == cmd0 + g + [x]
    requires out == out0 + Texts(g) + [Render(x)]
    ensures cmd == cmd0 + (g + [x])
    ensures out == out0 + Texts(g + [x])
  {
    TextsConcat(g, [x]);
    TextsOne(x);
  }

  /** A command, a group of commands and a closing command, as one group. */
  lemma Written3(cmd0: seq<seq<string>>, out0: seq<string>, a: seq<string>, t: seq<seq<string>>, z: seq<string>,
                 cmd: seq<seq<string>>, out: seq<string>)
    requires cmd == cmd0 + [a] + t + [z]
    requires out == out0 + [Render(a)] + Texts(t) + [Render(z)]
    ensures cmd == cmd0 + ([a] + t + [z])
    ensures out == out0 + Texts([a] + t + [z])
  {
    TextsConcat([a] + t, [z]);
    TextsConcat([a], t);
    TextsOne(a);
    TextsOne(z);
  }
}
