/**
 * The lowering of expressions and statements into Jasmin instruction lines,
 * as pure functions of the input and of the generator's two counters: the
 * global label counter and the current function's temporary counter. Each
 * function returns the instructions the generator's visitor builds and the
 * counters it leaves behind; the generator's methods are proved to agree
 * with them.
 */
module Lowering {
  import opened Wrappers
  import opened Numerals
  import opened Labels
  import opened Ast
  import opened Symbols
  import opened Descriptors

  /** The generator's mutable counters: `label_cnt` and the current function's `used_temps`. */
  datatype Counters = Counters(labels: nat, temps: nat)

  /** Instructions built for an expression, and the counters afterwards. */
  datatype Code = Code(code: seq<string>, after: Counters)

  /** Commands passed to `addCommand` for a statement (each a list of lines), and the counters afterwards. */
  datatype Emitted = Emitted(commands: seq<seq<string>>, after: Counters)

  // ---- instruction spellings ----

  function Invokevirtual(m: string): string { "invokevirtual " + m }
  function Invokestatic(m: string): string { "invokestatic " + m }
  function Invokespecial(m: string): string { "invokespecial " + m }
  function Getstatic(f: string): string { "getstatic " + f }

  const UnboxInt := Invokevirtual("java/lang/Integer/intValue()I")
  const BoxInt := Invokestatic("java/lang/Integer/valueOf(I)Ljava/lang/Integer;")
  const UnboxBool := Invokevirtual("java/lang/Boolean/booleanValue()Z")
  const BoxBool := Invokestatic("java/lang/Boolean/valueOf(Z)Ljava/lang/Boolean;")
  const NewArrayList := ["new java/util/ArrayList", "dup", Invokespecial("java/util/ArrayList/<init>()V")]
  const ArrayListAdd := Invokevirtual("java/util/ArrayList/add(Ljava/lang/Object;)Z")
  const FptrInvoke := Invokevirtual("Fptr/invoke(Ljava/util/ArrayList;)Ljava/lang/Object;")
  const GetOut := Getstatic("java/lang/System/out Ljava/io/PrintStream;")
  const PrintString := Invokevirtual("java/io/PrintStream/print(Ljava/lang/String;)V")
  const PrintlnString := Invokevirtual("java/io/PrintStream/println(Ljava/lang/String;)V")

  /** A load/store of `slot`: the compact `op_n` form for slots up to 3, `op n` above. */
  function SlotInstr(op: string, slot: int): string
  {
    if slot > 3 then op + " " + IntToString(slot) else op + "_" + IntToString(slot)
  }

  function ALoad(slot: int): string { SlotInstr("aload", slot) }
  function AStore(slot: int): string { SlotInstr("astore", slot) }
  function IStore(slot: int): string { SlotInstr("istore", slot) }

  /** The primitive instruction of an arithmetic operator. */
  function ArithInstr(op: BinaryOperator): string
    requires IsArith(op)
  {
    match op
    case Add => "iadd"
    case Sub => "isub"
    case Mult => "imul"
    case Div => "idiv"
  }

  predicate IsArith(op: BinaryOperator) { op.Add? || op.Sub? || op.Mult? || op.Div? }

  /**
   * The two-label idiom that turns a branch into a boxed boolean: `jump` to
   * `Label_false<n>` pushes `onJump`, falling through pushes `onFall`, and both
   * paths meet at `Label_<merge><n+1>` before boxing.
   */
  function TwoLabel(jump: string, n: nat, merge: string, onFall: string, onJump: string): seq<string>
  {
    [jump + LabelName("false", n), onFall, "goto " + LabelName(merge, n + 1),
     LabelDef("false", n), onJump, LabelDef(merge, n + 1), BoxBool]
  }

  /**
   * The end of a short-circuit `and`/`or`: after the right operand, jump over
   * the label `role<n>` (the short-circuit target, which pushes the boxed
   * constant `push`) to `Label_endif<m>`.
   */
  function ShortCircuitTail(role: string, n: nat, m: nat, push: string): seq<string>
  {
    ["goto " + LabelName("endif", m), LabelDef(role, n), push, BoxBool, LabelDef("endif", m)]
  }

  /** A function value bound to the current receiver (`aload_0`) and the function's name. */
  function FptrValue(name: string): seq<string>
  {
    ["new Fptr", "dup", "aload_0", "ldc \"" + name + "\"",
     Invokespecial("Fptr/<init>(Ljava/lang/Object;Ljava/lang/String;)V")]
  }

  // ---- slots ----

  /** The slot of formal `name`: one more than the index of its first occurrence, or -1. */
  function ParamSlot(args: seq<string>, name: string): int
  {
    if |args| == 0 then -1
    else if args[0] == name then 1
    else
      var r := ParamSlot(args[1..], name);
      if r == -1 then -1 else r + 1
  }

  /**
   * What `slotOf` is asked for. The source compares the name with `""` by
   * reference, so only the generator's own literal `""` asks for a temporary;
   * a name taken from the tree is always looked up among the formals.
   */
  datatype SlotRequest = Temporary | Named(name: string)

  /**
   * `slotOf`: a temporary is numbered after the parameters and the temporaries
   * handed out so far; a name is looked up among the formals. The second
   * component is the new temporary counter.
   */
  function SlotOf(args: seq<string>, req: SlotRequest, temps: nat): (int, nat)
  {
    match req
    case Temporary => (|args| + temps + 1, temps + 1)
    case Named(name) => (ParamSlot(args, name), temps)
  }

  // ---- which calls the visitor can make without failing ----

  /** The callee's type names a function that the symbol table knows. */
  predicate CalleeKnown(env: Env, ck: Checker, callee: Expression)
  {
    var t := env.typeOf(ck, callee);
    t.FptrType? && t.functionName in env.symbols
  }

  function CalleeSignature(env: Env, ck: Checker, callee: Expression): Signature
    requires CalleeKnown(env, ck, callee)
  {
    env.symbols[env.typeOf(ck, callee).functionName]
  }

  /**
   * The source dereferences the symbol-table item of every callee, and the
   * keyword argument found for every parameter of a keyword call; these are
   * the inputs on which it does not fail.
   */
  predicate Resolved(env: Env, ck: Checker, e: Expression)
    decreases e, 1
  {
    match e
    case Binary(_, l, r) => Resolved(env, ck, l) && Resolved(env, ck, r)
    case Unary(_, x) => Resolved(env, ck, x)
    case ListAccessByIndex(l, i) => Resolved(env, ck, l) && Resolved(env, ck, i)
    case ListSize(l) => Resolved(env, ck, l)
    case FunctionCall(callee, pos, kw) =>
      && Resolved(env, ck, callee)
      && CalleeKnown(env, ck, callee)
      && (if |pos| > 0 then AllResolved(env, ck, pos)
          else |kw| > 0 ==> KeywordsResolved(env, ck, e, ArgNames(CalleeSignature(env, ck, callee).argTypes)))
    case ListValue(es) => AllResolved(env, ck, es)
    case _ => true
  }

  predicate AllResolved(env: Env, ck: Checker, es: seq<Expression>)
    decreases es, 0
  {
    forall i | 0 <= i < |es| :: Resolved(env, ck, es[i])
  }

  /** Every parameter name has a keyword argument at the call, and those arguments resolve. */
  predicate KeywordsResolved(env: Env, ck: Checker, call: Expression, names: seq<string>)
    requires call.FunctionCall?
    decreases call, 0
  {
    forall j | 0 <= j < |names| ::
      && KeywordIndex(call.argsWithKey, names[j]).Some?
      && Resolved(env, ck, call.argsWithKey[KeywordIndex(call.argsWithKey, names[j]).value].1)
  }

  // ---- expressions ----

  function LowerExpr(env: Env, ck: Checker, args: seq<string>, e: Expression, c: Counters): Code
    requires Resolved(env, ck, e)
    decreases e, 2
  {
    match e
    case Binary(_, _, _) => LowerBinary(env, ck, args, e, c)
    case Unary(_, _) => LowerUnary(env, ck, args, e, c)
    case Identifier(name) => LowerName(env, args, name, c)
    case AnonymousFunction(name) => LowerName(env, args, name, c)
    case ListAccessByIndex(l, i) =>
      var L := LowerExpr(env, ck, args, l, c);
      var I := LowerExpr(env, ck, args, i, L.after);
      Code(L.code + I.code + [UnboxInt, Invokevirtual("List/getElement(I)Ljava/lang/Object;"),
                              "checkcast java/lang/Integer"], I.after)
    case ListSize(l) =>
      var L := LowerExpr(env, ck, args, l, c);
      Code(L.code + [Invokevirtual("List/getSize()I"), BoxInt], L.after)
    case FunctionCall(_, _, _) => LowerCall(env, ck, args, e, c)
    case ListValue(_) => LowerListValue(env, ck, args, e, c)
    case IntValue(v) => Code(IntLiteral(v), c)
    case BoolValue(b) => Code(BoolLiteral(b), c)
    case StringValue(s) => Code(StringLiteral(s), c)
    case VoidValue => Code([], c)
  }
  /** The code of a binary operation, operator by operator. */
  function LowerBinary(env: Env, ck: Checker, args: seq<string>, e: Expression, c: Counters): Code
    requires e.Binary? && Resolved(env, ck, e)
    decreases e, 1
  {
    var L := LowerExpr(env, ck, args, e.left, c);
    if IsArith(e.op) then
      var R := LowerExpr(env, ck, args, e.right, L.after);
      Code(L.code + [UnboxInt] + R.code + [UnboxInt, ArithInstr(e.op), BoxInt], R.after)
    else if e.op.Eq? || e.op.Neq? then
      var R := LowerExpr(env, ck, args, e.right, L.after);
      var n := R.after.labels;
      Code(L.code + R.code + TwoLabel(if e.op.Eq? then "if_acmpne " else "if_acmpeq ", n, "after", "ldc 1", "ldc 0"),
           R.after.(labels := n + 2))
    else if e.op.And? || e.op.Or? then
      // the first label is taken before the right operand is lowered
      var n := L.after.labels;
      var R := LowerExpr(env, ck, args, e.right, L.after.(labels := n + 1));
      var m := R.after.labels;
      var role := if e.op.And? then "false" else "true";
      Code(L.code + [UnboxBool, (if e.op.And? then "ifeq " else "ifne ") + LabelName(role, n)] + R.code +
           ShortCircuitTail(role, n, m, if e.op.And? then "ldc 0" else "ldc 1"),
           R.after.(labels := m + 1))
    else if e.op.Lt? || e.op.Gt? then
      var R := LowerExpr(env, ck, args, e.right, L.after);
      var n := R.after.labels;
      Code(L.code + [UnboxInt] + R.code + [UnboxInt] +
           TwoLabel(if e.op.Lt? then "if_icmpge " else "if_icmple ", n, "endif", "ldc 1", "ldc 0"),
           R.after.(labels := n + 2))
    else
      var R := LowerExpr(env, ck, args, e.right, L.after);
      Code(L.code + ["dup"] + R.code + [Invokevirtual("List/addElement(Ljava/lang/Object;)V")], R.after)
  }

  /** The code of a negation or a logical not. */
  function LowerUnary(env: Env, ck: Checker, args: seq<string>, e: Expression, c: Counters): Code
    requires e.Unary? && Resolved(env, ck, e)
    decreases e, 1
  {
    var X := LowerExpr(env, ck, args, e.operand, c);
    if e.uop.Not? then
      var n := X.after.labels;
      Code(X.code + [UnboxBool] + TwoLabel("ifeq ", n, "after", "ldc 0", "ldc 1"),
           X.after.(labels := n + 2))
    else
      Code(X.code + [UnboxInt, "ineg", BoxInt], X.after)
  }

  /** The code of a call: the callee, the argument list built in a fresh temporary, the invocation and the cast of its result. */
  function LowerCall(env: Env, ck: Checker, args: seq<string>, e: Expression, c: Counters): Code
    requires e.FunctionCall? && Resolved(env, ck, e)
    decreases e, 1
  {
    var F := LowerExpr(env, ck, args, e.callee, c);
    var sig := CalleeSignature(env, ck, e.callee);
    var (slot, temps) := SlotOf(args, Temporary, F.after.temps);
    var c1 := F.after.(temps := temps);
    var A :=
      if |e.args| > 0 then LowerArgList(env, ck, args, slot, e.args, c1)
      else if |e.argsWithKey| > 0 then LowerKeywordArgs(env, ck, args, slot, e, ArgNames(sig.argTypes), c1)
      else Code([], c1);
    Code(F.code + NewArrayList + [AStore(slot)] + A.code + [ALoad(slot), FptrInvoke] + CheckcastFor(sig.returnType),
         A.after)
  }

  /** The code of a list literal: its elements are added to a fresh `ArrayList` that is wrapped in a `List`. */
  function LowerListValue(env: Env, ck: Checker, args: seq<string>, e: Expression, c: Counters): Code
    requires e.ListValue? && Resolved(env, ck, e)
    decreases e, 1
  {
    var (slot, temps) := SlotOf(args, Temporary, c.temps);
    var A := LowerArgList(env, ck, args, slot, e.elements, c.(temps := temps));
    Code(NewArrayList + [AStore(slot)] + A.code +
         ["new List", "dup", ALoad(slot), Invokespecial("List/<init>(Ljava/util/ArrayList;)V")],
         A.after)
  }


  // ---- literals ----

  /** An integer constant, pushed in decimal and boxed; the constant reads back from the `ldc` line. */
  function IntLiteral(v: int): (r: seq<string>)
    ensures |r| == 2 && r[1] == BoxInt
    ensures |r[0]| > 4 && r[0][..4] == "ldc " && ParseInt(r[0][4..]) == Some(v)
  {
    IntRoundTrip(v);
    ["ldc " + IntToString(v), BoxInt]
  }

  /** A boolean constant, pushed as 1 or 0 and boxed. */
  function BoolLiteral(b: bool): (r: seq<string>)
    ensures |r| == 2 && r[1] == BoxBool
    ensures r[0] == "ldc 1" <==> b
    ensures r[0] == "ldc 0" <==> !b
  {
    [if b then "ldc 1" else "ldc 0", BoxBool]
  }

  /** A string constant, pushed between double quotes exactly as written. */
  function StringLiteral(s: string): (r: seq<string>)
    ensures |r| == 1 && |r[0]| == |s| + 6
    ensures r[0][..5] == "ldc \"" && r[0][5..|r[0]| - 1] == s && r[0][|r[0]| - 1] == '"'
  {
    ["ldc \"" + s + "\""]
  }

  /**
   * A name probed in the symbol table first: a function's name becomes a
   * function value, even when a parameter has the same name; any other name is
   * loaded from its slot.
   */
  function LowerName(env: Env, args: seq<string>, name: string, c: Counters): Code
  {
    if name in env.symbols then Code(FptrValue(name), c)
    else
      var (slot, temps) := SlotOf(args, Named(name), c.temps);
      Code([ALoad(slot)], c.(temps := temps))
  }

  /** One element appended to the transient `ArrayList` held in `slot`. */
  function AddToList(slot: int, element: seq<string>): seq<string>
  {
    [ALoad(slot)] + element + [ArrayListAdd, "pop"]
  }

  /** Positional arguments (or list elements) appended, in order, to the list held in `slot`. */
  function LowerArgList(env: Env, ck: Checker, args: seq<string>, slot: int, es: seq<Expression>, c: Counters): Code
    requires AllResolved(env, ck, es)
    decreases es, 1
  {
    if |es| == 0 then Code([], c)
    else
      var P := LowerArgList(env, ck, args, slot, es[..|es| - 1], c);
      var X := LowerExpr(env, ck, args, es[|es| - 1], P.after);
      Code(P.code + AddToList(slot, X.code), X.after)
  }

  /**
   * Keyword arguments appended in the order of the callee's parameter names
   * `names`; for each name the call site's argument with that key is lowered.
   */
  function LowerKeywordArgs(env: Env, ck: Checker, args: seq<string>, slot: int, call: Expression,
                            names: seq<string>, c: Counters): Code
    requires call.FunctionCall? && KeywordsResolved(env, ck, call, names)
    decreases call, 1, |names|
  {
    if |names| == 0 then Code([], c)
    else
      var P := LowerKeywordArgs(env, ck, args, slot, call, names[..|names| - 1], c);
      var k := KeywordIndex(call.argsWithKey, names[|names| - 1]).value;
      var X := LowerExpr(env, ck, args, call.argsWithKey[k].1, P.after);
      Code(P.code + AddToList(slot, X.code), X.after)
  }

  /** Whether lowering `e` calls `slotOf`, which dereferences the current declaration. */
  predicate UsesSlots(env: Env, e: Expression)
  {
    match e
    case Binary(_, l, r) => UsesSlots(env, l) || UsesSlots(env, r)
    case Unary(_, x) => UsesSlots(env, x)
    case Identifier(name) => name !in env.symbols
    case AnonymousFunction(name) => name !in env.symbols
    case ListAccessByIndex(l, i) => UsesSlots(env, l) || UsesSlots(env, i)
    case ListSize(l) => UsesSlots(env, l)
    case FunctionCall(_, _, _) => true
    case ListValue(_) => true
    case _ => false
  }

  // ---- statements ----

  predicate StmtResolved(env: Env, ck: Checker, s: Statement)
    decreases s, 1
  {
    match s
    case Block(ss) => BlockResolved(env, ck, ss)
    case Conditional(cond, t, els) =>
      Resolved(env, ck, cond) && StmtResolved(env, ck, t) && (els.Else? ==> StmtResolved(env, ck, els.body))
    case FunctionCallStmt(callee, pos, kw) => Resolved(env, ck.(inCallStmt := true), FunctionCall(callee, pos, kw))
    case Print(arg) => Resolved(env, ck, arg)
    case Return(x) => Resolved(env, ck, x)
  }

  predicate BlockResolved(env: Env, ck: Checker, ss: seq<Statement>)
    decreases ss, 0
  {
    forall i | 0 <= i < |ss| :: StmtResolved(env, ck, ss[i])
  }

  predicate StmtUsesSlots(env: Env, ck: Checker, s: Statement)
  {
    match s
    case Block(ss) => exists i | 0 <= i < |ss| :: StmtUsesSlots(env, ck, ss[i])
    case Conditional(cond, t, els) =>
      UsesSlots(env, cond) || StmtUsesSlots(env, ck, t) || (els.Else? && StmtUsesSlots(env, ck, els.body))
    case FunctionCallStmt(_, _, _) => true
    case Print(arg) => env.typeOf(ck, arg).ListType? || UsesSlots(env, arg)
    case Return(x) => UsesSlots(env, x)
  }

  /** The commands `visit` passes to `addCommand` for statement `s`. */
  function LowerStmt(env: Env, ck: Checker, args: seq<string>, s: Statement, c: Counters): Emitted
    requires StmtResolved(env, ck, s)
    decreases s, 2
  {
    match s
    case Block(ss) => LowerBlock(env, ck, args, ss, c)
    case Conditional(_, _, _) => LowerConditional(env, ck, args, s, c)
    case FunctionCallStmt(callee, pos, kw) =>
      var X := LowerExpr(env, ck.(inCallStmt := true), args, FunctionCall(callee, pos, kw), c);
      Emitted([X.code + ["pop"]], X.after)
    case Print(_) => LowerPrint(env, ck, args, s, c)
    case Return(x) =>
      var X := LowerExpr(env, ck, args, x, c);
      var t := env.typeOf(ck, x);
      Emitted([X.code + [if t.VoidType? then "return" else "areturn"]], X.after)
  }

  /** The commands of a conditional: the test, the branches and their labels. */
  function LowerConditional(env: Env, ck: Checker, args: seq<string>, s: Statement, c: Counters): Emitted
    requires s.Conditional? && StmtResolved(env, ck, s)
    decreases s, 1
  {
    var C := LowerExpr(env, ck, args, s.condition, c);
    var n := C.after.labels;
    if s.elseBody.Else? then
      var T := LowerStmt(env, ck, args, s.thenBody, C.after.(labels := n + 1));
      var m := T.after.labels;
      var E := LowerStmt(env, ck, args, s.elseBody.body, T.after.(labels := m + 1));
      Emitted([C.code + [UnboxBool, "ifeq " + LabelName("else", n)]] + T.commands +
              [["goto " + LabelName("endif", m), LabelDef("else", n)]] + E.commands +
              [[LabelDef("endif", m)]],
              E.after)
    else
      var T := LowerStmt(env, ck, args, s.thenBody, C.after.(labels := n + 1));
      Emitted([C.code + [UnboxBool, "ifeq " + LabelName("endif", n)]] + T.commands +
              [[LabelDef("endif", n)]],
              T.after)
  }

  /** The command of a print statement, chosen by the argument's type. */
  function LowerPrint(env: Env, ck: Checker, args: seq<string>, s: Statement, c: Counters): Emitted
    requires s.Print? && StmtResolved(env, ck, s)
    decreases s, 1
  {
    var t := env.typeOf(ck, s.arg);
    var A := LowerExpr(env, ck, args, s.arg, c);
    if t.ListType? then
      var n := A.after.labels;
      var (index, temps1) := SlotOf(args, Temporary, A.after.temps);
      var (element, temps2) := SlotOf(args, Temporary, temps1);
      Emitted([A.code + PrintListLoop(n, index, element)], Counters(n + 3, temps2))
    else
      var show :=
        if t.IntType? then [UnboxInt, Invokevirtual("java/io/PrintStream/println(I)V")]
        else if t.BoolType? then [Invokevirtual("java/io/PrintStream/println(Ljava/lang/Object;)V")]
        else if t.StringType? then [PrintlnString]
        else [];
      Emitted([[GetOut] + A.code + show], A.after)
  }

  function LowerBlock(env: Env, ck: Checker, args: seq<string>, ss: seq<Statement>, c: Counters): Emitted
    requires BlockResolved(env, ck, ss)
    decreases ss, 1
  {
    if |ss| == 0 then Emitted([], c)
    else
      var P := LowerBlock(env, ck, args, ss[..|ss| - 1], c);
      var S := LowerStmt(env, ck, args, ss[|ss| - 1], P.after);
      Emitted(P.commands + S.commands, S.after)
  }

  /** The instruction lines of a sequence of commands, in order. */
  function Flatten(commands: seq<seq<string>>): seq<string>
  {
    if |commands| == 0 then [] else Flatten(commands[..|commands| - 1]) + commands[|commands| - 1]
  }

  /**
   * The loop emitted to print a list left on the stack: labels `whileend` n,
   * `whilestart` n+1 and `aftercomma` n+2; the index lives in slot `index` and
   * each element, unboxed, in slot `element`.
   */
  function PrintListLoop(n: nat, index: int, element: int): seq<string>
  {
    ListOpen(index) + [LabelDef("whilestart", n + 1)] + LoopTest(n, index) +
    [LabelDef("aftercomma", n + 2)] + LoopBody(n, index, element) +
    [LabelDef("whileend", n)] + ListClose
  }

  /** Print `[` and set the index to 0. */
  function ListOpen(index: int): seq<string>
  {
    [GetOut, "ldc \"[\"", PrintString, "iconst_0", IStore(index)]
  }

  /** Leave the loop once the index reaches the size; print `,` before every element but the first. */
  function LoopTest(n: nat, index: int): seq<string>
  {
    var i := IntToString(index);
    ["dup", Invokevirtual("List/getSize()I"), "iload " + i, "if_icmple " + LabelName("whileend", n),
     "iload " + i, "iconst_0", "if_icmpeq " + LabelName("aftercomma", n + 2),
     GetOut, "ldc \",\"", PrintString]
  }

  /** Fetch the element at the index, unbox it into slot `element`, print it, advance. */
  function LoopBody(n: nat, index: int, element: int): seq<string>
  {
    var i := IntToString(index);
    ["dup", "iload " + i, Invokevirtual("List/getElement(I)Ljava/lang/Object;"),
     "checkcast java/lang/Integer", UnboxInt, "istore " + IntToString(element),
     GetOut, "iload " + IntToString(element), Invokevirtual("java/io/PrintStream/print(I)V"),
     "iinc " + i + " 1", "goto " + LabelName("whilestart", n + 1)]
  }

  /** Print `]` and a newline, and drop the list. */
  const ListClose := [GetOut, "ldc \"]\"", PrintlnString, "pop"]

  // ---- functions and the program ----

  /** Parameter descriptors of a method header, in the declaration's parameter order. */
  function ArgDescriptors(declArgs: seq<string>, argTypes: seq<(string, Type)>): string
  {
    if |declArgs| == 0 then ""
    else ArgDescriptors(declArgs[..|declArgs| - 1], argTypes) + ArgDescriptor(ArgType(argTypes, declArgs[|declArgs| - 1]))
  }

  /** The first command of a function's method: its header and stack/locals limits. */
  function FunctionHeader(name: string, declArgs: seq<string>, sig: Signature): seq<string>
  {
    [".method public " + name + "(" + ArgDescriptors(declArgs, sig.argTypes) + ")" + ReturnDescriptor(sig.returnType),
     ".limit stack 128", ".limit locals 128"]
  }

  /**
   * The commands of a function's method: its header (descriptors from the
   * declaration's parameters, `declArgs`), its body lowered against the
   * current declaration's parameters `args`, and `.end method`.
   */
  function LowerFunction(env: Env, ck: Checker, name: string, declArgs: seq<string>, body: Statement,
                         args: seq<string>, c: Counters): Emitted
    requires name in env.symbols && StmtResolved(env, ck, body)
  {
    var B := LowerStmt(env, ck, args, body, c);
    Emitted([FunctionHeader(name, declArgs, env.symbols[name])] + B.commands + [EndMethod], B.after)
  }

  /** The commands of the main declaration: the constructor `<init>` with the main body inside. */
  function LowerMain(env: Env, ck: Checker, args: seq<string>, body: Statement, c: Counters): Emitted
    requires StmtResolved(env, ck, body)
  {
    var B := LowerStmt(env, ck, args, body, c);
    Emitted([InitHeader] + B.commands + [InitFooter], B.after)
  }

  const ClassHeader := [".class public Main", ".super java/lang/Object"]

  const MainDescriptor := "main([Ljava/lang/String;)V"

  const StaticMain := [".method public static " + MainDescriptor, ".limit stack 128", ".limit locals 128",
                       "new Main", Invokespecial("Main/<init>()V"), "return", ".end method"]

  const InitHeader := [".method public <init>()V", ".limit stack 128", ".limit locals 128",
                       "aload_0", Invokespecial("java/lang/Object/<init>()V")]

  const InitFooter := ["return", ".end method"]

  const EndMethod := [".end method"]
}
