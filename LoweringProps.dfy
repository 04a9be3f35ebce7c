/**
 * Properties of the lowering: the slot allocator, label allocation and the
 * uniqueness of every label a lowering defines, the order in which operands
 * and arguments are emitted, short-circuit placement, and the encoding of
 * loads and stores.
 */
module LoweringProps {
  import opened Wrappers
  import opened Numerals
  import opened Labels
  import opened Ast
  import opened Symbols
  import opened Descriptors
  import opened Lowering

  // ---- the slot allocator ----

  /** The slot of a formal is one more than the index of its first occurrence; -1 exactly when there is none. */
  lemma {:induction false} ParamSlotFirstMatch(args: seq<string>, name: string)
    ensures ParamSlot(args, name) == -1 <==> name !in args
    ensures ParamSlot(args, name) != -1 ==>
      var r := ParamSlot(args, name);
      1 <= r <= |args| && args[r - 1] == name && forall k | 0 <= k < r - 1 :: args[k] != name
  {
    if |args| > 0 && args[0] != name {
      ParamSlotFirstMatch(args[1..], name);
      assert name in args <==> name in args[1..] by {
        if name in args {
          var k :| 0 <= k < |args| && args[k] == name;
          assert args[1..][k - 1] == name;
        }
      }
    }
  }

  /**
   * `slotOf`: a temporary request raises the counter by one and returns the
   * number of parameters plus the new counter, a slot above every parameter
   * slot 1..N; a named request leaves the counter alone and returns the
   * parameter's position or -1.
   */
  lemma SlotOfContract(args: seq<string>, req: SlotRequest, temps: nat)
    ensures req.Temporary? ==>
      SlotOf(args, req, temps) == (|args| + temps + 1, temps + 1) &&
      SlotOf(args, req, temps).0 > |args|
    ensures req.Named? ==>
      var (slot, t) := SlotOf(args, req, temps);
      t == temps &&
      (slot == -1 <==> req.name !in args) &&
      (slot != -1 ==> 1 <= slot <= |args| && args[slot - 1] == req.name &&
                      forall k | 0 <= k < slot - 1 :: args[k] != req.name)
  {
    if req.Named? { ParamSlotFirstMatch(args, req.name); }
  }

  /** Successive temporaries of one function are strictly increasing. */
  lemma TemporariesIncrease(args: seq<string>, t1: nat, t2: nat)
    requires t1 < t2
    ensures SlotOf(args, Temporary, t1).0 < SlotOf(args, Temporary, t2).0
  {
  }

  // ---- load/store encoding ----

  /**
   * A load or store names its slot unambiguously: the opcode, then `_` for
   * slots up to 3 and a space above, then the slot in decimal, which reads
   * back to the slot.
   */
  lemma SlotInstrDecodes(op: string, slot: int)
    ensures var s := SlotInstr(op, slot);
      |s| > |op| + 1 && s[..|op|] == op &&
      s[|op|] == (if slot > 3 then ' ' else '_') &&
      ParseInt(s[|op| + 1..]) == Some(slot)
  {
    var s := SlotInstr(op, slot);
    var sep := if slot > 3 then " " else "_";
    assert s == op + sep + IntToString(slot);
    assert s[|op| + 1..] == IntToString(slot);
    IntRoundTrip(slot);
  }

  // ---- label allocation ----

  lemma TwoLabelLabels(jump: string, n: nat, merge: string, onFall: string, onJump: string)
    requires ValidRole(merge) && PlainLine(jump) && PlainLine(onFall) && PlainLine(onJump)
    ensures LabelsFrom(TwoLabel(jump, n, merge, onFall, onJump), n, n + 2)
    ensures var code := TwoLabel(jump, n, merge, onFall, onJump);
      && |code| == 7 && LabelOf(code[3]) == Some(n) && LabelOf(code[5]) == Some(n + 1)
      && forall i | 0 <= i < |code| && i != 3 && i != 5 :: LabelOf(code[i]).None?
  {
    var code := TwoLabel(jump, n, merge, onFall, onJump);
    LabelOfDef("false", n);
    LabelOfDef(merge, n + 1);
    assert LabelOf(code[0]).None? && LabelOf(code[1]).None? && LabelOf(code[2]).None?;
    assert LabelOf(code[4]).None? && LabelOf(code[6]).None?;
    assert LabelOf(code[3]) == Some(n) && LabelOf(code[5]) == Some(n + 1);
  }

  lemma ShortCircuitTailLabels(role: string, n: nat, m: nat, push: string)
    requires ValidRole(role) && PlainLine(push) && n != m
    ensures LabelsWithin(ShortCircuitTail(role, n, m, push), {n, m})
    ensures LabelsDistinct(ShortCircuitTail(role, n, m, push))
    ensures var code := ShortCircuitTail(role, n, m, push);
      && |code| == 5 && LabelOf(code[1]) == Some(n) && LabelOf(code[4]) == Some(m)
      && forall i | 0 <= i < |code| && i != 1 && i != 4 :: LabelOf(code[i]).None?
  {
    var code := ShortCircuitTail(role, n, m, push);
    LabelOfDef(role, n);
    LabelOfDef("endif", m);
    assert LabelOf(code[0]).None? && LabelOf(code[2]).None? && LabelOf(code[3]).None?;
    assert LabelOf(code[1]) == Some(n) && LabelOf(code[4]) == Some(m);
  }

  lemma PrintListLoopLabels(n: nat, index: int, element: int)
    ensures LabelsFrom(PrintListLoop(n, index, element), n, n + 3)
    ensures var code := PrintListLoop(n, index, element);
      var a := |ListOpen(index)|;
      var b := a + 1 + |LoopTest(n, index)|;
      var c := b + 1 + |LoopBody(n, index, element)|;
      && c < |code| && LabelOf(code[a]) == Some(n + 1) && LabelOf(code[b]) == Some(n + 2) && LabelOf(code[c]) == Some(n)
  {
    LoopLabelPositions(n, index, element);
    var open, test, body := ListOpen(index), LoopTest(n, index), LoopBody(n, index, element);
    LoopPiecesPlain(n, index, element);
    DefLabels("whilestart", n + 1);
    DefLabels("aftercomma", n + 2);
    DefLabels("whileend", n);
    assert Range(n, n) == {};
    var a := open + [LabelDef("whilestart", n + 1)];
    ConcatLabels(open, {}, [LabelDef("whilestart", n + 1)], {n + 1});
    ConcatLabels(a, {n + 1}, test, {});
    var b := a + test + [LabelDef("aftercomma", n + 2)];
    ConcatLabels(a + test, {n + 1}, [LabelDef("aftercomma", n + 2)], {n + 2});
    ConcatLabels(b, {n + 1, n + 2}, body, {});
    var d := b + body + [LabelDef("whileend", n)];
    ConcatLabels(b + body, {n + 1, n + 2}, [LabelDef("whileend", n)], {n});
    ConcatLabels(d, {n + 1, n + 2, n}, ListClose, {});
    WidenLabels(d + ListClose, {n + 1, n + 2, n}, Range(n, n + 3));
  }

  /** Where the three label definitions of the list-printing loop sit. */
  lemma LoopLabelPositions(n: nat, index: int, element: int)
    ensures var code := PrintListLoop(n, index, element);
      var a := |ListOpen(index)|;
      var b := a + 1 + |LoopTest(n, index)|;
      var c := b + 1 + |LoopBody(n, index, element)|;
      && c < |code| && code[a] == LabelDef("whilestart", n + 1) && code[b] == LabelDef("aftercomma", n + 2)
      && code[c] == LabelDef("whileend", n)
  {
  }

  /** The pieces of the list-printing loop between its label definitions define no label. */
  lemma LoopPiecesPlain(n: nat, index: int, element: int)
    ensures LabelsFrom(ListOpen(index), n, n) && LabelsFrom(LoopTest(n, index), n, n)
    ensures LabelsFrom(LoopBody(n, index, element), n, n) && LabelsFrom(ListClose, n, n)
  {
    SlotInstrPlain("istore", index);
    PlainLines(ListOpen(index), n);
    PlainLines(LoopTest(n, index), n);
    PlainLines(LoopBody(n, index, element), n);
    PlainLines(ListClose, n);
  }

  lemma CheckcastPlain(t: Type)
    ensures forall i | 0 <= i < |CheckcastFor(t)| :: PlainLine(CheckcastFor(t)[i])
  {
  }

  lemma SlotInstrPlain(op: string, slot: int)
    requires PlainLine(op)
    ensures PlainLine(SlotInstr(op, slot))
  {
  }

  /**
   * Lowering an expression moves the label counter forward and defines only
   * labels numbered from the counter's old value up to its new one, none of
   * them twice; the temporary counter never goes down.
   */
  lemma {:induction false} ExprLabels(env: Env, ck: Checker, args: seq<string>, e: Expression, c: Counters)
    requires Resolved(env, ck, e)
    ensures var R := LowerExpr(env, ck, args, e, c);
      c.labels <= R.after.labels && c.temps <= R.after.temps && LabelsFrom(R.code, c.labels, R.after.labels)
    decreases e, 2
  {
    var R := LowerExpr(env, ck, args, e, c);
    match e
    case Binary(op, l, r) =>
      if op.And? || op.Or? { ShortCircuitLabels(env, ck, args, e, c); } else { StrictBinaryLabels(env, ck, args, e, c); }
    case Unary(uop, x) => UnaryLabels(env, ck, args, e, c);
    case Identifier(name) => NameLabels(env, args, name, c);
    case AnonymousFunction(name) => NameLabels(env, args, name, c);
    case ListAccessByIndex(l, i) =>
      var L := LowerExpr(env, ck, args, l, c);
      ExprLabels(env, ck, args, l, c);
      var I := LowerExpr(env, ck, args, i, L.after);
      ExprLabels(env, ck, args, i, L.after);
      var tail := [UnboxInt, Invokevirtual("List/getElement(I)Ljava/lang/Object;"), "checkcast java/lang/Integer"];
      ChainLabels(L.code, c.labels, L.after.labels, I.code, I.after.labels);
      PlainLines(tail, I.after.labels);
      ChainLabels(L.code + I.code, c.labels, I.after.labels, tail, I.after.labels);
    case ListSize(l) =>
      var L := LowerExpr(env, ck, args, l, c);
      ExprLabels(env, ck, args, l, c);
      PlainLines([Invokevirtual("List/getSize()I"), BoxInt], L.after.labels);
      ChainLabels(L.code, c.labels, L.after.labels, [Invokevirtual("List/getSize()I"), BoxInt], L.after.labels);
    case FunctionCall(callee, pos, kw) => CallLabels(env, ck, args, e, c);
    case ListValue(es) => ListValueLabels(env, ck, args, e, c);
    case IntValue(v) => PlainLines(R.code, c.labels);
    case BoolValue(b) => PlainLines(R.code, c.labels);
    case StringValue(s) => PlainLines(R.code, c.labels);
    case VoidValue =>
  }

  /** `and` and `or` unfolded, given the codes of both operands. */
  lemma ShortCircuitIs(env: Env, ck: Checker, args: seq<string>, e: Expression, c: Counters, L: Code, R: Code)
    requires e.Binary? && (e.op.And? || e.op.Or?) && Resolved(env, ck, e)
    requires L == LowerExpr(env, ck, args, e.left, c)
    requires R == LowerExpr(env, ck, args, e.right, L.after.(labels := L.after.labels + 1))
    ensures var role := if e.op.And? then "false" else "true";
      LowerBinary(env, ck, args, e, c) ==
      Code(L.code + [UnboxBool, (if e.op.And? then "ifeq " else "ifne ") + LabelName(role, L.after.labels)] + R.code +
           ShortCircuitTail(role, L.after.labels, R.after.labels, if e.op.And? then "ldc 0" else "ldc 1"),
           R.after.(labels := R.after.labels + 1))
  {
  }

  lemma {:induction false} ShortCircuitLabels(env: Env, ck: Checker, args: seq<string>, e: Expression, c: Counters)
    requires e.Binary? && (e.op.And? || e.op.Or?) && Resolved(env, ck, e)
    ensures var R := LowerBinary(env, ck, args, e, c);
      c.labels <= R.after.labels && c.temps <= R.after.temps && LabelsFrom(R.code, c.labels, R.after.labels)
    decreases e, 1
  {
    var R := LowerBinary(env, ck, args, e, c);
    var op, l, r := e.op, e.left, e.right;
    var L := LowerExpr(env, ck, args, l, c);
    ExprLabels(env, ck, args, l, c);
    var n := L.after.labels;
    var c1 := L.after.(labels := n + 1);
    var Rr := LowerExpr(env, ck, args, r, c1);
    ExprLabels(env, ck, args, r, c1);
    var m := Rr.after.labels;
    var role := if op.And? then "false" else "true";
    var push := if op.And? then "ldc 0" else "ldc 1";
    var jump := if op.And? then "ifeq " else "ifne ";
    ShortCircuitIs(env, ck, args, e, c, L, Rr);
    ShortCircuitCode(L.code, c.labels, n, Rr.code, m, role, push, jump);
  }

  /** Assembling `left; ifeq/ifne role n; right; tail` keeps the labels distinct and in range. */
  lemma ShortCircuitCode(lc: seq<string>, lo: nat, n: nat, rc: seq<string>, m: nat, role: string, push: string, jump: string)
    requires lo <= n < m && LabelsFrom(lc, lo, n) && LabelsFrom(rc, n + 1, m)
    requires ValidRole(role) && PlainLine(push) && PlainLine(jump)
    ensures LabelsFrom(lc + [UnboxBool, jump + LabelName(role, n)] + rc + ShortCircuitTail(role, n, m, push), lo, m + 1)
  {
    var head := [UnboxBool, jump + LabelName(role, n)];
    assert PlainLine(jump + LabelName(role, n)) by { assert (jump + LabelName(role, n))[0] == jump[0]; }
    PlainLines(head, n);
    ChainLabels(lc, lo, n, head, n);
    ConcatLabels(lc + head, Range(lo, n), rc, Range(n + 1, m));
    ShortCircuitTailLabels(role, n, m, push);
    ConcatLabels(lc + head + rc, Range(lo, n) + Range(n + 1, m), ShortCircuitTail(role, n, m, push), {n, m});
    WidenLabels(lc + head + rc + ShortCircuitTail(role, n, m, push), Range(lo, n) + Range(n + 1, m) + {n, m}, Range(lo, m + 1));
  }

  lemma {:induction false} StrictBinaryLabels(env: Env, ck: Checker, args: seq<string>, e: Expression, c: Counters)
    requires e.Binary? && !e.op.And? && !e.op.Or? && Resolved(env, ck, e)
    ensures var R := LowerBinary(env, ck, args, e, c);
      c.labels <= R.after.labels && c.temps <= R.after.temps && LabelsFrom(R.code, c.labels, R.after.labels)
    decreases e, 1
  {
    var R := LowerBinary(env, ck, args, e, c);
    var op, l, r := e.op, e.left, e.right;
    var L := LowerExpr(env, ck, args, l, c);
    ExprLabels(env, ck, args, l, c);
    var Rr := LowerExpr(env, ck, args, r, L.after);
    ExprLabels(env, ck, args, r, L.after);
    var c1, c2 := L.after.labels, Rr.after.labels;
    if IsArith(op) {
      var tail := [UnboxInt, ArithInstr(op), BoxInt];
      PlainLines([UnboxInt], c1);
      ChainLabels(L.code, c.labels, c1, [UnboxInt], c1);
      ChainLabels(L.code + [UnboxInt], c.labels, c1, Rr.code, c2);
      PlainLines(tail, c2);
      ChainLabels(L.code + [UnboxInt] + Rr.code, c.labels, c2, tail, c2);
    } else if op.Eq? || op.Neq? {
      var tail := TwoLabel(if op.Eq? then "if_acmpne " else "if_acmpeq ", c2, "after", "ldc 1", "ldc 0");
      ChainLabels(L.code, c.labels, c1, Rr.code, c2);
      TwoLabelLabels(if op.Eq? then "if_acmpne " else "if_acmpeq ", c2, "after", "ldc 1", "ldc 0");
      ChainLabels(L.code + Rr.code, c.labels, c2, tail, c2 + 2);
    } else if op.Lt? || op.Gt? {
      var tail := TwoLabel(if op.Lt? then "if_icmpge " else "if_icmple ", c2, "endif", "ldc 1", "ldc 0");
      PlainLines([UnboxInt], c1);
      ChainLabels(L.code, c.labels, c1, [UnboxInt], c1);
      ChainLabels(L.code + [UnboxInt], c.labels, c1, Rr.code, c2);
      PlainLines([UnboxInt], c2);
      ChainLabels(L.code + [UnboxInt] + Rr.code, c.labels, c2, [UnboxInt], c2);
      TwoLabelLabels(if op.Lt? then "if_icmpge " else "if_icmple ", c2, "endif", "ldc 1", "ldc 0");
      ChainLabels(L.code + [UnboxInt] + Rr.code + [UnboxInt], c.labels, c2, tail, c2 + 2);
    } else {
      var tail := [Invokevirtual("List/addElement(Ljava/lang/Object;)V")];
      PlainLines(["dup"], c1);
      ChainLabels(L.code, c.labels, c1, ["dup"], c1);
      ChainLabels(L.code + ["dup"], c.labels, c1, Rr.code, c2);
      PlainLines(tail, c2);
      ChainLabels(L.code + ["dup"] + Rr.code, c.labels, c2, tail, c2);
    }
  }

  lemma {:induction false} UnaryLabels(env: Env, ck: Checker, args: seq<string>, e: Expression, c: Counters)
    requires e.Unary? && Resolved(env, ck, e)
    ensures var R := LowerUnary(env, ck, args, e, c);
      c.labels <= R.after.labels && c.temps <= R.after.temps && LabelsFrom(R.code, c.labels, R.after.labels)
    decreases e, 1
  {
    var X := LowerExpr(env, ck, args, e.operand, c);
    ExprLabels(env, ck, args, e.operand, c);
    var n := X.after.labels;
    if e.uop.Not? {
      PlainLines([UnboxBool], n);
      ChainLabels(X.code, c.labels, n, [UnboxBool], n);
      TwoLabelLabels("ifeq ", n, "after", "ldc 0", "ldc 1");
      ChainLabels(X.code + [UnboxBool], c.labels, n, TwoLabel("ifeq ", n, "after", "ldc 0", "ldc 1"), n + 2);
    } else {
      PlainLines([UnboxInt, "ineg", BoxInt], n);
      ChainLabels(X.code, c.labels, n, [UnboxInt, "ineg", BoxInt], n);
    }
  }

  lemma {:induction false} CallLabels(env: Env, ck: Checker, args: seq<string>, e: Expression, c: Counters)
    requires e.FunctionCall? && Resolved(env, ck, e)
    ensures var R := LowerCall(env, ck, args, e, c);
      c.labels <= R.after.labels && c.temps <= R.after.temps && LabelsFrom(R.code, c.labels, R.after.labels)
    decreases e, 1
  {
    var R := LowerCall(env, ck, args, e, c);
    var callee, pos, kw := e.callee, e.args, e.argsWithKey;
    var F := LowerExpr(env, ck, args, callee, c);
    ExprLabels(env, ck, args, callee, c);
    var sig := CalleeSignature(env, ck, callee);
    var (slot, temps) := SlotOf(args, Temporary, F.after.temps);
    var c1 := F.after.(temps := temps);
    var A :=
      if |pos| > 0 then LowerArgList(env, ck, args, slot, pos, c1)
      else if |kw| > 0 then LowerKeywordArgs(env, ck, args, slot, e, ArgNames(sig.argTypes), c1)
      else Code([], c1);
    if |pos| > 0 {
      ArgListLabels(env, ck, args, slot, pos, c1);
    } else if |kw| > 0 {
      KeywordArgsLabels(env, ck, args, slot, e, ArgNames(sig.argTypes), c1);
    }
    assert R.code == F.code + NewArrayList + [AStore(slot)] + A.code + [ALoad(slot), FptrInvoke] + CheckcastFor(sig.returnType);
    CallCode(F.code, c.labels, F.after.labels, slot, A.code, A.after.labels, sig.returnType);
  }

  /** The lines of a call: callee, a fresh argument list in `slot`, the arguments, the invocation and its cast. */
  lemma CallCode(fc: seq<string>, lo: nat, n1: nat, slot: int, ac: seq<string>, n2: nat, t: Type)
    requires lo <= n1 <= n2 && LabelsFrom(fc, lo, n1) && LabelsFrom(ac, n1, n2)
    ensures LabelsFrom(fc + NewArrayList + [AStore(slot)] + ac + [ALoad(slot), FptrInvoke] + CheckcastFor(t), lo, n2)
  {
    var head := NewArrayList + [AStore(slot)];
    var tail := [ALoad(slot), FptrInvoke] + CheckcastFor(t);
    SlotInstrPlain("astore", slot);
    SlotInstrPlain("aload", slot);
    PlainLines(head, n1);
    CheckcastPlain(t);
    PlainLines(tail, n2);
    ChainLabels(fc, lo, n1, head, n1);
    ChainLabels(fc + head, lo, n1, ac, n2);
    ChainLabels(fc + head + ac, lo, n2, tail, n2);
    assert fc + head + ac + tail == fc + NewArrayList + [AStore(slot)] + ac + [ALoad(slot), FptrInvoke] + CheckcastFor(t);
  }

  lemma {:induction false} ListValueLabels(env: Env, ck: Checker, args: seq<string>, e: Expression, c: Counters)
    requires e.ListValue? && Resolved(env, ck, e)
    ensures var R := LowerListValue(env, ck, args, e, c);
      c.labels <= R.after.labels && c.temps <= R.after.temps && LabelsFrom(R.code, c.labels, R.after.labels)
    decreases e, 1
  {
    var R := LowerListValue(env, ck, args, e, c);
    var (slot, temps) := SlotOf(args, Temporary, c.temps);
    var c1 := c.(temps := temps);
    var A := LowerArgList(env, ck, args, slot, e.elements, c1);
    ArgListLabels(env, ck, args, slot, e.elements, c1);
    var head := NewArrayList + [AStore(slot)];
    var tail := ["new List", "dup", ALoad(slot), Invokespecial("List/<init>(Ljava/util/ArrayList;)V")];
    assert R.code == head + A.code + tail;
    SlotInstrPlain("astore", slot);
    SlotInstrPlain("aload", slot);
    PlainLines(head, c.labels);
    PlainLines(tail, A.after.labels);
    ChainLabels(head, c.labels, c.labels, A.code, A.after.labels);
    ChainLabels(head + A.code, c.labels, A.after.labels, tail, A.after.labels);
  }

  lemma NameLabels(env: Env, args: seq<string>, name: string, c: Counters)
    ensures var R := LowerName(env, args, name, c);
      R.after == c && LabelsFrom(R.code, c.labels, c.labels)
  {
    var R := LowerName(env, args, name, c);
    if name !in env.symbols {
      SlotInstrPlain("aload", ParamSlot(args, name));
    } else {
      assert PlainLine(("ldc \"" + name) + "\"");
    }
    PlainLines(R.code, c.labels);
  }

  lemma {:induction false} ArgListLabels(env: Env, ck: Checker, args: seq<string>, slot: int, es: seq<Expression>, c: Counters)
    requires AllResolved(env, ck, es)
    ensures var R := LowerArgList(env, ck, args, slot, es, c);
      c.labels <= R.after.labels && c.temps <= R.after.temps && LabelsFrom(R.code, c.labels, R.after.labels)
    decreases es, 1
  {
    if |es| > 0 {
      var P := LowerArgList(env, ck, args, slot, es[..|es| - 1], c);
      ArgListLabels(env, ck, args, slot, es[..|es| - 1], c);
      var X := LowerExpr(env, ck, args, es[|es| - 1], P.after);
      ExprLabels(env, ck, args, es[|es| - 1], P.after);
      AddToListLabels(slot, X.code, P.after.labels, X.after.labels);
      ChainLabels(P.code, c.labels, P.after.labels, AddToList(slot, X.code), X.after.labels);
    } else {
      PlainLines([], c.labels);
    }
  }

  lemma {:induction false} KeywordArgsLabels(env: Env, ck: Checker, args: seq<string>, slot: int, call: Expression,
                                            names: seq<string>, c: Counters)
    requires call.FunctionCall? && KeywordsResolved(env, ck, call, names)
    ensures var R := LowerKeywordArgs(env, ck, args, slot, call, names, c);
      c.labels <= R.after.labels && c.temps <= R.after.temps && LabelsFrom(R.code, c.labels, R.after.labels)
    decreases call, 1, |names|
  {
    if |names| > 0 {
      var P := LowerKeywordArgs(env, ck, args, slot, call, names[..|names| - 1], c);
      assert KeywordsResolved(env, ck, call, names[..|names| - 1]) by {
        forall j | 0 <= j < |names| - 1 ensures names[..|names| - 1][j] == names[j] { }
      }
      KeywordArgsLabels(env, ck, args, slot, call, names[..|names| - 1], c);
      var k := KeywordIndex(call.argsWithKey, names[|names| - 1]).value;
      var X := LowerExpr(env, ck, args, call.argsWithKey[k].1, P.after);
      ExprLabels(env, ck, args, call.argsWithKey[k].1, P.after);
      AddToListLabels(slot, X.code, P.after.labels, X.after.labels);
      ChainLabels(P.code, c.labels, P.after.labels, AddToList(slot, X.code), X.after.labels);
    } else {
      PlainLines([], c.labels);
    }
  }

  lemma AddToListLabels(slot: int, element: seq<string>, lo: nat, hi: nat)
    requires lo <= hi && LabelsFrom(element, lo, hi)
    ensures LabelsFrom(AddToList(slot, element), lo, hi)
  {
    SlotInstrPlain("aload", slot);
    PlainLines([ALoad(slot)], lo);
    PlainLines([ArrayListAdd, "pop"], hi);
    ChainLabels([ALoad(slot)], lo, lo, element, hi);
    ChainLabels([ALoad(slot)] + element, lo, hi, [ArrayListAdd, "pop"], hi);
  }
}
