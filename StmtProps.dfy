/**
 * Label allocation across statements: the commands emitted for a statement
 * define labels numbered from the counter's value before the statement up to
 * its value afterwards, none of them twice, so the labels of a whole method
 * body are pairwise distinct.
 */
module StmtProps {
  import opened Wrappers
  import opened Labels
  import opened Ast
  import opened Symbols
  import opened Lowering
  import opened LoweringProps

  lemma {:induction false} FlattenConcat(a: seq<seq<string>>, b: seq<seq<string>>)
    ensures Flatten(a + b) == Flatten(a) + Flatten(b)
    decreases |b|
  {
    if |b| == 0 {
      assert a + b == a;
    } else {
      assert (a + b)[..|a + b| - 1] == a + b[..|b| - 1];
      FlattenConcat(a, b[..|b| - 1]);
    }
  }

  lemma FlattenOne(x: seq<string>)
    ensures Flatten([x]) == x
  {
    assert [x][..0] == [];
  }

  /** The lines of a conditional with an else branch keep their labels apart. */
  lemma IfElseCode(cc: seq<string>, lo: nat, n: nat, tc: seq<string>, m: nat, ec: seq<string>, k: nat)
    requires lo <= n < m < k
    requires LabelsFrom(cc, lo, n) && LabelsFrom(tc, n + 1, m) && LabelsFrom(ec, m + 1, k)
    ensures LabelsFrom(cc + [UnboxBool, "ifeq " + LabelName("else", n)] + tc +
                       ["goto " + LabelName("endif", m), LabelDef("else", n)] + ec + [LabelDef("endif", m)], lo, k)
  {
    var head := [UnboxBool, "ifeq " + LabelName("else", n)];
    var mid := ["goto " + LabelName("endif", m), LabelDef("else", n)];
    var last := [LabelDef("endif", m)];
    PlainLines(head, n);
    ChainLabels(cc, lo, n, head, n);
    ConcatLabels(cc + head, Range(lo, n), tc, Range(n + 1, m));
    LabelOfDef("else", n);
    assert LabelOf(mid[0]).None?;
    assert LabelsWithin(mid, {n}) && LabelsDistinct(mid);
    ConcatLabels(cc + head + tc, Range(lo, n) + Range(n + 1, m), mid, {n});
    ConcatLabels(cc + head + tc + mid, Range(lo, n) + Range(n + 1, m) + {n}, ec, Range(m + 1, k));
    DefLabels("endif", m);
    ConcatLabels(cc + head + tc + mid + ec, Range(lo, n) + Range(n + 1, m) + {n} + Range(m + 1, k), last, {m});
    WidenLabels(cc + head + tc + mid + ec + last, Range(lo, n) + Range(n + 1, m) + {n} + Range(m + 1, k) + {m}, Range(lo, k));
  }

  /** The lines of a conditional without an else branch keep their labels apart. */
  lemma IfCode(cc: seq<string>, lo: nat, n: nat, tc: seq<string>, m: nat)
    requires lo <= n < m
    requires LabelsFrom(cc, lo, n) && LabelsFrom(tc, n + 1, m)
    ensures LabelsFrom(cc + [UnboxBool, "ifeq " + LabelName("endif", n)] + tc + [LabelDef("endif", n)], lo, m)
  {
    var head := [UnboxBool, "ifeq " + LabelName("endif", n)];
    var last := [LabelDef("endif", n)];
    PlainLines(head, n);
    ChainLabels(cc, lo, n, head, n);
    ConcatLabels(cc + head, Range(lo, n), tc, Range(n + 1, m));
    DefLabels("endif", n);
    ConcatLabels(cc + head + tc, Range(lo, n) + Range(n + 1, m), last, {n});
    WidenLabels(cc + head + tc + last, Range(lo, n) + Range(n + 1, m) + {n}, Range(lo, m));
  }

  /**
   * The commands of one statement define labels from the counter values the
   * statement consumed, each at most once; neither counter goes down.
   */
  lemma {:induction false} StmtLabels(env: Env, ck: Checker, args: seq<string>, s: Statement, c: Counters)
    requires StmtResolved(env, ck, s)
    ensures var S := LowerStmt(env, ck, args, s, c);
      c.labels <= S.after.labels && c.temps <= S.after.temps && LabelsFrom(Flatten(S.commands), c.labels, S.after.labels)
    decreases s, 2
  {
    match s
    case Block(ss) => BlockLabels(env, ck, args, ss, c);
    case Conditional(cond, t, els) => ConditionalLabels(env, ck, args, s, c);
    case FunctionCallStmt(callee, pos, kw) =>
      var X := LowerExpr(env, ck.(inCallStmt := true), args, FunctionCall(callee, pos, kw), c);
      ExprLabels(env, ck.(inCallStmt := true), args, FunctionCall(callee, pos, kw), c);
      FlattenOne(X.code + ["pop"]);
      PlainLines(["pop"], X.after.labels);
      ChainLabels(X.code, c.labels, X.after.labels, ["pop"], X.after.labels);
    case Print(arg) => PrintLabels(env, ck, args, s, c);
    case Return(x) =>
      var X := LowerExpr(env, ck, args, x, c);
      ExprLabels(env, ck, args, x, c);
      var last := if env.typeOf(ck, x).VoidType? then "return" else "areturn";
      FlattenOne(X.code + [last]);
      PlainLines([last], X.after.labels);
      ChainLabels(X.code, c.labels, X.after.labels, [last], X.after.labels);
  }

  /** A conditional with an else branch unfolded, given the codes of its parts. */
  lemma ElseIs(env: Env, ck: Checker, args: seq<string>, s: Statement, c: Counters, C: Code, T: Emitted, E: Emitted)
    requires s.Conditional? && s.elseBody.Else? && StmtResolved(env, ck, s)
    requires C == LowerExpr(env, ck, args, s.condition, c)
    requires T == LowerStmt(env, ck, args, s.thenBody, Counters(C.after.labels + 1, C.after.temps))
    requires E == LowerStmt(env, ck, args, s.elseBody.body, Counters(T.after.labels + 1, T.after.temps))
    ensures LowerConditional(env, ck, args, s, c) == Emitted([C.code + [UnboxBool, "ifeq " + LabelName("else", C.after.labels)]] + T.commands +
                [["goto " + LabelName("endif", T.after.labels), LabelDef("else", C.after.labels)]] + E.commands +
                [[LabelDef("endif", T.after.labels)]], E.after)
  {
  }

  /** A conditional without an else branch unfolded, given the codes of its parts. */
  lemma ThenIs(env: Env, ck: Checker, args: seq<string>, s: Statement, c: Counters, C: Code, T: Emitted)
    requires s.Conditional? && !s.elseBody.Else? && StmtResolved(env, ck, s)
    requires C == LowerExpr(env, ck, args, s.condition, c)
    requires T == LowerStmt(env, ck, args, s.thenBody, Counters(C.after.labels + 1, C.after.temps))
    ensures LowerConditional(env, ck, args, s, c) == Emitted([C.code + [UnboxBool, "ifeq " + LabelName("endif", C.after.labels)]] + T.commands +
                [[LabelDef("endif", C.after.labels)]], T.after)
  {
  }

  lemma {:induction false} ConditionalLabels(env: Env, ck: Checker, args: seq<string>, s: Statement, c: Counters)
    requires s.Conditional? && StmtResolved(env, ck, s)
    ensures var S := LowerStmt(env, ck, args, s, c);
      c.labels <= S.after.labels && c.temps <= S.after.temps && LabelsFrom(Flatten(S.commands), c.labels, S.after.labels)
    decreases s, 1
  {
    var C := LowerExpr(env, ck, args, s.condition, c);
    ExprLabels(env, ck, args, s.condition, c);
    var n := C.after.labels;
    var T := LowerStmt(env, ck, args, s.thenBody, C.after.(labels := n + 1));
    StmtLabels(env, ck, args, s.thenBody, C.after.(labels := n + 1));
    var m := T.after.labels;
    if s.elseBody.Else? {
      var E := LowerStmt(env, ck, args, s.elseBody.body, T.after.(labels := m + 1));
      StmtLabels(env, ck, args, s.elseBody.body, T.after.(labels := m + 1));
      ElseIs(env, ck, args, s, c, C, T, E);
      IfElseCommands(C.code, c.labels, n, T.commands, m, E.commands, E.after.labels);
    } else {
      ThenIs(env, ck, args, s, c, C, T);
      IfCommands(C.code, c.labels, n, T.commands, m);
    }
  }

  lemma IfElseCommands(cc: seq<string>, lo: nat, n: nat, tc: seq<seq<string>>, m: nat, ec: seq<seq<string>>, k: nat)
    requires lo <= n < m < k
    requires LabelsFrom(cc, lo, n) && LabelsFrom(Flatten(tc), n + 1, m) && LabelsFrom(Flatten(ec), m + 1, k)
    ensures LabelsFrom(Flatten([cc + [UnboxBool, "ifeq " + LabelName("else", n)]] + tc +
                               [["goto " + LabelName("endif", m), LabelDef("else", n)]] + ec +
                               [[LabelDef("endif", m)]]), lo, k)
  {
    var head := cc + [UnboxBool, "ifeq " + LabelName("else", n)];
    var mid := ["goto " + LabelName("endif", m), LabelDef("else", n)];
    var last := [LabelDef("endif", m)];
    FlattenConcat([head] + tc + [mid] + ec, [last]);
    FlattenConcat([head] + tc + [mid], ec);
    FlattenConcat([head] + tc, [mid]);
    FlattenConcat([head], tc);
    FlattenOne(head);
    FlattenOne(mid);
    FlattenOne(last);
    IfElseCode(cc, lo, n, Flatten(tc), m, Flatten(ec), k);
  }

  lemma IfCommands(cc: seq<string>, lo: nat, n: nat, tc: seq<seq<string>>, m: nat)
    requires lo <= n < m
    requires LabelsFrom(cc, lo, n) && LabelsFrom(Flatten(tc), n + 1, m)
    ensures LabelsFrom(Flatten([cc + [UnboxBool, "ifeq " + LabelName("endif", n)]] + tc + [[LabelDef("endif", n)]]), lo, m)
  {
    var head := cc + [UnboxBool, "ifeq " + LabelName("endif", n)];
    var last := [LabelDef("endif", n)];
    FlattenConcat([head] + tc, [last]);
    FlattenConcat([head], tc);
    FlattenOne(head);
    FlattenOne(last);
    IfCode(cc, lo, n, Flatten(tc), m);
  }

  lemma {:induction false} PrintLabels(env: Env, ck: Checker, args: seq<string>, s: Statement, c: Counters)
    requires s.Print? && StmtResolved(env, ck, s)
    ensures var S := LowerStmt(env, ck, args, s, c);
      c.labels <= S.after.labels && c.temps <= S.after.temps && LabelsFrom(Flatten(S.commands), c.labels, S.after.labels)
    decreases s, 1
  {
    var S := LowerStmt(env, ck, args, s, c);
    var t := env.typeOf(ck, s.arg);
    var A := LowerExpr(env, ck, args, s.arg, c);
    ExprLabels(env, ck, args, s.arg, c);
    var n := A.after.labels;
    if t.ListType? {
      var (index, temps1) := SlotOf(args, Temporary, A.after.temps);
      var (element, temps2) := SlotOf(args, Temporary, temps1);
      FlattenOne(A.code + PrintListLoop(n, index, element));
      PrintListLoopLabels(n, index, element);
      ChainLabels(A.code, c.labels, n, PrintListLoop(n, index, element), n + 3);
    } else {
      var show :=
        if t.IntType? then [UnboxInt, Invokevirtual("java/io/PrintStream/println(I)V")]
        else if t.BoolType? then [Invokevirtual("java/io/PrintStream/println(Ljava/lang/Object;)V")]
        else if t.StringType? then [PrintlnString]
        else [];
      FlattenOne([GetOut] + A.code + show);
      PlainLines([GetOut], c.labels);
      PlainLines(show, n);
      ChainLabels([GetOut], c.labels, c.labels, A.code, n);
      ChainLabels([GetOut] + A.code, c.labels, n, show, n);
    }
  }

  lemma {:induction false} BlockLabels(env: Env, ck: Checker, args: seq<string>, ss: seq<Statement>, c: Counters)
    requires BlockResolved(env, ck, ss)
    ensures var B := LowerBlock(env, ck, args, ss, c);
      c.labels <= B.after.labels && c.temps <= B.after.temps && LabelsFrom(Flatten(B.commands), c.labels, B.after.labels)
    decreases ss, 1
  {
    if |ss| == 0 {
      PlainLines([], c.labels);
    } else {
      var P := LowerBlock(env, ck, args, ss[..|ss| - 1], c);
      assert BlockResolved(env, ck, ss[..|ss| - 1]) by {
        forall i | 0 <= i < |ss| - 1 ensures ss[..|ss| - 1][i] == ss[i] { }
      }
      BlockLabels(env, ck, args, ss[..|ss| - 1], c);
      var S := LowerStmt(env, ck, args, ss[|ss| - 1], P.after);
      StmtLabels(env, ck, args, ss[|ss| - 1], P.after);
      FlattenConcat(P.commands, S.commands);
      ChainLabels(Flatten(P.commands), c.labels, P.after.labels, Flatten(S.commands), S.after.labels);
    }
  }

  /** A function's method defines exactly the labels its body allocated, each once: its header and end define none. */
  lemma FunctionLabels(env: Env, ck: Checker, name: string, declArgs: seq<string>, body: Statement,
                       args: seq<string>, c: Counters)
    requires name in env.symbols && StmtResolved(env, ck, body)
    ensures var F := LowerFunction(env, ck, name, declArgs, body, args, c);
      c.labels <= F.after.labels && c.temps <= F.after.temps && LabelsFrom(Flatten(F.commands), c.labels, F.after.labels)
  {
    var B := LowerStmt(env, ck, args, body, c);
    StmtLabels(env, ck, args, body, c);
    var header := FunctionHeader(name, declArgs, env.symbols[name]);
    EnclosedLabels(header, B.commands, EndMethod, c.labels, B.after.labels);
  }

  /** The same for the main declaration's constructor. */
  lemma MainLabels(env: Env, ck: Checker, args: seq<string>, body: Statement, c: Counters)
    requires StmtResolved(env, ck, body)
    ensures var M := LowerMain(env, ck, args, body, c);
      c.labels <= M.after.labels && c.temps <= M.after.temps && LabelsFrom(Flatten(M.commands), c.labels, M.after.labels)
  {
    var B := LowerStmt(env, ck, args, body, c);
    StmtLabels(env, ck, args, body, c);
    EnclosedLabels(InitHeader, B.commands, InitFooter, c.labels, B.after.labels);
  }

  /** Commands between a first and a last command made of plain lines. */
  lemma EnclosedLabels(first: seq<string>, middle: seq<seq<string>>, last: seq<string>, lo: nat, hi: nat)
    requires lo <= hi && LabelsFrom(Flatten(middle), lo, hi)
    requires forall i | 0 <= i < |first| :: PlainLine(first[i])
    requires forall i | 0 <= i < |last| :: PlainLine(last[i])
    ensures LabelsFrom(Flatten([first] + middle + [last]), lo, hi)
  {
    FlattenConcat([first] + middle, [last]);
    FlattenConcat([first], middle);
    FlattenOne(first);
    FlattenOne(last);
    PlainLines(first, lo);
    PlainLines(last, hi);
    ChainLabels(first, lo, lo, Flatten(middle), hi);
    ChainLabels(first + Flatten(middle), lo, hi, last, hi);
  }

  /** The class header and `main` define no label. */
  lemma PreambleLabels(n: nat)
    ensures LabelsFrom(Flatten([ClassHeader]), n, n) && LabelsFrom(Flatten([StaticMain]), n, n)
  {
    FlattenOne(ClassHeader);
    FlattenOne(StaticMain);
    PlainLines(ClassHeader, n);
    PlainLines(StaticMain, n);
  }
}
