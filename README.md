# Jepeto code generator, modelled in Dafny

Jepeto is a small functional teaching language. After type checking, its compiler's code generator walks the program and writes Jasmin
assembly for one JVM class, `Main`. The output has these parts, in order:

- the class header;
- a static `main` that instantiates `Main`;
- one instance method per function the type checker reached;
- the constructor `<init>`, which runs the program's main body.

Every Jepeto value lives boxed on the JVM operand stack. The boxed kinds are
`Integer`, `Boolean`, `String`, the runtime classes `List` and `Fptr`, and nothing for `void`.

This project models that generator in two layers.

**The pure layer** is made of specification functions in module `Lowering`:

- `LowerExpr`, `LowerBinary`, `LowerCall` and the other expression functions return the instruction lines of an expression.
- `LowerStmt`, `LowerConditional`, `LowerPrint`, `LowerFunction` and `LowerMain` return the commands a statement hands to `addCommand`.

Each of them threads the two counters the generator keeps:

- the label counter `label_cnt`;
- the `used_temps` counter of the current function declaration.

**The imperative layer** is the class `CodeGen.CodeGenerator`. It has the generator's own fields:

- `labelCnt`, `curFunc`, the type checker's state `checker`;
- the emitted `commands`;
- the rendered `output` text.

Its methods follow the Java visitor method by method. Each one is proved to produce exactly the code and the counters of its specification function.

**The declaration class** `Declarations.FunctionDeclaration` is the mutable AST node whose `usedTemps` counter the generator increments.

**The properties** proved about the pure layer (modules `LoweringProps`, `StmtProps` and `Shapes`) are:

- every label the generated code defines is fresh, and no label is defined twice;
- temporaries get slots above the parameters, and later temporaries get larger slots;
- where each operand, jump and label sits in the code for arithmetic, `and`/`or` and conditionals;
- a function name wins over a parameter of the same name;
- keyword arguments are marshalled in the callee's parameter order, independently of the order the call site writes them.

Around these:

- `Numerals` proves that label numbers and integer constants round-trip through their decimal text;
- `Indentation` models `addCommand`'s string handling and proves it equal to a per-line rendering;
- `Descriptors` proves that the three type-to-class tables of the generator agree.

Instructions are strings without a newline. A command is the sequence of its lines. `Render` gives the text that `addCommand` writes
for a command.

In these places the code behaves unexpectedly; the model follows the code:

- `used_temps` is never reset between functions; temporaries keep counting up.
- A `return` chooses between `return` and `areturn` by the type of the returned expression, not by the function's declared return type.
- `visit(MainDeclaration)` does not set `curFuncDec`. The main body therefore uses the last visited function's parameters and counter for slots.
- `addCommand` chooses the indentation from the first line of a command only. Continuation lines always get two tabs.
- In `if`/`else`, the `endif` label number is the counter value after the then-branch, not always one more than the `else` label.

## Model

| member | source | states |
|---|---|---|
| Numerals.NatToString | Phase4/src/main/visitor/codeGenerator/CodeGenerator.java:252-254 | The decimal text of a label counter is non-empty and all digits, and has one digit exactly when the counter is below ten. |
| Numerals.NatRoundTrip | Phase4/src/main/visitor/codeGenerator/CodeGenerator.java:252-254 | The digits `String.valueOf(label_cnt)` appends to a label parse back to the counter. |
| Numerals.NatToStringInjective | Phase4/src/main/visitor/codeGenerator/CodeGenerator.java:252-254 | Different counter values give different label texts. |
| Numerals.IntRoundTrip | Phase4/src/main/visitor/codeGenerator/CodeGenerator.java:782-786 | The text of an integer constant, including a minus sign, parses back to the constant. |
| Labels.LabelOfDef | Phase4/src/main/visitor/codeGenerator/CodeGenerator.java:253-264 | A label definition line `Label_<role><n>:` decodes to its number `n` for every lower-case role. |
| Labels.LabelDefInjective | Phase4/src/main/visitor/codeGenerator/CodeGenerator.java:484-498 | Two label definitions with different numbers are different lines, whatever their roles. |
| Labels.DefLabels | Phase4/src/main/visitor/codeGenerator/CodeGenerator.java:494-498 | The definition line of label `n` decodes to `n`, so on its own it defines exactly the label set `{n}`, once. |
| Labels.ConcatLabels | Phase4/src/main/visitor/codeGenerator/CodeGenerator.java:249-271 | Two pieces of code with disjoint label sets, each defining its labels once, still define each label once when joined. |
| Labels.ChainLabels | Phase4/src/main/visitor/codeGenerator/CodeGenerator.java:249-271 | Code using labels from `[lo, mid)` followed by code using `[mid, hi)` uses labels from `[lo, hi)`, each defined once. |
| Indentation.SplitUnlines | Phase4/src/main/visitor/codeGenerator/CodeGenerator.java:85 | Splitting a command's newline-terminated text at `\n` gives back its lines. Java's split drops the trailing empty piece. |
| Indentation.DropLastEmpty | Phase4/src/main/visitor/codeGenerator/CodeGenerator.java:85 | Java's split drops exactly the one trailing empty piece after a final newline. |
| Indentation.RenderLines | Phase4/src/main/visitor/codeGenerator/CodeGenerator.java:83-96 | The text `addCommand` writes:<br>- one tab before the first line if it starts with `Label_`, none if it starts with `.`, two tabs otherwise;<br>- `\n\t\t` before each further line;<br>- a final newline. |
| Symbols.ArgNames | Phase4/src/main/visitor/codeGenerator/CodeGenerator.java:706-708 | A signature's parameter names, in the signature's order, one per parameter. |
| Symbols.ArgType | Phase4/src/main/visitor/codeGenerator/CodeGenerator.java:173 | The type lookup of a parameter name succeeds exactly when the signature has a parameter of that name. |
| Symbols.ArgTypeFirstMatch | Phase4/src/main/visitor/codeGenerator/CodeGenerator.java:173 | A lookup that succeeds returns the type recorded for the first parameter of that name. |
| Symbols.KeywordIndex | Phase4/src/main/visitor/codeGenerator/CodeGenerator.java:714-720 | The keyword lookup either finds the first key equal to the parameter name, with no earlier key equal to it, or reports that no key matches. |
| Declarations.FunctionDeclaration.constructor | Phase4/src/main/ast/nodes/declaration/FunctionDeclaration.java:13-16 | A new declaration has the given name and body, no parameters, and a temporary counter of 0. |
| Declarations.FunctionDeclaration.GetArgs | Phase4/src/main/ast/nodes/declaration/FunctionDeclaration.java:26-28 | Returns the parameter list and changes nothing. |
| Declarations.FunctionDeclaration.SetArgs | Phase4/src/main/ast/nodes/declaration/FunctionDeclaration.java:30-32 | Replaces the parameter list and touches no other field. |
| Declarations.FunctionDeclaration.AddArg | Phase4/src/main/ast/nodes/declaration/FunctionDeclaration.java:42-44 | Appends one parameter and keeps the earlier ones in place. |
| Declarations.FunctionDeclaration.IncreaseUsedTemps | Phase4/src/main/ast/nodes/declaration/FunctionDeclaration.java:46-48 | Raises the temporary counter by exactly one and touches no other field. |
| Declarations.FunctionDeclaration.GetUsedTemps | Phase4/src/main/ast/nodes/declaration/FunctionDeclaration.java:50-52 | Returns the temporary counter and changes nothing. |
| Declarations.CounterOnlyGrows | Phase4/src/main/ast/nodes/declaration/FunctionDeclaration.java:42-52 | Over any sequence of the class's operations, the counter never decreases. It ends higher by exactly the number of `increaseUsedTemps` calls. |
| Descriptors.RuntimeClass | Phase4/src/main/visitor/codeGenerator/CodeGenerator.java:734-744 | Every type except `void` has a runtime class. |
| Descriptors.DescriptorsAgree | Phase4/src/main/visitor/codeGenerator/CodeGenerator.java:172-200 | For every non-void type, the parameter descriptor, the return descriptor and the `checkcast` after a call name the same class. `void` gives `V`, an empty parameter descriptor and no cast. |
| Descriptors.DescriptorDeterminesClass | Phase4/src/main/visitor/codeGenerator/CodeGenerator.java:172-183 | Equal parameter descriptors of non-void types mean the same runtime class. |
| Lowering.IntLiteral | Phase4/src/main/visitor/codeGenerator/CodeGenerator.java:782-786 | An integer constant is an `ldc` whose operand parses back to the constant, followed by boxing. |
| Lowering.BoolLiteral | Phase4/src/main/visitor/codeGenerator/CodeGenerator.java:789-793 | `true` pushes `ldc 1` and `false` pushes `ldc 0`, in both directions, followed by boxing. |
| Lowering.StringLiteral | Phase4/src/main/visitor/codeGenerator/CodeGenerator.java:796-801 | A string constant is `ldc` with the text unchanged between double quotes. |
| LoweringProps.ParamSlotFirstMatch | Phase4/src/main/visitor/codeGenerator/CodeGenerator.java:115-120 | A name's slot is -1 exactly when no parameter has that name. Otherwise it is 1 plus the index of the first parameter with that name. |
| LoweringProps.SlotOfContract | Phase4/src/main/visitor/codeGenerator/CodeGenerator.java:110-121 | A temporary request increments the counter and gets a slot above all parameters, `args + used_temps`. A named request leaves the counter alone and finds the first matching parameter. |
| LoweringProps.TemporariesIncrease | Phase4/src/main/visitor/codeGenerator/CodeGenerator.java:111-114 | A later temporary gets a strictly larger slot, so temporaries never share a slot. |
| LoweringProps.SlotInstrDecodes | Phase4/src/main/visitor/codeGenerator/CodeGenerator.java:690-693 | A slot instruction is `op_n` for slots up to 3 and `op n` above, and its operand parses back to the slot. |
| LoweringProps.TwoLabelLabels | Phase4/src/main/visitor/codeGenerator/CodeGenerator.java:519-540 | In the seven lines that finish a comparison or `not`, the fourth line defines label `n` and the sixth defines `n+1`. No other line defines a label. |
| LoweringProps.ShortCircuitTailLabels | Phase4/src/main/visitor/codeGenerator/CodeGenerator.java:488-498 | In the five-line tail of `and`/`or`, the second line defines the role label `n` and the last defines the `endif` label `m`. No other line defines a label, and `n` and `m` are defined once each. |
| LoweringProps.PrintListLoopLabels | Phase4/src/main/visitor/codeGenerator/CodeGenerator.java:325-380 | The list-printing loop defines only labels from `n` to `n+2`, once each. `Label_whilestart<n+1>` follows the opening lines, `Label_aftercomma<n+2>` follows the loop test, and `Label_whileend<n>` follows the loop body. |
| LoweringProps.ExprLabels | Phase4/src/main/visitor/codeGenerator/CodeGenerator.java:403-808 | Neither counter decreases when an expression is lowered. Every label its code defines is in `[label_cnt before, label_cnt after)` and is defined once. |
| LoweringProps.ShortCircuitLabels | Phase4/src/main/visitor/codeGenerator/CodeGenerator.java:481-518 | The same freshness for `and`/`or`. |
| LoweringProps.StrictBinaryLabels | Phase4/src/main/visitor/codeGenerator/CodeGenerator.java:409-567 | The same freshness for the other binary operators. |
| LoweringProps.UnaryLabels | Phase4/src/main/visitor/codeGenerator/CodeGenerator.java:572-603 | The same freshness for `not` and unary minus. |
| LoweringProps.CallLabels | Phase4/src/main/visitor/codeGenerator/CodeGenerator.java:670-747 | The same freshness for function calls. |
| LoweringProps.ListValueLabels | Phase4/src/main/visitor/codeGenerator/CodeGenerator.java:750-779 | The same freshness for list literals. |
| LoweringProps.NameLabels | Phase4/src/main/visitor/codeGenerator/CodeGenerator.java:627-645 | A name's code defines no label and changes neither counter. |
| LoweringProps.ArgListLabels | Phase4/src/main/visitor/codeGenerator/CodeGenerator.java:695-704 | The same freshness for positional arguments. |
| LoweringProps.KeywordArgsLabels | Phase4/src/main/visitor/codeGenerator/CodeGenerator.java:705-725 | The same freshness for keyword arguments. |
| StmtProps.StmtLabels | Phase4/src/main/visitor/codeGenerator/CodeGenerator.java:237-400 | Neither counter decreases when a statement is lowered. The commands it emits define labels only from its range, each once. |
| StmtProps.ConditionalLabels | Phase4/src/main/visitor/codeGenerator/CodeGenerator.java:245-287 | The same freshness for `if`, with or without `else`. |
| StmtProps.PrintLabels | Phase4/src/main/visitor/codeGenerator/CodeGenerator.java:302-385 | The same freshness for `print`. |
| StmtProps.BlockLabels | Phase4/src/main/visitor/codeGenerator/CodeGenerator.java:237-242 | The same freshness for a block. |
| StmtProps.FunctionLabels | Phase4/src/main/visitor/codeGenerator/CodeGenerator.java:157-214 | The same freshness for a whole method: header, body and `.end method`. |
| StmtProps.MainLabels | Phase4/src/main/visitor/codeGenerator/CodeGenerator.java:217-233 | The same freshness for the constructor that holds the main body. |
| StmtProps.PreambleLabels | Phase4/src/main/visitor/codeGenerator/CodeGenerator.java:98-108 | The class header and the static `main` define no label. |
| Shapes.ArithmeticOrder | Phase4/src/main/visitor/codeGenerator/CodeGenerator.java:409-440 | Arithmetic emits, in order:<br>1. the left operand, then an unbox;<br>2. the right operand;<br>3. an unbox, the operator's primitive (`iadd`, `isub`, `imul`, `idiv`), and boxing.<br>The counters end where the right operand left them. |
| Shapes.ShortCircuitPlacement | Phase4/src/main/visitor/codeGenerator/CodeGenerator.java:481-518 | After the left operand:<br>- `and` jumps with `ifeq` to `Label_false<n>`; `or` jumps with `ifne` to `Label_true<n>`;<br>- the right operand follows that jump;<br>- the jump target pushes boxed 0 (for `and`) or 1 (for `or`).<br>`n` is the counter after the left operand. |
| Shapes.IfElseTargets | Phase4/src/main/visitor/codeGenerator/CodeGenerator.java:249-271 | The test jumps to `Label_else<n>`. After the then-branch come `goto Label_endif<m>` and the `else` label. `Label_endif<m>` comes last, and `n < m`. |
| Shapes.IfThenTarget | Phase4/src/main/visitor/codeGenerator/CodeGenerator.java:272-285 | Without `else`, the test jumps to `Label_endif<n>`, defined right after the then-branch. The statement uses that one label. |
| Shapes.NameLowering | Phase4/src/main/visitor/codeGenerator/CodeGenerator.java:627-645 | A name in the symbol table becomes the same function value whatever the parameters, so it wins over a parameter of that name. Any other name is one `aload` of its first parameter slot, or -1 when there is none. |
| Shapes.KeywordOrderIrrelevant | Phase4/src/main/visitor/codeGenerator/CodeGenerator.java:705-725 | Two calls that bind the same expression to every parameter name get the same keyword-argument code, in whatever order they write the arguments. |
| Shapes.CallKeywordOrder | Phase4/src/main/visitor/codeGenerator/CodeGenerator.java:670-747 | Whole keyword calls of one callee that bind the same expressions to its parameters lower to identical code. |
| CodeGen.CodeGenerator.constructor | Phase4/src/main/visitor/codeGenerator/CodeGenerator.java:32-38 | A new generator has label counter 0, no current function and no output. |
| CodeGen.CodeGenerator.AddCommand | Phase4/src/main/visitor/codeGenerator/CodeGenerator.java:83-96 | Appends the command and its rendered text, and touches nothing else. |
| CodeGen.CodeGenerator.SlotOf | Phase4/src/main/visitor/codeGenerator/CodeGenerator.java:110-121 | Returns the slot of the pure `SlotOf` and leaves the declaration's counter where `SlotOf` says. That is where the slot contract holds. |
| CodeGen.CodeGenerator.VisitExpr | Phase4/src/main/visitor/codeGenerator/CodeGenerator.java:403-808 | Returns exactly the code of `LowerExpr` and leaves both counters where it says. So the freshness and placement lemmas hold for what it returns. |
| CodeGen.CodeGenerator.VisitBinary | Phase4/src/main/visitor/codeGenerator/CodeGenerator.java:403-569 | The same for binary expressions, through `LowerBinary`. |
| CodeGen.CodeGenerator.VisitShortCircuit | Phase4/src/main/visitor/codeGenerator/CodeGenerator.java:481-518 | Given the left operand's code, completes `and`/`or` exactly as `LowerBinary` does. |
| CodeGen.CodeGenerator.VisitStrict | Phase4/src/main/visitor/codeGenerator/CodeGenerator.java:409-480 | Given the left operand's code, completes the other binary operators exactly as `LowerBinary` does. |
| CodeGen.CodeGenerator.VisitUnary | Phase4/src/main/visitor/codeGenerator/CodeGenerator.java:572-603 | The same for `not` and unary minus, through `LowerUnary`. |
| CodeGen.CodeGenerator.VisitName | Phase4/src/main/visitor/codeGenerator/CodeGenerator.java:627-645 | The same for identifiers and anonymous function names, through `LowerName`. |
| CodeGen.CodeGenerator.VisitCall | Phase4/src/main/visitor/codeGenerator/CodeGenerator.java:670-747 | The same for calls, through `LowerCall`. |
| CodeGen.CodeGenerator.VisitListValue | Phase4/src/main/visitor/codeGenerator/CodeGenerator.java:750-779 | The same for list literals, through `LowerListValue`. |
| CodeGen.CodeGenerator.VisitArgList | Phase4/src/main/visitor/codeGenerator/CodeGenerator.java:695-704 | Its loop over positional arguments produces exactly `LowerArgList`'s code and counters. |
| CodeGen.CodeGenerator.VisitKeywordArgs | Phase4/src/main/visitor/codeGenerator/CodeGenerator.java:705-725 | Its loop over the signature's names produces exactly `LowerKeywordArgs`'s code and counters. |
| CodeGen.FindKeyword | Phase4/src/main/visitor/codeGenerator/CodeGenerator.java:714-720 | Its search loop finds the same entry as `KeywordIndex`: the first matching key, or none. |
| CodeGen.CodeGenerator.VisitStmt | Phase4/src/main/visitor/codeGenerator/CodeGenerator.java:237-400 | Appends exactly `LowerStmt`'s commands, and their rendered text. It leaves the counters where `LowerStmt` says and restores the type checker's state. |
| CodeGen.CodeGenerator.VisitBlock | Phase4/src/main/visitor/codeGenerator/CodeGenerator.java:237-242 | Its loop emits exactly `LowerBlock`'s commands, statement after statement. |
| CodeGen.CodeGenerator.VisitConditional | Phase4/src/main/visitor/codeGenerator/CodeGenerator.java:245-287 | Emits exactly `LowerConditional`'s commands and counters. |
| CodeGen.CodeGenerator.VisitIfElse | Phase4/src/main/visitor/codeGenerator/CodeGenerator.java:249-271 | The same for `if` with `else`, emitted in the same separate `addCommand` calls. |
| CodeGen.CodeGenerator.VisitIfThen | Phase4/src/main/visitor/codeGenerator/CodeGenerator.java:272-285 | The same for `if` without `else`. |
| CodeGen.CodeGenerator.VisitTest | Phase4/src/main/visitor/codeGenerator/CodeGenerator.java:250-256 | Emits the condition followed by `ifeq` to the fresh label `n`, where `n` is the counter after the condition. It reserves `n` by raising the counter to `n+1`. |
| CodeGen.CodeGenerator.VisitCallStmt | Phase4/src/main/visitor/codeGenerator/CodeGenerator.java:290-299 | Emits the call followed by `pop`, as `LowerStmt` does. It sets the call-statement flag of the type checker and clears it again. |
| CodeGen.CodeGenerator.VisitPrint | Phase4/src/main/visitor/codeGenerator/CodeGenerator.java:302-385 | Emits exactly `LowerPrint`'s single command. |
| CodeGen.CodeGenerator.VisitPrintList | Phase4/src/main/visitor/codeGenerator/CodeGenerator.java:325-380 | Given the list's code, emits the printing loop with its three labels and its two temporaries, as `LowerPrint` does. |
| CodeGen.CodeGenerator.VisitFunction | Phase4/src/main/visitor/codeGenerator/CodeGenerator.java:157-214 | Emits exactly `LowerFunction`'s header, body and `.end method`. |
| CodeGen.CodeGenerator.VisitMain | Phase4/src/main/visitor/codeGenerator/CodeGenerator.java:217-233 | Emits exactly `LowerMain`'s constructor prologue, body and `return`. |
| CodeGen.CodeGenerator.AddClassHeader | Phase4/src/main/visitor/codeGenerator/CodeGenerator.java:126-131 | Writes the class header command, which defines no label. |
| CodeGen.CodeGenerator.AddStaticMainMethod | Phase4/src/main/visitor/codeGenerator/CodeGenerator.java:98-108 | Writes the static `main` command, which defines no label. |
| CodeGen.CodeGenerator.VisitNamed | Phase4/src/main/visitor/codeGenerator/CodeGenerator.java:137-148 | Makes the named function current, both as `curFunc` and in the type checker. Then it writes exactly the method `LowerFunction` gives for that declaration, lowered from the label counter and the declaration's own temporary counter. Both counters end where that lowering ends. The output starts with the method's header and defines only fresh labels. |
| CodeGen.CodeGenerator.VisitFunctions | Phase4/src/main/visitor/codeGenerator/CodeGenerator.java:136-149 | Over the visited functions in order, writes exactly the methods `MethodsOf` gives for their declarations as they were on entry. It leaves:<br>- the label counter at `MethodsOf`'s;<br>- each visited declaration's temporary counter at its own method's final value;<br>- the last visited function current, in the generator and in the type checker.<br>With no visited functions it writes nothing and keeps the parameters and counters of the current function. |
| CodeGen.MethodsOf | Phase4/src/main/visitor/codeGenerator/CodeGenerator.java:136-148 | Each function's method is lowered from the label counter the previous one left and from the function's own temporary counter, which it then replaces. The label counter never goes down, and functions not yet lowered keep their counters. |
| CodeGen.MethodsFirst | Phase4/src/main/visitor/codeGenerator/CodeGenerator.java:136-148 | A run of at least one method starts with the header of the first visited function's method. |
| CodeGen.CodeGenerator.VisitMainDeclaration | Phase4/src/main/visitor/codeGenerator/CodeGenerator.java:151 | Writes exactly the constructor `LowerMain` gives for the main body, lowered with the current function's parameters and counters. Both counters end where that lowering ends. The constructor runs from its prologue to its footer with fresh labels only, and no other declaration's counter changes. |
| CodeGen.CodeGenerator.VisitDeclarations | Phase4/src/main/visitor/codeGenerator/CodeGenerator.java:136-151 | Writes exactly `ProgramOf`'s commands: the function methods, then the constructor, lowered with the last function's parameters and counters. The counters end at `ProgramOf`'s, and every function but the last keeps its method's final temporary counter. |
| CodeGen.ProgramShape | Phase4/src/main/visitor/codeGenerator/CodeGenerator.java:136-151 | Those commands start with the first visited function's method header, or the constructor's header when no function is visited. They end with the constructor's footer. |
| CodeGen.CodeGenerator.VisitProgram | Phase4/src/main/visitor/codeGenerator/CodeGenerator.java:124-154 | Writes the whole class:<br>- the class header first and the static `main` second;<br>- then exactly the methods and the constructor of `ProgramCode`, computed from the state on entry;<br>- every label number taken fresh from the range between `label_cnt` before and after, and defined once.<br>The counters end where `ProgramCode` says. |

## Left out

- Output files: the folder preparation, the copying of `jasmin.jar`, `List.j` and `Fptr.j`, and the `FileWriter` are I/O. `output` holds the text that would be written.
- The symbol table and the expression type checker are not part of this model. They are parameters:
  - `env.symbols` maps function names to their declaration and signature;
  - `env.typeOf` gives an expression's type for a given checker state (current function, call-statement flag).
- Crash paths become preconditions (`Resolved`, `StmtResolved`, `ProgramReady`):
  - a missing symbol-table entry;
  - a callee whose type is not a function pointer (`ClassCastException`);
  - a keyword argument missing for a parameter (`NullPointerException`);
  - slot use in the main body when no function was visited (`curFuncDec` is null).
- Declaration objects: the symbol table creates one declaration per function. The model assumes that distinct visited names have distinct declaration objects (`NamesDeclared`). It says nothing about two names sharing one declaration.
- `FunctionDeclaration`'s constructor: the Java class has only a default constructor, and the parser fills the fields with `setFunctionName` and `setBody`. The model's constructor takes the name and body directly and stands in for that sequence.
- Iteration order: `visited` (a Java `Set`) and the `keySet` of the argument-type map are given as sequences. Java's hash order is not modelled. `Shapes.KeywordOrderIrrelevant` shows that the order of the call site's own keyword map does not matter.
- Integer widths: `label_cnt`, `used_temps` and slot numbers are unbounded. Java's 32-bit wrap-around and the `.limit locals 128` bound are not modelled. Integer constants are modelled as unbounded integers.
- `slotOf` compares the identifier with `""` by reference. The model treats it as a test for the temporary request, which is what every call site means.
- Identifiers are reduced to their name strings. `toString` and `accept` of `FunctionDeclaration` are dispatch and debugging helpers and are left out.
- `getFunctionName`, `setFunctionName`, `getBody` and `setBody` of `FunctionDeclaration` are plain field accesses in the model (`functionName`, `body`). No separate methods model them.
- The root-level draft `CodeGenerator.java` is an older context copy and is not part of this model.
- Helper methods that are not in the source: several visitors are split into helpers so that each proof stays small. `VisitShortCircuit`, `VisitStrict`, `VisitPrintList`, `VisitIfElse`, `VisitIfThen`, `VisitBranch`, `VisitTest`, `AddToGroup`, `AddPreamble`, `VisitDeclarations`, `Round` and `VisitNext` are such helpers. They emit exactly what the single Java method does.
- Runtime behaviour of the generated Jasmin code (what the JVM computes) is not modelled. The properties are about the shape of the emitted code: labels, operand order, slots.
