# Compilador: semantic actions, ILOC generation and x86-64 lowering

This project models the back end of a small compiler for a C-like
teaching language, in three successive stages of the same repository:

- **E4**, the type checker. It has a heap tree of nodes, a scope stack of
  symbol tables, the semantic checks of every syntactic form, and an exit
  code for each error kind.
- **E5**, the first code generator. It uses the same checks and attaches
  ILOC code to every node.
- **E6**, the final code generator. It places every declared variable in
  the data segment or the frame (parameters are left unplaced, Finding 5),
  builds the ILOC list of the whole program (linked
  lists of operations with concatenation in either order), and lowers that
  list to x86-64 assembly text.

The lowering in E6 does the following:

- It scans every operand for the highest register number, which sets the
  frame size.
- It prints a prologue for each function label and a template for each
  opcode.
- It keeps a one-entry cache of the memory cell whose value is in %eax, so
  that a repeated `loadAI` skips its memory read.

The model has three forms:

- The semantic actions of E5 and E6 are methods of a `Compiler` class. Its
  fields are the scope stack, the register and label counters, and the two
  storage offsets. Each method is proved equal to a pure function of the
  inputs and the old state, and the properties are proved about those
  functions.
- E4's tree nodes are heap objects (`TreeE4.TreeNode`), because E4 re-links
  and releases nodes in place.
- The ILOC list is a class over a chain of heap nodes.
- The lowering is a `Lowering` class over the three globals of the lowering
  file. It is proved against pure functions (`Lower`, `MaxRegIn`).

Two abstract machines state what the printed assembly does:

- `Peephole.MovState` tracks what `movl` moves. It shows that skipping a
  cached read changes nothing as long as every (base, offset) key names one
  cell. Parameters break that condition (Finding 5).
- `Frames.Machine` tracks `%rsp`, `%rbp`, the callee-saved registers and
  8-byte stack words. It shows what the prologue and the return sequence
  save and restore.

Errors end the program in the source. Here they are `Result` values: an
`Err` carries the error kind, and its exit code is `Types.ExitCode`.
A call node holds no register (`E6/semantica.c:319-405`), so a call used
as a returned value, a condition or an assigned value reaches
`criar_operando_registrador` with a null name, which `strdup` dereferences
(`E6/iloc.c:62-65`). Return, assignment, `if` and `while` model that path
as the outcome `NullRegister`.

Three behaviours of the code worth knowing:

- The pool of physical registers does not go to the lowest-numbered
  registers. The code gives a register operand
  `rN` the home of offset `4*N` (`E6/assembly.c:82-101`). Physical
  registers go to offsets below 16 (`E6/assembly.c:35-46`). Generated
  registers are numbered from 1000 (`E6/iloc.c:7`). So no generated
  register ever gets a physical register; only the first four local
  offsets do (see `Frames.TempsApartFromLocals`).
- A new scope of E5 and E6 inherits its parent's return type; E4's
  `stack_push` does not write it (Finding 2).
- E5 places only declarations with an initialiser (Finding 1).

## Model

| member | source | states |
|---|---|---|
| Types.ExitCode | E4/erros.h:4-11 | The exit code is 1 exactly for an internal error and 30 exactly for a type mismatch; declaration errors exit in 10-11, nature errors in 20-21, argument errors in 40-42, each class in its range and only there; a null register exits exactly with 139 |
| Text.AtoiNatToString | E6/assembly.c:49-56 | `atoi` applied after the `r` of a `r%d` register name reads back exactly the number printed |
| Text.NatToStringInjective | E6/iloc.c:46-56 | Different counter values print as different names |
| Names.TempNameInjective | E6/iloc.c:46-50 | Two register names are equal only when their counter values are |
| Names.LabelNameInjective | E6/iloc.c:52-56 | Two label names are equal only when their counter values are |
| Names.TempIsNotLabel | E6/iloc.c:46-56 | No generated register name equals a generated label name |
| Names.TempIsNotSpecial | E6/iloc.c:46-50 | A generated register is never named `rfp`, `rbss` or `rsp` |
| Names.NameSupply.constructor | E6/iloc.c:7-8 | Registers are numbered from 1000 and labels from 0 |
| Names.NameSupply.NewTemp | E6/iloc.c:46-50 | Returns `r` followed by the counter; the counter advances by one and the label counter is unchanged |
| Names.NameSupply.NewLabel | E6/iloc.c:52-56 | Returns `L` followed by the counter; the counter advances by one and the register counter is unchanged |
| Iloc.LabelledOperation | E6/iloc.c:168-177 | The same operation with the label set |
| Iloc.MakeLoadI | E6/iloc.c:362-372 | `loadI`: one immediate source, one register target |
| Iloc.MakeLoad | E6/iloc.c:374-384 | `load`: one register source, one register target |
| Iloc.MakeLoadAI | E6/iloc.c:386-404 | `loadAI`: base register and offset immediate carrying the global name as sources, destination as target |
| Iloc.MakeStore | E6/iloc.c:406-416 | `store`: one register source, one register target |
| Iloc.MakeStoreAI | E6/iloc.c:418-435 | `storeAI`: value register as source; base register and offset immediate with the global name as targets |
| Iloc.MakeBinary | E6/iloc.c:437-451 | Arithmetic and comparison operations: two register sources, one register target |
| Iloc.MakeRsubI | E6/iloc.c:469-483 | `rsubI`: register then immediate source, one register target |
| Iloc.MakeCbr | E6/iloc.c:501-515 | `cbr`: one register source, label targets taken then not taken |
| Iloc.MakeJumpI | E6/iloc.c:517-525 | `jumpI`: no source, one label target |
| Iloc.MakeI2I | E6/iloc.c:527-537 | `i2i`: one register source, one register target |
| Iloc.MakeLabelledNop | E6/iloc.c:543-545 | A `nop` carrying the given label and no operands |
| Iloc.MakeRet | E6/semantica.c:408-439 | The `ret` built by `return`: one register source, no target |
| Iloc.SpliceConcatenates | E6/iloc.c:251-279 | `concatenar_listas` is concatenation, second list behind under ORD_NORM and in front under ORD_INV; the result is null only when both lists are |
| Iloc.SpliceAssociative | E6/iloc.c:251-279 | Concatenations in one orientation can be regrouped |
| Iloc.SpliceKeepsOrder | E6/iloc.c:251-279 | Every operation of both lists is kept, each list in its own order |
| Iloc.SpliceExample | E6/iloc.c:264-270 | [A, B] with [C] gives [A, B, C] under ORD_NORM and [C, A, B] under ORD_INV |
| Iloc.Separator | E6/iloc.c:327-334 | The printed arrow is `->` for control flow, `=>` for every other operation with targets, and absent without targets |
| IlocList.OpNode.constructor | E6/iloc.c:103-166 | A new operation record with the given fields and no successor |
| IlocList.CopyOperands | E6/iloc.c:103-166 | The operand copy gives the first `count` operands, or none when `count` is not positive |
| IlocList.CreateOperation | E6/iloc.c:103-166 | A fresh node whose instruction has the opcode and copied operands, with no label and no successor |
| IlocList.CreateLabelledOperation | E6/iloc.c:168-177 | As CreateOperation, with the label set |
| IlocList.InstrList.constructor | E6/iloc.c:220-225 | A new list is empty |
| IlocList.Append | E6/iloc.c:227-239 | The list's contents become the old contents followed by the operation; a null list or operation changes nothing |
| IlocList.Prepend | E6/iloc.c:240-249 | The operation goes in front of the old contents; a null list or operation changes nothing |
| IlocList.LinkBehind | E6/iloc.c:268-272 | Under ORD_NORM the first list's contents become its own followed by the second's |
| IlocList.LinkInFront | E6/iloc.c:262-267 | Under ORD_INV the first list's contents become the second's followed by its own |
| IlocList.Concat | E6/iloc.c:251-279 | The result's contents are the concatenation in the requested order; a null argument returns the other list unchanged |
| IlocList.Listing | E6/iloc.c:294-356 | One printed line per operation, in order |
| IlocList.ListingConcat | E6/iloc.c:294-356 | Printing a concatenation prints each part in turn |
| IlocList.PrintCode | E6/iloc.c:294-356 | Following `next` from the head until null prints exactly the listing of the contents |
| Scopes.FindNearest | E5/tabelaSimbolos.c:104-117 | A key is found exactly when some scope holds it, and the entry comes from the innermost such scope |
| Scopes.Inserted | E5/tabelaSimbolos.c:83-101 | Insertion changes only the top table, adding the entry under its key |
| Scopes.InsertedFind | E5/tabelaSimbolos.c:83-117 | After an insertion the key finds the new entry and every other key finds what it found before |
| Scopes.NewScope | E5/tabelaSimbolos.c:11-27 | A new scope is empty, with no current function, and with the parent's return type or TIPO_INDEF at the base |
| Scopes.PushedFind | E5/tabelaSimbolos.c:11-80 | Pushing an empty scope changes no lookup, and popping it restores the stack |
| Scopes.InnerShadowsOuter | E5/tabelaSimbolos.c:104-117 | An inner declaration hides every outer one with the same key |
| Scopes.CreateEntryVar | E5/tabelaSimbolos.c:152-163 | A variable with the given key, type and token, no parameters, global at offset 0 |
| Scopes.CreateEntryFun | E5/tabelaSimbolos.c:166-185 | A function with the given key, return type and token, and no parameters yet |
| Scopes.ScopeStack.constructor | E5/tabelaSimbolos.c:11-27 | The stack starts with no scope |
| Scopes.ScopeStack.Push | E5/tabelaSimbolos.c:11-27 | The stack gains NewScope of the old stack on top |
| Scopes.ScopeStack.PushUninitialised | E4/tabelaSimbolos.c:10-16 | E4's push adds an empty scope whose return type is whatever the allocation held |
| Scopes.ScopeStack.Pop | E5/tabelaSimbolos.c:30-80 | Nothing happens on an empty stack; otherwise the top scope and its symbols are gone |
| Scopes.ScopeStack.LookupLocal | E5/tabelaSimbolos.c:120-128 | Finds the key in the top scope only; nothing on an empty stack |
| Scopes.ScopeStack.Lookup | E5/tabelaSimbolos.c:104-117 | Returns the nearest entry of the key (see FindNearest) |
| Scopes.ScopeStack.Insert | E5/tabelaSimbolos.c:83-101 | An empty stack is the internal error; a key already in the top scope is a redeclaration citing both lines; otherwise the entry is inserted |
| Scopes.ScopeStack.EnterFunction | E6/semantica.c:211-220 | The top scope takes the declared return type and records the function |
| Scopes.ScopeStack.Update | E6/semantica.c:23-33 | The entry under its key in the given scope is replaced; every other scope is unchanged |
| Semantics.CountClass | E6/semantica.c:10-11 | Counts the allocations of one storage class; the count is at most the log's length |
| Semantics.AllocationIncreasing | E6/semantica.c:23-33 | The offsets of one storage class are non-negative multiples of 4 that strictly increase, so no place is handed out twice |
| Semantics.AllocationStep | E6/semantica.c:23-33 | Allocating the next place of a class keeps that rule and advances only that class's counter by 4 |
| Semantics.BaseRegister | E6/semantica.c:626-632 | `rbss` exactly for a global symbol, `rfp` for a local one |
| Semantics.GlobalName | E6/semantica.c:626-632 | The symbol's key for a global, none for a local |
| Semantics.LeafCode | E6/semantica.c:40-68 | An integer literal loads its `atoi` value into the given register; every other leaf has neither code nor register |
| Semantics.UnaryTemps | E6/semantica.c:71-118 | A unary operator never draws more than two registers |
| Semantics.UnaryCode | E6/semantica.c:71-118 | The operand's code comes first, then the operator's instructions (`rsubI` for `-`, `loadI 0` and `cmp_EQ` for `!`) |
| Semantics.BinaryOpcodeKind | E6/semantica.c:121-178 | The twelve recognised operators, each selecting an arithmetic or comparison opcode |
| Semantics.BinaryCode | E6/semantica.c:121-178 | A recognised operator runs the left code, then the right code, then its own instruction into the destination; an unknown label has neither register nor code |
| Semantics.BinaryExpressionChecks | E6/semantica.c:644-650 | Fails exactly when the operand types differ; otherwise the operator node has the left operand's type |
| Semantics.IdentifierLoads | E6/semantica.c:612-641 | Fails exactly for an unknown name or a function; otherwise a `loadAI` of the variable's place into the destination |
| Semantics.AssignStores | E6/semantica.c:286-316 | Errors in the order undeclared, function, type, then a null register when the expression holds none; a success, exactly when all four pass, stores the expression's register into the variable's place after the expression's code |
| Semantics.InitializationStores | E6/semantica.c:571-609 | The declaration node stores the initialiser's register into the variable's place after the initialiser's code |
| Semantics.FirstMismatch | E6/semantica.c:352-368 | The first position where an argument's type differs from its parameter's, among positions both lists have; none when there is none |
| Semantics.RechainedShape | E6/semantica.c:370-386 | The first argument's list becomes its own followed by the second's, each middle argument carries the next one's list, and the last none; zero or one argument is left as it is |
| Semantics.ChainDescends | E6/semantica.c:370-386 | Argument `k + d` hangs `d` levels below argument `k`, keeping its label, type and children |
| Semantics.CallChecks | E6/semantica.c:319-368 | Errors in the order undeclared, variable as function, too few, too many, wrong type; a call succeeds exactly when every check passes |
| Semantics.CallLayout | E6/semantica.c:319-405 | A successful call is `call f` of the function's type, with no register and one child heading the chain of all arguments |
| Semantics.ReturnChecks | E6/semantica.c:408-439 | Errors in the order expression-vs-declared, declared-vs-function, then a null register when the expression holds none; a success, exactly when all pass, is a `ret` of the expression's register after its code |
| Semantics.ConditionalLayout | E6/semantica.c:442-509 | A condition without a register fails first, with a null register; otherwise the block types must agree only when both blocks exist (the if/else type error); code is condition, `cbr`, then-label, then-block, jump to end, else-label, else-block, end-label |
| Semantics.WhileLayout | E6/semantica.c:511-556 | Fails exactly when the condition holds no register, with a null register; otherwise code is test label, condition, `cbr`, body label, body, jump back, exit label |
| Semantics.FunctionDefinitionCode | E6/semantica.c:242-267 | The function's node carries the labelled `nop` naming it in front of the body's code |
| Semantics.VariablesInExact | E6/semantica.c:656-678 | The data segment lists exactly the variables of the base table, none twice |
| Actions.Compiler.constructor | E6/semantica.c:7-11 | No scope, both offsets 0, registers from 1000, labels from 0 |
| Actions.Compiler.ProcessDeclaration | E6/semantica.c:18-33 | In the base scope the symbol is global at `offset_global`, elsewhere local at `offset_local`; that counter grows by 4 |
| Actions.Compiler.NewLeaf | E6/semantica.c:40-68 | The leaf is the LeafCode node; only an integer literal draws a register |
| Actions.Compiler.NewUnary | E6/semantica.c:71-118 | The unary node over the registers drawn, result first |
| Actions.Compiler.NewBinary | E6/semantica.c:121-178 | The binary node; a recognised operator draws one register |
| Actions.Compiler.BinaryOperation | E6/semantica.c:644-650 | The result is the BinaryExpression function of the inputs |
| Actions.Compiler.UseVariable | E6/semantica.c:612-641 | The result is the VariableUse function of the lookup; a success draws one register |
| Actions.Compiler.AssignCommand | E6/semantica.c:286-316 | The result is the Assign function of the lookup, the null-register path included; nothing is drawn |
| Actions.Compiler.ArgTypeMismatch | E6/semantica.c:352-368 | The loop finds FirstMismatch of parameters and arguments |
| Actions.Compiler.RechainCodes | E6/semantica.c:370-386 | The loop leaves the code fields re-chained: the first argument carries its own list followed by the second's, each middle one the next one's, the last none (Semantics.RechainedShape) |
| Actions.Compiler.CallFunction | E6/semantica.c:319-405 | The result is the Call function of the lookup and arguments; nothing is drawn |
| Actions.Compiler.ReturnCommand | E6/semantica.c:408-439 | The result is the Return function, checked against the innermost scope's return type, the null-register path included |
| Actions.Compiler.IfCommand | E6/semantica.c:442-509 | The result is the Conditional function over three distinct new labels, which are drawn even when the condition holds no register |
| Actions.Compiler.WhileCommand | E6/semantica.c:511-556 | The result is the While function over three distinct new labels, which are drawn even when the condition holds no register; no register is drawn |
| Actions.Compiler.InsertVariable | E6/semantica.c:559-568 | Insert into the top scope, then place; the redeclaration and empty-stack errors leave the stack as it was |
| Actions.Compiler.DeclareVariable | E6/semantica.c:571-609 | The variable is placed before the initialiser's type check; a well-typed initialiser gives the Initialization node over one new register |
| Actions.Compiler.DeclareParam | E6/semantica.c:270-283 | The parameter is inserted as an unplaced variable and listed with its type |
| Actions.Compiler.DeclareParamPlaced | E6/semantica.c:270-283 | Corrected parameter declaration: errors as for DeclareParam; on success the parameter is inserted placed at the next offset of its storage class, global only in the base scope |
| Actions.Compiler.DeclareFunction | E6/semantica.c:211-220 | The function goes into the current scope; a new scope with its return type and name is pushed |
| Actions.Compiler.UpdateArgs | E6/semantica.c:223-239 | Inside a function, its symbol in the parent scope gets the parameter list and its length; otherwise nothing changes |
| Actions.Compiler.DefineFunction | E6/semantica.c:242-267 | Pops the function's scope and returns the FunctionDefinition node |
| Actions.Compiler.PushScope | E6/semantica.c:193-195 | Push, keeping the invariant |
| Actions.Compiler.PopScope | E6/semantica.c:198-200 | Pop, keeping the invariant |
| Actions.Compiler.PopAllScopes | E6/semantica.c:203-208 | Pops until no scope is left |
| Actions.Compiler.DataSegment | E6/semantica.c:656-678 | Emits exactly the variables of the base table (VariablesIn); nothing without a stack |
| SemanticsE5.MnemonicsAreOpcodeNames | E5/semantica.c:114-204 | E5's twelve operator strings are the printed names of the opcodes E6 selects |
| SemanticsE5.UnaryTempsE5 | E5/semantica.c:71-111 | E5 draws one register for `+` and `-`, two for `!`, none otherwise |
| SemanticsE5.UnaryStagesAgree | E5/semantica.c:71-111 | E5 and E6 build the same `-` and `!` nodes; for `+` E5 adds a copy into a new register where E6 passes the operand through |
| SemanticsE5.BinaryStagesSwapOperands | E5/semantica.c:114-204 | For a recognised operator E5 emits E6's instructions with the operands' code swapped: right first |
| SemanticsE5.VariableUseStagesAgree | E5/semantica.c:594-622 | The stages fail on the same uses with the same error; a success differs only in E6's global name |
| SemanticsE5.AssignStoresE5 | E5/semantica.c:298-325 | An E5 assignment fails exactly as E6's does, and a success stores the expression's register into the variable |
| SemanticsE5.ReturnEmitsNothingE5 | E5/semantica.c:417-425 | E6's checks; a success emits no instruction of its own and has no register |
| SemanticsE5.FunctionDefinitionStagesAgree | E5/semantica.c:268-279 | E6 adds exactly the labelled `nop` in front of E5's code |
| SemanticsE5.InitializationStoresE5 | E5/semantica.c:554-591 | The declaration node stores the initialiser's register after its code, with no global name |
| SemanticsE5.NewUnaryE5 | E5/semantica.c:71-111 | The UnaryE5 node over the registers drawn |
| SemanticsE5.NewBinaryE5 | E5/semantica.c:114-204 | The BinaryE5 node; a recognised operator draws one register |
| SemanticsE5.BinaryOperationE5 | E5/semantica.c:625-631 | The BinaryExpressionE5 function of the inputs |
| SemanticsE5.UseVariableE5 | E5/semantica.c:594-622 | The VariableUseE5 function of the lookup; a success draws one register |
| SemanticsE5.AssignCommandE5 | E5/semantica.c:298-325 | The AssignE5 function of the lookup |
| SemanticsE5.ReturnCommandE5 | E5/semantica.c:417-425 | The ReturnE5 function against the innermost scope's return type |
| SemanticsE5.DefineFunctionE5 | E5/semantica.c:268-279 | Pops the function's scope and returns the FunctionDefinitionE5 node |
| SemanticsE5.InsertEntryE5 | E5/semantica.c:554-558 | Inserts the `create_entry_var` defaults, unplaced; redeclaration and empty stack are errors |
| SemanticsE5.PlaceEntryE5 | E5/semantica.c:23-33 | Places the inserted entry and stores it back into the top scope |
| SemanticsE5.DeclareVariableE5 | E5/semantica.c:554-591 | The variable is placed only when an initialiser is present; with no initialiser it keeps global offset 0 |
| SemanticsE5.DeclareGlobalThenLocalE5 | E5/semantica.c:543-591 | A global `g` then a local `x` with no initialiser: `x` finds global offset 0, `g`'s place |
| SemanticsE5.LocalAliasesGlobalE5 | E5/semantica.c:594-622 | Loading `x` and loading `g` read the same place, `rbss` at offset 0 |
| SemanticsE5.DeclareGlobalThenLocalE6 | E6/semantica.c:559-609 | The same program in E6 places `x` local at offset 0 |
| SemanticsE5.LocalOwnPlaceE6 | E6/semantica.c:612-641 | In E6 the two loads read different places |
| TreeE4.TreeNode.constructor | E4/asd.c:7-19 | A node with the given text, type and line, and no children |
| TreeE4.AddChild | E4/asd.c:36-45 | With both arguments present the child becomes the last child and nothing else changes; a missing argument changes nothing |
| TreeE4.DetachChildren | E4/asd.c:51-62 | The node forgets its children; the children are unchanged |
| TreeE4.PostOrder | E4/asd.c:21-34 | The release order is never empty and ends with the node itself, released after its children |
| TreeE4.ReleasesSubtrees | E4/asd.c:21-34 | A node is released after all its children, and every node of every child's subtree is released |
| TreeE4.Free | E4/asd.c:21-34 | Returns the nodes released, in PostOrder; a missing tree releases nothing |
| SemanticsE4.NewLeaf | E4/semantica.c:11-17 | A fresh childless node with the lexeme, type and line |
| SemanticsE4.NewUnary | E4/semantica.c:20-25 | A fresh operator node at the child's line with the child as its only child |
| SemanticsE4.NewBinary | E4/semantica.c:28-34 | A fresh operator node at the first child's line with both children in order |
| SemanticsE4.BinaryExpression | E4/semantica.c:288-294 | Fails exactly when the operand types differ; otherwise a node of that type |
| SemanticsE4.CheckerE4.constructor | E4/semantica.c:4 | The stack starts with no scope |
| SemanticsE4.CheckerE4.PushScope | E4/semantica.c:49-51 | Pushes an empty scope whose return type is the unwritten value |
| SemanticsE4.CheckerE4.PopScope | E4/semantica.c:54-56 | Pops the top scope |
| SemanticsE4.CheckerE4.PopAllScopes | E4/semantica.c:59-64 | Pops until no scope is left |
| SemanticsE4.CheckerE4.DeclareFunction | E4/semantica.c:67-76 | Declares the function in the current scope, then pushes its scope with the function's return type and name |
| SemanticsE4.CheckerE4.DefineFunction | E4/semantica.c:79-103 | The function's symbol gets the parameter list and its counted length, the scope is popped, and the node is a leaf with the body as child |
| SemanticsE4.CheckerE4.DeclareParam | E4/semantica.c:106-119 | The parameter is declared as a variable and listed with its type |
| SemanticsE4.CheckerE4.Assign | E4/semantica.c:122-134 | Errors in the order undeclared, function, type; otherwise a `:=` node over the identifier and the expression |
| SemanticsE4.CheckerE4.UseVariable | E4/semantica.c:276-285 | Unknown name and function are errors; a variable becomes a leaf of its declared type |
| SemanticsE4.CheckerE4.Return | E4/semantica.c:226-234 | The expression's type must equal the stated type, which must equal the scope's return type; otherwise a `retorna` node |
| SemanticsE4.CheckerE4.Conditional | E4/semantica.c:237-249 | The blocks must agree only when both exist; a `se` node over the condition and the blocks present |
| SemanticsE4.CheckerE4.DeclareVariable | E4/semantica.c:252-273 | Declares the variable; an initialiser must have its type and gives a `com` node |
| SemanticsE4.CheckerE4.ArgTypeMismatch | E4/semantica.c:169-187 | The loop finds the first type difference while parameters last (FirstMismatch) |
| SemanticsE4.CheckerE4.Rechain | E4/semantica.c:199-204 | Every argument but the first becomes the last child of the argument before it |
| SemanticsE4.CheckerE4.CheckCall | E4/semantica.c:139-187 | Lookup, nature, count and type checks in order (CallError) |
| SemanticsE4.CheckerE4.Restructure | E4/semantica.c:193-218 | The first argument becomes the call's only child, the list node is emptied and released |
| SemanticsE4.CheckerE4.Call | E4/semantica.c:137-223 | Fails exactly as CallError says; a success is `call f` of the function's type over the re-chained arguments, with the list node released |
| SemanticsE4.NestedReturnE4 | E4/semantica.c:226-234 | `int f() { { return 1; } }` passes only if the unwritten return type happens to be TIPO_INT |
| SemanticsE4.NestedReturnE6 | E6/semantica.c:408-439 | The same program passes in E6, whose push copies the parent's return type |
| Assembly.RegIdClasses | E6/assembly.c:49-56 | `rN` has number N; `rfp`, `rbss` and `rsp` are -2, -3 and -4; a missing or non-`r` name is -1 |
| Assembly.LocalVarInjective | E6/assembly.c:35-46 | Distinct non-negative multiples of 4 get distinct homes, and exactly those below 16 get a physical register |
| Assembly.FrameSize | E6/assembly.c:138-140 | `(max_reg_idx + 1) * 4` rounded up to a multiple of 16: positive, at least the unrounded size and less than 16 above it |
| Assembly.LabelOpensFrame | E6/assembly.c:110-142 | A label opens a frame exactly when it is `main` or does not start with `L`, and then the frame is allocated |
| Assembly.PeepholeRule | E6/assembly.c:162-202 | A `loadAI` skips its memory read exactly when unlabelled and the cache holds its base and offset; the cache then holds that key |
| Assembly.CacheInvalidation | E6/assembly.c:110-114 | The cache is valid after an instruction exactly when it is a memory operation; a label lowers as on an empty cache |
| Assembly.ReturnTemplate | E6/assembly.c:318-331 | `ret` moves its operand into %eax only when it has one, then pops r14, r13, r12 and rbx, then `leave` and `ret` |
| Assembly.MaxIdsIsMaximum | E6/assembly.c:62-76 | The scan of some operands is at least every register number among them and, if above the start, equals one of them |
| Assembly.InstrMaxIsMaximum | E6/assembly.c:62-76 | One instruction's scan bounds all its register numbers and is one of them or the start |
| Assembly.MaxRegInIsMaximum | E6/assembly.c:59-79 | The scan of the code is the maximum of its start and every register number in it |
| Assembly.Lowering.constructor | E6/assembly.c:17-22 | Register maximum 0, empty cache, nothing printed |
| Assembly.Lowering.InvalidateCache | E6/assembly.c:28-32 | The cache becomes invalid, key (null, -9999) |
| Assembly.Lowering.RaiseToOperands | E6/assembly.c:62-76 | The loop raises the maximum to MaxIds of the operands |
| Assembly.Lowering.CalcStackSize | E6/assembly.c:59-79 | The loops raise the maximum to MaxRegIn of the code |
| Assembly.Lowering.TranslateBody | E6/assembly.c:144-342 | Prints the Template of the instruction for the current cache, and moves the cache to NextCache |
| Assembly.Lowering.TranslateInstruction | E6/assembly.c:107-343 | Prints exactly Step's lines and leaves Step's cache |
| Assembly.Lowering.GenerateAssembly | E6/assembly.c:349-372 | A missing list prints nothing; otherwise the scan, then exactly Lower of the code on the scanned maximum |
| Peephole.MemoryOpLeavesValue | E6/assembly.c:162-236 | Without the cache, a memory operation leaves its cell's value in %eax from any state |
| Peephole.SkipIsHarmless | E6/assembly.c:162-202 | When %eax holds the cached cell, the skipped read changes no state |
| Peephole.CacheInvariant | E6/assembly.c:107-343 | The cached and uncached lowerings reach the same state, and a valid cache names a cell whose value is in %eax |
| Peephole.ElisionSound | E6/assembly.c:162-202 | When every cell is named consistently, the lowering with the cache leaves %eax and every cell as the lowering without it |
| Peephole.FrameKeysAgree | E6/assembly.c:35-46 | Outside the data segment the cell depends only on the offset, so names always agree |
| Parameters.GlobalThenParam | E6/semantica.c:270-283 | After a global `g` and a function's parameter `p`, `g` is placed at global offset 0 and `p` finds `create_entry_var`'s defaults, global at offset 0 |
| Parameters.ParamSharesGlobalKey | E6/semantica.c:612-641 | In that program the loads of `g` and `p` are both `loadAI rbss, 0`, each under its own name |
| Parameters.LoadIsLowerable | E6/assembly.c:162-202 | A `loadAI` of `rbss` or `rfp` at a non-negative offset into a generated register is lowerable, and its destination is that register's home |
| Parameters.SharedKeyDisagrees | E6/assembly.c:170-200 | Those two loads share the cache key (`rbss`, 0) but name different cells |
| Parameters.SameKeyCachedLines | E6/assembly.c:170-200 | Two unlabelled loads with one key: with the cache the second read is dropped |
| Parameters.SameKeyUncachedLines | E6/assembly.c:162-202 | Without the cache each load reads its own cell, then writes its destination |
| Parameters.SharedKeyRuns | E6/assembly.c:162-202 | From a state where `g` holds 1 and `p` holds 2, the cached lines leave 1 in %eax and the uncached 2 |
| Parameters.ParamReadElided | E6/assembly.c:170-200 | For that program the cache changes the result: %eax ends with `g`'s value instead of `p`'s |
| Parameters.GlobalThenPlacedParam | E6/semantica.c:270-283 | With the corrected declaration, `p` is local at offset 0 and `g` global at offset 0 |
| Parameters.PlacedParamOwnKey | E6/semantica.c:612-641 | Then `g` loads from `rbss` and `p` from `rfp`, both at offset 0 |
| Parameters.DistinctKeysAgree | E6/assembly.c:170-200 | Two memory operations with different keys never disagree on a key |
| Parameters.PlacedParamLowersSoundly | E6/assembly.c:162-202 | Those loads have different keys, so the cached and uncached lowerings reach the same state from every state |
| Frames.PrologueLayout | E6/assembly.c:127-140 | The prologue sets %rbp to the entry %rsp minus 8, saves the old %rbp there and rbx, r12, r13, r14 below it, and leaves %rsp 32 bytes and the frame size below %rbp |
| Frames.PrologueAligns | E6/assembly.c:138-140 | Section 3.2.2 of the System V AMD64 psABI: from an aligned call the prologue leaves %rsp a multiple of 16 |
| Frames.EpilogueAsWritten | E6/assembly.c:318-331 | After a prologue the return sequence restores %rbp and %rsp, but pops r14 from the word 40 bytes and the frame size below the entry %rsp; with the smallest frame r12 gets the old r14 and rbx the old r13 |
| Frames.EpilogueClobbersCaller | E6/assembly.c:318-331 | A concrete entry state whose r12 and rbx are not restored |
| Frames.CorrectedEpilogueRestores | E6/assembly.c:318-331 | With `leaq -32(%rbp), %rsp` before the pops, every callee-saved register, %rbp and %rsp come back for every frame size |
| Frames.HomesAsWritten | E6/assembly.c:35-46 | Offsets 16 to 28 have homes inside the save area (offset 16 overlaps saved r13); larger offsets lie below it |
| Frames.CorrectedHomesInFrame | E6/assembly.c:35-46 | Homes 32 bytes lower are distinct, lie inside the allocated frame and clear of the save area |
| Frames.TempsApartFromLocals | E6/iloc.c:7 | Generated registers (from 1000) have frame homes distinct from the homes of the first thousand local offsets |

## Left out

- Memory ownership (`free`, `strdup`, `asd_free` in E5/E6, `liberar_*`) is not modelled. Only the release order of E4's `asd_free` is.
- Printing is modelled as values. File headers and directives (`.file`, `.data`, `.text`, `.ident`, `.section`, the `.globl/.align/.type/.size/.zero` lines of the data segment) are not printed. The data segment is modelled as the list of names it covers.
- The hash tables of uthash are maps. The data segment is emitted in the map's iteration order, which is only a set order here.
- The parser and lexer are not part of this model. Tokens are values.
- E5's `iloc.c` is not part of this model. E5's string opcodes are mapped onto E6's opcodes (SemanticsE5.MnemonicsAreOpcodeNames).
- The tree file of E5/E6 (`asd.c`) is not part of this model. Ast.AddChild takes it to splice the child's code in the given order, as E6's callers use it.
- `atoi` of a literal's text is a parameter of the literal leaf. Reading a lexeme is not modelled.
- Assembly.OperandArg and Assembly.Address: register operands whose number is -1 or -4 (a missing name, `rsp`) and frame offsets below -3 are excluded by requires (Printable, Lowerable); the C code prints an arbitrary home for them.
- Semantics.Unary, Semantics.UnaryCode, Semantics.BinaryOwnCode, Semantics.Binary, Semantics.BinaryCode, Semantics.BinaryExpression, Semantics.BinaryExpressionChecks, Semantics.Initialization, Semantics.InitializationStores, Actions.Compiler.NewUnary, Actions.Compiler.NewBinary, Actions.Compiler.BinaryOperation and Actions.Compiler.DeclareVariable require that an operand a recognised operator reads, or a well-typed initialiser, carries a register. A call operand (`-f(x)`, `f(x) + 1`, or a call as initialiser) reaches `strdup` with a null name there, the path Return, Assign, Conditional and While model as `NullRegister`.
- SemanticsE5.UnaryE5, SemanticsE5.UnaryCodeE5, SemanticsE5.UnaryStagesAgree, SemanticsE5.BinaryE5, SemanticsE5.BinaryCodeE5, SemanticsE5.BinaryStagesSwapOperands, SemanticsE5.BinaryExpressionE5, SemanticsE5.NewUnaryE5, SemanticsE5.NewBinaryE5, SemanticsE5.BinaryOperationE5, SemanticsE5.AssignE5, SemanticsE5.AssignStoresE5, SemanticsE5.AssignCommandE5, SemanticsE5.InitializationE5, SemanticsE5.InitializationStoresE5 and SemanticsE5.DeclareVariableE5 carry the same requirement. What E5's operand builders do with a null name is not known here, since E5's `iloc.c` is not part of this model.
- Types.ExitCode: the null-register outcome is given the status 139 (128 + SIGSEGV) that glibc's `strdup` of a null pointer produces; the C language leaves it undefined.
- Scopes.CreateEntryFun: the storage fields the C code leaves unset on a function are given fixed values. They are never read for a function.
- E4/tabelaSimbolos.h:31-35 declares `EscopoPilha` without a `funcao_atual` field, which E4/semantica.c:75 writes and E4/semantica.c:81-90 reads. The model gives every scope the field (`Scope.currentFunction`; E4's push sets it to none).
- E4/semantica.h:57 declares `semantica_expressoes_binarias` with an extra line-number parameter that the definition at E4/semantica.c:288 lacks; the model follows the definition.
- SemanticsE4.CheckerE4.PushScope: the return type E4 leaves unwritten is a parameter (`indeterminate`), since its real value is whatever memory held.
- E4's `criar_no_folha` with a null token is not modelled; every caller passes a token.
- IlocList.PrintCode walks the node chain but returns lines as values. The text format of each line is abstracted to the instruction itself.
- Peephole.MovState models only what `movl` moves. Other instructions make %eax unknown. Only straight-line runs are executed, which is what reaches an elided read, since a label empties the cache.
- Frames.Machine executes only the prologue and return sequence, on 8-byte words. It takes a function body to leave %rsp and %rbp as the prologue left them.
- Homes in the frame are compared as byte spans. The store widths of `movl` and `pushq` are not modelled beyond that.
- Assembly.Lowering.GenerateAssembly walks the list through its contents sequence rather than the `next` chain.

## Findings

| source | as written | input that shows it | evidently intended | confidence | as-written member | corrected member |
|---|---|---|---|---|---|---|
| E5/semantica.c:554-591 | A declaration without an initialiser is inserted but never placed, so it keeps `create_entry_var`'s global offset 0 | `int g; int f() { int x; ... x ... }`: `x` reads `rbss` offset 0, the place of `g` | Place every declaration, as E6 does for declarations | not executed | SemanticsE5.LocalAliasesGlobalE5 | SemanticsE5.LocalOwnPlaceE6 |
| E4/tabelaSimbolos.c:10-16 | `stack_push` never writes the new scope's return type | `int f() { { return 1; } }`: the return in the inner block is checked against uninitialised memory | Copy the parent's return type, as E5/E6 do | not executed | SemanticsE4.NestedReturnE4 | SemanticsE4.NestedReturnE6 |
| E6/assembly.c:318-331 | The pops of the callee-saved registers run with %rsp still below the allocated frame | Any function with a frame: with the smallest frame r12 gets the caller's r14 and rbx the caller's r13 | Reset %rsp to the save area (`leaq -32(%rbp), %rsp`) before popping | not executed | Frames.EpilogueAsWritten | Frames.CorrectedEpilogueRestores |
| E6/assembly.c:35-46 | Frame homes are `-(offset+4)(%rbp)`, which for offsets 16 to 28 lie on the saved registers | The fifth local (offset 16) is stored at -20(%rbp), inside the word of the saved r13 | Homes below the 32-byte save area | not executed | Frames.HomesAsWritten | Frames.CorrectedHomesInFrame |
| E6/semantica.c:270-283 | A parameter is inserted but never placed, so it keeps `create_entry_var`'s global offset 0; its loads read `rbss` offset 0 under its own name, printed as `p(%rip)`, a symbol the data segment never emits | `int g; int f(int p) { return g + p; }`: `g` and `p` both load from (`rbss`, 0), and the one-entry cache, keyed on base and offset (E6/assembly.c:170-200), skips the read of `p` | Place a parameter like every other declaration | not executed | Parameters.ParamReadElided | Parameters.PlacedParamLowersSoundly |
