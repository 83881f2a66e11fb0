// The intermediate-code stage (E5): the node builders and actions that differ
// from the code-generating stage. E5 names its opcodes by string, evaluates
// the right operand of a binary operator first, copies the operand of unary
// `+`, emits no instruction for `return`, attaches no symbol name to loads and
// stores, and places a declared variable only when it has an initialiser.
// The remaining actions of E5 are the same text as their E6 counterparts and
// are modelled by `Actions`.

module SemanticsE5 {
  import opened Types
  import opened Iloc
  import opened Ast
  import opened Scopes
  import opened Semantics
  import Names
  import Actions

  /** The opcode string E5's `criar_no_binario` passes to `criar_aritmetica` or `criar_comparacao`. */
  function BinaryMnemonic(op: string): Option<string>
  {
    if op == "+" then Some("add")
    else if op == "-" then Some("sub")
    else if op == "*" then Some("mult")
    else if op == "/" then Some("div")
    else if op == "<" then Some("cmp_LT")
    else if op == ">" then Some("cmp_GT")
    else if op == "<=" then Some("cmp_LE")
    else if op == ">=" then Some("cmp_GE")
    else if op == "==" then Some("cmp_EQ")
    else if op == "!=" then Some("cmp_NE")
    else if op == "&" then Some("and")
    else if op == "|" then Some("or")
    else None
  }

  /**
   * E5 recognises the same twelve operators as E6, and each string it emits
   * is the printed name of the opcode E6 selects: E5's string opcodes are
   * represented here by that opcode.
   */
  lemma MnemonicsAreOpcodeNames(op: string)
    ensures BinaryMnemonic(op).Some? <==> BinaryOpcode(op).Some?
    ensures BinaryMnemonic(op).Some? ==> BinaryMnemonic(op).value == OpcodeName(BinaryOpcode(op).value)
  {
  }

  /** The three unary labels that E5 gives code and a register of their own. */
  predicate UnaryOwnsTemp(op: string)
  {
    op == "+" || op == "-" || op == "!"
  }

  /** The registers E5's `criar_no_unario` draws: one for `+` and `-`, two for `!`, none otherwise. */
  function UnaryTempsE5(op: string): (k: nat)
    ensures k == 0 <==> !UnaryOwnsTemp(op)
  {
    if op == "+" || op == "-" then 1 else if op == "!" then 2 else 0
  }

  /**
   * E5's `criar_no_unario`: `+` copies the operand with `i2i`, `-` and `!`
   * are as in E6; the child's code is placed in front. Any other label gets
   * neither code nor a register, so the node carries only the child's code.
   */
  function UnaryE5(op: string, dtype: DataType, child: Node, dest: string, zero: string): Node
    requires UnaryOwnsTemp(op) ==> child.temp.Some?
  {
    var own :=
      if op == "+" then Some([MakeI2I(child.temp.value, dest)])
      else if op == "-" then Some([MakeRsubI(0, child.temp.value, dest)])
      else if op == "!" then Some([MakeLoadI(0, zero), MakeBinary(CmpEQ, zero, child.temp.value, dest)])
      else None;
    var order := if UnaryOwnsTemp(op) then Inv else Norm;
    AddChild(Node(op, dtype, child.line, [], if UnaryOwnsTemp(op) then Some(dest) else None, own), child, order)
  }

  lemma UnaryCodeE5(op: string, dtype: DataType, child: Node, dest: string, zero: string)
    requires UnaryOwnsTemp(op) ==> child.temp.Some?
    ensures var n := UnaryE5(op, dtype, child, dest, zero);
      n.text == op && n.dtype == dtype && n.children == [child.(code := None)] &&
      (op == "+" ==> n.temp == Some(dest) && Flat(n.code) == Flat(child.code) + [MakeI2I(child.temp.value, dest)]) &&
      (op == "-" ==> n.temp == Some(dest) && Flat(n.code) == Flat(child.code) + [MakeRsubI(0, child.temp.value, dest)]) &&
      (op == "!" ==> n.temp == Some(dest) &&
                     Flat(n.code) == Flat(child.code) + [MakeLoadI(0, zero), MakeBinary(CmpEQ, zero, child.temp.value, dest)]) &&
      (!UnaryOwnsTemp(op) ==> n.temp.None? && Flat(n.code) == Flat(child.code))
  {
  }

  /**
   * The two stages build the same `-` and `!` nodes; for `+`, E6 passes the
   * operand's register and code through, where E5 adds a copy into a
   * register of its own.
   */
  lemma UnaryStagesAgree(op: string, dtype: DataType, child: Node, dest: string, zero: string)
    requires UnaryOwnsTemp(op) ==> child.temp.Some?
    ensures op == "-" || op == "!" ==>
      var e5 := UnaryE5(op, dtype, child, dest, zero);
      var e6 := Unary(op, dtype, child, dest, zero);
      e5.temp == e6.temp && Flat(e5.code) == Flat(e6.code) && e5.children == e6.children
    ensures op == "+" ==>
      var e5 := UnaryE5(op, dtype, child, dest, zero);
      var e6 := Unary(op, dtype, child, dest, zero);
      e6.temp == child.temp && e5.temp == Some(dest) &&
      Flat(e5.code) == Flat(e6.code) + [MakeI2I(child.temp.value, dest)]
  {
    UnaryCode(op, dtype, child, dest, zero);
    UnaryCodeE5(op, dtype, child, dest, zero);
  }

  /**
   * E5's `criar_no_binario`: a recognised operator splices both operands in
   * front of its instruction, left then right, so the right operand's code
   * comes first. With any other label both operands' code is kept, in order,
   * and the node has no register.
   */
  function BinaryE5(op: string, dtype: DataType, left: Node, right: Node, dest: string): Node
    requires BinaryOpcode(op).Some? ==> left.temp.Some? && right.temp.Some?
  {
    var own := BinaryOwnCode(op, left, right, dest);
    var order := if own.Some? then Inv else Norm;
    var no := Node(op, dtype, left.line, [], if own.Some? then Some(dest) else None, own);
    AddChild(AddChild(no, left, order), right, order)
  }

  lemma BinaryCodeE5(op: string, dtype: DataType, left: Node, right: Node, dest: string)
    requires BinaryOpcode(op).Some? ==> left.temp.Some? && right.temp.Some?
    ensures var n := BinaryE5(op, dtype, left, right, dest);
      n.text == op && n.dtype == dtype && n.line == left.line &&
      n.children == [left.(code := None), right.(code := None)] &&
      (BinaryOpcode(op).Some? ==>
         n.temp == Some(dest) &&
         Flat(n.code) == Flat(right.code) + Flat(left.code) +
                         [MakeBinary(BinaryOpcode(op).value, left.temp.value, right.temp.value, dest)]) &&
      (BinaryOpcode(op).None? ==> n.temp.None? && Flat(n.code) == Flat(left.code) + Flat(right.code))
  {
    BinaryOpcodeKind(op);
  }

  /**
   * For a recognised operator the two stages emit the same instructions with
   * the operands' code swapped: E5 runs the right operand first.
   */
  lemma BinaryStagesSwapOperands(op: string, dtype: DataType, left: Node, right: Node, dest: string)
    requires BinaryOpcode(op).Some? && left.temp.Some? && right.temp.Some?
    ensures var e5 := BinaryE5(op, dtype, left, right, dest);
      var e6 := Binary(op, dtype, left, right, dest);
      var own := [MakeBinary(BinaryOpcode(op).value, left.temp.value, right.temp.value, dest)];
      e5.temp == e6.temp && e5.children == e6.children &&
      Flat(e6.code) == Flat(left.code) + Flat(right.code) + own &&
      Flat(e5.code) == Flat(right.code) + Flat(left.code) + own
  {
    BinaryCode(op, dtype, left, right, dest);
    BinaryCodeE5(op, dtype, left, right, dest);
  }

  /** E5's `semantica_expressoes_binarias`. */
  function BinaryExpressionE5(op: string, left: Node, right: Node, dest: string): Result<Node>
    requires left.dtype == right.dtype && BinaryOpcode(op).Some? ==> left.temp.Some? && right.temp.Some?
  {
    if left.dtype != right.dtype then Err(WrongTypeBinaryOp(left.line, left.dtype, right.dtype, op))
    else Ok(BinaryE5(op, left.dtype, left, right, dest))
  }

  /** E5's `semantica_identificador_variavel`: as in E6, but the load carries no symbol name. */
  function VariableUseE5(found: Option<Symbol>, ident: Token, dest: string): Result<Node>
  {
    if VariableUseError(found, ident).Some? then Err(VariableUseError(found, ident).value)
    else
      var entry := found.value;
      Ok(Node(ident.text, entry.dtype, ident.line, [], Some(dest),
              Some([MakeLoadAI(BaseRegister(entry), entry.offset, dest, None)])))
  }

  /**
   * The stages fail on the same uses with the same error, and a successful
   * E5 load differs from E6's only in the symbol name E6 attaches to a global.
   */
  lemma VariableUseStagesAgree(found: Option<Symbol>, ident: Token, dest: string)
    ensures VariableUseE5(found, ident, dest).Err? <==> VariableUse(found, ident, dest).Err?
    ensures VariableUseE5(found, ident, dest).Err? ==>
      VariableUseE5(found, ident, dest).error == VariableUse(found, ident, dest).error
    ensures VariableUseE5(found, ident, dest).Ok? ==>
      var e5 := VariableUseE5(found, ident, dest).value;
      var e6 := VariableUse(found, ident, dest).value;
      e5.temp == e6.temp == Some(dest) && e5.dtype == e6.dtype &&
      e6.code == Some([MakeLoadAI(BaseRegister(found.value), found.value.offset, dest, GlobalName(found.value))]) &&
      e5.code == Some([MakeLoadAI(BaseRegister(found.value), found.value.offset, dest, None)]) &&
      (!found.value.isGlobal ==> e5 == e6)
  {
  }

  /** E5's `semantica_comando_atrib`: as in E6, but the store carries no symbol name. */
  function AssignE5(found: Option<Symbol>, ident: Token, exp: Node): Result<Node>
    requires AssignError(found, ident, exp.dtype).None? ==> exp.temp.Some?
  {
    if AssignError(found, ident, exp.dtype).Some? then Err(AssignError(found, ident, exp.dtype).value)
    else
      var entry := found.value;
      var store := MakeStoreAI(exp.temp.value, BaseRegister(entry), entry.offset, None);
      var leaf := Node(ident.text, entry.dtype, ident.line, [], None, None);
      var no := Node(":=", entry.dtype, ident.line, [], exp.temp, Some([store]));
      Ok(AddChild(AddChild(no, leaf, Norm), exp, Inv))
  }

  /** An E5 assignment fails exactly as E6's does; a success stores the expression's register into the variable's place. */
  lemma AssignStoresE5(found: Option<Symbol>, ident: Token, exp: Node)
    requires AssignError(found, ident, exp.dtype).None? ==> exp.temp.Some?
    ensures AssignE5(found, ident, exp).Err? <==> Assign(found, ident, exp).Err?
    ensures AssignE5(found, ident, exp).Err? ==> AssignE5(found, ident, exp).error == Assign(found, ident, exp).error
    ensures AssignE5(found, ident, exp).Ok? ==>
      var n := AssignE5(found, ident, exp).value;
      var entry := found.value;
      n.text == ":=" && n.dtype == entry.dtype && n.temp == exp.temp &&
      |n.children| == 2 && n.children[0].text == ident.text && n.children[1] == exp.(code := None) &&
      Flat(n.code) == Flat(exp.code) + [MakeStoreAI(exp.temp.value, BaseRegister(entry), entry.offset, None)]
  {
    if AssignE5(found, ident, exp).Ok? {
      var entry := found.value;
      var store := MakeStoreAI(exp.temp.value, BaseRegister(entry), entry.offset, None);
      var leaf := Node(ident.text, entry.dtype, ident.line, [], None, None);
      var no := Node(":=", entry.dtype, ident.line, [], exp.temp, Some([store]));
      var n1 := AddChild(no, leaf, Norm);
      assert Flat(n1.code) == [store];
    }
  }

  /**
   * E5's `semantica_comando_ret`: the two type checks, then the unary node
   * `retorna`, a label E5's `criar_no_unario` does not recognise.
   */
  function ReturnE5(exp: Node, dtype: DataType, scopeType: DataType): Result<Node>
  {
    if ReturnError(exp.line, exp.dtype, dtype, scopeType).Some? then Err(ReturnError(exp.line, exp.dtype, dtype, scopeType).value)
    else Ok(UnaryE5("retorna", exp.dtype, exp, "", ""))
  }

  /** The checks are E6's; a success emits no return instruction and has no register: its code is the expression's. */
  lemma ReturnEmitsNothingE5(exp: Node, dtype: DataType, scopeType: DataType)
    ensures ReturnE5(exp, dtype, scopeType).Err? <==> ReturnError(exp.line, exp.dtype, dtype, scopeType).Some?
    ensures ReturnE5(exp, dtype, scopeType).Err? ==> ReturnE5(exp, dtype, scopeType).error == ReturnError(exp.line, exp.dtype, dtype, scopeType).value
    ensures ReturnE5(exp, dtype, scopeType).Ok? ==>
      var n := ReturnE5(exp, dtype, scopeType).value;
      n.text == "retorna" && n.temp.None? && n.children == [exp.(code := None)] &&
      Flat(n.code) == Flat(exp.code) &&
      forall i :: 0 <= i < |Flat(n.code)| ==> Flat(n.code)[i] in Flat(exp.code)
  {
    if ReturnError(exp.line, exp.dtype, dtype, scopeType).None? {
      UnaryCodeE5("retorna", exp.dtype, exp, "", "");
    }
  }

  /** E5's `semantica_funcao_definicao`: the function's leaf takes the body's code, with no label of its own. */
  function FunctionDefinitionE5(ident: Token, dtype: DataType, body: Option<Node>): Node
  {
    var no := Leaf(ident, dtype, Function, "");
    if body.Some? then AddChild(no, body.value, Norm) else no
  }

  /** E6 adds exactly the labelled `nop` naming the function in front of E5's code. */
  lemma FunctionDefinitionStagesAgree(ident: Token, dtype: DataType, body: Option<Node>)
    ensures var e5 := FunctionDefinitionE5(ident, dtype, body);
      var e6 := FunctionDefinition(ident, dtype, body);
      e5.text == e6.text == ident.text && e5.temp.None? && e5.children == e6.children &&
      Flat(e5.code) == (if body.Some? then Flat(body.value.code) else []) &&
      Flat(e6.code) == [MakeLabelledNop(ident.text)] + Flat(e5.code)
  {
    FunctionDefinitionCode(ident, dtype, body);
  }

  /** The node of E5's declaration with an initialiser: as in E6, but the store carries no symbol name. */
  function InitializationE5(ident: Token, dtype: DataType, init: Node, entry: Symbol, dest: string): Node
    requires init.temp.Some?
  {
    var store := MakeStoreAI(init.temp.value, BaseRegister(entry), entry.offset, None);
    var leaf := Node(ident.text, dtype, ident.line, [], None, None);
    var no := Node("com", dtype, ident.line, [], Some(dest), Some([store]));
    AddChild(AddChild(no, leaf, Norm), init, Inv)
  }

  lemma InitializationStoresE5(ident: Token, dtype: DataType, init: Node, entry: Symbol, dest: string)
    requires init.temp.Some?
    ensures var n := InitializationE5(ident, dtype, init, entry, dest);
      n.text == "com" && n.temp == Some(dest) && n.children[1] == init.(code := None) &&
      Flat(n.code) == Flat(init.code) + [MakeStoreAI(init.temp.value, BaseRegister(entry), entry.offset, None)]
  {
    var store := MakeStoreAI(init.temp.value, BaseRegister(entry), entry.offset, None);
    var leaf := Node(ident.text, dtype, ident.line, [], None, None);
    var no := Node("com", dtype, ident.line, [], Some(dest), Some([store]));
    assert Flat(AddChild(no, leaf, Norm).code) == [store];
  }

  // ---------------------------------------------------------------------
  // The E5 actions over the shared state

  /** E5's `criar_no_unario`: the result register, then for `!` the zero register. */
  method NewUnaryE5(c: Actions.Compiler, op: string, dtype: DataType, child: Node) returns (n: Node)
    requires c.Valid() && (UnaryOwnsTemp(op) ==> child.temp.Some?)
    modifies c.names
    ensures c.Valid()
    ensures n == UnaryE5(op, dtype, child, Names.TempName(old(c.names.countTemp)), Names.TempName(old(c.names.countTemp) + 1))
    ensures c.names.countTemp == old(c.names.countTemp) + UnaryTempsE5(op)
    ensures c.names.countLabel == old(c.names.countLabel)
  {
    if op == "+" || op == "-" {
      var t := c.names.NewTemp();
      n := UnaryE5(op, dtype, child, t, Names.TempName(c.names.countTemp));
    } else if op == "!" {
      var t := c.names.NewTemp();
      var zero := c.names.NewTemp();
      n := UnaryE5(op, dtype, child, t, zero);
    } else {
      n := UnaryE5(op, dtype, child, Names.TempName(c.names.countTemp), Names.TempName(c.names.countTemp + 1));
    }
  }

  /** E5's `criar_no_binario`. */
  method NewBinaryE5(c: Actions.Compiler, op: string, dtype: DataType, left: Node, right: Node) returns (n: Node)
    requires c.Valid() && (BinaryOpcode(op).Some? ==> left.temp.Some? && right.temp.Some?)
    modifies c.names
    ensures c.Valid()
    ensures n == BinaryE5(op, dtype, left, right, Names.TempName(old(c.names.countTemp)))
    ensures c.names.countTemp == old(c.names.countTemp) + (if BinaryOpcode(op).Some? then 1 else 0)
    ensures c.names.countLabel == old(c.names.countLabel)
  {
    if BinaryOpcode(op).Some? {
      var t := c.names.NewTemp();
      n := BinaryE5(op, dtype, left, right, t);
    } else {
      n := BinaryE5(op, dtype, left, right, Names.TempName(c.names.countTemp));
    }
  }

  /** E5's `semantica_expressoes_binarias`. */
  method BinaryOperationE5(c: Actions.Compiler, op: string, left: Node, right: Node) returns (r: Result<Node>)
    requires c.Valid() && (left.dtype == right.dtype && BinaryOpcode(op).Some? ==> left.temp.Some? && right.temp.Some?)
    modifies c.names
    ensures c.Valid()
    ensures r == BinaryExpressionE5(op, left, right, Names.TempName(old(c.names.countTemp)))
    ensures c.names.countTemp == old(c.names.countTemp) + (if r.Ok? && BinaryOpcode(op).Some? then 1 else 0)
  {
    if left.dtype != right.dtype {
      return Err(WrongTypeBinaryOp(left.line, left.dtype, right.dtype, op));
    }
    var n := NewBinaryE5(c, op, left.dtype, left, right);
    r := Ok(n);
  }

  /** E5's `semantica_identificador_variavel`. */
  method UseVariableE5(c: Actions.Compiler, ident: Token) returns (r: Result<Node>)
    requires c.Valid()
    modifies c.names
    ensures c.Valid()
    ensures r == VariableUseE5(Find(c.stack.scopes, ident.text), ident, Names.TempName(old(c.names.countTemp)))
    ensures c.names.countTemp == old(c.names.countTemp) + (if r.Ok? then 1 else 0)
  {
    var found := c.stack.Lookup(ident.text);
    if found.None? {
      return Err(Undeclared(ident.text, ident.line));
    }
    if found.value.nature == Function {
      return Err(FunctionAsVariable(ident.text, ident.line));
    }
    var entry := found.value;
    var t := c.names.NewTemp();
    r := Ok(Node(ident.text, entry.dtype, ident.line, [], Some(t),
                 Some([MakeLoadAI(BaseRegister(entry), entry.offset, t, None)])));
  }

  /** E5's `semantica_comando_atrib`. */
  method AssignCommandE5(c: Actions.Compiler, ident: Token, exp: Node) returns (r: Result<Node>)
    requires c.Valid()
    requires AssignError(Find(c.stack.scopes, ident.text), ident, exp.dtype).None? ==> exp.temp.Some?
    ensures r == AssignE5(Find(c.stack.scopes, ident.text), ident, exp)
  {
    var found := c.stack.Lookup(ident.text);
    if found.None? {
      return Err(Undeclared(ident.text, ident.line));
    }
    var entry := found.value;
    if entry.nature == Function {
      return Err(FunctionAsVariable(ident.text, ident.line));
    }
    if entry.dtype != exp.dtype {
      return Err(WrongTypeAssignment(ident.text, ident.line, entry.dtype, exp.dtype));
    }
    var store := MakeStoreAI(exp.temp.value, BaseRegister(entry), entry.offset, None);
    Actions.FoundClassified(c.stack.scopes, ident.text);
    var leaf := Leaf(ident, entry.dtype, entry.nature, "");
    var no := Node(":=", entry.dtype, leaf.line, [], exp.temp, Some([store]));
    no := AddChild(no, leaf, Norm);
    r := Ok(AddChild(no, exp, Inv));
  }

  /** E5's `semantica_comando_ret`: `retorna` draws no register. */
  method ReturnCommandE5(c: Actions.Compiler, exp: Node, dtype: DataType) returns (r: Result<Node>)
    requires c.Valid() && |c.stack.scopes| > 0
    ensures r == ReturnE5(exp, dtype, c.stack.scopes[|c.stack.scopes| - 1].returnType)
  {
    var scopeType := c.stack.scopes[|c.stack.scopes| - 1].returnType;
    if exp.dtype != dtype {
      return Err(WrongTypeReturnExpr(exp.line, exp.dtype, dtype));
    }
    if dtype != scopeType {
      return Err(WrongTypeReturnFunc(exp.line, dtype, scopeType));
    }
    var no := Node("retorna", exp.dtype, exp.line, [], None, None);
    r := Ok(AddChild(no, exp, Norm));
  }

  /** E5's `semantica_funcao_definicao`. */
  method DefineFunctionE5(c: Actions.Compiler, ident: Token, dtype: DataType, body: Option<Node>) returns (n: Node)
    requires c.Valid()
    modifies c.stack
    ensures c.Valid()
    ensures old(c.stack.scopes) == [] ==> c.stack.scopes == []
    ensures old(c.stack.scopes) != [] ==> c.stack.scopes == old(c.stack.scopes)[..|old(c.stack.scopes)| - 1]
    ensures n == FunctionDefinitionE5(ident, dtype, body)
  {
    c.PopScope();
    n := Leaf(ident, dtype, Function, "");
    if body.Some? {
      n := AddChild(n, body.value, Norm);
    }
  }

  /**
   * The symbol E5's `semantica_declaracao_variavel` leaves in the table: it
   * is placed only when there is an initialiser; otherwise it keeps the
   * `create_entry_var` defaults, global at offset 0.
   */
  function DeclaredE5(ident: Token, dtype: DataType, hasInit: bool, global: bool, offsetGlobal: int, offsetLocal: int): Symbol
  {
    if hasInit then Actions.Placed(ident.text, dtype, ident, global, if global then offsetGlobal else offsetLocal)
    else CreateEntryVar(ident.text, dtype, ident)
  }

  /** The insertion E5's `semantica_declaracao_variavel` begins with: the `create_entry_var` defaults, unplaced. */
  method InsertEntryE5(c: Actions.Compiler, ident: Token, dtype: DataType) returns (r: Result<Symbol>)
    requires c.Valid()
    modifies c.stack
    ensures c.Valid()
    ensures old(c.stack.scopes) == [] ==> r == Err(Internal)
    ensures old(c.stack.scopes) != [] && ident.text in old(c.stack.scopes)[|old(c.stack.scopes)| - 1].table ==>
      r == Err(Declared(ident.text, ident.line, old(c.stack.scopes)[|old(c.stack.scopes)| - 1].table[ident.text].token.line))
    ensures old(c.stack.scopes) != [] && ident.text !in old(c.stack.scopes)[|old(c.stack.scopes)| - 1].table ==>
      r == Ok(CreateEntryVar(ident.text, dtype, ident)) &&
      c.stack.scopes == Inserted(old(c.stack.scopes), CreateEntryVar(ident.text, dtype, ident))
  {
    var entry := CreateEntryVar(ident.text, dtype, ident);
    var out := c.stack.Insert(ident.text, entry);
    if out.Fail? {
      return Err(out.error);
    }
    Actions.InsertedClassified(old(c.stack.scopes), entry);
    r := Ok(entry);
  }

  /** The placing E5 does only for a declaration with an initialiser: `processar_declaracao_var`, then the update of the top scope. */
  method PlaceEntryE5(c: Actions.Compiler, ghost before: seq<Scope>, entry: Symbol) returns (placed: Symbol)
    requires c.Valid() && |before| > 0 && Actions.Classified(before) && entry.nature == Identifier
    requires c.stack.scopes == Inserted(before, entry)
    modifies c, c.stack
    ensures c.Valid()
    ensures var global := |before| == 1;
      placed == entry.(isGlobal := global, offset := if global then old(c.offsetGlobal) else old(c.offsetLocal))
    ensures c.stack.scopes == Inserted(before, placed)
  {
    placed := c.ProcessDeclaration(entry);
    c.stack.Update(|c.stack.scopes| - 1, placed);
    Actions.PlacedInTop(before, entry, placed, c.stack.scopes);
    Actions.InsertedClassified(before, placed);
  }

  /**
   * E5's `semantica_declaracao_variavel`, as written: insert, then, only for
   * an initialiser, check its type, place the variable and store into it.
   */
  method DeclareVariableE5(c: Actions.Compiler, ident: Token, dtype: DataType, init: Option<Node>) returns (r: Result<Option<Node>>)
    requires c.Valid()
    requires init.Some? && init.value.dtype == dtype ==> init.value.temp.Some?
    modifies c, c.stack, c.names
    ensures c.Valid()
    ensures old(c.stack.scopes) == [] ==> r == Err(Internal)
    ensures old(c.stack.scopes) != [] && ident.text in old(c.stack.scopes)[|old(c.stack.scopes)| - 1].table ==>
      r == Err(Declared(ident.text, ident.line, old(c.stack.scopes)[|old(c.stack.scopes)| - 1].table[ident.text].token.line))
    ensures old(c.stack.scopes) != [] && ident.text !in old(c.stack.scopes)[|old(c.stack.scopes)| - 1].table ==>
      var global := |old(c.stack.scopes)| == 1;
      (init.None? ==>
         r == Ok(None) &&
         c.stack.scopes == Inserted(old(c.stack.scopes), DeclaredE5(ident, dtype, false, global, old(c.offsetGlobal), old(c.offsetLocal))) &&
         c.offsetGlobal == old(c.offsetGlobal) && c.offsetLocal == old(c.offsetLocal) &&
         c.names.countTemp == old(c.names.countTemp)) &&
      (init.Some? && init.value.dtype != dtype ==>
         r == Err(WrongTypeInitialization(ident.text, ident.line, dtype, init.value.dtype))) &&
      (init.Some? && init.value.dtype == dtype ==>
         var placed := DeclaredE5(ident, dtype, true, global, old(c.offsetGlobal), old(c.offsetLocal));
         c.stack.scopes == Inserted(old(c.stack.scopes), placed) &&
         r == Ok(Some(InitializationE5(ident, dtype, init.value, placed, Names.TempName(old(c.names.countTemp))))))
  {
    var inserted := InsertEntryE5(c, ident, dtype);
    if inserted.Err? {
      return Err(inserted.error);
    }
    var entry := inserted.value;
    if init.None? {
      return Ok(None);
    }
    var atrib := init.value;
    if atrib.dtype != dtype {
      return Err(WrongTypeInitialization(ident.text, ident.line, dtype, atrib.dtype));
    }
    var placed := PlaceEntryE5(c, old(c.stack.scopes), entry);
    assert placed == DeclaredE5(ident, dtype, true, |old(c.stack.scopes)| == 1, old(c.offsetGlobal), old(c.offsetLocal));
    var t := c.names.NewTemp();
    var store := MakeStoreAI(atrib.temp.value, BaseRegister(placed), placed.offset, None);
    var leaf := Leaf(ident, dtype, Identifier, "");
    var no := Node("com", dtype, leaf.line, [], Some(t), Some([store]));
    no := AddChild(no, leaf, Norm);
    r := Ok(Some(AddChild(no, atrib, Inv)));
  }

  // ---------------------------------------------------------------------
  // A local declared without an initialiser shares the first global's place

  /**
   * The start the scenarios share: the global scope, a global `g` placed at
   * offset 0 of the data segment, then the function `f` and its scope.
   */
  method OpenGlobalThenFunction() returns (c: Actions.Compiler, ghost s1: seq<Scope>, ghost s2: seq<Scope>)
    ensures fresh(c) && fresh(c.stack) && fresh(c.names) && c.Valid()
    ensures c.offsetLocal == 0 && |s1| == 1 && c.names.countTemp == 1000
    ensures s2 == Inserted(s1, Actions.Placed("g", Int, Token(1, 0, "g"), true, 0))
    ensures |c.stack.scopes| == 2 && c.stack.scopes[..1] == Inserted(s2, CreateEntryFun("f", Int, Token(2, 0, "f")))
    ensures c.stack.scopes[1].table == map[] && "x" !in c.stack.scopes[1].table
  {
    c := new Actions.Compiler();
    c.PushScope();
    s1 := c.stack.scopes;
    var tg := Token(1, 0, "g");
    assert |s1| == 1 && s1[0].table == map[] && c.offsetGlobal == 0 && c.offsetLocal == 0;
    var g := c.InsertVariable(tg, Int);
    s2 := c.stack.scopes;
    assert s2 == Inserted(s1, Actions.Placed("g", Int, tg, true, 0)) && c.offsetLocal == 0;
    var tf := Token(2, 0, "f");
    assert s2[0].table == map["g" := Actions.Placed("g", Int, tg, true, 0)];
    var f := c.DeclareFunction(tf, Int);
    ghost var outer := Inserted(s2, CreateEntryFun("f", Int, tf));
    assert c.stack.scopes == outer + [NewScope(outer).(returnType := Int, currentFunction := Some("f"))];
  }

  /**
   * A global `g`, then a function `f` whose body declares `x` with no
   * initialiser, all through E5: `x` finds the defaults of
   * `create_entry_var`, global at offset 0, which is where `g` was placed.
   */
  method DeclareGlobalThenLocalE5() returns (c: Actions.Compiler)
    ensures fresh(c) && fresh(c.stack) && fresh(c.names) && c.Valid()
    ensures Find(c.stack.scopes, "g") == Some(Actions.Placed("g", Int, Token(1, 0, "g"), true, 0))
    ensures Find(c.stack.scopes, "x") == Some(CreateEntryVar("x", Int, Token(3, 0, "x")))
    ensures |c.stack.scopes| == 2
  {
    ghost var s1, s2;
    c, s1, s2 := OpenGlobalThenFunction();
    ghost var s3 := c.stack.scopes;
    var tx := Token(3, 0, "x");
    var x := DeclareVariableE5(c, tx, Int, None);
    ghost var ex := CreateEntryVar("x", Int, tx);
    ScenarioFindsE5(s1, s2, s3, c.stack.scopes, Actions.Placed("g", Int, Token(1, 0, "g"), true, 0), CreateEntryFun("f", Int, Token(2, 0, "f")), ex);
  }

  lemma ScenarioFindsE5(s1: seq<Scope>, s2: seq<Scope>, s3: seq<Scope>, s4: seq<Scope>, eg: Symbol, ef: Symbol, ex: Symbol)
    requires |s1| == 1 && |s3| == 2 && eg.key == "g" && ef.key == "f" && ex.key != "g"
    requires s2 == Inserted(s1, eg) && s3[..1] == Inserted(s2, ef) && s3[1].table == map[]
    requires s4 == Inserted(s3, ex)
    ensures Find(s4, "g") == Some(eg) && Find(s4, ex.key) == Some(ex)
  {
    InsertedFind(s3, ex, "g");
    InsertedFind(s3, ex, ex.key);
    FindSkip(s3, "g", 1);
    InsertedFind(s2, ef, "g");
    InsertedFind(s1, eg, "g");
  }

  /** In that program, loading `x` reads the place loading `g` reads: `rbss` at offset 0. */
  method LocalAliasesGlobalE5() returns (loadG: Result<Node>, loadX: Result<Node>)
    ensures loadG.Ok? && loadX.Ok?
    ensures loadG.value.temp.Some? && loadX.value.temp.Some?
    ensures loadG.value.code == Some([MakeLoadAI("rbss", 0, loadG.value.temp.value, None)])
    ensures loadX.value.code == Some([MakeLoadAI("rbss", 0, loadX.value.temp.value, None)])
    ensures Flat(loadG.value.code)[0].sources == Flat(loadX.value.code)[0].sources
  {
    var c := DeclareGlobalThenLocalE5();
    loadG := UseVariableE5(c, Token(4, 0, "g"));
    loadX := UseVariableE5(c, Token(5, 0, "x"));
  }

  /**
   * The same program through E6, which places every declaration: `x` is
   * local at offset 0, `g` global at offset 0.
   */
  method DeclareGlobalThenLocalE6() returns (c: Actions.Compiler)
    ensures fresh(c) && fresh(c.stack) && fresh(c.names) && c.Valid()
    ensures Find(c.stack.scopes, "g") == Some(Actions.Placed("g", Int, Token(1, 0, "g"), true, 0))
    ensures Find(c.stack.scopes, "x") == Some(Actions.Placed("x", Int, Token(3, 0, "x"), false, 0))
  {
    ghost var s1, s2;
    c, s1, s2 := OpenGlobalThenFunction();
    ghost var s3 := c.stack.scopes;
    var tx := Token(3, 0, "x");
    var x := c.DeclareVariable(tx, Int, None);
    ghost var ex := Actions.Placed("x", Int, tx, false, 0);
    ScenarioFindsE5(s1, s2, s3, c.stack.scopes, Actions.Placed("g", Int, Token(1, 0, "g"), true, 0), CreateEntryFun("f", Int, Token(2, 0, "f")), ex);
  }

  /** In E6, loading `x` reads the frame at offset 0 and loading `g` reads the data segment: two different places. */
  method LocalOwnPlaceE6() returns (loadG: Result<Node>, loadX: Result<Node>)
    ensures loadG.Ok? && loadX.Ok?
    ensures loadG.value.temp.Some? && loadX.value.temp.Some?
    ensures loadG.value.code == Some([MakeLoadAI("rbss", 0, loadG.value.temp.value, Some("g"))])
    ensures loadX.value.code == Some([MakeLoadAI("rfp", 0, loadX.value.temp.value, None)])
    ensures Flat(loadG.value.code)[0].sources[0] != Flat(loadX.value.code)[0].sources[0]
  {
    var c := DeclareGlobalThenLocalE6();
    loadG := c.UseVariable(Token(4, 0, "g"));
    loadX := c.UseVariable(Token(5, 0, "x"));
  }
}
