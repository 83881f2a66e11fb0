// The state the semantic actions of the code-generating stage (E6) share —
// the global scope stack, the two storage-offset counters and the fresh-name
// counters — and the actions themselves, each proved to build the node that
// the corresponding builder of `Semantics` describes.

module Actions {
  import opened Types
  import opened Iloc
  import opened Ast
  import opened Scopes
  import opened Semantics
  import Names

  /** Every symbol in the stack was made by `create_entry_var` or `create_entry_fun`. */
  ghost predicate Classified(scopes: seq<Scope>)
  {
    forall i, k :: 0 <= i < |scopes| && k in scopes[i].table ==>
      scopes[i].table[k].nature == Identifier || scopes[i].table[k].nature == Function
  }

  lemma InsertedClassified(scopes: seq<Scope>, entry: Symbol)
    requires |scopes| > 0 && Classified(scopes)
    requires entry.nature == Identifier || entry.nature == Function
    ensures Classified(Inserted(scopes, entry))
  {
    var r := Inserted(scopes, entry);
    forall i, k | 0 <= i < |r| && k in r[i].table
      ensures r[i].table[k].nature == Identifier || r[i].table[k].nature == Function
    {
      if i < |scopes| - 1 {
        assert r[i] == scopes[i];
      }
    }
  }

  /** Pushing a scope with an empty table keeps every symbol classified. */
  lemma PushedClassified(scopes: seq<Scope>, top: Scope)
    requires Classified(scopes) && top.table == map[]
    ensures Classified(scopes + [top])
  {
    var r := scopes + [top];
    forall i, k | 0 <= i < |r| && k in r[i].table
      ensures r[i].table[k].nature == Identifier || r[i].table[k].nature == Function
    {
      assert r[i] == scopes[i];
    }
  }

  /** A symbol that a lookup finds is one of the stack's symbols, so it is a variable or a function. */
  lemma FoundClassified(scopes: seq<Scope>, key: string)
    requires Classified(scopes) && Find(scopes, key).Some?
    ensures Find(scopes, key).value.nature == Identifier || Find(scopes, key).value.nature == Function
  {
    FindNearest(scopes, key);
  }

  /** Changing the entry just inserted into the top scope is inserting the changed entry. */
  lemma PlacedInTop(scopes: seq<Scope>, entry: Symbol, placed: Symbol, r: seq<Scope>)
    requires |scopes| > 0 && entry.key == placed.key
    requires var mid := Inserted(scopes, entry); var top := |mid| - 1;
      |r| == |mid| && r[top] == mid[top].(table := mid[top].table[placed.key := placed]) &&
      forall i :: 0 <= i < |r| && i != top ==> r[i] == mid[i]
    ensures r == Inserted(scopes, placed)
  {
    var top := |scopes| - 1;
    var s0 := scopes[top];
    assert s0.table[entry.key := entry][placed.key := placed] == s0.table[placed.key := placed];
    assert r[top] == Inserted(scopes, placed)[top];
  }

  /** The variable entry of `create_entry_var` after `processar_declaracao_var` placed it. */
  function Placed(key: string, dtype: DataType, token: Token, global: bool, offset: int): Symbol
  {
    CreateEntryVar(key, dtype, token).(isGlobal := global, offset := offset)
  }

  class Compiler {
    /** `g_pilha_escopo`. */
    const stack: ScopeStack
    /** `count_temp` and `count_rotulos`. */
    const names: Names.NameSupply
    /** `offset_global` and `offset_local`. */
    var offsetGlobal: int
    var offsetLocal: int
    /** Every (is_global, offset) pair handed out so far. */
    ghost var allocations: seq<(bool, int)>

    ghost predicate Valid()
      reads this, stack, names
    {
      stack.Valid() && names.Valid() && Classified(stack.scopes) &&
      AllocationLog(allocations) &&
      offsetGlobal == 4 * CountClass(allocations, true) &&
      offsetLocal == 4 * CountClass(allocations, false)
    }

    /** The state before parsing: no scope, both offsets 0, registers from 1000, labels from 0. */
    constructor ()
      ensures Valid() && fresh(stack) && fresh(names)
      ensures stack.scopes == [] && names.countTemp == 1000 && names.countLabel == 0
      ensures offsetGlobal == 0 && offsetLocal == 0 && allocations == []
    {
      stack := new ScopeStack();
      names := new Names.NameSupply();
      offsetGlobal := 0;
      offsetLocal := 0;
      allocations := [];
    }

    /**
     * `processar_declaracao_var`: in the base scope the symbol becomes global
     * at `offset_global`, elsewhere local at `offset_local`; that counter
     * then grows by 4.
     */
    method ProcessDeclaration(entry: Symbol) returns (placed: Symbol)
      requires Valid() && |stack.scopes| > 0
      modifies this
      ensures Valid()
      ensures var global := |stack.scopes| == 1;
        placed == entry.(isGlobal := global, offset := if global then old(offsetGlobal) else old(offsetLocal)) &&
        allocations == old(allocations) + [(global, placed.offset)] &&
        (global ==> offsetGlobal == old(offsetGlobal) + 4 && offsetLocal == old(offsetLocal)) &&
        (!global ==> offsetLocal == old(offsetLocal) + 4 && offsetGlobal == old(offsetGlobal))
    {
      var global := |stack.scopes| == 1;
      AllocationNext(allocations, offsetGlobal, offsetLocal, global);
      if global {
        placed := entry.(isGlobal := true, offset := offsetGlobal);
        offsetGlobal := offsetGlobal + 4;
      } else {
        placed := entry.(isGlobal := false, offset := offsetLocal);
        offsetLocal := offsetLocal + 4;
      }
      allocations := allocations + [(global, placed.offset)];
    }

    /** `criar_no_folha`: draws a register only for an integer literal. */
    method NewLeaf(token: Token, dtype: DataType, nature: Nature) returns (n: Node)
      requires Valid()
      modifies names
      ensures Valid()
      ensures n == Leaf(token, dtype, nature, Names.TempName(old(names.countTemp)))
      ensures names.countTemp == old(names.countTemp) + (if IsIntLiteral(dtype, nature) then 1 else 0)
      ensures names.countLabel == old(names.countLabel)
    {
      if IsIntLiteral(dtype, nature) {
        var t := names.NewTemp();
        n := Leaf(token, dtype, nature, t);
      } else {
        n := Leaf(token, dtype, nature, Names.TempName(names.countTemp));
      }
    }

    /** `criar_no_unario`: the result register is drawn before the zero register of `!`. */
    method NewUnary(op: string, dtype: DataType, child: Node) returns (n: Node)
      requires Valid() && (UnaryUsesTemp(op) ==> child.temp.Some?)
      modifies names
      ensures Valid()
      ensures n == Unary(op, dtype, child, Names.TempName(old(names.countTemp)), Names.TempName(old(names.countTemp) + 1))
      ensures names.countTemp == old(names.countTemp) + UnaryTemps(op)
      ensures names.countLabel == old(names.countLabel)
    {
      if op == "-" {
        var t := names.NewTemp();
        n := Unary(op, dtype, child, t, Names.TempName(names.countTemp));
      } else if op == "!" {
        var t := names.NewTemp();
        var zero := names.NewTemp();
        n := Unary(op, dtype, child, t, zero);
      } else {
        n := Unary(op, dtype, child, Names.TempName(names.countTemp), Names.TempName(names.countTemp + 1));
      }
    }

    /** `criar_no_binario`: a recognised operator draws one register. */
    method NewBinary(op: string, dtype: DataType, left: Node, right: Node) returns (n: Node)
      requires Valid() && (BinaryOpcode(op).Some? ==> left.temp.Some? && right.temp.Some?)
      modifies names
      ensures Valid()
      ensures n == Binary(op, dtype, left, right, Names.TempName(old(names.countTemp)))
      ensures names.countTemp == old(names.countTemp) + (if BinaryOpcode(op).Some? then 1 else 0)
      ensures names.countLabel == old(names.countLabel)
    {
      if BinaryOpcode(op).Some? {
        var t := names.NewTemp();
        n := Binary(op, dtype, left, right, t);
      } else {
        n := Binary(op, dtype, left, right, Names.TempName(names.countTemp));
      }
    }

    /** `semantica_expressoes_binarias`. */
    method BinaryOperation(op: string, left: Node, right: Node) returns (r: Result<Node>)
      requires Valid() && (left.dtype == right.dtype && BinaryOpcode(op).Some? ==> left.temp.Some? && right.temp.Some?)
      modifies names
      ensures Valid()
      ensures r == BinaryExpression(op, left, right, Names.TempName(old(names.countTemp)))
      ensures names.countTemp == old(names.countTemp) + (if r.Ok? && BinaryOpcode(op).Some? then 1 else 0)
      ensures names.countLabel == old(names.countLabel)
    {
      if left.dtype != right.dtype {
        return Err(WrongTypeBinaryOp(left.line, left.dtype, right.dtype, op));
      }
      var n := NewBinary(op, left.dtype, left, right);
      r := Ok(n);
    }

    /** `semantica_identificador_variavel`: a successful use draws one register. */
    method UseVariable(ident: Token) returns (r: Result<Node>)
      requires Valid()
      modifies names
      ensures Valid()
      ensures r == VariableUse(Find(stack.scopes, ident.text), ident, Names.TempName(old(names.countTemp)))
      ensures names.countTemp == old(names.countTemp) + (if r.Ok? then 1 else 0)
      ensures names.countLabel == old(names.countLabel)
    {
      var found := stack.Lookup(ident.text);
      if found.None? {
        return Err(Undeclared(ident.text, ident.line));
      }
      if found.value.nature == Function {
        return Err(FunctionAsVariable(ident.text, ident.line));
      }
      var entry := found.value;
      var t := names.NewTemp();
      r := Ok(Node(ident.text, entry.dtype, ident.line, [], Some(t),
                   Some([MakeLoadAI(BaseRegister(entry), entry.offset, t, GlobalName(entry))])));
    }

    /** `semantica_comando_atrib`: draws nothing, since the identifier leaf is a variable's. */
    method AssignCommand(ident: Token, exp: Node) returns (r: Result<Node>)
      requires Valid()
      ensures r == Assign(Find(stack.scopes, ident.text), ident, exp)
    {
      var found := stack.Lookup(ident.text);
      if found.None? {
        return Err(Undeclared(ident.text, ident.line));
      }
      var entry := found.value;
      if entry.nature == Function {
        return Err(FunctionAsVariable(ident.text, ident.line));
      }
      if entry.dtype != exp.dtype {
        return Err(WrongTypeAssignment(ident.text, ident.line, entry.dtype, exp.dtype));
      }
      if exp.temp.None? {
        return Err(NullRegister(ident.line));
      }
      var store := MakeStoreAI(exp.temp.value, BaseRegister(entry), entry.offset, GlobalName(entry));
      FoundClassified(stack.scopes, ident.text);
      var leaf := Leaf(ident, entry.dtype, entry.nature, "");
      var no := Node(":=", entry.dtype, leaf.line, [], exp.temp, Some([store]));
      no := AddChild(no, leaf, Norm);
      r := Ok(AddChild(no, exp, Inv));
    }

    /** The argument type loop of `semantica_chamada_func`: it stops at the first mismatch or when the parameters run out. */
    static method ArgTypeMismatch(params: seq<Param>, types: seq<DataType>) returns (r: Option<nat>)
      ensures r == FirstMismatch(params, types)
    {
      var i := 0;
      while i < |types|
        invariant 0 <= i <= |types| && i <= |params|
        invariant forall j :: 0 <= j < i ==> params[j].dtype == types[j]
      {
        if i == |params| {
          break;
        }
        if params[i].dtype != types[i] {
          return Some(i);
        }
        i := i + 1;
      }
      r := None;
    }

    /** The code fields as the re-chaining loop of `semantica_chamada_func` leaves them. */
    static method RechainCodes(codes: seq<Option<seq<Instr>>>) returns (cs: seq<Option<seq<Instr>>>)
      ensures cs == Rechained(codes)
    {
      if |codes| <= 1 {
        return codes;
      }
      cs := codes;
      var i := 1;
      while i < |cs|
        invariant 1 <= i <= |cs| && |cs| == |codes|
        invariant i == 1 ==> cs == codes
        invariant i >= 2 ==> cs[0] == Splice(codes[0], codes[1], Norm) && cs[i - 1].None? &&
                             (forall k :: 1 <= k < i - 1 ==> cs[k] == codes[k + 1])
        invariant forall k :: i <= k < |cs| ==> cs[k] == codes[k]
      {
        // argument i becomes the last child of argument i - 1 and gives its list up
        cs := cs[i - 1 := Splice(cs[i - 1], cs[i], Norm)][i := None];
        i := i + 1;
      }
      assert cs == [Splice(codes[0], codes[1], Norm)] + codes[2..] + [None];
    }

    /** `semantica_chamada_func`: draws nothing. */
    method CallFunction(ident: Token, argList: Option<Node>) returns (r: Result<Node>)
      requires Valid()
      ensures r == Call(Find(stack.scopes, ident.text), ident, argList)
    {
      var found := stack.Lookup(ident.text);
      if found.None? {
        return Err(Undeclared(ident.text, ident.line));
      }
      var entry := found.value;
      if entry.nature == Identifier {
        return Err(VariableAsFunction(ident.text, ident.line));
      }
      var call := Node("call " + ident.text, entry.dtype, ident.line, [], None, None);
      var args := if argList.Some? then argList.value.children else [];
      var provided := |args|;
      if provided < entry.numArgs {
        return Err(MissingArgs(ident.text, ident.line, entry.numArgs, provided));
      }
      if provided > entry.numArgs {
        return Err(ExcessArgs(ident.text, ident.line, entry.numArgs, provided));
      }
      var mismatch := ArgTypeMismatch(entry.args, ArgTypes(args));
      if mismatch.Some? {
        var i := mismatch.value;
        return Err(WrongTypeArgs(ident.text, ident.line, i, entry.args[i].dtype, args[i].dtype));
      }
      if provided > 0 {
        var codes := RechainCodes(Codes(args));
        call := AddChild(call, Chain(args, codes, 0), Norm);
      }
      r := Ok(call);
    }

    /** `semantica_comando_ret`: checked against the return type of the innermost scope. */
    method ReturnCommand(exp: Node, dtype: DataType) returns (r: Result<Node>)
      requires Valid() && |stack.scopes| > 0
      ensures r == Return(exp, dtype, stack.scopes[|stack.scopes| - 1].returnType)
    {
      var scopeType := stack.scopes[|stack.scopes| - 1].returnType;
      if exp.dtype != dtype {
        return Err(WrongTypeReturnExpr(exp.line, exp.dtype, dtype));
      }
      if dtype != scopeType {
        return Err(WrongTypeReturnFunc(exp.line, dtype, scopeType));
      }
      if exp.temp.None? {
        return Err(NullRegister(exp.line));
      }
      var no := Node("retorna", exp.dtype, exp.line, [], None, Some([MakeRet(exp.temp.value)]));
      r := Ok(AddChild(no, exp, Inv));
    }

    /** `semantica_condicional`: draws three distinct, never used labels. */
    method IfCommand(exp: Node, thenBlock: Option<Node>, elseBlock: Option<Node>) returns (r: Result<Node>)
      requires Valid()
      modifies names
      ensures Valid()
      ensures var c := old(names.countLabel);
        r == Conditional(exp, thenBlock, elseBlock, Names.LabelName(c), Names.LabelName(c + 1), Names.LabelName(c + 2))
      ensures names.countLabel == old(names.countLabel) + 3 && names.countTemp == old(names.countTemp)
      ensures var c := old(names.countLabel);
        Names.LabelName(c) != Names.LabelName(c + 1) && Names.LabelName(c + 1) != Names.LabelName(c + 2) &&
        Names.LabelName(c) != Names.LabelName(c + 2) &&
        Names.LabelName(c) !in old(names.labels) && Names.LabelName(c + 1) !in old(names.labels) &&
        Names.LabelName(c + 2) !in old(names.labels)
    {
      var lThen := names.NewLabel();
      var lElse := names.NewLabel();
      var lEnd := names.NewLabel();
      Names.LabelNameInjective(old(names.countLabel), old(names.countLabel) + 2);
      r := Conditional(exp, thenBlock, elseBlock, lThen, lElse, lEnd);
    }

    /** `semantica_enquanto`: draws three distinct, never used labels and no register. */
    method WhileCommand(exp: Node, body: Option<Node>) returns (r: Result<Node>)
      requires Valid()
      modifies names
      ensures Valid()
      ensures var c := old(names.countLabel);
        r == While(exp, body, Names.LabelName(c), Names.LabelName(c + 1), Names.LabelName(c + 2))
      ensures names.countLabel == old(names.countLabel) + 3 && names.countTemp == old(names.countTemp)
      ensures var c := old(names.countLabel);
        Names.LabelName(c) != Names.LabelName(c + 1) && Names.LabelName(c + 1) != Names.LabelName(c + 2) &&
        Names.LabelName(c) != Names.LabelName(c + 2) &&
        Names.LabelName(c) !in old(names.labels) && Names.LabelName(c + 1) !in old(names.labels) &&
        Names.LabelName(c + 2) !in old(names.labels)
    {
      var lTest := names.NewLabel();
      var lBody := names.NewLabel();
      var lEnd := names.NewLabel();
      Names.LabelNameInjective(old(names.countLabel), old(names.countLabel) + 2);
      r := While(exp, body, lTest, lBody, lEnd);
    }

    /**
     * The steps `semantica_declaracao_variavel_no_ini` consists of and
     * `semantica_declaracao_variavel` begins with: insert the variable into
     * the top scope, then place it with `processar_declaracao_var`, which
     * changes the inserted entry itself.
     */
    method InsertVariable(ident: Token, dtype: DataType) returns (r: Result<Symbol>)
      requires Valid()
      modifies this, stack
      ensures Valid()
      ensures old(stack.scopes) == [] ==> r == Err(Internal)
      ensures old(stack.scopes) != [] && ident.text in old(stack.scopes)[|old(stack.scopes)| - 1].table ==>
        r == Err(Declared(ident.text, ident.line, old(stack.scopes)[|old(stack.scopes)| - 1].table[ident.text].token.line))
      ensures old(stack.scopes) != [] && ident.text !in old(stack.scopes)[|old(stack.scopes)| - 1].table ==>
        var global := |old(stack.scopes)| == 1;
        var placed := Placed(ident.text, dtype, ident, global, if global then old(offsetGlobal) else old(offsetLocal));
        r == Ok(placed) &&
        stack.scopes == Inserted(old(stack.scopes), placed) &&
        allocations == old(allocations) + [(global, placed.offset)]
      ensures r.Err? ==> stack.scopes == old(stack.scopes) && allocations == old(allocations)
    {
      var entry := CreateEntryVar(ident.text, dtype, ident);
      var out := stack.Insert(ident.text, entry);
      if out.Fail? {
        return Err(out.error);
      }
      var placed := ProcessDeclaration(entry);
      stack.Update(|stack.scopes| - 1, placed);
      PlacedInTop(old(stack.scopes), entry, placed, stack.scopes);
      InsertedClassified(old(stack.scopes), placed);
      r := Ok(placed);
    }

    /** `semantica_declaracao_variavel`: after placing the variable, check and store the initialiser. */
    method DeclareVariable(ident: Token, dtype: DataType, init: Option<Node>) returns (r: Result<Option<Node>>)
      requires Valid()
      requires init.Some? && init.value.dtype == dtype ==> init.value.temp.Some?
      modifies this, stack, names
      ensures Valid()
      ensures old(stack.scopes) == [] ==> r == Err(Internal)
      ensures old(stack.scopes) != [] && ident.text in old(stack.scopes)[|old(stack.scopes)| - 1].table ==>
        r == Err(Declared(ident.text, ident.line, old(stack.scopes)[|old(stack.scopes)| - 1].table[ident.text].token.line))
      ensures old(stack.scopes) != [] && ident.text !in old(stack.scopes)[|old(stack.scopes)| - 1].table ==>
        var global := |old(stack.scopes)| == 1;
        var placed := Placed(ident.text, dtype, ident, global, if global then old(offsetGlobal) else old(offsetLocal));
        stack.scopes == Inserted(old(stack.scopes), placed) &&
        allocations == old(allocations) + [(global, placed.offset)] &&
        (init.None? ==> r == Ok(None) && names.countTemp == old(names.countTemp)) &&
        (init.Some? && init.value.dtype != dtype ==>
           r == Err(WrongTypeInitialization(ident.text, ident.line, dtype, init.value.dtype))) &&
        (init.Some? && init.value.dtype == dtype ==>
           r == Ok(Some(Initialization(ident, dtype, init.value, placed, Names.TempName(old(names.countTemp))))) &&
           names.countTemp == old(names.countTemp) + 1)
      ensures names.countLabel == old(names.countLabel)
    {
      var inserted := InsertVariable(ident, dtype);
      if inserted.Err? {
        return Err(inserted.error);
      }
      var placed := inserted.value;
      if init.None? {
        return Ok(None);
      }
      var atrib := init.value;
      if atrib.dtype != dtype {
        return Err(WrongTypeInitialization(ident.text, ident.line, dtype, atrib.dtype));
      }
      var t := names.NewTemp();
      var store := MakeStoreAI(atrib.temp.value, BaseRegister(placed), placed.offset, GlobalName(placed));
      var leaf := Leaf(ident, dtype, Identifier, "");
      var no := Node("com", dtype, leaf.line, [], Some(t), Some([store]));
      no := AddChild(no, leaf, Norm);
      r := Ok(Some(AddChild(no, atrib, Inv)));
    }

    /** `semantica_param`: the parameter is inserted as a variable and never placed. */
    method DeclareParam(ident: Token, dtype: DataType) returns (r: Result<Param>)
      requires Valid()
      modifies stack
      ensures Valid()
      ensures old(stack.scopes) == [] ==> r == Err(Internal) && stack.scopes == old(stack.scopes)
      ensures old(stack.scopes) != [] && ident.text in old(stack.scopes)[|old(stack.scopes)| - 1].table ==>
        r == Err(Declared(ident.text, ident.line, old(stack.scopes)[|old(stack.scopes)| - 1].table[ident.text].token.line)) &&
        stack.scopes == old(stack.scopes)
      ensures old(stack.scopes) != [] && ident.text !in old(stack.scopes)[|old(stack.scopes)| - 1].table ==>
        r == Ok(Param(dtype, ident.text)) &&
        stack.scopes == Inserted(old(stack.scopes), CreateEntryVar(ident.text, dtype, ident))
    {
      var entry := CreateEntryVar(ident.text, dtype, ident);
      var out := stack.Insert(ident.text, entry);
      if out.Fail? {
        return Err(out.error);
      }
      InsertedClassified(old(stack.scopes), entry);
      r := Ok(Param(dtype, entry.key));
    }

    /**
     * `semantica_param` with the parameter placed like every other
     * declaration: inserted, then given the next offset of its storage class.
     */
    method DeclareParamPlaced(ident: Token, dtype: DataType) returns (r: Result<Param>)
      requires Valid()
      modifies this, stack
      ensures Valid()
      ensures old(stack.scopes) == [] ==> r == Err(Internal) && stack.scopes == old(stack.scopes)
      ensures old(stack.scopes) != [] && ident.text in old(stack.scopes)[|old(stack.scopes)| - 1].table ==>
        r == Err(Declared(ident.text, ident.line, old(stack.scopes)[|old(stack.scopes)| - 1].table[ident.text].token.line)) &&
        stack.scopes == old(stack.scopes)
      ensures old(stack.scopes) != [] && ident.text !in old(stack.scopes)[|old(stack.scopes)| - 1].table ==>
        var global := |old(stack.scopes)| == 1;
        r == Ok(Param(dtype, ident.text)) &&
        stack.scopes == Inserted(old(stack.scopes), Placed(ident.text, dtype, ident, global, if global then old(offsetGlobal) else old(offsetLocal)))
    {
      var placed := InsertVariable(ident, dtype);
      if placed.Err? {
        return Err(placed.error);
      }
      r := Ok(Param(dtype, ident.text));
    }

    /**
     * `semantica_funcao_declaracao`: the function is declared in the current
     * scope, then a scope for its parameters and body is opened with its
     * return type and the function as the one being defined.
     */
    method DeclareFunction(ident: Token, dtype: DataType) returns (out: Outcome)
      requires Valid()
      modifies stack
      ensures Valid()
      ensures old(stack.scopes) == [] ==> out == Fail(Internal) && stack.scopes == old(stack.scopes)
      ensures old(stack.scopes) != [] && ident.text in old(stack.scopes)[|old(stack.scopes)| - 1].table ==>
        out == Fail(Declared(ident.text, ident.line, old(stack.scopes)[|old(stack.scopes)| - 1].table[ident.text].token.line)) &&
        stack.scopes == old(stack.scopes)
      ensures old(stack.scopes) != [] && ident.text !in old(stack.scopes)[|old(stack.scopes)| - 1].table ==>
        var outer := Inserted(old(stack.scopes), CreateEntryFun(ident.text, dtype, ident));
        out == Pass &&
        stack.scopes == outer + [NewScope(outer).(returnType := dtype, currentFunction := Some(ident.text))]
    {
      var entry := CreateEntryFun(ident.text, dtype, ident);
      out := stack.Insert(ident.text, entry);
      if out.Fail? {
        return;
      }
      assert old(stack.scopes) != [] && ident.text !in old(stack.scopes)[|old(stack.scopes)| - 1].table;
      InsertedClassified(old(stack.scopes), entry);
      ghost var outer := stack.scopes;
      assert outer == Inserted(old(stack.scopes), entry);
      stack.Push();
      stack.EnterFunction(dtype, ident.text);
      ghost var top := NewScope(outer).(returnType := dtype, currentFunction := Some(ident.text));
      assert stack.scopes == outer + [top];
      PushedClassified(outer, top);
    }

    /** `semantica_funcao_atualizar_args`: the function being defined gets the parameter list and its length. */
    method UpdateArgs(params: seq<Param>)
      requires Valid()
      modifies stack
      ensures Valid()
      ensures var s := old(stack.scopes);
        (s == [] || s[|s| - 1].currentFunction.None?) ==> stack.scopes == s
      ensures var s := old(stack.scopes);
        s != [] && s[|s| - 1].currentFunction.Some? ==>
          var key := s[|s| - 1].currentFunction.value;
          var fn := s[|s| - 2].table[key];
          stack.scopes == s[|s| - 2 := s[|s| - 2].(table := s[|s| - 2].table[key := fn.(args := params, numArgs := |params|)])]
    {
      var n := |stack.scopes|;
      if n == 0 || stack.scopes[n - 1].currentFunction.None? {
        return;
      }
      var key := stack.scopes[n - 1].currentFunction.value;
      var fn := stack.scopes[n - 2].table[key];
      var count := 0;
      var rest := params;
      while rest != []
        invariant 0 <= count <= |params| && rest == params[count..]
      {
        count := count + 1;
        rest := rest[1..];
      }
      stack.Update(n - 2, fn.(args := params, numArgs := count));
      assert stack.scopes == old(stack.scopes)[n - 2 := old(stack.scopes)[n - 2].(table := old(stack.scopes)[n - 2].table[key := fn.(args := params, numArgs := |params|)])];
      assert Classified(stack.scopes) by {
        forall i, k | 0 <= i < |stack.scopes| && k in stack.scopes[i].table
          ensures stack.scopes[i].table[k].nature == Identifier || stack.scopes[i].table[k].nature == Function
        {
          if i != n - 2 || k != key {
            assert stack.scopes[i].table[k] == old(stack.scopes)[i].table[k];
          }
        }
      }
    }

    /** `semantica_funcao_definicao`: closes the function's scope and builds its labelled node. */
    method DefineFunction(ident: Token, dtype: DataType, body: Option<Node>) returns (n: Node)
      requires Valid()
      modifies stack
      ensures Valid()
      ensures old(stack.scopes) == [] ==> stack.scopes == []
      ensures old(stack.scopes) != [] ==> stack.scopes == old(stack.scopes)[..|old(stack.scopes)| - 1]
      ensures n == FunctionDefinition(ident, dtype, body)
    {
      stack.Pop();
      assert Classified(stack.scopes) by {
        forall i, k | 0 <= i < |stack.scopes| && k in stack.scopes[i].table
          ensures stack.scopes[i].table[k].nature == Identifier || stack.scopes[i].table[k].nature == Function
        {
          assert stack.scopes[i] == old(stack.scopes)[i];
        }
      }
      n := Leaf(ident, dtype, Function, "");
      n := n.(code := Some([]));
      n := n.(code := Some([MakeLabelledNop(ident.text)] + n.code.value));
      assert n.code.value == [MakeLabelledNop(ident.text)];
      if body.Some? {
        n := AddChild(n, body.value, Norm);
      }
    }

    /** `semantica_push_scope`. */
    method PushScope()
      requires Valid()
      modifies stack
      ensures Valid()
      ensures stack.scopes == old(stack.scopes) + [NewScope(old(stack.scopes))]
    {
      stack.Push();
      assert Classified(stack.scopes) by {
        forall i, k | 0 <= i < |stack.scopes| && k in stack.scopes[i].table
          ensures stack.scopes[i].table[k].nature == Identifier || stack.scopes[i].table[k].nature == Function
        {
          assert stack.scopes[i] == old(stack.scopes)[i];
        }
      }
    }

    /** `semantica_pop_scope`. */
    method PopScope()
      requires Valid()
      modifies stack
      ensures Valid()
      ensures old(stack.scopes) == [] ==> stack.scopes == []
      ensures old(stack.scopes) != [] ==> stack.scopes == old(stack.scopes)[..|old(stack.scopes)| - 1]
    {
      stack.Pop();
      assert Classified(stack.scopes) by {
        forall i, k | 0 <= i < |stack.scopes| && k in stack.scopes[i].table
          ensures stack.scopes[i].table[k].nature == Identifier || stack.scopes[i].table[k].nature == Function
        {
          assert stack.scopes[i] == old(stack.scopes)[i];
        }
      }
    }

    /** `semantica_pop_scope_error`: pops until no scope is left. */
    method PopAllScopes()
      requires Valid()
      modifies stack
      ensures Valid() && stack.scopes == []
    {
      while stack.scopes != []
        invariant Valid()
        decreases |stack.scopes|
      {
        PopScope();
      }
    }

    /** The data-segment scan of `gerar_segmento_dados`: the variables of the base scope, in table order. */
    method DataSegment() returns (vars: seq<string>)
      requires Valid()
      ensures stack.scopes == [] ==> vars == []
      ensures stack.scopes != [] ==> vars == VariablesIn(stack.scopes[0].order, stack.scopes[0].table)
    {
      if stack.scopes == [] {
        return [];
      }
      var global := stack.scopes[0];
      vars := [];
      var i := 0;
      while i < |global.order|
        invariant 0 <= i <= |global.order|
        invariant vars == VariablesIn(global.order[..i], global.table)
      {
        var k := global.order[i];
        assert global.order[..i + 1][..i] == global.order[..i];
        if k in global.table && global.table[k].nature == Identifier {
          vars := vars + [k];
        }
        i := i + 1;
      }
      assert global.order[..i] == global.order;
    }
  }
}
