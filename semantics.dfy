// The node builders of the code-generating stage (E6), as functions of their
// inputs: the symbol a name resolves to and the fresh names the builder
// draws are parameters, so that each builder says exactly which node and
// which code it produces, and which fatal error stops it first.

module Semantics {
  import opened Types
  import opened Iloc
  import opened Ast
  import opened Scopes
  import Text

  // ---------------------------------------------------------------------
  // Storage offsets (`processar_declaracao_var`)

  /** How many places of storage class `global` a log of (is_global, offset) allocations holds. */
  function CountClass(log: seq<(bool, int)>, global: bool): (n: nat)
    ensures n <= |log|
  {
    if log == [] then 0
    else CountClass(log[..|log| - 1], global) + (if log[|log| - 1].0 == global then 1 else 0)
  }

  /** The allocation rule: every declaration takes the current counter of its class, which then grows by 4. */
  ghost predicate AllocationLog(log: seq<(bool, int)>)
  {
    forall i :: 0 <= i < |log| ==> log[i].1 == 4 * CountClass(log[..i], log[i].0)
  }

  lemma {:induction false} CountClassGrows(log: seq<(bool, int)>, i: nat, j: nat)
    requires i < j <= |log|
    ensures CountClass(log[..j], log[i].0) >= CountClass(log[..i], log[i].0) + 1
    decreases j - i
  {
    if j == i + 1 {
      assert log[..j][..i] == log[..i];
    } else {
      CountClassGrows(log, i, j - 1);
      assert log[..j][..j - 1] == log[..j - 1];
    }
  }

  /** Offsets of one storage class are non-negative multiples of 4 that strictly increase, so none is reused. */
  lemma AllocationIncreasing(log: seq<(bool, int)>, i: nat, j: nat)
    requires AllocationLog(log) && i < j < |log| && log[i].0 == log[j].0
    ensures log[i].1 >= 0 && log[i].1 % 4 == 0
    ensures log[i].1 < log[j].1
  {
    CountClassGrows(log, i, j);
  }

  /** The counters that follow the rule take one more declaration of a class: the log, the counter of that class and no other advance. */
  lemma AllocationNext(log: seq<(bool, int)>, offsetGlobal: int, offsetLocal: int, global: bool)
    requires AllocationLog(log)
    requires offsetGlobal == 4 * CountClass(log, true) && offsetLocal == 4 * CountClass(log, false)
    ensures var log' := log + [(global, if global then offsetGlobal else offsetLocal)];
      AllocationLog(log') &&
      (if global then offsetGlobal + 4 else offsetGlobal) == 4 * CountClass(log', true) &&
      (if global then offsetLocal else offsetLocal + 4) == 4 * CountClass(log', false)
  {
    AllocationStep(log, global);
  }

  /** Appending the next allocation of a class keeps the rule and advances that class's counter alone. */
  lemma AllocationStep(log: seq<(bool, int)>, global: bool)
    requires AllocationLog(log)
    ensures AllocationLog(log + [(global, 4 * CountClass(log, global))])
    ensures CountClass(log + [(global, 4 * CountClass(log, global))], global) == CountClass(log, global) + 1
    ensures CountClass(log + [(global, 4 * CountClass(log, global))], !global) == CountClass(log, !global)
  {
    var log' := log + [(global, 4 * CountClass(log, global))];
    assert log'[..|log|] == log;
    forall i | 0 <= i < |log'|
      ensures log'[i].1 == 4 * CountClass(log'[..i], log'[i].0)
    {
      if i < |log| {
        assert log'[..i] == log[..i];
      }
    }
  }

  /** `rbss` for a global symbol, `rfp` for a local one. */
  function BaseRegister(entry: Symbol): (b: string)
    ensures b == "rbss" <==> entry.isGlobal
    ensures b == "rfp" <==> !entry.isGlobal
  {
    if entry.isGlobal then "rbss" else "rfp"
  }

  /** The name attached to the offset operand: the symbol's key for a global, none for a local. */
  function GlobalName(entry: Symbol): (n: Option<string>)
    ensures n.Some? <==> entry.isGlobal
    ensures n.Some? ==> n.value == entry.key
  {
    if entry.isGlobal then Some(entry.key) else None
  }

  // ---------------------------------------------------------------------
  // Leaves and operators

  /** Only an integer literal has code of its own. */
  predicate IsIntLiteral(dtype: DataType, nature: Nature)
  {
    dtype == Int && nature == Literal
  }

  /** `criar_no_folha`, with `dest` the register it draws for an integer literal. */
  function Leaf(token: Token, dtype: DataType, nature: Nature, dest: string): Node
  {
    if IsIntLiteral(dtype, nature) then
      Node(token.text, dtype, token.line, [], Some(dest), Some([MakeLoadI(Text.Atoi(token.text), dest)]))
    else
      Node(token.text, dtype, token.line, [], None, None)
  }

  /** An integer literal loads its `atoi` value into its fresh register; every other leaf has neither code nor register. */
  lemma LeafCode(token: Token, dtype: DataType, nature: Nature, dest: string)
    ensures var n := Leaf(token, dtype, nature, dest);
      n.text == token.text && n.dtype == dtype && n.line == token.line && n.children == [] &&
      (IsIntLiteral(dtype, nature) ==> n.temp == Some(dest) && n.code == Some([MakeLoadI(Text.Atoi(token.text), dest)])) &&
      (!IsIntLiteral(dtype, nature) ==> n.temp.None? && n.code.None?)
  {
  }

  /** The registers `criar_no_unario` draws: one for `-`, two for `!`, none otherwise. */
  function UnaryTemps(op: string): (k: nat)
    ensures k <= 2
  {
    if op == "-" then 1 else if op == "!" then 2 else 0
  }

  /** A unary operator whose instructions read the operand's register. */
  predicate UnaryUsesTemp(op: string)
  {
    op == "-" || op == "!"
  }

  /**
   * `criar_no_unario`: `-` emits `rsubI child, 0 => dest`, `!` emits
   * `loadI 0 => zero; cmp_EQ zero, child => dest`, and any other label
   * (`+` included) emits nothing and takes the child's register.
   */
  function Unary(op: string, dtype: DataType, child: Node, dest: string, zero: string): Node
    requires UnaryUsesTemp(op) ==> child.temp.Some?
  {
    var own :=
      if op == "-" then Some([MakeRsubI(0, child.temp.value, dest)])
      else if op == "!" then Some([MakeLoadI(0, zero), MakeBinary(CmpEQ, zero, child.temp.value, dest)])
      else None;
    var temp := if UnaryUsesTemp(op) then Some(dest) else child.temp;
    var no := Node(op, dtype, child.line, [], temp, own);
    if no.code.Some? && child.code.Some? then
      AddChild(no.(code := Splice(no.code, child.code, Inv)), child.(code := None), Norm)
    else
      AddChild(no, child, Norm)
  }

  /** In every case the operand's code runs first, followed by the operator's own instructions. */
  lemma UnaryCode(op: string, dtype: DataType, child: Node, dest: string, zero: string)
    requires UnaryUsesTemp(op) ==> child.temp.Some?
    ensures var n := Unary(op, dtype, child, dest, zero);
      n.text == op && n.dtype == dtype && n.line == child.line && n.children == [child.(code := None)] &&
      (op == "-" ==> n.temp == Some(dest) &&
                     Flat(n.code) == Flat(child.code) + [MakeRsubI(0, child.temp.value, dest)]) &&
      (op == "!" ==> n.temp == Some(dest) &&
                     Flat(n.code) == Flat(child.code) + [MakeLoadI(0, zero), MakeBinary(CmpEQ, zero, child.temp.value, dest)]) &&
      (!UnaryUsesTemp(op) ==> n.temp == child.temp && n.code == child.code)
  {
    var own :=
      if op == "-" then Some([MakeRsubI(0, child.temp.value, dest)])
      else if op == "!" then Some([MakeLoadI(0, zero), MakeBinary(CmpEQ, zero, child.temp.value, dest)])
      else None;
    SpliceConcatenates(own, child.code, Inv);
    if !UnaryUsesTemp(op) {
      SpliceConcatenates(None, child.code, Norm);
    }
  }

  /** The opcode `criar_no_binario` selects for an operator label, if any. */
  function BinaryOpcode(op: string): (r: Option<Opcode>)
  {
    if op == "+" then Some(Add)
    else if op == "-" then Some(Sub)
    else if op == "*" then Some(Mult)
    else if op == "/" then Some(Div)
    else if op == "<" then Some(CmpLT)
    else if op == ">" then Some(CmpGT)
    else if op == "<=" then Some(CmpLE)
    else if op == ">=" then Some(CmpGE)
    else if op == "==" then Some(CmpEQ)
    else if op == "!=" then Some(CmpNE)
    else if op == "&" then Some(And)
    else if op == "|" then Some(Or)
    else None
  }

  /** Each recognised operator selects a two-register arithmetic or comparison opcode. */
  lemma BinaryOpcodeKind(op: string)
    ensures BinaryOpcode(op).Some? ==> IsArithmetic(BinaryOpcode(op).value) || IsComparison(BinaryOpcode(op).value)
    ensures BinaryOpcode(op).Some? <==> op in ["+", "-", "*", "/", "<", ">", "<=", ">=", "==", "!=", "&", "|"]
  {
  }

  /** The operator's own list: one instruction when the label is recognised, none otherwise. */
  function BinaryOwnCode(op: string, left: Node, right: Node, dest: string): Option<seq<Instr>>
    requires BinaryOpcode(op).Some? ==> left.temp.Some? && right.temp.Some?
  {
    BinaryOpcodeKind(op);
    if BinaryOpcode(op).Some? then Some([MakeBinary(BinaryOpcode(op).value, left.temp.value, right.temp.value, dest)])
    else None
  }

  /**
   * `criar_no_binario`: the right operand's code, then the left operand's,
   * are placed in front of the operator's instruction; both operands give
   * their lists up. With an unrecognised label there is no list to splice
   * into, so the operands' code is dropped.
   */
  function Binary(op: string, dtype: DataType, left: Node, right: Node, dest: string): Node
    requires BinaryOpcode(op).Some? ==> left.temp.Some? && right.temp.Some?
  {
    var own := BinaryOwnCode(op, left, right, dest);
    var afterRight := if right.code.Some? then SpliceInPlace(own, right.code, Inv) else own;
    var afterLeft := if left.code.Some? then SpliceInPlace(afterRight, left.code, Inv) else afterRight;
    var no := Node(op, dtype, left.line, [], if own.Some? then Some(dest) else None, afterLeft);
    AddChild(AddChild(no, left.(code := None), Norm), right.(code := None), Norm)
  }

  /** A recognised operator evaluates left, then right, then itself into a dest register. */
  lemma BinaryCode(op: string, dtype: DataType, left: Node, right: Node, dest: string)
    requires BinaryOpcode(op).Some? ==> left.temp.Some? && right.temp.Some?
    ensures var n := Binary(op, dtype, left, right, dest);
      n.text == op && n.dtype == dtype && n.line == left.line &&
      n.children == [left.(code := None), right.(code := None)] &&
      (BinaryOpcode(op).Some? ==>
         n.temp == Some(dest) &&
         Flat(n.code) == Flat(left.code) + Flat(right.code) +
                         [MakeBinary(BinaryOpcode(op).value, left.temp.value, right.temp.value, dest)]) &&
      (BinaryOpcode(op).None? ==> n.temp.None? && n.code.None?)
  {
    var own := BinaryOwnCode(op, left, right, dest);
    var afterRight := if right.code.Some? then SpliceInPlace(own, right.code, Inv) else own;
    var afterLeft := if left.code.Some? then SpliceInPlace(afterRight, left.code, Inv) else afterRight;
    var no := Node(op, dtype, left.line, [], if own.Some? then Some(dest) else None, afterLeft);
    var n1 := AddChild(no, left.(code := None), Norm);
    assert Flat(n1.code) == Flat(afterLeft) && n1.code.None? == afterLeft.None?;
    if own.Some? {
      assert Flat(afterRight) == Flat(right.code) + Flat(own);
      assert Flat(afterLeft) == Flat(left.code) + (Flat(right.code) + Flat(own));
      assert Flat(left.code) + (Flat(right.code) + Flat(own)) == Flat(left.code) + Flat(right.code) + Flat(own);
    }
  }

  /** `semantica_expressoes_binarias`: operands of different types are the binary-operator type error. */
  function BinaryExpression(op: string, left: Node, right: Node, dest: string): Result<Node>
    requires left.dtype == right.dtype && BinaryOpcode(op).Some? ==> left.temp.Some? && right.temp.Some?
  {
    if left.dtype != right.dtype then Err(WrongTypeBinaryOp(left.line, left.dtype, right.dtype, op))
    else Ok(Binary(op, left.dtype, left, right, dest))
  }

  /** The check fails exactly on a type difference; a success is the operator node of the left operand's type. */
  lemma BinaryExpressionChecks(op: string, left: Node, right: Node, dest: string)
    requires left.dtype == right.dtype && BinaryOpcode(op).Some? ==> left.temp.Some? && right.temp.Some?
    ensures BinaryExpression(op, left, right, dest).Err? <==> left.dtype != right.dtype
    ensures BinaryExpression(op, left, right, dest).Err? ==>
      BinaryExpression(op, left, right, dest).error == WrongTypeBinaryOp(left.line, left.dtype, right.dtype, op)
    ensures BinaryExpression(op, left, right, dest).Ok? ==>
      BinaryExpression(op, left, right, dest).value.dtype == left.dtype &&
      BinaryExpression(op, left, right, dest).value == Binary(op, left.dtype, left, right, dest)
  {
    if left.dtype == right.dtype {
      BinaryCode(op, left.dtype, left, right, dest);
    }
  }

  // ---------------------------------------------------------------------
  // Names used as variables

  /** The first check of a variable use that fails: not declared, or declared as a function. */
  function VariableUseError(found: Option<Symbol>, ident: Token): Option<ErrorKind>
  {
    if found.None? then Some(Undeclared(ident.text, ident.line))
    else if found.value.nature == Function then Some(FunctionAsVariable(ident.text, ident.line))
    else None
  }

  /** `semantica_identificador_variavel`: `loadAI base, offset => dest`, the symbol's name attached when it is global. */
  function VariableUse(found: Option<Symbol>, ident: Token, dest: string): Result<Node>
  {
    if VariableUseError(found, ident).Some? then Err(VariableUseError(found, ident).value)
    else
      var entry := found.value;
      Ok(Node(ident.text, entry.dtype, ident.line, [], Some(dest),
              Some([MakeLoadAI(BaseRegister(entry), entry.offset, dest, GlobalName(entry))])))
  }

  /** A use fails exactly when the name is unknown or a function; otherwise it loads the variable's place into a dest register. */
  lemma IdentifierLoads(found: Option<Symbol>, ident: Token, dest: string)
    ensures VariableUse(found, ident, dest).Err? <==> found.None? || found.value.nature == Function
    ensures found.None? ==> VariableUse(found, ident, dest) == Err(Undeclared(ident.text, ident.line))
    ensures found.Some? && found.value.nature == Function ==>
      VariableUse(found, ident, dest) == Err(FunctionAsVariable(ident.text, ident.line))
    ensures VariableUse(found, ident, dest).Ok? ==>
      var n := VariableUse(found, ident, dest).value;
      n.temp == Some(dest) && n.dtype == found.value.dtype && |Flat(n.code)| == 1 &&
      Flat(n.code)[0].opcode == LoadAI && Flat(n.code)[0].targets[0].value == Reg(dest) &&
      Flat(n.code)[0].sources[0].value == Reg(if found.value.isGlobal then "rbss" else "rfp") &&
      Flat(n.code)[0].sources[1].value == Imm(found.value.offset) &&
      (Flat(n.code)[0].sources[1].aux.Some? <==> found.value.isGlobal)
  {
  }

  /** The first check of an assignment that fails: the variable-use checks, then a type difference. */
  function AssignError(found: Option<Symbol>, ident: Token, exprType: DataType): Option<ErrorKind>
  {
    if VariableUseError(found, ident).Some? then VariableUseError(found, ident)
    else if found.value.dtype != exprType then Some(WrongTypeAssignment(ident.text, ident.line, found.value.dtype, exprType))
    else None
  }

  /**
   * `semantica_comando_atrib`: the expression's code, then `storeAI exp =>
   * base, offset`; the node `:=` has the variable's type, holds the
   * expression's register, and its children are the identifier and the
   * expression. An expression without a register (a call) reaches the
   * store's operand builder with a null name.
   */
  function Assign(found: Option<Symbol>, ident: Token, exp: Node): Result<Node>
  {
    if AssignError(found, ident, exp.dtype).Some? then Err(AssignError(found, ident, exp.dtype).value)
    else if exp.temp.None? then Err(NullRegister(ident.line))
    else
      var entry := found.value;
      var store := MakeStoreAI(exp.temp.value, BaseRegister(entry), entry.offset, GlobalName(entry));
      var leaf := Node(ident.text, entry.dtype, ident.line, [], None, None);
      var no := Node(":=", entry.dtype, ident.line, [], exp.temp, Some([store]));
      Ok(AddChild(AddChild(no, leaf, Norm), exp, Inv))
  }

  /**
   * Errors come in the order undeclared, function, type, missing register;
   * a success stores the expression's register into the variable.
   */
  lemma AssignStores(found: Option<Symbol>, ident: Token, exp: Node)
    ensures found.None? ==> Assign(found, ident, exp) == Err(Undeclared(ident.text, ident.line))
    ensures found.Some? && found.value.nature == Function ==>
      Assign(found, ident, exp) == Err(FunctionAsVariable(ident.text, ident.line))
    ensures found.Some? && found.value.nature != Function && found.value.dtype != exp.dtype ==>
      Assign(found, ident, exp) == Err(WrongTypeAssignment(ident.text, ident.line, found.value.dtype, exp.dtype))
    ensures found.Some? && found.value.nature != Function && found.value.dtype == exp.dtype && exp.temp.None? ==>
      Assign(found, ident, exp) == Err(NullRegister(ident.line))
    ensures Assign(found, ident, exp).Ok? <==>
      found.Some? && found.value.nature != Function && found.value.dtype == exp.dtype && exp.temp.Some?
    ensures Assign(found, ident, exp).Ok? ==>
      var n := Assign(found, ident, exp).value;
      var entry := found.value;
      n.text == ":=" && n.dtype == entry.dtype && n.temp == exp.temp &&
      |n.children| == 2 && n.children[0].text == ident.text && n.children[1] == exp.(code := None) &&
      Flat(n.code) == Flat(exp.code) + [MakeStoreAI(exp.temp.value, BaseRegister(entry), entry.offset, GlobalName(entry))]
  {
    if Assign(found, ident, exp).Ok? {
      var entry := found.value;
      var store := MakeStoreAI(exp.temp.value, BaseRegister(entry), entry.offset, GlobalName(entry));
      var leaf := Node(ident.text, entry.dtype, ident.line, [], None, None);
      var no := Node(":=", entry.dtype, ident.line, [], exp.temp, Some([store]));
      var n1 := AddChild(no, leaf, Norm);
      assert Flat(n1.code) == [store];
    }
  }

  // ---------------------------------------------------------------------
  // Declarations

  /**
   * The node of `semantica_declaracao_variavel` with an initialiser, for the
   * placed symbol `entry`: the initialiser's code, then the store into the
   * variable. The node `com` holds a dest register of its own.
   */
  function Initialization(ident: Token, dtype: DataType, init: Node, entry: Symbol, dest: string): Node
    requires init.temp.Some?
  {
    var store := MakeStoreAI(init.temp.value, BaseRegister(entry), entry.offset, GlobalName(entry));
    var leaf := Node(ident.text, dtype, ident.line, [], None, None);
    var no := Node("com", dtype, ident.line, [], Some(dest), Some([store]));
    AddChild(AddChild(no, leaf, Norm), init, Inv)
  }

  lemma InitializationStores(ident: Token, dtype: DataType, init: Node, entry: Symbol, dest: string)
    requires init.temp.Some?
    ensures var n := Initialization(ident, dtype, init, entry, dest);
      n.text == "com" && n.dtype == dtype && n.temp == Some(dest) &&
      |n.children| == 2 && n.children[0].text == ident.text && n.children[1] == init.(code := None) &&
      Flat(n.code) == Flat(init.code) + [MakeStoreAI(init.temp.value, BaseRegister(entry), entry.offset, GlobalName(entry))]
  {
    var store := MakeStoreAI(init.temp.value, BaseRegister(entry), entry.offset, GlobalName(entry));
    var leaf := Node(ident.text, dtype, ident.line, [], None, None);
    var no := Node("com", dtype, ident.line, [], Some(dest), Some([store]));
    var n1 := AddChild(no, leaf, Norm);
    assert Flat(n1.code) == [store];
  }

  // ---------------------------------------------------------------------
  // Calls

  /** The position of the first argument whose type differs from its parameter's, among the positions both lists have. */
  function FirstMismatch(params: seq<Param>, types: seq<DataType>): (r: Option<nat>)
    ensures r.Some? ==> r.value < |params| && r.value < |types| && params[r.value].dtype != types[r.value]
    ensures r.Some? ==> forall j :: 0 <= j < r.value ==> params[j].dtype == types[j]
    ensures r.None? ==> forall j :: 0 <= j < |params| && j < |types| ==> params[j].dtype == types[j]
  {
    if params == [] || types == [] then None
    else if params[0].dtype != types[0] then Some(0)
    else
      match FirstMismatch(params[1..], types[1..])
      case None => assert forall j :: 1 <= j < |params| && j < |types| ==> params[1..][j - 1] == params[j]; None
      case Some(k) => Some(k + 1)
  }

  /** The data types of the arguments in order. */
  function ArgTypes(args: seq<Node>): (ts: seq<DataType>)
    ensures |ts| == |args| && forall i :: 0 <= i < |args| ==> ts[i] == args[i].dtype
  {
    seq(|args|, i requires 0 <= i < |args| => args[i].dtype)
  }

  /** The code fields of the arguments in order. */
  function Codes(args: seq<Node>): (cs: seq<Option<seq<Instr>>>)
    ensures |cs| == |args| && forall i :: 0 <= i < |args| ==> cs[i] == args[i].code
  {
    seq(|args|, i requires 0 <= i < |args| => args[i].code)
  }

  /**
   * The code fields after the re-chaining loop makes argument `i` a child of
   * argument `i - 1`: the first argument's list takes the second's, and every
   * later argument, having given its list to its parent, receives the list of
   * the argument after it; the last ends with none.
   */
  function Rechained(codes: seq<Option<seq<Instr>>>): (r: seq<Option<seq<Instr>>>)
    ensures |r| == |codes|
  {
    if |codes| <= 1 then codes
    else [Splice(codes[0], codes[1], Norm)] + codes[2..] + [None]
  }

  /**
   * The first argument's list becomes its own followed by the second's, each
   * middle argument carries the list of the one after it, and the last none.
   */
  lemma RechainedShape(codes: seq<Option<seq<Instr>>>)
    ensures |codes| <= 1 ==> Rechained(codes) == codes
    ensures |codes| >= 2 ==>
      var r := Rechained(codes);
      Flat(r[0]) == Flat(codes[0]) + Flat(codes[1]) && r[|r| - 1].None? &&
      forall i :: 1 <= i < |r| - 1 ==> r[i] == codes[i + 1]
  {
    if |codes| >= 2 {
      SpliceConcatenates(codes[0], codes[1], Norm);
    }
  }

  /** Argument `k` with its re-chained code and, unless it is the last, the chain from argument `k + 1` as its new last child. */
  function Chain(args: seq<Node>, codes: seq<Option<seq<Instr>>>, k: nat): (n: Node)
    requires |codes| == |args| && k < |args|
    decreases |args| - k
  {
    var below := if k + 1 < |args| then [Chain(args, codes, k + 1)] else [];
    args[k].(code := codes[k], children := args[k].children + below)
  }

  /** Follows the last child `depth` times. */
  function Descend(n: Node, depth: nat): Option<Node>
    decreases depth
  {
    if depth == 0 then Some(n)
    else if n.children == [] then None
    else Descend(n.children[|n.children| - 1], depth - 1)
  }

  /** From the head of the chain, with its code taken away, argument `k` is `k` levels down. */
  lemma ChainHeadReaches(args: seq<Node>, codes: seq<Option<seq<Instr>>>)
    requires |codes| == |args| && |args| > 0
    ensures var head := Chain(args, codes, 0).(code := None);
      forall k :: 0 <= k < |args| ==> Descend(head, k).Some? && Descend(head, k).value.text == args[k].text
  {
    var head := Chain(args, codes, 0).(code := None);
    forall k | 0 <= k < |args|
      ensures Descend(head, k).Some? && Descend(head, k).value.text == args[k].text
    {
      ChainDescends(args, codes, 0, k);
      if k > 0 {
        assert Descend(head, k) == Descend(Chain(args, codes, 0), k);
      }
    }
  }

  /** Argument `k + d` hangs `d` levels below argument `k`, keeping its own label, type and children. */
  lemma {:induction false} ChainDescends(args: seq<Node>, codes: seq<Option<seq<Instr>>>, k: nat, d: nat)
    requires |codes| == |args| && k + d < |args|
    ensures Descend(Chain(args, codes, k), d) == Some(Chain(args, codes, k + d))
    ensures var n := Chain(args, codes, k + d);
      n.text == args[k + d].text && n.dtype == args[k + d].dtype &&
      n.children[..|args[k + d].children|] == args[k + d].children &&
      |n.children| == |args[k + d].children| + (if k + d + 1 < |args| then 1 else 0)
    decreases d
  {
    var n := Chain(args, codes, k + d);
    assert n.children[..|args[k + d].children|] == args[k + d].children;
    if d > 0 {
      ChainDescends(args, codes, k + 1, d - 1);
    }
  }

  /** The first check of a call that fails, in the order of `semantica_chamada_func`, for arguments of the given types. */
  function CallError(found: Option<Symbol>, ident: Token, types: seq<DataType>): Option<ErrorKind>
  {
    if found.None? then Some(Undeclared(ident.text, ident.line))
    else if found.value.nature == Identifier then Some(VariableAsFunction(ident.text, ident.line))
    else if |types| < found.value.numArgs then Some(MissingArgs(ident.text, ident.line, found.value.numArgs, |types|))
    else if |types| > found.value.numArgs then Some(ExcessArgs(ident.text, ident.line, found.value.numArgs, |types|))
    else match FirstMismatch(found.value.args, types)
      case Some(i) => Some(WrongTypeArgs(ident.text, ident.line, i, found.value.args[i].dtype, types[i]))
      case None => None
  }

  /** The arguments of the temporary list node, none when the call has no list. */
  function ArgNodes(argList: Option<Node>): seq<Node>
  {
    if argList.Some? then argList.value.children else []
  }

  /**
   * `semantica_chamada_func`: after the checks, the node `call <name>` of the
   * function's type gets the first argument as its only child, each
   * argument becomes the last child of the previous one, and the temporary
   * list node is discarded.
   */
  function Call(found: Option<Symbol>, ident: Token, argList: Option<Node>): Result<Node>
  {
    var args := ArgNodes(argList);
    if CallError(found, ident, ArgTypes(args)).Some? then Err(CallError(found, ident, ArgTypes(args)).value)
    else
      var call := Node("call " + ident.text, found.value.dtype, ident.line, [], None, None);
      if |args| == 0 then Ok(call)
      else Ok(AddChild(call, Chain(args, Rechained(Codes(args)), 0), Norm))
  }

  /** The checks of a call in their order; a call succeeds exactly when every check passes. */
  lemma CallChecks(found: Option<Symbol>, ident: Token, argList: Option<Node>)
    ensures var args := ArgNodes(argList);
      (found.None? ==> Call(found, ident, argList) == Err(Undeclared(ident.text, ident.line))) &&
      (found.Some? && found.value.nature == Identifier ==>
         Call(found, ident, argList) == Err(VariableAsFunction(ident.text, ident.line))) &&
      (found.Some? && found.value.nature != Identifier && |args| < found.value.numArgs ==>
         Call(found, ident, argList) == Err(MissingArgs(ident.text, ident.line, found.value.numArgs, |args|))) &&
      (found.Some? && found.value.nature != Identifier && |args| > found.value.numArgs ==>
         Call(found, ident, argList) == Err(ExcessArgs(ident.text, ident.line, found.value.numArgs, |args|)))
    ensures var args := ArgNodes(argList);
      Call(found, ident, argList).Ok? <==>
        found.Some? && found.value.nature != Identifier && |args| == found.value.numArgs &&
        forall j :: 0 <= j < |args| && j < |found.value.args| ==> found.value.args[j].dtype == args[j].dtype
  {
  }

  /**
   * The shape of a successful call: one child heading the chain of all
   * arguments; the call's own code is the code of the first two arguments.
   */
  lemma CallLayout(found: Option<Symbol>, ident: Token, argList: Option<Node>)
    ensures var args := ArgNodes(argList);
      Call(found, ident, argList).Ok? ==>
        var n := Call(found, ident, argList).value;
        n.text == "call " + ident.text && n.dtype == found.value.dtype && n.temp.None? &&
        (|args| == 0 ==> n.children == [] && n.code.None?) &&
        (|args| > 0 ==>
           |n.children| == 1 &&
           (forall k :: 0 <= k < |args| ==>
              Descend(n.children[0], k).Some? && Descend(n.children[0], k).value.text == args[k].text) &&
           Flat(n.code) == Flat(args[0].code) + (if |args| > 1 then Flat(args[1].code) else []))
  {
    var args := ArgNodes(argList);
    if Call(found, ident, argList).Ok? && |args| > 0 {
      var n := Call(found, ident, argList).value;
      var codes := Rechained(Codes(args));
      assert n.children[0] == Chain(args, codes, 0).(code := None);
      ChainHeadReaches(args, codes);
      if |args| > 1 {
        SpliceConcatenates(args[0].code, args[1].code, Norm);
      }
    }
  }

  // ---------------------------------------------------------------------
  // Statements

  /** `semantica_comando_ret`: the expression must have the given type, and that type must be the scope's return type. */
  function ReturnError(line: int, exprType: DataType, dtype: DataType, scopeType: DataType): Option<ErrorKind>
  {
    if exprType != dtype then Some(WrongTypeReturnExpr(line, exprType, dtype))
    else if dtype != scopeType then Some(WrongTypeReturnFunc(line, dtype, scopeType))
    else None
  }

  /**
   * The node `retorna`: the expression's code, then `retorna exp`. An
   * expression without a register reaches the operand builder with a null name.
   */
  function Return(exp: Node, dtype: DataType, scopeType: DataType): Result<Node>
  {
    if ReturnError(exp.line, exp.dtype, dtype, scopeType).Some? then Err(ReturnError(exp.line, exp.dtype, dtype, scopeType).value)
    else if exp.temp.None? then Err(NullRegister(exp.line))
    else Ok(AddChild(Node("retorna", exp.dtype, exp.line, [], None, Some([MakeRet(exp.temp.value)])), exp, Inv))
  }

  lemma ReturnChecks(exp: Node, dtype: DataType, scopeType: DataType)
    ensures exp.dtype != dtype ==> Return(exp, dtype, scopeType) == Err(WrongTypeReturnExpr(exp.line, exp.dtype, dtype))
    ensures exp.dtype == dtype && dtype != scopeType ==>
      Return(exp, dtype, scopeType) == Err(WrongTypeReturnFunc(exp.line, dtype, scopeType))
    ensures exp.dtype == dtype == scopeType && exp.temp.None? ==> Return(exp, dtype, scopeType) == Err(NullRegister(exp.line))
    ensures Return(exp, dtype, scopeType).Ok? <==> exp.dtype == dtype == scopeType && exp.temp.Some?
    ensures Return(exp, dtype, scopeType).Ok? ==>
      var n := Return(exp, dtype, scopeType).value;
      n.text == "retorna" && n.children == [exp.(code := None)] && n.temp.None? &&
      Flat(n.code) == Flat(exp.code) + [MakeRet(exp.temp.value)]
  {
  }

  /** The data type of a block that may be absent. */
  function TypeOf(block: Option<Node>): (t: Option<DataType>)
    ensures t.Some? <==> block.Some?
    ensures block.Some? ==> t.value == block.value.dtype
  {
    if block.Some? then Some(block.value.dtype) else None
  }

  /** The then- and else-blocks must agree in type; the check applies only when both exist. */
  function ConditionalError(line: int, thenType: Option<DataType>, elseType: Option<DataType>): Option<ErrorKind>
  {
    if thenType.Some? && elseType.Some? && thenType.value != elseType.value then
      Some(WrongTypeIfElse(line, thenType.value, elseType.value))
    else None
  }

  /** A branch list with `first` in front and `last` behind; an absent block counts as an empty list. */
  function Framed(block: Option<Node>, first: Instr, last: seq<Instr>): seq<Instr>
  {
    [first] + (if block.Some? then Flat(block.value.code) else []) + last
  }

  /**
   * `semantica_condicional` with labels `lThen`, `lElse`, `lEnd`: the
   * condition's code and `cbr exp -> lThen, lElse`, then the framed
   * then-branch (`nop` at lThen, its code, `jumpI -> lEnd`) and the framed
   * else-branch (`nop` at lElse, its code, `nop` at lEnd). The branch is
   * built before the blocks are checked, so a condition without a register
   * fails first.
   */
  function Conditional(exp: Node, thenBlock: Option<Node>, elseBlock: Option<Node>,
                       lThen: string, lElse: string, lEnd: string): Result<Node>
  {
    if exp.temp.None? then Err(NullRegister(exp.line)) else
    var thenList := Framed(thenBlock, MakeLabelledNop(lThen), [MakeJumpI(lEnd)]);
    var elseList := Framed(elseBlock, MakeLabelledNop(lElse), [MakeLabelledNop(lEnd)]);
    var no := AddChild(Node("se", exp.dtype, exp.line, [], None, Some([MakeCbr(exp.temp.value, lThen, lElse)])), exp, Inv);
    var withThen :=
      if thenBlock.Some? then AddChild(no, thenBlock.value.(code := Some(thenList)), Norm)
      else no.(code := SpliceInPlace(no.code, Some(thenList), Norm));
    if ConditionalError(exp.line, TypeOf(thenBlock), TypeOf(elseBlock)).Some? then Err(ConditionalError(exp.line, TypeOf(thenBlock), TypeOf(elseBlock)).value)
    else if elseBlock.Some? then Ok(AddChild(withThen, elseBlock.value.(code := Some(elseList)), Norm))
    else Ok(withThen.(code := SpliceInPlace(withThen.code, Some(elseList), Norm)))
  }

  /** The label layout of a conditional, and the if/else type check that applies only when both blocks exist. */
  lemma ConditionalLayout(exp: Node, thenBlock: Option<Node>, elseBlock: Option<Node>,
                          lThen: string, lElse: string, lEnd: string)
    ensures Conditional(exp, thenBlock, elseBlock, lThen, lElse, lEnd).Err? <==>
      exp.temp.None? || (thenBlock.Some? && elseBlock.Some? && thenBlock.value.dtype != elseBlock.value.dtype)
    ensures exp.temp.None? ==> Conditional(exp, thenBlock, elseBlock, lThen, lElse, lEnd) == Err(NullRegister(exp.line))
    ensures exp.temp.Some? && thenBlock.Some? && elseBlock.Some? && thenBlock.value.dtype != elseBlock.value.dtype ==>
      Conditional(exp, thenBlock, elseBlock, lThen, lElse, lEnd) ==
      Err(WrongTypeIfElse(exp.line, thenBlock.value.dtype, elseBlock.value.dtype))
    ensures Conditional(exp, thenBlock, elseBlock, lThen, lElse, lEnd).Ok? ==>
      var n := Conditional(exp, thenBlock, elseBlock, lThen, lElse, lEnd).value;
      n.text == "se" && n.dtype == exp.dtype && n.temp.None? &&
      |n.children| == 1 + (if thenBlock.Some? then 1 else 0) + (if elseBlock.Some? then 1 else 0) &&
      n.children[0] == exp.(code := None) &&
      Flat(n.code) ==
        Flat(exp.code) + [MakeCbr(exp.temp.value, lThen, lElse)] +
        [MakeLabelledNop(lThen)] + (if thenBlock.Some? then Flat(thenBlock.value.code) else []) + [MakeJumpI(lEnd)] +
        [MakeLabelledNop(lElse)] + (if elseBlock.Some? then Flat(elseBlock.value.code) else []) + [MakeLabelledNop(lEnd)]
  {
    assert ConditionalError(exp.line, TypeOf(thenBlock), TypeOf(elseBlock)).Some? <==>
      thenBlock.Some? && elseBlock.Some? && thenBlock.value.dtype != elseBlock.value.dtype;
    if exp.temp.None? { return; }
    var thenList := Framed(thenBlock, MakeLabelledNop(lThen), [MakeJumpI(lEnd)]);
    var elseList := Framed(elseBlock, MakeLabelledNop(lElse), [MakeLabelledNop(lEnd)]);
    var no := AddChild(Node("se", exp.dtype, exp.line, [], None, Some([MakeCbr(exp.temp.value, lThen, lElse)])), exp, Inv);
    assert no.code.Some?;
    var withThen :=
      if thenBlock.Some? then AddChild(no, thenBlock.value.(code := Some(thenList)), Norm)
      else no.(code := SpliceInPlace(no.code, Some(thenList), Norm));
    assert withThen.code.Some? && Flat(withThen.code) == Flat(no.code) + thenList;
    assert |withThen.children| == 1 + (if thenBlock.Some? then 1 else 0) && withThen.children[0] == exp.(code := None);
    Regroup(Flat(exp.code), [MakeCbr(exp.temp.value, lThen, lElse)],
      [MakeLabelledNop(lThen)], if thenBlock.Some? then Flat(thenBlock.value.code) else [], [MakeJumpI(lEnd)],
      [MakeLabelledNop(lElse)], if elseBlock.Some? then Flat(elseBlock.value.code) else [], [MakeLabelledNop(lEnd)]);
  }

  lemma Regroup(e: seq<Instr>, c: seq<Instr>, t1: seq<Instr>, t2: seq<Instr>, t3: seq<Instr>,
                l1: seq<Instr>, l2: seq<Instr>, l3: seq<Instr>)
    ensures ((e + c) + (t1 + t2 + t3)) + (l1 + l2 + l3) == e + c + t1 + t2 + t3 + l1 + l2 + l3
  {
  }

  /**
   * `semantica_enquanto` with labels `lTest`, `lBody`, `lEnd`: `nop` at
   * lTest is put in front of the condition's list (a condition without a
   * list gets none), then `cbr exp -> lBody, lEnd`, then `nop` at lBody,
   * the body's code, `jumpI -> lTest` and `nop` at lEnd. A condition
   * without a register reaches the branch's operand builder with a null name.
   */
  function While(exp: Node, body: Option<Node>, lTest: string, lBody: string, lEnd: string): Result<Node>
  {
    if exp.temp.None? then Err(NullRegister(exp.line)) else
    var test := exp.(code := if exp.code.Some? then Some([MakeLabelledNop(lTest)] + exp.code.value) else None);
    var bodyList := Framed(body, MakeLabelledNop(lBody), [MakeJumpI(lTest), MakeLabelledNop(lEnd)]);
    var no := AddChild(Node("enquanto", exp.dtype, exp.line, [], None, Some([MakeCbr(exp.temp.value, lBody, lEnd)])), test, Inv);
    if body.Some? then Ok(AddChild(no, body.value.(code := Some(bodyList)), Norm))
    else Ok(no.(code := SpliceInPlace(no.code, Some(bodyList), Norm)))
  }

  /** The label layout of a loop: test label, condition, branch, body label, body, jump back, exit label. */
  lemma WhileLayout(exp: Node, body: Option<Node>, lTest: string, lBody: string, lEnd: string)
    ensures While(exp, body, lTest, lBody, lEnd).Err? <==> exp.temp.None?
    ensures exp.temp.None? ==> While(exp, body, lTest, lBody, lEnd) == Err(NullRegister(exp.line))
    ensures While(exp, body, lTest, lBody, lEnd).Ok? ==>
      var n := While(exp, body, lTest, lBody, lEnd).value;
      n.text == "enquanto" && n.dtype == exp.dtype && n.temp.None? &&
      |n.children| == 1 + (if body.Some? then 1 else 0) &&
      Flat(n.code) ==
        (if exp.code.Some? then [MakeLabelledNop(lTest)] else []) + Flat(exp.code) +
        [MakeCbr(exp.temp.value, lBody, lEnd)] +
        [MakeLabelledNop(lBody)] + (if body.Some? then Flat(body.value.code) else []) +
        [MakeJumpI(lTest), MakeLabelledNop(lEnd)]
  {
    if exp.temp.None? { return; }
    var test := exp.(code := if exp.code.Some? then Some([MakeLabelledNop(lTest)] + exp.code.value) else None);
    assert Flat(test.code) == (if exp.code.Some? then [MakeLabelledNop(lTest)] else []) + Flat(exp.code);
    RegroupLoop(if exp.code.Some? then [MakeLabelledNop(lTest)] else [], Flat(exp.code),
      [MakeCbr(exp.temp.value, lBody, lEnd)], [MakeLabelledNop(lBody)],
      if body.Some? then Flat(body.value.code) else [], [MakeJumpI(lTest), MakeLabelledNop(lEnd)]);
  }

  lemma RegroupLoop(a: seq<Instr>, b: seq<Instr>, c: seq<Instr>, d: seq<Instr>, e: seq<Instr>, f: seq<Instr>)
    ensures ((a + b) + c) + (d + e + f) == a + b + c + d + e + f
  {
  }

  // ---------------------------------------------------------------------
  // Functions

  /** `semantica_funcao_definicao`: the function leaf with `nop` labelled by the function's name, then the body's code. */
  function FunctionDefinition(ident: Token, dtype: DataType, body: Option<Node>): Node
  {
    var no := Node(ident.text, dtype, ident.line, [], None, Some([MakeLabelledNop(ident.text)]));
    if body.Some? then AddChild(no, body.value, Norm) else no
  }

  lemma FunctionDefinitionCode(ident: Token, dtype: DataType, body: Option<Node>)
    ensures var n := FunctionDefinition(ident, dtype, body);
      n.text == ident.text && n.dtype == dtype && n.temp.None? &&
      Flat(n.code) == [MakeLabelledNop(ident.text)] + (if body.Some? then Flat(body.value.code) else []) &&
      Flat(n.code)[0].lbl == Some(ident.text)
  {
  }

  // ---------------------------------------------------------------------
  // Data segment

  /** The keys of `order` that name variables of `table`: what `gerar_segmento_dados` emits, in table order. */
  function VariablesIn(order: seq<string>, table: map<string, Symbol>): (r: seq<string>)
  {
    if order == [] then []
    else
      var rest := VariablesIn(order[..|order| - 1], table);
      var k := order[|order| - 1];
      if k in table && table[k].nature == Identifier then rest + [k] else rest
  }

  /** A key is emitted exactly when it is a variable of the table, and no key twice. */
  lemma {:induction false} VariablesInExact(order: seq<string>, table: map<string, Symbol>)
    requires forall i, j :: 0 <= i < j < |order| ==> order[i] != order[j]
    ensures forall k :: k in VariablesIn(order, table) <==> k in order && k in table && table[k].nature == Identifier
    ensures forall i, j :: 0 <= i < j < |VariablesIn(order, table)| ==> VariablesIn(order, table)[i] != VariablesIn(order, table)[j]
    decreases |order|
  {
    if order != [] {
      var pre := order[..|order| - 1];
      VariablesInExact(pre, table);
      var k := order[|order| - 1];
      assert k !in pre;
    }
  }
}
