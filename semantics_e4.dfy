// The semantic actions of the type-checking stage (E4). Each action checks
// names and types against the global scope stack and either stops with an
// error kind or builds heap nodes of the syntax tree; this stage generates
// no code. The error conditions are the ones the code-generating stages
// share, stated once in `Semantics`.

module SemanticsE4 {
  import opened Types
  import opened Scopes
  import opened Semantics
  import opened TreeE4
  import Ast
  import Actions

  /** A block that may be absent, as a list of zero or one child. */
  function Present(block: TreeNode?): seq<TreeNode>
  {
    if block == null then [] else [block]
  }

  /** The data type of a block that may be absent. */
  function TypeOfTree(block: TreeNode?): (t: Option<DataType>)
    reads block
    ensures t.Some? <==> block != null
    ensures block != null ==> t.value == block.dtype
  {
    if block == null then None else Some(block.dtype)
  }

  /** The data types of a list of nodes, in order. */
  function TreeTypes(nodes: seq<TreeNode>): (ts: seq<DataType>)
    reads nodes
    ensures |ts| == |nodes| && forall i :: 0 <= i < |nodes| ==> ts[i] == nodes[i].dtype
  {
    if nodes == [] then [] else TreeTypes(nodes[..|nodes| - 1]) + [nodes[|nodes| - 1].dtype]
  }

  /** `criar_no_folha`: a childless node labelled with the lexeme, at the token's line. */
  method NewLeaf(token: Token, dtype: DataType) returns (n: TreeNode)
    ensures fresh(n) && n.text == token.text && n.dtype == dtype && n.line == token.line && n.children == []
  {
    n := new TreeNode(token.text, dtype, token.line);
  }

  /** `criar_no_unario`: the operator node takes the child's line and the child as its only child. */
  method NewUnary(op: string, dtype: DataType, child: TreeNode) returns (n: TreeNode)
    ensures fresh(n) && n.text == op && n.dtype == dtype && n.line == child.line && n.children == [child]
  {
    n := new TreeNode(op, dtype, child.line);
    AddChild(n, child);
  }

  /** `criar_no_binario`: the operator node takes the first child's line and both children in order. */
  method NewBinary(op: string, dtype: DataType, left: TreeNode, right: TreeNode) returns (n: TreeNode)
    ensures fresh(n) && n.text == op && n.dtype == dtype && n.line == left.line && n.children == [left, right]
  {
    n := new TreeNode(op, dtype, left.line);
    AddChild(n, left);
    AddChild(n, right);
  }

  /** `semantica_expressoes_binarias`: both operands must have the same type, which becomes the node's. */
  method BinaryExpression(op: string, left: TreeNode, right: TreeNode) returns (r: Result<TreeNode>)
    ensures r.Err? <==> left.dtype != right.dtype
    ensures r.Err? ==> r.error == WrongTypeBinaryOp(left.line, left.dtype, right.dtype, op)
    ensures r.Ok? ==>
      fresh(r.value) && r.value.text == op && r.value.dtype == left.dtype &&
      r.value.line == left.line && r.value.children == [left, right]
  {
    if left.dtype != right.dtype {
      return Err(WrongTypeBinaryOp(left.line, left.dtype, right.dtype, op));
    }
    var n := NewBinary(op, left.dtype, left, right);
    r := Ok(n);
  }

  /** The state of E4's semantic actions: the global scope stack. */
  class CheckerE4 {
    /** `g_pilha_escopo`. */
    const stack: ScopeStack

    ghost predicate Valid()
      reads this, stack
    {
      stack.Valid()
    }

    /** The stack starts uninitialised. */
    constructor ()
      ensures Valid() && fresh(stack) && stack.scopes == []
    {
      stack := new ScopeStack();
    }

    /** `semantica_push_scope`, with the unwritten return type of the new scope as `indeterminate`. */
    method PushScope(indeterminate: DataType)
      requires Valid()
      modifies stack
      ensures Valid()
      ensures stack.scopes == old(stack.scopes) + [Scope(map[], [], indeterminate, None)]
    {
      stack.PushUninitialised(indeterminate);
    }

    /** `semantica_pop_scope`. */
    method PopScope()
      requires Valid()
      modifies stack
      ensures Valid()
      ensures old(stack.scopes) == [] ==> stack.scopes == []
      ensures old(stack.scopes) != [] ==> stack.scopes == old(stack.scopes)[..|old(stack.scopes)| - 1]
    {
      stack.Pop();
    }

    /** `semantica_pop_scope_error`: pops until no scope is left. */
    method PopAllScopes()
      requires Valid()
      modifies stack
      ensures Valid() && stack.scopes == []
    {
      while stack.scopes != []
        invariant Valid()
        decreases |stack.scopes|
      {
        stack.Pop();
      }
    }

    /**
     * `semantica_funcao_declaracao`: the function is declared in the current
     * scope, then a scope for its parameters and body is opened and given the
     * function's return type and the function as the one being defined.
     */
    method DeclareFunction(ident: Token, dtype: DataType) returns (out: Outcome)
      requires Valid()
      modifies stack
      ensures Valid()
      ensures old(stack.scopes) == [] ==> out == Fail(Internal) && stack.scopes == old(stack.scopes)
      ensures old(stack.scopes) != [] && ident.text in old(stack.scopes)[|old(stack.scopes)| - 1].table ==>
        out == Fail(Declared(ident.text, ident.line, old(stack.scopes)[|old(stack.scopes)| - 1].table[ident.text].token.line)) &&
        stack.scopes == old(stack.scopes)
      ensures old(stack.scopes) != [] && ident.text !in old(stack.scopes)[|old(stack.scopes)| - 1].table ==>
        out == Pass &&
        stack.scopes == Inserted(old(stack.scopes), CreateEntryFun(ident.text, dtype, ident)) +
                        [Scope(map[], [], dtype, Some(ident.text))]
    {
      var entry := CreateEntryFun(ident.text, dtype, ident);
      out := stack.Insert(ident.text, entry);
      if out.Fail? {
        return;
      }
      // The return type the push leaves unwritten is overwritten at once.
      stack.PushUninitialised(Indef);
      stack.EnterFunction(dtype, ident.text);
    }

    /**
     * `semantica_funcao_definicao`: when a function is being defined, its
     * symbol gets the parameter list and the length a counting loop finds;
     * then the function's scope is closed and its node built, with the body
     * as the only child when there is one.
     */
    method DefineFunction(ident: Token, dtype: DataType, params: seq<Param>, body: TreeNode?) returns (n: TreeNode)
      requires Valid() && |stack.scopes| > 0
      modifies stack
      ensures Valid()
      ensures var s := old(stack.scopes);
        s[|s| - 1].currentFunction.None? ==> stack.scopes == s[..|s| - 1]
      ensures var s := old(stack.scopes);
        s[|s| - 1].currentFunction.Some? ==>
          var key := s[|s| - 1].currentFunction.value;
          var fn := s[|s| - 2].table[key];
          stack.scopes == s[..|s| - 2] + [s[|s| - 2].(table := s[|s| - 2].table[key := fn.(args := params, numArgs := |params|)])]
      ensures fresh(n) && n.text == ident.text && n.dtype == dtype && n.line == ident.line && n.children == Present(body)
    {
      var count := |stack.scopes|;
      if stack.scopes[count - 1].currentFunction.Some? {
        var key := stack.scopes[count - 1].currentFunction.value;
        var fn := stack.scopes[count - 2].table[key];
        var k := 0;
        var rest := params;
        while rest != []
          invariant 0 <= k <= |params| && rest == params[k..]
        {
          k := k + 1;
          rest := rest[1..];
        }
        stack.Update(count - 2, fn.(args := params, numArgs := k));
      }
      stack.Pop();
      n := NewLeaf(ident, dtype);
      if body != null {
        AddChild(n, body);
      }
    }

    /** `semantica_param`: the parameter is declared as a variable of the current scope and listed with its type. */
    method DeclareParam(ident: Token, dtype: DataType) returns (r: Result<Param>)
      requires Valid()
      modifies stack
      ensures Valid()
      ensures old(stack.scopes) == [] ==> r == Err(Internal) && stack.scopes == old(stack.scopes)
      ensures old(stack.scopes) != [] && ident.text in old(stack.scopes)[|old(stack.scopes)| - 1].table ==>
        r == Err(Declared(ident.text, ident.line, old(stack.scopes)[|old(stack.scopes)| - 1].table[ident.text].token.line)) &&
        stack.scopes == old(stack.scopes)
      ensures old(stack.scopes) != [] && ident.text !in old(stack.scopes)[|old(stack.scopes)| - 1].table ==>
        r == Ok(Param(dtype, ident.text)) &&
        stack.scopes == Inserted(old(stack.scopes), CreateEntryVar(ident.text, dtype, ident))
    {
      var entry := CreateEntryVar(ident.text, dtype, ident);
      var out := stack.Insert(ident.text, entry);
      if out.Fail? {
        return Err(out.error);
      }
      r := Ok(Param(dtype, entry.key));
    }

    /**
     * `semantica_comando_atrib`: an undeclared name, a function used as a
     * variable and a type mismatch are errors, in that order; otherwise a
     * `:=` node of the variable's type over the identifier and the expression.
     */
    method Assign(ident: Token, exp: TreeNode) returns (r: Result<TreeNode>)
      requires Valid()
      ensures var found := Find(stack.scopes, ident.text);
        (r.Err? <==> AssignError(found, ident, exp.dtype).Some?) &&
        (r.Err? ==> r.error == AssignError(found, ident, exp.dtype).value)
      ensures r.Ok? ==> var entry := Find(stack.scopes, ident.text).value;
        fresh(r.value) && r.value.text == ":=" && r.value.dtype == entry.dtype && r.value.line == ident.line &&
        |r.value.children| == 2 && r.value.children[1] == exp &&
        fresh(r.value.children[0]) && r.value.children[0].text == ident.text &&
        r.value.children[0].dtype == entry.dtype && r.value.children[0].line == ident.line &&
        r.value.children[0].children == []
    {
      var found := stack.Lookup(ident.text);
      if found.None? {
        return Err(Undeclared(ident.text, ident.line));
      }
      var entry := found.value;
      if entry.nature == Function {
        return Err(FunctionAsVariable(ident.text, ident.line));
      }
      if entry.dtype != exp.dtype {
        return Err(WrongTypeAssignment(ident.text, ident.line, entry.dtype, exp.dtype));
      }
      var leaf := NewLeaf(ident, entry.dtype);
      var n := NewBinary(":=", entry.dtype, leaf, exp);
      r := Ok(n);
    }

    /** `semantica_identificador_variavel`: a declared variable becomes a leaf of its declared type. */
    method UseVariable(ident: Token) returns (r: Result<TreeNode>)
      requires Valid()
      ensures var found := Find(stack.scopes, ident.text);
        (r.Err? <==> VariableUseError(found, ident).Some?) &&
        (r.Err? ==> r.error == VariableUseError(found, ident).value)
      ensures r.Ok? ==>
        fresh(r.value) && r.value.text == ident.text && r.value.dtype == Find(stack.scopes, ident.text).value.dtype &&
        r.value.line == ident.line && r.value.children == []
    {
      var found := stack.Lookup(ident.text);
      if found.None? {
        return Err(Undeclared(ident.text, ident.line));
      }
      if found.value.nature == Function {
        return Err(FunctionAsVariable(ident.text, ident.line));
      }
      var n := NewLeaf(ident, found.value.dtype);
      r := Ok(n);
    }

    /**
     * `semantica_comando_ret`: the expression must have the stated type and
     * the stated type must be the scope's return type; the node is a
     * `retorna` over the expression.
     */
    method Return(exp: TreeNode, dtype: DataType) returns (r: Result<TreeNode>)
      requires Valid() && |stack.scopes| > 0
      ensures var scopeType := stack.scopes[|stack.scopes| - 1].returnType;
        (r.Err? <==> ReturnError(exp.line, exp.dtype, dtype, scopeType).Some?) &&
        (r.Err? ==> r.error == ReturnError(exp.line, exp.dtype, dtype, scopeType).value)
      ensures r.Ok? ==>
        fresh(r.value) && r.value.text == "retorna" && r.value.dtype == exp.dtype &&
        r.value.line == exp.line && r.value.children == [exp]
    {
      var scopeType := stack.scopes[|stack.scopes| - 1].returnType;
      if exp.dtype != dtype {
        return Err(WrongTypeReturnExpr(exp.line, exp.dtype, dtype));
      }
      if dtype != scopeType {
        return Err(WrongTypeReturnFunc(exp.line, dtype, scopeType));
      }
      var n := NewUnary("retorna", exp.dtype, exp);
      r := Ok(n);
    }

    /**
     * `semantica_condicional`: a `se` node over the condition, then the
     * then-block and the else-block when present. The two blocks must agree
     * in type only when both are present.
     */
    method Conditional(exp: TreeNode, thenBlock: TreeNode?, elseBlock: TreeNode?) returns (r: Result<TreeNode>)
      ensures (r.Err? <==> ConditionalError(exp.line, TypeOfTree(thenBlock), TypeOfTree(elseBlock)).Some?) &&
        (r.Err? ==> r.error == ConditionalError(exp.line, TypeOfTree(thenBlock), TypeOfTree(elseBlock)).value)
      ensures r.Ok? ==>
        fresh(r.value) && r.value.text == "se" && r.value.dtype == exp.dtype &&
        r.value.line == exp.line && r.value.children == [exp] + Present(thenBlock) + Present(elseBlock)
    {
      var n := NewUnary("se", exp.dtype, exp);
      if thenBlock != null {
        AddChild(n, thenBlock);
      }
      if elseBlock != null {
        if thenBlock != null && thenBlock.dtype != elseBlock.dtype {
          return Err(WrongTypeIfElse(exp.line, thenBlock.dtype, elseBlock.dtype));
        }
        AddChild(n, elseBlock);
      }
      r := Ok(n);
    }

    /**
     * `semantica_declaracao_variavel`, and with no initialiser also
     * `semantica_declaracao_variavel_no_ini`: the variable is declared in the
     * current scope; an initialiser must have the declared type and yields a
     * `com` node over the identifier and the initialiser; no initialiser
     * yields no node.
     */
    method DeclareVariable(ident: Token, dtype: DataType, init: TreeNode?) returns (r: Result<TreeNode?>)
      requires Valid()
      modifies stack
      ensures Valid()
      ensures old(stack.scopes) == [] ==> r == Err(Internal) && stack.scopes == old(stack.scopes)
      ensures old(stack.scopes) != [] && ident.text in old(stack.scopes)[|old(stack.scopes)| - 1].table ==>
        r == Err(Declared(ident.text, ident.line, old(stack.scopes)[|old(stack.scopes)| - 1].table[ident.text].token.line)) &&
        stack.scopes == old(stack.scopes)
      ensures old(stack.scopes) != [] && ident.text !in old(stack.scopes)[|old(stack.scopes)| - 1].table ==>
        stack.scopes == Inserted(old(stack.scopes), CreateEntryVar(ident.text, dtype, ident)) &&
        (init == null ==> r == Ok(null)) &&
        (init != null && init.dtype != dtype ==> r == Err(WrongTypeInitialization(ident.text, ident.line, dtype, init.dtype))) &&
        (init != null && init.dtype == dtype ==>
          r.Ok? && r.value != null && fresh(r.value) && r.value.text == "com" && r.value.dtype == dtype &&
          r.value.line == ident.line && |r.value.children| == 2 && r.value.children[1] == init &&
          fresh(r.value.children[0]) && r.value.children[0].text == ident.text &&
          r.value.children[0].dtype == dtype && r.value.children[0].children == [])
    {
      var entry := CreateEntryVar(ident.text, dtype, ident);
      var out := stack.Insert(ident.text, entry);
      if out.Fail? {
        return Err(out.error);
      }
      if init == null {
        return Ok(null);
      }
      if init.dtype != dtype {
        return Err(WrongTypeInitialization(ident.text, ident.line, dtype, init.dtype));
      }
      var leaf := NewLeaf(ident, dtype);
      var n := NewBinary("com", dtype, leaf, init);
      r := Ok(n);
    }

    /**
     * The type loop of `semantica_chamada_func`: it walks the arguments
     * beside the parameter list and stops at the first type difference or
     * when the parameters run out.
     */
    static method ArgTypeMismatch(params: seq<Param>, args: seq<TreeNode>) returns (m: Option<nat>)
      ensures m == FirstMismatch(params, TreeTypes(args))
    {
      var i := 0;
      while i < |args|
        invariant 0 <= i <= |args| && i <= |params|
        invariant forall j :: 0 <= j < i ==> params[j].dtype == args[j].dtype
      {
        if i == |params| {
          break;
        }
        if params[i].dtype != args[i].dtype {
          return Some(i);
        }
        i := i + 1;
      }
      m := None;
    }

    /**
     * The re-chaining loop of `semantica_chamada_func`: every argument but
     * the first becomes the last child of the argument before it.
     */
    static method Rechain(args: seq<TreeNode>)
      requires forall i, j :: 0 <= i < j < |args| ==> args[i] != args[j]
      modifies args
      ensures forall i :: 0 <= i < |args| - 1 ==> args[i].children == old(args[i].children) + [args[i + 1]]
      ensures |args| > 0 ==> args[|args| - 1].children == old(args[|args| - 1].children)
      ensures forall i :: 0 <= i < |args| ==>
        args[i].text == old(args[i].text) && args[i].dtype == old(args[i].dtype) && args[i].line == old(args[i].line)
    {
      var k := 1;
      while k < |args|
        invariant 1 <= k <= |args| || args == []
        invariant forall j :: 0 <= j < k - 1 && j < |args| ==> args[j].children == old(args[j].children) + [args[j + 1]]
        invariant forall j :: k - 1 <= j < |args| ==> args[j].children == old(args[j].children)
        invariant forall j :: 0 <= j < |args| ==>
          args[j].text == old(args[j].text) && args[j].dtype == old(args[j].dtype) && args[j].line == old(args[j].line)
      {
        AddChild(args[k - 1], args[k]);
        k := k + 1;
      }
    }

    /**
     * The first phase of `semantica_chamada_func`: the lookup, then the
     * nature, count and type checks in their order.
     */
    method CheckCall(ident: Token, args: seq<TreeNode>) returns (found: Option<Symbol>, error: Option<ErrorKind>)
      requires Valid()
      ensures found == Find(stack.scopes, ident.text)
      ensures error == CallError(found, ident, TreeTypes(args))
    {
      found := stack.Lookup(ident.text);
      if found.None? {
        return found, Some(Undeclared(ident.text, ident.line));
      }
      var entry := found.value;
      if entry.nature == Identifier {
        return found, Some(VariableAsFunction(ident.text, ident.line));
      }
      var provided := |args|;
      if provided < entry.numArgs {
        return found, Some(MissingArgs(ident.text, ident.line, entry.numArgs, provided));
      }
      if provided > entry.numArgs {
        return found, Some(ExcessArgs(ident.text, ident.line, entry.numArgs, provided));
      }
      var mismatch := ArgTypeMismatch(entry.args, args);
      if mismatch.Some? {
        var i := mismatch.value;
        return found, Some(WrongTypeArgs(ident.text, ident.line, i, entry.args[i].dtype, args[i].dtype));
      }
      error := None;
    }

    /**
     * The second phase of `semantica_chamada_func` for a list node that is
     * present: with arguments, the first becomes the only child of the new
     * `call` node and each one the parent of the next, and the list node forgets
     * them; in either case the list node is then released, alone.
     */
    static method Restructure(call: TreeNode, argList: TreeNode) returns (released: seq<TreeNode>)
      requires call.children == [] && call != argList && call !in argList.children && argList !in argList.children
      requires forall i, j :: 0 <= i < j < |argList.children| ==> argList.children[i] != argList.children[j]
      modifies call, argList, argList.children
      ensures var args := old(argList.children);
        call.children == (if args == [] then [] else [args[0]]) &&
        (forall i :: 0 <= i < |args| - 1 ==> args[i].children == old(args[i].children) + [args[i + 1]]) &&
        (args != [] ==> args[|args| - 1].children == old(args[|args| - 1].children)) &&
        forall i :: 0 <= i < |args| ==>
          args[i].text == old(args[i].text) && args[i].dtype == old(args[i].dtype) && args[i].line == old(args[i].line)
      ensures call.text == old(call.text) && call.dtype == old(call.dtype) && call.line == old(call.line)
      ensures argList.children == [] && released == [argList]
    {
      var args := argList.children;
      if args != [] {
        Rechain(args);
        AddChild(call, args[0]);
        DetachChildren(argList);
      }
      released := Free(argList, 1);
    }

    /** The node `semantica_chamada_func` builds once the checks pass, with the list node, if any, restructured. */
    static method NewCall(text: string, dtype: DataType, line: int, argList: TreeNode?) returns (call: TreeNode, released: seq<TreeNode>)
      requires argList != null ==> argList !in argList.children
      requires argList != null ==> forall i, j :: 0 <= i < j < |argList.children| ==> argList.children[i] != argList.children[j]
      modifies argList, if argList == null then [] else argList.children
      ensures var args := if argList == null then [] else old(argList.children);
        fresh(call) && call.text == text && call.dtype == dtype && call.line == line &&
        call.children == (if args == [] then [] else [args[0]]) &&
        (forall i :: 0 <= i < |args| - 1 ==> args[i].children == old(args[i].children) + [args[i + 1]]) &&
        (args != [] ==> args[|args| - 1].children == old(args[|args| - 1].children)) &&
        forall i :: 0 <= i < |args| ==>
          args[i].text == old(args[i].text) && args[i].dtype == old(args[i].dtype) && args[i].line == old(args[i].line)
      ensures argList != null ==> argList.children == [] && released == [argList]
      ensures argList == null ==> released == []
    {
      call := new TreeNode(text, dtype, line);
      released := [];
      if argList != null {
        released := Restructure(call, argList);
      }
    }

    /**
     * `semantica_chamada_func`: the checks of `CallError`, in its order; then
     * a `call` node of the function's return type whose only child is the
     * first argument, each argument becoming the parent of the next, and the
     * temporary list node emptied and released.
     */
    method Call(ident: Token, argList: TreeNode?) returns (r: Result<TreeNode>, released: seq<TreeNode>)
      requires Valid()
      requires argList != null ==> argList !in argList.children
      requires argList != null ==> forall i, j :: 0 <= i < j < |argList.children| ==> argList.children[i] != argList.children[j]
      modifies argList, if argList == null then [] else argList.children
      ensures var args := if argList == null then [] else old(argList.children);
        var found := Find(stack.scopes, ident.text);
        (r.Err? <==> CallError(found, ident, old(TreeTypes(args))).Some?) &&
        (r.Err? ==> r.error == CallError(found, ident, old(TreeTypes(args))).value)
      ensures r.Ok? ==> var args := if argList == null then [] else old(argList.children);
        fresh(r.value) && r.value.text == "call " + ident.text &&
        r.value.dtype == Find(stack.scopes, ident.text).value.dtype && r.value.line == ident.line &&
        r.value.children == (if args == [] then [] else [args[0]]) &&
        (forall i :: 0 <= i < |args| - 1 ==> args[i].children == old(args[i].children) + [args[i + 1]]) &&
        (args != [] ==> args[|args| - 1].children == old(args[|args| - 1].children))
      ensures r.Ok? ==> var args := if argList == null then [] else old(argList.children);
        forall i :: 0 <= i < |args| ==>
          args[i].text == old(args[i].text) && args[i].dtype == old(args[i].dtype) && args[i].line == old(args[i].line)
      ensures r.Ok? && argList != null ==> argList.children == [] && released == [argList]
      ensures r.Err? || argList == null ==> released == []
    {
      var args := if argList == null then [] else argList.children;
      var found, error := CheckCall(ident, args);
      if error.Some? {
        return Err(error.value), [];
      }
      var call;
      call, released := NewCall("call " + ident.text, found.value.dtype, ident.line, argList);
      r := Ok(call);
    }
  }

  /**
   * A well-typed `return` in a block nested in a function body, as this
   * stage checks it: `int f() { { return 1; } }`. The block's scope carries
   * the return type its push left unwritten, so the outcome depends on what
   * that memory held: the return passes only if it happens to hold TIPO_INT.
   */
  method NestedReturnE4(indeterminate: DataType) returns (r: Result<TreeNode>)
    ensures indeterminate == Int ==> r.Ok?
    ensures indeterminate != Int ==> r == Err(WrongTypeReturnFunc(2, Int, indeterminate))
  {
    var c := new CheckerE4();
    c.PushScope(indeterminate);
    var declared := c.DeclareFunction(Token(1, 0, "f"), Int);
    c.PushScope(indeterminate);
    var one := NewLeaf(Token(2, 0, "1"), Int);
    r := c.Return(one, Int);
  }

  /**
   * The same program in the code-generating stages, whose push copies the
   * parent's return type: the nested block inherits TIPO_INT from the
   * function's scope and the return is accepted.
   */
  method NestedReturnE6() returns (r: Result<Ast.Node>)
    ensures r.Ok?
  {
    var c := new Actions.Compiler();
    c.PushScope();
    var declared := c.DeclareFunction(Token(1, 0, "f"), Int);
    c.PushScope();
    var one := c.NewLeaf(Token(2, 0, "1"), Int, Literal);
    r := c.ReturnCommand(one, Int);
  }
}
