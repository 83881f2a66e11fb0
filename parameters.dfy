// The parameters of the code-generating stage (E6). `semantica_param`
// inserts a parameter with the defaults of `create_entry_var` and never
// places it, so a parameter is a global at offset 0 of the data segment:
// its loads read `rbss` at offset 0 under its own name, and so do the loads
// of the first global. The cache of the lowering is keyed on the base and
// offset only, so a load of the parameter right after a load of that global
// skips its read.

module Parameters {
  import opened Types
  import opened Iloc
  import opened Ast
  import opened Scopes
  import opened Semantics
  import opened Assembly
  import opened Peephole
  import Names
  import Actions
  import SemanticsE5

  /** A global `g`, then a function `f` with a parameter `p`: `p` keeps the unplaced defaults, global at offset 0. */
  method GlobalThenParam() returns (c: Actions.Compiler)
    ensures fresh(c) && fresh(c.stack) && fresh(c.names) && c.Valid() && c.names.countTemp == 1000
    ensures Find(c.stack.scopes, "g") == Some(Actions.Placed("g", Int, Token(1, 0, "g"), true, 0))
    ensures Find(c.stack.scopes, "p") == Some(CreateEntryVar("p", Int, Token(3, 0, "p")))
  {
    ghost var s1, s2;
    c, s1, s2 := SemanticsE5.OpenGlobalThenFunction();
    ghost var s3 := c.stack.scopes;
    var tp := Token(3, 0, "p");
    var p := c.DeclareParam(tp, Int);
    SemanticsE5.ScenarioFindsE5(s1, s2, s3, c.stack.scopes, Actions.Placed("g", Int, Token(1, 0, "g"), true, 0),
      CreateEntryFun("f", Int, Token(2, 0, "f")), CreateEntryVar("p", Int, tp));
  }

  /** In that program, `g` and `p` both load from `rbss` at offset 0, each under its own name. */
  method ParamSharesGlobalKey() returns (loadG: Result<Node>, loadP: Result<Node>)
    ensures loadG.Ok? && loadP.Ok?
    ensures Flat(loadG.value.code) + Flat(loadP.value.code) == SharedKeyLoads(1000, 1001)
  {
    var c := GlobalThenParam();
    loadG := c.UseVariable(Token(4, 0, "g"));
    loadP := c.UseVariable(Token(5, 0, "p"));
  }

  /** The lowering accepts a `loadAI` of a frame or data-segment cell into a generated register. */
  lemma LoadIsLowerable(base: string, offset: int, n: nat, global: Option<string>)
    requires (base == "rbss" || base == "rfp") && offset >= 0
    ensures Lowerable(MakeLoadAI(base, offset, Names.TempName(n), global))
    ensures OperandArg(MakeLoadAI(base, offset, Names.TempName(n), global).targets[0]) == Mem(Cell(LocalVar(4 * n)))
  {
    RegIdClasses(n, "");
  }

  /** The loads of `g` and `p` into registers `a` and `b`, as the program emits them. */
  function SharedKeyLoads(a: nat, b: nat): seq<Instr>
  {
    [MakeLoadAI("rbss", 0, Names.TempName(a), Some("g")), MakeLoadAI("rbss", 0, Names.TempName(b), Some("p"))]
  }

  /** Both loads are lowerable, share the key (`rbss`, 0) and name different cells. */
  lemma SharedKeyDisagrees(a: nat, b: nat)
    ensures var code := SharedKeyLoads(a, b);
      (forall k :: 0 <= k < |code| ==> Lowerable(code[k])) && !KeysAgree(code)
  {
    var code := SharedKeyLoads(a, b);
    LoadIsLowerable("rbss", 0, a, Some("g"));
    LoadIsLowerable("rbss", 0, b, Some("p"));
    assert MemoryKey(code[0]) == MemoryKey(code[1]) && MemoryPlace(code[0]) != MemoryPlace(code[1]);
  }

  /** Two unlabelled loads with the same key: with the cache the second read is gone. */
  lemma SameKeyCachedLines(i0: Instr, i1: Instr, maxReg: nat)
    requires Lowerable(i0) && Lowerable(i1) && i0.opcode == LoadAI && i1.opcode == LoadAI
    requires i0.lbl.None? && i1.lbl.None? && MemoryKey(i0) == MemoryKey(i1)
    ensures Lower([i0, i1], maxReg, Invalidated).0 ==
      [Mov(Mem(MemoryPlace(i0)), Acc), Mov(Acc, OperandArg(i0.targets[0]))] + [Mov(Acc, OperandArg(i1.targets[0]))]
  {
    var code := [i0, i1];
    PeepholeRule(i0, maxReg, Invalidated);
    PeepholeRule(i1, maxReg, Step(i0, maxReg, Invalidated).1);
    assert code[..1] == [i0] && code[..1][..0] == [];
    assert Lower(code[..1], maxReg, Invalidated).0 == Step(i0, maxReg, Invalidated).0;
    assert Lower(code[..1], maxReg, Invalidated).1 == Step(i0, maxReg, Invalidated).1;
  }

  /** Without the cache both reads are there. */
  lemma SameKeyUncachedLines(i0: Instr, i1: Instr, maxReg: nat)
    requires Lowerable(i0) && Lowerable(i1) && i0.opcode == LoadAI && i1.opcode == LoadAI
    requires i0.lbl.None? && i1.lbl.None?
    ensures LowerUncached([i0, i1], maxReg) ==
      [Mov(Mem(MemoryPlace(i0)), Acc), Mov(Acc, OperandArg(i0.targets[0]))] +
      [Mov(Mem(MemoryPlace(i1)), Acc), Mov(Acc, OperandArg(i1.targets[0]))]
  {
    var code := [i0, i1];
    var s0, s1 := Step(i0, maxReg, Invalidated).0, Step(i1, maxReg, Invalidated).0;
    assert code[..1] == [i0] && code[..1][..0] == [];
    assert LowerUncached(code[..1], maxReg) == s0;
    assert LowerUncached(code, maxReg) == s0 + s1;
    PeepholeRule(i0, maxReg, Invalidated);
    assert s0 == [Mov(Mem(MemoryPlace(i0)), Acc), Mov(Acc, OperandArg(i0.targets[0]))];
    PeepholeRule(i1, maxReg, Invalidated);
    assert s1 == [Mov(Mem(MemoryPlace(i1)), Acc), Mov(Acc, OperandArg(i1.targets[0]))];
  }

  /** From a state where `g` holds 1 and `p` holds 2: the cached lines end with 1 in %eax, the uncached with 2. */
  lemma SharedKeyRuns(a: nat, b: nat)
    ensures var st := MovState(None, map[Named("g") := Some(1), Named("p") := Some(2)]);
      var writeA, writeB := Mov(Acc, Mem(Cell(LocalVar(4 * a)))), Mov(Acc, Mem(Cell(LocalVar(4 * b))));
      Run(st, [Mov(Mem(Named("g")), Acc), writeA] + [writeB]).acc == Some(1) &&
      Run(st, [Mov(Mem(Named("g")), Acc), writeA] + [Mov(Mem(Named("p")), Acc), writeB]).acc == Some(2)
  {
    var st := MovState(None, map[Named("g") := Some(1), Named("p") := Some(2)]);
    var readG, readP := Mov(Mem(Named("g")), Acc), Mov(Mem(Named("p")), Acc);
    var writeA, writeB := Mov(Acc, Mem(Cell(LocalVar(4 * a)))), Mov(Acc, Mem(Cell(LocalVar(4 * b))));
    RunTwo(st, readG, writeA);
    var mid := Run(st, [readG, writeA]);
    assert mid.acc == Some(1) && mid.cells[Named("p")] == Some(2);
    RunAppend(st, [readG, writeA], [writeB]);
    RunOne(mid, writeB);
    RunAppend(st, [readG, writeA], [readP, writeB]);
    RunTwo(mid, readP, writeB);
  }

  /**
   * The two loads of that program, lowered: the cache takes `p`'s read for
   * `g`'s, so %eax ends with `g`'s value where the code without the cache
   * leaves `p`'s. Their names disagree on the shared key.
   */
  lemma ParamReadElided(a: nat, b: nat, maxReg: nat)
    ensures var code := SharedKeyLoads(a, b);
      var st := MovState(None, map[Named("g") := Some(1), Named("p") := Some(2)]);
      (forall k :: 0 <= k < |code| ==> Lowerable(code[k])) && !KeysAgree(code) &&
      Run(st, Lower(code, maxReg, Invalidated).0).acc == Some(1) &&
      Run(st, LowerUncached(code, maxReg)).acc == Some(2)
  {
    SharedKeyDisagrees(a, b);
    var code := SharedKeyLoads(a, b);
    LoadIsLowerable("rbss", 0, a, Some("g"));
    LoadIsLowerable("rbss", 0, b, Some("p"));
    SameKeyCachedLines(code[0], code[1], maxReg);
    SameKeyUncachedLines(code[0], code[1], maxReg);
    SharedKeyRuns(a, b);
  }

  /** A global `g`, then a function `f` whose parameter `p` is placed: `p` is local at offset 0. */
  method GlobalThenPlacedParam() returns (c: Actions.Compiler)
    ensures fresh(c) && fresh(c.stack) && fresh(c.names) && c.Valid() && c.names.countTemp == 1000
    ensures Find(c.stack.scopes, "g") == Some(Actions.Placed("g", Int, Token(1, 0, "g"), true, 0))
    ensures Find(c.stack.scopes, "p") == Some(Actions.Placed("p", Int, Token(3, 0, "p"), false, 0))
  {
    ghost var s1, s2;
    c, s1, s2 := SemanticsE5.OpenGlobalThenFunction();
    ghost var s3 := c.stack.scopes;
    var tp := Token(3, 0, "p");
    var p := c.DeclareParamPlaced(tp, Int);
    SemanticsE5.ScenarioFindsE5(s1, s2, s3, c.stack.scopes, Actions.Placed("g", Int, Token(1, 0, "g"), true, 0),
      CreateEntryFun("f", Int, Token(2, 0, "f")), Actions.Placed("p", Int, tp, false, 0));
  }

  /** With the parameter placed, `p` loads from the frame and `g` from the data segment. */
  method PlacedParamOwnKey() returns (loadG: Result<Node>, loadP: Result<Node>)
    ensures loadG.Ok? && loadP.Ok?
    ensures loadG.value.code == Some([MakeLoadAI("rbss", 0, Names.TempName(1000), Some("g"))])
    ensures loadP.value.code == Some([MakeLoadAI("rfp", 0, Names.TempName(1001), None)])
  {
    var c := GlobalThenPlacedParam();
    loadG := c.UseVariable(Token(4, 0, "g"));
    loadP := c.UseVariable(Token(5, 0, "p"));
  }

  /** Two memory operations with different keys never disagree on a key. */
  lemma DistinctKeysAgree(i0: Instr, i1: Instr)
    requires Lowerable(i0) && Lowerable(i1) && IsMemoryOp(i0) && IsMemoryOp(i1)
    requires MemoryKey(i0) != MemoryKey(i1)
    ensures KeysAgree([i0, i1])
  {
  }

  /** Those two loads have different keys, so the cache is sound on them from every state. */
  lemma PlacedParamLowersSoundly(a: nat, b: nat, maxReg: nat, st: MovState)
    ensures var code := [MakeLoadAI("rbss", 0, Names.TempName(a), Some("g")), MakeLoadAI("rfp", 0, Names.TempName(b), None)];
      (forall k :: 0 <= k < |code| ==> Lowerable(code[k])) && KeysAgree(code) &&
      Run(st, Lower(code, maxReg, Invalidated).0) == Run(st, LowerUncached(code, maxReg))
  {
    var i0, i1 := MakeLoadAI("rbss", 0, Names.TempName(a), Some("g")), MakeLoadAI("rfp", 0, Names.TempName(b), None);
    LoadIsLowerable("rbss", 0, a, Some("g"));
    LoadIsLowerable("rfp", 0, b, None);
    DistinctKeysAgree(i0, i1);
    ElisionSound([i0, i1], maxReg, st);
  }
}
