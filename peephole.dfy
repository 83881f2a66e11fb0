// The one-entry cache of the lowering never changes what the code computes.
// The machine below tracks only what `movl` moves: the value in %eax and the
// value of every cell the templates name; any other instruction leaves %eax
// unknown, and a `popq` also makes its register's home unknown. A labelled
// instruction is lowered on an empty cache, so only straight-line runs reach
// an elided read, and a straight-line run is what the machine executes.

module Peephole {
  import opened Types
  import opened Iloc
  import opened Assembly

  /** %eax and the cells; `None` is a value the machine does not know. */
  datatype MovState = MovState(acc: Option<int>, cells: map<Place, Option<int>>)

  function Read(st: MovState, a: Arg): Option<int>
  {
    match a
    case Const(v) => Some(v)
    case Acc => st.acc
    case Mem(p) => if p in st.cells then st.cells[p] else None
    case _ => None
  }

  /** The home a `popq` of a 64-bit callee-saved register overwrites. */
  function LowHalf(r: Reg64): Place
  {
    Cell(Physical(Low32(r)))
  }

  function Exec1(st: MovState, line: AsmLine): MovState
  {
    if line.Ins? && line.mnemonic == movl && |line.args| == 2 then
      var v := Read(st, line.args[0]);
      match line.args[1]
      case Acc => st.(acc := v)
      case Mem(p) => st.(cells := st.cells[p := v])
      case _ => st
    else if line.Ins? && line.mnemonic == popq && |line.args| == 1 && line.args[0].Saved? then
      MovState(None, st.cells[LowHalf(line.args[0].reg) := None])
    else if line.Ins? then st.(acc := None)
    else st
  }

  function Run(st: MovState, lines: seq<AsmLine>): MovState
    decreases |lines|
  {
    if lines == [] then st else Run(Exec1(st, lines[0]), lines[1..])
  }

  lemma {:induction false} RunAppend(st: MovState, a: seq<AsmLine>, b: seq<AsmLine>)
    ensures Run(st, a + b) == Run(Run(st, a), b)
    decreases |a|
  {
    if a != [] {
      assert (a + b)[0] == a[0] && (a + b)[1..] == a[1..] + b;
      RunAppend(Exec1(st, a[0]), a[1..], b);
    } else {
      assert a + b == b;
    }
  }

  lemma RunOne(st: MovState, x: AsmLine)
    ensures Run(st, [x]) == Exec1(st, x)
  {
    assert [x][1..] == [];
  }

  lemma RunTwo(st: MovState, x: AsmLine, y: AsmLine)
    ensures Run(st, [x, y]) == Exec1(Exec1(st, x), y)
  {
    assert [x, y][1..] == [y];
    RunOne(Exec1(st, x), y);
  }

  predicate IsMemoryOp(i: Instr)
  {
    i.opcode == LoadAI || i.opcode == StoreAI
  }

  /** %eax holds the value of cell `p`. */
  predicate AccHolds(st: MovState, p: Place)
  {
    st.acc == Read(st, Mem(p))
  }

  /**
   * Two memory operations with the same base and offset name the same cell.
   * For a base other than `rbss` this always holds; for `rbss` it asks that
   * the same data-segment offset is always named by the same global.
   */
  predicate KeysAgree(code: seq<Instr>)
    requires forall k :: 0 <= k < |code| ==> Lowerable(code[k])
  {
    forall a, b ::
      (0 <= a < |code| && 0 <= b < |code| && IsMemoryOp(code[a]) && IsMemoryOp(code[b]) &&
       MemoryKey(code[a]) == MemoryKey(code[b]))
      ==> MemoryPlace(code[a]) == MemoryPlace(code[b])
  }

  /** Without the cache, a memory operation leaves its cell's value in %eax, from any state. */
  lemma MemoryOpLeavesValue(i: Instr, maxReg: int, st: MovState)
    requires Lowerable(i) && maxReg >= 0 && IsMemoryOp(i)
    ensures AccHolds(Run(st, Step(i, maxReg, Invalidated).0), MemoryPlace(i))
  {
    var head := if i.lbl.Some? then LabelLines(i.lbl.value, maxReg) else [];
    var body := Template(i, Invalidated);
    assert Step(i, maxReg, Invalidated).0 == head + body;
    RunAppend(st, head, body);
    TemplateLeavesValue(i, Run(st, head));
  }

  /** The template of a memory operation, on an empty cache, ends with its cell's value in %eax. */
  lemma TemplateLeavesValue(i: Instr, st: MovState)
    requires Lowerable(i) && IsMemoryOp(i)
    ensures AccHolds(Run(st, Template(i, Invalidated)), MemoryPlace(i))
  {
    var p := MemoryPlace(i);
    if i.opcode == LoadAI {
      var body := [Mov(Mem(p), Acc), Mov(Acc, OperandArg(i.targets[0]))];
      assert Template(i, Invalidated) == body;
      MovesLeaveValue(st, Mem(p), OperandArg(i.targets[0]), p);
    } else {
      var body := [Mov(OperandArg(i.sources[0]), Acc), Mov(Acc, Mem(p))];
      assert Template(i, Invalidated) == body;
      RunTwo(st, body[0], body[1]);
    }
  }

  /** A read of cell `p` into %eax, then a write of %eax elsewhere, leaves %eax holding `p`. */
  lemma MovesLeaveValue(st: MovState, src: Arg, dst: Arg, p: Place)
    requires src == Mem(p)
    ensures AccHolds(Run(st, [Mov(src, Acc), Mov(Acc, dst)]), p)
  {
    RunTwo(st, Mov(src, Acc), Mov(Acc, dst));
  }

  /** When the cache holds the cell a `loadAI` reads and %eax holds its value, skipping the read changes nothing. */
  lemma SkipIsHarmless(i: Instr, maxReg: int, c: Cache, st: MovState)
    requires Lowerable(i) && maxReg >= 0 && IsMemoryOp(i)
    requires i.lbl.None? && i.opcode == LoadAI && Hit(c, MemoryKey(i).0, MemoryKey(i).1) && AccHolds(st, MemoryPlace(i))
    ensures Run(st, Step(i, maxReg, c).0) == Run(st, Step(i, maxReg, Invalidated).0)
  {
    var p := MemoryPlace(i);
    var write := Mov(Acc, OperandArg(i.targets[0]));
    assert Step(i, maxReg, c).0 == [write];
    assert Step(i, maxReg, Invalidated).0 == [Mov(Mem(p), Acc), write];
    assert Exec1(st, Mov(Mem(p), Acc)) == st;
    RunOne(st, write);
    RunTwo(st, Mov(Mem(p), Acc), write);
  }

  /**
   * One instruction: with a valid cache whose cell `p` holds %eax, and `p`
   * the cell of any memory operation with the cache's key, the cached and the
   * uncached lines reach the same state.
   */
  lemma StepAgrees(i: Instr, maxReg: int, c: Cache, st: MovState, p: Place)
    requires Lowerable(i) && maxReg >= 0
    requires c.valid ==> AccHolds(st, p) && c.base.Some?
    requires c.valid && IsMemoryOp(i) && MemoryKey(i) == (c.base.value, c.offset) ==> MemoryPlace(i) == p
    ensures Run(st, Step(i, maxReg, c).0) == Run(st, Step(i, maxReg, Invalidated).0)
    ensures IsMemoryOp(i) ==> AccHolds(Run(st, Step(i, maxReg, Invalidated).0), MemoryPlace(i))
  {
    if i.lbl.None? && i.opcode == LoadAI && Hit(c, MemoryKey(i).0, MemoryKey(i).1) {
      SkipIsHarmless(i, maxReg, c, st);
    } else {
      assert Step(i, maxReg, c).0 == Step(i, maxReg, Invalidated).0;
    }
    if IsMemoryOp(i) {
      MemoryOpLeavesValue(i, maxReg, st);
    }
  }

  /** The two lowerings reach the same state, and a valid cache names a cell whose value is in %eax. */
  lemma {:induction false} CacheInvariant(code: seq<Instr>, maxReg: int, st: MovState)
    requires maxReg >= 0 && forall k :: 0 <= k < |code| ==> Lowerable(code[k])
    requires KeysAgree(code)
    ensures Run(st, Lower(code, maxReg, Invalidated).0) == Run(st, LowerUncached(code, maxReg))
    ensures Lower(code, maxReg, Invalidated).1.valid ==>
      code != [] && IsMemoryOp(code[|code| - 1]) &&
      Lower(code, maxReg, Invalidated).1 == NextCache(code[|code| - 1]) &&
      AccHolds(Run(st, LowerUncached(code, maxReg)), MemoryPlace(code[|code| - 1]))
  {
    if code != [] {
      var pre := code[..|code| - 1];
      var i := code[|code| - 1];
      assert forall k :: 0 <= k < |pre| ==> pre[k] == code[k];
      assert KeysAgree(pre);
      CacheInvariant(pre, maxReg, st);
      var prev := Lower(pre, maxReg, Invalidated);
      var s := Run(st, prev.0);
      var p := if prev.1.valid then MemoryPlace(pre[|pre| - 1]) else Cell(Physical(""));
      if prev.1.valid && IsMemoryOp(i) && MemoryKey(i) == (prev.1.base.value, prev.1.offset) {
        assert pre[|pre| - 1] == code[|code| - 2];
      }
      StepAgrees(i, maxReg, prev.1, s, p);
      RunAppend(st, prev.0, Step(i, maxReg, prev.1).0);
      RunAppend(st, LowerUncached(pre, maxReg), Step(i, maxReg, Invalidated).0);
    }
  }

  /**
   * The cache is sound: when every cell is named consistently, the code the
   * lowering prints leaves every cell and %eax exactly as the code printed
   * without it would.
   */
  lemma ElisionSound(code: seq<Instr>, maxReg: int, st: MovState)
    requires maxReg >= 0 && forall k :: 0 <= k < |code| ==> Lowerable(code[k])
    requires KeysAgree(code)
    ensures Run(st, Lower(code, maxReg, Invalidated).0) == Run(st, LowerUncached(code, maxReg))
  {
    CacheInvariant(code, maxReg, st);
  }

  /** Outside the data segment the cell depends only on the offset, so names always agree there. */
  lemma FrameKeysAgree(code: seq<Instr>)
    requires forall k :: 0 <= k < |code| ==> Lowerable(code[k])
    requires forall k :: 0 <= k < |code| && IsMemoryOp(code[k]) ==> MemoryKey(code[k]).0 != "rbss"
    ensures KeysAgree(code)
  {
  }
}
