// The stack frame the lowering builds, on a machine of 8-byte stack words:
// %rsp, %rbp, the 64-bit registers and the stack memory. It executes the
// prologue and the return sequence of the lowering. Two properties of the
// frame are checked against sections 3.2.1 and 3.2.2 of the System V AMD64
// psABI (callee-saved registers are restored, %rsp is 16-byte aligned) and
// against the layout of the homes.

module Frames {
  import opened Assembly

  /** Registers and stack memory; a word or register never written reads as 0. */
  datatype Machine = Machine(rsp: int, rbp: int, regs: map<Reg64, int>, mem: map<int, int>, returned: bool)

  function Word(mem: map<int, int>, a: int): int
  {
    if a in mem then mem[a] else 0
  }

  function RegVal(m: Machine, r: Reg64): int
  {
    if r in m.regs then m.regs[r] else 0
  }

  function Push(m: Machine, v: int): Machine
  {
    m.(rsp := m.rsp - 8, mem := m.mem[m.rsp - 8 := v])
  }

  /** The effect of the prologue and return instructions; any other line leaves the frame alone. */
  function Exec1(m: Machine, line: AsmLine): Machine
  {
    if !line.Ins? then m
    else
      var args := line.args;
      match line.mnemonic
      case pushq =>
        if |args| == 1 && args[0].FramePtr? then Push(m, m.rbp)
        else if |args| == 1 && args[0].Saved? then Push(m, RegVal(m, args[0].reg))
        else m
      case movq => if |args| == 2 && args[0].StackPtr? && args[1].FramePtr? then m.(rbp := m.rsp) else m
      case subq => if |args| == 2 && args[0].Const? && args[1].StackPtr? then m.(rsp := m.rsp - args[0].v) else m
      case leaq => if |args| == 2 && args[0].FrameAddr? && args[1].StackPtr? then m.(rsp := m.rbp - args[0].depth) else m
      case popq =>
        if |args| == 1 && args[0].Saved? then m.(regs := m.regs[args[0].reg := Word(m.mem, m.rsp)], rsp := m.rsp + 8)
        else m
      case leave => m.(rsp := m.rbp + 8, rbp := Word(m.mem, m.rbp))
      case ret => m.(rsp := m.rsp + 8, returned := true)
      case _ => m
  }

  function Run(m: Machine, lines: seq<AsmLine>): Machine
    decreases |lines|
  {
    if lines == [] then m else Run(Exec1(m, lines[0]), lines[1..])
  }

  lemma {:induction false} RunAppend(m: Machine, a: seq<AsmLine>, b: seq<AsmLine>)
    ensures Run(m, a + b) == Run(Run(m, a), b)
    decreases |a|
  {
    if a != [] {
      assert (a + b)[0] == a[0] && (a + b)[1..] == a[1..] + b;
      RunAppend(Exec1(m, a[0]), a[1..], b);
    } else {
      assert a + b == b;
    }
  }

  /** Running from the k-th line is executing it, then running from the next. */
  lemma RunStep(m: Machine, lines: seq<AsmLine>, k: int)
    requires 0 <= k < |lines|
    ensures Run(m, lines[k..]) == Run(Exec1(m, lines[k]), lines[k + 1..])
  {
    assert lines[k..][0] == lines[k] && lines[k..][1..] == lines[k + 1..];
  }

  /** The four callee-saved registers of the caller, the words of the frame's save area, as the prologue leaves them. */
  predicate SaveArea(after: Machine, before: Machine)
  {
    Word(after.mem, after.rbp) == before.rbp &&
    Word(after.mem, after.rbp - 8) == RegVal(before, SavedRegs[0]) &&
    Word(after.mem, after.rbp - 16) == RegVal(before, SavedRegs[1]) &&
    Word(after.mem, after.rbp - 24) == RegVal(before, SavedRegs[2]) &&
    Word(after.mem, after.rbp - 32) == RegVal(before, SavedRegs[3])
  }

  /**
   * The prologue saves the caller's %rbp at the new frame pointer and the
   * four callee-saved registers in the four words below it, and leaves %rsp
   * 32 bytes plus the frame size below the frame pointer.
   */
  lemma PrologueLayout(m: Machine, maxReg: int)
    requires maxReg >= 0
    ensures var p := Run(m, Prologue(maxReg));
      p.rbp == m.rsp - 8 && p.rsp == p.rbp - 32 - FrameSize(maxReg) &&
      SaveArea(p, m) && p.regs == m.regs && p.returned == m.returned
  {
    var a := [Ins(pushq, [FramePtr]), Ins(movq, [StackPtr, FramePtr])];
    var b := [Ins(pushq, [Saved(rbx)]), Ins(pushq, [Saved(r12)]), Ins(pushq, [Saved(r13)]), Ins(pushq, [Saved(r14)])];
    var c := [Ins(subq, [Const(FrameSize(maxReg)), StackPtr])];
    assert Prologue(maxReg) == (a + b) + c;
    RunAppend(m, a + b, c);
    RunAppend(m, a, b);
    var m1 := Run(m, a);
    FramePointerSet(m, a);
    var m2 := Run(m1, b);
    SavesPushed(m1, b);
    RunOne(m2, c[0]);
    assert [c[0]] == c;
  }

  lemma RunOne(m: Machine, x: AsmLine)
    ensures Run(m, [x]) == Exec1(m, x)
  {
    assert [x][1..] == [];
  }

  /** `pushq %rbp; movq %rsp, %rbp`. */
  lemma FramePointerSet(m: Machine, a: seq<AsmLine>)
    requires a == [Ins(pushq, [FramePtr]), Ins(movq, [StackPtr, FramePtr])]
    ensures Run(m, a) == m.(rsp := m.rsp - 8, rbp := m.rsp - 8, mem := m.mem[m.rsp - 8 := m.rbp])
  {
    RunStep(m, a, 0);
    assert a[0..] == a;
    RunOne(Exec1(m, a[0]), a[1]);
    assert a[1..] == [a[1]];
  }

  /** The four pushes of the callee-saved registers, in order. */
  lemma SavesPushed(m: Machine, b: seq<AsmLine>)
    requires b == [Ins(pushq, [Saved(rbx)]), Ins(pushq, [Saved(r12)]), Ins(pushq, [Saved(r13)]), Ins(pushq, [Saved(r14)])]
    ensures Run(m, b) == m.(rsp := m.rsp - 32, mem := m.mem[m.rsp - 8 := RegVal(m, rbx)][m.rsp - 16 := RegVal(m, r12)]
                                                    [m.rsp - 24 := RegVal(m, r13)][m.rsp - 32 := RegVal(m, r14)])
  {
    var s1 := Exec1(m, b[0]);  RunStep(m, b, 0);
    var s2 := Exec1(s1, b[1]); RunStep(s1, b, 1);
    var s3 := Exec1(s2, b[2]); RunStep(s2, b, 2);
    var s4 := Exec1(s3, b[3]); RunStep(s3, b, 3);
    assert b[0..] == b && b[4..] == [];
  }

  /** Section 3.2.2 of the psABI: %rsp + 8 is a multiple of 16 on entry, so %rsp is one after the prologue. */
  lemma PrologueAligns(m: Machine, maxReg: int)
    requires maxReg >= 0 && (m.rsp + 8) % 16 == 0
    ensures Run(m, Prologue(maxReg)).rsp % 16 == 0
  {
    PrologueLayout(m, maxReg);
  }

  /**
   * The return sequence as the lowering prints it after a prologue: %rbp and
   * %rsp come back, but the registers are popped from the words %rsp points
   * at, which are below the save area. With the smallest frame, %r12 receives
   * the caller's %r14 and %rbx the caller's %r13.
   */
  lemma EpilogueAsWritten(m: Machine, maxReg: int)
    requires maxReg >= 0
    ensures var f := Run(Run(m, Prologue(maxReg)), Epilogue);
      f.rbp == m.rbp && f.rsp == m.rsp + 8 && f.returned &&
      RegVal(f, r14) == Word(Run(m, Prologue(maxReg)).mem, m.rsp - 40 - FrameSize(maxReg)) &&
      (maxReg < 4 ==> RegVal(f, r12) == RegVal(m, r14) && RegVal(f, rbx) == RegVal(m, r13))
  {
    PrologueLayout(m, maxReg);
    EpiloguePops(Run(m, Prologue(maxReg)), Epilogue);
  }

  /** The effect of the four pops, `leave` and `ret`, from any machine. */
  lemma EpiloguePops(p: Machine, lines: seq<AsmLine>)
    requires lines == Epilogue
    ensures var f := Run(p, lines);
      RegVal(f, r14) == Word(p.mem, p.rsp) && RegVal(f, r13) == Word(p.mem, p.rsp + 8) &&
      RegVal(f, r12) == Word(p.mem, p.rsp + 16) && RegVal(f, rbx) == Word(p.mem, p.rsp + 24) &&
      f.rsp == p.rbp + 16 && f.rbp == Word(p.mem, p.rbp) && f.returned && f.mem == p.mem
  {
    RunAppend(p, RestoreSaved, [Ins(leave, []), Ins(ret, [])]);
    SavesPopped(p, RestoreSaved);
    LeaveAndReturn(Run(p, RestoreSaved), [Ins(leave, []), Ins(ret, [])]);
  }

  /** `leave; ret`: the frame pointer is popped and %rsp is left above the return address. */
  lemma LeaveAndReturn(q: Machine, tail: seq<AsmLine>)
    requires tail == [Ins(leave, []), Ins(ret, [])]
    ensures Run(q, tail) == q.(rsp := q.rbp + 16, rbp := Word(q.mem, q.rbp), returned := true)
  {
    RunStep(q, tail, 0);
    assert tail[0..] == tail;
    RunOne(Exec1(q, tail[0]), tail[1]);
    assert tail[1..] == [tail[1]];
  }

  /** The four pops, in the reverse of the push order. */
  lemma SavesPopped(p: Machine, pops: seq<AsmLine>)
    requires pops == RestoreSaved
    ensures Run(p, pops) == p.(rsp := p.rsp + 32, regs := p.regs[r14 := Word(p.mem, p.rsp)][r13 := Word(p.mem, p.rsp + 8)]
                                                           [r12 := Word(p.mem, p.rsp + 16)][rbx := Word(p.mem, p.rsp + 24)])
  {
    var s1 := Exec1(p, pops[0]);  RunStep(p, pops, 0);
    var s2 := Exec1(s1, pops[1]); RunStep(s1, pops, 1);
    var s3 := Exec1(s2, pops[2]); RunStep(s2, pops, 2);
    var s4 := Exec1(s3, pops[3]); RunStep(s3, pops, 3);
    assert pops[0..] == pops && pops[4..] == [];
  }

  /** The return sequence with %rsp first pointed back at the last saved word, as the push order demands. */
  const CorrectedEpilogue: seq<AsmLine> := [Ins(leaq, [FrameAddr(32), StackPtr])] + Epilogue

  /** With the corrected return sequence every callee-saved register, %rbp and %rsp come back, whatever the frame size. */
  lemma CorrectedEpilogueRestores(m: Machine, maxReg: int)
    requires maxReg >= 0
    ensures var f := Run(Run(m, Prologue(maxReg)), CorrectedEpilogue);
      (forall k :: 0 <= k < |SavedRegs| ==> RegVal(f, SavedRegs[k]) == RegVal(m, SavedRegs[k])) &&
      f.rbp == m.rbp && f.rsp == m.rsp + 8 && f.returned
  {
    var p := Run(m, Prologue(maxReg));
    PrologueLayout(m, maxReg);
    var q := Exec1(p, CorrectedEpilogue[0]);
    assert q.rsp == p.rbp - 32 && q.mem == p.mem && q.rbp == p.rbp;
    RunStep(p, CorrectedEpilogue, 0);
    assert CorrectedEpilogue[0..] == CorrectedEpilogue && CorrectedEpilogue[1..] == Epilogue;
    EpiloguePops(q, Epilogue);
  }

  /** A concrete entry state that the as-written return sequence does not restore. */
  lemma EpilogueClobbersCaller()
    ensures var m := Machine(1000, 2000, map[rbx := 1, r12 := 2, r13 := 3, r14 := 4], map[], false);
      var f := Run(Run(m, Prologue(0)), Epilogue);
      RegVal(f, r12) == 4 && RegVal(f, rbx) == 3 && RegVal(f, r12) != RegVal(m, r12)
  {
    var m := Machine(1000, 2000, map[rbx := 1, r12 := 2, r13 := 3, r14 := 4], map[], false);
    EpilogueAsWritten(m, 0);
  }

  // ---------------------------------------------------------------------
  // Homes and the save area, as byte ranges relative to %rbp.

  /** The bytes [lo, hi) relative to %rbp. */
  datatype Span = Span(lo: int, hi: int)

  predicate Overlap(a: Span, b: Span)
  {
    a.lo < b.hi && b.lo < a.hi
  }

  /** The 4 bytes of the frame slot `-depth(%rbp)`. */
  function SlotSpan(depth: int): Span
  {
    Span(-depth, -depth + 4)
  }

  /** The word the prologue saves the k-th pushed register in. */
  function SaveSpan(k: int): Span
  {
    Span(-8 * (k + 1), -8 * k)
  }

  /** The frame the prologue allocates below the save area. */
  function AllocatedSpan(maxReg: int): Span
    requires maxReg >= 0
  {
    Span(-32 - FrameSize(maxReg), -32)
  }

  /**
   * The homes `imprimir_local_var` gives to offsets 16 to 28 lie in the save
   * area; every larger offset lies below it. The home of offset 16, the fifth
   * local variable of a program, shares bytes with the saved %r13.
   */
  lemma HomesAsWritten(offset: int)
    requires offset >= 16 && offset % 4 == 0
    ensures LocalVar(offset) == Frame(offset + 4)
    ensures Overlap(SlotSpan(offset + 4), Span(-32, 0)) <==> offset < 32
    ensures offset == 16 ==> Overlap(SlotSpan(LocalVar(offset).depth), SaveSpan(2)) && SavedRegs[2] == r13
  {
    assert TruncDiv(offset, 4) == offset / 4;
  }

  /** The home the save area evidently calls for: the frame slots start below the 32 bytes the prologue pushes. */
  function CorrectedLocalVar(offset: int): Location
    requires offset > -4
  {
    var index := TruncDiv(offset, 4);
    if index < |PhysicalRegs| then Physical(PhysicalRegs[index]) else Frame(offset + 4 + 32)
  }

  /**
   * With the corrected homes every offset that is a multiple of 4 and at most
   * 4 times the largest register number gets its own home, and a frame home
   * lies inside the allocated frame, clear of the save area.
   */
  lemma CorrectedHomesInFrame(offset: int, other: int, maxReg: int)
    requires maxReg >= 0 && 0 <= offset <= 4 * maxReg && offset % 4 == 0
    requires 0 <= other && other % 4 == 0
    ensures CorrectedLocalVar(offset) == CorrectedLocalVar(other) <==> offset == other
    ensures CorrectedLocalVar(offset).Frame? ==>
      var s := SlotSpan(CorrectedLocalVar(offset).depth);
      AllocatedSpan(maxReg).lo <= s.lo && s.hi <= AllocatedSpan(maxReg).hi && !Overlap(s, Span(-32, 0))
  {
    assert TruncDiv(offset, 4) == offset / 4 && TruncDiv(other, 4) == other / 4;
    if offset != other && offset < 16 && other < 16 {
      assert offset / 4 != other / 4;
    }
  }

  /** The homes of generated registers, numbered from 1000, never meet the home of one of the first thousand local offsets. */
  lemma TempsApartFromLocals(offset: int, n: int)
    requires 0 <= offset < 4000 && offset % 4 == 0 && n >= 1000
    ensures LocalVar(4 * n) != LocalVar(offset)
    ensures LocalVar(4 * n) == Frame(4 * n + 4)
  {
    LocalVarInjective(4 * n, offset);
  }
}
