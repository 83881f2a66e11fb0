// The lowering of ILOC code to x86-64 assembly: register numbers from
// register names, the home of each virtual register (a callee-saved
// register or a frame slot), the frame size, the function prologue, the
// per-opcode templates and the one-entry cache that lets a `loadAI` reuse
// the value already in %eax. Assembly lines are kept abstract: a mnemonic
// and its operands.

module Assembly {
  import opened Types
  import opened Iloc
  import Text
  import Names

  /** `reg_fisicos`: the 32-bit halves of the callee-saved registers that hold the first four homes. */
  const PhysicalRegs: seq<string> := ["%ebx", "%r12d", "%r13d", "%r14d"]

  /** The 64-bit callee-saved registers whose low halves hold homes. */
  datatype Reg64 = rbx | r12 | r13 | r14

  /** The callee-saved registers the prologue pushes, in push order. */
  const SavedRegs: seq<Reg64> := [rbx, r12, r13, r14]

  /** The 32-bit half of a callee-saved register, as the homes name it. */
  function Low32(r: Reg64): string
  {
    match r
    case rbx => PhysicalRegs[0] case r12 => PhysicalRegs[1] case r13 => PhysicalRegs[2] case r14 => PhysicalRegs[3]
  }

  /**
   * `obter_id_reg`: -1 for no name or a name not starting with `r`, -2, -3
   * and -4 for `rfp`, `rbss` and `rsp`, otherwise `atoi` of the text after
   * the `r`.
   */
  function RegId(reg: Option<string>): int
  {
    if reg.None? || reg.value == [] || reg.value[0] != 'r' then -1
    else if reg.value == "rfp" then -2
    else if reg.value == "rbss" then -3
    else if reg.value == "rsp" then -4
    else Text.Atoi(reg.value[1..])
  }

  /** The classes `obter_id_reg` tells apart; a generated register `rN` gets number N. */
  lemma RegIdClasses(n: nat, other: string)
    requires other == [] || other[0] != 'r'
    ensures RegId(Some(Names.TempName(n))) == n
    ensures RegId(Some("rfp")) == -2 && RegId(Some("rbss")) == -3 && RegId(Some("rsp")) == -4
    ensures RegId(None) == -1 && RegId(Some(other)) == -1
  {
    Names.TempIsNotSpecial(n);
    assert Names.TempName(n)[1..] == Text.NatToString(n);
    Text.AtoiNatToString(n);
  }

  /** C's `/` on a positive divisor: the quotient truncated toward zero. */
  function TruncDiv(a: int, b: int): int
    requires b > 0
  {
    if a >= 0 then a / b else -((-a) / b)
  }

  /** Where a home lives: a physical register, or the 4 bytes at `-depth(%rbp)`. */
  datatype Location = Physical(name: string) | Frame(depth: int)

  /** A storage cell the generated code reads and writes. */
  datatype Place = Cell(loc: Location) | Named(name: string) | DataSegment(offset: int)

  /**
   * `imprimir_local_var`: index `offset / 4` (C division) below 4 selects a
   * physical register, otherwise the slot `-(offset+4)(%rbp)`. An offset of
   * -4 or less would index before the register table.
   */
  function LocalVar(offset: int): Location
    requires offset > -4
  {
    var index := TruncDiv(offset, 4);
    if index < |PhysicalRegs| then Physical(PhysicalRegs[index]) else Frame(offset + 4)
  }

  /** Distinct offsets that are multiples of 4, as the storage counters hand out, get distinct homes. */
  lemma LocalVarInjective(a: int, b: int)
    requires a >= 0 && b >= 0 && a % 4 == 0 && b % 4 == 0
    ensures LocalVar(a) == LocalVar(b) <==> a == b
    ensures a < 16 <==> LocalVar(a).Physical?
  {
    if a != b && a < 16 && b < 16 {
      assert a / 4 != b / 4;
    }
  }

  /** An x86-64 operand. */
  datatype Arg =
    | Const(v: int)            // $v
    | Target(name: string)     // .name
    | Mem(place: Place)        // a register home, a named global or a data-segment offset
    | FramePtr                 // %rbp
    | InstrPtr                 // %rip
    | Acc                      // %eax
    | AccLow                   // %al
    | StackPtr                 // %rsp
    | Saved(reg: Reg64)        // a 64-bit callee-saved register
    | FrameAddr(depth: int)    // the address -depth(%rbp)

  /** One line of output: an instruction, a label definition, or the two directives before `main`. */
  /** The instructions the templates use. */
  datatype Mnemonic =
    | movl | movq | movzbl | pushq | popq | subq | leaq | leave | ret | cltd | idivl
    | addl | subl | imull | andl | orl | xorl | cmpl | setl | setle | sete | setge | setg | setne | jmp | jne

  datatype AsmLine = Ins(mnemonic: Mnemonic, args: seq<Arg>) | LabelDef(text: string) | Globl(name: string) | FunctionType(name: string)

  function Mov(src: Arg, dst: Arg): AsmLine { Ins(movl, [src, dst]) }

  /** A register operand can be printed only if it is a numbered register, `rfp` or `rbss`. */
  predicate Printable(o: Operand)
  {
    o.value.Reg? ==> var id := RegId(Some(o.value.reg)); id >= 0 || id == -2 || id == -3
  }

  /** `imprimir_operando`: `$v`, `.label`, `%rbp`, `%rip`, or the home of register N at offset 4N. */
  function OperandArg(o: Operand): Arg
    requires Printable(o)
  {
    match o.value
    case Imm(v) => Const(v)
    case Label(l) => Target(l)
    case Reg(r) =>
      var id := RegId(Some(r));
      if id == -2 then FramePtr else if id == -3 then InstrPtr else Mem(Cell(LocalVar(4 * id)))
  }

  /** The memory operand of `loadAI`/`storeAI`: a global by name, a data-segment offset, or a home. */
  function Address(base: string, offset: int, global: Option<string>): Place
    requires base == "rbss" || offset > -4
  {
    if base == "rbss" then (if global.Some? then Named(global.value) else DataSegment(offset))
    else Cell(LocalVar(offset))
  }

  /** The instructions the lowering accepts: the builders' layout, printable operands, and usable offsets. */
  predicate Lowerable(i: Instr)
  {
    WellFormed(i) &&
    (forall k :: 0 <= k < |i.sources| ==> Printable(i.sources[k])) &&
    (forall k :: 0 <= k < |i.targets| ==> Printable(i.targets[k])) &&
    (i.opcode == LoadAI ==> i.sources[0].value.reg == "rbss" || i.sources[1].value.imm > -4) &&
    (i.opcode == StoreAI ==> i.targets[0].value.reg == "rbss" || i.targets[1].value.imm > -4)
  }

  /** The base register and offset a `loadAI` reads or a `storeAI` writes. */
  function MemoryKey(i: Instr): (string, int)
    requires Lowerable(i) && (i.opcode == LoadAI || i.opcode == StoreAI)
  {
    if i.opcode == LoadAI then (i.sources[0].value.reg, i.sources[1].value.imm)
    else (i.targets[0].value.reg, i.targets[1].value.imm)
  }

  /** The cell a `loadAI` reads or a `storeAI` writes. */
  function MemoryPlace(i: Instr): Place
    requires Lowerable(i) && (i.opcode == LoadAI || i.opcode == StoreAI)
  {
    if i.opcode == LoadAI then Address(i.sources[0].value.reg, i.sources[1].value.imm, i.sources[1].aux)
    else Address(i.targets[0].value.reg, i.targets[1].value.imm, i.targets[1].aux)
  }

  // ---------------------------------------------------------------------
  // Frame and prologue.

  /** `(max_reg_idx + 1) * 4` rounded up to a multiple of 16, the alignment section 3.2.2 of the System V AMD64 psABI asks of %rsp. */
  function FrameSize(maxReg: int): (size: int)
    requires maxReg >= 0
    ensures size % 16 == 0 && (maxReg + 1) * 4 <= size < (maxReg + 1) * 4 + 16
    ensures size > 0
  {
    var s := (maxReg + 1) * 4;
    if s % 16 != 0 then s + (16 - s % 16) else s
  }

  /**
   * The prologue: save and set %rbp, push the four callee-saved registers
   * that hold homes (section 3.2.1 of the System V AMD64 psABI reserves them
   * to the caller), and allocate the frame when its size is positive.
   */
  function Prologue(maxReg: int): seq<AsmLine>
    requires maxReg >= 0
  {
    [Ins(pushq, [FramePtr]), Ins(movq, [StackPtr, FramePtr])] +
    [Ins(pushq, [Saved(rbx)]), Ins(pushq, [Saved(r12)]),
     Ins(pushq, [Saved(r13)]), Ins(pushq, [Saved(r14)])] +
    (if FrameSize(maxReg) > 0 then [Ins(subq, [Const(FrameSize(maxReg)), StackPtr])] else [])
  }

  /** A label opens a function unless it starts with `L`; `main` always opens one. */
  predicate OpensFunction(name: string)
  {
    name == [] || name[0] != 'L' || name == "main"
  }

  /** The lines for a label: `main` is made global and typed; a label that opens a function is followed by the prologue. */
  function LabelLines(name: string, maxReg: int): seq<AsmLine>
    requires maxReg >= 0
  {
    (if name == "main" then [Globl("main"), FunctionType("main"), LabelDef("main")] else [LabelDef("." + name)]) +
    (if OpensFunction(name) then Prologue(maxReg) else [])
  }

  /** A function's counterpart of its prologue requires its callee-saved registers back; every label starts with an empty cache. */
  lemma LabelOpensFrame(name: string, maxReg: int)
    requires maxReg >= 0
    ensures OpensFunction(name) <==> Ins(pushq, [FramePtr]) in LabelLines(name, maxReg)
    ensures OpensFunction(name) ==> Ins(subq, [Const(FrameSize(maxReg)), StackPtr]) in LabelLines(name, maxReg)
  {
    var head := if name == "main" then [Globl("main"), FunctionType("main"), LabelDef("main")] else [LabelDef("." + name)];
    assert Ins(pushq, [FramePtr]) !in head;
    if OpensFunction(name) {
      assert LabelLines(name, maxReg)[|head|] == Ins(pushq, [FramePtr]);
      assert LabelLines(name, maxReg)[|head| + 6] == Ins(subq, [Const(FrameSize(maxReg)), StackPtr]);
    } else {
      assert LabelLines(name, maxReg) == head;
    }
  }

  // ---------------------------------------------------------------------
  // Templates and the cache.

  /** `cache_valido`, `cache_base`, `cache_offset`: the cell whose value %eax is known to hold. */
  datatype Cache = Cache(valid: bool, base: Option<string>, offset: int)

  /** `invalidar_cache`. */
  const Invalidated := Cache(false, None, -9999)

  /** The cache knows %eax holds the cell at `base`, `offset`. */
  predicate Hit(c: Cache, base: string, offset: int)
  {
    c.valid && c.base == Some(base) && c.offset == offset
  }

  function ArithMnemonic(op: Opcode): Mnemonic
  {
    match op
    case Add => addl case Sub => subl case Mult => imull
    case And => andl case Or => orl case _ => xorl
  }

  function SetMnemonic(op: Opcode): Mnemonic
  {
    match op
    case CmpLT => setl case CmpLE => setle case CmpEQ => sete
    case CmpGE => setge case CmpGT => setg case _ => setne
  }

  /** The callee-saved registers popped back, in the reverse of the push order. */
  const RestoreSaved: seq<AsmLine> :=
    [Ins(popq, [Saved(r14)]), Ins(popq, [Saved(r13)]), Ins(popq, [Saved(r12)]), Ins(popq, [Saved(rbx)])]

  /** The return sequence: restore the callee-saved registers, then `leave` and `ret`. */
  const Epilogue: seq<AsmLine> := RestoreSaved + [Ins(leave, []), Ins(ret, [])]

  /**
   * The `switch` of `traduzir_instrucao`, with `c` the cache at that point.
   * Opcodes it does not list (`nop`, `load`, `store`, `jump`) print nothing.
   */
  function Template(i: Instr, c: Cache): seq<AsmLine>
    requires Lowerable(i)
  {
    var s, t := i.sources, i.targets;
    match i.opcode
    case Nop => []
    case Load => []
    case Store => []
    case Jump => []
    case LoadI => [Mov(OperandArg(s[0]), OperandArg(t[0]))]
    case I2I => [Mov(OperandArg(s[0]), Acc), Mov(Acc, OperandArg(t[0]))]
    case LoadAI =>
      (if Hit(c, s[0].value.reg, s[1].value.imm) then []
       else [Mov(Mem(Address(s[0].value.reg, s[1].value.imm, s[1].aux)), Acc)]) +
      [Mov(Acc, OperandArg(t[0]))]
    case StoreAI =>
      [Mov(OperandArg(s[0]), Acc), Mov(Acc, Mem(Address(t[0].value.reg, t[1].value.imm, t[1].aux)))]
    case Div =>
      [Mov(OperandArg(s[0]), Acc), Ins(cltd, []), Ins(idivl, [OperandArg(s[1])]), Mov(Acc, OperandArg(t[0]))]
    case RsubI =>
      [Mov(OperandArg(s[1]), Acc), Ins(subl, [OperandArg(s[0]), Acc]), Mov(Acc, OperandArg(t[0]))]
    case JumpI => [Ins(jmp, [Target(t[0].value.lbl)])]
    case Cbr =>
      [Mov(OperandArg(s[0]), Acc), Ins(cmpl, [Const(0), Acc]),
       Ins(jne, [Target(t[0].value.lbl)]), Ins(jmp, [Target(t[1].value.lbl)])]
    case Ret => (if |s| > 0 then [Mov(OperandArg(s[0]), Acc)] else []) + Epilogue
    case Add | Sub | Mult | And | Or | Xor =>
      [Mov(OperandArg(s[0]), Acc), Ins(ArithMnemonic(i.opcode), [OperandArg(s[1]), Acc]), Mov(Acc, OperandArg(t[0]))]
    case CmpLT | CmpLE | CmpEQ | CmpGE | CmpGT | CmpNE =>
      [Mov(OperandArg(s[0]), Acc), Ins(cmpl, [OperandArg(s[1]), Acc]), Ins(SetMnemonic(i.opcode), [AccLow]),
       Ins(movzbl, [AccLow, Acc]), Mov(Acc, OperandArg(t[0]))]
  }

  /** The cache after the `switch`: a memory operation leaves its cell in %eax, anything else invalidates. */
  function NextCache(i: Instr): Cache
    requires Lowerable(i)
  {
    if i.opcode == LoadAI || i.opcode == StoreAI then Cache(true, Some(MemoryKey(i).0), MemoryKey(i).1)
    else Invalidated
  }

  /** `traduzir_instrucao` on cache `cache`: a label invalidates the cache first; the output lines and the new cache. */
  function Step(i: Instr, maxReg: int, cache: Cache): (seq<AsmLine>, Cache)
    requires Lowerable(i) && maxReg >= 0
  {
    var c := if i.lbl.Some? then Invalidated else cache;
    ((if i.lbl.Some? then LabelLines(i.lbl.value, maxReg) else []) + Template(i, c), NextCache(i))
  }

  /**
   * The peephole rule: a `loadAI` skips its memory read exactly when it has
   * no label and the cache holds its base and offset; the move of %eax into
   * the destination is always emitted; afterwards the cache holds the cell.
   */
  lemma PeepholeRule(i: Instr, maxReg: int, cache: Cache)
    requires Lowerable(i) && maxReg >= 0 && i.opcode == LoadAI
    ensures var base, offset := i.sources[0].value.reg, i.sources[1].value.imm;
      var read := Mov(Mem(MemoryPlace(i)), Acc);
      var head := if i.lbl.Some? then LabelLines(i.lbl.value, maxReg) else [];
      var skip := i.lbl.None? && Hit(cache, base, offset);
      Step(i, maxReg, cache).0 == head + (if skip then [] else [read]) + [Mov(Acc, OperandArg(i.targets[0]))] &&
      Step(i, maxReg, cache).1 == Cache(true, Some(base), offset)
  {
  }

  /** Every instruction other than a memory operation leaves the cache invalid, and so does a label before the switch. */
  lemma CacheInvalidation(i: Instr, maxReg: int, cache: Cache)
    requires Lowerable(i) && maxReg >= 0
    ensures Step(i, maxReg, cache).1.valid <==> i.opcode == LoadAI || i.opcode == StoreAI
    ensures i.lbl.Some? ==> Step(i, maxReg, cache).0 == Step(i, maxReg, Invalidated).0
  {
  }

  /** `ret` moves its operand into %eax only when it has one, then restores the registers in the reverse of the push order. */
  lemma ReturnTemplate(i: Instr, c: Cache)
    requires Lowerable(i) && i.opcode == Ret
    ensures var lines := Template(i, c);
      |lines| == |i.sources| + 6 &&
      (|i.sources| == 1 ==> lines[0] == Mov(OperandArg(i.sources[0]), Acc)) &&
      lines[|i.sources|..|i.sources| + 4] ==
        [Ins(popq, [Saved(r14)]), Ins(popq, [Saved(r13)]),
         Ins(popq, [Saved(r12)]), Ins(popq, [Saved(rbx)])] &&
      lines[|lines| - 2..] == [Ins(leave, []), Ins(ret, [])]
  {
  }

  /** The lowering of a whole list from cache `cache`: every instruction in order, each seeing the cache the previous one left. */
  function Lower(code: seq<Instr>, maxReg: int, cache: Cache): (seq<AsmLine>, Cache)
    requires maxReg >= 0 && forall k :: 0 <= k < |code| ==> Lowerable(code[k])
  {
    if code == [] then ([], cache)
    else
      var prev := Lower(code[..|code| - 1], maxReg, cache);
      var last := Step(code[|code| - 1], maxReg, prev.1);
      (prev.0 + last.0, last.1)
  }

  /** Lowering one more instruction appends its lines and hands on its cache. */
  lemma LowerStep(code: seq<Instr>, j: int, maxReg: int, cache: Cache)
    requires maxReg >= 0 && forall k :: 0 <= k < |code| ==> Lowerable(code[k])
    requires 0 <= j < |code|
    ensures var prev := Lower(code[..j], maxReg, cache);
      Lower(code[..j + 1], maxReg, cache) ==
        (prev.0 + Step(code[j], maxReg, prev.1).0, Step(code[j], maxReg, prev.1).1)
  {
    assert code[..j + 1][..j] == code[..j];
  }

  lemma AppendAssoc(a: seq<AsmLine>, b: seq<AsmLine>, c: seq<AsmLine>)
    ensures a + (b + c) == (a + b) + c
  {
  }

  /** The same lowering with the cache switched off: every instruction is lowered on an invalid cache. */
  function LowerUncached(code: seq<Instr>, maxReg: int): seq<AsmLine>
    requires maxReg >= 0 && forall k :: 0 <= k < |code| ==> Lowerable(code[k])
  {
    if code == [] then []
    else LowerUncached(code[..|code| - 1], maxReg) + Step(code[|code| - 1], maxReg, Invalidated).0
  }

  // ---------------------------------------------------------------------
  // The register scan.

  /** A register operand's number is at most `r`; other operands have none. */
  predicate RegAtMost(o: Operand, r: int)
  {
    o.value.Reg? ==> RegId(Some(o.value.reg)) <= r
  }

  /** The operand is a register with number `r`. */
  predicate RegIs(o: Operand, r: int)
  {
    o.value.Reg? && RegId(Some(o.value.reg)) == r
  }

  /** The largest of `m` and the numbers of the register operands in `ops`. */
  function MaxIds(ops: seq<Operand>, m: int): (r: int)
    ensures r >= m
  {
    if ops == [] then m
    else
      var prev := MaxIds(ops[..|ops| - 1], m);
      var last := ops[|ops| - 1];
      if last.value.Reg? && RegId(Some(last.value.reg)) > prev then RegId(Some(last.value.reg)) else prev
  }

  /** `MaxIds` bounds every register number in `ops` and, if above `m`, is one of them. */
  lemma {:induction false} MaxIdsIsMaximum(ops: seq<Operand>, m: int)
    ensures forall k :: 0 <= k < |ops| ==> RegAtMost(ops[k], MaxIds(ops, m))
    ensures MaxIds(ops, m) == m || exists k :: 0 <= k < |ops| && RegIs(ops[k], MaxIds(ops, m))
  {
    if ops != [] {
      var pre := ops[..|ops| - 1];
      MaxIdsIsMaximum(pre, m);
      var r := MaxIds(ops, m);
      forall k | 0 <= k < |ops|
        ensures RegAtMost(ops[k], r)
      {
        if k < |ops| - 1 {
          assert ops[k] == pre[k];
        }
      }
      if r != m && r == MaxIds(pre, m) {
        var k :| 0 <= k < |pre| && RegIs(pre[k], r);
        assert ops[k] == pre[k];
      }
    }
  }

  /** Scanning one more operand raises the maximum to its number when that is larger. */
  lemma MaxIdsStep(ops: seq<Operand>, k: int, m: int)
    requires 0 <= k < |ops|
    ensures var prev := MaxIds(ops[..k], m);
      MaxIds(ops[..k + 1], m) ==
        if ops[k].value.Reg? && RegId(Some(ops[k].value.reg)) > prev then RegId(Some(ops[k].value.reg)) else prev
  {
    assert ops[..k + 1][..k] == ops[..k];
  }

  /** The scan of one instruction: its sources, then its targets. */
  function InstrMax(i: Instr, m: int): int
  {
    MaxIds(i.targets, MaxIds(i.sources, m))
  }

  /** The largest register number `calc_tamanho_pilha` leaves in `max_reg_idx`, starting from `m`. */
  function MaxRegIn(code: seq<Instr>, m: int): int
  {
    if code == [] then m else InstrMax(code[|code| - 1], MaxRegIn(code[..|code| - 1], m))
  }

  /** Every register operand of `i` has number at most `r`. */
  predicate InstrAtMost(i: Instr, r: int)
  {
    (forall k :: 0 <= k < |i.sources| ==> RegAtMost(i.sources[k], r)) &&
    (forall k :: 0 <= k < |i.targets| ==> RegAtMost(i.targets[k], r))
  }

  /** Register number `r` appears in an operand of `i`. */
  ghost predicate InstrMentions(i: Instr, r: int)
  {
    (exists k :: 0 <= k < |i.sources| && RegIs(i.sources[k], r)) ||
    (exists k :: 0 <= k < |i.targets| && RegIs(i.targets[k], r))
  }

  /** One instruction's scan raises the maximum to all its register numbers and, if it changes it, to one of them. */
  lemma InstrMaxIsMaximum(i: Instr, m: int)
    ensures InstrMax(i, m) >= m && InstrAtMost(i, InstrMax(i, m))
    ensures InstrMax(i, m) == m || InstrMentions(i, InstrMax(i, m))
  {
    var b := MaxIds(i.sources, m);
    MaxIdsIsMaximum(i.sources, m);
    MaxIdsIsMaximum(i.targets, b);
    assert forall k :: 0 <= k < |i.sources| ==> RegAtMost(i.sources[k], b);
  }

  /** `MaxRegIn` is the maximum of its start and every register number in the code, and is one of them. */
  lemma {:induction false} MaxRegInIsMaximum(code: seq<Instr>, m: int)
    ensures MaxRegIn(code, m) >= m
    ensures forall j :: 0 <= j < |code| ==> InstrAtMost(code[j], MaxRegIn(code, m))
    ensures MaxRegIn(code, m) == m || exists j :: 0 <= j < |code| && InstrMentions(code[j], MaxRegIn(code, m))
  {
    if code != [] {
      var pre := code[..|code| - 1];
      var i := code[|code| - 1];
      MaxRegInIsMaximum(pre, m);
      var a := MaxRegIn(pre, m);
      var r := InstrMax(i, a);
      InstrMaxIsMaximum(i, a);
      forall j | 0 <= j < |code|
        ensures InstrAtMost(code[j], r)
      {
        if j < |code| - 1 {
          assert code[j] == pre[j];
          AtMostMonotone(pre[j], a, r);
        }
      }
      if r != m && r == a {
        var j :| 0 <= j < |pre| && InstrMentions(pre[j], r);
        assert code[j] == pre[j];
      }
    }
  }

  lemma AtMostMonotone(i: Instr, a: int, b: int)
    requires InstrAtMost(i, a) && a <= b
    ensures InstrAtMost(i, b)
  {
  }

  // ---------------------------------------------------------------------
  // The pass and its global state.

  /** The globals of the pass: `max_reg_idx`, the cache and the output printed so far. */
  class Lowering {
    var maxRegIdx: int
    var cache: Cache
    var out: seq<AsmLine>

    ghost predicate Valid()
      reads this
    {
      maxRegIdx >= 0
    }

    /** The initial values of the globals. */
    constructor ()
      ensures Valid() && maxRegIdx == 0 && cache == Invalidated && out == []
    {
      maxRegIdx := 0;
      cache := Invalidated;
      out := [];
    }

    /** `invalidar_cache`. */
    method InvalidateCache()
      modifies this
      ensures cache == Invalidated && maxRegIdx == old(maxRegIdx) && out == old(out)
    {
      cache := Cache(false, None, -9999);
    }

    /** One inner loop of `calc_tamanho_pilha`: raises `max_reg_idx` to every register number in `ops`. */
    method RaiseToOperands(ops: seq<Operand>)
      requires Valid()
      modifies this
      ensures Valid()
      ensures maxRegIdx == MaxIds(ops, old(maxRegIdx)) && cache == old(cache) && out == old(out)
    {
      var k := 0;
      while k < |ops|
        invariant 0 <= k <= |ops|
        invariant maxRegIdx == MaxIds(ops[..k], old(maxRegIdx)) && Valid()
        invariant cache == old(cache) && out == old(out)
      {
        MaxIdsStep(ops, k, old(maxRegIdx));
        if ops[k].value.Reg? {
          var id := RegId(Some(ops[k].value.reg));
          if id > maxRegIdx {
            maxRegIdx := id;
          }
        }
        k := k + 1;
      }
      assert ops[..k] == ops;
    }

    /** `calc_tamanho_pilha`: raises `max_reg_idx` to every register number in the code, sources before targets. */
    method CalcStackSize(code: seq<Instr>)
      requires Valid()
      modifies this
      ensures Valid()
      ensures maxRegIdx == MaxRegIn(code, old(maxRegIdx)) && cache == old(cache) && out == old(out)
    {
      var j := 0;
      while j < |code|
        invariant 0 <= j <= |code|
        invariant maxRegIdx == MaxRegIn(code[..j], old(maxRegIdx)) && Valid()
        invariant cache == old(cache) && out == old(out)
      {
        RaiseToOperands(code[j].sources);
        RaiseToOperands(code[j].targets);
        assert code[..j + 1][..j] == code[..j];
        j := j + 1;
      }
      assert code[..j] == code;
    }

    /**
     * The `switch` of `traduzir_instrucao` and what follows it: prints the
     * template of one instruction, then keeps the cache for a memory
     * operation and invalidates it otherwise.
     */
    method TranslateBody(i: Instr)
      requires Lowerable(i)
      modifies this
      ensures out == old(out) + Template(i, old(cache))
      ensures cache == NextCache(i) && maxRegIdx == old(maxRegIdx)
    {
      var preserves := false;
      if i.opcode == LoadAI {
        var base, offset := i.sources[0].value.reg, i.sources[1].value.imm;
        var skip := cache.valid && cache.base.Some? && base == cache.base.value && offset == cache.offset;
        if !skip {
          out := out + [Mov(Mem(Address(base, offset, i.sources[1].aux)), Acc)];
        }
        out := out + [Mov(Acc, OperandArg(i.targets[0]))];
        cache := Cache(true, Some(base), offset);
        preserves := true;
      } else if i.opcode == StoreAI {
        out := out + Template(i, cache);
        cache := Cache(true, Some(i.targets[0].value.reg), i.targets[1].value.imm);
        preserves := true;
      } else {
        out := out + Template(i, cache);
      }
      if !preserves {
        InvalidateCache();
      }
    }

    /** `traduzir_instrucao`: a label invalidates the cache and prints its lines, then the instruction's template follows. */
    method TranslateInstruction(i: Instr)
      requires Valid() && Lowerable(i)
      modifies this
      ensures Valid()
      ensures out == old(out) + Step(i, old(maxRegIdx), old(cache)).0
      ensures cache == Step(i, old(maxRegIdx), old(cache)).1 && maxRegIdx == old(maxRegIdx)
    {
      var head: seq<AsmLine> := [];
      if i.lbl.Some? {
        InvalidateCache();
        head := LabelLines(i.lbl.value, maxRegIdx);
        out := out + head;
      }
      ghost var c := cache;
      TranslateBody(i);
      AppendAssoc(old(out), head, Template(i, c));
    }

    /**
     * `gerar_assembly` after its directives: nothing for a missing list;
     * otherwise the register scan, then every instruction in order.
     */
    method GenerateAssembly(code: Option<seq<Instr>>)
      requires Valid()
      requires code.Some? ==> forall k :: 0 <= k < |code.value| ==> Lowerable(code.value[k])
      modifies this
      ensures Valid()
      ensures code.None? ==> out == old(out) && cache == old(cache) && maxRegIdx == old(maxRegIdx)
      ensures code.Some? ==>
        maxRegIdx == MaxRegIn(code.value, old(maxRegIdx)) &&
        out == old(out) + Lower(code.value, maxRegIdx, old(cache)).0 &&
        cache == Lower(code.value, maxRegIdx, old(cache)).1
    {
      if code.None? {
        return;
      }
      var list := code.value;
      CalcStackSize(list);
      var m := maxRegIdx;
      ghost var start := out;
      ghost var startCache := cache;
      var j := 0;
      while j < |list|
        invariant 0 <= j <= |list| && maxRegIdx == m && m >= 0
        invariant out == start + Lower(list[..j], m, startCache).0
        invariant cache == Lower(list[..j], m, startCache).1
      {
        ghost var prev := Lower(list[..j], m, startCache);
        LowerStep(list, j, m, startCache);
        TranslateInstruction(list[j]);
        AppendAssoc(start, prev.0, Step(list[j], m, prev.1).0);
        j := j + 1;
      }
      assert list[..j] == list;
    }
  }
}
