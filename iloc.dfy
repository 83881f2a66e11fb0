// ILOC intermediate code: opcodes, operands, operations, the builders that
// fix each opcode's operand layout, the two-orientation splice of code
// lists, and the textual form of one operation.

module Iloc {
  import opened Types
  import Text

  datatype Opcode =
    | Nop | Add | Sub | Mult | Div | RsubI | And | Or | Xor
    | Load | LoadAI | LoadI | Store | StoreAI | I2I
    | CmpLT | CmpLE | CmpEQ | CmpGE | CmpGT | CmpNE
    | Cbr | Jump | JumpI | Ret

  /** The mnemonic printed for each opcode (`nome_opcode`). */
  function OpcodeName(op: Opcode): string
  {
    match op
    case Nop => "nop"
    case Add => "add"
    case Sub => "sub"
    case Mult => "mult"
    case Div => "div"
    case RsubI => "rsubi"
    case And => "and"
    case Or => "or"
    case Xor => "xor"
    case Load => "load"
    case LoadAI => "loadAI"
    case LoadI => "loadI"
    case Store => "store"
    case StoreAI => "storeAI"
    case I2I => "i2i"
    case CmpLT => "cmp_LT"
    case CmpLE => "cmp_LE"
    case CmpEQ => "cmp_EQ"
    case CmpGE => "cmp_GE"
    case CmpGT => "cmp_GT"
    case CmpNE => "cmp_NE"
    case Cbr => "cbr"
    case Jump => "jump"
    case JumpI => "jumpI"
    case Ret => "retorna"
  }

  /** OPERAND_REGISTER, OPERAND_IMMEDIATE, OPERAND_LABEL with their payloads. */
  datatype OperandValue = Reg(reg: string) | Imm(imm: int) | Label(lbl: string)

  /** An operand and its optional auxiliary name (the global symbol behind an offset). */
  datatype Operand = Operand(value: OperandValue, aux: Option<string>)

  /** One ILOC operation: opcode, source and target operands and an optional label. */
  datatype Instr = Instr(opcode: Opcode, sources: seq<Operand>, targets: seq<Operand>, lbl: Option<string>)

  function RegOperand(name: string): Operand { Operand(Reg(name), None) }
  function ImmOperand(v: int): Operand { Operand(Imm(v), None) }
  function LabelOperand(name: string): Operand { Operand(Label(name), None) }

  predicate IsReg(o: Operand) { o.value.Reg? && o.aux.None? }
  predicate IsImm(o: Operand) { o.value.Imm? }
  predicate IsLabel(o: Operand) { o.value.Label? && o.aux.None? }

  predicate IsArithmetic(op: Opcode) { op in {Add, Sub, Mult, Div, And, Or, Xor} }
  predicate IsComparison(op: Opcode) { op in {CmpLT, CmpLE, CmpEQ, CmpGE, CmpGT, CmpNE} }
  predicate IsControlFlow(op: Opcode) { op in {Cbr, Jump, JumpI} }

  /**
   * The operand layout the builders give each opcode. The lowering to x86-64
   * reads operands by position and relies on exactly this layout.
   */
  predicate WellFormed(i: Instr)
  {
    var s, t := i.sources, i.targets;
    match i.opcode
    case Nop => |s| == 0 && |t| == 0
    case LoadI => |s| == 1 && IsImm(s[0]) && s[0].aux.None? && |t| == 1 && IsReg(t[0])
    case Load => |s| == 1 && IsReg(s[0]) && |t| == 1 && IsReg(t[0])
    case Store => |s| == 1 && IsReg(s[0]) && |t| == 1 && IsReg(t[0])
    case I2I => |s| == 1 && IsReg(s[0]) && |t| == 1 && IsReg(t[0])
    case LoadAI => |s| == 2 && IsReg(s[0]) && IsImm(s[1]) && |t| == 1 && IsReg(t[0])
    case StoreAI => |s| == 1 && IsReg(s[0]) && |t| == 2 && IsReg(t[0]) && IsImm(t[1])
    case RsubI => |s| == 2 && IsReg(s[0]) && IsImm(s[1]) && s[1].aux.None? && |t| == 1 && IsReg(t[0])
    case Cbr => |s| == 1 && IsReg(s[0]) && |t| == 2 && IsLabel(t[0]) && IsLabel(t[1])
    case JumpI => |s| == 0 && |t| == 1 && IsLabel(t[0])
    case Jump => |s| == 0 && |t| == 1 && IsReg(t[0])
    case Ret => |s| <= 1 && (|s| == 1 ==> IsReg(s[0])) && |t| == 0
    case _ => (IsArithmetic(i.opcode) || IsComparison(i.opcode))
              && |s| == 2 && IsReg(s[0]) && IsReg(s[1]) && |t| == 1 && IsReg(t[0])
  }

  /** `criar_operacao`: an unlabelled operation over the given operands. */
  function Operation(op: Opcode, sources: seq<Operand>, targets: seq<Operand>): (r: Instr)
    ensures r.lbl.None?
  {
    Instr(op, sources, targets, None)
  }

  /** `criar_operacao_com_rotulo`. */
  function LabelledOperation(name: string, op: Opcode, sources: seq<Operand>, targets: seq<Operand>): (r: Instr)
    ensures r.lbl == Some(name) && r.opcode == op && r.sources == sources && r.targets == targets
  {
    Operation(op, sources, targets).(lbl := Some(name))
  }

  function MakeLoadI(value: int, dest: string): (r: Instr)
    ensures WellFormed(r) && r.opcode == LoadI && r.lbl.None?
    ensures r.sources[0].value.imm == value && r.targets[0].value.reg == dest
  {
    Operation(LoadI, [ImmOperand(value)], [RegOperand(dest)])
  }

  function MakeLoad(src: string, dest: string): (r: Instr)
    ensures WellFormed(r) && r.opcode == Load && r.lbl.None?
    ensures r.sources[0].value.reg == src && r.targets[0].value.reg == dest
  {
    Operation(Load, [RegOperand(src)], [RegOperand(dest)])
  }

  /** `criar_loadAI`: sources [base register, offset immediate carrying the global name], target [dest]. */
  function MakeLoadAI(base: string, offset: int, dest: string, global: Option<string>): (r: Instr)
    ensures WellFormed(r) && r.opcode == LoadAI && r.lbl.None?
    ensures r.sources[0].value.reg == base && r.sources[1].value.imm == offset
    ensures r.sources[1].aux == global && r.targets[0].value.reg == dest
  {
    Operation(LoadAI, [RegOperand(base), Operand(Imm(offset), global)], [RegOperand(dest)])
  }

  function MakeStore(src: string, dest: string): (r: Instr)
    ensures WellFormed(r) && r.opcode == Store && r.lbl.None?
    ensures r.sources[0].value.reg == src && r.targets[0].value.reg == dest
  {
    Operation(Store, [RegOperand(src)], [RegOperand(dest)])
  }

  /** `criar_storeAI`: source [value register], targets [base register, offset immediate carrying the global name]. */
  function MakeStoreAI(src: string, base: string, offset: int, global: Option<string>): (r: Instr)
    ensures WellFormed(r) && r.opcode == StoreAI && r.lbl.None?
    ensures r.sources[0].value.reg == src && r.targets[0].value.reg == base
    ensures r.targets[1].value.imm == offset && r.targets[1].aux == global
  {
    Operation(StoreAI, [RegOperand(src)], [RegOperand(base), Operand(Imm(offset), global)])
  }

  /** `criar_aritmetica` and `criar_comparacao`: two register sources, one register target. */
  function MakeBinary(op: Opcode, src1: string, src2: string, dest: string): (r: Instr)
    requires IsArithmetic(op) || IsComparison(op)
    ensures WellFormed(r) && r.opcode == op && r.lbl.None?
    ensures r.sources[0].value.reg == src1 && r.sources[1].value.reg == src2
    ensures r.targets[0].value.reg == dest
  {
    Operation(op, [RegOperand(src1), RegOperand(src2)], [RegOperand(dest)])
  }

  /** `criar_rsubI(valor, origem, destino)`: sources [origem, valor], target [destino]. */
  function MakeRsubI(value: int, src: string, dest: string): (r: Instr)
    ensures WellFormed(r) && r.opcode == RsubI && r.lbl.None?
    ensures r.sources[0].value.reg == src && r.sources[1].value.imm == value
    ensures r.targets[0].value.reg == dest
  {
    Operation(RsubI, [RegOperand(src), ImmOperand(value)], [RegOperand(dest)])
  }

  /** `criar_cbr`: one register source, two label targets (taken, not taken). */
  function MakeCbr(cond: string, ifTrue: string, ifFalse: string): (r: Instr)
    ensures WellFormed(r) && r.opcode == Cbr && r.lbl.None?
    ensures r.sources[0].value.reg == cond
    ensures r.targets[0].value.lbl == ifTrue && r.targets[1].value.lbl == ifFalse
  {
    Operation(Cbr, [RegOperand(cond)], [LabelOperand(ifTrue), LabelOperand(ifFalse)])
  }

  /** `criar_jumpI`: no sources, one label target. */
  function MakeJumpI(target: string): (r: Instr)
    ensures WellFormed(r) && r.opcode == JumpI && r.lbl.None?
    ensures r.targets[0].value.lbl == target
  {
    Operation(JumpI, [], [LabelOperand(target)])
  }

  function MakeI2I(src: string, dest: string): (r: Instr)
    ensures WellFormed(r) && r.opcode == I2I && r.lbl.None?
    ensures r.sources[0].value.reg == src && r.targets[0].value.reg == dest
  {
    Operation(I2I, [RegOperand(src)], [RegOperand(dest)])
  }

  /** `criar_nop_com_rotulo`: a labelled no-op, the only way code gets labels. */
  function MakeLabelledNop(name: string): (r: Instr)
    ensures WellFormed(r) && r.opcode == Nop && r.lbl == Some(name)
  {
    LabelledOperation(name, Nop, [], [])
  }

  /** The `retorna` operation built by the return statement: one register source, no target. */
  function MakeRet(src: string): (r: Instr)
    ensures WellFormed(r) && r.opcode == Ret && r.lbl.None? && |r.sources| == 1
    ensures r.sources[0].value.reg == src
  {
    Operation(Ret, [RegOperand(src)], [])
  }

  // ---------------------------------------------------------------------
  // Code lists. A node's `codigo` is either absent (a null list) or a list.

  /** ORD_NORM (0) and ORD_INV (1) of `concatenar_listas`. */
  datatype Order = Norm | Inv

  function Flat(l: Option<seq<Instr>>): seq<Instr>
  {
    if l.Some? then l.value else []
  }

  /**
   * `concatenar_listas(l1, l2, order)` on list values: a null list yields the
   * other; an empty `l1` takes `l2`'s operations; otherwise `l2` is linked
   * behind `l1`, or in front of it under ORD_INV.
   */
  function Splice(l1: Option<seq<Instr>>, l2: Option<seq<Instr>>, order: Order): Option<seq<Instr>>
  {
    if l1.None? && l2.None? then None
    else if l1.None? then l2
    else if l2.None? then l1
    else if l1.value == [] then Some(l2.value)
    else if l2.value == [] then l1
    else if order == Inv then Some(l2.value + l1.value)
    else Some(l1.value + l2.value)
  }

  /** Splicing is concatenation in the stated order; the result is null only when both lists are. */
  lemma SpliceConcatenates(l1: Option<seq<Instr>>, l2: Option<seq<Instr>>, order: Order)
    ensures Splice(l1, l2, order).None? <==> l1.None? && l2.None?
    ensures Flat(Splice(l1, l2, order)) == if order == Inv then Flat(l2) + Flat(l1) else Flat(l1) + Flat(l2)
  {
    if l1.Some? && l2.Some? {
      if l1.value == [] {
        assert [] + l2.value == l2.value && l2.value + [] == l2.value;
      } else if l2.value == [] {
        assert [] + l1.value == l1.value && l1.value + [] == l1.value;
      }
    }
  }

  /** Splicing under one orientation is associative. */
  lemma SpliceAssociative(a: Option<seq<Instr>>, b: Option<seq<Instr>>, c: Option<seq<Instr>>, order: Order)
    ensures Flat(Splice(Splice(a, b, order), c, order)) == Flat(Splice(a, Splice(b, c, order), order))
  {
    SpliceConcatenates(a, b, order);
    SpliceConcatenates(Splice(a, b, order), c, order);
    SpliceConcatenates(b, c, order);
    SpliceConcatenates(a, Splice(b, c, order), order);
    if order == Norm {
      assert (Flat(a) + Flat(b)) + Flat(c) == Flat(a) + (Flat(b) + Flat(c));
    } else {
      assert Flat(c) + (Flat(b) + Flat(a)) == (Flat(c) + Flat(b)) + Flat(a);
    }
  }

  /** Splicing keeps every operation of both lists, each in its own order. */
  lemma SpliceKeepsOrder(l1: seq<Instr>, l2: seq<Instr>, order: Order)
    ensures var r := Flat(Splice(Some(l1), Some(l2), order));
            |r| == |l1| + |l2| &&
            (order == Norm ==> r[..|l1|] == l1 && r[|l1|..] == l2) &&
            (order == Inv ==> r[..|l2|] == l2 && r[|l2|..] == l1)
  {
    SpliceConcatenates(Some(l1), Some(l2), order);
  }

  /** The worked case: [A, B] spliced with [C]. */
  lemma SpliceExample(a: Instr, b: Instr, c: Instr)
    ensures Splice(Some([a, b]), Some([c]), Norm) == Some([a, b, c])
    ensures Splice(Some([a, b]), Some([c]), Inv) == Some([c, a, b])
  {
    assert [a, b] + [c] == [a, b, c];
    assert [c] + [a, b] == [c, a, b];
  }

  // ---------------------------------------------------------------------
  // Printing (`imprimir_codigo_iloc`).

  /** The separator between sources and targets: `->` for control flow, `=>` otherwise, none without targets. */
  function Separator(i: Instr): (sep: Option<string>)
    ensures sep.Some? <==> |i.targets| > 0
    ensures sep == Some("->") <==> |i.targets| > 0 && IsControlFlow(i.opcode)
    ensures sep == Some("=>") <==> |i.targets| > 0 && !IsControlFlow(i.opcode)
  {
    if |i.targets| == 0 then None
    else if i.opcode == Cbr || i.opcode == Jump || i.opcode == JumpI then Some("->")
    else Some("=>")
  }

  function IntToString(v: int): string
  {
    if v < 0 then "-" + Text.NatToString(-v) else Text.NatToString(v)
  }

  function OperandText(o: Operand): string
  {
    match o.value
    case Reg(r) => r
    case Imm(v) => IntToString(v)
    case Label(l) => l
  }

  function JoinOperands(ops: seq<Operand>): string
  {
    if |ops| == 0 then ""
    else if |ops| == 1 then OperandText(ops[0])
    else JoinOperands(ops[..|ops| - 1]) + ", " + OperandText(ops[|ops| - 1])
  }

  /** One printed line, without its newline. */
  function FormatInstr(i: Instr): string
  {
    (if i.lbl.Some? then i.lbl.value + ": " else "")
    + OpcodeName(i.opcode)
    + (if |i.sources| > 0 then " " + JoinOperands(i.sources) else "")
    + (if Separator(i).Some? then " " + Separator(i).value + " " + JoinOperands(i.targets) else "")
  }
}
