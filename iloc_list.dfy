// The ILOC operation list of the code generator: a singly linked list of
// operation nodes with head and tail pointers. Its abstract value is the
// sequence of operations met by following `next` from the head.

module IlocList {
  import opened Types
  import opened Iloc

  /** An `OperacaoILOC` record: one operation and the link to its successor. */
  class OpNode {
    var instr: Instr
    var next: OpNode?

    /** `criar_operacao`: a new record with no successor. */
    constructor (instr: Instr)
      ensures this.instr == instr && next == null
    {
      this.instr := instr;
      next := null;
    }
  }

  /** The operand copy loop of `criar_operacao`: the first `count` entries, or none when `count` is not positive. */
  method CopyOperands(operands: array<Operand>, count: int) returns (copy: seq<Operand>)
    requires count <= operands.Length
    ensures count <= 0 ==> copy == []
    ensures count > 0 ==> copy == operands[..count]
  {
    copy := [];
    if count > 0 {
      var i := 0;
      while i < count
        invariant 0 <= i <= count
        invariant copy == operands[..i]
      {
        copy := copy + [operands[i]];
        i := i + 1;
      }
    }
  }

  /** `criar_operacao`: copies the opcode and every operand; the result has no label and no successor. */
  method CreateOperation(opcode: Opcode, sources: array<Operand>, numSources: int,
                         targets: array<Operand>, numTargets: int) returns (node: OpNode)
    requires numSources <= sources.Length && numTargets <= targets.Length
    ensures fresh(node) && node.next == null
    ensures node.instr.opcode == opcode && node.instr.lbl.None?
    ensures node.instr.sources == (if numSources > 0 then sources[..numSources] else [])
    ensures node.instr.targets == (if numTargets > 0 then targets[..numTargets] else [])
  {
    var s := CopyOperands(sources, numSources);
    var t := CopyOperands(targets, numTargets);
    node := new OpNode(Operation(opcode, s, t));
  }

  /** `criar_operacao_com_rotulo`: as `CreateOperation`, then the label is set. */
  method CreateLabelledOperation(name: string, opcode: Opcode, sources: array<Operand>, numSources: int,
                                 targets: array<Operand>, numTargets: int) returns (node: OpNode)
    requires numSources <= sources.Length && numTargets <= targets.Length
    ensures fresh(node) && node.next == null
    ensures node.instr.opcode == opcode && node.instr.lbl == Some(name)
    ensures node.instr.sources == (if numSources > 0 then sources[..numSources] else [])
    ensures node.instr.targets == (if numTargets > 0 then targets[..numTargets] else [])
  {
    node := CreateOperation(opcode, sources, numSources, targets, numTargets);
    node.instr := node.instr.(lbl := Some(name));
  }

  /** Each node's successor is the next node of the sequence. */
  ghost predicate Linked(s: seq<OpNode>)
    reads s
  {
    forall i :: 0 <= i < |s| - 1 ==> s[i].next == s[i + 1]
  }

  ghost predicate Distinct(s: seq<OpNode>)
  {
    forall i, j :: 0 <= i < j < |s| ==> s[i] != s[j]
  }

  lemma LinkedJoin(a: seq<OpNode>, b: seq<OpNode>)
    requires Linked(a) && Linked(b) && |a| > 0 && |b| > 0 && a[|a| - 1].next == b[0]
    ensures Linked(a + b)
  {
    var s := a + b;
    forall i | 0 <= i < |s| - 1 ensures s[i].next == s[i + 1] {
      if i < |a| - 1 {
        assert s[i] == a[i] && s[i + 1] == a[i + 1];
      } else if i >= |a| {
        assert s[i] == b[i - |a|] && s[i + 1] == b[i - |a| + 1];
      }
    }
  }

  lemma DistinctJoin(a: seq<OpNode>, b: seq<OpNode>)
    requires Distinct(a) && Distinct(b) && forall n :: n in a ==> n !in b
    ensures Distinct(a + b)
  {
    var s := a + b;
    forall i, j | 0 <= i < j < |s| ensures s[i] != s[j] {
      if i < |a| && j >= |a| {
        assert s[i] in a && s[j] in b;
      }
    }
  }

  /** A `ListaILOC`: head and tail of a chain of distinct nodes, recorded by the ghost `spine`. */
  class InstrList {
    var first: OpNode?
    var last: OpNode?
    ghost var spine: seq<OpNode>

    ghost predicate Valid()
      reads this, spine
    {
      (first == null <==> |spine| == 0) &&
      (|spine| == 0 ==> last == null) &&
      (|spine| > 0 ==> first == spine[0] && last == spine[|spine| - 1] && last.next == null) &&
      Linked(spine) && Distinct(spine)
    }

    /** The operations in list order. */
    ghost function Contents(): (s: seq<Instr>)
      reads this, spine
      ensures |s| == |spine|
    {
      seq(|spine|, i reads this, spine requires 0 <= i < |spine| => spine[i].instr)
    }

    /** `criar_lista_iloc`. */
    constructor ()
      ensures Valid() && Contents() == [] && spine == []
    {
      first := null;
      last := null;
      spine := [];
    }
  }

  /**
   * `adicionar_operacao`: links `op` behind the tail. A null list or a null
   * operation leaves everything as it was. The operation must not already be
   * in the list and must have no successor (every builder returns one so).
   */
  method Append(l: InstrList?, op: OpNode?)
    requires l != null ==> l.Valid()
    requires l != null && op != null ==> op.next == null && op !in l.spine
    modifies l, if l != null then l.spine else []
    ensures l != null ==> l.Valid()
    ensures l != null && op != null ==> l.Contents() == old(l.Contents()) + [op.instr] && l.spine == old(l.spine) + [op]
    ensures l == null || op == null ==> l != null ==> l.Contents() == old(l.Contents()) && l.spine == old(l.spine)
  {
    if l == null || op == null {
      return;
    }
    if l.first == null {
      l.first := op;
      l.last := op;
    } else {
      l.last.next := op;
      l.last := op;
    }
    l.spine := l.spine + [op];
  }

  /** `adicionar_operacao_ini`: links `op` in front of the head. */
  method Prepend(l: InstrList?, op: OpNode?)
    requires l != null ==> l.Valid()
    requires l != null && op != null ==> op !in l.spine
    modifies l, op
    ensures l != null ==> l.Valid()
    ensures l != null && op != null ==> l.Contents() == [op.instr] + old(l.Contents()) && l.spine == [op] + old(l.spine)
    ensures l == null || op == null ==> l != null ==> l.Contents() == old(l.Contents()) && l.spine == old(l.spine)
  {
    if l == null || op == null {
      return;
    }
    op.next := l.first;
    if l.first == null {
      l.last := op;
    }
    l.first := op;
    l.spine := [op] + l.spine;
  }

  /** The list's value in the terms of `Splice`: a null list has none. */
  ghost function Value(l: InstrList?): Option<seq<Instr>>
    reads l, if l != null then l.spine else []
  {
    if l == null then None else Some(l.Contents())
  }

  /** ORD_NORM linking of `concatenar_listas`: `l2`'s chain is hung behind `l1`'s tail. */
  method LinkBehind(l1: InstrList, l2: InstrList)
    requires l1.Valid() && l2.Valid() && l1 != l2
    requires |l1.spine| > 0 && |l2.spine| > 0
    requires forall n :: n in l1.spine ==> n !in l2.spine
    modifies l1, l1.spine
    ensures l1.Valid()
    ensures l1.spine == old(l1.spine) + old(l2.spine)
    ensures l1.Contents() == old(l1.Contents()) + old(l2.Contents())
  {
    ghost var s1, s2 := l1.spine, l2.spine;
    ghost var c1, c2 := l1.Contents(), l2.Contents();
    var tail := l1.last;
    assert tail in s1 && tail !in s2;
    tail.next := l2.first;
    l1.last := l2.last;
    l1.spine := s1 + s2;
    forall i | 0 <= i < |s1| - 1 ensures s1[i].next == s1[i + 1] {
      assert s1[i] != tail;
    }
    LinkedJoin(s1, s2);
    DistinctJoin(s1, s2);
    assert l1.Contents() == c1 + c2;
  }

  /** ORD_INV linking of `concatenar_listas`: `l1`'s chain is hung behind `l2`'s tail and `l1` takes `l2`'s head. */
  method LinkInFront(l1: InstrList, l2: InstrList)
    requires l1.Valid() && l2.Valid() && l1 != l2
    requires |l1.spine| > 0 && |l2.spine| > 0
    requires forall n :: n in l1.spine ==> n !in l2.spine
    modifies l1, l2.spine
    ensures l1.Valid()
    ensures l1.spine == old(l2.spine) + old(l1.spine)
    ensures l1.Contents() == old(l2.Contents()) + old(l1.Contents())
  {
    ghost var s1, s2 := l1.spine, l2.spine;
    ghost var c1, c2 := l1.Contents(), l2.Contents();
    var tail := l2.last;
    assert tail in s2 && tail !in s1;
    tail.next := l1.first;
    l1.first := l2.first;
    l1.spine := s2 + s1;
    forall i | 0 <= i < |s2| - 1 ensures s2[i].next == s2[i + 1] {
      assert s2[i] != tail;
    }
    LinkedJoin(s2, s1);
    forall n | n in s2 ensures n !in s1 { }
    DistinctJoin(s2, s1);
    assert l1.Contents() == c2 + c1;
  }

  /**
   * `concatenar_listas(l1, l2, order)`: with both lists present, the nodes of
   * `l2` end up behind those of `l1` (in front of them under ORD_INV) and `l1`
   * is returned; a null list yields the other one. The two lists must not share
   * a node. The C code then frees the `l2` header, which must not be used again.
   */
  method Concat(l1: InstrList?, l2: InstrList?, order: Order) returns (r: InstrList?)
    requires l1 != null ==> l1.Valid()
    requires l2 != null ==> l2.Valid()
    requires l1 != null && l2 != null ==> l1 != l2 && forall n :: n in l1.spine ==> n !in l2.spine
    modifies l1, if l1 != null then l1.spine else [], if l2 != null then l2.spine else []
    ensures r == null <==> l1 == null && l2 == null
    ensures r == (if l1 != null then l1 else l2)
    ensures r != null ==> r.Valid() && Value(r) == Splice(old(Value(l1)), old(Value(l2)), order)
  {
    if l1 == null && l2 == null {
      return null;
    }
    if l1 == null {
      return l2;
    }
    if l2 == null {
      return l1;
    }
    ghost var c1, c2 := l1.Contents(), l2.Contents();
    if l1.first == null {
      l1.first := l2.first;
      l1.last := l2.last;
      l1.spine := l2.spine;
      assert l1.Contents() == c2;
    } else if l2.first != null {
      if order == Inv {
        LinkInFront(l1, l2);
      } else {
        LinkBehind(l1, l2);
      }
    }
    r := l1;
  }

  /** The printed lines of a code list, one per operation. */
  function Listing(code: seq<Instr>): (lines: seq<string>)
    ensures |lines| == |code|
    ensures forall i :: 0 <= i < |code| ==> lines[i] == FormatInstr(code[i])
  {
    if code == [] then [] else Listing(code[..|code| - 1]) + [FormatInstr(code[|code| - 1])]
  }

  /** Listing a concatenation lists each part in turn. */
  lemma {:induction false} ListingConcat(a: seq<Instr>, b: seq<Instr>)
    ensures Listing(a + b) == Listing(a) + Listing(b)
    decreases |b|
  {
    if b == [] {
      assert a + b == a;
    } else {
      var front := b[..|b| - 1];
      assert (a + b)[..|a + b| - 1] == a + front;
      assert (a + b)[|a + b| - 1] == b[|b| - 1];
      ListingConcat(a, front);
    }
  }

  /** `imprimir_codigo_iloc`: one line per operation, following `next` from the head until null. */
  method PrintCode(l: InstrList?) returns (lines: seq<string>)
    requires l != null ==> l.Valid()
    ensures l == null ==> lines == []
    ensures l != null ==> lines == Listing(l.Contents())
  {
    lines := [];
    if l == null {
      return;
    }
    var op := l.first;
    ghost var k := 0;
    while op != null
      invariant 0 <= k <= |l.spine|
      invariant k < |l.spine| ==> op == l.spine[k]
      invariant k == |l.spine| ==> op == null
      invariant lines == Listing(l.Contents()[..k])
      decreases |l.spine| - k
    {
      assert l.Contents()[..k + 1] == l.Contents()[..k] + [op.instr];
      lines := lines + [FormatInstr(op.instr)];
      op := op.next;
      k := k + 1;
    }
    assert l.Contents()[..k] == l.Contents();
  }
}
