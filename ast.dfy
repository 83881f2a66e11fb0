// The syntax tree of the code-generating stages: every node carries its
// label, data type and line, its children, the register that holds its value
// and the ILOC code that computes it.

module Ast {
  import opened Types
  import opened Iloc

  /** `asd_tree_t`: `text` is the label, `temp` is the register holding the node's value, `code` its instruction list (absent = null). */
  datatype Node = Node(text: string, dtype: DataType, line: int, children: seq<Node>,
                       temp: Option<string>, code: Option<seq<Instr>>)

  /**
   * `asd_add_child(tree, child, order)`. The stages that generate code take
   * this function from a file that is not part of this model; the model
   * takes it to do what every call site relies on: the child's list is spliced into
   * the parent's with `concatenar_listas(tree->codigo, child->codigo, order)`,
   * the child gives its list up, and it is appended as the last child.
   */
  function AddChild(parent: Node, child: Node, order: Order): (r: Node)
    ensures r.text == parent.text && r.dtype == parent.dtype && r.line == parent.line && r.temp == parent.temp
    ensures r.children == parent.children + [child.(code := None)]
    ensures Flat(r.code) == if order == Norm then Flat(parent.code) + Flat(child.code)
                            else Flat(child.code) + Flat(parent.code)
    ensures r.code.None? <==> parent.code.None? && child.code.None?
  {
    SpliceConcatenates(parent.code, child.code, order);
    parent.(children := parent.children + [child.(code := None)], code := Splice(parent.code, child.code, order))
  }

  /**
   * A `concatenar_listas` call whose result is thrown away: only a non-null
   * first list can be changed in place, so a null first list stays null.
   */
  function SpliceInPlace(l1: Option<seq<Instr>>, l2: Option<seq<Instr>>, order: Order): (r: Option<seq<Instr>>)
    ensures l1.None? ==> r.None?
    ensures l1.Some? ==> r.Some? && Flat(r) == if order == Norm then Flat(l1) + Flat(l2) else Flat(l2) + Flat(l1)
  {
    SpliceConcatenates(l1, l2, order);
    if l1.None? then None else Splice(l1, l2, order)
  }
}
