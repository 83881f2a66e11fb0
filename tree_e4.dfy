// The syntax tree of the type-checking stage (E4): nodes on the heap that
// carry a text, a data type and a line, and hold their children in a
// growable array. Nodes are shared by reference, so a node that gains a
// child after it was attached elsewhere is changed there too.

module TreeE4 {
  import opened Types

  /** `asd_tree_t` of E4: `text` is its `label`, `children` its `children` array of length `number_of_children`. */
  class TreeNode {
    var text: string
    var dtype: DataType
    var line: int
    var children: seq<TreeNode>

    /** `asd_new`: a node with a copy of the text, the given type and line, and no children. */
    constructor (text: string, dtype: DataType, line: int)
      ensures this.text == text && this.dtype == dtype && this.line == line
      ensures children == []
    {
      this.text := text;
      this.dtype := dtype;
      this.line := line;
      children := [];
    }
  }

  /**
   * `asd_add_child`: with both arguments present the child becomes the last
   * child and the earlier children stay; a missing argument changes nothing.
   */
  method AddChild(tree: TreeNode?, child: TreeNode?)
    modifies tree
    ensures tree != null && child != null ==> tree.children == old(tree.children) + [child]
    ensures tree != null ==>
      tree.text == old(tree.text) && tree.dtype == old(tree.dtype) && tree.line == old(tree.line)
    ensures tree != null && child == null ==> tree.children == old(tree.children)
  {
    if tree != null && child != null {
      tree.children := tree.children + [child];
    }
  }

  /** `asd_detach_children`: the node forgets its children, which are left as they are. */
  method DetachChildren(tree: TreeNode?)
    modifies tree
    ensures tree != null ==> tree.children == []
    ensures tree != null ==>
      tree.text == old(tree.text) && tree.dtype == old(tree.dtype) && tree.line == old(tree.line)
  {
    if tree != null {
      tree.children := [];
    }
  }

  /**
   * The tree below `n` has fewer than `d` levels. A tree whose nodes are
   * shared may still be finite; this bound is what makes the recursion of
   * `asd_free` terminate.
   */
  ghost predicate WithinDepth(n: TreeNode, d: nat)
    reads *
    decreases d
  {
    d > 0 && forall i :: 0 <= i < |n.children| ==> WithinDepth(n.children[i], d - 1)
  }

  /** The nodes `asd_free` releases for `n`: every child's subtree in order, then `n` itself. */
  ghost function PostOrder(n: TreeNode, d: nat): (r: seq<TreeNode>)
    reads *
    requires WithinDepth(n, d)
    ensures |r| > 0 && r[|r| - 1] == n
    decreases d, 0
  {
    PostOrderAll(n.children, d - 1) + [n]
  }

  /** The released nodes of a sequence of subtrees, one after the other. */
  ghost function PostOrderAll(ns: seq<TreeNode>, d: nat): seq<TreeNode>
    reads *
    requires forall i :: 0 <= i < |ns| ==> WithinDepth(ns[i], d)
    decreases d, |ns|
  {
    if ns == [] then [] else PostOrderAll(ns[..|ns| - 1], d) + PostOrder(ns[|ns| - 1], d)
  }

  /** Every node of every subtree in the sequence is released, the roots included. */
  lemma {:induction false} PostOrderAllHolds(ns: seq<TreeNode>, d: nat, i: nat)
    requires forall j :: 0 <= j < |ns| ==> WithinDepth(ns[j], d)
    requires i < |ns|
    ensures forall x :: x in PostOrder(ns[i], d) ==> x in PostOrderAll(ns, d)
    decreases |ns|
  {
    if i < |ns| - 1 {
      PostOrderAllHolds(ns[..|ns| - 1], d, i);
    }
  }

  /** `asd_free` releases a node after all its children, and releases each child's whole subtree. */
  lemma ReleasesSubtrees(n: TreeNode, d: nat)
    requires WithinDepth(n, d)
    ensures PostOrder(n, d)[|PostOrder(n, d)| - 1] == n
    ensures forall i :: 0 <= i < |n.children| ==>
      WithinDepth(n.children[i], d - 1) &&
      forall x :: x in PostOrder(n.children[i], d - 1) ==> x in PostOrder(n, d)
  {
    forall i | 0 <= i < |n.children|
      ensures forall x :: x in PostOrder(n.children[i], d - 1) ==> x in PostOrder(n, d)
    {
      PostOrderAllHolds(n.children, d - 1, i);
    }
  }

  /**
   * `asd_free`: releases every child recursively, then the node itself; the
   * released nodes are returned in the order they are released. A missing
   * tree releases nothing (the C code prints a diagnostic).
   */
  method Free(tree: TreeNode?, ghost depth: nat) returns (released: seq<TreeNode>)
    requires tree != null ==> WithinDepth(tree, depth)
    ensures tree == null ==> released == []
    ensures tree != null ==> released == PostOrder(tree, depth)
    decreases depth
  {
    if tree == null {
      return [];
    }
    released := [];
    var i := 0;
    while i < |tree.children|
      invariant 0 <= i <= |tree.children|
      invariant released == PostOrderAll(tree.children[..i], depth - 1)
    {
      var sub := Free(tree.children[i], depth - 1);
      assert tree.children[..i + 1][..i] == tree.children[..i];
      released := released + sub;
      i := i + 1;
    }
    assert tree.children[..i] == tree.children;
    released := released + [tree];
  }
}
