// The scope and symbol store of the code-generating stages: a stack of
// scopes, each a table from names to symbols, searched from the innermost
// scope outwards.

module Scopes {
  import opened Types

  /** One entry of a function's parameter list (`ArgLista`): its type and name. */
  datatype Param = Param(dtype: DataType, name: string)

  /**
   * A symbol table entry (`Simbolo`): key, nature, data type, a copy of the
   * declaring token, the parameter list and its length (functions), and the
   * storage class and byte offset (variables).
   */
  datatype Symbol = Symbol(key: string, nature: Nature, dtype: DataType, token: Token,
                           args: seq<Param>, numArgs: int, isGlobal: bool, offset: int)

  /**
   * One scope (`EscopoPilha` node): its table, the order in which keys were
   * added (the iteration order of the table), the return type a `return`
   * inside it must match, and the key of the function being defined, which
   * names an entry of the enclosing scope.
   */
  datatype Scope = Scope(table: map<string, Symbol>, order: seq<string>,
                         returnType: DataType, currentFunction: Option<string>)

  ghost predicate ScopeValid(s: Scope)
  {
    (forall k :: k in s.table <==> k in s.order) &&
    (forall i, j :: 0 <= i < j < |s.order| ==> s.order[i] != s.order[j]) &&
    (forall k :: k in s.table ==> s.table[k].key == k)
  }

  ghost predicate StackValid(scopes: seq<Scope>)
  {
    (forall i :: 0 <= i < |scopes| ==> ScopeValid(scopes[i])) &&
    (forall i :: 0 <= i < |scopes| && scopes[i].currentFunction.Some? ==>
       i > 0 && scopes[i].currentFunction.value in scopes[i - 1].table)
  }

  /** `symbol_lookup` as a specification: the entry of the innermost scope holding `key`. */
  function Find(scopes: seq<Scope>, key: string): Option<Symbol>
  {
    if |scopes| == 0 then None
    else if key in scopes[|scopes| - 1].table then Some(scopes[|scopes| - 1].table[key])
    else Find(scopes[..|scopes| - 1], key)
  }

  /**
   * `Find` is the nearest-scope rule: it finds `key` exactly when some scope
   * holds it, and then yields the entry of the innermost such scope.
   */
  lemma {:induction false} FindNearest(scopes: seq<Scope>, key: string)
    ensures Find(scopes, key).Some? <==> exists i :: 0 <= i < |scopes| && key in scopes[i].table
    ensures Find(scopes, key).Some? ==>
      exists i :: 0 <= i < |scopes| && key in scopes[i].table && Find(scopes, key).value == scopes[i].table[key] &&
        forall j :: i < j < |scopes| ==> key !in scopes[j].table
    decreases |scopes|
  {
    if |scopes| > 0 {
      var n := |scopes| - 1;
      if key !in scopes[n].table {
        var pre := scopes[..n];
        FindNearest(pre, key);
        if exists i :: 0 <= i < |scopes| && key in scopes[i].table {
          var i :| 0 <= i < |scopes| && key in scopes[i].table;
          assert key in pre[i].table;
        }
        if Find(scopes, key).Some? {
          var i :| 0 <= i < |pre| && key in pre[i].table && Find(pre, key).value == pre[i].table[key] &&
            forall j :: i < j < |pre| ==> key !in pre[j].table;
          assert key in scopes[i].table && forall j :: i < j < |scopes| ==> key !in scopes[j].table;
        }
      }
    }
  }

  /** The scopes above `k` do not hold `key`, so the search may start at scope `k - 1`. */
  lemma {:induction false} FindSkip(scopes: seq<Scope>, key: string, k: nat)
    requires k <= |scopes|
    requires forall j :: k <= j < |scopes| ==> key !in scopes[j].table
    ensures Find(scopes, key) == Find(scopes[..k], key)
    decreases |scopes| - k
  {
    if k < |scopes| {
      var n := |scopes| - 1;
      assert scopes[..n][..k] == scopes[..k];
      FindSkip(scopes[..n], key, k);
    } else {
      assert scopes[..k] == scopes;
    }
  }

  /** The stack with `entry` added to the top table under its key. */
  function Inserted(scopes: seq<Scope>, entry: Symbol): (r: seq<Scope>)
    requires |scopes| > 0
    ensures |r| == |scopes| && r[..|r| - 1] == scopes[..|scopes| - 1]
  {
    var top := scopes[|scopes| - 1];
    scopes[..|scopes| - 1] + [top.(table := top.table[entry.key := entry], order := top.order + [entry.key])]
  }

  /** After an insertion, the key finds the new entry and every other key finds what it found before. */
  lemma InsertedFind(scopes: seq<Scope>, entry: Symbol, key: string)
    requires |scopes| > 0
    ensures Find(Inserted(scopes, entry), key) == if key == entry.key then Some(entry) else Find(scopes, key)
  {
    var r := Inserted(scopes, entry);
    var n := |scopes| - 1;
    assert r[..n] == scopes[..n];
  }

  /** The scope `stack_push` creates: empty, no current function, the parent's return type or TIPO_INDEF. */
  function NewScope(scopes: seq<Scope>): (s: Scope)
    ensures s.table == map[] && s.order == [] && s.currentFunction.None?
    ensures s.returnType == if |scopes| > 0 then scopes[|scopes| - 1].returnType else Indef
  {
    Scope(map[], [], if |scopes| > 0 then scopes[|scopes| - 1].returnType else Indef, None)
  }

  /** Pushing an empty scope changes no lookup; popping it again restores the stack. */
  lemma PushedFind(scopes: seq<Scope>, key: string)
    ensures Find(scopes + [NewScope(scopes)], key) == Find(scopes, key)
    ensures (scopes + [NewScope(scopes)])[..|scopes|] == scopes
  {
    assert (scopes + [NewScope(scopes)])[..|scopes|] == scopes;
  }

  /** After an inner declaration of `entry.key`, that key finds the inner entry whatever outer scopes hold. */
  lemma InnerShadowsOuter(scopes: seq<Scope>, entry: Symbol)
    requires |scopes| > 0 && Find(scopes[..|scopes| - 1], entry.key).Some?
    ensures Find(Inserted(scopes, entry), entry.key) == Some(entry)
    ensures Find(Inserted(scopes, entry)[..|scopes| - 1], entry.key) == Find(scopes[..|scopes| - 1], entry.key)
  {
    InsertedFind(scopes, entry, entry.key);
  }

  /** `create_entry_var`: a variable with no parameters, marked global at offset 0 until its declaration is processed. */
  function CreateEntryVar(key: string, dtype: DataType, token: Token): (e: Symbol)
    ensures e.key == key && e.nature == Identifier && e.dtype == dtype && e.token == token
    ensures e.args == [] && e.numArgs == 0 && e.isGlobal && e.offset == 0
  {
    Symbol(key, Identifier, dtype, token, [], 0, true, 0)
  }

  /**
   * `create_entry_fun`: a function of the given return type with no parameters yet.
   * The C code leaves the storage fields unset; they are never read for a function.
   */
  function CreateEntryFun(key: string, returnType: DataType, token: Token): (e: Symbol)
    ensures e.key == key && e.nature == Function && e.dtype == returnType && e.token == token
    ensures e.args == [] && e.numArgs == 0
  {
    Symbol(key, Function, returnType, token, [], 0, false, 0)
  }

  /** Whether `symbol_insert` succeeded, or the error it stopped with. */
  datatype Outcome = Pass | Fail(error: ErrorKind)

  /** The global `EscopoPilha` pointer; the sequence runs from the base scope (index 0) to the top. */
  class ScopeStack {
    var scopes: seq<Scope>

    ghost predicate Valid()
      reads this
    {
      StackValid(scopes)
    }

    /** The stack starts uninitialised (a null pointer). */
    constructor ()
      ensures Valid() && scopes == []
    {
      scopes := [];
    }

    /** `stack_push`. */
    method Push()
      requires Valid()
      modifies this
      ensures Valid()
      ensures scopes == old(scopes) + [NewScope(old(scopes))]
    {
      scopes := scopes + [NewScope(scopes)];
    }

    /**
     * `stack_push` of the type-checking stage (E4): the new scope is empty,
     * but its return type is never written, so it holds whatever the
     * allocation left there, given here as `indeterminate`. The function
     * being defined is not recorded either.
     */
    method PushUninitialised(indeterminate: DataType)
      requires Valid()
      modifies this
      ensures Valid()
      ensures scopes == old(scopes) + [Scope(map[], [], indeterminate, None)]
    {
      scopes := scopes + [Scope(map[], [], indeterminate, None)];
    }

    /** `stack_pop`: nothing on an empty stack; otherwise the parent becomes the top and the popped symbols are gone. */
    method Pop()
      requires Valid()
      modifies this
      ensures Valid()
      ensures old(scopes) == [] ==> scopes == []
      ensures old(scopes) != [] ==> scopes == old(scopes)[..|old(scopes)| - 1]
    {
      if scopes != [] {
        scopes := scopes[..|scopes| - 1];
      }
    }

    /** `symbol_lookup_local`: the top scope only; nothing for an empty stack. */
    method LookupLocal(key: string) returns (r: Option<Symbol>)
      ensures r.Some? <==> |scopes| > 0 && key in scopes[|scopes| - 1].table
      ensures r.Some? ==> r.value == scopes[|scopes| - 1].table[key]
    {
      if scopes == [] {
        return None;
      }
      var top := scopes[|scopes| - 1];
      if key in top.table {
        r := Some(top.table[key]);
      } else {
        r := None;
      }
    }

    /** `symbol_lookup`: walks from the top scope to the base and returns the first match. */
    method Lookup(key: string) returns (r: Option<Symbol>)
      ensures r == Find(scopes, key)
    {
      var i := |scopes|;
      while i > 0
        invariant 0 <= i <= |scopes|
        invariant forall j :: i <= j < |scopes| ==> key !in scopes[j].table
      {
        if key in scopes[i - 1].table {
          FindSkip(scopes, key, i);
          assert scopes[..i][i - 1] == scopes[i - 1];
          return Some(scopes[i - 1].table[key]);
        }
        i := i - 1;
      }
      FindSkip(scopes, key, 0);
      r := None;
    }

    /**
     * `symbol_insert`: an uninitialised stack is the internal error; a key
     * already in the TOP scope is a redeclaration, citing the new token and the
     * line of the existing entry; otherwise the entry is added to the top scope,
     * even when an outer scope holds the same key. The entry's own key must be
     * the key looked up, as at every call site.
     */
    method Insert(key: string, entry: Symbol) returns (out: Outcome)
      requires Valid() && entry.key == key
      modifies this
      ensures Valid()
      ensures old(scopes) == [] ==> out == Fail(Internal) && scopes == old(scopes)
      ensures old(scopes) != [] && key in old(scopes)[|old(scopes)| - 1].table ==>
        out == Fail(Declared(entry.token.text, entry.token.line, old(scopes)[|old(scopes)| - 1].table[key].token.line)) &&
        scopes == old(scopes)
      ensures old(scopes) != [] && key !in old(scopes)[|old(scopes)| - 1].table ==>
        out == Pass && scopes == Inserted(old(scopes), entry)
    {
      if scopes == [] {
        return Fail(Internal);
      }
      var existing := LookupLocal(key);
      if existing.Some? {
        return Fail(Declared(entry.token.text, entry.token.line, existing.value.token.line));
      }
      ghost var n := |scopes| - 1;
      scopes := Inserted(scopes, entry);
      assert ScopeValid(scopes[n]);
      assert forall i :: 0 <= i < n ==> scopes[i] == old(scopes)[i];
      out := Pass;
    }

    /**
     * The two field writes that open a function body: the top scope takes the
     * declared return type and records the function, whose entry is in the
     * scope just below.
     */
    method EnterFunction(returnType: DataType, key: string)
      requires Valid() && |scopes| >= 2 && key in scopes[|scopes| - 2].table
      modifies this
      ensures Valid()
      ensures |scopes| == |old(scopes)|
      ensures scopes[..|scopes| - 1] == old(scopes)[..|old(scopes)| - 1]
      ensures scopes[|scopes| - 1] ==
        old(scopes)[|old(scopes)| - 1].(returnType := returnType, currentFunction := Some(key))
    {
      var n := |scopes| - 1;
      scopes := scopes[n := scopes[n].(returnType := returnType, currentFunction := Some(key))];
    }

    /** Stores `entry` under its key in the scope at `index`, which already holds that key (the current function's entry). */
    method Update(index: nat, entry: Symbol)
      requires Valid() && index < |scopes| && entry.key in scopes[index].table
      modifies this
      ensures Valid()
      ensures |scopes| == |old(scopes)|
      ensures scopes[index] == old(scopes)[index].(table := old(scopes)[index].table[entry.key := entry])
      ensures forall i :: 0 <= i < |scopes| && i != index ==> scopes[i] == old(scopes)[i]
    {
      var s := scopes[index];
      scopes := scopes[index := s.(table := s.table[entry.key := entry])];
    }
  }
}
