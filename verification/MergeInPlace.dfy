/**
 deepMerge as the program runs it (internal/config/manager.go): on maps that are changed in place and hold references to
 other maps. The maps of the patch that have no counterpart become part of the configuration as they are, so the two share
 them afterwards.
*/
module MergeInPlace {
  import M = ConfigMerge

  datatype Value = Leaf(text: string) | Sub(node: Node)

  /** A map that is changed in place. `tree` is what it stands for and `repr` the maps it is made of. */
  class Node {
    var entries: map<string, Value>
    ghost var tree: map<string, M.Tree>
    ghost var repr: set<Node>

    /** A tree of maps: none of them leads back to itself, and no two branches share one. */
    ghost predicate Valid()
      reads this, repr
      decreases repr, 2
    {
      this in repr && entries.Keys == tree.Keys && Holding() && Branching()
    }

    ghost predicate Holding()
      requires this in repr && entries.Keys == tree.Keys
      reads this, repr
      decreases repr, 1
    {
      forall k :: k in entries ==> Holds(entries[k], tree[k])
    }

    ghost predicate Branching()
      requires this in repr
      reads this, repr
    {
      forall k, l :: k in entries && l in entries && k != l && Inside(entries[k], repr) && Inside(entries[l], repr) ==>
        Maps(entries[k]) !! Maps(entries[l])
    }

    /** A value of this map: a text, or a map below it. */
    ghost predicate Holds(v: Value, t: M.Tree)
      requires this in repr
      reads this, repr
      decreases repr, 0
    {
      match v
      case Leaf(s) => t == M.Scalar(s)
      case Sub(n) => n in repr && n.repr <= repr - {this} && n.Valid() && t == M.Map(n.tree)
    }

    /** Valid but for what stands under k. */
    ghost predicate ValidBut(k: string)
      reads this, repr
    {
      && this in repr && entries.Keys == tree.Keys
      && (forall l :: l in entries && l != k ==> Holds(entries[l], tree[l]))
      && (forall l, m | l in entries && m in entries && l != m && l != k && m != k ::
            Inside(entries[l], repr) && Inside(entries[m], repr) ==> Maps(entries[l]) !! Maps(entries[m]))
    }

    constructor ()
      ensures Valid() && tree == map[] && entries == map[] && fresh(repr)
    {
      entries, tree := map[], map[];
      repr := {this};
    }
  }

  ghost predicate Inside(v: Value, nodes: set<Node>) {
    v.Sub? ==> v.node in nodes
  }

  /** A map under dst does not contain dst. */
  ghost predicate Below(dst: Node, v: Value)
    reads dst, if v.Sub? then {v.node} else {}
  {
    v.Sub? ==> v.node in dst.repr && v.node.repr <= dst.repr - {dst}
  }

  ghost predicate Own(v: Value)
    reads if v.Sub? then {v.node} else {}
  {
    v.Sub? ==> v.node in v.node.repr
  }

  ghost function Maps(v: Value): set<Node>
    reads if v.Sub? then {v.node} else {}
  {
    if v.Sub? then v.node.repr else {}
  }

  /** The tree that a value stands for. */
  ghost function TreeOf(v: Value): M.Tree
    reads if v.Sub? then {v.node} else {}
  {
    match v
    case Leaf(s) => M.Scalar(s)
    case Sub(n) => M.Map(n.tree)
  }

  ghost predicate Fits(v: Value)
    reads if v.Sub? then {v.node} else {}, Maps(v)
  {
    v.Sub? ==> v.node.Valid()
  }

  /** dst[k] = v, for a value that shares nothing with what stands under the other keys. */
  method Assign(dst: Node, k: string, v: Value)
    requires dst.ValidBut(k) && Fits(v) && dst !in Maps(v)
    requires forall l :: l in dst.entries && l != k ==> Maps(dst.entries[l]) !! Maps(v)
    modifies dst
    ensures dst.Valid()
    ensures dst.entries == old(dst.entries)[k := v] && dst.tree == old(dst.tree)[k := TreeOf(v)]
    ensures dst.repr == old(dst.repr) + Maps(v)
  {
    ghost var table, trees := dst.entries, dst.tree;
    forall l | l in table && l != k ensures Below(dst, table[l]) {
      assert dst.Holds(table[l], trees[l]);
    }
    dst.entries := dst.entries[k := v];
    dst.tree := dst.tree[k := TreeOf(v)];
    dst.repr := dst.repr + Maps(v);
    forall l | l in table && l != k ensures dst.Holds(table[l], trees[l]) {
      assert old(dst.Holds(table[l], trees[l]));
    }
    assert dst.Holds(v, TreeOf(v));
    Branches(dst, k, v, table);
  }

  /** In this map, l and m are two of the other keys or one of them and k. */
  lemma Branches(dst: Node, k: string, v: Value, others: map<string, Value>)
    requires dst in dst.repr && dst.entries == others[k := v]
    requires forall l, m :: l in others && m in others && l != m && l != k && m != k ==>
      Maps(others[l]) !! Maps(others[m])
    requires forall l :: l in others && l != k ==> Maps(others[l]) !! Maps(v)
    ensures dst.Branching()
  {
  }

  ghost function Under(dst: Node, k: string): set<Node>
    reads dst, if k in dst.entries && dst.entries[k].Sub? then {dst.entries[k].node} else {}
  {
    if k in dst.entries then Maps(dst.entries[k]) else {}
  }

  /** One key of the loop. When there is a map on both sides, the entry stays and its map is merged; the assignment says
      what the entry stands for now. */
  method MergeKey(dst: Node, k: string, v: Value)
    requires dst.Valid() && Fits(v) && dst !in Maps(v) && Under(dst, k) !! Maps(v)
    requires forall l :: l in dst.entries && l != k ==> Maps(dst.entries[l]) !! Maps(v)
    modifies dst, Under(dst, k)
    ensures dst.Valid() && dst.repr <= old(dst.repr) + Maps(v)
    ensures dst.entries.Keys == old(dst.entries).Keys + {k}
    ensures forall l :: l in old(dst.entries) && l != k ==> dst.entries[l] == old(dst.entries)[l]
    ensures Under(dst, k) <= old(Under(dst, k)) + Maps(v)
    ensures dst.tree == old(dst.tree)[k := M.Merged(old(dst.tree), k, TreeOf(v))]
    decreases Maps(v), 1
  {
    if v.Sub? {
      if k in dst.entries && dst.entries[k].Sub? {
        var existing := dst.entries[k].node;
        ghost var table, trees, nodes := dst.entries, dst.tree, existing.repr;
        assert dst.Holds(table[k], trees[k]);
        forall l | l in table && l != k ensures Below(dst, table[l]) && Maps(table[l]) !! nodes && Own(table[l]) {
          assert dst.Holds(table[l], trees[l]);
          if table[l].Sub? { assert table[l].node.Valid(); }
        }
        assert v.node in Maps(v) && v.node != dst && v.node !in nodes;
        DeepMerge(existing, v.node);
        forall l | l in table && l != k ensures dst.Holds(table[l], trees[l]) && Maps(table[l]) == old(Maps(table[l])) {
          assert old(dst.Holds(table[l], trees[l]) && Own(table[l]));
        }
        Assign(dst, k, dst.entries[k]);
        assert dst.tree[k] == M.Merged(trees, k, TreeOf(v));
        return;
      }
    }
    assert k in dst.entries ==> dst.Holds(dst.entries[k], dst.tree[k]);
    assert M.Merged(dst.tree, k, TreeOf(v)) == TreeOf(v);
    Assign(dst, k, v);
  }

  /** What stands under a key once the keys in `done` have been merged: maps of dst's own, and of the patch where it
      has that key. */
  ghost predicate Partly(dst: Node, patch: Node, nodes: set<Node>, done: set<string>)
    reads dst, dst.repr, patch, patch.repr
  {
    && dst.Valid() && patch.Valid() && nodes !! patch.repr && dst.repr <= nodes + patch.repr
    && done <= patch.entries.Keys
    && (forall l :: l in dst.entries && Inside(dst.entries[l], dst.repr) && l !in done ==> Maps(dst.entries[l]) <= nodes)
    && (forall l :: l in dst.entries && Inside(dst.entries[l], dst.repr) && l in done && Inside(patch.entries[l], patch.repr) ==>
          Maps(dst.entries[l]) <= nodes + Maps(patch.entries[l]))
  }

  lemma InsideValid(n: Node, k: string)
    requires n.Valid() && k in n.entries
    ensures Inside(n.entries[k], n.repr) && Fits(n.entries[k]) && n !in Maps(n.entries[k])
    ensures Maps(n.entries[k]) <= n.repr && n.tree[k] == TreeOf(n.entries[k])
  {
    assert n.Holds(n.entries[k], n.tree[k]);
  }

  lemma BranchesApart(n: Node, k: string, l: string)
    requires n.Valid() && k in n.entries && l in n.entries && k != l
    ensures Maps(n.entries[k]) !! Maps(n.entries[l])
  {
    InsideValid(n, k);
    InsideValid(n, l);
  }

  /** What is merged under k shares nothing with what stands under the other keys. */
  lemma PartlyApart(dst: Node, patch: Node, nodes: set<Node>, done: set<string>, k: string)
    requires Partly(dst, patch, nodes, done) && k in patch.entries && k !in done
    ensures forall l :: l in dst.entries ==> Maps(dst.entries[l]) !! Maps(patch.entries[k])
  {
    InsideValid(patch, k);
    forall l | l in dst.entries ensures Maps(dst.entries[l]) !! Maps(patch.entries[k]) {
      InsideValid(dst, l);
      if l in done { InsideValid(patch, l); }
    }
  }

  /** The maps under the other keys are not those that merging k changes. */
  ghost predicate Elsewhere(v: Value, dst: Node, under: set<Node>) {
    v.Sub? ==> v.node != dst && v.node !in under
  }

  lemma OthersElsewhere(dst: Node, k: string, l: string)
    requires dst.Valid() && l in dst.entries && l != k
    ensures Elsewhere(dst.entries[l], dst, Under(dst, k))
  {
    InsideValid(dst, l);
    if k in dst.entries { BranchesApart(dst, k, l); }
    if dst.entries[l].Sub? {
      assert dst.entries[l].node.Valid();
      assert dst.entries[l].node in Maps(dst.entries[l]);
    }
  }

  lemma StillPartly(dst: Node, patch: Node, nodes: set<Node>, done: set<string>, k: string)
    requires dst.Valid() && patch.Valid() && nodes !! patch.repr && dst.repr <= nodes + patch.repr
    requires done <= patch.entries.Keys && k in patch.entries
    requires forall l :: l in dst.entries && l != k && l !in done ==> Maps(dst.entries[l]) <= nodes
    requires forall l :: l in dst.entries && l != k && l in done ==> Maps(dst.entries[l]) <= nodes + Maps(patch.entries[l])
    requires k in dst.entries && Maps(dst.entries[k]) <= nodes + Maps(patch.entries[k])
    ensures Partly(dst, patch, nodes, done + {k})
  {
  }

  /** One key of the patch. */
  method MergeNext(dst: Node, patch: Node, k: string, ghost nodes: set<Node>, ghost done: set<string>)
    requires Partly(dst, patch, nodes, done) && k in patch.entries && k !in done && dst in nodes
    modifies nodes
    ensures Partly(dst, patch, nodes, done + {k})
    ensures dst.tree == old(dst.tree)[k := M.Merged(old(dst.tree), k, old(patch.tree)[k])]
    decreases Maps(patch.entries[k]), 2
  {
    InsideValid(patch, k);
    PartlyApart(dst, patch, nodes, done, k);
    ghost var table, under, v := dst.entries, Under(dst, k), patch.entries[k];
    forall l | l in table ensures Inside(table[l], dst.repr) {
      InsideValid(dst, l);
    }
    forall l | l in table && l != k ensures Elsewhere(table[l], dst, under) {
      OthersElsewhere(dst, k, l);
    }
    forall l | l in patch.entries ensures Inside(patch.entries[l], patch.repr) {
      InsideValid(patch, l);
    }
    assert under <= nodes;
    MergeKey(dst, k, patch.entries[k]);
    forall l | l in table && l != k ensures dst.entries[l] == table[l] && Maps(table[l]) == old(Maps(table[l])) {
      assert Elsewhere(table[l], dst, under);
    }
    StillPartly(dst, patch, nodes, done, k);
  }

  /** deepMerge: afterwards dst stands for the merge of what the two stood for, made of its own maps and of maps of the
      patch, and the patch is as it was. */
  method DeepMerge(dst: Node, patch: Node)
    requires dst.Valid() && patch.Valid() && dst.repr !! patch.repr
    modifies dst.repr
    ensures dst.Valid() && dst.repr <= old(dst.repr) + patch.repr
    ensures dst.tree == M.Merge(old(dst.tree), M.Map(old(patch.tree)))
    ensures patch.Valid() && patch.tree == old(patch.tree)
    decreases patch.repr, 0
  {
    ghost var trees, nodes, given := dst.tree, dst.repr, M.Map(patch.tree);
    ghost var keys := patch.entries.Keys;
    var todo := patch.entries.Keys;
    M.MergeNone(trees, given);
    assert keys - todo == {};
    forall l | l in dst.entries ensures Maps(dst.entries[l]) <= nodes { InsideValid(dst, l); }
    while todo != {}
      invariant todo <= keys
      invariant Partly(dst, patch, nodes, keys - todo)
      invariant dst.tree == M.MergeOn(trees, given, keys - todo)
      decreases todo
    {
      var k :| k in todo;
      M.MergeOneMore(trees, given, keys - todo, k);
      M.TakeKey(keys, todo, k);
      InsideValid(patch, k);
      MergeNext(dst, patch, k, nodes, keys - todo);
      todo := todo - {k};
    }
    assert keys - {} == keys;
  }
}
