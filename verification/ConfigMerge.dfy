/**
 The merge of a configuration patch (deepMerge in internal/config/manager.go) as a function of trees, and its laws. A YAML
 tree is a scalar, which stands for anything that is not a map, or a map from keys to trees. MergeInPlace has the loop.
*/
module ConfigMerge {
  import opened Wrappers

  datatype Tree = Scalar(text: string) | Map(entries: map<string, Tree>)

  type Dict = t: Tree | t.Map? witness Map(map[])

  /** The tree under a key that the patch has, after the merge. */
  function Merged(dst: map<string, Tree>, k: string, v: Tree): Tree
    decreases v, 2
  {
    if v.Map? && k in dst && dst[k].Map? then Map(Merge(dst[k].entries, v)) else v
  }

  /** The merge of those keys of the patch that are in `done`. */
  function MergeOn(dst: map<string, Tree>, patch: Dict, done: set<string>): map<string, Tree>
    requires done <= patch.entries.Keys
    decreases patch, 0
  {
    map k | k in dst.Keys + done :: if k in done then Merged(dst, k, patch.entries[k]) else dst[k]
  }

  function Merge(dst: map<string, Tree>, patch: Dict): map<string, Tree>
    decreases patch, 1
  {
    MergeOn(dst, patch, patch.entries.Keys)
  }

  lemma MergeOneMore(dst: map<string, Tree>, patch: Dict, done: set<string>, k: string)
    requires done <= patch.entries.Keys && k in patch.entries && k !in done
    ensures MergeOn(dst, patch, done + {k}) == MergeOn(dst, patch, done)[k := Merged(dst, k, patch.entries[k])]
    ensures Merged(MergeOn(dst, patch, done), k, patch.entries[k]) == Merged(dst, k, patch.entries[k])
  {
  }

  lemma MergeNone(dst: map<string, Tree>, patch: Dict)
    ensures MergeOn(dst, patch, {}) == dst
  {
  }

  /** The keys done when k is taken from those to do. */
  lemma TakeKey(all: set<string>, todo: set<string>, k: string)
    requires k in todo && todo <= all
    ensures all - (todo - {k}) == (all - todo) + {k}
    ensures todo - {k} < todo
  {
  }

  // ---- Paths --------------------------------------------------------------------------------------------------

  function At(t: Tree, path: seq<string>): Option<Tree> {
    if path == [] then Some(t)
    else if t.Map? && path[0] in t.entries then At(t.entries[path[0]], path[1..])
    else None
  }

  /** The path of a scalar or of an empty map. */
  predicate LeafPath(t: Tree, path: seq<string>) {
    var v := At(t, path);
    v.Some? && (v.value.Scalar? || v.value.entries == map[])
  }

  predicate Comparable(p: seq<string>, q: seq<string>) {
    p <= q || q <= p
  }

  lemma AtCons(t: Tree, k: string, rest: seq<string>)
    requires t.Map? && k in t.entries
    ensures At(t, [k] + rest) == At(t.entries[k], rest)
    ensures LeafPath(t, [k] + rest) == LeafPath(t.entries[k], rest)
  {
    assert ([k] + rest)[1..] == rest;
  }

  lemma ComparableCons(k: string, p: seq<string>, q: seq<string>)
    ensures Comparable([k] + p, [k] + q) <==> Comparable(p, q)
  {
    if [k] + p <= [k] + q {
      assert p == ([k] + p)[1..] && q == ([k] + q)[1..];
    }
    if [k] + q <= [k] + p {
      assert p == ([k] + p)[1..] && q == ([k] + q)[1..];
    }
  }

  /** Every tree has a leaf. */
  lemma {:induction false} HasLeaf(t: Tree) returns (path: seq<string>)
    ensures LeafPath(t, path)
    decreases t
  {
    if t.Scalar? || t.entries == map[] {
      path := [];
    } else {
      var k :| k in t.entries;
      var rest := HasLeaf(t.entries[k]);
      AtCons(t, k, rest);
      path := [k] + rest;
    }
  }

  // ---- Merging again ------------------------------------------------------------------------------------------

  function Get(m: map<string, Tree>, k: string): Option<Tree> {
    if k in m then Some(m[k]) else None
  }

  lemma SameMaps(m: map<string, Tree>, n: map<string, Tree>)
    requires forall k :: Get(m, k) == Get(n, k)
    ensures m == n
  {
    forall k ensures k in m <==> k in n {
      assert Get(m, k) == Get(n, k);
    }
    forall k | k in m ensures m[k] == n[k] {
      assert Get(m, k) == Get(n, k);
    }
  }

  lemma MergeAt(dst: map<string, Tree>, patch: Dict, k: string)
    ensures Get(Merge(dst, patch), k)
         == if k in patch.entries then Some(Merged(dst, k, patch.entries[k])) else Get(dst, k)
  {
  }

  lemma {:induction false} MergeSelf(patch: Dict)
    ensures Merge(patch.entries, patch) == patch.entries
    decreases patch
  {
    forall k ensures Get(Merge(patch.entries, patch), k) == Get(patch.entries, k) {
      MergeAt(patch.entries, patch, k);
      if k in patch.entries && patch.entries[k].Map? {
        MergeSelf(patch.entries[k]);
      }
    }
    SameMaps(Merge(patch.entries, patch), patch.entries);
  }

  lemma {:induction false} MergedTwice(dst: map<string, Tree>, once: map<string, Tree>, k: string, v: Tree)
    requires Get(once, k) == Some(Merged(dst, k, v))
    ensures Merged(once, k, v) == Merged(dst, k, v)
    decreases v, 1
  {
    if v.Map? {
      if k in dst && dst[k].Map? {
        MergeTwice(dst[k].entries, v);
      } else {
        MergeSelf(v);
      }
    }
  }

  /** Applying a patch again changes nothing. */
  lemma {:induction false} MergeTwice(dst: map<string, Tree>, patch: Dict)
    ensures Merge(Merge(dst, patch), patch) == Merge(dst, patch)
    decreases patch, 0
  {
    var once := Merge(dst, patch);
    forall k ensures Get(Merge(once, patch), k) == Get(once, k) {
      MergeAt(once, patch, k);
      MergeAt(dst, patch, k);
      if k in patch.entries {
        MergedTwice(dst, once, k, patch.entries[k]);
      }
    }
    SameMaps(Merge(once, patch), once);
  }

  // ---- What a patch leaves alone, and what it sets ------------------------------------------------------------

  /** No leaf of the patch is at, above or below the path. */
  ghost predicate Untouched(patch: Tree, path: seq<string>) {
    forall p :: LeafPath(patch, p) ==> !Comparable(p, path)
  }

  lemma {:induction false} UntouchedBelow(patch: Dict, path: seq<string>)
    requires Untouched(patch, path) && path != [] && path[0] in patch.entries
    ensures Untouched(patch.entries[path[0]], path[1..])
  {
    var k, rest := path[0], path[1..];
    assert path == [k] + rest;
    forall p | LeafPath(patch.entries[k], p) ensures !Comparable(p, rest) {
      AtCons(patch, k, p);
      ComparableCons(k, p, rest);
    }
  }

  lemma UntouchedIsMap(patch: Tree, path: seq<string>)
    requires Untouched(patch, path)
    ensures path != [] && patch.Map?
  {
    var p := HasLeaf(patch);
    assert path == [] ==> Comparable(p, path);
    assert patch.Scalar? ==> LeafPath(patch, []) && Comparable([], path);
  }

  /** Every path that no leaf of the patch touches holds after the merge what it held before. */
  lemma {:induction false} MergeKeeps(dst: map<string, Tree>, patch: Dict, path: seq<string>)
    requires Untouched(patch, path)
    ensures At(Map(Merge(dst, patch)), path) == At(Map(dst), path)
    decreases path
  {
    UntouchedIsMap(patch, path);
    var k := path[0];
    MergeAt(dst, patch, k);
    if k in patch.entries {
      var v := patch.entries[k];
      UntouchedBelow(patch, path);
      UntouchedIsMap(v, path[1..]);
      if k in dst && dst[k].Map? {
        MergeKeeps(dst[k].entries, v, path[1..]);
      } else {
        NothingThere(v, path[1..]);
      }
    }
  }

  /** A patch has nothing at a path that none of its leaves touches. */
  lemma {:induction false} NothingThere(patch: Tree, path: seq<string>)
    requires Untouched(patch, path)
    ensures At(patch, path) == None
    decreases path
  {
    UntouchedIsMap(patch, path);
    if path[0] in patch.entries {
      UntouchedBelow(patch, path);
      NothingThere(patch.entries[path[0]], path[1..]);
    }
  }

  /** Every scalar of the patch is in the result, at its path. */
  lemma {:induction false} MergeSets(dst: map<string, Tree>, patch: Dict, path: seq<string>)
    requires At(patch, path).Some? && At(patch, path).value.Scalar?
    ensures At(Map(Merge(dst, patch)), path) == At(patch, path)
    decreases path
  {
    var k := path[0];
    var v := patch.entries[k];
    MergeAt(dst, patch, k);
    if v.Map? && k in dst && dst[k].Map? {
      MergeSets(dst[k].entries, v, path[1..]);
    }
  }

  /** And where the patch has a map, empty or not, the result has one, whatever was there. */
  lemma {:induction false} MergeMakesMaps(dst: map<string, Tree>, patch: Dict, path: seq<string>)
    requires At(patch, path).Some? && At(patch, path).value.Map?
    ensures var v := At(Map(Merge(dst, patch)), path); v.Some? && v.value.Map?
    decreases path
  {
    if path != [] {
      var k := path[0];
      var v := patch.entries[k];
      MergeAt(dst, patch, k);
      if v.Map? && k in dst && dst[k].Map? {
        MergeMakesMaps(dst[k].entries, v, path[1..]);
      }
    }
  }

  /** Every scalar of the result comes from the patch or was there before, at the same path. */
  lemma {:induction false} NothingIsInvented(dst: map<string, Tree>, patch: Dict, path: seq<string>)
    requires var v := At(Map(Merge(dst, patch)), path); v.Some? && v.value.Scalar?
    ensures var v := At(Map(Merge(dst, patch)), path); v == At(patch, path) || v == At(Map(dst), path)
    decreases path
  {
    var k := path[0];
    MergeAt(dst, patch, k);
    if k in patch.entries && patch.entries[k].Map? && k in dst && dst[k].Map? {
      NothingIsInvented(dst[k].entries, patch.entries[k], path[1..]);
    }
  }

  // ---- Patches that commute -----------------------------------------------------------------------------------

  ghost predicate Apart(a: Tree, b: Tree) {
    forall p, q :: LeafPath(a, p) && LeafPath(b, q) ==> !Comparable(p, q)
  }

  lemma {:induction false} ApartBelow(a: Dict, b: Dict, k: string)
    requires Apart(a, b) && k in a.entries && k in b.entries
    ensures Apart(a.entries[k], b.entries[k]) && a.entries[k].Map? && b.entries[k].Map?
  {
    forall p, q | LeafPath(a.entries[k], p) && LeafPath(b.entries[k], q) ensures !Comparable(p, q) {
      AtCons(a, k, p);
      AtCons(b, k, q);
      ComparableCons(k, p, q);
    }
    var p := HasLeaf(a.entries[k]);
    var q := HasLeaf(b.entries[k]);
    assert a.entries[k].Scalar? ==> LeafPath(a.entries[k], []) && Comparable([], q);
    assert b.entries[k].Scalar? ==> LeafPath(b.entries[k], []) && Comparable(p, []);
  }

  lemma MergeIntoNothing(patch: Dict)
    ensures Merge(map[], patch) == patch.entries
  {
    forall k ensures Get(Merge(map[], patch), k) == Get(patch.entries, k) {
      MergeAt(map[], patch, k);
    }
    SameMaps(Merge(map[], patch), patch.entries);
  }

  /** Two patches whose leaves are at incomparable paths can be applied in either order. */
  lemma {:induction false} MergesCommute(dst: map<string, Tree>, a: Dict, b: Dict)
    requires Apart(a, b)
    ensures Merge(Merge(dst, a), b) == Merge(Merge(dst, b), a)
    decreases a, 1
  {
    var ab, ba := Merge(Merge(dst, a), b), Merge(Merge(dst, b), a);
    forall k ensures Get(ab, k) == Get(ba, k) {
      MergeAt(Merge(dst, a), b, k);
      MergeAt(Merge(dst, b), a, k);
      MergeAt(dst, a, k);
      MergeAt(dst, b, k);
      if k in a.entries && k in b.entries {
        CommuteAt(dst, a, b, k);
      } else if k in a.entries {
        MergedAlike(dst, Merge(dst, b), k, a.entries[k]);
      } else if k in b.entries {
        MergedAlike(dst, Merge(dst, a), k, b.entries[k]);
      }
    }
    SameMaps(ab, ba);
  }

  /** What a merge makes of a key depends on that key alone. */
  lemma MergedAlike(m: map<string, Tree>, n: map<string, Tree>, k: string, v: Tree)
    requires Get(m, k) == Get(n, k)
    ensures Merged(m, k, v) == Merged(n, k, v)
  {
  }

  lemma {:induction false} CommuteAt(dst: map<string, Tree>, a: Dict, b: Dict, k: string)
    requires Apart(a, b) && k in a.entries && k in b.entries
    ensures Merged(Merge(dst, a), k, b.entries[k]) == Merged(Merge(dst, b), k, a.entries[k])
    decreases a, 0
  {
    var v, w := a.entries[k], b.entries[k];
    ApartBelow(a, b, k);
    MergeAt(dst, a, k);
    MergeAt(dst, b, k);
    MergeIntoNothing(v);
    MergeIntoNothing(w);
    MergesCommute(if k in dst && dst[k].Map? then dst[k].entries else map[], v, w);
  }
}
