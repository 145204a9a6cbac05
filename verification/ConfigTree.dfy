/** Flat and nested configuration maps (pkg/solace/config/format_utils.go) on values: keys with
    dots, the paths that they stand for, and a nested map as the set of its inner nodes and the
    values at its leaves, both by path. Leaf values are not maps. */
module ConfigTree {
  import opened Wrappers

  type Path = seq<string>

  // ----- keys and paths

  predicate DotFree(s: string) {
    forall i :: 0 <= i < |s| ==> s[i] != '.'
  }

  predicate AllDotFree(p: Path) {
    forall i :: 0 <= i < |p| ==> DotFree(p[i])
  }

  // strings.Split(key, ".")
  function Split(key: string): (p: Path)
    ensures |p| > 0 && AllDotFree(p)
  {
    if key == "" then [""]
    else
      var rest := Split(key[1..]);
      if key[0] == '.' then [""] + rest else [[key[0]] + rest[0]] + rest[1..]
  }

  function Join(p: Path): string
    requires |p| > 0
  {
    if |p| == 1 then p[0] else p[0] + "." + Join(p[1..])
  }

  lemma {:induction false} JoinOfSplit(key: string)
    ensures Join(Split(key)) == key
  {
    if key != "" {
      JoinOfSplit(key[1..]);
      var p, rest := Split(key), Split(key[1..]);
      if key[0] == '.' {
        assert p[1..] == rest;
        assert Join(p) == "." + key[1..];
      } else {
        assert p[1..] == rest[1..];
        assert Join(p) == [key[0]] + Join(rest);
      }
    }
  }

  // a first segment in front of the rest of a key
  lemma {:induction false} SplitOfSegment(s: string, tail: string)
    requires DotFree(s)
    ensures Split(s + tail) == [s + Split(tail)[0]] + Split(tail)[1..]
  {
    if s == "" {
      assert s + tail == tail;
      assert s + Split(tail)[0] == Split(tail)[0];
    } else {
      SplitOfSegment(s[1..], tail);
      assert (s + tail)[1..] == s[1..] + tail && (s + tail)[0] == s[0];
      assert [s[0]] + (s[1..] + Split(tail)[0]) == s + Split(tail)[0];
    }
  }

  predicate IsPath(p: Path) {
    |p| > 0 && AllDotFree(p)
  }

  lemma {:induction false} SplitOfJoin(p: Path)
    requires IsPath(p)
    ensures Split(Join(p)) == p
  {
    if |p| == 1 {
      SplitOfSegment(p[0], "");
      assert p[0] + "" == p[0];
    } else {
      SplitOfJoin(p[1..]);
      var tail := "." + Join(p[1..]);
      assert tail[1..] == Join(p[1..]);
      assert Split(tail) == [""] + p[1..];
      SplitOfSegment(p[0], tail);
      assert p[0] + tail == Join(p) && p[0] + "" == p[0];
    }
  }

  lemma JoinIsInjective(p: Path, q: Path)
    requires IsPath(p) && IsPath(q) && Join(p) == Join(q)
    ensures p == q
  {
    SplitOfJoin(p);
    SplitOfJoin(q);
  }

  // ----- nested maps

  // The root is the node []. A node is a map, a leaf a value.
  datatype Tree<V> = Tree(nodes: set<Path>, leaves: map<Path, V>)

  // every map and every leaf lies in a map, up to the root; a leaf is not a map
  predicate WellFormed<V>(t: Tree<V>) {
    && [] in t.nodes
    && (forall p, i :: p in t.nodes && 0 <= i <= |p| ==> p[..i] in t.nodes)
    && (forall p, i :: p in t.leaves && 0 <= i < |p| ==> p[..i] in t.nodes)
    && (forall p :: p in t.leaves ==> p != [] && p !in t.nodes)
  }

  // no map below the root is empty: each is on the way to a leaf
  predicate NoEmptyMap<V>(t: Tree<V>) {
    forall p :: p in t.nodes && p != [] ==> exists q :: q in t.leaves && p <= q
  }

  predicate DotFreeKeys<V>(t: Tree<V>) {
    forall p :: p in t.leaves ==> IsPath(p)
  }

  // the nodes that lie above these leaves, and the root
  function Above(paths: set<Path>): set<Path> {
    {[]} + set p, i | p in paths && 0 <= i < |p| :: p[..i]
  }

  // a nested map has just the nodes that its leaves need
  function Built<V>(leaves: map<Path, V>): Tree<V> {
    Tree(Above(leaves.Keys), leaves)
  }

  // no path is a proper prefix of another
  predicate PrefixFree(paths: set<Path>) {
    forall p, q :: p in paths && q in paths && p <= q ==> p == q
  }

  function Paths(keys: set<string>): set<Path> {
    set k | k in keys :: Split(k)
  }

  // the leaves that a flat map asks for
  function Leaves<V>(m: map<string, V>): map<Path, V> {
    map p | p in Paths(m.Keys) && |p| > 0 && Join(p) in m :: m[Join(p)]
  }

  lemma LeavesAre<V>(m: map<string, V>, p: Path)
    ensures p in Leaves(m) <==> IsPath(p) && Join(p) in m
    ensures p in Leaves(m) ==> Leaves(m)[p] == m[Join(p)]
  {
    if IsPath(p) && Join(p) in m {
      SplitOfJoin(p);
    }
  }

  // One round of nestMap's outer loop: a leaf on the way or at the end, or a map at the end, is an
  // error.
  function Insert<V>(t: Tree<V>, path: Path, v: V): Option<Tree<V>>
    requires |path| > 0
  {
    if path in t.nodes || exists i :: 0 < i <= |path| && path[..i] in t.leaves then None
    else Some(Tree(t.nodes + (set i | 0 <= i < |path| :: path[..i]), t.leaves[path := v]))
  }

  lemma BuiltIsWellFormed<V>(leaves: map<Path, V>)
    requires PrefixFree(leaves.Keys) && forall p :: p in leaves ==> |p| > 0
    ensures WellFormed(Built(leaves)) && NoEmptyMap(Built(leaves))
  {
    var t := Built(leaves);
    forall p, i | p in t.nodes && 0 <= i <= |p| && p != []
      ensures p[..i] in t.nodes && exists q :: q in t.leaves && p <= q
    {
      var q, j :| q in leaves && 0 <= j < |q| && p == q[..j];
      assert p[..i] == q[..i];
    }
    forall p | p in t.nodes && p != []
      ensures exists q :: q in t.leaves && p <= q
    {
      assert p[..0] == [];
    }
    forall p | p in leaves
      ensures p !in t.nodes
    {
      forall q, i | q in leaves && 0 <= i < |q|
        ensures q[..i] != p
      {
        assert q[..i] <= q;
      }
    }
  }

  // Inserting into a built tree fails exactly on a prefix clash, and otherwise builds the larger tree.
  lemma InsertIntoBuilt<V>(leaves: map<Path, V>, path: Path, v: V)
    requires |path| > 0 && path !in leaves && forall p :: p in leaves ==> |p| > 0
    ensures Insert(Built(leaves), path, v)
            == if exists p :: p in leaves && (p <= path || path <= p) then None else Some(Built(leaves[path := v]))
  {
    var t := Built(leaves);
    if path in t.nodes {
      var q, i :| q in leaves && 0 <= i < |q| && path == q[..i];
      assert path <= q;
    } else if i :| 0 < i <= |path| && path[..i] in t.leaves {
      assert path[..i] <= path;
    } else {
      NoClash(leaves, path);
      assert Insert(t, path, v).value.nodes == Above(leaves[path := v].Keys);
    }
  }

  lemma NoClash<V>(leaves: map<Path, V>, path: Path)
    requires |path| > 0 && path !in leaves && forall p :: p in leaves ==> |p| > 0
    requires path !in Above(leaves.Keys) && forall i :: 0 < i <= |path| ==> path[..i] !in leaves
    ensures !exists p :: p in leaves && (p <= path || path <= p)
  {
    forall p | p in leaves
      ensures !(p <= path || path <= p)
    {
      if |p| <= |path| {
        assert path[..|p|] != p && path != p;
      } else {
        assert p[..|path|] in Above(leaves.Keys);
        assert p[..|path|] != path;
      }
    }
  }

  // nestMap with its keys visited in this order
  function Nest<V>(order: seq<string>, m: map<string, V>): Option<Tree<V>>
    requires forall i :: 0 <= i < |order| ==> order[i] in m
  {
    if order == [] then Some(Built(map[]))
    else
      var before := Nest(order[..|order| - 1], m);
      var k := order[|order| - 1];
      if before.Some? then Insert(before.value, Split(k), m[k]) else None
  }

  // the leaves that the keys of this order ask for
  function LeavesOf<V>(order: seq<string>, m: map<string, V>): map<Path, V>
    requires forall i :: 0 <= i < |order| ==> order[i] in m
  {
    if order == [] then map[]
    else
      var k := order[|order| - 1];
      LeavesOf(order[..|order| - 1], m)[Split(k) := m[k]]
  }

  lemma {:induction false} LeavesOfKeys<V>(order: seq<string>, m: map<string, V>, p: Path)
    requires forall i :: 0 <= i < |order| ==> order[i] in m
    ensures p in LeavesOf(order, m) <==> IsPath(p) && Join(p) in order
    ensures p in LeavesOf(order, m) ==> LeavesOf(order, m)[p] == m[Join(p)]
  {
    if order != [] {
      var n := |order| - 1;
      LeavesOfKeys(order[..n], m, p);
      JoinOfSplit(order[n]);
      if IsPath(p) { SplitOfJoin(p); }
      assert order == order[..n] + [order[n]];
    }
  }

  lemma {:induction false} NestBuilds<V>(order: seq<string>, m: map<string, V>)
    requires forall i :: 0 <= i < |order| ==> order[i] in m
    requires forall i, j :: 0 <= i < j < |order| ==> order[i] != order[j]
    ensures Nest(order, m) == if PrefixFree(LeavesOf(order, m).Keys) then Some(Built(LeavesOf(order, m))) else None
  {
    if order != [] {
      var n := |order| - 1;
      var leaves, path := LeavesOf(order[..n], m), Split(order[n]);
      NestBuilds(order[..n], m);
      NewPath(order, m);
      InsertIntoBuilt(leaves, path, m[order[n]]);
      PrefixFreeGrows(leaves.Keys, path);
      assert leaves[path := m[order[n]]].Keys == leaves.Keys + {path};
    }
  }

  lemma NewPath<V>(order: seq<string>, m: map<string, V>)
    requires order != [] && forall i :: 0 <= i < |order| ==> order[i] in m
    requires forall i, j :: 0 <= i < j < |order| ==> order[i] != order[j]
    ensures var n := |order| - 1;
            && Split(order[n]) !in LeavesOf(order[..n], m)
            && forall p :: p in LeavesOf(order[..n], m) ==> |p| > 0
  {
    var n := |order| - 1;
    JoinOfSplit(order[n]);
    LeavesOfKeys(order[..n], m, Split(order[n]));
    forall p | p in LeavesOf(order[..n], m)
      ensures |p| > 0
    {
      LeavesOfKeys(order[..n], m, p);
    }
  }

  lemma PrefixFreeGrows(paths: set<Path>, path: Path)
    requires path !in paths
    ensures PrefixFree(paths + {path}) <==> PrefixFree(paths) && !(exists p :: p in paths && (p <= path || path <= p))
  {
  }

  // nestMap succeeds exactly if no key's segments are a proper prefix of another's, whatever the
  // order, and its result does not depend on the order either.
  lemma NestSucceedsIffPrefixFree<V>(order: seq<string>, m: map<string, V>)
    requires Enumerates(order, m.Keys)
    ensures Nest(order, m) == if PrefixFree(Leaves(m).Keys) then Some(Built(Leaves(m))) else None
  {
    NestBuilds(order, m);
    forall p
      ensures p in LeavesOf(order, m) <==> p in Leaves(m)
      ensures p in Leaves(m) ==> LeavesOf(order, m)[p] == Leaves(m)[p]
    {
      hide Leaves;
      LeavesOfKeys(order, m, p);
      LeavesAre(m, p);
    }
    hide Leaves;
    assert LeavesOf(order, m) == Leaves(m);
  }

  // ----- flattening

  // flattenMap: every leaf is there under its joined path, and nothing else. When joined paths
  // clash, which takes a key with a dot, one of them wins.
  ghost predicate Flattens<V>(t: Tree<V>, flat: map<string, V>) {
    && (forall p :: p in t.leaves ==> |p| > 0 && Join(p) in flat)
    && (forall k :: k in flat ==> exists p :: p in t.leaves && |p| > 0 && Join(p) == k && t.leaves[p] == flat[k])
  }

  lemma FlatLeaf<V>(t: Tree<V>, flat: map<string, V>, p: Path)
    requires DotFreeKeys(t) && Flattens(t, flat)
    ensures p in t.leaves <==> IsPath(p) && Join(p) in flat
    ensures p in t.leaves ==> t.leaves[p] == flat[Join(p)]
  {
    if IsPath(p) && Join(p) in flat {
      var q :| q in t.leaves && |q| > 0 && Join(q) == Join(p) && t.leaves[q] == flat[Join(p)];
      JoinIsInjective(p, q);
    }
  }

  // Without dots in keys the flat map is determined, and so are the leaves.
  lemma FlatHasTheLeaves<V>(t: Tree<V>, flat: map<string, V>)
    requires DotFreeKeys(t) && Flattens(t, flat)
    ensures Leaves(flat) == t.leaves
  {
    hide Leaves, Join;
    var leaves := Leaves(flat);
    forall p
      ensures p in leaves <==> p in t.leaves
      ensures p in leaves ==> leaves[p] == t.leaves[p]
    {
      hide Flattens, DotFreeKeys;
      FlatLeaf(t, flat, p);
      LeavesAre(flat, p);
    }
    hide Flattens, DotFreeKeys;
    assert leaves == t.leaves;
  }

  // flattenMap(nestMap(m)) == m
  lemma FlattenOfNest<V>(m: map<string, V>, flat: map<string, V>)
    requires PrefixFree(Leaves(m).Keys) && Flattens(Built(Leaves(m)), flat)
    ensures flat == m
  {
    FlatHasTheLeaves(Built(Leaves(m)), flat);
    LeavesDetermine(flat, m);
  }

  lemma LeavesDetermine<V>(a: map<string, V>, b: map<string, V>)
    requires Leaves(a) == Leaves(b)
    ensures a == b
  {
    hide Leaves;
    forall k | k in a || k in b
      ensures k in a && k in b && a[k] == b[k]
    {
      JoinOfSplit(k);
      LeavesAre(a, Split(k));
      LeavesAre(b, Split(k));
    }
  }

  // In a well-formed tree no leaf lies above another.
  lemma WellFormedIsPrefixFree<V>(t: Tree<V>)
    requires WellFormed(t)
    ensures PrefixFree(t.leaves.Keys)
  {
    forall p, q | p in t.leaves && q in t.leaves && |p| < |q|
      ensures q[..|p|] != p
    {
      assert q[..|p|] in t.nodes;
    }
  }

  // nestMap(flattenMap(t)) succeeds, and is t if t has no empty map below the root.
  lemma NestOfFlatten<V>(t: Tree<V>, flat: map<string, V>)
    requires WellFormed(t) && DotFreeKeys(t) && Flattens(t, flat)
    ensures PrefixFree(Leaves(flat).Keys)
    ensures NoEmptyMap(t) ==> Built(Leaves(flat)) == t
  {
    FlatHasTheLeaves(t, flat);
    WellFormedIsPrefixFree(t);
    if NoEmptyMap(t) {
      SameNodes(t);
    }
  }

  // An empty map below the root does not survive.
  lemma EmptyMapIsLost<V>(t: Tree<V>, flat: map<string, V>)
    requires WellFormed(t) && DotFreeKeys(t) && Flattens(t, flat) && !NoEmptyMap(t)
    ensures Built(Leaves(flat)) != t
  {
    FlatHasTheLeaves(t, flat);
    WellFormedIsPrefixFree(t);
    BuiltIsWellFormed(t.leaves);
  }

  lemma SameNodes<V>(t: Tree<V>)
    requires WellFormed(t) && NoEmptyMap(t)
    ensures Above(t.leaves.Keys) == t.nodes
  {
    forall p | p in t.nodes && p != []
      ensures p in Above(t.leaves.Keys)
    {
      var q :| q in t.leaves && p <= q;
      assert p == q[..|p|] && p != q;
    }
  }
}
