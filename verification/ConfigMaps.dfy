/** flattenMap and nestMap (pkg/solace/config/format_utils.go) on maps in the heap, which nestMap
    updates in place through an aliased pointer that walks down from the root. */
module ConfigMaps {
  import opened ConfigTree
  import opened Wrappers

  datatype Entry<V> = Leaf(value: V) | Sub(node: MapNode<V>)

  class MapNode<V> {
    var entries: map<string, Entry<V>>

    constructor ()
      ensures entries == map[]
    {
      entries := map[];
    }
  }

  datatype NestError = IllegalKey

  // where each map of a nested map lives, by path
  type Places<V> = map<Path, MapNode<V>>

  // the entry of the map at p under k is what the tree says about the path p + [k]
  ghost predicate EntryShows<V>(places: Places<V>, t: Tree<V>, p: Path, k: string)
    requires p in places
    reads places[p]
  {
    var entries := places[p].entries;
    && (k in entries <==> p + [k] in t.leaves || p + [k] in t.nodes)
    && (p + [k] in t.leaves ==> k in entries && entries[k] == Leaf(t.leaves[p + [k]]))
    && (p + [k] in t.nodes ==> k in entries && p + [k] in places && entries[k] == Sub(places[p + [k]]))
  }

  // The maps at these places make up the tree, and no map is in two places.
  ghost predicate Shows<V>(places: Places<V>, t: Tree<V>)
    reads places.Values
  {
    && places.Keys == t.nodes && WellFormed(t)
    && (forall p, q :: p in places && q in places && p != q ==> places[p] != places[q])
    && (forall p, k :: p in places ==> EntryShows(places, t, p, k))
  }

  method NewRoot<V>() returns (root: MapNode<V>, ghost places: Places<V>)
    ensures Shows(places, Built(map[])) && [] in places && places[[]] == root
    ensures fresh(places.Values)
  {
    root := new MapNode();
    places := map[[] := root];
    assert places.Keys == {[]};
    EmptyTree<V>();
  }

  lemma EmptyTree<V>()
    ensures Built<V>(map[]) == Tree({[]}, map[])
  {
    var none: map<Path, V> := map[];
    assert none.Keys == {};
    assert Above(none.Keys) == {[]};
  }

  lemma ShowsRoot<V>(places: Places<V>, t: Tree<V>)
    requires Shows(places, t)
    ensures WellFormed(t) && [] in places
  {
  }

  lemma ShowsEntry<V>(places: Places<V>, t: Tree<V>, p: Path, k: string)
    requires Shows(places, t) && p in places
    ensures EntryShows(places, t, p, k)
  {
  }

  function WithNode<V>(t: Tree<V>, p: Path): Tree<V> {
    Tree(t.nodes + {p}, t.leaves)
  }

  lemma LastSegment(p: Path, k: string, q: Path, j: string)
    ensures p + [k] == q + [j] <==> p == q && k == j
    ensures (p + [k])[..|p|] == p && (p + [k])[|p|] == k
    ensures forall i :: 0 <= i <= |p| ==> (p + [k])[..i] == p[..i]
  {
    assert (p + [k])[..|p|] == p && (q + [j])[..|q|] == q;
  }

  lemma LeafIsWellFormed<V>(t: Tree<V>, p: Path, k: string, v: V)
    requires WellFormed(t) && p in t.nodes && p + [k] !in t.nodes
    ensures WellFormed(Tree(t.nodes, t.leaves[p + [k] := v]))
  {
    LastSegment(p, k, p, k);
  }

  method AddLeaf<V>(node: MapNode<V>, k: string, v: V, ghost p: Path, ghost places: Places<V>, ghost t: Tree<V>)
    requires Shows(places, t) && p in places && places[p] == node && k !in node.entries
    modifies node
    ensures Shows(places, Tree(t.nodes, t.leaves[p + [k] := v]))
  {
    assert EntryShows(places, t, p, k);
    LeafIsWellFormed(t, p, k, v);
    node.entries := node.entries[k := Leaf(v)];
    ghost var u := Tree(t.nodes, t.leaves[p + [k] := v]);
    forall q, j | q in places
      ensures EntryShows(places, u, q, j)
    {
      hide WellFormed;
      assert old(EntryShows(places, t, q, j));
      LastSegment(p, k, q, j);
    }
  }

  lemma NodeIsWellFormed<V>(t: Tree<V>, p: Path, k: string)
    requires WellFormed(t) && p in t.nodes && p + [k] !in t.leaves
    ensures WellFormed(WithNode(t, p + [k]))
  {
    LastSegment(p, k, p, k);
    var u := WithNode(t, p + [k]);
    forall q, i | q in u.nodes && 0 <= i <= |q|
      ensures q[..i] in u.nodes
    {
      if q == p + [k] { assert i == |q| ==> q[..i] == q; }
    }
  }

  method AddNode<V>(node: MapNode<V>, k: string, ghost p: Path, ghost places: Places<V>, ghost t: Tree<V>)
    returns (child: MapNode<V>, ghost more: Places<V>)
    requires Shows(places, t) && p in places && places[p] == node && k !in node.entries
    modifies node
    ensures more == places[p + [k] := child] && fresh(child)
    ensures Shows(more, WithNode(t, p + [k]))
  {
    assert EntryShows(places, t, p, k);
    child := new MapNode();
    node.entries := node.entries[k := Sub(child)];
    more := places[p + [k] := child];
    ghost var u := WithNode(t, p + [k]);
    LastSegment(p, k, p, k);
    NodeIsWellFormed(t, p, k);
    forall q, j | q in more
      ensures EntryShows(more, u, q, j)
    {
      LastSegment(p, k, q, j);
      if q in places {
        assert old(EntryShows(places, t, q, j));
      } else {
        LastSegment(q, j, q, j);
        assert q + [j] !in t.nodes && q + [j] !in t.leaves;
      }
    }
  }

  // the tree once the walk has reached the map at path[..i]
  function Along<V>(t: Tree<V>, path: Path, i: nat): Tree<V>
    requires i <= |path|
  {
    Tree(t.nodes + (set j | 0 <= j <= i :: path[..j]), t.leaves)
  }

  lemma AlongGrows<V>(t: Tree<V>, path: Path, i: nat)
    requires i < |path|
    ensures Along(t, path, i + 1) == WithNode(Along(t, path, i), path[..i + 1])
    ensures path[..i + 1] == path[..i] + [path[i]]
  {
    assert Along(t, path, i + 1).nodes == WithNode(Along(t, path, i), path[..i + 1]).nodes;
  }

  // one step of the walk, from the map at path[..i] to the next, or to a leaf that is in the way
  method Descend<V>(nested: MapNode<V>, path: Path, i: nat, ghost places: Places<V>, ghost t: Tree<V>)
    returns (found: bool, next: MapNode<V>, ghost more: Places<V>)
    requires i < |path| && Shows(places, Along(t, path, i)) && path[..i] in places && places[path[..i]] == nested
    modifies nested
    ensures found <==> path[..i + 1] !in t.leaves
    ensures found ==> Shows(more, Along(t, path, i + 1)) && path[..i + 1] in more && more[path[..i + 1]] == next
    ensures forall p :: p in places ==> p in more && more[p] == places[p]
    ensures fresh(more.Values - places.Values)
  {
    var key := path[i];
    AlongGrows(t, path, i);
    ShowsEntry(places, Along(t, path, i), path[..i], key);
    hide Shows;
    more := places;
    if key !in nested.entries {
      next, more := AddNode(nested, key, path[..i], places, Along(t, path, i));
      found := true;
    } else if nested.entries[key].Leaf? {
      next, found := nested, false;
    } else {
      assert WithNode(Along(t, path, i), path[..i + 1]) == Along(t, path, i);
      next, found := nested.entries[key].node, true;
    }
  }

  // One key of the flat map: walks down from the root, adding maps where there are none.
  method InsertPath<V>(root: MapNode<V>, path: Path, v: V, ghost places: Places<V>, ghost t: Tree<V>)
    returns (ok: bool, ghost more: Places<V>)
    requires |path| > 0 && Shows(places, t) && places[[]] == root
    modifies places.Values
    ensures ok <==> Insert(t, path, v).Some?
    ensures ok ==> Shows(more, Insert(t, path, v).value) && [] in more && more[[]] == root && fresh(more.Values - places.Values)
  {
    hide Shows, Insert, WellFormed, Along;
    var nested := root;
    more := places;
    var i := 0;
    ShowsRoot(places, t);
    AlongStart(t, path);
    while i + 1 < |path|
      invariant 0 <= i < |path| && Shows(more, Along(t, path, i))
      invariant path[..i] in more && more[path[..i]] == nested && [] in more && more[[]] == root
      invariant fresh(more.Values - places.Values)
      invariant forall j :: 0 < j <= i ==> path[..j] !in t.leaves
    {
      var found;
      found, nested, more := Descend(nested, path, i, more, t);
      if !found {
        LeafOnTheWay(t, path, v, i + 1);
        return false, more;
      }
      i := i + 1;
    }
    LastStep(t, path, v);
    LastEntry(more, t, path);
    if path[i] in nested.entries {
      return false, more;
    }
    AddLeaf(nested, path[i], v, path[..i], more, Along(t, path, i));
    ok := true;
  }

  lemma LastEntry<V>(places: Places<V>, t: Tree<V>, path: Path)
    requires |path| > 0 && Shows(places, Along(t, path, |path| - 1)) && path[..|path| - 1] in places
    ensures var last := Along(t, path, |path| - 1);
            path[|path| - 1] in places[path[..|path| - 1]].entries <==> path in last.leaves || path in last.nodes
    ensures path[..|path| - 1] + [path[|path| - 1]] == path
  {
    hide Shows, Along;
    var i := |path| - 1;
    assert path[..i] + [path[i]] == path;
    ShowsEntry(places, Along(t, path, i), path[..i], path[i]);
  }

  lemma AlongStart<V>(t: Tree<V>, path: Path)
    requires WellFormed(t)
    ensures Along(t, path, 0) == t && path[..0] == []
  {
    assert Along(t, path, 0).nodes == t.nodes;
  }

  lemma LeafOnTheWay<V>(t: Tree<V>, path: Path, v: V, i: nat)
    requires 0 < i <= |path| && path[..i] in t.leaves
    ensures Insert(t, path, v) == None
  {
  }

  // what the last segment finds decides, if no leaf was on the way
  lemma LastStep<V>(t: Tree<V>, path: Path, v: V)
    requires |path| > 0 && forall j :: 0 < j < |path| ==> path[..j] !in t.leaves
    ensures var last := Along(t, path, |path| - 1);
            && (Insert(t, path, v) == None <==> path in last.nodes || path in last.leaves)
            && (Insert(t, path, v).Some? ==> Insert(t, path, v).value == Tree(last.nodes, last.leaves[path := v]))
    ensures path[..|path|] == path
  {
    assert path[..|path|] == path;
    var last := Along(t, path, |path| - 1);
    assert forall j :: 0 <= j <= |path| - 1 ==> |path[..j]| < |path|;
    assert last.nodes == t.nodes + (set j | 0 <= j < |path| :: path[..j]);
  }

  // nestMap: an error exactly if some key's segments are a proper prefix of another's, and
  // otherwise the maps of the one tree that the flat map stands for.
  method NestMap<V>(m: map<string, V>) returns (r: Result<MapNode<V>, NestError>, ghost places: Places<V>)
    ensures r.Ok? <==> PrefixFree(Leaves(m).Keys)
    ensures r.Ok? ==> Shows(places, Built(Leaves(m))) && places[[]] == r.value && fresh(places.Values)
  {
    hide Shows, Insert, Leaves, PrefixFree, Nest, Built, Split;
    var root;
    root, places := NewRoot();
    ghost var order: seq<string> := [];
    NestStart(m);
    var left := m.Keys;
    while left != {}
      invariant left <= m.Keys && (forall k :: k in m ==> k in left || k in order)
      invariant forall i :: 0 <= i < |order| ==> order[i] in m && order[i] !in left
      invariant forall i, j :: 0 <= i < j < |order| ==> order[i] != order[j]
      invariant Nest(order, m).Some? && Shows(places, Nest(order, m).value)
      invariant [] in places && places[[]] == root && fresh(places.Values)
      decreases |left|
    {
      var k :| k in left;
      left := left - {k};
      ghost var before, was := order, places;
      NestStep(before, k, m);
      var ok;
      ok, places := InsertPath(root, Split(k), m[k], places, Nest(before, m).value);
      order := order + [k];
      assert forall x :: x in before ==> x in order;
      assert k == order[|before|];
      if !ok {
        FailureStays(order, left, m);
        return Err(IllegalKey), places;
      }
      assert places.Values <= (places.Values - was.Values) + was.Values;
    }
    NestSucceedsIffPrefixFree(order, m);
    return Ok(root), places;
  }

  lemma NestStart<V>(m: map<string, V>)
    ensures Nest([], m) == Some(Built(map[]))
  {
  }

  lemma NestStep<V>(order: seq<string>, k: string, m: map<string, V>)
    requires k in m && forall i :: 0 <= i < |order| ==> order[i] in m
    ensures Nest(order + [k], m) == if Nest(order, m).Some? then Insert(Nest(order, m).value, Split(k), m[k]) else None
    ensures |Split(k)| > 0
  {
    assert (order + [k])[..|order|] == order;
  }

  // once a key has failed, no order of the others helps
  lemma FailureStays<V>(order: seq<string>, left: set<string>, m: map<string, V>)
    requires left <= m.Keys && (forall i :: 0 <= i < |order| ==> order[i] in m && order[i] !in left)
    requires forall i, j :: 0 <= i < j < |order| ==> order[i] != order[j]
    requires forall k :: k in m ==> k in left || k in order
    requires Nest(order, m) == None
    ensures !PrefixFree(Leaves(m).Keys)
    decreases |left|
  {
    if left == {} {
      NestSucceedsIffPrefixFree(order, m);
    } else {
      var k :| k in left;
      var longer := order + [k];
      assert longer[..|longer| - 1] == order;
      assert forall x :: x in order ==> x in longer;
      FailureStays(longer, left - {k}, m);
    }
  }

  // ----- flattenMap

  // leaf q lies below the map at p
  predicate Below(p: Path, q: Path) {
    |p| < |q| && q[..|p|] == p
  }

  // the key of leaf q in the flat form of the map at p
  function KeyFrom(p: Path, q: Path): string
    requires Below(p, q)
  {
    Join(q[|p|..])
  }

  // the flat map holds the leaves below p that lie under the keys done so far
  ghost predicate FlattensPart<V>(t: Tree<V>, p: Path, done: set<string>, flat: map<string, V>) {
    && (forall q :: q in t.leaves && Below(p, q) && q[|p|] in done ==> KeyFrom(p, q) in flat)
    && (forall k :: k in flat ==>
          exists q :: q in t.leaves && Below(p, q) && q[|p|] in done && KeyFrom(p, q) == k && t.leaves[q] == flat[k])
  }

  ghost predicate FlattensBelow<V>(t: Tree<V>, p: Path, flat: map<string, V>) {
    && (forall q :: q in t.leaves && Below(p, q) ==> KeyFrom(p, q) in flat)
    && (forall k :: k in flat ==> exists q :: q in t.leaves && Below(p, q) && KeyFrom(p, q) == k && t.leaves[q] == flat[k])
  }

  lemma LeafFlattens<V>(t: Tree<V>, p: Path, done: set<string>, flat: map<string, V>, key: string)
    requires WellFormed(t) && FlattensPart(t, p, done, flat) && key !in done && p + [key] in t.leaves
    ensures FlattensPart(t, p, done + {key}, flat[key := t.leaves[p + [key]]])
  {
    var leaf := p + [key];
    assert leaf[..|p|] == p && leaf[|p|..] == [key];
    forall q | q in t.leaves && Below(p, q) && q[|p|] == key
      ensures q == leaf
    {
      assert q[..|p| + 1] == leaf;
    }
  }

  // k in front of every key of the nested map
  ghost predicate Prefixed<V>(key: string, nested: map<string, V>, flat: map<string, V>, all: map<string, V>) {
    && (forall k :: k in nested ==> key + "." + k in all && all[key + "." + k] == nested[k])
    && (forall k :: k in flat ==> k in all)
    && (forall k :: k in all ==> (k in flat && all[k] == flat[k]) || exists n :: n in nested && k == key + "." + n)
  }

  method AddPrefixed<V>(key: string, nested: map<string, V>, flat: map<string, V>) returns (all: map<string, V>)
    ensures Prefixed(key, nested, flat, all)
  {
    all := flat;
    var left := nested.Keys;
    while left != {}
      invariant left <= nested.Keys
      invariant forall k :: k in nested && k !in left ==> key + "." + k in all && all[key + "." + k] == nested[k]
      invariant forall k :: k in flat ==> k in all
      invariant forall k :: k in all ==> (k in flat && all[k] == flat[k]) || exists n :: n in nested && k == key + "." + n
      decreases |left|
    {
      var n :| n in left;
      left := left - {n};
      forall k | k in nested && k != n
        ensures key + "." + k != key + "." + n
      {
        assert (key + "." + k)[|key| + 1..] == k && (key + "." + n)[|key| + 1..] == n;
      }
      all := all[key + "." + n := nested[n]];
    }
  }

  lemma KeyThroughChild(p: Path, key: string, q: Path)
    requires Below(p + [key], q)
    ensures Below(p, q) && q[|p|] == key && KeyFrom(p, q) == key + "." + KeyFrom(p + [key], q)
  {
    var c := p + [key];
    assert q[..|p|] == c[..|p|] == p && q[|p|] == c[|p|];
    assert q[|p|..][1..] == q[|c|..];
  }

  lemma NestedFlattens<V>(t: Tree<V>, p: Path, done: set<string>, flat: map<string, V>, key: string,
                          nested: map<string, V>, all: map<string, V>)
    requires WellFormed(t) && FlattensPart(t, p, done, flat) && key !in done && p + [key] in t.nodes
    requires FlattensBelow(t, p + [key], nested) && Prefixed(key, nested, flat, all)
    ensures FlattensPart(t, p, done + {key}, all)
  {
    forall q | q in t.leaves && Below(p, q) && q[|p|] in done + {key}
      ensures KeyFrom(p, q) in all
    {
      if q[|p|] == key {
        BelowChild(t, p, key, q);
        KeyThroughChild(p, key, q);
      }
    }
    forall k | k in all
      ensures exists q :: q in t.leaves && Below(p, q) && q[|p|] in done + {key} && KeyFrom(p, q) == k && t.leaves[q] == all[k]
    {
      if n :| n in nested && k == key + "." + n {
        var q :| q in t.leaves && Below(p + [key], q) && KeyFrom(p + [key], q) == n && t.leaves[q] == nested[n];
        KeyThroughChild(p, key, q);
      } else {
        var q :| q in t.leaves && Below(p, q) && q[|p|] in done && KeyFrom(p, q) == k && t.leaves[q] == flat[k];
      }
    }
  }

  lemma BelowChild<V>(t: Tree<V>, p: Path, key: string, q: Path)
    requires WellFormed(t) && p + [key] in t.nodes && q in t.leaves && Below(p, q) && q[|p|] == key
    ensures Below(p + [key], q)
  {
    assert q[..|p| + 1] == p + [key];
    assert |q| == |p| + 1 ==> q == p + [key];
  }

  lemma ChildOnTheWay<V>(t: Tree<V>, p: Path, q: Path)
    requires WellFormed(t) && q in t.leaves && Below(p, q)
    ensures p + [q[|p|]] in t.leaves || p + [q[|p|]] in t.nodes
  {
    assert q[..|p| + 1] == p + [q[|p|]];
    if |q| > |p| + 1 {
    } else {
      assert q[..|p| + 1] == q;
    }
  }

  // Under which keys the leaves below p lie is visible in the map at p.
  lemma AllKeysDone<V>(places: Places<V>, t: Tree<V>, p: Path, flat: map<string, V>)
    requires Shows(places, t) && p in places && FlattensPart(t, p, places[p].entries.Keys, flat)
    ensures FlattensBelow(t, p, flat)
  {
    hide Shows, WellFormed;
    ShowsRoot(places, t);
    forall q | q in t.leaves && Below(p, q)
      ensures q[|p|] in places[p].entries
    {
      ChildOnTheWay(t, p, q);
      ShowsEntry(places, t, p, q[|p|]);
    }
  }

  // flattenMap on the map at path p: every leaf below it under its joined path, and nothing else.
  method FlattenMap<V>(node: MapNode<V>, ghost p: Path, ghost places: Places<V>, ghost t: Tree<V>, ghost height: nat)
    returns (flat: map<string, V>)
    requires Shows(places, t) && p in places && places[p] == node && forall q :: q in places ==> |q| <= height
    ensures FlattensBelow(t, p, flat)
    decreases height - |p|
  {
    hide Shows, FlattensPart, FlattensBelow, Prefixed;
    flat := map[];
    ghost var done: set<string> := {};
    NothingDone<V>(t, p);
    ShowsRoot(places, t);
    var left := node.entries.Keys;
    while left != {}
      invariant left + done == node.entries.Keys && left !! done && FlattensPart(t, p, done, flat)
      decreases |left|
    {
      var key :| key in left;
      left := left - {key};
      ShowsEntry(places, t, p, key);
      if node.entries[key].Sub? {
        var nested := FlattenMap(node.entries[key].node, p + [key], places, t, height);
        var all := AddPrefixed(key, nested, flat);
        NestedFlattens(t, p, done, flat, key, nested, all);
        flat := all;
      } else {
        LeafFlattens(t, p, done, flat, key);
        flat := flat[key := node.entries[key].value];
      }
      done := done + {key};
    }
    AllKeysDone(places, t, p, flat);
  }

  lemma NothingDone<V>(t: Tree<V>, p: Path)
    ensures FlattensPart(t, p, {}, map[])
  {
  }

  lemma BelowTheRoot<V>(t: Tree<V>, flat: map<string, V>)
    requires WellFormed(t) && FlattensBelow(t, [], flat)
    ensures Flattens(t, flat)
  {
    forall q | q in t.leaves
      ensures |q| > 0 && Join(q) in flat
    {
      assert Below([], q) && q[0..] == q;
    }
    forall k | k in flat
      ensures exists q :: q in t.leaves && |q| > 0 && Join(q) == k && t.leaves[q] == flat[k]
    {
      var q :| q in t.leaves && Below([], q) && KeyFrom([], q) == k && t.leaves[q] == flat[k];
      assert q[0..] == q;
    }
  }

  // Nesting a flat map and flattening the result gives it back.
  method NestThenFlatten<V>(m: map<string, V>) returns (back: Result<map<string, V>, NestError>)
    ensures back == if PrefixFree(Leaves(m).Keys) then Ok(m) else Err(IllegalKey)
  {
    hide Shows, Leaves, Built, FlattensBelow;
    var root, places := NestMap(m);
    if root.Err? {
      return Err(IllegalKey);
    }
    ghost var t := Built(Leaves(m));
    ShowsRoot(places, t);
    ghost var height := Height(places.Keys);
    var flat := FlattenMap(root.value, [], places, t, height);
    BelowTheRoot(t, flat);
    FlattenOfNest(m, flat);
    return Ok(flat);
  }

  // Flattening a nested map whose keys hold no dots and nesting the result never fails; it gives
  // back the same tree exactly if no map below the root is empty.
  method FlattenThenNest<V>(node: MapNode<V>, ghost places: Places<V>, ghost t: Tree<V>)
    returns (back: Result<MapNode<V>, NestError>, ghost more: Places<V>, ghost u: Tree<V>)
    requires Shows(places, t) && [] in places && places[[]] == node && DotFreeKeys(t)
    ensures back.Ok? && Shows(more, u) && [] in more && more[[]] == back.value && fresh(more.Values)
    ensures u == t <==> NoEmptyMap(t)
  {
    hide Shows, Leaves, Built, FlattensBelow, DotFreeKeys, NoEmptyMap;
    ShowsRoot(places, t);
    ghost var height := Height(places.Keys);
    var flat := FlattenMap(node, [], places, t, height);
    BelowTheRoot(t, flat);
    NestOfFlatten(t, flat);
    if !NoEmptyMap(t) {
      EmptyMapIsLost(t, flat);
    }
    back, more := NestMap(flat);
    u := Built(Leaves(flat));
    ShowsRoot(more, u);
  }

  ghost function Height(paths: set<Path>): (h: nat)
    ensures forall p :: p in paths ==> |p| <= h
  {
    if paths == {} then 0
    else
      var p :| p in paths;
      var h := Height(paths - {p});
      if |p| > h then |p| else h
  }
}
