/**
 * The parent tree of a breeding path, as `build_binary_tree` builds it, and
 * its depth, as `get_tree_depth` measures it. Drawing the tree and loading
 * images are not part of this model.
 */
module Visualize {
  import opened BreedingGraph

  /** `None` or a node tuple `(pal, left, right)`; a leaf is
      `(pal, None, None)`. */
  datatype Tree = Empty | Node(pal: Pal, left: Tree, right: Tree)

  /** The tuples `build_tree` returns for a Pal it does not expand. */
  function Leaf(p: Pal): Tree
  {
    Node(p, Empty, Empty)
  }

  /** The `nodes` dictionary after its loop over `path`: each result is mapped
      to the parents of the event written last. */
  function ParentsOf(path: seq<Event>): (nodes: map<Pal, (Pal, Pal)>)
    ensures |nodes.Keys| <= |path|
  {
    if path == [] then map[]
    else
      var e := path[|path| - 1];
      var before := ParentsOf(path[..|path| - 1]);
      assert before[e.result := (e.parent1, e.parent2)].Keys == before.Keys + {e.result};
      before[e.result := (e.parent1, e.parent2)]
  }

  /** `nodes` maps exactly the results of the path. */
  lemma {:induction false} ParentsOfKeys(path: seq<Event>, p: Pal)
    ensures p in ParentsOf(path) <==> exists k :: 0 <= k < |path| && path[k].result == p
  {
    if path != [] {
      var n := |path| - 1;
      ParentsOfKeys(path[..n], p);
      if exists k :: 0 <= k < |path| && path[k].result == p {
        var k :| 0 <= k < |path| && path[k].result == p;
        if k < n {
          assert path[..n][k] == path[k];
        }
      }
      if exists k :: 0 <= k < n && path[..n][k].result == p {
        var k :| 0 <= k < n && path[..n][k].result == p;
        assert path[k] == path[..n][k];
      }
    }
  }

  /** Each result maps to the parents of the last event producing it: later
      events overwrite earlier ones. */
  lemma {:induction false} ParentsOfLastWriter(path: seq<Event>, k: nat)
    requires k < |path|
    requires forall m :: k < m < |path| ==> path[m].result != path[k].result
    ensures path[k].result in ParentsOf(path)
    ensures ParentsOf(path)[path[k].result] == (path[k].parent1, path[k].parent2)
  {
    var n := |path| - 1;
    if k < n {
      assert path[..n][k] == path[k];
      ParentsOfLastWriter(path[..n], k);
    }
  }

  /** Every node with children is an expanded Pal whose two children are the
      recorded parents of that Pal. */
  ghost predicate Shaped(nodes: map<Pal, (Pal, Pal)>, t: Tree)
  {
    match t
    case Empty => true
    case Node(p, l, r) =>
      (l == Empty && r == Empty) ||
      (p in nodes && l.Node? && r.Node? && (l.pal, r.pal) == nodes[p] && Shaped(nodes, l) && Shaped(nodes, r))
  }

  /** The Pals of the nodes that have children, in pre-order. */
  function Expanded(t: Tree): seq<Pal>
  {
    match t
    case Empty => []
    case Node(p, l, r) => if l == Empty && r == Empty then [] else [p] + Expanded(l) + Expanded(r)
  }

  /** The Pals of the childless nodes. */
  function Leaves(t: Tree): set<Pal>
  {
    match t
    case Empty => {}
    case Node(p, l, r) => if l == Empty && r == Empty then {p} else Leaves(l) + Leaves(r)
  }

  /**
   * The order in which `build_tree` visits Pals: children left before right,
   * with `seen` the Pals visited before `t` is built. A childless node is a
   * Pal without recorded parents or one seen already; a node with children
   * is a Pal not seen yet, its left subtree is built after marking it, and
   * its right subtree after everything the left one expanded.
   */
  ghost predicate LeftFirst(nodes: map<Pal, (Pal, Pal)>, seen: set<Pal>, t: Tree)
    decreases t
  {
    match t
    case Empty => true
    case Node(p, l, r) =>
      if l == Empty && r == Empty then p !in nodes || p in seen
      else
        p !in seen && LeftFirst(nodes, seen + {p}, l) &&
        LeftFirst(nodes, seen + {p} + (set q | q in Expanded(l)), r)
  }

  /** The shape and the visiting order determine the tree: two trees with
      the same root Pal, both shaped by `nodes` and built left first from the
      same `seen`, are equal. */
  lemma {:induction false} LeftFirstUnique(nodes: map<Pal, (Pal, Pal)>, seen: set<Pal>, t1: Tree, t2: Tree)
    requires t1.Node? && t2.Node? && t1.pal == t2.pal
    requires Shaped(nodes, t1) && Shaped(nodes, t2)
    requires LeftFirst(nodes, seen, t1) && LeftFirst(nodes, seen, t2)
    ensures t1 == t2
    decreases t1
  {
    var p := t1.pal;
    var leaf1 := t1.left == Empty && t1.right == Empty;
    var leaf2 := t2.left == Empty && t2.right == Empty;
    if !leaf1 && !leaf2 {
      LeftFirstUnique(nodes, seen + {p}, t1.left, t2.left);
      LeftFirstUnique(nodes, seen + {p} + (set q | q in Expanded(t1.left)), t1.right, t2.right);
    }
  }

  lemma SubsetCard(a: set<Pal>, b: set<Pal>)
    requires a <= b
    ensures |a| <= |b|
  {
    assert b == a + (b - a);
  }

  /**
   * The inner `build_tree(current_pal, visited)`. Its `visited` set is shared
   * by all the recursive calls of one `build_binary_tree` call and grows as
   * they run; it is passed in and returned here.
   */
  method BuildTree(nodes: map<Pal, (Pal, Pal)>, current: Pal, visited: set<Pal>)
    returns (t: Tree, visited': set<Pal>)
    ensures t.Node? && t.pal == current
    ensures current !in nodes || current in visited ==> t == Leaf(current) && visited' == visited
    ensures current in nodes && current !in visited ==>
      t.left.Node? && t.right.Node? && (t.left.pal, t.right.pal) == nodes[current]
    ensures visited <= visited' <= visited + nodes.Keys
    ensures Shaped(nodes, t)
    ensures forall p :: p in Expanded(t) <==> p in visited' - visited
    ensures |Expanded(t)| == |visited' - visited|
    ensures forall p :: p in Leaves(t) && p in nodes ==> p in visited'
    ensures LeftFirst(nodes, visited, t)
    decreases |nodes.Keys - visited|
  {
    if current !in nodes || current in visited {
      t, visited' := Leaf(current), visited;
    } else {
      var marked := visited + {current};
      var (left, right) := nodes[current];
      assert nodes.Keys - marked == (nodes.Keys - visited) - {current};
      var l, visited1 := BuildTree(nodes, left, marked);
      SubsetCard(nodes.Keys - visited1, nodes.Keys - marked);
      var r, visited2 := BuildTree(nodes, right, visited1);
      t := Node(current, l, r);
      visited' := visited2;
      ExpandedOfNode(current, l, r, visited, visited1, visited2);
      LeftFirstNode(nodes, visited, current, l, r, visited1);
    }
  }

  /** Gluing the two recursive calls of `build_tree`: the Pals expanded under
      a new node are the node itself and what each child call marked. */
  lemma ExpandedOfNode(p: Pal, l: Tree, r: Tree, v0: set<Pal>, v1: set<Pal>, v2: set<Pal>)
    requires l.Node? && r.Node? && p !in v0
    requires v0 + {p} <= v1 <= v2
    requires forall q :: q in Expanded(l) <==> q in v1 - (v0 + {p})
    requires |Expanded(l)| == |v1 - (v0 + {p})|
    requires forall q :: q in Expanded(r) <==> q in v2 - v1
    requires |Expanded(r)| == |v2 - v1|
    ensures forall q :: q in Expanded(Node(p, l, r)) <==> q in v2 - v0
    ensures |Expanded(Node(p, l, r))| == |v2 - v0|
  {
    assert Expanded(Node(p, l, r)) == [p] + Expanded(l) + Expanded(r);
    assert v2 - v0 == {p} + (v1 - (v0 + {p})) + (v2 - v1);
  }

  /** Gluing the visiting orders of the two recursive calls of
      `build_tree`: the right call starts from what the left call marked. */
  lemma LeftFirstNode(nodes: map<Pal, (Pal, Pal)>, visited: set<Pal>, p: Pal, l: Tree, r: Tree, v1: set<Pal>)
    requires l.Node? && p !in visited && visited + {p} <= v1
    requires forall q :: q in Expanded(l) <==> q in v1 - (visited + {p})
    requires LeftFirst(nodes, visited + {p}, l) && LeftFirst(nodes, v1, r)
    ensures LeftFirst(nodes, visited, Node(p, l, r))
  {
    assert v1 == visited + {p} + (set q | q in Expanded(l));
  }

  /** `build_binary_tree(path)`: the parent tree rooted at the path's last
      result, or `None` for an empty path. */
  method BuildBinaryTree(path: seq<Event>) returns (t: Tree)
    ensures path == [] <==> t == Empty
    ensures path != [] ==> t.Node? && t.pal == path[|path| - 1].result
    ensures path != [] ==>
              t.left.Node? && t.right.Node? &&
              (t.left.pal, t.right.pal) == (path[|path| - 1].parent1, path[|path| - 1].parent2)
    ensures Shaped(ParentsOf(path), t)
    ensures forall p :: p in Expanded(t) ==> p in ParentsOf(path)
    ensures forall p :: p in Leaves(t) && p in ParentsOf(path) ==> p in Expanded(t)
    ensures |Expanded(t)| <= |path|
    ensures forall x, y :: 0 <= x < y < |Expanded(t)| ==> Expanded(t)[x] != Expanded(t)[y]
    ensures LeftFirst(ParentsOf(path), {}, t)
  {
    if path == [] {
      return Empty;
    }
    var nodes := map[];
    var n := 0;
    while n < |path|
      invariant 0 <= n <= |path|
      invariant nodes == ParentsOf(path[..n])
    {
      var e := path[n];
      nodes := nodes[e.result := (e.parent1, e.parent2)];
      assert path[..n + 1][..n] == path[..n];
      n := n + 1;
    }
    assert path[..n] == path;
    var visited;
    t, visited := BuildTree(nodes, path[|path| - 1].result, {});
    ParentsOfLastWriter(path, |path| - 1);
    SubsetCard(visited, nodes.Keys);
    NoDupFromCount(Expanded(t), visited);
  }

  /** A list whose elements form a set of the same size has no repeats. */
  lemma {:induction false} NoDupFromCount(s: seq<Pal>, v: set<Pal>)
    requires forall p :: p in s <==> p in v
    requires |s| == |v|
    ensures forall x, y :: 0 <= x < y < |s| ==> s[x] != s[y]
  {
    if s != [] {
      var rest := s[1..];
      if s[0] in rest {
        assert forall p :: p in rest <==> p in v;
        DistinctBound(rest, v);
      } else {
        assert forall p :: p in rest <==> p in v - {s[0]};
        NoDupFromCount(rest, v - {s[0]});
        assert forall y :: 0 < y < |s| ==> s[y] == rest[y - 1];
      }
    }
  }

  /** A list covers at most as many distinct values as its length. */
  lemma {:induction false} DistinctBound(s: seq<Pal>, v: set<Pal>)
    requires forall p :: p in v ==> p in s
    ensures |v| <= |s|
  {
    if s == [] {
      assert v == {};
    } else {
      assert forall p :: p in v - {s[0]} ==> p in s[1..];
      DistinctBound(s[1..], v - {s[0]});
    }
  }

  /** `get_tree_depth(node)`: `None` has depth 0, a node one more than its
      deeper child. */
  function Depth(t: Tree): (d: nat)
    ensures d == 0 <==> t == Empty
    ensures t.Node? ==> d > Depth(t.left) && d > Depth(t.right)
  {
    match t
    case Empty => 0
    case Node(_, l, r) => 1 + if Depth(l) >= Depth(r) then Depth(l) else Depth(r)
  }

  /** A tree is at most one level deeper than it has nodes with children. */
  lemma {:induction false} DepthBound(t: Tree)
    ensures Depth(t) <= |Expanded(t)| + 1
  {
    match t
    case Empty =>
    case Node(_, l, r) =>
      if !(l == Empty && r == Empty) {
        DepthBound(l);
        DepthBound(r);
      }
  }

  /** The tree of a path of `n` events is at most `n + 1` levels deep. */
  lemma BuiltTreeDepth(path: seq<Event>, t: Tree)
    requires |Expanded(t)| <= |path|
    ensures Depth(t) <= |path| + 1
  {
    DepthBound(t);
  }
}
