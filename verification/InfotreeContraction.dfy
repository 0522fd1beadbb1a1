/** Numbering and contraction of a Lean infotree (infotree.py): nodes that failed to pretty-print and nodes that
    repeat their parent are contracted away in place, while the walk comes back up. */
module InfotreeContraction {
  import opened Wrappers
  import opened InfotreeForest

  const FAILED_PP := "<failed to pretty print>"

  datatype Flags = Flags(includeFailedPp: bool, deduplicate: bool)

  type Edge = (int, int)  // (parent id, child id); the attribute dict is always empty

  predicate Failed(n: Node) {
    n.pp == FAILED_PP
  }

  predicate SameKey(a: Node, b: Node) {
    a.goalsBefore == b.goalsBefore && a.goalsAfter == b.goalsAfter && a.pp == b.pp
  }

  // ---------------------------------------------------------------- the contracted graph

  /** What one call of extract_nodes_and_edges works on: the numbered nodes of its forest, the ancestor pairs among
      them, and the call's other arguments. */
  datatype Call = Call(start: int, raw: map<int, Node>, anc: set<(int, int)>, parent: Option<int>, flags: Flags)

  ghost function CallOf(items: seq<Item>, start: int, parent: Option<int>, flags: Flags): Call {
    Call(start, Numbered(items, start), Ancestry(items, start), parent, flags)
  }

  /** Ids start at `start`, ancestors come first, ancestry is transitive. */
  ghost predicate Ordered(x: Call) {
    && (x.parent.Some? ==> x.parent.value < x.start)
    && (forall id :: id in x.raw ==> x.start <= id)
    && (forall a, b :: (a, b) in x.anc ==> x.start <= a < b)
  }

  ghost predicate Transitive(x: Call) {
    forall a, b, c :: (a, b) in x.anc && (b, c) in x.anc ==> (a, c) in x.anc
  }

  /** No proper ancestor: the node sits at the top of its forest. */
  ghost predicate Root(x: Call, b: int) {
    forall a :: (a, b) !in x.anc
  }

  /** `p` is the nearest kept proper ancestor of `c`. */
  ghost predicate Nearest(x: Call, nodes: map<int, Node>, p: int, c: int) {
    && p in nodes
    && (p, c) in x.anc
    && forall q :: q in nodes && (q, c) in x.anc ==> q == p || (q, p) in x.anc
  }

  /** Every kept node below `q` is also below `id`. */
  ghost predicate OnlyWayDown(x: Call, nodes: map<int, Node>, q: int, id: int) {
    forall d :: d in nodes && (q, d) in x.anc ==> (id, d) in x.anc
  }

  /** Why a node may be gone: it failed to pretty-print, or its nearest kept ancestor carries
      the same goals and text and the node was the only way down from there. */
  ghost predicate Redundant(x: Call, nodes: map<int, Node>, id: int)
    requires id in x.raw
  {
    var n := x.raw[id];
    || (!x.flags.includeFailedPp && Failed(n))
    || (x.flags.deduplicate && exists q ::
        q in nodes && Nearest(x, nodes, q, id) && SameKey(nodes[q], n) && OnlyWayDown(x, nodes, q, id))
  }

  ghost predicate OnlyChild(parents: map<int, int>, p: int, c: int) {
    && c in parents && parents[c] == p
    && forall d :: d in parents && parents[d] == p ==> d == c
  }

  /** No more contraction is possible below `p`. */
  ghost predicate NormalAt(flags: Flags, nodes: map<int, Node>, parents: map<int, int>, p: int) {
    && (!flags.includeFailedPp ==> forall c :: c in parents && c in nodes && parents[c] == p ==> !Failed(nodes[c]))
    && (flags.deduplicate && p in nodes ==>
          forall c :: OnlyChild(parents, p, c) && c in nodes ==> !SameKey(nodes[p], nodes[c]))
  }

  /** The kept nodes and the parent of each, once the ids below `hi` are handled; `open` is the one node whose
      children may still be contracted. */
  ghost predicate Contracted(x: Call, nodes: map<int, Node>, parents: map<int, int>, hi: int, open: Option<int>) {
    && (forall id :: id in nodes ==> id in x.raw && id < hi && nodes[id] == x.raw[id])
    && (forall c :: c in parents ==> c in nodes)
    && (forall c :: c in parents ==>
          if Root(x, c) then x.parent == Some(parents[c]) else Nearest(x, nodes, parents[c], c))
    && (forall c :: c in nodes ==> (c in parents <==> x.parent.Some? || !Root(x, c)))
    && (forall id :: id in x.raw && id < hi && id !in nodes ==>
          !Root(x, id) && Redundant(x, nodes, id))
    && (forall p :: p in nodes && open != Some(p) ==> NormalAt(x.flags, nodes, parents, p))
  }

  /** The edge list holds exactly the pairs (parents[c], c), each once. */
  ghost predicate Lists(edges: seq<Edge>, parents: map<int, int>) {
    && (forall i :: 0 <= i < |edges| ==> edges[i].1 in parents && parents[edges[i].1] == edges[i].0)
    && (forall i, j :: 0 <= i < j < |edges| ==> edges[i].1 != edges[j].1)
    && (forall c :: c in parents ==> (parents[c], c) in edges)
  }

  ghost function Flattened(parents: map<int, int>, p: int, c: int): map<int, int> {
    map d | d in parents && d != c :: if parents[d] == c then p else parents[d]
  }

  /** What the rewriting loop contracts: a child that failed to pretty-print, or an only child that repeats its
      parent. */
  ghost predicate Doomed(flags: Flags, nodes: map<int, Node>, parents: map<int, int>, p: int, c: int)
    requires p in nodes && c in nodes
  {
    || (!flags.includeFailedPp && Failed(nodes[c]))
    || (flags.deduplicate && SameKey(nodes[p], nodes[c]) && OnlyChild(parents, p, c))
  }

  lemma {:induction false} BelowOnlyChild(x: Call, nodes: map<int, Node>, parents: map<int, int>, hi: int, p: int,
                                          c: int, d: int)
    requires Contracted(x, nodes, parents, hi, Some(p)) && Ordered(x) && Transitive(x)
    requires p in nodes && c in nodes && OnlyChild(parents, p, c)
    requires d in nodes && d != c && (p, d) in x.anc
    ensures (c, d) in x.anc
    decreases d - x.start
  {
    var n := parents[d];
    assert Nearest(x, nodes, n, d);
    if n == c {
    } else {
      BelowOnlyChild(x, nodes, parents, hi, p, c, n);
    }
  }

  lemma ForallBelowOnlyChild(x: Call, nodes: map<int, Node>, parents: map<int, int>, hi: int, p: int, c: int)
    requires Contracted(x, nodes, parents, hi, Some(p)) && Ordered(x) && Transitive(x)
    requires p in nodes && c in nodes && OnlyChild(parents, p, c)
    ensures OnlyWayDown(x, nodes - {c}, p, c)
  {
    hide Contracted;
    forall d | d in nodes - {c} && (p, d) in x.anc ensures (c, d) in x.anc {
      BelowOnlyChild(x, nodes, parents, hi, p, c, d);
    }
  }

  /** One rewrite keeps the invariant: the removed child was redundant below the open node. */
  lemma FlattenKeeps(x: Call, nodes: map<int, Node>, parents: map<int, int>, hi: int, p: int, c: int)
    requires Contracted(x, nodes, parents, hi, Some(p))
    requires p in nodes && c in parents && parents[c] == p
    requires Ordered(x) && Transitive(x)
    requires Doomed(x.flags, nodes, parents, p, c)
    ensures Contracted(x, nodes - {c}, Flattened(parents, p, c), hi, Some(p))
  {
    hide Nearest, Root, Redundant, NormalAt, OnlyWayDown, OnlyChild, Transitive, Doomed, SameKey, Failed;
    assert p < c && c in nodes by {
      ChildIsLater(x, nodes, parents, hi, p, c);
    }
    hide Ordered;
    FlattenEdges(x, nodes, parents, hi, p, c);
    FlattenGone(x, nodes, parents, hi, p, c);
    forall q | q in nodes - {c} && q != p
      ensures NormalAt(x.flags, nodes - {c}, Flattened(parents, p, c), q)
    {
      FlattenNormal(x.flags, nodes, parents, p, c, q);
    }
  }

  lemma FlattenEdges(x: Call, nodes: map<int, Node>, parents: map<int, int>, hi: int, p: int, c: int)
    requires Contracted(x, nodes, parents, hi, Some(p))
    requires p in nodes && c in parents && parents[c] == p && p != c
    requires Transitive(x) && Ordered(x)
    ensures forall d :: d in Flattened(parents, p, c) && !Root(x, d) ==>
      Nearest(x, nodes - {c}, Flattened(parents, p, c)[d], d)
  {
    assert (p, c) in x.anc && Nearest(x, nodes, p, c);
    hide Nearest, Root, Redundant, NormalAt, Transitive, Ordered;
    forall d | d in Flattened(parents, p, c) && !Root(x, d)
      ensures Nearest(x, nodes - {c}, Flattened(parents, p, c)[d], d)
    {
      FlattenNearest(x, nodes, p, c, parents[d], d);
    }
  }

  lemma FlattenGone(x: Call, nodes: map<int, Node>, parents: map<int, int>, hi: int, p: int, c: int)
    requires Contracted(x, nodes, parents, hi, Some(p))
    requires p in nodes && c in parents && parents[c] == p
    requires Ordered(x) && Transitive(x)
    requires Doomed(x.flags, nodes, parents, p, c)
    ensures forall id :: id in x.raw && id < hi && id !in nodes - {c} ==>
      !Root(x, id) && Redundant(x, nodes - {c}, id)
  {
    assert Nearest(x, nodes, p, c) && p < c && c in nodes;
    assert Doomed(x.flags, nodes, parents, p, c) ==>
             (!x.flags.includeFailedPp && Failed(nodes[c]))
             || (x.flags.deduplicate && SameKey(nodes[p], nodes[c]) && OnlyChild(parents, p, c));
    hide Nearest, Root, Redundant, NormalAt, OnlyWayDown, OnlyChild, Ordered, Transitive, Doomed, SameKey, Failed;
    if OnlyChild(parents, p, c) {
      ForallBelowOnlyChild(x, nodes, parents, hi, p, c);
    }
    forall id | id in x.raw && id < hi && id !in nodes - {c}
      ensures !Root(x, id) && Redundant(x, nodes - {c}, id)
    {
      FlattenRedundant(x, nodes, p, c, id);
    }
  }

  lemma FlattenNearest(x: Call, nodes: map<int, Node>, p: int, c: int, q: int, d: int)
    requires Nearest(x, nodes, p, c) && Nearest(x, nodes, q, d) && d != c && p != c
    requires Transitive(x)
    ensures Nearest(x, nodes - {c}, if q == c then p else q, d)
  {
  }

  lemma FlattenNormal(flags: Flags, nodes: map<int, Node>, parents: map<int, int>, p: int, c: int, q: int)
    requires c in parents && parents[c] == p && q != p && q != c && p in nodes
    requires NormalAt(flags, nodes, parents, q)
    ensures NormalAt(flags, nodes - {c}, Flattened(parents, p, c), q)
  {
    forall d | OnlyChild(Flattened(parents, p, c), q, d) ensures OnlyChild(parents, q, d) {
      forall e | e in parents && parents[e] == q ensures e == d {
        assert e in Flattened(parents, p, c);
      }
    }
  }

  lemma FlattenRedundant(x: Call, nodes: map<int, Node>, p: int, c: int, id: int)
    requires id in x.raw && c in nodes && c in x.raw && nodes[c] == x.raw[c]
    requires Nearest(x, nodes, p, c) && p != c && Transitive(x)
    requires (!x.flags.includeFailedPp && Failed(nodes[c]))
             || (x.flags.deduplicate && SameKey(nodes[p], nodes[c]) && OnlyWayDown(x, nodes - {c}, p, c))
    requires id == c || Redundant(x, nodes, id)
    ensures Redundant(x, nodes - {c}, id)
  {
    var nodes' := nodes - {c};
    var n := x.raw[id];
    if id == c {
      assert Nearest(x, nodes', p, c);
    } else if !(!x.flags.includeFailedPp && Failed(n)) {
      var q :| q in nodes && Nearest(x, nodes, q, id) && SameKey(nodes[q], n) && OnlyWayDown(x, nodes, q, id);
      FlattenNearest(x, nodes, p, c, q, id);
      var q' := if q == c then p else q;
      assert q' in nodes' && SameKey(nodes'[q'], n) && OnlyWayDown(x, nodes', q', id);
    }
  }

  // ---------------------------------------------------------------- the in-place algorithm

  /** Edges leaving `src`, in list order. */
  function ChildEdges(edges: seq<Edge>, src: int): (r: seq<Edge>)
    ensures forall e :: e in r <==> e in edges && e.0 == src
    ensures (forall i, j :: 0 <= i < j < |edges| ==> edges[i].1 != edges[j].1)
            ==> (forall i, j :: 0 <= i < j < |r| ==> r[i].1 != r[j].1)
  {
    if edges == [] then []
    else
      var rest := ChildEdges(edges[1..], src);
      if edges[0].0 == src then [edges[0]] + rest else rest
  }

  /** Drop `childId` and hand its children to `parentId`, editing the edge list in place. */
  method FlattenChain(nodes: map<int, Node>, edges: seq<Edge>, parentId: int, childId: int,
                      ghost parents: map<int, int>)
    returns (nodes': map<int, Node>, edges': seq<Edge>)
    requires Lists(edges, parents)
    requires childId in parents && parents[childId] == parentId
    ensures childId !in nodes ==> nodes' == nodes && edges' == edges
    ensures childId in nodes ==> nodes' == nodes - {childId} && Lists(edges', Flattened(parents, parentId, childId))
  {
    hide Flattened;
    if childId !in nodes {
      return nodes, edges;
    }
    nodes' := nodes - {childId};
    var kept: seq<Edge> := [];
    for i := 0 to |edges|
      invariant forall e :: e in kept <==> e in edges[..i] && e != (parentId, childId)
      invariant forall j, k :: 0 <= j < k < |kept| ==> kept[j].1 != kept[k].1
    {
      if !(edges[i].0 == parentId && edges[i].1 == childId) {
        assert forall j :: 0 <= j < |kept| ==> kept[j] in kept;
        kept := kept + [edges[i]];
      }
    }
    assert edges[..|edges|] == edges;
    edges' := kept;
    for i := 0 to |edges'|
      invariant |edges'| == |kept|
      invariant forall j :: 0 <= j < i ==>
          edges'[j] == (if kept[j].0 == childId then parentId else kept[j].0, kept[j].1)
      invariant forall j :: i <= j < |kept| ==> edges'[j] == kept[j]
    {
      if edges'[i].0 == childId {
        edges' := edges'[i := (parentId, edges'[i].1)];
      }
    }
    KeptList(edges, kept, parents, parentId, childId);
    MovedUp(kept, edges', parents, parentId, childId);
  }

  /** The edges but the one to `c`: one edge for every other node. */
  lemma KeptList(edges: seq<Edge>, kept: seq<Edge>, parents: map<int, int>, p: int, c: int)
    requires Lists(edges, parents) && c in parents && parents[c] == p
    requires forall e :: e in kept <==> e in edges && e != (p, c)
    requires forall j, k :: 0 <= j < k < |kept| ==> kept[j].1 != kept[k].1
    ensures Lists(kept, parents - {c})
  {
    forall j | 0 <= j < |kept|
      ensures kept[j].1 in parents && kept[j].1 != c && parents[kept[j].1] == kept[j].0
    {
      assert kept[j] in kept;
    }
  }

  /** The edges from `c` now start at `p`. */
  lemma MovedUp(kept: seq<Edge>, moved: seq<Edge>, parents: map<int, int>, p: int, c: int)
    requires Lists(kept, parents - {c}) && |moved| == |kept|
    requires forall j :: 0 <= j < |kept| ==> moved[j] == (if kept[j].0 == c then p else kept[j].0, kept[j].1)
    ensures Lists(moved, Flattened(parents, p, c))
  {
    var flat := Flattened(parents, p, c);
    forall d | d in flat ensures (flat[d], d) in moved {
      assert d in parents - {c} && (parents[d], d) in kept;
      var j :| 0 <= j < |kept| && kept[j] == (parents[d], d);
      assert moved[j] == (flat[d], d);
    }
  }

  /** The next child of `nodeId` to contract away: the first one that failed to pretty-print, otherwise an only child
      that repeats its parent. */
  method NextToContract(nodes: map<int, Node>, edges: seq<Edge>, nodeId: int, flags: Flags,
                        ghost parents: map<int, int>)
    returns (doomed: Option<int>)
    requires nodeId in nodes && Lists(edges, parents) && (forall c :: c in parents ==> c in nodes)
    ensures doomed.None? ==> NormalAt(flags, nodes, parents, nodeId)
    ensures doomed.Some? ==>
      var c := doomed.value;
      && c in parents && parents[c] == nodeId && Doomed(flags, nodes, parents, nodeId, c)
  {
    hide NormalAt, OnlyChild, SameKey, ChildEdges, Lists;
    var childList := ChildEdges(edges, nodeId);
    ChildrenListed(nodes, edges, parents, nodeId, childList);
    var i := 0;
    while i < |childList| && (flags.includeFailedPp || !Failed(nodes[childList[i].1]))
      invariant 0 <= i <= |childList|
      invariant forall j :: 0 <= j < i ==> flags.includeFailedPp || !Failed(nodes[childList[j].1])
    {
      i := i + 1;
    }
    if i < |childList| {
      return Some(childList[i].1);
    }
    if flags.deduplicate && |childList| == 1 && SameKey(nodes[nodeId], nodes[childList[0].1]) {
      SoleEdge(edges, parents, nodeId, childList);
      return Some(childList[0].1);
    }
    NothingLeft(flags, nodes, edges, parents, nodeId, childList);
    return None;
  }

  lemma ChildrenListed(nodes: map<int, Node>, edges: seq<Edge>, parents: map<int, int>, p: int, r: seq<Edge>)
    requires Lists(edges, parents) && r == ChildEdges(edges, p) && (forall c :: c in parents ==> c in nodes)
    ensures forall j :: 0 <= j < |r| ==> r[j].1 in parents && parents[r[j].1] == p && r[j].1 in nodes
  {
    forall j | 0 <= j < |r| ensures r[j].1 in parents && parents[r[j].1] == p && r[j].1 in nodes {
      assert r[j] in r;
      var i :| 0 <= i < |edges| && edges[i] == r[j];
      var c := r[j].1;
      assert c in parents && c in nodes;
    }
  }

  lemma SoleEdge(edges: seq<Edge>, parents: map<int, int>, p: int, r: seq<Edge>)
    requires Lists(edges, parents) && r == ChildEdges(edges, p) && |r| == 1
    ensures OnlyChild(parents, p, r[0].1)
  {
    assert r[0] in r;
    forall d | d in parents && parents[d] == p ensures d == r[0].1 {
      assert (parents[d], d) in edges;
      assert (p, d) in r;
    }
  }

  lemma NothingLeft(flags: Flags, nodes: map<int, Node>, edges: seq<Edge>, parents: map<int, int>, p: int, r: seq<Edge>)
    requires Lists(edges, parents) && p in nodes && (forall c :: c in parents ==> c in nodes)
    requires r == ChildEdges(edges, p)
    requires forall j :: 0 <= j < |r| ==> r[j].1 in nodes && (flags.includeFailedPp || !Failed(nodes[r[j].1]))
    requires !(flags.deduplicate && |r| == 1 && SameKey(nodes[p], nodes[r[0].1]))
    ensures NormalAt(flags, nodes, parents, p)
  {
    forall c | c in parents && parents[c] == p
      ensures (p, c) in r && (flags.includeFailedPp || !Failed(nodes[c]))
    {
      assert (parents[c], c) in edges;
      var j :| 0 <= j < |r| && r[j] == (p, c);
      assert r[j].1 == c;
    }
    assert |r| > 1 ==> r[0].1 != r[1].1;
    forall c | OnlyChild(parents, p, c) ensures |r| == 1 && r[0].1 == c {
      assert (p, c) in r;
      forall j | 0 <= j < |r| ensures r[j].1 == c {
        assert r[j] in r;
        assert parents[r[j].1] == p;
      }
    }
  }

  /** The rewriting loop at one node; every rewrite shrinks the node dictionary. */
  method ContractNode(nodes: map<int, Node>, edges: seq<Edge>, nodeId: int, flags: Flags, ghost x: Call,
                      ghost parents: map<int, int>, ghost hi: int)
    returns (nodes': map<int, Node>, edges': seq<Edge>, ghost parents': map<int, int>)
    requires x.flags == flags
    requires Ordered(x) && Transitive(x)
    requires nodeId in nodes && Lists(edges, parents) && Contracted(x, nodes, parents, hi, Some(nodeId))
    ensures Lists(edges', parents') && Contracted(x, nodes', parents', hi, None)
    ensures nodeId in nodes' && nodes'.Keys <= nodes.Keys
    ensures |nodes'| < |nodes| || (nodes' == nodes && edges' == edges)
  {
    hide Contracted, Lists, NormalAt, Ordered, Transitive, Flattened, Doomed;
    nodes', edges', parents' := nodes, edges, parents;
    var transformed := true;
    while transformed
      invariant nodeId in nodes' && Lists(edges', parents') && Contracted(x, nodes', parents', hi, Some(nodeId))
      invariant !transformed ==> NormalAt(flags, nodes', parents', nodeId)
      invariant nodes'.Keys <= nodes.Keys && (|nodes'| < |nodes| || (nodes' == nodes && edges' == edges))
      decreases |nodes'|, transformed
    {
      transformed := false;
      ParentsKept(x, nodes', parents', hi, Some(nodeId));
      var doomed := NextToContract(nodes', edges', nodeId, flags, parents');
      if doomed.Some? {
        var c := doomed.value;
        FlattenKeeps(x, nodes', parents', hi, nodeId, c);
        ChildIsLater(x, nodes', parents', hi, nodeId, c);
        assert nodes'.Keys == (nodes' - {c}).Keys + {c};
        nodes', edges' := FlattenChain(nodes', edges', nodeId, c, parents');
        parents' := Flattened(parents', nodeId, c);
        transformed := true;
      }
    }
    ClosedAt(x, nodes', parents', hi, nodeId);
  }

  lemma ParentsKept(x: Call, nodes: map<int, Node>, parents: map<int, int>, hi: int, open: Option<int>)
    requires Contracted(x, nodes, parents, hi, open)
    ensures forall c :: c in parents ==> c in nodes
  {}

  lemma ClosedAt(x: Call, nodes: map<int, Node>, parents: map<int, int>, hi: int, p: int)
    requires Contracted(x, nodes, parents, hi, Some(p)) && NormalAt(x.flags, nodes, parents, p)
    ensures Contracted(x, nodes, parents, hi, None)
  {}

  lemma ChildIsLater(x: Call, nodes: map<int, Node>, parents: map<int, int>, hi: int, p: int, c: int)
    requires Contracted(x, nodes, parents, hi, Some(p)) && p in nodes && c in parents && parents[c] == p
    requires Ordered(x)
    ensures p < c
  {
    assert Nearest(x, nodes, p, c);
  }

  // ---------------------------------------------------------------- the recursive walk

  /** `y` is the call for the children of the item that owns id `id` (or owns none). */
  ghost predicate ChildCall(x: Call, id: int, own: Option<Node>, y: Call) {
    && y.flags == x.flags
    && y.start == id + (if own.Some? then 1 else 0)
    && y.parent == (if own.Some? then Some(id) else x.parent)
    && (own.Some? ==> id in x.raw && x.raw[id] == own.value && Root(x, id))
    && (forall b :: b in y.raw ==> b in x.raw && x.raw[b] == y.raw[b])
    && (forall a, b {:trigger (a, b) in x.anc, b in y.raw} {:trigger (a, b) in y.anc, b in y.raw} :: b in y.raw ==>
          ((a, b) in x.anc <==> (own.Some? && a == id) || (a, b) in y.anc))
  }

  /** The ids of `y` fill the gap up to `hi`. */
  ghost predicate Fills(y: Call, hi: int) {
    forall b :: b in y.raw <==> y.start <= b < hi
  }

  ghost function OwnNodes(id: int, own: Option<Node>): map<int, Node> {
    if own.Some? then map[id := own.value] else map[]
  }

  ghost function OwnParents(x: Call, id: int, own: Option<Node>): map<int, int> {
    if own.Some? && x.parent.Some? then map[id := x.parent.value] else map[]
  }

  ghost function OwnEdges(x: Call, id: int, own: Option<Node>): seq<Edge> {
    if own.Some? && x.parent.Some? then [(x.parent.value, id)] else []
  }

  /** Everything one step of the walk starts from. */
  ghost predicate Joining(x: Call, id: int, own: Option<Node>, y: Call, hi: int, nodes: map<int, Node>,
                          parents: map<int, int>, childNodes: map<int, Node>, childParents: map<int, int>) {
    && Ordered(x) && Ordered(y) && ChildCall(x, id, own, y) && Fills(y, hi)
    && x.start <= id <= y.start <= hi
    && Contracted(x, nodes, parents, id, None)
    && Contracted(y, childNodes, childParents, hi, None)
  }

  /** What the walk holds just before the rewriting loop at the item's own node. */
  lemma Merge(x: Call, id: int, own: Option<Node>, y: Call, hi: int, nodes: map<int, Node>, parents: map<int, int>,
              childNodes: map<int, Node>, childParents: map<int, int>)
    requires Joining(x, id, own, y, hi, nodes, parents, childNodes, childParents)
    ensures Contracted(x, nodes + OwnNodes(id, own) + childNodes, parents + childParents + OwnParents(x, id, own),
                       hi, if own.Some? then Some(id) else None)
  {
    hide Joining, ChildCall, Fills, Ordered, Root, Redundant, Nearest, NormalAt;
    var big := nodes + OwnNodes(id, own) + childNodes;
    var all := parents + childParents + OwnParents(x, id, own);
    forall c | c in all
      ensures c in big
      ensures if Root(x, c) then x.parent == Some(all[c]) else Nearest(x, big, all[c], c)
    {
      MergeEdge(x, id, own, y, hi, nodes, parents, childNodes, childParents, c);
    }
    forall c | c in big
      ensures c in x.raw && c < hi && big[c] == x.raw[c]
      ensures c in all <==> x.parent.Some? || !Root(x, c)
    {
      MergeNode(x, id, own, y, hi, nodes, parents, childNodes, childParents, c);
    }
    forall r | r in x.raw && r < hi && r !in big
      ensures !Root(x, r) && Redundant(x, big, r)
    {
      MergeRedundant(x, id, own, y, hi, nodes, parents, childNodes, childParents, r);
    }
    forall p | p in big && !(own.Some? && p == id)
      ensures NormalAt(x.flags, big, all, p)
    {
      MergeNormal(x, id, own, y, hi, nodes, parents, childNodes, childParents, p);
    }
  }

  lemma MergeNode(x: Call, id: int, own: Option<Node>, y: Call, hi: int, nodes: map<int, Node>, parents: map<int, int>,
                  childNodes: map<int, Node>, childParents: map<int, int>, c: int)
    requires Joining(x, id, own, y, hi, nodes, parents, childNodes, childParents)
    requires c in nodes + OwnNodes(id, own) + childNodes
    ensures c in x.raw && c < hi && (nodes + OwnNodes(id, own) + childNodes)[c] == x.raw[c]
    ensures c in parents + childParents + OwnParents(x, id, own) <==> x.parent.Some? || !Root(x, c)
  {
    if c in childNodes {
      RootInside(x, id, own, y, c);
    }
  }

  lemma RootInside(x: Call, id: int, own: Option<Node>, y: Call, c: int)
    requires ChildCall(x, id, own, y) && c in y.raw
    ensures Root(x, c) <==> own.None? && Root(y, c)
  {
    if own.Some? {
      assert (id, c) in x.anc;
    }
  }

  /** What is added later never comes between an old node and its nearest ancestor. */
  lemma OldNearest(x: Call, nodes: map<int, Node>, big: map<int, Node>, id: int, p: int, c: int)
    requires Ordered(x) && Nearest(x, nodes, p, c) && c < id
    requires forall q :: q in nodes ==> q in big
    requires forall q :: q in big && q < id ==> q in nodes
    ensures Nearest(x, big, p, c)
  {
  }

  /** Nearest ancestors inside the children are nearest in the whole call. */
  lemma ChildNearest(x: Call, id: int, own: Option<Node>, y: Call, hi: int, childNodes: map<int, Node>,
                     big: map<int, Node>, p: int, c: int)
    requires Ordered(y) && ChildCall(x, id, own, y) && Fills(y, hi)
    requires Nearest(y, childNodes, p, c) && c in y.raw && p in y.raw
    requires forall q :: q in childNodes ==> q in big
    requires forall q :: q in big && y.start <= q < hi ==> q in childNodes
    ensures Nearest(x, big, p, c)
  {
    forall q | q in big && (q, c) in x.anc ensures q == p || (q, p) in x.anc {
      if (q, c) in y.anc {
        assert y.start <= q < hi;
      } else {
        assert own.Some? && q == id;
      }
    }
  }

  lemma MergeEdge(x: Call, id: int, own: Option<Node>, y: Call, hi: int, nodes: map<int, Node>, parents: map<int, int>,
                  childNodes: map<int, Node>, childParents: map<int, int>, c: int)
    requires Joining(x, id, own, y, hi, nodes, parents, childNodes, childParents)
    requires c in parents + childParents + OwnParents(x, id, own)
    ensures
      var big := nodes + OwnNodes(id, own) + childNodes;
      var all := parents + childParents + OwnParents(x, id, own);
      c in big && if Root(x, c) then x.parent == Some(all[c]) else Nearest(x, big, all[c], c)
  {
    var big := nodes + OwnNodes(id, own) + childNodes;
    if c in childParents {
      var p := childParents[c];
      RootInside(x, id, own, y, c);
      if !Root(y, c) {
        ChildNearest(x, id, own, y, hi, childNodes, big, p, c);
      } else if own.Some? {
        assert (p, c) in x.anc;
        assert Nearest(x, big, p, c);
      }
    } else if c in parents && !Root(x, c) {
      OldNearest(x, nodes, big, id, parents[c], c);
    }
  }

  lemma MergeRedundant(x: Call, id: int, own: Option<Node>, y: Call, hi: int, nodes: map<int, Node>,
                       parents: map<int, int>, childNodes: map<int, Node>, childParents: map<int, int>, r: int)
    requires Joining(x, id, own, y, hi, nodes, parents, childNodes, childParents)
    requires r in x.raw && r < hi && r !in nodes + OwnNodes(id, own) + childNodes
    ensures !Root(x, r) && Redundant(x, nodes + OwnNodes(id, own) + childNodes, r)
  {
    var big := nodes + OwnNodes(id, own) + childNodes;
    if r < id {
      forall q | q in nodes && Nearest(x, nodes, q, r) ensures Nearest(x, big, q, r) && big[q] == nodes[q] {
        OldNearest(x, nodes, big, id, q, r);
      }
      forall q | q in nodes && OnlyWayDown(x, nodes, q, r) ensures OnlyWayDown(x, big, q, r) {
        OldWayDown(x, id, own, y, hi, nodes, childNodes, q, r);
      }
    } else {
      assert r in y.raw;
      RootInside(x, id, own, y, r);
      forall q | q in childNodes && Nearest(y, childNodes, q, r)
        ensures Nearest(x, big, q, r) && big[q] == childNodes[q] {
        ChildNearest(x, id, own, y, hi, childNodes, big, q, r);
      }
      forall q | q in childNodes && OnlyWayDown(y, childNodes, q, r) ensures OnlyWayDown(x, big, q, r) {
        ChildWayDown(x, id, own, y, hi, childNodes, big, q, r);
      }
    }
  }

  /** Nothing added later lies below an old node. */
  lemma OldWayDown(x: Call, id: int, own: Option<Node>, y: Call, hi: int, nodes: map<int, Node>,
                   childNodes: map<int, Node>, q: int, r: int)
    requires Ordered(x) && Ordered(y) && ChildCall(x, id, own, y)
    requires q < id <= y.start && OnlyWayDown(x, nodes, q, r)
    requires forall d :: d in childNodes ==> d in y.raw
    ensures OnlyWayDown(x, nodes + OwnNodes(id, own) + childNodes, q, r)
  {}

  lemma ChildWayDown(x: Call, id: int, own: Option<Node>, y: Call, hi: int, childNodes: map<int, Node>,
                     big: map<int, Node>, q: int, r: int)
    requires Ordered(x) && Ordered(y) && ChildCall(x, id, own, y) && Fills(y, hi)
    requires OnlyWayDown(y, childNodes, q, r) && q in y.raw
    requires forall d :: d in big && y.start <= d ==> d in childNodes && d in y.raw
    ensures OnlyWayDown(x, big, q, r)
  {}

  /** The children of p are those it had in its own part. */
  lemma MergeChildren(x: Call, id: int, own: Option<Node>, y: Call, hi: int, nodes: map<int, Node>,
                      parents: map<int, int>, childNodes: map<int, Node>, childParents: map<int, int>, p: int, c: int)
    requires Joining(x, id, own, y, hi, nodes, parents, childNodes, childParents)
    requires p in nodes || p in childNodes
    ensures
      var all := parents + childParents + OwnParents(x, id, own);
      var ps := if p in nodes then parents else childParents;
      (c in all && all[c] == p <==> c in ps && ps[c] == p)
  {
    hide NormalAt, Redundant, OnlyChild;
    if c in childParents {
      assert Root(y, c) || Nearest(y, childNodes, childParents[c], c);
    } else if c in parents {
      assert Root(x, c) || Nearest(x, nodes, parents[c], c);
    }
  }

  lemma MergeNormal(x: Call, id: int, own: Option<Node>, y: Call, hi: int, nodes: map<int, Node>,
                    parents: map<int, int>, childNodes: map<int, Node>, childParents: map<int, int>, p: int)
    requires Joining(x, id, own, y, hi, nodes, parents, childNodes, childParents)
    requires p in nodes || p in childNodes
    ensures NormalAt(x.flags, nodes + OwnNodes(id, own) + childNodes,
                     parents + childParents + OwnParents(x, id, own), p)
  {
    var big := nodes + OwnNodes(id, own) + childNodes;
    var all := parents + childParents + OwnParents(x, id, own);
    var (ns, ps) := if p in nodes then (nodes, parents) else (childNodes, childParents);
    assert NormalAt(x.flags, ns, ps, p);
    assert big[p] == ns[p] && forall c :: c in ps ==> c in ns && c in big && big[c] == ns[c];
    hide Joining, Contracted, Nearest, Root, Redundant, SameKey, Failed;
    forall c ensures c in all && all[c] == p <==> c in ps && ps[c] == p {
      MergeChildren(x, id, own, y, hi, nodes, parents, childNodes, childParents, p, c);
    }
    forall c | OnlyChild(all, p, c) ensures OnlyChild(ps, p, c) {}
  }

  lemma JoinLists(e1: seq<Edge>, p1: map<int, int>, e2: seq<Edge>, p2: map<int, int>)
    requires Lists(e1, p1) && Lists(e2, p2) && p1.Keys !! p2.Keys
    ensures Lists(e1 + e2, p1 + p2)
  {
  }

  /** The same for the edge list. */
  lemma MergeLists(x: Call, id: int, own: Option<Node>, y: Call, hi: int, nodes: map<int, Node>, parents: map<int, int>,
                   edges: seq<Edge>, childNodes: map<int, Node>, childParents: map<int, int>, childEdges: seq<Edge>)
    requires Joining(x, id, own, y, hi, nodes, parents, childNodes, childParents)
    requires Lists(edges, parents) && Lists(childEdges, childParents)
    ensures Lists(edges + childEdges + OwnEdges(x, id, own), parents + childParents + OwnParents(x, id, own))
  {
    assert forall c :: c in parents ==> c in nodes && c < id;
    assert forall c :: c in childParents ==> c in childNodes && y.start <= c;
    JoinLists(edges, parents, childEdges, childParents);
    JoinLists(edges + childEdges, parents + childParents, OwnEdges(x, id, own), OwnParents(x, id, own));
  }

  // ---------------------------------------------------------------- reachability in the output

  /** The output has a path of edges from `a` to `b`. */
  ghost predicate Path(edges: seq<Edge>, p: seq<int>) {
    |p| >= 2 && forall i :: 0 <= i < |p| - 1 ==> (p[i], p[i + 1]) in edges
  }

  ghost predicate Reaches(edges: seq<Edge>, a: int, b: int) {
    exists p :: Path(edges, p) && p[0] == a && p[|p| - 1] == b
  }

  /** All ids of the call are handled and nothing is left to contract. */
  ghost predicate Finished(x: Call, nodes: map<int, Node>, parents: map<int, int>, edges: seq<Edge>, hi: int) {
    && Contracted(x, nodes, parents, hi, None) && Lists(edges, parents)
    && Ordered(x) && Transitive(x) && Fills(x, hi)
  }

  /** Contraction preserves ancestry among the kept nodes, in both directions. */
  lemma AncestryPreserved(x: Call, nodes: map<int, Node>, parents: map<int, int>, edges: seq<Edge>, hi: int)
    requires Finished(x, nodes, parents, edges, hi)
    ensures forall a, b :: a in nodes && b in nodes ==> (Reaches(edges, a, b) <==> (a, b) in x.anc)
  {
    forall a, b | a in nodes && b in nodes
      ensures Reaches(edges, a, b) <==> (a, b) in x.anc
    {
      if Reaches(edges, a, b) {
        var p :| Path(edges, p) && p[0] == a && p[|p| - 1] == b;
        PathIsAncestry(x, nodes, parents, edges, hi, p);
      }
      if (a, b) in x.anc {
        AncestryHasPath(x, nodes, parents, edges, hi, a, b);
      }
    }
  }

  lemma {:induction false} PathIsAncestry(x: Call, nodes: map<int, Node>, parents: map<int, int>, edges: seq<Edge>,
                                          hi: int, p: seq<int>)
    requires Finished(x, nodes, parents, edges, hi)
    requires Path(edges, p) && p[0] in nodes
    ensures (p[0], p[|p| - 1]) in x.anc
  {
    assert (p[0], p[1]) in edges;
    assert parents[p[1]] == p[0] && p[1] in parents;
    assert Nearest(x, nodes, p[0], p[1]);
    if |p| <= 2 {
    } else {
      assert p[1..][0] == p[1] && p[1] in nodes;
      PathIsAncestry(x, nodes, parents, edges, hi, p[1..]);
      assert p[1..][|p| - 2] == p[|p| - 1];
      assert (p[0], p[1]) in x.anc && (p[1], p[|p| - 1]) in x.anc;
    }
  }

  lemma {:induction false} AncestryHasPath(x: Call, nodes: map<int, Node>, parents: map<int, int>, edges: seq<Edge>,
                                           hi: int, a: int, b: int)
    requires Finished(x, nodes, parents, edges, hi)
    requires a in nodes && b in nodes && (a, b) in x.anc
    ensures Reaches(edges, a, b)
    decreases b - x.start
  {
    var p := parents[b];
    assert Nearest(x, nodes, p, b) && (p, b) in edges;
    if p == a {
      assert Path(edges, [a, b]);
    } else {
      AncestryHasPath(x, nodes, parents, edges, hi, a, p);
      ReachesStep(edges, a, p, b);
    }
  }

  lemma ReachesStep(edges: seq<Edge>, a: int, p: int, b: int)
    requires Reaches(edges, a, p) && (p, b) in edges
    ensures Reaches(edges, a, b)
  {
    var q :| Path(edges, q) && q[0] == a && q[|q| - 1] == p;
    assert Path(edges, q + [b]);
  }

  /** The document promises that failed nodes are removed; the code removes only the children of a node, so exactly
      the failed nodes without an ancestor stay. */
  lemma FailedNodesKept(x: Call, nodes: map<int, Node>, parents: map<int, int>, edges: seq<Edge>, hi: int, id: int)
    requires Finished(x, nodes, parents, edges, hi)
    requires x.parent.None? && !x.flags.includeFailedPp
    requires id in x.raw && Failed(x.raw[id])
    ensures id in nodes <==> Root(x, id)
  {
    assert id in parents && !Root(x, id) ==> Nearest(x, nodes, parents[id], id);
    assert id in parents && parents[id] in nodes ==> NormalAt(x.flags, nodes, parents, parents[id]);
  }

  /** The smallest forest on which the promise fails: one failed node alone. */
  lemma FailedRootSurvives(nodes: map<int, Node>, parents: map<int, int>, edges: seq<Edge>)
    requires var failed := Node(FAILED_PP, [], [], Pos(1, 0), Pos(1, 1), false);
      Finished(CallOf([Item(Some(failed), [])], 0, None, Flags(false, true)), nodes, parents, edges, 1)
    ensures 0 in nodes && Failed(nodes[0])
  {
    var items := [Item(Some(Node(FAILED_PP, [], [], Pos(1, 0), Pos(1, 1), false)), [])];
    assert Size(items) == 1;
    assert NodeAt(items, 0, 0) == items[0].node.value;
    AncestryOrdered(items, 0);
    FailedNodesKept(CallOf(items, 0, None, Flags(false, true)), nodes, parents, edges, 1, 0);
  }

  // ---------------------------------------------------------------- the method itself

  lemma WholeCall(items: seq<Item>, start: int, parent: Option<int>, flags: Flags)
    requires parent.Some? ==> parent.value < start
    ensures var x := CallOf(items, start, parent, flags);
      && x.start == start && x.parent == parent && x.flags == flags && x.anc == Ancestry(items, start)
      && Ordered(x) && Transitive(x) && Fills(x, start + Size(items))
  {
    AncestryOrdered(items, start);
  }

  /** Inside item k's children, the forest has the nodes and the ancestry of the children, plus item k's own node. */
  lemma ItemInside(items: seq<Item>, start: int, k: nat)
    requires k < |items|
    ensures
      var it := items[k];
      var id := start + Size(items[..k]);
      var raw, anc := Numbered(it.children, id + Own(it)), Ancestry(it.children, id + Own(it));
      && (forall b :: b in raw ==> b in Numbered(items, start) && Numbered(items, start)[b] == raw[b])
      && (forall a, b :: b in raw ==>
            ((a, b) in Ancestry(items, start) <==> (it.node.Some? && a == id) || (a, b) in anc))
  {
    hide Own, Numbered, Ancestry;
    var it := items[k];
    var id := start + Size(items[..k]);
    forall b | b in Numbered(it.children, id + Own(it))
      ensures b in Numbered(items, start) && Numbered(items, start)[b] == Numbered(it.children, id + Own(it))[b]
    {
      ItemAncestry(items, start, k, 0, b);
    }
    forall a, b | b in Numbered(it.children, id + Own(it))
      ensures (a, b) in Ancestry(items, start) <==>
              (it.node.Some? && a == id) || (a, b) in Ancestry(it.children, id + Own(it))
    {
      ItemAncestry(items, start, k, a, b);
    }
  }

  /** The call for item k's children, placed inside the whole call. */
  lemma ItemCall(items: seq<Item>, start: int, parent: Option<int>, flags: Flags, k: nat)
    requires k < |items|
    requires parent.Some? ==> parent.value < start
    ensures
      var it := items[k];
      var id := start + Size(items[..k]);
      var x := CallOf(items, start, parent, flags);
      var y := CallOf(it.children, id + Own(it), if it.node.Some? then Some(id) else parent, flags);
      var hi := start + Size(items[..k + 1]);
      && hi == y.start + Size(it.children)
      && y == CallOf(it.children, y.start, y.parent, y.flags) && y.flags == flags
      && Ordered(x) && Ordered(y) && ChildCall(x, id, it.node, y) && Fills(y, hi)
  {
    hide Ordered, Transitive, Fills, Numbered, Ancestry;
    var it := items[k];
    var id := start + Size(items[..k]);
    SizePrefix(items, k);
    WholeCall(items, start, parent, flags);
    WholeCall(it.children, id + Own(it), if it.node.Some? then Some(id) else parent, flags);
    ItemInside(items, start, k);
    if it.node.Some? {
      OwnNodeIsRoot(items, start, k);
    }
  }

  lemma NothingYet(x: Call, none: seq<Item>)
    requires Ordered(x) && none == []
    ensures Contracted(x, map[], map[], x.start + Size(none), None) && Lists([], map[])
    ensures Size(none) == 0
  {}

  /** What is kept and what is gone, on the nodes: kept nodes are unchanged; a node is gone only below another, and
      because it failed to pretty-print or repeats the goals and the text of a kept ancestor; and no edge is left
      between kept nodes that leads to a failed node, or from a node to its only child with the same goals and text. */
  ghost predicate ByNodes(raw: map<int, Node>, anc: set<(int, int)>, flags: Flags, nodes: map<int, Node>,
                          edges: seq<Edge>) {
    && (forall id :: id in nodes ==> id in raw && nodes[id] == raw[id])
    && (forall id :: id in raw && id !in nodes ==>
          && (exists a :: (a, id) in anc)
          && (|| (!flags.includeFailedPp && raw[id].pp == "<failed to pretty print>")
              || (flags.deduplicate && exists q ::
                    && q in nodes && (q, id) in anc && nodes[q].goalsBefore == raw[id].goalsBefore
                    && nodes[q].goalsAfter == raw[id].goalsAfter && nodes[q].pp == raw[id].pp)))
    && (!flags.includeFailedPp ==> forall e :: e in edges && e.0 in nodes && e.1 in nodes ==>
          nodes[e.1].pp != "<failed to pretty print>")
    && (flags.deduplicate ==> forall e ::
          e in edges && e.0 in nodes && e.1 in nodes && (forall f :: f in edges && f.0 == e.0 ==> f.1 == e.1) ==>
          !(nodes[e.0].goalsBefore == nodes[e.1].goalsBefore && nodes[e.0].goalsAfter == nodes[e.1].goalsAfter
            && nodes[e.0].pp == nodes[e.1].pp))
  }

  lemma FinishedByNodes(x: Call, nodes: map<int, Node>, parents: map<int, int>, edges: seq<Edge>, hi: int)
    requires Finished(x, nodes, parents, edges, hi)
    ensures ByNodes(x.raw, x.anc, x.flags, nodes, edges)
  {
    forall e | e in edges && e.0 in nodes && e.1 in nodes
      ensures !x.flags.includeFailedPp ==> !Failed(nodes[e.1])
      ensures x.flags.deduplicate && (forall f :: f in edges && f.0 == e.0 ==> f.1 == e.1) ==>
        !SameKey(nodes[e.0], nodes[e.1])
    {
      assert e.1 in parents && parents[e.1] == e.0;
      assert NormalAt(x.flags, nodes, parents, e.0);
      if forall f :: f in edges && f.0 == e.0 ==> f.1 == e.1 {
        forall d | d in parents && parents[d] == e.0 ensures d == e.1 {
          assert (e.0, d) in edges;
        }
        assert OnlyChild(parents, e.0, e.1);
      }
    }
    forall id | id in x.raw && id !in nodes
      ensures exists a :: (a, id) in x.anc
      ensures || (!x.flags.includeFailedPp && Failed(x.raw[id]))
              || (x.flags.deduplicate && exists q :: q in nodes && (q, id) in x.anc && SameKey(nodes[q], x.raw[id]))
    {
      assert !Root(x, id) && Redundant(x, nodes, id);
    }
  }

  lemma Finish(x: Call, nodes: map<int, Node>, parents: map<int, int>, edges: seq<Edge>, hi: int)
    requires Contracted(x, nodes, parents, hi, None) && Lists(edges, parents)
    requires Ordered(x) && Transitive(x) && Fills(x, hi)
    ensures Finished(x, nodes, parents, edges, hi)
    ensures forall a, b :: a in nodes && b in nodes ==> (Reaches(edges, a, b) <==> (a, b) in x.anc)
    ensures ByNodes(x.raw, x.anc, x.flags, nodes, edges)
  {
    AncestryPreserved(x, nodes, parents, edges, hi);
    FinishedByNodes(x, nodes, parents, edges, hi);
  }

  /** extract_nodes_and_edges: number the forest, contract every node on the way back up. */
  method ExtractNodesAndEdges(infotree: seq<Item>, parentId: Option<int>, startId: int, flags: Flags)
    returns (nodes: map<int, Node>, edges: seq<Edge>, nextId: int, ghost parents: map<int, int>)
    requires parentId.Some? ==> parentId.value < startId
    ensures nextId == startId + Size(infotree)
    ensures Finished(CallOf(infotree, startId, parentId, flags), nodes, parents, edges, nextId)
    ensures forall a, b :: a in nodes && b in nodes ==>
              (Reaches(edges, a, b) <==> (a, b) in Ancestry(infotree, startId))
    ensures ByNodes(Numbered(infotree, startId), Ancestry(infotree, startId), flags, nodes, edges)
    decreases infotree
  {
    hide ByNodes, Size, Finished, Reaches, Contracted, Lists, Transitive, NormalAt, Nearest, Redundant, Root, Ordered,
         ChildCall, Fills, Numbered, Ancestry, CallOf, Own;
    ghost var x := CallOf(infotree, startId, parentId, flags);
    WholeCall(infotree, startId, parentId, flags);
    nodes, edges, parents := map[], [], map[];
    NothingYet(x, infotree[..0]);
    nextId := startId;
    for k := 0 to |infotree|
      invariant nextId == startId + Size(infotree[..k])
      invariant Contracted(x, nodes, parents, nextId, None) && Lists(edges, parents)
    {
      var item := infotree[k];
      ghost var y := CallOf(item.children, nextId + Own(item),
                            if item.node.Some? then Some(nextId) else parentId, flags);
      ItemCall(infotree, startId, parentId, flags, k);
      nodes, edges, nextId, parents := ExtractItem(item, parentId, nextId, flags, nodes, edges, parents, x, y);
    }
    assert infotree[..|infotree|] == infotree;
    Finish(x, nodes, parents, edges, nextId);
    assert x.raw == Numbered(infotree, startId) && x.flags == flags by { CallIs(infotree, startId, parentId, flags); }
  }

  lemma CallIs(items: seq<Item>, start: int, parent: Option<int>, flags: Flags)
    ensures var x := CallOf(items, start, parent, flags);
      x.raw == Numbered(items, start) && x.anc == Ancestry(items, start) && x.flags == flags
  {}

  /** The loop body of extract_nodes_and_edges for one item. */
  method ExtractItem(item: Item, parentId: Option<int>, currentId: int, flags: Flags, nodes: map<int, Node>,
                     edges: seq<Edge>, ghost parents: map<int, int>, ghost x: Call, ghost y: Call)
    returns (nodes': map<int, Node>, edges': seq<Edge>, nextId: int, ghost parents': map<int, int>)
    requires x.parent == parentId && x.flags == flags
    requires x.start <= currentId && Ordered(x) && Transitive(x) && Ordered(y) && ChildCall(x, currentId, item.node, y)
    requires Fills(y, y.start + Size(item.children))
    requires y == CallOf(item.children, y.start, y.parent, flags)
    requires Contracted(x, nodes, parents, currentId, None) && Lists(edges, parents)
    ensures nextId == y.start + Size(item.children)
    ensures Contracted(x, nodes', parents', nextId, None) && Lists(edges', parents')
    decreases item
  {
    hide Contracted, Lists, Transitive, NormalAt, Nearest, Redundant, Root, Numbered, Ancestry, Ordered, ChildCall,
         Fills, Size, Reaches, Finished, Joining;
    ChildCallArguments(x, currentId, item.node, y);
    var childNodes, childEdges;
    ghost var childParents;
    if item.node.Some? {
      var nodeId := currentId;
      nextId := currentId + 1;
      nodes' := nodes[nodeId := item.node.value];
      childNodes, childEdges, nextId, childParents := ExtractNodesAndEdges(item.children, Some(nodeId), nextId, flags);
      nodes', edges' := nodes' + childNodes, edges + childEdges;
      if parentId.Some? {
        edges' := edges' + [(parentId.value, nodeId)];
      }
    } else {
      childNodes, childEdges, nextId, childParents := ExtractNodesAndEdges(item.children, parentId, currentId, flags);
      nodes', edges' := nodes + childNodes, edges + childEdges;
    }
    parents' := parents + childParents + OwnParents(x, currentId, item.node);
    ReadyToJoin(x, currentId, item.node, y, nextId, nodes, parents, childNodes, childParents, childEdges);
    Merge(x, currentId, item.node, y, nextId, nodes, parents, childNodes, childParents);
    MergeLists(x, currentId, item.node, y, nextId, nodes, parents, edges, childNodes, childParents, childEdges);
    assert nodes' == nodes + OwnNodes(currentId, item.node) + childNodes;
    assert edges' == edges + childEdges + OwnEdges(x, currentId, item.node);
    if item.node.Some? {
      nodes', edges', parents' := ContractNode(nodes', edges', currentId, flags, x, parents', nextId);
    }
  }

  lemma ChildCallArguments(x: Call, id: int, own: Option<Node>, y: Call)
    requires ChildCall(x, id, own, y) && Ordered(x) && x.start <= id
    ensures y.flags == x.flags && y.start == id + (if own.Some? then 1 else 0)
    ensures y.parent == if own.Some? then Some(id) else x.parent
    ensures y.parent.Some? ==> y.parent.value < y.start
  {
    hide Root;
  }

  lemma ReadyToJoin(x: Call, id: int, own: Option<Node>, y: Call, hi: int, nodes: map<int, Node>,
                    parents: map<int, int>, childNodes: map<int, Node>, childParents: map<int, int>,
                    childEdges: seq<Edge>)
    requires Ordered(x) && Ordered(y) && ChildCall(x, id, own, y) && Fills(y, hi) && x.start <= id <= y.start <= hi
    requires Contracted(x, nodes, parents, id, None) && Finished(y, childNodes, childParents, childEdges, hi)
    ensures Joining(x, id, own, y, hi, nodes, parents, childNodes, childParents) && Lists(childEdges, childParents)
  {
    hide Contracted, Lists, Ordered, ChildCall, Fills;
  }
}
