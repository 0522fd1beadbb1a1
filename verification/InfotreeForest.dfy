/** The input of the extraction (infotree.py): a forest of Lean infotree items. Every item that carries a node gets
    the next preorder id; ancestry between nodes looks through the items that carry none. */
module InfotreeForest {
  import opened Wrappers

  /** A source position, compared lexicographically. */
  datatype Pos = Pos(line: int, col: int)

  datatype Node = Node(pp: string, goalsBefore: seq<string>, goalsAfter: seq<string>,
                       start: Pos, finish: Pos, synthetic: bool)

  /** An infotree item. A missing, non-list or empty "children" entry is []. */
  datatype Item = Item(node: Option<Node>, children: seq<Item>)

  // ---------------------------------------------------------------- the input forest

  function Own(it: Item): nat {
    if it.node.Some? then 1 else 0
  }

  /** How many nodes a forest holds. */
  function Size(items: seq<Item>): nat {
    if items == [] then 0 else Own(items[0]) + Size(items[0].children) + Size(items[1..])
  }

  /** The node that preorder numbering from `start` gives the number `id`. */
  function NodeAt(items: seq<Item>, start: int, id: int): Node
    requires start <= id < start + Size(items)
  {
    var it := items[0];
    var kids := start + Own(it);
    var next := kids + Size(it.children);
    if id < kids then it.node.value
    else if id < next then NodeAt(it.children, kids, id)
    else NodeAt(items[1..], next, id)
  }

  /** Node `a` is a proper ancestor of node `b`; items without a node are transparent. */
  ghost predicate Anc(items: seq<Item>, start: int, a: int, b: int) {
    items != [] &&
    var it := items[0];
    var kids := start + Own(it);
    var next := kids + Size(it.children);
    (it.node.Some? && a == start && kids <= b < next)
    || Anc(it.children, kids, a, b)
    || Anc(items[1..], next, a, b)
  }

  lemma {:induction false} AncRange(items: seq<Item>, start: int, a: int, b: int)
    requires Anc(items, start, a, b)
    ensures start <= a < b < start + Size(items)
  {
    var it := items[0];
    var kids := start + Own(it);
    var next := kids + Size(it.children);
    if Anc(it.children, kids, a, b) {
      AncRange(it.children, kids, a, b);
    } else if Anc(items[1..], next, a, b) {
      AncRange(items[1..], next, a, b);
    }
  }

  /** Where the descendant lies decides which disjunct of Anc can hold. */
  lemma AncSplit(items: seq<Item>, start: int, a: int, b: int)
    requires items != []
    ensures
      var it := items[0];
      var kids := start + Own(it);
      var next := kids + Size(it.children);
      Anc(items, start, a, b) <==>
        if b < kids then false
        else if b < next then (it.node.Some? && a == start) || Anc(it.children, kids, a, b)
        else Anc(items[1..], next, a, b)
  {
    var it := items[0];
    var kids := start + Own(it);
    var next := kids + Size(it.children);
    if Anc(it.children, kids, a, b) {
      AncRange(it.children, kids, a, b);
    }
    if Anc(items[1..], next, a, b) {
      AncRange(items[1..], next, a, b);
    }
  }

  lemma {:induction false} AncTransitive(items: seq<Item>, start: int, a: int, b: int, c: int)
    requires Anc(items, start, a, b) && Anc(items, start, b, c)
    ensures Anc(items, start, a, c)
  {
    var it := items[0];
    var kids := start + Own(it);
    var next := kids + Size(it.children);
    AncRange(items, start, b, c);
    AncSplit(items, start, a, b);
    AncSplit(items, start, b, c);
    AncSplit(items, start, a, c);
    if c < next {
      if !(it.node.Some? && a == start) {
        AncTransitive(it.children, kids, a, b, c);
      }
    } else {
      AncRange(items[1..], next, b, c);
      AncTransitive(items[1..], next, a, b, c);
    }
  }

  lemma {:induction false} SizePrefix(items: seq<Item>, k: nat)
    requires k < |items|
    ensures Size(items[..k + 1]) == Size(items[..k]) + Own(items[k]) + Size(items[k].children)
    ensures Size(items[..k + 1]) <= Size(items)
  {
    if k == 0 {
      assert items[..1][1..] == [];
      assert items[..1][0] == items[0];
    } else {
      SizePrefix(items[1..], k - 1);
      assert items[..k + 1][1..] == items[1..][..k];
      assert items[..k][1..] == items[1..][..k - 1];
    }
  }

  lemma FirstItemAnc(items: seq<Item>, start: int, a: int, b: int)
    requires items != [] && start <= b < start + Own(items[0]) + Size(items[0].children)
    ensures
      var it := items[0];
      var kids := start + Own(it);
      Anc(items, start, a, b) <==>
        (it.node.Some? && a == start && kids <= b) || Anc(it.children, kids, a, b)
  {
    AncSplit(items, start, a, b);
    if Anc(items[0].children, start + Own(items[0]), a, b) {
      AncRange(items[0].children, start + Own(items[0]), a, b);
    }
  }

  /** Inside the ids of item k, ancestry is ancestry inside that item. */
  lemma {:induction false} ItemAnc(items: seq<Item>, start: int, k: nat, a: int, b: int)
    requires k < |items|
    requires start + Size(items[..k]) <= b < start + Size(items[..k + 1])
    ensures
      var it := items[k];
      var id := start + Size(items[..k]);
      var kids := id + Own(it);
      Anc(items, start, a, b) <==>
        (it.node.Some? && a == id && kids <= b) || Anc(it.children, kids, a, b)
  {
    hide Anc;
    SizePrefix(items, k);
    if k == 0 {
      assert items[..0] == [] && Size(items[..0]) == 0;
      FirstItemAnc(items, start, a, b);
    } else {
      assert items[..k + 1][1..] == items[1..][..k];
      assert items[..k][1..] == items[1..][..k - 1];
      AncSplit(items, start, a, b);
      ItemAnc(items[1..], start + Own(items[0]) + Size(items[0].children), k - 1, a, b);
    }
  }

  lemma {:induction false} ItemNode(items: seq<Item>, start: int, k: nat, b: int)
    requires k < |items|
    requires start + Size(items[..k]) <= b < start + Size(items[..k + 1])
    ensures b < start + Size(items)
    ensures
      var it := items[k];
      var kids := start + Size(items[..k]) + Own(it);
      && kids + Size(it.children) == start + Size(items[..k + 1])
      && NodeAt(items, start, b) == (if b < kids then it.node.value else NodeAt(it.children, kids, b))
  {
    SizePrefix(items, k);
    if k == 0 {
    } else {
      assert items[..k + 1][1..] == items[1..][..k];
      assert items[..k][1..] == items[1..][..k - 1];
      ItemNode(items[1..], start + Own(items[0]) + Size(items[0].children), k - 1, b);
    }
  }

  // ---------------------------------------------------------------- the forest as a relation

  function Numbered(items: seq<Item>, start: int): map<int, Node> {
    map id | start <= id < start + Size(items) :: NodeAt(items, start, id)
  }

  ghost function Ancestry(items: seq<Item>, start: int): set<(int, int)> {
    set a, b | start <= a < start + Size(items) && start <= b < start + Size(items) && Anc(items, start, a, b) :: (a, b)
  }

  lemma AncestryIsAnc(items: seq<Item>, start: int, a: int, b: int)
    ensures (a, b) in Ancestry(items, start) <==> Anc(items, start, a, b)
  {
    if Anc(items, start, a, b) {
      AncRange(items, start, a, b);
    }
  }

  lemma AncestryOrdered(items: seq<Item>, start: int)
    ensures forall a, b :: (a, b) in Ancestry(items, start) ==> start <= a < b < start + Size(items)
    ensures forall a, b, c :: (a, b) in Ancestry(items, start) && (b, c) in Ancestry(items, start)
              ==> (a, c) in Ancestry(items, start)
  {
    forall a, b | (a, b) in Ancestry(items, start) ensures start <= a < b < start + Size(items) {
      AncRange(items, start, a, b);
    }
    forall a, b, c | (a, b) in Ancestry(items, start) && (b, c) in Ancestry(items, start)
      ensures (a, c) in Ancestry(items, start)
    {
      AncTransitive(items, start, a, b, c);
      AncestryIsAnc(items, start, a, c);
    }
  }

  /** Item k's own node is a root of the forest. */
  lemma OwnNodeIsRoot(items: seq<Item>, start: int, k: nat)
    requires k < |items| && items[k].node.Some?
    ensures var id := start + Size(items[..k]);
      && id in Numbered(items, start) && Numbered(items, start)[id] == items[k].node.value
      && forall a :: (a, id) !in Ancestry(items, start)
  {
    var id := start + Size(items[..k]);
    SizePrefix(items, k);
    ItemNode(items, start, k, id);
    forall a ensures (a, id) !in Ancestry(items, start) {
      ItemAnc(items, start, k, a, id);
      AncestryIsAnc(items, start, a, id);
      AncestryIsAnc(items[k].children, id + 1, a, id);
    }
  }

  /** A node numbered inside item k's children sees item k's own node above the ancestors it has inside the children,
      and nothing else. */
  lemma ItemAncestry(items: seq<Item>, start: int, k: nat, a: int, b: int)
    requires k < |items|
    requires var kids := start + Size(items[..k]) + Own(items[k]);
      b in Numbered(items[k].children, kids)
    ensures
      var it := items[k];
      var id := start + Size(items[..k]);
      var kids := id + Own(it);
      && b in Numbered(items, start) && Numbered(items, start)[b] == Numbered(it.children, kids)[b]
      && ((a, b) in Ancestry(items, start) <==> (it.node.Some? && a == id) || (a, b) in Ancestry(it.children, kids))
  {
    SizePrefix(items, k);
    ItemNode(items, start, k, b);
    ItemAnc(items, start, k, a, b);
    AncestryIsAnc(items, start, a, b);
    AncestryIsAnc(items[k].children, start + Size(items[..k]) + Own(items[k]), a, b);
  }
}
