/** Grouping step items by environment and header, and dealing each group out to lanes (exec_backend_utils.py). */
module Lanes {
  import opened Lifecycle

  /** A resolved step item: its place in the request, and what its state was made in. */
  datatype Resolved = Resolved(index: nat, nodeId: string, tactics: seq<string>, item: ItemId, envProfile: string,
                               headerHash: string)

  datatype Group = Group(key: (string, string), items: seq<Resolved>)

  function KeyOf(r: Resolved): (string, string) {
    (r.envProfile, r.headerHash)
  }

  // ---------------------------------------------------------------- groups

  /** The items of one key, in request order. */
  function OfKey(items: seq<Resolved>, key: (string, string)): seq<Resolved> {
    if items == [] then []
    else
      var last := items[|items| - 1];
      OfKey(items[..|items| - 1], key) + if KeyOf(last) == key then [last] else []
  }

  /** The keys, in the order of their first items. */
  function FirstKeys(items: seq<Resolved>): seq<(string, string)> {
    if items == [] then []
    else
      var keys, key := FirstKeys(items[..|items| - 1]), KeyOf(items[|items| - 1]);
      if key in keys then keys else keys + [key]
  }

  function GroupsOf(items: seq<Resolved>): seq<Group> {
    seq(|FirstKeys(items)|, g requires 0 <= g < |FirstKeys(items)| =>
        Group(FirstKeys(items)[g], OfKey(items, FirstKeys(items)[g])))
  }

  lemma {:induction false} FirstKeysHas(items: seq<Resolved>, key: (string, string))
    ensures key in FirstKeys(items) <==> exists i :: 0 <= i < |items| && KeyOf(items[i]) == key
    ensures key !in FirstKeys(items) ==> OfKey(items, key) == []
  {
    if items == [] {
    } else {
      var rest := items[..|items| - 1];
      FirstKeysHas(rest, key);
      if i :| 0 <= i < |items| && KeyOf(items[i]) == key {
        assert i < |rest| ==> KeyOf(rest[i]) == key;
      }
      if key in FirstKeys(rest) {
        var j :| 0 <= j < |rest| && KeyOf(rest[j]) == key;
        assert KeyOf(items[j]) == key;
      }
    }
  }

  lemma {:induction false} FirstKeysDistinct(items: seq<Resolved>)
    ensures forall g, h :: 0 <= g < h < |FirstKeys(items)| ==> FirstKeys(items)[g] != FirstKeys(items)[h]
  {
    if items == [] {
    } else {
      var keys := FirstKeys(items[..|items| - 1]);
      FirstKeysDistinct(items[..|items| - 1]);
      assert forall g :: 0 <= g < |keys| ==> keys[g] in keys;
    }
  }

  lemma FirstKeysOk(items: seq<Resolved>)
    ensures forall g, h :: 0 <= g < h < |FirstKeys(items)| ==> FirstKeys(items)[g] != FirstKeys(items)[h]
    ensures forall key :: key in FirstKeys(items) <==> exists i :: 0 <= i < |items| && KeyOf(items[i]) == key
    ensures forall key :: key !in FirstKeys(items) ==> OfKey(items, key) == []
  {
    FirstKeysDistinct(items);
    forall key
      ensures key in FirstKeys(items) <==> exists i :: 0 <= i < |items| && KeyOf(items[i]) == key
      ensures key !in FirstKeys(items) ==> OfKey(items, key) == []
    {
      FirstKeysHas(items, key);
    }
  }

  lemma {:induction false} OfKeyOk(items: seq<Resolved>, key: (string, string))
    ensures forall r :: r in OfKey(items, key) ==> KeyOf(r) == key && r in items
  {
    if items == [] {
    } else {
      OfKeyOk(items[..|items| - 1], key);
    }
  }

  lemma {:induction false} OfKeyOrdered(items: seq<Resolved>, key: (string, string))
    requires forall i, j :: 0 <= i < j < |items| ==> items[i].index < items[j].index
    ensures forall i, j :: 0 <= i < j < |OfKey(items, key)| ==> OfKey(items, key)[i].index < OfKey(items, key)[j].index
  {
    if items == [] {
    } else {
      var rest := items[..|items| - 1];
      OfKeyOrdered(rest, key);
      OfKeyOk(rest, key);
      var same := OfKey(rest, key);
      forall i | 0 <= i < |same| ensures same[i].index < items[|items| - 1].index {
        assert same[i] in rest;
      }
    }
  }

  /** Each key has items, and the keys come in the order of their first ones. */
  lemma {:induction false} FirstsOrdered(items: seq<Resolved>)
    requires forall i, j :: 0 <= i < j < |items| ==> items[i].index < items[j].index
    ensures forall g :: 0 <= g < |FirstKeys(items)| ==> OfKey(items, FirstKeys(items)[g]) != []
    ensures forall g, h :: 0 <= g < h < |FirstKeys(items)| ==>
      OfKey(items, FirstKeys(items)[g])[0].index < OfKey(items, FirstKeys(items)[h])[0].index
  {
    if items == [] {
    } else {
      var rest, last := items[..|items| - 1], items[|items| - 1];
      FirstsOrdered(rest);
      FirstKeysOk(rest);
      var keys, all := FirstKeys(rest), FirstKeys(items);
      assert all == if KeyOf(last) in keys then keys else keys + [KeyOf(last)];
      forall g | 0 <= g < |keys|
        ensures OfKey(items, keys[g]) != [] && OfKey(items, keys[g])[0] == OfKey(rest, keys[g])[0]
        ensures OfKey(items, keys[g])[0].index < last.index
      {
        OfKeyOk(rest, keys[g]);
        assert OfKey(rest, keys[g])[0] in OfKey(rest, keys[g]);
      }
    }
  }

  /** One group, on the items: those of its environment and header, in request order. */
  lemma GroupMeans(items: seq<Resolved>, g: nat)
    requires g < |GroupsOf(items)|
    ensures
      var group := GroupsOf(items)[g];
      && (forall r :: r in group.items <==> r in items && (r.envProfile, r.headerHash) == group.key)
      && ((forall i, j :: 0 <= i < j < |items| ==> items[i].index < items[j].index) ==>
            forall i, j :: 0 <= i < j < |group.items| ==> group.items[i].index < group.items[j].index)
  {
    var key := FirstKeys(items)[g];
    OfKeyOk(items, key);
    if forall i, j :: 0 <= i < j < |items| ==> items[i].index < items[j].index {
      OfKeyOrdered(items, key);
    }
    forall r | r in items && KeyOf(r) == key ensures r in OfKey(items, key) {
      var k :| 0 <= k < |items| && items[k] == r;
      OfKeyHas(items, k);
    }
    hide OfKey, FirstKeys;
  }

  /** The groups of items in request order: one per environment and header, in the order of their first items. */
  lemma GroupsMean(items: seq<Resolved>)
    requires forall i, j :: 0 <= i < j < |items| ==> items[i].index < items[j].index
    ensures
      var groups := GroupsOf(items);
      && (forall r :: r in items ==> exists g :: 0 <= g < |groups| && groups[g].key == (r.envProfile, r.headerHash))
      && (forall g :: 0 <= g < |groups| ==> groups[g].items != [])
      && (forall g, h :: 0 <= g < h < |groups| ==>
            groups[g].key != groups[h].key && groups[g].items[0].index < groups[h].items[0].index)
  {
    var groups, keys := GroupsOf(items), FirstKeys(items);
    FirstKeysOk(items);
    FirstsOrdered(items);
    assert forall g :: 0 <= g < |keys| ==> groups[g] == Group(keys[g], OfKey(items, keys[g]));
    hide OfKey, FirstKeys, GroupsOf;
    forall r | r in items ensures exists g :: 0 <= g < |groups| && groups[g].key == (r.envProfile, r.headerHash) {
      var k :| 0 <= k < |items| && items[k] == r;
      assert KeyOf(items[k]) in keys;
      var g :| 0 <= g < |keys| && keys[g] == KeyOf(r);
    }
  }

  lemma {:induction false} OfKeyHas(items: seq<Resolved>, k: nat)
    requires k < |items|
    ensures items[k] in OfKey(items, KeyOf(items[k]))
  {
    if k == |items| - 1 {
    } else {
      OfKeyHas(items[..|items| - 1], k);
    }
  }

  /** group_items_by_compatibility. */
  method GroupItems(items: seq<Resolved>) returns (groups: seq<Group>)
    ensures groups == GroupsOf(items)
  {
    var keys: seq<(string, string)> := [];
    var members: map<(string, string), seq<Resolved>> := map[];
    for i := 0 to |items|
      invariant keys == FirstKeys(items[..i])
      invariant forall k :: k in members <==> k in keys
      invariant forall k :: k in keys ==> members[k] == OfKey(items[..i], k)
    {
      var key := KeyOf(items[i]);
      assert items[..i + 1][..i] == items[..i] && items[..i + 1][i] == items[i];
      FirstKeysOk(items[..i]);
      if key !in members {
        keys := keys + [key];
        members := members[key := []];
      }
      members := members[key := members[key] + [items[i]]];
    }
    assert items[..|items|] == items;
    groups := seq(|keys|, g requires 0 <= g < |keys| && keys[g] in members => Group(keys[g], members[keys[g]]));
  }

  // ---------------------------------------------------------------- lanes

  function LaneCount(count: nat, maxLanes: int): nat {
    if count == 0 then 0 else if maxLanes <= 0 then count else if maxLanes < count then maxLanes else count
  }

  /** The items dealt to lane j of n. */
  function LaneOf(items: seq<Resolved>, j: nat, n: nat): seq<Resolved>
    requires n > 0
  {
    if items == [] then []
    else LaneOf(items[..|items| - 1], j, n) + if (|items| - 1) % n == j then [items[|items| - 1]] else []
  }

  function Dealt(items: seq<Resolved>, n: nat): (lanes: seq<seq<Resolved>>)
    requires n > 0
    ensures |lanes| == n
  {
    seq(n, j requires 0 <= j < n => LaneOf(items, j, n))
  }

  function LanesOf(items: seq<Resolved>, maxLanes: int): seq<seq<Resolved>> {
    if items == [] then [] else Dealt(items, LaneCount(|items|, maxLanes))
  }

  /** distribute_items_across_lanes. */
  method Distribute(items: seq<Resolved>, maxLanes: int) returns (lanes: seq<seq<Resolved>>)
    ensures lanes == LanesOf(items, maxLanes)
    ensures |lanes| == if 0 < maxLanes < |items| then maxLanes else |items|
    ensures forall j :: 0 <= j < |lanes| ==> lanes[j] == LaneOf(items, j, |lanes|)
  {
    var n := LaneCount(|items|, maxLanes);
    if n == 0 {
      return [];
    }
    lanes := seq(n, _ => []);
    for i := 0 to |items|
      invariant lanes == Dealt(items[..i], n)
    {
      DealtNext(items[..i], items[i], n);
      assert items[..i + 1] == items[..i] + [items[i]];
      lanes := lanes[i % n := lanes[i % n] + [items[i]]];
    }
    assert items[..|items|] == items;
  }

  lemma DealtNext(items: seq<Resolved>, r: Resolved, n: nat)
    requires n > 0
    ensures |items| % n < n
    ensures Dealt(items + [r], n) == Dealt(items, n)[|items| % n := Dealt(items, n)[|items| % n] + [r]]
  {
    assert (items + [r])[..|items|] == items;
    var m := |items| % n;
    forall j | 0 <= j < n ensures Dealt(items + [r], n)[j] == Dealt(items, n)[j] + if m == j then [r] else [] {}
    hide Dealt, LaneOf;
    assert forall j :: 0 <= j < n && j != m ==> Dealt(items, n)[j] + [] == Dealt(items, n)[j];
  }

  // ---------------------------------------------------------------- nothing is lost or repeated

  function Flat(lanes: seq<seq<Resolved>>): seq<Resolved> {
    if lanes == [] then [] else lanes[0] + Flat(lanes[1..])
  }

  lemma {:induction false} FlatAppend(a: seq<seq<Resolved>>, b: seq<seq<Resolved>>)
    ensures Flat(a + b) == Flat(a) + Flat(b)
  {
    if a == [] {
      assert a + b == b;
    } else {
      var rest := a[1..] + b;
      assert (a + b)[0] == a[0] && (a + b)[1..] == rest;
      assert Flat(a + b) == a[0] + Flat(rest);
      FlatAppend(a[1..], b);
    }
  }

  lemma {:induction false} FlatGrow(lanes: seq<seq<Resolved>>, j: nat, r: Resolved)
    requires j < |lanes|
    ensures multiset(Flat(lanes[j := lanes[j] + [r]])) == multiset(Flat(lanes)) + multiset{r}
  {
    if j == 0 {
      assert lanes[0 := lanes[0] + [r]][1..] == lanes[1..];
    } else {
      FlatGrow(lanes[1..], j - 1, r);
      assert lanes[j := lanes[j] + [r]][1..] == lanes[1..][j - 1 := lanes[j] + [r]];
    }
  }

  lemma {:induction false} FlatEmpty(lanes: seq<seq<Resolved>>)
    requires forall j :: 0 <= j < |lanes| ==> lanes[j] == []
    ensures Flat(lanes) == []
  {
    if lanes == [] {
    } else {
      FlatEmpty(lanes[1..]);
    }
  }

  /** Dealing neither loses nor repeats an item. */
  lemma {:induction false} DealtKeeps(items: seq<Resolved>, n: nat)
    requires n > 0
    ensures multiset(Flat(Dealt(items, n))) == multiset(items)
  {
    if items == [] {
      FlatEmpty(Dealt(items, n));
    } else {
      var rest, last := items[..|items| - 1], items[|items| - 1];
      DealtKeeps(rest, n);
      assert items == rest + [last];
      DealtNext(rest, last, n);
      FlatGrow(Dealt(rest, n), |rest| % n, last);
    }
  }

  function ItemsOf(groups: seq<Group>): seq<seq<Resolved>> {
    seq(|groups|, g requires 0 <= g < |groups| => groups[g].items)
  }

  lemma GroupsNext(items: seq<Resolved>, last: Resolved)
    ensures
      var before, keys := ItemsOf(GroupsOf(items)), FirstKeys(items);
      && |before| == |keys|
      && (KeyOf(last) !in keys ==> ItemsOf(GroupsOf(items + [last])) == before + [[last]])
      && (forall g :: 0 <= g < |keys| && keys[g] == KeyOf(last) ==>
          ItemsOf(GroupsOf(items + [last])) == before[g := before[g] + [last]])
  {
    FirstKeysOk(items);
    var all, key := items + [last], KeyOf(last);
    assert all[..|items|] == items && all[|items|] == last;
    assert forall k :: OfKey(all, k) == OfKey(items, k) + if key == k then [last] else [];
    var before, after := ItemsOf(GroupsOf(items)), ItemsOf(GroupsOf(all));
    assert forall g :: 0 <= g < |before| ==> before[g] == OfKey(items, FirstKeys(items)[g]);
    assert forall g :: 0 <= g < |after| ==> after[g] == OfKey(all, FirstKeys(all)[g]);
    var keys := FirstKeys(items);
    assert FirstKeys(all) == if key in keys then keys else keys + [key];
    assert key !in keys ==> OfKey(all, key) == [last];
    hide OfKey, FirstKeys, GroupsOf, ItemsOf;
    if key !in keys {
      assert forall g :: 0 <= g < |before| ==> after[g] == before[g] + [] == before[g];
    } else {
      assert forall g :: 0 <= g < |before| && keys[g] != key ==> after[g] == before[g] + [] == before[g];
    }
  }

  /** Grouping neither loses nor repeats an item. */
  lemma {:induction false} GroupsKeep(items: seq<Resolved>)
    ensures multiset(Flat(ItemsOf(GroupsOf(items)))) == multiset(items)
  {
    if items == [] {
    } else {
      var rest, last := items[..|items| - 1], items[|items| - 1];
      GroupsKeep(rest);
      assert items == rest + [last];
      GroupsNext(rest, last);
      hide GroupsOf, ItemsOf;
      var before := ItemsOf(GroupsOf(rest));
      if KeyOf(last) in FirstKeys(rest) {
        var g :| 0 <= g < |FirstKeys(rest)| && FirstKeys(rest)[g] == KeyOf(last);
        FlatGrow(before, g, last);
      } else {
        FlatAppend(before, [[last]]);
        assert Flat([[last]]) == [last] + Flat([]);
      }
    }
  }

  /** Round robin keeps the lanes balanced: with q full rounds and r items left over, the first r lanes have one
      more. */
  lemma {:induction false} LanesBalanced(items: seq<Resolved>, j: nat, n: nat, q: nat, r: nat)
    requires j < n && r < n && |items| == q * n + r
    ensures |LaneOf(items, j, n)| == q + if j < r then 1 else 0
  {
    if items != [] {
      var rest := items[..|items| - 1];
      if r > 0 {
        LanesBalanced(rest, j, n, q, r - 1);
        RemainderOf(|items| - 1, n, q, r - 1);
      } else {
        assert q > 0;
        assert q * n == (q - 1) * n + n;
        LanesBalanced(rest, j, n, q - 1, n - 1);
        RemainderOf(|items| - 1, n, q - 1, n - 1);
      }
    } else {
      AtLeast(q, 0, n);
    }
  }

  /** Item q * n + j is the q-th item of lane j. */
  lemma {:induction false} LaneHas(items: seq<Resolved>, q: nat, j: nat, n: nat, i: nat)
    requires j < n && i == q * n + j && i < |items|
    ensures q < |LaneOf(items, j, n)| && LaneOf(items, j, n)[q] == items[i]
  {
    var rest := items[..|items| - 1];
    if i == |rest| {
      LanesBalanced(rest, j, n, q, j);
      RemainderOf(i, n, q, j);
    } else {
      LaneHas(rest, q, j, n, i);
    }
  }

  lemma {:induction false} AtLeast(a: int, b: int, n: nat)
    ensures a > b ==> a * n >= b * n + n
    decreases a - b
  {
    if a <= b {
    } else {
      assert a * n == (a - 1) * n + n;
      AtLeast(a - 1, b, n);
    }
  }

  lemma RemainderOf(m: nat, n: nat, q: nat, r: nat)
    requires r < n && m == q * n + r
    ensures m % n == r
  {
    assert m == m / n * n + m % n;
    AtLeast(m / n, q, n);
    AtLeast(q, m / n, n);
  }
}
