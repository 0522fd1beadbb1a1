/** The filesystem-backed store of proof states (state_store.py): records in memory, their index by item, pins,
    deletion and garbage collection. */
module StateStore {
  import opened Wrappers
  import opened MapSum
  import opened Lifecycle
  import opened StateFiles

  // ---------------------------------------------------------------- pins

  function Pin(pins: map<Token, nat>, t: Token): map<Token, nat> {
    pins[t := (if t in pins then pins[t] else 0) + 1]
  }

  function Unpin(pins: map<Token, nat>, t: Token): map<Token, nat> {
    if t !in pins then pins
    else if pins[t] <= 1 then pins - {t}
    else pins[t := pins[t] - 1]
  }

  // ---------------------------------------------------------------- the index by item

  function OwnerOf(records: Records): map<Token, ItemId> {
    map t | t in records :: records[t].itemId
  }

  function TokensOf(records: Records, item: ItemId): set<Token> {
    set t | t in records && records[t].itemId == item
  }

  /** Records grouped by item, without empty groups. */
  function Grouped(records: Records): map<ItemId, set<Token>> {
    map i | i in (set t | t in records :: records[t].itemId) :: TokensOf(records, i)
  }

  lemma GroupedAdd(records: Records, t: Token, r: StateRecord)
    requires t !in records || records[t].itemId == r.itemId
    ensures Grouped(records[t := r]) == Grouped(records)[r.itemId := TokensOf(records, r.itemId) + {t}]
  {
    var records' := records[t := r];
    assert TokensOf(records', r.itemId) == TokensOf(records, r.itemId) + {t};
    forall i | i != r.itemId ensures TokensOf(records', i) == TokensOf(records, i) {}
    assert r.itemId in Grouped(records') by { assert t in records'; }
    forall i | i in Grouped(records) ensures i in Grouped(records') {
      var u :| u in records && records[u].itemId == i;
      assert u in records' && records'[u].itemId == i;
    }
    forall i | i in Grouped(records') && i != r.itemId ensures i in Grouped(records) {
      var u :| u in records' && records'[u].itemId == i;
      assert u in records && records[u].itemId == i;
    }
  }

  lemma GroupedRemove(records: Records, t: Token)
    requires t in records
    ensures
      var i, rest := records[t].itemId, TokensOf(records, records[t].itemId) - {t};
      Grouped(records - {t}) == if rest == {} then Grouped(records) - {i} else Grouped(records)[i := rest]
  {
    var records', i := records - {t}, records[t].itemId;
    var rest := TokensOf(records, i) - {t};
    assert TokensOf(records', i) == rest;
    forall j | j != i ensures TokensOf(records', j) == TokensOf(records, j) {}
    forall j | j in Grouped(records) && j != i ensures j in Grouped(records') {
      var u :| u in records && records[u].itemId == j;
      assert u in records' && records'[u].itemId == j;
    }
    forall j | j in Grouped(records') ensures j in Grouped(records) && TokensOf(records', j) != {} {
      var u :| u in records' && records'[u].itemId == j;
      assert u in records && u in TokensOf(records', j);
    }
    if rest != {} {
      var u :| u in rest;
      assert u in records' && records'[u].itemId == i;
    }
  }

  /** The update put and rehydrate make to the index. */
  lemma GroupedPut(records: Records, t: Token, r: StateRecord)
    requires t !in records
    ensures Grouped(records[t := r]) ==
            Grouped(records)[r.itemId := (if r.itemId in Grouped(records) then Grouped(records)[r.itemId] else {})
                + {t}]
  {
    GroupedAdd(records, t, r);
    if r.itemId !in Grouped(records) {
      assert forall u :: u in records ==> records[u].itemId in Grouped(records);
      assert TokensOf(records, r.itemId) == {};
    }
  }

  /** A changed record of the same item leaves the index alone. */
  lemma GroupedTouch(records: Records, t: Token, r: StateRecord)
    requires t in records && records[t].itemId == r.itemId
    ensures Grouped(records[t := r]) == Grouped(records)
  {
    GroupedAdd(records, t, r);
    assert r.itemId in Grouped(records) && TokensOf(records, r.itemId) + {t} == TokensOf(records, r.itemId);
  }

  // ---------------------------------------------------------------- sizes

  function Sizes(records: Records): map<Token, nat> {
    map t | t in records :: records[t].sizeBytes
  }

  ghost function TotalBytes(records: Records): nat {
    Sum(Sizes(records))
  }

  /** The bytes of the records of some tokens. */
  ghost function BytesOf(records: Records, tokens: set<Token>): nat {
    Sum(On(Sizes(records), tokens))
  }

  lemma TotalWithout(records: Records, t: Token)
    requires t in records
    ensures TotalBytes(records) == records[t].sizeBytes + TotalBytes(records - {t})
  {
    SumSplit(Sizes(records), t);
    assert Sizes(records) - {t} == Sizes(records - {t});
  }

  // ---------------------------------------------------------------- the store as it runs

  ghost predicate Keyed(records: Records) {
    forall t :: t in records ==> records[t].token == t
  }

  ghost predicate PinsLive(pins: map<Token, nat>, records: Records) {
    forall t :: t in pins ==> t in records && pins[t] > 0
  }

  /** What is left after deleting some tokens: pinned ones stay. */
  function Deleted(records: Records, pins: map<Token, nat>, tokens: set<Token>): Records {
    map t | t in records && (t !in tokens || t in pins) :: records[t]
  }

  /** The index is the grouping of the records, only live tokens are pinned, and the sidecars on disk are the records
      in memory. */
  ghost predicate Consistent(records: Records, index: map<ItemId, set<Token>>, pins: map<Token, nat>, disk: Disk) {
    Keyed(records) && index == Grouped(records) && PinsLive(pins, records) && Mirrors(disk, records)
  }

  lemma EmptyIndex()
    ensures Grouped(map[]) == map[]
  {}

  lemma PutKeeps(records: Records, index: map<ItemId, set<Token>>, pins: map<Token, nat>, disk: Disk, source: FileName,
                 r: StateRecord, now: int)
    requires Consistent(records, index, pins, disk)
    requires source in disk && !OfRecord(records, source) && r.token !in records
    ensures Consistent(records[r.token := r],
                       index[r.itemId := (if r.itemId in index then index[r.itemId] else {}) + {r.token}],
                       pins, Apply(Apply(disk, PutOps(source, r, now)[0]), PutOps(source, r, now)[1]))
    ensures CrashSafe(disk, PutOps(source, r, now), records, records[r.token := r])
    ensures Apply(Apply(disk, PutOps(source, r, now)[0]), PutOps(source, r, now)[1])
        == ApplyAll(disk, PutOps(source, r, now))
    ensures source.stem != r.token ==> source !in ApplyAll(disk, PutOps(source, r, now))
    ensures Untracked(ApplyAll(disk, PutOps(source, r, now)), records[r.token := r])
        == AfterPut(Untracked(disk, records), source, r.token)
  {
    hide Mirrors, Grouped, Apply, Untracked, AfterPut, CrashSafe, OfRecord, ApplyAll;
    PutOnDisk(disk, records, source, r, now);
    PutUntracked(disk, records, source, r, now);
    GroupedPut(records, r.token, r);
  }

  lemma PutBreaks(records: Records, index: map<ItemId, set<Token>>, pins: map<Token, nat>, disk: Disk, source: FileName,
                  r: StateRecord, now: int, index': map<ItemId, set<Token>>)
    requires Consistent(records, index, pins, disk) && source in disk && OfRecord(records, source)
        && r.token !in records
    ensures !Consistent(records[r.token := r], index', pins,
                        Apply(Apply(disk, PutOps(source, r, now)[0]), PutOps(source, r, now)[1]))
  {
    PutOfRecord(disk, records, source, r, now);
    ApplyTwo(disk, PutOps(source, r, now)[0], PutOps(source, r, now)[1]);
    hide Mirrors, Grouped, Apply;
  }

  lemma TouchKeeps(records: Records, index: map<ItemId, set<Token>>, pins: map<Token, nat>, disk: Disk, r: StateRecord,
                   now: int)
    requires Consistent(records, index, pins, disk)
    requires r.token in records && records[r.token].itemId == r.itemId
    ensures Consistent(records[r.token := r], index, pins, Apply(disk, WriteSidecar(r, now)))
    ensures CrashSafe(disk, [WriteSidecar(r, now)], records, records[r.token := r])
    ensures Apply(disk, WriteSidecar(r, now)) == ApplyAll(disk, [WriteSidecar(r, now)])
    ensures SameBut(disk, Apply(disk, WriteSidecar(r, now)), FileName(r.token, Json))
    ensures Untracked(Apply(disk, WriteSidecar(r, now)), records[r.token := r]) == Untracked(disk, records)
  {
    TouchOnDisk(disk, records, r, now);
    TouchUntracked(disk, records, r, now);
    ApplyOne(disk, WriteSidecar(r, now));
    GroupedTouch(records, r.token, r);
    hide Mirrors, Grouped, Apply, Untracked;
  }

  lemma ConsistentAt(records: Records, index: map<ItemId, set<Token>>, pins: map<Token, nat>, disk: Disk, t: Token)
    requires Consistent(records, index, pins, disk)
    ensures t in records ==> records[t].token == t
    ensures ApplyAll(disk, []) == disk && CrashSafe(disk, [], records, records)
        && SameBut(disk, disk, FileName(t, Json))
  {
    CrashSafeNothing(disk, records);
  }

  lemma ConsistentPins(records: Records, index: map<ItemId, set<Token>>, pins: map<Token, nat>, disk: Disk)
    requires Consistent(records, index, pins, disk)
    ensures PinsLive(pins, records)
  {}

  lemma DifferentTokens(r0: Records, r1: Records, r2: Records, t: Token, r: StateRecord)
    requires t !in r0 && t !in r1 && (r2 == r1 || r2 == r1[t := r])
    ensures Separate(r0, r1, r2)
    ensures r2 - {t} == r1
  {}

  /** The index update of a deletion. */
  function IndexWithout(index: map<ItemId, set<Token>>, item: ItemId, t: Token): map<ItemId, set<Token>> {
    if item !in index then index
    else if index[item] - {t} == {} then index - {item}
    else index[item := index[item] - {t}]
  }

  lemma DeleteKeeps(records: Records, index: map<ItemId, set<Token>>, pins: map<Token, nat>, disk: Disk, t: Token)
    requires Consistent(records, index, pins, disk)
    requires t in records && t !in pins
    ensures Consistent(records - {t}, IndexWithout(index, records[t].itemId, t), pins,
        disk - {FileName(t, Bin)} - {FileName(t, Json)})
    ensures CrashSafe(disk, DeleteOps(t), records, records - {t})
    ensures ApplyAll(disk, DeleteOps(t)) == disk - {FileName(t, Bin)} - {FileName(t, Json)}
  {
    var item := records[t].itemId;
    assert item in Grouped(records) && Grouped(records)[item] == TokensOf(records, item);
    GroupedRemove(records, t);
    DeleteOnDisk(disk, records, t);
    assert disk - {FileName(t, Bin)} - {FileName(t, Json)} == disk - {FileName(t, Bin), FileName(t, Json)};
    assert IndexWithout(index, item, t) == Grouped(records - {t});
    hide Mirrors, Grouped, CrashSafe, ApplyAll;
  }

  function Elements(tokens: seq<Token>): set<Token> {
    set t | t in tokens
  }

  lemma DeleteNothing(records: Records, pins: map<Token, nat>, disk: Disk, tokens: seq<Token>)
    ensures Elements(tokens[..0]) == {} && Deleted(records, pins, {}) == records
    ensures Without(disk, records.Keys - records.Keys) == disk
  {}

  lemma ElementsNext(tokens: seq<Token>, k: nat)
    requires k < |tokens|
    ensures Elements(tokens[..k + 1]) == Elements(tokens[..k]) + {tokens[k]}
  {}

  lemma DeletedStep(records: Records, pins: map<Token, nat>, done: set<Token>, t: Token)
    ensures var left := Deleted(records, pins, done);
      Deleted(records, pins, done + {t}) == if t in left && t !in pins then left - {t} else left
  {}

  lemma DeletedSame(records: Records, pins: map<Token, nat>, done: set<Token>, t: Token)
    requires t in Deleted(records, pins, done) && t !in pins
    ensures var left := Deleted(records, pins, done);
      Separate(records, left, left - {t})
  {}

  /** One deletion inside a longer one: what it keeps. */
  lemma DeleteStep(given: Records, givenDisk: Disk, ops: seq<FileOp>, done: set<Token>, records: Records,
                   index: map<ItemId, set<Token>>, pins: map<Token, nat>, disk: Disk, t: Token)
    requires Consistent(records, index, pins, disk) && t in records && t !in pins
    requires disk == ApplyAll(givenDisk, ops) && CrashSafe(givenDisk, ops, given, records)
    requires records == Deleted(given, pins, done)
    ensures var disk' := disk - {FileName(t, Bin)} - {FileName(t, Json)};
      && Consistent(records - {t}, IndexWithout(index, records[t].itemId, t), pins, disk')
      && disk' == ApplyAll(givenDisk, ops + DeleteOps(t))
      && CrashSafe(givenDisk, ops + DeleteOps(t), given, records - {t})
  {
    hide *;
    DeletedSame(given, pins, done, t);
    DeleteKeeps(records, index, pins, disk, t);
    CrashSafeAppend(givenDisk, ops, DeleteOps(t), given, records, records - {t});
    ApplyAppend(givenDisk, ops, DeleteOps(t));
  }

  /** One deletion inside a longer one: what goes. */
  lemma DeleteCounts(given: Records, givenDisk: Disk, records: Records, disk: Disk, t: Token)
    requires records.Keys <= given.Keys && t in records
    requires disk == Without(givenDisk, given.Keys - records.Keys)
    ensures disk - {FileName(t, Bin)} - {FileName(t, Json)} == Without(givenDisk, given.Keys - (records - {t}).Keys)
    ensures |records| == |records - {t}| + 1
    ensures TotalBytes(records) == records[t].sizeBytes + TotalBytes(records - {t})
  {
    hide Without, TotalBytes;
    TotalWithout(records, t);
    WithoutOne(givenDisk, given.Keys - records.Keys, t);
    assert (records - {t}).Keys == records.Keys - {t};
    assert given.Keys - records.Keys + {t} == given.Keys - (records - {t}).Keys;
  }

  function PinnedAmong(tokens: set<Token>, pins: map<Token, nat>): set<Token> {
    set t | t in tokens && t in pins
  }

  lemma IndexAt(records: Records, index: map<ItemId, set<Token>>, pins: map<Token, nat>, disk: Disk, item: ItemId)
    requires Consistent(records, index, pins, disk)
    ensures (if item in index then index[item] else {}) == TokensOf(records, item)
  {
    if item !in Grouped(records) {
      assert forall t :: t in records ==> records[t].itemId in Grouped(records);
    }
  }

  lemma AllDeleted(records: Records, pins: map<Token, nat>, item: ItemId)
    requires PinnedAmong(TokensOf(records, item), pins) == {}
    ensures Deleted(records, pins, TokensOf(records, item)) == records - TokensOf(records, item)
    ensures |records| == |records - TokensOf(records, item)| + |TokensOf(records, item)|
    ensures TokensOf(records - TokensOf(records, item), item) == {}
  {
    var gone := TokensOf(records, item);
    forall t | t in gone ensures t !in pins {
      assert t in pins ==> t in PinnedAmong(gone, pins);
    }
    assert records.Keys == (records - gone).Keys + gone;
  }

  lemma SweepNone(disk: Disk, records: Records, cutoff: int)
    ensures SweptDisk(disk, records, cutoff, {}) == disk && OrphanBins(disk, records, cutoff, {}) == map[]
    ensures Sum<FileName>(map[]) == 0
  {}

  lemma SweepKeeps(given: Disk, ops: seq<FileOp>, records: Records, index: map<ItemId, set<Token>>,
                   pins: map<Token, nat>, disk: Disk, n: FileName)
    requires Consistent(records, index, pins, disk) && n.stem !in records
    requires disk == ApplyAll(given, ops) && CrashSafe(given, ops, records, records)
    ensures Consistent(records, index, pins, disk - {n})
    ensures disk - {n} == ApplyAll(given, ops + [Unlink(n)]) && CrashSafe(given, ops + [Unlink(n)], records, records)
  {
    UnlinkOrphan(disk, records, n);
    hide CrashSafe, ApplyAll, Mirrors;
    ApplyAppend(given, ops, [Unlink(n)]);
    CrashSafeAppend(given, ops, [Unlink(n)], records, records, records);
  }

  /** The deletion on records, files and the tokens of an item. */
  lemma DeletedFields(records: Records, pins: map<Token, nat>, tokens: seq<Token>)
    ensures Deleted(records, pins, Elements(tokens))
        == map t | t in records && (t in pins || t !in tokens) :: records[t]
  {}

  lemma WithoutFields(disk: Disk, before: Records, after: Records)
    ensures var d := Without(disk, before.Keys - after.Keys);
      && (forall n :: n in d ==> n in disk && d[n] == disk[n])
      && (forall n :: n in disk ==> (n in d <==> n.stem !in before || n.stem in after || n.ext.Other?))
  {}

  lemma ItemFields(records: Records, pins: map<Token, nat>, item: ItemId)
    ensures |PinnedAmong(TokensOf(records, item), pins)|
        == |set t | t in records && records[t].itemId == item && t in pins|
    ensures records - TokensOf(records, item) == map t | t in records && records[t].itemId != item :: records[t]
    ensures |TokensOf(records, item)| == |set t | t in records && records[t].itemId == item|
  {
    assert PinnedAmong(TokensOf(records, item), pins)
        == set t | t in records && records[t].itemId == item && t in pins;
  }

  lemma SweptFields(disk: Disk, records: Records, cutoff: int)
    ensures SweptDisk(disk, records, cutoff, disk.Keys)
        == map n | n in disk && (n.stem in records || disk[n].mtime >= cutoff) :: disk[n]
    ensures OrphanBins(disk, records, cutoff, disk.Keys)
        == map n | n in disk && n.stem !in records && disk[n].mtime < cutoff && n.ext == Bin :: disk[n].size
  {}

  method Listed(tokens: set<Token>) returns (list: seq<Token>)
    ensures Elements(list) == tokens && |list| == |tokens|
  {
    list := [];
    var left := tokens;
    while left != {}
      invariant Elements(list) + left == tokens && Elements(list) !! left && |list| + |left| == |tokens|
      decreases left
    {
      var t :| t in left;
      left := left - {t};
      assert Elements(list + [t]) == Elements(list) + {t};
      list := list + [t];
    }
  }

  // ---------------------------------------------------------------- least recently used first

  /** The key (last_accessed_at, created_at) in the order of tuples. */
  predicate NoLaterUse(a: StateRecord, b: StateRecord) {
    a.lastAccessedAt < b.lastAccessedAt || (a.lastAccessedAt == b.lastAccessedAt && a.createdAt <= b.createdAt)
  }

  function InsertByUse(records: Records, t: Token, order: seq<Token>): (r: seq<Token>)
    requires t in records && forall u :: u in order ==> u in records
    ensures forall u :: u in r <==> u == t || u in order
    ensures |r| == |order| + 1
  {
    if order == [] || NoLaterUse(records[t], records[order[0]]) then [t] + order
    else [order[0]] + InsertByUse(records, t, order[1..])
  }

  function ByUse(records: Records, tokens: seq<Token>): (r: seq<Token>)
    requires forall u :: u in tokens ==> u in records
    ensures forall u :: u in r <==> u in tokens
    ensures |r| == |tokens|
  {
    if tokens == [] then [] else InsertByUse(records, tokens[0], ByUse(records, tokens[1..]))
  }

  predicate InUseOrder(records: Records, order: seq<Token>) {
    && (forall u :: u in order ==> u in records)
    && forall i, j :: 0 <= i < j < |order| ==> NoLaterUse(records[order[i]], records[order[j]])
  }

  lemma {:induction false} InsertKeepsOrder(records: Records, t: Token, order: seq<Token>)
    requires t in records && InUseOrder(records, order)
    ensures InUseOrder(records, InsertByUse(records, t, order))
  {
    if order == [] || NoLaterUse(records[t], records[order[0]]) {
    } else {
      InsertKeepsOrder(records, t, order[1..]);
      var rest := InsertByUse(records, t, order[1..]);
      assert forall u :: u in order[1..] ==> NoLaterUse(records[order[0]], records[u]);
      assert forall k :: 0 <= k < |rest| ==> rest[k] in rest;
    }
  }

  lemma {:induction false} ByUseOrdered(records: Records, tokens: seq<Token>)
    requires forall u :: u in tokens ==> u in records
    ensures InUseOrder(records, ByUse(records, tokens))
  {
    if tokens == [] {
    } else {
      ByUseOrdered(records, tokens[1..]);
      InsertKeepsOrder(records, tokens[0], ByUse(records, tokens[1..]));
    }
  }

  predicate Distinct(order: seq<Token>) {
    forall i, j :: 0 <= i < j < |order| ==> order[i] != order[j]
  }

  /** A list as long as its set of elements repeats nothing. */
  lemma {:induction false} ElementsCount(order: seq<Token>)
    ensures |Elements(order)| <= |order|
    ensures |Elements(order)| == |order| ==> Distinct(order)
  {
    if order == [] {
    } else {
      var n := |order| - 1;
      assert order[..n + 1] == order;
      ElementsNext(order, n);
      ElementsCount(order[..n]);
    }
  }

  /** The whole store, least recently used first. */
  ghost predicate LruOrder(records: Records, order: seq<Token>) {
    InUseOrder(records, order) && Distinct(order) && Elements(order) == records.Keys
  }

  /** The shortest prefix of the order whose removal brings the total within the budget. */
  ghost predicate BudgetPrefix(records: Records, order: seq<Token>, k: nat, maxBytes: int) {
    && k <= |order|
    && TotalBytes(records) - BytesOf(records, Elements(order[..k])) <= maxBytes
    && forall j :: 0 <= j < k ==> TotalBytes(records) - BytesOf(records, Elements(order[..j])) > maxBytes
  }

  lemma ElementsIn(list: seq<Token>)
    ensures forall t :: t in list <==> t in Elements(list)
  {}

  lemma ByUseLru(records: Records, listed: seq<Token>)
    requires Elements(listed) == records.Keys && |listed| == |records|
    requires forall t :: t in listed <==> t in Elements(listed)
    ensures LruOrder(records, ByUse(records, listed))
  {
    ByUseOrdered(records, listed);
    assert Elements(ByUse(records, listed)) == records.Keys;
    ElementsCount(ByUse(records, listed));
  }

  lemma BytesNext(records: Records, order: seq<Token>, k: nat)
    requires LruOrder(records, order) && k < |order|
    ensures order[k] in records
    ensures BytesOf(records, Elements(order[..k + 1]))
        == BytesOf(records, Elements(order[..k])) + records[order[k]].sizeBytes
  {
    var t, before := order[k], Elements(order[..k]);
    ElementsNext(order, k);
    assert t !in before && t in Elements(order);
    SumInsert(On(Sizes(records), before), t, records[t].sizeBytes);
    assert On(Sizes(records), before + {t}) == On(Sizes(records), before)[t := records[t].sizeBytes];
  }

  lemma BytesEnds(records: Records)
    ensures BytesOf(records, {}) == 0 && BytesOf(records, records.Keys) == TotalBytes(records)
  {
    assert On(Sizes(records), {}) == map[] && On(Sizes(records), records.Keys) == Sizes(records);
  }

  lemma BudgetBound(records: Records, pins: map<Token, nat>, prefix: set<Token>, maxBytes: int)
    requires TotalBytes(records) - BytesOf(records, prefix) <= maxBytes
    ensures TotalBytes(Deleted(records, pins, prefix)) <= maxBytes + BytesOf(records, pins.Keys)
  {
    var left := Deleted(records, pins, prefix);
    var rest := records.Keys - prefix;
    var all := Sizes(records);
    hide Sum;
    assert all.Keys == records.Keys;
    assert On(Sizes(left), rest) == On(all, rest);
    assert On(Sizes(left), Sizes(left).Keys - rest) == On(all, prefix * pins.Keys);
    hide On, Sizes;
    SumParts(all, prefix);
    SumParts(Sizes(left), rest);
    SumMonotone(all, prefix * pins.Keys, pins.Keys);
  }

  lemma LruSplit(records: Records, order: seq<Token>, k: nat, t: Token, u: Token)
    requires LruOrder(records, order) && k <= |order|
    requires t in Elements(order[..k]) && u in records && u !in Elements(order[..k])
    ensures t in records && NoLaterUse(records[t], records[u])
  {
    hide NoLaterUse;
    assert forall m :: 0 <= m < k ==> order[m] in order[..k];
    var i :| 0 <= i < k && order[i] == t;
    assert u in Elements(order);
    var j :| 0 <= j < |order| && order[j] == u;
    assert t in order;
  }

  /** What deleting such a prefix achieves: the total is within the budget plus what is pinned, no survivor
      outside the prefix was used before a deleted record, and inside it exactly the pinned records survive. */
  lemma BudgetMet(records: Records, pins: map<Token, nat>, order: seq<Token>, k: nat, maxBytes: int)
    requires LruOrder(records, order) && BudgetPrefix(records, order, k, maxBytes)
    ensures
      var prefix := Elements(order[..k]);
      var left := Deleted(records, pins, prefix);
      && TotalBytes(left) <= maxBytes + BytesOf(records, pins.Keys)
      && (pins == map[] ==> TotalBytes(left) <= maxBytes)
      && (forall t, u :: t in records && t !in left && u in left && u !in prefix ==> NoLaterUse(records[t], records[u]))
      && (forall t :: t in prefix ==> t in records && (t in left <==> t in pins))
  {
    var prefix := Elements(order[..k]);
    var left := Deleted(records, pins, prefix);
    BudgetBound(records, pins, prefix, maxBytes);
    BytesEnds(records);
    hide NoLaterUse, BytesOf, TotalBytes, InUseOrder, Distinct;
    forall t, u | t in records && t !in left && u in left && u !in prefix ensures NoLaterUse(records[t], records[u]) {
      LruSplit(records, order, k, t, u);
    }
    forall t | t in prefix ensures t in records {
      assert t in Elements(order);
    }
  }

  /** One file of the sweep. */
  lemma SweepStep(given: Disk, ops: seq<FileOp>, records: Records, index: map<ItemId, set<Token>>,
                  pins: map<Token, nat>, cutoff: int, seen: set<FileName>, n: FileName)
    requires n in given && n !in seen
    requires Consistent(records, index, pins, SweptDisk(given, records, cutoff, seen))
    requires SweptDisk(given, records, cutoff, seen) == ApplyAll(given, ops) && CrashSafe(given, ops, records, records)
    ensures var disk, bins := SweptDisk(given, records, cutoff, seen), OrphanBins(given, records, cutoff, seen);
      var swept, bins' := SweptDisk(given, records, cutoff, seen + {n}), OrphanBins(given, records, cutoff, seen + {n});
      && n in disk
      && (if n.stem !in records && disk[n].mtime < cutoff then
            && swept == disk - {n} && Consistent(records, index, pins, swept)
            && swept == ApplyAll(given, ops + [Unlink(n)]) && CrashSafe(given, ops + [Unlink(n)], records, records)
            && (if n.ext == Bin then |bins'| == |bins| + 1 && Sum(bins') == Sum(bins) + disk[n].size else bins' == bins)
          else swept == disk && bins' == bins)
  {
    hide Consistent, CrashSafe, ApplyAll, Sum;
    var disk := SweptDisk(given, records, cutoff, seen);
    SweepOne(given, records, cutoff, seen, n);
    if n.stem !in records && disk[n].mtime < cutoff {
      hide SweptDisk, OrphanBins;
      SweepKeeps(given, ops, records, index, pins, disk, n);
      if n.ext == Bin {
        SumInsert(OrphanBins(given, records, cutoff, seen), n, disk[n].size);
      }
    }
  }

  /** Not read since the cutoff. */
  function ExpiredTokens(records: Records, cutoff: int): set<Token> {
    set t | t in records && records[t].lastAccessedAt < cutoff
  }

  /** Pinned records stay, expired ones go, nothing is altered, and the rest fits the budget next to what is pinned. */
  ghost predicate Reclaimed(before: Records, after: Records, pins: map<Token, nat>, cutoff: int, maxBytes: int) {
    && after.Keys <= before.Keys && (forall t :: t in after ==> after[t] == before[t])
    && pins.Keys <= after.Keys
    && (forall t :: t in after && t !in pins ==> after[t].lastAccessedAt >= cutoff)
    && (maxBytes >= 0 ==> TotalBytes(after) <= maxBytes + BytesOf(after, pins.Keys))
  }

  /** No budget or within it: nothing goes. Otherwise the order lists every record once, by last access and then by
      creation, its first k records are the fewest whose bytes bring the total within the budget, and exactly the
      unpinned ones among these go. */
  ghost predicate BudgetDeleted(r1: Records, r2: Records, pins: map<Token, nat>, order: seq<Token>, k: nat,
                                maxBytes: int) {
    if maxBytes < 0 || TotalBytes(r1) <= maxBytes then r2 == r1
    else
      && (forall t :: t in order <==> t in r1)
      && (forall i, j :: 0 <= i < j < |order| ==>
            && order[i] != order[j]
            && r1[order[i]].lastAccessedAt <= r1[order[j]].lastAccessedAt
            && (r1[order[i]].lastAccessedAt == r1[order[j]].lastAccessedAt ==>
                  r1[order[i]].createdAt <= r1[order[j]].createdAt))
      && k <= |order|
      && TotalBytes(r1) - BytesOf(r1, set t | t in order[..k]) <= maxBytes
      && (forall j :: 0 <= j < k ==> TotalBytes(r1) - BytesOf(r1, set t | t in order[..j]) > maxBytes)
      && r2 == map t | t in r1 && (t in pins || t !in order[..k]) :: r1[t]
  }

  lemma BudgetGoes(r1: Records, r2: Records, pins: map<Token, nat>, order: seq<Token>, k: nat, maxBytes: int)
    requires maxBytes >= 0 && TotalBytes(r1) > maxBytes
    ensures BudgetDeleted(r1, r2, pins, order, k, maxBytes) <==>
        LruOrder(r1, order) && BudgetPrefix(r1, order, k, maxBytes) && r2 == Deleted(r1, pins, Elements(order[..k]))
  {
    hide TotalBytes, BytesOf;
    assert Elements(order) == r1.Keys <==> (forall t :: t in order <==> t in r1);
    if k <= |order| {
      assert forall j :: 0 <= j <= k ==> Elements(order[..j]) == (set t | t in order[..j]);
    }
  }

  /** What expiry leaves: the records that are pinned or were read since the cutoff. */
  lemma FreshStay(r0: Records, pins: map<Token, nat>, cutoff: int)
    ensures Deleted(r0, pins, ExpiredTokens(r0, cutoff))
        == map t | t in r0 && (t in pins || r0[t].lastAccessedAt >= cutoff) :: r0[t]
  {}

  /** A collection of the records: what is neither pinned nor fresh goes, then the budget. A fresh record goes only
      unpinned, over budget, and among the least recently used ones that had to go. */
  lemma GcRecords(r0: Records, r1: Records, r2: Records, pins: map<Token, nat>, order: seq<Token>, k: nat,
                  cutoff: int, maxBytes: int)
    requires PinsLive(pins, r0)
    requires r1 == map t | t in r0 && (t in pins || r0[t].lastAccessedAt >= cutoff) :: r0[t]
    requires BudgetDeleted(r1, r2, pins, order, k, maxBytes)
    ensures Reclaimed(r0, r2, pins, cutoff, maxBytes)
    ensures r2.Keys <= r1.Keys <= r0.Keys
    ensures Separate(r0, r1, r2)
    ensures maxBytes < 0 || TotalBytes(r1) <= maxBytes ==> r2 == r1
    ensures forall t :: t in r0 && r0[t].lastAccessedAt >= cutoff && t !in r2 ==>
      && t !in pins && maxBytes >= 0 && TotalBytes(r1) > maxBytes && k <= |order| && t in order[..k]
      && (forall j :: 0 <= j < k ==> TotalBytes(r1) - BytesOf(r1, set u | u in order[..j]) > maxBytes)
      && (forall u :: u in r2 && u !in order[..k] ==>
            || r0[t].lastAccessedAt < r0[u].lastAccessedAt
            || (r0[t].lastAccessedAt == r0[u].lastAccessedAt && r0[t].createdAt <= r0[u].createdAt))
  {
    hide LruOrder, BudgetPrefix, BytesOf, TotalBytes;
    FreshStay(r0, pins, cutoff);
    var gone := Elements(if k <= |order| then order[..k] else []);
    if maxBytes >= 0 && TotalBytes(r1) > maxBytes {
      BudgetGoes(r1, r2, pins, order, k, maxBytes);
      BudgetMet(r1, pins, order, k, maxBytes);
      SamePinnedBytes(r1, r2, pins, gone);
    }
    TwoDeletions(r0, r1, r2, pins, ExpiredTokens(r0, cutoff), gone);
  }

  lemma TwoDeletions(r0: Records, r1: Records, r2: Records, pins: map<Token, nat>, a: set<Token>, b: set<Token>)
    requires PinsLive(pins, r0)
    requires r1 == Deleted(r0, pins, a) && (r2 == r1 || r2 == Deleted(r1, pins, b))
    ensures Separate(r0, r1, r2)
    ensures pins.Keys <= r2.Keys <= r1.Keys <= r0.Keys && (forall t :: t in r2 ==> r2[t] == r0[t])
    ensures forall t :: t in r2 && t !in pins ==> t !in a
  {}

  lemma SamePinnedBytes(r1: Records, r2: Records, pins: map<Token, nat>, gone: set<Token>)
    requires r2 == Deleted(r1, pins, gone)
    ensures BytesOf(r1, pins.Keys) == BytesOf(r2, pins.Keys)
  {
    assert On(Sizes(r1), pins.Keys) == On(Sizes(r2), pins.Keys);
  }

  /** Deleting twice, then sweeping: the orphans are those of the start. */
  lemma OrphansLeft(d0: Disk, d1: Disk, d2: Disk, r0: Records, r1: Records, r2: Records, cutoff: int)
    requires r2.Keys <= r1.Keys <= r0.Keys
    requires d1 == Without(d0, r0.Keys - r1.Keys) && d2 == Without(d1, r1.Keys - r2.Keys)
    ensures OrphanBins(d2, r2, cutoff, d2.Keys) == OrphanBins(d0, r0, cutoff, d0.Keys)
    ensures d2 == Without(d0, r0.Keys - r2.Keys)
  {
    assert d2 == Without(d0, r0.Keys - r2.Keys);
    OrphansAfter(d0, r0, r2, cutoff);
  }

  lemma GcFiles(d0: Disk, ops1: seq<FileOp>, ops2: seq<FileOp>, ops3: seq<FileOp>, r0: Records, r1: Records,
                r2: Records)
    requires CrashSafe(d0, ops1, r0, r1) && CrashSafe(ApplyAll(d0, ops1), ops2, r1, r2)
    requires CrashSafe(ApplyAll(ApplyAll(d0, ops1), ops2), ops3, r2, r2)
    requires Separate(r0, r1, r2)
    ensures CrashSafe(d0, ops1 + ops2 + ops3, r0, r2)
    ensures ApplyAll(d0, ops1 + ops2 + ops3) == ApplyAll(ApplyAll(ApplyAll(d0, ops1), ops2), ops3)
  {
    hide CrashSafe, ApplyAll;
    assert Separate(r0, r2, r2);
    hide Separate;
    ApplyAppend(d0, ops1, ops2);
    CrashSafeAppend(d0, ops1, ops2, r0, r1, r2);
    ApplyAppend(d0, ops1 + ops2, ops3);
    CrashSafeAppend(d0, ops1 + ops2, ops3, r0, r2, r2);
  }

  lemma UnlinkLast(disk: Disk, ops: seq<FileOp>, n: FileName)
    ensures ApplyAll(disk, ops + [Unlink(n)]) == ApplyAll(disk, ops) - {n}
  {
    ApplyAppend(disk, ops, [Unlink(n)]);
    ApplyOne(ApplyAll(disk, ops), Unlink(n));
  }

  /** What the constructor ends with. */
  lemma Rehydration(given: Disk, disk: Disk, records: Records, index: map<ItemId, set<Token>>, ops: seq<FileOp>)
    requires disk == WithoutLone(given, given.Keys) == ApplyAll(given, ops) && ReadSoFar(given, given.Keys, records)
    requires WellNamed(disk) ==> records == Loaded(given, given.Keys) && index == Grouped(records)
    requires WellNamed(given) ==> CrashSafe(given, ops, Rehydrated(given), Rehydrated(given))
    ensures Consistent(records, index, map[], disk) <==> WellNamed(disk)
    ensures WellNamed(given) ==> WellNamed(disk) && records == Rehydrated(given) && ReachedSafely(given, disk, records)
  {
    assert Keyed(records) && PinsLive(map[], records);
    if WellNamed(disk) {
      LoadedMirrors(given);
    }
    assert Mirrors(disk, records) ==> WellNamed(disk);
    if WellNamed(given) {
      LoneKeeps(given, given.Keys);
      LoadedAll(given);
    }
    hide Mirrors, WellNamed, WithoutLone, Loaded, Rehydrated, Grouped, ApplyAll, CrashSafe, ReadSoFar;
  }

  lemma ReadFields(given: Disk, records: Records)
    requires ReadSoFar(given, given.Keys, records)
    ensures WithoutLone(given, given.Keys) == map n | n in given && !(n.ext == Json && given[n].sidecar.Some?
        && FileName(given[n].sidecar.value.token, Bin) !in given) :: given[n]
    ensures forall t :: t in records ==>
      && records[t].token == t && FileName(t, Bin) in given
      && exists n :: n in given && n.ext == Json && given[n].sidecar == Some(records[t])
    ensures forall n ::
      n in given && n.ext == Json && given[n].sidecar.Some? && FileName(given[n].sidecar.value.token, Bin) in given ==>
        given[n].sidecar.value.token in records
  {
    forall t | t in records
      ensures exists n :: n in given && n.ext == Json && given[n].sidecar == Some(records[t])
      ensures FileName(t, Bin) in given
    {
      assert Loadable(given, given.Keys, records[t]);
      var n :| n in given && Readable(given, n) && !Lone(given, n) && given[n].sidecar.value == records[t];
      assert given[n].sidecar == Some(records[t]);
    }
    forall n | n in given && n.ext == Json && given[n].sidecar.Some?
        && FileName(given[n].sidecar.value.token, Bin) in given
      ensures given[n].sidecar.value.token in records
    {
      assert Readable(given, n) && !Lone(given, n);
      assert Loadable(given, given.Keys, given[n].sidecar.value);
    }
  }

  /** The two file operations of put, on the files. */
  lemma PutFiles(disk: Disk, source: FileName, r: StateRecord, now: int)
    requires source in disk
    ensures Apply(Apply(disk, PutOps(source, r, now)[0]), PutOps(source, r, now)[1])
        == (disk - {source})[FileName(r.token, Bin) := disk[source]][FileName(r.token, Json) := File(0, now, Some(r))]
  {}

  lemma CollectedFields(d0: Disk, d2: Disk, d3: Disk, r0: Records, r2: Records, cutoff: int)
    requires r2.Keys <= r0.Keys && d2 == Without(d0, r0.Keys - r2.Keys)
    requires d3 == map n | n in d2 && (n.stem in r2 || d2[n].mtime >= cutoff) :: d2[n]
    ensures d3 == map n | n in d0 && (n.stem in r2 || (d0[n].mtime >= cutoff && (n.stem !in r0 || n.ext.Other?)))
        :: d0[n]
  {}

  class StateStore {
    var records: Records
    var tokensByItem: map<ItemId, set<Token>>
    var pins: map<Token, nat>
    var disk: Disk
    const ttl: int
    const maxBytes: int

    ghost predicate Valid()
      reads this
    {
      Consistent(records, tokensByItem, pins, disk)
    }

    /** A new process over any directory: unreadable sidecars are skipped, lone ones removed, and every record comes
        from a sidecar whose state file is there. Disk and memory agree exactly when the remaining readable sidecars
        are named after their tokens; then removing the lone ones is crash-safe, too. */
    constructor (given: Disk, ttl: int, maxBytes: int)
      requires ttl > 0 && maxBytes >= -1
      ensures disk == map n | n in given && !(n.ext == Json && given[n].sidecar.Some?
          && FileName(given[n].sidecar.value.token, Bin) !in given) :: given[n]
      ensures pins == map[]
      ensures forall t :: t in records ==>
        && records[t].token == t && FileName(t, Bin) in given
        && exists n :: n in given && n.ext == Json && given[n].sidecar == Some(records[t])
      ensures forall n ::
        n in given && n.ext == Json && given[n].sidecar.Some?
          && FileName(given[n].sidecar.value.token, Bin) in given ==>
          given[n].sidecar.value.token in records
      ensures Valid() <==> WellNamed(disk)
      ensures WellNamed(given) ==> Valid() && records == Rehydrated(given) && ReachedSafely(given, disk, records)
      ensures this.ttl == ttl && this.maxBytes == maxBytes
    {
      records, tokensByItem, pins, disk := map[], map[], map[], given;
      this.ttl, this.maxBytes := ttl, maxBytes;
      new;
      hide Mirrors, WellNamed, Rehydrated, Loaded, WithoutLone, Grouped, ReadSoFar, Lone, Readable, CrashSafe, ApplyAll,
           Consistent;
      EmptyIndex();
      var names := set n | n in given && n.ext == Json;
      ghost var seen := given.Keys - names;
      ghost var ops: seq<FileOp> := [];
      LoadNothing(given, names);
      if WellNamed(given) {
        CrashSafeRest(given);
      }
      while names != {}
        invariant names <= given.Keys && seen == given.Keys - names && (forall n :: n in names ==> n.ext == Json)
        invariant disk == WithoutLone(given, seen) && pins == map[] && ReadSoFar(given, seen, records)
        invariant WellNamed(WithoutLone(given, given.Keys)) ==>
            records == Loaded(given, seen) && tokensByItem == Grouped(records)
        invariant disk == ApplyAll(given, ops)
        invariant WellNamed(given) ==> CrashSafe(given, ops, Rehydrated(given), Rehydrated(given))
        decreases names
      {
        var n :| n in names;
        names := names - {n};
        LoadOne(given, seen, n);
        ReadMore(given, seen, n, records);
        if disk[n].sidecar.Some? && FileName(disk[n].sidecar.value.token, Bin) in disk {
          var r := disk[n].sidecar.value;
          if WellNamed(WithoutLone(given, given.Keys)) {
            LoadOneRecord(given, seen, n);
            GroupedPut(records, r.token, r);
          }
          records := records[r.token := r];
          tokensByItem := tokensByItem[r.itemId :=
              (if r.itemId in tokensByItem then tokensByItem[r.itemId] else {}) + {r.token}];
        } else {
          LoadOneNothing(given, seen, n);
          if disk[n].sidecar.Some? {
            if WellNamed(given) {
              LoneStep(given, seen, n, ops);
            }
            UnlinkLast(given, ops, n);
            disk := disk - {n};
            ops := ops + [Unlink(n)];
          }
        }
        seen := seen + {n};
      }
      assert seen == given.Keys;
      Rehydration(given, disk, records, tokensByItem, ops);
      ReadFields(given, records);
    }

    /** put: move a file in under a new token. Afterwards disk and memory agree, unless the file moved away was
        itself the state file or the sidecar of a tracked record. */
    method Put(source: FileName, item: ItemId, envProfile: string, header: string, headerHash: string, token: Token,
               now: int)
      returns (stored: Option<Token>, ghost ops: seq<FileOp>)
      requires Valid() && token !in records
      modifies this`records, this`tokensByItem, this`disk
      ensures disk == ApplyAll(old(disk), ops)
      ensures Valid() <==> !(source in old(disk) && OfRecord(old(records), source))
      ensures Valid() ==> CrashSafe(old(disk), ops, old(records), records)
      ensures source !in old(disk) ==> stored == None && ops == [] && records == old(records) && disk == old(disk)
      ensures source in old(disk) ==>
        && stored == Some(token)
        && records == old(records)[token :=
            StateRecord(token, item, envProfile, header, headerHash, now, now, old(disk[source]).size)]
        && disk == (old(disk) - {source})[FileName(token, Bin) := old(disk)[source]]
            [FileName(token, Json) := File(0, now, Some(records[token]))]
        && Untracked(disk, records) == AfterPut(Untracked(old(disk), old(records)), source, token)
    {
      hide Consistent, Mirrors, CrashSafe, ApplyAll, Apply, Untracked;
      ConsistentAt(records, tokensByItem, pins, disk, token);
      if source !in disk {
        return None, [];
      }
      var r := StateRecord(token, item, envProfile, header, headerHash, now, now, disk[source].size);
      ops := PutOps(source, r, now);
      PutUntracked(disk, records, source, r, now);
      ApplyTwo(disk, ops[0], ops[1]);
      PutFiles(disk, source, r, now);
      var index := tokensByItem[item := (if item in tokensByItem then tokensByItem[item] else {}) + {token}];
      if !OfRecord(records, source) {
        PutKeeps(records, tokensByItem, pins, disk, source, r, now);
      } else {
        PutBreaks(records, tokensByItem, pins, disk, source, r, now, index);
      }
      disk := Apply(disk, Move(source, FileName(token, Bin)));
      records := records[token := r];
      tokensByItem := index;
      disk := Apply(disk, WriteSidecar(r, now));
      stored := Some(token);
    }

    /** resolve: the record, its last access moved to now. */
    method Resolve(token: Token, now: int) returns (found: Option<StateRecord>, ghost ops: seq<FileOp>)
      requires Valid()
      modifies this`records, this`disk
      ensures Valid() && disk == ApplyAll(old(disk), ops) && CrashSafe(old(disk), ops, old(records), records)
      ensures SameBut(old(disk), disk, FileName(token, Json))
          && Untracked(disk, records) == Untracked(old(disk), old(records))
      ensures token !in old(records) ==> found == None && ops == [] && records == old(records)
      ensures token in old(records) ==>
        && found == Some(old(records)[token].(lastAccessedAt := now))
        && records == old(records)[token := found.value]
        && disk == old(disk)[FileName(found.value.token, Json) := File(0, now, found)]
    {
      hide Consistent, CrashSafe, SameBut, ApplyAll, Untracked;
      ConsistentAt(records, tokensByItem, pins, disk, token);
      if token !in records {
        return None, [];
      }
      var r := records[token].(lastAccessedAt := now);
      ops := [WriteSidecar(r, now)];
      TouchKeeps(records, tokensByItem, pins, disk, r, now);
      records := records[token := r];
      disk := Apply(disk, WriteSidecar(r, now));
      found := Some(r);
    }

    method ResolveAndPin(token: Token, now: int) returns (found: Option<StateRecord>, ghost ops: seq<FileOp>)
      requires Valid()
      modifies this`records, this`disk, this`pins
      ensures Valid() && disk == ApplyAll(old(disk), ops) && CrashSafe(old(disk), ops, old(records), records)
      ensures token !in old(records) ==> found == None && ops == [] && records == old(records) && pins == old(pins)
      ensures token in old(records) ==>
        && found == Some(old(records)[token].(lastAccessedAt := now))
        && records == old(records)[token := found.value]
        && pins == Pin(old(pins), token)
        && token in pins && pins[token] == (if token in old(pins) then old(pins)[token] else 0) + 1
        && pins - {token} == old(pins) - {token}
      ensures Untracked(disk, records) == Untracked(old(disk), old(records))
    {
      hide Mirrors, CrashSafe, Grouped, ApplyAll, Apply, Untracked;
      found, ops := Resolve(token, now);
      if found.Some? {
        pins := pins[token := (if token in pins then pins[token] else 0) + 1];
      }
    }

    method UnpinOne(token: Token)
      requires Valid()
      modifies this`pins
      ensures Valid() && pins == Unpin(old(pins), token)
      ensures pins - {token} == old(pins) - {token}
      ensures (if token in pins then pins[token] else 0)
          == if token in old(pins) then old(pins)[token] - 1 else 0
    {
      hide Mirrors, Grouped;
      if token !in pins {
        return;
      }
      if pins[token] <= 1 {
        pins := pins - {token};
      } else {
        pins := pins[token := pins[token] - 1];
      }
    }

    /** create_child: a new state of the parent's item and environment, or the parent is gone. */
    method CreateChild(parent: Token, source: FileName, token: Token, now: int)
      returns (stored: Option<Token>, ghost ops: seq<FileOp>)
      requires Valid() && token !in records
      modifies this`records, this`tokensByItem, this`disk
      ensures disk == ApplyAll(old(disk), ops)
      ensures Valid() <==> !(parent in old(records) && source in old(disk) && OfRecord(old(records), source))
      ensures Valid() ==> CrashSafe(old(disk), ops, old(records), records)
      ensures stored.Some? ==> stored.value == token
      ensures stored.Some? <==> parent in old(records) && source in old(disk)
      ensures parent !in old(records) ==> stored == None && records == old(records) && disk == old(disk)
      ensures parent in old(records) ==>
        records - {token} == old(records)[parent := old(records)[parent].(lastAccessedAt := now)]
      ensures stored.None? ==> token !in records && Untracked(disk, records) == Untracked(old(disk), old(records))
      ensures stored.Some? ==>
        && token in records
        && records[token].(sizeBytes := 0)
           == old(records)[parent].(token := token, createdAt := now, lastAccessedAt := now, sizeBytes := 0)
        && (source != FileName(parent, Json) ==> records[token].sizeBytes == old(disk[source]).size)
        && Untracked(disk, records) == AfterPut(Untracked(old(disk), old(records)), source, token)
    {
      hide Consistent, CrashSafe, SameAt, ApplyAll, Apply, Untracked;
      ConsistentAt(records, tokensByItem, pins, disk, token);
      var found, ops1 := Resolve(parent, now);
      if found.None? {
        return None, ops1;
      }
      ghost var mid, midDisk := records, disk;
      ghost var ops2;
      stored, ops2 := Put(source, found.value.itemId, found.value.envProfile, found.value.header,
          found.value.headerHash, token, now);
      ops := ops1 + ops2;
      ApplyAppend(old(disk), ops1, ops2);
      DifferentTokens(old(records), mid, records, token, if token in records then records[token] else found.value);
      if Valid() {
        CrashSafeAppend(old(disk), ops1, ops2, old(records), mid, records);
      }
    }

    method Forget(t: Token) returns (r: StateRecord)
      requires t in records
      modifies this`records, this`tokensByItem, this`disk
      ensures r == old(records[t]) && records == old(records) - {t}
      ensures tokensByItem == IndexWithout(old(tokensByItem), r.itemId, t)
      ensures disk == old(disk) - {FileName(t, Bin)} - {FileName(t, Json)}
    {
      r := records[t];
      records := records - {t};
      if r.itemId in tokensByItem {
        var left := tokensByItem[r.itemId] - {t};
        tokensByItem := if left == {} then tokensByItem - {r.itemId} else tokensByItem[r.itemId := left];
      }
      disk := disk - {FileName(t, Bin)};
      disk := disk - {FileName(t, Json)};
    }

    /** _delete_tokens: forget the tokens that are tracked and not pinned, files and all. */
    method DeleteTokens(tokens: seq<Token>) returns (states: nat, bytes: nat, ghost ops: seq<FileOp>)
      requires Valid()
      modifies this`records, this`tokensByItem, this`disk
      ensures Valid() && disk == ApplyAll(old(disk), ops) && CrashSafe(old(disk), ops, old(records), records)
      ensures records == Deleted(old(records), pins, Elements(tokens))
      ensures records == map t | t in old(records) && (t in pins || t !in tokens) :: old(records)[t]
      ensures |old(records)| == |records| + states
      ensures TotalBytes(old(records)) == TotalBytes(records) + bytes
      ensures disk == Without(old(disk), old(records).Keys - records.Keys)
      ensures forall n :: n in disk ==> n in old(disk) && disk[n] == old(disk)[n]
      ensures forall n ::
        n in old(disk) ==> (n in disk <==> n.stem !in old(records) || n.stem in records || n.ext.Other?)
    {
      hide Consistent, CrashSafe, SameAt, ApplyAll, Without, TotalBytes, Deleted, Elements, DeleteOps, IndexWithout,
           SameBut;
      states, bytes, ops := 0, 0, [];
      ConsistentAt(records, tokensByItem, pins, disk, "");
      ghost var given, givenDisk, done := records, disk, {};
      DeleteNothing(records, pins, disk, tokens);
      for k := 0 to |tokens|
        invariant Valid() && disk == ApplyAll(givenDisk, ops) && CrashSafe(givenDisk, ops, given, records)
        invariant done == Elements(tokens[..k]) && records == Deleted(given, pins, done)
        invariant records.Keys <= given.Keys && |given| == |records| + states
        invariant TotalBytes(given) == TotalBytes(records) + bytes
        invariant disk == Without(givenDisk, given.Keys - records.Keys)
      {
        var t := tokens[k];
        ElementsNext(tokens, k);
        DeletedStep(given, pins, done, t);
        if t in records && t !in pins {
          DeleteCounts(given, givenDisk, records, disk, t);
          DeleteStep(given, givenDisk, ops, done, records, tokensByItem, pins, disk, t);
          ops := ops + DeleteOps(t);
          var r := Forget(t);
          states := states + 1;
          bytes := bytes + r.sizeBytes;
        }
        done := done + {t};
      }
      assert tokens[..|tokens|] == tokens;
      DeletedFields(given, pins, tokens);
      WithoutFields(givenDisk, given, records);
    }

    /** delete_by_item_id_all_or_none: all states of an item, or none if any is pinned. */
    method DeleteByItemIdAllOrNone(item: ItemId)
      returns (deleted: bool, pinned: nat, states: nat, bytes: nat, ghost ops: seq<FileOp>)
      requires Valid()
      modifies this`records, this`tokensByItem, this`disk
      ensures Valid() && disk == ApplyAll(old(disk), ops) && CrashSafe(old(disk), ops, old(records), records)
      ensures pinned == |PinnedAmong(TokensOf(old(records), item), pins)| && deleted == (pinned == 0)
      ensures records == if deleted then old(records) - TokensOf(old(records), item) else old(records)
      ensures pinned == |set t | t in old(records) && old(records)[t].itemId == item && t in pins|
      ensures deleted ==>
        && records == (map t | t in old(records) && old(records)[t].itemId != item :: old(records)[t])
        && states == |set t | t in old(records) && old(records)[t].itemId == item|
      ensures deleted ==> states == |TokensOf(old(records), item)| && TokensOf(records, item) == {}
      ensures disk == Without(old(disk), old(records).Keys - records.Keys)
      ensures TotalBytes(old(records)) == TotalBytes(records) + bytes
    {
      hide Consistent, CrashSafe, ApplyAll, TotalBytes, Deleted, TokensOf, PinnedAmong, Without;
      var given := if item in tokensByItem then tokensByItem[item] else {};
      IndexAt(records, tokensByItem, pins, disk, item);
      ItemFields(records, pins, item);
      ConsistentAt(records, tokensByItem, pins, disk, "");
      pinned := |PinnedAmong(given, pins)|;
      if pinned > 0 {
        DeleteNothing(records, pins, disk, []);
        return false, pinned, 0, 0, [];
      }
      var tokens := Listed(given);
      ghost var before := records;
      states, bytes, ops := DeleteTokens(tokens);
      AllDeleted(before, pins, item);
      deleted := true;
    }

    /** _sweep_orphans: delete old files of no tracked token. */
    method SweepOrphans(cutoff: int) returns (states: nat, bytes: nat, ghost ops: seq<FileOp>)
      requires Valid()
      modifies this`disk
      ensures Valid() && disk == ApplyAll(old(disk), ops) && CrashSafe(old(disk), ops, records, records)
      ensures disk == SweptDisk(old(disk), records, cutoff, old(disk).Keys)
      ensures disk == map n | n in old(disk) && (n.stem in records || old(disk)[n].mtime >= cutoff) :: old(disk)[n]
      ensures OrphanBins(old(disk), records, cutoff, old(disk).Keys) == map n | n in old(disk) && n.stem !in records
          && old(disk)[n].mtime < cutoff && n.ext == Bin :: old(disk)[n].size
      ensures states == |OrphanBins(old(disk), records, cutoff, old(disk).Keys)|
      ensures bytes == Sum(OrphanBins(old(disk), records, cutoff, old(disk).Keys))
    {
      hide Consistent, CrashSafe, ApplyAll, Sum, OrphanBins, SweptDisk, SameBut, Orphan;
      states, bytes, ops := 0, 0, [];
      ghost var given := disk;
      ConsistentAt(records, tokensByItem, pins, disk, "");
      SweepNone(disk, records, cutoff);
      var names := disk.Keys;
      ghost var seen: set<FileName> := {};
      while names != {}
        invariant seen == given.Keys - names && names <= given.Keys
        invariant Valid() && disk == ApplyAll(given, ops) && CrashSafe(given, ops, records, records)
        invariant disk == SweptDisk(given, records, cutoff, seen)
        invariant states == |OrphanBins(given, records, cutoff, seen)|
        invariant bytes == Sum(OrphanBins(given, records, cutoff, seen))
        decreases names
      {
        var n :| n in names;
        SweepStep(given, ops, records, tokensByItem, pins, cutoff, seen, n);
        names := names - {n};
        seen := seen + {n};
        if n.stem !in records && disk[n].mtime < cutoff {
          ops := ops + [Unlink(n)];
          if n.ext == Bin {
            states := states + 1;
            bytes := bytes + disk[n].size;
          }
          disk := disk - {n};
        }
      }
      assert seen == given.Keys;
      SweptFields(given, records, cutoff);
    }

    /** _gc_over_budget: delete the least recently used records until the total would fit. */
    method GcOverBudget()
      returns (states: nat, bytes: nat, ghost ops: seq<FileOp>, ghost order: seq<Token>, ghost k: nat)
      requires Valid()
      modifies this`records, this`tokensByItem, this`disk
      ensures Valid() && disk == ApplyAll(old(disk), ops) && CrashSafe(old(disk), ops, old(records), records)
      ensures BudgetDeleted(old(records), records, pins, order, k, maxBytes)
      ensures |old(records)| == |records| + states && TotalBytes(old(records)) == TotalBytes(records) + bytes
      ensures disk == Without(old(disk), old(records).Keys - records.Keys)
    {
      hide Consistent, CrashSafe, ApplyAll, TotalBytes, BytesOf, Deleted, Elements, Without, InUseOrder, SameBut;
      states, bytes, ops, order, k := 0, 0, [], [], 0;
      ConsistentAt(records, tokensByItem, pins, disk, "");
      DeleteNothing(records, pins, disk, []);
      if maxBytes < 0 {
        return;
      }
      var total := Total();
      if total <= maxBytes {
        return;
      }
      var listed := Listed(records.Keys);
      ElementsIn(listed);
      var lru := ByUse(records, listed);
      ByUseLru(records, listed);
      order := lru;
      BytesEnds(records);
      DeleteNothing(records, pins, disk, lru);
      var n := 0;
      while n < |lru| && total > maxBytes
        modifies {}
        invariant 0 <= n <= |lru|
        invariant total == TotalBytes(records) - BytesOf(records, Elements(lru[..n]))
        invariant forall j :: 0 <= j < n ==> TotalBytes(records) - BytesOf(records, Elements(lru[..j])) > maxBytes
      {
        BytesNext(records, lru, n);
        total := total - records[lru[n]].sizeBytes;
        n := n + 1;
      }
      assert n == |lru| ==> lru[..n] == lru;
      k := n;
      BudgetGoes(records, Deleted(records, pins, Elements(lru[..n])), pins, lru, n, maxBytes);
      states, bytes, ops := DeleteTokens(lru[..n]);
    }

    method Total() returns (total: nat)
      ensures total == TotalBytes(records)
    {
      total := 0;
      var left := records;
      while left != map[]
        invariant TotalBytes(records) == total + TotalBytes(left)
        decreases |left|
      {
        var t :| t in left;
        TotalWithout(left, t);
        assert (left - {t}).Keys == left.Keys - {t};
        total := total + left[t].sizeBytes;
        left := left - {t};
      }
    }

    /** gc_expired: expired records, then the budget, then orphans. */
    method GcExpired(now: int)
      returns (states: nat, bytes: nat, ghost ops: seq<FileOp>, ghost order: seq<Token>, ghost k: nat)
      requires Valid()
      modifies this`records, this`tokensByItem, this`disk
      ensures Valid() && disk == ApplyAll(old(disk), ops) && CrashSafe(old(disk), ops, old(records), records)
      ensures Reclaimed(old(records), records, pins, now - ttl, maxBytes)
      ensures
        var left := map t | t in old(records) && (t in pins || old(records)[t].lastAccessedAt >= now - ttl)
            :: old(records)[t];
        && BudgetDeleted(left, records, pins, order, k, maxBytes)
        && (maxBytes < 0 || TotalBytes(left) <= maxBytes ==> records == left)
        && (forall t :: t in old(records) && old(records)[t].lastAccessedAt >= now - ttl && t !in records ==>
              && t !in pins && maxBytes >= 0 && TotalBytes(left) > maxBytes && k <= |order| && t in order[..k]
              && (forall j :: 0 <= j < k ==> TotalBytes(left) - BytesOf(left, set u | u in order[..j]) > maxBytes)
              && (forall u :: u in records && u !in order[..k] ==>
                    || old(records)[t].lastAccessedAt < old(records)[u].lastAccessedAt
                    || (old(records)[t].lastAccessedAt == old(records)[u].lastAccessedAt
                        && old(records)[t].createdAt <= old(records)[u].createdAt)))
      ensures disk == SweptDisk(Without(old(disk), old(records).Keys - records.Keys), records, now - ttl,
                                Without(old(disk), old(records).Keys - records.Keys).Keys)
      ensures disk == map n | n in old(disk) && (n.stem in records || (old(disk)[n].mtime >= now - ttl
          && (n.stem !in old(records) || n.ext.Other?))) :: old(disk)[n]
      ensures var orphans := OrphanBins(old(disk), old(records), now - ttl, old(disk).Keys);
        && |old(records)| + |orphans| == |records| + states
        && TotalBytes(old(records)) + Sum(orphans) == TotalBytes(records) + bytes
    {
      hide Consistent, CrashSafe, ApplyAll, TotalBytes, BytesOf, Deleted, Elements, Without, SameBut, Sum, OrphanBins,
           SweptDisk, PinsLive, Reclaimed, ExpiredTokens, BudgetDeleted, Separate;
      var cutoff := now - ttl;
      ghost var r0, d0 := records, disk;
      ConsistentPins(records, tokensByItem, pins, disk);
      var expired := Listed(ExpiredTokens(records, cutoff));
      var states1, bytes1, ops1 := DeleteTokens(expired);
      ghost var r1, d1 := records, disk;
      var states2, bytes2;
      ghost var ops2;
      states2, bytes2, ops2, order, k := GcOverBudget();
      ghost var r2, d2 := records, disk;
      FreshStay(r0, pins, cutoff);
      GcRecords(r0, r1, r2, pins, order, k, cutoff, maxBytes);
      OrphansLeft(d0, d1, d2, r0, r1, r2, cutoff);
      var states3, bytes3, ops3 := SweepOrphans(cutoff);
      CollectedFields(d0, d2, disk, r0, r2, cutoff);
      GcFiles(d0, ops1, ops2, ops3, r0, r1, r2);
      ops := ops1 + ops2 + ops3;
      states, bytes := states1 + states2 + states3, bytes1 + bytes2 + bytes3;
    }
  }
}
