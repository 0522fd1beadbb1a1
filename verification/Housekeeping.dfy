/** The steps of the resource protocol that belong to no task: cancel and cleanup (routers/exec.py) and the garbage
    collection loop with its orphan sweep (state_store.py), on the running registry and store. */
module Housekeeping {
  import opened Wrappers
  import opened Lifecycle
  import opened StateFiles
  import opened Store = StateStore
  import opened ResourceRoutes
  import Routes = ExecRoutes
  import Items = ItemProtocol
  import Pool = WorkerPool
  import P = ResourceProtocol

  /** Neither state files nor sidecars, but named after one of these tokens. The server writes no such files. */
  function Foreign(disk: Disk, stems: set<Token>): map<FileName, int> {
    map f | f in disk && f.stem in stems && f.ext != Bin && f.ext != Json :: disk[f].mtime
  }

  /** The files that deleting some states leaves untracked. */
  lemma UntrackedLess(disk: Disk, before: Records, after: Records)
    requires after.Keys <= before.Keys
    ensures
      var gone := before.Keys - after.Keys;
      && Untracked(Without(disk, gone), after) == Untracked(disk, before) + Foreign(disk, gone)
      && Untracked(disk, before).Keys !! Foreign(disk, gone).Keys
  {}

  /** The files that are older than the cutoff. */
  function TooOld(files: map<FileName, int>, cutoff: int): set<FileName> {
    set f | f in files && files[f] < cutoff
  }

  /** Files of other suffixes, named after deleted states, that are too young to be swept. */
  function Spared(disk: Disk, stems: set<Token>, cutoff: int): map<FileName, int> {
    Foreign(disk, stems) - TooOld(Foreign(disk, stems), cutoff)
  }

  /** The sweep takes exactly the untracked files that are older than the cutoff. */
  lemma UntrackedSwept(disk: Disk, records: Records, cutoff: int)
    ensures Untracked(SweptDisk(disk, records, cutoff, disk.Keys), records)
         == Untracked(disk, records) - TooOld(Untracked(disk, records), cutoff)
  {}

  lemma OwnersLess(before: Records, after: Records, pins: map<Token, nat>)
    requires after.Keys <= before.Keys && pins.Keys <= after.Keys && forall t :: t in after ==> after[t] == before[t]
    ensures
      var owner, doomed := OwnerOf(before), before.Keys - after.Keys;
      OwnerOf(after) == map t | t in owner && (t !in doomed || t in pins) :: owner[t]
  {}

  // ---------------------------------------------------------------- cancel and cleanup

  /** A step of the item protocol that no task takes. */
  lemma WorldStep(s: P.State, a: Items.Action, retention: nat)
    requires P.Inv(s) && (a.Cancel? || a.Cleanup? || a.Sweep? || a.Gc? || a.Tick?)
    ensures
      var n := P.Next(s, P.World(a), retention);
      && P.Can(s, P.World(a)) && P.Inv(n)
      && n.items == Items.Next(s.items, a, retention)
      && n.tasks == s.tasks && n.scratch == s.scratch && SamePool(s, n)
  {
    hide P.Inv, Items.Next, P.Next;
    P.NextKeepsInv(s, P.World(a), retention);
    P.OtherParts(s, P.World(a), retention);
  }

  /** The cancel route, for one item. */
  method CancelItem(reg: ItemLifecycleRegistry, store: StateStore, pool: Pool.PantographManager, ghost s: P.State,
                    item: ItemId, now: int)
    returns (ghost n: P.State)
    requires P.Inv(s) && Shows(s, reg, store, pool) && now == s.items.now
    modifies reg
    ensures Did(s, P.World(Items.Cancel(item)), n, reg.retention) && P.Inv(n) && Shows(n, reg, store, pool)
  {
    hide P.Inv, P.Next, P.Can, StateStore.Valid, Untracked, OwnerOf, Cancelled, PoolShows;
    WorldStep(s, Items.Cancel(item), reg.retention);
    n := P.Next(s, P.World(Items.Cancel(item)), reg.retention);
    PoolStays(s, n, pool);
    reg.Cancel(item, now);
  }

  /** What the protocol says about the running objects, but for some untracked files it does not know of. */
  ghost predicate ShowsBut(s: P.State, reg: ItemLifecycleRegistry, store: StateStore, pool: Pool.PantographManager,
                           extra: map<FileName, int>)
    reads reg, store, pool, pool.free
  {
    && reg.records == s.items.reg && reg.retention >= 0
    && store.Valid() && store.pins == s.items.pins && OwnerOf(store.records) == s.items.owner
    && Untracked(store.disk, store.records) == s.scratch + extra && s.scratch.Keys !! extra.Keys && store.ttl == s.ttl
    && PoolShows(s, pool)
  }

  lemma NothingExtra(s: P.State, reg: ItemLifecycleRegistry, store: StateStore, pool: Pool.PantographManager,
                     extra: map<FileName, int>)
    requires ShowsBut(s, reg, store, pool, extra)
    ensures Shows(s, reg, store, pool) <==> extra == map[]
  {
    assert s.scratch + map[] == s.scratch;
    if extra != map[] {
      var f :| f in extra;
      assert f in s.scratch + extra && f !in s.scratch;
    }
  }

  /** The cleanup route, for one item: the protocol's step, exactly, unless there are files of other suffixes named
      after the deleted states. */
  method CleanUp(reg: ItemLifecycleRegistry, store: StateStore, pool: Pool.PantographManager, ghost s: P.State,
                 item: ItemId, now: int)
    returns (answer: Routes.CleanupAnswer, ghost n: P.State)
    requires P.Inv(s) && Shows(s, reg, store, pool) && now == s.items.now
    modifies reg, store`records, store`tokensByItem, store`disk
    ensures Did(s, P.World(Items.Cleanup(item)), n, reg.retention) && P.Inv(n)
    ensures answer.DeletedStates? <==> Items.CleanedUp(s.items, item, reg.retention).1
    ensures
      var extra := Foreign(old(store.disk), old(store.records).Keys - store.records.Keys);
      ShowsBut(n, reg, store, pool, extra) && (Shows(n, reg, store, pool) <==> extra == map[])
  {
    hide P.Inv, P.Next, P.Can, StateStore.Valid, PoolShows, Untracked, OwnerOf, Swept, Foreign, Without, MarkedCleaned,
         Items.OwnedBy;
    ghost var disk, records := store.disk, store.records;
    WorldStep(s, Items.Cleanup(item), reg.retention);
    n := P.Next(s, P.World(Items.Cleanup(item)), reg.retention);
    PoolStays(s, n, pool);
    answer := Routes.CleanupOne(reg, store, item, now);
    UntrackedLess(disk, records, store.records);
    NothingExtra(n, reg, store, pool, Foreign(disk, records.Keys - store.records.Keys));
  }

  // ---------------------------------------------------------------- garbage collection

  lemma SweepStep(s: P.State, retention: nat)
    requires P.Inv(s)
    ensures
      var n := P.Next(s, P.SweepOrphans, retention);
      && P.Can(s, P.SweepOrphans) && P.Inv(n)
      && n.items == s.items && n.tasks == s.tasks && SamePool(s, n)
      && n.scratch == s.scratch - TooOld(s.scratch, s.items.now - s.ttl)
  {
    hide P.Inv, P.Next;
    P.NextKeepsInv(s, P.SweepOrphans, retention);
    P.OtherParts(s, P.SweepOrphans, retention);
  }

  /** The two steps of one collection: states are deleted, then old untracked files. */
  lemma CollectSteps(s: P.State, doomed: set<Token>, retention: nat)
    requires P.Inv(s)
    ensures
      var m := P.Next(s, P.World(Items.Gc(doomed)), retention);
      var n := P.Next(m, P.SweepOrphans, retention);
      && Did(s, P.World(Items.Gc(doomed)), m, retention) && Did(m, P.SweepOrphans, n, retention) && P.Inv(n)
      && n.items == Items.Next(s.items, Items.Gc(doomed), retention)
      && n.tasks == s.tasks && SamePool(s, n) && n.scratch == s.scratch - TooOld(s.scratch, s.items.now - s.ttl)
  {
    hide P.Inv, P.Next, P.Can, TooOld;
    WorldStep(s, Items.Gc(doomed), retention);
    SweepStep(P.Next(s, P.World(Items.Gc(doomed)), retention), retention);
  }

  /** What is untracked after a collection. */
  lemma CollectFiles(disk: Disk, before: Records, after: Records, cutoff: int)
    requires after.Keys <= before.Keys
    ensures
      var gone := before.Keys - after.Keys;
      var left, extra := Without(disk, gone), Spared(disk, gone, cutoff);
      var files := Untracked(disk, before) - TooOld(Untracked(disk, before), cutoff);
      Untracked(SweptDisk(left, after, cutoff, left.Keys), after) == files + extra && files.Keys !! extra.Keys
  {
    var gone := before.Keys - after.Keys;
    UntrackedLess(disk, before, after);
    UntrackedSwept(Without(disk, gone), after, cutoff);
    hide Untracked, Foreign, Without, SweptDisk;
  }

  /** What a collection does to states and files is what its two steps say. */
  lemma CollectShown(s: P.State, before: Records, after: Records, disk: Disk, cutoff: int, retention: nat)
    returns (m: P.State, n: P.State)
    requires P.Inv(s) && after.Keys <= before.Keys && s.items.pins.Keys <= after.Keys
    requires forall t :: t in after ==> after[t] == before[t]
    requires OwnerOf(before) == s.items.owner && Untracked(disk, before) == s.scratch
    requires cutoff == s.items.now - s.ttl
    ensures
      Did(s, P.World(Items.Gc(before.Keys - after.Keys)), m, retention) && Did(m, P.SweepOrphans, n, retention)
    ensures P.Inv(n) && SamePool(s, n) && n.ttl == s.ttl
    ensures n.items.reg == s.items.reg && n.items.pins == s.items.pins && n.items.owner == OwnerOf(after)
    ensures n.items.now == s.items.now
    ensures
      var left := Without(disk, before.Keys - after.Keys);
      var extra := Spared(disk, before.Keys - after.Keys, cutoff);
      && Untracked(SweptDisk(left, after, cutoff, left.Keys), after) == n.scratch + extra
      && n.scratch.Keys !! extra.Keys
  {
    hide OwnerOf, Untracked, Without, SweptDisk, TooOld, Spared, Did, P.Inv, P.Next;
    var doomed := before.Keys - after.Keys;
    CollectSteps(s, doomed, retention);
    m := P.Next(s, P.World(Items.Gc(doomed)), retention);
    n := P.Next(m, P.SweepOrphans, retention);
    OwnersLess(before, after, s.items.pins);
    CollectFiles(disk, before, after, cutoff);
  }

  lemma ReclaimedKeeps(before: Records, after: Records, pins: map<Token, nat>, cutoff: int, maxBytes: int)
    requires Reclaimed(before, after, pins, cutoff, maxBytes)
    ensures after.Keys <= before.Keys && pins.Keys <= after.Keys && forall t :: t in after ==> after[t] == before[t]
  {
    hide TotalBytes, BytesOf;
  }

  /** One round of the collection loop, whichever states it takes: the protocol's two steps, exactly, unless there are
      files of other suffixes named after the deleted states, too young to be swept. */
  method Collect(reg: ItemLifecycleRegistry, store: StateStore, pool: Pool.PantographManager, ghost s: P.State,
                 now: int)
    returns (states: nat, bytes: nat, ghost m: P.State, ghost n: P.State)
    requires P.Inv(s) && Shows(s, reg, store, pool) && now == s.items.now
    modifies store`records, store`tokensByItem, store`disk
    ensures
      var doomed := old(store.records).Keys - store.records.Keys;
      var extra := Spared(old(store.disk), doomed, now - store.ttl);
      && Did(s, P.World(Items.Gc(doomed)), m, reg.retention) && Did(m, P.SweepOrphans, n, reg.retention)
      && P.Inv(n) && n.items.now == now
      && ShowsBut(n, reg, store, pool, extra) && (Shows(n, reg, store, pool) <==> extra == map[])
  {
    hide P.Inv, P.Next, P.Can, StateStore.Valid, PoolShows, OwnerOf, Untracked, Without, SweptDisk, TooOld, Spared,
         TotalBytes, BudgetDeleted, OrphanBins, ApplyAll, CrashSafe, BytesOf, Did, Items.Next, SamePool, Deleted,
         ExpiredTokens, Foreign, Reclaimed;
    ghost var disk, records := store.disk, store.records;
    ghost var ops, order, k;
    states, bytes, ops, order, k := store.GcExpired(now);
    ghost var doomed := records.Keys - store.records.Keys;
    ReclaimedKeeps(records, store.records, store.pins, now - store.ttl, store.maxBytes);
    m, n := CollectShown(s, records, store.records, disk, now - store.ttl, reg.retention);
    PoolStays(s, n, pool);
    ghost var extra := Spared(disk, doomed, now - store.ttl);
    assert ShowsBut(n, reg, store, pool, extra);
    NothingExtra(n, reg, store, pool, extra);
    hide ShowsBut, Shows, StoreShows;
  }
}
