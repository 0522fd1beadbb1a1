/** What ties the running registry, store and pool to the resource protocol: the stretches of route code that several
    coroutines share, as steps of it. */
module ResourceRoutes {
  import opened Wrappers
  import opened Lifecycle
  import opened StateFiles
  import opened Store = StateStore
  import opened ScratchFiles
  import Items = ItemProtocol
  import Pool = WorkerPool
  import P = ResourceProtocol

  /** The running objects are in this state of the protocol. */
  ghost predicate Shows(s: P.State, reg: ItemLifecycleRegistry, store: StateStore, pool: Pool.PantographManager)
    reads reg, store, pool, pool.free
  {
    StoreShows(s, reg, store) && PoolShows(s, pool)
  }

  ghost predicate StoreShows(s: P.State, reg: ItemLifecycleRegistry, store: StateStore)
    reads reg, store
  {
    && reg.records == s.items.reg && reg.retention >= 0
    && store.Valid() && store.pins == s.items.pins && OwnerOf(store.records) == s.items.owner
    && Untracked(store.disk, store.records) == s.scratch && store.ttl == s.ttl
  }

  ghost predicate PoolShows(s: P.State, pool: Pool.PantographManager)
    reads pool, pool.free
  {
    && pool.Valid() && pool.busy == s.busy && pool.calls == s.marks && pool.lost == s.lost
    && forall l :: l in pool.free ==> l !in s.retired
  }

  /** A step of the protocol that was possible, and its outcome. */
  ghost predicate Did(s: P.State, a: P.Action, n: P.State, retention: int) {
    retention >= 0 && P.Can(s, a) && n == P.Next(s, a, retention)
  }

  /** What a step that concerns neither the pool nor the clock leaves as it is. */
  ghost predicate SamePool(s: P.State, n: P.State) {
    n.busy == s.busy && n.marks == s.marks && n.lost == s.lost && n.retired == s.retired && n.ttl == s.ttl
  }

  /** Tokens the store may give out now: not in use, and no file and no state anyone still works on is named after
      them. */
  ghost predicate Fresh(s: P.State, tokens: seq<Token>) {
    && (forall i :: 0 <= i < |tokens| ==> tokens[i] !in P.Parents(s.tasks))
    && (forall i :: 0 <= i < |tokens| ==> tokens[i] !in s.items.owner)
    && (forall i, f :: 0 <= i < |tokens| && (f in s.scratch || f in P.Owned(s.tasks)) ==> f.stem != tokens[i])
    && forall i, j :: 0 <= i < j < |tokens| ==> tokens[i] != tokens[j]
  }

  lemma FreshForStore(s: P.State, t: nat, tokens: seq<Token>, results: seq<StepOutcome>, disk: Disk, records: Records)
    requires Fresh(s, tokens) && t in s.tasks && s.tasks[t].files == FilesIn(PathsOf(results))
    requires |tokens| == |results| && OwnerOf(records) == s.items.owner && Untracked(disk, records) == s.scratch
    ensures FreshTokens(tokens, 0, Around(results, disk, records), records)
  {
    FilesInPaths(PathsOf(results));
    assert forall f :: f in s.tasks[t].files ==> f in P.Owned(s.tasks);
    hide P.Owned, P.Parents, Untracked, Paths, PathsOf, FilesIn;
  }

  lemma OwnStems(s: P.State, t: nat, records: Records)
    requires P.NamesOk(s.tasks, s.items.owner) && t in s.tasks && OwnerOf(records) == s.items.owner
    ensures forall f :: f in s.tasks[t].files ==> f.stem !in records
  {
    assert forall f :: f in s.tasks[t].files ==> f in P.Owned(s.tasks);
    hide P.Owned, P.Parents;
  }

  /** The parts of a possible step about a task that has nothing to do with the pool. */
  lemma Parts(s: P.State, a: P.Action, retention: nat)
    requires P.Can(s, a) && P.AboutTask(a)
    requires !a.Start? && !a.Lease? && !a.NoWorker? && !a.Returned? && !a.ReturnedAgain?
    ensures
      var n := P.Next(s, a, retention);
      && n.items == P.Stepped(s.items, P.ItemStep(s, a), retention) && SamePool(s, n)
      && n.scratch == P.ScratchAfter(s, a) && a.t in s.tasks
      && n.tasks == P.Put(s.tasks, a.t, P.TaskAfter(s.tasks[a.t], a, s.items.now))
  {
    P.Parts(s, a, retention);
    hide P.Next, P.Can, P.TaskAfter, P.ScratchAfter, P.Put, P.Stepped, P.ItemStep;
    assert s.lost + multiset{} == s.lost;
  }

  /** get_worker marks a worker as starting. */
  lemma Marks(s: P.State, t: nat, profile: string, evicts: bool, retention: nat)
    requires t in s.tasks && s.tasks[t].stage.Leasing?
    ensures
      var a := P.Start(t, profile, evicts);
      var n := P.Next(s, a, retention);
      && P.Can(s, a) && n.items == s.items && n.scratch == s.scratch && n.ttl == s.ttl
      && n.busy == s.busy && n.marks == s.marks + multiset{profile} && n.lost == s.lost && n.retired == s.retired
      && n.tasks == s.tasks[t := s.tasks[t].(stage := P.Starting(profile, evicts))]
  {
    P.Parts(s, P.Start(t, profile, evicts), retention);
    hide P.Next;
    assert s.lost + multiset{} == s.lost;
  }

  /** What get_worker's success adds to a step: the task has its worker, and the pool its mark back. */
  lemma Takes(s: P.State, t: nat, l: Pool.Lease, retention: nat)
    requires t in s.tasks && P.InGetWorker(s.tasks[t].stage) && l !in s.busy && l !in s.retired
    ensures
      var n := P.Next(s, P.Lease(t, l), retention);
      && P.Can(s, P.Lease(t, l))
      && n.items == s.items && n.scratch == s.scratch && n.busy == s.busy + {l} && n.ttl == s.ttl
      && n.marks == s.marks - P.MarkOf(s.tasks, t) && n.lost == s.lost && n.retired == s.retired
      && n.tasks == s.tasks[t := s.tasks[t].(stage := P.Ready, lease := Some(l))]
  {
    P.Parts(s, P.Lease(t, l), retention);
    hide P.Next;
    assert s.lost + multiset{} == s.lost && s.busy - {} == s.busy;
  }

  /** A mark of a starting task is in the pool. */
  lemma OwnMark(s: P.State, t: nat, pool: Pool.PantographManager)
    requires P.Inv(s) && t in s.tasks && s.tasks[t].stage.Starting? && PoolShows(s, pool)
    ensures s.tasks[t].stage.profile in pool.calls && P.MarkOf(s.tasks, t) == multiset{s.tasks[t].stage.profile}
  {
    P.OwnMark(s.tasks, s.marks, t);
    hide Items.Inv, P.MarksOk;
    assert s.tasks[t].stage.profile in P.MarkOf(s.tasks, t);
  }

  /** The lease a task holds is busy. */
  lemma HeldIsBusy(s: P.State, t: nat)
    requires P.Inv(s) && t in s.tasks && s.tasks[t].lease.Some?
    ensures s.tasks[t].lease.value in s.busy && s.tasks[t].lease.value !in s.retired
  {
    assert s.tasks[t].lease.value in P.Held(s.tasks);
    hide Items.Inv, P.TasksOk, P.BracketsOk, P.FilesOk, P.AgesOk, P.MarksOk, P.NamesOk, P.ParentsOk, P.Held;
  }

  /** A worker comes back. */
  lemma Returns(s: P.State, t: nat, raises: bool, retention: nat)
    requires t in s.tasks && s.tasks[t].stage.Returning? && s.tasks[t].lease.Some?
    ensures
      var a, l := P.Returned(t, raises), s.tasks[t].lease.value;
      var n := P.Next(s, a, retention);
      && P.Can(s, a) && n.items == s.items && n.scratch == s.scratch && n.ttl == s.ttl
      && n.busy == s.busy - {l} && n.marks == s.marks && n.lost == s.lost
      && n.retired == s.retired + (if raises then {l} else {})
      && n.tasks == P.Put(s.tasks, t, P.TaskAfter(s.tasks[t], a, s.items.now))
  {
    assert P.Can(s, P.Returned(t, raises));
    hide P.Next, P.TaskAfter, P.Put, P.Can;
    P.Parts(s, P.Returned(t, raises), retention);
    assert s.lost + multiset{} == s.lost && s.busy - {s.tasks[t].lease.value} + {} == s.busy - {s.tasks[t].lease.value};
  }

  /** get_worker fails. */
  lemma Misses(s: P.State, t: nat, closing: bool, retention: nat)
    requires t in s.tasks && P.InGetWorker(s.tasks[t].stage)
    requires closing ==> s.tasks[t].stage.Starting? && s.tasks[t].stage.evicts
    ensures
      var a := P.NoWorker(t, closing);
      var n := P.Next(s, a, retention);
      && P.Can(s, a) && n.scratch == s.scratch && n.ttl == s.ttl && n.busy == s.busy && n.retired == s.retired
      && n.marks == s.marks - P.MarkOf(s.tasks, t)
      && n.lost == s.lost + (if closing then P.MarkOf(s.tasks, t) else multiset{})
      && n.items == P.Stepped(s.items, P.ItemStep(s, a), retention)
      && n.tasks == P.Put(s.tasks, t, P.TaskAfter(s.tasks[t], a, s.items.now))
  {
    assert P.Can(s, P.NoWorker(t, closing));
    hide P.Next, P.TaskAfter, P.Put, P.Can, P.MarkOf, P.Stepped, P.ItemStep;
    P.Parts(s, P.NoWorker(t, closing), retention);
  }

  /** A task that only waits has no mark. */
  lemma NoMark(s: P.State, t: nat, retention: nat)
    requires t in s.tasks && s.tasks[t].stage.Leasing?
    ensures SamePool(s, P.Next(s, P.NoWorker(t, false), retention))
  {
    Misses(s, t, false, retention);
    hide P.Next;
    assert s.marks - multiset{} == s.marks && s.lost + multiset{} == s.lost;
  }

  lemma PoolStays(s: P.State, n: P.State, pool: Pool.PantographManager)
    requires PoolShows(s, pool) && SamePool(s, n)
    ensures PoolShows(n, pool)
  {}

  /** A step that concerns only its task. */
  lemma ShowsStay(s: P.State, n: P.State, reg: ItemLifecycleRegistry, store: StateStore, pool: Pool.PantographManager)
    requires Shows(s, reg, store, pool) && n.items == s.items && n.scratch == s.scratch && SamePool(s, n)
    ensures Shows(n, reg, store, pool)
  {
    PoolStays(s, n, pool);
    hide PoolShows, OwnerOf, Untracked, StateStore.Valid;
  }

  lemma RegShows(s: P.State, reg: ItemLifecycleRegistry, store: StateStore, pool: Pool.PantographManager)
    requires Shows(s, reg, store, pool)
    ensures reg.records == s.items.reg && reg.retention >= 0
  {
    hide PoolShows, OwnerOf, Untracked, StateStore.Valid;
  }

  // ---------------------------------------------------------------- get_worker and return_worker

  /** One pass of get_worker's loop for a task: a free worker that fits, a new one to be started, or another wait. */
  method TryLease(pool: Pool.PantographManager, ghost s: P.State, ghost t: nat, profile: string, hash: string,
                  ghost retention: nat) returns (d: Pool.Decision, ghost n: P.State)
    requires P.Inv(s) && PoolShows(s, pool) && t in s.tasks && s.tasks[t].stage.Leasing?
    modifies pool`free, pool`busy, pool`starting, pool`startingBy, pool`calls
    ensures P.Inv(n) && PoolShows(n, pool) && n.items == s.items && n.scratch == s.scratch && n.ttl == s.ttl
    ensures match d
      case Reuse(l) =>
        && pool.Matches(l, profile, hash) && Did(s, P.Lease(t, l), n, retention)
        && n.tasks == s.tasks[t := s.tasks[t].(stage := P.Ready, lease := Some(l))]
      case Wait => n == s
      case _ =>
        && Did(s, P.Start(t, profile, d.Evict?), n, retention)
        && n.tasks == s.tasks[t := s.tasks[t].(stage := P.Starting(profile, d.Evict?))]
  {
    hide P.Inv, P.Next, P.Can, Pool.PantographManager.Valid, Pool.CountersAgree, Pool.CountIn, Pool.OfProfile,
         Pool.StartingOf, Pool.Marked, Pool.Without;
    n := s;
    d := pool.TryAcquire(profile, hash);
    if d.Reuse? {
      Takes(s, t, d.lease, retention);
      n := P.Next(s, P.Lease(t, d.lease), retention);
      P.NextKeepsInv(s, P.Lease(t, d.lease), retention);
      assert s.marks - multiset{} == s.marks;
    } else if !d.Wait? {
      Marks(s, t, profile, d.Evict?, retention);
      n := P.Next(s, P.Start(t, profile, d.Evict?), retention);
      P.NextKeepsInv(s, P.Start(t, profile, d.Evict?), retention);
    }
  }

  /** The new worker is up: its mark is taken back. */
  method StartDone(pool: Pool.PantographManager, ghost s: P.State, ghost t: nat, profile: string, hash: string,
                   now: int, ghost retention: nat) returns (l: Pool.Lease, ghost n: P.State)
    requires P.Inv(s) && PoolShows(s, pool) && t in s.tasks
    requires s.tasks[t].stage.Starting? && s.tasks[t].stage.profile == profile
    modifies pool`busy, pool`starting, pool`startingBy, pool`calls
    ensures P.Inv(n) && PoolShows(n, pool) && n.items == s.items && n.scratch == s.scratch && n.ttl == s.ttl
    ensures l.envProfile == profile && l.headerHash == hash && Did(s, P.Lease(t, l), n, retention)
    ensures n.tasks == s.tasks[t := s.tasks[t].(stage := P.Ready, lease := Some(l))]
  {
    hide P.Inv, P.Next, P.Can, Pool.PantographManager.Valid, Pool.CountersAgree, Pool.CountIn, Pool.OfProfile,
         Pool.StartingOf, Pool.Unmarked, Pool.Without;
    OwnMark(s, t, pool);
    l := pool.StartSucceeded(profile, hash, now);
    Takes(s, t, l, retention);
    n := P.Next(s, P.Lease(t, l), retention);
    P.NextKeepsInv(s, P.Lease(t, l), retention);
  }

  /** The new worker does not start, or the one it replaces cannot be closed: then the mark is lost. */
  method StartFails(pool: Pool.PantographManager, ghost s: P.State, ghost t: nat, profile: string, closing: bool,
                    ghost retention: nat)
    requires P.Inv(s) && PoolShows(s, pool) && t in s.tasks
    requires s.tasks[t].stage.Starting? && s.tasks[t].stage.profile == profile
    requires closing ==> s.tasks[t].stage.evicts
    modifies pool`starting, pool`startingBy, pool`calls, pool`lost
    ensures PoolShows(P.Next(s, P.NoWorker(t, closing), retention), pool)
  {
    hide P.Inv, P.Next, P.Can, Pool.PantographManager.Valid, Pool.CountersAgree, Pool.CountIn, Pool.OfProfile,
         Pool.StartingOf, Pool.Unmarked, Pool.Without;
    OwnMark(s, t, pool);
    Misses(s, t, closing, retention);
    if closing {
      pool.CloseRaised(profile);
    } else {
      pool.StartFailed(profile);
      assert s.lost + multiset{} == s.lost;
    }
  }

  /** return_worker, whatever state the worker is in; closing it may raise once the lease is back. */
  method GiveBack(pool: Pool.PantographManager, ghost s: P.State, ghost t: nat, l: Pool.Lease, alive: bool,
                  collected: bool, aliveAfter: bool, raises: bool, now: int, ghost retention: nat)
    returns (raised: bool, ghost n: P.State)
    requires P.Inv(s) && PoolShows(s, pool) && t in s.tasks && s.tasks[t].stage.Returning?
    requires s.tasks[t].lease == Some(l)
    modifies pool`free, pool`busy, l
    ensures P.Inv(n) && PoolShows(n, pool) && n.items == s.items && n.scratch == s.scratch && n.ttl == s.ttl
    ensures Did(s, P.Returned(t, raised), n, retention) && n.busy == s.busy - {l}
    ensures n.tasks == P.Put(s.tasks, t, P.TaskAfter(s.tasks[t], P.Returned(t, raised), s.items.now))
    ensures raised ==> raises && l in n.retired
  {
    hide P.Inv, P.Next, P.Can, Pool.PantographManager.Valid, P.TaskAfter, P.Put;
    HeldIsBusy(s, t);
    var closed := Pool.ReturnWorker(pool, l, alive, collected, aliveAfter, now);
    raised := raises && closed;
    Returns(s, t, raised, retention);
    n := P.Next(s, P.Returned(t, raised), retention);
    P.NextKeepsInv(s, P.Returned(t, raised), retention);
  }

  // ---------------------------------------------------------------- files

  /** What FinishCreate and FinishStep ask for. */
  lemma ReadyToStore(s: P.State, t: nat, results: seq<StepOutcome>, tokens: seq<Token>, disk: Disk, records: Records)
    requires P.Inv(s) && t in s.tasks && s.tasks[t].files == FilesIn(PathsOf(results)) && OwnPaths(results)
    requires |tokens| == |results| && Fresh(s, tokens)
    requires OwnerOf(records) == s.items.owner && Untracked(disk, records) == s.scratch
    ensures Promotable(results, records)
    ensures FreshTokens(tokens, 0, Around(results, disk, records), records)
  {
    hide Items.Inv, P.BracketsOk, P.LeasesOk, P.FilesOk, P.TasksOk, P.AgesOk, P.MarksOk, OwnPaths, FilesIn;
    OwnStems(s, t, records);
    FilesInPaths(PathsOf(results));
    FreshForStore(s, t, tokens, results, disk, records);
  }

  lemma GivenFromFresh(s: P.State, t: nat, tokens: seq<Token>, results: seq<StepOutcome>, k: nat)
    requires Fresh(s, tokens) && k <= |results| == |tokens|
    ensures P.FreshTokens(s, Given(results, tokens, k))
    ensures forall x :: x in Given(results, tokens, k) ==> x !in s.items.owner
  {
    hide P.Owned, P.Parents;
  }

  /** Promotion stops where the protocol says, with the files moved that it says. */
  lemma {:induction false} MovesTo(files: seq<FileName>, results: seq<StepOutcome>, there: set<FileName>)
    requires files == FilesIn(PathsOf(results))
    ensures P.Names(files[..P.Reach(files, there)]) == Paths(PathsOf(results[..StopsAt(results, 0, true, there)]))
  {
    var k, paths := StopsAt(results, 0, true, there), PathsOf(results);
    StopsWhere(results, 0, true, there);
    assert PathsOf(results[..k]) == paths[..k];
    FilesInPrefix(paths, k);
    FilesInPaths(paths[..k]);
    var n := |FilesIn(paths[..k])|;
    hide StopsAt, FilesIn, P.Reach;
    forall i | 0 <= i < n ensures files[i] in there {
      assert files[i] in FilesIn(paths[..k]) && files[i] in Paths(paths[..k]);
    }
    if k == |results| {
      assert paths[..k] == paths;
    } else {
      assert files[n] == (FilesIn(paths[..k]) + [paths[k].value])[n] == results[k].path.value;
    }
    assert P.Reach(files, there) == n;
    assert files[..n] == FilesIn(paths[..k]);
  }

  lemma {:induction false} MovedAre(s: P.State, t: nat, results: seq<StepOutcome>)
    requires t in s.tasks && s.tasks[t].files == FilesIn(PathsOf(results))
    ensures P.Moved(s, s.tasks[t])
         == Paths(PathsOf(results[..StopsAt(results, 0, !P.ParentGone(s, s.tasks[t]), s.scratch.Keys)]))
    ensures P.FilesAt(s.tasks, t) == Paths(PathsOf(results))
  {
    FilesInPaths(PathsOf(results));
    MovesTo(s.tasks[t].files, results, s.scratch.Keys);
    StopsCases(results, false, s.scratch.Keys);
    hide StopsAt, FilesIn, P.Reach, P.ParentGone, Paths, PathsOf;
  }

  /** A new file is not there yet, and allocating it is a step of the protocol. */
  lemma Writes(s: P.State, t: nat, name: FileName, disk: Disk, records: Records, retention: nat)
    requires t in s.tasks && !s.tasks[t].role.Verifies? && s.tasks[t].stage.Working? && P.FreshName(s, name)
    requires OwnerOf(records) == s.items.owner && Untracked(disk, records) == s.scratch
    ensures name !in disk && name.stem !in records && name !in s.tasks[t].files
    ensures
      var n := P.Next(s, P.Allocate(t, name), retention);
      && P.Can(s, P.Allocate(t, name)) && n.items == s.items && n.scratch == s.scratch[name := s.items.now]
      && SamePool(s, n)
      && n.tasks == s.tasks[t := s.tasks[t].(files := s.tasks[t].files + [name])]
  {
    assert forall f :: f in s.tasks[t].files ==> f in P.Owned(s.tasks);
    hide P.Owned;
    assert P.Can(s, P.Allocate(t, name));
    Parts(s, P.Allocate(t, name), retention);
    hide P.Next, P.Can;
  }

  /** The files of a call but the first few are unlinked. */
  lemma Unwrites(s: P.State, t: nat, keep: nat, records: Records, retention: nat)
    requires P.Inv(s) && t in s.tasks && keep <= |s.tasks[t].files| && OwnerOf(records) == s.items.owner
    ensures forall f :: f in P.Dropped(s.tasks[t], keep) ==> f.stem !in records
    ensures
      var n := P.Next(s, P.Unsave(t, keep), retention);
      && P.Can(s, P.Unsave(t, keep)) && n.items == s.items && n.scratch == s.scratch - P.Dropped(s.tasks[t], keep)
      && SamePool(s, n)
      && n.tasks == s.tasks[t := s.tasks[t].(files := s.tasks[t].files[..keep])]
  {
    hide Items.Inv, P.BracketsOk, P.LeasesOk, P.FilesOk, P.TasksOk, P.AgesOk, P.MarksOk;
    OwnStems(s, t, records);
    Parts(s, P.Unsave(t, keep), retention);
    hide P.Next;
  }

  /** While a worker call is under way, Lean writes one of its files. */
  method LeanSaves(reg: ItemLifecycleRegistry, store: StateStore, pool: Pool.PantographManager, ghost s: P.State,
                   ghost t: nat, name: FileName, size: nat, now: int) returns (ghost n: P.State)
    requires P.Inv(s) && Shows(s, reg, store, pool) && now == s.items.now
    requires t in s.tasks && name in s.tasks[t].files && name.ext == Bin
    modifies store`disk
    ensures Did(s, P.Save(t, name), n, reg.retention) && P.Inv(n) && Shows(n, reg, store, pool)
    ensures n.tasks == s.tasks && n.items == s.items && n.scratch == s.scratch[name := now]
  {
    hide P.Inv, P.Next, P.Can, StateStore.Valid, Pool.PantographManager.Valid, Consistent, Untracked, OwnerOf;
    Rewrites(s, t, name, store.records, reg.retention);
    n := P.Next(s, P.Save(t, name), reg.retention);
    P.NextKeepsInv(s, P.Save(t, name), reg.retention);
    LeanWrites(store, name, size, now);
  }

  lemma Rewrites(s: P.State, t: nat, name: FileName, records: Records, retention: nat)
    requires P.Inv(s) && t in s.tasks && name in s.tasks[t].files && OwnerOf(records) == s.items.owner
    ensures name.stem !in records
    ensures
      var n := P.Next(s, P.Save(t, name), retention);
      && P.Can(s, P.Save(t, name)) && n.items == s.items && n.scratch == s.scratch[name := s.items.now]
      && SamePool(s, n) && n.tasks == s.tasks
  {
    hide Items.Inv, P.BracketsOk, P.LeasesOk, P.FilesOk, P.TasksOk, P.AgesOk, P.MarksOk;
    OwnStems(s, t, records);
    Parts(s, P.Save(t, name), retention);
    hide P.Next;
    assert s.tasks[t := s.tasks[t]] == s.tasks;
  }
}
