/** create_one (routers/exec.py, with the worker call of pantograph_worker.py): a suspended coroutine whose methods are
    the code up to the next await. Whatever other tasks did to registry, store and pool meanwhile, each takes its own
    step of the resource protocol and no other. */
module CreateRoute {
  import opened Wrappers
  import opened Lifecycle
  import opened StateFiles
  import opened Store = StateStore
  import opened ScratchFiles
  import opened ResourceRoutes
  import Items = ItemProtocol
  import Pool = WorkerPool
  import P = ResourceProtocol

  // ---------------------------------------------------------------- the steps of its task, one by one

  /** The task of a created item, up to its finally block. */
  ghost predicate IsCreate(s: P.State, t: nat, item: ItemId) {
    t in s.tasks && s.tasks[t].role == P.Creates(item)
  }

  lemma BracketOpen(s: P.State, t: nat, item: ItemId)
    requires P.Inv(s) && IsCreate(s, t, item) && !s.tasks[t].stage.Returning?
    ensures s.tasks[t].bracket in s.items.brackets && s.items.brackets[s.tasks[t].bracket] == Items.One(item, true)
  {
    assert P.BracketOk(s.items.brackets, s.raised, s.tasks[t]);
    hide Items.Inv;
  }

  lemma Opens(s: P.State, t: nat, item: ItemId, retention: nat)
    requires t !in s.tasks
    ensures
      var n := P.Next(s, P.OpenOne(t, item, true), retention);
      var (reg, started) := Begun(s.items.reg, item, s.items.now);
      && P.Can(s, P.OpenOne(t, item, true))
      && n.items.reg == reg && n.items.owner == s.items.owner && n.items.pins == s.items.pins
      && n.items.now == s.items.now && n.scratch == s.scratch && SamePool(s, n)
      && (if started then n.tasks == s.tasks[t := P.NewTask(s.items.next, P.Creates(item), P.Leasing)]
          else n.tasks == s.tasks)
  {
    P.OtherParts(s, P.OpenOne(t, item, true), retention);
    hide Begun, P.Next;
  }

  lemma ItemCloses(items: Items.State, b: nat, item: ItemId, made: set<Token>, retention: nat)
    requires b in items.brackets && items.brackets[b] == Items.One(item, true)
    ensures
      var n := Items.Next(items, Items.CloseOne(b, made), retention);
      && n.reg == Finished(items.reg, item, items.now, retention) && n.pins == items.pins && n.now == items.now
      && n.owner == Items.Stored(items, item, made)
    ensures Items.Stored(items, item, {}) == items.owner
  {}

  /** The steps that end a created item: its work is finished once, what it made is stored unless it is cancelled. */
  lemma Closes(s: P.State, a: P.Action, t: nat, item: ItemId, retention: nat)
    requires P.Inv(s) && IsCreate(s, t, item) && P.Can(s, a) && P.Closes(a) && a.t == t
    requires !s.tasks[t].stage.Returning?
    ensures
      var n := P.Next(s, a, retention);
      && n.items.reg == Finished(s.items.reg, item, s.items.now, retention) && n.items.pins == s.items.pins
      && n.items.owner == Items.Stored(s.items, item, if a.Answer? then a.made else {})
      && n.items.now == s.items.now && n.scratch == P.ScratchAfter(s, a) && n.ttl == s.ttl
      && (!a.NoWorker? ==> SamePool(s, n))
      && n.tasks == P.Put(s.tasks, t, P.TaskAfter(s.tasks[t], a, s.items.now))
    ensures Items.Stored(s.items, item, {}) == s.items.owner
  {
    hide P.Inv, P.TaskAfter, P.ScratchAfter, P.Can, P.Next, P.ItemStep, Items.Next, Items.Stored, Finished, P.Put,
         P.MarksAfter, P.LostBy;
    BracketOpen(s, t, item);
    ItemCloses(s.items, s.tasks[t].bracket, item, if a.Answer? then a.made else {}, retention);
    P.Parts(s, a, retention);
    ClosesBy(s, a, item);
    assert s.lost + multiset{} == s.lost;
  }

  lemma ClosesBy(s: P.State, a: P.Action, item: ItemId)
    requires P.Closes(a) && IsCreate(s, a.t, item)
    ensures P.ItemStep(s, a) == Some(Items.CloseOne(s.tasks[a.t].bracket, if a.Answer? then a.made else {}))
    ensures !a.NoWorker? ==> P.MarksAfter(s, a) == s.marks && P.LostBy(s, a) == multiset{}
  {}

  lemma Calls(s: P.State, t: nat, item: ItemId, retention: nat)
    requires IsCreate(s, t, item) && s.tasks[t].stage.Ready? && s.tasks[t].lease.Some?
    ensures
      var n := P.Next(s, P.Call(t, 0), retention);
      && P.Can(s, P.Call(t, 0)) && P.Can(s, P.Leave(t))
      && n.items == s.items && n.scratch == s.scratch && SamePool(s, n)
      && n.tasks == s.tasks[t := s.tasks[t].(stage := P.Working(0), since := s.items.now)]
  {
    Parts(s, P.Call(t, 0), retention);
    hide P.Next;
  }

  /** How far promotion gets is a step of the protocol. */
  lemma {:induction false} MayAnswer(s: P.State, t: nat, item: ItemId, results: seq<StepOutcome>, tokens: seq<Token>)
    requires IsCreate(s, t, item) && s.tasks[t].stage.Working?
    requires s.tasks[t].files == FilesIn(PathsOf(results)) && |tokens| == |results| && Fresh(s, tokens)
    ensures
      var k := StopsAt(results, 0, true, s.scratch.Keys);
      && P.Can(s, P.Answer(t, true, Given(results, tokens, k)))
      && P.FilesAt(s.tasks, t) == Paths(PathsOf(results)) && P.Moved(s, s.tasks[t]) == Paths(PathsOf(results[..k]))
      && forall x :: x in Given(results, tokens, k) ==> x !in s.items.owner
  {
    MovedAre(s, t, results);
    assert !P.ParentGone(s, s.tasks[t]);
    GivenFromFresh(s, t, tokens, results, StopsAt(results, 0, true, s.scratch.Keys));
    hide StopsAt, Paths, PathsOf, Given, P.FreshTokens, Fresh, P.ParentGone, P.Moved, FilesIn;
  }

  lemma StoredOf(items: Items.State, item: ItemId, made: set<Token>)
    requires forall x :: x in made ==> x !in items.owner
    ensures Items.Stored(items, item, made)
         == if ShouldCancel(items.reg, item) then items.owner else OwnersWith(items.owner, made, item)
  {}

  lemma {:induction false} SettledAt(results: seq<StepOutcome>, tokens: seq<Token>, cancelled: bool, k: nat,
                                     item: ItemId, owner: map<Token, ItemId>, owner': map<Token, ItemId>,
                                     files: map<FileName, int>, files': map<FileName, int>)
    requires |tokens| == |results| && Settled(results, tokens, cancelled, true, k, item, owner, owner', files, files')
    ensures k == StopsAt(results, 0, true, files.Keys) <= |results|
  {}

  /** What FinishCreate and finish do together is one step of the protocol. */
  lemma Settles(s: P.State, t: nat, item: ItemId, results: seq<StepOutcome>, tokens: seq<Token>, k: nat,
                owner: map<Token, ItemId>, files: map<FileName, int>, retention: nat)
    requires P.Inv(s) && IsCreate(s, t, item) && s.tasks[t].stage.Working?
    requires s.tasks[t].files == FilesIn(PathsOf(results)) && |tokens| == |results| && Fresh(s, tokens)
    requires Settled(results, tokens, ShouldCancel(s.items.reg, item), true, k, item, s.items.owner, owner,
                     s.scratch, files)
    ensures
      var a := P.Answer(t, true, Given(results, tokens, k));
      var n := P.Next(s, a, retention);
      && P.Can(s, a) && P.Inv(n)
      && n.items.reg == Finished(s.items.reg, item, s.items.now, retention) && n.items.pins == s.items.pins
      && n.items.owner == owner && n.items.now == s.items.now && SamePool(s, n) && n.scratch == files
      && n.tasks == s.tasks[t := s.tasks[t].(stage := P.Returning(true), files := [])]
  {
    hide P.Inv, P.Next, P.Can, Paths, PathsOf, Given, StopsAt, OwnersWith, Finished, Items.Stored, Fresh, FilesIn,
         P.Moved, P.FilesAt;
    var a := P.Answer(t, true, Given(results, tokens, k));
    MayAnswer(s, t, item, results, tokens);
    Closes(s, a, t, item, retention);
    StoredOf(s.items, item, Given(results, tokens, k));
    P.NextKeepsInv(s, a, retention);
  }

  /** How far the results of a created item get, and that this is a step of the protocol. */
  ghost predicate Settling(s: P.State, t: nat, item: ItemId, results: seq<StepOutcome>, tokens: seq<Token>, k: nat,
                           n: P.State, retention: int)
    requires |tokens| == |results|
  {
    k == StopsAt(results, 0, true, s.scratch.Keys) && Did(s, P.Answer(t, true, Given(results, tokens, k)), n, retention)
  }

  /** Discard the files of a cancelled item, otherwise store them in order, up to the first that is gone; finish. */
  method SettleCreate(reg: ItemLifecycleRegistry, store: StateStore, pool: Pool.PantographManager, ghost s: P.State,
                      ghost t: nat, item: ItemId, envProfile: string, header: string, headerHash: string,
                      results: seq<StepOutcome>, tokens: seq<Token>, now: int)
    returns (cancelled: bool, raised: bool, stored: seq<Token>, ghost k: nat, ghost n: P.State)
    requires P.Inv(s) && Shows(s, reg, store, pool) && now == s.items.now
    requires IsCreate(s, t, item) && s.tasks[t].stage.Working? && s.tasks[t].files == FilesIn(PathsOf(results))
    requires OwnPaths(results) && AllOpen(results) && |tokens| == |results| && Fresh(s, tokens)
    modifies reg, store`records, store`tokensByItem, store`disk
    ensures Settling(s, t, item, results, tokens, k, n, reg.retention)
    ensures P.Inv(n) && Shows(n, reg, store, pool) && n.items.now == now
    ensures n.tasks == s.tasks[t := s.tasks[t].(stage := P.Returning(true), files := [])]
    ensures cancelled == ShouldCancel(s.items.reg, item) && (raised <==> !cancelled && k < |results|)
    ensures stored == if cancelled || raised then [] else tokens
  {
    hide P.Inv, P.Next, P.Can, StateStore.Valid, Pool.PantographManager.Valid, Consistent, Untracked, OwnerOf, Paths,
         PathsOf, Fresh, OwnPaths, AllOpen, FreshTokens, Around, Given, StopsAt, Finished, EnvsOk, Settled, Promotable,
         FilesIn;
    ReadyToStore(s, t, results, tokens, store.disk, store.records);
    cancelled, raised, stored, k := FinishCreate(reg, store, item, envProfile, header, headerHash, results, tokens,
        now);
    Settles(s, t, item, results, tokens, k, OwnerOf(store.records), Untracked(store.disk, store.records),
        reg.retention);
    SettledAt(results, tokens, cancelled, k, item, s.items.owner, OwnerOf(store.records), s.scratch,
              Untracked(store.disk, store.records));
    n := P.Next(s, P.Answer(t, true, Given(results, tokens, k)), reg.retention);
    reg.Finish(item, now);
  }

  // ---------------------------------------------------------------- create_one

  datatype Point =
    | Start
    | Waiting      // in get_worker
    | Starting     // in get_worker, a new worker on its way
    | Loading      // in the worker call: Lean loads the code
    | Saving       // in the worker call: Lean writes the last file of `written`
    | Monitoring   // the worker call is answered, the debug monitor is being stopped
    | Returning    // in return_worker
    | Over

  datatype Answer = Cancelled | Overloaded | Failed | Made(tokens: seq<Token>)

  /** The first results are saved states; every file written is another one. */
  ghost predicate SavedOk(results: seq<StepOutcome>, written: seq<Option<FileName>>) {
    && |results| <= |written|
    && (forall i :: 0 <= i < |results| ==> results[i] == StepOutcome("", Open, written[i]))
    && (forall i :: 0 <= i < |written| ==> written[i].Some?)
    && forall i, j :: 0 <= i < j < |written| ==> written[i] != written[j]
  }

  lemma SavedAll(results: seq<StepOutcome>, written: seq<Option<FileName>>)
    requires SavedOk(results, written) && |results| == |written|
    ensures PathsOf(results) == written && OwnPaths(results) && AllOpen(results)
  {}

  lemma SavedMore(results: seq<StepOutcome>, written: seq<Option<FileName>>, name: FileName)
    requires SavedOk(results, written) && |results| == |written| && name !in FilesIn(written)
    ensures SavedOk(results, written + [Some(name)]) && FilesIn(written + [Some(name)]) == FilesIn(written) + [name]
    ensures SavedOk(results + [StepOutcome("", Open, Some(name))], written + [Some(name)])
  {
    FilesInPaths(written);
    forall i | 0 <= i < |written| ensures written[i] != Some(name) {
      if written[i].Some? {
        PathIn(written, i);
      }
    }
    FilesInLast(written, Some(name));
    hide FilesIn, Paths;
  }

  lemma NothingYet(s: P.State)
    ensures SavedOk([], []) && FilesIn([]) == [] && Fresh(s, [])
  {}

  lemma SavedLast(results: seq<StepOutcome>, written: seq<Option<FileName>>)
    requires SavedOk(results, written) && |written| == |results| + 1
    ensures SavedOk(results + [StepOutcome("", Open, written[|written| - 1])], written)
  {}

  /** All files of the call are dropped. */
  lemma AllDropped(task: P.Task, written: seq<Option<FileName>>)
    requires task.files == FilesIn(written)
    ensures P.Dropped(task, 0) == Paths(written) && task.files[..0] == []
  {
    FilesInPaths(written);
    assert task.files[0..] == task.files;
    hide FilesIn, Paths;
  }

  /** Unlinking all files of the call is a step of the protocol. */
  lemma Unlinks(s: P.State, t: nat, written: seq<Option<FileName>>, records: Records, retention: nat)
    returns (m: P.State)
    requires P.Inv(s) && t in s.tasks && s.tasks[t].files == FilesIn(written) && OwnerOf(records) == s.items.owner
    ensures forall f :: f in Paths(written) ==> f.stem !in records
    ensures
      && Did(s, P.Unsave(t, 0), m, retention) && P.Inv(m) && SamePool(s, m)
      && m.items == s.items && m.scratch == s.scratch - Paths(written)
      && m.tasks == s.tasks[t := s.tasks[t].(files := [])]
  {
    hide P.Inv, P.Next, P.Can, Paths, FilesIn, P.Dropped;
    Unwrites(s, t, 0, records, retention);
    AllDropped(s.tasks[t], written);
    P.NextKeepsInv(s, P.Unsave(t, 0), retention);
    m := P.Next(s, P.Unsave(t, 0), retention);
  }

  method UnlinkAll(reg: ItemLifecycleRegistry, store: StateStore, pool: Pool.PantographManager, ghost s: P.State,
                   ghost t: nat, written: seq<Option<FileName>>)
    returns (ghost m: P.State)
    requires P.Inv(s) && Shows(s, reg, store, pool) && t in s.tasks && s.tasks[t].files == FilesIn(written)
    modifies store`disk
    ensures Did(s, P.Unsave(t, 0), m, reg.retention) && P.Inv(m) && Shows(m, reg, store, pool)
    ensures m.items == s.items && m.tasks == s.tasks[t := s.tasks[t].(files := [])]
  {
    hide P.Inv, P.Next, P.Can, StateStore.Valid, Consistent, Untracked, OwnerOf, Paths, FilesIn, PoolShows, Did;
    m := Unlinks(s, t, written, store.records, reg.retention);
    PoolStays(s, m, pool);
    hide SamePool;
    var _ := DiscardUnpromoted(store, written);
    assert StoreShows(m, reg, store);
  }

  /** create_one, from its first line to the end of its finally block. */
  class CreateOne {
    const item: ItemId
    const envProfile: string
    const header: string
    const headerHash: string
    const debug: bool
    ghost const id: nat               // the number of its task in the protocol
    var at: Point
    var lease: Option<Pool.Lease>
    var evicting: bool                // the new worker takes the place of another
    var left: nat                     // targets still to save
    var written: seq<Option<FileName>>
    var results: seq<StepOutcome>
    var answer: Option<Answer>

    constructor (item: ItemId, envProfile: string, header: string, headerHash: string, debug: bool, ghost id: nat)
      ensures this.item == item && this.envProfile == envProfile && this.header == header
      ensures this.headerHash == headerHash && this.debug == debug && this.id == id
      ensures at == Start && lease == None && written == [] && results == [] && answer == None
    {
      this.item, this.envProfile, this.header, this.headerHash := item, envProfile, header, headerHash;
      this.debug, this.id := debug, id;
      at, lease, evicting, left, written, results, answer := Start, None, false, 0, [], [], None;
    }

    ghost predicate IsTask(s: P.State, stage: P.Stage, files: seq<FileName>)
      reads this
    {
      && IsCreate(s, id, item)
      && s.tasks[id].stage == stage && s.tasks[id].lease == lease && s.tasks[id].files == files
    }

    /** Its local variables are what the protocol says about its task. */
    ghost predicate Mine(s: P.State)
      reads this
    {
      match at
      case Start => lease == None && written == [] && results == [] && id !in s.tasks
      case Waiting => lease == None && written == [] && results == [] && IsTask(s, P.Leasing, [])
      case Starting =>
        lease == None && written == [] && results == [] && IsTask(s, P.Starting(envProfile, evicting), [])
      case Loading => lease.Some? && written == [] && results == [] && IsTask(s, P.Working(0), [])
      case Saving =>
        && lease.Some? && SavedOk(results, written) && |written| == |results| + 1 && left > 0
        && IsTask(s, P.Working(0), FilesIn(written))
      case Monitoring =>
        lease.Some? && SavedOk(results, written) && |written| == |results| && IsTask(s, P.Working(0), FilesIn(written))
      case Returning => lease.Some? && IsTask(s, P.Returning(true), [])
      case Over => id !in s.tasks
    }

    /** This coroutine, resumed in state `s` of the protocol. */
    ghost predicate At(s: P.State, reg: ItemLifecycleRegistry, store: StateStore, pool: Pool.PantographManager,
                       now: int)
      reads this, reg, store, pool, pool.free
    {
      P.Inv(s) && Shows(s, reg, store, pool) && Mine(s) && now == s.items.now
    }

    /** Up to get_worker: a closed item is refused. */
    method Begin(reg: ItemLifecycleRegistry, store: StateStore, pool: Pool.PantographManager, ghost s: P.State,
                 now: int)
      returns (ghost n: P.State)
      requires at == Start && At(s, reg, store, pool, now)
      modifies this, reg
      ensures Did(s, P.OpenOne(id, item, true), n, reg.retention) && At(n, reg, store, pool, now)
      ensures if Begun(s.items.reg, item, now).1 then at == Waiting else at == Over && answer == Some(Cancelled)
    {
      hide Begun, P.Inv, P.Next, P.Can, StateStore.Valid, Pool.PantographManager.Valid, Consistent, Untracked, OwnerOf;
      Opens(s, id, item, reg.retention);
      n := P.Next(s, P.OpenOne(id, item, true), reg.retention);
      P.NextKeepsInv(s, P.OpenOne(id, item, true), reg.retention);
      var started := reg.Begin(item, now);
      if started {
        at := Waiting;
      } else {
        at, answer := Over, Some(Cancelled);
      }
    }

    /** finish, as the first thing of the finally block. */
    method Finally(reg: ItemLifecycleRegistry, store: StateStore, pool: Pool.PantographManager, ghost s: P.State,
                   ghost a: P.Action, now: int) returns (ghost n: P.State)
      requires P.Inv(s) && StoreShows(s, reg, store) && now == s.items.now
      requires IsCreate(s, id, item) && s.tasks[id].lease == lease && !s.tasks[id].stage.Returning?
      requires (a.NoWorker? || a.Leave? || a.Raise?) && a.t == id && P.Can(s, a)
      requires (a.NoWorker? <==> lease.None?) && (a.Leave? ==> s.tasks[id].files == [])
      requires PoolShows(if a.NoWorker? then P.Next(s, a, reg.retention) else s, pool)
      modifies this, reg
      ensures Did(s, a, n, reg.retention) && At(n, reg, store, pool, now)
      ensures at == if lease.None? then Over else Returning
      ensures unchanged(`lease)
    {
      hide P.Inv, P.Next, P.Can, StateStore.Valid, Pool.PantographManager.Valid, Consistent, Untracked, OwnerOf,
           Finished, PoolShows, Items.Stored;
      n := P.Next(s, a, reg.retention);
      P.NextKeepsInv(s, a, reg.retention);
      Closes(s, a, id, item, reg.retention);
      if !a.NoWorker? {
        PoolStays(s, n, pool);
      }
      reg.Finish(item, now);
      at := if lease.None? then Over else Returning;
    }

    /** Right after get_worker, without an await in between: stop here when the item is cancelled, or call the
        worker. */
    method HaveWorker(reg: ItemLifecycleRegistry, store: StateStore, pool: Pool.PantographManager, ghost s: P.State,
                      l: Pool.Lease, now: int) returns (ghost n: P.State)
      requires P.Inv(s) && Shows(s, reg, store, pool) && now == s.items.now && written == [] && results == []
      requires IsCreate(s, id, item) && s.tasks[id]
          == P.Task(s.tasks[id].bracket, P.Creates(item), P.Ready, Some(l), [], s.tasks[id].since)
      modifies this, reg
      ensures Did(s, if ShouldCancel(s.items.reg, item) then P.Leave(id) else P.Call(id, 0), n, reg.retention)
      ensures At(n, reg, store, pool, now) && lease == Some(l)
      ensures if ShouldCancel(s.items.reg, item) then at == Returning && answer == Some(Cancelled) else at == Loading
    {
      hide P.Inv, P.Next, P.Can, StoreShows, PoolShows, FilesIn, SavedOk;
      RegShows(s, reg, store, pool);
      lease := Some(l);
      Calls(s, id, item, reg.retention);
      if ShouldCancel(reg.records, item) {
        n := Finally(reg, store, pool, s, P.Leave(id), now);
        answer := Some(Cancelled);
      } else {
        n := P.Next(s, P.Call(id, 0), reg.retention);
        ShowsStay(s, n, reg, store, pool);
        P.NextKeepsInv(s, P.Call(id, 0), reg.retention);
        at := Loading;
      }
    }

    /** get_worker gave `l` to the task, which then either leaves at once or calls its worker. */
    ghost predicate Took(s: P.State, l: Pool.Lease, n: P.State, retention: int)
      reads this
    {
      var m := if retention >= 0 then P.Next(s, P.Lease(id, l), retention) else s;
      && Did(s, P.Lease(id, l), m, retention)
      && Did(m, if ShouldCancel(s.items.reg, item) then P.Leave(id) else P.Call(id, 0), n, retention)
      && (if ShouldCancel(s.items.reg, item) then at == Returning && answer == Some(Cancelled) else at == Loading)
      && lease == Some(l)
    }

    /** One pass of get_worker's loop: a free worker that fits, a new one to be started, or another wait. */
    method TryWorker(reg: ItemLifecycleRegistry, store: StateStore, pool: Pool.PantographManager, ghost s: P.State,
                     now: int) returns (d: Pool.Decision, ghost n: P.State)
      requires at == Waiting && At(s, reg, store, pool, now)
      modifies this, reg, pool`free, pool`busy, pool`starting, pool`startingBy, pool`calls
      ensures At(n, reg, store, pool, now)
      ensures match d
        case Reuse(l) => pool.Matches(l, envProfile, headerHash) && Took(s, l, n, reg.retention)
        case Wait => at == Waiting && n == s
        case _ => at == Starting && Did(s, P.Start(id, envProfile, d.Evict?), n, reg.retention)
    {
      hide P.Inv, P.Next, P.Can, StateStore.Valid, Consistent, Untracked, OwnerOf, PoolShows;
      d, n := TryLease(pool, s, id, envProfile, headerHash, reg.retention);
      if d.Reuse? {
        n := HaveWorker(reg, store, pool, n, d.lease, now);
      } else if !d.Wait? {
        at, evicting := Starting, d.Evict?;
      }
    }

    /** The new worker is up. */
    method WorkerUp(reg: ItemLifecycleRegistry, store: StateStore, pool: Pool.PantographManager, ghost s: P.State,
                    now: int) returns (ghost n: P.State)
      requires at == Starting && At(s, reg, store, pool, now)
      modifies this, reg, pool`busy, pool`starting, pool`startingBy, pool`calls
      ensures At(n, reg, store, pool, now)
      ensures lease.Some? && lease.value.envProfile == envProfile && lease.value.headerHash == headerHash
      ensures Took(s, lease.value, n, reg.retention)
    {
      hide P.Inv, P.Next, P.Can, StateStore.Valid, Consistent, Untracked, OwnerOf, PoolShows;
      var l;
      l, n := StartDone(pool, s, id, envProfile, headerHash, now, reg.retention);
      n := HaveWorker(reg, store, pool, n, l, now);
    }

    /** get_worker raises: out of time while waiting, the new worker does not start, or the one it replaces cannot be
        closed. */
    method NoWorker(reg: ItemLifecycleRegistry, store: StateStore, pool: Pool.PantographManager, ghost s: P.State,
                    closing: bool, now: int) returns (ghost n: P.State)
      requires (at == Waiting || at == Starting) && At(s, reg, store, pool, now)
      modifies this, reg, pool`starting, pool`startingBy, pool`calls, pool`lost
      ensures Did(s, P.NoWorker(id, old(at) == Starting && old(evicting) && closing), n, reg.retention)
      ensures At(n, reg, store, pool, now) && at == Over
      ensures answer == Some(if old(at) == Waiting then Overloaded else Failed)
    {
      hide P.Inv, P.Next, P.Can, StateStore.Valid, Consistent, Untracked, OwnerOf, PoolShows, FilesIn, SavedOk,
           P.MarkOf, P.Stepped, P.ItemStep, P.TaskAfter, P.Put;
      var waiting := at == Waiting;
      ghost var lost := !waiting && evicting && closing;
      Misses(s, id, lost, reg.retention);
      if waiting {
        NoMark(s, id, reg.retention);
        PoolStays(s, P.Next(s, P.NoWorker(id, lost), reg.retention), pool);
      } else {
        StartFails(pool, s, id, envProfile, evicting && closing, reg.retention);
      }
      n := Finally(reg, store, pool, s, P.NoWorker(id, lost), now);
      answer := Some(if waiting then Overloaded else Failed);
    }

    /** The worker call is answered: with the debug monitor running there is one more await, otherwise the route goes
        on at once. */
    method CallDone(reg: ItemLifecycleRegistry, store: StateStore, pool: Pool.PantographManager, ghost s: P.State,
                    tokens: seq<Token>, now: int) returns (ghost n: P.State)
      requires lease.Some? && P.Inv(s) && Shows(s, reg, store, pool) && now == s.items.now
      requires SavedOk(results, written) && |written| == |results| && IsTask(s, P.Working(0), FilesIn(written))
      requires |tokens| == |results| && Fresh(s, tokens)
      modifies this, reg, store`records, store`tokensByItem, store`disk
      ensures At(n, reg, store, pool, now) && unchanged(`lease)
      ensures if debug then at == Monitoring && n == s && unchanged(`answer) && unchanged(`results)
              else at == Returning && Answers(s, old(results), tokens, n, reg.retention)
    {
      hide P.Inv, P.Next, StateStore.Valid, Pool.PantographManager.Valid, Consistent, Untracked, OwnerOf, SavedOk,
           Paths, Fresh;
      n := s;
      if debug {
        at := Monitoring;
      } else {
        n := Settle(reg, store, pool, s, tokens, now);
      }
    }

    /** The route has settled the answer of its worker call. */
    ghost predicate Answers(s: P.State, results: seq<StepOutcome>, tokens: seq<Token>, n: P.State, retention: int)
      requires |tokens| == |results|
      reads this
    {
      var k := StopsAt(results, 0, true, s.scratch.Keys);
      && Settling(s, id, item, results, tokens, k, n, retention)
      && answer == Some(if ShouldCancel(s.items.reg, item) then Cancelled
                        else if k < |results| then Failed else Made(tokens))
    }

    method Settle(reg: ItemLifecycleRegistry, store: StateStore, pool: Pool.PantographManager, ghost s: P.State,
                  tokens: seq<Token>, now: int) returns (ghost n: P.State)
      requires lease.Some? && P.Inv(s) && Shows(s, reg, store, pool) && now == s.items.now
      requires SavedOk(results, written) && |written| == |results| && IsTask(s, P.Working(0), FilesIn(written))
      requires |tokens| == |results| && Fresh(s, tokens)
      modifies this, reg, store`records, store`tokensByItem, store`disk
      ensures At(n, reg, store, pool, now) && at == Returning && unchanged(`lease)
      ensures Answers(s, old(results), tokens, n, reg.retention)
    {
      hide P.Inv, P.Next, P.Can, StateStore.Valid, Pool.PantographManager.Valid, Consistent, Untracked, OwnerOf,
           SavedOk, Paths, PathsOf, Fresh, OwnPaths, AllOpen, Given, StopsAt, Shows, Did;
      SavedAll(results, written);
      var cancelled, raised, stored;
      ghost var k;
      cancelled, raised, stored, k, n :=
        SettleCreate(reg, store, pool, s, id, item, envProfile, header, headerHash, results, tokens, now);
      at := Returning;
      answer := Some(if cancelled then Cancelled else if raised then Failed else Made(stored));
    }

    /** Allocate the file of the next state and hand it to Lean. */
    method Reserve(reg: ItemLifecycleRegistry, store: StateStore, pool: Pool.PantographManager, ghost s: P.State,
                   name: FileName, now: int) returns (ghost n: P.State)
      requires lease.Some? && P.Inv(s) && Shows(s, reg, store, pool) && now == s.items.now
      requires SavedOk(results, written) && |written| == |results| && IsTask(s, P.Working(0), FilesIn(written))
          && left > 0
      requires name.ext == Bin && P.FreshName(s, name)
      modifies this, store`disk
      ensures Did(s, P.Allocate(id, name), n, reg.retention) && At(n, reg, store, pool, now)
      ensures at == Saving && written == old(written) + [Some(name)] && unchanged(`lease, `left, `results, `answer)
    {
      hide P.Inv, P.Next, P.Can, StateStore.Valid, Pool.PantographManager.Valid, Consistent, Untracked, OwnerOf,
           SavedOk, Paths, P.FreshName, FilesIn, PoolShows;
      Writes(s, id, name, store.disk, store.records, reg.retention);
      SavedMore(results, written, name);
      n := P.Next(s, P.Allocate(id, name), reg.retention);
      P.NextKeepsInv(s, P.Allocate(id, name), reg.retention);
      PoolStays(s, n, pool);
      Allocate(store, name, now);
      written := written + [Some(name)];
      at := Saving;
    }

    /** The worker call has ended: its results wait for the monitor, or are settled at once. */
    ghost predicate Ended(s: P.State, results: seq<StepOutcome>, tokens: seq<Token>, n: P.State, retention: int)
      requires |tokens| == |results|
      reads this
    {
      if debug then at == Monitoring && this.results == results && n == s
      else at == Returning && Answers(s, results, tokens, n, retention)
    }

    /** Lean has loaded the code and found goals to save, or none, or it raised. */
    method Loaded(reg: ItemLifecycleRegistry, store: StateStore, pool: Pool.PantographManager, ghost s: P.State,
                  goals: Option<nat>, name: FileName, now: int) returns (ghost n: P.State)
      requires at == Loading && At(s, reg, store, pool, now)
      requires name.ext == Bin && P.FreshName(s, name)
      modifies this, reg, store`records, store`tokensByItem, store`disk
      ensures At(n, reg, store, pool, now) && unchanged(`lease)
      ensures if goals.None? || goals.value == 0 then Ended(s, [], [], n, reg.retention)
              else at == Saving && left == goals.value && Did(s, P.Allocate(id, name), n, reg.retention)
    {
      hide P.Inv, P.Next, P.Can, StateStore.Valid, Pool.PantographManager.Valid, Consistent, Untracked, OwnerOf,
           SavedOk, Paths, P.FreshName, Answers, Fresh, Did;
      NothingYet(s);
      if goals.None? || goals.value == 0 {
        n := CallDone(reg, store, pool, s, [], now);
      } else {
        left := goals.value;
        n := Reserve(reg, store, pool, s, name, now);
      }
    }

    /** The results once Lean has written the last file. */
    function Outcomes(): seq<StepOutcome>
      reads this
    {
      if written == [] then results else results + [StepOutcome("", Open, written[|written| - 1])]
    }

    /** Lean has written the last file: on to the next target, or to the end of the call. */
    method Saved(reg: ItemLifecycleRegistry, store: StateStore, pool: Pool.PantographManager, ghost s: P.State,
                 name: FileName, tokens: seq<Token>, now: int) returns (ghost n: P.State)
      requires at == Saving && At(s, reg, store, pool, now)
      requires left > 1 ==> name.ext == Bin && P.FreshName(s, name)
      requires left <= 1 ==> |tokens| == |Outcomes()| && Fresh(s, tokens)
      modifies this, reg, store`records, store`tokensByItem, store`disk
      ensures At(n, reg, store, pool, now) && unchanged(`lease)
      ensures
        var results := old(Outcomes());
        if old(left) > 1 then
          at == Saving && left == old(left) - 1 && this.results == results
              && Did(s, P.Allocate(id, name), n, reg.retention)
        else Ended(s, results, tokens, n, reg.retention)
    {
      hide P.Inv, P.Next, P.Can, StateStore.Valid, Pool.PantographManager.Valid, Consistent, Untracked, OwnerOf,
           SavedOk, Paths, P.FreshName, Answers, Fresh, Shows, Did, FilesIn;
      SavedLast(results, written);
      results := results + [StepOutcome("", Open, written[|written| - 1])];
      left := left - 1;
      if left > 0 {
        n := Reserve(reg, store, pool, s, name, now);
      } else {
        n := CallDone(reg, store, pool, s, tokens, now);
      }
    }

    /** Saving raised: all files of the call are unlinked, and it ends without a state. */
    method SaveRaised(reg: ItemLifecycleRegistry, store: StateStore, pool: Pool.PantographManager, ghost s: P.State,
                      now: int)
      returns (ghost n: P.State)
      requires at == Saving && At(s, reg, store, pool, now)
      modifies this, reg, store`records, store`tokensByItem, store`disk
      ensures At(n, reg, store, pool, now) && unchanged(`lease)
      ensures
        var m := if reg.retention >= 0 then P.Next(s, P.Unsave(id, 0), reg.retention) else s;
        Did(s, P.Unsave(id, 0), m, reg.retention) && Ended(m, [], [], n, reg.retention)
    {
      hide P.Inv, P.Next, P.Can, StateStore.Valid, Pool.PantographManager.Valid, Consistent, Untracked, OwnerOf,
           SavedOk, Paths, Answers, Fresh, FilesIn, Shows;
      ghost var m := UnlinkAll(reg, store, pool, s, id, written);
      written, results := [], [];
      NothingYet(m);
      n := CallDone(reg, store, pool, m, [], now);
    }

    /** The debug monitor has stopped; when it raised, the results of the call are lost. */
    method Monitored(reg: ItemLifecycleRegistry, store: StateStore, pool: Pool.PantographManager, ghost s: P.State,
                     raises: bool, tokens: seq<Token>, now: int) returns (ghost n: P.State)
      requires at == Monitoring && At(s, reg, store, pool, now)
      requires |tokens| == |results| && Fresh(s, tokens)
      modifies this, reg, store`records, store`tokensByItem, store`disk
      ensures At(n, reg, store, pool, now) && at == Returning && unchanged(`lease)
      ensures if raises then Did(s, P.Raise(id, true), n, reg.retention) && answer == Some(Failed)
              else Answers(s, old(results), tokens, n, reg.retention)
    {
      hide P.Inv, P.Next, StateStore.Valid, Pool.PantographManager.Valid, Consistent, Untracked, OwnerOf, SavedOk,
           Paths, Answers, Fresh;
      if raises {
        n := Finally(reg, store, pool, s, P.Raise(id, true), now);
        answer := Some(Failed);
      } else {
        n := Settle(reg, store, pool, s, tokens, now);
      }
    }

    /** return_worker, whatever state the worker is in; closing it may raise once the lease is back. */
    method Returned(reg: ItemLifecycleRegistry, store: StateStore, pool: Pool.PantographManager, ghost s: P.State,
                    alive: bool, collected: bool, aliveAfter: bool, raises: bool, now: int)
      returns (raised: bool, ghost n: P.State)
      requires at == Returning && lease.Some? && At(s, reg, store, pool, now)
      modifies this, pool`free, pool`busy, lease.value
      ensures Did(s, P.Returned(id, raised), n, reg.retention) && At(n, reg, store, pool, now) && at == Over
      ensures raised ==> raises
      ensures pool.busy == old(pool.busy) - {old(lease).value} && unchanged(`answer)
    {
      hide P.Inv, P.Next, P.Can, StateStore.Valid, Pool.PantographManager.Valid, Consistent, Untracked, OwnerOf,
           SavedOk, Paths, Answers, Fresh, Did;
      raised, n := GiveBack(pool, s, id, lease.value, alive, collected, aliveAfter, raises, now, reg.retention);
      at := Over;
    }
  }
}
