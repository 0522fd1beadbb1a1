/** A lane of a step batch (exec_backends.py: _run_process_pool_lane, with the worker call of pantograph_worker.py): a
    suspended coroutine whose methods are the code up to the next await, or less. Whatever other tasks did to registry,
    store and pool meanwhile, each takes its own step of the resource protocol and no other. */
module StepRoute {
  import opened Wrappers
  import opened Lifecycle
  import opened StateFiles
  import opened Store = StateStore
  import opened ScratchFiles
  import opened ResourceRoutes
  import opened ExecRoutes
  import Items = ItemProtocol
  import Pool = WorkerPool
  import P = ResourceProtocol

  // ---------------------------------------------------------------- the steps of its task, one by one

  ghost predicate IsLane(s: P.State, t: nat, entries: seq<Items.Entry>) {
    t in s.tasks && s.tasks[t].role == P.Steps(entries)
  }

  /** A lane at work on entry k. */
  ghost predicate IsWorking(s: P.State, t: nat, entries: seq<Items.Entry>, k: nat) {
    IsLane(s, t, entries) && s.tasks[t].stage == P.Working(k) && k < |entries|
  }

  lemma Seeks(s: P.State, t: nat, entries: seq<Items.Entry>, retention: nat)
    requires IsLane(s, t, entries) && s.tasks[t].stage.Ready? && s.tasks[t].lease.None?
    ensures
      var n := P.Next(s, P.Seek(t), retention);
      && P.Can(s, P.Seek(t)) && n.items == s.items && n.scratch == s.scratch && SamePool(s, n)
      && n.tasks == s.tasks[t := s.tasks[t].(stage := P.Leasing)]
  {
    Parts(s, P.Seek(t), retention);
    hide P.Next;
  }

  lemma Calls(s: P.State, t: nat, entries: seq<Items.Entry>, k: nat, retention: nat)
    requires IsLane(s, t, entries) && s.tasks[t].stage.Ready? && s.tasks[t].lease.Some? && k < |entries|
    ensures
      var n := P.Next(s, P.Call(t, k), retention);
      && P.Can(s, P.Call(t, k)) && n.items == s.items && n.scratch == s.scratch && SamePool(s, n)
      && n.tasks == s.tasks[t := s.tasks[t].(stage := P.Working(k), since := s.items.now)]
  {
    Parts(s, P.Call(t, k), retention);
    hide P.Next;
  }

  lemma Leaves(s: P.State, t: nat, entries: seq<Items.Entry>, retention: nat)
    requires IsLane(s, t, entries) && s.tasks[t].stage.Ready?
    ensures
      var n := P.Next(s, P.Leave(t), retention);
      && P.Can(s, P.Leave(t)) && n.items == s.items && n.scratch == s.scratch && SamePool(s, n)
      && n.tasks == if s.tasks[t].lease.None? then s.tasks - {t}
                    else s.tasks[t := s.tasks[t].(stage := P.Returning(true))]
  {
    Parts(s, P.Leave(t), retention);
    hide P.Next;
  }

  lemma Missed(s: P.State, t: nat, entries: seq<Items.Entry>, closing: bool, retention: nat)
    requires IsLane(s, t, entries) && P.InGetWorker(s.tasks[t].stage)
    requires closing ==> s.tasks[t].stage.Starting? && s.tasks[t].stage.evicts
    ensures
      var n := P.Next(s, P.NoWorker(t, closing), retention);
      && P.Can(s, P.NoWorker(t, closing)) && n.items == s.items && n.scratch == s.scratch && n.ttl == s.ttl
      && n.tasks == if s.tasks[t].stage.Starting? then s.tasks - {t} else s.tasks[t := s.tasks[t].(stage := P.Ready)]
  {
    Misses(s, t, closing, retention);
    hide P.Next;
  }

  lemma EndsAgain(s: P.State, t: nat, entries: seq<Items.Entry>, retention: nat)
    requires IsLane(s, t, entries) && s.tasks[t].stage.Again?
    ensures
      var n := P.Next(s, P.ReturnedAgain(t), retention);
      && P.Can(s, P.ReturnedAgain(t)) && n.items == s.items && n.scratch == s.scratch && SamePool(s, n)
      && n.tasks == s.tasks - {t}
  {
    assert P.Can(s, P.ReturnedAgain(t));
    P.Parts(s, P.ReturnedAgain(t), retention);
    hide P.Next, P.Can;
    assert s.lost + multiset{} == s.lost;
  }

  /** The task of a lane once its worker is back. */
  lemma GivenBack(tasks: map<nat, P.Task>, t: nat, raised: bool, now: int)
    requires t in tasks && tasks[t].role.Steps? && tasks[t].stage.Returning?
    ensures P.Put(tasks, t, P.TaskAfter(tasks[t], P.Returned(t, raised), now))
         == if tasks[t].stage.last then tasks - {t}
            else tasks[t := tasks[t].(stage := if raised then P.Again else P.Ready, lease := None)]
  {}

  lemma Loses(s: P.State, t: nat, entries: seq<Items.Entry>, k: nat, alive: bool, retention: nat)
    requires IsWorking(s, t, entries, k)
    ensures
      var n := P.Next(s, P.Raise(t, alive), retention);
      && P.Can(s, P.Raise(t, alive)) && n.items == s.items && n.scratch == s.scratch && SamePool(s, n)
      && n.tasks == s.tasks[t := s.tasks[t].(stage := if alive then P.Ready else P.Returning(false), files := [])]
  {
    Parts(s, P.Raise(t, alive), retention);
    hide P.Next;
  }

  /** The state an entry was stepped from is still stored, and then belongs to its item. */
  predicate HasParent(owner: map<Token, ItemId>, e: Items.Entry) {
    e.token in owner && owner[e.token] == e.item
  }

  lemma ParentItem(s: P.State, t: nat, entries: seq<Items.Entry>, k: nat, records: Records)
    requires P.ParentsOk(s.tasks, s.items.owner) && IsLane(s, t, entries) && k < |entries|
    requires OwnerOf(records) == s.items.owner
    ensures entries[k].token in records ==> records[entries[k].token].itemId == entries[k].item
    ensures entries[k].token in records <==> HasParent(s.items.owner, entries[k])
  {
    var e := s.tasks[t].role.entries[k];
    assert e.token in s.items.owner ==> s.items.owner[e.token] == e.item;
  }

  lemma Promotes(items: Items.State, e: Items.Entry, made: set<Token>, retention: nat)
    requires forall x :: x in made ==> x !in items.owner
    requires !HasParent(items.owner, e) ==> made == {}
    ensures
      var n := Items.Next(items, Items.Promote(e, made), retention);
      && n.reg == items.reg && n.pins == items.pins && n.now == items.now
      && n.owner == if ShouldCancel(items.reg, e.item) then items.owner else OwnersWith(items.owner, made, e.item)
  {
    assert OwnersWith(items.owner, {}, e.item) == items.owner;
  }

  /** How far promotion gets is a step of the protocol. */
  lemma {:induction false} MayAnswer(s: P.State, t: nat, entries: seq<Items.Entry>, k: nat, results: seq<StepOutcome>,
                                     tokens: seq<Token>, alive: bool)
    requires IsWorking(s, t, entries, k)
    requires s.tasks[t].files == FilesIn(PathsOf(results)) && |tokens| == |results| && Fresh(s, tokens)
    ensures
      var stop := StopsAt(results, 0, HasParent(s.items.owner, entries[k]), s.scratch.Keys);
      && P.Can(s, P.Answer(t, alive, Given(results, tokens, stop)))
      && P.FilesAt(s.tasks, t) == Paths(PathsOf(results)) && P.Moved(s, s.tasks[t]) == Paths(PathsOf(results[..stop]))
      && (forall x :: x in Given(results, tokens, stop) ==> x !in s.items.owner)
      && (!HasParent(s.items.owner, entries[k]) ==> Given(results, tokens, stop) == {})
  {
    var parent := HasParent(s.items.owner, entries[k]);
    var stop := StopsAt(results, 0, parent, s.scratch.Keys);
    MovedAre(s, t, results);
    StopsWhere(results, 0, parent, s.scratch.Keys);
    GivenFromFresh(s, t, tokens, results, stop);
    assert P.WorkOf(s.tasks[t]) == Some(entries[k]);
    assert P.ParentGone(s, s.tasks[t]) == !parent;
    hide StopsAt, Paths, PathsOf, P.FreshTokens, Fresh, P.Moved, FilesIn, P.FilesAt;
  }

  /** What FinishStep does is one step of the protocol. */
  lemma Settles(s: P.State, t: nat, entries: seq<Items.Entry>, k: nat, results: seq<StepOutcome>, tokens: seq<Token>,
                stop: nat, alive: bool, owner: map<Token, ItemId>, files: map<FileName, int>, retention: nat)
    requires P.Inv(s) && IsWorking(s, t, entries, k)
    requires s.tasks[t].files == FilesIn(PathsOf(results)) && |tokens| == |results| && Fresh(s, tokens)
    requires Settled(results, tokens, ShouldCancel(s.items.reg, entries[k].item), HasParent(s.items.owner, entries[k]),
                     stop, entries[k].item, s.items.owner, owner, s.scratch, files)
    ensures
      var a := P.Answer(t, alive, Given(results, tokens, stop));
      var n := P.Next(s, a, retention);
      && P.Can(s, a) && P.Inv(n)
      && n.items.reg == s.items.reg && n.items.pins == s.items.pins && n.items.now == s.items.now
      && n.items.owner == owner && SamePool(s, n) && n.scratch == files
      && n.tasks == s.tasks[t := s.tasks[t].(stage := if alive then P.Ready else P.Returning(false), files := [])]
  {
    var a := P.Answer(t, alive, Given(results, tokens, stop));
    MayAnswer(s, t, entries, k, results, tokens, alive);
    assert P.WorkOf(s.tasks[t]) == Some(entries[k]);
    assert P.ItemStep(s, a) == Some(Items.Promote(entries[k], Given(results, tokens, stop)));
    hide P.Inv, P.Next, P.Can, Paths, PathsOf, Given, StopsAt, OwnersWith, Items.Next, Fresh, FilesIn, P.Moved,
         P.FilesAt;
    Parts(s, a, retention);
    Promotes(s.items, entries[k], Given(results, tokens, stop), retention);
    P.NextKeepsInv(s, a, retention);
  }

  /** How far the results of a step get, and that this is a step of the protocol. */
  ghost predicate Settling(s: P.State, t: nat, e: Items.Entry, results: seq<StepOutcome>, tokens: seq<Token>, stop: nat,
                           alive: bool, n: P.State, retention: int)
    requires |tokens| == |results|
  {
    && stop == StopsAt(results, 0, HasParent(s.items.owner, e), s.scratch.Keys)
    && Did(s, P.Answer(t, alive, Given(results, tokens, stop)), n, retention)
  }

  lemma {:induction false} SettledAt(results: seq<StepOutcome>, tokens: seq<Token>, cancelled: bool, parent: bool,
                                     stop: nat, item: ItemId, owner: map<Token, ItemId>, owner': map<Token, ItemId>,
                                     files: map<FileName, int>, files': map<FileName, int>)
    requires |tokens| == |results|
    requires Settled(results, tokens, cancelled, parent, stop, item, owner, owner', files, files')
    ensures stop == StopsAt(results, 0, parent, files.Keys) <= |results|
  {}

  /** Discard the files of a cancelled item, otherwise promote them in order, up to the first that is gone. */
  method SettleStep(reg: ItemLifecycleRegistry, store: StateStore, pool: Pool.PantographManager, ghost s: P.State,
                    ghost t: nat, ghost entries: seq<Items.Entry>, ghost k: nat, e: Items.Entry,
                    results: seq<StepOutcome>, tokens: seq<Token>, alive: bool, now: int)
    returns (cancelled: bool, raised: bool, stored: seq<Option<Token>>, ghost stop: nat, ghost n: P.State)
    requires P.Inv(s) && Shows(s, reg, store, pool) && now == s.items.now
    requires IsWorking(s, t, entries, k) && entries[k] == e && s.tasks[t].files == FilesIn(PathsOf(results))
    requires OwnPaths(results) && |tokens| == |results| && Fresh(s, tokens)
    modifies store`records, store`tokensByItem, store`disk
    ensures Settling(s, t, e, results, tokens, stop, alive, n, reg.retention)
    ensures stop == StopsAt(results, 0, HasParent(s.items.owner, e), s.scratch.Keys)
    ensures P.Inv(n) && Shows(n, reg, store, pool) && n.items.now == now
    ensures n.tasks == s.tasks[t := s.tasks[t].(stage := if alive then P.Ready else P.Returning(false), files := [])]
    ensures cancelled == ShouldCancel(s.items.reg, e.item) && (raised <==> !cancelled && stop < |results|)
    ensures !cancelled && !raised ==>
      && |stored| == |results|
      && forall j :: 0 <= j < |results| ==> stored[j] == if results[j].status == Open then Some(tokens[j]) else None
  {
    hide P.Inv, P.Next, P.Can, StateStore.Valid, Pool.PantographManager.Valid, Consistent, Untracked, OwnerOf, Paths,
         PathsOf, Fresh, OwnPaths, FreshTokens, Around, Given, StopsAt, EnvsOk, EnvOf, Settled, Promotable, HasParent,
         FilesIn, PoolShows;
    ReadyToStore(s, t, results, tokens, store.disk, store.records);
    ParentHere(s, t, entries, k, store.records);
    cancelled, raised, stored, stop := FinishStep(reg, store, e, results, tokens, now);
    Settles(s, t, entries, k, results, tokens, stop, alive, OwnerOf(store.records),
            Untracked(store.disk, store.records), reg.retention);
    SettledAt(results, tokens, cancelled, HasParent(s.items.owner, e), stop, e.item, s.items.owner,
              OwnerOf(store.records), s.scratch, Untracked(store.disk, store.records));
    n := P.Next(s, P.Answer(t, alive, Given(results, tokens, stop)), reg.retention);
    PoolStays(s, n, pool);
  }

  lemma ParentHere(s: P.State, t: nat, entries: seq<Items.Entry>, k: nat, records: Records)
    requires P.Inv(s) && IsLane(s, t, entries) && k < |entries| && OwnerOf(records) == s.items.owner
    ensures entries[k].token in records ==> records[entries[k].token].itemId == entries[k].item
    ensures entries[k].token in records <==> HasParent(s.items.owner, entries[k])
  {
    hide Items.Inv, P.BracketsOk, P.LeasesOk, P.FilesOk, P.TasksOk, P.NamesOk, P.AgesOk, P.MarksOk;
    ParentItem(s, t, entries, k, records);
  }

  // ---------------------------------------------------------------- _run_process_pool_lane

  /** One item of a lane: its entry in the batch, its environment and header, its tactics. */
  datatype Work = Work(e: Items.Entry, envProfile: string, headerHash: string, tactics: seq<string>, debug: bool)

  datatype Reply =
    | IsCancelled
    | IsOverloaded
    | IsError
    | IsStepped(results: seq<StepOutcome>, stored: seq<Option<Token>>)

  datatype Point =
    | Head        // at the head of the loop
    | Waiting     // in get_worker
    | Starting    // in get_worker, a new worker on its way
    | Loading     // in the worker call: Lean loads the state
    | Stepping    // in the worker call: Lean runs the next tactic
    | Saving      // in the worker call: Lean writes the file `pending`
    | Answering   // the worker call is answered (with debug, its monitor is being stopped)
    | Returning   // in return_worker
    | Again       // in return_worker once more, as it raised between two items
    | Over

  /** Results so far: one per tactic, in order, a path of its own with each open one. */
  ghost predicate ResultsOk(results: seq<StepOutcome>, tactics: seq<string>) {
    && |results| <= |tactics| && OwnPaths(results)
    && forall i :: 0 <= i < |results| ==> results[i].tactic == tactics[i]
  }

  function AllErrors(tactics: seq<string>): (r: seq<StepOutcome>)
    ensures |r| == |tactics| && forall i :: 0 <= i < |r| ==> r[i] == StepOutcome(tactics[i], StepError, None)
  {
    seq(|tactics|, i requires 0 <= i < |tactics| => StepOutcome(tactics[i], StepError, None))
  }

  lemma ErrorsOk(tactics: seq<string>)
    ensures ResultsOk(AllErrors(tactics), tactics) && FilesIn(PathsOf(AllErrors(tactics))) == []
    ensures ResultsOk([], tactics) && FilesIn(PathsOf([])) == []
  {
    NoFilesIn(PathsOf(AllErrors(tactics)));
    assert PathsOf([]) == [];
  }

  lemma ResultsOwn(results: seq<StepOutcome>, tactics: seq<string>)
    requires ResultsOk(results, tactics)
    ensures OwnPaths(results)
  {}

  lemma OneMore(results: seq<StepOutcome>, tactics: seq<string>, run: TacticRun, name: FileName)
    requires ResultsOk(results, tactics) && |results| < |tactics| && name !in FilesIn(PathsOf(results))
    ensures
      var r := OutcomeOf(tactics[|results|], run, name);
      && ResultsOk(results + [r], tactics)
      && FilesIn(PathsOf(results + [r])) == FilesIn(PathsOf(results)) + if run.Saves? then [name] else []
  {
    hide FilesIn, PathsOf;
    MoreFiles(results, OutcomeOf(tactics[|results|], run, name));
    forall i | 0 <= i < |results| ensures results[i].path != Some(name) {
      FileOfResult(results, i);
    }
  }

  lemma MoreFiles(results: seq<StepOutcome>, r: StepOutcome)
    ensures FilesIn(PathsOf(results + [r])) == FilesIn(PathsOf(results)) + if r.path.Some? then [r.path.value] else []
  {
    assert PathsOf(results + [r]) == PathsOf(results) + [r.path];
    FilesInLast(PathsOf(results), r.path);
  }

  lemma FileOfResult(results: seq<StepOutcome>, k: nat)
    requires k < |results|
    ensures results[k].path.Some? ==> results[k].path.value in FilesIn(PathsOf(results))
  {
    hide FilesIn, OwnPaths;
    FilesInPaths(PathsOf(results));
    if results[k].path.Some? {
      PathOfResult(results, k);
    }
  }

  lemma LastDropped(task: P.Task, files: seq<FileName>, name: FileName)
    requires task.files == files + [name]
    ensures P.Dropped(task, |files|) == {name} && task.files[..|files|] == files
  {
    assert task.files[|files|..] == [name];
  }

  lemma PoolBusy(s: P.State, pool: Pool.PantographManager)
    requires PoolShows(s, pool)
    ensures pool.busy == s.busy
  {}

  /** A lease whose return raised is not busy. */
  lemma NotBusy(s: P.State, l: Pool.Lease)
    requires P.Inv(s) && l in s.retired
    ensures l !in s.busy
  {
    hide Items.Inv, P.TasksOk, P.BracketsOk, P.LeasesOk, P.FilesOk, P.AgesOk, P.MarksOk, P.NamesOk, P.ParentsOk;
  }

  /** A lane with its items, each at its place among the entries of the batch. */
  class Lane {
    const work: seq<Work>
    ghost const id: nat                       // the number of its task in the protocol
    ghost const entries: seq<Items.Entry>
    ghost const place: seq<nat>
    var at: Point
    var lease: Option<Pool.Lease>
    var evicting: bool                        // the new worker takes the place of another
    var last: bool                            // the worker goes back for good
    var replies: seq<Reply>                   // to the items the lane is through with
    var results: seq<StepOutcome>
    var pending: Option<FileName>

    constructor (work: seq<Work>, ghost id: nat, ghost entries: seq<Items.Entry>, ghost place: seq<nat>)
      ensures this.work == work && this.id == id && this.entries == entries && this.place == place
      ensures at == Head && lease == None && replies == [] && results == [] && pending == None
    {
      this.work, this.id, this.entries, this.place := work, id, entries, place;
      at, lease, evicting, last, replies, results, pending := Head, None, false, false, [], [], None;
    }

    /** Every item has its place in the batch. */
    ghost predicate Placed() {
      |place| == |work| && forall i :: 0 <= i < |work| ==> place[i] < |entries| && entries[place[i]] == work[i].e
    }

    ghost predicate IsTask(s: P.State, stage: P.Stage, files: seq<FileName>)
      reads this
    {
      && IsLane(s, id, entries)
      && s.tasks[id].stage == stage && s.tasks[id].lease == lease && s.tasks[id].files == files
    }

    /** At work on the next item. */
    ghost predicate AtWork(s: P.State, files: seq<FileName>)
      reads this
    {
      && |replies| < |work| && lease.Some? && ResultsOk(results, work[|replies|].tactics)
      && |place| == |work| && IsTask(s, P.Working(place[|replies|]), files)
    }

    /** Its local variables are what the protocol says about its task. */
    ghost predicate Mine(s: P.State)
      reads this
    {
      match at
      case Head => |replies| <= |work| && IsTask(s, P.Ready, [])
      case Waiting => |replies| < |work| && lease.None? && IsTask(s, P.Leasing, [])
      case Starting =>
        |replies| < |work| && lease.None? && IsTask(s, P.Starting(work[|replies|].envProfile, evicting), [])
      case Loading => results == [] && AtWork(s, [])
      case Stepping =>
        AtWork(s, FilesIn(PathsOf(results))) && |results| < |work[|replies|].tactics|
      case Saving =>
        && pending.Some? && pending.value !in FilesIn(PathsOf(results))
        && AtWork(s, FilesIn(PathsOf(results)) + [pending.value]) && |results| < |work[|replies|].tactics|
      case Answering =>
        AtWork(s, FilesIn(PathsOf(results))) && |results| == |work[|replies|].tactics|
      case Returning => |replies| <= |work| && lease.Some? && IsTask(s, P.Returning(last), [])
      case Again =>
        && |replies| <= |work| && lease.Some? && lease.value in s.retired
        && IsLane(s, id, entries) && s.tasks[id].stage.Again?
      case Over => id !in s.tasks
    }

    /** This coroutine, resumed in state `s` of the protocol. */
    ghost predicate At(s: P.State, reg: ItemLifecycleRegistry, store: StateStore, pool: Pool.PantographManager,
                       now: int)
      reads this, reg, store, pool, pool.free
    {
      P.Inv(s) && Shows(s, reg, store, pool) && Placed() && Mine(s) && now == s.items.now
    }

    /** Cancelled items at the head of the loop are answered at once. */
    method SkipCancelled(reg: ItemLifecycleRegistry)
      requires |replies| <= |work|
      modifies `replies
      ensures old(|replies|) <= |replies| <= |work| && replies[..old(|replies|)] == old(replies)
      ensures forall i :: old(|replies|) <= i < |replies| ==>
        replies[i] == IsCancelled && ShouldCancel(reg.records, work[i].e.item)
      ensures |replies| < |work| ==> !ShouldCancel(reg.records, work[|replies|].e.item)
    {
      while |replies| < |work| && ShouldCancel(reg.records, work[|replies|].e.item)
        invariant old(|replies|) <= |replies| <= |work| && replies[..old(|replies|)] == old(replies)
        invariant forall i :: old(|replies|) <= i < |replies| ==>
          replies[i] == IsCancelled && ShouldCancel(reg.records, work[i].e.item)
        decreases |work| - |replies|
      {
        replies := replies + [IsCancelled];
      }
    }

    /** The head of the loop: answer cancelled items at once; then call the worker, ask for one, or leave. */
    method NextItem(reg: ItemLifecycleRegistry, store: StateStore, pool: Pool.PantographManager, ghost s: P.State,
                    now: int)
      returns (ghost n: P.State)
      requires at == Head && At(s, reg, store, pool, now)
      modifies this
      ensures At(n, reg, store, pool, now) && unchanged(`lease)
      ensures old(|replies|) <= |replies| <= |work| && replies[..old(|replies|)] == old(replies)
      ensures forall i :: old(|replies|) <= i < |replies| ==>
        replies[i] == IsCancelled && ShouldCancel(s.items.reg, work[i].e.item)
      ensures
        if |replies| == |work| then
          Did(s, P.Leave(id), n, reg.retention) && at == if lease.None? then Over else Returning
        else
          && !ShouldCancel(s.items.reg, work[|replies|].e.item)
          && (if lease.None? then Did(s, P.Seek(id), n, reg.retention) && at == Waiting
              else Did(s, P.Call(id, place[|replies|]), n, reg.retention) && at == Loading)
    {
      hide P.Inv, P.Next, P.Can, StateStore.Valid, Pool.PantographManager.Valid, Consistent, Untracked, OwnerOf,
           ResultsOk, FilesIn, PathsOf, PoolShows;
      SkipCancelled(reg);
      if |replies| == |work| {
        n := LeaveLoop(reg, store, pool, s, now);
      } else if lease.None? {
        n := AskForWorker(reg, store, pool, s, now);
      } else {
        n := CallWorker(reg, store, pool, s, now);
      }
    }

    method LeaveLoop(reg: ItemLifecycleRegistry, store: StateStore, pool: Pool.PantographManager, ghost s: P.State,
                     now: int)
      returns (ghost n: P.State)
      requires P.Inv(s) && Shows(s, reg, store, pool) && Placed() && now == s.items.now && |replies| <= |work|
      requires IsTask(s, P.Ready, [])
      modifies `at, `last
      ensures At(n, reg, store, pool, now) && at == (if lease.None? then Over else Returning)
      ensures Did(s, P.Leave(id), n, reg.retention)
    {
      hide P.Inv, P.Next, P.Can, Shows, ResultsOk, FilesIn, PathsOf;
      RegShows(s, reg, store, pool);
      Leaves(s, id, entries, reg.retention);
      n := P.Next(s, P.Leave(id), reg.retention);
      P.NextKeepsInv(s, P.Leave(id), reg.retention);
      ShowsStay(s, n, reg, store, pool);
      at, last := if lease.None? then Over else Returning, true;
    }

    method AskForWorker(reg: ItemLifecycleRegistry, store: StateStore, pool: Pool.PantographManager, ghost s: P.State,
                        now: int)
      returns (ghost n: P.State)
      requires P.Inv(s) && Shows(s, reg, store, pool) && Placed() && now == s.items.now && |replies| < |work|
      requires lease.None? && IsTask(s, P.Ready, [])
      modifies `at
      ensures At(n, reg, store, pool, now) && at == Waiting && Did(s, P.Seek(id), n, reg.retention)
    {
      hide P.Inv, P.Next, P.Can, Shows, ResultsOk, FilesIn, PathsOf;
      RegShows(s, reg, store, pool);
      Seeks(s, id, entries, reg.retention);
      n := P.Next(s, P.Seek(id), reg.retention);
      P.NextKeepsInv(s, P.Seek(id), reg.retention);
      ShowsStay(s, n, reg, store, pool);
      at := Waiting;
    }

    method CallWorker(reg: ItemLifecycleRegistry, store: StateStore, pool: Pool.PantographManager, ghost s: P.State,
                      now: int)
      returns (ghost n: P.State)
      requires P.Inv(s) && Shows(s, reg, store, pool) && Placed() && now == s.items.now && |replies| < |work|
      requires lease.Some? && IsTask(s, P.Ready, [])
      modifies `at, `results
      ensures At(n, reg, store, pool, now) && at == Loading
      ensures |place| == |work| && Did(s, P.Call(id, place[|replies|]), n, reg.retention)
    {
      hide P.Inv, P.Next, P.Can, Shows, ResultsOk, FilesIn, PathsOf;
      RegShows(s, reg, store, pool);
      Calls(s, id, entries, place[|replies|], reg.retention);
      ErrorsOk(work[|replies|].tactics);
      n := P.Next(s, P.Call(id, place[|replies|]), reg.retention);
      P.NextKeepsInv(s, P.Call(id, place[|replies|]), reg.retention);
      ShowsStay(s, n, reg, store, pool);
      at, results := Loading, [];
    }

    /** get_worker gave `l` to the lane, for its i-th item: that one was cancelled meanwhile, or the worker is
        called. */
    ghost predicate Took(s: P.State, i: nat, l: Pool.Lease, n: P.State, retention: int)
      reads this
      requires i < |work| && Placed()
    {
      var m := if retention >= 0 then P.Next(s, P.Lease(id, l), retention) else s;
      && lease == Some(l) && Did(s, P.Lease(id, l), m, retention)
      && (if ShouldCancel(s.items.reg, work[i].e.item) then
            at == Head && |replies| == i + 1 && replies[i] == IsCancelled && n == m
          else
            at == Loading && |replies| == i && Did(m, P.Call(id, place[i]), n, retention))
    }

    method HaveWorker(reg: ItemLifecycleRegistry, store: StateStore, pool: Pool.PantographManager, ghost s: P.State,
                      l: Pool.Lease, now: int) returns (ghost n: P.State)
      requires P.Inv(s) && Shows(s, reg, store, pool) && Placed() && now == s.items.now && |replies| < |work|
      requires IsLane(s, id, entries) && s.tasks[id].stage == P.Ready && s.tasks[id].lease == Some(l)
          && s.tasks[id].files == []
      modifies this
      ensures At(n, reg, store, pool, now) && lease == Some(l) && unchanged(`last)
      ensures
        if ShouldCancel(s.items.reg, work[old(|replies|)].e.item) then
          at == Head && replies == old(replies) + [IsCancelled] && n == s
        else
          at == Loading && replies == old(replies) && Did(s, P.Call(id, place[|replies|]), n, reg.retention)
    {
      hide P.Inv, P.Next, P.Can, StateStore.Valid, Pool.PantographManager.Valid, Consistent, Untracked, OwnerOf,
           ResultsOk, FilesIn, PathsOf, PoolShows;
      lease := Some(l);
      if ShouldCancel(reg.records, work[|replies|].e.item) {
        replies := replies + [IsCancelled];
        at := Head;
        n := s;
      } else {
        n := CallWorker(reg, store, pool, s, now);
      }
    }

    /** One pass of get_worker's loop. */
    method TryWorker(reg: ItemLifecycleRegistry, store: StateStore, pool: Pool.PantographManager, ghost s: P.State,
                     now: int) returns (d: Pool.Decision, ghost n: P.State)
      requires at == Waiting && At(s, reg, store, pool, now)
      modifies this, pool`free, pool`busy, pool`starting, pool`startingBy, pool`calls
      ensures At(n, reg, store, pool, now)
      ensures
        var w := work[old(|replies|)];
        match d
        case Reuse(l) =>
          pool.Matches(l, w.envProfile, w.headerHash) && Took(s, old(|replies|), l, n, reg.retention)
        case Wait => at == Waiting && n == s && replies == old(replies)
        case _ =>
          at == Starting && replies == old(replies) && Did(s, P.Start(id, w.envProfile, d.Evict?), n, reg.retention)
    {
      hide P.Inv, P.Next, P.Can, StateStore.Valid, Consistent, Untracked, OwnerOf, ResultsOk, FilesIn, PathsOf,
           PoolShows;
      d, n := TryLease(pool, s, id, work[|replies|].envProfile, work[|replies|].headerHash, reg.retention);
      if d.Reuse? {
        n := HaveWorker(reg, store, pool, n, d.lease, now);
      } else if !d.Wait? {
        at, evicting := Starting, d.Evict?;
      }
    }

    /** The new worker is up. */
    method WorkerUp(reg: ItemLifecycleRegistry, store: StateStore, pool: Pool.PantographManager, ghost s: P.State,
                    now: int) returns (ghost n: P.State)
      requires at == Starting && At(s, reg, store, pool, now)
      modifies this, pool`busy, pool`starting, pool`startingBy, pool`calls
      ensures At(n, reg, store, pool, now)
      ensures
        var w := work[old(|replies|)];
        && lease.Some? && lease.value.envProfile == w.envProfile && lease.value.headerHash == w.headerHash
        && Took(s, old(|replies|), lease.value, n, reg.retention)
    {
      hide P.Inv, P.Next, P.Can, StateStore.Valid, Consistent, Untracked, OwnerOf, ResultsOk, FilesIn, PathsOf,
           PoolShows;
      var l;
      l, n := StartDone(pool, s, id, work[|replies|].envProfile, work[|replies|].headerHash, now, reg.retention);
      n := HaveWorker(reg, store, pool, n, l, now);
    }

    /** get_worker runs out of time: the item is overloaded and the lane goes on. Anything else it raises ends the
        lane. */
    method NoWorker(reg: ItemLifecycleRegistry, store: StateStore, pool: Pool.PantographManager, ghost s: P.State,
                    closing: bool, now: int) returns (ghost n: P.State)
      requires (at == Waiting || at == Starting) && At(s, reg, store, pool, now)
      modifies this, pool`starting, pool`startingBy, pool`calls, pool`lost
      ensures Did(s, P.NoWorker(id, old(at) == Starting && old(evicting) && closing), n, reg.retention)
      ensures At(n, reg, store, pool, now)
      ensures if old(at) == Starting then at == Over else at == Head && replies == old(replies) + [IsOverloaded]
    {
      hide P.Inv, P.Next, P.Can, StateStore.Valid, Consistent, Untracked, OwnerOf, ResultsOk, FilesIn, PathsOf,
           PoolShows;
      ghost var lost := at == Starting && evicting && closing;
      Missed(s, id, entries, lost, reg.retention);
      n := P.Next(s, P.NoWorker(id, lost), reg.retention);
      P.NextKeepsInv(s, P.NoWorker(id, lost), reg.retention);
      if at == Starting {
        StartFails(pool, s, id, work[|replies|].envProfile, evicting && closing, reg.retention);
        at := Over;
      } else {
        NoMark(s, id, reg.retention);
        PoolStays(s, n, pool);
        replies := replies + [IsOverloaded];
        at := Head;
      }
    }

    /** Lean has loaded the state, or raised: then every tactic is answered with the error. */
    method Loaded(ok: bool, ghost s: P.State)
      requires at == Loading && Mine(s)
      modifies this
      ensures Mine(s) && unchanged(`replies, `lease)
      ensures results == if ok then [] else AllErrors(work[|replies|].tactics)
      ensures at == if ok && work[|replies|].tactics != [] then Stepping else Answering
    {
      hide ResultsOk, FilesIn, PathsOf;
      ErrorsOk(work[|replies|].tactics);
      if !ok {
        results := AllErrors(work[|replies|].tactics);
        at := Answering;
      } else {
        at := if work[|replies|].tactics == [] then Answering else Stepping;
      }
    }

    /** Lean has run the next tactic and it failed or closed the goal. */
    method Ran(solved: bool, ghost name: FileName, ghost s: P.State)
      requires at == Stepping && Mine(s) && name !in FilesIn(PathsOf(results))
      modifies this
      ensures Mine(s) && unchanged(`replies, `lease) && |replies| < |work| && old(|results|) < |work[|replies|].tactics|
      ensures
        var tactic := work[|replies|].tactics[old(|results|)];
        results == old(results) + [StepOutcome(tactic, if solved then Solved else StepError, None)]
      ensures at == if |results| == |work[|replies|].tactics| then Answering else Stepping
    {
      hide ResultsOk, FilesIn, PathsOf;
      var tactic := work[|replies|].tactics[|results|];
      OneMore(results, work[|replies|].tactics, if solved then Solves else Fails, name);
      results := results + [StepOutcome(tactic, if solved then Solved else StepError, None)];
      at := if |results| == |work[|replies|].tactics| then Answering else Stepping;
    }

    /** The tactic left goals: its state gets a file. */
    method Reserve(reg: ItemLifecycleRegistry, store: StateStore, pool: Pool.PantographManager, ghost s: P.State,
                   name: FileName, now: int) returns (ghost n: P.State)
      requires at == Stepping && At(s, reg, store, pool, now)
      requires name.ext == Bin && P.FreshName(s, name)
      modifies this, store`disk
      ensures Did(s, P.Allocate(id, name), n, reg.retention) && At(n, reg, store, pool, now)
      ensures at == Saving && pending == Some(name) && unchanged(`replies, `lease, `results)
    {
      hide P.Inv, P.Next, P.Can, StateStore.Valid, Pool.PantographManager.Valid, Consistent, Untracked, OwnerOf,
           ResultsOk, FilesIn, PathsOf, P.FreshName, PoolShows;
      Writes(s, id, name, store.disk, store.records, reg.retention);
      n := P.Next(s, P.Allocate(id, name), reg.retention);
      P.NextKeepsInv(s, P.Allocate(id, name), reg.retention);
      PoolStays(s, n, pool);
      Allocate(store, name, now);
      pending := Some(name);
      at := Saving;
    }

    /** Lean has written the file. */
    method Saved(ghost s: P.State)
      requires at == Saving && Mine(s)
      modifies this
      ensures Mine(s) && unchanged(`replies, `lease) && |replies| < |work| && old(|results|) < |work[|replies|].tactics|
      ensures old(pending).Some?
      ensures results == old(results) + [StepOutcome(work[|replies|].tactics[old(|results|)], Open, old(pending))]
      ensures at == if |results| == |work[|replies|].tactics| then Answering else Stepping
    {
      hide ResultsOk, FilesIn, PathsOf;
      OneMore(results, work[|replies|].tactics, Saves, pending.value);
      results := results + [StepOutcome(work[|replies|].tactics[|results|], Open, pending)];
      at := if |results| == |work[|replies|].tactics| then Answering else Stepping;
    }

    /** Saving raised: the file is unlinked and the tactic answered with the error. */
    method SaveRaised(reg: ItemLifecycleRegistry, store: StateStore, pool: Pool.PantographManager, ghost s: P.State,
                      now: int)
      returns (ghost n: P.State)
      requires at == Saving && At(s, reg, store, pool, now)
      modifies this, store`disk
      ensures old(pending).Some? && Did(s, P.Unsave(id, |FilesIn(PathsOf(old(results)))|), n, reg.retention)
      ensures At(n, reg, store, pool, now)
      ensures unchanged(`replies, `lease) && |replies| < |work| && old(|results|) < |work[|replies|].tactics|
      ensures
        var tactic := work[|replies|].tactics[old(|results|)];
        results == old(results) + [StepOutcome(tactic, StepError, None)]
      ensures at == if |results| == |work[|replies|].tactics| then Answering else Stepping
    {
      hide P.Inv, P.Next, P.Can, StateStore.Valid, Pool.PantographManager.Valid, Consistent, Untracked, OwnerOf,
           ResultsOk, FilesIn, PathsOf, PoolShows, P.Dropped;
      var name := pending.value;
      ghost var keep := |FilesIn(PathsOf(results))|;
      Unwrites(s, id, keep, store.records, reg.retention);
      LastDropped(s.tasks[id], FilesIn(PathsOf(results)), name);
      n := P.Next(s, P.Unsave(id, keep), reg.retention);
      P.NextKeepsInv(s, P.Unsave(id, keep), reg.retention);
      PoolStays(s, n, pool);
      OneMore(results, work[|replies|].tactics, SaveFails, name);
      DropFile(store, name);
      results := results + [StepOutcome(work[|replies|].tactics[|results|], StepError, None)];
      at := if |results| == |work[|replies|].tactics| then Answering else Stepping;
    }

    /** The lane has settled the answer of its worker call: discard the files of a cancelled item, otherwise promote
        them in order, up to the first that is gone. */
    ghost predicate Answers(s: P.State, i: nat, results: seq<StepOutcome>, tokens: seq<Token>, alive: bool, n: P.State,
                            retention: int)
      reads this
      requires i < |work| && Placed() && |tokens| == |results|
    {
      var e := work[i].e;
      var stop := StopsAt(results, 0, HasParent(s.items.owner, e), s.scratch.Keys);
      && |replies| == i + 1 && Settling(s, id, e, results, tokens, stop, alive, n, retention)
      && (if ShouldCancel(s.items.reg, e.item) then replies[i] == IsCancelled
          else if stop < |results| then replies[i] == IsError
          else
            && replies[i].IsStepped? && replies[i].results == results && |replies[i].stored| == |results|
            && forall j :: 0 <= j < |results| ==>
                 replies[i].stored[j] == if results[j].status == Open then Some(tokens[j]) else None)
    }

    /** The results are there; afterwards the worker is kept for the next item, or returned when it has died. */
    method Settle(reg: ItemLifecycleRegistry, store: StateStore, pool: Pool.PantographManager, ghost s: P.State,
                  tokens: seq<Token>, alive: bool, now: int) returns (ghost n: P.State)
      requires at == Answering && At(s, reg, store, pool, now)
      requires |tokens| == |results| && Fresh(s, tokens)
      modifies this, store`records, store`tokensByItem, store`disk
      ensures At(n, reg, store, pool, now) && unchanged(`lease)
      ensures if alive then at == Head else at == Returning && !last
      ensures old(|replies|) < |work| && Answers(s, old(|replies|), old(results), tokens, alive, n, reg.retention)
    {
      hide P.Inv, P.Next, P.Can, StateStore.Valid, Pool.PantographManager.Valid, Consistent, Untracked, OwnerOf,
           ResultsOk, FilesIn, PathsOf, Fresh, OwnPaths, StopsAt, Settling, HasParent, Shows;
      ResultsOwn(results, work[|replies|].tactics);
      var cancelled, raised, stored;
      ghost var stop;
      cancelled, raised, stored, stop, n :=
        SettleStep(reg, store, pool, s, id, entries, place[|replies|], work[|replies|].e, results, tokens, alive, now);
      var reply := if cancelled then IsCancelled else if raised then IsError else IsStepped(results, stored);
      replies := replies + [reply];
      last := false;
      at := if alive then Head else Returning;
    }

    /** With debug, the monitor may raise once the call is answered: its results are lost. */
    method CallRaised(reg: ItemLifecycleRegistry, store: StateStore, pool: Pool.PantographManager, ghost s: P.State,
                      alive: bool, now: int) returns (ghost n: P.State)
      requires at == Answering && At(s, reg, store, pool, now)
      modifies this
      ensures Did(s, P.Raise(id, alive), n, reg.retention) && At(n, reg, store, pool, now) && unchanged(`lease)
      ensures (if alive then at == Head else at == Returning && !last) && replies == old(replies) + [IsError]
    {
      hide P.Inv, P.Next, P.Can, Shows, ResultsOk, FilesIn, PathsOf;
      RegShows(s, reg, store, pool);
      Loses(s, id, entries, place[|replies|], alive, reg.retention);
      n := P.Next(s, P.Raise(id, alive), reg.retention);
      P.NextKeepsInv(s, P.Raise(id, alive), reg.retention);
      ShowsStay(s, n, reg, store, pool);
      replies := replies + [IsError];
      at, last := if alive then Head else Returning, false;
    }

    /** return_worker; when it raises between two items, the finally block calls it once more. */
    method Returned(reg: ItemLifecycleRegistry, store: StateStore, pool: Pool.PantographManager, ghost s: P.State,
                    alive: bool, collected: bool, aliveAfter: bool, raises: bool, now: int)
      returns (raised: bool, ghost n: P.State)
      requires at == Returning && lease.Some? && At(s, reg, store, pool, now)
      modifies this, pool`free, pool`busy, lease.value
      ensures Did(s, P.Returned(id, raised), n, reg.retention) && At(n, reg, store, pool, now) && (raised ==> raises)
      ensures pool.busy == old(pool.busy) - {old(lease).value} && unchanged(`replies)
      ensures if old(last) then at == Over else if raised then at == Again && lease == old(lease)
              else at == Head && lease.None?
    {
      hide P.Inv, P.Next, P.Can, StateStore.Valid, Consistent, Untracked, OwnerOf, ResultsOk, FilesIn, PathsOf,
           PoolShows, P.Put, P.TaskAfter;
      PoolBusy(s, pool);
      raised, n := GiveBack(pool, s, id, lease.value, alive, collected, aliveAfter, raises, now, reg.retention);
      PoolBusy(n, pool);
      GivenBack(s.tasks, id, raised, now);
      if last {
        at := Over;
      } else if raised {
        at := Again;
      } else {
        at, lease := Head, None;
      }
    }

    /** return_worker with a lease that is not busy any more: the pool stays as it is, and the lane ends by raising. */
    method ReturnedAgain(reg: ItemLifecycleRegistry, store: StateStore, pool: Pool.PantographManager, ghost s: P.State,
                         alive: bool, collected: bool, aliveAfter: bool, now: int) returns (ghost n: P.State)
      requires at == Again && lease.Some? && At(s, reg, store, pool, now)
      modifies this, pool`free, pool`busy, lease.value
      ensures Did(s, P.ReturnedAgain(id), n, reg.retention) && At(n, reg, store, pool, now) && at == Over
      ensures pool.busy == old(pool.busy) && pool.free == old(pool.free) && unchanged(`replies)
    {
      hide P.Inv, P.Next, P.Can, StateStore.Valid, Pool.PantographManager.Valid, Consistent, Untracked, OwnerOf,
           ResultsOk, FilesIn, PathsOf;
      NotBusy(s, lease.value);
      EndsAgain(s, id, entries, reg.retention);
      n := P.Next(s, P.ReturnedAgain(id), reg.retention);
      P.NextKeepsInv(s, P.ReturnedAgain(id), reg.retention);
      var _ := Pool.ReturnWorker(pool, lease.value, alive, collected, aliveAfter, now);
      at := Over;
    }
  }

  // ---------------------------------------------------------------- around the lanes

  lemma BatchOpens(s: P.State, lanes: set<nat>, tokens: seq<Token>, retention: nat)
    requires lanes !! s.tasks.Keys
    ensures
      var n := P.Next(s, P.OpenBatch(lanes, tokens), retention);
      var (reg, pins, entries) := Items.BatchBegun(s.items.reg, s.items.owner, s.items.pins, tokens, s.items.now);
      && P.Can(s, P.OpenBatch(lanes, tokens))
      && n.items.reg == reg && n.items.pins == pins && n.items.owner == s.items.owner && n.items.now == s.items.now
      && SamePool(s, n) && n.scratch == s.scratch
      && n.items.brackets == s.items.brackets[s.items.next := Items.Batch(entries)]
      && n.tasks == s.tasks + map t | t in lanes :: P.NewTask(s.items.next, P.Steps(entries), P.Ready)
  {
    P.OtherParts(s, P.OpenBatch(lanes, tokens), retention);
    hide Items.BatchBegun, P.Next;
  }

  lemma BatchCloses(s: P.State, b: nat, entries: seq<Items.Entry>, retention: nat)
    requires P.Can(s, P.CloseBatch(b)) && s.items.brackets[b] == Items.Batch(entries)
    ensures
      var n := P.Next(s, P.CloseBatch(b), retention);
      && n.items.reg == Items.AllFinished(s.items.reg, entries, s.items.now, retention)
      && n.items.pins == Items.AllUnpinned(s.items.pins, entries) && n.items.owner == s.items.owner
      && n.items.now == s.items.now && SamePool(s, n) && n.scratch == s.scratch && n.tasks == s.tasks
  {
    P.OtherParts(s, P.CloseBatch(b), retention);
    hide Items.AllFinished, Items.AllUnpinned, P.Next;
  }

  /** The head of a step batch, up to the start of its lanes. */
  method StartBatch(reg: ItemLifecycleRegistry, store: StateStore, pool: Pool.PantographManager, ghost s: P.State,
                    ghost lanes: set<nat>, tokens: seq<Token>, now: int)
    returns (entries: seq<Items.Entry>, answers: seq<Admission>, ghost n: P.State)
    requires P.Inv(s) && Shows(s, reg, store, pool) && now == s.items.now && lanes !! s.tasks.Keys
    modifies reg, store
    ensures Did(s, P.OpenBatch(lanes, tokens), n, reg.retention) && P.Inv(n) && Shows(n, reg, store, pool)
    ensures n.items.now == now && n.items.brackets == s.items.brackets[s.items.next := Items.Batch(entries)]
    ensures forall t :: t in lanes ==>
        t in n.tasks && n.tasks[t] == P.NewTask(s.items.next, P.Steps(entries), P.Ready)
    ensures answers == Admissions(s.items.reg, old(store.records), tokens, now)
  {
    hide P.Inv, P.Next, P.Can, StateStore.Valid, Pool.PantographManager.Valid, Consistent, Untracked, OwnerOf,
         Items.BatchBegun, Admissions, PoolShows;
    BatchOpens(s, lanes, tokens, reg.retention);
    n := P.Next(s, P.OpenBatch(lanes, tokens), reg.retention);
    P.NextKeepsInv(s, P.OpenBatch(lanes, tokens), reg.retention);
    PoolStays(s, n, pool);
    entries, answers := EnterBatch(reg, store, tokens, now);
  }

  /** The finally block of a step batch. */
  method EndBatch(reg: ItemLifecycleRegistry, store: StateStore, pool: Pool.PantographManager, ghost s: P.State,
                  ghost b: nat, entries: seq<Items.Entry>, now: int) returns (ghost n: P.State)
    requires P.Inv(s) && Shows(s, reg, store, pool) && now == s.items.now
    requires P.Can(s, P.CloseBatch(b)) && s.items.brackets[b] == Items.Batch(entries)
    modifies reg, store`pins
    ensures Did(s, P.CloseBatch(b), n, reg.retention) && P.Inv(n) && Shows(n, reg, store, pool) && n.items.now == now
  {
    hide P.Inv, P.Next, P.Can, StateStore.Valid, Pool.PantographManager.Valid, Consistent, Untracked, OwnerOf,
         Items.AllFinished, Items.AllUnpinned, PoolShows;
    BatchCloses(s, b, entries, reg.retention);
    n := P.Next(s, P.CloseBatch(b), reg.retention);
    P.NextKeepsInv(s, P.CloseBatch(b), reg.retention);
    PoolStays(s, n, pool);
    LeaveBatch(reg, store, entries, now);
  }
}
