/** Who holds what, over all interleavings: the tasks of the exec routes (a created or verified item, a lane of a step
    batch), the worker each of them leases and the scratch files its worker call owns (routers/exec.py,
    exec_backends.py, pantograph_manager.py, pantograph_worker.py), on top of the item protocol. */
module ResourceProtocol {
  import opened Wrappers
  import opened Lifecycle
  import opened StateFiles
  import Items = ItemProtocol
  import Pool = WorkerPool

  /** create_one, verify_one, or a lane with the entries of its batch. */
  datatype Role = Creates(item: ItemId) | Verifies(item: ItemId) | Steps(entries: seq<Items.Entry>)

  datatype Stage =
    | Ready                   // a lane at the head of its loop, or an item that has just got its worker
    | Leasing                 // waiting in get_worker
    | Starting(profile: string, evicts: bool)  // in get_worker, a worker on its way, perhaps in the place of another
    | Working(k: nat)         // in a call of its worker; a lane, for its entry k
    | Returning(last: bool)   // in return_worker, for the last time or between two entries of a lane
    | Again                   // in return_worker once more, as it raised between two entries of a lane

  /** The files of a worker call come in the order they were allocated in; `since` is when the call began. */
  datatype Task = Task(bracket: nat, role: Role, stage: Stage, lease: Option<Pool.Lease>, files: seq<FileName>,
                       since: int)

  /** The item protocol, the running tasks, the busy leases of the pool, the untracked files of the store, each with the
      time it was last written, those among them that nobody owns any more, the leases taken and given back so far, the
      batches in which a lane raised, the starting marks of the pool with those that nobody will take back, the leases
      whose return raised, and how long the orphan sweep spares a file. */
  datatype State = State(items: Items.State, tasks: map<nat, Task>, busy: set<Pool.Lease>, scratch: map<FileName, int>,
                         leaked: set<FileName>, taken: multiset<Pool.Lease>, returned: multiset<Pool.Lease>,
                         raised: set<nat>, marks: multiset<string>, lost: multiset<string>, retired: set<Pool.Lease>,
                         ttl: int)

  datatype Action =
    | World(a: Items.Action)                           // clock, cancel, cleanup, sweeps, garbage collection
    | OpenOne(t: nat, item: ItemId, creates: bool)
    | OpenBatch(lanes: set<nat>, tokens: seq<Token>)
    | CloseBatch(b: nat)                               // its lanes are through, or one of them raised
    | Seek(t: nat)                                     // a lane without a worker asks for one
    | Start(t: nat, profile: string, evicts: bool)     // get_worker marks a worker as starting
    | Lease(t: nat, lease: Pool.Lease)
    | NoWorker(t: nat, closing: bool)                  // out of time, or the start raises, or closing another worker
    | Call(t: nat, k: nat)
    | Allocate(t: nat, name: FileName)
    | Save(t: nat, name: FileName)                     // Lean writes the file
    | Unsave(t: nat, keep: nat)                        // after a failed save: unlink all files but the first `keep`
    | Answer(t: nat, alive: bool, made: set<Token>)    // promote as `made` what can be, or discard
    | Raise(t: nat, alive: bool)                       // the call raises and its results are lost
    | Leave(t: nat)                                    // a lane ends; an item is cancelled on its lease
    | Returned(t: nat, raises: bool)
    | ReturnedAgain(t: nat)
    | SweepOrphans

  // ---------------------------------------------------------------- the steps

  function Names(files: seq<FileName>): set<FileName> {
    set f | f in files
  }

  function FilesAt(tasks: map<nat, Task>, t: nat): set<FileName> {
    if t in tasks then Names(tasks[t].files) else {}
  }

  function FilesOf(task: Option<Task>): set<FileName> {
    if task.Some? then Names(task.value.files) else {}
  }

  function LeaseAt(tasks: map<nat, Task>, t: nat): Option<Pool.Lease> {
    if t in tasks then tasks[t].lease else None
  }

  function Was(tasks: map<nat, Task>, t: nat): Option<Task> {
    if t in tasks then Some(tasks[t]) else None
  }

  function Bit(b: bool): nat {
    if b then 1 else 0
  }

  /** The scratch files all worker calls own. */
  function Owned(tasks: map<nat, Task>): set<FileName> {
    set t, f | t in tasks && f in tasks[t].files :: f
  }

  /** The leases all tasks hold. */
  function Held(tasks: map<nat, Task>): set<Pool.Lease> {
    set t | t in tasks && tasks[t].lease.Some? :: tasks[t].lease.value
  }

  /** In get_worker, waiting or with a worker on its way. */
  predicate InGetWorker(stage: Stage) {
    stage.Leasing? || stage.Starting?
  }

  predicate LaneLeft(tasks: map<nat, Task>, b: nat) {
    exists t :: t in tasks && tasks[t].role.Steps? && tasks[t].bracket == b
  }

  /** The entry a lane works on. */
  function WorkOf(task: Task): Option<Items.Entry> {
    if task.role.Steps? && task.stage.Working? && task.stage.k < |task.role.entries|
    then Some(task.role.entries[task.stage.k]) else None
  }

  predicate IsCancelled(s: State, task: Task) {
    match task.role
    case Steps(_) => WorkOf(task).Some? && ShouldCancel(s.items.reg, WorkOf(task).value.item)
    case Creates(item) => ShouldCancel(s.items.reg, item)
    case Verifies(item) => ShouldCancel(s.items.reg, item)
  }

  /** The state a lane stepped from is not stored any more. */
  predicate ParentGone(s: State, task: Task) {
    WorkOf(task).Some? &&
    !(WorkOf(task).value.token in s.items.owner && s.items.owner[WorkOf(task).value.token] == WorkOf(task).value.item)
  }

  /** The tokens lanes step from. */
  function Parents(tasks: map<nat, Task>): set<Token> {
    set t, i | t in tasks && tasks[t].role.Steps? && 0 <= i < |tasks[t].role.entries| :: tasks[t].role.entries[i].token
  }

  /** Tokens that no scratch file is named after and no lane has ever stepped from. */
  ghost predicate FreshTokens(s: State, made: set<Token>) {
    && (forall f :: f in s.scratch || f in Owned(s.tasks) ==> f.stem !in made)
    && made !! Parents(s.tasks)
  }

  ghost predicate FreshName(s: State, n: FileName) {
    n !in s.scratch && n !in Owned(s.tasks) && n.stem !in s.items.owner
  }

  /** How many files come before the first that is gone. */
  function Reach(files: seq<FileName>, there: set<FileName>): (r: nat)
    ensures r <= |files| && (forall i :: 0 <= i < r ==> files[i] in there) && (r < |files| ==> files[r] !in there)
  {
    if files == [] || files[0] !in there then 0 else 1 + Reach(files[1..], there)
  }

  /** The files an answer moves: those before the first that is gone, none when the parent is. */
  function Moved(s: State, task: Task): set<FileName> {
    if ParentGone(s, task) then {} else Names(task.files[..Reach(task.files, s.scratch.Keys)])
  }

  /** The files a failed save unlinks. */
  function Dropped(task: Task, keep: nat): set<FileName> {
    if keep <= |task.files| then Names(task.files[keep..]) else {}
  }

  /** The untracked files that are too old. */
  function Outdated(s: State): set<FileName> {
    set f | f in s.scratch && s.scratch[f] < s.items.now - s.ttl
  }

  /** Whether a step is possible. */
  ghost predicate Can(s: State, a: Action) {
    match a
    case World(x) => x.Tick? || x.Cancel? || x.Cleanup? || x.Sweep? || x.Gc?
    case OpenOne(t, _, _) => t !in s.tasks
    case OpenBatch(lanes, _) => lanes !! s.tasks.Keys
    case CloseBatch(b) =>
      b in s.items.brackets && s.items.brackets[b].Batch? && (b in s.raised || !LaneLeft(s.tasks, b))
    case SweepOrphans => true
    case Seek(t) => t in s.tasks && s.tasks[t].role.Steps? && s.tasks[t].stage.Ready? && s.tasks[t].lease.None?
    case Start(t, _, _) => t in s.tasks && s.tasks[t].stage.Leasing?
    case Lease(t, l) => t in s.tasks && InGetWorker(s.tasks[t].stage) && l !in s.busy && l !in s.retired
    case NoWorker(t, closing) =>
      && t in s.tasks && InGetWorker(s.tasks[t].stage)
      && (closing ==> s.tasks[t].stage.Starting? && s.tasks[t].stage.evicts)
    case Call(t, k) =>
      && t in s.tasks && s.tasks[t].stage.Ready? && s.tasks[t].lease.Some?
      && (s.tasks[t].role.Steps? ==> k < |s.tasks[t].role.entries|)
    case Allocate(t, n) => t in s.tasks && s.tasks[t].stage.Working? && !s.tasks[t].role.Verifies? && FreshName(s, n)
    case Save(t, n) => t in s.tasks && n in s.tasks[t].files
    case Unsave(t, keep) => t in s.tasks && keep <= |s.tasks[t].files|
    case Answer(t, _, made) => t in s.tasks && s.tasks[t].stage.Working? && FreshTokens(s, made)
    case Raise(t, _) => t in s.tasks && s.tasks[t].stage.Working?
    case Leave(t) => t in s.tasks && s.tasks[t].stage.Ready?
    case Returned(t, _) => t in s.tasks && s.tasks[t].stage.Returning?
    case ReturnedAgain(t) => t in s.tasks && s.tasks[t].stage.Again?
  }

  /** What a step is for the item protocol, if anything. */
  function ItemStep(s: State, a: Action): Option<Items.Action> {
    match a
    case World(x) => Some(x)
    case OpenOne(_, item, creates) => Some(Items.BeginOne(item, creates))
    case OpenBatch(_, tokens) => Some(Items.BeginBatch(tokens))
    case CloseBatch(b) => Some(Items.CloseBatch(b))
    case NoWorker(t, _) => Closing(s, t, {})
    case Raise(t, _) => Closing(s, t, {})
    case Leave(t) => Closing(s, t, {})
    case Answer(t, _, made) =>
      if t in s.tasks && WorkOf(s.tasks[t]).Some? then Some(Items.Promote(WorkOf(s.tasks[t]).value, made))
      else Closing(s, t, made)
    case _ => None
  }

  /** The end of create_one or verify_one. */
  function Closing(s: State, t: nat, made: set<Token>): Option<Items.Action> {
    if t in s.tasks && !s.tasks[t].role.Steps? then Some(Items.CloseOne(s.tasks[t].bracket, made)) else None
  }

  function Stepped(items: Items.State, a: Option<Items.Action>, retention: nat): Items.State {
    if a.Some? then Items.Next(items, a.value, retention) else items
  }

  function Put(tasks: map<nat, Task>, t: nat, x: Option<Task>): map<nat, Task> {
    if x.Some? then tasks[t := x.value] else tasks - {t}
  }

  /** A task after its worker call: a lane goes on, unless its worker died; an item returns its worker. */
  function AfterCall(task: Task, alive: bool): Task {
    task.(stage := if !task.role.Steps? then Returning(true) else if alive then Ready else Returning(false),
          files := [])
  }

  /** The task a step is about, afterwards; None when it is over. */
  function TaskAfter(task: Task, a: Action, now: int): Option<Task> {
    match a
    case Seek(_) => Some(task.(stage := Leasing))
    case Start(_, profile, evicts) => Some(task.(stage := Starting(profile, evicts)))
    case Lease(_, l) => Some(task.(stage := Ready, lease := Some(l)))
    case NoWorker(_, _) => if task.role.Steps? && task.stage.Leasing? then Some(task.(stage := Ready)) else None
    case Call(_, k) => Some(task.(stage := Working(k), since := now))
    case Allocate(_, n) => Some(task.(files := task.files + [n]))
    case Unsave(_, keep) => Some(if keep <= |task.files| then task.(files := task.files[..keep]) else task)
    case Answer(_, alive, _) => Some(AfterCall(task, alive))
    case Raise(_, alive) => Some(AfterCall(task, alive))
    case Leave(_) => if task.lease.None? then None else Some(task.(stage := Returning(true)))
    case Returned(_, raises) =>
      if task.role.Steps? && task.stage == Returning(false) then
        Some(task.(stage := if raises then Again else Ready, lease := None))
      else None
    case ReturnedAgain(_) => None
    case _ => Some(task)
  }

  predicate AboutTask(a: Action) {
    !(a.World? || a.OpenOne? || a.OpenBatch? || a.CloseBatch? || a.SweepOrphans?)
  }

  function NewTask(bracket: nat, role: Role, stage: Stage): Task {
    Task(bracket, role, stage, None, [], 0)
  }

  function TasksAfter(s: State, a: Action, retention: nat): map<nat, Task> {
    if a.OpenOne? then
      if Items.Next(s.items, Items.BeginOne(a.item, a.creates), retention).next == s.items.next then s.tasks
      else
        var role := if a.creates then Creates(a.item) else Verifies(a.item);
        s.tasks[a.t := NewTask(s.items.next, role, Leasing)]
    else if a.OpenBatch? then
      var entries := Items.BatchBegun(s.items.reg, s.items.owner, s.items.pins, a.tokens, s.items.now).2;
      s.tasks + map t | t in a.lanes :: NewTask(s.items.next, Steps(entries), Ready)
    else if AboutTask(a) && a.t in s.tasks then Put(s.tasks, a.t, TaskAfter(s.tasks[a.t], a, s.items.now))
    else s.tasks
  }

  /** The files a step leaves behind with no owner. */
  function LeftBy(s: State, a: Action): set<FileName> {
    match a
    case Raise(t, _) => FilesAt(s.tasks, t) * s.scratch.Keys
    case Answer(t, _, _) =>
      if t in s.tasks && !IsCancelled(s, s.tasks[t])
      then (FilesAt(s.tasks, t) - Moved(s, s.tasks[t])) * s.scratch.Keys else {}
    case _ => {}
  }

  function ScratchAfter(s: State, a: Action): map<FileName, int> {
    match a
    case Allocate(_, n) => s.scratch[n := s.items.now]
    case Save(_, n) => s.scratch[n := s.items.now]
    case Unsave(t, keep) => if t in s.tasks then s.scratch - Dropped(s.tasks[t], keep) else s.scratch
    case Answer(t, _, _) =>
      if t !in s.tasks then s.scratch
      else s.scratch - if IsCancelled(s, s.tasks[t]) then FilesAt(s.tasks, t) else Moved(s, s.tasks[t])
    case SweepOrphans => s.scratch - Outdated(s)
    case _ => s.scratch
  }

  function AsBag(lease: Option<Pool.Lease>): multiset<Pool.Lease> {
    if lease.Some? then multiset{lease.value} else multiset{}
  }

  function AsSet(lease: Option<Pool.Lease>): set<Pool.Lease> {
    if lease.Some? then {lease.value} else {}
  }

  /** The lease a step gives back. */
  function Given(s: State, a: Action): Option<Pool.Lease> {
    if a.Returned? then LeaseAt(s.tasks, a.t) else None
  }

  /** The lease a step takes. */
  function Got(a: Action): Option<Pool.Lease> {
    if a.Lease? then Some(a.lease) else None
  }

  /** The starting mark of a task. */
  function MarkOf(tasks: map<nat, Task>, t: nat): multiset<string> {
    if t in tasks && tasks[t].stage.Starting? then multiset{tasks[t].stage.profile} else multiset{}
  }

  function MarksAfter(s: State, a: Action): multiset<string> {
    match a
    case Start(_, profile, _) => s.marks + multiset{profile}
    case Lease(t, _) => s.marks - MarkOf(s.tasks, t)
    case NoWorker(t, _) => s.marks - MarkOf(s.tasks, t)
    case _ => s.marks
  }

  /** The mark a step leaves behind in the pool. */
  function LostBy(s: State, a: Action): multiset<string> {
    if a.NoWorker? && a.closing then MarkOf(s.tasks, a.t) else multiset{}
  }

  /** The step ends a lane by raising. */
  predicate LaneRaises(s: State, a: Action) {
    match a
    case NoWorker(t, _) => t in s.tasks && s.tasks[t].role.Steps? && s.tasks[t].stage.Starting?
    case Returned(t, raises) => raises && t in s.tasks && s.tasks[t].role.Steps? && s.tasks[t].stage == Returning(true)
    case ReturnedAgain(t) => t in s.tasks && s.tasks[t].role.Steps?
    case _ => false
  }

  function RaisedAfter(s: State, a: Action): set<nat> {
    if AboutTask(a) && LaneRaises(s, a) then s.raised + {s.tasks[a.t].bracket} else s.raised
  }

  /** One atomic step; a step that is not possible changes nothing. */
  ghost function Next(s: State, a: Action, retention: nat): State {
    if !Can(s, a) then s
    else
      State(Stepped(s.items, ItemStep(s, a), retention), TasksAfter(s, a, retention),
            s.busy - AsSet(Given(s, a)) + AsSet(Got(a)), ScratchAfter(s, a),
            s.leaked + LeftBy(s, a) - if a.SweepOrphans? then Outdated(s) else {},
            s.taken + AsBag(Got(a)), s.returned + AsBag(Given(s, a)), RaisedAfter(s, a),
            MarksAfter(s, a), s.lost + LostBy(s, a),
            s.retired + (if a.Returned? && a.raises then AsSet(Given(s, a)) else {}), s.ttl)
  }

  ghost function Run(s: State, actions: seq<Action>, retention: nat): State
    decreases |actions|
  {
    if actions == [] then s else Run(Next(s, actions[0], retention), actions[1..], retention)
  }

  /** A server that starts on a store with these states and untracked files. */
  function Initial(owner: map<Token, ItemId>, orphans: map<FileName, int>, now: int, ttl: int): State {
    State(Items.Initial(owner, now), map[], {}, orphans, orphans.Keys, multiset{}, multiset{}, {}, multiset{},
          multiset{}, {}, ttl)
  }

  // ---------------------------------------------------------------- the invariant

  predicate Distinct(files: seq<FileName>) {
    forall i, j :: 0 <= i < j < |files| ==> files[i] != files[j]
  }

  /** A stage and what may be held in it. */
  predicate TaskOk(task: Task) {
    && Distinct(task.files)
    && (task.files != [] ==> task.stage.Working? && !task.role.Verifies?)
    && (InGetWorker(task.stage) || task.stage.Again? ==> task.lease.None?)
    && (task.stage.Working? || task.stage.Returning? ==> task.lease.Some?)
    && (task.role.Steps? || InGetWorker(task.stage) || task.lease.Some?)
    && (task.stage.Again? ==> task.role.Steps?)
    && (task.role.Steps? && task.stage.Working? ==> task.stage.k < |task.role.entries|)
    && (!task.role.Steps? && task.stage.Returning? ==> task.stage.last)
  }

  ghost predicate TasksOk(tasks: map<nat, Task>) {
    forall t :: t in tasks ==> TaskOk(tasks[t])
  }

  /** Up to its finally block, an item task keeps its bracket open. */
  predicate Unfinished(task: Task) {
    !task.role.Steps? && !task.stage.Returning?
  }

  predicate BracketOk(brackets: map<nat, Items.Bracket>, raised: set<nat>, task: Task) {
    match task.role
    case Creates(item) =>
      Unfinished(task) ==> task.bracket in brackets && brackets[task.bracket] == Items.One(item, true)
    case Verifies(item) =>
      Unfinished(task) ==> task.bracket in brackets && brackets[task.bracket] == Items.One(item, false)
    case Steps(entries) =>
      task.bracket in raised || (task.bracket in brackets && brackets[task.bracket] == Items.Batch(entries))
  }

  function UnfinishedBrackets(tasks: map<nat, Task>): set<nat> {
    set t | t in tasks && Unfinished(tasks[t]) :: tasks[t].bracket
  }

  /** Open brackets belong to tasks: those of items to one unfinished task each; a lane's is open unless a lane of
      its batch raised. */
  ghost predicate BracketsOk(brackets: map<nat, Items.Bracket>, raised: set<nat>, tasks: map<nat, Task>) {
    && (forall t :: t in tasks ==> BracketOk(brackets, raised, tasks[t]))
    && (forall t, u :: t in tasks && u in tasks && t != u && Unfinished(tasks[t]) && Unfinished(tasks[u]) ==>
          tasks[t].bracket != tasks[u].bracket)
    && (forall b :: b in brackets && brackets[b].One? ==> b in UnfinishedBrackets(tasks))
  }

  /** The tasks that are starting a worker of a profile. */
  function Starters(tasks: map<nat, Task>, profile: string): set<nat> {
    set t | t in tasks && tasks[t].stage.Starting? && tasks[t].stage.profile == profile
  }

  /** The pool has a mark for every task that is starting a worker, under its profile. */
  ghost predicate MarksOk(tasks: map<nat, Task>, marks: multiset<string>) {
    forall p :: marks[p] == |Starters(tasks, p)|
  }

  /** No call has begun later than now, and its files were written since it began. */
  ghost predicate AgesOk(tasks: map<nat, Task>, scratch: map<FileName, int>, now: int) {
    forall t :: t in tasks && tasks[t].stage.Working? ==>
      && tasks[t].since <= now
      && forall f :: f in tasks[t].files && f in scratch ==> tasks[t].since <= scratch[f]
  }

  /** The busy leases are those the tasks hold, each held by one. */
  ghost predicate LeasesOk(tasks: map<nat, Task>, busy: set<Pool.Lease>) {
    && busy == Held(tasks)
    && (forall t, u :: t in tasks && u in tasks && t != u && tasks[t].lease.Some? ==> tasks[t].lease != tasks[u].lease)
  }

  /** The untracked files are the leaked ones and the owned ones that are there, each owned once. */
  ghost predicate FilesOk(tasks: map<nat, Task>, scratch: set<FileName>, leaked: set<FileName>) {
    && leaked <= scratch <= leaked + Owned(tasks)
    && leaked !! Owned(tasks)
    && (forall t, u :: t in tasks && u in tasks && t != u ==>
          Names(tasks[t].files) !! Names(tasks[u].files))
  }

  /** No file a call owns is named after a stored state. */
  ghost predicate NamesOk(tasks: map<nat, Task>, owner: map<Token, ItemId>) {
    forall f :: f in Owned(tasks) ==> f.stem !in owner
  }

  /** A state a lane steps from belongs to its item as long as it is stored. */
  ghost predicate ParentsOk(tasks: map<nat, Task>, owner: map<Token, ItemId>) {
    forall t, i :: t in tasks && tasks[t].role.Steps? && 0 <= i < |tasks[t].role.entries| ==>
      var e := tasks[t].role.entries[i];
      e.token in owner ==> owner[e.token] == e.item
  }

  ghost predicate Inv(s: State) {
    && Items.Inv(s.items)
    && TasksOk(s.tasks)
    && BracketsOk(s.items.brackets, s.raised, s.tasks)
    && LeasesOk(s.tasks, s.busy)
    && FilesOk(s.tasks, s.scratch.Keys, s.leaked) && AgesOk(s.tasks, s.scratch, s.items.now)
    && NamesOk(s.tasks, s.items.owner) && ParentsOk(s.tasks, s.items.owner)
    && MarksOk(s.tasks, s.marks) && s.retired !! s.busy
    && s.taken == s.returned + multiset(s.busy)
  }

  // ---------------------------------------------------------------- every step keeps the invariant

  lemma TaskKeeps(s: State, a: Action)
    requires Can(s, a) && AboutTask(a) && a.t in s.tasks && TaskOk(s.tasks[a.t])
    ensures
      var x := TaskAfter(s.tasks[a.t], a, s.items.now);
      x.Some? ==> TaskOk(x.value)
  {
    assert forall f :: f in s.tasks[a.t].files ==> f in Owned(s.tasks);
    hide Owned, IsCancelled, ParentGone, FreshTokens;
  }

  lemma TasksKeep(s: State, a: Action, retention: nat)
    requires Can(s, a) && TasksOk(s.tasks)
    ensures TasksOk(TasksAfter(s, a, retention))
  {
    hide Can, TaskAfter, Items.Next, Items.BatchBegun;
    if AboutTask(a) && a.t in s.tasks {
      TaskKeeps(s, a);
    }
  }

  lemma HeldPut(tasks: map<nat, Task>, t: nat, x: Option<Task>)
    requires LeasesOk(tasks, Held(tasks))
    ensures Held(Put(tasks, t, x))
         == Held(tasks) - AsSet(LeaseAt(tasks, t)) + if x.Some? then AsSet(x.value.lease) else {}
    ensures AsSet(LeaseAt(tasks, t)) <= Held(tasks)
  {
    var after := Put(tasks, t, x);
    var now := if x.Some? then AsSet(x.value.lease) else {};
    forall l | l in Held(after) ensures l in Held(tasks) - AsSet(LeaseAt(tasks, t)) + now {
      var u :| u in after && after[u].lease == Some(l);
      assert u != t ==> u in tasks && tasks[u].lease == Some(l);
    }
    forall l | l in Held(tasks) - AsSet(LeaseAt(tasks, t)) ensures l in Held(after) {
      var u :| u in tasks && tasks[u].lease == Some(l);
      assert u in after && after[u].lease == Some(l);
    }
    forall l | l in now ensures l in Held(after) {
      assert t in after && after[t].lease == Some(l);
    }
  }

  lemma HeldDistinct(tasks: map<nat, Task>, t: nat, x: Option<Task>)
    requires LeasesOk(tasks, Held(tasks))
    requires x.Some? && x.value.lease.Some? ==>
        x.value.lease == LeaseAt(tasks, t) || x.value.lease.value !in Held(tasks)
    ensures LeasesOk(Put(tasks, t, x), Held(Put(tasks, t, x)))
  {
    var after := Put(tasks, t, x);
    forall u, v | u in after && v in after && u != v && after[u].lease.Some? ensures after[u].lease != after[v].lease {
      assert u != t ==> u in tasks && after[u] == tasks[u] && tasks[u].lease.value in Held(tasks);
      assert v != t ==>
        v in tasks && after[v] == tasks[v] && (tasks[v].lease.Some? ==> tasks[v].lease.value in Held(tasks));
    }
  }

  lemma LeasesPut(tasks: map<nat, Task>, busy: set<Pool.Lease>, t: nat, x: Option<Task>, given: Option<Pool.Lease>,
                  got: Option<Pool.Lease>)
    requires LeasesOk(tasks, busy)
    requires
      var was, now := LeaseAt(tasks, t), if x.Some? then x.value.lease else None;
      || (given == None && got == None && was == now)
      || (given == None && was == None && got == now && got.Some? && got.value !in busy)
      || (given == was && given.Some? && got == None && now == None)
    ensures LeasesOk(Put(tasks, t, x), busy - AsSet(given) + AsSet(got))
    ensures multiset(busy - AsSet(given) + AsSet(got)) + AsBag(given) == multiset(busy) + AsBag(got)
  {
    HeldPut(tasks, t, x);
    HeldDistinct(tasks, t, x);
    hide Held, Put;
    var now := if x.Some? then AsSet(x.value.lease) else {};
    assert busy - AsSet(LeaseAt(tasks, t)) + now == busy - AsSet(given) + AsSet(got);
  }

  /** What a step about a task does to its lease. */
  lemma LeaseCases(s: State, a: Action)
    requires Can(s, a) && AboutTask(a) && a.t in s.tasks && TaskOk(s.tasks[a.t])
    ensures
      var was, x := s.tasks[a.t].lease, TaskAfter(s.tasks[a.t], a, s.items.now);
      var now := if x.Some? then x.value.lease else None;
      if a.Lease? then was == None && now == Some(a.lease) && a.lease !in s.busy
      else if a.Returned? then was.Some? && now == None
      else was == now
  {}

  lemma Balance(taken: multiset<Pool.Lease>, returned: multiset<Pool.Lease>, busy: multiset<Pool.Lease>,
                after: multiset<Pool.Lease>, given: multiset<Pool.Lease>, got: multiset<Pool.Lease>)
    requires taken == returned + busy && after + given == busy + got
    ensures taken + got == returned + given + after
  {
    forall l ensures (taken + got)[l] == (returned + given + after)[l] {
      assert (after + given)[l] == (busy + got)[l];
    }
  }

  lemma TasksPut(s: State, a: Action, retention: nat)
    requires Can(s, a) && AboutTask(a)
    ensures a.t in s.tasks && TasksAfter(s, a, retention) == Put(s.tasks, a.t, TaskAfter(s.tasks[a.t], a, s.items.now))
  {
    hide Put, TaskAfter;
  }

  /** A step about a task, part by part. */
  lemma Parts(s: State, a: Action, retention: nat)
    requires Can(s, a) && AboutTask(a)
    ensures
      var n := Next(s, a, retention);
      && a.t in s.tasks && n.tasks == Put(s.tasks, a.t, TaskAfter(s.tasks[a.t], a, s.items.now))
      && n.items == Stepped(s.items, ItemStep(s, a), retention) && n.scratch == ScratchAfter(s, a)
      && n.busy == s.busy - AsSet(Given(s, a)) + AsSet(Got(a)) && (!a.Lease? && !a.Returned? ==> n.busy == s.busy)
      && n.raised == RaisedAfter(s, a) && n.marks == MarksAfter(s, a) && n.lost == s.lost + LostBy(s, a)
      && n.retired == s.retired + (if a.Returned? && a.raises then AsSet(Given(s, a)) else {})
      && (!a.Returned? ==> n.retired == s.retired) && n.ttl == s.ttl
  {
    TasksPut(s, a, retention);
    hide Can, TaskAfter, ScratchAfter, RaisedAfter, MarksAfter, LostBy, LeftBy, TasksAfter, Put, Stepped, ItemStep;
    assert s.busy - {} + {} == s.busy;
  }

  /** A step about no task, part by part. */
  lemma OtherParts(s: State, a: Action, retention: nat)
    requires Can(s, a) && !AboutTask(a)
    ensures
      var n := Next(s, a, retention);
      && n.tasks == TasksAfter(s, a, retention) && n.items == Stepped(s.items, ItemStep(s, a), retention)
      && n.scratch == (if a.SweepOrphans? then s.scratch - Outdated(s) else s.scratch)
      && n.busy == s.busy && n.raised == s.raised && n.marks == s.marks && n.lost == s.lost
      && n.retired == s.retired && n.ttl == s.ttl
  {
    hide Can, LeftBy, TasksAfter, Stepped, ItemStep, Outdated, Given, Got, RaisedAfter, MarksAfter, LostBy,
         ScratchAfter;
    NoTaskPart(s, a);
    assert s.busy - {} + {} == s.busy && s.retired + {} == s.retired && s.lost + multiset{} == s.lost;
  }

  lemma NoTaskPart(s: State, a: Action)
    requires !AboutTask(a)
    ensures Given(s, a) == None && Got(a) == None && RaisedAfter(s, a) == s.raised && MarksAfter(s, a) == s.marks
    ensures LostBy(s, a) == multiset{}
    ensures ScratchAfter(s, a) == if a.SweepOrphans? then s.scratch - Outdated(s) else s.scratch
  {
    hide Outdated;
  }

  lemma LeasesKeep(s: State, a: Action, retention: nat)
    requires Can(s, a) && TasksOk(s.tasks) && LeasesOk(s.tasks, s.busy)
    ensures LeasesOk(TasksAfter(s, a, retention), s.busy - AsSet(Given(s, a)) + AsSet(Got(a)))
    ensures multiset(s.busy - AsSet(Given(s, a)) + AsSet(Got(a))) + AsBag(Given(s, a))
        == multiset(s.busy) + AsBag(Got(a))
  {
    hide Can, TasksAfter, TaskOk, LeasesOk, TaskAfter, Put;
    if AboutTask(a) {
      TasksPut(s, a, retention);
      LeaseCases(s, a);
      LeasesPut(s.tasks, s.busy, a.t, TaskAfter(s.tasks[a.t], a, s.items.now), Given(s, a), Got(a));
    } else {
      NewLeases(s, a, retention);
      assert s.busy - {} + {} == s.busy;
    }
  }

  lemma NewLeases(s: State, a: Action, retention: nat)
    requires Can(s, a) && !AboutTask(a) && LeasesOk(s.tasks, s.busy)
    ensures LeasesOk(TasksAfter(s, a, retention), s.busy)
  {
    NewTasks(s, a, retention);
    hide TasksAfter, Held;
  }

  /** Tasks that open hold nothing. */
  lemma NewTasks(s: State, a: Action, retention: nat)
    requires Can(s, a) && !AboutTask(a)
    ensures var tasks := TasksAfter(s, a, retention);
      && s.tasks.Keys <= tasks.Keys && (forall t :: t in s.tasks ==> tasks[t] == s.tasks[t])
      && (forall t :: t in tasks && t !in s.tasks ==> tasks[t].lease.None? && tasks[t].files == [])
      && Held(tasks) == Held(s.tasks) && Owned(tasks) == Owned(s.tasks)
  {
    hide Items.Next, Items.BatchBegun;
    var tasks := TasksAfter(s, a, retention);
    assert forall t :: t in s.tasks ==> t in tasks && tasks[t] == s.tasks[t];
  }

  lemma OwnedPut(tasks: map<nat, Task>, t: nat, x: Option<Task>)
    requires forall a, b :: a in tasks && b in tasks && a != b ==> Names(tasks[a].files) !! Names(tasks[b].files)
    ensures Owned(Put(tasks, t, x)) == Owned(tasks) - FilesAt(tasks, t) + FilesOf(x)
  {
    var after := Put(tasks, t, x);
    forall u | u in after && u != t ensures u in tasks && after[u] == tasks[u] {}
    forall f | f in Owned(after) ensures f in Owned(tasks) - FilesAt(tasks, t) + FilesOf(x) {
      var u :| u in after && f in after[u].files;
      if u != t && t in tasks {
        assert f in Names(tasks[u].files) && Names(tasks[u].files) !! Names(tasks[t].files);
      }
    }
    forall f | f in Owned(tasks) - FilesAt(tasks, t) ensures f in Owned(after) {
      var u :| u in tasks && f in tasks[u].files;
      assert u != t && u in after;
    }
    forall f | f in FilesOf(x) ensures f in Owned(after) {
      assert t in after && f in after[t].files;
    }
  }

  lemma FilesPut(tasks: map<nat, Task>, scratch: set<FileName>, leaked: set<FileName>, t: nat, x: Option<Task>,
                 scratch': set<FileName>, leaked': set<FileName>)
    requires FilesOk(tasks, scratch, leaked)
    requires
      var owned := Owned(tasks) - FilesAt(tasks, t) + FilesOf(x);
      && (FilesOf(x) - FilesAt(tasks, t)) !! Owned(tasks)
      && leaked' <= scratch' <= leaked' + owned && leaked' !! owned
    ensures FilesOk(Put(tasks, t, x), scratch', leaked')
  {
    OwnedPut(tasks, t, x);
    var after := Put(tasks, t, x);
    forall a, b | a in after && b in after && a != b ensures Names(after[a].files) !! Names(after[b].files) {
      assert forall f :: (a in tasks && f in tasks[a].files) || (b in tasks && f in tasks[b].files) ==>
          f in Owned(tasks);
      assert Names(after[a].files) == if a == t then FilesOf(x) else FilesAt(tasks, a);
      assert Names(after[b].files) == if b == t then FilesOf(x) else FilesAt(tasks, b);
    }
  }

  /** What a step about a task does to the files: how the owned, the untracked and the left ones change. */
  ghost predicate FilesMove(s: State, a: Action, now: set<FileName>)
    requires AboutTask(a)
  {
    var owned := Owned(s.tasks) - FilesAt(s.tasks, a.t) + now;
    var scratch', leaked' := ScratchAfter(s, a).Keys, s.leaked + LeftBy(s, a);
    && (now - FilesAt(s.tasks, a.t)) !! Owned(s.tasks)
    && leaked' <= scratch' <= leaked' + owned && leaked' !! owned
  }

  lemma WriteCases(s: State, a: Action)
    requires Can(s, a) && (a.Allocate? || a.Save? || a.Unsave?) && FilesOk(s.tasks, s.scratch.Keys, s.leaked)
    ensures FilesMove(s, a, FilesOf(TaskAfter(s.tasks[a.t], a, s.items.now)))
  {
    assert forall f :: f in s.tasks[a.t].files ==> f in Owned(s.tasks);
    if a.Unsave? {
      DroppedOwn(s.tasks[a.t].files, a.keep);
    }
    hide Owned;
  }

  lemma EndCases(s: State, a: Action)
    requires Can(s, a) && (a.Answer? || a.Raise?) && FilesOk(s.tasks, s.scratch.Keys, s.leaked)
    ensures FilesMove(s, a, FilesOf(TaskAfter(s.tasks[a.t], a, s.items.now)))
  {
    assert forall f :: f in s.tasks[a.t].files ==> f in Owned(s.tasks);
    MovedOwn(s, s.tasks[a.t]);
    hide Owned, IsCancelled, FreshTokens, Moved;
  }

  lemma FileCases(s: State, a: Action)
    requires Can(s, a) && AboutTask(a) && a.t in s.tasks && FilesOk(s.tasks, s.scratch.Keys, s.leaked)
    requires TaskOk(s.tasks[a.t])
    ensures FilesMove(s, a, FilesOf(TaskAfter(s.tasks[a.t], a, s.items.now)))
  {
    hide FilesMove, Can, TaskAfter;
    if a.Allocate? || a.Save? || a.Unsave? {
      WriteCases(s, a);
    } else if a.Answer? || a.Raise? {
      EndCases(s, a);
    } else {
      NoFiles(s, a);
    }
  }

  /** Any other step leaves the files alone; a task that ends has none. */
  lemma NoFiles(s: State, a: Action)
    requires Can(s, a) && AboutTask(a) && FilesOk(s.tasks, s.scratch.Keys, s.leaked) && TaskOk(s.tasks[a.t])
    requires !a.Allocate? && !a.Save? && !a.Unsave? && !a.Answer? && !a.Raise?
    ensures FilesMove(s, a, FilesOf(TaskAfter(s.tasks[a.t], a, s.items.now)))
  {
    hide Owned, FilesAt, FilesOf, TaskAfter, ScratchAfter, LeftBy, Can, TaskOk;
    OwnFiles(s.tasks, a.t);
    SameFiles(s, a);
    assert Owned(s.tasks) - FilesAt(s.tasks, a.t) + FilesAt(s.tasks, a.t) == Owned(s.tasks);
  }

  lemma SameFiles(s: State, a: Action)
    requires Can(s, a) && AboutTask(a) && TaskOk(s.tasks[a.t])
    requires !a.Allocate? && !a.Save? && !a.Unsave? && !a.Answer? && !a.Raise?
    ensures FilesOf(TaskAfter(s.tasks[a.t], a, s.items.now)) == FilesAt(s.tasks, a.t)
    ensures ScratchAfter(s, a) == s.scratch && LeftBy(s, a) == {}
  {
    hide Owned, FreshName, FreshTokens;
  }

  lemma OwnFiles(tasks: map<nat, Task>, t: nat)
    ensures FilesAt(tasks, t) <= Owned(tasks)
  {}

  lemma MovedOwn(s: State, task: Task)
    ensures Moved(s, task) <= Names(task.files) * s.scratch.Keys
  {}

  lemma DroppedOwn(files: seq<FileName>, keep: nat)
    requires keep <= |files|
    ensures Names(files) == Names(files[..keep]) + Names(files[keep..])
  {}

  /** A step, as far as files go. */
  lemma FileParts(s: State, a: Action, retention: nat)
    ensures var n := Next(s, a, retention);
      && n.scratch == (if Can(s, a) then ScratchAfter(s, a) else s.scratch)
      && n.leaked == if Can(s, a) then s.leaked + LeftBy(s, a) - (if a.SweepOrphans? then Outdated(s) else {})
                     else s.leaked
  {
    hide Can, ScratchAfter, LeftBy, Outdated, TasksAfter, Stepped, ItemStep, MarksAfter, RaisedAfter, LostBy;
  }

  lemma FilesKeep(s: State, a: Action, retention: nat)
    requires Can(s, a) && TasksOk(s.tasks) && FilesOk(s.tasks, s.scratch.Keys, s.leaked)
    ensures var n := Next(s, a, retention); FilesOk(n.tasks, n.scratch.Keys, n.leaked)
  {
    hide Next, Can, FilesOk, TasksOk;
    if AboutTask(a) {
      TaskFilesKeep(s, a, retention);
    } else {
      OtherFilesKeep(s, a, retention);
    }
  }

  lemma TaskFilesKeep(s: State, a: Action, retention: nat)
    requires Can(s, a) && AboutTask(a) && TasksOk(s.tasks) && FilesOk(s.tasks, s.scratch.Keys, s.leaked)
    ensures var n := Next(s, a, retention); FilesOk(n.tasks, n.scratch.Keys, n.leaked)
  {
    hide Next, Can, TaskAfter, ScratchAfter, LeftBy, FilesOk, Owned, FilesAt, FilesOf, TaskOk, Put;
    Parts(s, a, retention);
    FileParts(s, a, retention);
    FileCases(s, a);
    var n := Next(s, a, retention);
    assert n.leaked == s.leaked + LeftBy(s, a);
    FilesPut(s.tasks, s.scratch.Keys, s.leaked, a.t, TaskAfter(s.tasks[a.t], a, s.items.now), n.scratch.Keys, n.leaked);
  }

  lemma OtherFilesKeep(s: State, a: Action, retention: nat)
    requires Can(s, a) && !AboutTask(a) && FilesOk(s.tasks, s.scratch.Keys, s.leaked)
    ensures var n := Next(s, a, retention); FilesOk(n.tasks, n.scratch.Keys, n.leaked)
  {
    hide Next, Can, TasksAfter, Owned, Held, Outdated;
    OtherParts(s, a, retention);
    FileParts(s, a, retention);
    NewTasks(s, a, retention);
  }

  // how old files and calls are

  /** What a step about a task does to the ages of its files. */
  lemma AgeCases(s: State, a: Action)
    requires Can(s, a) && AboutTask(a) && TaskOk(s.tasks[a.t]) && AgesOk(s.tasks, s.scratch, s.items.now)
    ensures
      var x := TaskAfter(s.tasks[a.t], a, s.items.now);
      x.Some? && x.value.stage.Working? ==>
        && x.value.since <= s.items.now
        && forall f :: f in x.value.files && f in ScratchAfter(s, a) ==> x.value.since <= ScratchAfter(s, a)[f]
  {
    hide IsCancelled, ParentGone, FreshTokens, FreshName, Reach;
  }

  /** Files only disappear, or are written now. */
  lemma NoFileAges(s: State, a: Action)
    requires Can(s, a)
    ensures forall f :: f in ScratchAfter(s, a) ==>
      (f in s.scratch && ScratchAfter(s, a)[f] == s.scratch[f]) || ScratchAfter(s, a)[f] == s.items.now
  {
    hide IsCancelled, ParentGone, FreshTokens, FreshName, Reach;
  }

  /** The clock after a step. */
  function Later(now: int, a: Action): int {
    if a.World? && a.a.Tick? then now + a.a.elapsed else now
  }

  lemma ClockGoesOn(s: State, a: Action, retention: nat)
    ensures Stepped(s.items, ItemStep(s, a), retention).now == Later(s.items.now, a)
  {
    hide Swept, Begun, Items.BatchBegun, Items.AllFinished, Items.AllUnpinned, Finished, Items.Stored;
  }

  lemma AgesLater(tasks: map<nat, Task>, was: map<FileName, int>, scratch: map<FileName, int>, now: int, later: int)
    requires AgesOk(tasks, was, now) && now <= later
    requires forall f :: f in scratch ==> (f in was && scratch[f] == was[f]) || scratch[f] == now
    ensures AgesOk(tasks, scratch, later)
  {}

  lemma AgesKeep(s: State, a: Action, retention: nat)
    requires Can(s, a) && TasksOk(s.tasks) && AgesOk(s.tasks, s.scratch, s.items.now)
    ensures AgesOk(TasksAfter(s, a, retention), ScratchAfter(s, a), Stepped(s.items, ItemStep(s, a), retention).now)
  {
    hide TasksAfter, ScratchAfter, Stepped, ItemStep, TaskAfter, Can, Owned, Held, TaskOk;
    NoFileAges(s, a);
    ClockGoesOn(s, a, retention);
    AgesLater(s.tasks, s.scratch, ScratchAfter(s, a), s.items.now, Stepped(s.items, ItemStep(s, a), retention).now);
    if AboutTask(a) {
      TasksPut(s, a, retention);
      AgeCases(s, a);
    } else {
      NewTasks(s, a, retention);
      NewIdle(s, a, retention);
    }
  }

  lemma NewIdle(s: State, a: Action, retention: nat)
    requires Can(s, a) && !AboutTask(a)
    ensures var tasks := TasksAfter(s, a, retention);
      forall t :: t in tasks && t !in s.tasks ==> tasks[t].stage.Ready? || tasks[t].stage.Leasing?
  {
    hide Items.Next, Items.BatchBegun;
  }

  // starting marks

  function StarterAt(x: Option<Task>, profile: string): bool {
    x.Some? && x.value.stage.Starting? && x.value.stage.profile == profile
  }

  lemma StartersPut(tasks: map<nat, Task>, t: nat, x: Option<Task>, profile: string)
    ensures |Starters(Put(tasks, t, x), profile)| + Bit(StarterAt(Was(tasks, t), profile))
         == |Starters(tasks, profile)| + Bit(StarterAt(x, profile))
  {
    var was, now := Starters(tasks, profile), Starters(Put(tasks, t, x), profile);
    StartersApart(tasks, t, x, profile);
    hide Starters, StarterAt, Put;
    WithOne(was, t);
    WithOne(now, t);
  }

  lemma StartersApart(tasks: map<nat, Task>, t: nat, x: Option<Task>, profile: string)
    ensures Starters(Put(tasks, t, x), profile) - {t} == Starters(tasks, profile) - {t}
    ensures t in Starters(tasks, profile) <==> StarterAt(Was(tasks, t), profile)
    ensures t in Starters(Put(tasks, t, x), profile) <==> StarterAt(x, profile)
  {}

  lemma WithOne(a: set<nat>, t: nat)
    ensures |a| == |a - {t}| + Bit(t in a)
  {
    assert a == (a - {t}) + if t in a then {t} else {};
  }

  /** What a step about a task does to its mark. */
  lemma MarkCases(s: State, a: Action, profile: string)
    requires Can(s, a) && AboutTask(a) && TaskOk(s.tasks[a.t]) && MarkOf(s.tasks, a.t) <= s.marks
    ensures MarksAfter(s, a)[profile] + Bit(StarterAt(Was(s.tasks, a.t), profile))
         == s.marks[profile] + Bit(StarterAt(TaskAfter(s.tasks[a.t], a, s.items.now), profile))
  {
    hide IsCancelled, ParentGone, FreshTokens, FreshName;
  }

  /** The mark of a task that is starting a worker is in the pool. */
  lemma OwnMark(tasks: map<nat, Task>, marks: multiset<string>, t: nat)
    requires MarksOk(tasks, marks)
    ensures MarkOf(tasks, t) <= marks
  {
    if t in tasks && tasks[t].stage.Starting? {
      var p := tasks[t].stage.profile;
      assert marks[p] == |Starters(tasks, p)| && t in Starters(tasks, p);
    }
  }

  lemma MarksKeep(s: State, a: Action, retention: nat)
    requires Can(s, a) && TasksOk(s.tasks) && MarksOk(s.tasks, s.marks)
    ensures MarksOk(TasksAfter(s, a, retention), MarksAfter(s, a))
  {
    hide Starters;
    if AboutTask(a) {
      TasksPut(s, a, retention);
      OwnMark(s.tasks, s.marks, a.t);
      forall p ensures MarksAfter(s, a)[p] == |Starters(TasksAfter(s, a, retention), p)| {
        assert s.marks[p] == |Starters(s.tasks, p)|;
        StartersPut(s.tasks, a.t, TaskAfter(s.tasks[a.t], a, s.items.now), p);
        MarkCases(s, a, p);
      }
      hide TasksAfter, MarksAfter, TaskAfter, Can;
    } else {
      NewTasks(s, a, retention);
      NewIdle(s, a, retention);
      hide TasksAfter, Can;
      forall p ensures Starters(TasksAfter(s, a, retention), p) == Starters(s.tasks, p) {
        NoNewStarters(s.tasks, TasksAfter(s, a, retention), p);
      }
    }
  }

  lemma NoNewStarters(tasks: map<nat, Task>, more: map<nat, Task>, profile: string)
    requires tasks.Keys <= more.Keys && forall t :: t in tasks ==> more[t] == tasks[t]
    requires forall t :: t in more && t !in tasks ==> more[t].stage.Ready? || more[t].stage.Leasing?
    ensures Starters(more, profile) == Starters(tasks, profile)
  {}

  /** The steps that end an item's bracket. */
  predicate Closes(a: Action) {
    a.NoWorker? || a.Raise? || a.Leave? || a.Answer?
  }

  /** The open brackets after a step. */
  function BracketsAfter(s: State, a: Action, retention: nat): map<nat, Items.Bracket> {
    Stepped(s.items, ItemStep(s, a), retention).brackets
  }

  lemma OpenedBrackets(s: State, a: Action, retention: nat)
    requires a.OpenOne? || a.OpenBatch?
    ensures a.OpenOne? ==>
      var n := Items.Next(s.items, Items.BeginOne(a.item, a.creates), retention);
      BracketsAfter(s, a, retention) ==
        if n.next == s.items.next then s.items.brackets
            else s.items.brackets[s.items.next := Items.One(a.item, a.creates)]
    ensures a.OpenBatch? ==>
      var entries := Items.BatchBegun(s.items.reg, s.items.owner, s.items.pins, a.tokens, s.items.now).2;
      BracketsAfter(s, a, retention) == s.items.brackets[s.items.next := Items.Batch(entries)]
  {
    hide Begun, Items.BatchBegun;
  }

  lemma KeptBrackets(s: State, a: Action, retention: nat)
    requires Can(s, a) && !a.OpenOne? && !a.OpenBatch? && !a.CloseBatch?
    requires AboutTask(a) && Closes(a) ==> s.tasks[a.t].role.Steps?
    ensures BracketsAfter(s, a, retention) == s.items.brackets
  {
    hide Swept, Items.Stored;
  }

  lemma ClosedBracket(s: State, a: Action, retention: nat)
    requires Can(s, a) && Closes(a) && !s.tasks[a.t].role.Steps?
    requires TaskOk(s.tasks[a.t]) && BracketOk(s.items.brackets, s.raised, s.tasks[a.t])
    ensures BracketsAfter(s, a, retention) == s.items.brackets - {s.tasks[a.t].bracket}
    ensures Unfinished(s.tasks[a.t])
    ensures
      var x := TaskAfter(s.tasks[a.t], a, s.items.now);
      x.Some? ==> !Unfinished(x.value) && !x.value.role.Steps?
  {
    hide Finished, Items.Stored;
  }

  lemma LeaveUnchanged(s: State, a: Action, x: Task)
    requires Can(s, a) && AboutTask(a) && TaskOk(s.tasks[a.t])
    requires Closes(a) ==> s.tasks[a.t].role.Steps?
    requires TaskAfter(s.tasks[a.t], a, s.items.now) == Some(x)
    ensures x.role == s.tasks[a.t].role && x.bracket == s.tasks[a.t].bracket
        && (Unfinished(x) <==> Unfinished(s.tasks[a.t]))
  {}

  lemma LeaveOver(s: State, a: Action)
    requires Can(s, a) && AboutTask(a) && TaskOk(s.tasks[a.t])
    requires Closes(a) ==> s.tasks[a.t].role.Steps?
    requires TaskAfter(s.tasks[a.t], a, s.items.now).None?
    ensures !Unfinished(s.tasks[a.t])
  {}

  /** A task changes, but not its bracket. */
  lemma SameBracket(brackets: map<nat, Items.Bracket>, raised: set<nat>, tasks: map<nat, Task>, t: nat, x: Option<Task>,
                    more: set<nat>)
    requires BracketsOk(brackets, raised, tasks) && t in tasks && raised <= more
    requires x.None? ==> !Unfinished(tasks[t])
    requires x.Some? ==> x.value.role == tasks[t].role && x.value.bracket == tasks[t].bracket
                         && (Unfinished(x.value) <==> Unfinished(tasks[t]))
    ensures BracketsOk(brackets, more, Put(tasks, t, x))
  {
    var after := Put(tasks, t, x);
    forall b | b in brackets && brackets[b].One? ensures b in UnfinishedBrackets(after) {
      var u :| u in tasks && Unfinished(tasks[u]) && tasks[u].bracket == b;
      assert u in after && Unfinished(after[u]) && after[u].bracket == b;
    }
    forall u | u in after ensures BracketOk(brackets, more, after[u]) {
      assert BracketOk(brackets, raised, tasks[u]);
    }
  }

  /** An item's task ends its bracket. */
  lemma OneBracketLess(brackets: map<nat, Items.Bracket>, raised: set<nat>, tasks: map<nat, Task>, t: nat,
                       x: Option<Task>, more: set<nat>)
    requires BracketsOk(brackets, raised, tasks) && t in tasks && raised <= more
    requires Unfinished(tasks[t]) && (x.Some? ==> !Unfinished(x.value) && !x.value.role.Steps?)
    ensures BracketsOk(brackets - {tasks[t].bracket}, more, Put(tasks, t, x))
  {
    var after, left := Put(tasks, t, x), brackets - {tasks[t].bracket};
    assert BracketOk(brackets, raised, tasks[t]);
    forall b | b in left && left[b].One? ensures b in UnfinishedBrackets(after) {
      var u :| u in tasks && Unfinished(tasks[u]) && tasks[u].bracket == b;
      assert u in after && Unfinished(after[u]) && after[u].bracket == b;
    }
    forall u | u in after ensures BracketOk(left, more, after[u]) {
      if u != t {
        assert BracketOk(brackets, raised, tasks[u]);
      }
    }
  }

  lemma BracketsKeep(s: State, a: Action, retention: nat)
    requires Can(s, a) && AboutTask(a) && TasksOk(s.tasks) && BracketsOk(s.items.brackets, s.raised, s.tasks)
    ensures BracketsOk(BracketsAfter(s, a, retention), RaisedAfter(s, a), TasksAfter(s, a, retention))
  {
    TasksPut(s, a, retention);
    assert TaskOk(s.tasks[a.t]) && BracketOk(s.items.brackets, s.raised, s.tasks[a.t]);
    var x := TaskAfter(s.tasks[a.t], a, s.items.now);
    var more := RaisedAfter(s, a);
    assert s.raised <= more;
    hide Can, RaisedAfter, BracketsAfter, TasksAfter, TaskAfter, BracketOk, BracketsOk, Put, Unfinished, TaskOk,
         TasksOk;
    if Closes(a) && !s.tasks[a.t].role.Steps? {
      ClosedBracket(s, a, retention);
      OneBracketLess(s.items.brackets, s.raised, s.tasks, a.t, x, more);
    } else {
      KeptBrackets(s, a, retention);
      if x.Some? {
        LeaveUnchanged(s, a, x.value);
      } else {
        LeaveOver(s, a);
      }
      SameBracket(s.items.brackets, s.raised, s.tasks, a.t, x, more);
    }
  }

  /** An item's task opens its bracket. */
  lemma OneOpened(brackets: map<nat, Items.Bracket>, raised: set<nat>, tasks: map<nat, Task>, b: nat, t: nat, x: Task)
    requires BracketsOk(brackets, raised, tasks) && b !in brackets && t !in tasks
    requires Unfinished(x) && x.bracket == b && (x.role.Creates? || x.role.Verifies?)
    ensures BracketsOk(brackets[b := Items.One(x.role.item, x.role.Creates?)], raised, tasks[t := x])
  {
    var after, more := tasks[t := x], brackets[b := Items.One(x.role.item, x.role.Creates?)];
    forall c | c in more && more[c].One? ensures c in UnfinishedBrackets(after) {
      if c == b {
        assert t in after && Unfinished(after[t]) && after[t].bracket == b;
      } else {
        var u :| u in tasks && Unfinished(tasks[u]) && tasks[u].bracket == c;
        assert u in after && Unfinished(after[u]) && after[u].bracket == c;
      }
    }
    forall u | u in after ensures BracketOk(more, raised, after[u]) {
      if u != t {
        assert BracketOk(brackets, raised, tasks[u]);
      }
    }
  }

  /** A batch opens with its lanes. */
  lemma BatchOpened(brackets: map<nat, Items.Bracket>, raised: set<nat>, tasks: map<nat, Task>, b: nat, lanes: set<nat>,
                    entries: seq<Items.Entry>)
    requires BracketsOk(brackets, raised, tasks) && b !in brackets && lanes !! tasks.Keys
    ensures BracketsOk(brackets[b := Items.Batch(entries)], raised,
                       tasks + map t | t in lanes :: NewTask(b, Steps(entries), Ready))
  {
    var after := tasks + map t | t in lanes :: NewTask(b, Steps(entries), Ready);
    var more := brackets[b := Items.Batch(entries)];
    forall c | c in more && more[c].One? ensures c in UnfinishedBrackets(after) {
      var u :| u in tasks && Unfinished(tasks[u]) && tasks[u].bracket == c;
      assert u in after && Unfinished(after[u]) && after[u].bracket == c;
    }
    forall u | u in after ensures BracketOk(more, raised, after[u]) {
      if u !in lanes {
        assert after[u] == tasks[u] && BracketOk(brackets, raised, tasks[u]);
      }
    }
  }

  /** A batch closes: its lanes are through, or one of them raised. */
  lemma BatchClosed(brackets: map<nat, Items.Bracket>, raised: set<nat>, tasks: map<nat, Task>, b: nat)
    requires BracketsOk(brackets, raised, tasks)
    requires b in brackets && brackets[b].Batch? && (b in raised || !LaneLeft(tasks, b))
    ensures BracketsOk(brackets - {b}, raised, tasks)
  {
    forall u | u in tasks ensures BracketOk(brackets - {b}, raised, tasks[u]) {
      assert BracketOk(brackets, raised, tasks[u]);
    }
  }

  lemma BracketsOpened(s: State, a: Action, retention: nat)
    requires Can(s, a) && !AboutTask(a) && Items.Inv(s.items) && BracketsOk(s.items.brackets, s.raised, s.tasks)
    ensures BracketsOk(BracketsAfter(s, a, retention), s.raised, TasksAfter(s, a, retention))
  {
    assert s.items.next !in s.items.brackets;
    hide Items.Next, Items.BatchBegun, Items.Inv, BracketsOk;
    if a.OpenOne? {
      OpenedBrackets(s, a, retention);
      hide BracketsAfter;
      var x := NewTask(s.items.next, if a.creates then Creates(a.item) else Verifies(a.item), Leasing);
      OneOpened(s.items.brackets, s.raised, s.tasks, s.items.next, a.t, x);
    } else if a.OpenBatch? {
      OpenedBrackets(s, a, retention);
      hide BracketsAfter;
      BatchOpened(s.items.brackets, s.raised, s.tasks, s.items.next, a.lanes,
                  Items.BatchBegun(s.items.reg, s.items.owner, s.items.pins, a.tokens, s.items.now).2);
    } else if a.CloseBatch? {
      BatchClosed(s.items.brackets, s.raised, s.tasks, a.b);
      BatchBracketLess(s, a.b, retention);
    } else {
      KeptBrackets(s, a, retention);
    }
  }

  lemma BatchBracketLess(s: State, b: nat, retention: nat)
    requires Can(s, CloseBatch(b))
    ensures BracketsAfter(s, CloseBatch(b), retention) == s.items.brackets - {b}
  {}

  // names

  /** No step stores a state under a token other than those it makes. */
  lemma OwnersAfter(s: State, a: Action, retention: nat)
    requires Can(s, a)
    ensures Stepped(s.items, ItemStep(s, a), retention).owner.Keys
         <= s.items.owner.Keys + if a.Answer? then a.made else {}
  {
    hide Swept, Begun, Items.BatchBegun, Items.AllFinished, Items.AllUnpinned, Finished;
  }

  lemma NewNames(s: State, a: Action)
    requires Can(s, a) && AboutTask(a) && TaskOk(s.tasks[a.t])
    ensures forall f :: f in FilesOf(TaskAfter(s.tasks[a.t], a, s.items.now)) && f !in FilesAt(s.tasks, a.t) ==>
      a.Allocate? && f.stem !in s.items.owner
    ensures a.Answer? ==> forall f :: f in Owned(s.tasks) ==> f.stem !in a.made
    ensures a.Answer? ==> FilesOf(TaskAfter(s.tasks[a.t], a, s.items.now)) == {}
  {
    hide IsCancelled, ParentGone, Owned, Parents;
  }

  lemma NamesKeep(s: State, a: Action, retention: nat)
    requires Can(s, a) && TasksOk(s.tasks) && FilesOk(s.tasks, s.scratch.Keys, s.leaked)
    requires NamesOk(s.tasks, s.items.owner)
    ensures NamesOk(TasksAfter(s, a, retention), Stepped(s.items, ItemStep(s, a), retention).owner)
  {
    OwnersAfter(s, a, retention);
    hide Stepped, ItemStep, Owned, FilesAt, FilesOf, TaskAfter, Put, TaskOk, Can;
    if AboutTask(a) {
      TasksPut(s, a, retention);
      NewNames(s, a);
      OwnedPut(s.tasks, a.t, TaskAfter(s.tasks[a.t], a, s.items.now));
    } else {
      NewTasks(s, a, retention);
    }
    hide TasksAfter, TasksOk, FilesOk;
  }

  /** A token keeps its item. */
  lemma OwnersSame(s: State, a: Action, retention: nat)
    requires Can(s, a)
    ensures
      var owner := Stepped(s.items, ItemStep(s, a), retention).owner;
      forall x :: x in owner && x in s.items.owner ==> owner[x] == s.items.owner[x]
  {
    hide Swept, Begun, Items.BatchBegun, Items.AllFinished, Items.AllUnpinned, Finished;
  }

  lemma ParentsPut(tasks: map<nat, Task>, t: nat, x: Option<Task>, owner: map<Token, ItemId>)
    requires ParentsOk(tasks, owner) && (x.Some? ==> t in tasks && x.value.role == tasks[t].role)
    ensures ParentsOk(Put(tasks, t, x), owner)
  {}

  lemma RoleStays(s: State, a: Action)
    requires Can(s, a) && AboutTask(a)
    ensures
      var x := TaskAfter(s.tasks[a.t], a, s.items.now);
      x.Some? ==> x.value.role == s.tasks[a.t].role
  {}

  lemma ParentsOpened(s: State, lanes: set<nat>, tokens: seq<Token>, retention: nat)
    requires Items.Inv(s.items) && ParentsOk(s.tasks, s.items.owner)
    ensures ParentsOk(TasksAfter(s, OpenBatch(lanes, tokens), retention), s.items.owner)
  {
    Items.BatchBegunKeeps(s.items.reg, s.items.owner, s.items.pins, tokens, s.items.now);
    hide Items.BatchBegun, Items.Inv;
  }

  lemma ParentsLater(tasks: map<nat, Task>, was: map<Token, ItemId>, now: map<Token, ItemId>, made: set<Token>)
    requires ParentsOk(tasks, was) && now.Keys <= was.Keys + made && made !! Parents(tasks)
    requires forall x :: x in now && x in was ==> now[x] == was[x]
    ensures ParentsOk(tasks, now)
  {
    forall t, i | t in tasks && tasks[t].role.Steps? && 0 <= i < |tasks[t].role.entries|
      ensures tasks[t].role.entries[i].token !in made
    {
      assert tasks[t].role.entries[i].token in Parents(tasks);
    }
    hide Parents;
  }

  lemma ParentsKeep(s: State, a: Action, retention: nat)
    requires Can(s, a) && Items.Inv(s.items) && ParentsOk(s.tasks, s.items.owner)
    ensures ParentsOk(TasksAfter(s, a, retention), Stepped(s.items, ItemStep(s, a), retention).owner)
  {
    hide Items.Inv, ParentsOk, Stepped, ItemStep, TaskAfter, Put, Parents;
    var owner := Stepped(s.items, ItemStep(s, a), retention).owner;
    var made := if a.Answer? then a.made else {};
    OwnersAfter(s, a, retention);
    OwnersSame(s, a, retention);
    if AboutTask(a) {
      ParentsLater(s.tasks, s.items.owner, owner, made);
      TasksPut(s, a, retention);
      RoleStays(s, a);
      hide Can, TasksAfter;
      ParentsPut(s.tasks, a.t, TaskAfter(s.tasks[a.t], a, s.items.now), owner);
    } else if a.OpenBatch? {
      ParentsOpened(s, a.lanes, a.tokens, retention);
      hide Can, TasksAfter;
      ParentsLater(TasksAfter(s, a, retention), s.items.owner, owner, {});
    } else {
      OneMoreItem(s, a, retention);
      hide Can, TasksAfter;
      ParentsLater(TasksAfter(s, a, retention), s.items.owner, owner, {});
    }
  }

  lemma OneMoreItem(s: State, a: Action, retention: nat)
    requires Can(s, a) && !AboutTask(a) && !a.OpenBatch? && ParentsOk(s.tasks, s.items.owner)
    ensures ParentsOk(TasksAfter(s, a, retention), s.items.owner)
  {
    hide Items.Next;
  }

  // ---------------------------------------------------------------- runs

  lemma NextKeepsInv(s: State, a: Action, retention: nat)
    requires Inv(s)
    ensures Inv(Next(s, a, retention))
  {
    hide Can, TasksOk, BracketsOk, LeasesOk, FilesOk, AgesOk, MarksOk, NamesOk, ParentsOk, Items.Inv, TasksAfter,
         Stepped, ItemStep, ScratchAfter, LeftBy, MarksAfter, LostBy;
    if Can(s, a) {
      TasksKeep(s, a, retention);
      AgesKeep(s, a, retention);
      MarksKeep(s, a, retention);
      RetiredStay(s, a);
      ParentsKeep(s, a, retention);
      LeasesKeep(s, a, retention);
      Balance(s.taken, s.returned, multiset(s.busy), multiset(s.busy - AsSet(Given(s, a)) + AsSet(Got(a))),
              AsBag(Given(s, a)), AsBag(Got(a)));
      FilesKeep(s, a, retention);
      NamesKeep(s, a, retention);
      ItemsKeep(s, a, retention);
      if AboutTask(a) {
        BracketsKeep(s, a, retention);
      } else {
        BracketsOpened(s, a, retention);
      }
    }
  }

  lemma RetiredStay(s: State, a: Action)
    requires Can(s, a) && s.retired !! s.busy
    ensures s.retired + (if a.Returned? && a.raises then AsSet(Given(s, a)) else {})
        !! s.busy - AsSet(Given(s, a)) + AsSet(Got(a))
  {}

  lemma ItemsKeep(s: State, a: Action, retention: nat)
    requires Items.Inv(s.items)
    ensures Items.Inv(Stepped(s.items, ItemStep(s, a), retention))
  {
    hide Items.Inv, Items.Next;
    if ItemStep(s, a).Some? {
      Items.NextKeepsInv(s.items, ItemStep(s, a).value, retention);
    }
  }

  lemma InitialInv(owner: map<Token, ItemId>, orphans: map<FileName, int>, now: int, ttl: int)
    ensures Inv(Initial(owner, orphans, now, ttl))
  {
    Items.InitialInv(owner, now);
    hide Items.Inv;
  }

  lemma {:induction false} RunKeepsInv(s: State, actions: seq<Action>, retention: nat)
    requires Inv(s)
    ensures Inv(Run(s, actions, retention))
    decreases |actions|
  {
    hide Inv, Next;
    if actions == [] {
    } else {
      NextKeepsInv(s, actions[0], retention);
      RunKeepsInv(Next(s, actions[0], retention), actions[1..], retention);
    }
  }
}
