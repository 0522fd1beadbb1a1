/** What all runs of the resource protocol promise, and the runs on which a promise fails: no lease is lost, no scratch
    file is left behind but for exact reasons, no starting mark stays but for one reason. */
module ResourceRuns {
  import opened Wrappers
  import opened Lifecycle
  import opened StateFiles
  import opened ResourceProtocol
  import Items = ItemProtocol
  import Pool = WorkerPool

  // ---------------------------------------------------------------- what all runs promise

  /** The steps of the item protocol along a run. */
  ghost function Trace(s: State, actions: seq<Action>, retention: nat): seq<Items.Action>
    decreases |actions|
  {
    if actions == [] then []
    else
      (if Can(s, actions[0]) && ItemStep(s, actions[0]).Some? then [ItemStep(s, actions[0]).value] else [])
      + Trace(Next(s, actions[0], retention), actions[1..], retention)
  }

  /** Tasks, leases and files only watch the item protocol: every run is one of its runs, so all that holds for those
      holds here. */
  lemma {:induction false} RunsAreItemRuns(s: State, actions: seq<Action>, retention: nat)
    ensures Run(s, actions, retention).items == Items.Run(s.items, Trace(s, actions, retention), retention)
    decreases |actions|
  {
    hide Can, Items.Next, ItemStep;
    if actions == [] {
    } else {
      var s' := Next(s, actions[0], retention);
      var rest := Trace(s', actions[1..], retention);
      RunsAreItemRuns(s', actions[1..], retention);
      if Can(s, actions[0]) && ItemStep(s, actions[0]).Some? {
        var x := ItemStep(s, actions[0]).value;
        assert ([x] + rest)[1..] == rest && Trace(s, actions, retention) == [x] + rest;
      } else {
        assert [] + rest == rest;
      }
    }
  }

  /** A server that has just started. */
  ghost predicate Started(s: State) {
    s == Initial(s.items.owner, s.scratch, s.items.now, s.ttl)
  }

  lemma StartedInv(start: State, actions: seq<Action>, retention: nat)
    requires Started(start)
    ensures Inv(Run(start, actions, retention))
  {
    InitialInv(start.items.owner, start.scratch, start.items.now, start.ttl);
    hide Initial, Inv, Run;
    RunKeepsInv(start, actions, retention);
  }

  /** Conservation, over every interleaving: a lease is busy exactly while one task holds it, and leases taken are
      leases given back and busy ones; the untracked files are, disjointly, those one worker call owns and those left
      behind; the pool has one starting mark for every task that is starting a worker. */
  lemma Conservation(start: State, actions: seq<Action>, retention: nat)
    requires Started(start)
    ensures
      var s := Run(start, actions, retention);
      && s.taken == s.returned + multiset(s.busy)
      && LeasesOk(s.tasks, s.busy) && FilesOk(s.tasks, s.scratch.Keys, s.leaked) && MarksOk(s.tasks, s.marks)
      && (forall t :: t in s.tasks && s.tasks[t].files != [] ==> s.tasks[t].stage.Working? && s.tasks[t].lease.Some?)
  {
    StartedInv(start, actions, retention);
    hide Run, LeasesOk, FilesOk, MarksOk;
  }

  // ---------------------------------------------------------------- leases

  /** No bracket is open and no worker is on its way back. */
  ghost predicate Quiet(s: State) {
    s.items.brackets == map[] && forall t :: t in s.tasks ==> !s.tasks[t].stage.Returning? && !s.tasks[t].stage.Again?
  }

  /** A lane still holds a worker although its batch is closed. */
  ghost predicate Stray(s: State, t: nat) {
    t in s.tasks && s.tasks[t].role.Steps? && s.tasks[t].bracket in s.raised && s.tasks[t].lease.Some?
  }

  ghost predicate HoldsNothing(s: State) {
    s.busy == {} && s.taken == s.returned && s.scratch.Keys == s.leaked
  }

  /** When no bracket is open and no worker is on its way back, no lease is busy, all leases taken were given back and
      no untracked file is owned by anyone, exactly when no lane was left behind by a batch in which another lane
      raised; in particular when no lane ever raised, and then no worker is starting either. */
  lemma QuietHoldsNothing(start: State, actions: seq<Action>, retention: nat)
    requires Started(start) && Quiet(Run(start, actions, retention))
    ensures
      var s := Run(start, actions, retention);
      && (HoldsNothing(s) <==> !exists t :: Stray(s, t))
      && (s.raised == {} ==> HoldsNothing(s) && s.tasks == map[] && s.marks == multiset{})
  {
    StartedInv(start, actions, retention);
    var s := Run(start, actions, retention);
    hide Run, Items.Inv, NamesOk, ParentsOk, BracketsOk, LeasesOk, FilesOk, TasksOk, AgesOk, MarksOk, Quiet, Stray,
         HoldsNothing;
    LeftLanes(s);
    StrayHolds(s);
    if !exists t :: Stray(s, t) {
      NobodyHolds(s);
    }
    NobodyStarts(s.tasks, s.marks);
  }

  /** What is left when no bracket is open and nothing is returning: lanes of batches in which a lane raised. */
  lemma LeftLanes(s: State)
    requires Quiet(s) && BracketsOk(s.items.brackets, s.raised, s.tasks)
    ensures forall t :: t in s.tasks ==> s.tasks[t].bracket in s.raised
    ensures forall t :: t in s.tasks && s.tasks[t].lease.Some? ==> Stray(s, t)
    ensures s.raised == {} ==> s.tasks == map[]
  {
    forall t | t in s.tasks ensures s.tasks[t].role.Steps? && s.tasks[t].bracket in s.raised {
      assert BracketOk(s.items.brackets, s.raised, s.tasks[t]);
    }
  }

  lemma StrayHolds(s: State)
    requires LeasesOk(s.tasks, s.busy)
    ensures (exists t :: Stray(s, t)) ==> !HoldsNothing(s)
    ensures s.raised == {} ==> !exists t :: Stray(s, t)
  {
    if t :| Stray(s, t) {
      assert s.tasks[t].lease.value in s.busy;
    }
  }

  lemma NobodyHolds(s: State)
    requires LeasesOk(s.tasks, s.busy) && FilesOk(s.tasks, s.scratch.Keys, s.leaked) && TasksOk(s.tasks)
    requires s.taken == s.returned + multiset(s.busy)
    requires forall t :: t in s.tasks ==> s.tasks[t].lease.None?
    ensures HoldsNothing(s)
  {
    assert Held(s.tasks) == {};
    assert Owned(s.tasks) == {};
  }

  lemma NobodyStarts(tasks: map<nat, Task>, marks: multiset<string>)
    requires MarksOk(tasks, marks)
    ensures tasks == map[] ==> marks == multiset{}
  {
    if tasks == map[] {
      forall p ensures marks[p] == 0 {
        assert Starters(tasks, p) == {};
      }
    }
  }

  /** When no task is left, whatever happened: no lease is busy, every lease taken was given back once, the untracked
      files are those left behind, no starting mark but those lost, and no bracket is open but that of a batch about to
      close. */
  lemma NoTaskHoldsNothing(start: State, actions: seq<Action>, retention: nat)
    requires Started(start) && Run(start, actions, retention).tasks == map[]
    ensures
      var s := Run(start, actions, retention);
      && HoldsNothing(s) && s.marks == multiset{}
      && forall b :: b in s.items.brackets ==> s.items.brackets[b].Batch?
  {
    StartedInv(start, actions, retention);
    var s := Run(start, actions, retention);
    hide Run, Items.Inv, NamesOk, ParentsOk, AgesOk, MarksOk, HoldsNothing;
    NobodyHolds(s);
    NobodyStarts(s.tasks, s.marks);
  }

  // ---------------------------------------------------------------- starting marks

  /** Closing a worker to make room for another never raises. */
  ghost predicate ClosesNever(s: State, actions: seq<Action>, retention: nat)
    decreases |actions|
  {
    actions != [] ==>
      && !(Can(s, actions[0]) && actions[0].NoWorker? && actions[0].closing)
      && ClosesNever(Next(s, actions[0], retention), actions[1..], retention)
  }

  lemma {:induction false} LostRun(s: State, actions: seq<Action>, retention: nat)
    ensures s.lost <= Run(s, actions, retention).lost
    ensures Run(s, actions, retention).lost == s.lost <==> ClosesNever(s, actions, retention)
    decreases |actions|
  {
    if actions == [] {
    } else {
      var n := Next(s, actions[0], retention);
      LostStep(s, actions[0], retention);
      hide Next, Can;
      LostRun(n, actions[1..], retention);
    }
  }

  lemma LostStep(s: State, a: Action, retention: nat)
    ensures s.lost <= Next(s, a, retention).lost
    ensures Next(s, a, retention).lost == s.lost <==> !(Can(s, a) && a.NoWorker? && a.closing)
  {
    var n := Next(s, a, retention);
    if Can(s, a) && a.NoWorker? && a.closing {
      var p := s.tasks[a.t].stage.profile;
      assert n.lost[p] == s.lost[p] + 1;
    }
  }

  /** Every starting mark is taken back, over all runs, exactly when closing a worker to make room never raised: once no
      task is left, the marks still in the pool are those lost, and none is lost but by such a step. */
  lemma MarksComeBack(start: State, actions: seq<Action>, retention: nat)
    requires Started(start) && Run(start, actions, retention).tasks == map[]
    ensures
      var s := Run(start, actions, retention);
      s.marks + s.lost == multiset{} <==> ClosesNever(start, actions, retention)
  {
    NoTaskHoldsNothing(start, actions, retention);
    LostRun(start, actions, retention);
    hide Run, ClosesNever;
    assert multiset{} + Run(start, actions, retention).lost == Run(start, actions, retention).lost;
  }

  // ---------------------------------------------------------------- one item, from begin to end

  /** The step finishes the work of item task t. */
  ghost predicate Finishes(s: State, a: Action, t: nat) {
    Can(s, a) && Closes(a) && a.t == t && !s.tasks[t].role.Steps?
  }

  ghost function FinishCount(s: State, actions: seq<Action>, retention: nat, t: nat): nat
    decreases |actions|
  {
    if actions == [] then 0
    else Bit(Finishes(s, actions[0], t)) + FinishCount(Next(s, actions[0], retention), actions[1..], retention, t)
  }

  /** How many workers task t is given. */
  ghost function LeaseCount(s: State, actions: seq<Action>, retention: nat, t: nat): nat
    decreases |actions|
  {
    if actions == [] then 0
    else
      Bit(Can(s, actions[0]) && actions[0].Lease? && actions[0].t == t)
      + LeaseCount(Next(s, actions[0], retention), actions[1..], retention, t)
  }

  /** How many workers task t gives back. */
  ghost function ReturnCount(s: State, actions: seq<Action>, retention: nat, t: nat): nat
    decreases |actions|
  {
    if actions == [] then 0
    else
      Bit(Can(s, actions[0]) && actions[0].Returned? && actions[0].t == t)
      + ReturnCount(Next(s, actions[0], retention), actions[1..], retention, t)
  }

  /** The number of a task is not given out again. */
  predicate NotReused(actions: seq<Action>, t: nat) {
    forall k :: 0 <= k < |actions| ==>
      !(actions[k].OpenOne? && actions[k].t == t) && !(actions[k].OpenBatch? && t in actions[k].lanes)
  }

  predicate ItemTask(tasks: map<nat, Task>, t: nat) {
    t in tasks ==> !tasks[t].role.Steps?
  }

  lemma NextTasks(s: State, a: Action, retention: nat)
    ensures Next(s, a, retention).tasks == if Can(s, a) then TasksAfter(s, a, retention) else s.tasks
  {}

  /** A step about something else leaves a task alone. */
  lemma Untouched(s: State, a: Action, retention: nat, t: nat)
    requires NotReused([a], t) && (Can(s, a) ==> !(AboutTask(a) && a.t == t))
    ensures Was(Next(s, a, retention).tasks, t) == Was(s.tasks, t)
  {
    hide Next, Can, TasksAfter, TaskAfter, NotReused;
    NextTasks(s, a, retention);
    if Can(s, a) {
      if AboutTask(a) {
        TasksPut(s, a, retention);
      } else {
        NotOpened(s, a, retention, t);
      }
    }
  }

  lemma NotOpened(s: State, a: Action, retention: nat, t: nat)
    requires Can(s, a) && !AboutTask(a) && NotReused([a], t)
    ensures Was(TasksAfter(s, a, retention), t) == Was(s.tasks, t)
  {
    assert [a][0] == a;
    hide Can, Items.Next, Items.BatchBegun;
  }

  /** How a step counts for task t, which is x before and y afterwards. */
  ghost predicate Counted(s: State, a: Action, t: nat, x: Option<Task>, y: Option<Task>) {
    && (y.Some? ==> !y.value.role.Steps?)
    && Bit(Finishes(s, a, t)) + Bit(y.Some? && Unfinished(y.value)) == Bit(x.Some? && Unfinished(x.value))
    && Bit(Can(s, a) && a.Lease? && a.t == t) + Bit(x.Some? && x.value.lease.Some?)
         == Bit(Can(s, a) && a.Returned? && a.t == t) + Bit(y.Some? && y.value.lease.Some?)
    && Bit(Can(s, a) && a.Lease? && a.t == t) + Bit(y.Some? && InGetWorker(y.value.stage))
         <= Bit(x.Some? && InGetWorker(x.value.stage))
  }

  lemma Touched(s: State, a: Action, t: nat)
    requires Can(s, a) && AboutTask(a) && a.t == t && TaskOk(s.tasks[t]) && !s.tasks[t].role.Steps?
    ensures Counted(s, a, t, Was(s.tasks, t), TaskAfter(s.tasks[t], a, s.items.now))
  {
    LeaseCases(s, a);
    hide IsCancelled, ParentGone, FreshTokens, FreshName;
  }

  /** One step: an unfinished task is finished by the step that ends it, a lease is held from the step that takes it to
      the one that gives it back, and there is no second one. */
  lemma TaskStep(s: State, a: Action, retention: nat, t: nat)
    requires TasksOk(s.tasks) && ItemTask(s.tasks, t) && NotReused([a], t)
    ensures Counted(s, a, t, Was(s.tasks, t), Was(Next(s, a, retention).tasks, t))
  {
    hide Next, TasksAfter, TaskAfter, Counted, Can, TasksOk, NotReused;
    if Can(s, a) && AboutTask(a) && a.t == t {
      TasksPut(s, a, retention);
      TaskIsOk(s.tasks, t);
      Touched(s, a, t);
      NextTasks(s, a, retention);
    } else {
      Untouched(s, a, retention, t);
      NotTouched(s, a, t, Was(s.tasks, t));
    }
  }

  lemma TaskIsOk(tasks: map<nat, Task>, t: nat)
    requires TasksOk(tasks) && t in tasks
    ensures TaskOk(tasks[t])
  {}

  lemma NotTouched(s: State, a: Action, t: nat, x: Option<Task>)
    requires !(Can(s, a) && AboutTask(a) && a.t == t) && (x.Some? ==> !x.value.role.Steps?)
    ensures Counted(s, a, t, x, x)
  {
    hide Can;
  }

  lemma {:induction false} TaskRun(s: State, actions: seq<Action>, retention: nat, t: nat)
    requires Inv(s) && ItemTask(s.tasks, t) && NotReused(actions, t)
    ensures
      var x, y := Was(s.tasks, t), Was(Run(s, actions, retention).tasks, t);
      && FinishCount(s, actions, retention, t) + Bit(y.Some? && Unfinished(y.value))
          == Bit(x.Some? && Unfinished(x.value))
      && LeaseCount(s, actions, retention, t) + Bit(x.Some? && x.value.lease.Some?)
           == ReturnCount(s, actions, retention, t) + Bit(y.Some? && y.value.lease.Some?)
      && LeaseCount(s, actions, retention, t) <= Bit(x.Some? && InGetWorker(x.value.stage))
    decreases |actions|
  {
    if actions == [] {
    } else {
      assert NotReused([actions[0]], t) && NotReused(actions[1..], t);
      NextKeepsInv(s, actions[0], retention);
      TaskStep(s, actions[0], retention, t);
      hide Inv, Next, NotReused, Finishes, Can;
      TaskRun(Next(s, actions[0], retention), actions[1..], retention, t);
    }
  }

  lemma Opened(s: State, t: nat, item: ItemId, creates: bool, retention: nat)
    requires t !in s.tasks && t in Next(s, OpenOne(t, item, creates), retention).tasks
    ensures
      var x := Next(s, OpenOne(t, item, creates), retention).tasks[t];
      !x.role.Steps? && x.stage == Leasing && x.lease == None
  {
    NextTasks(s, OpenOne(t, item, creates), retention);
    hide Next;
  }

  /** create_one and verify_one, whatever runs in between and whichever way they end: the item's work is finished
      exactly once, and a worker that was leased is given back exactly once, at most one in all. */
  lemma ItemLifetime(start: State, before: seq<Action>, after: seq<Action>, retention: nat, t: nat, item: ItemId,
                     creates: bool)
    requires Started(start)
    requires
      var s := Run(start, before, retention);
      var s' := Next(s, OpenOne(t, item, creates), retention);
      && t !in s.tasks && t in s'.tasks && NotReused(after, t)
      && t !in Run(s', after, retention).tasks
    ensures
      var s' := Next(Run(start, before, retention), OpenOne(t, item, creates), retention);
      && FinishCount(s', after, retention, t) == 1
      && ReturnCount(s', after, retention, t) == LeaseCount(s', after, retention, t) <= 1
  {
    hide Inv, Next, Run, NotReused, Started, FinishCount, LeaseCount, ReturnCount;
    StartedInv(start, before, retention);
    var s := Run(start, before, retention);
    NextKeepsInv(s, OpenOne(t, item, creates), retention);
    Opened(s, t, item, creates, retention);
    TaskRun(Next(s, OpenOne(t, item, creates), retention), after, retention, t);
  }

  // ---------------------------------------------------------------- files: what the orphan sweep takes

  /** A sweep takes a file of a running call exactly when the file is there and older than the cutoff; and then the call
      has been running for longer than that. */
  lemma SweepTakes(s: State, t: nat, f: FileName, retention: nat)
    requires Inv(s) && t in s.tasks && f in s.tasks[t].files
    ensures
      var n := Next(s, SweepOrphans, retention);
      var taken := f in s.scratch && f !in n.scratch;
      && (taken <==> f in s.scratch && s.scratch[f] < s.items.now - s.ttl)
      && (taken ==> s.tasks[t].stage.Working? && s.items.now - s.tasks[t].since > s.ttl)
  {
    assert TaskOk(s.tasks[t]);
    OtherParts(s, SweepOrphans, retention);
    hide Items.Inv, BracketsOk, LeasesOk, FilesOk, NamesOk, ParentsOk, MarksOk, Next;
  }

  /** No worker call has been running for longer than the sweep spares a file. */
  ghost predicate CallsShort(s: State) {
    forall t :: t in s.tasks && s.tasks[t].stage.Working? ==> s.items.now - s.tasks[t].since <= s.ttl
  }

  /** Then a sweep takes no file of a running call. */
  lemma ShortCallsAreSafe(s: State)
    requires CallsShort(s) && TasksOk(s.tasks) && AgesOk(s.tasks, s.scratch, s.items.now)
    ensures Outdated(s) !! Owned(s.tasks)
  {
    forall f | f in Outdated(s) ensures f !in Owned(s.tasks) {
      if t :| t in s.tasks && f in s.tasks[t].files {
        assert TaskOk(s.tasks[t]);
      }
    }
  }

  // ---------------------------------------------------------------- files: which step leaves one behind

  /** A step leaves file f behind, although it is there: its call raises; or its results are promoted, not discarded,
      and the parent is gone, or a file allocated before f is. */
  ghost predicate Leaves(s: State, a: Action, f: FileName) {
    && Can(s, a) && f in s.scratch
    && match a
       case Raise(t, _) => f in s.tasks[t].files
       case Answer(t, _, _) =>
         && f in s.tasks[t].files && !IsCancelled(s, s.tasks[t])
         && (ParentGone(s, s.tasks[t]) || AfterGone(s.tasks[t].files, s.scratch.Keys, f))
       case _ => false
  }

  /** A file before f is gone. */
  predicate AfterGone(files: seq<FileName>, there: set<FileName>, f: FileName) {
    exists i, j :: 0 <= i < j < |files| && files[i] !in there && files[j] == f
  }

  lemma NotReached(files: seq<FileName>, there: set<FileName>, f: FileName)
    requires Distinct(files) && f in files && f in there
    ensures f !in Names(files[..Reach(files, there)]) <==> AfterGone(files, there, f)
  {
    var r := Reach(files, there);
    var j :| 0 <= j < |files| && files[j] == f;
    if f in files[..r] {
      var k :| 0 <= k < r && files[k] == f;
      assert j == k;
    } else {
      assert j >= r && j != r;
      assert files[r] !in there && files[j] == f;
    }
  }

  /** That is exactly what is left. */
  lemma LeftExactly(s: State, a: Action, f: FileName)
    requires Can(s, a) && TasksOk(s.tasks)
    ensures f in LeftBy(s, a) <==> Leaves(s, a, f)
  {
    if a.Answer? && f in s.scratch && f in s.tasks[a.t].files {
      assert TaskOk(s.tasks[a.t]);
      NotReached(s.tasks[a.t].files, s.scratch.Keys, f);
    }
    hide IsCancelled, ParentGone, FreshTokens, FreshName, Reach, AfterGone, TaskOk;
  }

  // ---------------------------------------------------------------- files: exactly what is left after a run

  lemma ClockIs(s: State, a: Action, retention: nat)
    ensures Next(s, a, retention).items.now == Later(s.items.now, a) && Next(s, a, retention).ttl == s.ttl
  {
    ClockGoesOn(s, a, retention);
    hide Stepped, ItemStep, TasksAfter, ScratchAfter, LeftBy, MarksAfter, LostBy, RaisedAfter, FreshTokens, FreshName;
  }

  /** No sweep of a run finds a file too old that was last written at `mtime`: a matter of the clock alone. */
  predicate Spared(actions: seq<Action>, mtime: int, now: int, ttl: int)
    decreases |actions|
  {
    actions != [] ==>
      && (actions[0].SweepOrphans? ==> mtime >= now - ttl)
      && Spared(actions[1..], mtime, Later(now, actions[0]), ttl)
  }

  /** Some step of a run leaves f behind, and no later sweep finds it too old. */
  ghost predicate LeftAndSpared(s: State, actions: seq<Action>, f: FileName, retention: nat)
    decreases |actions|
  {
    actions != [] &&
    (|| (Leaves(s, actions[0], f) && Spared(actions[1..], s.scratch[f], Later(s.items.now, actions[0]), s.ttl))
     || LeftAndSpared(Next(s, actions[0], retention), actions[1..], f, retention))
  }

  /** A step of a task leaves alone the files it does not own. */
  lemma OthersFiles(s: State, a: Action, f: FileName)
    requires Can(s, a) && AboutTask(a) && f in s.scratch && f !in s.tasks[a.t].files
    ensures f in ScratchAfter(s, a) && ScratchAfter(s, a)[f] == s.scratch[f] && !Leaves(s, a, f)
  {
    MovedOwn(s, s.tasks[a.t]);
    hide Owned, IsCancelled, ParentGone, FreshTokens, Moved, AfterGone, LeftBy;
  }

  lemma TaskThere(s: State, a: Action)
    requires Can(s, a) && AboutTask(a)
    ensures a.t in s.tasks
  {}

  lemma OnlySweeps(s: State, a: Action, f: FileName)
    requires !AboutTask(a)
    ensures ScratchAfter(s, a) == (if a.SweepOrphans? then s.scratch - Outdated(s) else s.scratch) && !Leaves(s, a, f)
  {
    hide Can, Outdated;
  }

  lemma NotPossible(s: State, a: Action, f: FileName)
    requires !Can(s, a)
    ensures !Leaves(s, a, f) && !a.SweepOrphans?
  {}

  /** One step, for a file nobody owns any more: it stays as it is, unless a sweep finds it too old. */
  lemma LeakedStep(s: State, a: Action, f: FileName, retention: nat)
    requires FilesOk(s.tasks, s.scratch.Keys, s.leaked) && TasksOk(s.tasks) && f in s.leaked
    ensures
      var n := Next(s, a, retention);
      && (f in n.leaked <==> !(a.SweepOrphans? && s.scratch[f] < s.items.now - s.ttl))
      && (f in n.leaked ==> f in n.scratch && n.scratch[f] == s.scratch[f])
      && !Leaves(s, a, f)
  {
    assert f !in Owned(s.tasks);
    assert forall t :: t in s.tasks ==> f !in s.tasks[t].files;
    hide Next, Owned, TasksOk, FilesOk, Can, LeftBy, Leaves, ScratchAfter;
    FileParts(s, a, retention);
    if Can(s, a) {
      LeftExactly(s, a, f);
      if AboutTask(a) {
        TaskThere(s, a);
        OthersFiles(s, a, f);
      } else {
        OnlySweeps(s, a, f);
      }
    } else {
      NotPossible(s, a, f);
    }
  }

  /** One step, for any other file: it is left behind exactly by the steps that leave it. */
  lemma OtherStep(s: State, a: Action, f: FileName, retention: nat)
    requires TasksOk(s.tasks) && f !in s.leaked
    ensures
      var n := Next(s, a, retention);
      && (f in n.leaked <==> Leaves(s, a, f))
      && (f in n.leaked ==> f in n.scratch && n.scratch[f] == s.scratch[f])
  {
    FileParts(s, a, retention);
    if Can(s, a) {
      LeftExactly(s, a, f);
    }
    hide Next, Owned, IsCancelled, ParentGone, FreshTokens, FreshName, Reach, TaskOk;
  }

  lemma {:induction false} LeakedRun(s: State, actions: seq<Action>, f: FileName, retention: nat)
    requires Inv(s)
    ensures f in Run(s, actions, retention).leaked <==>
      (f in s.leaked && Spared(actions, s.scratch[f], s.items.now, s.ttl)) || LeftAndSpared(s, actions, f, retention)
    decreases |actions|
  {
    if actions == [] {
    } else {
      var n := Next(s, actions[0], retention);
      NextKeepsInv(s, actions[0], retention);
      ClockIs(s, actions[0], retention);
      if f in s.leaked {
        LeakedStep(s, actions[0], f, retention);
      } else {
        OtherStep(s, actions[0], f, retention);
      }
      hide Inv, Next, Leaves, FilesOk, TasksOk;
      LeakedRun(n, actions[1..], f, retention);
    }
  }

  /** Exactly which files are left once no task is, over all runs, with sweeps at any time: those that were there at the
      start, and those some step left behind, as far as no sweep found them too old. */
  lemma CleanIff(start: State, actions: seq<Action>, retention: nat, f: FileName)
    requires Started(start) && Run(start, actions, retention).tasks == map[]
    ensures f in Run(start, actions, retention).scratch <==>
      || (f in start.scratch && Spared(actions, start.scratch[f], start.items.now, start.ttl))
      || LeftAndSpared(start, actions, f, retention)
  {
    NoTaskHoldsNothing(start, actions, retention);
    StartedInv(start, [], retention);
    assert start.leaked == start.scratch.Keys;
    hide Run, LeftAndSpared, Spared, Inv, Started;
    LeakedRun(start, actions, f, retention);
  }

  // ---------------------------------------------------------------- files: when nothing goes wrong

  /** Nothing goes wrong in a step: no worker call that has written files raises, no lane ends by raising, and no worker
      call has been running for longer than the sweep spares a file when there is a sweep. */
  ghost predicate Careful(s: State, a: Action) {
    && (a.Raise? ==> FilesAt(s.tasks, a.t) == {})
    && !(AboutTask(a) && LaneRaises(s, a))
    && (a.SweepOrphans? ==> CallsShort(s))
  }

  ghost predicate CarefulRun(s: State, actions: seq<Action>, retention: nat)
    decreases |actions|
  {
    actions == [] || (Careful(s, actions[0]) && CarefulRun(Next(s, actions[0], retention), actions[1..], retention))
  }

  /** An open batch keeps the states its lanes step from. */
  lemma ParentStays(s: State, t: nat)
    requires Items.Inv(s.items) && t in s.tasks && s.raised == {} && BracketsOk(s.items.brackets, s.raised, s.tasks)
    ensures !ParentGone(s, s.tasks[t])
  {
    assert BracketOk(s.items.brackets, s.raised, s.tasks[t]);
  }

  lemma AllReached(files: seq<FileName>, there: set<FileName>)
    requires Names(files) <= there
    ensures Reach(files, there) == |files| && files[..|files|] == files
  {
    var r := Reach(files, there);
    assert forall i :: 0 <= i < |files| ==> files[i] in Names(files);
  }

  /** What a careful step about a task does to the files. */
  lemma CarefulCases(s: State, a: Action)
    requires Can(s, a) && AboutTask(a) && Careful(s, a) && TaskOk(s.tasks[a.t])
    requires FilesAt(s.tasks, a.t) <= s.scratch.Keys && !ParentGone(s, s.tasks[a.t])
    ensures
      var now := FilesOf(TaskAfter(s.tasks[a.t], a, s.items.now));
      && LeftBy(s, a) == {} && now <= ScratchAfter(s, a).Keys
      && forall f :: f in s.scratch && f !in FilesAt(s.tasks, a.t) ==> f in ScratchAfter(s, a)
  {
    AllReached(s.tasks[a.t].files, s.scratch.Keys);
    hide Owned, IsCancelled, ParentGone, FreshTokens, FreshName, Reach;
  }

  lemma CarefulTask(s: State, a: Action, retention: nat)
    requires Can(s, a) && AboutTask(a) && Inv(s) && s.raised == {} && Owned(s.tasks) <= s.scratch.Keys && Careful(s, a)
    ensures Owned(TasksAfter(s, a, retention)) <= ScratchAfter(s, a).Keys && LeftBy(s, a) == {}
  {
    ParentStays(s, a.t);
    TasksPut(s, a, retention);
    OwnedPut(s.tasks, a.t, TaskAfter(s.tasks[a.t], a, s.items.now));
    assert FilesAt(s.tasks, a.t) <= Owned(s.tasks);
    hide Owned, TasksAfter, TaskAfter, Put, ParentGone, Can, ScratchAfter, LeftBy, LeasesOk, FilesOk, BracketsOk,
         Careful, FilesAt, FilesOf, AgesOk, MarksOk;
    CarefulCases(s, a);
  }

  lemma CarefulStep(s: State, a: Action, retention: nat)
    requires Inv(s) && s.raised == {} && Owned(s.tasks) <= s.scratch.Keys && Careful(s, a)
    ensures var n := Next(s, a, retention);
      n.raised == {} && Owned(n.tasks) <= n.scratch.Keys && n.leaked <= s.leaked
  {
    hide TasksOk, Items.Inv, Stepped, ItemStep, NamesOk, ParentsOk, BracketsOk, LeasesOk, FilesOk, TasksAfter, Owned,
         AgesOk, MarksOk, MarksAfter, LostBy, CallsShort;
    if Can(s, a) && AboutTask(a) {
      CarefulTask(s, a, retention);
      hide Can, ScratchAfter;
    } else if Can(s, a) {
      NewTasks(s, a, retention);
      if a.SweepOrphans? {
        ShortCallsAreSafe(s);
      }
      hide Can;
    }
  }

  lemma {:induction false} CarefulRuns(s: State, actions: seq<Action>, retention: nat)
    requires Inv(s) && s.raised == {} && Owned(s.tasks) <= s.scratch.Keys && CarefulRun(s, actions, retention)
    ensures var n := Run(s, actions, retention); n.raised == {} && n.leaked <= s.leaked
    decreases |actions|
  {
    hide Inv, Next, Owned, Careful;
    if actions == [] {
    } else {
      NextKeepsInv(s, actions[0], retention);
      CarefulStep(s, actions[0], retention);
      CarefulRuns(Next(s, actions[0], retention), actions[1..], retention);
    }
  }

  /** Every scratch file is promoted, discarded or unlinked, and every lease goes back once: after a run in which
      nothing goes wrong, with no bracket open and no worker on its way back, no lease is busy and no untracked file is
      there that was not there at the start. */
  lemma NothingRemains(start: State, actions: seq<Action>, retention: nat)
    requires Started(start) && CarefulRun(start, actions, retention) && Quiet(Run(start, actions, retention))
    ensures
      var s := Run(start, actions, retention);
      s.busy == {} && s.taken == s.returned && s.scratch.Keys <= start.scratch.Keys
  {
    StartedInv(start, [], retention);
    assert Owned(map[]) == {};
    CarefulRuns(start, actions, retention);
    QuietHoldsNothing(start, actions, retention);
    hide Run, CarefulRun, Inv;
  }

  // ---------------------------------------------------------------- two runs on which the promise fails

  /** A step of one task that is none of the item protocol. */
  lemma Moves(s: State, a: Action, retention: nat)
    requires AboutTask(a) && Can(s, a) && ItemStep(s, a).None?
    ensures var n := Next(s, a, retention);
      && n.items == s.items && n.tasks == Put(s.tasks, a.t, TaskAfter(s.tasks[a.t], a, s.items.now))
      && n.scratch == ScratchAfter(s, a) && n.busy == s.busy - AsSet(Given(s, a)) + AsSet(Got(a))
      && n.raised == RaisedAfter(s, a) && n.ttl == s.ttl
      && (!a.Returned? ==> n.retired == s.retired)
  {
    Parts(s, a, retention);
    hide Can, Next, TaskAfter, ScratchAfter, RaisedAfter, Put;
  }

  /** Two lanes stepping from the same state. */
  lemma TwoLanes(p: Token, item: ItemId, ttl: int, retention: nat) returns (entries: seq<Items.Entry>)
    ensures
      var n := Next(Initial(map[p := item], map[], 0, ttl), OpenBatch({0, 1}, [p, p]), retention);
      var lane := NewTask(0, Steps(entries), Ready);
      && n.tasks == map[0 := lane, 1 := lane] && n.busy == {} && n.retired == {}
      && n.items.brackets == map[0 := Items.Batch(entries)]
  {
    hide Items.BatchBegun;
    entries := Items.BatchBegun(map[], map[p := item], map[], [p, p], 0).2;
  }

  lemma BatchGone(s: State, b: nat, retention: nat)
    requires b in s.items.brackets && s.items.brackets[b].Batch? && b in s.raised
    ensures var n := Next(s, CloseBatch(b), retention);
      n.tasks == s.tasks && n.busy == s.busy && n.items.brackets == s.items.brackets - {b}
  {
    BatchBracketLess(s, b, retention);
  }

  /** Two lanes of one batch, stepping from the same state: one gets a worker, the other's get_worker raises, and the
      batch closes while the first lane still holds its worker. */
  lemma StrayLane(p: Token, item: ItemId, l: Pool.Lease, profile: string, ttl: int, retention: nat)
    returns (actions: seq<Action>)
    ensures var s := Run(Initial(map[p := item], map[], 0, ttl), actions, retention); Quiet(s) && s.busy == {l}
  {
    hide Next, Run, Can;
    var s0 := Initial(map[p := item], map[], 0, ttl);
    var all := [OpenBatch({0, 1}, [p, p]), Seek(0), Lease(0, l), Seek(1), Start(1, profile, false), NoWorker(1, false),
                CloseBatch(0)];
    var entries := TwoLanes(p, item, ttl, retention);
    var s1 := Next(s0, all[0], retention);
    var s2 := Next(s1, all[1], retention);
    Seeks(s1, 0, retention);
    var s3 := Next(s2, all[2], retention);
    Leases(s2, 0, l, retention);
    var s4 := Next(s3, all[3], retention);
    Seeks(s3, 1, retention);
    var s5 := Next(s4, all[4], retention);
    Starts(s4, 1, profile, retention);
    var s6 := Next(s5, all[5], retention);
    StartRaises(s5, 1, retention);
    var s7 := Next(s6, all[6], retention);
    BatchGone(s6, 0, retention);
    Along(s0, all, [s0, s1, s2, s3, s4, s5, s6, s7], retention);
    actions := all;
  }

  lemma Seeks(s: State, t: nat, retention: nat)
    requires t in s.tasks && s.tasks[t].role.Steps? && s.tasks[t].stage.Ready? && s.tasks[t].lease.None?
    ensures var n := Next(s, Seek(t), retention);
      && n.items == s.items && n.tasks == s.tasks[t := s.tasks[t].(stage := Leasing)] && n.busy == s.busy
      && n.retired == s.retired
  {
    Moves(s, Seek(t), retention);
    hide Next;
  }

  lemma Starts(s: State, t: nat, profile: string, retention: nat)
    requires t in s.tasks && s.tasks[t].stage.Leasing?
    ensures var n := Next(s, Start(t, profile, false), retention);
      n.items == s.items && n.tasks == s.tasks[t := s.tasks[t].(stage := Starting(profile, false))] && n.busy == s.busy
  {
    Moves(s, Start(t, profile, false), retention);
    hide Next;
  }

  lemma Leases(s: State, t: nat, l: Pool.Lease, retention: nat)
    requires t in s.tasks && InGetWorker(s.tasks[t].stage) && l !in s.busy && l !in s.retired
    ensures var n := Next(s, Lease(t, l), retention);
      && n.items == s.items && n.tasks == s.tasks[t := s.tasks[t].(stage := Ready, lease := Some(l))]
      && n.scratch == s.scratch && n.busy == s.busy + {l} && n.retired == s.retired && n.ttl == s.ttl
  {
    Moves(s, Lease(t, l), retention);
    hide Next;
    assert s.busy - {} == s.busy;
  }

  lemma StartRaises(s: State, t: nat, retention: nat)
    requires t in s.tasks && s.tasks[t].role.Steps? && s.tasks[t].stage.Starting?
    ensures var n := Next(s, NoWorker(t, false), retention);
      && n.items == s.items && n.tasks == s.tasks - {t} && n.busy == s.busy
      && n.raised == s.raised + {s.tasks[t].bracket}
  {
    Moves(s, NoWorker(t, false), retention);
    hide Next;
  }

  lemma {:induction false} Along(s: State, actions: seq<Action>, states: seq<State>, retention: nat)
    requires |states| == |actions| + 1 && states[0] == s
    requires forall k :: 0 <= k < |actions| ==> states[k + 1] == Next(states[k], actions[k], retention)
    ensures Run(s, actions, retention) == states[|actions|]
    decreases |actions|
  {
    hide Next;
    if actions == [] {
    } else {
      Along(states[1], actions[1..], states[1..], retention);
    }
  }

  /** An item that has just begun. */
  lemma FirstItem(item: ItemId, ttl: int, retention: nat)
    ensures var n := Next(Initial(map[], map[], 0, ttl), OpenOne(0, item, true), retention);
      && n.tasks == map[0 := NewTask(0, Creates(item), Leasing)] && n.scratch == map[] && n.busy == {}
      && n.items.brackets == map[0 := Items.One(item, true)] && n.items.owner == map[] && n.items.now == 0
      && n.retired == {} && n.ttl == ttl && !ShouldCancel(n.items.reg, item)
  {}

  lemma Calls(s: State, t: nat, retention: nat)
    requires t in s.tasks && s.tasks[t].stage.Ready? && s.tasks[t].lease.Some? && s.tasks[t].role.Creates?
    ensures var x := Next(s, Call(t, 0), retention);
      && x.items == s.items && x.tasks == s.tasks[t := s.tasks[t].(stage := Working(0), since := s.items.now)]
      && x.scratch == s.scratch && x.ttl == s.ttl
  {
    hide Owned, Held;
    Moves(s, Call(t, 0), retention);
    hide Next;
  }

  lemma Allocates(s: State, t: nat, n: FileName, retention: nat)
    requires t in s.tasks && s.tasks == map[t := s.tasks[t]] && s.tasks[t].stage.Working? && s.tasks[t].role.Creates?
    requires s.items.owner == map[] && n !in s.tasks[t].files && n !in s.scratch
    ensures var x := Next(s, Allocate(t, n), retention);
      && x.items == s.items && x.tasks == map[t := s.tasks[t].(files := s.tasks[t].files + [n])]
      && x.scratch == s.scratch[n := s.items.now] && x.ttl == s.ttl
  {
    assert Owned(s.tasks) == Names(s.tasks[t].files);
    assert Can(s, Allocate(t, n));
    Moves(s, Allocate(t, n), retention);
    hide Next;
  }

  lemma Passes(s: State, time: nat, retention: nat)
    ensures var x := Next(s, World(Items.Tick(time)), retention);
      && x.items == s.items.(now := s.items.now + time) && x.tasks == s.tasks && x.scratch == s.scratch
      && x.ttl == s.ttl
  {
    OtherParts(s, World(Items.Tick(time)), retention);
    hide Next;
  }

  lemma Sweeps(s: State, retention: nat)
    ensures var x := Next(s, SweepOrphans, retention);
      x.items == s.items && x.tasks == s.tasks && x.scratch == s.scratch - Outdated(s)
  {
    OtherParts(s, SweepOrphans, retention);
    hide Next;
  }

  /** A created item that is answered with none of its files, because the first is gone. */
  lemma AnswersNothing(s: State, t: nat, retention: nat)
    requires t in s.tasks && s.tasks == map[t := s.tasks[t]] && s.tasks[t].stage.Working? && s.tasks[t].role.Creates?
    requires !ShouldCancel(s.items.reg, s.tasks[t].role.item)
    requires s.tasks[t].files != [] && s.tasks[t].files[0] !in s.scratch && TaskOk(s.tasks[t])
    requires s.items.brackets == map[s.tasks[t].bracket := Items.One(s.tasks[t].role.item, true)]
    ensures var x := Next(s, Answer(t, true, {}), retention);
      && x.tasks == map[t := s.tasks[t].(stage := Returning(true), files := [])] && x.scratch == s.scratch
      && x.items.brackets == map[]
  {
    hide Next, Can, Stepped, ItemStep, TaskOk, FreshTokens, ScratchAfter, TaskAfter;
    AnswersAt(s, t);
    Parts(s, Answer(t, true, {}), retention);
    assert BracketOk(s.items.brackets, s.raised, s.tasks[t]);
    ClosedBracket(s, Answer(t, true, {}), retention);
  }

  lemma AnswersAt(s: State, t: nat)
    requires t in s.tasks && s.tasks[t].stage.Working? && s.tasks[t].role.Creates?
    requires !ShouldCancel(s.items.reg, s.tasks[t].role.item)
    requires s.tasks[t].files != [] && s.tasks[t].files[0] !in s.scratch
    ensures
      var a := Answer(t, true, {});
      && Can(s, a) && ScratchAfter(s, a) == s.scratch
      && TaskAfter(s.tasks[t], a, s.items.now) == Some(s.tasks[t].(stage := Returning(true), files := []))
  {
    assert Moved(s, s.tasks[t]) == {};
    assert s.scratch - {} == s.scratch;
    hide Owned, Parents;
  }

  lemma Returns(s: State, t: nat, retention: nat)
    requires t in s.tasks && s.tasks[t].stage.Returning? && s.tasks[t].role.Creates?
    ensures var x := Next(s, Returned(t, false), retention);
      x.items == s.items && x.tasks == s.tasks - {t} && x.scratch == s.scratch
  {
    Moves(s, Returned(t, false), retention);
    hide Next;
  }

  /** A created item with two states: Lean takes longer than the sweep spares a file, the sweep takes the first file
      while the worker is still busy with the second, promotion fails at the first, and the second stays behind. */
  lemma SweptWhileWorking(item: ItemId, f: FileName, g: FileName, l: Pool.Lease, ttl: nat, retention: nat)
    returns (actions: seq<Action>)
    requires f != g && ttl > 0
    ensures var s := Run(Initial(map[], map[], 0, ttl), actions, retention);
      s.tasks == map[] && s.items.brackets == map[] && s.scratch == map[g := ttl]
  {
    hide Next, Run, Can;
    var s0 := Initial(map[], map[], 0, ttl);
    FirstItem(item, ttl, retention);
    var s1 := Next(s0, OpenOne(0, item, true), retention);
    Leases(s1, 0, l, retention);
    var s2 := Next(s1, Lease(0, l), retention);
    Calls(s2, 0, retention);
    var s3 := Next(s2, Call(0, 0), retention);
    Allocates(s3, 0, f, retention);
    var s4 := Next(s3, Allocate(0, f), retention);
    Passes(s4, ttl, retention);
    var s5 := Next(s4, World(Items.Tick(ttl)), retention);
    Allocates(s5, 0, g, retention);
    var s6 := Next(s5, Allocate(0, g), retention);
    Passes(s6, 1, retention);
    var s7 := Next(s6, World(Items.Tick(1)), retention);
    assert s7.tasks[0].files == [f, g] && s7.scratch == map[f := 0, g := ttl];
    var s8, s9, s10 := SweptAndAnswered(s7, f, g, retention);
    actions := [OpenOne(0, item, true), Lease(0, l), Call(0, 0), Allocate(0, f), World(Items.Tick(ttl)), Allocate(0, g),
                World(Items.Tick(1)), SweepOrphans, Answer(0, true, {}), Returned(0, false)];
    Along(s0, actions, [s0, s1, s2, s3, s4, s5, s6, s7, s8, s9, s10], retention);
  }

  /** The sweep finds the first file of a call too old, but not the second. */
  lemma SweptAndAnswered(s: State, f: FileName, g: FileName, retention: nat)
    returns (swept: State, answered: State, over: State)
    requires s.tasks.Keys == {0} && s.tasks[0].stage.Working? && s.tasks[0].role.Creates? && s.tasks[0].files == [f, g]
    requires s.items.brackets == map[s.tasks[0].bracket := Items.One(s.tasks[0].role.item, true)]
    requires !ShouldCancel(s.items.reg, s.tasks[0].role.item) && f != g && s.tasks[0].lease.Some?
    requires s.scratch.Keys == {f, g} && s.scratch[f] < s.items.now - s.ttl <= s.scratch[g]
    ensures swept == Next(s, SweepOrphans, retention) && answered == Next(swept, Answer(0, true, {}), retention)
    ensures over == Next(answered, Returned(0, false), retention)
    ensures over.tasks == map[] && over.items.brackets == map[] && over.scratch == map[g := s.scratch[g]]
  {
    hide Next, Can;
    Sweeps(s, retention);
    swept := Next(s, SweepOrphans, retention);
    assert Outdated(s) == {f} && swept.scratch == map[g := s.scratch[g]];
    AnswersNothing(swept, 0, retention);
    answered := Next(swept, Answer(0, true, {}), retention);
    Returns(answered, 0, retention);
    over := Next(answered, Returned(0, false), retention);
  }
}
