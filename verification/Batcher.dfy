/** The streaming batcher (exec_env.py: AsyncLeanExecBatcher): steps queue up, flushes cut the queue into
    batches, and every batch takes the locks of its items in sorted order, then the semaphore, sends, and
    lets go; close waits for the batches. Every step below is a stretch of code without a real await. */
module Batcher {
  import opened BatchRetries

  /** An item id, by its place in the order sorted() gives item ids. */
  type ItemKey = int

  datatype Phase = Locking | Sending | Finished

  /** A batch task: its steps with their futures, the keys whose locks it takes, in order, how many it holds, and what
      its attempts came to. */
  datatype Batch = Batch(steps: seq<StepItem>, wanted: seq<ItemKey>, held: nat, phase: Phase,
                         replies: seq<Reply>, futures: seq<Future>)

  datatype Config = Config(maxItems: nat, noWait: bool, maxInFlight: nat, retries: nat, itemOf: NodeId -> ItemKey)

  /** A call of close: it has marked the batcher closed, waits for the batches of its own flush, waits for the batches
      tracked then, or has returned. */
  datatype Closer = Marked | Flushing(own: set<nat>) | Gathering(awaited: set<nat>) | Closed

  /** The queue, all steps ever accepted, whether the batcher is closed, whether a timer task lives, how many flush
      tasks are scheduled, the batches in the order of their creation, the tracked ones, and the calls of close. */
  datatype State = State(queue: seq<StepItem>, accepted: seq<StepItem>, closed: bool, timer: bool, flushes: nat,
                         batches: seq<Batch>, tracked: set<nat>, closers: seq<Closer>)

  datatype Action =
    | Submit(step: StepItem)
    | TimerFlush
    | ScheduledFlush
    | CallerFlush
    | Close                 // close up to its flush
    | CloseFlush(k: nat)    // its flush
    | CloseGather(k: nat)   // the batches of its flush are done: it lists the tracked ones
    | CloseReturn(k: nat)   // the listed ones are done
    | Lock(b: nat)          // the next lock is free and taken
    | Enter(b: nat)         // all locks held: the semaphore has room and is taken
    | Quit(b: nat, i: nat)  // the owner of a step gives up its future
    | Finish(b: nat, replies: seq<Reply>, gone: set<nat>)  // the batch is answered: semaphore and locks are released
    | Untrack(b: nat)       // the done callback of a batch task

  // ---------------------------------------------------------------- sorted(set of item ids)

  predicate Increasing(keys: seq<ItemKey>) {
    forall i, j :: 0 <= i < j < |keys| ==> keys[i] < keys[j]
  }

  function InsertKey(k: ItemKey, keys: seq<ItemKey>): seq<ItemKey> {
    if keys == [] || k < keys[0] then [k] + keys
    else if k == keys[0] then keys
    else [keys[0]] + InsertKey(k, keys[1..])
  }

  function SortedKeys(steps: seq<StepItem>, itemOf: NodeId -> ItemKey): seq<ItemKey> {
    if steps == [] then [] else InsertKey(itemOf(steps[0].nodeId), SortedKeys(steps[1..], itemOf))
  }

  lemma {:induction false} InsertKeyHas(k: ItemKey, keys: seq<ItemKey>, x: ItemKey)
    ensures x in InsertKey(k, keys) <==> x == k || x in keys
  {
    if keys == [] || k <= keys[0] {
    } else {
      InsertKeyHas(k, keys[1..], x);
    }
  }

  lemma {:induction false} InsertKeyOrdered(k: ItemKey, keys: seq<ItemKey>)
    requires Increasing(keys)
    ensures Increasing(InsertKey(k, keys))
  {
    if keys == [] || k <= keys[0] {
    } else {
      InsertKeyOrdered(k, keys[1..]);
      var rest := InsertKey(k, keys[1..]);
      forall i | 0 <= i < |rest| ensures keys[0] < rest[i] {
        InsertKeyHas(k, keys[1..], rest[i]);
      }
    }
  }

  /** The locks of a batch: those of its items, each once, in ascending order. */
  lemma {:induction false} SortedKeysOk(steps: seq<StepItem>, itemOf: NodeId -> ItemKey)
    ensures Increasing(SortedKeys(steps, itemOf))
    ensures forall k :: k in SortedKeys(steps, itemOf) <==> exists i :: 0 <= i < |steps| && itemOf(steps[i].nodeId) == k
  {
    if steps == [] {
    } else {
      SortedKeysOk(steps[1..], itemOf);
      InsertKeyOrdered(itemOf(steps[0].nodeId), SortedKeys(steps[1..], itemOf));
      forall k ensures k in SortedKeys(steps, itemOf) <==> exists i ::
          0 <= i < |steps| && itemOf(steps[i].nodeId) == k {
        InsertKeyHas(itemOf(steps[0].nodeId), SortedKeys(steps[1..], itemOf), k);
        if k in SortedKeys(steps[1..], itemOf) {
          var i :| 0 <= i < |steps[1..]| && itemOf(steps[1..][i].nodeId) == k;
          assert itemOf(steps[i + 1].nodeId) == k;
        }
        if j :| 0 < j < |steps| && itemOf(steps[j].nodeId) == k {
          assert itemOf(steps[1..][j - 1].nodeId) == k;
        }
      }
    }
  }

  lemma KeyOfStep(steps: seq<StepItem>, itemOf: NodeId -> ItemKey, m: nat)
    requires m < |steps|
    ensures itemOf(steps[m].nodeId) in SortedKeys(steps, itemOf)
  {
    SortedKeysOk(steps, itemOf);
    var k := itemOf(steps[m].nodeId);
    assert k in SortedKeys(steps, itemOf) <==> exists i :: 0 <= i < |steps| && itemOf(steps[i].nodeId) == k;
  }

  // ---------------------------------------------------------------- the steps

  function Made(steps: seq<StepItem>, itemOf: NodeId -> ItemKey): Batch {
    Batch(steps, SortedKeys(steps, itemOf), 0, Locking, [], seq(|steps|, _ => Unset))
  }

  /** The batches a flush makes of a queue. */
  function Cut(queue: seq<StepItem>, maxItems: nat, itemOf: NodeId -> ItemKey): seq<Batch>
    decreases |queue|
  {
    if maxItems == 0 || queue == [] then []
    else if |queue| <= maxItems then [Made(queue, itemOf)]
    else [Made(queue[..maxItems], itemOf)] + Cut(queue[maxItems..], maxItems, itemOf)
  }

  function Submitted(s: State, step: StepItem, c: Config): State {
    if s.closed then s
    else
      var s' := s.(queue := s.queue + [step], accepted := s.accepted + [step]);
      if |s'.queue| >= c.maxItems || c.noWait then s'.(timer := false, flushes := s.flushes + 1)
      else s'.(timer := true)
  }

  /** The numbers lo..hi. */
  function Range(lo: nat, hi: nat): (r: set<nat>)
    ensures forall i :: i in r <==> lo <= i < hi
  {
    if lo >= hi then {} else Range(lo, hi - 1) + {hi - 1}
  }

  /** A flush cuts the queue into batches and tracks their tasks. */
  function Flushed(s: State, c: Config): State {
    var made := Cut(s.queue, c.maxItems, c.itemOf);
    s.(queue := [], timer := false, batches := s.batches + made,
       tracked := s.tracked + Range(|s.batches|, |s.batches| + |made|))
  }

  predicate Done(batches: seq<Batch>, which: set<nat>) {
    forall b :: b in which && b < |batches| ==> batches[b].phase == Finished
  }

  /** What sending a batch makes of its futures: a step is given up by its owner, or meets its fate. */
  function Outcomes(b: Batch, replies: seq<Reply>, gone: set<nat>, retries: nat): seq<Future>
    requires |b.futures| == |b.steps| && retries < |replies|
  {
    seq(|b.steps|, i requires 0 <= i < |b.steps| =>
      if b.futures[i] == Gone || i in gone then Gone else Fate(b.steps[i].nodeId, replies, retries, 0))
  }

  /** The keys whose locks a batch holds. */
  function Held(b: Batch): seq<ItemKey> {
    if b.held <= |b.wanted| then b.wanted[..b.held] else b.wanted
  }

  predicate LockFree(batches: seq<Batch>, k: ItemKey) {
    forall i :: 0 <= i < |batches| ==> k !in Held(batches[i])
  }

  function SendingCount(batches: seq<Batch>): nat {
    if batches == [] then 0 else (if batches[0].phase == Sending then 1 else 0) + SendingCount(batches[1..])
  }

  predicate CanLock(s: State, b: nat) {
    && b < |s.batches| && s.batches[b].phase == Locking && s.batches[b].held < |s.batches[b].wanted|
    && LockFree(s.batches, s.batches[b].wanted[s.batches[b].held])
  }

  predicate CanEnter(s: State, b: nat, c: Config) {
    && b < |s.batches| && s.batches[b].phase == Locking && s.batches[b].held >= |s.batches[b].wanted|
    && SendingCount(s.batches) < c.maxInFlight
  }

  predicate CanFinish(s: State, b: nat) {
    b < |s.batches| && s.batches[b].phase == Sending && |s.batches[b].futures| == |s.batches[b].steps|
  }

  predicate CanQuit(s: State, b: nat, i: nat) {
    b < |s.batches| && s.batches[b].phase != Finished && i < |s.batches[b].futures| && s.batches[b].futures[i] == Unset
  }

  /** A batch whose i-th step is given up. */
  function GivenUp(b: Batch, i: nat): Batch
    requires i < |b.futures|
  {
    b.(futures := b.futures[i := Gone])
  }

  function Answered(b: Batch, replies: seq<Reply>, gone: set<nat>, retries: nat): Batch
    requires |b.futures| == |b.steps| && retries < |replies|
  {
    b.(phase := Finished, held := 0, replies := replies, futures := Outcomes(b, replies, gone, retries))
  }

  predicate CloserAt(s: State, k: nat) {
    k < |s.closers|
  }

  /** One step; a step that is not possible changes nothing. */
  function Next(s: State, a: Action, c: Config): State {
    match a
    case Submit(step) => Submitted(s, step, c)
    case TimerFlush => if s.timer then Flushed(s, c) else s
    case ScheduledFlush => if s.flushes > 0 then Flushed(s, c).(flushes := s.flushes - 1) else s
    case CallerFlush => Flushed(s, c)
    case Close => s.(closed := true, closers := s.closers + [Marked])
    case CloseFlush(k) =>
      if CloserAt(s, k) && s.closers[k].Marked? then
        var t := Flushed(s, c);
        t.(closers := s.closers[k := Flushing(Range(|s.batches|, |t.batches|))])
      else s
    case CloseGather(k) =>
      if CloserAt(s, k) && s.closers[k].Flushing? && Done(s.batches, s.closers[k].own)
      then s.(closers := s.closers[k := Gathering(s.tracked)]) else s
    case CloseReturn(k) =>
      if CloserAt(s, k) && s.closers[k].Gathering? && Done(s.batches, s.closers[k].awaited)
      then s.(closers := s.closers[k := Closed]) else s
    case Lock(b) =>
      if CanLock(s, b) then s.(batches := s.batches[b := s.batches[b].(held := s.batches[b].held + 1)]) else s
    case Enter(b) => if CanEnter(s, b, c) then s.(batches := s.batches[b := s.batches[b].(phase := Sending)]) else s
    case Quit(b, i) => if CanQuit(s, b, i) then s.(batches := s.batches[b := GivenUp(s.batches[b], i)]) else s
    case Finish(b, replies, gone) =>
      if CanFinish(s, b) && |replies| == c.retries + 1
      then s.(batches := s.batches[b := Answered(s.batches[b], replies, gone, c.retries)]) else s
    case Untrack(b) =>
      if b < |s.batches| && s.batches[b].phase == Finished then s.(tracked := s.tracked - {b}) else s
  }

  function Run(s: State, actions: seq<Action>, c: Config): State
    decreases |actions|
  {
    if actions == [] then s else Run(Next(s, actions[0], c), actions[1..], c)
  }

  const START := State([], [], false, false, 0, [], {}, [])

  // ---------------------------------------------------------------- the invariant

  /** A step of a finished batch was given up by its owner or met its fate. */
  ghost predicate Resolved(b: Batch, i: nat, retries: nat)
    requires i < |b.steps| == |b.futures|
  {
    b.futures[i] == Gone || (retries < |b.replies| && b.futures[i] == Fate(b.steps[i].nodeId, b.replies, retries, 0))
  }

  /** No future of an unfinished batch is completed, except by its owner. */
  predicate StillOpen(b: Batch) {
    |b.futures| == |b.steps| && forall i :: 0 <= i < |b.futures| ==> b.futures[i] == Unset || b.futures[i] == Gone
  }

  ghost predicate FuturesOk(b: Batch, c: Config) {
    && |b.futures| == |b.steps|
    && (b.phase != Finished ==> StillOpen(b))
    && (b.phase == Finished ==> forall i :: 0 <= i < |b.steps| ==> Resolved(b, i, c.retries))
  }

  ghost predicate BatchOk(b: Batch, c: Config) {
    && 0 < |b.steps| <= c.maxItems && b.wanted == SortedKeys(b.steps, c.itemOf) && b.held <= |b.wanted|
    && (b.phase == Sending ==> b.held == |b.wanted|)
    && (b.phase == Finished ==> b.held == 0)
    && FuturesOk(b, c)
  }

  /** No lock is held twice. */
  ghost predicate Exclusive(batches: seq<Batch>) {
    forall i, j, k :: 0 <= i < |batches| && 0 <= j < |batches| && k in Held(batches[i]) && k in Held(batches[j]) ==>
        i == j
  }

  function Steps(batches: seq<Batch>): seq<StepItem> {
    if batches == [] then [] else batches[0].steps + Steps(batches[1..])
  }

  /** Every unfinished batch is among these. */
  ghost predicate Watched(batches: seq<Batch>, which: set<nat>) {
    forall b :: 0 <= b < |batches| && batches[b].phase != Finished ==> b in which
  }

  /** A call of close that has flushed has left nothing in the queue, and waits for every batch in the end. */
  ghost predicate CloserOk(s: State, x: Closer) {
    && s.closed
    && (!x.Marked? ==> s.queue == [])
    && (x.Gathering? ==> Watched(s.batches, x.awaited))
    && (x.Closed? ==> Watched(s.batches, {}))
  }

  /** Batches, locks, semaphore and queue. */
  ghost predicate Core(s: State, c: Config) {
    && (forall i :: 0 <= i < |s.batches| ==> BatchOk(s.batches[i], c))
    && Exclusive(s.batches)
    && SendingCount(s.batches) <= c.maxInFlight
    && s.accepted == Steps(s.batches) + s.queue
    && (s.queue != [] ==> s.timer || s.flushes > 0)
  }

  /** Who waits for what. */
  ghost predicate Waiting(s: State) {
    && Watched(s.batches, s.tracked)
    && forall k :: 0 <= k < |s.closers| ==> CloserOk(s, s.closers[k])
  }

  ghost predicate Inv(s: State, c: Config) {
    Core(s, c) && Waiting(s)
  }

  lemma {:induction false} StepsAppend(a: seq<Batch>, b: seq<Batch>)
    ensures Steps(a + b) == Steps(a) + Steps(b)
  {
    if a == [] {
      assert a + b == b;
    } else {
      StepsAppend(a[1..], b);
      assert (a + b)[1..] == a[1..] + b && (a + b)[0] == a[0];
    }
  }

  lemma {:induction false} CountAppend(a: seq<Batch>, b: seq<Batch>)
    ensures SendingCount(a + b) == SendingCount(a) + SendingCount(b)
  {
    if a == [] {
      assert a + b == b;
    } else {
      CountAppend(a[1..], b);
      assert (a + b)[1..] == a[1..] + b && (a + b)[0] == a[0];
    }
  }

  /** A batch that changes only its locks and phase. */
  lemma {:induction false} StepsUpdate(batches: seq<Batch>, b: nat, x: Batch)
    requires b < |batches| && x.steps == batches[b].steps
    ensures Steps(batches[b := x]) == Steps(batches)
    ensures SendingCount(batches[b := x]) == SendingCount(batches) - (if batches[b].phase == Sending then 1 else 0)
                                             + (if x.phase == Sending then 1 else 0)
  {
    if b == 0 {
    } else {
      StepsUpdate(batches[1..], b - 1, x);
      assert batches[b := x][1..] == batches[1..][b - 1 := x];
    }
  }

  /** A flush neither loses, repeats nor reorders a step, and makes no batch too large. */
  lemma {:induction false} CutOk(queue: seq<StepItem>, c: Config)
    requires c.maxItems > 0
    ensures
      var cut := Cut(queue, c.maxItems, c.itemOf);
      && Steps(cut) == queue && SendingCount(cut) == 0
      && (forall i :: 0 <= i < |cut| ==> BatchOk(cut[i], c) && Held(cut[i]) == [])
      && (forall i :: 0 <= i < |cut| - 1 ==> |cut[i].steps| == c.maxItems)
    decreases |queue|
  {
    hide SortedKeys;
    if |queue| > c.maxItems {
      CutOk(queue[c.maxItems..], c);
      assert queue == queue[..c.maxItems] + queue[c.maxItems..];
    } else if queue != [] {
      assert Steps([Made(queue, c.itemOf)]) == queue + Steps([]);
    }
  }

  /** A new batch holds no lock, has not sent, and all its futures are open. */
  lemma {:induction false} CutIsNew(queue: seq<StepItem>, maxItems: nat, itemOf: NodeId -> ItemKey)
    ensures forall i :: 0 <= i < |Cut(queue, maxItems, itemOf)| ==>
      var b := Cut(queue, maxItems, itemOf)[i];
      && b.held == 0 && b.phase == Locking && b.replies == [] && |b.futures| == |b.steps|
      && forall f :: f in b.futures ==> f == Unset
    decreases |queue|
  {
    hide SortedKeys;
    if |queue| > maxItems > 0 {
      CutIsNew(queue[maxItems..], maxItems, itemOf);
    }
  }

  lemma {:induction false} SendingIsSize(batches: seq<Batch>)
    ensures SendingCount(batches) == |set b | 0 <= b < |batches| && batches[b].phase == Sending|
  {
    var all := set b | 0 <= b < |batches| && batches[b].phase == Sending;
    if batches == [] {
      assert all == {};
    } else {
      var n := |batches| - 1;
      SendingIsSize(batches[..n]);
      CountAppend(batches[..n], [batches[n]]);
      assert batches == batches[..n] + [batches[n]] && [batches[n]][1..] == [];
      assert SendingCount(batches) == SendingCount(batches[..n]) + if batches[n].phase == Sending then 1 else 0;
      hide SendingCount;
      var rest := set b | 0 <= b < n && batches[..n][b].phase == Sending;
      assert all == if batches[n].phase == Sending then rest + {n} else rest;
    }
  }

  /** When a batch may take its next lock: no batch holds it among the first `held` it wanted; and when it may send: it
      holds all of them, and fewer than max_in_flight_batches are sending. */
  lemma GuardsMean(s: State, b: nat, c: Config)
    requires forall i :: 0 <= i < |s.batches| ==> s.batches[i].held <= |s.batches[i].wanted|
    ensures CanLock(s, b) <==>
      && b < |s.batches| && s.batches[b].phase == Locking && s.batches[b].held < |s.batches[b].wanted|
      && forall i, j :: 0 <= i < |s.batches| && 0 <= j < s.batches[i].held ==>
           s.batches[i].wanted[j] != s.batches[b].wanted[s.batches[b].held]
    ensures CanEnter(s, b, c) <==>
      && b < |s.batches| && s.batches[b].phase == Locking && s.batches[b].held == |s.batches[b].wanted|
      && |set i | 0 <= i < |s.batches| && s.batches[i].phase == Sending| < c.maxInFlight
  {
    SendingIsSize(s.batches);
    hide SendingCount;
    if b < |s.batches| && s.batches[b].held < |s.batches[b].wanted| {
      var k := s.batches[b].wanted[s.batches[b].held];
      forall i | 0 <= i < |s.batches|
        ensures k !in Held(s.batches[i]) <==> forall j :: 0 <= j < s.batches[i].held ==> s.batches[i].wanted[j] != k
      {
        var x := s.batches[i];
        assert forall j :: 0 <= j < x.held ==> x.wanted[..x.held][j] == x.wanted[j];
      }
    }
  }

  // ---------------------------------------------------------------- every step keeps the invariant

  lemma ExclusiveAppend(a: seq<Batch>, b: seq<Batch>)
    requires Exclusive(a) && forall i :: 0 <= i < |b| ==> Held(b[i]) == []
    ensures Exclusive(a + b)
  {
    assert forall i :: 0 <= i < |a| ==> (a + b)[i] == a[i];
    assert forall i :: |a| <= i < |a + b| ==> (a + b)[i] == b[i - |a|];
    hide Held;
  }

  /** A batch may let locks go, or take one that nobody holds. */
  lemma ExclusiveUpdate(batches: seq<Batch>, b: nat, x: Batch, k: ItemKey)
    requires Exclusive(batches) && b < |batches|
    requires forall l :: l in Held(x) ==> l in Held(batches[b]) || (l == k && LockFree(batches, k))
    ensures Exclusive(batches[b := x])
  {
    hide Held;
    var after := batches[b := x];
    assert forall m :: 0 <= m < |after| && m != b ==> after[m] == batches[m];
  }

  lemma FlushedKeeps(s: State, c: Config)
    requires Core(s, c) && c.maxItems > 0
    ensures Core(Flushed(s, c), c)
  {
    hide Cut, Steps, SendingCount, BatchOk, Exclusive;
    var cut := Cut(s.queue, c.maxItems, c.itemOf);
    CutOk(s.queue, c);
    StepsAppend(s.batches, cut);
    CountAppend(s.batches, cut);
    ExclusiveAppend(s.batches, cut);
    assert Steps(s.batches + cut) + [] == Steps(s.batches) + s.queue;
  }

  /** A batch changes; its steps stay, and the locks it holds are old ones, or free. */
  lemma BatchChanges(s: State, b: nat, x: Batch, k: ItemKey, c: Config)
    requires Core(s, c) && b < |s.batches| && BatchOk(x, c) && x.steps == s.batches[b].steps
    requires forall l :: l in Held(x) ==> l in Held(s.batches[b]) || (l == k && LockFree(s.batches, k))
    requires x.phase == Sending ==> s.batches[b].phase == Sending || SendingCount(s.batches) < c.maxInFlight
    ensures Core(s.(batches := s.batches[b := x]), c)
  {
    hide Steps, SendingCount, BatchOk, Exclusive, LockFree, Held;
    StepsUpdate(s.batches, b, x);
    ExclusiveUpdate(s.batches, b, x, k);
  }

  lemma LockKeeps(s: State, b: nat, c: Config)
    requires Core(s, c) && CanLock(s, b)
    ensures Core(Next(s, Lock(b), c), c)
  {
    hide Steps, SendingCount, SortedKeys, Exclusive, LockFree, FuturesOk;
    var x := s.batches[b].(held := s.batches[b].held + 1);
    assert FuturesOk(x, c) by { SameFutures(s.batches[b], x, c); }
    assert Held(x) == Held(s.batches[b]) + [s.batches[b].wanted[s.batches[b].held]];
    BatchChanges(s, b, x, s.batches[b].wanted[s.batches[b].held], c);
  }

  lemma SameFutures(b: Batch, x: Batch, c: Config)
    requires FuturesOk(b, c) && x.steps == b.steps && x.futures == b.futures && b.phase != Finished
        && x.phase != Finished
    ensures FuturesOk(x, c)
  {}

  lemma EnterKeeps(s: State, b: nat, c: Config)
    requires Core(s, c) && CanEnter(s, b, c)
    ensures Core(Next(s, Enter(b), c), c)
  {
    hide Steps, SendingCount, SortedKeys, Exclusive, FuturesOk;
    var x := s.batches[b].(phase := Sending);
    assert FuturesOk(x, c) by { SameFutures(s.batches[b], x, c); }
    BatchChanges(s, b, x, 0, c);
  }

  lemma QuitKeeps(s: State, b: nat, i: nat, c: Config)
    requires Core(s, c) && CanQuit(s, b, i)
    ensures Core(Next(s, Quit(b, i), c), c)
  {
    hide Steps, SendingCount, SortedKeys, Exclusive;
    BatchChanges(s, b, GivenUp(s.batches[b], i), 0, c);
  }

  lemma AnsweredOk(b: Batch, replies: seq<Reply>, gone: set<nat>, c: Config)
    requires BatchOk(b, c) && |replies| == c.retries + 1
    ensures BatchOk(Answered(b, replies, gone, c.retries), c)
  {
    hide SortedKeys, Fate;
  }

  lemma FinishKeeps(s: State, b: nat, replies: seq<Reply>, gone: set<nat>, c: Config)
    requires Core(s, c) && CanFinish(s, b) && |replies| == c.retries + 1
    ensures Core(Next(s, Finish(b, replies, gone), c), c)
  {
    hide Steps, SendingCount, SortedKeys, Exclusive, Outcomes;
    AnsweredOk(s.batches[b], replies, gone, c);
    BatchChanges(s, b, Answered(s.batches[b], replies, gone, c.retries), 0, c);
  }

  lemma CoreKeeps(s: State, a: Action, c: Config)
    requires Core(s, c) && c.maxItems > 0
    ensures Core(Next(s, a, c), c)
  {
    match a
    case Submit(step) =>
      assert Steps(s.batches) + (s.queue + [step]) == s.accepted + [step];
      hide Steps, SendingCount, BatchOk, Exclusive;
    case Lock(b) => if CanLock(s, b) { LockKeeps(s, b, c); } hide Core;
    case Enter(b) => if CanEnter(s, b, c) { EnterKeeps(s, b, c); } hide Core;
    case Quit(b, i) => if CanQuit(s, b, i) { QuitKeeps(s, b, i, c); } hide Core;
    case Finish(b, replies, gone) =>
      if CanFinish(s, b) && |replies| == c.retries + 1 { FinishKeeps(s, b, replies, gone, c); }
      hide Core;
    case _ =>
      FlushedKeeps(s, c);
      hide Cut, Steps, SendingCount, BatchOk, Exclusive;
  }

  // who waits for what

  /** No step makes a finished batch unfinished, and only a flush makes batches. */
  lemma BatchesAfter(s: State, a: Action, c: Config)
    ensures
      var n := Next(s, a, c);
      && |s.batches| <= |n.batches|
      && (forall b :: 0 <= b < |s.batches| && s.batches[b].phase == Finished ==> n.batches[b].phase == Finished)
      && (|s.batches| < |n.batches| ==> n.tracked == s.tracked + Range(|s.batches|, |n.batches|))
      && (s.queue == [] ==> |n.batches| == |s.batches|)
      && (forall b :: b in s.tracked && b !in n.tracked ==> b < |s.batches| && s.batches[b].phase == Finished)
  {
    hide Held, SortedKeys, LockFree, SendingCount, Done, Outcomes;
  }

  lemma QueueAfter(s: State, a: Action, c: Config)
    ensures
      var n := Next(s, a, c);
      && (s.closed ==> n.closed) && (s.closed && s.queue == [] ==> n.queue == [])
      && (|s.closers| <= |n.closers|)
      && forall k :: 0 <= k < |n.closers| ==>
           || (k < |s.closers| && n.closers[k] == s.closers[k])
           || (n.closed && n.closers[k] == Marked)
           || (k < |s.closers| && s.closers[k].Marked? && n.closers[k].Flushing? && n.queue == [])
           || (k < |s.closers| && s.closers[k].Flushing? && n.closers[k] == Gathering(n.tracked))
           || (k < |s.closers| && s.closers[k].Gathering? && n.closers[k] == Closed
               && Done(n.batches, s.closers[k].awaited))
  {
    hide Cut, CanLock, CanEnter, CanFinish, CanQuit, Outcomes, Done;
  }

  lemma StillWatched(s: State, a: Action, which: set<nat>, c: Config)
    requires Watched(s.batches, which) && s.queue == []
    ensures Watched(Next(s, a, c).batches, which)
  {
    BatchesAfter(s, a, c);
    hide Next;
  }

  lemma TrackedWatched(s: State, a: Action, c: Config)
    requires Watched(s.batches, s.tracked)
    ensures Watched(Next(s, a, c).batches, Next(s, a, c).tracked)
  {
    BatchesAfter(s, a, c);
    hide Next;
  }

  lemma DoneWatched(batches: seq<Batch>, which: set<nat>)
    requires Watched(batches, which) && Done(batches, which)
    ensures Watched(batches, {})
  {}

  lemma WaitingKeeps(s: State, a: Action, c: Config)
    requires Waiting(s)
    ensures Waiting(Next(s, a, c))
  {
    var n := Next(s, a, c);
    TrackedWatched(s, a, c);
    QueueAfter(s, a, c);
    hide Next, Watched, Done;
    forall k | 0 <= k < |n.closers| ensures CloserOk(n, n.closers[k]) {
      if k < |s.closers| {
        assert CloserOk(s, s.closers[k]);
        if s.closers[k].Gathering? {
          StillWatched(s, a, s.closers[k].awaited, c);
          if n.closers[k].Closed? {
            DoneWatched(n.batches, s.closers[k].awaited);
          }
        } else if s.closers[k].Closed? {
          StillWatched(s, a, {}, c);
        }
      }
    }
  }

  lemma NextKeepsInv(s: State, a: Action, c: Config)
    requires Inv(s, c) && c.maxItems > 0
    ensures Inv(Next(s, a, c), c)
  {
    hide Next, Core, Waiting;
    CoreKeeps(s, a, c);
    WaitingKeeps(s, a, c);
  }

  lemma {:induction false} RunKeepsInv(s: State, actions: seq<Action>, c: Config)
    requires Inv(s, c) && c.maxItems > 0
    ensures Inv(Run(s, actions, c), c)
    decreases |actions|
  {
    hide Inv, Next;
    if actions == [] {
    } else {
      NextKeepsInv(s, actions[0], c);
      RunKeepsInv(Next(s, actions[0], c), actions[1..], c);
    }
  }

  lemma StartInv(c: Config)
    ensures Inv(START, c)
  {}

  // ---------------------------------------------------------------- what all runs promise

  /** Two batches that share an item are never both inside env.step_batch, and at most
      max_in_flight_batches are there at all. */
  lemma MutualExclusion(actions: seq<Action>, c: Config, i: nat, j: nat, m: nat, n: nat)
    requires c.maxItems > 0
    requires
      var s := Run(START, actions, c);
      && i < |s.batches| && j < |s.batches| && i != j && s.batches[i].phase == Sending && s.batches[j].phase == Sending
      && m < |s.batches[i].steps| && n < |s.batches[j].steps|
    ensures
      var s := Run(START, actions, c);
      && c.itemOf(s.batches[i].steps[m].nodeId) != c.itemOf(s.batches[j].steps[n].nodeId)
      && |set b | 0 <= b < |s.batches| && s.batches[b].phase == Sending| <= c.maxInFlight
  {
    hide Run, Inv;
    StartInv(c);
    RunKeepsInv(START, actions, c);
    var s := Run(START, actions, c);
    SendingApart(s, c, i, j, m, n);
  }

  lemma SendingApart(s: State, c: Config, i: nat, j: nat, m: nat, n: nat)
    requires Inv(s, c) && i < |s.batches| && j < |s.batches| && i != j
    requires s.batches[i].phase == Sending && s.batches[j].phase == Sending
    requires m < |s.batches[i].steps| && n < |s.batches[j].steps|
    ensures c.itemOf(s.batches[i].steps[m].nodeId) != c.itemOf(s.batches[j].steps[n].nodeId)
    ensures |set b | 0 <= b < |s.batches| && s.batches[b].phase == Sending| <= c.maxInFlight
  {
    SendingIsSize(s.batches);
    hide SendingCount, SortedKeys, Steps, FuturesOk;
    assert BatchOk(s.batches[i], c) && BatchOk(s.batches[j], c);
    KeyOfStep(s.batches[i].steps, c.itemOf, m);
    KeyOfStep(s.batches[j].steps, c.itemOf, n);
    assert Held(s.batches[i]) == s.batches[i].wanted && Held(s.batches[j]) == s.batches[j].wanted;
  }

  /** A batch is waiting for a lock. */
  predicate Waits(b: Batch) {
    b.phase == Locking && b.held < |b.wanted|
  }

  /** Of the first n batches that wait for a lock, one that waits for the greatest. */
  lemma {:induction false} GreatestWanted(batches: seq<Batch>, n: nat) returns (g: nat)
    requires n <= |batches| && exists i :: 0 <= i < n && Waits(batches[i])
    ensures g < n && Waits(batches[g])
    ensures forall i :: 0 <= i < n && Waits(batches[i]) ==>
        batches[i].wanted[batches[i].held] <= batches[g].wanted[batches[g].held]
  {
    if exists i :: 0 <= i < n - 1 && Waits(batches[i]) {
      g := GreatestWanted(batches, n - 1);
      if Waits(batches[n - 1]) && batches[n - 1].wanted[batches[n - 1].held] > batches[g].wanted[batches[g].held] {
        g := n - 1;
      }
    } else {
      g := n - 1;
    }
  }

  predicate CanStep(s: State, b: nat, c: Config) {
    CanLock(s, b) || CanEnter(s, b, c) || CanFinish(s, b)
  }

  lemma {:induction false} NoneSending(batches: seq<Batch>)
    requires forall i :: 0 <= i < |batches| ==> batches[i].phase != Sending
    ensures SendingCount(batches) == 0
  {
    if batches == [] {
    } else {
      NoneSending(batches[1..]);
    }
  }

  /** Deadlock freedom: as long as a batch is unfinished, some batch can take a step. */
  lemma NoDeadlock(s: State, c: Config)
    requires Inv(s, c) && c.maxInFlight > 0
    requires exists i :: 0 <= i < |s.batches| && s.batches[i].phase != Finished
    ensures exists b :: 0 <= b < |s.batches| && CanStep(s, b, c)
  {
    hide SortedKeys;
    if sending :| 0 <= sending < |s.batches| && s.batches[sending].phase == Sending {
      assert CanStep(s, sending, c);
    } else {
      NoneSending(s.batches);
      hide SendingCount;
      if ready :| 0 <= ready < |s.batches| && s.batches[ready].phase == Locking && !Waits(s.batches[ready]) {
        assert CanStep(s, ready, c);
      } else {
        var i :| 0 <= i < |s.batches| && s.batches[i].phase != Finished;
        assert Waits(s.batches[i]);
        var g := GreatestWanted(s.batches, |s.batches|);
        GreatestIsFree(s, g, c);
        assert CanStep(s, g, c);
      }
    }
  }

  /** The greatest lock anybody waits for is free: its holder would wait for a greater one. */
  lemma GreatestIsFree(s: State, g: nat, c: Config)
    requires Inv(s, c) && g < |s.batches| && Waits(s.batches[g])
    requires forall i :: 0 <= i < |s.batches| && s.batches[i].phase != Finished ==> Waits(s.batches[i])
    requires forall i :: 0 <= i < |s.batches| && Waits(s.batches[i]) ==>
                           s.batches[i].wanted[s.batches[i].held] <= s.batches[g].wanted[s.batches[g].held]
    ensures CanLock(s, g)
  {
    var k := s.batches[g].wanted[s.batches[g].held];
    forall i | 0 <= i < |s.batches| ensures k !in Held(s.batches[i]) {
      var b := s.batches[i];
      assert BatchOk(b, c);
      SortedKeysOk(b.steps, c.itemOf);
      hide SortedKeys;
      assert Waits(b) ==> forall j :: 0 <= j < b.held ==> b.wanted[j] < b.wanted[b.held];
    }
  }

  // ---------------------------------------------------------------- every batch finishes

  /** The steps a batch has left. */
  function Left(b: Batch): nat {
    match b.phase
    case Locking => (if b.held < |b.wanted| then |b.wanted| - b.held else 0) + 2
    case Sending => 1
    case Finished => 0
  }

  function Work(batches: seq<Batch>): nat {
    if batches == [] then 0 else Left(batches[0]) + Work(batches[1..])
  }

  lemma {:induction false} WorkUpdate(batches: seq<Batch>, b: nat, x: Batch)
    requires b < |batches|
    ensures Work(batches[b := x]) == Work(batches) - Left(batches[b]) + Left(x)
  {
    hide Left;
    if b > 0 {
      WorkUpdate(batches[1..], b - 1, x);
      assert batches[b := x][1..] == batches[1..][b - 1 := x];
    } else {
      assert batches[b := x][1..] == batches[1..];
    }
  }

  predicate BatchStep(s: State, a: Action, c: Config) {
    match a
    case Lock(b) => CanLock(s, b)
    case Enter(b) => CanEnter(s, b, c)
    case Finish(b, replies, _) => CanFinish(s, b) && |replies| == c.retries + 1
    case _ => false
  }

  predicate BatchRun(s: State, actions: seq<Action>, c: Config)
    decreases |actions|
  {
    actions != [] ==> BatchStep(s, actions[0], c) && BatchRun(Next(s, actions[0], c), actions[1..], c)
  }

  lemma StepDoesWork(s: State, a: Action, c: Config)
    requires Inv(s, c) && BatchStep(s, a, c)
    ensures Work(Next(s, a, c).batches) == Work(s.batches) - 1
    ensures |Next(s, a, c).batches| == |s.batches|
  {
    hide SortedKeys, Exclusive, SendingCount, Steps, Work, LockFree;
    assert BatchOk(s.batches[a.b], c);
    WorkUpdate(s.batches, a.b, Next(s, a, c).batches[a.b]);
  }

  /** However the batches take turns, they stop after boundedly many steps, and they stop only when all are finished. */
  lemma {:induction false} BatchesFinish(s: State, actions: seq<Action>, c: Config)
    requires Inv(s, c) && c.maxItems > 0 && c.maxInFlight > 0 && BatchRun(s, actions, c)
    ensures |actions| <= Work(s.batches)
    ensures
      var t := Run(s, actions, c);
      (forall b :: 0 <= b < |t.batches| ==> !CanStep(t, b, c)) ==> forall b :: 0 <= b < |t.batches| ==>
          t.batches[b].phase == Finished
    decreases |actions|
  {
    hide Inv, Next, CanStep, BatchStep;
    if actions == [] {
      if exists i :: 0 <= i < |s.batches| && s.batches[i].phase != Finished {
        NoDeadlock(s, c);
      }
    } else {
      StepDoesWork(s, actions[0], c);
      NextKeepsInv(s, actions[0], c);
      BatchesFinish(Next(s, actions[0], c), actions[1..], c);
    }
  }

  // ---------------------------------------------------------------- close

  /** When a call of close has returned, whatever else ran before, meanwhile and since: the queue is empty, every step
      ever accepted is in a finished batch, in the order of acceptance, and its future is completed: given up by its
      owner, or with the outcome of its own node id. */
  lemma CloseResolvesAll(actions: seq<Action>, c: Config)
    requires c.maxItems > 0 && Closed in Run(START, actions, c).closers
    ensures
      var s := Run(START, actions, c);
      && s.closed && s.queue == [] && s.accepted == Steps(s.batches)
      && forall b, i :: 0 <= b < |s.batches| && 0 <= i < |s.batches[b].steps| ==>
           && s.batches[b].phase == Finished && |s.batches[b].futures| == |s.batches[b].steps|
           && s.batches[b].futures[i] != Unset && Resolved(s.batches[b], i, c.retries)
  {
    StartInv(c);
    RunKeepsInv(START, actions, c);
    var s := Run(START, actions, c);
    hide Run, Steps, SortedKeys, Fate, Exclusive;
    var k :| 0 <= k < |s.closers| && s.closers[k] == Closed;
    assert CloserOk(s, s.closers[k]);
    forall b, i | 0 <= b < |s.batches| && 0 <= i < |s.batches[b].steps|
      ensures s.batches[b].phase == Finished && BatchOk(s.batches[b], c) && s.batches[b].futures[i] != Unset
    {
      assert BatchOk(s.batches[b], c);
      NeverUnset(s.batches[b], i, c);
    }
    assert Steps(s.batches) + [] == Steps(s.batches);
  }

  lemma NeverUnset(b: Batch, i: nat, c: Config)
    requires BatchOk(b, c) && b.phase == Finished && i < |b.steps|
    ensures b.futures[i] != Unset && Resolved(b, i, c.retries)
  {
    assert Resolved(b, i, c.retries);
    if b.futures[i] != Gone {
      FateIsOwn(b.steps[i].nodeId, b.replies, c.retries, 0);
    }
  }

  /** A call of close that waits is not stuck: once the batches it waits for are finished it goes on, and by
      BatchesFinish these do finish. */
  lemma CloserGoesOn(s: State, k: nat, c: Config)
    requires k < |s.closers| && s.closers[k] != Closed
    requires forall b :: 0 <= b < |s.batches| ==> s.batches[b].phase == Finished
    ensures exists a ::
        (a == CloseFlush(k) || a == CloseGather(k) || a == CloseReturn(k)) && Next(s, a, c).closers[k] != s.closers[k]
  {
    hide Cut;
    var a :=
      match s.closers[k]
      case Marked => CloseFlush(k)
      case Flushing(_) => CloseGather(k)
      case _ => CloseReturn(k);
    assert Next(s, a, c).closers[k] != s.closers[k];
  }

  // ---------------------------------------------------------------- the batcher as it runs

  ghost function AllOf(sets: seq<set<nat>>): set<nat> {
    set a, i | 0 <= a < |sets| && i in sets[a] :: i
  }

  /** SendBatch on the futures of a batch. */
  method Send(b: Batch, retries: nat, replies: seq<Reply>, during: seq<set<nat>>, asleep: seq<set<nat>>)
    returns (outcomes: seq<Future>, ghost gone: set<nat>)
    requires StillOpen(b) && |replies| == |during| == |asleep| == retries + 1
    ensures outcomes == Outcomes(b, replies, gone, retries)
  {
    hide Fate, Trace, SentWhileLeft, Outcomes;
    var futures := new Future[|b.steps|](i requires 0 <= i < |b.steps| => b.futures[i]);
    assert futures[..] == b.futures;
    ghost var before := set i: nat | i < |b.futures| && b.futures[i] == Gone;
    ghost var quitters := before + AllOf(during) + AllOf(asleep);
    assert forall a, i :: 0 <= a <= retries && i in during[a] ==> i in AllOf(during);
    assert forall a, i :: 0 <= a <= retries && i in asleep[a] ==> i in AllOf(asleep);
    hide AllOf;
    var _ := SendBatch(b.steps, futures, retries, replies, during, asleep, quitters);
    gone := set i: nat | i < |b.steps| && futures[i] == Gone;
    SentIsAnswered(b, futures[..], replies, gone, retries);
    outcomes := futures[..];
  }

  /** The futures after SendBatch are the outcomes of the machine's step. */
  lemma SentIsAnswered(b: Batch, futures: seq<Future>, replies: seq<Reply>, gone: set<nat>, retries: nat)
    requires |futures| == |b.futures| == |b.steps| && retries < |replies|
    requires forall i :: 0 <= i < |futures| ==> (futures[i] == Gone <==> i in gone)
    requires forall i :: 0 <= i < |futures| ==>
        futures[i] == Gone || futures[i] == Fate(b.steps[i].nodeId, replies, retries, 0)
    requires forall i :: 0 <= i < |futures| && b.futures[i] == Gone ==> futures[i] == Gone
    ensures futures == Outcomes(b, replies, gone, retries)
  {
    hide Fate;
  }

  /** Batches of a queue: together its steps in order, all but the last with max_items of them. Each wants the locks of
      its items, each once and in ascending order, holds none, and all its futures are open. */
  ghost predicate NewBatches(made: seq<Batch>, queue: seq<StepItem>, c: Config) {
    && Steps(made) == queue
    && forall i :: 0 <= i < |made| ==>
         && 0 < |made[i].steps| <= c.maxItems && (i < |made| - 1 ==> |made[i].steps| == c.maxItems)
         && made[i].held == 0 && made[i].phase == Locking && |made[i].futures| == |made[i].steps|
         && (forall f :: f in made[i].futures ==> f == Unset)
         && (forall m, n :: 0 <= m < n < |made[i].wanted| ==> made[i].wanted[m] < made[i].wanted[n])
         && (forall k :: k in made[i].wanted <==>
               exists m :: 0 <= m < |made[i].steps| && c.itemOf(made[i].steps[m].nodeId) == k)
  }

  lemma CutIsMade(queue: seq<StepItem>, c: Config)
    requires c.maxItems > 0
    ensures NewBatches(Cut(queue, c.maxItems, c.itemOf), queue, c)
  {
    CutOk(queue, c);
    CutIsNew(queue, c.maxItems, c.itemOf);
    var made := Cut(queue, c.maxItems, c.itemOf);
    hide Cut, SortedKeys, Steps;
    forall i | 0 <= i < |made|
      ensures 0 < |made[i].steps| <= c.maxItems
      ensures forall m, n :: 0 <= m < n < |made[i].wanted| ==> made[i].wanted[m] < made[i].wanted[n]
      ensures forall k :: k in made[i].wanted <==>
        exists m :: 0 <= m < |made[i].steps| && c.itemOf(made[i].steps[m].nodeId) == k
    {
      assert BatchOk(made[i], c);
      SortedKeysOk(made[i].steps, c.itemOf);
    }
  }

  class AsyncLeanExecBatcher {
    const config: Config
    var queue: seq<StepItem>
    var closed: bool
    var timer: bool
    var flushes: nat
    var batches: seq<Batch>
    var tracked: set<nat>
    var closers: seq<Closer>
    ghost var accepted: seq<StepItem>

    ghost function Current(): State
      reads this
    {
      State(queue, accepted, closed, timer, flushes, batches, tracked, closers)
    }

    constructor (config: Config)
      requires config.maxItems > 0 && config.maxInFlight > 0
      ensures Current() == START && this.config == config
    {
      this.config := config;
      queue, closed, timer, flushes, batches, accepted, tracked, closers := [], false, false, 0, [], [], {}, [];
    }

    /** submit_step up to awaiting its future: refused when closed, otherwise queued, with a flush on its way. */
    method SubmitStep(step: StepItem) returns (ok: bool)
      modifies this
      ensures Current() == Next(old(Current()), Submit(step), config)
      ensures ok == !old(closed) && closed == old(closed) && batches == old(batches) && tracked == old(tracked)
          && closers == old(closers)
      ensures !ok ==> queue == old(queue) && accepted == old(accepted) && timer == old(timer) && flushes == old(flushes)
      ensures ok ==>
        && queue == old(queue) + [step] && accepted == old(accepted) + [step]
        && if |queue| >= config.maxItems || config.noWait then !timer && flushes == old(flushes) + 1
           else timer && flushes == old(flushes)
    {
      if closed {
        return false;
      }
      queue := queue + [step];
      accepted := accepted + [step];
      if |queue| >= config.maxItems || config.noWait {
        if timer {
          timer := false;
        }
        flushes := flushes + 1;
      } else if !timer {
        timer := true;
      }
      ok := true;
    }

    /** flush under the lock: cut the queue. */
    method Drain() returns (made: seq<Batch>)
      requires config.maxItems > 0
      modifies `queue, `timer
      ensures made == Cut(old(queue), config.maxItems, config.itemOf) && queue == [] && timer == false
      ensures NewBatches(made, old(queue), config)
    {
      hide NewBatches, Made;
      CutIsMade(queue, config);
      timer := false;
      made := [];
      ghost var all := Cut(queue, config.maxItems, config.itemOf);
      while queue != []
        invariant timer == false
        invariant made + Cut(queue, config.maxItems, config.itemOf) == all
        decreases |queue|
      {
        var n := if |queue| <= config.maxItems then |queue| else config.maxItems;
        CutNext(queue, config.maxItems, config.itemOf, n);
        ghost var rest := Cut(queue[n..], config.maxItems, config.itemOf);
        assert made + ([Made(queue[..n], config.itemOf)] + rest) == made + [Made(queue[..n], config.itemOf)] + rest;
        made := made + [Made(queue[..n], config.itemOf)];
        queue := queue[n..];
      }
      assert Cut([], config.maxItems, config.itemOf) == [];
      assert made + [] == made;
    }

    lemma CutNext(queue: seq<StepItem>, maxItems: nat, itemOf: NodeId -> ItemKey, n: nat)
      requires queue != [] && maxItems > 0 && n == if |queue| <= maxItems then |queue| else maxItems
      ensures Cut(queue, maxItems, itemOf) == [Made(queue[..n], itemOf)] + Cut(queue[n..], maxItems, itemOf)
    {
      assert n == |queue| ==> queue[..n] == queue && queue[n..] == [];
    }

    /** One task per batch, tracked; `own` are their numbers. */
    method Track(made: seq<Batch>) returns (own: set<nat>)
      modifies `batches, `tracked
      ensures batches == old(batches) + made && own == Range(|old(batches)|, |batches|) && tracked == old(tracked) + own
    {
      own := {};
      ghost var n := |batches|;
      for i := 0 to |made|
        invariant batches == old(batches) + made[..i] && own == Range(n, n + i) && tracked == old(tracked) + own
      {
        assert made[..i + 1] == made[..i] + [made[i]];
        own := own + {|batches|};
        tracked := tracked + {|batches|};
        batches := batches + [made[i]];
      }
      assert made[..|made|] == made;
    }

    /** flush: cut the queue under the lock, then create and track one task per batch; `own` are the tasks it awaits. */
    method Flush() returns (own: set<nat>, made: seq<Batch>)
      requires config.maxItems > 0
      modifies this
      ensures Current() == Flushed(old(Current()), config)
      ensures own == Range(|old(batches)|, |batches|)
      ensures queue == [] && !timer && accepted == old(accepted) && closed == old(closed) && flushes == old(flushes)
      ensures closers == old(closers) && batches == old(batches) + made && tracked == old(tracked) + own
      ensures NewBatches(made, old(queue), config)
      ensures forall i :: i in own <==> |old(batches)| <= i < |batches|
    {
      hide NewBatches, Cut;
      made := Drain();
      own := Track(made);
    }

    /** close up to its flush. */
    method CloseStart() returns (k: nat)
      modifies this
      ensures Current() == Next(old(Current()), Close, config) && k == |old(closers)|
      ensures closed && closers == old(closers) + [Marked] && queue == old(queue) && batches == old(batches)
          && tracked == old(tracked)
    {
      closed := true;
      k := |closers|;
      closers := closers + [Marked];
    }

    /** The flush of a call of close. */
    method CloseFlushes(k: nat) returns (own: set<nat>)
      requires config.maxItems > 0 && k < |closers| && closers[k] == Marked
      modifies this
      ensures Current() == Next(old(Current()), CloseFlush(k), config)
      ensures closers == old(closers)[k := Flushing(own)] && queue == []
      ensures forall i :: i in own <==> |old(batches)| <= i < |batches|
    {
      hide NewBatches, Cut;
      var made;
      own, made := Flush();
      closers := closers[k := Flushing(own)];
    }

    /** The batches of its flush are done; what it awaits now is a list of the tracked tasks. */
    method CloseGathers(k: nat)
      requires k < |closers| && closers[k].Flushing? && Done(batches, closers[k].own)
      modifies this
      ensures Current() == Next(old(Current()), CloseGather(k), config)
      ensures closers == old(closers)[k := Gathering(tracked)] && tracked == old(tracked) && batches == old(batches)
    {
      closers := closers[k := Gathering(tracked)];
    }

    /** A batch task inside the semaphore, up to its return. */
    method SendTask(b: nat, replies: seq<Reply>, during: seq<set<nat>>, asleep: seq<set<nat>>)
      returns (ghost gone: set<nat>)
      requires CanFinish(Current(), b) && StillOpen(batches[b])
      requires |replies| == |during| == |asleep| == config.retries + 1
      modifies `batches
      ensures Current() == Next(old(Current()), Finish(b, replies, gone), config)
    {
      hide Outcomes, SortedKeys;
      var futures;
      futures, gone := Send(batches[b], config.retries, replies, during, asleep);
      batches := batches[b := batches[b].(phase := Finished, held := 0, replies := replies, futures := futures)];
    }
  }
}
