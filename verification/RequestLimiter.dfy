/** The admission queue of exec requests (exec_request_limiter.py): a counter of open slots, a
    counter of queued requests, and a condition variable. Each step below is one section
    under the condition's lock, or the delivery of a cancellation. */
module RequestLimiter {
  type Request = nat

  /** The limiter with its requests: waiting in the condition's queue, notified and about to look again,
      cancelled and about to run the handler, or holding a slot. */
  datatype Limiter = Limiter(maxInFlight: int, maxQueued: int, inFlight: int, queued: int,
                             waiting: seq<Request>, notified: set<Request>, cancelling: set<Request>,
                             holders: set<Request>)

  datatype Action =
    | Arrive(r: Request)         // acquire up to its first wait: enter, be rejected, or queue
    | Wake(r: Request)           // a notified request looks at the counter again
    | CancelWaiter(r: Request)   // its task is cancelled, notified or not
    | HandleCancel(r: Request)   // the except branch
    | Release(r: Request)
    | Spurious                   // a notification nobody asked for

  predicate Bounded(s: Limiter) {
    s.maxInFlight >= 0
  }

  /** notify(1): the longest waiting request, if any, becomes runnable. */
  function Notify(s: Limiter): Limiter {
    if s.waiting == [] then s
    else s.(waiting := s.waiting[1..], notified := s.notified + {s.waiting[0]})
  }

  function Requests(s: Limiter): set<Request> {
    (set r | r in s.waiting) + s.notified + s.cancelling + s.holders
  }

  function Removed(waiting: seq<Request>, r: Request): seq<Request> {
    if waiting == [] then []
    else if waiting[0] == r then waiting[1..]
    else [waiting[0]] + Removed(waiting[1..], r)
  }

  predicate Rejects(s: Limiter) {
    Bounded(s) && s.inFlight >= s.maxInFlight && s.maxQueued >= 0 && s.queued >= s.maxQueued
  }

  function Entered(s: Limiter, r: Request): Limiter {
    s.(inFlight := s.inFlight + 1, holders := s.holders + {r})
  }

  function Arrived(s: Limiter, r: Request): Limiter {
    if !Bounded(s) || s.inFlight < s.maxInFlight then Entered(s, r)
    else if Rejects(s) then s
    else s.(queued := s.queued + 1, waiting := s.waiting + [r])
  }

  function Woken(s: Limiter, r: Request): Limiter {
    var s' := s.(notified := s.notified - {r});
    if s.inFlight >= s.maxInFlight then s'.(waiting := s.waiting + [r])
    else Entered(s'.(queued := s.queued - 1), r)
  }

  function CancelDelivered(s: Limiter, r: Request): Limiter {
    s.(waiting := Removed(s.waiting, r), notified := s.notified - {r}, cancelling := s.cancelling + {r})
  }

  function CancelHandled(s: Limiter, r: Request): Limiter {
    Notify(s.(queued := s.queued - 1, cancelling := s.cancelling - {r}))
  }

  function Released(s: Limiter, r: Request): Limiter {
    var s' := s.(inFlight := if s.inFlight > 1 then s.inFlight - 1 else 0, holders := s.holders - {r});
    if Bounded(s) then Notify(s') else s'
  }

  /** One step; a step that does not apply changes nothing. */
  function Next(s: Limiter, a: Action): Limiter {
    match a
    case Arrive(r) => if r in Requests(s) then s else Arrived(s, r)
    case Wake(r) => if r in s.notified then Woken(s, r) else s
    case CancelWaiter(r) => if r in s.waiting || r in s.notified then CancelDelivered(s, r) else s
    case HandleCancel(r) => if r in s.cancelling then CancelHandled(s, r) else s
    case Release(r) => if r in s.holders then Released(s, r) else s
    case Spurious => Notify(s)
  }

  function Run(s: Limiter, actions: seq<Action>): Limiter
    decreases |actions|
  {
    if actions == [] then s else Run(Next(s, actions[0]), actions[1..])
  }

  function Initial(maxInFlight: int, maxQueued: int): Limiter {
    Limiter(maxInFlight, maxQueued, 0, 0, [], {}, {}, {})
  }

  predicate Configured(maxInFlight: int, maxQueued: int) {
    (maxInFlight == -1 || maxInFlight > 0) && maxQueued >= -1
  }

  // ---------------------------------------------------------------- the invariant

  ghost predicate Distinct(waiting: seq<Request>) {
    forall i, j :: 0 <= i < j < |waiting| ==> waiting[i] != waiting[j]
  }

  /** Every request is in one place. */
  ghost predicate Apart(s: Limiter) {
    && Distinct(s.waiting)
    && (forall r :: r in s.waiting ==> r !in s.notified && r !in s.cancelling && r !in s.holders)
    && s.notified !! s.cancelling && s.notified !! s.holders && s.cancelling !! s.holders
  }

  /** The requests that will run without anybody doing anything. */
  function Runnable(s: Limiter): nat {
    |s.notified| + |s.cancelling|
  }

  function Free(s: Limiter): int {
    s.maxInFlight - s.inFlight
  }

  function Min(a: int, b: int): int {
    if a <= b then a else b
  }

  ghost predicate Inv(s: Limiter) {
    && Configured(s.maxInFlight, s.maxQueued) && Apart(s)
    && s.inFlight == |s.holders|
    && s.queued == |s.waiting| + Runnable(s)
    && (if Bounded(s) then
          && s.inFlight <= s.maxInFlight
          && (s.maxQueued >= 0 ==> s.queued <= s.maxQueued)
          && Runnable(s) >= Min(Free(s), s.queued)
        else s.queued == 0)
  }

  lemma {:induction false} RemovedOne(waiting: seq<Request>, r: Request)
    requires Distinct(waiting) && r in waiting
    ensures |Removed(waiting, r)| == |waiting| - 1 && Distinct(Removed(waiting, r))
    ensures forall q :: q in Removed(waiting, r) <==> q in waiting && q != r
  {
    if waiting[0] == r {
    } else {
      RemovedOne(waiting[1..], r);
      var rest := Removed(waiting[1..], r);
      assert forall i :: 0 <= i < |rest| ==> rest[i] in rest;
    }
  }

  /** The others keep their order. */
  lemma {:induction false} RemovedAt(waiting: seq<Request>, r: Request, k: nat)
    requires Distinct(waiting) && k < |waiting| && waiting[k] == r
    ensures Removed(waiting, r) == waiting[..k] + waiting[k + 1..]
  {
    if k == 0 {
    } else {
      assert waiting[0] != r;
      RemovedAt(waiting[1..], r, k - 1);
    }
  }

  lemma {:induction false} RemovedNone(waiting: seq<Request>, r: Request)
    requires r !in waiting
    ensures Removed(waiting, r) == waiting
  {
    if waiting == [] {
    } else {
      RemovedNone(waiting[1..], r);
    }
  }

  /** notify(1) makes one more request runnable, if one waits. */
  lemma NotifyKeeps(s: Limiter)
    requires Apart(s)
    ensures Apart(Notify(s))
    ensures |Notify(s).waiting| + Runnable(Notify(s)) == |s.waiting| + Runnable(s)
    ensures Runnable(Notify(s)) == Runnable(s) + (if s.waiting == [] then 0 else 1)
  {
    if s.waiting != [] {
      assert s.waiting[0] in s.waiting;
      assert forall i :: 0 <= i < |s.waiting[1..]| ==> s.waiting[1..][i] == s.waiting[i + 1];
    }
  }

  lemma ArrivedKeeps(s: Limiter, r: Request)
    requires Inv(s) && r !in Requests(s)
    ensures Inv(Arrived(s, r))
  {
    hide Requests, Apart;
    ArrivedApart(s, r);
  }

  lemma NotYetThere(s: Limiter, r: Request)
    requires r !in Requests(s)
    ensures r !in s.waiting && r !in s.holders
  {
    assert forall q :: q in s.waiting ==> q in Requests(s);
  }

  lemma ArrivedApart(s: Limiter, r: Request)
    requires Apart(s) && r !in Requests(s)
    ensures Apart(Arrived(s, r))
    ensures |s.holders + {r}| == |s.holders| + 1
  {
    assert forall q :: q in s.waiting ==> q in Requests(s);
    assert r !in s.notified && r !in s.cancelling && r !in s.holders;
    hide Requests;
    assert forall i :: 0 <= i < |s.waiting| ==> s.waiting[i] in s.waiting;
  }

  lemma WokenKeeps(s: Limiter, r: Request)
    requires Inv(s) && r in s.notified
    ensures Inv(Woken(s, r))
  {
    hide Apart;
    WokenApart(s, r);
  }

  lemma WokenApart(s: Limiter, r: Request)
    requires Apart(s) && r in s.notified
    ensures Apart(Woken(s, r))
    ensures |s.notified - {r}| == |s.notified| - 1 && |s.holders + {r}| == |s.holders| + 1
  {
    assert forall i :: 0 <= i < |s.waiting| ==> s.waiting[i] in s.waiting;
  }

  lemma CancelDeliveredKeeps(s: Limiter, r: Request)
    requires Inv(s) && (r in s.waiting || r in s.notified)
    ensures Inv(CancelDelivered(s, r))
    ensures CancelDelivered(s, r).inFlight == s.inFlight && CancelDelivered(s, r).queued == s.queued
  {
    hide Apart, Removed;
    CancelApart(s, r);
  }

  lemma CancelApart(s: Limiter, r: Request)
    requires Apart(s) && (r in s.waiting || r in s.notified)
    ensures Apart(CancelDelivered(s, r))
    ensures |CancelDelivered(s, r).waiting| + Runnable(CancelDelivered(s, r)) == |s.waiting| + Runnable(s)
    ensures Runnable(CancelDelivered(s, r)) >= Runnable(s)
  {
    if r in s.waiting {
      RemovedOne(s.waiting, r);
      assert s.notified - {r} == s.notified;
    } else {
      RemovedNone(s.waiting, r);
      assert |s.notified - {r}| == |s.notified| - 1;
    }
    hide Removed;
    assert |s.cancelling + {r}| == |s.cancelling| + 1;
  }

  lemma CancelHandledKeeps(s: Limiter, r: Request)
    requires Inv(s) && r in s.cancelling
    ensures Inv(CancelHandled(s, r))
  {
    var s' := s.(queued := s.queued - 1, cancelling := s.cancelling - {r});
    assert Apart(s') && Runnable(s') == Runnable(s) - 1;
    NotifyKeeps(s');
    hide Apart;
  }

  lemma ReleasedKeeps(s: Limiter, r: Request)
    requires Inv(s) && r in s.holders
    ensures Inv(Released(s, r))
  {
    var s' := s.(inFlight := if s.inFlight > 1 then s.inFlight - 1 else 0, holders := s.holders - {r});
    HolderGone(s, s', r);
    hide Apart;
    NotifyKeeps(s');
    assert s'.inFlight == |s'.holders|;
  }

  lemma HolderGone(s: Limiter, s': Limiter, r: Request)
    requires Apart(s) && r in s.holders && s' == s.(inFlight := s'.inFlight, holders := s.holders - {r})
    ensures Apart(s') && |s'.holders| == |s.holders| - 1 && Runnable(s') == Runnable(s)
  {}

  lemma NextKeepsInv(s: Limiter, a: Action)
    requires Inv(s)
    ensures Inv(Next(s, a))
  {
    match a
    case Arrive(r) => if r !in Requests(s) { ArrivedKeeps(s, r); }
    case Wake(r) => if r in s.notified { WokenKeeps(s, r); }
    case CancelWaiter(r) => if r in s.waiting || r in s.notified { CancelDeliveredKeeps(s, r); }
    case HandleCancel(r) => if r in s.cancelling { CancelHandledKeeps(s, r); }
    case Release(r) => if r in s.holders { ReleasedKeeps(s, r); }
    case Spurious =>
      NotifyKeeps(s);
      hide Apart;
  }

  lemma {:induction false} RunKeepsInv(s: Limiter, actions: seq<Action>)
    requires Inv(s)
    ensures Inv(Run(s, actions))
    decreases |actions|
  {
    if actions == [] {
    } else {
      NextKeepsInv(s, actions[0]);
      hide Inv, Next;
      RunKeepsInv(Next(s, actions[0]), actions[1..]);
    }
  }

  lemma InitialInv(maxInFlight: int, maxQueued: int)
    requires Configured(maxInFlight, maxQueued)
    ensures Inv(Initial(maxInFlight, maxQueued))
  {}

  // ---------------------------------------------------------------- what all runs promise

  /** Over every interleaving of arrivals, wake-ups, cancellations and releases: the open slots stay within
      max_in_flight and are counted exactly, the queue stays within max_queued and is counted exactly, and
      as many queued requests are runnable as there are free slots for them. */
  lemma NoLostWakeup(maxInFlight: int, maxQueued: int, actions: seq<Action>)
    requires Configured(maxInFlight, maxQueued)
    ensures
      var s := Run(Initial(maxInFlight, maxQueued), actions);
      && s.inFlight == |s.holders|
      && s.queued == |s.waiting| + |s.notified| + |s.cancelling|
      && (maxInFlight >= 0 ==> s.inFlight <= maxInFlight)
      && (maxInFlight >= 0 && maxQueued >= 0 ==> s.queued <= maxQueued)
      && (maxInFlight >= 0 ==> |s.notified| + |s.cancelling| >= Min(maxInFlight - s.inFlight, s.queued))
      && (maxInFlight >= 0 && s.inFlight < maxInFlight && s.queued > 0 ==> s.notified + s.cancelling != {})
  {
    hide Run, Inv;
    InitialInv(maxInFlight, maxQueued);
    RunKeepsInv(Initial(maxInFlight, maxQueued), actions);
    RunKeepsConfig(Initial(maxInFlight, maxQueued), actions);
    InvMeans(Run(Initial(maxInFlight, maxQueued), actions));
  }

  lemma InvMeans(s: Limiter)
    requires Inv(s)
    ensures s.inFlight == |s.holders| && s.queued == |s.waiting| + |s.notified| + |s.cancelling|
    ensures s.maxInFlight >= 0 ==>
      && s.inFlight <= s.maxInFlight && (s.maxQueued >= 0 ==> s.queued <= s.maxQueued)
      && |s.notified| + |s.cancelling| >= Min(s.maxInFlight - s.inFlight, s.queued)
      && (s.inFlight < s.maxInFlight && s.queued > 0 ==> s.notified + s.cancelling != {})
  {
    hide Apart;
    SomeoneRuns(s);
  }

  lemma SomeoneRuns(s: Limiter)
    ensures Runnable(s) > 0 ==> s.notified + s.cancelling != {}
  {
    assert s.notified <= s.notified + s.cancelling && s.cancelling <= s.notified + s.cancelling;
  }

  lemma {:induction false} RunKeepsConfig(s: Limiter, actions: seq<Action>)
    ensures Run(s, actions).maxInFlight == s.maxInFlight && Run(s, actions).maxQueued == s.maxQueued
    decreases |actions|
  {
    if actions == [] {
    } else {
      RunKeepsConfig(Next(s, actions[0]), actions[1..]);
    }
  }

  /** A step a runnable request takes by itself. */
  predicate Internal(s: Limiter, a: Action) {
    (a.Wake? && a.r in s.notified) || (a.HandleCancel? && a.r in s.cancelling)
  }

  predicate InternalRun(s: Limiter, actions: seq<Action>)
    decreases |actions|
  {
    actions != [] ==> Internal(s, actions[0]) && InternalRun(Next(s, actions[0]), actions[1..])
  }

  lemma InternalCounts(s: Limiter, a: Action)
    requires Inv(s) && Internal(s, a)
    ensures Next(s, a).queued + Runnable(Next(s, a)) < s.queued + Runnable(s)
  {
    match a
    case Wake(r) =>
      assert |s.notified - {r}| == |s.notified| - 1;
    case HandleCancel(r) =>
      var s' := s.(queued := s.queued - 1, cancelling := s.cancelling - {r});
      assert Apart(s') && Runnable(s') == Runnable(s) - 1;
      NotifyKeeps(s');
      hide Apart;
  }

  /** Left alone, the queue settles: the runnable requests stop after boundedly many steps, whatever their
      order, and then every slot is taken or nobody is queued. */
  lemma {:induction false} QueueSettles(s: Limiter, actions: seq<Action>)
    requires Inv(s) && InternalRun(s, actions)
    ensures |actions| <= s.queued + Runnable(s)
    ensures
      var t := Run(s, actions);
      Bounded(s) && Runnable(t) == 0 ==> t.inFlight == t.maxInFlight || t.queued == 0
    decreases |actions|
  {
    RunKeepsConfig(s, actions);
    RunKeepsInv(s, actions);
    if actions == [] {
    } else {
      InternalCounts(s, actions[0]);
      NextKeepsInv(s, actions[0]);
      hide Next, Inv;
      QueueSettles(Next(s, actions[0]), actions[1..]);
    }
  }

  /** A cancelled waiter leaves its place in the queue, the others keep their order. */
  lemma CancelTakesOut(s: Limiter, r: Request)
    requires Apart(s) && (r in s.waiting || r in s.notified)
    ensures
      var s1 := CancelDelivered(s, r);
      && (r !in s.waiting ==> s1.waiting == s.waiting)
      && (forall k :: 0 <= k < |s.waiting| && s.waiting[k] == r ==>
            s1.waiting == s.waiting[..k] + s.waiting[k + 1..])
      && r !in s1.waiting && r !in s1.notified
  {
    if r in s.waiting {
      RemovedOne(s.waiting, r);
    } else {
      RemovedNone(s.waiting, r);
    }
    forall k | 0 <= k < |s.waiting| && s.waiting[k] == r
      ensures Removed(s.waiting, r) == s.waiting[..k] + s.waiting[k + 1..]
    {
      RemovedAt(s.waiting, r, k);
    }
    hide Removed;
  }

  /** The except branch gives up its place in the queue and notifies the next. */
  lemma CancelHandsOn(s: Limiter, r: Request)
    ensures
      var s' := CancelHandled(s, r);
      && s'.maxInFlight == s.maxInFlight && s'.inFlight == s.inFlight && s'.holders == s.holders
      && s'.queued == s.queued - 1 && s'.cancelling == s.cancelling - {r}
      && s'.waiting == (if s.waiting == [] then [] else s.waiting[1..])
      && s'.notified == if s.waiting == [] then s.notified else s.notified + {s.waiting[0]}
  {}

  /** A cancelled waiter leaves nothing behind and hands its notification on. */
  lemma CancelLeavesNoTrace(s: Limiter, r: Request)
    requires Inv(s) && (r in s.waiting || r in s.notified)
    ensures
      var s1 := Next(s, CancelWaiter(r));
      var s2 := Next(s1, HandleCancel(r));
      && (r !in s.waiting ==> s1.waiting == s.waiting)
      && (forall k :: 0 <= k < |s.waiting| && s.waiting[k] == r ==>
            s1.waiting == s.waiting[..k] + s.waiting[k + 1..])
      && s2.inFlight == s.inFlight && s2.queued == s.queued - 1 && s2.holders == s.holders
      && s2.cancelling == s.cancelling
      && (if s1.waiting == [] then s2.waiting == [] && s2.notified == s.notified - {r}
          else s2.waiting == s1.waiting[1..] && s2.notified == s.notified - {r} + {s1.waiting[0]})
      && r !in s2.waiting && r !in s2.notified && r !in s2.cancelling
      && |s2.notified| + |s2.cancelling| >= Min(s.maxInFlight - s.inFlight, s2.queued)
  {
    hide Removed, Min, Distinct, CancelHandled;
    var s1 := CancelDelivered(s, r);
    CancelDeliveredKeeps(s, r);
    CancelHandledKeeps(s1, r);
    CancelTakesOut(s, r);
    CancelHandsOn(s1, r);
    assert r !in s.cancelling;
    hide Apart;
    assert s1.cancelling - {r} == s.cancelling;
    assert s1.waiting != [] ==> s1.waiting[0] in s1.waiting;
  }

  // ---------------------------------------------------------------- the limiter as it runs

  datatype Answer = Enters | Queues | Refused

  class ExecRequestLimiter {
    const maxInFlight: int
    const maxQueued: int
    var inFlight: int
    var queued: int
    var waiting: seq<Request>
    ghost var notified: set<Request>
    ghost var cancelling: set<Request>
    ghost var holders: set<Request>

    ghost function State(): Limiter
      reads this
    {
      Limiter(maxInFlight, maxQueued, inFlight, queued, waiting, notified, cancelling, holders)
    }

    constructor (maxInFlight: int, maxQueued: int)
      requires Configured(maxInFlight, maxQueued)
      ensures State() == Initial(maxInFlight, maxQueued)
    {
      this.maxInFlight, this.maxQueued := maxInFlight, maxQueued;
      inFlight, queued, waiting, notified, cancelling, holders := 0, 0, [], {}, {}, {};
    }

    method NotifyOne()
      modifies this`waiting, this`notified
      ensures State() == Notify(old(State()))
      ensures if old(waiting) == [] then waiting == [] && notified == old(notified)
          else waiting == old(waiting)[1..] && notified == old(notified) + {old(waiting)[0]}
    {
      if waiting != [] {
        notified := notified + {waiting[0]};
        waiting := waiting[1..];
      }
    }

    /** acquire, up to the first wait. */
    method Acquire(r: Request) returns (answer: Answer)
      requires Inv(State()) && r !in Requests(State())
      modifies this
      ensures State() == Next(old(State()), Arrive(r)) && Inv(State())
      ensures answer == Refused <==>
          maxInFlight >= 0 && old(inFlight) >= maxInFlight && maxQueued >= 0 && old(queued) >= maxQueued
      ensures answer == Enters <==> maxInFlight < 0 || old(inFlight) < maxInFlight
      ensures answer == Enters ==> inFlight == old(inFlight) + 1 && holders == old(holders) + {r}
      ensures answer != Enters ==> inFlight == old(inFlight) && holders == old(holders)
      ensures answer == Queues ==> queued == old(queued) + 1 && waiting == old(waiting) + [r]
      ensures answer != Queues ==> queued == old(queued) && waiting == old(waiting)
      ensures notified == old(notified) && cancelling == old(cancelling)
    {
      hide Inv, Requests;
      ArrivedKeeps(State(), r);
      NotYetThere(State(), r);
      if maxInFlight < 0 {
        inFlight := inFlight + 1;
        holders := holders + {r};
        return Enters;
      }
      if inFlight < maxInFlight {
        inFlight := inFlight + 1;
        holders := holders + {r};
        return Enters;
      }
      if maxQueued >= 0 && queued >= maxQueued {
        return Refused;
      }
      queued := queued + 1;
      waiting := waiting + [r];
      answer := Queues;
    }

    /** The waiting loop after a notification. */
    method Resume(r: Request) returns (entered: bool)
      requires Inv(State()) && r in notified
      modifies this
      ensures State() == Next(old(State()), Wake(r)) && Inv(State())
      ensures entered <==> old(inFlight) < maxInFlight
      ensures entered ==> inFlight == old(inFlight) + 1 && holders == old(holders) + {r}
      ensures entered ==> queued == old(queued) - 1 && waiting == old(waiting)
      ensures !entered ==> inFlight == old(inFlight) && holders == old(holders)
      ensures !entered ==> queued == old(queued) && waiting == old(waiting) + [r]
      ensures notified == old(notified) - {r} && cancelling == old(cancelling)
    {
      assert r !in holders;
      hide Inv;
      WokenKeeps(State(), r);
      notified := notified - {r};
      if inFlight >= maxInFlight {
        waiting := waiting + [r];
        entered := false;
      } else {
        queued := queued - 1;
        inFlight := inFlight + 1;
        holders := holders + {r};
        entered := true;
      }
    }

    /** The except branch of the waiting loop. */
    method GiveUp(r: Request)
      requires Inv(State()) && r in cancelling
      modifies this
      ensures State() == Next(old(State()), HandleCancel(r)) && Inv(State())
      ensures queued == old(queued) - 1 && cancelling == old(cancelling) - {r}
      ensures inFlight == old(inFlight) && holders == old(holders)
      ensures if old(waiting) == [] then waiting == [] && notified == old(notified)
          else waiting == old(waiting)[1..] && notified == old(notified) + {old(waiting)[0]}
    {
      CancelHandledKeeps(State(), r);
      hide Inv;
      queued := queued - 1;
      cancelling := cancelling - {r};
      NotifyOne();
    }

    method ReleaseSlot(r: Request)
      requires Inv(State()) && r in holders
      modifies this
      ensures State() == Next(old(State()), Release(r)) && Inv(State())
      ensures inFlight == old(inFlight) - 1 && holders == old(holders) - {r}
      ensures queued == old(queued) && cancelling == old(cancelling)
      ensures if maxInFlight < 0 || old(waiting) == [] then waiting == old(waiting) && notified == old(notified)
          else waiting == old(waiting)[1..] && notified == old(notified) + {old(waiting)[0]}
    {
      ReleasedKeeps(State(), r);
      hide Inv;
      holders := holders - {r};
      if maxInFlight < 0 {
        inFlight := if inFlight - 1 >= 0 then inFlight - 1 else 0;
        return;
      }
      inFlight := if inFlight - 1 >= 0 then inFlight - 1 else 0;
      NotifyOne();
    }
  }
}
