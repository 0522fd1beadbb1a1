/** Sending one batch with overload retries (exec_env.py: _send_batch_with_overload_retries). */
module BatchRetries {
  import opened Wrappers

  type NodeId = string

  datatype StepItem = StepItem(nodeId: NodeId, stateToken: string, tactics: seq<string>)

  /** The answer about one item: the status of each of its tactics. */
  datatype StepResult = StepResult(nodeId: NodeId, statuses: seq<string>)

  /** What one call of env.step_batch comes to. */
  datatype Reply = Response(items: seq<StepResult>) | Overloaded(error: string) | Failed(error: string)

  /** A future: not completed, completed by the batcher, or completed (cancelled) by its owner. */
  datatype Future = Unset | Returned(result: StepResult) | Raised(error: string) | Gone

  predicate IsOverloaded(r: StepResult) {
    r.statuses != [] && forall s :: s in r.statuses ==> s == "overloaded"
  }

  /** results_by_node_id: of several results for a node the last one counts. */
  function ByNode(items: seq<StepResult>, node: NodeId): (r: Option<StepResult>)
    ensures r.Some? ==> r.value in items && r.value.nodeId == node
    ensures r.None? ==> forall x :: x in items ==> x.nodeId != node
  {
    if items == [] then None
    else if items[|items| - 1].nodeId == node then Some(items[|items| - 1])
    else ByNode(items[..|items| - 1], node)
  }

  // ---------------------------------------------------------------- what a step is owed

  /** Whether a reply leaves a node to be sent again. */
  predicate Leaves(reply: Reply, node: NodeId) {
    match reply
    case Response(items) => ByNode(items, node).Some? && IsOverloaded(ByNode(items, node).value)
    case Overloaded(_) => true
    case Failed(_) => false
  }

  /** What a reply settles for a node when it is not sent again. */
  function Final(reply: Reply, node: NodeId): Future {
    match reply
    case Response(items) =>
      (match ByNode(items, node)
       case None => Raised("backend response missing node_id " + node)
       case Some(r) => Returned(r))
    case Overloaded(e) => Raised(e)
    case Failed(e) => Raised(e)
  }

  /** Of several results for a node the last one counts. */
  lemma {:induction false} ByNodeIsLast(items: seq<StepResult>, node: NodeId, p: nat)
    requires p < |items| && items[p].nodeId == node && forall q :: p < q < |items| ==> items[q].nodeId != node
    ensures ByNode(items, node) == Some(items[p])
    decreases |items|
  {
    if p == |items| - 1 {
    } else {
      ByNodeIsLast(items[..|items| - 1], node, p);
    }
  }

  lemma {:induction false} ByNodeHasLast(items: seq<StepResult>, node: NodeId) returns (p: nat)
    requires ByNode(items, node).Some?
    ensures p < |items| && items[p].nodeId == node && forall q :: p < q < |items| ==> items[q].nodeId != node
    ensures ByNode(items, node) == Some(items[p])
    decreases |items|
  {
    if items[|items| - 1].nodeId == node {
      p := |items| - 1;
    } else {
      p := ByNodeHasLast(items[..|items| - 1], node);
    }
  }

  /** The whole request was overloaded, or the last result for the node has tactics, all of them overloaded. */
  ghost predicate OverloadedFor(reply: Reply, node: NodeId) {
    || reply.Overloaded?
    || (reply.Response? && exists p ::
          && 0 <= p < |reply.items| && reply.items[p].nodeId == node
          && (forall q :: p < q < |reply.items| ==> reply.items[q].nodeId != node)
          && reply.items[p].statuses != [] && forall s :: s in reply.items[p].statuses ==> s == "overloaded")
  }

  /** The error of a failed or overloaded request, the last result for the node, or an error when there is none. */
  ghost predicate SettledBy(future: Future, reply: Reply, node: NodeId) {
    match reply
    case Failed(e) => future == Raised(e)
    case Overloaded(e) => future == Raised(e)
    case Response(items) =>
      && ((forall x :: x in items ==> x.nodeId != node) ==>
            future == Raised("backend response missing node_id " + node))
      && (forall p ::
            && 0 <= p < |items| && items[p].nodeId == node
            && (forall q :: p < q < |items| ==> items[q].nodeId != node) ==>
              future == Returned(items[p]))
  }

  /** A reply leaves a node IFF the request was overloaded, or the last result for the node has tactics, all of them
      overloaded. */
  lemma LeavesIff(reply: Reply, node: NodeId)
    ensures Leaves(reply, node) <==> OverloadedFor(reply, node)
    ensures Leaves(reply, node) <==>
      || reply.Overloaded?
      || (reply.Response? && exists p ::
            && 0 <= p < |reply.items| && reply.items[p].nodeId == node
            && (forall q :: p < q < |reply.items| ==> reply.items[q].nodeId != node)
            && reply.items[p].statuses != [] && forall s :: s in reply.items[p].statuses ==> s == "overloaded")
  {
    if reply.Response? {
      forall p | 0 <= p < |reply.items| && reply.items[p].nodeId == node
          && (forall q :: p < q < |reply.items| ==> reply.items[q].nodeId != node)
        ensures ByNode(reply.items, node) == Some(reply.items[p])
      {
        ByNodeIsLast(reply.items, node, p);
      }
      hide ByNode;
      if ByNode(reply.items, node).Some? {
        var p := ByNodeHasLast(reply.items, node);
      }
    }
  }

  /** What settles a node: the error of the request, the last result for the node, or that there is none. */
  lemma FinalSettles(reply: Reply, node: NodeId)
    ensures forall f :: SettledBy(f, reply, node) <==> f == Final(reply, node)
    ensures reply.Failed? || reply.Overloaded? ==> Final(reply, node) == Raised(reply.error)
    ensures reply.Response? ==>
      && ((forall x :: x in reply.items ==> x.nodeId != node) ==>
            Final(reply, node) == Raised("backend response missing node_id " + node))
      && (forall p ::
            && 0 <= p < |reply.items| && reply.items[p].nodeId == node
            && (forall q :: p < q < |reply.items| ==> reply.items[q].nodeId != node) ==>
              Final(reply, node) == Returned(reply.items[p]))
  {
    if reply.Response? {
      forall p | 0 <= p < |reply.items| && reply.items[p].nodeId == node
          && (forall q :: p < q < |reply.items| ==> reply.items[q].nodeId != node)
        ensures ByNode(reply.items, node) == Some(reply.items[p])
      {
        ByNodeIsLast(reply.items, node, p);
      }
      if ByNode(reply.items, node).Some? {
        var p := ByNodeHasLast(reply.items, node);
      }
      hide ByNode;
    }
  }

  /** The outcome of a step by itself, whatever shares its batch. */
  function Fate(node: NodeId, replies: seq<Reply>, retries: nat, attempt: nat): Future
    requires attempt <= retries < |replies|
    decreases retries - attempt
  {
    if attempt < retries && Leaves(replies[attempt], node) then Fate(node, replies, retries, attempt + 1)
    else Final(replies[attempt], node)
  }

  /** Every reply before `attempt` left the node overloaded. */
  predicate LeftUntil(node: NodeId, replies: seq<Reply>, attempt: nat)
    requires attempt <= |replies|
  {
    forall b :: 0 <= b < attempt ==> Leaves(replies[b], node)
  }

  /** A step's outcome is settled by the first reply that does not leave it overloaded, or by the last one. */
  lemma {:induction false} FateIsFirstAnswer(node: NodeId, replies: seq<Reply>, retries: nat, attempt: nat, from: nat)
    requires from <= attempt <= retries < |replies| && LeftUntil(node, replies, attempt)
    requires attempt == retries || !Leaves(replies[attempt], node)
    ensures Fate(node, replies, retries, from) == Final(replies[attempt], node)
    decreases attempt - from
  {
    hide Leaves, Final;
    if from == attempt {
    } else {
      assert Leaves(replies[from], node);
      FateIsFirstAnswer(node, replies, retries, attempt, from + 1);
    }
  }

  /** Nobody gets somebody else's result, and an overloaded one only after the last attempt. */
  lemma {:induction false} FateIsOwn(node: NodeId, replies: seq<Reply>, retries: nat, attempt: nat)
    requires attempt <= retries < |replies|
    ensures
      var f := Fate(node, replies, retries, attempt);
      && f != Unset && f != Gone
      && (f.Returned? ==> f.result.nodeId == node)
      && (f.Returned? && IsOverloaded(f.result) ==> f == Final(replies[retries], node))
    decreases retries - attempt
  {
    if attempt == retries || !Leaves(replies[attempt], node) {
    } else {
      FateIsOwn(node, replies, retries, attempt + 1);
    }
  }

  // ---------------------------------------------------------------- the loop

  /** set_result and set_exception: completing a future twice is an error. */
  method Complete(futures: array<Future>, i: nat, outcome: Future)
    requires i < futures.Length && futures[i] == Unset && outcome != Unset
    modifies futures
    ensures futures[..] == old(futures[..])[i := outcome]
  {
    futures[i] := outcome;
  }

  /** While the loop waits, owners may complete their futures themselves. */
  method Elapse(futures: array<Future>, leaving: set<nat>)
    modifies futures
    ensures forall i :: 0 <= i < futures.Length ==>
              futures[i] == if i in leaving && old(futures[i]) == Unset then Gone else old(futures[i])
  {
    for i := 0 to futures.Length
      invariant forall j :: 0 <= j < futures.Length ==>
                  futures[j] == if j < i && j in leaving && old(futures[j]) == Unset then Gone else old(futures[j])
    {
      if i in leaving && futures[i] == Unset {
        futures[i] := Gone;
      }
    }
  }

  /** Indices into the batch, in order. */
  predicate Indices(pending: seq<nat>, n: nat) {
    && (forall k :: 0 <= k < |pending| ==> pending[k] < n)
    && forall k, l :: 0 <= k < l < |pending| ==> pending[k] < pending[l]
  }

  /** One reply, taken in by one step whose future is not completed yet: the step is kept or its future completed. */
  method TakeOne(futures: array<Future>, i: nat, nodeId: NodeId, reply: Reply, last: bool) returns (kept: bool)
    requires i < futures.Length && futures[i] == Unset
    modifies futures
    ensures kept == (!last && Leaves(reply, nodeId))
    ensures futures[..] == if kept then old(futures[..]) else old(futures[..])[i := Final(reply, nodeId)]
  {
    hide ByNode, IsOverloaded;
    kept := false;
    match reply
    case Overloaded(e) =>
      if last {
        Complete(futures, i, Raised(e));
      } else {
        kept := true;
      }
    case Failed(e) =>
      Complete(futures, i, Raised(e));
    case Response(items) =>
      var result := ByNode(items, nodeId);
      if result.None? {
        Complete(futures, i, Raised("backend response missing node_id " + nodeId));
      } else if IsOverloaded(result.value) && !last {
        kept := true;
      } else {
        Complete(futures, i, Returned(result.value));
      }
  }

  /** One reply, taken in by the pending steps whose futures are not completed yet. */
  method TakeReply(batch: seq<StepItem>, futures: array<Future>, pending: seq<nat>, reply: Reply, last: bool)
    returns (again: seq<nat>)
    requires futures.Length == |batch| && Indices(pending, |batch|)
    modifies futures
    ensures Indices(again, |batch|) && forall i :: i in again ==> i in pending
    ensures forall i :: 0 <= i < |batch| && i !in pending ==> futures[i] == old(futures[i])
    ensures forall i :: i in pending ==>
      if old(futures[i]) != Unset then futures[i] == old(futures[i]) && i !in again
      else if !last && Leaves(reply, batch[i].nodeId) then futures[i] == Unset && i in again
      else futures[i] == Final(reply, batch[i].nodeId) && i !in again
    ensures forall i :: i in pending && old(futures[i]) == Unset ==>
      && (i in again <==> !last && OverloadedFor(reply, batch[i].nodeId))
      && (i !in again ==> SettledBy(futures[i], reply, batch[i].nodeId))
  {
    hide Leaves, Final, OverloadedFor, SettledBy;
    again := [];
    for k := 0 to |pending|
      invariant Indices(again, |batch|)
      invariant forall i :: i in again ==> i in pending[..k]
      invariant forall i :: 0 <= i < |batch| && i !in pending[..k] ==> futures[i] == old(futures[i])
      invariant forall i :: i in pending[..k] ==>
        if old(futures[i]) != Unset then futures[i] == old(futures[i]) && i !in again
        else if !last && Leaves(reply, batch[i].nodeId) then futures[i] == Unset && i in again
        else futures[i] == Final(reply, batch[i].nodeId) && i !in again
    {
      var i := pending[k];
      assert pending[..k + 1] == pending[..k] + [i];
      assert forall l :: 0 <= l < |again| ==> again[l] in again;
      if futures[i] == Unset {
        ghost var before := futures[..];
        var kept := TakeOne(futures, i, batch[i].nodeId, reply, last);
        assert forall j :: 0 <= j < |batch| && j != i ==> futures[j] == before[j];
        assert futures[i] == futures[..][i];
        if kept {
          again := again + [i];
        }
      }
    }
    assert pending[..|pending|] == pending;
    forall i | i in pending
      ensures Leaves(reply, batch[i].nodeId) == OverloadedFor(reply, batch[i].nodeId)
      ensures SettledBy(Final(reply, batch[i].nodeId), reply, batch[i].nodeId)
    {
      LeavesIff(reply, batch[i].nodeId);
      FinalSettles(reply, batch[i].nodeId);
    }
  }

  ghost predicate Settled(batch: seq<StepItem>, futures: seq<Future>, replies: seq<Reply>, retries: nat, i: nat)
    requires i < |batch| == |futures| && retries < |replies|
  {
    futures[i] == Gone || futures[i] == Fate(batch[i].nodeId, replies, retries, 0)
  }

  /** Before an attempt: the pending steps are exactly those every reply so far left overloaded, apart from
      steps given up by their owners, and all others are settled. */
  ghost predicate Progress(batch: seq<StepItem>, futures: seq<Future>, replies: seq<Reply>, retries: nat, attempt: nat,
                           pending: seq<nat>)
    requires |futures| == |batch| && attempt <= retries < |replies|
  {
    && Indices(pending, |batch|)
    && (forall i :: i in pending ==>
        LeftUntil(batch[i].nodeId, replies, attempt) && (futures[i] == Unset || futures[i] == Gone))
    && (forall i :: 0 <= i < |batch| && i !in pending ==> Settled(batch, futures, replies, retries, i))
    && (forall i :: 0 <= i < |batch| && i !in pending && futures[i] != Gone ==>
        !LeftUntil(batch[i].nodeId, replies, attempt))
  }

  /** Step `i` is part of every attempt up to the first reply that does not leave it overloaded. */
  ghost predicate SentWhileLeft(node: NodeId, replies: seq<Reply>, retries: nat, sent: seq<seq<nat>>, i: nat)
    requires retries < |replies|
  {
    forall a :: 0 <= a <= retries && LeftUntil(node, replies, a) ==> a < |sent| && i in sent[a]
  }

  /** What was sent when: at each attempt only steps that every earlier reply left overloaded, and all of them
      that were not given up. */
  ghost predicate Trace(batch: seq<StepItem>, futures: seq<Future>, replies: seq<Reply>, sent: seq<seq<nat>>)
    requires |futures| == |batch| && |sent| <= |replies|
  {
    && (forall a :: 0 <= a < |sent| ==> Indices(sent[a], |batch|))
    && (forall a, i :: 0 <= a < |sent| && i in sent[a] ==> i < |batch| && LeftUntil(batch[i].nodeId, replies, a))
    && (forall a, i :: 0 <= a < |sent| && 0 <= i < |batch| && futures[i] != Gone ==>
        LeftUntil(batch[i].nodeId, replies, a) ==> i in sent[a])
  }

  /** One attempt seen from the pending steps: given up, left overloaded, or completed. */
  ghost predicate Attempted(batch: seq<StepItem>, f0: seq<Future>, f1: seq<Future>, reply: Reply, last: bool,
                            pending: seq<nat>, again: seq<nat>)
    requires |f0| == |f1| == |batch| && Indices(pending, |batch|)
  {
    && Indices(again, |batch|) && (forall i :: i in again ==> i in pending)
    && (forall i :: 0 <= i < |batch| && i !in pending ==> f1[i] == f0[i])
    && (forall i :: i in pending ==>
          if i in again then !last && Leaves(reply, batch[i].nodeId) && (f1[i] == Unset || f1[i] == Gone)
          else f1[i] == Gone || (f1[i] == Final(reply, batch[i].nodeId) && (last || !Leaves(reply, batch[i].nodeId))))
  }

  lemma AttemptKeeps(batch: seq<StepItem>, f0: seq<Future>, f1: seq<Future>, replies: seq<Reply>, retries: nat,
                     attempt: nat, pending: seq<nat>, again: seq<nat>)
    requires |f0| == |f1| == |batch| && attempt <= retries < |replies|
    requires Progress(batch, f0, replies, retries, attempt, pending)
    requires Attempted(batch, f0, f1, replies[attempt], attempt == retries, pending, again)
    ensures attempt < retries ==> Progress(batch, f1, replies, retries, attempt + 1, again)
    ensures attempt == retries ==> again == []
    ensures forall i :: 0 <= i < |batch| && i !in again ==> Settled(batch, f1, replies, retries, i)
  {
    hide Leaves, Final, Fate;
    if again != [] {
      assert again[0] in again;
    }
    forall i | 0 <= i < |batch| && i !in again ensures Settled(batch, f1, replies, retries, i) {
      if i in pending && f1[i] != Gone {
        FateIsFirstAnswer(batch[i].nodeId, replies, retries, attempt, 0);
      } else if i !in pending {
        assert Settled(batch, f0, replies, retries, i);
      }
    }
  }

  /** The attempt just made belongs to the trace. */
  lemma TraceKeeps(batch: seq<StepItem>, f0: seq<Future>, f1: seq<Future>, replies: seq<Reply>, retries: nat,
                   pending: seq<nat>, sent: seq<seq<nat>>)
    requires |f0| == |f1| == |batch| && |sent| <= retries < |replies|
    requires Trace(batch, f0, replies, sent) && Progress(batch, f0, replies, retries, |sent|, pending)
    requires forall i :: 0 <= i < |batch| && f1[i] != Gone ==> f0[i] != Gone
    ensures Trace(batch, f1, replies, sent + [pending])
  {
    hide LeftUntil, Settled;
  }

  lemma AtStart(batch: seq<StepItem>, futures: seq<Future>, replies: seq<Reply>, retries: nat, pending: seq<nat>)
    requires |futures| == |batch| == |pending| && retries < |replies|
    requires forall i :: 0 <= i < |batch| ==> (futures[i] == Unset || futures[i] == Gone) && pending[i] == i
    ensures Progress(batch, futures, replies, retries, 0, pending) && Trace(batch, futures, replies, [])
  {
    assert forall i :: 0 <= i < |batch| ==> pending[i] in pending;
  }

  lemma FinalIsNotGone(reply: Reply)
    ensures forall node :: Final(reply, node) != Gone && Final(reply, node) != Unset
  {}

  lemma OthersDone(batch: seq<StepItem>, futures: seq<Future>, replies: seq<Reply>, retries: nat, attempt: nat,
                   pending: seq<nat>)
    requires |futures| == |batch| && attempt <= retries < |replies|
    requires Progress(batch, futures, replies, retries, attempt, pending)
    ensures forall i :: 0 <= i < |batch| && i !in pending ==> futures[i] != Unset
    ensures Indices(pending, |batch|)
    ensures forall i :: i in pending ==> i < |batch| && (futures[i] == Unset || futures[i] == Gone)
  {
    forall i | 0 <= i < |batch| && i !in pending ensures futures[i] != Unset {
      assert Settled(batch, futures, replies, retries, i);
      FateIsOwn(batch[i].nodeId, replies, retries, 0);
    }
  }

  /** Owners may give up between two attempts. */
  lemma SleepKeeps(batch: seq<StepItem>, f0: seq<Future>, f1: seq<Future>, replies: seq<Reply>, retries: nat,
                   attempt: nat, pending: seq<nat>, sent: seq<seq<nat>>)
    requires |f0| == |f1| == |batch| && attempt <= retries < |replies| && |sent| <= |replies|
    requires Progress(batch, f0, replies, retries, attempt, pending) && Trace(batch, f0, replies, sent)
    requires forall i :: 0 <= i < |batch| ==> f1[i] == f0[i] || (f0[i] == Unset && f1[i] == Gone)
    ensures Progress(batch, f1, replies, retries, attempt, pending) && Trace(batch, f1, replies, sent)
  {
    OthersDone(batch, f0, replies, retries, attempt, pending);
    hide Leaves, Fate, LeftUntil;
    forall i | 0 <= i < |batch| && i !in pending ensures Settled(batch, f1, replies, retries, i) {
      assert Settled(batch, f0, replies, retries, i);
    }
  }

  /** Nothing is pending any more: the outcomes, and the whole trace. */
  lemma AtEnd(batch: seq<StepItem>, futures: seq<Future>, replies: seq<Reply>, retries: nat, attempt: nat,
              sent: seq<seq<nat>>)
    requires |futures| == |batch| && attempt <= retries < |replies| && |sent| == attempt + 1
    requires Trace(batch, futures, replies, sent)
    requires attempt < retries ==> Progress(batch, futures, replies, retries, attempt + 1, [])
    requires forall i :: 0 <= i < |batch| ==> Settled(batch, futures, replies, retries, i)
    ensures forall i :: 0 <= i < |batch| ==>
        futures[i] == Gone || futures[i] == Fate(batch[i].nodeId, replies, retries, 0)
    ensures forall i :: 0 <= i < |batch| && futures[i] != Gone ==>
        i in sent[0] && SentWhileLeft(batch[i].nodeId, replies, retries, sent, i)
  {
    hide Leaves, Fate;
    forall i | 0 <= i < |batch| ensures futures[i] == Gone || futures[i] == Fate(batch[i].nodeId, replies, retries, 0) {
      assert Settled(batch, futures, replies, retries, i);
    }
    forall i | 0 <= i < |batch| && futures[i] != Gone
      ensures i in sent[0] && SentWhileLeft(batch[i].nodeId, replies, retries, sent, i) {
      assert LeftUntil(batch[i].nodeId, replies, 0);
      assert attempt < retries ==> exists b :: 0 <= b <= attempt && !Leaves(replies[b], batch[i].nodeId);
    }
  }

  lemma SentAgain(batch: seq<StepItem>, futures: seq<Future>, replies: seq<Reply>, sent: seq<seq<nat>>, a: nat, b: nat,
                  i: nat)
    requires |futures| == |batch| && |sent| <= |replies| && Trace(batch, futures, replies, sent)
    requires b < a < |sent| && i in sent[a]
    ensures i < |batch| && Leaves(replies[b], batch[i].nodeId)
  {
    hide Leaves, Indices;
    assert LeftUntil(batch[i].nodeId, replies, a);
  }

  lemma LeftNext(node: NodeId, replies: seq<Reply>, a: nat)
    requires a < |replies|
    ensures LeftUntil(node, replies, a + 1) <==> LeftUntil(node, replies, a) && Leaves(replies[a], node)
  {}

  /** A step that is not given up is settled by the last reply it was sent for. */
  lemma LastSettles(batch: seq<StepItem>, futures: seq<Future>, replies: seq<Reply>, retries: nat,
                    sent: seq<seq<nat>>, a: nat, i: nat)
    requires |futures| == |batch| && |sent| <= retries + 1 == |replies| && Trace(batch, futures, replies, sent)
    requires a < |sent| && i in sent[a] && i < |batch| && futures[i] != Gone
    requires futures[i] == Fate(batch[i].nodeId, replies, retries, 0)
    requires SentWhileLeft(batch[i].nodeId, replies, retries, sent, i)
    requires a + 1 < |sent| ==> i !in sent[a + 1]
    ensures a == retries || !Leaves(replies[a], batch[i].nodeId)
    ensures futures[i] == Final(replies[a], batch[i].nodeId)
  {
    hide Leaves, Final, Fate, Indices;
    var node := batch[i].nodeId;
    assert LeftUntil(node, replies, a);
    LeftNext(node, replies, a);
    FateIsFirstAnswer(node, replies, retries, a, 0);
  }

  lemma TraceResends(batch: seq<StepItem>, futures: seq<Future>, replies: seq<Reply>, sent: seq<seq<nat>>)
    requires |futures| == |batch| && |sent| <= |replies| && Trace(batch, futures, replies, sent)
    requires forall a :: 0 < a < |sent| ==> sent[a] != []
    ensures forall a, b, i :: 0 <= b < a < |sent| && 0 <= i < |batch| && i in sent[a] ==>
      OverloadedFor(replies[b], batch[i].nodeId)
    ensures forall a :: 0 <= a < |sent| && replies[a].Failed? ==> |sent| == a + 1
  {
    hide Trace, Leaves, OverloadedFor;
    forall a, b, i | 0 <= b < a < |sent| && 0 <= i < |batch| && i in sent[a]
      ensures OverloadedFor(replies[b], batch[i].nodeId)
    {
      SentAgain(batch, futures, replies, sent, a, b, i);
      LeavesIff(replies[b], batch[i].nodeId);
    }
    forall a | 0 <= a < |sent| && replies[a].Failed? ensures |sent| == a + 1 {
      if a + 1 < |sent| {
        SentAgain(batch, futures, replies, sent, a + 1, a, sent[a + 1][0]);
        FailedIsNot(replies[a], batch[sent[a + 1][0]].nodeId);
      }
    }
  }

  lemma FailedIsNot(reply: Reply, node: NodeId)
    ensures reply.Failed? ==> !Leaves(reply, node)
  {}

  lemma TraceSettles(batch: seq<StepItem>, futures: seq<Future>, replies: seq<Reply>, retries: nat,
                     sent: seq<seq<nat>>)
    requires |futures| == |batch| && |sent| <= retries + 1 == |replies| && Trace(batch, futures, replies, sent)
    requires forall i :: 0 <= i < |batch| && futures[i] != Gone ==>
      && futures[i] == Fate(batch[i].nodeId, replies, retries, 0)
      && SentWhileLeft(batch[i].nodeId, replies, retries, sent, i)
    ensures forall a, i ::
      0 <= a < |sent| && i in sent[a] && i < |batch| && futures[i] != Gone && (a + 1 < |sent| ==> i !in sent[a + 1]) ==>
        && SettledBy(futures[i], replies[a], batch[i].nodeId)
        && (a == retries || !OverloadedFor(replies[a], batch[i].nodeId))
  {
    hide Trace, Fate, Leaves, Final, SentWhileLeft, OverloadedFor, SettledBy;
    forall a, i |
      0 <= a < |sent| && i in sent[a] && i < |batch| && futures[i] != Gone && (a + 1 < |sent| ==> i !in sent[a + 1])
      ensures SettledBy(futures[i], replies[a], batch[i].nodeId)
      ensures a == retries || !OverloadedFor(replies[a], batch[i].nodeId)
    {
      LastSettles(batch, futures, replies, retries, sent, a, i);
      FinalSettles(replies[a], batch[i].nodeId);
      LeavesIff(replies[a], batch[i].nodeId);
    }
  }

  /** A step whose first reply that is not an overload is a failure ends with that error; nothing is sent after it. */
  lemma FailureIsFinal(batch: seq<StepItem>, futures: seq<Future>, replies: seq<Reply>, retries: nat,
                       sent: seq<seq<nat>>)
    requires |futures| == |batch| && |sent| <= retries + 1 == |replies| && Trace(batch, futures, replies, sent)
    requires forall a :: 0 < a < |sent| ==> sent[a] != []
    requires forall i :: 0 <= i < |batch| && futures[i] != Gone ==>
      && futures[i] == Fate(batch[i].nodeId, replies, retries, 0)
      && SentWhileLeft(batch[i].nodeId, replies, retries, sent, i)
    ensures forall a, i ::
      0 <= a <= retries && 0 <= i < |batch| && futures[i] != Gone && replies[a].Failed?
        && (forall b :: 0 <= b < a ==> OverloadedFor(replies[b], batch[i].nodeId)) ==>
        futures[i] == Raised(replies[a].error) && |sent| == a + 1
  {
    hide Trace, Fate, Leaves, Final, OverloadedFor, SettledBy;
    TraceResends(batch, futures, replies, sent);
    TraceSettles(batch, futures, replies, retries, sent);
    forall a, i | 0 <= a <= retries && 0 <= i < |batch| && futures[i] != Gone && replies[a].Failed?
        && (forall b :: 0 <= b < a ==> OverloadedFor(replies[b], batch[i].nodeId))
      ensures futures[i] == Raised(replies[a].error) && |sent| == a + 1
    {
      var node := batch[i].nodeId;
      forall b | 0 <= b < a ensures Leaves(replies[b], node) {
        LeavesIff(replies[b], node);
      }
      assert LeftUntil(node, replies, a);
      FinalSettles(replies[a], node);
    }
  }

  /** Sends a batch until no step of it is pending. A step goes out again only after overloads, a failed request is
      the last one, and a step nobody gave up is settled by the last reply it was sent for. Owners may have completed
      their futures themselves before; `during` and `asleep` say whose do so while an attempt or the backoff after it is
      under way. */
  method SendBatch(batch: seq<StepItem>, futures: array<Future>, retries: nat, replies: seq<Reply>,
                   during: seq<set<nat>>, asleep: seq<set<nat>>, ghost quitters: set<nat>)
    returns (ghost sent: seq<seq<nat>>)
    requires futures.Length == |batch| && |replies| == |during| == |asleep| == retries + 1
    requires forall i :: 0 <= i < |batch| ==> futures[i] == Unset || (futures[i] == Gone && i in quitters)
    requires forall a :: 0 <= a <= retries ==> during[a] <= quitters && asleep[a] <= quitters
    modifies futures
    ensures forall i :: 0 <= i < |batch| ==>
      futures[i] == Fate(batch[i].nodeId, replies, retries, 0) || (futures[i] == Gone && i in quitters)
    ensures forall i :: 0 <= i < |batch| && old(futures[i]) == Gone ==> futures[i] == Gone
    ensures 0 < |sent| <= retries + 1 && Trace(batch, futures[..], replies, sent)
    ensures forall i :: 0 <= i < |batch| && futures[i] != Gone ==>
      i in sent[0] && SentWhileLeft(batch[i].nodeId, replies, retries, sent, i)
    ensures forall a, b, i :: 0 <= b < a < |sent| && 0 <= i < |batch| && i in sent[a] ==>
      OverloadedFor(replies[b], batch[i].nodeId)
    ensures forall a :: 0 <= a < |sent| && replies[a].Failed? ==> |sent| == a + 1
    ensures forall a, i ::
      0 <= a < |sent| && i in sent[a] && i < |batch| && futures[i] != Gone && (a + 1 < |sent| ==> i !in sent[a + 1]) ==>
        && SettledBy(futures[i], replies[a], batch[i].nodeId)
        && (a == retries || !OverloadedFor(replies[a], batch[i].nodeId))
    ensures forall a, i ::
      0 <= a <= retries && 0 <= i < |batch| && futures[i] != Gone && replies[a].Failed?
        && (forall b :: 0 <= b < a ==> OverloadedFor(replies[b], batch[i].nodeId)) ==>
        futures[i] == Raised(replies[a].error) && |sent| == a + 1
  {
    hide Leaves, Final, Fate, Settled, LeftUntil, SentWhileLeft, Indices, OverloadedFor, SettledBy,
         Trace, Progress;
    var pending: seq<nat> := seq(|batch|, i => i);
    var attempt := 0;
    sent := [];
    AtStart(batch, futures[..], replies, retries, pending);
    while true
      invariant attempt <= retries && |sent| == attempt
      invariant (attempt > 0 ==> pending != []) && forall a :: 0 < a < |sent| ==> sent[a] != []
      invariant Progress(batch, futures[..], replies, retries, attempt, pending)
      invariant Trace(batch, futures[..], replies, sent)
      invariant forall i :: 0 <= i < |batch| && futures[i] == Gone ==> i in quitters
      invariant forall i :: 0 <= i < |batch| && old(futures[i]) == Gone ==> futures[i] == Gone
      decreases retries - attempt
    {
      ghost var f0 := futures[..];
      OthersDone(batch, f0, replies, retries, attempt, pending);
      Elapse(futures, during[attempt]);
      var again := TakeReply(batch, futures, pending, replies[attempt], attempt == retries);
      ghost var f1 := futures[..];
      FinalIsNotGone(replies[attempt]);
      assert Attempted(batch, f0, f1, replies[attempt], attempt == retries, pending, again);
      AttemptKeeps(batch, f0, f1, replies, retries, attempt, pending, again);
      TraceKeeps(batch, f0, f1, replies, retries, pending, sent);
      sent := sent + [pending];
      assert Trace(batch, f1, replies, sent);
      if again == [] {
        AtEnd(batch, f1, replies, retries, attempt, sent);
        TraceResends(batch, f1, replies, sent);
        TraceSettles(batch, f1, replies, retries, sent);
        FailureIsFinal(batch, f1, replies, retries, sent);
        return;
      }
      Elapse(futures, asleep[attempt]);
      SleepKeeps(batch, f1, futures[..], replies, retries, attempt + 1, again, sent);
      pending := again;
      attempt := attempt + 1;
    }
  }
}
