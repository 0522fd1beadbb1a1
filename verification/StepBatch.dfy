/** A step batch from request to response (exec_backends.py: execute_step_batch_process_pool): what the head of the
    batch answers at once, what it hands to the lanes, and the response slot by slot. */
module StepBatch {
  import opened Wrappers
  import opened Lifecycle
  import opened StateFiles
  import Store = StateStore
  import opened Lanes
  import opened StepScheduler
  import Routes = ExecRoutes
  import Items = ItemProtocol

  /** One item of the request. */
  datatype StepItem = StepItem(nodeId: string, token: Token, tactics: seq<string>)

  function TokensOf(request: seq<StepItem>): (r: seq<Token>)
    ensures |r| == |request|
  {
    seq(|request|, i requires 0 <= i < |request| => request[i].token)
  }

  /** The same status for every tactic of an item. */
  function StatusOf(item: StepItem, status: string): Answer {
    Answer(item.nodeId, seq(|item.tactics|, j requires 0 <= j < |item.tactics| => (item.tactics[j], status)))
  }

  /** The answer is about this item: one result per tactic, in order. */
  predicate AnswersItem(a: Answer, item: StepItem) {
    && a.nodeId == item.nodeId && |a.results| == |item.tactics|
    && forall j :: 0 <= j < |item.tactics| ==> a.results[j].0 == item.tactics[j]
  }

  /** What the head of the batch writes into a slot. */
  function SlotOf(item: StepItem, admission: Routes.Admission): Option<Answer> {
    match admission
    case InvalidToken => Some(StatusOf(item, "invalid_state_token"))
    case ItemCancelled => Some(StatusOf(item, "cancelled"))
    case Admitted(_, _, _) => None
  }

  function HeadSlots(request: seq<StepItem>, admissions: seq<Routes.Admission>): (r: seq<Option<Answer>>)
    requires |request| == |admissions|
    ensures |r| == |request|
  {
    seq(|request|, i requires 0 <= i < |request| => SlotOf(request[i], admissions[i]))
  }

  /** The k-th item, if it is admitted. */
  function ResolvedAt(request: seq<StepItem>, admissions: seq<Routes.Admission>, k: nat): (r: seq<Resolved>)
    requires k < |request| == |admissions|
    ensures |r| == (if admissions[k].Admitted? then 1 else 0) && forall x :: x in r ==> x.index == k
  {
    match admissions[k]
    case Admitted(item, envProfile, headerHash) =>
      [Resolved(k, request[k].nodeId, request[k].tactics, item, envProfile, headerHash)]
    case _ => []
  }

  /** The resolved items from the k-th on, in order of the request. */
  function ResolvedFrom(request: seq<StepItem>, admissions: seq<Routes.Admission>, k: nat): seq<Resolved>
    requires k <= |request| == |admissions|
    decreases |request| - k
  {
    if k == |request| then [] else ResolvedAt(request, admissions, k) + ResolvedFrom(request, admissions, k + 1)
  }

  /** A resolved item is an admitted one, with the environment its state was made in. */
  ghost predicate IsResolved(request: seq<StepItem>, admissions: seq<Routes.Admission>, r: Resolved)
    requires |request| == |admissions|
  {
    && r.index < |request| && admissions[r.index] == Routes.Admitted(r.item, r.envProfile, r.headerHash)
    && r.nodeId == request[r.index].nodeId && r.tactics == request[r.index].tactics
  }

  ghost predicate AllResolved(request: seq<StepItem>, admissions: seq<Routes.Admission>, items: seq<Resolved>)
    requires |request| == |admissions|
  {
    forall r :: r in items ==> IsResolved(request, admissions, r)
  }

  /** In order of the request, from its k-th item on. */
  ghost predicate InOrder(items: seq<Resolved>, k: nat) {
    && (forall r :: r in items ==> k <= r.index)
    && forall i, j :: 0 <= i < j < |items| ==> items[i].index < items[j].index
  }

  lemma OrderJoins(head: seq<Resolved>, rest: seq<Resolved>, k: nat)
    requires |head| <= 1 && (forall x :: x in head ==> x.index == k) && InOrder(rest, k + 1)
    ensures InOrder(head + rest, k)
  {
    var items := head + rest;
    forall i, j | 0 <= i < j < |items| ensures items[i].index < items[j].index {
      assert items[j] == rest[j - |head|] && items[j] in rest;
      if i < |head| {
        assert items[i] in head;
      } else {
        assert items[i] == rest[i - |head|];
      }
    }
  }

  /** Only admitted items are resolved, in order of the request. */
  lemma {:induction false} ResolvedInOrder(request: seq<StepItem>, admissions: seq<Routes.Admission>, k: nat)
    requires k <= |request| == |admissions|
    ensures AllResolved(request, admissions, ResolvedFrom(request, admissions, k))
    ensures InOrder(ResolvedFrom(request, admissions, k), k)
    decreases |request| - k
  {
    if k == |request| {
    } else {
      ResolvedInOrder(request, admissions, k + 1);
      var head, rest := ResolvedAt(request, admissions, k), ResolvedFrom(request, admissions, k + 1);
      assert AllResolved(request, admissions, head);
      hide IsResolved, InOrder;
      OrderJoins(head, rest, k);
      assert AllResolved(request, admissions, head + rest);
    }
  }

  /** Every admitted item is resolved. */
  lemma {:induction false} ResolvedHas(request: seq<StepItem>, admissions: seq<Routes.Admission>, k: nat, n: nat)
    requires k <= n < |request| == |admissions| && admissions[n].Admitted?
    ensures exists r :: r in ResolvedFrom(request, admissions, k) && r.index == n
    decreases |request| - k
  {
    var head, rest := ResolvedAt(request, admissions, k), ResolvedFrom(request, admissions, k + 1);
    if k == n {
      assert head[0] in head + rest;
    } else {
      ResolvedHas(request, admissions, k + 1, n);
      var r :| r in rest && r.index == n;
      assert r in head + rest;
    }
  }

  lemma EmptySlot(request: seq<StepItem>, admissions: seq<Routes.Admission>, r: Resolved)
    requires |request| == |admissions| && IsResolved(request, admissions, r)
    ensures r.index < |request| && HeadSlots(request, admissions)[r.index] == None
  {}

  /** What the head of the batch hands to the lanes fits the slots it leaves empty. */
  lemma ReadyForLanes(request: seq<StepItem>, admissions: seq<Routes.Admission>, items: seq<Resolved>)
    requires |request| == |admissions| && items == ResolvedFrom(request, admissions, 0)
    ensures forall i, j :: 0 <= i < j < |items| ==> items[i].index != items[j].index
    ensures forall i :: 0 <= i < |items| ==>
      items[i].index < |request| && HeadSlots(request, admissions)[items[i].index] == None
  {
    hide ResolvedFrom, HeadSlots, IsResolved;
    ResolvedInOrder(request, admissions, 0);
    forall i | 0 <= i < |items|
      ensures items[i].index < |request| && HeadSlots(request, admissions)[items[i].index] == None
    {
      assert items[i] in items;
      EmptySlot(request, admissions, items[i]);
    }
  }

  /** The state of the lanes when they start. */
  function LanesAtStart(request: seq<StepItem>, admissions: seq<Routes.Admission>, maxLanes: int): State
    requires |request| == |admissions|
  {
    Initial(Plan(GroupsOf(ResolvedFrom(request, admissions, 0)), maxLanes), HeadSlots(request, admissions))
  }

  lemma StartIs(request: seq<StepItem>, admissions: seq<Routes.Admission>, items: seq<Resolved>, maxLanes: int)
    requires |request| == |admissions| && items == ResolvedFrom(request, admissions, 0)
    ensures LanesAtStart(request, admissions, maxLanes)
         == Initial(Plan(GroupsOf(items), maxLanes), HeadSlots(request, admissions))
  {}

  /** An answer to a resolved item answers its item of the request. */
  lemma AnswerFits(request: seq<StepItem>, admissions: seq<Routes.Admission>, a: Answer, r: Resolved)
    requires |request| == |admissions| && IsResolved(request, admissions, r) && Answers(a, r)
    ensures AnswersItem(a, request[r.index]) && admissions[r.index].Admitted?
  {}

  lemma StatusFits(item: StepItem, admission: Routes.Admission)
    requires !admission.Admitted?
    ensures SlotOf(item, admission).Some? && AnswersItem(SlotOf(item, admission).value, item)
  {}

  /** The slot of an item is filled: by the head of the batch, or with the answer to the resolved item. */
  lemma SlotFilled(request: seq<StepItem>, admissions: seq<Routes.Admission>, items: seq<Resolved>,
                   slots: seq<Option<Answer>>, i: nat)
    requires i < |request| == |admissions| == |slots| && items == ResolvedFrom(request, admissions, 0)
    requires forall r :: r in items ==> r.index < |slots| && slots[r.index].Some? && Answers(slots[r.index].value, r)
    requires (forall r :: r in items ==> r.index != i) ==> slots[i] == SlotOf(request[i], admissions[i])
    ensures slots[i].Some? && AnswersItem(slots[i].value, request[i])
    ensures !admissions[i].Admitted? ==> slots[i] == SlotOf(request[i], admissions[i])
  {
    hide ResolvedFrom, SlotOf, IsResolved, Answers, AnswersItem, InOrder;
    ResolvedInOrder(request, admissions, 0);
    if admissions[i].Admitted? {
      ResolvedHas(request, admissions, 0, i);
      var r :| r in items && r.index == i;
      AnswerFits(request, admissions, slots[i].value, r);
    } else {
      StatusFits(request[i], admissions[i]);
      forall r | r in items ensures r.index != i {
        AnswerFits(request, admissions, slots[r.index].value, r);
      }
    }
  }

  ghost predicate AllDone(s: State) {
    forall l :: 0 <= l < |s.lanes| ==> s.lanes[l].phase == Done
  }

  /** One result per tactic, in order; and the status that the head of the batch gives, or what the step says that
      answered the item. */
  ghost predicate SaysWhatHappened(request: seq<StepItem>, reg: Registry, records: Records, now: int, start: State,
                                   actions: seq<Action>, i: nat, a: Answer)
    requires i < |request|
  {
    var item := request[i];
    && a.nodeId == item.nodeId && |a.results| == |item.tactics|
    && (forall j :: 0 <= j < |a.results| ==> a.results[j].0 == item.tactics[j])
    && if item.token !in records then forall j :: 0 <= j < |a.results| ==> a.results[j].1 == "invalid_state_token"
       else
         var owner := records[item.token].itemId;
         if owner in reg && reg[owner].status != Active
            && !(reg[owner].expiresAt.Some? && reg[owner].expiresAt.value <= now) then
           forall j :: 0 <= j < |a.results| ==> a.results[j].1 == "cancelled"
         else
           exists n: nat, r: Resolved ::
             && r.index == i && r.nodeId == item.nodeId && r.tactics == item.tactics
             && AnsweredBy(start, actions, n, r, a)
  }

  lemma SlotSays(request: seq<StepItem>, reg: Registry, records: Records, now: int, start: State,
                 admissions: seq<Routes.Admission>, actions: seq<Action>, items: seq<Resolved>,
                 slots: seq<Option<Answer>>, i: nat)
    requires i < |request| == |admissions| == |slots| && items == ResolvedFrom(request, admissions, 0)
    requires admissions == Routes.Admissions(reg, records, TokensOf(request), now)
    requires slots[i].Some? && AnswersItem(slots[i].value, request[i])
    requires !admissions[i].Admitted? ==> slots[i] == SlotOf(request[i], admissions[i])
    requires forall r :: r in items ==>
      && r.index < |slots| && slots[r.index].Some?
      && exists n: nat :: AnsweredBy(start, actions, n, r, slots[r.index].value)
    ensures SaysWhatHappened(request, reg, records, now, start, actions, i, slots[i].value)
  {
    hide ResolvedFrom, Routes.Admissions, AnsweredBy, InOrder;
    Routes.AdmissionsMean(reg, records, TokensOf(request), now);
    assert TokensOf(request)[i] == request[i].token;
    if admissions[i].Admitted? {
      ResolvedInOrder(request, admissions, 0);
      ResolvedHas(request, admissions, 0, i);
      var r :| r in items && r.index == i;
      assert IsResolved(request, admissions, r);
      var n: nat :| AnsweredBy(start, actions, n, r, slots[i].value);
    }
  }

  /** The whole batch, from the tokens of the request and the state of registry and store: whatever the interleaving
      of the lanes, when they are through every slot of the response answers its own item of the request, one result
      per tactic in order. Unknown tokens are answered as invalid, items that are closed as cancelled, and every other
      slot says what the one step of a lane that filled it says: the worker's statuses in order, or one status
      throughout. Every lease taken was given back. */
  lemma RequestAnswered(request: seq<StepItem>, reg: Registry, records: Records, now: int, maxLanes: int,
                        admissions: seq<Routes.Admission>, actions: seq<Action>)
    requires admissions == Routes.Admissions(reg, records, TokensOf(request), now)
    requires AllDone(Run(LanesAtStart(request, admissions, maxLanes), actions))
    ensures
      var s := Run(LanesAtStart(request, admissions, maxLanes), actions);
      && |s.slots| == |request| && s.taken == s.returned
      && forall i :: 0 <= i < |request| ==>
           && s.slots[i].Some?
           && SaysWhatHappened(request, reg, records, now, LanesAtStart(request, admissions, maxLanes), actions, i,
                               s.slots[i].value)
  {
    hide AnswersItem, SlotOf, StatusOf, Answers, Routes.Admissions, GroupsOf, AnsweredBy,
         SaysWhatHappened;
    var items, slots := ResolvedFrom(request, admissions, 0), HeadSlots(request, admissions);
    ReadyForLanes(request, admissions, items);
    StartIs(request, admissions, items, maxLanes);
    AllAnswered(items, maxLanes, slots, actions);
    var s := Run(LanesAtStart(request, admissions, maxLanes), actions);
    forall r | r in items
      ensures r.index < |slots| && s.slots[r.index].Some? && Answers(s.slots[r.index].value, r)
      ensures exists n: nat ::
        AnsweredBy(LanesAtStart(request, admissions, maxLanes), actions, n, r, s.slots[r.index].value)
    {
      var n :| 0 <= n < |items| && items[n] == r;
    }
    forall i | 0 <= i < |request|
      ensures s.slots[i].Some?
      ensures SaysWhatHappened(request, reg, records, now, LanesAtStart(request, admissions, maxLanes), actions, i,
                               s.slots[i].value)
    {
      assert (forall r :: r in items ==> r.index != i) ==> forall n :: 0 <= n < |items| ==> items[n].index != i;
      SlotFilled(request, admissions, items, s.slots, i);
      SlotSays(request, reg, records, now, LanesAtStart(request, admissions, maxLanes), admissions, actions, items,
               s.slots, i);
    }
  }

  /** The pinned entries of the batch are its admitted items, in order of the request. */
  function EntriesOf(tokens: seq<Token>, admissions: seq<Routes.Admission>): seq<Items.Entry>
    requires |tokens| == |admissions|
  {
    if tokens == [] then []
    else
      (if admissions[0].Admitted? then [Items.Entry(tokens[0], admissions[0].item)] else [])
      + EntriesOf(tokens[1..], admissions[1..])
  }

  lemma {:induction false} EntriesAreAdmitted(reg: Registry, records: Records, pins: map<Token, nat>,
                                              tokens: seq<Token>, now: int)
    ensures Items.BatchBegun(reg, Store.OwnerOf(records), pins, tokens, now).2
         == EntriesOf(tokens, Routes.Admissions(reg, records, tokens, now))
    decreases |tokens|
  {
    hide Begun, Store.Pin, Store.Unpin;
    if tokens == [] {
    } else {
      var t := tokens[0];
      var admissions := Routes.Admissions(reg, records, tokens, now);
      if t !in records {
        EntriesAreAdmitted(reg, records, pins, tokens[1..], now);
        assert admissions[1..] == Routes.Admissions(reg, records, tokens[1..], now);
        assert forall x: seq<Items.Entry> :: [] + x == x;
      } else {
        var (reg1, started) := Begun(reg, records[t].itemId, now);
        var pins1 := if started then Store.Pin(pins, t) else Store.Unpin(Store.Pin(pins, t), t);
        EntriesAreAdmitted(reg1, records, pins1, tokens[1..], now);
        assert admissions[1..] == Routes.Admissions(reg1, records, tokens[1..], now);
        assert forall x: seq<Items.Entry> :: [] + x == x;
      }
    }
  }
}
