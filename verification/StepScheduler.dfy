/** The lanes of a step batch (exec_backends.py: execute_step_batch_process_pool and its groups and lanes). Lanes
    run concurrently; each step below is what one lane does between two awaits. What the outside decides
    (is the item cancelled, is there a worker, what did it answer, is it alive) comes with the step. */
module StepScheduler {
  import opened Wrappers
  import opened Lifecycle
  import opened Lanes

  datatype Lease = Lease(id: nat, envProfile: string, headerHash: string)

  /** The answer to one request item: a status for each tactic. */
  datatype Answer = Answer(nodeId: string, results: seq<(string, string)>)

  datatype Phase =
    | Idle        // at the head of the loop
    | Leasing     // waiting for a worker
    | Stepping    // waiting for the worker's results
    | Done

  /** A lane with the answers it has written, one per item it is through with. */
  datatype Lane = Lane(items: seq<Resolved>, out: seq<Answer>, phase: Phase, lease: Option<Lease>)

  datatype Event =
    | Head(cancelled: bool)
    | Leased(id: nat, cancelled: bool)
    | Overloaded
    | Stepped(statuses: seq<string>, cancelled: bool, alive: bool)
    | StepRaised(alive: bool)
    | Leave

  datatype Action = Action(lane: nat, event: Event)

  /** The lanes, the slots of the response, and the leases taken and given back so far. */
  datatype State = State(lanes: seq<Lane>, slots: seq<Option<Answer>>, taken: multiset<Lease>,
                         returned: multiset<Lease>)

  // ---------------------------------------------------------------- one lane

  /** _item_status_result: the same status for every tactic. */
  function StatusAnswer(r: Resolved, status: string): Answer {
    Answer(r.nodeId, seq(|r.tactics|, i requires 0 <= i < |r.tactics| => (r.tactics[i], status)))
  }

  /** _step_batch_result_from_worker_results: the worker answers every tactic, in order. */
  function WorkerAnswer(r: Resolved, statuses: seq<string>): Answer
    requires |statuses| == |r.tactics|
  {
    Answer(r.nodeId, seq(|r.tactics|, i requires 0 <= i < |r.tactics| => (r.tactics[i], statuses[i])))
  }

  predicate Answers(a: Answer, r: Resolved) {
    && a.nodeId == r.nodeId && |a.results| == |r.tactics|
    && forall i :: 0 <= i < |r.tactics| ==> a.results[i].0 == r.tactics[i]
  }

  predicate AtItem(lane: Lane) {
    |lane.out| < |lane.items|
  }

  function Current(lane: Lane): Resolved
    requires AtItem(lane)
  {
    lane.items[|lane.out|]
  }

  /** Whether a step is possible for a lane. */
  predicate Enabled(lane: Lane, e: Event) {
    match e
    case Head(_) => lane.phase == Idle && AtItem(lane)
    case Leased(_, _) => lane.phase == Leasing && AtItem(lane)
    case Overloaded => lane.phase == Leasing && AtItem(lane)
    case Stepped(statuses, _, _) => lane.phase == Stepping && AtItem(lane) && |statuses| == |Current(lane).tactics|
    case StepRaised(_) => lane.phase == Stepping && AtItem(lane)
    case Leave => lane.phase == Idle && !AtItem(lane)
  }

  /** What a step writes into the slot of the current item, if anything. */
  function Written(lane: Lane, e: Event): Option<Answer>
    requires Enabled(lane, e)
  {
    match e
    case Head(cancelled) => if cancelled then Some(StatusAnswer(Current(lane), "cancelled")) else None
    case Leased(_, cancelled) => if cancelled then Some(StatusAnswer(Current(lane), "cancelled")) else None
    case Overloaded => Some(StatusAnswer(Current(lane), "overloaded"))
    case Stepped(statuses, cancelled, _) =>
      Some(if cancelled then StatusAnswer(Current(lane), "cancelled") else WorkerAnswer(Current(lane), statuses))
    case StepRaised(_) => Some(StatusAnswer(Current(lane), "error"))
    case Leave => None
  }

  /** Which steps answer the current item, and with what: the statuses of the worker tactic by tactic, or one status
      throughout. */
  lemma WrittenSays(lane: Lane, e: Event)
    requires Enabled(lane, e)
    ensures Written(lane, e).Some? <==>
      || e.Overloaded? || e.StepRaised? || e.Stepped? || (e.Head? && e.cancelled) || (e.Leased? && e.cancelled)
    ensures Written(lane, e).Some? ==>
      var r, a := lane.items[|lane.out|], Written(lane, e).value;
      && a.nodeId == r.nodeId && |a.results| == |r.tactics|
      && forall j :: 0 <= j < |a.results| ==>
           && a.results[j].0 == r.tactics[j]
           && a.results[j].1 ==
              if e.Overloaded? then "overloaded"
              else if e.StepRaised? then "error"
              else if e.Stepped? && !e.cancelled then e.statuses[j]
              else "cancelled"
  {}

  /** The lease a lane holds after a step: kept along the lane, given back when its worker died or the lane ends. */
  function LeaseAfter(lane: Lane, e: Event): Option<Lease>
    requires Enabled(lane, e)
  {
    match e
    case Leased(id, _) => Some(Lease(id, Current(lane).envProfile, Current(lane).headerHash))
    case Stepped(_, _, alive) => if alive then lane.lease else None
    case StepRaised(alive) => if alive then lane.lease else None
    case Leave => None
    case _ => lane.lease
  }

  function PhaseAfter(lane: Lane, e: Event): Phase
    requires Enabled(lane, e)
  {
    match e
    case Head(cancelled) => if cancelled then Idle else if lane.lease.None? then Leasing else Stepping
    case Leased(_, cancelled) => if cancelled then Idle else Stepping
    case Leave => Done
    case _ => Idle
  }

  function LaneNext(lane: Lane, e: Event): Lane {
    if !Enabled(lane, e) then lane
    else
      Lane(lane.items, lane.out + (if Written(lane, e).Some? then [Written(lane, e).value] else []),
          PhaseAfter(lane, e), LeaseAfter(lane, e))
  }

  // ---------------------------------------------------------------- all lanes

  function AsBag(lease: Option<Lease>): multiset<Lease> {
    if lease.Some? then multiset{lease.value} else multiset{}
  }

  /** One step; a step that is not possible changes nothing. */
  function Next(s: State, a: Action): State {
    if a.lane >= |s.lanes| || !Enabled(s.lanes[a.lane], a.event) then s
    else
      var lane := s.lanes[a.lane];
      var w := Written(lane, a.event);
      State(s.lanes[a.lane := LaneNext(lane, a.event)],
            if w.Some? && Current(lane).index < |s.slots| then s.slots[Current(lane).index := w] else s.slots,
            s.taken + if a.event.Leased? then AsBag(LeaseAfter(lane, a.event)) else multiset{},
            s.returned + if LeaseAfter(lane, a.event).None? then AsBag(lane.lease) else multiset{})
  }

  function Run(s: State, actions: seq<Action>): State
    decreases |actions|
  {
    if actions == [] then s else Run(Next(s, actions[0]), actions[1..])
  }

  /** The lanes of all groups. */
  function Plan(groups: seq<Group>, maxLanes: int): seq<seq<Resolved>> {
    if groups == [] then [] else LanesOf(groups[0].items, maxLanes) + Plan(groups[1..], maxLanes)
  }

  function Initial(plan: seq<seq<Resolved>>, slots: seq<Option<Answer>>): State {
    State(seq(|plan|, l requires 0 <= l < |plan| => Lane(plan[l], [], Idle, None)), slots, multiset{}, multiset{})
  }

  // ---------------------------------------------------------------- the plan

  predicate Place(plan: seq<seq<Resolved>>, l: nat, k: nat) {
    l < |plan| && k < |plan[l]|
  }

  /** Every item has a place of its own. */
  ghost predicate OnePlaceEach(plan: seq<seq<Resolved>>) {
    forall l: nat, k: nat, m: nat, n: nat ::
      Place(plan, l, k) && Place(plan, m, n) && plan[l][k].index == plan[m][n].index ==> l == m && k == n
  }

  /** All items of a lane have one environment and one header. */
  predicate Homogeneous(lane: seq<Resolved>) {
    forall i, j :: 0 <= i < |lane| && 0 <= j < |lane| ==> KeyOf(lane[i]) == KeyOf(lane[j])
  }

  /** The lanes of a group are those its items are dealt to; the groups follow one another. */
  lemma {:induction false} PlanJoins(a: seq<Group>, b: seq<Group>, maxLanes: int)
    ensures Plan(a + b, maxLanes) == Plan(a, maxLanes) + Plan(b, maxLanes)
    ensures |a| == 1 ==> Plan(a, maxLanes) == LanesOf(a[0].items, maxLanes)
  {
    hide LanesOf;
    if a == [] {
      assert a + b == b;
    } else {
      PlanJoins(a[1..], b, maxLanes);
      assert (a + b)[0] == a[0] && (a + b)[1..] == a[1..] + b;
      assert |a| == 1 ==> a[1..] == [];
    }
  }

  lemma {:induction false} PlanKeeps(groups: seq<Group>, maxLanes: int)
    ensures multiset(Flat(Plan(groups, maxLanes))) == multiset(Flat(ItemsOf(groups)))
  {
    if groups == [] {
    } else {
      PlanKeeps(groups[1..], maxLanes);
      FlatAppend(LanesOf(groups[0].items, maxLanes), Plan(groups[1..], maxLanes));
      assert ItemsOf(groups) == [groups[0].items] + ItemsOf(groups[1..]);
      if groups[0].items != [] {
        DealtKeeps(groups[0].items, LaneCount(|groups[0].items|, maxLanes));
      }
    }
  }

  lemma {:induction false} LaneFromItems(items: seq<Resolved>, j: nat, n: nat)
    requires n > 0
    ensures forall r :: r in LaneOf(items, j, n) ==> r in items
  {
    if items == [] {
    } else {
      LaneFromItems(items[..|items| - 1], j, n);
    }
  }

  lemma {:induction false} PlanHomogeneous(groups: seq<Group>, maxLanes: int)
    requires forall g :: 0 <= g < |groups| ==> forall r :: r in groups[g].items ==> KeyOf(r) == groups[g].key
    ensures forall l :: 0 <= l < |Plan(groups, maxLanes)| ==> Homogeneous(Plan(groups, maxLanes)[l])
  {
    if groups == [] {
    } else {
      PlanHomogeneous(groups[1..], maxLanes);
      var items, lanes := groups[0].items, LanesOf(groups[0].items, maxLanes);
      forall l | 0 <= l < |lanes| ensures Homogeneous(lanes[l]) {
        LaneFromItems(items, l, LaneCount(|items|, maxLanes));
        assert forall r :: r in lanes[l] ==> KeyOf(r) == groups[0].key;
      }
    }
  }

  lemma {:induction false} TwoPlaces(plan: seq<seq<Resolved>>, l: nat, k: nat, m: nat, n: nat)
    requires l < |plan| && k < |plan[l]| && m < |plan| && n < |plan[m]| && plan[l][k] == plan[m][n]
    ensures plan[l][k] in multiset(Flat(plan))
    ensures (l, k) != (m, n) ==> multiset(Flat(plan))[plan[l][k]] >= 2
  {
    if l > 0 && m > 0 {
      TwoPlaces(plan[1..], l - 1, k, m - 1, n);
    } else if l > 0 {
      TwoPlaces(plan[1..], l - 1, k, l - 1, k);
    } else if m > 0 {
      TwoPlaces(plan[1..], m - 1, n, m - 1, n);
    } else if k < n {
      TwiceIn(plan[0], k, n);
    } else if n < k {
      TwiceIn(plan[0], n, k);
    }
  }

  lemma TwiceIn(lane: seq<Resolved>, i: nat, j: nat)
    requires i < j < |lane| && lane[i] == lane[j]
    ensures multiset(lane)[lane[i]] >= 2
  {
    assert lane == lane[..j] + [lane[j]] + lane[j + 1..];
    assert lane[i] in lane[..j];
  }

  lemma {:induction false} AtMostOnceIn(items: seq<Resolved>, x: Resolved)
    requires forall i, j :: 0 <= i < j < |items| ==> items[i].index != items[j].index
    ensures multiset(items)[x] <= 1
  {
    if items == [] {
    } else {
      AtMostOnceIn(items[1..], x);
      assert items == [items[0]] + items[1..];
      assert x == items[0] ==> x !in items[1..];
    }
  }

  /** Two places of a plan that holds the items once each hold different items. */
  lemma SamePlace(plan: seq<seq<Resolved>>, items: seq<Resolved>, l: nat, k: nat, m: nat, n: nat)
    requires multiset(Flat(plan)) == multiset(items)
    requires forall i, j :: 0 <= i < j < |items| ==> items[i].index != items[j].index
    requires Place(plan, l, k) && Place(plan, m, n) && plan[l][k].index == plan[m][n].index
    ensures l == m && k == n
  {
    hide Flat;
    TwoPlaces(plan, l, k, l, k);
    TwoPlaces(plan, m, n, m, n);
    assert plan[l][k] in items && plan[m][n] in items;
    assert plan[l][k] == plan[m][n];
    TwoPlaces(plan, l, k, m, n);
    AtMostOnceIn(items, plan[l][k]);
  }

  /** Grouping and dealing put every item in exactly one place, and only items of one environment and header in a
      lane. */
  lemma PlanIsSound(items: seq<Resolved>, maxLanes: int)
    requires forall i, j :: 0 <= i < j < |items| ==> items[i].index != items[j].index
    ensures
      var plan := Plan(GroupsOf(items), maxLanes);
      && OnePlaceEach(plan) && multiset(Flat(plan)) == multiset(items)
      && forall l :: 0 <= l < |plan| ==> Homogeneous(plan[l])
  {
    var groups := GroupsOf(items);
    forall g | 0 <= g < |groups| ensures forall r :: r in groups[g].items ==> KeyOf(r) == groups[g].key {
      OfKeyOk(items, FirstKeys(items)[g]);
    }
    hide Plan, GroupsOf, Flat, ItemsOf, Homogeneous;
    var plan := Plan(groups, maxLanes);
    PlanKeeps(groups, maxLanes);
    GroupsKeep(items);
    PlanHomogeneous(groups, maxLanes);
    assert OnePlaceEach(plan) by {
      forall l: nat, k: nat, m: nat, n: nat
        | Place(plan, l, k) && Place(plan, m, n) && plan[l][k].index == plan[m][n].index
        ensures l == m && k == n
      {
        SamePlace(plan, items, l, k, m, n);
      }
    }
  }

  // ---------------------------------------------------------------- the invariant

  /** A lane: its answers answer its items, and a lease it holds fits all of them. */
  ghost predicate LaneOk(lane: Lane) {
    && |lane.out| <= |lane.items|
    && (forall k :: 0 <= k < |lane.out| ==> Answers(lane.out[k], lane.items[k]))
    && (lane.phase == Leasing ==> AtItem(lane) && lane.lease.None?)
    && (lane.phase == Stepping ==> AtItem(lane) && lane.lease.Some?)
    && (lane.phase == Done ==> !AtItem(lane) && lane.lease.None?)
    && (lane.lease.Some? ==> forall k :: 0 <= k < |lane.items| ==>
        (lane.lease.value.envProfile, lane.lease.value.headerHash) == KeyOf(lane.items[k]))
  }

  lemma LaneNextKeeps(lane: Lane, e: Event)
    requires LaneOk(lane) && Homogeneous(lane.items)
    ensures LaneOk(LaneNext(lane, e))
  {
    if Enabled(lane, e) && AtItem(lane) {
      hide Homogeneous;
      assert Written(lane, e).Some? ==> Answers(Written(lane, e).value, Current(lane));
      hide Answers, WorkerAnswer, StatusAnswer;
      if e.Leased? {
        SameKeys(lane.items, |lane.out|);
      }
    }
  }

  lemma SameKeys(items: seq<Resolved>, j: nat)
    requires Homogeneous(items) && j < |items|
    ensures forall k :: 0 <= k < |items| ==> KeyOf(items[k]) == KeyOf(items[j])
  {}

  /** The leases the lanes hold. */
  function HeldBag(lanes: seq<Lane>): multiset<Lease> {
    if lanes == [] then multiset{} else AsBag(lanes[0].lease) + HeldBag(lanes[1..])
  }

  lemma {:induction false} HeldUpdate(lanes: seq<Lane>, l: nat, x: Lane)
    requires l < |lanes|
    ensures HeldBag(lanes[l := x]) + AsBag(lanes[l].lease) == HeldBag(lanes) + AsBag(x.lease)
  {
    hide AsBag;
    if l > 0 {
      HeldUpdate(lanes[1..], l - 1, x);
      assert lanes[l := x][1..] == lanes[1..][l - 1 := x];
      var a, b, d := AsBag(lanes[0].lease), HeldBag(lanes[1..][l - 1 := x]), HeldBag(lanes[1..]);
      assert HeldBag(lanes[l := x]) == a + b && HeldBag(lanes) == a + d;
      assert a + b + AsBag(lanes[l].lease) == a + (b + AsBag(lanes[l].lease));
      assert a + d + AsBag(x.lease) == a + (d + AsBag(x.lease));
    } else {
      assert lanes[0 := x][1..] == lanes[1..];
    }
  }

  lemma {:induction false} NoneHeld(lanes: seq<Lane>)
    requires forall l :: 0 <= l < |lanes| ==> lanes[l].lease.None?
    ensures HeldBag(lanes) == multiset{}
  {
    if lanes == [] {
    } else {
      NoneHeld(lanes[1..]);
    }
  }

  ghost predicate LanesOk(s: State, plan: seq<seq<Resolved>>) {
    |s.lanes| == |plan| && forall l :: 0 <= l < |plan| ==> s.lanes[l].items == plan[l] && LaneOk(s.lanes[l])
  }

  /** Slots hold what the lanes have answered; all others are as they were. */
  ghost predicate SlotsOk(s: State, plan: seq<seq<Resolved>>, slots: seq<Option<Answer>>)
    requires LanesOk(s, plan)
  {
    && |s.slots| == |slots|
    && (forall l: nat, k: nat :: Place(plan, l, k) ==>
          && plan[l][k].index < |slots|
          && s.slots[plan[l][k].index] == if k < |s.lanes[l].out| then Some(s.lanes[l].out[k]) else None)
    && (forall i :: 0 <= i < |slots| && !HasPlace(plan, i) ==> s.slots[i] == slots[i])
  }

  ghost predicate HasPlace(plan: seq<seq<Resolved>>, i: int) {
    exists l: nat, k: nat :: Place(plan, l, k) && plan[l][k].index == i
  }

  ghost predicate Inv(s: State, plan: seq<seq<Resolved>>, slots: seq<Option<Answer>>) {
    LanesOk(s, plan) && SlotsOk(s, plan, slots) && s.taken == s.returned + HeldBag(s.lanes)
  }

  /** A plan of items whose slots are still empty. */
  ghost predicate PlanOk(plan: seq<seq<Resolved>>, slots: seq<Option<Answer>>) {
    && OnePlaceEach(plan) && (forall l :: 0 <= l < |plan| ==> Homogeneous(plan[l]))
    && forall l: nat, k: nat :: Place(plan, l, k) ==> plan[l][k].index < |slots| && slots[plan[l][k].index] == None
  }

  lemma InitialInv(plan: seq<seq<Resolved>>, slots: seq<Option<Answer>>)
    requires PlanOk(plan, slots)
    ensures Inv(Initial(plan, slots), plan, slots)
  {
    NoneHeld(Initial(plan, slots).lanes);
    hide OnePlaceEach, Homogeneous;
  }

  lemma LeaseCases(lane: Lane, e: Event)
    requires LaneOk(lane) && Enabled(lane, e)
    ensures LaneNext(lane, e).lease == LeaseAfter(lane, e)
    ensures if e.Leased? then lane.lease.None? && LeaseAfter(lane, e).Some?
            else LeaseAfter(lane, e) == lane.lease || LeaseAfter(lane, e).None?
  {}

  lemma LeasesKeep(s: State, a: Action)
    requires a.lane < |s.lanes| && LaneOk(s.lanes[a.lane]) && Enabled(s.lanes[a.lane], a.event)
    requires s.taken == s.returned + HeldBag(s.lanes)
    ensures Next(s, a).taken == Next(s, a).returned + HeldBag(Next(s, a).lanes)
  {
    hide LaneOk, Enabled, LaneNext, LeaseAfter, HeldBag, Written;
    var lane := s.lanes[a.lane];
    var next := LaneNext(lane, a.event);
    LeaseCases(lane, a.event);
    HeldUpdate(s.lanes, a.lane, next);
    var held, held' := HeldBag(s.lanes), HeldBag(s.lanes[a.lane := next]);
    if a.event.Leased? {
      assert held' == held + AsBag(next.lease);
    } else if next.lease.None? {
      assert held == held' + AsBag(lane.lease);
    } else {
      CancelBag(held', held, AsBag(lane.lease));
    }
  }

  lemma CancelBag(a: multiset<Lease>, b: multiset<Lease>, x: multiset<Lease>)
    requires a + x == b + x
    ensures a == b
  {
    forall y ensures a[y] == b[y] {
      assert (a + x)[y] == a[y] + x[y] && (b + x)[y] == b[y] + x[y];
    }
  }

  lemma SlotsKeep(s: State, a: Action, plan: seq<seq<Resolved>>, slots: seq<Option<Answer>>)
    requires PlanOk(plan, slots) && LanesOk(s, plan) && SlotsOk(s, plan, slots) && LanesOk(Next(s, a), plan)
    requires a.lane < |s.lanes| && Enabled(s.lanes[a.lane], a.event)
    ensures SlotsOk(Next(s, a), plan, slots)
  {
    var lane := s.lanes[a.lane];
    var t := Next(s, a);
    var w := Written(lane, a.event);
    if w.Some? {
      var i := Current(lane).index;
      assert Place(plan, a.lane, |lane.out|) && i == plan[a.lane][|lane.out|].index;
      assert HasPlace(plan, i);
      assert t.lanes[a.lane].out == lane.out + [w.value];
      hide Written, Enabled, LaneOk, HasPlace, Homogeneous;
    }
  }

  lemma NextKeepsInv(s: State, a: Action, plan: seq<seq<Resolved>>, slots: seq<Option<Answer>>)
    requires PlanOk(plan, slots) && Inv(s, plan, slots)
    ensures Inv(Next(s, a), plan, slots)
  {
    if a.lane < |s.lanes| && Enabled(s.lanes[a.lane], a.event) {
      LaneNextKeeps(s.lanes[a.lane], a.event);
      assert LanesOk(Next(s, a), plan) by {
        hide LaneOk, LaneNext;
      }
      LeasesKeep(s, a);
      SlotsKeep(s, a, plan, slots);
    }
    hide LanesOk, SlotsOk, HeldBag;
  }

  lemma {:induction false} RunKeepsInv(s: State, actions: seq<Action>, plan: seq<seq<Resolved>>,
                                       slots: seq<Option<Answer>>)
    requires PlanOk(plan, slots) && Inv(s, plan, slots)
    ensures Inv(Run(s, actions), plan, slots)
    decreases |actions|
  {
    hide Inv, Next, PlanOk;
    if actions == [] {
    } else {
      NextKeepsInv(s, actions[0], plan, slots);
      RunKeepsInv(Next(s, actions[0]), actions[1..], plan, slots);
    }
  }

  // ---------------------------------------------------------------- what all interleavings promise

  lemma {:induction false} StaysWritten(s: State, actions: seq<Action>, plan: seq<seq<Resolved>>,
                                        slots: seq<Option<Answer>>, i: nat)
    requires PlanOk(plan, slots) && Inv(s, plan, slots) && i < |s.slots| && s.slots[i].Some?
    ensures |Run(s, actions).slots| == |s.slots| && Run(s, actions).slots[i] == s.slots[i]
    decreases |actions|
  {
    hide Inv, Next, PlanOk;
    if actions == [] {
    } else {
      WrittenOnce(s, actions[0], plan, slots, i);
      NextKeepsInv(s, actions[0], plan, slots);
      StaysWritten(Next(s, actions[0]), actions[1..], plan, slots, i);
    }
  }

  /** Step n of a run answers an item: it is its lane's current one, its slot is empty before, and holds at the end what
      the event says. */
  ghost predicate AnsweredBy(s: State, actions: seq<Action>, n: nat, r: Resolved, a: Answer) {
    && n < |actions|
    && var t, l, e := Run(s, actions[..n]), actions[n].lane, actions[n].event;
       && l < |t.lanes| && |t.lanes[l].out| < |t.lanes[l].items| && t.lanes[l].items[|t.lanes[l].out|] == r
       && r.index < |t.slots| && t.slots[r.index] == None
       && (e.Overloaded? || e.StepRaised? || e.Stepped? || (e.Head? && e.cancelled) || (e.Leased? && e.cancelled))
       && (e.Stepped? ==> |e.statuses| == |r.tactics|)
       && a.nodeId == r.nodeId && |a.results| == |r.tactics|
       && forall j :: 0 <= j < |a.results| ==>
            && a.results[j].0 == r.tactics[j]
            && a.results[j].1 ==
               if e.Overloaded? then "overloaded"
               else if e.StepRaised? then "error"
               else if e.Stepped? && !e.cancelled then e.statuses[j]
               else "cancelled"
  }

  /** The step that fills an empty slot is one of the lane whose current item it is, and says what the event says. */
  lemma FillsOwn(s: State, actions: seq<Action>, plan: seq<seq<Resolved>>, slots: seq<Option<Answer>>, r: Resolved,
                 l: nat, k: nat)
    requires PlanOk(plan, slots) && Inv(s, plan, slots) && Place(plan, l, k) && plan[l][k] == r && actions != []
    requires r.index < |s.slots| && s.slots[r.index] == None
    requires var s' := Next(s, actions[0]); r.index < |s'.slots| && s'.slots[r.index].Some?
    ensures AnsweredBy(s, actions, 0, r, Next(s, actions[0]).slots[r.index].value)
  {
    var a := actions[0];
    assert a.lane < |s.lanes| && Enabled(s.lanes[a.lane], a.event);
    var lane := s.lanes[a.lane];
    WrittenSays(lane, a.event);
    assert AtItem(lane) && Current(lane).index == r.index;
    assert Place(plan, a.lane, |lane.out|) && plan[a.lane][|lane.out|] == Current(lane);
    assert Current(lane) == r;
    hide Written, LaneOk, SlotsOk, Homogeneous;
    assert Run(s, actions[..0]) == s by { assert actions[..0] == []; }
  }

  lemma AnsweredLater(s: State, actions: seq<Action>, n: nat, r: Resolved, a: Answer)
    requires actions != [] && AnsweredBy(Next(s, actions[0]), actions[1..], n, r, a)
    ensures AnsweredBy(s, actions, n + 1, r, a)
  {
    hide Next;
    assert actions[..n + 1] == [actions[0]] + actions[1..][..n];
    assert actions[..n + 1][1..] == actions[1..][..n];
  }

  /** Every answer the lanes leave comes from one step of the run. */
  lemma {:induction false} SlotSettled(s: State, actions: seq<Action>, plan: seq<seq<Resolved>>,
                                       slots: seq<Option<Answer>>, r: Resolved, l: nat, k: nat)
    returns (n: nat)
    requires PlanOk(plan, slots) && Inv(s, plan, slots) && Place(plan, l, k) && plan[l][k] == r
    requires r.index < |s.slots| && s.slots[r.index] == None
    requires r.index < |Run(s, actions).slots| && Run(s, actions).slots[r.index].Some?
    ensures AnsweredBy(s, actions, n, r, Run(s, actions).slots[r.index].value)
    decreases |actions|
  {
    hide Inv, Next, PlanOk, AnsweredBy;
    n := 0;
    if actions == [] {
    } else {
      var s' := Next(s, actions[0]);
      NextKeepsInv(s, actions[0], plan, slots);
      SlotsFixed(s, s', plan, slots);
      if s'.slots[r.index].Some? {
        FillsOwn(s, actions, plan, slots, r, l, k);
        StaysWritten(s', actions[1..], plan, slots, r.index);
      } else {
        var m := SlotSettled(s', actions[1..], plan, slots, r, l, k);
        AnsweredLater(s, actions, m, r, Run(s, actions).slots[r.index].value);
        n := m + 1;
      }
    }
  }

  lemma SlotsFixed(s: State, t: State, plan: seq<seq<Resolved>>, slots: seq<Option<Answer>>)
    requires Inv(s, plan, slots) && Inv(t, plan, slots)
    ensures |s.slots| == |t.slots|
  {}

  /** When all lanes are through, whatever their interleaving: slot by slot the response answers the request, one
      result per tactic in order, with what the step that answered the item says; the slots answered before are
      untouched, and every lease taken was given back exactly once. */
  lemma AllAnswered(items: seq<Resolved>, maxLanes: int, slots: seq<Option<Answer>>, actions: seq<Action>)
    requires forall i, j :: 0 <= i < j < |items| ==> items[i].index != items[j].index
    requires forall i :: 0 <= i < |items| ==> items[i].index < |slots| && slots[items[i].index] == None
    requires
      var s := Run(Initial(Plan(GroupsOf(items), maxLanes), slots), actions);
      forall l :: 0 <= l < |s.lanes| ==> s.lanes[l].phase == Done
    ensures
      var s := Run(Initial(Plan(GroupsOf(items), maxLanes), slots), actions);
      && |s.slots| == |slots|
      && (forall i :: 0 <= i < |items| ==>
          && s.slots[items[i].index].Some? && Answers(s.slots[items[i].index].value, items[i])
          && exists n: nat ::
               AnsweredBy(Initial(Plan(GroupsOf(items), maxLanes), slots), actions, n, items[i],
                          s.slots[items[i].index].value))
      && (forall j :: 0 <= j < |slots| && (forall i :: 0 <= i < |items| ==> items[i].index != j) ==>
          s.slots[j] == slots[j])
      && s.taken == s.returned
  {
    var plan := Plan(GroupsOf(items), maxLanes);
    PlanReady(items, maxLanes, slots);
    InitialInv(plan, slots);
    RunKeepsInv(Initial(plan, slots), actions, plan, slots);
    var s := Run(Initial(plan, slots), actions);
    PlanCovers(items, maxLanes);
    hide Run, Plan, GroupsOf, PlanOk, AnsweredBy;
    NoneHeld(s.lanes);
    forall i | 0 <= i < |items|
      ensures s.slots[items[i].index].Some? && Answers(s.slots[items[i].index].value, items[i])
      ensures exists n: nat :: AnsweredBy(Initial(plan, slots), actions, n, items[i], s.slots[items[i].index].value)
    {
      var l: nat, k: nat :| Place(plan, l, k) && plan[l][k] == items[i];
      assert k < |s.lanes[l].out|;
      var n := SlotSettled(Initial(plan, slots), actions, plan, slots, items[i], l, k);
    }
  }

  lemma {:induction false} FlatPlace(plan: seq<seq<Resolved>>, r: Resolved)
    ensures r in Flat(plan) <==> exists l: nat, k: nat :: Place(plan, l, k) && plan[l][k] == r
  {
    if plan == [] {
    } else {
      FlatPlace(plan[1..], r);
      if r in plan[0] {
        var k :| 0 <= k < |plan[0]| && plan[0][k] == r;
        assert Place(plan, 0, k);
      }
      if l: nat, k: nat :| Place(plan[1..], l, k) && plan[1..][l][k] == r {
        assert Place(plan, l + 1, k);
      }
      if l: nat, k: nat :| Place(plan, l, k) && plan[l][k] == r {
        assert l > 0 ==> Place(plan[1..], l - 1, k);
      }
    }
  }

  /** Exactly the items have places. */
  lemma PlanCovers(items: seq<Resolved>, maxLanes: int)
    ensures
      var plan := Plan(GroupsOf(items), maxLanes);
      && (forall i :: 0 <= i < |items| ==> exists l: nat, k: nat :: Place(plan, l, k) && plan[l][k] == items[i])
      && (forall j :: HasPlace(plan, j) ==> exists i :: 0 <= i < |items| && items[i].index == j)
  {
    var plan := Plan(GroupsOf(items), maxLanes);
    PlanKeeps(GroupsOf(items), maxLanes);
    GroupsKeep(items);
    hide Plan, GroupsOf, Flat, ItemsOf;
    forall i | 0 <= i < |items| ensures exists l: nat, k: nat :: Place(plan, l, k) && plan[l][k] == items[i] {
      assert items[i] in multiset(items);
      FlatPlace(plan, items[i]);
    }
    forall j | HasPlace(plan, j) ensures exists i :: 0 <= i < |items| && items[i].index == j {
      var l: nat, k: nat :| Place(plan, l, k) && plan[l][k].index == j;
      FlatPlace(plan, plan[l][k]);
      assert plan[l][k] in multiset(items);
    }
  }

  lemma PlanReady(items: seq<Resolved>, maxLanes: int, slots: seq<Option<Answer>>)
    requires forall i, j :: 0 <= i < j < |items| ==> items[i].index != items[j].index
    requires forall i :: 0 <= i < |items| ==> items[i].index < |slots| && slots[items[i].index] == None
    ensures PlanOk(Plan(GroupsOf(items), maxLanes), slots)
  {
    var plan := Plan(GroupsOf(items), maxLanes);
    PlanIsSound(items, maxLanes);
    PlanCovers(items, maxLanes);
    hide Plan, GroupsOf, OnePlaceEach, Homogeneous;
    forall l: nat, k: nat | Place(plan, l, k) ensures plan[l][k].index < |slots| && slots[plan[l][k].index] == None {
      assert HasPlace(plan, plan[l][k].index);
    }
  }

  /** A slot once written is never written again. */
  lemma WrittenOnce(s: State, a: Action, plan: seq<seq<Resolved>>, slots: seq<Option<Answer>>, i: nat)
    requires PlanOk(plan, slots) && Inv(s, plan, slots) && i < |s.slots| && s.slots[i].Some?
    ensures |Next(s, a).slots| == |s.slots| && Next(s, a).slots[i] == s.slots[i]
  {
    if a.lane < |s.lanes| && Enabled(s.lanes[a.lane], a.event) && AtItem(s.lanes[a.lane]) {
      assert Place(plan, a.lane, |s.lanes[a.lane].out|);
    }
  }

  /** Every step of a worker runs on one started for the environment and header of the item's state, also when
      the lease is reused along the lane. */
  lemma StepsOnFittingWorker(items: seq<Resolved>, maxLanes: int, slots: seq<Option<Answer>>, actions: seq<Action>,
                             l: nat)
    requires forall i, j :: 0 <= i < j < |items| ==> items[i].index != items[j].index
    requires forall i :: 0 <= i < |items| ==> items[i].index < |slots| && slots[items[i].index] == None
    requires
      var s := Run(Initial(Plan(GroupsOf(items), maxLanes), slots), actions);
      l < |s.lanes| && s.lanes[l].phase == Stepping
    ensures
      var lane := Run(Initial(Plan(GroupsOf(items), maxLanes), slots), actions).lanes[l];
      && AtItem(lane) && lane.lease.Some?
      && lane.lease.value.envProfile == lane.items[|lane.out|].envProfile
      && lane.lease.value.headerHash == lane.items[|lane.out|].headerHash
  {
    var plan := Plan(GroupsOf(items), maxLanes);
    PlanReady(items, maxLanes, slots);
    InitialInv(plan, slots);
    RunKeepsInv(Initial(plan, slots), actions, plan, slots);
    hide Run, Plan, GroupsOf;
  }

  // ---------------------------------------------------------------- independence of the interleaving

  /** The events of one lane, in order. */
  function Project(actions: seq<Action>, l: nat): seq<Event> {
    if actions == [] then [] else (if actions[0].lane == l then [actions[0].event] else []) + Project(actions[1..], l)
  }

  function LaneRun(lane: Lane, events: seq<Event>): Lane
    decreases |events|
  {
    if events == [] then lane else LaneRun(LaneNext(lane, events[0]), events[1..])
  }

  /** A lane depends on its own events only. */
  lemma {:induction false} LanesAreLocal(s: State, actions: seq<Action>, l: nat)
    requires l < |s.lanes|
    ensures |Run(s, actions).lanes| == |s.lanes| && Run(s, actions).lanes[l] == LaneRun(s.lanes[l], Project(actions, l))
    decreases |actions|
  {
    if actions == [] {
    } else {
      LanesAreLocal(Next(s, actions[0]), actions[1..], l);
      assert Next(s, actions[0]).lanes[l]
          == if actions[0].lane == l then LaneNext(s.lanes[l], actions[0].event) else s.lanes[l];
      hide Next, LaneNext;
      var rest := Project(actions[1..], l);
      if actions[0].lane == l {
        assert Project(actions, l) == [actions[0].event] + rest;
        assert ([actions[0].event] + rest)[1..] == rest;
      } else {
        assert Project(actions, l) == [] + rest == rest;
      }
    }
  }

  /** The response does not depend on how the lanes interleave: two runs in which every lane sees the same
      events end in the same lanes and the same slots. */
  lemma OrderOfLanesDoesNotMatter(items: seq<Resolved>, maxLanes: int, slots: seq<Option<Answer>>, a: seq<Action>,
                                  b: seq<Action>)
    requires forall i, j :: 0 <= i < j < |items| ==> items[i].index != items[j].index
    requires forall i :: 0 <= i < |items| ==> items[i].index < |slots| && slots[items[i].index] == None
    requires forall l: nat :: Project(a, l) == Project(b, l)
    ensures
      var start := Initial(Plan(GroupsOf(items), maxLanes), slots);
      Run(start, a).lanes == Run(start, b).lanes && Run(start, a).slots == Run(start, b).slots
  {
    var plan := Plan(GroupsOf(items), maxLanes);
    var start := Initial(plan, slots);
    PlanReady(items, maxLanes, slots);
    InitialInv(plan, slots);
    RunKeepsInv(start, a, plan, slots);
    RunKeepsInv(start, b, plan, slots);
    hide Run, Plan, GroupsOf, LaneRun, LaneOk, PlanOk;
    var s, t := Run(start, a), Run(start, b);
    forall l | 0 <= l < |start.lanes| ensures s.lanes[l] == t.lanes[l] {
      LanesAreLocal(start, a, l);
      LanesAreLocal(start, b, l);
      assert Project(a, l) == Project(b, l);
    }
    assert s.lanes == t.lanes;
    forall i | 0 <= i < |slots| ensures s.slots[i] == t.slots[i] {
      if HasPlace(plan, i) {
        var l: nat, k: nat :| Place(plan, l, k) && plan[l][k].index == i;
      }
    }
  }

  // ---------------------------------------------------------------- a lane as it runs

  /** What the outside decides for one item of a lane: cancelled at the head of the loop, the lease id or no worker,
      cancelled once leased, the worker's statuses or an exception, cancelled afterwards, and the worker alive. */
  datatype Turn = Turn(cancelledAtHead: bool, worker: Option<nat>, cancelledOnLease: bool,
                       statuses: Option<seq<string>>,
                       cancelledAfter: bool, alive: bool)

  lemma {:induction false} LaneRunAppend(lane: Lane, a: seq<Event>, b: seq<Event>)
    ensures LaneRun(lane, a + b) == LaneRun(LaneRun(lane, a), b)
    decreases |a|
  {
    hide LaneNext;
    if a == [] {
      assert a + b == b;
    } else {
      LaneRunAppend(LaneNext(lane, a[0]), a[1..], b);
      assert (a + b)[0] == a[0] && (a + b)[1..] == a[1..] + b;
    }
  }

  lemma LaneRunOne(lane: Lane, e: Event, f: Event, g: Event)
    ensures LaneRun(lane, [e]) == LaneNext(lane, e)
    ensures LaneRun(lane, [e, f]) == LaneNext(LaneNext(lane, e), f)
    ensures LaneRun(lane, [e, f, g]) == LaneNext(LaneNext(LaneNext(lane, e), f), g)
  {
    hide LaneNext;
    assert [e][1..] == [] && [e, f][1..] == [f] && [e, f, g][1..] == [f, g];
    assert forall x :: LaneRun(x, [g]) == LaneNext(x, g) by { assert [g][1..] == []; }
    assert forall x :: LaneRun(x, [f]) == LaneNext(x, f) by { assert [f][1..] == []; }
    assert forall x :: LaneRun(x, [f, g]) == LaneNext(LaneNext(x, f), g) by { assert [f, g][1..] == [g]; }
  }

  /** The events of one turn. */
  function TurnEvents(lease: Option<Lease>, turn: Turn): seq<Event> {
    if turn.cancelledAtHead then [Head(true)]
    else if lease.None? && turn.worker.None? then [Head(false), Overloaded]
    else if lease.None? && turn.cancelledOnLease then [Head(false), Leased(turn.worker.value, true)]
    else
      (if lease.None? then [Head(false), Leased(turn.worker.value, false)] else [Head(false)])
      + [if turn.statuses.Some? then Stepped(turn.statuses.value, turn.cancelledAfter, turn.alive)
          else StepRaised(turn.alive)]
  }

  /** What a turn comes to, by what the outside decided: the status of each tactic, and the lease kept for the next
      item. */
  ghost predicate TurnSays(r: Resolved, lease: Option<Lease>, turn: Turn, answer: Answer, kept: Option<Lease>) {
    && answer.nodeId == r.nodeId && |answer.results| == |r.tactics|
    && (turn.statuses.Some? ==> |turn.statuses.value| == |r.tactics|)
    && (forall j :: 0 <= j < |r.tactics| ==>
          && answer.results[j].0 == r.tactics[j]
          && answer.results[j].1 ==
             if turn.cancelledAtHead then "cancelled"
             else if lease.None? && turn.worker.None? then "overloaded"
             else if lease.None? && turn.cancelledOnLease then "cancelled"
             else if turn.statuses.None? then "error"
             else if turn.cancelledAfter then "cancelled"
             else turn.statuses.value[j])
    && kept ==
       if turn.cancelledAtHead || (lease.None? && turn.worker.None?) then lease
       else if lease.None? && turn.cancelledOnLease then Some(Lease(turn.worker.value, r.envProfile, r.headerHash))
       else if !turn.alive then None
       else if lease.None? then Some(Lease(turn.worker.value, r.envProfile, r.headerHash))
       else lease
  }

  /** The body of the lane loop: the answer for the current item, and the lease kept for the next. */
  method TakeTurn(r: Resolved, lease: Option<Lease>, turn: Turn) returns (answer: Answer, kept: Option<Lease>)
    requires turn.statuses.Some? ==> |turn.statuses.value| == |r.tactics|
    ensures forall lane: Lane :: AtItem(lane) && Current(lane) == r && lane.phase == Idle && lane.lease == lease ==>
              LaneRun(lane, TurnEvents(lease, turn)) == Lane(lane.items, lane.out + [answer], Idle, kept)
    ensures TurnSays(r, lease, turn, answer, kept)
  {
    hide StatusAnswer, WorkerAnswer, LaneRun, TurnSays;
    kept := lease;
    if turn.cancelledAtHead {
      answer := StatusAnswer(r, "cancelled");
    } else if kept.None? && turn.worker.None? {
      answer := StatusAnswer(r, "overloaded");
    } else if kept.None? && turn.cancelledOnLease {
      kept := Some(Lease(turn.worker.value, r.envProfile, r.headerHash));
      answer := StatusAnswer(r, "cancelled");
    } else {
      if kept.None? {
        kept := Some(Lease(turn.worker.value, r.envProfile, r.headerHash));
      }
      if turn.statuses.None? {
        answer := StatusAnswer(r, "error");
      } else if turn.cancelledAfter {
        answer := StatusAnswer(r, "cancelled");
      } else {
        answer := WorkerAnswer(r, turn.statuses.value);
      }
      if !turn.alive {
        kept := None;
      }
    }
    TurnMeans(r, lease, turn, answer, kept);
    forall lane: Lane | AtItem(lane) && Current(lane) == r && lane.phase == Idle && lane.lease == lease
      ensures LaneRun(lane, TurnEvents(lease, turn)) == Lane(lane.items, lane.out + [answer], Idle, kept)
    {
      TurnRuns(lane, turn);
    }
  }

  lemma TurnMeans(r: Resolved, lease: Option<Lease>, turn: Turn, answer: Answer, kept: Option<Lease>)
    requires turn.statuses.Some? ==> |turn.statuses.value| == |r.tactics|
    requires answer ==
      if turn.cancelledAtHead then StatusAnswer(r, "cancelled")
      else if lease.None? && turn.worker.None? then StatusAnswer(r, "overloaded")
      else if lease.None? && turn.cancelledOnLease then StatusAnswer(r, "cancelled")
      else if turn.statuses.None? then StatusAnswer(r, "error")
      else if turn.cancelledAfter then StatusAnswer(r, "cancelled")
      else WorkerAnswer(r, turn.statuses.value)
    requires kept ==
      if turn.cancelledAtHead || (lease.None? && turn.worker.None?) then lease
      else if lease.None? && turn.cancelledOnLease then Some(Lease(turn.worker.value, r.envProfile, r.headerHash))
      else if !turn.alive then None
      else if lease.None? then Some(Lease(turn.worker.value, r.envProfile, r.headerHash))
      else lease
    ensures TurnSays(r, lease, turn, answer, kept)
  {}

  /** The events of a turn, one by one. */
  lemma TurnRuns(lane: Lane, turn: Turn)
    requires AtItem(lane) && lane.phase == Idle
    requires turn.statuses.Some? ==> |turn.statuses.value| == |Current(lane).tactics|
    ensures
      var e := TurnEvents(lane.lease, turn);
      LaneRun(lane, e) ==
        if |e| == 1 then LaneNext(lane, e[0]) else if |e| == 2 then LaneNext(LaneNext(lane, e[0]), e[1])
        else LaneNext(LaneNext(LaneNext(lane, e[0]), e[1]), e[2])
  {
    var e := TurnEvents(lane.lease, turn);
    hide LaneNext;
    if |e| == 1 {
      LaneRunOne(lane, e[0], e[0], e[0]);
      assert e == [e[0]];
    } else if |e| == 2 {
      LaneRunOne(lane, e[0], e[1], e[1]);
      assert e == [e[0], e[1]];
    } else {
      LaneRunOne(lane, e[0], e[1], e[2]);
      assert e == [e[0], e[1], e[2]];
    }
  }

  /** _run_process_pool_lane: the loop takes exactly the steps of a lane, from the first item to giving back the lease,
      and writes exactly its own slots. */
  method RunLane(items: seq<Resolved>, slots: array<Option<Answer>>, turns: seq<Turn>)
    returns (ghost events: seq<Event>, ghost leases: seq<Option<Lease>>)
    requires |turns| == |items|
    requires forall k :: 0 <= k < |items| ==> items[k].index < slots.Length
    requires forall i, j :: 0 <= i < j < |items| ==> items[i].index != items[j].index
    requires forall k :: 0 <= k < |items| && turns[k].statuses.Some? ==> |turns[k].statuses.value| == |items[k].tactics|
    modifies slots
    ensures
      var lane := LaneRun(Lane(items, [], Idle, None), events);
      && lane.phase == Done && lane.lease == None && |lane.out| == |items|
      && (forall k :: 0 <= k < |items| ==> slots[items[k].index] == Some(lane.out[k]))
    ensures |leases| == |items| + 1 && leases[0] == None
    ensures forall k :: 0 <= k < |items| ==>
      && slots[items[k].index].Some?
      && TurnSays(items[k], leases[k], turns[k], slots[items[k].index].value, leases[k + 1])
    ensures forall i :: 0 <= i < slots.Length && (forall k :: 0 <= k < |items| ==> items[k].index != i) ==>
        slots[i] == old(slots[i])
  {
    hide LaneRun, TurnEvents, TurnSays;
    events, leases := [], [None];
    ghost var start := Lane(items, [], Idle, None);
    ghost var lane := start;
    var lease: Option<Lease> := None;
    LaneRunAppend(start, [], []);
    LaneRunNone(start);
    for k := 0 to |items|
      invariant lane == LaneRun(start, events) && lane.items == items && |lane.out| == k && lane.phase == Idle
          && lane.lease == lease
      invariant forall m :: 0 <= m < k ==> slots[items[m].index] == Some(lane.out[m])
      invariant |leases| == k + 1 && leases[0] == None && leases[k] == lease
      invariant forall m :: 0 <= m < k ==> TurnSays(items[m], leases[m], turns[m], lane.out[m], leases[m + 1])
      invariant forall i :: 0 <= i < slots.Length && (forall m :: 0 <= m < |items| ==> items[m].index != i) ==>
          slots[i] == old(slots[i])
    {
      ghost var e := TurnEvents(lease, turns[k]);
      var answer, kept := TakeTurn(items[k], lease, turns[k]);
      slots[items[k].index] := Some(answer);
      LaneRunAppend(start, events, e);
      events := events + e;
      lane := Lane(items, lane.out + [answer], Idle, kept);
      lease := kept;
      leases := leases + [kept];
    }
    LaneRunAppend(start, events, [Leave]);
    LaneRunOne(lane, Leave, Leave, Leave);
    events := events + [Leave];
  }

  lemma LaneRunNone(lane: Lane)
    ensures LaneRun(lane, []) == lane
  {}
}
