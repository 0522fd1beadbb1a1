/** The exec routes around one item (routers/exec.py, exec_backends.py): requests open brackets on items and pin the
    states they step, and promote new states; items are cancelled, cleaned up and garbage-collected in between. Every
    step below is a stretch of code without an await; runs are arbitrary interleavings of such steps. */
module ItemProtocol {
  import opened Wrappers
  import opened MapSum
  import opened Lifecycle
  import opened StateFiles
  import opened Store = StateStore

  /** One resolved step item: the pinned token and the item that owns it. */
  datatype Entry = Entry(token: Token, item: ItemId)

  /** Open work: one item of create_states or verify, or a whole step batch. */
  datatype Bracket = One(item: ItemId, creates: bool) | Batch(entries: seq<Entry>)

  /** Registry, owner of every stored state, pin counts, open brackets by number, clock. */
  datatype State = State(reg: Registry, owner: map<Token, ItemId>, pins: map<Token, nat>,
                         brackets: map<nat, Bracket>, next: nat, now: int)

  datatype Action =
    | Tick(elapsed: nat)
    | BeginOne(item: ItemId, creates: bool)           // create_one / verify_one up to the first await
    | BeginBatch(tokens: seq<Token>)                  // the loop at the head of a step batch
    | CloseOne(b: nat, made: set<Token>)             // the rest of create_one: promote `made`, finish
    | Promote(e: Entry, made: set<Token>)             // a lane turns results into children of a stored parent
    | CloseBatch(b: nat)                              // the finally block of a step batch
    | Cancel(item: ItemId)
    | Cleanup(item: ItemId)
    | Sweep
    | Gc(doomed: set<Token>)                          // TTL, budget: any unpinned states

  // ---------------------------------------------------------------- the steps

  /** Resolve and pin each token, begin its item; back out of the pin when the item is closed. */
  function BatchBegun(reg: Registry, owner: map<Token, ItemId>, pins: map<Token, nat>, tokens: seq<Token>, now: int)
    : (Registry, map<Token, nat>, seq<Entry>)
    decreases |tokens|
  {
    if tokens == [] then (reg, pins, [])
    else
      var t := tokens[0];
      if t !in owner then BatchBegun(reg, owner, pins, tokens[1..], now)
      else
        var pinned := Pin(pins, t);
        var (reg', started) := Begun(reg, owner[t], now);
        if !started then BatchBegun(reg', owner, Unpin(pinned, t), tokens[1..], now)
        else
          var (reg'', pins'', rest) := BatchBegun(reg', owner, pinned, tokens[1..], now);
          (reg'', pins'', [Entry(t, owner[t])] + rest)
  }

  function AllUnpinned(pins: map<Token, nat>, entries: seq<Entry>): map<Token, nat> {
    if entries == [] then pins else AllUnpinned(Unpin(pins, entries[0].token), entries[1..])
  }

  function AllFinished(reg: Registry, entries: seq<Entry>, now: int, retention: int): Registry
    decreases |entries|
  {
    if entries == [] then reg
    else AllFinished(Finished(reg, entries[0].item, now, retention), entries[1..], now, retention)
  }

  /** Store new states under `item`, unless the item is cancelled. Tokens in use are never given out again. */
  function Stored(s: State, item: ItemId, made: set<Token>): map<Token, ItemId> {
    if ShouldCancel(s.reg, item) then s.owner
    else s.owner + map t | t in made && t !in s.owner :: item
  }

  function OwnedBy(owner: map<Token, ItemId>, item: ItemId): set<Token> {
    set t | t in owner && owner[t] == item
  }

  /** cleanup for one item: defer while work is open or a state is pinned, otherwise delete and close the item. */
  function CleanedUp(s: State, item: ItemId, retention: int): (State, bool) {
    var swept := s.(reg := Swept(s.reg, s.now));
    if InFlight(swept.reg, item) > 0 then (swept, false)
    else if exists t :: t in OwnedBy(s.owner, item) && t in s.pins then (swept, false)
    else (swept.(reg := MarkedCleaned(swept.reg, item, s.now, retention),
                 owner := s.owner - OwnedBy(s.owner, item)), true)
  }

  /** One atomic step; a step that does not apply changes nothing. */
  function Next(s: State, a: Action, retention: nat): State {
    match a
    case Tick(elapsed) => s.(now := s.now + elapsed)
    case BeginOne(item, creates) =>
      var (reg, started) := Begun(s.reg, item, s.now);
      if started then s.(reg := reg, brackets := s.brackets[s.next := One(item, creates)], next := s.next + 1)
      else s.(reg := reg)
    case BeginBatch(tokens) =>
      var (reg, pins, entries) := BatchBegun(s.reg, s.owner, s.pins, tokens, s.now);
      s.(reg := reg, pins := pins, brackets := s.brackets[s.next := Batch(entries)], next := s.next + 1)
    case CloseOne(b, made) =>
      if b in s.brackets && s.brackets[b].One? then
        var item := s.brackets[b].item;
        s.(owner := if s.brackets[b].creates then Stored(s, item, made) else s.owner,
           reg := Finished(s.reg, item, s.now, retention), brackets := s.brackets - {b})
      else s
    case Promote(e, made) =>
      if e.token in s.owner && s.owner[e.token] == e.item then s.(owner := Stored(s, e.item, made)) else s
    case CloseBatch(b) =>
      if b in s.brackets && s.brackets[b].Batch? then
        var entries := s.brackets[b].entries;
        s.(pins := AllUnpinned(s.pins, entries), reg := AllFinished(s.reg, entries, s.now, retention),
           brackets := s.brackets - {b})
      else s
    case Cancel(item) => s.(reg := Cancelled(s.reg, item, s.now, retention))
    case Cleanup(item) => CleanedUp(s, item, retention).0
    case Sweep => s.(reg := Swept(s.reg, s.now))
    case Gc(doomed) => s.(owner := map t | t in s.owner && (t !in doomed || t in s.pins) :: s.owner[t])
  }

  function Run(s: State, actions: seq<Action>, retention: nat): State
    decreases |actions|
  {
    if actions == [] then s else Run(Next(s, actions[0], retention), actions[1..], retention)
  }

  function Initial(owner: map<Token, ItemId>, now: int): State {
    State(map[], owner, map[], map[], 0, now)
  }

  // ---------------------------------------------------------------- counting open work

  function Items(entries: seq<Entry>, item: ItemId): nat {
    if entries == [] then 0 else (if entries[0].item == item then 1 else 0) + Items(entries[1..], item)
  }

  function Tokens(entries: seq<Entry>, t: Token): nat {
    if entries == [] then 0 else (if entries[0].token == t then 1 else 0) + Tokens(entries[1..], t)
  }

  /** How many begin calls of `item` a bracket answers for. */
  function Holds(b: Bracket, item: ItemId): nat {
    match b
    case One(i, _) => if i == item then 1 else 0
    case Batch(entries) => Items(entries, item)
  }

  function PinsOf(b: Bracket, t: Token): nat {
    match b
    case One(_, _) => 0
    case Batch(entries) => Tokens(entries, t)
  }

  function HoldMap(brackets: map<nat, Bracket>, item: ItemId): map<nat, nat> {
    map b | b in brackets :: Holds(brackets[b], item)
  }

  function PinMap(brackets: map<nat, Bracket>, t: Token): map<nat, nat> {
    map b | b in brackets :: PinsOf(brackets[b], t)
  }

  /** All open work on an item. */
  ghost function Open(brackets: map<nat, Bracket>, item: ItemId): nat {
    Sum(HoldMap(brackets, item))
  }

  /** All pins open brackets hold on a token. */
  ghost function Pinned(brackets: map<nat, Bracket>, t: Token): nat {
    Sum(PinMap(brackets, t))
  }

  lemma OpenAdd(brackets: map<nat, Bracket>, b: nat, x: Bracket, item: ItemId, t: Token)
    requires b !in brackets
    ensures Open(brackets[b := x], item) == Holds(x, item) + Open(brackets, item)
    ensures Pinned(brackets[b := x], t) == PinsOf(x, t) + Pinned(brackets, t)
  {
    SumInsert(HoldMap(brackets, item), b, Holds(x, item));
    assert HoldMap(brackets[b := x], item) == HoldMap(brackets, item)[b := Holds(x, item)];
    SumInsert(PinMap(brackets, t), b, PinsOf(x, t));
    assert PinMap(brackets[b := x], t) == PinMap(brackets, t)[b := PinsOf(x, t)];
  }

  lemma OpenRemove(brackets: map<nat, Bracket>, b: nat, item: ItemId, t: Token)
    requires b in brackets
    ensures Open(brackets, item) == Holds(brackets[b], item) + Open(brackets - {b}, item)
    ensures Pinned(brackets, t) == PinsOf(brackets[b], t) + Pinned(brackets - {b}, t)
  {
    OpenAdd(brackets - {b}, b, brackets[b], item, t);
    assert (brackets - {b})[b := brackets[b]] == brackets;
  }

  // ---------------------------------------------------------------- the invariant

  function PinCount(pins: map<Token, nat>, t: Token): nat {
    if t in pins then pins[t] else 0
  }

  /** What a registry record may look like. */
  predicate RecordOk(r: Record) {
    match r.status
    case Active => r.expiresAt.None?
    case Cancelling => r.expiresAt.None? && r.inFlight > 0
    case Drained => r.expiresAt.Some? && r.inFlight == 0
    case Cleaned => r.expiresAt.Some? && r.inFlight == 0
  }

  ghost predicate EntriesLive(s: State) {
    forall b :: b in s.brackets && s.brackets[b].Batch? ==>
      forall k :: 0 <= k < |s.brackets[b].entries| ==>
        s.brackets[b].entries[k].token in s.owner
            && s.owner[s.brackets[b].entries[k].token] == s.brackets[b].entries[k].item
  }

  ghost predicate Inv(s: State) {
    && (forall i :: i in s.reg ==> RecordOk(s.reg[i]))
    && (forall i :: InFlight(s.reg, i) == Open(s.brackets, i))
    && (forall t :: PinCount(s.pins, t) == Pinned(s.brackets, t))
    && (forall t :: t in s.pins ==> s.pins[t] > 0)
    && EntriesLive(s)
    && (forall b :: b in s.brackets ==> b < s.next)
    && (forall i :: i in s.reg && s.reg[i].status == Cleaned ==> OwnedBy(s.owner, i) == {})
  }

  ghost predicate RegOk(reg: Registry) {
    forall i :: i in reg ==> RecordOk(reg[i])
  }

  ghost predicate Positive(pins: map<Token, nat>) {
    forall t :: t in pins ==> pins[t] > 0
  }

  /** Begin keeps the records well-formed, counts the work it starts, and never closes an item. */
  lemma BegunKeeps(reg: Registry, item: ItemId, now: int)
    requires RegOk(reg)
    ensures var (r, started) := Begun(reg, item, now);
      && RegOk(r)
      && (forall i :: InFlight(r, i) == InFlight(reg, i) + (if started && i == item then 1 else 0))
      && (forall i :: i in r && r[i].status == Cleaned ==> i in reg && reg[i].status == Cleaned)
      && (forall i :: ShouldCancel(reg, i) && InFlight(reg, i) > 0 ==> ShouldCancel(r, i))
      && (started ==> !ShouldCancel(r, item))
  {}

  /** The registry along a batch head: work is counted, closed items stay closed. */
  lemma {:induction false} BatchBegunCounts(reg: Registry, owner: map<Token, ItemId>, pins: map<Token, nat>,
                                            tokens: seq<Token>, now: int)
    requires RegOk(reg)
    ensures var (reg', pins', entries) := BatchBegun(reg, owner, pins, tokens, now);
      && RegOk(reg')
      && (forall i :: InFlight(reg', i) == InFlight(reg, i) + Items(entries, i))
      && (forall i :: i in reg' && reg'[i].status == Cleaned ==> i in reg && reg[i].status == Cleaned)
      && (forall i :: ShouldCancel(reg, i) && InFlight(reg, i) > 0 ==> ShouldCancel(reg', i))
    decreases |tokens|
  {
    hide Begun, RegOk, Pin, Unpin, ShouldCancel, InFlight;
    if tokens == [] {
    } else if tokens[0] !in owner {
      BatchBegunCounts(reg, owner, pins, tokens[1..], now);
    } else {
      var t := tokens[0];
      var (reg1, started) := Begun(reg, owner[t], now);
      var pins1 := if started then Pin(pins, t) else Unpin(Pin(pins, t), t);
      BegunKeeps(reg, owner[t], now);
      BatchBegunCounts(reg1, owner, pins1, tokens[1..], now);
      var rest := BatchBegun(reg1, owner, pins1, tokens[1..], now).2;
      assert ([Entry(t, owner[t])] + rest)[1..] == rest;
    }
  }

  lemma PinOne(pins: map<Token, nat>, t: Token)
    requires Positive(pins)
    ensures Positive(Pin(pins, t)) && Unpin(Pin(pins, t), t) == pins
    ensures forall u :: PinCount(Pin(pins, t), u) == PinCount(pins, u) + if u == t then 1 else 0
  {}

  /** The pins along a batch head: those of the admitted entries, whose states are stored. */
  lemma {:induction false} BatchBegunPins(reg: Registry, owner: map<Token, ItemId>, pins: map<Token, nat>,
                                          tokens: seq<Token>, now: int)
    requires Positive(pins)
    ensures var (reg', pins', entries) := BatchBegun(reg, owner, pins, tokens, now);
      && Positive(pins')
      && (forall t :: PinCount(pins', t) == PinCount(pins, t) + Tokens(entries, t))
      && (forall k :: 0 <= k < |entries| ==>
            entries[k].token in owner && owner[entries[k].token] == entries[k].item)
    decreases |tokens|
  {
    hide Begun, Pin, Unpin, Positive, PinCount;
    if tokens == [] {
    } else if tokens[0] !in owner {
      BatchBegunPins(reg, owner, pins, tokens[1..], now);
    } else {
      var t := tokens[0];
      var (reg1, started) := Begun(reg, owner[t], now);
      PinOne(pins, t);
      var pins1 := if started then Pin(pins, t) else pins;
      BatchBegunPins(reg1, owner, pins1, tokens[1..], now);
      var rest := BatchBegun(reg1, owner, pins1, tokens[1..], now).2;
      assert ([Entry(t, owner[t])] + rest)[1..] == rest;
    }
  }

  /** The head of a step batch pins and begins exactly its entries, and backs out of everything else. */
  lemma BatchBegunKeeps(reg: Registry, owner: map<Token, ItemId>, pins: map<Token, nat>, tokens: seq<Token>, now: int)
    requires RegOk(reg) && Positive(pins)
    ensures var (reg', pins', entries) := BatchBegun(reg, owner, pins, tokens, now);
      && RegOk(reg') && Positive(pins')
      && (forall i :: InFlight(reg', i) == InFlight(reg, i) + Items(entries, i))
      && (forall t :: PinCount(pins', t) == PinCount(pins, t) + Tokens(entries, t))
      && (forall i :: i in reg' && reg'[i].status == Cleaned ==> i in reg && reg[i].status == Cleaned)
      && (forall i :: ShouldCancel(reg, i) && InFlight(reg, i) > 0 ==> ShouldCancel(reg', i))
      && (forall k :: 0 <= k < |entries| ==>
            entries[k].token in owner && owner[entries[k].token] == entries[k].item)
  {
    hide BatchBegun, RegOk, Positive, InFlight, PinCount, ShouldCancel;
    BatchBegunCounts(reg, owner, pins, tokens, now);
    BatchBegunPins(reg, owner, pins, tokens, now);
  }

  lemma FinishedKeeps(reg: Registry, item: ItemId, now: int, retention: int)
    requires RegOk(reg) && InFlight(reg, item) > 0
    ensures var r := Finished(reg, item, now, retention);
      && RegOk(r)
      && (forall i :: InFlight(r, i) == InFlight(reg, i) - (if i == item then 1 else 0))
      && (forall i :: i in r && r[i].status == Cleaned ==> i in reg && reg[i].status == Cleaned)
      && (forall i :: ShouldCancel(r, i) <==> ShouldCancel(reg, i))
  {}

  lemma {:induction false} AllFinishedKeeps(reg: Registry, entries: seq<Entry>, now: int, retention: int)
    requires RegOk(reg)
    requires forall i :: InFlight(reg, i) >= Items(entries, i)
    ensures var r := AllFinished(reg, entries, now, retention);
      && RegOk(r)
      && (forall i :: InFlight(r, i) == InFlight(reg, i) - Items(entries, i))
      && (forall i :: i in r && r[i].status == Cleaned ==> i in reg && reg[i].status == Cleaned)
      && (forall i :: ShouldCancel(r, i) <==> ShouldCancel(reg, i))
    decreases |entries|
  {
    hide Finished;
    if entries == [] {
    } else {
      var item := entries[0].item;
      assert InFlight(reg, item) >= Items(entries, item) > 0;
      FinishedKeeps(reg, item, now, retention);
      var r := Finished(reg, item, now, retention);
      forall i ensures InFlight(r, i) >= Items(entries[1..], i) {
        assert InFlight(reg, i) >= Items(entries, i);
      }
      AllFinishedKeeps(r, entries[1..], now, retention);
    }
  }

  lemma {:induction false} AllUnpinnedKeeps(pins: map<Token, nat>, entries: seq<Entry>)
    requires Positive(pins)
    requires forall t :: PinCount(pins, t) >= Tokens(entries, t)
    ensures var r := AllUnpinned(pins, entries);
      && Positive(r)
      && (forall t :: PinCount(r, t) == PinCount(pins, t) - Tokens(entries, t))
  {
    if entries == [] {
    } else {
      var u := entries[0].token;
      assert PinCount(pins, u) >= Tokens(entries, u) > 0;
      var r := Unpin(pins, u);
      forall t ensures PinCount(r, t) == PinCount(pins, t) - (if t == u then 1 else 0) >= Tokens(entries[1..], t) {
        assert PinCount(pins, t) >= Tokens(entries, t);
      }
      AllUnpinnedKeeps(r, entries[1..]);
    }
  }

  lemma CancelledKeeps(reg: Registry, item: ItemId, now: int, retention: int)
    requires RegOk(reg)
    ensures var r := Cancelled(reg, item, now, retention);
      && RegOk(r) && (forall i :: InFlight(r, i) == InFlight(reg, i))
      && (forall i :: i in r && r[i].status == Cleaned ==> i in reg && reg[i].status == Cleaned)
      && (forall i :: ShouldCancel(reg, i) && InFlight(reg, i) > 0 ==> ShouldCancel(r, i))
      && ShouldCancel(r, item)
  {}

  // ---------------------------------------------------------------- every step keeps the invariant

  /** Work counted in the registry, pins and liveness after brackets and counts changed together. */
  lemma AfterOpen(s: State, s': State, x: Bracket)
    requires Inv(s) && s'.brackets == s.brackets[s.next := x] && s'.next == s.next + 1 && s'.owner == s.owner
    requires RegOk(s'.reg) && Positive(s'.pins)
    requires forall i :: InFlight(s'.reg, i) == InFlight(s.reg, i) + Holds(x, i)
    requires forall t :: PinCount(s'.pins, t) == PinCount(s.pins, t) + PinsOf(x, t)
    requires forall i :: i in s'.reg && s'.reg[i].status == Cleaned ==> i in s.reg && s.reg[i].status == Cleaned
    requires x.Batch? ==> forall k :: 0 <= k < |x.entries| ==>
        x.entries[k].token in s.owner && s.owner[x.entries[k].token] == x.entries[k].item
    ensures Inv(s')
  {
    forall i ensures InFlight(s'.reg, i) == Open(s'.brackets, i) {
      OpenAdd(s.brackets, s.next, x, i, "");
    }
    forall t ensures PinCount(s'.pins, t) == Pinned(s'.brackets, t) {
      OpenAdd(s.brackets, s.next, x, "", t);
    }
  }

  lemma AfterClose(s: State, s': State, b: nat)
    requires Inv(s) && b in s.brackets && s'.brackets == s.brackets - {b} && s'.next == s.next
    requires s'.owner == s.owner
    requires RegOk(s'.reg) && Positive(s'.pins)
    requires forall i :: InFlight(s'.reg, i) == InFlight(s.reg, i) - Holds(s.brackets[b], i)
    requires forall t :: PinCount(s'.pins, t) == PinCount(s.pins, t) - PinsOf(s.brackets[b], t)
    requires forall i :: i in s'.reg && s'.reg[i].status == Cleaned ==> i in s.reg && s.reg[i].status == Cleaned
    ensures Inv(s')
  {
    forall i ensures InFlight(s'.reg, i) == Open(s'.brackets, i) {
      OpenRemove(s.brackets, b, i, "");
    }
    forall t ensures PinCount(s'.pins, t) == Pinned(s'.brackets, t) {
      OpenRemove(s.brackets, b, "", t);
    }
  }

  /** An open bracket is counted in the registry and in the pins. */
  lemma OpenCounts(s: State, b: nat)
    requires Inv(s) && b in s.brackets
    ensures forall i :: InFlight(s.reg, i) >= Holds(s.brackets[b], i)
    ensures forall t :: PinCount(s.pins, t) >= PinsOf(s.brackets[b], t)
  {
    forall i ensures InFlight(s.reg, i) >= Holds(s.brackets[b], i) {
      OpenRemove(s.brackets, b, i, "");
    }
    forall t ensures PinCount(s.pins, t) >= PinsOf(s.brackets[b], t) {
      OpenRemove(s.brackets, b, "", t);
    }
  }

  lemma {:induction false} EntryCounts(entries: seq<Entry>, k: nat)
    requires k < |entries|
    ensures Items(entries, entries[k].item) > 0 && Tokens(entries, entries[k].token) > 0
  {
    if k == 0 {
    } else {
      EntryCounts(entries[1..], k - 1);
    }
  }

  /** A state an open batch works on is pinned, and its item has work in flight. */
  lemma EntryPinned(s: State, b: nat, k: nat)
    requires Inv(s) && b in s.brackets && s.brackets[b].Batch? && k < |s.brackets[b].entries|
    ensures s.brackets[b].entries[k].token in s.pins
    ensures InFlight(s.reg, s.brackets[b].entries[k].item) > 0
  {
    OpenCounts(s, b);
    var e := s.brackets[b].entries[k];
    EntryCounts(s.brackets[b].entries, k);
    assert InFlight(s.reg, e.item) >= Holds(s.brackets[b], e.item);
    assert PinCount(s.pins, e.token) >= PinsOf(s.brackets[b], e.token);
  }

  /** New states go only to items that are not closed, so a cleaned item gets none. */
  lemma StoredKeeps(s: State, item: ItemId, made: set<Token>)
    requires Inv(s)
    ensures Inv(s.(owner := Stored(s, item, made)))
    ensures ShouldCancel(s.reg, item) ==> Stored(s, item, made) == s.owner
    ensures forall i :: i != item ==> OwnedBy(Stored(s, item, made), i) == OwnedBy(s.owner, i)
  {
    var s' := s.(owner := Stored(s, item, made));
    forall i | i != item ensures OwnedBy(s'.owner, i) == OwnedBy(s.owner, i) {}
  }

  /** Dropping states that no open batch works on. */
  lemma DroppedKeeps(s: State, owner: map<Token, ItemId>)
    requires Inv(s)
    requires forall t :: t in owner ==> t in s.owner && owner[t] == s.owner[t]
    requires forall t :: t in s.owner && t in s.pins ==> t in owner
    ensures Inv(s.(owner := owner))
  {
    var s' := s.(owner := owner);
    forall b, k | b in s.brackets && s.brackets[b].Batch? && 0 <= k < |s.brackets[b].entries|
      ensures s.brackets[b].entries[k].token in owner
          && owner[s.brackets[b].entries[k].token] == s.brackets[b].entries[k].item
    {
      EntryPinned(s, b, k);
    }
    forall i | i in s.reg && s.reg[i].status == Cleaned ensures OwnedBy(owner, i) == {} {
      assert OwnedBy(owner, i) <= OwnedBy(s.owner, i);
    }
  }

  lemma SweptKeeps(s: State)
    requires Inv(s)
    ensures Inv(s.(reg := Swept(s.reg, s.now)))
    ensures forall i :: InFlight(Swept(s.reg, s.now), i) == InFlight(s.reg, i)
  {}

  /** While no work is open on an item none of its states is pinned. */
  lemma IdleNotPinned(s: State, item: ItemId, t: Token)
    requires Inv(s) && InFlight(s.reg, item) == 0 && t in OwnedBy(s.owner, item)
    ensures t !in s.pins
  {
    if t in s.pins {
      assert PinCount(s.pins, t) == Pinned(s.brackets, t) > 0;
      SumZero(PinMap(s.brackets, t));
      var b :| b in PinMap(s.brackets, t) && PinMap(s.brackets, t)[b] > 0;
      var k := FirstEntry(s.brackets[b].entries, t);
      EntryPinned(s, b, k);
    }
  }

  lemma {:induction false} FirstEntry(entries: seq<Entry>, t: Token) returns (k: nat)
    requires Tokens(entries, t) > 0
    ensures k < |entries| && entries[k].token == t
  {
    if entries[0].token == t {
      k := 0;
    } else {
      k := FirstEntry(entries[1..], t);
      k := k + 1;
    }
  }

  lemma CleanedUpKeeps(s: State, item: ItemId, retention: int)
    requires Inv(s)
    ensures Inv(CleanedUp(s, item, retention).0)
    ensures CleanedUp(s, item, retention).1 <==> InFlight(s.reg, item) == 0
  {
    var swept := s.(reg := Swept(s.reg, s.now));
    SweptKeeps(s);
    if InFlight(swept.reg, item) == 0 {
      forall t | t in OwnedBy(s.owner, item) ensures t !in s.pins {
        IdleNotPinned(s, item, t);
      }
      var owner := s.owner - OwnedBy(s.owner, item);
      DroppedKeeps(swept, owner);
      MarkKeeps(swept.(owner := owner), item, retention);
    }
  }

  lemma MarkKeeps(s: State, item: ItemId, retention: int)
    requires Inv(s) && InFlight(s.reg, item) == 0 && OwnedBy(s.owner, item) == {}
    ensures Inv(s.(reg := MarkedCleaned(s.reg, item, s.now, retention)))
  {
    assert forall i :: InFlight(MarkedCleaned(s.reg, item, s.now, retention), i) == InFlight(s.reg, i);
  }

  lemma BeginOneKeeps(s: State, item: ItemId, creates: bool, retention: nat)
    requires Inv(s)
    ensures Inv(Next(s, BeginOne(item, creates), retention))
  {
    BegunKeeps(s.reg, item, s.now);
    if Begun(s.reg, item, s.now).1 {
      AfterOpen(s, Next(s, BeginOne(item, creates), retention), One(item, creates));
    }
  }

  lemma BeginBatchKeeps(s: State, tokens: seq<Token>, retention: nat)
    requires Inv(s)
    ensures Inv(Next(s, BeginBatch(tokens), retention))
  {
    hide BatchBegun;
    BatchBegunKeeps(s.reg, s.owner, s.pins, tokens, s.now);
    AfterOpen(s, Next(s, BeginBatch(tokens), retention), Batch(BatchBegun(s.reg, s.owner, s.pins, tokens, s.now).2));
  }

  lemma CloseOneKeeps(s: State, b: nat, made: set<Token>, retention: nat)
    requires Inv(s) && b in s.brackets && s.brackets[b].One?
    ensures Inv(Next(s, CloseOne(b, made), retention))
  {
    var item := s.brackets[b].item;
    var stored := if s.brackets[b].creates then Stored(s, item, made) else s.owner;
    OpenCounts(s, b);
    assert InFlight(s.reg, item) >= Holds(s.brackets[b], item);
    StoredKeeps(s, item, made);
    FinishedKeeps(s.reg, item, s.now, retention);
    hide Finished, Stored;
    AfterClose(s.(owner := stored), Next(s, CloseOne(b, made), retention), b);
  }

  lemma CloseBatchKeeps(s: State, b: nat, retention: nat)
    requires Inv(s) && b in s.brackets && s.brackets[b].Batch?
    ensures Inv(Next(s, CloseBatch(b), retention))
  {
    hide AllFinished, AllUnpinned;
    OpenCounts(s, b);
    var entries := s.brackets[b].entries;
    forall i ensures InFlight(s.reg, i) >= Items(entries, i) {
      assert InFlight(s.reg, i) >= Holds(s.brackets[b], i);
    }
    forall t ensures PinCount(s.pins, t) >= Tokens(entries, t) {
      assert PinCount(s.pins, t) >= PinsOf(s.brackets[b], t);
    }
    AllUnpinnedKeeps(s.pins, entries);
    AllFinishedKeeps(s.reg, entries, s.now, retention);
    AfterClose(s, Next(s, CloseBatch(b), retention), b);
  }

  lemma CancelKeeps(s: State, item: ItemId, retention: nat)
    requires Inv(s)
    ensures Inv(s.(reg := Cancelled(s.reg, item, s.now, retention)))
  {
    hide Cancelled;
    CancelledKeeps(s.reg, item, s.now, retention);
  }

  lemma TickKeeps(s: State, elapsed: nat)
    requires Inv(s)
    ensures Inv(s.(now := s.now + elapsed))
  {}

  /** Every atomic step keeps the invariant: the registry counts exactly the open work, the pins
      are exactly those of open batches, states being worked on are stored, and an item
      marked cleaned owns none. */
  lemma NextKeepsInv(s: State, a: Action, retention: nat)
    requires Inv(s)
    ensures Inv(Next(s, a, retention))
  {
    hide Inv, Begun, BatchBegun, Stored, Finished, AllFinished, AllUnpinned, Cancelled, CleanedUp, Swept;
    match a
    case Tick(elapsed) => TickKeeps(s, elapsed);
    case BeginOne(item, creates) => BeginOneKeeps(s, item, creates, retention);
    case BeginBatch(tokens) => BeginBatchKeeps(s, tokens, retention);
    case CloseOne(b, made) =>
      if b in s.brackets && s.brackets[b].One? {
        CloseOneKeeps(s, b, made, retention);
      }
    case Promote(e, made) => StoredKeeps(s, e.item, made);
    case CloseBatch(b) =>
      if b in s.brackets && s.brackets[b].Batch? {
        CloseBatchKeeps(s, b, retention);
      }
    case Cancel(item) => CancelKeeps(s, item, retention);
    case Cleanup(item) => CleanedUpKeeps(s, item, retention);
    case Sweep => SweptKeeps(s);
    case Gc(doomed) => DroppedKeeps(s, Next(s, a, retention).owner);
  }

  lemma InitialInv(owner: map<Token, ItemId>, now: int)
    ensures Inv(Initial(owner, now))
  {
    forall i ensures Open(map[], i) == 0 { SumZero(HoldMap(map[], i)); }
    forall t ensures Pinned(map[], t) == 0 { SumZero(PinMap(map[], t)); }
  }

  lemma {:induction false} RunKeepsInv(s: State, actions: seq<Action>, retention: nat)
    requires Inv(s)
    ensures Inv(Run(s, actions, retention))
    ensures s.now <= Run(s, actions, retention).now && s.next <= Run(s, actions, retention).next
    decreases |actions|
  {
    hide Inv;
    if actions == [] {
    } else {
      NextKeepsInv(s, actions[0], retention);
      RunKeepsInv(Next(s, actions[0], retention), actions[1..], retention);
    }
  }

  // ---------------------------------------------------------------- pins against work in flight

  /** The pins on a set of tokens. */
  ghost function PinsOn(s: State, tokens: set<Token>): nat {
    Sum(map t | t in tokens :: PinCount(s.pins, t))
  }

  function TokenMap(entries: seq<Entry>, tokens: set<Token>): map<Token, nat> {
    map t | t in tokens :: Tokens(entries, t)
  }

  function BracketPins(b: Bracket, tokens: set<Token>): map<Token, nat> {
    map t | t in tokens :: PinsOf(b, t)
  }

  ghost function AllPins(brackets: map<nat, Bracket>, tokens: set<Token>): map<Token, nat> {
    map t | t in tokens :: Pinned(brackets, t)
  }

  /** Among tokens that all belong to `item`, a batch holds no more pins than begin calls. */
  lemma {:induction false} EntriesPins(entries: seq<Entry>, tokens: set<Token>, item: ItemId)
    requires forall k :: 0 <= k < |entries| && entries[k].token in tokens ==> entries[k].item == item
    ensures Sum(TokenMap(entries, tokens)) <= Items(entries, item)
    decreases |entries|
  {
    if entries == [] {
      SumZero(TokenMap(entries, tokens));
    } else {
      var u := entries[0].token;
      var head: map<Token, nat> := map t | t in tokens :: if u == t then 1 else 0;
      EntriesPins(entries[1..], tokens, item);
      SumAdd(TokenMap(entries, tokens), head, TokenMap(entries[1..], tokens));
      SumSingle(head, u);
    }
  }

  lemma BracketPinsBelow(b: Bracket, tokens: set<Token>, item: ItemId)
    requires b.Batch? ==> forall k :: 0 <= k < |b.entries| && b.entries[k].token in tokens ==> b.entries[k].item == item
    ensures Sum(BracketPins(b, tokens)) <= Holds(b, item)
  {
    if b.Batch? {
      EntriesPins(b.entries, tokens, item);
      assert BracketPins(b, tokens) == TokenMap(b.entries, tokens);
    } else {
      SumZero(BracketPins(b, tokens));
    }
  }

  lemma {:induction false} PinsBelowOpen(brackets: map<nat, Bracket>, tokens: set<Token>, item: ItemId)
    requires forall b, k :: b in brackets && brackets[b].Batch? && 0 <= k < |brackets[b].entries| ==>
      brackets[b].entries[k].token in tokens ==> brackets[b].entries[k].item == item
    ensures Sum(AllPins(brackets, tokens)) <= Open(brackets, item)
    decreases |brackets|
  {
    if brackets == map[] {
      forall t ensures Pinned(brackets, t) == 0 { SumZero(PinMap(brackets, t)); }
      SumZero(AllPins(brackets, tokens));
    } else {
      var b :| b in brackets;
      assert (brackets - {b}).Keys == brackets.Keys - {b};
      PinsBelowOpen(brackets - {b}, tokens, item);
      BracketPinsBelow(brackets[b], tokens, item);
      OpenRemove(brackets, b, item, "");
      SplitPins(brackets, b, tokens);
    }
  }

  lemma SplitPins(brackets: map<nat, Bracket>, b: nat, tokens: set<Token>)
    requires b in brackets
    ensures Sum(AllPins(brackets, tokens))
        == Sum(BracketPins(brackets[b], tokens)) + Sum(AllPins(brackets - {b}, tokens))
  {
    forall t ensures Pinned(brackets, t) == PinsOf(brackets[b], t) + Pinned(brackets - {b}, t) {
      OpenRemove(brackets, b, "", t);
    }
    hide Sum, Pinned, PinsOf;
    SumAdd(AllPins(brackets, tokens), BracketPins(brackets[b], tokens), AllPins(brackets - {b}, tokens));
  }

  // ---------------------------------------------------------------- what all runs promise

  /** Bracket accounting, over every interleaving: the registry's counter is the number of
      open brackets, closed records have none, the pins on an item's states together never
      outnumber its work in flight, and sweeping never forgets an item with open work. */
  lemma BracketAccounting(owner: map<Token, ItemId>, now: int, actions: seq<Action>, retention: nat, item: ItemId)
    ensures
      var s := Run(Initial(owner, now), actions, retention);
      && InFlight(s.reg, item) == Open(s.brackets, item)
      && (item in s.reg && s.reg[item].expiresAt.Some? ==> Open(s.brackets, item) == 0)
      && (Open(s.brackets, item) > 0 ==> item in Swept(s.reg, s.now) && Swept(s.reg, s.now)[item] == s.reg[item])
      && PinsOn(s, OwnedBy(s.owner, item)) <= InFlight(s.reg, item)
  {
    InitialInv(owner, now);
    RunKeepsInv(Initial(owner, now), actions, retention);
    var s := Run(Initial(owner, now), actions, retention);
    hide Run;
    PinsBelowOpen(s.brackets, OwnedBy(s.owner, item), item);
    assert AllPins(s.brackets, OwnedBy(s.owner, item)) == map t | t in OwnedBy(s.owner, item) :: PinCount(s.pins, t);
    assert RecordOk(Lookup(s.reg, item));
  }

  /** Cleanup is never put off because of pins: with no work in flight it deletes. */
  lemma CleanupDefersOnlyForWork(owner: map<Token, ItemId>, now: int, actions: seq<Action>, retention: nat,
                                 item: ItemId)
    ensures
      var s := Run(Initial(owner, now), actions, retention);
      && (CleanedUp(s, item, retention).1 <==> InFlight(s.reg, item) == 0)
      && (CleanedUp(s, item, retention).1 ==> OwnedBy(CleanedUp(s, item, retention).0.owner, item) == {})
  {
    InitialInv(owner, now);
    RunKeepsInv(Initial(owner, now), actions, retention);
    CleanedUpKeeps(Run(Initial(owner, now), actions, retention), item, retention);
  }

  /** Inside an open batch the parent of every promotion is still stored, whatever GC deleted. */
  lemma ParentResolves(owner: map<Token, ItemId>, now: int, actions: seq<Action>, retention: nat, b: nat, k: nat)
    requires
      var s := Run(Initial(owner, now), actions, retention);
      b in s.brackets && s.brackets[b].Batch? && k < |s.brackets[b].entries|
    ensures
      var s := Run(Initial(owner, now), actions, retention);
      var e := s.brackets[b].entries[k];
      e.token in s.owner && s.owner[e.token] == e.item
  {
    InitialInv(owner, now);
    RunKeepsInv(Initial(owner, now), actions, retention);
  }

  /** A cancelled, drained or cleaned item gets no new state in any step. */
  lemma NoNewStates(s: State, a: Action, retention: nat, item: ItemId)
    requires Inv(s) && ShouldCancel(s.reg, item)
    ensures OwnedBy(Next(s, a, retention).owner, item) <= OwnedBy(s.owner, item)
  {
    hide Inv, Begun, BatchBegun, Finished, AllFinished, AllUnpinned, Cancelled, Swept;
    match a
    case CloseOne(b, made) =>
      if b in s.brackets && s.brackets[b].One? {
        StoredKeeps(s, s.brackets[b].item, made);
      }
    case Promote(e, made) => StoredKeeps(s, e.item, made);
    case _ =>
  }

  // ---------------------------------------------------------------- cancellation

  /** A cancelled item with open work stays cancelled through any step. */
  lemma StaysCancelled(s: State, a: Action, retention: nat, item: ItemId)
    requires Inv(s) && ShouldCancel(s.reg, item) && InFlight(s.reg, item) > 0
    ensures ShouldCancel(Next(s, a, retention).reg, item)
  {
    assert RecordOk(s.reg[item]);
    hide Begun, BatchBegun, Finished, AllFinished, AllUnpinned, Cancelled;
    match a
    case BeginOne(i, _) => BegunKeeps(s.reg, i, s.now);
    case BeginBatch(tokens) => BatchBegunKeeps(s.reg, s.owner, s.pins, tokens, s.now);
    case CloseOne(b, made) =>
      if b in s.brackets && s.brackets[b].One? {
        OpenCounts(s, b);
        assert InFlight(s.reg, s.brackets[b].item) >= Holds(s.brackets[b], s.brackets[b].item);
        FinishedKeeps(s.reg, s.brackets[b].item, s.now, retention);
      }
    case CloseBatch(b) =>
      if b in s.brackets && s.brackets[b].Batch? {
        OpenCounts(s, b);
        forall i ensures InFlight(s.reg, i) >= Items(s.brackets[b].entries, i) {
          assert InFlight(s.reg, i) >= Holds(s.brackets[b], i);
        }
        AllFinishedKeeps(s.reg, s.brackets[b].entries, s.now, retention);
      }
    case Cancel(i) => CancelledKeeps(s.reg, i, s.now, retention);
    case _ =>
  }

  /** Bracket numbers are never reused and an open bracket never changes. */
  lemma BracketFixed(s: State, a: Action, retention: nat, b: nat)
    requires b < s.next && b in Next(s, a, retention).brackets
    ensures b in s.brackets && s.brackets[b] == Next(s, a, retention).brackets[b]
    ensures s.next <= Next(s, a, retention).next
  {}

  lemma {:induction false} CancelledWhileOpen(s: State, actions: seq<Action>, retention: nat, b: nat, item: ItemId)
    requires Inv(s) && b in s.brackets && Holds(s.brackets[b], item) > 0 && ShouldCancel(s.reg, item)
    requires b in Run(s, actions, retention).brackets
    ensures ShouldCancel(Run(s, actions, retention).reg, item)
    ensures OwnedBy(Run(s, actions, retention).owner, item) <= OwnedBy(s.owner, item)
    decreases |actions|
  {
    hide Next;
    if actions == [] {
    } else {
      var s' := Next(s, actions[0], retention);
      NextKeepsInv(s, actions[0], retention);
      OpenCounts(s, b);
      assert InFlight(s.reg, item) >= Holds(s.brackets[b], item);
      StaysCancelled(s, actions[0], retention, item);
      NoNewStates(s, actions[0], retention, item);
      StillOpen(s, actions, retention, b);
      CancelledWhileOpen(s', actions[1..], retention, b, item);
    }
  }

  lemma {:induction false} StillOpen(s: State, actions: seq<Action>, retention: nat, b: nat)
    requires Inv(s) && b < s.next && b in Run(s, actions, retention).brackets
    ensures b in s.brackets
    ensures actions != [] ==> b in Next(s, actions[0], retention).brackets
                              && Next(s, actions[0], retention).brackets[b] == s.brackets[b]
    decreases |actions|
  {
    hide Inv;
    if actions == [] {
    } else {
      var s' := Next(s, actions[0], retention);
      NextKeepsInv(s, actions[0], retention);
      assert s.next <= s'.next;
      StillOpen(s', actions[1..], retention, b);
      BracketFixed(s, actions[0], retention, b);
    }
  }

  /** Cancel is final for open work, over every interleaving: as long as a bracket that was open when its
      item was cancelled stays open, and in the step that closes it, the item gets no new state. */
  lemma CancelSafety(owner: map<Token, ItemId>, now: int, before: seq<Action>, after: seq<Action>, last: Action,
                     retention: nat, b: nat, item: ItemId)
    requires
      var s := Run(Initial(owner, now), before, retention);
      && b in s.brackets && Holds(s.brackets[b], item) > 0
      && b in Run(Next(s, Cancel(item), retention), after, retention).brackets
    ensures
      var s := Run(Initial(owner, now), before, retention);
      var s2 := Run(Next(s, Cancel(item), retention), after, retention);
      && OwnedBy(s2.owner, item) <= OwnedBy(s.owner, item)
      && OwnedBy(Next(s2, last, retention).owner, item) <= OwnedBy(s.owner, item)
  {
    InitialInv(owner, now);
    RunKeepsInv(Initial(owner, now), before, retention);
    var s := Run(Initial(owner, now), before, retention);
    var s1 := Next(s, Cancel(item), retention);
    NextKeepsInv(s, Cancel(item), retention);
    CancelledKeeps(s.reg, item, s.now, retention);
    hide Run;
    CancelledWhileOpen(s1, after, retention, b, item);
    RunKeepsInv(s1, after, retention);
    NoNewStates(Run(s1, after, retention), last, retention, item);
  }

  // ---------------------------------------------------------------- cleanup

  /** Nothing stored and nothing open. */
  ghost predicate Quiet(s: State, item: ItemId) {
    OwnedBy(s.owner, item) == {} && InFlight(s.reg, item) == 0
  }

  /** The item's work counter never goes up along the run: no begin of it starts. */
  predicate NeverBegins(s: State, actions: seq<Action>, retention: nat, item: ItemId)
    decreases |actions|
  {
    actions != [] ==>
      var s' := Next(s, actions[0], retention);
      InFlight(s'.reg, item) <= InFlight(s.reg, item) && NeverBegins(s', actions[1..], retention, item)
  }

  /** Only a begin ends quiet. */
  lemma QuietStep(s: State, a: Action, retention: nat, item: ItemId)
    requires Inv(s) && Quiet(s, item) && InFlight(Next(s, a, retention).reg, item) == 0
    ensures Quiet(Next(s, a, retention), item)
  {
    hide Begun, BatchBegun, Finished, AllFinished, AllUnpinned, Cancelled, Swept;
    match a
    case CloseOne(b, made) =>
      if b in s.brackets && s.brackets[b].One? {
        OpenCounts(s, b);
        assert InFlight(s.reg, s.brackets[b].item) >= Holds(s.brackets[b], s.brackets[b].item);
        StoredKeeps(s, s.brackets[b].item, made);
      }
    case Promote(e, made) =>
      assert e.token in s.owner && s.owner[e.token] == item ==> e.token in OwnedBy(s.owner, item);
      StoredKeeps(s, e.item, made);
    case _ =>
  }

  lemma {:induction false} QuietRun(s: State, actions: seq<Action>, retention: nat, item: ItemId)
    requires Inv(s) && Quiet(s, item) && NeverBegins(s, actions, retention, item)
    ensures Quiet(Run(s, actions, retention), item)
    decreases |actions|
  {
    hide Inv, Next;
    if actions == [] {
    } else {
      NextKeepsInv(s, actions[0], retention);
      QuietStep(s, actions[0], retention, item);
      QuietRun(Next(s, actions[0], retention), actions[1..], retention, item);
    }
  }

  /** Marked cleaned, and not to be forgotten before `deadline`. */
  ghost predicate ClosedUntil(s: State, item: ItemId, deadline: int, retention: nat) {
    && item in s.reg && s.reg[item].status == Cleaned
    && s.reg[item].expiresAt.Some? && s.reg[item].expiresAt.value >= deadline
    && deadline <= s.now + retention
  }

  lemma BatchBegunClosed(reg: Registry, owner: map<Token, ItemId>, pins: map<Token, nat>, tokens: seq<Token>, now: int,
                         item: ItemId)
    requires item in reg && reg[item].status == Cleaned && !Expired(reg[item], now)
    ensures var r := BatchBegun(reg, owner, pins, tokens, now).0;
      item in r && r[item] == reg[item]
    decreases |tokens|
  {
    if tokens == [] {
    } else {
      if tokens[0] in owner {
        var (reg', started) := Begun(reg, owner[tokens[0]], now);
        assert item in reg' && reg'[item] == reg[item];
        var pins' := if started then Pin(pins, tokens[0]) else Unpin(Pin(pins, tokens[0]), tokens[0]);
        BatchBegunClosed(reg', owner, pins', tokens[1..], now, item);
      } else {
        BatchBegunClosed(reg, owner, pins, tokens[1..], now, item);
      }
    }
  }

  lemma AllFinishedOther(reg: Registry, entries: seq<Entry>, now: int, retention: int, item: ItemId)
    requires item in reg && Items(entries, item) == 0
    ensures var r := AllFinished(reg, entries, now, retention);
      item in r && r[item] == reg[item]
    decreases |entries|
  {
    if entries == [] {
    } else {
      AllFinishedOther(Finished(reg, entries[0].item, now, retention), entries[1..], now, retention, item);
    }
  }

  lemma FinishedOther(reg: Registry, other: ItemId, now: int, retention: int, item: ItemId)
    requires item in reg && other != item
    ensures item in Finished(reg, other, now, retention) && Finished(reg, other, now, retention)[item] == reg[item]
  {}

  /** A closed item holds no bracket open. */
  lemma ClosedHoldsNothing(s: State, item: ItemId, b: nat)
    requires Inv(s) && item in s.reg && s.reg[item].status == Cleaned && b in s.brackets
    ensures Holds(s.brackets[b], item) == 0
  {
    assert RecordOk(s.reg[item]) && InFlight(s.reg, item) == 0;
    OpenCounts(s, b);
    assert InFlight(s.reg, item) >= Holds(s.brackets[b], item);
  }

  lemma ClosedStep(s: State, a: Action, retention: nat, item: ItemId, deadline: int)
    requires Inv(s) && ClosedUntil(s, item, deadline, retention) && s.now < deadline
    ensures ClosedUntil(Next(s, a, retention), item, deadline, retention)
  {
    hide Inv, BatchBegun, AllFinished, AllUnpinned, Finished, Stored;
    match a
    case BeginBatch(tokens) => BatchBegunClosed(s.reg, s.owner, s.pins, tokens, s.now, item);
    case CloseOne(b, made) =>
      if b in s.brackets && s.brackets[b].One? {
        ClosedHoldsNothing(s, item, b);
        FinishedOther(s.reg, s.brackets[b].item, s.now, retention, item);
      }
    case CloseBatch(b) =>
      if b in s.brackets && s.brackets[b].Batch? {
        ClosedHoldsNothing(s, item, b);
        AllFinishedOther(s.reg, s.brackets[b].entries, s.now, retention, item);
      }
    case _ =>
  }

  lemma {:induction false} ClosedRun(s: State, actions: seq<Action>, retention: nat, item: ItemId, deadline: int)
    requires Inv(s) && ClosedUntil(s, item, deadline, retention)
    requires Run(s, actions, retention).now < deadline
    ensures ClosedUntil(Run(s, actions, retention), item, deadline, retention)
    decreases |actions|
  {
    hide Inv, Next, ClosedUntil;
    if actions == [] {
    } else {
      RunKeepsInv(s, actions, retention);
      NextKeepsInv(s, actions[0], retention);
      ClosedStep(s, actions[0], retention, item, deadline);
      ClosedRun(Next(s, actions[0], retention), actions[1..], retention, item, deadline);
    }
  }

  /** Cleanup never lies, over every interleaving: once it answered "deleted" the item owns no state
      until a later begin starts, and none can start before the retention period is over. */
  lemma CleanupSafety(owner: map<Token, ItemId>, now: int, before: seq<Action>, after: seq<Action>, retention: nat,
                      item: ItemId)
    requires CleanedUp(Run(Initial(owner, now), before, retention), item, retention).1
    ensures
      var s := Run(Initial(owner, now), before, retention);
      var s1 := CleanedUp(s, item, retention).0;
      var s2 := Run(s1, after, retention);
      && (NeverBegins(s1, after, retention, item) ==> OwnedBy(s2.owner, item) == {})
      && (s2.now < s.now + retention ==> OwnedBy(s2.owner, item) == {} && !Begun(s2.reg, item, s2.now).1)
  {
    InitialInv(owner, now);
    RunKeepsInv(Initial(owner, now), before, retention);
    var s := Run(Initial(owner, now), before, retention);
    var s1 := CleanedUp(s, item, retention).0;
    CleanedUpKeeps(s, item, retention);
    assert OwnedBy(s1.owner, item) == {};
    assert ClosedUntil(s1, item, s.now + retention, retention);
    hide Run;
    if NeverBegins(s1, after, retention, item) {
      QuietRun(s1, after, retention, item);
    }
    var s2 := Run(s1, after, retention);
    RunKeepsInv(s1, after, retention);
    if s2.now < s.now + retention {
      ClosedRun(s1, after, retention, item, s.now + retention);
    }
  }
}
