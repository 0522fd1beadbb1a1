/** The loops of the exec routes over the running registry and store (routers/exec.py,
    exec_backends.py): each is one atomic step of the item protocol. */
module ExecRoutes {
  import opened Wrappers
  import opened Lifecycle
  import opened StateFiles
  import opened Store = StateStore
  import opened ItemProtocol

  /** Why an item of a step batch is answered at once, or what it is stepped with: its item, environment and header. */
  datatype Admission = InvalidToken | ItemCancelled | Admitted(item: ItemId, envProfile: string, headerHash: string)

  /** What the head of a step batch decides about each token, one after the other. */
  function Admissions(reg: Registry, records: Records, tokens: seq<Token>, now: int): (r: seq<Admission>)
    ensures |r| == |tokens|
    decreases |tokens|
  {
    if tokens == [] then []
    else if tokens[0] !in records then [InvalidToken] + Admissions(reg, records, tokens[1..], now)
    else
      var record := records[tokens[0]];
      var (reg', started) := Begun(reg, record.itemId, now);
      [if started then Admitted(record.itemId, record.envProfile, record.headerHash) else ItemCancelled]
      + Admissions(reg', records, tokens[1..], now)
  }

  /** A token is answered as invalid when no state is stored under it, and as cancelled when its item is closed and its
      retention period is not over; every other token is admitted. Nothing the batch begins changes that. */
  lemma {:induction false} AdmissionsMean(reg: Registry, records: Records, tokens: seq<Token>, now: int)
    ensures forall k :: 0 <= k < |tokens| ==>
      Admissions(reg, records, tokens, now)[k] ==
        if tokens[k] !in records then InvalidToken
        else
          var r := records[tokens[k]];
          if r.itemId in reg && reg[r.itemId].status != Active
             && !(reg[r.itemId].expiresAt.Some? && reg[r.itemId].expiresAt.value <= now) then ItemCancelled
          else Admitted(r.itemId, r.envProfile, r.headerHash)
    decreases |tokens|
  {
    if tokens == [] {
    } else {
      var reg' := if tokens[0] in records then Begun(reg, records[tokens[0]].itemId, now).0 else reg;
      AdmissionsMean(reg', records, tokens[1..], now);
      forall i ensures (i in reg' && reg'[i].status != Active
          && !(reg'[i].expiresAt.Some? && reg'[i].expiresAt.value <= now))
        <==> (i in reg && reg[i].status != Active && !(reg[i].expiresAt.Some? && reg[i].expiresAt.value <= now)) {}
    }
  }

  /** The same states, some of them accessed since. */
  ghost predicate SameStates(a: Records, b: Records) {
    a.Keys == b.Keys && forall t :: t in a ==> a[t].(lastAccessedAt := 0) == b[t].(lastAccessedAt := 0)
  }

  lemma SameAt(a: Records, b: Records, t: Token)
    requires SameStates(a, b)
    ensures t in a <==> t in b
    ensures t in a ==>
      a[t].itemId == b[t].itemId && a[t].envProfile == b[t].envProfile && a[t].headerHash == b[t].headerHash
  {
    if t in a {
      assert a[t].(lastAccessedAt := 0) == b[t].(lastAccessedAt := 0);
    }
  }

  lemma SameTouched(a: Records, b: Records, t: Token, now: int)
    requires SameStates(a, b) && t in b
    ensures SameStates(a, b[t := b[t].(lastAccessedAt := now)])
  {}

  lemma BeginKeepsOwners(records: Records, t: Token, r: StateRecord)
    requires t in records && r.itemId == records[t].itemId
    ensures OwnerOf(records[t := r]) == OwnerOf(records)
  {}

  lemma {:induction false} BatchBegunAppend(reg: Registry, owner: map<Token, ItemId>, pins: map<Token, nat>,
                                            a: seq<Token>, b: seq<Token>, now: int)
    ensures
      var (reg1, pins1, entries1) := BatchBegun(reg, owner, pins, a, now);
      var (reg2, pins2, entries2) := BatchBegun(reg1, owner, pins1, b, now);
      BatchBegun(reg, owner, pins, a + b, now) == (reg2, pins2, entries1 + entries2)
    decreases |a|
  {
    hide Begun, Pin, Unpin;
    if a == [] {
      assert a + b == b;
      var more := BatchBegun(reg, owner, pins, b, now).2;
      assert [] + more == more;
    } else {
      assert (a + b)[0] == a[0] && (a + b)[1..] == a[1..] + b;
      var t := a[0];
      if t !in owner {
        BatchBegunAppend(reg, owner, pins, a[1..], b, now);
      } else {
        var (reg1, started) := Begun(reg, owner[t], now);
        var pins1 := if started then Pin(pins, t) else Unpin(Pin(pins, t), t);
        BatchBegunAppend(reg1, owner, pins1, a[1..], b, now);
        var (reg2, pins2, rest) := BatchBegun(reg1, owner, pins1, a[1..], now);
        var more := BatchBegun(reg2, owner, pins2, b, now).2;
        assert [Entry(t, owner[t])] + (rest + more) == [Entry(t, owner[t])] + rest + more;
      }
    }
  }

  lemma {:induction false} AdmissionsAppend(reg: Registry, records: Records, pins: map<Token, nat>, a: seq<Token>,
                                            b: seq<Token>, now: int)
    ensures Admissions(reg, records, a + b, now)
         == Admissions(reg, records, a, now)
            + Admissions(BatchBegun(reg, OwnerOf(records), pins, a, now).0, records, b, now)
    decreases |a|
  {
    hide Begun, Pin, Unpin;
    if a == [] {
      assert a + b == b;
    } else {
      assert (a + b)[0] == a[0] && (a + b)[1..] == a[1..] + b;
      var t := a[0];
      var (reg1, started) := if t in records then Begun(reg, records[t].itemId, now) else (reg, false);
      var pins1 := if t !in records then pins else if started then Pin(pins, t) else Unpin(Pin(pins, t), t);
      AdmissionsAppend(reg1, records, pins1, a[1..], b, now);
      var first, rest := Admissions(reg, records, a, now)[..1], Admissions(reg1, records, a[1..], now);
      var more := Admissions(BatchBegun(reg1, OwnerOf(records), pins1, a[1..], now).0, records, b, now);
      assert first + (rest + more) == first + rest + more;
    }
  }

  lemma BatchBegunOne(reg: Registry, records: Records, pins: map<Token, nat>, t: Token, now: int)
    ensures
      var (reg', started) := if t in records then Begun(reg, records[t].itemId, now) else (reg, false);
      && BatchBegun(reg, OwnerOf(records), pins, [t], now) ==
         (reg',
          if t !in records then pins else if started then Pin(pins, t) else Unpin(Pin(pins, t), t),
          if started then [Entry(t, records[t].itemId)] else [])
      && Admissions(reg, records, [t], now) ==
         [if t !in records then InvalidToken
          else if started then Admitted(records[t].itemId, records[t].envProfile, records[t].headerHash)
          else ItemCancelled]
  {
    assert [t][1..] == [];
    if t in records {
      assert [Entry(t, records[t].itemId)] + [] == [Entry(t, records[t].itemId)];
    }
    hide Begun, Pin, Unpin;
  }

  /** The head of execute_step_batch_process_pool. */
  method EnterBatch(reg: ItemLifecycleRegistry, store: StateStore, tokens: seq<Token>, now: int)
    returns (entries: seq<Entry>, answers: seq<Admission>)
    requires store.Valid()
    modifies reg, store
    ensures store.Valid()
    ensures (reg.records, store.pins, entries)
         == BatchBegun(old(reg.records), OwnerOf(old(store.records)), old(store.pins), tokens, now)
    ensures answers == Admissions(old(reg.records), old(store.records), tokens, now)
    ensures forall k :: 0 <= k < |tokens| ==>
      answers[k] ==
        if tokens[k] !in old(store.records) then InvalidToken
        else
          var r, items := old(store.records)[tokens[k]], old(reg.records);
          if r.itemId in items && items[r.itemId].status != Active
             && !(items[r.itemId].expiresAt.Some? && items[r.itemId].expiresAt.value <= now) then ItemCancelled
          else Admitted(r.itemId, r.envProfile, r.headerHash)
    ensures SameStates(old(store.records), store.records)
    ensures OwnerOf(store.records) == OwnerOf(old(store.records))
    ensures Untracked(store.disk, store.records) == Untracked(old(store.disk), old(store.records))
  {
    hide Consistent, CrashSafe, ApplyAll, Begun, Pin, Unpin, BatchBegun, Admissions, Untracked, SameStates, OwnerOf;
    entries, answers := [], [];
    ghost var reg0, records0, owner, pins0 := reg.records, store.records, OwnerOf(store.records), store.pins;
    BatchBegunNone(reg0, records0, pins0, tokens, now);
    for k := 0 to |tokens|
      invariant store.Valid() && OwnerOf(store.records) == owner && SameStates(records0, store.records)
      invariant Untracked(store.disk, store.records) == Untracked(old(store.disk), old(store.records))
      invariant (reg.records, store.pins, entries) == BatchBegun(reg0, owner, pins0, tokens[..k], now)
      invariant answers == Admissions(reg0, records0, tokens[..k], now)
    {
      var t := tokens[k];
      assert tokens[..k + 1] == tokens[..k] + [t];
      BatchBegunAppend(reg0, owner, pins0, tokens[..k], [t], now);
      AdmissionsAppend(reg0, records0, pins0, tokens[..k], [t], now);
      BatchBegunOne(reg.records, records0, store.pins, t, now);
      ghost var records := store.records;
      SameAt(records0, records, t);
      assert entries + [] == entries;
      var found, _ := store.ResolveAndPin(t, now);
      if found.None? {
        answers := answers + [InvalidToken];
      } else {
        BeginKeepsOwners(records, t, found.value);
        SameTouched(records0, records, t, now);
        var started := reg.Begin(found.value.itemId, now);
        if !started {
          store.UnpinOne(t);
          answers := answers + [ItemCancelled];
        } else {
          entries := entries + [Entry(t, found.value.itemId)];
          answers := answers + [Admitted(found.value.itemId, found.value.envProfile, found.value.headerHash)];
        }
      }
    }
    assert tokens[..|tokens|] == tokens;
    AdmissionsMean(reg0, records0, tokens, now);
  }

  lemma BatchBegunNone(reg: Registry, records: Records, pins: map<Token, nat>, tokens: seq<Token>, now: int)
    ensures BatchBegun(reg, OwnerOf(records), pins, tokens[..0], now) == (reg, pins, [])
    ensures Admissions(reg, records, tokens[..0], now) == [] && SameStates(records, records)
  {}

  lemma {:induction false} AllUnpinnedLast(pins: map<Token, nat>, entries: seq<Entry>, e: Entry)
    ensures AllUnpinned(pins, entries + [e]) == Unpin(AllUnpinned(pins, entries), e.token)
  {
    if entries == [] {
      assert entries + [e] == [e];
    } else {
      AllUnpinnedLast(Unpin(pins, entries[0].token), entries[1..], e);
      assert (entries + [e])[1..] == entries[1..] + [e];
    }
  }

  lemma {:induction false} AllFinishedLast(reg: Registry, entries: seq<Entry>, e: Entry, now: int, retention: int)
    ensures AllFinished(reg, entries + [e], now, retention)
        == Finished(AllFinished(reg, entries, now, retention), e.item, now, retention)
    decreases |entries|
  {
    hide Finished;
    if entries == [] {
      assert entries + [e] == [e];
    } else {
      AllFinishedLast(Finished(reg, entries[0].item, now, retention), entries[1..], e, now, retention);
      assert (entries + [e])[1..] == entries[1..] + [e];
    }
  }

  /** The finally block of execute_step_batch_process_pool. */
  method LeaveBatch(reg: ItemLifecycleRegistry, store: StateStore, entries: seq<Entry>, now: int)
    requires store.Valid()
    modifies reg, store`pins
    ensures store.Valid()
    ensures store.pins == AllUnpinned(old(store.pins), entries)
    ensures reg.records == AllFinished(old(reg.records), entries, now, reg.retention)
  {
    hide Consistent, Unpin, Finished;
    for k := 0 to |entries|
      invariant store.Valid() && reg.records == old(reg.records)
      invariant store.pins == AllUnpinned(old(store.pins), entries[..k])
    {
      assert entries[..k + 1] == entries[..k] + [entries[k]];
      AllUnpinnedLast(old(store.pins), entries[..k], entries[k]);
      store.UnpinOne(entries[k].token);
    }
    for k := 0 to |entries|
      invariant store.Valid() && store.pins == AllUnpinned(old(store.pins), entries[..|entries|])
      invariant reg.records == AllFinished(old(reg.records), entries[..k], now, reg.retention)
    {
      assert entries[..k + 1] == entries[..k] + [entries[k]];
      AllFinishedLast(old(reg.records), entries[..k], entries[k], now, reg.retention);
      reg.Finish(entries[k].item, now);
    }
    assert entries[..|entries|] == entries;
  }

  datatype CleanupAnswer =
    | DeferredInFlight(inFlight: nat)
    | DeferredPinned(pinned: nat)
    | DeletedStates(states: nat, bytes: nat)

  /** What the protocol says about the state of the two objects. */
  function Snapshot(reg: Registry, records: Records, pins: map<Token, nat>, now: int): State {
    State(reg, OwnerOf(records), pins, map[], 0, now)
  }

  lemma OwnersWithout(records: Records, item: ItemId, pins: map<Token, nat>)
    ensures OwnedBy(OwnerOf(records), item) == TokensOf(records, item)
    ensures OwnerOf(records - TokensOf(records, item)) == OwnerOf(records) - OwnedBy(OwnerOf(records), item)
    ensures |PinnedAmong(TokensOf(records, item), pins)| == 0 <==>
            !exists t :: t in OwnedBy(OwnerOf(records), item) && t in pins
  {
    var pinned := PinnedAmong(TokensOf(records, item), pins);
    if |pinned| == 0 {
      assert forall t :: t in OwnedBy(OwnerOf(records), item) && t in pins ==> t in pinned;
    } else {
      var t :| t in pinned;
      assert t in OwnedBy(OwnerOf(records), item);
    }
  }

  lemma ItemStates(records: Records, item: ItemId, pins: map<Token, nat>)
    ensures
      var states := set t | t in records && records[t].itemId == item;
      && TokensOf(records, item) == states
      && PinnedAmong(states, pins) == (set t | t in states && t in pins)
      && (|PinnedAmong(states, pins)| > 0 <==> exists t :: t in states && t in pins)
  {
    var states := TokensOf(records, item);
    if t :| t in states && t in pins {
      assert t in PinnedAmong(states, pins);
    }
    if |PinnedAmong(states, pins)| > 0 {
      var t :| t in PinnedAmong(states, pins);
    }
  }

  /** The body of the cleanup route for one item: it answers "deleted" exactly when the protocol does,
      and then it reports every state the item had. */
  method CleanupOne(reg: ItemLifecycleRegistry, store: StateStore, item: ItemId, now: int)
    returns (answer: CleanupAnswer)
    requires store.Valid()
    modifies reg, store`records, store`tokensByItem, store`disk
    ensures store.Valid()
    ensures var (s, deleted) := CleanedUp(Snapshot(old(reg.records), old(store.records), store.pins, now), item,
        reg.retention);
      && reg.records == s.reg && OwnerOf(store.records) == s.owner
      && (deleted <==> answer.DeletedStates?)
      && (answer.DeferredInFlight? <==> InFlight(s.reg, item) > 0)
      && (answer.DeferredInFlight? ==> answer.inFlight == InFlight(s.reg, item))
    ensures answer.DeferredPinned? ==>
      answer.pinned == |PinnedAmong(TokensOf(old(store.records), item), store.pins)| > 0
    ensures answer.DeletedStates? ==>
      && answer.states == |TokensOf(old(store.records), item)|
      && TotalBytes(old(store.records)) == TotalBytes(store.records) + answer.bytes
    ensures
      var kept := map i | i in old(reg.records)
          && !(old(reg.records)[i].expiresAt.Some? && old(reg.records)[i].expiresAt.value <= now)
          :: old(reg.records)[i];
      var states := set t | t in old(store.records) && old(store.records)[t].itemId == item;
      if item in kept && kept[item].inFlight > 0 then
        answer == DeferredInFlight(kept[item].inFlight) && reg.records == kept && store.records == old(store.records)
      else if exists t :: t in states && t in store.pins then
        && answer.DeferredPinned? && answer.pinned == |set t | t in states && t in store.pins|
        && reg.records == kept && store.records == old(store.records)
      else
        && answer.DeletedStates? && answer.states == |states|
        && reg.records == kept[item := Record(Cleaned, 0, Some(now + reg.retention))]
        && store.records == old(store.records) - states
    ensures store.records.Keys <= old(store.records).Keys
    ensures store.disk == Without(old(store.disk), old(store.records).Keys - store.records.Keys)
  {
    hide Consistent, CrashSafe, ApplyAll, TotalBytes, Swept;
    var go, inFlight := reg.CleanupDecision(item, now);
    if !go {
      return DeferredInFlight(inFlight);
    }
    OwnersWithout(store.records, item, store.pins);
    ItemStates(store.records, item, store.pins);
    hide OwnerOf, OwnedBy, TokensOf, PinnedAmong;
    var deleted, pinned, states, bytes, _ := store.DeleteByItemIdAllOrNone(item);
    if !deleted {
      return DeferredPinned(pinned);
    }
    reg.MarkCleaned(item, now);
    answer := DeletedStates(states, bytes);
  }
}
