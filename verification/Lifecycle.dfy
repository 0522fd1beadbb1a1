/** The lifecycle registry of exec items (exec_lifecycle.py): who may start work on an
    item, how much work is open, and for how long a finished item stays closed. */
module Lifecycle {
  import opened Wrappers

  type ItemId = string

  datatype Status = Active | Cancelling | Drained | Cleaned

  datatype Record = Record(status: Status, inFlight: nat, expiresAt: Option<int>)

  type Registry = map<ItemId, Record>

  // ---------------------------------------------------------------- the registry as a value

  predicate Expired(r: Record, now: int) {
    r.expiresAt.Some? && r.expiresAt.value <= now
  }

  function Swept(reg: Registry, now: int): Registry {
    map i | i in reg && !Expired(reg[i], now) :: reg[i]
  }

  function Lookup(reg: Registry, item: ItemId): Record {
    if item in reg then reg[item] else Record(Active, 0, None)
  }

  function InFlight(reg: Registry, item: ItemId): nat {
    Lookup(reg, item).inFlight
  }

  predicate ShouldCancel(reg: Registry, item: ItemId) {
    item in reg && reg[item].status != Active
  }

  function Terminal(status: Status, now: int, retention: int): Record {
    Record(status, 0, Some(now + retention))
  }

  /** begin: the registry afterwards, and whether work started. */
  function Begun(reg: Registry, item: ItemId, now: int): (Registry, bool) {
    var swept := Swept(reg, now);
    var r := Lookup(swept, item);
    if r.status != Active then (swept, false)
    else (swept[item := r.(inFlight := r.inFlight + 1)], true)
  }

  function Finished(reg: Registry, item: ItemId, now: int, retention: int): Registry {
    var r := Lookup(reg, item);
    var left := if r.inFlight > 0 then r.inFlight - 1 else 0;
    reg[item := if r.status == Cancelling && left == 0 then Terminal(Drained, now, retention)
                else r.(inFlight := left)]
  }

  function Cancelled(reg: Registry, item: ItemId, now: int, retention: int): Registry {
    var swept := Swept(reg, now);
    if item !in swept then swept[item := Terminal(Drained, now, retention)]
    else
      var r := swept[item];
      if r.status == Cleaned then swept
      else if r.inFlight == 0 then swept[item := Terminal(Drained, now, retention)]
      else swept[item := Record(Cancelling, r.inFlight, None)]
  }

  function MarkedCleaned(reg: Registry, item: ItemId, now: int, retention: int): Registry {
    reg[item := Terminal(Cleaned, now, retention)]
  }

  // ---------------------------------------------------------------- the registry as it runs

  class ItemLifecycleRegistry {
    var records: Registry
    const retention: int

    constructor (retention: int)
      requires retention > 0
      ensures records == map[] && this.retention == retention
    {
      this.records := map[];
      this.retention := retention;
    }

    method SweepTerminal(now: int) returns (dropped: nat)
      modifies this
      ensures records == Swept(old(records), now)
      ensures forall i ::
        i in records <==>
          i in old(records) && !(old(records)[i].expiresAt.Some? && old(records)[i].expiresAt.value <= now)
      ensures forall i :: i in records ==> records[i] == old(records)[i]
      ensures dropped == |old(records)| - |records|
    {
      var expired := set i | i in records && Expired(records[i], now);
      dropped := |expired|;
      ghost var given := records;
      while expired != {}
        invariant expired <= records.Keys
        invariant forall i :: i in expired ==> Expired(records[i], now)
        invariant Swept(records, now) == Swept(given, now)
        invariant forall i :: i in records && i !in expired ==> !Expired(records[i], now)
        invariant |records| - |expired| == |given| - dropped
        decreases expired
      {
        var i :| i in expired;
        expired := expired - {i};
        assert (records - {i}).Keys == records.Keys - {i};
        records := records - {i};
      }
      assert records == Swept(records, now);
    }

    method SetTerminal(item: ItemId, status: Status, now: int)
      modifies this
      ensures records == old(records)[item := Terminal(status, now, retention)]
    {
      records := records[item := Record(status, 0, Some(now + retention))];
    }

    method Begin(item: ItemId, now: int) returns (started: bool)
      modifies this
      ensures (records, started) == Begun(old(records), item, now)
      ensures
        var kept := map i | i in old(records)
            && !(old(records)[i].expiresAt.Some? && old(records)[i].expiresAt.value <= now) :: old(records)[i];
        && (started <==> item in kept ==> kept[item].status == Active)
        && records == if started then kept[item :=
            Record(Active, (if item in kept then kept[item].inFlight else 0) + 1,
                   if item in kept then kept[item].expiresAt else None)] else kept
      ensures
        item in old(records) && old(records)[item].expiresAt.Some? && old(records)[item].expiresAt.value <= now ==>
          started && item in records && records[item] == Record(Active, 1, None)
    {
      var _ := SweepTerminal(now);
      ghost var swept := records;
      if item !in records {
        records := records[item := Record(Active, 0, None)];
      }
      var r := records[item];
      if r.status == Cancelling || r.status == Drained || r.status == Cleaned {
        return false;
      }
      records := records[item := r.(inFlight := r.inFlight + 1)];
      assert records == swept[item := r.(inFlight := r.inFlight + 1)];
      return true;
    }

    method Finish(item: ItemId, now: int)
      modifies this
      ensures records == Finished(old(records), item, now, retention)
      ensures records == old(records)[item :=
        if item !in old(records) then Record(Active, 0, None)
        else if old(records)[item].status == Cancelling && old(records)[item].inFlight <= 1 then
          Record(Drained, 0, Some(now + retention))
        else
          Record(old(records)[item].status,
                 if old(records)[item].inFlight > 0 then old(records)[item].inFlight - 1 else 0,
                 old(records)[item].expiresAt)]
    {
      if item !in records {
        records := records[item := Record(Active, 0, None)];
      }
      if records[item].inFlight > 0 {
        records := records[item := records[item].(inFlight := records[item].inFlight - 1)];
      }
      if records[item].status == Cancelling && records[item].inFlight == 0 {
        SetTerminal(item, Drained, now);
      }
    }

    method Cancel(item: ItemId, now: int)
      modifies this
      ensures records == Cancelled(old(records), item, now, retention)
      ensures
        var kept := map i | i in old(records)
            && !(old(records)[i].expiresAt.Some? && old(records)[i].expiresAt.value <= now) :: old(records)[i];
        records == if item in kept && kept[item].status == Cleaned then kept
          else if item in kept && kept[item].inFlight > 0 then
            kept[item := Record(Cancelling, kept[item].inFlight, None)]
          else kept[item := Record(Drained, 0, Some(now + retention))]
    {
      var _ := SweepTerminal(now);
      if item !in records {
        SetTerminal(item, Drained, now);
        return;
      }
      if records[item].status == Cleaned {
        return;
      }
      if records[item].inFlight == 0 {
        SetTerminal(item, Drained, now);
      } else {
        records := records[item := records[item].(status := Cancelling, expiresAt := None)];
      }
    }

    /** Whether the item's states may be deleted now, and how much work is open; the decision itself records nothing. */
    method CleanupDecision(item: ItemId, now: int) returns (delete: bool, inFlight: nat)
      modifies this
      ensures records == Swept(old(records), now)
      ensures inFlight == InFlight(records, item) && (delete <==> inFlight == 0)
      ensures
        var kept := map i | i in old(records)
            && !(old(records)[i].expiresAt.Some? && old(records)[i].expiresAt.value <= now) :: old(records)[i];
        records == kept && inFlight == if item in kept then kept[item].inFlight else 0
    {
      var _ := SweepTerminal(now);
      inFlight := if item in records then records[item].inFlight else 0;
      delete := !(inFlight > 0);
    }

    method MarkCleaned(item: ItemId, now: int)
      modifies this
      ensures records == MarkedCleaned(old(records), item, now, retention)
      ensures records == old(records)[item := Record(Cleaned, 0, Some(now + retention))]
    {
      SetTerminal(item, Cleaned, now);
    }
  }
}
