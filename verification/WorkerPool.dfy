/** The pool of Pantograph workers (pantograph_manager.py). Every method of the manager is one
    section under the condition's lock; get_worker is TryAcquire, repeated while it says Wait,
    and then StartSucceeded or StartFailed once the new worker is up or not; CloseRaised when closing the
    evicted worker raises. */
module WorkerPool {
  import opened MapSum

  class Lease {
    const envProfile: string
    const headerHash: string
    var useCount: nat
    var lastUsedAt: int

    constructor (envProfile: string, headerHash: string, now: int)
      ensures this.envProfile == envProfile && this.headerHash == headerHash
      ensures useCount == 0 && lastUsedAt == now
    {
      this.envProfile, this.headerHash := envProfile, headerHash;
      useCount, lastUsedAt := 0, now;
    }
  }

  datatype Decision = Reuse(lease: Lease) | Start | Evict(victim: Lease) | Wait

  // ---------------------------------------------------------------- counting leases

  function CountIn(leases: seq<Lease>, profile: string): nat {
    if leases == [] then 0 else (if leases[0].envProfile == profile then 1 else 0) + CountIn(leases[1..], profile)
  }

  function OfProfile(leases: set<Lease>, profile: string): set<Lease> {
    set l | l in leases && l.envProfile == profile
  }

  function Without(leases: seq<Lease>, i: nat): (r: seq<Lease>)
    requires i < |leases|
    ensures |r| == |leases| - 1
    ensures forall j :: 0 <= j < |r| ==> r[j] == leases[if j < i then j else j + 1]
  {
    leases[..i] + leases[i + 1..]
  }

  lemma WithoutElements(leases: seq<Lease>, i: nat)
    requires i < |leases|
    ensures forall l :: l in Without(leases, i) ==> l in leases
    ensures forall l :: l in leases && l != leases[i] ==> l in Without(leases, i)
  {}

  lemma {:induction false} CountSplit(a: seq<Lease>, b: seq<Lease>, profile: string)
    ensures CountIn(a + b, profile) == CountIn(a, profile) + CountIn(b, profile)
  {
    if a == [] {
      assert a + b == b;
    } else {
      CountSplit(a[1..], b, profile);
      assert (a + b)[1..] == a[1..] + b;
    }
  }

  lemma CountWithout(leases: seq<Lease>, i: nat, profile: string)
    requires i < |leases|
    ensures CountIn(leases, profile) == CountIn(Without(leases, i), profile)
        + (if leases[i].envProfile == profile then 1 else 0)
  {
    CountSplit(leases[..i], leases[i..], profile);
    CountSplit(leases[..i], leases[i + 1..], profile);
    assert leases == leases[..i] + leases[i..] && leases[i..][1..] == leases[i + 1..];
  }

  lemma CountLast(leases: seq<Lease>, l: Lease, profile: string)
    ensures CountIn(leases + [l], profile) == CountIn(leases, profile) + (if l.envProfile == profile then 1 else 0)
  {
    CountSplit(leases, [l], profile);
    assert [l][1..] == [];
  }

  lemma OfProfileAdd(leases: set<Lease>, l: Lease, profile: string)
    requires l !in leases
    ensures |OfProfile(leases + {l}, profile)|
        == |OfProfile(leases, profile)| + (if l.envProfile == profile then 1 else 0)
  {
    assert OfProfile(leases + {l}, profile)
        == OfProfile(leases, profile) + (if l.envProfile == profile then {l} else {});
  }

  lemma OfProfileRemove(leases: set<Lease>, l: Lease, profile: string)
    requires l in leases
    ensures |OfProfile(leases, profile)|
        == |OfProfile(leases - {l}, profile)| + (if l.envProfile == profile then 1 else 0)
  {
    OfProfileAdd(leases - {l}, l, profile);
    assert leases - {l} + {l} == leases;
  }

  /** A profile has no lease in a list exactly when its count is zero. */
  lemma {:induction false} CountZero(leases: seq<Lease>, profile: string)
    ensures CountIn(leases, profile) == 0 <==> forall l :: l in leases ==> l.envProfile != profile
  {
    if leases == [] {
    } else {
      CountZero(leases[1..], profile);
      assert forall l :: l in leases <==> l == leases[0] || l in leases[1..];
    }
  }

  lemma {:induction false} CountIsSize(leases: seq<Lease>, profile: string)
    ensures CountIn(leases, profile) == |set i | 0 <= i < |leases| && leases[i].envProfile == profile|
  {
    var all := set i | 0 <= i < |leases| && leases[i].envProfile == profile;
    if leases == [] {
      assert all == {};
    } else {
      var n := |leases| - 1;
      CountIsSize(leases[..n], profile);
      CountLast(leases[..n], leases[n], profile);
      assert leases == leases[..n] + [leases[n]];
      var rest := set i | 0 <= i < n && leases[..n][i].envProfile == profile;
      assert all == if leases[n].envProfile == profile then rest + {n} else rest;
    }
  }

  // ---------------------------------------------------------------- the starting counters

  function StartingOf(startingBy: map<string, nat>, profile: string): nat {
    if profile in startingBy then startingBy[profile] else 0
  }

  function Marked(startingBy: map<string, nat>, profile: string): map<string, nat> {
    startingBy[profile := StartingOf(startingBy, profile) + 1]
  }

  function Unmarked(startingBy: map<string, nat>, profile: string): map<string, nat> {
    if StartingOf(startingBy, profile) <= 1 then startingBy - {profile}
    else startingBy[profile := StartingOf(startingBy, profile) - 1]
  }

  /** The total is the sum of the counters by profile, which are positive and count the calls. */
  ghost predicate CountersAgree(starting: int, startingBy: map<string, nat>, calls: multiset<string>) {
    && starting == Sum(startingBy)
    && (forall p :: p in startingBy ==> startingBy[p] > 0)
    && (forall p :: StartingOf(startingBy, p) == calls[p])
  }

  lemma MarkKeeps(starting: int, startingBy: map<string, nat>, calls: multiset<string>, profile: string)
    requires CountersAgree(starting, startingBy, calls)
    ensures CountersAgree(starting + 1, Marked(startingBy, profile), calls + multiset{profile})
    ensures forall p ::
        StartingOf(Marked(startingBy, profile), p) == StartingOf(startingBy, p) + (if p == profile then 1 else 0)
  {
    hide Sum;
    SumSplit(Marked(startingBy, profile), profile);
    assert Marked(startingBy, profile) - {profile} == startingBy - {profile};
    if profile in startingBy {
      SumSplit(startingBy, profile);
    } else {
      assert startingBy - {profile} == startingBy;
    }
  }

  lemma UnmarkKeeps(starting: int, startingBy: map<string, nat>, calls: multiset<string>, profile: string)
    requires CountersAgree(starting, startingBy, calls) && profile in calls
    ensures CountersAgree(starting - 1, Unmarked(startingBy, profile), calls - multiset{profile})
    ensures forall p ::
        StartingOf(Unmarked(startingBy, profile), p) == StartingOf(startingBy, p) - (if p == profile then 1 else 0)
  {
    hide Sum;
    assert StartingOf(startingBy, profile) > 0;
    SumSplit(startingBy, profile);
    if startingBy[profile] > 1 {
      SumSplit(Unmarked(startingBy, profile), profile);
      assert Unmarked(startingBy, profile) - {profile} == startingBy - {profile};
    }
  }

  /** What the counters count. */
  lemma CountsAre(free: seq<Lease>, busy: set<Lease>, startingBy: map<string, nat>, profile: string)
    ensures CountIn(free, profile) == |set i | 0 <= i < |free| && free[i].envProfile == profile|
    ensures |OfProfile(busy, profile)| == |set l | l in busy && l.envProfile == profile|
    ensures StartingOf(startingBy, profile) == if profile in startingBy then startingBy[profile] else 0
    ensures Marked(startingBy, profile)
        == startingBy[profile := (if profile in startingBy then startingBy[profile] else 0) + 1]
  {
    CountIsSize(free, profile);
  }

  // ---------------------------------------------------------------- the pool

  class PantographManager {
    const maxWorkers: nat
    const maxWorkerUses: int
    const maxPerProfile: int
    var free: seq<Lease>
    var busy: set<Lease>
    var starting: int
    var startingBy: map<string, nat>
    ghost var calls: multiset<string>   // the profiles of the get_worker calls that are starting a worker
    ghost var lost: multiset<string>    // the profiles of those that raised with their mark still in place

    /** How much of the pool a profile holds. */
    ghost function Share(profile: string): nat
      reads this
    {
      CountIn(free, profile) + |OfProfile(busy, profile)| + StartingOf(startingBy, profile)
    }

    ghost predicate Distinct()
      reads this
    {
      && (forall i, j :: 0 <= i < j < |free| ==> free[i] != free[j])
      && (forall i :: 0 <= i < |free| ==> free[i] !in busy)
    }

    ghost predicate Counters()
      reads this
    {
      CountersAgree(starting, startingBy, calls + lost)
    }

    ghost predicate Caps()
      reads this
    {
      && |free| + |busy| + starting <= maxWorkers
      && (maxPerProfile >= 0 ==> forall p :: Share(p) <= maxPerProfile)
    }

    /** No exhausted worker is offered again. */
    ghost predicate Reusable()
      reads this, free
    {
      maxWorkerUses >= 0 ==> forall l :: l in free ==> l.useCount < maxWorkerUses
    }

    ghost predicate Valid()
      reads this, free
    {
      Distinct() && Counters() && Caps() && Reusable()
    }

    constructor (maxWorkers: nat, maxWorkerUses: int, maxPerProfile: int)
      requires maxWorkers > 0 && maxWorkerUses >= -1 && (maxPerProfile == -1 || maxPerProfile > 0)
      ensures Valid() && free == [] && busy == {} && startingBy == map[] && calls == multiset{} && lost == multiset{}
      ensures this.maxWorkers == maxWorkers && this.maxWorkerUses == maxWorkerUses
          && this.maxPerProfile == maxPerProfile
    {
      this.maxWorkers, this.maxWorkerUses, this.maxPerProfile := maxWorkers, maxWorkerUses, maxPerProfile;
      free, busy, starting, startingBy, calls, lost := [], {}, 0, map[], multiset{}, multiset{};
      new;
      assert forall p :: OfProfile(busy, p) == {};
    }

    predicate Matches(l: Lease, profile: string, hash: string) {
      l.envProfile == profile && l.headerHash == hash
    }

    predicate CanStart(profile: string)
      reads this
    {
      maxPerProfile < 0 || CountIn(free, profile) + |OfProfile(busy, profile)|
          + StartingOf(startingBy, profile) < maxPerProfile
    }

    /** A lease that may make room for a new worker of the profile. */
    predicate Candidate(l: Lease, profile: string, canStart: bool) {
      canStart || l.envProfile == profile
    }

    method Take(i: nat) returns (l: Lease)
      requires Valid() && i < |free|
      modifies this`free, this`busy
      ensures lost == old(lost)
      ensures Valid() && l == old(free)[i] && busy == old(busy) + {l}
      ensures free == Without(old(free), i) == old(free)[..i] + old(free)[i + 1..]
      ensures forall k :: k in free ==> k in old(free)
    {
      l := free[i];
      WithoutElements(free, i);
      assert Without(free, i) == free[..i] + free[i + 1..];
      forall p ensures CountIn(Without(free, i), p) + |OfProfile(busy + {l}, p)|
          == CountIn(free, p) + |OfProfile(busy, p)| {
        CountWithout(free, i, p);
        OfProfileAdd(busy, l, p);
      }
      hide CountIn, OfProfile, CountersAgree, Without;
      free := Without(free, i);
      busy := busy + {l};
      assert forall p :: Share(p) == old(Share(p));
    }

    method Drop(i: nat) returns (l: Lease)
      requires Valid() && i < |free|
      modifies this`free
      ensures lost == old(lost)
      ensures Valid() && l == old(free)[i] && free == Without(old(free), i) == old(free)[..i] + old(free)[i + 1..]
      ensures forall k :: k in free ==> k in old(free)
      ensures forall p :: Share(p) == old(Share(p)) - (if l.envProfile == p then 1 else 0)
    {
      l := free[i];
      WithoutElements(free, i);
      assert Without(free, i) == free[..i] + free[i + 1..];
      forall p ensures CountIn(free, p) == CountIn(Without(free, i), p) + (if l.envProfile == p then 1 else 0) {
        CountWithout(free, i, p);
      }
      hide CountIn, OfProfile, CountersAgree, Without;
      free := Without(free, i);
      assert forall p :: Share(p) == old(Share(p)) - (if l.envProfile == p then 1 else 0);
    }

    method MarkStarting(profile: string)
      requires Valid() && |free| + |busy| + starting < maxWorkers && CanStart(profile)
      modifies this`starting, this`startingBy, this`calls
      ensures lost == old(lost)
      ensures Valid() && startingBy == Marked(old(startingBy), profile) && calls == old(calls) + multiset{profile}
      ensures starting == old(starting) + 1
    {
      hide CountIn, OfProfile, CountersAgree, Without;
      MarkKeeps(starting, startingBy, calls + lost, profile);
      assert calls + lost + multiset{profile} == (calls + multiset{profile}) + lost;
      starting := starting + 1;
      calls := calls + multiset{profile};
      startingBy := startingBy[profile := (if profile in startingBy then startingBy[profile] else 0) + 1];
      assert forall p :: Share(p) == old(Share(p)) + (if profile == p then 1 else 0);
    }

    method UnmarkStarting(profile: string)
      requires Valid() && profile in calls
      modifies this`starting, this`startingBy, this`calls
      ensures lost == old(lost)
      ensures Valid() && startingBy == Unmarked(old(startingBy), profile) && calls == old(calls) - multiset{profile}
      ensures forall p :: Share(p) == old(Share(p)) - (if profile == p then 1 else 0)
      ensures starting == old(starting) - 1
    {
      hide CountIn, OfProfile, CountersAgree, Without;
      UnmarkKeeps(starting, startingBy, calls + lost, profile);
      assert calls + lost - multiset{profile} == (calls - multiset{profile}) + lost;
      starting := starting - 1;
      calls := calls - multiset{profile};
      var count := if profile in startingBy then startingBy[profile] else 0;
      startingBy := if count <= 1 then startingBy - {profile} else startingBy[profile := count - 1];
      assert forall p :: Share(p) == old(Share(p)) - (if profile == p then 1 else 0);
    }

    /** The first free lease with the wanted environment and header. */
    method FirstMatch(profile: string, hash: string) returns (i: nat)
      ensures i <= |free| && (i < |free| ==> Matches(free[i], profile, hash))
      ensures forall j :: 0 <= j < i ==> !Matches(free[j], profile, hash)
    {
      i := 0;
      while i < |free| && !Matches(free[i], profile, hash)
        invariant i <= |free|
        invariant forall j :: 0 <= j < i ==> !Matches(free[j], profile, hash)
      {
        i := i + 1;
      }
    }

    /** _worker_to_close_for_start: the first of the least recently used candidates, or |free| when there is none. */
    method WorkerToClose(profile: string, canStart: bool) returns (v: nat)
      ensures v <= |free|
      ensures v < |free| ==> Candidate(free[v], profile, canStart)
      ensures v < |free| ==> forall j :: 0 <= j < |free| && Candidate(free[j], profile, canStart) ==>
                                           free[v].lastUsedAt <= free[j].lastUsedAt
                                               && (j < v ==> free[v].lastUsedAt < free[j].lastUsedAt)
      ensures v == |free| ==> forall j :: 0 <= j < |free| ==> !Candidate(free[j], profile, canStart)
      ensures v == |free| && canStart ==> free == []
    {
      v := |free|;
      for i := 0 to |free|
        invariant v < i || v == |free|
        invariant canStart && i > 0 ==> v < i
        invariant v < |free| ==> Candidate(free[v], profile, canStart)
        invariant v < |free| ==> forall j :: 0 <= j < i && Candidate(free[j], profile, canStart) ==>
                                               free[v].lastUsedAt <= free[j].lastUsedAt
                                                   && (j < v ==> free[v].lastUsedAt < free[j].lastUsedAt)
        invariant v == |free| ==> forall j :: 0 <= j < i ==> !Candidate(free[j], profile, canStart)
      {
        if Candidate(free[i], profile, canStart) && (v == |free| || free[i].lastUsedAt < free[v].lastUsedAt) {
          v := i;
        }
      }
    }

    lemma FreeNotBusy(i: nat)
      requires Valid() && i < |free|
      ensures free[i] !in busy
    {}

    /** Without a matching lease: start a worker in free room or in the place of the first of the least recently used
        candidates, or wait. */
    method StartOrWait(profile: string) returns (d: Decision)
      requires Valid()
      modifies this`free, this`starting, this`startingBy, this`calls
      ensures Valid() && !d.Reuse?
      ensures
        var room := maxPerProfile < 0
            || |set i | 0 <= i < |old(free)| && old(free)[i].envProfile == profile|
               + |set l | l in busy && l.envProfile == profile|
               + (if profile in old(startingBy) then old(startingBy)[profile] else 0) < maxPerProfile;
        if |old(free)| + |busy| + old(starting) < maxWorkers && room then d.Start?
        else if exists l :: l in old(free) && (room || l.envProfile == profile) then
          && d.Evict? && (room || d.victim.envProfile == profile)
          && (forall l :: l in old(free) && (room || l.envProfile == profile) ==> d.victim.lastUsedAt <= l.lastUsedAt)
          && exists i ::
               && 0 <= i < |old(free)| && old(free)[i] == d.victim && free == old(free)[..i] + old(free)[i + 1..]
               && forall j :: 0 <= j < i && (room || old(free)[j].envProfile == profile) ==>
                    d.victim.lastUsedAt < old(free)[j].lastUsedAt
        else
          && d.Wait?
          && (if room then free == [] && |busy| + starting == maxWorkers
              else |set l | l in busy && l.envProfile == profile|
                   + (if profile in startingBy then startingBy[profile] else 0) == maxPerProfile)
      ensures d.Start? || d.Evict? ==>
        && starting == old(starting) + 1 && calls == old(calls) + multiset{profile}
        && startingBy == old(startingBy)[profile :=
            (if profile in old(startingBy) then old(startingBy)[profile] else 0) + 1]
      ensures d.Start? || d.Wait? ==> free == old(free)
      ensures d.Wait? ==> startingBy == old(startingBy) && calls == old(calls) && starting == old(starting)
      ensures forall l :: l in free ==> l in old(free)
    {
      hide CountersAgree, CountIn, OfProfile, StartingOf, Marked, Unmarked, Without;
      CountsAre(free, busy, startingBy, profile);
      var canStart := CanStart(profile);
      if |free| + |busy| + starting < maxWorkers && canStart {
        MarkStarting(profile);
        return Start;
      }
      var v := WorkerToClose(profile, canStart);
      if v < |free| {
        assert Share(profile) <= maxPerProfile || maxPerProfile < 0;
        var l := Drop(v);
        assert Share(profile) < maxPerProfile || maxPerProfile < 0;
        MarkStarting(profile);
        return Evict(l);
      }
      CountZero(free, profile);
      assert maxPerProfile >= 0 ==> Share(profile) <= maxPerProfile;
      d := Wait;
    }

    /** One pass of get_worker's loop: take the first matching free lease, or start a worker in free room or in the
        place of the least recently used candidate, or wait. */
    method TryAcquire(profile: string, hash: string) returns (d: Decision)
      requires Valid()
      modifies this`free, this`busy, this`starting, this`startingBy, this`calls
      ensures lost == old(lost)
      ensures Valid()
      ensures
        var room := maxPerProfile < 0
            || |set i | 0 <= i < |old(free)| && old(free)[i].envProfile == profile|
               + |set l | l in old(busy) && l.envProfile == profile|
               + (if profile in old(startingBy) then old(startingBy)[profile] else 0) < maxPerProfile;
        if exists l :: l in old(free) && l.envProfile == profile && l.headerHash == hash then
          && d.Reuse? && d.lease.envProfile == profile && d.lease.headerHash == hash
          && exists i ::
               && 0 <= i < |old(free)| && old(free)[i] == d.lease && free == old(free)[..i] + old(free)[i + 1..]
               && forall j :: 0 <= j < i ==> !(old(free)[j].envProfile == profile && old(free)[j].headerHash == hash)
        else if |old(free)| + |old(busy)| + old(starting) < maxWorkers && room then d.Start?
        else if exists l :: l in old(free) && (room || l.envProfile == profile) then
          && d.Evict? && (room || d.victim.envProfile == profile)
          && (forall l :: l in old(free) && (room || l.envProfile == profile) ==> d.victim.lastUsedAt <= l.lastUsedAt)
          && exists i ::
               && 0 <= i < |old(free)| && old(free)[i] == d.victim && free == old(free)[..i] + old(free)[i + 1..]
               && forall j :: 0 <= j < i && (room || old(free)[j].envProfile == profile) ==>
                    d.victim.lastUsedAt < old(free)[j].lastUsedAt
        else
          && d.Wait?
          && (if room then free == [] && |busy| + starting == maxWorkers
              else |set l | l in busy && l.envProfile == profile|
                   + (if profile in startingBy then startingBy[profile] else 0) == maxPerProfile)
      ensures d.Reuse? ==>
        && d.lease in old(free) && d.lease !in old(busy) && busy == old(busy) + {d.lease}
        && starting == old(starting) && startingBy == old(startingBy) && calls == old(calls)
      ensures d.Start? || d.Evict? ==>
        && busy == old(busy) && starting == old(starting) + 1 && calls == old(calls) + multiset{profile}
        && startingBy == old(startingBy)[profile :=
            (if profile in old(startingBy) then old(startingBy)[profile] else 0) + 1]
      ensures d.Start? || d.Wait? ==> free == old(free)
      ensures d.Wait? ==>
        busy == old(busy) && startingBy == old(startingBy) && calls == old(calls) && starting == old(starting)
      ensures forall l :: l in free ==> l in old(free)
    {
      hide CountersAgree, CountIn, OfProfile, StartingOf, Marked, Unmarked, Without, Valid, CanStart, Share;
      var i := FirstMatch(profile, hash);
      if i < |free| {
        FreeNotBusy(i);
        var l := Take(i);
        d := Reuse(l);
      } else {
        d := StartOrWait(profile);
      }
    }

    /** The new worker is up: its lease goes straight to the caller. */
    method StartSucceeded(profile: string, hash: string, now: int) returns (l: Lease)
      requires Valid() && profile in calls
      modifies this`busy, this`starting, this`startingBy, this`calls
      ensures lost == old(lost)
      ensures Valid() && fresh(l) && l.envProfile == profile && l.headerHash == hash && l.useCount == 0
      ensures free == old(free) && busy == old(busy) + {l} && startingBy == Unmarked(old(startingBy), profile)
          && calls == old(calls) - multiset{profile} && starting == old(starting) - 1
    {
      hide CountersAgree, CountIn, OfProfile, StartingOf, Marked, Unmarked, Without;
      l := new Lease(profile, hash, now);
      UnmarkStarting(profile);
      Lend(l);
    }

    method Lend(l: Lease)
      requires Valid() && l !in busy && l !in free
      requires |free| + |busy| + starting < maxWorkers && (maxPerProfile >= 0 ==> Share(l.envProfile) < maxPerProfile)
      modifies this`busy
      ensures lost == old(lost)
      ensures Valid() && busy == old(busy) + {l}
    {
      forall p ensures |OfProfile(busy + {l}, p)| == |OfProfile(busy, p)| + (if l.envProfile == p then 1 else 0) {
        OfProfileAdd(busy, l, p);
      }
      hide CountIn, OfProfile, CountersAgree, Without;
      busy := busy + {l};
      assert forall p :: Share(p) == old(Share(p)) + (if l.envProfile == p then 1 else 0);
    }

    /** The new worker cannot be started: the mark is taken back. */
    method StartFailed(profile: string)
      requires Valid() && profile in calls
      modifies this`starting, this`startingBy, this`calls
      ensures lost == old(lost)
      ensures Valid() && startingBy == Unmarked(old(startingBy), profile) && calls == old(calls) - multiset{profile}
      ensures starting == old(starting) - 1
    {
      UnmarkStarting(profile);
    }

    /** Closing the evicted worker raises before the start is even tried: the mark stays, and nobody will take it
        back. */
    method CloseRaised(profile: string)
      requires Valid() && profile in calls
      modifies this`calls, this`lost
      ensures Valid() && calls == old(calls) - multiset{profile} && lost == old(lost) + multiset{profile}
    {
      hide CountersAgree, CountIn, OfProfile, StartingOf, Without;
      assert (calls - multiset{profile}) + (lost + multiset{profile}) == calls + lost;
      calls, lost := calls - multiset{profile}, lost + multiset{profile};
      assert forall p :: Share(p) == old(Share(p));
    }

    method Return(l: Lease)
      requires Valid() && l in busy
      modifies this`busy
      ensures lost == old(lost)
      ensures Valid() && busy == old(busy) - {l}
      ensures |busy| == |old(busy)| - 1
      ensures forall p :: Share(p) == old(Share(p)) - (if l.envProfile == p then 1 else 0)
    {
      forall p ensures |OfProfile(busy, p)| == |OfProfile(busy - {l}, p)| + (if l.envProfile == p then 1 else 0) {
        OfProfileRemove(busy, l, p);
      }
      hide CountIn, OfProfile, CountersAgree, Without;
      busy := busy - {l};
      assert forall p :: Share(p) == old(Share(p)) - (if l.envProfile == p then 1 else 0);
    }

    /** release_worker: back to the end of the free list, unless the worker is used up. */
    method ReleaseWorker(l: Lease, now: int) returns (closed: bool)
      requires Valid()
      modifies this`free, this`busy, l
      ensures lost == old(lost)
      ensures Valid()
      ensures l !in old(busy) ==> !closed && free == old(free) && busy == old(busy) && unchanged(l)
      ensures l in old(busy) ==>
        && busy == old(busy) - {l} && l.useCount == old(l.useCount) + 1
        && (closed <==> maxWorkerUses >= 0 && l.useCount >= maxWorkerUses)
        && (if closed then free == old(free) else free == old(free) + [l] && l.lastUsedAt == now)
    {
      hide CountIn, OfProfile, CountersAgree, Without;
      if l !in busy {
        return false;
      }
      Return(l);
      l.useCount := l.useCount + 1;
      if maxWorkerUses >= 0 && l.useCount >= maxWorkerUses {
        closed := true;
      } else {
        l.lastUsedAt := now;
        forall p ensures CountIn(free + [l], p) == CountIn(free, p) + (if l.envProfile == p then 1 else 0) {
          CountLast(free, l, p);
        }
        free := free + [l];
        closed := false;
        assert forall p :: Share(p) == old(Share(p));
      }
    }

    /** destroy_worker: forget the lease wherever it is. */
    method DestroyWorker(l: Lease) returns (closed: bool)
      requires Valid()
      modifies this`free, this`busy
      ensures lost == old(lost)
      ensures Valid()
      ensures closed <==> l in old(busy) || l in old(free)
      ensures busy == old(busy) - {l} && l !in free
      ensures forall k :: k in old(free) && k != l <==> k in free
      ensures if l !in old(free) then free == old(free)
          else exists i ::
                 && 0 <= i < |old(free)| && old(free)[i] == l && free == old(free)[..i] + old(free)[i + 1..]
    {
      hide CountIn, OfProfile, CountersAgree, Without;
      closed := l in busy || l in free;
      if l in busy {
        Return(l);
      }
      if l in free {
        var i :| 0 <= i < |free| && free[i] == l;
        WithoutElements(free, i);
        var _ := Drop(i);
      }
    }

    /** cleanup at shutdown: nothing stays leased or free; workers still starting are not affected. */
    method Cleanup()
      requires Valid()
      modifies this`free, this`busy
      ensures lost == old(lost)
      ensures Valid() && free == [] && busy == {} && startingBy == old(startingBy)
    {
      forall p ensures StartingOf(startingBy, p) <= Share(p) {}
      assert forall p :: |OfProfile({}, p)| == 0;
      free, busy := [], {};
    }
  }

  lemma {:induction false} SumIsSize(startingBy: map<string, nat>, marks: multiset<string>)
    requires forall p :: StartingOf(startingBy, p) == marks[p]
    ensures Sum(startingBy) == |marks|
    decreases |startingBy|
  {
    hide Sum;
    if startingBy == map[] {
      SumZero(startingBy);
      assert marks == multiset{};
    } else {
      var p :| p in startingBy;
      var rest, fewer := startingBy - {p}, marks[p := 0];
      assert rest.Keys == startingBy.Keys - {p};
      forall q ensures StartingOf(rest, q) == fewer[q] {
        assert StartingOf(startingBy, q) == marks[q];
      }
      SumIsSize(rest, fewer);
      SumSplit(startingBy, p);
      assert StartingOf(startingBy, p) == marks[p];
    }
  }

  /** The starting counters are the calls that are starting a worker and the marks nobody will take back, in total and
      by profile; so with no such call the counters are back at zero exactly when no mark was lost. A lost mark costs
      room for one worker, in total and for its profile; and it does so for good, as no method takes anything out of
      `lost`. */
  lemma LostForGood(pool: PantographManager, profile: string)
    requires pool.Valid()
    ensures pool.starting == |pool.calls| + |pool.lost|
    ensures StartingOf(pool.startingBy, profile) == pool.calls[profile] + pool.lost[profile]
    ensures pool.calls == multiset{} ==>
      (pool.starting == 0 <==> pool.lost == multiset{}) && (pool.startingBy == map[] <==> pool.lost == multiset{})
    ensures |pool.free| + |pool.busy| + |pool.calls| + |pool.lost| <= pool.maxWorkers
    ensures pool.maxPerProfile >= 0 ==>
      CountIn(pool.free, profile) + |OfProfile(pool.busy, profile)| + pool.calls[profile] + pool.lost[profile]
        <= pool.maxPerProfile
    ensures |pool.lost| == pool.maxWorkers ==> pool.free == [] && pool.busy == {} && pool.calls == multiset{}
  {
    SumIsSize(pool.startingBy, pool.calls + pool.lost);
    NoneCounted(pool.startingBy, pool.calls + pool.lost);
    hide Sum, CountIn, OfProfile;
    assert pool.maxPerProfile >= 0 ==> pool.Share(profile) <= pool.maxPerProfile;
    assert StartingOf(pool.startingBy, profile) == (pool.calls + pool.lost)[profile];
  }

  lemma NoneCounted(startingBy: map<string, nat>, marks: multiset<string>)
    requires CountersAgree(Sum(startingBy), startingBy, marks)
    ensures startingBy == map[] <==> marks == multiset{}
  {
    assert forall p :: p in startingBy <==> p in marks by {
      forall p ensures p in startingBy <==> p in marks {
        assert StartingOf(startingBy, p) == marks[p];
      }
    }
    if startingBy != map[] {
      var p :| p in startingBy;
      assert p in marks;
    }
  }

  /** return_worker: release a healthy worker, destroy a dead one; either way the lease is no longer busy. A worker that
      is closed, which is what may raise, is not free either; a lease the pool does not know changes nothing. */
  method ReturnWorker(pool: PantographManager, l: Lease, alive: bool, collected: bool, aliveAfter: bool, now: int)
    returns (closed: bool)
    requires pool.Valid()
    modifies pool`free, pool`busy, l
    ensures pool.Valid() && pool.busy == old(pool.busy) - {l}
    ensures closed ==> l !in pool.free
    ensures l !in old(pool.busy) && l !in old(pool.free) ==> !closed && pool.free == old(pool.free)
    ensures l in old(pool.busy) && alive && collected && aliveAfter ==>
      && l.useCount == old(l.useCount) + 1
      && (l in pool.free <==> pool.maxWorkerUses < 0 || l.useCount < pool.maxWorkerUses)
    ensures !(alive && collected && aliveAfter) ==> l !in pool.free
    ensures forall k :: k != l ==> (k in pool.free <==> k in old(pool.free))
  {
    if !alive {
      closed := pool.DestroyWorker(l);
      return;
    }
    if !collected {
      closed := pool.DestroyWorker(l);
      return;
    }
    if aliveAfter {
      closed := pool.ReleaseWorker(l, now);
    } else {
      closed := pool.DestroyWorker(l);
    }
  }
}
