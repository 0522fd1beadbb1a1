/** The files of the state store (state_store.py): one state file and one sidecar per record, what a new process reads
    back from them, and what a crash between two file operations leaves. */
module StateFiles {
  import opened Wrappers
  import opened Lifecycle

  type Token = string

  datatype StateRecord = StateRecord(token: Token, itemId: ItemId, envProfile: string, header: string,
                                     headerHash: string,
                                     createdAt: int, lastAccessedAt: int, sizeBytes: nat)

  type Records = map<Token, StateRecord>

  // ---------------------------------------------------------------- files

  datatype Ext = Bin | Json | Other(suffix: string)

  datatype FileName = FileName(stem: string, ext: Ext)

  /** A file, with the record it holds when its text is that of a sidecar. The size of a sidecar is never read. */
  datatype File = File(size: nat, mtime: int, sidecar: Option<StateRecord>)

  function Blob(size: nat, mtime: int): File {
    File(size, mtime, None)
  }

  type Disk = map<FileName, File>

  /** One file operation; each is atomic. */
  datatype FileOp =
    | Move(from: FileName, to: FileName)
    | WriteSidecar(record: StateRecord, at: int)
    | Unlink(name: FileName)

  function Apply(disk: Disk, op: FileOp): Disk {
    match op
    case Move(from, to) => if from in disk then (disk - {from})[to := disk[from]] else disk
    case WriteSidecar(r, at) => disk[FileName(r.token, Json) := File(0, at, Some(r))]
    case Unlink(name) => disk - {name}
  }

  function ApplyAll(disk: Disk, ops: seq<FileOp>): Disk
    decreases |ops|
  {
    if ops == [] then disk else ApplyAll(Apply(disk, ops[0]), ops[1..])
  }

  lemma {:induction false} ApplyAppend(disk: Disk, a: seq<FileOp>, b: seq<FileOp>)
    ensures ApplyAll(disk, a + b) == ApplyAll(ApplyAll(disk, a), b)
    decreases |a|
  {
    if a == [] {
      assert a + b == b;
    } else {
      ApplyAppend(Apply(disk, a[0]), a[1..], b);
      assert (a + b)[1..] == a[1..] + b;
    }
  }

  /** A .json file that parses as a sidecar; others are skipped with a warning. */
  predicate Readable(disk: Disk, n: FileName) {
    n in disk && n.ext == Json && disk[n].sidecar.Some?
  }

  /** What a new process reads back: the readable sidecars whose state file is there. */
  function Rehydrated(disk: Disk): Records {
    map t | t in (set n | n in disk && Readable(disk, n) && FileName(n.stem, Bin) in disk :: n.stem)
      :: disk[FileName(t, Json)].sidecar.value
  }

  /** Every readable sidecar describes the token in its name; the store writes no others. */
  ghost predicate WellNamed(disk: Disk) {
    forall n :: Readable(disk, n) ==> disk[n].sidecar.value.token == n.stem
  }

  /** Between operations: one state file and one readable sidecar per record, and no other readable sidecar. */
  ghost predicate Mirrors(disk: Disk, records: Records) {
    && WellNamed(disk)
    && (forall t :: t in records ==> FileName(t, Bin) in disk)
    && (forall t :: Readable(disk, FileName(t, Json)) <==> t in records)
    && (forall t :: t in records ==> disk[FileName(t, Json)].sidecar.value == records[t])
  }

  /** The two files of a tracked record. */
  predicate OfRecord(records: Records, n: FileName) {
    n.stem in records && (n.ext == Bin || n.ext == Json)
  }

  /** A restart reads back exactly the records in memory. */
  lemma RestartRebuilds(disk: Disk, records: Records)
    requires Mirrors(disk, records)
    ensures Rehydrated(disk) == records
  {
    forall t | t in records ensures t in Rehydrated(disk) {
      assert Readable(disk, FileName(t, Json));
    }
  }

  // ---------------------------------------------------------------- crashes

  ghost predicate SameAt(a: Records, b: Records, t: Token) {
    (t in a <==> t in b) && (t in a ==> a[t] == b[t])
  }

  /** Every token is as it was before, or as it is to be. */
  ghost predicate Between(read: Records, before: Records, after: Records) {
    forall t :: SameAt(read, before, t) || SameAt(read, after, t)
  }

  ghost predicate CrashState(disk: Disk, before: Records, after: Records) {
    WellNamed(disk) && Between(Rehydrated(disk), before, after)
  }

  /** A crash between any two of these file operations leaves each token before or after. */
  ghost predicate CrashSafe(disk: Disk, ops: seq<FileOp>, before: Records, after: Records) {
    forall k :: 0 <= k <= |ops| ==> CrashState(ApplyAll(disk, ops[..k]), before, after)
  }

  lemma CrashSafeNothing(disk: Disk, records: Records)
    requires Mirrors(disk, records)
    ensures ApplyAll(disk, []) == disk && CrashSafe(disk, [], records, records)
  {
    RestartRebuilds(disk, records);
  }

  /** No token changes both on the way from r0 to r1 and on the way from r1 to r2. */
  ghost predicate Separate(r0: Records, r1: Records, r2: Records) {
    forall t :: SameAt(r0, r1, t) || SameAt(r1, r2, t)
  }

  /** Two phases that touch different tokens are crash-safe one after the other. */
  lemma CrashSafeAppend(disk: Disk, a: seq<FileOp>, b: seq<FileOp>, r0: Records, r1: Records, r2: Records)
    requires CrashSafe(disk, a, r0, r1) && CrashSafe(ApplyAll(disk, a), b, r1, r2)
    requires Separate(r0, r1, r2)
    ensures CrashSafe(disk, a + b, r0, r2)
  {
    hide ApplyAll, Rehydrated, WellNamed;
    forall k | 0 <= k <= |a + b| ensures CrashState(ApplyAll(disk, (a + b)[..k]), r0, r2) {
      if k <= |a| {
        assert (a + b)[..k] == a[..k];
        assert CrashState(ApplyAll(disk, a[..k]), r0, r1);
        BetweenWider(Rehydrated(ApplyAll(disk, a[..k])), r0, r1, r2);
      } else {
        assert (a + b)[..k] == a + b[..k - |a|];
        ApplyAppend(disk, a, b[..k - |a|]);
        assert CrashState(ApplyAll(ApplyAll(disk, a), b[..k - |a|]), r1, r2);
        BetweenWider(Rehydrated(ApplyAll(disk, (a + b)[..k])), r0, r1, r2);
      }
    }
  }

  lemma BetweenWider(read: Records, r0: Records, r1: Records, r2: Records)
    requires Between(read, r0, r1) || Between(read, r1, r2)
    requires Separate(r0, r1, r2)
    ensures Between(read, r0, r2)
  {
    forall t ensures SameAt(read, r0, t) || SameAt(read, r2, t) {
      assert SameAt(r0, r1, t) || SameAt(r1, r2, t);
    }
  }

  lemma ApplyOne(disk: Disk, a: FileOp)
    ensures ApplyAll(disk, [a]) == Apply(disk, a)
    ensures [a][..0] == [] && [a][..1] == [a]
  {}

  lemma ApplyTwo(disk: Disk, a: FileOp, b: FileOp)
    ensures ApplyAll(disk, [a, b]) == Apply(Apply(disk, a), b)
    ensures [a, b][..0] == [] && [a, b][..1] == [a] && [a, b][..2] == [a, b]
  {
    assert [a, b][1..] == [b];
    ApplyOne(Apply(disk, a), b);
  }

  function PutOps(source: FileName, r: StateRecord, now: int): seq<FileOp> {
    [Move(source, FileName(r.token, Bin)), WriteSidecar(r, now)]
  }

  /** A disk without the state files and sidecars of some tokens. */
  function Without(disk: Disk, stems: set<Token>): Disk {
    map n | n in disk && !(n.stem in stems && (n.ext == Bin || n.ext == Json)) :: disk[n]
  }

  lemma WithoutOne(disk: Disk, stems: set<Token>, t: Token)
    ensures Without(disk, stems) - {FileName(t, Bin)} - {FileName(t, Json)} == Without(disk, stems + {t})
  {
    forall n: FileName ensures n.stem == t && (n.ext == Bin || n.ext == Json)
        <==> n == FileName(t, Bin) || n == FileName(t, Json) {}
  }

  /** The files of no tracked token, with the time each was last written: scratch files, and what crashes left. */
  function Untracked(disk: Disk, records: Records): map<FileName, int> {
    map n | n in disk && n.stem !in records :: disk[n].mtime
  }

  /** What a put leaves of some untracked files: not the one moved in, and none that shares the name of the token. */
  function AfterPut(files: map<FileName, int>, source: FileName, token: Token): map<FileName, int> {
    map n | n in files && n != source && n.stem != token :: files[n]
  }

  lemma PutUntracked(disk: Disk, records: Records, source: FileName, r: StateRecord, now: int)
    requires source in disk && r.token !in records
    ensures Untracked(ApplyAll(disk, PutOps(source, r, now)), records[r.token := r])
        == AfterPut(Untracked(disk, records), source, r.token)
  {
    ApplyTwo(disk, PutOps(source, r, now)[0], PutOps(source, r, now)[1]);
  }

  lemma TouchUntracked(disk: Disk, records: Records, r: StateRecord, now: int)
    requires Mirrors(disk, records) && r.token in records
    ensures Untracked(ApplyAll(disk, [WriteSidecar(r, now)]), records[r.token := r]) == Untracked(disk, records)
  {
    ApplyOne(disk, WriteSidecar(r, now));
  }

  function DeleteOps(t: Token): seq<FileOp> {
    [Unlink(FileName(t, Bin)), Unlink(FileName(t, Json))]
  }

  lemma CrashSafeOne(disk: Disk, op: FileOp, before: Records, after: Records)
    requires CrashState(disk, before, after) && CrashState(Apply(disk, op), before, after)
    ensures CrashSafe(disk, [op], before, after)
  {
    hide CrashState, Apply, ApplyAll;
    ApplyOne(disk, op);
    assert ApplyAll(disk, []) == disk by { ApplyNone(disk); }
    forall k | 0 <= k <= |[op]| ensures CrashState(ApplyAll(disk, [op][..k]), before, after) {
      assert [op][..k] == if k == 0 then [] else [op];
    }
  }

  lemma ApplyNone(disk: Disk)
    ensures ApplyAll(disk, []) == disk
  {}

  lemma CrashSafeTwo(disk: Disk, d1: Disk, d2: Disk, ops: seq<FileOp>, before: Records, after: Records)
    requires |ops| == 2 && d1 == Apply(disk, ops[0]) && d2 == Apply(d1, ops[1])
    requires CrashState(disk, before, after) && CrashState(d1, before, after) && CrashState(d2, before, after)
    ensures CrashSafe(disk, ops, before, after)
  {
    var a, b := ops[0], ops[1];
    ApplyOne(disk, a);
    ApplyTwo(disk, a, b);
    assert ops == [a, b] && ApplyAll(disk, []) == disk;
    hide CrashState, Apply, ApplyAll;
    forall k | 0 <= k <= |ops| ensures CrashState(ApplyAll(disk, ops[..k]), before, after) {
      assert ops[..k] == if k == 0 then [] else if k == 1 then [a] else [a, b];
    }
  }

  lemma MoveKeeps(disk: Disk, records: Records, source: FileName, t: Token)
    requires Mirrors(disk, records)
    requires source in disk && !OfRecord(records, source) && t !in records
    ensures Mirrors(Apply(disk, Move(source, FileName(t, Bin))), records)
    ensures FileName(t, Bin) in Apply(disk, Move(source, FileName(t, Bin)))
  {}

  lemma WriteKeeps(disk: Disk, records: Records, r: StateRecord, now: int)
    requires Mirrors(disk, records) && FileName(r.token, Bin) in disk
    ensures Mirrors(Apply(disk, WriteSidecar(r, now)), records[r.token := r])
  {}

  lemma PutOnDisk(disk: Disk, records: Records, source: FileName, r: StateRecord, now: int)
    requires Mirrors(disk, records)
    requires source in disk && !OfRecord(records, source) && r.token !in records
    ensures Mirrors(ApplyAll(disk, PutOps(source, r, now)), records[r.token := r])
    ensures ApplyAll(disk, PutOps(source, r, now))
        == Apply(Apply(disk, PutOps(source, r, now)[0]), PutOps(source, r, now)[1])
    ensures source.stem != r.token ==> source !in ApplyAll(disk, PutOps(source, r, now))
    ensures CrashSafe(disk, PutOps(source, r, now), records, records[r.token := r])
  {
    hide ApplyAll, Mirrors, Rehydrated;
    var ops := PutOps(source, r, now);
    var d1 := Apply(disk, ops[0]);
    var d2 := Apply(d1, ops[1]);
    ApplyTwo(disk, ops[0], ops[1]);
    assert source.stem != r.token ==> source !in d2;
    hide Apply;
    MoveKeeps(disk, records, source, r.token);
    WriteKeeps(d1, records, r, now);
    MirrorsCrash(disk, records, records, records[r.token := r]);
    MirrorsCrash(d1, records, records, records[r.token := r]);
    MirrorsCrash(d2, records[r.token := r], records, records[r.token := r]);
    CrashSafeTwo(disk, d1, d2, ops, records, records[r.token := r]);
  }

  lemma MirrorsCrash(disk: Disk, records: Records, before: Records, after: Records)
    requires Mirrors(disk, records) && (records == before || records == after)
    ensures CrashState(disk, before, after)
  {
    RestartRebuilds(disk, records);
  }

  /** The same files on both disks, but for the text of one. */
  ghost predicate SameBut(a: Disk, b: Disk, except: FileName) {
    a.Keys == b.Keys && forall n :: n in a && n != except ==> a[n] == b[n]
  }

  lemma TouchOnDisk(disk: Disk, records: Records, r: StateRecord, now: int)
    requires Mirrors(disk, records) && r.token in records
    ensures Mirrors(ApplyAll(disk, [WriteSidecar(r, now)]), records[r.token := r])
    ensures CrashSafe(disk, [WriteSidecar(r, now)], records, records[r.token := r])
    ensures SameBut(disk, ApplyAll(disk, [WriteSidecar(r, now)]), FileName(r.token, Json))
  {
    WriteKeeps(disk, records, r, now);
    ApplyOne(disk, WriteSidecar(r, now));
    assert Readable(disk, FileName(r.token, Json));
    hide Apply, Mirrors, Rehydrated, CrashState, CrashSafe;
    MirrorsCrash(disk, records, records, records[r.token := r]);
    MirrorsCrash(Apply(disk, WriteSidecar(r, now)), records[r.token := r], records, records[r.token := r]);
    CrashSafeOne(disk, WriteSidecar(r, now), records, records[r.token := r]);
  }

  lemma DeleteOnDisk(disk: Disk, records: Records, t: Token)
    requires Mirrors(disk, records) && t in records
    ensures Mirrors(ApplyAll(disk, DeleteOps(t)), records - {t})
    ensures ApplyAll(disk, DeleteOps(t)) == disk - {FileName(t, Bin), FileName(t, Json)}
    ensures CrashSafe(disk, DeleteOps(t), records, records - {t})
  {
    var ops := DeleteOps(t);
    var d1 := Apply(disk, ops[0]);
    var d2 := Apply(d1, ops[1]);
    ApplyTwo(disk, ops[0], ops[1]);
    assert d2 == disk - {FileName(t, Bin), FileName(t, Json)};
    HalfDeleted(disk, records, t);
    BothDeleted(disk, records, t);
    hide ApplyAll, Apply, Mirrors, Rehydrated, WellNamed;
    MirrorsCrash(disk, records, records, records - {t});
    MirrorsCrash(d2, records - {t}, records, records - {t});
    CrashSafeTwo(disk, d1, d2, ops, records, records - {t});
  }

  lemma BothDeleted(disk: Disk, records: Records, t: Token)
    requires Mirrors(disk, records) && t in records
    ensures Mirrors(disk - {FileName(t, Bin), FileName(t, Json)}, records - {t})
  {
    var d := disk - {FileName(t, Bin), FileName(t, Json)};
    forall u ensures Readable(d, FileName(u, Json)) <==> u in records - {t} {
      assert Readable(disk, FileName(u, Json)) <==> u in records;
    }
  }

  /** The state file gone, the sidecar still there: the token is already gone for a restart. */
  lemma HalfDeleted(disk: Disk, records: Records, t: Token)
    requires Mirrors(disk, records) && t in records
    ensures CrashState(Apply(disk, Unlink(FileName(t, Bin))), records, records - {t})
  {
    var d := Apply(disk, Unlink(FileName(t, Bin)));
    forall u | u in records && u != t ensures u in Rehydrated(d) {
      assert Readable(disk, FileName(u, Json)) && Readable(d, FileName(u, Json)) && FileName(u, Bin) in d;
    }
    assert Rehydrated(d) == records - {t};
  }

  lemma OrphanGone(disk: Disk, records: Records, name: FileName)
    requires Mirrors(disk, records) && name.stem !in records
    ensures Mirrors(disk - {name}, records)
  {
    assert forall t :: Readable(disk - {name}, FileName(t, Json)) <==> Readable(disk, FileName(t, Json));
  }

  lemma UnlinkOrphan(disk: Disk, records: Records, name: FileName)
    requires Mirrors(disk, records) && name.stem !in records
    ensures Mirrors(ApplyAll(disk, [Unlink(name)]), records)
    ensures ApplyAll(disk, [Unlink(name)]) == disk - {name}
    ensures CrashSafe(disk, [Unlink(name)], records, records)
  {
    hide Mirrors, Rehydrated, CrashState, CrashSafe, ApplyAll;
    ApplyOne(disk, Unlink(name));
    OrphanGone(disk, records, name);
    MirrorsCrash(disk, records, records, records);
    MirrorsCrash(disk - {name}, records, records, records);
    CrashSafeOne(disk, Unlink(name), records, records);
  }

  /** Moving a file of another record away is what breaks the agreement. */
  lemma PutOfRecord(disk: Disk, records: Records, source: FileName, r: StateRecord, now: int)
    requires Mirrors(disk, records) && source in disk && OfRecord(records, source) && r.token !in records
    ensures !Mirrors(ApplyAll(disk, PutOps(source, r, now)), records[r.token := r])
  {
    ApplyTwo(disk, PutOps(source, r, now)[0], PutOps(source, r, now)[1]);
    var d := Apply(Apply(disk, PutOps(source, r, now)[0]), PutOps(source, r, now)[1]);
    assert source !in d;
    assert source == FileName(source.stem, source.ext);
  }

  // ---------------------------------------------------------------- rehydration

  /** A readable sidecar without the state file of its token. */
  predicate Lone(disk: Disk, n: FileName) {
    Readable(disk, n) && FileName(disk[n].sidecar.value.token, Bin) !in disk
  }

  /** The disk after those of `seen` that are lone sidecars are gone. */
  function WithoutLone(disk: Disk, seen: set<FileName>): Disk {
    map n | n in disk && !(n in seen && Lone(disk, n)) :: disk[n]
  }

  /** A record is read back from some sidecar whose state file is there. */
  ghost predicate Loadable(disk: Disk, seen: set<FileName>, r: StateRecord) {
    exists n :: n in seen && Readable(disk, n) && !Lone(disk, n) && disk[n].sidecar.value == r
  }

  /** The records read from some files of a well-named disk. */
  function Loaded(disk: Disk, seen: set<FileName>): Records {
    map t | t in (set n | n in seen && Readable(disk, n) && !Lone(disk, n) :: n.stem)
      :: disk[FileName(t, Json)].sidecar.value
  }

  /** What reading one more .json file does. */
  lemma LoadOne(disk: Disk, seen: set<FileName>, n: FileName)
    requires n in disk && n !in seen && n.ext == Json
    ensures n in WithoutLone(disk, seen) && WithoutLone(disk, seen)[n] == disk[n]
    ensures (Readable(disk, n) <==> disk[n].sidecar.Some?) && (Lone(disk, n) ==> Readable(disk, n))
    ensures Readable(disk, n) ==> (Lone(disk, n)
        <==> FileName(disk[n].sidecar.value.token, Bin) !in WithoutLone(disk, seen))
    ensures WithoutLone(disk, seen + {n})
         == if Lone(disk, n) then WithoutLone(disk, seen) - {n} else WithoutLone(disk, seen)
  {}

  lemma LoadOneRecord(disk: Disk, seen: set<FileName>, n: FileName)
    requires n in disk && n !in seen && WellNamed(WithoutLone(disk, disk.Keys))
    requires Readable(disk, n) && !Lone(disk, n)
    ensures disk[n].sidecar.value.token == n.stem && n.stem !in Loaded(disk, seen)
    ensures Loaded(disk, seen + {n}) == Loaded(disk, seen)[n.stem := disk[n].sidecar.value]
  {
    assert Readable(WithoutLone(disk, disk.Keys), n);
    assert n == FileName(n.stem, Json);
    forall m | m in seen && Readable(disk, m) && !Lone(disk, m) ensures m.stem != n.stem {
      assert m == FileName(m.stem, Json);
    }
  }

  lemma LoadOneNothing(disk: Disk, seen: set<FileName>, n: FileName)
    requires n in disk && n !in seen && (!Readable(disk, n) || Lone(disk, n))
    ensures Loaded(disk, seen + {n}) == Loaded(disk, seen)
  {
    assert forall m :: m in seen + {n} && Readable(disk, m) && !Lone(disk, m) ==> m in seen;
  }

  /** After all files: disk and records agree when the sidecars that stay are well named. */
  lemma LoadedMirrors(disk: Disk)
    requires WellNamed(WithoutLone(disk, disk.Keys))
    ensures Mirrors(WithoutLone(disk, disk.Keys), Loaded(disk, disk.Keys))
  {
    var d := WithoutLone(disk, disk.Keys);
    var loaded := Loaded(disk, disk.Keys);
    forall n | Readable(disk, n) && !Lone(disk, n)
      ensures disk[n].sidecar.value.token == n.stem && n == FileName(n.stem, Json) {
      assert Readable(d, n);
    }
    forall t ensures Readable(d, FileName(t, Json)) <==> t in loaded {
      assert Readable(d, FileName(t, Json)) ==> FileName(t, Json) in disk.Keys;
    }
    forall t | t in loaded ensures FileName(t, Bin) in d && d[FileName(t, Json)].sidecar.value == loaded[t] {
      assert Readable(d, FileName(t, Json));
    }
  }

  lemma LoadedAll(disk: Disk)
    requires WellNamed(disk)
    ensures Loaded(disk, disk.Keys) == Rehydrated(disk)
  {
    forall t ensures t in Loaded(disk, disk.Keys) <==> t in Rehydrated(disk) {
      assert Readable(disk, FileName(t, Json)) ==> FileName(t, Json).stem == t;
    }
  }

  /** Removing lone sidecars, one after the other, never changes what a restart reads. */
  lemma LoneKeeps(disk: Disk, seen: set<FileName>)
    requires WellNamed(disk)
    ensures WellNamed(WithoutLone(disk, seen)) && Rehydrated(WithoutLone(disk, seen)) == Rehydrated(disk)
  {
    var d := WithoutLone(disk, seen);
    forall n | Readable(disk, n) && FileName(n.stem, Bin) in disk
      ensures Readable(d, n) && FileName(n.stem, Bin) in d {}
    forall t ensures t in Rehydrated(disk) <==> t in Rehydrated(d) {
      if t in Rehydrated(disk) {
        assert Readable(d, FileName(t, Json)) by { assert Readable(disk, FileName(t, Json)); }
      }
    }
  }

  /** Reached from another disk by file operations after each of which a restart reads the same records. */
  ghost predicate ReachedSafely(given: Disk, disk: Disk, records: Records) {
    exists ops :: disk == ApplyAll(given, ops) && CrashSafe(given, ops, records, records)
  }

  /** The records read from some files: each from one of them, and all that can be read. */
  ghost predicate ReadSoFar(disk: Disk, seen: set<FileName>, records: Records) {
    && (forall t :: t in records ==> records[t].token == t && Loadable(disk, seen, records[t]))
    && (forall r :: Loadable(disk, seen, r) ==> r.token in records)
  }

  lemma LoadNothing(disk: Disk, json: set<FileName>)
    requires json == set n | n in disk && n.ext == Json
    ensures WithoutLone(disk, disk.Keys - json) == disk && Loaded(disk, disk.Keys - json) == map[]
    ensures ReadSoFar(disk, disk.Keys - json, map[])
    ensures ApplyAll(disk, []) == disk
  {
    forall r ensures !Loadable(disk, disk.Keys - json, r) {}
  }

  lemma CrashSafeRest(disk: Disk)
    requires WellNamed(disk)
    ensures CrashSafe(disk, [], Rehydrated(disk), Rehydrated(disk))
  {
    ApplyNone(disk);
    hide WellNamed, Rehydrated;
  }

  /** One file of the rehydration, for the records read so far. */
  lemma ReadMore(disk: Disk, seen: set<FileName>, n: FileName, records: Records)
    requires n in disk && n !in seen && ReadSoFar(disk, seen, records)
    ensures Readable(disk, n) && !Lone(disk, n) ==>
      ReadSoFar(disk, seen + {n}, records[disk[n].sidecar.value.token := disk[n].sidecar.value])
    ensures !(Readable(disk, n) && !Lone(disk, n)) ==> ReadSoFar(disk, seen + {n}, records)
  {
    forall r ensures Loadable(disk, seen + {n}, r) <==>
                     Loadable(disk, seen, r) || (Readable(disk, n) && !Lone(disk, n) && disk[n].sidecar.value == r) {
      LoadStep(disk, seen, n, r);
    }
    hide Loadable;
  }

  lemma LoadStep(disk: Disk, seen: set<FileName>, n: FileName, r: StateRecord)
    requires n in disk && n !in seen
    ensures Loadable(disk, seen + {n}, r) <==>
            Loadable(disk, seen, r) || (Readable(disk, n) && !Lone(disk, n) && disk[n].sidecar.value == r)
  {
    if Loadable(disk, seen, r) {
      var m :| m in seen && Readable(disk, m) && !Lone(disk, m) && disk[m].sidecar.value == r;
      assert m in seen + {n};
    }
    if Loadable(disk, seen + {n}, r) {
      var m :| m in seen + {n} && Readable(disk, m) && !Lone(disk, m) && disk[m].sidecar.value == r;
      assert m in seen || m == n;
    }
    if Readable(disk, n) && !Lone(disk, n) && disk[n].sidecar.value == r {
      assert n in seen + {n};
    }
  }

  /** Unlinking one more lone sidecar is crash-safe. */
  lemma LoneStep(disk: Disk, seen: set<FileName>, n: FileName, ops: seq<FileOp>)
    requires WellNamed(disk) && n in disk && n !in seen && Lone(disk, n)
    requires WithoutLone(disk, seen) == ApplyAll(disk, ops) && CrashSafe(disk, ops, Rehydrated(disk), Rehydrated(disk))
    ensures CrashSafe(disk, ops + [Unlink(n)], Rehydrated(disk), Rehydrated(disk))
  {
    var d, r := WithoutLone(disk, seen), Rehydrated(disk);
    LoadOne(disk, seen, n);
    LoneKeeps(disk, seen);
    LoneKeeps(disk, seen + {n});
    assert CrashState(d, r, r) && CrashState(Apply(d, Unlink(n)), r, r);
    assert Separate(r, r, r);
    hide ApplyAll, CrashState, CrashSafe, WithoutLone, Rehydrated, WellNamed, Lone, Separate;
    CrashSafeOne(d, Unlink(n), r, r);
    CrashSafeAppend(disk, ops, [Unlink(n)], r, r, r);
  }

  // ---------------------------------------------------------------- orphans

  /** A file of no tracked token, untouched since the cutoff. */
  predicate Orphan(disk: Disk, records: Records, cutoff: int, n: FileName) {
    n in disk && n.stem !in records && disk[n].mtime < cutoff
  }

  /** The disk after those of `seen` that are orphans are gone. */
  function SweptDisk(disk: Disk, records: Records, cutoff: int, seen: set<FileName>): Disk {
    map n | n in disk && !(n in seen && Orphan(disk, records, cutoff, n)) :: disk[n]
  }

  /** The orphaned state files, by size. */
  function OrphanBins(disk: Disk, records: Records, cutoff: int, seen: set<FileName>): map<FileName, nat> {
    map n | n in disk && n in seen && Orphan(disk, records, cutoff, n) && n.ext == Bin :: disk[n].size
  }

  /** The sweep never removes a file of a tracked token. */
  lemma SweepSparesTracked(disk: Disk, records: Records, cutoff: int, seen: set<FileName>)
    ensures forall n :: n in disk && n.stem in records ==> n in SweptDisk(disk, records, cutoff, seen)
                                                           && SweptDisk(disk, records, cutoff, seen)[n] == disk[n]
    ensures Mirrors(disk, records) ==> Mirrors(SweptDisk(disk, records, cutoff, seen), records)
  {
    if Mirrors(disk, records) {
      var d := SweptDisk(disk, records, cutoff, seen);
      forall t ensures Readable(d, FileName(t, Json)) <==> t in records {
        assert Readable(disk, FileName(t, Json)) <==> t in records;
      }
      forall t | t in records ensures FileName(t, Bin) in d {}
    }
  }

  lemma SweepOne(disk: Disk, records: Records, cutoff: int, seen: set<FileName>, n: FileName)
    requires n in disk && n !in seen
    ensures n in SweptDisk(disk, records, cutoff, seen) && SweptDisk(disk, records, cutoff, seen)[n] == disk[n]
    ensures Orphan(disk, records, cutoff, n) == (n.stem !in records && disk[n].mtime < cutoff)
    ensures SweptDisk(disk, records, cutoff, seen + {n}) ==
            if Orphan(disk, records, cutoff, n) then SweptDisk(disk, records, cutoff, seen) - {n}
            else SweptDisk(disk, records, cutoff, seen)
    ensures n !in OrphanBins(disk, records, cutoff, seen)
    ensures OrphanBins(disk, records, cutoff, seen + {n}) ==
            if Orphan(disk, records, cutoff, n) && n.ext == Bin
                then OrphanBins(disk, records, cutoff, seen)[n := disk[n].size]
            else OrphanBins(disk, records, cutoff, seen)
  {}

  /** Deleting tracked files first changes nothing for the sweep. */
  lemma OrphansAfter(disk: Disk, before: Records, after: Records, cutoff: int)
    requires after.Keys <= before.Keys
    ensures var d := Without(disk, before.Keys - after.Keys);
      OrphanBins(d, after, cutoff, d.Keys) == OrphanBins(disk, before, cutoff, disk.Keys)
  {}
}
