/** Scratch state files: a worker call allocates one for every state it saves (pantograph_worker.py), and the routes
    promote each to a stored state or discard it (exec_backends.py, routers/exec.py, exec_state_files.py). Every method
    here is a stretch of code without an await. */
module ScratchFiles {
  import opened Wrappers
  import opened Lifecycle
  import opened StateFiles
  import opened Store = StateStore
  import opened ItemProtocol
  import opened ExecRoutes

  /** What Lean does with one tactic: it fails, it closes the goal, its state is saved, or saving it fails. */
  datatype TacticRun = Fails | Solves | Saves | SaveFails

  datatype StepStatus = Open | Solved | StepError

  datatype StepOutcome = StepOutcome(tactic: string, status: StepStatus, path: Option<FileName>)

  /** The result of one tactic, given the name of the scratch file it would use. */
  function OutcomeOf(tactic: string, run: TacticRun, name: FileName): StepOutcome {
    match run
    case Fails => StepOutcome(tactic, StepError, None)
    case Solves => StepOutcome(tactic, Solved, None)
    case Saves => StepOutcome(tactic, Open, Some(name))
    case SaveFails => StepOutcome(tactic, StepError, None)
  }

  /** The scratch files a list of results hands over. */
  function Paths(paths: seq<Option<FileName>>): set<FileName> {
    set o | o in paths && o.Some? :: o.value
  }

  function PathsOf(results: seq<StepOutcome>): seq<Option<FileName>> {
    seq(|results|, i requires 0 <= i < |results| => results[i].path)
  }

  lemma NoPaths(paths: seq<Option<FileName>>)
    requires forall p :: p in paths ==> p.None?
    ensures Paths(paths) == {}
  {}

  lemma PathIn(paths: seq<Option<FileName>>, k: nat)
    requires k < |paths| && paths[k].Some?
    ensures paths[k].value in Paths(paths)
  {}

  lemma PathsNext(paths: seq<Option<FileName>>, k: nat)
    requires k < |paths|
    ensures Paths(paths[..k + 1]) == Paths(paths[..k]) + if paths[k].Some? then {paths[k].value} else {}
  {}

  lemma PathsLast(results: seq<StepOutcome>, r: StepOutcome)
    ensures Paths(PathsOf(results + [r])) == Paths(PathsOf(results)) + if r.path.Some? then {r.path.value} else {}
  {
    assert PathsOf(results + [r]) == PathsOf(results) + [r.path];
    PathsNext(PathsOf(results) + [r.path], |results|);
    assert (PathsOf(results) + [r.path])[..|results|] == PathsOf(results);
  }

  /** The same files, in order. */
  function FilesIn(paths: seq<Option<FileName>>): seq<FileName> {
    if paths == [] then []
    else
      FilesIn(paths[..|paths| - 1]) + if paths[|paths| - 1].Some? then [paths[|paths| - 1].value] else []
  }

  lemma FilesInLast(paths: seq<Option<FileName>>, p: Option<FileName>)
    ensures FilesIn(paths + [p]) == FilesIn(paths) + if p.Some? then [p.value] else []
  {
    assert (paths + [p])[..|paths|] == paths;
  }

  lemma {:induction false} NoFilesIn(paths: seq<Option<FileName>>)
    requires forall k :: 0 <= k < |paths| ==> paths[k].None?
    ensures FilesIn(paths) == []
    decreases |paths|
  {
    if paths == [] {
    } else {
      NoFilesIn(paths[..|paths| - 1]);
    }
  }

  lemma {:induction false} FilesInPaths(paths: seq<Option<FileName>>)
    ensures forall f :: f in FilesIn(paths) <==> f in Paths(paths)
    decreases |paths|
  {
    if paths == [] {
    } else {
      var n := |paths| - 1;
      FilesInPaths(paths[..n]);
      PathsNext(paths, n);
      assert paths[..n + 1] == paths;
    }
  }

  /** The files before position k come first, then the one at k. */
  lemma {:induction false} FilesInPrefix(paths: seq<Option<FileName>>, k: nat)
    requires k <= |paths|
    ensures FilesIn(paths[..k]) <= FilesIn(paths)
    ensures k < |paths| && paths[k].Some? ==> FilesIn(paths[..k]) + [paths[k].value] <= FilesIn(paths)
    decreases |paths|
  {
    if k == |paths| {
      assert paths[..k] == paths;
    } else {
      var n := |paths| - 1;
      FilesInPrefix(paths[..n], k);
      assert paths[..n][..k] == paths[..k];
      FilesInLast(paths[..n], paths[n]);
      assert paths[..n] + [paths[n]] == paths;
    }
  }

  // ---------------------------------------------------------------- files come and go

  lemma AddScratch(records: Records, index: map<ItemId, set<Token>>, pins: map<Token, nat>, disk: Disk, name: FileName,
                   size: nat, now: int)
    requires Consistent(records, index, pins, disk)
    requires name.ext == Bin && name.stem !in records
    ensures Consistent(records, index, pins, disk[name := Blob(size, now)])
    ensures Untracked(disk[name := Blob(size, now)], records) == Untracked(disk, records)[name := now]
  {
    hide Grouped, Keyed, PinsLive;
    var more := disk[name := Blob(size, now)];
    assert forall t :: Readable(more, FileName(t, Json)) <==> Readable(disk, FileName(t, Json));
  }

  lemma DropScratch(records: Records, index: map<ItemId, set<Token>>, pins: map<Token, nat>, disk: Disk, name: FileName)
    requires Consistent(records, index, pins, disk)
    requires name.stem !in records
    ensures Consistent(records, index, pins, disk - {name})
    ensures Untracked(disk - {name}, records) == Untracked(disk, records) - {name}
  {
    hide Grouped, Keyed, PinsLive, Mirrors;
    OrphanGone(disk, records, name);
  }

  /** _allocate_state_path: an empty file of a new name. */
  method Allocate(store: StateStore, name: FileName, now: int)
    requires store.Valid() && name.ext == Bin && name !in store.disk && name.stem !in store.records
    modifies store`disk
    ensures store.Valid() && store.disk == old(store.disk)[name := Blob(0, now)]
    ensures Untracked(store.disk, store.records) == Untracked(old(store.disk), store.records)[name := now]
  {
    hide Consistent, Untracked;
    AddScratch(store.records, store.tokensByItem, store.pins, store.disk, name, 0, now);
    store.disk := store.disk[name := Blob(0, now)];
  }

  /** Lean writes a scratch file, and makes it anew when it is gone. */
  method LeanWrites(store: StateStore, name: FileName, size: nat, now: int)
    requires store.Valid() && name.ext == Bin && name.stem !in store.records
    modifies store`disk
    ensures store.Valid() && store.disk == old(store.disk)[name := Blob(size, now)]
    ensures Untracked(store.disk, store.records) == Untracked(old(store.disk), store.records)[name := now]
  {
    hide Consistent, Untracked;
    AddScratch(store.records, store.tokensByItem, store.pins, store.disk, name, size, now);
    store.disk := store.disk[name := Blob(size, now)];
  }

  /** unlink, whether or not the file is there. */
  method DropFile(store: StateStore, name: FileName)
    requires store.Valid() && name.stem !in store.records
    modifies store`disk
    ensures store.Valid() && store.disk == old(store.disk) - {name}
    ensures Untracked(store.disk, store.records) == Untracked(old(store.disk), store.records) - {name}
  {
    hide Consistent, Untracked;
    DropScratch(store.records, store.tokensByItem, store.pins, store.disk, name);
    store.disk := store.disk - {name};
  }

  lemma DiscardOne(given: Disk, disk: Disk, gone: set<FileName>, p: FileName)
    requires disk == given - gone
    ensures disk - {p} == given - (gone + {p})
    ensures |(gone + {p}) * given.Keys| == |gone * given.Keys| + if p in disk then 1 else 0
  {
    assert (gone + {p}) * given.Keys == gone * given.Keys + if p in disk then {p} else {};
  }

  lemma UntrackedWithout(disk: Disk, records: Records, gone: set<FileName>)
    ensures Untracked(disk - gone, records) == Untracked(disk, records) - gone
  {
    var left, wanted := Untracked(disk - gone, records), Untracked(disk, records) - gone;
    forall f ensures f in left <==> f in wanted {}
    assert left.Keys == wanted.Keys;
  }

  lemma NoneGone(disk: Disk)
    ensures disk - {} == disk && |{} * disk.Keys| == 0
  {
    assert {} * disk.Keys == {};
  }

  /** discard_unpromoted_state_paths: unlink scratch files, and say how many were there. */
  method DiscardUnpromoted(store: StateStore, paths: seq<Option<FileName>>) returns (removed: nat)
    requires store.Valid() && forall p :: p in Paths(paths) ==> p.stem !in store.records
    modifies store`disk
    ensures store.Valid() && store.disk == old(store.disk) - Paths(paths)
    ensures removed == |Paths(paths) * old(store.disk).Keys|
    ensures Untracked(store.disk, store.records) == Untracked(old(store.disk), store.records) - Paths(paths)
  {
    hide Consistent, Untracked, Paths;
    ghost var given := store.disk;
    NoPaths(paths[..0]);
    UntrackedWithout(given, store.records, Paths(paths));
    NoneGone(given);
    removed := 0;
    for k := 0 to |paths|
      invariant store.Valid() && store.disk == given - Paths(paths[..k])
      invariant removed == |Paths(paths[..k]) * given.Keys|
    {
      PathsNext(paths, k);
      ghost var gone := Paths(paths[..k]);
      if paths[k].Some? {
        var p := paths[k].value;
        PathIn(paths, k);
        assert p.stem !in store.records;
        DiscardOne(given, store.disk, gone, p);
        if p in store.disk {
          removed := removed + 1;
        }
        DropFile(store, p);
      } else {
        assert gone + {} == gone;
      }
    }
    assert paths[..|paths|] == paths;
  }

  // ---------------------------------------------------------------- promotion

  /** Tokens the store may still give out, from the k-th on: no file is named after them. */
  ghost predicate FreshTokens(tokens: seq<Token>, k: nat, files: set<FileName>, records: Records) {
    && (forall i :: k <= i < |tokens| ==> tokens[i] !in records)
    && (forall i, f :: k <= i < |tokens| && f in files ==> f.stem != tokens[i])
    && forall i, j :: k <= i < j < |tokens| ==> tokens[i] != tokens[j]
  }

  /** Open results carry a path, each its own. */
  ghost predicate OwnPaths(results: seq<StepOutcome>) {
    && (forall i :: 0 <= i < |results| ==> (results[i].status == Open <==> results[i].path.Some?))
    && forall i, j :: 0 <= i < j < |results| && results[i].path.Some? ==> results[i].path != results[j].path
  }

  /** The paths are those of no stored state; the files may be gone. */
  ghost predicate Promotable(results: seq<StepOutcome>, records: Records) {
    OwnPaths(results) && forall p :: p in Paths(PathsOf(results)) ==> p.stem !in records
  }

  /** The first result that cannot be promoted, as its file is gone or the parent is: promotion raises there. */
  function StopsAt(results: seq<StepOutcome>, k: nat, parent: bool, files: set<FileName>): (r: nat)
    requires k <= |results|
    ensures k <= r <= |results|
    decreases |results| - k
  {
    if k == |results| then k
    else if results[k].path.Some? && !(parent && results[k].path.value in files) then k
    else StopsAt(results, k + 1, parent, files)
  }

  /** Promotion reaches the end exactly when the parent, if needed, and all files are there; it never moves a file that
      is not. */
  lemma {:induction false} StopsWhere(results: seq<StepOutcome>, k: nat, parent: bool, files: set<FileName>)
    requires k <= |results|
    ensures
      var r := StopsAt(results, k, parent, files);
      && (forall i :: k <= i < r && results[i].path.Some? ==> parent && results[i].path.value in files)
      && (r < |results| ==> results[r].path.Some? && !(parent && results[r].path.value in files))
    decreases |results| - k
  {
    if k == |results| {
    } else {
      StopsWhere(results, k + 1, parent, files);
    }
  }

  /** The same, as sets. */
  lemma {:induction false} StopsCases(results: seq<StepOutcome>, parent: bool, files: set<FileName>)
    ensures
      var r := StopsAt(results, 0, parent, files);
      var done, all := Paths(PathsOf(results[..r])), Paths(PathsOf(results));
      && done <= all * files && (!parent ==> done == {})
      && (r == |results| ==> done == all)
      && (r < |results| && parent ==> !(all <= files))
  {
    StopsWhere(results, 0, parent, files);
    var r := StopsAt(results, 0, parent, files);
    forall p | p in Paths(PathsOf(results[..r])) ensures p in Paths(PathsOf(results)) && p in files && parent {
      var i :| 0 <= i < r && PathsOf(results[..r])[i] == Some(p);
      assert results[i].path == Some(p) && PathsOf(results)[i] == Some(p);
    }
    if r < |results| {
      assert PathsOf(results)[r] == results[r].path;
      PathIn(PathsOf(results), r);
    } else {
      assert results[..r] == results;
    }
  }

  /** The tokens the open ones of the first k results get. */
  function Given(results: seq<StepOutcome>, tokens: seq<Token>, k: nat): set<Token>
    requires k <= |results| <= |tokens|
  {
    set i | 0 <= i < k && results[i].path.Some? :: tokens[i]
  }

  function OwnersWith(owner: map<Token, ItemId>, made: set<Token>, item: ItemId): map<Token, ItemId> {
    owner + map t | t in made :: item
  }

  lemma GivenNext(results: seq<StepOutcome>, tokens: seq<Token>, k: nat)
    requires k < |results| <= |tokens|
    ensures Given(results, tokens, k + 1)
         == Given(results, tokens, k) + if results[k].path.Some? then {tokens[k]} else {}
  {
    forall t | t in Given(results, tokens, k + 1)
      ensures t in Given(results, tokens, k) || (results[k].path.Some? && t == tokens[k])
    {
      var i :| 0 <= i < k + 1 && results[i].path.Some? && tokens[i] == t;
      assert i < k || i == k;
    }
  }

  lemma OwnersWithMore(owner: map<Token, ItemId>, made: set<Token>, item: ItemId, t: Token)
    ensures OwnersWith(owner, made + {t}, item) == OwnersWith(owner, made, item)[t := item]
    ensures OwnersWith(owner, made + {}, item) == OwnersWith(owner, made, item)
  {
    assert made + {} == made;
  }

  /** What a state was made in. */
  function EnvOf(r: StateRecord): (string, string, string) {
    (r.envProfile, r.header, r.headerHash)
  }

  /** Old states keep their environment, new ones have the given one. */
  ghost predicate EnvsOk(before: Records, after: Records, env: (string, string, string)) {
    forall t :: t in after ==> EnvOf(after[t]) == if t in before then EnvOf(before[t]) else env
  }

  lemma ButOne(before: Records, after: Records, token: Token)
    requires token !in before && after - {token} == before
    ensures before.Keys <= after.Keys <= before.Keys + {token}
    ensures forall t :: t in before ==> after[t] == before[t]
  {
    forall t | t in before ensures t in after && after[t] == before[t] {
      assert t in after - {token};
    }
    forall t | t in after ensures t in before || t == token {
      assert t != token ==> t in after - {token};
    }
  }

  /** A child of a stored parent: same item, same environment, and everything else is as it was. */
  lemma Child(before: Records, after: Records, parent: Token, token: Token, now: int)
    requires parent in before && token !in before
    requires after - {token} == before[parent := before[parent].(lastAccessedAt := now)]
    requires token in after ==>
      after[token].itemId == before[parent].itemId && EnvOf(after[token]) == EnvOf(before[parent])
    ensures OwnerOf(after)
         == if token in after then OwnerOf(before)[token := before[parent].itemId] else OwnerOf(before)
    ensures before.Keys <= after.Keys <= before.Keys + {token}
    ensures after[parent].itemId == before[parent].itemId && EnvOf(after[parent]) == EnvOf(before[parent])
    ensures EnvsOk(before, after, EnvOf(before[parent]))
  {
    var touched := before[parent := before[parent].(lastAccessedAt := now)];
    ButOne(touched, after, token);
    assert touched.Keys == before.Keys;
  }

  lemma FreshPut(files: map<FileName, int>, source: FileName, token: Token)
    requires forall f :: f in files ==> f.stem != token
    ensures AfterPut(files, source, token) == files - {source}
  {}

  lemma ChildEnv(child: StateRecord, parent: StateRecord, token: Token, now: int)
    requires child.(sizeBytes := 0) == parent.(token := token, createdAt := now, lastAccessedAt := now, sizeBytes := 0)
    ensures child.itemId == parent.itemId && EnvOf(child) == EnvOf(parent)
  {}

  lemma ScratchSource(disk: Disk, records: Records, source: FileName)
    requires source.stem !in records
    ensures !OfRecord(records, source) && (source in disk <==> source in Untracked(disk, records))
  {}

  /** One result: an open one becomes a child of the parent, the others need no state; without its file or its parent
      that raises. */
  method PromoteOne(store: StateStore, parent: Token, result: StepOutcome, token: Token, now: int)
    returns (raised: bool, stored: Option<Token>)
    requires store.Valid() && token !in store.records
    requires result.status == Open <==> result.path.Some?
    requires result.path.Some? ==> result.path.value.stem !in store.records
    requires forall f :: f in Untracked(store.disk, store.records) ==> f.stem != token
    modifies store`records, store`tokensByItem, store`disk
    ensures store.Valid()
    ensures raised <==> result.path.Some?
                        && !(parent in old(store.records) && result.path.value
                            in Untracked(old(store.disk), old(store.records)))
    ensures stored == if !raised && result.path.Some? then Some(token) else None
    ensures old(store.records).Keys <= store.records.Keys <= old(store.records).Keys + {token}
    ensures parent !in old(store.records) ==> store.records == old(store.records)
    ensures parent in old(store.records) ==>
      && store.records[parent].itemId == old(store.records[parent]).itemId
      && EnvOf(store.records[parent]) == EnvOf(old(store.records[parent]))
      && EnvsOk(old(store.records), store.records, EnvOf(old(store.records[parent])))
    ensures OwnerOf(store.records) ==
            if stored.Some? then OwnerOf(old(store.records))[token := old(store.records[parent].itemId)]
            else OwnerOf(old(store.records))
    ensures Untracked(store.disk, store.records)
         == Untracked(old(store.disk), old(store.records)) - if stored.Some? then {result.path.value} else {}
  {
    hide Consistent, CrashSafe, ApplyAll, Untracked, OwnerOf, OfRecord, AfterPut, EnvsOk;
    raised, stored := false, None;
    assert EnvsOk(store.records, store.records, ("", "", "")) by { EnvsSame(store.records, ("", "", "")); }
    if result.status == Open && result.path.Some? {
      ghost var r0, files := store.records, Untracked(store.disk, store.records);
      ScratchSource(store.disk, r0, result.path.value);
      FreshPut(files, result.path.value, token);
      var t, _ := store.CreateChild(parent, result.path.value, token, now);
      if parent in r0 {
        if t.Some? {
          ChildEnv(store.records[token], r0[parent], token, now);
        }
        Child(r0, store.records, parent, token, now);
      }
      raised, stored := t.None?, t;
    } else if parent in store.records {
      EnvsSame(store.records, EnvOf(store.records[parent]));
    }
  }

  lemma EnvsSame(records: Records, env: (string, string, string))
    ensures EnvsOk(records, records, env)
  {}

  lemma EnvsThen(r0: Records, r1: Records, r2: Records, env: (string, string, string))
    requires EnvsOk(r0, r1, env) && EnvsOk(r1, r2, env) && r0.Keys <= r1.Keys
    ensures EnvsOk(r0, r2, env)
  {}

  /** The files that matter while results are promoted: the untracked ones and those of the results. */
  ghost function Around(results: seq<StepOutcome>, disk: Disk, records: Records): set<FileName> {
    Untracked(disk, records).Keys + Paths(PathsOf(results))
  }

  /** The first k results are dealt with, the others still can be. */
  ghost predicate Halfway(results: seq<StepOutcome>, tokens: seq<Token>, k: nat, files: map<FileName, int>,
                          owner: map<Token, ItemId>, item: ItemId, disk: Disk, records: Records)
    requires k <= |results| == |tokens|
  {
    && Promotable(results, records) && FreshTokens(tokens, k, Around(results, disk, records), records)
    && OwnerOf(records) == OwnersWith(owner, Given(results, tokens, k), item)
    && Untracked(disk, records) == files - Paths(PathsOf(results[..k]))
  }

  lemma HalfwayStart(results: seq<StepOutcome>, tokens: seq<Token>, item: ItemId, disk: Disk, records: Records)
    requires |tokens| == |results| && Promotable(results, records)
    requires FreshTokens(tokens, 0, Around(results, disk, records), records)
    ensures Halfway(results, tokens, 0, Untracked(disk, records), OwnerOf(records), item, disk, records)
  {
    NoPaths(PathsOf(results[..0]));
    assert OwnersWith(OwnerOf(records), {}, item) == OwnerOf(records);
  }

  lemma PathOfResult(results: seq<StepOutcome>, k: nat)
    requires k < |results| && results[k].path.Some?
    ensures results[k].path.value in Paths(PathsOf(results))
    ensures OwnPaths(results) ==> results[k].path.value !in Paths(PathsOf(results[..k]))
  {
    assert PathsOf(results)[k] == results[k].path;
  }

  lemma HalfwayAt(results: seq<StepOutcome>, tokens: seq<Token>, k: nat, files: map<FileName, int>,
                  owner: map<Token, ItemId>, item: ItemId, disk: Disk, records: Records)
    requires k < |results| == |tokens| && Halfway(results, tokens, k, files, owner, item, disk, records)
    ensures results[k].status == Open <==> results[k].path.Some?
    ensures results[k].path.Some? ==>
      && results[k].path.value.stem !in records
      && (results[k].path.value in Untracked(disk, records) <==> results[k].path.value in files)
    ensures tokens[k] !in records && forall f :: f in Untracked(disk, records) ==> f.stem != tokens[k]
  {
    if results[k].path.Some? {
      PathOfResult(results, k);
    }
    hide OwnerOf, OwnersWith, Given, Untracked, Paths, PathsOf;
  }

  lemma FreshNext(results: seq<StepOutcome>, tokens: seq<Token>, k: nat, d0: Disk, r0: Records, d1: Disk, r1: Records)
    requires k < |tokens| && Promotable(results, r0) && FreshTokens(tokens, k, Around(results, d0, r0), r0)
    requires r1.Keys <= r0.Keys + {tokens[k]} && Untracked(d1, r1).Keys <= Untracked(d0, r0).Keys
    ensures Promotable(results, r1) && FreshTokens(tokens, k + 1, Around(results, d1, r1), r1)
  {
    hide Untracked, Paths, PathsOf;
  }

  /** One result promoted, or not to be. */
  lemma HalfwayNext(results: seq<StepOutcome>, tokens: seq<Token>, k: nat, files: map<FileName, int>,
                    owner: map<Token, ItemId>, item: ItemId, d0: Disk, r0: Records, d1: Disk, r1: Records)
    requires k < |results| == |tokens| && Halfway(results, tokens, k, files, owner, item, d0, r0)
    requires r1.Keys <= r0.Keys + {tokens[k]}
    requires OwnerOf(r1) == if results[k].path.Some? then OwnerOf(r0)[tokens[k] := item] else OwnerOf(r0)
    requires Untracked(d1, r1) == Untracked(d0, r0) - if results[k].path.Some? then {results[k].path.value} else {}
    ensures Halfway(results, tokens, k + 1, files, owner, item, d1, r1)
  {
    hide Untracked, Paths, PathsOf, OwnerOf, OwnersWith, Given, Promotable, FreshTokens, Around;
    FreshNext(results, tokens, k, d0, r0, d1, r1);
    GivenNext(results, tokens, k);
    OwnersWithMore(owner, Given(results, tokens, k), item, tokens[k]);
    assert results[..k + 1] == results[..k] + [results[k]];
    PathsLast(results[..k], results[k]);
  }

  /** Promotion raised at result k, or there is none left: the others are untouched. */
  lemma HalfwayEnd(results: seq<StepOutcome>, tokens: seq<Token>, k: nat, files: map<FileName, int>,
                   owner: map<Token, ItemId>, item: ItemId, disk: Disk, records: Records)
    requires k <= |results| == |tokens| && Halfway(results, tokens, k, files, owner, item, disk, records)
    ensures OwnerOf(records) == OwnersWith(owner, Given(results, tokens, k), item)
    ensures Untracked(disk, records) == files - Paths(PathsOf(results[..k]))
  {}

  lemma {:induction false} StopsNext(results: seq<StepOutcome>, k: nat, parent: bool, files: set<FileName>)
    requires k < |results|
    ensures
      var stops := results[k].path.Some? && !(parent && results[k].path.value in files);
      StopsAt(results, k, parent, files) == if stops then k else StopsAt(results, k + 1, parent, files)
  {}

  /** The loop of _step_batch_result_from_worker_results: promote the open results in order, up to the first that
      raises. */
  method Promote(store: StateStore, parent: Token, ghost item: ItemId, results: seq<StepOutcome>, tokens: seq<Token>,
                 now: int)
    returns (raised: bool, stored: seq<Option<Token>>)
    requires store.Valid() && |tokens| == |results| && Promotable(results, store.records)
    requires parent in store.records ==> store.records[parent].itemId == item
    requires FreshTokens(tokens, 0, Around(results, store.disk, store.records), store.records)
    modifies store`records, store`tokensByItem, store`disk
    ensures store.Valid()
    ensures
      var k := StopsAt(results, 0, parent in old(store.records), Untracked(old(store.disk), old(store.records)).Keys);
      && (raised <==> k < |results|)
      && OwnerOf(store.records) == OwnersWith(OwnerOf(old(store.records)), Given(results, tokens, k), item)
      && Untracked(store.disk, store.records)
          == Untracked(old(store.disk), old(store.records)) - Paths(PathsOf(results[..k]))
    ensures !raised ==>
      && |stored| == |results|
      && forall i :: 0 <= i < |results| ==> stored[i] == if results[i].status == Open then Some(tokens[i]) else None
    ensures parent in old(store.records) ==>
      EnvsOk(old(store.records), store.records, EnvOf(old(store.records[parent])))
  {
    hide Consistent, Untracked, Paths, PathsOf, OwnerOf, OwnersWith, Given, Promotable, FreshTokens, Halfway, EnvsOk,
         EnvOf, Around, StopsAt;
    ghost var owner, files := OwnerOf(store.records), Untracked(store.disk, store.records);
    ghost var given, there := store.records, parent in store.records;
    ghost var env := if there then EnvOf(store.records[parent]) else ("", "", "");
    EnvsSame(given, env);
    HalfwayStart(results, tokens, item, store.disk, store.records);
    raised, stored := false, [];
    for k := 0 to |results|
      invariant store.Valid() && |stored| == k && !raised && given.Keys <= store.records.Keys
      invariant there <==> parent in store.records
      invariant there ==> store.records[parent].itemId == item && EnvOf(store.records[parent]) == env
      invariant forall i :: 0 <= i < k ==> stored[i] == if results[i].status == Open then Some(tokens[i]) else None
      invariant Halfway(results, tokens, k, files, owner, item, store.disk, store.records)
      invariant StopsAt(results, 0, there, files.Keys) == StopsAt(results, k, there, files.Keys)
      invariant there ==> EnvsOk(given, store.records, env)
    {
      HalfwayAt(results, tokens, k, files, owner, item, store.disk, store.records);
      StopsNext(results, k, there, files.Keys);
      ghost var d0, r0 := store.disk, store.records;
      var t;
      raised, t := PromoteOne(store, parent, results[k], tokens[k], now);
      if raised {
        HalfwayEnd(results, tokens, k, files, owner, item, d0, r0);
        assert Untracked(d0, r0) - {} == Untracked(d0, r0);
        if there {
          EnvsThen(given, r0, store.records, env);
        }
        return true, [];
      }
      if there {
        EnvsThen(given, r0, store.records, env);
      }
      stored := stored + [t];
      HalfwayNext(results, tokens, k, files, owner, item, d0, r0, store.disk, store.records);
    }
    StopsEnd(results, there, files.Keys);
    HalfwayEnd(results, tokens, |results|, files, owner, item, store.disk, store.records);
  }

  lemma {:induction false} StopsEnd(results: seq<StepOutcome>, parent: bool, files: set<FileName>)
    ensures StopsAt(results, |results|, parent, files) == |results|
  {}

  // ---------------------------------------------------------------- the end of a step item, and of a created one

  /** The token sets the store gives out are what the protocol calls the new states. */
  lemma StoredIsOwnersWith(reg: Registry, owner: map<Token, ItemId>, pins: map<Token, nat>, now: int, item: ItemId,
                           made: set<Token>)
    requires forall t :: t in made ==> t !in owner
    ensures Stored(State(reg, owner, pins, map[], 0, now), item, made)
         == if ShouldCancel(reg, item) then owner else OwnersWith(owner, made, item)
  {}

  lemma GivenFresh(results: seq<StepOutcome>, tokens: seq<Token>, k: nat, files: set<FileName>, records: Records)
    requires k <= |results| == |tokens| && FreshTokens(tokens, 0, files, records)
    ensures forall t :: t in Given(results, tokens, k) ==> t !in OwnerOf(records)
    ensures forall f, t :: f in files && t in Given(results, tokens, k) ==> f.stem != t
  {}

  /** What promotion, or discarding, makes of a list of results: how far it gets, the files it moves, the states it
      stores, and the files that are untracked afterwards. */
  ghost predicate Settled(results: seq<StepOutcome>, tokens: seq<Token>, cancelled: bool, parent: bool, k: nat,
                          item: ItemId, owner: map<Token, ItemId>, owner': map<Token, ItemId>,
                          files: map<FileName, int>, files': map<FileName, int>)
    requires |tokens| == |results|
  {
    && k == StopsAt(results, 0, parent, files.Keys)
    && owner' == (if cancelled then owner else OwnersWith(owner, Given(results, tokens, k), item))
    && files' == files - if cancelled then Paths(PathsOf(results)) else Paths(PathsOf(results[..k]))
  }

  /** The same, on results, tokens and files. Promotion stops at the first file that is gone, or at the first file at
      all when the parent is; the files before move and become states of the item, or all files go. */
  lemma SettledMeans(results: seq<StepOutcome>, tokens: seq<Token>, cancelled: bool, parent: bool, k: nat,
                     item: ItemId, owner: map<Token, ItemId>, owner': map<Token, ItemId>, files: map<FileName, int>,
                     files': map<FileName, int>)
    requires |tokens| == |results| && Settled(results, tokens, cancelled, parent, k, item, owner, owner', files, files')
    ensures k <= |results|
    ensures forall i :: 0 <= i < k && results[i].path.Some? ==> parent && results[i].path.value in files
    ensures k < |results| ==> results[k].path.Some? && !(parent && results[k].path.value in files)
    ensures forall t :: t in owner ==> t in owner'
    ensures forall t :: t in owner' ==>
      || (t in owner && owner'[t] == owner[t])
      || (!cancelled && owner'[t] == item && exists i :: 0 <= i < k && results[i].path.Some? && tokens[i] == t)
    ensures !cancelled ==> forall i :: 0 <= i < k && results[i].path.Some? ==>
      tokens[i] in owner' && owner'[tokens[i]] == item
    ensures forall f ::
      f in files' <==>
        f in files && forall i :: 0 <= i < (if cancelled then |results| else k) ==> results[i].path != Some(f)
    ensures forall f :: f in files' ==> files'[f] == files[f]
  {
    StopsWhere(results, 0, parent, files.Keys);
    PathsMean(results, if cancelled then |results| else k);
    assert results[..|results|] == results;
    hide StopsAt, Paths, PathsOf;
  }

  lemma PathsMean(results: seq<StepOutcome>, k: nat)
    requires k <= |results|
    ensures forall f :: f in Paths(PathsOf(results[..k])) <==> exists i :: 0 <= i < k && results[i].path == Some(f)
  {
    var paths := PathsOf(results[..k]);
    forall f | exists i :: 0 <= i < k && results[i].path == Some(f) ensures f in Paths(paths) {
      var i :| 0 <= i < k && results[i].path == Some(f);
      assert paths[i] == Some(f);
    }
  }

  /** New states have the environment of the call, and old ones keep theirs. */
  lemma EnvsMean(before: Records, after: Records, env: (string, string, string))
    ensures EnvsOk(before, after, env) <==> forall t :: t in after ==>
      (after[t].envProfile, after[t].header, after[t].headerHash) ==
        if t in before then (before[t].envProfile, before[t].header, before[t].headerHash) else env
  {}

  /** What a lane does with the results of a step: discard them when the item is cancelled, otherwise promote them. */
  method FinishStep(reg: ItemLifecycleRegistry, store: StateStore, e: Entry, results: seq<StepOutcome>,
                    tokens: seq<Token>, now: int)
    returns (cancelled: bool, raised: bool, stored: seq<Option<Token>>, ghost k: nat)
    requires store.Valid() && |tokens| == |results| && Promotable(results, store.records)
    requires e.token in store.records ==> store.records[e.token].itemId == e.item
    requires FreshTokens(tokens, 0, Around(results, store.disk, store.records), store.records)
    modifies store`records, store`tokensByItem, store`disk
    ensures store.Valid() && cancelled == ShouldCancel(reg.records, e.item)
    ensures Settled(results, tokens, cancelled, e.token in old(store.records), k, e.item,
                    OwnerOf(old(store.records)), OwnerOf(store.records),
                    Untracked(old(store.disk), old(store.records)), Untracked(store.disk, store.records))
    ensures raised <==> !cancelled && k < |results|
    ensures !cancelled && !raised ==>
      && |stored| == |results|
      && forall i :: 0 <= i < |results| ==> stored[i] == if results[i].status == Open then Some(tokens[i]) else None
    ensures e.token in old(store.records) ==>
      EnvsOk(old(store.records), store.records, EnvOf(old(store.records[e.token])))
  {
    hide Consistent, Untracked, Paths, PathsOf, OwnerOf, OwnersWith, Given, FreshTokens, StopsAt, EnvsOk, EnvOf;
    if e.token in store.records {
      EnvsSame(store.records, EnvOf(store.records[e.token]));
    }
    k := StopsAt(results, 0, e.token in store.records, Untracked(store.disk, store.records).Keys);
    cancelled, raised, stored := ShouldCancel(reg.records, e.item), false, [];
    if cancelled {
      var _ := DiscardUnpromoted(store, PathsOf(results));
    } else {
      raised, stored := Promote(store, e.token, e.item, results, tokens, now);
    }
  }

  /** put for one created state; without its file that raises. */
  method PutOne(store: StateStore, item: ItemId, envProfile: string, header: string, headerHash: string,
                result: StepOutcome, token: Token, now: int) returns (stored: Option<Token>)
    requires store.Valid() && token !in store.records
    requires result.path.Some? && result.path.value.stem !in store.records
    requires forall f :: f in Untracked(store.disk, store.records) ==> f.stem != token
    modifies store`records, store`tokensByItem, store`disk
    ensures store.Valid() && (stored.Some? <==> result.path.value in Untracked(old(store.disk), old(store.records)))
    ensures stored.Some? ==> stored == Some(token)
    ensures EnvsOk(old(store.records), store.records, (envProfile, header, headerHash))
    ensures store.records.Keys == old(store.records).Keys + if stored.Some? then {token} else {}
    ensures OwnerOf(store.records)
         == if stored.Some? then OwnerOf(old(store.records))[token := item] else OwnerOf(old(store.records))
    ensures Untracked(store.disk, store.records)
         == Untracked(old(store.disk), old(store.records)) - if stored.Some? then {result.path.value} else {}
  {
    hide Consistent, CrashSafe, ApplyAll, Untracked, OfRecord, AfterPut, EnvsOk;
    ScratchSource(store.disk, store.records, result.path.value);
    FreshPut(Untracked(store.disk, store.records), result.path.value, token);
    ghost var r0 := store.records;
    var t, _ := store.Put(result.path.value, item, envProfile, header, headerHash, token, now);
    stored := t;
    if t.Some? {
      EnvsPut(r0, token, store.records[token]);
    } else {
      EnvsSame(r0, (envProfile, header, headerHash));
    }
  }

  lemma EnvsPut(records: Records, token: Token, r: StateRecord)
    requires token !in records
    ensures EnvsOk(records, records[token := r], EnvOf(r))
  {}

  /** Every result is a state to store. */
  ghost predicate AllOpen(results: seq<StepOutcome>) {
    forall i :: 0 <= i < |results| ==> results[i].status == Open
  }

  lemma OpenAt(results: seq<StepOutcome>, k: nat)
    requires AllOpen(results) && k < |results|
    ensures results[k].status == Open
  {}

  /** put for every created state, in order, up to the first that raises. */
  method PutAll(store: StateStore, item: ItemId, envProfile: string, header: string, headerHash: string,
                results: seq<StepOutcome>, tokens: seq<Token>, now: int)
    returns (raised: bool, stored: seq<Token>, ghost k: nat)
    requires store.Valid() && |tokens| == |results| && Promotable(results, store.records)
    requires AllOpen(results)
    requires FreshTokens(tokens, 0, Around(results, store.disk, store.records), store.records)
    modifies store`records, store`tokensByItem, store`disk
    ensures store.Valid()
    ensures k == StopsAt(results, 0, true, Untracked(old(store.disk), old(store.records)).Keys)
    ensures OwnerOf(store.records) == OwnersWith(OwnerOf(old(store.records)), Given(results, tokens, k), item)
    ensures Untracked(store.disk, store.records)
        == Untracked(old(store.disk), old(store.records)) - Paths(PathsOf(results[..k]))
    ensures (raised <==> k < |results|) && (!raised ==> stored == tokens)
    ensures EnvsOk(old(store.records), store.records, (envProfile, header, headerHash))
  {
    hide Consistent, Untracked, Paths, PathsOf, OwnerOf, OwnersWith, Given, Promotable, FreshTokens, Halfway, Around,
         StopsAt, EnvsOk, EnvOf, AllOpen;
    ghost var given, env := store.records, (envProfile, header, headerHash);
    EnvsSame(given, env);
    ghost var owner, files := OwnerOf(store.records), Untracked(store.disk, store.records);
    HalfwayStart(results, tokens, item, store.disk, store.records);
    raised, stored := false, [];
    for n := 0 to |results|
      invariant store.Valid() && |stored| == n && !raised
      invariant forall i :: 0 <= i < n ==> stored[i] == tokens[i]
      invariant Halfway(results, tokens, n, files, owner, item, store.disk, store.records)
      invariant StopsAt(results, 0, true, files.Keys) == StopsAt(results, n, true, files.Keys)
      invariant EnvsOk(given, store.records, env) && given.Keys <= store.records.Keys
    {
      OpenAt(results, n);
      HalfwayAt(results, tokens, n, files, owner, item, store.disk, store.records);
      StopsNext(results, n, true, files.Keys);
      ghost var d0, r0 := store.disk, store.records;
      var t := PutOne(store, item, envProfile, header, headerHash, results[n], tokens[n], now);
      EnvsThen(given, r0, store.records, env);
      if t.None? {
        HalfwayEnd(results, tokens, n, files, owner, item, d0, r0);
        assert Untracked(d0, r0) - {} == Untracked(d0, r0);
        return true, [], n;
      }
      stored := stored + [t.value];
      HalfwayNext(results, tokens, n, files, owner, item, d0, r0, store.disk, store.records);
    }
    StopsEnd(results, true, files.Keys);
    HalfwayEnd(results, tokens, |results|, files, owner, item, store.disk, store.records);
    k := |results|;
  }

  /** The end of create_one: discard the created states when the item is cancelled, otherwise store them under it. */
  method FinishCreate(reg: ItemLifecycleRegistry, store: StateStore, item: ItemId, envProfile: string, header: string,
                      headerHash: string, results: seq<StepOutcome>, tokens: seq<Token>, now: int)
    returns (cancelled: bool, raised: bool, stored: seq<Token>, ghost k: nat)
    requires store.Valid() && |tokens| == |results| && Promotable(results, store.records)
    requires AllOpen(results)
    requires FreshTokens(tokens, 0, Around(results, store.disk, store.records), store.records)
    modifies store`records, store`tokensByItem, store`disk
    ensures store.Valid() && cancelled == ShouldCancel(reg.records, item)
    ensures Settled(results, tokens, cancelled, true, k, item, OwnerOf(old(store.records)), OwnerOf(store.records),
                    Untracked(old(store.disk), old(store.records)), Untracked(store.disk, store.records))
    ensures (raised <==> !cancelled && k < |results|) && stored == if cancelled || raised then [] else tokens
    ensures EnvsOk(old(store.records), store.records, (envProfile, header, headerHash))
  {
    hide Consistent, Untracked, Paths, PathsOf, OwnerOf, OwnersWith, Given, FreshTokens, StopsAt, EnvOf, EnvsOk;
    EnvsSame(store.records, (envProfile, header, headerHash));
    k := StopsAt(results, 0, true, Untracked(store.disk, store.records).Keys);
    cancelled, raised, stored := ShouldCancel(reg.records, item), false, [];
    if cancelled {
      var _ := DiscardUnpromoted(store, PathsOf(results));
    } else {
      raised, stored, k := PutAll(store, item, envProfile, header, headerHash, results, tokens, now);
      if raised {
        stored := [];
      }
    }
  }
}
