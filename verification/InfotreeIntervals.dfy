/** Kept nodes become intervals that partition a stretch of the source (infotree.py: get_intervals, adjust_intervals,
    retrieve_tactics). */
module InfotreeIntervals {
  import opened Wrappers
  import opened InfotreeForest
  import opened SourceText

  datatype Interval = Interval(nodeId: int, pp: string, start: Pos, finish: Pos,
                               goalsBefore: seq<string>, goalsAfter: seq<string>)

  datatype Tactic = Tactic(goalsBefore: seq<string>, goalsAfter: seq<string>, text: string)

  function OfNode(id: int, n: Node): Interval {
    Interval(id, n.pp, n.start, n.finish, n.goalsBefore, n.goalsAfter)
  }

  // ---------------------------------------------------------------- sorting by start

  predicate Sorted(ivs: seq<Interval>) {
    forall i, j :: 0 <= i < j < |ivs| ==> NotAfter(ivs[i].start, ivs[j].start)
  }

  function InsertByStart(iv: Interval, ivs: seq<Interval>): (r: seq<Interval>)
    ensures |r| == |ivs| + 1
    ensures forall x :: x in r <==> x == iv || x in ivs
  {
    if ivs == [] || NotAfter(iv.start, ivs[0].start) then [iv] + ivs
    else [ivs[0]] + InsertByStart(iv, ivs[1..])
  }

  /** The built-in stable sort, keyed on the start position. */
  function SortByStart(ivs: seq<Interval>): (r: seq<Interval>)
    ensures |r| == |ivs|
    ensures forall x :: x in r <==> x in ivs
  {
    if ivs == [] then [] else InsertByStart(ivs[0], SortByStart(ivs[1..]))
  }

  lemma {:induction false} InsertKeepsSorted(iv: Interval, ivs: seq<Interval>)
    requires Sorted(ivs)
    ensures Sorted(InsertByStart(iv, ivs))
  {
    if ivs == [] || NotAfter(iv.start, ivs[0].start) {
    } else {
      InsertKeepsSorted(iv, ivs[1..]);
      var rest := InsertByStart(iv, ivs[1..]);
      assert forall x :: x in ivs[1..] ==> NotAfter(ivs[0].start, x.start);
      assert forall k :: 0 <= k < |rest| ==> rest[k] in rest;
    }
  }

  lemma {:induction false} SortIsSorted(ivs: seq<Interval>)
    ensures Sorted(SortByStart(ivs))
  {
    if ivs == [] {
    } else {
      SortIsSorted(ivs[1..]);
      InsertKeepsSorted(ivs[0], SortByStart(ivs[1..]));
    }
  }

  /** The intervals that start at `p`, in list order. */
  function StartingAt(ivs: seq<Interval>, p: Pos): seq<Interval> {
    if ivs == [] then []
    else if ivs[0].start == p then [ivs[0]] + StartingAt(ivs[1..], p)
    else StartingAt(ivs[1..], p)
  }

  lemma {:induction false} InsertStable(iv: Interval, ivs: seq<Interval>, p: Pos)
    ensures StartingAt(InsertByStart(iv, ivs), p) == StartingAt([iv] + ivs, p)
  {
    assert ([iv] + ivs)[1..] == ivs;
    if ivs == [] || NotAfter(iv.start, ivs[0].start) {
    } else {
      InsertStable(iv, ivs[1..], p);
      assert ([iv] + ivs[1..])[1..] == ivs[1..];
    }
  }

  /** Sorting is stable: among intervals with the same start nothing is reordered, lost or repeated. */
  lemma {:induction false} SortStable(ivs: seq<Interval>, p: Pos)
    ensures StartingAt(SortByStart(ivs), p) == StartingAt(ivs, p)
  {
    if ivs == [] {
    } else {
      SortStable(ivs[1..], p);
      InsertStable(ivs[0], SortByStart(ivs[1..]), p);
      assert ([ivs[0]] + SortByStart(ivs[1..]))[1..] == SortByStart(ivs[1..]);
    }
  }

  /** The places the intervals come from: by start position, and in list order where these are equal. */
  ghost predicate StableByStart(ivs: seq<Interval>, sorted: seq<Interval>, from: seq<nat>) {
    && |sorted| == |from| == |ivs|
    && (forall k :: 0 <= k < |from| ==> from[k] < |ivs| && sorted[k] == ivs[from[k]])
    && forall i, j :: 0 <= i < j < |from| ==>
         || sorted[i].start.line < sorted[j].start.line
         || (sorted[i].start.line == sorted[j].start.line && sorted[i].start.col < sorted[j].start.col)
         || (sorted[i].start == sorted[j].start && from[i] < from[j])
  }

  lemma {:induction false} InsertedAt(iv: Interval, ivs: seq<Interval>) returns (p: nat)
    requires Sorted(ivs)
    ensures p <= |ivs| && InsertByStart(iv, ivs) == ivs[..p] + [iv] + ivs[p..]
    ensures forall k :: 0 <= k < p ==> Before(ivs[k].start, iv.start)
    ensures forall k :: p <= k < |ivs| ==> NotAfter(iv.start, ivs[k].start)
  {
    if ivs == [] || NotAfter(iv.start, ivs[0].start) {
      p := 0;
    } else {
      var q := InsertedAt(iv, ivs[1..]);
      p := q + 1;
    }
  }

  /** One more interval in front of the list, inserted before those that start where it starts or later. */
  lemma StableInsert(ivs: seq<Interval>, sorted: seq<Interval>, rest: seq<nat>, p: nat, all: seq<Interval>,
                     from: seq<nat>)
    requires ivs != [] && StableByStart(ivs[1..], sorted, rest) && p <= |sorted| && |all| == |from| == |ivs|
    requires forall k :: 0 <= k < p ==> Before(sorted[k].start, ivs[0].start)
    requires forall k :: p <= k < |sorted| ==> NotAfter(ivs[0].start, sorted[k].start)
    requires all[p] == ivs[0] && from[p] == 0
    requires forall k :: 0 <= k < |ivs| && k != p ==>
      var was := if k < p then k else k - 1;
      all[k] == sorted[was] && from[k] == rest[was] + 1
    ensures StableByStart(ivs, all, from)
  {
    forall i, j | 0 <= i < j < |from|
      ensures || all[i].start.line < all[j].start.line
              || (all[i].start.line == all[j].start.line && all[i].start.col < all[j].start.col)
              || (all[i].start == all[j].start && from[i] < from[j])
    {
      if i != p && j != p {
        var i0, j0 := if i < p then i else i - 1, if j < p then j else j - 1;
        assert 0 <= i0 < j0 < |rest|;
      }
    }
  }

  lemma StableNone()
    ensures StableByStart([], [], [])
  {}

  lemma StableOne(ivs: seq<Interval>, sorted: seq<Interval>, rest: seq<nat>) returns (from: seq<nat>)
    requires ivs != [] && StableByStart(ivs[1..], sorted, rest) && Sorted(sorted)
    ensures StableByStart(ivs, InsertByStart(ivs[0], sorted), from)
  {
    hide StableByStart, Sorted, Before, NotAfter;
    StableLengths(ivs[1..], sorted, rest);
    var p := InsertedAt(ivs[0], sorted);
    var all := InsertByStart(ivs[0], sorted);
    from := seq(|ivs|, k requires 0 <= k < |ivs| => if k < p then rest[k] + 1 else if k == p then 0
        else rest[k - 1] + 1);
    StableInsert(ivs, sorted, rest, p, all, from);
  }

  lemma StableLengths(ivs: seq<Interval>, sorted: seq<Interval>, from: seq<nat>)
    requires StableByStart(ivs, sorted, from)
    ensures |sorted| == |from| == |ivs|
  {}

  lemma {:induction false} SortMeans(ivs: seq<Interval>) returns (from: seq<nat>)
    ensures StableByStart(ivs, SortByStart(ivs), from)
  {
    hide StableByStart, InsertByStart, Sorted;
    if ivs == [] {
      StableNone();
      from := [];
    } else {
      var rest := SortMeans(ivs[1..]);
      SortIsSorted(ivs[1..]);
      from := StableOne(ivs, SortByStart(ivs[1..]), rest);
    }
  }

  // ---------------------------------------------------------------- adjusting the ends

  /** The furthest finish position, starting from (-1, -1). */
  function MaxFinish(ivs: seq<Interval>, from: Pos): (m: Pos)
    ensures NotAfter(from, m)
    ensures forall iv :: iv in ivs ==> NotAfter(iv.finish, m)
    ensures m == from || exists iv :: iv in ivs && iv.finish == m
    decreases |ivs|
  {
    if ivs == [] then from
    else
      var first := if Before(from, ivs[0].finish) then ivs[0].finish else from;
      MaxFinish(ivs[1..], first)
  }

  /** Where the interval at the head of a sorted list ends: at the next start, or at `end`. */
  function NextStart(ivs: seq<Interval>, end: Pos): Pos {
    if |ivs| > 1 then ivs[1].start else end
  }

  function Ended(ivs: seq<Interval>, end: Pos): Interval
    requires ivs != []
  {
    ivs[0].(finish := NextStart(ivs, end),
            goalsAfter := if |ivs| > 1 then ivs[1].goalsBefore else ivs[0].goalsAfter)
  }

  /** Every interval ends where the next begins, the last at `end`; empty ones are gone. */
  function Trim(ivs: seq<Interval>, end: Pos): seq<Interval> {
    if ivs == [] then []
    else (if ivs[0].start == NextStart(ivs, end) then [] else [Ended(ivs, end)]) + Trim(ivs[1..], end)
  }

  /** What is left of a sorted list: the intervals that do not start where the next one starts (the last: at `end`),
      each with its new finish and the goals the next one starts with. */
  ghost predicate CutAtNext(sorted: seq<Interval>, end: Pos, kept: seq<nat>, r: seq<Interval>) {
    && |r| == |kept|
    && (forall i, j :: 0 <= i < j < |kept| ==> kept[i] < kept[j])
    && (forall m :: 0 <= m < |kept| ==> kept[m] < |sorted|)
    && (forall k: nat :: k < |sorted| ==>
          (k in kept <==> sorted[k].start != if k + 1 < |sorted| then sorted[k + 1].start else end))
    && (forall m :: 0 <= m < |r| ==>
          r[m] == if kept[m] + 1 < |sorted| then
                    sorted[kept[m]].(finish := sorted[kept[m] + 1].start,
                                     goalsAfter := sorted[kept[m] + 1].goalsBefore)
                  else sorted[kept[m]].(finish := end))
  }

  /** The places that stay when there is one more interval in front. */
  lemma KeptOneMore(rest: seq<nat>, kept: seq<nat>, n: nat)
    requires n <= 1 && |kept| == |rest| + n && (n == 1 ==> kept[0] == 0)
    requires forall m :: 0 <= m < |rest| ==> kept[m + n] == rest[m] + 1
    requires forall i, j :: 0 <= i < j < |rest| ==> rest[i] < rest[j]
    ensures forall i, j :: 0 <= i < j < |kept| ==> kept[i] < kept[j]
    ensures forall k: nat :: k in kept <==> (k > 0 && k - 1 in rest) || (k == 0 && n == 1)
  {
    assert forall m :: n <= m < |kept| ==> kept[m] == rest[m - n] + 1;
    forall k: nat | k > 0 && k - 1 in rest ensures k in kept {
      var m :| 0 <= m < |rest| && rest[m] == k - 1;
      assert kept[m + n] == k;
    }
  }

  lemma KeptAt(sorted: seq<Interval>, end: Pos, kept: seq<nat>, r: seq<Interval>, k: nat)
    requires CutAtNext(sorted, end, kept, r) && k < |sorted|
    ensures k in kept <==> sorted[k].start != if k + 1 < |sorted| then sorted[k + 1].start else end
  {}

  /** One more interval in front. */
  lemma CutOneMore(sorted: seq<Interval>, end: Pos, rest: seq<nat>, r: seq<Interval>, kept: seq<nat>,
                   all: seq<Interval>, n: nat)
    requires sorted != [] && CutAtNext(sorted[1..], end, rest, r)
    requires n == if sorted[0].start != NextStart(sorted, end) then 1 else 0
    requires |kept| == |all| == |r| + n && (n == 1 ==> kept[0] == 0 && all[0] == Ended(sorted, end))
    requires forall m :: 0 <= m < |rest| ==> kept[m + n] == rest[m] + 1 && all[m + n] == r[m]
    ensures CutAtNext(sorted, end, kept, all)
  {
    KeptOneMore(rest, kept, n);
    var tail := sorted[1..];
    assert forall k :: 0 < k < |sorted| ==> sorted[k] == tail[k - 1];
    forall k: nat | k < |sorted|
      ensures k in kept <==> sorted[k].start != if k + 1 < |sorted| then sorted[k + 1].start else end
    {
      if k > 0 {
        KeptAt(tail, end, rest, r, k - 1);
      }
    }
    forall m | 0 <= m < |all|
      ensures kept[m] < |sorted|
      ensures all[m] == if kept[m] + 1 < |sorted| then
                          sorted[kept[m]].(finish := sorted[kept[m] + 1].start,
                                           goalsAfter := sorted[kept[m] + 1].goalsBefore)
                        else sorted[kept[m]].(finish := end)
    {
      if m >= n {
        assert kept[(m - n) + n] == rest[m - n] + 1 && all[(m - n) + n] == r[m - n];
      }
    }
  }

  lemma CutNone(end: Pos)
    ensures CutAtNext([], end, [], [])
  {}

  lemma CutLengths(sorted: seq<Interval>, end: Pos, kept: seq<nat>, r: seq<Interval>)
    requires CutAtNext(sorted, end, kept, r)
    ensures |r| == |kept|
  {}

  lemma {:induction false} TrimMeans(sorted: seq<Interval>, end: Pos) returns (kept: seq<nat>)
    ensures CutAtNext(sorted, end, kept, Trim(sorted, end))
  {
    hide CutAtNext, Ended;
    CutNone(end);
    if sorted == [] {
      kept := [];
    } else {
      var rest := TrimMeans(sorted[1..], end);
      CutLengths(sorted[1..], end, rest, Trim(sorted[1..], end));
      var n := if sorted[0].start != NextStart(sorted, end) then 1 else 0;
      kept := seq(|rest| + n, m requires 0 <= m < |rest| + n => if m < n then 0 else rest[m - n] + 1);
      var r, all := Trim(sorted[1..], end), Trim(sorted, end);
      assert all == (if n == 1 then [Ended(sorted, end)] else []) + r;
      CutOneMore(sorted, end, rest, r, kept, all, n);
    }
  }

  method FurthestFinish(sorted: seq<Interval>) returns (end: Pos)
    ensures end == MaxFinish(sorted, Pos(-1, -1))
  {
    end := Pos(-1, -1);
    for i := 0 to |sorted|
      invariant MaxFinish(sorted, Pos(-1, -1)) == MaxFinish(sorted[i..], end)
    {
      if Before(end, sorted[i].finish) {
        end := sorted[i].finish;
      }
    }
  }

  /** Set every finish in place. */
  method CutEnds(intervals: seq<Interval>, end: Pos) returns (r: seq<Interval>)
    ensures |r| == |intervals|
    ensures forall j :: 0 <= j < |r| ==> r[j] == Ended(intervals[j..], end)
  {
    r := intervals;
    var i := 0;
    while i < |r| - 1
      invariant 0 <= i <= |r| == |intervals|
      invariant forall j :: 0 <= j < i ==> r[j] == Ended(intervals[j..], end)
      invariant forall j :: i <= j < |r| ==> r[j] == intervals[j]
    {
      r := r[i := r[i].(finish := r[i + 1].start, goalsAfter := r[i + 1].goalsBefore)];
      i := i + 1;
    }
    if r != [] {
      r := r[|r| - 1 := r[|r| - 1].(finish := end)];
    }
  }

  method DropEmpty(cut: seq<Interval>, ghost sorted: seq<Interval>, ghost end: Pos) returns (r: seq<Interval>)
    requires |cut| == |sorted|
    requires forall j :: 0 <= j < |cut| ==> cut[j] == Ended(sorted[j..], end)
    ensures r == Trim(sorted, end)
  {
    r := [];
    assert sorted[0..] == sorted && [] + Trim(sorted, end) == Trim(sorted, end);
    for i := 0 to |cut|
      invariant r + Trim(sorted[i..], end) == Trim(sorted, end)
    {
      var rest := sorted[i..];
      assert rest[1..] == sorted[i + 1..];
      assert cut[i].finish == NextStart(rest, end) && cut[i].start == rest[0].start;
      if !(cut[i].start == cut[i].finish) {
        assert r + ([cut[i]] + Trim(rest[1..], end)) == (r + [cut[i]]) + Trim(rest[1..], end);
        r := r + [cut[i]];
      } else {
        assert Trim(rest, end) == [] + Trim(rest[1..], end) == Trim(rest[1..], end);
      }
    }
    assert r + [] == r;
  }

  /** adjust_intervals: sort, cut every interval at its successor, drop the empty ones. */
  method AdjustIntervals(intervals: seq<Interval>)
    returns (r: seq<Interval>, ghost from: seq<nat>, ghost kept: seq<nat>, ghost end: Pos)
    ensures r == Trim(SortByStart(intervals), MaxFinish(SortByStart(intervals), Pos(-1, -1)))
    ensures StableByStart(intervals, SortByStart(intervals), from)
    ensures CutAtNext(SortByStart(intervals), end, kept, r)
    ensures forall iv :: iv in intervals ==> NotAfter(iv.finish, end)
    ensures end == Pos(-1, -1) || exists iv :: iv in intervals && iv.finish == end
  {
    hide StableByStart, CutAtNext, Trim, NotAfter;
    var sorted := SortByStart(intervals);
    from := SortMeans(intervals);
    var last := FurthestFinish(sorted);
    end := last;
    kept := TrimMeans(sorted, end);
    var cut := CutEnds(sorted, last);
    r := DropEmpty(cut, sorted, last);
  }

  // ---------------------------------------------------------------- what the intervals cover

  /** Consecutive, non-empty, from `lo` to `hi`. */
  ghost predicate Chain(ivs: seq<Interval>, lo: Pos, hi: Pos) {
    if ivs == [] then lo == hi
    else ivs[0].start == lo && ivs[0].start != ivs[0].finish && Chain(ivs[1..], ivs[0].finish, hi)
  }

  /** adjust_intervals makes a partition of the stretch from the earliest start to the furthest finish. */
  lemma {:induction false} TrimIsChain(ivs: seq<Interval>, end: Pos)
    requires ivs != []
    ensures Chain(Trim(ivs, end), ivs[0].start, end)
  {
    if |ivs| > 1 {
      TrimIsChain(ivs[1..], end);
    }
    var rest := Trim(ivs[1..], end);
    assert [] + rest == rest && ([Ended(ivs, end)] + rest)[1..] == rest;
  }

  /** The text of a list of intervals; None when some position raises. */
  function TextOf(lines: seq<string>, ivs: seq<Interval>): (r: Option<seq<string>>)
    ensures r.Some? ==> |r.value| == |ivs|
  {
    if ivs == [] then Some([])
    else match (Snippet(lines, ivs[0].start, ivs[0].finish), TextOf(lines, ivs[1..]))
      case (Some(first), Some(rest)) => Some([first] + rest)
      case _ => None
  }

  /** The pieces cut out between the intervals join to exactly that stretch of the source. */
  lemma {:induction false} TrimText(lines: seq<string>, ivs: seq<Interval>, end: Pos)
    requires ivs != [] && Sorted(ivs) && Valid(lines, end)
    requires forall iv :: iv in ivs ==> Valid(lines, iv.start)
    requires NotAfter(ivs[|ivs| - 1].start, end)
    ensures Offset(lines, ivs[0].start) <= Offset(lines, end) <= |Concat(lines)|
    ensures var r := TextOf(lines, Trim(ivs, end));
      r.Some? && Concat(r.value) == Concat(lines)[Offset(lines, ivs[0].start)..Offset(lines, end)]
  {
    hide Snippet, Offset, Sorted;
    var next := NextStart(ivs, end);
    var first, rest := ivs[0], Trim(ivs[1..], end);
    HeadFirst(ivs);
    SnippetIsSlice(lines, first.start, next);
    if |ivs| > 1 {
      TrimText(lines, ivs[1..], end);
    } else {
      assert Concat(TextOf(lines, rest).value) == "";
    }
    if first.start == next {
      assert Trim(ivs, end) == rest;
    } else {
      var all := [Ended(ivs, end)] + rest;
      assert Trim(ivs, end) == all && all[1..] == rest;
      var texts := TextOf(lines, all).value;
      assert texts[1..] == TextOf(lines, rest).value;
      JoinSlices(Concat(lines), Offset(lines, first.start), Offset(lines, next), Offset(lines, end));
    }
  }

  lemma HeadFirst(ivs: seq<Interval>)
    requires ivs != [] && Sorted(ivs)
    ensures Sorted(ivs[1..]) && ivs[0] in ivs
    ensures |ivs| > 1 ==> ivs[1] in ivs && NotAfter(ivs[0].start, ivs[1].start)
  {}

  lemma JoinSlices(s: string, i: nat, j: nat, k: nat)
    requires i <= j <= k <= |s|
    ensures s[i..j] + s[j..k] == s[i..k]
  {}

  function Texts(ts: seq<Tactic>): (r: seq<string>)
    ensures |r| == |ts|
  {
    seq(|ts|, i requires 0 <= i < |ts| => ts[i].text)
  }

  lemma TextsAt(ts: seq<Tactic>, i: nat, text: string)
    requires i < |ts|
    ensures Texts(ts)[i] == ts[i].text
    ensures Texts(ts[i := ts[i].(text := text)]) == Texts(ts)[i := text]
  {}

  lemma {:induction false} TextOfMeans(lines: seq<string>, ivs: seq<Interval>)
    ensures TextOf(lines, ivs).None? <==>
      exists i :: 0 <= i < |ivs| && Snippet(lines, ivs[i].start, ivs[i].finish).None?
    ensures TextOf(lines, ivs).Some? ==> forall i :: 0 <= i < |ivs| ==>
      Snippet(lines, ivs[i].start, ivs[i].finish) == Some(TextOf(lines, ivs).value[i])
  {
    hide Snippet;
    if ivs == [] {
    } else {
      TextOfMeans(lines, ivs[1..]);
      forall i | 0 < i < |ivs| ensures ivs[i] == ivs[1..][i - 1] {}
      if i :| 0 <= i < |ivs[1..]| && Snippet(lines, ivs[1..][i].start, ivs[1..][i].finish).None? {
        assert Snippet(lines, ivs[i + 1].start, ivs[i + 1].finish).None?;
      }
    }
  }

  /** retrieve_tactics: None stands for the IndexError of a position outside the source. */
  method RetrieveTactics(intervals: seq<Interval>, lines: seq<string>) returns (r: Option<seq<Tactic>>)
    ensures match TextOf(lines, intervals)
      case None => r == None
      case Some(texts) =>
        && r.Some? && |r.value| == |intervals| && Texts(r.value) == texts
        && (forall i :: 0 <= i < |intervals| ==>
             r.value[i].goalsBefore == intervals[i].goalsBefore && r.value[i].goalsAfter == intervals[i].goalsAfter)
    ensures r.None? <==>
      exists i :: 0 <= i < |intervals| && Snippet(lines, intervals[i].start, intervals[i].finish).None?
    ensures r.Some? ==> forall i :: 0 <= i < |intervals| ==>
      Snippet(lines, intervals[i].start, intervals[i].finish) == Some(r.value[i].text)
  {
    hide Snippet;
    var results: seq<Tactic> := [];
    assert intervals[0..] == intervals;
    assert forall rest: seq<string> :: Texts([]) + rest == rest;
    for i := 0 to |intervals|
      invariant |results| == i
      invariant forall j :: 0 <= j < i ==>
        results[j].goalsBefore == intervals[j].goalsBefore && results[j].goalsAfter == intervals[j].goalsAfter
      invariant TextOf(lines, intervals) ==
        match TextOf(lines, intervals[i..])
        case None => None
        case Some(rest) => Some(Texts(results) + rest)
    {
      var iv := intervals[i];
      var snippet := ExtractSnippet(lines, iv.start, iv.finish);
      assert intervals[i..][0] == iv && intervals[i..][1..] == intervals[i + 1..];
      if snippet.None? {
        TextOfMeans(lines, intervals);
        return None;
      }
      ghost var before := Texts(results);
      results := results + [Tactic(iv.goalsBefore, iv.goalsAfter, snippet.value)];
      assert Texts(results) == before + [snippet.value];
      assert forall rest: seq<string> :: before + ([snippet.value] + rest) == Texts(results) + rest;
    }
    TextOfMeans(lines, intervals);
    return Some(results);
  }
}
