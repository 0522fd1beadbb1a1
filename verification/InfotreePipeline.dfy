/** The whole extraction (infotree.py: extract_data): contract the forest, cut the source at the kept nodes, move
    trailing text forward, merge what is not closed. */
module InfotreePipeline {
  import opened Wrappers
  import opened InfotreeForest
  import opened InfotreeContraction
  import opened SourceText
  import opened InfotreeIntervals
  import opened InfotreeComments
  import opened InfotreeMerge

  /** The intervals of the nodes numbered lo..hi, in id order (the order of the node dictionary). */
  function IntervalsOf(nodes: map<int, Node>, lo: int, hi: int): (r: seq<Interval>)
    ensures forall iv :: iv in r <==> exists id :: lo <= id < hi && id in nodes && iv == OfNode(id, nodes[id])
    decreases hi - lo
  {
    if lo >= hi then []
    else
      var rest := IntervalsOf(nodes, lo + 1, hi);
      if lo in nodes then [OfNode(lo, nodes[lo])] + rest else rest
  }

  /** One interval per node with a number in the range, in the order of the numbers. */
  lemma {:induction false} IntervalsMean(nodes: map<int, Node>, lo: int, hi: int) returns (ids: seq<int>)
    ensures forall id :: id in ids <==> lo <= id < hi && id in nodes
    ensures forall i, j :: 0 <= i < j < |ids| ==> ids[i] < ids[j]
    ensures |IntervalsOf(nodes, lo, hi)| == |ids|
    ensures forall k :: 0 <= k < |ids| ==>
      && ids[k] in nodes
      && var n := nodes[ids[k]];
         IntervalsOf(nodes, lo, hi)[k] == Interval(ids[k], n.pp, n.start, n.finish, n.goalsBefore, n.goalsAfter)
    decreases hi - lo
  {
    if lo >= hi {
      ids := [];
    } else {
      ids := IntervalsMean(nodes, lo + 1, hi);
      if lo in nodes {
        assert forall k :: 0 <= k < |ids| ==> ids[k] in ids;
        ids := [lo] + ids;
      }
    }
  }

  method GetIntervals(nodes: map<int, Node>, lo: int, hi: int) returns (intervals: seq<Interval>, ghost ids: seq<int>)
    ensures intervals == IntervalsOf(nodes, lo, hi) && |ids| == |intervals|
    ensures forall id :: id in ids <==> lo <= id < hi && id in nodes
    ensures forall i, j :: 0 <= i < j < |ids| ==> ids[i] < ids[j]
    ensures forall k :: 0 <= k < |ids| ==>
      && ids[k] in nodes
      && var n := nodes[ids[k]];
         intervals[k] == Interval(ids[k], n.pp, n.start, n.finish, n.goalsBefore, n.goalsAfter)
  {
    ids := IntervalsMean(nodes, lo, hi);
    intervals := [];
    assert forall rest: seq<Interval> :: [] + rest == rest;
    var id := lo;
    while id < hi
      invariant id == lo || lo <= id <= hi
      invariant intervals + IntervalsOf(nodes, id, hi) == IntervalsOf(nodes, lo, hi)
    {
      if id in nodes {
        assert forall rest: seq<Interval> ::
            intervals + ([OfNode(id, nodes[id])] + rest) == (intervals + [OfNode(id, nodes[id])]) + rest;
        intervals := intervals + [OfNode(id, nodes[id])];
      }
      id := id + 1;
    }
  }

  /** Every interval lies inside the source and starts no later than it ends. */
  ghost predicate IntervalsValid(ivs: seq<Interval>, lines: seq<string>) {
    forall iv :: iv in ivs ==> Valid(lines, iv.start) && Valid(lines, iv.finish) && NotAfter(iv.start, iv.finish)
  }

  /** `lo` is the earliest start, `hi` the furthest finish. */
  ghost predicate Spans(ivs: seq<Interval>, lo: Pos, hi: Pos) {
    && (exists iv :: iv in ivs && iv.start == lo)
    && (exists iv :: iv in ivs && iv.finish == hi)
    && (forall iv :: iv in ivs ==> NotAfter(lo, iv.start) && NotAfter(iv.finish, hi))
  }

  lemma NotAfterTransitive(p: Pos, q: Pos, r: Pos)
    requires NotAfter(p, q) && NotAfter(q, r)
    ensures NotAfter(p, r)
  {}

  /** What adjust_intervals and retrieve_tactics cut out of the source. */
  lemma CutText(ivs: seq<Interval>, lines: seq<string>)
    returns (lo: Pos, hi: Pos)
    requires ivs != [] && IntervalsValid(ivs, lines)
    ensures Spans(ivs, lo, hi) && Valid(lines, lo) && Valid(lines, hi)
    ensures Offset(lines, lo) <= Offset(lines, hi) <= |Concat(lines)|
    ensures
      var sorted := SortByStart(ivs);
      var r := TextOf(lines, Trim(sorted, MaxFinish(sorted, Pos(-1, -1))));
      r.Some? && Concat(r.value) == Concat(lines)[Offset(lines, lo)..Offset(lines, hi)]
  {
    hide Trim, TextOf, Offset, Concat, SortByStart;
    var sorted := SortByStart(ivs);
    SortIsSorted(ivs);
    lo, hi := sorted[0].start, MaxFinish(sorted, Pos(-1, -1));
    assert sorted[0] in sorted && sorted[|sorted| - 1] in sorted;
    assert NotAfter(sorted[0].finish, hi);
    forall iv | iv in ivs ensures NotAfter(lo, iv.start) && NotAfter(iv.finish, hi) {
      assert iv in sorted;
    }
    NotAfterTransitive(sorted[|sorted| - 1].start, sorted[|sorted| - 1].finish, hi);
    TrimText(lines, sorted, hi);
  }

  /** adjust_intervals. */
  function Adjusted(ivs: seq<Interval>): seq<Interval> {
    Trim(SortByStart(ivs), MaxFinish(SortByStart(ivs), Pos(-1, -1)))
  }

  /** What a caller can read off the intervals before any text is cut: some interval starts where the source starts and
      some interval ends where it ends; without intervals, the source is empty. */
  ghost predicate CoversFile(ivs: seq<Interval>, source: string)
    requires IntervalsValid(ivs, SourceLines(source))
  {
    if ivs == [] then source == ""
    else
      && (exists iv :: iv in ivs && Offset(SourceLines(source), iv.start) == 0)
      && (exists iv :: iv in ivs && Offset(SourceLines(source), iv.finish) == |source|)
  }

  /** The two ends of the cut are offset 0 and the end of the source exactly when some interval reaches each. */
  lemma EndsReached(ivs: seq<Interval>, lines: seq<string>, lo: Pos, hi: Pos, end: nat)
    requires IntervalsValid(ivs, lines) && Spans(ivs, lo, hi) && Valid(lines, lo) && Valid(lines, hi)
    requires Offset(lines, hi) <= end
    ensures Offset(lines, lo) == 0 <==> exists iv :: iv in ivs && Offset(lines, iv.start) == 0
    ensures Offset(lines, hi) == end <==> exists iv :: iv in ivs && Offset(lines, iv.finish) == end
  {
    hide Offset, Valid;
    forall iv | iv in ivs ensures Offset(lines, lo) <= Offset(lines, iv.start)
        && Offset(lines, iv.finish) <= Offset(lines, hi) {
      OffsetMonotone(lines, lo, iv.start);
      OffsetMonotone(lines, iv.finish, hi);
    }
  }

  /** The documentation promises that the pieces cover the whole file. They do exactly then. */
  lemma WholeFile(ivs: seq<Interval>, source: string)
    requires IntervalsValid(ivs, SourceLines(source))
    ensures
      var r := TextOf(SourceLines(source), Adjusted(ivs));
      r.Some? && (Concat(r.value) == source <==> CoversFile(ivs, source))
  {
    hide Trim, TextOf, Offset, SortByStart, SourceLines, MaxFinish, Valid, Spans, IntervalsValid;
    var lines := SourceLines(source);
    LinesRejoin(source);
    if ivs == [] {
      EmptyCut(ivs, lines);
    } else {
      var lo, hi := CutText(ivs, lines);
      EndsReached(ivs, lines, lo, hi, |source|);
      WholeSlice(source, Offset(lines, lo), Offset(lines, hi));
    }
  }

  lemma WholeSlice(s: string, i: nat, j: nat)
    requires i <= j <= |s|
    ensures s[i..j] == s <==> i == 0 && j == |s|
  {
    assert |s[i..j]| == j - i;
    assert i == 0 && j == |s| ==> s[i..j] == s;
  }

  /** An input that misses text: one node over columns 1..3 of a source of five characters. Whatever the contraction
      yields for it, the cut text is not the source. */
  lemma MissesText(kept: map<int, Node>, parents: map<int, int>, edges: seq<Edge>)
    requires
      var items := [Item(Some(Node("bc", [], [], Pos(1, 1), Pos(1, 3), false)), [])];
      Finished(CallOf(items, 0, None, Flags(false, true)), kept, parents, edges, 1)
    ensures
      var ivs := IntervalsOf(map id | id in kept && !kept[id].synthetic :: kept[id], 0, 1);
      var lines := SourceLines("abcde");
      && ivs != [] && IntervalsValid(ivs, lines)
      && TextOf(lines, Adjusted(ivs)).Some? && Concat(TextOf(lines, Adjusted(ivs)).value) != "abcde"
  {
    var n := Node("bc", [], [], Pos(1, 1), Pos(1, 3), false);
    var items := [Item(Some(n), [])];
    OneNode(n, kept, parents, edges);
    var shown := map id | id in kept && !kept[id].synthetic :: kept[id];
    var ivs := IntervalsOf(shown, 0, 1);
    assert ivs == [OfNode(0, n)] + IntervalsOf(shown, 1, 1) == [OfNode(0, n)];
    SplitOneLine("abcde");
    var lines := SourceLines("abcde");
    assert lines == ["abcde"] && IntervalsValid(ivs, lines);
    assert Concat(lines[..0]) == "" && Offset(lines, Pos(1, 1)) == 1;
    hide Finished, SourceLines, Offset, TextOf, Trim;
    WholeFile(ivs, "abcde");
  }

  /** A forest of one node is kept as it is. */
  lemma OneNode(n: Node, kept: map<int, Node>, parents: map<int, int>, edges: seq<Edge>)
    requires Finished(CallOf([Item(Some(n), [])], 0, None, Flags(false, true)), kept, parents, edges, 1)
    ensures kept == map[0 := n]
  {
    var items := [Item(Some(n), [])];
    assert Size(items) == 1;
    assert NodeAt(items, 0, 0) == n;
    AncestryOrdered(items, 0);
    var x := CallOf(items, 0, None, Flags(false, true));
    assert x.raw == map[0 := n];
    assert Root(x, 0);
  }

  /** What the passes hand to one another: the tactics cut from the source, those after trailing text moved on
      (with what each was handed), the groups of the merge, and the merged tactics. */
  datatype Stages = Stages(cut: seq<Tactic>, moved: seq<Tactic>, carried: seq<string>, groups: seq<seq<string>>,
                           grouped: seq<Tactic>)

  /** Each pass did its own work on the output of the one before. */
  ghost predicate PassesOk(ivs: seq<Interval>, lines: seq<string>, tests: Tests, s: Stages, r: seq<Tactic>) {
    && TextOf(lines, Adjusted(ivs)) == Some(Texts(s.cut)) && |s.cut| == |Adjusted(ivs)|
    && (forall i :: 0 <= i < |s.cut| ==>
          s.cut[i].goalsBefore == Adjusted(ivs)[i].goalsBefore && s.cut[i].goalsAfter == Adjusted(ivs)[i].goalsAfter)
    && |s.moved| == |s.cut| == |s.carried| && (s.moved != [] ==> HandedOn(s.cut, s.moved, s.carried, |s.moved| - 1))
    && Greedy(tests, s.groups) && Merged(s.moved, s.groups, s.grouped, |s.moved|)
    && |r| == |s.groups| && Texts(r) == MoveBys(tests, Joined(s.groups))
  }

  /** extract_data: the tactics' texts join to the source between the earliest start and the furthest finish of the
      kept nodes, to the whole file exactly when the intervals reach its ends, and consecutive tactics share goals. */
  method ExtractData(infotree: seq<Item>, source: string, tests: Tests)
    returns (r: Option<seq<Tactic>>, ghost kept: map<int, Node>, ghost shown: map<int, Node>, ghost lo: Pos,
             ghost hi: Pos, ghost stages: Stages)
    ensures exists parents, edges ::
      Finished(CallOf(infotree, 0, None, Flags(false, true)), kept, parents, edges, Size(infotree))
    ensures shown == map id | id in kept && !kept[id].synthetic :: kept[id]
    ensures IntervalsOf(shown, 0, Size(infotree)) == [] ==> r == Some([])
    ensures
      var ivs, lines := IntervalsOf(shown, 0, Size(infotree)), SourceLines(source);
      IntervalsValid(ivs, lines) ==>
        && r.Some? && (Concat(Texts(r.value)) == source <==> CoversFile(ivs, source))
        && (ivs != [] ==>
              && Spans(ivs, lo, hi) && Valid(lines, lo) && Valid(lines, hi)
              && Offset(lines, lo) <= Offset(lines, hi) <= |source|
              && Concat(Texts(r.value)) == source[Offset(lines, lo)..Offset(lines, hi)])
    ensures
      var ivs, lines := IntervalsOf(shown, 0, Size(infotree)), SourceLines(source);
      if TextOf(lines, Adjusted(ivs)).None? then r == None else r.Some? && PassesOk(ivs, lines, tests, stages, r.value)
    ensures r.Some? ==> forall i :: 0 <= i < |r.value| - 1 ==> r.value[i].goalsAfter == r.value[i + 1].goalsBefore
  {
    hide Offset, Concat, Trim, TextOf, SortByStart, Finished, Greedy, Merged, SourceLines, MoveBys, Joined, HandedOn,
         IntervalsOf, MaxFinish, Spans, Valid, FirstGoals, IntervalsValid, CoversFile,
         StableByStart, CutAtNext, NotAfter, Snippet, Size, ByNodes, Reaches, Numbered, Ancestry;
    lo, hi := Pos(0, 0), Pos(0, 0);
    stages := Stages([], [], [], [], []);
    var nodes, edges, next, parents := ExtractNodesAndEdges(infotree, None, 0, Flags(false, true));
    kept := nodes;
    nodes := map id | id in nodes && !nodes[id].synthetic :: nodes[id];
    shown := nodes;
    var intervals, _ := GetIntervals(nodes, 0, next);
    var lines := SourceLines(source);
    LinesRejoin(source);
    if IntervalsValid(intervals, lines) {
      WholeFile(intervals, source);
      if intervals != [] {
        lo, hi := CutText(intervals, lines);
      }
    }
    ghost var ivs := intervals;
    var adjusted, _, _, _ := AdjustIntervals(intervals);
    EmptyCut(ivs, lines);
    var tactics := RetrieveTactics(adjusted, lines);
    if tactics.None? {
      return None, kept, shown, lo, hi, stages;
    }
    var moved, carried := TransferTrailing(tactics.value);
    var merged, groups, grouped := MergeIntervals(tests, moved);
    NoGroups(moved, groups, grouped);
    stages := Stages(tactics.value, moved, carried, groups, grouped);
    r := Some(merged);
  }

  lemma EmptyCut(ivs: seq<Interval>, lines: seq<string>)
    ensures ivs == [] ==> Trim(SortByStart(ivs), MaxFinish(SortByStart(ivs), Pos(-1, -1))) == []
    ensures TextOf(lines, []) == Some([])
  {}

  lemma NoGroups(tactics: seq<Tactic>, groups: seq<seq<string>>, r: seq<Tactic>)
    requires Merged(tactics, groups, r, |tactics|)
    ensures tactics == [] ==> groups == []
  {
    if groups != [] {
      assert GroupGoals(tactics, groups, r[0], 0);
    }
  }
}
