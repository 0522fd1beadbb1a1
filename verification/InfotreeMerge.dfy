/** Pieces that are not closed tactics are merged with what follows, and the goals are chained (infotree.py:
    merge_intervals). */
module InfotreeMerge {
  import opened SourceText
  import opened InfotreeIntervals

  /** The string tests that look inside a tactic after its comments are removed. */
  datatype Tests = Tests(isBy: string -> bool, isCalc: string -> bool, isWrapper: string -> bool,
                         endsWithBy: string -> bool)

  // ---------------------------------------------------------------- when a piece is closed

  function Count(s: string, c: char): nat {
    if s == "" then 0 else (if s[0] == c then 1 else 0) + Count(s[1..], c)
  }

  predicate IsBalanced(s: string) {
    && Count(s, '[') == Count(s, ']')
    && Count(s, '(') == Count(s, ')')
    && Count(s, '\U{27E8}') == Count(s, '\U{27E9}')
  }

  /** A piece that may stand alone. */
  predicate Closed(tests: Tests, s: string) {
    IsBalanced(s) && !tests.isBy(s) && !tests.isCalc(s) && !tests.isWrapper(s)
  }

  lemma {:induction false} CountIs(s: string, c: char)
    ensures Count(s, c) == multiset(s)[c]
  {
    if s == "" {
    } else {
      CountIs(s[1..], c);
      assert s == [s[0]] + s[1..];
    }
  }

  /** Closed: as many opening as closing brackets of each kind, and no lone keyword. */
  lemma ClosedMeans(tests: Tests, s: string)
    ensures Closed(tests, s) <==>
      && multiset(s)['['] == multiset(s)[']'] && multiset(s)['('] == multiset(s)[')']
      && multiset(s)['\U{27E8}'] == multiset(s)['\U{27E9}']
      && !tests.isBy(s) && !tests.isCalc(s) && !tests.isWrapper(s)
  {
    CountIs(s, '[');
    CountIs(s, ']');
    CountIs(s, '(');
    CountIs(s, ')');
    CountIs(s, '\U{27E8}');
    CountIs(s, '\U{27E9}');
    hide Count;
  }

  // ---------------------------------------------------------------- greedy grouping

  function Flatten<T>(groups: seq<seq<T>>): seq<T> {
    if groups == [] then [] else groups[0] + Flatten(groups[1..])
  }

  lemma {:induction false} FlattenSnoc<T>(groups: seq<seq<T>>, g: seq<T>)
    ensures Flatten(groups + [g]) == Flatten(groups) + g
  {
    if groups == [] {
      assert groups + [g] == [g];
      assert [g][1..] == [];
    } else {
      FlattenSnoc(groups[1..], g);
      assert (groups + [g])[1..] == groups[1..] + [g];
    }
  }

  /** No proper non-empty prefix of the group is closed. */
  ghost predicate Minimal(tests: Tests, g: seq<string>) {
    g != [] && forall j :: 0 < j < |g| ==> !Closed(tests, Concat(g[..j]))
  }

  /** A grouping of the pieces in which every group but the last closes, each as early as it can. */
  ghost predicate Greedy(tests: Tests, groups: seq<seq<string>>) {
    && (forall i :: 0 <= i < |groups| ==> Minimal(tests, groups[i]))
    && (forall i :: 0 <= i < |groups| - 1 ==> Closed(tests, Concat(groups[i])))
  }

  /** There is only one such grouping of a list of pieces. */
  lemma {:induction false} GreedyIsUnique(tests: Tests, a: seq<seq<string>>, b: seq<seq<string>>)
    requires Greedy(tests, a) && Greedy(tests, b) && Flatten(a) == Flatten(b)
    ensures a == b
  {
    NotEmpty(tests, a);
    NotEmpty(tests, b);
    if a == [] || b == [] {
    } else {
      HeadNotShorter(tests, a, b);
      HeadNotShorter(tests, b, a);
      assert a[0] == Flatten(a)[..|a[0]|] == Flatten(b)[..|b[0]|] == b[0];
      assert Flatten(a[1..]) == Flatten(a)[|a[0]|..] == Flatten(b[1..]);
      GreedyIsUnique(tests, a[1..], b[1..]);
    }
  }

  lemma NotEmpty(tests: Tests, groups: seq<seq<string>>)
    requires Greedy(tests, groups)
    ensures groups != [] ==> Flatten(groups) != []
  {
    assert groups != [] ==> Minimal(tests, groups[0]);
  }

  lemma HeadNotShorter(tests: Tests, a: seq<seq<string>>, b: seq<seq<string>>)
    requires a != [] && b != [] && Flatten(a) == Flatten(b)
    requires Greedy(tests, a) && Greedy(tests, b)
    ensures |a[0]| >= |b[0]|
  {
    var j := |a[0]|;
    assert Flatten(a)[..j] == a[0] && Flatten(b)[..|b[0]|] == b[0];
    assert j <= |b[0]| ==> Flatten(b)[..j] == b[0][..j];
    assert |a| == 1 ==> Flatten(a[1..]) == [] && Flatten(a) == a[0];
    assert Minimal(tests, a[0]) && Minimal(tests, b[0]);
  }

  function Joined(groups: seq<seq<string>>): (r: seq<string>)
    ensures |r| == |groups|
    ensures forall i :: 0 <= i < |groups| ==> r[i] == Concat(groups[i])
  {
    seq(|groups|, i requires 0 <= i < |groups| => Concat(groups[i]))
  }

  lemma {:induction false} JoinedText(groups: seq<seq<string>>)
    ensures Concat(Joined(groups)) == Concat(Flatten(groups))
  {
    if groups == [] {
    } else {
      JoinedText(groups[1..]);
      ConcatAppend(groups[0], Flatten(groups[1..]));
      assert Joined(groups)[1..] == Joined(groups[1..]);
    }
  }

  /** What the first loop of merge_intervals yields for the groups of `tactics`. */
  ghost predicate Merged(tactics: seq<Tactic>, groups: seq<seq<string>>, r: seq<Tactic>, upto: nat)
    requires upto <= |tactics|
  {
    && |r| == |groups|
    && Flatten(groups) == Texts(tactics)[..upto]
    && Texts(r) == Joined(groups)
    && (forall i :: 0 <= i < |r| ==> GroupGoals(tactics, groups, r[i], i))
  }

  /** A merged tactic starts from the goals of its first piece and ends with those of its last. */
  ghost predicate GroupGoals(tactics: seq<Tactic>, groups: seq<seq<string>>, t: Tactic, i: nat)
    requires i < |groups|
  {
    var from, to := |Flatten(groups[..i])|, |Flatten(groups[..i + 1])|;
    0 <= from < to <= |tactics| && t.goalsBefore == tactics[from].goalsBefore
        && t.goalsAfter == tactics[to - 1].goalsAfter
  }

  /** Pieces from..to become the tactic t: of the joined texts up to each of them, exactly the last is closed, unless
      there are no more pieces; t has the joined text, the goals the first piece starts with and those the last piece
      ends with. */
  ghost predicate IsGroup(tests: Tests, tactics: seq<Tactic>, from: nat, to: nat, t: Tactic) {
    && from < to <= |tactics|
    && t == Tactic(tactics[from].goalsBefore, tactics[to - 1].goalsAfter, Concat(Texts(tactics)[from..to]))
    && forall j :: from < j <= to && j < |tactics| ==>
         var s := Concat(Texts(tactics)[from..j]);
         (j == to <==>
           && multiset(s)['['] == multiset(s)[']'] && multiset(s)['('] == multiset(s)[')']
           && multiset(s)['\U{27E8}'] == multiset(s)['\U{27E9}']
           && !tests.isBy(s) && !tests.isCalc(s) && !tests.isWrapper(s))
  }

  lemma GroupEnds(tests: Tests, tactics: seq<Tactic>, from: nat, to: nat)
    requires from < to <= |tactics| && Minimal(tests, Texts(tactics)[from..to])
    requires to < |tactics| ==> Closed(tests, Concat(Texts(tactics)[from..to]))
    ensures IsGroup(tests, tactics, from, to,
        Tactic(tactics[from].goalsBefore, tactics[to - 1].goalsAfter, Concat(Texts(tactics)[from..to])))
  {
    var texts := Texts(tactics);
    hide Concat, Texts, Closed;
    forall j | from < j <= to && j < |tactics| ensures j == to <==> Closed(tests, Concat(texts[from..j])) {
      assert texts[from..to][..j - from] == texts[from..j];
    }
    forall s ensures Closed(tests, s) <==>
      && multiset(s)['['] == multiset(s)[']'] && multiset(s)['('] == multiset(s)[')']
      && multiset(s)['\U{27E8}'] == multiset(s)['\U{27E9}']
      && !tests.isBy(s) && !tests.isCalc(s) && !tests.isWrapper(s)
    {
      ClosedMeans(tests, s);
    }
  }

  /** Take pieces from `i` on until they are closed or there are no more. */
  method TakeGroup(tests: Tests, tactics: seq<Tactic>, i: nat) returns (j: nat, accumulated: string)
    requires i < |tactics|
    ensures i < j <= |tactics|
    ensures accumulated == Concat(Texts(tactics)[i..j])
    ensures Minimal(tests, Texts(tactics)[i..j])
    ensures j < |tactics| ==> Closed(tests, accumulated)
    ensures IsGroup(tests, tactics, i, j, Tactic(tactics[i].goalsBefore, tactics[j - 1].goalsAfter, accumulated))
  {
    hide IsGroup;
    accumulated := tactics[i].text;
    j := i + 1;
    ghost var texts := Texts(tactics);
    assert texts[i..i + 1] == [texts[i]];
    while j < |tactics| && (!IsBalanced(accumulated) || tests.isBy(accumulated) || tests.isCalc(accumulated)
        || tests.isWrapper(accumulated))
      invariant i < j <= |tactics|
      invariant accumulated == Concat(texts[i..j])
      invariant Minimal(tests, texts[i..j])
    {
      ghost var g := texts[i..j];
      ConcatSnoc(g, texts[j]);
      assert texts[i..j + 1] == g + [texts[j]];
      forall k | 0 < k < |g| + 1 ensures !Closed(tests, Concat((g + [texts[j]])[..k])) {
        assert (g + [texts[j]])[..k] == g[..k];
        assert g[..|g|] == g;
      }
      accumulated := accumulated + tactics[j].text;
      j := j + 1;
    }
    GroupEnds(tests, tactics, i, j);
  }

  /** The first loop of merge_intervals: group k is the pieces ends[k]..ends[k + 1]. */
  method GroupTactics(tests: Tests, tactics: seq<Tactic>)
    returns (r: seq<Tactic>, ghost groups: seq<seq<string>>, ghost ends: seq<nat>)
    ensures Greedy(tests, groups) && Merged(tactics, groups, r, |tactics|)
    ensures |ends| == |r| + 1 && ends[0] == 0 && ends[|r|] == |tactics|
    ensures forall k :: 0 <= k < |r| ==> IsGroup(tests, tactics, ends[k], ends[k + 1], r[k])
  {
    hide IsGroup, Closed;
    r, groups, ends := [], [], [0];
    var i := 0;
    assert Texts(tactics)[..0] == [];
    while i < |tactics|
      invariant 0 <= i <= |tactics|
      invariant Greedy(tests, groups) && Merged(tactics, groups, r, i)
      invariant groups != [] && i < |tactics| ==> Closed(tests, Concat(groups[|groups| - 1]))
      invariant |ends| == |r| + 1 && ends[0] == 0 && ends[|r|] == i
      invariant forall k :: 0 <= k < |r| ==> IsGroup(tests, tactics, ends[k], ends[k + 1], r[k])
    {
      var j, accumulated := TakeGroup(tests, tactics, i);
      AddGroup(tactics, groups, r, i, j);
      groups := groups + [Texts(tactics)[i..j]];
      ends := ends + [j];
      r := r + [Tactic(tactics[i].goalsBefore, tactics[j - 1].goalsAfter, accumulated)];
      i := j;
    }
    assert Texts(tactics)[..|tactics|] == Texts(tactics);
  }

  lemma AddGroup(tactics: seq<Tactic>, groups: seq<seq<string>>, r: seq<Tactic>, i: nat, j: nat)
    requires i < j <= |tactics| && Merged(tactics, groups, r, i)
    ensures
      var g := Texts(tactics)[i..j];
      Merged(tactics, groups + [g], r + [Tactic(tactics[i].goalsBefore, tactics[j - 1].goalsAfter, Concat(g))], j)
  {
    var g := Texts(tactics)[i..j];
    var t := Tactic(tactics[i].goalsBefore, tactics[j - 1].goalsAfter, Concat(g));
    var gs := groups + [g];
    FlattenSnoc(groups, g);
    assert Texts(tactics)[..j] == Texts(tactics)[..i] + g;
    assert Texts(r + [t]) == Texts(r) + [t.text];
    assert Joined(gs) == Joined(groups) + [Concat(g)];
    forall k | 0 <= k < |gs| ensures GroupGoals(tactics, gs, (r + [t])[k], k) {
      if k < |groups| {
        assert GroupGoals(tactics, groups, r[k], k);
        assert gs[..k] == groups[..k] && gs[..k + 1] == groups[..k + 1];
      } else {
        assert gs[..k] == groups && gs[..k + 1] == gs;
      }
    }
  }

  // ---------------------------------------------------------------- moving a trailing `by`

  predicate AssignAt(s: string, i: int) {
    0 <= i < |s| - 1 && s[i] == ':' && s[i + 1] == '='
  }

  /** txt.rfind(":=") */
  function RFind(s: string): (r: int)
    ensures r == -1 || AssignAt(s, r)
    ensures forall i :: AssignAt(s, i) ==> i <= r
  {
    if s == "" then -1
    else
      var rest := RFind(s[1..]);
      assert forall i :: AssignAt(s, i) && i > 0 ==> AssignAt(s[1..], i - 1);
      if rest >= 0 then rest + 1 else if AssignAt(s, 0) then 0 else -1
  }

  /** Where a trailing `by` is cut off: right after the last ":=". */
  function ByCut(s: string): (cut: nat)
    ensures cut <= |s|
    ensures (exists i :: AssignAt(s, i)) ==> AssignAt(s, cut - 2) && forall i :: AssignAt(s, i) ==> i <= cut - 2
  {
    Min(RFind(s) + 2, |s|)
  }

  /** Every trailing `by` goes in front of the next piece, from the first piece to the last. */
  function MoveBys(tests: Tests, texts: seq<string>): (r: seq<string>)
    ensures |r| == |texts|
    decreases |texts|
  {
    if |texts| <= 1 then texts
    else if tests.endsWithBy(texts[0]) then
      var cut := ByCut(texts[0]);
      [texts[0][..cut]] + MoveBys(tests, [texts[0][cut..] + texts[1]] + texts[2..])
    else [texts[0]] + MoveBys(tests, texts[1..])
  }

  lemma {:induction false} MoveBysText(tests: Tests, texts: seq<string>)
    ensures Concat(MoveBys(tests, texts)) == Concat(texts)
    decreases |texts|
  {
    if |texts| <= 1 {
    } else {
      if tests.endsWithBy(texts[0]) {
        var cut := ByCut(texts[0]);
        var head, tail := texts[0][..cut], texts[0][cut..];
        var rest := [tail + texts[1]] + texts[2..];
        MoveBysText(tests, rest);
        hide MoveBys, ByCut;
        HeadText(head, MoveBys(tests, rest));
        HeadText(tail + texts[1], texts[2..]);
        HeadText(texts[1], texts[2..]);
        HeadText(texts[0], texts[1..]);
        assert texts[1..] == [texts[1]] + texts[2..] && texts == [texts[0]] + texts[1..];
        assert head + (tail + texts[1] + Concat(texts[2..])) == texts[0] + (texts[1] + Concat(texts[2..]));
      } else {
        MoveBysText(tests, texts[1..]);
        HeadText(texts[0], MoveBys(tests, texts[1..]));
      }
    }
  }

  lemma HeadText(s: string, rest: seq<string>)
    ensures Concat([s] + rest) == s + Concat(rest)
  {
    assert ([s] + rest)[1..] == rest;
  }

  /** What stays of a text and what goes on: nothing unless it ends with a `by`; then all that follows the last ":=",
      and without one all but the first character. */
  ghost predicate HandsBy(tests: Tests, text: string, kept: string, on: string) {
    && kept + on == text
    && if !tests.endsWithBy(text) then on == ""
       else if exists i :: 0 <= i < |text| - 1 && text[i] == ':' && text[i + 1] == '=' then
         && |kept| >= 2 && text[|kept| - 2] == ':' && text[|kept| - 1] == '='
         && forall i :: |kept| - 2 < i < |text| - 1 ==> !(text[i] == ':' && text[i + 1] == '=')
       else |kept| == Min(1, |text|)
  }

  lemma HandsByCut(tests: Tests, text: string)
    ensures
      var cut := if tests.endsWithBy(text) then ByCut(text) else |text|;
      HandsBy(tests, text, text[..cut], text[cut..])
  {
    hide RFind;
    if i :| 0 <= i < |text| - 1 && text[i] == ':' && text[i + 1] == '=' {
      assert AssignAt(text, i);
      forall j | ByCut(text) - 2 < j < |text| - 1 ensures !(text[j] == ':' && text[j + 1] == '=') {
        assert AssignAt(text, j) ==> j <= ByCut(text) - 2;
      }
    }
  }

  /** Every piece is handed what the one before it does not keep; the last keeps all. */
  /** Handed on from piece to piece. */
  ghost predicate ByHandedOn(tests: Tests, texts: seq<string>, r: seq<string>, carried: seq<string>) {
    && |carried| == |texts| == |r| && (texts != [] ==> carried[0] == "")
    && (forall k :: 0 <= k < |texts| - 1 ==> HandsBy(tests, carried[k] + texts[k], r[k], carried[k + 1]))
    && (texts != [] ==> r[|texts| - 1] == carried[|texts| - 1] + texts[|texts| - 1])
  }

  lemma HandsFirst(tests: Tests, texts: seq<string>, rest: seq<string>, r: seq<string>, more: seq<string>, kept: string,
                   on: string)
    requires |texts| >= 2 && rest == [on + texts[1]] + texts[2..] && HandsBy(tests, texts[0], kept, on)
    requires ByHandedOn(tests, rest, r, more)
    ensures ByHandedOn(tests, texts, [kept] + r, ["", on] + more[1..])
  {
    hide HandsBy;
    var carried, all := ["", on] + more[1..], [kept] + r;
    assert "" + texts[0] == texts[0] && more[0] + rest[0] == on + texts[1];
    forall k | 0 < k < |texts| ensures carried[k] + texts[k] == more[k - 1] + rest[k - 1] && all[k] == r[k - 1] {
      assert k > 1 ==> carried[k] == more[k - 1] && texts[k] == rest[k - 1];
    }
  }

  /** Every piece is handed what the one before it does not keep; the last keeps all. */
  lemma {:induction false} MoveBysMeans(tests: Tests, texts: seq<string>) returns (carried: seq<string>)
    ensures ByHandedOn(tests, texts, MoveBys(tests, texts), carried)
    decreases |texts|
  {
    hide HandsBy, ByCut;
    if |texts| <= 1 {
      carried := if texts == [] then [] else [""];
      assert texts != [] ==> "" + texts[0] == texts[0];
    } else {
      hide ByHandedOn;
      var text := texts[0];
      HandsByCut(tests, text);
      var cut := if tests.endsWithBy(text) then ByCut(text) else |text|;
      var rest := [text[cut..] + texts[1]] + texts[2..];
      if !tests.endsWithBy(text) {
        assert text[cut..] == "" && "" + texts[1] == texts[1] && text[..cut] == text;
        assert rest == texts[1..];
      }
      var more := MoveBysMeans(tests, rest);
      HandsFirst(tests, texts, rest, MoveBys(tests, rest), more, text[..cut], text[cut..]);
      carried := ["", text[cut..]] + more[1..];
    }
  }

  method TransferBys(tests: Tests, tactics: seq<Tactic>) returns (r: seq<Tactic>, ghost carried: seq<string>)
    ensures |r| == |tactics| && ByHandedOn(tests, Texts(tactics), Texts(r), carried)
    ensures Texts(r) == MoveBys(tests, Texts(tactics))
    ensures forall i :: 0 <= i < |r| ==>
        r[i].goalsBefore == tactics[i].goalsBefore && r[i].goalsAfter == tactics[i].goalsAfter
  {
    hide MoveBys, ByCut, MovedSoFar, Texts, ByHandedOn;
    carried := MoveBysMeans(tests, Texts(tactics));
    r := tactics;
    var k := 0;
    MovedNothing(tests, Texts(tactics));
    while k < |r| - 1
      invariant 0 <= k <= |r| == |tactics|
      invariant MovedSoFar(tests, Texts(tactics), Texts(r), k)
      invariant forall i :: 0 <= i < |r| ==>
          r[i].goalsBefore == tactics[i].goalsBefore && r[i].goalsAfter == tactics[i].goalsAfter
    {
      MoveOne(tests, Texts(tactics), Texts(r), k);
      r := MoveByAt(tests, r, k);
      k := k + 1;
    }
    MovedDone(tests, Texts(tactics), Texts(r), k);
  }

  lemma MovedNothing(tests: Tests, texts: seq<string>)
    ensures MovedSoFar(tests, texts, texts, 0)
  {
    assert texts[0..] == texts && [] + MoveBys(tests, texts) == MoveBys(tests, texts);
  }

  lemma MovedDone(tests: Tests, given: seq<string>, texts: seq<string>, k: nat)
    requires |texts| - 1 <= k <= |texts| && MovedSoFar(tests, given, texts, k)
    ensures texts == MoveBys(tests, given)
  {
    assert texts[..k] + texts[k..] == texts;
  }

  method MoveByAt(tests: Tests, tactics: seq<Tactic>, k: nat) returns (r: seq<Tactic>)
    requires k + 1 < |tactics|
    ensures |r| == |tactics|
    ensures var texts, cut := Texts(tactics), ByCut(Texts(tactics)[k]);
      Texts(r) == if tests.endsWithBy(texts[k])
        then texts[k := texts[k][..cut]][k + 1 := texts[k][cut..] + texts[k + 1]] else texts
    ensures forall i :: 0 <= i < |r| ==>
        r[i].goalsBefore == tactics[i].goalsBefore && r[i].goalsAfter == tactics[i].goalsAfter
  {
    hide ByCut;
    r := tactics;
    if tests.endsWithBy(r[k].text) {
      var txt := r[k].text;
      var cut := ByCut(txt);
      TextsAt(r, k, txt[..cut]);
      r := r[k := r[k].(text := txt[..cut])];
      TextsAt(r, k + 1, txt[cut..] + r[k + 1].text);
      r := r[k + 1 := r[k + 1].(text := txt[cut..] + r[k + 1].text)];
    }
  }

  ghost predicate MovedSoFar(tests: Tests, given: seq<string>, texts: seq<string>, k: nat)
    requires k <= |texts|
  {
    texts[..k] + MoveBys(tests, texts[k..]) == MoveBys(tests, given)
  }

  lemma MoveOne(tests: Tests, given: seq<string>, texts: seq<string>, k: nat)
    requires k + 1 < |texts| && MovedSoFar(tests, given, texts, k)
    ensures
      var cut := ByCut(texts[k]);
      var moved := texts[k := texts[k][..cut]][k + 1 := texts[k][cut..] + texts[k + 1]];
      MovedSoFar(tests, given, if tests.endsWithBy(texts[k]) then moved else texts, k + 1)
  {
    hide ByCut;
    var cut, rest := ByCut(texts[k]), texts[k..];
    if tests.endsWithBy(texts[k]) {
      var next := texts[k := texts[k][..cut]][k + 1 := texts[k][cut..] + texts[k + 1]];
      var more := MoveBys(tests, next[k + 1..]);
      assert next[k + 1..] == [rest[0][cut..] + rest[1]] + rest[2..];
      assert next[..k + 1] == texts[..k] + [rest[0][..cut]];
      assert texts[..k] + ([rest[0][..cut]] + more) == texts[..k] + [rest[0][..cut]] + more;
    } else {
      assert texts[k + 1..] == rest[1..];
      assert texts[..k + 1] == texts[..k] + [rest[0]];
      var more := MoveBys(tests, rest[1..]);
      assert texts[..k] + ([rest[0]] + more) == texts[..k] + [rest[0]] + more;
    }
  }

  // ---------------------------------------------------------------- chaining the goals

  function GoalsBefore(ts: seq<Tactic>): (r: seq<seq<string>>)
    ensures |r| == |ts|
  {
    seq(|ts|, i requires 0 <= i < |ts| => ts[i].goalsBefore)
  }

  /** The first non-empty goal list, or the empty one. */
  function FirstGoals(goals: seq<seq<string>>): seq<string> {
    if goals == [] then [] else if goals[0] != [] then goals[0] else FirstGoals(goals[1..])
  }

  /** The first non-empty goal list from i on, if there is one. */
  lemma FirstGoalsMean(tactics: seq<Tactic>, i: nat, k: nat)
    requires i <= k < |tactics| && forall m :: i <= m < k ==> tactics[m].goalsBefore == []
    ensures tactics[k].goalsBefore != [] || k == |tactics| - 1 ==>
      FirstGoals(GoalsBefore(tactics)[i..]) == tactics[k].goalsBefore
    decreases k - i
  {
    var goals := GoalsBefore(tactics)[i..];
    assert goals[0] == tactics[i].goalsBefore && goals[1..] == GoalsBefore(tactics)[i + 1..];
    if i < k {
      FirstGoalsMean(tactics, i + 1, k);
    }
  }

  method FirstGoalsFrom(tactics: seq<Tactic>, i: nat) returns (goals: seq<string>)
    requires i <= |tactics|
    ensures goals == FirstGoals(GoalsBefore(tactics)[i..])
  {
    goals := [];
    ghost var all := GoalsBefore(tactics);
    for j := i to |tactics|
      invariant FirstGoals(all[i..]) == FirstGoals(all[j..])
    {
      assert all[j..][1..] == all[j + 1..];
      if tactics[j].goalsBefore != [] {
        return tactics[j].goalsBefore;
      }
    }
  }

  method FillStarts(tactics: seq<Tactic>) returns (r: seq<Tactic>)
    ensures |r| == |tactics|
    ensures forall k :: 0 <= k < |r| ==> r[k].text == tactics[k].text && r[k].goalsAfter == tactics[k].goalsAfter
    ensures forall i :: 0 <= i < |r| - 1 ==> r[i].goalsBefore == FirstGoals(GoalsBefore(tactics)[i..])
    ensures r != [] ==> r[|r| - 1] == tactics[|r| - 1]
  {
    hide FirstGoals;
    r := tactics;
    var i := 0;
    while i < |r| - 1
      invariant 0 <= i && |r| == |tactics|
      invariant forall k :: 0 <= k < |r| ==> r[k].text == tactics[k].text && r[k].goalsAfter == tactics[k].goalsAfter
      invariant forall k :: 0 <= k < i && k < |r| - 1 ==> r[k].goalsBefore == FirstGoals(GoalsBefore(tactics)[k..])
      invariant forall k :: i <= k < |r| ==> r[k] == tactics[k]
      invariant r != [] ==> r[|r| - 1] == tactics[|r| - 1]
    {
      var goals := FirstGoalsFrom(r, i);
      assert GoalsBefore(r)[i..] == GoalsBefore(tactics)[i..];
      r := r[i := r[i].(goalsBefore := goals)];
      i := i + 1;
    }
  }

  method LinkEnds(tactics: seq<Tactic>, ghost given: seq<Tactic>) returns (r: seq<Tactic>)
    requires |tactics| == |given|
    requires forall i :: 0 <= i < |tactics| - 1 ==> tactics[i].goalsBefore == FirstGoals(GoalsBefore(given)[i..])
    requires tactics != [] ==> tactics[|tactics| - 1] == given[|given| - 1]
    ensures |r| == |tactics|
    ensures forall k :: 0 <= k < |r| ==> r[k].text == tactics[k].text && r[k].goalsBefore == tactics[k].goalsBefore
    ensures forall i :: 0 <= i < |r| - 1 ==> r[i].goalsAfter == r[i + 1].goalsBefore
    ensures r != [] ==> r[|r| - 1] == tactics[|r| - 1]
  {
    hide FirstGoals;
    r := tactics;
    var i := 0;
    while i < |r| - 1
      invariant 0 <= i && |r| == |tactics|
      invariant forall k :: 0 <= k < |r| ==> r[k].text == tactics[k].text && r[k].goalsBefore == tactics[k].goalsBefore
      invariant forall k :: 0 <= k < i && k < |r| - 1 ==> r[k].goalsAfter == r[k + 1].goalsBefore
      invariant r != [] ==> r[|r| - 1] == tactics[|r| - 1]
    {
      var goals := FirstGoalsFrom(r, i + 1);
      assert GoalsBefore(r) == GoalsBefore(tactics);
      NextGoals(given, tactics, i + 1);
      r := r[i := r[i].(goalsAfter := goals)];
      i := i + 1;
    }
  }

  /** The last two loops of merge_intervals: every tactic but the last starts from the first
      goals still open at it, and ends where its successor starts. */
  method ChainGoals(tactics: seq<Tactic>) returns (r: seq<Tactic>)
    ensures |r| == |tactics| && Texts(r) == Texts(tactics)
    ensures forall i :: 0 <= i < |r| - 1 ==> r[i].goalsBefore == FirstGoals(GoalsBefore(tactics)[i..])
    ensures forall i, k ::
      0 <= i <= k < |r| && i < |r| - 1 && (forall m :: i <= m < k ==> tactics[m].goalsBefore == [])
        && (tactics[k].goalsBefore != [] || k == |r| - 1) ==>
        r[i].goalsBefore == tactics[k].goalsBefore
    ensures forall i :: 0 <= i < |r| - 1 ==> r[i].goalsAfter == r[i + 1].goalsBefore
    ensures r != [] ==> r[|r| - 1] == tactics[|r| - 1]
  {
    r := FillStarts(tactics);
    r := LinkEnds(r, tactics);
    forall i, k | 0 <= i <= k < |r| && i < |r| - 1 && (forall m :: i <= m < k ==> tactics[m].goalsBefore == [])
        && (tactics[k].goalsBefore != [] || k == |r| - 1)
      ensures r[i].goalsBefore == tactics[k].goalsBefore
    {
      FirstGoalsMean(tactics, i, k);
    }
  }

  /** Once the starts are filled in, the first goals open at a tactic are its own. */
  lemma NextGoals(tactics: seq<Tactic>, r: seq<Tactic>, i: nat)
    requires |r| == |tactics| && i < |r|
    requires forall k :: 0 <= k < |r| - 1 ==> r[k].goalsBefore == FirstGoals(GoalsBefore(tactics)[k..])
    requires r[|r| - 1].goalsBefore == tactics[|r| - 1].goalsBefore
    ensures FirstGoals(GoalsBefore(r)[i..]) == r[i].goalsBefore
    decreases |r| - i
  {
    var all := GoalsBefore(r);
    assert all[i..][1..] == all[i + 1..];
    if r[i].goalsBefore != [] || i + 1 == |r| {
    } else {
      NextGoals(tactics, r, i + 1);
      var given := GoalsBefore(tactics);
      assert given[i..][1..] == given[i + 1..];
      assert given[i + 1..][1..] == given[i + 2..];
      if i + 1 == |r| - 1 {
        assert FirstGoals(given[i + 2..]) == [];
      }
    }
  }

  /** merge_intervals: the text is kept, the groups are the greedy ones, the goals are chained. */
  method MergeIntervals(tests: Tests, tactics: seq<Tactic>)
    returns (r: seq<Tactic>, ghost groups: seq<seq<string>>, ghost grouped: seq<Tactic>)
    ensures Greedy(tests, groups) && Merged(tactics, groups, grouped, |tactics|)
    ensures |r| == |groups| && Texts(r) == MoveBys(tests, Joined(groups))
    ensures Concat(Texts(r)) == Concat(Texts(tactics))
    ensures forall i :: 0 <= i < |r| - 1 ==> r[i].goalsAfter == r[i + 1].goalsBefore
    ensures forall i :: 0 <= i < |r| - 1 ==> r[i].goalsBefore == FirstGoals(GoalsBefore(grouped)[i..])
    ensures r != [] ==>
      r[|r| - 1].goalsBefore == grouped[|r| - 1].goalsBefore && r[|r| - 1].goalsAfter == grouped[|r| - 1].goalsAfter
  {
    hide ByHandedOn, IsGroup, FirstGoals, MoveBys, Greedy, Concat;
    var merged, gs, _ := GroupTactics(tests, tactics);
    groups, grouped := gs, merged;
    var moved, _ := TransferBys(tests, merged);
    assert GoalsBefore(moved) == GoalsBefore(grouped);
    r := ChainGoals(moved);
    MoveBysText(tests, Joined(groups));
    JoinedText(groups);
    assert Texts(tactics)[..|tactics|] == Texts(tactics);
  }
}
