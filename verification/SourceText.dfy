/** Text the extraction cuts up: lines, positions, and slices of the source. */
module SourceText {
  import opened Wrappers
  import opened InfotreeForest

  function Concat(parts: seq<string>): string {
    if parts == [] then "" else parts[0] + Concat(parts[1..])
  }

  lemma {:induction false} ConcatAppend(a: seq<string>, b: seq<string>)
    ensures Concat(a + b) == Concat(a) + Concat(b)
  {
    if a == [] {
      assert a + b == b;
    } else {
      ConcatAppend(a[1..], b);
      assert (a + b)[1..] == a[1..] + b && (a + b)[0] == a[0];
    }
  }

  lemma ConcatSnoc(a: seq<string>, s: string)
    ensures Concat(a + [s]) == Concat(a) + s
  {
    ConcatAppend(a, [s]);
  }

  // ---------------------------------------------------------------- lines of the source

  /** source.split("\n") */
  function Split(s: string): (r: seq<string>)
    ensures |r| >= 1
  {
    if s == "" then [""]
    else if s[0] == '\n' then [""] + Split(s[1..])
    else var rest := Split(s[1..]); [[s[0]] + rest[0]] + rest[1..]
  }

  /** Every line but the last gets its newline back. */
  function WithNewlines(parts: seq<string>): (r: seq<string>)
    requires |parts| >= 1
    ensures |r| == |parts|
  {
    if |parts| == 1 then parts else [parts[0] + "\n"] + WithNewlines(parts[1..])
  }

  function SourceLines(source: string): seq<string> {
    WithNewlines(Split(source))
  }

  lemma {:induction false} SplitOneLine(s: string)
    requires '\n' !in s
    ensures Split(s) == [s]
  {
    if s == "" {
    } else {
      SplitOneLine(s[1..]);
      assert [s[0]] + s[1..] == s;
    }
  }

  lemma ConcatCons(head: string, rest: seq<string>)
    ensures Concat([head] + rest) == head + Concat(rest)
  {
    assert ([head] + rest)[1..] == rest && ([head] + rest)[0] == head;
  }

  lemma NewlinesCons(head: string, rest: seq<string>)
    requires |rest| >= 1
    ensures WithNewlines([head] + rest) == [head + "\n"] + WithNewlines(rest)
  {
    assert ([head] + rest)[1..] == rest && ([head] + rest)[0] == head;
  }

  lemma OneLine(s: string)
    ensures Concat(WithNewlines([s])) == s
  {
    ConcatOne(s);
  }

  lemma FirstLine(head: string, tail: seq<string>)
    requires |tail| >= 1
    ensures Concat(WithNewlines([head] + tail)) == head + ("\n" + Concat(WithNewlines(tail)))
  {
    hide Concat, WithNewlines;
    NewlinesCons(head, tail);
    ConcatCons(head + "\n", WithNewlines(tail));
  }

  lemma Associates(a: string, b: string, c: string)
    ensures a + b + c == a + (b + c)
  {}

  /** One more character in front of the first line. */
  lemma LineGrows(x: string, first: string, tail: seq<string>)
    ensures Concat(WithNewlines([x + first] + tail)) == x + Concat(WithNewlines([first] + tail))
  {
    hide Concat, WithNewlines;
    if tail == [] {
      OneLine(x + first);
      OneLine(first);
      assert [x + first] + tail == [x + first] && [first] + tail == [first];
    } else {
      FirstLine(x + first, tail);
      FirstLine(first, tail);
      Associates(x, first, "\n" + Concat(WithNewlines(tail)));
    }
  }

  lemma ConcatOne(s: string)
    ensures Concat([s]) == s
  {
    assert [s][1..] == [];
  }

  /** Cutting into lines loses nothing. */
  lemma {:induction false} LinesRejoin(s: string)
    ensures Concat(SourceLines(s)) == s
  {
    hide Concat, WithNewlines;
    if s == "" {
      OneEmptyLine();
    } else {
      LinesRejoin(s[1..]);
      var rest := Split(s[1..]);
      assert s == [s[0]] + s[1..];
      if s[0] == '\n' {
        FirstLineEnds(rest);
      } else {
        LineGrows([s[0]], rest[0], rest[1..]);
        assert rest == [rest[0]] + rest[1..];
      }
    }
  }

  /** Every line but the last ends in its newline and has no other; the last has none. */
  ghost predicate IsLines(lines: seq<string>) {
    && lines != []
    && (forall i :: 0 <= i < |lines| - 1 ==>
          && lines[i] != "" && lines[i][|lines[i]| - 1] == '\n'
          && forall k :: 0 <= k < |lines[i]| - 1 ==> lines[i][k] != '\n')
    && '\n' !in lines[|lines| - 1]
  }

  lemma {:induction false} SplitHasNone(s: string)
    ensures forall i :: 0 <= i < |Split(s)| ==> '\n' !in Split(s)[i]
    ensures |Split(s)| == 1 + multiset(s)['\n']
  {
    if s == "" {
    } else {
      SplitHasNone(s[1..]);
      assert s == [s[0]] + s[1..];
    }
  }

  lemma {:induction false} NewlinesAt(parts: seq<string>, i: nat)
    requires i < |parts|
    ensures WithNewlines(parts)[i] == if i == |parts| - 1 then parts[i] else parts[i] + "\n"
  {
    if i == 0 {
    } else {
      NewlinesAt(parts[1..], i - 1);
    }
  }

  /** The source is cut after every newline, and nowhere else. */
  lemma LinesEnd(source: string)
    ensures
      var lines := SourceLines(source);
      && |lines| == 1 + multiset(source)['\n']
      && (forall i :: 0 <= i < |lines| - 1 ==>
            && lines[i] != "" && lines[i][|lines[i]| - 1] == '\n'
            && forall k :: 0 <= k < |lines[i]| - 1 ==> lines[i][k] != '\n')
      && '\n' !in lines[|lines| - 1]
  {
    hide Split, WithNewlines;
    SplitHasNone(source);
    var parts, lines := Split(source), SourceLines(source);
    forall i | 0 <= i < |parts| ensures lines[i] == if i == |parts| - 1 then parts[i] else parts[i] + "\n" {
      NewlinesAt(parts, i);
    }
  }

  /** A text that starts with a line of either of two lists starts with the same line of both. */
  lemma FirstLineSame(a: string, restA: string, b: string, restB: string)
    requires a + restA == b + restB
    requires a != "" && a[|a| - 1] == '\n' && forall k :: 0 <= k < |a| - 1 ==> a[k] != '\n'
    requires b != "" && b[|b| - 1] == '\n' && forall k :: 0 <= k < |b| - 1 ==> b[k] != '\n'
    ensures a == b && restA == restB
  {
    var s := a + restA;
    assert s[|a| - 1] == '\n' && s[|b| - 1] == '\n';
    assert forall k :: 0 <= k < |a| ==> s[k] == a[k];
    assert forall k :: 0 <= k < |b| ==> s[k] == b[k];
    assert |a| == |b|;
    assert a == s[..|a|] && b == s[..|b|] && restA == s[|a|..] && restB == s[|b|..];
  }

  /** The lines of a text are the only ones that join to it and are cut so. */
  lemma {:induction false} LinesUnique(a: seq<string>, b: seq<string>)
    requires IsLines(a) && IsLines(b) && Concat(a) == Concat(b)
    ensures a == b
  {
    assert Concat(a) == a[0] + Concat(a[1..]) && Concat(b) == b[0] + Concat(b[1..]);
    if |a| == 1 || |b| == 1 {
      assert '\n' in Concat(a) <==> |a| > 1;
      assert '\n' in Concat(b) <==> |b| > 1;
      assert |a| == 1 && |b| == 1;
      assert Concat(a) == a[0] && Concat(b) == b[0];
    } else {
      FirstLineSame(a[0], Concat(a[1..]), b[0], Concat(b[1..]));
      LinesUnique(a[1..], b[1..]);
      assert a == [a[0]] + a[1..] && b == [b[0]] + b[1..];
    }
  }

  lemma LinesDetermined(source: string, lines: seq<string>)
    requires IsLines(lines)
    ensures Concat(lines) == source <==> lines == SourceLines(source)
  {
    hide SourceLines, Concat;
    LinesEnd(source);
    LinesRejoin(source);
    if Concat(lines) == source {
      LinesUnique(lines, SourceLines(source));
    }
  }

  lemma OneEmptyLine()
    ensures Concat(WithNewlines([""])) == ""
  {
    assert [""][1..] == [];
  }

  lemma FirstLineEnds(rest: seq<string>)
    requires |rest| >= 1
    ensures Concat(WithNewlines([""] + rest)) == "\n" + Concat(WithNewlines(rest))
  {
    hide Concat, WithNewlines;
    NewlinesCons("", rest);
    ConcatCons("" + "\n", WithNewlines(rest));
    assert "" + "\n" == "\n";
  }

  // ---------------------------------------------------------------- positions and offsets

  predicate Before(p: Pos, q: Pos) {
    p.line < q.line || (p.line == q.line && p.col < q.col)
  }

  predicate NotAfter(p: Pos, q: Pos) {
    p == q || Before(p, q)
  }

  /** A position inside the source: 1-based line, 0-based column. */
  predicate Valid(lines: seq<string>, p: Pos) {
    1 <= p.line <= |lines| && 0 <= p.col
  }

  function Min(a: int, b: int): int {
    if a < b then a else b
  }

  /** Where line i (from 0) starts in the text. */
  function LineStart(lines: seq<string>, i: nat): nat
    requires i <= |lines|
  {
    |Concat(lines[..i])|
  }

  /** Where a position lies in the text; a column past the end of its line means the end of the line. */
  function Offset(lines: seq<string>, p: Pos): nat
    requires Valid(lines, p)
  {
    LineStart(lines, p.line - 1) + Min(p.col, |lines[p.line - 1]|)
  }

  /** The text of lines i..j is the slice between their starts. */
  lemma MiddlePart(a: string, b: string, c: string)
    ensures (a + b + c)[|a|..|a + b|] == b
  {
    assert (a + b + c)[..|a + b|] == a + b;
  }

  lemma ConcatSlice(lines: seq<string>, i: nat, j: nat)
    requires i <= j <= |lines|
    ensures LineStart(lines, i) <= LineStart(lines, j) <= |Concat(lines)|
    ensures Concat(lines[i..j]) == Concat(lines)[LineStart(lines, i)..LineStart(lines, j)]
  {
    hide Concat;
    assert lines[..j] == lines[..i] + lines[i..j];
    ConcatAppend(lines[..i], lines[i..j]);
    assert lines == lines[..j] + lines[j..];
    ConcatAppend(lines[..j], lines[j..]);
    MiddlePart(Concat(lines[..i]), Concat(lines[i..j]), Concat(lines[j..]));
  }

  lemma LineIsSlice(lines: seq<string>, i: nat)
    requires i < |lines|
    ensures LineStart(lines, i) + |lines[i]| == LineStart(lines, i + 1) <= |Concat(lines)|
    ensures lines[i] == Concat(lines)[LineStart(lines, i)..LineStart(lines, i + 1)]
  {
    ConcatSlice(lines, i, i + 1);
    assert lines[i..i + 1] == [lines[i]];
    assert Concat([lines[i]]) == lines[i] + Concat([]);
  }

  /** The lines before line i (from 0) hold i newlines, the last of them at the end. */
  lemma {:induction false} NewlinesBefore(lines: seq<string>, i: nat)
    requires IsLines(lines) && i < |lines|
    ensures multiset(Concat(lines[..i]))['\n'] == i
    ensures i > 0 ==> Concat(lines[..i]) != "" && Concat(lines[..i])[|Concat(lines[..i])| - 1] == '\n'
  {
    if i == 0 {
    } else {
      NewlinesBefore(lines, i - 1);
      var line := lines[i - 1];
      assert lines[..i] == lines[..i - 1] + [line];
      ConcatSnoc(lines[..i - 1], line);
      OneNewline(line);
      hide Concat;
    }
  }

  lemma OneNewline(line: string)
    requires line != "" && line[|line| - 1] == '\n' && forall k :: 0 <= k < |line| - 1 ==> line[k] != '\n'
    ensures multiset(line)['\n'] == 1
  {
    assert line == line[..|line| - 1] + [line[|line| - 1]];
    assert '\n' !in line[..|line| - 1];
  }

  /** A position is the place in the text after as many newlines as there are lines before it, and then as many
      characters as its column says. */
  lemma OffsetIsPosition(source: string, p: Pos)
    requires Valid(SourceLines(source), p)
    requires p.line < |SourceLines(source)| ==> p.col < |SourceLines(source)[p.line - 1]|
    requires p.line == |SourceLines(source)| ==> p.col <= |SourceLines(source)[p.line - 1]|
    ensures
      var o := Offset(SourceLines(source), p);
      && p.col <= o <= |source|
      && multiset(source[..o])['\n'] == p.line - 1
      && (forall k :: o - p.col <= k < o ==> source[k] != '\n')
      && (if p.line == 1 then o == p.col else o - p.col > 0 && source[o - p.col - 1] == '\n')
  {
    var lines := SourceLines(source);
    LinesEnd(source);
    LinesRejoin(source);
    hide SourceLines, Concat;
    var i := p.line - 1;
    var start := LineStart(lines, i);
    NewlinesBefore(lines, i);
    ConcatSlice(lines, 0, i);
    LineIsSlice(lines, i);
    assert Concat(lines[..0]) == "" by { assert lines[..0] == []; ConcatNone(); }
    assert lines[0..i] == lines[..i];
    assert source[..start] == Concat(lines[..i]);
    assert source[..start + p.col] == source[..start] + lines[i][..p.col];
    assert '\n' !in lines[i][..p.col];
  }

  lemma ConcatNone()
    ensures Concat([]) == ""
  {}

  lemma OffsetMonotone(lines: seq<string>, p: Pos, q: Pos)
    requires Valid(lines, p) && Valid(lines, q) && NotAfter(p, q)
    ensures Offset(lines, p) <= Offset(lines, q) <= |Concat(lines)|
  {
    hide LineStart, Concat;
    LineIsSlice(lines, p.line - 1);
    LineIsSlice(lines, q.line - 1);
    if p.line < q.line {
      ConcatSlice(lines, p.line, q.line - 1);
    }
  }

  // ---------------------------------------------------------------- cutting a snippet out

  /** A Python list index: negative indices count from the end, others raise. */
  function Line(lines: seq<string>, i: int): Option<string> {
    if 0 <= i < |lines| then Some(lines[i])
    else if -|lines| <= i < 0 then Some(lines[i + |lines|])
    else None
  }

  /** One bound of a Python slice. */
  function Clip(i: int, n: nat): (r: nat)
    ensures r <= n
  {
    if i < 0 then (if i + n < 0 then 0 else i + n) else Min(i, n)
  }

  function Slice(s: string, a: int, b: int): string {
    if Clip(a, |s|) <= Clip(b, |s|) then s[Clip(a, |s|)..Clip(b, |s|)] else ""
  }

  /** The full lines i..j, or None when one of them does not exist. */
  function Middle(lines: seq<string>, i: int, j: int): Option<string>
    decreases j - i
  {
    if i >= j then Some("")
    else match Line(lines, i)
      case None => None
      case Some(first) =>
        match Middle(lines, i + 1, j)
        case None => None
        case Some(rest) => Some(first + rest)
  }

  /** _extract_snippet; None stands for the IndexError. */
  function Snippet(lines: seq<string>, start: Pos, finish: Pos): Option<string> {
    match Line(lines, start.line - 1)
    case None => None
    case Some(first) =>
      if start.line == finish.line then Some(Slice(first, start.col, finish.col))
      else match (Middle(lines, start.line, finish.line - 1), Line(lines, finish.line - 1))
        case (Some(middle), Some(last)) =>
          Some(Slice(first, start.col, |first|) + middle + Slice(last, 0, finish.col))
        case _ => None
  }

  lemma {:induction false} MiddleIsLines(lines: seq<string>, i: nat, j: nat)
    requires i <= j <= |lines|
    ensures Middle(lines, i, j) == Some(Concat(lines[i..j]))
    decreases j - i
  {
    if i == j {
    } else {
      MiddleIsLines(lines, i + 1, j);
      assert lines[i..j] == [lines[i]] + lines[i + 1..j];
    }
  }

  /** Between two valid positions the snippet is exactly that slice of the source. */
  lemma SnippetIsSlice(lines: seq<string>, start: Pos, finish: Pos)
    requires Valid(lines, start) && Valid(lines, finish) && NotAfter(start, finish)
    ensures Offset(lines, start) <= Offset(lines, finish) <= |Concat(lines)|
    ensures Snippet(lines, start, finish) == Some(Concat(lines)[Offset(lines, start)..Offset(lines, finish)])
  {
    hide Concat, Middle, LineStart;
    OffsetMonotone(lines, start, finish);
    var text := Concat(lines);
    var s, f := start.line - 1, finish.line - 1;
    LineIsSlice(lines, s);
    LineIsSlice(lines, f);
    var from, to := Offset(lines, start), Offset(lines, finish);
    if s < f {
      MiddleIsLines(lines, s + 1, f);
      ConcatSlice(lines, s + 1, f);
      var mid, end := LineStart(lines, s + 1), LineStart(lines, f);
      SubSlice(text, LineStart(lines, s), mid, from - LineStart(lines, s), |lines[s]|);
      SubSlice(text, end, LineStart(lines, f + 1), 0, to - end);
      ThreeParts(text, from, mid, end, to);
    } else {
      SubSlice(text, LineStart(lines, s), LineStart(lines, s + 1), from - LineStart(lines, s),
          to - LineStart(lines, s));
    }
  }

  lemma SubSlice(s: string, i: nat, j: nat, a: nat, b: nat)
    requires i <= j <= |s| && a <= b <= j - i
    ensures s[i..j][a..b] == s[i + a..i + b]
  {
    var left, right := s[i..j][a..b], s[i + a..i + b];
    assert forall k :: 0 <= k < b - a ==> left[k] == s[i + a + k] == right[k];
  }

  lemma ThreeParts(s: string, a: nat, b: nat, c: nat, d: nat)
    requires a <= b <= c <= d <= |s|
    ensures s[a..d] == s[a..b] + s[b..c] + s[c..d]
  {
    assert s[a..c] == s[a..b] + s[b..c];
    assert s[a..d] == s[a..c] + s[c..d];
  }

  /** The line at a Python index; negative indices count from the end. */
  lemma {:induction false} MiddleMeans(lines: seq<string>, i: int, j: int, all: seq<string>)
    requires -|lines| <= i && j <= |lines| && |all| == if i < j then j - i else 0
    requires forall k :: 0 <= k < |all| ==> all[k] == if i + k >= 0 then lines[i + k] else lines[i + k + |lines|]
    ensures Middle(lines, i, j) == Some(Concat(all))
    decreases j - i
  {
    if i >= j {
    } else {
      MiddleMeans(lines, i + 1, j, all[1..]);
    }
  }

  /** None when a line is missing; otherwise, unless a column is outside its line, the rest of the first line, the
      lines between, and the start of the last line. */
  ghost predicate IsSnippet(lines: seq<string>, start: Pos, finish: Pos, r: Option<string>) {
    if !(-|lines| < start.line <= |lines|) || (start.line != finish.line && !(-|lines| < finish.line <= |lines|)) then
      r == None
    else
      var first := if start.line >= 1 then lines[start.line - 1] else lines[start.line - 1 + |lines|];
      var last := if finish.line >= 1 then lines[finish.line - 1] else lines[finish.line - 1 + |lines|];
      var between := if start.line < finish.line then finish.line - 1 - start.line else 0;
      && r.Some?
      && (0 <= start.col <= |first| && 0 <= finish.col <= |last| ==>
            if start.line == finish.line then
              start.col <= finish.col ==> r == Some(first[start.col..finish.col])
            else
              r == Some(first[start.col..] + Concat(seq(between, k requires 0 <= k < between =>
                  if start.line + k >= 0 then lines[start.line + k] else lines[start.line + k + |lines|]))
                  + last[..finish.col]))
  }

  lemma SnippetMeans(lines: seq<string>, start: Pos, finish: Pos)
    ensures IsSnippet(lines, start, finish, Snippet(lines, start, finish))
  {
    hide Concat, Middle;
    if -|lines| < start.line <= |lines| && -|lines| < finish.line <= |lines| {
      var between := if start.line < finish.line then finish.line - 1 - start.line else 0;
      MiddleMeans(lines, start.line, finish.line - 1, seq(between, k requires 0 <= k < between =>
          if start.line + k >= 0 then lines[start.line + k] else lines[start.line + k + |lines|]));
      var first := if start.line >= 1 then lines[start.line - 1] else lines[start.line - 1 + |lines|];
      if 0 <= start.col <= |first| {
        assert Slice(first, start.col, |first|) == first[start.col..];
      }
    }
  }

  method ExtractSnippet(lines: seq<string>, start: Pos, finish: Pos) returns (r: Option<string>)
    ensures r == Snippet(lines, start, finish)
    ensures IsSnippet(lines, start, finish, r)
  {
    hide IsSnippet;
    SnippetMeans(lines, start, finish);
    var first := Line(lines, start.line - 1);
    if first.None? {
      return None;
    }
    if start.line == finish.line {
      return Some(Slice(first.value, start.col, finish.col));
    }
    var parts := Slice(first.value, start.col, |first.value|);
    ghost var head, middle := parts, "";
    var i := start.line;
    assert forall rest: string :: "" + rest == rest;
    while i < finish.line - 1
      invariant i == start.line || start.line <= i <= finish.line - 1
      invariant parts == head + middle
      invariant Middle(lines, start.line, finish.line - 1) ==
                match Middle(lines, i, finish.line - 1)
                case None => None
                case Some(rest) => Some(middle + rest)
    {
      var text := Line(lines, i);
      if text.None? {
        return None;
      }
      ghost var rest := Middle(lines, i + 1, finish.line - 1);
      assert rest.Some? ==> middle + (text.value + rest.value) == (middle + text.value) + rest.value;
      parts, middle := parts + text.value, middle + text.value;
      i := i + 1;
    }
    var last := Line(lines, finish.line - 1);
    if last.None? {
      return None;
    }
    assert Middle(lines, i, finish.line - 1) == Some("") && middle + "" == middle;
    r := Some(parts + Slice(last.value, 0, finish.col));
  }
}
