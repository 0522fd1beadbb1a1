/** Trailing whitespace and comments move to the next tactic (infotree.py: separate_trailing_whitespace,
    separate_trailing_comment, transfer_trailing_whitespaces_and_comments). */
module InfotreeComments {
  import opened SourceText
  import opened InfotreeIntervals

  // ---------------------------------------------------------------- whitespace

  predicate Strippable(c: char) {
    c == ' ' || c == '\t' || c == '\n' || c == '\r'
  }

  /** s.rstrip(" \t\n\r") */
  function TrimEnd(s: string): (r: string)
    ensures r <= s
    ensures r == "" || r[|r| - 1] !in " \t\n\r"
    ensures forall i :: |r| <= i < |s| ==> s[i] in " \t\n\r"
  {
    if s != "" && Strippable(s[|s| - 1]) then TrimEnd(s[..|s| - 1]) else s
  }

  function SeparateTrailingWhitespace(s: string): (r: (string, string))
    ensures r.0 + r.1 == s
    ensures r.0 == "" || r.0[|r.0| - 1] !in " \t\n\r"
    ensures forall c :: c in r.1 ==> c in " \t\n\r"
  {
    var code := TrimEnd(s);
    (code, s[|code|..])
  }

  // ---------------------------------------------------------------- lines

  /** str.isspace for one character; \s in a pattern means the same. */
  predicate IsSpace(c: char) {
    var n := c as int;
    9 <= n <= 13 || 28 <= n <= 32 || n == 0x85 || n == 0xA0 || n == 0x1680 || 0x2000 <= n <= 0x200A
    || n == 0x2028 || n == 0x2029 || n == 0x202F || n == 0x205F || n == 0x3000
  }

  /** Characters at which str.splitlines cuts. */
  predicate IsBreak(c: char) {
    var n := c as int;
    10 <= n <= 13 || 28 <= n <= 30 || n == 0x85 || n == 0x2028 || n == 0x2029
  }

  /** Length of the first line of s, its line break included, looking from index i. */
  function FirstLineEnd(s: string, i: nat): (n: nat)
    requires i < |s|
    ensures i < n <= |s|
    decreases |s| - i
  {
    if s[i] == '\r' && i + 1 < |s| && s[i + 1] == '\n' then i + 2
    else if IsBreak(s[i]) || i + 1 == |s| then i + 1
    else FirstLineEnd(s, i + 1)
  }

  /** s.splitlines(keepends=True) */
  function SplitLines(s: string): (r: seq<string>)
    ensures Concat(r) == s
    ensures s != "" ==> r != []
  {
    if s == "" then []
    else
      var n := FirstLineEnd(s, 0);
      var rest := SplitLines(s[n..]);
      assert ([s[..n]] + rest)[1..] == rest;
      [s[..n]] + rest
  }

  /** Every line but the last ends in a line break, and none has one elsewhere; "\r\n" is one break. */
  lemma {:induction false} FirstLineBreaks(s: string, i: nat)
    requires i < |s|
    ensures
      var n := FirstLineEnd(s, i);
      && (n < |s| ==> s[n - 1] as int in {10, 11, 12, 13, 28, 29, 30, 0x85, 0x2028, 0x2029})
      && (forall k :: i <= k < n - 1 && s[k] as int in {10, 11, 12, 13, 28, 29, 30, 0x85, 0x2028, 0x2029} ==>
            k == n - 2 && s[k] == '\r' && s[k + 1] == '\n')
      && !(n < |s| && s[n - 1] == '\r' && s[n] == '\n')
    decreases |s| - i
  {
    if s[i] == '\r' && i + 1 < |s| && s[i + 1] == '\n' {
    } else if IsBreak(s[i]) || i + 1 == |s| {
    } else {
      FirstLineBreaks(s, i + 1);
    }
  }

  /** No line break but at the end; "\r\n" is one break. */
  ghost predicate NoneInside(line: string) {
    forall k :: 0 <= k < |line| - 1 && line[k] as int in {10, 11, 12, 13, 28, 29, 30, 0x85, 0x2028, 0x2029} ==>
      line[k..] == "\r\n"
  }

  ghost predicate EndsInBreak(line: string) {
    line != "" && line[|line| - 1] as int in {10, 11, 12, 13, 28, 29, 30, 0x85, 0x2028, 0x2029}
  }

  /** Every line but the last ends in a line break, none has one elsewhere, and no "\r\n" is cut in two. */
  ghost predicate CutAtBreaks(lines: seq<string>) {
    && (forall i :: 0 <= i < |lines| ==> lines[i] != "" && NoneInside(lines[i]))
    && (forall i :: 0 <= i < |lines| - 1 ==> EndsInBreak(lines[i]))
    && (forall i :: 0 < i < |lines| ==>
          !("\n" <= lines[i] && lines[i - 1] != "" && lines[i - 1][|lines[i - 1]| - 1] == '\r'))
  }

  lemma BreaksCons(first: string, rest: seq<string>)
    requires CutAtBreaks(rest) && first != "" && NoneInside(first)
    requires rest != [] ==> EndsInBreak(first) && !("\n" <= rest[0] && first[|first| - 1] == '\r')
    ensures CutAtBreaks([first] + rest)
  {
    hide NoneInside, EndsInBreak;
    var lines := [first] + rest;
    forall i | 0 <= i < |lines| ensures lines[i] != "" && NoneInside(lines[i]) {
      assert i > 0 ==> lines[i] == rest[i - 1];
    }
    forall i | 0 <= i < |lines| - 1 ensures EndsInBreak(lines[i]) {
      assert i > 0 ==> lines[i] == rest[i - 1];
    }
    forall i | 0 < i < |lines|
      ensures !("\n" <= lines[i] && lines[i - 1] != "" && lines[i - 1][|lines[i - 1]| - 1] == '\r')
    {
      assert lines[i] == rest[i - 1] && lines[i - 1] == if i == 1 then first else rest[i - 2];
    }
  }

  lemma FirstIsCut(s: string)
    requires s != ""
    ensures
      var n := FirstLineEnd(s, 0);
      && NoneInside(s[..n])
      && (n < |s| ==> EndsInBreak(s[..n]) && !("\n" <= s[n..] && s[..n][n - 1] == '\r'))
  {
    var n := FirstLineEnd(s, 0);
    FirstLineBreaks(s, 0);
    var first := s[..n];
    forall k | 0 <= k < |first| - 1 && first[k] as int in {10, 11, 12, 13, 28, 29, 30, 0x85, 0x2028, 0x2029}
      ensures first[k..] == "\r\n"
    {
      assert first[k] == s[k];
    }
  }

  lemma FirstChar(rest: seq<string>)
    requires rest != [] && "\n" <= rest[0]
    ensures "\n" <= Concat(rest)
  {
    assert Concat(rest) == rest[0] + Concat(rest[1..]);
  }

  lemma {:induction false} SplitLinesBreaks(s: string)
    ensures CutAtBreaks(SplitLines(s))
  {
    hide NoneInside, EndsInBreak, Concat;
    if s == "" {
    } else {
      hide FirstLineEnd;
      var n := FirstLineEnd(s, 0);
      var rest := SplitLines(s[n..]);
      FirstIsCut(s);
      SplitLinesBreaks(s[n..]);
      assert n == |s| <==> rest == [] by { assert n == |s| ==> s[n..] == ""; EmptyJoin(rest); }
      if rest != [] && "\n" <= rest[0] {
        FirstChar(rest);
      }
      BreaksCons(s[..n], rest);
    }
  }

  lemma EmptyJoin(rest: seq<string>)
    ensures rest == [] ==> Concat(rest) == ""
  {}

  predicate Blank(line: string) {
    forall i :: 0 <= i < |line| ==> IsSpace(line[i])
  }

  function SkipSpace(s: string): string {
    if s != "" && IsSpace(s[0]) then SkipSpace(s[1..]) else s
  }

  // the line opens with "/-", whitespace aside
  predicate OpensBlock(line: string) {
    "/-" <= SkipSpace(line)
  }

  // the line opens with "--", whitespace aside
  predicate IsLineComment(line: string) {
    "--" <= SkipSpace(line)
  }

  /** "-/" in line */
  predicate ClosesBlock(line: string) {
    exists i :: 0 <= i < |line| - 1 && line[i] == '-' && line[i + 1] == '/'
  }

  lemma {:induction false} SkipSpaceSkips(s: string) returns (i: nat)
    ensures i <= |s| && SkipSpace(s) == s[i..] && forall j :: 0 <= j < i ==> IsSpace(s[j])
    ensures i < |s| ==> !IsSpace(s[i])
  {
    if s != "" && IsSpace(s[0]) {
      var k := SkipSpaceSkips(s[1..]);
      i := k + 1;
    } else {
      i := 0;
    }
  }

  /** What the tests on a line look for. */
  lemma LineKinds(line: string)
    ensures forall c :: IsSpace(c) <==>
      c as int in {9, 10, 11, 12, 13, 28, 29, 30, 31, 32, 0x85, 0xA0, 0x1680, 0x2000, 0x2001, 0x2002, 0x2003, 0x2004,
                   0x2005, 0x2006, 0x2007, 0x2008, 0x2009, 0x200A, 0x2028, 0x2029, 0x202F, 0x205F, 0x3000}
    ensures Blank(line) <==> forall c :: c in line ==> IsSpace(c)
    ensures OpensBlock(line) <==>
      exists i :: 0 <= i <= |line| && "/-" <= line[i..] && forall j :: 0 <= j < i ==> IsSpace(line[j])
    ensures IsLineComment(line) <==>
      exists i :: 0 <= i <= |line| && "--" <= line[i..] && forall j :: 0 <= j < i ==> IsSpace(line[j])
    ensures ClosesBlock(line) <==> exists i :: 0 <= i <= |line| && "-/" <= line[i..]
  {
    var i := SkipSpaceSkips(line);
    var rest := SkipSpace(line);
    assert !IsSpace('/') && !IsSpace('-');
    hide SkipSpace;
    forall k |
      0 <= k <= |line| && ("/-" <= line[k..] || "--" <= line[k..]) && forall j :: 0 <= j < k ==> IsSpace(line[j])
      ensures k == i
    {
      assert line[k..][0] == line[k];
    }
    if ClosesBlock(line) {
      var k :| 0 <= k < |line| - 1 && line[k] == '-' && line[k + 1] == '/';
      assert line[k..][..2] == "-/";
    }
    if k :| 0 <= k <= |line| && "-/" <= line[k..] {
      assert line[k] == line[k..][0] && line[k + 1] == line[k..][1];
    }
  }

  // ---------------------------------------------------------------- trailing comments

  /** Lines m..k are one trailing piece: a blank line, a line comment, or a block comment that closes on line k - 1
      and opens on the last opening line before it. */
  ghost predicate Piece(lines: seq<string>, m: nat, k: nat) {
    m < k <= |lines| &&
    var last := lines[k - 1];
    if Blank(last) then m == k - 1
    else if ClosesBlock(last) then OpensBlock(lines[m]) && forall j :: m < j < k ==> !OpensBlock(lines[j])
    else m == k - 1 && IsLineComment(last)
  }

  ghost predicate EndsPiece(lines: seq<string>, k: nat) {
    exists m: nat :: m < k && Piece(lines, m, k)
  }

  /** Lines m..k are a run of trailing pieces. */
  ghost predicate Run(lines: seq<string>, m: nat, k: nat) {
    m == k || exists j :: m <= j < k && Piece(lines, j, k) && Run(lines, m, j)
  }

  lemma {:induction false} RunExtends(lines: seq<string>, m: nat, j: nat, k: nat)
    requires Piece(lines, m, j) && Run(lines, j, k) && j <= k
    ensures Run(lines, m, k)
    decreases k - j
  {
    if j == k {
      assert Run(lines, m, m);
    } else {
      var i :| j <= i < k && Piece(lines, i, k) && Run(lines, j, i);
      RunExtends(lines, m, j, i);
    }
  }

  function Reverse(parts: seq<string>): seq<string> {
    if parts == [] then [] else [parts[|parts| - 1]] + Reverse(parts[..|parts| - 1])
  }

  /** The line, from `i` upward, that opens the block comment closed on line i; -1 if none does. */
  method BlockStart(lines: seq<string>, i: nat) returns (from: int)
    requires i < |lines|
    ensures -1 <= from <= i
    ensures from >= 0 ==> OpensBlock(lines[from])
    ensures forall j :: from < j <= i ==> !OpensBlock(lines[j])
  {
    from := i;
    while from >= 0 && !OpensBlock(lines[from])
      invariant -1 <= from <= i
      invariant forall j :: from < j <= i ==> !OpensBlock(lines[j])
    {
      from := from - 1;
    }
  }

  /** Where the trailing piece that ends with line i starts; None when line i is code. */
  method PieceStart(lines: seq<string>, i: nat) returns (from: nat, found: bool)
    requires i < |lines|
    ensures found ==> from <= i && Piece(lines, from, i + 1)
    ensures !found ==> !EndsPiece(lines, i + 1)
    ensures found <==>
      || Blank(lines[i])
      || (ClosesBlock(lines[i]) && exists j :: 0 <= j <= i && OpensBlock(lines[j]))
      || (!ClosesBlock(lines[i]) && IsLineComment(lines[i]))
    ensures found && !Blank(lines[i]) && ClosesBlock(lines[i]) ==>
      OpensBlock(lines[from]) && forall j :: from < j <= i ==> !OpensBlock(lines[j])
    ensures found && (Blank(lines[i]) || !ClosesBlock(lines[i])) ==> from == i
  {
    from, found := i, true;
    var line := lines[i];
    if Blank(line) {
    } else if ClosesBlock(line) {
      var start := BlockStart(lines, i);
      if start < 0 {
        found := false;
      } else {
        from := start;
      }
    } else {
      found := IsLineComment(line);
    }
  }

  /** separate_trailing_comment: the longest run of trailing comment pieces is cut off
      as one block, and nothing is lost. `kept` is the number of lines that stay. */
  method SeparateTrailingComment(s: string) returns (clean: string, comment: string, ghost kept: nat)
    ensures clean + comment == s
    ensures kept <= |SplitLines(s)| && clean == Concat(SplitLines(s)[..kept])
    ensures Run(SplitLines(s), kept, |SplitLines(s)|)
    ensures !EndsPiece(SplitLines(s), kept)
  {
    hide Concat, Reverse, Piece, EndsPiece, Run, SplitLines;
    assert SplitLines(s) == [] ==> s == "";
    var lines := SplitLines(s);
    kept := 0;
    NoPiece(lines);
    if lines == [] {
      return s, "", 0;
    }
    var trailing: seq<string> := [];
    var i: int := |lines| - 1;
    while i >= 0
      invariant -1 <= i < |lines|
      invariant Run(lines, i + 1, |lines|)
      invariant Concat(Reverse(trailing)) == Concat(lines[i + 1..])
      invariant trailing == [] ==> i == |lines| - 1
    {
      var from: int, found := PieceStart(lines, i);
      if !found {
        break;
      }
      RunExtends(lines, from, i + 1, |lines|);
      PushPiece(lines, trailing, from, i + 1);
      trailing := trailing + [Concat(lines[from..i + 1])];
      i := from - 1;
    }
    kept := i + 1;
    clean := Concat(lines[..i + 1]);
    assert lines == lines[..i + 1] + lines[i + 1..];
    ConcatAppend(lines[..i + 1], lines[i + 1..]);
    comment := if trailing == [] then "" else Concat(Reverse(trailing));
  }

  lemma NoPiece(lines: seq<string>)
    ensures Concat(Reverse([])) == Concat(lines[|lines|..]) == ""
    ensures lines == [] ==> Concat(lines) == "" && Concat(lines[..0]) == ""
    ensures !EndsPiece(lines, 0)
    ensures Run(lines, |lines|, |lines|)
  {}

  lemma PushPiece(lines: seq<string>, trailing: seq<string>, from: nat, to: nat)
    requires from <= to <= |lines| && Concat(Reverse(trailing)) == Concat(lines[to..])
    ensures Concat(Reverse(trailing + [Concat(lines[from..to])])) == Concat(lines[from..])
  {
    var piece := Concat(lines[from..to]);
    assert (trailing + [piece])[..|trailing|] == trailing;
    assert ([piece] + Reverse(trailing))[1..] == Reverse(trailing);
    assert lines[from..] == lines[from..to] + lines[to..];
    ConcatAppend(lines[from..to], lines[to..]);
  }

  // ---------------------------------------------------------------- moving them forward

  /** What stays of a text: trailing whitespace goes, then the longest run of trailing comment pieces, then
      whitespace. */
  ghost predicate Stays(s: string, code: string) {
    var lines := SplitLines(TrimEnd(s));
    exists kept: nat :: kept <= |lines| && Run(lines, kept, |lines|) && !EndsPiece(lines, kept)
        && code == TrimEnd(Concat(lines[..kept]))
  }

  lemma PieceIsUnique(lines: seq<string>, i: nat, j: nat, k: nat)
    requires Piece(lines, i, k) && Piece(lines, j, k)
    ensures i == j
  {}

  lemma {:induction false} RunIsUnique(lines: seq<string>, m: nat, n: nat, k: nat)
    requires Run(lines, m, k) && Run(lines, n, k) && !EndsPiece(lines, m) && !EndsPiece(lines, n) && k <= |lines|
    ensures m == n
    decreases k
  {
    if m == k || n == k {
    } else {
      var i :| m <= i < k && Piece(lines, i, k) && Run(lines, m, i);
      var j :| n <= j < k && Piece(lines, j, k) && Run(lines, n, j);
      PieceIsUnique(lines, i, j, k);
      RunIsUnique(lines, m, n, i);
    }
  }

  /** The cut is determined by the text. */
  lemma StaysIsUnique(s: string, a: string, b: string)
    requires Stays(s, a) && Stays(s, b)
    ensures a == b
  {
    hide SplitLines, TrimEnd, Run, EndsPiece;
    var lines := SplitLines(TrimEnd(s));
    var m: nat :| m <= |lines| && Run(lines, m, |lines|) && !EndsPiece(lines, m) && a == TrimEnd(Concat(lines[..m]));
    var n: nat :| n <= |lines| && Run(lines, n, |lines|) && !EndsPiece(lines, n) && b == TrimEnd(Concat(lines[..n]));
    RunIsUnique(lines, m, n, |lines|);
  }

  lemma MoveForward(texts: seq<string>, i: nat, code: string, moved: string)
    requires i + 1 < |texts| && code + moved == texts[i]
    ensures var r := texts[i := code][i + 1 := moved + texts[i + 1]];
      && Concat(r) == Concat(texts)
      && (forall k :: 0 <= k <= |texts| ==> Concat(r[..k]) <= Concat(texts[..k]))
  {
    var r := texts[i := code][i + 1 := moved + texts[i + 1]];
    forall k | i + 2 <= k <= |texts| ensures Concat(r[..k]) == Concat(texts[..k]) {
      assert texts[..k] == texts[..i] + ([texts[i]] + ([texts[i + 1]] + texts[i + 2..k]));
      assert r[..k] == texts[..i] + ([code] + ([moved + texts[i + 1]] + texts[i + 2..k]));
      ConcatAppend(texts[..i], [texts[i]] + ([texts[i + 1]] + texts[i + 2..k]));
      ConcatAppend(texts[..i], [code] + ([moved + texts[i + 1]] + texts[i + 2..k]));
      PairConcat(texts[i], texts[i + 1], texts[i + 2..k]);
      PairConcat(code, moved + texts[i + 1], texts[i + 2..k]);
    }
    forall k | 0 <= k <= i ensures r[..k] == texts[..k] {}
    assert r[..i + 1] == texts[..i] + [code] && texts[..i + 1] == texts[..i] + [texts[i]];
    ConcatSnoc(texts[..i], code);
    ConcatSnoc(texts[..i], texts[i]);
    assert r[..|texts|] == r && texts[..|texts|] == texts;
  }

  lemma PairConcat(a: string, b: string, rest: seq<string>)
    ensures Concat([a] + ([b] + rest)) == a + b + Concat(rest)
  {
    assert ([a] + ([b] + rest))[1..] == [b] + rest;
    assert ([b] + rest)[1..] == rest;
  }

  /** One step of the transfer: the trailing part of tactic i goes in front of tactic i + 1. */
  method TransferOne(tactics: seq<Tactic>, i: nat) returns (r: seq<Tactic>, moved: string)
    requires i + 1 < |tactics|
    ensures |r| == |tactics|
    ensures forall k :: 0 <= k < |r| ==>
        r[k].goalsBefore == tactics[k].goalsBefore && r[k].goalsAfter == tactics[k].goalsAfter
    ensures Concat(Texts(r)) == Concat(Texts(tactics))
    ensures forall k :: 0 <= k < |r| && k != i && k != i + 1 ==> r[k] == tactics[k]
    ensures tactics[i].text == r[i].text + moved && Stays(tactics[i].text, r[i].text)
    ensures r[i + 1].text == moved + tactics[i + 1].text
  {
    hide Concat, Texts, TrimEnd, SplitLines, Run, EndsPiece;
    var (code1, ws1) := SeparateTrailingWhitespace(tactics[i].text);
    var code2, comment, kept := SeparateTrailingComment(code1);
    var (code3, ws2) := SeparateTrailingWhitespace(code2);
    moved := ws2 + comment + ws1;
    assert code3 + moved == tactics[i].text;
    assert Stays(tactics[i].text, code3);
    TextsAt(tactics, i, code3);
    TextsAt(tactics, i + 1, code3);
    MoveForward(Texts(tactics), i, code3, moved);
    r := tactics[i := tactics[i].(text := code3)];
    TextsAt(r, i + 1, moved + tactics[i + 1].text);
    r := r[i + 1 := r[i + 1].(text := moved + r[i + 1].text)];
  }

  /** What every tactic is handed by the one before it, keeps and hands on. */
  ghost predicate HandedOn(given: seq<Tactic>, r: seq<Tactic>, carried: seq<string>, n: nat)
    requires n < |given| == |r| && |carried| == n + 1
  {
    && carried[0] == ""
    && (forall k :: 0 <= k < n ==>
        carried[k] + given[k].text == r[k].text + carried[k + 1] && Stays(carried[k] + given[k].text, r[k].text))
    && r[n].text == carried[n] + given[n].text
  }

  /** transfer_trailing_whitespaces_and_comments: every tactic but the last keeps its code and hands its trailing
      whitespace and comments to the next; the whole text and the goals stay. */
  method TransferTrailing(tactics: seq<Tactic>) returns (r: seq<Tactic>, ghost carried: seq<string>)
    ensures |r| == |tactics| == |carried|
    ensures forall k :: 0 <= k < |r| ==>
        r[k].goalsBefore == tactics[k].goalsBefore && r[k].goalsAfter == tactics[k].goalsAfter
    ensures Concat(Texts(r)) == Concat(Texts(tactics))
    ensures r != [] ==> HandedOn(tactics, r, carried, |r| - 1)
  {
    hide Concat, Texts, Stays;
    r := tactics;
    if r == [] {
      carried := [];
      return;
    }
    carried := [""];
    var i := 0;
    while i < |r| - 1
      invariant 0 <= i < |r| == |tactics| && |carried| == i + 1
      invariant forall k :: 0 <= k < |r| ==>
          r[k].goalsBefore == tactics[k].goalsBefore && r[k].goalsAfter == tactics[k].goalsAfter
      invariant Concat(Texts(r)) == Concat(Texts(tactics))
      invariant forall k :: i < k < |r| ==> r[k] == tactics[k]
      invariant HandedOn(tactics, r, carried, i)
    {
      var moved;
      r, moved := TransferOne(r, i);
      carried := carried + [moved];
      i := i + 1;
    }
  }
}
