/**
  The config-write preview diff (adapter/config.ts, buildUnifiedDiff): a longest
  common subsequence table filled from the bottom right, then a walk from the top
  left that prints unchanged, added and removed lines.
*/
module UnifiedDiff {
  import opened Common

  // ----- Texts and lines -----

  type Line = string

  /** text.split("\n"): always at least one line. */
  function Split(text: string): (lines: seq<Line>)
    ensures |lines| > 0
  {
    if text == "" then [""]
    else
      var rest := Split(text[1..]);
      if text[0] == '\n' then [""] + rest else [[text[0]] + rest[0]] + rest[1..]
  }

  /** lines.join("\n") */
  function Join(lines: seq<Line>): string {
    if lines == [] then "" else if |lines| == 1 then lines[0] else lines[0] + "\n" + Join(lines[1..])
  }

  lemma {:induction false} SplitThenJoin(text: string)
    ensures Join(Split(text)) == text
    ensures forall l | l in Split(text) :: '\n' !in l
  {
    if text != "" {
      SplitThenJoin(text[1..]);
      var rest := Split(text[1..]);
      if text[0] == '\n' {
        assert Split(text)[1..] == rest;
      } else {
        assert Split(text)[1..] == rest[1..];
      }
    }
  }

  lemma {:induction false} SplitPrefix(l: Line, text: string)
    requires '\n' !in l
    ensures Split(l + text) == [l + Split(text)[0]] + Split(text)[1..]
  {
    if l == "" {
      assert l + text == text && l + Split(text)[0] == Split(text)[0];
    } else {
      assert (l + text)[1..] == l[1..] + text;
      SplitPrefix(l[1..], text);
      assert [l[0]] + (l[1..] + Split(text)[0]) == l + Split(text)[0];
    }
  }

  lemma {:induction false} JoinThenSplit(lines: seq<Line>)
    requires lines != [] && forall l | l in lines :: '\n' !in l
    ensures Split(Join(lines)) == lines
  {
    if |lines| == 1 {
      SplitPrefix(lines[0], "");
      assert lines[0] + "" == lines[0];
    } else {
      JoinThenSplit(lines[1..]);
      SplitPrefix(lines[0], "\n" + Join(lines[1..]));
      assert lines[0] + "\n" + Join(lines[1..]) == lines[0] + ("\n" + Join(lines[1..]));
      assert ("\n" + Join(lines[1..]))[1..] == Join(lines[1..]);
      assert lines[0] + "" == lines[0];
    }
  }

  // ----- Common subsequences -----

  /** c can be obtained from s by dropping elements. */
  predicate IsSubsequence(c: seq<Line>, s: seq<Line>) {
    c == [] || (s != [] && ((c[0] == s[0] && IsSubsequence(c[1..], s[1..])) || IsSubsequence(c, s[1..])))
  }

  /** The length table's value for the two suffixes. */
  function Lcs(a: seq<Line>, b: seq<Line>): nat
    decreases |a| + |b|
  {
    if a == [] || b == [] then 0
    else if a[0] == b[0] then Lcs(a[1..], b[1..]) + 1
    else Max(Lcs(a[1..], b), Lcs(a, b[1..]))
  }

  function Max(x: nat, y: nat): nat {
    if x >= y then x else y
  }

  lemma {:induction false} SubsequenceTail(c: seq<Line>, s: seq<Line>)
    requires c != [] && IsSubsequence(c, s)
    ensures s != [] && IsSubsequence(c[1..], s[1..])
    decreases s
  {
    if !(c[0] == s[0] && IsSubsequence(c[1..], s[1..])) {
      SubsequenceTail(c, s[1..]);
    }
  }

  /** No common subsequence is longer than Lcs. */
  lemma {:induction false} LcsIsMaximal(c: seq<Line>, a: seq<Line>, b: seq<Line>)
    requires IsSubsequence(c, a) && IsSubsequence(c, b)
    ensures |c| <= Lcs(a, b)
    decreases |a| + |b|
  {
    if c != [] {
      if a[0] == b[0] {
        SubsequenceTail(c, a);
        SubsequenceTail(c, b);
        LcsIsMaximal(c[1..], a[1..], b[1..]);
      } else if c[0] != a[0] {
        LcsIsMaximal(c, a[1..], b);
      } else {
        LcsIsMaximal(c, a, b[1..]);
      }
    }
  }

  // ----- Edit scripts -----

  datatype Edit = Keep(line: Line) | Add(line: Line) | Drop(line: Line)

  function OldLines(script: seq<Edit>): seq<Line> {
    if script == [] then []
    else (if script[0].Add? then [] else [script[0].line]) + OldLines(script[1..])
  }

  function NewLines(script: seq<Edit>): seq<Line> {
    if script == [] then []
    else (if script[0].Drop? then [] else [script[0].line]) + NewLines(script[1..])
  }

  function Kept(script: seq<Edit>): seq<Line> {
    if script == [] then []
    else (if script[0].Keep? then [script[0].line] else []) + Kept(script[1..])
  }

  /** The walk: on a tie it prints the added line first. */
  function Script(a: seq<Line>, b: seq<Line>): seq<Edit>
    decreases |a| + |b|
  {
    if a == [] && b == [] then []
    else if a != [] && b != [] && a[0] == b[0] then [Keep(a[0])] + Script(a[1..], b[1..])
    else if b != [] && (a == [] || Lcs(a, b[1..]) >= Lcs(a[1..], b)) then [Add(b[0])] + Script(a, b[1..])
    else [Drop(a[0])] + Script(a[1..], b)
  }

  lemma {:induction false} ScriptEdits(a: seq<Line>, b: seq<Line>)
    ensures OldLines(Script(a, b)) == a
    ensures NewLines(Script(a, b)) == b
    ensures |Kept(Script(a, b))| == Lcs(a, b)
    decreases |a| + |b|
  {
    if a == [] && b == [] {
    } else if a != [] && b != [] && a[0] == b[0] {
      ScriptEdits(a[1..], b[1..]);
    } else if b != [] && (a == [] || Lcs(a, b[1..]) >= Lcs(a[1..], b)) {
      ScriptEdits(a, b[1..]);
    } else {
      ScriptEdits(a[1..], b);
    }
  }

  lemma {:induction false} KeptIsCommon(script: seq<Edit>)
    ensures IsSubsequence(Kept(script), OldLines(script))
    ensures IsSubsequence(Kept(script), NewLines(script))
    ensures |script| == |OldLines(script)| + |NewLines(script)| - |Kept(script)|
  {
    if script != [] {
      KeptIsCommon(script[1..]);
      var line, c := script[0].line, Kept(script[1..]);
      var old1, new1 := OldLines(script[1..]), NewLines(script[1..]);
      assert ([line] + c)[1..] == c && ([line] + old1)[1..] == old1 && ([line] + new1)[1..] == new1;
      assert [] + c == c && [] + old1 == old1 && [] + new1 == new1;
    }
  }

  /** The printed script is shortest: every edit script between the texts keeps no more lines and is no shorter. */
  lemma ScriptIsOptimal(a: seq<Line>, b: seq<Line>, other: seq<Edit>)
    requires OldLines(other) == a && NewLines(other) == b
    ensures |Kept(other)| <= |Kept(Script(a, b))|
    ensures |Script(a, b)| <= |other|
  {
    ScriptEdits(a, b);
    KeptIsCommon(other);
    KeptIsCommon(Script(a, b));
    LcsIsMaximal(Kept(other), a, b);
  }

  // ----- The printed diff -----

  const HEADER: seq<Line> := ["--- before", "+++ after"]
  const NO_CHANGES := "(no changes)"

  function Printed(e: Edit): Line {
    match e
    case Keep(l) => "  " + l
    case Add(l) => "+ " + l
    case Drop(l) => "- " + l
  }

  function Print(script: seq<Edit>): seq<Line> {
    if script == [] then [] else [Printed(script[0])] + Print(script[1..])
  }

  /** One cell of the table, from its right, lower and diagonal neighbours. */
  lemma LcsCell(a: seq<Line>, b: seq<Line>, i: nat, j: nat)
    requires i < |a| && j < |b|
    ensures Lcs(a[i..], b[j..])
      == if a[i] == b[j] then Lcs(a[i + 1..], b[j + 1..]) + 1 else Max(Lcs(a[i + 1..], b[j..]), Lcs(a[i..], b[j + 1..]))
  {
    assert a[i..][1..] == a[i + 1..] && b[j..][1..] == b[j + 1..];
  }

  ghost predicate FilledFrom(lcs: array2<nat>, a: seq<Line>, b: seq<Line>, row: nat)
    reads lcs
  {
    && lcs.Length0 == |a| + 1 && lcs.Length1 == |b| + 1
    && forall x, y | row <= x <= |a| && 0 <= y <= |b| :: lcs[x, y] == Lcs(a[x..], b[y..])
  }

  /** The nested loops: from the bottom right to the top left. */
  method FillTable(before: seq<Line>, after: seq<Line>) returns (lcs: array2<nat>)
    ensures FilledFrom(lcs, before, after, 0)
  {
    var rows, cols := |before|, |after|;
    lcs := new nat[rows + 1, cols + 1]((_, _) => 0);
    var i := rows;
    while i > 0
      invariant 0 <= i <= rows
      invariant FilledFrom(lcs, before, after, i)
      invariant forall x | 0 <= x < i :: lcs[x, cols] == 0
    {
      i := i - 1;
      var j := cols;
      while j > 0
        invariant 0 <= j <= cols
        invariant FilledFrom(lcs, before, after, i + 1)
        invariant forall y | j <= y <= cols :: lcs[i, y] == Lcs(before[i..], after[y..])
        invariant forall x | 0 <= x < i :: lcs[x, cols] == 0
      {
        j := j - 1;
        LcsCell(before, after, i, j);
        lcs[i, j] := if before[i] == after[j] then lcs[i + 1, j + 1] + 1 else Max(lcs[i + 1, j], lcs[i, j + 1]);
      }
    }
  }

  /** The finished output when the walk has printed `lines` and stands at row i and column j. */
  function Finish(lines: seq<Line>, a: seq<Line>, b: seq<Line>, i: nat, j: nat): seq<Line>
    requires i <= |a| && j <= |b|
  {
    lines + Print(Script(a[i..], b[j..]))
  }

  lemma FinishStep(lines: seq<Line>, a: seq<Line>, b: seq<Line>, i: nat, j: nat)
    requires i <= |a| && j <= |b|
    ensures i < |a| && j < |b| && a[i] == b[j]
      ==> Finish(lines, a, b, i, j) == Finish(lines + [Printed(Keep(a[i]))], a, b, i + 1, j + 1)
    ensures j < |b| && !(i < |a| && a[i] == b[j]) && (i == |a| || Lcs(a[i..], b[j + 1..]) >= Lcs(a[i + 1..], b[j..]))
      ==> Finish(lines, a, b, i, j) == Finish(lines + [Printed(Add(b[j]))], a, b, i, j + 1)
    ensures i < |a| && !(j < |b| && (a[i] == b[j] || Lcs(a[i..], b[j + 1..]) >= Lcs(a[i + 1..], b[j..])))
      ==> Finish(lines, a, b, i, j) == Finish(lines + [Printed(Drop(a[i]))], a, b, i + 1, j)
    ensures i == |a| && j == |b| ==> Finish(lines, a, b, i, j) == lines
  {
    var script := Script(a[i..], b[j..]);
    assert i < |a| ==> a[i..][1..] == a[i + 1..];
    assert j < |b| ==> b[j..][1..] == b[j + 1..];
    if script != [] {
      assert lines + Print(script) == lines + [Printed(script[0])] + Print(script[1..]);
    }
  }

  /** buildUnifiedDiff: fills the table, then walks it from the top left. */
  method BuildUnifiedDiff(beforeText: string, afterText: string) returns (text: string)
    ensures beforeText == afterText ==> text == "(no changes)"
    ensures beforeText != afterText ==> text == DiffText(beforeText, afterText)
  {
    if beforeText == afterText {
      return NO_CHANGES;
    }
    var before, after := Split(beforeText), Split(afterText);
    var lcs := FillTable(before, after);
    var lines := Walk(before, after, lcs);
    text := Join(lines);
  }

  method Walk(before: seq<Line>, after: seq<Line>, lcs: array2<nat>) returns (lines: seq<Line>)
    requires FilledFrom(lcs, before, after, 0)
    ensures lines == HEADER + Print(Script(before, after))
  {
    var rows, cols := |before|, |after|;
    lines := HEADER;
    var i, j := 0, 0;
    ghost var whole := Finish(lines, before, after, 0, 0);
    assert before[0..] == before && after[0..] == after;
    assert whole == HEADER + Print(Script(before, after));
    while i < rows || j < cols
      invariant 0 <= i <= rows && 0 <= j <= cols
      invariant Finish(lines, before, after, i, j) == whole
      decreases rows - i + cols - j
    {
      FinishStep(lines, before, after, i, j);
      if i < rows && j < cols && before[i] == after[j] {
        lines := lines + [Printed(Keep(before[i]))];
        i, j := i + 1, j + 1;
        continue;
      }
      if j < cols && (i == rows || lcs[i, j + 1] >= lcs[i + 1, j]) {
        lines := lines + [Printed(Add(after[j]))];
        j := j + 1;
        continue;
      }
      if i < rows {
        lines := lines + [Printed(Drop(before[i]))];
        i := i + 1;
      }
    }
    FinishStep(lines, before, after, i, j);
  }

  // ----- Reading the diff back -----

  /** The body lines whose mark is not the given one, with their two-character prefix removed. */
  function Unmarked(body: seq<Line>, mark: char): seq<Line> {
    if body == [] then []
    else
      var kept := if body[0] != "" && body[0][0] == mark then [] else [body[0][Min(2, |body[0]|)..]];
      kept + Unmarked(body[1..], mark)
  }

  /** The body lines with the given mark, with their two-character prefix removed. */
  function Marked(body: seq<Line>, mark: char): seq<Line> {
    if body == [] then []
    else (if body[0] != "" && body[0][0] == mark then [body[0][Min(2, |body[0]|)..]] else []) + Marked(body[1..], mark)
  }

  /** What follows the two header lines. */
  function BodyOf(diff: string): seq<Line> {
    Split(diff)[Min(2, |Split(diff)|)..]
  }

  lemma {:induction false} UnmarkedPrint(script: seq<Edit>)
    ensures Unmarked(Print(script), '+') == OldLines(script)
    ensures Unmarked(Print(script), '-') == NewLines(script)
    ensures Marked(Print(script), ' ') == Kept(script)
  {
    if script != [] {
      UnmarkedPrint(script[1..]);
      var printed := Print(script);
      assert printed[1..] == Print(script[1..]);
      assert Printed(script[0])[2..] == script[0].line;
    }
  }

  lemma {:induction false} PrintHasNoNewline(script: seq<Edit>)
    requires forall l | l in OldLines(script) + NewLines(script) :: '\n' !in l
    ensures forall l | l in Print(script) :: '\n' !in l
  {
    if script != [] {
      var olds, news := OldLines(script), NewLines(script);
      assert script[0].line in olds + news by {
        assert script[0].Add? || olds[0] == script[0].line;
        assert script[0].Drop? || news[0] == script[0].line;
      }
      PrintHasNoNewline(script[1..]);
    }
  }

  lemma BodyOfJoin(header: seq<Line>, body: seq<Line>)
    requires |header| == 2 && header[0] != ""
    requires forall l | l in header :: '\n' !in l
    requires forall l | l in body :: '\n' !in l
    ensures BodyOf(Join(header + body)) == body
    ensures Join(header + body) != "" && Join(header + body)[0] == header[0][0]
  {
    var lines := header + body;
    JoinThenSplit(lines);
    assert lines[2..] == body;
    assert Join(lines) == lines[0] + "\n" + Join(lines[1..]);
  }

  /** The diff of two texts, as text. */
  function DiffText(beforeText: string, afterText: string): string {
    Join(HEADER + Print(Script(Split(beforeText), Split(afterText))))
  }

  /** Round trip: the diff of two different texts alone gives back both, and is never "(no changes)". */
  lemma DiffRebuildsBothTexts(beforeText: string, afterText: string)
    ensures var diff := DiffText(beforeText, afterText);
      && Join(Unmarked(BodyOf(diff), '+')) == beforeText
      && Join(Unmarked(BodyOf(diff), '-')) == afterText
      && Marked(BodyOf(diff), ' ') == Kept(Script(Split(beforeText), Split(afterText)))
      && diff != NO_CHANGES
  {
    var script := Script(Split(beforeText), Split(afterText));
    SplitThenJoin(beforeText);
    SplitThenJoin(afterText);
    ScriptEdits(Split(beforeText), Split(afterText));
    PrintHasNoNewline(script);
    UnmarkedPrint(script);
    HeaderLines();
    BodyOfJoin(HEADER, Print(script));
  }

  lemma HeaderLines()
    ensures |HEADER| == 2 && HEADER[0] != "" && HEADER[0][0] == '-' && NO_CHANGES[0] == '('
    ensures forall l | l in HEADER :: '\n' !in l
  {
  }

  /**
    The unchanged lines the diff prints are a common subsequence of the two line lists, and
    no common subsequence is longer.
  */
  lemma DiffKeepsLongestCommonSubsequence(beforeText: string, afterText: string, c: seq<Line>)
    requires IsSubsequence(c, Split(beforeText)) && IsSubsequence(c, Split(afterText))
    ensures var kept := Marked(BodyOf(DiffText(beforeText, afterText)), ' ');
      && IsSubsequence(kept, Split(beforeText)) && IsSubsequence(kept, Split(afterText)) && |c| <= |kept|
  {
    var a, b := Split(beforeText), Split(afterText);
    DiffRebuildsBothTexts(beforeText, afterText);
    ScriptEdits(a, b);
    KeptIsCommon(Script(a, b));
    LcsIsMaximal(c, a, b);
  }

  // ----- The order of the lines -----

  lemma LcsGrows(a: seq<Line>, b: seq<Line>)
    ensures a != [] ==> Lcs(a[1..], b) <= Lcs(a, b)
    ensures b != [] ==> Lcs(a, b[1..]) <= Lcs(a, b)
  {
    if a != [] {
      KeptIsCommon(Script(a[1..], b));
      ScriptEdits(a[1..], b);
      LcsIsMaximal(Kept(Script(a[1..], b)), a, b);
    }
    if b != [] {
      KeptIsCommon(Script(a, b[1..]));
      ScriptEdits(a, b[1..]);
      LcsIsMaximal(Kept(Script(a, b[1..])), a, b);
    }
  }

  /** After a dropped line the walk does not stand before an added one. */
  lemma DropIsNotBeforeAdd(a: seq<Line>, b: seq<Line>)
    requires Script(a, b) != [] && Script(a, b)[0].Drop?
    ensures a != [] && (Script(a[1..], b) == [] || !Script(a[1..], b)[0].Add?)
  {
    if b != [] && |a| > 1 && a[1] != b[0] {
      LcsGrows(a, b[1..]);
      assert Lcs(a[1..], b) == Max(Lcs(a[1..][1..], b), Lcs(a[1..], b[1..]));
    }
  }

  /** Where lines are replaced, the added ones are printed before the dropped ones. */
  lemma {:induction false} AddedBeforeDropped(a: seq<Line>, b: seq<Line>, k: nat)
    requires k + 1 < |Script(a, b)|
    ensures !(Script(a, b)[k].Drop? && Script(a, b)[k + 1].Add?)
    decreases |a| + |b|
  {
    if a != [] && b != [] && a[0] == b[0] {
      if k > 0 {
        AddedBeforeDropped(a[1..], b[1..], k - 1);
      }
    } else if b != [] && (a == [] || Lcs(a, b[1..]) >= Lcs(a[1..], b)) {
      if k > 0 {
        AddedBeforeDropped(a, b[1..], k - 1);
      }
    } else {
      DropIsNotBeforeAdd(a, b);
      if k > 0 {
        AddedBeforeDropped(a[1..], b, k - 1);
      }
    }
  }

  /** The line as it is printed: a sign, a space, and the text. */
  predicate IsMarked(line: Line, e: Edit) {
    |line| >= 2 && line[2..] == e.line
    && line[..2] == if e.Keep? then "  " else if e.Add? then "+ " else "- "
  }

  /** A marked line; and no dropped line with an added one right after it. */
  predicate WellMarked(line: Line) {
    |line| >= 2 && line[..2] in {"  ", "+ ", "- "}
  }

  predicate DropThenAdd(line: Line, next: Line) {
    |line| >= 2 && |next| >= 2 && line[..2] == "- " && next[..2] == "+ "
  }

  lemma {:induction false} PrintAt(script: seq<Edit>, k: nat)
    requires k < |script|
    ensures |Print(script)| == |script| && Print(script)[k] == Printed(script[k])
    ensures IsMarked(Print(script)[k], script[k])
  {
    PrintLength(script);
    if k > 0 {
      PrintAt(script[1..], k - 1);
    }
  }

  lemma {:induction false} PrintLength(script: seq<Edit>)
    ensures |Print(script)| == |script|
  {
    if script != [] {
      PrintLength(script[1..]);
    }
  }

  /**
    A diff is its two header lines and then one line per edit, each marked with a sign and a space,
    no added line directly after a dropped one.
  */
  lemma DiffLines(beforeText: string, afterText: string)
    ensures var lines := Split(DiffText(beforeText, afterText));
      && |lines| > 2 && lines[0] == "--- before" && lines[1] == "+++ after"
      && (forall k :: 2 <= k < |lines| ==> WellMarked(lines[k]))
      && (forall k :: 2 <= k < |lines| - 1 ==> !DropThenAdd(lines[k], lines[k + 1]))
  {
    var script := Script(Split(beforeText), Split(afterText));
    var lines := HEADER + Print(script);
    SplitThenJoin(beforeText);
    SplitThenJoin(afterText);
    ScriptEdits(Split(beforeText), Split(afterText));
    PrintHasNoNewline(script);
    HeaderLines();
    JoinThenSplit(lines);
    PrintLength(script);
    forall k | 2 <= k < |lines| ensures WellMarked(lines[k]) {
      PrintAt(script, k - 2);
    }
    forall k | 2 <= k < |lines| - 1 ensures !DropThenAdd(lines[k], lines[k + 1]) {
      PrintAt(script, k - 2);
      PrintAt(script, k - 1);
      AddedBeforeDropped(Split(beforeText), Split(afterText), k - 2);
    }
  }
}
