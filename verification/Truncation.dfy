/** Cutting tool output on line boundaries and reading the omitted part back
    (`harness/tools/truncate.py`, `harness/tools/builtins/read.py`). */
module Truncation {
  import opened Domain

  // ----- lines -----

  predicate IsBreak(c: char) {
    || c == '\n' || c == '\r' || c as int == 0x0B || c as int == 0x0C
    || 0x1C <= c as int <= 0x1E || c as int == 0x85 || c as int == 0x2028 || c as int == 0x2029
  }

  /** A CR LF pair ends at `n`. */
  predicate PairAt(text: string, n: nat) { 2 <= n <= |text| && text[n - 2] == '\r' && text[n - 1] == '\n' }

  /** `text[..n]` is the first line: it ends with the first break, which a CR LF pair is as a whole, or with
      the text. */
  predicate IsFirstLine(text: string, n: nat) {
    && 0 < n <= |text|
    && (forall i :: 0 <= i < n - 1 ==> !IsBreak(text[i]) || (i == n - 2 && PairAt(text, n)))
    && (n < |text| ==> IsBreak(text[n - 1]))
    && !PairAt(text, n + 1)
  }

  /** The length of the first line, its terminator included; CR LF is one terminator. */
  function LineLength(text: string): (n: nat)
    requires text != ""
    ensures 0 < n <= |text|
    ensures forall i :: 0 <= i < n - 1 ==> text[i] != '\n'
  {
    if IsBreak(text[0]) then if text[0] == '\r' && |text| > 1 && text[1] == '\n' then 2 else 1
    else if |text| == 1 then 1
    else
      var rest := LineLength(text[1..]);
      assert forall i :: 1 <= i < |text| ==> text[i] == text[1..][i - 1];
      1 + rest
  }

  lemma {:induction false} LineLengthMeans(text: string)
    requires text != ""
    ensures IsFirstLine(text, LineLength(text))
  {
    if !IsBreak(text[0]) && |text| > 1 {
      LineLengthMeans(text[1..]);
      assert forall i :: 1 <= i < |text| ==> text[i] == text[1..][i - 1];
    }
  }

  /** There is only one first line. */
  lemma FirstLineIsUnique(text: string, m: nat, n: nat)
    requires IsFirstLine(text, m) && IsFirstLine(text, n)
    ensures m == n
  {
  }

  /** `str.splitlines(keepends=True)`. */
  function SplitLines(text: string): (lines: seq<string>)
    ensures forall l :: l in lines ==> l != ""
    ensures Join(lines) == text
  {
    if text == "" then []
    else
      var n := LineLength(text);
      assert Join(SplitLines(text[n..])) == text[n..];
      [text[..n]] + SplitLines(text[n..])
  }

  function Join(lines: seq<string>): string {
    if lines == [] then "" else lines[0] + Join(lines[1..])
  }

  /** Each line of a text ends with its only break, a CR LF pair counting as one; only the last may lack it;
      and no pair is torn apart. */
  predicate AreLines(lines: seq<string>) {
    && (forall k :: 0 <= k < |lines| ==> lines[k] != "" && IsFirstLine(lines[k], |lines[k]|))
    && (forall k :: 0 <= k < |lines| - 1 ==> IsBreak(lines[k][|lines[k]| - 1]))
    && (forall k :: 0 <= k < |lines| - 1 ==> !(lines[k][|lines[k]| - 1] == '\r' && lines[k + 1][0] == '\n'))
  }

  lemma FirstLineAlone(text: string, n: nat)
    requires IsFirstLine(text, n)
    ensures IsFirstLine(text[..n], n)
    ensures n < |text| ==> IsBreak(text[..n][n - 1]) && !(text[..n][n - 1] == '\r' && text[n..][0] == '\n')
  {
    assert forall i :: 0 <= i < n ==> text[..n][i] == text[i];
    assert n < |text| ==> text[n..][0] == text[n];
    assert PairAt(text, n) ==> PairAt(text[..n], n);
  }

  lemma {:induction false} LinesEndAtBreaks(text: string)
    ensures AreLines(SplitLines(text))
  {
    if text != "" {
      var n := LineLength(text);
      var rest := SplitLines(text[n..]);
      LinesEndAtBreaks(text[n..]);
      LineLengthMeans(text);
      FirstLineAlone(text, n);
      if rest != [] {
        assert Join(rest) == rest[0] + Join(rest[1..]) && Join(rest)[0] == rest[0][0];
      }
    }
  }

  lemma {:induction false} JoinConcat(a: seq<string>, b: seq<string>)
    ensures Join(a + b) == Join(a) + Join(b)
  {
    if a == [] {
      assert a + b == b;
    } else {
      JoinConcat(a[1..], b);
      assert (a + b)[0] == a[0] && (a + b)[1..] == a[1..] + b;
      TextAssoc(a[0], Join(a[1..]), Join(b));
    }
  }

  lemma TextAssoc(a: string, b: string, c: string)
    ensures a + b + c == a + (b + c)
  {
  }

  lemma JoinSplit(lines: seq<string>, k: nat)
    requires k <= |lines|
    ensures Join(lines) == Join(lines[..k]) + Join(lines[k..])
  {
    JoinConcat(lines[..k], lines[k..]);
    assert lines == lines[..k] + lines[k..];
  }

  lemma JoinSlice(lines: seq<string>, i: nat, j: nat)
    requires i <= j <= |lines|
    ensures Join(lines[i..]) == Join(lines[i..j]) + Join(lines[j..])
  {
    JoinConcat(lines[i..j], lines[j..]);
    assert lines[i..] == lines[i..j] + lines[j..];
  }

  lemma JoinPrefixGrows(lines: seq<string>, k: nat)
    requires k < |lines|
    ensures |Join(lines[..k + 1])| == |Join(lines[..k])| + |lines[k]|
  {
    JoinConcat(lines[..k], [lines[k]]);
    assert lines[..k + 1] == lines[..k] + [lines[k]];
    assert Join([lines[k]]) == lines[k] + Join([]);
  }

  lemma JoinSuffixGrows(lines: seq<string>, k: nat)
    requires k < |lines|
    ensures |Join(lines[k..])| == |lines[k]| + |Join(lines[k + 1..])|
  {
    assert lines[k..][1..] == lines[k + 1..];
  }

  lemma NonEmptyJoin(lines: seq<string>)
    requires lines != [] && forall l :: l in lines ==> l != ""
    ensures Join(lines) != ""
  {
    assert lines[0] in lines;
  }

  // ----- truncation -----

  /** What is returned: the text itself, or head and tail around a notice that reports how many
      characters were omitted and, if known, the first line that was. */
  datatype Output = Whole(text: string) | Cut(head: string, tail: string, omitted: int, offset: Option<nat>)

  /** `head` is the longest run of leading lines within its budget, but at least one line. */
  predicate IsHead(lines: seq<string>, headEnd: nat, budget: nat) {
    && 0 < headEnd < |lines|
    && (headEnd == 1 || |Join(lines[..headEnd])| <= budget)
    && |Join(lines[..headEnd + 1])| > budget
  }

  /** The tail is the longest run of trailing lines after the head within its budget, but at least
      one line. */
  predicate IsTail(lines: seq<string>, headEnd: nat, tailStart: nat, budget: nat) {
    && headEnd <= tailStart < |lines|
    && (tailStart == |lines| - 1 || |Join(lines[tailStart..])| <= budget)
    && (tailStart > headEnd ==> |Join(lines[tailStart - 1..])| > budget)
  }

  /** The head loop. */
  method TakeHead(lines: seq<string>, budget: nat) returns (headEnd: nat)
    requires |lines| > 1 && |Join(lines)| > budget
    ensures IsHead(lines, headEnd, budget)
  {
    headEnd := 0;
    var headLen := 0;
    assert lines[..|lines|] == lines;
    while headEnd < |lines| && !(headEnd > 0 && headLen + |lines[headEnd]| > budget)
      invariant headEnd <= |lines| && headLen == |Join(lines[..headEnd])|
      invariant headEnd > 1 ==> headLen <= budget
    {
      JoinPrefixGrows(lines, headEnd);
      headLen := headLen + |lines[headEnd]|;
      headEnd := headEnd + 1;
    }
    if headEnd < |lines| {
      JoinPrefixGrows(lines, headEnd);
    }
  }

  /** The tail loop, from the last line back to the head. */
  method TakeTail(lines: seq<string>, headEnd: nat, budget: nat) returns (tailStart: nat)
    requires headEnd < |lines| && forall l :: l in lines ==> l != ""
    ensures IsTail(lines, headEnd, tailStart, budget)
  {
    tailStart := |lines|;
    var tailLen := 0;
    while tailStart > headEnd && !(tailLen > 0 && tailLen + |lines[tailStart - 1]| > budget)
      invariant headEnd <= tailStart <= |lines| && tailLen == |Join(lines[tailStart..])|
      invariant tailLen > 0 <==> tailStart < |lines|
      invariant tailStart < |lines| - 1 ==> tailLen <= budget
      decreases tailStart
    {
      JoinSuffixGrows(lines, tailStart - 1);
      assert lines[tailStart - 1] in lines;
      tailLen := tailLen + |lines[tailStart - 1]|;
      tailStart := tailStart - 1;
    }
    if tailStart > headEnd {
      JoinSuffixGrows(lines, tailStart - 1);
    }
  }

  function LastChars(text: string, n: nat): string {
    if n == 0 || n >= |text| then text else text[|text| - n..]
  }

  function CountLf(text: string): nat {
    if text == "" then 0 else (if text[0] == '\n' then 1 else 0) + CountLf(text[1..])
  }

  predicate LineCut(text: string, maxChars: nat, r: Output, headEnd: nat, tailStart: nat) {
    var lines := SplitLines(text);
    && IsHead(lines, headEnd, maxChars / 5) && IsTail(lines, headEnd, tailStart, maxChars - maxChars / 5)
    && r.Cut? && r.head == Join(lines[..headEnd]) && r.tail == Join(lines[tailStart..])
    && r.offset == (if tailStart > headEnd then Some(headEnd + 1) else None)
    && r.omitted == |text| - |r.head| - |r.tail|
  }

  /** The fallback on characters. */
  method CutOnChars(text: string, maxChars: nat) returns (r: Output)
    requires |text| > maxChars
    ensures r.Cut? && r.head == text[..maxChars / 5] && r.tail == LastChars(text, maxChars - maxChars / 5)
    ensures r.omitted == |text| - |r.head| - |r.tail|
    ensures |SplitLines(text)| == 1 ==> r.offset == Some(1)
  {
    var head, tail := text[..maxChars / 5], LastChars(text, maxChars - maxChars / 5);
    if |SplitLines(text)| == 1 {
      SingleLineHasNoInnerBreak(text, maxChars / 5);
    }
    r := Cut(head, tail, |text| - |head| - |tail|, Some(CountLf(head) + 1));
  }

  /** `truncate_tool_output`; the last `n` characters of a text are the whole text when n is 0.
      The fallback is taken for single lines only: head and tail never overlap. */
  method TruncateToolOutput(text: string, maxChars: nat) returns (r: Output)
    ensures |text| <= maxChars ==> r == Whole(text)
    ensures |text| > maxChars ==> r.Cut? && r.omitted == |text| - |r.head| - |r.tail|
    ensures |text| > maxChars && |SplitLines(text)| > 1 ==>
      exists headEnd, tailStart :: LineCut(text, maxChars, r, headEnd, tailStart)
    ensures |text| > maxChars && |SplitLines(text)| == 1 ==>
      r.head == text[..maxChars / 5] && r.tail == LastChars(text, maxChars - maxChars / 5) && r.offset == Some(1)
  {
    if |text| <= maxChars {
      return Whole(text);
    }
    var lines := SplitLines(text);
    var lineSplit := |lines| > 1;
    if lineSplit {
      var headEnd := TakeHead(lines, maxChars / 5);
      var tailStart := TakeTail(lines, headEnd, maxChars - maxChars / 5);
      if tailStart < headEnd {
        lineSplit := false;
      } else {
        var head, tail := Join(lines[..headEnd]), Join(lines[tailStart..]);
        r := Cut(head, tail, |text| - |head| - |tail|, if tailStart > headEnd then Some(headEnd + 1) else None);
        assert LineCut(text, maxChars, r, headEnd, tailStart);
      }
    }
    if !lineSplit {
      r := CutOnChars(text, maxChars);
    }
  }

  lemma {:induction false} NoLf(text: string)
    requires forall i :: 0 <= i < |text| ==> text[i] != '\n'
    ensures CountLf(text) == 0
  {
    if text != "" {
      NoLf(text[1..]);
    }
  }

  lemma SingleLineHasNoInnerBreak(text: string, n: nat)
    requires |SplitLines(text)| <= 1 && n < |text|
    ensures CountLf(text[..n]) == 0
  {
    var first := LineLength(text);
    assert SplitLines(text[first..]) == [];
    assert Join(SplitLines(text[first..])) == text[first..];
    NoLf(text[..n]);
  }

  // ----- reading a window -----

  datatype Window = PastEnd(total: nat) | Lines(first: nat, last: nat, total: nat, text: string, header: bool)

  /** The window of `read_file` before it is itself truncated; line numbers start at 1. */
  function ReadWindow(text: string, offset: Option<nat>, limit: Option<nat>): Window {
    var lines := SplitLines(text);
    var total := |lines|;
    var start := if offset.Some? && offset.value > 0 then offset.value - 1 else 0;
    if start >= total && start > 0 then PastEnd(total)
    else
      var end := if limit.None? || start + limit.value > total then total else start + limit.value;
      Lines(start + 1, end, total, Join(lines[start..end]), start > 0 || end < total)
  }

  /** A window is a run of whole lines from the offset on, as many as asked for and there are; past the end
      there is none; and the header stands exactly over a window that is not the whole text. */
  lemma WindowMeans(text: string, offset: Option<nat>, limit: Option<nat>)
    ensures var w, lines := ReadWindow(text, offset, limit), SplitLines(text);
      var from := if offset.None? || offset.value == 0 then 1 else offset.value;
      && (w.PastEnd? <==> from > |lines| && from > 1)
      && w.total == |lines|
      && (w.Lines? ==>
            && w.first == from && from - 1 <= w.last <= |lines|
            && (limit.None? ==> w.last == |lines|)
            && (limit.Some? ==> w.last - from + 1 <= limit.value && (w.last < |lines| ==> w.last - from + 1 == limit.value))
            && Join(lines[..from - 1]) + w.text + Join(lines[w.last..]) == text
            && (w.header <==> w.text != text))
  {
    var w, lines := ReadWindow(text, offset, limit), SplitLines(text);
    if w.Lines? {
      PartOfText(lines, w.first - 1, w.last);
    }
  }

  lemma NonEmptyPart(lines: seq<string>, i: nat, j: nat)
    requires i < j <= |lines| && forall l :: l in lines ==> l != ""
    ensures Join(lines[i..j]) != ""
  {
    assert lines[i..j][0] == lines[i] && lines[i] in lines;
  }

  /** Some of the lines, and whether they are all. */
  lemma PartOfText(lines: seq<string>, i: nat, j: nat)
    requires i <= j <= |lines| && forall l :: l in lines ==> l != ""
    ensures Join(lines[..i]) + Join(lines[i..j]) + Join(lines[j..]) == Join(lines)
    ensures Join(lines[i..j]) == Join(lines) <==> i == 0 && j == |lines|
  {
    ThreeParts(lines, i, j);
    if i > 0 {
      NonEmptyPart(lines, 0, i);
      assert lines[0..i] == lines[..i];
    }
    if j < |lines| {
      NonEmptyPart(lines, j, |lines|);
      assert lines[j..|lines|] == lines[j..];
    }
    if i == 0 && j == |lines| {
      assert lines[i..j] == lines;
    } else {
      LongerText(Join(lines[..i]), Join(lines[i..j]), Join(lines[j..]));
    }
  }

  lemma LongerText(a: string, b: string, c: string)
    requires a != "" || c != ""
    ensures a + b + c != b
  {
    assert |a + b + c| > |b|;
  }

  lemma ThreeParts(lines: seq<string>, i: nat, j: nat)
    requires i <= j <= |lines|
    ensures Join(lines[..i]) + Join(lines[i..]) == Join(lines)
    ensures Join(lines[..i]) + Join(lines[i..j]) + Join(lines[j..]) == Join(lines)
  {
    JoinSplit(lines, i);
    JoinSlice(lines, i, j);
    TextAssoc(Join(lines[..i]), Join(lines[i..j]), Join(lines[j..]));
  }

  /** Reading on from the reported offset continues exactly where the head stopped, and reading as
      many lines as were dropped returns exactly the omitted characters. */
  lemma ReadContinuesTheHead(text: string, maxChars: nat, r: Output, headEnd: nat, tailStart: nat)
    requires LineCut(text, maxChars, r, headEnd, tailStart) && r.offset.Some?
    ensures var rest := ReadWindow(text, r.offset, None);
      rest.Lines? && rest.header && r.head + rest.text == text
    ensures var middle := ReadWindow(text, r.offset, Some(tailStart - headEnd));
      && middle.Lines? && r.head + middle.text + r.tail == text
      && |middle.text| == r.omitted > 0
  {
    var lines := SplitLines(text);
    ThreeParts(lines, headEnd, tailStart);
    assert lines[headEnd..|lines|] == lines[headEnd..];
    assert lines[headEnd] in lines && lines[headEnd..tailStart][0] == lines[headEnd];
  }

  /** For a single line the reported offset leads back to the whole text, so reading on repeats the
      head: the head continues into the window only if the head is empty. */
  lemma SingleLineReadsItAll(text: string, maxChars: nat)
    requires |SplitLines(text)| == 1 && |text| > maxChars
    ensures ReadWindow(text, Some(1), None) == Lines(1, 1, 1, text, false)
    ensures text[..maxChars / 5] + ReadWindow(text, Some(1), None).text == text <==> maxChars < 5
  {
    var lines := SplitLines(text);
    assert lines[0..1] == lines;
    assert maxChars < 5 <==> |text[..maxChars / 5]| == 0;
    if |text[..maxChars / 5] + text| == |text| {
      assert text[..maxChars / 5] + text == text;
    }
  }

  /** Without an offset nothing was omitted. */
  lemma NoOffsetNothingOmitted(text: string, maxChars: nat, r: Output, headEnd: nat, tailStart: nat)
    requires LineCut(text, maxChars, r, headEnd, tailStart)
    ensures r.offset.None? <==> r.omitted == 0
    ensures r.offset.None? ==> r.head + r.tail == text
    ensures r.head != "" && r.tail != ""
  {
    var lines := SplitLines(text);
    ThreeParts(lines, headEnd, tailStart);
    assert forall l :: l in lines[..headEnd] ==> l in lines;
    assert forall l :: l in lines[tailStart..] ==> l in lines;
    NonEmptyJoin(lines[..headEnd]);
    NonEmptyJoin(lines[tailStart..]);
    if r.offset.Some? {
      ReadContinuesTheHead(text, maxChars, r, headEnd, tailStart);
    }
  }
}
