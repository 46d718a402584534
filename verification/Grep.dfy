/** Rendering one file's matches with context (`harness/tools/builtins/grep.py`). */
module Grep {

  /** `Row` stands for `rel<sep>number<sep>text`, `Divider` for `--`. */
  datatype OutputLine = Divider | Row(separator: char, number: nat, text: string)

  datatype Interval = Interval(lo: nat, hi: nat)

  /** Line numbers as the caller enumerates them: ascending, from 1. */
  predicate MatchNumbers(matches: seq<nat>, total: nat) {
    && (forall i :: 0 <= i < |matches| ==> 1 <= matches[i] <= total)
    && forall i, j :: 0 <= i < j < |matches| ==> matches[i] < matches[j]
  }

  /** Is line `n` within `context` of one of the first `k` matches? */
  predicate NearFirst(matches: seq<nat>, k: nat, context: nat, n: int)
    requires k <= |matches|
  {
    exists i :: 0 <= i < k && matches[i] - context <= n <= matches[i] + context
  }

  /** Is line `n` within `context` of a match? */
  predicate Near(matches: seq<nat>, context: nat, n: int) { NearFirst(matches, |matches|, context, n) }

  function RowOf(lines: seq<string>, matches: seq<nat>, n: nat): OutputLine
    requires 1 <= n <= |lines|
  {
    Row(if n in matches then ':' else '-', n, lines[n - 1])
  }

  /** What the first `n` lines of the file contribute, line by line. */
  function Expected(lines: seq<string>, matches: seq<nat>, context: nat, n: nat): seq<OutputLine>
    requires n <= |lines|
  {
    if n == 0 then []
    else
      var before := Expected(lines, matches, context, n - 1);
      if !Near(matches, context, n) then before
      else if context > 0 && before != [] && !Near(matches, context, n - 1)
        then before + [Divider, RowOf(lines, matches, n)]
      else before + [RowOf(lines, matches, n)]
  }

  // ----- merging the windows -----

  predicate WellSpaced(intervals: seq<Interval>, total: nat) {
    && (forall i :: 0 <= i < |intervals| ==> 1 <= intervals[i].lo <= intervals[i].hi <= total)
    && forall i, j :: 0 <= i < j < |intervals| ==> intervals[i].hi + 1 < intervals[j].lo
  }

  predicate Covered(intervals: seq<Interval>, n: int) {
    exists i :: 0 <= i < |intervals| && intervals[i].lo <= n <= intervals[i].hi
  }

  function Max(a: int, b: int): int { if a < b then b else a }

  function Min(a: int, b: int): int { if a < b then a else b }

  /** The intervals cover exactly the lines near one of the first `k` matches, and the last one
      ends where the last match's window ends. */
  ghost predicate Merged(intervals: seq<Interval>, matches: seq<nat>, k: nat, context: nat, total: nat)
    requires k <= |matches|
  {
    && WellSpaced(intervals, total)
    && (forall n :: 1 <= n <= total ==> (Covered(intervals, n) <==> NearFirst(matches, k, context, n)))
    && (intervals == [] <==> k == 0)
    && (k > 0 ==>
          && intervals[|intervals| - 1].hi == Min(total, matches[k - 1] + context)
          && intervals[|intervals| - 1].lo <= matches[k - 1])
  }

  lemma NearSnoc(matches: seq<nat>, k: nat, context: nat, n: int)
    requires k < |matches|
    ensures NearFirst(matches, k + 1, context, n) <==>
            NearFirst(matches, k, context, n) || matches[k] - context <= n <= matches[k] + context
  {
  }

  lemma CoveredSnoc(intervals: seq<Interval>, x: Interval, n: int)
    ensures Covered(intervals + [x], n) <==> Covered(intervals, n) || x.lo <= n <= x.hi
  {
    var all := intervals + [x];
    if Covered(intervals, n) {
      var i :| 0 <= i < |intervals| && intervals[i].lo <= n <= intervals[i].hi;
      assert all[i] == intervals[i];
    }
    assert all[|intervals|] == x;
  }

  /** A new window is either joined to the last interval or put behind it. */
  function AddWindow(intervals: seq<Interval>, lo: nat, hi: nat): seq<Interval> {
    if intervals != [] && lo <= intervals[|intervals| - 1].hi + 1 then
      var last := intervals[|intervals| - 1];
      intervals[..|intervals| - 1] + [Interval(last.lo, Max(last.hi, hi))]
    else intervals + [Interval(lo, hi)]
  }

  /** Lines from the last interval's start up to the new match's window are near the old match or
      in the new window. */
  lemma LastWindowReaches(last: Interval, matches: seq<nat>, k: nat, context: nat, total: nat, n: int)
    requires MatchNumbers(matches, total) && 0 < k < |matches| && 1 <= n <= total
    requires last.lo <= matches[k - 1] && last.hi == Min(total, matches[k - 1] + context)
    requires Max(1, matches[k] - context) <= last.hi + 1
    ensures last.lo <= n <= Max(last.hi, Min(total, matches[k] + context)) <==>
            last.lo <= n <= last.hi || (last.lo <= n && matches[k] - context <= n <= matches[k] + context)
    ensures matches[k] - context <= n <= matches[k] + context && n < last.lo ==> NearFirst(matches, k, context, n)
  {
  }

  lemma AddWindowMerges(intervals: seq<Interval>, matches: seq<nat>, k: nat, context: nat, total: nat)
    requires MatchNumbers(matches, total) && k < |matches| && Merged(intervals, matches, k, context, total)
    ensures 1 <= matches[k] <= total
    ensures Merged(AddWindow(intervals, Max(1, matches[k] - context), Min(total, matches[k] + context)),
                   matches, k + 1, context, total)
  {
    var lo, hi := Max(1, matches[k] - context), Min(total, matches[k] + context);
    var after := AddWindow(intervals, lo, hi);
    forall n | 1 <= n <= total ensures Covered(after, n) <==> NearFirst(matches, k + 1, context, n) {
      NearSnoc(matches, k, context, n);
      if intervals != [] && lo <= intervals[|intervals| - 1].hi + 1 {
        var init, last := intervals[..|intervals| - 1], intervals[|intervals| - 1];
        assert intervals == init + [last];
        CoveredSnoc(init, last, n);
        CoveredSnoc(init, Interval(last.lo, Max(last.hi, hi)), n);
        LastWindowReaches(last, matches, k, context, total, n);
      } else {
        CoveredSnoc(intervals, Interval(lo, hi), n);
      }
    }
  }

  method MergeWindows(matches: seq<nat>, context: nat, total: nat) returns (intervals: seq<Interval>)
    requires MatchNumbers(matches, total)
    ensures Merged(intervals, matches, |matches|, context, total)
  {
    intervals := [];
    for k := 0 to |matches|
      invariant Merged(intervals, matches, k, context, total)
    {
      AddWindowMerges(intervals, matches, k, context, total);
      var lo, hi := Max(1, matches[k] - context), Min(total, matches[k] + context);
      if intervals != [] && lo <= intervals[|intervals| - 1].hi + 1 {
        var last := intervals[|intervals| - 1];
        intervals := intervals[..|intervals| - 1] + [Interval(last.lo, Max(last.hi, hi))];
      } else {
        intervals := intervals + [Interval(lo, hi)];
      }
    }
  }

  // ----- emitting the lines -----

  /** Which lines the `i`-th interval accounts for: its own, and none since the interval before. */
  lemma IntervalLines(intervals: seq<Interval>, total: nat, i: nat, n: nat)
    requires WellSpaced(intervals, total) && i <= |intervals|
    ensures i < |intervals| && intervals[i].lo <= n <= intervals[i].hi ==> Covered(intervals, n)
    ensures (i > 0 ==> intervals[i - 1].hi < n) && (i < |intervals| ==> n < intervals[i].lo) ==> !Covered(intervals, n)
  {
    if (i > 0 ==> intervals[i - 1].hi < n) && (i < |intervals| ==> n < intervals[i].lo) {
      forall k | 0 <= k < |intervals| ensures !(intervals[k].lo <= n <= intervals[k].hi) {
        if k < i - 1 {
          assert intervals[k].hi + 1 < intervals[i - 1].lo;
        } else if k > i {
          assert intervals[i].hi + 1 < intervals[k].lo;
        }
      }
    }
  }

  lemma {:induction false} ExpectedGap(lines: seq<string>, matches: seq<nat>, context: nat, a: nat, b: nat)
    requires a <= b <= |lines| && forall n :: a < n <= b ==> !Near(matches, context, n)
    ensures Expected(lines, matches, context, b) == Expected(lines, matches, context, a)
    decreases b - a
  {
    if a < b {
      ExpectedGap(lines, matches, context, a, b - 1);
    }
  }

  function EndOf(intervals: seq<Interval>, i: nat): nat
    requires i <= |intervals|
  {
    if i == 0 then 0 else intervals[i - 1].hi
  }

  /** Up to the next interval nothing more is shown. */
  lemma BeforeInterval(lines: seq<string>, matches: seq<nat>, context: nat, intervals: seq<Interval>, i: nat)
    requires Merged(intervals, matches, |matches|, context, |lines|) && i <= |intervals|
    ensures i > 0 ==> Expected(lines, matches, context, EndOf(intervals, i)) != []
    ensures var next := if i < |intervals| then intervals[i].lo - 1 else |lines|;
      && EndOf(intervals, i) <= next <= |lines|
      && Expected(lines, matches, context, next) == Expected(lines, matches, context, EndOf(intervals, i))
      && (i > 0 ==> Near(matches, context, EndOf(intervals, i)))
      && (i > 0 && i < |intervals| ==> !Near(matches, context, next))
  {
    var next := if i < |intervals| then intervals[i].lo - 1 else |lines|;
    forall n: nat | EndOf(intervals, i) < n <= next ensures !Near(matches, context, n) {
      IntervalLines(intervals, |lines|, i, n);
    }
    ExpectedGap(lines, matches, context, EndOf(intervals, i), next);
    if i > 0 {
      IntervalLines(intervals, |lines|, i - 1, EndOf(intervals, i));
    }
  }

  /** The `--` in front of every group but the first. */
  function Lead(i: nat, context: nat): seq<OutputLine> { if i > 0 && context > 0 then [Divider] else [] }

  /** A group's first line, with its divider. */
  lemma FirstOfInterval(lines: seq<string>, matches: seq<nat>, context: nat, intervals: seq<Interval>, i: nat)
    requires Merged(intervals, matches, |matches|, context, |lines|) && i < |intervals|
    ensures var lo := intervals[i].lo;
      Expected(lines, matches, context, lo) ==
      Expected(lines, matches, context, EndOf(intervals, i)) + Lead(i, context) + [RowOf(lines, matches, lo)]
  {
    var lo := intervals[i].lo;
    BeforeInterval(lines, matches, context, intervals, i);
    IntervalLines(intervals, |lines|, i, lo);
    var before := Expected(lines, matches, context, EndOf(intervals, i));
    if i > 0 && context > 0 {
      assert before + [Divider] + [RowOf(lines, matches, lo)] == before + [Divider, RowOf(lines, matches, lo)];
    }
  }

  lemma NextOfInterval(lines: seq<string>, matches: seq<nat>, context: nat, intervals: seq<Interval>, i: nat, n: nat)
    requires Merged(intervals, matches, |matches|, context, |lines|) && i < |intervals|
    requires intervals[i].lo < n <= intervals[i].hi
    ensures Expected(lines, matches, context, n) == Expected(lines, matches, context, n - 1) + [RowOf(lines, matches, n)]
  {
    IntervalLines(intervals, |lines|, i, n);
    IntervalLines(intervals, |lines|, i, n - 1);
  }

  /** A group's output before its line `n`. */
  function GroupBefore(lines: seq<string>, matches: seq<nat>, context: nat, intervals: seq<Interval>, i: nat, n: nat): seq<OutputLine>
    requires Merged(intervals, matches, |matches|, context, |lines|) && i < |intervals|
    requires intervals[i].lo <= n <= intervals[i].hi + 1
  {
    if n == intervals[i].lo then Expected(lines, matches, context, EndOf(intervals, i)) + Lead(i, context)
    else Expected(lines, matches, context, n - 1)
  }

  lemma GroupStep(lines: seq<string>, matches: seq<nat>, context: nat, intervals: seq<Interval>, i: nat, n: nat)
    requires Merged(intervals, matches, |matches|, context, |lines|) && i < |intervals|
    requires intervals[i].lo <= n <= intervals[i].hi
    ensures 1 <= n <= |lines|
    ensures GroupBefore(lines, matches, context, intervals, i, n) + [RowOf(lines, matches, n)] ==
            GroupBefore(lines, matches, context, intervals, i, n + 1)
  {
    if n == intervals[i].lo {
      FirstOfInterval(lines, matches, context, intervals, i);
    } else {
      NextOfInterval(lines, matches, context, intervals, i, n);
    }
  }

  /** One group's lines. */
  method RenderGroup(lines: seq<string>, matches: seq<nat>, context: nat, ghost intervals: seq<Interval>, ghost i: nat,
                     lo: nat, hi: nat, start: seq<OutputLine>)
    returns (out: seq<OutputLine>)
    requires Merged(intervals, matches, |matches|, context, |lines|) && i < |intervals| && intervals[i] == Interval(lo, hi)
    requires start == Expected(lines, matches, context, EndOf(intervals, i)) + Lead(i, context)
    ensures out == Expected(lines, matches, context, hi)
  {
    out := start;
    for n := lo to hi + 1
      invariant out == GroupBefore(lines, matches, context, intervals, i, n)
    {
      GroupStep(lines, matches, context, intervals, i, n);
      var separator := if n in matches then ':' else '-';
      out := out + [Row(separator, n, lines[n - 1])];
    }
  }

  /** One group, behind its divider. */
  method RenderInterval(lines: seq<string>, matches: seq<nat>, context: nat, intervals: seq<Interval>, i: nat,
                        start: seq<OutputLine>)
    returns (out: seq<OutputLine>)
    requires Merged(intervals, matches, |matches|, context, |lines|) && i < |intervals|
    requires start == Expected(lines, matches, context, EndOf(intervals, i))
    ensures out == Expected(lines, matches, context, EndOf(intervals, i + 1))
  {
    out := start;
    if i > 0 && context > 0 {
      out := out + [Divider];
    }
    out := RenderGroup(lines, matches, context, intervals, i, intervals[i].lo, intervals[i].hi, out);
  }

  /** `_render_matches`. */
  method RenderMatches(lines: seq<string>, matches: seq<nat>, context: nat) returns (out: seq<OutputLine>)
    requires MatchNumbers(matches, |lines|)
    ensures out == Expected(lines, matches, context, |lines|)
  {
    var intervals := MergeWindows(matches, context, |lines|);
    out := [];
    for i := 0 to |intervals|
      invariant out == Expected(lines, matches, context, EndOf(intervals, i))
    {
      out := RenderInterval(lines, matches, context, intervals, i, out);
    }
    BeforeInterval(lines, matches, context, intervals, |intervals|);
  }

  // ----- what the output means -----

  function Numbers(out: seq<OutputLine>): seq<nat> {
    if out == [] then []
    else Numbers(out[..|out| - 1]) + (if out[|out| - 1].Row? then [out[|out| - 1].number] else [])
  }

  predicate Ascending(ns: seq<nat>) { forall i, j :: 0 <= i < j < |ns| ==> ns[i] < ns[j] }

  /** A divider stands between two rows exactly where at least one line is skipped. */
  predicate DividersExact(out: seq<OutputLine>) {
    && (out != [] ==> out[0].Row? && out[|out| - 1].Row?)
    && (forall i :: 0 < i < |out| && out[i].Divider? ==>
          i < |out| - 1 && out[i - 1].Row? && out[i + 1].Row? && out[i - 1].number + 1 < out[i + 1].number)
    && forall i :: 0 < i < |out| && out[i - 1].Row? && out[i].Row? ==> out[i].number == out[i - 1].number + 1
  }

  lemma NumbersSnoc(out: seq<OutputLine>, x: OutputLine)
    ensures Numbers(out + [x]) == Numbers(out) + (if x.Row? then [x.number] else [])
  {
    assert (out + [x])[..|out|] == out;
  }

  lemma NumbersDivided(out: seq<OutputLine>, x: OutputLine)
    requires x.Row?
    ensures Numbers(out + [Divider, x]) == Numbers(out) + [x.number]
  {
    NumbersSnoc(out, Divider);
    NumbersSnoc(out + [Divider], x);
    assert out + [Divider, x] == out + [Divider] + [x];
  }

  lemma ShownSnoc(ns: seq<nat>, n: nat, matches: seq<nat>, context: nat)
    requires n > 0 && Ascending(ns) && Near(matches, context, n)
    requires forall k :: k in ns <==> 1 <= k <= n - 1 && Near(matches, context, k)
    ensures Ascending(ns + [n])
    ensures forall k :: k in ns + [n] <==> 1 <= k <= n && Near(matches, context, k)
  {
    assert forall i :: 0 <= i < |ns| ==> ns[i] in ns;
  }

  lemma ExpectedNumbers(lines: seq<string>, matches: seq<nat>, context: nat, n: nat)
    requires 0 < n <= |lines|
    ensures Numbers(Expected(lines, matches, context, n)) ==
            Numbers(Expected(lines, matches, context, n - 1)) + (if Near(matches, context, n) then [n] else [])
  {
    var before := Expected(lines, matches, context, n - 1);
    NumbersSnoc(before, RowOf(lines, matches, n));
    NumbersDivided(before, RowOf(lines, matches, n));
  }

  /** The line numbers shown are exactly those within `context` of a match, in ascending order. */
  lemma {:induction false} ShowsExactlyTheNearLines(lines: seq<string>, matches: seq<nat>, context: nat, n: nat)
    requires n <= |lines|
    ensures var ns := Numbers(Expected(lines, matches, context, n));
      Ascending(ns) && forall k :: k in ns <==> 1 <= k <= n && Near(matches, context, k)
  {
    if n > 0 {
      ShowsExactlyTheNearLines(lines, matches, context, n - 1);
      ExpectedNumbers(lines, matches, context, n);
      if Near(matches, context, n) {
        ShownSnoc(Numbers(Expected(lines, matches, context, n - 1)), n, matches, context);
      }
    }
  }

  /** Every row shows its own line, with `:` exactly on the matches. */
  lemma {:induction false} RowsAreTheirLines(lines: seq<string>, matches: seq<nat>, context: nat, n: nat)
    requires n <= |lines|
    ensures forall r :: r in Expected(lines, matches, context, n) && r.Row? ==>
              && 1 <= r.number <= n && r.text == lines[r.number - 1]
              && (r.separator == ':' <==> r.number in matches) && (r.separator == '-' <==> r.number !in matches)
  {
    if n > 0 {
      RowsAreTheirLines(lines, matches, context, n - 1);
    }
  }

  lemma {:induction false} LastRow(lines: seq<string>, matches: seq<nat>, context: nat, n: nat)
    requires n <= |lines|
    ensures var out := Expected(lines, matches, context, n);
      out != [] ==> out[0].Row? && out[|out| - 1].Row? && out[|out| - 1].number <= n
                    && Near(matches, context, out[|out| - 1].number)
                    && forall k :: out[|out| - 1].number < k <= n ==> !Near(matches, context, k)
    ensures Expected(lines, matches, context, n) == [] ==> forall k :: 1 <= k <= n ==> !Near(matches, context, k)
  {
    if n > 0 {
      LastRow(lines, matches, context, n - 1);
    }
  }

  lemma DividersJoined(before: seq<OutputLine>, row: OutputLine)
    requires DividersExact(before) && row.Row?
    requires before != [] ==> before[|before| - 1].number + 1 == row.number
    ensures DividersExact(before + [row])
  {
  }

  lemma DividersSkipped(before: seq<OutputLine>, row: OutputLine)
    requires DividersExact(before) && row.Row?
    requires before != [] && before[|before| - 1].number + 1 < row.number
    ensures DividersExact(before + [Divider, row])
  {
  }

  lemma {:induction false} NoDividers(lines: seq<string>, matches: seq<nat>, n: nat)
    requires n <= |lines|
    ensures Divider !in Expected(lines, matches, 0, n)
  {
    if n > 0 {
      NoDividers(lines, matches, n - 1);
    }
  }

  lemma {:induction false} DividersWithContext(lines: seq<string>, matches: seq<nat>, context: nat, n: nat)
    requires n <= |lines| && context > 0
    ensures DividersExact(Expected(lines, matches, context, n))
  {
    if n > 0 {
      DividersWithContext(lines, matches, context, n - 1);
      if Near(matches, context, n) {
        LastRow(lines, matches, context, n - 1);
        var before, row := Expected(lines, matches, context, n - 1), RowOf(lines, matches, n);
        if before != [] && !Near(matches, context, n - 1) {
          DividersSkipped(before, row);
        } else {
          DividersJoined(before, row);
        }
      }
    }
  }

  /** With context lines, `--` separates two groups exactly where at least one line is skipped;
      without, it never appears. */
  lemma DividersMarkGaps(lines: seq<string>, matches: seq<nat>, context: nat, n: nat)
    requires n <= |lines|
    ensures context > 0 ==> DividersExact(Expected(lines, matches, context, n))
    ensures context == 0 ==> Divider !in Expected(lines, matches, context, n)
  {
    if context == 0 {
      NoDividers(lines, matches, n);
    } else {
      DividersWithContext(lines, matches, context, n);
    }
  }
}
