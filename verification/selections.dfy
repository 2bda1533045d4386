/**
 * The selected-line counter of the extension: the active editor's selections,
 * each a (start, end) pair of positions, and the number of lines they span.
 */
module Selections {
  import opened Wrappers

  /** A position in a document: a zero-based line and a column on that line. */
  datatype Position = Position(line: int, character: int)

  /** One selection range; the host reports its start and its end position. */
  datatype Selection = Selection(start: Position, end: Position)

  /** The part of a text editor the counter reads: its (possibly several) selections. */
  datatype TextEditor = TextEditor(selections: seq<Selection>)

  /** What one selection adds to the count: the number of line breaks it crosses. */
  function LineSpan(s: Selection): (r: int)
    ensures r == 0 <==> s.start.line == s.end.line
    ensures r >= 0 <==> Ordered(s)
  {
    s.end.line - s.start.line
  }

  /** The host's guarantee that a selection does not end before it starts. */
  predicate Ordered(s: Selection) {
    s.start.line <= s.end.line
  }

  predicate AllOrdered(sels: seq<Selection>) {
    forall i :: 0 <= i < |sels| ==> Ordered(sels[i])
  }

  /** Reference definition of the count: the sum of the line spans, from the right. */
  function TotalSpan(sels: seq<Selection>): int {
    if sels == [] then 0 else LineSpan(sels[0]) + TotalSpan(sels[1..])
  }

  /**
   * The `reduce` over the selections: a left fold that adds each selection's
   * line span to the running total `acc`, starting from the first selection.
   */
  function FoldSpans(sels: seq<Selection>, acc: int): (r: int)
    ensures r == acc + TotalSpan(sels)
  {
    if sels == [] then acc else FoldSpans(sels[1..], acc + LineSpan(sels[0]))
  }

  /** The number of selected lines: 0 without an editor, otherwise the fold started at 0. */
  function NumberOfSelectedLines(editor: Option<TextEditor>): (n: int)
    ensures editor.None? ==> n == 0
    ensures editor.Some? && editor.value.selections == [] ==> n == 0
    ensures editor.Some? ==> n == TotalSpan(editor.value.selections)
  {
    var lines := 0;
    match editor
    case None => lines
    case Some(e) => FoldSpans(e.selections, lines)
  }

  /** The count over a concatenation is the sum of the counts of the parts. */
  lemma {:induction false} TotalSpanAppend(a: seq<Selection>, b: seq<Selection>)
    ensures TotalSpan(a + b) == TotalSpan(a) + TotalSpan(b)
    decreases |a|
  {
    if a == [] {
      assert a + b == b;
    } else {
      assert (a + b)[1..] == a[1..] + b;
      TotalSpanAppend(a[1..], b);
    }
  }

  /** Taking the selection at index `i` out of the list takes its line span out of the count. */
  lemma TotalSpanRemove(b: seq<Selection>, i: nat)
    requires i < |b|
    ensures TotalSpan(b) == LineSpan(b[i]) + TotalSpan(b[..i] + b[i + 1..])
  {
    assert b[..i] + b[i..] == b;
    TotalSpanAppend(b[..i], b[i..]);
    assert b[i..][1..] == b[i + 1..];
    TotalSpanAppend(b[..i], b[i + 1..]);
  }

  /** Reordering the selections (any permutation) does not change the count. */
  lemma {:induction false} TotalSpanPermutation(a: seq<Selection>, b: seq<Selection>)
    requires multiset(a) == multiset(b)
    ensures TotalSpan(a) == TotalSpan(b)
    decreases |a|
  {
    if a == [] {
      assert |b| == |multiset(b)| == 0;
    } else {
      var x := a[0];
      assert x in multiset(b);
      var i :| 0 <= i < |b| && b[i] == x;
      var rest := b[..i] + b[i + 1..];
      MultisetRemove(b, i);
      assert a == [x] + a[1..];
      assert multiset(a[1..]) == multiset(a) - multiset{x};
      TotalSpanPermutation(a[1..], rest);
      TotalSpanRemove(b, i);
    }
  }

  lemma MultisetRemove(b: seq<Selection>, i: nat)
    requires i < |b|
    ensures multiset(b[..i] + b[i + 1..]) == multiset(b) - multiset{b[i]}
  {
    assert b == b[..i] + [b[i]] + b[i + 1..];
  }

  /** The count depends on the line numbers only, never on the column offsets. */
  lemma {:induction false} TotalSpanIgnoresColumns(a: seq<Selection>, b: seq<Selection>)
    requires |a| == |b|
    requires forall i :: 0 <= i < |a| ==>
      a[i].start.line == b[i].start.line && a[i].end.line == b[i].end.line
    ensures TotalSpan(a) == TotalSpan(b)
    decreases |a|
  {
    if a != [] {
      TotalSpanIgnoresColumns(a[1..], b[1..]);
    }
  }

  /** Adding a selection that starts and ends on one line leaves the count as it was. */
  lemma SingleLineSelectionAddsNothing(a: seq<Selection>, s: Selection, b: seq<Selection>)
    requires s.start.line == s.end.line
    ensures NumberOfSelectedLines(Some(TextEditor(a + [s] + b)))
         == NumberOfSelectedLines(Some(TextEditor(a + b)))
  {
    TotalSpanAppend(a + [s], b);
    TotalSpanAppend(a, [s]);
    TotalSpanAppend(a, b);
    assert TotalSpan([s]) == LineSpan(s);
  }

  /**
   * When every selection is ordered, the total is non-negative, and it is
   * positive exactly when some selection spans more than one line.
   */
  lemma {:induction false} TotalSpanSign(sels: seq<Selection>)
    requires AllOrdered(sels)
    ensures TotalSpan(sels) >= 0
    ensures TotalSpan(sels) > 0 <==>
      exists i :: 0 <= i < |sels| && sels[i].start.line < sels[i].end.line
    decreases |sels|
  {
    if sels != [] {
      TotalSpanSign(sels[1..]);
      if exists i :: 0 <= i < |sels[1..]| && sels[1..][i].start.line < sels[1..][i].end.line {
        var i :| 0 <= i < |sels[1..]| && sels[1..][i].start.line < sels[1..][i].end.line;
        assert sels[i + 1] == sels[1..][i];
      }
      if exists i :: 0 <= i < |sels| && sels[i].start.line < sels[i].end.line {
        var i :| 0 <= i < |sels| && sels[i].start.line < sels[i].end.line;
        if i > 0 {
          assert sels[1..][i - 1] == sels[i];
        }
      }
    }
  }

  /** With ordered selections the count is never negative. */
  lemma CountNonNegative(editor: Option<TextEditor>)
    requires editor.Some? ==> AllOrdered(editor.value.selections)
    ensures NumberOfSelectedLines(editor) >= 0
  {
    if editor.Some? {
      TotalSpanSign(editor.value.selections);
    }
  }

  /** Two ranges spanning lines 1-4 and 10-12 count (4 - 1) + (12 - 10) = 5 lines. */
  lemma TwoRangesScenario()
    ensures NumberOfSelectedLines(Some(TextEditor([
      Selection(Position(1, 0), Position(4, 0)),
      Selection(Position(10, 0), Position(12, 0))]))) == 5
  {
  }
}
