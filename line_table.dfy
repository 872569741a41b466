/** The line table of the front end (src/frontend/mod.rs): a growing list of
    `[start, end]` character ranges, one per source line, searched linearly
    for the first line whose closed range holds a given offset. */
module Lines {
  import opened Base

  /** `LineInfo`: the bounds the lexer recorded for one line. */
  datatype LineInfo = LineInfo(start: nat, end: nat)

  /** The closed range `[start, end]` of a line holds the offset. */
  predicate Contains(line: LineInfo, position: nat) {
    line.start <= position <= line.end
  }

  /** The index of the first line holding `position`, or the number of
      lines when none does. */
  function LineIndexOf(lines: seq<LineInfo>, position: nat): (k: nat)
    ensures k <= |lines|
    ensures k < |lines| ==> Contains(lines[k], position)
    ensures forall j :: 0 <= j < k ==> !Contains(lines[j], position)
  {
    if lines == [] then 0
    else if Contains(lines[0], position) then 0
    else 1 + LineIndexOf(lines[1..], position)
  }

  /** The bounds of that first line, or `(0, 0)` when no line holds the
      offset. */
  function LineOf(lines: seq<LineInfo>, position: nat): (bounds: (nat, nat))
    ensures LineIndexOf(lines, position) < |lines| ==>
      bounds == (lines[LineIndexOf(lines, position)].start, lines[LineIndexOf(lines, position)].end)
    ensures LineIndexOf(lines, position) < |lines| ==>
      Contains(LineInfo(bounds.0, bounds.1), position)
    ensures LineIndexOf(lines, position) == |lines| ==> bounds == (0, 0)
  {
    var k := LineIndexOf(lines, position);
    if k < |lines| then (lines[k].start, lines[k].end) else (0, 0)
  }

  /** The search finds a line exactly when some line holds the offset, and
      then never one after a line that holds it. */
  lemma {:induction false} LineIndexOfFirst(lines: seq<LineInfo>, position: nat, j: nat)
    requires j < |lines| && Contains(lines[j], position)
    ensures LineIndexOf(lines, position) <= j < |lines|
  {
    if !Contains(lines[0], position) {
      LineIndexOfFirst(lines[1..], position, j - 1);
    }
  }

  /** Lines chained the way the lexer records them (each starts where the
      previous one ended) share their boundary offset, and that offset is
      attributed to the earlier of the two lines. */
  lemma SharedBoundaryToEarlierLine(lines: seq<LineInfo>, k: nat)
    requires k + 1 < |lines|
    requires lines[k].start <= lines[k].end == lines[k + 1].start
    ensures LineIndexOf(lines, lines[k].end) <= k
    ensures LineIndexOf(lines, lines[k].end) != k + 1
  {
    LineIndexOfFirst(lines, lines[k].end, k);
  }

  /** Appending a line leaves the answer for every offset some earlier line
      holds unchanged. */
  lemma {:induction false} LineIndexOfAppend(lines: seq<LineInfo>, line: LineInfo, position: nat)
    ensures LineIndexOf(lines, position) < |lines| ==>
      LineIndexOf(lines + [line], position) == LineIndexOf(lines, position)
    ensures LineIndexOf(lines, position) == |lines| ==>
      LineIndexOf(lines + [line], position) == if Contains(line, position) then |lines| else |lines| + 1
  {
    if lines != [] {
      assert (lines + [line])[1..] == lines[1..] + [line];
      if !Contains(lines[0], position) {
        LineIndexOfAppend(lines[1..], line, position);
      }
    }
  }

  /** `LineTable`: the list of lines, pushed to by the lexer and read by
      the resolver and the error report. */
  class LineTable {
    var lines: seq<LineInfo>

    /** `LineTable::new`: no lines. */
    constructor ()
      ensures lines == []
    {
      lines := [];
    }

    /** `push`: the line is appended and the earlier ones are kept. */
    method Push(value: LineInfo)
      modifies this
      ensures lines == old(lines) + [value]
    {
      lines := lines + [value];
    }

    /** `get_line_index_of`: a linear search with early return. */
    method GetLineIndexOf(position: nat) returns (index: nat)
      ensures index == LineIndexOf(lines, position)
    {
      index := 0;
      while index < |lines|
        invariant index <= |lines|
        invariant forall j :: 0 <= j < index ==> !Contains(lines[j], position)
      {
        if position >= lines[index].start && position <= lines[index].end {
          LineIndexOfFirst(lines, position, index);
          return;
        }
        index := index + 1;
      }
      LineIndexOfNone(lines, position);
    }

    /** `get_line_of`: the same search, returning the bounds. */
    method GetLineOf(position: nat) returns (bounds: (nat, nat))
      ensures bounds == LineOf(lines, position)
    {
      for index := 0 to |lines|
        invariant forall j :: 0 <= j < index ==> !Contains(lines[j], position)
      {
        var line := lines[index];
        if position >= line.start && position <= line.end {
          LineIndexOfFirst(lines, position, index);
          return (line.start, line.end);
        }
      }
      LineIndexOfNone(lines, position);
      return (0, 0);
    }
  }

  /** When no line holds the offset, the search runs off the end. */
  lemma {:induction false} LineIndexOfNone(lines: seq<LineInfo>, position: nat)
    requires forall j :: 0 <= j < |lines| ==> !Contains(lines[j], position)
    ensures LineIndexOf(lines, position) == |lines|
  {
    if lines != [] {
      LineIndexOfNone(lines[1..], position);
    }
  }
}
