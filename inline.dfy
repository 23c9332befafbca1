/** The inline ("unified") diff printer: materialise both sides' lines, then
    write, hunk by hunk, a header, the before-context, all deletions, all
    additions, the after-context and a blank line. The standard output is the
    returned sequence of writes, one per `print!`/`println!`. */
module Inline {
  import opened InlineTypes
  import opened InlineLines
  import opened InlineRows
  import opened InlineRender

  method Print(lhsSrc: string, rhsSrc: string, opts: DisplayOptions, hunks: seq<Hunk>,
               info: FileInfo, c: Collaborators) returns (out: seq<string>)
    requires Renderable(hunks, Prepare(lhsSrc, rhsSrc, opts, c), opts, c)
    ensures out == Output(hunks, |hunks|, Prepare(lhsSrc, rhsSrc, opts, c), info, opts, c)
    ensures out == [] <==> hunks == []
  {
    var lhsColoredLines := Materialise(lhsSrc, Left, opts, c);
    var rhsColoredLines := Materialise(rhsSrc, Right, opts, c);
    ghost var p := Prepare(lhsSrc, rhsSrc, opts, c);
    out := [];

    for i := 0 to |hunks|
      invariant out == Output(hunks, i, p, info, opts, c)
    {
      OutputStep(hunks, i, p, info, opts, c);
      var hunkLines := hunks[i].lines;
      var beforeLines := c.beforeContext(hunkLines, 3);
      var afterLines := c.afterContext(beforeLines + hunkLines, c.maxLine(lhsSrc), c.maxLine(rhsSrc),
                                       opts.numContextLines);
      out := PrintHunk(out, i, |hunks|, hunkLines, beforeLines, afterLines, lhsColoredLines, rhsColoredLines,
                       info, opts, c);
    }
    if hunks != [] {
      AllRowsHeaders(hunks, |hunks|, p, opts, c);
    }
  }

  /** The body of the hunk loop: the writes for hunk number `i` (0-based) out
      of `total`, appended to `out0`. */
  method PrintHunk(out0: seq<string>, i: nat, total: nat, hunkLines: seq<LinePair>,
                   beforeLines: seq<LinePair>, afterLines: seq<LinePair>,
                   lhsColoredLines: seq<string>, rhsColoredLines: seq<string>,
                   info: FileInfo, opts: DisplayOptions, c: Collaborators) returns (out: seq<string>)
    requires HunkIndicesBelow(hunkLines, beforeLines, afterLines, lhsColoredLines, rhsColoredLines)
    ensures out == out0 + HunkWrites(i, total, hunkLines, beforeLines, afterLines,
                                     lhsColoredLines, rhsColoredLines, info, opts, c)
  {
    ghost var h := [RowText(Header(i + 1, total), info, opts, c)];
    out := out0 + [c.header(info.lhsDisplayPath, info.rhsDisplayPath, i + 1, total, info.langName, opts) + "\n"];
    assert out == out0 + h;
    out := PrintBeforeContext(out, beforeLines, lhsColoredLines, info, opts, c);
    ghost var q1 := PhaseWrites(beforeLines, Context, Left, lhsColoredLines, info, opts, c);
    out := PrintDeletions(out, hunkLines, lhsColoredLines, info, opts, c);
    ghost var q2 := PhaseWrites(hunkLines, Deletion, Left, lhsColoredLines, info, opts, c);
    out := PrintAdditions(out, hunkLines, rhsColoredLines, info, opts, c);
    ghost var q3 := PhaseWrites(hunkLines, Addition, Right, rhsColoredLines, info, opts, c);
    out := PrintAfterContext(out, afterLines, rhsColoredLines, info, opts, c);
    ghost var q4 := PhaseWrites(afterLines, Context, Right, rhsColoredLines, info, opts, c);
    out := out + ["\n"];
    assert out == out0 + h + q1 + q2 + q3 + q4 + ["\n"];
    HunkWritesPhases(i, total, hunkLines, beforeLines, afterLines, lhsColoredLines, rhsColoredLines, info, opts, c);
    ConcatAssoc(out0, h + q1 + q2 + q3 + q4, ["\n"]);
    ConcatAssoc(out0, h + q1 + q2 + q3, q4);
    ConcatAssoc(out0, h + q1 + q2, q3);
    ConcatAssoc(out0, h + q1, q2);
    ConcatAssoc(out0, h, q1);
  }

  lemma ConcatAssoc(a: seq<string>, b: seq<string>, c: seq<string>)
    ensures a + (b + c) == a + b + c
  {
  }

  /** Before-context: a left-side context row for each pair with a left index. */
  method PrintBeforeContext(out0: seq<string>, pairs: seq<LinePair>, lhsColoredLines: seq<string>,
                info: FileInfo, opts: DisplayOptions, c: Collaborators) returns (out: seq<string>)
    requires IndicesBelow(pairs, Left, |lhsColoredLines|)
    ensures out == out0 + PhaseWrites(pairs, Context, Left, lhsColoredLines, info, opts, c)
  {
    out := out0;
    for j := 0 to |pairs|
      invariant IndicesBelow(pairs[..j], Left, |lhsColoredLines|)
      invariant out == out0 + PhaseWrites(pairs[..j], Context, Left, lhsColoredLines, info, opts, c)
    {
      PhaseWritesStep(pairs, j, Context, Left, lhsColoredLines, info, opts, c);
      var written := WritePair(pairs[j], Context, Left, lhsColoredLines, info, opts, c);
      out := out + written;
    }
    assert pairs[..|pairs|] == pairs;
  }

  /** The deletion block: a left-side changed row for each hunk pair with a left index. */
  method PrintDeletions(out0: seq<string>, pairs: seq<LinePair>, lhsColoredLines: seq<string>,
                info: FileInfo, opts: DisplayOptions, c: Collaborators) returns (out: seq<string>)
    requires IndicesBelow(pairs, Left, |lhsColoredLines|)
    ensures out == out0 + PhaseWrites(pairs, Deletion, Left, lhsColoredLines, info, opts, c)
  {
    out := out0;
    for j := 0 to |pairs|
      invariant IndicesBelow(pairs[..j], Left, |lhsColoredLines|)
      invariant out == out0 + PhaseWrites(pairs[..j], Deletion, Left, lhsColoredLines, info, opts, c)
    {
      PhaseWritesStep(pairs, j, Deletion, Left, lhsColoredLines, info, opts, c);
      var written := WritePair(pairs[j], Deletion, Left, lhsColoredLines, info, opts, c);
      out := out + written;
    }
    assert pairs[..|pairs|] == pairs;
  }

  /** The addition block: a right-side changed row for each hunk pair with a right index. */
  method PrintAdditions(out0: seq<string>, pairs: seq<LinePair>, rhsColoredLines: seq<string>,
                info: FileInfo, opts: DisplayOptions, c: Collaborators) returns (out: seq<string>)
    requires IndicesBelow(pairs, Right, |rhsColoredLines|)
    ensures out == out0 + PhaseWrites(pairs, Addition, Right, rhsColoredLines, info, opts, c)
  {
    out := out0;
    for j := 0 to |pairs|
      invariant IndicesBelow(pairs[..j], Right, |rhsColoredLines|)
      invariant out == out0 + PhaseWrites(pairs[..j], Addition, Right, rhsColoredLines, info, opts, c)
    {
      PhaseWritesStep(pairs, j, Addition, Right, rhsColoredLines, info, opts, c);
      var written := WritePair(pairs[j], Addition, Right, rhsColoredLines, info, opts, c);
      out := out + written;
    }
    assert pairs[..|pairs|] == pairs;
  }

  /** After-context: a right-side context row for each pair with a right index. */
  method PrintAfterContext(out0: seq<string>, pairs: seq<LinePair>, rhsColoredLines: seq<string>,
                info: FileInfo, opts: DisplayOptions, c: Collaborators) returns (out: seq<string>)
    requires IndicesBelow(pairs, Right, |rhsColoredLines|)
    ensures out == out0 + PhaseWrites(pairs, Context, Right, rhsColoredLines, info, opts, c)
  {
    out := out0;
    for j := 0 to |pairs|
      invariant IndicesBelow(pairs[..j], Right, |rhsColoredLines|)
      invariant out == out0 + PhaseWrites(pairs[..j], Context, Right, rhsColoredLines, info, opts, c)
    {
      PhaseWritesStep(pairs, j, Context, Right, rhsColoredLines, info, opts, c);
      var written := WritePair(pairs[j], Context, Right, rhsColoredLines, info, opts, c);
      out := out + written;
    }
    assert pairs[..|pairs|] == pairs;
  }

  /** One iteration of a phase loop: for a pair with an index on `side`, the
      gutter is the phase's tag, the formatted line number and a closing '#',
      styled as changed unless the phase is context; a left row puts three
      spaces after it, a right row three spaces before it. A pair without an
      index on `side` writes nothing. */
  method WritePair(pair: LinePair, kind: Kind, side: Side, lines: seq<string>, info: FileInfo,
                   opts: DisplayOptions, c: Collaborators) returns (written: seq<string>)
    requires Below(pair.Index(side), |lines|)
    ensures written == Render(PairRow(pair, kind, side, lines), info, opts, c)
  {
    written := [];
    var line := pair.Index(side);
    var gutter := Tag(kind);
    if line.Some? {
      gutter := gutter + c.formatLineNum(line.value);
      gutter := gutter + "#";
      var styled := c.applyLineNumberColor(gutter, Changed(kind), side, opts);
      if side == Left {
        written := [styled + "   " + lines[line.value]];
      } else {
        written := ["   " + styled + lines[line.value]];
      }
    }
  }
}
