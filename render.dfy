/** The text of each write: the styled line-number gutter, the padding around
    it, and the header and blank lines. */
module InlineRender {
  import opened InlineTypes
  import opened InlineLines
  import opened InlineRows

  /** The display paths and language name the header shows. */
  datatype FileInfo = FileInfo(lhsDisplayPath: string, rhsDisplayPath: string, langName: string)

  /** The three spaces after a left gutter, or before a right one. */
  const Padding: string := "   "

  /** The prefix of a gutter label: "0#" for context, "-#" for a deletion and
      "+#" for an addition. */
  function Tag(kind: Kind): string
  {
    match kind
    case Context => "0#"
    case Deletion => "-#"
    case Addition => "+#"
  }

  /** Reads the row kind back from a label's prefix. */
  function ParseTag(s: string): (r: Option<Kind>)
    ensures r.Some? ==> Tag(r.value) == s
    ensures forall kind :: Tag(kind) == s ==> r == Some(kind)
  {
    if s == "0#" then Some(Context)
    else if s == "-#" then Some(Deletion)
    else if s == "+#" then Some(Addition)
    else None
  }

  /** The flag handed to the line-number styling: set for deletions and additions. */
  function Changed(kind: Kind): bool
  {
    kind != Context
  }

  /** The unstyled gutter label: tag, formatted line number, closing '#'. */
  function Label(kind: Kind, lineIndex: nat, formatLineNum: nat -> string): string
  {
    Tag(kind) + formatLineNum(lineIndex) + "#"
  }

  /** The text written for one row. A header is followed by a newline. A left
      row is the styled label, the padding, then the line; a right row is the
      padding, the styled label, then the line with nothing in between. */
  function RowText(row: Row, info: FileInfo, opts: DisplayOptions, c: Collaborators): string
  {
    match row
    case Header(number, total) =>
      c.header(info.lhsDisplayPath, info.rhsDisplayPath, number, total, info.langName, opts) + "\n"
    case Numbered(kind, side, lineIndex, content) =>
      var styled := c.applyLineNumberColor(Label(kind, lineIndex, c.formatLineNum), Changed(kind), side, opts);
      if side == Left then styled + Padding + content else Padding + styled + content
    case Blank => "\n"
  }

  /** The writes for a sequence of rows, one write per row, in row order. */
  function Render(rows: seq<Row>, info: FileInfo, opts: DisplayOptions, c: Collaborators): (out: seq<string>)
    ensures |out| == |rows|
  {
    if rows == [] then []
    else Render(rows[..|rows| - 1], info, opts, c) + [RowText(rows[|rows| - 1], info, opts, c)]
  }

  /** The k-th write is the text of the k-th row. */
  lemma {:induction false} RenderAt(rows: seq<Row>, info: FileInfo, opts: DisplayOptions, c: Collaborators)
    ensures forall k :: 0 <= k < |rows| ==> Render(rows, info, opts, c)[k] == RowText(rows[k], info, opts, c)
  {
    if rows != [] {
      var n := |rows| - 1;
      RenderAt(rows[..n], info, opts, c);
      assert forall k :: 0 <= k < n ==> rows[..n][k] == rows[k];
    }
  }

  /** Writing two row sequences one after the other gives the writes of their
      concatenation. */
  lemma {:induction false} RenderAppend(x: seq<Row>, y: seq<Row>, info: FileInfo, opts: DisplayOptions, c: Collaborators)
    ensures Render(x + y, info, opts, c) == Render(x, info, opts, c) + Render(y, info, opts, c)
  {
    if y == [] {
      assert x + y == x;
    } else {
      var n := |y| - 1;
      RenderAppend(x, y[..n], info, opts, c);
      assert (x + y)[..|x + y| - 1] == x + y[..n];
      assert (x + y)[|x + y| - 1] == y[n];
    }
  }

  /** The writes of one phase loop. */
  function PhaseWrites(pairs: seq<LinePair>, kind: Kind, side: Side, lines: seq<string>,
                       info: FileInfo, opts: DisplayOptions, c: Collaborators): seq<string>
    requires IndicesBelow(pairs, side, |lines|)
  {
    Render(SideRows(pairs, kind, side, lines), info, opts, c)
  }

  /** Visiting one more pair extends the writes of a phase by that pair's text. */
  lemma PhaseWritesStep(pairs: seq<LinePair>, j: nat, kind: Kind, side: Side, lines: seq<string>,
                        info: FileInfo, opts: DisplayOptions, c: Collaborators)
    requires IndicesBelow(pairs, side, |lines|) && j < |pairs|
    ensures IndicesBelow(pairs[..j], side, |lines|) && IndicesBelow(pairs[..j + 1], side, |lines|)
    ensures Below(pairs[j].Index(side), |lines|)
    ensures PhaseWrites(pairs[..j + 1], kind, side, lines, info, opts, c)
         == PhaseWrites(pairs[..j], kind, side, lines, info, opts, c)
          + Render(PairRow(pairs[j], kind, side, lines), info, opts, c)
  {
    SideRowsStep(pairs, j, kind, side, lines);
    RenderAppend(SideRows(pairs[..j], kind, side, lines), PairRow(pairs[j], kind, side, lines), info, opts, c);
  }

  /** The writes of one hunk. */
  function HunkWrites(i: nat, total: nat, pairs: seq<LinePair>, before: seq<LinePair>, after: seq<LinePair>,
                      lhs: seq<string>, rhs: seq<string>, info: FileInfo, opts: DisplayOptions, c: Collaborators)
    : seq<string>
    requires HunkIndicesBelow(pairs, before, after, lhs, rhs)
  {
    Render(HunkRows(i, total, pairs, before, after, lhs, rhs), info, opts, c)
  }

  /** A hunk's writes are its header line, its four phases in order, and a
      blank line. */
  lemma HunkWritesPhases(i: nat, total: nat, pairs: seq<LinePair>, before: seq<LinePair>, after: seq<LinePair>,
                         lhs: seq<string>, rhs: seq<string>, info: FileInfo, opts: DisplayOptions, c: Collaborators)
    requires HunkIndicesBelow(pairs, before, after, lhs, rhs)
    ensures HunkWrites(i, total, pairs, before, after, lhs, rhs, info, opts, c)
         == [RowText(Header(i + 1, total), info, opts, c)]
          + PhaseWrites(before, Context, Left, lhs, info, opts, c)
          + PhaseWrites(pairs, Deletion, Left, lhs, info, opts, c)
          + PhaseWrites(pairs, Addition, Right, rhs, info, opts, c)
          + PhaseWrites(after, Context, Right, rhs, info, opts, c)
          + ["\n"]
  {
    var h: seq<Row> := [Header(i + 1, total)];
    var b := SideRows(before, Context, Left, lhs);
    var d := SideRows(pairs, Deletion, Left, lhs);
    var a := SideRows(pairs, Addition, Right, rhs);
    var f := SideRows(after, Context, Right, rhs);
    assert Render(h, info, opts, c) == [RowText(Header(i + 1, total), info, opts, c)];
    assert Render([Blank], info, opts, c) == ["\n"];
    RenderAppend(h, b, info, opts, c);
    RenderAppend(h + b, d, info, opts, c);
    RenderAppend(h + b + d, a, info, opts, c);
    RenderAppend(h + b + d + a, f, info, opts, c);
    RenderAppend(h + b + d + a + f, [Blank], info, opts, c);
  }

  /** The writes for the first `k` hunks. */
  function Output(hunks: seq<Hunk>, k: nat, p: Prepared, info: FileInfo, opts: DisplayOptions, c: Collaborators)
    : seq<string>
    requires k <= |hunks| && Renderable(hunks, p, opts, c)
  {
    Render(AllRows(hunks, k, p, opts, c), info, opts, c)
  }

  lemma OutputStep(hunks: seq<Hunk>, k: nat, p: Prepared, info: FileInfo, opts: DisplayOptions, c: Collaborators)
    requires k < |hunks| && Renderable(hunks, p, opts, c)
    ensures HunkFits(hunks[k], p, opts, c)
    ensures Output(hunks, k + 1, p, info, opts, c)
         == Output(hunks, k, p, info, opts, c)
          + HunkWrites(k, |hunks|, hunks[k].lines, Before(hunks[k].lines, c), After(hunks[k].lines, p, opts, c),
                       p.lhsLines, p.rhsLines, info, opts, c)
  {
    assert HunkFits(hunks[k], p, opts, c);
    RenderAppend(AllRows(hunks, k, p, opts, c),
                 HunkRows(k, |hunks|, hunks[k].lines, Before(hunks[k].lines, c), After(hunks[k].lines, p, opts, c),
                          p.lhsLines, p.rhsLines), info, opts, c);
  }

  /** Where styling passes the label through unchanged (no colour), the line
      content starts at the same column on both sides, three past the label's
      width: on the left the label is at column 0 and the padding follows it, on
      the right the padding comes first and the label abuts the content. The
      kind of the row can be read back from the label's prefix. */
  lemma GutterLayout(row: Row, info: FileInfo, opts: DisplayOptions, c: Collaborators)
    requires row.Numbered?
    requires c.applyLineNumberColor(Label(row.kind, row.lineIndex, c.formatLineNum), Changed(row.kind), row.side, opts)
             == Label(row.kind, row.lineIndex, c.formatLineNum)
    ensures var text := RowText(row, info, opts, c);
      var gutter := Label(row.kind, row.lineIndex, c.formatLineNum);
      var w := |gutter|;
      && w >= 3
      && |text| == w + |Padding| + |row.content|
      && text[w + |Padding|..] == row.content
      && (row.side == Left ==> text[..w] == gutter && text[w..w + |Padding|] == Padding)
      && (row.side == Right ==> text[..|Padding|] == Padding && text[|Padding|..w + |Padding|] == gutter)
      && ParseTag(text[(if row.side == Left then 0 else |Padding|)..][..2]) == Some(row.kind)
  {
    var gutter := Label(row.kind, row.lineIndex, c.formatLineNum);
    var text := RowText(row, info, opts, c);
    var w := |gutter|;
    var o := if row.side == Left then 0 else |Padding|;
    if row.side == Left {
      assert text == gutter + Padding + row.content;
    } else {
      assert text == Padding + gutter + row.content;
    }
    assert text[o..][..2] == gutter[..2] == Tag(row.kind);
  }
}
