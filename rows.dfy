/** The rows `print` writes for each hunk, as records: which phase they belong
    to, which side and line they show, and in which order they come. */
module InlineRows {
  import opened InlineTypes
  import opened InlineLines

  /** What a numbered row shows: an unchanged context line, a deleted line or
      an added line. */
  datatype Kind = Context | Deletion | Addition

  /** One write of the printer: a hunk header, a numbered line, or the blank
      line that closes a hunk. */
  datatype Row =
    | Header(number: nat, total: nat)
    | Numbered(kind: Kind, side: Side, lineIndex: nat, content: string)
    | Blank

  /** The printer asks for at most this many before-context pairs. */
  const BeforeContextMax: nat := 3

  /** The before-context pairs of a hunk, requested with a maximum of three. */
  function Before(pairs: seq<LinePair>, c: Collaborators): seq<LinePair>
  {
    c.beforeContext(pairs, BeforeContextMax)
  }

  /** The after-context pairs of a hunk, computed from the before-context
      followed by the hunk's own pairs. */
  function After(pairs: seq<LinePair>, p: Prepared, opts: DisplayOptions, c: Collaborators): seq<LinePair>
  {
    c.afterContext(Before(pairs, c) + pairs, p.lhsMaxLine, p.rhsMaxLine, opts.numContextLines)
  }

  /** Every line index the printer reads for a hunk is within the lines of its
      side: the left index of before-context and hunk pairs, the right index of
      hunk and after-context pairs. */
  predicate HunkFits(hunk: Hunk, p: Prepared, opts: DisplayOptions, c: Collaborators)
  {
    HunkIndicesBelow(hunk.lines, Before(hunk.lines, c), After(hunk.lines, p, opts, c), p.lhsLines, p.rhsLines)
  }

  predicate Renderable(hunks: seq<Hunk>, p: Prepared, opts: DisplayOptions, c: Collaborators)
  {
    forall i :: 0 <= i < |hunks| ==> HunkFits(hunks[i], p, opts, c)
  }

  /** The row of one pair on `side`: none when the pair has no index there. */
  function PairRow(pair: LinePair, kind: Kind, side: Side, lines: seq<string>): seq<Row>
    requires Below(pair.Index(side), |lines|)
  {
    match pair.Index(side)
    case None => []
    case Some(n) => [Numbered(kind, side, n, lines[n])]
  }

  /** The rows of one phase, built pair by pair in the order the loop visits them. */
  function SideRows(pairs: seq<LinePair>, kind: Kind, side: Side, lines: seq<string>): seq<Row>
    requires IndicesBelow(pairs, side, |lines|)
  {
    if pairs == [] then []
    else
      var n := |pairs| - 1;
      SideRows(pairs[..n], kind, side, lines) + PairRow(pairs[n], kind, side, lines)
  }

  /** The rows of hunk number `i` (0-based) out of `total`. */
  function HunkRows(i: nat, total: nat, pairs: seq<LinePair>, before: seq<LinePair>, after: seq<LinePair>,
                    lhs: seq<string>, rhs: seq<string>): seq<Row>
    requires HunkIndicesBelow(pairs, before, after, lhs, rhs)
  {
    [Header(i + 1, total)]
    + SideRows(before, Context, Left, lhs)
    + SideRows(pairs, Deletion, Left, lhs)
    + SideRows(pairs, Addition, Right, rhs)
    + SideRows(after, Context, Right, rhs)
    + [Blank]
  }

  predicate HunkIndicesBelow(pairs: seq<LinePair>, before: seq<LinePair>, after: seq<LinePair>,
                             lhs: seq<string>, rhs: seq<string>)
  {
    && IndicesBelow(before, Left, |lhs|)
    && IndicesBelow(pairs, Left, |lhs|)
    && IndicesBelow(pairs, Right, |rhs|)
    && IndicesBelow(after, Right, |rhs|)
  }

  /** The rows of the first `k` hunks, each with its context from the collaborators. */
  function AllRows(hunks: seq<Hunk>, k: nat, p: Prepared, opts: DisplayOptions, c: Collaborators): seq<Row>
    requires k <= |hunks| && Renderable(hunks, p, opts, c)
  {
    if k == 0 then []
    else
      var hunk := hunks[k - 1];
      assert HunkFits(hunk, p, opts, c);
      AllRows(hunks, k - 1, p, opts, c)
      + HunkRows(k - 1, |hunks|, hunk.lines, Before(hunk.lines, c), After(hunk.lines, p, opts, c),
                 p.lhsLines, p.rhsLines)
  }

  /** The rows of `k` hunks are those of the first `k - 1` followed by those of hunk `k`. */
  lemma AllRowsStep(hunks: seq<Hunk>, k: nat, p: Prepared, opts: DisplayOptions, c: Collaborators)
    requires 0 < k <= |hunks| && Renderable(hunks, p, opts, c)
    ensures HunkFits(hunks[k - 1], p, opts, c)
    ensures AllRows(hunks, k, p, opts, c)
         == AllRows(hunks, k - 1, p, opts, c)
          + HunkRows(k - 1, |hunks|, hunks[k - 1].lines, Before(hunks[k - 1].lines, c),
                     After(hunks[k - 1].lines, p, opts, c), p.lhsLines, p.rhsLines)
  {
  }

  /** One more pair visited by a phase loop adds that pair's row, if any. */
  lemma SideRowsStep(pairs: seq<LinePair>, j: nat, kind: Kind, side: Side, lines: seq<string>)
    requires IndicesBelow(pairs, side, |lines|) && j < |pairs|
    ensures IndicesBelow(pairs[..j], side, |lines|) && IndicesBelow(pairs[..j + 1], side, |lines|)
    ensures Below(pairs[j].Index(side), |lines|)
    ensures SideRows(pairs[..j + 1], kind, side, lines)
         == SideRows(pairs[..j], kind, side, lines) + PairRow(pairs[j], kind, side, lines)
  {
    assert pairs[..j + 1][..j] == pairs[..j];
  }

  // ---------------------------------------------------------------------------
  // A reference definition of which pairs produce a row

  function Present(ix: Option<nat>): seq<nat>
  {
    match ix
    case None => []
    case Some(n) => [n]
  }

  /** The indices the pairs carry on `side`, in order, skipping absent ones. */
  function SomeIndices(pairs: seq<LinePair>, side: Side): seq<nat>
  {
    if pairs == [] then [] else Present(pairs[0].Index(side)) + SomeIndices(pairs[1..], side)
  }

  lemma {:induction false} SomeIndicesSnoc(pairs: seq<LinePair>, side: Side)
    requires pairs != []
    ensures SomeIndices(pairs, side)
         == SomeIndices(pairs[..|pairs| - 1], side) + Present(pairs[|pairs| - 1].Index(side))
  {
    var n := |pairs| - 1;
    if n == 0 {
      assert pairs[1..] == [] && pairs[..0] == [];
    } else {
      SomeIndicesSnoc(pairs[1..], side);
      assert pairs[1..][..n - 1] == pairs[..n][1..];
      assert pairs[..n][0] == pairs[0];
    }
  }

  /** There are never more present indices than pairs. */
  lemma {:induction false} SomeIndicesLength(pairs: seq<LinePair>, side: Side)
    ensures |SomeIndices(pairs, side)| <= |pairs|
  {
    if pairs != [] {
      SomeIndicesLength(pairs[1..], side);
    }
  }

  /** The rows of a phase are exactly one row per present index, in pair order,
      each showing the line of its side at that index; absent indices emit nothing. */
  lemma {:induction false} SideRowsMatchIndices(pairs: seq<LinePair>, kind: Kind, side: Side, lines: seq<string>)
    requires IndicesBelow(pairs, side, |lines|)
    ensures |SideRows(pairs, kind, side, lines)| == |SomeIndices(pairs, side)|
    ensures forall k :: 0 <= k < |SomeIndices(pairs, side)| ==>
      && SomeIndices(pairs, side)[k] < |lines|
      && SideRows(pairs, kind, side, lines)[k]
         == Numbered(kind, side, SomeIndices(pairs, side)[k], lines[SomeIndices(pairs, side)[k]])
  {
    if pairs != [] {
      var n := |pairs| - 1;
      SideRowsMatchIndices(pairs[..n], kind, side, lines);
      SomeIndicesSnoc(pairs, side);
    }
  }

  // ---------------------------------------------------------------------------
  // Shape of one hunk

  /** Every row is a numbered row of the given kind and side. */
  ghost predicate Uniform(rows: seq<Row>, kind: Kind, side: Side)
  {
    forall j :: 0 <= j < |rows| ==> rows[j].Numbered? && rows[j].kind == kind && rows[j].side == side
  }

  lemma SideRowsUniform(pairs: seq<LinePair>, kind: Kind, side: Side, lines: seq<string>)
    requires IndicesBelow(pairs, side, |lines|)
    ensures Uniform(SideRows(pairs, kind, side, lines), kind, side)
  {
    SideRowsMatchIndices(pairs, kind, side, lines);
  }

  /** Each hunk opens with exactly one header carrying its 1-based number and
      the hunk total, closes with exactly one blank line, and has only numbered
      rows in between. */
  lemma HunkShape(i: nat, total: nat, pairs: seq<LinePair>, before: seq<LinePair>, after: seq<LinePair>,
                  lhs: seq<string>, rhs: seq<string>)
    requires HunkIndicesBelow(pairs, before, after, lhs, rhs)
    ensures var r := HunkRows(i, total, pairs, before, after, lhs, rhs);
      && |r| >= 2
      && r[0] == Header(i + 1, total)
      && r[|r| - 1] == Blank
      && forall j :: 0 < j < |r| - 1 ==> r[j].Numbered?
  {
    SideRowsUniform(before, Context, Left, lhs);
    SideRowsUniform(pairs, Deletion, Left, lhs);
    SideRowsUniform(pairs, Addition, Right, rhs);
    SideRowsUniform(after, Context, Right, rhs);
  }

  /** The phase a row belongs to, in the order the printer emits them. */
  function Phase(row: Row): nat
  {
    match row
    case Header(_, _) => 0
    case Numbered(Context, Left, _, _) => 1
    case Numbered(Deletion, _, _, _) => 2
    case Numbered(Addition, _, _, _) => 3
    case Numbered(Context, Right, _, _) => 4
    case Blank => 5
  }

  ghost predicate PhaseSorted(rows: seq<Row>)
  {
    forall a, b :: 0 <= a < b < |rows| ==> Phase(rows[a]) <= Phase(rows[b])
  }

  lemma AppendPhaseBlock(x: seq<Row>, y: seq<Row>, ph: nat)
    requires PhaseSorted(x) && forall j :: 0 <= j < |x| ==> Phase(x[j]) <= ph
    requires forall j :: 0 <= j < |y| ==> Phase(y[j]) == ph
    ensures PhaseSorted(x + y) && forall j :: 0 <= j < |x + y| ==> Phase((x + y)[j]) <= ph
  {
  }

  /** Within a hunk the phases never go back: header, before-context, all
      deletions, all additions, after-context, blank line. In particular every
      deletion row precedes every addition row. */
  lemma PhaseOrder(i: nat, total: nat, pairs: seq<LinePair>, before: seq<LinePair>, after: seq<LinePair>,
                   lhs: seq<string>, rhs: seq<string>)
    requires HunkIndicesBelow(pairs, before, after, lhs, rhs)
    ensures PhaseSorted(HunkRows(i, total, pairs, before, after, lhs, rhs))
    ensures var r := HunkRows(i, total, pairs, before, after, lhs, rhs);
      forall a, b ::
        (0 <= a < |r| && 0 <= b < |r| && r[a].Numbered? && r[a].kind == Deletion
         && r[b].Numbered? && r[b].kind == Addition) ==> a < b
  {
    var b := SideRows(before, Context, Left, lhs);
    var d := SideRows(pairs, Deletion, Left, lhs);
    var a := SideRows(pairs, Addition, Right, rhs);
    var f := SideRows(after, Context, Right, rhs);
    SideRowsUniform(before, Context, Left, lhs);
    SideRowsUniform(pairs, Deletion, Left, lhs);
    SideRowsUniform(pairs, Addition, Right, rhs);
    SideRowsUniform(after, Context, Right, rhs);
    var h: seq<Row> := [Header(i + 1, total)];
    AppendPhaseBlock(h, b, 1);
    AppendPhaseBlock(h + b, d, 2);
    AppendPhaseBlock(h + b + d, a, 3);
    AppendPhaseBlock(h + b + d + a, f, 4);
    AppendPhaseBlock(h + b + d + a + f, [Blank], 5);
  }

  // ---------------------------------------------------------------------------
  // Content of each row

  /** A numbered row shows the line of its own side at its index. */
  predicate ShowsOwnLine(row: Row, lhs: seq<string>, rhs: seq<string>)
  {
    row.Numbered? ==>
      var lines := if row.side == Left then lhs else rhs;
      row.lineIndex < |lines| && row.content == lines[row.lineIndex]
  }

  predicate ShowsOwnLineAt(rows: seq<Row>, j: nat, lhs: seq<string>, rhs: seq<string>)
    requires j < |rows|
  {
    ShowsOwnLine(rows[j], lhs, rhs)
  }

  /** Every numbered row shows the line of its own side at its index. */
  ghost predicate AllShowOwnLine(rows: seq<Row>, lhs: seq<string>, rhs: seq<string>)
  {
    forall j: nat :: j < |rows| ==> ShowsOwnLineAt(rows, j, lhs, rhs)
  }

  lemma SideRowsShowOwnLine(pairs: seq<LinePair>, kind: Kind, side: Side, lhs: seq<string>, rhs: seq<string>)
    requires IndicesBelow(pairs, side, |if side == Left then lhs else rhs|)
    ensures AllShowOwnLine(SideRows(pairs, kind, side, if side == Left then lhs else rhs), lhs, rhs)
  {
    SideRowsMatchIndices(pairs, kind, side, if side == Left then lhs else rhs);
  }

  lemma AppendShowOwnLine(x: seq<Row>, y: seq<Row>, lhs: seq<string>, rhs: seq<string>)
    requires AllShowOwnLine(x, lhs, rhs) && AllShowOwnLine(y, lhs, rhs)
    ensures AllShowOwnLine(x + y, lhs, rhs)
  {
    forall j: nat | j < |x + y|
      ensures ShowsOwnLineAt(x + y, j, lhs, rhs)
    {
      if j < |x| {
        assert ShowsOwnLineAt(x, j, lhs, rhs);
        assert (x + y)[j] == x[j];
      } else {
        assert ShowsOwnLineAt(y, j - |x|, lhs, rhs);
        assert (x + y)[j] == y[j - |x|];
      }
    }
  }

  /** Every numbered row of a hunk shows the line of its own side: context
      before the hunk and deletions show old lines, additions and context after
      the hunk show new lines. */
  lemma HunkRowsContent(i: nat, total: nat, pairs: seq<LinePair>, before: seq<LinePair>, after: seq<LinePair>,
                        lhs: seq<string>, rhs: seq<string>)
    requires HunkIndicesBelow(pairs, before, after, lhs, rhs)
    ensures AllShowOwnLine(HunkRows(i, total, pairs, before, after, lhs, rhs), lhs, rhs)
  {
    var h: seq<Row> := [Header(i + 1, total)];
    var b := SideRows(before, Context, Left, lhs);
    var d := SideRows(pairs, Deletion, Left, lhs);
    var a := SideRows(pairs, Addition, Right, rhs);
    var f := SideRows(after, Context, Right, rhs);
    SideRowsShowOwnLine(before, Context, Left, lhs, rhs);
    SideRowsShowOwnLine(pairs, Deletion, Left, lhs, rhs);
    SideRowsShowOwnLine(pairs, Addition, Right, lhs, rhs);
    SideRowsShowOwnLine(after, Context, Right, lhs, rhs);
    assert AllShowOwnLine(h, lhs, rhs);
    AppendShowOwnLine(h, b, lhs, rhs);
    AppendShowOwnLine(h + b, d, lhs, rhs);
    AppendShowOwnLine(h + b + d, a, lhs, rhs);
    AppendShowOwnLine(h + b + d + a, f, lhs, rhs);
    assert AllShowOwnLine([Blank], lhs, rhs);
    AppendShowOwnLine(h + b + d + a + f, [Blank], lhs, rhs);
  }

  /** Every numbered row of the first `k` hunks' output shows the display line
      of its own side at its index, hunk after hunk. */
  lemma AllRowsContent(hunks: seq<Hunk>, k: nat, p: Prepared, opts: DisplayOptions, c: Collaborators)
    requires k <= |hunks| && Renderable(hunks, p, opts, c)
    ensures AllShowOwnLine(AllRows(hunks, k, p, opts, c), p.lhsLines, p.rhsLines)
  {
    var i := 0;
    while i < k
      invariant i <= k
      invariant AllShowOwnLine(AllRows(hunks, i, p, opts, c), p.lhsLines, p.rhsLines)
    {
      var hunk := hunks[i];
      AllRowsStep(hunks, i + 1, p, opts, c);
      var before := Before(hunk.lines, c);
      var after := After(hunk.lines, p, opts, c);
      HunkRowsContent(i, |hunks|, hunk.lines, before, after, p.lhsLines, p.rhsLines);
      AppendShowOwnLine(AllRows(hunks, i, p, opts, c),
                        HunkRows(i, |hunks|, hunk.lines, before, after, p.lhsLines, p.rhsLines),
                        p.lhsLines, p.rhsLines);
      i := i + 1;
    }
  }

  // ---------------------------------------------------------------------------
  // Row counts

  /** The number of numbered rows of `kind` on `side`. */
  function CountRows(rows: seq<Row>, kind: Kind, side: Side): nat
  {
    if rows == [] then 0
    else (if rows[0].Numbered? && rows[0].kind == kind && rows[0].side == side then 1 else 0)
         + CountRows(rows[1..], kind, side)
  }

  lemma {:induction false} CountRowsAppend(x: seq<Row>, y: seq<Row>, kind: Kind, side: Side)
    ensures CountRows(x + y, kind, side) == CountRows(x, kind, side) + CountRows(y, kind, side)
  {
    if x == [] {
      assert x + y == y;
    } else {
      CountRowsAppend(x[1..], y, kind, side);
      assert (x + y)[1..] == x[1..] + y;
    }
  }

  lemma {:induction false} CountUniform(rows: seq<Row>, kind: Kind, side: Side, kind': Kind, side': Side)
    requires Uniform(rows, kind, side)
    ensures CountRows(rows, kind', side') == if kind == kind' && side == side' then |rows| else 0
  {
    if rows != [] {
      CountUniform(rows[1..], kind, side, kind', side');
    }
  }

  lemma HunkCountBlocks(i: nat, total: nat, pairs: seq<LinePair>, before: seq<LinePair>, after: seq<LinePair>,
                        lhs: seq<string>, rhs: seq<string>, kind: Kind, side: Side)
    requires HunkIndicesBelow(pairs, before, after, lhs, rhs)
    ensures CountRows(HunkRows(i, total, pairs, before, after, lhs, rhs), kind, side)
         == CountRows(SideRows(before, Context, Left, lhs), kind, side)
          + CountRows(SideRows(pairs, Deletion, Left, lhs), kind, side)
          + CountRows(SideRows(pairs, Addition, Right, rhs), kind, side)
          + CountRows(SideRows(after, Context, Right, rhs), kind, side)
  {
    var h: seq<Row> := [Header(i + 1, total)];
    var b := SideRows(before, Context, Left, lhs);
    var d := SideRows(pairs, Deletion, Left, lhs);
    var a := SideRows(pairs, Addition, Right, rhs);
    var f := SideRows(after, Context, Right, rhs);
    CountRowsAppend(h, b, kind, side);
    CountRowsAppend(h + b, d, kind, side);
    CountRowsAppend(h + b + d, a, kind, side);
    CountRowsAppend(h + b + d + a, f, kind, side);
    CountRowsAppend(h + b + d + a + f, [Blank], kind, side);
  }

  lemma SideRowsCount(pairs: seq<LinePair>, kind: Kind, side: Side, lines: seq<string>, kind': Kind, side': Side)
    requires IndicesBelow(pairs, side, |lines|)
    ensures CountRows(SideRows(pairs, kind, side, lines), kind', side')
         == if kind == kind' && side == side' then |SomeIndices(pairs, side)| else 0
  {
    SideRowsMatchIndices(pairs, kind, side, lines);
    SideRowsUniform(pairs, kind, side, lines);
    CountUniform(SideRows(pairs, kind, side, lines), kind, side, kind', side');
  }

  /** A hunk has one deletion row per hunk pair with a left index, one addition
      row per hunk pair with a right index, one left context row per
      before-context pair with a left index and one right context row per
      after-context pair with a right index; deletions are never on the right
      and additions never on the left. */
  lemma HunkCounts(i: nat, total: nat, pairs: seq<LinePair>, before: seq<LinePair>, after: seq<LinePair>,
                   lhs: seq<string>, rhs: seq<string>)
    requires HunkIndicesBelow(pairs, before, after, lhs, rhs)
    ensures var r := HunkRows(i, total, pairs, before, after, lhs, rhs);
      && CountRows(r, Context, Left) == |SomeIndices(before, Left)|
      && CountRows(r, Deletion, Left) == |SomeIndices(pairs, Left)|
      && CountRows(r, Deletion, Right) == 0
      && CountRows(r, Addition, Right) == |SomeIndices(pairs, Right)|
      && CountRows(r, Addition, Left) == 0
      && CountRows(r, Context, Right) == |SomeIndices(after, Right)|
  {
    forall kind: Kind, side: Side
      ensures CountRows(HunkRows(i, total, pairs, before, after, lhs, rhs), kind, side)
           == (if kind == Context && side == Left then |SomeIndices(before, Left)| else 0)
            + (if kind == Deletion && side == Left then |SomeIndices(pairs, Left)| else 0)
            + (if kind == Addition && side == Right then |SomeIndices(pairs, Right)| else 0)
            + (if kind == Context && side == Right then |SomeIndices(after, Right)| else 0)
    {
      HunkCountBlocks(i, total, pairs, before, after, lhs, rhs, kind, side);
      SideRowsCount(before, Context, Left, lhs, kind, side);
      SideRowsCount(pairs, Deletion, Left, lhs, kind, side);
      SideRowsCount(pairs, Addition, Right, rhs, kind, side);
      SideRowsCount(after, Context, Right, rhs, kind, side);
    }
  }

  /** Given at most three before-context pairs and at most `maxAfter`
      after-context pairs, a hunk shows at most that many context rows on each
      side. */
  lemma ContextRowBounds(i: nat, total: nat, pairs: seq<LinePair>, before: seq<LinePair>, after: seq<LinePair>,
                         lhs: seq<string>, rhs: seq<string>, maxAfter: nat)
    requires HunkIndicesBelow(pairs, before, after, lhs, rhs)
    requires |before| <= BeforeContextMax && |after| <= maxAfter
    ensures CountRows(HunkRows(i, total, pairs, before, after, lhs, rhs), Context, Left) <= BeforeContextMax
    ensures CountRows(HunkRows(i, total, pairs, before, after, lhs, rhs), Context, Right) <= maxAfter
  {
    HunkCounts(i, total, pairs, before, after, lhs, rhs);
    SomeIndicesLength(before, Left);
    SomeIndicesLength(after, Right);
  }

  /** The context rows of hunk `k` are bounded by the maxima the printer asks
      for: three before, and the configured number of context lines after,
      provided the context functions return no more pairs than asked for. */
  lemma HunkContextBounds(hunks: seq<Hunk>, k: nat, p: Prepared, opts: DisplayOptions, c: Collaborators)
    requires k < |hunks| && Renderable(hunks, p, opts, c)
    requires forall pairs, max :: |c.beforeContext(pairs, max)| <= max
    requires forall pairs, lhsMax, rhsMax, max :: |c.afterContext(pairs, lhsMax, rhsMax, max)| <= max
    ensures HunkFits(hunks[k], p, opts, c)
    ensures var r := HunkRows(k, |hunks|, hunks[k].lines, Before(hunks[k].lines, c),
                              After(hunks[k].lines, p, opts, c), p.lhsLines, p.rhsLines);
      && CountRows(r, Context, Left) <= BeforeContextMax
      && CountRows(r, Context, Right) <= opts.numContextLines
  {
    var lines := hunks[k].lines;
    assert HunkFits(hunks[k], p, opts, c);
    ContextRowBounds(k, |hunks|, lines, Before(lines, c), After(lines, p, opts, c), p.lhsLines, p.rhsLines,
                     opts.numContextLines);
  }

  /** A hunk whose only pair is a pure deletion (or a pure addition) and that
      has no context prints a header, exactly one row tagged as that change
      showing the line at its index, and the blank line. */
  lemma SingleChangeHunk(i: nat, total: nat, pair: LinePair, lhs: seq<string>, rhs: seq<string>)
    requires HunkIndicesBelow([pair], [], [], lhs, rhs)
    requires pair.lhs.None? != pair.rhs.None?
    ensures var r := HunkRows(i, total, [pair], [], [], lhs, rhs);
      match pair.lhs
      case Some(n) => r == [Header(i + 1, total), Numbered(Deletion, Left, n, lhs[n]), Blank]
      case None => r == [Header(i + 1, total), Numbered(Addition, Right, pair.rhs.value, rhs[pair.rhs.value]), Blank]
  {
    assert [pair][..0] == [];
    assert Below([pair][0].Index(Left), |lhs|) && Below([pair][0].Index(Right), |rhs|);
    assert SideRows([pair], Deletion, Left, lhs) == PairRow(pair, Deletion, Left, lhs);
    assert SideRows([pair], Addition, Right, rhs) == PairRow(pair, Addition, Right, rhs);
  }

  // ---------------------------------------------------------------------------
  // The whole output

  /** The header rows, in order. */
  function Headers(rows: seq<Row>): seq<Row>
  {
    if rows == [] then []
    else
      var n := |rows| - 1;
      Headers(rows[..n]) + (if rows[n].Header? then [rows[n]] else [])
  }

  lemma {:induction false} HeadersAppend(x: seq<Row>, y: seq<Row>)
    ensures Headers(x + y) == Headers(x) + Headers(y)
  {
    if y == [] {
      assert x + y == x;
    } else {
      var n := |y| - 1;
      HeadersAppend(x, y[..n]);
      assert (x + y)[..|x + y| - 1] == x + y[..n];
      assert (x + y)[|x + y| - 1] == y[n];
    }
  }

  lemma {:induction false} HeadersOfNumbered(rows: seq<Row>)
    requires forall j :: 0 <= j < |rows| ==> rows[j].Numbered?
    ensures Headers(rows) == []
  {
    if rows != [] {
      var n := |rows| - 1;
      HeadersOfNumbered(rows[..n]);
    }
  }

  /** The headers of one hunk's rows: just its own. */
  lemma HunkHeaders(i: nat, total: nat, pairs: seq<LinePair>, before: seq<LinePair>, after: seq<LinePair>,
                    lhs: seq<string>, rhs: seq<string>)
    requires HunkIndicesBelow(pairs, before, after, lhs, rhs)
    ensures var r := HunkRows(i, total, pairs, before, after, lhs, rhs);
      Headers(r) == [Header(i + 1, total)] && r != [] && r[|r| - 1] == Blank
  {
    var r := HunkRows(i, total, pairs, before, after, lhs, rhs);
    HunkShape(i, total, pairs, before, after, lhs, rhs);
    var mid := r[1..|r| - 1];
    assert r == [r[0]] + mid + [Blank];
    HeadersOfNumbered(mid);
    HeadersAppend([r[0]], mid);
    HeadersAppend([r[0]] + mid, [Blank]);
  }

  /** The headers numbered 1 to `k`, each out of `total`. */
  ghost predicate CountedUp(hs: seq<Row>, k: nat, total: nat)
  {
    |hs| == k && forall j :: 0 <= j < k ==> hs[j] == Header(j + 1, total)
  }

  lemma CountedUpSnoc(hs: seq<Row>, k: nat, total: nat)
    requires k > 0 && CountedUp(hs, k - 1, total)
    ensures CountedUp(hs + [Header(k, total)], k, total)
  {
  }

  /** `rows` hold exactly `k` headers, numbered 1 to `k` out of `total`; they
      are empty exactly when `k` is zero, and otherwise end with a blank line. */
  ghost predicate NumberedHeaders(rows: seq<Row>, k: nat, total: nat)
  {
    && CountedUp(Headers(rows), k, total)
    && (rows == [] <==> k == 0)
    && (k > 0 ==> rows[|rows| - 1] == Blank)
  }

  /** Appending the rows of hunk number `k` to those of the first `k - 1`
      hunks extends the header list by that hunk's header. */
  lemma AppendHunkHeaders(prev: seq<Row>, r: seq<Row>, k: nat, total: nat)
    requires k > 0 && NumberedHeaders(prev, k - 1, total)
    requires Headers(r) == [Header(k, total)] && r != [] && r[|r| - 1] == Blank
    ensures NumberedHeaders(prev + r, k, total)
  {
    HeadersAppend(prev, r);
    CountedUpSnoc(Headers(prev), k, total);
    assert (prev + r)[|prev + r| - 1] == r[|r| - 1];
  }

  /** The rows of `k` hunks contain exactly `k` headers, numbered 1 to `k`, each
      carrying the number of hunks; there are no rows at all exactly when there
      are no hunks, and otherwise the last row is a blank line. */
  lemma {:induction false} AllRowsHeaders(hunks: seq<Hunk>, k: nat, p: Prepared, opts: DisplayOptions, c: Collaborators)
    requires k <= |hunks| && Renderable(hunks, p, opts, c)
    ensures NumberedHeaders(AllRows(hunks, k, p, opts, c), k, |hunks|)
  {
    if k > 0 {
      var hunk := hunks[k - 1];
      AllRowsStep(hunks, k, p, opts, c);
      var before := Before(hunk.lines, c);
      var after := After(hunk.lines, p, opts, c);
      HunkHeaders(k - 1, |hunks|, hunk.lines, before, after, p.lhsLines, p.rhsLines);
      AllRowsHeaders(hunks, k - 1, p, opts, c);
      AppendHunkHeaders(AllRows(hunks, k - 1, p, opts, c),
                        HunkRows(k - 1, |hunks|, hunk.lines, before, after, p.lhsLines, p.rhsLines), k, |hunks|);
    }
  }
}
