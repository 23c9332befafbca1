/** A worked example of the printer's output with deterministic stand-ins for
    the collaborators: no colour, identity tab replacement, a fixed header and
    fixed context windows. Styling marks a changed row's label with a leading
    `*` and its side with a trailing `<` or `>`, so the output shows which flag
    and side the printer passed. */
module InlineExample {
  import opened InlineTypes
  import opened InlineLines
  import opened InlineRows
  import opened InlineRender

  /** Stand-ins for the collaborators of one pass over old "a\nb\nc\n" and
      new "a\nx\nc\n". */
  function ExampleCollaborators(): Collaborators
  {
    Collaborators(
      (src, side, highlight, background) => [],
      src => if src == "a\nb\nc\n" then ["a", "b", "c", ""]
             else if src == "a\nx\nc\n" then ["a", "x", "c", ""]
             else [],
      (line, width) => line,
      n => if n == 0 then "1" else if n == 1 then "2" else if n == 2 then "3" else "?",
      (gutter, changed, side, o) => (if changed then "*" else "") + gutter + (if side == Left then "<" else ">"),
      (lhsPath, rhsPath, number, total, lang, o) => "HEADER",
      (pairs, max) => if pairs == [LinePair(Some(1), Some(1))] && max > 0 then [LinePair(Some(0), Some(0))] else [],
      (pairs, lhsMax, rhsMax, max) => if max > 0 then [LinePair(Some(2), Some(2))] else [],
      src => 3)
  }

  function ExampleOptions(): DisplayOptions
  {
    DisplayOptions(false, false, Dark, 4, 1)
  }

  function ExampleHunks(): seq<Hunk>
  {
    [Hunk([LinePair(Some(1), Some(1))])]
  }

  function ExampleInfo(): FileInfo
  {
    FileInfo("old", "new", "Text")
  }

  /** Without colour, each source line keeps its newline. */
  lemma ExampleLines()
    ensures var p := Prepare("a\nb\nc\n", "a\nx\nc\n", ExampleOptions(), ExampleCollaborators());
      && |p.lhsLines| == 4 && p.lhsLines[0] == "a\n" && p.lhsLines[1] == "b\n" && p.lhsLines[2] == "c\n"
      && |p.rhsLines| == 4 && p.rhsLines[0] == "a\n" && p.rhsLines[1] == "x\n" && p.rhsLines[2] == "c\n"
  {
    var c := ExampleCollaborators();
    assert c.splitOnNewlines("a\nb\nc\n") == ["a", "b", "c", ""];
    assert c.splitOnNewlines("a\nx\nc\n") == ["a", "x", "c", ""];
  }

  /** The rows of the hunk's phases, given the materialised lines. */
  lemma ExampleHunkRows(lhs: seq<string>, rhs: seq<string>)
    requires |lhs| == 4 && lhs[0] == "a\n" && lhs[1] == "b\n"
    requires |rhs| == 4 && rhs[1] == "x\n" && rhs[2] == "c\n"
    ensures HunkIndicesBelow([LinePair(Some(1), Some(1))], [LinePair(Some(0), Some(0))],
                             [LinePair(Some(2), Some(2))], lhs, rhs)
    ensures HunkRows(0, 1, [LinePair(Some(1), Some(1))], [LinePair(Some(0), Some(0))],
                     [LinePair(Some(2), Some(2))], lhs, rhs) == ExampleRowList()
  {
    var pairs := [LinePair(Some(1), Some(1))];
    var before, after := [LinePair(Some(0), Some(0))], [LinePair(Some(2), Some(2))];
    assert SideRows(before, Context, Left, lhs) == [Numbered(Context, Left, 0, "a\n")] by {
      assert before[..0] == [];
    }
    assert SideRows(pairs, Deletion, Left, lhs) == [Numbered(Deletion, Left, 1, "b\n")] by {
      assert pairs[..0] == [];
    }
    assert SideRows(pairs, Addition, Right, rhs) == [Numbered(Addition, Right, 1, "x\n")];
    assert SideRows(after, Context, Right, rhs) == [Numbered(Context, Right, 2, "c\n")] by {
      assert after[..0] == [];
    }
  }

  /** The rows of the single hunk: header, left context, deletion, addition,
      right context, blank. */
  lemma ExampleRows()
    ensures var c, opts := ExampleCollaborators(), ExampleOptions();
      var p := Prepare("a\nb\nc\n", "a\nx\nc\n", opts, c);
      && Renderable(ExampleHunks(), p, opts, c)
      && AllRows(ExampleHunks(), 1, p, opts, c) == ExampleRowList()
  {
    var c, opts := ExampleCollaborators(), ExampleOptions();
    var p := Prepare("a\nb\nc\n", "a\nx\nc\n", opts, c);
    ExampleLines();
    var pairs := [LinePair(Some(1), Some(1))];
    assert Before(pairs, c) == [LinePair(Some(0), Some(0))];
    assert After(pairs, p, opts, c) == [LinePair(Some(2), Some(2))];
    ExampleHunkRows(p.lhsLines, p.rhsLines);
    assert Renderable(ExampleHunks(), p, opts, c);
    AllRowsStep(ExampleHunks(), 1, p, opts, c);
  }

  /** The text of each of those rows: left rows put the padding after the
      label, right rows before it; only deletion and addition labels are styled
      as changed. */
  lemma ExampleTexts()
    ensures var c, opts, info := ExampleCollaborators(), ExampleOptions(), ExampleInfo();
      && RowText(Header(1, 1), info, opts, c) == "HEADER\n"
      && RowText(Numbered(Context, Left, 0, "a\n"), info, opts, c) == "0#1#<   a\n"
      && RowText(Numbered(Deletion, Left, 1, "b\n"), info, opts, c) == "*-#2#<   b\n"
      && RowText(Numbered(Addition, Right, 1, "x\n"), info, opts, c) == "   *+#2#>x\n"
      && RowText(Numbered(Context, Right, 2, "c\n"), info, opts, c) == "   0#3#>c\n"
      && RowText(Blank, info, opts, c) == "\n"
  {
    var c := ExampleCollaborators();
    assert c.formatLineNum(0) == "1" && c.formatLineNum(1) == "2" && c.formatLineNum(2) == "3";
  }

  function ExampleRowList(): seq<Row>
  {
    [Header(1, 1), Numbered(Context, Left, 0, "a\n"), Numbered(Deletion, Left, 1, "b\n"),
     Numbered(Addition, Right, 1, "x\n"), Numbered(Context, Right, 2, "c\n"), Blank]
  }

  /** Writing those rows gives one write per row, in order. */
  lemma ExampleRender()
    ensures Render(ExampleRowList(), ExampleInfo(), ExampleOptions(), ExampleCollaborators())
         == ["HEADER\n", "0#1#<   a\n", "*-#2#<   b\n", "   *+#2#>x\n", "   0#3#>c\n", "\n"]
  {
    var c, opts, info := ExampleCollaborators(), ExampleOptions(), ExampleInfo();
    ExampleTexts();
    RenderAt(ExampleRowList(), info, opts, c);
  }

  /** The middle line changed, one line of context: a header, the first line as
      left context, the old middle line deleted, the new middle line added with
      right-side padding, the last line as right context, and a blank line. */
  lemma EndToEnd()
    ensures var c, opts := ExampleCollaborators(), ExampleOptions();
      var p := Prepare("a\nb\nc\n", "a\nx\nc\n", opts, c);
      && Renderable(ExampleHunks(), p, opts, c)
      && Output(ExampleHunks(), 1, p, ExampleInfo(), opts, c)
         == ["HEADER\n", "0#1#<   a\n", "*-#2#<   b\n", "   *+#2#>x\n", "   0#3#>c\n", "\n"]
  {
    ExampleRows();
    ExampleRender();
  }
}
