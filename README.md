# Inline diff printer of difftastic, in Dafny

This project models `print` in `src/display/inline.rs`, difftastic's inline
("unified") diff display, and proves properties of it.

`print` works in two steps.

1. It materialises the display lines of each side once. With colour, the
   coloured lines come from `apply_colors`. Without colour, each piece of
   `split_on_newlines` gets a trailing newline. Every line then goes through
   `replace_tabs`.
2. For every hunk, in order, it writes:
   - a header (hunk `i + 1` of `hunks.len()`);
   - the before-context rows (`0#n#`, left side);
   - all deletion rows (`-#n#`, left side);
   - all addition rows (`+#n#`, right side);
   - the after-context rows (`0#n#`, right side);
   - one blank line.

   A pair with no index on the side a loop reads writes nothing. A left row is
   the styled label, three spaces, then the line. A right row is three spaces,
   the styled label, then the line.

The model is layered:

- `types.dfy` (module `InlineTypes`) holds sides, line pairs, hunks and display
  options. It also holds `Collaborators`, the functions `print` calls in other
  modules, as function values.
- `lines.dfy` (module `InlineLines`) holds line materialisation as functions
  over sequences.
- `rows.dfy` (module `InlineRows`) describes the output as records (`Row`):
  header, numbered row (kind, side, line index, content) or blank line. The
  lemmas about order, counts and headers are stated there.
- `render.dfy` (module `InlineRender`) gives the text of each row. `Render`
  turns rows into writes, one per row.
- `inline.dfy` (module `Inline`) holds the printer itself: a method with the
  hunk loop and one method per phase loop. Each appends to the output sequence
  and is proved to produce exactly the rendered rows.
- `example.dfy` (module `InlineExample`) works the example of a changed middle
  line through the model, with simple stand-ins for the collaborators.

Standard output is the returned `seq<string>`, one element per `print!` or
`println!` call; a `println!` element includes its newline. An out-of-range
line index makes the source panic. The model turns this into the precondition
`Renderable`, which covers only the indices the loops read: the left index of
before-context and hunk pairs, and the right index of hunk and after-context
pairs.

## Model

| member | source | states |
|---|---|---|
| InlineLines.Terminated | src/display/inline.rs:46-53 | Without colour there is one display line per split piece, and line `k` is piece `k` followed by a newline. |
| InlineLines.ReplaceTabsAll | src/display/inline.rs:57-64 | Tab replacement maps line for line: same number of lines, and line `k` is `replace_tabs` of input line `k` with the configured tab width. |
| InlineLines.Materialise | src/display/inline.rs:25-64 | With colour, the display lines are the tab-replaced coloured lines, one for one. Without colour, they are the tab-replaced, newline-terminated split pieces, one for one. |
| InlineRows.SideRowsMatchIndices | src/display/inline.rs:96-165 | A phase loop yields exactly one row per pair that has an index on its side, in pair order. Each row shows the line of that side at that index. Pairs without an index yield nothing. |
| InlineRows.HunkShape | src/display/inline.rs:69-80 | A hunk's rows start with the header numbered `i + 1` of the total and end with one blank line. Every row in between is a numbered row. |
| InlineRows.HunkHeaders | src/display/inline.rs:69-80 | A hunk's rows contain exactly one header, its own, and end with a blank line. |
| InlineRows.PhaseOrder | src/display/inline.rs:96-165 | Within a hunk the phases never go back: header, left context, deletions, additions, right context, blank. Every deletion row comes before every addition row. |
| InlineRows.HunkCounts | src/display/inline.rs:96-147 | Deletion rows number the hunk pairs with a left index. Addition rows number those with a right index. Left context rows number the before-context pairs with a left index, and right context rows the after-context pairs with a right index. No deletion is on the right and no addition on the left. |
| InlineRows.ContextRowBounds | src/display/inline.rs:96-165 | For any context lists of at most 3 before-context pairs and at most `maxAfter` after-context pairs, a hunk shows at most 3 left context rows and at most `maxAfter` right context rows. |
| InlineRows.HunkContextBounds | src/display/inline.rs:84-94 | If the context functions return no more pairs than asked for, hunk `k` shows at most 3 before-context rows and at most `num_context_lines` after-context rows, the maxima the printer passes. |
| InlineRows.HunkRowsContent | src/display/inline.rs:96-165 | Every numbered row of a hunk shows the line of its own side at its index. Before-context and deletion rows show old lines; addition and after-context rows show new lines. |
| InlineRows.AllRowsContent | src/display/inline.rs:69-166 | Across all hunks, every numbered row shows the materialised display line of its own side at its index. |
| InlineRows.SingleChangeHunk | src/display/inline.rs:114-147 | A hunk whose only pair is a pure deletion prints exactly header, one deletion row and blank; a pure addition prints header, one addition row and blank. |
| InlineRows.AllRowsHeaders | src/display/inline.rs:69-80 | The rows of `k` hunks hold exactly `k` headers, numbered 1 to `k`, each carrying the number of hunks. The output is empty exactly when there are no hunks, and otherwise ends with a blank line. |
| InlineRows.SomeIndicesLength | src/display/inline.rs:96-165 | A phase never has more rows than it has pairs. |
| InlineRender.ParseTag | src/display/inline.rs:97-150 | The tags `0#`, `-#` and `+#` tell the row kind apart: reading a tag back gives the kind it was written for, and nothing else parses. |
| InlineRender.GutterLayout | src/display/inline.rs:101-163 | When styling leaves the label unchanged, a left row is label, three spaces, content, and a right row is three spaces, label, content. The content starts at the same column on both sides, and the label's prefix gives back the row kind. |
| InlineRender.RenderAt | src/display/inline.rs:69-166 | Write `k` is the text of row `k`. |
| InlineRender.RenderAppend | src/display/inline.rs:69-166 | Rendering two row sequences in turn gives the writes of their concatenation. |
| Inline.Print | src/display/inline.rs:13-168 | Given in-range indices, the writes are the rendered rows of all hunks in order. There are no writes at all exactly when there are no hunks. |
| Inline.PrintHunk | src/display/inline.rs:69-166 | One hunk writes its header line, its four phase loops in order, and a blank line. The result equals the rendered rows of that hunk. |
| Inline.PrintBeforeContext | src/display/inline.rs:96-112 | The before-context loop appends the rendered left context row of every before-context pair that has a left index. |
| Inline.PrintDeletions | src/display/inline.rs:114-130 | The deletion loop appends the rendered left deletion row of every hunk pair that has a left index. |
| Inline.PrintAdditions | src/display/inline.rs:131-147 | The addition loop appends the rendered right addition row of every hunk pair that has a right index. |
| Inline.PrintAfterContext | src/display/inline.rs:149-165 | The after-context loop appends the rendered right context row of every after-context pair that has a right index. |
| Inline.WritePair | src/display/inline.rs:97-110 | One loop iteration writes nothing for an absent index. Otherwise it writes the styled `tag + number + "#"` label with the left or right padding order. |
| InlineExample.EndToEnd | src/display/inline.rs:13-168 | Old `a b c` against new `a x c` with one line of context writes: header, `0#1#<   a`, `*-#2#<   b`, `   *+#2#>x`, `   0#3#>c`, blank line. The styling stand-in marks the changed flag with `*` and the side with `<` or `>`, so only deletion and addition labels are styled as changed. |

## Left out

- `apply_colors`, `apply_line_number_color` and `style::header` are uninterpreted function values. Colours, ANSI styling and syntax highlighting are not modelled.
- `calculate_before_context`, `calculate_after_context` and `opposite_positions` are uninterpreted. The model records only two facts: the before-context is requested with a maximum of 3, and the after-context is computed from the before-context followed by the hunk's pairs.
- `replace_tabs`, `format_line_num`, `split_on_newlines` and `max_line` are uninterpreted. Their own behaviour, such as how many spaces a tab becomes, is not modelled.
- The parsed language and the matched positions of both sides are not parameters. They are fixed for one call, so they live inside the collaborator functions.
- Real standard output is not modelled. The writes are returned as a sequence instead.
- The panic on an out-of-range line index is a precondition, `Renderable`, not an error path.
- `Inline.Print` calls `max_line` for every hunk, as the source does. Only the specification functions `Prepare` and `After` use values computed once, which is the same because the source strings do not change between hunks.
- InlineRows.HunkContextBounds: assumes the context functions return no more pairs than their maximum, because their code is not part of this model.
- InlineRender.GutterLayout: stated only when styling returns the label unchanged, because the model does not know the width of coloured labels.
