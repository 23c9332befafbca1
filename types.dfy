/** Values shared by the inline ("unified") diff printer: the two sides, the
    aligned line pairs of a hunk, the display options, and the functions the
    printer calls in modules that are not part of this model. */
module InlineTypes {

  datatype Option<T> = None | Some(value: T)

  /** Left is the old version of the file, Right the new one. */
  datatype Side = Left | Right

  /** One aligned row of a hunk: a 0-based line index on each side, absent
      where that side has no line (only lhs: a deletion, only rhs: an addition). */
  datatype LinePair = LinePair(lhs: Option<nat>, rhs: Option<nat>)
  {
    /** The index this pair carries on `side`. */
    function Index(side: Side): Option<nat>
    {
      if side == Left then lhs else rhs
    }
  }

  /** One difference region: its aligned line pairs, in display order. */
  datatype Hunk = Hunk(lines: seq<LinePair>)

  datatype BackgroundColor = Dark | Light

  /** The read-only configuration of one rendering pass. */
  datatype DisplayOptions = DisplayOptions(
    useColor: bool,
    syntaxHighlight: bool,
    backgroundColor: BackgroundColor,
    tabWidth: nat,
    numContextLines: nat)

  /** The functions `print` calls in other modules, as uninterpreted values.
      The parsed language and the matched positions of both sides are fixed for
      one pass, so they (and the opposite-position maps built from them) live
      inside `applyColors`, `beforeContext` and `afterContext`. */
  datatype Collaborators = Collaborators(
    // style::apply_colors(src, side, syntax_highlight, background_color)
    applyColors: (string, Side, bool, BackgroundColor) -> seq<string>,
    // lines::split_on_newlines(src)
    splitOnNewlines: string -> seq<string>,
    // style::replace_tabs(line, tab_width)
    replaceTabs: (string, nat) -> string,
    // lines::format_line_num(index)
    formatLineNum: nat -> string,
    // style::apply_line_number_color(label, is_changed, side, options)
    applyLineNumberColor: (string, bool, Side, DisplayOptions) -> string,
    // style::header(lhs_path, rhs_path, hunk_num, hunk_total, lang_name, options)
    header: (string, string, nat, nat, string, DisplayOptions) -> string,
    // context::calculate_before_context(hunk_lines, max_lines)
    beforeContext: (seq<LinePair>, nat) -> seq<LinePair>,
    // context::calculate_after_context(lines, lhs_max_line, rhs_max_line, max_lines)
    afterContext: (seq<LinePair>, nat, nat, nat) -> seq<LinePair>,
    // MaxLine::max_line(src)
    maxLine: string -> nat)

  /** An optional index that, where present, is below `n`. */
  predicate Below(ix: Option<nat>, n: nat)
  {
    ix.Some? ==> ix.value < n
  }

  /** Every index the pairs carry on `side` is below `n`. */
  predicate IndicesBelow(pairs: seq<LinePair>, side: Side, n: nat)
  {
    forall k :: 0 <= k < |pairs| ==> Below(pairs[k].Index(side), n)
  }
}
