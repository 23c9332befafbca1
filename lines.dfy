/** Line materialisation: the display lines of each side, built once per pass
    before any hunk is printed. */
module InlineLines {
  import opened InlineTypes

  /** The no-colour branch: every piece of the plain split, newline-terminated. */
  function Terminated(pieces: seq<string>): (r: seq<string>)
    ensures |r| == |pieces|
    ensures forall k :: 0 <= k < |r| ==> r[k] == pieces[k] + "\n"
  {
    if pieces == [] then [] else [pieces[0] + "\n"] + Terminated(pieces[1..])
  }

  /** Tab replacement, applied line for line. */
  function ReplaceTabsAll(lines: seq<string>, tabWidth: nat, replaceTabs: (string, nat) -> string): (r: seq<string>)
    ensures |r| == |lines|
    ensures forall k :: 0 <= k < |r| ==> r[k] == replaceTabs(lines[k], tabWidth)
  {
    if lines == [] then [] else [replaceTabs(lines[0], tabWidth)] + ReplaceTabsAll(lines[1..], tabWidth, replaceTabs)
  }

  /** The lines of one side before tab replacement: coloured by the colour
      collaborator, or split and newline-terminated. */
  function ColoredLines(src: string, side: Side, opts: DisplayOptions, c: Collaborators): seq<string>
  {
    if opts.useColor then c.applyColors(src, side, opts.syntaxHighlight, opts.backgroundColor)
    else Terminated(c.splitOnNewlines(src))
  }

  /** The display lines of one side: one per coloured line or per split piece,
      each passed through tab replacement. */
  function Materialise(src: string, side: Side, opts: DisplayOptions, c: Collaborators): (r: seq<string>)
    ensures opts.useColor ==>
      var colored := c.applyColors(src, side, opts.syntaxHighlight, opts.backgroundColor);
      |r| == |colored| && forall k :: 0 <= k < |r| ==> r[k] == c.replaceTabs(colored[k], opts.tabWidth)
    ensures !opts.useColor ==>
      var pieces := c.splitOnNewlines(src);
      |r| == |pieces| && forall k :: 0 <= k < |r| ==> r[k] == c.replaceTabs(pieces[k] + "\n", opts.tabWidth)
  {
    ReplaceTabsAll(ColoredLines(src, side, opts, c), opts.tabWidth, c.replaceTabs)
  }

  /** What the hunk loop reads of each side: its display lines and its
      largest line index. */
  datatype Prepared = Prepared(lhsLines: seq<string>, rhsLines: seq<string>, lhsMaxLine: nat, rhsMaxLine: nat)

  function Prepare(lhsSrc: string, rhsSrc: string, opts: DisplayOptions, c: Collaborators): Prepared
  {
    Prepared(Materialise(lhsSrc, Left, opts, c), Materialise(rhsSrc, Right, opts, c),
             c.maxLine(lhsSrc), c.maxLine(rhsSrc))
  }
}
