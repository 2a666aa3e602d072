/** The layout of the diff report in `src/utils.rs`. The line diff itself
    (`TextDiff::from_lines`, `grouped_ops(3)`, `iter_inline_changes`) comes
    from the `similar` crate and is an input here: a list of groups, each a
    list of operations, each a list of changes. Terminal styling is a
    `Painter` of string transforms. */
module DiffRender {
  import opened Wrappers
  import opened Text

  datatype Tag = Delete | Insert | Equal

  /** One change of an inline diff: its tag, its (0-based) line in the old
      and the new text when it has one there, its text in segments, each
      marked when it is emphasised, and whether that text lacks a final line
      break. */
  datatype Change = Change(tag: Tag, oldIndex: Option<nat>, newIndex: Option<nat>,
                           segments: seq<(bool, string)>, missingNewline: bool)

  /** The changes of one operation, and the operations of one group. */
  type Op = seq<Change>
  type Group = seq<Op>

  /** Styling: `dim` for the line labels, `sign` for the tag sign, `plain`
      and `emphasized` for the segments, each in the colour of the tag. */
  datatype Painter = Painter(dim: string -> string, sign: (Tag, string) -> string,
                             plain: (Tag, string) -> string, emphasized: (Tag, string) -> string)

  /** No styling at all: the text as it reads with colours stripped. */
  const Plain: Painter := Painter(s => s, (t, s) => s, (t, s) => s, (t, s) => s)

  /** `Line`'s `Display` (`LabelDigits` states what it reads). */
  function Label(i: Option<nat>): string {
    match i
    case None => "    "
    case Some(n) => PadRight(Decimal(n + 1), 4)
  }

  /** A label is four spaces when the change has no line on that side,
      otherwise the 1-based line number in decimal, left-aligned and padded
      with spaces to width 4. */
  lemma LabelDigits(i: Option<nat>)
    ensures i.None? ==> Label(i) == "    "
    ensures i.Some? ==>
              var d := Decimal(i.value + 1);
              DecimalValue(d) == i.value + 1
              && |Label(i)| == (if |d| < 4 then 4 else |d|)
              && Label(i)[..|d|] == d
              && forall k :: |d| <= k < |Label(i)| ==> Label(i)[k] == ' '
  {
    if i.Some? {
      DecimalRoundTrip(i.value + 1);
    }
  }

  function Pow10(k: nat): nat {
    if k == 0 then 1 else 10 * Pow10(k - 1)
  }

  lemma {:induction false} DecimalWidth(n: nat, k: nat)
    requires 1 <= k && n < Pow10(k)
    ensures |Decimal(n)| <= k
  {
    if n >= 10 {
      DecimalWidth(n / 10, k - 1);
    }
  }

  /** Labels of lines up to 9999 fill exactly four columns, so the rows of a
      report line up. */
  lemma LabelWidth(i: Option<nat>)
    requires i.None? || i.value + 1 < 10000
    ensures |Label(i)| == 4
  {
    if i.Some? {
      DecimalWidth(i.value + 1, 4);
    }
  }

  /** The sign written for each tag. */
  function Sign(t: Tag): (r: string)
    ensures |r| == 1
  {
    match t
    case Delete => "-"
    case Insert => "+"
    case Equal => " "
  }

  /** The signs tell the tags apart. */
  lemma SignsDistinct(t1: Tag, t2: Tag)
    ensures Sign(t1) == Sign(t2) <==> t1 == t2
  {
  }

  /** `{:-^1$}` of `"-"` at width 80: eighty dashes, with no line break. */
  const Separator: string := Repeat('-', 80)

  function Segment(seg: (bool, string), t: Tag, p: Painter): string {
    if seg.0 then p.emphasized(t, seg.1) else p.plain(t, seg.1)
  }

  /** The painted segments of a change, in order. */
  function Segments(segs: seq<(bool, string)>, t: Tag, p: Painter): string {
    if segs == [] then "" else Segments(segs[..|segs| - 1], t, p) + Segment(segs[|segs| - 1], t, p)
  }

  /** The row of one change: old label, new label, ` |`, sign, segments, and a
      line break when the change's text lacks one. */
  function Row(c: Change, p: Painter): string {
    p.dim(Label(c.oldIndex)) + p.dim(Label(c.newIndex)) + " |" + p.sign(c.tag, Sign(c.tag))
    + Segments(c.segments, c.tag, p) + (if c.missingNewline then "\n" else "")
  }

  function Rows(cs: seq<Change>, p: Painter): string {
    if cs == [] then "" else Rows(cs[..|cs| - 1], p) + Row(cs[|cs| - 1], p)
  }

  function GroupText(g: Group, p: Painter): string {
    if g == [] then "" else GroupText(g[..|g| - 1], p) + Rows(g[|g| - 1], p)
  }

  /** The whole report: the groups in order, with a separator before every
      group but the first. */
  function Render(gs: seq<Group>, p: Painter): string {
    if gs == [] then ""
    else Render(gs[..|gs| - 1], p) + (if |gs| > 1 then Separator else "") + GroupText(gs[|gs| - 1], p)
  }

  /** `diff_text`: the grouped changes of the line diff of the two texts,
      written out group by group, operation by operation, change by change
      and segment by segment; each inner loop is one of the methods below,
      which return the text they write. Writing into a `String` cannot fail,
      so the result is always a text. */
  method DiffText(text1: string, text2: string, lineDiff: (string, string) -> seq<Group>, p: Painter)
    returns (output: string)
    ensures output == Render(lineDiff(text1, text2), p)
  {
    var groups := lineDiff(text1, text2);
    output := "";
    for idx := 0 to |groups|
      invariant output == Render(groups[..idx], p)
    {
      assert groups[..idx + 1][..idx] == groups[..idx];
      if idx > 0 {
        output := output + Separator;
      }
      var text := WriteGroup(groups[idx], p);
      output := output + text;
    }
    assert groups[..|groups|] == groups;
  }

  /** The operations of one group, in order. */
  method WriteGroup(group: Group, p: Painter) returns (text: string)
    ensures text == GroupText(group, p)
  {
    text := "";
    for j := 0 to |group|
      invariant text == GroupText(group[..j], p)
    {
      assert group[..j + 1][..j] == group[..j];
      var rows := WriteOp(group[j], p);
      text := text + rows;
    }
    assert group[..|group|] == group;
  }

  /** The changes of one operation, in order. */
  method WriteOp(op: Op, p: Painter) returns (text: string)
    ensures text == Rows(op, p)
  {
    text := "";
    for k := 0 to |op|
      invariant text == Rows(op[..k], p)
    {
      assert op[..k + 1][..k] == op[..k];
      var row := WriteRow(op[k], p);
      text := text + row;
    }
    assert op[..|op|] == op;
  }

  /** The row of one change. */
  method WriteRow(change: Change, p: Painter) returns (text: string)
    ensures text == Row(change, p)
  {
    var head := p.dim(Label(change.oldIndex)) + p.dim(Label(change.newIndex)) + " |"
                + p.sign(change.tag, Sign(change.tag));
    var body := "";
    var segs := change.segments;
    for m := 0 to |segs|
      invariant body == Segments(segs[..m], change.tag, p)
    {
      assert segs[..m + 1][..m] == segs[..m];
      var (emphasized, value) := segs[m];
      if emphasized {
        body := body + p.emphasized(change.tag, value);
      } else {
        body := body + p.plain(change.tag, value);
      }
    }
    assert segs[..|segs|] == segs;
    text := head + body + (if change.missingNewline then "\n" else "");
  }

  /** The total length of the groups' own text. */
  function GroupsLength(gs: seq<Group>, p: Painter): nat {
    if gs == [] then 0 else GroupsLength(gs[..|gs| - 1], p) + |GroupText(gs[|gs| - 1], p)|
  }

  /** A report of k groups holds k - 1 separators of 80 characters beside
      the groups' own text. */
  lemma {:induction false} RenderLength(gs: seq<Group>, p: Painter)
    requires gs != []
    ensures |Render(gs, p)| == 80 * (|gs| - 1) + GroupsLength(gs, p)
  {
    if |gs| > 1 {
      RenderLength(gs[..|gs| - 1], p);
    }
  }

  /** The text of a change: its segments' values, in order. */
  function SegmentText(segs: seq<(bool, string)>): string {
    if segs == [] then "" else SegmentText(segs[..|segs| - 1]) + segs[|segs| - 1].1
  }

  predicate EndsInNewline(s: string) {
    |s| > 0 && s[|s| - 1] == '\n'
  }

  /** `missing_newline` as the line diff reports it: the change's text does
      not end with a line break. */
  predicate WellFormed(c: Change) {
    c.missingNewline <==> !EndsInNewline(SegmentText(c.segments))
  }

  lemma {:induction false} PlainSegments(segs: seq<(bool, string)>, t: Tag)
    ensures Segments(segs, t, Plain) == SegmentText(segs)
  {
    if segs != [] {
      PlainSegments(segs[..|segs| - 1], t);
    }
  }

  /** Without styling a row reads: two labels, ` |`, the sign, the change's
      text, and a line break only when that text lacks one; so every row
      ends with exactly one line break of its own. */
  lemma PlainRow(c: Change)
    requires WellFormed(c)
    ensures Row(c, Plain)
            == Label(c.oldIndex) + Label(c.newIndex) + " |" + Sign(c.tag) + SegmentText(c.segments)
               + (if EndsInNewline(SegmentText(c.segments)) then "" else "\n")
    ensures EndsInNewline(Row(c, Plain))
  {
    PlainSegments(c.segments, c.tag);
    var text := SegmentText(c.segments);
    var row := Row(c, Plain);
    if EndsInNewline(text) {
      assert row[|row| - 1] == text[|text| - 1];
    }
  }

  /** Without styling and with line numbers below 9999, the sign of every row
      sits in column 10 and its text starts at column 11. */
  lemma PlainRowColumns(c: Change)
    requires WellFormed(c)
    requires c.oldIndex.None? || c.oldIndex.value + 1 < 10000
    requires c.newIndex.None? || c.newIndex.value + 1 < 10000
    ensures |Row(c, Plain)| >= 12
    ensures Row(c, Plain)[..4] == Label(c.oldIndex)
    ensures Row(c, Plain)[4..8] == Label(c.newIndex)
    ensures Row(c, Plain)[8..10] == " |"
    ensures Row(c, Plain)[10..11] == Sign(c.tag)
    ensures Row(c, Plain)[11..] == SegmentText(c.segments)
                                   + (if EndsInNewline(SegmentText(c.segments)) then "" else "\n")
  {
    PlainRow(c);
    LabelWidth(c.oldIndex);
    LabelWidth(c.newIndex);
    Columns(Label(c.oldIndex), Label(c.newIndex), " |", Sign(c.tag), SegmentText(c.segments),
            if EndsInNewline(SegmentText(c.segments)) then "" else "\n");
  }

  /** Slicing a row back into its fixed-width columns. */
  lemma Columns(a: string, b: string, c: string, d: string, t: string, e: string)
    requires |a| == 4 && |b| == 4 && |c| == 2 && |d| == 1
    ensures var s := a + b + c + d + t + e;
            && s[..4] == a && s[4..8] == b && s[8..10] == c && s[10..11] == d && s[11..] == t + e
  {
    var s := a + b + c + d + t + e;
    assert s == (a + b + c + d) + (t + e);
  }
}
