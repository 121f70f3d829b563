/**
 * `_render_table` of `XiaozhiConcurrentTester` in `tester.py`: an ASCII table
 * whose columns are aligned by display width, where a character that
 * `unicodedata.east_asian_width` classifies as wide or full-width counts two
 * columns and any other counts one. The classification is a parameter
 * `wide`; the only thing assumed of it, where a width is claimed, is that
 * ASCII characters are narrow.
 */
module Table {
  import Format

  /** Every ASCII character is narrow, as `east_asian_width` has it. */
  predicate NarrowAscii(wide: char -> bool) {
    forall c: char :: c as int < 128 ==> !wide(c)
  }

  function Max(a: nat, b: nat): nat {
    if a >= b then a else b
  }

  function CharWidth(c: char, wide: char -> bool): nat {
    if wide(c) then 2 else 1
  }

  /** The display width of `s`: what `ulen` adds up. */
  function Width(s: string, wide: char -> bool): nat {
    if s == [] then 0 else Width(s[..|s| - 1], wide) + CharWidth(s[|s| - 1], wide)
  }

  lemma {:induction false} WidthAppend(a: string, b: string, wide: char -> bool)
    ensures Width(a + b, wide) == Width(a, wide) + Width(b, wide)
    decreases |b|
  {
    if b != [] {
      assert (a + b)[..|a + b| - 1] == a + b[..|b| - 1];
      WidthAppend(a, b[..|b| - 1], wide);
    } else {
      assert a + b == a;
    }
  }

  /** Each character counts one or two columns. */
  lemma {:induction false} WidthBounds(s: string, wide: char -> bool)
    ensures |s| <= Width(s, wide) <= 2 * |s|
    decreases |s|
  {
    if s != [] {
      WidthBounds(s[..|s| - 1], wide);
    }
  }

  /** A string of ASCII characters is as wide as it is long. */
  lemma {:induction false} WidthAscii(s: string, wide: char -> bool)
    requires NarrowAscii(wide)
    requires forall k :: 0 <= k < |s| ==> s[k] as int < 128
    ensures Width(s, wide) == |s|
    decreases |s|
  {
    if s != [] {
      WidthAscii(s[..|s| - 1], wide);
      assert !wide(s[|s| - 1]);
    }
  }

  /** `ulen`: adds up the width of each character in turn. */
  method ULen(s: string, wide: char -> bool) returns (w: nat)
    ensures w == Width(s, wide)
  {
    w := 0;
    for i := 0 to |s|
      invariant w == Width(s[..i], wide)
    {
      assert s[..i + 1][..i] == s[..i];
      w := w + if wide(s[i]) then 2 else 1;
    }
    assert s[..|s|] == s;
  }

  /** `sep.join(parts)`. */
  function Join(parts: seq<string>, sep: string): string {
    if |parts| == 0 then ""
    else if |parts| == 1 then parts[0]
    else Join(parts[..|parts| - 1], sep) + sep + parts[|parts| - 1]
  }

  function SumWidths(parts: seq<string>, wide: char -> bool): nat {
    if parts == [] then 0 else SumWidths(parts[..|parts| - 1], wide) + Width(parts[|parts| - 1], wide)
  }

  /** Joining `n` parts adds `n - 1` separators to their widths. */
  lemma {:induction false} JoinWidth(parts: seq<string>, sep: string, wide: char -> bool)
    requires |parts| >= 1
    ensures Width(Join(parts, sep), wide) == SumWidths(parts, wide) + (|parts| - 1) * Width(sep, wide)
    decreases |parts|
  {
    if |parts| == 1 {
      assert parts[..0] == [];
    } else {
      var init := parts[..|parts| - 1];
      JoinWidth(init, sep, wide);
      assert (|parts| - 1) * Width(sep, wide) == (|init| - 1) * Width(sep, wide) + Width(sep, wide);
      WidthAppend(Join(init, sep), sep, wide);
      WidthAppend(Join(init, sep) + sep, parts[|parts| - 1], wide);
    }
  }

  /** The width every line of the table but the title has: `sum(w + 3) + 1`. */
  function TableWidth(widths: seq<nat>): nat {
    if widths == [] then 1 else TableWidth(widths[..|widths| - 1]) + widths[|widths| - 1] + 3
  }

  /** Parts two columns wider than their column widths add up to the table width, less the `n + 1` bars. */
  lemma {:induction false} PaddedPartsWidth(parts: seq<string>, widths: seq<nat>, wide: char -> bool)
    requires |parts| == |widths|
    requires forall i :: 0 <= i < |parts| ==> Width(parts[i], wide) == widths[i] + 2
    ensures SumWidths(parts, wide) + |widths| + 1 == TableWidth(widths)
    decreases |parts|
  {
    if parts != [] {
      PaddedPartsWidth(parts[..|parts| - 1], widths[..|widths| - 1], wide);
    }
  }

  // ---------------------------------------------------------------------
  // Column widths

  /** The widest of a column's header and of the cells the rows have in column `i`. */
  function ColumnWidth(header: string, rows: seq<seq<string>>, i: nat, wide: char -> bool): nat {
    if rows == [] then Width(header, wide)
    else
      var last := rows[|rows| - 1];
      var w := ColumnWidth(header, rows[..|rows| - 1], i, wide);
      if i < |last| then Max(w, Width(last[i], wide)) else w
  }

  /** A column is as wide as its widest entry: no narrower than any, and as wide as one of them. */
  lemma {:induction false} ColumnWidthIsMax(header: string, rows: seq<seq<string>>, i: nat, wide: char -> bool)
    ensures Width(header, wide) <= ColumnWidth(header, rows, i, wide)
    ensures forall r :: 0 <= r < |rows| && i < |rows[r]| ==> Width(rows[r][i], wide) <= ColumnWidth(header, rows, i, wide)
    ensures ColumnWidth(header, rows, i, wide) == Width(header, wide)
            || exists r :: 0 <= r < |rows| && i < |rows[r]| && ColumnWidth(header, rows, i, wide) == Width(rows[r][i], wide)
    decreases |rows|
  {
    if rows != [] {
      var init := rows[..|rows| - 1];
      ColumnWidthIsMax(header, init, i, wide);
      forall r | 0 <= r < |init|
        ensures init[r] == rows[r]
      {
      }
    }
  }

  /** The column widths of a table: one per header. */
  function Widths(headers: seq<string>, rows: seq<seq<string>>, wide: char -> bool): (widths: seq<nat>)
    ensures |widths| == |headers|
  {
    seq(|headers|, i requires 0 <= i < |headers| => ColumnWidth(headers[i], rows, i, wide))
  }

  /** `col_widths`: header widths first, then each row widens the columns it has cells in. */
  method ColumnWidths(headers: seq<string>, rows: seq<seq<string>>, wide: char -> bool) returns (widths: seq<nat>)
    ensures widths == Widths(headers, rows, wide)
  {
    widths := [];
    for i := 0 to |headers|
      invariant |widths| == i
      invariant forall j :: 0 <= j < i ==> widths[j] == Width(headers[j], wide)
    {
      var w := ULen(headers[i], wide);
      widths := widths + [w];
    }
    for r := 0 to |rows|
      invariant |widths| == |headers|
      invariant forall j :: 0 <= j < |headers| ==> widths[j] == ColumnWidth(headers[j], rows[..r], j, wide)
    {
      var row := rows[r];
      assert rows[..r + 1][..r] == rows[..r];
      for i := 0 to |headers|
        invariant |widths| == |headers|
        invariant forall j :: 0 <= j < i ==> widths[j] == ColumnWidth(headers[j], rows[..r + 1], j, wide)
        invariant forall j :: i <= j < |headers| ==> widths[j] == ColumnWidth(headers[j], rows[..r], j, wide)
      {
        if i < |row| {
          var u := ULen(row[i], wide);
          widths := widths[i := Max(widths[i], u)];
        }
      }
    }
    assert rows[..|rows|] == rows;
  }

  // ---------------------------------------------------------------------
  // Lines

  /** `sep(char)`: a bar of `w + 2` copies of `ch` per column, between and around `+`. */
  function Sep(widths: seq<nat>, ch: char): string {
    Join([""] + Bars(widths, ch) + [""], "+")
  }

  /** One bar of `w + 2` copies of `ch` per column width `w`. */
  function Bars(widths: seq<nat>, ch: char): (bars: seq<string>)
    ensures |bars| == |widths|
    ensures forall i :: 0 <= i < |widths| ==> bars[i] == Format.Repeat(ch, widths[i] + 2)
  {
    seq(|widths|, i requires 0 <= i < |widths| => Format.Repeat(ch, widths[i] + 2))
  }

  /** With ASCII bars, each bar is two columns wider than its column. */
  lemma BarsWidth(widths: seq<nat>, ch: char, wide: char -> bool)
    requires NarrowAscii(wide) && ch as int < 128
    ensures forall i :: 0 <= i < |widths| ==> Width(Bars(widths, ch)[i], wide) == widths[i] + 2
  {
    var bars := Bars(widths, ch);
    forall i | 0 <= i < |widths|
      ensures Width(bars[i], wide) == widths[i] + 2
    {
      WidthAscii(bars[i], wide);
    }
  }

  /** `pad_to_width`: spaces on the right up to `width`; text already that wide is left alone. */
  function PadToWidth(text: string, width: nat, wide: char -> bool): (r: string)
    ensures |r| >= |text| && r[..|text|] == text
    ensures Width(text, wide) >= width ==> r == text
    ensures forall k :: |text| <= k < |r| ==> r[k] == ' '
    ensures !wide(' ') ==> Width(r, wide) == Max(Width(text, wide), width)
  {
    var cur := Width(text, wide);
    if cur >= width then text
    else
      var pad := Format.Repeat(' ', width - cur);
      assert (text + pad)[..|text|] == text;
      WidthAppend(text, pad, wide);
      assert !wide(' ') ==> Width(pad, wide) == width - cur by {
        if !wide(' ') {
          SpacesWidth(width - cur, wide);
        }
      }
      text + pad
  }

  lemma {:induction false} SpacesWidth(n: nat, wide: char -> bool)
    requires !wide(' ')
    ensures Width(Format.Repeat(' ', n), wide) == n
    decreases n
  {
    if n > 0 {
      assert Format.Repeat(' ', n)[..n - 1] == Format.Repeat(' ', n - 1);
      SpacesWidth(n - 1, wide);
    }
  }

  /** The cell `render_row` puts in column `i`: `''` where the row is short. */
  function Cell(cells: seq<string>, i: nat): string {
    if i < |cells| then cells[i] else ""
  }

  /** One padded cell with its two surrounding spaces. */
  function PaddedCell(cells: seq<string>, i: nat, widths: seq<nat>, wide: char -> bool): string
    requires i < |widths|
  {
    " " + PadToWidth(Cell(cells, i), widths[i], wide) + " "
  }

  /** `padded`: one padded cell per column. */
  function PaddedCells(cells: seq<string>, widths: seq<nat>, wide: char -> bool): (padded: seq<string>)
    ensures |padded| == |widths|
  {
    seq(|widths|, i requires 0 <= i < |widths| => PaddedCell(cells, i, widths, wide))
  }

  /** `render_row(cells)`: the padded cells between and around `|`. */
  function RowText(cells: seq<string>, widths: seq<nat>, wide: char -> bool): string {
    "|" + Join(PaddedCells(cells, widths, wide), "|") + "|"
  }

  /** `render_row`, building the list of padded cells in a loop. */
  method RenderRow(cells: seq<string>, widths: seq<nat>, wide: char -> bool) returns (line: string)
    ensures line == RowText(cells, widths, wide)
  {
    var padded: seq<string> := [];
    for i := 0 to |widths|
      invariant padded == PaddedCells(cells, widths, wide)[..i]
    {
      var text := if i < |cells| then cells[i] else "";
      padded := padded + [" " + PadToWidth(text, widths[i], wide) + " "];
    }
    assert padded == PaddedCells(cells, widths, wide);
    line := "|" + Join(padded, "|") + "|";
  }

  /** With ASCII bars, a separator is exactly as wide as the table. */
  lemma SepWidth(widths: seq<nat>, ch: char, wide: char -> bool)
    requires NarrowAscii(wide) && ch as int < 128
    ensures Width(Sep(widths, ch), wide) == TableWidth(widths)
  {
    var bars := Bars(widths, ch);
    var parts := [""] + bars + [""];
    JoinWidth(parts, "+", wide);
    assert !wide('+');
    OneCharWidth('+', wide);
    assert Width(Join(parts, "+"), wide) == SumWidths(parts, wide) + |parts| - 1;
    BarsWidth(widths, ch, wide);
    PaddedPartsWidth(bars, widths, wide);
    SumWidthsFrame(bars, wide);
  }

  /** An empty part at each end adds nothing to the widths. */
  lemma SumWidthsFrame(parts: seq<string>, wide: char -> bool)
    ensures SumWidths([""] + parts + [""], wide) == SumWidths(parts, wide)
  {
    SumWidthsCons(parts, wide);
    assert ([""] + parts + [""])[..|parts| + 1] == [""] + parts;
  }

  lemma {:induction false} SumWidthsCons(parts: seq<string>, wide: char -> bool)
    ensures SumWidths([""] + parts, wide) == SumWidths(parts, wide)
    decreases |parts|
  {
    if parts != [] {
      assert ([""] + parts)[..|parts|] == [""] + parts[..|parts| - 1];
      SumWidthsCons(parts[..|parts| - 1], wide);
    } else {
      assert ([""] + parts)[..0] == [];
    }
  }

  lemma OneCharWidth(c: char, wide: char -> bool)
    requires !wide(c)
    ensures Width([c], wide) == 1
  {
    assert [c][..0] == [];
  }

  /** A cell no wider than its column pads out to two more than the column width. */
  lemma PaddedCellWidth(cells: seq<string>, i: nat, widths: seq<nat>, wide: char -> bool)
    requires i < |widths| && !wide(' ')
    requires Width(Cell(cells, i), wide) <= widths[i]
    ensures Width(PaddedCell(cells, i, widths, wide), wide) == widths[i] + 2
  {
    var p := PadToWidth(Cell(cells, i), widths[i], wide);
    OneCharWidth(' ', wide);
    WidthAppend(" ", p, wide);
    WidthAppend(" " + p, " ", wide);
  }

  /** A row whose cells fit their columns is exactly as wide as the table, when there is a column. */
  lemma RowWidth(cells: seq<string>, widths: seq<nat>, wide: char -> bool)
    requires NarrowAscii(wide) && |widths| >= 1
    requires forall i :: 0 <= i < |widths| && i < |cells| ==> Width(cells[i], wide) <= widths[i]
    ensures Width(RowText(cells, widths, wide), wide) == TableWidth(widths)
  {
    var padded := PaddedCells(cells, widths, wide);
    assert !wide(' ') && !wide('|');
    forall i | 0 <= i < |widths|
      ensures Width(padded[i], wide) == widths[i] + 2
    {
      assert Width(Cell(cells, i), wide) <= widths[i] by {
        if i >= |cells| {
          assert Cell(cells, i) == [];
        }
      }
      PaddedCellWidth(cells, i, widths, wide);
    }
    PaddedPartsWidth(padded, widths, wide);
    var bar, joined := "|", Join(padded, "|");
    OneCharWidth('|', wide);
    JoinWidth(padded, bar, wide);
    assert Width(joined, wide) == SumWidths(padded, wide) + |padded| - 1;
    WidthAppend(bar, joined, wide);
    WidthAppend(bar + joined, bar, wide);
  }

  // ---------------------------------------------------------------------
  // The table

  /** The rendered rows, one line each. */
  function RowLines(rows: seq<seq<string>>, widths: seq<nat>, wide: char -> bool): (lines: seq<string>)
    ensures |lines| == |rows|
  {
    seq(|rows|, r requires 0 <= r < |rows| => RowText(rows[r], widths, wide))
  }

  lemma RowLinesSnoc(rows: seq<seq<string>>, r: nat, widths: seq<nat>, wide: char -> bool)
    requires r < |rows|
    ensures RowLines(rows[..r + 1], widths, wide) == RowLines(rows[..r], widths, wide) + [RowText(rows[r], widths, wide)]
  {
  }

  /**
   * `lines`: the title if there is one, `=` bar, headers, `=` bar, the rows,
   * `-` bar; so one line per row and four more, five with a title.
   */
  function TableLines(title: string, headers: seq<string>, rows: seq<seq<string>>, wide: char -> bool): (lines: seq<string>)
    ensures |lines| == |rows| + (if title != "" then 5 else 4)
    ensures title != "" ==> lines[0] == title
  {
    var widths := Widths(headers, rows, wide);
    TableHead(title, headers, widths, wide) + RowLines(rows, widths, wide) + [Sep(widths, '-')]
  }

  /** The lines above the rows: the title if there is one, then `=` bar, headers, `=` bar. */
  function TableHead(title: string, headers: seq<string>, widths: seq<nat>, wide: char -> bool): (head: seq<string>)
    ensures |head| == if title != "" then 4 else 3
    ensures title != "" ==> head[0] == title
  {
    (if title != "" then [title] else []) + [Sep(widths, '='), RowText(headers, widths, wide), Sep(widths, '=')]
  }

  /** `_render_table`: `title` is `""` where the caller passes none. */
  method RenderTable(title: string, headers: seq<string>, rows: seq<seq<string>>, wide: char -> bool)
    returns (lines: seq<string>, text: string)
    ensures lines == TableLines(title, headers, rows, wide)
    ensures text == Join(lines, "\n")
  {
    var widths := ColumnWidths(headers, rows, wide);
    lines := [];
    if title != "" {
      lines := lines + [title];
    }
    var equals := Sep(widths, '=');
    var headerLine := RenderRow(headers, widths, wide);
    lines := lines + [equals, headerLine, equals];
    ghost var head := TableHead(title, headers, widths, wide);
    assert lines == head;
    assert lines == head + RowLines(rows[..0], widths, wide);
    for r := 0 to |rows|
      invariant lines == head + RowLines(rows[..r], widths, wide)
    {
      var line := RenderRow(rows[r], widths, wide);
      RowLinesSnoc(rows, r, widths, wide);
      lines := lines + [line];
    }
    assert rows[..|rows|] == rows;
    assert lines == head + RowLines(rows, widths, wide);
    lines := lines + [Sep(widths, '-')];
    text := Join(lines, "\n");
  }

  /**
   * With at least one column and ASCII narrow, every line below the title
   * (both kinds of bar, the header line and each row) has the same display
   * width, `sum(w + 3) + 1`.
   */
  lemma TableAligned(title: string, headers: seq<string>, rows: seq<seq<string>>, wide: char -> bool)
    requires NarrowAscii(wide) && |headers| >= 1
    ensures var lines := TableLines(title, headers, rows, wide);
      var first := if title != "" then 1 else 0;
      forall k :: first <= k < |lines| ==> Width(lines[k], wide) == TableWidth(Widths(headers, rows, wide))
  {
    var widths := Widths(headers, rows, wide);
    forall i | 0 <= i < |headers|
      ensures Width(headers[i], wide) <= widths[i]
      ensures forall r :: 0 <= r < |rows| && i < |rows[r]| ==> Width(rows[r][i], wide) <= widths[i]
    {
      ColumnWidthIsMax(headers[i], rows, i, wide);
    }
    SepWidth(widths, '=', wide);
    SepWidth(widths, '-', wide);
    RowWidth(headers, widths, wide);
    forall r | 0 <= r < |rows|
      ensures Width(RowLines(rows, widths, wide)[r], wide) == TableWidth(widths)
    {
      RowWidth(rows[r], widths, wide);
    }
  }
}
