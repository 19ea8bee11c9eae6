/**
 * The text-table renderer of the sql client: right-aligning a cell in its
 * column (fill), computing one width per column (getMaxColumnLengths) and
 * laying out the header, the dashed separator and the data rows
 * (printResultSet). The printed output is modelled as the sequence of lines
 * it consists of; each line is what is printed before the line terminator.
 */
module Table {

  function Max(a: int, b: int): int
  {
    if a >= b then a else b
  }

  /** Java's `String.repeat`: `n` copies of `c`. */
  function Repeat(c: char, n: nat): (r: string)
    ensures |r| == n
    ensures forall k :: 0 <= k < n ==> r[k] == c
  {
    if n == 0 then "" else Repeat(c, n - 1) + [c]
  }

  /**
   * `fill(s, n)`: right-aligns `s` in a field of `n` characters by putting
   * spaces in front of it. A string that is already at least `n` long comes
   * back unchanged, so nothing is ever cut off.
   */
  function Fill(s: string, n: int): (r: string)
    ensures |r| == Max(|s|, n)
  {
    if |s| >= n then s else Repeat(' ', n - |s|) + s
  }

  /**
   * What `fill` promises: a string at least `n` long is returned unchanged;
   * otherwise the result is `n` long, ends with `s` and is spaces before it.
   */
  lemma FillSpec(s: string, n: int)
    ensures |s| >= n ==> Fill(s, n) == s
    ensures |s| < n ==> |Fill(s, n)| == n
    ensures Fill(s, n)[|Fill(s, n)| - |s|..] == s
    ensures forall k :: 0 <= k < |Fill(s, n)| - |s| ==> Fill(s, n)[k] == ' '
  {
    if |s| < n {
      var pad := Repeat(' ', n - |s|);
      assert Fill(s, n) == pad + s;
      assert (pad + s)[|pad|..] == s;
    }
  }

  /** The properties FillSpec states determine the result of Fill. */
  lemma FillUnique(s: string, n: int, r: string)
    requires |r| == Max(|s|, n)
    requires r[|r| - |s|..] == s
    requires forall k :: 0 <= k < |r| - |s| ==> r[k] == ' '
    ensures r == Fill(s, n)
  {
    FillSpec(s, n);
    var f := Fill(s, n);
    forall k | 0 <= k < |r|
      ensures r[k] == f[k]
    {
      if k >= |r| - |s| {
        assert r[k] == r[|r| - |s|..][k - (|r| - |s|)];
        assert f[k] == f[|f| - |s|..][k - (|f| - |s|)];
      }
    }
  }

  /** Every row has exactly `n` cells. */
  predicate Rectangular(rows: seq<seq<string>>, n: nat)
  {
    forall j :: 0 <= j < |rows| ==> |rows[j]| == n
  }

  /**
   * The largest length of cell `i` over `rows`, 0 when there are no rows:
   * the value `getMaxColumnLengths` starts each column from.
   */
  function MaxLength(rows: seq<seq<string>>, i: nat): nat
    requires forall j :: 0 <= j < |rows| ==> i < |rows[j]|
  {
    if rows == [] then 0
    else
      var last := |rows| - 1;
      var m := MaxLength(rows[..last], i);
      if |rows[last][i]| > m then |rows[last][i]| else m
  }

  /** MaxLength is the maximum: it bounds every cell `i` and is the length of one of them. */
  lemma {:induction false} MaxLengthIsMaximum(rows: seq<seq<string>>, i: nat)
    requires forall j :: 0 <= j < |rows| ==> i < |rows[j]|
    ensures forall j :: 0 <= j < |rows| ==> |rows[j][i]| <= MaxLength(rows, i)
    ensures rows == [] ==> MaxLength(rows, i) == 0
    ensures rows != [] ==> exists j :: 0 <= j < |rows| && MaxLength(rows, i) == |rows[j][i]|
  {
    if rows != [] {
      var last := |rows| - 1;
      var init := rows[..last];
      MaxLengthIsMaximum(init, i);
      assert forall j :: 0 <= j < last ==> init[j] == rows[j];
      if last > 0 && |rows[last][i]| <= MaxLength(init, i) {
        var j :| 0 <= j < last && MaxLength(init, i) == |init[j][i]|;
        assert MaxLength(rows, i) == |rows[j][i]|;
      }
    }
  }

  /** The table `getMaxColumnLengths` scans: the data rows, then the header. */
  function Scanned(result: seq<seq<string>>, columnNames: seq<string>): (data: seq<seq<string>>)
    requires Rectangular(result, |columnNames|)
    ensures |data| == |result| + 1 && Rectangular(data, |columnNames|)
  {
    result + [columnNames]
  }

  /** The column widths of a table: per column, the longest of its header and data cells. */
  function Widths(result: seq<seq<string>>, columnNames: seq<string>): (w: seq<nat>)
    requires Rectangular(result, |columnNames|)
    ensures |w| == |columnNames|
  {
    var data := Scanned(result, columnNames);
    seq(|columnNames|, i requires 0 <= i < |columnNames| => MaxLength(data, i))
  }

  /**
   * Width `i` is at least the length of header `i` and of cell `i` of every
   * row, and it equals one of those lengths: it is their maximum.
   */
  lemma WidthIsColumnMaximum(result: seq<seq<string>>, columnNames: seq<string>, i: nat)
    requires Rectangular(result, |columnNames|)
    requires i < |columnNames|
    ensures |columnNames[i]| <= Widths(result, columnNames)[i]
    ensures forall j :: 0 <= j < |result| ==> |result[j][i]| <= Widths(result, columnNames)[i]
    ensures Widths(result, columnNames)[i] == |columnNames[i]|
         || exists j :: 0 <= j < |result| && Widths(result, columnNames)[i] == |result[j][i]|
  {
    var data := Scanned(result, columnNames);
    var m := Widths(result, columnNames)[i];
    assert m == MaxLength(data, i);
    MaxLengthIsMaximum(data, i);
    assert data[|result|] == columnNames;
    assert forall j :: 0 <= j < |result| ==> data[j] == result[j];
    var j :| 0 <= j < |data| && m == |data[j][i]|;
    if j < |result| {
      assert m == |result[j][i]|;
    }
  }

  /** With no data rows every width is the length of its header label. */
  lemma WidthsWithoutRows(columnNames: seq<string>)
    ensures Widths([], columnNames) == seq(|columnNames|, i requires 0 <= i < |columnNames| => |columnNames[i]|)
  {
    var w := Widths([], columnNames);
    forall i | 0 <= i < |columnNames|
      ensures w[i] == |columnNames[i]|
    {
      WidthIsColumnMaximum([], columnNames, i);
    }
  }

  /**
   * `getMaxColumnLengths`: appends the header to a copy of the rows, starts
   * one zero per cell of the first row and raises each entry to the longest
   * cell seen, row by row.
   */
  method GetMaxColumnLengths(result: seq<seq<string>>, columnNames: seq<string>) returns (maxLengths: seq<nat>)
    requires Rectangular(result, |columnNames|)
    ensures maxLengths == Widths(result, columnNames)
  {
    var data := result + [columnNames];
    assert data == Scanned(result, columnNames);
    maxLengths := [];
    for i := 0 to |data[0]|
      invariant |maxLengths| == i
      invariant forall c :: 0 <= c < i ==> maxLengths[c] == 0
    {
      maxLengths := maxLengths + [0];
    }
    for r := 0 to |data|
      invariant |maxLengths| == |columnNames|
      invariant forall c :: 0 <= c < |columnNames| ==> maxLengths[c] == MaxLength(data[..r], c)
    {
      var row := data[r];
      assert data[..r + 1][..r] == data[..r];
      for i := 0 to |row|
        invariant |maxLengths| == |columnNames|
        invariant forall c :: 0 <= c < i ==> maxLengths[c] == MaxLength(data[..r + 1], c)
        invariant forall c :: i <= c < |columnNames| ==> maxLengths[c] == MaxLength(data[..r], c)
      {
        var currentLength := |row[i]|;
        if currentLength > maxLengths[i] {
          maxLengths := maxLengths[i := currentLength];
        }
      }
    }
    assert data[..|data|] == data;
  }

  /** The characters of `segments`, in order. */
  function Concat(segments: seq<string>): string
  {
    if segments == [] then "" else Concat(segments[..|segments| - 1]) + segments[|segments| - 1]
  }

  function Sum(w: seq<nat>): nat
  {
    if w == [] then 0 else Sum(w[..|w| - 1]) + w[|w| - 1]
  }

  /** Where column `k` starts in a line of a table whose segments are `w[i] + 3` wide. */
  function Start(w: seq<nat>, k: nat): nat
    requires k <= |w|
  {
    Sum(w[..k]) + 3 * k
  }

  /** The segments of a header or data line: each cell right-aligned to its width, then " | ". */
  function CellSegments(cells: seq<string>, w: seq<nat>): seq<string>
    requires |cells| <= |w|
  {
    seq(|cells|, i requires 0 <= i < |cells| => Fill(cells[i], w[i]) + " | ")
  }

  /** Segment `i` of the separator line: dashes over the column, "-|", and one more dash between columns. */
  function SeparatorSegment(w: seq<nat>, i: nat): string
    requires i < |w|
  {
    Repeat('-', w[i]) + "-|" + (if i < |w| - 1 then "-" else "")
  }

  function SeparatorSegments(w: seq<nat>): seq<string>
  {
    seq(|w|, i requires 0 <= i < |w| => SeparatorSegment(w, i))
  }

  /** A header or data line. */
  function CellLine(cells: seq<string>, w: seq<nat>): string
    requires |cells| <= |w|
  {
    Concat(CellSegments(cells, w))
  }

  /** The dashed line printed below the header. */
  function SeparatorLine(w: seq<nat>): string
  {
    Concat(SeparatorSegments(w))
  }

  /** The lines `printResultSet` prints: header, separator, then one line per row. */
  function Render(result: seq<seq<string>>, columnNames: seq<string>): (lines: seq<string>)
    requires Rectangular(result, |columnNames|)
    ensures |lines| == 2 + |result|
  {
    var w := Widths(result, columnNames);
    [CellLine(columnNames, w), SeparatorLine(w)] + RowLines(result, w)
  }

  /** One line per data row, in order. */
  function RowLines(rows: seq<seq<string>>, w: seq<nat>): (lines: seq<string>)
    requires Rectangular(rows, |w|)
    ensures |lines| == |rows|
  {
    if rows == [] then []
    else RowLines(rows[..|rows| - 1], w) + [CellLine(rows[|rows| - 1], w)]
  }

  /** Line `k` of RowLines is the line of row `k`. */
  lemma {:induction false} RowLinesAt(rows: seq<seq<string>>, w: seq<nat>, k: nat)
    requires Rectangular(rows, |w|)
    requires k < |rows|
    ensures RowLines(rows, w)[k] == CellLine(rows[k], w)
  {
    var init := rows[..|rows| - 1];
    if k < |init| {
      RowLinesAt(init, w, k);
      assert init[k] == rows[k];
    }
  }

  /** Segment `k` sits in the concatenation right after the segments before it. */
  lemma {:induction false} ConcatSegment(segments: seq<string>, k: nat)
    requires k < |segments|
    ensures |Concat(segments[..k])| + |segments[k]| <= |Concat(segments)|
    ensures Concat(segments)[|Concat(segments[..k])|..|Concat(segments[..k])| + |segments[k]|] == segments[k]
  {
    var n := |segments|;
    var init := segments[..n - 1];
    assert Concat(segments) == Concat(init) + segments[n - 1];
    if k < n - 1 {
      ConcatSegment(init, k);
      assert init[..k] == segments[..k];
      var a := |Concat(segments[..k])|;
      assert Concat(segments)[a..a + |segments[k]|] == Concat(init)[a..a + |segments[k]|];
    } else {
      assert init == segments[..k];
    }
  }

  /** Segments that are each 3 characters wider than their column concatenate to Sum(w) + 3|w| characters. */
  lemma {:induction false} ConcatLength(segments: seq<string>, w: seq<nat>)
    requires |segments| == |w|
    requires forall i :: 0 <= i < |w| ==> |segments[i]| == w[i] + 3
    ensures |Concat(segments)| == Sum(w) + 3 * |w|
  {
    if w != [] {
      var n := |w|;
      ConcatLength(segments[..n - 1], w[..n - 1]);
    }
  }

  /** Every cell fits its column. */
  predicate Fits(cells: seq<string>, w: seq<nat>)
    requires |cells| == |w|
  {
    forall i :: 0 <= i < |w| ==> |cells[i]| <= w[i]
  }

  /** When every cell fits, each segment of a header or data line is 3 wider than its column. */
  lemma CellSegmentLengths(cells: seq<string>, w: seq<nat>)
    requires |cells| == |w| && Fits(cells, w)
    ensures forall i :: 0 <= i < |w| ==> |CellSegments(cells, w)[i]| == w[i] + 3
  {
  }

  /** Column `k` of a header or data line whose cells fit starts at Start(w, k). */
  lemma CellStart(cells: seq<string>, w: seq<nat>, k: nat)
    requires |cells| == |w| && Fits(cells, w)
    requires k <= |w|
    ensures |Concat(CellSegments(cells, w)[..k])| == Start(w, k)
  {
    var segments := CellSegments(cells, w);
    CellSegmentLengths(cells, w);
    var before := segments[..k];
    assert forall i :: 0 <= i < k ==> before[i] == segments[i];
    ConcatLength(before, w[..k]);
  }

  /** When every cell fits its column, a header or data line is Sum(w) + 3|w| long. */
  lemma CellLineLength(cells: seq<string>, w: seq<nat>)
    requires |cells| == |w| && Fits(cells, w)
    ensures |CellLine(cells, w)| == Sum(w) + 3 * |w|
  {
    CellSegmentLengths(cells, w);
    ConcatLength(CellSegments(cells, w), w);
  }

  /**
   * When every cell fits its column, column `k` of a header or data line
   * occupies characters Start(w, k) up to Start(w, k) + w[k] + 3, holding the
   * cell right-aligned and then " | ".
   */
  lemma CellLineLayout(cells: seq<string>, w: seq<nat>, k: nat)
    requires |cells| == |w| && Fits(cells, w)
    requires k < |w|
    ensures Start(w, k) + w[k] + 3 <= |CellLine(cells, w)|
    ensures CellLine(cells, w)[Start(w, k)..Start(w, k) + w[k] + 3] == Fill(cells[k], w[k]) + " | "
  {
    var segments := CellSegments(cells, w);
    assert |segments[k]| == w[k] + 3;
    CellStart(cells, w, k);
    ConcatSegment(segments, k);
  }

  /** The separator line is Sum(w) + 3|w| - 1 long: the last column has no trailing dash. */
  lemma SeparatorLength(w: seq<nat>)
    requires w != []
    ensures |SeparatorLine(w)| == Sum(w) + 3 * |w| - 1
  {
    var n := |w|;
    var segments := SeparatorSegments(w);
    ConcatLength(segments[..n - 1], w[..n - 1]);
    assert Concat(segments) == Concat(segments[..n - 1]) + segments[n - 1];
  }

  /**
   * Column `k` of the separator line starts where it starts in the other
   * lines and holds `w[k]` dashes, "-|", and a further dash unless it is the
   * last column.
   */
  lemma SeparatorColumn(w: seq<nat>, k: nat)
    requires k < |w|
    ensures Start(w, k) + |SeparatorSegment(w, k)| <= |SeparatorLine(w)|
    ensures SeparatorLine(w)[Start(w, k)..Start(w, k) + |SeparatorSegment(w, k)|]
         == Repeat('-', w[k]) + "-|" + (if k < |w| - 1 then "-" else "")
  {
    var segments := SeparatorSegments(w);
    ConcatLength(segments[..k], w[..k]);
    ConcatSegment(segments, k);
  }

  /** A result set without columns gets an empty separator line. */
  lemma SeparatorWithoutColumns()
    ensures SeparatorLine([]) == ""
  {
  }

  /** The lines of Render, one by one. */
  lemma RenderLines(result: seq<seq<string>>, columnNames: seq<string>)
    requires Rectangular(result, |columnNames|)
    ensures |Render(result, columnNames)| == 2 + |result|
    ensures Render(result, columnNames)[0] == CellLine(columnNames, Widths(result, columnNames))
    ensures Render(result, columnNames)[1] == SeparatorLine(Widths(result, columnNames))
    ensures forall k :: 0 <= k < |result| ==>
      Render(result, columnNames)[k + 2] == CellLine(result[k], Widths(result, columnNames))
  {
    forall k | 0 <= k < |result|
      ensures Render(result, columnNames)[k + 2] == CellLine(result[k], Widths(result, columnNames))
    {
      RowLinesAt(result, Widths(result, columnNames), k);
    }
  }

  /** Every header label fits the width of its column. */
  lemma HeaderFits(result: seq<seq<string>>, columnNames: seq<string>)
    requires Rectangular(result, |columnNames|)
    ensures Fits(columnNames, Widths(result, columnNames))
  {
    forall i | 0 <= i < |columnNames|
      ensures |columnNames[i]| <= Widths(result, columnNames)[i]
    {
      WidthIsColumnMaximum(result, columnNames, i);
    }
  }

  /** Every cell of data row `r` fits the width of its column. */
  lemma RowFits(result: seq<seq<string>>, columnNames: seq<string>, r: nat)
    requires Rectangular(result, |columnNames|)
    requires r < |result|
    ensures |result[r]| == |columnNames| && Fits(result[r], Widths(result, columnNames))
  {
    forall i | 0 <= i < |columnNames|
      ensures |result[r][i]| <= Widths(result, columnNames)[i]
    {
      WidthIsColumnMaximum(result, columnNames, i);
    }
  }

  /** In a header or data line whose cells fit, the '|' after column `k` is at Start(w, k) + w[k] + 1. */
  lemma CellLinePipe(cells: seq<string>, w: seq<nat>, k: nat)
    requires |cells| == |w| && Fits(cells, w)
    requires k < |w|
    ensures |CellLine(cells, w)| == Sum(w) + 3 * |w|
    ensures Start(w, k) + w[k] + 1 < |CellLine(cells, w)|
    ensures CellLine(cells, w)[Start(w, k) + w[k] + 1] == '|'
  {
    CellLineLength(cells, w);
    CellLineLayout(cells, w, k);
    var a, padded := Start(w, k), Fill(cells[k], w[k]);
    assert |cells[k]| <= w[k];
    assert |padded| == w[k];
    assert (padded + " | ")[w[k] + 1] == '|';
    assert CellLine(cells, w)[a..a + w[k] + 3][w[k] + 1] == '|';
  }

  /** In the separator line, the '|' after column `k` is at Start(w, k) + w[k] + 1. */
  lemma SeparatorPipe(w: seq<nat>, k: nat)
    requires k < |w|
    ensures |SeparatorLine(w)| == Sum(w) + 3 * |w| - 1
    ensures Start(w, k) + w[k] + 1 < |SeparatorLine(w)|
    ensures SeparatorLine(w)[Start(w, k) + w[k] + 1] == '|'
  {
    SeparatorLength(w);
    SeparatorColumn(w, k);
    var a, segment := Start(w, k), SeparatorSegment(w, k);
    assert |Repeat('-', w[k])| == w[k];
    assert segment[w[k] + 1] == '|';
    assert SeparatorLine(w)[a..a + |segment|][w[k] + 1] == '|';
  }

  /**
   * The laid-out table, line by line: the header line is Sum(w) + 3|w|
   * long and has the '|' after column `k` at Start(w, k) + w[k] + 1 ...
   */
  lemma HeaderAligned(result: seq<seq<string>>, columnNames: seq<string>, k: nat)
    requires Rectangular(result, |columnNames|)
    requires k < |columnNames|
    ensures var w, line := Widths(result, columnNames), Render(result, columnNames)[0];
      && |line| == Sum(w) + 3 * |w|
      && Start(w, k) + w[k] + 1 < |line|
      && line[Start(w, k) + w[k] + 1] == '|'
  {
    RenderLines(result, columnNames);
    HeaderFits(result, columnNames);
    CellLinePipe(columnNames, Widths(result, columnNames), k);
  }

  /** ... the separator line is one shorter and has its '|' at the same place ... */
  lemma SeparatorAligned(result: seq<seq<string>>, columnNames: seq<string>, k: nat)
    requires Rectangular(result, |columnNames|)
    requires k < |columnNames|
    ensures var w, line := Widths(result, columnNames), Render(result, columnNames)[1];
      && |line| == Sum(w) + 3 * |w| - 1
      && Start(w, k) + w[k] + 1 < |line|
      && line[Start(w, k) + w[k] + 1] == '|'
  {
    RenderLines(result, columnNames);
    SeparatorPipe(Widths(result, columnNames), k);
  }

  /** ... and so has the line of every data row, which is as long as the header line. */
  lemma RowAligned(result: seq<seq<string>>, columnNames: seq<string>, r: nat, k: nat)
    requires Rectangular(result, |columnNames|)
    requires r < |result| && k < |columnNames|
    ensures var w, line := Widths(result, columnNames), Render(result, columnNames)[r + 2];
      && |line| == Sum(w) + 3 * |w|
      && Start(w, k) + w[k] + 1 < |line|
      && line[Start(w, k) + w[k] + 1] == '|'
  {
    var w := Widths(result, columnNames);
    var cells := result[r];
    RenderLines(result, columnNames);
    RowFits(result, columnNames, r);
    CellLinePipe(cells, w, k);
  }

  /** On the header line, column `k` holds its label right-aligned to the column width, then " | ". */
  lemma RenderHeaderCell(result: seq<seq<string>>, columnNames: seq<string>, k: nat)
    requires Rectangular(result, |columnNames|)
    requires k < |columnNames|
    ensures var w, line := Widths(result, columnNames), Render(result, columnNames)[0];
      Start(w, k) + w[k] + 3 <= |line| && line[Start(w, k)..Start(w, k) + w[k] + 3] == Fill(columnNames[k], w[k]) + " | "
  {
    RenderLines(result, columnNames);
    HeaderFits(result, columnNames);
    CellLineLayout(columnNames, Widths(result, columnNames), k);
  }

  /** On the line of data row `r`, column `k` holds its cell right-aligned to the column width, then " | ". */
  lemma RenderRowCell(result: seq<seq<string>>, columnNames: seq<string>, r: nat, k: nat)
    requires Rectangular(result, |columnNames|)
    requires r < |result| && k < |columnNames|
    ensures var w, line := Widths(result, columnNames), Render(result, columnNames)[r + 2];
      Start(w, k) + w[k] + 3 <= |line| && line[Start(w, k)..Start(w, k) + w[k] + 3] == Fill(result[r][k], w[k]) + " | "
  {
    RenderLines(result, columnNames);
    RowFits(result, columnNames, r);
    CellLineLayout(result[r], Widths(result, columnNames), k);
  }

  /**
   * With no data rows the table is the header labels, unpadded, each followed
   * by " | ", and a separator sized by the labels: two lines in all.
   */
  lemma RenderWithoutRows(columnNames: seq<string>)
    ensures Render([], columnNames)
         == [ Concat(seq(|columnNames|, i requires 0 <= i < |columnNames| => columnNames[i] + " | ")),
              SeparatorLine(seq(|columnNames|, i requires 0 <= i < |columnNames| => |columnNames[i]|)) ]
  {
    WidthsWithoutRows(columnNames);
    var w := Widths([], columnNames);
    assert CellSegments(columnNames, w)
        == seq(|columnNames|, i requires 0 <= i < |columnNames| => columnNames[i] + " | ");
  }

  /** `printResultSet`'s header and data-row loop: one segment per cell. */
  method PrintCells(cells: seq<string>, maxLengths: seq<nat>) returns (line: string)
    requires |cells| <= |maxLengths|
    ensures line == CellLine(cells, maxLengths)
  {
    ghost var segments := CellSegments(cells, maxLengths);
    line := "";
    for i := 0 to |cells|
      invariant line == Concat(segments[..i])
    {
      assert segments[..i + 1][..i] == segments[..i];
      line := line + Fill(cells[i], maxLengths[i]);
      line := line + " | ";
    }
    assert segments[..|cells|] == segments;
  }

  /** `printResultSet`'s separator loop. */
  method PrintSeparator(maxLengths: seq<nat>) returns (line: string)
    ensures line == SeparatorLine(maxLengths)
  {
    ghost var segments := SeparatorSegments(maxLengths);
    line := "";
    for i := 0 to |maxLengths|
      invariant line == Concat(segments[..i])
    {
      assert segments[..i + 1][..i] == segments[..i];
      line := line + Repeat('-', maxLengths[i]);
      line := line + "-|";
      if i < |maxLengths| - 1 {
        line := line + "-";
      }
    }
    assert segments[..|maxLengths|] == segments;
  }

  /** `printResultSet`'s loop over the data rows: one line per row, in order. */
  method PrintRows(result: seq<seq<string>>, maxLengths: seq<nat>) returns (lines: seq<string>)
    requires Rectangular(result, |maxLengths|)
    ensures lines == RowLines(result, maxLengths)
  {
    lines := [];
    for r := 0 to |result|
      invariant |lines| == r
      invariant forall k :: 0 <= k < r ==> lines[k] == CellLine(result[k], maxLengths)
    {
      var line := PrintCells(result[r], maxLengths);
      lines := lines + [line];
    }
    forall k | 0 <= k < |result|
      ensures lines[k] == RowLines(result, maxLengths)[k]
    {
      RowLinesAt(result, maxLengths, k);
    }
  }

  /**
   * `printResultSet`: prints the header, the separator and the rows in input
   * order, one line each.
   */
  method PrintResultSet(result: seq<seq<string>>, columnNames: seq<string>) returns (lines: seq<string>)
    requires Rectangular(result, |columnNames|)
    ensures lines == Render(result, columnNames)
    ensures |lines| == 2 + |result|
    ensures lines[0] == CellLine(columnNames, Widths(result, columnNames))
    ensures lines[1] == SeparatorLine(Widths(result, columnNames))
    ensures forall k :: 0 <= k < |result| ==> lines[k + 2] == CellLine(result[k], Widths(result, columnNames))
  {
    var maxLengths := GetMaxColumnLengths(result, columnNames);
    var header := PrintCells(columnNames, maxLengths);
    var separator := PrintSeparator(maxLengths);
    var rows := PrintRows(result, maxLengths);
    lines := [header, separator] + rows;
    RenderLines(result, columnNames);
  }

  lemma ConcatPair(a: string, b: string)
    ensures Concat([a, b]) == a + b
  {
    assert [a, b][..1] == [a];
    assert [a][..0] == [];
    assert Concat([a]) == Concat([]) + a;
    assert Concat([a, b]) == Concat([a]) + b;
  }

  /** The column widths for the columns id and name and the rows (1, Al) and (2, NULL). */
  lemma WidthsExample()
    ensures Widths([["1", "Al"], ["2", "NULL"]], ["id", "name"]) == [2, 4]
  {
    var r0, r1, h := ["1", "Al"], ["2", "NULL"], ["id", "name"];
    var data := Scanned([r0, r1], h);
    assert data == [r0, r1, h];
    assert data[..2] == [r0, r1];
    assert [r0, r1][..1] == [r0];
    assert [r0][..0] == [];
    assert MaxLength([r0], 0) == 1 && MaxLength([r0], 1) == 2;
    assert MaxLength([r0, r1], 0) == 1 && MaxLength([r0, r1], 1) == 4;
    assert MaxLength(data, 0) == 2 && MaxLength(data, 1) == 4;
  }

  lemma FillExample()
    ensures Fill("id", 2) == "id" && Fill("name", 4) == "name"
    ensures Fill("1", 2) == " 1" && Fill("2", 2) == " 2"
    ensures Fill("Al", 4) == "  Al" && Fill("NULL", 4) == "NULL"
  {
    assert Repeat(' ', 1) == " ";
    assert Repeat(' ', 2) == "  ";
  }

  lemma HeaderLineExample()
    ensures CellLine(["id", "name"], [2, 4]) == "id | name | "
  {
    FillExample();
    var segments := CellSegments(["id", "name"], [2, 4]);
    assert segments[0] == "id | ";
    assert segments[1] == "name | ";
    assert segments == ["id | ", "name | "];
    ConcatPair("id | ", "name | ");
  }

  /** The data lines of that table: each cell right-aligned to widths 2 and 4. */
  lemma RowLinesExample()
    ensures CellLine(["1", "Al"], [2, 4]) == " 1 |   Al | "
    ensures CellLine(["2", "NULL"], [2, 4]) == " 2 | NULL | "
  {
    FillExample();
    var first, second := CellSegments(["1", "Al"], [2, 4]), CellSegments(["2", "NULL"], [2, 4]);
    assert first[0] == " 1 | " && first[1] == "  Al | ";
    assert first == [" 1 | ", "  Al | "];
    ConcatPair(" 1 | ", "  Al | ");
    assert second[0] == " 2 | " && second[1] == "NULL | ";
    assert second == [" 2 | ", "NULL | "];
    ConcatPair(" 2 | ", "NULL | ");
  }

  lemma SeparatorLineExample()
    ensures SeparatorLine([2, 4]) == "---|------|"
  {
    var w: seq<nat> := [2, 4];
    assert Repeat('-', 2) == "--";
    assert Repeat('-', 4) == "----";
    assert SeparatorSegment(w, 0) == "---|-";
    assert SeparatorSegment(w, 1) == "-----|";
    assert SeparatorSegments(w) == ["---|-", "-----|"];
    ConcatPair("---|-", "-----|");
  }

  /** The table for the columns id and name and the rows (1, Al) and (2, NULL). */
  lemma RenderExample()
    ensures Render([["1", "Al"], ["2", "NULL"]], ["id", "name"])
         == ["id | name | ", "---|------|", " 1 |   Al | ", " 2 | NULL | "]
  {
    var result, names := [["1", "Al"], ["2", "NULL"]], ["id", "name"];
    WidthsExample();
    HeaderLineExample();
    SeparatorLineExample();
    RowLinesExample();
    var w := Widths(result, names);
    assert w == [2, 4];
    RenderLines(result, names);
    var lines := Render(result, names);
    assert lines[0] == CellLine(names, w);
    assert lines[1] == SeparatorLine(w);
    assert lines[2] == CellLine(result[0], w);
    assert lines[3] == CellLine(result[1], w);
  }
}
