# sql: a verified model of the text-table renderer and statement loop

`sql.java` is a JBang command-line SQL client. It connects to a database over
JDBC and runs either one statement from the command line or, with `--stdin`,
one statement for each line of standard input. Each result set is printed as
a plain-text table: a header line, a dashed separator line and one line per
row. Every cell is right-aligned to the width of its column, which is the
length of the column's longest header or data cell.

The model has three modules:

- `Wrappers` (`Wrappers.dfy`): `Option`, which stands for a value that may be
  SQL NULL.
- `Table` (`Table.dfy`): `fill`, `getMaxColumnLengths` and `printResultSet`.
  - `Fill` is a function, as in the source.
  - `GetMaxColumnLengths` is a method with the source's nested loops, proved
    against the functional maximum `Widths` and `MaxLength`.
  - `PrintResultSet`, `PrintCells`, `PrintSeparator` and `PrintRows` are methods that
    return the printed lines instead of writing them.
  - There is one line per `println`, without the terminator.
  - The methods are proved equal to `Render`, `CellLine`, `SeparatorLine` and `RowLines`.
  - Lemmas state the exact layout of those lines: the line count and order,
    line lengths, the contents of each column segment, and where each `|`
    falls.
- `Client` (`Client.dfy`): `readResult`, `getColumnNames`, `execute`,
  `processStdin` and `call`.
  - A result set is a `Cursor`: column names plus rows of
    `Option<string>` values.
  - The database is a parameter: a function from the statements already
    executed, plus the next statement, to an `Outcome`. There are four
    outcomes:
    - no result set;
    - a result set;
    - a failure, an SQLException raised before anything is printed;
    - a result set that is printed, after which closing the statement
      raises an SQLException (sql.java:63, 69-72).
  - The streaming loop is a method proved equal to the recursive
    specification `Session`.
  - Lemmas about `Session` state the fail-fast behaviour:
    - statements run in input order;
    - the first failure ends the run with status 1;
    - nothing after that failure runs;
    - status 0 means every statement succeeded and all were executed.

When no statement is given, `call` (sql.java:44-47) prints the usage text and
then still executes the empty statement; `Client.Call` models this.

## Model

| member | source | states |
|---|---|---|
| `Table.Repeat` | sql.java:87 | `"-".repeat(n)` / `" ".repeat(n)`: exactly `n` characters, each of them `c` |
| `Table.Fill` | sql.java:153-161 | the result is as long as the longer of `s` and `n`: never shorter than the field and never truncated |
| `Table.FillSpec` | sql.java:155-160 | a string at least `n` long comes back unchanged; otherwise the result is `n` long, ends with `s`, and every character before `s` is a space |
| `Table.FillUnique` | sql.java:153-161 | those properties determine the result: any string that has them is `fill(s, n)` |
| `Table.MaxLengthIsMaximum` | sql.java:141-148 | the running maximum of column `i` over a list of rows is at least every row's cell `i`, is that of one of the rows, and is 0, the initial value, for no rows |
| `Table.Scanned` | sql.java:130-131 | the scanned table is the data rows followed by the header: one row more, still rectangular |
| `Table.Widths` | sql.java:128-151 | there is one width per column |
| `Table.WidthIsColumnMaximum` | sql.java:130-148 | width `i` is at least the header label's length and every row's cell `i` length, and equals one of them: it is their maximum |
| `Table.WidthsWithoutRows` | sql.java:130-138 | with no data rows the widths are the lengths of the header labels |
| `Table.GetMaxColumnLengths` | sql.java:128-151 | the zero-initialised, in-place updated list equals the column maxima `Widths` |
| `Table.Render` | sql.java:76-103 | a table has two lines more than it has data rows |
| `Table.RowLines` | sql.java:96-102 | one line per data row |
| `Table.RowLinesAt` | sql.java:96-102 | line `k` of the data part is the line of row `k`, so the rows keep their input order |
| `Table.ConcatSegment` | sql.java:79-82 | a segment printed after others sits right after them in the line |
| `Table.ConcatLength` | sql.java:79-82 | segments that are each 3 characters wider than their column make a line of `Sum(w) + 3·n` characters |
| `Table.CellSegmentLengths` | sql.java:97-99 | a cell that fits its column gives a segment `w[i] + 3` long |
| `Table.CellStart` | sql.java:97-99 | in a header or data line, column `k` starts at `Sum(w[..k]) + 3·k` |
| `Table.CellLineLength` | sql.java:97-100 | a header or data line whose cells fit is `Sum(w) + 3·n` long |
| `Table.CellLineLayout` | sql.java:97-100 | column `k` of such a line is `fill(cell_k, w_k)` followed by the bar separator (space, bar, space), at its start offset |
| `Table.SeparatorLength` | sql.java:86-92 | the separator line is `Sum(w) + 3·n - 1` long, because the last column has no trailing dash |
| `Table.SeparatorColumn` | sql.java:86-92 | column `k` of the separator is `w_k` dashes, then a dash and a bar, then one more `-` except after the last column; it starts where column `k` starts in the other lines |
| `Table.SeparatorWithoutColumns` | sql.java:86-92 | a result set without columns has an empty separator line |
| `Table.RenderLines` | sql.java:76-103 | line 0 is the header, line 1 the separator, and line `k + 2` the line of row `k` |
| `Table.HeaderFits` | sql.java:79-81 | every header label fits within its column's width, so `fill` never returns it longer than the width |
| `Table.RowFits` | sql.java:97-98 | every cell of every data row fits within its column's width |
| `Table.CellLinePipe` | sql.java:97-100 | in a header or data line, the bar after column `k` is at `Start(w, k) + w_k + 1` |
| `Table.SeparatorPipe` | sql.java:86-92 | in the separator, the bar after column `k` is at the same position |
| `Table.HeaderAligned` | sql.java:79-84 | the header line is `Sum(w) + 3·n` long and has each column's bar at its aligned position |
| `Table.SeparatorAligned` | sql.java:86-94 | the separator line is one character shorter and has each bar at the same positions |
| `Table.RowAligned` | sql.java:96-102 | every data line is as long as the header line and has each bar at the same positions |
| `Table.RenderHeaderCell` | sql.java:79-82 | column `k` of the header line is the label, right-aligned to the column width, then the bar separator |
| `Table.RenderRowCell` | sql.java:97-100 | column `k` of the line of row `r` is the cell, right-aligned to the column width, then the bar separator |
| `Table.RenderWithoutRows` | sql.java:76-103 | with no data rows, the table is the unpadded labels, each followed by the bar separator, and a separator sized to the labels |
| `Table.PrintCells` | sql.java:97-101 | the loop over the cells prints exactly the header or data line `CellLine` |
| `Table.PrintSeparator` | sql.java:86-94 | the separator loop prints exactly `SeparatorLine` |
| `Table.PrintRows` | sql.java:96-102 | the loop over the data rows prints exactly `RowLines`: one line per row, in order |
| `Table.PrintResultSet` | sql.java:76-103 | the printed lines are `Render`: two lines more than it has data rows, where line 0 is the header, line 1 the separator, and line `k + 2` is row `k` |
| `Table.ConcatPair` | sql.java:79-82 | two segments printed in turn give their concatenation |
| `Table.WidthsExample` | sql.java:128-151 | for the columns `id` and `name` and the rows `(1, Al)` and `(2, NULL)`, the widths are `[2, 4]` |
| `Table.FillExample` | sql.java:153-161 | `fill` pads `1` to `" 1"` and `Al` to `"  Al"`, and leaves `id`, `name` and `NULL` unchanged |
| `Table.HeaderLineExample` | sql.java:79-84 | that table's header line is `id`, the bar separator, `name`, the bar separator |
| `Table.RowLinesExample` | sql.java:96-101 | its data lines are `1` padded to 2 and `Al` padded to 4, then `2` padded to 2 and `NULL` unpadded, each cell followed by the bar separator |
| `Table.SeparatorLineExample` | sql.java:86-94 | its separator line is three dashes, a bar, six dashes and a bar |
| `Table.RenderExample` | sql.java:76-103 | the whole table is those four lines, in that order |
| `Client.Materialise` | sql.java:113-126 | the text rows of a cursor form a rectangular table, with one cell per metadata column |
| `Client.ReadResult` | sql.java:113-126 | one row per cursor row in order, each with one cell per column in order; SQL NULL becomes `"NULL"` and any other value is kept unchanged |
| `Client.GetColumnNames` | sql.java:105-111 | the column names, in metadata order |
| `Client.ShowResult` | sql.java:68-69 | reading a result set and printing it gives exactly its rendered table |
| `Client.Execute` | sql.java:62-74 | `ok` is false exactly when the statement raises an SQLException, including one from closing the statement after its table was printed. The output is the rendered table whenever a result set was printed, failure on close included; it is empty for a statement without a result set and for one that failed before printing; a table has `2 + rows` lines |
| `Client.SessionStep` | sql.java:57-58 | one line of input adds its statement and outcome to the run, which then ends with status 1 if the statement failed and otherwise continues with the rest |
| `Client.StreamStep` | sql.java:57-58 | one pass of the read-execute loop adds that line's output to what was printed, then either ends the run with status 1 or extends the run so far by that line and its outcome |
| `Client.StreamEnd` | sql.java:57 | at the end of input the run so far is the whole run, ending with status 0 |
| `Client.ProcessStdin` | sql.java:53-60 | the loop prints, executes and ends exactly as `Session` says: the lines in order until the first failure |
| `Client.Call` | sql.java:39-51 | in streaming mode the run is the session over the input. Otherwise it is the usage text, if the statement is empty, followed by the run of that single statement, and exactly that one statement is executed |
| `Client.HistoryShift` | sql.java:57-58 | the statements before line `k` of the input are those before line `k - 1` of its tail, after the first line |
| `Client.SessionExecutesPrefix` | sql.java:57-59 | the executed statements are a prefix of the input, in input order, and the status is 0 or 1 |
| `Client.SessionSucceeds` | sql.java:57-72 | status is 0 exactly when every statement of the input succeeds, and then every line was executed |
| `Client.SessionStopsAtFailure` | sql.java:62-73 | with status 1, the last executed statement failed and every one before it succeeded: the run stops at the first failure |
| `Client.SessionAnswers` | sql.java:57-72 | the outcomes printed are those of all executed statements, in order and with their true histories; the failed one is among them, as it may have printed its table before closing its statement failed |
| `Client.AfterFailureNothingRuns` | sql.java:70-73 | after a failure, further input changes nothing: no later statement runs |
| `Client.SessionConcat` | sql.java:57-59 | streaming two pieces of input, the first without failure, is streaming the first and then the second after it |
| `Client.StreamingExample` | sql.java:53-73 | input `SELECT 1`, then a failing line, then `SELECT 2`: only the first table is printed, `SELECT 2` never runs, and the status is 1 |
| `Client.CloseFailureExample` | sql.java:63-72 | a query whose table is printed before closing its statement fails: the table is the whole output, the next line never runs, and the status is 1 |
| `Client.ReadResultExample` | sql.java:117-124 | the cursor with the rows `(1, Al)` and `(2, NULL)` reads as `[["1", "Al"], ["2", "NULL"]]` |
| `Client.OutputExample` | sql.java:62-69 | executing a query with that result set prints the four-line table |

## Left out

- JDBC is not modelled:
  - `DriverManager.getConnection`, `createStatement`, `st.execute`, `ResultSetMetaData` and `rs.getString` are replaced by the `Database` parameter and the `Cursor` sequences.
  - A failure to connect (sql.java:40) is not modelled.
  - The values a real driver returns are not modelled.
- An SQLException raised while reading a result set is modelled as the `Failure` outcome of the statement. Nothing is printed before the whole result set has been read, so no output is lost by this.
- An SQLException raised when the statement is closed, after its table was printed, is the `RowsThenFailure` outcome. The model does not distinguish it from one raised when closing a statement that had no result set; the latter is modelled as `Failure`, as it likewise prints nothing.
- picocli option parsing, `--help`/`--version` and the text of the usage message are left out. The usage text is a parameter of `Client.Call`.
- Reading standard input through a `BufferedReader` is I/O. The lines read are the parameter `input`.
- `printStackTrace` writes to standard error. That output and its text are not modelled.
- `System.exit(1)` is modelled as the end of the run with status 1. The model does not say that `con.close()` is skipped on that path.
- `con.close()` itself is not modelled.
- Java counts string length in UTF-16 code units. The model counts characters of `seq<char>`.
- Rows whose length differs from the number of columns would throw an index exception in `getMaxColumnLengths` (sql.java:142-144). The `Table` members exclude them with `Rectangular`. A JDBC result set never has such rows, and `Cursor` rules them out.
- Table.Fill: its own contract only gives the length. The exact result is stated by `Table.FillSpec` and `Table.FillUnique`.
- Table.Widths: its own contract only gives the count. Its values are stated by `Table.WidthIsColumnMaximum`.
