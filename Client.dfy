/**
 * The statement side of the sql client: reading a result set into rows of
 * text (readResult, getColumnNames), executing one statement (execute), the
 * line-by-line loop over standard input (processStdin) and the choice between
 * the two modes (call).
 *
 * The database is not modelled. It is a function that, given the statements
 * already executed on the connection and the next one, says what executing
 * that statement yields: no result set, a result set, or an SQLException.
 */
module Client {
  import opened Wrappers
  import Table

  /**
   * A result set as its cursor exposes it: the column names its metadata reports and,
   * row by row, each column's value, None for SQL NULL.
   */
  datatype ResultSet = ResultSet(columnNames: seq<string>, values: seq<seq<Option<string>>>)

  /** Every row of a cursor has one value per column of its metadata. */
  predicate WellFormed(rs: ResultSet)
  {
    forall j :: 0 <= j < |rs.values| ==> |rs.values[j]| == |rs.columnNames|
  }

  type Cursor = rs: ResultSet | WellFormed(rs) witness ResultSet([], [])

  /** What executing one statement yields. */
  datatype Outcome =
    | NoResult          // `st.execute` returned false: an update or DDL statement
    | Rows(rs: Cursor)  // a result set, read completely without error
    | Failure           // an SQLException while executing or while reading the result set
    | RowsThenFailure(rs: Cursor)  // the result set was printed, then closing the statement raised an SQLException

  /** The statement raised an SQLException, so the client exits with status 1. */
  predicate Fails(outcome: Outcome)
  {
    outcome.Failure? || outcome.RowsThenFailure?
  }

  /** The database: the outcome of a statement, given the statements executed before it. */
  type Database = (seq<string>, string) -> Outcome

  /** The observable end of a run: the lines printed, the statements executed, the exit status. */
  datatype Run = Run(output: seq<string>, executed: seq<string>, status: int)

  /**
   * How a run unfolds: the outcome of every statement executed, in order
   * (the failing one included, as it may have printed its table before it
   * failed), the statements executed, and the exit status.
   */
  datatype Trace = Trace(answered: seq<Outcome>, executed: seq<string>, status: int)

  /** The text of one cell: the literal NULL for an SQL NULL, otherwise the value itself. */
  function CellText(v: Option<string>): string
  {
    match v
    case None => "NULL"
    case Some(s) => s
  }

  /** The rows readResult builds from a cursor. */
  function Materialise(rs: Cursor): (result: seq<seq<string>>)
    ensures Table.Rectangular(result, |rs.columnNames|)
  {
    seq(|rs.values|, j requires 0 <= j < |rs.values| =>
      seq(|rs.columnNames|, i requires 0 <= i < |rs.columnNames| => CellText(rs.values[j][i])))
  }

  /**
   * `readResult`: one row per cursor row, in order, each with one cell per
   * column, in order; a NULL becomes the text NULL and any other value is
   * kept as it is.
   */
  method ReadResult(rs: Cursor) returns (result: seq<seq<string>>)
    ensures result == Materialise(rs)
    ensures |result| == |rs.values|
    ensures forall j :: 0 <= j < |result| ==> |result[j]| == |rs.columnNames|
    ensures forall j, i :: 0 <= j < |result| && 0 <= i < |rs.columnNames| ==>
      (rs.values[j][i].None? ==> result[j][i] == "NULL") &&
      (rs.values[j][i].Some? ==> result[j][i] == rs.values[j][i].value)
  {
    result := [];
    var next := 0;
    while next < |rs.values|
      invariant next <= |rs.values|
      invariant result == Materialise(rs)[..next]
    {
      var row := [];
      for i := 0 to |rs.columnNames|
        invariant row == Materialise(rs)[next][..i]
      {
        var value := rs.values[next][i];
        row := row + [if value.None? then "NULL" else value.value];
      }
      assert row == Materialise(rs)[next];
      assert Materialise(rs)[..next + 1] == Materialise(rs)[..next] + [Materialise(rs)[next]];
      result := result + [row];
      next := next + 1;
    }
  }

  /** `getColumnNames`: the column labels, in metadata order. */
  method GetColumnNames(rs: Cursor) returns (columnNames: seq<string>)
    ensures columnNames == rs.columnNames
  {
    columnNames := [];
    for i := 0 to |rs.columnNames|
      invariant columnNames == rs.columnNames[..i]
    {
      columnNames := columnNames + [rs.columnNames[i]];
    }
  }

  /** What executing a statement prints: the table of its result set, if it got as far as printing one. */
  function Output(outcome: Outcome): seq<string>
  {
    match outcome
    case Rows(rs) => Table.Render(Materialise(rs), rs.columnNames)
    case RowsThenFailure(rs) => Table.Render(Materialise(rs), rs.columnNames)
    case _ => []
  }

  /**
   * `execute`: runs one statement and prints its result set. `ok` is false
   * when it raised an SQLException, after which the client exits with status
   * 1. An exception while executing the statement or reading its result set
   * comes before anything is printed, because a result set is printed only
   * once it has been read completely; one raised when the statement is
   * closed comes after its table was printed.
   */
  method Execute(db: Database, history: seq<string>, statement: string) returns (lines: seq<string>, ok: bool)
    ensures ok <==> !Fails(db(history, statement))
    ensures lines == Output(db(history, statement))
    ensures db(history, statement).NoResult? || db(history, statement).Failure? ==> lines == []
    ensures db(history, statement).Rows? || db(history, statement).RowsThenFailure? ==>
      |lines| == 2 + |db(history, statement).rs.values|
  {
    var outcome := db(history, statement);
    match outcome {
      case NoResult =>
        lines, ok := [], true;
      case Failure =>
        lines, ok := [], false;
      case Rows(rs) =>
        lines := ShowResult(rs);
        ok := true;
      case RowsThenFailure(rs) =>
        lines := ShowResult(rs);
        ok := false;
    }
  }

  /** Line 69 of `execute`: reading a result set and printing it as a table. */
  method ShowResult(rs: Cursor) returns (lines: seq<string>)
    ensures lines == Table.Render(Materialise(rs), rs.columnNames)
  {
    var result := ReadResult(rs);
    var columnNames := GetColumnNames(rs);
    lines := Table.PrintResultSet(result, columnNames);
  }

  /**
   * Streaming mode over `input`, the lines still to be read, after the
   * statements `history`: every line is executed in order until one fails,
   * which ends the run with status 1; reaching the end of input ends it
   * with status 0.
   */
  function Session(db: Database, history: seq<string>, input: seq<string>): Trace
    decreases |input|
  {
    if input == [] then Trace([], [], 0)
    else
      var outcome := db(history, input[0]);
      if Fails(outcome) then Trace([outcome], [input[0]], 1)
      else
        var rest := Session(db, history + [input[0]], input[1..]);
        Trace([outcome] + rest.answered, [input[0]] + rest.executed, rest.status)
  }

  /** A run that got `answered` for statements `executed` and then went on as `rest`. */
  function Resume(answered: seq<Outcome>, executed: seq<string>, rest: Trace): Trace
  {
    Trace(answered + rest.answered, executed + rest.executed, rest.status)
  }

  /** What a sequence of outcomes prints, one after the other. */
  function Transcript(outcomes: seq<Outcome>): seq<string>
  {
    if outcomes == [] then [] else Transcript(outcomes[..|outcomes| - 1]) + Output(outcomes[|outcomes| - 1])
  }

  /** What can be observed of a run: what it printed, what it executed and how it ended. */
  function Observed(trace: Trace): Run
  {
    Run(Transcript(trace.answered), trace.executed, trace.status)
  }

  /** One step of streaming mode, as seen from the run so far. */
  lemma SessionStep(db: Database, history: seq<string>, input: seq<string>, answered: seq<Outcome>, executed: seq<string>)
    requires input != []
    ensures var outcome := db(history, input[0]);
      Resume(answered, executed, Session(db, history, input))
      == if Fails(outcome) then Trace(answered + [outcome], executed + [input[0]], 1)
         else Resume(answered + [outcome], executed + [input[0]], Session(db, history + [input[0]], input[1..]))
  {
    assert answered + [] == answered;
  }

  /**
   * The run so far, for the first `next` lines of `input`: they were all
   * executed, their outcomes printed, and the run goes on from there.
   */
  ghost predicate Streamed(db: Database, input: seq<string>, next: nat, answered: seq<Outcome>, executed: seq<string>)
  {
    && next <= |input|
    && executed == input[..next]
    && Session(db, [], input) == Resume(answered, executed, Session(db, executed, input[next..]))
  }

  /** Executing line `next` either ends the run with status 1 or extends the run so far by one line. */
  lemma StreamStep(db: Database, input: seq<string>, next: nat, answered: seq<Outcome>, executed: seq<string>)
    requires Streamed(db, input, next, answered, executed) && next < |input|
    ensures Transcript(answered + [db(executed, input[next])]) == Transcript(answered) + Output(db(executed, input[next]))
    ensures Fails(db(executed, input[next])) ==>
      Session(db, [], input) == Trace(answered + [db(executed, input[next])], executed + [input[next]], 1)
    ensures !Fails(db(executed, input[next])) ==>
      Streamed(db, input, next + 1, answered + [db(executed, input[next])], executed + [input[next]])
  {
    SessionStep(db, executed, input[next..], answered, executed);
    assert input[next..][1..] == input[next + 1..];
    assert input[..next + 1] == input[..next] + [input[next]];
    var outcome := db(executed, input[next]);
    assert (answered + [outcome])[..|answered|] == answered;
  }

  /** At the end of input the run so far is the whole run, ended with status 0. */
  lemma StreamEnd(db: Database, input: seq<string>, answered: seq<Outcome>, executed: seq<string>)
    requires Streamed(db, input, |input|, answered, executed)
    ensures Session(db, [], input) == Trace(answered, executed, 0)
  {
    assert input[|input|..] == [];
    assert answered + [] == answered;
    assert executed + [] == executed;
  }

  /** `processStdin`: reads lines until the end of input and executes each one. */
  method ProcessStdin(db: Database, input: seq<string>) returns (run: Run)
    ensures run == Observed(Session(db, [], input))
  {
    var output: seq<string> := [];
    var executed: seq<string> := [];
    ghost var answered: seq<Outcome> := [];
    var next := 0;
    while next < |input|
      invariant Streamed(db, input, next, answered, executed)
      invariant output == Transcript(answered)
    {
      var line := input[next];
      var lines, ok := Execute(db, executed, line);
      StreamStep(db, input, next, answered, executed);
      if !ok {
        return Run(output + lines, executed + [line], 1);
      }
      output := output + lines;
      answered := answered + [db(executed, line)];
      executed := executed + [line];
      next := next + 1;
    }
    StreamEnd(db, input, answered, executed);
    run := Run(output, executed, 0);
  }

  /**
   * `call`: in streaming mode runs `input`; otherwise prints the usage text
   * `usage` when the statement is empty and then executes the statement,
   * the empty one included.
   */
  method Call(db: Database, stdin: bool, statement: string, input: seq<string>, usage: seq<string>) returns (run: Run)
    ensures stdin ==> run == Observed(Session(db, [], input))
    ensures !stdin ==>
      var single := Observed(Session(db, [], [statement]));
      run == Run((if statement == "" then usage else []) + single.output, single.executed, single.status)
    ensures !stdin ==> run.executed == [statement]
  {
    if stdin {
      run := ProcessStdin(db, input);
    } else {
      var output := if statement == "" then usage else [];
      var lines, ok := Execute(db, [], statement);
      run := Run(output + lines, [statement], if ok then 0 else 1);
      ghost var outcome := db([], statement);
      assert [statement][1..] == [];
      assert [outcome][..0] == [];
      assert Transcript([outcome]) == Output(outcome);
    }
  }

  /** The history before line `k` of `input` is the history before line `k - 1` of its tail. */
  lemma HistoryShift(history: seq<string>, input: seq<string>, k: nat)
    requires 0 < k <= |input|
    ensures history + input[..k] == (history + [input[0]]) + input[1..][..k - 1]
    ensures input[k - 1] == if k == 1 then input[0] else input[1..][k - 2]
  {
    assert input[..k] == [input[0]] + input[1..][..k - 1];
  }

  /** The statement at position `k` of `input`, with the statements before it as history, did not fail. */
  ghost predicate Succeeds(db: Database, history: seq<string>, input: seq<string>, k: nat)
    requires k < |input|
  {
    !Fails(db(history + input[..k], input[k]))
  }

  /**
   * The statements a streaming run executes are a prefix of its input, and
   * it ends with status 0 or 1.
   */
  lemma {:induction false} SessionExecutesPrefix(db: Database, history: seq<string>, input: seq<string>)
    ensures var run := Session(db, history, input);
      && (run.status == 0 || run.status == 1)
      && |run.executed| <= |input|
      && run.executed == input[..|run.executed|]
    decreases |input|
  {
    if input != [] && !Fails(db(history, input[0])) {
      var tail := input[1..];
      SessionExecutesPrefix(db, history + [input[0]], tail);
      var m := |Session(db, history + [input[0]], tail).executed|;
      assert [input[0]] + tail[..m] == input[..m + 1];
    }
  }

  /**
   * A streaming run ends with status 0 exactly when no statement of its
   * input fails, and then it has executed every line.
   */
  lemma {:induction false} SessionSucceeds(db: Database, history: seq<string>, input: seq<string>)
    ensures var run := Session(db, history, input);
      (run.status == 0) <==> (forall k :: 0 <= k < |input| ==> Succeeds(db, history, input, k))
    ensures var run := Session(db, history, input);
      run.status == 0 ==> run.executed == input
    decreases |input|
  {
    if input != [] {
      var h' := history + [input[0]];
      var tail := input[1..];
      assert history + input[..0] == history;
      if !Fails(db(history, input[0])) {
        SessionSucceeds(db, h', tail);
        forall k | 1 <= k < |input|
          ensures Succeeds(db, history, input, k) == Succeeds(db, h', tail, k - 1)
        {
          HistoryShift(history, input, k + 1);
          HistoryShift(history, input, k);
        }
        if Session(db, history, input).status == 0 {
          forall k | 0 <= k < |input|
            ensures Succeeds(db, history, input, k)
          {
            if k > 0 {
              assert Succeeds(db, h', tail, k - 1);
            }
          }
        } else {
          var k :| 0 <= k < |tail| && !Succeeds(db, h', tail, k);
          assert !Succeeds(db, history, input, k + 1);
        }
      } else {
        assert !Succeeds(db, history, input, 0);
      }
    }
  }

  /**
   * A streaming run that ends with status 1 ends right after the first
   * statement that failed: the last statement it executed failed and every
   * one before it succeeded.
   */
  lemma {:induction false} SessionStopsAtFailure(db: Database, history: seq<string>, input: seq<string>)
    ensures var run, n := Session(db, history, input), |Session(db, history, input).executed|;
      run.status == 1 ==>
        && 0 < n <= |input|
        && !Succeeds(db, history, input, n - 1)
        && forall k :: 0 <= k < n - 1 ==> Succeeds(db, history, input, k)
    decreases |input|
  {
    if input != [] {
      var h' := history + [input[0]];
      var tail := input[1..];
      assert history + input[..0] == history;
      if !Fails(db(history, input[0])) {
        SessionStopsAtFailure(db, h', tail);
        var m := |Session(db, h', tail).executed|;
        if Session(db, history, input).status == 1 {
          HistoryShift(history, input, m);
          HistoryShift(history, input, m + 1);
          forall k | 0 <= k < m
            ensures Succeeds(db, history, input, k)
          {
            if k > 0 {
              HistoryShift(history, input, k);
              HistoryShift(history, input, k + 1);
              assert Succeeds(db, h', tail, k - 1);
            }
          }
        }
      }
    }
  }

  /**
   * The outcomes a streaming run prints are those of its executed
   * statements, in order, each given the statements before it as history;
   * the one that failed is among them, as it may have printed its table.
   */
  lemma {:induction false} SessionAnswers(db: Database, history: seq<string>, input: seq<string>)
    ensures var run := Session(db, history, input);
      && |run.answered| == |run.executed|
      && forall k :: 0 <= k < |run.answered| ==> k < |input| && run.answered[k] == db(history + input[..k], input[k])
    decreases |input|
  {
    if input != [] {
      var h' := history + [input[0]];
      var tail := input[1..];
      assert history + input[..0] == history;
      if !Fails(db(history, input[0])) {
        SessionAnswers(db, h', tail);
        SessionExecutesPrefix(db, h', tail);
        var run := Session(db, history, input);
        forall k | 1 <= k < |run.answered|
          ensures k < |input| && run.answered[k] == db(history + input[..k], input[k])
        {
          HistoryShift(history, input, k + 1);
          HistoryShift(history, input, k);
        }
      }
    }
  }

  /**
   * Once a statement has failed, nothing after it runs: input appended after
   * a failing run changes neither its output nor its statements nor its status.
   */
  lemma {:induction false} AfterFailureNothingRuns(db: Database, history: seq<string>, input: seq<string>, more: seq<string>)
    requires Session(db, history, input).status == 1
    ensures Session(db, history, input + more) == Session(db, history, input)
    decreases |input|
  {
    var whole := input + more;
    assert whole[0] == input[0];
    if !Fails(db(history, input[0])) {
      assert whole[1..] == input[1..] + more;
      var h' := history + [input[0]];
      assert Session(db, h', input[1..]).status == 1;
      AfterFailureNothingRuns(db, h', input[1..], more);
    }
  }

  /**
   * Streaming over two pieces of input, the first of which runs without
   * error, is streaming over the first and then over the second with the
   * first one's statements as history.
   */
  lemma {:induction false} SessionConcat(db: Database, history: seq<string>, first: seq<string>, second: seq<string>)
    requires Session(db, history, first).status == 0
    ensures var run := Session(db, history, first);
      Session(db, history, first + second) == Resume(run.answered, run.executed, Session(db, history + first, second))
    decreases |first|
  {
    if first == [] {
      assert first + second == second;
      assert history + first == history;
    } else {
      var s, h' := first[0], history + [first[0]];
      var whole := first + second;
      assert whole[0] == s;
      assert whole[1..] == first[1..] + second;
      assert h' + first[1..] == history + first;
      var outcome, tail := db(history, s), Session(db, h', first[1..]);
      assert Session(db, history, first) == Trace([outcome] + tail.answered, [s] + tail.executed, tail.status);
      SessionConcat(db, h', first[1..], second);
      var rest := Session(db, h', first[1..] + second);
      assert Session(db, history, whole) == Trace([outcome] + rest.answered, [s] + rest.executed, rest.status);
      var after := Session(db, history + first, second);
      assert ([outcome] + tail.answered) + after.answered == [outcome] + (tail.answered + after.answered);
      assert ([s] + tail.executed) + after.executed == [s] + (tail.executed + after.executed);
    }
  }

  /**
   * The first line succeeds, the second fails: the output is the first
   * statement's alone, the third line is never executed and the status is 1.
   */
  lemma StreamingExample(db: Database)
    requires !Fails(db([], "SELECT 1"))
    requires db(["SELECT 1"], "BAD SQL").Failure?
    ensures Observed(Session(db, [], ["SELECT 1", "BAD SQL", "SELECT 2"]))
         == Run(Output(db([], "SELECT 1")), ["SELECT 1", "BAD SQL"], 1)
  {
    var input := ["SELECT 1", "BAD SQL", "SELECT 2"];
    assert input[1..] == ["BAD SQL", "SELECT 2"];
    assert [] + ["SELECT 1"] == ["SELECT 1"];
    var first := db([], "SELECT 1");
    assert Session(db, [], input) == Trace([first, Failure], ["SELECT 1", "BAD SQL"], 1);
    assert [first, Failure][..1] == [first];
    assert [first][..0] == [];
    assert Transcript([first]) == Output(first);
  }

  /**
   * A query whose table is printed before closing its statement fails: the
   * table is the output, the next line is never executed and the status is 1.
   */
  lemma CloseFailureExample(db: Database, rs: Cursor)
    requires db([], "SELECT 1") == RowsThenFailure(rs)
    ensures Observed(Session(db, [], ["SELECT 1", "SELECT 2"]))
         == Run(Table.Render(Materialise(rs), rs.columnNames), ["SELECT 1"], 1)
  {
    assert Session(db, [], ["SELECT 1", "SELECT 2"]) == Trace([RowsThenFailure(rs)], ["SELECT 1"], 1);
    assert [RowsThenFailure(rs)][..0] == [];
    assert Transcript([RowsThenFailure(rs)]) == Output(RowsThenFailure(rs));
  }

  /** The cursor with columns id and name and the rows (1, Al) and (2, NULL) reads as text cells. */
  lemma ReadResultExample()
    ensures Materialise(ResultSet(["id", "name"], [[Some("1"), Some("Al")], [Some("2"), None]]))
         == [["1", "Al"], ["2", "NULL"]]
  {
    var rs: Cursor := ResultSet(["id", "name"], [[Some("1"), Some("Al")], [Some("2"), None]]);
    var result := Materialise(rs);
    assert result[0] == ["1", "Al"];
    assert result[1] == ["2", "NULL"];
  }

  /** Executing a query with that result set prints the table with widths 2 and 4. */
  lemma OutputExample()
    ensures Output(Rows(ResultSet(["id", "name"], [[Some("1"), Some("Al")], [Some("2"), None]])))
         == ["id | name | ", "---|------|", " 1 |   Al | ", " 2 | NULL | "]
  {
    ReadResultExample();
    Table.RenderExample();
  }
}
