/**
 * ExpenseDatabaseHelper: the history queries behind the forecast. Every
 * query walks a cursor over the `amount` text column, parses each cell
 * and skips the cells that fail to parse, without aborting the batch.
 */
module ExpenseDatabase {
  import opened Common
  import opened Sqlite

  const ColumnAmount: string := "amount"
  const ColumnPrediction: string := "prediction"

  /** The platform's String.toFloat; None stands for the NumberFormatException it throws. */
  type FloatParser = string -> Option<real>

  /** A cell the loop keeps: not NULL (NULL throws a NullPointerException) and accepted by toFloat. */
  predicate Parses(toFloat: FloatParser, text: Option<string>) {
    text.Some? && toFloat(text.value).Some?
  }

  function ParsedValue(toFloat: FloatParser, text: Option<string>): real
    requires Parses(toFloat, text)
  {
    toFloat(text.value).value
  }

  /** What one cursor row adds to the list: its amount, or nothing when the parse throws. */
  function Kept(toFloat: FloatParser, text: Option<string>): seq<real> {
    if Parses(toFloat, text) then [ParsedValue(toFloat, text)] else []
  }

  /** The list a cursor loop builds from the amount cells it visits, in visiting order. */
  function ParseAndSkip(toFloat: FloatParser, texts: seq<Option<string>>): (amounts: seq<real>)
    ensures |amounts| <= |texts|
  {
    if texts == [] then []
    else ParseAndSkip(toFloat, texts[..|texts| - 1]) + Kept(toFloat, texts[|texts| - 1])
  }

  /** The positions of the cells ParseAndSkip keeps, in visiting order. */
  function Survivors(toFloat: FloatParser, texts: seq<Option<string>>): seq<nat> {
    if texts == [] then []
    else
      Survivors(toFloat, texts[..|texts| - 1])
      + (if Parses(toFloat, texts[|texts| - 1]) then [|texts| - 1] else [])
  }

  /**
   * Every kept amount is the parse of a visited cell, the kept cells are
   * taken in cursor order, and no cell that parses is dropped.
   */
  lemma {:induction false} SurvivorsSpec(toFloat: FloatParser, texts: seq<Option<string>>)
    ensures var amounts, idx := ParseAndSkip(toFloat, texts), Survivors(toFloat, texts);
      && |idx| == |amounts|
      && (forall k :: 0 <= k < |idx| ==>
            idx[k] < |texts| && Parses(toFloat, texts[idx[k]])
            && amounts[k] == ParsedValue(toFloat, texts[idx[k]]))
      && (forall k, l :: 0 <= k < l < |idx| ==> idx[k] < idx[l])
      && (forall j :: 0 <= j < |texts| && Parses(toFloat, texts[j]) ==> j in idx)
  {
    if texts != [] {
      var n := |texts| - 1;
      var front := texts[..n];
      SurvivorsSpec(toFloat, front);
      assert forall j :: 0 <= j < n ==> texts[j] == front[j];
    }
  }

  /** The loop's list over a concatenation of cursor rows is the concatenation of the lists. */
  lemma {:induction false} ParseAndSkipAppend(toFloat: FloatParser, a: seq<Option<string>>, b: seq<Option<string>>)
    ensures ParseAndSkip(toFloat, a + b) == ParseAndSkip(toFloat, a) + ParseAndSkip(toFloat, b)
  {
    if b != [] {
      var n := |b| - 1;
      ParseAndSkipAppend(toFloat, a, b[..n]);
      assert (a + b)[..|a + b| - 1] == a + b[..n];
      assert (a + b)[|a + b| - 1] == b[n];
    } else {
      assert a + b == a;
    }
  }

  /** A cell that fails to parse is dropped and the rest of the batch is still read. */
  lemma {:induction false} SkipUnparsable(toFloat: FloatParser, before: seq<Option<string>>, bad: Option<string>, after: seq<Option<string>>)
    requires !Parses(toFloat, bad)
    ensures ParseAndSkip(toFloat, before + [bad] + after) == ParseAndSkip(toFloat, before) + ParseAndSkip(toFloat, after)
  {
    ParseAndSkipAppend(toFloat, before + [bad], after);
    assert (before + [bad])[..|before|] == before;
  }

  /** Nothing is skipped exactly when every cell parses. */
  lemma {:induction false} NothingSkipped(toFloat: FloatParser, texts: seq<Option<string>>)
    ensures |ParseAndSkip(toFloat, texts)| == |texts|
            <==> forall j :: 0 <= j < |texts| ==> Parses(toFloat, texts[j])
  {
    if texts != [] {
      var n := |texts| - 1;
      NothingSkipped(toFloat, texts[..n]);
      assert forall j :: 0 <= j < n ==> texts[j] == texts[..n][j];
    }
  }

  /** The cells of one column of a cursor's rows. */
  function Column(rows: seq<seq<Option<string>>>, column: nat): (texts: seq<Option<string>>)
    requires forall i :: 0 <= i < |rows| ==> column < |rows[i]|
    ensures |texts| == |rows|
    ensures forall i :: 0 <= i < |rows| ==> texts[i] == rows[i][column]
  {
    seq(|rows|, i requires 0 <= i < |rows| => rows[i][column])
  }

  /** The amount cells of table rows. */
  function AmountTexts(rows: seq<ExpenseRow>): (texts: seq<Option<string>>)
    ensures |texts| == |rows|
    ensures forall i :: 0 <= i < |rows| ==> texts[i] == rows[i].amount
  {
    seq(|rows|, i requires 0 <= i < |rows| => rows[i].amount)
  }

  /**
   * The amounts a query returns: its rows' amount cells, parsed and
   * skipped; never more amounts than the table has rows.
   */
  function Amounts(toFloat: FloatParser, table: seq<ExpenseRow>, q: Select): (amounts: seq<real>)
    ensures |amounts| <= |table|
  {
    var rows := Run(table, q);
    SubMultisetNoLonger(rows, table);
    ParseAndSkip(toFloat, AmountTexts(rows))
  }

  /** The query of getExpensesForNext7Days: rows dated today to today + 6, ascending, no LIMIT. */
  function Next7DaysSelect(today: Day): (q: Select)
    ensures forall row :: Matches(q.where, row) <==> today <= row.date <= today + 6
    ensures q.orderBy == DateAscending && q.limit == None
  {
    Select(DateBetween(today, today + 6), DateAscending, None)
  }

  /** The query of getExpensesFromDatabase: rows dated on or after today minus `days`, no ORDER BY. */
  function SinceSelect(days: nat, today: Day): (q: Select)
    ensures forall row :: Matches(q.where, row) <==> today - days <= row.date
    ensures q.orderBy == Unordered && q.limit == None
  {
    Select(DateAtLeast(today - days), Unordered, None)
  }

  /** The query of getLatestExpenses: every row, latest date first, at most `limit` rows. */
  function LatestSelect(limit: nat): (q: Select)
    ensures forall row :: Matches(q.where, row)
    ensures q.orderBy == DateDescending && q.limit == Some(limit as int)
  {
    Select(Anywhere, DateDescending, Some(limit))
  }

  /** The query of getHistoricalExpenses: every row, no ORDER BY, no LIMIT. */
  function AllRowsSelect(): (q: Select)
    ensures forall row :: Matches(q.where, row)
    ensures q.orderBy == Unordered && q.limit == None
  {
    Select(Anywhere, Unordered, None)
  }

  /** Why a query is refused before it reaches SQLite. */
  datatype QueryError = InvalidLimit

  /**
   * Each amount a query returns is the parse of one of the query's rows;
   * the rows are taken in cursor order and there are no more amounts than rows.
   */
  lemma {:induction false} QueryProvenance(toFloat: FloatParser, table: seq<ExpenseRow>, q: Select)
    ensures var rows := Run(table, q);
      var amounts, idx := Amounts(toFloat, table, q), Survivors(toFloat, AmountTexts(rows));
      && |amounts| <= |rows|
      && |idx| == |amounts|
      && (forall k :: 0 <= k < |idx| ==>
            idx[k] < |rows| && Matches(q.where, rows[idx[k]])
            && Parses(toFloat, rows[idx[k]].amount)
            && amounts[k] == ParsedValue(toFloat, rows[idx[k]].amount))
      && (forall k, l :: 0 <= k < l < |idx| ==> idx[k] < idx[l])
  {
    var rows := Run(table, q);
    SurvivorsSpec(toFloat, AmountTexts(rows));
  }

  /**
   * getExpensesForNext7Days: every amount comes from a row dated today to
   * today + 6 inclusive, the amounts follow ascending date order, and the
   * rows visited are exactly the table's rows in that window.
   */
  lemma {:induction false} Next7DaysWindow(toFloat: FloatParser, table: seq<ExpenseRow>, today: Day)
    ensures var rows := Run(table, Next7DaysSelect(today));
      var amounts, idx := Amounts(toFloat, table, Next7DaysSelect(today)), Survivors(toFloat, AmountTexts(rows));
      && |idx| == |amounts|
      && (forall k :: 0 <= k < |idx| ==>
            idx[k] < |rows| && today <= rows[idx[k]].date <= today + 6
            && Parses(toFloat, rows[idx[k]].amount) && amounts[k] == ParsedValue(toFloat, rows[idx[k]].amount))
      && (forall k, l :: 0 <= k < l < |idx| ==> rows[idx[k]].date <= rows[idx[l]].date)
      && (forall row :: multiset(rows)[row] == if today <= row.date <= today + 6 then multiset(table)[row] else 0)
  {
    var q := Next7DaysSelect(today);
    var rows := Run(table, q);
    var idx := Survivors(toFloat, AmountTexts(rows));
    QueryProvenance(toFloat, table, q);
    forall k | 0 <= k < |idx|
      ensures today <= rows[idx[k]].date <= today + 6
    {
      assert Matches(q.where, rows[idx[k]]);
    }
    assert SortedByDate(rows, false);
    forall k, l | 0 <= k < l < |idx|
      ensures rows[idx[k]].date <= rows[idx[l]].date
    {
      assert Precedes(rows[idx[k]], rows[idx[l]], false);
    }
    forall row
      ensures multiset(rows)[row] == if today <= row.date <= today + 6 then multiset(table)[row] else 0
    {
      assert Matches(q.where, row) <==> today <= row.date <= today + 6;
    }
  }

  /**
   * getExpensesFromDatabase(days): every amount comes from a row dated on
   * or after today minus `days`, and the rows visited are exactly the
   * table's rows in that window, in an order the query does not fix.
   */
  lemma {:induction false} SinceWindow(toFloat: FloatParser, table: seq<ExpenseRow>, days: nat, today: Day)
    ensures var rows := Run(table, SinceSelect(days, today));
      var amounts, idx := Amounts(toFloat, table, SinceSelect(days, today)), Survivors(toFloat, AmountTexts(rows));
      && |idx| == |amounts|
      && (forall k :: 0 <= k < |idx| ==>
            idx[k] < |rows| && today - days <= rows[idx[k]].date
            && Parses(toFloat, rows[idx[k]].amount) && amounts[k] == ParsedValue(toFloat, rows[idx[k]].amount))
      && (forall row :: multiset(rows)[row] == if today - days <= row.date then multiset(table)[row] else 0)
  {
    QueryProvenance(toFloat, table, SinceSelect(days, today));
  }

  /**
   * getLatestExpenses(limit): at most `limit` amounts when the limit is not
   * negative, taken from the table's rows in descending date order.
   */
  lemma {:induction false} LatestWindow(toFloat: FloatParser, table: seq<ExpenseRow>, limit: nat)
    ensures var rows := Run(table, LatestSelect(limit));
      var amounts, idx := Amounts(toFloat, table, LatestSelect(limit)), Survivors(toFloat, AmountTexts(rows));
      && |amounts| <= limit
      && multiset(rows) <= multiset(table)
      && |idx| == |amounts|
      && (forall k :: 0 <= k < |idx| ==>
            idx[k] < |rows| && Parses(toFloat, rows[idx[k]].amount)
            && amounts[k] == ParsedValue(toFloat, rows[idx[k]].amount))
      && (forall k, l :: 0 <= k < l < |idx| ==> rows[idx[k]].date >= rows[idx[l]].date)
  {
    var rows := Run(table, LatestSelect(limit));
    var idx := Survivors(toFloat, AmountTexts(rows));
    QueryProvenance(toFloat, table, LatestSelect(limit));
    forall k, l | 0 <= k < l < |idx| ensures rows[idx[k]].date >= rows[idx[l]].date {
      assert Precedes(rows[idx[k]], rows[idx[l]], true);
    }
  }

  /**
   * getLatestExpenses(limit) reads the newest rows: every stored row the
   * LIMIT leaves out is dated no later than any row the cursor visits.
   */
  lemma {:induction false} LatestAreNewest(table: seq<ExpenseRow>, limit: nat)
    ensures |Run(table, LatestSelect(limit))| == if limit < |table| then limit else |table|
    ensures var rows := Run(table, LatestSelect(limit));
      forall row, i :: 0 <= i < |rows| && multiset(rows)[row] < multiset(table)[row] ==> row.date <= rows[i].date
  {
    FilterAnywhere(table);
    var ordered := Order(table, DateDescending);
    assert |ordered| == |multiset(ordered)| == |multiset(table)| == |table|;
    LimitCutsOnlyLater(ordered, Some(limit), true);
    var rows := Run(table, LatestSelect(limit));
    assert rows == Limit(ordered, Some(limit));
    forall row, i | 0 <= i < |rows| && multiset(rows)[row] < multiset(table)[row]
      ensures row.date <= rows[i].date
    {
      assert Precedes(rows[i], row, true);
    }
  }

  lemma {:induction false} FilterAnywhere(rows: seq<ExpenseRow>)
    ensures Filter(Anywhere, rows) == rows
  {
    if rows != [] {
      FilterAnywhere(rows[1..]);
      assert rows == [rows[0]] + rows[1..];
    }
  }

  /**
   * getHistoricalExpenses: exactly the amounts of the table that parse, in
   * the order the rows are stored.
   */
  lemma {:induction false} HistoricalInStorageOrder(toFloat: FloatParser, table: seq<ExpenseRow>)
    ensures Amounts(toFloat, table, AllRowsSelect()) == ParseAndSkip(toFloat, AmountTexts(table))
  {
    FilterAnywhere(table);
  }

  /**
   * The shared cursor loop of the four amount queries: a null cursor or a
   * missing amount column gives the empty list; otherwise each row's amount
   * is parsed and rows that fail to parse are skipped.
   */
  method ReadAmounts(cursor: Cursor?, toFloat: FloatParser) returns (amounts: seq<real>)
    requires cursor != null ==> cursor.Valid() && cursor.position == -1
    modifies cursor
    ensures cursor == null ==> amounts == []
    ensures cursor != null && ColumnAmount !in cursor.columns ==> amounts == []
    ensures cursor != null && ColumnAmount in cursor.columns ==>
              amounts == ParseAndSkip(toFloat, Column(cursor.rows, cursor.GetColumnIndex(ColumnAmount)))
  {
    amounts := [];
    if cursor != null {
      var column := cursor.GetColumnIndex(ColumnAmount);
      if column != -1 {
        ghost var texts := Column(cursor.rows, column);
        var more := cursor.MoveToNext();
        while more
          invariant cursor.Valid() && 0 <= cursor.position <= |cursor.rows|
          invariant more <==> cursor.position < |cursor.rows|
          invariant amounts == ParseAndSkip(toFloat, texts[..cursor.position])
          decreases |cursor.rows| - cursor.position
        {
          var text := cursor.GetString(column);
          if text.Some? {
            var parsed := toFloat(text.value);
            if parsed.Some? {
              amounts := amounts + [parsed.value];
            }
          }
          assert texts[..cursor.position + 1][..cursor.position] == texts[..cursor.position];
          more := cursor.MoveToNext();
        }
        assert texts[..cursor.position] == texts;
      }
    }
  }

  /** The cursor loop of getPredictions: every prediction cell, kept as it is. */
  method ReadPredictions(cursor: Cursor?) returns (texts: seq<Option<string>>)
    requires cursor != null ==> cursor.Valid() && cursor.position == -1
    modifies cursor
    ensures cursor == null ==> texts == []
    ensures cursor != null && ColumnPrediction !in cursor.columns ==> texts == []
    ensures cursor != null && ColumnPrediction in cursor.columns ==>
              texts == Column(cursor.rows, cursor.GetColumnIndex(ColumnPrediction))
  {
    texts := [];
    if cursor != null {
      var column := cursor.GetColumnIndex(ColumnPrediction);
      if column != -1 {
        ghost var cells := Column(cursor.rows, column);
        var more := cursor.MoveToNext();
        while more
          invariant cursor.Valid() && 0 <= cursor.position <= |cursor.rows|
          invariant more <==> cursor.position < |cursor.rows|
          invariant texts == cells[..cursor.position]
          decreases |cursor.rows| - cursor.position
        {
          var prediction := cursor.GetString(column);
          texts := texts + [prediction];
          more := cursor.MoveToNext();
        }
      }
    }
  }

  /**
   * The helper over one ledger: the `expenses` table (date, amount text)
   * and the `prediction` column of the `predictions` table, both in
   * storage order.
   */
  class ExpenseDatabaseHelper {
    const expenses: seq<ExpenseRow>
    const predictions: seq<Option<string>>
    const toFloat: FloatParser

    constructor (expenses: seq<ExpenseRow>, predictions: seq<Option<string>>, toFloat: FloatParser)
      ensures this.expenses == expenses && this.predictions == predictions && this.toFloat == toFloat
    {
      this.expenses := expenses;
      this.predictions := predictions;
      this.toFloat := toFloat;
    }

    /** db.query / db.rawQuery selecting the amount column. */
    method QueryAmounts(q: Select) returns (cursor: Cursor)
      ensures fresh(cursor) && cursor.Valid() && cursor.position == -1
      ensures cursor.columns == [ColumnAmount]
      ensures Column(cursor.rows, 0) == AmountTexts(Run(expenses, q))
    {
      var rows := Run(expenses, q);
      cursor := new Cursor([ColumnAmount], seq(|rows|, i requires 0 <= i < |rows| => [rows[i].amount]));
    }

    method GetHistoricalExpenses() returns (amounts: seq<real>)
      ensures amounts == Amounts(toFloat, expenses, AllRowsSelect())
    {
      var cursor := QueryAmounts(AllRowsSelect());
      amounts := ReadAmounts(cursor, toFloat);
    }

    /**
     * getLatestExpenses: `limit.toString()` must be a LIMIT clause of digits,
     * so a negative limit is refused with IllegalArgumentException before
     * the query runs.
     */
    method GetLatestExpenses(limit: int) returns (r: Result<seq<real>, QueryError>)
      ensures limit < 0 ==> r == Failure(InvalidLimit)
      ensures 0 <= limit ==> r == Success(Amounts(toFloat, expenses, LatestSelect(limit)))
    {
      if limit < 0 {
        return Failure(InvalidLimit);
      }
      var cursor := QueryAmounts(LatestSelect(limit));
      var amounts := ReadAmounts(cursor, toFloat);
      r := Success(amounts);
    }

    method GetExpensesForNext7Days(today: Day) returns (amounts: seq<real>)
      ensures amounts == Amounts(toFloat, expenses, Next7DaysSelect(today))
    {
      var cursor := QueryAmounts(Next7DaysSelect(today));
      amounts := ReadAmounts(cursor, toFloat);
    }

    method GetExpensesForLastMonth(today: Day) returns (amounts: seq<real>)
      ensures amounts == Amounts(toFloat, expenses, SinceSelect(30, today))
    {
      amounts := GetExpensesFromDatabase(30, today);
    }

    method GetExpensesForLastYear(today: Day) returns (amounts: seq<real>)
      ensures amounts == Amounts(toFloat, expenses, SinceSelect(365, today))
    {
      amounts := GetExpensesFromDatabase(365, today);
    }

    /** The shared query of the month and year windows, `date >= date('now', '-N days')`. */
    method GetExpensesFromDatabase(days: nat, today: Day) returns (amounts: seq<real>)
      ensures amounts == Amounts(toFloat, expenses, SinceSelect(days, today))
    {
      var cursor := QueryAmounts(SinceSelect(days, today));
      amounts := ReadAmounts(cursor, toFloat);
    }

    /** getPredictions: every stored prediction text, unparsed and unfiltered. */
    method GetPredictions() returns (texts: seq<Option<string>>)
      ensures texts == predictions
    {
      var cursor := new Cursor([ColumnPrediction], seq(|predictions|, i requires 0 <= i < |predictions| => [predictions[i]]));
      texts := ReadPredictions(cursor);
    }
  }
}
