/**
 * The SQLite collaborator, reduced to what the queries of the expense
 * ledger rely on: the rows of the `expenses` table, the date predicates,
 * ORDER BY on the date column and LIMIT, and a cursor over the result.
 */
module Sqlite {
  import opened Common

  /**
   * A calendar day as a day number. Dates are stored as `YYYY-MM-DD`
   * text, whose text order is the order of the days, so comparing day
   * numbers is comparing the stored text.
   */
  type Day = int

  /** One row of the `expenses` table: its date and its amount text (NULL is None). */
  datatype ExpenseRow = ExpenseRow(date: Day, amount: Option<string>)

  /** The WHERE clauses the ledger issues. */
  datatype Where =
    | DateBetween(first: Day, last: Day)   // date BETWEEN first AND last
    | DateAtLeast(first: Day)              // date >= first
    | Anywhere                             // no WHERE clause

  datatype OrderBy = Unordered | DateAscending | DateDescending

  /** A SELECT on the expenses table; a negative LIMIT means no limit in SQLite. */
  datatype Select = Select(where: Where, orderBy: OrderBy, limit: Option<int>)

  predicate Matches(w: Where, row: ExpenseRow) {
    match w
    case DateBetween(first, last) => first <= row.date <= last
    case DateAtLeast(first) => first <= row.date
    case Anywhere => true
  }

  /** The rows satisfying the WHERE clause, in storage order. */
  function Filter(w: Where, rows: seq<ExpenseRow>): (r: seq<ExpenseRow>)
    ensures forall i :: 0 <= i < |r| ==> Matches(w, r[i])
    ensures forall row :: multiset(r)[row] == if Matches(w, row) then multiset(rows)[row] else 0
  {
    if rows == [] then []
    else
      assert rows == [rows[0]] + rows[1..];
      (if Matches(w, rows[0]) then [rows[0]] else []) + Filter(w, rows[1..])
  }

  /** `a` may come before `b` in the requested date order. */
  predicate Precedes(a: ExpenseRow, b: ExpenseRow, descending: bool) {
    if descending then a.date >= b.date else a.date <= b.date
  }

  predicate SortedByDate(rows: seq<ExpenseRow>, descending: bool) {
    forall i, j :: 0 <= i < j < |rows| ==> Precedes(rows[i], rows[j], descending)
  }

  function InsertByDate(x: ExpenseRow, rows: seq<ExpenseRow>, descending: bool): (r: seq<ExpenseRow>)
    requires SortedByDate(rows, descending)
    ensures SortedByDate(r, descending)
    ensures multiset(r) == multiset(rows) + multiset{x}
  {
    if rows == [] then [x]
    else if Precedes(x, rows[0], descending) then [x] + rows
    else
      var rest := InsertByDate(x, rows[1..], descending);
      assert rows == [rows[0]] + rows[1..];
      HeadPrecedesInsert(x, rows, rest, descending);
      [rows[0]] + rest
  }

  /** The head of a sorted list precedes everything inserted after it. */
  lemma {:induction false} HeadPrecedesInsert(x: ExpenseRow, rows: seq<ExpenseRow>, rest: seq<ExpenseRow>, descending: bool)
    requires rows != [] && SortedByDate(rows, descending) && !Precedes(x, rows[0], descending)
    requires multiset(rest) == multiset(rows[1..]) + multiset{x} && SortedByDate(rest, descending)
    ensures SortedByDate([rows[0]] + rest, descending)
  {
    forall j | 0 <= j < |rest|
      ensures Precedes(rows[0], rest[j], descending)
    {
      assert rest[j] in multiset(rest);
      if rest[j] != x {
        assert rest[j] in multiset(rows[1..]);
        var k :| 1 <= k < |rows| && rows[k] == rest[j];
      }
    }
    var r := [rows[0]] + rest;
    forall i, j | 0 <= i < j < |r|
      ensures Precedes(r[i], r[j], descending)
    {
      if i > 0 {
        assert r[i] == rest[i - 1] && r[j] == rest[j - 1];
      }
    }
  }

  /**
   * ORDER BY date: a stable insertion sort. SQLite does not promise how
   * rows with equal dates are ordered; the model keeps storage order.
   */
  function SortByDate(rows: seq<ExpenseRow>, descending: bool): (r: seq<ExpenseRow>)
    ensures SortedByDate(r, descending)
    ensures multiset(r) == multiset(rows)
  {
    if rows == [] then []
    else
      assert rows == [rows[0]] + rows[1..];
      InsertByDate(rows[0], SortByDate(rows[1..], descending), descending)
  }

  /** LIMIT n keeps the first n rows; a negative n keeps them all. */
  function Limit(rows: seq<ExpenseRow>, limit: Option<int>): (r: seq<ExpenseRow>)
    ensures limit.Some? && 0 <= limit.value ==> |r| == if limit.value < |rows| then limit.value else |rows|
    ensures (limit.None? || limit.value < 0) ==> r == rows
    ensures r == rows[..|r|]
    ensures multiset(r) <= multiset(rows)
  {
    if limit.Some? && 0 <= limit.value < |rows| then
      var r := rows[..limit.value];
      assert rows == r + rows[limit.value..];
      r
    else rows
  }

  /**
   * LIMIT on ordered rows cuts off only rows that come no earlier, in the
   * requested order, than every row it keeps.
   */
  lemma {:induction false} LimitCutsOnlyLater(ordered: seq<ExpenseRow>, limit: Option<int>, descending: bool)
    requires SortedByDate(ordered, descending)
    ensures var r := Limit(ordered, limit);
      forall row, i :: 0 <= i < |r| && multiset(r)[row] < multiset(ordered)[row] ==> Precedes(r[i], row, descending)
  {
    var r := Limit(ordered, limit);
    var tail := ordered[|r|..];
    assert ordered == r + tail;
    forall row, i | 0 <= i < |r| && multiset(r)[row] < multiset(ordered)[row]
      ensures Precedes(r[i], row, descending)
    {
      assert multiset(ordered) == multiset(r) + multiset(tail);
      assert row in multiset(tail);
      var t :| 0 <= t < |tail| && tail[t] == row;
      assert ordered[|r| + t] == row;
      assert ordered[i] == r[i];
    }
  }

  /** ORDER BY: the rows themselves, rearranged when an order is requested. */
  function Order(rows: seq<ExpenseRow>, orderBy: OrderBy): (r: seq<ExpenseRow>)
    ensures multiset(r) == multiset(rows)
    ensures orderBy.DateAscending? ==> SortedByDate(r, false)
    ensures orderBy.DateDescending? ==> SortedByDate(r, true)
  {
    match orderBy
    case Unordered => rows
    case DateAscending => SortByDate(rows, false)
    case DateDescending => SortByDate(rows, true)
  }

  /** The rows a SELECT returns, in the order the cursor visits them. */
  function Run(table: seq<ExpenseRow>, q: Select): (r: seq<ExpenseRow>)
    ensures forall i :: 0 <= i < |r| ==> Matches(q.where, r[i])
    ensures q.orderBy.DateAscending? ==> SortedByDate(r, false)
    ensures q.orderBy.DateDescending? ==> SortedByDate(r, true)
    ensures q.limit.Some? && 0 <= q.limit.value ==> |r| <= q.limit.value
    ensures multiset(r) <= multiset(table)
    ensures (q.limit.None? || q.limit.value < 0) ==>
              forall row :: multiset(r)[row] == if Matches(q.where, row) then multiset(table)[row] else 0
  {
    var matching := Filter(q.where, table);
    var ordered := Order(matching, q.orderBy);
    var r := Limit(ordered, q.limit);
    RowsOfFilter(q.where, table, r);
    r
  }

  /** Rows drawn from the filtered table all satisfy the WHERE clause and come from the table. */
  lemma {:induction false} RowsOfFilter(w: Where, table: seq<ExpenseRow>, r: seq<ExpenseRow>)
    requires multiset(r) <= multiset(Filter(w, table))
    ensures forall i :: 0 <= i < |r| ==> Matches(w, r[i])
    ensures multiset(r) <= multiset(table)
  {
    var matching := Filter(w, table);
    forall i | 0 <= i < |r|
      ensures Matches(w, r[i])
    {
      assert r[i] in multiset(r);
      assert multiset(matching)[r[i]] > 0;
    }
    forall row
      ensures multiset(r)[row] <= multiset(table)[row]
    {
      assert multiset(r)[row] <= multiset(matching)[row];
    }
  }

  /** Rows drawn from a table, with no row more often than the table has it, are no more than the table's. */
  lemma {:induction false} SubMultisetNoLonger(a: seq<ExpenseRow>, b: seq<ExpenseRow>)
    requires multiset(a) <= multiset(b)
    ensures |a| <= |b|
    decreases |a|
  {
    if a != [] {
      var n := |a| - 1;
      var x := a[n];
      assert a == a[..n] + [x];
      assert x in multiset(b);
      var j :| 0 <= j < |b| && b[j] == x;
      var rest := b[..j] + b[j + 1..];
      assert b == b[..j] + [x] + b[j + 1..];
      assert multiset(b) == multiset(rest) + multiset{x};
      assert multiset(a) == multiset(a[..n]) + multiset{x};
      forall y
        ensures multiset(a[..n])[y] <= multiset(rest)[y]
      {
        assert multiset(a)[y] <= multiset(b)[y];
      }
      SubMultisetNoLonger(a[..n], rest);
    }
  }

  /** The index of `name` in `columns`, or -1 when there is no such column. */
  function IndexOf(columns: seq<string>, name: string): (i: int)
    ensures -1 <= i < |columns|
    ensures i == -1 <==> name !in columns
    ensures 0 <= i ==> columns[i] == name && name !in columns[..i]
  {
    if columns == [] then -1
    else if columns[0] == name then 0
    else
      var j := IndexOf(columns[1..], name);
      assert columns == [columns[0]] + columns[1..];
      if j == -1 then -1
      else
        assert columns[..j + 1] == [columns[0]] + columns[1..][..j];
        j + 1
  }

  /**
   * An android.database.Cursor over a query result: named columns, rows
   * of nullable text cells, and a position that starts before the first row.
   */
  class Cursor {
    const columns: seq<string>
    const rows: seq<seq<Option<string>>>
    var position: int

    ghost predicate Valid()
      reads this
    {
      && -1 <= position <= |rows|
      && forall i :: 0 <= i < |rows| ==> |rows[i]| == |columns|
    }

    constructor (columns: seq<string>, rows: seq<seq<Option<string>>>)
      requires forall i :: 0 <= i < |rows| ==> |rows[i]| == |columns|
      ensures Valid() && position == -1
      ensures this.columns == columns && this.rows == rows
    {
      this.columns := columns;
      this.rows := rows;
      position := -1;
    }

    /** getColumnIndex: the column's index, or -1 when the cursor has no such column. */
    function GetColumnIndex(name: string): (i: int)
      ensures -1 <= i < |columns|
      ensures i == -1 <==> name !in columns
      ensures 0 <= i ==> columns[i] == name
    {
      IndexOf(columns, name)
    }

    /** moveToNext: advance one row; false once the cursor is past the last row. */
    method MoveToNext() returns (more: bool)
      requires Valid()
      modifies this
      ensures Valid()
      ensures position == if old(position) < |rows| then old(position) + 1 else |rows|
      ensures more <==> position < |rows|
    {
      if position < |rows| {
        position := position + 1;
      }
      more := position < |rows|;
    }

    /** getString: the text in the given column of the current row (None for SQL NULL). */
    function GetString(column: int): (text: Option<string>)
      reads this
      requires Valid() && 0 <= position < |rows| && 0 <= column < |columns|
      ensures text == rows[position][column]
    {
      rows[position][column]
    }
  }
}
