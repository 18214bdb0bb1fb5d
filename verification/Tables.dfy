/** Vocabulary shared by the models of the database tables: optional columns, service results,
    and sums over the rows of a table. A table is a sequence in insertion order, so that a row's
    id is its index and "newest" is "largest index". */
module Tables {

  datatype Option<+T> = None | Some(value: T)

  /** SQL's two-argument coalesce on nullable columns. */
  function Coalesce<T>(first: Option<T>, second: Option<T>): Option<T> {
    if first.Some? then first else second
  }

  datatype Result<+T, +E> = Ok(value: T) | Err(error: E)

  /** A point on the server clock. The calendar is not modelled: an instant carries its month. */
  datatype Instant = Instant(tick: nat, month: nat)

  /** SQL's sum: the total of a column over all rows of a table. */
  function Total<T>(rows: seq<T>, column: T -> int): int {
    if rows == [] then 0
    else Total(rows[..|rows| - 1], column) + column(rows[|rows| - 1])
  }

  lemma TotalAppend<T>(rows: seq<T>, row: T, column: T -> int)
    ensures Total(rows + [row], column) == Total(rows, column) + column(row)
  {}

  /** Updating one row changes a total by the difference of that row's values. */
  lemma {:induction false} TotalUpdate<T>(rows: seq<T>, i: nat, row: T, column: T -> int)
    requires i < |rows|
    ensures Total(rows[i := row], column) == Total(rows, column) - column(rows[i]) + column(row)
  {
    var last := |rows| - 1;
    if i == last {
      assert rows[i := row][..last] == rows[..last];
    } else {
      TotalUpdate(rows[..last], i, row, column);
      assert rows[i := row][..last] == rows[..last][i := row];
    }
  }

  /** A column that is pointwise below another has the smaller total. */
  lemma {:induction false} TotalMonotone<T>(rows: seq<T>, low: T -> int, high: T -> int)
    requires forall i :: 0 <= i < |rows| ==> low(rows[i]) <= high(rows[i])
    ensures Total(rows, low) <= Total(rows, high)
  {
    if rows != [] {
      var front := rows[..|rows| - 1];
      assert forall i :: 0 <= i < |front| ==> front[i] == rows[i];
      TotalMonotone(front, low, high);
    }
  }

  /** A column that is the sum of two others totals to the sum of their totals. */
  lemma {:induction false} TotalSplit<T>(rows: seq<T>, whole: T -> int, left: T -> int, right: T -> int)
    requires forall i :: 0 <= i < |rows| ==> whole(rows[i]) == left(rows[i]) + right(rows[i])
    ensures Total(rows, whole) == Total(rows, left) + Total(rows, right)
  {
    if rows != [] {
      var front := rows[..|rows| - 1];
      assert forall i :: 0 <= i < |front| ==> front[i] == rows[i];
      TotalSplit(front, whole, left, right);
    }
  }

  /** A column without negative values has no negative total, and its total covers each row. */
  lemma {:induction false} TotalCovers<T>(rows: seq<T>, column: T -> int)
    requires forall i :: 0 <= i < |rows| ==> 0 <= column(rows[i])
    ensures 0 <= Total(rows, column)
    ensures forall i :: 0 <= i < |rows| ==> column(rows[i]) <= Total(rows, column)
  {
    if rows != [] {
      var front := rows[..|rows| - 1];
      assert forall i :: 0 <= i < |front| ==> front[i] == rows[i];
      TotalCovers(front, column);
    }
  }

  /** A column that is zero on every row totals to zero. */
  lemma {:induction false} TotalZero<T>(rows: seq<T>, column: T -> int)
    requires forall i :: 0 <= i < |rows| ==> column(rows[i]) == 0
    ensures Total(rows, column) == 0
  {
    if rows != [] {
      var front := rows[..|rows| - 1];
      assert forall i :: 0 <= i < |front| ==> front[i] == rows[i];
      TotalZero(front, column);
    }
  }
}
