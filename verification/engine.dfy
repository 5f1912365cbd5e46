/**
 * An abstract, in-memory stand-in for the query engine the repository drives:
 * one table held as a sequence of rows, a generator of primary keys, the
 * driver's name, and the engine's ordering of rows under an ORDER BY list.
 * The pure functions say what each statement does to the table and what it
 * hands back; class Db applies them.
 */
module Engine {
  import opened Rows
  import opened DbSupport

  datatype Direction = Asc | Desc

  /** One entry of an ORDER BY list; the direction is optional. */
  datatype SortingParam = SortingParam(column: string, order: Option<Direction>)

  /** What an INSERT hands back per row: the row itself with RETURNING, its generated key without. */
  datatype Returned = FetchedRow(row: Row) | GeneratedKey(key: Value)

  /** What an UPDATE hands back: the updated rows with RETURNING, the number of rows it touched without. */
  datatype UpdateResult = UpdatedRows(rows: seq<Row>) | AffectedCount(count: nat)

  /** The value of a column in a row; a column the row does not hold is NULL. */
  function Field(row: Row, column: string): Value
  {
    if column in row then row[column] else Null
  }

  /** WHERE over an equality map: every filter column holds the filter's value. */
  predicate Matches(row: Row, filter: Row)
  {
    forall column :: column in filter ==> Field(row, column) == filter[column]
  }

  /** The rows that match the filter, in table order. */
  function Where(rows: seq<Row>, filter: Row): (matched: seq<Row>)
    ensures |matched| <= |rows|
    ensures forall row :: row in matched <==> row in rows && Matches(row, filter)
  {
    if rows == [] then []
    else (if Matches(rows[0], filter) then [rows[0]] else []) + Where(rows[1..], filter)
  }

  /** The rows a DELETE with this filter leaves behind, in table order. */
  function DeleteWhere(rows: seq<Row>, filter: Row): (kept: seq<Row>)
    ensures |kept| <= |rows|
    ensures forall row :: row in kept <==> row in rows && !Matches(row, filter)
  {
    if rows == [] then []
    else (if Matches(rows[0], filter) then [] else [rows[0]]) + DeleteWhere(rows[1..], filter)
  }

  /** An empty filter is no filter: it matches every row. */
  lemma {:induction false} WhereEmptyFilter(rows: seq<Row>)
    ensures Where(rows, map[]) == rows
    ensures DeleteWhere(rows, map[]) == []
  {
    if rows != [] {
      WhereEmptyFilter(rows[1..]);
      assert rows == [rows[0]] + rows[1..];
    }
  }

  /** A DELETE removes exactly the matching rows: what it keeps and what matched make up the table. */
  lemma {:induction false} WherePartition(rows: seq<Row>, filter: Row)
    ensures multiset(Where(rows, filter)) + multiset(DeleteWhere(rows, filter)) == multiset(rows)
  {
    if rows != [] {
      var head, tail := rows[0], rows[1..];
      WherePartition(tail, filter);
      assert rows == [head] + tail;
      assert multiset(rows) == multiset{head} + multiset(tail);
      if Matches(head, filter) {
        assert Where(rows, filter) == [head] + Where(tail, filter);
        assert DeleteWhere(rows, filter) == DeleteWhere(tail, filter);
        assert multiset(Where(rows, filter)) == multiset{head} + multiset(Where(tail, filter));
      } else {
        assert Where(rows, filter) == Where(tail, filter);
        assert DeleteWhere(rows, filter) == [head] + DeleteWhere(tail, filter);
        assert multiset(DeleteWhere(rows, filter)) == multiset{head} + multiset(DeleteWhere(tail, filter));
      }
    }
  }

  /** When no row matches, WHERE yields nothing. */
  lemma {:induction false} WhereNoneMatch(rows: seq<Row>, filter: Row)
    requires forall row :: row in rows ==> !Matches(row, filter)
    ensures Where(rows, filter) == []
  {
    if rows != [] {
      assert rows[0] in rows;
      WhereNoneMatch(rows[1..], filter);
    }
  }

  lemma {:induction false} WhereConcat(a: seq<Row>, b: seq<Row>, filter: Row)
    ensures Where(a + b, filter) == Where(a, filter) + Where(b, filter)
  {
    if a == [] {
      assert a + b == b;
    } else {
      assert (a + b)[1..] == a[1..] + b;
      WhereConcat(a[1..], b, filter);
    }
  }

  /** A DELETE keeps the surviving rows in table order: it distributes over appending rows. */
  lemma {:induction false} DeleteWhereConcat(a: seq<Row>, b: seq<Row>, filter: Row)
    ensures DeleteWhere(a + b, filter) == DeleteWhere(a, filter) + DeleteWhere(b, filter)
  {
    if a == [] {
      assert a + b == b;
    } else {
      assert (a + b)[1..] == a[1..] + b;
      DeleteWhereConcat(a[1..], b, filter);
    }
  }

  /** An UPDATE's effect on one row: the new fields win, the row's other columns stay. */
  function Merge(row: Row, fields: Row): (merged: Row)
    ensures merged.Keys == row.Keys + fields.Keys
    ensures forall c :: c in fields ==> merged[c] == fields[c]
    ensures forall c :: c in row && c !in fields ==> merged[c] == row[c]
  {
    row + fields
  }

  /** The table after an UPDATE: matching rows take the fields, every other row is untouched. */
  function UpdateWhere(rows: seq<Row>, filter: Row, fields: Row): (updated: seq<Row>)
    ensures |updated| == |rows|
    ensures forall i :: 0 <= i < |rows| && !Matches(rows[i], filter) ==> updated[i] == rows[i]
    ensures forall i :: 0 <= i < |rows| && Matches(rows[i], filter) ==> updated[i] == Merge(rows[i], fields)
  {
    seq(|rows|, i requires 0 <= i < |rows| => if Matches(rows[i], filter) then Merge(rows[i], fields) else rows[i])
  }

  /** Each row merged with the fields. */
  function MergeAll(rows: seq<Row>, fields: Row): (merged: seq<Row>)
    ensures |merged| == |rows|
    ensures forall i :: 0 <= i < |rows| ==> merged[i] == Merge(rows[i], fields)
  {
    seq(|rows|, i requires 0 <= i < |rows| => Merge(rows[i], fields))
  }

  /** The row as a SELECT or RETURNING of these columns sees it. */
  function Project(row: Row, columns: seq<string>): (projected: Row)
    ensures forall c :: c in projected <==> c in columns
    ensures forall c :: c in projected ==> projected[c] == Field(row, c)
  {
    map c | c in columns :: Field(row, c)
  }

  function ProjectAll(rows: seq<Row>, columns: seq<string>): (projected: seq<Row>)
    ensures |projected| == |rows|
    ensures forall i :: 0 <= i < |rows| ==> projected[i] == Project(rows[i], columns)
  {
    seq(|rows|, i requires 0 <= i < |rows| => Project(rows[i], columns))
  }

  /**
   * A row as stored by an INSERT: a value the row supplies for the key column
   * is kept, otherwise the key column gets the generated key.
   */
  function Keyed(row: Row, keyColumn: string, key: int): (stored: Row)
    ensures stored.Keys == row.Keys + {keyColumn}
    ensures forall c :: c in row ==> stored[c] == row[c]
    ensures keyColumn !in row ==> stored[keyColumn] == Int(key)
  {
    if keyColumn in row then row else row[keyColumn := Int(key)]
  }

  /** Rows as stored by one INSERT, the generator handing out consecutive keys from `start`. */
  function WithKeys(rows: seq<Row>, keyColumn: string, start: int): (stored: seq<Row>)
    ensures |stored| == |rows|
  {
    if rows == [] then [] else [Keyed(rows[0], keyColumn, start)] + WithKeys(rows[1..], keyColumn, start + 1)
  }

  /** The i-th stored row is the i-th row given, keyed with the i-th key handed out. */
  lemma {:induction false} WithKeysAt(rows: seq<Row>, keyColumn: string, start: int, i: nat)
    requires i < |rows|
    ensures WithKeys(rows, keyColumn, start)[i] == Keyed(rows[i], keyColumn, start + i)
  {
    if i > 0 {
      WithKeysAt(rows[1..], keyColumn, start + 1, i - 1);
    }
  }

  /** Two INSERTs in a row store what one INSERT of both batches stores. */
  lemma {:induction false} WithKeysConcat(a: seq<Row>, b: seq<Row>, keyColumn: string, start: int)
    ensures WithKeys(a + b, keyColumn, start) == WithKeys(a, keyColumn, start) + WithKeys(b, keyColumn, start + |a|)
  {
    if a == [] {
      assert a + b == b;
    } else {
      var ab := a + b;
      assert ab[0] == a[0] && ab[1..] == a[1..] + b;
      WithKeysConcat(a[1..], b, keyColumn, start + 1);
      assert WithKeys(ab, keyColumn, start) == [Keyed(a[0], keyColumn, start)] + WithKeys(ab[1..], keyColumn, start + 1);
      assert WithKeys(a, keyColumn, start) == [Keyed(a[0], keyColumn, start)] + WithKeys(a[1..], keyColumn, start + 1);
    }
  }

  /** What an INSERT hands back for one stored row on this driver. */
  function ReturnedFor(stored: Row, columns: seq<string>, keyColumn: string, driverName: string): Returned
  {
    if DoesSupportReturning(driverName) then FetchedRow(Project(stored, columns))
    else GeneratedKey(Field(stored, keyColumn))
  }

  /** What an INSERT of these stored rows hands back on this driver, row by row. */
  function InsertReturning(stored: seq<Row>, columns: seq<string>, keyColumn: string, driverName: string): (returned: seq<Returned>)
    ensures |returned| == |stored|
  {
    if stored == [] then []
    else [ReturnedFor(stored[0], columns, keyColumn, driverName)] + InsertReturning(stored[1..], columns, keyColumn, driverName)
  }

  /**
   * With RETURNING each stored row comes back cut to the requested columns;
   * without it, only its key comes back.
   */
  lemma {:induction false} InsertReturningAt(stored: seq<Row>, columns: seq<string>, keyColumn: string, driverName: string, i: nat)
    requires i < |stored|
    ensures DoesSupportReturning(driverName) ==>
      InsertReturning(stored, columns, keyColumn, driverName)[i] == FetchedRow(Project(stored[i], columns))
    ensures !DoesSupportReturning(driverName) ==>
      InsertReturning(stored, columns, keyColumn, driverName)[i] == GeneratedKey(Field(stored[i], keyColumn))
  {
    if i > 0 {
      InsertReturningAt(stored[1..], columns, keyColumn, driverName, i - 1);
    }
  }

  lemma {:induction false} InsertReturningConcat(a: seq<Row>, b: seq<Row>, columns: seq<string>, keyColumn: string, driverName: string)
    ensures InsertReturning(a + b, columns, keyColumn, driverName)
         == InsertReturning(a, columns, keyColumn, driverName) + InsertReturning(b, columns, keyColumn, driverName)
  {
    if a == [] {
      assert a + b == b;
    } else {
      assert (a + b)[1..] == a[1..] + b;
      InsertReturningConcat(a[1..], b, columns, keyColumn, driverName);
    }
  }

  /** Places `row` before the first element of `sorted` that does not strictly precede it. */
  function InsertInOrder(row: Row, sorted: seq<Row>, before: (Row, Row) -> bool): (r: seq<Row>)
    ensures multiset(r) == multiset(sorted) + multiset{row}
  {
    if sorted == [] || !before(sorted[0], row) then [row] + sorted
    else
      assert sorted == [sorted[0]] + sorted[1..];
      [sorted[0]] + InsertInOrder(row, sorted[1..], before)
  }

  function SortRows(rows: seq<Row>, before: (Row, Row) -> bool): (sorted: seq<Row>)
    ensures multiset(sorted) == multiset(rows)
  {
    if rows == [] then []
    else
      assert rows == [rows[0]] + rows[1..];
      InsertInOrder(rows[0], SortRows(rows[1..], before), before)
  }

  /**
   * The rows in the order an ORDER BY list imposes under the engine's
   * comparison `precedes`, or untouched when no ORDER BY is given. Either
   * way the same rows come out.
   */
  function Ordered(rows: seq<Row>, sort: Option<seq<SortingParam>>, precedes: (seq<SortingParam>, Row, Row) -> bool): (r: seq<Row>)
    ensures multiset(r) == multiset(rows) && |r| == |rows|
    ensures sort.None? ==> r == rows
  {
    match sort
    case None => rows
    case Some(spec) =>
      var r := SortRows(rows, (a, b) => precedes(spec, a, b));
      assert |r| == |multiset(r)| == |multiset(rows)| == |rows|;
      r
  }

  /** A single row has only one order. */
  lemma OrderedSingleton(row: Row, sort: Option<seq<SortingParam>>, precedes: (seq<SortingParam>, Row, Row) -> bool)
    ensures Ordered([row], sort, precedes) == [row]
  {
    var r := Ordered([row], sort, precedes);
    assert |r| == 1;
    assert r[0] in multiset(r);
  }

  /** The engine: one table, its key generator and the driver's identity. */
  class Db {
    const driverName: string
    /** The column the table generates keys for. */
    const keyColumn: string
    /** precedes(spec, a, b): row a comes strictly before row b under the ORDER BY list spec. */
    const precedes: (seq<SortingParam>, Row, Row) -> bool
    var rows: seq<Row>
    var nextKey: int

    constructor(driverName: string, keyColumn: string, precedes: (seq<SortingParam>, Row, Row) -> bool)
      ensures this.driverName == driverName && this.keyColumn == keyColumn && this.precedes == precedes
      ensures rows == [] && nextKey == 1
    {
      this.driverName := driverName;
      this.keyColumn := keyColumn;
      this.precedes := precedes;
      rows := [];
      nextKey := 1;
    }

    /** INSERT ... RETURNING columns: appends the rows, each with its generated key. */
    method Insert(newRows: seq<Row>, returning: seq<string>) returns (result: seq<Returned>)
      modifies this
      ensures rows == old(rows) + WithKeys(newRows, keyColumn, old(nextKey))
      ensures nextKey == old(nextKey) + |newRows|
      ensures result == InsertReturning(WithKeys(newRows, keyColumn, old(nextKey)), returning, keyColumn, driverName)
    {
      var stored := WithKeys(newRows, keyColumn, nextKey);
      rows := rows + stored;
      nextKey := nextKey + |newRows|;
      result := InsertReturning(stored, returning, keyColumn, driverName);
    }

    /** SELECT columns WHERE filter [ORDER BY sort]. */
    method Select(filter: Row, columns: seq<string>, sort: Option<seq<SortingParam>>) returns (result: seq<Row>)
      ensures result == ProjectAll(Ordered(Where(rows, filter), sort, precedes), columns)
    {
      result := ProjectAll(Ordered(Where(rows, filter), sort, precedes), columns);
    }

    /** UPDATE SET fields WHERE filter [ORDER BY sort] RETURNING columns. */
    method Update(filter: Row, fields: Row, returning: seq<string>, sort: Option<seq<SortingParam>>) returns (result: UpdateResult)
      modifies this
      ensures rows == UpdateWhere(old(rows), filter, fields) && nextKey == old(nextKey)
      ensures result == if DoesSupportReturning(driverName)
        then UpdatedRows(ProjectAll(Ordered(MergeAll(Where(old(rows), filter), fields), sort, precedes), returning))
        else AffectedCount(|Where(old(rows), filter)|)
    {
      var matched := Where(rows, filter);
      rows := UpdateWhere(rows, filter, fields);
      if DoesSupportReturning(driverName) {
        result := UpdatedRows(ProjectAll(Ordered(MergeAll(matched, fields), sort, precedes), returning));
      } else {
        result := AffectedCount(|matched|);
      }
    }

    /** DELETE WHERE filter. */
    method Delete(filter: Row)
      modifies this
      ensures rows == DeleteWhere(old(rows), filter) && nextKey == old(nextKey)
    {
      rows := DeleteWhere(rows, filter);
    }
  }
}
