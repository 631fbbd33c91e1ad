/**
 * The relational store as the handlers see it: each table is a sequence of
 * rows, a row is a plain object, and `SELECT * FROM t WHERE c = ?` keeps the
 * rows whose column equals the bound value under SQL's NULL rule (mysql2
 * binds `undefined` as NULL, and NULL equals nothing). Collations and MySQL's
 * implicit string-to-number coercion are not modelled: equality is exact.
 */
module Store {
  import opened Js

  datatype Table =
    | Admins | Instructors | Students | Courses
    | OfferedCourses | StudentCourses | StudentMarks | CourseEnrollments

  type Row = Object

  /** A connection that fails every query, or one over the given tables. */
  datatype Db = Down | Up(tables: map<Table, seq<Row>>)

  /** What `db.query` hands back: an error, or the result rows in order. */
  datatype QueryResult = Failed | Rows(rows: seq<Row>)

  /** `SELECT * FROM table WHERE column = value`, as an abstract request. */
  datatype Lookup = Lookup(table: Table, column: string, value: Value)

  /** SQL `a = b`: never true when either side is NULL. */
  predicate SqlEquals(a: Value, b: Value)
  {
    a != Undefined && a != Null && b != Undefined && b != Null && a == b
  }

  function RowsOf(db: Db, table: Table): seq<Row>
    requires db.Up?
  {
    if table in db.tables then db.tables[table] else []
  }

  /** The rows of `rows` whose `column` equals `value`, in their original order. */
  function Where(rows: seq<Row>, column: string, value: Value): (r: seq<Row>)
    ensures |r| <= |rows|
    ensures forall x :: x in r ==> x in rows && SqlEquals(Field(x, column), value)
    ensures forall x :: x in rows && SqlEquals(Field(x, column), value) ==> x in r
    ensures |r| > 0 ==> exists i :: 0 <= i < |rows| && rows[i] == r[0] &&
                          forall j :: 0 <= j < i ==> !SqlEquals(Field(rows[j], column), value)
  {
    if rows == [] then []
    else
      var rest := Where(rows[1..], column, value);
      if SqlEquals(Field(rows[0], column), value) then [rows[0]] + rest
      else
        assert forall x :: x in rows[1..] ==> x in rows;
        assert |rest| > 0 ==> exists i :: 0 <= i < |rows| && rows[i] == rest[0] &&
                                forall j :: 0 <= j < i ==> !SqlEquals(Field(rows[j], column), value) by {
          if |rest| > 0 {
            var i :| 0 <= i < |rows[1..]| && rows[1..][i] == rest[0] &&
                     forall j :: 0 <= j < i ==> !SqlEquals(Field(rows[1..][j], column), value);
            assert rows[i + 1] == rest[0];
            forall j | 0 <= j < i + 1 ensures !SqlEquals(Field(rows[j], column), value) {
              if j > 0 { assert rows[j] == rows[1..][j - 1]; }
            }
          }
        }
        rest
  }

  /** Running a lookup: a failed connection fails it, otherwise it filters the table. */
  function Run(db: Db, q: Lookup): (r: QueryResult)
    ensures db.Down? <==> r.Failed?
    ensures r.Rows? ==> r.rows == Where(RowsOf(db, q.table), q.column, q.value)
    ensures r.Rows? ==> forall x :: x in r.rows ==> x in RowsOf(db, q.table) && SqlEquals(Field(x, q.column), q.value)
    ensures r.Rows? ==> forall x :: x in RowsOf(db, q.table) && SqlEquals(Field(x, q.column), q.value) ==> x in r.rows
  {
    if db.Down? then Failed else Rows(Where(RowsOf(db, q.table), q.column, q.value))
  }

  /** `result[0].column` on an aggregate query's rows: `None` when the query
      failed, or when there is no first row and the property access throws. */
  function FirstField(q: QueryResult, column: string): (v: Option<Value>)
    ensures v.None? <==> (q.Failed? || q.rows == [])
  {
    if q.Failed? || q.rows == [] then None else Some(Field(q.rows[0], column))
  }

  /** No two rows share a non-NULL value of `column` (a PRIMARY KEY or UNIQUE column). */
  predicate UniqueKey(rows: seq<Row>, column: string)
  {
    forall i, j :: 0 <= i < |rows| && 0 <= j < |rows| && i != j ==>
      !SqlEquals(Field(rows[i], column), Field(rows[j], column))
  }

  /** Looking a row up by its own value of a unique column finds that row and no other. */
  lemma {:induction false} WhereUniqueKey(rows: seq<Row>, column: string, i: nat)
    requires UniqueKey(rows, column)
    requires i < |rows|
    requires Field(rows[i], column) != Undefined && Field(rows[i], column) != Null
    ensures Where(rows, column, Field(rows[i], column)) == [rows[i]]
    decreases |rows|
  {
    var v := Field(rows[i], column);
    var rest := rows[1..];
    assert UniqueKey(rest, column) by {
      forall a, b | 0 <= a < |rest| && 0 <= b < |rest| && a != b
        ensures !SqlEquals(Field(rest[a], column), Field(rest[b], column))
      {
        assert rest[a] == rows[a + 1] && rest[b] == rows[b + 1];
      }
    }
    if i > 0 {
      assert rows[i] == rest[i - 1];
      WhereUniqueKey(rest, column, i - 1);
      assert !SqlEquals(Field(rows[0], column), Field(rows[i], column));
    }
  }

  /** A NULL or missing key matches no row at all. */
  lemma WhereNullKey(rows: seq<Row>, column: string, value: Value)
    requires value == Undefined || value == Null
    ensures Where(rows, column, value) == []
  {
  }

  /** A SQL statement issued by a handler: an insert of values into named
      columns, or a parameterised select naming the columns its `?` filter. */
  datatype Statement =
    | Insert(into: Table, columns: seq<string>, values: seq<Value>)
    | Select(from: Table, filters: seq<string>, params: seq<Value>)

  /** The value an insert binds to `column`, if it names the column. */
  function Bound(s: Statement, column: string): Option<Value>
  {
    if s.Insert? then BoundIn(s.columns, s.values, column) else None
  }

  function BoundIn(columns: seq<string>, values: seq<Value>, column: string): Option<Value>
    decreases |columns|
  {
    if columns == [] || values == [] then None
    else if columns[0] == column then Some(values[0])
    else BoundIn(columns[1..], values[1..], column)
  }
}
