/** PostgreSQL tables as the SDK sees them: a schema, one primary key, and rows by key. */
module Tables {
  datatype Value = Null | Bool(b: bool) | Int(i: int) | Text(s: string)

  type Row = map<string, Value>

  type PrimaryKey = seq<Value>

  /** `schema` maps each column to its default. */
  datatype Table = Table(schema: Row, pk: seq<string>, rows: map<PrimaryKey, Row>)

  function Cell(row: Row, column: string): Value {
    if column in row then row[column] else Null
  }

  function KeyOf(pk: seq<string>, row: Row): PrimaryKey {
    seq(|pk|, i requires 0 <= i < |pk| => Cell(row, pk[i]))
  }

  /** A row the table could hold: every column present, and a key without NULLs. */
  predicate Storable(t: Table, row: Row) {
    row.Keys == t.schema.Keys && Null !in KeyOf(t.pk, row)
  }

  ghost predicate Valid(t: Table) {
    && (forall c <- t.pk :: c in t.schema)
    && forall k :: k in t.rows ==> Storable(t, t.rows[k]) && KeyOf(t.pk, t.rows[k]) == k
  }

  /** A listing of rows, in any order, without repeated keys. */
  ghost predicate DistinctKeys(pk: seq<string>, rows: seq<Row>) {
    forall i, j :: 0 <= i < j < |rows| ==> KeyOf(pk, rows[i]) != KeyOf(pk, rows[j])
  }

  /** The rows of a listing by key; a later row replaces an earlier one. */
  function ByKey(pk: seq<string>, rows: seq<Row>): map<PrimaryKey, Row> {
    if rows == [] then map[]
    else
      var last := rows[|rows| - 1];
      ByKey(pk, rows[..|rows| - 1])[KeyOf(pk, last) := last]
  }

  /** `rows` is what a SELECT over `part` may return: PostgreSQL promises no order. */
  ghost predicate Lists(pk: seq<string>, rows: seq<Row>, part: map<PrimaryKey, Row>) {
    DistinctKeys(pk, rows) && ByKey(pk, rows) == part
  }

  lemma {:induction false} ByKeyHas(pk: seq<string>, rows: seq<Row>, i: nat)
    requires DistinctKeys(pk, rows) && i < |rows|
    ensures KeyOf(pk, rows[i]) in ByKey(pk, rows) && ByKey(pk, rows)[KeyOf(pk, rows[i])] == rows[i]
  {
    if i < |rows| - 1 {
      assert rows[..|rows| - 1][i] == rows[i];
      ByKeyHas(pk, rows[..|rows| - 1], i);
    }
  }

  lemma {:induction false} ByKeyFrom(pk: seq<string>, rows: seq<Row>, k: PrimaryKey) returns (i: nat)
    requires k in ByKey(pk, rows)
    ensures i < |rows| && KeyOf(pk, rows[i]) == k && ByKey(pk, rows)[k] == rows[i]
  {
    i := |rows| - 1;
    if KeyOf(pk, rows[i]) != k { i := ByKeyFrom(pk, rows[..|rows| - 1], k); }
  }

  lemma {:induction false} ByKeySize(pk: seq<string>, rows: seq<Row>)
    requires DistinctKeys(pk, rows)
    ensures |ByKey(pk, rows)| == |rows|
  {
    if rows != [] {
      var rest, last := rows[..|rows| - 1], rows[|rows| - 1];
      ByKeySize(pk, rest);
      if KeyOf(pk, last) in ByKey(pk, rest) {
        var i := ByKeyFrom(pk, rest, KeyOf(pk, last));
        assert false;
      }
    }
  }

  /** Two finite sets of equal size, one inside the other. */
  lemma SameSizeSubset<T>(a: set<T>, b: set<T>)
    requires a <= b && |a| == |b|
    ensures a == b
  {
    assert |b| == |a| + |b - a| by { assert b == a + (b - a); }
  }
}
