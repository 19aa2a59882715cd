/** The undo round trip: a guarded statement, then a restore of the snapshot taken before it. */
module Undo {
  import opened Options
  import opened Tables
  import opened BeforeImage
  import opened Restore

  // ---- what the guarded statement does ---------------------------------------------------------------

  function NewRow(sem: Semantics, s: Statement, params: Params, row: Row): Row
    requires s.Update?
  {
    row + Assigned(sem, s.sets, row, params, 0)
  }

  function NewRows(sem: Semantics, s: Statement, params: Params, touched: map<PrimaryKey, Row>)
    : map<PrimaryKey, Row>
    requires s.Update?
  {
    map k | k in touched :: NewRow(sem, s, params, touched[k])
  }

  /** From the key of each touched row to the key it has after the UPDATE. */
  function NewKeys(sem: Semantics, s: Statement, params: Params, pk: seq<string>,
                   touched: map<PrimaryKey, Row>): map<PrimaryKey, PrimaryKey>
    requires s.Update?
  {
    map k | k in touched :: KeyOf(pk, NewRow(sem, s, params, touched[k]))
  }

  /** The statement succeeds on `t` and leaves `u`. PostgreSQL refuses an UPDATE that would give two rows
      one key. */
  ghost predicate Executes(strict: bool, sem: Semantics, s: Statement, params: Params, t: Table, u: Table)
    requires !s.OtherStatement?
  {
    var touched := Touched(strict, sem, s, params, t.rows);
    && touched.Some? && SameShape(t, u) && Valid(u)
    && (if s.Delete? then u.rows == t.rows - touched.value.Keys
        else Rewritten(NewKeys(sem, s, params, t.pk, touched.value), NewRows(sem, s, params, touched.value),
                       t.rows, u.rows))
  }

  /** `after` is `before` with the row under each key of `newKey` replaced, under its new key. */
  ghost predicate Rewritten(newKey: map<PrimaryKey, PrimaryKey>, newRow: map<PrimaryKey, Row>,
                            before: map<PrimaryKey, Row>, after: map<PrimaryKey, Row>)
    requires newKey.Keys == newRow.Keys
  {
    && newKey.Keys <= before.Keys
    && (forall j, k :: j in newKey && k in newKey && newKey[j] == newKey[k] ==> j == k)
    && newKey.Values !! before.Keys - newKey.Keys
    && after.Keys == (before.Keys - newKey.Keys) + newKey.Values
    && (forall k :: k in before && k !in newKey ==> after[k] == before[k])
    && (forall k :: k in newKey ==> after[newKey[k]] == newRow[k])
  }

  /** The rows-scope capture of the guard: the rows of the before-image SELECT, in whatever order. */
  ghost predicate Captured(strict: bool, sem: Semantics, s: Statement, params: Params, t: Table,
                           rows: seq<Row>)
    requires !s.OtherStatement? && s.where.Some?
  {
    var q := BeforeImageQuery([s]).value;
    var selected := Selected(strict, sem, q, SelectParams(params, q), t.rows);
    selected.Some? && Lists(t.pk, rows, selected.value)
  }

  // ---- inserting full-width rows ---------------------------------------------------------------------

  lemma InsertStorable(policy: Policy, u: Table, row: Row)
    requires Valid(u) && Storable(u, row) && (policy == Overwrite || KeyOf(u.pk, row) !in u.rows)
    ensures InsertRow(policy, u, row) == Some(u.(rows := u.rows[KeyOf(u.pk, row) := row]))
  {
    assert Full(u, row) == row;
    var key := KeyOf(u.pk, row);
    if key in u.rows {
      forall c | c in row && c in u.pk ensures u.rows[key][c] == row[c] {
        KeyColumnsMatch(u.pk, u.rows[key], row, c);
      }
      assert u.rows[key] + Excluded(u.pk, row) == row;
    }
  }

  /** Rows that fill gaps, or any rows under overwrite, end up in the table as they are. */
  lemma {:induction false} InsertAllStorable(policy: Policy, u: Table, rows: seq<Row>)
    requires Valid(u) && DistinctKeys(u.pk, rows)
    requires forall i :: 0 <= i < |rows| ==> Storable(u, rows[i])
    requires policy == Overwrite || forall i :: 0 <= i < |rows| ==> KeyOf(u.pk, rows[i]) !in u.rows
    ensures InsertRows(policy, u, rows) == Some(Overlaid(u, rows))
  {
    if rows == [] {
      assert u.rows + map[] == u.rows;
    } else {
      var n := |rows| - 1;
      var part := rows[..n];
      InsertAllStorable(policy, u, part);
      OverlaidIsValid(u, part);
      NotYetListed(u.pk, rows);
      InsertStorable(policy, Overlaid(u, part), rows[n]);
      OverlayStep(u.rows, ByKey(u.pk, part), KeyOf(u.pk, rows[n]), rows[n]);
    }
  }

  function Overlaid(u: Table, rows: seq<Row>): Table {
    u.(rows := u.rows + ByKey(u.pk, rows))
  }

  lemma OverlayStep<K, V>(a: map<K, V>, b: map<K, V>, k: K, v: V)
    ensures a + b[k := v] == (a + b)[k := v]
  {
  }

  lemma OverlaidIsValid(u: Table, rows: seq<Row>)
    requires Valid(u) && forall i :: 0 <= i < |rows| ==> Storable(u, rows[i])
    ensures Valid(Overlaid(u, rows))
  {
    forall k | k in ByKey(u.pk, rows)
      ensures Storable(u, ByKey(u.pk, rows)[k]) && KeyOf(u.pk, ByKey(u.pk, rows)[k]) == k
    {
      var i := ByKeyFrom(u.pk, rows, k);
    }
  }

  lemma NotYetListed(pk: seq<string>, rows: seq<Row>)
    requires rows != [] && DistinctKeys(pk, rows)
    ensures KeyOf(pk, rows[|rows| - 1]) !in ByKey(pk, rows[..|rows| - 1])
  {
    var part, key := rows[..|rows| - 1], KeyOf(pk, rows[|rows| - 1]);
    if key in ByKey(pk, part) {
      var i := ByKeyFrom(pk, part, key);
      assert false;
    }
  }

  lemma ListedRowsAreStorable(t: Table, u: Table, rows: seq<Row>, part: map<PrimaryKey, Row>)
    requires Valid(t) && SameShape(t, u) && Lists(t.pk, rows, part)
    requires Within(part, t.rows)
    ensures forall i :: 0 <= i < |rows| ==> Storable(u, rows[i]) && KeyOf(u.pk, rows[i]) in part
  {
    forall i | 0 <= i < |rows| ensures Storable(u, rows[i]) && KeyOf(u.pk, rows[i]) in part {
      ByKeyHas(t.pk, rows, i);
    }
  }

  // ---- the round trips -------------------------------------------------------------------------------

  lemma TakenApart<K, V>(whole: map<K, V>, part: map<K, V>)
    requires part.Keys <= whole.Keys && forall k :: k in part ==> whole[k] == part[k]
    ensures (whole - part.Keys) + part == whole
    ensures |whole| == |whole - part.Keys| + |part|
  {
    var rest := whole - part.Keys;
    assert rest + part == whole;
    assert whole.Keys == rest.Keys + part.Keys;
    assert |whole.Keys| == |rest.Keys| + |part.Keys|;
  }

  /** Rows taken out of a table and inserted again. */
  lemma PutBack(policy: Policy, t: Table, u: Table, rows: seq<Row>, part: map<PrimaryKey, Row>)
    requires Valid(t) && Valid(u) && SameShape(t, u) && Lists(t.pk, rows, part)
    requires Within(part, t.rows)
    requires u.rows == t.rows - part.Keys
    ensures InsertRows(policy, u, rows) == Some(u.(rows := t.rows))
    ensures |t.rows| == |u.rows| + |rows|
  {
    ListedRowsAreStorable(t, u, rows, part);
    InsertAllStorable(policy, u, rows);
    ByKeySize(t.pk, rows);
    TakenApart(t.rows, part);
  }

  ghost predicate Within(part: map<PrimaryKey, Row>, whole: map<PrimaryKey, Row>) {
    part.Keys <= whole.Keys && forall k :: k in part ==> whole[k] == part[k]
  }

  lemma CaptureIsTouched(strict: bool, sem: Semantics, s: Statement, params: Params, t: Table, rows: seq<Row>)
    requires !s.OtherStatement? && s.where.Some? && Captured(strict, sem, s, params, t, rows)
    requires Touched(strict, sem, s, params, t.rows).Some?
    ensures Lists(t.pk, rows, Touched(strict, sem, s, params, t.rows).value)
    ensures Within(Touched(strict, sem, s, params, t.rows).value, t.rows)
  {
    BeforeImageIsExact(strict, sem, s, params, t.rows);
  }

  /** A guarded DELETE ... WHERE is undone by inserting its before-image, under every conflict policy. */
  lemma UndoDelete(strict: bool, sem: Semantics, s: Statement, params: Params, t: Table, u: Table,
                   rows: seq<Row>, policy: Policy)
    requires s.Delete? && s.where.Some? && Valid(t)
    requires Captured(strict, sem, s, params, t, rows) && Executes(strict, sem, s, params, t, u)
    ensures InsertRows(policy, u, rows) == Some(t)
    ensures |t.rows| == |u.rows| + |rows|
  {
    CaptureIsTouched(strict, sem, s, params, t, rows);
    PutBack(policy, t, u, rows, Touched(strict, sem, s, params, t.rows).value);
  }

  /** A guarded UPDATE ... WHERE is undone by overwriting with its before-image exactly when the keys it
      assigns are keys of rows it touched. */
  lemma UndoUpdate(strict: bool, sem: Semantics, s: Statement, params: Params, t: Table, u: Table,
                   rows: seq<Row>)
    requires s.Update? && s.where.Some? && Valid(t)
    requires Captured(strict, sem, s, params, t, rows) && Executes(strict, sem, s, params, t, u)
    ensures InsertRows(Overwrite, u, rows) == Some(t)
            <==> KeysStayTouched(sem, s, params, t.pk, Touched(strict, sem, s, params, t.rows).value)
    ensures InsertRows(Overwrite, u, rows).Some?
  {
    CaptureIsTouched(strict, sem, s, params, t, rows);
    var touched := Touched(strict, sem, s, params, t.rows).value;
    OverwriteRewritten(t, u, rows, touched, NewKeys(sem, s, params, t.pk, touched),
                       NewRows(sem, s, params, touched));
  }

  lemma OverwriteRewritten(t: Table, u: Table, rows: seq<Row>, touched: map<PrimaryKey, Row>,
                           newKey: map<PrimaryKey, PrimaryKey>, newRow: map<PrimaryKey, Row>)
    requires Valid(t) && Valid(u) && SameShape(t, u) && Lists(t.pk, rows, touched) && Within(touched, t.rows)
    requires newKey.Keys == newRow.Keys == touched.Keys && Rewritten(newKey, newRow, t.rows, u.rows)
    ensures InsertRows(Overwrite, u, rows).Some?
    ensures InsertRows(Overwrite, u, rows) == Some(t) <==> newKey.Values <= touched.Keys
  {
    ListedRowsAreStorable(t, u, rows, touched);
    InsertAllStorable(Overwrite, u, rows);
    OverlayRestores(newKey, newRow, t.rows, u.rows, touched);
  }

  ghost predicate KeysStayTouched(sem: Semantics, s: Statement, params: Params, pk: seq<string>,
                                  touched: map<PrimaryKey, Row>)
    requires s.Update?
  {
    NewKeys(sem, s, params, pk, touched).Values <= touched.Keys
  }

  predicate SetsColumn(s: Sets, column: string) {
    s.Set? && (s.column == column || SetsColumn(s.rest, column))
  }

  lemma {:induction false} AssignedColumns(sem: Semantics, s: Sets, row: Row, params: Params, at: nat, column: string)
    requires !SetsColumn(s, column)
    ensures column !in Assigned(sem, s, row, params, at)
  {
    if s.Set? { AssignedColumns(sem, s.rest, row, params, at + |Holes(s.value)|, column); }
  }

  /** A caller can see it in the statement: an UPDATE that sets no key column keeps every key, so overwrite
      undoes it, on every table and with every parameter. */
  lemma NoKeyColumnSet(strict: bool, sem: Semantics, s: Statement, params: Params, t: Table)
    requires s.Update? && Valid(t) && (forall c <- t.pk :: !SetsColumn(s.sets, c))
    requires Touched(strict, sem, s, params, t.rows).Some?
    ensures var touched := Touched(strict, sem, s, params, t.rows).value;
            && (forall k :: k in touched ==> NewKeys(sem, s, params, t.pk, touched)[k] == k)
            && KeysStayTouched(sem, s, params, t.pk, touched)
  {
    var touched := Touched(strict, sem, s, params, t.rows).value;
    forall k | k in touched ensures KeyOf(t.pk, NewRow(sem, s, params, touched[k])) == k {
      forall c | c in t.pk ensures Cell(NewRow(sem, s, params, touched[k]), c) == Cell(touched[k], c) {
        AssignedColumns(sem, s.sets, touched[k], params, 0, c);
      }
      KeyDependsOnKeyColumns(t.pk, touched[k], NewRow(sem, s, params, touched[k]));
    }
    KeysKept(NewKeys(sem, s, params, t.pk, touched), touched.Keys);
  }

  lemma KeysKept(newKey: map<PrimaryKey, PrimaryKey>, keys: set<PrimaryKey>)
    requires newKey.Keys == keys && forall k :: k in newKey ==> newKey[k] == k
    ensures newKey.Values <= keys
  {
  }

  const KeyChange := Statement.Update("t", Set("id", Literal(Int(2)), NoSets), Some(Literal(Bool(true))))
  const RowOne: Row := map["id" := Int(1)]
  const RowTwo: Row := map["id" := Int(2)]
  const WithOne := Table(map["id" := Null], ["id"], map[[Int(1)] := RowOne])
  const WithTwo := WithOne.(rows := map[[Int(2)] := RowTwo])

  /** The failing input: `UPDATE t SET id = 2 WHERE true` on a table whose one row has key 1. Overwriting with
      its before-image leaves both rows. */
  lemma KeyChangeIsNotUndone(sem: Semantics)
    ensures Valid(WithOne) && Captured(false, sem, KeyChange, NoParams, WithOne, [RowOne])
    ensures Executes(false, sem, KeyChange, NoParams, WithOne, WithTwo)
    ensures InsertRows(Overwrite, WithTwo, [RowOne])
         == Some(WithOne.(rows := map[[Int(1)] := RowOne, [Int(2)] := RowTwo]))
  {
    KeyChangeTables();
    KeyChangeIsCaptured(sem);
    KeyChangeExecutes(sem);
    KeyChangeOverwritten();
  }

  lemma KeyChangeOverwritten()
    ensures InsertRows(Overwrite, WithTwo, [RowOne])
         == Some(WithOne.(rows := map[[Int(1)] := RowOne, [Int(2)] := RowTwo]))
  {
    KeyChangeTables();
    InsertAllStorable(Overwrite, WithTwo, [RowOne]);
    assert WithTwo.rows + WithOne.rows == map[[Int(1)] := RowOne, [Int(2)] := RowTwo];
  }

  lemma KeyChangeIsCaptured(sem: Semantics)
    ensures Captured(false, sem, KeyChange, NoParams, WithOne, [RowOne])
  {
    KeyChangeTables();
    KeyChangeTouches(sem);
    assert Lists(["id"], [RowOne], WithOne.rows);
    BeforeImageIsExact(false, sem, KeyChange, NoParams, WithOne.rows);
  }

  lemma KeyChangeExecutes(sem: Semantics)
    ensures Executes(false, sem, KeyChange, NoParams, WithOne, WithTwo)
  {
    KeyChangeTables();
    KeyChangeTouches(sem);
    KeyChangeRewrites();
  }

  lemma KeyChangeTables()
    ensures KeyOf(["id"], RowOne) == [Int(1)] && KeyOf(["id"], RowTwo) == [Int(2)]
    ensures Valid(WithOne) && Valid(WithTwo) && ByKey(["id"], [RowOne]) == WithOne.rows
  {
    assert KeyOf(["id"], RowOne) == [Int(1)] && KeyOf(["id"], RowTwo) == [Int(2)];
  }

  lemma KeyChangeRewrites()
    ensures Rewritten(map[[Int(1)] := [Int(2)]], map[[Int(1)] := RowTwo], WithOne.rows, WithTwo.rows)
  {
    var newKey: map<PrimaryKey, PrimaryKey> := map[[Int(1)] := [Int(2)]];
    assert newKey[[Int(1)]] == [Int(2)];
    assert newKey.Values == {[Int(2)]};
    assert [Int(1)] != [Int(2)] by { assert [Int(1)][0] != [Int(2)][0]; }
    assert WithTwo.rows.Keys == (WithOne.rows.Keys - newKey.Keys) + newKey.Values;
  }

  lemma KeyChangeTouches(sem: Semantics)
    ensures Touched(false, sem, KeyChange, NoParams, WithOne.rows) == Some(WithOne.rows)
    ensures NewKeys(sem, KeyChange, NoParams, ["id"], WithOne.rows) == map[[Int(1)] := [Int(2)]]
    ensures NewRows(sem, KeyChange, NoParams, WithOne.rows) == map[[Int(1)] := RowTwo]
  {
    assert SetHoles(KeyChange.sets) == [] && WhereHoles(KeyChange.where) == [];
    assert Matching(sem, KeyChange.where, WithOne.rows, NoParams, 0) == WithOne.rows;
    assert NewRow(sem, KeyChange, NoParams, RowOne) == RowTwo;
    assert KeyOf(["id"], RowTwo) == [Int(2)];
  }

  lemma OverlayRestores(newKey: map<PrimaryKey, PrimaryKey>, newRow: map<PrimaryKey, Row>,
                        before: map<PrimaryKey, Row>, after: map<PrimaryKey, Row>,
                        touched: map<PrimaryKey, Row>)
    requires newKey.Keys == newRow.Keys == touched.Keys && Rewritten(newKey, newRow, before, after)
    requires Within(touched, before)
    ensures after + touched == before <==> newKey.Values <= touched.Keys
  {
    if newKey.Values <= touched.Keys {
      assert (after + touched).Keys == before.Keys;
      assert forall k :: k in before ==> (after + touched)[k] == before[k];
    } else {
      assert newKey.Values <= (after + touched).Keys;
    }
  }

  /** An UPDATE that keeps every key is not undone by the other policies: skip leaves the new rows, and
      fail refuses unless nothing was touched. */
  lemma UndoUpdateNeedsOverwrite(strict: bool, sem: Semantics, s: Statement, params: Params, t: Table,
                                 u: Table, rows: seq<Row>)
    requires s.Update? && s.where.Some? && Valid(t)
    requires Captured(strict, sem, s, params, t, rows) && Executes(strict, sem, s, params, t, u)
    requires var newKey := NewKeys(sem, s, params, t.pk, Touched(strict, sem, s, params, t.rows).value);
             forall k :: k in newKey ==> newKey[k] == k
    ensures InsertRows(Skip, u, rows) == Some(u)
    ensures rows != [] ==> InsertRows(Fail, u, rows) == None
  {
    CaptureIsTouched(strict, sem, s, params, t, rows);
    var touched := Touched(strict, sem, s, params, t.rows).value;
    ListedRowsAreStorable(t, u, rows, touched);
    var newKey := NewKeys(sem, s, params, t.pk, touched);
    forall i | 0 <= i < |rows| ensures KeyOf(u.pk, rows[i]) in u.rows {
      assert newKey[KeyOf(u.pk, rows[i])] in newKey.Values;
    }
    ConflictsOnly(u, rows);
  }

  lemma {:induction false} ConflictsOnly(u: Table, rows: seq<Row>)
    requires forall i :: 0 <= i < |rows| ==> Storable(u, rows[i]) && KeyOf(u.pk, rows[i]) in u.rows
    ensures InsertRows(Skip, u, rows) == Some(u)
    ensures rows != [] ==> InsertRows(Fail, u, rows) == None
  {
    if rows != [] {
      var n := |rows| - 1;
      ConflictsOnly(u, rows[..n]);
      assert Full(u, rows[n]) == rows[n];
      if n == 0 { assert rows[..n] == []; }
    }
  }

  /** A table-scope snapshot undoes DELETE without WHERE, TRUNCATE and DROP TABLE: the table is gone or
      empty, and any policy brings every row back. */
  lemma UndoWipe(db: Database, r: Request, t: Table, rows: seq<Row>)
    requires r.manifest.Some? && r.manifest.value.scope == "table" && Describes(r.manifest.value, rows)
    requires Valid(t) && Lists(t.pk, rows, t.rows)
    requires r.manifest.value.schema.Keys == t.schema.Keys && r.manifest.value.pk == t.pk
    requires TargetOf(r) in db ==> db[TargetOf(r)] == t.(rows := map[])
    requires Authoritative(r.manifest.value, r.table) && r.batches.Some? && Flatten(r.batches.value) == rows
    requires !Faulty(r.faults, |r.batches.value|)
    ensures var created := Created(db, TargetOf(r), r.manifest.value);
            Transaction(db, r) == Some(Transacted(
              created[TargetOf(r) := created[TargetOf(r)].(rows := t.rows)], |t.rows|))
  {
    var u := Created(db, TargetOf(r), r.manifest.value)[TargetOf(r)];
    assert u.schema.Keys == t.schema.Keys && u.pk == t.pk && u.rows == map[];
    Refill(r.policy, t, u, rows);
  }

  lemma Refill(policy: Policy, t: Table, u: Table, rows: seq<Row>)
    requires Valid(t) && Lists(t.pk, rows, t.rows)
    requires u.schema.Keys == t.schema.Keys && u.pk == t.pk && u.rows == map[]
    ensures InsertRows(policy, u, rows) == Some(u.(rows := t.rows)) && |t.rows| == |rows|
  {
    forall i | 0 <= i < |rows| ensures Storable(u, rows[i]) { ByKeyHas(t.pk, rows, i); }
    InsertAllStorable(policy, u, rows);
    assert map[] + t.rows == t.rows;
    ByKeySize(t.pk, rows);
  }

  // ---- through the restore transaction ---------------------------------------------------------------

  /** A rows-scope restore of `rows` back into the table they came from. */
  predicate RestoresRows(r: Request, table: string, rows: seq<Row>) {
    && r.manifest.Some? && r.manifest.value.scope == "rows" && Describes(r.manifest.value, rows)
    && Authoritative(r.manifest.value, r.table)
    && TargetOf(r) == table
  }

  /** Every committed restore of a guarded DELETE's snapshot gives back the whole original database,
      and the restore commits whenever the data object is intact and nothing fails. */
  lemma DeleteThenRestore(strict: bool, sem: Semantics, s: Statement, params: Params, db: Database,
                          u: Table, rows: seq<Row>, r: Request)
    requires s.Delete? && s.where.Some? && s.table in db && Valid(db[s.table])
    requires Captured(strict, sem, s, params, db[s.table], rows)
    requires Executes(strict, sem, s, params, db[s.table], u)
    requires RestoresRows(r, s.table, rows)
    ensures var result := Transaction(db[s.table := u], r);
            && (result.Some? ==> result.value.db == db && result.value.count == |rows|)
            && (result.Some? <==> (&& r.batches.Some? && Flatten(r.batches.value) == rows
                                   && !Faulty(r.faults, |r.batches.value|)))
  {
    UndoDelete(strict, sem, s, params, db[s.table], u, rows, r.policy);
    RestoreBack(db, s.table, u, rows, r);
  }

  lemma RestoreBack(db: Database, table: string, u: Table, rows: seq<Row>, r: Request)
    requires table in db && RestoresRows(r, table, rows)
    requires InsertRows(r.policy, u, rows) == Some(db[table]) && |db[table].rows| == |u.rows| + |rows|
    ensures var result := Transaction(db[table := u], r);
            && (result.Some? ==> result.value.db == db && result.value.count == |rows|)
            && (result.Some? <==> (&& r.batches.Some? && Flatten(r.batches.value) == rows
                                   && !Faulty(r.faults, |r.batches.value|)))
  {
    PutTable(db, table, u, db[table]);
  }

  /** The same for UPDATE under overwrite, exactly when its keys stay among the touched rows. */
  lemma UpdateThenRestore(strict: bool, sem: Semantics, s: Statement, params: Params, db: Database,
                          u: Table, rows: seq<Row>, r: Request)
    requires s.Update? && s.where.Some? && s.table in db && Valid(db[s.table])
    requires Captured(strict, sem, s, params, db[s.table], rows)
    requires Executes(strict, sem, s, params, db[s.table], u)
    requires RestoresRows(r, s.table, rows) && r.policy == Overwrite
    requires Transaction(db[s.table := u], r).Some?
    ensures Transaction(db[s.table := u], r).value.db == db
            <==> KeysStayTouched(sem, s, params, db[s.table].pk,
                                 Touched(strict, sem, s, params, db[s.table].rows).value)
  {
    UndoUpdate(strict, sem, s, params, db[s.table], u, rows);
    var after := InsertRows(Overwrite, u, rows).value;
    PutTable(db, s.table, u, after);
  }

  /** In particular an UPDATE that sets no key column is undone by every committed overwrite restore. */
  lemma KeylessUpdateThenRestore(strict: bool, sem: Semantics, s: Statement, params: Params, db: Database,
                                 u: Table, rows: seq<Row>, r: Request)
    requires s.Update? && s.where.Some? && s.table in db && Valid(db[s.table])
    requires forall c <- db[s.table].pk :: !SetsColumn(s.sets, c)
    requires Captured(strict, sem, s, params, db[s.table], rows)
    requires Executes(strict, sem, s, params, db[s.table], u)
    requires RestoresRows(r, s.table, rows) && r.policy == Overwrite
    requires Transaction(db[s.table := u], r).Some?
    ensures Transaction(db[s.table := u], r).value.db == db
  {
    NoKeyColumnSet(strict, sem, s, params, db[s.table]);
    UpdateThenRestore(strict, sem, s, params, db, u, rows, r);
  }

  lemma PutTable(db: Database, name: string, u: Table, v: Table)
    requires name in db
    ensures db[name := u][name := v] == db <==> v == db[name]
  {
    if v == db[name] {
      assert db[name := u][name := v] == db;
    } else {
      assert db[name := u][name := v][name] != db[name];
    }
  }
}
