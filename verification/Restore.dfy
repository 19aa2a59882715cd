/** sdk/python/backstop/restore.py: transactional restore of a snapshot under a conflict policy. */
module Restore {
  import opened Options
  import opened Tables
  import opened Manifests

  datatype Policy = Skip | Overwrite | Fail | Unknown(name: string)

  /** What a restore looks at in an SDK manifest; the digest is that of the rows in the Parquet data. */
  datatype SdkManifest = SdkManifest(
    table: string, status: string, scope: string, sha: Digest<seq<Row>>, rowCount: nat, schema: Row, pk: seq<string>)

  /** The database and storage operations that can fail by themselves. */
  datatype Point =
    | AtSchema | AtLock | AtCreate | AtCountBefore | AtBatch(n: nat) | AtCountAfter | AtSequences
    | AtConstraints | AtValidation | AtCommit

  /** `batches` is the data object, cut by the Parquet reader; None when it cannot be fetched. */
  datatype Request = Request(
    table: string, target: string, policy: Policy, dryRun: bool,
    manifest: Option<SdkManifest>, batches: Option<seq<seq<Row>>>, faults: set<Point>)

  datatype Outcome = BadPolicy | NotFound | Previewed | Restored(count: nat) | RolledBack

  type Database = map<string, Table>

  function TargetOf(r: Request): string {
    if r.target == "" then r.table + "_recovered" else r.target
  }

  /** `_validate_manifest_for_restore` */
  predicate Authoritative(m: SdkManifest, table: string) {
    m.table == table && m.status == "valid" && (m.scope == "table" || m.scope == "rows") && m.sha != NoDigest
  }

  // ---- inserting rows --------------------------------------------------------------------------------

  /** The row an INSERT of `row` stores: columns it does not name take their default. */
  function Full(t: Table, row: Row): Row {
    t.schema + row
  }

  function RowKey(t: Table, row: Row): PrimaryKey {
    KeyOf(t.pk, Full(t, row))
  }

  /** The non-key columns, which `DO UPDATE SET col = EXCLUDED.col` copies. */
  function Excluded(pk: seq<string>, row: Row): Row {
    map c | c in row && c !in pk :: row[c]
  }

  /** One execution of the statement `_build_insert_statement` makes; None when PostgreSQL raises. */
  function InsertRow(policy: Policy, t: Table, row: Row): Option<Table> {
    var key := RowKey(t, row);
    if !(row.Keys <= t.schema.Keys) || Null in key then None
    else if key !in t.rows then Some(t.(rows := t.rows[key := Full(t, row)]))
    else match policy {
      case Skip => Some(t)
      case Overwrite => Some(t.(rows := t.rows[key := t.rows[key] + Excluded(t.pk, row)]))
      case _ => None
    }
  }

  function InsertRows(policy: Policy, t: Table, rows: seq<Row>): Option<Table> {
    if rows == [] then Some(t)
    else
      var so_far := InsertRows(policy, t, rows[..|rows| - 1]);
      if so_far.None? then None else InsertRow(policy, so_far.value, rows[|rows| - 1])
  }

  function Flatten(batches: seq<seq<Row>>): seq<Row> {
    if batches == [] then [] else Flatten(batches[..|batches| - 1]) + batches[|batches| - 1]
  }

  // ---- the transaction -------------------------------------------------------------------------------

  /** `CREATE TABLE IF NOT EXISTS` with the captured definition. */
  function Created(db: Database, target: string, m: SdkManifest): Database {
    if target in db then db else db[target := Table(m.schema, m.pk, map[])]
  }

  /** `max(after - before, 0)` under skip; every row of the snapshot otherwise. */
  function Count(policy: Policy, before: nat, after: nat, rows: nat): nat {
    if policy != Skip then rows else if after >= before then after - before else 0
  }

  datatype Transacted = Transacted(db: Database, count: nat)

  predicate FaultyBefore(faults: set<Point>) {
    AtSchema in faults || AtLock in faults || AtCreate in faults || AtCountBefore in faults
  }

  predicate FaultyAfter(faults: set<Point>) {
    AtCountAfter in faults || AtSequences in faults || AtConstraints in faults || AtValidation in faults
  }

  predicate FaultyBatch(faults: set<Point>, batches: nat) {
    exists n :: 0 <= n < batches && AtBatch(n) in faults
  }

  predicate Faulty(faults: set<Point>, batches: nat) {
    FaultyBefore(faults) || FaultyAfter(faults) || FaultyBatch(faults, batches)
  }

  /** `_validate_restore_result`: only table-scope snapshots fix the number of rows. */
  predicate Validates(m: SdkManifest, rows: nat) {
    m.scope == "table" ==> rows == m.rowCount
  }

  /** What the restore transaction does to the database it sees, batch boundaries forgotten; None when it
      raises. */
  function Transaction(db: Database, r: Request): Option<Transacted>
    requires r.manifest.Some?
  {
    var m, target := r.manifest.value, TargetOf(r);
    if !Authoritative(m, r.table) || r.batches.None? || Faulty(r.faults, |r.batches.value|)
       || m.sha != Sha256(Flatten(r.batches.value)) then None
    else Filled(Created(db, target, m), target, r.policy, m, Flatten(r.batches.value))
  }

  /** The rows inserted into an existing target, counted and validated. */
  function Filled(db: Database, target: string, policy: Policy, m: SdkManifest, rows: seq<Row>): Option<Transacted>
    requires target in db
  {
    var after := InsertRows(policy, db[target], rows);
    if after.None? || !Validates(m, |after.value.rows|) then None
    else Some(Transacted(db[target := after.value],
                         Count(policy, |db[target].rows|, |after.value.rows|, |rows|)))
  }

  /** Every table but `name` is the same in both databases. */
  ghost predicate SameElsewhere(a: Database, b: Database, name: string) {
    forall other :: other != name ==> (other in a <==> other in b) && (other in a ==> a[other] == b[other])
  }

  /** A transaction that succeeds changes the table its caller named, or else `<table>_recovered`, and no other:
      without a target never the original table. Its manifest was valid, of this table and of a known scope, its
      data had the recorded hash, and nothing on the way failed. */
  lemma TransactionTouchesOneTable(db: Database, r: Request)
    requires r.manifest.Some? && Transaction(db, r).Some?
    ensures var result := Transaction(db, r).value.db;
            && (r.target == "" ==> r.table + "_recovered" in result && SameElsewhere(db, result, r.table + "_recovered"))
            && (r.target != "" ==> r.target in result && SameElsewhere(db, result, r.target))
            && (r.target == "" ==> (r.table in db <==> r.table in result))
            && (r.target == "" && r.table in db ==> result[r.table] == db[r.table])
    ensures var m := r.manifest.value;
            && m.table == r.table && m.status == "valid" && (m.scope == "table" || m.scope == "rows")
            && r.batches.Some? && m.sha == Sha256(Flatten(r.batches.value))
    ensures forall p :: p in r.faults ==> p == AtCommit || (p.AtBatch? && p.n >= |r.batches.value|)
  {
    assert r.table + "_recovered" != r.table by { assert |r.table + "_recovered"| == |r.table| + 10; }
  }

  lemma {:induction false} InsertRowsConcat(policy: Policy, t: Table, a: seq<Row>, b: seq<Row>)
    requires InsertRows(policy, t, a).Some?
    ensures InsertRows(policy, t, a + b) == InsertRows(policy, InsertRows(policy, t, a).value, b)
  {
    if b == [] {
      assert a + b == a;
    } else {
      InsertRowsConcat(policy, t, a, b[..|b| - 1]);
      assert (a + b)[..|a + b| - 1] == a + b[..|b| - 1];
    }
  }

  lemma {:induction false} InsertRowsFails(policy: Policy, t: Table, a: seq<Row>, b: seq<Row>)
    requires InsertRows(policy, t, a).None?
    ensures InsertRows(policy, t, a + b).None?
  {
    if b == [] {
      assert a + b == a;
    } else {
      InsertRowsFails(policy, t, a, b[..|b| - 1]);
      assert (a + b)[..|a + b| - 1] == a + b[..|b| - 1];
    }
  }

  lemma {:induction false} FlattenPrefix(batches: seq<seq<Row>>, n: nat) returns (rest: seq<Row>)
    requires n <= |batches|
    ensures Flatten(batches) == Flatten(batches[..n]) + rest
  {
    if n == |batches| {
      assert batches[..n] == batches;
      rest := [];
    } else {
      var m := |batches| - 1;
      assert batches[..m][..n] == batches[..n];
      rest := FlattenPrefix(batches[..m], n);
      rest := rest + batches[m];
    }
  }

  lemma UpdatedTwice(db: Database, name: string, t: Table, u: Table)
    ensures db[name := t][name := u] == db[name := u]
  {
  }

  /** One turn of the batch loop. */
  lemma BatchStep(policy: Policy, t: Table, batches: seq<seq<Row>>, i: nat, sofar: Table)
    requires i < |batches| && InsertRows(policy, t, Flatten(batches[..i])) == Some(sofar)
    ensures InsertRows(policy, t, Flatten(batches[..i + 1])) == InsertRows(policy, sofar, batches[i])
    ensures |Flatten(batches[..i + 1])| == |Flatten(batches[..i])| + |batches[i]|
    ensures InsertRows(policy, sofar, batches[i]).None? ==> InsertRows(policy, t, Flatten(batches)).None?
  {
    assert batches[..i + 1][..i] == batches[..i];
    InsertRowsConcat(policy, t, Flatten(batches[..i]), batches[i]);
    if InsertRows(policy, sofar, batches[i]).None? {
      var rest := FlattenPrefix(batches, i + 1);
      InsertRowsFails(policy, t, Flatten(batches[..i + 1]), rest);
    }
  }

  /** A psycopg2 connection: what is committed, and what its open transaction sees. */
  class Connection {
    var committed: Database
    var working: Database

    constructor (db: Database)
      ensures committed == db && working == db
    {
      committed, working := db, db;
    }

    /** `execute_batch` of one batch into `target`. */
    method InsertBatch(policy: Policy, target: string, rows: seq<Row>) returns (ok: bool)
      requires target in working
      modifies this`working
      ensures ok == InsertRows(policy, old(working)[target], rows).Some?
      ensures ok ==> working == old(working)[target := InsertRows(policy, old(working)[target], rows).value]
    {
      ghost var t := working[target];
      for i := 0 to |rows|
        invariant target in working && InsertRows(policy, t, rows[..i]) == Some(working[target])
        invariant working == old(working)[target := working[target]]
      {
        var next := InsertRow(policy, working[target], rows[i]);
        assert rows[..i + 1][..i] == rows[..i];
        if next.None? {
          InsertRowsFails(policy, t, rows[..i + 1], rows[i + 1..]);
          assert rows[..i + 1] + rows[i + 1..] == rows;
          return false;
        }
        working := working[target := next.value];
      }
      assert rows[..|rows|] == rows;
      ok := true;
    }

    /** The insert loop over record batches: it fails exactly when a batch fails or a row is refused, and
        otherwise leaves what inserting all rows in one go would. */
    method InsertBatches(policy: Policy, target: string, batches: seq<seq<Row>>, faults: set<Point>)
      returns (ok: bool, count: nat)
      requires target in working
      modifies this`working
      ensures var after := InsertRows(policy, old(working)[target], Flatten(batches));
              && (ok <==> after.Some? && !FaultyBatch(faults, |batches|))
              && (ok ==> working == old(working)[target := after.value])
      ensures ok ==> count == if policy == Skip then 0 else |Flatten(batches)|
    {
      count := 0;
      ghost var t := working[target];
      ghost var sofar := t;
      assert working == working[target := t];
      for i := 0 to |batches|
        invariant working == old(working)[target := sofar]
        invariant InsertRows(policy, t, Flatten(batches[..i])) == Some(sofar)
        invariant count == if policy == Skip then 0 else |Flatten(batches[..i])|
        invariant !FaultyBatch(faults, i)
      {
        if AtBatch(i) in faults {
          return false, 0;
        }
        BatchStep(policy, t, batches, i, sofar);
        if batches[i] != [] {
          var inserted := InsertBatch(policy, target, batches[i]);
          if !inserted {
            return false, 0;
          }
          UpdatedTwice(old(working), target, sofar, InsertRows(policy, sofar, batches[i]).value);
          sofar := InsertRows(policy, sofar, batches[i]).value;
          if policy != Skip {
            count := count + |batches[i]|;
          }
        }
      }
      assert batches[..|batches|] == batches;
      ok := true;
    }

    /** The body of the `try` block up to the commit. */
    method Transact(r: Request) returns (ok: bool, count: nat)
      requires r.manifest.Some?
      modifies this`working
      ensures ok == Transaction(old(working), r).Some?
      ensures ok ==> Transaction(old(working), r) == Some(Transacted(working, count))
    {
      ok, count := false, 0;
      var m, target := r.manifest.value, TargetOf(r);
      if !Authoritative(m, r.table) || FaultyBefore(r.faults) {
        return;
      }
      if target !in working {
        working := working[target := Table(m.schema, m.pk, map[])];
      }
      if r.batches.None? || m.sha != Sha256(Flatten(r.batches.value)) {
        return;
      }
      assert working == Created(old(working), target, m);
      ok, count := Fill(target, r.policy, m, r.batches.value, r.faults);
    }

    /** The insert loop with its counts, and the validation before the commit. */
    method Fill(target: string, policy: Policy, m: SdkManifest, batches: seq<seq<Row>>, faults: set<Point>)
      returns (ok: bool, count: nat)
      requires target in working
      modifies this`working
      ensures var filled := Filled(old(working), target, policy, m, Flatten(batches));
              && (ok <==> filled.Some? && !FaultyBatch(faults, |batches|) && !FaultyAfter(faults))
              && (ok ==> filled == Some(Transacted(working, count)))
    {
      ok, count := false, 0;
      var before := |working[target].rows|;
      var inserted, total := InsertBatches(policy, target, batches, faults);
      if !inserted || FaultyAfter(faults) {
        return;
      }
      var after := |working[target].rows|;
      count := if policy != Skip then total else if after >= before then after - before else 0;
      ok := Validates(m, after);
    }

    /** A restore either commits what its transaction did or leaves the database as it was. */
    method RestoreTable(r: Request) returns (o: Outcome)
      modifies this
      ensures o.Restored? <==> (&& !r.policy.Unknown? && !r.dryRun && r.manifest.Some?
                                && Transaction(old(working), r).Some? && AtCommit !in r.faults)
      ensures o.Restored? ==> Transaction(old(working), r) == Some(Transacted(committed, o.count))
      ensures !o.Restored? ==> committed == old(committed)
      ensures o.BadPolicy? <==> r.policy.Unknown?
      ensures o.NotFound? <==> !r.policy.Unknown? && r.manifest.None?
      ensures o.Previewed? <==> !r.policy.Unknown? && r.manifest.Some? && r.dryRun
      ensures o.Restored? ==>
                && (r.target == "" ==> r.table + "_recovered" in committed
                                       && SameElsewhere(old(working), committed, r.table + "_recovered"))
                && (r.target != "" ==> r.target in committed && SameElsewhere(old(working), committed, r.target))
      ensures old(working) == old(committed) ==>
                && (r.target == "" ==> SameElsewhere(old(committed), committed, r.table + "_recovered"))
                && (r.target != "" ==> SameElsewhere(old(committed), committed, r.target))
                && (r.target == "" && r.table in old(committed) ==>
                      r.table in committed && committed[r.table] == old(committed)[r.table])
      ensures o.Restored? ==>
                var m := r.manifest.value;
                && m.table == r.table && m.status == "valid" && (m.scope == "table" || m.scope == "rows")
                && r.batches.Some? && m.sha == Sha256(Flatten(r.batches.value))
                && forall p :: p in r.faults ==> p.AtBatch? && p.n >= |r.batches.value|
      ensures o.Restored? || o.RolledBack? ==> working == committed
      ensures o.BadPolicy? || o.NotFound? || o.Previewed? ==> working == old(working)
    {
      if r.policy.Unknown? {
        return BadPolicy;
      }
      if r.manifest.None? {
        return NotFound;
      }
      if r.dryRun {
        return Previewed;
      }
      ghost var seen := working;
      var ok, count := Transact(r);
      if ok { TransactionTouchesOneTable(seen, r); }
      if ok && AtCommit !in r.faults {
        committed := working;
        return Restored(count);
      }
      working := committed;
      return RolledBack;
    }
  }

  // ---- what a successful run of inserts leaves -------------------------------------------------------

  function RowKeys(t: Table, rows: seq<Row>): set<PrimaryKey> {
    set i | 0 <= i < |rows| :: RowKey(t, rows[i])
  }

  ghost predicate DistinctRowKeys(t: Table, rows: seq<Row>) {
    forall i, j :: 0 <= i < j < |rows| ==> RowKey(t, rows[i]) != RowKey(t, rows[j])
  }

  /** The stored row has the snapshot's value in every column of the snapshot. */
  predicate Agrees(row: Row, stored: Row) {
    row.Keys <= stored.Keys && forall c :: c in row ==> stored[c] == row[c]
  }

  ghost predicate SameShape(t: Table, u: Table) {
    u.schema == t.schema && u.pk == t.pk
  }

  lemma KeyDependsOnKeyColumns(pk: seq<string>, a: Row, b: Row)
    requires forall c <- pk :: Cell(a, c) == Cell(b, c)
    ensures KeyOf(pk, a) == KeyOf(pk, b)
  {
  }

  lemma KeyColumnsMatch(pk: seq<string>, a: Row, b: Row, c: string)
    requires KeyOf(pk, a) == KeyOf(pk, b) && c in pk
    ensures Cell(a, c) == Cell(b, c)
  {
    var i :| 0 <= i < |pk| && pk[i] == c;
    assert KeyOf(pk, a)[i] == KeyOf(pk, b)[i];
  }

  lemma InsertRowStep(policy: Policy, t: Table, row: Row)
    requires Valid(t) && InsertRow(policy, t, row).Some?
    ensures var u := InsertRow(policy, t, row).value;
            && SameShape(t, u) && Valid(u)
            && u.rows.Keys == t.rows.Keys + {RowKey(t, row)}
            && (forall k :: k in t.rows && k != RowKey(t, row) ==> u.rows[k] == t.rows[k])
  {
    var key := RowKey(t, row);
    if key in t.rows && policy == Overwrite {
      KeyDependsOnKeyColumns(t.pk, t.rows[key], t.rows[key] + Excluded(t.pk, row));
    }
  }

  /** The row stored under the key just inserted. */
  lemma InsertRowStores(policy: Policy, t: Table, row: Row)
    requires Valid(t) && InsertRow(policy, t, row).Some?
    ensures var stored := InsertRow(policy, t, row).value.rows[RowKey(t, row)];
            && (policy == Skip && RowKey(t, row) in t.rows ==> stored == t.rows[RowKey(t, row)])
            && (RowKey(t, row) !in t.rows ==> stored == Full(t, row))
            && (policy != Skip ==> Agrees(row, stored))
  {
    var key := RowKey(t, row);
    if key in t.rows && policy == Overwrite {
      forall c | c in row && c in t.pk ensures t.rows[key][c] == row[c] {
        KeyColumnsMatch(t.pk, t.rows[key], Full(t, row), c);
      }
    }
  }

  lemma RowKeysStep(t: Table, rows: seq<Row>)
    requires rows != []
    ensures RowKeys(t, rows) == RowKeys(t, rows[..|rows| - 1]) + {RowKey(t, rows[|rows| - 1])}
  {
    var n := |rows| - 1;
    assert forall i :: 0 <= i < n ==> rows[..n][i] == rows[i];
  }

  lemma {:induction false} InsertRowsShape(policy: Policy, t: Table, rows: seq<Row>)
    requires Valid(t) && InsertRows(policy, t, rows).Some?
    ensures var u := InsertRows(policy, t, rows).value;
            SameShape(t, u) && Valid(u) && u.rows.Keys == t.rows.Keys + RowKeys(t, rows)
  {
    if rows != [] {
      var n := |rows| - 1;
      InsertRowsShape(policy, t, rows[..n]);
      InsertRowStep(policy, InsertRows(policy, t, rows[..n]).value, rows[n]);
      RowKeysStep(t, rows);
    }
  }

  /** Rows whose keys the snapshot does not mention are kept. */
  lemma {:induction false} InsertRowsKeeps(policy: Policy, t: Table, rows: seq<Row>, k: PrimaryKey)
    requires Valid(t) && InsertRows(policy, t, rows).Some?
    requires k in t.rows && k !in RowKeys(t, rows)
    ensures var u := InsertRows(policy, t, rows).value; k in u.rows && u.rows[k] == t.rows[k]
  {
    if rows != [] {
      var n := |rows| - 1;
      InsertRowsShape(policy, t, rows[..n]);
      RowKeysStep(t, rows);
      InsertRowsKeeps(policy, t, rows[..n], k);
      InsertRowStep(policy, InsertRows(policy, t, rows[..n]).value, rows[n]);
    }
  }

  /** What is stored under each snapshot key, by policy. */
  ghost predicate StoredBy(policy: Policy, t: Table, row: Row, u: Table) {
    var key := RowKey(t, row);
    && key in u.rows
    && (key !in t.rows ==> u.rows[key] == Full(t, row))
    && (policy == Skip && key in t.rows ==> u.rows[key] == t.rows[key])
    && (policy != Skip ==> Agrees(row, u.rows[key]))
    && (policy == Fail ==> key !in t.rows)
  }

  /** The last row inserted, after rows with other keys. */
  lemma LastRowStored(policy: Policy, t: Table, part: seq<Row>, row: Row)
    requires Valid(t) && InsertRows(policy, t, part).Some? && RowKey(t, row) !in RowKeys(t, part)
    requires InsertRow(policy, InsertRows(policy, t, part).value, row).Some?
    ensures StoredBy(policy, t, row, InsertRow(policy, InsertRows(policy, t, part).value, row).value)
  {
    var v, key := InsertRows(policy, t, part).value, RowKey(t, row);
    InsertRowsShape(policy, t, part);
    InsertRowStep(policy, v, row);
    InsertRowStores(policy, v, row);
    if key in t.rows { InsertRowsKeeps(policy, t, part, key); }
  }

  lemma LastKeyIsNew(t: Table, rows: seq<Row>)
    requires rows != [] && DistinctRowKeys(t, rows)
    ensures DistinctRowKeys(t, rows[..|rows| - 1])
    ensures RowKey(t, rows[|rows| - 1]) !in RowKeys(t, rows[..|rows| - 1])
  {
    var part := rows[..|rows| - 1];
    assert forall i :: 0 <= i < |part| ==> part[i] == rows[i];
  }

  lemma LaterRowKeeps(policy: Policy, t: Table, part: seq<Row>, row: Row, later: Row)
    requires Valid(t) && InsertRows(policy, t, part).Some? && RowKey(t, row) != RowKey(t, later)
    requires InsertRow(policy, InsertRows(policy, t, part).value, later).Some?
    requires StoredBy(policy, t, row, InsertRows(policy, t, part).value)
    ensures StoredBy(policy, t, row, InsertRow(policy, InsertRows(policy, t, part).value, later).value)
  {
    InsertRowsShape(policy, t, part);
    InsertRowStep(policy, InsertRows(policy, t, part).value, later);
  }

  lemma {:induction false} InsertRowsStores(policy: Policy, t: Table, rows: seq<Row>, i: nat, row: Row)
    requires Valid(t) && InsertRows(policy, t, rows).Some?
    requires DistinctRowKeys(t, rows) && i < |rows| && row == rows[i]
    ensures StoredBy(policy, t, row, InsertRows(policy, t, rows).value)
  {
    var n := |rows| - 1;
    var part := rows[..n];
    LastKeyIsNew(t, rows);
    if i < n {
      InsertRowsStores(policy, t, part, i, row);
      LaterRowKeeps(policy, t, part, row, rows[n]);
    } else {
      LastRowStored(policy, t, part, row);
    }
  }

  lemma {:induction false} DistinctSize<T>(s: seq<T>)
    requires forall i, j :: 0 <= i < j < |s| ==> s[i] != s[j]
    ensures |(set x <- s)| == |s|
  {
    if s != [] {
      DistinctSize(s[..|s| - 1]);
      var rest := s[..|s| - 1];
      assert (set x <- s) == (set x <- rest) + {s[|s| - 1]};
    }
  }

  lemma RowKeysSize(t: Table, rows: seq<Row>)
    requires DistinctRowKeys(t, rows)
    ensures |RowKeys(t, rows)| == |rows|
  {
    var keys := seq(|rows|, i requires 0 <= i < |rows| => RowKey(t, rows[i]));
    DistinctSize(keys);
    assert forall i :: 0 <= i < |rows| ==> RowKey(t, rows[i]) == keys[i];
    assert RowKeys(t, rows) == set k <- keys;
  }

  // ---- committed restores ----------------------------------------------------------------------------

  /** The manifest describes a capture of these rows. */
  predicate Describes(m: SdkManifest, rows: seq<Row>) {
    m.sha == Sha256(rows) && m.rowCount == |rows|
  }

  /** A committed table-scope restore leaves exactly the snapshot's keys in the target. Under overwrite and
      fail every row is the snapshot's, and fail committed only because the target held nothing; under
      skip a row that was there stays and a missing one is the snapshot's. No other table changes. */
  lemma CommittedRestoreIsExact(db: Database, r: Request, rows: seq<Row>)
    requires r.manifest.Some? && r.manifest.value.scope == "table" && Describes(r.manifest.value, rows)
    requires Transaction(db, r).Some?
    requires Valid(Created(db, TargetOf(r), r.manifest.value)[TargetOf(r)])
    requires DistinctRowKeys(Created(db, TargetOf(r), r.manifest.value)[TargetOf(r)], rows)
    ensures var target := TargetOf(r);
            var t := Created(db, target, r.manifest.value)[target];
            var result := Transaction(db, r).value;
            && result.db == Created(db, target, r.manifest.value)[target := result.db[target]]
            && SameShape(t, result.db[target])
            && result.db[target].rows.Keys == RowKeys(t, rows)
            && (forall i :: 0 <= i < |rows| ==> StoredBy(r.policy, t, rows[i], result.db[target]))
            && (r.policy == Fail ==> t.rows == map[])
            && result.count == if r.policy == Skip then |rows| - |t.rows| else |rows|
  {
    var t := Created(db, TargetOf(r), r.manifest.value)[TargetOf(r)];
    CountedInsertsAreExact(r.policy, t, rows);
  }

  /** The cardinality argument: inserting n rows with distinct keys ends at n rows only if no other key
      was there. */
  lemma CountedInsertsAreExact(policy: Policy, t: Table, rows: seq<Row>)
    requires Valid(t) && DistinctRowKeys(t, rows) && InsertRows(policy, t, rows).Some?
    requires |InsertRows(policy, t, rows).value.rows| == |rows|
    ensures var u := InsertRows(policy, t, rows).value;
            && SameShape(t, u) && u.rows.Keys == RowKeys(t, rows) && |t.rows| <= |rows|
            && (forall i :: 0 <= i < |rows| ==> StoredBy(policy, t, rows[i], u))
            && (policy == Fail ==> t.rows == map[])
  {
    var u := InsertRows(policy, t, rows).value;
    InsertRowsShape(policy, t, rows);
    RowKeysSize(t, rows);
    SameSizeSubset(RowKeys(t, rows), u.rows.Keys);
    forall i | 0 <= i < |rows| ensures StoredBy(policy, t, rows[i], u) {
      InsertRowsStores(policy, t, rows, i, rows[i]);
    }
    KeysFit(t.rows.Keys, u.rows.Keys);
    assert policy == Fail ==> forall k :: k in t.rows ==> k !in RowKeys(t, rows);
  }

  lemma KeysFit<T>(a: set<T>, b: set<T>)
    requires a <= b
    ensures |a| <= |b|
  {
    assert b == a + (b - a);
  }

  /** When the target has the snapshot's columns, overwrite and fail leave the snapshot itself. */
  lemma CommittedRestoreIsTheSnapshot(db: Database, r: Request, rows: seq<Row>)
    requires r.manifest.Some? && r.manifest.value.scope == "table" && Describes(r.manifest.value, rows)
    requires Transaction(db, r).Some? && (r.policy == Overwrite || r.policy == Fail)
    requires Valid(Created(db, TargetOf(r), r.manifest.value)[TargetOf(r)])
    requires var t := Created(db, TargetOf(r), r.manifest.value)[TargetOf(r)];
             DistinctKeys(t.pk, rows) && forall i :: 0 <= i < |rows| ==> rows[i].Keys == t.schema.Keys
    ensures var u := Transaction(db, r).value.db[TargetOf(r)]; Lists(u.pk, rows, u.rows)
  {
    var t := Created(db, TargetOf(r), r.manifest.value)[TargetOf(r)];
    WideRows(t, rows);
    CommittedRestoreIsExact(db, r, rows);
    InsertRowsShape(r.policy, t, rows);
    var u := Transaction(db, r).value.db[TargetOf(r)];
    StoredRowsAreTheSnapshot(r.policy, t, rows, u);
  }

  lemma WideRows(t: Table, rows: seq<Row>)
    requires forall i :: 0 <= i < |rows| ==> rows[i].Keys == t.schema.Keys
    ensures forall i :: 0 <= i < |rows| ==> Full(t, rows[i]) == rows[i]
    ensures DistinctKeys(t.pk, rows) <==> DistinctRowKeys(t, rows)
  {
  }

  lemma StoredRow(policy: Policy, t: Table, row: Row, u: Table)
    requires policy != Skip && SameShape(t, u) && Valid(u) && StoredBy(policy, t, row, u)
    requires row.Keys == t.schema.Keys
    ensures RowKey(t, row) in u.rows && u.rows[RowKey(t, row)] == row
  {
  }

  lemma StoredRowsAreTheSnapshot(policy: Policy, t: Table, rows: seq<Row>, u: Table)
    requires policy != Skip && SameShape(t, u) && Valid(u) && DistinctKeys(t.pk, rows)
    requires forall i :: 0 <= i < |rows| ==> rows[i].Keys == t.schema.Keys
    requires forall i :: 0 <= i < |rows| ==> StoredBy(policy, t, rows[i], u)
    requires u.rows.Keys == RowKeys(t, rows)
    ensures u.rows == ByKey(t.pk, rows)
  {
    WideRows(t, rows);
    forall i | 0 <= i < |rows|
      ensures KeyOf(t.pk, rows[i]) in u.rows && u.rows[KeyOf(t.pk, rows[i])] == rows[i]
    {
      StoredRow(policy, t, rows[i], u);
    }
    assert forall k :: k in u.rows ==> exists i :: 0 <= i < |rows| && KeyOf(t.pk, rows[i]) == k;
    ListedRows(t.pk, rows, u.rows);
  }

  lemma ListedRows(pk: seq<string>, rows: seq<Row>, stored: map<PrimaryKey, Row>)
    requires DistinctKeys(pk, rows)
    requires forall i :: 0 <= i < |rows| ==> KeyOf(pk, rows[i]) in stored && stored[KeyOf(pk, rows[i])] == rows[i]
    requires forall k :: k in stored ==> exists i :: 0 <= i < |rows| && KeyOf(pk, rows[i]) == k
    ensures stored == ByKey(pk, rows)
  {
    forall k | k in stored ensures k in ByKey(pk, rows) && ByKey(pk, rows)[k] == stored[k] {
      var i :| 0 <= i < |rows| && KeyOf(pk, rows[i]) == k;
      ByKeyHas(pk, rows, i);
    }
    forall k | k in ByKey(pk, rows) ensures k in stored {
      var i := ByKeyFrom(pk, rows, k);
    }
  }
}
