/** Skip-policy restores of one snapshot into one absent target, interleaved statement by statement under
    READ COMMITTED and the transaction-scoped advisory lock. */
module ConcurrentRestore {
  import opened Options
  import opened Tables
  import Restore

  /** The snapshot: its key columns and rows. */
  datatype Snapshot = Snapshot(pk: seq<string>, rows: seq<Row>)

  /** `mine` are the transaction's own uncommitted inserts, `made` whether it created the target. */
  datatype Restorer =
    | Waiting
    | Locked
    | Filling(made: bool, before: nat, done: nat, mine: map<PrimaryKey, Row>)
    | Returned(count: nat)
    | RolledBack

  datatype State = State(
    target: Option<map<PrimaryKey, Row>>, lock: Option<nat>, restorers: map<nat, Restorer>, commits: seq<nat>)

  /** One statement of restorer `i`; Abort is a failure anywhere, followed by ROLLBACK. */
  datatype Act = Acquire(i: nat) | CreateAndCount(i: nat) | InsertNext(i: nat) | Commit(i: nat) | Abort(i: nat)

  function Init(ids: set<nat>): State {
    State(None, None, map i | i in ids :: Waiting, [])
  }

  /** What a statement of this transaction reads now: what others have committed, and its own inserts. */
  function Visible(s: State, own: map<PrimaryKey, Row>): map<PrimaryKey, Row> {
    if s.target.Some? then s.target.value + own else own
  }

  predicate Enabled(c: Snapshot, s: State, a: Act) {
    && a.i in s.restorers
    && var p := s.restorers[a.i];
       match a
       case Acquire(_) => p.Waiting? && s.lock.None?
       case CreateAndCount(_) => p.Locked?
       case InsertNext(_) => p.Filling? && p.done < |c.rows|
       case Commit(_) => p.Filling? && p.done == |c.rows| && |Visible(s, p.mine)| == |c.rows|
       case Abort(_) => p.Waiting? || p.Locked? || p.Filling?
  }

  /** ON CONFLICT DO NOTHING */
  function Skipping(c: Snapshot, s: State, p: Restorer): Restorer
    requires p.Filling? && p.done < |c.rows|
  {
    var row := c.rows[p.done];
    var key := KeyOf(c.pk, row);
    if key in Visible(s, p.mine) then p.(done := p.done + 1)
    else p.(done := p.done + 1, mine := p.mine[key := row])
  }

  /** One skip insert of the sequential restore, on what the transaction sees. */
  lemma SkippingIsAnInsert(c: Snapshot, s: State, p: Restorer, schema: Row)
    requires p.Filling? && p.done < |c.rows|
    requires Storable(Table(schema, c.pk, map[]), c.rows[p.done])
    ensures Restore.InsertRow(Restore.Skip, Table(schema, c.pk, Visible(s, p.mine)), c.rows[p.done])
         == Some(Table(schema, c.pk, Visible(s, Skipping(c, s, p).mine)))
  {
    var row := c.rows[p.done];
    assert schema + row == row;
    if s.target.Some? {
      assert s.target.value + p.mine[KeyOf(c.pk, row) := row] == (s.target.value + p.mine)[KeyOf(c.pk, row) := row];
    }
  }

  function Gain(after: nat, before: nat): nat {
    if after >= before then after - before else 0
  }

  function Apply(c: Snapshot, s: State, a: Act): State
    requires Enabled(c, s, a)
  {
    var p := s.restorers[a.i];
    match a
    case Acquire(i) => s.(lock := Some(i), restorers := s.restorers[i := Locked])
    case CreateAndCount(i) =>
      s.(restorers := s.restorers[i := Filling(s.target.None?, |Visible(s, map[])|, 0, map[])])
    case InsertNext(i) => s.(restorers := s.restorers[i := Skipping(c, s, p)])
    case Commit(i) =>
      State(Some(Visible(s, p.mine)), None,
            s.restorers[i := Returned(Gain(|Visible(s, p.mine)|, p.before))], s.commits + [i])
    case Abort(i) =>
      s.(lock := if s.lock == Some(i) then None else s.lock, restorers := s.restorers[i := RolledBack])
  }

  /** The state after a schedule; an act that is not enabled (a wait on the lock, say) does nothing. */
  function After(c: Snapshot, ids: set<nat>, schedule: seq<Act>): State {
    if schedule == [] then Init(ids)
    else
      var s, a := After(c, ids, schedule[..|schedule| - 1]), schedule[|schedule| - 1];
      if Enabled(c, s, a) then Apply(c, s, a) else s
  }

  // ---- the invariant ---------------------------------------------------------------------------------

  predicate InTransaction(p: Restorer) {
    p.Locked? || p.Filling?
  }

  /** Only the lock holder is past the lock. */
  ghost predicate Exclusive(s: State) {
    && (s.lock.Some? ==> s.lock.value in s.restorers)
    && forall i :: i in s.restorers ==> (InTransaction(s.restorers[i]) <==> s.lock == Some(i))
  }

  /** A transaction fills an absent target with a prefix of the snapshot and adds nothing to a present one. */
  ghost predicate FillOk(c: Snapshot, target: Option<map<PrimaryKey, Row>>, p: Restorer) {
    p.Filling? ==>
      && p.done <= |c.rows| && p.made == target.None?
      && (target.None? ==> p.before == 0 && p.mine == ByKey(c.pk, c.rows[..p.done]))
      && (target.Some? ==> p.before == |target.value| && p.mine == map[])
  }

  ghost predicate TargetOk(c: Snapshot, s: State) {
    if s.commits == [] then s.target.None? else s.target == Some(ByKey(c.pk, c.rows))
  }

  /** The first to commit returned every row; each later one returned nothing. */
  ghost predicate CommitsOk(c: Snapshot, s: State) {
    && (forall j :: 0 <= j < |s.commits| ==>
          && s.commits[j] in s.restorers
          && s.restorers[s.commits[j]] == Returned(if j == 0 then |c.rows| else 0))
    && (forall i :: i in s.restorers && s.restorers[i].Returned? ==> i in s.commits)
    && (forall j, k :: 0 <= j < k < |s.commits| ==> s.commits[j] != s.commits[k])
  }

  ghost predicate Inv(c: Snapshot, s: State) {
    && Exclusive(s) && TargetOk(c, s) && CommitsOk(c, s)
    && forall i :: i in s.restorers ==> FillOk(c, s.target, s.restorers[i])
  }

  lemma InsertKeepsFill(c: Snapshot, s: State, p: Restorer)
    requires DistinctKeys(c.pk, c.rows) && TargetOk(c, s) && FillOk(c, s.target, p)
    requires p.Filling? && p.done < |c.rows|
    ensures FillOk(c, s.target, Skipping(c, s, p))
  {
    var part, row := c.rows[..p.done], c.rows[p.done];
    if s.target.Some? {
      ByKeyHas(c.pk, c.rows, p.done);
    } else {
      assert c.rows[..p.done + 1][..p.done] == part;
      if KeyOf(c.pk, row) in ByKey(c.pk, part) {
        var i := ByKeyFrom(c.pk, part, KeyOf(c.pk, row));
        assert false;
      }
    }
  }

  /** At the commit the transaction sees exactly the snapshot, whoever filled it. */
  lemma CommitSees(c: Snapshot, s: State, p: Restorer)
    requires DistinctKeys(c.pk, c.rows) && TargetOk(c, s) && FillOk(c, s.target, p)
    requires p.Filling? && p.done == |c.rows|
    ensures Visible(s, p.mine) == ByKey(c.pk, c.rows)
    ensures Gain(|Visible(s, p.mine)|, p.before) == if s.commits == [] then |c.rows| else 0
  {
    assert c.rows[..p.done] == c.rows;
    ByKeySize(c.pk, c.rows);
    assert ByKey(c.pk, c.rows) + map[] == ByKey(c.pk, c.rows);
  }

  /** Under the lock the row-count validation never fails: a transaction that has inserted every row can
      commit, whoever filled the target. */
  lemma ValidationNeverFails(c: Snapshot, s: State, i: nat)
    requires DistinctKeys(c.pk, c.rows) && Inv(c, s)
    requires i in s.restorers && s.restorers[i].Filling? && s.restorers[i].done == |c.rows|
    ensures Enabled(c, s, Commit(i))
  {
    CommitSees(c, s, s.restorers[i]);
    ByKeySize(c.pk, c.rows);
  }

  /** A step inside one transaction, which changes neither the target nor what was returned. */
  lemma LocalStep(c: Snapshot, s: State, i: nat, p: Restorer, lock: Option<nat>)
    requires Inv(c, s) && i in s.restorers && !s.restorers[i].Returned? && !p.Returned?
    requires FillOk(c, s.target, p) && (InTransaction(p) <==> lock == Some(i))
    requires lock == s.lock || (s.lock.None? && lock == Some(i)) || (s.lock == Some(i) && lock.None?)
    ensures Inv(c, s.(lock := lock, restorers := s.restorers[i := p]))
  {
    assert i !in s.commits;
  }

  lemma StepInv(c: Snapshot, s: State, a: Act)
    requires DistinctKeys(c.pk, c.rows) && Inv(c, s) && Enabled(c, s, a)
    ensures Inv(c, Apply(c, s, a))
  {
    var p, next := s.restorers[a.i], Apply(c, s, a);
    if a.Commit? {
      CommitSees(c, s, p);
      CommitStep(c, s, a.i);
    } else {
      assert c.rows[..0] == [];
      if a.InsertNext? { InsertKeepsFill(c, s, p); }
      LocalStep(c, s, a.i, next.restorers[a.i], next.lock);
    }
  }

  lemma CommitStep(c: Snapshot, s: State, i: nat)
    requires Inv(c, s) && i in s.restorers && s.restorers[i].Filling?
    ensures Inv(c, State(Some(ByKey(c.pk, c.rows)), None,
                         s.restorers[i := Returned(if s.commits == [] then |c.rows| else 0)], s.commits + [i]))
  {
    assert i !in s.commits;
  }

  /** In every schedule of any number of restores, if any commits then the target holds exactly the
      snapshot, one committed restore returned every row and all the others returned 0. */
  lemma {:induction false} ConcurrentRestores(c: Snapshot, ids: set<nat>, schedule: seq<Act>)
    requires DistinctKeys(c.pk, c.rows)
    ensures Inv(c, After(c, ids, schedule))
  {
    if schedule != [] {
      var s, a := After(c, ids, schedule[..|schedule| - 1]), schedule[|schedule| - 1];
      ConcurrentRestores(c, ids, schedule[..|schedule| - 1]);
      if Enabled(c, s, a) { StepInv(c, s, a); }
    }
  }

  lemma ExactlyOneRestores(c: Snapshot, ids: set<nat>, schedule: seq<Act>, any: nat) returns (winner: nat)
    requires DistinctKeys(c.pk, c.rows)
    requires var s := After(c, ids, schedule); any in s.restorers && s.restorers[any].Returned?
    ensures var s := After(c, ids, schedule);
            && s.target == Some(ByKey(c.pk, c.rows))
            && winner in s.restorers && s.restorers[winner] == Returned(|c.rows|)
            && forall i :: i in s.restorers && i != winner && s.restorers[i].Returned? ==>
                 s.restorers[i].count == 0
  {
    ConcurrentRestores(c, ids, schedule);
    winner := After(c, ids, schedule).commits[0];
  }

  // ---- and some restore can always commit --------------------------------------------------------------

  lemma OneMore(c: Snapshot, ids: set<nat>, schedule: seq<Act>, a: Act)
    requires Enabled(c, After(c, ids, schedule), a)
    ensures After(c, ids, schedule + [a]) == Apply(c, After(c, ids, schedule), a)
  {
    assert (schedule + [a])[..|schedule|] == schedule;
  }

  lemma {:induction false} FillAndCommit(c: Snapshot, ids: set<nat>, schedule: seq<Act>, i: nat)
    returns (longer: seq<Act>)
    requires DistinctKeys(c.pk, c.rows)
    requires var s := After(c, ids, schedule); i in s.restorers && s.restorers[i].Filling?
    ensures schedule <= longer
    ensures var s := After(c, ids, longer); i in s.restorers && s.restorers[i].Returned?
    decreases |c.rows| - After(c, ids, schedule).restorers[i].done
  {
    var s := After(c, ids, schedule);
    ConcurrentRestores(c, ids, schedule);
    assert FillOk(c, s.target, s.restorers[i]);
    if s.restorers[i].done < |c.rows| {
      OneMore(c, ids, schedule, InsertNext(i));
      longer := FillAndCommit(c, ids, schedule + [InsertNext(i)], i);
    } else {
      ValidationNeverFails(c, s, i);
      OneMore(c, ids, schedule, Commit(i));
      longer := schedule + [Commit(i)];
    }
  }

  /** From every moment of every schedule, a restore that is waiting for a free lock can go on to commit. */
  lemma WaitingCanCommit(c: Snapshot, ids: set<nat>, schedule: seq<Act>, i: nat) returns (longer: seq<Act>)
    requires DistinctKeys(c.pk, c.rows)
    requires var s := After(c, ids, schedule); i in s.restorers && s.restorers[i].Waiting? && s.lock.None?
    ensures schedule <= longer
    ensures var s := After(c, ids, longer); i in s.restorers && s.restorers[i].Returned?
  {
    OneMore(c, ids, schedule, Acquire(i));
    var locked := schedule + [Acquire(i)];
    OneMore(c, ids, locked, CreateAndCount(i));
    longer := FillAndCommit(c, ids, locked + [CreateAndCount(i)], i);
  }
}
