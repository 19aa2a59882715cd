/** Runs that must exist: the gateway lets through what it is meant to let through. */
module GatewayScenarios {
  import opened Options
  import opened Text
  import opened SqlAnalysis
  import opened Manifests
  import opened Gateway
  import opened GatewayInvariant
  import opened GatewayRuns
  import opened GatewayProgress
  import Policy
  import Verifier
  import Sidecar
  import Classification

  /** From every moment of every run, paused or not, a batch that changes nothing can be submitted and executed,
      when the pause does not block SAFE queries and the policy neither lists the operations nor sends SAFE to
      approval. */
  lemma ReadsRunThroughPause(c: Config, states: seq<State>, steps: seq<Step>, r: ReqId, stmts: seq<Stmt>, id: string)
    returns (longer: seq<State>, moves: seq<Step>)
    requires IsRun(c, states, steps) && r !in states[|steps|].reqs && !c.pauseBlocksSafe
    requires stmts != [] && forall s :: s in stmts ==> Classification.ReadOnly(s)
    requires !Policy.RequiresApproval(c.policy, Safe)
    requires forall s :: s in stmts ==> !ContainsFold(c.policy.blockOperations, AnalyzeStatement(s).operation)
    ensures IsRun(c, longer, moves) && states <= longer && steps <= moves
    ensures var end := longer[|moves|]; r in end.reqs && MExecuted in end.reqs[r].at && end.reqs[r].input == Input(Parsed(stmts), id, false)
  {
    Classification.ReadOnlyIsExecuted(c.policy, stmts);
    Classification.BatchSafeMeans(stmts);
    longer, moves := EveryAllowedQueryCanRun(c, states, steps, r, Input(Parsed(stmts), id, false));
  }

  /** With no pause, so can any batch the policy executes without approval. */
  lemma ExecuteRunsUnpaused(c: Config, states: seq<State>, steps: seq<Step>, r: ReqId, input: Input)
    returns (longer: seq<State>, moves: seq<Step>)
    requires IsRun(c, states, steps) && r !in states[|steps|].reqs && !input.parse.EmptyText?
    requires !states[|steps|].paused && NewRequest(c, input).decision.action == Policy.Execute
    ensures IsRun(c, longer, moves) && states <= longer && steps <= moves
    ensures var end := longer[|moves|]; r in end.reqs && MExecuted in end.reqs[r].at && end.reqs[r].input == input
  {
    longer, moves := EveryAllowedQueryCanRun(c, states, steps, r, input);
  }

  // ---- capture, submit, approve, execute -----------------------------------------------------------------

  /** The store after one capture on a fresh sidecar. */
  function OneSnapshot(m: Manifest, bytes: Bytes): Store {
    map[m.dataKey := Data(bytes), m.manifestKey := ManifestObject(m)]
  }

  function FirstManifest(table: string, id: string, bytes: Bytes, now: int): Manifest {
    Manifest("sync-sidecar", id, Some(now), table, 0, Key(SafeTableKey(table), id, DataLeaf),
             Key(SafeTableKey(table), id, ManifestLeaf), Sha256(bytes), "table", "valid", now)
  }

  lemma SidecarMoves(c: Config, s0: State, s: State, step: Sidecar.Step) returns (t: State)
    requires Can(c, s0, s, false) && Sidecar.Enabled(s.side, step) && !Sidecar.DeletesLost(s.side, step)
    ensures t == s.(side := Sidecar.Apply(s.side, step)) && Can(c, s0, t, false)
  {
    t := s.(side := Sidecar.Apply(s.side, step));
    assert Follows(c, s, SidecarStep(step), t);
    Take(c, s0, s, SidecarStep(step), t, false);
  }

  /** A fresh sidecar captures a table. */
  lemma CaptureFirst(c: Config, s: State, table: string, id: string, bytes: Bytes) returns (t: State)
    requires Can(c, s, s, false) && s.side == Sidecar.Initial() && id != ""
    ensures Can(c, s, t, false) && t == s.(side := t.side)
    ensures t.side.store == OneSnapshot(FirstManifest(table, id, bytes, s.clock), bytes)
    ensures t.side.latest == map[table := FirstManifest(table, id, bytes, s.clock)]
  {
    var m := FirstManifest(table, id, bytes, s.clock);
    t := SidecarMoves(c, s, s, Sidecar.Begin(0, table, id, bytes));
    t := SidecarMoves(c, s, t, Sidecar.PutData(0, bytes));
    assert t.side.store == map[m.dataKey := Data(bytes)];
    t := SidecarMoves(c, s, t, Sidecar.CheckData(0));
    t := SidecarMoves(c, s, t, Sidecar.PutManifest(0, s.clock, 0));
    assert t.side.store == OneSnapshot(m, bytes);
    t := SidecarMoves(c, s, t, Sidecar.Publish(0));
  }

  /** Its snapshot is what the gateway verifies. */
  lemma FirstIsVerified(table: string, id: string, bytes: Bytes, now: int)
    requires !Blank(id)
    ensures var m := FirstManifest(table, id, bytes, now);
            Verifier.VerifyLatest(OneSnapshot(m, bytes), [Verifier.Entry(m.manifestKey, Some(m))], table, id)
            == Verifier.Found(m)
  {
    var m := FirstManifest(table, id, bytes, now);
    var entries := [Verifier.Entry(m.manifestKey, Some(m))];
    Sidecar.TrimValid();
    assert Verifier.Written(entries[0], table) && Verifier.Sound(m);
    assert Verifier.IsLatest(entries, table, 0);
    Verifier.VerifyLatestMeans(OneSnapshot(m, bytes), entries, table, id, m);
  }

  lemma FirstIsVerifiable(c: Config, s: State, q: Request, id: string, bytes: Bytes)
    requires Policy.RecoveryTable(q.analysis).Some? && q.input.snapshotId == id && !Blank(id)
    requires s.side.store
          == OneSnapshot(FirstManifest(Policy.RecoveryTable(q.analysis).value, id, bytes, s.clock), bytes)
    ensures Verifiable(c, s, q)
  {
    var table := Policy.RecoveryTable(q.analysis).value;
    var m := FirstManifest(table, id, bytes, s.clock);
    var listing := [Verifier.Entry(m.manifestKey, Some(m))];
    FirstIsVerified(table, id, bytes, s.clock);
    assert Lists(s.side.store, listing) by { assert listing[0] == Verifier.Entry(m.manifestKey, Some(m)); }
    assert Allowed(c, s, q, Verify(listing));
  }

  /** There is a run from the start in which the sidecar captures a table, an agent submits DELETE without WHERE on
      it with that snapshot's id, an operator approves and the query is executed: for every table name without a
      comma, every snapshot id and contents, every clock and every guarded policy that does not block DELETE
      outright, whatever its age limit. */
  lemma CaptureThenDelete(c: Config, clock: int, rel: Relation, id: string, bytes: Bytes, r: ReqId)
    returns (states: seq<State>, steps: seq<Step>)
    requires Policy.Guarded(c.policy) && !ContainsFold(c.policy.blockOperations, "DELETE")
    requires !Blank(rel.table) && ',' !in rel.table && !Blank(id)
    ensures IsRun(c, states, steps) && states[0] == Initial(false, clock)
    ensures var end := states[|steps|];
            && r in end.reqs && MExecuted in end.reqs[r].at
            && end.reqs[r].input == Input(Parsed([Stmt.Delete(Some(rel), false)]), id, false)
  {
    var s := Initial(false, clock);
    var input := Input(Parsed([Stmt.Delete(Some(rel), false)]), id, false);
    InitialInv(c, false, clock);
    Start(c, s, false);
    var t := CaptureFirst(c, s, rel.table, id, bytes);
    Classification.WipeIsApproved(c.policy, rel);
    FirstIsVerifiable(c, t, NewRequest(c, input), id, bytes);
    var course :| Leads(c, s, course, t, false);
    assert IsRun(c, [s], []);
    states, steps := Continue(c, [s], [], course, t, false);
    states, steps := EveryAllowedQueryCanRun(c, states, steps, r, input);
  }

  /** In particular under the default policy, for `DELETE FROM users`. */
  lemma DefaultPolicyReleases(c: Config, clock: int, bytes: Bytes) returns (states: seq<State>, steps: seq<Step>)
    requires c.policy == Policy.DefaultPolicy
    ensures IsRun(c, states, steps) && states[0] == Initial(false, clock)
    ensures 0 in states[|steps|].reqs && MExecuted in states[|steps|].reqs[0].at
    ensures states[|steps|].reqs[0].input
         == Input(Parsed([Stmt.Delete(Some(Relation("", "users")), false)]), "snap_1", false)
  {
    Policy.DefaultPolicyIsGuarded();
    assert |"DELETE"| == 6 && |"DROP DATABASE"| == 13 && |"DROP SCHEMA"| == 11;
    assert !IsSpace("users"[0]) && !IsSpace("snap_1"[0]);
    states, steps := CaptureThenDelete(c, clock, Relation("", "users"), "snap_1", bytes, 0);
  }
}
