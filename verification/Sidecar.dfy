/** sync/snapshot.go: the snapshot commit protocol, as a step relation over the object store, the
    in-memory `latest` map and the calls in flight. */
module Sidecar {
  import opened Options
  import opened Text
  import opened Manifests

  /** Where a `CaptureTable` call stands between two atomic actions. */
  datatype Stage =
    | Prepared                     // local Parquet file written and hashed
    | Uploaded                     // data object put
    | Checked                      // data object read back and its hash compared
    | Recorded(manifest: Manifest) // manifest object put
    | Cleaning(lost: bool)         // failed after the data put: about to delete the data object;
                                   // lost when the manifest was stored all the same

  /** A call holding its table's lock. */
  datatype Job =
    | Capture(table: string, id: string, bytes: Bytes, stage: Stage)
    | Recheck(table: string, manifest: Manifest)

  datatype State = State(
    store: Store, latest: map<string, Manifest>, jobs: map<nat, Job>, usedIds: set<string>)

  function Initial(): State {
    State(map[], map[], map[], {})
  }

  function DataKey(j: Job): Key
    requires j.Capture?
  {
    Key(SafeTableKey(j.table), j.id, DataLeaf)
  }

  function ManifestKey(j: Job): Key
    requires j.Capture?
  {
    Key(SafeTableKey(j.table), j.id, ManifestLeaf)
  }

  function NewManifest(j: Job, now: int, rows: nat): Manifest
    requires j.Capture?
  {
    Manifest(SidecarWriter, j.id, Some(now), j.table, rows, DataKey(j), ManifestKey(j),
             Sha256(j.bytes), "table", "valid", now)
  }

  /** One atomic action. `stored` in PutData is what the store ends up holding, which transport
      corruption may make different from what was sent. */
  datatype Step =
    | Begin(job: nat, table: string, id: string, bytes: Bytes)
    | Abandon(job: nat)
    | PutData(job: nat, stored: Bytes)
    | CheckData(job: nat)
    | CheckFails(job: nat)
    | PutManifest(job: nat, now: int, rows: nat)
    | PutManifestFails(job: nat)
    | Cleanup(job: nat, deleted: bool)
    | Publish(job: nat)
    | BeginRecheck(job: nat, table: string)
    | RecheckOk(job: nat, now: int)
    | RecheckFails(job: nat)
    | Crash
    | PutManifestLost(job: nat, now: int, rows: nat) // stored, but reported to the sidecar as failed

  predicate LockFree(s: State, table: string) {
    forall j :: j in s.jobs ==> s.jobs[j].table != table
  }

  predicate AtStage(s: State, j: nat, stage: Stage) {
    j in s.jobs && s.jobs[j].Capture? && s.jobs[j].stage == stage
  }

  predicate Enabled(s: State, step: Step) {
    match step
    case Begin(j, table, id, _) => j !in s.jobs && LockFree(s, table) && id !in s.usedIds && id != ""
    case Abandon(j) => AtStage(s, j, Prepared)
    case PutData(j, _) => AtStage(s, j, Prepared)
    case CheckData(j) => AtStage(s, j, Uploaded) && DataMatches(s.store, DataKey(s.jobs[j]), Sha256(s.jobs[j].bytes))
    case CheckFails(j) => AtStage(s, j, Uploaded)
    case PutManifest(j, _, _) => AtStage(s, j, Checked)
    case PutManifestFails(j) => AtStage(s, j, Checked)
    case PutManifestLost(j, _, _) => AtStage(s, j, Checked)
    case Cleanup(j, _) => j in s.jobs && s.jobs[j].Capture? && s.jobs[j].stage.Cleaning?
    case Publish(j) => j in s.jobs && s.jobs[j].Capture? && s.jobs[j].stage.Recorded?
    case BeginRecheck(j, table) => j !in s.jobs && LockFree(s, table) && table in s.latest
    case RecheckOk(j, _) =>
      j in s.jobs && s.jobs[j].Recheck? && DataMatches(s.store, s.jobs[j].manifest.dataKey, s.jobs[j].manifest.sha)
    case RecheckFails(j) => j in s.jobs && s.jobs[j].Recheck?
    case Crash => true
  }

  function Advance(s: State, j: nat, stage: Stage): State
    requires j in s.jobs && s.jobs[j].Capture?
  {
    s.(jobs := s.jobs[j := s.jobs[j].(stage := stage)])
  }

  function Finish(s: State, j: nat): State {
    s.(jobs := s.jobs - {j})
  }

  function Apply(s: State, step: Step): State
    requires Enabled(s, step)
  {
    match step
    case Begin(j, table, id, bytes) =>
      s.(jobs := s.jobs[j := Capture(table, id, bytes, Prepared)], usedIds := s.usedIds + {id})
    case Abandon(j) => Finish(s, j)
    case PutData(j, stored) => Advance(s, j, Uploaded).(store := s.store[DataKey(s.jobs[j]) := Data(stored)])
    case CheckData(j) => Advance(s, j, Checked)
    case CheckFails(j) => Advance(s, j, Cleaning(false))
    case PutManifest(j, now, rows) =>
      var m := NewManifest(s.jobs[j], now, rows);
      Advance(s, j, Recorded(m)).(store := s.store[m.manifestKey := ManifestObject(m)])
    case PutManifestFails(j) => Advance(s, j, Cleaning(false))
    case PutManifestLost(j, now, rows) =>
      var m := NewManifest(s.jobs[j], now, rows);
      Advance(s, j, Cleaning(true)).(store := s.store[m.manifestKey := ManifestObject(m)])
    case Cleanup(j, deleted) =>
      Finish(s, j).(store := if deleted then s.store - {DataKey(s.jobs[j])} else s.store)
    case Publish(j) => Finish(s, j).(latest := s.latest[s.jobs[j].table := s.jobs[j].stage.manifest])
    case BeginRecheck(j, table) => s.(jobs := s.jobs[j := Recheck(table, s.latest[table])])
    case RecheckOk(j, now) =>
      Finish(s, j).(latest := s.latest[s.jobs[j].table := s.jobs[j].manifest.(verifiedAt := now)])
    case RecheckFails(j) => Finish(s, j)
    case Crash => s.(jobs := map[], latest := map[])
  }

  /** The cleanup after a lost manifest put deletes the data object the stored manifest names. */
  predicate DeletesLost(s: State, step: Step)
    requires Enabled(s, step)
  {
    step.Cleanup? && step.deleted && s.jobs[step.job].stage.lost
  }

  // ---- the commit invariant ----------------------------------------------------------------

  /** `m` sits at its own key and the data object it names is present with the recorded hash. */
  ghost predicate Backed(store: Store, m: Manifest) {
    && ValidSidecar(m, m.table)
    && m.dataKey.Key? && m.dataKey.id == m.snapshotId && m.dataKey.leaf == DataLeaf
    && m.manifestKey == m.dataKey.(leaf := ManifestLeaf)
    && m.manifestKey in store && store[m.manifestKey].ManifestObject?
    && store[m.manifestKey].manifest.(verifiedAt := m.verifiedAt) == m
    && DataMatches(store, m.dataKey, m.sha)
  }

  /** Every stored manifest is backed by its data object. */
  ghost predicate StoreCommitted(store: Store) {
    forall k :: k in store && store[k].ManifestObject? ==>
      k == store[k].manifest.manifestKey && Backed(store, store[k].manifest)
  }

  /** The in-memory map only ever names committed manifests of the right table. */
  ghost predicate LatestCommitted(s: State) {
    forall t :: t in s.latest ==> s.latest[t].table == t && Backed(s.store, s.latest[t])
  }

  ghost predicate JobOk(s: State, j: Job) {
    match j
    case Recheck(table, m) => table in s.latest && s.latest[table] == m
    case Capture(table, id, bytes, stage) =>
      match stage
      case Recorded(m) => m.table == table && m.snapshotId == id && Backed(s.store, m)
      case Checked => ManifestKey(j) !in s.store && DataMatches(s.store, DataKey(j), Sha256(bytes))
      case Cleaning(true) =>
        ManifestKey(j) in s.store && s.store[ManifestKey(j)].ManifestObject?
        && s.store[ManifestKey(j)].manifest.dataKey == DataKey(j)
      case _ => ManifestKey(j) !in s.store
  }

  ghost predicate JobsOk(s: State) {
    forall j :: j in s.jobs ==> JobOk(s, s.jobs[j])
  }

  /** The table locks keep calls on one table apart, and snapshot identifiers are never reused. */
  ghost predicate Separate(s: State) {
    forall i, j :: i in s.jobs && j in s.jobs && i != j ==>
      && s.jobs[i].table != s.jobs[j].table
      && (s.jobs[i].Capture? && s.jobs[j].Capture? ==> s.jobs[i].id != s.jobs[j].id)
  }

  /** Every identifier in a call or a key has been handed out, and none is blank. */
  ghost predicate IdsUsed(s: State) {
    && "" !in s.usedIds
    && (forall j :: j in s.jobs && s.jobs[j].Capture? ==> s.jobs[j].id in s.usedIds)
    && (forall k :: k in s.store ==> k.Key? && k.id in s.usedIds)
  }

  ghost predicate Inv(s: State) {
    StoreCommitted(s.store) && LatestCommitted(s) && JobsOk(s) && Separate(s) && IdsUsed(s)
  }

  lemma InitialInv()
    ensures Inv(Initial())
  {
  }

  lemma TrimValid()
    ensures Trim("valid") == "valid"
  {
  }

  /** Objects a manifest does not touch may be added without disturbing it. */
  lemma PutKeepsBacked(store: Store, k: Key, o: Object, m: Manifest)
    requires Backed(store, m) && k != m.manifestKey && k != m.dataKey
    ensures Backed(store[k := o], m)
  {
  }

  /** Cleanup of one call never touches what another snapshot's manifest refers to. */
  lemma CleanupSparesManifests(s: State, j: nat, m: Manifest)
    requires Inv(s) && AtStage(s, j, Cleaning(false)) && Backed(s.store, m)
    ensures m.dataKey != DataKey(s.jobs[j])
    ensures Backed(s.store - {DataKey(s.jobs[j])}, m)
  {
    assert JobOk(s, s.jobs[j]);
    assert m.dataKey == DataKey(s.jobs[j]) ==> m.manifestKey == ManifestKey(s.jobs[j]);
  }

  /** No step ever takes away a committed snapshot. */
  lemma StepKeepsBacked(s: State, step: Step, m: Manifest)
    requires Inv(s) && Enabled(s, step) && !DeletesLost(s, step) && Backed(s.store, m)
    ensures Backed(Apply(s, step).store, m)
  {
    match step
    case PutData(j, stored) =>
      assert JobOk(s, s.jobs[j]);
      assert m.manifestKey != ManifestKey(s.jobs[j]);
      PutKeepsBacked(s.store, DataKey(s.jobs[j]), Data(stored), m);
    case PutManifest(j, now, rows) =>
      assert JobOk(s, s.jobs[j]);
      PutKeepsBacked(s.store, ManifestKey(s.jobs[j]), ManifestObject(NewManifest(s.jobs[j], now, rows)), m);
    case PutManifestLost(j, now, rows) =>
      assert JobOk(s, s.jobs[j]);
      PutKeepsBacked(s.store, ManifestKey(s.jobs[j]), ManifestObject(NewManifest(s.jobs[j], now, rows)), m);
    case Cleanup(j, deleted) =>
      if deleted { CleanupSparesManifests(s, j, m); }
    case _ =>
  }

  /** A manifest put commits the snapshot, reported or not: its data object was checked and is still there. */
  lemma PutManifestCommits(s: State, step: Step)
    requires Inv(s) && (step.PutManifest? || step.PutManifestLost?) && Enabled(s, step)
    ensures Backed(Apply(s, step).store, NewManifest(s.jobs[step.job], step.now, step.rows))
  {
    assert JobOk(s, s.jobs[step.job]);
    TrimValid();
  }

  lemma StepKeepsStore(s: State, step: Step)
    requires Inv(s) && Enabled(s, step) && !DeletesLost(s, step)
    ensures StoreCommitted(Apply(s, step).store)
  {
    var store' := Apply(s, step).store;
    forall k | k in store' && store'[k].ManifestObject?
      ensures k == store'[k].manifest.manifestKey && Backed(store', store'[k].manifest)
    {
      if k in s.store && s.store[k] == store'[k] {
        StepKeepsBacked(s, step, store'[k].manifest);
      } else {
        PutManifestCommits(s, step);
      }
    }
  }

  lemma StepKeepsLatest(s: State, step: Step)
    requires Inv(s) && Enabled(s, step) && !DeletesLost(s, step)
    ensures LatestCommitted(Apply(s, step))
  {
    var s' := Apply(s, step);
    forall t | t in s'.latest ensures s'.latest[t].table == t && Backed(s'.store, s'.latest[t]) {
      if t in s.latest && s.latest[t] == s'.latest[t] {
        StepKeepsBacked(s, step, s.latest[t]);
      } else {
        assert JobOk(s, s.jobs[step.job]);
      }
    }
  }

  /** The identifier of a call in flight keeps other calls' keys away from its own. */
  lemma StepKeepsUnrecorded(s: State, step: Step, i: nat)
    requires Separate(s) && Enabled(s, step)
    requires i in s.jobs && s.jobs[i].Capture? && !s.jobs[i].stage.Recorded? && JobOk(s, s.jobs[i])
    requires i in Apply(s, step).jobs && Apply(s, step).jobs[i] == s.jobs[i]
    ensures JobOk(Apply(s, step), s.jobs[i])
  {
    var store' := Apply(s, step).store;
    if step.PutData? || step.PutManifest? || step.PutManifestLost? || step.Cleanup? {
      assert i != step.job && s.jobs[i].id != s.jobs[step.job].id;
    } else {
      assert store' == s.store;
    }
  }

  /** The table lock keeps a published manifest fixed while it is re-verified. */
  lemma StepKeepsRecheck(s: State, step: Step, i: nat)
    requires Separate(s) && Enabled(s, step)
    requires i in s.jobs && s.jobs[i].Recheck? && JobOk(s, s.jobs[i])
    requires i in Apply(s, step).jobs && Apply(s, step).jobs[i] == s.jobs[i]
    ensures JobOk(Apply(s, step), s.jobs[i])
  {
    if step.Publish? || step.RecheckOk? {
      assert i != step.job && s.jobs[i].table != s.jobs[step.job].table;
    }
  }

  /** A call that a step starts or moves on. */
  lemma StepMovesJob(s: State, step: Step, i: nat)
    requires Inv(s) && Enabled(s, step)
    requires i in Apply(s, step).jobs && !(i in s.jobs && Apply(s, step).jobs[i] == s.jobs[i])
    ensures JobOk(Apply(s, step), Apply(s, step).jobs[i])
  {
    if step.PutManifest? || step.PutManifestLost? { PutManifestCommits(s, step); }
    if i in s.jobs { assert JobOk(s, s.jobs[i]); }
  }

  lemma StepKeepsJobs(s: State, step: Step)
    requires Inv(s) && Enabled(s, step) && !DeletesLost(s, step)
    ensures JobsOk(Apply(s, step))
  {
    var s' := Apply(s, step);
    forall i | i in s'.jobs ensures JobOk(s', s'.jobs[i]) {
      if !(i in s.jobs && s'.jobs[i] == s.jobs[i]) {
        StepMovesJob(s, step, i);
      } else if s.jobs[i].Recheck? {
        StepKeepsRecheck(s, step, i);
      } else if s.jobs[i].stage.Recorded? {
        StepKeepsBacked(s, step, s.jobs[i].stage.manifest);
      } else {
        StepKeepsUnrecorded(s, step, i);
      }
    }
  }

  lemma StepKeepsSeparate(s: State, step: Step)
    requires Separate(s) && IdsUsed(s) && Enabled(s, step)
    ensures Separate(Apply(s, step))
  {
    var s' := Apply(s, step);
    forall i, j | i in s'.jobs && j in s'.jobs && i != j
      ensures s'.jobs[i].table != s'.jobs[j].table
      ensures s'.jobs[i].Capture? && s'.jobs[j].Capture? ==> s'.jobs[i].id != s'.jobs[j].id
    {
    }
  }

  lemma StepKeepsIds(s: State, step: Step)
    requires IdsUsed(s) && Enabled(s, step)
    ensures IdsUsed(Apply(s, step))
  {
  }

  /** Every step keeps the commit invariant, except the one cleanup that deletes what a lost put refers to. */
  lemma StepInv(s: State, step: Step)
    requires Inv(s) && Enabled(s, step) && !DeletesLost(s, step)
    ensures Inv(Apply(s, step))
  {
    StepKeepsStore(s, step);
    StepKeepsLatest(s, step);
    StepKeepsJobs(s, step);
    StepKeepsSeparate(s, step);
    StepKeepsIds(s, step);
  }

  // ---- whole runs ------------------------------------------------------------------------------

  ghost predicate IsRun(states: seq<State>, steps: seq<Step>) {
    && |states| == |steps| + 1 && states[0] == Initial()
    && forall i :: 0 <= i < |steps| ==>
         Enabled(states[i], steps[i]) && states[i + 1] == Apply(states[i], steps[i])
  }

  /** Before moment `n`, no cleanup after a lost put deleted its data object. */
  ghost predicate NoLostDelete(states: seq<State>, steps: seq<Step>, n: nat)
    requires IsRun(states, steps) && n < |states|
  {
    forall i :: 0 <= i < n ==> !DeletesLost(states[i], steps[i])
  }

  /** After every step of every run, with crashes and lost puts anywhere and any interleaving of captures,
      every stored manifest is backed by its data object and every published one is a stored one. */
  lemma {:induction false} CommitInvariant(states: seq<State>, steps: seq<Step>, n: nat)
    requires IsRun(states, steps) && n < |states| && NoLostDelete(states, steps, n)
    ensures Inv(states[n])
  {
    if n == 0 {
      InitialInv();
    } else {
      CommitInvariant(states, steps, n - 1);
      StepInv(states[n - 1], steps[n - 1]);
    }
  }

  /** A snapshot committed at one moment of a run is still there at every later moment. */
  lemma {:induction false} CommittedForever(states: seq<State>, steps: seq<Step>, n: nat, later: nat, m: Manifest)
    requires IsRun(states, steps) && n <= later < |states| && NoLostDelete(states, steps, later)
    requires Backed(states[n].store, m)
    ensures Backed(states[later].store, m)
    decreases later
  {
    if n < later {
      CommittedForever(states, steps, n, later - 1, m);
      CommitInvariant(states, steps, later - 1);
      StepKeepsBacked(states[later - 1], steps[later - 1], m);
    }
  }

  // ---- the limit of the protocol ---------------------------------------------------------------

  /** A deletion after a lost put leaves a manifest without its data. */
  lemma LostDeleteBreaksCommit(s: State, step: Step)
    requires Inv(s) && Enabled(s, step) && DeletesLost(s, step)
    ensures !StoreCommitted(Apply(s, step).store)
  {
    var job := s.jobs[step.job];
    var store := Apply(s, step).store;
    assert JobOk(s, job);
    assert ManifestKey(job) in store && store[ManifestKey(job)].ManifestObject?;
    assert store[ManifestKey(job)].manifest.dataKey !in store;
  }

  /** The first deletion after a lost put, if there is one before `n`. */
  lemma {:induction false} FirstLostDelete(states: seq<State>, steps: seq<Step>, n: nat) returns (i: nat)
    requires IsRun(states, steps) && n < |states| && !NoLostDelete(states, steps, n)
    ensures i < n && DeletesLost(states[i], steps[i]) && NoLostDelete(states, steps, i)
  {
    i := n - 1;
    if !NoLostDelete(states, steps, n - 1) {
      i := FirstLostDelete(states, steps, n - 1);
    }
  }

  /** Over every run the store stays committed up to moment `n` exactly when no cleanup after a lost
      manifest put deleted its data object before, whatever other steps come between the two. */
  lemma CommittedIffNoLostDelete(states: seq<State>, steps: seq<Step>, n: nat)
    requires IsRun(states, steps) && n < |states|
    ensures NoLostDelete(states, steps, n) <==> forall k :: 0 <= k <= n ==> StoreCommitted(states[k].store)
  {
    if NoLostDelete(states, steps, n) {
      forall k | 0 <= k <= n ensures StoreCommitted(states[k].store) {
        CommitInvariant(states, steps, k);
      }
    } else {
      var i := FirstLostDelete(states, steps, n);
      CommitInvariant(states, steps, i);
      LostDeleteBreaksCommit(states[i], steps[i]);
      assert !StoreCommitted(states[i + 1].store);
    }
  }

  /** A lost put is always followed by such a cleanup if the sidecar goes on and the delete succeeds. */
  lemma LostPutMayBeDeleted(s: State, j: nat, now: int, rows: nat, deleted: bool)
    requires Inv(s) && AtStage(s, j, Checked)
    ensures var lost := Apply(s, PutManifestLost(j, now, rows));
            && Inv(lost) && Enabled(lost, Cleanup(j, deleted))
            && (StoreCommitted(Apply(lost, Cleanup(j, deleted)).store) <==> !deleted)
  {
    var lost := Apply(s, PutManifestLost(j, now, rows));
    StepInv(s, PutManifestLost(j, now, rows));
    if deleted { LostDeleteBreaksCommit(lost, Cleanup(j, deleted)); } else { StepInv(lost, Cleanup(j, deleted)); }
  }
}
