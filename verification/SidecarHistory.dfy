/** The sidecar's in-memory `latest` map as a function of what has happened. */
module SidecarHistory {
  import opened Options
  import opened Text
  import opened Manifests
  import opened Sidecar

  // ---- calls in flight ---------------------------------------------------------------------------------

  /** While a snapshot is re-verified under its table's lock, it stays the published one. */
  ghost predicate RechecksOk(s: State) {
    forall j :: j in s.jobs && s.jobs[j].Recheck? ==>
      s.jobs[j].table in s.latest && s.latest[s.jobs[j].table] == s.jobs[j].manifest
  }

  ghost predicate Orderly(s: State) {
    Separate(s) && IdsUsed(s) && RechecksOk(s)
  }

  lemma StepKeepsRechecks(s: State, step: Step)
    requires Separate(s) && RechecksOk(s) && Enabled(s, step)
    ensures RechecksOk(Apply(s, step))
  {
    var t := Apply(s, step);
    forall j | j in t.jobs && t.jobs[j].Recheck?
      ensures t.jobs[j].table in t.latest && t.latest[t.jobs[j].table] == t.jobs[j].manifest
    {
      if step.Publish? || step.RecheckOk? {
        assert j != step.job && s.jobs[j].table != s.jobs[step.job].table;
      }
    }
  }

  lemma {:induction false} RunIsOrderly(states: seq<State>, steps: seq<Step>, n: nat)
    requires IsRun(states, steps) && n < |states|
    ensures Orderly(states[n])
  {
    if n > 0 {
      RunIsOrderly(states, steps, n - 1);
      StepKeepsSeparate(states[n - 1], steps[n - 1]);
      StepKeepsIds(states[n - 1], steps[n - 1]);
      StepKeepsRechecks(states[n - 1], steps[n - 1]);
    }
  }

  /** The step ends call `j`, by a crash or because its number is used again. */
  predicate Breaks(step: Step, j: nat) {
    step.Crash? || ((step.Begin? || step.BeginRecheck?) && step.job == j)
  }

  ghost predicate SameCall(steps: seq<Step>, from: nat, to: nat, j: nat)
    requires to <= |steps|
  {
    forall k :: from < k < to ==> !Breaks(steps[k], j)
  }

  /** The manifest of the capture that these two steps began and recorded. */
  predicate Describes(m: Manifest, begin: Step, put: Step)
    requires begin.Begin? && put.PutManifest?
  {
    && m.table == begin.table && m.snapshotId == begin.id && m.sha == Sha256(begin.bytes)
    && m.timestamp == Some(put.now) && m.verifiedAt == put.now && m.rowCount == put.rows
    && m.writer == "sync-sidecar" && m.scope == "table" && m.status == "valid"
    && m.dataKey == Key(SafeTableKey(begin.table), begin.id, DataLeaf)
    && m.manifestKey == Key(SafeTableKey(begin.table), begin.id, ManifestLeaf)
  }

  /** A capture in flight that this step did not begin. */
  lemma CallStep(s: State, step: Step, j: nat)
    requires Enabled(s, step) && j in Apply(s, step).jobs && Apply(s, step).jobs[j].Capture?
    requires !(step.Begin? && step.job == j)
    ensures j in s.jobs && s.jobs[j].Capture? && !Breaks(step, j)
    ensures var was, now := s.jobs[j], Apply(s, step).jobs[j];
            && now.table == was.table && now.id == was.id && now.bytes == was.bytes
            && (now.stage.Recorded? && now != was ==>
                  && step.PutManifest? && step.job == j
                  && now.stage.manifest == NewManifest(was, step.now, step.rows))
  {
  }

  /** Every capture in flight was begun by a step of the run, and its manifest put by another. */
  lemma {:induction false} CallStory(states: seq<State>, steps: seq<Step>, n: nat, j: nat) returns (b: nat, p: nat)
    requires IsRun(states, steps) && n < |states| && j in states[n].jobs && states[n].jobs[j].Capture?
    ensures var job := states[n].jobs[j];
            && b < n && steps[b] == Begin(j, job.table, job.id, job.bytes) && SameCall(steps, b, n, j)
            && (job.stage.Recorded? ==>
                  && b < p < n && steps[p].PutManifest? && steps[p].job == j
                  && Describes(job.stage.manifest, steps[b], steps[p]))
  {
    var step := steps[n - 1];
    b, p := n - 1, n - 1;
    if !(step.Begin? && step.job == j) {
      CallStep(states[n - 1], step, j);
      b, p := CallStory(states, steps, n - 1, j);
      if states[n].jobs[j] != states[n - 1].jobs[j] { p := n - 1; }
    }
  }

  // ---- the published snapshots -------------------------------------------------------------------------

  ghost predicate PublishOf(states: seq<State>, steps: seq<Step>, k: int, t: string)
    requires IsRun(states, steps) && 0 <= k < |steps|
  {
    steps[k].Publish? && states[k].jobs[steps[k].job].table == t
  }

  ghost predicate RecheckOf(states: seq<State>, steps: seq<Step>, k: int, t: string)
    requires IsRun(states, steps) && 0 <= k < |steps|
  {
    steps[k].RecheckOk? && states[k].jobs[steps[k].job].table == t
  }

  ghost predicate NoCrash(steps: seq<Step>, from: int, to: int)
    requires 0 <= from && to <= |steps|
  {
    forall k :: from <= k < to ==> !steps[k].Crash?
  }

  /** The steps that began, recorded, published and last verified a snapshot. */
  datatype Origin = Origin(begun: nat, put: nat, published: nat, verified: nat)

  /** Snapshot `m` of `t`, as it stands at moment `n`, is the one of the last capture of `t` that was
      published, verified last when the data object was last found in place. */
  ghost predicate Story(states: seq<State>, steps: seq<Step>, n: nat, t: string, m: Manifest, o: Origin)
    requires IsRun(states, steps) && n < |states|
  {
    && o.begun < o.put < o.published < n && o.verified < n
    && steps[o.begun].Begin? && steps[o.put].PutManifest? && steps[o.published].Publish?
    && steps[o.begun].job == steps[o.put].job == steps[o.published].job
    && SameCall(steps, o.begun, o.published, steps[o.begun].job)
    && steps[o.begun].table == t && NoCrash(steps, o.begun, n)
    && (forall k :: o.published < k < n ==> !PublishOf(states, steps, k, t))
    && Describes(m.(verifiedAt := steps[o.put].now), steps[o.begun], steps[o.put])
    && (forall k :: o.published < k < n && o.verified < k ==> !RecheckOf(states, steps, k, t))
    && (if o.verified == o.put then m.verifiedAt == steps[o.put].now
        else && o.published < o.verified && RecheckOf(states, steps, o.verified, t)
             && m.verifiedAt == steps[o.verified].now && DataMatches(states[o.verified].store, m.dataKey, m.sha))
  }

  lemma PublishStory(states: seq<State>, steps: seq<Step>, n: nat, t: string) returns (o: Origin)
    requires IsRun(states, steps) && n < |steps| && PublishOf(states, steps, n, t)
    ensures t in states[n + 1].latest && Story(states, steps, n + 1, t, states[n + 1].latest[t], o)
  {
    var b, p := CallStory(states, steps, n, steps[n].job);
    o := Origin(b, p, n, p);
  }

  lemma RecheckStory(states: seq<State>, steps: seq<Step>, n: nat, t: string, o: Origin)
    requires IsRun(states, steps) && n < |steps| && RecheckOf(states, steps, n, t)
    requires t in states[n].latest && Story(states, steps, n, t, states[n].latest[t], o)
    ensures t in states[n + 1].latest
    ensures Story(states, steps, n + 1, t, states[n + 1].latest[t], o.(verified := n))
  {
    RunIsOrderly(states, steps, n);
    assert states[n].jobs[steps[n].job].manifest == states[n].latest[t];
  }

  lemma QuietStory(states: seq<State>, steps: seq<Step>, n: nat, t: string, m: Manifest, o: Origin)
    requires IsRun(states, steps) && n < |steps| && !steps[n].Crash?
    requires !PublishOf(states, steps, n, t) && !RecheckOf(states, steps, n, t)
    requires Story(states, steps, n, t, m, o)
    ensures Story(states, steps, n + 1, t, m, o)
  {
  }

  lemma {:induction false} LatestStory(states: seq<State>, steps: seq<Step>, n: nat, t: string) returns (o: Origin)
    requires IsRun(states, steps) && n < |states| && t in states[n].latest
    ensures Story(states, steps, n, t, states[n].latest[t], o)
  {
    var k := n - 1;
    if PublishOf(states, steps, k, t) {
      o := PublishStory(states, steps, k, t);
    } else {
      UnpublishedStep(states, steps, k, t);
      o := LatestStory(states, steps, k, t);
      if RecheckOf(states, steps, k, t) {
        RecheckStory(states, steps, k, t, o);
        o := o.(verified := k);
      } else {
        QuietStory(states, steps, k, t, states[k].latest[t], o);
      }
    }
  }

  /** A step that does not publish `t` cannot bring it into the map, and changes it by re-verification only. */
  lemma UnpublishedStep(states: seq<State>, steps: seq<Step>, k: nat, t: string)
    requires IsRun(states, steps) && k < |steps| && !PublishOf(states, steps, k, t) && t in states[k + 1].latest
    ensures t in states[k].latest && !steps[k].Crash?
    ensures !RecheckOf(states, steps, k, t) ==> states[k + 1].latest[t] == states[k].latest[t]
  {
    RunIsOrderly(states, steps, k);
  }

  lemma {:induction false} StaysPublished(states: seq<State>, steps: seq<Step>, i: nat, n: nat, t: string)
    requires IsRun(states, steps) && i < n < |states| && PublishOf(states, steps, i, t) && NoCrash(steps, i, n)
    ensures t in states[n].latest
    decreases n
  {
    if i + 1 < n { StaysPublished(states, steps, i, n - 1, t); }
  }

  /** Over every run, a table has a published snapshot exactly when a capture of it was published since the last
      crash, and then it is the snapshot of the last such capture, with its id, hash and timestamp, verified
      last at its last successful re-verification, or else when it was put. */
  lemma LatestIsTheLastPublished(states: seq<State>, steps: seq<Step>, n: nat, t: string)
    requires IsRun(states, steps) && n < |states|
    ensures t in states[n].latest
            <==> exists i :: 0 <= i < n && PublishOf(states, steps, i, t) && NoCrash(steps, i, n)
    ensures t in states[n].latest ==> exists o :: Story(states, steps, n, t, states[n].latest[t], o)
  {
    if t in states[n].latest {
      var o := LatestStory(states, steps, n, t);
      RunIsPublished(states, steps, n, t, states[n].latest[t], o);
    }
    if i :| 0 <= i < n && PublishOf(states, steps, i, t) && NoCrash(steps, i, n) {
      StaysPublished(states, steps, i, n, t);
    }
  }

  lemma RunIsPublished(states: seq<State>, steps: seq<Step>, n: nat, t: string, m: Manifest, o: Origin)
    requires IsRun(states, steps) && n < |states| && Story(states, steps, n, t, m, o)
    ensures PublishOf(states, steps, o.published, t) && NoCrash(steps, o.published, n)
  {
    var i := o.published;
    var b, p := CallStory(states, steps, i, steps[i].job);
    if b < o.begun {
      assert Breaks(steps[o.begun], steps[i].job);
    } else if o.begun < b {
      assert Breaks(steps[b], steps[i].job);
    }
  }

  // ---- what can always happen --------------------------------------------------------------------------

  /** Whatever else is in flight, a table that nobody works on can be captured, under any unused id: five steps
      later its new manifest is published, and stored with its data. */
  lemma CaptureCanSucceed(s: State, j: nat, table: string, id: string, bytes: Bytes, now: int, rows: nat)
    returns (t: State)
    requires j !in s.jobs && LockFree(s, table) && id !in s.usedIds && id != ""
    ensures var begun := Begin(j, table, id, bytes);
            && Enabled(s, begun)
            && var s1 := Apply(s, begun);
            && Enabled(s1, PutData(j, bytes))
            && var s2 := Apply(s1, PutData(j, bytes));
            && Enabled(s2, CheckData(j))
            && var s3 := Apply(s2, CheckData(j));
            && Enabled(s3, PutManifest(j, now, rows))
            && var s4 := Apply(s3, PutManifest(j, now, rows));
            Enabled(s4, Publish(j)) && t == Apply(s4, Publish(j))
    ensures table in t.latest && Describes(t.latest[table], Begin(j, table, id, bytes), PutManifest(j, now, rows))
    ensures t.latest == s.latest[table := t.latest[table]] && t.jobs == s.jobs
    ensures t.store == s.store[t.latest[table].dataKey := Data(bytes)]
                              [t.latest[table].manifestKey := ManifestObject(t.latest[table])]
  {
    var s1 := Apply(s, Begin(j, table, id, bytes));
    var s2 := Apply(s1, PutData(j, bytes));
    var s3 := Apply(s2, CheckData(j));
    var s4 := Apply(s3, PutManifest(j, now, rows));
    t := Apply(s4, Publish(j));
    assert t.jobs == s.jobs;
  }

  /** A published snapshot whose data is in place can be re-verified when nobody works on its table. */
  lemma RecheckCanSucceed(s: State, j: nat, table: string, now: int) returns (t: State)
    requires j !in s.jobs && LockFree(s, table) && table in s.latest
    requires DataMatches(s.store, s.latest[table].dataKey, s.latest[table].sha)
    ensures Enabled(s, BeginRecheck(j, table))
            && var s1 := Apply(s, BeginRecheck(j, table)); Enabled(s1, RecheckOk(j, now)) && t == Apply(s1, RecheckOk(j, now))
    ensures t == s.(latest := s.latest[table := s.latest[table].(verifiedAt := now)])
  {
    var s1 := Apply(s, BeginRecheck(j, table));
    t := Apply(s1, RecheckOk(j, now));
    assert t.jobs == s.jobs;
  }
}
