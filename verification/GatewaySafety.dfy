/** What the release protocol guarantees, for every run. */
module GatewaySafety {
  import opened Options
  import opened Text
  import opened SqlAnalysis
  import opened Audit
  import opened Gateway
  import opened GatewayInvariant
  import opened GatewaySteps
  import opened GatewayRuns
  import Approval
  import Classification
  import Policy
  import Sidecar

  /** Event `i` of the trace is the moment `k` of request `r`. */
  ghost predicate At(trace: seq<Event>, r: ReqId, k: Mark, i: int) {
    0 <= i < |trace| && trace[i].req == r && trace[i].mark == k
  }

  /** Moments of one request, each later than the ones before it. */
  datatype Path = Start | Then(before: Path, mark: Mark)

  /** The moments of `path` happened to request `r` in this order, all before position `end`. */
  ghost predicate InOrder(trace: seq<Event>, r: ReqId, path: Path, end: int) {
    path.Start? || exists p :: At(trace, r, path.mark, p) && p < end && InOrder(trace, r, path.before, p)
  }

  /** What must precede the wait for an operator. */
  function SetupPath(c: Config, q: Request): Path {
    var admitted := Then(Start, MAdmitted);
    var verified := if NeedsRecovery(c, q) then Then(admitted, MVerified) else admitted;
    Then(if c.hasMetadata then Then(verified, MRowWritten) else verified, MStored)
  }

  /** Everything that must precede the execution of an approve-action query. */
  function ReleasePath(c: Config, q: Request): Path {
    Then(Then(Then(Then(SetupPath(c, q), MAccepted), MConsumed), MCleared), MAudited)
  }

  /** The request carries all of `path`, each moment required to come before the next, the last
      before `end`. */
  ghost predicate Linked(q: Request, path: Path, end: Mark) {
    path.Start? || (path.mark in q.at && Before(path.mark, end) && Linked(q, path.before, path.mark))
  }

  lemma ExecutedHasMarks(c: Config, q: Request)
    requires ReqOk(c, q) && MExecuted in q.at
    ensures Live(q.phase) && Level(q.phase) >= 12 && q.decision.action != Policy.Block
    ensures MAdmitted in q.at && MAudited in q.at
    ensures q.decision.action == Policy.Approve ==>
              && MStored in q.at && MAccepted in q.at && MConsumed in q.at && MCleared in q.at
              && (NeedsRecovery(c, q) ==> MVerified in q.at && RecoveryChecked(c, q))
              && (c.hasMetadata ==> MRowWritten in q.at)
              && q.accepted != [] && q.accepted[0]
  {
    assert MayHave(q.phase, MExecuted);
    forall k | MinLevel(k) <= 12 && Applies(c, q, k) ensures k in q.at {
      assert MustHave(c, q, k);
    }
  }

  lemma SetupLinked(c: Config, q: Request)
    requires MAdmitted in q.at && MStored in q.at
    requires NeedsRecovery(c, q) ==> MVerified in q.at
    requires c.hasMetadata ==> MRowWritten in q.at
    ensures Linked(q, SetupPath(c, q), MAccepted)
  {
    var admitted := Then(Start, MAdmitted);
    var verified := if NeedsRecovery(c, q) then Then(admitted, MVerified) else admitted;
    assert Linked(q, verified, MRowWritten) && Linked(q, verified, MStored);
  }

  lemma ReleasePathLinked(c: Config, q: Request)
    requires MAdmitted in q.at && MStored in q.at && MAccepted in q.at && MConsumed in q.at
    requires MCleared in q.at && MAudited in q.at
    requires NeedsRecovery(c, q) ==> MVerified in q.at
    requires c.hasMetadata ==> MRowWritten in q.at
    ensures Linked(q, ReleasePath(c, q), MExecuted)
  {
    SetupLinked(c, q);
    var accepted := Then(SetupPath(c, q), MAccepted);
    assert Linked(q, accepted, MConsumed);
    assert Linked(q, Then(accepted, MConsumed), MCleared);
  }

  lemma {:induction false} LinkedIsInOrder(c: Config, trace: seq<Event>, r: ReqId, q: Request, path: Path, end: Mark)
    requires Stamped(c, trace, r, q) && Ordered(q) && end in q.at && Linked(q, path, end)
    ensures InOrder(trace, r, path, q.at[end])
  {
    if path.Then? {
      LinkedIsInOrder(c, trace, r, q, path.before, path.mark);
      assert At(trace, r, path.mark, q.at[path.mark]) && q.at[path.mark] < q.at[end];
    }
  }

  lemma ExecutionIsLast(c: Config, s: State, r: ReqId, e: nat)
    requires Inv(c, s) && At(s.trace, r, MExecuted, e)
    ensures r in s.reqs && MExecuted in s.reqs[r].at && s.reqs[r].at[MExecuted] == e
    ensures ReqOk(c, s.reqs[r]) && Stamped(c, s.trace, r, s.reqs[r]) && Ordered(s.reqs[r])
  {
    assert Indexed(s.reqs, s.trace, e);
  }

  lemma EventsOfRequest(c: Config, s: State, r: ReqId)
    requires Link(c, s.reqs, s.trace) && r in s.reqs
    ensures forall k, i :: At(s.trace, r, k, i) ==> k in s.reqs[r].at && s.reqs[r].at[k] == i
    ensures forall k, i :: At(s.trace, r, k, i) ==> EventOk(c, s.reqs[r], s.trace[i])
  {
    forall k, i | At(s.trace, r, k, i)
      ensures k in s.reqs[r].at && s.reqs[r].at[k] == i && EventOk(c, s.reqs[r], s.trace[i])
    {
      assert Indexed(s.reqs, s.trace, i) && Stamped(c, s.trace, r, s.reqs[r]);
    }
  }

  /** In every run, each execution of an approve-action query is preceded, for that same request and
      in this order, by the first pause check, successful recovery verification (when required), a
      durable pending row (when there is a metadata store), entry into the pending map, acceptance of
      a signal, its consumption, a pause check and an audit entry. The accepted signal was the first
      its channel ever took and was an approval, and at the pause check the gateway was not paused
      for that risk. */
  lemma ReleaseOrder(c: Config, states: seq<State>, steps: seq<Step>, n: nat, r: ReqId, e: nat)
    requires IsRun(c, states, steps) && n < |states| && At(states[n].trace, r, MExecuted, e)
    ensures r in states[n].reqs
    ensures var s, q := states[n], states[n].reqs[r];
            q.decision.action == Policy.Approve ==>
              && InOrder(s.trace, r, ReleasePath(c, q), e)
              && q.accepted != [] && q.accepted[0]
              && (forall i :: At(s.trace, r, MAccepted, i) ==> s.trace[i].flag)
              && (forall i :: At(s.trace, r, MCleared, i) && s.trace[i].paused ==>
                    q.analysis.risk == Safe && !c.pauseBlocksSafe)
  {
    RunInv(c, states, steps, n);
    ExecutionIsLast(c, states[n], r, e);
    if states[n].reqs[r].decision.action == Policy.Approve {
      ReleasedInOrder(c, states[n], r);
    }
  }

  lemma ReleasedInOrder(c: Config, s: State, r: ReqId)
    requires Link(c, s.reqs, s.trace) && r in s.reqs && MExecuted in s.reqs[r].at
    requires ReqOk(c, s.reqs[r]) && Stamped(c, s.trace, r, s.reqs[r]) && Ordered(s.reqs[r])
    requires s.reqs[r].decision.action == Policy.Approve
    ensures var q := s.reqs[r];
            && InOrder(s.trace, r, ReleasePath(c, q), q.at[MExecuted])
            && q.accepted != [] && q.accepted[0]
            && (forall i :: At(s.trace, r, MAccepted, i) ==> s.trace[i].flag)
            && (forall i :: At(s.trace, r, MCleared, i) ==> !Blocks(c, s.trace[i].paused, q.analysis.risk))
  {
    var q := s.reqs[r];
    ExecutedHasMarks(c, q);
    PathInOrder(c, s.trace, r, q);
    ReleaseEvents(c, s, r);
  }

  lemma ReleaseEvents(c: Config, s: State, r: ReqId)
    requires Link(c, s.reqs, s.trace) && r in s.reqs && s.reqs[r].accepted != [] && s.reqs[r].accepted[0]
    ensures forall i :: At(s.trace, r, MAccepted, i) ==> s.trace[i].flag
    ensures forall i :: At(s.trace, r, MCleared, i) ==> !Blocks(c, s.trace[i].paused, s.reqs[r].analysis.risk)
  {
    EventsOfRequest(c, s, r);
  }

  lemma PathInOrder(c: Config, trace: seq<Event>, r: ReqId, q: Request)
    requires MExecuted in q.at && ReqOk(c, q) && Stamped(c, trace, r, q) && Ordered(q)
    requires q.decision.action == Policy.Approve
    ensures InOrder(trace, r, ReleasePath(c, q), q.at[MExecuted])
  {
    ExecutedHasMarks(c, q);
    ReleasePathLinked(c, q);
    LinkedIsInOrder(c, trace, r, q, ReleasePath(c, q), MExecuted);
  }

  // ---- pause -------------------------------------------------------------------------------------

  /** The risks a pause stops. */
  predicate Stopped(c: Config, risk: Risk) {
    c.pauseBlocksSafe || risk != Safe
  }

  /** The request has passed the last pause check on its path. */
  predicate PastLastCheck(q: Request) {
    if q.decision.action == Policy.Approve then MCleared in q.at else MAdmitted in q.at
  }

  ghost predicate HeldBack(s: State, r: ReqId) {
    r in s.reqs ==> !PastLastCheck(s.reqs[r])
  }

  lemma CommitKeepsHeldBack(c: Config, s: State, r: ReqId, e: Effect, r': ReqId)
    requires r in s.reqs && HeldBack(s, r') && e.req.at == s.reqs[r].at && e.req.decision == s.reqs[r].decision
    requires r == r' && e.mark.Some? ==> e.mark.value != MAdmitted && e.mark.value != MCleared
    ensures HeldBack(Commit(s, r, e), r')
  {
  }

  /** While the gateway is paused, no action of a request whose risk it stops passes a pause check. */
  lemma PausedActPassesNothing(c: Config, q: Request, act: Act, env: Env, r: ReqId)
    requires Ready(c, q, act, env) && PathOk(c, q) && env.paused && Stopped(c, q.analysis.risk)
    ensures var e := Local(c, q, act, env);
            e.mark.Some? ==> e.mark.value != MAdmitted && e.mark.value != MCleared
  {
    StepEvent(c, q, act, env, r);
  }

  lemma PausedActHoldsBack(c: Config, s: State, r: ReqId, act: Act, r': ReqId)
    requires Sidecar.Inv(s.side) && r in s.reqs && Fits(s.reqs[r], act) && Allowed(c, s, s.reqs[r], act)
    requires s.paused && HeldBack(s, r') && (r == r' ==> PathOk(c, s.reqs[r]) && Stopped(c, s.reqs[r].analysis.risk))
    ensures HeldBack(Commit(s, r, Local(c, s.reqs[r], act, EnvOf(s, s.reqs[r], act))), r')
  {
    var q := s.reqs[r];
    var env := EnvOf(s, q, act);
    ActReady(c, s, r, act);
    StepSourced(c, q, act, env, 0);
    StepVisible(c, q, act, env);
    if r == r' { PausedActPassesNothing(c, q, act, env, r); }
    CommitKeepsHeldBack(c, s, r, Local(c, q, act, env), r');
  }

  lemma SignalHoldsBack(s: State, signal: Signal, r: ReqId)
    requires HeldBack(s, r) && signal.req in s.reqs
    ensures HeldBack(Deliver(s, signal), r)
  {
  }

  lemma PausedStepHoldsBack(c: Config, s: State, step: Step, r: ReqId)
    requires Sidecar.Inv(s.side) && Enabled(c, s, step) && s.paused && HeldBack(s, r)
    requires r in s.reqs ==> PathOk(c, s.reqs[r]) && Stopped(c, s.reqs[r].analysis.risk)
    ensures HeldBack(Apply(c, s, step), r)
  {
    match step
    case Own(r', act) => PausedActHoldsBack(c, s, r', act, r);
    case Send(op) => SignalHoldsBack(s, s.signals[op], r);
    case _ =>
  }

  lemma ActKeepsRisk(c: Config, s: State, r: ReqId, act: Act)
    requires Sidecar.Inv(s.side) && r in s.reqs && Fits(s.reqs[r], act) && Allowed(c, s, s.reqs[r], act)
    ensures var q := Local(c, s.reqs[r], act, EnvOf(s, s.reqs[r], act)).req;
            q.analysis == s.reqs[r].analysis && q.decision == s.reqs[r].decision
  {
    ActReady(c, s, r, act);
    StepSourced(c, s.reqs[r], act, EnvOf(s, s.reqs[r], act), 0);
  }

  lemma CommitKeepsRisk(s: State, r: ReqId, e: Effect, r': ReqId)
    requires r in s.reqs && r' in s.reqs && e.req.analysis == s.reqs[r].analysis && e.req.decision == s.reqs[r].decision
    ensures r' in Commit(s, r, e).reqs
    ensures Commit(s, r, e).reqs[r'].analysis == s.reqs[r'].analysis
    ensures Commit(s, r, e).reqs[r'].decision == s.reqs[r'].decision
  {
  }

  /** A request's analysis and policy decision never change once it has arrived. */
  lemma StepKeepsRisk(c: Config, s: State, step: Step, r: ReqId)
    requires Sidecar.Inv(s.side) && Enabled(c, s, step) && r in s.reqs
    ensures r in Apply(c, s, step).reqs
    ensures Apply(c, s, step).reqs[r].analysis == s.reqs[r].analysis
    ensures Apply(c, s, step).reqs[r].decision == s.reqs[r].decision
  {
    match step
    case Own(r', act) =>
      ActKeepsRisk(c, s, r', act);
      CommitKeepsRisk(s, r', Local(c, s.reqs[r'], act, EnvOf(s, s.reqs[r'], act)), r);
    case Send(op) =>
      var signal := s.signals[op];
      var q := s.reqs[signal.req];
      var q' := q.(slot := Some(signal.approve), accepted := q.accepted + [signal.approve]);
      CommitKeepsRisk(s, signal.req, Effect(q', if q.accepted == [] then Some(MAccepted) else None, signal.approve), r);
    case _ =>
  }

  lemma FollowKeepsRisk(c: Config, s: State, step: Step, next: State, r: ReqId)
    requires Inv(c, s) && Follows(c, s, step, next) && r in s.reqs
    ensures r in next.reqs && next.reqs[r].analysis == s.reqs[r].analysis && next.reqs[r].decision == s.reqs[r].decision
  {
    StepKeepsRisk(c, s, step, r);
  }

  /** One step of a paused gateway, seen from a request whose risk it stops. */
  lemma PausedNext(c: Config, s: State, step: Step, r: ReqId)
    requires Inv(c, s) && Enabled(c, s, step) && s.paused && HeldBack(s, r)
    requires r in Apply(c, s, step).reqs && Stopped(c, Apply(c, s, step).reqs[r].analysis.risk)
    ensures HeldBack(Apply(c, s, step), r)
  {
    if r in s.reqs {
      StepKeepsRisk(c, s, step, r);
      assert ReqOk(c, s.reqs[r]);
    }
    PausedStepHoldsBack(c, s, step, r);
  }

  /** What one step means for a request under a pause. */
  ghost predicate Quiet(c: Config, s: State, next: State, r: ReqId) {
    && (r in s.reqs ==> r in next.reqs && next.reqs[r].analysis == s.reqs[r].analysis)
    && (s.paused && HeldBack(s, r) && r in next.reqs && Stopped(c, next.reqs[r].analysis.risk) ==> HeldBack(next, r))
  }

  lemma StepIsQuiet(c: Config, s: State, step: Step, r: ReqId)
    requires Inv(c, s) && Enabled(c, s, step)
    ensures Quiet(c, s, Apply(c, s, step), r)
  {
    var next := Apply(c, s, step);
    if r in s.reqs { StepKeepsRisk(c, s, step, r); }
    if s.paused && HeldBack(s, r) && r in next.reqs && Stopped(c, next.reqs[r].analysis.risk) {
      PausedNext(c, s, step, r);
    }
  }

  ghost predicate QuietAt(c: Config, states: seq<State>, i: int, r: ReqId)
    requires 0 <= i < |states| - 1
  {
    Quiet(c, states[i], states[i + 1], r)
  }

  lemma RunIsQuiet(c: Config, states: seq<State>, steps: seq<Step>, r: ReqId)
    requires IsRun(c, states, steps)
    ensures forall i :: 0 <= i < |states| - 1 ==> QuietAt(c, states, i, r)
  {
    forall i | 0 <= i < |states| - 1 ensures QuietAt(c, states, i, r) {
      RunStep(c, states, steps, i);
      StepIsQuiet(c, states[i], steps[i], r);
    }
  }

  lemma {:induction false} PauseHoldsBack(c: Config, states: seq<State>, p: nat, n: nat, r: ReqId)
    requires p <= n < |states| && HeldBack(states[p], r)
    requires forall i :: 0 <= i < |states| - 1 ==> QuietAt(c, states, i, r)
    requires forall i :: p <= i < n ==> states[i].paused
    requires r in states[n].reqs && Stopped(c, states[n].reqs[r].analysis.risk)
    ensures HeldBack(states[n], r)
    decreases n
  {
    if p < n {
      assert QuietAt(c, states, n - 1, r);
      if r in states[n - 1].reqs { PauseHoldsBack(c, states, p, n - 1, r); }
    }
  }

  /** After a pause that is not lifted, the only queries that have been or can still be executed are those of
      requests that were past their last pause check when it began, and SAFE ones if the pause does not block
      those; under a policy that sends every non-SAFE risk to approval, that check is for every non-SAFE query
      the one after the approval. */
  lemma PauseStopsReleases(c: Config, states: seq<State>, steps: seq<Step>, p: nat, n: nat, r: ReqId)
    requires IsRun(c, states, steps) && p <= n < |states|
    requires forall i :: p <= i < n ==> states[i].paused
    requires r in states[n].reqs && MExecuted in states[n].reqs[r].at
    requires states[n].reqs[r].analysis.risk == Safe ==> c.pauseBlocksSafe
    ensures r in states[p].reqs && PastLastCheck(states[p].reqs[r])
    ensures states[n].reqs[r].analysis.risk != Safe
            && (forall risk :: risk != Safe ==> Policy.RequiresApproval(c.policy, risk)) ==>
              MCleared in states[p].reqs[r].at
  {
    RunInv(c, states, steps, n);
    RunInv(c, states, steps, p);
    ExecutedHasMarks(c, states[n].reqs[r]);
    if HeldBack(states[p], r) {
      RunIsQuiet(c, states, steps, r);
      PauseHoldsBack(c, states, p, n, r);
    }
    DecisionIsKept(c, states, steps, p, n, r);
  }

  /** Step `i` leaves the request's analysis and decision alone. */
  ghost predicate RiskKept(states: seq<State>, i: int, r: ReqId)
    requires 0 <= i < |states| - 1
  {
    r in states[i].reqs ==>
      && r in states[i + 1].reqs && states[i + 1].reqs[r].analysis == states[i].reqs[r].analysis
      && states[i + 1].reqs[r].decision == states[i].reqs[r].decision
  }

  lemma RiskKeptAt(c: Config, states: seq<State>, steps: seq<Step>, i: nat, r: ReqId)
    requires IsRun(c, states, steps) && i < |steps|
    ensures RiskKept(states, i, r)
  {
    if r in states[i].reqs {
      RunStep(c, states, steps, i);
      FollowKeepsRisk(c, states[i], steps[i], states[i + 1], r);
    }
  }

  lemma {:induction false} RiskKeptOnwards(states: seq<State>, p: nat, n: nat, r: ReqId)
    requires p <= n < |states| && r in states[p].reqs
    requires forall i :: 0 <= i < |states| - 1 ==> RiskKept(states, i, r)
    ensures r in states[n].reqs
    ensures states[n].reqs[r].analysis == states[p].reqs[r].analysis
    ensures states[n].reqs[r].decision == states[p].reqs[r].decision
    decreases n
  {
    if p < n {
      RiskKeptOnwards(states, p, n - 1, r);
      assert RiskKept(states, n - 1, r);
    }
  }

  lemma DecisionIsKept(c: Config, states: seq<State>, steps: seq<Step>, p: nat, n: nat, r: ReqId)
    requires IsRun(c, states, steps) && p <= n < |states| && r in states[p].reqs
    ensures r in states[n].reqs
    ensures states[n].reqs[r].analysis == states[p].reqs[r].analysis
    ensures states[n].reqs[r].decision == states[p].reqs[r].decision
  {
    forall i | 0 <= i < |states| - 1 ensures RiskKept(states, i, r) { RiskKeptAt(c, states, steps, i, r); }
    RiskKeptOnwards(states, p, n, r);
  }

  // ---- recovery ----------------------------------------------------------------------------------

  /** Whatever the policy and the text: when an approved query that requires recovery has been executed,
      the manifest verified for its recovery target, the one its caller named, and the matching data object
      are still in the store, and the verification came before the execution. */
  lemma ReleasedPointIsBacked(c: Config, states: seq<State>, steps: seq<Step>, n: nat, r: ReqId)
    requires IsRun(c, states, steps) && n < |states|
    requires r in states[n].reqs && MExecuted in states[n].reqs[r].at
    requires states[n].reqs[r].decision.action == Policy.Approve && NeedsRecovery(c, states[n].reqs[r])
    ensures var q := states[n].reqs[r];
            && q.recovery.Some?
            && Policy.RecoveryTable(q.analysis) == Some(q.recovery.value.table)
            && q.recovery.value.snapshotId == q.input.snapshotId
            && Sidecar.Backed(states[n].side.store, q.recovery.value)
            && MVerified in q.at && q.at[MVerified] < q.at[MExecuted]
  {
    RunInv(c, states, steps, n);
    ExecutedPointIsBacked(c, states[n], r);
  }

  lemma ExecutedPointIsBacked(c: Config, s: State, r: ReqId)
    requires r in s.reqs && ReqOk(c, s.reqs[r]) && Ordered(s.reqs[r]) && RecoveryOk(s.reqs, s.side.store)
    requires MExecuted in s.reqs[r].at && s.reqs[r].decision.action == Policy.Approve && NeedsRecovery(c, s.reqs[r])
    ensures var q := s.reqs[r];
            && RecoveryChecked(c, q) && Sidecar.Backed(s.side.store, q.recovery.value)
            && MVerified in q.at && q.at[MVerified] < q.at[MExecuted]
  {
    ExecutedHasMarks(c, s.reqs[r]);
    assert Before(MVerified, MExecuted);
  }

  /** Under a guarded policy with snapshot-before-critical on, whatever the impact estimate, a batch
      containing a CRITICAL statement has been executed only if one table name is the recoverable
      target of every CRITICAL statement in it, and a manifest for exactly that table was verified
      beforehand and is, with its matching data object, still in the store. */
  lemma ReleaseIsRecoverable(c: Config, states: seq<State>, steps: seq<Step>, n: nat, r: ReqId, stmts: seq<Stmt>)
    requires IsRun(c, states, steps) && n < |states|
    requires Policy.Guarded(c.policy) && c.snapshotBeforeCritical
    requires r in states[n].reqs && MExecuted in states[n].reqs[r].at
    requires states[n].reqs[r].input.parse == Parsed(stmts) && Policy.ContainsCritical(stmts)
    ensures var q := states[n].reqs[r];
            && q.recovery.Some?
            && Policy.CoveredBy(stmts, q.recovery.value.table)
            && q.recovery.value.snapshotId == q.input.snapshotId
            && Sidecar.Backed(states[n].side.store, q.recovery.value)
            && MVerified in q.at && q.at[MVerified] < q.at[MExecuted]
  {
    RunInv(c, states, steps, n);
    ExecutedIsCovered(c, states[n].reqs[r], stmts);
    ReleasedPointIsBacked(c, states, steps, n, r);
  }

  /** The same of the statements themselves: when a batch with a statement that can wipe tables has been executed,
      nothing in it goes beyond table snapshots, one table is the only one any of its statements wipes, and the
      verified manifest is for that table. */
  lemma WipeIsRecoverable(c: Config, states: seq<State>, steps: seq<Step>, n: nat, r: ReqId, stmts: seq<Stmt>, s: Stmt)
    requires IsRun(c, states, steps) && n < |states|
    requires Policy.Guarded(c.policy) && c.snapshotBeforeCritical
    requires r in states[n].reqs && MExecuted in states[n].reqs[r].at
    requires states[n].reqs[r].input.parse == Parsed(stmts) && s in stmts && Classification.Destroys(s)
    ensures var q := states[n].reqs[r];
            && q.recovery.Some?
            && Classification.OneTableWiped(stmts, q.recovery.value.table)
            && q.recovery.value.snapshotId == q.input.snapshotId
            && Sidecar.Backed(states[n].side.store, q.recovery.value)
            && MVerified in q.at && q.at[MVerified] < q.at[MExecuted]
  {
    Classification.CriticalMeans(s);
    ReleaseIsRecoverable(c, states, steps, n, r, stmts);
    Classification.CoveredMeans(stmts, states[n].reqs[r].recovery.value.table);
  }

  /** Text the parser rejects is never executed under such a policy. */
  lemma RejectedTextIsNeverReleased(c: Config, states: seq<State>, steps: seq<Step>, n: nat, r: ReqId)
    requires IsRun(c, states, steps) && n < |states|
    requires Policy.Guarded(c.policy) && c.snapshotBeforeCritical
    requires r in states[n].reqs && states[n].reqs[r].input.parse.Rejected?
    ensures MExecuted !in states[n].reqs[r].at
  {
    RunInv(c, states, steps, n);
    RejectedIsNotExecuted(c, states[n].reqs[r]);
  }

  lemma RejectedIsNotExecuted(c: Config, q: Request)
    requires ReqOk(c, q) && Policy.Guarded(c.policy) && c.snapshotBeforeCritical && q.input.parse.Rejected?
    ensures MExecuted !in q.at
  {
    if MExecuted in q.at { ExecutedHasMarks(c, q); }
  }

  lemma ExecutedIsCovered(c: Config, q: Request, stmts: seq<Stmt>)
    requires ReqOk(c, q) && MExecuted in q.at && Policy.Guarded(c.policy) && c.snapshotBeforeCritical
    requires q.input.parse == Parsed(stmts) && Policy.ContainsCritical(stmts)
    ensures q.recovery.Some? && Policy.CoveredBy(stmts, q.recovery.value.table)
    ensures q.decision.action == Policy.Approve && NeedsRecovery(c, q)
  {
    Policy.CriticalBatchNeedsRecovery(c.policy, stmts, q.input.impactCritical);
    ExecutedHasMarks(c, q);
    Policy.RecoveryTargetCoversBatch(stmts, q.input.impactCritical, q.recovery.value.table);
  }

  /** So DROP DATABASE, DROP SCHEMA and unclassified statements are never released. */
  lemma BeyondSnapshotsIsNeverReleased(
    c: Config, states: seq<State>, steps: seq<Step>, n: nat, r: ReqId, stmts: seq<Stmt>, s: Stmt)
    requires IsRun(c, states, steps) && n < |states|
    requires Policy.Guarded(c.policy) && c.snapshotBeforeCritical
    requires r in states[n].reqs && states[n].reqs[r].input.parse == Parsed(stmts)
    requires s in stmts && Policy.BeyondTableSnapshots(s)
    ensures MExecuted !in states[n].reqs[r].at
  {
    Policy.BeyondIsUnrecoverable(s);
    if MExecuted in states[n].reqs[r].at {
      ReleaseIsRecoverable(c, states, steps, n, r, stmts);
    }
  }

  /** With a positive age limit, the recovery point of every request that entered its wait is at most that
      limit, plus the delay between its check and the start of the wait, plus the approval timeout old: at
      any moment of the wait, and when the approval returned, whatever happened to the request since. */
  lemma RecoveryPointAge(c: Config, states: seq<State>, steps: seq<Step>, n: nat, r: ReqId)
    requires IsRun(c, states, steps) && n < |states| && c.policy.maxSnapshotAge > 0
    requires r in states[n].reqs && MStored in states[n].reqs[r].at && NeedsRecovery(c, states[n].reqs[r])
    ensures var s, q := states[n], states[n].reqs[r];
            && q.recovery.Some? && q.recovery.value.timestamp.Some?
            && q.checkedAt <= q.waitFrom <= s.clock
            && var limit := c.policy.maxSnapshotAge + (q.waitFrom - q.checkedAt) + c.timeout;
               && (q.phase == Waiting ==> s.clock - q.recovery.value.timestamp.value <= limit)
               && (MConsumed in q.at ==> q.waitFrom <= q.returnedAt
                                         && q.returnedAt - q.recovery.value.timestamp.value <= limit)
  {
    RunInv(c, states, steps, n);
    AgeAtReturn(c, states[n], r);
  }

  lemma AgeAtReturn(c: Config, s: State, r: ReqId)
    requires r in s.reqs && MStored in s.reqs[r].at && NeedsRecovery(c, s.reqs[r]) && c.policy.maxSnapshotAge > 0
    requires Timed(c, s.reqs[r], s.clock) && TimersOk(c, s.reqs, s.clock)
    ensures var q := s.reqs[r];
            && q.recovery.Some? && q.recovery.value.timestamp.Some?
            && q.checkedAt <= q.waitFrom <= s.clock
            && var limit := c.policy.maxSnapshotAge + (q.waitFrom - q.checkedAt) + c.timeout;
               && (q.phase == Waiting ==> s.clock - q.recovery.value.timestamp.value <= limit)
               && (MConsumed in q.at ==> q.waitFrom <= q.returnedAt
                                         && q.returnedAt - q.recovery.value.timestamp.value <= limit)
  {
  }

  // ---- refusals --------------------------------------------------------------------------------------

  lemma RefusedNeverRuns(c: Config, states: seq<State>, steps: seq<Step>, p: nat, n: nat, r: ReqId)
    requires IsRun(c, states, steps) && p <= n < |states| && r in states[p].reqs && !Live(states[p].reqs[r].phase)
    ensures r in states[n].reqs && MExecuted !in states[n].reqs[r].at
  {
    OutcomeNeverChanges(c, states, steps, p, n, r);
    RunInv(c, states, steps, n);
    RefusedHasNotRun(c, states[n].reqs[r]);
  }

  lemma RefusedHasNotRun(c: Config, q: Request)
    requires MarksOk(c, q) && !Live(q.phase)
    ensures MExecuted !in q.at
  {
    assert MExecuted in q.at ==> MayHave(q.phase, MExecuted);
  }

  /** Over every run, a request found to come from a quarantined agent is never executed. */
  lemma QuarantinedNeverRuns(c: Config, states: seq<State>, steps: seq<Step>, i: nat, n: nat, r: ReqId)
    requires IsRun(c, states, steps) && i < n < |states| && steps[i] == Own(r, CheckQuarantine(true))
    ensures r in states[n].reqs && MExecuted !in states[n].reqs[r].at
  {
    RunStep(c, states, steps, i);
    QuarantineRefuses(c, states[i], r);
    RefusedNeverRuns(c, states, steps, i + 1, n, r);
  }

  lemma QuarantineRefuses(c: Config, s: State, r: ReqId)
    requires Enabled(c, s, Own(r, CheckQuarantine(true)))
    ensures var t := Apply(c, s, Own(r, CheckQuarantine(true))); r in t.reqs && !Live(t.reqs[r].phase)
  {
    var act := CheckQuarantine(true);
    CommitRecord(s, r, Local(c, s.reqs[r], act, EnvOf(s, s.reqs[r], act)));
  }

  /** Over every run, under every policy, no query whose operation is on the block list is executed. */
  lemma ListedNeverRuns(c: Config, states: seq<State>, steps: seq<Step>, n: nat, r: ReqId, i: nat)
    requires IsRun(c, states, steps) && n < |states| && r in states[n].reqs
    requires i < |c.policy.blockOperations| && EqualFold(c.policy.blockOperations[i], states[n].reqs[r].analysis.operation)
    ensures MExecuted !in states[n].reqs[r].at
  {
    RunInv(c, states, steps, n);
    ListedIsNotExecuted(c, states[n].reqs[r], i);
  }

  lemma ListedIsNotExecuted(c: Config, q: Request, i: nat)
    requires ReqOk(c, q)
    requires i < |c.policy.blockOperations| && EqualFold(c.policy.blockOperations[i], q.analysis.operation)
    ensures MExecuted !in q.at
  {
    Classification.ListedIsBlocked(c.policy, q.analysis, i);
    if MExecuted in q.at { ExecutedHasMarks(c, q); }
  }

  /** The check after the approval: a request goes on only if what it was approved for is what it asks now. */
  lemma MismatchIsRefused(c: Config, q: Request, env: Env)
    requires q.phase.Returned? && q.binding != Some(Binding(q.input.parse, q.analysis.table, q.analysis.risk))
    ensures Local(c, q, Resume, env).req.phase == Refused
  {
  }

  /** A wait times out neither before nor after its time. */
  lemma ExpiresOnTime(c: Config, states: seq<State>, steps: seq<Step>, i: nat, r: ReqId)
    requires IsRun(c, states, steps) && i < |steps| && steps[i] == Own(r, Expire)
    ensures r in states[i].reqs && states[i].clock == states[i].reqs[r].waitFrom + c.timeout
  {
    FollowsAt(c, states, steps, i);
    TimersAt(c, states, steps, i);
  }

  lemma TimersAt(c: Config, states: seq<State>, steps: seq<Step>, i: nat)
    requires IsRun(c, states, steps) && i < |states|
    ensures TimersOk(c, states[i].reqs, states[i].clock)
  {
    RunInv(c, states, steps, i);
  }

  // ---- conservation --------------------------------------------------------------------------------

  ghost predicate ExactlyOne(trace: seq<Event>, r: ReqId, k: Mark, flag: bool) {
    exists i :: At(trace, r, k, i) && (k == MAudited ==> trace[i].flag == flag) && forall j :: At(trace, r, k, j) ==> j == i
  }

  /** Every completed request has left exactly one audit entry and one counter increment; the entry
      is marked approved exactly when executeSQL was called, and was written before the call. The
      in-memory log is the last 10000 entries of the whole history, and the counter its length. */
  lemma Conservation(c: Config, states: seq<State>, steps: seq<Step>, n: nat, r: ReqId)
    requires IsRun(c, states, steps) && n < |states|
    requires r in states[n].reqs && (states[n].reqs[r].phase == Finished || states[n].reqs[r].phase == RefusalFinished)
    ensures var s := states[n]; var executed := MExecuted in s.reqs[r].at;
            && ExactlyOne(s.trace, r, MAudited, executed)
            && ExactlyOne(s.trace, r, MCounted, executed)
            && (executed <==> exists i :: At(s.trace, r, MExecuted, i))
            && (forall i, j :: At(s.trace, r, MAudited, i) && At(s.trace, r, MExecuted, j) ==> i < j)
    ensures states[n].log == Trimmed(AuditOf(states[n].trace)) && states[n].queries == CountsOf(states[n].trace)
  {
    RunInv(c, states, steps, n);
    CompletedRequest(c, states[n], r);
  }

  lemma CompletedRequest(c: Config, s: State, r: ReqId)
    requires r in s.reqs && (s.reqs[r].phase == Finished || s.reqs[r].phase == RefusalFinished)
    requires ReqOk(c, s.reqs[r]) && Link(c, s.reqs, s.trace)
    ensures var executed := MExecuted in s.reqs[r].at;
            && ExactlyOne(s.trace, r, MAudited, executed)
            && ExactlyOne(s.trace, r, MCounted, executed)
            && (executed <==> exists i :: At(s.trace, r, MExecuted, i))
            && (forall i, j :: At(s.trace, r, MAudited, i) && At(s.trace, r, MExecuted, j) ==> i < j)
  {
    var q := s.reqs[r];
    CompletedMarks(c, q);
    EventsOfRequest(c, s, r);
    assert Stamped(c, s.trace, r, q) && Ordered(q);
    assert At(s.trace, r, MAudited, q.at[MAudited]) && At(s.trace, r, MCounted, q.at[MCounted]);
    assert MExecuted in q.at ==> At(s.trace, r, MExecuted, q.at[MExecuted]);
    assert Before(MAudited, MExecuted);
  }

  lemma CompletedMarks(c: Config, q: Request)
    requires MarksOk(c, q) && (q.phase == Finished || q.phase == RefusalFinished)
    ensures MAudited in q.at && MCounted in q.at && (MExecuted in q.at <==> Live(q.phase))
  {
    assert MustHave(c, q, MAudited) && MustHave(c, q, MCounted);
    assert q.phase == Finished ==> MustHave(c, q, MExecuted);
    assert MExecuted in q.at ==> MayHave(q.phase, MExecuted);
  }

  // ---- the approval engine -----------------------------------------------------------------------

  /** At every moment of every run the pending map is exactly the set of requests between store and
      delete, what a request received is the first value its channel ever accepted, no signal blocks,
      an approve-action request gets past its wait only when approved, so the late refusal of an
      unapproved request cannot happen, and each request has returned from its wait at most once. */
  lemma ApprovalEngineLinearizes(c: Config, states: seq<State>, steps: seq<Step>, n: nat)
    requires IsRun(c, states, steps) && n < |states|
    ensures var s := states[n];
            && (forall r :: r in s.pending <==> r in s.reqs && Enlisted(s.reqs[r].phase))
            && (forall r :: r in s.reqs ==> Resolved(s.reqs[r]))
            && (forall op :: op in s.signals ==> Enabled(c, s, Send(op)))
    ensures forall i, j, r :: 0 <= i < j < n && steps[i] == Own(r, Unenroll) ==> steps[j] != Own(r, Unenroll)
  {
    RunInv(c, states, steps, n);
    PendingIsExact(states[n].reqs, states[n].pending);
    AllResolved(c, states[n].reqs);
    NoSignalBlocks(c, states[n]);
    forall i, j, r | 0 <= i < j < n && steps[i] == Own(r, Unenroll) ensures steps[j] != Own(r, Unenroll) {
      ReturnsOnce(c, states, steps, i, j, r);
    }
  }

  /** The select of the request's wait has fired. */
  predicate PastWait(q: Request) {
    MStored in q.at && q.phase != Waiting
  }

  /** `RequestApproval` has returned to the caller. */
  predicate HasReturned(q: Request) {
    MStored in q.at && !Enlisted(q.phase)
  }

  /** What time never changes about a request's channel and wait. */
  ghost predicate OutcomeKept(q: Request, later: Request) {
    && (q.accepted != [] ==> later.accepted != [] && later.accepted[0] == q.accepted[0])
    && (q.resolution.Some? ==> later.resolution == q.resolution)
    && (PastWait(q) ==> PastWait(later) && later.resolution == q.resolution && later.returnedAt == q.returnedAt)
    && (HasReturned(q) ==> HasReturned(later))
    && (!Live(q.phase) ==> !Live(later.phase))
  }

  lemma EarlyKeepsOutcome(c: Config, q: Request, act: Act, env: Env, n: nat)
    requires EarlyAct(act) && Ready(c, q, act, env) && (MStored in q.at ==> MayHave(q.phase, MStored))
    ensures OutcomeKept(q, After(Local(c, q, act, env), n))
  {
  }

  lemma MiddleKeepsOutcome(c: Config, q: Request, act: Act, env: Env, n: nat)
    requires MiddleAct(act) && Ready(c, q, act, env) && (MStored in q.at ==> MayHave(q.phase, MStored))
    requires q.phase == Waiting ==> q.resolution.None?
    ensures OutcomeKept(q, After(Local(c, q, act, env), n))
  {
  }

  lemma LateKeepsOutcome(c: Config, q: Request, act: Act, env: Env, n: nat)
    requires !EarlyAct(act) && !MiddleAct(act) && Ready(c, q, act, env)
    ensures OutcomeKept(q, After(Local(c, q, act, env), n))
  {
  }

  lemma ActKeepsOutcome(c: Config, q: Request, act: Act, env: Env, n: nat)
    requires Ready(c, q, act, env) && MarksOk(c, q) && ChannelOk(q)
    ensures OutcomeKept(q, After(Local(c, q, act, env), n))
  {
    if EarlyAct(act) {
      EarlyKeepsOutcome(c, q, act, env, n);
    } else if MiddleAct(act) {
      MiddleKeepsOutcome(c, q, act, env, n);
    } else {
      LateKeepsOutcome(c, q, act, env, n);
    }
  }

  lemma SignalKeepsOutcome(q: Request, approve: bool, n: nat)
    requires ChannelOk(q)
    ensures OutcomeKept(q, After(Accepts(q, approve), n))
  {
  }

  lemma OwnKeepsOutcome(c: Config, s: State, r': ReqId, act: Act, r: ReqId)
    requires Sidecar.Inv(s.side) && r in s.reqs && MarksOk(c, s.reqs[r]) && ChannelOk(s.reqs[r])
    requires r' in s.reqs && Fits(s.reqs[r'], act) && Allowed(c, s, s.reqs[r'], act)
    ensures var e := Local(c, s.reqs[r'], act, EnvOf(s, s.reqs[r'], act));
            r in Commit(s, r', e).reqs && OutcomeKept(s.reqs[r], Commit(s, r', e).reqs[r])
  {
    var env := EnvOf(s, s.reqs[r'], act);
    ActReady(c, s, r', act);
    CommitRecord(s, r', Local(c, s.reqs[r'], act, env));
    if r' == r { ActKeepsOutcome(c, s.reqs[r], act, env, |s.trace|); }
  }

  lemma DeliverKeepsOutcome(s: State, signal: Signal, r: ReqId)
    requires signal.req in s.reqs && r in s.reqs && ChannelOk(s.reqs[r])
    ensures r in Deliver(s, signal).reqs && OutcomeKept(s.reqs[r], Deliver(s, signal).reqs[r])
  {
    var q := s.reqs[signal.req];
    if q.slot.None? {
      CommitRecord(s, signal.req, Accepts(q, signal.approve));
      if signal.req == r { SignalKeepsOutcome(q, signal.approve, |s.trace|); }
    }
  }

  lemma StepKeepsOutcome(c: Config, s: State, step: Step, r: ReqId)
    requires Inv(c, s) && Enabled(c, s, step) && r in s.reqs
    ensures r in Apply(c, s, step).reqs && OutcomeKept(s.reqs[r], Apply(c, s, step).reqs[r])
  {
    assert ReqOk(c, s.reqs[r]);
    match step
    case Own(r', act) => OwnKeepsOutcome(c, s, r', act, r);
    case Send(op) => DeliverKeepsOutcome(s, s.signals[op], r);
    case _ =>
  }

  ghost predicate KeptAt(states: seq<State>, i: int, r: ReqId)
    requires 0 <= i < |states| - 1
  {
    r in states[i].reqs ==> r in states[i + 1].reqs && OutcomeKept(states[i].reqs[r], states[i + 1].reqs[r])
  }

  lemma OutcomeKeptAt(c: Config, states: seq<State>, steps: seq<Step>, i: nat, r: ReqId)
    requires IsRun(c, states, steps) && i < |steps|
    ensures KeptAt(states, i, r)
  {
    if r in states[i].reqs {
      RunStep(c, states, steps, i);
      StepKeepsOutcome(c, states[i], steps[i], r);
    }
  }

  lemma {:induction false} KeptOnwards(states: seq<State>, p: nat, n: nat, r: ReqId)
    requires p <= n < |states| && r in states[p].reqs
    requires forall i :: 0 <= i < |states| - 1 ==> KeptAt(states, i, r)
    ensures r in states[n].reqs && OutcomeKept(states[p].reqs[r], states[n].reqs[r])
    decreases n
  {
    if p < n {
      KeptOnwards(states, p, n - 1, r);
      assert KeptAt(states, n - 1, r);
    }
  }

  /** Over every run, the first value a channel accepted stays its first, a resolution once received is
      never replaced, and once the wait has ended nothing, no signal in particular, changes its outcome or
      puts the request back among the pending. */
  lemma OutcomeNeverChanges(c: Config, states: seq<State>, steps: seq<Step>, p: nat, n: nat, r: ReqId)
    requires IsRun(c, states, steps) && p <= n < |states| && r in states[p].reqs
    ensures r in states[n].reqs && OutcomeKept(states[p].reqs[r], states[n].reqs[r])
  {
    forall i | 0 <= i < |states| - 1 ensures KeptAt(states, i, r) {
      OutcomeKeptAt(c, states, steps, i, r);
    }
    KeptOnwards(states, p, n, r);
  }

  /** Each request returns from `RequestApproval` at most once. */
  lemma ReturnsOnce(c: Config, states: seq<State>, steps: seq<Step>, i: nat, j: nat, r: ReqId)
    requires IsRun(c, states, steps) && i < j < |steps| && steps[i] == Own(r, Unenroll)
    ensures steps[j] != Own(r, Unenroll)
  {
    RunStep(c, states, steps, i);
    UnenrollReturns(c, states[i], r);
    OutcomeNeverChanges(c, states, steps, i + 1, j, r);
    RunStep(c, states, steps, j);
  }

  lemma UnenrollReturns(c: Config, s: State, r: ReqId)
    requires r in s.reqs && ReqOk(c, s.reqs[r]) && Enabled(c, s, Own(r, Unenroll))
    ensures r in Apply(c, s, Own(r, Unenroll)).reqs && HasReturned(Apply(c, s, Own(r, Unenroll)).reqs[r])
  {
    EnlistedIsStored(c, s.reqs[r]);
    CommitRecord(s, r, Local(c, s.reqs[r], Unenroll, EnvOf(s, s.reqs[r], Unenroll)));
  }

  lemma NoSignalBlocks(c: Config, s: State)
    requires SignalsOk(s.reqs, s.signals)
    ensures forall op :: op in s.signals ==> Enabled(c, s, Send(op))
  {
  }

  lemma AllResolved(c: Config, reqs: map<ReqId, Request>)
    requires ReqsOk(c, reqs)
    ensures forall r :: r in reqs ==> Resolved(reqs[r])
  {
    forall r | r in reqs ensures Resolved(reqs[r]) {
      ResolutionIsFirst(c, reqs[r]);
    }
  }

  lemma PendingIsExact(reqs: map<ReqId, Request>, pending: set<ReqId>)
    requires PendingOk(reqs, pending)
    ensures forall r :: r in pending <==> r in reqs && Enlisted(reqs[r].phase)
  {
  }

  /** What was received is the first value accepted, and only an approval leads to the release. */
  ghost predicate Resolved(q: Request) {
    && (q.resolution.Some? ==> q.accepted != [] && q.resolution.value == q.accepted[0])
    && (q.phase == Granted && q.decision.action == Policy.Approve ==> q.resolution == Some(true))
  }

  lemma ResolutionIsFirst(c: Config, q: Request)
    requires PathOk(c, q) && ChannelOk(q)
    ensures Resolved(q)
  {
  }

  function AnswerOf(slot: Option<Approval.Resolution>): Option<bool> {
    if slot.None? then None else Some(slot.value.approved)
  }

  /** A delivery is the engine's non-blocking send on the request's channel. */
  lemma DeliverIsASend(s: State, signal: Signal, slot: Option<Approval.Resolution>, actor: string)
    requires signal.req in s.reqs && s.reqs[signal.req].slot == AnswerOf(slot)
    ensures Deliver(s, signal).reqs[signal.req].slot
         == AnswerOf(Approval.Offered(slot, Approval.Resolution(signal.approve, actor)))
  {
  }

  lemma LaterDelivery(c: Config, s: State, signal: Signal)
    requires signal.req in s.reqs && ChannelOk(s.reqs[signal.req]) && s.reqs[signal.req].accepted != []
    ensures var q, q' := s.reqs[signal.req], Deliver(s, signal).reqs[signal.req];
            && q'.phase == q.phase && q'.resolution == q.resolution && q'.at == q.at
            && (q.phase == Waiting ==> q' == q)
    ensures Deliver(s, signal).trace == s.trace
  {
  }

  /** Over every run: once a channel has accepted a value, every signal sent to it at any later moment leaves
      the trace and the request's phase, resolution and recorded moments as they are, the request itself
      untouched while it waits, and what was accepted first is still first. */
  lemma LaterSignalsChangeNothing(
    c: Config, states: seq<State>, steps: seq<Step>, p: nat, i: nat, r: ReqId)
    requires IsRun(c, states, steps) && p <= i < |steps| && r in states[p].reqs && states[p].reqs[r].accepted != []
    requires steps[i].Send? && steps[i].op in states[i].signals && states[i].signals[steps[i].op].req == r
    ensures r in states[i].reqs && r in states[i + 1].reqs
    ensures var q, q' := states[i].reqs[r], states[i + 1].reqs[r];
            && q'.phase == q.phase && q'.resolution == q.resolution && q'.at == q.at
            && (q.phase == Waiting ==> q' == q)
            && q'.accepted != [] && q'.accepted[0] == states[p].reqs[r].accepted[0]
    ensures states[i + 1].trace == states[i].trace
  {
    OutcomeNeverChanges(c, states, steps, p, i, r);
    OutcomeKeptAt(c, states, steps, i, r);
    assert KeptAt(states, i, r);
    LaterSend(c, states, steps, i, r);
  }

  lemma ChannelAt(c: Config, states: seq<State>, steps: seq<Step>, i: nat, r: ReqId)
    requires IsRun(c, states, steps) && i < |states| && r in states[i].reqs
    ensures ChannelOk(states[i].reqs[r])
  {
    RunInv(c, states, steps, i);
    assert ReqOk(c, states[i].reqs[r]);
  }

  lemma LaterSend(c: Config, states: seq<State>, steps: seq<Step>, i: nat, r: ReqId)
    requires IsRun(c, states, steps) && i < |steps| && r in states[i].reqs && states[i].reqs[r].accepted != []
    requires steps[i].Send? && steps[i].op in states[i].signals && states[i].signals[steps[i].op].req == r
    ensures r in states[i + 1].reqs && states[i + 1].trace == states[i].trace
    ensures var q, q' := states[i].reqs[r], states[i + 1].reqs[r];
            && q'.phase == q.phase && q'.resolution == q.resolution && q'.at == q.at
            && (q.phase == Waiting ==> q' == q)
  {
    ChannelAt(c, states, steps, i, r);
    FollowsAt(c, states, steps, i);
    LaterDelivery(c, states[i], states[i].signals[steps[i].op]);
  }
}
