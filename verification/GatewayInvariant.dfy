/** The inductive invariant of the release protocol. */
module GatewayInvariant {
  import opened Options
  import opened SqlAnalysis
  import opened Manifests
  import opened Audit
  import opened Gateway
  import Policy
  import Sidecar

  // ---- phases and recorded moments -----------------------------------------------------------

  /** A request that has not been refused. */
  predicate Live(p: Phase) {
    !p.Refused? && !p.RefusalLogged? && !p.RefusalFinished?
  }

  function Level(p: Phase): nat {
    match p
    case Classified => 0
    case Admitted => 1
    case Screened => 2
    case Verifying => 3
    case Recording => 4
    case Enrolling => 5
    case Waiting => 6
    case Returning(_) => 7
    case Returned(_) => 8
    case Bound => 9
    case Granted => 10
    case Logged => 11
    case Executed => 12
    case Finished => 13
    case Refused => 0
    case RefusalLogged => 0
    case RefusalFinished => 0
  }

  /** The level a live request must have reached to carry this mark. */
  function MinLevel(k: Mark): nat {
    match k
    case MAdmitted => 1
    case MVerified => 4
    case MRowWritten => 5
    case MStored => 6
    case MAccepted => 6
    case MConsumed => 7
    case MCleared => 10
    case MAudited => 11
    case MExecuted => 12
    case MCounted => 13
  }

  predicate MayHave(p: Phase, k: Mark) {
    match p
    case Refused => MinLevel(k) < 11
    case RefusalLogged => MinLevel(k) < 12
    case RefusalFinished => k != MExecuted
    case _ => Level(p) >= MinLevel(k)
  }

  /** Whether this request's path passes the moment `k` at all. */
  predicate Applies(c: Config, q: Request, k: Mark) {
    match k
    case MVerified => q.decision.action == Policy.Approve && NeedsRecovery(c, q)
    case MRowWritten => q.decision.action == Policy.Approve && c.hasMetadata
    case MStored => q.decision.action == Policy.Approve
    case MAccepted => false
    case MConsumed =>
      q.decision.action == Policy.Approve && (q.phase.Returning? || q.phase.Returned? ==> q.phase.outcome.Decided?)
    case MCleared => q.decision.action == Policy.Approve
    case _ => true
  }

  predicate MustHave(c: Config, q: Request, k: Mark) {
    match q.phase
    case Refused => false
    case RefusalLogged => k == MAudited
    case RefusalFinished => k == MAudited || k == MCounted
    case _ => Level(q.phase) >= MinLevel(k) && Applies(c, q, k)
  }

  /** The order the protocol imposes. An operator's signal may arrive late, so acceptance is tied
      only to what must surround it. */
  predicate Before(k1: Mark, k2: Mark) {
    if k1 == MAccepted then k2 == MConsumed
    else if k2 == MAccepted then MinLevel(k1) <= 6
    else MinLevel(k1) < MinLevel(k2)
  }

  ghost predicate MarksOk(c: Config, q: Request) {
    && (forall k :: k in q.at ==> MayHave(q.phase, k))
    && (forall k :: MustHave(c, q, k) ==> k in q.at)
  }

  ghost predicate Ordered(q: Request) {
    forall k1, k2 :: k1 in q.at && k2 in q.at && Before(k1, k2) ==> q.at[k1] < q.at[k2]
  }

  // ---- what a request's record says ----------------------------------------------------------

  ghost predicate Sourced(c: Config, q: Request) {
    && q.analysis == Policy.ApplyImpact(AnalysisOf(q.input.parse), q.input.impactCritical)
    && q.decision == Policy.Decide(c.policy, q.analysis)
  }

  /** Only approve-action requests walk the approval path, and they arrive at its end approved. */
  ghost predicate PathOk(c: Config, q: Request) {
    && (3 <= Level(q.phase) <= 9 ==> q.decision.action == Policy.Approve)
    && (Level(q.phase) >= 10 ==> q.decision.action != Policy.Block)
    && (Level(q.phase) == 3 ==> NeedsRecovery(c, q))
    && (Level(q.phase) >= 4 && q.decision.action == Policy.Approve && NeedsRecovery(c, q) ==> RecoveryChecked(c, q))
    && (Level(q.phase) >= 5 && q.decision.action == Policy.Approve ==> q.binding == Some(BindingOf(q)))
    && (Level(q.phase) >= 9 && q.decision.action == Policy.Approve ==> q.resolution == Some(true))
    && (q.phase.Returning? || q.phase.Returned? ==>
          q.phase.outcome.Decided? ==> q.resolution == Some(q.phase.outcome.approved))
  }

  ghost predicate RecoveryChecked(c: Config, q: Request) {
    && q.recovery.Some?
    && Policy.RecoveryTable(q.analysis) == Some(q.recovery.value.table)
    && q.recovery.value.snapshotId == q.input.snapshotId
    && Fresh(c, q.recovery.value, q.checkedAt)
  }

  /** The channel: what is received is the first value that was ever accepted. */
  ghost predicate ChannelOk(q: Request) {
    && (MAccepted in q.at <==> q.accepted != [])
    && (q.accepted != [] ==> MStored in q.at)
    && (q.accepted == [] ==> q.slot.None?)
    && (q.resolution.Some? ==> q.accepted != [] && q.resolution.value == q.accepted[0])
    && (MConsumed in q.at ==> q.resolution.Some?)
    && (q.phase == Waiting ==> q.resolution.None? && (q.accepted != [] ==> q.slot == Some(q.accepted[0])))
  }

  ghost predicate ReqOk(c: Config, q: Request) {
    MarksOk(c, q) && Sourced(c, q) && PathOk(c, q) && ChannelOk(q)
  }

  // ---- the trace ---------------------------------------------------------------------------------

  ghost predicate EventOk(c: Config, q: Request, e: Event) {
    match e.mark
    case MAdmitted => !Blocks(c, e.paused, q.analysis.risk)
    case MCleared => !Blocks(c, e.paused, q.analysis.risk)
    case MAccepted => q.accepted != [] && e.flag == q.accepted[0]
    case MAudited => e.flag == Live(q.phase)
    case _ => true
  }

  /** Every mark of a request points at its event. */
  ghost predicate Stamped(c: Config, trace: seq<Event>, r: ReqId, q: Request) {
    forall k :: k in q.at ==>
      && q.at[k] < |trace| && trace[q.at[k]].req == r && trace[q.at[k]].mark == k
      && EventOk(c, q, trace[q.at[k]])
  }

  /** ... and every event is the only one of its kind for its request. */
  ghost predicate Indexed(reqs: map<ReqId, Request>, trace: seq<Event>, i: nat)
    requires i < |trace|
  {
    var e := trace[i];
    e.req in reqs && e.mark in reqs[e.req].at && reqs[e.req].at[e.mark] == i
  }

  ghost predicate Link(c: Config, reqs: map<ReqId, Request>, trace: seq<Event>) {
    && (forall i :: 0 <= i < |trace| ==> Indexed(reqs, trace, i))
    && (forall r :: r in reqs ==> Stamped(c, trace, r, reqs[r]) && Ordered(reqs[r]))
  }

  function AuditOf(trace: seq<Event>): seq<Event> {
    if trace == [] then []
    else
      var n := |trace| - 1;
      AuditOf(trace[..n]) + if trace[n].mark == MAudited then [trace[n]] else []
  }

  function CountsOf(trace: seq<Event>): nat {
    if trace == [] then 0
    else
      var n := |trace| - 1;
      CountsOf(trace[..n]) + if trace[n].mark == MCounted then 1 else 0
  }

  ghost predicate Tallied(trace: seq<Event>, log: seq<Event>, queries: nat) {
    log == Trimmed(AuditOf(trace)) && queries == CountsOf(trace)
  }

  // ---- shared state --------------------------------------------------------------------------------

  predicate Enlisted(p: Phase) {
    p == Waiting || p.Returning?
  }

  /** The pending map is exactly the set of requests between store and delete. */
  ghost predicate PendingOk(reqs: map<ReqId, Request>, pending: set<ReqId>) {
    && (forall r :: r in reqs ==> (r in pending <==> Enlisted(reqs[r].phase)))
    && (forall r :: r in pending ==> r in reqs)
  }

  ghost predicate RowsOk(reqs: map<ReqId, Request>, rows: set<ReqId>) {
    && (forall r :: r in reqs ==> (r in rows <==> MRowWritten in reqs[r].at))
    && (forall r :: r in rows ==> r in reqs)
  }

  /** No wait outlives its timer. */
  ghost predicate TimersOk(c: Config, reqs: map<ReqId, Request>, clock: int) {
    forall r :: r in reqs && reqs[r].phase == Waiting ==> clock <= reqs[r].waitFrom + c.timeout
  }

  /** What the recorded times of a request mean, also once it has been refused. */
  ghost predicate Timed(c: Config, q: Request, clock: int) {
    && (MVerified in q.at ==> RecoveryChecked(c, q) && q.checkedAt <= clock)
    && (MStored in q.at ==>
          && q.waitFrom <= clock
          && (NeedsRecovery(c, q) ==> MVerified in q.at)
          && (MVerified in q.at ==> q.checkedAt <= q.waitFrom))
    && (MConsumed in q.at ==> MStored in q.at && q.waitFrom <= q.returnedAt <= q.waitFrom + c.timeout)
  }

  ghost predicate TimesOk(c: Config, reqs: map<ReqId, Request>, clock: int) {
    forall r :: r in reqs ==> Timed(c, reqs[r], clock)
  }

  /** Verified recovery points stay committed. */
  ghost predicate RecoveryOk(reqs: map<ReqId, Request>, store: Store) {
    forall r :: r in reqs && reqs[r].recovery.Some? ==> Sidecar.Backed(store, reqs[r].recovery.value)
  }

  ghost predicate SignalsOk(reqs: map<ReqId, Request>, signals: map<nat, Signal>) {
    forall op :: op in signals ==> signals[op].req in reqs && MStored in reqs[signals[op].req].at
  }

  ghost predicate Shared(c: Config, s: State) {
    && PendingOk(s.reqs, s.pending) && RowsOk(s.reqs, s.rows) && TimersOk(c, s.reqs, s.clock)
    && TimesOk(c, s.reqs, s.clock) && RecoveryOk(s.reqs, s.side.store) && SignalsOk(s.reqs, s.signals)
  }

  ghost predicate ReqsOk(c: Config, reqs: map<ReqId, Request>) {
    forall r :: r in reqs ==> ReqOk(c, reqs[r])
  }

  ghost predicate Inv(c: Config, s: State) {
    && ReqsOk(c, s.reqs) && Link(c, s.reqs, s.trace) && Shared(c, s)
    && Tallied(s.trace, s.log, s.queries) && Sidecar.Inv(s.side)
  }

  lemma InitialInv(c: Config, paused: bool, clock: int)
    ensures Inv(c, Initial(paused, clock))
  {
    Sidecar.InitialInv();
  }

  // ---- committing one effect --------------------------------------------------------------------

  /** The record as it stands after the effect is committed at trace position `n`. */
  function After(e: Effect, n: nat): Request {
    if e.mark.None? then e.req else e.req.(at := e.req.at[e.mark.value := n])
  }

  /** Committing an effect replaces one request's record and leaves the world around it alone. */
  lemma CommitRecord(s: State, r: ReqId, e: Effect)
    ensures var next := Commit(s, r, e);
            && next.reqs == s.reqs[r := After(e, |s.trace|)]
            && next.paused == s.paused && next.clock == s.clock && next.side == s.side && next.signals == s.signals
  {
  }

  /** An effect that neither rewrites history nor records a moment twice or too late. */
  ghost predicate Sane(q: Request, e: Effect) {
    && e.req.at == q.at
    && e.req.analysis == q.analysis
    && (q.accepted != [] ==> e.req.accepted != [] && e.req.accepted[0] == q.accepted[0])
    && (MAudited in q.at ==> Live(e.req.phase) == Live(q.phase))
    && (e.mark.Some? ==> e.mark.value !in q.at && forall k :: k in q.at ==> !Before(e.mark.value, k))
  }

  lemma CommitLink(c: Config, s: State, r: ReqId, e: Effect)
    requires Link(c, s.reqs, s.trace) && r in s.reqs && Sane(s.reqs[r], e)
    requires e.mark.Some? ==> EventOk(c, e.req, Event(r, e.mark.value, s.paused, e.flag))
    ensures Link(c, Commit(s, r, e).reqs, Commit(s, r, e).trace)
  {
    var s' := Commit(s, r, e);
    forall i | 0 <= i < |s'.trace| ensures Indexed(s'.reqs, s'.trace, i) {
      if i < |s.trace| { assert Indexed(s.reqs, s.trace, i); }
    }
    forall r' | r' in s'.reqs ensures Stamped(c, s'.trace, r', s'.reqs[r']) && Ordered(s'.reqs[r']) {
      assert Stamped(c, s.trace, r', s.reqs[r']);
      CommitStamped(c, s, r, e, r');
    }
  }

  lemma CommitStamped(c: Config, s: State, r: ReqId, e: Effect, r': ReqId)
    requires r in s.reqs && Sane(s.reqs[r], e) && r' in s.reqs
    requires Stamped(c, s.trace, r', s.reqs[r']) && Ordered(s.reqs[r'])
    requires e.mark.Some? ==> EventOk(c, e.req, Event(r, e.mark.value, s.paused, e.flag))
    ensures var s' := Commit(s, r, e); Stamped(c, s'.trace, r', s'.reqs[r']) && Ordered(s'.reqs[r'])
  {
    var s' := Commit(s, r, e);
    var q, q' := s.reqs[r'], s'.reqs[r'];
    forall k | k in q'.at
      ensures q'.at[k] < |s'.trace| && s'.trace[q'.at[k]].req == r' && s'.trace[q'.at[k]].mark == k
      ensures EventOk(c, q', s'.trace[q'.at[k]])
    {
      if k in q.at && q'.at[k] == q.at[k] {
        assert s'.trace[q.at[k]] == s.trace[q.at[k]] && EventOk(c, q, s.trace[q.at[k]]);
      }
    }
  }

  lemma AppendTallies(trace: seq<Event>, e: Event)
    ensures AuditOf(trace + [e]) == AuditOf(trace) + if e.mark == MAudited then [e] else []
    ensures CountsOf(trace + [e]) == CountsOf(trace) + if e.mark == MCounted then 1 else 0
  {
    assert (trace + [e])[..|trace|] == trace;
  }

  lemma CommitTallied(s: State, r: ReqId, e: Effect)
    requires Tallied(s.trace, s.log, s.queries)
    ensures var s' := Commit(s, r, e); Tallied(s'.trace, s'.log, s'.queries)
  {
    if e.mark.Some? {
      var event := Event(r, e.mark.value, s.paused, e.flag);
      AppendTallies(s.trace, event);
      TrimmedAppend(AuditOf(s.trace), event);
    }
  }
}
