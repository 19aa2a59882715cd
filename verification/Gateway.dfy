/** gateway/mcp_server.go, approval.go and pause.go: the release protocol, as a step relation over
    many interleaved requests, operators, timers, cancellations, pauses and the snapshot sidecar. */
module Gateway {
  import opened Options
  import opened SqlAnalysis
  import opened Manifests
  import opened Audit
  import Policy
  import Verifier
  import Sidecar

  type ReqId = nat

  datatype Config = Config(
    policy: Policy.GatewayPolicy, snapshotBeforeCritical: bool, hasMetadata: bool, pauseBlocksSafe: bool, timeout: nat)

  /** A validated request; `impactCritical` is the outcome of the impact estimate. */
  datatype Input = Input(parse: Parse, snapshotId: string, impactCritical: bool)

  /** How the wait for an operator ended. */
  datatype Outcome = Decided(approved: bool) | TimedOut | Cancelled

  /** Where a request stands between two atomic actions of `toolExecuteQuery`. */
  datatype Phase =
    | Classified            // analysed, policy consulted
    | Admitted              // first pause check passed
    | Screened              // quarantine check passed
    | Verifying             // approval path, recovery point required
    | Recording             // about to write the durable pending row
    | Enrolling             // about to enter the pending map
    | Waiting               // in the select
    | Returning(outcome: Outcome) // select done, pending entry not yet deleted
    | Returned(outcome: Outcome)  // RequestApproval has returned
    | Bound                 // approved and bound to the same request
    | Granted               // nothing left to refuse it
    | Logged                // audit entry written with approved = true
    | Executed              // executeSQL called
    | Finished              // query counter incremented
    | Refused | RefusalLogged | RefusalFinished

  /** The moments of a request's life that the trace records. */
  datatype Mark =
    | MAdmitted | MVerified | MRowWritten | MStored | MAccepted | MConsumed | MCleared | MAudited | MExecuted | MCounted

  /** The fields of the approval details that the check after the approval compares. */
  datatype Binding = Binding(parse: Parse, table: string, risk: Risk)

  datatype Request = Request(
    input: Input, analysis: Analysis, decision: Policy.Decision, phase: Phase,
    at: map<Mark, nat>,            // position of each recorded moment in the trace
    slot: Option<bool>,            // the one-slot decision channel
    accepted: seq<bool>,           // every value the channel ever accepted, in order
    resolution: Option<bool>,      // the value RequestApproval received
    recovery: Option<Manifest>, binding: Option<Binding>,
    checkedAt: int,                // when the recovery point's age was checked
    waitFrom: int, returnedAt: int // when the wait for an operator began and ended
  )

  /** `paused` is the pause flag at that moment; `flag` the approved bit of an audit entry or signal. */
  datatype Event = Event(req: ReqId, mark: Mark, paused: bool, flag: bool)

  /** An operator call that has looked its request up and not yet sent. */
  datatype Signal = Signal(req: ReqId, approve: bool)

  datatype State = State(
    reqs: map<ReqId, Request>, pending: set<ReqId>, signals: map<nat, Signal>, rows: set<ReqId>,
    paused: bool, clock: int, trace: seq<Event>, log: seq<Event>, queries: nat, side: Sidecar.State)

  function Initial(paused: bool, clock: int): State {
    State(map[], {}, map[], {}, paused, clock, [], [], 0, Sidecar.Initial())
  }

  /** `PauseController.BlocksRisk` */
  predicate Blocks(c: Config, paused: bool, risk: Risk) {
    paused && (c.pauseBlocksSafe || risk != Safe)
  }

  predicate NeedsRecovery(c: Config, q: Request) {
    q.decision.requiresRecovery && c.snapshotBeforeCritical
  }

  function BindingOf(q: Request): Binding {
    Binding(q.input.parse, q.analysis.table, q.analysis.risk)
  }

  ghost function NewRequest(c: Config, input: Input): Request {
    var a := Policy.ApplyImpact(AnalysisOf(input.parse), input.impactCritical);
    Request(input, a, Policy.Decide(c.policy, a), Classified, map[], None, [], None, None, None, 0, 0, 0)
  }

  /** The atomic actions of one request, in the order of `toolExecuteQuery`. */
  datatype Act =
    | CheckPause
    | CheckQuarantine(quarantined: bool)
    | Dispatch
    | Verify(listing: seq<Verifier.Entry>)
    | VerifyFails
    | WriteRow(written: bool)
    | Enroll
    | Receive
    | Expire
    | Cancel
    | Unenroll
    | Resume
    | Recheck
    | Log
    | Run
    | Count

  datatype Step =
    | Arrive(r: ReqId, input: Input)
    | Own(r: ReqId, act: Act)
    | Load(op: nat, r: ReqId, approve: bool) // Approve / Deny finds the pending entry
    | Send(op: nat)                          // ... and sends without blocking
    | SetPaused(paused: bool)
    | Tick(seconds: nat)
    | SidecarStep(step: Sidecar.Step)

  /** Every readable manifest of a listing is one the store holds. */
  predicate Honest(store: Store, listing: seq<Verifier.Entry>) {
    forall i :: 0 <= i < |listing| && listing[i].body.Some? ==>
      listing[i].key in store && store[listing[i].key] == ManifestObject(listing[i].body.value)
  }

  /** `checkRecoveryReadiness`, its age limit; heartbeat, metadata record and recovery group are
      further reasons for VerifyFails. */
  predicate Fresh(c: Config, m: Manifest, now: int) {
    c.policy.maxSnapshotAge > 0 ==> m.timestamp.Some? && now - m.timestamp.value <= c.policy.maxSnapshotAge
  }

  /** The recovery point `verifyCriticalRecoveryPointWithAnalysis` settles on. */
  ghost function RecoveryPoint(s: State, q: Request, listing: seq<Verifier.Entry>): Verifier.Lookup {
    var target := Policy.RecoveryTable(q.analysis);
    if target.None? then Verifier.Failed
    else Verifier.VerifyLatest(s.side.store, listing, target.value, q.input.snapshotId)
  }

  /** The phase an action starts from. */
  predicate Fits(q: Request, act: Act) {
    match act
    case CheckPause => q.phase == Classified
    case CheckQuarantine(_) => q.phase == Admitted
    case Dispatch => q.phase == Screened
    case Verify(_) => q.phase == Verifying
    case VerifyFails => q.phase == Verifying
    case WriteRow(_) => q.phase == Recording
    case Enroll => q.phase == Enrolling
    case Receive => q.phase == Waiting && q.slot.Some?
    case Expire => q.phase == Waiting
    case Cancel => q.phase == Waiting
    case Unenroll => q.phase.Returning?
    case Resume => q.phase.Returned?
    case Recheck => q.phase == Bound
    case Log => q.phase == Granted || q.phase == Refused
    case Run => q.phase == Logged
    case Count => q.phase == Executed || q.phase == RefusalLogged
  }

  /** What an action reads besides its request's record. */
  datatype Env = Env(paused: bool, clock: int, point: Verifier.Lookup)

  ghost function EnvOf(s: State, q: Request, act: Act): Env {
    Env(s.paused, s.clock, if act.Verify? then RecoveryPoint(s, q, act.listing) else Verifier.Failed)
  }

  /** Conditions of an action on the world around it. */
  ghost predicate Allowed(c: Config, s: State, q: Request, act: Act) {
    match act
    case Verify(listing) =>
      var point := RecoveryPoint(s, q, listing);
      Honest(s.side.store, listing) && point.Found? && Fresh(c, point.manifest, s.clock)
    case WriteRow(written) => !c.hasMetadata ==> written
    case Expire => s.clock >= q.waitFrom + c.timeout
    case _ => true
  }

  /** Timers are urgent: time does not pass the moment a waiting request expires. */
  ghost predicate MayPass(c: Config, s: State, seconds: nat) {
    forall r :: r in s.reqs && s.reqs[r].phase == Waiting ==> s.clock + seconds <= s.reqs[r].waitFrom + c.timeout
  }

  ghost predicate Enabled(c: Config, s: State, step: Step) {
    match step
    case Arrive(r, input) => r !in s.reqs && !input.parse.EmptyText?
    case Own(r, act) => r in s.reqs && Fits(s.reqs[r], act) && Allowed(c, s, s.reqs[r], act)
    case Load(op, r, _) => op !in s.signals && r in s.pending
    case Send(op) => op in s.signals && s.signals[op].req in s.reqs
    case SetPaused(_) => true
    case Tick(d) => MayPass(c, s, d)
    case SidecarStep(step) => Sidecar.Enabled(s.side, step) && !Sidecar.DeletesLost(s.side, step)
  }

  /** What an action does to its request's record, and the moment it records. */
  datatype Effect = Effect(req: Request, mark: Option<Mark>, flag: bool)

  function Goes(q: Request, phase: Phase): Effect {
    Effect(q.(phase := phase), None, false)
  }

  function Marks(q: Request, phase: Phase, mark: Mark): Effect {
    Effect(q.(phase := phase), Some(mark), false)
  }

  function Local(c: Config, q: Request, act: Act, env: Env): Effect
    requires Fits(q, act) && (act.Verify? ==> env.point.Found?)
  {
    match act
    case CheckPause =>
      if Blocks(c, env.paused, q.analysis.risk) then Goes(q, Refused) else Marks(q, Admitted, MAdmitted)
    case CheckQuarantine(quarantined) => if quarantined then Goes(q, Refused) else Goes(q, Screened)
    case Dispatch =>
      (match q.decision.action
       case Block => Goes(q, Refused)
       case Execute => Goes(q, Granted)
       case Approve => if NeedsRecovery(c, q) then Goes(q, Verifying) else Goes(q, Recording))
    case Verify(_) =>
      Marks(q.(recovery := Some(env.point.manifest), checkedAt := env.clock), Recording, MVerified)
    case VerifyFails => Goes(q, Refused)
    case WriteRow(written) =>
      var d := q.(binding := Some(BindingOf(q)));
      if !c.hasMetadata then Goes(d, Enrolling)
      else if written then Marks(d, Enrolling, MRowWritten) else Goes(d, Refused)
    case Enroll => Marks(q.(waitFrom := env.clock), Waiting, MStored)
    case Receive =>
      Marks(q.(slot := None, resolution := q.slot, returnedAt := env.clock), Returning(Decided(q.slot.value)), MConsumed)
    case Expire => Goes(q.(returnedAt := env.clock), Returning(TimedOut))
    case Cancel => Goes(q.(returnedAt := env.clock), Returning(Cancelled))
    case Unenroll => Goes(q, Returned(q.phase.outcome))
    case Resume =>
      if q.phase.outcome == Decided(true) && q.binding == Some(BindingOf(q)) then Goes(q, Bound) else Goes(q, Refused)
    case Recheck =>
      if Blocks(c, env.paused, q.analysis.risk) then Goes(q, Refused) else Marks(q, Granted, MCleared)
    case Log =>
      // the late check: an approve-action request that was not approved would still be refused here
      var ok := q.phase == Granted && (q.decision.action == Policy.Approve ==> q.resolution == Some(true));
      Effect(q.(phase := if ok then Logged else RefusalLogged), Some(MAudited), ok)
    case Run => Marks(q, Executed, MExecuted)
    case Count => Marks(q, if q.phase == Executed then Finished else RefusalFinished, MCounted)
  }

  /** Installs an effect, with its event and everything the event stands for. */
  function Commit(s: State, r: ReqId, e: Effect): State {
    var pending := if e.req.phase.Returned? then s.pending - {r} else s.pending;
    if e.mark.None? then s.(reqs := s.reqs[r := e.req], pending := pending)
    else
      var k, event := e.mark.value, Event(r, e.mark.value, s.paused, e.flag);
      s.(reqs := s.reqs[r := e.req.(at := e.req.at[k := |s.trace|])],
         pending := if k == MStored then s.pending + {r} else pending,
         rows := if k == MRowWritten then s.rows + {r} else s.rows,
         log := if k == MAudited then Trimmed(s.log + [event]) else s.log,
         queries := s.queries + if k == MCounted then 1 else 0,
         trace := s.trace + [event])
  }

  /** A signal is accepted if the slot is empty, and dropped otherwise. */
  function Deliver(s: State, signal: Signal): State
    requires signal.req in s.reqs
  {
    var q := s.reqs[signal.req];
    if q.slot.Some? then s
    else
      var q' := q.(slot := Some(signal.approve), accepted := q.accepted + [signal.approve]);
      Commit(s, signal.req, Effect(q', if q.accepted == [] then Some(MAccepted) else None, signal.approve))
  }

  ghost function Apply(c: Config, s: State, step: Step): State
    requires Enabled(c, s, step)
  {
    match step
    case Arrive(r, input) => s.(reqs := s.reqs[r := NewRequest(c, input)])
    case Load(op, r, approve) => s.(signals := s.signals[op := Signal(r, approve)])
    case Send(op) => Deliver(s, s.signals[op]).(signals := s.signals - {op})
    case SetPaused(p) => s.(paused := p)
    case Tick(d) => s.(clock := s.clock + d)
    case SidecarStep(t) => s.(side := Sidecar.Apply(s.side, t))
    case Own(r, act) => Commit(s, r, Local(c, s.reqs[r], act, EnvOf(s, s.reqs[r], act)))
  }
}
