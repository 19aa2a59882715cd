/** The invariant of the release protocol over whole runs. */
module GatewayRuns {
  import opened Options
  import opened Manifests
  import opened Gateway
  import opened GatewayInvariant
  import opened GatewaySteps
  import Policy
  import Verifier
  import Sidecar

  /** A verified recovery point is committed in the store, because the listing is honest and every
      stored manifest is backed. */
  lemma RecoveryPointBacked(s: State, q: Request, listing: seq<Verifier.Entry>)
    requires Sidecar.Inv(s.side) && Honest(s.side.store, listing) && RecoveryPoint(s, q, listing).Found?
    ensures Sidecar.Backed(s.side.store, RecoveryPoint(s, q, listing).manifest)
    ensures Policy.RecoveryTable(q.analysis) == Some(RecoveryPoint(s, q, listing).manifest.table)
    ensures RecoveryPoint(s, q, listing).manifest.snapshotId == q.input.snapshotId
  {
    var target := Policy.RecoveryTable(q.analysis);
    var found := Verifier.VerifyLatest(s.side.store, listing, target.value, q.input.snapshotId);
    var i :| Verifier.IsLatest(listing, target.value, i) && listing[i].body == Some(found.manifest);
    assert s.side.store[listing[i].key] == ManifestObject(found.manifest);
  }

  lemma ActReady(c: Config, s: State, r: ReqId, act: Act)
    requires Sidecar.Inv(s.side) && r in s.reqs && Fits(s.reqs[r], act) && Allowed(c, s, s.reqs[r], act)
    ensures Ready(c, s.reqs[r], act, EnvOf(s, s.reqs[r], act))
    ensures act.Verify? ==> Sidecar.Backed(s.side.store, EnvOf(s, s.reqs[r], act).point.manifest)
  {
    if act.Verify? {
      RecoveryPointBacked(s, s.reqs[r], act.listing);
    }
  }

  /** The part of an effect that other parties can see. */
  ghost predicate Visible(c: Config, q: Request, e: Effect, clock: int) {
    && e.req.at == q.at
    && (Enlisted(e.req.phase) <==> e.mark == Some(MStored) || (Enlisted(q.phase) && !e.req.phase.Returned?))
    && (e.mark == Some(MStored) ==> !e.req.phase.Returned?)
    && (e.req.phase == Waiting ==> e.req.waitFrom == clock || (q.phase == Waiting && e.req.waitFrom == q.waitFrom))
  }

  lemma StepVisible(c: Config, q: Request, act: Act, env: Env)
    requires Ready(c, q, act, env)
    ensures Visible(c, q, Local(c, q, act, env), env.clock)
    ensures Local(c, q, act, env).req.recovery == if act.Verify? then Some(env.point.manifest) else q.recovery
  {
  }

  lemma CommitPending(c: Config, s: State, r: ReqId, e: Effect)
    requires PendingOk(s.reqs, s.pending) && r in s.reqs && Visible(c, s.reqs[r], e, s.clock)
    ensures PendingOk(Commit(s, r, e).reqs, Commit(s, r, e).pending)
  {
  }

  lemma CommitRows(c: Config, s: State, r: ReqId, e: Effect)
    requires RowsOk(s.reqs, s.rows) && r in s.reqs && e.req.at == s.reqs[r].at
    ensures RowsOk(Commit(s, r, e).reqs, Commit(s, r, e).rows)
  {
  }

  lemma CommitTimers(c: Config, s: State, r: ReqId, e: Effect)
    requires r in s.reqs && Visible(c, s.reqs[r], e, s.clock) && TimersOk(c, s.reqs, s.clock)
    ensures TimersOk(c, Commit(s, r, e).reqs, s.clock)
  {
  }

  lemma CommitSignals(c: Config, s: State, r: ReqId, e: Effect)
    requires r in s.reqs && e.req.at == s.reqs[r].at && SignalsOk(s.reqs, s.signals)
    ensures SignalsOk(Commit(s, r, e).reqs, s.signals)
  {
  }

  lemma CommitRecovery(c: Config, s: State, r: ReqId, e: Effect)
    requires r in s.reqs && RecoveryOk(s.reqs, s.side.store)
    requires e.req.recovery.Some? ==> Sidecar.Backed(s.side.store, e.req.recovery.value)
    ensures RecoveryOk(Commit(s, r, e).reqs, s.side.store)
  {
  }

  lemma CommitReqs(c: Config, s: State, r: ReqId, e: Effect)
    requires ReqsOk(c, s.reqs) && ReqOk(c, After(e, |s.trace|))
    ensures ReqsOk(c, Commit(s, r, e).reqs)
  {
  }

  lemma CommitTimes(c: Config, s: State, r: ReqId, e: Effect)
    requires TimesOk(c, s.reqs, s.clock) && Timed(c, After(e, |s.trace|), s.clock)
    ensures TimesOk(c, Commit(s, r, e).reqs, s.clock)
  {
  }

  lemma CommitInv(c: Config, s: State, r: ReqId, e: Effect)
    requires Inv(c, s) && r in s.reqs && Sane(s.reqs[r], e) && Visible(c, s.reqs[r], e, s.clock)
    requires e.mark.Some? ==> EventOk(c, e.req, Event(r, e.mark.value, s.paused, e.flag))
    requires e.req.recovery.Some? ==> Sidecar.Backed(s.side.store, e.req.recovery.value)
    requires ReqOk(c, After(e, |s.trace|)) && Timed(c, After(e, |s.trace|), s.clock)
    ensures Inv(c, Commit(s, r, e))
  {
    CommitLink(c, s, r, e);
    CommitTallied(s, r, e);
    CommitPending(c, s, r, e);
    CommitRows(c, s, r, e);
    CommitTimers(c, s, r, e);
    CommitTimes(c, s, r, e);
    CommitSignals(c, s, r, e);
    CommitRecovery(c, s, r, e);
    CommitReqs(c, s, r, e);
  }

  lemma OwnInv(c: Config, s: State, r: ReqId, act: Act)
    requires Inv(c, s) && r in s.reqs && Fits(s.reqs[r], act) && Allowed(c, s, s.reqs[r], act)
    ensures Inv(c, Commit(s, r, Local(c, s.reqs[r], act, EnvOf(s, s.reqs[r], act))))
  {
    var q := s.reqs[r];
    var env := EnvOf(s, q, act);
    ActReady(c, s, r, act);
    StepReqOk(c, q, act, env, |s.trace|);
    StepTimed(c, q, act, env, |s.trace|);
    StepEvent(c, q, act, env, r);
    StepVisible(c, q, act, env);
    CommitInv(c, s, r, Local(c, q, act, env));
  }

  /** A signal adds at most one value to a channel, and only the first leaves a mark. */
  lemma SignalInv(c: Config, s: State, op: nat)
    requires Inv(c, s) && op in s.signals
    ensures s.signals[op].req in s.reqs
    ensures Inv(c, Deliver(s, s.signals[op]).(signals := s.signals - {op}))
  {
    DeliverInv(c, s, s.signals[op]);
    var delivered := Deliver(s, s.signals[op]);
    assert SignalsOk(delivered.reqs, delivered.signals - {op});
  }

  lemma DeliverInv(c: Config, s: State, signal: Signal)
    requires Inv(c, s) && signal.req in s.reqs && MStored in s.reqs[signal.req].at
    ensures Inv(c, Deliver(s, signal)) && Deliver(s, signal).signals == s.signals
  {
    var r, q := signal.req, s.reqs[signal.req];
    if q.slot.None? {
      SignalReqOk(c, q, signal.approve, |s.trace|);
      SignalVisible(c, q, signal.approve, |s.trace|, s.clock);
      CommitInv(c, s, r, Accepts(q, signal.approve));
    }
  }

  /** What accepting a signal does to the request's record. */
  function Accepts(q: Request, approve: bool): Effect {
    Effect(q.(slot := Some(approve), accepted := q.accepted + [approve]),
           if q.accepted == [] then Some(MAccepted) else None, approve)
  }

  lemma SignalMarks(c: Config, q: Request, approve: bool, n: nat)
    requires MarksOk(c, q) && ChannelOk(q) && MStored in q.at
    ensures MarksOk(c, After(Accepts(q, approve), n))
  {
    assert MayHave(q.phase, MStored);
  }

  lemma SignalChannel(c: Config, q: Request, approve: bool, n: nat)
    requires ChannelOk(q) && q.slot.None? && MStored in q.at
    ensures ChannelOk(After(Accepts(q, approve), n))
  {
  }

  lemma SignalVisible(c: Config, q: Request, approve: bool, n: nat, clock: int)
    requires Timed(c, q, clock)
    ensures Visible(c, q, Accepts(q, approve), clock) && Timed(c, After(Accepts(q, approve), n), clock)
  {
  }

  lemma SignalReqOk(c: Config, q: Request, approve: bool, n: nat)
    requires ReqOk(c, q) && q.slot.None? && MStored in q.at
    ensures Sane(q, Accepts(q, approve)) && ReqOk(c, After(Accepts(q, approve), n))
  {
    SignalMarks(c, q, approve, n);
    SignalChannel(c, q, approve, n);
    assert PathOk(c, After(Accepts(q, approve), n));
  }

  lemma ArriveInv(c: Config, s: State, r: ReqId, input: Input)
    requires Inv(c, s) && r !in s.reqs
    ensures Inv(c, s.(reqs := s.reqs[r := NewRequest(c, input)]))
  {
    var q := NewRequest(c, input);
    NewRequestOk(c, input);
    ArriveReqs(c, s.reqs, r, q);
    ArriveLink(c, s, r, q);
    ArriveSets(s.reqs, s.pending, s.rows, s.signals, r, q);
    ArriveRest(c, s.reqs, s.clock, s.side.store, r, q);
  }

  lemma ArriveReqs(c: Config, reqs: map<ReqId, Request>, r: ReqId, q: Request)
    requires ReqsOk(c, reqs) && ReqOk(c, q)
    ensures ReqsOk(c, reqs[r := q])
  {
  }

  lemma ArriveSets(
    reqs: map<ReqId, Request>, pending: set<ReqId>, rows: set<ReqId>, signals: map<nat, Signal>, r: ReqId, q: Request)
    requires r !in reqs && q.phase == Classified && q.at == map[]
    requires PendingOk(reqs, pending) && RowsOk(reqs, rows) && SignalsOk(reqs, signals)
    ensures PendingOk(reqs[r := q], pending) && RowsOk(reqs[r := q], rows) && SignalsOk(reqs[r := q], signals)
  {
  }

  lemma ArriveRest(c: Config, reqs: map<ReqId, Request>, clock: int, store: Store, r: ReqId, q: Request)
    requires q.phase == Classified && q.recovery.None?
    requires q.at == map[] && TimersOk(c, reqs, clock) && TimesOk(c, reqs, clock) && RecoveryOk(reqs, store)
    ensures TimersOk(c, reqs[r := q], clock) && TimesOk(c, reqs[r := q], clock) && RecoveryOk(reqs[r := q], store)
  {
  }

  lemma NewRequestOk(c: Config, input: Input)
    ensures ReqOk(c, NewRequest(c, input))
  {
  }

  lemma ArriveLink(c: Config, s: State, r: ReqId, q: Request)
    requires Link(c, s.reqs, s.trace) && r !in s.reqs && q.at == map[]
    ensures Link(c, s.reqs[r := q], s.trace)
  {
    var reqs := s.reqs[r := q];
    forall i | 0 <= i < |s.trace| ensures Indexed(reqs, s.trace, i) {
      assert Indexed(s.reqs, s.trace, i);
    }
  }

  lemma SidecarInv(c: Config, s: State, step: Sidecar.Step)
    requires Inv(c, s) && Sidecar.Enabled(s.side, step) && !Sidecar.DeletesLost(s.side, step)
    ensures Inv(c, s.(side := Sidecar.Apply(s.side, step)))
  {
    Sidecar.StepInv(s.side, step);
    forall r | r in s.reqs && s.reqs[r].recovery.Some?
      ensures Sidecar.Backed(Sidecar.Apply(s.side, step).store, s.reqs[r].recovery.value)
    {
      Sidecar.StepKeepsBacked(s.side, step, s.reqs[r].recovery.value);
    }
  }

  lemma LoadInv(c: Config, s: State, op: nat, r: ReqId, approve: bool)
    requires Inv(c, s) && r in s.pending
    ensures Inv(c, s.(signals := s.signals[op := Signal(r, approve)]))
  {
    EnlistedIsStored(c, s.reqs[r]);
    LoadSignals(s.reqs, s.signals, op, Signal(r, approve));
  }

  lemma LoadSignals(reqs: map<ReqId, Request>, signals: map<nat, Signal>, op: nat, signal: Signal)
    requires SignalsOk(reqs, signals) && signal.req in reqs && MStored in reqs[signal.req].at
    ensures SignalsOk(reqs, signals[op := signal])
  {
  }

  lemma EnlistedIsStored(c: Config, q: Request)
    requires ReqOk(c, q) && Enlisted(q.phase)
    ensures MStored in q.at
  {
    assert MustHave(c, q, MStored);
  }

  lemma StepInv(c: Config, s: State, step: Step)
    requires Inv(c, s) && Enabled(c, s, step)
    ensures Inv(c, Apply(c, s, step))
  {
    if step.Own? {
      OwnInv(c, s, step.r, step.act);
    } else if step.Send? {
      SignalInv(c, s, step.op);
    } else if step.Arrive? {
      ArriveInv(c, s, step.r, step.input);
    } else if step.SidecarStep? {
      SidecarInv(c, s, step.step);
    } else if step.Load? {
      LoadInv(c, s, step.op, step.r, step.approve);
    } else if step.Tick? {
      TickInv(c, s, step.seconds);
    }
  }

  lemma TickInv(c: Config, s: State, seconds: nat)
    requires Inv(c, s) && MayPass(c, s, seconds)
    ensures Inv(c, s.(clock := s.clock + seconds))
  {
    forall r | r in s.reqs ensures Timed(c, s.reqs[r], s.clock + seconds) {
      assert Timed(c, s.reqs[r], s.clock);
    }
  }

  // ---- whole runs ------------------------------------------------------------------------------

  ghost predicate IsRun(c: Config, states: seq<State>, steps: seq<Step>) {
    && |states| == |steps| + 1
    && (exists paused, clock :: states[0] == Initial(paused, clock))
    && forall i :: 0 <= i < |steps| ==> Follows(c, states[i], steps[i], states[i + 1])
  }

  ghost predicate Follows(c: Config, s: State, step: Step, next: State) {
    Enabled(c, s, step) && next == Apply(c, s, step)
  }

  lemma FollowsAt(c: Config, states: seq<State>, steps: seq<Step>, i: nat)
    requires IsRun(c, states, steps) && i < |steps|
    ensures Follows(c, states[i], steps[i], states[i + 1])
  {
  }

  lemma FollowInv(c: Config, s: State, step: Step, next: State)
    requires Inv(c, s) && Follows(c, s, step, next)
    ensures Inv(c, next)
  {
    StepInv(c, s, step);
  }

  lemma StartInv(c: Config, states: seq<State>, steps: seq<Step>)
    requires IsRun(c, states, steps)
    ensures Inv(c, states[0])
  {
    var paused, clock :| states[0] == Initial(paused, clock);
    InitialInv(c, paused, clock);
  }

  lemma {:induction false} RunInv(c: Config, states: seq<State>, steps: seq<Step>, n: nat)
    requires IsRun(c, states, steps) && n < |states|
    ensures Inv(c, states[n])
  {
    if n == 0 {
      StartInv(c, states, steps);
    } else {
      RunInv(c, states, steps, n - 1);
      FollowsAt(c, states, steps, n - 1);
      FollowInv(c, states[n - 1], steps[n - 1], states[n]);
    }
  }

  lemma RunStep(c: Config, states: seq<State>, steps: seq<Step>, i: nat)
    requires IsRun(c, states, steps) && i < |steps|
    ensures Inv(c, states[i]) && Follows(c, states[i], steps[i], states[i + 1])
  {
    RunInv(c, states, steps, i);
    FollowsAt(c, states, steps, i);
  }

  /** One more step of a run. */
  lemma RunLonger(c: Config, states: seq<State>, steps: seq<Step>, step: Step, next: State)
    requires IsRun(c, states, steps) && Follows(c, states[|steps|], step, next)
    ensures IsRun(c, states + [next], steps + [step])
  {
    var longer, moves := states + [next], steps + [step];
    forall i | 0 <= i < |moves| ensures Follows(c, longer[i], moves[i], longer[i + 1]) {
      if i < |steps| { assert Follows(c, states[i], steps[i], states[i + 1]); }
    }
  }
}
