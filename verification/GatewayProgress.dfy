/** The safety of the release protocol is not bought by refusing everything: where every state of every run
    can still lead. */
module GatewayProgress {
  import opened Options
  import opened SqlAnalysis
  import opened Manifests
  import opened Gateway
  import opened GatewayInvariant
  import opened GatewaySteps
  import opened GatewayRuns
  import Policy
  import Verifier

  /** An honest and complete listing of the store offers a recovery point that passes every check. */
  ghost predicate Verifiable(c: Config, s: State, q: Request) {
    exists listing :: Lists(s.side.store, listing) && Allowed(c, s, q, Verify(listing))
  }

  /** Every manifest in the store is listed. */
  ghost predicate Lists(store: Store, listing: seq<Verifier.Entry>) {
    forall k :: k in store && store[k].ManifestObject? ==>
      exists i :: 0 <= i < |listing| && listing[i] == Verifier.Entry(k, Some(store[k].manifest))
  }

  /** A step that needs nobody's help: time passes, or a request acts that is not cancelled, whose writes
      succeed and whose verification fails only if nothing can be verified. */
  ghost predicate Unaided(c: Config, s: State, step: Step) {
    match step
    case Tick(_) => true
    case Own(r, act) =>
      && r in s.reqs && act != Cancel && act != WriteRow(false)
      && (act == VerifyFails ==> !Verifiable(c, s, s.reqs[r]))
    case _ => false
  }

  // ---- continuing a run --------------------------------------------------------------------------------

  /** Steps, in order. */
  datatype Course = Here | On(before: Course, step: Step)

  /** The course goes from `s`, where the invariant holds, to `t`. */
  ghost predicate Leads(c: Config, s: State, course: Course, t: State, unaided: bool) {
    match course
    case Here => s == t && Inv(c, s)
    case On(before, step) =>
      exists mid :: Leads(c, s, before, mid, unaided) && StepsTo(c, mid, step, t, unaided)
  }

  ghost predicate StepsTo(c: Config, s: State, step: Step, t: State, unaided: bool) {
    Follows(c, s, step, t) && (unaided ==> Unaided(c, s, step))
  }

  /** From `s0` the protocol can get to `s`. */
  ghost predicate Can(c: Config, s0: State, s: State, unaided: bool) {
    exists course :: Leads(c, s0, course, s, unaided)
  }

  lemma Start(c: Config, s: State, unaided: bool)
    requires Inv(c, s)
    ensures Can(c, s, s, unaided)
  {
    assert Leads(c, s, Here, s, unaided);
  }

  lemma Take(c: Config, s0: State, s: State, step: Step, t: State, unaided: bool)
    requires Can(c, s0, s, unaided) && StepsTo(c, s, step, t, unaided)
    ensures Can(c, s0, t, unaided)
  {
    var course :| Leads(c, s0, course, s, unaided);
    assert Leads(c, s0, On(course, step), t, unaided);
  }

  lemma {:induction false} CourseInv(c: Config, s0: State, course: Course, s: State, unaided: bool)
    requires Leads(c, s0, course, s, unaided)
    ensures Inv(c, s)
    decreases course
  {
    if course.On? {
      var mid :| Leads(c, s0, course.before, mid, unaided) && StepsTo(c, mid, course.step, s, unaided);
      CourseInv(c, s0, course.before, mid, unaided);
      StepInv(c, mid, course.step);
    }
  }

  lemma CanInv(c: Config, s0: State, s: State, unaided: bool)
    requires Can(c, s0, s, unaided)
    ensures Inv(c, s)
  {
    var course :| Leads(c, s0, course, s, unaided);
    CourseInv(c, s0, course, s, unaided);
  }

  lemma RequestFacts(c: Config, s0: State, s: State, r: ReqId, unaided: bool)
    requires Can(c, s0, s, unaided) && r in s.reqs
    ensures MarksOk(c, s.reqs[r]) && PathOk(c, s.reqs[r])
  {
    CanInv(c, s0, s, unaided);
    assert ReqOk(c, s.reqs[r]);
  }

  lemma SharedFacts(c: Config, s0: State, s: State, unaided: bool)
    requires Can(c, s0, s, unaided)
    ensures TimersOk(c, s.reqs, s.clock) && PendingOk(s.reqs, s.pending)
  {
    CanInv(c, s0, s, unaided);
  }

  /** What one action of request `r` changes: its record, and nothing that other actions read. */
  ghost predicate Acted(c: Config, s: State, r: ReqId, act: Act, t: State)
    requires r in s.reqs
  {
    var env := EnvOf(s, s.reqs[r], act);
    && Ready(c, s.reqs[r], act, env)
    && t.reqs == s.reqs[r := After(Local(c, s.reqs[r], act, env), |s.trace|)]
    && t.paused == s.paused && t.clock == s.clock && t.side == s.side && t.signals == s.signals
  }

  lemma Do(c: Config, s0: State, s: State, r: ReqId, act: Act, unaided: bool) returns (t: State)
    requires Can(c, s0, s, unaided) && r in s.reqs && Fits(s.reqs[r], act) && Allowed(c, s, s.reqs[r], act)
    requires unaided ==> Unaided(c, s, Own(r, act))
    ensures Can(c, s0, t, unaided) && Acted(c, s, r, act, t)
  {
    t := Apply(c, s, Own(r, act));
    Take(c, s0, s, Own(r, act), t, unaided);
    ActedOwn(c, s0, s, r, act, unaided);
  }

  lemma ActedOwn(c: Config, s0: State, s: State, r: ReqId, act: Act, unaided: bool)
    requires Can(c, s0, s, unaided) && Enabled(c, s, Own(r, act))
    ensures Acted(c, s, r, act, Apply(c, s, Own(r, act)))
  {
    CanInv(c, s0, s, unaided);
    ActReady(c, s, r, act);
    CommitRecord(s, r, Local(c, s.reqs[r], act, EnvOf(s, s.reqs[r], act)));
  }

  lemma UnaidedLonger(c: Config, states: seq<State>, steps: seq<Step>, n: nat, step: Step, next: State)
    requires |states| == |steps| + 1 && UnaidedFrom(c, states, steps, n) && Unaided(c, states[|steps|], step)
    ensures UnaidedFrom(c, states + [next], steps + [step], n)
  {
  }

  /** A course from the last state of a run makes the run longer. */
  lemma {:induction false} Continue(
    c: Config, states: seq<State>, steps: seq<Step>, course: Course, t: State, unaided: bool)
    returns (longer: seq<State>, moves: seq<Step>)
    requires IsRun(c, states, steps) && Leads(c, states[|steps|], course, t, unaided)
    ensures IsRun(c, longer, moves) && states <= longer && steps <= moves && longer[|moves|] == t
    ensures unaided ==> UnaidedFrom(c, longer, moves, |steps|)
    decreases course
  {
    longer, moves := states, steps;
    if course.On? {
      var mid :| Leads(c, states[|steps|], course.before, mid, unaided) && StepsTo(c, mid, course.step, t, unaided);
      var run, list := Continue(c, states, steps, course.before, mid, unaided);
      RunLonger(c, run, list, course.step, t);
      if unaided { UnaidedLonger(c, run, list, |steps|, course.step, t); }
      longer, moves := run + [t], list + [course.step];
    }
  }

  ghost predicate UnaidedFrom(c: Config, states: seq<State>, steps: seq<Step>, n: nat)
    requires |states| == |steps| + 1
  {
    forall i :: n <= i < |steps| ==> Unaided(c, states[i], steps[i])
  }

  // ---- every request can finish ------------------------------------------------------------------------

  /** How far a request is from its end. */
  function Left(p: Phase): nat {
    match p
    case Classified => 13
    case Admitted => 12
    case Screened => 11
    case Verifying => 10
    case Recording => 9
    case Enrolling => 8
    case Waiting => 7
    case Returning(_) => 6
    case Returned(_) => 5
    case Bound => 4
    case Granted => 3
    case Refused => 3
    case Logged => 2
    case RefusalLogged => 1
    case Executed => 1
    case Finished => 0
    case RefusalFinished => 0
  }

  /** The next action of a request that is not waiting. */
  ghost function Way(c: Config, s: State, q: Request): Act {
    match q.phase
    case Classified => CheckPause
    case Admitted => CheckQuarantine(false)
    case Screened => Dispatch
    case Verifying =>
      if Verifiable(c, s, q) then var listing :| Lists(s.side.store, listing) && Allowed(c, s, q, Verify(listing)); Verify(listing) else VerifyFails
    case Recording => WriteRow(true)
    case Enrolling => Enroll
    case Returning(_) => Unenroll
    case Returned(_) => Resume
    case Bound => Recheck
    case Logged => Run
    case Executed => Count
    case RefusalLogged => Count
    case _ => Log
  }

  lemma WayIsOpen(c: Config, s: State, r: ReqId)
    requires r in s.reqs && s.reqs[r].phase != Waiting && Left(s.reqs[r].phase) > 0
    ensures var act := Way(c, s, s.reqs[r]);
            Fits(s.reqs[r], act) && Allowed(c, s, s.reqs[r], act) && Unaided(c, s, Own(r, act))
  {
  }

  lemma WayDescends(c: Config, q: Request, act: Act, env: Env)
    requires Ready(c, q, act, env)
    ensures Left(Local(c, q, act, env).req.phase) < Left(q.phase)
  {
  }

  function WaitingOnes(reqs: map<ReqId, Request>): set<ReqId> {
    set r | r in reqs && reqs[r].phase == Waiting
  }

  /** The waiting request whose timer fires first. */
  lemma {:induction false} FirstToExpire(reqs: map<ReqId, Request>, among: set<ReqId>) returns (m: ReqId)
    requires among != {} && among <= reqs.Keys
    ensures m in among && forall r :: r in among ==> reqs[m].waitFrom <= reqs[r].waitFrom
    decreases among
  {
    var k :| k in among;
    m := k;
    if among != {k} {
      m := FirstToExpire(reqs, among - {k});
      assert forall r :: r in among ==> r == k || r in among - {k};
      if reqs[k].waitFrom < reqs[m].waitFrom { m := k; }
    }
  }

  /** Time passes until the first timer of all fires. */
  lemma PassTime(c: Config, s0: State, s: State, m: ReqId) returns (t: State)
    requires Can(c, s0, s, true) && m in s.reqs && s.reqs[m].phase == Waiting
    requires forall r :: r in WaitingOnes(s.reqs) ==> s.reqs[m].waitFrom <= s.reqs[r].waitFrom
    ensures Can(c, s0, t, true) && t.reqs == s.reqs && t.clock == s.reqs[m].waitFrom + c.timeout
  {
    SharedFacts(c, s0, s, true);
    var d := s.reqs[m].waitFrom + c.timeout - s.clock;
    assert MayPass(c, s, d) by {
      assert forall r :: r in s.reqs && s.reqs[r].phase == Waiting ==> r in WaitingOnes(s.reqs);
    }
    t := s.(clock := s.clock + d);
    assert Follows(c, s, Tick(d), t);
    Take(c, s0, s, Tick(d), t, true);
  }

  /** The first to expire leaves its wait; every other request stays as it is. */
  lemma ExpireFirst(c: Config, s0: State, s: State, m: ReqId) returns (t: State)
    requires Can(c, s0, s, true) && m in s.reqs && s.reqs[m].phase == Waiting
    requires forall r :: r in WaitingOnes(s.reqs) ==> s.reqs[m].waitFrom <= s.reqs[r].waitFrom
    ensures Can(c, s0, t, true) && m in t.reqs && t.reqs[m].phase.Returning?
    ensures t.reqs == s.reqs[m := t.reqs[m]]
  {
    var late := PassTime(c, s0, s, m);
    t := Do(c, s0, late, m, Expire, true);
  }

  lemma TakeAnswer(c: Config, s0: State, s: State, r: ReqId) returns (t: State)
    requires Can(c, s0, s, true) && r in s.reqs && s.reqs[r].phase == Waiting && s.reqs[r].slot.Some?
    ensures Can(c, s0, t, true) && r in t.reqs && t.reqs[r].phase.Returning?
  {
    t := Do(c, s0, s, r, Receive, true);
  }

  /** Every wait can end without an operator: by the answer already in the channel, or by the timer, once all
      timers that fire before it have. */
  lemma {:induction false} WaitEnds(c: Config, s0: State, s: State, r: ReqId) returns (t: State)
    requires Can(c, s0, s, true) && r in s.reqs && s.reqs[r].phase == Waiting
    ensures Can(c, s0, t, true) && r in t.reqs && t.reqs[r].phase.Returning?
    decreases |WaitingOnes(s.reqs)|
  {
    var waiting := WaitingOnes(s.reqs);
    if s.reqs[r].slot.Some? {
      t := TakeAnswer(c, s0, s, r);
    } else {
      assert r in waiting;
      var m := FirstToExpire(s.reqs, waiting);
      t := ExpireFirst(c, s0, s, m);
      if m != r {
        assert WaitingOnes(t.reqs) == waiting - {m};
        t := WaitEnds(c, s0, t, r);
      }
    }
  }

  lemma MoveOn(c: Config, s0: State, s: State, r: ReqId) returns (t: State)
    requires Can(c, s0, s, true) && r in s.reqs && s.reqs[r].phase != Waiting && Left(s.reqs[r].phase) > 0
    ensures Can(c, s0, t, true) && r in t.reqs && Left(t.reqs[r].phase) < Left(s.reqs[r].phase)
  {
    var act := Way(c, s, s.reqs[r]);
    WayIsOpen(c, s, r);
    t := Do(c, s0, s, r, act, true);
    WayDescends(c, s.reqs[r], act, EnvOf(s, s.reqs[r], act));
  }

  lemma {:induction false} Finish(c: Config, s0: State, s: State, r: ReqId) returns (t: State)
    requires Can(c, s0, s, true) && r in s.reqs
    ensures Can(c, s0, t, true) && r in t.reqs && Left(t.reqs[r].phase) == 0
    decreases Left(s.reqs[r].phase)
  {
    t := s;
    if Left(s.reqs[r].phase) > 0 {
      if s.reqs[r].phase == Waiting {
        t := WaitEnds(c, s0, s, r);
      } else {
        t := MoveOn(c, s0, s, r);
      }
      t := Finish(c, s0, t, r);
    }
  }

  /** Every run extends, without operator, cancellation or failed write, to one in which the request has
      finished: its audit entry written and its query counted. */
  lemma EveryRequestCanFinish(c: Config, states: seq<State>, steps: seq<Step>, r: ReqId)
    returns (longer: seq<State>, moves: seq<Step>)
    requires IsRun(c, states, steps) && r in states[|steps|].reqs
    ensures IsRun(c, longer, moves) && states <= longer && steps <= moves && UnaidedFrom(c, longer, moves, |steps|)
    ensures var end := longer[|moves|];
            r in end.reqs && (end.reqs[r].phase == Finished || end.reqs[r].phase == RefusalFinished)
  {
    var s := states[|steps|];
    RunInv(c, states, steps, |steps|);
    Start(c, s, true);
    var t := Finish(c, s, s, r);
    var course :| Leads(c, s, course, t, true);
    longer, moves := Continue(c, states, steps, course, t, true);
  }

  // ---- every query that may run can run ------------------------------------------------------------------

  /** Nothing that has happened so far stands between the request and its execution. */
  ghost predicate Cleared(c: Config, q: Request, paused: bool) {
    match q.phase
    case Waiting => q.slot == Some(true) && !Blocks(c, paused, q.analysis.risk)
    case Returning(outcome) => outcome == Decided(true) && !Blocks(c, paused, q.analysis.risk)
    case Returned(outcome) => outcome == Decided(true) && !Blocks(c, paused, q.analysis.risk)
    case Bound => !Blocks(c, paused, q.analysis.risk)
    case Granted => true
    case Logged => true
    case Executed => true
    case Finished => true
    case _ =>
      && Left(q.phase) >= 11 && q.decision.action == Policy.Execute && !Blocks(c, paused, q.analysis.risk)
  }

  /** The next action on the way to execution. */
  ghost function ReleaseAct(c: Config, s: State, q: Request): Act {
    if q.phase == Waiting then Receive else Way(c, s, q)
  }

  lemma ClearedStays(c: Config, s: State, q: Request)
    requires PathOk(c, q) && Cleared(c, q, s.paused) && Left(q.phase) > 1
    ensures var act := ReleaseAct(c, s, q);
            var env := EnvOf(s, q, act);
            && Fits(q, act) && Allowed(c, s, q, act) && act != Cancel && act != WriteRow(false) && !act.Verify?
            && act != VerifyFails
            && Left(Local(c, q, act, env).req.phase) < Left(q.phase)
            && Cleared(c, Local(c, q, act, env).req, s.paused)
  {
  }

  lemma MoveCleared(c: Config, s0: State, s: State, r: ReqId, unaided: bool) returns (t: State)
    requires Can(c, s0, s, unaided) && r in s.reqs && Cleared(c, s.reqs[r], s.paused) && Left(s.reqs[r].phase) > 1
    ensures Can(c, s0, t, unaided) && r in t.reqs && Cleared(c, t.reqs[r], t.paused)
    ensures Left(t.reqs[r].phase) < Left(s.reqs[r].phase) && t.reqs[r].input == s.reqs[r].input
  {
    var act := ReleaseAct(c, s, s.reqs[r]);
    RequestFacts(c, s0, s, r, unaided);
    ClearedStays(c, s, s.reqs[r]);
    t := Do(c, s0, s, r, act, unaided);
    StepSourced(c, s.reqs[r], act, EnvOf(s, s.reqs[r], act), |s.trace|);
  }

  lemma {:induction false} RunToExecution(c: Config, s0: State, s: State, r: ReqId, unaided: bool)
    returns (t: State)
    requires Can(c, s0, s, unaided) && r in s.reqs && Cleared(c, s.reqs[r], s.paused)
    ensures Can(c, s0, t, unaided) && r in t.reqs && MExecuted in t.reqs[r].at
    ensures t.reqs[r].input == s.reqs[r].input
    decreases Left(s.reqs[r].phase)
  {
    t := s;
    if Left(s.reqs[r].phase) <= 1 {
      RequestFacts(c, s0, s, r, unaided);
      assert MustHave(c, s.reqs[r], MExecuted);
    } else {
      t := MoveCleared(c, s0, s, r, unaided);
      t := RunToExecution(c, s0, t, r, unaided);
    }
  }

  /** Every run in which a request holds an approval, received or still in its channel, or needs none, and the
      gateway is not paused for its risk, extends without help to one in which the query is executed. */
  lemma ApprovedRequestCanRun(c: Config, states: seq<State>, steps: seq<Step>, r: ReqId)
    returns (longer: seq<State>, moves: seq<Step>)
    requires IsRun(c, states, steps) && r in states[|steps|].reqs
    requires Cleared(c, states[|steps|].reqs[r], states[|steps|].paused)
    ensures IsRun(c, longer, moves) && states <= longer && steps <= moves && UnaidedFrom(c, longer, moves, |steps|)
    ensures r in longer[|moves|].reqs && MExecuted in longer[|moves|].reqs[r].at
  {
    var s := states[|steps|];
    RunInv(c, states, steps, |steps|);
    Start(c, s, true);
    var t := RunToExecution(c, s, s, r, true);
    var course :| Leads(c, s, course, t, true);
    longer, moves := Continue(c, states, steps, course, t, true);
  }

  /** A request on its way to the wait, with a recovery point to verify if it needs one. */
  ghost predicate Hopeful(c: Config, s: State, q: Request) {
    && 8 <= Left(q.phase) <= 13 && q.decision.action == Policy.Approve && !Blocks(c, s.paused, q.analysis.risk)
    && (NeedsRecovery(c, q) && Left(q.phase) >= 10 ==> Verifiable(c, s, q))
  }

  lemma VerifiableStays(c: Config, s: State, q: Request, t: State, next: Request)
    requires Verifiable(c, s, q) && t.side == s.side && t.clock == s.clock
    requires next.analysis == q.analysis && next.input == q.input
    ensures Verifiable(c, t, next)
  {
    var listing :| Lists(s.side.store, listing) && Allowed(c, s, q, Verify(listing));
    assert RecoveryPoint(t, next, listing) == RecoveryPoint(s, q, listing);
    assert Allowed(c, t, next, Verify(listing));
  }

  lemma HopefulMoves(c: Config, q: Request, act: Act, env: Env, n: nat)
    requires Ready(c, q, act, env) && 8 <= Left(q.phase) <= 13 && q.decision.action == Policy.Approve
    requires !Blocks(c, env.paused, q.analysis.risk) && PathOk(c, q)
    requires act != VerifyFails && act != WriteRow(false) && act != CheckQuarantine(true)
    ensures var next := After(Local(c, q, act, env), n);
            && next.decision == q.decision && next.analysis == q.analysis && next.input == q.input
            && (8 <= Left(next.phase) < Left(q.phase) || next.phase == Waiting)
            && next.slot == q.slot
            && (Left(next.phase) >= 10 ==> Left(q.phase) >= 10)
  {
  }

  lemma MoveHopeful(c: Config, s0: State, s: State, r: ReqId) returns (t: State)
    requires Can(c, s0, s, false) && r in s.reqs && Hopeful(c, s, s.reqs[r]) && s.reqs[r].slot.None?
    ensures Can(c, s0, t, false) && r in t.reqs && t.reqs[r].slot.None? && t.paused == s.paused
    ensures t.reqs[r].analysis == s.reqs[r].analysis && t.reqs[r].input == s.reqs[r].input
    ensures t.reqs[r].phase == Waiting
            || (Hopeful(c, t, t.reqs[r]) && Left(t.reqs[r].phase) < Left(s.reqs[r].phase))
  {
    var q := s.reqs[r];
    var act := Way(c, s, q);
    RequestFacts(c, s0, s, r, false);
    WayIsOpen(c, s, r);
    t := Do(c, s0, s, r, act, false);
    HopefulMoves(c, q, act, EnvOf(s, q, act), |s.trace|);
    if NeedsRecovery(c, q) && Left(t.reqs[r].phase) >= 10 { VerifiableStays(c, s, q, t, t.reqs[r]); }
  }

  /** It gets as far as the wait. */
  lemma {:induction false} RunToWait(c: Config, s0: State, s: State, r: ReqId) returns (t: State)
    requires Can(c, s0, s, false) && r in s.reqs && Hopeful(c, s, s.reqs[r]) && s.reqs[r].slot.None?
    ensures Can(c, s0, t, false) && r in t.reqs && t.reqs[r].phase == Waiting && t.reqs[r].slot.None?
    ensures t.paused == s.paused && t.reqs[r].analysis == s.reqs[r].analysis && t.reqs[r].input == s.reqs[r].input
    decreases Left(s.reqs[r].phase)
  {
    t := MoveHopeful(c, s0, s, r);
    if t.reqs[r].phase != Waiting { t := RunToWait(c, s0, t, r); }
  }

  lemma {:induction false} FreshNumber(used: set<nat>) returns (n: nat)
    ensures forall k :: k in used ==> k < n
    decreases used
  {
    n := 0;
    if used != {} {
      var k :| k in used;
      n := FreshNumber(used - {k});
      assert forall j :: j in used ==> j == k || j in used - {k};
      if n <= k { n := k + 1; }
    }
  }

  /** An operator approves a waiting request. */
  lemma OperatorApproves(c: Config, s0: State, s: State, r: ReqId) returns (t: State)
    requires Can(c, s0, s, false) && r in s.reqs && s.reqs[r].phase == Waiting && s.reqs[r].slot.None?
    ensures Can(c, s0, t, false) && r in t.reqs && t.paused == s.paused
    ensures t.reqs[r].phase == Waiting && t.reqs[r].slot == Some(true)
    ensures t.reqs[r].analysis == s.reqs[r].analysis && t.reqs[r].input == s.reqs[r].input
  {
    var op := FreshNumber(s.signals.Keys);
    SharedFacts(c, s0, s, false);
    var loaded := Apply(c, s, Load(op, r, true));
    Take(c, s0, s, Load(op, r, true), loaded, false);
    t := Apply(c, loaded, Send(op));
    Take(c, s0, loaded, Send(op), t, false);
    CommitRecord(loaded, r, Accepts(s.reqs[r], true));
  }

  /** From every moment of every run, a query the policy does not block can still be submitted and executed:
      at once if no approval is needed, and else with an operator's approval, provided the gateway is not
      paused for its risk and a required recovery point can be verified. */
  lemma EveryAllowedQueryCanRun(c: Config, states: seq<State>, steps: seq<Step>, r: ReqId, input: Input)
    returns (longer: seq<State>, moves: seq<Step>)
    requires IsRun(c, states, steps) && r !in states[|steps|].reqs && !input.parse.EmptyText?
    requires var s, q := states[|steps|], NewRequest(c, input);
             && q.decision.action != Policy.Block
             && (s.paused ==> q.analysis.risk == Safe && !c.pauseBlocksSafe)
             && (q.decision.requiresRecovery && c.snapshotBeforeCritical ==> Verifiable(c, s, q))
    ensures IsRun(c, longer, moves) && states <= longer && steps <= moves
    ensures r in longer[|moves|].reqs && MExecuted in longer[|moves|].reqs[r].at
    ensures longer[|moves|].reqs[r].input == input
  {
    var s := states[|steps|];
    RunInv(c, states, steps, |steps|);
    Start(c, s, false);
    var t := Apply(c, s, Arrive(r, input));
    Take(c, s, s, Arrive(r, input), t, false);
    var q := t.reqs[r];
    if q.decision.action == Policy.Approve {
      if NeedsRecovery(c, q) { VerifiableStays(c, s, q, t, q); }
      t := RunToWait(c, s, t, r);
      t := OperatorApproves(c, s, t, r);
    }
    t := RunToExecution(c, s, t, r, false);
    var course :| Leads(c, s, course, t, false);
    longer, moves := Continue(c, states, steps, course, t, false);
  }
}
