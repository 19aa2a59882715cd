/** Every step of the release protocol keeps its invariant. */
module GatewaySteps {
  import opened Options
  import opened Gateway
  import opened GatewayInvariant
  import Policy

  /** What the environment must offer a step: a verified recovery point for the right table. */
  ghost predicate EnvOk(c: Config, q: Request, act: Act, env: Env) {
    act.Verify? ==>
      && env.point.Found?
      && Policy.RecoveryTable(q.analysis) == Some(env.point.manifest.table)
      && env.point.manifest.snapshotId == q.input.snapshotId
      && Fresh(c, env.point.manifest, env.clock)
  }

  // Each aspect of the invariant is kept on its own; the step lists only keep the queries small.

  predicate EarlyAct(act: Act) {
    act.CheckPause? || act.CheckQuarantine? || act.Dispatch? || act.Verify? || act.VerifyFails?
  }

  predicate MiddleAct(act: Act) {
    act.WriteRow? || act.Enroll? || act.Receive? || act.Expire? || act.Cancel? || act.Unenroll?
  }

  ghost predicate Ready(c: Config, q: Request, act: Act, env: Env) {
    Fits(q, act) && EnvOk(c, q, act, env)
  }

  lemma StepEvent(c: Config, q: Request, act: Act, env: Env, r: ReqId)
    requires Ready(c, q, act, env) && PathOk(c, q)
    ensures var e := Local(c, q, act, env);
            e.mark.Some? ==> EventOk(c, e.req, Event(r, e.mark.value, env.paused, e.flag))
  {
  }

  /** A moment a request's phase does not allow yet is new, and nothing that must come later has
      been recorded. */
  lemma FreshMark(c: Config, q: Request, k: Mark)
    requires MarksOk(c, q) && !MayHave(q.phase, k) && k != MAccepted && q.phase != RefusalFinished
    ensures k !in q.at && forall k' :: k' in q.at ==> !Before(k, k')
  {
    forall k' | k' in q.at ensures !Before(k, k') {
      assert MayHave(q.phase, k');
    }
  }

  lemma StepMark(c: Config, q: Request, act: Act, env: Env)
    requires Ready(c, q, act, env)
    ensures var e := Local(c, q, act, env);
            e.mark.Some? ==> !MayHave(q.phase, e.mark.value) && e.mark.value != MAccepted && q.phase != RefusalFinished
  {
  }

  lemma StepHistory(c: Config, q: Request, act: Act, env: Env)
    requires Ready(c, q, act, env) && (MAudited in q.at ==> MayHave(q.phase, MAudited))
    ensures var e := Local(c, q, act, env);
            && e.req.at == q.at && e.req.analysis == q.analysis && e.req.accepted == q.accepted
            && (MAudited in q.at ==> Live(e.req.phase) == Live(q.phase))
  {
  }

  lemma StepSane(c: Config, q: Request, act: Act, env: Env)
    requires Ready(c, q, act, env) && MarksOk(c, q)
    ensures Sane(q, Local(c, q, act, env))
  {
    var e := Local(c, q, act, env);
    StepHistory(c, q, act, env);
    StepMark(c, q, act, env);
    if e.mark.Some? {
      FreshMark(c, q, e.mark.value);
    }
  }

  lemma EarlyChannel(c: Config, q: Request, act: Act, env: Env, n: nat)
    requires EarlyAct(act) && Ready(c, q, act, env) && ChannelOk(q)
    ensures ChannelOk(After(Local(c, q, act, env), n))
  {
    if act.Verify? || act.VerifyFails? { VerifyChannel(c, q, act, env, n); } else { FirstChannel(c, q, act, env, n); }
  }

  lemma FirstChannel(c: Config, q: Request, act: Act, env: Env, n: nat)
    requires (act.CheckPause? || act.CheckQuarantine? || act.Dispatch?) && Ready(c, q, act, env) && ChannelOk(q)
    ensures ChannelOk(After(Local(c, q, act, env), n))
  {
  }

  lemma VerifyChannel(c: Config, q: Request, act: Act, env: Env, n: nat)
    requires (act.Verify? || act.VerifyFails?) && Ready(c, q, act, env) && ChannelOk(q)
    ensures ChannelOk(After(Local(c, q, act, env), n))
  {
  }

  lemma MiddleChannel(c: Config, q: Request, act: Act, env: Env, n: nat)
    requires MiddleAct(act) && Ready(c, q, act, env) && MarksOk(c, q) && ChannelOk(q)
    ensures ChannelOk(After(Local(c, q, act, env), n))
  {
  }

  lemma LateChannel(c: Config, q: Request, act: Act, env: Env, n: nat)
    requires !EarlyAct(act) && !MiddleAct(act) && Ready(c, q, act, env) && MarksOk(c, q) && ChannelOk(q)
    ensures ChannelOk(After(Local(c, q, act, env), n))
  {
  }

  lemma EarlyMarks(c: Config, q: Request, act: Act, env: Env, n: nat)
    requires EarlyAct(act) && Ready(c, q, act, env) && MarksOk(c, q) && PathOk(c, q)
    ensures MarksOk(c, After(Local(c, q, act, env), n))
  {
  }

  lemma MiddleMarks(c: Config, q: Request, act: Act, env: Env, n: nat)
    requires MiddleAct(act) && Ready(c, q, act, env) && MarksOk(c, q) && PathOk(c, q)
    ensures MarksOk(c, After(Local(c, q, act, env), n))
  {
  }

  lemma LogMarks(c: Config, q: Request, act: Act, env: Env, n: nat)
    requires act.Log? && Ready(c, q, act, env) && MarksOk(c, q) && PathOk(c, q)
    ensures MarksOk(c, After(Local(c, q, act, env), n))
  {
  }

  lemma FinalMarks(c: Config, q: Request, act: Act, env: Env, n: nat)
    requires (act.Run? || act.Count?) && Ready(c, q, act, env) && MarksOk(c, q) && PathOk(c, q)
    ensures MarksOk(c, After(Local(c, q, act, env), n))
  {
  }

  lemma LateMarks(c: Config, q: Request, act: Act, env: Env, n: nat)
    requires (act.Resume? || act.Recheck?) && Ready(c, q, act, env) && MarksOk(c, q) && PathOk(c, q)
    ensures MarksOk(c, After(Local(c, q, act, env), n))
  {
  }

  lemma EarlyPath(c: Config, q: Request, act: Act, env: Env, n: nat)
    requires EarlyAct(act) && Ready(c, q, act, env) && PathOk(c, q)
    ensures PathOk(c, After(Local(c, q, act, env), n))
  {
  }

  lemma MiddlePath(c: Config, q: Request, act: Act, env: Env, n: nat)
    requires MiddleAct(act) && Ready(c, q, act, env) && PathOk(c, q)
    ensures PathOk(c, After(Local(c, q, act, env), n))
  {
  }

  lemma LatePath(c: Config, q: Request, act: Act, env: Env, n: nat)
    requires !EarlyAct(act) && !MiddleAct(act) && Ready(c, q, act, env) && PathOk(c, q)
    ensures PathOk(c, After(Local(c, q, act, env), n))
  {
  }

  lemma StepSourced(c: Config, q: Request, act: Act, env: Env, n: nat)
    requires Ready(c, q, act, env)
    ensures var q' := After(Local(c, q, act, env), n);
            q'.input == q.input && q'.analysis == q.analysis && q'.decision == q.decision
  {
  }

  /** The recorded times stay meaningful: early actions set none but the check, Enroll begins the wait and
      Receive ends it before its timer. */
  lemma EarlyTimed(c: Config, q: Request, act: Act, env: Env, n: nat)
    requires EarlyAct(act) && !act.Verify? && Ready(c, q, act, env) && Timed(c, q, env.clock)
    ensures Timed(c, After(Local(c, q, act, env), n), env.clock)
  {
  }

  lemma VerifyTimed(c: Config, q: Request, act: Act, env: Env, n: nat)
    requires act.Verify? && Ready(c, q, act, env) && MarksOk(c, q) && Timed(c, q, env.clock)
    ensures Timed(c, After(Local(c, q, act, env), n), env.clock)
  {
    assert MStored in q.at ==> MayHave(q.phase, MStored);
    assert MConsumed in q.at ==> MayHave(q.phase, MConsumed);
  }

  lemma MiddleTimed(c: Config, q: Request, act: Act, env: Env, n: nat)
    requires MiddleAct(act) && Ready(c, q, act, env) && MarksOk(c, q) && PathOk(c, q) && Timed(c, q, env.clock)
    requires q.phase == Waiting ==> env.clock <= q.waitFrom + c.timeout
    ensures Timed(c, After(Local(c, q, act, env), n), env.clock)
  {
    assert act.Enroll? && NeedsRecovery(c, q) ==> MustHave(c, q, MVerified);
    assert act.Receive? ==> MustHave(c, q, MStored);
  }

  lemma LateTimed(c: Config, q: Request, act: Act, env: Env, n: nat)
    requires !EarlyAct(act) && !MiddleAct(act) && Ready(c, q, act, env) && Timed(c, q, env.clock)
    ensures Timed(c, After(Local(c, q, act, env), n), env.clock)
  {
  }

  lemma StepTimed(c: Config, q: Request, act: Act, env: Env, n: nat)
    requires Ready(c, q, act, env) && ReqOk(c, q) && Timed(c, q, env.clock)
    requires q.phase == Waiting ==> env.clock <= q.waitFrom + c.timeout
    ensures Timed(c, After(Local(c, q, act, env), n), env.clock)
  {
    if act.Verify? {
      VerifyTimed(c, q, act, env, n);
    } else if EarlyAct(act) {
      EarlyTimed(c, q, act, env, n);
    } else if MiddleAct(act) {
      MiddleTimed(c, q, act, env, n);
    } else {
      LateTimed(c, q, act, env, n);
    }
  }

  /** One step of a request keeps everything its record promises. */
  lemma StepReqOk(c: Config, q: Request, act: Act, env: Env, n: nat)
    requires Ready(c, q, act, env) && ReqOk(c, q)
    ensures Sane(q, Local(c, q, act, env))
    ensures ReqOk(c, After(Local(c, q, act, env), n))
  {
    StepSane(c, q, act, env);
    StepSourced(c, q, act, env, n);
    if EarlyAct(act) {
      EarlyChannel(c, q, act, env, n);
      EarlyMarks(c, q, act, env, n);
      EarlyPath(c, q, act, env, n);
    } else if MiddleAct(act) {
      MiddleChannel(c, q, act, env, n);
      MiddleMarks(c, q, act, env, n);
      MiddlePath(c, q, act, env, n);
    } else {
      LateChannel(c, q, act, env, n);
      if act.Resume? || act.Recheck? { LateMarks(c, q, act, env, n); }
      if act.Log? { LogMarks(c, q, act, env, n); }
      if act.Run? || act.Count? { FinalMarks(c, q, act, env, n); }
      LatePath(c, q, act, env, n);
    }
  }
}
