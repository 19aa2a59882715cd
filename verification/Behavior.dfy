/** gateway/behavior.go: the risky-attempt window and agent quarantine. */
module Behavior {
  import opened Options
  import opened SqlAnalysis

  datatype AgentState = AgentState(attempts: nat, windowStart: int, until: Option<int>)

  datatype Limits = Limits(maxAttempts: int, quarantine: int, window: int, blocksSafe: bool)

  const DefaultLimits := Limits(3, 1800, 600, false)

  /** The agent state after one recorded attempt. */
  function Recorded(l: Limits, prior: Option<AgentState>, now: int): AgentState {
    var base := if prior.None? || now - prior.value.windowStart > l.window
                then AgentState(0, now, None) else prior.value;
    var counted := base.(attempts := base.attempts + 1);
    if counted.attempts >= l.maxAttempts then counted.(until := Some(now + l.quarantine)) else counted
  }

  predicate Quarantined(l: Limits, state: Option<AgentState>, risk: Risk, now: int) {
    && state.Some? && state.value.until.Some? && now <= state.value.until.value
    && (l.blocksSafe || risk != Safe)
  }

  function Lookup(agents: map<string, AgentState>, agent: string): Option<AgentState> {
    if agent in agents then Some(agents[agent]) else None
  }

  /** The `agent_state` table. */
  class AgentStates {
    var agents: map<string, AgentState>

    constructor ()
      ensures agents == map[]
    {
      agents := map[];
    }

    method AgentQuarantined(l: Limits, agent: string, risk: Risk, now: int) returns (blocked: bool)
      ensures blocked == Quarantined(l, Lookup(agents, agent), risk, now)
    {
      if agent !in agents || agents[agent].until.None? {
        return false;
      }
      if now > agents[agent].until.value {
        return false;
      }
      blocked := l.blocksSafe || risk != Safe;
    }

    /** `GetAgentState` */
    method Load(agent: string) returns (row: Option<AgentState>)
      ensures row == Lookup(agents, agent)
    {
      row := if agent in agents then Some(agents[agent]) else None;
    }

    /** `SaveAgentState`: a replacement of the whole row, whatever it holds by now. */
    method Save(agent: string, row: AgentState)
      modifies this
      ensures agents == old(agents)[agent := row]
    {
      agents := agents[agent := row];
    }

    /** Loads one agent's row, counts the attempt and saves the row. Load and save are separate calls to the
        store: `meanwhile` is the table as other requests have left it in between, and what they wrote to
        this agent's row is lost. No other row changes. */
    method RecordRiskAttempt(l: Limits, agent: string, risk: Risk, now: int, meanwhile: map<string, AgentState>)
      modifies this
      ensures agents == if risk == Safe then old(agents)
                        else meanwhile[agent := Recorded(l, Lookup(old(agents), agent), now)]
    {
      if risk == Safe {
        return;
      }
      var loaded := Load(agent);
      var state := AgentState(0, now, None);
      if loaded.Some? && now - loaded.value.windowStart <= l.window {
        state := loaded.value;
      }
      state := state.(attempts := state.attempts + 1);
      if state.attempts >= l.maxAttempts {
        state := state.(until := Some(now + l.quarantine));
      }
      agents := meanwhile;
      Save(agent, state);
    }
  }

  // ---- runs of one agent, one request at a time ---------------------------------------------------

  /** One request: when it arrives, its risk, and when its refusal is recorded as a risky attempt. */
  datatype Visit = Visit(arrived: int, risk: Risk, recorded: Option<int>)

  predicate Records(l: Limits, state: Option<AgentState>, v: Visit) {
    !Quarantined(l, state, v.risk, v.arrived) && v.risk != Safe && v.recorded.Some?
  }

  function Handle(l: Limits, state: Option<AgentState>, v: Visit): Option<AgentState> {
    if Records(l, state, v) then Some(Recorded(l, state, v.recorded.value)) else state
  }

  function StateAfter(l: Limits, visits: seq<Visit>): Option<AgentState> {
    if visits == [] then None
    else Handle(l, StateAfter(l, visits[..|visits| - 1]), visits[|visits| - 1])
  }

  /** When the risky attempts of the run were recorded. */
  function AttemptTimes(l: Limits, visits: seq<Visit>): seq<int> {
    if visits == [] then []
    else
      var rest, v := visits[..|visits| - 1], visits[|visits| - 1];
      AttemptTimes(l, rest) + if Records(l, StateAfter(l, rest), v) then [v.recorded.value] else []
  }

  function Departed(v: Visit): int {
    if v.recorded.Some? then v.recorded.value else v.arrived
  }

  /** A monotone clock, and each request finished before the next one arrives. */
  ghost predicate Sequential(visits: seq<Visit>) {
    && (forall i :: 0 <= i < |visits| ==> visits[i].arrived <= Departed(visits[i]))
    && (forall i :: 0 < i < |visits| ==> Departed(visits[i - 1]) <= visits[i].arrived)
  }

  function CountFrom(times: seq<int>, start: int): nat {
    if times == [] then 0
    else CountFrom(times[..|times| - 1], start) + if times[|times| - 1] >= start then 1 else 0
  }

  lemma {:induction false} CountNone(times: seq<int>, start: int)
    requires forall i :: 0 <= i < |times| ==> times[i] < start
    ensures CountFrom(times, start) == 0
  {
    if times != [] { CountNone(times[..|times| - 1], start); }
  }

  /** What the stored row means, in terms of the recorded attempts alone. */
  ghost predicate Explains(l: Limits, state: Option<AgentState>, times: seq<int>) {
    && (state.None? <==> times == [])
    && (state.Some? ==>
          var s := state.value;
          && s.attempts == CountFrom(times, s.windowStart)
          && (forall i :: 0 <= i < |times| ==> times[i] <= s.windowStart + l.window)
          && s.windowStart in times
          && (s.until.Some? <==> s.attempts >= l.maxAttempts)
          && (s.until.Some? ==> s.until.value == times[|times| - 1] + l.quarantine))
  }

  lemma RecordExplains(l: Limits, state: Option<AgentState>, times: seq<int>, now: int)
    requires l.window >= 0 && Explains(l, state, times)
    requires forall i :: 0 <= i < |times| ==> times[i] <= now
    ensures Explains(l, Some(Recorded(l, state, now)), times + [now])
  {
    var more := times + [now];
    var s := Recorded(l, state, now);
    assert more[..|times|] == times;
    assert more[|times|] == now;
    if state.None? || now - state.value.windowStart > l.window {
      CountNone(times, now);
    }
  }

  lemma {:induction false} TimesArePast(l: Limits, visits: seq<Visit>, now: int)
    requires Sequential(visits) && (visits != [] ==> Departed(visits[|visits| - 1]) <= now)
    ensures forall i :: 0 <= i < |AttemptTimes(l, visits)| ==> AttemptTimes(l, visits)[i] <= now
  {
    if visits != [] {
      var rest := visits[..|visits| - 1];
      if rest != [] { assert rest[|rest| - 1] == visits[|visits| - 2]; }
      TimesArePast(l, rest, now);
    }
  }

  /** In every run handled one request at a time, the stored count is the number of risky attempts
      recorded at or after the window start, all of them within the window, and the agent is
      quarantined exactly when that count has reached the maximum, from the last attempt on. */
  lemma {:induction false} CountIsExact(l: Limits, visits: seq<Visit>)
    requires l.window >= 0 && Sequential(visits)
    ensures Explains(l, StateAfter(l, visits), AttemptTimes(l, visits))
  {
    if visits != [] {
      var rest, v := visits[..|visits| - 1], visits[|visits| - 1];
      CountIsExact(l, rest);
      if Records(l, StateAfter(l, rest), v) {
        if rest != [] { assert rest[|rest| - 1] == visits[|visits| - 2]; }
        TimesArePast(l, rest, v.recorded.value);
        RecordExplains(l, StateAfter(l, rest), AttemptTimes(l, rest), v.recorded.value);
      } else {
        assert AttemptTimes(l, visits) == AttemptTimes(l, rest);
      }
    }
  }

  /** From the moment a quarantine is set until its end, inclusive, every non-SAFE request is refused
      and the stored row does not change. */
  lemma {:induction false} QuarantineHolds(l: Limits, visits: seq<Visit>, n: nat, until: int)
    requires n <= |visits| && StateAfter(l, visits[..n]).Some?
    requires StateAfter(l, visits[..n]).value.until == Some(until)
    requires forall i :: n <= i < |visits| ==> visits[i].arrived <= until
    ensures StateAfter(l, visits) == StateAfter(l, visits[..n])
    ensures forall i :: n <= i < |visits| && visits[i].risk != Safe ==>
              Quarantined(l, StateAfter(l, visits[..i]), visits[i].risk, visits[i].arrived)
  {
    if n == |visits| {
      assert visits[..n] == visits;
    } else {
      var m := |visits| - 1;
      var rest := visits[..m];
      assert rest[..n] == visits[..n];
      QuarantineHolds(l, rest, n, until);
      forall i | n <= i < |visits| && visits[i].risk != Safe
        ensures Quarantined(l, StateAfter(l, visits[..i]), visits[i].risk, visits[i].arrived)
      {
        if i < m { assert rest[..i] == visits[..i] && rest[i] == visits[i]; }
      }
    }
  }

  // ---- overlapping requests of one agent ------------------------------------------------------------

  /** What a request that is recording an attempt has loaded, and when. */
  datatype Loaded = Loaded(row: Option<AgentState>, at: int)

  /** One agent's row, and the requests between their load and their save. */
  datatype Shared = Shared(row: Option<AgentState>, loads: map<nat, Loaded>)

  datatype Move = Fetch(job: nat, now: int) | Store(job: nat)

  /** The row a save writes. */
  function Written(l: Limits, load: Loaded): AgentState {
    Recorded(l, load.row, load.at)
  }

  /** A store without a load, or a second load of the same request, does nothing. */
  function Moved(l: Limits, s: Shared, m: Move): Shared {
    match m
    case Fetch(job, now) => if job in s.loads then s else s.(loads := s.loads[job := Loaded(s.row, now)])
    case Store(job) =>
      if job !in s.loads then s else Shared(Some(Written(l, s.loads[job])), s.loads - {job})
  }

  /** The state after any interleaving of loads and saves. */
  function SharedAfter(l: Limits, moves: seq<Move>): Shared {
    if moves == [] then Shared(None, map[])
    else Moved(l, SharedAfter(l, moves[..|moves| - 1]), moves[|moves| - 1])
  }

  /** A load followed at once by its save is the record of a request handled alone. */
  lemma AloneIsRecord(l: Limits, s: Shared, job: nat, now: int)
    requires job !in s.loads
    ensures Moved(l, Moved(l, s, Fetch(job, now)), Store(job)) == Shared(Some(Recorded(l, s.row, now)), s.loads)
  {
    assert s.loads[job := Loaded(s.row, now)] - {job} == s.loads;
  }

  predicate RowOk(l: Limits, row: Option<AgentState>) {
    row.Some? ==> (row.value.until.Some? <==> row.value.attempts >= l.maxAttempts)
  }

  /** In every interleaving, each row stored or loaded carries a quarantine exactly when its count has
      reached the maximum. */
  lemma {:induction false} RowsStayOk(l: Limits, moves: seq<Move>)
    ensures var s := SharedAfter(l, moves);
            RowOk(l, s.row) && forall job :: job in s.loads ==> RowOk(l, s.loads[job].row)
  {
    if moves != [] { RowsStayOk(l, moves[..|moves| - 1]); }
  }

  /** Recording on top of the loaded row reaches the maximum: its window is still open and it is one attempt
      short at most, or one attempt is enough. */
  predicate ReachesMaximum(l: Limits, load: Loaded) {
    || l.maxAttempts <= 1
    || (&& load.row.Some? && load.at - load.row.value.windowStart <= l.window
        && load.row.value.attempts + 1 >= l.maxAttempts)
  }

  /** Whether a move leaves a quarantine in force at `now` in force: every move does but a save, and that
      one only if what its request had loaded reaches the maximum, and not too long ago. */
  predicate KeepsQuarantine(l: Limits, s: Shared, m: Move, now: int) {
    m.Store? && m.job in s.loads ==>
      ReachesMaximum(l, s.loads[m.job]) && now <= s.loads[m.job].at + l.quarantine
  }

  /** Exactly when a quarantine survives one move of an overlapping request, in every interleaving. */
  lemma OverlapKeepsQuarantine(l: Limits, moves: seq<Move>, m: Move, risk: Risk, now: int)
    requires risk != Safe && Quarantined(l, SharedAfter(l, moves).row, risk, now)
    ensures Quarantined(l, Moved(l, SharedAfter(l, moves), m).row, risk, now)
            <==> KeepsQuarantine(l, SharedAfter(l, moves), m, now)
  {
    RowsStayOk(l, moves);
  }

  ghost predicate InForce(l: Limits, moves: seq<Move>, n: int, risk: Risk, now: int)
    requires 0 <= n <= |moves|
  {
    Quarantined(l, SharedAfter(l, moves[..n]).row, risk, now)
  }

  ghost predicate KeptBy(l: Limits, moves: seq<Move>, n: int, now: int)
    requires 0 <= n < |moves|
  {
    KeepsQuarantine(l, SharedAfter(l, moves[..n]), moves[n], now)
  }

  lemma NextMove(l: Limits, moves: seq<Move>, n: nat, risk: Risk, now: int)
    requires risk != Safe && n < |moves| && InForce(l, moves, n, risk, now)
    ensures InForce(l, moves, n + 1, risk, now) <==> KeptBy(l, moves, n, now)
  {
    assert moves[..n + 1][..n] == moves[..n];
    OverlapKeepsQuarantine(l, moves[..n], moves[n], risk, now);
  }

  lemma {:induction false} StaysInForce(l: Limits, moves: seq<Move>, p: nat, n: nat, risk: Risk, now: int)
    requires risk != Safe && p <= n <= |moves| && InForce(l, moves, p, risk, now)
    requires forall k :: p <= k < n ==> KeptBy(l, moves, k, now)
    ensures InForce(l, moves, n, risk, now)
    decreases n
  {
    if p < n {
      StaysInForce(l, moves, p, n - 1, risk, now);
      NextMove(l, moves, n - 1, risk, now);
    }
  }

  /** ... and over whole interleavings: a quarantine in force after `p` moves is in force after every further
      one exactly when each save among them keeps it. */
  lemma QuarantineSurvives(l: Limits, moves: seq<Move>, p: nat, risk: Risk, now: int)
    requires risk != Safe && p <= |moves| && InForce(l, moves, p, risk, now)
    ensures (forall n :: p <= n <= |moves| ==> InForce(l, moves, n, risk, now))
            <==> forall n :: p <= n < |moves| ==> KeptBy(l, moves, n, now)
  {
    if forall n :: p <= n <= |moves| ==> InForce(l, moves, n, risk, now) {
      forall n | p <= n < |moves| ensures KeptBy(l, moves, n, now) {
        assert InForce(l, moves, n + 1, risk, now);
        NextMove(l, moves, n, risk, now);
      }
    }
    if forall n :: p <= n < |moves| ==> KeptBy(l, moves, n, now) {
      forall n | p <= n <= |moves| ensures InForce(l, moves, n, risk, now) {
        StaysInForce(l, moves, p, n, risk, now);
      }
    }
  }

  /** A request that has loaded the quarantined row itself keeps the quarantine exactly when the counting
      window is still open, or one attempt sets it again. */
  lemma FreshLoadKeepsQuarantine(l: Limits, state: AgentState, risk: Risk, now: int)
    requires state.until.Some? && now <= state.until.value && state.attempts >= l.maxAttempts
    requires l.quarantine >= 0 && risk != Safe
    ensures Quarantined(l, Some(Recorded(l, Some(state), now)), risk, now)
            <==> now - state.windowStart <= l.window || l.maxAttempts <= 1
  {
  }

  /** With the default limits: attempts at 0, 598 and 599 quarantine the agent until 2399, and the
      timeout of a request admitted at 599, recorded at 899, lifts the quarantine. */
  lemma OverlapLiftsQuarantine()
    ensures var quarantined := Recorded(DefaultLimits,
              Some(Recorded(DefaultLimits, Some(Recorded(DefaultLimits, None, 0)), 598)), 599);
            && quarantined == AgentState(3, 0, Some(2399))
            && Recorded(DefaultLimits, Some(quarantined), 899) == AgentState(1, 899, None)
  {
  }

  /** A lost update does so with the window still open: one request loads the row after the first attempt,
      two others record at 100 and 101 and quarantine the agent until 1901, and the first one's save
      restores a row without quarantine, so that a HIGH request at 102 is admitted. */
  lemma LostUpdateLiftsQuarantine()
    ensures var l := DefaultLimits;
            var one := Moved(l, Moved(l, Shared(None, map[]), Fetch(0, 0)), Store(0));
            var open := Moved(l, one, Fetch(1, 99));
            var two := Moved(l, Moved(l, open, Fetch(2, 100)), Store(2));
            var three := Moved(l, Moved(l, two, Fetch(3, 101)), Store(3));
            var lifted := Moved(l, three, Store(1));
            && three.row == Some(AgentState(3, 0, Some(1901))) && Quarantined(l, three.row, High, 102)
            && lifted.row == Some(AgentState(2, 0, None)) && !Quarantined(l, lifted.row, High, 102)
  {
  }
}
