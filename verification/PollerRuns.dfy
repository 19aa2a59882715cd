/** What the poller's counters mean over whole runs. */
module PollerRuns {
  import opened Options
  import opened Poller

  /** The first poll of a run is the startup poll. */
  function StateAfter(cfg: Config, run: seq<Scan>): State {
    if run == [] then Init
    else PollNext(cfg, StateAfter(cfg, run[..|run| - 1]), run[|run| - 1], |run| == 1)
  }

  /** A successful, unpaused poll: it also reads the fingerprints. */
  predicate Effective(cfg: Config, scan: Scan) {
    Observes(cfg, scan) && scan.prints.Some?
  }

  /** The fingerprints of `t` over the successful unpaused polls of the run. */
  function History(cfg: Config, run: seq<Scan>, t: string): seq<string> {
    if run == [] then []
    else
      var scan := run[|run| - 1];
      History(cfg, run[..|run| - 1], t) + if Effective(cfg, scan) then [Print(scan.prints.value, t)] else []
  }

  /** Both catalogue reads of every poll agree on whether `t` exists. */
  ghost predicate Agree(cfg: Config, run: seq<Scan>, t: string) {
    forall i :: 0 <= i < |run| && Effective(cfg, run[i]) ==>
      (t in Monitored(cfg, run[i]) <==> Print(run[i].prints.value, t) != "")
  }

  /** The last `n` fingerprints are all `f`. */
  ghost predicate Steady(h: seq<string>, f: string, n: nat) {
    n <= |h| && forall i :: |h| - n <= i < |h| ==> h[i] == f
  }

  function LastOf(h: seq<string>): string {
    if h == [] then "" else h[|h| - 1]
  }

  /** The stored fingerprint is the last one read, and the counter counts its repetitions. */
  ghost predicate Counted(cfg: Config, run: seq<Scan>, t: string) {
    var s, h := StateAfter(cfg, run), History(cfg, run, t);
    Print(s.prints, t) == LastOf(h) && (LastOf(h) != "" ==> Steady(h, LastOf(h), At(s, t).stable + 1))
  }

  lemma SteadyGrows(h: seq<string>, f: string, n: nat)
    requires Steady(h, f, n)
    ensures Steady(h + [f], f, n + 1)
  {
  }

  /** The entry's counter after an effective poll that visits the table. */
  lemma VisitedCount(cfg: Config, s: State, scan: Scan, startup: bool, t: string)
    requires Effective(cfg, scan) && t in Monitored(cfg, scan) && !(startup && !cfg.onStart)
    ensures At(PollNext(cfg, s, scan, startup), t).stable
         == StableCount(cfg, scan.prints, Print(s.prints, t), t, At(s, t).stable)
  {
    PollEntries(cfg, s, scan, startup);
  }

  lemma UnobservedKeeps(cfg: Config, s: State, scan: Scan, startup: bool, t: string)
    requires !cfg.everyPoll && !Effective(cfg, scan)
    ensures PollNext(cfg, s, scan, startup).prints == s.prints
    ensures At(PollNext(cfg, s, scan, startup), t).stable == At(s, t).stable
  {
    if Observes(cfg, scan) { PollEntries(cfg, s, scan, startup); }
  }

  lemma {:induction false} CountsAreHistory(cfg: Config, run: seq<Scan>, t: string)
    requires !cfg.everyPoll && Agree(cfg, run, t)
    ensures Counted(cfg, run, t)
  {
    if run != [] {
      var past, scan := run[..|run| - 1], run[|run| - 1];
      var s := StateAfter(cfg, past);
      CountsAreHistory(cfg, past, t);
      if Effective(cfg, scan) {
        EffectiveStep(cfg, run, t);
      } else {
        UnobservedKeeps(cfg, s, scan, |run| == 1, t);
        assert History(cfg, run, t) == History(cfg, past, t);
      }
    }
  }

  lemma EffectiveStep(cfg: Config, run: seq<Scan>, t: string)
    requires !cfg.everyPoll && Agree(cfg, run, t) && run != [] && Effective(cfg, run[|run| - 1])
    requires Counted(cfg, run[..|run| - 1], t)
    ensures Counted(cfg, run, t)
  {
    var past, scan := run[..|run| - 1], run[|run| - 1];
    var s, startup := StateAfter(cfg, past), |run| == 1;
    var h, f := History(cfg, past, t), Print(scan.prints.value, t);
    assert History(cfg, run, t) == h + [f];
    if f != "" {
      if startup && !cfg.onStart {
        PollEntries(cfg, s, scan, startup);
      } else {
        VisitedCount(cfg, s, scan, startup, t);
        if LastOf(h) == f { SteadyGrows(h, f, At(s, t).stable + 1); }
      }
    }
  }

  /** The state in which the next poll finds a table, and what it decides. */
  function Decision(cfg: Config, run: seq<Scan>, scan: Scan, t: string): Action {
    var s := StateAfter(cfg, run);
    ActionFor(cfg, scan, run == [], IsAdded(s, t), Print(s.prints, t), t, At(s, t))
  }

  predicate JudgedStable(cfg: Config, run: seq<Scan>, scan: Scan, t: string) {
    var s := StateAfter(cfg, run);
    Stable(cfg, scan.prints, Print(s.prints, t), t, At(s, t).stable)
  }

  /** A table judged stable has shown one non-empty fingerprint over the last `minStable` + 1 successful
      unpaused polls, this one included. */
  lemma StableMeansSteady(cfg: Config, run: seq<Scan>, scan: Scan, t: string)
    requires !cfg.everyPoll && cfg.minStable >= 1 && Agree(cfg, run, t)
    requires Effective(cfg, scan) && JudgedStable(cfg, run, scan, t)
    ensures var f := Print(scan.prints.value, t);
            f != "" && Steady(History(cfg, run + [scan], t), f, cfg.minStable + 1)
  {
    var s, h, f := StateAfter(cfg, run), History(cfg, run, t), Print(scan.prints.value, t);
    CountsAreHistory(cfg, run, t);
    SteadyGrows(h, f, At(s, t).stable + 1);
    assert (run + [scan])[..|run|] == run;
    assert History(cfg, run + [scan], t) == h + [f];
  }

  /** Hence a stable table is never a changed one, and an effective poll treats a known table in exactly
      one of three ways: the documented re-capture of changed tables cannot happen. */
  lemma ThreeWays(cfg: Config, run: seq<Scan>, scan: Scan, t: string)
    requires !cfg.everyPoll && cfg.minStable >= 1 && run != [] && cfg.engine
    requires Effective(cfg, scan) && !IsAdded(StateAfter(cfg, run), t)
    ensures var s := StateAfter(cfg, run);
            var stable, e := JudgedStable(cfg, run, scan, t), At(s, t);
            && (stable ==> !Changed(scan.prints, Print(s.prints, t), t))
            && (Decision(cfg, run, scan, t) == Capture <==> stable && (e.latest.None? || e.failures > 0))
            && (Decision(cfg, run, scan, t) == Reverify <==> stable && e.latest.Some? && e.failures == 0)
            && (Decision(cfg, run, scan, t) == Defer <==> !stable)
  {
  }

  /** Exactly when a poll captures a table because it changed: README.md:332's trigger is a failed read of the
      fingerprints, and nothing else. */
  lemma ChangedIsCapturedOnErrorOnly(cfg: Config, run: seq<Scan>, scan: Scan, t: string)
    requires !cfg.everyPoll && cfg.minStable >= 1 && cfg.engine && run != []
    requires Observes(cfg, scan) && !IsAdded(StateAfter(cfg, run), t)
    ensures Decision(cfg, run, scan, t) == Capture && Changed(scan.prints, Print(StateAfter(cfg, run).prints, t), t)
            <==> scan.prints.None?
  {
  }

  /** Exactly when the startup poll captures a table. */
  lemma StartupCapturesOnErrorOnly(cfg: Config, scan: Scan, t: string)
    requires !cfg.everyPoll && cfg.minStable >= 1
    ensures Decision(cfg, [], scan, t) == Capture <==> cfg.onStart && scan.prints.None?
  {
  }

  /** A table without a fingerprint from an earlier poll, such as one that has just appeared, is captured only
      when the fingerprints cannot be read. */
  lemma NothingNewIsCaptured(cfg: Config, run: seq<Scan>, scan: Scan, t: string)
    requires !cfg.everyPoll && cfg.minStable >= 1 && Agree(cfg, run, t) && Observes(cfg, scan)
    requires LastOf(History(cfg, run, t)) == ""
    ensures Decision(cfg, run, scan, t) == Capture <==> scan.prints.None? && (run == [] ==> cfg.onStart)
    ensures scan.prints.Some? ==> Decision(cfg, run, scan, t) == Defer
  {
    CountsAreHistory(cfg, run, t);
  }

  // ---- recovery points of changing tables ------------------------------------------------------------

  /** The table is there and, if its recovery point is looked at, it verifies and is recorded. */
  predicate Present(cfg: Config, scan: Scan, t: string) {
    Observes(cfg, scan) ==>
      t in Monitored(cfg, scan) && t in scan.verifies && (cfg.metadata ==> t in scan.recorded)
  }

  /** ... and its fingerprint can be read. */
  predicate Untroubled(cfg: Config, scan: Scan, t: string) {
    Present(cfg, scan, t) && (Observes(cfg, scan) ==> scan.prints.Some?)
  }

  predicate Known(s: State, t: string) {
    s.seeded && t in s.known
  }

  predicate Protected(s: State, t: string, id: string) {
    && Known(s, t) && At(s, t).failures == 0
    && At(s, t).latest.Some? && At(s, t).latest.value.id == id
    && At(s, t).latest.value.status == "valid" && At(s, t).latest.value.checksummed
  }

  lemma StateAfterOne(cfg: Config, run: seq<Scan>, scan: Scan)
    ensures StateAfter(cfg, run + [scan]) == PollNext(cfg, StateAfter(cfg, run), scan, run == [])
  {
    assert (run + [scan])[..|run|] == run;
  }

  lemma UntroubledStep(cfg: Config, s: State, scan: Scan, t: string, id: string)
    requires !cfg.everyPoll && cfg.minStable >= 1 && cfg.engine
    requires Protected(s, t, id) && Untroubled(cfg, scan, t)
    ensures Protected(PollNext(cfg, s, scan, false), t, id)
  {
    if Observes(cfg, scan) { PollEntries(cfg, s, scan, false); }
  }

  /** Once a table has a recovery point, polls without errors never take another, however often its
      contents change. */
  lemma {:induction false} ChangesAreNotRecaptured(cfg: Config, run: seq<Scan>, more: seq<Scan>, t: string,
                                                   id: string)
    requires !cfg.everyPoll && cfg.minStable >= 1 && cfg.engine && run != []
    requires Protected(StateAfter(cfg, run), t, id)
    requires forall i :: 0 <= i < |more| ==> Untroubled(cfg, more[i], t)
    ensures Protected(StateAfter(cfg, run + more), t, id)
  {
    if more == [] {
      assert run + more == run;
    } else {
      var n := |more| - 1;
      ChangesAreNotRecaptured(cfg, run, more[..n], t, id);
      assert run + more == run + more[..n] + [more[n]];
      StateAfterOne(cfg, run + more[..n], more[n]);
      UntroubledStep(cfg, StateAfter(cfg, run + more[..n]), more[n], t, id);
    }
  }

  lemma {:induction false} StaysKnown(cfg: Config, run: seq<Scan>, more: seq<Scan>, t: string)
    requires Known(StateAfter(cfg, run), t) && forall i :: 0 <= i < |more| ==> Present(cfg, more[i], t)
    ensures Known(StateAfter(cfg, run + more), t)
  {
    if more == [] {
      assert run + more == run;
    } else {
      var n := |more| - 1;
      StaysKnown(cfg, run, more[..n], t);
      assert run + more == run + more[..n] + [more[n]];
      StateAfterOne(cfg, run + more[..n], more[n]);
    }
  }

  /** Poll `i` of `more`, after `run`, captures `t`. */
  predicate CapturesAt(cfg: Config, run: seq<Scan>, more: seq<Scan>, i: int, t: string)
    requires 0 <= i < |more|
  {
    Observes(cfg, more[i]) && Decision(cfg, run + more[..i], more[i], t) == Capture
  }

  /** Poll `i` cannot read the fingerprints. */
  predicate BlindAt(cfg: Config, more: seq<Scan>, i: int)
    requires 0 <= i < |more|
  {
    Observes(cfg, more[i]) && more[i].prints.None?
  }

  lemma CaptureAfterError(cfg: Config, run: seq<Scan>, more: seq<Scan>, i: nat, t: string, id: string)
    requires !cfg.everyPoll && cfg.minStable >= 1 && cfg.engine && run != []
    requires Protected(StateAfter(cfg, run), t, id)
    requires forall k :: 0 <= k < |more| ==> Present(cfg, more[k], t)
    requires i < |more| && CapturesAt(cfg, run, more, i, t)
    ensures exists k :: 0 <= k <= i && BlindAt(cfg, more, k)
  {
    if !BlindAt(cfg, more, i) && forall k :: 0 <= k < i ==> !BlindAt(cfg, more, k) {
      forall k | 0 <= k < i ensures Untroubled(cfg, more[..i][k], t) {
        assert !BlindAt(cfg, more, k) && Present(cfg, more[k], t);
      }
      ChangesAreNotRecaptured(cfg, run, more[..i], t, id);
      ThreeWays(cfg, run + more[..i], more[i], t);
    }
  }

  /** For a table with a sound recovery point that stays in place and verifies, a run captures it again if and
      only if some poll of the run fails to read the fingerprints: changes of the table play no part. */
  lemma RecaptureNeedsError(cfg: Config, run: seq<Scan>, more: seq<Scan>, t: string, id: string)
    requires !cfg.everyPoll && cfg.minStable >= 1 && cfg.engine && run != []
    requires Protected(StateAfter(cfg, run), t, id)
    requires forall i :: 0 <= i < |more| ==> Present(cfg, more[i], t)
    ensures (exists i :: 0 <= i < |more| && CapturesAt(cfg, run, more, i, t))
            <==> exists i :: 0 <= i < |more| && BlindAt(cfg, more, i)
  {
    if i :| 0 <= i < |more| && CapturesAt(cfg, run, more, i, t) {
      CaptureAfterError(cfg, run, more, i, t, id);
    }
    if i :| 0 <= i < |more| && BlindAt(cfg, more, i) {
      StaysKnown(cfg, run, more[..i], t);
      ChangedIsCapturedOnErrorOnly(cfg, run + more[..i], more[i], t);
      assert CapturesAt(cfg, run, more, i, t);
    }
  }

  // ---- a literal run ---------------------------------------------------------------------------------

  /** The default stability of two polls, one table, and nothing that fails. */
  const Plain := Config(true, true, false, true, 2, 0, {})

  function PointOf(id: string): RecoveryPoint {
    RecoveryPoint(id, "valid", true, Time(0), Time(0))
  }

  /** A poll that finds table "t" with this fingerprint and would capture it as `id`. */
  function PlainScan(mark: string, id: string): Scan {
    Scan(Some(["t"]), true, false, Some(map["t" := mark]), map["t" := PointOf(id)], {"t"}, {"t"}, 0, true)
  }

  ghost predicate Shows(s: State, mark: string, stable: nat, latest: Option<RecoveryPoint>) {
    s.seeded && s.known == {"t"} && s.prints == map["t" := mark] && At(s, "t") == Entry(stable, 0, latest)
  }

  lemma PlainPoll(s: State, mark: string, id: string, startup: bool)
    ensures PollNext(Plain, s, PlainScan(mark, id), startup).known == {"t"}
    ensures PollNext(Plain, s, PlainScan(mark, id), startup).seeded
    ensures PollNext(Plain, s, PlainScan(mark, id), startup).prints == map["t" := mark]
    ensures At(PollNext(Plain, s, PlainScan(mark, id), startup), "t")
         == EntryNext(Plain, PlainScan(mark, id), startup, IsAdded(s, "t"), Print(s.prints, "t"), "t", At(s, "t"))
  {
    var scan := PlainScan(mark, id);
    assert "t" in Monitored(Plain, scan);
    assert Names(Monitored(Plain, scan)) == {"t"};
    PollEntries(Plain, s, scan, startup);
  }

  const Before := [PlainScan("a", "first"), PlainScan("a", "first"), PlainScan("a", "first")]
  const Since := [PlainScan("b", "second"), PlainScan("b", "second"), PlainScan("b", "second")]

  /** Three polls see fingerprint "a" and the third captures "first"; then the table changes to "b" for good.
      Its recovery point is still "first", from before the change, when it is stable again and re-verified. */
  lemma ChangedTableKeepsOldPoint()
    ensures Shows(StateAfter(Plain, Before), "a", 2, Some(PointOf("first")))
    ensures Shows(StateAfter(Plain, Before + Since), "b", 2, Some(PointOf("first")))
  {
    var a, b := PlainScan("a", "first"), PlainScan("b", "second");
    assert Before == [] + [a] + [a] + [a] && Before + Since == Before + [b] + [b] + [b];
    StateAfterOne(Plain, [], a);
    StateAfterOne(Plain, [] + [a], a);
    StateAfterOne(Plain, [] + [a] + [a], a);
    StateAfterOne(Plain, Before, b);
    StateAfterOne(Plain, Before + [b], b);
    StateAfterOne(Plain, Before + [b] + [b], b);
    var s1 := PollNext(Plain, Init, a, true);
    var s2 := PollNext(Plain, s1, a, false);
    var s3 := PollNext(Plain, s2, a, false);
    var s4 := PollNext(Plain, s3, b, false);
    var s5 := PollNext(Plain, s4, b, false);
    var s6 := PollNext(Plain, s5, b, false);
    FirstPolls(s1, s2, s3);
    LaterPolls(s3, s4, s5, s6);
  }

  lemma FirstPolls(s1: State, s2: State, s3: State)
    requires s1 == PollNext(Plain, Init, PlainScan("a", "first"), true)
    requires s2 == PollNext(Plain, s1, PlainScan("a", "first"), false)
    requires s3 == PollNext(Plain, s2, PlainScan("a", "first"), false)
    ensures Shows(s3, "a", 2, Some(PointOf("first")))
  {
    PlainPoll(Init, "a", "first", true);
    PlainPoll(s1, "a", "first", false);
    PlainPoll(s2, "a", "first", false);
    assert Shows(s1, "a", 0, None);
    assert Shows(s2, "a", 1, None);
  }

  lemma LaterPolls(s3: State, s4: State, s5: State, s6: State)
    requires Shows(s3, "a", 2, Some(PointOf("first")))
    requires s4 == PollNext(Plain, s3, PlainScan("b", "second"), false)
    requires s5 == PollNext(Plain, s4, PlainScan("b", "second"), false)
    requires s6 == PollNext(Plain, s5, PlainScan("b", "second"), false)
    ensures Shows(s6, "b", 2, Some(PointOf("first")))
  {
    PlainPoll(s3, "b", "second", false);
    PlainPoll(s4, "b", "second", false);
    PlainPoll(s5, "b", "second", false);
    assert Shows(s4, "b", 0, Some(PointOf("first")));
    assert Shows(s5, "b", 1, Some(PointOf("first")));
  }

  // ---- failures and health ---------------------------------------------------------------------------

  /** How the poll's capture, re-verification or metadata write for `t` went; None if it did none. */
  function Outcome(cfg: Config, run: seq<Scan>, scan: Scan, t: string): Option<bool> {
    if !Observes(cfg, scan) || t !in Monitored(cfg, scan) || !cfg.engine then None
    else
      var written := !cfg.metadata || t in scan.recorded;
      match Decision(cfg, run, scan, t)
      case Capture => Some(t in scan.captures && written)
      case Reverify =>
        var latest := At(StateAfter(cfg, run), t).latest;
        Some(latest.Some? && latest.value.status == "valid" && latest.value.checksummed && t in scan.verifies && written)
      case Defer => None
  }

  function LastOutcome(cfg: Config, run: seq<Scan>, t: string): Option<bool> {
    if run == [] then None
    else
      var now := Outcome(cfg, run[..|run| - 1], run[|run| - 1], t);
      if now.Some? then now else LastOutcome(cfg, run[..|run| - 1], t)
  }

  /** Over every run, a table has failures exactly when its most recent capture, re-verification or
      metadata write failed. */
  lemma {:induction false} FailuresAreTheLastOutcome(cfg: Config, run: seq<Scan>, t: string)
    ensures At(StateAfter(cfg, run), t).failures > 0 <==> LastOutcome(cfg, run, t) == Some(false)
  {
    if run != [] {
      var past, scan := run[..|run| - 1], run[|run| - 1];
      FailuresAreTheLastOutcome(cfg, past, t);
      if Observes(cfg, scan) { PollEntries(cfg, StateAfter(cfg, past), scan, |run| == 1); }
    }
  }

  /** In the catalogue, and on the allowlist if there is one. */
  predicate Watched(cfg: Config, scan: Scan, t: string) {
    scan.tables.Some? && t in scan.tables.value && (cfg.allowlist == {} || t in cfg.allowlist)
  }

  lemma WatchedIsMonitored(cfg: Config, scan: Scan, t: string)
    ensures t in Monitored(cfg, scan) <==> Watched(cfg, scan, t)
  {
  }

  /** The last verification, or the capture if there was none, is at most `maxAge` old. */
  predicate Recent(p: RecoveryPoint, now: int, maxAge: int) {
    if p.verifiedAt.Blank? then p.timestamp.Time? && now - p.timestamp.at <= maxAge
    else p.verifiedAt.Time? && now - p.verifiedAt.at <= maxAge
  }

  /** A poll publishes "healthy" exactly when no monitored table's last attempt failed and each has a
      valid, checksummed recovery point, recent when a maximum age is set. */
  lemma HealthyIsSound(cfg: Config, run: seq<Scan>)
    requires run != [] && Observes(cfg, run[|run| - 1])
    ensures var scan, s := run[|run| - 1], StateAfter(cfg, run);
            s.health == Healthy <==>
              && (cfg.metadata ==> scan.healthRecorded)
              && forall t :: Watched(cfg, scan, t) ==>
                   && LastOutcome(cfg, run, t) != Some(false)
                   && cfg.engine && At(s, t).latest.Some?
                   && At(s, t).latest.value.status == "valid" && At(s, t).latest.value.checksummed
                   && (cfg.maxAge > 0 ==> Recent(At(s, t).latest.value, scan.now, cfg.maxAge))
  {
    var past, scan := run[..|run| - 1], run[|run| - 1];
    var s, startup := StateAfter(cfg, past), |run| == 1;
    PollEntries(cfg, s, scan, startup);
    forall t ensures At(StateAfter(cfg, run), t).failures > 0 <==> LastOutcome(cfg, run, t) == Some(false) {
      FailuresAreTheLastOutcome(cfg, run, t);
    }
    forall t ensures t in Monitored(cfg, scan) <==> Watched(cfg, scan, t) { WatchedIsMonitored(cfg, scan, t); }
    assert AllReady(cfg, s, scan, startup) <==>
             forall t :: t in Monitored(cfg, scan) ==> Ready(cfg, scan.now, At(StateAfter(cfg, run), t));
  }

  // ---- every-poll mode -------------------------------------------------------------------------------

  /** In every-poll mode every observing poll captures every monitored table, the startup poll if configured to,
      and a capture that succeeds is the table's recovery point from then on. */
  lemma EveryPollCaptures(cfg: Config, run: seq<Scan>, scan: Scan, t: string)
    requires cfg.everyPoll && Observes(cfg, scan) && Watched(cfg, scan, t)
    ensures Decision(cfg, run, scan, t) == Capture <==> (run == [] ==> cfg.onStart)
    ensures cfg.engine && t in scan.captures && (run == [] ==> cfg.onStart) ==>
              At(StateAfter(cfg, run + [scan]), t).latest == Some(scan.captures[t])
  {
    StateAfterOne(cfg, run, scan);
    WatchedIsMonitored(cfg, scan, t);
    PollEntries(cfg, StateAfter(cfg, run), scan, run == []);
  }

  // ---- recovery points as history --------------------------------------------------------------------

  /** Poll `i` of the run captured `t`. */
  predicate CapturedAt(cfg: Config, run: seq<Scan>, i: int, t: string)
    requires 0 <= i < |run|
  {
    && Observes(cfg, run[i]) && Watched(cfg, run[i], t) && cfg.engine
    && Decision(cfg, run[..i], run[i], t) == Capture && t in run[i].captures
  }

  /** Poll `i` of the run found the data of its recovery point in place. */
  predicate ReverifiedAt(cfg: Config, run: seq<Scan>, i: int, t: string)
    requires 0 <= i < |run|
  {
    && Observes(cfg, run[i]) && Watched(cfg, run[i], t) && cfg.engine
    && Decision(cfg, run[..i], run[i], t) == Reverify && t in run[i].verifies
    && var latest := At(StateAfter(cfg, run[..i]), t).latest;
       latest.Some? && latest.value.status == "valid" && latest.value.checksummed
  }

  lemma PollLatest(cfg: Config, past: seq<Scan>, scan: Scan, t: string)
    ensures var run := past + [scan];
            At(StateAfter(cfg, run), t).latest
            == if CapturedAt(cfg, run, |past|, t) then Some(scan.captures[t])
               else if ReverifiedAt(cfg, run, |past|, t)
               then Some(At(StateAfter(cfg, past), t).latest.value.(verifiedAt := Time(scan.now)))
               else At(StateAfter(cfg, past), t).latest
  {
    assert (past + [scan])[..|past|] == past;
    StateAfterOne(cfg, past, scan);
    WatchedIsMonitored(cfg, scan, t);
    if Observes(cfg, scan) { PollEntries(cfg, StateAfter(cfg, past), scan, past == []); }
  }

  /** `p` is what the last capture of `t`, by poll `i`, took, last verified by poll `v`. */
  ghost predicate PointStory(cfg: Config, run: seq<Scan>, t: string, p: RecoveryPoint, i: int, v: int) {
    && 0 <= i <= v < |run| && CapturedAt(cfg, run, i, t)
    && (forall k :: i < k < |run| ==> !CapturedAt(cfg, run, k, t))
    && (forall k :: v < k < |run| ==> !ReverifiedAt(cfg, run, k, t))
    && (i < v ==> ReverifiedAt(cfg, run, v, t))
    && p == if i == v then run[i].captures[t] else run[i].captures[t].(verifiedAt := Time(run[v].now))
  }

  lemma SamePoll(cfg: Config, past: seq<Scan>, scan: Scan, t: string)
    ensures forall k :: 0 <= k < |past| ==> CapturedAt(cfg, past + [scan], k, t) == CapturedAt(cfg, past, k, t)
    ensures forall k :: 0 <= k < |past| ==> ReverifiedAt(cfg, past + [scan], k, t) == ReverifiedAt(cfg, past, k, t)
  {
    forall k | 0 <= k < |past|
      ensures CapturedAt(cfg, past + [scan], k, t) == CapturedAt(cfg, past, k, t)
      ensures ReverifiedAt(cfg, past + [scan], k, t) == ReverifiedAt(cfg, past, k, t)
    {
      assert (past + [scan])[..k] == past[..k] && (past + [scan])[k] == past[k];
    }
  }

  /** The story goes on with one more poll. */
  lemma NextPoint(cfg: Config, past: seq<Scan>, scan: Scan, t: string, i: int, v: int) returns (i': int, v': int)
    requires var latest := At(StateAfter(cfg, past), t).latest;
             latest.Some? ==> PointStory(cfg, past, t, latest.value, i, v)
    ensures var latest := At(StateAfter(cfg, past + [scan]), t).latest;
            latest.Some? ==> PointStory(cfg, past + [scan], t, latest.value, i', v')
  {
    var n := |past|;
    SamePoll(cfg, past, scan, t);
    PollLatest(cfg, past, scan, t);
    i', v' := i, v;
    if CapturedAt(cfg, past + [scan], n, t) {
      i', v' := n, n;
    } else if ReverifiedAt(cfg, past + [scan], n, t) {
      v' := n;
    }
  }

  lemma {:induction false} PointHistory(cfg: Config, run: seq<Scan>, t: string) returns (i: int, v: int)
    ensures var latest := At(StateAfter(cfg, run), t).latest;
            latest.Some? ==> PointStory(cfg, run, t, latest.value, i, v)
  {
    i, v := 0, 0;
    if run != [] {
      var n := |run| - 1;
      assert run == run[..n] + [run[n]];
      i, v := PointHistory(cfg, run[..n], t);
      i, v := NextPoint(cfg, run[..n], run[n], t, i, v);
    }
  }

  lemma {:induction false} CapturedStays(cfg: Config, run: seq<Scan>, t: string, k: nat)
    requires k < |run| && CapturedAt(cfg, run, k, t)
    ensures At(StateAfter(cfg, run), t).latest.Some?
    decreases |run|
  {
    var n := |run| - 1;
    assert run == run[..n] + [run[n]];
    SamePoll(cfg, run[..n], run[n], t);
    PollLatest(cfg, run[..n], run[n], t);
    if k < n { CapturedStays(cfg, run[..n], t, k); }
  }

  /** Over every run, a table has a recovery point exactly when some poll captured it, and it is then what the last
      such poll took, verified last by the last poll that found its data in place, at that poll's time. */
  lemma LatestIsHistory(cfg: Config, run: seq<Scan>, t: string) returns (i: int, v: int)
    ensures At(StateAfter(cfg, run), t).latest.Some? <==> exists k :: 0 <= k < |run| && CapturedAt(cfg, run, k, t)
    ensures var latest := At(StateAfter(cfg, run), t).latest;
            latest.Some? ==> PointStory(cfg, run, t, latest.value, i, v)
  {
    i, v := PointHistory(cfg, run, t);
    if k :| 0 <= k < |run| && CapturedAt(cfg, run, k, t) { CapturedStays(cfg, run, t, k); }
  }

  /** `Run`: the startup poll, then one poll per tick. */
  method Run(cfg: Config, scans: seq<Scan>) returns (p: Poller)
    requires forall i :: 0 <= i < |scans| && scans[i].tables.Some? ==> Distinct(scans[i].tables.value)
    ensures p.cfg == cfg && p.Matches(StateAfter(cfg, scans))
  {
    p := new Poller(cfg);
    for i := 0 to |scans|
      invariant fresh(p) && p.cfg == cfg && p.Matches(StateAfter(cfg, scans[..i]))
    {
      assert scans[..i + 1][..i] == scans[..i];
      p.Poll(scans[i], i == 0, StateAfter(cfg, scans[..i]));
    }
    assert scans[..|scans|] == scans;
  }
}
