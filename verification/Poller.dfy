/** sync/poller.go: the snapshot poller, a state machine per monitored table. */
module Poller {
  import opened Options

  /** An RFC 3339 field: empty, unparseable, or a time. */
  datatype Stamp = Blank | Garbled | Time(at: int)

  datatype RecoveryPoint = RecoveryPoint(
    id: string, status: string, checksummed: bool, verifiedAt: Stamp, timestamp: Stamp)

  datatype Config = Config(
    engine: bool, metadata: bool, everyPoll: bool, onStart: bool, minStable: nat, maxAge: int,
    allowlist: set<string>)

  /** What one poll meets: catalogue reads (None is an error), the pause file, the captures that would
      succeed, the data objects that still verify, and the metadata writes that go through. */
  datatype Scan = Scan(
    tables: Option<seq<string>>, startRecorded: bool, paused: bool, prints: Option<map<string, string>>,
    captures: map<string, RecoveryPoint>, verifies: set<string>, recorded: set<string>, now: int,
    healthRecorded: bool)

  datatype Health = Starting | Paused | Unhealthy | Degraded | Healthy

  datatype Entry = Entry(stable: nat, failures: nat, latest: Option<RecoveryPoint>)

  datatype State = State(
    seeded: bool, known: set<string>, prints: map<string, string>, entries: map<string, Entry>, health: Health)

  const Init := State(false, {}, map[], map[], Starting)

  function At(s: State, t: string): Entry {
    if t in s.entries then s.entries[t] else Entry(0, 0, None)
  }

  /** A Go map read: a missing fingerprint is "". */
  function Print(prints: map<string, string>, t: string): string {
    if t in prints then prints[t] else ""
  }

  function CountIn(m: map<string, nat>, t: string): nat {
    if t in m then m[t] else 0
  }

  // ---- one table in one poll -------------------------------------------------------------------------

  function StableCount(cfg: Config, prints: Option<map<string, string>>, prev: string, t: string, count: nat)
    : nat
  {
    if cfg.everyPoll || prints.None? then count
    else if Print(prints.value, t) != "" && prev == Print(prints.value, t) then count + 1 else 0
  }

  predicate Stable(cfg: Config, prints: Option<map<string, string>>, prev: string, t: string, count: nat) {
    || cfg.everyPoll || prints.None?
    || (Print(prints.value, t) != "" && StableCount(cfg, prints, prev, t, count) >= cfg.minStable)
  }

  predicate Changed(prints: Option<map<string, string>>, prev: string, t: string) {
    prints.None? || prev == "" || Print(prints.value, t) != prev
  }

  datatype Action = Capture | Reverify | Defer

  function ActionFor(cfg: Config, scan: Scan, startup: bool, added: bool, prev: string, t: string, e: Entry)
    : Action
  {
    var stable := Stable(cfg, scan.prints, prev, t, e.stable);
    if startup then (if cfg.onStart && stable then Capture else Defer)
    else if added then (if stable then Capture else Defer)
    else
      var hasPoint := cfg.engine && e.latest.Some?;
      var changed := Changed(scan.prints, prev, t);
      var retry := e.failures > 0;
      if cfg.everyPoll || (stable && (!hasPoint || changed || retry)) then Capture
      else if stable && hasPoint && !changed && !retry then Reverify
      else Defer
  }

  /** Failures after a success whose metadata write may still fail. */
  function AfterSuccess(cfg: Config, scan: Scan, t: string): nat {
    if cfg.metadata && t !in scan.recorded then 1 else 0
  }

  function Snapshotted(cfg: Config, scan: Scan, t: string, e: Entry): Entry {
    if !cfg.engine then e
    else if t !in scan.captures then e.(failures := e.failures + 1)
    else e.(latest := Some(scan.captures[t]), failures := AfterSuccess(cfg, scan, t))
  }

  predicate Verifiable(scan: Scan, t: string, e: Entry) {
    e.latest.Some? && e.latest.value.status == "valid" && e.latest.value.checksummed && t in scan.verifies
  }

  function Reverified(cfg: Config, scan: Scan, t: string, e: Entry): Entry {
    if !cfg.engine then e
    else if !Verifiable(scan, t, e) then e.(failures := e.failures + 1)
    else e.(latest := Some(e.latest.value.(verifiedAt := Time(scan.now))), failures := AfterSuccess(cfg, scan, t))
  }

  function EntryNext(cfg: Config, scan: Scan, startup: bool, added: bool, prev: string, t: string, e: Entry)
    : Entry
  {
    if startup && !cfg.onStart then e
    else
      var counted := e.(stable := StableCount(cfg, scan.prints, prev, t, e.stable));
      match ActionFor(cfg, scan, startup, added, prev, t, e)
      case Capture => Snapshotted(cfg, scan, t, counted)
      case Reverify => Reverified(cfg, scan, t, counted)
      case Defer => counted
  }

  // ---- one poll --------------------------------------------------------------------------------------

  /** The tables inside (or outside) a set, in their order. */
  function Select(tables: seq<string>, s: set<string>, inside: bool): (r: seq<string>)
    ensures forall t :: t in r <==> t in tables && (t in s) == inside
  {
    if tables == [] then []
    else
      var last := tables[|tables| - 1];
      Select(tables[..|tables| - 1], s, inside) + if (last in s) == inside then [last] else []
  }

  function Monitored(cfg: Config, scan: Scan): seq<string> {
    if scan.tables.None? then []
    else if cfg.allowlist == {} then scan.tables.value
    else Select(scan.tables.value, cfg.allowlist, true)
  }

  /** The poll reads the catalogue, records its start and finds no pause file. */
  predicate Observes(cfg: Config, scan: Scan) {
    scan.tables.Some? && (cfg.metadata ==> scan.startRecorded) && !scan.paused
  }

  function Names(tables: seq<string>): set<string> {
    set t | t in tables
  }

  predicate IsAdded(s: State, t: string) {
    s.seeded && t !in s.known
  }

  function EntryAfter(cfg: Config, s: State, scan: Scan, startup: bool, t: string): Entry {
    if t in Monitored(cfg, scan)
    then EntryNext(cfg, scan, startup, IsAdded(s, t), Print(s.prints, t), t, At(s, t)) else At(s, t)
  }

  /** The age is taken from the last verification, or from the capture when there was none. */
  predicate Fresh(cfg: Config, now: int, p: RecoveryPoint) {
    var stamp := if p.verifiedAt.Blank? then p.timestamp else p.verifiedAt;
    stamp.Time? && now - stamp.at <= cfg.maxAge
  }

  predicate Ready(cfg: Config, now: int, e: Entry) {
    && e.failures == 0 && cfg.engine && e.latest.Some?
    && e.latest.value.status == "valid" && e.latest.value.checksummed
    && (cfg.maxAge > 0 ==> Fresh(cfg, now, e.latest.value))
  }

  function HealthOf(cfg: Config, scan: Scan, ready: bool): Health {
    if cfg.metadata && !scan.healthRecorded then Unhealthy else if ready then Healthy else Degraded
  }

  function PrintsAfter(s: State, scan: Scan): map<string, string> {
    if scan.prints.Some? then scan.prints.value else s.prints
  }

  predicate AllReady(cfg: Config, s: State, scan: Scan, startup: bool) {
    forall t :: t in Monitored(cfg, scan) ==> Ready(cfg, scan.now, EntryAfter(cfg, s, scan, startup, t))
  }

  function PollNext(cfg: Config, s: State, scan: Scan, startup: bool): State {
    if scan.tables.None? then s
    else if cfg.metadata && !scan.startRecorded then s.(health := Unhealthy)
    else if scan.paused then s.(health := Paused)
    else
      var names := Names(Monitored(cfg, scan));
      State(true, names, PrintsAfter(s, scan),
            map t | t in s.entries.Keys + names :: EntryAfter(cfg, s, scan, startup, t),
            HealthOf(cfg, scan, AllReady(cfg, s, scan, startup)))
  }

  ghost predicate Distinct(tables: seq<string>) {
    forall i, j :: 0 <= i < j < |tables| ==> tables[i] != tables[j]
  }

  lemma {:induction false} SelectIsDistinct(tables: seq<string>, s: set<string>, inside: bool)
    requires Distinct(tables)
    ensures Distinct(Select(tables, s, inside))
  {
    if tables != [] {
      var rest := tables[..|tables| - 1];
      assert forall t :: t in rest ==> t != tables[|tables| - 1];
      SelectIsDistinct(rest, s, inside);
    }
  }

  /** The poller of a running sidecar, with its engine's `latest` map. */
  class Poller {
    const cfg: Config
    var seeded: bool
    var known: set<string>
    var fingerprints: map<string, string>
    var stablePolls: map<string, nat>
    var failures: map<string, nat>
    var latest: map<string, RecoveryPoint>
    var health: Health

    function EntryOf(t: string): Entry
      reads this`stablePolls, this`failures, this`latest
    {
      Entry(CountIn(stablePolls, t), CountIn(failures, t), if t in latest then Some(latest[t]) else None)
    }

    ghost predicate Matches(s: State)
      reads this
    {
      && seeded == s.seeded && known == s.known && fingerprints == s.prints && health == s.health
      && forall t :: EntryOf(t) == At(s, t)
    }

    constructor (cfg: Config)
      ensures this.cfg == cfg && Matches(Init)
    {
      this.cfg := cfg;
      seeded, known, fingerprints := false, {}, map[];
      stablePolls, failures, latest, health := map[], map[], map[], Starting;
    }

    method TableStableForSnapshot(t: string, prints: Option<map<string, string>>) returns (stable: bool)
      modifies this`stablePolls
      ensures var count := CountIn(old(stablePolls), t);
              && stable == Stable(cfg, prints, Print(fingerprints, t), t, count)
              && EntryOf(t) == old(EntryOf(t)).(stable := StableCount(cfg, prints, Print(fingerprints, t), t, count))
      ensures forall u :: u != t ==> EntryOf(u) == old(EntryOf(u))
    {
      if cfg.everyPoll || prints.None? {
        return true;
      }
      var current := Print(prints.value, t);
      if current == "" {
        stablePolls := stablePolls[t := 0];
        return false;
      }
      if Print(fingerprints, t) != "" && Print(fingerprints, t) == current {
        stablePolls := stablePolls[t := CountIn(stablePolls, t) + 1];
      } else {
        stablePolls := stablePolls[t := 0];
      }
      stable := stablePolls[t] >= cfg.minStable;
    }

    method SnapshotTable(t: string, scan: Scan)
      modifies this`failures, this`latest, this`health
      ensures EntryOf(t) == Snapshotted(cfg, scan, t, old(EntryOf(t)))
      ensures forall u :: u != t ==> EntryOf(u) == old(EntryOf(u))
    {
      if !cfg.engine {
        return;
      }
      if t !in scan.captures {
        failures := failures[t := CountIn(failures, t) + 1];
        return;
      }
      latest := latest[t := scan.captures[t]];
      Succeed(t, scan);
    }

    method RefreshSnapshotVerification(t: string, scan: Scan)
      modifies this`failures, this`latest, this`health
      ensures EntryOf(t) == Reverified(cfg, scan, t, old(EntryOf(t)))
      ensures forall u :: u != t ==> EntryOf(u) == old(EntryOf(u))
    {
      if !cfg.engine {
        return;
      }
      if !Verifiable(scan, t, EntryOf(t)) {
        failures := failures[t := CountIn(failures, t) + 1];
        return;
      }
      latest := latest[t := latest[t].(verifiedAt := Time(scan.now))];
      Succeed(t, scan);
    }

    /** The failure count is cleared, and counts again if the metadata write fails. */
    method Succeed(t: string, scan: Scan)
      modifies this`failures, this`health
      ensures EntryOf(t) == old(EntryOf(t)).(failures := AfterSuccess(cfg, scan, t))
      ensures forall u :: u != t ==> EntryOf(u) == old(EntryOf(u))
    {
      failures := failures[t := 0];
      if cfg.metadata && t !in scan.recorded {
        failures := failures[t := CountIn(failures, t) + 1];
        health := Unhealthy;
      }
    }

    /** A table at startup, or one that was not there at the last poll. */
    method VisitNew(t: string, scan: Scan, startup: bool)
      requires startup ==> cfg.onStart
      modifies this`stablePolls, this`failures, this`latest, this`health
      ensures EntryOf(t) == EntryNext(cfg, scan, startup, true, Print(fingerprints, t), t, old(EntryOf(t)))
      ensures forall u :: u != t ==> EntryOf(u) == old(EntryOf(u))
    {
      var stable := TableStableForSnapshot(t, scan.prints);
      if stable {
        SnapshotTable(t, scan);
      }
    }

    method VisitKnown(t: string, scan: Scan)
      modifies this`stablePolls, this`failures, this`latest, this`health
      ensures EntryOf(t) == EntryNext(cfg, scan, false, false, Print(fingerprints, t), t, old(EntryOf(t)))
      ensures forall u :: u != t ==> EntryOf(u) == old(EntryOf(u))
    {
      var hasPoint := cfg.engine && t in latest;
      var stable := TableStableForSnapshot(t, scan.prints);
      var changed := Changed(scan.prints, Print(fingerprints, t), t);
      var retry := CountIn(failures, t) > 0;
      if cfg.everyPoll || (stable && (!hasPoint || changed || retry)) {
        SnapshotTable(t, scan);
      } else if stable && hasPoint && !changed && !retry {
        RefreshSnapshotVerification(t, scan);
      }
    }

    /** Tables in `done` have been visited, and no other entry has changed since `s`. */
    ghost predicate Visited(s: State, scan: Scan, startup: bool, done: set<string>)
      reads this
    {
      forall t :: EntryOf(t) == if t in done then EntryAfter(cfg, s, scan, startup, t) else At(s, t)
    }

    method VisitStartup(tables: seq<string>, scan: Scan, ghost s: State)
      requires Matches(s) && Distinct(tables) && tables == Monitored(cfg, scan)
      modifies this`stablePolls, this`failures, this`latest, this`health
      ensures Visited(s, scan, true, Names(tables))
    {
      if cfg.onStart {
        for i := 0 to |tables|
          invariant Visited(s, scan, true, Names(tables[..i]))
        {
          VisitNew(tables[i], scan, true);
          assert Names(tables[..i + 1]) == Names(tables[..i]) + {tables[i]};
        }
        assert tables[..|tables|] == tables;
      }
    }

    method VisitAdded(added: seq<string>, scan: Scan, ghost s: State)
      requires Matches(s) && Distinct(added)
      requires forall t :: t in added ==> t in Monitored(cfg, scan) && IsAdded(s, t)
      modifies this`stablePolls, this`failures, this`latest, this`health
      ensures Visited(s, scan, false, Names(added))
    {
      for i := 0 to |added|
        invariant Visited(s, scan, false, Names(added[..i]))
      {
        VisitNew(added[i], scan, false);
        assert Names(added[..i + 1]) == Names(added[..i]) + {added[i]};
      }
      assert added[..|added|] == added;
    }

    method VisitTables(tables: seq<string>, added: seq<string>, scan: Scan, ghost s: State)
      requires Matches(s) && Distinct(tables) && Distinct(added) && tables == Monitored(cfg, scan)
      requires forall t :: t in added <==> t in tables && IsAdded(s, t)
      modifies this`stablePolls, this`failures, this`latest, this`health
      ensures Visited(s, scan, false, Names(tables))
    {
      VisitAdded(added, scan, s);
      for i := 0 to |tables|
        invariant Visited(s, scan, false, Names(added) + Names(tables[..i]))
      {
        if tables[i] !in added {
          VisitKnown(tables[i], scan);
        }
        assert Names(tables[..i + 1]) == Names(tables[..i]) + {tables[i]};
      }
      assert tables[..|tables|] == tables;
      assert Names(added) + Names(tables) == Names(tables);
    }

    /** `updateRecoveryReadiness`: healthy exactly when every monitored table is ready. */
    method UpdateRecoveryReadiness(tables: seq<string>, scan: Scan)
      modifies this`health
      ensures health == HealthOf(cfg, scan, forall t :: t in tables ==> Ready(cfg, scan.now, EntryOf(t)))
    {
      var missing, failing, stale := [], [], [];
      for i := 0 to |tables|
        invariant missing == [] && failing == [] && stale == []
                  <==> forall t :: t in tables[..i] ==> Ready(cfg, scan.now, EntryOf(t))
      {
        var t := tables[i];
        ghost var clean := missing == [] && failing == [] && stale == [];
        if CountIn(failures, t) > 0 {
          failing := failing + [t];
        }
        if !cfg.engine || t !in latest || latest[t].status != "valid" || !latest[t].checksummed {
          missing := missing + [t];
        } else if cfg.maxAge > 0 && !Fresh(cfg, scan.now, latest[t]) {
          stale := stale + [t];
        }
        assert forall u :: u in tables[..i + 1] <==> u in tables[..i] || u == t;
        assert t in tables[..i + 1];
        assert missing == [] && failing == [] && stale == [] <==> clean && Ready(cfg, scan.now, EntryOf(t));
      }
      assert tables[..|tables|] == tables;
      health := if missing == [] && failing == [] && stale == [] then Healthy else Degraded;
      if cfg.metadata && !scan.healthRecorded {
        health := Unhealthy;
      }
    }

    method Poll(scan: Scan, startup: bool, ghost s: State)
      requires Matches(s) && (scan.tables.Some? ==> Distinct(scan.tables.value))
      modifies this
      ensures Matches(PollNext(cfg, s, scan, startup))
    {
      if scan.tables.None? {
        return;
      }
      if cfg.metadata && !scan.startRecorded {
        health := Unhealthy;
        assert forall t :: EntryOf(t) == old(EntryOf(t));
        return;
      }
      if scan.paused {
        health := Paused;
        assert forall t :: EntryOf(t) == old(EntryOf(t));
        return;
      }
      Observe(scan, startup, s);
      PollEntries(cfg, s, scan, startup);
    }

    /** The part of a poll that looks at tables. */
    method Observe(scan: Scan, startup: bool, ghost s: State)
      requires Matches(s) && Observes(cfg, scan) && Distinct(scan.tables.value)
      modifies this
      ensures seeded && known == Names(Monitored(cfg, scan)) && fingerprints == PrintsAfter(s, scan)
      ensures health == HealthOf(cfg, scan, AllReady(cfg, s, scan, startup))
      ensures forall t :: EntryOf(t) == EntryAfter(cfg, s, scan, startup, t)
    {
      VisitAll(scan, startup, s);
      var tables := Monitored(cfg, scan);
      seeded, known := true, Names(tables);
      if scan.prints.Some? {
        fingerprints := scan.prints.value;
      }
      UpdateRecoveryReadiness(tables, scan);
    }

    method VisitAll(scan: Scan, startup: bool, ghost s: State)
      requires Matches(s) && Observes(cfg, scan) && Distinct(scan.tables.value)
      modifies this`stablePolls, this`failures, this`latest, this`health
      ensures forall t :: EntryOf(t) == EntryAfter(cfg, s, scan, startup, t)
    {
      var tables := Monitored(cfg, scan);
      SelectIsDistinct(scan.tables.value, cfg.allowlist, true);
      if startup {
        VisitStartup(tables, scan, s);
      } else {
        SelectIsDistinct(tables, known, false);
        var added := if seeded then Select(tables, known, false) else [];
        VisitTables(tables, added, scan, s);
      }
    }
  }

  lemma PollEntries(cfg: Config, s: State, scan: Scan, startup: bool)
    requires Observes(cfg, scan)
    ensures forall t :: At(PollNext(cfg, s, scan, startup), t) == EntryAfter(cfg, s, scan, startup, t)
  {
  }
}
