/** gateway/snapshot_verifier.go: finding the latest sidecar manifest of a table. */
module Verifier {
  import opened Options
  import opened Text
  import opened Manifests

  /** One listed object: its key, and the manifest if the object could be read and decoded. */
  datatype Entry = Entry(key: Key, body: Option<Manifest>)

  datatype Lookup = Failed | Found(manifest: Manifest)

  /** A readable manifest that the sidecar wrote for this table. */
  predicate Relevant(e: Entry, table: string) {
    && e.key.Key? && e.key.leaf == ManifestLeaf
    && e.body.Some? && e.body.value.writer == SidecarWriter && e.body.value.table == table
  }

  /** One such manifest that fails validation poisons the whole search. */
  predicate Poisonous(e: Entry, table: string) {
    Relevant(e, table) && !ValidSidecar(e.body.value, table)
  }

  predicate Eligible(e: Entry, table: string) {
    Relevant(e, table) && ValidSidecar(e.body.value, table) && e.body.value.timestamp.Some?
  }

  function TimeOf(e: Entry): int
    requires e.body.Some? && e.body.value.timestamp.Some?
  {
    e.body.value.timestamp.value
  }

  ghost predicate Poisoned(entries: seq<Entry>, table: string) {
    exists i :: 0 <= i < |entries| && Poisonous(entries[i], table)
  }

  ghost predicate HasEligible(entries: seq<Entry>, table: string) {
    exists i :: 0 <= i < |entries| && Eligible(entries[i], table)
  }

  /** Entry `i` is the earliest-listed eligible manifest of maximal timestamp. */
  ghost predicate IsLatest(entries: seq<Entry>, table: string, i: int) {
    && 0 <= i < |entries| && Eligible(entries[i], table)
    && (forall j :: 0 <= j < |entries| && Eligible(entries[j], table) ==> TimeOf(entries[j]) <= TimeOf(entries[i]))
    && (forall j :: 0 <= j < i && Eligible(entries[j], table) ==> TimeOf(entries[j]) < TimeOf(entries[i]))
  }

  lemma LatestIsUnique(entries: seq<Entry>, table: string, i: int, j: int)
    requires IsLatest(entries, table, i) && IsLatest(entries, table, j)
    ensures i == j
  {
  }

  lemma LatestExists(entries: seq<Entry>, table: string)
    requires HasEligible(entries, table)
    ensures exists i :: IsLatest(entries, table, i)
  {
    var i := FindLatest(entries, table);
  }

  lemma {:induction false} FindLatest(entries: seq<Entry>, table: string) returns (i: int)
    requires HasEligible(entries, table)
    ensures IsLatest(entries, table, i)
  {
    var n := |entries| - 1;
    var front := entries[..n];
    assert forall j :: 0 <= j < n ==> front[j] == entries[j];
    i := n;
    if HasEligible(front, table) {
      var k := FindLatest(front, table);
      if !Eligible(entries[n], table) || TimeOf(entries[n]) <= TimeOf(entries[k]) {
        i := k;
      }
    }
  }

  /** What the search means, independent of how the listing is paged or scanned. */
  ghost function Latest(entries: seq<Entry>, table: string): (r: Lookup)
    ensures r.Failed? <==> Poisoned(entries, table) || !HasEligible(entries, table)
    ensures r.Found? ==> exists i :: IsLatest(entries, table, i) && entries[i].body == Some(r.manifest)
  {
    if Poisoned(entries, table) || !HasEligible(entries, table) then Failed
    else
      LatestExists(entries, table);
      var i :| IsLatest(entries, table, i);
      Found(entries[i].body.value)
  }

  lemma LatestIs(entries: seq<Entry>, table: string, i: int)
    requires !Poisoned(entries, table) && IsLatest(entries, table, i)
    ensures Latest(entries, table) == Found(entries[i].body.value)
  {
    var j :| IsLatest(entries, table, j) && entries[j].body == Some(Latest(entries, table).manifest);
    LatestIsUnique(entries, table, i, j);
  }

  function Flatten(pages: seq<seq<Entry>>): seq<Entry> {
    if pages == [] then [] else pages[0] + Flatten(pages[1..])
  }

  lemma {:induction false} FlattenSnoc(pages: seq<seq<Entry>>, page: seq<Entry>)
    ensures Flatten(pages + [page]) == Flatten(pages) + page
  {
    if pages != [] {
      FlattenSnoc(pages[1..], page);
      assert (pages + [page])[1..] == pages[1..] + [page];
    }
  }

  /** `latestSidecarManifest`, for page reads that succeed. */
  method LatestSidecarManifest(pages: seq<seq<Entry>>, table: string) returns (r: Lookup)
    ensures r == Latest(Flatten(pages), table)
  {
    var found := false;
    var latest: Option<Manifest>, latestTime := None, 0;
    ghost var at := -1;
    ghost var seen: seq<Entry> := [];
    ghost var all := Flatten(pages);
    for p := 0 to |pages|
      invariant seen == Flatten(pages[..p]) && seen <= all
      invariant Progress(seen, table, found, latest, latestTime, at)
    {
      var page := pages[p];
      ghost var before := seen;
      assert pages[..p + 1] == pages[..p] + [page];
      FlattenSnoc(pages[..p], page);
      PagePrefix(pages, p + 1);
      for j := 0 to |page|
        invariant seen == before + page[..j]
        invariant Progress(seen, table, found, latest, latestTime, at)
      {
        var e := page[j];
        ghost var prior := seen;
        seen := seen + [e];
        assert seen == before + page[..j + 1];
        ProgressStep(prior, e, table, found, latest, latestTime, at);
        if !(e.key.Key? && e.key.leaf == ManifestLeaf) || e.body.None? {
          continue;
        }
        var m := e.body.value;
        if m.writer != SidecarWriter || m.table != table {
          continue;
        }
        if !ValidSidecar(m, table) {
          assert Poisonous(all[|prior|], table) by { assert seen <= before + page <= all; }
          return Failed;
        }
        if m.timestamp.None? {
          continue;
        }
        if !found || m.timestamp.value > latestTime {
          latest, latestTime, found := e.body, m.timestamp.value, true;
          at := |prior|;
        }
      }
      assert page[..|page|] == page;
    }
    assert pages[..|pages|] == pages;
    if !found {
      return Failed;
    }
    LatestIs(seen, table, at);
    return Found(latest.value);
  }

  lemma {:induction false} PagePrefix(pages: seq<seq<Entry>>, p: nat)
    requires p <= |pages|
    ensures Flatten(pages[..p]) <= Flatten(pages)
  {
    if p > 0 {
      PagePrefix(pages[1..], p - 1);
      assert pages[..p][1..] == pages[1..][..p - 1];
    }
  }

  /** The loop state describes exactly the entries seen so far. */
  ghost predicate Progress(
    seen: seq<Entry>, table: string, found: bool, latest: Option<Manifest>, latestTime: int, at: int)
  {
    && !Poisoned(seen, table)
    && found == HasEligible(seen, table)
    && (found ==> IsLatest(seen, table, at) && seen[at].body == latest && TimeOf(seen[at]) == latestTime)
  }

  lemma ProgressStep(
    seen: seq<Entry>, e: Entry, table: string, found: bool, latest: Option<Manifest>, latestTime: int, at: int)
    requires Progress(seen, table, found, latest, latestTime, at)
    ensures !Poisonous(e, table) && !Eligible(e, table) ==>
              Progress(seen + [e], table, found, latest, latestTime, at)
    ensures Eligible(e, table) ==>
              if !found || TimeOf(e) > latestTime
              then Progress(seen + [e], table, true, e.body, TimeOf(e), |seen|)
              else Progress(seen + [e], table, found, latest, latestTime, at)
  {
    var more := seen + [e];
    assert forall i :: 0 <= i < |seen| ==> more[i] == seen[i];
    assert more[|seen|] == e;
    assert HasEligible(more, table) == (HasEligible(seen, table) || Eligible(e, table));
    assert Poisoned(more, table) == (Poisoned(seen, table) || Poisonous(e, table));
  }

  /** Objects of other tables that share the sanitized key prefix do not matter: dropping any
      irrelevant entry from a listing leaves the answer as it was. */
  lemma OtherTablesAreInvisible(a: seq<Entry>, e: Entry, b: seq<Entry>, table: string)
    requires !Relevant(e, table)
    ensures Latest(a + [e] + b, table) == Latest(a + b, table)
  {
    var with, without := a + [e] + b, a + b;
    forall i | 0 <= i < |with| && i != |a|
      ensures with[i] == without[if i < |a| then i else i - 1]
    {
    }
    forall i | 0 <= i < |without|
      ensures without[i] == with[if i < |a| then i else i + 1]
    {
    }
    assert Poisoned(with, table) == Poisoned(without, table);
    assert HasEligible(with, table) == HasEligible(without, table);
    if !Poisoned(with, table) && HasEligible(with, table) {
      LatestExists(with, table);
      var i :| IsLatest(with, table, i);
      var k := if i < |a| then i else i - 1;
      assert i != |a|;
      assert IsLatest(without, table, k);
      LatestIs(with, table, i);
      LatestIs(without, table, k);
    }
  }

  /** `VerifyLatestSidecarSnapshot`: the caller must name the latest snapshot, and its data object
      must still hash to the recorded digest. */
  ghost function VerifyLatest(store: Store, entries: seq<Entry>, table: string, snapshotId: string): (r: Lookup)
    ensures r.Found? ==> r.manifest.table == table && r.manifest.snapshotId == snapshotId
    ensures r.Found? ==> DataVerified(store, r.manifest)
    ensures r.Found? ==> exists i :: IsLatest(entries, table, i) && entries[i].body == Some(r.manifest)
  {
    if Blank(snapshotId) then Failed
    else
      var latest := Latest(entries, table);
      if latest.Found? && latest.manifest.snapshotId == snapshotId && DataVerified(store, latest.manifest)
      then latest else Failed
  }

  // ---- the same in plain terms ---------------------------------------------------------------------------

  /** The sidecar's own readable manifest of the table. */
  predicate Written(e: Entry, table: string) {
    && e.key.Key? && e.key.leaf == ManifestLeaf && e.body.Some?
    && e.body.value.writer == "sync-sidecar" && e.body.value.table == table
  }

  /** A manifest with an id, of table scope, marked valid and carrying a hash. */
  predicate Sound(m: Manifest) {
    m.snapshotId != "" && m.scope == "table" && Trim(m.status) == "valid" && m.sha.Sha256?
  }

  /** The data object that the manifest names, or that lies beside a manifest naming none, has its hash. */
  predicate Intact(store: Store, m: Manifest) {
    var key := if m.dataKey.Key? then m.dataKey
               else if m.manifestKey.Key? && m.manifestKey.leaf == ManifestLeaf
               then Key(m.manifestKey.table, m.manifestKey.id, DataLeaf) else NoKey;
    key.Key? && key in store && store[key].Data? && m.sha == Sha256(store[key].bytes)
  }

  /** The search fails exactly when one of the table's manifests is unsound, or none has a timestamp. */
  lemma SearchFailsMeans(entries: seq<Entry>, table: string)
    ensures Latest(entries, table).Failed?
            <==> (|| (exists e :: e in entries && Written(e, table) && !Sound(e.body.value))
                  || !(exists e :: e in entries && Written(e, table) && e.body.value.timestamp.Some?))
  {
    if Poisoned(entries, table) {
      var i :| 0 <= i < |entries| && Poisonous(entries[i], table);
      assert entries[i] in entries && Written(entries[i], table) && !Sound(entries[i].body.value);
    } else {
      forall e | e in entries && Written(e, table) ensures Sound(e.body.value) && Relevant(e, table) {
        var i :| 0 <= i < |entries| && entries[i] == e;
        assert !Poisonous(entries[i], table);
      }
      if HasEligible(entries, table) {
        var i :| 0 <= i < |entries| && Eligible(entries[i], table);
        assert entries[i] in entries && Written(entries[i], table);
      }
      if e :| e in entries && Written(e, table) && e.body.value.timestamp.Some? {
        var i :| 0 <= i < |entries| && entries[i] == e;
        assert Eligible(entries[i], table);
      }
    }
  }

  /** The verification succeeds, with the manifest `m`, exactly when the caller names a snapshot, no manifest of
      the table is unsound, `m` is the latest, it is the snapshot named, and its data object is intact. */
  lemma VerifyLatestMeans(store: Store, entries: seq<Entry>, table: string, snapshotId: string, m: Manifest)
    ensures VerifyLatest(store, entries, table, snapshotId) == Found(m)
            <==> (&& !Blank(snapshotId) && m.snapshotId == snapshotId && Intact(store, m)
                  && (forall e :: e in entries && Written(e, table) ==> Sound(e.body.value))
                  && exists i :: IsLatest(entries, table, i) && entries[i].body == Some(m))
  {
    var r := VerifyLatest(store, entries, table, snapshotId);
    if r == Found(m) {
      SearchFailsMeans(entries, table);
    }
    if !Blank(snapshotId) && m.snapshotId == snapshotId && Intact(store, m)
       && forall e :: e in entries && Written(e, table) ==> Sound(e.body.value)
    {
      if i :| IsLatest(entries, table, i) && entries[i].body == Some(m) {
        assert entries[i] in entries && Written(entries[i], table);
        SearchFailsMeans(entries, table);
        LatestIs(entries, table, i);
      }
    }
  }
}
