/** Sequences of snapshots, each built with the manifests of the rows consumed so far. */
module SnapshotRuns {
  import opened Wrappers
  import opened Snapshot
  import opened SnapshotProperties

  datatype ConsumeError = NotAHoldout | UnknownAudience | UnknownRows(ids: seq<string>)

  const AUDIENCES: set<string> := {"user", "agent", "external_report"}

  /** Rows by identifier; of rows with one identifier the last counts. */
  function ById(rows: seq<SnapshotRecord>): map<string, SnapshotRecord> {
    if rows == [] then map[]
    else ById(rows[..|rows| - 1])[rows[|rows| - 1].id := rows[|rows| - 1]]
  }

  function Missing(ids: seq<string>, known: map<string, SnapshotRecord>): seq<string> {
    if ids == [] then []
    else Missing(ids[..|ids| - 1], known) + (if ids[|ids| - 1] in known then [] else [ids[|ids| - 1]])
  }

  lemma {:induction false} NothingMissing(ids: seq<string>, known: map<string, SnapshotRecord>)
    ensures Missing(ids, known) == [] <==> forall id <- ids :: id in known
  {
    if ids != [] {
      var n := |ids| - 1;
      NothingMissing(ids[..n], known);
      assert forall id <- ids :: id in ids[..n] || id == ids[n];
      assert ids[n] in ids;
      assert forall id <- ids[..n] :: id in ids;
    }
  }

  function MarkConsumedHoldoutRows(s: Snapshot, split: Split, ids: seq<string>, visibleTo: string): Result<Manifest, ConsumeError> {
    var known := ById(Rows(s, split));
    if split == Train then Err(NotAHoldout)
    else if visibleTo !in AUDIENCES then Err(UnknownAudience)
    else if Missing(ids, known) != [] then Err(UnknownRows(Missing(ids, known)))
    else
      NothingMissing(ids, known);
      Ok(Manifest(split, ids,
                  seq(|ids|, i requires 0 <= i < |ids| => known[ids[i]].normalizedKey),
                  seq(|ids|, i requires 0 <= i < |ids| => known[ids[i]].groupKey)))
  }

  lemma {:induction false} ByIdHoldsRows(rows: seq<SnapshotRecord>)
    ensures forall id <- ById(rows) :: ById(rows)[id] in rows && ById(rows)[id].id == id
    ensures forall r <- rows :: r.id in ById(rows)
  {
    if rows != [] {
      ByIdHoldsRows(rows[..|rows| - 1]);
      assert rows == rows[..|rows| - 1] + [rows[|rows| - 1]];
    }
  }

  /** Rows are consumed exactly when they are holdout rows of the snapshot, shown to a known audience; the
      manifest then names the keys of rows with those identifiers. */
  lemma ManifestNamesItsRows(s: Snapshot, split: Split, ids: seq<string>, visibleTo: string)
    ensures var m := MarkConsumedHoldoutRows(s, split, ids, visibleTo);
            && (m.Ok? <==> split != Train && visibleTo in AUDIENCES && forall id <- ids :: exists r <- Rows(s, split) :: r.id == id)
            && (m.Ok? ==>
                  && |m.value.normalizedKeys| == |m.value.groupKeys| == |ids|
                  && forall i | 0 <= i < |ids| :: exists r <- Rows(s, split) ::
                       r.id == ids[i] && r.normalizedKey == m.value.normalizedKeys[i] && r.groupKey == m.value.groupKeys[i])
  {
    var rows := Rows(s, split);
    ByIdHoldsRows(rows);
    NothingMissing(ids, ById(rows));
    if forall id <- ids :: id in ById(rows) {
      forall i | 0 <= i < |ids| ensures ById(rows)[ids[i]] in rows && ById(rows)[ids[i]].id == ids[i] {
        assert ids[i] in ById(rows);
      }
    }
  }

  // ---------------------------------------------------------------------------
  // Runs
  // ---------------------------------------------------------------------------

  datatype Event =
    | BuildEvent(c: Contract, records: seq<SourceRecord>, o: Options, rnd: Randomness, newId: nat -> string)
    | ConsumeEvent(snapshot: nat, split: Split, ids: seq<string>, visibleTo: string)

  datatype State = State(builds: seq<Build>, manifests: seq<Manifest>)

  /** Failed builds and refused manifests leave the state as it is. */
  function Step(s: State, e: Event): State {
    match e
    case BuildEvent(c, records, o, rnd, newId) =>
      var b := Built(c, records, o, rnd, s.manifests, newId);
      if b.Ok? then s.(builds := s.builds + [b.value]) else s
    case ConsumeEvent(n, split, ids, visibleTo) =>
      if n >= |s.builds| then s
      else
        var m := MarkConsumedHoldoutRows(s.builds[n].snapshot, split, ids, visibleTo);
        if m.Ok? then s.(manifests := s.manifests + [m.value]) else s
  }

  function Run(events: seq<Event>): State
    decreases |events|
  {
    if |events| == 0 then State([], []) else Step(Run(events[..|events| - 1]), events[|events| - 1])
  }

  lemma {:induction false} NothingIsForgotten(events: seq<Event>, i: nat)
    requires i <= |events|
    ensures Run(events[..i]).builds <= Run(events).builds && Run(events[..i]).manifests <= Run(events).manifests
    decreases |events|
  {
    if i == |events| {
      assert events[..i] == events;
    } else {
      assert events[..|events| - 1][..i] == events[..i];
      NothingIsForgotten(events[..|events| - 1], i);
    }
  }

  /** `y` is a row of the split, and its identifier is among those consumed. */
  ghost predicate Consumes(s: Snapshot, split: Split, ids: seq<string>, y: SnapshotRecord) {
    var known := ById(Rows(s, split));
    exists k | 0 <= k < |ids| :: ids[k] in known && known[ids[k]] == y
  }

  /** The manifests name both keys of `y`. */
  ghost predicate Named(manifests: seq<Manifest>, y: SnapshotRecord) {
    y.normalizedKey in ConsumedKeys(manifests) && y.groupKey in ConsumedKeys(manifests)
  }

  lemma ConsumedIsNamed(s: Snapshot, split: Split, ids: seq<string>, visibleTo: string, y: SnapshotRecord, manifests: seq<Manifest>)
    requires MarkConsumedHoldoutRows(s, split, ids, visibleTo).Ok? && Consumes(s, split, ids, y)
    ensures Named(manifests + [MarkConsumedHoldoutRows(s, split, ids, visibleTo).value], y)
  {
    var m := MarkConsumedHoldoutRows(s, split, ids, visibleTo).value;
    var known := ById(Rows(s, split));
    var k :| 0 <= k < |ids| && ids[k] in known && known[ids[k]] == y;
    assert m.normalizedKeys[k] == y.normalizedKey && m.groupKeys[k] == y.groupKey;
    assert m in manifests + [m];
    assert y.normalizedKey in m.normalizedKeys + m.groupKeys && y.groupKey in m.normalizedKeys + m.groupKeys;
  }

  /** `y` was consumed by the event at `i`. */
  ghost predicate ConsumedAt(events: seq<Event>, i: nat, y: SnapshotRecord) {
    && i < |events| && events[i].ConsumeEvent?
    && var e, s := events[i], Run(events[..i]);
       && e.snapshot < |s.builds|
       && MarkConsumedHoldoutRows(s.builds[e.snapshot].snapshot, e.split, e.ids, e.visibleTo).Ok?
       && Consumes(s.builds[e.snapshot].snapshot, e.split, e.ids, y)
  }

  lemma RunStep(events: seq<Event>, i: nat)
    requires i < |events|
    ensures Run(events[..i + 1]) == Step(Run(events[..i]), events[i])
  {
    assert events[..i + 1][..i] == events[..i];
  }

  lemma ConsumedIsRecorded(events: seq<Event>, i: nat, y: SnapshotRecord)
    requires ConsumedAt(events, i, y)
    ensures Named(Run(events[..i + 1]).manifests, y)
  {
    var e, s := events[i], Run(events[..i]);
    RunStep(events, i);
    ConsumedIsNamed(s.builds[e.snapshot].snapshot, e.split, e.ids, e.visibleTo, y, s.manifests);
  }

  lemma MoreManifestsMoreKeys(a: seq<Manifest>, b: seq<Manifest>, k: string)
    requires a <= b && k in ConsumedKeys(a)
    ensures k in ConsumedKeys(b)
  {
    var m :| m in a && k in m.normalizedKeys + m.groupKeys;
    assert m in b;
  }

  lemma StillNamed(events: seq<Event>, i: nat, j: nat, y: SnapshotRecord)
    requires ConsumedAt(events, i, y) && i < j <= |events|
    ensures Named(Run(events[..j]).manifests, y)
  {
    ConsumedIsRecorded(events, i, y);
    assert events[..j][..i + 1] == events[..i + 1];
    NothingIsForgotten(events[..j], i + 1);
    MoreManifestsMoreKeys(Run(events[..i + 1]).manifests, Run(events[..j]).manifests, y.normalizedKey);
    MoreManifestsMoreKeys(Run(events[..i + 1]).manifests, Run(events[..j]).manifests, y.groupKey);
  }

  /** `x` is a validation or test row of the snapshot that event `j` builds. */
  ghost predicate HoldoutRowOf(events: seq<Event>, j: nat, x: SnapshotRecord) {
    && j < |events| && events[j].BuildEvent?
    && var e := events[j];
       var b := Built(e.c, e.records, e.o, e.rnd, Run(events[..j]).manifests, e.newId);
       b.Ok? && x in b.value.snapshot.validation + b.value.snapshot.test
  }

  /** Whatever the run, no later snapshot puts into validation or test a row that shares the normalized key or
      the split group of a consumed one. */
  lemma ConsumedNeverReturns(events: seq<Event>, i: nat, j: nat, y: SnapshotRecord, x: SnapshotRecord)
    requires i < j
    ensures ConsumedAt(events, i, y) && HoldoutRowOf(events, j, x) ==> x.normalizedKey != y.normalizedKey && x.groupKey != y.groupKey
  {
    if ConsumedAt(events, i, y) && HoldoutRowOf(events, j, x) {
      StillNamed(events, i, j, y);
      var e := events[j];
      ConsumedNeverHidden(e.c, e.records, e.o, e.rnd, Run(events[..j]).manifests, e.newId);
    }
  }

  /** Every snapshot of a run is isolated. */
  lemma {:induction false} EverySnapshotIsIsolated(events: seq<Event>, n: nat)
    requires n < |Run(events).builds|
    ensures Isolated(Run(events).builds[n])
    decreases |events|
  {
    var before := Run(events[..|events| - 1]);
    if n < |before.builds| {
      EverySnapshotIsIsolated(events[..|events| - 1], n);
    } else {
      var e := events[|events| - 1];
      SnapshotIsIsolated(e.c, e.records, e.o, e.rnd, before.manifests, e.newId);
    }
  }
}
