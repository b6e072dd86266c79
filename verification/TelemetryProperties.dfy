/** Approved evidence survives the way through a data source into a snapshot, with its permissions. */
module TelemetryProperties {
  import opened Wrappers
  import opened Snapshot
  import opened SnapshotProperties
  import opened Telemetry

  // ---------------------------------------------------------------------------
  // Approval keeps to the policy
  // ---------------------------------------------------------------------------

  /** The policy lets evidence of this source be kept raw, without a human reading it first. */
  predicate SourceAllowed(policy: Policy, source: EvidenceSource) {
    source in policy.allowedSources && source !in policy.humanReviewSources && policy.rawPayloadAllowed && !policy.canonicalizationRequired
  }

  predicate SomeRoleAllowed(c: Carrier, policy: Policy) {
    exists role <- AllowedRoles(policy, c.source) :: c.source == Feedback ==> role in c.requested
  }

  /** The carriers name what evidence of their source must name, and nothing more. */
  predicate CarriersComplete(c: Carrier, contract: PayloadContract) {
    && c.sourceEventAt.Some?
    && (if c.source == Feedback then c.traceId.None? && c.releaseId.None? else Given(c.releaseId))
    && (c.source == L4Fallback ==> Given(c.traceId))
    && contract.validateInput(c.input).Some? && contract.validateOutput(c.output).Some?
  }

  /** Evidence is approved exactly when its carriers are complete and the policy allows the source and a role;
      it then has exactly the allowed roles (of user feedback, those asked for), and a data source accepts it. */
  lemma ApprovalFollowsThePolicy(c: Carrier, targetName: string, contractHash: string, contract: PayloadContract, policy: Policy, now: int, id: string)
    ensures var r := Approve(c, targetName, contractHash, contract, policy, now, id);
            && (r.Ok? && r.value.Some? <==> CarriersComplete(c, contract) && SourceAllowed(policy, c.source) && SomeRoleAllowed(c, policy))
            && (r.Ok? && r.value.Some? ==>
                  var e := r.value.value;
                  && e.source == c.source && e.evidenceId == id
                  && (forall role: Role :: role in e.approvedFor <==>
                        role in AllowedRoles(policy, c.source) && (c.source == Feedback ==> role in c.requested))
                  && EvidenceFault(e).None? && e.createdAt >= e.sourceEventAt)
  {
    ApprovalFollowsTheReview(c, targetName, contractHash, contract, policy, now, id);
    if SourceAllowed(policy, c.source) {
      EffectiveRoles(c, policy);
    }
  }

  function Requested(c: Carrier, policy: Policy): seq<Role> {
    if c.source == Feedback then c.requested else AllowedRoles(policy, c.source)
  }

  function EffectiveFor(c: Carrier, policy: Policy): seq<Role> {
    OnlyIn(Requested(c, policy), ReviewFor(c.source, Requested(c, policy), policy).approvedFor)
  }

  lemma ApprovalFollowsTheReview(c: Carrier, targetName: string, contractHash: string, contract: PayloadContract, policy: Policy, now: int, id: string)
    ensures var r := Approve(c, targetName, contractHash, contract, policy, now, id);
            var review := ReviewFor(c.source, Requested(c, policy), policy);
            && (r.Ok? && r.value.Some? <==> CarriersComplete(c, contract) && SourceAllowed(policy, c.source) && review.approved && EffectiveFor(c, policy) != [])
            && (r.Ok? && r.value.Some? ==>
                  var e := r.value.value;
                  && e.source == c.source && e.evidenceId == id && e.releaseId == c.releaseId
                  && e.approvedFor == EffectiveFor(c, policy) && e.review == review && e.createdAt >= e.sourceEventAt)
  {
  }

  /** The roles that survive the review are the allowed ones, of user feedback those asked for. */
  lemma EffectiveRoles(c: Carrier, policy: Policy)
    requires SourceAllowed(policy, c.source)
    ensures var review := ReviewFor(c.source, Requested(c, policy), policy);
            var effective := EffectiveFor(c, policy);
            && (forall role: Role :: role in effective <==> role in AllowedRoles(policy, c.source) && (c.source == Feedback ==> role in c.requested))
            && (forall role <- effective :: role in review.approvedFor)
            && (effective != [] <==> SomeRoleAllowed(c, policy)) && (review.approved <==> effective != [])
  {
    var review := ReviewFor(c.source, Requested(c, policy), policy);
    var effective := EffectiveFor(c, policy);
    if effective != [] {
      assert effective[0] in effective;
    }
    if review.approvedFor != [] {
      assert review.approvedFor[0] in effective;
    }
  }

  // ---------------------------------------------------------------------------
  // What a data source includes
  // ---------------------------------------------------------------------------

  function InTime(evidence: seq<Evidence>, cutoff: int): seq<Evidence>
    decreases |evidence|
  {
    if evidence == [] then []
    else (if evidence[0].createdAt <= cutoff then [evidence[0]] else []) + InTime(evidence[1..], cutoff)
  }

  ghost predicate Includable(e: Evidence, traces: map<string, Trace>, audits: seq<Audit>, targetName: string, contractHash: string, cutoff: int) {
    && e.targetName == targetName && e.contractHash == contractHash
    && (e.createdAt <= cutoff ==> InclusionFault(e, traces, audits).None?)
  }

  /** Inclusion succeeds exactly when all evidence is in scope and all that is in time has its provenance; it
      then includes just what is in time, in order. */
  lemma {:induction false} InclusionIsExact(
    evidence: seq<Evidence>, traces: map<string, Trace>, audits: seq<Audit>, targetName: string, contractHash: string, cutoff: int)
    ensures var included := Included(evidence, traces, audits, targetName, contractHash, cutoff);
            && (included.Ok? <==> forall e <- evidence :: Includable(e, traces, audits, targetName, contractHash, cutoff))
            && (included.Ok? ==> included.value == InTime(evidence, cutoff))
    decreases |evidence|
  {
    if evidence != [] {
      InclusionIsExact(evidence[1..], traces, audits, targetName, contractHash, cutoff);
      assert evidence == [evidence[0]] + evidence[1..];
      assert evidence[0] in evidence;
    }
  }

  lemma {:induction false} InTimeIsExact(evidence: seq<Evidence>, cutoff: int)
    ensures forall e: Evidence :: e in InTime(evidence, cutoff) <==> e in evidence && e.createdAt <= cutoff
    decreases |evidence|
  {
    if evidence != [] {
      InTimeIsExact(evidence[1..], cutoff);
      assert evidence == [evidence[0]] + evidence[1..];
    }
  }

  // ---------------------------------------------------------------------------
  // Collecting what was included
  // ---------------------------------------------------------------------------

  /** What every included piece of evidence satisfies. */
  ghost predicate Timely(included: seq<Evidence>, cutoff: int) {
    forall i | 0 <= i < |included| :: included[i].sourceEventAt <= included[i].createdAt <= cutoff
  }

  ghost predicate AllRolesKnown(included: seq<Evidence>) {
    forall i | 0 <= i < |included| :: KnownEligibility(included[i].approvedFor)
  }

  predicate Agree(d: Evidence, e: Evidence) {
    d.evidenceId == e.evidenceId ==> RolesOf(d.approvedFor) == RolesOf(e.approvedFor)
  }

  ghost predicate SameIdSameRoles(included: seq<Evidence>) {
    forall i, j {:trigger Agree(included[i], included[j])} | 0 <= i < |included| && 0 <= j < |included| :: Agree(included[i], included[j])
  }

  lemma {:induction false} AllRowsAreActive(rows: seq<Row>, sourceCutoff: int, cutoff: int)
    requires sourceCutoff <= cutoff && forall i | 0 <= i < |rows| :: rows[i].sourceEventAt <= rows[i].createdAt <= sourceCutoff
    ensures ActiveRows(rows, sourceCutoff, cutoff) == Ok(rows)
    decreases |rows|
  {
    if rows != [] {
      AllRowsAreActive(rows[1..], sourceCutoff, cutoff);
      assert rows == [rows[0]] + rows[1..];
    }
  }

  lemma {:induction false} InSidecar(evidence: seq<Evidence>, i: nat)
    requires i < |evidence|
    ensures evidence[i].evidenceId in Sidecar(evidence)
  {
    if i < |evidence| - 1 {
      InSidecar(evidence[..|evidence| - 1], i);
    }
  }

  lemma {:induction false} FromEvidence(evidence: seq<Evidence>, id: string) returns (i: nat)
    requires id in Sidecar(evidence)
    ensures i < |evidence| && evidence[i].evidenceId == id && Sidecar(evidence)[id] == evidence[i].approvedFor
  {
    var n := |evidence| - 1;
    if evidence[n].evidenceId == id {
      return n;
    }
    i := FromEvidence(evidence[..n], id);
  }

  lemma {:induction false} NoSidecarFault(rows: seq<Row>, sidecar: map<string, seq<Role>>)
    requires forall row <- rows :: row.evidenceId in sidecar
    ensures SidecarFault(rows, sidecar).None? <==> forall i | 0 <= i < |rows| :: SidecarRowFault(rows[i], sidecar).None?
    decreases |rows|
  {
    if rows != [] {
      NoSidecarFault(rows[1..], sidecar);
      assert forall i | 0 < i < |rows| :: rows[i] == rows[1..][i - 1];
    }
  }

  lemma {:induction false} AllRowsRecorded(rows: seq<Row>, permissions: map<string, seq<Role>>, sourceId: string)
    requires forall i | 0 <= i < |rows| :: rows[i].evidenceId in permissions && KnownEligibility(permissions[rows[i].evidenceId])
    ensures var records := RecordsOf(rows, permissions, sourceId);
            && records.Ok? && |records.value| == |rows|
            && forall i | 0 <= i < |rows| :: records.value[i] == RecordOf(rows[i], permissions[rows[i].evidenceId], sourceId)
    decreases |rows|
  {
    if rows != [] {
      AllRowsRecorded(rows[1..], permissions, sourceId);
      assert forall i | 0 < i < |rows| :: rows[i] == rows[1..][i - 1];
    }
  }

  lemma IdsOfRows(included: seq<Evidence>)
    ensures EvidenceIds(RowsOf(included)) == Sidecar(included).Keys
    ensures forall row <- RowsOf(included) :: row.evidenceId in Sidecar(included)
  {
    var rows := RowsOf(included);
    forall row | row in rows ensures row.evidenceId in Sidecar(included) {
      var i :| 0 <= i < |rows| && rows[i] == row;
      InSidecar(included, i);
    }
    forall id | id in Sidecar(included) ensures id in EvidenceIds(rows) {
      var i := FromEvidence(included, id);
      assert rows[i] in rows;
    }
  }

  lemma RowChecksOut(included: seq<Evidence>, i: nat)
    requires AllRolesKnown(included) && SameIdSameRoles(included) && i < |included|
    ensures included[i].evidenceId in Sidecar(included)
    ensures KnownEligibility(Sidecar(included)[included[i].evidenceId])
    ensures SidecarRowFault(RowOf(included[i]), Sidecar(included)).None?
  {
    InSidecar(included, i);
    var j := FromEvidence(included, included[i].evidenceId);
    assert Agree(included[i], included[j]);
  }

  lemma CheckedRowsAgree(included: seq<Evidence>)
    requires forall i | 0 <= i < |included| :: included[i].evidenceId in Sidecar(included)
    requires forall i | 0 <= i < |included| :: SidecarRowFault(RowOf(included[i]), Sidecar(included)).None?
    ensures AllRolesKnown(included) && SameIdSameRoles(included)
  {
    var sidecar := Sidecar(included);
    forall i | 0 <= i < |included|
      ensures KnownEligibility(included[i].approvedFor) && RolesOf(included[i].approvedFor) == RolesOf(sidecar[included[i].evidenceId])
    {
      assert SidecarRowFault(RowOf(included[i]), sidecar).None?;
    }
    forall i, j | 0 <= i < |included| && 0 <= j < |included| ensures Agree(included[i], included[j]) {
    }
  }

  /** The permissions check out exactly when all roles are known and equal identifiers carry equal roles. */
  lemma PermissionsCheckOut(included: seq<Evidence>)
    requires forall row <- RowsOf(included) :: row.evidenceId in Sidecar(included)
    ensures SidecarFault(RowsOf(included), Sidecar(included)).None? <==> AllRolesKnown(included) && SameIdSameRoles(included)
  {
    var rows, sidecar := RowsOf(included), Sidecar(included);
    NoSidecarFault(rows, sidecar);
    if AllRolesKnown(included) && SameIdSameRoles(included) {
      forall i | 0 <= i < |rows| ensures SidecarRowFault(rows[i], sidecar).None? {
        RowChecksOut(included, i);
      }
    } else if SidecarFault(rows, sidecar).None? {
      forall i | 0 <= i < |included| ensures included[i].evidenceId in sidecar && SidecarRowFault(RowOf(included[i]), sidecar).None? {
        assert rows[i] == RowOf(included[i]) && rows[i] in rows;
      }
      CheckedRowsAgree(included);
    }
  }

  /** Collecting a data source, at any cutoff not before its own, succeeds exactly when all its roles are known
      and rows with one identifier agree on theirs. */
  lemma CollectionIsExact(included: seq<Evidence>, targetName: string, contractHash: string, cutoff: int, id: string, later: int)
    requires Timely(included, cutoff) && cutoff <= later
    ensures Collected(SourceOf(included, targetName, contractHash, cutoff, id), targetName, contractHash, later)
            == (if included == [] then Ok([])
                else if AllRolesKnown(included) && SameIdSameRoles(included) then RecordsOf(RowsOf(included), Sidecar(included), id)
                else Err(FirstFault(included)))
  {
    if included != [] {
      AllRowsAreActive(RowsOf(included), cutoff, later);
      IdsOfRows(included);
      PermissionsCheckOut(included);
    } else {
      assert RowsOf(included) == [];
    }
  }

  /** The error a collection raises, when it raises one. */
  function FirstFault(included: seq<Evidence>): CollectError {
    IdsOfRows(included);
    var fault := SidecarFault(RowsOf(included), Sidecar(included));
    if fault.Some? then fault.value else SidecarMismatch
  }

  ghost predicate DistinctIds(included: seq<Evidence>) {
    forall i, j | 0 <= i < j < |included| :: included[i].evidenceId != included[j].evidenceId
  }

  /** The record a piece of evidence becomes. */
  function RecordFor(e: Evidence, sourceId: string): SourceRecord {
    RecordOf(RowOf(e), e.approvedFor, sourceId)
  }

  /** The records are those of the included evidence, one each, in order. */
  ghost predicate Mirrors(records: seq<SourceRecord>, included: seq<Evidence>, sourceId: string) {
    |records| == |included| && forall i | 0 <= i < |included| :: records[i] == RecordFor(included[i], sourceId)
  }

  lemma DistinctEvidenceMirrored(included: seq<Evidence>, id: string)
    requires DistinctIds(included) && AllRolesKnown(included)
    ensures SameIdSameRoles(included)
    ensures RecordsOf(RowsOf(included), Sidecar(included), id).Ok? && Mirrors(RecordsOf(RowsOf(included), Sidecar(included), id).value, included, id)
  {
    var rows, sidecar := RowsOf(included), Sidecar(included);
    forall i, j | 0 <= i < |included| && 0 <= j < |included| ensures Agree(included[i], included[j]) {
      if i < j {
        assert included[i].evidenceId != included[j].evidenceId;
      } else if j < i {
        assert included[j].evidenceId != included[i].evidenceId;
      }
    }
    forall i | 0 <= i < |rows| ensures rows[i].evidenceId in sidecar && sidecar[rows[i].evidenceId] == included[i].approvedFor {
      InSidecar(included, i);
      var j := FromEvidence(included, included[i].evidenceId);
      assert j == i;
    }
    AllRowsRecorded(rows, sidecar, id);
  }

  lemma IncludedIsTimely(
    evidence: seq<Evidence>, traces: map<string, Trace>, audits: seq<Audit>, targetName: string, contractHash: string, cutoff: int)
    requires Included(evidence, traces, audits, targetName, contractHash, cutoff).Ok?
    ensures Included(evidence, traces, audits, targetName, contractHash, cutoff).value == InTime(evidence, cutoff)
    ensures Timely(InTime(evidence, cutoff), cutoff)
  {
    var included := InTime(evidence, cutoff);
    InclusionIsExact(evidence, traces, audits, targetName, contractHash, cutoff);
    InTimeIsExact(evidence, cutoff);
    forall i | 0 <= i < |included| ensures included[i].sourceEventAt <= included[i].createdAt <= cutoff {
      assert included[i] in included;
      assert Includable(included[i], traces, audits, targetName, contractHash, cutoff);
    }
  }

  /** Evidence with distinct identifiers and known roles always survives: a built data source, collected at any
      later cutoff, gives exactly one record for each piece in time, with its payloads and approved roles. */
  lemma TelemetryRoundTrip(
    traces: seq<Trace>, audits: seq<Audit>, evidence: seq<Evidence>, targetName: string, contractHash: string, cutoff: int, id: string, later: int)
    requires DataSourceFor(traces, audits, evidence, targetName, contractHash, cutoff, id).Ok? && cutoff <= later
    requires DistinctIds(InTime(evidence, cutoff)) && AllRolesKnown(InTime(evidence, cutoff))
    ensures var collected := Collected(DataSourceFor(traces, audits, evidence, targetName, contractHash, cutoff, id).value, targetName, contractHash, later);
            collected.Ok? && Mirrors(collected.value, InTime(evidence, cutoff), id)
  {
    var included := InTime(evidence, cutoff);
    IncludedIsTimely(evidence, TraceMap(traces), audits, targetName, contractHash, cutoff);
    CollectionIsExact(included, targetName, contractHash, cutoff, id, later);
    DistinctEvidenceMirrored(included, id);
  }

  /** Collection raises an error exactly when some role is unknown or one identifier carries different roles. */
  lemma CollectionFailsIff(included: seq<Evidence>, targetName: string, contractHash: string, cutoff: int, id: string, later: int)
    requires Timely(included, cutoff) && cutoff <= later
    ensures Collected(SourceOf(included, targetName, contractHash, cutoff, id), targetName, contractHash, later).Ok?
            <==> AllRolesKnown(included) && SameIdSameRoles(included)
  {
    CollectionIsExact(included, targetName, contractHash, cutoff, id, later);
    if AllRolesKnown(included) && SameIdSameRoles(included) {
      forall i | 0 <= i < |included|
        ensures included[i].evidenceId in Sidecar(included) && KnownEligibility(Sidecar(included)[included[i].evidenceId])
      {
        RowChecksOut(included, i);
      }
      AllRowsRecorded(RowsOf(included), Sidecar(included), id);
    }
  }

  // ---------------------------------------------------------------------------
  // From a policy to the splits of a snapshot
  // ---------------------------------------------------------------------------

  /** Evidence that was approved under the policy. */
  ghost predicate ApprovedUnder(e: Evidence, policy: Policy) {
    exists c: Carrier, contract: PayloadContract, now: int ::
      Approve(c, e.targetName, e.contractHash, contract, policy, now, e.evidenceId) == Ok(Some(e))
  }

  lemma EvidenceKeepsToThePolicy(e: Evidence, policy: Policy)
    requires ApprovedUnder(e, policy)
    ensures SourceAllowed(policy, e.source) && forall role <- e.approvedFor :: role in AllowedRoles(policy, e.source)
  {
    var carrier: Carrier, contract: PayloadContract, now: int :|
      Approve(carrier, e.targetName, e.contractHash, contract, policy, now, e.evidenceId) == Ok(Some(e));
    ApprovalFollowsThePolicy(carrier, e.targetName, e.contractHash, contract, policy, now, e.evidenceId);
  }

  /** A snapshot row that merges a record collected from approved evidence lies in a split that the policy
      allows for the source of that evidence. */
  lemma SplitsObeyThePolicy(
    e: Evidence, policy: Policy, sourceId: string,
    c: Contract, records: seq<SourceRecord>, o: Options, rnd: Randomness, manifests: seq<Manifest>, newId: nat -> string)
    requires Built(c, records, o, rnd, manifests, newId).Ok?
    ensures ApprovedUnder(e, policy) && RecordFor(e, sourceId) in records ==>
              forall split: Split, x: SnapshotRecord ::
                x in Rows(Built(c, records, o, rnd, manifests, newId).value.snapshot, split) && x.normalizedKey == c.normalizeInput(e.input)
                ==> RoleOf(split) in AllowedRoles(policy, e.source)
  {
    if ApprovedUnder(e, policy) && RecordFor(e, sourceId) in records {
      EvidenceKeepsToThePolicy(e, policy);
      SplitsArePermitted(c, records, o, rnd, manifests, newId);
      forall split: Split, x: SnapshotRecord
        | x in Rows(Built(c, records, o, rnd, manifests, newId).value.snapshot, split) && x.normalizedKey == c.normalizeInput(e.input)
        ensures RoleOf(split) in AllowedRoles(policy, e.source)
      {
        assert PermittedRow(c, records, Built(c, records, o, rnd, manifests, newId).value, split, x);
        assert MergedInput(c, RecordFor(e, sourceId), x.source);
      }
    }
  }
}
