/** Evidence from serving: approved under a privacy policy, written as a data source, and collected into the
    records of a later snapshot. */
module Telemetry {
  import opened Wrappers
  import opened Domain
  import opened Snapshot
  import opened Sequences

  datatype EvidenceSource = L4Fallback | RandomAudit | RiskAudit | Feedback

  datatype Policy = Policy(
    allowedSources: set<EvidenceSource>,
    humanReviewSources: set<EvidenceSource>,
    rawPayloadAllowed: bool,
    canonicalizationRequired: bool,
    defaultApprovedFor: map<EvidenceSource, seq<Role>>)

  datatype PayloadForm = RawPayload | RedactedNotTrainable

  datatype Review = Review(approved: bool, approvedFor: seq<Role>, payloadForm: PayloadForm)

  /** Times are numbers on one clock. */
  datatype Evidence = Evidence(
    evidenceId: string,
    traceId: Option<string>,
    releaseId: Option<string>,
    targetName: string,
    contractHash: string,
    input: Payload,
    output: Payload,
    referenceSource: ReferenceSource,
    source: EvidenceSource,
    approvedFor: seq<Role>,
    review: Review,
    sourceEventAt: int,
    createdAt: int)

  datatype Error =
    | ScopeMismatch
    | TraceMismatch
    | TraceReleaseMismatch
    | AuditMismatch
    | AuditReleaseMismatch
    | NotEligible
    | NoReleaseProvenance
    | InvalidPayload
    | NoEventTime
    | UnexpectedCarriers

  // ---------------------------------------------------------------------------
  // Approval
  // ---------------------------------------------------------------------------

  function AllowedRoles(policy: Policy, source: EvidenceSource): seq<Role> {
    if source in policy.defaultApprovedFor then policy.defaultApprovedFor[source] else []
  }

  function OnlyIn(roles: seq<Role>, allowed: seq<Role>): (kept: seq<Role>)
    ensures forall role: Role :: role in kept <==> role in roles && role in allowed
  {
    if roles == [] then []
    else (if roles[0] in allowed then [roles[0]] else []) + OnlyIn(roles[1..], allowed)
  }

  function ReviewFor(source: EvidenceSource, requested: seq<Role>, policy: Policy): Review {
    if source !in policy.allowedSources || source in policy.humanReviewSources
       || !policy.rawPayloadAllowed || policy.canonicalizationRequired
    then Review(false, [], RedactedNotTrainable)
    else
      var approved := OnlyIn(requested, AllowedRoles(policy, source));
      Review(approved != [], approved, RawPayload)
  }

  predicate RuntimeDerived(source: EvidenceSource) { source != Feedback }

  /** Identifiers that are missing or empty count as not given. */
  predicate Given(id: Option<string>) { id.Some? && id.value != "" }

  /** One source path with carriers that describe one request. Only user feedback asks for roles itself. */
  datatype Carrier = Carrier(
    source: EvidenceSource,
    traceId: Option<string>,
    releaseId: Option<string>,
    sourceEventAt: Option<int>,
    input: Payload,
    output: Payload,
    referenceSource: ReferenceSource,
    requested: seq<Role>)

  datatype PayloadContract = PayloadContract(validateInput: Payload -> Option<Payload>, validateOutput: Payload -> Option<Payload>)

  /** Approved evidence, nothing when the carriers or the review do not allow any, or an error. */
  function Approve(c: Carrier, targetName: string, contractHash: string, contract: PayloadContract, policy: Policy, now: int, id: string): Result<Option<Evidence>, Error> {
    var requested := if c.source == Feedback then c.requested else AllowedRoles(policy, c.source);
    var review := ReviewFor(c.source, requested, policy);
    var effective := OnlyIn(requested, review.approvedFor);
    var input, output := contract.validateInput(c.input), contract.validateOutput(c.output);
    if c.source == Feedback && (c.traceId.Some? || c.releaseId.Some?) then Err(UnexpectedCarriers)
    else if c.source == L4Fallback && (!Given(c.traceId) || !Given(c.releaseId) || c.sourceEventAt.None?) then Ok(None)
    else if !review.approved || effective == [] || review.payloadForm == RedactedNotTrainable then Ok(None)
    else if c.sourceEventAt.None? then Err(NoEventTime)
    else if RuntimeDerived(c.source) && !Given(c.releaseId) then Err(NoReleaseProvenance)
    else if input.None? || output.None? then Err(InvalidPayload)
    else
      Ok(Some(Evidence(id, c.traceId, c.releaseId, targetName, contractHash, input.value, output.value, c.referenceSource, c.source,
                       effective, review, c.sourceEventAt.value, if now < c.sourceEventAt.value then c.sourceEventAt.value else now)))
  }

  /** Evidence that a data source may include. */
  function EvidenceFault(e: Evidence): Option<Error> {
    if || !e.review.approved || e.approvedFor == [] || (exists role <- e.approvedFor :: role !in e.review.approvedFor)
       || e.review.payloadForm == RedactedNotTrainable || e.createdAt < e.sourceEventAt then Some(NotEligible)
    else if RuntimeDerived(e.source) && !Given(e.releaseId) then Some(NoReleaseProvenance)
    else None
  }

  // ---------------------------------------------------------------------------
  // Building a data source
  // ---------------------------------------------------------------------------

  datatype Trace = Trace(traceId: string, releaseId: string, targetName: string, contractHash: string)

  datatype AuditType = RandomType | RiskType | OtherType

  datatype Audit = Audit(traceId: string, releaseId: string, targetName: string, contractHash: string, auditType: AuditType)

  /** A row as written to and read from a file; either place of its permissions may be missing. */
  datatype Row = Row(
    evidenceId: string,
    input: Payload,
    output: Payload,
    referenceSource: ReferenceSource,
    approvedFor: Option<seq<Role>>,
    reviewApprovedFor: Option<seq<Role>>,
    sourceEventAt: int,
    createdAt: int)

  datatype DataSource = DataSource(
    sourceId: string,
    targetName: string,
    contractHash: string,
    cutoff: int,
    rows: seq<Row>,
    defaultEligibility: seq<Role>,
    sidecar: Option<map<string, seq<Role>>>)

  function TraceMap(traces: seq<Trace>): map<string, Trace> {
    if traces == [] then map[]
    else TraceMap(traces[..|traces| - 1])[traces[|traces| - 1].traceId := traces[|traces| - 1]]
  }

  function AuditsOf(audits: seq<Audit>, traceId: string): seq<Audit> {
    if audits == [] then []
    else
      var n := |audits| - 1;
      AuditsOf(audits[..n], traceId) + (if audits[n].traceId == traceId then [audits[n]] else [])
  }

  predicate Matches(source: EvidenceSource, auditType: AuditType) {
    (source == RandomAudit && auditType == RandomType) || (source == RiskAudit && auditType == RiskType)
  }

  function AuditFault(e: Evidence, audits: seq<Audit>): Option<Error> {
    if Given(e.releaseId) && exists a <- audits :: a.releaseId != e.releaseId.value then Some(AuditReleaseMismatch)
    else if e.source in {RandomAudit, RiskAudit} && !exists a <- audits :: Matches(e.source, a.auditType) then Some(AuditMismatch)
    else None
  }

  /** Why evidence that is in time cannot be included. */
  function InclusionFault(e: Evidence, traces: map<string, Trace>, audits: seq<Audit>): Option<Error> {
    if EvidenceFault(e).Some? then EvidenceFault(e)
    else if e.traceId.None? then None
    else if e.traceId.value !in traces then Some(TraceMismatch)
    else if Given(e.releaseId) && traces[e.traceId.value].releaseId != e.releaseId.value then Some(TraceReleaseMismatch)
    else AuditFault(e, AuditsOf(audits, e.traceId.value))
  }

  function Included(evidence: seq<Evidence>, traces: map<string, Trace>, audits: seq<Audit>, targetName: string, contractHash: string, cutoff: int): Result<seq<Evidence>, Error>
    decreases |evidence|
  {
    if evidence == [] then Ok([])
    else
      var e := evidence[0];
      if e.targetName != targetName || e.contractHash != contractHash then Err(ScopeMismatch)
      else if e.createdAt > cutoff then Included(evidence[1..], traces, audits, targetName, contractHash, cutoff)
      else if InclusionFault(e, traces, audits).Some? then Err(InclusionFault(e, traces, audits).value)
      else
        After([e], Included(evidence[1..], traces, audits, targetName, contractHash, cutoff))
  }

  function RowOf(e: Evidence): Row {
    Row(e.evidenceId, e.input, e.output, e.referenceSource, Some(e.approvedFor), Some(e.review.approvedFor), e.sourceEventAt, e.createdAt)
  }

  function RowsOf(evidence: seq<Evidence>): seq<Row> {
    seq(|evidence|, i requires 0 <= i < |evidence| => RowOf(evidence[i]))
  }

  /** Permissions by evidence identifier; of rows with one identifier the last counts. */
  function Sidecar(evidence: seq<Evidence>): map<string, seq<Role>> {
    if evidence == [] then map[]
    else Sidecar(evidence[..|evidence| - 1])[evidence[|evidence| - 1].evidenceId := evidence[|evidence| - 1].approvedFor]
  }

  /** The common permissions, when all rows have the same list. */
  function DefaultEligibility(evidence: seq<Evidence>): seq<Role> {
    if evidence != [] && forall e <- evidence :: e.approvedFor == evidence[0].approvedFor then evidence[0].approvedFor else []
  }

  function Scoped(traces: seq<Trace>, audits: seq<Audit>, targetName: string, contractHash: string): Option<Error> {
    var known := TraceMap(traces);
    if exists id <- known :: known[id].targetName != targetName || known[id].contractHash != contractHash then Some(TraceMismatch)
    else if exists a <- audits :: a.targetName != targetName || a.contractHash != contractHash then Some(AuditMismatch)
    else None
  }

  function SourceOf(included: seq<Evidence>, targetName: string, contractHash: string, cutoff: int, id: string): DataSource {
    DataSource(id, targetName, contractHash, cutoff, RowsOf(included), DefaultEligibility(included),
               if included == [] then None else Some(Sidecar(included)))
  }

  function DataSourceFor(
    traces: seq<Trace>, audits: seq<Audit>, evidence: seq<Evidence>, targetName: string, contractHash: string, cutoff: int, id: string): Result<DataSource, Error>
  {
    var included := Included(evidence, TraceMap(traces), audits, targetName, contractHash, cutoff);
    if Scoped(traces, audits, targetName, contractHash).Some? then Err(Scoped(traces, audits, targetName, contractHash).value)
    else if included.Err? then Err(included.error)
    else Ok(SourceOf(included.value, targetName, contractHash, cutoff, id))
  }

  method CheckAudits(e: Evidence, audits: seq<Audit>) returns (fault: Option<Error>)
    ensures fault == AuditFault(e, audits)
  {
    var matching := false;
    for i := 0 to |audits|
      invariant Given(e.releaseId) ==> forall a <- audits[..i] :: a.releaseId == e.releaseId.value
      invariant matching <==> exists a <- audits[..i] :: Matches(e.source, a.auditType)
    {
      assert audits[..i + 1] == audits[..i] + [audits[i]];
      if Given(e.releaseId) && audits[i].releaseId != e.releaseId.value {
        return Some(AuditReleaseMismatch);
      }
      if Matches(e.source, audits[i].auditType) {
        matching := true;
      }
    }
    assert audits[..|audits|] == audits;
    if e.source in {RandomAudit, RiskAudit} && !matching {
      return Some(AuditMismatch);
    }
    return None;
  }

  method GroupAudits(audits: seq<Audit>, targetName: string, contractHash: string) returns (grouped: Result<map<string, seq<Audit>>, Error>)
    ensures grouped.Err? <==> exists a <- audits :: a.targetName != targetName || a.contractHash != contractHash
    ensures grouped.Err? ==> grouped.error == AuditMismatch
    ensures grouped.Ok? ==> forall id: string :: AuditsOf(audits, id) == if id in grouped.value then grouped.value[id] else []
  {
    var byTrace: map<string, seq<Audit>> := map[];
    for i := 0 to |audits|
      invariant forall a <- audits[..i] :: a.targetName == targetName && a.contractHash == contractHash
      invariant forall id: string :: AuditsOf(audits[..i], id) == if id in byTrace then byTrace[id] else []
    {
      assert audits[..i + 1][..i] == audits[..i];
      var a := audits[i];
      if a.targetName != targetName || a.contractHash != contractHash {
        return Err(AuditMismatch);
      }
      byTrace := byTrace[a.traceId := (if a.traceId in byTrace then byTrace[a.traceId] else []) + [a]];
    }
    assert audits[..|audits|] == audits;
    grouped := Ok(byTrace);
  }

  method BuildTelemetryDataSource(
    traces: seq<Trace>, audits: seq<Audit>, evidence: seq<Evidence>, targetName: string, contractHash: string, cutoff: int, id: string)
    returns (source: Result<DataSource, Error>)
    ensures source == DataSourceFor(traces, audits, evidence, targetName, contractHash, cutoff, id)
  {
    var known := TraceMap(traces);
    if exists t <- known :: known[t].targetName != targetName || known[t].contractHash != contractHash {
      return Err(TraceMismatch);
    }
    var grouped := GroupAudits(audits, targetName, contractHash);
    if grouped.Err? {
      return Err(grouped.error);
    }
    ghost var all := Included(evidence, known, audits, targetName, contractHash, cutoff);
    var included: seq<Evidence> := [];
    assert evidence[0..] == evidence;
    AfterNothing(all);
    for i := 0 to |evidence|
      invariant all == After(included, Included(evidence[i..], known, audits, targetName, contractHash, cutoff))
    {
      var e := evidence[i];
      assert evidence[i..][1..] == evidence[i + 1..];
      if e.targetName != targetName || e.contractHash != contractHash {
        return Err(ScopeMismatch);
      }
      if e.createdAt > cutoff {
        continue;
      }
      var fault := EvidenceFault(e);
      if fault.None? && e.traceId.Some? {
        var t := e.traceId.value;
        if t !in known {
          fault := Some(TraceMismatch);
        } else if Given(e.releaseId) && known[t].releaseId != e.releaseId.value {
          fault := Some(TraceReleaseMismatch);
        } else {
          fault := CheckAudits(e, if t in grouped.value then grouped.value[t] else []);
        }
      }
      if fault.Some? {
        return Err(fault.value);
      }
      AfterOneMore(included, e, Included(evidence[i + 1..], known, audits, targetName, contractHash, cutoff));
      included := included + [e];
    }
    NothingAfter(included, Included(evidence[|evidence|..], known, audits, targetName, contractHash, cutoff));
    source := Ok(SourceOf(included, targetName, contractHash, cutoff, id));
  }

  // ---------------------------------------------------------------------------
  // Collecting it again
  // ---------------------------------------------------------------------------

  datatype CollectError =
    | SourceScopeMismatch
    | SourceCutoffLater
    | EventAfterCutoff
    | SidecarKeysMismatch
    | InvalidEligibility(evidenceId: string)
    | SidecarMismatch
    | DefaultMismatch

  function ActiveRows(rows: seq<Row>, sourceCutoff: int, cutoff: int): Result<seq<Row>, CollectError>
    decreases |rows|
  {
    if rows == [] then Ok([])
    else if rows[0].createdAt > sourceCutoff then ActiveRows(rows[1..], sourceCutoff, cutoff)
    else if rows[0].sourceEventAt > sourceCutoff || rows[0].sourceEventAt > cutoff then Err(EventAfterCutoff)
    else
      After([rows[0]], ActiveRows(rows[1..], sourceCutoff, cutoff))
  }

  /** What a row says of its own permissions, in either place. */
  function RowPermission(row: Row): Option<seq<Role>> {
    if row.approvedFor.Some? then row.approvedFor else row.reviewApprovedFor
  }

  function RolesOf(roles: seq<Role>): set<Role> { set role <- roles :: role }

  /** A row's own permissions, if it has any, must be known ones. */
  function RowFault(row: Row): Option<CollectError> {
    if RowPermission(row).Some? && !KnownEligibility(RowPermission(row).value) then Some(InvalidEligibility(row.evidenceId)) else None
  }

  function SidecarRowFault(row: Row, sidecar: map<string, seq<Role>>): Option<CollectError>
    requires row.evidenceId in sidecar
  {
    if RowFault(row).Some? then RowFault(row)
    else if !KnownEligibility(sidecar[row.evidenceId]) then Some(InvalidEligibility(row.evidenceId))
    else if RowPermission(row).Some? && RolesOf(RowPermission(row).value) != RolesOf(sidecar[row.evidenceId]) then Some(SidecarMismatch)
    else None
  }

  function SidecarFault(rows: seq<Row>, sidecar: map<string, seq<Role>>): Option<CollectError>
    requires forall row <- rows :: row.evidenceId in sidecar
    decreases |rows|
  {
    if rows == [] then None
    else if SidecarRowFault(rows[0], sidecar).Some? then SidecarRowFault(rows[0], sidecar)
    else SidecarFault(rows[1..], sidecar)
  }

  function FirstRowFault(rows: seq<Row>): Option<CollectError>
    decreases |rows|
  {
    if rows == [] then None else if RowFault(rows[0]).Some? then RowFault(rows[0]) else FirstRowFault(rows[1..])
  }

  function EvidenceIds(rows: seq<Row>): set<string> { set row <- rows :: row.evidenceId }

  function Permissions(rows: seq<Row>, source: DataSource): Result<map<string, seq<Role>>, CollectError> {
    if rows == [] then Ok(map[])
    else if source.sidecar.Some? then
      var sidecar := source.sidecar.value;
      if EvidenceIds(rows) != sidecar.Keys then Err(SidecarKeysMismatch)
      else
        assert forall row <- rows :: row.evidenceId in EvidenceIds(rows);
        if SidecarFault(rows, sidecar).Some? then Err(SidecarFault(rows, sidecar).value) else Ok(sidecar)
    else if !KnownEligibility(source.defaultEligibility) then Err(InvalidEligibility("default"))
    else if FirstRowFault(rows).Some? then Err(FirstRowFault(rows).value)
    else if exists row <- rows :: RowPermission(row).Some? && RolesOf(RowPermission(row).value) != RolesOf(source.defaultEligibility) then Err(DefaultMismatch)
    else Ok(map id <- EvidenceIds(rows) :: source.defaultEligibility)
  }

  function RecordOf(row: Row, eligibility: seq<Role>, sourceId: string): SourceRecord {
    SourceRecord(row.evidenceId, row.input, Some(row.output), Some(row.referenceSource), eligibility, sourceId, Metadata(sourceId, None))
  }

  function RecordsOf(rows: seq<Row>, permissions: map<string, seq<Role>>, sourceId: string): Result<seq<SourceRecord>, CollectError>
    decreases |rows|
  {
    if rows == [] then Ok([])
    else if rows[0].evidenceId !in permissions || !KnownEligibility(permissions[rows[0].evidenceId]) then Err(InvalidEligibility(rows[0].evidenceId))
    else
      After([RecordOf(rows[0], permissions[rows[0].evidenceId], sourceId)], RecordsOf(rows[1..], permissions, sourceId))
  }

  function Collected(source: DataSource, targetName: string, contractHash: string, cutoff: int): Result<seq<SourceRecord>, CollectError> {
    var active := ActiveRows(source.rows, source.cutoff, cutoff);
    if source.targetName != targetName || source.contractHash != contractHash then Err(SourceScopeMismatch)
    else if source.cutoff > cutoff then Err(SourceCutoffLater)
    else if active.Err? then Err(active.error)
    else
      var permissions := Permissions(active.value, source);
      if permissions.Err? then Err(permissions.error) else RecordsOf(active.value, permissions.value, source.sourceId)
  }

  method CollectTelemetryRecords(source: DataSource, targetName: string, contractHash: string, cutoff: int) returns (result: Result<seq<SourceRecord>, CollectError>)
    ensures result == Collected(source, targetName, contractHash, cutoff)
  {
    if source.targetName != targetName || source.contractHash != contractHash {
      return Err(SourceScopeMismatch);
    }
    if source.cutoff > cutoff {
      return Err(SourceCutoffLater);
    }
    var active: seq<Row> := [];
    assert source.rows[0..] == source.rows;
    AfterNothing(ActiveRows(source.rows, source.cutoff, cutoff));
    for i := 0 to |source.rows|
      invariant ActiveRows(source.rows, source.cutoff, cutoff) == After(active, ActiveRows(source.rows[i..], source.cutoff, cutoff))
    {
      assert source.rows[i..][1..] == source.rows[i + 1..];
      if source.rows[i].createdAt > source.cutoff {
        continue;
      }
      if source.rows[i].sourceEventAt > source.cutoff || source.rows[i].sourceEventAt > cutoff {
        return Err(EventAfterCutoff);
      }
      AfterOneMore(active, source.rows[i], ActiveRows(source.rows[i + 1..], source.cutoff, cutoff));
      active := active + [source.rows[i]];
    }
    NothingAfter(active, ActiveRows(source.rows[|source.rows|..], source.cutoff, cutoff));
    var permissions := Permissions(active, source);
    if permissions.Err? {
      return Err(permissions.error);
    }
    var records: seq<SourceRecord> := [];
    assert active[0..] == active;
    AfterNothing(RecordsOf(active, permissions.value, source.sourceId));
    for i := 0 to |active|
      invariant RecordsOf(active, permissions.value, source.sourceId) == After(records, RecordsOf(active[i..], permissions.value, source.sourceId))
    {
      assert active[i..][1..] == active[i + 1..];
      var id := active[i].evidenceId;
      if id !in permissions.value || !KnownEligibility(permissions.value[id]) {
        return Err(InvalidEligibility(id));
      }
      var record := RecordOf(active[i], permissions.value[id], source.sourceId);
      AfterOneMore(records, record, RecordsOf(active[i + 1..], permissions.value, source.sourceId));
      records := records + [record];
    }
    NothingAfter(records, RecordsOf(active[|active|..], permissions.value, source.sourceId));
    result := Ok(records);
  }
}
