/** Source-neutral observation records and their fail-closed validators
    (shared/src/observation.rs). */
module Records {
  import opened Words
  import opened Wrappers
  import opened Text

  const SCHEMA_VERSION: u16 := 1
  const MAX_REFS: nat := 128

  /** In pieces, because the verifier unfolds a literal character by character. */
  const DEPLOYMENT_PROFILE_ID := "org.diewan.piteka." + "deployment-attestation" + "-observation.v1"

  datatype ValidationError =
    | UnsupportedVersion(version: u16)
    | InvalidField(field: string)
    | InvalidDigest(field: string)
    | BoundsExceeded(field: string)
    | DuplicateReference(field: string)
    | SelfSupersession

  type Check = Result<(), ValidationError>

  datatype Retraction = Active | Retracted

  datatype Visibility = Public | Tenant(tenantId: string)

  datatype ObservationRecord = ObservationRecord(
    schemaVersion: u16,
    observationId: string,
    sourceId: string,
    sourceEventId: string,
    sourceEventType: string,
    subjectRefs: seq<string>,
    assertedEventTime: Option<u64>,
    observedAt: u64,
    normalizedProfileId: string,
    normalizedProfileVersion: u16,
    normalizedPayloadDigest: Digest,
    rawPayloadDigest: Option<Digest>,
    authenticityRefs: seq<string>,
    collectionRunId: string,
    supersedes: Option<string>,
    retraction: Retraction,
    visibility: Visibility
  )

  datatype SyncCursor = SyncCursor(
    schemaVersion: u16, sourceId: string, cursorVersion: u16, cursor: seq<byte>, observedAt: u64)

  datatype RawPayloadDescriptor = RawPayloadDescriptor(
    schemaVersion: u16, payloadId: string, digestAlgorithm: string, payloadDigest: Digest,
    mediaType: string, byteLength: u64, custodyLocator: Option<string>, retentionClassId: string)

  datatype RetentionClass = RetentionClass(
    schemaVersion: u16, retentionClassId: string, purpose: string,
    retainForSeconds: Option<u64>, rawPayloadPermitted: bool)

  datatype Source = Source(
    schemaVersion: u16, sourceId: string, connectorKind: string, displayName: string, retentionClassId: string)

  datatype CollectionRun = CollectionRun(
    schemaVersion: u16, collectionRunId: string, sourceId: string, startedAt: u64, completedAt: Option<u64>)

  datatype ContradictionHint = ContradictionHint(
    schemaVersion: u16, hintId: string, leftObservationId: string, rightObservationId: string, detectorId: string)

  datatype ProviderSignature = ProviderSignature(
    schemaVersion: u16, materialId: string, sourceIdentityId: string, scheme: string,
    signedPayloadDigest: Digest, signature: seq<byte>)

  // ---- Validators -----------------------------------------------------------

  function ValidateVersion(version: u16): Check {
    if version == SCHEMA_VERSION then Ok(()) else Err(UnsupportedVersion(version))
  }

  function ValidateId(value: string, field: string): Check {
    if RecordId(value) then Ok(()) else Err(InvalidField(field))
  }

  function ValidateDigest(digest: Digest, field: string): Check {
    if digest == ZERO_DIGEST then Err(InvalidDigest(field)) else Ok(())
  }

  /** The first complaint about `values[index..]`, given the references before it. */
  function CheckRefsFrom(values: seq<string>, index: nat, field: string): Check
    requires index <= |values|
    decreases |values| - index
  {
    if index == |values| then Ok(()) else
      var _ :- ValidateId(values[index], field);
      if values[index] in values[..index] then Err(DuplicateReference(field)) else
        CheckRefsFrom(values, index + 1, field)
  }

  function CheckRefs(values: seq<string>, field: string): Check {
    if |values| > MAX_REFS then Err(BoundsExceeded(field)) else CheckRefsFrom(values, 0, field)
  }

  predicate GoodRefs(values: seq<string>) {
    && |values| <= MAX_REFS
    && (forall i :: 0 <= i < |values| ==> RecordId(values[i]))
    && (forall i, j :: 0 <= i < j < |values| ==> values[i] != values[j])
  }

  lemma {:induction false} CheckRefsFromMeaning(values: seq<string>, index: nat, field: string)
    requires index <= |values|
    ensures CheckRefsFrom(values, index, field).Ok? <==>
            && (forall i :: index <= i < |values| ==> RecordId(values[i]))
            && (forall i, j :: 0 <= i < j < |values| && index <= j ==> values[i] != values[j])
    decreases |values| - index
  {
    if index < |values| {
      CheckRefsFromMeaning(values, index + 1, field);
      var repeated := values[index] in values[..index];
      if repeated {
        var i :| 0 <= i < index && values[i] == values[index];
      }
    }
  }

  /** References are accepted exactly when bounded, well-formed and pairwise distinct. */
  lemma CheckRefsMeaning(values: seq<string>, field: string)
    ensures CheckRefs(values, field).Ok? <==> GoodRefs(values)
  {
    CheckRefsFromMeaning(values, 0, field);
  }

  method ValidateRefs(values: seq<string>, field: string) returns (r: Check)
    ensures r == CheckRefs(values, field)
    ensures r.Ok? <==> GoodRefs(values)
  {
    CheckRefsMeaning(values, field);
    if |values| > MAX_REFS {
      return Err(BoundsExceeded(field));
    }
    for index := 0 to |values|
      invariant CheckRefsFrom(values, 0, field) == CheckRefsFrom(values, index, field)
    {
      var _ :- ValidateId(values[index], field);
      if values[index] in values[..index] {
        return Err(DuplicateReference(field));
      }
    }
    return Ok(());
  }

  /** `ObservationRecord::validate` */
  function ValidateObservation(r: ObservationRecord): Check {
    var _ :- ValidateVersion(r.schemaVersion);
    var _ :- ValidateId(r.observationId, "observation_id");
    var _ :- ValidateId(r.sourceId, "source_id");
    var _ :- ValidateId(r.sourceEventId, "source_event_id");
    var _ :- ValidateId(r.sourceEventType, "source_event_type");
    var _ :- ValidateId(r.normalizedProfileId, "normalized_profile_id");
    var _ :- ValidateId(r.collectionRunId, "collection_run_id");
    if r.observedAt == 0 || r.normalizedProfileVersion == 0 then Err(InvalidField("time_or_profile_version")) else
      var _ :- ValidateDigest(r.normalizedPayloadDigest, "normalized_payload_digest");
      var _ :- if r.rawPayloadDigest.Some? then ValidateDigest(r.rawPayloadDigest.value, "raw_payload_digest")
        else Ok(());
      var _ :- CheckRefs(r.subjectRefs, "subject_refs");
      var _ :- CheckRefs(r.authenticityRefs, "authenticity_material_refs");
      if r.supersedes == Some(r.observationId) then Err(SelfSupersession) else
        var _ :- if r.supersedes.Some? then ValidateId(r.supersedes.value, "supersedes") else Ok(());
        if r.visibility.Tenant? then ValidateId(r.visibility.tenantId, "tenant_id") else Ok(())
  }

  /** What an accepted observation record looks like. */
  predicate WellFormed(r: ObservationRecord) {
    && r.schemaVersion == SCHEMA_VERSION
    && RecordId(r.observationId) && RecordId(r.sourceId) && RecordId(r.sourceEventId)
    && RecordId(r.sourceEventType) && RecordId(r.normalizedProfileId) && RecordId(r.collectionRunId)
    && r.observedAt > 0 && r.normalizedProfileVersion > 0
    && r.normalizedPayloadDigest != ZERO_DIGEST && r.rawPayloadDigest != Some(ZERO_DIGEST)
    && GoodRefs(r.subjectRefs) && GoodRefs(r.authenticityRefs)
    && r.supersedes != Some(r.observationId)
    && (r.supersedes.Some? ==> RecordId(r.supersedes.value))
    && (r.visibility.Tenant? ==> RecordId(r.visibility.tenantId))
  }

  lemma ValidateObservationMeaning(r: ObservationRecord)
    ensures ValidateObservation(r).Ok? <==> WellFormed(r)
  {
    CheckRefsMeaning(r.subjectRefs, "subject_refs");
    CheckRefsMeaning(r.authenticityRefs, "authenticity_material_refs");
  }

  // ---- The deployment/attestation projection --------------------------------

  datatype ObservedOrMissing<T> = Observed(value: T) | Missing(reasons: seq<string>)

  datatype StatusReading = StatusReading(status: string, assertedAt: u64, evidenceRefs: seq<string>)

  datatype WorkflowIdentity = WorkflowIdentity(
    provider: string, repository: string, workflowRef: string, runId: string, runAttempt: u32)

  datatype ArtifactAttestation = ArtifactAttestation(
    digestAlgorithm: string, artifactDigest: ObservedOrMissing<Digest>,
    attestationDigest: Digest, evidenceRefs: seq<string>)

  datatype DeploymentProfile = DeploymentProfile(
    schemaVersion: u16, receiptId: string, mandateId: string, intentId: string, attemptId: string,
    statusHistory: ObservedOrMissing<seq<StatusReading>>,
    workflowIdentity: ObservedOrMissing<WorkflowIdentity>,
    artifactAttestation: ObservedOrMissing<ArtifactAttestation>
  )

  function ValidateReasons(reasons: seq<string>): Check {
    if reasons == [] then Err(InvalidField("missing.reasons")) else CheckRefs(reasons, "missing.reasons")
  }

  function CheckHistoryFrom(history: seq<StatusReading>, index: nat, previous: u64): Check
    requires index <= |history|
    decreases |history| - index
  {
    if index == |history| then Ok(()) else
      var reading := history[index];
      var _ :- ValidateId(reading.status, "status_history.status");
      if reading.assertedAt == 0 || reading.assertedAt < previous
        then Err(InvalidField("status_history.asserted_at")) else
        var _ :- CheckRefs(reading.evidenceRefs, "status_history.evidence_refs");
        CheckHistoryFrom(history, index + 1, reading.assertedAt)
  }

  function CheckHistory(history: ObservedOrMissing<seq<StatusReading>>): Check {
    match history
    case Missing(reasons) => ValidateReasons(reasons)
    case Observed(value) =>
      if value == [] || |value| > MAX_REFS then Err(BoundsExceeded("status_history")) else CheckHistoryFrom(value, 0, 0)
  }

  predicate GoodReading(reading: StatusReading) {
    RecordId(reading.status) && reading.assertedAt > 0 && GoodRefs(reading.evidenceRefs)
  }

  predicate GoodHistory(history: seq<StatusReading>) {
    && 0 < |history| <= MAX_REFS
    && (forall i :: 0 <= i < |history| ==> GoodReading(history[i]))
    && (forall i, j :: 0 <= i < j < |history| ==> history[i].assertedAt <= history[j].assertedAt)
  }

  lemma {:induction false} CheckHistoryFromMeaning(history: seq<StatusReading>, index: nat, previous: u64)
    requires index <= |history|
    ensures CheckHistoryFrom(history, index, previous).Ok? <==>
            && (forall i :: index <= i < |history| ==> GoodReading(history[i]) && previous <= history[i].assertedAt)
            && (forall i, j :: index <= i < j < |history| ==> history[i].assertedAt <= history[j].assertedAt)
    decreases |history| - index
  {
    if index < |history| {
      var reading := history[index];
      CheckRefsMeaning(reading.evidenceRefs, "status_history.evidence_refs");
      CheckHistoryFromMeaning(history, index + 1, reading.assertedAt);
    }
  }

  /** `validate_status_history`: a disclosed history is bounded, well-formed and in time order. */
  method ValidateStatusHistory(history: ObservedOrMissing<seq<StatusReading>>) returns (r: Check)
    ensures r == CheckHistory(history)
    ensures history.Observed? ==> (r.Ok? <==> GoodHistory(history.value))
    ensures history.Missing? ==> (r.Ok? <==> history.reasons != [] && GoodRefs(history.reasons))
  {
    match history
    case Missing(reasons) =>
      CheckRefsMeaning(reasons, "missing.reasons");
      return ValidateReasons(reasons);
    case Observed(value) =>
      CheckHistoryFromMeaning(value, 0, 0);
      if value == [] || |value| > MAX_REFS {
        return Err(BoundsExceeded("status_history"));
      }
      var previous: u64 := 0;
      for index := 0 to |value|
        invariant CheckHistoryFrom(value, 0, 0) == CheckHistoryFrom(value, index, previous)
      {
        var reading := value[index];
        var _ :- ValidateId(reading.status, "status_history.status");
        if reading.assertedAt == 0 || reading.assertedAt < previous {
          return Err(InvalidField("status_history.asserted_at"));
        }
        var _ :- ValidateRefs(reading.evidenceRefs, "status_history.evidence_refs");
        previous := reading.assertedAt;
      }
      return Ok(());
  }

  function ValidateWorkflow(workflow: ObservedOrMissing<WorkflowIdentity>): Check {
    match workflow
    case Missing(reasons) => ValidateReasons(reasons)
    case Observed(value) =>
      var _ :- ValidateId(value.provider, "workflow.provider");
      var _ :- ValidateId(value.repository, "workflow.repository");
      var _ :- ValidateId(value.workflowRef, "workflow.workflow_ref");
      var _ :- ValidateId(value.runId, "workflow.run_id");
      if value.runAttempt == 0 then Err(InvalidField("workflow.run_attempt")) else Ok(())
  }

  function ValidateArtifactDigest(artifact: ObservedOrMissing<Digest>): Check {
    match artifact
    case Observed(digest) => ValidateDigest(digest, "artifact.digest")
    case Missing(reasons) => ValidateReasons(reasons)
  }

  function ValidateArtifact(artifact: ObservedOrMissing<ArtifactAttestation>): Check {
    match artifact
    case Missing(reasons) => ValidateReasons(reasons)
    case Observed(value) =>
      var _ :- ValidateId(value.digestAlgorithm, "artifact.digest_algorithm");
      var _ :- ValidateArtifactDigest(value.artifactDigest);
      var _ :- ValidateDigest(value.attestationDigest, "artifact.attestation_digest");
      if value.evidenceRefs == [] then Err(InvalidField("artifact.attestation_evidence_refs")) else
        CheckRefs(value.evidenceRefs, "artifact.attestation_evidence_refs")
  }

  /** `DeploymentAttestationProjectionV1::validate` */
  function ValidateProfile(p: DeploymentProfile): Check {
    var _ :- ValidateVersion(p.schemaVersion);
    var _ :- ValidateId(p.receiptId, "receipt_id");
    var _ :- ValidateId(p.mandateId, "mandate_id");
    var _ :- ValidateId(p.intentId, "intent_id");
    var _ :- ValidateId(p.attemptId, "attempt_id");
    var _ :- CheckHistory(p.statusHistory);
    var _ :- ValidateWorkflow(p.workflowIdentity);
    ValidateArtifact(p.artifactAttestation)
  }
}
