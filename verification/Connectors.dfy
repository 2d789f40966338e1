/** The source-neutral connector contract (indexer/src/connector.rs): bounded batches, and
    authentication strictly before normalization. */
module Connectors {
  import opened Words
  import opened Wrappers
  import opened Text
  import opened Sorting
  import opened Records

  const MAX_DISCOVERY_LIMIT: u32 := 10_000
  const MAX_RAW_EVENT_BYTES: nat := 8 * 1024 * 1024
  const MAX_CURSOR_BYTES: nat := 64 * 1024

  datatype ConnectorError =
    | UnsupportedContractVersion(version: u16)
    | UnsupportedProfile(profileId: string, profileVersion: u16)
    | InvalidConnectorField(field: string)
    | BoundExceeded(field: string)
    | DuplicateSourceEvent(eventId: string)
    | SourceMismatch(expected: string, actual: string)
    | AuthenticationRejected(eventId: string)
    | AuthenticationIndeterminate(eventId: string)
    | Operation

  datatype ConnectorCursor = ConnectorCursor(sourceId: string, version: u16, bytes: seq<byte>)

  datatype RawEvent = RawEvent(
    sourceId: string, eventId: string, mediaType: string, bytes: Bytes, observedAt: u64, visibility: Visibility)

  datatype RawBatch = RawBatch(sourceId: string, events: seq<RawEvent>, proposedCursor: ConnectorCursor)

  datatype Authentication =
    | Authenticated(material: seq<ProviderSignature>)
    | Rejected
    | Indeterminate

  datatype Candidate = Candidate(
    observation: ObservationRecord, rawPayload: Option<RawPayloadDescriptor>, profile: Option<DeploymentProfile>)

  /** What a connector implementation supplies to the gate. */
  datatype Connector = Connector(
    sourceId: string,
    authenticate: RawEvent -> Result<Authentication, ConnectorError>,
    normalize: (RawEvent, u16) -> Result<Candidate, ConnectorError>
  )

  type Verdict = Result<(), ConnectorError>

  function CheckText(value: string, field: string): Verdict {
    if ConnectorText(value) then Ok(()) else Err(InvalidConnectorField(field))
  }

  function ValidateLimit(limit: u32): Verdict {
    if limit == 0 || limit > MAX_DISCOVERY_LIMIT then Err(BoundExceeded("discover.limit")) else Ok(())
  }

  function ValidateCursor(c: ConnectorCursor): Verdict {
    var _ :- CheckText(c.sourceId, "cursor.source_id");
    if c.version == 0 then Err(InvalidConnectorField("cursor.cursor_version"))
    else if c.bytes == [] || |c.bytes| > MAX_CURSOR_BYTES then Err(BoundExceeded("cursor.bytes"))
    else Ok(())
  }

  /** `RawSourceEvent::validate` */
  function ValidateEvent(e: RawEvent): Verdict {
    var _ :- CheckText(e.sourceId, "raw_event.source_id");
    var _ :- CheckText(e.eventId, "raw_event.source_event_id");
    var _ :- CheckText(e.mediaType, "raw_event.media_type");
    if e.observedAt == 0 then Err(InvalidConnectorField("raw_event.observed_at"))
    else if e.bytes == [] || |e.bytes| > MAX_RAW_EVENT_BYTES then Err(BoundExceeded("raw_event.bytes"))
    else if e.visibility.Tenant? then CheckText(e.visibility.tenantId, "raw_event.tenant_id")
    else Ok(())
  }

  function EventIds(events: seq<RawEvent>): set<string> {
    set e | e in events :: e.eventId
  }

  /** The first complaint about `events[index..]`, given the events before it. */
  function CheckEventsFrom(check: RawEvent -> Verdict, events: seq<RawEvent>, index: nat, sourceId: string): Verdict
    requires index <= |events|
    decreases |events| - index
  {
    if index == |events| then Ok(()) else
      var e := events[index];
      var _ :- check(e);
      if e.sourceId != sourceId then Err(SourceMismatch(sourceId, e.sourceId))
      else if e.eventId in EventIds(events[..index]) then Err(DuplicateSourceEvent(e.eventId))
      else CheckEventsFrom(check, events, index + 1, sourceId)
  }

  /** `RawSourceBatch::validate` */
  function CheckBatch(b: RawBatch, limit: u32): Verdict {
    var _ :- ValidateLimit(limit);
    var _ :- CheckText(b.sourceId, "batch.source_id");
    var _ :- ValidateCursor(b.proposedCursor);
    if b.proposedCursor.sourceId != b.sourceId then Err(SourceMismatch(b.sourceId, b.proposedCursor.sourceId))
    else if |b.events| > limit then Err(BoundExceeded("batch.events"))
    else CheckEventsFrom(ValidateEvent, b.events, 0, b.sourceId)
  }

  predicate GoodEvent(e: RawEvent, sourceId: string) {
    ValidateEvent(e).Ok? && e.sourceId == sourceId
  }

  predicate GoodEvents(events: seq<RawEvent>, sourceId: string) {
    && (forall i :: 0 <= i < |events| ==> GoodEvent(events[i], sourceId))
    && (forall i, j :: 0 <= i < j < |events| ==> events[i].eventId != events[j].eventId)
  }

  lemma EventIdsBefore(events: seq<RawEvent>, index: nat)
    requires index < |events|
    ensures events[index].eventId in EventIds(events[..index])
            <==> exists i :: 0 <= i < index && events[i].eventId == events[index].eventId
  {
    if events[index].eventId in EventIds(events[..index]) {
      var e :| e in events[..index] && e.eventId == events[index].eventId;
      var i :| 0 <= i < index && events[i] == e;
    }
    forall i | 0 <= i < index ensures events[i] in events[..index] {
      assert events[..index][i] == events[i];
    }
  }

  lemma {:induction false} CheckEventsFromMeaning(check: RawEvent -> Verdict, events: seq<RawEvent>, index: nat,
                                                  sourceId: string)
    requires index <= |events|
    ensures CheckEventsFrom(check, events, index, sourceId).Ok? <==>
            && (forall i :: index <= i < |events| ==> check(events[i]).Ok? && events[i].sourceId == sourceId)
            && (forall i, j :: 0 <= i < j < |events| && index <= j ==> events[i].eventId != events[j].eventId)
    decreases |events| - index
  {
    if index < |events| {
      CheckEventsFromMeaning(check, events, index + 1, sourceId);
      EventIdsBefore(events, index);
    }
  }

  /** A batch passes exactly when it is bounded, owned by its source, well-formed and free of repeated event ids. */
  lemma CheckBatchMeaning(b: RawBatch, limit: u32)
    ensures CheckBatch(b, limit).Ok? <==>
            && 0 < limit <= MAX_DISCOVERY_LIMIT && |b.events| <= limit && ConnectorText(b.sourceId)
            && ValidateCursor(b.proposedCursor).Ok? && b.proposedCursor.sourceId == b.sourceId
            && GoodEvents(b.events, b.sourceId)
  {
    CheckEventsFromMeaning(ValidateEvent, b.events, 0, b.sourceId);
  }

  method ValidateEvents(check: RawEvent -> Verdict, events: seq<RawEvent>, sourceId: string) returns (r: Verdict)
    ensures r == CheckEventsFrom(check, events, 0, sourceId)
  {
    var ids: set<string> := {};
    for index := 0 to |events|
      invariant ids == EventIds(events[..index])
      invariant CheckEventsFrom(check, events, 0, sourceId) == CheckEventsFrom(check, events, index, sourceId)
    {
      var e := events[index];
      var _ :- check(e);
      if e.sourceId != sourceId {
        return Err(SourceMismatch(sourceId, e.sourceId));
      }
      if e.eventId in ids {
        return Err(DuplicateSourceEvent(e.eventId));
      }
      assert events[..index + 1] == events[..index] + [e];
      ids := ids + {e.eventId};
    }
    return Ok(());
  }

  method ValidateBatch(b: RawBatch, limit: u32) returns (r: Verdict)
    ensures r == CheckBatch(b, limit)
  {
    var _ :- ValidateLimit(limit);
    var _ :- CheckText(b.sourceId, "batch.source_id");
    var _ :- ValidateCursor(b.proposedCursor);
    if b.proposedCursor.sourceId != b.sourceId {
      return Err(SourceMismatch(b.sourceId, b.proposedCursor.sourceId));
    }
    if |b.events| > limit {
      return Err(BoundExceeded("batch.events"));
    }
    r := ValidateEvents(ValidateEvent, b.events, b.sourceId);
  }

  // ---- Authenticate, then normalize -----------------------------------------

  function MaterialIds(material: seq<ProviderSignature>): set<string> {
    set m | m in material :: m.materialId
  }

  function CheckMaterial(m: ProviderSignature): Verdict {
    var _ :- CheckText(m.materialId, "authentication.material_id");
    if m.signature == [] || m.signedPayloadDigest == ZERO_DIGEST
      then Err(InvalidConnectorField("authentication.material"))
    else Ok(())
  }

  /** The first complaint about `material[index..]`, given the material before it. */
  function CheckMaterialFrom(check: ProviderSignature -> Verdict, material: seq<ProviderSignature>, index: nat): Verdict
    requires index <= |material|
    decreases |material| - index
  {
    if index == |material| then Ok(()) else
      var m := material[index];
      var _ :- check(m);
      if m.materialId in MaterialIds(material[..index]) then Err(InvalidConnectorField("authentication.material"))
      else CheckMaterialFrom(check, material, index + 1)
  }

  /** The checks on a normalized candidate that precede its linkage to the authenticated material. */
  function CheckCandidate(raw: RawEvent, c: Candidate): Verdict {
    if c.profile.Some? && ValidateProfile(c.profile.value).Err? then Err(Operation)
    else if c.profile.Some? && c.observation.normalizedProfileId != DEPLOYMENT_PROFILE_ID
    then Err(InvalidConnectorField("normalized profile linkage"))
    else if ValidateObservation(c.observation).Err? then Err(Operation)
    else if || c.observation.sourceId != raw.sourceId || c.observation.sourceEventId != raw.eventId
            || c.observation.visibility != raw.visibility
    then Err(InvalidConnectorField("normalized source boundary"))
    else Ok(())
  }

  function AuthenticatedMaterial(connector: Connector, raw: RawEvent): Result<seq<ProviderSignature>, ConnectorError> {
    var authentication :- connector.authenticate(raw);
    match authentication
    case Authenticated(material) => Ok(material)
    case Rejected => Err(AuthenticationRejected(raw.eventId))
    case Indeterminate => Err(AuthenticationIndeterminate(raw.eventId))
  }

  /** `authenticate_and_normalize` */
  function Gate(connector: Connector, raw: RawEvent, version: u16): Result<Candidate, ConnectorError> {
    var _ :- ValidateEvent(raw);
    if raw.sourceId != connector.sourceId then Err(SourceMismatch(connector.sourceId, raw.sourceId)) else
      var material :- AuthenticatedMaterial(connector, raw);
      var candidate :- connector.normalize(raw, version);
      var _ :- CheckCandidate(raw, candidate);
      var _ :- CheckMaterialFrom(CheckMaterial, material, 0);
      if Elements(candidate.observation.authenticityRefs) != MaterialIds(material)
      then Err(InvalidConnectorField("normalized authenticity linkage"))
      else Ok(candidate)
  }

  /** Collects the authenticated material ids, refusing unusable or repeated material. */
  method CollectMaterial(check: ProviderSignature -> Verdict, material: seq<ProviderSignature>)
    returns (r: Result<set<string>, ConnectorError>)
    ensures CheckMaterialFrom(check, material, 0).Ok? ==> r == Ok(MaterialIds(material))
    ensures CheckMaterialFrom(check, material, 0).Err? ==> r == Err(CheckMaterialFrom(check, material, 0).error)
  {
    var authenticated: set<string> := {};
    for index := 0 to |material|
      invariant authenticated == MaterialIds(material[..index])
      invariant CheckMaterialFrom(check, material, 0) == CheckMaterialFrom(check, material, index)
    {
      var m := material[index];
      var _ :- check(m);
      if m.materialId in authenticated {
        return Err(InvalidConnectorField("authentication.material"));
      }
      assert material[..index + 1] == material[..index] + [m];
      authenticated := authenticated + {m.materialId};
    }
    assert material[..|material|] == material;
    return Ok(authenticated);
  }

  method AuthenticateAndNormalize(connector: Connector, raw: RawEvent, version: u16)
    returns (r: Result<Candidate, ConnectorError>)
    ensures r == Gate(connector, raw, version)
  {
    var _ :- ValidateEvent(raw);
    if raw.sourceId != connector.sourceId {
      return Err(SourceMismatch(connector.sourceId, raw.sourceId));
    }
    var material :- AuthenticatedMaterial(connector, raw);
    var candidate :- connector.normalize(raw, version);
    var _ :- CheckCandidate(raw, candidate);
    var authenticated :- CollectMaterial(CheckMaterial, material);
    if Elements(candidate.observation.authenticityRefs) != authenticated {
      return Err(InvalidConnectorField("normalized authenticity linkage"));
    }
    return Ok(candidate);
  }

  function IdsOf(material: seq<ProviderSignature>): (r: seq<string>)
    ensures |r| == |material| && forall i :: 0 <= i < |r| ==> r[i] == material[i].materialId
  {
    seq(|material|, i requires 0 <= i < |material| => material[i].materialId)
  }

  lemma MaterialIdsBefore(material: seq<ProviderSignature>, index: nat, id: string)
    requires index <= |material| && id !in MaterialIds(material[..index])
    ensures forall i :: 0 <= i < index ==> material[i].materialId != id
  {
    forall i | 0 <= i < index ensures material[i].materialId != id {
      assert material[i] in material[..index];
    }
  }

  lemma {:induction false} CheckedMaterialFresh(check: ProviderSignature -> Verdict, material: seq<ProviderSignature>,
                                                index: nat, j: nat)
    requires index <= j < |material| && CheckMaterialFrom(check, material, index).Ok?
    ensures material[j].materialId !in MaterialIds(material[..j])
    decreases j - index
  {
    if index < j { CheckedMaterialFresh(check, material, index + 1, j); }
  }

  lemma CheckedMaterialDistinct(check: ProviderSignature -> Verdict, material: seq<ProviderSignature>)
    requires CheckMaterialFrom(check, material, 0).Ok?
    ensures forall i, j :: 0 <= i < j < |material| ==> material[i].materialId != material[j].materialId
  {
    forall j | 0 <= j < |material| ensures forall i :: 0 <= i < j ==> material[i].materialId != material[j].materialId {
      CheckedMaterialFresh(check, material, 0, j);
      MaterialIdsBefore(material, j, material[j].materialId);
    }
  }

  lemma SameElementsPermute(xs: seq<string>, ys: seq<string>)
    requires Distinct(xs) && Distinct(ys) && Elements(xs) == Elements(ys)
    ensures multiset(xs) == multiset(ys)
  {
    forall x ensures multiset(xs)[x] == multiset(ys)[x] {
      CountOfDistinct(xs, x);
      CountOfDistinct(ys, x);
      assert x in xs <==> x in Elements(xs);
      assert x in ys <==> x in Elements(ys);
    }
  }

  lemma GatedRefs(refs: seq<string>, material: seq<ProviderSignature>)
    requires GoodRefs(refs) && CheckMaterialFrom(CheckMaterial, material, 0).Ok?
             && Elements(refs) == MaterialIds(material)
    ensures multiset(refs) == multiset(IdsOf(material))
  {
    CheckedMaterialDistinct(CheckMaterial, material);
    var ids := IdsOf(material);
    forall x ensures x in Elements(ids) <==> x in MaterialIds(material) {
      if x in MaterialIds(material) {
        var m :| m in material && m.materialId == x;
        var i :| 0 <= i < |material| && material[i] == m;
        assert ids[i] == x;
      }
      if x in Elements(ids) {
        var i :| 0 <= i < |ids| && ids[i] == x;
        assert material[i] in material;
      }
    }
    SameElementsPermute(refs, ids);
  }

  /** For any connector: an accepted candidate was authenticated first, its authenticity refs
      are a permutation of the authenticated material ids, and source, event and visibility
      are those of the raw event. */
  lemma GateIsSound(connector: Connector, raw: RawEvent, version: u16)
    requires Gate(connector, raw, version).Ok?
    ensures var o := Gate(connector, raw, version).value.observation;
            && AuthenticatedMaterial(connector, raw).Ok?
            && multiset(o.authenticityRefs) == multiset(IdsOf(AuthenticatedMaterial(connector, raw).value))
            && o.sourceId == raw.sourceId == connector.sourceId
            && o.sourceEventId == raw.eventId && o.visibility == raw.visibility
            && WellFormed(o) && connector.normalize(raw, version) == Ok(Gate(connector, raw, version).value)
  {
    var o := Gate(connector, raw, version).value.observation;
    ValidateObservationMeaning(o);
    GatedRefs(o.authenticityRefs, AuthenticatedMaterial(connector, raw).value);
  }

  /** What is left of the gate once one piece of material is authenticated and a candidate names it. */
  lemma GateOfOne(connector: Connector, raw: RawEvent, version: u16, m: ProviderSignature, c: Candidate)
    requires connector.sourceId == raw.sourceId && AuthenticatedMaterial(connector, raw) == Ok([m])
    requires connector.normalize(raw, version) == Ok(c) && c.observation.authenticityRefs == [m.materialId]
    ensures Gate(connector, raw, version).Ok? <==>
            ValidateEvent(raw).Ok? && CheckCandidate(raw, c).Ok? && CheckMaterial(m).Ok?
  {
    assert [m][..0] == [];
    assert MaterialIds([]) == {};
    assert CheckMaterialFrom(CheckMaterial, [m], 1).Ok?;
    assert Elements([m.materialId]) == {m.materialId} == MaterialIds([m]);
  }
}
