/** The Piteka evidence feed connector (indexer/src/piteka_feed.rs): ids, cursor, paging,
    authentication and normalization. */
module PitekaFeeds {
  import opened Words
  import opened Wrappers
  import opened Text
  import opened Records
  import opened Connectors
  import opened PitekaSigning

  /** In pieces, because the verifier unfolds a literal character by character. */
  const MEDIA_TYPE := "application/" + "vnd.diewan.piteka-" + "evidence-export+json"

  /** What a validated manifest contributes to the observation. */
  datatype Disclosure = Disclosure(mandateId: string, receiptId: string, createdAt: u64, profile: DeploymentProfile)

  /** Code this model cannot see: SHA-256, Ed25519 verification, JSON, and the reading of a manifest. */
  datatype Primitives = Primitives(
    sha256: seq<byte> -> Digest,
    verify: (Digest, seq<byte>, seq<byte>) -> bool,
    serialize: SignedExport -> Bytes,
    deserialize: seq<byte> -> Option<SignedExport>,
    disclose: seq<byte> -> Result<Disclosure, ConnectorError>,
    usableKey: Digest -> bool
  )

  /** The serialized export decodes to itself. */
  predicate Restores(p: Primitives, e: SignedExport) {
    p.deserialize(p.serialize(e)) == Some(e)
  }

  /** So does every export of the feed. */
  predicate RoundTrips(p: Primitives, feed: seq<SignedExport>) {
    forall i :: 0 <= i < |feed| ==> Restores(p, feed[i])
  }

  datatype Config = Config(
    sourceId: string, tenantId: string, signingKeyId: string, verifyingKey: Digest,
    retentionClassId: string, collectionRunId: string)

  // ---- Ids ------------------------------------------------------------------

  function Revised(exportId: string, revision: nat): string {
    exportId + ":revision:" + Decimal(revision)
  }

  function EventId(e: SignedExport): string {
    Revised(e.exportId, e.revision)
  }

  function ObservationId(e: SignedExport): string {
    "observation:piteka:" + Revised(e.exportId, e.revision)
  }

  function PriorObservationId(exportId: string): string {
    "observation:piteka:" + Revised(exportId, 1)
  }

  function AuthId(e: SignedExport): string {
    "piteka-feed-signature:" + Revised(e.exportId, e.revision)
  }

  /** An id with a revision names exactly one export id and revision, whatever the export id contains. */
  lemma RevisedInjective(id1: string, revision1: nat, id2: string, revision2: nat)
    requires Revised(id1, revision1) == Revised(id2, revision2)
    ensures id1 == id2 && revision1 == revision2
  {
    DecimalHasNoColon(revision1);
    DecimalHasNoColon(revision2);
    var a, b := id1 + ":revision", id2 + ":revision";
    assert Revised(id1, revision1) == a + ":" + Decimal(revision1);
    assert Revised(id2, revision2) == b + ":" + Decimal(revision2);
    LastColonSplits(a, Decimal(revision1), b, Decimal(revision2));
    DecimalInjective(revision1, revision2);
    assert id1 == a[..|a| - 9] && id2 == b[..|b| - 9];
  }

  lemma PrefixCancels(prefix: string, a: string, b: string)
    requires prefix + a == prefix + b
    ensures a == b
  {
    assert a == (prefix + a)[|prefix|..] && b == (prefix + b)[|prefix|..];
  }

  /** Observation ids and event ids identify each other. */
  lemma ObservationIdsFollowEvents(e1: SignedExport, e2: SignedExport)
    ensures ObservationId(e1) == ObservationId(e2) <==> EventId(e1) == EventId(e2)
  {
    if ObservationId(e1) == ObservationId(e2) {
      PrefixCancels("observation:piteka:", EventId(e1), EventId(e2));
    }
  }

  /** The event id of an export that supersedes another never equals the predecessor's event id. */
  lemma CorrectionHasItsOwnEvent(sha256: seq<byte> -> Digest, e: SignedExport)
    requires CheckSignable(sha256, e).Ok? && e.supersedes.Some?
    ensures EventId(e) != Revised(e.supersedes.value, 1)
  {
    if EventId(e) == Revised(e.supersedes.value, 1) {
      RevisedInjective(e.exportId, e.revision, e.supersedes.value, 1);
    }
  }

  // ---- Cursor codec ---------------------------------------------------------

  function EncodeCursor(sourceId: string, sequence: u64): ConnectorCursor {
    ConnectorCursor(sourceId, 1, ToBytes(sequence, 8))
  }

  function DecodeCursor(cursor: Option<ConnectorCursor>, sourceId: string): Result<u64, ConnectorError> {
    match cursor
    case None => Ok(0)
    case Some(c) =>
      var _ :- ValidateCursor(c);
      if c.sourceId != sourceId || c.version != 1 || |c.bytes| != 8
        then Err(InvalidConnectorField("piteka_feed.cursor"))
      else WordSizes(); Ok(FromBytes(c.bytes))
  }

  /** The cursor codec round-trips every sequence of its source. */
  lemma CursorRoundTrips(sourceId: string, sequence: u64)
    requires ConnectorText(sourceId)
    ensures DecodeCursor(Some(EncodeCursor(sourceId, sequence)), sourceId) == Ok(sequence)
  {
    WordSizes();
    FromBytesToBytes(sequence, 8);
  }

  /** ... and every accepted cursor is one that the codec writes. */
  lemma AcceptedCursorsAreCanonical(c: ConnectorCursor, sourceId: string)
    requires DecodeCursor(Some(c), sourceId).Ok?
    ensures EncodeCursor(sourceId, DecodeCursor(Some(c), sourceId).value) == c
  {
    ToBytesFromBytes(c.bytes);
  }

  // ---- Discovery ------------------------------------------------------------

  datatype Page = Page(schemaVersion: u16, exports: seq<SignedExport>, nextSequence: u64)

  /** Any feed endpoint: a page, or a failure, for a sequence and a limit. */
  type Transport = (u64, u32) -> Result<Page, ConnectorError>

  function RawOf(p: Primitives, config: Config, e: SignedExport): RawEvent {
    RawEvent(config.sourceId, EventId(e), MEDIA_TYPE, p.serialize(e), e.emittedAt, Tenant(config.tenantId))
  }

  function RawsOf(p: Primitives, config: Config, exports: seq<SignedExport>): (r: seq<RawEvent>)
    ensures |r| == |exports| && forall i :: 0 <= i < |r| ==> r[i] == RawOf(p, config, exports[i])
  {
    seq(|exports|, i requires 0 <= i < |exports| => RawOf(p, config, exports[i]))
  }

  /** Consecutive sequences after `expected`, all of the configured tenant. */
  predicate Contiguous(config: Config, exports: seq<SignedExport>, expected: u64) {
    exports == [] ||
    (&& exports[0].sequence == SaturatingSucc(expected) && exports[0].tenantId == config.tenantId
     && Contiguous(config, exports[1..], exports[0].sequence))
  }

  function LastSequence(exports: seq<SignedExport>, expected: u64): u64 {
    if exports == [] then expected else exports[|exports| - 1].sequence
  }

  /** What `discover` makes of a fetched page. */
  function ReadPage(p: Primitives, config: Config, page: Page, after: u64, limit: u32): Result<RawBatch,
                    ConnectorError> {
    if page.schemaVersion != FEED_SCHEMA_VERSION || |page.exports| > limit
    then Err(UnsupportedContractVersion(page.schemaVersion))
    else if !Contiguous(config, page.exports, after) then Err(InvalidConnectorField("piteka_feed.sequence_or_tenant"))
    else if page.nextSequence != LastSequence(page.exports, after)
      then Err(InvalidConnectorField("piteka_feed.next_sequence"))
    else
      var batch := RawBatch(config.sourceId, RawsOf(p, config, page.exports),
          EncodeCursor(config.sourceId, page.nextSequence));
      var _ :- CheckBatch(batch, limit);
      Ok(batch)
  }

  function Discovered(p: Primitives, config: Config, fetch: Transport, cursor: Option<ConnectorCursor>, limit: u32)
    : Result<RawBatch, ConnectorError>
  {
    var _ :- ValidateLimit(limit);
    var after :- DecodeCursor(cursor, config.sourceId);
    var page :- fetch(after, limit);
    ReadPage(p, config, page, after, limit)
  }

  lemma {:induction false} ContiguousUpTo(config: Config, exports: seq<SignedExport>, expected: u64, k: nat)
    requires k < |exports| && Contiguous(config, exports[..k], expected)
    ensures Contiguous(config, exports[..k + 1], expected) <==>
            exports[k].sequence == SaturatingSucc(LastSequence(exports[..k], expected))
              && exports[k].tenantId == config.tenantId
    decreases k
  {
    var longer := exports[..k + 1];
    if k == 0 {
      assert longer[1..] == [];
    } else {
      assert longer[1..] == exports[1..][..k];
      assert exports[..k][1..] == exports[1..][..k - 1];
      ContiguousUpTo(config, exports[1..], exports[0].sequence, k - 1);
    }
  }

  lemma {:induction false} ContiguousPrefix(config: Config, exports: seq<SignedExport>, expected: u64, k: nat)
    requires k <= |exports| && Contiguous(config, exports, expected)
    ensures Contiguous(config, exports[..k], expected)
    decreases k
  {
    if k > 0 {
      ContiguousPrefix(config, exports[1..], exports[0].sequence, k - 1);
      assert exports[..k][1..] == exports[1..][..k - 1];
    }
  }

  /** The loop of `discover`: check each export against the expected sequence and wrap it. */
  method WrapExports(p: Primitives, config: Config, exports: seq<SignedExport>, after: u64)
    returns (r: Result<(seq<RawEvent>, u64), ConnectorError>)
    ensures Contiguous(config, exports, after) ==> r == Ok((RawsOf(p, config, exports), LastSequence(exports, after)))
    ensures !Contiguous(config, exports, after) ==> r == Err(InvalidConnectorField("piteka_feed.sequence_or_tenant"))
  {
    var expected, events := after, [];
    for k := 0 to |exports|
      invariant Contiguous(config, exports[..k], after)
      invariant expected == LastSequence(exports[..k], after)
      invariant events == RawsOf(p, config, exports[..k])
    {
      var e := exports[k];
      ContiguousUpTo(config, exports, after, k);
      if e.sequence != SaturatingSucc(expected) || e.tenantId != config.tenantId {
        if Contiguous(config, exports, after) { ContiguousPrefix(config, exports, after, k + 1); }
        return Err(InvalidConnectorField("piteka_feed.sequence_or_tenant"));
      }
      expected := e.sequence;
      events := events + [RawOf(p, config, e)];
      assert exports[..k + 1] == exports[..k] + [e];
    }
    assert exports[..|exports|] == exports;
    return Ok((events, expected));
  }

  /** `discover` */
  method Discover(p: Primitives, config: Config, fetch: Transport, cursor: Option<ConnectorCursor>, limit: u32)
    returns (r: Result<RawBatch, ConnectorError>)
    ensures r == Discovered(p, config, fetch, cursor, limit)
  {
    var _ :- ValidateLimit(limit);
    var after :- DecodeCursor(cursor, config.sourceId);
    var page :- fetch(after, limit);
    if page.schemaVersion != FEED_SCHEMA_VERSION || |page.exports| > limit {
      return Err(UnsupportedContractVersion(page.schemaVersion));
    }
    var wrapped :- WrapExports(p, config, page.exports, after);
    if page.nextSequence != wrapped.1 {
      return Err(InvalidConnectorField("piteka_feed.next_sequence"));
    }
    var batch := RawBatch(config.sourceId, wrapped.0, EncodeCursor(config.sourceId, wrapped.1));
    var _ :- ValidateBatch(batch, limit);
    return Ok(batch);
  }

  /** `checkpoint` */
  function Checkpoint(batch: RawBatch): Result<ConnectorCursor, ConnectorError> {
    var _ :- CheckBatch(batch, MAX_DISCOVERY_LIMIT);
    Ok(batch.proposedCursor)
  }

  // ---- Authenticate and normalize -------------------------------------------

  function DecodeExport(p: Primitives, raw: RawEvent): Result<SignedExport, ConnectorError> {
    match p.deserialize(raw.bytes)
    case None => Err(InvalidConnectorField("piteka_feed.envelope"))
    case Some(e) => Ok(e)
  }

  function Authenticate(p: Primitives, config: Config, raw: RawEvent): Result<Authentication, ConnectorError> {
    var e :- DecodeExport(p, raw);
    if e.tenantId != config.tenantId || e.signingKeyId != config.signingKeyId || raw.eventId != EventId(e)
    then Ok(Rejected)
    else
      var message :- SigningBytes(p.sha256, e);
      if |e.signature| != 64 then Err(InvalidConnectorField("piteka_feed.signature"))
      else if !p.verify(config.verifyingKey, message, e.signature) then Ok(Rejected)
      else Ok(Authenticated([ProviderSignature(
                SCHEMA_VERSION, AuthId(e), "piteka-signing-key:" + e.signingKeyId,
                "ed25519-piteka-evidence-feed-v1", e.payloadSha256, e.signature)]))
  }

  function HexDigit(n: nat): char
    requires n < 16
  {
    if n < 10 then ('0' as int + n) as char else ('a' as int + n - 10) as char
  }

  /** `hex::encode` */
  function Hex(bytes: seq<byte>): string {
    if bytes == [] then "" else [HexDigit(bytes[0] / 16), HexDigit(bytes[0] % 16)] + Hex(bytes[1..])
  }

  function NormalizedObservation(p: Primitives, config: Config, raw: RawEvent, e: SignedExport,
                                 d: Disclosure): ObservationRecord {
    ObservationRecord(
      SCHEMA_VERSION, ObservationId(e), raw.sourceId, raw.eventId, "piteka_evidence_export",
      ["mandate:" + d.mandateId, "receipt:" + d.receiptId], Some(d.createdAt), raw.observedAt,
      DEPLOYMENT_PROFILE_ID, 1, e.payloadSha256, Some(p.sha256(raw.bytes)), [AuthId(e)],
      config.collectionRunId,
      if e.supersedes.None? then None else Some(PriorObservationId(e.supersedes.value)),
      Active, raw.visibility)
  }

  function PayloadDescriptor(p: Primitives, config: Config, raw: RawEvent): RawPayloadDescriptor {
    RawPayloadDescriptor(
      SCHEMA_VERSION, "piteka-raw:" + Hex(p.sha256(raw.bytes)), "sha-256", p.sha256(raw.bytes), raw.mediaType,
      |raw.bytes|, None, config.retentionClassId)
  }

  function Normalize(p: Primitives, config: Config, raw: RawEvent, version: u16): Result<Candidate, ConnectorError> {
    if version != 1 then Err(UnsupportedProfile(DEPLOYMENT_PROFILE_ID, version)) else
      var e :- DecodeExport(p, raw);
      var _ :- SigningBytes(p.sha256, e);
      var d :- p.disclose(e.payload);
      Ok(Candidate(NormalizedObservation(p, config, raw, e, d), Some(PayloadDescriptor(p, config, raw)),
          Some(d.profile)))
  }

  function PitekaConnector(p: Primitives, config: Config): Connector {
    Connector(config.sourceId, (raw: RawEvent) => Authenticate(p, config, raw),
              (raw: RawEvent, version: u16) => Normalize(p, config, raw, version))
  }

  /** The export passes the gate when it arrives as discovery wraps it. */
  predicate Accepted(p: Primitives, config: Config, e: SignedExport) {
    Gate(PitekaConnector(p, config), RawOf(p, config, e), 1).Ok?
  }

  /** The observation an accepted export is normalized to. */
  function ObservationOf(p: Primitives, config: Config, e: SignedExport): ObservationRecord
    requires Accepted(p, config, e)
  {
    Gate(PitekaConnector(p, config), RawOf(p, config, e), 1).value.observation
  }

  /** Signed by the configured key, for the configured tenant. */
  predicate Authentic(p: Primitives, config: Config, e: SignedExport) {
    && e.tenantId == config.tenantId && e.signingKeyId == config.signingKeyId
    && SigningBytes(p.sha256, e).Ok? && |e.signature| == 64
    && p.verify(config.verifyingKey, SigningBytes(p.sha256, e).value, e.signature)
  }

  lemma AuthenticationMeansAuthentic(p: Primitives, config: Config, raw: RawEvent)
    requires AuthenticatedMaterial(PitekaConnector(p, config), raw).Ok?
    ensures p.deserialize(raw.bytes).Some?
    ensures Authentic(p, config, p.deserialize(raw.bytes).value)
            && raw.eventId == EventId(p.deserialize(raw.bytes).value)
  {
    assert PitekaConnector(p, config).authenticate(raw) == Authenticate(p, config, raw);
  }

  lemma NormalizationShape(p: Primitives, config: Config, raw: RawEvent)
    requires p.deserialize(raw.bytes).Some? && Normalize(p, config, raw, 1).Ok?
    ensures var e := p.deserialize(raw.bytes).value;
            && p.disclose(e.payload).Ok?
            && Normalize(p, config, raw, 1).value.observation
              == NormalizedObservation(p, config, raw, e, p.disclose(e.payload).value)
            && Normalize(p, config, raw, 1).value.rawPayload == Some(PayloadDescriptor(p, config, raw))
  {
  }

  /** Nothing passes the gate of this connector unless the bytes decode to an export that the
      configured key signed for the configured tenant; the candidate is that export's normalization. */
  lemma GatedExportsAreAuthentic(p: Primitives, config: Config, raw: RawEvent)
    requires Gate(PitekaConnector(p, config), raw, 1).Ok?
    ensures p.deserialize(raw.bytes).Some?
    ensures var e, c := p.deserialize(raw.bytes).value, Gate(PitekaConnector(p, config), raw, 1).value;
            && Authentic(p, config, e) && raw.eventId == EventId(e) && p.disclose(e.payload).Ok?
            && c.observation == NormalizedObservation(p, config, raw, e, p.disclose(e.payload).value)
            && c.rawPayload == Some(PayloadDescriptor(p, config, raw))
            && WellFormed(c.observation) && raw.sourceId == config.sourceId
  {
    var connector := PitekaConnector(p, config);
    GateIsSound(connector, raw, 1);
    AuthenticationMeansAuthentic(p, config, raw);
    assert connector.normalize(raw, 1) == Normalize(p, config, raw, 1);
    NormalizationShape(p, config, raw);
  }

  /** The material that `authenticate` reports for an authentic export. */
  function MaterialOf(e: SignedExport): ProviderSignature
    requires |e.signature| == 64
  {
    ProviderSignature(SCHEMA_VERSION, AuthId(e), "piteka-signing-key:" + e.signingKeyId,
                      "ed25519-piteka-evidence-feed-v1", e.payloadSha256, e.signature)
  }

  lemma AuthenticExport(p: Primitives, config: Config, e: SignedExport)
    requires Restores(p, e) && Authentic(p, config, e)
    ensures Authenticate(p, config, RawOf(p, config, e)) == Ok(Authenticated([MaterialOf(e)]))
  {
    var raw := RawOf(p, config, e);
    assert DecodeExport(p, raw) == Ok(e);
    assert raw.eventId == EventId(e) && SigningBytes(p.sha256, e).Ok?;
  }

  /** What the gate asks of the normalization of an authentic export. */
  predicate Recordable(p: Primitives, config: Config, e: SignedExport) {
    && p.disclose(e.payload).Ok?
    && var d := p.disclose(e.payload).value;
       ValidateProfile(d.profile).Ok? && WellFormed(NormalizedObservation(p, config, RawOf(p, config, e), e, d))
  }

  lemma NormalizesTo(p: Primitives, config: Config, e: SignedExport)
    requires Restores(p, e) && SigningBytes(p.sha256, e).Ok?
    ensures var (n, raw) := (Normalize(p, config, RawOf(p, config, e), 1), RawOf(p, config, e));
            if p.disclose(e.payload).Err? then n.Err?
            else n == Ok(Candidate(NormalizedObservation(p, config, raw, e, p.disclose(e.payload).value),
                                   Some(PayloadDescriptor(p, config, raw)), Some(p.disclose(e.payload).value.profile)))
  {
  }

  lemma CandidateIff(raw: RawEvent, c: Candidate)
    requires c.profile.Some? && c.observation.normalizedProfileId == DEPLOYMENT_PROFILE_ID
    requires c.observation.sourceId == raw.sourceId && c.observation.sourceEventId == raw.eventId
    requires c.observation.visibility == raw.visibility
    ensures CheckCandidate(raw, c).Ok? <==> ValidateProfile(c.profile.value).Ok? && WellFormed(c.observation)
  {
    ValidateObservationMeaning(c.observation);
  }

  lemma MaterialUsableIff(e: SignedExport)
    requires |e.signature| == 64
    ensures CheckMaterial(MaterialOf(e)).Ok? <==> ConnectorText(AuthId(e)) && e.payloadSha256 != ZERO_DIGEST
  {
  }

  lemma AuthenticGate(p: Primitives, config: Config, e: SignedExport)
    requires Restores(p, e) && Authentic(p, config, e) && p.disclose(e.payload).Ok?
    ensures Accepted(p, config, e) <==>
            && ValidateEvent(RawOf(p, config, e)).Ok?
            && CheckCandidate(RawOf(p, config, e), Normalize(p, config, RawOf(p, config, e), 1).value).Ok?
            && CheckMaterial(MaterialOf(e)).Ok?
  {
    var connector, raw := PitekaConnector(p, config), RawOf(p, config, e);
    AuthenticExport(p, config, e);
    assert connector.authenticate(raw) == Authenticate(p, config, raw);
    NormalizesTo(p, config, e);
    assert connector.normalize(raw, 1) == Normalize(p, config, raw, 1);
    GateOfOne(connector, raw, 1, MaterialOf(e), Normalize(p, config, raw, 1).value);
  }

  lemma AuthenticRecord(p: Primitives, config: Config, e: SignedExport)
    requires Restores(p, e) && Authentic(p, config, e) && p.disclose(e.payload).Ok?
    ensures CheckCandidate(RawOf(p, config, e), Normalize(p, config, RawOf(p, config, e), 1).value).Ok?
            <==> Recordable(p, config, e)
    ensures Recordable(p, config, e) ==> e.payloadSha256 != ZERO_DIGEST
  {
    NormalizesTo(p, config, e);
    CandidateIff(RawOf(p, config, e), Normalize(p, config, RawOf(p, config, e), 1).value);
  }

  lemma AcceptedIsAuthentic(p: Primitives, config: Config, e: SignedExport)
    requires Restores(p, e) && Accepted(p, config, e)
    ensures Authentic(p, config, e) && p.disclose(e.payload).Ok?
  {
    GatedExportsAreAuthentic(p, config, RawOf(p, config, e));
  }

  /** Exactly which exports are accepted: valid as raw events, signed by the configured key for the
      configured tenant, with a disclosure that makes a well-formed observation and a usable signature id. */
  lemma AcceptedIff(p: Primitives, config: Config, e: SignedExport)
    requires Restores(p, e)
    ensures Accepted(p, config, e) <==>
            && ValidateEvent(RawOf(p, config, e)).Ok? && Authentic(p, config, e) && Recordable(p, config, e)
            && ConnectorText(AuthId(e))
  {
    if Authentic(p, config, e) && p.disclose(e.payload).Ok? {
      AuthenticGate(p, config, e);
      AuthenticRecord(p, config, e);
      MaterialUsableIff(e);
    } else if Accepted(p, config, e) {
      AcceptedIsAuthentic(p, config, e);
    }
  }
}
