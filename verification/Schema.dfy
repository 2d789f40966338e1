/** The observation plane's tables and the SQL statements that change them
    (storage/migrations/0003_observation_plane.sql, 0004_reconciliation_history.sql).
    A statement is a function: its CHECK, UNIQUE, FOREIGN KEY and trigger
    conditions decide between an error and the table contents it leaves. */
module Schema {
  import opened Words
  import opened Wrappers

  datatype Constraint = Unique | CheckFailed | ForeignKey | Aborted | Disconnected

  datatype StoreError =
    | Parse
    | Database(constraint: Constraint)
    | NotFound(entity: string, id: string)

  datatype ObservationRow = ObservationRow(
    observationId: string,
    schemaVersion: i64,
    sourceId: string,
    sourceEventId: string,
    sourceEventType: string,
    assertedEventTime: Option<i64>,
    observedAt: i64,
    normalizedProfileId: string,
    normalizedProfileVersion: i64,
    normalizedPayloadDigest: seq<byte>,
    rawPayloadDigest: Option<seq<byte>>,
    collectionRunId: string,
    supersedes: Option<string>,
    retractionStatus: string,
    visibilityScope: string,
    tenantId: Option<string>
  )

  /** A stored row with its SQLite rowid; nothing is ever deleted, so rowids count insertions. */
  datatype Stored = Stored(rowid: nat, row: ObservationRow)

  datatype SupersessionRow = SupersessionRow(superseded: string, schemaVersion: i64, observedAt: i64)

  datatype CursorRow = CursorRow(schemaVersion: i64, cursorVersion: i64, cursor: seq<byte>, observedAt: i64)

  datatype SourceRow = SourceRow(connectorKind: string, displayName: string, retentionClassId: string)

  datatype RunRow = RunRow(sourceId: string, startedAt: i64, completedAt: Option<i64>)

  datatype RetentionRow = RetentionRow(purpose: string, retainForSeconds: Option<i64>, rawPayloadPermitted: bool)

  datatype PayloadRow = PayloadRow(
    digestAlgorithm: string, payloadDigest: seq<byte>, mediaType: string, byteLength: i64,
    custodyLocator: Option<string>, retentionClassId: string)

  datatype HintRow = HintRow(left: string, right: string, detectorId: string, detectedAt: i64)

  datatype Tables = Tables(
    retentionClasses: map<string, RetentionRow>,
    sources: map<string, SourceRow>,
    runs: map<string, RunRow>,
    payloads: map<string, PayloadRow>,
    observations: map<string, Stored>,
    subjects: set<(string, string)>,
    authenticityRefs: set<(string, string)>,
    supersessions: map<string, SupersessionRow>,
    cursors: map<string, CursorRow>,
    hints: map<string, HintRow>
  )

  const EMPTY: Tables := Tables(map[], map[], map[], map[], map[], {}, {}, map[], map[], map[])

  type Outcome = Result<Tables, StoreError>

  predicate SameEvent(a: ObservationRow, b: ObservationRow) {
    a.sourceId == b.sourceId && a.sourceEventId == b.sourceEventId
  }

  /** Column checks of `observations`. */
  predicate RowChecks(row: ObservationRow) {
    && row.schemaVersion == 1
    && (row.assertedEventTime.Some? ==> row.assertedEventTime.value >= 0)
    && row.observedAt > 0
    && row.normalizedProfileVersion > 0
    && |row.normalizedPayloadDigest| == 32
    && (row.rawPayloadDigest.Some? ==> |row.rawPayloadDigest.value| == 32)
    && (row.retractionStatus == "active" || row.retractionStatus == "retracted")
    && (|| (row.visibilityScope == "public" && row.tenantId.None?)
        || (row.visibilityScope == "tenant" && row.tenantId.Some? && row.tenantId.value != ""))
    && row.supersedes != Some(row.observationId)
  }

  /** An earlier row reports the same source event. */
  predicate HasPrior(t: Tables, row: ObservationRow) {
    exists id :: id in t.observations && SameEvent(t.observations[id].row, row)
  }

  /** Triggers `observations_require_correction_lineage` and `observations_validate_correction_lineage`. */
  predicate LineageTriggersPass(t: Tables, row: ObservationRow) {
    && (HasPrior(t, row) ==> row.supersedes.Some?)
    && (row.supersedes.Some? ==>
          row.supersedes.value in t.observations && SameEvent(t.observations[row.supersedes.value].row, row))
  }

  predicate DigestTaken(t: Tables, row: ObservationRow) {
    exists id :: id in t.observations && SameEvent(t.observations[id].row, row)
      && t.observations[id].row.normalizedPayloadDigest == row.normalizedPayloadDigest
  }

  /** Every trigger, CHECK, UNIQUE and FOREIGN KEY condition of an `observations` insert. */
  predicate RowAccepted(t: Tables, row: ObservationRow) {
    && LineageTriggersPass(t, row)
    && RowChecks(row)
    && row.observationId !in t.observations && !DigestTaken(t, row)
    && row.sourceId in t.sources && row.collectionRunId in t.runs
  }

  function InsertObservationRow(t: Tables, row: ObservationRow): (r: Outcome)
    ensures r.Ok? <==> RowAccepted(t, row)
  {
    if !LineageTriggersPass(t, row) then Err(Database(Aborted))
    else if !RowChecks(row) then Err(Database(CheckFailed))
    else if row.observationId in t.observations || DigestTaken(t, row) then Err(Database(Unique))
    else if row.sourceId !in t.sources || row.collectionRunId !in t.runs then Err(Database(ForeignKey))
    else Ok(t.(observations := t.observations[row.observationId := Stored(|t.observations|, row)]))
  }

  /** One more row is one more prior and one more digest for the rows of its event. */
  lemma OneMoreRow(t: Tables, after: Tables, row: ObservationRow, later: ObservationRow)
    requires row.observationId !in t.observations
    requires after.observations == t.observations[row.observationId := Stored(|t.observations|, row)]
    ensures HasPrior(after, later) <==> HasPrior(t, later) || SameEvent(row, later)
    ensures DigestTaken(after, later)
       <==> DigestTaken(t, later)
            || (SameEvent(row, later) && row.normalizedPayloadDigest == later.normalizedPayloadDigest)
  {
    assert after.observations[row.observationId].row == row;
    forall id | id in t.observations
      ensures id in after.observations && after.observations[id] == t.observations[id]
    {
    }
  }

  /** What is asked of a row whose event already has one, `prior`. */
  predicate RowAcceptedInEvent(t: Tables, row: ObservationRow, prior: string) {
    && RowChecks(row)
    && row.observationId !in t.observations && !DigestTaken(t, row)
    && row.sourceId in t.sources && row.collectionRunId in t.runs
    && row.supersedes.Some?
    && (row.supersedes.value == prior
        || (row.supersedes.value in t.observations && SameEvent(t.observations[row.supersedes.value].row, row)))
  }

  /** An accepted row excludes others: none may take its id, none of its event may repeat its digest or come without a
      predecessor, and it may itself be named as one. For all other rows the table answers as before. */
  lemma InsertedRowExcludes(t: Tables, row: ObservationRow, later: ObservationRow)
    requires RowAccepted(t, row)
    ensures InsertObservationRow(t, row).Ok?
    ensures var after := InsertObservationRow(t, row).value;
            && after == t.(observations := after.observations)
            && after.observations == t.observations[row.observationId := Stored(|t.observations|, row)]
            && (later.observationId == row.observationId ==> !RowAccepted(after, later))
            && (later.observationId != row.observationId && SameEvent(later, row) ==>
                  (RowAccepted(after, later)
                   <==> && RowAcceptedInEvent(t, later, row.observationId)
                        && later.normalizedPayloadDigest != row.normalizedPayloadDigest))
            && (later.observationId != row.observationId && !SameEvent(later, row) ==>
                  (RowAccepted(after, later) <==> RowAccepted(t, later)))
  {
    OneMoreRow(t, InsertObservationRow(t, row).value, row, later);
  }

  function InsertSubject(t: Tables, id: string, reference: string): Outcome {
    if (id, reference) in t.subjects then Err(Database(Unique))
    else if id !in t.observations then Err(Database(ForeignKey))
    else Ok(t.(subjects := t.subjects + {(id, reference)}))
  }

  function InsertAuthenticityRef(t: Tables, id: string, reference: string): Outcome {
    if (id, reference) in t.authenticityRefs then Err(Database(Unique))
    else if id !in t.observations then Err(Database(ForeignKey))
    else Ok(t.(authenticityRefs := t.authenticityRefs + {(id, reference)}))
  }

  function InsertSupersession(t: Tables, superseding: string, row: SupersessionRow): Outcome {
    if row.schemaVersion != 1 || row.observedAt <= 0 || superseding == row.superseded then Err(Database(CheckFailed))
    else if superseding in t.supersessions then Err(Database(Unique))
    else if superseding !in t.observations || row.superseded !in t.observations then Err(Database(ForeignKey))
    else Ok(t.(supersessions := t.supersessions[superseding := row]))
  }

  /** The cursor upsert and its `rows_affected`: a stale cursor affects no row. */
  function UpsertCursor(t: Tables, sourceId: string, row: CursorRow): Result<(Tables, nat), StoreError> {
    if row.schemaVersion != 1 || row.cursorVersion <= 0 || row.observedAt <= 0 then Err(Database(CheckFailed))
    else if sourceId in t.cursors && row.observedAt <= t.cursors[sourceId].observedAt then Ok((t, 0))
    else if sourceId !in t.sources then Err(Database(ForeignKey))
    else Ok((t.(cursors := t.cursors[sourceId := row]), 1))
  }

  function InsertRetentionClass(t: Tables, id: string, schemaVersion: i64, row: RetentionRow): Outcome {
    if schemaVersion != 1 || (row.retainForSeconds.Some? && row.retainForSeconds.value < 0)
      then Err(Database(CheckFailed))
    else if id in t.retentionClasses then Err(Database(Unique))
    else Ok(t.(retentionClasses := t.retentionClasses[id := row]))
  }

  function InsertSource(t: Tables, id: string, schemaVersion: i64, row: SourceRow): Outcome {
    if schemaVersion != 1 then Err(Database(CheckFailed))
    else if id in t.sources then Err(Database(Unique))
    else if row.retentionClassId !in t.retentionClasses then Err(Database(ForeignKey))
    else Ok(t.(sources := t.sources[id := row]))
  }

  function InsertRun(t: Tables, id: string, schemaVersion: i64, row: RunRow): Outcome {
    if schemaVersion != 1 || row.startedAt <= 0 || (row.completedAt.Some? && row.completedAt.value < row.startedAt)
    then Err(Database(CheckFailed))
    else if id in t.runs then Err(Database(Unique))
    else if row.sourceId !in t.sources then Err(Database(ForeignKey))
    else Ok(t.(runs := t.runs[id := row]))
  }

  function InsertPayload(t: Tables, id: string, schemaVersion: i64, row: PayloadRow): Outcome {
    if schemaVersion != 1 || |row.payloadDigest| != 32 || row.byteLength < 0 then Err(Database(CheckFailed))
    else if id in t.payloads
         || (exists other :: other in t.payloads && t.payloads[other].digestAlgorithm == row.digestAlgorithm
              && t.payloads[other].payloadDigest == row.payloadDigest) then Err(Database(Unique))
    else if row.retentionClassId !in t.retentionClasses then Err(Database(ForeignKey))
    else Ok(t.(payloads := t.payloads[id := row]))
  }

  /** `COALESCE(tenant_id, '')` */
  function TenantOrEmpty(row: ObservationRow): string {
    if row.tenantId.Some? then row.tenantId.value else ""
  }

  /** Trigger `contradiction_hints_validate`: cross-source, same disclosure boundary, common subject. */
  predicate ContradictionPair(t: Tables, left: string, right: string) {
    && left in t.observations && right in t.observations
    && t.observations[left].row.sourceId != t.observations[right].row.sourceId
    && t.observations[left].row.visibilityScope == t.observations[right].row.visibilityScope
    && TenantOrEmpty(t.observations[left].row) == TenantOrEmpty(t.observations[right].row)
    && exists s :: s in t.subjects && s.0 == left && (right, s.1) in t.subjects
  }

  function InsertHint(t: Tables, id: string, schemaVersion: i64, row: HintRow): Outcome {
    if !ContradictionPair(t, row.left, row.right) then Err(Database(Aborted))
    else if schemaVersion != 1 || row.detectedAt <= 0 || row.left == row.right then Err(Database(CheckFailed))
    else if id in t.hints
         || (exists other :: other in t.hints && t.hints[other].left == row.left
              && t.hints[other].right == row.right && t.hints[other].detectorId == row.detectorId)
    then Err(Database(Unique))
    else Ok(t.(hints := t.hints[id := row]))
  }
}
