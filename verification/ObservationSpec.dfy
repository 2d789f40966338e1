/** What the observation repository means (storage/src/repositories/observations.rs):
    the invariant of its tables, when an append is accepted and what it leaves,
    and what each read returns. */
module ObservationSpec {
  import opened Words
  import opened Wrappers
  import opened Databases
  import opened Text
  import opened Sorting
  import opened Records
  import opened Schema

  // ---- Conversions at the SQLite boundary -----------------------------------

  function RequiredI64(n: u64): Result<i64, StoreError> {
    if n <= I64_MAX then Ok(n) else Err(Parse)
  }

  function OptionalI64(n: Option<u64>): Result<Option<i64>, StoreError> {
    if n.None? then Ok(None) else
      var value :- RequiredI64(n.value);
      Ok(Some(value))
  }

  function ToU64(n: i64): Result<u64, StoreError> {
    if n >= 0 then Ok(n) else Err(Parse)
  }

  function ToU16(n: i64): Result<u16, StoreError> {
    if 0 <= n <= U16_MAX then Ok(n) else Err(Parse)
  }

  function ToDigest(bytes: seq<byte>): Result<Digest, StoreError> {
    if |bytes| == 32 then Ok(bytes) else Err(Parse)
  }

  function EncodeRow(r: ObservationRecord): Result<ObservationRow, StoreError> {
    var asserted :- OptionalI64(r.assertedEventTime);
    var observed :- RequiredI64(r.observedAt);
    Ok(ObservationRow(
         r.observationId, r.schemaVersion, r.sourceId, r.sourceEventId, r.sourceEventType, asserted, observed,
         r.normalizedProfileId, r.normalizedProfileVersion, r.normalizedPayloadDigest,
         if r.rawPayloadDigest.Some? then Some(r.rawPayloadDigest.value) else None,
         r.collectionRunId, r.supersedes,
         if r.retraction.Active? then "active" else "retracted",
         if r.visibility.Public? then "public" else "tenant",
         if r.visibility.Public? then None else Some(r.visibility.tenantId)))
  }

  function DecodeVisibility(row: ObservationRow): Result<Visibility, StoreError> {
    if row.visibilityScope == "public" then Ok(Public)
    else if row.visibilityScope == "tenant" then
      if row.tenantId.Some? then Ok(Tenant(row.tenantId.value)) else Err(Parse)
    else Err(Parse)
  }

  function DecodeRetraction(row: ObservationRow): Result<Retraction, StoreError> {
    if row.retractionStatus == "active" then Ok(Active)
    else if row.retractionStatus == "retracted" then Ok(Retracted)
    else Err(Parse)
  }

  /** `decode_observation` */
  function DecodeRow(row: ObservationRow, subjects: seq<string>, references: seq<string>)
    : Result<ObservationRecord, StoreError>
  {
    var normalized :- ToDigest(row.normalizedPayloadDigest);
    var raw :- if row.rawPayloadDigest.None? then Ok(None) else DecodeSome(row.rawPayloadDigest.value);
    var visibility :- DecodeVisibility(row);
    var retraction :- DecodeRetraction(row);
    var version :- ToU16(row.schemaVersion);
    var asserted :- if row.assertedEventTime.None? then Ok(None) else DecodeTime(row.assertedEventTime.value);
    var observed :- ToU64(row.observedAt);
    var profileVersion :- ToU16(row.normalizedProfileVersion);
    Ok(ObservationRecord(
         version, row.observationId, row.sourceId, row.sourceEventId, row.sourceEventType, subjects,
         asserted, observed, row.normalizedProfileId, profileVersion, normalized, raw, references,
         row.collectionRunId, row.supersedes, retraction, visibility))
  }

  function DecodeSome(bytes: seq<byte>): Result<Option<Digest>, StoreError> {
    var digest :- ToDigest(bytes);
    Ok(Some(digest))
  }

  function DecodeTime(n: i64): Result<Option<u64>, StoreError> {
    var time :- ToU64(n);
    Ok(Some(time))
  }

  // ---- The invariant of the tables ------------------------------------------

  /** A row that `DecodeRow` accepts: what the CHECKs and the typed boundary leave behind. */
  ghost predicate RowSound(t: Tables, id: string) {
    id in t.observations &&
    var row := t.observations[id].row;
    && row.observationId == id
    && RowChecks(row)
    && row.normalizedProfileVersion <= U16_MAX
    && row.sourceId in t.sources
    && row.collectionRunId in t.runs
  }

  ghost predicate Rowids(t: Tables) {
    && (forall id :: id in t.observations ==> t.observations[id].rowid < |t.observations|)
    && (forall a, b :: a in t.observations && b in t.observations && a != b
          ==> t.observations[a].rowid != t.observations[b].rowid)
  }

  ghost predicate ChildRowsOwned(t: Tables) {
    && (forall s :: s in t.subjects ==> s.0 in t.observations)
    && (forall s :: s in t.authenticityRefs ==> s.0 in t.observations)
  }

  /** `later` corrects `earlier`: inserted after it, about the same source event. */
  ghost predicate Corrects(t: Tables, later: string, earlier: string) {
    && later in t.observations && earlier in t.observations
    && SameEvent(t.observations[earlier].row, t.observations[later].row)
    && t.observations[earlier].rowid < t.observations[later].rowid
  }

  /** The supersession edge of `id` is the one its row names, and it points back. */
  ghost predicate EdgeSound(t: Tables, id: string) {
    && (id in t.supersessions ==>
          id in t.observations && t.observations[id].row.supersedes == Some(t.supersessions[id].superseded))
    && (id in t.observations && t.observations[id].row.supersedes.Some? ==>
          id in t.supersessions && Corrects(t, id, t.observations[id].row.supersedes.value))
  }

  ghost predicate EdgesSound(t: Tables) {
    forall id :: EdgeSound(t, id)
  }

  /** A row without a predecessor is the first of its source event. */
  ghost predicate RootsFirst(t: Tables) {
    forall root, id :: root in t.observations && id in t.observations && root != id
      && t.observations[root].row.supersedes.None? && SameEvent(t.observations[root].row, t.observations[id].row)
      ==> t.observations[root].rowid < t.observations[id].rowid
  }

  ghost predicate DigestsUnique(t: Tables) {
    forall a, b :: a in t.observations && b in t.observations && a != b
      && SameEvent(t.observations[a].row, t.observations[b].row)
      ==> t.observations[a].row.normalizedPayloadDigest != t.observations[b].row.normalizedPayloadDigest
  }

  /** The observations stored for one source. */
  function OfSource(t: Tables, sourceId: string): set<string> {
    set id | id in t.observations && t.observations[id].row.sourceId == sourceId
  }

  /** The cursor time of a source, 0 before its first append. */
  function CursorTime(t: Tables, sourceId: string): int {
    if sourceId in t.cursors then t.cursors[sourceId].observedAt else 0
  }

  /** A cursor is at or past every observation of its source, and at or past their number. */
  ghost predicate CursorDominates(t: Tables, sourceId: string) {
    && |OfSource(t, sourceId)| <= CursorTime(t, sourceId)
    && (forall id :: id in t.observations && t.observations[id].row.sourceId == sourceId
          ==> t.observations[id].row.observedAt <= CursorTime(t, sourceId))
  }

  ghost predicate HintsSound(t: Tables) {
    forall h :: h in t.hints ==> ContradictionPair(t, t.hints[h].left, t.hints[h].right)
  }

  ghost predicate Inv(t: Tables) {
    && (forall id :: id in t.observations ==> RowSound(t, id))
    && Rowids(t) && ChildRowsOwned(t) && EdgesSound(t) && RootsFirst(t) && DigestsUnique(t)
    && (forall s :: CursorDominates(t, s))
    && HintsSound(t)
  }

  // ---- Append ---------------------------------------------------------------

  /** `validate_cursor` */
  predicate CursorMatches(c: SyncCursor, sourceId: string, minimum: u64) {
    c.schemaVersion == 1 && c.sourceId == sourceId && c.cursorVersion != 0 && c.cursor != [] && minimum <= c.observedAt
  }

  /** Rejected before the transaction writes anything. */
  predicate Malformed(r: ObservationRecord, c: SyncCursor) {
    || ValidateObservation(r).Err?
    || !CursorMatches(c, r.sourceId, r.observedAt)
    || EncodeRow(r).Err?
  }

  predicate CursorAdvances(t: Tables, c: SyncCursor) {
    CursorTime(t, c.sourceId) < c.observedAt <= I64_MAX
  }

  /** A well-formed record, no schema constraint against its row, and a cursor that moves forward. */
  predicate Appendable(t: Tables, r: ObservationRecord, c: SyncCursor) {
    !Malformed(r, c) && RowAccepted(t, EncodeRow(r).value) && CursorAdvances(t, c)
  }

  /** One child row per reference. */
  function Tagged(id: string, references: seq<string>): set<(string, string)> {
    set x | x in references :: (id, x)
  }

  function CursorRowOf(c: SyncCursor): CursorRow
    requires c.observedAt <= I64_MAX
  {
    CursorRow(c.schemaVersion, c.cursorVersion, c.cursor, c.observedAt)
  }

  /** The tables with one more observation, its references and its edge. */
  function Inserted(t: Tables, row: ObservationRow, subjects: seq<string>, references: seq<string>): Tables {
    var id := row.observationId;
    t.(observations := t.observations[id := Stored(|t.observations|, row)],
       subjects := t.subjects + Tagged(id, subjects),
       authenticityRefs := t.authenticityRefs + Tagged(id, references),
       supersessions := if row.supersedes.None? then t.supersessions else
         t.supersessions[id := SupersessionRow(row.supersedes.value, row.schemaVersion, row.observedAt)])
  }

  function Extended(t: Tables, row: ObservationRow, subjects: seq<string>, references: seq<string>, cursor: CursorRow)
    : Tables
  {
    Inserted(t, row, subjects, references).(cursors := t.cursors[row.sourceId := cursor])
  }

  /** The tables after an accepted append. */
  function Appended(t: Tables, r: ObservationRecord, c: SyncCursor): Tables
    requires EncodeRow(r).Ok? && c.observedAt <= I64_MAX
  {
    Extended(t, EncodeRow(r).value, r.subjectRefs, r.authenticityRefs, CursorRowOf(c))
  }

  /** Why an append that is not interrupted fails. */
  function AppendFailure(t: Tables, r: ObservationRecord, c: SyncCursor): StoreError {
    if Malformed(r, c) then Parse else
      match InsertObservationRow(t, EncodeRow(r).value)
      case Err(error) => error
      case Ok(_) => Parse
  }

  /** BEGIN, the inserts, the cursor upsert and COMMIT. */
  function StatementCount(r: ObservationRecord): nat {
    4 + |r.subjectRefs| + |r.authenticityRefs| + if r.supersedes.Some? then 1 else 0
  }

  // ---- Registrations --------------------------------------------------------

  function RegisterRetentionClass(t: Tables, r: RetentionClass): Outcome {
    if r.schemaVersion != 1 || !StorageText(r.retentionClassId) || !StorageText(r.purpose) then Err(Parse) else
      var retain :- OptionalI64(r.retainForSeconds);
      InsertRetentionClass(t, r.retentionClassId, r.schemaVersion,
          RetentionRow(r.purpose, retain, r.rawPayloadPermitted))
  }

  function RegisterSource(t: Tables, r: Source): Outcome {
    if r.schemaVersion != 1 || !StorageText(r.sourceId) || !StorageText(r.connectorKind) || !StorageText(r.displayName)
    then Err(Parse)
    else InsertSource(t, r.sourceId, r.schemaVersion, SourceRow(r.connectorKind, r.displayName, r.retentionClassId))
  }

  function RegisterRun(t: Tables, r: CollectionRun): Outcome {
    if r.schemaVersion != 1 || !StorageText(r.collectionRunId) || !StorageText(r.sourceId) then Err(Parse) else
      var started :- RequiredI64(r.startedAt);
      var completed :- OptionalI64(r.completedAt);
      if completed.Some? && completed.value < started then Err(Parse) else
        InsertRun(t, r.collectionRunId, r.schemaVersion, RunRow(r.sourceId, started, completed))
  }

  function RegisterPayload(t: Tables, r: RawPayloadDescriptor): Outcome {
    if || r.schemaVersion != 1 || !StorageText(r.payloadId) || !StorageText(r.digestAlgorithm)
       || !StorageText(r.mediaType) || r.payloadDigest == ZERO_DIGEST
    then Err(Parse)
    else
      var length :- RequiredI64(r.byteLength);
      InsertPayload(t, r.payloadId, r.schemaVersion,
        PayloadRow(r.digestAlgorithm, r.payloadDigest, r.mediaType, length, r.custodyLocator, r.retentionClassId))
  }

  /** What one statement answers: records are checked before it is sent. */
  function Attempted(reply: Reply, outcome: Outcome): Outcome {
    if reply.Answered? || outcome == Err(Parse) then outcome else Err(Database(Disconnected))
  }

  /** The tables it leaves: it may have taken place without an answer. */
  function Left(reply: Reply, t: Tables, outcome: Outcome): Tables {
    if outcome.Ok? && !reply.Refused? then outcome.value else t
  }

  function RegisterHint(t: Tables, r: ContradictionHint, detectedAt: u64): Outcome {
    if || r.schemaVersion != 1 || !StorageText(r.hintId) || !StorageText(r.leftObservationId)
       || !StorageText(r.rightObservationId) || !StorageText(r.detectorId)
       || r.leftObservationId == r.rightObservationId || detectedAt == 0
    then Err(Parse)
    else
      var time :- RequiredI64(detectedAt);
      InsertHint(t, r.hintId, r.schemaVersion, HintRow(r.leftObservationId, r.rightObservationId, r.detectorId, time))
  }

  // ---- Reads ----------------------------------------------------------------

  /** The child rows of one observation, as `ORDER BY` returns them. */
  function ChildrenOf(rows: set<(string, string)>, id: string): seq<string> {
    StringOrder();
    Sort(set s | s in rows && s.0 == id :: s.1, StringLeq)
  }

  function ReadObservation(t: Tables, id: string): Result<ObservationRecord, StoreError> {
    if id !in t.observations then Err(NotFound("observation", id)) else
      DecodeRow(t.observations[id].row, ChildrenOf(t.subjects, id), ChildrenOf(t.authenticityRefs, id))
  }

  /** `get_visible_observation` */
  function ReadVisible(t: Tables, id: string, tenant: string): Result<ObservationRecord, StoreError> {
    if !StorageText(tenant) then Err(Parse) else
      var observation :- ReadObservation(t, id);
      if observation.visibility.Tenant? && observation.visibility.tenantId != tenant
      then Err(NotFound("observation", id))
      else Ok(observation)
  }

  /** The WHERE clause of the tenant-scoped queries. */
  predicate RowVisible(row: ObservationRow, tenant: string) {
    row.visibilityScope == "public" || row.tenantId == Some(tenant)
  }

  predicate Visible(t: Tables, id: string, tenant: string) {
    id in t.observations && RowVisible(t.observations[id].row, tenant)
  }

  /** Position of a row in insertion order; unknown ids come before every row. */
  ghost function Rank(t: Tables, id: string): nat {
    if id in t.observations then t.observations[id].rowid + 1 else 0
  }

  /** The recursive query of `lineage`: a superseding id is a primary key, so each
      step of the recursion joins at most one row. */
  function Lineage(t: Tables, id: string): seq<string>
    requires EdgesSound(t)
    decreases Rank(t, id)
  {
    if id in t.supersessions then
      assert EdgeSound(t, id);
      [id] + Lineage(t, t.supersessions[id].superseded)
    else [id]
  }

  /** `lineage` */
  function ReadLineage(t: Tables, id: string): Result<seq<string>, StoreError>
    requires EdgesSound(t)
  {
    if !StorageText(id) then Err(Parse) else Ok(Lineage(t, id))
  }

  /** The recursive part of the query of `visible_lineage`. */
  function VisibleWalk(t: Tables, id: string, tenant: string): seq<string>
    requires EdgesSound(t)
    decreases Rank(t, id)
  {
    if id in t.supersessions && Visible(t, t.supersessions[id].superseded, tenant) then
      assert EdgeSound(t, id);
      [id] + VisibleWalk(t, t.supersessions[id].superseded, tenant)
    else [id]
  }

  function VisibleLineageIds(t: Tables, id: string, tenant: string): seq<string>
    requires EdgesSound(t)
  {
    if Visible(t, id, tenant) then VisibleWalk(t, id, tenant) else []
  }

  /** One read per id, in order; the first error decides the result. */
  function Collect<T>(ids: seq<string>, read: string -> Result<T, StoreError>): Result<seq<T>, StoreError> {
    if ids == [] then Ok([]) else
      var n := |ids| - 1;
      var records :- Collect(ids[..n], read);
      var record :- read(ids[n]);
      Ok(records + [record])
  }

  /** Each listed observation, read again through the visibility check. */
  function ReadAll(t: Tables, ids: seq<string>, tenant: string): Result<seq<ObservationRecord>, StoreError> {
    Collect(ids, id => ReadVisible(t, id, tenant))
  }

  function ReadVisibleLineage(t: Tables, id: string, tenant: string): Result<seq<ObservationRecord>, StoreError>
    requires EdgesSound(t)
  {
    if !StorageText(id) || !StorageText(tenant) then Err(Parse) else
      var ids := VisibleLineageIds(t, id, tenant);
      if ids == [] then Err(NotFound("observation", id)) else ReadAll(t, ids, tenant)
  }

  /** `ORDER BY observed_at DESC, observation_id DESC` */
  predicate NewestFirst(a: (int, string), b: (int, string)) {
    b.0 < a.0 || (a.0 == b.0 && StringLeq(b.1, a.1))
  }

  lemma NewestFirstOrder()
    ensures TotalOrder(NewestFirst)
  {
    StringOrder();
  }

  function VisibleKeys(t: Tables, tenant: string): set<(int, string)> {
    set id | id in t.observations && RowVisible(t.observations[id].row, tenant)
      :: (t.observations[id].row.observedAt as int, id)
  }

  /** SQLite's LIMIT: a negative limit is no limit. */
  function Limited<T>(xs: seq<T>, limit: i64): seq<T> {
    if 0 <= limit < |xs| then xs[..limit] else xs
  }

  function ListedIds(t: Tables, tenant: string, limit: i64): seq<string> {
    NewestFirstOrder();
    var keys := Limited(Sort(VisibleKeys(t, tenant), NewestFirst), limit);
    seq(|keys|, i requires 0 <= i < |keys| => keys[i].1)
  }

  function ReadVisibleList(t: Tables, tenant: string, limit: i64): Result<seq<ObservationRecord>, StoreError> {
    if !StorageText(tenant) then Err(Parse) else ReadAll(t, ListedIds(t, tenant, limit), tenant)
  }
}
