/** Exact contents of the store after ingestion passes over a well-formed feed. */
module IngestExact {
  import opened Words
  import opened Wrappers
  import opened Databases
  import opened Text
  import opened Records
  import opened Schema
  import opened ObservationSpec
  import opened ObservationInvariant
  import opened TenantReads
  import opened Connectors
  import opened PitekaSigning
  import opened PitekaFeeds
  import opened PitekaPaging
  import opened Ingestion

  // ---- Single records -------------------------------------------------------

  /** The normalization of an accepted export. */
  lemma ObservationFacts(p: Primitives, config: Config, e: SignedExport)
    requires Restores(p, e) && Accepted(p, config, e)
    ensures Authentic(p, config, e)
    ensures var r := ObservationOf(p, config, e);
            && WellFormed(r) && r.observationId == ObservationId(e) && r.sourceId == config.sourceId
            && r.sourceEventId == EventId(e) && r.observedAt == e.emittedAt
              && r.collectionRunId == config.collectionRunId
            && r.assertedEventTime.Some?
            && (r.supersedes.Some? <==> e.supersedes.Some?)
            && r.visibility == Tenant(config.tenantId)
  {
    GatedExportsAreAuthentic(p, config, RawOf(p, config, e));
  }

  predicate TimesFit(r: ObservationRecord) {
    r.observedAt <= I64_MAX && (r.assertedEventTime.Some? ==> r.assertedEventTime.value <= I64_MAX)
  }

  lemma EncodeWhenTimesFit(r: ObservationRecord)
    ensures EncodeRow(r).Ok? <==> TimesFit(r)
  {
  }

  lemma NotMalformedWhen(config: Config, r: ObservationRecord)
    requires WellFormed(r) && r.sourceId == config.sourceId
    ensures !Malformed(r, CursorFor(config, r)) <==> TimesFit(r)
  {
    ValidateObservationMeaning(r);
    EncodeWhenTimesFit(r);
  }

  lemma EncodedRowChecks(r: ObservationRecord)
    requires WellFormed(r) && EncodeRow(r).Ok?
    ensures RowChecks(EncodeRow(r).value)
  {
  }

  /** A stored observation is not appended again, and reads back. */
  lemma StoredIsDuplicate(config: Config, t: Tables, s: Summary, r: ObservationRecord)
    requires Inv(t) && r.observationId in t.observations
    ensures Persist(config, t, s, r) ==
            State(t, s.(duplicates := s.duplicates + 1, observationIds := s.observationIds + [r.observationId]), None)
  {
    var id := r.observationId;
    assert RowSound(t, id);
    SoundRowDecodes(t, id, ChildrenOf(t.subjects, id), ChildrenOf(t.authenticityRefs, id), "");
    NeverTwice(t, r, CursorFor(config, r));
  }

  lemma NeverTwice(t: Tables, r: ObservationRecord, c: SyncCursor)
    requires r.observationId in t.observations
    ensures !Appendable(t, r, c)
  {
  }

  /** Whether a fresh observation of a registered source and run is accepted. */
  lemma FreshIsAppendable(config: Config, t: Tables, r: ObservationRecord)
    requires WellFormed(r) && r.sourceId == config.sourceId && r.sourceId in t.sources && r.collectionRunId in t.runs
    requires r.observationId !in t.observations
    requires forall id :: id in t.observations && t.observations[id].row.sourceId == r.sourceId
               ==> t.observations[id].row.sourceEventId != r.sourceEventId
    ensures Appendable(t, r, CursorFor(config, r)) <==>
            r.supersedes.None? && TimesFit(r) && CursorTime(t, config.sourceId) < r.observedAt
  {
    NotMalformedWhen(config, r);
    if TimesFit(r) {
      EncodeWhenTimesFit(r);
      EncodedRowChecks(r);
      FreshRowAccepted(t, EncodeRow(r).value);
    }
  }

  lemma FreshRowAccepted(t: Tables, row: ObservationRow)
    requires row.sourceId in t.sources && row.collectionRunId in t.runs && row.observationId !in t.observations
    requires RowChecks(row)
    requires forall id :: id in t.observations && t.observations[id].row.sourceId == row.sourceId
               ==> t.observations[id].row.sourceEventId != row.sourceEventId
    ensures RowAccepted(t, row) <==> row.supersedes.None?
  {
  }

  // ---- The store as a mirror of the feed ------------------------------------

  /** What an export is normalized to, if it passes the gate. */
  type Normalizer = SignedExport -> Option<ObservationRecord>

  /** A feed as one source sees it. */
  datatype View = View(config: Config, feed: seq<SignedExport>, norm: Normalizer) {
    predicate Accepts(i: nat)
      requires i < |feed|
    {
      norm(feed[i]).Some?
    }

    function Record(i: nat): ObservationRecord
      requires i < |feed| && Accepts(i)
    {
      norm(feed[i]).value
    }
  }

  /** The normalized record carries the ids, time and provenance of its export. */
  ghost predicate FaithfulAt(v: View, i: nat)
    requires i < |v.feed|
  {
    v.Accepts(i) ==>
      var r, e := v.Record(i), v.feed[i];
      && WellFormed(r) && r.observationId == ObservationId(e) && r.sourceId == v.config.sourceId
      && r.sourceEventId == EventId(e) && r.observedAt == e.emittedAt && r.collectionRunId == v.config.collectionRunId
      && (r.supersedes.Some? <==> e.supersedes.Some?)
  }

  /** Exports with their own event ids, faithfully normalized. */
  ghost predicate Ready(v: View) {
    && (forall i :: 0 <= i < |v.feed| ==> FaithfulAt(v, i))
    && (forall i, j :: 0 <= i < j < |v.feed| ==> EventId(v.feed[i]) != EventId(v.feed[j]))
  }

  /** The latest emission time among the accepted exports of a prefix. */
  function Clock(v: View, n: nat): int
    requires n <= |v.feed|
  {
    if n == 0 then 0 else
      var before := Clock(v, n - 1);
      if v.Accepts(n - 1) && before < v.feed[n - 1].emittedAt then v.feed[n - 1].emittedAt else before
  }

  /** An authenticated export that the store cannot take: a correction, a time outside SQLite's
      range, or an emission time that does not move the cursor. */
  predicate Stuck(v: View, i: nat)
    requires i < |v.feed|
  {
    v.Accepts(i) && (v.feed[i].supersedes.Some? || !TimesFit(v.Record(i)) || v.feed[i].emittedAt <= Clock(v, i))
  }

  /** Read back, `r` has its references sorted. */
  function ReadBack(r: ObservationRecord): ObservationRecord {
    r.(subjectRefs := SortedTexts(r.subjectRefs), authenticityRefs := SortedTexts(r.authenticityRefs))
  }

  /** What a store shows of one source: all its ids, the source's ids, its cursor time, and what each id reads as. */
  datatype Shelf = Shelf(
    ids: set<string>, own: set<string>, clock: int, read: string -> Option<ObservationRecord>)

  function ReadOption(t: Tables, id: string): Option<ObservationRecord> {
    var r := ReadObservation(t, id);
    if r.Ok? then Some(r.value) else None
  }

  function ShelfOf(t: Tables, sourceId: string): Shelf {
    Shelf(t.observations.Keys, OfSource(t, sourceId), CursorTime(t, sourceId), id => ReadOption(t, id))
  }

  /** The observation of the i-th export is on the shelf. */
  ghost predicate Kept(v: View, s: Shelf, i: nat)
    requires i < |v.feed|
  {
    v.Accepts(i) && ObservationId(v.feed[i]) in s.ids && s.read(ObservationId(v.feed[i])) == Some(ReadBack(v.Record(i)))
  }

  /** `id` is the observation of one of the first n exports. */
  ghost predicate FromPrefix(v: View, s: Shelf, n: nat, id: string)
    requires n <= |v.feed|
  {
    exists j :: 0 <= j < n && id == ObservationId(v.feed[j]) && Kept(v, s, j)
  }

  /** The source's observations are exactly the accepted exports among the first n. */
  ghost predicate Mirror(v: View, s: Shelf, n: nat) {
    && n <= |v.feed|
    && s.clock == Clock(v, n)
    && (forall i :: 0 <= i < n && v.Accepts(i) ==> Kept(v, s, i))
    && (forall i :: n <= i < |v.feed| ==> ObservationId(v.feed[i]) !in s.ids)
    && (forall id :: id in s.own ==> FromPrefix(v, s, n, id))
  }

  /** One more observation of the source on the shelf; every other reading is unchanged. */
  ghost predicate Gains(s: Shelf, s': Shelf, r: ObservationRecord) {
    && s'.ids == s.ids + {r.observationId} && s'.own == s.own + {r.observationId} && s'.clock == r.observedAt
    && s'.read(r.observationId) == Some(ReadBack(r))
    && (forall id :: id in s.ids ==> s'.read(id) == s.read(id))
  }

  ghost predicate SameShelf(s: Shelf, s': Shelf) {
    s'.ids == s.ids && s'.own == s.own && s'.clock == s.clock && forall id :: s'.read(id) == s.read(id)
  }

  lemma LaterIdsStayFree(v: View, n: nat, ids: set<string>)
    requires Ready(v) && n < |v.feed|
    requires forall i :: n <= i < |v.feed| ==> ObservationId(v.feed[i]) !in ids
    ensures forall i :: n < i < |v.feed| ==> ObservationId(v.feed[i]) !in ids + {ObservationId(v.feed[n])}
  {
    forall i | n < i < |v.feed| ensures ObservationId(v.feed[i]) != ObservationId(v.feed[n]) {
      ObservationIdsFollowEvents(v.feed[i], v.feed[n]);
    }
  }

  lemma OldKept(v: View, s: Shelf, s': Shelf, r: ObservationRecord, i: nat)
    requires i < |v.feed| && Gains(s, s', r) && Kept(v, s, i)
    ensures Kept(v, s', i)
  {
  }

  lemma NewKept(v: View, s: Shelf, s': Shelf, n: nat)
    requires n < |v.feed| && v.Accepts(n) && FaithfulAt(v, n) && Gains(s, s', v.Record(n))
    ensures Kept(v, s', n)
  {
  }

  lemma GainedFromPrefix(v: View, s: Shelf, n: nat, s': Shelf, id: string)
    requires n < |v.feed| && v.Accepts(n) && FaithfulAt(v, n) && Gains(s, s', v.Record(n))
    requires id in s'.own && (id in s.own ==> FromPrefix(v, s, n, id))
    ensures FromPrefix(v, s', n + 1, id)
  {
    if id in s.own {
      var j :| 0 <= j < n && id == ObservationId(v.feed[j]) && Kept(v, s, j);
      OldKept(v, s, s', v.Record(n), j);
    } else {
      NewKept(v, s, s', n);
    }
  }

  lemma AllKept(v: View, s: Shelf, n: nat, s': Shelf)
    requires n < |v.feed| && v.Accepts(n) && FaithfulAt(v, n) && Gains(s, s', v.Record(n))
    requires forall i :: 0 <= i < n && v.Accepts(i) ==> Kept(v, s, i)
    ensures forall i :: 0 <= i <= n && v.Accepts(i) ==> Kept(v, s', i)
  {
    var r := v.Record(n);
    forall i | 0 <= i < n && v.Accepts(i) ensures Kept(v, s', i) {
      OldKept(v, s, s', r, i);
    }
    NewKept(v, s, s', n);
  }

  lemma AllFromPrefix(v: View, s: Shelf, n: nat, s': Shelf)
    requires n < |v.feed| && v.Accepts(n) && FaithfulAt(v, n) && Gains(s, s', v.Record(n))
    requires forall id :: id in s.own ==> FromPrefix(v, s, n, id)
    ensures forall id :: id in s'.own ==> FromPrefix(v, s', n + 1, id)
  {
    forall id | id in s'.own ensures FromPrefix(v, s', n + 1, id) {
      GainedFromPrefix(v, s, n, s', id);
    }
  }

  lemma MirrorAppends(v: View, s: Shelf, n: nat, s': Shelf)
    requires Ready(v) && Mirror(v, s, n) && n < |v.feed| && v.Accepts(n) && !Stuck(v, n)
    requires Gains(s, s', v.Record(n))
    ensures Mirror(v, s', n + 1)
  {
    assert FaithfulAt(v, n);
    LaterIdsStayFree(v, n, s.ids);
    AllKept(v, s, n, s');
    AllFromPrefix(v, s, n, s');
  }

  lemma MirrorSkips(v: View, s: Shelf, n: nat)
    requires Mirror(v, s, n) && n < |v.feed| && !v.Accepts(n)
    ensures Mirror(v, s, n + 1)
  {
    forall id | id in s.own ensures FromPrefix(v, s, n + 1, id) {
      assert FromPrefix(v, s, n, id);
      var j :| 0 <= j < n && id == ObservationId(v.feed[j]) && Kept(v, s, j);
    }
  }

  lemma MirrorSurvives(v: View, s: Shelf, s': Shelf, n: nat)
    requires Mirror(v, s, n) && SameShelf(s, s')
    ensures Mirror(v, s', n)
  {
    forall i | 0 <= i < n && v.Accepts(i) ensures Kept(v, s', i) {
      assert Kept(v, s, i);
    }
    forall id | id in s'.own ensures FromPrefix(v, s', n, id) {
      assert FromPrefix(v, s, n, id);
      var j :| 0 <= j < n && id == ObservationId(v.feed[j]) && Kept(v, s, j);
      assert Kept(v, s', j);
    }
  }

  // ---- Stores that mirror the feed ------------------------------------------

  /** A sound store with the source and run registered, showing exactly the first n exports. */
  ghost predicate Mirrors(v: View, t: Tables, n: nat) {
    && Inv(t)
    && v.config.sourceId in t.sources && v.config.collectionRunId in t.runs
    && Mirror(v, ShelfOf(t, v.config.sourceId), n)
  }

  lemma DecodedNames(row: ObservationRow, subjects: seq<string>, references: seq<string>)
    requires DecodeRow(row, subjects, references).Ok?
    ensures var r := DecodeRow(row, subjects, references).value;
            r.sourceId == row.sourceId && r.sourceEventId == row.sourceEventId
  {
  }

  lemma ReadNamesEvent(t: Tables, id: string, r: ObservationRecord)
    requires id in t.observations && ReadOption(t, id) == Some(r)
    ensures t.observations[id].row.sourceId == r.sourceId && t.observations[id].row.sourceEventId == r.sourceEventId
  {
    DecodedNames(t.observations[id].row, ChildrenOf(t.subjects, id), ChildrenOf(t.authenticityRefs, id));
  }

  lemma OwnEvent(v: View, s: Shelf, n: nat, id: string) returns (j: nat)
    requires Ready(v) && Mirror(v, s, n) && id in s.own
    ensures j < n && v.Accepts(j) && id in s.ids && s.read(id) == Some(ReadBack(v.Record(j)))
    ensures v.Record(j).sourceEventId == EventId(v.feed[j])
  {
    assert FromPrefix(v, s, n, id);
    j :| 0 <= j < n && id == ObservationId(v.feed[j]) && Kept(v, s, j);
    assert FaithfulAt(v, j);
  }

  /** No stored observation of the source reports the event of a later export. */
  lemma EventsAreFresh(v: View, t: Tables, n: nat, id: string)
    requires Ready(v) && Mirror(v, ShelfOf(t, v.config.sourceId), n) && n < |v.feed|
             && id in OfSource(t, v.config.sourceId)
    ensures t.observations[id].row.sourceEventId != EventId(v.feed[n])
  {
    var j := OwnEvent(v, ShelfOf(t, v.config.sourceId), n, id);
    ReadNamesEvent(t, id, ReadBack(v.Record(j)));
  }

  /** The next export is appended exactly when it is not stuck. */
  lemma NextAppendable(v: View, t: Tables, n: nat)
    requires Ready(v) && Mirrors(v, t, n) && n < |v.feed| && v.Accepts(n)
    ensures ObservationId(v.feed[n]) !in t.observations
    ensures Appendable(t, v.Record(n), CursorFor(v.config, v.Record(n))) <==> !Stuck(v, n)
  {
    assert FaithfulAt(v, n);
    forall id | id in t.observations && t.observations[id].row.sourceId == v.config.sourceId
      ensures t.observations[id].row.sourceEventId != EventId(v.feed[n])
    {
      EventsAreFresh(v, t, n, id);
    }
    FreshIsAppendable(v.config, t, v.Record(n));
  }

  lemma ExtendedKeys(t: Tables, row: ObservationRow, subjects: seq<string>, references: seq<string>, cursor: CursorRow)
    ensures var t' := Extended(t, row, subjects, references, cursor);
            && t'.observations.Keys == t.observations.Keys + {row.observationId}
            && t'.sources == t.sources && t'.runs == t.runs && CursorTime(t', row.sourceId) == cursor.observedAt
  {
  }

  lemma AppendedKeys(t: Tables, r: ObservationRecord, c: SyncCursor)
    requires Appendable(t, r, c)
    ensures r.observationId !in t.observations
    ensures Appended(t, r, c).observations.Keys == t.observations.Keys + {r.observationId}
    ensures Appended(t, r, c).sources == t.sources && Appended(t, r, c).runs == t.runs
    ensures CursorTime(Appended(t, r, c), r.sourceId) == c.observedAt
  {
    AppendableExtends(t, r, c);
    ExtendedKeys(t, EncodeRow(r).value, r.subjectRefs, r.authenticityRefs, CursorRowOf(c));
  }

  lemma AppendedSource(t: Tables, r: ObservationRecord, c: SyncCursor)
    requires Appendable(t, r, c)
    ensures OfSource(Appended(t, r, c), r.sourceId) == OfSource(t, r.sourceId) + {r.observationId}
  {
  }

  lemma AppendedReads(t: Tables, r: ObservationRecord, c: SyncCursor, id: string)
    requires Inv(t) && Appendable(t, r, c)
    ensures ReadOption(Appended(t, r, c), r.observationId) == Some(ReadBack(r))
    ensures id in t.observations ==> ReadOption(Appended(t, r, c), id) == ReadOption(t, id)
  {
    AppendedKeys(t, r, c);
    AppendRoundTrips(t, r, c);
    if id in t.observations { AppendKeepsReads(t, r, c, id); }
  }

  lemma AppendGains(t: Tables, r: ObservationRecord, c: SyncCursor)
    requires Inv(t) && Appendable(t, r, c) && c.observedAt == r.observedAt
    ensures Gains(ShelfOf(t, r.sourceId), ShelfOf(Appended(t, r, c), r.sourceId), r)
  {
    AppendedKeys(t, r, c);
    AppendedSource(t, r, c);
    forall id
      ensures ReadOption(Appended(t, r, c), r.observationId) == Some(ReadBack(r))
      ensures id in t.observations ==> ReadOption(Appended(t, r, c), id) == ReadOption(t, id)
    {
      AppendedReads(t, r, c, id);
    }
  }

  lemma NextMirrors(v: View, t: Tables, n: nat)
    requires Ready(v) && Mirrors(v, t, n) && n < |v.feed| && v.Accepts(n) && !Stuck(v, n)
    ensures Appendable(t, v.Record(n), CursorFor(v.config, v.Record(n)))
    ensures Mirrors(v, Appended(t, v.Record(n), CursorFor(v.config, v.Record(n))), n + 1)
  {
    var r, c := v.Record(n), CursorFor(v.config, v.Record(n));
    assert FaithfulAt(v, n);
    NextAppendable(v, t, n);
    AppendKeepsInv(t, r, c);
    AppendedKeys(t, r, c);
    AppendGains(t, r, c);
    MirrorAppends(v, ShelfOf(t, v.config.sourceId), n, ShelfOf(Appended(t, r, c), v.config.sourceId));
  }

  lemma RegisteredMirrors(v: View, t: Tables, t': Tables, n: nat)
    requires Mirrors(v, t, n) && Inv(t') && Registers(t, t')
    ensures Mirrors(v, t', n)
  {
    assert OfSource(t', v.config.sourceId) == OfSource(t, v.config.sourceId);
    MirrorSurvives(v, ShelfOf(t, v.config.sourceId), ShelfOf(t', v.config.sourceId), n);
  }

  // ---- Payload descriptors --------------------------------------------------

  lemma {:induction false} HexIsPlain(bytes: seq<byte>)
    ensures '\0' !in Hex(bytes)
  {
    if bytes != [] { HexIsPlain(bytes[1..]); }
  }

  lemma PlainText(s: string)
    requires s != "" && !IsWhitespace(s[0]) && '\0' !in s
    ensures StorageText(s)
  {
  }

  lemma ControlFree(s: string)
    requires ConnectorText(s)
    ensures '\0' !in s
  {
    assert IsControl('\0');
  }

  lemma PayloadIdText(hex: string)
    requires '\0' !in hex
    ensures StorageText("piteka-raw:" + hex) && StorageText("sha-256")
  {
    var id := "piteka-raw:" + hex;
    assert id[0] == 'p';
    PlainText(id);
    PlainText("sha-256");
  }

  lemma MediaTypeText()
    requires ConnectorText(MEDIA_TYPE)
    ensures StorageText(MEDIA_TYPE)
  {
    assert MEDIA_TYPE[0] == 'a';
    ControlFree(MEDIA_TYPE);
    PlainText(MEDIA_TYPE);
  }

  /** A descriptor the repository accepts, up to the constraints of its table. */
  predicate Describable(d: RawPayloadDescriptor) {
    && d.schemaVersion == 1 && StorageText(d.payloadId) && StorageText(d.digestAlgorithm) && StorageText(d.mediaType)
    && d.payloadDigest != ZERO_DIGEST && d.byteLength <= I64_MAX
  }

  lemma DescriptorDescribable(p: Primitives, config: Config, raw: RawEvent)
    requires raw.mediaType == MEDIA_TYPE && ConnectorText(raw.mediaType) && p.sha256(raw.bytes) != ZERO_DIGEST
    ensures Describable(PayloadDescriptor(p, config, raw))
  {
    HexIsPlain(p.sha256(raw.bytes));
    PayloadIdText(Hex(p.sha256(raw.bytes)));
    MediaTypeText();
  }

  lemma PayloadRegisters(t: Tables, d: RawPayloadDescriptor)
    requires Inv(t) && Describable(d)
    ensures var r := Registered(t, RegisterPayload(t, d), PayloadFailed);
            r.Ok? && Registers(t, r.value) && Inv(r.value)
  {
    PayloadOnlyRegisters(t, d);
    PrerequisiteKeepsInv(t, Registered(t, RegisterPayload(t, d), PayloadFailed).value);
  }

  lemma AcceptedDescriptor(p: Primitives, config: Config, raw: RawEvent, c: Candidate)
    requires Gate(PitekaConnector(p, config), raw, 1) == Ok(c)
    ensures c.rawPayload == Some(PayloadDescriptor(p, config, raw))
            && c.observation.rawPayloadDigest == Some(p.sha256(raw.bytes))
    ensures WellFormed(c.observation)
  {
    GatedExportsAreAuthentic(p, config, raw);
  }

  lemma GatedRawIsValid(connector: Connector, raw: RawEvent)
    requires Gate(connector, raw, 1).Ok?
    ensures ConnectorText(raw.mediaType)
  {
  }

  /** The payload descriptor of an accepted export never stops a pass. */
  lemma PayloadNeverStops(p: Primitives, config: Config, t: Tables, raw: RawEvent, c: Candidate)
    requires Inv(t) && raw.mediaType == MEDIA_TYPE && Gate(PitekaConnector(p, config), raw, 1) == Ok(c)
    ensures WithPayload(t, c).Ok? && Registers(t, WithPayload(t, c).value) && Inv(WithPayload(t, c).value)
  {
    AcceptedDescriptor(p, config, raw, c);
    GatedRawIsValid(PitekaConnector(p, config), raw);
    DescriptorDescribable(p, config, raw);
    PayloadRegisters(t, PayloadDescriptor(p, config, raw));
  }

  /** Without an answer the pass ends, whether the descriptor has been stored or not. */
  lemma PayloadLost(t: Tables, c: Candidate, reply: Reply)
    requires Inv(t) && c.rawPayload.Some? && !reply.Answered?
    ensures WithPayload(t, c, reply) == Err(PayloadFailed)
    ensures var t' := PayloadLeft(t, c, reply);
            Registers(t, t') && Inv(t') && t'.runs == t.runs
  {
    PayloadOnlyRegisters(t, c.rawPayload.value);
    LeftKeepsInv(t, reply, RegisterPayload(t, c.rawPayload.value));
  }

  // ---- The pass -------------------------------------------------------------

  function ViewOf(p: Primitives, config: Config, feed: seq<SignedExport>): View {
    View(config, feed, e => if Accepted(p, config, e) then Some(ObservationOf(p, config, e)) else None)
  }

  lemma ViewIsReady(p: Primitives, config: Config, feed: seq<SignedExport>)
    requires RoundTrips(p, feed) && WellFormedFeed(p, config, feed)
    ensures Ready(ViewOf(p, config, feed))
  {
    forall i | 0 <= i < |feed| ensures FaithfulAt(ViewOf(p, config, feed), i) {
      assert Restores(p, feed[i]);
      if Accepted(p, config, feed[i]) { ObservationFacts(p, config, feed[i]); }
    }
  }

  lemma ViewAt(p: Primitives, config: Config, feed: seq<SignedExport>, i: nat)
    requires i < |feed|
    ensures var v, gated := ViewOf(p, config, feed), Gate(PitekaConnector(p, config), RawOf(p, config, feed[i]), 1);
            && (v.Accepts(i) <==> gated.Ok?)
            && (gated.Ok? ==> v.Record(i) == gated.value.observation)
  {
  }

  lemma ProcessKeeps(p: Primitives, config: Config, t: Tables, s: Summary, raw: RawEvent, c: Candidate, link: Link)
    requires Gate(PitekaConnector(p, config), raw, 1) == Ok(c)
    ensures var counted, kept := s.(authenticated := s.authenticated + 1), WithPayload(t, c, link.payload);
            && (kept.Err? ==>
                  Process(p, config, t, s, raw, link)
                  == State(PayloadLeft(t, c, link.payload), counted, Some(kept.error)))
            && (kept.Ok? ==>
                  Process(p, config, t, s, raw, link) == Persist(config, kept.value, counted, c.observation, link))
  {
    KeepCases(config, t, s, c, link);
  }

  /** One event as the view describes it: skipped, stopped at its descriptor, or persisted over tables that
      hold the same evidence. */
  lemma ProcessOf(p: Primitives, config: Config, feed: seq<SignedExport>, t: Tables, s: Summary, i: nat, link: Link)
    returns (t': Tables)
    requires i < |feed| && Inv(t)
    ensures Registers(t, t') && Inv(t') && t'.runs == t.runs
    ensures var (v, out) := (ViewOf(p, config, feed), Process(p, config, t, s, RawOf(p, config, feed[i]), link));
            var counted := s.(authenticated := s.authenticated + 1);
            if !v.Accepts(i) then out == State(t, s.(skipped := s.skipped + 1), None)
            else if !link.payload.Answered? then out == State(t', counted, Some(PayloadFailed))
            else out == Persist(config, t', counted, v.Record(i), link)
  {
    t' := t;
    ViewAt(p, config, feed, i);
    var raw := RawOf(p, config, feed[i]);
    if ViewOf(p, config, feed).Accepts(i) {
      var c := Gate(PitekaConnector(p, config), raw, 1).value;
      ProcessKeeps(p, config, t, s, raw, c, link);
      if link.payload.Answered? {
        PayloadNeverStops(p, config, t, raw, c);
        t' := WithPayload(t, c).value;
        PayloadKeepsRuns(t, c);
      } else {
        AcceptedDescriptor(p, config, raw, c);
        PayloadLost(t, c, link.payload);
        t' := PayloadLeft(t, c, link.payload);
      }
    }
  }

  lemma PayloadKeepsRuns(t: Tables, c: Candidate)
    requires WithPayload(t, c).Ok?
    ensures WithPayload(t, c).value.runs == t.runs
  {
  }

  /** An export of the mirrored prefix is skipped or found again; no evidence changes. */
  lemma OldExport(p: Primitives, config: Config, feed: seq<SignedExport>, t: Tables, s: Summary, n: nat, i: nat)
    requires RoundTrips(p, feed) && WellFormedFeed(p, config, feed)
    requires Mirrors(ViewOf(p, config, feed), t, n) && i < n
    ensures var v, out := ViewOf(p, config, feed), Process(p, config, t, s, RawOf(p, config, feed[i]));
            && out.stop.None? && Mirrors(v, out.tables, n) && SameEvidence(t, out.tables)
            && out.summary.persisted == s.persisted
            && out.summary.duplicates == s.duplicates + if v.Accepts(i) then 1 else 0
  {
    var v := ViewOf(p, config, feed);
    ViewIsReady(p, config, feed);
    var t' := ProcessOf(p, config, feed, t, s, i, STEADY);
    if v.Accepts(i) {
      var counted := s.(authenticated := s.authenticated + 1);
      assert Kept(v, ShelfOf(t, config.sourceId), i);
      assert FaithfulAt(v, i);
      StoredIsDuplicate(config, t', counted, v.Record(i));
      RegisteredMirrors(v, t, t', n);
    }
  }

  /** Persisting the next accepted export appends it, unless it is stuck. */
  lemma NextPersisted(v: View, t: Tables, s: Summary, n: nat)
    requires Ready(v) && Mirrors(v, t, n) && n < |v.feed| && v.Accepts(n)
    ensures var out := Persist(v.config, t, s, v.Record(n));
            if Stuck(v, n) then out == State(t, s, Some(PersistFailed))
            else && out.stop.None? && Mirrors(v, out.tables, n + 1)
                 && out.summary.persisted == s.persisted + 1 && out.summary.duplicates == s.duplicates
  {
    assert FaithfulAt(v, n);
    NextAppendable(v, t, n);
    if !Stuck(v, n) { NextMirrors(v, t, n); }
  }

  /** The next export is skipped, appended, or ends the pass if it is stuck. */
  lemma NextExport(p: Primitives, config: Config, feed: seq<SignedExport>, t: Tables, s: Summary, n: nat)
    requires RoundTrips(p, feed) && WellFormedFeed(p, config, feed)
    requires Mirrors(ViewOf(p, config, feed), t, n) && n < |feed|
    ensures var v, out := ViewOf(p, config, feed), Process(p, config, t, s, RawOf(p, config, feed[n]));
            if Stuck(v, n) then out.stop == Some(PersistFailed) && Mirrors(v, out.tables, n)
              && SameEvidence(t, out.tables)
                                && out.summary.persisted == s.persisted && out.summary.duplicates == s.duplicates
            else && out.stop.None? && Mirrors(v, out.tables, n + 1)
                 && out.summary.persisted == s.persisted + (if v.Accepts(n) then 1 else 0)
                 && out.summary.duplicates == s.duplicates
  {
    var v := ViewOf(p, config, feed);
    ViewIsReady(p, config, feed);
    var t' := ProcessOf(p, config, feed, t, s, n, STEADY);
    if v.Accepts(n) {
      var counted := s.(authenticated := s.authenticated + 1);
      RegisteredMirrors(v, t, t', n);
      NextPersisted(v, t', counted, n);
    } else {
      MirrorSkips(v, ShelfOf(t, config.sourceId), n);
    }
  }

  // ---- Interrupted processing -------------------------------------------------

  lemma OldPersisted(v: View, t: Tables, m: nat, i: nat)
    requires Ready(v) && Mirrors(v, t, m) && i < m && v.Accepts(i)
    ensures !Appendable(t, v.Record(i), CursorFor(v.config, v.Record(i)))
  {
    assert FaithfulAt(v, i);
    assert Kept(v, ShelfOf(t, v.config.sourceId), i);
    NeverTwice(t, v.Record(i), CursorFor(v.config, v.Record(i)));
  }

  lemma NextInterrupted(v: View, t: Tables, s: Summary, m: nat, link: Link) returns (reached: nat)
    requires Ready(v) && Mirrors(v, t, m) && m < |v.feed| && v.Accepts(m)
    ensures var out := Persist(v.config, t, s, v.Record(m), link);
            && m <= reached <= m + 1 && Mirrors(v, out.tables, reached)
            && (out.stop.None? ==> reached == m + 1) && (reached == m + 1 ==> !Stuck(v, m))
  {
    assert FaithfulAt(v, m);
    NextAppendable(v, t, m);
    PersistCases(v.config, t, s, v.Record(m), link);
    reached := if !Stuck(v, m) && link.Carries(v.Record(m)) then m + 1 else m;
    if reached == m + 1 { NextMirrors(v, t, m); }
  }

  /** How far a store mirrors the feed after an event at i: one export further if the next one's append has taken
      place, and at least that far if the event went through. */
  ghost predicate StepsTo(v: View, out: State, m: nat, i: nat, reached: nat) {
    && m <= reached <= m + 1 && Mirrors(v, out.tables, reached)
    && (out.stop.None? && i == m ==> reached == m + 1)
    && (reached == m + 1 ==> !Stuck(v, m))
  }

  lemma InterruptedPersist(v: View, t: Tables, s: Summary, m: nat, i: nat, link: Link) returns (reached: nat)
    requires Ready(v) && Mirrors(v, t, m) && i <= m && i < |v.feed| && v.Accepts(i)
    ensures StepsTo(v, Persist(v.config, t, s, v.Record(i), link), m, i, reached)
  {
    if i < m {
      PersistCases(v.config, t, s, v.Record(i), link);
      OldPersisted(v, t, m, i);
      reached := m;
    } else {
      reached := NextInterrupted(v, t, s, m, link);
    }
  }

  /** Whatever the connection does during an event of the mirrored prefix, or the next one, the store goes on
      mirroring: one export further if the next one was appended, acknowledged or not. */
  lemma InterruptedExport(p: Primitives, config: Config, feed: seq<SignedExport>, t: Tables, s: Summary, m: nat,
                          i: nat, link: Link) returns (reached: nat)
    requires RoundTrips(p, feed) && WellFormedFeed(p, config, feed)
    requires Mirrors(ViewOf(p, config, feed), t, m) && i <= m && i < |feed|
    ensures StepsTo(ViewOf(p, config, feed), Process(p, config, t, s, RawOf(p, config, feed[i]), link), m, i, reached)
  {
    var v := ViewOf(p, config, feed);
    ViewIsReady(p, config, feed);
    var t' := ProcessOf(p, config, feed, t, s, i, link);
    RegisteredMirrors(v, t, t', m);
    reached := m;
    if !v.Accepts(i) {
      if i == m {
        MirrorSkips(v, ShelfOf(t, config.sourceId), m);
        reached := m + 1;
      }
    } else if link.payload.Answered? {
      reached := InterruptedPersist(v, t', s.(authenticated := s.authenticated + 1), m, i, link);
    }
  }

  /** What processing the export at a position does. */
  type Stepper = (Tables, Summary, nat, Link) -> State

  function StepOver(p: Primitives, config: Config, feed: seq<SignedExport>): Stepper {
    (t: Tables, s: Summary, i: nat, link: Link) =>
      if i < |feed| then Process(p, config, t, s, RawOf(p, config, feed[i]), link) else State(t, s, None)
  }

  /** Stepping from i up to k, as far as nothing stops it. */
  function Walk(step: Stepper, t: Tables, s: Summary, i: nat, k: nat, links: seq<Link>): State
    decreases k - i
  {
    if i >= k then State(t, s, None) else
      var next := step(t, s, i, First(links));
      if next.stop.Some? then next else Walk(step, next.tables, next.summary, i + 1, k, Rest(links))
  }

  /** Processing a stretch of the feed is stepping over it. */
  lemma {:induction false} StretchIsWalk(p: Primitives, config: Config, feed: seq<SignedExport>, t: Tables,
                                         s: Summary, i: nat, k: nat, links: seq<Link>)
    requires i <= k <= |feed|
    ensures ProcessAll(p, config, t, s, RawsOf(p, config, feed[i..k]), links)
         == Walk(StepOver(p, config, feed), t, s, i, k, links)
    decreases k - i
  {
    var raws := RawsOf(p, config, feed[i..k]);
    if i < k {
      var next := Process(p, config, t, s, RawOf(p, config, feed[i]), First(links));
      assert raws[0] == RawOf(p, config, feed[i]) && raws[1..] == RawsOf(p, config, feed[i + 1..k]);
      StretchIsWalk(p, config, feed, next.tables, next.summary, i + 1, k, Rest(links));
    } else {
      assert raws == [];
    }
  }

  /** Steps up to the length that keep a measure of the store: one at its frontier that is not stopped moves it
      on, and one that is stopped may. */
  ghost predicate MovesFrontier(holds: (Tables, nat) -> bool, step: Stepper, length: nat) {
    forall t, s, m: nat, i: nat, link ::
      holds(t, m) && i <= m && i < length ==> Moves(holds, step(t, s, i, link), m, i)
  }

  ghost predicate Moves(holds: (Tables, nat) -> bool, out: State, m: nat, i: nat) {
    || holds(out.tables, m + 1)
    || (holds(out.tables, m) && (out.stop.None? ==> i < m))
  }

  lemma {:induction false} WalkMovesFrontier(holds: (Tables, nat) -> bool, step: Stepper, length: nat, t: Tables,
                                             s: Summary, m: nat, i: nat, k: nat, links: seq<Link>)
    returns (reached: nat)
    requires MovesFrontier(holds, step, length) && holds(t, m) && i <= m && i <= k <= length
    ensures var out := Walk(step, t, s, i, k, links);
            m <= reached && holds(out.tables, reached) && (out.stop.None? ==> k <= reached)
    decreases k - i
  {
    reached := m;
    if i < k {
      var next := step(t, s, i, First(links));
      assert Moves(holds, next, m, i);
      reached := if holds(next.tables, m + 1) then m + 1 else m;
      if next.stop.None? {
        reached := WalkMovesFrontier(holds, step, length, next.tables, next.summary, reached, i + 1, k, Rest(links));
      }
    }
  }

  /** No export from n up to m is stuck. */
  ghost predicate Clear(v: View, n: nat, m: nat) {
    m <= |v.feed| && forall j :: n <= j < m ==> !Stuck(v, j)
  }

  lemma ClearGrows(v: View, n: nat, m: nat)
    requires Clear(v, n, m) && m < |v.feed| && !Stuck(v, m)
    ensures Clear(v, n, m + 1)
  {
  }

  ghost function Mirroring(p: Primitives, config: Config, feed: seq<SignedExport>, n: nat): (Tables, nat) -> bool {
    (t: Tables, m: nat) => Mirrors(ViewOf(p, config, feed), t, m) && Clear(ViewOf(p, config, feed), n, m)
  }

  lemma MirroringMoves(p: Primitives, config: Config, feed: seq<SignedExport>, n: nat, out: State, m: nat, i: nat,
                       reached: nat)
    requires Clear(ViewOf(p, config, feed), n, m) && i <= m && i < |feed|
    requires StepsTo(ViewOf(p, config, feed), out, m, i, reached) && (reached == m + 1 ==> m < |feed|)
    ensures Moves(Mirroring(p, config, feed, n), out, m, i)
  {
    if reached == m + 1 { ClearGrows(ViewOf(p, config, feed), n, m); }
    assert Mirroring(p, config, feed, n)(out.tables, reached);
  }

  lemma MirrorsWithin(v: View, t: Tables, m: nat)
    requires Mirrors(v, t, m)
    ensures m <= |v.feed|
  {
  }

  lemma StepKeepsMirroring(p: Primitives, config: Config, feed: seq<SignedExport>, n: nat, t: Tables, s: Summary,
                           m: nat, i: nat, link: Link)
    requires RoundTrips(p, feed) && WellFormedFeed(p, config, feed)
    requires Mirroring(p, config, feed, n)(t, m) && i <= m && i < |feed|
    ensures Moves(Mirroring(p, config, feed, n), StepOver(p, config, feed)(t, s, i, link), m, i)
  {
    var out := StepOver(p, config, feed)(t, s, i, link);
    assert out == Process(p, config, t, s, RawOf(p, config, feed[i]), link);
    var reached := InterruptedExport(p, config, feed, t, s, m, i, link);
    MirrorsWithin(ViewOf(p, config, feed), out.tables, reached);
    MirroringMoves(p, config, feed, n, out, m, i, reached);
  }

  lemma StepsKeepMirroring(p: Primitives, config: Config, feed: seq<SignedExport>, n: nat)
    requires RoundTrips(p, feed) && WellFormedFeed(p, config, feed)
    ensures MovesFrontier(Mirroring(p, config, feed, n), StepOver(p, config, feed), |feed|)
  {
    var holds, step := Mirroring(p, config, feed, n), StepOver(p, config, feed);
    forall t, s, m: nat, i: nat, link | holds(t, m) && i <= m && i < |feed|
      ensures Moves(holds, step(t, s, i, link), m, i)
    {
      StepKeepsMirroring(p, config, feed, n, t, s, m, i, link);
    }
  }

  /** Whatever the connection does, processing a stretch that begins within the mirrored prefix leaves a store
      that mirrors at least as many exports, never one beyond a stuck one, and all of the stretch if nothing
      stopped it. */
  lemma InterruptedStretch(p: Primitives, config: Config, feed: seq<SignedExport>, n: nat, t: Tables, s: Summary,
                           m: nat, i: nat, k: nat, links: seq<Link>) returns (reached: nat)
    requires RoundTrips(p, feed) && WellFormedFeed(p, config, feed)
    requires Mirroring(p, config, feed, n)(t, m) && i <= m && i <= k <= |feed|
    ensures var out := ProcessAll(p, config, t, s, RawsOf(p, config, feed[i..k]), links);
            m <= reached && Mirroring(p, config, feed, n)(out.tables, reached) && (out.stop.None? ==> k <= reached)
  {
    StepsKeepMirroring(p, config, feed, n);
    StretchIsWalk(p, config, feed, t, s, i, k, links);
    var mirroring := Mirroring(p, config, feed, n);
    reached := WalkMovesFrontier(mirroring, StepOver(p, config, feed), |feed|, t, s, m, i, k, links);
  }

  // ---- Steady processing --------------------------------------------------------

  /** The first stuck export at or after n, or the end of the feed. */
  function FirstStuck(v: View, n: nat): (r: nat)
    requires n <= |v.feed|
    ensures n <= r <= |v.feed|
    ensures forall i :: n <= i < r ==> !Stuck(v, i)
    ensures r < |v.feed| ==> Stuck(v, r)
    decreases |v.feed| - n
  {
    if n == |v.feed| || Stuck(v, n) then n else FirstStuck(v, n + 1)
  }

  /** How many exports in a range pass the gate. */
  function AcceptedCount(v: View, lo: nat, hi: nat): nat
    requires lo <= hi <= |v.feed|
    decreases hi as int - lo
  {
    if lo == hi then 0 else (if v.Accepts(lo) then 1 else 0) + AcceptedCount(v, lo + 1, hi)
  }

  lemma ProcessTurn(p: Primitives, config: Config, feed: seq<SignedExport>, t: Tables, s: Summary, i: nat)
    requires i < |feed|
    ensures ProcessAll(p, config, t, s, RawsOf(p, config, feed[i..])) ==
            var next := Process(p, config, t, s, RawOf(p, config, feed[i]));
            if next.stop.Some? then next
            else ProcessAll(p, config, next.tables, next.summary, RawsOf(p, config, feed[i + 1..]))
  {
    assert RawsOf(p, config, feed[i..])[0] == RawOf(p, config, feed[i]);
    assert RawsOf(p, config, feed[i..])[1..] == RawsOf(p, config, feed[i + 1..]);
  }

  /** From a store that mirrors n exports, processing the exports from i on leads to the first stuck one. */
  ghost predicate Reached(v: View, t: Tables, s: Summary, n: nat, i: nat, out: State)
    requires i <= n <= |v.feed|
  {
    var stuck := FirstStuck(v, n);
    && Mirrors(v, out.tables, stuck)
    && out.stop == (if stuck == |v.feed| then None else Some(PersistFailed))
    && out.summary.duplicates == s.duplicates + AcceptedCount(v, i, n)
    && out.summary.persisted == s.persisted + AcceptedCount(v, n, stuck)
    && (stuck == n ==> SameEvidence(t, out.tables))
  }

  lemma ReachedOverOld(v: View, t: Tables, s: Summary, n: nat, i: nat, next: State, out: State)
    requires i < n <= |v.feed| && SameEvidence(t, next.tables) && next.summary.persisted == s.persisted
    requires next.summary.duplicates == s.duplicates + if v.Accepts(i) then 1 else 0
    requires Reached(v, next.tables, next.summary, n, i + 1, out)
    ensures Reached(v, t, s, n, i, out)
  {
  }

  lemma ReachedOverNext(v: View, t: Tables, s: Summary, n: nat, next: State, out: State)
    requires n < |v.feed| && !Stuck(v, n) && next.summary.duplicates == s.duplicates
    requires next.summary.persisted == s.persisted + if v.Accepts(n) then 1 else 0
    requires Reached(v, next.tables, next.summary, n + 1, n + 1, out)
    ensures Reached(v, t, s, n, n, out)
  {
  }

  lemma ReachedStuck(v: View, t: Tables, s: Summary, n: nat, out: State)
    requires n <= |v.feed| && (n == |v.feed| || Stuck(v, n)) && Mirrors(v, out.tables, n) && SameEvidence(t, out.tables)
    requires out.stop == (if n == |v.feed| then None else Some(PersistFailed))
    requires out.summary.persisted == s.persisted && out.summary.duplicates == s.duplicates
    ensures Reached(v, t, s, n, n, out)
  {
  }

  function Remaining(p: Primitives, config: Config, feed: seq<SignedExport>, t: Tables, s: Summary, i: nat): State
    requires i <= |feed|
  {
    ProcessAll(p, config, t, s, RawsOf(p, config, feed[i..]))
  }

  lemma OverOldExport(p: Primitives, config: Config, feed: seq<SignedExport>, t: Tables, s: Summary, n: nat, i: nat)
    requires RoundTrips(p, feed) && WellFormedFeed(p, config, feed)
    requires Mirrors(ViewOf(p, config, feed), t, n) && i < n <= |feed|
    requires var next := Process(p, config, t, s, RawOf(p, config, feed[i]));
             Mirrors(ViewOf(p, config, feed), next.tables, n) ==>
               Reached(ViewOf(p, config, feed), next.tables, next.summary, n, i + 1,
                       Remaining(p, config, feed, next.tables, next.summary, i + 1))
    ensures Reached(ViewOf(p, config, feed), t, s, n, i, Remaining(p, config, feed, t, s, i))
  {
    var v, next := ViewOf(p, config, feed), Process(p, config, t, s, RawOf(p, config, feed[i]));
    OldExport(p, config, feed, t, s, n, i);
    ProcessTurn(p, config, feed, t, s, i);
    ReachedOverOld(v, t, s, n, i, next, Remaining(p, config, feed, t, s, i));
  }

  lemma OverNextExport(p: Primitives, config: Config, feed: seq<SignedExport>, t: Tables, s: Summary, n: nat)
    requires RoundTrips(p, feed) && WellFormedFeed(p, config, feed)
    requires Mirrors(ViewOf(p, config, feed), t, n) && n < |feed|
    requires var next := Process(p, config, t, s, RawOf(p, config, feed[n]));
             Mirrors(ViewOf(p, config, feed), next.tables, n + 1) ==>
               Reached(ViewOf(p, config, feed), next.tables, next.summary, n + 1, n + 1,
                       Remaining(p, config, feed, next.tables, next.summary, n + 1))
    ensures Reached(ViewOf(p, config, feed), t, s, n, n, Remaining(p, config, feed, t, s, n))
  {
    var v, next := ViewOf(p, config, feed), Process(p, config, t, s, RawOf(p, config, feed[n]));
    var out := Remaining(p, config, feed, t, s, n);
    NextExport(p, config, feed, t, s, n);
    ProcessTurn(p, config, feed, t, s, n);
    if Stuck(v, n) { ReachedStuck(v, t, s, n, out); } else { ReachedOverNext(v, t, s, n, next, out); }
  }

  /** Processing a feed from any point of the mirrored prefix on. */
  lemma {:induction false} ProcessFeed(p: Primitives, config: Config, feed: seq<SignedExport>, t: Tables, s: Summary,
                                       n: nat, i: nat)
    requires RoundTrips(p, feed) && WellFormedFeed(p, config, feed)
    requires Mirrors(ViewOf(p, config, feed), t, n) && i <= n <= |feed|
    ensures Reached(ViewOf(p, config, feed), t, s, n, i, Remaining(p, config, feed, t, s, i))
    decreases |feed| - i
  {
    var v := ViewOf(p, config, feed);
    if i == |feed| {
      assert RawsOf(p, config, feed[i..]) == [];
      ReachedStuck(v, t, s, n, Remaining(p, config, feed, t, s, i));
    } else {
      var next := Process(p, config, t, s, RawOf(p, config, feed[i]));
      var m := if i < n then n else n + 1;
      if Mirrors(v, next.tables, m) { ProcessFeed(p, config, feed, next.tables, next.summary, m, i + 1); }
      if i < n { OverOldExport(p, config, feed, t, s, n, i); } else { OverNextExport(p, config, feed, t, s, n); }
    }
  }
}
