/** A concrete feed of two exports, the second a correction of the first: the premises of the theorems about
    passes can be met, and the failures they describe do happen. */
module IngestExample {
  import opened Words
  import opened Wrappers
  import opened Text
  import opened Records
  import opened Schema
  import opened ObservationSpec
  import opened ObservationInvariant
  import opened Connectors
  import opened PitekaSigning
  import opened PitekaFeeds
  import opened PitekaManifest
  import opened PitekaPaging
  import opened Ingestion
  import opened IngestTheorems
  import opened IngestExact
  import opened IngestPasses
  import opened IngestInterruptions

  // ---- The example ----------------------------------------------------------------

  const ONE: Digest :=
    [1, 0, 0, 0, 0, 0, 0, 0, 0, 0, 0, 0, 0, 0, 0, 0, 0, 0, 0, 0, 0, 0, 0, 0, 0, 0, 0, 0, 0, 0, 0, 0]

  function Signature(): (r: seq<byte>)
    ensures |r| == 64
  {
    seq(64, _ => 0)
  }

  function Original(): SignedExport {
    SignedExport(1, 1, "a", 1, None, "t", 1, [1], ONE, "k", Signature())
  }

  function Correction(): SignedExport {
    SignedExport(1, 2, "b", 1, Some("a"), "t", 2, [1], ONE, "k", Signature())
  }

  function Feed(): seq<SignedExport> {
    [Original(), Correction()]
  }

  function TheManifest(): Manifest {
    Manifest("0.1", Receipt("r", "m", "i", "t", "done", 1), [], [], [], 0, [], None)
  }

  function Parse(payload: seq<byte>): Option<Manifest> {
    Some(TheManifest())
  }

  function Hash(bytes: seq<byte>): Digest {
    ONE
  }

  predicate Verify(key: Digest, message: seq<byte>, signature: seq<byte>) {
    true
  }

  function Serialize(e: SignedExport): Bytes {
    if e == Original() then [1] else [2]
  }

  function Deserialize(bytes: seq<byte>): Option<SignedExport> {
    if bytes == [1] then Some(Original()) else if bytes == [2] then Some(Correction()) else None
  }

  function DiscloseParsed(payload: seq<byte>): Result<Disclosure, ConnectorError> {
    Disclose(Parse(payload))
  }

  predicate UsableKey(key: Digest) {
    true
  }

  function Given(): Primitives {
    Primitives(Hash, Verify, Serialize, Deserialize, DiscloseParsed, UsableKey)
  }

  function Setup(): Config {
    Config("s", "t", "k", ONE, "c", "run")
  }

  // ---- Its texts --------------------------------------------------------------------

  predicate Printable(text: string) {
    forall i :: 0 <= i < |text| ==> ' ' <= text[i] <= '~'
  }

  lemma PrintableAppend(a: string, b: string)
    requires Printable(a) && Printable(b)
    ensures Printable(a + b)
  {
  }

  lemma PlainId(text: string)
    requires Printable(text) && 0 < |text| <= 128 && text[0] != ' '
    ensures ConnectorText(text) && RecordId(text) && StorageText(text)
  {
    Utf8Bound(text);
    ShortIsId(text);
    forall i | 0 <= i < |text| ensures !IsControl(text[i]) { assert ' ' <= text[i] <= '~'; }
  }

  /** The short texts of the example. */
  lemma Short(text: string)
    requires text in {"a", "b", "t", "k", "s", "c", "r", "m", "i", "run", "done"}
    ensures Printable(text) && 0 < |text| <= 4 && text[0] != ' '
    ensures ConnectorText(text) && RecordId(text) && StorageText(text)
  {
    PlainId(text);
  }

  lemma MediaTypeIsText()
    ensures ConnectorText(MEDIA_TYPE)
  {
    var a, b, c := "application/", "vnd.diewan.piteka-", "evidence-export+json";
    assert Printable(a) && Printable(b) && Printable(c);
    PrintableAppend(a, b);
    PrintableAppend(a + b, c);
    assert (a + b + c)[0] == a[0];
    PlainId(a + b + c);
  }

  lemma ProfileIsId()
    ensures RecordId(DEPLOYMENT_PROFILE_ID)
  {
    var a, b, c := "org.diewan.piteka.", "deployment-attestation", "-observation.v1";
    assert Printable(a) && Printable(b) && Printable(c);
    PrintableAppend(a, b);
    PrintableAppend(a + b, c);
    assert (a + b + c)[0] == a[0];
    PlainId(a + b + c);
  }

  lemma PrefixedIsId(prefix: string, id: string)
    requires Printable(prefix) && Printable(id) && 0 < |prefix| <= 30 && |id| <= 30 && prefix[0] != ' '
    ensures Printable(prefix + id) && ConnectorText(prefix + id) && RecordId(prefix + id)
  {
    PrintableAppend(prefix, id);
    assert (prefix + id)[0] == prefix[0];
    PlainId(prefix + id);
  }

  /** Every id made of a short export id and revision 1. */
  lemma IdsAreIds(e: SignedExport)
    requires e == Original() || e == Correction()
    ensures ConnectorText(EventId(e)) && RecordId(EventId(e)) && RecordId(ObservationId(e))
    ensures ConnectorText(AuthId(e)) && RecordId(AuthId(e)) && RecordId(PriorObservationId("a"))
  {
    assert Decimal(1) == "1";
    RevisedIsShort(e.exportId);
    RevisedIsShort("a");
    var o, f := "observation:piteka:", "piteka-feed-signature:";
    assert Printable(o) && Printable(f);
    PlainId(EventId(e));
    PrefixedIsId(o, EventId(e));
    PrefixedIsId(o, Revised("a", 1));
    PrefixedIsId(f, EventId(e));
  }

  lemma RevisedIsShort(id: string)
    requires id == "a" || id == "b"
    ensures Revised(id, 1) == id + ":revision:" + "1" && |Revised(id, 1)| == 12
    ensures Printable(Revised(id, 1)) && Revised(id, 1)[0] == id[0]
  {
    assert Decimal(1) == "1";
    var mid := ":revision:";
    assert Printable(mid) && Printable(id) && Printable("1");
    PrintableAppend(id, mid);
    PrintableAppend(id + mid, "1");
  }

  // ---- It meets the premises ----------------------------------------------------------

  lemma FeedRoundTrips()
    ensures RoundTrips(Given(), Feed()) && Original() != Correction()
  {
    forall i | 0 <= i < |Feed()| ensures Restores(Given(), Feed()[i]) {
      assert Feed()[i] == Original() || Feed()[i] == Correction();
    }
  }

  lemma EventIsValid(raw: RawEvent)
    requires ConnectorText(raw.sourceId) && ConnectorText(raw.eventId) && ConnectorText(raw.mediaType)
    requires raw.observedAt > 0 && |raw.bytes| == 1 && raw.visibility.Tenant? && ConnectorText(raw.visibility.tenantId)
    ensures ValidateEvent(raw).Ok?
  {
  }

  lemma RawIsValid(e: SignedExport)
    requires e == Original() || e == Correction()
    ensures ValidateEvent(RawOf(Given(), Setup(), e)).Ok?
  {
    Short("s");
    Short("t");
    MediaTypeIsText();
    IdsAreIds(e);
    EventIsValid(RawOf(Given(), Setup(), e));
  }

  lemma EventIdsDiffer()
    ensures EventId(Original()) != EventId(Correction())
  {
    RevisedIsShort("a");
    RevisedIsShort("b");
    assert EventId(Original())[0] != EventId(Correction())[0];
  }

  /** A feed of two such exports. */
  lemma PairIsWellFormed(p: Primitives, config: Config, a: SignedExport, b: SignedExport)
    requires ConnectorText(config.sourceId) && a.tenantId == b.tenantId == config.tenantId
    requires a.sequence == 1 && b.sequence == 2
    requires ValidateEvent(RawOf(p, config, a)).Ok? && ValidateEvent(RawOf(p, config, b)).Ok?
    requires EventId(a) != EventId(b)
    ensures WellFormedFeed(p, config, [a, b])
  {
  }

  lemma FeedIsWellFormed()
    ensures WellFormedFeed(Given(), Setup(), Feed())
  {
    RawIsValid(Original());
    RawIsValid(Correction());
    Short("s");
    EventIdsDiffer();
    PairIsWellFormed(Given(), Setup(), Original(), Correction());
  }

  lemma ReceiptIsGood(r: Receipt)
    requires ConnectorText(r.receiptId) && ConnectorText(r.mandateId) && ConnectorText(r.intentId)
    requires ConnectorText(r.attemptId) && ConnectorText(r.outcome)
    ensures CheckReceipt(r).Ok?
  {
  }

  /** A manifest without evidence. */
  predicate Bare(m: Manifest) {
    && m.bundleVersion == "0.1" && m.receipt.createdAt > 0
    && m.dispatch == m.target == [] && m.gaps == [] && m.gapCount == 0 && m.gapNotes == [] && m.anchor.None?
  }

  lemma BareIsValid(m: Manifest)
    requires Bare(m) && CheckReceipt(m.receipt).Ok?
    ensures ValidateManifest(m).Ok?
  {
    assert m.dispatch + m.target == [];
  }

  lemma BareIsPresentable(m: Manifest)
    requires Bare(m)
    requires StorageText(m.receipt.receiptId) && StorageText(m.receipt.mandateId) && StorageText(m.receipt.intentId)
    requires StorageText(m.receipt.attemptId) && StorageText(m.receipt.outcome)
    ensures Presentable(m) && |Attestations(m.target)| <= 1
  {
    assert Attestations([]) == [];
    assert NodeIds(m.target) == [] && Matching(m.gapNotes, WORKFLOW) == [] && Matching(m.gapNotes, ATTESTATION) == [];
  }

  /** It is valid and presentable. */
  lemma BareManifestIsGood(m: Manifest)
    requires Bare(m) && CheckReceipt(m.receipt).Ok?
    requires StorageText(m.receipt.receiptId) && StorageText(m.receipt.mandateId) && StorageText(m.receipt.intentId)
    requires StorageText(m.receipt.attemptId) && StorageText(m.receipt.outcome)
    ensures ValidateManifest(m).Ok? && Presentable(m) && ProfileOf(m).Ok? && ValidateProfile(ProfileOf(m).value).Ok?
  {
    BareIsValid(m);
    BareIsPresentable(m);
    ProfileAcceptedIff(m);
  }

  lemma ManifestIsGood()
    ensures Disclose(Some(TheManifest())).Ok?
    ensures var d := Disclose(Some(TheManifest())).value;
            ValidateProfile(d.profile).Ok? && d.mandateId == "m" && d.receiptId == "r" && d.createdAt == 1
  {
    var m := TheManifest();
    Short("r");
    Short("m");
    Short("i");
    Short("t");
    Short("done");
    ReceiptIsGood(m.receipt);
    BareManifestIsGood(m);
    DisclosedManifest(Some(m));
  }

  lemma ExportIsAuthentic(e: SignedExport)
    requires e == Original() || e == Correction()
    ensures Authentic(Given(), Setup(), e)
  {
    Short("a");
    Short("b");
    Short("t");
    Short("k");
    assert CheckSignable(Hash, e).Ok?;
  }

  lemma ReferencesAreGood(mandateId: string, receiptId: string)
    requires mandateId == "m" && receiptId == "r"
    ensures GoodRefs(["mandate:" + mandateId, "receipt:" + receiptId])
  {
    var mandate, receipt := "mandate:", "receipt:";
    assert Printable(mandate) && Printable(receipt) && Printable(mandateId) && Printable(receiptId);
    PrefixedIsId(mandate, mandateId);
    PrefixedIsId(receipt, receiptId);
    assert (mandate + mandateId)[0] != (receipt + receiptId)[0];
  }

  lemma KindIsId()
    ensures RecordId("piteka_evidence_export")
  {
    PlainId("piteka_evidence_export");
  }

  /** A record made of well-formed parts. */
  lemma PartsMakeRecord(p: Primitives, config: Config, raw: RawEvent, e: SignedExport, d: Disclosure)
    requires RecordId(ObservationId(e)) && RecordId(raw.sourceId) && RecordId(raw.eventId)
             && RecordId("piteka_evidence_export")
    requires RecordId(DEPLOYMENT_PROFILE_ID) && RecordId(config.collectionRunId) && raw.observedAt > 0
    requires e.payloadSha256 != ZERO_DIGEST && p.sha256(raw.bytes) != ZERO_DIGEST
    requires GoodRefs(["mandate:" + d.mandateId, "receipt:" + d.receiptId]) && RecordId(AuthId(e))
    requires e.supersedes.Some? ==> RecordId(PriorObservationId(e.supersedes.value))
    requires e.supersedes.Some? ==> PriorObservationId(e.supersedes.value) != ObservationId(e)
    requires raw.visibility.Tenant? && RecordId(raw.visibility.tenantId)
    ensures WellFormed(NormalizedObservation(p, config, raw, e, d))
  {
    OneReference(AuthId(e));
    var o := NormalizedObservation(p, config, raw, e, d);
    assert GoodRefs(o.subjectRefs) && GoodRefs(o.authenticityRefs);
  }

  lemma OneReference(reference: string)
    requires RecordId(reference)
    ensures GoodRefs([reference])
  {
  }

  lemma PriorIsAnother()
    ensures PriorObservationId("a") != ObservationId(Correction())
  {
    RevisedIsShort("a");
    RevisedIsShort("b");
    PrefixCancelsNot("observation:piteka:", Revised("a", 1), Revised("b", 1));
  }

  lemma PrefixCancelsNot(prefix: string, x: string, y: string)
    requires x != "" && y != "" && x[0] != y[0]
    ensures prefix + x != prefix + y
  {
    assert (prefix + x)[|prefix|] == x[0] && (prefix + y)[|prefix|] == y[0];
  }

  lemma RecordIsGood(e: SignedExport, d: Disclosure)
    requires e == Original() || e == Correction()
    requires d.mandateId == "m" && d.receiptId == "r"
    ensures WellFormed(NormalizedObservation(Given(), Setup(), RawOf(Given(), Setup(), e), e, d))
  {
    Short("s");
    Short("t");
    Short("run");
    IdsAreIds(e);
    ProfileIsId();
    KindIsId();
    ReferencesAreGood(d.mandateId, d.receiptId);
    PriorIsAnother();
    assert ONE[0] != ZERO_DIGEST[0];
    PartsMakeRecord(Given(), Setup(), RawOf(Given(), Setup(), e), e, d);
  }

  lemma ExportIsRecordable(e: SignedExport)
    requires e == Original() || e == Correction()
    ensures Recordable(Given(), Setup(), e)
  {
    ManifestIsGood();
    var d := Disclose(Some(TheManifest())).value;
    assert Given().disclose(e.payload) == Ok(d);
    RecordIsGood(e, d);
  }

  lemma AcceptedWhen(p: Primitives, config: Config, e: SignedExport)
    requires Restores(p, e) && ValidateEvent(RawOf(p, config, e)).Ok? && Authentic(p, config, e)
             && Recordable(p, config, e)
    requires ConnectorText(AuthId(e))
    ensures Accepted(p, config, e)
  {
    AcceptedIff(p, config, e);
  }

  lemma ExportRestores(e: SignedExport)
    requires e == Original() || e == Correction()
    ensures Restores(Given(), e)
  {
  }

  /** Both exports are accepted, the correction included. */
  lemma ExportIsAccepted(e: SignedExport)
    requires e == Original() || e == Correction()
    ensures Restores(Given(), e) && Accepted(Given(), Setup(), e)
  {
    ExportRestores(e);
    RawIsValid(e);
    ExportIsAuthentic(e);
    ExportIsRecordable(e);
    assert ConnectorText(AuthId(e)) by { IdsAreIds(e); }
    AcceptedWhen(Given(), Setup(), e);
  }

  lemma EmptyStoreStands(feed: seq<SignedExport>)
    ensures StoreAt(ViewOf(Given(), Setup(), feed), EMPTY, 0)
  {
    EmptyInv();
    assert OfSource(EMPTY, "s") == {};
  }

  lemma ClockIsGood(startedAt: u64)
    requires startedAt <= 1
    ensures Startable(Setup(), startedAt)
  {
    Short("c");
    Short("s");
    Short("run");
  }

  lemma FreshIsNotStuck(v: View)
    requires v.feed != [] && v.feed[0].supersedes.None? && v.feed[0].emittedAt > 0
    requires v.Accepts(0) ==> TimesFit(v.Record(0))
    ensures !Stuck(v, 0)
  {
    assert Clock(v, 0) == 0;
  }

  lemma OriginalTimes()
    ensures Accepted(Given(), Setup(), Original()) && TimesFit(ObservationOf(Given(), Setup(), Original()))
  {
    ExportIsAccepted(Original());
    ObservationFacts(Given(), Setup(), Original());
    AcceptedDisclosure(Given(), Setup(), Original(), Parse);
  }

  lemma OriginalIsNotStuck(feed: seq<SignedExport>)
    requires feed != [] && feed[0] == Original()
    ensures !Stuck(ViewOf(Given(), Setup(), feed), 0)
  {
    OriginalTimes();
    var v := ViewOf(Given(), Setup(), feed);
    assert v.norm(feed[0]) == Some(ObservationOf(Given(), Setup(), Original()));
    FreshIsNotStuck(v);
  }

  // ---- And shows the failures -----------------------------------------------------------

  /** The correction is authenticated and lost: the pass fails, the original is stored, the correction is not. */
  lemma CorrectionIsLost()
    ensures var out := SteadyPass(Given(), Setup(), Feed(), EMPTY, 1);
            && out.stop == Some(PersistFailed)
            && ObservationId(Original()) in out.tables.observations
            && ObservationId(Correction()) !in out.tables.observations
  {
    FeedRoundTrips();
    FeedIsWellFormed();
    ExportIsAccepted(Original());
    ExportIsAccepted(Correction());
    EmptyStoreStands(Feed());
    ClockIsGood(1);
    OriginalIsNotStuck(Feed());
    PassStopsAtCorrection(Given(), Setup(), Feed(), EMPTY, 1, 0, 1);
    MirrorReads(Given(), Setup(), Feed(), SteadyPass(Given(), Setup(), Feed(), EMPTY, 1).tables, 1, 0);
  }

  lemma OriginalFeed()
    ensures RoundTrips(Given(), [Original()]) && WellFormedFeed(Given(), Setup(), [Original()])
  {
    FeedRoundTrips();
    FeedIsWellFormed();
    assert Feed()[0] == Original();
    assert Restores(Given(), Feed()[0]);
  }

  /** Without the correction the pass succeeds, and repeating it persists nothing, even from a clock reading of 0. */
  lemma OriginalIsKept()
    ensures var first := SteadyPass(Given(), Setup(), [Original()], EMPTY, 1);
            var second := SteadyPass(Given(), Setup(), [Original()], first.tables, 0);
            first.stop.None? && second.stop.None? && second.summary.persisted == 0
  {
    OriginalFeed();
    EmptyStoreStands([Original()]);
    ClockIsGood(1);
    ClockIsGood(0);
    OriginalIsNotStuck([Original()]);
    PassSucceedsIff(Given(), Setup(), [Original()], EMPTY, 1, 0);
    SecondPassChangesNothing(Given(), Setup(), [Original()], EMPTY, 1, 0, 0);
  }

  /** From a clock reading of 0 the same pass loses its run and fails. */
  lemma ZeroClockLosesTheRun()
    ensures var out := SteadyPass(Given(), Setup(), [Original()], EMPTY, 0);
            out.stop == Some(PersistFailed) && out.tables.observations == map[]
  {
    OriginalFeed();
    ExportIsAccepted(Original());
    EmptyInv();
    ClockIsGood(0);
    PassWithoutRun(Given(), Setup(), [Original()], EMPTY);
    assert [Original()][0] == Original();
  }

  // ---- A pass that does not end ---------------------------------------------

  predicate Refuse(key: Digest, message: seq<byte>, signature: seq<byte>) {
    false
  }

  /** The same primitives, for a server whose signatures are no good. */
  function Refusing(): Primitives {
    Given().(verify := Refuse)
  }

  /** One badly signed export, under whatever number is asked for next. */
  function Numbered(after: u64): SignedExport {
    Original().(sequence := SaturatingSucc(after))
  }

  lemma NumberedIsValid(n: u64)
    ensures ValidateEvent(RawOf(Refusing(), Setup(), Numbered(n))).Ok?
  {
    Short("s");
    Short("t");
    MediaTypeIsText();
    IdsAreIds(Original());
    EventIsValid(RawOf(Refusing(), Setup(), Numbered(n)));
  }

  lemma RefusedIsSkipped(config: Config, e: SignedExport)
    ensures !Accepted(Refusing(), config, e)
  {
    if Accepted(Refusing(), config, e) { GatedExportsAreAuthentic(Refusing(), config, RawOf(Refusing(), config, e)); }
  }

  /** From an empty store, with nothing but good answers in time, the pass against this server is still going after any
      number of turns. */
  lemma PassGoesOn(turns: nat)
    ensures Pass(Refusing(), Setup(), Repeated(Supplying(Numbered), turns), EMPTY, 1).stop == Some(Unfinished)
  {
    forall n: u64 ensures ValidateEvent(RawOf(Refusing(), Setup(), Numbered(n))).Ok? { NumberedIsValid(n); }
    forall n: u64 ensures !Accepted(Refusing(), Setup(), Numbered(n)) { RefusedIsSkipped(Setup(), Numbered(n)); }
    Short("s");
    ClockIsGood(1);
    PreparedIff(Setup(), EMPTY, 1);
    var ready := Prepared(Setup(), EMPTY, 1).tables;
    SkippingNeedNotEnd(Refusing(), Setup(), Numbered, DISCOVERY_LIMIT, ready, NOTHING, 0, turns);
  }
}
