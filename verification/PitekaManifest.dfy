/** The export manifest: what a Piteka payload discloses, and when the profile read from it is one
    the observation plane accepts (indexer/src/piteka_feed.rs, shared/src/observation.rs). */
module PitekaManifest {
  import opened Words
  import opened Wrappers
  import opened Text
  import opened Records
  import opened Connectors
  import opened PitekaSigning
  import opened PitekaFeeds

  const ATTESTATION_REGISTRY_ID := "org.diewan.evidence.attestation.v1"
  const WORKFLOW := "workflow identity"
  const ATTESTATION := "artifact attestation"
  const ARTIFACT := "artifact digest"

  datatype Receipt = Receipt(
    receiptId: string, mandateId: string, intentId: string, attemptId: string, outcome: string, createdAt: u64)

  datatype EvidenceNode = EvidenceNode(nodeId: string, registryId: string, source: string, contentDigest: string)

  datatype Gap = Gap(nodeId: string, contentDigest: string)

  datatype Anchor = Anchor(sealIdHex: string, nullifierHex: string, commitmentHex: string, backend: string)

  datatype Manifest = Manifest(
    bundleVersion: string, receipt: Receipt, dispatch: seq<EvidenceNode>, target: seq<EvidenceNode>,
    gaps: seq<Gap>, gapCount: u64, gapNotes: seq<string>, anchor: Option<Anchor>)

  // ---- Digests in hexadecimal ------------------------------------------------

  function HexValue(c: char): Option<nat> {
    if '0' <= c <= '9' then Some(c as int - '0' as int)
    else if 'a' <= c <= 'f' then Some(c as int - 'a' as int + 10)
    else if 'A' <= c <= 'F' then Some(c as int - 'A' as int + 10)
    else None
  }

  /** One byte from two digits. */
  function HexByte(high: char, low: char): (r: Option<byte>)
    ensures r.Some? <==> HexValue(high).Some? && HexValue(low).Some?
  {
    if HexValue(high).None? || HexValue(low).None? then None
    else Some(HexValue(high).value * 16 + HexValue(low).value)
  }

  /** `hex::decode` */
  function HexDecode(text: string): Option<seq<byte>> {
    if text == "" then Some([])
    else if |text| == 1 || HexByte(text[0], text[1]).None? then None
    else
      match HexDecode(text[2..])
      case None => None
      case Some(rest) => Some([HexByte(text[0], text[1]).value] + rest)
  }

  function DecodeSha256(text: string): Result<Digest, ConnectorError> {
    match HexDecode(text)
    case None => Err(InvalidConnectorField("evidence.digest"))
    case Some(bytes) =>
      if |bytes| != 32 || bytes == ZERO_DIGEST then Err(InvalidConnectorField("evidence.digest")) else Ok(bytes)
  }

  function AsciiLower(text: string): (r: string)
    ensures |r| == |text|
  {
    seq(|text|, i requires 0 <= i < |text| => if 'A' <= text[i] <= 'Z' then text[i] + 32 as char else text[i])
  }

  lemma HexDigitValue(n: nat)
    requires n < 16
    ensures HexValue(HexDigit(n)) == Some(n)
  {
  }

  /** Reading a digest's hexadecimal form restores it. */
  lemma {:induction false} HexRoundTrips(bytes: seq<byte>)
    ensures HexDecode(Hex(bytes)) == Some(bytes)
  {
    if bytes != [] {
      HexDigitValue(bytes[0] / 16);
      HexDigitValue(bytes[0] % 16);
      HexRoundTrips(bytes[1..]);
      var text := Hex(bytes);
      assert text[2..] == Hex(bytes[1..]);
      assert HexByte(text[0], text[1]) == Some(bytes[0]);
      assert [bytes[0]] + bytes[1..] == bytes;
    }
  }

  lemma HexByteDigits(high: char, low: char)
    requires HexByte(high, low).Some?
    ensures var b := HexByte(high, low).value;
            [HexDigit(b / 16), HexDigit(b % 16)] == AsciiLower([high, low])
  {
    var h, l := HexValue(high).value, HexValue(low).value;
    assert (h * 16 + l) / 16 == h && (h * 16 + l) % 16 == l;
  }

  /** A text that reads as bytes is their hexadecimal form, up to the case of its letters. */
  lemma {:induction false} HexDecodesOnlyHex(text: string)
    requires HexDecode(text).Some?
    ensures AsciiLower(text) == Hex(HexDecode(text).value)
  {
    if text != "" {
      var bytes := HexDecode(text).value;
      HexByteDigits(text[0], text[1]);
      HexDecodesOnlyHex(text[2..]);
      assert bytes[1..] == HexDecode(text[2..]).value;
      assert text == [text[0], text[1]] + text[2..];
      assert AsciiLower(text) == AsciiLower([text[0], text[1]]) + AsciiLower(text[2..]);
    }
  }

  // ---- Validation -------------------------------------------------------------

  function CheckDigest(text: string): Verdict {
    var _ :- DecodeSha256(text);
    Ok(())
  }

  function CheckNode(node: EvidenceNode): Verdict {
    var _ :- CheckText(node.nodeId, "evidence.node_id");
    var _ :- CheckText(node.registryId, "evidence.registry_id");
    var _ :- CheckText(node.source, "evidence.source");
    CheckDigest(node.contentDigest)
  }

  /** The first complaint about a list. */
  function CheckEach<T>(check: T -> Verdict, list: seq<T>): Verdict {
    if list == [] then Ok(()) else
      var _ :- check(list[0]);
      CheckEach(check, list[1..])
  }

  lemma {:induction false} CheckedEach<T>(check: T -> Verdict, list: seq<T>)
    ensures CheckEach(check, list).Ok? <==> forall i :: 0 <= i < |list| ==> check(list[i]).Ok?
  {
    if list != [] { CheckedEach(check, list[1..]); }
  }

  function CheckGap(gap: Gap): Verdict {
    var _ :- CheckText(gap.nodeId, "gap.node_id");
    CheckDigest(gap.contentDigest)
  }

  function CheckAnchor(anchor: Anchor): Verdict {
    var _ :- CheckText(anchor.backend, "single_use_anchor.anchor_backend");
    var _ :- CheckDigest(anchor.sealIdHex);
    var _ :- CheckDigest(anchor.nullifierHex);
    CheckDigest(anchor.commitmentHex)
  }

  function CheckReceipt(r: Receipt): Verdict {
    var _ :- CheckText(r.receiptId, "receipt_id");
    var _ :- CheckText(r.mandateId, "mandate_id");
    var _ :- CheckText(r.intentId, "intent_id");
    var _ :- CheckText(r.attemptId, "attempt_id");
    CheckText(r.outcome, "outcome")
  }

  /** `ExportManifest::validate` */
  function ValidateManifest(m: Manifest): Verdict {
    if m.bundleVersion != "0.1" || m.receipt.createdAt == 0
      then Err(InvalidConnectorField("piteka_feed.manifest_version")) else
      var _ :- CheckReceipt(m.receipt);
      if m.gapCount != |m.gaps| || |m.gapNotes| != |m.gaps|
        then Err(InvalidConnectorField("piteka_feed.missing_evidence")) else
        var _ :- CheckEach(CheckNode, m.dispatch + m.target);
        var _ :- CheckEach(CheckGap, m.gaps);
        if m.anchor.Some? then CheckAnchor(m.anchor.value) else Ok(())
  }

  lemma CheckedNode(nodes: seq<EvidenceNode>, i: nat)
    requires CheckEach(CheckNode, nodes).Ok? && i < |nodes|
    ensures ConnectorText(nodes[i].nodeId) && DecodeSha256(nodes[i].contentDigest).Ok?
  {
    CheckedEach(CheckNode, nodes);
    assert CheckNode(nodes[i]).Ok?;
  }

  // ---- Missing evidence ---------------------------------------------------------

  predicate Contains(text: string, part: string) {
    exists i :: 0 <= i <= |text| && part <= text[i..]
  }

  predicate Names(reason: string, class_: string) {
    Contains(AsciiLower(reason), class_)
  }

  /** The reported reasons that name a class of evidence, in order. */
  function Matching(reported: seq<string>, class_: string): seq<string> {
    if reported == [] then [] else
      (if Names(reported[0], class_) then [reported[0]] else []) + Matching(reported[1..], class_)
  }

  function Undisclosed(class_: string): string {
    class_ + " was not disclosed" + " by the source export"
  }

  /** `missing_reasons` */
  function MissingReasons(reported: seq<string>, class_: string): seq<string> {
    if Matching(reported, class_) == [] then [Undisclosed(class_)] else Matching(reported, class_)
  }

  lemma {:induction false} MatchingMeaning(reported: seq<string>, class_: string, reason: string)
    ensures reason in Matching(reported, class_) <==> reason in reported && Names(reason, class_)
  {
    if reported != [] {
      MatchingMeaning(reported[1..], class_, reason);
      assert reported == [reported[0]] + reported[1..];
    }
  }

  /** Absence is always accounted for, by exactly the reported reasons that name the class, or by the
      statement that nothing was disclosed when none does. */
  lemma ReasonsAccountForAbsence(reported: seq<string>, class_: string, reason: string)
    ensures MissingReasons(reported, class_) != []
    ensures reason in MissingReasons(reported, class_) <==>
            if exists other :: other in reported && Names(other, class_)
            then reason in reported && Names(reason, class_)
            else reason == Undisclosed(class_)
  {
    MatchingMeaning(reported, class_, reason);
    if other :| other in reported && Names(other, class_) {
      MatchingMeaning(reported, class_, other);
    } else if Matching(reported, class_) != [] {
      MatchingMeaning(reported, class_, Matching(reported, class_)[0]);
    }
  }

  // ---- The profile --------------------------------------------------------------

  function Attestations(nodes: seq<EvidenceNode>): (r: seq<EvidenceNode>) {
    if nodes == [] then [] else
      (if nodes[0].registryId == ATTESTATION_REGISTRY_ID then [nodes[0]] else []) + Attestations(nodes[1..])
  }

  function NodeIds(nodes: seq<EvidenceNode>): (r: seq<string>)
    ensures |r| == |nodes| && forall i :: 0 <= i < |r| ==> r[i] == nodes[i].nodeId
  {
    seq(|nodes|, i requires 0 <= i < |nodes| => nodes[i].nodeId)
  }

  function ArtifactOf(m: Manifest): Result<ObservedOrMissing<ArtifactAttestation>, ConnectorError> {
    var nodes := Attestations(m.dispatch + m.target);
    if nodes == [] then Ok(Missing(MissingReasons(m.gapNotes, ATTESTATION)))
    else if |nodes| == 1 then
      var digest :- DecodeSha256(nodes[0].contentDigest);
      var reasons := MissingReasons(m.gapNotes, ARTIFACT);
      Ok(Observed(ArtifactAttestation("sha-256", Missing(reasons), digest, [nodes[0].nodeId])))
    else Err(InvalidConnectorField("piteka_feed.ambiguous_artifact_attestation"))
  }

  /** `ExportManifest::deployment_profile` */
  function ProfileOf(m: Manifest): Result<DeploymentProfile, ConnectorError> {
    var artifact :- ArtifactOf(m);
    Ok(DeploymentProfile(
         SCHEMA_VERSION, m.receipt.receiptId, m.receipt.mandateId, m.receipt.intentId, m.receipt.attemptId,
         Observed([StatusReading(m.receipt.outcome, m.receipt.createdAt, NodeIds(m.target))]),
         Missing(MissingReasons(m.gapNotes, WORKFLOW)), artifact))
  }

  /** What `normalize` takes from a payload that parses as `manifest`. */
  function Disclose(manifest: Option<Manifest>): Result<Disclosure, ConnectorError> {
    match manifest
    case None => Err(InvalidConnectorField("piteka_feed.payload"))
    case Some(m) =>
      var _ :- ValidateManifest(m);
      var profile :- ProfileOf(m);
      Ok(Disclosure(m.receipt.mandateId, m.receipt.receiptId, m.receipt.createdAt, profile))
  }

  lemma {:induction false} AttestationsListed(nodes: seq<EvidenceNode>, node: EvidenceNode)
    ensures node in Attestations(nodes) <==> node in nodes && node.registryId == ATTESTATION_REGISTRY_ID
  {
    if nodes != [] {
      AttestationsListed(nodes[1..], node);
      assert nodes == [nodes[0]] + nodes[1..];
    }
  }

  lemma AttestationDecodes(m: Manifest)
    requires ValidateManifest(m).Ok? && Attestations(m.dispatch + m.target) != []
    ensures var node := Attestations(m.dispatch + m.target)[0];
            node in m.dispatch + m.target && ConnectorText(node.nodeId) && DecodeSha256(node.contentDigest).Ok?
  {
    var nodes := m.dispatch + m.target;
    AttestationsListed(nodes, Attestations(nodes)[0]);
    var i :| 0 <= i < |nodes| && nodes[i] == Attestations(nodes)[0];
    CheckedNode(nodes, i);
  }

  /** A valid manifest has a profile unless it lists several attestations, and its profile shows an
      attestation exactly if the manifest lists one: that one, never its artifact's digest. */
  lemma AttestationShownIff(m: Manifest)
    requires ValidateManifest(m).Ok?
    ensures ProfileOf(m).Ok? <==> |Attestations(m.dispatch + m.target)| <= 1
    ensures ProfileOf(m).Ok? ==>
              var shown := ProfileOf(m).value.artifactAttestation;
              && (shown.Observed? <==> |Attestations(m.dispatch + m.target)| == 1)
              && (shown.Observed? ==>
                    exists node :: node in m.dispatch + m.target && node.registryId == ATTESTATION_REGISTRY_ID
                      && shown.value.evidenceRefs == [node.nodeId]
                      && Ok(shown.value.attestationDigest) == DecodeSha256(node.contentDigest)
                      && shown.value.artifactDigest.Missing?)
  {
    var nodes := Attestations(m.dispatch + m.target);
    if nodes != [] {
      AttestationDecodes(m);
      AttestationsListed(m.dispatch + m.target, nodes[0]);
    }
  }

  // ---- When the profile is accepted ------------------------------------------------

  lemma {:induction false} Utf8Bound(text: string)
    ensures Utf8Length(text) <= 4 * |text|
  {
    if text != "" { Utf8Bound(text[1..]); }
  }

  lemma ShortIsId(text: string)
    requires 0 < |text| <= 128 && !IsWhitespace(text[0]) && '\0' !in text
    ensures RecordId(text)
  {
    Utf8Bound(text);
  }

  predicate EvidenceClass(class_: string) {
    class_ == WORKFLOW || class_ == ATTESTATION || class_ == ARTIFACT
  }

  lemma ClassText(class_: string)
    requires EvidenceClass(class_)
    ensures 0 < |class_| <= 20 && !IsWhitespace(class_[0]) && '\0' !in class_
  {
    assert WORKFLOW[0] == 'w' && ATTESTATION[0] == 'a' && ARTIFACT[0] == 'a';
  }

  lemma UndisclosedIsGood(class_: string)
    requires EvidenceClass(class_)
    ensures GoodRefs([Undisclosed(class_)])
  {
    var what, who := " was not disclosed", " by the source export";
    assert '\0' !in what && '\0' !in who;
    ClassText(class_);
    assert (class_ + what + who)[0] == class_[0];
    ShortIsId(class_ + what + who);
  }

  lemma ReasonsGoodIff(reported: seq<string>, class_: string)
    requires EvidenceClass(class_)
    ensures ValidateReasons(MissingReasons(reported, class_)).Ok? <==> GoodRefs(Matching(reported, class_))
  {
    CheckRefsMeaning(MissingReasons(reported, class_), "missing.reasons");
    UndisclosedIsGood(class_);
  }

  /** A text of the feed is an id of the observation plane exactly if it is not blank. */
  lemma TextIsIdIff(text: string)
    requires ConnectorText(text)
    ensures RecordId(text) <==> !Blank(text)
  {
    assert IsControl('\0');
  }

  /** What the observation plane asks of a valid manifest beyond the feed's own checks. */
  predicate Presentable(m: Manifest) {
    && !Blank(m.receipt.receiptId) && !Blank(m.receipt.mandateId) && !Blank(m.receipt.intentId)
    && !Blank(m.receipt.attemptId) && !Blank(m.receipt.outcome)
    && GoodRefs(NodeIds(m.target))
    && GoodRefs(Matching(m.gapNotes, WORKFLOW))
    && var nodes := Attestations(m.dispatch + m.target);
       if nodes == [] then GoodRefs(Matching(m.gapNotes, ATTESTATION))
       else GoodRefs(Matching(m.gapNotes, ARTIFACT)) && !Blank(nodes[0].nodeId)
  }

  lemma HistoryAcceptedIff(m: Manifest)
    requires ValidateManifest(m).Ok?
    ensures CheckHistory(Observed([StatusReading(m.receipt.outcome, m.receipt.createdAt, NodeIds(m.target))])).Ok? <==>
            !Blank(m.receipt.outcome) && GoodRefs(NodeIds(m.target))
  {
    var history := [StatusReading(m.receipt.outcome, m.receipt.createdAt, NodeIds(m.target))];
    TextIsIdIff(m.receipt.outcome);
    CheckHistoryFromMeaning(history, 0, 0);
    assert GoodReading(history[0]) <==> !Blank(m.receipt.outcome) && GoodRefs(NodeIds(m.target));
  }

  lemma ShownAttestationIff(m: Manifest, node: EvidenceNode, digest: Digest)
    requires ConnectorText(node.nodeId) && digest != ZERO_DIGEST
    ensures var reasons := MissingReasons(m.gapNotes, ARTIFACT);
            ValidateArtifact(Observed(ArtifactAttestation("sha-256", Missing(reasons), digest, [node.nodeId]))).Ok?
            <==> ValidateReasons(reasons).Ok? && !Blank(node.nodeId)
  {
    TextIsIdIff(node.nodeId);
    CheckRefsMeaning([node.nodeId], "artifact.attestation_evidence_refs");
    assert "sha-256"[0] == 's';
    ShortIsId("sha-256");
  }

  lemma ArtifactAcceptedIff(m: Manifest)
    requires ValidateManifest(m).Ok? && ArtifactOf(m).Ok?
    ensures var nodes := Attestations(m.dispatch + m.target);
            ValidateArtifact(ArtifactOf(m).value).Ok? <==>
              if nodes == [] then GoodRefs(Matching(m.gapNotes, ATTESTATION))
              else GoodRefs(Matching(m.gapNotes, ARTIFACT)) && !Blank(nodes[0].nodeId)
  {
    var nodes := Attestations(m.dispatch + m.target);
    ReasonsGoodIff(m.gapNotes, ATTESTATION);
    ReasonsGoodIff(m.gapNotes, ARTIFACT);
    if nodes != [] {
      AttestationDecodes(m);
      ShownAttestationIff(m, nodes[0], DecodeSha256(nodes[0].contentDigest).value);
    }
  }

  /** The exact gap between the two sets of checks: the profile of a manifest that the feed's checks
      accept passes the observation plane's exactly if the manifest is presentable. */
  lemma ProfileAcceptedIff(m: Manifest)
    requires ValidateManifest(m).Ok? && ProfileOf(m).Ok?
    ensures ValidateProfile(ProfileOf(m).value).Ok? <==> Presentable(m)
  {
    TextIsIdIff(m.receipt.receiptId);
    TextIsIdIff(m.receipt.mandateId);
    TextIsIdIff(m.receipt.intentId);
    TextIsIdIff(m.receipt.attemptId);
    HistoryAcceptedIff(m);
    ReasonsGoodIff(m.gapNotes, WORKFLOW);
    ArtifactAcceptedIff(m);
  }

  // ---- At the gate ------------------------------------------------------------------

  /** The connector reads payloads as manifests. */
  ghost predicate ReadsManifests(p: Primitives, parse: seq<byte> -> Option<Manifest>) {
    forall payload :: p.disclose(payload) == Disclose(parse(payload))
  }

  lemma GatedProfile(connector: Connector, raw: RawEvent, version: u16)
    requires Gate(connector, raw, version).Ok?
    ensures var profile := Gate(connector, raw, version).value.profile;
            profile.Some? ==> ValidateProfile(profile.value).Ok?
  {
  }

  /** What an accepted export normalizes to. */
  lemma AcceptedNormalization(p: Primitives, config: Config, e: SignedExport)
    requires Restores(p, e) && Accepted(p, config, e)
    ensures p.disclose(e.payload).Ok?
    ensures var d, o := p.disclose(e.payload).value, ObservationOf(p, config, e);
            && ValidateProfile(d.profile).Ok?
            && o.subjectRefs == ["mandate:" + d.mandateId, "receipt:" + d.receiptId]
            && o.assertedEventTime == Some(d.createdAt)
  {
    var connector, raw := PitekaConnector(p, config), RawOf(p, config, e);
    assert p.deserialize(raw.bytes) == Some(e);
    GatedExportsAreAuthentic(p, config, raw);
    GateIsSound(connector, raw, 1);
    assert connector.normalize(raw, 1) == Normalize(p, config, raw, 1);
    GatedProfile(connector, raw, 1);
  }

  lemma DisclosedManifest(m: Option<Manifest>)
    requires Disclose(m).Ok?
    ensures m.Some? && ValidateManifest(m.value).Ok? && ProfileOf(m.value) == Ok(Disclose(m).value.profile)
    ensures var d := Disclose(m).value;
            d.mandateId == m.value.receipt.mandateId && d.receiptId == m.value.receipt.receiptId
            && d.createdAt == m.value.receipt.createdAt
  {
  }

  /** An export that passes the gate carries a valid, presentable manifest with at most one
      attestation, and its observation is about that manifest's mandate and receipt. */
  lemma AcceptedDisclosure(p: Primitives, config: Config, e: SignedExport, parse: seq<byte> -> Option<Manifest>)
    requires Restores(p, e) && ReadsManifests(p, parse) && Accepted(p, config, e)
    ensures parse(e.payload).Some?
    ensures var m, o := parse(e.payload).value, ObservationOf(p, config, e);
            && ValidateManifest(m).Ok? && Presentable(m) && |Attestations(m.dispatch + m.target)| <= 1
            && o.subjectRefs == ["mandate:" + m.receipt.mandateId, "receipt:" + m.receipt.receiptId]
            && o.assertedEventTime == Some(m.receipt.createdAt)
  {
    AcceptedNormalization(p, config, e);
    assert p.disclose(e.payload) == Disclose(parse(e.payload));
    DisclosedManifest(parse(e.payload));
    AttestationShownIff(parse(e.payload).value);
    ProfileAcceptedIff(parse(e.payload).value);
  }
}
