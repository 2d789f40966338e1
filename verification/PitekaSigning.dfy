/** The signed message of a Piteka export (indexer/src/piteka_feed.rs) and a parser that inverts it. */
module PitekaSigning {
  import opened Words
  import opened Wrappers
  import Utf8
  import opened Text
  import opened Connectors

  const FEED_SCHEMA_VERSION: u16 := 1

  datatype SignedExport = SignedExport(
    schemaVersion: u16, sequence: u64, exportId: string, revision: u32, supersedes: Option<string>,
    tenantId: string, emittedAt: u64, payload: Bytes, payloadSha256: Digest,
    signingKeyId: string, signature: seq<byte>)

  /** The text of the signature domain. */
  const DOMAIN_TEXT := "diewan.piteka.evidence-feed.v1\0"

  function PutText(value: string): seq<byte>
    requires Utf8Length(value) <= U32_MAX
  {
    ToBytes(Utf8Length(value), 4) + Utf8.Encode(value)
  }

  /** A presence byte, and the text if there is one. */
  function PutOptional(value: Option<string>): seq<byte>
    requires value.Some? ==> Utf8Length(value.value) <= U32_MAX
  {
    if value.None? then [0] else [1] + PutText(value.value)
  }

  /** `signing_bytes` rejects an export before encoding it. */
  function CheckSignable(sha256: seq<byte> -> Digest, e: SignedExport): Verdict {
    if e.schemaVersion != FEED_SCHEMA_VERSION then Err(UnsupportedContractVersion(e.schemaVersion))
    else if e.sequence == 0 || e.revision == 0 || e.emittedAt == 0
      then Err(InvalidConnectorField("piteka_feed.ordering"))
    else
      var _ :- CheckText(e.exportId, "piteka_feed.export_id");
      var _ :- CheckText(e.tenantId, "piteka_feed.tenant_id");
      var _ :- CheckText(e.signingKeyId, "piteka_feed.signing_key_id");
      var _ :- CheckSupersedes(e);
      if e.payload == [] || sha256(e.payload) != e.payloadSha256
      then Err(InvalidConnectorField("piteka_feed.payload_digest"))
      else Ok(())
  }

  function CheckSupersedes(e: SignedExport): Verdict {
    if e.supersedes.None? then Ok(()) else
      var _ :- CheckText(e.supersedes.value, "piteka_feed.supersedes_export_id");
      if e.supersedes.value == e.exportId then Err(InvalidConnectorField("piteka_feed.self_supersession")) else Ok(())
  }

  /** Every text of the message has a 32-bit length. */
  predicate Encodable(e: SignedExport) {
    && Utf8Length(e.exportId) <= U32_MAX && Utf8Length(e.tenantId) <= U32_MAX
    && (e.supersedes.Some? ==> Utf8Length(e.supersedes.value) <= U32_MAX)
  }

  lemma SignableIsEncodable(sha256: seq<byte> -> Digest, e: SignedExport)
    requires CheckSignable(sha256, e).Ok?
    ensures Encodable(e)
  {
  }

  /** What identifies the export. */
  function Header(e: SignedExport): seq<byte>
    requires Encodable(e)
  {
    ToBytes(e.schemaVersion, 2) + (ToBytes(e.sequence, 8) + (PutText(e.exportId) + ToBytes(e.revision, 4)))
  }

  /** Lineage, tenant, time and payload. */
  function Body(e: SignedExport): seq<byte>
    requires Encodable(e)
  {
    PutOptional(e.supersedes) + (PutText(e.tenantId) + (ToBytes(e.emittedAt, 8)
    + (e.payloadSha256 + (ToBytes(|e.payload|, 8) + e.payload))))
  }

  /** The message, field after field. */
  function Message(e: SignedExport): seq<byte>
    requires Encodable(e)
  {
    Utf8.Encode(DOMAIN_TEXT) + (Header(e) + Body(e))
  }

  function SigningBytes(sha256: seq<byte> -> Digest, e: SignedExport): Result<seq<byte>, ConnectorError> {
    var _ :- CheckSignable(sha256, e);
    SignableIsEncodable(sha256, e);
    Ok(Message(e))
  }

  lemma Assoc(a: seq<byte>, b: seq<byte>, c: seq<byte>)
    ensures (a + b) + c == a + (b + c)
  {
  }

  /** Four fields and what follows them, grouped to the right. */
  lemma Regroup(a: seq<byte>, b: seq<byte>, c: seq<byte>, d: seq<byte>, rest: seq<byte>)
    ensures (a + (b + (c + d))) + rest == a + (b + (c + (d + rest)))
    ensures (((a + b) + c) + d) + rest == a + (b + (c + (d + rest)))
  {
    Assoc(a, b + (c + d), rest);
    Assoc(b, c + d, rest);
    Assoc(c, d, rest);
    Assoc((a + b) + c, d, rest);
    Assoc(a + b, c, d + rest);
    Assoc(a, b, c + (d + rest));
  }

  /** Appends the header fields to a buffer, one after the other. */
  method PutHeader(buffer: seq<byte>, e: SignedExport) returns (bytes: seq<byte>)
    requires Encodable(e)
    ensures bytes == buffer + Header(e)
  {
    var version, sequence := ToBytes(e.schemaVersion, 2), ToBytes(e.sequence, 8);
    var exportId, revision := PutText(e.exportId), ToBytes(e.revision, 4);
    bytes := buffer;
    bytes := bytes + version;
    bytes := bytes + sequence;
    bytes := bytes + exportId;
    bytes := bytes + revision;
    Regroup(buffer, version, sequence, exportId, revision);
  }

  /** Appends the remaining fields. */
  method PutBody(buffer: seq<byte>, e: SignedExport) returns (bytes: seq<byte>)
    requires Encodable(e)
    ensures bytes == buffer + Body(e)
  {
    var supersedes, tenant, time := PutOptional(e.supersedes), PutText(e.tenantId), ToBytes(e.emittedAt, 8);
    var digest, length := e.payloadSha256, ToBytes(|e.payload|, 8);
    bytes := buffer;
    bytes := bytes + supersedes;
    bytes := bytes + tenant;
    bytes := bytes + time;
    bytes := bytes + digest;
    bytes := bytes + length;
    bytes := bytes + e.payload;
    Regroup(buffer, supersedes, tenant, time, digest + (length + e.payload));
    Assoc((((buffer + supersedes) + tenant) + time) + digest, length, e.payload);
    Assoc(((buffer + supersedes) + tenant) + time, digest, length + e.payload);
  }

  /** `signing_bytes` */
  method ComputeSigningBytes(sha256: seq<byte> -> Digest, e: SignedExport)
    returns (r: Result<seq<byte>, ConnectorError>)
    ensures r == SigningBytes(sha256, e)
  {
    var _ :- CheckSignable(sha256, e);
    SignableIsEncodable(sha256, e);
    var bytes := PutHeader(Utf8.Encode(DOMAIN_TEXT), e);
    bytes := PutBody(bytes, e);
    Assoc(Utf8.Encode(DOMAIN_TEXT), Header(e), Body(e));
    return Ok(bytes);
  }

  // ---- The parser -----------------------------------------------------------

  /** What a signature covers. */
  datatype SignedFields = SignedFields(
    schemaVersion: nat, sequence: nat, exportId: string, revision: nat, supersedes: Option<string>,
    tenantId: string, emittedAt: nat, payloadSha256: seq<byte>, payload: seq<byte>)

  function FieldsOf(e: SignedExport): SignedFields {
    SignedFields(e.schemaVersion, e.sequence, e.exportId, e.revision, e.supersedes, e.tenantId, e.emittedAt,
                 e.payloadSha256, e.payload)
  }

  type Parsed<T> = Option<(T, seq<byte>)>

  function TakeBytes(b: seq<byte>, n: nat): Parsed<seq<byte>> {
    if n <= |b| then Some((b[..n], b[n..])) else None
  }

  function TakeWord(b: seq<byte>, width: nat): Parsed<nat> {
    match TakeBytes(b, width)
    case None => None
    case Some((word, rest)) => Some((FromBytes(word), rest))
  }

  function TakeText(b: seq<byte>): Parsed<string> {
    match TakeWord(b, 4)
    case None => None
    case Some((length, rest)) =>
      match TakeBytes(rest, length)
      case None => None
      case Some((text, rest)) =>
        match Utf8.Decode(text)
        case None => None
        case Some(value) => Some((value, rest))
  }

  function TakeOptional(b: seq<byte>): Parsed<Option<string>> {
    match TakeWord(b, 1)
    case None => None
    case Some((present, rest)) =>
      if present == 0 then Some((None, rest))
      else
        match TakeText(rest)
        case None => None
        case Some((value, rest)) => Some((Some(value), rest))
  }

  datatype HeaderFields = HeaderFields(schemaVersion: nat, sequence: nat, exportId: string, revision: nat)

  datatype BodyFields = BodyFields(
    supersedes: Option<string>, tenantId: string, emittedAt: nat, payloadSha256: seq<byte>, payload: seq<byte>)

  function TakeHeader(b: seq<byte>): Parsed<HeaderFields> {
    match TakeWord(b, 2) case None => None case Some((schemaVersion, b)) =>
    match TakeWord(b, 8) case None => None case Some((sequence, b)) =>
    match TakeText(b) case None => None case Some((exportId, b)) =>
    match TakeWord(b, 4) case None => None case Some((revision, b)) =>
    Some((HeaderFields(schemaVersion, sequence, exportId, revision), b))
  }

  function ParseBody(b: seq<byte>): Option<BodyFields> {
    match TakeOptional(b) case None => None case Some((supersedes, b)) =>
    match TakeText(b) case None => None case Some((tenantId, b)) =>
    match TakeWord(b, 8) case None => None case Some((emittedAt, b)) =>
    match TakeBytes(b, 32) case None => None case Some((digest, b)) =>
    match TakeWord(b, 8) case None => None case Some((length, b)) =>
    if length != |b| then None else Some(BodyFields(supersedes, tenantId, emittedAt, digest, b))
  }

  /** Recovers the signed fields of a message. */
  function ParseMessage(message: seq<byte>): Option<SignedFields> {
    match TakeBytes(message, |Utf8.Encode(DOMAIN_TEXT)|) case None => None case Some((_, b)) =>
    match TakeHeader(b) case None => None case Some((h, b)) =>
    match ParseBody(b) case None => None case Some(body) =>
    Some(SignedFields(h.schemaVersion, h.sequence, h.exportId, h.revision, body.supersedes, body.tenantId,
                      body.emittedAt, body.payloadSha256, body.payload))
  }

  lemma TakeWhatWasPut(field: seq<byte>, rest: seq<byte>)
    ensures TakeBytes(field + rest, |field|) == Some((field, rest))
  {
  }

  lemma TakePutWord(value: nat, width: nat, rest: seq<byte>)
    requires value < Pow256(width)
    ensures TakeWord(ToBytes(value, width) + rest, width) == Some((value, rest))
  {
    FromBytesToBytes(value, width);
    TakeWhatWasPut(ToBytes(value, width), rest);
  }

  lemma TakePutText(value: string, rest: seq<byte>)
    requires Utf8Length(value) <= U32_MAX
    ensures TakeText(PutText(value) + rest) == Some((value, rest))
  {
    WordSizes();
    var text := Utf8.Encode(value);
    assert PutText(value) + rest == ToBytes(|text|, 4) + (text + rest);
    TakePutWord(|text|, 4, text + rest);
    TakeWhatWasPut(text, rest);
    Utf8.DecodeEncode(value);
  }

  lemma TakePutOptional(value: Option<string>, rest: seq<byte>)
    requires value.Some? ==> Utf8Length(value.value) <= U32_MAX
    ensures TakeOptional(PutOptional(value) + rest) == Some((value, rest))
  {
    var flag := if value.None? then 0 else 1;
    assert Pow256(1) == 256;
    assert ToBytes(flag, 1) == [flag];
    if value.None? {
      TakePutWord(0, 1, rest);
    } else {
      assert PutOptional(value) + rest == [1] + (PutText(value.value) + rest);
      TakePutWord(1, 1, PutText(value.value) + rest);
      TakePutText(value.value, rest);
    }
  }

  lemma TakePutHeader(e: SignedExport, rest: seq<byte>)
    requires Encodable(e)
    ensures TakeHeader(Header(e) + rest)
         == Some((HeaderFields(e.schemaVersion, e.sequence, e.exportId, e.revision), rest))
  {
    WordSizes();
    var b4 := ToBytes(e.revision, 4) + rest;
    var b3 := PutText(e.exportId) + b4;
    var b2 := ToBytes(e.sequence, 8) + b3;
    Regroup(ToBytes(e.schemaVersion, 2), ToBytes(e.sequence, 8), PutText(e.exportId), ToBytes(e.revision, 4), rest);
    TakePutWord(e.schemaVersion, 2, b2);
    TakePutWord(e.sequence, 8, b3);
    TakePutText(e.exportId, b4);
    TakePutWord(e.revision, 4, rest);
  }

  lemma ParsePutBody(e: SignedExport)
    requires Encodable(e)
    ensures ParseBody(Body(e)) == Some(BodyFields(e.supersedes, e.tenantId, e.emittedAt, e.payloadSha256, e.payload))
  {
    WordSizes();
    var b4 := ToBytes(|e.payload|, 8) + e.payload;
    var b3 := e.payloadSha256 + b4;
    var b2 := ToBytes(e.emittedAt, 8) + b3;
    var b1 := PutText(e.tenantId) + b2;
    TakePutOptional(e.supersedes, b1);
    TakePutText(e.tenantId, b2);
    TakePutWord(e.emittedAt, 8, b3);
    TakeWhatWasPut(e.payloadSha256, b4);
    TakePutWord(|e.payload|, 8, e.payload);
  }

  /** The signed message is uniquely decodable: a parser recovers every signed field. */
  lemma ParseInvertsMessage(e: SignedExport)
    requires Encodable(e)
    ensures ParseMessage(Message(e)) == Some(FieldsOf(e))
  {
    TakeWhatWasPut(Utf8.Encode(DOMAIN_TEXT), Header(e) + Body(e));
    TakePutHeader(e, Body(e));
    ParsePutBody(e);
  }

  lemma MessageInjective(e1: SignedExport, e2: SignedExport)
    requires Encodable(e1) && Encodable(e2) && Message(e1) == Message(e2)
    ensures FieldsOf(e1) == FieldsOf(e2)
  {
    ParseInvertsMessage(e1);
    ParseInvertsMessage(e2);
  }

  /** Equal signed messages mean equal values of every signed field. */
  lemma SigningBytesInjective(sha256: seq<byte> -> Digest, e1: SignedExport, e2: SignedExport)
    requires SigningBytes(sha256, e1).Ok? && SigningBytes(sha256, e1) == SigningBytes(sha256, e2)
    ensures FieldsOf(e1) == FieldsOf(e2)
  {
    SignableIsEncodable(sha256, e1);
    SignableIsEncodable(sha256, e2);
    MessageInjective(e1, e2);
  }
}
