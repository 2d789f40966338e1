/** Only authentic observations are ever stored, against any server, connection, store and outcome. */
module IngestAuthenticity {
  import opened Words
  import opened Wrappers
  import opened Databases
  import opened Text
  import opened Records
  import opened Schema
  import opened Connectors
  import opened PitekaSigning
  import opened PitekaFeeds
  import opened PitekaPaging
  import PitekaManifest
  import opened Ingestion
  import opened IngestTheorems
  import opened IngestExact
  import opened IngestPasses

  /** The raw event passed the gate as the observation `id`. */
  ghost predicate Admitted(p: Primitives, config: Config, raw: RawEvent, id: string) {
    && Gate(PitekaConnector(p, config), raw, 1).Ok?
    && Gate(PitekaConnector(p, config), raw, 1).value.observation.observationId == id
  }

  lemma PersistAddsOne(config: Config, t: Tables, s: Summary, r: ObservationRecord, link: Link, id: string)
    requires id in Persist(config, t, s, r, link).tables.observations && id !in t.observations
    ensures id == r.observationId
  {
    PersistCases(config, t, s, r, link);
  }

  lemma PayloadAddsNone(t: Tables, c: Candidate, reply: Reply)
    ensures WithPayload(t, c, reply).Ok? ==> WithPayload(t, c, reply).value.observations == t.observations
    ensures PayloadLeft(t, c, reply).observations == t.observations
  {
  }

  lemma ProcessAdmits(p: Primitives, config: Config, t: Tables, s: Summary, raw: RawEvent, link: Link, id: string)
    requires id in Process(p, config, t, s, raw, link).tables.observations && id !in t.observations
    ensures Admitted(p, config, raw, id)
  {
    var c := Gate(PitekaConnector(p, config), raw, 1).value;
    ProcessKeeps(p, config, t, s, raw, c, link);
    PayloadAddsNone(t, c, link.payload);
    var counted := s.(authenticated := s.authenticated + 1);
    PersistAddsOne(config, WithPayload(t, c, link.payload).value, counted, c.observation,
                   link, id);
  }

  lemma {:induction false} ProcessAllAdmits(p: Primitives, config: Config, t: Tables, s: Summary, raws: seq<RawEvent>,
                                            links: seq<Link>, id: string) returns (raw: RawEvent)
    requires id in ProcessAll(p, config, t, s, raws, links).tables.observations && id !in t.observations
    ensures raw in raws && Admitted(p, config, raw, id)
    decreases |raws|
  {
    var next := Process(p, config, t, s, raws[0], First(links));
    if id in next.tables.observations {
      ProcessAdmits(p, config, t, s, raws[0], First(links), id);
      raw := raws[0];
    } else {
      raw := ProcessAllAdmits(p, config, next.tables, next.summary, raws[1..], Rest(links), id);
    }
  }

  lemma BatchAdmits(p: Primitives, config: Config, discovered: Result<RawBatch, ConnectorError>, links: seq<Link>,
                    t: Tables, s: Summary, id: string) returns (raw: RawEvent)
    requires id in TablesOf(TakeBatch(p, config, discovered, links, t, s)).observations && id !in t.observations
    ensures discovered.Ok? && raw in discovered.value.events && Admitted(p, config, raw, id)
  {
    raw := ProcessAllAdmits(p, config, t, s, discovered.value.events, links, id);
  }

  lemma TurnAdmits(p: Primitives, config: Config, turn: Turn, limit: u32, t: Tables, s: Summary,
                   cursor: Option<ConnectorCursor>, id: string) returns (raw: RawEvent)
    requires id in TablesOf(TakeTurn(p, config, turn, limit, t, s, cursor)).observations && id !in t.observations
    ensures Discovered(p, config, turn.fetch, cursor, limit).Ok?
    ensures raw in Discovered(p, config, turn.fetch, cursor, limit).value.events && Admitted(p, config, raw, id)
  {
    raw := BatchAdmits(p, config, Discovered(p, config, turn.fetch, cursor, limit), turn.links, t, s, id);
  }

  /** The turns that a drain takes, each with the cursor it asks from. */
  function Asked(p: Primitives, config: Config, turns: seq<Turn>, limit: u32, t: Tables, s: Summary,
                 cursor: Option<ConnectorCursor>): (r: seq<(Turn, Option<ConnectorCursor>)>)
    ensures forall i :: 0 <= i < |r| ==> r[i].0 in turns
    decreases |turns|
  {
    if turns == [] then [] else
      var o := TakeTurn(p, config, turns[0], limit, t, s, cursor);
      [(turns[0], cursor)]
      + if o.Returned? then [] else Asked(p, config, turns[1..], limit, o.tables, o.summary, Some(o.cursor))
  }

  /** One of these requests was answered with the raw event. */
  ghost predicate Delivered(p: Primitives, config: Config, asked: seq<(Turn, Option<ConnectorCursor>)>, limit: u32,
                            raw: RawEvent)
  {
    exists i :: 0 <= i < |asked| && Answers(p, config, asked[i], limit, raw)
  }

  ghost predicate Answers(p: Primitives, config: Config, request: (Turn, Option<ConnectorCursor>), limit: u32,
                          raw: RawEvent)
  {
    && Discovered(p, config, request.0.fetch, request.1, limit).Ok?
    && raw in Discovered(p, config, request.0.fetch, request.1, limit).value.events
  }

  lemma {:induction false} DrainAdmits(p: Primitives, config: Config, turns: seq<Turn>, limit: u32, t: Tables,
                                       s: Summary, cursor: Option<ConnectorCursor>, id: string) returns (raw: RawEvent)
    requires id in Drain(p, config, turns, limit, t, s, cursor).tables.observations && id !in t.observations
    ensures Delivered(p, config, Asked(p, config, turns, limit, t, s, cursor), limit, raw)
    ensures Admitted(p, config, raw, id)
    decreases |turns|
  {
    var asked := Asked(p, config, turns, limit, t, s, cursor);
    var o := TakeTurn(p, config, turns[0], limit, t, s, cursor);
    if id in TablesOf(o).observations {
      raw := TurnAdmits(p, config, turns[0], limit, t, s, cursor, id);
      assert Answers(p, config, asked[0], limit, raw);
    } else {
      raw := DrainAdmits(p, config, turns[1..], limit, o.tables, o.summary, Some(o.cursor), id);
      var later := Asked(p, config, turns[1..], limit, o.tables, o.summary, Some(o.cursor));
      var i :| 0 <= i < |later| && Answers(p, config, later[i], limit, raw);
      assert asked[i + 1] == later[i];
    }
  }

  lemma AdmittedIsAuthentic(p: Primitives, config: Config, raw: RawEvent, id: string)
    requires Admitted(p, config, raw, id)
    ensures p.deserialize(raw.bytes).Some?
    ensures Authentic(p, config, p.deserialize(raw.bytes).value) && ObservationId(p.deserialize(raw.bytes).value) == id
  {
    GatedExportsAreAuthentic(p, config, raw);
  }

  /** Whatever the server answers, the connection does, the store holds and the pass comes to: an observation
      that a pass adds was delivered, as the answer to one of its own requests, as bytes that decode to an export
      of that id, signed by the configured key for the configured tenant. */
  lemma PassStoresOnlyAuthentic(p: Primitives, config: Config, turns: seq<Turn>, t: Tables, startedAt: u64,
                                uptime: Uptime, id: string) returns (raw: RawEvent)
    requires id in Pass(p, config, turns, t, startedAt, uptime).tables.observations && id !in t.observations
    ensures var prepared := Prepare(t, RetentionOf(config), SourceOf(config), RunOf(config, startedAt), uptime);
            Delivered(p, config, Asked(p, config, turns, DISCOVERY_LIMIT, prepared.tables, NOTHING, None),
                      DISCOVERY_LIMIT, raw)
    ensures p.deserialize(raw.bytes).Some?
    ensures Authentic(p, config, p.deserialize(raw.bytes).value) && ObservationId(p.deserialize(raw.bytes).value) == id
  {
    var prepared := Prepare(t, RetentionOf(config), SourceOf(config), RunOf(config, startedAt), uptime);
    PreparedRegisters(t, RetentionOf(config), SourceOf(config), RunOf(config, startedAt), uptime);
    raw := DrainAdmits(p, config, turns, DISCOVERY_LIMIT, prepared.tables, NOTHING, None, id);
    AdmittedIsAuthentic(p, config, raw, id);
  }

  lemma {:induction false} AfterFromFeed(feed: seq<SignedExport>, n: u64)
    ensures forall e :: e in After(feed, n) ==> e in feed
  {
    if feed != [] { AfterFromFeed(feed[1..], n); }
  }

  /** The events of an honest server's batch wrap exports of the feed. */
  lemma BatchFromFeed(p: Primitives, config: Config, feed: seq<SignedExport>, cursor: Option<ConnectorCursor>,
                      limit: u32, raw: RawEvent) returns (e: SignedExport)
    requires Discovered(p, config, Serve(feed), cursor, limit).Ok?
    requires raw in Discovered(p, config, Serve(feed), cursor, limit).value.events
    ensures e in feed && raw == RawOf(p, config, e)
  {
    var after := DecodeCursor(cursor, config.sourceId).value;
    var exports := PageAfter(feed, after, limit).exports;
    AfterFromFeed(feed, after);
    assert Discovered(p, config, Serve(feed), cursor, limit).value.events == RawsOf(p, config, exports);
    var i :| 0 <= i < |exports| && RawsOf(p, config, exports)[i] == raw;
    e := exports[i];
    assert e in After(feed, after);
  }

  lemma WrappedIsAuthentic(p: Primitives, config: Config, e: SignedExport, id: string)
    requires Restores(p, e) && Admitted(p, config, RawOf(p, config, e), id)
    ensures Authentic(p, config, e) && ObservationId(e) == id
  {
    AdmittedIsAuthentic(p, config, RawOf(p, config, e), id);
  }

  /** From an honest server, the observation is one of the feed's own authentic exports, however malformed
      the feed. */
  lemma HonestPassStoresTheFeed(p: Primitives, config: Config, feed: seq<SignedExport>, t: Tables, startedAt: u64,
                                id: string)
    returns (e: SignedExport)
    requires RoundTrips(p, feed)
    requires id in SteadyPass(p, config, feed, t, startedAt).tables.observations && id !in t.observations
    ensures e in feed && Authentic(p, config, e) && ObservationId(e) == id
  {
    var turns, prepared := Honest(feed, |feed| + 1), Prepared(config, t, startedAt);
    PreparedRegisters(t, RetentionOf(config), SourceOf(config), RunOf(config, startedAt), ALWAYS);
    var raw := DrainAdmits(p, config, turns, DISCOVERY_LIMIT, prepared.tables, NOTHING, None, id);
    var asked := Asked(p, config, turns, DISCOVERY_LIMIT, prepared.tables, NOTHING, None);
    var k :| 0 <= k < |asked| && Answers(p, config, asked[k], DISCOVERY_LIMIT, raw);
    assert asked[k].0.fetch == Serve(feed);
    e := BatchFromFeed(p, config, feed, asked[k].1, DISCOVERY_LIMIT, raw);
    var i :| 0 <= i < |feed| && feed[i] == e;
    assert Restores(p, feed[i]);
    WrappedIsAuthentic(p, config, e, id);
  }

  // ---- The configured key ---------------------------------------------------

  predicate Printed(text: string) {
    forall i :: 0 <= i < |text| ==> !IsWhitespace(text[i])
  }

  lemma {:induction false} HexIsPrinted(bytes: seq<byte>)
    ensures |Hex(bytes)| == 2 * |bytes| && Printed(Hex(bytes))
  {
    if bytes != [] { HexIsPrinted(bytes[1..]); }
  }

  lemma {:induction false} TrimStartDrops(before: string, text: string)
    requires Blank(before) && (text == "" || !IsWhitespace(text[0]))
    ensures TrimStart(before + text) == text
  {
    if before == "" {
      assert before + text == text;
    } else {
      assert (before + text)[1..] == before[1..] + text;
      TrimStartDrops(before[1..], text);
    }
  }

  lemma {:induction false} TrimEndDrops(text: string, after: string)
    requires Blank(after) && (text == "" || !IsWhitespace(text[|text| - 1]))
    ensures TrimEnd(text + after) == text
  {
    if after == "" {
      assert text + after == text;
    } else {
      var n := |after| - 1;
      assert (text + after)[..|text| + n] == text + after[..n];
      TrimEndDrops(text, after[..n]);
    }
  }

  /** The key that a pass verifies with is the one whose hexadecimal form is configured, blanks around it or not. */
  lemma KeyIsRead(key: Digest, before: string, after: string)
    requires Blank(before) && Blank(after)
    ensures ParseKey(before + Hex(key) + after) == Some(key)
  {
    var hex := Hex(key);
    HexIsPrinted(key);
    assert before + hex + after == before + (hex + after);
    TrimStartDrops(before, hex + after);
    TrimEndDrops(hex, after);
    PitekaManifest.HexRoundTrips(key);
  }
}
