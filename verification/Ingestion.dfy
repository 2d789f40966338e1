/** One ingestion pass over the Piteka feed (indexer/src/ingest.rs). */
module Ingestion {
  import opened Words
  import opened Wrappers
  import opened Databases
  import opened Text
  import opened Records
  import opened Schema
  import opened ObservationSpec
  import opened ObservationStore
  import opened Connectors
  import opened PitekaFeeds
  import PitekaManifest

  const DISCOVERY_LIMIT: u32 := 64

  /** Operator-supplied configuration for one pass. */
  datatype IngestConfig = IngestConfig(
    endpoint: string, bearerToken: string, tenantId: string, sourceId: string, signingKeyId: string,
    verifyingKeyHex: string, retentionClassId: string, collectionRunId: string)

  datatype Summary = Summary(
    authenticated: nat, persisted: nat, duplicates: nat, skipped: nat, observationIds: seq<string>)

  const NOTHING: Summary := Summary(0, 0, 0, 0, [])

  /** Why a pass returns an error; `Unfinished` is a pass that has not returned yet, or was killed. */
  datatype Stop =
    | ConfigRejected
    | PrerequisiteFailed
    | DiscoverFailed
    | PayloadFailed
    | PersistFailed
    | CheckpointFailed
    | Unfinished

  /** The store and the summary, and what ended the pass, if anything did. */
  datatype State = State(tables: Tables, summary: Summary, stop: Option<Stop>)

  // ---- What the pass meets ----------------------------------------------------

  /** The database connection during one event: what becomes of the payload descriptor, after how many statements
      the append is lost, whether its commit is acknowledged, and whether a read afterwards is answered. */
  datatype Link = Link(payload: Reply, lostAfter: Option<nat>, acknowledged: bool, readUp: bool) {
    predicate Carries(r: ObservationRecord) {
      lostAfter.None? || StatementCount(r) <= lostAfter.value
    }
  }

  const STEADY: Link := Link(Answered, None, true, true)

  /** The connection during the first event of several, steady beyond the list. */
  function First(links: seq<Link>): Link {
    if links == [] then STEADY else links[0]
  }

  function Rest(links: seq<Link>): seq<Link> {
    if links == [] then [] else links[1..]
  }

  /** One turn of the drain loop: the server as it then answers, and the connection for each event. */
  datatype Turn = Turn(fetch: Transport, links: seq<Link>)

  /** What becomes of each of the three prerequisites. */
  datatype Uptime = Uptime(retentionClass: Reply, source: Reply, run: Reply)

  const ALWAYS: Uptime := Uptime(Answered, Answered, Answered)

  // ---- Configuration ------------------------------------------------------------

  /** `str::trim` */
  function TrimStart(text: string): string {
    if text != "" && IsWhitespace(text[0]) then TrimStart(text[1..]) else text
  }

  function TrimEnd(text: string): string {
    if text != "" && IsWhitespace(text[|text| - 1]) then TrimEnd(text[..|text| - 1]) else text
  }

  /** `parse_verifying_key` */
  function ParseKey(hexKey: string): Option<Digest> {
    match PitekaManifest.HexDecode(TrimEnd(TrimStart(hexKey)))
    case None => None
    case Some(bytes) => if |bytes| == 32 then Some(bytes) else None
  }

  /** The transport and the connector of a pass, or the rejection of its configuration. */
  function Configure(p: Primitives, c: IngestConfig): Result<Config, Stop> {
    var key := ParseKey(c.verifyingKeyHex);
    if key.None? then Err(ConfigRejected)
    else if !ConnectorText(c.endpoint) || !ConnectorText(c.bearerToken) then Err(ConfigRejected)
    else if || !ConnectorText(c.sourceId) || !ConnectorText(c.tenantId) || !ConnectorText(c.signingKeyId)
            || !ConnectorText(c.retentionClassId) || !ConnectorText(c.collectionRunId)
    then Err(ConfigRejected)
    else if !p.usableKey(key.value) then Err(ConfigRejected)
    else Ok(Config(c.sourceId, c.tenantId, c.signingKeyId, key.value, c.retentionClassId, c.collectionRunId))
  }

  // ---- One event ------------------------------------------------------------------

  /** `ignore_conflict`: errors whose text names a constraint count as success. */
  predicate Tolerated(error: StoreError) {
    error.Database? && (error.constraint.Unique? || error.constraint.CheckFailed? || error.constraint.ForeignKey?)
  }

  /** A registration whose conflicts are ignored. */
  function Registered(t: Tables, outcome: Outcome, stop: Stop): Result<Tables, Stop> {
    match outcome
    case Ok(t') => Ok(t')
    case Err(error) => if Tolerated(error) then Ok(t) else Err(stop)
  }

  function CursorFor(config: Config, r: ObservationRecord): SyncCursor {
    SyncCursor(1, config.sourceId, 1, ToBytes(r.observedAt, 8), r.observedAt)
  }

  /** A summary that counts one more persisted observation. */
  function OneMore(s: Summary, id: string): Summary {
    s.(persisted := s.persisted + 1, observationIds := s.observationIds + [id])
  }

  /** Stores an authenticated candidate: appended, found again, or the end of the pass. */
  function Persist(config: Config, t: Tables, s: Summary, r: ObservationRecord, link: Link := STEADY): State {
    var committed := Appendable(t, r, CursorFor(config, r)) && link.Carries(r);
    var t' := if committed then Appended(t, r, CursorFor(config, r)) else t;
    if committed && link.acknowledged then State(t', OneMore(s, r.observationId), None)
    else Refound(t', s, r.observationId, link.readUp)
  }

  function Refound(t: Tables, s: Summary, id: string, readUp: bool): State {
    if readUp && ReadObservation(t, id).Ok? then
      State(t, s.(duplicates := s.duplicates + 1, observationIds := s.observationIds + [id]), None)
    else State(t, s, Some(PersistFailed))
  }

  /** The tables with the candidate's payload descriptor. */
  function WithPayload(t: Tables, c: Candidate, reply: Reply := Answered): Result<Tables, Stop> {
    if c.rawPayload.None? then Ok(t)
    else Registered(t, Attempted(reply, RegisterPayload(t, c.rawPayload.value)), PayloadFailed)
  }

  /** The tables when that stops the pass. */
  function PayloadLeft(t: Tables, c: Candidate, reply: Reply): Tables {
    if c.rawPayload.None? then t else Left(reply, t, RegisterPayload(t, c.rawPayload.value))
  }

  /** An authenticated candidate: its payload descriptor first, then the observation. */
  function Keep(config: Config, t: Tables, s: Summary, c: Candidate, link: Link := STEADY): State {
    var counted := s.(authenticated := s.authenticated + 1);
    match WithPayload(t, c, link.payload)
    case Err(stop) => State(PayloadLeft(t, c, link.payload), counted, Some(stop))
    case Ok(t') => Persist(config, t', counted, c.observation, link)
  }

  /** One raw event of a batch. */
  function Process(p: Primitives, config: Config, t: Tables, s: Summary, raw: RawEvent, link: Link := STEADY): State {
    match Gate(PitekaConnector(p, config), raw, 1)
    case Err(_) => State(t, s.(skipped := s.skipped + 1), None)
    case Ok(c) => Keep(config, t, s, c, link)
  }

  function ProcessAll(p: Primitives, config: Config, t: Tables, s: Summary, raws: seq<RawEvent>, links: seq<Link> := [])
    : State
    decreases |raws|
  {
    if raws == [] then State(t, s, None) else
      var next := Process(p, config, t, s, raws[0], First(links));
      if next.stop.Some? then next
      else ProcessAll(p, config, next.tables, next.summary, raws[1..], Rest(links))
  }

  // ---- The pass -------------------------------------------------------------------

  /** How a turn of the drain loop ends: the pass returns, or the loop goes on from a new cursor. */
  datatype Onward = Returned(state: State) | Continues(tables: Tables, summary: Summary, cursor: ConnectorCursor)

  function TakeTurn(p: Primitives, config: Config, turn: Turn, limit: u32, t: Tables, s: Summary,
                    cursor: Option<ConnectorCursor>): Onward
  {
    TakeBatch(p, config, Discovered(p, config, turn.fetch, cursor, limit), turn.links, t, s)
  }

  /** What a turn makes of what it discovered. */
  function TakeBatch(p: Primitives, config: Config, discovered: Result<RawBatch, ConnectorError>, links: seq<Link>,
                     t: Tables, s: Summary): Onward
  {
    match discovered
    case Err(_) => Returned(State(t, s, Some(DiscoverFailed)))
    case Ok(batch) =>
      if batch.events == [] then Returned(State(t, s, None)) else
        var next := ProcessAll(p, config, t, s, batch.events, links);
        if next.stop.Some? then Returned(next) else
          match Checkpoint(batch)
          case Err(_) => Returned(next.(stop := Some(CheckpointFailed)))
          case Ok(checkpoint) => Continues(next.tables, next.summary, checkpoint)
  }

  /** The tables a turn leaves. */
  function TablesOf(o: Onward): Tables {
    if o.Returned? then o.state.tables else o.tables
  }

  /** The drain loop from a cursor on, turn by turn, against any server and connection. */
  function Drain(p: Primitives, config: Config, turns: seq<Turn>, limit: u32, t: Tables, s: Summary,
                 cursor: Option<ConnectorCursor>): State
    decreases |turns|
  {
    if turns == [] then State(t, s, Some(Unfinished)) else
      match TakeTurn(p, config, turns[0], limit, t, s, cursor)
      case Returned(state) => state
      case Continues(t', s', cursor') => Drain(p, config, turns[1..], limit, t', s', Some(cursor'))
  }

  function RetentionOf(config: Config): RetentionClass {
    RetentionClass(1, config.retentionClassId, "Tenant-scoped Piteka evidence export", None, true)
  }

  function SourceOf(config: Config): Source {
    Source(1, config.sourceId, "piteka-evidence-export", "Piteka evidence feed", config.retentionClassId)
  }

  function RunOf(config: Config, startedAt: u64): CollectionRun {
    CollectionRun(1, config.collectionRunId, config.sourceId, startedAt, None)
  }

  /** Retention class, source and collection run, in that order, conflicts ignored. */
  function Prepare(t: Tables, retention: RetentionClass, source: Source, run: CollectionRun,
                   uptime: Uptime := ALWAYS): State {
    var outcome := RegisterRetentionClass(t, retention);
    match Registered(t, Attempted(uptime.retentionClass, outcome), PrerequisiteFailed)
    case Err(stop) => State(Left(uptime.retentionClass, t, outcome), NOTHING, Some(stop))
    case Ok(t) =>
      var outcome := RegisterSource(t, source);
      match Registered(t, Attempted(uptime.source, outcome), PrerequisiteFailed)
      case Err(stop) => State(Left(uptime.source, t, outcome), NOTHING, Some(stop))
      case Ok(t) =>
        var outcome := RegisterRun(t, run);
        match Registered(t, Attempted(uptime.run, outcome), PrerequisiteFailed)
        case Err(stop) => State(Left(uptime.run, t, outcome), NOTHING, Some(stop))
        case Ok(t) => State(t, NOTHING, None)
  }

  function Pass(p: Primitives, config: Config, turns: seq<Turn>, t: Tables, startedAt: u64,
                uptime: Uptime := ALWAYS): State {
    var prepared := Prepare(t, RetentionOf(config), SourceOf(config), RunOf(config, startedAt), uptime);
    if prepared.stop.Some? then prepared
    else Drain(p, config, turns, DISCOVERY_LIMIT, prepared.tables, NOTHING, None)
  }

  /** `ingest_piteka` */
  function Ingest(p: Primitives, request: IngestConfig, turns: seq<Turn>, t: Tables, startedAt: u64,
                  uptime: Uptime): State {
    match Configure(p, request)
    case Err(stop) => State(t, NOTHING, Some(stop))
    case Ok(config) => Pass(p, config, turns, t, startedAt, uptime)
  }

  function IgnoreConflict(r: Result<(), StoreError>, stop: Stop): Result<(), Stop> {
    if r.Ok? || Tolerated(r.error) then Ok(()) else Err(stop)
  }

  /** What a registration whose conflicts are ignored leaves behind. */
  ghost predicate Settles(t: Tables, reply: Reply, outcome: Outcome, failure: Stop, t': Tables, stop: Option<Stop>) {
    if stop.None? then Registered(t, Attempted(reply, outcome), failure) == Ok(t')
    else && stop == Some(failure) && Registered(t, Attempted(reply, outcome), failure) == Err(failure)
         && t' == Left(reply, t, outcome)
  }

  /** Handles one raw event of a batch. */
  method ProcessEvent(repository: ObservationRepository, p: Primitives, config: Config, s: Summary, raw: RawEvent,
                      link: Link)
    returns (summary: Summary, stop: Option<Stop>)
    requires repository.Valid()
    modifies repository
    ensures repository.Valid()
    ensures State(repository.tables, summary, stop) == Process(p, config, old(repository.tables), s, raw, link)
  {
    var gated := AuthenticateAndNormalize(PitekaConnector(p, config), raw, 1);
    if gated.Err? {
      return s.(skipped := s.skipped + 1), None;
    }
    summary, stop := KeepCandidate(repository, config, s, gated.value, link);
  }

  method KeepCandidate(repository: ObservationRepository, config: Config, s: Summary, candidate: Candidate, link: Link)
    returns (summary: Summary, stop: Option<Stop>)
    requires repository.Valid()
    modifies repository
    ensures repository.Valid()
    ensures State(repository.tables, summary, stop) == Keep(config, old(repository.tables), s, candidate, link)
  {
    ghost var before := repository.tables;
    var counted := s.(authenticated := s.authenticated + 1);
    stop := KeepPayload(repository, candidate, link.payload);
    if stop.Some? {
      KeepCases(config, before, s, candidate, link);
      return counted, stop;
    }
    ghost var kept := repository.tables;
    summary, stop := PersistCandidate(repository, config, counted, candidate.observation, link);
    assert State(repository.tables, summary, stop) == Keep(config, before, s, candidate, link) by {
      KeepCases(config, before, s, candidate, link);
      assert WithPayload(before, candidate, link.payload) == Ok(kept);
    }
  }

  lemma KeepCases(config: Config, t: Tables, s: Summary, c: Candidate, link: Link)
    ensures var counted, kept := s.(authenticated := s.authenticated + 1), WithPayload(t, c, link.payload);
            && (kept.Err? ==>
                  Keep(config, t, s, c, link) == State(PayloadLeft(t, c, link.payload), counted, Some(kept.error)))
            && (kept.Ok? ==> Keep(config, t, s, c, link) == Persist(config, kept.value, counted, c.observation, link))
  {
  }

  method KeepPayload(repository: ObservationRepository, candidate: Candidate, reply: Reply)
    returns (stop: Option<Stop>)
    requires repository.Valid()
    modifies repository
    ensures repository.Valid()
    ensures if stop.None? then WithPayload(old(repository.tables), candidate, reply) == Ok(repository.tables)
            else WithPayload(old(repository.tables), candidate, reply) == Err(stop.value)
                 && repository.tables == PayloadLeft(old(repository.tables), candidate, reply)
  {
    stop := None;
    if candidate.rawPayload.Some? {
      stop := EnsurePayload(repository, candidate.rawPayload.value, reply);
    }
  }

  method EnsurePayload(repository: ObservationRepository, record: RawPayloadDescriptor, reply: Reply)
    returns (stop: Option<Stop>)
    requires repository.Valid()
    modifies repository
    ensures repository.Valid()
    ensures Settles(old(repository.tables), reply, RegisterPayload(old(repository.tables), record),
              PayloadFailed, repository.tables, stop)
  {
    var inserted := repository.InsertRawPayloadDescriptor(record, reply);
    stop := if IgnoreConflict(inserted, PayloadFailed).Ok? then None else Some(PayloadFailed);
  }

  method PersistCandidate(repository: ObservationRepository, config: Config, s: Summary, r: ObservationRecord,
                          link: Link)
    returns (summary: Summary, stop: Option<Stop>)
    requires repository.Valid()
    modifies repository
    ensures repository.Valid()
    ensures State(repository.tables, summary, stop) == Persist(config, old(repository.tables), s, r, link)
  {
    PersistCases(config, repository.tables, s, r, link);
    var statements := if link.lostAfter.None? then StatementCount(r) else link.lostAfter.value;
    var appended := repository.AppendObservation(r, CursorFor(config, r), statements, link.acknowledged);
    if appended.Ok? {
      return OneMore(s, r.observationId), None;
    }
    summary, stop := FindAgain(repository, s, r.observationId, link.readUp);
  }

  lemma PersistCases(config: Config, t: Tables, s: Summary, r: ObservationRecord, link: Link)
    ensures Persist(config, t, s, r, link) ==
            var c := CursorFor(config, r);
            if !Appendable(t, r, c) || !link.Carries(r) then Refound(t, s, r.observationId, link.readUp)
            else if link.acknowledged then State(Appended(t, r, c), OneMore(s, r.observationId), None)
            else Refound(Appended(t, r, c), s, r.observationId, link.readUp)
  {
  }

  /** An append that failed: the observation is there already, or the pass ends. */
  method FindAgain(repository: ObservationRepository, s: Summary, id: string, readUp: bool)
    returns (summary: Summary, stop: Option<Stop>)
    ensures State(repository.tables, summary, stop) == Refound(repository.tables, s, id, readUp)
  {
    if readUp && ReadObservation(repository.tables, id).Ok? {
      return s.(duplicates := s.duplicates + 1, observationIds := s.observationIds + [id]), None;
    }
    return s, Some(PersistFailed);
  }

  /** The inner loop over one batch. */
  method ProcessBatch(repository: ObservationRepository, p: Primitives, config: Config, s: Summary,
                      raws: seq<RawEvent>, links: seq<Link>)
    returns (summary: Summary, stop: Option<Stop>)
    requires repository.Valid()
    modifies repository
    ensures repository.Valid()
    ensures State(repository.tables, summary, stop) == ProcessAll(p, config, old(repository.tables), s, raws, links)
  {
    summary, stop := s, None;
    var left := links;
    for k := 0 to |raws|
      invariant repository.Valid() && stop.None?
      invariant ProcessAll(p, config, old(repository.tables), s, raws, links)
             == ProcessAll(p, config, repository.tables, summary, raws[k..], left)
    {
      assert raws[k..][0] == raws[k] && raws[k..][1..] == raws[k + 1..];
      summary, stop := ProcessEvent(repository, p, config, summary, raws[k], First(left));
      if stop.Some? {
        return;
      }
      left := Rest(left);
    }
  }

  /** The drain loop, for as many turns as it is given. */
  method DrainFeed(repository: ObservationRepository, p: Primitives, config: Config, turns: seq<Turn>)
    returns (summary: Summary, stop: Option<Stop>)
    requires repository.Valid()
    modifies repository
    ensures repository.Valid()
    ensures State(repository.tables, summary, stop)
         == Drain(p, config, turns, DISCOVERY_LIMIT, old(repository.tables), NOTHING, None)
  {
    summary, stop := NOTHING, None;
    var cursor: Option<ConnectorCursor> := None;
    for k := 0 to |turns|
      invariant repository.Valid() && stop.None?
      invariant Drain(p, config, turns, DISCOVERY_LIMIT, old(repository.tables), NOTHING, None)
             == Drain(p, config, turns[k..], DISCOVERY_LIMIT, repository.tables, summary, cursor)
    {
      assert turns[k..][0] == turns[k] && turns[k..][1..] == turns[k + 1..];
      var discovered := Discover(p, config, turns[k].fetch, cursor, DISCOVERY_LIMIT);
      if discovered.Err? {
        return summary, Some(DiscoverFailed);
      }
      var batch := discovered.value;
      if batch.events == [] {
        return;
      }
      summary, stop := ProcessBatch(repository, p, config, summary, batch.events, turns[k].links);
      if stop.Some? {
        return;
      }
      var checkpoint := Checkpoint(batch);
      if checkpoint.Err? {
        return summary, Some(CheckpointFailed);
      }
      cursor := Some(checkpoint.value);
    }
    return summary, Some(Unfinished);
  }

  method EnsureRetentionClass(repository: ObservationRepository, record: RetentionClass, reply: Reply)
    returns (stop: Option<Stop>)
    requires repository.Valid()
    modifies repository
    ensures repository.Valid()
    ensures Settles(old(repository.tables), reply, RegisterRetentionClass(old(repository.tables), record),
              PrerequisiteFailed, repository.tables, stop)
  {
    var inserted := repository.InsertRetentionClass(record, reply);
    stop := if IgnoreConflict(inserted, PrerequisiteFailed).Ok? then None else Some(PrerequisiteFailed);
  }

  method EnsureSource(repository: ObservationRepository, record: Source, reply: Reply) returns (stop: Option<Stop>)
    requires repository.Valid()
    modifies repository
    ensures repository.Valid()
    ensures Settles(old(repository.tables), reply, RegisterSource(old(repository.tables), record),
              PrerequisiteFailed, repository.tables, stop)
  {
    var inserted := repository.InsertSource(record, reply);
    stop := if IgnoreConflict(inserted, PrerequisiteFailed).Ok? then None else Some(PrerequisiteFailed);
  }

  method EnsureRun(repository: ObservationRepository, record: CollectionRun, reply: Reply) returns (stop: Option<Stop>)
    requires repository.Valid()
    modifies repository
    ensures repository.Valid()
    ensures Settles(old(repository.tables), reply, RegisterRun(old(repository.tables), record),
              PrerequisiteFailed, repository.tables, stop)
  {
    var inserted := repository.InsertCollectionRun(record, reply);
    stop := if IgnoreConflict(inserted, PrerequisiteFailed).Ok? then None else Some(PrerequisiteFailed);
  }

  method PreparePrerequisites(repository: ObservationRepository, retention: RetentionClass, source: Source,
                              run: CollectionRun, uptime: Uptime)
    returns (stop: Option<Stop>)
    requires repository.Valid()
    modifies repository
    ensures repository.Valid()
    ensures State(repository.tables, NOTHING, stop) == Prepare(old(repository.tables), retention, source, run, uptime)
  {
    stop := EnsureRetentionClass(repository, retention, uptime.retentionClass);
    if stop.None? {
      stop := EnsureSource(repository, source, uptime.source);
      if stop.None? {
        stop := EnsureRun(repository, run, uptime.run);
      }
    }
  }

  /** `ingest_piteka`, over a clock reading, the server's answers and the connection's. */
  method IngestPiteka(repository: ObservationRepository, p: Primitives, request: IngestConfig, turns: seq<Turn>,
                      startedAt: u64, uptime: Uptime)
    returns (summary: Summary, stop: Option<Stop>)
    requires repository.Valid()
    modifies repository
    ensures repository.Valid()
    ensures State(repository.tables, summary, stop)
            == Ingest(p, request, turns, old(repository.tables), startedAt, uptime)
  {
    summary := NOTHING;
    var configured := Configure(p, request);
    if configured.Err? {
      return summary, Some(configured.error);
    }
    var config := configured.value;
    stop := PreparePrerequisites(repository, RetentionOf(config), SourceOf(config), RunOf(config, startedAt), uptime);
    if stop.None? {
      summary, stop := DrainFeed(repository, p, config, turns);
    }
  }
}
