/** Passes that the connection, the server or the operator cuts short, and passes whose run is lost. */
module IngestInterruptions {
  import opened Words
  import opened Wrappers
  import opened Databases
  import opened Records
  import opened Schema
  import opened ObservationSpec
  import opened ObservationInvariant
  import opened TenantReads
  import opened Connectors
  import opened PitekaSigning
  import opened PitekaFeeds
  import opened PitekaPaging
  import opened Ingestion
  import opened IngestTheorems
  import opened IngestExact
  import opened IngestPasses

  // ---- Turns in general -----------------------------------------------------------

  /** Each turn keeps what is good of the tables and the cursor, as long as the loop goes on, and leaves
      the tables settled. */
  ghost predicate TurnsKeep(p: Primitives, config: Config, turns: seq<Turn>, limit: u32, good: (Tables,
                            Option<ConnectorCursor>) -> bool, settled: Tables -> bool) {
    forall turn, t, s, cursor :: turn in turns && good(t, cursor) ==>
      var o := TakeTurn(p, config, turn, limit, t, s, cursor);
      settled(TablesOf(o)) && (o.Continues? ==> good(o.tables, Some(o.cursor)))
  }

  lemma {:induction false} DrainKeeps(p: Primitives, config: Config, turns: seq<Turn>, limit: u32, t: Tables,
                                      s: Summary, cursor: Option<ConnectorCursor>, good: (Tables,
                                      Option<ConnectorCursor>) -> bool, settled: Tables -> bool)
    requires TurnsKeep(p, config, turns, limit, good, settled) && good(t, cursor) && settled(t)
    ensures settled(Drain(p, config, turns, limit, t, s, cursor).tables)
    decreases |turns|
  {
    if turns != [] {
      assert turns[0] in turns;
      var o := TakeTurn(p, config, turns[0], limit, t, s, cursor);
      assert settled(TablesOf(o)) && (o.Continues? ==> good(o.tables, Some(o.cursor)));
      if o.Continues? {
        DrainKeeps(p, config, turns[1..], limit, o.tables, o.summary, Some(o.cursor), good, settled);
      }
    }
  }

  // ---- Interrupted passes -----------------------------------------------------------

  /** A server of the immutable feed that answers honestly or not at all. */
  ghost predicate Faithful(turn: Turn, feed: seq<SignedExport>) {
    forall after, limit :: turn.fetch(after, limit) == Serve(feed)(after, limit) || turn.fetch(after, limit).Err?
  }

  /** The store mirrors some m exports from n on, none of them stuck, and the loop stands at c of them. */
  ghost predicate Underway(p: Primitives, config: Config, feed: seq<SignedExport>, n: nat, t: Tables,
                           cursor: Option<ConnectorCursor>, m: nat, c: u64) {
    n <= m && c <= m && Mirroring(p, config, feed, n)(t, m) && cursor == CursorAt(config, c)
  }

  lemma FaithfulDiscovery(p: Primitives, config: Config, feed: seq<SignedExport>, turn: Turn, limit: u32, c: u64)
    requires WellFormedFeed(p, config, feed) && c <= |feed| && 0 < limit <= MAX_DISCOVERY_LIMIT && Faithful(turn, feed)
    ensures var d, m := Discovered(p, config, turn.fetch, CursorAt(config, c), limit), PageEnd(c, limit, |feed|);
            m <= U64_MAX && (d.Err? || d == Ok(BatchOf(p, config, feed, c, m)))
  {
    DiscoverSlice(p, config, feed, c, limit);
    if c > 0 { CursorRoundTrips(config.sourceId, c); }
    assert turn.fetch(c, limit) == Serve(feed)(c, limit) || turn.fetch(c, limit).Err?;
  }

  lemma InterruptedBatch(p: Primitives, config: Config, feed: seq<SignedExport>, n: nat, discovered: Result<RawBatch,
                         ConnectorError>, limit: u32, links: seq<Link>, t: Tables, s: Summary, m: nat, c: u64)
    returns (reached: nat, next: u64)
    requires RoundTrips(p, feed) && WellFormedFeed(p, config, feed) && 0 < limit <= MAX_DISCOVERY_LIMIT
    requires Underway(p, config, feed, n, t, CursorAt(config, c), m, c) && m <= |feed|
    requires var end := PageEnd(c, limit, |feed|);
             end <= U64_MAX && (discovered.Err? || discovered == Ok(BatchOf(p, config, feed, c, end)))
    ensures var o := TakeBatch(p, config, discovered, links, t, s);
            && m <= reached && Mirroring(p, config, feed, n)(TablesOf(o), reached)
            && (o.Continues? ==> Underway(p, config, feed, n, o.tables, Some(o.cursor), reached, next))
  {
    reached, next := m, c;
    if discovered.Ok? && discovered.value.events != [] {
      next := PageEnd(c, limit, |feed|);
      SlicesPass(p, config, feed, c, next, limit);
      reached := InterruptedStretch(p, config, feed, n, t, s, m, c, next, links);
    }
  }

  /** One turn, whatever becomes of its connection and its server. */
  lemma InterruptedTurn(p: Primitives, config: Config, feed: seq<SignedExport>, n: nat, turn: Turn, limit: u32,
                        t: Tables, s: Summary, cursor: Option<ConnectorCursor>, m: nat, c: u64)
    returns (reached: nat, next: u64)
    requires RoundTrips(p, feed) && WellFormedFeed(p, config, feed) && 0 < limit <= MAX_DISCOVERY_LIMIT
             && Faithful(turn, feed)
    requires Underway(p, config, feed, n, t, cursor, m, c)
    ensures var o := TakeTurn(p, config, turn, limit, t, s, cursor);
            && m <= reached && Mirroring(p, config, feed, n)(TablesOf(o), reached)
            && (o.Continues? ==> Underway(p, config, feed, n, o.tables, Some(o.cursor), reached, next))
  {
    FaithfulDiscovery(p, config, feed, turn, limit, c);
    reached, next := InterruptedBatch(p, config, feed, n, Discovered(p, config, turn.fetch, cursor, limit), limit,
                                      turn.links, t, s, m, c);
  }

  /** A store that mirrors the feed from n on as far as some export, none of the way stuck. */
  ghost predicate Grown(p: Primitives, config: Config, feed: seq<SignedExport>, n: nat, t: Tables) {
    exists m :: n <= m && Mirroring(p, config, feed, n)(t, m)
  }

  lemma InterruptedDrain(p: Primitives, config: Config, feed: seq<SignedExport>, n: nat, turns: seq<Turn>, t: Tables,
                         s: Summary)
    requires RoundTrips(p, feed) && WellFormedFeed(p, config, feed)
             && (forall turn :: turn in turns ==> Faithful(turn, feed))
    requires Mirroring(p, config, feed, n)(t, n)
    ensures Grown(p, config, feed, n, Drain(p, config, turns, DISCOVERY_LIMIT, t, s, None).tables)
  {
    var good := (t: Tables, cursor: Option<ConnectorCursor>) =>
        exists m: nat, c: u64 :: Underway(p, config, feed, n, t, cursor, m, c);
    var settled := (t: Tables) => Grown(p, config, feed, n, t);
    forall turn, t, s, cursor | turn in turns && good(t, cursor)
      ensures var o := TakeTurn(p, config, turn, DISCOVERY_LIMIT, t, s, cursor);
              settled(TablesOf(o)) && (o.Continues? ==> good(o.tables, Some(o.cursor)))
    {
      var m: nat, c: u64 :| Underway(p, config, feed, n, t, cursor, m, c);
      var reached, next := InterruptedTurn(p, config, feed, n, turn, DISCOVERY_LIMIT, t, s, cursor, m, c);
    }
    assert Underway(p, config, feed, n, t, None, n, 0);
    DrainKeeps(p, config, turns, DISCOVERY_LIMIT, t, s, None, good, settled);
  }

  lemma UptimeOnlyStops(t: Tables, retention: RetentionClass, source: Source, run: CollectionRun, uptime: Uptime)
    requires Prepare(t, retention, source, run, uptime).stop.None?
    ensures Prepare(t, retention, source, run, uptime) == Prepare(t, retention, source, run)
  {
  }

  /** Registrations leave a store where it stands. */
  lemma StandsRegistered(v: View, t: Tables, t': Tables, n: nat)
    requires StoreAt(v, t, n) && Registers(t, t') && t'.hints == t.hints
    ensures StoreAt(v, t', n)
  {
    PrerequisiteKeepsInv(t, t');
    if Mirrors(v, t, n) {
      RegisteredMirrors(v, t, t', n);
    } else {
      assert OfSource(t', v.config.sourceId) == OfSource(t, v.config.sourceId);
    }
  }

  // ---- Passes whose run is lost -------------------------------------------------------

  /** The run is not registered, and the evidence is what it was. */
  ghost predicate Runless(before: Tables, config: Config, t: Tables) {
    Inv(t) && config.collectionRunId !in t.runs && SameEvidence(before, t)
  }

  lemma NoRunNoAppend(t: Tables, r: ObservationRecord, c: SyncCursor)
    requires r.collectionRunId !in t.runs
    ensures !Appendable(t, r, c)
  {
  }

  lemma StoredIffRead(t: Tables, id: string)
    requires Inv(t)
    ensures ReadObservation(t, id).Ok? <==> id in t.observations
  {
    if id in t.observations {
      assert RowSound(t, id);
      SoundRowDecodes(t, id, ChildrenOf(t.subjects, id), ChildrenOf(t.authenticityRefs, id), "");
    }
  }

  lemma RunlessRegistration(before: Tables, config: Config, t: Tables, t': Tables)
    requires Runless(before, config, t) && Registers(t, t') && Inv(t') && t'.runs == t.runs
    ensures Runless(before, config, t')
  {
  }

  lemma RunlessPayload(before: Tables, config: Config, t: Tables, c: Candidate, reply: Reply)
    requires Runless(before, config, t)
    ensures WithPayload(t, c, reply).Ok? ==> Runless(before, config, WithPayload(t, c, reply).value)
    ensures Runless(before, config, PayloadLeft(t, c, reply))
  {
    if c.rawPayload.Some? {
      var outcome := RegisterPayload(t, c.rawPayload.value);
      PayloadOnlyRegisters(t, c.rawPayload.value);
      PayloadKeepsRunTable(t, c.rawPayload.value);
      LeftKeepsInv(t, reply, outcome);
      RunlessRegistration(before, config, t, Left(reply, t, outcome));
      PayloadCases(t, c, reply);
    }
  }

  lemma PayloadCases(t: Tables, c: Candidate, reply: Reply)
    ensures WithPayload(t, c, reply).Ok? ==> WithPayload(t, c, reply).value in {t, PayloadLeft(t, c, reply)}
  {
  }

  lemma PayloadKeepsRunTable(t: Tables, r: RawPayloadDescriptor)
    ensures RegisterPayload(t, r).Ok? ==> RegisterPayload(t, r).value.runs == t.runs
  {
  }

  lemma RunlessPersist(before: Tables, config: Config, t: Tables, s: Summary, r: ObservationRecord, link: Link)
    requires Runless(before, config, t) && r.collectionRunId == config.collectionRunId
    ensures var out := Persist(config, t, s, r, link);
            && out.tables == t && out.summary.persisted == s.persisted
            && out.stop == if link.readUp && r.observationId in before.observations then None else Some(PersistFailed)
  {
    NoRunNoAppend(t, r, CursorFor(config, r));
    PersistCases(config, t, s, r, link);
    StoredIffRead(t, r.observationId);
  }

  lemma GatedRun(p: Primitives, config: Config, raw: RawEvent)
    requires Gate(PitekaConnector(p, config), raw, 1).Ok?
    ensures Gate(PitekaConnector(p, config), raw, 1).value.observation.collectionRunId == config.collectionRunId
  {
    GatedExportsAreAuthentic(p, config, raw);
  }

  /** Without the run no event is appended: it is skipped, found again, or ends the pass. */
  lemma RunlessProcess(p: Primitives, config: Config, before: Tables, t: Tables, s: Summary, raw: RawEvent, link: Link)
    requires Runless(before, config, t)
    ensures var out := Process(p, config, t, s, raw, link);
            Runless(before, config, out.tables) && out.summary.persisted == s.persisted
  {
    if Gate(PitekaConnector(p, config), raw, 1).Ok? {
      var c := Gate(PitekaConnector(p, config), raw, 1).value;
      var counted := s.(authenticated := s.authenticated + 1);
      GatedRun(p, config, raw);
      ProcessKeeps(p, config, t, s, raw, c, link);
      RunlessPayload(before, config, t, c, link.payload);
      if WithPayload(t, c, link.payload).Ok? {
        RunlessPersist(before, config, WithPayload(t, c, link.payload).value, counted, c.observation, link);
      }
    }
  }

  lemma {:induction false} RunlessProcessAll(p: Primitives, config: Config, before: Tables, t: Tables, s: Summary,
                                             raws: seq<RawEvent>, links: seq<Link>)
    requires Runless(before, config, t)
    ensures Runless(before, config, ProcessAll(p, config, t, s, raws, links).tables)
    decreases |raws|
  {
    if raws != [] {
      RunlessProcess(p, config, before, t, s, raws[0], First(links));
      var next := Process(p, config, t, s, raws[0], First(links));
      if next.stop.None? { RunlessProcessAll(p, config, before, next.tables, next.summary, raws[1..], Rest(links)); }
    }
  }

  lemma RunlessBatch(p: Primitives, config: Config, before: Tables, discovered: Result<RawBatch, ConnectorError>,
                     links: seq<Link>, t: Tables, s: Summary)
    requires Runless(before, config, t)
    ensures Runless(before, config, TablesOf(TakeBatch(p, config, discovered, links, t, s)))
  {
    if discovered.Ok? { RunlessProcessAll(p, config, before, t, s, discovered.value.events, links); }
  }

  lemma RunlessTurn(p: Primitives, config: Config, before: Tables, turn: Turn, limit: u32, t: Tables, s: Summary,
                    cursor: Option<ConnectorCursor>)
    requires Runless(before, config, t)
    ensures Runless(before, config, TablesOf(TakeTurn(p, config, turn, limit, t, s, cursor)))
  {
    RunlessBatch(p, config, before, Discovered(p, config, turn.fetch, cursor, limit), turn.links, t, s);
  }

  lemma RunlessDrain(p: Primitives, config: Config, before: Tables, turns: seq<Turn>, t: Tables, s: Summary)
    requires Runless(before, config, t)
    ensures Runless(before, config, Drain(p, config, turns, DISCOVERY_LIMIT, t, s, None).tables)
  {
    var good := (t: Tables, cursor: Option<ConnectorCursor>) => Runless(before, config, t);
    var settled := (t: Tables) => Runless(before, config, t);
    forall turn, t, s, cursor | turn in turns && good(t, cursor)
      ensures var o := TakeTurn(p, config, turn, DISCOVERY_LIMIT, t, s, cursor);
              settled(TablesOf(o)) && (o.Continues? ==> good(o.tables, Some(o.cursor)))
    {
      RunlessTurn(p, config, before, turn, DISCOVERY_LIMIT, t, s, cursor);
    }
    DrainKeeps(p, config, turns, DISCOVERY_LIMIT, t, s, None, good, settled);
  }

  lemma RunsKept(t: Tables, retention: RetentionClass, source: Source)
    ensures RegisterRetentionClass(t, retention).Ok? ==> RegisterRetentionClass(t, retention).value.runs == t.runs
    ensures RegisterSource(t, source).Ok? ==> RegisterSource(t, source).value.runs == t.runs
  {
  }

  lemma RunRefusedAtZero(t: Tables, run: CollectionRun)
    requires run.startedAt == 0
    ensures RegisterRun(t, run).Err?
  {
  }

  lemma RunRefused(t: Tables, retention: RetentionClass, source: Source, run: CollectionRun, uptime: Uptime)
    requires run.startedAt == 0
    ensures Prepare(t, retention, source, run, uptime).tables.runs == t.runs
  {
    RunsKept(t, retention, source);
    var first := RegisterRetentionClass(t, retention);
    var t1 := Registered(t, Attempted(uptime.retentionClass, first), PrerequisiteFailed);
    if t1.Ok? {
      RunsKept(t1.value, retention, source);
      var t2 := Registered(t1.value, Attempted(uptime.source, RegisterSource(t1.value, source)), PrerequisiteFailed);
      if t2.Ok? { RunRefusedAtZero(t2.value, run); }
    }
  }

  lemma PreparedRunless(config: Config, t: Tables, uptime: Uptime)
    requires Inv(t) && config.collectionRunId !in t.runs
    ensures Runless(t, config, Prepare(t, RetentionOf(config), SourceOf(config), RunOf(config, 0), uptime).tables)
  {
    var retention, source, run := RetentionOf(config), SourceOf(config), RunOf(config, 0);
    PreparedRegisters(t, retention, source, run, uptime);
    PrerequisiteKeepsInv(t, Prepare(t, retention, source, run, uptime).tables);
    RunRefused(t, retention, source, run, uptime);
  }

  /** A clock reading of 0 loses a run that was not registered before, and without its run a pass stores no
      evidence at all, against any server and connection. */
  lemma NothingStoredWithoutRun(p: Primitives, config: Config, turns: seq<Turn>, t: Tables, uptime: Uptime)
    requires Inv(t) && config.collectionRunId !in t.runs
    ensures Runless(t, config, Pass(p, config, turns, t, 0, uptime).tables)
  {
    PreparedRunless(config, t, uptime);
    var prepared := Prepare(t, RetentionOf(config), SourceOf(config), RunOf(config, 0), uptime);
    RunlessDrain(p, config, t, turns, prepared.tables, NOTHING);
  }

  lemma RunlessExport(p: Primitives, config: Config, feed: seq<SignedExport>, before: Tables, t: Tables, s: Summary,
                      i: nat)
    requires i < |feed| && Restores(p, feed[i]) && Runless(before, config, t)
    ensures var out := Process(p, config, t, s, RawOf(p, config, feed[i]));
            && Runless(before, config, out.tables)
            && out.stop == if Accepted(p, config, feed[i]) && ObservationId(feed[i]) !in before.observations
                           then Some(PersistFailed) else None
  {
    var raw := RawOf(p, config, feed[i]);
    RunlessProcess(p, config, before, t, s, raw, STEADY);
    if Accepted(p, config, feed[i]) {
      var c := Gate(PitekaConnector(p, config), raw, 1).value;
      ObservationFacts(p, config, feed[i]);
      GatedRun(p, config, raw);
      ProcessKeeps(p, config, t, s, raw, c, STEADY);
      PayloadNeverStops(p, config, t, raw, c);
      RunlessPayload(before, config, t, c, Answered);
      var counted := s.(authenticated := s.authenticated + 1);
      RunlessPersist(before, config, WithPayload(t, c).value, counted, c.observation, STEADY);
    }
  }

  /** The accepted exports from i on are all stored. */
  ghost predicate AllStored(p: Primitives, config: Config, feed: seq<SignedExport>, t: Tables, i: nat) {
    forall j :: i <= j < |feed| && Accepted(p, config, feed[j]) ==> ObservationId(feed[j]) in t.observations
  }

  lemma {:induction false} RunlessFeed(p: Primitives, config: Config, feed: seq<SignedExport>, before: Tables,
                                       t: Tables, s: Summary, i: nat)
    requires i <= |feed| && RoundTrips(p, feed) && Runless(before, config, t)
    ensures var out := ProcessAll(p, config, t, s, RawsOf(p, config, feed[i..]));
            out.stop == if AllStored(p, config, feed, before, i) then None else Some(PersistFailed)
    decreases |feed| - i
  {
    if i == |feed| {
      assert RawsOf(p, config, feed[i..]) == [];
    } else {
      assert Restores(p, feed[i]);
      ProcessTurn(p, config, feed, t, s, i);
      RunlessExport(p, config, feed, before, t, s, i);
      var next := Process(p, config, t, s, RawOf(p, config, feed[i]));
      if next.stop.None? {
        RunlessFeed(p, config, feed, before, next.tables, next.summary, i + 1);
        assert AllStored(p, config, feed, before, i) <==> AllStored(p, config, feed, before, i + 1);
      }
    }
  }

  /** The rest of the story for a clock reading of 0: a pass whose run is lost ends with an error at the first
      accepted export that is not stored, and returns Ok exactly if there is none. */
  lemma PassWithoutRun(p: Primitives, config: Config, feed: seq<SignedExport>, t: Tables)
    requires RoundTrips(p, feed) && WellFormedFeed(p, config, feed)
    requires Inv(t) && Startable(config, 0) && !RunReady(config, t, 0)
    ensures var out := SteadyPass(p, config, feed, t, 0);
            && SameEvidence(t, out.tables)
            && out.stop == if AllStored(p, config, feed, t, 0) then None else Some(PersistFailed)
  {
    NothingStoredWithoutRun(p, config, Honest(feed, |feed| + 1), t, ALWAYS);
    PreparedRunless(config, t, ALWAYS);
    PassProcesses(p, config, feed, t, 0);
    RunlessFeed(p, config, feed, t, Prepared(config, t, 0).tables, NOTHING, 0);
  }

  // ---- Interrupted histories ------------------------------------------------------------

  lemma UntouchedStays(v: View, t: Tables, t': Tables)
    requires StoreAt(v, t, 0) && !Mirrors(v, t, 0) && Inv(t') && SameEvidence(t, t')
    ensures StoreAt(v, t', 0)
  {
    assert OfSource(t', v.config.sourceId) == OfSource(t, v.config.sourceId);
  }

  lemma ReadyPass(p: Primitives, config: Config, feed: seq<SignedExport>, turns: seq<Turn>, t: Tables, ready: Tables,
                  n: nat)
    returns (m: nat)
    requires RoundTrips(p, feed) && WellFormedFeed(p, config, feed)
             && (forall turn :: turn in turns ==> Faithful(turn, feed))
    requires StoreAt(ViewOf(p, config, feed), t, n) && Inv(ready) && Registers(t, ready)
    requires config.sourceId in ready.sources && config.collectionRunId in ready.runs
    ensures var (v, out) := (ViewOf(p, config, feed), Drain(p, config, turns, DISCOVERY_LIMIT, ready, NOTHING, None));
            n <= m && Clear(v, n, m) && StoreAt(v, out.tables, m)
  {
    PreparedMirrors(ViewOf(p, config, feed), t, ready, n);
    InterruptedDrain(p, config, feed, n, turns, ready, NOTHING);
    var out := Drain(p, config, turns, DISCOVERY_LIMIT, ready, NOTHING, None);
    m :| n <= m && Mirroring(p, config, feed, n)(out.tables, m);
  }

  /** What the prerequisites leave: the store stands where it stood, and unless they failed its source is registered
      and, once exports are mirrored, its run. */
  lemma AttemptPrepared(v: View, t: Tables, n: nat, startedAt: u64, uptime: Uptime) returns (prepared: State)
    requires StoreAt(v, t, n)
    ensures prepared == Prepare(t, RetentionOf(v.config), SourceOf(v.config), RunOf(v.config, startedAt), uptime)
    ensures StoreAt(v, prepared.tables, n) && Registers(t, prepared.tables)
    ensures prepared.stop.None? ==> v.config.sourceId in prepared.tables.sources
    ensures prepared.stop.None? && n > 0 ==> v.config.collectionRunId in prepared.tables.runs
  {
    var config := v.config;
    prepared := Prepare(t, RetentionOf(config), SourceOf(config), RunOf(config, startedAt), uptime);
    PreparedRegisters(t, RetentionOf(config), SourceOf(config), RunOf(config, startedAt), uptime);
    StandsRegistered(v, t, prepared.tables, n);
    if prepared.stop.None? {
      UptimeOnlyStops(t, RetentionOf(config), SourceOf(config), RunOf(config, startedAt), uptime);
      PreparedIff(config, t, startedAt);
      PreparedRunIff(config, t, startedAt);
    }
  }

  /** A pass without its run leaves the store where it stands. */
  lemma RunlessPass(p: Primitives, config: Config, feed: seq<SignedExport>, turns: seq<Turn>, t: Tables)
    requires StoreAt(ViewOf(p, config, feed), t, 0) && config.collectionRunId !in t.runs
    ensures StoreAt(ViewOf(p, config, feed), Drain(p, config, turns, DISCOVERY_LIMIT, t, NOTHING, None).tables, 0)
  {
    RunlessDrain(p, config, t, turns, t, NOTHING);
    UntouchedStays(ViewOf(p, config, feed), t, Drain(p, config, turns, DISCOVERY_LIMIT, t, NOTHING, None).tables);
  }

  /** Re-runnability: whatever fetches fail, wherever the connection is lost or the pass is killed, it leaves a
      store that stands at some export from n on, none of the way there stuck. */
  lemma InterruptedPass(p: Primitives, config: Config, feed: seq<SignedExport>, turns: seq<Turn>, t: Tables, n: nat,
                        startedAt: u64, uptime: Uptime) returns (m: nat)
    requires RoundTrips(p, feed) && WellFormedFeed(p, config, feed)
             && (forall turn :: turn in turns ==> Faithful(turn, feed))
    requires StoreAt(ViewOf(p, config, feed), t, n)
    ensures var (v, out) := (ViewOf(p, config, feed), Pass(p, config, turns, t, startedAt, uptime));
            n <= m && Clear(v, n, m) && StoreAt(v, out.tables, m)
  {
    var prepared := AttemptPrepared(ViewOf(p, config, feed), t, n, startedAt, uptime);
    if prepared.stop.Some? { return n; }
    if config.collectionRunId !in prepared.tables.runs {
      RunlessPass(p, config, feed, turns, prepared.tables);
      return n;
    }
    m := ReadyPass(p, config, feed, turns, t, prepared.tables, n);
  }

  /** One attempted pass. */
  datatype Attempt = Attempt(turns: seq<Turn>, startedAt: u64, uptime: Uptime)

  function AfterAttempts(p: Primitives, config: Config, t: Tables, attempts: seq<Attempt>): Tables
    decreases |attempts|
  {
    if attempts == [] then t else
      var a := attempts[0];
      AfterAttempts(p, config, Pass(p, config, a.turns, t, a.startedAt, a.uptime).tables, attempts[1..])
  }

  lemma {:induction false} InterruptedHistory(p: Primitives, config: Config, feed: seq<SignedExport>, t: Tables,
                                              n: nat, attempts: seq<Attempt>) returns (m: nat)
    requires RoundTrips(p, feed) && WellFormedFeed(p, config, feed) && StoreAt(ViewOf(p, config, feed), t, n)
    requires forall a, turn :: a in attempts && turn in a.turns ==> Faithful(turn, feed)
    ensures n <= m && Clear(ViewOf(p, config, feed), n, m)
    ensures StoreAt(ViewOf(p, config, feed), AfterAttempts(p, config, t, attempts), m)
    decreases |attempts|
  {
    m := n;
    if attempts != [] {
      var a := attempts[0];
      assert a in attempts;
      var now := InterruptedPass(p, config, feed, a.turns, t, n, a.startedAt, a.uptime);
      var left := Pass(p, config, a.turns, t, a.startedAt, a.uptime).tables;
      m := InterruptedHistory(p, config, feed, left, now, attempts[1..]);
    }
  }

  lemma {:induction false} ClearToFirstStuck(v: View, n: nat, m: nat)
    requires n <= m && Clear(v, n, m)
    ensures FirstStuck(v, n) == FirstStuck(v, m)
    decreases m - n
  {
    if n < m { ClearToFirstStuck(v, n + 1, m); }
  }

  /** However many passes were cut short, and wherever: the next undisturbed one ends where a single undisturbed
      pass would have ended, with the source holding exactly the accepted exports before the first stuck one. */
  lemma InterruptionsDoNotMatter(p: Primitives, config: Config, feed: seq<SignedExport>, t: Tables, n: nat,
                                 attempts: seq<Attempt>, startedAt: u64)
    requires RoundTrips(p, feed) && WellFormedFeed(p, config, feed) && StoreAt(ViewOf(p, config, feed), t, n)
    requires forall a, turn :: a in attempts && turn in a.turns ==> Faithful(turn, feed)
    requires Startable(config, startedAt)
    requires RunReady(config, t, startedAt) && RunReady(config, AfterAttempts(p, config, t, attempts), startedAt)
    ensures var v := ViewOf(p, config, feed);
            var (once, resumed) := (SteadyPass(p, config, feed, t, startedAt),
                                    SteadyPass(p, config, feed, AfterAttempts(p, config, t, attempts), startedAt));
            && Mirrors(v, once.tables, FirstStuck(v, n)) && Mirrors(v, resumed.tables, FirstStuck(v, n))
            && once.stop == resumed.stop
  {
    var v := ViewOf(p, config, feed);
    var m := InterruptedHistory(p, config, feed, t, n, attempts);
    ClearToFirstStuck(v, n, m);
    PassIsExact(p, config, feed, t, startedAt, n);
    PassIsExact(p, config, feed, AfterAttempts(p, config, t, attempts), startedAt, m);
  }
}
