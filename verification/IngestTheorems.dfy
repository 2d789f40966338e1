/** What ingestion guarantees against any server and any connection: conservation and finishing. */
module IngestTheorems {
  import opened Words
  import opened Wrappers
  import opened Text
  import opened Schema
  import opened Connectors
  import opened PitekaSigning
  import opened PitekaFeeds
  import opened PitekaPaging
  import opened Ingestion

  // ---- Conservation -----------------------------------------------------------

  /** What a summary has counted: every event read is authenticated or skipped, every
      authenticated one persisted or found again. */
  ghost predicate Balanced(s: Summary, read: nat) {
    && s.authenticated + s.skipped == read
    && s.authenticated == s.persisted + s.duplicates
    && |s.observationIds| == s.authenticated
  }

  lemma ProcessBalances(p: Primitives, config: Config, t: Tables, s: Summary, raw: RawEvent, link: Link, read: nat)
    requires Balanced(s, read) && Process(p, config, t, s, raw, link).stop.None?
    ensures Balanced(Process(p, config, t, s, raw, link).summary, read + 1)
  {
    var gated := Gate(PitekaConnector(p, config), raw, 1);
    if gated.Ok? {
      KeepCases(config, t, s, gated.value, link);
      var kept := WithPayload(t, gated.value, link.payload);
      assert kept.Ok?;
      PersistCases(config, kept.value, s.(authenticated := s.authenticated + 1), gated.value.observation, link);
    }
  }

  lemma {:induction false} ProcessAllBalances(p: Primitives, config: Config, t: Tables, s: Summary,
                                              raws: seq<RawEvent>, links: seq<Link>, read: nat)
    requires Balanced(s, read) && ProcessAll(p, config, t, s, raws, links).stop.None?
    ensures Balanced(ProcessAll(p, config, t, s, raws, links).summary, read + |raws|)
    decreases |raws|
  {
    if raws != [] {
      var next := Process(p, config, t, s, raws[0], First(links));
      ProcessBalances(p, config, t, s, raws[0], First(links), read);
      ProcessAllBalances(p, config, next.tables, next.summary, raws[1..], Rest(links), read + 1);
    }
  }

  // ---- A drain is one long batch ------------------------------------------------

  /** The connection for each of n events, with the steady rest written out. */
  function Padded(links: seq<Link>, n: nat): (r: seq<Link>)
    ensures |r| == n
  {
    seq(n, i requires 0 <= i < n => if i < |links| then links[i] else STEADY)
  }

  /** The raw events of a turn after which the loop goes on, and the connection as each meets it. */
  function TurnRead(p: Primitives, config: Config, turn: Turn, limit: u32, cursor: Option<ConnectorCursor>)
    : (seq<RawEvent>, seq<Link>)
  {
    match Discovered(p, config, turn.fetch, cursor, limit)
    case Err(_) => ([], [])
    case Ok(batch) => (batch.events, Padded(turn.links, |batch.events|))
  }

  /** The raw events that the drain loop reads from a cursor on, and the connection as each meets it. */
  function EventsRead(p: Primitives, config: Config, turns: seq<Turn>, limit: u32, t: Tables, s: Summary,
                      cursor: Option<ConnectorCursor>): (seq<RawEvent>, seq<Link>)
    decreases |turns|
  {
    if turns == [] then ([], []) else
      match TakeTurn(p, config, turns[0], limit, t, s, cursor)
      case Returned(_) => ([], [])
      case Continues(t', s', cursor') =>
        var (now, later) := (TurnRead(p, config, turns[0], limit, cursor),
                             EventsRead(p, config, turns[1..], limit, t', s', Some(cursor')));
        (now.0 + later.0, now.1 + later.1)
  }

  lemma {:induction false} ProcessAllAppends(p: Primitives, config: Config, t: Tables, s: Summary, a: seq<RawEvent>,
                                             b: seq<RawEvent>, links: seq<Link>, more: seq<Link>)
    ensures ProcessAll(p, config, t, s, a + b, Padded(links, |a|) + more) ==
            var first := ProcessAll(p, config, t, s, a, links);
            if first.stop.Some? then first else ProcessAll(p, config, first.tables, first.summary, b, more)
    decreases |a|
  {
    if a == [] {
      assert a + b == b && Padded(links, 0) + more == more;
    } else {
      assert (a + b)[0] == a[0] && (a + b)[1..] == a[1..] + b;
      var padded := Padded(links, |a|) + more;
      assert First(padded) == First(links) && Rest(padded) == Padded(Rest(links), |a| - 1) + more;
      var next := Process(p, config, t, s, a[0], First(links));
      if next.stop.None? { ProcessAllAppends(p, config, next.tables, next.summary, a[1..], b, Rest(links), more); }
    }
  }

  /** Steadiness written out is steadiness. */
  lemma {:induction false} SteadyPadding(p: Primitives, config: Config, t: Tables, s: Summary, raws: seq<RawEvent>,
                                         n: nat)
    ensures ProcessAll(p, config, t, s, raws, Padded([], n)) == ProcessAll(p, config, t, s, raws)
    decreases |raws|
  {
    if raws != [] {
      var links := Padded([], n);
      assert First(links) == STEADY && Rest(links) == Padded([], if n == 0 then 0 else n - 1);
      var next := Process(p, config, t, s, raws[0]);
      SteadyPadding(p, config, next.tables, next.summary, raws[1..], if n == 0 then 0 else n - 1);
    }
  }

  lemma SteadyAppends(p: Primitives, config: Config, t: Tables, s: Summary, a: seq<RawEvent>, b: seq<RawEvent>)
    ensures ProcessAll(p, config, t, s, a + b) ==
            var first := ProcessAll(p, config, t, s, a);
            if first.stop.Some? then first else ProcessAll(p, config, first.tables, first.summary, b)
  {
    ProcessAllAppends(p, config, t, s, a, b, [], []);
    assert Padded([], |a|) + [] == Padded([], |a|);
    SteadyPadding(p, config, t, s, a + b, |a|);
  }

  /** A turn that goes on has processed its events. */
  lemma TurnProcesses(p: Primitives, config: Config, turn: Turn, limit: u32, t: Tables, s: Summary,
                      cursor: Option<ConnectorCursor>)
    requires TakeTurn(p, config, turn, limit, t, s, cursor).Continues?
    ensures var (o, read) := (TakeTurn(p, config, turn, limit, t, s, cursor), TurnRead(p, config, turn, limit, cursor));
            && ProcessAll(p, config, t, s, read.0, turn.links) == State(o.tables, o.summary, None)
            && read.1 == Padded(turn.links, |read.0|)
  {
  }

  /** Whatever the server and the connection do: a drain that returns Ok has processed exactly the
      events it read, one after the other. */
  lemma {:induction false} DrainProcessesEvents(p: Primitives, config: Config, turns: seq<Turn>, limit: u32,
                                                t: Tables, s: Summary, cursor: Option<ConnectorCursor>)
    requires Drain(p, config, turns, limit, t, s, cursor).stop.None?
    ensures var read := EventsRead(p, config, turns, limit, t, s, cursor);
            Drain(p, config, turns, limit, t, s, cursor) == ProcessAll(p, config, t, s, read.0, read.1)
    decreases |turns|
  {
    var o := TakeTurn(p, config, turns[0], limit, t, s, cursor);
    if o.Continues? {
      var now := TurnRead(p, config, turns[0], limit, cursor);
      var later := EventsRead(p, config, turns[1..], limit, o.tables, o.summary, Some(o.cursor));
      TurnProcesses(p, config, turns[0], limit, t, s, cursor);
      DrainProcessesEvents(p, config, turns[1..], limit, o.tables, o.summary, Some(o.cursor));
      ProcessAllAppends(p, config, t, s, now.0, later.0, turns[0].links, later.1);
    }
  }

  /** Conservation, on any store, against any server and connection: a drain that returns Ok accounts
      for every export read. */
  lemma DrainConserves(p: Primitives, config: Config, turns: seq<Turn>, limit: u32, t: Tables)
    requires Drain(p, config, turns, limit, t, NOTHING, None).stop.None?
    ensures Balanced(Drain(p, config, turns, limit, t, NOTHING, None).summary,
                     |EventsRead(p, config, turns, limit, t, NOTHING, None).0|)
  {
    var read := EventsRead(p, config, turns, limit, t, NOTHING, None);
    DrainProcessesEvents(p, config, turns, limit, t, NOTHING, None);
    ProcessAllBalances(p, config, t, NOTHING, read.0, read.1, 0);
  }

  // ---- Finishing ------------------------------------------------------------------

  /** The sequence a cursor stands for. */
  function Position(config: Config, cursor: Option<ConnectorCursor>): u64 {
    var decoded := DecodeCursor(cursor, config.sourceId);
    if decoded.Ok? then decoded.value else 0
  }

  lemma {:induction false} ContiguousEnds(config: Config, exports: seq<SignedExport>, expected: u64)
    requires Contiguous(config, exports, expected)
    ensures LastSequence(exports, expected) == if expected + |exports| <= U64_MAX then expected + |exports| else U64_MAX
    decreases |exports|
  {
    if exports != [] {
      ContiguousEnds(config, exports[1..], exports[0].sequence);
      assert LastSequence(exports, expected) == LastSequence(exports[1..], exports[0].sequence);
    }
  }

  /** Against any server, a batch with events moves the cursor by their number, up to saturation: forward
      exactly unless it already stands at the last sequence. */
  lemma CursorAdvancesIff(p: Primitives, config: Config, fetch: Transport, cursor: Option<ConnectorCursor>, limit: u32)
    requires Discovered(p, config, fetch, cursor, limit).Ok?
    requires Discovered(p, config, fetch, cursor, limit).value.events != []
    ensures var batch := Discovered(p, config, fetch, cursor, limit).value;
            var from, next := Position(config, cursor), Position(config, Some(batch.proposedCursor));
            && next == (if from + |batch.events| <= U64_MAX then from + |batch.events| else U64_MAX)
            && (from < next <==> from < U64_MAX)
  {
    var after := DecodeCursor(cursor, config.sourceId).value;
    var page := fetch(after, limit).value;
    ContiguousEnds(config, page.exports, after);
    CheckBatchMeaning(Discovered(p, config, fetch, cursor, limit).value, limit);
    CursorRoundTrips(config.sourceId, page.nextSequence);
  }

  function Repeated(turn: Turn, k: nat): (r: seq<Turn>)
    ensures |r| == k && forall i :: 0 <= i < k ==> r[i] == turn
  {
    seq(k, _ => turn)
  }

  /** The honest server of an immutable feed, over a steady connection, for k turns. */
  function Honest(feed: seq<SignedExport>, k: nat): seq<Turn> {
    Repeated(Turn(Serve(feed), []), k)
  }

  lemma {:induction false} AfterIsLater(feed: seq<SignedExport>, n: u64, m: u64)
    requires n <= m
    ensures |After(feed, m)| <= |After(feed, n)|
    ensures (exists i :: 0 <= i < |feed| && n < feed[i].sequence <= m) ==> |After(feed, m)| < |After(feed, n)|
    ensures forall i :: 0 <= i < |After(feed, n)| ==> After(feed, n)[i].sequence > n && After(feed, n)[i] in feed
  {
    if feed != [] {
      AfterIsLater(feed[1..], n, m);
      if i :| 0 <= i < |feed| && n < feed[i].sequence <= m {
        if i > 0 { assert feed[1..][i - 1] == feed[i]; }
      }
    }
  }

  lemma EventsReturn(p: Primitives, config: Config, t: Tables, s: Summary, raw: RawEvent, link: Link)
    ensures Process(p, config, t, s, raw, link).stop != Some(Unfinished)
  {
    var gated := Gate(PitekaConnector(p, config), raw, 1);
    if gated.Ok? {
      KeepCases(config, t, s, gated.value, link);
      var kept := WithPayload(t, gated.value, link.payload);
      if kept.Ok? {
        PersistCases(config, kept.value, s.(authenticated := s.authenticated + 1), gated.value.observation, link);
      }
    }
  }

  lemma {:induction false} BatchesReturn(p: Primitives, config: Config, t: Tables, s: Summary, raws: seq<RawEvent>,
                                         links: seq<Link>)
    ensures ProcessAll(p, config, t, s, raws, links).stop != Some(Unfinished)
    decreases |raws|
  {
    if raws != [] {
      EventsReturn(p, config, t, s, raws[0], First(links));
      var next := Process(p, config, t, s, raws[0], First(links));
      if next.stop.None? { BatchesReturn(p, config, next.tables, next.summary, raws[1..], Rest(links)); }
    }
  }

  /** A batch of an honest server moves past at least one export of the feed. */
  lemma HonestBatchShrinks(p: Primitives, config: Config, feed: seq<SignedExport>, cursor: Option<ConnectorCursor>,
                           limit: u32)
    requires Discovered(p, config, Serve(feed), cursor, limit).Ok?
    requires Discovered(p, config, Serve(feed), cursor, limit).value.events != []
    ensures var next := Some(Discovered(p, config, Serve(feed), cursor, limit).value.proposedCursor);
            |After(feed, Position(config, next))| < |After(feed, Position(config, cursor))|
  {
    var batch := Discovered(p, config, Serve(feed), cursor, limit).value;
    var after := DecodeCursor(cursor, config.sourceId).value;
    var page := PageAfter(feed, after, limit);
    CheckBatchMeaning(batch, limit);
    CursorRoundTrips(config.sourceId, page.nextSequence);
    HonestPageShrinks(feed, after, limit);
  }

  lemma HonestPageShrinks(feed: seq<SignedExport>, after: u64, limit: u32)
    requires PageAfter(feed, after, limit).exports != []
    ensures |After(feed, PageAfter(feed, after, limit).nextSequence)| < |After(feed, after)|
  {
    var page := PageAfter(feed, after, limit);
    AfterIsLater(feed, after, after);
    var last := page.exports[|page.exports| - 1];
    assert last == After(feed, after)[|page.exports| - 1] && last in feed;
    var i :| 0 <= i < |feed| && feed[i] == last;
    AfterIsLater(feed, after, page.nextSequence);
  }

  lemma ContinuedTurn(p: Primitives, config: Config, turn: Turn, limit: u32, t: Tables, s: Summary,
                      cursor: Option<ConnectorCursor>)
    requires TakeTurn(p, config, turn, limit, t, s, cursor).Continues?
    ensures var discovered := Discovered(p, config, turn.fetch, cursor, limit);
            && discovered.Ok? && discovered.value.events != []
            && TakeTurn(p, config, turn, limit, t, s, cursor).cursor == discovered.value.proposedCursor
  {
  }

  lemma TurnsReturn(p: Primitives, config: Config, turn: Turn, limit: u32, t: Tables, s: Summary,
                    cursor: Option<ConnectorCursor>)
    requires TakeTurn(p, config, turn, limit, t, s, cursor).Returned?
    ensures TakeTurn(p, config, turn, limit, t, s, cursor).state.stop != Some(Unfinished)
  {
    var discovered := Discovered(p, config, turn.fetch, cursor, limit);
    if discovered.Ok? { BatchesReturn(p, config, t, s, discovered.value.events, turn.links); }
  }

  // ---- The loop with its turns abstracted away ------------------------------

  type Take = (Tables, Summary, Option<ConnectorCursor>) -> Onward

  /** A drain all of whose turns are alike. */
  function Loop(take: Take, k: nat, t: Tables, s: Summary, cursor: Option<ConnectorCursor>): State {
    if k == 0 then State(t, s, Some(Unfinished)) else
      match take(t, s, cursor)
      case Returned(state) => state
      case Continues(t', s', cursor') => Loop(take, k - 1, t', s', Some(cursor'))
  }

  lemma {:induction false} RepeatedLoop(p: Primitives, config: Config, turn: Turn, limit: u32, take: Take, k: nat,
                                        t: Tables, s: Summary, cursor: Option<ConnectorCursor>)
    requires forall t, s, cursor :: take(t, s, cursor) == TakeTurn(p, config, turn, limit, t, s, cursor)
    ensures Drain(p, config, Repeated(turn, k), limit, t, s, cursor) == Loop(take, k, t, s, cursor)
    decreases k
  {
    if k > 0 {
      assert Repeated(turn, k)[1..] == Repeated(turn, k - 1);
      var o := take(t, s, cursor);
      if o.Continues? { RepeatedLoop(p, config, turn, limit, take, k - 1, o.tables, o.summary, Some(o.cursor)); }
    }
  }

  /** A turn that returns, or makes something smaller. */
  ghost predicate Descends(o: Onward, size: Option<ConnectorCursor> -> nat, cursor: Option<ConnectorCursor>) {
    if o.Returned? then o.state.stop != Some(Unfinished) else size(Some(o.cursor)) < size(cursor)
  }

  lemma {:induction false} DescendingLoopReturns(take: Take, size: Option<ConnectorCursor> -> nat, k: nat, t: Tables,
                                                 s: Summary, cursor: Option<ConnectorCursor>)
    requires forall t, s, cursor :: Descends(take(t, s, cursor), size, cursor)
    requires size(cursor) < k
    ensures Loop(take, k, t, s, cursor).stop != Some(Unfinished)
  {
    var o := take(t, s, cursor);
    assert Descends(o, size, cursor);
    if o.Continues? { DescendingLoopReturns(take, size, k - 1, o.tables, o.summary, Some(o.cursor)); }
  }

  /** Further turns do not matter to a loop that has returned. */
  lemma {:induction false} ReturnedLoopIsFinal(take: Take, n: nat, k: nat, t: Tables, s: Summary,
                                               cursor: Option<ConnectorCursor>)
    requires Loop(take, n, t, s, cursor).stop != Some(Unfinished) && n <= k
    ensures Loop(take, k, t, s, cursor) == Loop(take, n, t, s, cursor)
  {
    var o := take(t, s, cursor);
    if o.Continues? { ReturnedLoopIsFinal(take, n - 1, k - 1, o.tables, o.summary, Some(o.cursor)); }
  }

  lemma HonestTurnDescends(p: Primitives, config: Config, feed: seq<SignedExport>, limit: u32, t: Tables, s: Summary,
                           cursor: Option<ConnectorCursor>, size: Option<ConnectorCursor> -> nat)
    requires forall cursor :: size(cursor) == |After(feed, Position(config, cursor))|
    ensures Descends(TakeTurn(p, config, Turn(Serve(feed), []), limit, t, s, cursor), size, cursor)
  {
    var turn := Turn(Serve(feed), []);
    if TakeTurn(p, config, turn, limit, t, s, cursor).Returned? {
      TurnsReturn(p, config, turn, limit, t, s, cursor);
    } else {
      ContinuedTurn(p, config, turn, limit, t, s, cursor);
      HonestBatchShrinks(p, config, feed, cursor, limit);
    }
  }

  /** Over an honest server, of any feed whatever, a pass returns within one turn more than the feed has exports, and
      further turns would not matter. */
  lemma HonestDrainReturns(p: Primitives, config: Config, feed: seq<SignedExport>, limit: u32, t: Tables, s: Summary,
                           cursor: Option<ConnectorCursor>, n: nat, k: nat)
    requires |After(feed, Position(config, cursor))| < n <= k
    ensures Drain(p, config, Honest(feed, n), limit, t, s, cursor).stop != Some(Unfinished)
    ensures Drain(p, config, Honest(feed, k), limit, t, s, cursor)
            == Drain(p, config, Honest(feed, n), limit, t, s, cursor)
  {
    var turn := Turn(Serve(feed), []);
    var take := (t, s, cursor) => TakeTurn(p, config, turn, limit, t, s, cursor);
    var size := (cursor: Option<ConnectorCursor>) => |After(feed, Position(config, cursor))|;
    forall t, s, cursor ensures Descends(take(t, s, cursor), size, cursor) {
      HonestTurnDescends(p, config, feed, limit, t, s, cursor, size);
    }
    DescendingLoopReturns(take, size, n, t, s, cursor);
    ReturnedLoopIsFinal(take, n, k, t, s, cursor);
    RepeatedLoop(p, config, turn, limit, take, n, t, s, cursor);
    RepeatedLoop(p, config, turn, limit, take, k, t, s, cursor);
  }

  // ---- Passes that do not end -----------------------------------------------

  /** Where a drain stands after these turns. */
  function Standing(p: Primitives, config: Config, turns: seq<Turn>, limit: u32, t: Tables, s: Summary,
                    cursor: Option<ConnectorCursor>): Option<ConnectorCursor>
    decreases |turns|
  {
    if turns == [] then cursor else
      match TakeTurn(p, config, turns[0], limit, t, s, cursor)
      case Returned(_) => cursor
      case Continues(t', s', cursor') => Standing(p, config, turns[1..], limit, t', s', Some(cursor'))
  }

  lemma ContinuedTurnAdvances(p: Primitives, config: Config, turn: Turn, limit: u32, t: Tables, s: Summary,
                              cursor: Option<ConnectorCursor>)
    requires TakeTurn(p, config, turn, limit, t, s, cursor).Continues?
    ensures var (from, next) := (Position(config, cursor),
                                 Position(config, Some(TakeTurn(p, config, turn, limit, t, s, cursor).cursor)));
            next > from || next == U64_MAX
  {
    ContinuedTurn(p, config, turn, limit, t, s, cursor);
    CursorAdvancesIff(p, config, turn.fetch, cursor, limit);
  }

  /** Against any server and connection: only at the last sequence can a drain go on for ever. After so many turns
      an unfinished one has moved at least as many sequences forward, or stands at `u64::MAX`. */
  lemma {:induction false} UnfinishedStands(p: Primitives, config: Config, turns: seq<Turn>, limit: u32, t: Tables,
                                            s: Summary, cursor: Option<ConnectorCursor>)
    requires Drain(p, config, turns, limit, t, s, cursor).stop == Some(Unfinished)
    ensures var now := Position(config, Standing(p, config, turns, limit, t, s, cursor));
            now >= Position(config, cursor) + |turns| || now == U64_MAX
    decreases |turns|
  {
    if turns != [] {
      var o := TakeTurn(p, config, turns[0], limit, t, s, cursor);
      if o.Returned? {
        TurnsReturn(p, config, turns[0], limit, t, s, cursor);
      } else {
        ContinuedTurnAdvances(p, config, turns[0], limit, t, s, cursor);
        UnfinishedStands(p, config, turns[1..], limit, o.tables, o.summary, Some(o.cursor));
      }
    }
  }

  /** Exports of the configured tenant, each numbered after the one asked from: `u64::MAX` again after itself. */
  ghost predicate Supplies(p: Primitives, config: Config, make: u64 -> SignedExport) {
    && ConnectorText(config.sourceId)
    && forall n: u64 :: make(n).sequence == SaturatingSucc(n) && make(n).tenantId == config.tenantId
         && ValidateEvent(RawOf(p, config, make(n))).Ok?
  }

  /** The server that answers every request with the one next export. */
  function Supplying(make: u64 -> SignedExport): Turn {
    Turn((after: u64, limit: u32) => Ok(Page(FEED_SCHEMA_VERSION, [make(after)], make(after).sequence)), [])
  }

  /** A batch of one event. */
  lemma SingleBatch(batch: RawBatch, raw: RawEvent, limit: u32)
    requires batch.events == [raw] && raw.sourceId == batch.sourceId == batch.proposedCursor.sourceId
    requires ConnectorText(batch.sourceId) && ValidateEvent(raw).Ok? && 0 < limit <= MAX_DISCOVERY_LIMIT
    requires ValidateCursor(batch.proposedCursor).Ok?
    ensures CheckBatch(batch, limit).Ok? && Checkpoint(batch) == Ok(batch.proposedCursor)
  {
    CheckBatchMeaning(batch, limit);
    CheckBatchMeaning(batch, MAX_DISCOVERY_LIMIT);
  }

  lemma SuppliedBatch(p: Primitives, config: Config, make: u64 -> SignedExport, limit: u32, n: u64)
    returns (batch: RawBatch)
    requires Supplies(p, config, make) && 0 < limit <= MAX_DISCOVERY_LIMIT
    ensures batch.events == [RawOf(p, config, make(n))]
    ensures Discovered(p, config, Supplying(make).fetch, CursorAt(config, n), limit) == Ok(batch)
    ensures Checkpoint(batch).Ok? && Some(Checkpoint(batch).value) == CursorAt(config, SaturatingSucc(n))
  {
    var e := make(n);
    batch := RawBatch(config.sourceId, [RawOf(p, config, e)], EncodeCursor(config.sourceId, e.sequence));
    CursorRoundTrips(config.sourceId, n);
    CursorRoundTrips(config.sourceId, e.sequence);
    SingleBatch(batch, RawOf(p, config, e), limit);
    assert RawsOf(p, config, [e]) == [RawOf(p, config, e)];
    assert Contiguous(config, [e][1..], e.sequence);
  }

  /** The event does not end a pass, and keeps what holds of the tables. */
  ghost predicate GoesThrough(p: Primitives, config: Config, t: Tables, s: Summary, raw: RawEvent,
                              keeps: Tables -> bool)
  {
    var out := Process(p, config, t, s, raw);
    out.stop.None? && keeps(out.tables)
  }

  lemma SingleProcessed(p: Primitives, config: Config, t: Tables, s: Summary, raw: RawEvent)
    requires Process(p, config, t, s, raw).stop.None?
    ensures ProcessAll(p, config, t, s, [raw], []) == Process(p, config, t, s, raw)
  {
    assert [raw][1..] == [];
  }

  /** The turn continues at the next sequence. */
  ghost predicate MovesOn(o: Onward, keeps: Tables -> bool, next: Option<ConnectorCursor>) {
    o.Continues? && keeps(o.tables) && Some(o.cursor) == next
  }

  lemma SingleTurn(p: Primitives, config: Config, batch: RawBatch, raw: RawEvent, t: Tables, s: Summary,
                   keeps: Tables -> bool, next: Option<ConnectorCursor>)
    requires batch.events == [raw] && Checkpoint(batch).Ok? && Some(Checkpoint(batch).value) == next
    requires GoesThrough(p, config, t, s, raw, keeps)
    ensures MovesOn(TakeBatch(p, config, Ok(batch), [], t, s), keeps, next)
  {
    SingleProcessed(p, config, t, s, raw);
  }

  lemma SuppliedTurn(p: Primitives, config: Config, make: u64 -> SignedExport, keeps: Tables -> bool, limit: u32,
                     t: Tables, s: Summary, n: u64)
    requires Supplies(p, config, make) && 0 < limit <= MAX_DISCOVERY_LIMIT
    requires GoesThrough(p, config, t, s, RawOf(p, config, make(n)), keeps)
    ensures MovesOn(TakeTurn(p, config, Supplying(make), limit, t, s, CursorAt(config, n)), keeps,
                    CursorAt(config, SaturatingSucc(n)))
  {
    var batch := SuppliedBatch(p, config, make, limit, n);
    SingleTurn(p, config, batch, RawOf(p, config, make(n)), t, s, keeps, CursorAt(config, SaturatingSucc(n)));
  }

  lemma {:induction false} MovingLoopGoesOn(take: Take, keeps: Tables -> bool, at: u64 -> Option<ConnectorCursor>,
                                            t: Tables, s: Summary, n: u64, k: nat)
    requires forall t, s, n: u64 :: keeps(t) ==> MovesOn(take(t, s, at(n)), keeps, at(SaturatingSucc(n)))
    requires keeps(t)
    ensures Loop(take, k, t, s, at(n)).stop == Some(Unfinished) && keeps(Loop(take, k, t, s, at(n)).tables)
    decreases k
  {
    if k > 0 {
      var o := take(t, s, at(n));
      assert MovesOn(o, keeps, at(SaturatingSucc(n)));
      MovingLoopGoesOn(take, keeps, at, o.tables, o.summary, SaturatingSucc(n), k - 1);
    }
  }

  /** A server can keep a pass from ending, from its first request on: if each export it supplies goes through -
      skipped, appended or found again - then after any number of turns the drain is unfinished. */
  lemma PassNeedNotEnd(p: Primitives, config: Config, make: u64 -> SignedExport, keeps: Tables -> bool, limit: u32,
                       t: Tables, s: Summary, n: u64, k: nat)
    requires Supplies(p, config, make) && 0 < limit <= MAX_DISCOVERY_LIMIT && keeps(t)
    requires forall t, s, n: u64 :: keeps(t) ==> GoesThrough(p, config, t, s, RawOf(p, config, make(n)), keeps)
    ensures var out := Drain(p, config, Repeated(Supplying(make), k), limit, t, s, CursorAt(config, n));
            out.stop == Some(Unfinished) && keeps(out.tables)
  {
    var turn := Supplying(make);
    var take := (t, s, cursor) => TakeTurn(p, config, turn, limit, t, s, cursor);
    var at := (n: u64) => CursorAt(config, n);
    forall t, s, n: u64 | keeps(t) ensures MovesOn(take(t, s, at(n)), keeps, at(SaturatingSucc(n))) {
      SuppliedTurn(p, config, make, keeps, limit, t, s, n);
    }
    MovingLoopGoesOn(take, keeps, at, t, s, n, k);
    RepeatedLoop(p, config, turn, limit, take, k, t, s, CursorAt(config, n));
  }

  /** Exports that are skipped are enough, and leave the store as it was. */
  lemma SkippingNeedNotEnd(p: Primitives, config: Config, make: u64 -> SignedExport, limit: u32, t: Tables, s: Summary,
                           n: u64, k: nat)
    requires Supplies(p, config, make) && 0 < limit <= MAX_DISCOVERY_LIMIT
    requires forall n: u64 :: !Accepted(p, config, make(n))
    ensures var out := Drain(p, config, Repeated(Supplying(make), k), limit, t, s, CursorAt(config, n));
            out.stop == Some(Unfinished) && out.tables == t
  {
    var keeps := (t': Tables) => t' == t;
    forall t', s, n: u64 | keeps(t') ensures GoesThrough(p, config, t', s, RawOf(p, config, make(n)), keeps) {
      assert !Accepted(p, config, make(n));
    }
    PassNeedNotEnd(p, config, make, keeps, limit, t, s, n, k);
  }

  // ---- Draining a well-formed feed ------------------------------------------

  /** One turn over the exports after n of a well-formed feed. */
  function SliceTurn(p: Primitives, config: Config, feed: seq<SignedExport>, limit: u32, t: Tables, s: Summary,
                     n: u64): Onward
    requires n <= |feed| <= U64_MAX
  {
    var m := PageEnd(n, limit, |feed|);
    if n == m then Returned(State(t, s, None)) else
      var next := ProcessAll(p, config, t, s, RawsOf(p, config, feed[n..m]));
      if next.stop.Some? then Returned(next) else Continues(next.tables, next.summary, EncodeCursor(config.sourceId, m))
  }

  lemma WellFormedTurn(p: Primitives, config: Config, feed: seq<SignedExport>, limit: u32, t: Tables, s: Summary,
                       n: u64)
    requires WellFormedFeed(p, config, feed) && n <= |feed| <= U64_MAX && 0 < limit <= MAX_DISCOVERY_LIMIT
    ensures TakeTurn(p, config, Turn(Serve(feed), []), limit, t, s, CursorAt(config, n))
         == SliceTurn(p, config, feed, limit, t, s, n)
  {
    DiscoverSlice(p, config, feed, n, limit);
    SlicesPass(p, config, feed, n, PageEnd(n, limit, |feed|), limit);
  }

  lemma RawsSplit(p: Primitives, config: Config, feed: seq<SignedExport>, n: nat, m: nat)
    requires n <= m <= |feed|
    ensures RawsOf(p, config, feed[n..]) == RawsOf(p, config, feed[n..m]) + RawsOf(p, config, feed[m..])
  {
    assert feed[n..] == feed[n..m] + feed[m..];
  }

  /** A slice is the first part of what is left. */
  lemma SliceCovers(p: Primitives, config: Config, feed: seq<SignedExport>, limit: u32, t: Tables, s: Summary, n: u64)
    returns (m: u64)
    requires n <= |feed| <= U64_MAX && 0 < limit
    ensures var o := SliceTurn(p, config, feed, limit, t, s, n);
            var rest := ProcessAll(p, config, t, s, RawsOf(p, config, feed[n..]));
            && (o.Returned? ==> o.state == rest)
            && (o.Continues? ==> n < m <= |feed| && Some(o.cursor) == CursorAt(config, m)
                                 && rest == ProcessAll(p, config, o.tables, o.summary, RawsOf(p, config, feed[m..])))
  {
    m := PageEnd(n, limit, |feed|);
    if n < m {
      RawsSplit(p, config, feed, n, m);
      SteadyAppends(p, config, t, s, RawsOf(p, config, feed[n..m]), RawsOf(p, config, feed[m..]));
    } else {
      assert RawsOf(p, config, feed[n..]) == [];
    }
  }

  /** A turn from position n that finishes what was left there, or leaves it to a later position. */
  ghost predicate Hands(o: Onward, rest: (Tables, Summary, u64) -> State, at: u64 -> Option<ConnectorCursor>,
                        length: u64, t: Tables, s: Summary, n: u64)
  {
    if o.Returned? then o.state == rest(t, s, n)
    else exists m: u64 :: n < m <= length && at(m) == Some(o.cursor) && rest(o.tables, o.summary, m) == rest(t, s, n)
  }

  lemma {:induction false} HandingLoop(take: Take, rest: (Tables, Summary, u64) -> State,
                                       at: u64 -> Option<ConnectorCursor>, length: u64, t: Tables, s: Summary, n: u64,
                                       k: nat)
    requires forall t, s, n: u64 :: n <= length ==> Hands(take(t, s, at(n)), rest, at, length, t, s, n)
    requires n <= length && length - n < k
    ensures Loop(take, k, t, s, at(n)) == rest(t, s, n)
    decreases k
  {
    var o := take(t, s, at(n));
    assert Hands(o, rest, at, length, t, s, n);
    if o.Continues? {
      var m: u64 :| n < m <= length && at(m) == Some(o.cursor) && rest(o.tables, o.summary, m) == rest(t, s, n);
      HandingLoop(take, rest, at, length, o.tables, o.summary, m, k - 1);
    }
  }

  /** What is left of the feed at a position. */
  function RestAt(p: Primitives, config: Config, feed: seq<SignedExport>, t: Tables, s: Summary, n: u64): State {
    if n <= |feed| then ProcessAll(p, config, t, s, RawsOf(p, config, feed[n..])) else State(t, s, None)
  }

  lemma SliceHands(p: Primitives, config: Config, feed: seq<SignedExport>, limit: u32, rest: (Tables, Summary,
                   u64) -> State, at: u64 -> Option<ConnectorCursor>, t: Tables, s: Summary, n: u64)
    requires n <= |feed| <= U64_MAX && 0 < limit
    requires forall t, s, n: u64 :: rest(t, s, n) == RestAt(p, config, feed, t, s, n)
    requires forall n: u64 :: at(n) == CursorAt(config, n)
    ensures Hands(SliceTurn(p, config, feed, limit, t, s, n), rest, at, |feed|, t, s, n)
  {
    var o := SliceTurn(p, config, feed, limit, t, s, n);
    var m := SliceCovers(p, config, feed, limit, t, s, n);
    assert rest(t, s, n) == RestAt(p, config, feed, t, s, n);
    if o.Continues? {
      assert at(m) == Some(o.cursor);
      assert rest(o.tables, o.summary, m) == RestAt(p, config, feed, o.tables, o.summary, m);
    }
  }

  /** Over a well-formed feed the loop's batches do not matter: it processes the rest of the feed in order. */
  lemma DrainIsBatchFree(p: Primitives, config: Config, feed: seq<SignedExport>, limit: u32, t: Tables, s: Summary,
                         n: u64, k: nat)
    requires WellFormedFeed(p, config, feed) && n <= |feed| <= U64_MAX && 0 < limit <= MAX_DISCOVERY_LIMIT
    requires |feed| - n < k
    ensures Drain(p, config, Honest(feed, k), limit, t, s, CursorAt(config, n))
         == ProcessAll(p, config, t, s, RawsOf(p, config, feed[n..]))
  {
    var turn := Turn(Serve(feed), []);
    var take := (t, s, cursor) => TakeTurn(p, config, turn, limit, t, s, cursor);
    var at := (n: u64) => CursorAt(config, n);
    var rest := (t, s, n: u64) => RestAt(p, config, feed, t, s, n);
    forall t, s, n: u64 | n <= |feed|
      ensures Hands(take(t, s, at(n)), rest, at, |feed|, t, s, n)
    {
      WellFormedTurn(p, config, feed, limit, t, s, n);
      SliceHands(p, config, feed, limit, rest, at, t, s, n);
    }
    HandingLoop(take, rest, at, |feed|, t, s, n, k);
    RepeatedLoop(p, config, turn, limit, take, k, t, s, CursorAt(config, n));
  }
}
