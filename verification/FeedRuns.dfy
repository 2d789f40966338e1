/** Whole runs of the wallet feed: crashes, lossy subscribers, reconnects, and finality. */
module FeedRuns {
  import opened Words
  import opened Wrappers
  import opened WalletFeed
  import opened FeedLog
  import opened FeedHub
  import opened Databases

  // ---- Publishes and restarts -----------------------------------------------

  /** A publish, or a start after a crash; a start may find that the database does not answer. */
  datatype Action = Publish(envelope: Envelope, reply: Reply) | Restart(databaseUp: bool)

  /** A durable hub: running with a log in memory, or unable to start from its rows. */
  datatype System = Up(log: Log, rows: Rows) | Down(rows: Rows)

  function StartFrom(rows: Rows): System {
    match Rebuild(Ordered(rows), [])
    case Ok(log) => Up(log, rows)
    case Err(_) => Down(rows)
  }

  function Step(system: System, action: Action): System {
    match action
    case Restart(databaseUp) => if databaseUp then StartFrom(system.rows) else Down(system.rows)
    case Publish(e, reply) =>
      if system.Down? then system
      else Up(PublishLog(system.log, Some(system.rows), reply, e), PublishRows(system.log, system.rows, reply, e))
  }

  function Run(actions: seq<Action>): System {
    if actions == [] then StartFrom(map[]) else Step(Run(actions[..|actions| - 1]), actions[|actions| - 1])
  }

  /** The envelopes that a run has written to the reply, in order. */
  function Written(actions: seq<Action>): Log {
    if actions == [] then [] else
      var n := |actions| - 1;
      var (before, written) := (Run(actions[..n]), Written(actions[..n]));
      if actions[n].Restart? || before.Down?
         || PublishRows(before.log, before.rows, actions[n].reply, actions[n].envelope) == before.rows
      then written
      else written + [actions[n].envelope]
  }

  /** Whether the database answered the last start. */
  function LastStartAnswered(actions: seq<Action>): bool {
    if actions == [] then true else
      var n := |actions| - 1;
      if actions[n].Restart? then actions[n].databaseUp else LastStartAnswered(actions[..n])
  }

  /** The rows are those of the written log; memory has all of it, or lacks the last envelope, whose insert got no
      answer. */
  ghost predicate Consistent(system: System, written: Log) {
    && Legal(written) && |written| <= U64_MAX && system.rows == Persisted(written)
    && (system.Up? ==> system.log == written || (written != [] && system.log == written[..|written| - 1]))
  }

  /** With memory and rows in step, a publish writes one envelope or nothing. */
  lemma PublishInStep(system: System, e: Envelope, reply: Reply)
    requires system.Up? && Consistent(system, system.log)
    ensures var next := Step(system, Publish(e, reply));
            if next.rows == system.rows then next.log == system.log
            else && Consistent(next, system.log + [e]) && Decide(system.log, e) == Ok(true)
                 && (next.log == if reply.Answered? then system.log + [e] else system.log)
    ensures Decide(system.log, e) == Ok(true) ==>
              (Step(system, Publish(e, reply)).rows != system.rows
               <==> |system.log| < U64_MAX && !reply.Refused?)
  {
    var log := system.log;
    if Decide(log, e) == Ok(true) {
      InsertAccepted(log, e);
      ApplyKeepsLegal(log, e);
      assert (log + [e])[..|log|] == log;
      if RowConflicts(Persisted(log), AsI64(e.sequence), e.observationId) {
        assert Step(system, Publish(e, reply)) == system;
      } else {
        assert AsI64(e.sequence) !in system.rows;
      }
    }
  }

  /** Once an insert got no answer, the hub writes nothing more: the row in the way has the next number. */
  lemma PublishOutOfStep(system: System, written: Log, e: Envelope, reply: Reply)
    requires system.Up? && Consistent(system, written) && system.log != written
    ensures Step(system, Publish(e, reply)) == system
    ensures Decide(system.log, e) == Ok(true) ==>
              PublishResult(system.log, Some(system.rows), reply, e) == Err(NotPersisted)
  {
    if Decide(system.log, e) == Ok(true) {
      PrefixLegal(written, |written| - 1);
      LegalNumbered(system.log);
      DecidedNumber(system.log, e);
      LegalNumbered(written);
      PersistedRow(written, AsI64(e.sequence));
    }
  }

  lemma PublishKeepsConsistent(system: System, written: Log, e: Envelope, reply: Reply)
    requires system.Up? && Consistent(system, written)
    ensures var next := Step(system, Publish(e, reply));
            Consistent(next, if next.rows == system.rows then written else written + [e])
  {
    if system.log == written {
      PublishInStep(system, e, reply);
    } else {
      PublishOutOfStep(system, written, e, reply);
    }
  }

  /** A start of a consistent hub whose database answers reads everything written while that fits `i64`, and fails
      beyond. */
  lemma RestartIsIdentity(system: System, written: Log)
    requires Consistent(system, written)
    ensures Step(system, Restart(true))
         == if |written| <= I64_MAX then Up(written, system.rows) else Down(system.rows)
  {
    RestartRestores(written);
  }

  /** Crash refinement: in every run of publishes - accepted, replayed, rejected, refused by the reply, or
      without an answer from it - and starts, the rows are the written log, and a running hub's memory is that log
      or lacks its last envelope. A hub is down only if the database did not answer its last start, or the log
      is too long to be read. */
  lemma {:induction false} RunsStayConsistent(actions: seq<Action>)
    ensures Consistent(Run(actions), Written(actions))
    ensures !LastStartAnswered(actions) ==> Run(actions).Down?
    ensures Run(actions).Down? ==> !LastStartAnswered(actions) || |Written(actions)| > I64_MAX
    ensures |Written(actions)| <= I64_MAX ==> Rebuild(Ordered(Run(actions).rows), []) == Ok(Written(actions))
  {
    if actions == [] {
      assert Legal([]);
      RestartRestores([]);
    } else {
      var n := |actions| - 1;
      var before, written, action := Run(actions[..n]), Written(actions[..n]), actions[n];
      RunsStayConsistent(actions[..n]);
      if action.Restart? {
        RestartIsIdentity(before, written);
      } else if before.Up? {
        PublishKeepsConsistent(before, written, action.envelope, action.reply);
      }
      RestartRestores(Written(actions));
    }
  }

  lemma MemoryIsLegal(actions: seq<Action>)
    requires Run(actions).Up?
    ensures Legal(Run(actions).log) && Run(actions).log <= Written(actions)
  {
    RunsStayConsistent(actions);
    var log, written := Run(actions).log, Written(actions);
    PrefixLegal(written, |log|);
    assert log == written[..|log|];
  }

  /** An acceptable envelope whose insert the database answers is stored, exactly unless an earlier insert of the
      running hub got no answer or the sequence numbers are used up. */
  lemma PublishSucceedsIff(actions: seq<Action>, e: Envelope)
    requires Run(actions).Up? && Decide(Run(actions).log, e) == Ok(true)
    ensures var (log, rows) := (Run(actions).log, Run(actions).rows);
            PublishResult(log, Some(rows), Answered, e).Ok? <==> log == Written(actions) && |log| < U64_MAX
    ensures var after := Step(Run(actions), Publish(e, Answered));
            after.log == Run(actions).log + (if Run(actions).log == Written(actions) && |Run(actions).log| < U64_MAX
                                             then [e] else [])
  {
    RunsStayConsistent(actions);
    var system := Run(actions);
    if system.log == Written(actions) {
      PublishInStep(system, e, Answered);
      InsertAccepted(system.log, e);
    } else {
      PublishOutOfStep(system, Written(actions), e, Answered);
    }
  }

  /** The hub over this reply, or none, is in the state of the machine. */
  ghost predicate InState(pool: FeedDatabase, hub: WalletFeedHub?, system: System)
    reads pool, hub, if hub == null then {} else {hub.projection}
  {
    && pool.rows == system.rows && (hub == null <==> system.Down?)
    && (hub != null ==> hub.pool == pool && hub.projection.Valid() && hub.projection.log == system.log)
  }

  /** One action: a start from the reply, or a publish by the running hub. */
  method DriveStep(pool: FeedDatabase, hub: WalletFeedHub?, ghost system: System, action: Action)
    returns (next: WalletFeedHub?)
    requires InState(pool, hub, system)
    modifies pool, hub
    ensures InState(pool, next, Step(system, action))
    ensures next != null ==> (next == hub || fresh(next))
                             && (fresh(next.projection) || (next == hub && next.projection == old(hub.projection)))
  {
    next := hub;
    match action {
      case Restart(databaseUp) =>
        var start := FromPool(pool, databaseUp, {});
        next := if start.Ok? then start.value else null;
      case Publish(e, reply) =>
        if hub != null {
          var _ := hub.Publish(e, reply);
        }
    }
  }

  lemma RunStep(actions: seq<Action>, i: nat)
    requires i < |actions|
    ensures Run(actions[..i + 1]) == Step(Run(actions[..i]), actions[i])
  {
    assert actions[..i + 1][..i] == actions[..i];
  }

  /** The code and the machine: a reply, and hubs started from it one after the other, go through these actions
      as the machine does. */
  method DriveHub(actions: seq<Action>) returns (pool: FeedDatabase, hub: WalletFeedHub?)
    ensures fresh(pool) && InState(pool, hub, Run(actions))
  {
    pool := new FeedDatabase();
    var start := FromPool(pool, true, {});
    hub := if start.Ok? then start.value else null;
    ghost var system := Run([]);
    for i := 0 to |actions|
      invariant fresh(pool) && (hub != null ==> fresh(hub) && fresh(hub.projection))
      invariant system == Run(actions[..i]) && InState(pool, hub, system)
    {
      hub := DriveStep(pool, hub, system, actions[i]);
      system := Step(system, actions[i]);
      RunStep(actions, i);
    }
    assert actions[..|actions|] == actions;
  }

  // ---- Replicas -------------------------------------------------------------

  /** How a consumer that holds the first `n` envelopes of a hub answers any of the hub's envelopes. */
  lemma PrefixAnswers(hub: Log, n: nat, i: nat)
    requires Legal(hub) && |hub| <= U64_MAX && n <= |hub| && i < |hub|
    ensures Decide(hub[..n], hub[i]) == if i < n then Ok(false) else if i == n then Ok(true) else Err(NotContiguous)
    ensures Apply(hub[..n], hub[i]) == if i == n then hub[..n + 1] else hub[..n]
  {
    var consumer := hub[..n];
    assert AcceptedAt(hub, i);
    LegalNumbered(hub);
    DecidedNumber(hub[..i], hub[i]);
    if i < n {
      PrefixLegal(hub, n);
      PositionInverts(consumer, i);
    } else if i == n {
      assert hub[..n] + [hub[n]] == hub[..n + 1];
    } else {
      assert Position(consumer, hub[i].observationId).None? by {
        assert forall j :: 0 <= j < n ==> consumer[j] == hub[j];
      }
    }
  }

  /** How far a consumer at `n` gets by receiving the hub's envelopes at these positions. */
  function Progress(n: nat, deliveries: seq<nat>): nat
    decreases |deliveries|
  {
    if deliveries == [] then n
    else Progress(if deliveries[0] == n then n + 1 else n, deliveries[1..])
  }

  /** The envelopes of the hub at these positions. */
  function Delivered(hub: Log, deliveries: seq<nat>): (r: seq<Envelope>)
    requires forall i :: 0 <= i < |deliveries| ==> deliveries[i] < |hub|
    ensures |r| == |deliveries|
  {
    if deliveries == [] then [] else [hub[deliveries[0]]] + Delivered(hub, deliveries[1..])
  }

  /** Whatever a subscriber loses, receives twice or receives late, it holds an exact prefix of
      the hub's log, and its length is determined by the deliveries alone. */
  lemma {:induction false} LossyReplicaHoldsPrefix(hub: Log, n: nat, deliveries: seq<nat>)
    requires Legal(hub) && |hub| <= U64_MAX && n <= |hub|
    requires forall i :: 0 <= i < |deliveries| ==> deliveries[i] < |hub|
    ensures n <= Progress(n, deliveries) <= |hub|
    ensures ApplyAll(hub[..n], Delivered(hub, deliveries)) == hub[..Progress(n, deliveries)]
    decreases |deliveries|
  {
    if deliveries != [] {
      var d, rest := deliveries[0], deliveries[1..];
      PrefixAnswers(hub, n, d);
      LossyReplicaHoldsPrefix(hub, if d == n then n + 1 else n, rest);
      var es := Delivered(hub, deliveries);
      assert es[0] == hub[d] && es[1..] == Delivered(hub, rest);
    }
  }

  /** Applying the hub's log from any earlier point onwards completes a consumer. */
  lemma {:induction false} SuffixCompletes(hub: Log, n: nat, j: nat)
    requires Legal(hub) && |hub| <= U64_MAX && j <= n <= |hub|
    ensures ApplyAll(hub[..n], hub[j..]) == hub
    decreases |hub| - j
  {
    if j < |hub| {
      PrefixAnswers(hub, n, j);
      assert hub[j..][0] == hub[j] && hub[j..][1..] == hub[j + 1..];
      SuffixCompletes(hub, if j == n then n + 1 else n, j + 1);
    } else {
      assert hub[..n] == hub && hub[j..] == [];
    }
  }

  /** Convergence: after any lossy reception, one `since(j)` with j at or below the consumer's
      last sequence makes it equal to the hub. */
  lemma SinceConverges(hub: Log, deliveries: seq<nat>, j: u64)
    requires Legal(hub) && |hub| <= U64_MAX
    requires forall i :: 0 <= i < |deliveries| ==> deliveries[i] < |hub|
    requires j <= |ApplyAll([], Delivered(hub, deliveries))|
    ensures ApplyAll(ApplyAll([], Delivered(hub, deliveries)), SinceOf(hub, j)) == hub
  {
    LossyReplicaHoldsPrefix(hub, 0, deliveries);
    assert hub[..0] == [];
    var n := Progress(0, deliveries);
    if j < U64_MAX {
      SuffixCompletes(hub, n, j);
    } else {
      SuffixCompletes(hub, n, U64_MAX - 1);
    }
  }

  lemma {:induction false} ApplyAllGrowth(log: Log, es: seq<Envelope>)
    ensures |ApplyAll(log, es)| <= |log| + |es|
    decreases |es|
  {
    if es != [] { ApplyAllGrowth(Apply(log, es[0]), es[1..]); }
  }

  /** `since(0)` gives a new consumer the whole feed exactly until sequence numbers saturate. */
  lemma FullReplayIsExact(hub: Log)
    requires Legal(hub)
    ensures ApplyAll([], SinceOf(hub, 0)) == hub <==> |hub| <= U64_MAX
  {
    assert Held(hub)[0..] == Held(hub);
    if |hub| <= U64_MAX {
      SuffixCompletes(hub, 0, 0);
      assert hub[..0] == [] && hub[0..] == hub;
    } else {
      ApplyAllGrowth([], SinceOf(hub, 0));
    }
  }

  // ---- Finality -------------------------------------------------------------

  lemma {:induction false} LatestIsNewest(log: Log, i: nat, key: string)
    requires i < |log| && KeyOf(log[i]) == key && forall j :: i < j < |log| ==> KeyOf(log[j]) != key
    ensures LatestFinality(log, key) == Some(log[i].finality)
  {
    if i < |log| - 1 { LatestIsNewest(log[..|log| - 1], i, key); }
  }

  /** The newest envelope before `j` with its key. */
  lemma NewestBefore(log: Log, i: nat, j: nat) returns (m: nat)
    requires i < j < |log| && KeyOf(log[i]) == KeyOf(log[j])
    ensures i <= m < j && KeyOf(log[m]) == KeyOf(log[j])
    ensures forall k :: m < k < j ==> KeyOf(log[k]) != KeyOf(log[j])
  {
    m := j - 1;
    while KeyOf(log[m]) != KeyOf(log[j])
      invariant i <= m < j
      invariant forall k :: m < k < j ==> KeyOf(log[k]) != KeyOf(log[j])
      decreases m - i
    {
      m := m - 1;
    }
  }

  lemma OneStepFinality(log: Log, m: nat, j: nat)
    requires Legal(log) && m < j < |log| && KeyOf(log[m]) == KeyOf(log[j])
    requires forall k :: m < k < j ==> KeyOf(log[k]) != KeyOf(log[j])
    ensures log[j].reorg.Some? || FinalityRank(log[m].finality) <= FinalityRank(log[j].finality)
  {
    assert AcceptedAt(log, j);
    LatestIsNewest(log[..j], m, KeyOf(log[j]));
  }

  /** Finality safety: the finality under a key drops between two accepted envelopes only if some
      envelope of that key after the first, up to the second, is a reorg replacement. */
  lemma {:induction false} FinalityDropsOnlyByReorg(log: Log, i: nat, j: nat)
    requires Legal(log) && i < j < |log| && KeyOf(log[i]) == KeyOf(log[j])
    requires FinalityRank(log[j].finality) < FinalityRank(log[i].finality)
    ensures exists k :: i < k <= j && KeyOf(log[k]) == KeyOf(log[j]) && log[k].reorg.Some?
    decreases j
  {
    var m := NewestBefore(log, i, j);
    OneStepFinality(log, m, j);
    if log[j].reorg.None? {
      FinalityDropsOnlyByReorg(log, i, m);
    }
  }

  /** In every run of the hub, the finality under a key drops only by a reorg replacement of that key. */
  lemma RunsKeepFinality(actions: seq<Action>, i: nat, j: nat)
    requires Run(actions).Up? && i < j < |Run(actions).log|
    requires KeyOf(Run(actions).log[i]) == KeyOf(Run(actions).log[j])
    requires FinalityRank(Run(actions).log[j].finality) < FinalityRank(Run(actions).log[i].finality)
    ensures var log := Run(actions).log;
            exists k :: i < k <= j && KeyOf(log[k]) == KeyOf(log[j]) && log[k].reorg.Some?
  {
    MemoryIsLegal(actions);
    FinalityDropsOnlyByReorg(Run(actions).log, i, j);
  }

  /** The finality last accepted for the event that an envelope reports. */
  function LatestOfEvent(log: Log, e: Envelope): Option<Finality> {
    if log == [] then None
    else if SameEvent(log[|log| - 1], e) then Some(log[|log| - 1].finality)
    else LatestOfEvent(log[..|log| - 1], e)
  }

  /** A log whose chains are all told apart from the envelope's. */
  ghost predicate ToldApart(log: Log, e: Envelope) {
    forall i :: 0 <= i < |log| ==>
      Apart(log[i].chainId, e.chainId) && (log[i].chainId == e.chainId ==> log[i].network == e.network)
  }

  /** On such logs finality is tracked by events, as the rejection says: an envelope is refused for regressing
      exactly if its own event was last accepted with a higher finality. */
  lemma {:induction false} RegressionIsOfEvent(log: Log, e: Envelope)
    requires ToldApart(log, e)
    ensures LatestFinality(log, KeyOf(e)) == LatestOfEvent(log, e)
    ensures Regresses(log, e) <==>
            e.reorg.None? && LatestOfEvent(log, e).Some?
            && FinalityRank(e.finality) < FinalityRank(LatestOfEvent(log, e).value)
  {
    if log != [] {
      var last := log[|log| - 1];
      ApartKeepsKeys(last.chainId, last.event.transactionId, last.event.logIndex,
                     e.chainId, e.event.transactionId, e.event.logIndex);
      RegressionIsOfEvent(log[..|log| - 1], e);
    }
  }

  /** On others it is not: a first report from one network is refused because of another network's transaction
      of the same id, on a chain id without any ':'. */
  lemma OtherNetworkBlocks()
    ensures var main := Sample("a", 1, "ethereum", Mainnet, "0xtx", Finalized);
            var test := Sample("b", 2, "ethereum", Testnet, "0xtx", Observed);
            && Decide([], main) == Ok(true) && LatestOfEvent([main], test).None?
            && Decide([main], test) == Err(FinalityRegression)
  {
    var main := Sample("a", 1, "ethereum", Mainnet, "0xtx", Finalized);
    var test := Sample("b", 2, "ethereum", Testnet, "0xtx", Observed);
    SampleReports("a", 1, "ethereum", Mainnet, "0xtx", Finalized);
    SampleReports("b", 2, "ethereum", Testnet, "0xtx", Observed);
    assert Position([main], "b").None?;
    assert KeyOf(main) == KeyOf(test);
    assert LatestFinality([main], KeyOf(test)) == Some(Finalized);
  }

  /** Every accepted reorg replacement retracts an earlier envelope of the same chain and network,
      from above the common ancestor. */
  lemma ReorgsReplaceEarlier(log: Log, i: nat)
    requires Legal(log) && |log| <= U64_MAX && i < |log| && log[i].reorg.Some?
    ensures exists j :: 0 <= j < i
              && log[j].observationId == log[i].reorg.value.replacedObservationId
              && log[j].chainId == log[i].chainId && log[j].network == log[i].network
              && log[i].reorg.value.commonAncestor.height < log[j].observedBlock.height
  {
    assert AcceptedAt(log, i);
    var before := log[..i];
    assert CheckReplacement(before, log[i]).Ok?;
    var j := Position(before, log[i].reorg.value.replacedObservationId).value;
    assert before[j] == log[j];
  }
}
