/** Whole passes over a steady connection: first runs, re-runs, corrections, and growing feeds. */
module IngestPasses {
  import opened Words
  import opened Wrappers
  import opened Databases
  import opened Text
  import opened Records
  import opened Schema
  import opened ObservationSpec
  import opened ObservationInvariant
  import opened PitekaSigning
  import opened PitekaFeeds
  import opened PitekaPaging
  import opened Ingestion
  import opened IngestTheorems
  import opened IngestExact

  // ---- Prerequisites --------------------------------------------------------

  /** An ignored conflict leaves the tables as they were; otherwise the registration took place. */
  lemma RegisteredEither(t: Tables, outcome: Outcome, stop: Stop, t': Tables)
    requires Registered(t, outcome, stop) == Ok(t')
    ensures outcome == Ok(t') || (outcome.Err? && Tolerated(outcome.error) && t' == t)
  {
  }

  lemma RetentionPresent(t: Tables, r: RetentionClass)
    requires r.schemaVersion == 1 && r.retainForSeconds.None?
    ensures var o := RegisterRetentionClass(t, r);
            && (o.Ok? ==> r.retentionClassId in o.value.retentionClasses && o.value.runs == t.runs)
            && (o.Err? && Tolerated(o.error) ==> r.retentionClassId in t.retentionClasses)
  {
  }

  lemma SourcePresent(t: Tables, r: Source)
    requires r.schemaVersion == 1 && r.retentionClassId in t.retentionClasses
    ensures var o := RegisterSource(t, r);
            && (o.Ok? ==> r.sourceId in o.value.sources && o.value.runs == t.runs)
            && (o.Err? && Tolerated(o.error) ==> r.sourceId in t.sources)
  {
  }

  /** A tolerated run registration leaves the run registered, except from a clock reading of 0. */
  lemma RunPresentIff(t: Tables, r: CollectionRun)
    requires r.schemaVersion == 1 && r.sourceId in t.sources && r.completedAt.None?
    ensures var o := RegisterRun(t, r);
            && (o.Ok? ==> r.collectionRunId in o.value.runs && r.startedAt > 0)
            && (o.Err? && Tolerated(o.error) && r.startedAt > 0 ==> r.collectionRunId in t.runs)
  {
  }

  lemma StepRegisters(before: Tables, t: Tables, reply: Reply, outcome: Outcome) returns (next: Tables)
    requires Registers(before, t) && t.hints == before.hints && OnlyRegisters(t, outcome)
    ensures var r := Registered(t, Attempted(reply, outcome), PrerequisiteFailed);
            next == if r.Ok? then r.value else Left(reply, t, outcome)
    ensures Registers(before, next) && next.hints == before.hints
  {
    var r := Registered(t, Attempted(reply, outcome), PrerequisiteFailed);
    return if r.Ok? then r.value else Left(reply, t, outcome);
  }

  /** Every way the prerequisites can go only registers. */
  lemma PreparedRegisters(t: Tables, retention: RetentionClass, source: Source, run: CollectionRun, uptime: Uptime)
    ensures var t' := Prepare(t, retention, source, run, uptime).tables;
            Registers(t, t') && t'.hints == t.hints
  {
    RetentionClassOnlyRegisters(t, retention);
    var first := RegisterRetentionClass(t, retention);
    var t1 := StepRegisters(t, t, uptime.retentionClass, first);
    if Registered(t, Attempted(uptime.retentionClass, first), PrerequisiteFailed).Ok? {
      SourceOnlyRegisters(t1, source);
      var second := RegisterSource(t1, source);
      var t2 := StepRegisters(t, t1, uptime.source, second);
      if Registered(t1, Attempted(uptime.source, second), PrerequisiteFailed).Ok? {
        RunOnlyRegisters(t2, run);
        var t3 := StepRegisters(t, t2, uptime.run, RegisterRun(t2, run));
      }
    }
  }

  /** Prerequisites that do not fail leave the source registered, whatever was there before, and the run
      exactly if the clock read more than 0 or the run was there already: a failed CHECK is tolerated too. */
  lemma PreparedStore(t: Tables, retention: RetentionClass, source: Source, run: CollectionRun)
    requires Prepare(t, retention, source, run).stop.None?
    requires retention.schemaVersion == 1 && retention.retainForSeconds.None?
    requires source.schemaVersion == 1 && source.retentionClassId == retention.retentionClassId
    requires run.schemaVersion == 1 && run.sourceId == source.sourceId && run.completedAt.None?
    ensures var t' := Prepare(t, retention, source, run).tables;
            && source.sourceId in t'.sources
            && (run.collectionRunId in t'.runs <==> run.startedAt > 0 || run.collectionRunId in t.runs)
  {
    var t1 := Registered(t, RegisterRetentionClass(t, retention), PrerequisiteFailed).value;
    RetentionPresent(t, retention);
    RegisteredEither(t, RegisterRetentionClass(t, retention), PrerequisiteFailed, t1);
    var t2 := Registered(t1, RegisterSource(t1, source), PrerequisiteFailed).value;
    SourcePresent(t1, source);
    RegisteredEither(t1, RegisterSource(t1, source), PrerequisiteFailed, t2);
    var t3 := Registered(t2, RegisterRun(t2, run), PrerequisiteFailed).value;
    RunPresentIff(t2, run);
    RunOnlyRegisters(t2, run);
    RegisteredEither(t2, RegisterRun(t2, run), PrerequisiteFailed, t3);
  }

  function Prepared(config: Config, t: Tables, startedAt: u64): State {
    Prepare(t, RetentionOf(config), SourceOf(config), RunOf(config, startedAt))
  }

  /** An error of these statements stops a pass exactly if it is a validation failure. */
  ghost predicate FailsIf(outcome: Outcome, invalid: bool) {
    outcome.Err? && !Tolerated(outcome.error) <==> invalid
  }

  lemma RetentionFailsIf(t: Tables, r: RetentionClass)
    requires r.schemaVersion == 1 && r.retainForSeconds.None?
    ensures FailsIf(RegisterRetentionClass(t, r), !StorageText(r.retentionClassId) || !StorageText(r.purpose))
  {
  }

  lemma SourceFailsIf(t: Tables, r: Source)
    requires r.schemaVersion == 1
    ensures FailsIf(RegisterSource(t, r),
              !StorageText(r.sourceId) || !StorageText(r.connectorKind) || !StorageText(r.displayName))
  {
  }

  lemma RunFailsIf(t: Tables, r: CollectionRun)
    requires r.schemaVersion == 1 && r.completedAt.None?
    ensures FailsIf(RegisterRun(t, r),
                    !StorageText(r.collectionRunId) || !StorageText(r.sourceId) || r.startedAt > I64_MAX)
  {
  }

  lemma PurposeIsText(config: Config)
    ensures StorageText(RetentionOf(config).purpose)
  {
    PlainText(RetentionOf(config).purpose);
  }

  lemma LabelsAreText(config: Config)
    ensures StorageText(SourceOf(config).connectorKind) && StorageText(SourceOf(config).displayName)
  {
    PlainText(SourceOf(config).connectorKind);
    PlainText(SourceOf(config).displayName);
  }

  /** Ids that the repository accepts, and a clock reading that fits SQLite. */
  predicate Startable(config: Config, startedAt: u64) {
    && StorageText(config.retentionClassId) && StorageText(config.sourceId) && StorageText(config.collectionRunId)
    && startedAt <= I64_MAX
  }

  /** Whether the prerequisites fail depends on the configuration and the clock, never on the store. */
  lemma PreparedIff(config: Config, t: Tables, startedAt: u64)
    ensures Prepared(config, t, startedAt).stop.None? <==> Startable(config, startedAt)
  {
    PurposeIsText(config);
    LabelsAreText(config);
    RetentionFailsIf(t, RetentionOf(config));
    var t1 := Registered(t, RegisterRetentionClass(t, RetentionOf(config)), PrerequisiteFailed);
    if t1.Ok? {
      SourceFailsIf(t1.value, SourceOf(config));
      var t2 := Registered(t1.value, RegisterSource(t1.value, SourceOf(config)), PrerequisiteFailed);
      if t2.Ok? { RunFailsIf(t2.value, RunOf(config, startedAt)); }
    }
  }

  /** The run is registered once the prerequisites are. */
  predicate RunReady(config: Config, t: Tables, startedAt: u64) {
    startedAt > 0 || config.collectionRunId in t.runs
  }

  /** What the prerequisites of a pass leave: its source always, its run exactly unless a clock reading of 0
      loses it. */
  lemma PreparedRunIff(config: Config, t: Tables, startedAt: u64)
    requires Inv(t) && Startable(config, startedAt)
    ensures var t' := Prepared(config, t, startedAt).tables;
            && Inv(t') && Registers(t, t') && config.sourceId in t'.sources
            && (config.collectionRunId in t'.runs <==> RunReady(config, t, startedAt))
  {
    PreparedIff(config, t, startedAt);
    PreparedRegisters(t, RetentionOf(config), SourceOf(config), RunOf(config, startedAt), ALWAYS);
    PrerequisiteKeepsInv(t, Prepared(config, t, startedAt).tables);
    PreparedStore(t, RetentionOf(config), SourceOf(config), RunOf(config, startedAt));
  }

  // ---- Passes ---------------------------------------------------------------

  /** A pass over an honest server and a steady connection, given turns enough to return. */
  function SteadyPass(p: Primitives, config: Config, feed: seq<SignedExport>, t: Tables, startedAt: u64): State {
    Pass(p, config, Honest(feed, |feed| + 1), t, startedAt)
  }

  lemma {:induction false} AfterIsShort(feed: seq<SignedExport>, n: u64)
    ensures |After(feed, n)| <= |feed|
  {
    if feed != [] { AfterIsShort(feed[1..], n); }
  }

  lemma HonestDrainIsFinal(p: Primitives, config: Config, feed: seq<SignedExport>, t: Tables, n: nat, k: nat)
    requires |feed| < n <= k
    ensures var drained := Drain(p, config, Honest(feed, n), DISCOVERY_LIMIT, t, NOTHING, None);
            drained.stop != Some(Unfinished)
              && Drain(p, config, Honest(feed, k), DISCOVERY_LIMIT, t, NOTHING, None) == drained
  {
    AfterIsShort(feed, Position(config, None));
    HonestDrainReturns(p, config, feed, DISCOVERY_LIMIT, t, NOTHING, None, n, k);
  }

  lemma PreparationReturns(config: Config, t: Tables, startedAt: u64)
    ensures Prepared(config, t, startedAt).stop != Some(Unfinished)
  {
  }

  /** More turns make no difference to it. */
  lemma SteadyPassIsFinal(p: Primitives, config: Config, feed: seq<SignedExport>, t: Tables, startedAt: u64, k: nat)
    requires |feed| < k
    ensures Pass(p, config, Honest(feed, k), t, startedAt) == SteadyPass(p, config, feed, t, startedAt)
    ensures SteadyPass(p, config, feed, t, startedAt).stop != Some(Unfinished)
  {
    PreparationReturns(config, t, startedAt);
    HonestDrainIsFinal(p, config, feed, Prepared(config, t, startedAt).tables, |feed| + 1, k);
  }

  /** Nothing of this source and none of the feed's observation ids is stored yet. */
  ghost predicate Untouched(v: View, t: Tables) {
    && OfSource(t, v.config.sourceId) == {} && v.config.sourceId !in t.cursors
    && forall i :: 0 <= i < |v.feed| ==> ObservationId(v.feed[i]) !in t.observations
  }

  /** A store before the first pass (then n is 0), or one that mirrors n exports. */
  ghost predicate StoreAt(v: View, t: Tables, n: nat) {
    Inv(t) && n <= |v.feed| && (Mirrors(v, t, n) || (n == 0 && Untouched(v, t)))
  }

  lemma PreparedMirrors(v: View, t: Tables, t': Tables, n: nat)
    requires StoreAt(v, t, n) && Inv(t') && Registers(t, t')
    requires v.config.sourceId in t'.sources && v.config.collectionRunId in t'.runs
    ensures Mirrors(v, t', n)
  {
    if Mirrors(v, t, n) {
      RegisteredMirrors(v, t, t', n);
    } else {
      assert OfSource(t', v.config.sourceId) == OfSource(t, v.config.sourceId);
    }
  }

  /** A prepared pass processes the whole feed, export by export. */
  lemma PassProcesses(p: Primitives, config: Config, feed: seq<SignedExport>, t: Tables, startedAt: u64)
    requires WellFormedFeed(p, config, feed) && Startable(config, startedAt)
    ensures SteadyPass(p, config, feed, t, startedAt)
         == ProcessAll(p, config, Prepared(config, t, startedAt).tables, NOTHING, RawsOf(p, config, feed[0..]))
  {
    PreparedIff(config, t, startedAt);
    FeedLength(p, config, feed);
    DrainIsBatchFree(p, config, feed, DISCOVERY_LIMIT, Prepared(config, t, startedAt).tables, NOTHING, 0, |feed| + 1);
  }

  /** The exact outcome of a pass, for every well-formed feed and every store that previous passes
      can have left: it stops with an error at the first stuck export at or after n and succeeds if
      there is none; the source then holds exactly the accepted exports before that point. */
  lemma PassIsExact(p: Primitives, config: Config, feed: seq<SignedExport>, t: Tables, startedAt: u64, n: nat)
    requires RoundTrips(p, feed) && WellFormedFeed(p, config, feed)
    requires StoreAt(ViewOf(p, config, feed), t, n)
    requires Startable(config, startedAt) && RunReady(config, t, startedAt)
    ensures Reached(ViewOf(p, config, feed), Prepared(config, t, startedAt).tables, NOTHING, n, 0,
                    SteadyPass(p, config, feed, t, startedAt))
  {
    var v, ready := ViewOf(p, config, feed), Prepared(config, t, startedAt).tables;
    PreparedRunIff(config, t, startedAt);
    PreparedMirrors(v, t, ready, n);
    PassProcesses(p, config, feed, t, startedAt);
    ProcessFeed(p, config, feed, ready, NOTHING, n, 0);
  }

  /** A pass over the feed succeeds if and only if no export at or after the mirrored prefix is stuck. */
  lemma PassSucceedsIff(p: Primitives, config: Config, feed: seq<SignedExport>, t: Tables, startedAt: u64, n: nat)
    requires RoundTrips(p, feed) && WellFormedFeed(p, config, feed)
    requires StoreAt(ViewOf(p, config, feed), t, n)
    requires Startable(config, startedAt) && RunReady(config, t, startedAt)
    ensures SteadyPass(p, config, feed, t, startedAt).stop.None? <==>
            forall i :: n <= i < |feed| ==> !Stuck(ViewOf(p, config, feed), i)
  {
    PassIsExact(p, config, feed, t, startedAt, n);
  }

  /** Idempotence: once a pass has succeeded, another pass, whatever the clock then reads, persists
      nothing, finds every accepted export again, and changes no observation, reference, edge or cursor. */
  lemma SecondPassChangesNothing(p: Primitives, config: Config, feed: seq<SignedExport>, t: Tables, startedAt: u64,
                                 n: nat, restartedAt: u64)
    requires RoundTrips(p, feed) && WellFormedFeed(p, config, feed)
    requires StoreAt(ViewOf(p, config, feed), t, n)
    requires Startable(config, startedAt) && RunReady(config, t, startedAt)
    requires SteadyPass(p, config, feed, t, startedAt).stop.None?
    requires Startable(config, restartedAt)
    ensures var first := SteadyPass(p, config, feed, t, startedAt);
            var second := SteadyPass(p, config, feed, first.tables, restartedAt);
            && second.stop.None? && second.summary.persisted == 0
            && second.summary.duplicates == AcceptedCount(ViewOf(p, config, feed), 0, |feed|)
            && SameEvidence(first.tables, second.tables)
  {
    var v := ViewOf(p, config, feed);
    var first := SteadyPass(p, config, feed, t, startedAt);
    PassIsExact(p, config, feed, t, startedAt, n);
    ReachedEnd(v, Prepared(config, t, startedAt).tables, n, first);
    PassIsExact(p, config, feed, first.tables, restartedAt, |feed|);
    ReachedAgain(v, Prepared(config, first.tables, restartedAt).tables,
        SteadyPass(p, config, feed, first.tables, restartedAt));
    PreparedRunIff(config, first.tables, restartedAt);
  }

  lemma ReachedEnd(v: View, t: Tables, n: nat, out: State)
    requires n <= |v.feed| && Reached(v, t, NOTHING, n, 0, out) && out.stop.None?
    ensures StoreAt(v, out.tables, |v.feed|) && v.config.collectionRunId in out.tables.runs
  {
  }

  lemma ReachedAgain(v: View, t: Tables, out: State)
    requires Reached(v, t, NOTHING, |v.feed|, 0, out)
    ensures out.stop.None? && out.summary.persisted == 0 && SameEvidence(t, out.tables)
    ensures out.summary.duplicates == AcceptedCount(v, 0, |v.feed|)
  {
  }

  /** An authenticated correction stops a first pass right there: the exports before it are stored, it
      and everything after it are not, although its predecessor may be. */
  lemma PassStopsAtCorrection(p: Primitives, config: Config, feed: seq<SignedExport>, t: Tables, startedAt: u64,
                              n: nat, k: nat)
    requires RoundTrips(p, feed) && WellFormedFeed(p, config, feed)
    requires StoreAt(ViewOf(p, config, feed), t, n) && n <= k < |feed|
    requires Startable(config, startedAt) && RunReady(config, t, startedAt)
    requires Accepted(p, config, feed[k]) && feed[k].supersedes.Some?
    requires forall i :: n <= i < k ==> !Stuck(ViewOf(p, config, feed), i)
    ensures var out := SteadyPass(p, config, feed, t, startedAt);
            && out.stop == Some(PersistFailed) && Mirrors(ViewOf(p, config, feed), out.tables, k)
            && ObservationId(feed[k]) !in out.tables.observations
  {
    var v := ViewOf(p, config, feed);
    assert Stuck(v, k);
    FirstStuckIs(v, n, k);
    PassIsExact(p, config, feed, t, startedAt, n);
  }

  lemma {:induction false} FirstStuckIs(v: View, n: nat, k: nat)
    requires n <= k < |v.feed| && Stuck(v, k) && forall i :: n <= i < k ==> !Stuck(v, i)
    ensures FirstStuck(v, n) == k
    decreases k - n
  {
    if n < k { FirstStuckIs(v, n + 1, k); }
  }

  /** What a mirroring store reads back: each accepted export as its normalization with sorted
      references, under the source. */
  lemma MirrorReads(p: Primitives, config: Config, feed: seq<SignedExport>, t: Tables, n: nat, i: nat)
    requires RoundTrips(p, feed) && WellFormedFeed(p, config, feed) && n <= |feed|
             && Mirrors(ViewOf(p, config, feed), t, n)
    requires i < n && Accepted(p, config, feed[i])
    ensures ObservationId(feed[i]) in OfSource(t, config.sourceId)
    ensures ReadOption(t, ObservationId(feed[i])) == Some(ReadBack(ObservationOf(p, config, feed[i])))
  {
    var v := ViewOf(p, config, feed);
    ViewIsReady(p, config, feed);
    assert v.Accepts(i);
    assert Kept(v, ShelfOf(t, config.sourceId), i);
    assert FaithfulAt(v, i);
    ReadNamesEvent(t, ObservationId(feed[i]), ReadBack(v.Record(i)));
  }

  /** A mirroring store holds exactly the accepted exports of its source. */
  lemma MirrorContents(p: Primitives, config: Config, feed: seq<SignedExport>, t: Tables, n: nat, id: string)
    requires RoundTrips(p, feed) && WellFormedFeed(p, config, feed) && n <= |feed|
             && Mirrors(ViewOf(p, config, feed), t, n)
    ensures id in OfSource(t, config.sourceId) <==>
            exists i :: 0 <= i < n && Accepted(p, config, feed[i]) && ObservationId(feed[i]) == id
  {
    if id in OfSource(t, config.sourceId) {
      MirrorIds(ViewOf(p, config, feed), ShelfOf(t, config.sourceId), n, id);
    }
    forall i | 0 <= i < n && Accepted(p, config, feed[i])
      ensures ObservationId(feed[i]) in OfSource(t, config.sourceId)
    {
      MirrorReads(p, config, feed, t, n, i);
    }
  }

  lemma MirrorIds(v: View, s: Shelf, n: nat, id: string)
    requires Mirror(v, s, n) && id in s.own
    ensures exists i :: 0 <= i < n && v.Accepts(i) && ObservationId(v.feed[i]) == id
  {
    assert FromPrefix(v, s, n, id);
    var j :| 0 <= j < n && id == ObservationId(v.feed[j]) && Kept(v, s, j);
    assert v.Accepts(j);
  }

  // ---- Growing feeds --------------------------------------------------------

  lemma {:induction false} ClockOfPrefix(v: View, longer: View, n: nat)
    requires v.feed <= longer.feed && v.config == longer.config && v.norm == longer.norm && n <= |v.feed|
    ensures Clock(v, n) == Clock(longer, n)
  {
    if n > 0 { ClockOfPrefix(v, longer, n - 1); }
  }

  /** A store that mirrors a feed mirrors the same prefix after the feed has grown, so the next pass
      takes exactly the new exports. */
  lemma MirrorOfGrowingFeed(v: View, longer: View, t: Tables)
    requires v.feed <= longer.feed && v.config == longer.config && v.norm == longer.norm
    requires Mirrors(v, t, |v.feed|)
    requires forall i :: |v.feed| <= i < |longer.feed| ==> ObservationId(longer.feed[i]) !in t.observations
    ensures Mirrors(longer, t, |v.feed|)
  {
    var s, n := ShelfOf(t, v.config.sourceId), |v.feed|;
    ClockOfPrefix(v, longer, n);
    forall i | 0 <= i < n && longer.Accepts(i) ensures Kept(longer, s, i) {
      assert v.Accepts(i);
      assert Kept(v, s, i);
    }
    forall id | id in s.own ensures FromPrefix(longer, s, n, id) {
      assert FromPrefix(v, s, n, id);
      var j :| 0 <= j < n && id == ObservationId(v.feed[j]) && Kept(v, s, j);
      assert Kept(longer, s, j);
    }
  }
}
