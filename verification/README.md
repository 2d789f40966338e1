# Tuppira: a verified model of the observation plane and its feeds

Tuppira stores source-neutral observations that are corrected only by adding lineage, distributes an
ordered wallet feed that survives crashes, ingests a signed evidence feed, and follows chains block by
block. This project models that logic in Dafny and proves what it promises, over every input, every run
and every reachable state. Nothing is executed.

## What is modelled

**Observation store.** `Schema.dfy` turns each SQL statement of the observation plane into a function from
table contents to an error or new contents; CHECK, UNIQUE, FOREIGN KEY and trigger conditions decide.
`ObservationStore.dfy` is the repository as a class over those tables; `append_observation` takes the
number of statements its connection still executes and whether its commit is acknowledged, so atomicity is
proved for a loss at every point; its reads let others write before each of their statements
(`Databases.dfy` says what can become of one).
`ObservationSpec.dfy` states the invariant and what each read returns, `ObservationInvariant.dfy` its
preservation, `Lineages.dfy` the correction trees, `TenantReads.dfy` round trips, exact tenant reads and
noninterference, `StoreRuns.dfy` all of it over whole runs. A row carries the rowid it got, which orders
insertions. `Records.dfy`, `Text.dfy` and `Utf8.dfy` hold the record validators over texts with UTF-8
lengths, `Sorting.dfy` the order of `ORDER BY`.

**Wallet feed.** `FeedLog.dfy` defines the projection's meaning as a log of accepted envelopes;
`FeedProjection.dfy` is the projection as a class whose three indexes provably agree with that log;
`FeedHub.dfy` publishes to a database first and rebuilds from it; `FeedRuns.dfy` covers crashes and
restarts, lossy subscribers, reconnects, and finality. `saturating_add` and the cast of the sequence to
`i64` are modelled as they are, so the theorems say exactly up to which length they hold.

**Connector, Piteka feed, ingestion.** `Connectors.dfy` is the authenticate-then-normalize gate over any
connector; `PitekaSigning.dfy` the signed message with the parser that inverts it; `PitekaFeeds.dfy` ids,
cursor, discovery, authentication and normalization; `PitekaManifest.dfy` the payload's manifest and its
profile; `PitekaPaging.dfy` paging over an immutable feed. `Ingestion.dfy` is `ingest_piteka`: its
configuration, its three prerequisites, and the drain loop as methods over the repository class, against a
server that may answer each request differently and a connection that may be lost at any statement of any
event; how many turns of the loop a pass gets is a parameter, so a killed pass is one too. On top of it,
`IngestTheorems.dfy` proves conservation and when a drain ends, `IngestExact.dfy` what one event does to a
store that mirrors a prefix of the feed, `IngestPasses.dfy` the exact outcome of undisturbed passes,
`IngestInterruptions.dfy` that histories of interrupted passes change nothing about the next one and what a
lost run costs, `IngestAuthenticity.dfy` end-to-end authenticity. `IngestExample.dfy` is a concrete feed that
meets the theorems' premises and shows their failures. SHA-256, Ed25519 (RFC 8032) and JSON stay
uninterpreted functions; theorems that need it assume that the exports they speak of parse to themselves
after serialization (`Restores`).

**Chain sync.** `ChainSync.dfy` is one pass over a chain with its progress table and the task that polls
with it, `SyncRuns.dfy` the interleaving of many chains at every database write and counter increment. The
loop counter wraps as a u64; how many turns a task gets before it is stopped is a parameter.

**Base64.** `Base64.dfy` is the hand-written encoder against section 4 of RFC 4648, with the shifts and
masks of `Bits.dfy`.

## Where the code and its intentions part

Each of these is stated with the exact condition, not assumed away.

- Corrections cannot be ingested. A correction export gets its own source event id, and the trigger demands
  the predecessor's, so an authenticated export with a superseded id is never appended and ends every pass
  that reaches it (`CorrectionHasItsOwnEvent`, `NextAppendable`, `PassStopsAtCorrection`; a concrete feed in
  `CorrectionIsLost`).
- Exports are persisted only while `emitted_at` strictly increases, because ingestion uses it as the cursor
  time. Together with corrections and times beyond `i64` this is the predicate `Stuck`; a pass succeeds if
  and only if no export beyond the stored prefix is stuck (`PassSucceedsIff`).
- `ignore_conflict` is documented as accepting unique-constraint conflicts; it accepts any error whose text
  contains "constraint", hence failed CHECKs and missing parents as well. `now_seconds` falls back to 0, and
  then the CHECK on the run fails unnoticed: after the prerequisites the run is registered if and only if the
  clock read more than 0 or the run was there before (`PreparedRunIff`). A pass that lost its run stores no
  evidence whatever the server sends (`NothingStoredWithoutRun`) and ends at the first accepted export that
  is not stored (`PassWithoutRun`, concretely `ZeroClockLosesTheRun`). The theorems about exact passes hold
  for every pass that has its run.
- A pass need not end: a server that always has one more export for it, skipped or not, keeps it going from its
  first request on (`PassNeedNotEnd`, concretely `PassGoesOn`). Below `u64::MAX` every turn moves the cursor
  forward, so only there can it go on for ever (`CursorAdvancesIff`, `UnfinishedStands`); over an honest server
  every pass ends (`HonestDrainReturns`).
- `from_pool` restores the log if and only if it has at most `i64::MAX` envelopes (`RestartRestores`);
  replay from `since(0)` is exact if and only if there are at most `u64::MAX` (`FullReplayIsExact`).
- The finality key joins chain id, transaction id and log index with ':' and leaves the network out. It
  identifies the event if and only if neither chain id goes on with ':' after the other and an equal chain id is
  on an equal network (`KeyIdentifiesEvent`, `KeysCanCollide`). Where that holds a regression is one of the
  event (`RegressionIsOfEvent`); where it does not, an event can be refused because of another one, even without
  any ':' (`OtherNetworkBlocks`).
- A publish whose insert takes place without an answer is an error that leaves the row behind. The running hub
  then accepts nothing more until it is started again, and a start brings the envelope back
  (`PublishOutOfStep`, `PublishSucceedsIff`, `RestartIsIdentity`).
- `base + batch_size` wraps; a pass moves if and only if the batch size is positive and does not wrap
  (`PassMovesIff`). The loop counter wraps as well: a pass that aims for block `u64::MAX` starts over at
  block 0 and never ends unless some block fails (`PassEndsIff`). `reindex_from` drops its start block when
  the chain has no configuration (`ReindexFrom`).
- The feed's text checks and the observation plane's id checks differ: a blank but printable id passes the
  first only, and an export that carries one is skipped (`ProfileAcceptedIff`).

## Model

| member | source | states |
|---|---|---|
| `ObservationStore.ObservationRepository.AppendObservation` | storage/src/repositories/observations.rs:86-100 | On a connection lost after any number of statements, the answer to the commit included, an append either happens whole or leaves every table as it was; it is answered Ok exactly if the record and cursor are well-formed, the schema accepts the row, the cursor moves forward and the commit is acknowledged, and otherwise the reason is named |
| `ObservationStore.ObservationRepository.Transact` | storage/src/repositories/observations.rs:95-98 | The transaction commits the observation, its references, its edge and the new cursor together, or nothing, whether or not the commit is acknowledged; the store invariant survives either way |
| `ObservationStore.InsertObservation` | storage/src/repositories/observations.rs:309-342 | The row, one child row per reference and at most one supersession edge, in statement order, stopping where the connection stops |
| `ObservationStore.InsertSubjects` | storage/src/repositories/observations.rs:328-331 | The loop leaves exactly one subject row per reference |
| `ObservationStore.InsertAuthenticityRefs` | storage/src/repositories/observations.rs:332-335 | The loop leaves exactly one authenticity row per reference |
| `ObservationStore.ObservationRepository.InsertRetentionClass` | storage/src/repositories/observations.rs:32-41 | The registration takes place or nothing changes, also when its answer is lost; no evidence is touched and the invariant is kept |
| `ObservationStore.ObservationRepository.InsertSource` | storage/src/repositories/observations.rs:43-52 | The registration takes place or nothing changes, also when its answer is lost; no evidence is touched and the invariant is kept |
| `ObservationStore.ObservationRepository.InsertCollectionRun` | storage/src/repositories/observations.rs:54-67 | The registration takes place or nothing changes, also when its answer is lost; no evidence is touched and the invariant is kept |
| `ObservationStore.ObservationRepository.InsertRawPayloadDescriptor` | storage/src/repositories/observations.rs:69-81 | The registration takes place or nothing changes, also when its answer is lost; no evidence is touched and the invariant is kept |
| `ObservationStore.ObservationRepository.AppendContradictionHint` | storage/src/repositories/observations.rs:265-284 | A hint is stored or nothing changes, also when the answer is lost; a stored hint joins a pair the trigger accepts and leaves the invariant intact |
| `ObservationStore.ObservationRepository.GetObservation` | storage/src/repositories/observations.rs:102-112 | The three statements of a read give the observation as it was at the first of them, whatever others write in between |
| `ObservationStore.ObservationRepository.GetVisibleObservation` | storage/src/repositories/observations.rs:123-138 | The same through the visibility check |
| `ObservationStore.ObservationRepository.ReadEach` | storage/src/repositories/observations.rs:196-200 | The re-reading loop answers as of the time when the ids were listed, whatever others write before each of its statements |
| `ObservationStore.ObservationRepository.VisibleLineage` | storage/src/repositories/observations.rs:142-173 | The read answers as the recursive query and re-reads at the instant of the query would, whatever others write before each statement |
| `ObservationStore.ObservationRepository.ListVisibleObservations` | storage/src/repositories/observations.rs:181-201 | The read answers as the ordered, limited query and re-reads at the instant of the query would, whatever others write before each statement |
| `Schema.InsertedRowExcludes` | storage/migrations/0003_observation_plane.sql:38-124 | An accepted insert adds one row with the next rowid and changes no other; from then on its id is taken, rows of its event need another digest and a stored predecessor, which it may be, and all other rows are judged as before |
| `ObservationInvariant.ExtendKeepsInv` | storage/migrations/0003_observation_plane.sql:38-124 | One accepted row keeps the whole invariant: edges that point back within their event, roots first, digests unique, rows decodable, cursor dominance, sound hints |
| `ObservationInvariant.ExtendedEdgesKeep` | storage/migrations/0003_observation_plane.sql:117-124 | A new edge names the predecessor its row names, an earlier row of the same event |
| `ObservationInvariant.ExtendedRootsKeep` | storage/migrations/0003_observation_plane.sql:111-116 | Only the first row of an event is without predecessor, and no digest repeats within an event |
| `ObservationInvariant.ExtendedCursorsKeep` | storage/src/repositories/observations.rs:344-369 | The advanced cursor stays at or past every observation time and at or past the number of observations of its source |
| `ObservationInvariant.AppendKeepsInv` | storage/src/repositories/observations.rs:86-100 | An accepted append keeps the invariant |
| `ObservationInvariant.HintKeepsInv` | storage/migrations/0004_reconciliation_history.sql:39-54 | An accepted hint joins two sources within one disclosure boundary over a common subject, and keeps the invariant |
| `ObservationInvariant.PrerequisiteKeepsInv` | storage/src/repositories/observations.rs:32-81 | Registrations keep the invariant |
| `StoreRuns.ReachableInv` | storage/migrations/0003_observation_plane.sql:38-132 | Every store reachable by any sequence of appends, interrupted appends, registrations and hints satisfies the invariant |
| `StoreRuns.HistoryIsKept` | storage/migrations/0003_observation_plane.sql:106-110 | Whatever was once read of an observation is read of it after any further operations |
| `StoreRuns.StoredRowsExclude` | storage/migrations/0003_observation_plane.sql:58-124 | In any run, once an observation is stored no later insert of its id is accepted, nor one of its source event that repeats its digest or names no predecessor |
| `StoreRuns.OperationsOnlyAdd` | storage/src/repositories/observations.rs:86-112 | Any operations of the repository may be what others carry out before each statement of a read: they keep every stored observation with its references |
| `StoreRuns.CursorNeverRetreats` | storage/src/repositories/observations.rs:344-355 | No cursor time ever decreases over a run |
| `StoreRuns.AppendsAdvanceCursor` | storage/src/repositories/observations.rs:344-355 | Each append that changed the store strictly increased its source's cursor time, and that increase is never undone |
| `StoreRuns.ReachableCursorDominates` | storage/src/repositories/observations.rs:344-369 | In every reachable store a source's cursor time is at least each of its observation times and at least their number |
| `StoreRuns.ReachableLineageTree` | storage/migrations/0003_observation_plane.sql:107-124 | In every reachable store the observations of one source event form one tree: one root, first inserted, reached by every lineage without repetition, in at most as many steps as there are distinct digests |
| `StoreRuns.ReachableNoninterference` | storage/src/repositories/observations.rs:123-201 | Two reachable stores with the same rows visible to a tenant answer all three tenant reads alike, errors included |
| `Lineages.ReadLineageMeaning` | storage/src/repositories/observations.rs:114-120 | `lineage` fails exactly for a blank id; an id that is not stored is answered alone; otherwise the answer starts at the observation, follows correction edges without repetition and ends at a root of the same source event |
| `Lineages.LineageWalksToRoot` | storage/src/repositories/observations.rs:117-118 | The recursive query goes strictly back in insertion order within one source event, along correction edges, to a root |
| `Lineages.LineageRepeatsNothing` | storage/src/repositories/observations.rs:114-120 | The UNION ALL recursion terminates and returns no id twice |
| `Lineages.LineageOfUnknown` | storage/src/repositories/observations.rs:114-120 | An id that is not stored is its own whole lineage |
| `Lineages.OneRootPerEvent` | storage/migrations/0003_observation_plane.sql:111-116 | All observations of a source event share one root, the first inserted, and no other is a root |
| `Lineages.CorrectionsPointBack` | storage/migrations/0003_observation_plane.sql:117-124 | Every correction supersedes an earlier observation of the same source event |
| `Lineages.LineageBoundedByDigests` | storage/migrations/0003_observation_plane.sql:58 | A lineage is no longer than the number of distinct digests of its event |
| `Lineages.LineageIsPathInTree` | storage/src/repositories/observations.rs:114-120 | Two corrections of one predecessor share its whole lineage: branches only downwards |
| `Lineages.VisibleLineageIsLongestPrefix` | storage/src/repositories/observations.rs:149-161 | The visible query selects exactly the longest prefix of the lineage whose members are all visible, and nothing exactly if the observation itself is hidden |
| `TenantReads.DecodeEncodedRow` | storage/src/repositories/observations.rs:371-424 | Decoding the row written for a valid record restores the record |
| `TenantReads.AppendRoundTrips` | storage/src/repositories/observations.rs:102-112 | An appended record reads back as itself with both reference lists sorted |
| `TenantReads.SortedTextsPermute` | storage/src/repositories/observations.rs:106-109 | Sorted reference lists are permutations of the validated ones, so no reference is lost or repeated |
| `TenantReads.AppendKeepsReads` | storage/src/repositories/observations.rs:86-112 | An append changes what is read of no other observation |
| `TenantReads.ReadVisibleMeaning` | storage/src/repositories/observations.rs:123-138 | On every store satisfying the invariant a tenant read returns the record if it is visible and NotFound if not: no third outcome |
| `TenantReads.VisibleLineageExact` | storage/src/repositories/observations.rs:142-173 | NotFound exactly if no member is visible; otherwise every re-read succeeds and the records are those of the longest visible prefix |
| `TenantReads.ListedIdsMeaning` | storage/src/repositories/observations.rs:187-195 | The listing has the limit's length, visible ids only, newest first, no repetition, and leaves out nothing newer than what it lists |
| `TenantReads.ListExact` | storage/src/repositories/observations.rs:181-201 | Listing for a valid tenant never fails and returns the stored record of each listed id |
| `TenantReads.Noninterference` | storage/src/repositories/observations.rs:123-201 | Equal visible rows imply equal answers of all three reads, whatever the hidden rows, insertion orders, cursors and hints are |
| `TenantReads.HiddenAppendUnseen` | storage/src/repositories/observations.rs:86-201 | Appending another tenant's observation changes no answer, even when it corrects an observation the tenant sees |
| `TenantReads.HintsStayWithinTenant` | storage/migrations/0004_reconciliation_history.sql:44-46 | Whoever sees one side of a stored contradiction hint sees the other |
| `Records.CheckRefsMeaning` | shared/src/observation.rs:398-409 | References pass exactly if at most 128, all well-formed and pairwise distinct |
| `Records.ValidateRefs` | shared/src/observation.rs:398-409 | The scan answers as the specification does |
| `Records.ValidateObservationMeaning` | shared/src/observation.rs:339-371 | A record passes exactly if it is well-formed: version, ids, times, digests, both reference lists, no self-supersession, tenant |
| `Records.ValidateStatusHistory` | shared/src/observation.rs:418-441 | A disclosed history passes exactly if it is non-empty, bounded, well-formed and in time order; a missing one exactly if its reasons are good references |
| `FeedProjection.WalletFeedProjection.Apply` | shared/src/types.rs:657-703 | An envelope is accepted, recognized as a replay or rejected as the accepted log dictates; only acceptance changes anything, and the three indexes still agree with the log |
| `FeedProjection.WalletFeedProjection.Judge` | shared/src/types.rs:658-696 | The checks over the three indexes give the verdict that the log alone defines |
| `FeedProjection.WalletFeedProjection.ReplacementChecked` | shared/src/types.rs:669-684 | The replaced envelope is always found in the index, so the "unavailable" branch cannot be taken |
| `FeedProjection.WalletFeedProjection.Record` | shared/src/types.rs:697-701 | An accepted envelope enters the log and all three indexes |
| `FeedProjection.WalletFeedProjection.Since` | shared/src/types.rs:705-710 | The range query returns exactly the held envelopes after the sequence, in order |
| `FeedProjection.EnvelopesGrow` | shared/src/types.rs:697-701 | Envelope keys are exactly 1 to the last sequence after each acceptance |
| `FeedProjection.SequencesGrow` | shared/src/types.rs:698-699 | The observation index stays the inverse of the log |
| `FeedProjection.FinalityGrows` | shared/src/types.rs:700 | The finality index holds the finality accepted last for each event key |
| `FeedLog.LegalNumbered` | shared/src/types.rs:659-668 | Accepted envelopes are numbered 1, 2, ... (up to saturation) and no observation id occurs twice |
| `FeedLog.PositionInverts` | shared/src/types.rs:698-699 | Looking up an accepted observation finds its own position |
| `FeedLog.ApplyKeepsLegal` | shared/src/types.rs:657-703 | Applying any envelope leaves a log in which each envelope was acceptable when it came |
| `WalletFeed.KeysCoincide` | shared/src/types.rs:685-690 | Two events share a finality key exactly if their log indexes are equal and their joined chain and transaction texts are |
| `WalletFeed.KeyIdentifiesEvent` | shared/src/types.rs:685-690 | The finality key tells the valid envelopes of two chain ids and networks apart by their events exactly if neither chain id goes on with a colon after the other, and an equal chain id is on an equal network |
| `WalletFeed.ColonFreeApart` | shared/src/types.rs:685-690 | Colon-free chain ids are told apart |
| `WalletFeed.KeysCanCollide` | shared/src/types.rs:685-690 | A colon in a chain id can make two different events share a key, but need not: eip155:1 and eip155:5 are told apart |
| `FeedHub.WalletFeedHub.Publish` | api/src/feed.rs:56-77 | The answer, the new log, the rows and what is broadcast are those of the log, the rows, the database reply and the envelope: memory and broadcast advance only on an answered insert |
| `FeedHub.WalletFeedHub.Since` | api/src/feed.rs:79-81 | The answer is the suffix of the log after the sequence |
| `FeedHub.FromPool` | api/src/feed.rs:31-52 | A start succeeds exactly if the database answers, every row still decodes, and the stored envelopes in key order are each acceptable in turn; it then holds the log they rebuild and has broadcast nothing |
| `FeedHub.FeedDatabase.Insert` | api/src/feed.rs:63-71 | An insert takes place exactly if the database carries it out and neither the primary key nor the observation id is taken; its answer may be lost |
| `FeedHub.PersistedRow` | api/src/feed.rs:66 | The row under each cast sequence number is the envelope with that number |
| `FeedHub.InsertConflicts` | api/src/feed.rs:63-71 | The insert of the next accepted envelope conflicts only once all sequence numbers are used up |
| `FeedHub.OrderedPersisted` | api/src/feed.rs:32-35 | While sequences fit i64 the rows in key order are the log |
| `FeedHub.WrappedRowComesFirst` | api/src/feed.rs:66 | Beyond that the cast is negative and a late envelope comes first |
| `FeedHub.RestartRestores` | api/src/feed.rs:31-52 | The rows that publishing wrote can be rebuilt exactly while their number is at most i64::MAX, and then give back the published log |
| `FeedRuns.RunsStayConsistent` | api/src/feed.rs:31-77 | Over any interleaving of publishes (accepted, replayed, rejected, refused by the database, or without its answer) and starts (answered or not) the rows are the written log, a running hub holds that log or lacks its last envelope, and a hub is down only if its last start got no answer or the log exceeds i64::MAX |
| `FeedRuns.RestartIsIdentity` | api/src/feed.rs:31-52 | An answered start of a consistent hub reads back everything written while that fits i64, and fails beyond |
| `FeedRuns.PublishSucceedsIff` | api/src/feed.rs:56-77 | In any run, an acceptable envelope whose insert is answered is stored and accepted exactly if no earlier insert of the running hub went without an answer and sequence numbers remain |
| `FeedRuns.PublishOutOfStep` | api/src/feed.rs:63-71 | After an insert without an answer the hub changes nothing more until it is started again: every acceptable envelope fails to be stored |
| `FeedRuns.DriveHub` | api/src/feed.rs:31-77 | A database and hubs started from it one after the other go through any actions as the machine of the runs does |
| `FeedRuns.PrefixAnswers` | shared/src/types.rs:657-703 | A consumer holding a prefix answers each envelope of the hub by its position alone: replay, next, or not contiguous |
| `FeedRuns.LossyReplicaHoldsPrefix` | api/src/graphql/schema.rs:606-612 | After any losses, repetitions and reorderings a subscriber holds an exact prefix of the hub's log |
| `FeedRuns.SinceConverges` | shared/src/types.rs:705-710 | One `since(j)` with j at or below the consumer's last sequence makes it equal to the hub |
| `FeedRuns.FullReplayIsExact` | shared/src/types.rs:705-710 | `since(0)` gives a new consumer the whole feed exactly until sequence numbers saturate |
| `FeedRuns.FinalityDropsOnlyByReorg` | shared/src/types.rs:691-696 | Between two accepted envelopes of one key the rank drops only if a same-key envelope after the first, up to the second, carries a reorg replacement |
| `FeedRuns.RunsKeepFinality` | shared/src/types.rs:691-696 | The same over whole runs of a durable hub with crashes |
| `FeedRuns.RegressionIsOfEvent` | shared/src/types.rs:685-696 | On logs whose chains are told apart, an envelope is refused for regressing exactly if its own event was last accepted with a higher finality |
| `FeedRuns.OtherNetworkBlocks` | shared/src/types.rs:685-696 | On one chain id without a colon, a first report from one network is refused because of another network's transaction of the same id |
| `FeedRuns.ReorgsReplaceEarlier` | shared/src/types.rs:669-684 | Every accepted reorg replacement retracts an earlier envelope of its chain and network from above the common ancestor |
| `Connectors.CheckBatchMeaning` | indexer/src/connector.rs:114-143 | A batch passes exactly if bounded, owned by its source, each event valid, and no event id repeated |
| `Connectors.ValidateEvents` | indexer/src/connector.rs:127-141 | The loop with its id set reports the first complaint |
| `Connectors.ValidateBatch` | indexer/src/connector.rs:114-143 | The checks answer as the specification does |
| `Connectors.CollectMaterial` | indexer/src/connector.rs:327-339 | The loop collects exactly the ids of usable, unrepeated material or reports the first complaint |
| `Connectors.AuthenticateAndNormalize` | indexer/src/connector.rs:279-352 | The gate answers as the specification does |
| `Connectors.GateIsSound` | indexer/src/connector.rs:279-352 | For any connector an accepted candidate was authenticated, its authenticity references are a permutation of the authenticated material ids, and source, event and visibility are the raw event's |
| `PitekaSigning.ComputeSigningBytes` | indexer/src/piteka_feed.rs:50-94 | The buffer the pushes build is the message of the specification, and the error is the first failed check |
| `PitekaSigning.ParseInvertsMessage` | indexer/src/piteka_feed.rs:75-93 | A parser recovers every signed field from the message of any encodable export |
| `PitekaSigning.SigningBytesInjective` | indexer/src/piteka_feed.rs:50-94 | Equal signed messages mean equal schema version, sequence, export id, revision, superseded id, tenant, time, digest and payload |
| `PitekaFeeds.RevisedInjective` | indexer/src/piteka_feed.rs:561-575 | An id with a revision names one export id and one revision, whatever characters the export id contains |
| `PitekaFeeds.ObservationIdsFollowEvents` | indexer/src/piteka_feed.rs:561-566 | Two exports share an observation id exactly if they share a source event id |
| `PitekaFeeds.CorrectionHasItsOwnEvent` | indexer/src/piteka_feed.rs:561-569 | The event id of a correction is never that of the export it supersedes |
| `PitekaFeeds.CursorRoundTrips` | indexer/src/piteka_feed.rs:576-595 | Every u64 survives the cursor codec |
| `PitekaFeeds.AcceptedCursorsAreCanonical` | indexer/src/piteka_feed.rs:583-595 | Every accepted cursor is the encoding of the sequence it decodes to |
| `PitekaFeeds.WrapExports` | indexer/src/piteka_feed.rs:223-247 | The loop accepts exactly contiguous pages of the configured tenant and wraps each export |
| `PitekaFeeds.Discover` | indexer/src/piteka_feed.rs:210-258 | Discovery over any transport answers as the specification does |
| `PitekaFeeds.GatedExportsAreAuthentic` | indexer/src/piteka_feed.rs:260-346 | Whatever passes the gate decodes to an export signed by the configured key for the configured tenant, and is that export's normalization |
| `PitekaFeeds.AcceptedIff` | indexer/src/connector.rs:279-352 | An export is accepted exactly if it is a valid raw event, signed by the configured key for the configured tenant, and its disclosure makes a well-formed observation with a usable signature id |
| `Connectors.GateOfOne` | indexer/src/connector.rs:279-352 | Once one piece of material is authenticated and the candidate names it, the gate opens exactly if event, candidate and material are valid |
| `PitekaManifest.HexRoundTrips` | indexer/src/piteka_feed.rs:550-559 | Reading the hexadecimal form of any bytes restores them |
| `PitekaManifest.HexDecodesOnlyHex` | indexer/src/piteka_feed.rs:550-559 | A text that reads as bytes is their hexadecimal form up to letter case |
| `PitekaManifest.ReasonsAccountForAbsence` | indexer/src/piteka_feed.rs:537-548 | Absence always carries a reason: exactly the reported ones that name the class, or the default when none does |
| `PitekaManifest.AttestationShownIff` | indexer/src/piteka_feed.rs:481-534 | A valid manifest has a profile unless it lists several attestations, and the profile shows one exactly if it lists one: that node, its digest, never an artifact digest |
| `PitekaManifest.ProfileAcceptedIff` | shared/src/observation.rs:84-132 | The profile of a manifest that passes the feed's checks passes the observation plane's exactly if the manifest has no blank ids, good target references and good matching gap notes |
| `PitekaManifest.AcceptedDisclosure` | indexer/src/piteka_feed.rs:290-346 | An accepted export carries a valid, presentable manifest with at most one attestation, and its observation is about that manifest's mandate and receipt |
| `PitekaPaging.DiscoverSlice` | indexer/src/piteka_feed.rs:210-258 | Over a well-formed feed one discovery returns exactly the next slice and its cursor |
| `PitekaPaging.PagesReadFeed` | indexer/src/piteka_feed.rs:210-258 | Paging with any valid limits reads a contiguous stretch, each export once and in order, and ends at the cursor of its last export |
| `PitekaPaging.BatchSizeIrrelevant` | indexer/src/piteka_feed.rs:210-258 | Any two lists of limits that reach the end read the same events, those of the whole feed |
| `PitekaPaging.EnoughPages` | indexer/src/piteka_feed.rs:210-258 | As many pages as exports left always reach the end |
| `Ingestion.IngestPiteka` | indexer/src/ingest.rs:67-194 | The configuration is checked as the connector and the transport check it, then prerequisites and drain; against any server and connection the method leaves the store, summary and error that the pass specification defines |
| `Ingestion.PreparePrerequisites` | indexer/src/ingest.rs:88-125 | Retention class, source and run in order; tolerated conflicts change nothing and stop nothing, anything else stops the pass there |
| `Ingestion.DrainFeed` | indexer/src/ingest.rs:127-193 | Turn by turn, whatever the server answers and wherever the connection is lost, the loop does what the recursive drain does |
| `Ingestion.ProcessBatch` | indexer/src/ingest.rs:138-184 | The inner loop processes the events one after the other up to the first error |
| `Ingestion.ProcessEvent` | indexer/src/ingest.rs:143-183 | One event is skipped, appended, found again, or ends the pass |
| `Ingestion.PersistCandidate` | indexer/src/ingest.rs:157-183 | Appended, counted as duplicate if it can then be read, or an error, also when the connection is lost at any statement of the append, at the answer to its commit, or at the read |
| `IngestTheorems.CursorAdvancesIff` | indexer/src/ingest.rs:129-190 | Against any server a batch with events moves the cursor by their number up to saturation: forward exactly unless it stands at u64::MAX |
| `IngestTheorems.PassNeedNotEnd` | indexer/src/ingest.rs:127-190 | A server can keep a pass from ending from its first request on: if each export it supplies goes through, the drain is unfinished after any number of turns |
| `IngestTheorems.SkippingNeedNotEnd` | indexer/src/ingest.rs:127-190 | Exports that are skipped are enough, and leave the store as it was |
| `IngestTheorems.UnfinishedStands` | indexer/src/ingest.rs:127-190 | Against any server and connection an unfinished drain has moved a sequence forward with every turn, or stands at u64::MAX: nowhere else can it go on for ever |
| `IngestTheorems.HonestDrainReturns` | indexer/src/ingest.rs:129-190 | Over an honest server of any feed, from any store, a drain returns within one turn more than the feed has exports left, and more turns make no difference |
| `IngestTheorems.DrainConserves` | indexer/src/ingest.rs:127-193 | Against any server and connection, from any store, a drain that returns Ok has exports read = authenticated + skipped and authenticated = persisted + duplicates |
| `IngestTheorems.DrainProcessesEvents` | indexer/src/ingest.rs:127-193 | Against any server and connection a drain that returns Ok has processed exactly the events it read, in order |
| `IngestTheorems.DrainIsBatchFree` | indexer/src/ingest.rs:127-193 | Over a well-formed feed the page size does not matter |
| `IngestExact.NextAppendable` | storage/migrations/0003_observation_plane.sql:107-124 | Over a store that mirrors the first n exports the next accepted one can be appended exactly if it is no correction, its times fit SQLite and its emission time moves the cursor |
| `IngestExact.NextExport` | indexer/src/ingest.rs:138-184 | The next export is skipped, appended, or ends the pass with the store still mirroring n exports |
| `IngestExact.OldExport` | indexer/src/ingest.rs:174-182 | An export of the mirrored prefix is skipped or found again, and no evidence changes |
| `IngestExact.PayloadNeverStops` | indexer/src/ingest.rs:153-155 | The payload descriptor of an accepted export never stops a pass |
| `IngestExact.InterruptedExport` | indexer/src/ingest.rs:138-184 | Whatever the connection does during an event of the mirrored prefix or the next one, an unacknowledged descriptor or commit included, the store goes on mirroring: one export further if the next one was appended, and at least that if it went through |
| `IngestExact.InterruptedStretch` | indexer/src/ingest.rs:138-184 | Processing any stretch that begins within the mirrored prefix, over any connection, leaves a store that mirrors at least as many exports, none of them stuck, and all of the stretch if nothing stopped it |
| `IngestPasses.PreparedIff` | indexer/src/ingest.rs:88-125 | On a steady connection, whether the prerequisites fail depends on configuration texts and clock range, never on the store |
| `IngestPasses.PreparedRunIff` | indexer/src/ingest.rs:88-125 | Prerequisites that do not fail leave the source registered, and the run exactly if the clock read more than 0 or the run was there before |
| `IngestPasses.SteadyPassIsFinal` | indexer/src/ingest.rs:127-193 | An undisturbed pass over an immutable feed returns, and further turns would not change it |
| `IngestPasses.PassIsExact` | indexer/src/ingest.rs:127-193 | An undisturbed pass that has its run leaves exactly the accepted exports before the first stuck one, fails exactly if there is one, and counts exactly the new and the old ones |
| `IngestPasses.PassSucceedsIff` | indexer/src/ingest.rs:127-193 | Such a pass returns Ok if and only if no export beyond the mirrored prefix is stuck |
| `IngestPasses.SecondPassChangesNothing` | indexer/src/ingest.rs:65-66 | After a successful pass another one, whatever its clock reads, persists nothing, finds every accepted export again and changes no observation, reference, edge or cursor |
| `IngestPasses.PassStopsAtCorrection` | indexer/src/piteka_feed.rs:561-569 | The first authenticated correction ends the pass with an error: the exports before it are stored, it is not |
| `IngestPasses.MirrorContents` | indexer/src/ingest.rs:127-193 | A mirroring store holds exactly the accepted exports of its source |
| `IngestPasses.MirrorReads` | indexer/src/ingest.rs:166-173 | Each of them reads back as its normalization with sorted references |
| `IngestPasses.MirrorOfGrowingFeed` | indexer/src/ingest.rs:65-66 | When the feed grows the store mirrors the same prefix, so the next pass takes exactly the new exports |
| `IngestAuthenticity.PassStoresOnlyAuthentic` | indexer/src/ingest.rs:138-184 | Against any server and connection, whatever the store and the outcome, an observation that a pass adds was delivered, in answer to one of its own requests, as bytes that decode to an export of its id, signed by the configured key for the configured tenant |
| `IngestAuthenticity.HonestPassStoresTheFeed` | indexer/src/ingest.rs:138-184 | From an honest server of any feed, well-formed or not, it is an authentic export of that feed |
| `IngestAuthenticity.KeyIsRead` | indexer/src/ingest.rs:53-59 | The key that signatures are verified with is the one whose hexadecimal form is configured, with or without blanks around it |
| `IngestInterruptions.NothingStoredWithoutRun` | indexer/src/ingest.rs:88-125 | A clock reading of 0 without a registered run: the pass stores no evidence and registers no run, against any server and connection |
| `IngestInterruptions.PassWithoutRun` | indexer/src/ingest.rs:138-184 | Such a pass over an honest server returns Ok exactly if every accepted export is already stored, and otherwise fails to persist |
| `IngestInterruptions.InterruptedPass` | indexer/src/ingest.rs:65-66 | A pass whose fetches fail, whose connection is lost at any statement, or that is killed after any turn leaves a store that stands at some export from n on, none of the way there stuck |
| `IngestInterruptions.InterruptedHistory` | indexer/src/ingest.rs:65-66 | The same after any sequence of such passes |
| `IngestInterruptions.InterruptionsDoNotMatter` | indexer/src/ingest.rs:65-66 | After any sequence of such passes the next undisturbed one ends like a single undisturbed pass from the start: same error or none, the source holding exactly the accepted exports before the first stuck one |
| `IngestExample.ExportIsAccepted` | indexer/src/connector.rs:279-352 | Two concrete exports, the second a correction, are accepted |
| `IngestExample.CorrectionIsLost` | indexer/src/piteka_feed.rs:561-569 | A concrete first pass over them fails, keeps the original and loses the correction |
| `IngestExample.OriginalIsKept` | indexer/src/ingest.rs:127-193 | Without the correction the same pass succeeds, and repeated, even from a clock reading of 0, it persists nothing |
| `IngestExample.ZeroClockLosesTheRun` | indexer/src/ingest.rs:88-125 | From a clock reading of 0 it fails and stores nothing |
| `IngestExample.PassGoesOn` | indexer/src/ingest.rs:127-190 | A concrete pass from an empty store against a server of badly signed exports is still going after any number of turns |
| `ChainSync.SyncChain` | indexer/src/sync.rs:545-641 | One pass appends to the chain's history exactly the blocks up to the first fault, the end of the batch or the last turn the task gets, counts them, reports the fault, and touches no other chain; every tip, start and batch size included |
| `ChainSync.SyncBlocks` | indexer/src/sync.rs:600-637 | The loop records exactly the blocks before the first fault, its counter wrapping |
| `ChainSync.SyncBlock` | indexer/src/sync.rs:600-637 | A failing block records and counts nothing |
| `ChainSync.ReindexFrom` | indexer/src/sync.rs:440-485 | Progress is forgotten before the indexer is looked up, then synced from the given block; the override is dropped when the chain has no configuration; result and counter are those of the pass |
| `ChainSync.SyncRepository.GetLatestBlock` | storage/src/repositories/sync.rs:20-28 | The stored i64 reads back as the block last recorded |
| `ChainSync.SyncRepository.UpdateProgress` | storage/src/repositories/sync.rs:42-66 | The history grows by the block; other chains are untouched |
| `ChainSync.SyncRepository.Reset` | storage/src/repositories/sync.rs:80-87 | The chain's history is forgotten; other chains are untouched |
| `ChainSync.AdvanceMeaning` | indexer/src/sync.rs:600-637 | A pass goes through exactly the blocks before the first fault, its end, or its last turn |
| `ChainSync.PassMovesIff` | indexer/src/sync.rs:595-596 | A pass can record a block exactly if the batch size is positive and does not wrap past u64::MAX |
| `ChainSync.PassEndsIff` | indexer/src/sync.rs:594-637 | A pass comes to an answer if and only if it aims below u64::MAX or some block fails; otherwise it never does, whatever the turns |
| `ChainSync.PollChain` | indexer/src/sync.rs:344-349 | The polling task leaves the history that the passes' contracts define one after the other, failed passes included, and counts every block |
| `ChainSync.PolledIsOneStretch` | indexer/src/sync.rs:344-349 | Whatever tips, faults and stops its passes meet, a task records one stretch: each block next to the one before, none skipped, none repeated out of turn |
| `ChainSync.TipReachedInCeil` | indexer/src/sync.rs:594-637 | While no tip is u64::MAX and goal + batch stays within u64: whatever fails in between, ceil((goal - progress) / batch) passes that return Ok with the tip at or past the goal bring a task to it, and no fewer passes do |
| `ChainSync.SuccessfulPassesReachTip` | indexer/src/sync.rs:594-637 | If all passes return Ok, a fixed tip is reached exactly with that many, and not passed |
| `SyncRuns.AnyInterleavingIsSound` | indexer/src/sync.rs:545-641 | Under any interleaving of passes, failures, moving tips and resets each chain has recorded exactly the blocks after its base, each next to the one before, and the counter is their sum minus increments still to come |
| `SyncRuns.RecordedIsConsecutive` | indexer/src/sync.rs:545-641 | Unless a node reports u64::MAX, each chain has recorded base + 1, base + 2, ...: once each, without gaps |
| `SyncRuns.CounterIsSum` | indexer/src/sync.rs:630-634 | When no pass is running the shared counter equals the blocks recorded on all chains |
| `SyncRuns.FailureRetriesBlock` | indexer/src/sync.rs:600-637 | A failure at k leaves progress just before k and the next pass begins at k, also when k was the chain's first block, exactly as long as the start is the same |
| `SyncRuns.ChainRunsAlone` | indexer/src/sync.rs:545-641 | In any run each chain ends up where its own actions alone would have brought it |
| `SyncRuns.PassAmongOthers` | indexer/src/sync.rs:545-641 | A pass leaves the history that the contract of the sync method promises, however other chains' tasks are interleaved with it |
| `SyncRuns.TurnsAreThePass` | indexer/src/sync.rs:600-637 | An undisturbed task of the state machine records what the sync method records |
| `Base64.Base64Encode` | indexer/src/rpc_manager.rs:188-210 | The chunk loop computes the encoding of section 4 of RFC 4648 |
| `Base64.PushChunk` | indexer/src/rpc_manager.rs:191-207 | Or-ing the shifted bytes into one group, then shifting and masking it bit by bit, gives the quantum of the chunk |
| `Base64.Lookup` | indexer/src/rpc_manager.rs:189 | Indexing the table gives the symbol of Table 1 of RFC 4648 |
| `Base64.DecodeEncoded` | indexer/src/rpc_manager.rs:188-210 | The decoder of section 4 of RFC 4648 restores every byte string from its encoding |
| `Base64.EncodedShape` | indexer/src/rpc_manager.rs:188-210 | The length is 4 * ceil(n / 3) and the only padding is at the very end, as many characters as the last chunk lacks bytes |

## Left out

- AppendObservation: which error a lost connection reports when the record is also invalid is not fixed, because only the loss is the point there.
- InsertedRowExcludes: when several conditions of an insert fail at once the model reports trigger, CHECK, UNIQUE, FOREIGN KEY in that order, because SQLite's own order is not part of this repository.
- ProfileAcceptedIff: the source attribution counters of a manifest are not modelled, because the code reads them and does nothing with them.
- InterruptedPass: an interrupted server answers honestly or not at all; what a dishonest one can do is bounded by PassStoresOnlyAuthentic and DrainConserves.
- PassStoresOnlyAuthentic: a signature means what the uninterpreted verification function says, because cryptography is outside this model.
- SyncChain: a failing read of the progress row is an unavailable tip, since both end the pass before it changes anything.
- PassEndsIff: arithmetic wraps, as in a release build; a debug build panics at the overflow instead.
- RunsStayConsistent: one hub writes to one pool, because the code does not serialize several.
- AnyInterleavingIsSound: two tasks never sync the same chain at once, because the code does not serialize them; the shared counter is unbounded.
- Error texts and rejection reasons: errors are reduced to their kinds.
- `source_reorgs`, `observation_edges`, `source_health` and reading a cursor back: plain rows without a property that spans operations.
- UPDATE and DELETE statements on the append-only tables: no code issues them, so the triggers against them have nothing to reject.
- Serialization to JSON, HTTP transport, timestamps of rows: entered as functions or left out.
- The value of the protocol version constant, which comes from a crate outside this repository; the model holds for any value.
- The broadcast channel's capacity of 256: a subscriber may lose any deliveries.
- Connector reconciliation and health, which for this feed return constants.
- Chain decoders, GraphQL and REST handlers, CLI, read-model repositories, wallet bridge, RPC policy: mapping and plumbing whose properties would be easy members.
