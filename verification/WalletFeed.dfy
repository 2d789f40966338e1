/** The wallet feed's envelopes and their validation (shared/src/types.rs). */
module WalletFeed {
  import opened Words
  import opened Wrappers
  import opened Text

  const EVENT_SCHEMA_VERSION: u16 := 1
  const FEED_SCHEMA_VERSION: u16 := 1

  /** Fixed by the protocol crate; its value is not part of this model. */
  const PROTOCOL_VERSION: string

  datatype Network = Mainnet | Testnet | Devnet

  datatype Finality = Observed | ReorgPossible | Finalized

  /** `finality_rank` */
  function FinalityRank(f: Finality): nat {
    match f
    case Observed => 0
    case ReorgPossible => 1
    case Finalized => 2
  }

  datatype Block = Block(height: u64, hash: string)

  datatype FreshnessStatus = Fresh | Stale | Unknown

  datatype Freshness = Freshness(indexedAt: int, tip: Block, lagBlocks: u64, status: FreshnessStatus)

  datatype Provenance = Provenance(producer: string, sourceCursor: string, cryptographicallyVerified: bool)

  datatype EventType = SanadCreated | SealConsumed | TransferSent | TransferMaterialized

  datatype Payload =
    | SanadCreatedPayload(sanadId: string, commitment: string, owner: string)
    | SealConsumedPayload(sanadId: string, nullifier: string)
    | TransferSentPayload(transferId: string, sanadId: string, destinationChain: string, destinationOwner: string)
    | TransferMaterializedPayload(transferId: string, sourceChain: string, sourceTransactionId: string,
                                  sanadId: string, owner: string)

  datatype Event = Event(
    schemaVersion: u16, chainId: string, network: Network, contract: string, eventType: EventType,
    blockHeight: u64, blockHash: string, transactionId: string, logIndex: u64, finality: Finality, payload: Payload)

  datatype ReorgReplacement = ReorgReplacement(
    replacedObservationId: string, commonAncestor: Block, replacementBlock: Block)

  datatype Envelope = Envelope(
    schemaVersion: u16, protocolVersion: string, observationId: string, sequence: u64, chainId: string,
    network: Network, observedBlock: Block, freshness: Freshness, finality: Finality, provenance: Provenance,
    event: Event, reorg: Option<ReorgReplacement>)

  datatype FeedError =
    | UnsupportedSchema
    | UnsupportedProtocol
    | IncompleteIdentity
    | ClaimsVerification
    | ChainMismatch
    | BlockMismatch
    | FinalityMismatch
    | IncompleteReorg
    | InvalidReorgBlocks
    | UnsupportedEventSchema
    | IncompleteEvent
    | PayloadMismatch
    | ObservationReused
    | NotContiguous
    | UnknownReplacement
    | ReplacementMismatch
    | FinalityRegression
    | NotPersisted
    | NotLoaded
    | NotDecoded

  predicate PayloadMatches(eventType: EventType, payload: Payload) {
    match eventType
    case SanadCreated => payload.SanadCreatedPayload?
    case SealConsumed => payload.SealConsumedPayload?
    case TransferSent => payload.TransferSentPayload?
    case TransferMaterialized => payload.TransferMaterializedPayload?
  }

  /** `TuppiraEventDto::validate` */
  function ValidateEvent(e: Event): Result<(), FeedError> {
    if e.schemaVersion != EVENT_SCHEMA_VERSION then Err(UnsupportedEventSchema)
    else if e.chainId == "" || e.contract == "" || e.blockHash == "" || e.transactionId == "" then Err(IncompleteEvent)
    else if !PayloadMatches(e.eventType, e.payload) then Err(PayloadMismatch)
    else Ok(())
  }

  function ValidateReorg(e: Envelope, reorg: ReorgReplacement): Result<(), FeedError> {
    if || reorg.replacedObservationId == "" || reorg.replacedObservationId == e.observationId
       || reorg.commonAncestor.hash == "" || reorg.replacementBlock.hash == "" then Err(IncompleteReorg)
    else if reorg.commonAncestor.height >= reorg.replacementBlock.height || reorg.replacementBlock != e.observedBlock
    then Err(InvalidReorgBlocks)
    else Ok(())
  }

  /** `WalletFeedEnvelope::validate` */
  function Validate(e: Envelope): Result<(), FeedError> {
    if e.schemaVersion != FEED_SCHEMA_VERSION then Err(UnsupportedSchema)
    else if e.protocolVersion != PROTOCOL_VERSION then Err(UnsupportedProtocol)
    else if || e.observationId == "" || e.provenance.producer == "" || e.provenance.sourceCursor == ""
            || e.observedBlock.hash == "" || e.freshness.tip.hash == "" then Err(IncompleteIdentity)
    else if e.provenance.cryptographicallyVerified then Err(ClaimsVerification)
    else if e.chainId != e.event.chainId || e.network != e.event.network then Err(ChainMismatch)
    else if e.observedBlock != Block(e.event.blockHeight, e.event.blockHash) then Err(BlockMismatch)
    else if e.finality != e.event.finality then Err(FinalityMismatch)
    else
      var _ :- if e.reorg.Some? then ValidateReorg(e, e.reorg.value) else Ok(());
      ValidateEvent(e.event)
  }

  /** The key under which finality is tracked. */
  function EventKey(chainId: string, transactionId: string, logIndex: u64): string {
    chainId + ":" + transactionId + ":" + Decimal(logIndex)
  }

  function KeyOf(e: Envelope): string {
    EventKey(e.chainId, e.event.transactionId, e.event.logIndex)
  }

  /** Exactly which events share a key: the log index is always told apart, the chain and
      transaction ids only through their ':'-joined text. */
  lemma KeysCoincide(chain1: string, tx1: string, index1: u64, chain2: string, tx2: string, index2: u64)
    ensures EventKey(chain1, tx1, index1) == EventKey(chain2, tx2, index2) <==>
            index1 == index2 && chain1 + ":" + tx1 == chain2 + ":" + tx2
  {
    if EventKey(chain1, tx1, index1) == EventKey(chain2, tx2, index2) {
      DecimalHasNoColon(index1);
      DecimalHasNoColon(index2);
      LastColonSplits(chain1 + ":" + tx1, Decimal(index1), chain2 + ":" + tx2, Decimal(index2));
      DecimalInjective(index1, index2);
    }
  }

  /** Neither chain id goes on as the other one does before a ':'. */
  predicate Apart(chain1: string, chain2: string) {
    !(chain1 + ":" <= chain2) && !(chain2 + ":" <= chain1)
  }

  /** Chain ids that are apart keep all their keys apart. */
  lemma ApartKeepsKeys(chain1: string, tx1: string, index1: u64, chain2: string, tx2: string, index2: u64)
    requires Apart(chain1, chain2)
    ensures EventKey(chain1, tx1, index1) == EventKey(chain2, tx2, index2) <==>
            chain1 == chain2 && tx1 == tx2 && index1 == index2
  {
    KeysCoincide(chain1, tx1, index1, chain2, tx2, index2);
    if chain1 + ":" + tx1 == chain2 + ":" + tx2 { JoinedApart(chain1, tx1, chain2, tx2); }
  }

  /** Of two equal joined texts, the one with the shorter chain id has a ':' where the other chain id goes on. */
  lemma JoinedGoesOn(chain1: string, tx1: string, chain2: string, tx2: string)
    requires chain1 + ":" + tx1 == chain2 + ":" + tx2 && |chain1| < |chain2|
    ensures chain1 + ":" <= chain2
  {
    var joined := chain1 + ":" + tx1;
    assert joined[..|chain1| + 1] == chain1 + ":" && joined[..|chain2|] == chain2;
    assert joined[..|chain2|][..|chain1| + 1] == joined[..|chain1| + 1];
  }

  lemma JoinedApart(chain1: string, tx1: string, chain2: string, tx2: string)
    requires Apart(chain1, chain2) && chain1 + ":" + tx1 == chain2 + ":" + tx2
    ensures chain1 == chain2 && tx1 == tx2
  {
    if |chain1| < |chain2| {
      JoinedGoesOn(chain1, tx1, chain2, tx2);
    } else if |chain2| < |chain1| {
      JoinedGoesOn(chain2, tx2, chain1, tx1);
    } else {
      var joined := chain1 + ":" + tx1;
      assert joined[..|chain1|] == chain1 && joined[..|chain2|] == chain2;
      assert joined[|chain1| + 1..] == tx1 && joined[|chain2| + 1..] == tx2;
    }
  }

  /** Chain ids that are not apart share a key. */
  lemma SharedKey(chain1: string, chain2: string) returns (tx1: string, tx2: string)
    requires chain1 + ":" <= chain2
    ensures tx1 != "" && tx2 != "" && EventKey(chain1, tx1, 0) == EventKey(chain2, tx2, 0)
  {
    var rest := chain2[|chain1| + 1..];
    tx1, tx2 := rest + ":" + "t", "t";
    assert chain2 == chain1 + ":" + rest;
    assert chain1 + ":" + tx1 == chain2 + ":" + tx2;
  }

  lemma GoingOnHasColon(chain1: string, chain2: string)
    requires chain1 + ":" <= chain2
    ensures ':' in chain2
  {
    assert chain2[|chain1|] == (chain1 + ":")[|chain1|];
  }

  /** Chain ids without a ':' are apart. */
  lemma ColonFreeApart(chain1: string, chain2: string)
    requires ':' !in chain1 && ':' !in chain2
    ensures Apart(chain1, chain2)
  {
    if chain1 + ":" <= chain2 { GoingOnHasColon(chain1, chain2); }
    if chain2 + ":" <= chain1 { GoingOnHasColon(chain2, chain1); }
  }

  /** Two envelopes report the same event: the same log entry of the same transaction of the same chain and network. */
  predicate SameEvent(a: Envelope, b: Envelope) {
    && a.network == b.network && a.chainId == b.chainId
    && a.event.transactionId == b.event.transactionId && a.event.logIndex == b.event.logIndex
  }

  /** The finality key tells valid envelopes of two chains apart by their events. */
  ghost predicate TellsApart(chain1: string, network1: Network, chain2: string, network2: Network) {
    forall a, b :: Reports(a, chain1, network1) && Reports(b, chain2, network2) && KeyOf(a) == KeyOf(b) ==>
      SameEvent(a, b)
  }

  predicate Reports(e: Envelope, chain: string, network: Network) {
    Validate(e).Ok? && e.chainId == chain && e.network == network
  }

  /** A valid envelope with little in it. */
  function Sample(id: string, sequence: u64, chain: string, network: Network, tx: string, finality: Finality): Envelope
  {
    var block := Block(1, "b");
    Envelope(FEED_SCHEMA_VERSION, PROTOCOL_VERSION, id, sequence, chain, network, block,
             Freshness(0, block, 0, Fresh), finality, Provenance("p", "c", false),
             Event(EVENT_SCHEMA_VERSION, chain, network, "contract", SanadCreated, 1, "b", tx, 0, finality,
                   SanadCreatedPayload("s", "c", "o")),
             None)
  }

  lemma SampleReports(id: string, sequence: u64, chain: string, network: Network, tx: string, finality: Finality)
    requires id != "" && chain != "" && tx != ""
    ensures Reports(Sample(id, sequence, chain, network, tx, finality), chain, network)
  {
  }

  /** Exactly when the key identifies the event: it leaves the network out, so a chain id on two networks is
      told apart by nothing, and chain ids are told apart exactly if neither goes on with ':' after the other. */
  lemma KeyIdentifiesEvent(chain1: string, network1: Network, chain2: string, network2: Network)
    requires chain1 != "" && chain2 != ""
    ensures TellsApart(chain1, network1, chain2, network2) <==>
            Apart(chain1, chain2) && (chain1 == chain2 ==> network1 == network2)
  {
    if Apart(chain1, chain2) {
      if chain1 == chain2 && network1 != network2 {
        SharesKey(chain1, network1, "t", chain2, network2, "t");
      } else {
        ApartIdentifies(chain1, network1, chain2, network2);
      }
    } else if chain1 + ":" <= chain2 {
      var tx1, tx2 := SharedKey(chain1, chain2);
      SharesKey(chain1, network1, tx1, chain2, network2, tx2);
    } else {
      var tx2, tx1 := SharedKey(chain2, chain1);
      SharesKey(chain1, network1, tx1, chain2, network2, tx2);
    }
  }

  lemma ApartIdentifies(chain1: string, network1: Network, chain2: string, network2: Network)
    requires Apart(chain1, chain2) && (chain1 == chain2 ==> network1 == network2)
    ensures TellsApart(chain1, network1, chain2, network2)
  {
    forall a, b | Reports(a, chain1, network1) && Reports(b, chain2, network2) && KeyOf(a) == KeyOf(b)
      ensures SameEvent(a, b)
    {
      ApartKeepsKeys(a.chainId, a.event.transactionId, a.event.logIndex,
                     b.chainId, b.event.transactionId, b.event.logIndex);
    }
  }

  lemma SharesKey(chain1: string, network1: Network, tx1: string, chain2: string, network2: Network, tx2: string)
    requires chain1 != "" && chain2 != "" && tx1 != "" && tx2 != ""
    requires EventKey(chain1, tx1, 0) == EventKey(chain2, tx2, 0)
    requires chain1 != chain2 || network1 != network2
    ensures !TellsApart(chain1, network1, chain2, network2)
  {
    var a, b := Sample("a", 1, chain1, network1, tx1, Observed), Sample("b", 1, chain2, network2, tx2, Observed);
    SampleReports("a", 1, chain1, network1, tx1, Observed);
    SampleReports("b", 1, chain2, network2, tx2, Observed);
    assert KeyOf(a) == KeyOf(b) && !SameEvent(a, b);
  }

  /** With a ':' in a chain id two different events can share a key, but need not. */
  lemma KeysCanCollide()
    ensures EventKey("a:b", "c", 0) == EventKey("a", "b:c", 0)
    ensures Apart("eip155:1", "eip155:5")
  {
    assert "a:b" + ":" + "c" == "a:b:c" == "a" + ":" + "b:c";
    KeysCoincide("a:b", "c", 0, "a", "b:c", 0);
    assert |"eip155:1" + ":"| > |"eip155:5"|;
  }
}
