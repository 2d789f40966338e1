/** What a wallet feed projection means: the log of the envelopes it accepted. */
module FeedLog {
  import opened Words
  import opened Wrappers
  import opened WalletFeed

  type Log = seq<Envelope>

  /** The sequence number of the n-th accepted envelope: `saturating_add` counts no further than `u64::MAX`. */
  function Number(n: nat): u64 {
    if n <= U64_MAX then n else U64_MAX
  }

  /** The envelopes held under the sequence numbers 1, 2, ...: all of the log, until
      saturation makes newer envelopes overwrite the last one. */
  function Held(log: Log): (r: Log)
    ensures |r| == Number(|log|)
  {
    if |log| <= U64_MAX then log else log[..U64_MAX - 1] + [log[|log| - 1]]
  }

  /** The position of an observation in the log. */
  function Position(log: Log, id: string): (r: Option<nat>)
    ensures r.Some? ==> r.value < |log| && log[r.value].observationId == id
    ensures r.None? ==> forall i :: 0 <= i < |log| ==> log[i].observationId != id
  {
    if log == [] then None
    else if log[|log| - 1].observationId == id then Some(|log| - 1)
    else Position(log[..|log| - 1], id)
  }

  /** The finality last accepted for an event key. */
  function LatestFinality(log: Log, key: string): Option<Finality> {
    if log == [] then None
    else if KeyOf(log[|log| - 1]) == key then Some(log[|log| - 1].finality)
    else LatestFinality(log[..|log| - 1], key)
  }

  /** The envelope a reorg replacement names, if it was accepted. */
  function Replaced(log: Log, reorg: ReorgReplacement): Option<Envelope> {
    match Position(log, reorg.replacedObservationId)
    case None => None
    case Some(i) => Some(Held(log)[Number(i + 1) - 1])
  }

  function CheckReplacement(log: Log, e: Envelope): Result<(), FeedError> {
    if e.reorg.None? then Ok(()) else
      match Replaced(log, e.reorg.value)
      case None => Err(UnknownReplacement)
      case Some(replaced) =>
        if || replaced.chainId != e.chainId || replaced.network != e.network
           || e.reorg.value.commonAncestor.height >= replaced.observedBlock.height
        then Err(ReplacementMismatch)
        else Ok(())
  }

  /** An envelope without a reorg replacement may not lower the finality of its event. */
  predicate Regresses(log: Log, e: Envelope) {
    && e.reorg.None?
    && LatestFinality(log, KeyOf(e)).Some?
    && FinalityRank(e.finality) < FinalityRank(LatestFinality(log, KeyOf(e)).value)
  }

  /** What a projection with this log answers to an envelope: accepted (true), a replay (false), or rejected. */
  function Decide(log: Log, e: Envelope): Result<bool, FeedError> {
    var _ :- Validate(e);
    match Position(log, e.observationId)
    case Some(i) => if Number(i + 1) == e.sequence then Ok(false) else Err(ObservationReused)
    case None =>
      if e.sequence != Number(|log| + 1) then Err(NotContiguous) else
        var _ :- CheckReplacement(log, e);
        if Regresses(log, e) then Err(FinalityRegression) else Ok(true)
  }

  function Apply(log: Log, e: Envelope): Log {
    if Decide(log, e) == Ok(true) then log + [e] else log
  }

  function ApplyAll(log: Log, es: seq<Envelope>): Log
    decreases |es|
  {
    if es == [] then log else ApplyAll(Apply(log, es[0]), es[1..])
  }

  /** The i-th envelope was acceptable when it came. */
  ghost predicate AcceptedAt(log: Log, i: nat)
    requires i < |log|
  {
    Decide(log[..i], log[i]) == Ok(true)
  }

  ghost predicate Legal(log: Log) {
    forall i :: 0 <= i < |log| ==> AcceptedAt(log, i)
  }

  /** Envelopes numbered in order, no observation twice. */
  ghost predicate Numbered(log: Log) {
    && (forall i :: 0 <= i < |log| ==> log[i].sequence == Number(i + 1))
    && (forall i, j :: 0 <= i < j < |log| ==> log[i].observationId != log[j].observationId)
  }

  lemma ApplyKeepsLegal(log: Log, e: Envelope)
    requires Legal(log)
    ensures Legal(Apply(log, e))
  {
    var next := Apply(log, e);
    forall i | 0 <= i < |next| ensures AcceptedAt(next, i) {
      if i < |log| {
        assert AcceptedAt(log, i);
        assert next[..i] == log[..i];
      } else {
        assert next[..i] == log;
      }
    }
  }

  lemma PrefixLegal(log: Log, n: nat)
    requires Legal(log) && n <= |log|
    ensures Legal(log[..n])
  {
    forall i | 0 <= i < n ensures AcceptedAt(log[..n], i) {
      assert AcceptedAt(log, i);
      assert log[..n][..i] == log[..i];
    }
  }

  lemma DecidedNumber(log: Log, e: Envelope)
    requires Decide(log, e) == Ok(true)
    ensures e.sequence == Number(|log| + 1) && Position(log, e.observationId).None? && Validate(e).Ok?
  {
  }

  /** A legal log numbers its envelopes in order and never repeats an observation. */
  lemma LegalNumbered(log: Log)
    requires Legal(log)
    ensures Numbered(log)
  {
    forall i | 0 <= i < |log|
      ensures log[i].sequence == Number(i + 1)
      ensures forall j :: 0 <= j < i ==> log[j].observationId != log[i].observationId
    {
      assert AcceptedAt(log, i);
      DecidedNumber(log[..i], log[i]);
      forall j | 0 <= j < i ensures log[j].observationId != log[i].observationId {
        assert log[..i][j] == log[j];
      }
    }
  }

  /** `observation_sequences` inverts the log. */
  lemma PositionInverts(log: Log, i: nat)
    requires Legal(log) && i < |log|
    ensures Position(log, log[i].observationId) == Some(i)
  {
    LegalNumbered(log);
  }

  /** `since`: everything held after a sequence number. */
  function SinceOf(log: Log, sequence: u64): seq<Envelope> {
    var from := SaturatingSucc(sequence) - 1;
    if from <= |Held(log)| then Held(log)[from..] else []
  }
}
