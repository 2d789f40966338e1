/** `WalletFeedProjection` (shared/src/types.rs): three indexes that stay in step with one log. */
module FeedProjection {
  import opened Words
  import opened Wrappers
  import opened WalletFeed
  import opened FeedLog

  /** The envelope keys are exactly 1..last_sequence, and hold the log. */
  ghost predicate EnvelopesIndexed(log: Log, lastSequence: u64, envelopes: map<u64, Envelope>) {
    && lastSequence == |Held(log)|
    && (forall s: u64 :: s in envelopes <==> 1 <= s <= lastSequence)
    && (forall s: u64 :: s in envelopes ==> envelopes[s] == Held(log)[s - 1])
  }

  ghost predicate SequencesIndexed(log: Log, observationSequences: map<string, u64>) {
    forall id :: (id in observationSequences <==> Position(log, id).Some?)
      && (id in observationSequences ==> observationSequences[id] == Number(Position(log, id).value + 1))
  }

  ghost predicate FinalityIndexed(log: Log, finality: map<string, Finality>) {
    forall key :: (key in finality <==> LatestFinality(log, key).Some?)
      && (key in finality ==> finality[key] == LatestFinality(log, key).value)
  }

  lemma HeldGrows(log: Log, e: Envelope)
    ensures |log| < U64_MAX ==> Held(log + [e]) == Held(log) + [e]
    ensures |log| >= U64_MAX ==> Held(log + [e]) == Held(log)[..U64_MAX - 1] + [e]
  {
  }

  lemma LookupsGrow(log: Log, e: Envelope, id: string, key: string)
    ensures Position(log + [e], id) == if e.observationId == id then Some(|log|) else Position(log, id)
    ensures LatestFinality(log + [e], key) == if KeyOf(e) == key then Some(e.finality) else LatestFinality(log, key)
  {
    assert (log + [e])[..|log|] == log;
  }

  lemma EnvelopesGrow(log: Log, e: Envelope, lastSequence: u64, envelopes: map<u64, Envelope>)
    requires EnvelopesIndexed(log, lastSequence, envelopes) && e.sequence == Number(|log| + 1)
    ensures EnvelopesIndexed(log + [e], e.sequence, envelopes[e.sequence := e])
  {
    HeldGrows(log, e);
  }

  lemma SequencesGrow(log: Log, e: Envelope, observationSequences: map<string, u64>)
    requires SequencesIndexed(log, observationSequences) && e.sequence == Number(|log| + 1)
    ensures SequencesIndexed(log + [e], observationSequences[e.observationId := e.sequence])
  {
    forall id ensures Position(log + [e], id) == if e.observationId == id then Some(|log|) else Position(log, id) {
      LookupsGrow(log, e, id, "");
    }
  }

  lemma FinalityGrows(log: Log, e: Envelope, finality: map<string, Finality>)
    requires FinalityIndexed(log, finality)
    ensures FinalityIndexed(log + [e], finality[KeyOf(e) := e.finality])
  {
    forall key
      ensures LatestFinality(log + [e], key) == if KeyOf(e) == key then Some(e.finality) else LatestFinality(log, key)
    {
      LookupsGrow(log, e, "", key);
    }
  }

  class WalletFeedProjection {
    var lastSequence: u64
    var envelopes: map<u64, Envelope>
    var observationSequences: map<string, u64>
    var finality: map<string, Finality>
    ghost var log: Log

    ghost predicate Valid()
      reads this
    {
      && Legal(log)
      && EnvelopesIndexed(log, lastSequence, envelopes)
      && SequencesIndexed(log, observationSequences)
      && FinalityIndexed(log, finality)
    }

    /** `WalletFeedProjection::default` */
    constructor ()
      ensures Valid() && log == []
    {
      lastSequence := 0;
      envelopes := map[];
      observationSequences := map[];
      finality := map[];
      log := [];
    }

    /** `Clone` */
    constructor Copy(other: WalletFeedProjection)
      requires other.Valid()
      ensures Valid() && log == other.log
    {
      lastSequence := other.lastSequence;
      envelopes := other.envelopes;
      observationSequences := other.observationSequences;
      finality := other.finality;
      log := other.log;
    }

    /** The reorg replacement check. The source's "replacement observation is unavailable"
        error has no branch here: the lookup is proved to succeed. */
    method ReplacementChecked(e: Envelope) returns (r: Result<(), FeedError>)
      requires EnvelopesIndexed(log, lastSequence, envelopes) && SequencesIndexed(log, observationSequences)
      ensures r == CheckReplacement(log, e)
    {
      if e.reorg.Some? {
        var reorg := e.reorg.value;
        if reorg.replacedObservationId !in observationSequences {
          return Err(UnknownReplacement);
        }
        var replaced := envelopes[observationSequences[reorg.replacedObservationId]];
        if || replaced.chainId != e.chainId || replaced.network != e.network
           || reorg.commonAncestor.height >= replaced.observedBlock.height {
          return Err(ReplacementMismatch);
        }
      }
      return Ok(());
    }

    /** The checks of `apply`, in order; nothing is changed yet. */
    method Judge(e: Envelope) returns (r: Result<bool, FeedError>)
      requires EnvelopesIndexed(log, lastSequence, envelopes)
      requires SequencesIndexed(log, observationSequences) && FinalityIndexed(log, finality)
      ensures r == Decide(log, e)
    {
      var _ :- Validate(e);
      if e.observationId in observationSequences {
        return if observationSequences[e.observationId] == e.sequence then Ok(false) else Err(ObservationReused);
      }
      if e.sequence != SaturatingSucc(lastSequence) {
        return Err(NotContiguous);
      }
      var _ :- ReplacementChecked(e);
      var key := KeyOf(e);
      if e.reorg.None? && key in finality && FinalityRank(e.finality) < FinalityRank(finality[key]) {
        return Err(FinalityRegression);
      }
      return Ok(true);
    }

    /** The updates of `apply`: an accepted envelope enters the log and all three indexes. */
    method Record(e: Envelope)
      requires Valid() && e.sequence == Number(|log| + 1) && Legal(log + [e])
      modifies this
      ensures Valid() && log == old(log) + [e]
    {
      EnvelopesGrow(log, e, lastSequence, envelopes);
      SequencesGrow(log, e, observationSequences);
      FinalityGrows(log, e, finality);
      lastSequence := e.sequence;
      observationSequences := observationSequences[e.observationId := e.sequence];
      finality := finality[KeyOf(e) := e.finality];
      envelopes := envelopes[e.sequence := e];
      log := log + [e];
    }

    /** `apply`: accepts an envelope once; a replay or a rejected envelope changes nothing. */
    method Apply(e: Envelope) returns (r: Result<bool, FeedError>)
      requires Valid()
      modifies this
      ensures Valid()
      ensures r == Decide(old(log), e)
      ensures log == FeedLog.Apply(old(log), e)
    {
      r := Judge(e);
      if r == Ok(true) {
        DecidedNumber(log, e);
        ApplyKeepsLegal(log, e);
        Record(e);
      }
    }

    /** `since`: the range of the envelopes after a sequence number, in order. */
    method Since(sequence: u64) returns (r: seq<Envelope>)
      requires EnvelopesIndexed(log, lastSequence, envelopes)
      ensures r == SinceOf(log, sequence)
    {
      r := [];
      var next: int := SaturatingSucc(sequence);
      ghost var from, held := next - 1, Held(log);
      while next <= lastSequence
        invariant from < next
        invariant if from <= |held| then next - 1 <= |held| && r == held[from..next - 1] else r == []
        decreases lastSequence - next
      {
        r := r + [envelopes[next]];
        next := next + 1;
      }
    }
  }
}
