/** The chain sync loop (indexer/src/sync.rs) over its progress table (storage/src/repositories/sync.rs). */
module ChainSync {
  import opened Words
  import opened Wrappers

  function LastOf(history: seq<u64>): Option<u64> {
    if history == [] then None else Some(history[|history| - 1])
  }

  /** `sync_progress`: blocks are stored as `i64` casts. `recorded` remembers every write to a chain's row
      since its last reset. */
  class SyncRepository {
    var progress: map<string, i64>
    ghost var recorded: map<string, seq<u64>>

    /** The stored block of a chain is the last one recorded for it. */
    ghost predicate Valid()
      reads this
    {
      && progress.Keys == recorded.Keys
      && forall chain :: chain in progress ==>
           recorded[chain] != [] && AsU64(progress[chain]) == recorded[chain][|recorded[chain]| - 1]
    }

    ghost function History(chain: string): seq<u64>
      reads this
    {
      if chain in recorded then recorded[chain] else []
    }

    /** No other chain's progress has changed. */
    ghost predicate OthersKept(before: map<string, seq<u64>>, chain: string)
      reads this
    {
      forall other :: other != chain ==>
        (other in recorded <==> other in before) && (other in before ==> recorded[other] == before[other])
    }

    constructor ()
      ensures Valid() && recorded == map[]
    {
      progress, recorded := map[], map[];
    }

    /** `get_latest_block` */
    method GetLatestBlock(chain: string) returns (r: Option<u64>)
      requires Valid()
      ensures r == LastOf(History(chain))
    {
      r := if chain in progress then Some(AsU64(progress[chain])) else None;
    }

    /** `update_progress` */
    method UpdateProgress(chain: string, block: u64)
      requires Valid()
      modifies this
      ensures Valid() && OthersKept(old(recorded), chain)
      ensures History(chain) == old(History(chain)) + [block]
    {
      progress := progress[chain := AsI64(block)];
      recorded := recorded[chain := History(chain) + [block]];
    }

    /** `reset` */
    method Reset(chain: string)
      requires Valid()
      modifies this
      ensures Valid() && OthersKept(old(recorded), chain) && History(chain) == []
    {
      progress := progress - {chain};
      recorded := recorded - {chain};
    }
  }

  /** The counter shared by all chain tasks. */
  class Counter {
    var total: nat

    constructor ()
      ensures total == 0
    {
      total := 0;
    }
  }

  datatype SyncError = TipUnavailable | BlockFailed(block: u64) | WriteFailed(block: u64) | ResetFailed | UnknownChain

  /** Where a pass resumes: the stored block, the configured start, or genesis. */
  function From(stored: Option<u64>, start: Option<u64>): u64 {
    if stored.Some? then stored.value else if start.Some? then start.value else 0
  }

  /** `current += 1`: the counter wraps. */
  function Next(block: u64): u64 {
    if block == U64_MAX then 0 else block + 1
  }

  /** The block n turns of the loop after `from`. */
  function After(from: u64, n: nat): u64 {
    if n == 0 then from else Next(After(from, n - 1))
  }

  lemma {:induction false} AfterAfter(from: u64, m: nat, n: nat)
    ensures After(After(from, m), n) == After(from, m + n)
  {
    if n > 0 { AfterAfter(from, m, n - 1); }
  }

  /** Up to `u64::MAX` blocks follow each other. */
  lemma {:induction false} AfterBelowMax(from: u64, n: nat)
    requires from + n <= U64_MAX
    ensures After(from, n) == from + n
  {
    if n > 0 { AfterBelowMax(from, n - 1); }
  }

  /** `min(current + batch_size - 1, tip)`, in wrapping arithmetic. */
  function PassEnd(from: u64, tip: u64, batch: u64): u64
    requires from < tip
  {
    var last := (from + batch) % TWO_TO_64;
    if last < tip then last else tip
  }

  /** The blocks at which a pass fails: their events do not decode or validate, or their progress write fails. */
  datatype Faults = Faults(undecodable: set<u64>, unwritable: set<u64>) {
    predicate Hit(block: u64) {
      block in undecodable || block in unwritable
    }

    function Error(block: u64): SyncError {
      if block in undecodable then BlockFailed(block) else WriteFailed(block)
    }
  }

  /** The loop goes through this block. */
  predicate Passed(block: u64, end: u64, faults: Faults) {
    block <= end && !faults.Hit(block)
  }

  /** The loop goes through the first n blocks after `from`. */
  ghost predicate AllPassed(from: u64, n: nat, end: u64, faults: Faults) {
    forall i :: 0 < i <= n ==> Passed(After(from, i), end, faults)
  }

  lemma OneMorePassed(from: u64, n: nat, end: u64, faults: Faults)
    requires AllPassed(from, n, end, faults) && Passed(After(from, n + 1), end, faults)
    ensures AllPassed(from, n + 1, end, faults)
  {
  }

  /** How many blocks after `from` go through before one fails, the loop passes `end`, or its turns are used up. */
  function Advance(from: u64, end: u64, faults: Faults, turns: nat): (n: nat)
    ensures n <= turns
    decreases turns
  {
    var next := Next(from);
    if turns > 0 && Passed(next, end, faults) then 1 + Advance(next, end, faults, turns - 1) else 0
  }

  /** The n blocks after `from`. */
  function Blocks(from: u64, n: nat): (r: seq<u64>)
    ensures |r| == n && forall i :: 0 <= i < n ==> r[i] == After(from, i + 1)
  {
    seq(n, i requires 0 <= i < n => After(from, i + 1))
  }

  /** Up to `u64::MAX` they are consecutive. */
  lemma BlocksInOrder(from: u64, n: nat)
    requires from + n <= U64_MAX
    ensures forall i :: 0 <= i < n ==> Blocks(from, n)[i] == from + 1 + i
  {
    forall i | 0 <= i < n
      ensures Blocks(from, n)[i] == from + 1 + i
    {
      AfterBelowMax(from, i + 1);
    }
  }

  lemma BlocksAppend(from: u64, m: nat, n: nat)
    ensures Blocks(from, m) + Blocks(After(from, m), n) == Blocks(from, m + n)
  {
    forall i: nat | i < n
      ensures Blocks(After(from, m), n)[i] == Blocks(from, m + n)[m + i]
    {
      AfterAfter(from, m, i + 1);
    }
  }

  /** A chain's history after n more blocks. */
  ghost function Followed(history: seq<u64>, from: u64, n: nat): seq<u64> {
    if n == 0 then history else Followed(history, from, n - 1) + [After(from, n)]
  }

  lemma {:induction false} FollowedBlocks(history: seq<u64>, from: u64, n: nat)
    ensures Followed(history, from, n) == history + Blocks(from, n)
  {
    if n > 0 { FollowedBlocks(history, from, n - 1); }
  }

  /** One turn of the loop: decode and validate the block, write its progress, count it. */
  method SyncBlock(repository: SyncRepository, counter: Counter, chain: string, block: u64, faults: Faults)
    returns (r: Result<(), SyncError>)
    requires repository.Valid()
    modifies repository, counter
    ensures repository.Valid() && repository.OthersKept(old(repository.recorded), chain)
    ensures r == if faults.Hit(block) then Err(faults.Error(block)) else Ok(())
    ensures repository.History(chain) == old(repository.History(chain)) + if r.Ok? then [block] else []
    ensures counter.total == old(counter.total) + if r.Ok? then 1 else 0
  {
    if block in faults.undecodable {
      return Err(BlockFailed(block));
    }
    if block in faults.unwritable {
      return Err(WriteFailed(block));
    }
    repository.UpdateProgress(chain, block);
    counter.total := counter.total + 1;
    return Ok(());
  }

  /** What the loop answers: nothing if the task stops before it has an answer. */
  function Verdict(from: u64, end: u64, faults: Faults, turns: nat): Option<Result<(), SyncError>> {
    var n := Advance(from, end, faults, turns);
    var next := After(from, n + 1);
    if next > end then Some(Ok(()))
    else if n == turns then None
    else Some(Err(faults.Error(next)))
  }

  /** The blocks that go through are exactly those before the first fault, the end, or the last turn. */
  lemma {:induction false} AdvanceMeaning(from: u64, end: u64, faults: Faults, turns: nat)
    ensures var n := Advance(from, end, faults, turns);
            && AllPassed(from, n, end, faults)
            && (n == turns || !Passed(After(from, n + 1), end, faults))
    decreases turns
  {
    var next := Next(from);
    if turns > 0 && Passed(next, end, faults) {
      AdvanceMeaning(next, end, faults, turns - 1);
      var m := Advance(next, end, faults, turns - 1);
      AfterAfter(from, 1, m + 1);
      forall i | 0 < i <= m + 1
        ensures Passed(After(from, i), end, faults)
      {
        if i > 1 { AfterAfter(from, 1, i - 1); }
      }
    }
  }

  /** A run that has gone through every block so far and stops for one of the three reasons has gone as far
      as it can. */
  lemma StopsThere(from: u64, end: u64, faults: Faults, turns: nat, done: nat)
    requires done <= turns
    requires AllPassed(from, done, end, faults)
    requires done == turns || !Passed(After(from, done + 1), end, faults)
    ensures done == Advance(from, end, faults, turns)
  {
    AdvanceMeaning(from, end, faults, turns);
  }

  /** The loop of `sync_chain` over the blocks after `from`, cut off after the given number of turns. */
  method SyncBlocks(repository: SyncRepository, counter: Counter, chain: string, from: u64, end: u64, faults: Faults,
                    turns: nat) returns (r: Option<Result<(), SyncError>>)
    requires repository.Valid()
    modifies repository, counter
    ensures repository.Valid() && repository.OthersKept(old(repository.recorded), chain)
    ensures var n := Advance(from, end, faults, turns);
            && repository.History(chain) == old(repository.History(chain)) + Blocks(from, n)
            && counter.total == old(counter.total) + n
    ensures r == Verdict(from, end, faults, turns)
  {
    ghost var history := repository.History(chain);
    var done, current := 0, Next(from);
    while current <= end
      invariant current == After(from, done + 1) && done <= turns
      invariant AllPassed(from, done, end, faults)
      invariant repository.Valid() && repository.OthersKept(old(repository.recorded), chain)
      invariant repository.History(chain) == Followed(history, from, done)
      invariant counter.total == old(counter.total) + done
      decreases turns - done
    {
      if done == turns {
        StopsThere(from, end, faults, turns, done);
        FollowedBlocks(history, from, done);
        return None;
      }
      var turn := SyncBlock(repository, counter, chain, current, faults);
      if turn.Err? {
        StopsThere(from, end, faults, turns, done);
        FollowedBlocks(history, from, done);
        return Some(turn);
      }
      OneMorePassed(from, done, end, faults);
      done, current := done + 1, Next(current);
    }
    StopsThere(from, end, faults, turns, done);
    FollowedBlocks(history, from, done);
    return Some(Ok(()));
  }

  /** How many blocks a pass records. */
  function PassLength(from: u64, tip: Option<u64>, batch: u64, faults: Faults, turns: nat): nat {
    if tip.Some? && from < tip.value then Advance(from, PassEnd(from, tip.value, batch), faults, turns) else 0
  }

  /** What a pass answers. */
  function PassVerdict(from: u64, tip: Option<u64>, batch: u64, faults: Faults, turns: nat)
    : Option<Result<(), SyncError>>
  {
    if tip.None? then Some(Err(TipUnavailable))
    else if from >= tip.value then Some(Ok(()))
    else Verdict(from, PassEnd(from, tip.value, batch), faults, turns)
  }

  /** `sync_chain`: one pass over one chain. */
  method SyncChain(repository: SyncRepository, counter: Counter, chain: string, start: Option<u64>, tip: Option<u64>,
                   batch: u64, faults: Faults, turns: nat) returns (r: Option<Result<(), SyncError>>)
    requires repository.Valid()
    modifies repository, counter
    ensures repository.Valid() && repository.OthersKept(old(repository.recorded), chain)
    ensures var history := old(repository.History(chain));
            var from := From(LastOf(history), start);
            var n := PassLength(from, tip, batch, faults, turns);
            && repository.History(chain) == history + Blocks(from, n)
            && counter.total == old(counter.total) + n
            && r == PassVerdict(from, tip, batch, faults, turns)
  {
    var stored := repository.GetLatestBlock(chain);
    var from := From(stored, start);
    assert repository.History(chain) + Blocks(from, 0) == repository.History(chain);
    if tip.None? {
      return Some(Err(TipUnavailable));
    }
    if from >= tip.value {
      return Some(Ok(()));
    }
    r := SyncBlocks(repository, counter, chain, from, PassEnd(from, tip.value, batch), faults, turns);
  }

  /** `reindex_from`: forget the progress, then sync from the given block — unless the chain has no
      configuration, in which case the override is dropped and the pass starts at genesis. Whether the chain
      has an indexer is asked only after the reset. */
  method ReindexFrom(repository: SyncRepository, counter: Counter, chain: string, resettable: bool, indexed: bool,
                     configured: bool, block: u64, tip: Option<u64>, batch: u64, faults: Faults, turns: nat)
    returns (r: Option<Result<(), SyncError>>)
    requires repository.Valid()
    modifies repository, counter
    ensures repository.Valid() && repository.OthersKept(old(repository.recorded), chain)
    ensures var from := if configured then block else 0;
            var n := if indexed then PassLength(from, tip, batch, faults, turns) else 0;
            if !resettable then
              && repository.recorded == old(repository.recorded) && counter.total == old(counter.total)
              && r == Some(Err(ResetFailed))
            else
              && repository.History(chain) == Blocks(from, n) && counter.total == old(counter.total) + n
              && r == if indexed then PassVerdict(from, tip, batch, faults, turns) else Some(Err(UnknownChain))
  {
    if !resettable {
      return Some(Err(ResetFailed));
    }
    repository.Reset(chain);
    ghost var from := if configured then block else 0;
    if !indexed {
      assert [] == Blocks(from, 0);
      return Some(Err(UnknownChain));
    }
    ghost var blocks := Blocks(from, PassLength(from, tip, batch, faults, turns));
    assert [] + blocks == blocks;
    r := SyncChain(repository, counter, chain, if configured then Some(block) else None, tip, batch, faults, turns);
  }

  // ---- When a pass ends -----------------------------------------------------

  /** A pass can record a block exactly if the batch size is positive and does not wrap past `u64::MAX`. */
  lemma PassMovesIff(from: u64, tip: u64, batch: u64)
    requires from < tip
    ensures from < PassEnd(from, tip, batch) <==> 0 < batch && from + batch <= U64_MAX
    ensures 0 < batch && from + batch <= U64_MAX ==>
              PassEnd(from, tip, batch) == if from + batch < tip then from + batch else tip
  {
  }

  lemma {:induction false} EndsAtEnd(from: u64, end: u64, faults: Faults, turns: nat)
    requires from < U64_MAX && end < U64_MAX && turns >= end - from
    ensures Verdict(from, end, faults, turns).Some?
    decreases turns
  {
    if turns > 0 && from < end && !faults.Hit(from + 1) {
      EndsAtEnd(from + 1, end, faults, turns - 1);
      AfterAfter(from, 1, Advance(from + 1, end, faults, turns - 1) + 1);
    } else {
      assert After(from, 1) == from + 1;
    }
  }

  lemma {:induction false} EndsAtFault(from: u64, faults: Faults, distance: nat, turns: nat)
    requires distance < turns && faults.Hit(After(from, distance + 1))
    ensures Verdict(from, U64_MAX, faults, turns).Some?
    decreases turns
  {
    var next := Next(from);
    if !faults.Hit(next) {
      AfterAfter(from, 1, distance);
      EndsAtFault(next, faults, distance - 1, turns - 1);
      AfterAfter(from, 1, Advance(next, U64_MAX, faults, turns - 1) + 1);
    }
  }

  /** Counting on from any block reaches every other. */
  lemma ReachesAll(from: u64, block: u64) returns (distance: nat)
    ensures distance < TWO_TO_64 && After(from, distance + 1) == block
  {
    if from < block {
      distance := block - from - 1;
      AfterBelowMax(from, block - from);
    } else {
      distance := U64_MAX - from + block;
      AfterBelowMax(from, U64_MAX - from);
      assert After(from, U64_MAX - from + 1) == 0;
      AfterAfter(from, U64_MAX - from + 1, block);
      AfterBelowMax(0, block);
    }
  }

  lemma NeverEnds(from: u64, faults: Faults, turns: nat)
    requires forall b: u64 :: !faults.Hit(b)
    ensures Verdict(from, U64_MAX, faults, turns) == None
  {
    AdvanceMeaning(from, U64_MAX, faults, turns);
  }

  /** The loop counter wraps, so a pass that aims for `u64::MAX` never ends by itself: given enough turns a pass
      has an answer exactly if its end is below, or some block fails. */
  lemma PassEndsIff(from: u64, end: u64, faults: Faults)
    requires from < U64_MAX
    ensures Verdict(from, end, faults, TWO_TO_64).Some? <==> end < U64_MAX || exists b: u64 :: faults.Hit(b)
    ensures forall turns: nat :: end == U64_MAX && (forall b: u64 :: !faults.Hit(b)) ==>
              Verdict(from, end, faults, turns) == None
  {
    if end < U64_MAX {
      EndsAtEnd(from, end, faults, TWO_TO_64);
    } else if b: u64 :| faults.Hit(b) {
      var distance := ReachesAll(from, b);
      EndsAtFault(from, faults, distance, TWO_TO_64);
    } else {
      forall turns: nat
        ensures Verdict(from, end, faults, turns) == None
      {
        NeverEnds(from, faults, turns);
      }
    }
  }

  // ---- Many passes ----------------------------------------------------------

  /** What one interval of a chain's task meets: the node's tip, the faults, and how long the task lives. */
  datatype Round = Round(tip: Option<u64>, faults: Faults, turns: nat)

  /** A chain's history after a number of passes, each resuming where the one before it ended. */
  function Polled(history: seq<u64>, start: Option<u64>, rounds: seq<Round>, batch: u64): seq<u64>
    decreases |rounds|
  {
    if rounds == [] then history else
      var n := |rounds| - 1;
      var before := Polled(history, start, rounds[..n], batch);
      var from := From(LastOf(before), start);
      before + Blocks(from, PassLength(from, rounds[n].tip, batch, rounds[n].faults, rounds[n].turns))
  }

  /** The polling loop of a chain's task: a failed pass is logged and the next interval tries again. */
  method PollChain(repository: SyncRepository, counter: Counter, chain: string, start: Option<u64>,
                   rounds: seq<Round>, batch: u64)
    requires repository.Valid()
    modifies repository, counter
    ensures repository.Valid() && repository.OthersKept(old(repository.recorded), chain)
    ensures repository.History(chain) == Polled(old(repository.History(chain)), start, rounds, batch)
    ensures counter.total + |old(repository.History(chain))| == old(counter.total) + |repository.History(chain)|
  {
    ghost var history := repository.History(chain);
    for i := 0 to |rounds|
      invariant repository.Valid() && repository.OthersKept(old(repository.recorded), chain)
      invariant repository.History(chain) == Polled(history, start, rounds[..i], batch)
      invariant counter.total + |history| == old(counter.total) + |repository.History(chain)|
    {
      assert rounds[..i + 1][..i] == rounds[..i];
      var _ := SyncChain(repository, counter, chain, start, rounds[i].tip, batch, rounds[i].faults, rounds[i].turns);
    }
    assert rounds[..|rounds|] == rounds;
  }

  /** Where the passes have brought a chain. */
  function Progress(history: seq<u64>, start: Option<u64>, rounds: seq<Round>, batch: u64): u64 {
    From(LastOf(Polled(history, start, rounds, batch)), start)
  }

  lemma LastOfSum(a: seq<u64>, b: seq<u64>)
    ensures LastOf(a + b) == if b == [] then LastOf(a) else Some(b[|b| - 1])
  {
    assert b == [] ==> a + b == a;
  }

  /** After a stretch of blocks the next pass resumes at its last one. */
  lemma Resumes(history: seq<u64>, start: Option<u64>, n: nat)
    ensures var from := From(LastOf(history), start);
            From(LastOf(history + Blocks(from, n)), start) == After(from, n)
  {
    LastOfSum(history, Blocks(From(LastOf(history), start), n));
  }

  lemma Extend(history: seq<u64>, from: u64, m: nat, n: nat)
    ensures history + Blocks(from, m) + Blocks(After(from, m), n) == history + Blocks(from, m + n)
  {
    BlocksAppend(from, m, n);
  }

  /** Whatever the passes met, they recorded one stretch: the blocks after the first one's start, each next to the
      one before it. */
  lemma {:induction false} PolledIsOneStretch(history: seq<u64>, start: Option<u64>, rounds: seq<Round>, batch: u64)
    returns (length: nat)
    ensures Polled(history, start, rounds, batch) == history + Blocks(From(LastOf(history), start), length)
    ensures Progress(history, start, rounds, batch) == After(From(LastOf(history), start), length)
    decreases |rounds|
  {
    var from := From(LastOf(history), start);
    if rounds == [] {
      length := 0;
      assert history + Blocks(from, length) == history;
    } else {
      var n := |rounds| - 1;
      var before := PolledIsOneStretch(history, start, rounds[..n], batch);
      var more := PassLength(After(from, before), rounds[n].tip, batch, rounds[n].faults, rounds[n].turns);
      Extend(history, from, before, more);
      length := before + more;
    }
    Resumes(history, start, length);
  }

  lemma {:induction false} AdvanceLimit(from: u64, end: u64, faults: Faults, turns: nat)
    requires from < U64_MAX && end < U64_MAX
    ensures Advance(from, end, faults, turns) <= if from < end then end - from else 0
    decreases turns
  {
    if turns > 0 && from < end && !faults.Hit(from + 1) { AdvanceLimit(from + 1, end, faults, turns - 1); }
  }

  /** A pass below `u64::MAX` goes forward, by at most a batch and not past the tip. */
  lemma PassLimit(from: u64, tip: Option<u64>, batch: u64, faults: Faults, turns: nat)
    requires tip.Some? ==> tip.value < U64_MAX
    ensures PassLength(from, tip, batch, faults, turns) <= batch
    ensures from + PassLength(from, tip, batch, faults, turns) <= U64_MAX
  {
    if tip.Some? && from < tip.value {
      PassMovesIff(from, tip.value, batch);
      AdvanceLimit(from, PassEnd(from, tip.value, batch), faults, turns);
    }
  }

  /** The pass succeeds, and the node's tip is at the goal or past it. */
  predicate Succeeds(from: u64, round: Round, goal: u64, batch: u64) {
    && PassVerdict(from, round.tip, batch, round.faults, round.turns) == Some(Ok(()))
    && goal <= round.tip.value
  }

  /** A successful pass goes forward by a batch, or to the goal. */
  lemma SuccessfulPass(from: u64, round: Round, goal: u64, batch: u64)
    requires Succeeds(from, round, goal, batch) && round.tip.value < U64_MAX
    requires from < goal && goal + batch <= U64_MAX
    ensures var n := PassLength(from, round.tip, batch, round.faults, round.turns);
            n == batch || from + n >= goal
  {
    if batch > 0 {
      PassMovesIff(from, round.tip.value, batch);
      PassLimit(from, round.tip, batch, round.faults, round.turns);
      AfterBelowMax(from, PassLength(from, round.tip, batch, round.faults, round.turns) + 1);
    }
  }

  /** How many of the passes, each resuming where the one before it ended, succeed. */
  function Successes(history: seq<u64>, start: Option<u64>, rounds: seq<Round>, batch: u64, goal: u64): nat
    decreases |rounds|
  {
    if rounds == [] then 0 else
      var n := |rounds| - 1;
      Successes(history, start, rounds[..n], batch, goal)
      + if Succeeds(Progress(history, start, rounds[..n], batch), rounds[n], goal, batch) then 1 else 0
  }

  ghost predicate TipsBelowMax(rounds: seq<Round>) {
    forall i :: 0 <= i < |rounds| && rounds[i].tip.Some? ==> rounds[i].tip.value < U64_MAX
  }

  /** The last pass of a list. */
  lemma LastPass(history: seq<u64>, start: Option<u64>, rounds: seq<Round>, batch: u64)
    requires rounds != []
    ensures var n := |rounds| - 1;
            var from := Progress(history, start, rounds[..n], batch);
            Progress(history, start, rounds, batch)
            == After(from, PassLength(from, rounds[n].tip, batch, rounds[n].faults, rounds[n].turns))
  {
    var n := |rounds| - 1;
    var before := Polled(history, start, rounds[..n], batch);
    var from := From(LastOf(before), start);
    Resumes(before, start, PassLength(from, rounds[n].tip, batch, rounds[n].faults, rounds[n].turns));
  }

  /** One more pass. */
  lemma PassBounds(now: u64, round: Round, batch: u64, goal: u64) returns (next: u64)
    requires (round.tip.Some? ==> round.tip.value < U64_MAX) && goal + batch <= U64_MAX
    ensures next == After(now, PassLength(now, round.tip, batch, round.faults, round.turns))
    ensures now <= next <= now + batch
    ensures Succeeds(now, round, goal, batch) && next < goal ==> next == now + batch
  {
    var n := PassLength(now, round.tip, batch, round.faults, round.turns);
    PassLimit(now, round.tip, batch, round.faults, round.turns);
    AfterBelowMax(now, n);
    if now < goal && Succeeds(now, round, goal, batch) { SuccessfulPass(now, round, goal, batch); }
    return now + n;
  }

  /** The block that k whole batches lead to. */
  function Reach(from: nat, k: nat, batch: nat): nat {
    if k == 0 then from else Reach(from, k - 1, batch) + batch
  }

  lemma {:induction false} ReachIsProduct(from: nat, k: nat, batch: nat)
    ensures Reach(from, k, batch) == from + k * batch
  {
    if k > 0 { ReachIsProduct(from, k - 1, batch); }
  }

  /** How far k passes from a block can have come, c of them successful. */
  ghost predicate Bounded(from: nat, now: nat, batch: nat, goal: nat, k: nat, c: nat) {
    from <= now <= Reach(from, k, batch) && (now >= goal || now >= Reach(from, c, batch))
  }

  lemma OneMorePass(from: nat, now: nat, next: nat, batch: nat, goal: nat, k: nat, c: nat, success: bool)
    requires Bounded(from, now, batch, goal, k, c)
    requires now <= next <= now + batch && (success && next < goal ==> next == now + batch)
    ensures Bounded(from, next, batch, goal, k + 1, if success then c + 1 else c)
  {
  }

  /** The last pass keeps the bounds. */
  lemma LastPassBounds(history: seq<u64>, start: Option<u64>, rounds: seq<Round>, batch: u64, goal: u64, from: nat,
                       now: u64, k: nat, c: nat)
    requires rounds != [] && TipsBelowMax(rounds) && goal + batch <= U64_MAX
    requires now == Progress(history, start, rounds[..|rounds| - 1], batch) && Bounded(from, now, batch, goal, k, c)
    ensures Bounded(from, Progress(history, start, rounds, batch), batch, goal, k + 1,
                    if Succeeds(now, rounds[|rounds| - 1], goal, batch) then c + 1 else c)
  {
    var last := rounds[|rounds| - 1];
    LastPass(history, start, rounds, batch);
    var next := PassBounds(now, last, batch, goal);
    OneMorePass(from, now, next, batch, goal, k, c, Succeeds(now, last, goal, batch));
  }

  /** Each pass goes at most a batch forward, and each successful one a whole batch until the goal. */
  lemma {:induction false} ProgressBounds(history: seq<u64>, start: Option<u64>, rounds: seq<Round>, batch: u64,
                                          goal: u64)
    requires TipsBelowMax(rounds) && goal + batch <= U64_MAX
    ensures Bounded(From(LastOf(history), start), Progress(history, start, rounds, batch), batch, goal,
                    |rounds|, Successes(history, start, rounds, batch, goal))
    decreases |rounds|
  {
    var from := From(LastOf(history), start);
    if rounds == [] {
      assert Progress(history, start, rounds, batch) == from;
    } else {
      var n := |rounds| - 1;
      ProgressBounds(history, start, rounds[..n], batch, goal);
      LastPassBounds(history, start, rounds, batch, goal, from, Progress(history, start, rounds[..n], batch), n,
                     Successes(history, start, rounds[..n], batch, goal));
    }
  }

  function CeilDiv(a: nat, b: nat): nat
    requires b > 0
  {
    (a + b - 1) / b
  }

  lemma Multiples(j: nat, k: nat, b: nat)
    requires j <= k
    ensures j * b <= k * b
  {
  }

  /** The ceiling is the least number of batches that cover the distance. */
  lemma CeilDivIff(a: nat, b: nat, k: nat)
    requires b > 0
    ensures CeilDiv(a, b) <= k <==> a <= k * b
  {
    var q := CeilDiv(a, b);
    assert a + b - 1 == q * b + (a + b - 1) % b;
    if q <= k { Multiples(q, k, b); } else { Multiples(k + 1, q, b); }
  }

  /** Whatever else fails in between, ceil((goal - progress) / batch) successful passes reach the goal, and no fewer
      passes do. */
  lemma TipReachedInCeil(history: seq<u64>, start: Option<u64>, rounds: seq<Round>, batch: u64, goal: u64)
    requires TipsBelowMax(rounds) && 0 < batch && goal + batch <= U64_MAX && From(LastOf(history), start) <= goal
    ensures var passes := CeilDiv(goal - From(LastOf(history), start), batch);
            && (Successes(history, start, rounds, batch, goal) >= passes ==>
                  Progress(history, start, rounds, batch) >= goal)
            && (Progress(history, start, rounds, batch) >= goal ==> |rounds| >= passes)
  {
    var left := goal - From(LastOf(history), start);
    ProgressBounds(history, start, rounds, batch, goal);
    ReachIsProduct(From(LastOf(history), start), Successes(history, start, rounds, batch, goal), batch);
    ReachIsProduct(From(LastOf(history), start), |rounds|, batch);
    CeilDivIff(left, batch, Successes(history, start, rounds, batch, goal));
    CeilDivIff(left, batch, |rounds|);
  }

  /** No pass goes past a fixed tip. */
  lemma {:induction false} TipIsBound(history: seq<u64>, start: Option<u64>, rounds: seq<Round>, batch: u64, tip: u64)
    requires From(LastOf(history), start) <= tip < U64_MAX
    requires forall i :: 0 <= i < |rounds| && rounds[i].tip.Some? ==> rounds[i].tip.value == tip
    ensures Progress(history, start, rounds, batch) <= tip
    decreases |rounds|
  {
    if rounds != [] {
      var n := |rounds| - 1;
      TipIsBound(history, start, rounds[..n], batch, tip);
      LastPass(history, start, rounds, batch);
      PassStaysAtTip(Progress(history, start, rounds[..n], batch), rounds[n], batch, tip);
    }
  }

  lemma PassStaysAtTip(from: u64, round: Round, batch: u64, tip: u64)
    requires from <= tip < U64_MAX && (round.tip.Some? ==> round.tip.value == tip)
    ensures After(from, PassLength(from, round.tip, batch, round.faults, round.turns)) <= tip
  {
    PassLimit(from, round.tip, batch, round.faults, round.turns);
    AfterBelowMax(from, PassLength(from, round.tip, batch, round.faults, round.turns));
    if round.tip.Some? && from < tip { AdvanceLimit(from, PassEnd(from, tip, batch), round.faults, round.turns); }
  }

  /** Passes that all succeed reach a fixed tip with the ceil((tip - progress) / batch)-th of them, not before, and
      stay there. */
  lemma SuccessfulPassesReachTip(history: seq<u64>, start: Option<u64>, rounds: seq<Round>, batch: u64, tip: u64)
    requires 0 < batch && tip + batch <= U64_MAX && From(LastOf(history), start) <= tip
    requires forall i :: 0 <= i < |rounds| ==> rounds[i].tip == Some(tip)
    requires Successes(history, start, rounds, batch, tip) == |rounds|
    ensures Progress(history, start, rounds, batch) == tip
       <==> |rounds| >= CeilDiv(tip - From(LastOf(history), start), batch)
  {
    TipReachedInCeil(history, start, rounds, batch, tip);
    TipIsBound(history, start, rounds, batch, tip);
  }
}
