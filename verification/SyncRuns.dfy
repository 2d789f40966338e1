/** Many chains syncing at once: their tasks interleave at every database write and at every
    increment of the shared counter. */
module SyncRuns {
  import opened Words
  import opened Wrappers
  import opened ChainSync

  /** Where a chain's task stands in `sync_chain`. `Counting` is between the progress write and the counter. */
  datatype Task = Idle | Running(current: u64, end: u64) | Counting(current: u64, end: u64)

  /** One chain: the block its first pass started after, the writes to its progress row since then,
      how many writes earlier resets forgot, and its task. */
  datatype Chain = Chain(base: u64, recorded: seq<u64>, forgotten: nat, task: Task)

  datatype System = System(chains: seq<Chain>, total: nat)

  datatype Action =
    | Begin(chain: nat, start: Option<u64>, tip: Option<u64>, batch: u64)
    | Block(chain: nat, ok: bool)
    | Count(chain: nat)
    | Reset(chain: nat)

  /** The loop's guard. */
  function Continue(next: u64, end: u64): Task {
    if next <= end then Running(next, end) else Idle
  }

  /** A pass begins: resume from the stored block or the start, and aim for the end of the batch. */
  function Started(c: Chain, start: Option<u64>, tip: Option<u64>, batch: u64): Chain {
    var from := From(LastOf(c.recorded), start);
    var based := if c.recorded == [] then c.(base := from) else c;
    if tip.None? || from >= tip.value then based
    else based.(task := Continue(Next(from), PassEnd(from, tip.value, batch)))
  }

  function StepChain(c: Chain, action: Action): Chain {
    match action
    case Begin(_, start, tip, batch) => if c.task.Idle? then Started(c, start, tip, batch) else c
    case Block(_, ok) =>
      if !c.task.Running? then c
      else if !ok then c.(task := Idle)
      else c.(recorded := c.recorded + [c.task.current], task := Counting(c.task.current, c.task.end))
    case Count(_) => if c.task.Counting? then c.(task := Continue(Next(c.task.current), c.task.end)) else c
    case Reset(_) => if c.task.Idle? then c.(recorded := [], forgotten := c.forgotten + |c.recorded|) else c
  }

  function Step(s: System, action: Action): System {
    if action.chain >= |s.chains| then s else
      var c := s.chains[action.chain];
      System(s.chains[action.chain := StepChain(c, action)],
             s.total + if action.Count? && c.task.Counting? then 1 else 0)
  }

  function Run(s: System, actions: seq<Action>): System
    decreases |actions|
  {
    if actions == [] then s else Run(Step(s, actions[0]), actions[1..])
  }

  const NEW_CHAIN := Chain(0, [], 0, Idle)

  function Fresh(chains: nat): System {
    System(seq(chains, _ => NEW_CHAIN), 0)
  }

  /** Each block after the base once, in order, without gaps; the task is at the next one. */
  ghost predicate InOrder(c: Chain) {
    && c.recorded == Blocks(c.base, |c.recorded|)
    && (c.task.Running? ==> c.task.current == After(c.base, |c.recorded| + 1) && c.task.current <= c.task.end)
    && (c.task.Counting? ==> c.task.current == After(c.base, |c.recorded|) && c.recorded != [])
  }

  lemma StepKeepsOrder(c: Chain, action: Action)
    requires InOrder(c)
    ensures InOrder(StepChain(c, action))
  {
    var n := |c.recorded|;
    if action.Block? && c.task.Running? && action.ok {
      BlocksAppend(c.base, n, 1);
      assert Blocks(After(c.base, n), 1) == [c.task.current] by { AfterAfter(c.base, n, 1); }
    }
    if action.Begin? && c.recorded == [] {
      assert Blocks(From(None, action.start), 0) == [];
    }
  }

  /** Recorded blocks that the counter has not yet seen. */
  function Pending(c: Chain): nat {
    if c.task.Counting? then 1 else 0
  }

  /** Blocks ever recorded on all chains. */
  function Written(chains: seq<Chain>): nat {
    if chains == [] then 0 else chains[0].forgotten + |chains[0].recorded| + Written(chains[1..])
  }

  function AllPending(chains: seq<Chain>): nat {
    if chains == [] then 0 else Pending(chains[0]) + AllPending(chains[1..])
  }

  lemma {:induction false} SumsUpdate(chains: seq<Chain>, i: nat, c: Chain)
    requires i < |chains|
    ensures Written(chains[i := c]) + chains[i].forgotten + |chains[i].recorded|
         == Written(chains) + c.forgotten + |c.recorded|
    ensures AllPending(chains[i := c]) + Pending(chains[i]) == AllPending(chains) + Pending(c)
  {
    if i == 0 {
      assert chains[0 := c][1..] == chains[1..];
    } else {
      assert chains[i := c][1..] == chains[1..][i - 1 := c];
      SumsUpdate(chains[1..], i - 1, c);
    }
  }

  ghost predicate Sound(s: System) {
    && (forall i :: 0 <= i < |s.chains| ==> InOrder(s.chains[i]))
    && s.total + AllPending(s.chains) == Written(s.chains)
  }

  lemma StepKeepsSound(s: System, action: Action)
    requires Sound(s)
    ensures Sound(Step(s, action))
  {
    if action.chain < |s.chains| {
      var c := s.chains[action.chain];
      StepKeepsOrder(c, action);
      SumsUpdate(s.chains, action.chain, StepChain(c, action));
    }
  }

  lemma {:induction false} FreshSums(chains: seq<Chain>)
    requires forall i :: 0 <= i < |chains| ==> chains[i] == NEW_CHAIN
    ensures Written(chains) == 0 && AllPending(chains) == 0
  {
    if chains != [] { FreshSums(chains[1..]); }
  }

  lemma {:induction false} RunKeepsSound(s: System, actions: seq<Action>)
    requires Sound(s)
    ensures Sound(Run(s, actions))
    decreases |actions|
  {
    if actions != [] {
      StepKeepsSound(s, actions[0]);
      RunKeepsSound(Step(s, actions[0]), actions[1..]);
    }
  }

  /** Under any interleaving of passes, failures, moving tips and resets, every chain has recorded
      exactly the blocks after its base, each next to the one before it, and the shared counter equals
      the blocks recorded on all chains minus those whose increment is still to come. */
  lemma AnyInterleavingIsSound(chains: nat, actions: seq<Action>)
    ensures Sound(Run(Fresh(chains), actions))
  {
    FreshSums(Fresh(chains).chains);
    assert forall base :: Blocks(base, 0) == [];
    RunKeepsSound(Fresh(chains), actions);
  }

  /** No node reports `u64::MAX` as its tip. */
  ghost predicate TipsBelow(actions: seq<Action>) {
    forall a :: a in actions && a.Begin? && a.tip.Some? ==> a.tip.value < U64_MAX
  }

  /** A chain whose counter has not wrapped, and will not before its pass ends. */
  ghost predicate Unwrapped(c: Chain) {
    && c.base + |c.recorded| <= U64_MAX
    && (c.task.Running? ==> c.base + |c.recorded| < c.task.end < U64_MAX)
    && (c.task.Counting? ==> c.base + |c.recorded| <= c.task.end < U64_MAX)
  }

  lemma StepKeepsUnwrapped(c: Chain, action: Action)
    requires InOrder(c) && Unwrapped(c)
    requires action.Begin? && action.tip.Some? ==> action.tip.value < U64_MAX
    ensures Unwrapped(StepChain(c, action))
  {
    AfterBelowMax(c.base, |c.recorded|);
  }

  ghost predicate AllUnwrapped(s: System) {
    forall i :: 0 <= i < |s.chains| ==> Unwrapped(s.chains[i])
  }

  lemma {:induction false} RunKeepsUnwrapped(s: System, actions: seq<Action>)
    requires Sound(s) && AllUnwrapped(s) && TipsBelow(actions)
    ensures AllUnwrapped(Run(s, actions))
    decreases |actions|
  {
    if actions != [] {
      StepKeepsSound(s, actions[0]);
      assert actions[0] in actions;
      if actions[0].chain < |s.chains| { StepKeepsUnwrapped(s.chains[actions[0].chain], actions[0]); }
      RunKeepsUnwrapped(Step(s, actions[0]), actions[1..]);
    }
  }

  /** Unless a node reports `u64::MAX`, every chain has recorded base + 1, base + 2, ...: once each. */
  lemma RecordedIsConsecutive(chains: nat, actions: seq<Action>, i: nat)
    requires TipsBelow(actions) && i < |Run(Fresh(chains), actions).chains|
    ensures var c := Run(Fresh(chains), actions).chains[i];
            forall j :: 0 <= j < |c.recorded| ==> c.recorded[j] == c.base + 1 + j
  {
    AnyInterleavingIsSound(chains, []);
    AnyInterleavingIsSound(chains, actions);
    RunKeepsUnwrapped(Fresh(chains), actions);
    var c := Run(Fresh(chains), actions).chains[i];
    BlocksInOrder(c.base, |c.recorded|);
  }

  lemma {:induction false} NothingPending(chains: seq<Chain>)
    requires forall i :: 0 <= i < |chains| ==> chains[i].task.Idle?
    ensures AllPending(chains) == 0
  {
    if chains != [] { NothingPending(chains[1..]); }
  }

  /** Whenever no pass is running, the shared counter is the sum over all chains. */
  lemma CounterIsSum(chains: nat, actions: seq<Action>)
    requires forall c :: c in Run(Fresh(chains), actions).chains ==> c.task.Idle?
    ensures Run(Fresh(chains), actions).total == Written(Run(Fresh(chains), actions).chains)
  {
    AnyInterleavingIsSound(chains, actions);
    NothingPending(Run(Fresh(chains), actions).chains);
  }

  /** A failure at block k leaves the chain's progress just before k, and the next pass begins at k again: always
      if the chain has progress, and if k was its first block as long as the pass is given the same start. */
  lemma FailureRetriesBlock(chains: nat, actions: seq<Action>, i: nat, start: Option<u64>, tip: u64, batch: u64)
    requires i < |Run(Fresh(chains), actions).chains| && Run(Fresh(chains), actions).chains[i].task.Running?
    ensures var s := Run(Fresh(chains), actions);
            var k := s.chains[i].task.current;
            var failed := Step(s, Block(i, false)).chains[i];
            var from := From(LastOf(failed.recorded), start);
            && (failed.recorded != [] ==> Next(from) == k)
            && (failed.recorded == [] ==> (Next(from) == k <==> from == failed.base))
            && (Next(from) == k && 0 < k <= tip && 0 < batch && from + batch <= U64_MAX ==>
                  Started(failed, start, Some(tip), batch).task
                  == Running(k, if from + batch < tip then from + batch else tip))
  {
    AnyInterleavingIsSound(chains, actions);
    var c := Run(Fresh(chains), actions).chains[i];
    assert InOrder(c);
    var from := From(LastOf(c.recorded), start);
    if from < tip { PassMovesIff(from, tip, batch); }
  }

  // ---- One chain among many -------------------------------------------------

  function RunChain(c: Chain, actions: seq<Action>): Chain
    decreases |actions|
  {
    if actions == [] then c else RunChain(StepChain(c, actions[0]), actions[1..])
  }

  /** The actions of one chain's own task. */
  function Own(actions: seq<Action>, i: nat): seq<Action>
    decreases |actions|
  {
    if actions == [] then []
    else if actions[0].chain == i then [actions[0]] + Own(actions[1..], i)
    else Own(actions[1..], i)
  }

  /** In any run a chain ends up where its own actions, without all others, would have brought it. */
  lemma {:induction false} ChainRunsAlone(s: System, actions: seq<Action>, i: nat)
    requires i < |s.chains|
    ensures |Run(s, actions).chains| == |s.chains|
    ensures Run(s, actions).chains[i] == RunChain(s.chains[i], Own(actions, i))
    decreases |actions|
  {
    if actions != [] {
      ChainRunsAlone(Step(s, actions[0]), actions[1..], i);
      if actions[0].chain == i {
        var own := Own(actions, i);
        assert own[0] == actions[0] && own[1..] == Own(actions[1..], i);
      }
    }
  }

  /** The steps a task takes through the blocks after `from` when it meets these faults. */
  function Turns(i: nat, from: u64, end: u64, faults: Faults, turns: nat): seq<Action>
    decreases turns
  {
    if turns == 0 || Next(from) > end then []
    else if faults.Hit(Next(from)) then [Block(i, false)]
    else [Block(i, true), Count(i)] + Turns(i, Next(from), end, faults, turns - 1)
  }

  /** What a pass with these blocks leaves of a chain. */
  function Passed(c: Chain, from: u64, end: u64, faults: Faults, turns: nat): Chain {
    var n := Advance(from, end, faults, turns);
    c.(recorded := c.recorded + Blocks(from, n),
       task := if Verdict(from, end, faults, turns).None? then Running(After(from, n + 1), end) else Idle)
  }

  lemma OneTurn(c: Chain, from: u64, end: u64, faults: Faults, turns: nat)
    requires turns > 0 && ChainSync.Passed(Next(from), end, faults)
    requires c.task == Running(Next(from), end)
    ensures var counted := c.(recorded := c.recorded + [Next(from)], task := Continue(Next(Next(from)), end));
            Passed(counted, Next(from), end, faults, turns - 1) == Passed(c, from, end, faults, turns)
  {
    var n := Advance(Next(from), end, faults, turns - 1);
    AfterAfter(from, 1, n + 1);
    BlocksAppend(from, 1, n);
    assert Blocks(from, 1) == [Next(from)];
    assert c.recorded + [Next(from)] + Blocks(Next(from), n) == c.recorded + ([Next(from)] + Blocks(Next(from), n));
  }

  /** An undisturbed task of this machine does what the sync method does: it records the same
      blocks, as far as the first fault. */
  lemma {:induction false} TurnsAreThePass(c: Chain, i: nat, from: u64, end: u64, faults: Faults, turns: nat)
    requires c.task == Continue(Next(from), end)
    ensures RunChain(c, Turns(i, from, end, faults, turns)) == Passed(c, from, end, faults, turns)
    decreases turns
  {
    if turns > 0 && ChainSync.Passed(Next(from), end, faults) {
      var all := Turns(i, from, end, faults, turns);
      var written := StepChain(c, all[0]);
      var counted := StepChain(written, all[1]);
      assert all[1..][1..] == Turns(i, Next(from), end, faults, turns - 1);
      assert RunChain(c, all) == RunChain(counted, Turns(i, Next(from), end, faults, turns - 1));
      TurnsAreThePass(counted, i, Next(from), end, faults, turns - 1);
      OneTurn(c, from, end, faults, turns);
    } else {
      assert After(from, 1) == Next(from);
      assert c.recorded + Blocks(from, 0) == c.recorded;
    }
  }

  /** A whole pass, whatever other chains do meanwhile: the task's own actions are those of a pass, and the chain
      ends up with the history that the contract of `SyncChain` promises. */
  lemma PassAmongOthers(s: System, actions: seq<Action>, i: nat, start: Option<u64>, tip: Option<u64>, batch: u64,
                        faults: Faults, turns: nat)
    requires i < |s.chains| && s.chains[i].task.Idle?
    requires var from := From(LastOf(s.chains[i].recorded), start);
             Own(actions, i) == [Begin(i, start, tip, batch)]
               + if tip.Some? && from < tip.value then Turns(i, from, PassEnd(from, tip.value, batch), faults, turns)
                 else []
    ensures |Run(s, actions).chains| == |s.chains|
    ensures var before := s.chains[i];
            var from := From(LastOf(before.recorded), start);
            var after := Run(s, actions).chains[i];
            && after.recorded == before.recorded + Blocks(from, PassLength(from, tip, batch, faults, turns))
            && (after.task.Idle? <==> PassVerdict(from, tip, batch, faults, turns).Some?)
            && after.forgotten == before.forgotten
  {
    ChainRunsAlone(s, actions, i);
    var before := s.chains[i];
    var from := From(LastOf(before.recorded), start);
    var begun := StepChain(before, Own(actions, i)[0]);
    assert RunChain(before, Own(actions, i)) == RunChain(begun, Own(actions, i)[1..]);
    if tip.Some? && from < tip.value {
      TurnsAreThePass(begun, i, from, PassEnd(from, tip.value, batch), faults, turns);
    } else {
      assert before.recorded + Blocks(from, 0) == before.recorded;
    }
  }
}
