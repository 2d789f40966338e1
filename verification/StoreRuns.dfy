/** Whole runs of the observation store: what holds of every reachable set of
    tables, and what no later statement takes back. */
module StoreRuns {
  import opened Words
  import opened Wrappers
  import opened Records
  import opened Schema
  import opened ObservationSpec
  import opened ObservationInvariant
  import opened Lineages
  import opened TenantReads

  datatype Op =
    | AddRetentionClass(retention: RetentionClass)
    | AddSource(source: Source)
    | AddRun(run: CollectionRun)
    | AddPayload(payload: RawPayloadDescriptor)
    | AddHint(hint: ContradictionHint, detectedAt: u64)
    | Append(record: ObservationRecord, cursor: SyncCursor, interrupted: bool)

  function Attempt(t: Tables, op: Op): Outcome {
    match op
    case AddRetentionClass(retention) => RegisterRetentionClass(t, retention)
    case AddSource(source) => RegisterSource(t, source)
    case AddRun(run) => RegisterRun(t, run)
    case AddPayload(payload) => RegisterPayload(t, payload)
    case AddHint(hint, detectedAt) => RegisterHint(t, hint, detectedAt)
    case Append(record, cursor, interrupted) =>
      if interrupted then Err(Database(Disconnected))
      else if Appendable(t, record, cursor) then Ok(Appended(t, record, cursor))
      else Err(AppendFailure(t, record, cursor))
  }

  /** A failed operation changes nothing; one that takes place without an answer does what it does with one. */
  function Step(t: Tables, op: Op): Tables {
    var outcome := Attempt(t, op);
    if outcome.Ok? then outcome.value else t
  }

  function Run(ops: seq<Op>): Tables {
    if ops == [] then EMPTY else Step(Run(ops[..|ops| - 1]), ops[|ops| - 1])
  }

  /** A prerequisite or payload registration only adds to its own table. */
  lemma RegistrationShape(t: Tables, op: Op)
    requires !op.Append? && !op.AddHint?
    ensures OnlyRegisters(t, Attempt(t, op))
  {
    match op
    case AddRetentionClass(retention) => RetentionClassOnlyRegisters(t, retention);
    case AddSource(source) => SourceOnlyRegisters(t, source);
    case AddRun(run) => RunOnlyRegisters(t, run);
    case AddPayload(payload) => PayloadOnlyRegisters(t, payload);
  }

  lemma HintSameEvidence(t: Tables, hint: ContradictionHint, detectedAt: u64)
    requires RegisterHint(t, hint, detectedAt).Ok?
    ensures SameEvidence(t, RegisterHint(t, hint, detectedAt).value)
  {
  }

  lemma RegistrationKeepsEvidence(t: Tables, op: Op)
    requires Inv(t) && !op.Append?
    ensures SameEvidence(t, Step(t, op)) && Inv(Step(t, op))
  {
    if Attempt(t, op).Ok? {
      if op.AddHint? {
        HintSameEvidence(t, op.hint, op.detectedAt);
        HintKeepsInv(t, op.hint, op.detectedAt);
      } else {
        RegistrationShape(t, op);
        PrerequisiteKeepsInv(t, Step(t, op));
      }
    }
  }

  lemma AppendStep(t: Tables, op: Op) returns (stored: bool)
    requires op.Append?
    ensures stored ==> Appendable(t, op.record, op.cursor) && Step(t, op) == Appended(t, op.record, op.cursor)
    ensures !stored ==> Step(t, op) == t
  {
    return !op.interrupted && Appendable(t, op.record, op.cursor);
  }

  lemma StepKeepsInv(t: Tables, op: Op)
    requires Inv(t)
    ensures Inv(Step(t, op))
  {
    if op.Append? {
      var stored := AppendStep(t, op);
      if stored { AppendKeepsInv(t, op.record, op.cursor); }
    } else {
      RegistrationKeepsEvidence(t, op);
    }
  }

  /** Every reachable store satisfies the invariant: lineage forest, unique digests,
      cursor dominance and counting, confined hints. */
  lemma {:induction false} ReachableInv(ops: seq<Op>)
    ensures Inv(Run(ops))
  {
    if ops == [] {
      EmptyInv();
    } else {
      ReachableInv(ops[..|ops| - 1]);
      StepKeepsInv(Run(ops[..|ops| - 1]), ops[|ops| - 1]);
    }
  }

  /** One more operation changes what is read of no stored observation. */
  lemma StepKeepsRead(t: Tables, op: Op, id: string)
    requires Inv(t) && id in t.observations
    ensures id in Step(t, op).observations && ReadObservation(Step(t, op), id) == ReadObservation(t, id)
  {
    if op.Append? {
      if !op.interrupted && Appendable(t, op.record, op.cursor) {
        FreshId(t, op.record, op.cursor);
        AppendKeepsReads(t, op.record, op.cursor, id);
      }
    } else {
      RegistrationKeepsEvidence(t, op);
    }
  }

  lemma StepKeepsCursor(t: Tables, op: Op, sourceId: string)
    requires Inv(t)
    ensures CursorTime(t, sourceId) <= CursorTime(Step(t, op), sourceId)
  {
    if op.Append? {
      if !op.interrupted && Appendable(t, op.record, op.cursor) {
        AppendedCursor(t, op.record, op.cursor, sourceId);
      }
    } else {
      RegistrationKeepsEvidence(t, op);
    }
  }

  lemma FreshId(t: Tables, r: ObservationRecord, c: SyncCursor)
    requires Appendable(t, r, c)
    ensures r.observationId !in t.observations
  {
  }

  lemma AppendedCursor(t: Tables, r: ObservationRecord, c: SyncCursor, sourceId: string)
    requires Appendable(t, r, c)
    ensures if sourceId == r.sourceId
            then CursorTime(t, sourceId) < CursorTime(Appended(t, r, c), sourceId)
            else CursorTime(t, sourceId) == CursorTime(Appended(t, r, c), sourceId)
  {
  }

  /** What is read of the observation survives every step. */
  ghost predicate StepsKeep<T>(id: string, read: Tables -> T) {
    forall t: Tables, op: Op :: Inv(t) && id in t.observations ==>
      id in Step(t, op).observations && read(Step(t, op)) == read(t)
  }

  lemma {:induction false} RunKeeps<T>(ops: seq<Op>, k: nat, id: string, read: Tables -> T)
    requires k <= |ops| && id in Run(ops[..k]).observations && StepsKeep(id, read)
    ensures id in Run(ops).observations && read(Run(ops)) == read(Run(ops[..k]))
    decreases |ops|
  {
    if k == |ops| {
      assert ops[..k] == ops;
    } else {
      var n := |ops| - 1;
      assert ops[..n][..k] == ops[..k];
      RunKeeps(ops[..n], k, id, read);
      ReachableInv(ops[..n]);
    }
  }

  /** History is append-only: what was once read of an observation is read of it for ever. */
  lemma HistoryIsKept(ops: seq<Op>, k: nat, id: string)
    requires k <= |ops| && id in Run(ops[..k]).observations
    ensures id in Run(ops).observations && ReadObservation(Run(ops), id) == ReadObservation(Run(ops[..k]), id)
  {
    var read := (t: Tables) => ReadObservation(t, id);
    forall t: Tables, op: Op | Inv(t) && id in t.observations
      ensures id in Step(t, op).observations && read(Step(t, op)) == read(t)
    {
      StepKeepsRead(t, op, id);
    }
    RunKeeps(ops, k, id, read);
  }

  lemma AppendKeepsRow(t: Tables, r: ObservationRecord, c: SyncCursor, id: string)
    requires Appendable(t, r, c) && id in t.observations
    ensures id in Appended(t, r, c).observations && Appended(t, r, c).observations[id] == t.observations[id]
  {
    FreshId(t, r, c);
  }

  lemma StepKeepsRow(t: Tables, op: Op, id: string)
    requires Inv(t) && id in t.observations
    ensures id in Step(t, op).observations && Step(t, op).observations[id] == t.observations[id]
  {
    if op.Append? {
      var stored := AppendStep(t, op);
      if stored { AppendKeepsRow(t, op.record, op.cursor, id); }
    } else {
      RegistrationKeepsEvidence(t, op);
    }
  }

  /** Once an observation is stored, no later point of the run accepts another one with its id, nor one of its event
      that repeats its digest or names no predecessor. */
  lemma StoredRowsExclude(ops: seq<Op>, k: nat, id: string, later: ObservationRow)
    requires k <= |ops| && id in Run(ops[..k]).observations
    ensures id in Run(ops).observations && Run(ops).observations[id] == Run(ops[..k]).observations[id]
    ensures var row := Run(ops[..k]).observations[id].row;
            later.observationId == id
            || (SameEvent(row, later)
                && (later.supersedes.None? || later.normalizedPayloadDigest == row.normalizedPayloadDigest))
            ==> InsertObservationRow(Run(ops), later).Err?
  {
    var read := (t: Tables) => if id in t.observations then Some(t.observations[id]) else None;
    forall t: Tables, op: Op | Inv(t) && id in t.observations
      ensures id in Step(t, op).observations && read(Step(t, op)) == read(t)
    {
      StepKeepsRow(t, op, id);
    }
    RunKeeps(ops, k, id, read);
    assert read(Run(ops)) == read(Run(ops[..k]));
  }

  /** No cursor ever moves back. */
  lemma {:induction false} CursorNeverRetreats(ops: seq<Op>, k: nat, sourceId: string)
    requires k <= |ops|
    ensures CursorTime(Run(ops[..k]), sourceId) <= CursorTime(Run(ops), sourceId)
    decreases |ops|
  {
    if k == |ops| {
      assert ops[..k] == ops;
    } else {
      var n := |ops| - 1;
      assert ops[..n][..k] == ops[..k];
      CursorNeverRetreats(ops[..n], k, sourceId);
      ReachableInv(ops[..n]);
      StepKeepsCursor(Run(ops[..n]), ops[n], sourceId);
    }
  }

  lemma AcceptedAppendAdvances(t: Tables, op: Op, t': Tables)
    requires op.Append? && t' == Step(t, op) && t' != t
    ensures CursorTime(t, op.record.sourceId) < CursorTime(t', op.record.sourceId)
  {
    AppendedCursor(t, op.record, op.cursor, op.record.sourceId);
  }

  lemma RunAdvances(ops: seq<Op>)
    requires ops != [] && ops[|ops| - 1].Append? && Run(ops) != Run(ops[..|ops| - 1])
    ensures var sourceId := ops[|ops| - 1].record.sourceId;
            CursorTime(Run(ops[..|ops| - 1]), sourceId) < CursorTime(Run(ops), sourceId)
  {
    AcceptedAppendAdvances(Run(ops[..|ops| - 1]), ops[|ops| - 1], Run(ops));
  }

  /** Every append that changes the store strictly increases its source's cursor time, for ever. */
  lemma {:induction false} AppendsAdvanceCursor(ops: seq<Op>, i: nat)
    requires i < |ops| && ops[i].Append? && Run(ops[..i + 1]) != Run(ops[..i])
    ensures CursorTime(Run(ops[..i]), ops[i].record.sourceId) < CursorTime(Run(ops), ops[i].record.sourceId)
  {
    assert ops[..i + 1][..i] == ops[..i];
    RunAdvances(ops[..i + 1]);
    CursorNeverRetreats(ops, i + 1, ops[i].record.sourceId);
  }

  /** In every reachable store a source's cursor time is at least each of its observation
      times and at least the number of its observations. */
  lemma ReachableCursorDominates(ops: seq<Op>, sourceId: string, id: string)
    ensures |OfSource(Run(ops), sourceId)| <= CursorTime(Run(ops), sourceId)
    ensures id in OfSource(Run(ops), sourceId) ==>
              Run(ops).observations[id].row.observedAt <= CursorTime(Run(ops), sourceId)
  {
    ReachableInv(ops);
    assert CursorDominates(Run(ops), sourceId);
  }

  /** In every reachable store each source event has one tree of corrections: one root, first
      inserted, where every lineage of the event ends without repetition. */
  lemma ReachableLineageTree(ops: seq<Op>, id: string, other: string)
    requires id in Run(ops).observations && other in EventRows(Run(ops), id)
    ensures var t := Run(ops);
            && EdgesSound(t)
            && var ids, root := Lineage(t, id), Lineage(t, id)[|Lineage(t, id)| - 1];
               && IsRoot(t, root) && root in EventRows(t, id)
               && (IsRoot(t, other) <==> other == root)
               && Rank(t, root) <= Rank(t, other)
               && Lineage(t, other)[|Lineage(t, other)| - 1] == root
               && (forall i, j :: 0 <= i < j < |ids| ==> ids[i] != ids[j])
               && |ids| <= |EventDigests(t, id)|
  {
    var t := Run(ops);
    ReachableInv(ops);
    LineageRepeatsNothing(t, id);
    OneRootPerEvent(t, id, other);
    LineageBoundedByDigests(t, id);
  }

  /** Two runs that leave a tenant the same visible rows answer all of its reads alike. */
  lemma ReachableNoninterference(ops: seq<Op>, other: seq<Op>, id: string, tenant: string, limit: i64)
    requires VisiblyEqual(Run(ops), Run(other), tenant)
    ensures EdgesSound(Run(ops)) && EdgesSound(Run(other))
    ensures ReadVisible(Run(ops), id, tenant) == ReadVisible(Run(other), id, tenant)
    ensures ReadVisibleLineage(Run(ops), id, tenant) == ReadVisibleLineage(Run(other), id, tenant)
    ensures ReadVisibleList(Run(ops), tenant, limit) == ReadVisibleList(Run(other), tenant, limit)
  {
    ReachableInv(ops);
    ReachableInv(other);
    Noninterference(Run(ops), Run(other), id, tenant, limit);
  }

  // ---- Reads while others write ---------------------------------------------

  /** The tables after further operations. */
  function After(t: Tables, ops: seq<Op>): Tables
    decreases |ops|
  {
    if ops == [] then t else After(Step(t, ops[0]), ops[1..])
  }

  lemma AppendKeepsAt(t: Tables, r: ObservationRecord, c: SyncCursor, id: string)
    requires Inv(t) && Appendable(t, r, c) && id in t.observations
    ensures KeptAt(t, Appended(t, r, c), id)
  {
    FreshId(t, r, c);
    AppendKeepsRow(t, r, c, id);
    NewChildren(t.subjects, r.observationId, r.subjectRefs, id);
    NewChildren(t.authenticityRefs, r.observationId, r.authenticityRefs, id);
  }

  lemma StepIsLater(t: Tables, op: Op)
    requires Inv(t)
    ensures Later(t, Step(t, op))
  {
    StepKeepsInv(t, op);
    forall id | id in t.observations ensures KeptAt(t, Step(t, op), id) {
      if op.Append? {
        var stored := AppendStep(t, op);
        if stored { AppendKeepsAt(t, op.record, op.cursor, id); }
      } else {
        RegistrationKeepsEvidence(t, op);
      }
    }
  }

  lemma {:induction false} AfterIsLater(t: Tables, ops: seq<Op>)
    requires Inv(t)
    ensures Later(t, After(t, ops))
    decreases |ops|
  {
    if ops != [] {
      StepIsLater(t, ops[0]);
      AfterIsLater(Step(t, ops[0]), ops[1..]);
      LaterStill(t, Step(t, ops[0]), After(t, ops));
    }
  }

  /** Whatever operations others carry out before each statement of a read, they are such as the reads allow. */
  lemma OperationsOnlyAdd(writes: nat -> seq<Op>)
    ensures OnlyAdd((n: nat, t: Tables) => After(t, writes(n)))
  {
    forall n: nat, t | Inv(t) ensures Later(t, After(t, writes(n))) {
      AfterIsLater(t, writes(n));
    }
  }
}
