/** Every accepted statement sequence keeps the invariant of the tables. */
module ObservationInvariant {
  import opened Words
  import opened Databases
  import opened Records
  import opened Schema
  import opened ObservationSpec

  /** A row the schema accepts, written with a cursor past the source's current one. */
  ghost predicate Extends(t: Tables, row: ObservationRow, cursor: CursorRow) {
    && RowAccepted(t, row)
    && row.normalizedProfileVersion <= U16_MAX
    && row.observedAt <= cursor.observedAt
    && CursorTime(t, row.sourceId) < cursor.observedAt
  }

  lemma ExtendedRowsKeep(t: Tables, row: ObservationRow, subjects: seq<string>, references: seq<string>,
                         cursor: CursorRow, id: string)
    requires Extends(t, row, cursor)
    requires id != row.observationId ==> RowSound(t, id)
    ensures RowSound(Extended(t, row, subjects, references, cursor), id)
  {
  }

  lemma OneMoreKey<K, V>(m: map<K, V>, key: K, value: V)
    requires key !in m
    ensures |m[key := value]| == |m| + 1
  {
    assert m[key := value].Keys == m.Keys + {key};
  }

  /** The new row's rowid is above all others. */
  lemma RowidsGrow(t: Tables, t': Tables, id: string, row: ObservationRow)
    requires Rowids(t) && id !in t.observations
    requires t'.observations == t.observations[id := Stored(|t.observations|, row)]
    ensures Rowids(t')
  {
    OneMoreKey(t.observations, id, Stored(|t.observations|, row));
    forall a | a in t'.observations
      ensures t'.observations[a].rowid < |t'.observations|
      ensures a != id ==> t'.observations[a].rowid < t'.observations[id].rowid
    {
      if a != id { assert a in t.observations; }
    }
    forall a, b | a in t'.observations && b in t'.observations && a != b
      ensures t'.observations[a].rowid != t'.observations[b].rowid
    {
      if a != id && b != id { assert a in t.observations && b in t.observations; }
    }
  }

  lemma ExtendedChildrenOwned(t: Tables, row: ObservationRow, subjects: seq<string>, references: seq<string>,
                              cursor: CursorRow)
    requires ChildRowsOwned(t)
    ensures ChildRowsOwned(Extended(t, row, subjects, references, cursor))
  {
  }

  lemma ExtendedRowidsKeep(t: Tables, row: ObservationRow, subjects: seq<string>, references: seq<string>,
                           cursor: CursorRow)
    requires Rowids(t) && ChildRowsOwned(t) && row.observationId !in t.observations
    ensures var t' := Extended(t, row, subjects, references, cursor);
            Rowids(t') && ChildRowsOwned(t')
  {
    RowidsGrow(t, Extended(t, row, subjects, references, cursor), row.observationId, row);
    ExtendedChildrenOwned(t, row, subjects, references, cursor);
  }

  lemma ExtendedEdgesKeep(t: Tables, row: ObservationRow, subjects: seq<string>, references: seq<string>,
                          cursor: CursorRow)
    requires Rowids(t) && EdgesSound(t) && Extends(t, row, cursor)
    ensures EdgesSound(Extended(t, row, subjects, references, cursor))
  {
    var t' := Extended(t, row, subjects, references, cursor);
    forall id ensures EdgeSound(t', id) {
      assert EdgeSound(t, id);
    }
  }

  lemma ExtendedRootsKeep(t: Tables, row: ObservationRow, subjects: seq<string>, references: seq<string>,
                          cursor: CursorRow)
    requires Inv(t) && Extends(t, row, cursor)
    ensures var t' := Extended(t, row, subjects, references, cursor);
            RootsFirst(t') && DigestsUnique(t')
  {
  }

  lemma ExtendedOfSource(t: Tables, row: ObservationRow, subjects: seq<string>, references: seq<string>,
                         cursor: CursorRow, sourceId: string)
    requires row.observationId !in t.observations
    ensures var t' := Extended(t, row, subjects, references, cursor);
            && OfSource(t', sourceId)
               == OfSource(t, sourceId) + (if sourceId == row.sourceId then {row.observationId} else {})
            && CursorTime(t', sourceId)
               == if sourceId == row.sourceId then cursor.observedAt else CursorTime(t, sourceId)
  {
  }

  lemma CursorGrows(t: Tables, row: ObservationRow, subjects: seq<string>, references: seq<string>,
                    cursor: CursorRow, sourceId: string)
    requires CursorDominates(t, sourceId) && row.observationId !in t.observations
    requires row.observedAt <= cursor.observedAt && CursorTime(t, row.sourceId) < cursor.observedAt
    ensures CursorDominates(Extended(t, row, subjects, references, cursor), sourceId)
  {
    var t' := Extended(t, row, subjects, references, cursor);
    ExtendedOfSource(t, row, subjects, references, cursor, sourceId);
    assert CursorTime(t, sourceId) <= CursorTime(t', sourceId);
    forall id | id in t'.observations && t'.observations[id].row.sourceId == sourceId
      ensures t'.observations[id].row.observedAt <= CursorTime(t', sourceId)
    {
      if id != row.observationId { assert t'.observations[id] == t.observations[id]; }
    }
  }

  lemma ExtendedCursorsKeep(t: Tables, row: ObservationRow, subjects: seq<string>, references: seq<string>,
                            cursor: CursorRow, sourceId: string)
    requires CursorDominates(t, sourceId) && Extends(t, row, cursor)
    ensures CursorDominates(Extended(t, row, subjects, references, cursor), sourceId)
  {
    CursorGrows(t, row, subjects, references, cursor, sourceId);
  }

  lemma ExtendedHintsKeep(t: Tables, row: ObservationRow, subjects: seq<string>, references: seq<string>,
                          cursor: CursorRow)
    requires HintsSound(t) && row.observationId !in t.observations
    ensures HintsSound(Extended(t, row, subjects, references, cursor))
  {
    var t' := Extended(t, row, subjects, references, cursor);
    assert t'.hints == t.hints;
    forall h | h in t.hints ensures ContradictionPair(t', t.hints[h].left, t.hints[h].right) {
      PairSurvives(t, t', t.hints[h].left, t.hints[h].right);
    }
  }

  /** Contradiction pairs survive additions to the tables. */
  lemma PairSurvives(t: Tables, t': Tables, left: string, right: string)
    requires ContradictionPair(t, left, right)
    requires forall id :: id in t.observations ==> id in t'.observations && t'.observations[id] == t.observations[id]
    requires t.subjects <= t'.subjects
    ensures ContradictionPair(t', left, right)
  {
    var s :| s in t.subjects && s.0 == left && (right, s.1) in t.subjects;
    assert s in t'.subjects && (right, s.1) in t'.subjects;
  }

  lemma ExtendKeepsInv(t: Tables, row: ObservationRow, subjects: seq<string>, references: seq<string>,
                       cursor: CursorRow)
    requires Inv(t) && Extends(t, row, cursor)
    ensures Inv(Extended(t, row, subjects, references, cursor))
  {
    var t' := Extended(t, row, subjects, references, cursor);
    forall id | id in t'.observations ensures RowSound(t', id) {
      ExtendedRowsKeep(t, row, subjects, references, cursor, id);
    }
    ExtendedRowidsKeep(t, row, subjects, references, cursor);
    ExtendedEdgesKeep(t, row, subjects, references, cursor);
    ExtendedRootsKeep(t, row, subjects, references, cursor);
    ExtendedHintsKeep(t, row, subjects, references, cursor);
    forall s ensures CursorDominates(t', s) {
      ExtendedCursorsKeep(t, row, subjects, references, cursor, s);
    }
  }

  lemma AppendableExtends(t: Tables, r: ObservationRecord, c: SyncCursor)
    requires Appendable(t, r, c)
    ensures Extends(t, EncodeRow(r).value, CursorRowOf(c))
  {
  }

  /** An accepted append keeps the whole invariant. */
  lemma AppendKeepsInv(t: Tables, r: ObservationRecord, c: SyncCursor)
    requires Inv(t) && Appendable(t, r, c)
    ensures Inv(Appended(t, r, c))
  {
    AppendableExtends(t, r, c);
    ExtendKeepsInv(t, EncodeRow(r).value, r.subjectRefs, r.authenticityRefs, CursorRowOf(c));
  }

  lemma EmptyInv()
    ensures Inv(EMPTY)
  {
    forall s ensures CursorDominates(EMPTY, s) { assert OfSource(EMPTY, s) == {}; }
  }

  /** The part of the tables that only appends change. */
  ghost predicate SameEvidence(t: Tables, t': Tables) {
    && t'.observations == t.observations && t'.subjects == t.subjects
    && t'.authenticityRefs == t.authenticityRefs && t'.supersessions == t.supersessions && t'.cursors == t.cursors
  }

  /** `t'` holds the same evidence as `t`, and every source and run of `t`. */
  ghost predicate Registers(t: Tables, t': Tables) {
    SameEvidence(t, t') && t.sources.Keys <= t'.sources.Keys && t.runs.Keys <= t'.runs.Keys
  }

  /** Registrations that keep the hints sound keep the whole invariant. */
  lemma RegistrationKeepsInv(t: Tables, t': Tables)
    requires Inv(t) && Registers(t, t') && HintsSound(t')
    ensures Inv(t')
  {
    forall id | id in t'.observations ensures RowSound(t', id) { assert RowSound(t, id); }
    forall id ensures EdgeSound(t', id) { assert EdgeSound(t, id); }
    forall s ensures CursorDominates(t', s) {
      assert CursorDominates(t, s);
      assert OfSource(t', s) == OfSource(t, s);
    }
  }

  lemma PairsSurvive(t: Tables, t': Tables)
    requires HintsSound(t) && SameEvidence(t, t') && t'.hints == t.hints
    ensures HintsSound(t')
  {
    forall h | h in t'.hints ensures ContradictionPair(t', t'.hints[h].left, t'.hints[h].right) {
      PairSurvives(t, t', t.hints[h].left, t.hints[h].right);
    }
  }

  /** An outcome that only adds to the tables of prerequisites and payloads, or an error. */
  ghost predicate OnlyRegisters(t: Tables, outcome: Outcome) {
    outcome.Ok? ==> Registers(t, outcome.value) && outcome.value.hints == t.hints
  }

  lemma RetentionClassOnlyRegisters(t: Tables, r: RetentionClass)
    ensures OnlyRegisters(t, RegisterRetentionClass(t, r))
  {
  }

  lemma SourceOnlyRegisters(t: Tables, r: Source)
    ensures OnlyRegisters(t, RegisterSource(t, r))
  {
  }

  lemma RunOnlyRegisters(t: Tables, r: CollectionRun)
    ensures OnlyRegisters(t, RegisterRun(t, r))
  {
  }

  lemma PayloadOnlyRegisters(t: Tables, r: RawPayloadDescriptor)
    ensures OnlyRegisters(t, RegisterPayload(t, r))
  {
  }

  lemma PrerequisiteKeepsInv(t: Tables, t': Tables)
    requires Inv(t) && Registers(t, t') && t'.hints == t.hints
    ensures Inv(t')
  {
    PairsSurvive(t, t');
    RegistrationKeepsInv(t, t');
  }

  /** Whatever becomes of a registration, the tables it leaves satisfy the invariant. */
  lemma LeftKeepsInv(t: Tables, reply: Reply, outcome: Outcome)
    requires Inv(t) && OnlyRegisters(t, outcome)
    ensures Registers(t, Left(reply, t, outcome)) && Left(reply, t, outcome).hints == t.hints
    ensures Inv(Left(reply, t, outcome))
  {
    if outcome.Ok? { PrerequisiteKeepsInv(t, outcome.value); }
  }

  lemma HintKeepsInv(t: Tables, r: ContradictionHint, detectedAt: u64)
    requires Inv(t) && RegisterHint(t, r, detectedAt).Ok?
    ensures Inv(RegisterHint(t, r, detectedAt).value)
    ensures ContradictionPair(t, r.leftObservationId, r.rightObservationId)
  {
    var t' := RegisterHint(t, r, detectedAt).value;
    assert ContradictionPair(t, r.leftObservationId, r.rightObservationId);
    forall h | h in t'.hints ensures ContradictionPair(t', t'.hints[h].left, t'.hints[h].right) {
      PairSurvives(t, t', t'.hints[h].left, t'.hints[h].right);
    }
    RegistrationKeepsInv(t, t');
  }

  lemma EdgesOwned(t: Tables)
    requires EdgesSound(t)
    ensures t.supersessions.Keys <= t.observations.Keys
  {
    forall id | id in t.supersessions ensures id in t.observations { assert EdgeSound(t, id); }
  }

  // ---- Between the statements of a read -------------------------------------

  /** A stored observation with its references is still there as it was. */
  ghost predicate KeptAt(t: Tables, t': Tables, id: string) {
    && id in t.observations && id in t'.observations && t'.observations[id] == t.observations[id]
    && ChildrenOf(t'.subjects, id) == ChildrenOf(t.subjects, id)
    && ChildrenOf(t'.authenticityRefs, id) == ChildrenOf(t.authenticityRefs, id)
  }

  /** The tables at a later time, whatever other connections have written meanwhile. */
  ghost predicate Later(t: Tables, t': Tables) {
    Inv(t') && forall id :: id in t.observations ==> KeptAt(t, t', id)
  }

  lemma LaterStill(t: Tables, t': Tables, t'': Tables)
    requires Later(t, t') && Later(t', t'')
    ensures Later(t, t'')
  {
    forall id | id in t.observations ensures KeptAt(t, t'', id) {
      assert KeptAt(t, t', id);
      assert KeptAt(t', t'', id);
    }
  }

  /** What others make of the tables before each statement. */
  type Others = (nat, Tables) -> Tables

  ghost predicate OnlyAdd(others: Others) {
    forall n: nat, t :: Inv(t) ==> Later(t, others(n, t))
  }
}
