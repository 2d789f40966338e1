/** `ObservationRepository` (storage/src/repositories/observations.rs) over its database. */
module ObservationStore {
  import opened Words
  import opened Wrappers
  import opened Databases
  import opened Text
  import opened Records
  import opened Schema
  import opened ObservationSpec
  import opened ObservationInvariant
  import opened Lineages
  import opened TenantReads

  /** One statement of a connection that will execute `left` more of them. */
  function Spend(left: nat): Result<nat, StoreError> {
    if left == 0 then Err(Database(Disconnected)) else Ok(left - 1)
  }

  lemma TaggedGrows(id: string, references: seq<string>, k: nat)
    requires k < |references|
    ensures Tagged(id, references[..k + 1]) == Tagged(id, references[..k]) + {(id, references[k])}
  {
    assert references[..k + 1] == references[..k] + [references[k]];
  }

  /** `references` can all become child rows of `id`. */
  predicate ChildRowsFit(t: Tables, rows: set<(string, string)>, id: string, references: seq<string>) {
    && id in t.observations
    && (forall i :: 0 <= i < |references| ==> (id, references[i]) !in rows)
    && (forall i, j :: 0 <= i < j < |references| ==> references[i] != references[j])
  }

  method InsertSubjects(t: Tables, id: string, references: seq<string>, statements: nat)
    returns (r: Result<(Tables, nat), StoreError>)
    ensures ChildRowsFit(t, t.subjects, id, references) ==>
              r == if statements < |references| then Err(Database(Disconnected)) else
                     Ok((t.(subjects := t.subjects + Tagged(id, references)), statements - |references|))
  {
    var tx, left := t, statements;
    for k := 0 to |references|
      invariant left == statements - k
      invariant tx == t.(subjects := t.subjects + Tagged(id, references[..k]))
    {
      TaggedGrows(id, references, k);
      left :- Spend(left);
      tx :- InsertSubject(tx, id, references[k]);
    }
    assert references[..|references|] == references;
    return Ok((tx, left));
  }

  method InsertAuthenticityRefs(t: Tables, id: string, references: seq<string>, statements: nat)
    returns (r: Result<(Tables, nat), StoreError>)
    ensures ChildRowsFit(t, t.authenticityRefs, id, references) ==>
              r == if statements < |references| then Err(Database(Disconnected)) else
                     Ok((t.(authenticityRefs := t.authenticityRefs + Tagged(id, references)),
                         statements - |references|))
  {
    var tx, left := t, statements;
    for k := 0 to |references|
      invariant left == statements - k
      invariant tx == t.(authenticityRefs := t.authenticityRefs + Tagged(id, references[..k]))
    {
      TaggedGrows(id, references, k);
      left :- Spend(left);
      tx :- InsertAuthenticityRef(tx, id, references[k]);
    }
    assert references[..|references|] == references;
    return Ok((tx, left));
  }

  /** Nothing in the tables refers to observations they do not hold, and the references are acceptable. */
  ghost predicate Insertable(t: Tables, subjects: seq<string>, references: seq<string>) {
    && ChildRowsOwned(t) && t.supersessions.Keys <= t.observations.Keys
    && GoodRefs(subjects) && GoodRefs(references)
  }

  /** Statements of `insert_observation`. */
  function InsertCount(row: ObservationRow, subjects: seq<string>, references: seq<string>): nat {
    1 + |subjects| + |references| + if row.supersedes.Some? then 1 else 0
  }

  /** `insert_observation`, inside a transaction whose connection executes `statements` statements. */
  method InsertObservation(t: Tables, row: ObservationRow, subjects: seq<string>, references: seq<string>,
                           statements: nat)
    returns (r: Result<(Tables, nat), StoreError>)
    ensures Insertable(t, subjects, references) ==>
              r == if statements == 0 then Err(Database(Disconnected))
                   else if !RowAccepted(t, row) then Err(InsertObservationRow(t, row).error)
                   else if statements < InsertCount(row, subjects, references) then Err(Database(Disconnected))
                   else Ok((Inserted(t, row, subjects, references),
                       statements - InsertCount(row, subjects, references)))
  {
    var left :- Spend(statements);
    var tx :- InsertObservationRow(t, row);
    var written :- InsertSubjects(tx, row.observationId, subjects, left);
    written :- InsertAuthenticityRefs(written.0, row.observationId, references, written.1);
    tx, left := written.0, written.1;
    if row.supersedes.Some? {
      left :- Spend(left);
      tx :- InsertSupersession(tx, row.observationId,
              SupersessionRow(row.supersedes.value, row.schemaVersion, row.observedAt));
    }
    return Ok((tx, left));
  }

  lemma AcceptedRefs(r: ObservationRecord)
    requires ValidateObservation(r).Ok?
    ensures GoodRefs(r.subjectRefs) && GoodRefs(r.authenticityRefs)
  {
    ValidateObservationMeaning(r);
  }

  function Answer(reply: Reply, outcome: Outcome): Result<(), StoreError> {
    var attempted := Attempted(reply, outcome);
    if attempted.Ok? then Ok(()) else Err(attempted.error)
  }

  /** A statement with this outcome has been answered so, and has left these tables. */
  ghost predicate Replied(reply: Reply, before: Tables, outcome: Outcome, after: Tables, r: Result<(), StoreError>) {
    && after == Left(reply, before, outcome)
    && r == Answer(reply, outcome)
  }

  class ObservationRepository {
    var tables: Tables

    ghost predicate Valid()
      reads this
    {
      Inv(tables)
    }

    constructor ()
      ensures Valid() && tables == EMPTY
    {
      tables := EMPTY;
      EmptyInv();
    }

    /** The transaction of `append_observation`: insert, advance the cursor, commit or roll back. The answer to the
        commit may be lost. */
    method Transact(row: ObservationRow, subjects: seq<string>, references: seq<string>, cursor: SyncCursor,
                    statements: nat, acknowledged: bool)
      returns (r: Result<(), StoreError>)
      requires Valid() && GoodRefs(subjects) && GoodRefs(references)
      requires CursorMatches(cursor, row.sourceId, cursor.observedAt)
      requires row.observedAt <= cursor.observedAt && row.normalizedProfileVersion <= U16_MAX
      modifies this
      ensures Valid()
      ensures var committed := && RowAccepted(old(tables), row) && CursorAdvances(old(tables), cursor)
                               && InsertCount(row, subjects, references) + 3 <= statements;
              && tables == (if committed then Extended(old(tables), row, subjects, references, CursorRowOf(cursor))
                            else old(tables))
              && (r.Ok? <==> committed && acknowledged)
              && (committed && !acknowledged ==> r.error == Database(Disconnected))
              && (!committed && InsertCount(row, subjects, references) + 3 <= statements ==>
                    r.error == if RowAccepted(old(tables), row) then Parse
                               else InsertObservationRow(old(tables), row).error)
    {
      EdgesOwned(tables);
      var left :- Spend(statements);
      var written :- InsertObservation(tables, row, subjects, references, left);
      left :- Spend(written.1);
      var time :- RequiredI64(cursor.observedAt);
      var upserted :- UpsertCursor(written.0, cursor.sourceId,
        CursorRow(cursor.schemaVersion, cursor.cursorVersion, cursor.cursor, time));
      if upserted.1 != 1 {
        return Err(Parse);
      }
      left :- Spend(left);
      ExtendKeepsInv(tables, row, subjects, references, CursorRowOf(cursor));
      tables := upserted.0;
      return if acknowledged then Ok(()) else Err(Database(Disconnected));
    }

    /** `append_observation`, on a connection that is lost after `statements` statements, the commit's answer
        included: all of the append happens, or none of it. */
    method AppendObservation(observation: ObservationRecord, cursor: SyncCursor, statements: nat, acknowledged: bool)
      returns (r: Result<(), StoreError>)
      requires Valid()
      modifies this
      ensures Valid()
      ensures var committed := && Appendable(old(tables), observation, cursor)
                               && StatementCount(observation) <= statements;
              && tables == (if committed then Appended(old(tables), observation, cursor) else old(tables))
              && (r.Ok? <==> committed && acknowledged)
              && (committed && !acknowledged ==> r.error == Database(Disconnected))
              && (!committed && StatementCount(observation) <= statements ==>
                    r.error == AppendFailure(old(tables), observation, cursor))
    {
      var row := EncodeRow(observation); // converted inside the transaction; a failure rolls it back empty
      if Malformed(observation, cursor) {
        return Err(Parse);
      }
      AcceptedRefs(observation);
      r := Transact(row.value, observation.subjectRefs, observation.authenticityRefs, cursor, statements, acknowledged);
    }

    /** `insert_retention_class` */
    method InsertRetentionClass(record: RetentionClass, reply: Reply) returns (r: Result<(), StoreError>)
      requires Valid()
      modifies this
      ensures Valid() && Registers(old(tables), tables)
      ensures Replied(reply, old(tables), RegisterRetentionClass(old(tables), record), tables, r)
    {
      var outcome := RegisterRetentionClass(tables, record);
      RetentionClassOnlyRegisters(tables, record);
      LeftKeepsInv(tables, reply, outcome);
      tables := Left(reply, tables, outcome);
      r := Answer(reply, outcome);
    }

    /** `insert_source` */
    method InsertSource(record: Source, reply: Reply) returns (r: Result<(), StoreError>)
      requires Valid()
      modifies this
      ensures Valid() && Registers(old(tables), tables)
      ensures Replied(reply, old(tables), RegisterSource(old(tables), record), tables, r)
    {
      var outcome := RegisterSource(tables, record);
      SourceOnlyRegisters(tables, record);
      LeftKeepsInv(tables, reply, outcome);
      tables := Left(reply, tables, outcome);
      r := Answer(reply, outcome);
    }

    /** `insert_collection_run` */
    method InsertCollectionRun(record: CollectionRun, reply: Reply) returns (r: Result<(), StoreError>)
      requires Valid()
      modifies this
      ensures Valid() && Registers(old(tables), tables)
      ensures Replied(reply, old(tables), RegisterRun(old(tables), record), tables, r)
    {
      var outcome := RegisterRun(tables, record);
      RunOnlyRegisters(tables, record);
      LeftKeepsInv(tables, reply, outcome);
      tables := Left(reply, tables, outcome);
      r := Answer(reply, outcome);
    }

    /** `insert_raw_payload_descriptor` */
    method InsertRawPayloadDescriptor(record: RawPayloadDescriptor, reply: Reply) returns (r: Result<(), StoreError>)
      requires Valid()
      modifies this
      ensures Valid() && Registers(old(tables), tables)
      ensures Replied(reply, old(tables), RegisterPayload(old(tables), record), tables, r)
    {
      var outcome := RegisterPayload(tables, record);
      PayloadOnlyRegisters(tables, record);
      LeftKeepsInv(tables, reply, outcome);
      tables := Left(reply, tables, outcome);
      r := Answer(reply, outcome);
    }

    /** `append_contradiction_hint` */
    method AppendContradictionHint(hint: ContradictionHint, detectedAt: u64, reply: Reply)
      returns (r: Result<(), StoreError>)
      requires Valid()
      modifies this
      ensures Valid()
      ensures tables != old(tables) ==>
                ContradictionPair(old(tables), hint.leftObservationId, hint.rightObservationId)
      ensures Replied(reply, old(tables), RegisterHint(old(tables), hint, detectedAt), tables, r)
    {
      var outcome := RegisterHint(tables, hint, detectedAt);
      if outcome.Ok? { HintKeepsInv(tables, hint, detectedAt); }
      tables := Left(reply, tables, outcome);
      r := Answer(reply, outcome);
    }

    /** Others write before the next statement is carried out. */
    method Elapse(others: Others, n: nat)
      requires Valid() && OnlyAdd(others)
      modifies this
      ensures Valid() && Later(old(tables), tables) && tables == others(n, old(tables))
    {
      tables := others(n, tables);
    }

    /** `get_observation`: three statements, and others may write before each of them. What is read is the
        observation as it was at the first one. */
    method GetObservation(id: string, others: Others, n: nat) returns (r: Result<ObservationRecord, StoreError>)
      requires Valid() && OnlyAdd(others)
      modifies this
      ensures Valid() && Later(old(tables), tables)
      ensures r == ReadObservation(others(n, old(tables)), id)
    {
      Elapse(others, n);
      ghost var before := tables;
      if id !in tables.observations {
        return Err(NotFound("observation", id));
      }
      var row := tables.observations[id].row;
      Elapse(others, n + 1);
      ghost var between := tables;
      assert KeptAt(before, between, id);
      var subjects := ChildrenOf(tables.subjects, id);
      Elapse(others, n + 2);
      assert KeptAt(between, tables, id);
      var references := ChildrenOf(tables.authenticityRefs, id);
      LaterStill(before, between, tables);
      LaterStill(old(tables), before, tables);
      r := DecodeRow(row, subjects, references);
    }

    /** `get_visible_observation` */
    method GetVisibleObservation(id: string, tenant: string, others: Others, n: nat)
      returns (r: Result<ObservationRecord, StoreError>)
      requires Valid() && OnlyAdd(others)
      modifies this
      ensures Valid() && Later(old(tables), tables)
      ensures StorageText(tenant) ==> r == ReadVisible(others(n, old(tables)), id, tenant)
      ensures !StorageText(tenant) ==> r == Err(Parse) && tables == old(tables)
    {
      if !StorageText(tenant) {
        SameIsLater(tables);
        return Err(Parse);
      }
      var observation :- GetObservation(id, others, n);
      if observation.visibility.Tenant? && observation.visibility.tenantId != tenant {
        return Err(NotFound("observation", id));
      }
      return Ok(observation);
    }

    /** The re-read of an observation that was stored at an earlier time answers as of then. */
    method ReadAgain(id: string, tenant: string, others: Others, n: nat, ghost listed: Tables)
      returns (r: Result<ObservationRecord, StoreError>)
      requires Valid() && OnlyAdd(others) && StorageText(tenant)
      requires Later(listed, tables) && id in listed.observations
      modifies this
      ensures Valid() && Later(listed, tables)
      ensures r == ReadVisible(listed, id, tenant)
    {
      ghost var now := tables;
      r := GetVisibleObservation(id, tenant, others, n);
      LaterStill(listed, now, tables);
      assert Later(now, others(n, now));
      LaterStill(listed, now, others(n, now));
      assert KeptAt(listed, others(n, now), id);
      KeptReads(listed, others(n, now), id, tenant);
    }

    /** Reads the listed observations one by one, through the visibility check, while others write: the answers are
        those of the time when they were listed. */
    method ReadEach(ids: seq<string>, tenant: string, others: Others, n: nat)
      returns (r: Result<seq<ObservationRecord>, StoreError>)
      requires Valid() && OnlyAdd(others) && StorageText(tenant)
      requires forall i :: 0 <= i < |ids| ==> ids[i] in tables.observations
      modifies this
      ensures Valid() && Later(old(tables), tables)
      ensures r == ReadAll(old(tables), ids, tenant)
    {
      ghost var listed := tables;
      ghost var read := id => ReadVisible(listed, id, tenant);
      var records: seq<ObservationRecord> := [];
      SameIsLater(tables);
      for k := 0 to |ids|
        invariant Valid() && Later(listed, tables)
        invariant Collect(ids[..k], read) == Ok(records)
      {
        var record := ReadAgain(ids[k], tenant, others, n + 3 * k, listed);
        CollectNext(ids, k, read);
        if record.Err? {
          return Err(record.error);
        }
        records := records + [record.value];
      }
      assert ids[..|ids|] == ids;
      return Ok(records);
    }

    /** `visible_lineage`, answering as of its recursive query, whatever others write before the re-reads. */
    method VisibleLineage(id: string, tenant: string, others: Others)
      returns (r: Result<seq<ObservationRecord>, StoreError>)
      requires Valid() && OnlyAdd(others)
      modifies this
      ensures Valid() && Later(old(tables), tables)
      ensures Inv(others(0, old(tables))) && r == ReadVisibleLineage(others(0, old(tables)), id, tenant)
    {
      assert Later(tables, others(0, tables));
      SameIsLater(tables);
      if !StorageText(id) || !StorageText(tenant) {
        return Err(Parse);
      }
      Elapse(others, 0);
      var ids := VisibleLineageIds(tables, id, tenant);
      if ids == [] {
        return Err(NotFound("observation", id));
      }
      VisibleLineageIsLongestPrefix(tables, id, tenant);
      ghost var listed := tables;
      r := ReadEach(ids, tenant, others, 1);
      LaterStill(old(tables), listed, tables);
    }

    /** `list_visible_observations`, answering as of its query, whatever others write before the re-reads. */
    method ListVisibleObservations(tenant: string, limit: i64, others: Others)
      returns (r: Result<seq<ObservationRecord>, StoreError>)
      requires Valid() && OnlyAdd(others)
      modifies this
      ensures Valid() && Later(old(tables), tables)
      ensures r == ReadVisibleList(others(0, old(tables)), tenant, limit)
    {
      SameIsLater(tables);
      if !StorageText(tenant) {
        return Err(Parse);
      }
      Elapse(others, 0);
      var ids := ListedIds(tables, tenant, limit);
      ListedIdsMeaning(tables, tenant, limit);
      assert forall i :: 0 <= i < |ids| ==> Visible(tables, ids[i], tenant);
      ghost var listed := tables;
      r := ReadEach(ids, tenant, others, 1);
      LaterStill(old(tables), listed, tables);
    }
  }

  lemma SameIsLater(t: Tables)
    requires Inv(t)
    ensures Later(t, t)
  {
  }

  lemma KeptObservation(t: Tables, t': Tables, id: string)
    requires id in t.observations && KeptAt(t, t', id)
    ensures ReadObservation(t', id) == ReadObservation(t, id)
  {
  }

  /** A stored observation is read later as it was. */
  lemma KeptReads(t: Tables, t': Tables, id: string, tenant: string)
    requires id in t.observations && KeptAt(t, t', id)
    ensures ReadVisible(t', id, tenant) == ReadVisible(t, id, tenant)
  {
    KeptObservation(t, t', id);
  }

  lemma CollectNext<T>(ids: seq<string>, k: nat, read: string -> Result<T, StoreError>)
    requires k < |ids| && Collect(ids[..k], read).Ok?
    ensures read(ids[k]).Ok? ==> Collect(ids[..k + 1], read) == Ok(Collect(ids[..k], read).value + [read(ids[k]).value])
    ensures read(ids[k]).Err? ==> Collect(ids, read) == Err(read(ids[k]).error)
  {
    assert ids[..k + 1][..k] == ids[..k];
    if read(ids[k]).Err? { CollectStops(ids, k, read); }
  }

  /** A failed read decides the result, whatever ids come after it. */
  lemma {:induction false} CollectStops<T>(ids: seq<string>, k: nat, read: string -> Result<T, StoreError>)
    requires k < |ids|
    requires Collect(ids[..k], read).Ok? && read(ids[k]).Err?
    ensures Collect(ids, read) == Err(read(ids[k]).error)
    decreases |ids|
  {
    var n := |ids| - 1;
    if k < n {
      assert ids[..n][..k] == ids[..k];
      CollectStops(ids[..n], k, read);
    }
  }
}
