/** What tenant-scoped reads return, and that nothing hidden from a tenant influences them. */
module TenantReads {
  import opened Words
  import opened Wrappers
  import opened Text
  import opened Sorting
  import opened Records
  import opened Schema
  import opened ObservationSpec
  import opened ObservationInvariant
  import opened Lineages

  // ---- Rows and records -----------------------------------------------------

  /** Storing a record and decoding its row restores the record, with the references the child rows give. */
  lemma DecodeEncodedRow(r: ObservationRecord, subjects: seq<string>, references: seq<string>)
    requires EncodeRow(r).Ok?
    ensures DecodeRow(EncodeRow(r).value, subjects, references)
         == Ok(r.(subjectRefs := subjects, authenticityRefs := references))
  {
  }

  /** The CHECK constraints leave no row that the decoder rejects, and the decoded
      visibility decides exactly as the WHERE clause does. */
  lemma SoundRowDecodes(t: Tables, id: string, subjects: seq<string>, references: seq<string>, tenant: string)
    requires RowSound(t, id)
    ensures var row := t.observations[id].row;
            && DecodeRow(row, subjects, references).Ok?
            && var record := DecodeRow(row, subjects, references).value;
               record.observationId == id
               && (RowVisible(row, tenant) <==> (record.visibility.Tenant? ==> record.visibility.tenantId == tenant))
  {
  }

  /** A visibility-checked read returns the stored record, or the same NotFound for
      a hidden observation as for one that does not exist. */
  lemma ReadVisibleMeaning(t: Tables, id: string, tenant: string)
    requires Inv(t) && StorageText(tenant)
    ensures Visible(t, id, tenant) ==>
              ReadObservation(t, id).Ok? && ReadVisible(t, id, tenant) == ReadObservation(t, id)
    ensures !Visible(t, id, tenant) ==> ReadVisible(t, id, tenant) == Err(NotFound("observation", id))
  {
    if id in t.observations {
      assert RowSound(t, id);
      SoundRowDecodes(t, id, ChildrenOf(t.subjects, id), ChildrenOf(t.authenticityRefs, id), tenant);
    }
  }

  // ---- Append and read back -------------------------------------------------

  lemma NewChildren(rows: set<(string, string)>, id: string, references: seq<string>, other: string)
    requires forall s :: s in rows ==> s.0 != id
    ensures ChildrenOf(rows + Tagged(id, references), id) == SortedTexts(references)
    ensures other != id ==> ChildrenOf(rows + Tagged(id, references), other) == ChildrenOf(rows, other)
  {
    var all := rows + Tagged(id, references);
    var own := set s | s in all && s.0 == id :: s.1;
    forall x | x in Elements(references) ensures x in own {
      assert (id, x) in all;
    }
    assert own == Elements(references);
    assert (set s | s in all && s.0 == other :: s.1) == if other == id then own
           else (set s | s in rows && s.0 == other :: s.1) by {
      if other != id {
        var now, before := set s | s in all && s.0 == other :: s.1, set s | s in rows && s.0 == other :: s.1;
        forall x | x in before ensures x in now {
          var s :| s in rows && s.0 == other && s.1 == x;
          assert s in all;
        }
      }
    }
  }

  function SortedTexts(references: seq<string>): seq<string> {
    StringOrder();
    Sort(Elements(references), StringLeq)
  }

  lemma SortedTextsPermute(references: seq<string>)
    requires GoodRefs(references)
    ensures Sorted(SortedTexts(references), StringLeq) && multiset(SortedTexts(references)) == multiset(references)
  {
    StringOrder();
    SortIsSorted(Elements(references), StringLeq);
    SortPermutes(references, StringLeq);
  }

  lemma ExtendedReads(t: Tables, row: ObservationRow, subjects: seq<string>, references: seq<string>,
                      cursor: CursorRow, id: string)
    requires ChildRowsOwned(t) && row.observationId !in t.observations
    ensures ReadObservation(Extended(t, row, subjects, references, cursor), id)
         == if id == row.observationId then DecodeRow(row, SortedTexts(subjects), SortedTexts(references))
            else ReadObservation(t, id)
  {
    NewChildren(t.subjects, row.observationId, subjects, id);
    NewChildren(t.authenticityRefs, row.observationId, references, id);
  }

  /** The record of an accepted append is read back with both reference lists sorted. */
  lemma AppendRoundTrips(t: Tables, r: ObservationRecord, c: SyncCursor)
    requires Inv(t) && Appendable(t, r, c)
    ensures ReadObservation(Appended(t, r, c), r.observationId)
         == Ok(r.(subjectRefs := SortedTexts(r.subjectRefs), authenticityRefs := SortedTexts(r.authenticityRefs)))
  {
    ExtendedReads(t, EncodeRow(r).value, r.subjectRefs, r.authenticityRefs, CursorRowOf(c), r.observationId);
    DecodeEncodedRow(r, SortedTexts(r.subjectRefs), SortedTexts(r.authenticityRefs));
  }

  /** An accepted append changes what is read of no other observation. */
  lemma AppendKeepsReads(t: Tables, r: ObservationRecord, c: SyncCursor, id: string)
    requires Inv(t) && Appendable(t, r, c) && id != r.observationId
    ensures ReadObservation(Appended(t, r, c), id) == ReadObservation(t, id)
  {
    ExtendedReads(t, EncodeRow(r).value, r.subjectRefs, r.authenticityRefs, CursorRowOf(c), id);
  }

  // ---- Reading lists of visible ids -----------------------------------------

  lemma {:induction false} CollectAll<T>(ids: seq<string>, read: string -> Result<T, StoreError>)
    requires forall i :: 0 <= i < |ids| ==> read(ids[i]).Ok?
    ensures Collect(ids, read).Ok? && |Collect(ids, read).value| == |ids|
    ensures forall i :: 0 <= i < |ids| ==> Collect(ids, read).value[i] == read(ids[i]).value
  {
    if ids != [] {
      CollectAll(ids[..|ids| - 1], read);
    }
  }

  lemma {:induction false} CollectAgrees<T>(ids: seq<string>, f: string -> Result<T, StoreError>,
                                            g: string -> Result<T, StoreError>)
    requires forall id :: f(id) == g(id)
    ensures Collect(ids, f) == Collect(ids, g)
  {
    if ids != [] {
      CollectAgrees(ids[..|ids| - 1], f, g);
    }
  }

  /** The re-read of each selected id never fails. */
  lemma ReadAllSucceeds(t: Tables, ids: seq<string>, tenant: string)
    requires Inv(t) && StorageText(tenant)
    requires forall i :: 0 <= i < |ids| ==> Visible(t, ids[i], tenant)
    ensures ReadAll(t, ids, tenant).Ok? && |ReadAll(t, ids, tenant).value| == |ids|
    ensures forall i :: 0 <= i < |ids| ==> Ok(ReadAll(t, ids, tenant).value[i]) == ReadObservation(t, ids[i])
  {
    forall i | 0 <= i < |ids|
      ensures ReadVisible(t, ids[i], tenant).Ok? && ReadVisible(t, ids[i], tenant) == ReadObservation(t, ids[i])
    {
      ReadVisibleMeaning(t, ids[i], tenant);
    }
    CollectAll(ids, id => ReadVisible(t, id, tenant));
  }

  /** `visible_lineage` returns the stored records of the longest visible prefix of the
      lineage, and is NotFound exactly when that prefix is empty. */
  lemma VisibleLineageExact(t: Tables, id: string, tenant: string)
    requires Inv(t) && StorageText(id) && StorageText(tenant)
    ensures var ids, r := VisibleLineageIds(t, id, tenant), ReadVisibleLineage(t, id, tenant);
            && (ids == [] <==> r == Err(NotFound("observation", id)))
            && (ids == [] || r.Ok?)
            && (r.Ok? ==> |r.value| == |ids|)
            && (r.Ok? ==> forall i :: 0 <= i < |ids| ==> Ok(r.value[i]) == ReadObservation(t, ids[i]))
  {
    var ids := VisibleLineageIds(t, id, tenant);
    VisibleLineageIsLongestPrefix(t, id, tenant);
    ReadAllSucceeds(t, ids, tenant);
  }

  // ---- Listing --------------------------------------------------------------

  function KeyOf(t: Tables, id: string): (int, string)
    requires id in t.observations
  {
    (t.observations[id].row.observedAt as int, id)
  }

  lemma ListedIdsMeaning(t: Tables, tenant: string, limit: i64)
    ensures var ids := ListedIds(t, tenant, limit);
            && |ids| == (if 0 <= limit < |VisibleKeys(t, tenant)| then limit else |VisibleKeys(t, tenant)|)
            && (forall i :: 0 <= i < |ids| ==> Visible(t, ids[i], tenant))
            && (forall i, j :: 0 <= i < j < |ids| ==>
                  ids[i] != ids[j] && NewestFirst(KeyOf(t, ids[i]), KeyOf(t, ids[j])))
            && (forall i, id :: 0 <= i < |ids| && Visible(t, id, tenant) && id !in ids ==>
                  NewestFirst(KeyOf(t, ids[i]), KeyOf(t, id)))
  {
    NewestFirstOrder();
    var keys := VisibleKeys(t, tenant);
    var sorted := Sort(keys, NewestFirst);
    SortIsSorted(keys, NewestFirst);
    var ids := ListedIds(t, tenant, limit);
    forall k | 0 <= k < |sorted| ensures Visible(t, sorted[k].1, tenant) && sorted[k] == KeyOf(t, sorted[k].1) {
      assert sorted[k] in keys;
    }
    assert forall k :: 0 <= k < |ids| ==> ids[k] == sorted[k].1;
    forall i, j | 0 <= i < j < |ids| ensures ids[i] != ids[j] && NewestFirst(KeyOf(t, ids[i]), KeyOf(t, ids[j])) {
      assert sorted[i] != sorted[j];
    }
    forall i, id | 0 <= i < |ids| && Visible(t, id, tenant) && id !in ids
      ensures NewestFirst(KeyOf(t, ids[i]), KeyOf(t, id))
    {
      assert KeyOf(t, id) in keys;
      var k :| 0 <= k < |sorted| && sorted[k] == KeyOf(t, id);
      assert k >= |ids|;
    }
  }

  /** `list_visible_observations` never fails on a valid tenant: it returns visible records only,
      newest first, without repetition, and leaves out none that is newer than a listed one. */
  lemma ListExact(t: Tables, tenant: string, limit: i64)
    requires Inv(t) && StorageText(tenant)
    ensures var ids, r := ListedIds(t, tenant, limit), ReadVisibleList(t, tenant, limit);
            && r.Ok? && |r.value| == |ids|
            && (forall i :: 0 <= i < |ids| ==> Ok(r.value[i]) == ReadObservation(t, ids[i]))
  {
    ListedIdsMeaning(t, tenant, limit);
    ReadAllSucceeds(t, ListedIds(t, tenant, limit), tenant);
  }

  // ---- Noninterference ------------------------------------------------------

  /** The two stores hold the same rows as far as `tenant` may see: nothing is said of
      hidden observations, of rowids, edges, cursors or hints. */
  ghost predicate VisiblyEqual(t: Tables, u: Tables, tenant: string) {
    forall id ::
      && (Visible(t, id, tenant) <==> Visible(u, id, tenant))
      && (Visible(t, id, tenant) ==>
            && t.observations[id].row == u.observations[id].row
            && ChildrenOf(t.subjects, id) == ChildrenOf(u.subjects, id)
            && ChildrenOf(t.authenticityRefs, id) == ChildrenOf(u.authenticityRefs, id))
  }

  lemma ReadVisibleAgrees(t: Tables, u: Tables, id: string, tenant: string)
    requires Inv(t) && Inv(u) && VisiblyEqual(t, u, tenant)
    ensures ReadVisible(t, id, tenant) == ReadVisible(u, id, tenant)
  {
    if StorageText(tenant) {
      ReadVisibleMeaning(t, id, tenant);
      ReadVisibleMeaning(u, id, tenant);
    }
  }

  lemma {:induction false} VisibleWalkAgrees(t: Tables, u: Tables, id: string, tenant: string)
    requires EdgesSound(t) && EdgesSound(u) && VisiblyEqual(t, u, tenant) && Visible(t, id, tenant)
    ensures VisibleWalk(t, id, tenant) == VisibleWalk(u, id, tenant)
    decreases Rank(t, id)
  {
    assert t.observations[id].row == u.observations[id].row;
    assert EdgeSound(t, id) && EdgeSound(u, id);
    if id in t.supersessions {
      var prior := t.supersessions[id].superseded;
      assert prior == u.supersessions[id].superseded;
      if Visible(t, prior, tenant) {
        VisibleWalkAgrees(t, u, prior, tenant);
      }
    }
  }

  lemma ReadAllAgrees(t: Tables, u: Tables, ids: seq<string>, tenant: string)
    requires Inv(t) && Inv(u) && VisiblyEqual(t, u, tenant)
    ensures ReadAll(t, ids, tenant) == ReadAll(u, ids, tenant)
  {
    forall id ensures ReadVisible(t, id, tenant) == ReadVisible(u, id, tenant) {
      ReadVisibleAgrees(t, u, id, tenant);
    }
    CollectAgrees(ids, id => ReadVisible(t, id, tenant), id => ReadVisible(u, id, tenant));
  }

  lemma LineageReadsAgree(t: Tables, u: Tables, id: string, tenant: string)
    requires Inv(t) && Inv(u) && VisiblyEqual(t, u, tenant)
    ensures ReadVisibleLineage(t, id, tenant) == ReadVisibleLineage(u, id, tenant)
  {
    if Visible(t, id, tenant) {
      VisibleWalkAgrees(t, u, id, tenant);
    }
    assert VisibleLineageIds(t, id, tenant) == VisibleLineageIds(u, id, tenant);
    ReadAllAgrees(t, u, VisibleLineageIds(t, id, tenant), tenant);
  }

  lemma ListReadsAgree(t: Tables, u: Tables, tenant: string, limit: i64)
    requires Inv(t) && Inv(u) && VisiblyEqual(t, u, tenant)
    ensures ReadVisibleList(t, tenant, limit) == ReadVisibleList(u, tenant, limit)
  {
    forall id | Visible(t, id, tenant) ensures t.observations[id].row == u.observations[id].row {}
    assert VisibleKeys(t, tenant) == VisibleKeys(u, tenant);
    ReadAllAgrees(t, u, ListedIds(t, tenant, limit), tenant);
  }

  /** Tenant noninterference: stores that agree on what a tenant may see answer each of
      the tenant's reads alike, results and errors. */
  lemma Noninterference(t: Tables, u: Tables, id: string, tenant: string, limit: i64)
    requires Inv(t) && Inv(u) && VisiblyEqual(t, u, tenant)
    ensures ReadVisible(t, id, tenant) == ReadVisible(u, id, tenant)
    ensures ReadVisibleLineage(t, id, tenant) == ReadVisibleLineage(u, id, tenant)
    ensures ReadVisibleList(t, tenant, limit) == ReadVisibleList(u, tenant, limit)
  {
    ReadVisibleAgrees(t, u, id, tenant);
    LineageReadsAgree(t, u, id, tenant);
    ListReadsAgree(t, u, tenant, limit);
  }

  lemma HiddenRowUnseen(t: Tables, row: ObservationRow, subjects: seq<string>, references: seq<string>,
                        cursor: CursorRow, tenant: string)
    requires ChildRowsOwned(t) && row.observationId !in t.observations && !RowVisible(row, tenant)
    ensures VisiblyEqual(t, Extended(t, row, subjects, references, cursor), tenant)
  {
    var u := Extended(t, row, subjects, references, cursor);
    forall id | Visible(t, id, tenant)
      ensures ChildrenOf(t.subjects, id) == ChildrenOf(u.subjects, id)
      ensures ChildrenOf(t.authenticityRefs, id) == ChildrenOf(u.authenticityRefs, id)
    {
      NewChildren(t.subjects, row.observationId, subjects, id);
      NewChildren(t.authenticityRefs, row.observationId, references, id);
    }
  }

  lemma HiddenAppendEqual(t: Tables, r: ObservationRecord, c: SyncCursor, tenant: string)
    requires Inv(t) && Appendable(t, r, c)
    requires r.visibility.Tenant? && r.visibility.tenantId != tenant
    ensures Inv(Appended(t, r, c)) && VisiblyEqual(t, Appended(t, r, c), tenant)
  {
    AppendKeepsInv(t, r, c);
    HiddenRowUnseen(t, EncodeRow(r).value, r.subjectRefs, r.authenticityRefs, CursorRowOf(c), tenant);
  }

  /** Appending another tenant's observation is invisible: it changes no answer to this tenant,
      even when it corrects an observation this tenant can see. */
  lemma HiddenAppendUnseen(t: Tables, r: ObservationRecord, c: SyncCursor, id: string, tenant: string, limit: i64)
    requires Inv(t) && Appendable(t, r, c)
    requires r.visibility.Tenant? && r.visibility.tenantId != tenant
    ensures EdgesSound(Appended(t, r, c))
    ensures ReadVisible(t, id, tenant) == ReadVisible(Appended(t, r, c), id, tenant)
    ensures ReadVisibleLineage(t, id, tenant) == ReadVisibleLineage(Appended(t, r, c), id, tenant)
    ensures ReadVisibleList(t, tenant, limit) == ReadVisibleList(Appended(t, r, c), tenant, limit)
  {
    HiddenAppendEqual(t, r, c, tenant);
    Noninterference(t, Appended(t, r, c), id, tenant, limit);
  }

  /** A contradiction hint never crosses a disclosure boundary: whoever sees one side sees the other. */
  lemma HintsStayWithinTenant(t: Tables, hint: string, tenant: string)
    requires Inv(t) && hint in t.hints
    ensures Visible(t, t.hints[hint].left, tenant) <==> Visible(t, t.hints[hint].right, tenant)
  {
    var left, right := t.hints[hint].left, t.hints[hint].right;
    assert ContradictionPair(t, left, right);
    assert RowSound(t, left) && RowSound(t, right);
  }
}
