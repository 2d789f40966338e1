/** Correction lineage: the stored observations of each source event form one
    tree, and the lineage queries walk it. */
module Lineages {
  import opened Words
  import opened Wrappers
  import opened Text
  import opened Sorting
  import opened Schema
  import opened ObservationSpec

  /** Each id is corrected by the one before it. */
  ghost predicate Chain(t: Tables, ids: seq<string>) {
    forall i :: 0 <= i < |ids| - 1 ==>
      ids[i] in t.observations && t.observations[ids[i]].row.supersedes == Some(ids[i + 1])
  }

  ghost predicate IsRoot(t: Tables, id: string) {
    id in t.observations && t.observations[id].row.supersedes.None?
  }

  /** The lineage of a stored observation: it starts there, follows correction edges,
      stays within the source event, goes strictly back in insertion order, and ends at a root. */
  lemma {:induction false} LineageWalksToRoot(t: Tables, id: string)
    requires EdgesSound(t) && id in t.observations
    ensures var ids := Lineage(t, id);
            && ids != [] && ids[0] == id && Chain(t, ids) && IsRoot(t, ids[|ids| - 1])
            && (forall i :: 0 <= i < |ids| ==>
                  ids[i] in t.observations && SameEvent(t.observations[ids[i]].row, t.observations[id].row))
            && (forall i, j :: 0 <= i < j < |ids| ==> Rank(t, ids[j]) < Rank(t, ids[i]))
    decreases Rank(t, id)
  {
    assert EdgeSound(t, id);
    if id in t.supersessions {
      var prior := t.supersessions[id].superseded;
      LineageWalksToRoot(t, prior);
      var ids, rest := Lineage(t, id), Lineage(t, prior);
      forall i | 0 <= i < |ids| - 1
        ensures ids[i] in t.observations && t.observations[ids[i]].row.supersedes == Some(ids[i + 1])
      {
        if i > 0 { assert ids[i] == rest[i - 1] && ids[i + 1] == rest[i]; }
      }
      forall i, j | 0 <= i < j < |ids| ensures Rank(t, ids[j]) < Rank(t, ids[i]) {
        if i > 0 { assert ids[i] == rest[i - 1] && ids[j] == rest[j - 1]; }
        else if j > 1 { assert Rank(t, rest[j - 1]) < Rank(t, rest[0]); }
      }
    }
  }

  /** An id without a stored observation has only itself as lineage. */
  lemma LineageOfUnknown(t: Tables, id: string)
    requires EdgesSound(t) && id !in t.observations
    ensures Lineage(t, id) == [id]
  {
    assert EdgeSound(t, id);
  }

  /** The `UNION ALL` recursion terminates without returning an id twice. */
  lemma LineageRepeatsNothing(t: Tables, id: string)
    requires EdgesSound(t)
    ensures Distinct(Lineage(t, id))
  {
    if id in t.observations {
      LineageWalksToRoot(t, id);
    } else {
      LineageOfUnknown(t, id);
    }
  }

  /** The stored observations of the source event that `id` reports. */
  ghost function EventRows(t: Tables, id: string): set<string>
    requires id in t.observations
  {
    set other | other in t.observations && SameEvent(t.observations[other].row, t.observations[id].row)
  }

  /** What `lineage` answers: an error for a blank id, the id alone if nothing is stored under it, and otherwise the
      walk to the root of its event, which every other observation of the event also ends at. */
  lemma ReadLineageMeaning(t: Tables, id: string)
    requires Inv(t)
    ensures ReadLineage(t, id).Err? <==> !StorageText(id)
    ensures id !in t.observations && StorageText(id) ==> ReadLineage(t, id) == Ok([id])
    ensures id in t.observations && StorageText(id) ==>
              && ReadLineage(t, id).Ok?
              && var ids := ReadLineage(t, id).value;
                 && ids != [] && ids[0] == id && Chain(t, ids) && IsRoot(t, ids[|ids| - 1])
                 && ids[|ids| - 1] in EventRows(t, id) && Distinct(ids)
  {
    if id in t.observations {
      LineageWalksToRoot(t, id);
      LineageRepeatsNothing(t, id);
    } else {
      LineageOfUnknown(t, id);
    }
  }

  /** Where the lineage of a stored observation ends. */
  lemma LineageEnds(t: Tables, id: string) returns (root: string)
    requires EdgesSound(t) && id in t.observations
    ensures Lineage(t, id) != [] && root == Lineage(t, id)[|Lineage(t, id)| - 1]
    ensures IsRoot(t, root) && SameEvent(t.observations[root].row, t.observations[id].row)
    ensures Rank(t, root) <= Rank(t, id)
    ensures IsRoot(t, id) ==> root == id
  {
    LineageWalksToRoot(t, id);
    var ids := Lineage(t, id);
    assert |ids| > 1 ==> Rank(t, ids[|ids| - 1]) < Rank(t, ids[0]);
    assert EdgeSound(t, id);
    return ids[|ids| - 1];
  }

  /** Two roots of one event are one. */
  lemma RootsAgree(t: Tables, root: string, other: string)
    requires RootsFirst(t) && Rowids(t) && IsRoot(t, root) && IsRoot(t, other)
    requires SameEvent(t.observations[root].row, t.observations[other].row)
    ensures root == other
  {
  }

  /** Each source event has exactly one root, and it is the first of its observations:
      the lineage of every observation of the event ends at that same root. */
  lemma OneRootPerEvent(t: Tables, id: string, other: string)
    requires Inv(t) && id in t.observations && other in EventRows(t, id)
    ensures Lineage(t, id) != [] && Lineage(t, other) != []
    ensures var root := Lineage(t, id)[|Lineage(t, id)| - 1];
            && IsRoot(t, root) && root in EventRows(t, id)
            && root == Lineage(t, other)[|Lineage(t, other)| - 1]
            && Rank(t, root) <= Rank(t, other)
            && (IsRoot(t, other) <==> other == root)
  {
    var root := LineageEnds(t, id);
    var otherRoot := LineageEnds(t, other);
    RootsAgree(t, root, otherRoot);
  }

  /** Every correction supersedes an earlier observation of the same source event. */
  lemma CorrectionsPointBack(t: Tables, id: string)
    requires Inv(t) && id in t.observations && !IsRoot(t, id)
    ensures var prior := t.observations[id].row.supersedes.value;
            prior in EventRows(t, id) && Rank(t, prior) < Rank(t, id)
  {
    assert EdgeSound(t, id);
  }

  ghost function EventDigests(t: Tables, id: string): set<seq<byte>>
    requires id in t.observations
  {
    set other | other in EventRows(t, id) :: DigestAt(t, other)
  }

  lemma SubsetSize<T>(a: set<T>, b: set<T>)
    requires a <= b
    ensures |a| <= |b|
  {
    assert b == a + (b - a);
  }

  function DigestAt(t: Tables, id: string): seq<byte>
    requires id in t.observations
  {
    t.observations[id].row.normalizedPayloadDigest
  }

  ghost function LineageDigests(t: Tables, id: string): (r: seq<seq<byte>>)
    requires EdgesSound(t) && id in t.observations
    ensures |r| == |Lineage(t, id)|
    ensures forall i :: 0 <= i < |r| ==> Lineage(t, id)[i] in EventRows(t, id) && r[i] == DigestAt(t, Lineage(t, id)[i])
  {
    LineageWalksToRoot(t, id);
    seq(|Lineage(t, id)|, i requires 0 <= i < |Lineage(t, id)| => DigestAt(t, Lineage(t, id)[i]))
  }

  /** Payload digests never repeat along a lineage. */
  lemma LineageDigestsDiffer(t: Tables, id: string)
    requires EdgesSound(t) && DigestsUnique(t) && id in t.observations
    ensures Distinct(LineageDigests(t, id))
  {
    var ids, digests := Lineage(t, id), LineageDigests(t, id);
    LineageWalksToRoot(t, id);
    forall i, j | 0 <= i < j < |digests| ensures digests[i] != digests[j] {
      assert Rank(t, ids[j]) < Rank(t, ids[i]);
      assert SameEvent(t.observations[ids[i]].row, t.observations[ids[j]].row);
    }
  }

  lemma LineageDigestsReported(t: Tables, id: string)
    requires EdgesSound(t) && id in t.observations
    ensures Elements(LineageDigests(t, id)) <= EventDigests(t, id)
  {
    var digests := LineageDigests(t, id);
    forall d | d in Elements(digests) ensures d in EventDigests(t, id) {
      var i :| 0 <= i < |digests| && digests[i] == d;
      assert Lineage(t, id)[i] in EventRows(t, id);
    }
  }

  /** A lineage is no longer than the number of distinct payload digests stored for its event. */
  lemma LineageBoundedByDigests(t: Tables, id: string)
    requires EdgesSound(t) && DigestsUnique(t) && id in t.observations
    ensures |Lineage(t, id)| <= |EventDigests(t, id)|
  {
    LineageDigestsDiffer(t, id);
    DistinctCount(LineageDigests(t, id));
    LineageDigestsReported(t, id);
    SubsetSize(Elements(LineageDigests(t, id)), EventDigests(t, id));
  }

  /** The predecessor chain is determined: two corrections of one predecessor share its whole
      lineage, so lineages branch only downwards. */
  lemma LineageIsPathInTree(t: Tables, id: string, k: nat)
    requires EdgesSound(t) && id in t.observations && k < |Lineage(t, id)|
    ensures Lineage(t, id)[k..] == Lineage(t, Lineage(t, id)[k])
    decreases k
  {
    if k > 0 {
      var prior := t.supersessions[id].superseded;
      assert EdgeSound(t, id);
      LineageIsPathInTree(t, prior, k - 1);
      assert Lineage(t, id)[k..] == Lineage(t, prior)[k - 1..];
    }
  }

  /** `visible_lineage` selects exactly the longest visible prefix of the lineage. */
  lemma {:induction false} VisibleWalkIsPrefix(t: Tables, id: string, tenant: string)
    requires EdgesSound(t) && Visible(t, id, tenant)
    ensures VisibleWalk(t, id, tenant) <= Lineage(t, id)
    ensures forall i :: 0 <= i < |VisibleWalk(t, id, tenant)| ==> Visible(t, VisibleWalk(t, id, tenant)[i], tenant)
    ensures var n := |VisibleWalk(t, id, tenant)|;
            n >= 1 && (n < |Lineage(t, id)| ==> !Visible(t, Lineage(t, id)[n], tenant))
    decreases Rank(t, id)
  {
    if id in t.supersessions {
      var prior := t.supersessions[id].superseded;
      assert EdgeSound(t, id);
      if Visible(t, prior, tenant) {
        VisibleWalkIsPrefix(t, prior, tenant);
        var walk, rest := VisibleWalk(t, id, tenant), VisibleWalk(t, prior, tenant);
        forall i | 0 <= i < |walk| ensures Visible(t, walk[i], tenant) {
          if i > 0 { assert walk[i] == rest[i - 1]; }
        }
      } else {
        assert Lineage(t, id)[1] == Lineage(t, prior)[0] == prior;
      }
    }
  }

  /** ... including when the observation itself is hidden or unknown: then nothing is selected. */
  lemma VisibleLineageIsLongestPrefix(t: Tables, id: string, tenant: string)
    requires EdgesSound(t)
    ensures var ids, all := VisibleLineageIds(t, id, tenant), Lineage(t, id);
            && ids <= all
            && (forall i :: 0 <= i < |ids| ==> Visible(t, ids[i], tenant))
            && (|ids| < |all| ==> !Visible(t, all[|ids|], tenant))
            && (ids == [] <==> !Visible(t, id, tenant))
  {
    if Visible(t, id, tenant) {
      VisibleWalkIsPrefix(t, id, tenant);
    } else {
      assert Lineage(t, id)[0] == id;
    }
  }
}
