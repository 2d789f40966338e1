/** `WalletFeedHub` (api/src/feed.rs): publish to the database first, then to memory and
    subscribers; rebuild from the database after a restart. */
module FeedHub {
  import opened Words
  import opened Wrappers
  import opened Sorting
  import opened WalletFeed
  import opened FeedLog
  import opened FeedProjection
  import opened Databases

  /** A row of `wallet_feed_events`, with the envelope that its JSON was written from. */
  datatype FeedRow = FeedRow(observationId: string, envelope: Envelope)

  /** Keyed by SQLite's integer primary key. */
  type Rows = map<int, FeedRow>

  /** The rows that publishing a log leaves behind, under the sequence cast to `i64`. */
  function Persisted(log: Log): Rows {
    if log == [] then map[] else
      var e := log[|log| - 1];
      Persisted(log[..|log| - 1])[AsI64(e.sequence) := FeedRow(e.observationId, e)]
  }

  /** The row of each sequence number is the envelope with that number. */
  lemma {:induction false} PersistedRow(log: Log, key: int)
    requires Numbered(log) && |log| <= U64_MAX
    ensures key in Persisted(log) <==> -I64_MAX - 1 <= key <= I64_MAX && 1 <= AsU64(key) <= |log|
    ensures key in Persisted(log) ==>
              Persisted(log)[key] == FeedRow(log[AsU64(key) - 1].observationId, log[AsU64(key) - 1])
  {
    if log != [] {
      PersistedRow(log[..|log| - 1], key);
    }
  }

  /** The statement's constraints: the sequence is the primary key, the observation id is unique. */
  predicate RowConflicts(rows: Rows, key: int, observationId: string) {
    key in rows || exists other :: other in rows && rows[other].observationId == observationId
  }

  /** An insert of the next accepted envelope conflicts only when the sequence numbers are used up. */
  lemma InsertConflicts(log: Log, e: Envelope)
    requires Numbered(log) && |log| <= U64_MAX
    requires e.sequence == Number(|log| + 1) && Position(log, e.observationId).None?
    ensures RowConflicts(Persisted(log), AsI64(e.sequence), e.observationId) <==> |log| == U64_MAX
  {
    PersistedRow(log, AsI64(e.sequence));
    forall other | other in Persisted(log) ensures Persisted(log)[other].observationId != e.observationId {
      PersistedRow(log, other);
    }
  }

  /** What the insert of an accepted envelope does to the rows of the log. */
  lemma InsertAccepted(log: Log, e: Envelope)
    requires Legal(log) && |log| <= U64_MAX && Decide(log, e) == Ok(true)
    ensures RowConflicts(Persisted(log), AsI64(e.sequence), e.observationId) <==> |log| == U64_MAX
    ensures Persisted(log + [e]) == Persisted(log)[AsI64(e.sequence) := FeedRow(e.observationId, e)]
  {
    DecidedNumber(log, e);
    LegalNumbered(log);
    InsertConflicts(log, e);
    assert (log + [e])[..|log|] == log;
  }

  predicate IntLeq(a: int, b: int) {
    a <= b
  }

  lemma IntOrder()
    ensures TotalOrder(IntLeq)
  {
  }

  function OrderedKeys(rows: Rows): (r: seq<int>)
    ensures forall i :: 0 <= i < |r| ==> r[i] in rows
    ensures |r| == |rows|
  {
    IntOrder();
    var keys := Sort(rows.Keys, IntLeq);
    assert forall i :: 0 <= i < |keys| ==> keys[i] in keys;
    keys
  }

  /** `SELECT envelope_json ... ORDER BY sequence ASC` */
  function Ordered(rows: Rows): (r: seq<Envelope>)
    ensures |r| == |OrderedKeys(rows)|
  {
    var keys := OrderedKeys(rows);
    seq(|keys|, i requires 0 <= i < |keys| => rows[keys[i]].envelope)
  }

  /** `from_pool`: apply the stored envelopes in order; any rejection fails the start. */
  function Rebuild(stored: seq<Envelope>, log: Log): Result<Log, FeedError>
    decreases |stored|
  {
    if stored == [] then Ok(log) else
      var _ :- Decide(log, stored[0]);
      Rebuild(stored[1..], FeedLog.Apply(log, stored[0]))
  }

  lemma RebuildAt(stored: seq<Envelope>, k: nat, log: Log)
    requires k < |stored|
    ensures Decide(log, stored[k]).Err? ==> Rebuild(stored[k..], log) == Err(Decide(log, stored[k]).error)
    ensures Decide(log, stored[k]).Ok? ==>
              Rebuild(stored[k..], log) == Rebuild(stored[k + 1..], FeedLog.Apply(log, stored[k]))
  {
    assert stored[k..][0] == stored[k] && stored[k..][1..] == stored[k + 1..];
  }

  /** What publishing answers, with or without rows behind the hub. */
  function PublishResult(log: Log, rows: Option<Rows>, reply: Reply, e: Envelope): Result<(), FeedError> {
    var accepted :- Decide(log, e);
    if accepted && rows.Some?
       && (!reply.Answered? || RowConflicts(rows.value, AsI64(e.sequence), e.observationId))
    then Err(NotPersisted)
    else Ok(())
  }

  function PublishLog(log: Log, rows: Option<Rows>, reply: Reply, e: Envelope): Log {
    if PublishResult(log, rows, reply, e).Ok? then FeedLog.Apply(log, e) else log
  }

  /** The rows that publishing leaves: an insert without an answer may have taken place all the same. */
  function PublishRows(log: Log, rows: Rows, reply: Reply, e: Envelope): Rows {
    if Decide(log, e) == Ok(true) && !reply.Refused? && !RowConflicts(rows, AsI64(e.sequence), e.observationId)
    then rows[AsI64(e.sequence) := FeedRow(e.observationId, e)]
    else rows
  }

  class FeedDatabase {
    var rows: Rows

    constructor ()
      ensures rows == map[]
    {
      rows := map[];
    }

    /** INSERT INTO wallet_feed_events */
    method Insert(key: int, row: FeedRow, reply: Reply) returns (ok: bool)
      modifies this
      ensures ok <==> reply.Answered? && !RowConflicts(old(rows), key, row.observationId)
      ensures rows == if reply.Refused? || RowConflicts(old(rows), key, row.observationId) then old(rows)
                      else old(rows)[key := row]
    {
      ok := false;
      if !reply.Refused? && !RowConflicts(rows, key, row.observationId) {
        rows := rows[key := row];
        ok := reply.Answered?;
      }
    }
  }

  class WalletFeedHub {
    var projection: WalletFeedProjection
    const pool: FeedDatabase?
    /** Everything handed to the broadcast channel so far. */
    var sent: seq<Envelope>

    /** The rows behind the hub, if it has a pool. */
    ghost function Stored(): Option<Rows>
      reads this, pool
    {
      if pool == null then None else Some(pool.rows)
    }

    /** `WalletFeedHub::new` */
    constructor ()
      ensures fresh(projection) && projection.Valid() && pool == null && projection.log == [] && sent == []
    {
      projection := new WalletFeedProjection();
      pool := null;
      sent := [];
    }

    constructor Over(projection: WalletFeedProjection, pool: FeedDatabase)
      ensures this.projection == projection && this.pool == pool && sent == []
    {
      this.projection := projection;
      this.pool := pool;
      sent := [];
    }

    /** `publish` */
    method Publish(e: Envelope, reply: Reply) returns (r: Result<(), FeedError>)
      requires projection.Valid()
      modifies this, pool
      ensures projection.Valid() && (projection == old(projection) || fresh(projection))
      ensures r == PublishResult(old(projection.log), old(Stored()), reply, e)
      ensures projection.log == PublishLog(old(projection.log), old(Stored()), reply, e)
      ensures pool != null ==> pool.rows == PublishRows(old(projection.log), old(pool.rows), reply, e)
      ensures sent == old(sent) + projection.log[|old(projection.log)|..]
    {
      var candidate := new WalletFeedProjection.Copy(projection);
      var accepted :- candidate.Apply(e);
      if accepted {
        if pool != null {
          var stored := pool.Insert(AsI64(e.sequence), FeedRow(e.observationId, e), reply);
          if !stored {
            return Err(NotPersisted);
          }
        }
        projection := candidate;
        sent := sent + [e];
      }
      return Ok(());
    }

    /** `since` */
    method Since(sequence: u64) returns (r: seq<Envelope>)
      requires projection.Valid()
      ensures r == SinceOf(projection.log, sequence)
    {
      r := projection.Since(sequence);
    }
  }

  /** No row among these is one whose JSON no longer decodes. */
  ghost predicate Readable(keys: seq<int>, unreadable: set<int>) {
    forall i :: 0 <= i < |keys| ==> keys[i] !in unreadable
  }

  lemma AllReadable(rows: Rows, unreadable: set<int>)
    ensures Readable(OrderedKeys(rows), unreadable) <==> rows.Keys !! unreadable
  {
    IntOrder();
    var keys := OrderedKeys(rows);
    assert keys == Sort(rows.Keys, IntLeq);
    if Readable(keys, unreadable) {
      forall key | key in rows.Keys ensures key !in unreadable {
        var i :| 0 <= i < |keys| && keys[i] == key;
      }
    }
  }

  /** What the remaining rows make of a log. */
  function RestoreFrom(keys: seq<int>, stored: seq<Envelope>, unreadable: set<int>, k: nat, log: Log)
    : Result<Log, FeedError>
    requires |keys| == |stored| && k <= |stored|
    decreases |stored| - k
  {
    if k == |stored| then Ok(log)
    else if keys[k] in unreadable then Err(NotDecoded)
    else
      var _ :- Decide(log, stored[k]);
      RestoreFrom(keys, stored, unreadable, k + 1, FeedLog.Apply(log, stored[k]))
  }

  /** It restores what the envelopes rebuild to, exactly if every row still decodes. */
  lemma {:induction false} RestoreIffReadable(keys: seq<int>, stored: seq<Envelope>, unreadable: set<int>, k: nat,
                                              log: Log)
    requires |keys| == |stored| && k <= |stored|
    ensures var r, rebuilt := RestoreFrom(keys, stored, unreadable, k, log), Rebuild(stored[k..], log);
            && (r.Ok? <==> Readable(keys[k..], unreadable) && rebuilt.Ok?)
            && (r.Ok? ==> r == rebuilt)
    decreases |stored| - k
  {
    if k < |stored| {
      RebuildAt(stored, k, log);
      assert keys[k..] == [keys[k]] + keys[k + 1..];
      RestoreIffReadable(keys, stored, unreadable, k + 1, FeedLog.Apply(log, stored[k]));
    }
  }

  /** The loop of `from_pool`: decode each row and apply it. */
  method Restore(keys: seq<int>, stored: seq<Envelope>, unreadable: set<int>)
    returns (r: Result<WalletFeedProjection, FeedError>)
    requires |keys| == |stored|
    ensures r.Ok? ==> fresh(r.value) && r.value.Valid()
    ensures RestoreFrom(keys, stored, unreadable, 0, []) == if r.Ok? then Ok(r.value.log) else Err(r.error)
  {
    var projection := new WalletFeedProjection();
    ghost var goal := RestoreFrom(keys, stored, unreadable, 0, []);
    for k := 0 to |stored|
      invariant fresh(projection) && projection.Valid()
      invariant goal == RestoreFrom(keys, stored, unreadable, k, projection.log)
    {
      if keys[k] in unreadable {
        return Err(NotDecoded);
      }
      var _ :- projection.Apply(stored[k]);
    }
    return Ok(projection);
  }

  /** `WalletFeedHub::from_pool` */
  method FromPool(pool: FeedDatabase, databaseUp: bool, unreadable: set<int>)
    returns (r: Result<WalletFeedHub, FeedError>)
    ensures r.Ok? <==> databaseUp && pool.rows.Keys !! unreadable && Rebuild(Ordered(pool.rows), []).Ok?
    ensures r.Ok? ==> fresh(r.value) && fresh(r.value.projection) && r.value.pool == pool && r.value.projection.Valid()
                      && Ok(r.value.projection.log) == Rebuild(Ordered(pool.rows), []) && r.value.sent == []
  {
    if !databaseUp {
      return Err(NotLoaded);
    }
    var keys, stored := OrderedKeys(pool.rows), Ordered(pool.rows);
    AllReadable(pool.rows, unreadable);
    RestoreIffReadable(keys, stored, unreadable, 0, []);
    assert keys[0..] == keys && stored[0..] == stored;
    var projection :- Restore(keys, stored, unreadable);
    var hub := new WalletFeedHub.Over(projection, pool);
    return Ok(hub);
  }

  // ---- Rebuilding what was published ----------------------------------------

  lemma {:induction false} RebuildFollowsLog(log: Log, k: nat)
    requires Legal(log) && k <= |log|
    ensures Rebuild(log[k..], log[..k]) == Ok(log)
    decreases |log| - k
  {
    if k < |log| {
      assert AcceptedAt(log, k);
      RebuildAt(log, k, log[..k]);
      assert log[..k] + [log[k]] == log[..k + 1];
      RebuildFollowsLog(log, k + 1);
    } else {
      assert log[..k] == log;
    }
  }

  function Counting(n: nat): (r: seq<int>)
    ensures |r| == n && forall i :: 0 <= i < n ==> r[i] == i + 1
  {
    seq(n, i => i + 1)
  }

  lemma PersistedKeys(log: Log)
    requires Numbered(log) && |log| <= I64_MAX
    ensures Persisted(log).Keys == Elements(Counting(|log|))
  {
    forall n: int ensures n in Persisted(log) <==> n in Elements(Counting(|log|)) {
      PersistedRow(log, n);
      if 1 <= n <= |log| { assert Counting(|log|)[n - 1] == n; }
    }
  }

  /** Two strictly increasing sequences with the same elements are the same sequence. */
  lemma {:induction false} SortedUnique(xs: seq<int>, ys: seq<int>)
    requires Sorted(xs, IntLeq) && Distinct(xs) && Sorted(ys, IntLeq) && Distinct(ys)
    requires Elements(xs) == Elements(ys)
    ensures xs == ys
  {
    if xs == [] {
      assert forall i :: 0 <= i < |ys| ==> ys[i] in Elements(ys);
    } else {
      assert xs[0] in Elements(xs);
      assert ys[0] in Elements(ys);
      assert xs[0] == ys[0];
      assert Elements(xs) == {xs[0]} + Elements(xs[1..]);
      assert Elements(ys) == {ys[0]} + Elements(ys[1..]);
      assert xs[0] !in xs[1..] && ys[0] !in ys[1..];
      assert Elements(xs[1..]) == Elements(ys[1..]);
      SortedUnique(xs[1..], ys[1..]);
    }
  }

  lemma OrderedKeysSorted(rows: Rows)
    ensures Sorted(OrderedKeys(rows), IntLeq) && Distinct(OrderedKeys(rows))
    ensures Elements(OrderedKeys(rows)) == rows.Keys
  {
    IntOrder();
    SortIsSorted(rows.Keys, IntLeq);
  }

  lemma PersistedKeysCount(log: Log)
    requires Numbered(log) && |log| <= I64_MAX
    ensures OrderedKeys(Persisted(log)) == Counting(|log|)
  {
    PersistedKeys(log);
    OrderedKeysSorted(Persisted(log));
    SortedUnique(OrderedKeys(Persisted(log)), Counting(|log|));
  }

  /** While sequences fit `i64`, the rows in key order are the log. */
  lemma {:induction false} OrderedPersisted(log: Log)
    requires Numbered(log) && |log| <= I64_MAX
    ensures Ordered(Persisted(log)) == log
  {
    PersistedKeysCount(log);
    var ordered := Ordered(Persisted(log));
    forall i | 0 <= i < |log| ensures ordered[i] == log[i] { PersistedRow(log, i + 1); }
  }

  /** Past `i64::MAX` a cast sequence is negative and its row comes first. */
  lemma WrappedRowComesFirst(log: Log)
    requires Numbered(log) && I64_MAX < |log| <= U64_MAX
    ensures Ordered(Persisted(log)) != [] && Ordered(Persisted(log))[0] == log[I64_MAX]
  {
    var least := -I64_MAX - 1;
    PersistedRow(log, least);
    OrderedKeysSorted(Persisted(log));
    var keys := OrderedKeys(Persisted(log));
    assert least in Elements(keys);
    var k :| 0 <= k < |keys| && keys[k] == least;
    PersistedRow(log, keys[0]);
  }

  /** `from_pool` accepts the rows that publishing wrote exactly while their number fits `i64`,
      and then it restores the very log that was published. */
  lemma {:induction false} RestartRestores(log: Log)
    requires Legal(log) && |log| <= U64_MAX
    ensures Rebuild(Ordered(Persisted(log)), []).Ok? <==> |log| <= I64_MAX
    ensures |log| <= I64_MAX ==> Rebuild(Ordered(Persisted(log)), []) == Ok(log)
  {
    LegalNumbered(log);
    if |log| <= I64_MAX {
      OrderedPersisted(log);
      RebuildFollowsLog(log, 0);
      assert log[0..] == log && log[..0] == [];
    } else {
      WrappedRowComesFirst(log);
    }
  }
}
