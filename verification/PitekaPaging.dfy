/** Paging over the immutable feed: any positive limits deliver every export once, in order. */
module PitekaPaging {
  import opened Words
  import opened Wrappers
  import opened Text
  import opened Connectors
  import opened PitekaSigning
  import opened PitekaFeeds

  /** The exports of an immutable feed after a sequence. */
  function After(feed: seq<SignedExport>, sequence: u64): seq<SignedExport> {
    if feed == [] then []
    else if feed[0].sequence > sequence then [feed[0]] + After(feed[1..], sequence)
    else After(feed[1..], sequence)
  }

  function Take<T>(xs: seq<T>, n: nat): seq<T> {
    if n < |xs| then xs[..n] else xs
  }

  /** The endpoint of an immutable feed: exports after a sequence, at most `limit` of them. */
  function Serve(feed: seq<SignedExport>): Transport {
    (sequence: u64, limit: u32) => Ok(PageAfter(feed, sequence, limit))
  }

  function PageAfter(feed: seq<SignedExport>, sequence: u64, limit: u32): Page {
    var exports := Take(After(feed, sequence), limit);
    Page(FEED_SCHEMA_VERSION, exports, LastSequence(exports, sequence))
  }

  /** Sequences 1, 2, ... of one tenant, each a valid raw event with its own id. */
  ghost predicate WellFormedFeed(p: Primitives, config: Config, feed: seq<SignedExport>) {
    && ConnectorText(config.sourceId)
    && (forall i :: 0 <= i < |feed| ==> feed[i].sequence == i + 1 && feed[i].tenantId == config.tenantId)
    && (forall i :: 0 <= i < |feed| ==> ValidateEvent(RawOf(p, config, feed[i])).Ok?)
    && (forall i, j :: 0 <= i < j < |feed| ==> EventId(feed[i]) != EventId(feed[j]))
  }

  lemma FeedLength(p: Primitives, config: Config, feed: seq<SignedExport>)
    requires WellFormedFeed(p, config, feed)
    ensures |feed| <= U64_MAX
  {
    if feed != [] { assert feed[|feed| - 1].sequence == |feed|; }
  }

  lemma {:induction false} AfterSuffix(feed: seq<SignedExport>, k: nat, n: u64)
    requires forall i :: 0 <= i < |feed| ==> feed[i].sequence == i + 1
    requires k <= |feed| && n <= |feed|
    ensures After(feed[k..], n) == feed[if k < n then n else k..]
    decreases |feed| - k
  {
    if k < |feed| {
      assert feed[k..][0] == feed[k] && feed[k..][1..] == feed[k + 1..];
      AfterSuffix(feed, k + 1, n);
      if n <= k { assert feed[k..] == [feed[k]] + feed[k + 1..]; }
    }
  }

  lemma {:induction false} ContiguousSlice(config: Config, feed: seq<SignedExport>, n: u64, m: nat)
    requires forall i :: 0 <= i < |feed| ==> feed[i].sequence == i + 1 && feed[i].tenantId == config.tenantId
    requires n <= m <= |feed|
    ensures Contiguous(config, feed[n..m], n)
    decreases m - n
  {
    if n < m {
      assert feed[n..m][0] == feed[n] && feed[n..m][1..] == feed[n + 1..m];
      assert feed[n].sequence == n + 1;
      ContiguousSlice(config, feed, n + 1, m);
    }
  }

  /** Where a page of `limit` exports after `n` ends. */
  function PageEnd(n: nat, limit: nat, length: nat): nat {
    if n + limit < length then n + limit else length
  }

  function CursorAt(config: Config, n: u64): Option<ConnectorCursor> {
    if n == 0 then None else Some(EncodeCursor(config.sourceId, n))
  }

  function BatchOf(p: Primitives, config: Config, feed: seq<SignedExport>, n: nat, m: u64): RawBatch
    requires n <= m <= |feed|
  {
    RawBatch(config.sourceId, RawsOf(p, config, feed[n..m]), EncodeCursor(config.sourceId, m))
  }

  lemma SlicesPass(p: Primitives, config: Config, feed: seq<SignedExport>, n: nat, m: u64, limit: u32)
    requires WellFormedFeed(p, config, feed) && n <= m <= |feed| && m - n <= limit && 0 < limit <= MAX_DISCOVERY_LIMIT
    ensures CheckBatch(BatchOf(p, config, feed, n, m), limit).Ok?
    ensures Checkpoint(BatchOf(p, config, feed, n, m)) == Ok(EncodeCursor(config.sourceId, m))
  {
    var batch := BatchOf(p, config, feed, n, m);
    forall i | 0 <= i < |batch.events|
      ensures ValidateEvent(batch.events[i]).Ok? && batch.events[i] == RawOf(p, config, feed[n + i])
    {
      assert feed[n..m][i] == feed[n + i];
    }
    CheckBatchMeaning(batch, limit);
    CheckBatchMeaning(batch, MAX_DISCOVERY_LIMIT);
  }

  lemma ServedPage(p: Primitives, config: Config, feed: seq<SignedExport>, n: u64, limit: u32)
    requires WellFormedFeed(p, config, feed) && n <= |feed| <= U64_MAX && 0 < limit
    ensures PageAfter(feed, n, limit)
            == Page(FEED_SCHEMA_VERSION, feed[n..PageEnd(n, limit, |feed|)], PageEnd(n, limit, |feed|))
  {
    assert feed[0..] == feed;
    AfterSuffix(feed, 0, n);
    var m := PageEnd(n, limit, |feed|);
    assert Take(feed[n..], limit) == feed[n..m];
    SliceEnd(p, config, feed, n, m);
  }

  lemma SliceEnd(p: Primitives, config: Config, feed: seq<SignedExport>, n: u64, m: u64)
    requires WellFormedFeed(p, config, feed) && n <= m <= |feed|
    ensures LastSequence(feed[n..m], n) == m
  {
    if n < m { assert feed[n..m][m - n - 1] == feed[m - 1]; }
  }

  /** One discovery over a well-formed feed, from any point with any valid limit. */
  lemma DiscoverSlice(p: Primitives, config: Config, feed: seq<SignedExport>, n: u64, limit: u32)
    requires WellFormedFeed(p, config, feed) && n <= |feed| && 0 < limit <= MAX_DISCOVERY_LIMIT
    ensures var m := PageEnd(n, limit, |feed|);
            && m <= U64_MAX
            && Discovered(p, config, Serve(feed), CursorAt(config, n), limit) == Ok(BatchOf(p, config, feed, n, m))
  {
    FeedLength(p, config, feed);
    var m := PageEnd(n, limit, |feed|);
    if n > 0 { CursorRoundTrips(config.sourceId, n); }
    ServedPage(p, config, feed, n, limit);
    ContiguousSlice(config, feed, n, m);
    SliceEnd(p, config, feed, n, m);
    SlicesPass(p, config, feed, n, m, limit);
  }

  type Discovery = (Option<ConnectorCursor>, u32) -> Result<RawBatch, ConnectorError>

  function DiscoverOver(p: Primitives, config: Config, fetch: Transport): Discovery {
    (cursor: Option<ConnectorCursor>, limit: u32) => Discovered(p, config, fetch, cursor, limit)
  }

  /** Repeated discover and checkpoint with the given limits: the raw events read, and the cursor reached. */
  function Pages(discover: Discovery, cursor: Option<ConnectorCursor>, limits: seq<u32>)
    : Result<(seq<RawEvent>, Option<ConnectorCursor>), ConnectorError>
    decreases |limits|
  {
    if limits == [] then Ok(([], cursor)) else
      var batch :- discover(cursor, limits[0]);
      if batch.events == [] then Ok(([], cursor)) else
        var next :- Checkpoint(batch);
        var rest :- Pages(discover, Some(next), limits[1..]);
        Ok((batch.events + rest.0, rest.1))
  }

  function Reach(n: nat, limits: seq<u32>, length: nat): nat
    decreases |limits|
  {
    if limits == [] then n else Reach(PageEnd(n, limits[0], length), limits[1..], length)
  }

  lemma {:induction false} ReachBounds(n: nat, limits: seq<u32>, length: nat)
    requires n <= length
    ensures n <= Reach(n, limits, length) <= length
    decreases |limits|
  {
    if limits != [] { ReachBounds(PageEnd(n, limits[0], length), limits[1..], length); }
  }

  ghost predicate GoodLimits(limits: seq<u32>) {
    forall i :: 0 <= i < |limits| ==> 0 < limits[i] <= MAX_DISCOVERY_LIMIT
  }

  /** Every discovery over the feed returns the slice of it that its cursor and limit ask for. */
  ghost predicate ReturnsSlices(discover: Discovery, p: Primitives, config: Config, feed: seq<SignedExport>) {
    forall n: u64, limit: u32 :: n <= |feed| && 0 < limit <= MAX_DISCOVERY_LIMIT ==>
      var m := PageEnd(n, limit, |feed|);
      m <= U64_MAX && discover(CursorAt(config, n), limit) == Ok(BatchOf(p, config, feed, n, m))
  }

  lemma RawsJoin(p: Primitives, config: Config, feed: seq<SignedExport>, n: nat, end: nat, m: nat)
    requires n <= end <= m <= |feed|
    ensures RawsOf(p, config, feed[n..end]) + RawsOf(p, config, feed[end..m]) == RawsOf(p, config, feed[n..m])
  {
  }

  lemma PagesStep(discover: Discovery, cursor: Option<ConnectorCursor>, limits: seq<u32>, batch: RawBatch,
                  next: ConnectorCursor)
    requires limits != [] && discover(cursor, limits[0]) == Ok(batch) && batch.events != []
             && Checkpoint(batch) == Ok(next)
    requires Pages(discover, Some(next), limits[1..]).Ok?
    ensures var rest := Pages(discover, Some(next), limits[1..]).value;
            Pages(discover, cursor, limits) == Ok((batch.events + rest.0, rest.1))
  {
  }

  lemma {:induction false} SlicesFollow(discover: Discovery, p: Primitives, config: Config, feed: seq<SignedExport>,
                                        n: u64, limits: seq<u32>)
    requires WellFormedFeed(p, config, feed) && n <= |feed| && GoodLimits(limits) && |feed| <= U64_MAX
    requires ReturnsSlices(discover, p, config, feed)
    ensures var m := Reach(n, limits, |feed|);
            && n <= m <= |feed|
            && Pages(discover, CursorAt(config, n), limits) == Ok((RawsOf(p, config, feed[n..m]), CursorAt(config, m)))
    decreases |limits|
  {
    ReachBounds(n, limits, |feed|);
    if limits != [] {
      var end := PageEnd(n, limits[0], |feed|);
      var m := Reach(n, limits, |feed|);
      assert discover(CursorAt(config, n), limits[0]) == Ok(BatchOf(p, config, feed, n, end));
      if n < end {
        SlicesPass(p, config, feed, n, end, limits[0]);
        SlicesFollow(discover, p, config, feed, end, limits[1..]);
        PagesStep(discover, CursorAt(config, n), limits, BatchOf(p, config, feed, n, end),
            EncodeCursor(config.sourceId, end));
        RawsJoin(p, config, feed, n, end, m);
      } else {
        StuckAtEnd(limits, |feed|);
      }
    }
  }

  /** Whatever the limits, paging reads a contiguous stretch of the feed, each export once and in
      order, and ends at the cursor of its last export. */
  lemma PagesReadFeed(p: Primitives, config: Config, feed: seq<SignedExport>, n: u64, limits: seq<u32>)
    requires WellFormedFeed(p, config, feed) && n <= |feed| && GoodLimits(limits)
    ensures var m := Reach(n, limits, |feed|);
            && n <= m <= |feed| <= U64_MAX
            && Pages(DiscoverOver(p, config, Serve(feed)), CursorAt(config, n), limits)
               == Ok((RawsOf(p, config, feed[n..m]), CursorAt(config, m)))
  {
    FeedLength(p, config, feed);
    var discover := DiscoverOver(p, config, Serve(feed));
    forall n: u64, limit: u32 | n <= |feed| && 0 < limit <= MAX_DISCOVERY_LIMIT
      ensures var m := PageEnd(n, limit, |feed|);
              m <= U64_MAX && discover(CursorAt(config, n), limit) == Ok(BatchOf(p, config, feed, n, m))
    {
      DiscoverSlice(p, config, feed, n, limit);
    }
    SlicesFollow(discover, p, config, feed, n, limits);
  }

  lemma {:induction false} StuckAtEnd(limits: seq<u32>, length: nat)
    ensures Reach(length, limits, length) == length
    decreases |limits|
  {
    if limits != [] { StuckAtEnd(limits[1..], length); }
  }

  /** Paging is independent of the batch size: two lists of limits that both reach the end read the same events. */
  lemma BatchSizeIrrelevant(p: Primitives, config: Config, feed: seq<SignedExport>, a: seq<u32>, b: seq<u32>)
    requires WellFormedFeed(p, config, feed)
    requires GoodLimits(a) && GoodLimits(b)
    requires Reach(0, a, |feed|) == |feed| == Reach(0, b, |feed|)
    ensures var discover := DiscoverOver(p, config, Serve(feed));
            Pages(discover, None, a) == Pages(discover, None, b)
            && Pages(discover, None, a).Ok? && Pages(discover, None, a).value.0 == RawsOf(p, config, feed)
  {
    FeedLength(p, config, feed);
    PagesReadFeed(p, config, feed, 0, a);
    PagesReadFeed(p, config, feed, 0, b);
    assert feed[0..|feed|] == feed;
  }

  /** A limit repeated once per export always reaches the end. */
  lemma {:induction false} EnoughPages(n: nat, limits: seq<u32>, length: nat)
    requires n <= length && length - n <= |limits| && forall i :: 0 <= i < |limits| ==> 0 < limits[i]
    ensures Reach(n, limits, length) == length
    decreases |limits|
  {
    if n == length { StuckAtEnd(limits, length); }
    else { EnoughPages(PageEnd(n, limits[0], length), limits[1..], length); }
  }
}
