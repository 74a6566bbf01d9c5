/** The in-memory sliding-window limiter of the webhook routes, with its lazy pruning and bucket cap, against
    a limiter that recounts the whole log of accepted requests at every request. */
module Limiting {
  import opened Model

  type Seconds = real
  type Source = string
  type Pair = (Source, Id)

  const WINDOW: Seconds := 60.0
  const MAX_REQUESTS := 120
  const MAX_SOURCE_REQUESTS := 600
  const MAX_CONNECTION_BUCKETS := 4096

  datatype Accepted = Accepted(source: Source, conn: Id, at: Seconds)
  datatype Request = Request(source: Source, conn: Id, at: Seconds)

  // ---- the naive limiter -----------------------------------------------------------------

  /** The times after `cutoff`. */
  function Recent(times: seq<Seconds>, cutoff: Seconds): seq<Seconds> {
    if |times| == 0 then []
    else
      var init := Recent(times[..|times| - 1], cutoff);
      if times[|times| - 1] > cutoff then init + [times[|times| - 1]] else init
  }

  function SourceTimes(log: seq<Accepted>, source: Source): seq<Seconds> {
    if |log| == 0 then []
    else
      var init := SourceTimes(log[..|log| - 1], source);
      if log[|log| - 1].source == source then init + [log[|log| - 1].at] else init
  }

  function PairTimes(log: seq<Accepted>, pair: Pair): seq<Seconds> {
    if |log| == 0 then []
    else
      var init := PairTimes(log[..|log| - 1], pair);
      var last := log[|log| - 1];
      if (last.source, last.conn) == pair then init + [last.at] else init
  }

  ghost function BySource(log: seq<Accepted>): Source -> seq<Seconds> { s => SourceTimes(log, s) }

  ghost function ByPair(log: seq<Accepted>): Pair -> seq<Seconds> { p => PairTimes(log, p) }

  /** The (source, connection) pairs with an accepted request after `cutoff`. */
  function LivePairs(log: seq<Accepted>, cutoff: Seconds): set<Pair> {
    set i | 0 <= i < |log| && log[i].at > cutoff :: (log[i].source, log[i].conn)
  }

  /** Recounts the log: fewer than 600 recent accepts of the source, fewer than 120 of the pair, and fewer than
      4096 other pairs with a recent accept. */
  predicate NaiveAllows(log: seq<Accepted>, r: Request) {
    var cutoff, pair := r.at - 60.0, (r.source, r.conn);
    && |Recent(SourceTimes(log, r.source), cutoff)| < 600
    && |LivePairs(log, cutoff) - {pair}| < 4096
    && |Recent(PairTimes(log, pair), cutoff)| < 120
  }

  function NaiveLog(log: seq<Accepted>, r: Request): seq<Accepted> {
    if NaiveAllows(log, r) then log + [Accepted(r.source, r.conn, r.at)] else log
  }

  // ---- buckets stand for the log ---------------------------------------------------------

  predicate Ascending(times: seq<Seconds>) { forall i, j :: 0 <= i < j < |times| ==> times[i] <= times[j] }

  lemma {:induction false} RecentTwice(times: seq<Seconds>, c: Seconds, d: Seconds)
    requires c <= d
    ensures Recent(Recent(times, c), d) == Recent(times, d)
  {
    if |times| > 0 {
      var init, last := times[..|times| - 1], times[|times| - 1];
      RecentTwice(init, c, d);
      if last > c { assert (Recent(init, c) + [last])[..|Recent(init, c)|] == Recent(init, c); }
    }
  }

  lemma RecentAppend(times: seq<Seconds>, t: Seconds, c: Seconds)
    ensures Recent(times + [t], c) == if t > c then Recent(times, c) + [t] else Recent(times, c)
  {
    assert (times + [t])[..|times|] == times;
  }

  lemma {:induction false} RecentAll(times: seq<Seconds>, c: Seconds)
    requires forall i :: 0 <= i < |times| ==> times[i] > c
    ensures Recent(times, c) == times
  {
    if |times| > 0 {
      RecentAll(times[..|times| - 1], c);
      assert times == times[..|times| - 1] + [times[|times| - 1]];
    }
  }

  lemma {:induction false} RecentDrop(times: seq<Seconds>, c: Seconds)
    requires |times| > 0 && times[0] <= c
    ensures Recent(times[1..], c) == Recent(times, c)
  {
    if |times| > 1 {
      var init := times[..|times| - 1];
      RecentDrop(init, c);
      assert times[1..][..|times[1..]| - 1] == init[1..];
    }
  }

  /** From `cutoff` on, the bucket answers every recount as the full list of times does. */
  ghost predicate StandsFor(bucket: seq<Seconds>, times: seq<Seconds>, cutoff: Seconds) {
    forall c :: c >= cutoff ==> Recent(bucket, c) == Recent(times, c)
  }

  lemma StandsLater(bucket: seq<Seconds>, times: seq<Seconds>, c: Seconds, d: Seconds)
    requires StandsFor(bucket, times, c) && c <= d
    ensures StandsFor(bucket, times, d) && StandsFor(Recent(bucket, d), times, d)
  {
    forall e | e >= d ensures Recent(Recent(bucket, d), e) == Recent(times, e) { RecentTwice(bucket, d, e); }
  }

  lemma StandsAppend(bucket: seq<Seconds>, times: seq<Seconds>, c: Seconds, t: Seconds)
    requires StandsFor(bucket, times, c)
    ensures StandsFor(bucket + [t], times + [t], c)
  {
    forall d | d >= c ensures Recent(bucket + [t], d) == Recent(times + [t], d) {
      RecentAppend(bucket, t, d);
      RecentAppend(times, t, d);
    }
  }

  function Get<K(==)>(buckets: map<K, seq<Seconds>>, k: K): seq<Seconds> { if k in buckets then buckets[k] else [] }

  lemma {:induction false} PairTimeOf(log: seq<Accepted>, pair: Pair, c: Seconds)
    ensures pair in LivePairs(log, c) <==> |Recent(PairTimes(log, pair), c)| > 0
  {
    if |log| > 0 {
      var init, last := log[..|log| - 1], log[|log| - 1];
      PairTimeOf(init, pair, c);
      LivePairsAppend(init, last, c);
      assert log == init + [last];
      if (last.source, last.conn) == pair { RecentAppend(PairTimes(init, pair), last.at, c); }
    }
  }

  lemma LivePairsAppend(log: seq<Accepted>, a: Accepted, c: Seconds)
    ensures LivePairs(log + [a], c) == LivePairs(log, c) + (if a.at > c then {(a.source, a.conn)} else {})
  {
    var longer := log + [a];
    forall p | p in LivePairs(log, c) ensures p in LivePairs(longer, c) {
      var i :| 0 <= i < |log| && log[i].at > c && (log[i].source, log[i].conn) == p;
      assert longer[i] == log[i];
    }
    if a.at > c { assert longer[|log|] == a; }
  }

  // ---- the limiter -----------------------------------------------------------------------

  /** Drop the times that have left the window from the front. */
  method PruneTimes(times: seq<Seconds>, cutoff: Seconds) returns (kept: seq<Seconds>)
    requires Ascending(times)
    ensures kept == Recent(times, cutoff) && Ascending(kept)
  {
    kept := times;
    while |kept| > 0 && kept[0] <= cutoff
      invariant Ascending(kept) && Recent(kept, cutoff) == Recent(times, cutoff)
      decreases |kept|
    {
      RecentDrop(kept, cutoff);
      kept := kept[1..];
    }
    RecentAll(kept, cutoff);
  }

  /** What pruning a table leaves. */
  ghost predicate PrunedTo<K(!new)>(buckets: map<K, seq<Seconds>>, kept: map<K, seq<Seconds>>, cutoff: Seconds) {
    && (forall k :: k in kept <==> k in buckets && |Recent(buckets[k], cutoff)| > 0)
    && (forall k :: k in kept ==> kept[k] == Recent(buckets[k], cutoff))
  }

  /** Prune every bucket and remove the ones that become empty. */
  method PruneBuckets<K(==,!new)>(buckets: map<K, seq<Seconds>>, cutoff: Seconds) returns (kept: map<K, seq<Seconds>>)
    requires forall k :: k in buckets ==> Ascending(buckets[k])
    ensures PrunedTo(buckets, kept, cutoff)
  {
    kept := buckets;
    var todo, expired := buckets.Keys, {};
    while todo != {}
      invariant todo <= buckets.Keys && kept.Keys == buckets.Keys && expired <= buckets.Keys - todo
      invariant forall k :: k in todo ==> kept[k] == buckets[k]
      invariant forall k :: k in buckets && k !in todo ==> kept[k] == Recent(buckets[k], cutoff)
      invariant forall k :: k in buckets && k !in todo ==> (k in expired <==> |kept[k]| == 0)
      decreases |todo|
    {
      var k :| k in todo;
      var times := PruneTimes(kept[k], cutoff);
      kept := kept[k := times];
      if |times| == 0 { expired := expired + {k}; }
      todo := todo - {k};
    }
    kept := kept - expired;
  }

  // ---- a table of buckets ----------------------------------------------------------------

  predicate Bounded(times: seq<Seconds>, clock: Seconds) { forall i :: 0 <= i < |times| ==> times[i] <= clock }

  ghost predicate BucketOk(bucket: seq<Seconds>, times: seq<Seconds>, clock: Seconds) {
    Ascending(bucket) && Bounded(bucket, clock) && StandsFor(bucket, times, clock - WINDOW)
  }

  /** Every key's bucket, absent meaning empty, stands for the key's full list of times. */
  ghost predicate TableOk<K(!new)>(buckets: map<K, seq<Seconds>>, times: K -> seq<Seconds>, clock: Seconds) {
    forall k :: BucketOk(Get(buckets, k), times(k), clock)
  }

  lemma {:induction false} RecentBounded(times: seq<Seconds>, c: Seconds, clock: Seconds)
    requires Bounded(times, clock)
    ensures Bounded(Recent(times, c), clock)
  {
    if |times| > 0 { RecentBounded(times[..|times| - 1], c, clock); }
  }

  lemma {:induction false} RecentAscending(times: seq<Seconds>, c: Seconds)
    requires Ascending(times)
    ensures Ascending(Recent(times, c))
  {
    if |times| > 0 {
      var init, last := times[..|times| - 1], times[|times| - 1];
      assert forall i :: 0 <= i < |init| ==> init[i] <= last;
      RecentAscending(init, c);
      RecentBounded(init, c, last);
    }
  }

  lemma BucketLater(bucket: seq<Seconds>, times: seq<Seconds>, clock: Seconds, now: Seconds)
    requires BucketOk(bucket, times, clock) && clock <= now
    ensures BucketOk(bucket, times, now) && BucketOk(Recent(bucket, now - WINDOW), times, now)
    ensures Recent(bucket, now - WINDOW) == Recent(times, now - WINDOW)
  {
    StandsLater(bucket, times, clock - WINDOW, now - WINDOW);
    RecentBounded(bucket, now - WINDOW, now);
    RecentAscending(bucket, now - WINDOW);
  }

  lemma BucketAppend(bucket: seq<Seconds>, times: seq<Seconds>, clock: Seconds)
    requires BucketOk(bucket, times, clock)
    ensures BucketOk(bucket + [clock], times + [clock], clock)
  {
    StandsAppend(bucket, times, clock - WINDOW, clock);
  }

  lemma TableLater<K(!new)>(buckets: map<K, seq<Seconds>>, times: K -> seq<Seconds>, clock: Seconds, now: Seconds)
    requires TableOk(buckets, times, clock) && clock <= now
    ensures TableOk(buckets, times, now)
  {
    forall k ensures BucketOk(Get(buckets, k), times(k), now) {
      assert BucketOk(Get(buckets, k), times(k), clock);
      BucketLater(Get(buckets, k), times(k), clock, now);
    }
  }

  lemma TablePruned<K(!new)>(
    buckets: map<K, seq<Seconds>>, kept: map<K, seq<Seconds>>, times: K -> seq<Seconds>, now: Seconds)
    requires TableOk(buckets, times, now) && PrunedTo(buckets, kept, now - WINDOW)
    ensures TableOk(kept, times, now) && forall k :: k in kept <==> |Recent(times(k), now - WINDOW)| > 0
  {
    forall k ensures BucketOk(Get(kept, k), times(k), now) && (k in kept <==> |Recent(times(k), now - WINDOW)| > 0) {
      assert BucketOk(Get(buckets, k), times(k), now);
      BucketLater(Get(buckets, k), times(k), now, now);
      assert Get(kept, k) == Recent(Get(buckets, k), now - WINDOW);
    }
  }

  /** Reading a key's bucket: create it if needed, and prune it. */
  lemma TablePruneOne<K(!new)>(buckets: map<K, seq<Seconds>>, times: K -> seq<Seconds>, now: Seconds, k: K)
    requires TableOk(buckets, times, now)
    ensures var pruned := Recent(Get(buckets, k), now - WINDOW);
      TableOk(buckets[k := pruned], times, now) && pruned == Recent(times(k), now - WINDOW)
  {
    var kept := buckets[k := Recent(Get(buckets, k), now - WINDOW)];
    forall q ensures BucketOk(Get(kept, q), times(q), now) {
      assert BucketOk(Get(buckets, q), times(q), now);
      BucketLater(Get(buckets, q), times(q), now, now);
    }
    assert BucketOk(Get(buckets, k), times(k), now);
    BucketLater(Get(buckets, k), times(k), now, now);
  }

  lemma TableAppend<K(!new)>(
    buckets: map<K, seq<Seconds>>, times: K -> seq<Seconds>, times': K -> seq<Seconds>, now: Seconds, k: K)
    requires TableOk(buckets, times, now) && k in buckets
    requires times'(k) == times(k) + [now] && forall q :: q != k ==> times'(q) == times(q)
    ensures TableOk(buckets[k := buckets[k] + [now]], times', now)
  {
    var longer := buckets[k := buckets[k] + [now]];
    forall q ensures BucketOk(Get(longer, q), times'(q), now) {
      assert BucketOk(Get(buckets, q), times(q), now);
      if q == k { BucketAppend(buckets[k], times(k), now); }
    }
  }

  /** A new empty bucket changes nothing. */
  lemma TableSame<K(!new)>(buckets: map<K, seq<Seconds>>, k: K, times: K -> seq<Seconds>, now: Seconds)
    requires TableOk(buckets, times, now) && k !in buckets
    ensures TableOk(buckets[k := []], times, now)
  {
    forall q ensures BucketOk(Get(buckets[k := []], q), times(q), now) {
      assert BucketOk(Get(buckets, q), times(q), now);
    }
  }

  lemma {:induction false} SubsetSize<T>(a: set<T>, b: set<T>)
    requires a <= b
    ensures |a| <= |b|
  {
    if a != {} {
      var x :| x in a;
      SubsetSize(a - {x}, b - {x});
    }
  }

  /** A pair that has a bucket, expired or not, leaves room for at most 4095 other live pairs. */
  lemma RoomWhenPresent(pairs: map<Pair, seq<Seconds>>, log: seq<Accepted>, now: Seconds, pair: Pair)
    requires TableOk(pairs, ByPair(log), now) && pair in pairs && |pairs| <= MAX_CONNECTION_BUCKETS
    ensures |LivePairs(log, now - WINDOW) - {pair}| < MAX_CONNECTION_BUCKETS
  {
    var live := LivePairs(log, now - WINDOW);
    forall p | p in live - {pair} ensures p in pairs.Keys - {pair} {
      PairTimeOf(log, p, now - WINDOW);
      assert BucketOk(Get(pairs, p), ByPair(log)(p), now);
      BucketLater(Get(pairs, p), PairTimes(log, p), now, now);
    }
    SubsetSize(live - {pair}, pairs.Keys - {pair});
    assert |pairs.Keys - {pair}| == |pairs| - 1;
  }

  lemma SameSize<K, V>(live: set<K>, kept: map<K, V>, buckets: map<K, V>)
    requires live == kept.Keys && kept.Keys <= buckets.Keys
    ensures |live| == |kept| <= |buckets|
  {
    SubsetSize(kept.Keys, buckets.Keys);
  }

  lemma OneMore<K, V>(buckets: map<K, V>, k: K, v: V)
    requires k !in buckets
    ensures |buckets[k := v]| == |buckets| + 1
  {
    assert buckets[k := v].Keys == buckets.Keys + {k};
  }

  lemma ReplacedSize<K, V>(buckets: map<K, V>, k: K, v: V)
    requires k in buckets
    ensures |buckets[k := v]| == |buckets|
  {
    assert buckets[k := v].Keys == buckets.Keys;
  }

  /** A pair without a bucket is not live, and after pruning the buckets are exactly the live pairs. */
  lemma RoomWhenAbsent(pairs: map<Pair, seq<Seconds>>, kept: map<Pair, seq<Seconds>>, log: seq<Accepted>,
    now: Seconds, pair: Pair)
    requires TableOk(pairs, ByPair(log), now) && pair !in pairs && PrunedTo(pairs, kept, now - WINDOW)
    ensures LivePairs(log, now - WINDOW) - {pair} == kept.Keys && pair !in kept && kept.Keys <= pairs.Keys
  {
    TablePruned(pairs, kept, ByPair(log), now);
    forall p ensures p in LivePairs(log, now - WINDOW) <==> p in kept {
      PairTimeOf(log, p, now - WINDOW);
      assert |Recent(ByPair(log)(p), now - WINDOW)| > 0 <==> p in kept;
    }
  }

  lemma TableAscending<K(!new)>(buckets: map<K, seq<Seconds>>, times: K -> seq<Seconds>, clock: Seconds)
    requires TableOk(buckets, times, clock)
    ensures forall k :: k in buckets ==> Ascending(buckets[k])
  {
    forall k | k in buckets ensures Ascending(buckets[k]) { assert BucketOk(Get(buckets, k), times(k), clock); }
  }

  lemma EmptyBuckets()
    ensures forall clock :: TableOk(map[], BySource([]), clock) && TableOk(map[], ByPair([]), clock)
  {
    forall clock: Seconds, s: Source ensures BucketOk(Get(map[], s), BySource([])(s), clock) {}
    forall clock: Seconds, p: Pair ensures BucketOk(Get(map[], p), ByPair([])(p), clock) {}
  }

  lemma LogGrows(log: seq<Accepted>, a: Accepted)
    ensures forall s :: BySource(log + [a])(s) == BySource(log)(s) + (if a.source == s then [a.at] else [])
    ensures forall p :: ByPair(log + [a])(p) == ByPair(log)(p) + (if (a.source, a.conn) == p then [a.at] else [])
  {
    assert (log + [a])[..|log|] == log;
  }

  class Limiter {
    var sources: map<Source, seq<Seconds>>
    var pairs: map<Pair, seq<Seconds>>
    ghost var log: seq<Accepted>
    ghost var clock: Seconds

    ghost predicate Valid()
      reads this
    {
      && TableOk(sources, BySource(log), clock) && TableOk(pairs, ByPair(log), clock)
      && |pairs| <= MAX_CONNECTION_BUCKETS
    }

    constructor (start: Seconds)
      ensures Valid() && log == [] && clock == start
    {
      sources, pairs, log, clock := map[], map[], [], start;
      EmptyBuckets();
    }

    /** The source's recent accepts; its bucket is created, and the others pruned, if it has none. */
    method SourceBucket(source: Source, cutoff: Seconds) returns (recent: seq<Seconds>)
      requires Valid() && cutoff == clock - WINDOW
      modifies `sources
      ensures Valid() && source in sources && sources[source] == recent
      ensures recent == Recent(SourceTimes(log, source), clock - WINDOW)
    {
      hide TableOk, PrunedTo, Recent, Ascending;
      TableAscending(sources, BySource(log), clock);
      if source !in sources {
        var kept := PruneBuckets(sources, cutoff);
        TablePruned(sources, kept, BySource(log), clock);
        TableSame(kept, source, BySource(log), clock);
        sources := kept[source := []];
      }
      TablePruneOne(sources, BySource(log), clock, source);
      TableAscending(sources, BySource(log), clock);
      recent := PruneTimes(sources[source], cutoff);
      sources := sources[source := recent];
    }

    /** Prune the buckets and, if there is room, create one for a pair that has none. */
    method CreatePairBucket(pair: Pair, cutoff: Seconds) returns (created: bool)
      requires Valid() && cutoff == clock - WINDOW && pair !in pairs
      modifies `pairs
      ensures Valid() && (created ==> pair in pairs)
      ensures created <==> |LivePairs(log, cutoff) - {pair}| < MAX_CONNECTION_BUCKETS
    {
      hide TableOk, PrunedTo, Recent, Ascending, LivePairs;
      TableAscending(pairs, ByPair(log), clock);
      var kept := PruneBuckets(pairs, cutoff);
      RoomWhenAbsent(pairs, kept, log, clock, pair);
      SameSize(LivePairs(log, cutoff) - {pair}, kept, pairs);
      OneMore(kept, pair, []);
      TablePruned(pairs, kept, ByPair(log), clock);
      pairs := kept;
      created := |kept| < MAX_CONNECTION_BUCKETS;
      if created {
        TableSame(kept, pair, ByPair(log), clock);
        pairs := kept[pair := []];
      }
    }

    /** The pair's recent accepts, or nothing if it has no bucket and there is no room for one. */
    method PairBucket(pair: Pair, cutoff: Seconds) returns (recent: Option<seq<Seconds>>)
      requires Valid() && cutoff == clock - WINDOW
      modifies `pairs
      ensures Valid()
      ensures recent.Some? <==> |LivePairs(log, cutoff) - {pair}| < MAX_CONNECTION_BUCKETS
      ensures recent.Some? ==>
        pair in pairs && pairs[pair] == recent.value && recent.value == Recent(PairTimes(log, pair), cutoff)
    {
      hide TableOk, Recent, Ascending, LivePairs;
      if pair !in pairs {
        var created := CreatePairBucket(pair, cutoff);
        if !created { return None; }
      } else {
        RoomWhenPresent(pairs, log, clock, pair);
      }
      TablePruneOne(pairs, ByPair(log), clock, pair);
      TableAscending(pairs, ByPair(log), clock);
      var times := PruneTimes(pairs[pair], cutoff);
      ReplacedSize(pairs, pair, times);
      pairs := pairs[pair := times];
      recent := Some(times);
    }

    /** Log an accept, in the log and in both buckets. */
    method Accept(r: Request)
      requires Valid() && clock == r.at && r.source in sources && (r.source, r.conn) in pairs
      modifies this
      ensures Valid() && clock == r.at && log == old(log) + [Accepted(r.source, r.conn, r.at)]
    {
      hide TableOk, Recent, SourceTimes, PairTimes;
      var pair := (r.source, r.conn);
      ghost var longer := log + [Accepted(r.source, r.conn, r.at)];
      LogGrows(log, Accepted(r.source, r.conn, r.at));
      TableAppend(sources, BySource(log), BySource(longer), r.at, r.source);
      TableAppend(pairs, ByPair(log), ByPair(longer), r.at, pair);
      ReplacedSize(pairs, pair, pairs[pair] + [r.at]);
      sources := sources[r.source := sources[r.source] + [r.at]];
      pairs := pairs[pair := pairs[pair] + [r.at]];
      log := longer;
    }

    /** Answers every request exactly as recounting the whole log of accepted requests would. */
    method Allow(r: Request) returns (allowed: bool)
      requires Valid() && clock <= r.at
      modifies this
      ensures Valid() && clock == r.at
      ensures allowed == NaiveAllows(old(log), r) && log == NaiveLog(old(log), r)
    {
      hide TableOk, Recent, LivePairs, SourceTimes, PairTimes;
      TableLater(sources, BySource(log), clock, r.at);
      TableLater(pairs, ByPair(log), clock, r.at);
      clock := r.at;
      var sourceTimes := SourceBucket(r.source, r.at - WINDOW);
      if |sourceTimes| >= MAX_SOURCE_REQUESTS { return false; }
      var times := PairBucket((r.source, r.conn), r.at - WINDOW);
      if times.None? || |times.value| >= MAX_REQUESTS { return false; }
      Accept(r);
      return true;
    }
  }

  // ---- whole histories -------------------------------------------------------------------

  /** The requests of a history whose clock never goes back. */
  predicate Forwards(requests: seq<Request>) {
    forall i, j :: 0 <= i < j < |requests| ==> requests[i].at <= requests[j].at
  }

  function AcceptedOf(requests: seq<Request>): seq<Accepted> {
    if |requests| == 0 then []
    else NaiveLog(AcceptedOf(requests[..|requests| - 1]), requests[|requests| - 1])
  }

  lemma AcceptedStep(requests: seq<Request>, i: nat)
    requires i < |requests|
    ensures AcceptedOf(requests[..i + 1]) == NaiveLog(AcceptedOf(requests[..i]), requests[i])
  {
    assert requests[..i + 1][..i] == requests[..i];
  }

  /** On every request of every history the limiter gives the naive limiter's answer. */
  method Replay(requests: seq<Request>) returns (answers: seq<bool>)
    requires Forwards(requests)
    ensures |answers| == |requests|
    ensures forall i :: 0 <= i < |requests| ==> answers[i] == NaiveAllows(AcceptedOf(requests[..i]), requests[i])
  {
    hide NaiveAllows, NaiveLog, TableOk;
    answers := [];
    if |requests| == 0 { return; }
    var limiter := new Limiter(requests[0].at);
    for i := 0 to |requests|
      invariant limiter.Valid() && limiter.log == AcceptedOf(requests[..i]) && |answers| == i
      invariant i < |requests| ==> limiter.clock <= requests[i].at
      invariant forall j :: 0 <= j < i ==> answers[j] == NaiveAllows(AcceptedOf(requests[..j]), requests[j])
    {
      AcceptedStep(requests, i);
      var allowed := limiter.Allow(requests[i]);
      answers := answers + [allowed];
    }
  }

  /** The times in the half-open window that ends at `t`. */
  function InWindow(times: seq<Seconds>, t: Seconds): seq<Seconds> {
    if |times| == 0 then []
    else
      var init, last := InWindow(times[..|times| - 1], t), times[|times| - 1];
      if t - 60.0 < last <= t then init + [last] else init
  }

  lemma {:induction false} WindowWithinRecent(times: seq<Seconds>, t: Seconds, cutoff: Seconds)
    requires cutoff <= t - WINDOW
    ensures |InWindow(times, t)| <= |Recent(times, cutoff)|
  {
    if |times| > 0 { WindowWithinRecent(times[..|times| - 1], t, cutoff); }
  }

  lemma WindowAppend(times: seq<Seconds>, at: Seconds, t: Seconds)
    ensures |InWindow(times + [at], t)| == |InWindow(times, t)| + (if t - WINDOW < at <= t then 1 else 0)
  {
    assert (times + [at])[..|times|] == times;
  }

  lemma WindowStep(times: seq<Seconds>, at: Seconds, t: Seconds, max: nat)
    requires |InWindow(times, t)| <= max && |Recent(times, at - WINDOW)| < max
    ensures |InWindow(times + [at], t)| <= max
  {
    WindowAppend(times, at, t);
    if t >= at { WindowWithinRecent(times, t, at - WINDOW); }
  }

  lemma PairLogged(log: seq<Accepted>, a: Accepted, pair: Pair)
    ensures PairTimes(log + [a], pair) == if (a.source, a.conn) ==
      pair then PairTimes(log, pair) + [a.at] else PairTimes(log, pair)
    ensures SourceTimes(log + [a], pair.0)
      == if a.source == pair.0 then SourceTimes(log, pair.0) + [a.at] else SourceTimes(log, pair.0)
  {
    assert (log + [a])[..|log|] == log;
  }

  /** No 60-second window, wherever it ends, holds more than 120 accepts of one source and connection, or more
      than 600 of one source. */
  lemma {:induction false} WindowsBounded(requests: seq<Request>, pair: Pair, t: Seconds)
    requires Forwards(requests)
    ensures |InWindow(PairTimes(AcceptedOf(requests), pair), t)| <= 120
    ensures |InWindow(SourceTimes(AcceptedOf(requests), pair.0), t)| <= 600
    decreases |requests|
  {
    hide InWindow, Recent, PairTimes, SourceTimes, LivePairs;
    if |requests| == 0 {
      NoAccepts(pair, t);
    } else {
      var earlier, r := requests[..|requests| - 1], requests[|requests| - 1];
      WindowsBounded(earlier, pair, t);
      var log := AcceptedOf(earlier);
      if NaiveAllows(log, r) {
        PairLogged(log, Accepted(r.source, r.conn, r.at), pair);
        if r.source == pair.0 { WindowStep(SourceTimes(log, pair.0), r.at, t, MAX_SOURCE_REQUESTS); }
        if (r.source, r.conn) == pair { WindowStep(PairTimes(log, pair), r.at, t, MAX_REQUESTS); }
      }
    }
  }

  lemma NoAccepts(pair: Pair, t: Seconds)
    ensures InWindow(PairTimes([], pair), t) == [] && InWindow(SourceTimes([], pair.0), t) == []
  {
  }

  lemma LivePairsStep(log: seq<Accepted>, r: Request, t: Seconds)
    requires r.at <= t && |LivePairs(log, r.at - WINDOW) - {(r.source, r.conn)}| < MAX_CONNECTION_BUCKETS
    ensures |LivePairs(log + [Accepted(r.source, r.conn, r.at)], t - WINDOW)| <= MAX_CONNECTION_BUCKETS
  {
    var pair := (r.source, r.conn);
    var others := LivePairs(log, r.at - WINDOW) - {pair};
    var now := LivePairs(log + [Accepted(r.source, r.conn, r.at)], t - WINDOW);
    LivePairsAppend(log, Accepted(r.source, r.conn, r.at), t - WINDOW);
    FewerLater(log, r.at - WINDOW, t - WINDOW);
    AllButOne(now, others, pair);
  }

  lemma FewerLater(log: seq<Accepted>, c: Seconds, d: Seconds)
    requires c <= d
    ensures LivePairs(log, d) <= LivePairs(log, c)
  {
  }

  lemma AllButOne(now: set<Pair>, others: set<Pair>, pair: Pair)
    requires now <= others + {pair} && pair !in others
    ensures |now| <= |others| + 1
  {
    SubsetSize(now, others + {pair});
  }

  /** At most 4096 pairs are live at any moment from the last request on. */
  lemma {:induction false} LivePairsBounded(requests: seq<Request>, t: Seconds)
    requires Forwards(requests) && (|requests| > 0 ==> requests[|requests| - 1].at <= t)
    ensures |LivePairs(AcceptedOf(requests), t - 60.0)| <= 4096
    decreases |requests|
  {
    hide LivePairs, Recent, PairTimes, SourceTimes;
    if |requests| == 0 {
      NoneLive(t - WINDOW);
    } else {
      var earlier, r := requests[..|requests| - 1], requests[|requests| - 1];
      if NaiveAllows(AcceptedOf(earlier), r) {
        LivePairsStep(AcceptedOf(earlier), r, t);
      } else {
        if |earlier| > 0 { assert earlier[|earlier| - 1] == requests[|earlier| - 1]; }
        LivePairsBounded(earlier, t);
      }
    }
  }

  lemma NoneLive(c: Seconds)
    ensures LivePairs([], c) == {}
  {
  }
}
