/** The OHLCV normaliser: sort each polled batch, drop recently seen timestamps, count gaps. */
module Normalizer {
  import opened Basics
  import opened Market
  import CandleBuffer

  const DEDUP_BUFFER_SIZE: nat := 200

  const TIMEFRAME_SECONDS: map<string, int> := map[
    "1m" := 60, "3m" := 180, "5m" := 300, "15m" := 900, "30m" := 1800, "1h" := 3600,
    "2h" := 7200, "4h" := 14400, "6h" := 21600, "12h" := 43200, "1d" := 86400, "1w" := 604800]

  // ------------------------------------------------------------------
  // Closed candles
  // ------------------------------------------------------------------

  predicate IsClosed(c: Candle, now: int) {
    c.timeframe in TIMEFRAME_SECONDS ==> c.time + TIMEFRAME_SECONDS[c.timeframe] <= now
  }

  function Closed(cs: seq<Candle>, now: int): seq<Candle> {
    if cs == [] then []
    else
      var rest, c := Closed(cs[..|cs| - 1], now), cs[|cs| - 1];
      if IsClosed(c, now) then rest + [c] else rest
  }

  method ClosedCandles(cs: seq<Candle>, now: int) returns (out: seq<Candle>)
    ensures out == Closed(cs, now)
    ensures forall c :: c in out <==> c in cs && IsClosed(c, now)
  {
    out := [];
    for k := 0 to |cs|
      invariant out == Closed(cs[..k], now)
      invariant forall c :: c in out <==> c in cs[..k] && IsClosed(c, now)
    {
      assert cs[..k + 1][..k] == cs[..k];
      assert forall c :: c in cs[..k + 1] <==> c in cs[..k] || c == cs[k];
      if IsClosed(cs[k], now) {
        out := out + [cs[k]];
      }
    }
    assert cs[..|cs|] == cs;
  }

  // ------------------------------------------------------------------
  // Sorting
  // ------------------------------------------------------------------

  predicate Sorted(cs: seq<Candle>) {
    forall i, j :: 0 <= i < j < |cs| ==> cs[i].time <= cs[j].time
  }

  /** Insert after every candle that is not later: the sort is stable. */
  function Insert(cs: seq<Candle>, c: Candle): seq<Candle> {
    if cs == [] || cs[|cs| - 1].time <= c.time then cs + [c]
    else Insert(cs[..|cs| - 1], c) + [cs[|cs| - 1]]
  }

  function SortByTime(cs: seq<Candle>): seq<Candle> {
    if cs == [] then [] else Insert(SortByTime(cs[..|cs| - 1]), cs[|cs| - 1])
  }

  lemma {:induction false} InsertPermutes(cs: seq<Candle>, c: Candle)
    ensures multiset(Insert(cs, c)) == multiset(cs) + multiset{c}
  {
    if cs != [] && cs[|cs| - 1].time > c.time {
      InsertPermutes(cs[..|cs| - 1], c);
      assert cs == cs[..|cs| - 1] + [cs[|cs| - 1]];
    }
  }

  lemma {:induction false} InsertLength(cs: seq<Candle>, c: Candle)
    ensures |Insert(cs, c)| == |cs| + 1
  {
    if cs != [] && cs[|cs| - 1].time > c.time {
      InsertLength(cs[..|cs| - 1], c);
    }
  }

  lemma {:induction false} SortByTimeLength(cs: seq<Candle>)
    ensures |SortByTime(cs)| == |cs|
  {
    if cs != [] {
      SortByTimeLength(cs[..|cs| - 1]);
      InsertLength(SortByTime(cs[..|cs| - 1]), cs[|cs| - 1]);
    }
  }

  lemma {:induction false} InsertSorts(cs: seq<Candle>, c: Candle, bound: int)
    requires Sorted(cs) && c.time <= bound && forall i :: 0 <= i < |cs| ==> cs[i].time <= bound
    ensures Sorted(Insert(cs, c)) && forall i :: 0 <= i < |Insert(cs, c)| ==> Insert(cs, c)[i].time <= bound
  {
    if cs != [] && cs[|cs| - 1].time > c.time {
      InsertSorts(cs[..|cs| - 1], c, cs[|cs| - 1].time);
    }
  }

  lemma {:induction false} SortByTimePermutes(cs: seq<Candle>)
    ensures multiset(SortByTime(cs)) == multiset(cs)
  {
    if cs != [] {
      SortByTimePermutes(cs[..|cs| - 1]);
      InsertPermutes(SortByTime(cs[..|cs| - 1]), cs[|cs| - 1]);
      assert cs == cs[..|cs| - 1] + [cs[|cs| - 1]];
    }
  }

  lemma {:induction false} SortByTimeSorts(cs: seq<Candle>)
    ensures Sorted(SortByTime(cs))
  {
    if cs != [] {
      var sorted, c := SortByTime(cs[..|cs| - 1]), cs[|cs| - 1];
      SortByTimeSorts(cs[..|cs| - 1]);
      var bound := if sorted == [] || sorted[|sorted| - 1].time < c.time then c.time else sorted[|sorted| - 1].time;
      InsertSorts(sorted, c, bound);
    }
  }

  /** The candles opened at time t, in order. */
  function AtTime(cs: seq<Candle>, t: int): seq<Candle> {
    if cs == [] then []
    else
      var rest, c := AtTime(cs[..|cs| - 1], t), cs[|cs| - 1];
      if c.time == t then rest + [c] else rest
  }

  lemma {:induction false} InsertStable(cs: seq<Candle>, c: Candle, t: int)
    ensures AtTime(Insert(cs, c), t) == AtTime(cs, t) + if c.time == t then [c] else []
  {
    if cs == [] || cs[|cs| - 1].time <= c.time {
      assert (cs + [c])[..|cs|] == cs;
    } else {
      var front, later := cs[..|cs| - 1], cs[|cs| - 1];
      InsertStable(front, c, t);
      assert (Insert(front, c) + [later])[..|Insert(front, c)|] == Insert(front, c);
    }
  }

  /** Candles with equal timestamps keep their order, so the first received is the one published. */
  lemma {:induction false} SortByTimeStable(cs: seq<Candle>, t: int)
    ensures AtTime(SortByTime(cs), t) == AtTime(cs, t)
  {
    if cs != [] {
      SortByTimeStable(cs[..|cs| - 1], t);
      InsertStable(SortByTime(cs[..|cs| - 1]), cs[|cs| - 1], t);
    }
  }

  // ------------------------------------------------------------------
  // One feed
  // ------------------------------------------------------------------

  datatype Stats = Stats(received: nat, duplicates: nat, gaps: nat, published: nat)

  /** What the normaliser keeps for one (symbol, timeframe) pair. */
  datatype Feed = Feed(seen: seq<int>, last: Option<Candle>, stats: Stats)

  const NEW_FEED := Feed([], None, Stats(0, 0, 0, 0))

  /** The expected bar interval in seconds; an unknown timeframe counts as a minute. */
  function Interval(timeframe: string): int {
    if timeframe in TIMEFRAME_SECONDS then TIMEFRAME_SECONDS[timeframe] else 60
  }

  /** More than one and a half intervals since the last candle. */
  predicate IsGap(last: Candle, c: Candle, interval: int) {
    2 * (c.time - last.time) > 3 * interval
  }

  function Offer(f: Feed, c: Candle, interval: int): Feed {
    if c.time in f.seen then f.(stats := f.stats.(duplicates := f.stats.duplicates + 1))
    else
      var gap := if f.last.Some? && IsGap(f.last.value, c, interval) then 1 else 0;
      Feed(Append(f.seen, c.time, DEDUP_BUFFER_SIZE), Some(c),
           f.stats.(gaps := f.stats.gaps + gap, published := f.stats.published + 1))
  }

  /** Feed and published candles after offering `cs` in order. */
  function Offers(f: Feed, cs: seq<Candle>, interval: int): (Feed, seq<Candle>) {
    if cs == [] then (f, [])
    else
      var (g, out) := Offers(f, cs[..|cs| - 1], interval);
      var c := cs[|cs| - 1];
      (Offer(g, c, interval), if c.time in g.seen then out else out + [c])
  }

  function Received(f: Feed, n: nat): Feed {
    f.(stats := f.stats.(received := f.stats.received + n))
  }

  function ProcessBatch(f: Feed, batch: seq<Candle>): (Feed, seq<Candle>) {
    if batch == [] then (f, [])
    else
      Offers(Received(f, |batch|), SortByTime(batch), Interval(batch[0].timeframe))
  }

  /** A sorted batch comes out strictly ascending: equal timestamps are adjacent, so the second is seen. */
  lemma {:induction false} OffersAscend(f: Feed, cs: seq<Candle>, interval: int)
    requires Sorted(cs)
    ensures var (g, out) := Offers(f, cs, interval);
            && Ascending(out)
            && (out != [] ==> out[|out| - 1].time <= cs[|cs| - 1].time)
            && (cs != [] ==> cs[|cs| - 1].time in g.seen)
            && g.stats.duplicates + |out| == f.stats.duplicates + |cs|
            && g.stats.published == f.stats.published + |out|
            && g.stats.received == f.stats.received
  {
    if cs != [] {
      var front, c := cs[..|cs| - 1], cs[|cs| - 1];
      OffersAscend(f, front, interval);
      var (g, out) := Offers(f, front, interval);
      if c.time !in g.seen {
        var s := Append(g.seen, c.time, DEDUP_BUFFER_SIZE);
        assert s[|s| - 1] == c.time;
        if out != [] {
          assert front != [] && front[|front| - 1] == cs[|cs| - 2];
          assert out[|out| - 1].time < c.time;
        }
      }
    }
  }

  /** Every batch is published strictly ascending. */
  lemma BatchAscends(f: Feed, batch: seq<Candle>)
    ensures Ascending(ProcessBatch(f, batch).1)
  {
    if batch != [] {
      SortByTimeSorts(batch);
      OffersAscend(Received(f, |batch|), SortByTime(batch), Interval(batch[0].timeframe));
    }
  }

  /** Every received candle is counted once, as a duplicate or as published. */
  lemma BatchIsCounted(f: Feed, batch: seq<Candle>)
    requires f.stats.received == f.stats.duplicates + f.stats.published
    ensures var s := ProcessBatch(f, batch).0.stats;
            && s.received == f.stats.received + |batch|
            && s.received == s.duplicates + s.published
            && s.published == f.stats.published + |ProcessBatch(f, batch).1|
  {
    if batch != [] {
      SortByTimeLength(batch);
      SortByTimeSorts(batch);
      OffersAscend(Received(f, |batch|), SortByTime(batch), Interval(batch[0].timeframe));
    }
  }

  // ------------------------------------------------------------------
  // Many polls
  // ------------------------------------------------------------------

  /** The candles of all polls in the order the normaliser looks at them. */
  function Offered(polls: seq<seq<Candle>>): seq<Candle> {
    if polls == [] then [] else Offered(polls[..|polls| - 1]) + SortByTime(polls[|polls| - 1])
  }

  function Polls(polls: seq<seq<Candle>>): (Feed, seq<Candle>) {
    if polls == [] then (NEW_FEED, [])
    else
      var (f, out) := Polls(polls[..|polls| - 1]);
      var (g, more) := ProcessBatch(f, polls[|polls| - 1]);
      (g, out + more)
  }

  /** What is accepted from a stream of single candles, remembering the last 200 timestamps. */
  function Accepted(stream: seq<Candle>): seq<Candle> {
    if stream == [] then []
    else
      var kept, c := Accepted(stream[..|stream| - 1]), stream[|stream| - 1];
      if c.time in Timestamps(LastN(kept, DEDUP_BUFFER_SIZE)) then kept else kept + [c]
  }

  function Timestamps(cs: seq<Candle>): seq<int> {
    seq(|cs|, i requires 0 <= i < |cs| => cs[i].time)
  }

  lemma TimestampsOfLastN(cs: seq<Candle>, n: nat)
    ensures Timestamps(LastN(cs, n)) == LastN(Timestamps(cs), n)
  {
  }

  lemma AcceptedOne(stream: seq<Candle>, c: Candle)
    requires c.time !in Timestamps(LastN(Accepted(stream), DEDUP_BUFFER_SIZE))
    ensures Accepted(stream + [c]) == Accepted(stream) + [c]
    ensures Append(Timestamps(LastN(Accepted(stream), DEDUP_BUFFER_SIZE)), c.time, DEDUP_BUFFER_SIZE)
            == Timestamps(LastN(Accepted(stream) + [c], DEDUP_BUFFER_SIZE))
  {
    var kept := Accepted(stream);
    assert (stream + [c])[..|stream|] == stream;
    TimestampsOfLastN(kept, DEDUP_BUFFER_SIZE);
    TimestampsOfLastN(kept + [c], DEDUP_BUFFER_SIZE);
    assert Timestamps(kept + [c]) == Timestamps(kept) + [c.time];
    AppendToLastN(Timestamps(kept), c.time, DEDUP_BUFFER_SIZE);
  }

  /** What offering one candle emits. */
  function Emitted(f: Feed, c: Candle): seq<Candle> {
    if c.time in f.seen then [] else [c]
  }

  lemma OffersOne(f: Feed, front: seq<Candle>, c: Candle, interval: int)
    ensures var (g, out) := Offers(f, front, interval);
            Offers(f, front + [c], interval) == (Offer(g, c, interval), out + Emitted(g, c))
  {
    assert (front + [c])[..|front|] == front;
    var out := Offers(f, front, interval).1;
    assert out + [] == out;
  }

  /** The feed remembers the last timestamps accepted from the stream. */
  predicate InStep(f: Feed, stream: seq<Candle>) {
    f.seen == Timestamps(LastN(Accepted(stream), DEDUP_BUFFER_SIZE))
  }

  lemma OfferInStep(f: Feed, stream: seq<Candle>, c: Candle, interval: int)
    requires InStep(f, stream)
    ensures InStep(Offer(f, c, interval), stream + [c])
    ensures Accepted(stream + [c]) == Accepted(stream) + Emitted(f, c)
  {
    if c.time in f.seen {
      assert (stream + [c])[..|stream|] == stream;
      assert Accepted(stream) + [] == Accepted(stream);
    } else {
      AcceptedOne(stream, c);
    }
  }

  /** Offering `cs` after `before` to a feed in step emits what is accepted of it, and stays in step. */
  predicate Accepts(f: Feed, before: seq<Candle>, cs: seq<Candle>, interval: int) {
    && Accepted(before + cs) == Accepted(before) + Offers(f, cs, interval).1
    && InStep(Offers(f, cs, interval).0, before + cs)
  }

  lemma AcceptsOneMore(f: Feed, before: seq<Candle>, front: seq<Candle>, c: Candle, interval: int)
    requires Accepts(f, before, front, interval)
    ensures Accepts(f, before, front + [c], interval)
  {
    var (g, out) := Offers(f, front, interval);
    OffersOne(f, front, c, interval);
    OfferInStep(g, before + front, c, interval);
    assert before + front + [c] == before + (front + [c]);
    Associative(Accepted(before), out, Emitted(g, c));
  }

  lemma Associative(a: seq<Candle>, b: seq<Candle>, c: seq<Candle>)
    ensures a + b + c == a + (b + c)
  {
  }

  lemma AcceptsNone(f: Feed, before: seq<Candle>, interval: int)
    requires InStep(f, before)
    ensures Accepts(f, before, [], interval)
  {
    assert before + [] == before;
    assert Accepted(before) + [] == Accepted(before);
  }

  lemma {:induction false} OffersAccept(f: Feed, before: seq<Candle>, cs: seq<Candle>, interval: int)
    requires InStep(f, before)
    ensures Accepts(f, before, cs, interval)
    decreases |cs|
  {
    if |cs| == 0 {
      assert cs == [];
      AcceptsNone(f, before, interval);
    } else {
      var front, c := cs[..|cs| - 1], cs[|cs| - 1];
      OffersAccept(f, before, front, interval);
      AcceptsOneMore(f, before, front, c, interval);
      assert cs == front + [c];
    }
  }

  lemma {:induction false} PollsAccept(polls: seq<seq<Candle>>)
    ensures Polls(polls).1 == Accepted(Offered(polls))
    ensures InStep(Polls(polls).0, Offered(polls))
  {
    if polls != [] {
      var before, batch := polls[..|polls| - 1], polls[|polls| - 1];
      PollsAccept(before);
      var f := Polls(before).0;
      if batch == [] {
        assert Offered(before) + SortByTime(batch) == Offered(before);
        assert Polls(before).1 + [] == Polls(before).1;
      } else {
        OffersAccept(Received(f, |batch|), Offered(before), SortByTime(batch), Interval(batch[0].timeframe));
      }
    }
  }

  /** The candle's timestamp is one of the last 200 accepted, or newer than all of them. */
  predicate RecentOrNewer(kept: seq<Candle>, c: Candle) {
    c.time in Timestamps(LastN(kept, DEDUP_BUFFER_SIZE)) || forall i :: 0 <= i < |kept| ==> kept[i].time < c.time
  }

  predicate WellTimed(stream: seq<Candle>) {
    forall k :: 0 <= k < |stream| ==> RecentOrNewer(Accepted(stream[..k]), stream[k])
  }

  lemma AscendingExtends(kept: seq<Candle>, c: Candle)
    ensures Ascending(kept + [c]) <==> Ascending(kept) && forall i :: 0 <= i < |kept| ==> kept[i].time < c.time
  {
    var all := kept + [c];
    assert all[|kept|] == c && forall i :: 0 <= i < |kept| ==> all[i] == kept[i];
  }

  lemma WellTimedExtends(front: seq<Candle>, c: Candle)
    ensures WellTimed(front + [c]) <==> WellTimed(front) && RecentOrNewer(Accepted(front), c)
  {
    var all := front + [c];
    assert forall k :: 0 <= k <= |front| ==> all[..k] == front[..k];
    assert front[..|front|] == front;
    assert WellTimed(all) ==> forall k :: 0 <= k < |front| ==> RecentOrNewer(Accepted(all[..k]), all[k]);
  }

  /** The accepted candles ascend exactly when every offered one is recent or newer than all accepted. */
  lemma {:induction false} AscendsIffWellTimed(stream: seq<Candle>)
    ensures Ascending(Accepted(stream)) <==> WellTimed(stream)
  {
    if stream != [] {
      var front, c := stream[..|stream| - 1], stream[|stream| - 1];
      AscendsIffWellTimed(front);
      assert stream == front + [c];
      WellTimedExtends(front, c);
      AscendingExtends(Accepted(front), c);
    }
  }

  /**
   The pipeline: published over all polls is strictly increasing exactly when every candle offered is
   among the last 200 accepted or newer than all accepted; the buffer then drops none of it and holds
   its newest 500.
   */
  lemma PipelineIsLossless(polls: seq<seq<Candle>>)
    ensures Ascending(Polls(polls).1) <==> WellTimed(Offered(polls))
    ensures WellTimed(Offered(polls)) ==>
              && CandleBuffer.Greedy(Polls(polls).1) == Polls(polls).1
              && CandleBuffer.BufferOf(Polls(polls).1, CandleBuffer.MAX_BUFFER_SIZE)
                 == LastN(Polls(polls).1, CandleBuffer.MAX_BUFFER_SIZE)
  {
    PollsAccept(polls);
    AscendsIffWellTimed(Offered(polls));
    if WellTimed(Offered(polls)) {
      CandleBuffer.GreedyKeepsAscending(Polls(polls).1);
      CandleBuffer.BufferIsLastOfGreedy(Polls(polls).1, CandleBuffer.MAX_BUFFER_SIZE);
    }
  }

  // ------------------------------------------------------------------
  // The normaliser object
  // ------------------------------------------------------------------

  class OHLCVNormaliser {
    var seen: map<Key, seq<int>>
    var last: map<Key, Candle>
    var stats: map<Key, Stats>

    /** The feed of one pair; missing entries are the defaults of the dictionaries. */
    function FeedOf(key: Key): Feed
      reads this
    {
      Feed(
        if key in seen then seen[key] else [],
        if key in last then Some(last[key]) else None,
        if key in stats then stats[key] else Stats(0, 0, 0, 0))
    }

    constructor ()
      ensures forall key :: FeedOf(key) == NEW_FEED
    {
      seen, last, stats := map[], map[], map[];
    }

    /** One candle: skip a recently seen timestamp, otherwise count gaps, remember and emit. */
    method OfferCandle(c: Candle, key: Key, interval: int) returns (emitted: bool)
      requires key in stats
      modifies this
      ensures FeedOf(key) == Offer(old(FeedOf(key)), c, interval) && key in stats
      ensures emitted <==> c.time !in old(FeedOf(key)).seen
      ensures forall k :: k != key ==> FeedOf(k) == old(FeedOf(k))
    {
      var recent := if key in seen then seen[key] else [];
      var s := stats[key];
      if c.time in recent {
        stats := stats[key := s.(duplicates := s.duplicates + 1)];
        return false;
      }
      var gap := if key in last && IsGap(last[key], c, interval) then 1 else 0;
      seen := seen[key := Append(recent, c.time, DEDUP_BUFFER_SIZE)];
      last := last[key := c];
      stats := stats[key := s.(gaps := s.gaps + gap, published := s.published + 1)];
      return true;
    }

    /** The loop of process_batch over the sorted candles. */
    method OfferAll(sorted: seq<Candle>, key: Key, interval: int) returns (clean: seq<Candle>)
      requires key in stats
      modifies this
      ensures (FeedOf(key), clean) == Offers(old(FeedOf(key)), sorted, interval)
      ensures forall k :: k != key ==> FeedOf(k) == old(FeedOf(k))
    {
      clean := [];
      ghost var f := FeedOf(key);
      for k := 0 to |sorted|
        invariant key in stats
        invariant (FeedOf(key), clean) == Offers(f, sorted[..k], interval)
        invariant forall j :: j != key ==> FeedOf(j) == old(FeedOf(j))
      {
        assert sorted[..k + 1][..k] == sorted[..k];
        var emitted := OfferCandle(sorted[k], key, interval);
        if emitted {
          clean := clean + [sorted[k]];
        }
      }
      assert sorted[..|sorted|] == sorted;
    }

    method Process(batch: seq<Candle>) returns (clean: seq<Candle>)
      modifies this
      ensures batch == [] ==> clean == [] && unchanged(this)
      ensures batch != [] ==>
                && (FeedOf(KeyOf(batch[0])), clean) == ProcessBatch(old(FeedOf(KeyOf(batch[0]))), batch)
                && forall k :: k != KeyOf(batch[0]) ==> FeedOf(k) == old(FeedOf(k))
    {
      if batch == [] {
        return [];
      }
      var key := KeyOf(batch[0]);
      var sorted := SortByTime(batch);
      SortByTimeLength(batch);
      var s := if key in stats then stats[key] else Stats(0, 0, 0, 0);
      stats := stats[key := s.(received := s.received + |sorted|)];
      assert FeedOf(key) == Received(old(FeedOf(key)), |batch|);
      assert forall k :: k != key ==> FeedOf(k) == old(FeedOf(k));
      clean := OfferAll(sorted, key, Interval(key.timeframe));
    }
  }
}
