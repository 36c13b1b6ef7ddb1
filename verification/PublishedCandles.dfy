/** What the normaliser publishes over all polls, with the timeframes written out. */
module PublishedCandles {
  import opened Basics
  import opened Market
  import opened Normalizer

  // ------------------------------------------------------------------
  // Closed candles
  // ------------------------------------------------------------------

  /** The length of a bar in seconds, for the timeframes there are. */
  function Seconds(timeframe: string): Option<int> {
    match timeframe
    case "1m" => Some(60)
    case "3m" => Some(3 * 60)
    case "5m" => Some(5 * 60)
    case "15m" => Some(15 * 60)
    case "30m" => Some(30 * 60)
    case "1h" => Some(3600)
    case "2h" => Some(2 * 3600)
    case "4h" => Some(4 * 3600)
    case "6h" => Some(6 * 3600)
    case "12h" => Some(12 * 3600)
    case "1d" => Some(24 * 3600)
    case "1w" => Some(7 * 24 * 3600)
    case _ => None
  }

  /** The bar is over at `now`, as far as its timeframe is known. */
  predicate HasEnded(c: Candle, now: int) {
    Seconds(c.timeframe).Some? ==> c.time + Seconds(c.timeframe).value <= now
  }

  lemma SecondsOfTable(timeframe: string)
    ensures Seconds(timeframe)
            == if timeframe in TIMEFRAME_SECONDS then Some(TIMEFRAME_SECONDS[timeframe]) else None
  {
  }

  /** Exactly the candles that have ended are kept. */
  lemma {:induction false} ClosedIff(cs: seq<Candle>, now: int, c: Candle)
    ensures c in Closed(cs, now) <==> c in cs && HasEnded(c, now)
  {
    if cs != [] {
      var front, last := cs[..|cs| - 1], cs[|cs| - 1];
      ClosedIff(front, now, c);
      SecondsOfTable(last.timeframe);
      assert cs == front + [last];
    }
  }

  // ------------------------------------------------------------------
  // From the exchange to the bus
  // ------------------------------------------------------------------

  /** What the exchange returned for one pair, and when. */
  datatype Poll = Poll(candles: seq<Candle>, now: int)

  function ClosedPolls(polls: seq<Poll>): (closed: seq<seq<Candle>>)
    ensures |closed| == |polls|
    ensures forall k :: 0 <= k < |polls| ==> closed[k] == Closed(polls[k].candles, polls[k].now)
  {
    seq(|polls|, k requires 0 <= k < |polls| => Closed(polls[k].candles, polls[k].now))
  }

  function Published(polls: seq<Poll>): seq<Candle> {
    Polls(ClosedPolls(polls)).1
  }

  lemma SortedHas(batch: seq<Candle>, c: Candle)
    ensures c in SortByTime(batch) <==> c in batch
  {
    SortByTimePermutes(batch);
    assert c in SortByTime(batch) <==> c in multiset(SortByTime(batch));
    assert c in batch <==> c in multiset(batch);
  }

  /** The candle was returned by some poll, which it had ended by. */
  ghost predicate PolledClosed(polls: seq<Poll>, c: Candle) {
    exists k :: 0 <= k < |polls| && c in polls[k].candles && HasEnded(c, polls[k].now)
  }

  lemma {:induction false} OfferedIff(polls: seq<seq<Candle>>, c: Candle)
    ensures c in Offered(polls) <==> exists k :: 0 <= k < |polls| && c in polls[k]
  {
    if polls != [] {
      var n := |polls| - 1;
      OfferedIff(polls[..n], c);
      SortedHas(polls[n], c);
      assert polls == polls[..n] + [polls[n]];
    }
  }

  lemma OfferedHasEnded(polls: seq<Poll>, c: Candle)
    ensures c in Offered(ClosedPolls(polls)) <==> PolledClosed(polls, c)
  {
    var closed := ClosedPolls(polls);
    OfferedIff(closed, c);
    forall k | 0 <= k < |polls| ensures c in closed[k] <==> c in polls[k].candles && HasEnded(c, polls[k].now) {
      ClosedIff(polls[k].candles, polls[k].now, c);
    }
  }

  lemma {:induction false} AcceptedHas(stream: seq<Candle>, c: Candle)
    ensures c in Accepted(stream) ==> c in stream
    ensures c in stream ==> c.time in Timestamps(Accepted(stream))
  {
    if stream != [] {
      var front, last := stream[..|stream| - 1], stream[|stream| - 1];
      AcceptedHas(front, c);
      assert stream == front + [last];
      AcceptedKeepsTimes(front, last);
    }
  }

  lemma AcceptedKeepsTimes(front: seq<Candle>, last: Candle)
    ensures forall t :: t in Timestamps(Accepted(front)) ==> t in Timestamps(Accepted(front + [last]))
    ensures last.time in Timestamps(Accepted(front + [last]))
  {
    var kept := Accepted(front);
    assert (front + [last])[..|front|] == front;
    if last.time !in Timestamps(LastN(kept, DEDUP_BUFFER_SIZE)) {
      assert Timestamps(kept + [last]) == Timestamps(kept) + [last.time];
    } else {
      TimestampsOfLastN(kept, DEDUP_BUFFER_SIZE);
    }
  }

  ghost predicate HasBar(cs: seq<Candle>, time: int) {
    exists d :: d in cs && d.time == time
  }

  lemma TimeHasBar(cs: seq<Candle>, time: int)
    requires time in Timestamps(cs)
    ensures HasBar(cs, time)
  {
    var k :| 0 <= k < |cs| && Timestamps(cs)[k] == time;
    assert cs[k] in cs;
  }

  lemma AcceptedIffOffered(stream: seq<Candle>, c: Candle)
    ensures c in Accepted(stream) ==> c in stream
    ensures c in stream ==> HasBar(Accepted(stream), c.time)
  {
    AcceptedHas(stream, c);
    if c in stream {
      TimeHasBar(Accepted(stream), c.time);
    }
  }

  /**
   Only candles that had ended when they were polled are ever published, and every such candle is
   published, or another one for the same bar.
   */
  lemma PublishedHasEnded(polls: seq<Poll>, c: Candle)
    ensures c in Published(polls) ==> PolledClosed(polls, c)
    ensures PolledClosed(polls, c) ==> HasBar(Published(polls), c.time)
  {
    PollsAccept(ClosedPolls(polls));
    AcceptedIffOffered(Offered(ClosedPolls(polls)), c);
    OfferedHasEnded(polls, c);
  }

  // ------------------------------------------------------------------
  // Gaps
  // ------------------------------------------------------------------

  /** How many candles open more than one and a half intervals after the one before. */
  function GapsIn(out: seq<Candle>, interval: int): nat {
    if |out| < 2 then 0
    else
      var n := |out| - 1;
      GapsIn(out[..n], interval)
      + if (out[n].time - out[n - 1].time) as real > interval as real * 1.5 then 1 else 0
  }

  /** The feed has counted the gaps of what it published and remembers the last of it. */
  predicate Tracks(f: Feed, out: seq<Candle>, interval: int) {
    && f.stats.gaps == GapsIn(out, interval)
    && f.last == if out == [] then None else Some(out[|out| - 1])
  }

  lemma OfferTracks(f: Feed, out: seq<Candle>, c: Candle, interval: int)
    requires Tracks(f, out, interval)
    ensures Tracks(Offer(f, c, interval), out + Emitted(f, c), interval)
  {
    if c.time in f.seen {
      assert out + [] == out;
    } else {
      assert (out + [c])[..|out|] == out;
    }
  }

  lemma {:induction false} OffersTrack(f: Feed, before: seq<Candle>, cs: seq<Candle>, interval: int)
    requires Tracks(f, before, interval)
    ensures Tracks(Offers(f, cs, interval).0, before + Offers(f, cs, interval).1, interval)
    decreases |cs|
  {
    if cs == [] {
      assert before + [] == before;
    } else {
      var front, c := cs[..|cs| - 1], cs[|cs| - 1];
      OffersTrack(f, before, front, interval);
      var (g, out) := Offers(f, front, interval);
      OfferTracks(g, before + out, c, interval);
      OffersOne(f, front, c, interval);
      assert cs == front + [c];
      Associative(before, out, Emitted(g, c));
    }
  }

  /** The gaps counted over all polls of a pair are the gaps in what was published. */
  lemma {:induction false} GapsAreCounted(polls: seq<seq<Candle>>, timeframe: string)
    requires forall k :: 0 <= k < |polls| && polls[k] != [] ==> polls[k][0].timeframe == timeframe
    ensures Tracks(Polls(polls).0, Polls(polls).1,
              if Seconds(timeframe).Some? then Seconds(timeframe).value else 60)
  {
    SecondsOfTable(timeframe);
    if polls != [] {
      var n := |polls| - 1;
      var (f, out) := Polls(polls[..n]);
      GapsAreCounted(polls[..n], timeframe);
      if polls[n] == [] {
        assert out + [] == out;
      } else {
        OffersTrack(Received(f, |polls[n]|), out, SortByTime(polls[n]), Interval(timeframe));
      }
    }
  }
}
