/** The rolling candle buffer and its registry. */
module CandleBuffer {
  import opened Market

  const MAX_BUFFER_SIZE: nat := 500

  // ------------------------------------------------------------------
  // Specification
  // ------------------------------------------------------------------

  /** Duplicate and out-of-order candles are dropped; past the capacity the oldest goes. */
  function Added(buffer: seq<Candle>, c: Candle, capacity: nat): seq<Candle> {
    if buffer != [] && c.time <= buffer[|buffer| - 1].time then buffer
    else Append(buffer, c, capacity)
  }

  function BufferOf(stream: seq<Candle>, capacity: nat): seq<Candle> {
    if stream == [] then []
    else Added(BufferOf(stream[..|stream| - 1], capacity), stream[|stream| - 1], capacity)
  }

  /** The greedy increasing subsequence: keep every candle newer than the last one kept. */
  function Greedy(stream: seq<Candle>): seq<Candle> {
    if stream == [] then []
    else
      var kept, c := Greedy(stream[..|stream| - 1]), stream[|stream| - 1];
      if kept != [] && c.time <= kept[|kept| - 1].time then kept else kept + [c]
  }

  lemma {:induction false} GreedyAscends(stream: seq<Candle>)
    ensures Ascending(Greedy(stream))
  {
    if stream != [] {
      GreedyAscends(stream[..|stream| - 1]);
    }
  }

  /**
   Whatever arrives, the buffer is strictly increasing in time and is the newest part of the greedily
   filtered stream: the bounded memory never changes which candles are accepted.
   */
  lemma {:induction false} BufferIsLastOfGreedy(stream: seq<Candle>, capacity: nat)
    requires capacity > 0
    ensures BufferOf(stream, capacity) == LastN(Greedy(stream), capacity)
    ensures Ascending(BufferOf(stream, capacity)) && |BufferOf(stream, capacity)| <= capacity
  {
    if stream != [] {
      var front, c := stream[..|stream| - 1], stream[|stream| - 1];
      BufferIsLastOfGreedy(front, capacity);
      var kept := Greedy(front);
      if kept != [] {
        LastOfLastN(kept, capacity);
      }
      AppendToLastN(kept, c, capacity);
    }
    GreedyAscends(stream);
    AscendingLastN(Greedy(stream), capacity);
  }

  /** A stream that already ascends loses nothing to the filter. */
  lemma {:induction false} GreedyKeepsAscending(stream: seq<Candle>)
    requires Ascending(stream)
    ensures Greedy(stream) == stream
  {
    if stream != [] {
      GreedyKeepsAscending(stream[..|stream| - 1]);
    }
  }

  /** The candles of one (symbol, timeframe) pair. */
  function ForKey(stream: seq<Candle>, key: Key): seq<Candle> {
    if stream == [] then []
    else
      var rest, c := ForKey(stream[..|stream| - 1], key), stream[|stream| - 1];
      if KeyOf(c) == key then rest + [c] else rest
  }

  function Routed(buffers: map<Key, seq<Candle>>, c: Candle): map<Key, seq<Candle>> {
    var current := if KeyOf(c) in buffers then buffers[KeyOf(c)] else [];
    buffers[KeyOf(c) := Added(current, c, MAX_BUFFER_SIZE)]
  }

  function RegistryOf(stream: seq<Candle>): map<Key, seq<Candle>> {
    if stream == [] then map[]
    else Routed(RegistryOf(stream[..|stream| - 1]), stream[|stream| - 1])
  }

  /** Each pair's buffer depends on that pair's candles alone. */
  lemma {:induction false} RegistryRoutes(stream: seq<Candle>, key: Key)
    ensures key in RegistryOf(stream) <==> ForKey(stream, key) != []
    ensures key in RegistryOf(stream) ==> RegistryOf(stream)[key] == BufferOf(ForKey(stream, key), MAX_BUFFER_SIZE)
  {
    if stream != [] {
      RegistryRoutes(stream[..|stream| - 1], key);
      var rest, c := ForKey(stream[..|stream| - 1], key), stream[|stream| - 1];
      assert (rest + [c])[..|rest|] == rest;
    }
  }

  lemma LastIsRouted(stream: seq<Candle>)
    requires stream != []
    ensures KeyOf(stream[|stream| - 1]) in RegistryOf(stream)
  {
  }

  // ------------------------------------------------------------------
  // The objects
  // ------------------------------------------------------------------

  class CandleBuffer {
    const capacity: nat
    var candles: seq<Candle>

    constructor (capacity: nat)
      ensures this.capacity == capacity && candles == []
    {
      this.capacity, candles := capacity, [];
    }

    method Add(c: Candle)
      modifies this
      ensures candles == Added(old(candles), c, capacity)
    {
      if candles != [] && c.time <= candles[|candles| - 1].time {
        return;
      }
      candles := candles + [c];
      if |candles| > capacity {
        candles := candles[|candles| - capacity..];
      }
    }
  }

  class CandleBufferRegistry {
    var buffers: map<Key, CandleBuffer>

    /** One buffer object per pair. */
    ghost predicate Valid()
      reads this, buffers.Values
    {
      && (forall k :: k in buffers ==> buffers[k].capacity == MAX_BUFFER_SIZE)
      && (forall j, k :: j in buffers && k in buffers && j != k ==> buffers[j] != buffers[k])
    }

    function Contents(): map<Key, seq<Candle>>
      reads this, buffers.Values
    {
      map k | k in buffers :: buffers[k].candles
    }

    constructor ()
      ensures Valid() && buffers == map[] && Contents() == RegistryOf([])
    {
      buffers := map[];
    }

    /**
     Route a candle to its buffer, creating the buffer if needed; returns that buffer. Buffers returned
     earlier stay the ones of their pairs.
     */
    method Add(c: Candle) returns (buffer: CandleBuffer)
      requires Valid()
      modifies this, buffers.Values
      ensures Valid() && Contents() == Routed(old(Contents()), c)
      ensures KeyOf(c) in buffers && buffer == buffers[KeyOf(c)]
      ensures forall k :: k in old(buffers) ==> k in buffers && buffers[k] == old(buffers[k])
      ensures fresh(buffers.Values - old(buffers.Values))
    {
      var key := KeyOf(c);
      if key !in buffers {
        var created := new CandleBuffer(MAX_BUFFER_SIZE);
        buffers := buffers[key := created];
      }
      buffer := buffers[key];
      buffer.Add(c);
      assert Contents() == Routed(old(Contents()), c);
    }
  }
}
