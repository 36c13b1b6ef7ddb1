/** Market data shared by the live pipeline and the backtest. */
module Market {
  import opened Basics

  /** One OHLCV bar; `time` is its open time in seconds since the epoch. */
  datatype Candle = Candle(
    symbol: Symbol,
    timeframe: string,
    time: int,
    open: real,
    high: real,
    low: real,
    close: real,
    volume: real)

  datatype Key = Key(symbol: Symbol, timeframe: string)

  function KeyOf(c: Candle): Key {
    Key(c.symbol, c.timeframe)
  }

  /** Strictly increasing in time. */
  predicate Ascending(cs: seq<Candle>) {
    forall i, j :: 0 <= i < j < |cs| ==> cs[i].time < cs[j].time
  }

  /** The last n elements, or all of them when there are fewer. */
  function LastN<T>(s: seq<T>, n: nat): seq<T> {
    if |s| <= n then s else s[|s| - n..]
  }

  /** A bounded deque: appending past the capacity drops the oldest element. */
  function Append<T>(s: seq<T>, x: T, capacity: nat): seq<T> {
    LastN(s + [x], capacity)
  }

  lemma AppendToLastN<T>(s: seq<T>, x: T, n: nat)
    requires n > 0
    ensures Append(LastN(s, n), x, n) == LastN(s + [x], n)
  {
    if |s| > n {
      assert (s[|s| - n..] + [x])[1..] == (s + [x])[|s| + 1 - n..];
    }
  }

  lemma LastOfLastN<T>(s: seq<T>, n: nat)
    requires n > 0 && s != []
    ensures LastN(s, n) != [] && LastN(s, n)[|LastN(s, n)| - 1] == s[|s| - 1]
  {
  }

  lemma AscendingLastN(cs: seq<Candle>, n: nat)
    requires Ascending(cs)
    ensures Ascending(LastN(cs, n)) && |LastN(cs, n)| <= n
  {
  }
}
