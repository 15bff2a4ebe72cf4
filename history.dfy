/**
 * The bot's bounded tick history: a deque of capacity 200 that drops its
 * oldest tick when a new one arrives at capacity, and the list of ticks a
 * history snapshot (parallel lists of times and prices) contributes to it.
 */
module History {
  import opened Ticks
  import opened Candle

  /** The deque's `maxlen`. */
  const Capacity: nat := 200

  /** Appending to a deque with `maxlen`: at capacity the oldest tick is discarded. */
  function Appended(h: seq<Tick>, t: Tick): seq<Tick>
  {
    if |h| < Capacity then h + [t] else h[1..] + [t]
  }

  /**
   * On a history within capacity an append keeps exactly the newest 200
   * ticks of the history followed by the new tick, in order: the new tick
   * is last, and a full history loses only its oldest tick.
   */
  lemma AppendedKeepsNewest(h: seq<Tick>, t: Tick)
    requires |h| <= Capacity
    ensures Appended(h, t) == LastN(h + [t], Capacity)
    ensures |Appended(h, t)| == if |h| < Capacity then |h| + 1 else Capacity
    ensures Appended(h, t)[|Appended(h, t)| - 1] == t
    ensures |h| == Capacity ==> Appended(h, t)[..Capacity - 1] == h[1..]
  {
    if |h| == Capacity {
      assert (h + [t])[1..] == h[1..] + [t];
    }
  }

  /** Appending a list of ticks one at a time, oldest first. */
  function AppendAll(h: seq<Tick>, ts: seq<Tick>): seq<Tick>
    decreases ts
  {
    if ts == [] then h else AppendAll(Appended(h, ts[0]), ts[1..])
  }

  /** A bulk append keeps the newest 200 ticks of the old history followed by the new ticks. */
  lemma {:induction false} AppendAllKeepsNewest(h: seq<Tick>, ts: seq<Tick>)
    requires |h| <= Capacity
    ensures AppendAll(h, ts) == LastN(h + ts, Capacity)
    ensures |AppendAll(h, ts)| <= Capacity
    decreases ts
  {
    if ts != [] {
      AppendedKeepsNewest(h, ts[0]);
      var h' := Appended(h, ts[0]);
      AppendAllKeepsNewest(h', ts[1..]);
      LastNOfLastN(h + [ts[0]], ts[1..]);
      ConcatHead(h, ts);
    }
  }

  /** Splitting a non-empty list at its head and joining it back after a prefix. */
  lemma ConcatHead(h: seq<Tick>, ts: seq<Tick>)
    requires ts != []
    ensures h + [ts[0]] + ts[1..] == h + ts
  {
    assert [ts[0]] + ts[1..] == ts;
  }

  /** Trimming before appending more does not change the newest 200. */
  lemma LastNOfLastN(s: seq<Tick>, ts: seq<Tick>)
    ensures LastN(LastN(s, Capacity) + ts, Capacity) == LastN(s + ts, Capacity)
  {
    if |s| > Capacity {
      var k := |s| - Capacity;
      assert s + ts == s[..k] + (s[k..] + ts);
      assert (s + ts)[k..] == s[k..] + ts;
    }
  }

  /** Python's `list.index`: the position of the first occurrence of `x`. */
  function FirstIndex(s: seq<int>, x: int): (r: nat)
    requires x in s
    ensures r < |s| && s[r] == x
    ensures forall j :: 0 <= j < r ==> s[j] != x
  {
    if s[0] == x then 0 else 1 + FirstIndex(s[1..], x)
  }

  /** The price a snapshot gives the tick at position `i`: the one at its time's first position. */
  function SnapshotPriceIndex(times: seq<int>, i: nat): (r: nat)
    requires i < |times|
    ensures r <= i
    ensures times[r] == times[i]
    ensures forall j :: 0 <= j < r ==> times[j] != times[i]
  {
    FirstIndex(times, times[i])
  }

  /**
   * The ticks a snapshot appends, from position `i` on: each time with the
   * price found at that time's first position. Loading stops at the first
   * tick whose price position lies past the end of `prices`.
   */
  function SnapshotTicks(times: seq<int>, prices: seq<real>, i: nat): (r: seq<Tick>)
    requires i <= |times|
    ensures |r| <= |times| - i
    ensures forall p :: i <= p < i + |r| ==>
      SnapshotPriceIndex(times, p) < |prices| && r[p - i] == Tick(times[p], prices[SnapshotPriceIndex(times, p)])
    decreases |times| - i
  {
    if i == |times| then []
    else
      var k := SnapshotPriceIndex(times, i);
      if k < |prices| then [Tick(times[i], prices[k])] + SnapshotTicks(times, prices, i + 1)
      else []
  }

  /**
   * A load that ends early ends at a tick whose price is missing: the tick
   * right after the loaded ones has its price position past the end of `prices`.
   */
  lemma {:induction false} SnapshotTicksStop(times: seq<int>, prices: seq<real>, i: nat)
    requires i <= |times|
    ensures var n := i + |SnapshotTicks(times, prices, i)|;
      n < |times| ==> SnapshotPriceIndex(times, n) >= |prices|
    decreases |times| - i
  {
    if i < |times| {
      var k := SnapshotPriceIndex(times, i);
      if k < |prices| {
        var rest := SnapshotTicks(times, prices, i + 1);
        assert SnapshotTicks(times, prices, i) == [Tick(times[i], prices[k])] + rest;
        SnapshotTicksStop(times, prices, i + 1);
        assert i + |SnapshotTicks(times, prices, i)| == (i + 1) + |rest|;
      } else {
        assert SnapshotTicks(times, prices, i) == [];
      }
    }
  }

  /** Whether every tick of a snapshot finds its price. */
  predicate SnapshotComplete(times: seq<int>, prices: seq<real>)
  {
    forall i :: 0 <= i < |times| ==> SnapshotPriceIndex(times, i) < |prices|
  }

  /**
   * All the ticks of a snapshot from position `i` on load exactly when each
   * of them finds its price.
   */
  lemma {:induction false} SnapshotTicksSpec(times: seq<int>, prices: seq<real>, i: nat)
    requires i <= |times|
    ensures |SnapshotTicks(times, prices, i)| == |times| - i <==>
      forall j :: i <= j < |times| ==> SnapshotPriceIndex(times, j) < |prices|
    decreases |times| - i
  {
    if i < |times| {
      SnapshotTicksSpec(times, prices, i + 1);
    }
  }

  lemma CompleteWhenPricesCover(times: seq<int>, prices: seq<real>)
    requires |times| <= |prices|
    ensures SnapshotComplete(times, prices)
  {
  }

  /**
   * Two loaded ticks with the same time carry the same price, whatever the
   * price list holds at the later position.
   */
  lemma RepeatedTimeSharesPrice(times: seq<int>, prices: seq<real>, i: nat, j: nat)
    requires i < j < |SnapshotTicks(times, prices, 0)|
    requires times[i] == times[j]
    ensures SnapshotTicks(times, prices, 0)[i] == SnapshotTicks(times, prices, 0)[j]
  {
  }
}
