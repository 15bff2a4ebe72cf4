/**
 * Synthetic-candle analysis of DerivBot: one open/high/low/close candle built
 * from the newest ticks, its derived details, the single-candle patterns it
 * shows and the even/odd trade signal read off it. Everything here is pure.
 */
module Candle {
  import opened Wrappers
  import opened Ticks

  /** The two digit-parity contracts the bot can buy. */
  datatype Direction = Even | Odd

  /** The last decimal digit of a printed price. */
  type Digit = d: int | 0 <= d <= 9

  /** Ticks the history must hold before a signal is evaluated. */
  const SignalMinHistory: nat := 200

  /** Number of newest ticks the synthetic candle is built from. */
  const CandleWindow: nat := 100

  function Max(a: real, b: real): real { if a < b then b else a }

  function Min(a: real, b: real): real { if a < b then a else b }

  /** The newest `n` elements of `s` (all of `s` when it is shorter), like `s[-n:]` for n > 0. */
  function LastN<T>(s: seq<T>, n: nat): (r: seq<T>)
    ensures |r| == if |s| < n then |s| else n
    ensures forall i :: 0 <= i < |r| ==> r[i] == s[|s| - |r| + i]
  {
    if |s| <= n then s else s[|s| - n..]
  }

  /** The prices of a list of ticks, in order. */
  function Prices(ticks: seq<Tick>): (r: seq<real>)
    ensures |r| == |ticks|
    ensures forall i :: 0 <= i < |ticks| ==> r[i] == ticks[i].price
  {
    if ticks == [] then [] else [ticks[0].price] + Prices(ticks[1..])
  }

  /** Python's `max` over a non-empty list of prices. */
  function MaxOf(s: seq<real>): (r: real)
    requires |s| > 0
    ensures r in s
    ensures forall i :: 0 <= i < |s| ==> s[i] <= r
  {
    if |s| == 1 then s[0] else Max(s[0], MaxOf(s[1..]))
  }

  /** Python's `min` over a non-empty list of prices. */
  function MinOf(s: seq<real>): (r: real)
    requires |s| > 0
    ensures r in s
    ensures forall i :: 0 <= i < |s| ==> r <= s[i]
  {
    if |s| == 1 then s[0] else Min(s[0], MinOf(s[1..]))
  }

  /** The synthetic candle: no feed supplies it, the bot derives it from a tick window. */
  datatype VirtualCandle = VirtualCandle(open: real, close: real, high: real, low: real, epoch: int)

  /** A candle whose open and close lie between its low and its high. */
  predicate WellFormed(c: VirtualCandle)
  {
    c.low <= c.open <= c.high && c.low <= c.close <= c.high
  }

  /**
   * The candle of a tick window: open and close are the first and last
   * prices, high and low the largest and smallest, epoch the last time.
   * An empty window gives no candle.
   */
  function BuildCandle(window: seq<Tick>): (r: Option<VirtualCandle>)
    ensures r.None? <==> window == []
    ensures r.Some? ==> WellFormed(r.value)
    ensures r.Some? ==> r.value.open == window[0].price && r.value.close == window[|window| - 1].price
    ensures r.Some? ==> r.value.epoch == window[|window| - 1].time
    ensures r.Some? ==> forall i :: 0 <= i < |window| ==> r.value.low <= window[i].price <= r.value.high
    ensures r.Some? ==> (exists i :: 0 <= i < |window| && window[i].price == r.value.high)
    ensures r.Some? ==> (exists i :: 0 <= i < |window| && window[i].price == r.value.low)
  {
    if window == [] then None
    else
      var prices := Prices(window);
      assert prices[0] == window[0].price && prices[|prices| - 1] == window[|window| - 1].price;
      Some(VirtualCandle(prices[0], prices[|prices| - 1], MaxOf(prices), MinOf(prices), window[|window| - 1].time))
  }

  datatype CandleType = Indecision | Green | Red

  /** The derived attributes of a candle. */
  datatype Details = Details(
    isBullish: bool, isBearish: bool,
    bodySize: real, totalRange: real,
    open: real, close: real, high: real, low: real,
    upperWick: real, lowerWick: real,
    kind: CandleType)

  function CandleDetails(c: VirtualCandle): (d: Details)
  {
    var body := Abs(c.close - c.open);
    var range := c.high - c.low;
    Details(
      c.close > c.open, c.close < c.open,
      body, range,
      c.open, c.close, c.high, c.low,
      if range > 0.0 then c.high - Max(c.open, c.close) else 0.0,
      if range > 0.0 then Min(c.open, c.close) - c.low else 0.0,
      if range == 0.0 || body / range < 0.10 then Indecision
      else if c.close > c.open then Green else Red)
  }

  /**
   * For a well-formed candle the body fits in the range, the wicks are zero
   * on a flat candle and otherwise non-negative and make up the range with
   * the body, and the type is Indecision exactly when the body is under a
   * tenth of the range; otherwise Green for a rising and Red for a falling candle.
   */
  lemma DetailsFacts(c: VirtualCandle)
    requires WellFormed(c)
    ensures var d := CandleDetails(c);
      && d.bodySize == Abs(c.close - c.open)
      && d.totalRange == c.high - c.low
      && 0.0 <= d.bodySize <= d.totalRange
      && (d.totalRange == 0.0 ==> d.upperWick == 0.0 && d.lowerWick == 0.0)
      && (d.totalRange > 0.0 ==> 0.0 <= d.upperWick && 0.0 <= d.lowerWick
                                 && d.upperWick + d.bodySize + d.lowerWick == d.totalRange)
      && (d.kind == Indecision <==> d.totalRange == 0.0 || d.bodySize < 0.10 * d.totalRange)
      && (d.kind == Green <==> d.kind != Indecision && c.close > c.open)
      && (d.kind == Red <==> d.kind != Indecision && c.close < c.open)
  {
    var d := CandleDetails(c);
    if d.totalRange > 0.0 {
      RatioBelow(d.bodySize, d.totalRange, 0.10);
    }
  }

  /** For a positive range, comparing the ratio is comparing the scaled range. */
  lemma RatioBelow(body: real, range: real, bound: real)
    requires range > 0.0
    ensures body / range < bound <==> body < bound * range
    ensures body / range > bound <==> body > bound * range
  {
    assert body == (body / range) * range;
  }

  /** Candlestick pattern labels; the last four are consulted by the signal but never recognized. */
  datatype Pattern = Doji | SpinningTop | Marubozu | BullishEngulfing | BearishEngulfing | Hammer | ShootingStar

  /** The single-candle patterns of a candle. */
  function RecognizePatterns(c: VirtualCandle): (p: set<Pattern>)
    ensures p <= {Doji, SpinningTop, Marubozu}
    ensures Doji in p <==> CandleDetails(c).bodySize < 0.0001
    ensures SpinningTop in p || Marubozu in p ==> CandleDetails(c).totalRange > 0.0
    ensures !(SpinningTop in p && Marubozu in p)
  {
    var d := CandleDetails(c);
    var doji: set<Pattern> := if d.bodySize < 0.0001 then {Doji} else {};
    if d.totalRange > 0.0 then
      var spinning: set<Pattern> := if d.bodySize / d.totalRange < 0.3 then {SpinningTop} else {};
      var marubozu: set<Pattern> := if d.bodySize / d.totalRange > 0.9 then {Marubozu} else {};
      doji + spinning + marubozu
    else
      doji
  }

  /**
   * The range-based labels in terms of the body and range: Spinning Top when
   * the body is under 30% of a positive range, Marubozu when over 90%. A flat
   * well-formed candle is always a Doji, and a well-formed candle shows no
   * pattern exactly when its body is at least 0.0001 and between 30% and 90%
   * of its range.
   */
  lemma PatternFacts(c: VirtualCandle)
    ensures var d := CandleDetails(c); var p := RecognizePatterns(c);
      && (SpinningTop in p <==> d.totalRange > 0.0 && d.bodySize < 0.3 * d.totalRange)
      && (Marubozu in p <==> d.totalRange > 0.0 && d.bodySize > 0.9 * d.totalRange)
      && (WellFormed(c) && d.totalRange == 0.0 ==> Doji in p)
      && (WellFormed(c) ==>
            (p == {} <==> 0.0001 <= d.bodySize && 0.3 * d.totalRange <= d.bodySize <= 0.9 * d.totalRange))
  {
    var d := CandleDetails(c);
    var p := RecognizePatterns(c);
    if d.totalRange > 0.0 {
      RatioBelow(d.bodySize, d.totalRange, 0.3);
      RatioBelow(d.bodySize, d.totalRange, 0.9);
    }
    if WellFormed(c) {
      DetailsFacts(c);
    }
  }

  /**
   * A candle that opens and closes at 1.0 inside a 0.0002 range is an
   * Indecision candle showing Doji and Spinning Top.
   */
  lemma FlatBodyCandle()
    ensures var c := VirtualCandle(1.0, 1.0, 1.0001, 0.9999, 0);
      && CandleDetails(c).kind == Indecision
      && RecognizePatterns(c) == {Doji, SpinningTop}
  {
    var c := VirtualCandle(1.0, 1.0, 1.0001, 0.9999, 0);
    PatternFacts(c);
  }

  /** The contract an even or odd last digit stands for. */
  function ParityOf(d: Digit): (r: Direction)
    ensures r == Even <==> d in {0, 2, 4, 6, 8}
  {
    if d % 2 == 0 then Even else Odd
  }

  /**
   * The trade signal: nothing before the history holds 200 ticks; otherwise
   * the candle of the newest 100 ticks, and no signal when it shows no
   * pattern. The engulfing, hammer and shooting-star rules come first, then
   * the parity of the close's last digit.
   */
  function TradeSignal(history: seq<Tick>, lastDigit: real -> Digit): Option<Direction>
  {
    if |history| < SignalMinHistory then None
    else
      match BuildCandle(LastN(history, CandleWindow))
      case None => None
      case Some(c) =>
        var patterns := RecognizePatterns(c);
        if patterns == {} then None
        else if BullishEngulfing in patterns || Hammer in patterns then Some(Even)
        else if BearishEngulfing in patterns || ShootingStar in patterns then Some(Odd)
        else Some(ParityOf(lastDigit(c.close)))
  }

  /** The candle the signal is read from, once the history is long enough. */
  function SignalCandle(history: seq<Tick>): (c: VirtualCandle)
    requires |history| >= SignalMinHistory
    ensures c.close == history[|history| - 1].price
    ensures c.open == history[|history| - CandleWindow].price
    ensures WellFormed(c)
  {
    BuildCandle(LastN(history, CandleWindow)).value
  }

  /**
   * There is a signal exactly when the history holds 200 ticks and the
   * candle shows some pattern, and then it is the parity of the last digit
   * of the newest price: the pattern-driven rules never decide.
   */
  lemma SignalSpec(history: seq<Tick>, lastDigit: real -> Digit)
    ensures TradeSignal(history, lastDigit).Some? <==>
      |history| >= SignalMinHistory && RecognizePatterns(SignalCandle(history)) != {}
    ensures TradeSignal(history, lastDigit).Some? ==>
      TradeSignal(history, lastDigit).value == ParityOf(lastDigit(history[|history| - 1].price))
  {
    if |history| >= SignalMinHistory {
      var c := SignalCandle(history);
      var p := RecognizePatterns(c);
      assert BullishEngulfing !in p && Hammer !in p && BearishEngulfing !in p && ShootingStar !in p;
    }
  }

  function Sum(s: seq<real>): real
  {
    if s == [] then 0.0 else s[0] + Sum(s[1..])
  }

  /** The closes the trend helpers average: the newest `lookback`, or all of them when `lookback` is 0. */
  function TrendWindow(candles: seq<VirtualCandle>, lookback: nat): (w: seq<real>)
    requires lookback <= |candles|
    ensures |w| == if lookback == 0 then |candles| else lookback
    ensures forall i :: 0 <= i < |w| ==> w[i] == candles[|candles| - |w| + i].close
  {
    var from := if lookback == 0 then 0 else |candles| - lookback;
    seq(|candles| - from, i requires 0 <= i < |candles| - from => candles[from + i].close)
  }

  /** Uptrend: the newest close is above the mean of the newest `lookback` closes. */
  function IsUptrend(candles: seq<VirtualCandle>, lookback: nat := 5): bool
    requires lookback > 0 || |candles| > 0
  {
    if |candles| < lookback then false
    else
      var w := TrendWindow(candles, lookback);
      Sum(w) / (|w| as real) < w[|w| - 1]
  }

  /** Downtrend: the newest close is below the mean of the newest `lookback` closes. */
  function IsDowntrend(candles: seq<VirtualCandle>, lookback: nat := 5): bool
    requires lookback > 0 || |candles| > 0
  {
    if |candles| < lookback then false
    else
      var w := TrendWindow(candles, lookback);
      Sum(w) / (|w| as real) > w[|w| - 1]
  }

  lemma {:induction false} SumConstant(s: seq<real>, x: real)
    requires forall i :: 0 <= i < |s| ==> s[i] == x
    ensures Sum(s) == (|s| as real) * x
  {
    if s != [] {
      SumConstant(s[1..], x);
    }
  }

  /**
   * A market is never in an uptrend and a downtrend at once, and a window of
   * equal closes is in neither.
   */
  lemma TrendFacts(candles: seq<VirtualCandle>, lookback: nat)
    requires lookback > 0 || |candles| > 0
    ensures !(IsUptrend(candles, lookback) && IsDowntrend(candles, lookback))
    ensures lookback <= |candles| &&
      (forall i :: |candles| - |TrendWindow(candles, lookback)| <= i < |candles| ==>
         candles[i].close == candles[|candles| - 1].close)
      ==> !IsUptrend(candles, lookback) && !IsDowntrend(candles, lookback)
  {
    if lookback <= |candles| {
      var w := TrendWindow(candles, lookback);
      if forall i :: |candles| - |w| <= i < |candles| ==> candles[i].close == candles[|candles| - 1].close {
        var x := candles[|candles| - 1].close;
        forall i | 0 <= i < |w| ensures w[i] == x {
          assert w[i] == candles[|candles| - |w| + i].close;
        }
        SumConstant(w, x);
        MeanOfConstant(Sum(w), |w| as real, x);
      }
    }
  }

  /** The mean of a total of `n` equal values is that value. */
  lemma MeanOfConstant(sum: real, n: real, x: real)
    requires n > 0.0 && sum == n * x
    ensures sum / n == x
  {
  }
}
