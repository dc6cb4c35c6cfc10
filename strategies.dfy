/**
 * The strategy evaluators of strategies.py: each maps a market snapshot to an
 * optional long signal tagged with the strategy's own name. Indicator columns
 * (MACD, Bollinger, Keltner, VWAP, RSI, OBV) are computed by a library and
 * arrive here as values, one reading per candle.
 */
module Strategies {
  import opened Wrappers
  import opened Stats
  import Levels

  // ---------------------------------------------------------------------------
  // Data
  // ---------------------------------------------------------------------------

  datatype Candle = Candle(open: real, high: real, low: real, close: real, volume: real)

  /** A candle whose open and close lie within its range and whose volume is not negative. */
  predicate WellFormed(c: Candle)
  {
    c.low <= c.open <= c.high && c.low <= c.close <= c.high && c.volume >= 0.0
  }

  /** The `SCANNERS` registry keys. */
  datatype Strategy = MomentumBreakout | BreakoutSqueezePro | SupportRebound | WhaleRadar | SniperPro

  datatype Direction = Long

  datatype Signal = Signal(reason: Strategy, direction: Direction)

  function Highs(df: seq<Candle>): (r: seq<real>)
    ensures |r| == |df| && forall i :: 0 <= i < |df| ==> r[i] == df[i].high
  {
    seq(|df|, i requires 0 <= i < |df| => df[i].high)
  }

  function Lows(df: seq<Candle>): (r: seq<real>)
    ensures |r| == |df| && forall i :: 0 <= i < |df| ==> r[i] == df[i].low
  {
    seq(|df|, i requires 0 <= i < |df| => df[i].low)
  }

  function Volumes(df: seq<Candle>): (r: seq<real>)
    ensures |r| == |df| && forall i :: 0 <= i < |df| ==> r[i] == df[i].volume
  {
    seq(|df|, i requires 0 <= i < |df| => df[i].volume)
  }

  // ---------------------------------------------------------------------------
  // find_col
  // ---------------------------------------------------------------------------

  predicate StartsWith(s: string, prefix: string)
  {
    |prefix| <= |s| && s[..|prefix|] == prefix
  }

  /** The first column, in order, whose name starts with `prefix`. */
  function FindCol(columns: seq<string>, prefix: string): (r: Option<nat>)
    ensures r.None? <==> forall i :: 0 <= i < |columns| ==> !StartsWith(columns[i], prefix)
    ensures r.Some? ==> (r.value < |columns| && StartsWith(columns[r.value], prefix)
      && forall i :: 0 <= i < r.value ==> !StartsWith(columns[i], prefix))
  {
    if columns == [] then None
    else if StartsWith(columns[0], prefix) then Some(0)
    else
      match FindCol(columns[1..], prefix)
      case None => None
      case Some(k) => Some(k + 1)
  }

  /** `find_col`: the name of that first matching column. */
  function FindColName(columns: seq<string>, prefix: string): (r: Option<string>)
    ensures r.Some? ==> r.value in columns && StartsWith(r.value, prefix)
    ensures r.Some? ==> FindCol(columns, prefix).Some? && r.value == columns[FindCol(columns, prefix).value]
    ensures r.None? <==> forall c :: c in columns ==> !StartsWith(c, prefix)
  {
    match FindCol(columns, prefix)
    case None => None
    case Some(k) => Some(columns[k])
  }

  // ---------------------------------------------------------------------------
  // Rolling volume mean
  // ---------------------------------------------------------------------------

  /**
   * `xs.rolling(window).mean().iloc[-2]`: the mean of the `window` values
   * ending at the second-to-last position, or None where pandas yields NaN
   * (too few values). Requires a positive window, as pandas does.
   */
  function RollingMeanAtPrevious(xs: seq<real>, window: nat): (r: Option<real>)
    requires window > 0
    ensures r.Some? <==> |xs| >= window + 1
  {
    if |xs| < window + 1 then None
    else Some(Mean(xs[|xs| - 1 - window..|xs| - 1]))
  }

  // ---------------------------------------------------------------------------
  // Momentum breakout (strategies.py:39-64)
  // ---------------------------------------------------------------------------

  /** The indicator readings of one candle used by the momentum breakout. */
  datatype MomentumReading = MomentumReading(macd: real, macdSignal: real, bbUpper: real, vwap: real, rsi: real)

  /**
   * `readings` is None when one of the indicator columns is missing. Else it
   * holds one reading per candle of `df`.
   */
  function AnalyzeMomentumBreakout(df: seq<Candle>, readings: Option<seq<MomentumReading>>,
                                   rsiMaxLevel: real, rvol: real, minRvol: real): (r: Option<Signal>)
    requires readings.Some? ==> |readings.value| == |df|
    ensures r.Some? ==> r.value == Signal(MomentumBreakout, Long)
  {
    if readings.None? || |df| < 3 then None
    else
      var n := |df|;
      var last, prev := readings.value[n - 2], readings.value[n - 3];
      var close := df[n - 2].close;
      if prev.macd <= prev.macdSignal && last.macd > last.macdSignal
        && close > last.bbUpper && close > last.vwap
        && last.rsi < rsiMaxLevel && rvol >= minRvol
      then Some(Signal(MomentumBreakout, Long))
      else None
  }

  /**
   * A momentum signal means: the MACD histogram turned from non-positive to
   * positive on the closed candle, the close broke strictly above both the
   * upper band and VWAP, RSI was strictly below its ceiling and relative
   * volume reached the minimum.
   */
  lemma MomentumSignalMeans(df: seq<Candle>, readings: Option<seq<MomentumReading>>,
                            rsiMaxLevel: real, rvol: real, minRvol: real)
    requires readings.Some? ==> |readings.value| == |df|
    ensures AnalyzeMomentumBreakout(df, readings, rsiMaxLevel, rvol, minRvol).Some? <==>
      && readings.Some? && |df| >= 3
      && var n := |df|;
         var last, prev := readings.value[n - 2], readings.value[n - 3];
         && prev.macd - prev.macdSignal <= 0.0 < last.macd - last.macdSignal
         && df[n - 2].close > (if last.bbUpper < last.vwap then last.vwap else last.bbUpper)
         && last.rsi < rsiMaxLevel
         && rvol >= minRvol
  {
  }

  // ---------------------------------------------------------------------------
  // Breakout squeeze pro (strategies.py:66-94)
  // ---------------------------------------------------------------------------

  datatype SqueezeReading = SqueezeReading(bbUpper: real, bbLower: real, kcUpper: real, kcLower: real, obv: real)

  /** The volume spike multiplier of the squeeze and rebound confirmations. */
  const VolumeSpike: real := 1.5

  /**
   * `volumeConfirmation` is `params.get('volume_confirmation_enabled')`;
   * a missing key means enabled.
   */
  function AnalyzeBreakoutSqueezePro(df: seq<Candle>, readings: Option<seq<SqueezeReading>>,
                                     volumeConfirmation: Option<bool>, rvol: real, minRvol: real): (r: Option<Signal>)
    requires readings.Some? ==> |readings.value| == |df|
    ensures r.Some? ==> r.value == Signal(BreakoutSqueezePro, Long)
  {
    if readings.None? || |df| < 3 then None
    else
      var n := |df|;
      var last, prev := readings.value[n - 2], readings.value[n - 3];
      var inSqueeze := prev.bbLower > prev.kcLower && prev.bbUpper < prev.kcUpper;
      if !inSqueeze then None
      else
        var breakoutFired := df[n - 2].close > last.bbUpper;
        var confirm := if volumeConfirmation.Some? then volumeConfirmation.value else true;
        var volumeOk := !confirm ||
          (match RollingMeanAtPrevious(Volumes(df), 20)
           case None => false
           case Some(avg) => df[n - 2].volume > avg * VolumeSpike);
        var rvolOk := rvol >= minRvol;
        var obvRising := last.obv > prev.obv;
        if breakoutFired && rvolOk && obvRising && volumeOk then Some(Signal(BreakoutSqueezePro, Long))
        else None
  }

  /**
   * A squeeze signal iff the indicator columns are present, the previous
   * candle's Bollinger band sat strictly inside its Keltner channel, the
   * closed candle broke above the upper Bollinger band, on-balance volume
   * rose, relative volume reached the minimum, and (unless confirmation is
   * switched off) the closed candle's volume beat 1.5 times the 20-candle mean.
   */
  lemma SqueezeSignalMeans(df: seq<Candle>, readings: Option<seq<SqueezeReading>>,
                           volumeConfirmation: Option<bool>, rvol: real, minRvol: real)
    requires readings.Some? ==> |readings.value| == |df|
    ensures AnalyzeBreakoutSqueezePro(df, readings, volumeConfirmation, rvol, minRvol).Some? <==>
      && readings.Some? && |df| >= 3
      && var n := |df|;
         var last, prev := readings.value[n - 2], readings.value[n - 3];
         && prev.kcLower < prev.bbLower && prev.bbUpper < prev.kcUpper
         && df[n - 2].close > last.bbUpper
         && last.obv > prev.obv
         && rvol >= minRvol
         && (volumeConfirmation == Some(false)
             || (n >= 21 && df[n - 2].volume > Mean(Volumes(df)[n - 21..n - 1]) * 1.5))
  {
  }

  /** Sitting strictly inside the Keltner channel makes the Bollinger band strictly narrower. */
  lemma SqueezeBandNarrower(r: SqueezeReading)
    requires r.kcLower < r.bbLower && r.bbUpper < r.kcUpper
    ensures r.bbUpper - r.bbLower < r.kcUpper - r.kcLower
  {
  }

  /**
   * With confirmation on (the default), a squeeze signal needs at least 21
   * candles and a closed-candle volume above 1.5 times the 20-candle mean.
   */
  lemma SqueezeVolumeConfirmed(df: seq<Candle>, readings: Option<seq<SqueezeReading>>, rvol: real, minRvol: real)
    requires readings.Some? ==> |readings.value| == |df|
    requires AnalyzeBreakoutSqueezePro(df, readings, None, rvol, minRvol).Some?
    ensures |df| >= 21
    ensures df[|df| - 2].volume > Mean(Volumes(df)[|df| - 21..|df| - 1]) * VolumeSpike
  {
  }

  /** Turning volume confirmation off never removes a squeeze signal. */
  lemma SqueezeConfirmationOnlyFilters(df: seq<Candle>, readings: Option<seq<SqueezeReading>>,
                                       confirmation: Option<bool>, rvol: real, minRvol: real)
    requires readings.Some? ==> |readings.value| == |df|
    requires AnalyzeBreakoutSqueezePro(df, readings, confirmation, rvol, minRvol).Some?
    ensures AnalyzeBreakoutSqueezePro(df, readings, Some(false), rvol, minRvol).Some?
  {
  }

  // ---------------------------------------------------------------------------
  // Sniper pro (strategies.py:128-149)
  // ---------------------------------------------------------------------------

  /** `compression_hours` when the parameter is absent. */
  const DefaultCompressionHours: nat := 6

  /** `max_volatility_percent` when the parameter is absent. */
  const DefaultMaxVolatilityPercent: real := 12.0

  /**
   * The compression-breakout decision on a given compression window: the
   * range is tight enough and the tested candle closes above every high of
   * the window with more than twice its mean volume.
   */
  function BreaksOutOfCompression(window: seq<Candle>, tested: Candle, maxVolatility: real): (r: bool)
    ensures r ==> window != []
    ensures r ==> forall i :: 0 <= i < |window| ==> 0.0 < window[i].low && window[i].high < tested.close
    ensures r ==> tested.volume > Mean(Volumes(window)) * 2.0
  {
    if window == [] then false  // pandas: max/min of nothing is NaN, volatility becomes inf
    else
      var highest := SeqMax(Highs(window));
      var lowest := SeqMin(Lows(window));
      SeqMaxIsMaximum(Highs(window));
      SeqMinIsMinimum(Lows(window));
      lowest > 0.0
      && (highest - lowest) / lowest * 100.0 < maxVolatility
      && tested.close > highest
      && tested.volume > Mean(Volumes(window)) * 2.0
  }

  /**
   * `analyze_sniper_pro` as written: the compression window is
   * `df.iloc[-cc-1:-1]`, which ends with `df.iloc[-2]`, the very candle
   * that is tested for the breakout.
   */
  function AnalyzeSniperProAsWritten(df: seq<Candle>, compressionHours: nat, maxVolatility: Option<real>): (r: Option<Signal>)
    ensures r.Some? ==> r.value == Signal(SniperPro, Long)
    ensures r.Some? ==> (compressionHours > 0 && |df| >= compressionHours * 4 + 2
      && df[|df| - 2].high < df[|df| - 2].close)
  {
    var cc := compressionHours * 4;
    var limit := if maxVolatility.Some? then maxVolatility.value else DefaultMaxVolatilityPercent;
    if |df| < cc + 2 then None
    else
      var window := df[|df| - cc - 1..|df| - 1];
      if BreaksOutOfCompression(window, df[|df| - 2], limit) then
        assert window[cc - 1] == df[|df| - 2];
        Some(Signal(SniperPro, Long))
      else None
  }

  /** As written, the sniper can never fire on well-formed candles. */
  lemma SniperAsWrittenNeverFires(df: seq<Candle>, compressionHours: nat, maxVolatility: Option<real>)
    requires forall i :: 0 <= i < |df| ==> WellFormed(df[i])
    ensures AnalyzeSniperProAsWritten(df, compressionHours, maxVolatility) == None
  {
    if |df| >= 2 {
      assert WellFormed(df[|df| - 2]);
    }
  }

  /**
   * `analyze_sniper_pro` with the compression window taken as the `cc`
   * candles before the tested one (`df.iloc[-cc-2:-2]`).
   */
  function AnalyzeSniperPro(df: seq<Candle>, compressionHours: nat, maxVolatility: Option<real>): (r: Option<Signal>)
    ensures r.Some? ==> r.value == Signal(SniperPro, Long)
    ensures r.Some? ==> (compressionHours > 0 && |df| >= compressionHours * 4 + 2
      && forall i :: |df| - compressionHours * 4 - 2 <= i < |df| - 2 ==> df[i].high < df[|df| - 2].close)
  {
    var cc := compressionHours * 4;
    var limit := if maxVolatility.Some? then maxVolatility.value else DefaultMaxVolatilityPercent;
    if |df| < cc + 2 then None
    else
      var window := df[|df| - cc - 2..|df| - 2];
      assert forall i :: |df| - cc - 2 <= i < |df| - 2 ==> window[i - (|df| - cc - 2)] == df[i];
      if BreaksOutOfCompression(window, df[|df| - 2], limit) then
        Some(Signal(SniperPro, Long))
      else None
  }

  /** The corrected sniper does fire: a tight four-candle range and a breakout on high volume. */
  lemma SniperCanFire()
    ensures var base := Candle(99.5, 100.0, 99.0, 99.5, 10.0);
      var breakout := Candle(100.0, 102.0, 100.0, 101.0, 30.0);
      var df := [base, base, base, base, breakout, base];
      && (forall i :: 0 <= i < |df| ==> WellFormed(df[i]))
      && AnalyzeSniperPro(df, 1, None) == Some(Signal(SniperPro, Long))
      && AnalyzeSniperProAsWritten(df, 1, None) == None
  {
    var base := Candle(99.5, 100.0, 99.0, 99.5, 10.0);
    var breakout := Candle(100.0, 102.0, 100.0, 101.0, 30.0);
    var df := [base, base, base, base, breakout, base];
    var window := df[0..4];
    assert window == [base, base, base, base];
    assert Highs(window) == [100.0, 100.0, 100.0, 100.0];
    assert Lows(window) == [99.0, 99.0, 99.0, 99.0];
    assert Volumes(window) == [10.0, 10.0, 10.0, 10.0];
    SeqMaxIsMaximum(Highs(window));
    SeqMinIsMinimum(Lows(window));
    assert SeqMax(Highs(window)) == 100.0;
    assert SeqMin(Lows(window)) == 99.0;
    assert Sum(Volumes(window)) == 40.0 by {
      var v1, v2, v3, v4 := [10.0], [10.0, 10.0], [10.0, 10.0, 10.0], [10.0, 10.0, 10.0, 10.0];
      assert v1[..0] == [] && v2[..1] == v1 && v3[..2] == v2 && v4[..3] == v3;
      assert Sum(v1) == 10.0;
      assert Sum(v2) == 20.0;
      assert Sum(v3) == 30.0;
      assert Sum(v4) == 40.0;
    }
    assert BreaksOutOfCompression(window, breakout, DefaultMaxVolatilityPercent);
    SniperAsWrittenNeverFires(df, 1, None);
  }

  // ---------------------------------------------------------------------------
  // Whale radar (strategies.py:151-166)
  // ---------------------------------------------------------------------------

  /** A price or quantity field of an order-book level: a number or anything else. */
  datatype Quote = Numeric(x: real) | NonNumeric

  datatype BidLevel = BidLevel(price: Quote, qty: Quote)

  const DefaultWallThresholdUsdt: real := 30000.0

  /** How many top-of-book bid levels are summed. */
  const WhaleDepth: nat := 10

  /** price*qty of a level whose fields are both numeric, else nothing. */
  function Notional(b: BidLevel): real
  {
    if b.price.Numeric? && b.qty.Numeric? then b.price.x * b.qty.x else 0.0
  }

  function NotionalSum(bids: seq<BidLevel>): real
  {
    if bids == [] then 0.0 else NotionalSum(bids[..|bids| - 1]) + Notional(bids[|bids| - 1])
  }

  /** The summed value of at most the first ten bids. */
  function TopBidValue(bids: seq<BidLevel>): real
  {
    NotionalSum(if |bids| <= WhaleDepth then bids else bids[..WhaleDepth])
  }

  /**
   * `book` is the bid side of the fetched order book, None when the fetch
   * failed. `threshold` is `params.get("wall_threshold_usdt")`.
   */
  function AnalyzeWhaleRadar(book: Option<seq<BidLevel>>, threshold: Option<real>): (r: Option<Signal>)
    ensures r.Some? ==> r.value == Signal(WhaleRadar, Long)
  {
    var limit := if threshold.Some? then threshold.value else DefaultWallThresholdUsdt;
    if book.None? || book.value == [] then None
    else if TopBidValue(book.value) > limit then Some(Signal(WhaleRadar, Long))
    else None
  }

  /** Only the numeric levels: an independent reading of what is summed. */
  function NumericLevels(bids: seq<BidLevel>): (r: seq<(real, real)>)
  {
    if bids == [] then []
    else
      var b := bids[|bids| - 1];
      NumericLevels(bids[..|bids| - 1]) + (if b.price.Numeric? && b.qty.Numeric? then [(b.price.x, b.qty.x)] else [])
  }

  function PairSum(pairs: seq<(real, real)>): real
  {
    if pairs == [] then 0.0 else PairSum(pairs[..|pairs| - 1]) + pairs[|pairs| - 1].0 * pairs[|pairs| - 1].1
  }

  lemma {:induction false} PairSumAppend(xs: seq<(real, real)>, ys: seq<(real, real)>)
    ensures PairSum(xs + ys) == PairSum(xs) + PairSum(ys)
  {
    if ys != [] {
      assert (xs + ys)[..|xs + ys| - 1] == xs + ys[..|ys| - 1];
      PairSumAppend(xs, ys[..|ys| - 1]);
    } else {
      assert xs + ys == xs;
    }
  }

  /** The bid value is the sum of price*qty over the numeric levels only. */
  lemma {:induction false} NotionalSumIsNumericSum(bids: seq<BidLevel>)
    ensures NotionalSum(bids) == PairSum(NumericLevels(bids))
  {
    if bids != [] {
      var init := bids[..|bids| - 1];
      var b := bids[|bids| - 1];
      NotionalSumIsNumericSum(init);
      var tail := if b.price.Numeric? && b.qty.Numeric? then [(b.price.x, b.qty.x)] else [];
      PairSumAppend(NumericLevels(init), tail);
      if tail != [] {
        assert tail[..0] == [];
      }
    }
  }

  /**
   * The whale radar fires iff the book has bids and the numeric price*qty
   * of its first ten levels strictly exceeds the threshold (30000 by default).
   */
  lemma WhaleRadarFiresIff(bids: seq<BidLevel>, threshold: Option<real>)
    ensures AnalyzeWhaleRadar(Some(bids), threshold).Some? <==>
      bids != [] &&
      PairSum(NumericLevels(if |bids| <= WhaleDepth then bids else bids[..WhaleDepth]))
        > (if threshold.Some? then threshold.value else 30000.0)
  {
    NotionalSumIsNumericSum(if |bids| <= WhaleDepth then bids else bids[..WhaleDepth]);
  }

  /** Levels below the tenth never change the decision. */
  lemma WhaleRadarIgnoresDeepBook(bids: seq<BidLevel>, deeper: seq<BidLevel>, threshold: Option<real>)
    requires |bids| >= WhaleDepth
    ensures AnalyzeWhaleRadar(Some(bids + deeper), threshold) == AnalyzeWhaleRadar(Some(bids), threshold)
  {
    assert (bids + deeper)[..WhaleDepth] == bids[..WhaleDepth];
    assert |bids| == WhaleDepth ==> bids[..WhaleDepth] == bids;
    if deeper == [] {
      assert bids + deeper == bids;
    }
  }

  // ---------------------------------------------------------------------------
  // Support rebound (strategies.py:168-196)
  // ---------------------------------------------------------------------------

  /** `max([s for s in supports if s < price], default=None)`. */
  function ClosestSupportBelow(supports: seq<real>, price: real): (r: Option<real>)
    ensures r.None? <==> forall i :: 0 <= i < |supports| ==> supports[i] >= price
    ensures r.Some? ==> (r.value < price && r.value in supports
      && forall i :: 0 <= i < |supports| && supports[i] < price ==> supports[i] <= r.value)
  {
    if supports == [] then None
    else
      var s := supports[|supports| - 1];
      var init := supports[..|supports| - 1];
      assert forall i :: 0 <= i < |init| ==> init[i] == supports[i];
      match ClosestSupportBelow(init, price)
      case None => if s < price then Some(s) else None
      case Some(c) => if s < price && s > c then Some(s) else Some(c)
  }

  /** The pivot window of the hourly series. */
  const HourlyPivotWindow: nat := 5

  /** Hourly candles needed before the rebound is considered. */
  const MinHourlyCandles: nat := 50

  /**
   * `(price - closest) / closest * 100 < 1.0`, where a zero `closest` is
   * rejected beforehand (`if not closest_support`).
   */
  predicate NearSupport(price: real, closest: real)
    ensures NearSupport(price, closest) <==>
      || (closest > 0.0 && price < closest * 1.01)
      || (closest < 0.0 && price > closest * 1.01)
  {
    closest != 0.0 && (RelativeGapBelow(price, closest, 1.0); (price - closest) / closest * 100.0 < 1.0)
  }

  /**
   * The closed scan-timeframe candle is bullish and its volume beats 1.5
   * times the 20-candle mean (false where the mean is NaN).
   */
  predicate BullishVolumeConfirmation(df: seq<Candle>)
  {
    match RollingMeanAtPrevious(Volumes(df), 20)
    case None => false
    case Some(avg) =>
      var last := df[|df| - 2];
      last.close > last.open && last.volume > avg * VolumeSpike
  }

  /** The rebound decision once the hourly supports and the current price are known. */
  predicate ReboundAt(df: seq<Candle>, price: real, supports: seq<real>)
  {
    if supports == [] then false
    else match ClosestSupportBelow(supports, price)
      case None => false
      case Some(closest) => NearSupport(price, closest) && BullishVolumeConfirmation(df)
  }

  /**
   * `hourly` is the fetched one-hour series, None when the fetch failed;
   * `df` is the scan-timeframe series.
   */
  function AnalyzeSupportRebound(df: seq<Candle>, hourly: Option<seq<Candle>>): (r: Option<Signal>)
    ensures r.Some? ==> r.value == Signal(SupportRebound, Long)
  {
    if hourly.None? || |hourly.value| < MinHourlyCandles then None
    else
      var h := hourly.value;
      var price := h[|h| - 1].close;
      var supports := Levels.SupportLevels(Highs(h), Lows(h), HourlyPivotWindow);
      if ReboundAt(df, price, supports) then Some(Signal(SupportRebound, Long)) else None
  }

  /**
   * A positive rebound decision means: a support strictly below the price
   * with no other support between it and the price; for a positive support,
   * a price less than 1% above it; and a bullish closed candle whose volume
   * beats 1.5 times its 20-candle mean.
   */
  lemma ReboundAtMeans(df: seq<Candle>, price: real, supports: seq<real>)
    requires ReboundAt(df, price, supports)
    ensures |df| >= 21
    ensures exists c :: (c in supports && c < price
      && (forall s :: s in supports && s < price ==> s <= c)
      && (c > 0.0 ==> price < c * 1.01))
    ensures var last := df[|df| - 2];
      last.close > last.open && last.volume > Mean(Volumes(df)[|df| - 21..|df| - 1]) * 1.5
  {
    var c := ClosestSupportBelow(supports, price).value;
    assert NearSupport(price, c) && BullishVolumeConfirmation(df);
    forall s | s in supports && s < price ensures s <= c {
      var i :| 0 <= i < |supports| && supports[i] == s;
    }
    assert c in supports && c < price
      && (forall s :: s in supports && s < price ==> s <= c)
      && (c > 0.0 ==> price < c * 1.01);
  }

  /**
   * A rebound signal means: at least 50 hourly candles, and a positive
   * decision on the clustered hourly supports and the last hourly close.
   */
  lemma ReboundSignalMeans(df: seq<Candle>, hourly: Option<seq<Candle>>)
    requires AnalyzeSupportRebound(df, hourly).Some?
    ensures hourly.Some? && |hourly.value| >= 50 && |df| >= 21
    ensures var h := hourly.value;
      var price := h[|h| - 1].close;
      var supports := Levels.SupportLevels(Highs(h), Lows(h), HourlyPivotWindow);
      exists c :: c in supports && c < price
        && (forall s :: s in supports && s < price ==> s <= c)
        && (c > 0.0 ==> price < c * 1.01)
    ensures var last := df[|df| - 2];
      last.close > last.open && last.volume > Mean(Volumes(df)[|df| - 21..|df| - 1]) * 1.5
  {
    var h := hourly.value;
    ReboundAtMeans(df, h[|h| - 1].close, Levels.SupportLevels(Highs(h), Lows(h), HourlyPivotWindow));
  }

  // ---------------------------------------------------------------------------
  // The SCANNERS registry (strategies.py:204-210)
  // ---------------------------------------------------------------------------

  function ScannerName(s: Strategy): string
  {
    match s
    case MomentumBreakout => "momentum_breakout"
    case BreakoutSqueezePro => "breakout_squeeze_pro"
    case SupportRebound => "support_rebound"
    case WhaleRadar => "whale_radar"
    case SniperPro => "sniper_pro"
  }

  /** Looks a strategy up by its settings name. */
  function ScannerByName(name: string): (r: Option<Strategy>)
    ensures r.Some? ==> ScannerName(r.value) == name
    ensures r.None? ==> forall s :: ScannerName(s) != name
  {
    if name == "momentum_breakout" then Some(MomentumBreakout)
    else if name == "breakout_squeeze_pro" then Some(BreakoutSqueezePro)
    else if name == "support_rebound" then Some(SupportRebound)
    else if name == "whale_radar" then Some(WhaleRadar)
    else if name == "sniper_pro" then Some(SniperPro)
    else None
  }

  /** Every strategy is found again under its own name. */
  lemma ScannerNameRoundTrip(s: Strategy)
    ensures ScannerByName(ScannerName(s)) == Some(s)
  {
  }

  /** Everything one scan of one market hands to the evaluators. */
  datatype Snapshot = Snapshot(
    candles: seq<Candle>,
    momentum: Option<seq<MomentumReading>>,
    squeeze: Option<seq<SqueezeReading>>,
    hourly: Option<seq<Candle>>,
    bids: Option<seq<BidLevel>>,
    rvol: real,
    params: StrategyParams)

  datatype StrategyParams = StrategyParams(
    minRvol: real,
    rsiMaxLevel: real,
    volumeConfirmation: Option<bool>,
    compressionHours: Option<nat>,
    maxVolatilityPercent: Option<real>,
    wallThresholdUsdt: Option<real>)

  predicate Aligned(snap: Snapshot)
  {
    && (snap.momentum.Some? ==> |snap.momentum.value| == |snap.candles|)
    && (snap.squeeze.Some? ==> |snap.squeeze.value| == |snap.candles|)
  }

  /** Dispatch through the registry: each key runs its own evaluator. */
  function Evaluate(s: Strategy, snap: Snapshot): (r: Option<Signal>)
    requires Aligned(snap)
    ensures r.Some? ==> r.value.reason == s && r.value.direction == Long
  {
    var p := snap.params;
    match s
    case MomentumBreakout => AnalyzeMomentumBreakout(snap.candles, snap.momentum, p.rsiMaxLevel, snap.rvol, p.minRvol)
    case BreakoutSqueezePro => AnalyzeBreakoutSqueezePro(snap.candles, snap.squeeze, p.volumeConfirmation, snap.rvol, p.minRvol)
    case SupportRebound => AnalyzeSupportRebound(snap.candles, snap.hourly)
    case WhaleRadar => AnalyzeWhaleRadar(snap.bids, p.wallThresholdUsdt)
    case SniperPro =>
      var hours := if p.compressionHours.Some? then p.compressionHours.value else DefaultCompressionHours;
      AnalyzeSniperPro(snap.candles, hours, p.maxVolatilityPercent)
  }
}
