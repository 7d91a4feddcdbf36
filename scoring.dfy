/**
 * The composite scoring engine: momentum, trend and volume sub-scores, each
 * a neutral 50 moved by fixed integer adjustments and clamped to [0, 100],
 * then a weighted total and a letter grade. `round(x, 1)` is the parameter
 * `round1`.
 */
module Scoring {
  import opened Wrappers

  /**
   * An indicator row. A key that is absent is missing (the lookup's default
   * applies); a key mapped to `None` holds NaN.
   */
  type Row = map<string, Option<real>>

  /** `row.get(key, default)`. */
  function Get(row: Row, key: string, default: Option<real>): Option<real> {
    if key in row then row[key] else default
  }

  /** `max(0, min(100, x))`. */
  function Clamp(x: int): (r: int)
    ensures 0 <= r <= 100
    ensures 0 <= x <= 100 ==> r == x
    ensures x > 100 ==> r == 100
    ensures x < 0 ==> r == 0
  {
    if x > 100 then 100 else if x < 0 then 0 else x
  }

  // ---------------------------------------------------------------- momentum

  function RsiAdjust(rsi: Option<real>): int {
    match rsi
    case None => 0
    case Some(r) =>
      if 40.0 <= r <= 60.0 then 15
      else if 30.0 <= r < 40.0 then 20
      else if r < 30.0 then 10
      else if 60.0 < r <= 70.0 then 10
      else if r > 70.0 then -10
      else 0
  }

  function MacdAdjust(hist: Option<real>): int {
    match hist
    case None => 0
    case Some(h) => if h > 0.0 then 15 else -10
  }

  function StochAdjust(k: Option<real>, d: Option<real>): int {
    if k.None? || d.None? then 0
    else if k.value > d.value && k.value < 80.0 then 10
    else if k.value < d.value && k.value > 20.0 then -5
    else 0
  }

  function RocAdjust(roc: Option<real>): int {
    match roc
    case None => 0
    case Some(r) => if r > 5.0 then 10 else if r > 0.0 then 5 else if r < -5.0 then -10 else 0
  }

  /** The momentum score before clamping. */
  function RawMomentum(row: Row): int {
    50 + RsiAdjust(Get(row, "rsi", Some(50.0))) + MacdAdjust(Get(row, "macd_histogram", Some(0.0))) +
    StochAdjust(Get(row, "stoch_k", Some(50.0)), Get(row, "stoch_d", Some(50.0))) +
    RocAdjust(Get(row, "roc_10", Some(0.0)))
  }

  function MomentumScore(row: Row): int {
    Clamp(RawMomentum(row))
  }

  /** Every RSI that is a number lands in one of the five bands, and each band moves the score. */
  lemma RsiBandsCover(rsi: real)
    ensures RsiAdjust(Some(rsi)) in {15, 20, 10, -10}
  {
  }

  /**
   * The momentum score lies in [15, 100]: the adjustments can reach 105,
   * which is clamped, but never fall below 15.
   */
  lemma MomentumBounds(row: Row)
    ensures 15 <= RawMomentum(row) <= 105
    ensures 15 <= MomentumScore(row) <= 100
    ensures RawMomentum(row) <= 100 ==> MomentumScore(row) == RawMomentum(row)
  {
  }

  /**
   * `score_momentum`: starts at 50 and adds the RSI, MACD histogram,
   * stochastic and rate-of-change adjustments in turn, then clamps.
   */
  method ScoreMomentum(row: Row) returns (score: int)
    ensures score == MomentumScore(row)
  {
    score := 50;
    var rsi := Get(row, "rsi", Some(50.0));
    if rsi.Some? {
      var r := rsi.value;
      if 40.0 <= r <= 60.0 {
        score := score + 15;
      } else if 30.0 <= r < 40.0 {
        score := score + 20;
      } else if r < 30.0 {
        score := score + 10;
      } else if 60.0 < r <= 70.0 {
        score := score + 10;
      } else if r > 70.0 {
        score := score - 10;
      }
    }
    assert score == 50 + RsiAdjust(rsi);
    var hist := Get(row, "macd_histogram", Some(0.0));
    if hist.Some? {
      if hist.value > 0.0 {
        score := score + 15;
      } else {
        score := score - 10;
      }
    }
    assert score == 50 + RsiAdjust(rsi) + MacdAdjust(hist);
    var k, d := Get(row, "stoch_k", Some(50.0)), Get(row, "stoch_d", Some(50.0));
    if k.Some? && d.Some? {
      if k.value > d.value && k.value < 80.0 {
        score := score + 10;
      } else if k.value < d.value && k.value > 20.0 {
        score := score - 5;
      }
    }
    assert score == 50 + RsiAdjust(rsi) + MacdAdjust(hist) + StochAdjust(k, d);
    var roc := Get(row, "roc_10", Some(0.0));
    if roc.Some? {
      if roc.value > 5.0 {
        score := score + 10;
      } else if roc.value > 0.0 {
        score := score + 5;
      } else if roc.value < -5.0 {
        score := score - 10;
      }
    }
    score := Clamp(score);
  }

  // ---------------------------------------------------------------- trend

  /** The moving averages the close is compared with, in order. */
  const MaColumns: seq<string> := ["ema_9", "ema_20", "sma_50", "sma_200"]

  /** A present, positive moving average adds 5 when the close is above it and takes 5 otherwise. */
  function MaAdjust(close: real, ma: Option<real>): int {
    if ma.Some? && ma.value > 0.0 then (if close > ma.value then 5 else -5) else 0
  }

  function MaAdjustments(close: real, row: Row, cols: seq<string>): int
    decreases |cols|
  {
    if cols == [] then 0
    else MaAdjustments(close, row, cols[..|cols| - 1]) + MaAdjust(close, Get(row, cols[|cols| - 1], None))
  }

  /** EMA 9 over EMA 20 over SMA 50 adds 15; the reverse order takes 10. */
  function AlignAdjust(ema9: Option<real>, ema20: Option<real>, sma50: Option<real>): int {
    if ema9.None? || ema20.None? || sma50.None? then 0
    else if ema9.value > ema20.value > sma50.value then 15
    else if ema9.value < ema20.value < sma50.value then -10
    else 0
  }

  /** The close counts only when it is a non-zero number. */
  predicate HasClose(row: Row) {
    var close := Get(row, "close", Some(0.0));
    close.Some? && close.value != 0.0
  }

  function RawTrend(row: Row): int {
    if !HasClose(row) then 50
    else
      var close := Get(row, "close", Some(0.0)).value;
      50 + MaAdjustments(close, row, MaColumns) +
      AlignAdjust(Get(row, "ema_9", None), Get(row, "ema_20", None), Get(row, "sma_50", None))
  }

  function TrendScore(row: Row): int {
    Clamp(RawTrend(row))
  }

  lemma {:induction false} MaAdjustmentsBounds(close: real, row: Row, cols: seq<string>)
    ensures -5 * |cols| <= MaAdjustments(close, row, cols) <= 5 * |cols|
    decreases |cols|
  {
    if cols != [] {
      MaAdjustmentsBounds(close, row, cols[..|cols| - 1]);
    }
  }

  /**
   * The trend score lies in [20, 85] and is never clamped; without a usable
   * close it is the neutral 50.
   */
  lemma TrendBounds(row: Row)
    ensures 20 <= TrendScore(row) <= 85 && TrendScore(row) == RawTrend(row)
    ensures !HasClose(row) ==> TrendScore(row) == 50
  {
    if HasClose(row) {
      MaAdjustmentsBounds(Get(row, "close", Some(0.0)).value, row, MaColumns);
    }
  }

  /** A close above all four positive averages, stacked EMA 9 > EMA 20 > SMA 50, scores the maximum 85. */
  lemma BullishTrend(row: Row, close: real, e9: real, e20: real, s50: real, s200: real)
    requires Get(row, "close", Some(0.0)) == Some(close) && close != 0.0
    requires Get(row, "ema_9", None) == Some(e9) && Get(row, "ema_20", None) == Some(e20)
    requires Get(row, "sma_50", None) == Some(s50) && Get(row, "sma_200", None) == Some(s200)
    requires close > e9 > e20 > s50 > 0.0 && close > s200 > 0.0
    ensures TrendScore(row) == 85
  {
    var c1, c2, c3 := ["ema_9"], ["ema_9", "ema_20"], ["ema_9", "ema_20", "sma_50"];
    assert c1[..0] == [] && c2[..1] == c1 && c3[..2] == c2 && MaColumns[..3] == c3;
    assert MaAdjustments(close, row, c1) == 5;
    assert MaAdjustments(close, row, c2) == 10;
    assert MaAdjustments(close, row, c3) == 15;
    assert MaAdjustments(close, row, MaColumns) == 20;
  }

  /**
   * `score_trend`: 50 without a usable close; otherwise each moving average
   * in turn moves the score, then their alignment does, then it is clamped.
   */
  method ScoreTrend(row: Row) returns (score: int)
    ensures score == TrendScore(row)
  {
    score := 50;
    var close := Get(row, "close", Some(0.0));
    if close.None? || close.value == 0.0 {
      return score;
    }
    var i := 0;
    while i < |MaColumns|
      invariant 0 <= i <= |MaColumns|
      invariant score == 50 + MaAdjustments(close.value, row, MaColumns[..i])
    {
      assert MaColumns[..i + 1][..i] == MaColumns[..i];
      var ma := Get(row, MaColumns[i], None);
      if ma.Some? && ma.value > 0.0 {
        if close.value > ma.value {
          score := score + 5;
        } else {
          score := score - 5;
        }
      }
      i := i + 1;
    }
    assert MaColumns[..i] == MaColumns;
    var ema9, ema20, sma50 := Get(row, "ema_9", None), Get(row, "ema_20", None), Get(row, "sma_50", None);
    if ema9.Some? && ema20.Some? && sma50.Some? {
      if ema9.value > ema20.value > sma50.value {
        score := score + 15;
      } else if ema9.value < ema20.value < sma50.value {
        score := score - 10;
      }
    }
    score := Clamp(score);
  }

  // ---------------------------------------------------------------- volume

  function RvolAdjust(rvol: Option<real>): int {
    match rvol
    case None => 0
    case Some(r) => if r > 3.0 then 25 else if r > 2.0 then 20 else if r > 1.5 then 10 else if r < 0.5 then -15 else 0
  }

  /**
   * Against a present, positive VWAP a truthy close (any non-zero number,
   * or NaN) adds 10 when above it and takes 5 otherwise; NaN is never above.
   */
  function VwapAdjust(close: Option<real>, vwap: Option<real>): int {
    var truthy := close.None? || close.value != 0.0;
    if vwap.Some? && vwap.value > 0.0 && truthy then
      (if close.Some? && close.value > vwap.value then 10 else -5)
    else 0
  }

  function RawVolume(row: Row): int {
    50 + RvolAdjust(Get(row, "relative_volume", None)) +
    VwapAdjust(Get(row, "close", Some(0.0)), Get(row, "vwap", None))
  }

  function VolumeScore(row: Row): int {
    Clamp(RawVolume(row))
  }

  /** The volume score lies in [30, 85] and is never clamped. */
  lemma VolumeBounds(row: Row)
    ensures 30 <= VolumeScore(row) <= 85 && VolumeScore(row) == RawVolume(row)
  {
  }

  /** A NaN close against a positive VWAP counts as below it. */
  lemma NaNCloseBelowVwap(vwap: real)
    requires vwap > 0.0
    ensures VwapAdjust(None, Some(vwap)) == -5
  {
  }

  /** `score_volume`: relative volume, then price against VWAP, then the clamp. */
  method ScoreVolume(row: Row) returns (score: int)
    ensures score == VolumeScore(row)
  {
    score := 50;
    var rvol := Get(row, "relative_volume", None);
    if rvol.Some? {
      if rvol.value > 3.0 {
        score := score + 25;
      } else if rvol.value > 2.0 {
        score := score + 20;
      } else if rvol.value > 1.5 {
        score := score + 10;
      } else if rvol.value < 0.5 {
        score := score - 15;
      }
    }
    var close := Get(row, "close", Some(0.0));
    var vwap := Get(row, "vwap", None);
    if vwap.Some? && vwap.value > 0.0 && (close.None? || close.value != 0.0) {
      if close.Some? && close.value > vwap.value {
        score := score + 10;
      } else {
        score := score - 5;
      }
    }
    score := Clamp(score);
  }

  // ---------------------------------------------------------------- composite

  datatype Composite = Composite(total: real, momentum: real, trend: real, volume: real, grade: string)

  /** A for 80 and up, B for 65 and up, C for 50 and up, F below. */
  function Grade(total: real): (g: string)
    ensures g in ["A", "B", "C", "F"]
  {
    if total >= 80.0 then "A" else if total >= 65.0 then "B" else if total >= 50.0 then "C" else "F"
  }

  function GradeRank(g: string): int {
    if g == "A" then 3 else if g == "B" then 2 else if g == "C" then 1 else 0
  }

  /** A higher total never earns a worse grade. */
  lemma GradeMonotone(a: real, b: real)
    requires a <= b
    ensures GradeRank(Grade(a)) <= GradeRank(Grade(b))
  {
  }

  /** The weight under `key`, or its default when no weights are given or the key is absent. */
  function Weight(weights: Option<map<string, real>>, key: string, default: real): real {
    if weights.Some? && key in weights.value then weights.value[key] else default
  }

  /** `compute_composite_score`. */
  function ComputeCompositeScore(row: Row, weights: Option<map<string, real>>, round1: real -> real): (c: Composite)
    ensures c.grade == Grade(c.total)
    ensures c.momentum == round1(MomentumScore(row) as real)
    ensures c.trend == round1(TrendScore(row) as real)
    ensures c.volume == round1(VolumeScore(row) as real)
  {
    var momentum := MomentumScore(row) as real;
    var trend := TrendScore(row) as real;
    var volume := VolumeScore(row) as real;
    var total := round1(momentum * Weight(weights, "momentum", 0.35) + trend * Weight(weights, "trend", 0.35) +
                        volume * Weight(weights, "volume", 0.30));
    Composite(total, round1(momentum), round1(trend), round1(volume), Grade(total))
  }

  /**
   * With the default weights (they sum to one) and a rounding that keeps
   * order and fixes 0 and 100, the total lies in [0, 100].
   */
  lemma DefaultTotalInRange(row: Row, round1: real -> real)
    requires forall x: real, y: real {:trigger round1(x), round1(y)} :: x <= y ==> round1(x) <= round1(y)
    requires round1(0.0) == 0.0 && round1(100.0) == 100.0
    ensures 0.0 <= ComputeCompositeScore(row, None, round1).total <= 100.0
  {
    MomentumBounds(row);
    TrendBounds(row);
    VolumeBounds(row);
    var m, t, v := MomentumScore(row) as real, TrendScore(row) as real, VolumeScore(row) as real;
    var raw := m * 0.35 + t * 0.35 + v * 0.30;
    assert 0.0 <= raw <= 100.0;
    assert round1(0.0) <= round1(raw) <= round1(100.0);
  }
}
