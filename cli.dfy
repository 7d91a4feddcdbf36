/**
 * The decisions the command line makes before it prints anything: which
 * market session a time of day falls in, which data provider a source name
 * selects, how a relative volume is labelled and styled, and how the scan
 * command's options override the screener settings. The clock and the
 * console are not modelled: the time of day is a parameter.
 */
module Cli {
  import opened Wrappers
  import Scoring

  // ---------------------------------------------------------------- market session

  const Overnight: string := "Overnight (market closed)"
  const PreMarket: string := "Pre-market"
  const MarketOpen: string := "Market open"
  const AfterHours: string := "After-hours"

  /** Minutes since midnight Eastern time. */
  function MinuteOfDay(hour: nat, minute: nat): (mins: nat)
    requires hour < 24 && minute < 60
    ensures mins < 1440
  {
    hour * 60 + minute
  }

  /** `_market_session` for the Eastern time `hour:minute`. */
  function MarketSession(hour: nat, minute: nat): (name: string)
    requires hour < 24 && minute < 60
    ensures name in [Overnight, PreMarket, MarketOpen, AfterHours]
  {
    var mins := MinuteOfDay(hour, minute);
    if mins < 4 * 60 then Overnight
    else if mins < 9 * 60 + 30 then PreMarket
    else if mins < 16 * 60 then MarketOpen
    else if mins < 20 * 60 then AfterHours
    else Overnight
  }

  /**
   * The sessions split the day: before 04:00 and from 20:00 on it is
   * overnight, 04:00-09:29 pre-market, 09:30-15:59 open and 16:00-19:59
   * after hours, and each minute gets exactly one of the four labels.
   */
  lemma SessionsPartitionDay(hour: nat, minute: nat)
    requires hour < 24 && minute < 60
    ensures var mins, name := hour * 60 + minute, MarketSession(hour, minute);
      (name == Overnight <==> mins < 240 || 1200 <= mins) &&
      (name == PreMarket <==> 240 <= mins < 570) &&
      (name == MarketOpen <==> 570 <= mins < 960) &&
      (name == AfterHours <==> 960 <= mins < 1200)
  {
    assert Overnight != PreMarket && Overnight != MarketOpen && Overnight != AfterHours;
    assert PreMarket != MarketOpen && PreMarket != AfterHours;
    assert MarketOpen[0] != AfterHours[0];
  }

  // ---------------------------------------------------------------- provider

  datatype Provider = MassiveProvider | YahooProvider

  /** `source or settings.data_source`: an absent or empty source falls back to the configured one. */
  function EffectiveSource(source: Option<string>, data_source: string): (s: string)
    ensures source.Some? && source.value != "" ==> s == source.value
    ensures source.None? || source.value == "" ==> s == data_source
  {
    if source.Some? && source.value != "" then source.value else data_source
  }

  /** `get_provider`: Massive for the source name "massive", Yahoo for any other. */
  function GetProvider(source: Option<string>, data_source: string): (p: Provider)
    ensures p == MassiveProvider <==> EffectiveSource(source, data_source) == "massive"
  {
    if EffectiveSource(source, data_source) == "massive" then MassiveProvider else YahooProvider
  }

  /** A source given on the command line wins over the configured one; none given, the configuration decides. */
  lemma ExplicitSourceWins(source: string, data_source: string)
    requires source != ""
    ensures GetProvider(Some(source), data_source) == GetProvider(Some(source), "yahoo")
    ensures GetProvider(None, data_source) == GetProvider(Some(""), data_source)
    ensures GetProvider(None, data_source) == MassiveProvider <==> data_source == "massive"
  {
  }

  // ---------------------------------------------------------------- relative volume

  const Extreme: string := "EXTREME"
  const High: string := "HIGH"
  const AboveAvg: string := "ABOVE AVG"
  const Normal: string := "NORMAL"
  const BelowAvg: string := "BELOW AVG"

  /** The label printed after the relative volume; `None` is NaN, which fails every comparison. */
  function RvolLabel(rvol: Option<real>): (name: string)
    ensures name in [Extreme, High, AboveAvg, Normal, BelowAvg]
  {
    if rvol.None? then BelowAvg
    else if rvol.value >= 3.0 then Extreme
    else if rvol.value >= 2.0 then High
    else if rvol.value >= 1.5 then AboveAvg
    else if rvol.value >= 1.0 then Normal
    else BelowAvg
  }

  /** The style the relative volume figure itself is printed in. */
  function RvolStyle(rvol: Option<real>): (style: string)
    ensures style in ["bold green", "green", "yellow", "red"]
  {
    if rvol.None? then "red"
    else if rvol.value >= 2.0 then "bold green"
    else if rvol.value >= 1.5 then "green"
    else if rvol.value >= 1.0 then "yellow"
    else "red"
  }

  /** Position of a label on the ladder, BELOW AVG lowest. */
  function LabelRank(name: string): nat {
    if name == Extreme then 4
    else if name == High then 3
    else if name == AboveAvg then 2
    else if name == Normal then 1
    else 0
  }

  /** The ladder's thresholds, each label owning a half-open band; NaN is below average. */
  lemma RvolLadder(rvol: real)
    ensures var name := RvolLabel(Some(rvol));
      (name == Extreme <==> rvol >= 3.0) &&
      (name == High <==> 2.0 <= rvol < 3.0) &&
      (name == AboveAvg <==> 1.5 <= rvol < 2.0) &&
      (name == Normal <==> 1.0 <= rvol < 1.5) &&
      (name == BelowAvg <==> rvol < 1.0)
    ensures RvolLabel(None) == BelowAvg
  {
    assert Extreme != High && Extreme != AboveAvg && Extreme != Normal && Extreme != BelowAvg;
    assert High != AboveAvg && High != Normal && High != BelowAvg;
    assert AboveAvg != Normal && AboveAvg != BelowAvg && Normal != BelowAvg;
  }

  /** A larger relative volume never gets a lower label. */
  lemma RvolLabelMonotone(a: real, b: real)
    requires a <= b
    ensures LabelRank(RvolLabel(Some(a))) <= LabelRank(RvolLabel(Some(b)))
  {
    RvolLadder(a);
    RvolLadder(b);
  }

  /**
   * The two ladders agree: the figure is bold green exactly when the label
   * is HIGH or EXTREME, green for ABOVE AVG, yellow for NORMAL and red for
   * BELOW AVG.
   */
  lemma StyleMatchesLabel(rvol: Option<real>)
    ensures var style, name := RvolStyle(rvol), RvolLabel(rvol);
      (style == "bold green" <==> name == Extreme || name == High) &&
      (style == "green" <==> name == AboveAvg) &&
      (style == "yellow" <==> name == Normal) &&
      (style == "red" <==> name == BelowAvg)
  {
    if rvol.Some? {
      RvolLadder(rvol.value);
    }
  }

  /**
   * The relative-volume line: nothing when the row has no `relative_volume`,
   * otherwise the figure's style and the label.
   */
  function RvolLine(latest: Scoring.Row): (r: Option<(string, string)>)
    ensures r.None? <==> "relative_volume" !in latest
    ensures r.Some? ==> r.value.1 in [Extreme, High, AboveAvg, Normal, BelowAvg]
  {
    if "relative_volume" !in latest then None
    else Some((RvolStyle(latest["relative_volume"]), RvolLabel(latest["relative_volume"])))
  }

  // ---------------------------------------------------------------- scan overrides

  /** The screener section of the settings, with its defaults. */
  class ScreenerSettings {
    var min_gap_pct: real
    var min_premarket_volume: int
    var min_price: real
    var max_price: real
    var min_avg_volume: int
    var max_results: int

    constructor()
      ensures min_gap_pct == 2.0 && min_premarket_volume == 200000 && min_price == 2.0
      ensures max_price == 200.0 && min_avg_volume == 500000 && max_results == 20
    {
      min_gap_pct := 2.0;
      min_premarket_volume := 200000;
      min_price := 2.0;
      max_price := 200.0;
      min_avg_volume := 500000;
      max_results := 20;
    }

    /** The scan command's overrides: each option given replaces its setting, the rest stay. */
    method ApplyOverrides(min_gap: Option<real>, min_volume: Option<int>, max_price_opt: Option<real>)
      modifies this
      ensures min_gap_pct == if min_gap.Some? then min_gap.value else old(min_gap_pct)
      ensures min_premarket_volume == if min_volume.Some? then min_volume.value else old(min_premarket_volume)
      ensures max_price == if max_price_opt.Some? then max_price_opt.value else old(max_price)
      ensures min_price == old(min_price) && min_avg_volume == old(min_avg_volume) && max_results == old(max_results)
    {
      if min_gap.Some? {
        min_gap_pct := min_gap.value;
      }
      if min_volume.Some? {
        min_premarket_volume := min_volume.value;
      }
      if max_price_opt.Some? {
        max_price := max_price_opt.value;
      }
    }
  }
}
