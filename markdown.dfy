/**
 * The Markdown reports: a scan table, a single ticker's analysis and the
 * daily report that combines the scan with the ranking. Each report is a
 * list of lines built up one append at a time and joined with newlines.
 * The clock's formatted readings are parameters, and so are the fixed-point
 * renderings of finite floats; NaN is `None` and renders as Python does.
 */
module Markdown {
  import opened Wrappers
  import opened Text
  import opened Frames
  import Scoring
  import Levels
  import Terminal

  /** The renderings `:.2f`, `:+.1f`, `:.1f` and `:.0f` of a finite float. */
  datatype Formats = Formats(fixed2: real -> string, signed1: real -> string, fixed1: real -> string, fixed0: real -> string)

  function Fixed2(fm: Formats, x: Option<real>): string {
    if x.None? then "nan" else fm.fixed2(x.value)
  }

  function Signed1(fm: Formats, x: Option<real>): string {
    if x.None? then "+nan" else fm.signed1(x.value)
  }

  function Fixed0(fm: Formats, x: Option<real>): string {
    if x.None? then "nan" else fm.fixed0(x.value)
  }

  /** `_fmt_vol`, written out again next to the reports: the same branches as the terminal's volume rendering. */
  function FmtVol(vol: Option<real>, fixed1: real -> string, fixed0: real -> string): (s: string)
    ensures s == Terminal.FormatVolume(vol, fixed1, fixed0)
  {
    if vol.None? || vol.value == 0.0 then "-"
    else if vol.value >= 1000000.0 then fixed1(vol.value / 1000000.0) + "M"
    else if vol.value >= 1000.0 then fixed0(vol.value / 1000.0) + "K"
    else Terminal.IntText(Terminal.Trunc(vol.value))
  }

  function Vol(fm: Formats, vol: Option<real>): string {
    FmtVol(vol, fm.fixed1, fm.fixed0)
  }

  /** A line of a Markdown table. */
  predicate IsTableLine(line: string) {
    |line| > 0 && line[0] == '|'
  }

  // ---------------------------------------------------------------- scan report

  /** `df.empty`: no rows, or no columns. */
  predicate Empty(df: DataFrame) {
    |df.rows| == 0 || df.columns == {}
  }

  /** `row.get(col, default)`: the default when the frame lacks the column, NaN for a missing cell. */
  function Cell(df: DataFrame, r: Row, col: string, default: real): Option<real> {
    if col !in df.columns then Some(default)
    else if col in r.values then Some(r.values[col])
    else None
  }

  /**
   * `row.get("pre_price") or row.get("price", 0)`: the pre-market price
   * unless the column is absent or the price is zero; NaN is truthy and
   * stays.
   */
  function ScanPrice(df: DataFrame, r: Row): Option<real> {
    if "pre_price" in df.columns && !("pre_price" in r.values && r.values["pre_price"] == 0.0)
    then Cell(df, r, "pre_price", 0.0)
    else Cell(df, r, "price", 0.0)
  }

  function Ticker(df: DataFrame, r: Row): string {
    if "ticker" in df.columns then r.ticker else ""
  }

  /** The table's header and alignment rule, each written in two halves. */
  const ScanTableHeader: string := "| # | Ticker | Price | Gap% |" + " PreMkt Vol | Avg Vol |"
  const ScanTableRule: string := "|---|--------|------:|-----:|" + "-----------:|--------:|"
  const NoCandidates: string := "No candidates found."

  /** The first two cells of a numbered table row: the number and the ticker in bold. */
  function RowStart(i: nat, ticker: string): string {
    "| " + NatToString(i + 1) + " | **" + ticker + "** |"
  }

  /** The table row of the frame's `i`-th row (the frames are reindexed from zero). */
  function ScanRowLine(i: nat, df: DataFrame, r: Row, fm: Formats): string {
    RowStart(i, Ticker(df, r)) +
    (" $" + Fixed2(fm, ScanPrice(df, r)) + " | " + Signed1(fm, Cell(df, r, "gap_pct", 0.0)) + "% | " +
     Vol(fm, Cell(df, r, "pre_volume", 0.0)) + " | " + Vol(fm, Cell(df, r, "avg_volume", 0.0)) + " |")
  }

  function ScanRows(df: DataFrame, fm: Formats): seq<string> {
    seq(|df.rows|, i requires 0 <= i < |df.rows| => ScanRowLine(i, df, df.rows[i], fm))
  }

  function ScanHeader(title: string, now: string): seq<string> {
    ["# " + title, "*Generated: " + now + "*", ""]
  }

  /** The lines of `generate_scan_report`. */
  function ScanLines(df: DataFrame, title: string, now: string, fm: Formats): seq<string> {
    ScanHeader(title, now) +
    if Empty(df) then [NoCandidates] else [ScanTableHeader, ScanTableRule] + ScanRows(df, fm)
  }

  /** `generate_scan_report`, with `now` the timestamp as `%Y-%m-%d %I:%M %p ET` renders it. */
  method ScanReport(df: DataFrame, title: string, now: string, fm: Formats) returns (report: string)
    ensures report == Join(ScanLines(df, title, now, fm), '\n')
  {
    var lines := ScanHeader(title, now);
    if Empty(df) {
      lines := lines + [NoCandidates];
      assert lines == ScanLines(df, title, now, fm);
      return Join(lines, '\n');
    }
    lines := lines + [ScanTableHeader];
    lines := lines + [ScanTableRule];
    assert lines == ScanHeader(title, now) + [ScanTableHeader, ScanTableRule] + ScanRows(df, fm)[..0];
    var i := 0;
    while i < |df.rows|
      invariant 0 <= i <= |df.rows|
      invariant lines == ScanHeader(title, now) + [ScanTableHeader, ScanTableRule] + ScanRows(df, fm)[..i]
    {
      lines := lines + [ScanRowLine(i, df, df.rows[i], fm)];
      i := i + 1;
    }
    assert ScanRows(df, fm)[..i] == ScanRows(df, fm);
    assert lines == ScanLines(df, title, now, fm);
    report := Join(lines, '\n');
  }

  lemma TableLinesMarked()
    ensures IsTableLine(ScanTableHeader) && IsTableLine(ScanTableRule) && !IsTableLine(NoCandidates)
  {
  }

  /**
   * An empty frame gives the title, the timestamp, a blank line and the
   * no-candidates note, with no table line; otherwise every line from the
   * fourth on is a table line: the header, the rule, and one row per frame
   * row, the `i`-th numbered `i + 1` and naming its ticker.
   */
  lemma ScanReportShape(df: DataFrame, title: string, now: string, fm: Formats)
    ensures var lines := ScanLines(df, title, now, fm);
      lines[0] == "# " + title && lines[1] == "*Generated: " + now + "*" && lines[2] == "" &&
      (Empty(df) ==> |lines| == 4 && lines[3] == NoCandidates) &&
      (!Empty(df) ==> |lines| == |df.rows| + 5 && lines[3] == ScanTableHeader && lines[4] == ScanTableRule) &&
      (forall k | 0 <= k < |lines| :: IsTableLine(lines[k]) <==> 3 <= k && !Empty(df))
    ensures !Empty(df) ==> forall i | 0 <= i < |df.rows| ::
      StartsWith(ScanLines(df, title, now, fm)[i + 5], RowStart(i, Ticker(df, df.rows[i])))
  {
    var lines := ScanLines(df, title, now, fm);
    assert ("# " + title)[0] == '#';
    assert ("*Generated: " + now + "*")[0] == '*';
    TableLinesMarked();
    if !Empty(df) {
      forall i | 0 <= i < |df.rows|
        ensures IsTableLine(lines[i + 5])
        ensures StartsWith(lines[i + 5], RowStart(i, Ticker(df, df.rows[i])))
      {
        var start := RowStart(i, Ticker(df, df.rows[i]));
        assert start[0] == '|';
        assert lines[i + 5] == ScanRowLine(i, df, df.rows[i], fm) == start + lines[i + 5][|start|..];
        PrefixOfAppend(start, lines[i + 5][|start|..]);
      }
    }
  }

  lemma PrefixOfAppend(a: string, b: string)
    ensures StartsWith(a + b, a)
    ensures |a| > 0 ==> (a + b)[0] == a[0]
  {
    assert (a + b)[0..|a|] == a;
  }

  /** No line break in a string. */
  predicate OneLine(s: string) {
    '\n' !in s
  }

  /** None of the renderings ever breaks a line. */
  ghost predicate FormatsOneLine(fm: Formats) {
    (forall x :: OneLine(fm.fixed2(x))) && (forall x :: OneLine(fm.signed1(x))) &&
    (forall x :: OneLine(fm.fixed1(x))) && (forall x :: OneLine(fm.fixed0(x)))
  }

  lemma RenderingsOneLine(fm: Formats, y: real)
    requires FormatsOneLine(fm)
    ensures OneLine(fm.fixed2(y)) && OneLine(fm.signed1(y)) && OneLine(fm.fixed1(y)) && OneLine(fm.fixed0(y))
  {
  }

  lemma VolOneLine(fm: Formats, vol: Option<real>)
    requires FormatsOneLine(fm)
    ensures OneLine(Vol(fm, vol))
  {
    if vol.Some? {
      RenderingsOneLine(fm, vol.value / 1000000.0);
      RenderingsOneLine(fm, vol.value / 1000.0);
    }
    if vol.Some? && vol.value != 0.0 && vol.value < 1000.0 {
      var n := Terminal.Trunc(vol.value);
      var m: nat := if n >= 0 then n else -n;
      DigitsOneLine(m);
    }
  }

  lemma DigitsOneLine(n: nat)
    ensures OneLine(NatToString(n)) && OneLine("-" + NatToString(n))
  {
    var s := NatToString(n);
    assert forall t | 0 <= t < |s| :: IsDigit(s[t]);
  }

  lemma CellsOneLine(fm: Formats, x: Option<real>)
    requires FormatsOneLine(fm)
    ensures OneLine(Fixed2(fm, x)) && OneLine(Signed1(fm, x)) && OneLine(Fixed0(fm, x))
  {
    assert OneLine("nan") && OneLine("+nan");
    if x.Some? {
      RenderingsOneLine(fm, x.value);
    }
  }

  lemma FixedLinesOneLine()
    ensures OneLine(ScanTableHeader) && OneLine(ScanTableRule) && OneLine(NoCandidates) && OneLine("")
  {
    HeaderOneLine();
    RuleOneLine();
  }

  lemma HeaderOneLine()
    ensures OneLine(ScanTableHeader)
  {
    assert OneLine("| # | Ticker | Price | Gap% |");
    assert OneLine(" PreMkt Vol | Avg Vol |");
    OneLineConcat("| # | Ticker | Price | Gap% |", " PreMkt Vol | Avg Vol |");
  }

  lemma RuleOneLine()
    ensures OneLine(ScanTableRule)
  {
    assert OneLine("|---|--------|------:|-----:|");
    assert OneLine("-----------:|--------:|");
    OneLineConcat("|---|--------|------:|-----:|", "-----------:|--------:|");
  }

  /** Two pieces without a line break join into one line. */
  lemma OneLineConcat(a: string, b: string)
    requires OneLine(a) && OneLine(b)
    ensures OneLine(a + b)
  {
  }

  lemma ScanRowOneLine(i: nat, df: DataFrame, r: Row, fm: Formats)
    requires FormatsOneLine(fm) && OneLine(r.ticker)
    ensures OneLine(ScanRowLine(i, df, r, fm))
  {
    DigitsOneLine(i + 1);
    CellsOneLine(fm, ScanPrice(df, r));
    CellsOneLine(fm, Cell(df, r, "gap_pct", 0.0));
    VolOneLine(fm, Cell(df, r, "pre_volume", 0.0));
    VolOneLine(fm, Cell(df, r, "avg_volume", 0.0));
  }

  /**
   * A report whose title, timestamp, tickers and renderings hold no line
   * break reads back, split at its newlines, as exactly its lines.
   */
  lemma ScanReportReadsBack(df: DataFrame, title: string, now: string, fm: Formats)
    requires OneLine(title) && OneLine(now) && FormatsOneLine(fm)
    requires forall i | 0 <= i < |df.rows| :: OneLine(df.rows[i].ticker)
    ensures Split(Join(ScanLines(df, title, now, fm), '\n'), '\n') == ScanLines(df, title, now, fm)
  {
    var lines := ScanLines(df, title, now, fm);
    FixedLinesOneLine();
    assert OneLine("# " + title) && OneLine("*Generated: " + now + "*");
    forall k | 0 <= k < |lines|
      ensures OneLine(lines[k])
    {
      if k >= 5 && !Empty(df) {
        ScanRowOneLine(k - 5, df, df.rows[k - 5], fm);
        assert lines[k] == ScanRowLine(k - 5, df, df.rows[k - 5], fm);
      }
    }
    SplitJoin(lines, '\n');
  }

  // ---------------------------------------------------------------- analysis report

  /** The quote: its name, if any, and its numeric fields (absent keys take their defaults). */
  datatype Quote = Quote(name: Option<string>, fields: Scoring.Row)

  function QuoteValue(q: Quote, key: string): Option<real> {
    Scoring.Get(q.fields, key, Some(0.0))
  }

  /** The ticker's heading, price, volume and score lines. */
  function AnalysisHeader(ticker: string, score: Scoring.Composite, quote: Quote, fm: Formats): seq<string> {
    [
      "## " + ticker + " \U{2014} " + (if quote.name.Some? then quote.name.value else ""),
      "",
      "**Price:** $" + Fixed2(fm, QuoteValue(quote, "price")) + "  ",
      "**Volume:** " + Vol(fm, QuoteValue(quote, "volume")) + " (avg: " + Vol(fm, QuoteValue(quote, "avg_volume")) + ")",
      "",
      "### Score: " + Fixed0(fm, Some(score.total)) + "/100 (" + score.grade + ")",
      "- Momentum: " + Fixed0(fm, Some(score.momentum)),
      "- Trend: " + Fixed0(fm, Some(score.trend)),
      "- Volume: " + Fixed0(fm, Some(score.volume)),
      ""
    ]
  }

  const KeyLevelsHeading: string := "### Key Levels"

  /** The bullet and bold tag that open a level's line. */
  function LevelTag(tag: string): string {
    "- **" + tag + "** "
  }

  function LevelLine(tag: string, l: Levels.Level, fm: Formats): string {
    LevelTag(tag) + ("$" + fm.fixed2(l.level) + " (strength: " + NatToString(l.strength) + ")")
  }

  /** A line listing a level of the given kind. */
  predicate IsLevelLine(tag: string, line: string) {
    StartsWith(line, LevelTag(tag))
  }

  /** A one-letter level tag puts a '*' third; a line without one there is no level line. */
  lemma NotLevelLine(tag: string, line: string)
    requires |tag| == 1
    requires |line| < 3 || line[2] != '*'
    ensures !IsLevelLine(tag, line)
  {
    assert |LevelTag(tag)| == 8 && LevelTag(tag)[2] == '*';
  }

  function LevelLines(tag: string, ls: seq<Levels.Level>, fm: Formats): seq<string> {
    seq(|ls|, k requires 0 <= k < |ls| => LevelLine(tag, ls[k], fm))
  }

  /** `levels[:3]`. */
  function FirstThree(ls: seq<Levels.Level>): (r: seq<Levels.Level>)
    ensures |r| == if |ls| < 3 then |ls| else 3
    ensures r == ls[..|r|]
  {
    if |ls| <= 3 then ls else ls[..3]
  }

  function KeyLevels(sr: Levels.SupportResistance, fm: Formats): seq<string> {
    if |sr.resistance| > 0 || |sr.support| > 0 then
      [KeyLevelsHeading] + LevelLines("R", FirstThree(sr.resistance), fm) +
      LevelLines("S", FirstThree(sr.support), fm) + [""]
    else []
  }

  /** The lines of `generate_analysis_report`. */
  function AnalysisLines(ticker: string, score: Scoring.Composite, sr: Levels.SupportResistance,
                         quote: Quote, fm: Formats): seq<string> {
    AnalysisHeader(ticker, score, quote, fm) + KeyLevels(sr, fm)
  }

  /** The loop `for l in levels[:3]: lines.append(...)`, once for each kind of level. */
  method AppendLevels(lines: seq<string>, tag: string, levels: seq<Levels.Level>, fm: Formats) returns (out: seq<string>)
    ensures out == lines + LevelLines(tag, FirstThree(levels), fm)
  {
    out := lines;
    var top := FirstThree(levels);
    var i := 0;
    while i < |top|
      invariant 0 <= i <= |top|
      invariant out == lines + LevelLines(tag, top, fm)[..i]
    {
      out := out + [LevelLine(tag, top[i], fm)];
      i := i + 1;
    }
    assert LevelLines(tag, top, fm)[..i] == LevelLines(tag, top, fm);
  }

  /** `generate_analysis_report`: the header, then up to three resistance and three support levels. */
  method AnalysisReport(ticker: string, score: Scoring.Composite, sr: Levels.SupportResistance,
                        quote: Quote, fm: Formats) returns (report: string)
    ensures report == Join(AnalysisLines(ticker, score, sr, quote, fm), '\n')
  {
    var lines := AnalysisHeader(ticker, score, quote, fm);
    if |sr.resistance| > 0 || |sr.support| > 0 {
      ghost var h, rl, sl := lines, LevelLines("R", FirstThree(sr.resistance), fm), LevelLines("S", FirstThree(sr.support), fm);
      lines := lines + [KeyLevelsHeading];
      if |sr.resistance| > 0 {
        lines := AppendLevels(lines, "R", sr.resistance, fm);
      } else {
        assert lines + rl == lines;
      }
      if |sr.support| > 0 {
        lines := AppendLevels(lines, "S", sr.support, fm);
      } else {
        assert lines + sl == lines;
      }
      lines := lines + [""];
      Regroup(h, [KeyLevelsHeading], rl, sl, [""]);
      assert KeyLevels(sr, fm) == (([KeyLevelsHeading] + rl) + sl) + [""];
    } else {
      assert KeyLevels(sr, fm) == [];
      assert lines + [] == lines;
    }
    report := Join(lines, '\n');
  }

  /** Appending four pieces one after another is appending their concatenation. */
  lemma Regroup<T>(h: seq<T>, a: seq<T>, b: seq<T>, c: seq<T>, d: seq<T>)
    ensures (((h + a) + b) + c) + d == h + (((a + b) + c) + d)
  {
  }

  /** The ten header lines are neither the levels heading nor a level line. */
  lemma HeaderHasNoLevels(ticker: string, score: Scoring.Composite, quote: Quote, fm: Formats, tag: string)
    requires tag in ["R", "S"]
    ensures var h := AnalysisHeader(ticker, score, quote, fm);
      |h| == 10 && forall k | 0 <= k < 10 :: h[k] != KeyLevelsHeading && !IsLevelLine(tag, h[k])
  {
    var h := AnalysisHeader(ticker, score, quote, fm);
    HeaderChars(ticker, score, quote, fm);
    NoLevelsIn(h, tag);
  }

  lemma NoLevelsIn(h: seq<string>, tag: string)
    requires tag in ["R", "S"]
    requires |h| == 10 && h[1] == h[4] == h[9] == "" &&
      |h[0]| >= 3 && h[0][2] == ' ' && |h[2]| >= 3 && h[2][2] == 'P' && |h[3]| >= 3 && h[3][2] == 'V' &&
      |h[5]| >= 5 && h[5][2] == '#' && h[5][4] == 'S' &&
      |h[6]| >= 3 && h[6][2] == 'M' && |h[7]| >= 3 && h[7][2] == 'T' && |h[8]| >= 3 && h[8][2] == 'V'
    ensures forall k | 0 <= k < 10 :: h[k] != KeyLevelsHeading && !IsLevelLine(tag, h[k])
  {
    assert KeyLevelsHeading[2] == '#' && KeyLevelsHeading[4] == 'K';
    forall k | 0 <= k < 10
      ensures !IsLevelLine(tag, h[k])
    {
      NotLevelLine(tag, h[k]);
    }
  }

  /** The characters that tell the header lines apart. */
  lemma HeaderChars(ticker: string, score: Scoring.Composite, quote: Quote, fm: Formats)
    ensures var h := AnalysisHeader(ticker, score, quote, fm);
      |h| == 10 && h[1] == h[4] == h[9] == "" &&
      |h[0]| >= 3 && h[0][2] == ' ' && |h[2]| >= 3 && h[2][2] == 'P' && |h[3]| >= 3 && h[3][2] == 'V' &&
      |h[5]| >= 5 && h[5][2] == '#' && h[5][4] == 'S' &&
      |h[6]| >= 3 && h[6][2] == 'M' && |h[7]| >= 3 && h[7][2] == 'T' && |h[8]| >= 3 && h[8][2] == 'V'
  {
    var h := AnalysisHeader(ticker, score, quote, fm);
    assert h[0][2] == ' ';
    assert h[2][2] == 'P' && h[3][2] == 'V';
    assert h[5][2] == '#' && h[5][4] == 'S';
    assert h[6][2] == 'M' && h[7][2] == 'T' && h[8][2] == 'V';
  }

  /** Level lines start with their tag and are never the levels heading. */
  lemma LevelLineKind(tag: string, other: string, l: Levels.Level, fm: Formats)
    requires tag in ["R", "S"] && other in ["R", "S"]
    ensures IsLevelLine(other, LevelLine(tag, l, fm)) <==> other == tag
    ensures LevelLine(tag, l, fm) != KeyLevelsHeading && LevelLine(tag, l, fm) != ""
  {
    var line := LevelLine(tag, l, fm);
    PrefixOfAppend(LevelTag(tag), line[8..]);
    assert line[..8] == LevelTag(tag);
    assert LevelTag(tag)[4] == tag[0] && LevelTag(other)[4] == other[0];
    assert |line| > |KeyLevelsHeading| || line != KeyLevelsHeading by {
      assert line[0] == '-' && KeyLevelsHeading[0] == '#';
    }
  }

  /** The "### Key Levels" section is there exactly when there is a resistance or a support level. */
  lemma KeyLevelsIff(ticker: string, score: Scoring.Composite, sr: Levels.SupportResistance, quote: Quote, fm: Formats)
    ensures KeyLevelsHeading in AnalysisLines(ticker, score, sr, quote, fm) <==>
      |sr.resistance| > 0 || |sr.support| > 0
  {
    var lines := AnalysisLines(ticker, score, sr, quote, fm);
    HeaderHasNoLevels(ticker, score, quote, fm, "R");
    if |sr.resistance| > 0 || |sr.support| > 0 {
      assert lines[10] == KeyLevelsHeading;
    } else {
      assert lines == AnalysisHeader(ticker, score, quote, fm);
    }
  }

  /** The kinds of line in ten header lines followed by the levels section. */
  lemma SectionPlaced(h: seq<string>, sr: Levels.SupportResistance, fm: Formats)
    requires |h| == 10 && forall k | 0 <= k < 10 :: !IsLevelLine("R", h[k]) && !IsLevelLine("S", h[k])
    ensures var lines, nr, ns := h + KeyLevels(sr, fm), |FirstThree(sr.resistance)|, |FirstThree(sr.support)|;
      (forall k | 0 <= k < |lines| :: IsLevelLine("R", lines[k]) <==> 11 <= k < 11 + nr) &&
      (forall k | 0 <= k < |lines| :: IsLevelLine("S", lines[k]) <==> 11 + nr <= k < 11 + nr + ns)
  {
    var lines := h + KeyLevels(sr, fm);
    var top, bottom := FirstThree(sr.resistance), FirstThree(sr.support);
    var nr, ns := |top|, |bottom|;
    if |sr.resistance| > 0 || |sr.support| > 0 {
      var section := KeyLevels(sr, fm);
      assert |section| == 2 + nr + ns;
      forall k | 0 <= k < |lines|
        ensures IsLevelLine("R", lines[k]) <==> 11 <= k < 11 + nr
        ensures IsLevelLine("S", lines[k]) <==> 11 + nr <= k < 11 + nr + ns
      {
        if k < 10 {
          assert lines[k] == h[k];
        } else if k == 10 || k == 11 + nr + ns {
          assert lines[k] == section[k - 10];
          assert lines[k] in [KeyLevelsHeading, ""];
          NotLevelLine("R", lines[k]);
          NotLevelLine("S", lines[k]);
        } else if k < 11 + nr {
          assert lines[k] == section[k - 10] == LevelLine("R", top[k - 11], fm);
          LevelLineKind("R", "R", top[k - 11], fm);
          LevelLineKind("R", "S", top[k - 11], fm);
        } else {
          assert lines[k] == section[k - 10] == LevelLine("S", bottom[k - 11 - nr], fm);
          LevelLineKind("S", "R", bottom[k - 11 - nr], fm);
          LevelLineKind("S", "S", bottom[k - 11 - nr], fm);
        }
      }
    } else {
      assert lines == h;
    }
  }

  /**
   * The resistance lines are exactly lines 11 onwards, at most three of
   * them, and the support lines, at most three, follow right after.
   */
  lemma LevelLinesPlaced(ticker: string, score: Scoring.Composite, sr: Levels.SupportResistance, quote: Quote, fm: Formats)
    ensures var lines, nr, ns := AnalysisLines(ticker, score, sr, quote, fm), |FirstThree(sr.resistance)|, |FirstThree(sr.support)|;
      nr <= 3 && ns <= 3 &&
      (forall k | 0 <= k < |lines| :: IsLevelLine("R", lines[k]) <==> 11 <= k < 11 + nr) &&
      (forall k | 0 <= k < |lines| :: IsLevelLine("S", lines[k]) <==> 11 + nr <= k < 11 + nr + ns)
  {
    HeaderHasNoLevels(ticker, score, quote, fm, "R");
    HeaderHasNoLevels(ticker, score, quote, fm, "S");
    SectionPlaced(AnalysisHeader(ticker, score, quote, fm), sr, fm);
  }

  // ---------------------------------------------------------------- daily report

  /** A row of the ranking: the ticker and its composite score. */
  datatype Ranked = Ranked(ticker: string, score: Scoring.Composite)

  const RankedHeading: string := "## Ranked by Score"
  const RankedTableHeader: string := "| # | Ticker | Score | Grade |" + " Momentum | Trend | Volume |"
  const RankedTableRule: string := "|---|--------|------:|:-----:|" + "---------:|------:|-------:|"

  function RankedRowLine(i: nat, r: Ranked, fm: Formats): string {
    RowStart(i, r.ticker) +
    (" " + Fixed0(fm, Some(r.score.total)) + " | " + r.score.grade + " | " + Fixed0(fm, Some(r.score.momentum)) +
     " | " + Fixed0(fm, Some(r.score.trend)) + " | " + Fixed0(fm, Some(r.score.volume)) + " |")
  }

  function RankedRows(ranked: seq<Ranked>, fm: Formats): seq<string> {
    seq(|ranked|, i requires 0 <= i < |ranked| => RankedRowLine(i, ranked[i], fm))
  }

  const ScanTitle: string := "Pre-Market Candidates"

  function DailyHeader(scan: DataFrame, day: string, stamp: string, fm: Formats): seq<string> {
    ["# Daily Trading Report \U{2014} " + day, "", Join(ScanLines(scan, ScanTitle, stamp, fm), '\n'), ""]
  }

  /** The lines of `generate_daily_report`; `None` is a ranking that was not given. */
  function DailyLines(scan: DataFrame, ranked: Option<seq<Ranked>>, day: string, stamp: string, fm: Formats): seq<string> {
    DailyHeader(scan, day, stamp, fm) +
    if ranked.Some? && |ranked.value| > 0 then
      RankedTable(ranked.value, fm)
    else []
  }

  /**
   * `generate_daily_report`: the dated title, the scan report of the
   * candidates, and the ranking table when there is one. `day` and `stamp`
   * are the two readings of the clock (`%Y-%m-%d`, and the scan report's
   * timestamp).
   */
  method DailyReport(scan: DataFrame, ranked: Option<seq<Ranked>>, day: string, stamp: string, fm: Formats)
    returns (report: string)
    ensures report == Join(DailyLines(scan, ranked, day, stamp, fm), '\n')
  {
    var lines := ["# Daily Trading Report \U{2014} " + day, ""];
    var scanned := ScanReport(scan, ScanTitle, stamp, fm);
    lines := lines + [scanned];
    lines := lines + [""];
    ghost var header := lines;
    if ranked.Some? && |ranked.value| > 0 {
      lines := PushRankedTable(lines, ranked.value, fm);
    }
    DailyLinesSplit(scan, ranked, day, stamp, fm, header, lines);
    report := Join(lines, '\n');
  }

  lemma DailyLinesSplit(scan: DataFrame, ranked: Option<seq<Ranked>>, day: string, stamp: string, fm: Formats, header: seq<string>, lines: seq<string>)
    requires header == ["# Daily Trading Report \U{2014} " + day, "", Join(ScanLines(scan, ScanTitle, stamp, fm), '\n'), ""]
    requires ranked.Some? && |ranked.value| > 0 ==> lines == header + RankedTable(ranked.value, fm)
    requires !(ranked.Some? && |ranked.value| > 0) ==> lines == header
    ensures lines == DailyLines(scan, ranked, day, stamp, fm)
  {
  }

  /** The ranking block: its heading, the table head and one row per ticker, then a blank line. */
  function RankedTable(rows: seq<Ranked>, fm: Formats): seq<string> {
    [RankedHeading, "", RankedTableHeader, RankedTableRule] + RankedRows(rows, fm) + [""]
  }

  /** Pushes the ranking block line by line after `lines`. */
  method PushRankedTable(lines: seq<string>, rows: seq<Ranked>, fm: Formats) returns (r: seq<string>)
    ensures r == lines + RankedTable(rows, fm)
  {
    r := lines + [RankedHeading];
    r := r + [""];
    r := r + [RankedTableHeader];
    r := r + [RankedTableRule];
    r := PushRankedRows(r, rows, fm);
    r := r + [""];
  }

  /** Pushes one table row per ranked ticker, numbered from 1, after `lines`. */
  method PushRankedRows(lines: seq<string>, rows: seq<Ranked>, fm: Formats) returns (r: seq<string>)
    ensures r == lines + RankedRows(rows, fm)
  {
    r := lines;
    var i := 0;
    while i < |rows|
      invariant 0 <= i <= |rows|
      invariant r == lines + RankedRows(rows, fm)[..i]
    {
      r := r + [RankedRowLine(i, rows[i], fm)];
      i := i + 1;
    }
    assert RankedRows(rows, fm)[..i] == RankedRows(rows, fm);
  }

  /** A join of several lines starts with the first. */
  lemma JoinHead(parts: seq<string>, sep: char)
    requires |parts| >= 2
    ensures |Join(parts, sep)| > |parts[0]| && Join(parts, sep)[..|parts[0]|] == parts[0]
  {
  }

  /** The ranking section is there exactly when a non-empty ranking is given. */
  lemma RankedSectionIff(scan: DataFrame, ranked: Option<seq<Ranked>>, day: string, stamp: string, fm: Formats)
    ensures RankedHeading in DailyLines(scan, ranked, day, stamp, fm) <==> ranked.Some? && |ranked.value| > 0
  {
    var lines := DailyLines(scan, ranked, day, stamp, fm);
    var scanLines := ScanLines(scan, ScanTitle, stamp, fm);
    JoinHead(scanLines, '\n');
    assert scanLines[0] == "# " + ScanTitle;
    assert lines[2][1] == scanLines[0][1] == ' ';
    assert lines[0][1] == ' ' && RankedHeading[1] == '#';
    if ranked.Some? && |ranked.value| > 0 {
      assert lines[4] == RankedHeading;
    } else {
      assert lines == DailyHeader(scan, day, stamp, fm);
    }
  }

  /** A ranking's rows follow the ranking's order, the `i`-th numbered `i + 1` and naming its ticker. */
  lemma RankedRowsNumbered(scan: DataFrame, ranked: seq<Ranked>, day: string, stamp: string, fm: Formats)
    requires |ranked| > 0
    ensures |DailyLines(scan, Some(ranked), day, stamp, fm)| == |ranked| + 9
    ensures forall i | 0 <= i < |ranked| ::
      StartsWith(DailyLines(scan, Some(ranked), day, stamp, fm)[i + 8], RowStart(i, ranked[i].ticker))
  {
    var lines := DailyLines(scan, Some(ranked), day, stamp, fm);
    forall i | 0 <= i < |ranked|
      ensures StartsWith(lines[i + 8], RowStart(i, ranked[i].ticker))
    {
      assert lines[i + 8] == RankedRowLine(i, ranked[i], fm);
      PrefixOfAppend(RowStart(i, ranked[i].ticker), lines[i + 8][|RowStart(i, ranked[i].ticker)|..]);
    }
  }
}
