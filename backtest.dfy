/**
 * The backtest provider's pure parts: the weekdays between two dates, the
 * object key and local cache path of a day's flat file, and the length of
 * a named history period. Days are proleptic Gregorian ordinals (day 1 is
 * Monday 1 January of year 1); the fetching itself is not modelled.
 */
module Backtest {
  import opened Text
  import Paths

  /** `date.weekday()`: Monday is 0, Sunday 6. */
  function Weekday(ordinal: int): (w: int)
    ensures 0 <= w < 7
  {
    (ordinal + 6) % 7
  }

  /** Weekdays repeat every seven days. */
  lemma WeekdayPeriodic(ordinal: int)
    ensures Weekday(ordinal + 7) == Weekday(ordinal)
    ensures Weekday(ordinal + 1) == (Weekday(ordinal) + 1) % 7
  {
  }

  predicate IsTradingDay(ordinal: int) {
    Weekday(ordinal) < 5
  }

  /**
   * `_trading_days`: walks from `start` to `end` one day at a time and keeps
   * the weekdays.
   */
  method TradingDays(start: int, end: int) returns (days: seq<int>)
    ensures forall k | 0 <= k < |days| :: start <= days[k] <= end && IsTradingDay(days[k])
    ensures forall j, k | 0 <= j < k < |days| :: days[j] < days[k]
    ensures forall d | start <= d <= end && IsTradingDay(d) :: d in days
  {
    days := [];
    var current := start;
    while current <= end
      invariant start <= current && (current <= end + 1 || current == start)
      invariant forall k | 0 <= k < |days| :: start <= days[k] < current && IsTradingDay(days[k])
      invariant forall j, k | 0 <= j < k < |days| :: days[j] < days[k]
      invariant forall d | start <= d < current && IsTradingDay(d) :: d in days
      decreases end - current
    {
      if Weekday(current) < 5 {
        days := days + [current];
      }
      current := current + 1;
    }
  }

  datatype Date = Date(year: nat, month: nat, day: nat)

  predicate IsLeap(year: nat) {
    year % 4 == 0 && (year % 100 != 0 || year % 400 == 0)
  }

  function DaysInMonth(year: nat, month: nat): nat
    requires 1 <= month <= 12
  {
    if month == 2 then (if IsLeap(year) then 29 else 28)
    else if month in {4, 6, 9, 11} then 30
    else 31
  }

  /** A date `datetime` can hold. */
  predicate ValidDate(d: Date) {
    1 <= d.year <= 9999 && 1 <= d.month <= 12 && 1 <= d.day <= DaysInMonth(d.year, d.month)
  }

  /** `%m` and `%d`: two digits, zero-padded. */
  function TwoDigits(n: nat): (s: string)
    requires n < 100
    ensures |s| == 2 && IsDigit(s[0]) && IsDigit(s[1])
    ensures (s[0] as int - '0' as int) * 10 + (s[1] as int - '0' as int) == n
  {
    [DigitChar(n / 10), DigitChar(n % 10)]
  }

  /** `%Y` as the C library renders it: the year's digits without padding. */
  function YearText(d: Date): string {
    NatToString(d.year)
  }

  /** `%Y-%m-%d`. */
  function Ymd(d: Date): (s: string)
    requires ValidDate(d)
  {
    YearText(d) + "-" + TwoDigits(d.month) + "-" + TwoDigits(d.day)
  }

  const Feed: string := "us_stocks_sip"
  const Dataset: string := "day_aggs_v1"
  const Extension: string := ".csv.gz"

  lemma ConstantsHaveNoSlash()
    ensures '/' !in Feed && '/' !in Dataset && '/' !in Extension
  {
    assert forall t | 0 <= t < |Feed| :: Feed[t] != '/';
    assert forall t | 0 <= t < |Dataset| :: Dataset[t] != '/';
    assert forall t | 0 <= t < |Extension| :: Extension[t] != '/';
  }

  /** The components of a day's object key. */
  function KeyParts(d: Date): (parts: seq<string>)
    requires ValidDate(d)
    ensures |parts| == 5 && forall i | 0 <= i < 5 :: '/' !in parts[i]
  {
    var file := Ymd(d) + Extension;
    ConstantsHaveNoSlash();
    assert forall t | 0 <= t < |Ymd(d)| :: Ymd(d)[t] != '/';
    assert forall t | 0 <= t < |file| :: file[t] != '/';
    [Feed, Dataset, YearText(d), TwoDigits(d.month), file]
  }

  /** `_s3_key`: `us_stocks_sip/day_aggs_v1/YYYY/MM/YYYY-MM-DD.csv.gz`. */
  function S3Key(d: Date): (k: string)
    requires ValidDate(d)
    ensures Split(k, '/') == KeyParts(d)
  {
    SplitJoin(KeyParts(d), '/');
    Join(KeyParts(d), '/')
  }

  /** The key spelled out: feed, dataset, year, month and the day's file, slash-separated. */
  lemma S3KeyText(d: Date)
    requires ValidDate(d)
    ensures S3Key(d) == Feed + "/" + Dataset + "/" + YearText(d) + "/" + TwoDigits(d.month) + "/" + Ymd(d) + Extension
  {
    JoinFive(KeyParts(d), '/');
  }

  lemma JoinFive(parts: seq<string>, sep: char)
    requires |parts| == 5
    ensures Join(parts, sep) == parts[0] + [sep] + parts[1] + [sep] + parts[2] + [sep] + parts[3] + [sep] + parts[4]
  {
    var t1 := parts[1..];
    var t2 := t1[1..];
    var t3 := t2[1..];
    var t4 := t3[1..];
    assert t4 == [parts[4]] && Join(t4, sep) == parts[4];
    assert Join(t3, sep) == parts[3] + [sep] + parts[4];
    assert Join(t2, sep) == parts[2] + [sep] + parts[3] + [sep] + parts[4];
    assert Join(t1, sep) == parts[1] + [sep] + parts[2] + [sep] + parts[3] + [sep] + parts[4];
  }

  /** `_cache_path`: `cache_dir/YYYY/MM/YYYY-MM-DD.csv.gz`. */
  function CachePath(cache_dir: Paths.Path, d: Date): (p: Paths.Path)
    requires ValidDate(d)
    ensures p == cache_dir + KeyParts(d)[2..]
  {
    Paths.Join(Paths.Join(Paths.Join(cache_dir, YearText(d)), TwoDigits(d.month)), Ymd(d) + Extension)
  }

  /** Different days have different keys, so no two days share a flat file. */
  lemma S3KeyInjective(a: Date, b: Date)
    requires ValidDate(a) && ValidDate(b) && S3Key(a) == S3Key(b)
    ensures a == b
  {
    var pa, pb := Split(S3Key(a), '/'), Split(S3Key(b), '/');
    assert pa[2] == pb[2] && pa[3] == pb[3] && pa[4] == pb[4];
    assert a.year == DigitsValue(YearText(a)) == DigitsValue(YearText(b)) == b.year;
    var ma, mb := TwoDigits(a.month), TwoDigits(b.month);
    assert ma[0] == mb[0] && ma[1] == mb[1];
    var n := |YearText(a)| + 4;
    var ya, yb := Ymd(a) + Extension, Ymd(b) + Extension;
    assert ya[n] == TwoDigits(a.day)[0] && ya[n + 1] == TwoDigits(a.day)[1];
    assert yb[n] == TwoDigits(b.day)[0] && yb[n + 1] == TwoDigits(b.day)[1];
  }

  /** The history periods and their lengths in days. */
  const PeriodMap: map<string, nat> :=
    map["1d" := 1, "5d" := 5, "1mo" := 30, "3mo" := 90, "6mo" := 180, "1y" := 365, "2y" := 730, "5y" := 1825]

  /** `_PERIOD_MAP.get(period, timedelta(days=90))`. */
  function PeriodDays(period: string): (days: nat)
    ensures 1 <= days <= 1825
  {
    if period in PeriodMap then PeriodMap[period] else 90
  }

  /** A period the map does not know spans as long as the default `3mo`. */
  lemma UnknownPeriodIsThreeMonths(period: string)
    requires period !in PeriodMap
    ensures PeriodDays(period) == PeriodDays("3mo") == 90
  {
  }
}
