/**
 * Table rows as the screener sees them. A row carries its ticker and its
 * numeric cells; a cell that is absent from `values` is NaN, which every
 * comparison rejects.
 */
module Frames {
  datatype Row = Row(ticker: string, values: map<string, real>)

  datatype DataFrame = DataFrame(columns: set<string>, rows: seq<Row>)
}

/**
 * The composable screening filters: each keeps the rows whose cell passes a
 * threshold, and leaves the frame alone when its column is missing. The
 * closures of the source are represented by the filter's parameters.
 */
module Filters {
  import opened Wrappers
  import opened Sequences
  import opened Frames

  /** A filter as its factory built it; a bound of `None` is `float("inf")`. */
  datatype Filter =
    | PriceFilter(min_price: real, max_price: Option<real>)
    | VolumeFilter(min_volume: real, column: string)
    | GapFilter(min_gap_pct: real)
    | AvgVolumeFilter(min_avg_volume: real)
    | FloatFilter(max_float_millions: Option<real>)

  function Abs(x: real): real {
    if x < 0.0 then -x else x
  }

  /** The column the filter reads in a frame with these columns. */
  function Column(f: Filter, columns: set<string>): string {
    match f
    case PriceFilter(_, _) => if "pre_price" in columns then "pre_price" else "price"
    case VolumeFilter(_, column) => column
    case GapFilter(_) => "gap_pct"
    case AvgVolumeFilter(_) => "avg_volume"
    case FloatFilter(_) => "float_shares"
  }

  /** The value passes the filter's comparison. */
  predicate Passes(f: Filter, v: real) {
    match f
    case PriceFilter(lo, hi) => lo <= v && (hi.None? || v <= hi.value)
    case VolumeFilter(lo, _) => v >= lo
    case GapFilter(lo) => Abs(v) >= lo
    case AvgVolumeFilter(lo) => v >= lo
    case FloatFilter(hi) => hi.None? || v <= hi.value * 1000000.0
  }

  /**
   * The row is kept: the filter's column is missing from the frame, or the
   * row's cell there is a number that passes.
   */
  predicate Keep(f: Filter, columns: set<string>, r: Row) {
    var c := Column(f, columns);
    c !in columns || (c in r.values && Passes(f, r.values[c]))
  }

  /** The rows the filter keeps, in order. */
  function Select(f: Filter, columns: set<string>, rows: seq<Row>): (kept: seq<Row>)
    ensures forall r | r in kept :: r in rows && Keep(f, columns, r)
    ensures forall r | r in rows && Keep(f, columns, r) :: r in kept
    ensures |kept| <= |rows|
  {
    if rows == [] then []
    else (if Keep(f, columns, rows[0]) then [rows[0]] else []) + Select(f, columns, rows[1..])
  }

  /** Applying a filter: same columns, the kept rows. */
  function Apply(f: Filter, df: DataFrame): (r: DataFrame)
    ensures r.columns == df.columns
    ensures Column(f, df.columns) !in df.columns ==> r == df
  {
    if Column(f, df.columns) !in df.columns then
      SelectAllKept(f, df.columns, df.rows);
      df
    else DataFrame(df.columns, Select(f, df.columns, df.rows))
  }

  lemma {:induction false} SelectAllKept(f: Filter, columns: set<string>, rows: seq<Row>)
    requires forall r | r in rows :: Keep(f, columns, r)
    ensures Select(f, columns, rows) == rows
    decreases |rows|
  {
    if rows != [] {
      SelectAllKept(f, columns, rows[1..]);
      HeadTail(rows);
    }
  }

  /** The filters applied one after the other, all of them. */
  function Chain(df: DataFrame, filters: seq<Filter>): (r: DataFrame)
    ensures r.columns == df.columns
    decreases |filters|
  {
    if filters == [] then df
    else Apply(filters[|filters| - 1], Chain(df, filters[..|filters| - 1]))
  }

  /** The row passes every filter of the chain. */
  predicate KeepAll(filters: seq<Filter>, columns: set<string>, r: Row) {
    forall k | 0 <= k < |filters| :: Keep(filters[k], columns, r)
  }

  /** The rows passing every filter, in order. */
  function SelectAll(filters: seq<Filter>, columns: set<string>, rows: seq<Row>): seq<Row>
  {
    if rows == [] then []
    else (if KeepAll(filters, columns, rows[0]) then [rows[0]] else []) + SelectAll(filters, columns, rows[1..])
  }

  /** Filtering what a chain kept by one more filter is selecting by the longer chain. */
  lemma {:induction false} SelectSnoc(filters: seq<Filter>, f: Filter, columns: set<string>, rows: seq<Row>)
    ensures Select(f, columns, SelectAll(filters, columns, rows)) == SelectAll(filters + [f], columns, rows)
    decreases |rows|
  {
    if rows != [] {
      SelectSnoc(filters, f, columns, rows[1..]);
      var r := rows[0];
      var fs := filters + [f];
      assert KeepAll(fs, columns, r) <==> KeepAll(filters, columns, r) && Keep(f, columns, r) by {
        assert forall k | 0 <= k < |filters| :: fs[k] == filters[k];
        assert fs[|filters|] == f;
      }
      var front := if KeepAll(filters, columns, r) then [r] else [];
      assert SelectAll(filters, columns, rows) == front + SelectAll(filters, columns, rows[1..]);
      SelectAppend(f, columns, front, SelectAll(filters, columns, rows[1..]));
    }
  }

  lemma {:induction false} SelectAppend(f: Filter, columns: set<string>, a: seq<Row>, b: seq<Row>)
    ensures Select(f, columns, a + b) == Select(f, columns, a) + Select(f, columns, b)
    decreases |a|
  {
    if a != [] {
      var a1 := a[1..];
      SelectAppend(f, columns, a1, b);
      HeadTail(a);
      AppendAssoc([a[0]], a1, b);
      SelectCons(f, columns, a[0], a1);
      SelectCons(f, columns, a[0], a1 + b);
      var head := if Keep(f, columns, a[0]) then [a[0]] else [];
      var s1, sb := Select(f, columns, a1), Select(f, columns, b);
      AppendAssoc(head, s1, sb);
    } else {
      assert a + b == b;
    }
  }

  /** Selecting from a row followed by more rows. */
  lemma SelectCons(f: Filter, columns: set<string>, r: Row, rest: seq<Row>)
    ensures Select(f, columns, [r] + rest) == (if Keep(f, columns, r) then [r] else []) + Select(f, columns, rest)
  {
    assert ([r] + rest)[0] == r && ([r] + rest)[1..] == rest;
  }

  lemma {:induction false} SelectAllEmpty(columns: set<string>, rows: seq<Row>)
    ensures SelectAll([], columns, rows) == rows
    decreases |rows|
  {
    if rows != [] {
      SelectAllEmpty(columns, rows[1..]);
      HeadTail(rows);
    }
  }

  /**
   * The chain keeps exactly the rows that pass every filter, in their
   * original order.
   */
  lemma {:induction false} ChainIsConjunction(df: DataFrame, filters: seq<Filter>)
    ensures Chain(df, filters) == DataFrame(df.columns, SelectAll(filters, df.columns, df.rows))
    decreases |filters|
  {
    if filters == [] {
      SelectAllEmpty(df.columns, df.rows);
    } else {
      var n := |filters| - 1;
      var f := filters[n];
      ChainIsConjunction(df, filters[..n]);
      assert filters[..n] + [f] == filters;
      SelectSnoc(filters[..n], f, df.columns, df.rows);
      if Column(f, df.columns) !in df.columns {
        SelectAllKept(f, df.columns, SelectAll(filters[..n], df.columns, df.rows));
      }
    }
  }

  /** The rows the chain keeps are a subsequence of the input rows. */
  lemma {:induction false} SelectAllSubsequence(filters: seq<Filter>, columns: set<string>, rows: seq<Row>)
    ensures Subsequence(SelectAll(filters, columns, rows), rows)
    decreases |rows|
  {
    if rows != [] {
      SelectAllSubsequence(filters, columns, rows[1..]);
      var rest := SelectAll(filters, columns, rows[1..]);
      if KeepAll(filters, columns, rows[0]) {
        assert ([rows[0]] + rest)[1..] == rest;
      } else {
        assert [] + rest == rest;
      }
    }
  }

  /** A chain over an empty frame, or continued after the frame became empty, stays empty. */
  lemma {:induction false} EmptyStaysEmpty(df: DataFrame, filters: seq<Filter>, i: nat)
    requires i <= |filters| && Chain(df, filters[..i]).rows == []
    ensures Chain(df, filters) == Chain(df, filters[..i])
    decreases |filters| - i
  {
    if i < |filters| {
      assert filters[..i + 1][..i] == filters[..i];
      EmptyStaysEmpty(df, filters, i + 1);
    } else {
      assert filters[..i] == filters;
    }
  }

  /**
   * `apply_filters`: runs the filters in order on a copy, stopping as soon as
   * the frame is empty, which gives the same frame as running them all.
   */
  method ApplyFilters(df: DataFrame, filters: seq<Filter>) returns (result: DataFrame)
    ensures result == Chain(df, filters)
  {
    result := df;
    var i := 0;
    while i < |filters|
      invariant 0 <= i <= |filters|
      invariant result == Chain(df, filters[..i])
    {
      assert filters[..i + 1][..i] == filters[..i];
      result := Apply(filters[i], result);
      i := i + 1;
      if result.rows == [] {
        EmptyStaysEmpty(df, filters, i);
        return;
      }
    }
    assert filters[..i] == filters;
  }

  /** Where a filter sits in a chain built from a config. */
  function Rank(f: Filter): nat {
    match f
    case PriceFilter(_, _) => 0
    case VolumeFilter(_, _) => 1
    case GapFilter(_) => 2
    case AvgVolumeFilter(_) => 3
    case FloatFilter(_) => 4
  }

  function Lookup(config: map<string, real>, key: string): Option<real> {
    if key in config then Some(config[key]) else None
  }

  predicate HasPrice(config: map<string, real>) {
    "min_price" in config || "max_price" in config
  }

  /** The number of setting groups present in the config. */
  function GroupCount(config: map<string, real>): nat {
    (if HasPrice(config) then 1 else 0) + (if "min_premarket_volume" in config then 1 else 0) +
    (if "min_gap_pct" in config then 1 else 0) + (if "min_avg_volume" in config then 1 else 0) +
    (if "max_float_millions" in config then 1 else 0)
  }

  /** The filter the config asks for, of each kind. */
  predicate Requested(config: map<string, real>, f: Filter) {
    match f
    case PriceFilter(lo, hi) =>
      HasPrice(config) && lo == Lookup(config, "min_price").GetOr(0.0) && hi == Lookup(config, "max_price")
    case VolumeFilter(lo, column) =>
      "min_premarket_volume" in config && lo == config["min_premarket_volume"] && column == "pre_volume"
    case GapFilter(lo) => "min_gap_pct" in config && lo == config["min_gap_pct"]
    case AvgVolumeFilter(lo) => "min_avg_volume" in config && lo == config["min_avg_volume"]
    case FloatFilter(hi) => "max_float_millions" in config && hi == Some(config["max_float_millions"])
  }

  /**
   * `build_filter_chain`: one filter per setting group present, built from
   * that group's settings (missing price bounds default to 0 and infinity),
   * in the order price, volume, gap, average volume, float.
   */
  method BuildFilterChain(config: map<string, real>) returns (filters: seq<Filter>)
    ensures |filters| == GroupCount(config)
    ensures forall k | 0 <= k < |filters| :: Requested(config, filters[k])
    ensures forall j, k | 0 <= j < k < |filters| :: Rank(filters[j]) < Rank(filters[k])
  {
    filters := [];
    filters := AddGroup(config, filters, 0);
    filters := AddGroup(config, filters, 1);
    filters := AddGroup(config, filters, 2);
    filters := AddGroup(config, filters, 3);
    filters := AddGroup(config, filters, 4);
    AllRequested(config, filters);
  }

  /** A list ordered up to the last kind holds one filter per present group. */
  lemma AllRequested(config: map<string, real>, filters: seq<Filter>)
    requires OrderedRequests(config, filters, 5)
    ensures |filters| == GroupCount(config)
    ensures forall k | 0 <= k < |filters| :: Requested(config, filters[k])
    ensures forall j, k | 0 <= j < k < |filters| :: Rank(filters[j]) < Rank(filters[k])
  {
    GroupsBelowAll(config);
  }

  /**
   * The filter built from the settings of a present group: the price bounds
   * default to 0 and no upper bound, the volume filter reads `pre_volume`.
   */
  function GroupFilter(config: map<string, real>, r: nat): (f: Filter)
    requires Present(config, r)
    ensures Requested(config, f) && Rank(f) == r
  {
    if r == 0 then PriceFilter(Lookup(config, "min_price").GetOr(0.0), Lookup(config, "max_price"))
    else if r == 1 then VolumeFilter(config["min_premarket_volume"], "pre_volume")
    else if r == 2 then GapFilter(config["min_gap_pct"])
    else if r == 3 then AvgVolumeFilter(config["min_avg_volume"])
    else FloatFilter(Some(config["max_float_millions"]))
  }

  /** One `if <settings present>: filters.append(...)` step of `build_filter_chain`. */
  method AddGroup(config: map<string, real>, fs: seq<Filter>, r: nat) returns (out: seq<Filter>)
    requires OrderedRequests(config, fs, r)
    ensures out == if Present(config, r) then fs + [GroupFilter(config, r)] else fs
    ensures OrderedRequests(config, out, r + 1)
  {
    if Present(config, r) {
      out := Push(config, fs, r, GroupFilter(config, r));
    } else {
      ChainWiden(config, fs, r);
      out := fs;
    }
  }

  /** The config holds settings of the group of kind `r`. */
  predicate Present(config: map<string, real>, r: nat) {
    if r == 0 then HasPrice(config)
    else if r == 1 then "min_premarket_volume" in config
    else if r == 2 then "min_gap_pct" in config
    else if r == 3 then "min_avg_volume" in config
    else r == 4 && "max_float_millions" in config
  }

  /** The number of setting groups of kinds below `r` present in the config. */
  function GroupsBelow(config: map<string, real>, r: nat): nat
    decreases r
  {
    if r == 0 then 0 else GroupsBelow(config, r - 1) + if Present(config, r - 1) then 1 else 0
  }

  /** The five kinds together are all the groups. */
  lemma GroupsBelowAll(config: map<string, real>)
    ensures GroupsBelow(config, 5) == GroupCount(config)
  {
    assert GroupsBelow(config, 1) == if HasPrice(config) then 1 else 0;
    assert GroupsBelow(config, 3) == GroupsBelow(config, 2) + if Present(config, 2) then 1 else 0;
    assert GroupsBelow(config, 5) == GroupsBelow(config, 4) + if Present(config, 4) then 1 else 0;
  }

  /** One requested filter for each present group of kind below `r`, in increasing kind order. */
  predicate OrderedRequests(config: map<string, real>, fs: seq<Filter>, r: nat) {
    |fs| == GroupsBelow(config, r) &&
    (forall k | 0 <= k < |fs| :: Requested(config, fs[k]) && Rank(fs[k]) < r) &&
    (forall j, k | 0 <= j < k < |fs| :: Rank(fs[j]) < Rank(fs[k]))
  }

  /** `filters.append(f)` for the filter of the present group of kind `r`. */
  method Push(config: map<string, real>, fs: seq<Filter>, r: nat, f: Filter) returns (out: seq<Filter>)
    requires OrderedRequests(config, fs, r) && Requested(config, f) && Rank(f) == r
    ensures out == fs + [f] && OrderedRequests(config, out, r + 1)
  {
    out := fs + [f];
    assert Present(config, r);
    assert forall k | 0 <= k < |fs| :: out[k] == fs[k];
  }

  /** Skipping an absent group keeps the chain. */
  lemma ChainWiden(config: map<string, real>, fs: seq<Filter>, r: nat)
    requires OrderedRequests(config, fs, r) && !Present(config, r)
    ensures OrderedRequests(config, fs, r + 1)
  {
  }

  /** The config fixes each kind's filter: two requested filters of one kind are the same. */
  lemma RequestedIsUnique(config: map<string, real>, f: Filter, g: Filter)
    requires Requested(config, f) && Requested(config, g) && Rank(f) == Rank(g)
    ensures f == g
  {
  }

  /** A price-and-gap config gives a chain of two. */
  lemma PriceAndGapConfig(config: map<string, real>)
    requires config == map["min_price" := 5.0, "max_price" := 100.0, "min_gap_pct" := 3.0]
    ensures GroupCount(config) == 2
  {
  }

  /** The price filter reads `pre_price` when the frame has it, else `price`. */
  lemma PriceColumn(lo: real, hi: Option<real>, columns: set<string>)
    ensures "pre_price" in columns ==> Column(PriceFilter(lo, hi), columns) == "pre_price"
    ensures "pre_price" !in columns ==> Column(PriceFilter(lo, hi), columns) == "price"
  {
  }

  /** Both price bounds are inclusive. */
  lemma PriceBoundsInclusive(lo: real, hi: real)
    requires lo <= hi
    ensures Passes(PriceFilter(lo, Some(hi)), lo) && Passes(PriceFilter(lo, Some(hi)), hi)
  {
  }

  /** The gap filter compares the size of the gap: a gap down passes like a gap up. */
  lemma GapIsAbsolute(lo: real, v: real)
    ensures Passes(GapFilter(lo), v) <==> Passes(GapFilter(lo), -v)
  {
  }

  /** A missing cell is NaN, and NaN passes no filter whose column exists. */
  lemma NaNNeverKept(f: Filter, columns: set<string>, r: Row)
    requires Column(f, columns) in columns && Column(f, columns) !in r.values
    ensures !Keep(f, columns, r)
  {
  }

  /** A candidate with a pre-market price and a gap. */
  function Candidate(ticker: string, price: real, gap: real): Row {
    Row(ticker, map["pre_price" := price, "gap_pct" := gap])
  }

  const Screen: seq<Filter> := [PriceFilter(5.0, None), GapFilter(3.0)]
  const ScreenColumns: set<string> := {"pre_price", "gap_pct"}

  /** A candidate passes price at least 5 and gap at least 3 exactly when its numbers do. */
  lemma ScreenCandidate(ticker: string, price: real, gap: real)
    ensures KeepAll(Screen, ScreenColumns, Candidate(ticker, price, gap)) <==> price >= 5.0 && Abs(gap) >= 3.0
  {
    var r := Candidate(ticker, price, gap);
    assert Column(Screen[0], ScreenColumns) == "pre_price" && Column(Screen[1], ScreenColumns) == "gap_pct";
    assert r.values["pre_price"] == price && r.values["gap_pct"] == gap;
  }

  /**
   * Four candidates screened by price at least 5 and gap at least 3: AAA and
   * CCC remain, in their original order.
   */
  lemma PriceThenGap(df: DataFrame)
    requires df.columns == ScreenColumns
    requires df.rows == [Candidate("AAA", 10.0, 5.0), Candidate("BBB", 3.0, 2.0),
                         Candidate("CCC", 50.0, 8.0), Candidate("DDD", 1.0, 15.0)]
    ensures Chain(df, Screen) == DataFrame(df.columns, [df.rows[0], df.rows[2]])
  {
    ChainIsConjunction(df, Screen);
    ScreenCandidate("AAA", 10.0, 5.0);
    ScreenCandidate("BBB", 3.0, 2.0);
    ScreenCandidate("CCC", 50.0, 8.0);
    ScreenCandidate("DDD", 1.0, 15.0);
    SelectFirstAndThird(Screen, df.columns, df.rows);
  }

  /** Of four rows of which only the first and the third pass, those two are selected. */
  lemma SelectFirstAndThird(filters: seq<Filter>, columns: set<string>, rows: seq<Row>)
    requires |rows| == 4
    requires KeepAll(filters, columns, rows[0]) && !KeepAll(filters, columns, rows[1])
    requires KeepAll(filters, columns, rows[2]) && !KeepAll(filters, columns, rows[3])
    ensures SelectAll(filters, columns, rows) == [rows[0], rows[2]]
  {
    assert rows[1..][1..] == rows[2..] && rows[2..][1..] == rows[3..] && rows[3..][1..] == [];
    assert SelectAll(filters, columns, rows[3..]) == [];
    assert SelectAll(filters, columns, rows[2..]) == [rows[2]];
    assert SelectAll(filters, columns, rows[1..]) == [rows[2]];
  }
}
