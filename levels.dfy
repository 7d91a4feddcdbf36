/**
 * Support and resistance: pivot points from the prior bar, local extremes of
 * a price series, clustering of nearby levels into zones, and the nearest
 * zones around a price. Prices are exact reals; `round(x, 2)` is the
 * parameter `round2`.
 */
module Levels {
  import opened Wrappers
  import opened Sequences

  function Abs(x: real): real {
    if x < 0.0 then -x else x
  }

  /** The rounding function is non-decreasing, as `round(x, 2)` is. */
  ghost predicate Monotone(round2: real -> real) {
    forall x: real, y: real :: x <= y ==> round2(x) <= round2(y)
  }

  // ---------------------------------------------------------------- pivots

  datatype Pivots = Pivots(pivot: real, r1: real, r2: real, r3: real, s1: real, s2: real, s3: real)

  /** The standard floor-trader pivots of a bar, before rounding. */
  function RawPivots(high: real, low: real, close: real): Pivots {
    var p := (high + low + close) / 3.0;
    Pivots(p, 2.0 * p - low, p + (high - low), high + 2.0 * (p - low),
           2.0 * p - high, p - (high - low), low - 2.0 * (high - p))
  }

  /** Levels in the order s3, s2, s1, pivot, r1, r2, r3. */
  predicate Ordered(v: Pivots) {
    v.s3 <= v.s2 <= v.s1 <= v.pivot <= v.r1 <= v.r2 <= v.r3
  }

  /** `compute_pivot_points`: every level rounded to two places. */
  function ComputePivotPoints(high: real, low: real, close: real, round2: real -> real): (r: Pivots)
    ensures low <= close <= high && Monotone(round2) ==> Ordered(r)
  {
    var v := RawPivots(high, low, close);
    PivotsOrdered(high, low, close);
    Pivots(round2(v.pivot), round2(v.r1), round2(v.r2), round2(v.r3), round2(v.s1), round2(v.s2), round2(v.s3))
  }

  /**
   * For a bar whose close lies within its range, the supports lie below the
   * pivot and the resistances above it, each further out than the last.
   */
  lemma PivotsOrdered(high: real, low: real, close: real)
    ensures low <= close <= high ==> Ordered(RawPivots(high, low, close))
  {
  }

  /**
   * The second levels sit the bar's range from the pivot on either side, and
   * r3 to r1 to s1 to s3 are each one range apart.
   */
  lemma PivotSpacing(high: real, low: real, close: real)
    ensures var v := RawPivots(high, low, close);
      v.r2 - v.pivot == v.pivot - v.s2 == high - low &&
      v.r3 - v.r1 == v.r1 - v.s1 == v.s1 - v.s3 == high - low &&
      v.r1 - v.pivot == v.pivot - low && v.pivot - v.s1 == high - v.pivot
  {
  }

  /** High 110, low 90, close 100: pivot 100, resistances 110, 120, 130, supports 90, 80, 70. */
  lemma PivotExample()
    ensures RawPivots(110.0, 90.0, 100.0) == Pivots(100.0, 110.0, 120.0, 130.0, 90.0, 80.0, 70.0)
  {
  }

  // ---------------------------------------------------------------- local extremes

  function MaxOf(s: seq<real>): (m: real)
    requires |s| >= 1
    ensures m in s && forall x | x in s :: x <= m
  {
    if |s| == 1 then s[0]
    else
      var m := MaxOf(s[1..]);
      assert s == [s[0]] + s[1..];
      if s[0] >= m then s[0] else m
  }

  function MinOf(s: seq<real>): (m: real)
    requires |s| >= 1
    ensures m in s && forall x | x in s :: m <= x
  {
    if |s| == 1 then s[0]
    else
      var m := MinOf(s[1..]);
      assert s == [s[0]] + s[1..];
      if s[0] <= m then s[0] else m
  }

  /** The `2 * order + 1` values centred on `i`. */
  function Window(values: seq<real>, order: nat, i: int): (w: seq<real>)
    requires order <= i && i + order < |values|
    ensures |w| == 2 * order + 1 && w[order] == values[i]
  {
    values[i - order..i + order + 1]
  }

  /** `values[i]` is the largest value of its window. */
  predicate IsPeak(values: seq<real>, order: nat, i: int)
    requires order <= i && i + order < |values|
  {
    forall j | i - order <= j <= i + order :: values[j] <= values[i]
  }

  /** `values[i]` is not a peak and is the smallest value of its window. */
  predicate IsTrough(values: seq<real>, order: nat, i: int)
    requires order <= i && i + order < |values|
  {
    !IsPeak(values, order, i) && forall j | i - order <= j <= i + order :: values[i] <= values[j]
  }

  predicate IsExtreme(values: seq<real>, order: nat, i: int, peak: bool)
    requires order <= i && i + order < |values|
  {
    if peak then IsPeak(values, order, i) else IsTrough(values, order, i)
  }

  /** Comparing with the window's max and min, as the source does, is the peak and trough test. */
  lemma WindowTests(values: seq<real>, order: nat, i: int)
    requires order <= i && i + order < |values|
    ensures values[i] == MaxOf(Window(values, order, i)) <==> IsPeak(values, order, i)
    ensures values[i] != MaxOf(Window(values, order, i)) && values[i] == MinOf(Window(values, order, i)) <==>
            IsTrough(values, order, i)
  {
    var w := Window(values, order, i);
    var lo := i - order;
    assert forall j | lo <= j <= i + order :: values[j] == w[j - lo];
    var mx, mn := MaxOf(w), MinOf(w);
    var tx :| 0 <= tx < |w| && w[tx] == mx;
    var tn :| 0 <= tn < |w| && w[tn] == mn;
    assert w[tx] == values[lo + tx] && w[tn] == values[lo + tn];
    assert w[order] in w;
    if values[i] == mx {
      forall j | lo <= j <= i + order
        ensures values[j] <= values[i]
      {
        assert w[j - lo] in w;
      }
    }
    if values[i] == mn {
      forall j | lo <= j <= i + order
        ensures values[i] <= values[j]
      {
        assert w[j - lo] in w;
      }
    }
  }

  /**
   * The peaks (or troughs) at the indices from `order` up to `hi`, as
   * (index, value) pairs in ascending index order.
   */
  function Extremes(values: seq<real>, order: nat, peak: bool, hi: int): seq<(nat, real)>
    requires hi <= order || hi + order <= |values|
    decreases if hi <= order then 0 else hi - order
  {
    if hi <= order then []
    else
      Extremes(values, order, peak, hi - 1) +
      (if IsExtreme(values, order, hi - 1, peak) then [(hi - 1, values[hi - 1])] else [])
  }

  /**
   * `r` lists the indices below `hi` whose value is the extreme of their
   * window, each once, in ascending order, with its value.
   */
  predicate ListsExtremes(values: seq<real>, order: nat, peak: bool, hi: int, r: seq<(nat, real)>)
    requires hi <= order || hi + order <= |values|
  {
    PlacedExtremes(values, order, hi, r) && CoversExtremes(values, order, peak, hi, r)
  }

  /** Each listed index lies in `[order, hi)` and carries its value; the indices ascend. */
  predicate PlacedExtremes(values: seq<real>, order: nat, hi: int, r: seq<(nat, real)>) {
    (forall k | 0 <= k < |r| :: order <= r[k].0 < hi && r[k].0 < |values| && r[k].1 == values[r[k].0]) &&
    (forall j, k | 0 <= j < k < |r| :: r[j].0 < r[k].0)
  }

  /** An index in `[order, hi)` is listed exactly when it is an extreme. */
  predicate CoversExtremes(values: seq<real>, order: nat, peak: bool, hi: int, r: seq<(nat, real)>)
    requires hi <= order || hi + order <= |values|
  {
    forall i | order <= i < hi :: IsExtreme(values, order, i, peak) <==> exists k | 0 <= k < |r| :: r[k].0 == i
  }

  /** The extremes found are exactly the extremes below `hi`. */
  lemma {:induction false} ExtremesExact(values: seq<real>, order: nat, peak: bool, hi: int)
    requires hi <= order || hi + order <= |values|
    ensures ListsExtremes(values, order, peak, hi, Extremes(values, order, peak, hi))
    decreases if hi <= order then 0 else hi - order
  {
    if hi > order {
      ExtremesExact(values, order, peak, hi - 1);
      ExtremesPlaced(values, order, peak, hi);
      ExtremesCovered(values, order, peak, hi);
    }
  }

  /** The index tested last lands after the earlier ones. */
  lemma ExtremesPlaced(values: seq<real>, order: nat, peak: bool, hi: int)
    requires order < hi && hi + order <= |values|
    requires ListsExtremes(values, order, peak, hi - 1, Extremes(values, order, peak, hi - 1))
    ensures PlacedExtremes(values, order, hi, Extremes(values, order, peak, hi))
  {
    var front := Extremes(values, order, peak, hi - 1);
    var r := Extremes(values, order, peak, hi);
    assert forall k | 0 <= k < |front| :: r[k] == front[k];
    assert |r| == |front| || (|r| == |front| + 1 && r[|front|] == (hi - 1, values[hi - 1]));
  }

  /** An index below `hi` is listed exactly when it is an extreme. */
  lemma ExtremesCovered(values: seq<real>, order: nat, peak: bool, hi: int)
    requires order < hi && hi + order <= |values|
    requires ListsExtremes(values, order, peak, hi - 1, Extremes(values, order, peak, hi - 1))
    ensures CoversExtremes(values, order, peak, hi, Extremes(values, order, peak, hi))
  {
    var front := Extremes(values, order, peak, hi - 1);
    var r := Extremes(values, order, peak, hi);
    assert forall k | 0 <= k < |front| :: r[k] == front[k];
    assert |r| == |front| || (|r| == |front| + 1 && r[|front|] == (hi - 1, values[hi - 1]));
    forall i | order <= i < hi
      ensures IsExtreme(values, order, i, peak) <==> exists k | 0 <= k < |r| :: r[k].0 == i
    {
      if i == hi - 1 {
        if IsExtreme(values, order, i, peak) {
          assert r[|front|].0 == i;
        } else {
          assert |r| == |front|;
          assert forall k | 0 <= k < |front| :: front[k].0 < hi - 1;
        }
      } else if IsExtreme(values, order, i, peak) {
        var k :| 0 <= k < |front| && front[k].0 == i;
        assert r[k].0 == i;
      }
    }
  }

  /** No index is both a peak and a trough. */
  lemma PeakIsNoTrough(values: seq<real>, order: nat, i: int)
    requires order <= i && i + order < |values|
    ensures !(IsExtreme(values, order, i, true) && IsExtreme(values, order, i, false))
  {
  }

  /** The extremes below `i + 1` are those below `i`, then `i` when its window test holds. */
  lemma ExtremesStep(values: seq<real>, order: nat, i: nat)
    requires order <= i && i + order < |values|
    ensures var w := values[i - order..i + order + 1];
      Extremes(values, order, true, i + 1) ==
        Extremes(values, order, true, i) + (if values[i] == MaxOf(w) then [(i, values[i])] else []) &&
      Extremes(values, order, false, i + 1) ==
        Extremes(values, order, false, i) + (if values[i] != MaxOf(w) && values[i] == MinOf(w) then [(i, values[i])] else [])
  {
    WindowTests(values, order, i);
  }

  /**
   * `find_local_extremes`: each index from `order` to `len - order - 1`
   * whose value equals its window's max is a peak, else one whose value
   * equals the window's min is a trough.
   */
  method FindLocalExtremes(values: seq<real>, order: nat) returns (peaks: seq<(nat, real)>, troughs: seq<(nat, real)>)
    ensures peaks == Extremes(values, order, true, |values| - order)
    ensures troughs == Extremes(values, order, false, |values| - order)
  {
    peaks, troughs := [], [];
    var i := order;
    while i < |values| - order
      invariant (order <= i && i + order <= |values|) || i == order
      invariant peaks == Extremes(values, order, true, i) && troughs == Extremes(values, order, false, i)
      decreases |values| - order - i
    {
      peaks, troughs := TestIndex(values, order, i, peaks, troughs);
      i := i + 1;
    }
  }

  /** One step of the scan: index `i` becomes a peak, a trough or neither. */
  method TestIndex(values: seq<real>, order: nat, i: nat, peaks: seq<(nat, real)>, troughs: seq<(nat, real)>)
    returns (peaks': seq<(nat, real)>, troughs': seq<(nat, real)>)
    requires order <= i && i + order < |values|
    requires peaks == Extremes(values, order, true, i) && troughs == Extremes(values, order, false, i)
    ensures peaks' == Extremes(values, order, true, i + 1) && troughs' == Extremes(values, order, false, i + 1)
  {
    var window := values[i - order..i + order + 1];
    ExtremesStep(values, order, i);
    peaks', troughs' := peaks, troughs;
    if values[i] == MaxOf(window) {
      peaks' := peaks + [(i, values[i])];
    } else if values[i] == MinOf(window) {
      troughs' := troughs + [(i, values[i])];
    }
  }

  // ---------------------------------------------------------------- clustering

  const DivisionByZero: string := "float division by zero"

  /** The clustering test: within `tol` percent of the current cluster's last price. */
  predicate Near(price: real, last: real, tol: real)
    requires last != 0.0
  {
    Abs(price - last) / last * 100.0 <= tol
  }

  /** The groups one after the other. */
  function Flatten(gs: seq<seq<real>>): seq<real>
    decreases |gs|
  {
    if gs == [] then [] else Flatten(gs[..|gs| - 1]) + gs[|gs| - 1]
  }

  lemma FlattenSnoc(gs: seq<seq<real>>, g: seq<real>)
    ensures Flatten(gs + [g]) == Flatten(gs) + g
  {
    assert (gs + [g])[..|gs|] == gs;
  }

  lemma FlattenExtend(gs: seq<seq<real>>, x: real)
    requires |gs| >= 1
    ensures var m := |gs| - 1; Flatten(gs[..m] + [gs[m] + [x]]) == Flatten(gs) + [x]
  {
    var m := |gs| - 1;
    FlattenSnoc(gs[..m], gs[m] + [x]);
    assert gs[..m] + [gs[m]] == gs;
    FlattenSnoc(gs[..m], gs[m]);
  }

  predicate NonEmptyGroups(gs: seq<seq<real>>) {
    forall k | 0 <= k < |gs| :: |gs[k]| >= 1
  }

  /**
   * The clusters of sorted levels: a price joins the current cluster when it
   * is near that cluster's last price, and opens a new one otherwise. A zero
   * price anywhere but last makes the test divide by zero.
   */
  function Groups(s: seq<real>, tol: real): (r: Result<seq<seq<real>>, string>)
    requires |s| >= 1
    ensures r.Ok? <==> forall i | 0 <= i < |s| - 1 :: s[i] != 0.0
    ensures r.Err? ==> r.error == DivisionByZero
    ensures r.Ok? ==> |r.value| >= 1 && NonEmptyGroups(r.value) && Flatten(r.value) == s
    decreases |s|
  {
    if |s| == 1 then
      assert Flatten([[s[0]]]) == Flatten([]) + [s[0]];
      Ok([[s[0]]])
    else
      var n := |s| - 1;
      PrefixNonZero(s);
      match Groups(s[..n], tol)
      case Err(e) => Err(e)
      case Ok(gs) =>
        var cur := gs[|gs| - 1];
        var last := cur[|cur| - 1];
        LastOfPrefix(s, gs);
        if last == 0.0 then Err(DivisionByZero)
        else if Near(s[n], last, tol) then
          ExtendCovers(s, gs);
          Ok(gs[..|gs| - 1] + [cur + [s[n]]])
        else
          OpenCovers(s, gs);
          Ok(gs + [[s[n]]])
  }

  /** No divisor is zero in `s` exactly when none is in its front and the last divisor is not. */
  lemma PrefixNonZero(s: seq<real>)
    requires |s| >= 2
    ensures var n := |s| - 1;
      (forall i | 0 <= i < |s| - 1 :: s[i] != 0.0) <==>
      (forall i | 0 <= i < n - 1 :: s[..n][i] != 0.0) && s[n - 1] != 0.0
  {
    var n := |s| - 1;
    assert forall i | 0 <= i < n - 1 :: s[..n][i] == s[i];
  }

  lemma LastOfPrefix(s: seq<real>, gs: seq<seq<real>>)
    requires |s| >= 2 && |gs| >= 1 && NonEmptyGroups(gs) && Flatten(gs) == s[..|s| - 1]
    ensures var cur := gs[|gs| - 1]; cur[|cur| - 1] == s[|s| - 2]
  {
    LastOfFlatten(gs);
  }

  lemma ExtendCovers(s: seq<real>, gs: seq<seq<real>>)
    requires |s| >= 2 && |gs| >= 1 && NonEmptyGroups(gs) && Flatten(gs) == s[..|s| - 1]
    ensures var m := |gs| - 1; var r := gs[..m] + [gs[m] + [s[|s| - 1]]];
      |r| >= 1 && NonEmptyGroups(r) && Flatten(r) == s
  {
    var n := |s| - 1;
    FlattenExtend(gs, s[n]);
    assert s[..n] + [s[n]] == s;
  }

  lemma OpenCovers(s: seq<real>, gs: seq<seq<real>>)
    requires |s| >= 2 && |gs| >= 1 && NonEmptyGroups(gs) && Flatten(gs) == s[..|s| - 1]
    ensures var r := gs + [[s[|s| - 1]]]; |r| >= 1 && NonEmptyGroups(r) && Flatten(r) == s
  {
    var n := |s| - 1;
    FlattenSnoc(gs, [s[n]]);
    assert s[..n] + [s[n]] == s;
  }

  lemma LastOfFlatten(gs: seq<seq<real>>)
    requires |gs| >= 1 && |gs[|gs| - 1]| >= 1
    ensures var f := Flatten(gs); var g := gs[|gs| - 1]; |f| >= 1 && f[|f| - 1] == g[|g| - 1]
  {
  }

  function Last(g: seq<real>): real
    requires |g| >= 1
  {
    g[|g| - 1]
  }

  /** The price after position `t` of the zone is near the price at `t`. */
  predicate NearNext(g: seq<real>, t: int, tol: real)
    requires 0 <= t < |g| - 1
  {
    g[t] != 0.0 && Near(g[t + 1], g[t], tol)
  }

  /** Each price of the zone is near the one before it. */
  predicate ZoneNear(g: seq<real>, tol: real) {
    forall t | 0 <= t < |g| - 1 :: NearNext(g, t, tol)
  }

  /** The zone after `k` opens with a price that is not near the last price of zone `k`. */
  predicate ApartNext(gs: seq<seq<real>>, k: int, tol: real)
    requires NonEmptyGroups(gs) && 0 <= k < |gs| - 1
  {
    Last(gs[k]) != 0.0 && !Near(gs[k + 1][0], Last(gs[k]), tol)
  }

  /** Zones are runs of near prices, separated where a gap is too wide. */
  predicate Chained(gs: seq<seq<real>>, tol: real)
    requires NonEmptyGroups(gs)
  {
    (forall k | 0 <= k < |gs| :: ZoneNear(gs[k], tol)) &&
    (forall k | 0 <= k < |gs| - 1 :: ApartNext(gs, k, tol))
  }

  lemma ChainedExtend(gs: seq<seq<real>>, x: real, tol: real)
    requires NonEmptyGroups(gs) && |gs| >= 1 && Chained(gs, tol)
    requires Last(gs[|gs| - 1]) != 0.0 && Near(x, Last(gs[|gs| - 1]), tol)
    ensures var m := |gs| - 1; var r := gs[..m] + [gs[m] + [x]]; NonEmptyGroups(r) && Chained(r, tol)
  {
    var m := |gs| - 1;
    var r := gs[..m] + [gs[m] + [x]];
    var g := gs[m] + [x];
    forall t | 0 <= t < |g| - 1
      ensures NearNext(g, t, tol)
    {
      if t < |g| - 2 {
        assert NearNext(gs[m], t, tol);
      }
    }
    forall k | 0 <= k < |r| - 1
      ensures ApartNext(r, k, tol)
    {
      assert ApartNext(gs, k, tol);
      assert r[k] == gs[k] && r[k + 1][0] == gs[k + 1][0];
    }
  }

  lemma ChainedOpen(gs: seq<seq<real>>, x: real, tol: real)
    requires NonEmptyGroups(gs) && |gs| >= 1 && Chained(gs, tol)
    requires Last(gs[|gs| - 1]) != 0.0 && !Near(x, Last(gs[|gs| - 1]), tol)
    ensures var r := gs + [[x]]; NonEmptyGroups(r) && Chained(r, tol)
  {
    var r := gs + [[x]];
    forall k | 0 <= k < |r| - 1
      ensures ApartNext(r, k, tol)
    {
      if k < |gs| - 1 {
        assert ApartNext(gs, k, tol);
      }
    }
  }

  /** One more price either extends the last zone or opens a new one. */
  lemma GroupsStep(s: seq<real>, x: real, tol: real)
    requires |s| >= 1 && Groups(s, tol).Ok?
    ensures var gs := Groups(s, tol).value; var m := |gs| - 1;
      Last(gs[m]) == Last(s) &&
      Groups(s + [x], tol) ==
        if Last(s) == 0.0 then Err(DivisionByZero)
        else if Near(x, Last(s), tol) then Ok(gs[..m] + [gs[m] + [x]])
        else Ok(gs + [[x]])
  {
    var t := s + [x];
    assert t[..|s|] == s && t[|s|] == x;
    var gs := Groups(s, tol).value;
    LastOfFlatten(gs);
    assert Last(gs[|gs| - 1]) == Last(s);
  }

  /** One more price keeps the clusters chained, whether it joins the last one or opens a new one. */
  lemma ChainedGrow(s: seq<real>, x: real, tol: real)
    requires |s| >= 1 && Groups(s, tol).Ok? && Chained(Groups(s, tol).value, tol)
    requires Groups(s + [x], tol).Ok?
    ensures Chained(Groups(s + [x], tol).value, tol)
  {
    GroupsStep(s, x, tol);
    var gs := Groups(s, tol).value;
    if Near(x, Last(gs[|gs| - 1]), tol) {
      ChainedExtend(gs, x, tol);
    } else {
      ChainedOpen(gs, x, tol);
    }
  }

  /** The clusters split the sorted levels exactly at the gaps wider than the tolerance. */
  lemma {:induction false} GroupsChained(s: seq<real>, tol: real)
    requires |s| >= 1 && Groups(s, tol).Ok?
    ensures Chained(Groups(s, tol).value, tol)
    decreases |s|
  {
    if |s| > 1 {
      var n := |s| - 1;
      var p := s[..n];
      assert forall i | 0 <= i < n - 1 :: p[i] == s[i];
      GroupsChained(p, tol);
      FrontLast(s);
      ChainedGrow(p, s[n], tol);
    }
  }

  /** The number of gaps between neighbouring prices wider than the tolerance. */
  function Gaps(s: seq<real>, tol: real): nat
    requires forall i | 0 <= i < |s| - 1 :: s[i] != 0.0
    decreases |s|
  {
    if |s| <= 1 then 0
    else
      var n := |s| - 1;
      assert forall i | 0 <= i < n - 1 :: s[..n][i] == s[i];
      Gaps(s[..n], tol) + if Near(s[n], s[n - 1], tol) then 0 else 1
  }

  /** There is one zone more than there are wide gaps. */
  lemma {:induction false} ZoneCount(s: seq<real>, tol: real)
    requires |s| >= 1 && Groups(s, tol).Ok?
    ensures |Groups(s, tol).value| == 1 + Gaps(s, tol)
    decreases |s|
  {
    if |s| > 1 {
      var n := |s| - 1;
      var p := s[..n];
      assert forall i | 0 <= i < n - 1 :: p[i] == s[i];
      ZoneCount(p, tol);
      FrontLast(s);
      ZoneGrow(p, s[n], tol);
    }
  }

  /** One more price adds a zone exactly when it adds a wide gap. */
  lemma ZoneGrow(s: seq<real>, x: real, tol: real)
    requires |s| >= 1 && Groups(s, tol).Ok? && |Groups(s, tol).value| == 1 + Gaps(s, tol)
    requires Groups(s + [x], tol).Ok?
    ensures |Groups(s + [x], tol).value| == 1 + Gaps(s + [x], tol)
  {
    GroupsStep(s, x, tol);
    var t := s + [x];
    assert t[..|s|] == s && t[|s|] == x && t[|s| - 1] == Last(s);
  }

  datatype Level = Level(level: real, strength: nat)

  function LevelOf(l: Level): real {
    l.level
  }

  function NegLevelOf(l: Level): real {
    -l.level
  }

  function Identity(x: real): real {
    x
  }

  function Sum(g: seq<real>): real
    decreases |g|
  {
    if g == [] then 0.0 else Sum(g[..|g| - 1]) + g[|g| - 1]
  }

  function Mean(g: seq<real>): real
    requires |g| >= 1
  {
    Sum(g) / (|g| as real)
  }

  /** One zone per cluster: its rounded mean and its size. */
  function Summaries(gs: seq<seq<real>>, round2: real -> real): (ls: seq<Level>)
    requires NonEmptyGroups(gs)
    ensures |ls| == |gs|
    ensures forall k | 0 <= k < |gs| :: ls[k] == Level(round2(Mean(gs[k])), |gs[k]|)
  {
    seq(|gs|, k requires 0 <= k < |gs| => Level(round2(Mean(gs[k])), |gs[k]|))
  }

  /** What `cluster_levels` returns. */
  function Clusters(levels: seq<real>, tol: real, round2: real -> real): Result<seq<Level>, string> {
    if levels == [] then Ok([])
    else
      match Groups(SortBy(levels, Identity), tol)
      case Err(e) => Err(e)
      case Ok(gs) => Ok(Summaries(gs, round2))
  }

  /**
   * The clustering loop of `cluster_levels` over sorted levels: each price
   * extends the current cluster when it is near that cluster's last price,
   * and closes it otherwise.
   */
  method GroupSorted(sorted: seq<real>, tol: real) returns (r: Result<seq<seq<real>>, string>)
    requires |sorted| >= 1
    ensures r == Groups(sorted, tol)
  {
    var clusters: seq<seq<real>> := [];
    var current := [sorted[0]];
    var i := 1;
    GroupsFirst(sorted, tol);
    while i < |sorted|
      invariant 1 <= i <= |sorted|
      invariant |current| >= 1
      invariant Groups(sorted[..i], tol) == Ok(clusters + [current])
    {
      GroupSortedStep(sorted, i, clusters, current, tol);
      var last := current[|current| - 1];
      if last == 0.0 {
        return Err(DivisionByZero);
      }
      if Near(sorted[i], last, tol) {
        current := current + [sorted[i]];
      } else {
        clusters := clusters + [current];
        current := [sorted[i]];
      }
      i := i + 1;
    }
    assert sorted[..i] == sorted;
    r := Ok(clusters + [current]);
  }

  /** The first price alone is one cluster. */
  lemma GroupsFirst(s: seq<real>, tol: real)
    requires |s| >= 1
    ensures Groups(s[..1], tol) == Ok([] + [[s[0]]])
  {
    assert s[..1] == [s[0]];
    assert [] + [[s[0]]] == [[s[0]]];
  }

  /** One step of the clustering loop, stated on the open cluster `current`. */
  lemma GroupSortedStep(sorted: seq<real>, i: nat, clusters: seq<seq<real>>, current: seq<real>, tol: real)
    requires 1 <= i < |sorted| && |current| >= 1
    requires Groups(sorted[..i], tol) == Ok(clusters + [current])
    ensures current[|current| - 1] == 0.0 ==> Groups(sorted, tol) == Err(DivisionByZero)
    ensures var last, x := current[|current| - 1], sorted[i];
      Groups(sorted[..i + 1], tol) ==
        if last == 0.0 then Err(DivisionByZero)
        else if Near(x, last, tol) then Ok(clusters + [current + [x]])
        else Ok((clusters + [current]) + [[x]])
  {
    assert sorted[..i] + [sorted[i]] == sorted[..i + 1];
    GroupsStep(sorted[..i], sorted[i], tol);
    assert (clusters + [current])[|clusters|] == current;
    assert (clusters + [current])[..|clusters|] == clusters;
    assert sorted[..i][i - 1] == sorted[i - 1];
    if current[|current| - 1] == 0.0 {
      GroupsZero(sorted, i - 1, tol);
    }
  }

  /** A zero price before the last one makes the clustering divide by zero. */
  lemma GroupsZero(s: seq<real>, j: nat, tol: real)
    requires j < |s| - 1 && s[j] == 0.0
    ensures Groups(s, tol) == Err(DivisionByZero)
  {
  }

  /** `cluster_levels`: no levels give no zones; otherwise the sorted levels are clustered and each cluster summarised. */
  method ClusterLevels(levels: seq<real>, tol: real, round2: real -> real) returns (r: Result<seq<Level>, string>)
    ensures r == Clusters(levels, tol, round2)
  {
    if |levels| == 0 {
      return Ok([]);
    }
    var sorted := SortBy(levels, Identity);
    var groups := GroupSorted(sorted, tol);
    match groups {
      case Err(e) => r := Err(e);
      case Ok(gs) => r := Ok(Summaries(gs, round2));
    }
  }

  function TotalStrength(ls: seq<Level>): nat
    decreases |ls|
  {
    if ls == [] then 0 else TotalStrength(ls[..|ls| - 1]) + ls[|ls| - 1].strength
  }

  lemma {:induction false} StrengthIsLength(gs: seq<seq<real>>, round2: real -> real)
    requires NonEmptyGroups(gs)
    ensures TotalStrength(Summaries(gs, round2)) == |Flatten(gs)|
    decreases |gs|
  {
    if gs != [] {
      var m := |gs| - 1;
      StrengthIsLength(gs[..m], round2);
      assert Summaries(gs, round2)[..m] == Summaries(gs[..m], round2);
    }
  }

  /** Every level lands in exactly one zone: the strengths add up to the number of levels. */
  lemma StrengthsCountLevels(levels: seq<real>, tol: real, round2: real -> real)
    requires Clusters(levels, tol, round2).Ok?
    ensures TotalStrength(Clusters(levels, tol, round2).value) == |levels|
  {
    if levels != [] {
      StrengthIsLength(Groups(SortBy(levels, Identity), tol).value, round2);
    }
  }

  lemma {:induction false} InFlatten(gs: seq<seq<real>>, k: nat, x: real)
    requires k < |gs| && x in gs[k]
    ensures x in Flatten(gs)
    decreases |gs|
  {
    var m := |gs| - 1;
    if k < m {
      assert gs[..m][k] == gs[k];
      InFlatten(gs[..m], k, x);
    }
  }

  /** When the flattened groups are sorted, every price of an earlier group is at most every price of a later one. */
  lemma {:induction false} GroupsOrdered(gs: seq<seq<real>>, j: nat, k: nat, x: real, y: real)
    requires SortedBy(Flatten(gs), Identity) && j < k < |gs| && x in gs[j] && y in gs[k]
    ensures x <= y
    decreases |gs|
  {
    var m := |gs| - 1;
    var whole := Flatten(gs);
    var front := Flatten(gs[..m]);
    assert whole == front + gs[m];
    assert gs[..m][j] == gs[j];
    if k < m {
      assert gs[..m][k] == gs[k];
      assert forall a | 0 <= a < |front| :: front[a] == whole[a];
      GroupsOrdered(gs[..m], j, k, x, y);
    } else {
      InFlatten(gs[..m], j, x);
      var a :| 0 <= a < |front| && front[a] == x;
      var b :| 0 <= b < |gs[m]| && gs[m][b] == y;
      assert whole[a] == x && whole[|front| + b] == y;
    }
  }

  lemma {:induction false} SumBounds(g: seq<real>, lo: real, hi: real)
    requires forall x | x in g :: lo <= x <= hi
    ensures (|g| as real) * lo <= Sum(g) <= (|g| as real) * hi
    decreases |g|
  {
    if g != [] {
      var m := |g| - 1;
      assert forall x | x in g[..m] :: x in g;
      SumBounds(g[..m], lo, hi);
      assert g[m] in g;
    }
  }

  /** A cluster's mean lies between any bounds on its prices. */
  lemma MeanBetween(g: seq<real>, lo: real, hi: real)
    requires |g| >= 1 && forall x | x in g :: lo <= x <= hi
    ensures lo <= Mean(g) <= hi
  {
    SumBounds(g, lo, hi);
    AverageBetween(Sum(g), |g| as real, lo, hi);
  }

  lemma AverageBetween(sum: real, n: real, lo: real, hi: real)
    requires n > 0.0 && n * lo <= sum <= n * hi
    ensures lo <= sum / n <= hi
  {
    assert sum / n - lo == (sum - n * lo) / n;
    assert hi - sum / n == (n * hi - sum) / n;
  }

  /** With a non-decreasing rounding, the zones come out in ascending order of level. */
  lemma ClustersAscending(levels: seq<real>, tol: real, round2: real -> real)
    requires Monotone(round2) && Clusters(levels, tol, round2).Ok?
    ensures SortedBy(Clusters(levels, tol, round2).value, LevelOf)
  {
    if levels != [] {
      var sorted := SortBy(levels, Identity);
      var gs := Groups(sorted, tol).value;
      var ls := Summaries(gs, round2);
      forall j, k | 0 <= j < k < |ls|
        ensures LevelOf(ls[j]) <= LevelOf(ls[k])
      {
        MeanBetween(gs[j], MinOf(gs[j]), MaxOf(gs[j]));
        MeanBetween(gs[k], MinOf(gs[k]), MaxOf(gs[k]));
        GroupsOrdered(gs, j, k, MaxOf(gs[j]), MinOf(gs[k]));
        assert Mean(gs[j]) <= Mean(gs[k]);
      }
    }
  }

  /** No levels, no zones. */
  lemma NoLevelsNoClusters(tol: real, round2: real -> real)
    ensures Clusters([], tol, round2) == Ok([])
  {
  }

  /** Five levels at tolerance 1.5 percent form two zones: three near 100 and two near 110. */
  lemma TwoZones(s: seq<real>, tol: real)
    requires s == [100.0, 100.5, 101.0, 110.0, 110.5] && tol == 1.5
    ensures Groups(s, tol) == Ok([[100.0, 100.5, 101.0], [110.0, 110.5]])
  {
    var front := s[..4];
    SecondZoneOpens(front, tol);
    assert Last(front) == 110.0;
    assert Near(110.5, 110.0, tol);
    GroupsStep(front, 110.5, tol);
    var gs := [[100.0, 100.5, 101.0], [110.0]];
    assert Groups(front + [110.5], tol) == Ok(gs[..1] + [gs[1] + [110.5]]);
    assert front + [110.5] == s;
    assert gs[..1] == [[100.0, 100.5, 101.0]] && gs[1] + [110.5] == [110.0, 110.5];
    assert gs[..1] + [gs[1] + [110.5]] == [[100.0, 100.5, 101.0], [110.0, 110.5]];
  }

  lemma SecondZoneOpens(s: seq<real>, tol: real)
    requires s == [100.0, 100.5, 101.0, 110.0] && tol == 1.5
    ensures Groups(s, tol) == Ok([[100.0, 100.5, 101.0], [110.0]])
  {
    var front := [100.0, 100.5, 101.0];
    FirstZone(front, tol);
    assert Last(front) == 101.0;
    assert !Near(110.0, 101.0, tol);
    OpenGroup(front, 110.0, tol);
    Snoc4(100.0, 100.5, 101.0, 110.0);
    PairOfZones(front, [110.0]);
  }

  lemma Snoc4(a: real, b: real, c: real, d: real)
    ensures [a, b, c] + [d] == [a, b, c, d]
  {
  }

  lemma PairOfZones(g: seq<real>, h: seq<real>)
    ensures [g] + [h] == [g, h]
  {
  }

  lemma FirstZone(s: seq<real>, tol: real)
    requires s == [100.0, 100.5, 101.0] && tol == 1.5
    ensures Groups(s, tol) == Ok([[100.0, 100.5, 101.0]])
  {
    var two := [100.0, 100.5];
    OpeningPair(two, tol);
    assert Near(101.0, 100.5, tol);
    JoinGroup(two, 101.0, tol);
    Snoc3(100.0, 100.5, 101.0);
  }

  lemma OpeningPair(s: seq<real>, tol: real)
    requires s == [100.0, 100.5] && tol == 1.5
    ensures Groups(s, tol) == Ok([s])
  {
    var one := [100.0];
    assert Groups(one, tol) == Ok([one]);
    assert Near(100.5, 100.0, tol);
    JoinGroup(one, 100.5, tol);
    Pair(100.0, 100.5);
  }

  lemma Snoc3(a: real, b: real, c: real)
    ensures [a, b] + [c] == [a, b, c]
  {
  }

  /** A price near the last one joins a run that is a single zone. */
  lemma JoinGroup(s: seq<real>, x: real, tol: real)
    requires |s| >= 1 && Groups(s, tol) == Ok([s])
    requires Last(s) != 0.0 && Near(x, Last(s), tol)
    ensures Groups(s + [x], tol) == Ok([s + [x]])
  {
    GroupsStep(s, x, tol);
    assert [s][..0] + [[s][0] + [x]] == [s + [x]];
  }

  /** A price far from the last one opens a zone of its own. */
  lemma OpenGroup(s: seq<real>, x: real, tol: real)
    requires |s| >= 1 && Groups(s, tol).Ok?
    requires Last(s) != 0.0 && !Near(x, Last(s), tol)
    ensures Groups(s + [x], tol) == Ok(Groups(s, tol).value + [[x]])
  {
    GroupsStep(s, x, tol);
  }

  // ---------------------------------------------------------------- support and resistance

  datatype SupportResistance = SupportResistance(resistance: seq<Level>, support: seq<Level>)

  function Prices(ps: seq<(nat, real)>): (r: seq<real>)
    ensures |r| == |ps| && forall k | 0 <= k < |ps| :: r[k] == ps[k].1
  {
    seq(|ps|, k requires 0 <= k < |ps| => ps[k].1)
  }

  /**
   * `find_support_resistance`: resistance clusters the close peaks and the
   * high peaks, support the close troughs and the low troughs; resistance is
   * then sorted ascending by level and support descending, both stably.
   */
  function FindSupportResistance(close: seq<real>, high: seq<real>, low: seq<real>, order: nat, tol: real,
                                 round2: real -> real): (r: Result<SupportResistance, string>)
    ensures r.Ok? ==> SortedBy(r.value.resistance, LevelOf) && SortedBy(r.value.support, NegLevelOf)
    ensures r.Ok? ==>
      TotalStrength(r.value.resistance) ==
        |Extremes(close, order, true, |close| - order)| + |Extremes(high, order, true, |high| - order)| &&
      TotalStrength(r.value.support) ==
        |Extremes(close, order, false, |close| - order)| + |Extremes(low, order, false, |low| - order)|
  {
    var resistance_prices := Prices(Extremes(close, order, true, |close| - order)) +
                             Prices(Extremes(high, order, true, |high| - order));
    var support_prices := Prices(Extremes(close, order, false, |close| - order)) +
                          Prices(Extremes(low, order, false, |low| - order));
    match Clusters(resistance_prices, tol, round2)
    case Err(e) => Err(e)
    case Ok(resistance) =>
      match Clusters(support_prices, tol, round2)
      case Err(e) => Err(e)
      case Ok(support) =>
        StrengthsCountLevels(resistance_prices, tol, round2);
        StrengthsCountLevels(support_prices, tol, round2);
        SortKeepsStrength(resistance, LevelOf);
        SortKeepsStrength(support, NegLevelOf);
        Ok(SupportResistance(SortBy(resistance, LevelOf), SortBy(support, NegLevelOf)))
  }

  /** Sorting zones keeps their total strength. */
  lemma SortKeepsStrength(ls: seq<Level>, key: Level -> real)
    ensures TotalStrength(SortBy(ls, key)) == TotalStrength(ls)
  {
    PermutationKeepsStrength(SortBy(ls, key), ls);
  }

  lemma {:induction false} PermutationKeepsStrength(a: seq<Level>, b: seq<Level>)
    requires multiset(a) == multiset(b)
    ensures TotalStrength(a) == TotalStrength(b)
    decreases |a|
  {
    if a != [] {
      var m := |a| - 1;
      var x := a[m];
      assert x in multiset(b);
      var j :| 0 <= j < |b| && b[j] == x;
      var b' := b[..j] + b[j + 1..];
      assert b == b[..j] + [x] + b[j + 1..];
      assert a == a[..m] + [x];
      assert multiset(a) == multiset(a[..m]) + multiset{x};
      assert multiset(b) == multiset(b[..j]) + multiset{x} + multiset(b[j + 1..]);
      assert b' == b[..j] + b[j + 1..];
      assert multiset(b') == multiset(b[..j]) + multiset(b[j + 1..]);
      assert multiset(a[..m]) == multiset(a) - multiset{x};
      assert multiset(b') == multiset(b) - multiset{x};
      PermutationKeepsStrength(a[..m], b');
      StrengthRemove(b, j);
    }
  }

  lemma {:induction false} StrengthRemove(b: seq<Level>, j: nat)
    requires j < |b|
    ensures TotalStrength(b) == TotalStrength(b[..j] + b[j + 1..]) + b[j].strength
    decreases |b|
  {
    var m := |b| - 1;
    if j < m {
      StrengthRemove(b[..m], j);
      assert b[..m][..j] == b[..j] && b[..m][j + 1..] == b[j + 1..m];
      var c := b[..j] + b[j + 1..];
      assert c[..|c| - 1] == b[..j] + b[j + 1..m] && c[|c| - 1] == b[m];
    } else {
      assert b[..j] + b[j + 1..] == b[..m];
    }
  }

  // ---------------------------------------------------------------- nearest levels

  /** Python's `xs[:n]`, where a negative `n` drops that many from the end. */
  function Take<T>(xs: seq<T>, n: int): (r: seq<T>)
    ensures r <= xs
    ensures n >= 0 ==> |r| == if n < |xs| then n else |xs|
    ensures n < 0 ==> |r| == if |xs| + n > 0 then |xs| + n else 0
  {
    if n >= 0 then (if n < |xs| then xs[..n] else xs)
    else if |xs| + n > 0 then xs[..|xs| + n] else []
  }

  /** The zones strictly above the price, in their order. */
  function Above(ls: seq<Level>, price: real): (r: seq<Level>)
    ensures forall l | l in r :: l in ls && l.level > price
    ensures forall l | l in ls && l.level > price :: l in r
    ensures forall l :: multiset(r)[l] == if l.level > price then multiset(ls)[l] else 0
    ensures Subsequence(r, ls)
  {
    if ls == [] then []
    else
      assert ls == [ls[0]] + ls[1..];
      var rest := Above(ls[1..], price);
      if ls[0].level > price then
        assert ([ls[0]] + rest)[1..] == rest;
        [ls[0]] + rest
      else rest
  }

  /** The zones strictly below the price, in their order. */
  function Below(ls: seq<Level>, price: real): (r: seq<Level>)
    ensures forall l | l in r :: l in ls && l.level < price
    ensures forall l | l in ls && l.level < price :: l in r
    ensures forall l :: multiset(r)[l] == if l.level < price then multiset(ls)[l] else 0
    ensures Subsequence(r, ls)
  {
    if ls == [] then []
    else
      assert ls == [ls[0]] + ls[1..];
      var rest := Below(ls[1..], price);
      if ls[0].level < price then
        assert ([ls[0]] + rest)[1..] == rest;
        [ls[0]] + rest
      else rest
  }

  /**
   * `get_nearest_levels`: the first `n` resistance zones above the price and
   * the first `n` support zones below it, each list in its given order.
   */
  function GetNearestLevels(price: real, sr: SupportResistance, n: int): (r: SupportResistance)
    ensures r.resistance <= Above(sr.resistance, price) && r.support <= Below(sr.support, price)
    ensures var above, below := |Above(sr.resistance, price)|, |Below(sr.support, price)|;
      (n >= 0 ==> |r.resistance| == (if n < above then n else above) && |r.support| == (if n < below then n else below)) &&
      (n < 0 ==> |r.resistance| == (if above + n > 0 then above + n else 0) &&
                 |r.support| == (if below + n > 0 then below + n else 0))
    ensures forall l | l in r.resistance :: l in sr.resistance && l.level > price
    ensures forall l | l in r.support :: l in sr.support && l.level < price
  {
    var res := Take(Above(sr.resistance, price), n);
    var sup := Take(Below(sr.support, price), n);
    assert forall l | l in res :: l in Above(sr.resistance, price);
    assert forall l | l in sup :: l in Below(sr.support, price);
    SupportResistance(res, sup)
  }

  /** Filtering keeps the order of an ordered list. */
  lemma {:induction false} AboveSorted(ls: seq<Level>, price: real, key: Level -> real)
    requires SortedBy(ls, key)
    ensures SortedBy(Above(ls, price), key)
    decreases |ls|
  {
    if ls != [] {
      SortedTail(ls, key);
      var rest := Above(ls[1..], price);
      AboveSorted(ls[1..], price, key);
      if ls[0].level > price {
        ConsSorted(ls[0], rest, key);
      }
    }
  }

  lemma {:induction false} BelowSorted(ls: seq<Level>, price: real, key: Level -> real)
    requires SortedBy(ls, key)
    ensures SortedBy(Below(ls, price), key)
    decreases |ls|
  {
    if ls != [] {
      SortedTail(ls, key);
      var rest := Below(ls[1..], price);
      BelowSorted(ls[1..], price, key);
      if ls[0].level < price {
        ConsSorted(ls[0], rest, key);
      }
    }
  }

  /**
   * On resistance sorted upward, as `find_support_resistance` returns it, the
   * zones returned are the nearest above the price: none lies higher than a
   * zone above the price that was left out.
   */
  lemma NearestResistance(price: real, sr: SupportResistance, n: int)
    requires SortedBy(sr.resistance, LevelOf)
    ensures forall i, j | 0 <= i < |GetNearestLevels(price, sr, n).resistance| <= j < |Above(sr.resistance, price)| ::
      GetNearestLevels(price, sr, n).resistance[i].level <= Above(sr.resistance, price)[j].level
  {
    AboveSorted(sr.resistance, price, LevelOf);
  }

  /**
   * On support sorted downward, the zones returned are the nearest below the
   * price: none lies lower than a zone below the price that was left out.
   */
  lemma NearestSupport(price: real, sr: SupportResistance, n: int)
    requires SortedBy(sr.support, NegLevelOf)
    ensures forall i, j | 0 <= i < |GetNearestLevels(price, sr, n).support| <= j < |Below(sr.support, price)| ::
      GetNearestLevels(price, sr, n).support[i].level >= Below(sr.support, price)[j].level
  {
    BelowSorted(sr.support, price, NegLevelOf);
  }

  /** With enough zones on a side, exactly `n` are returned. */
  lemma NearestFills(price: real, sr: SupportResistance, n: nat)
    requires |Above(sr.resistance, price)| >= n
    ensures |GetNearestLevels(price, sr, n).resistance| == n
  {
  }
}
