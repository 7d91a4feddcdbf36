/**
 * Terminal rendering of the algorithm's state: phase colours, effort emojis and
 * the seven-phase progress bar. The marker and emoji literals are the code
 * points the source file holds (its text was double-encoded: the current
 * marker is "▶ " read through Windows-1252, and so on), kept as written.
 */
module Visuals {
  import opened Text
  import opened Algorithm

  const CurrentMarker: string := "\U{E2}\U{2013}\U{B6} "
  const CheckMarker: string := "\U{E2}\U{153}\U{201C} "
  const DotMarker: string := "\U{C2}\U{B7} "

  /** `get_phase_color`: an RGB triple of bytes. */
  function PhaseColor(p: AlgorithmPhase): (rgb: (nat, nat, nat))
    ensures rgb.0 < 256 && rgb.1 < 256 && rgb.2 < 256
  {
    match p
    case Observe => (102, 255, 255)
    case Think => (204, 153, 255)
    case Plan => (153, 204, 255)
    case Build => (255, 204, 0)
    case Execute => (255, 153, 0)
    case Verify => (153, 255, 153)
    case Learn => (255, 153, 204)
  }

  /** Every phase has its own colour. */
  lemma PhaseColorsDistinct(p: AlgorithmPhase, q: AlgorithmPhase)
    ensures PhaseColor(p) == PhaseColor(q) <==> p == q
  {
  }

  /** `get_effort_emoji`. */
  function EffortEmoji(e: EffortLevel): (s: string)
    ensures |s| == 3 || |s| == 4
  {
    match e
    case Trivial => "\U{F0}\U{178}\U{2019}\U{AD}"
    case Quick => "\U{E2}\U{161}\U{A1}"
    case Standard => "\U{F0}\U{178}\U{201C}\U{160}"
    case Thorough => "\U{F0}\U{178}\U{201D}\U{AC}"
    case Determined => "\U{F0}\U{178}\U{17D}\U{AF}"
  }

  /** Every effort level has its own emoji. */
  lemma EffortEmojisDistinct(a: EffortLevel, b: EffortLevel)
    ensures EffortEmoji(a) == EffortEmoji(b) <==> a == b
  {
    if a != b {
      var x, y := EffortEmoji(a), EffortEmoji(b);
      assert x[|x| - 1] != y[|y| - 1] || |x| != |y| || x[2] != y[2];
    }
  }

  function Repeat(s: string, n: nat): (r: seq<string>)
    ensures |r| == n && forall k | 0 <= k < n :: r[k] == s
  {
    seq(n, _ => s)
  }

  /** The markers of the bar: a check per earlier phase, the current marker, a dot per later phase. */
  function Markers(current: AlgorithmPhase): (ms: seq<string>)
    ensures |ms| == |Phases|
  {
    var i := PhaseIndex(current);
    Repeat(CheckMarker, i) + [CurrentMarker] + Repeat(DotMarker, |Phases| - 1 - i)
  }

  /** The bar `render_progress_bar` draws. */
  function ProgressBar(current: AlgorithmPhase): string {
    "[ " + Concat(Markers(current)) + "]"
  }

  lemma MarkersDistinct()
    ensures CurrentMarker != CheckMarker && CurrentMarker != DotMarker && CheckMarker != DotMarker
  {
    assert CurrentMarker[1] != CheckMarker[1];
    assert |CheckMarker| != |DotMarker|;
  }

  /** The k-th marker tells where phase k stands relative to the current phase. */
  lemma MarkerOfPhase(current: AlgorithmPhase, k: nat)
    requires k < |Phases|
    ensures Markers(current)[k] == CurrentMarker <==> Phases[k] == current
    ensures Markers(current)[k] == CheckMarker <==> k < PhaseIndex(current)
    ensures Markers(current)[k] == DotMarker <==> k > PhaseIndex(current)
  {
    MarkersDistinct();
  }

  /** The marker the loop of `render_progress_bar` picks for the k-th phase. */
  function MarkerFor(phase: AlgorithmPhase, current: AlgorithmPhase): string {
    if phase == current then CurrentMarker
    else if PhaseIndex(phase) < PhaseIndex(current) then CheckMarker
    else DotMarker
  }

  lemma MarkerForIsMarker(current: AlgorithmPhase, k: nat)
    requires k < |Phases|
    ensures MarkerFor(Phases[k], current) == Markers(current)[k]
  {
    PhaseIndexInjective(Phases[k], current);
  }

  /** At `Execute`: four checks, the current marker, two dots. */
  lemma ExecuteBar()
    ensures Markers(Execute) == [CheckMarker, CheckMarker, CheckMarker, CheckMarker, CurrentMarker, DotMarker, DotMarker]
  {
  }

  /** Pushing the k-th phase's marker onto the bar drawn so far draws one phase more. */
  lemma BarStep(current: AlgorithmPhase, k: nat, bar: string)
    requires k < |Phases| && bar == "[ " + Concat(Markers(current)[..k])
    ensures bar + MarkerFor(Phases[k], current) == "[ " + Concat(Markers(current)[..k + 1])
  {
    MarkerForIsMarker(current, k);
    ConcatPrefixStep("[ ", Markers(current), k, bar);
  }

  /** `render_progress_bar`: pushes one marker per phase, in phase order, between "[ " and "]". */
  method RenderProgressBar(current: AlgorithmPhase) returns (bar: string)
    ensures bar == ProgressBar(current)
    ensures StartsWith(bar, "[ ") && bar[|bar| - 1] == ']'
  {
    var phases := [Observe, Think, Plan, Build, Execute, Verify, Learn];
    ghost var ms := Markers(current);
    bar := "[ ";
    var k := 0;
    while k < |phases|
      invariant 0 <= k <= |phases| && phases == Phases
      invariant bar == "[ " + Concat(ms[..k])
    {
      var phase := phases[k];
      var marker;
      if phase == current {
        marker := CurrentMarker;
      } else if PhaseIndex(phase) < PhaseIndex(current) {
        marker := CheckMarker;
      } else {
        marker := DotMarker;
      }
      assert marker == MarkerFor(phase, current);
      BarStep(current, k, bar);
      bar := bar + marker;
      k := k + 1;
    }
    assert ms[..k] == ms;
    bar := bar + "]";
    assert bar[..2] == "[ ";
  }
}
