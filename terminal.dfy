/**
 * The choices the terminal tables make for each cell: the colour of a grade
 * and of a gap, and the short rendering of a volume. `None` stands for NaN.
 * Fixed-point float formatting (`:.1f`, `:.0f`) is left abstract: the
 * formatters are parameters.
 */
module Terminal {
  import opened Wrappers
  import opened Text
  import Scoring

  /** `_grade_color`: one style per letter grade, white for anything else. */
  function GradeColor(grade: string): (style: string)
    ensures style in ["bold green", "green", "yellow", "red", "white"]
  {
    if grade == "A" then "bold green"
    else if grade == "B" then "green"
    else if grade == "C" then "yellow"
    else if grade == "F" then "red"
    else "white"
  }

  /** Every grade the composite score hands out has a colour of its own; only an unknown grade is white. */
  lemma GradesAreColoured(total: real, other: string)
    requires other !in ["A", "B", "C", "F"]
    ensures GradeColor(Scoring.Grade(total)) != "white"
    ensures GradeColor(other) == "white"
  {
  }

  /** Different grades are told apart by colour. */
  lemma GradeColorsDistinct(a: string, b: string)
    requires a in ["A", "B", "C", "F"] && b in ["A", "B", "C", "F"] && a != b
    ensures GradeColor(a) != GradeColor(b)
  {
  }

  /** `_gap_color`: greens for gaps up, reds for gaps down, bold beyond five percent. */
  function GapColor(gap_pct: Option<real>): (style: string)
    ensures style in ["bold green", "green", "bold red", "red", "white"]
  {
    if gap_pct.None? then "white"
    else if gap_pct.value > 5.0 then "bold green"
    else if gap_pct.value > 0.0 then "green"
    else if gap_pct.value < -5.0 then "bold red"
    else if gap_pct.value < 0.0 then "red"
    else "white"
  }

  /** The bands: (5, inf), (0, 5], [-5, 0), (-inf, -5) and exactly zero or NaN. */
  lemma GapColorBands(gap: real)
    ensures var style := GapColor(Some(gap));
      (style == "bold green" <==> gap > 5.0) &&
      (style == "green" <==> 0.0 < gap <= 5.0) &&
      (style == "red" <==> -5.0 <= gap < 0.0) &&
      (style == "bold red" <==> gap < -5.0) &&
      (style == "white" <==> gap == 0.0)
    ensures GapColor(None) == "white"
  {
  }

  /** A gap and its mirror image get the same weight of colour, green one way and red the other. */
  lemma GapColorSymmetric(gap: real)
    requires gap > 0.0
    ensures GapColor(Some(gap)) == "bold green" <==> GapColor(Some(-gap)) == "bold red"
    ensures GapColor(Some(gap)) == "green" <==> GapColor(Some(-gap)) == "red"
  {
  }

  /** Python's `int(v)` on a float: truncation toward zero. */
  function Trunc(v: real): (n: int)
    ensures v >= 0.0 ==> n as real <= v < n as real + 1.0
    ensures v < 0.0 ==> n as real - 1.0 < v <= n as real
  {
    if v >= 0.0 then v.Floor else -((-v).Floor)
  }

  /** `str(n)` for an integer. */
  function IntText(n: int): (s: string)
    ensures |s| >= 1 && IsDigit(s[|s| - 1])
    ensures n >= 0 ==> (forall t | 0 <= t < |s| :: IsDigit(s[t])) && DigitsValue(s) == n
    ensures n < 0 ==> s[0] == '-'
  {
    if n >= 0 then NatToString(n) else "-" + NatToString(-n)
  }

  /**
   * `_format_volume`: "-" for NaN or zero; millions with one decimal and an
   * M; thousands with no decimals and a K; below a thousand, the whole
   * number.
   */
  function FormatVolume(vol: Option<real>, fixed1: real -> string, fixed0: real -> string): (s: string)
  {
    if vol.None? || vol.value == 0.0 then "-"
    else if vol.value >= 1000000.0 then fixed1(vol.value / 1000000.0) + "M"
    else if vol.value >= 1000.0 then fixed0(vol.value / 1000.0) + "K"
    else IntText(Trunc(vol.value))
  }

  /**
   * The rendering's last character tells the branch: "-" exactly for NaN
   * or zero, an M exactly from a million up, a K exactly from a thousand
   * up to a million, and a digit for every other volume.
   */
  lemma VolumeSuffix(vol: Option<real>, fixed1: real -> string, fixed0: real -> string)
    ensures var s := FormatVolume(vol, fixed1, fixed0);
      |s| >= 1 &&
      (s == "-" <==> vol.None? || vol.value == 0.0) &&
      (s[|s| - 1] == 'M' <==> vol.Some? && vol.value >= 1000000.0) &&
      (s[|s| - 1] == 'K' <==> vol.Some? && 1000.0 <= vol.value < 1000000.0) &&
      (IsDigit(s[|s| - 1]) <==> vol.Some? && vol.value != 0.0 && vol.value < 1000.0)
  {
    var s := FormatVolume(vol, fixed1, fixed0);
    if vol.Some? && vol.value != 0.0 && vol.value < 1000.0 {
      assert IsDigit(s[|s| - 1]);
      assert s != "-" by { assert s[|s| - 1] != '-'; }
    }
  }

  /** Between one and a thousand the rendering is the volume's whole part, in at most three digits. */
  lemma SmallVolumeIsWholePart(vol: real, fixed1: real -> string, fixed0: real -> string)
    requires 1.0 <= vol < 1000.0
    ensures var s := FormatVolume(Some(vol), fixed1, fixed0);
      1 <= |s| <= 3 && (forall t | 0 <= t < |s| :: IsDigit(s[t])) && DigitsValue(s) == vol.Floor
  {
    NatToStringWidth(vol.Floor);
  }

  /** Numbers below 10, 100 and 1000 are written in at most one, two and three digits. */
  lemma {:induction false} NatToStringWidth(n: nat)
    ensures n < 10 ==> |NatToString(n)| == 1
    ensures n < 100 ==> |NatToString(n)| <= 2
    ensures n < 1000 ==> |NatToString(n)| <= 3
    decreases n
  {
    if n >= 10 {
      NatToStringWidth(n / 10);
    }
  }
}
