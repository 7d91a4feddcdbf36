/**
 * `LearningEngine`: where a captured signal is logged, how the stored
 * performance statistics are loaded, and how one signal updates them.
 * Reading, writing and appending to files are not modelled: the outcome of
 * reading the statistics file is a parameter.
 */
module Learning {
  import opened Wrappers
  import opened Paths
  import opened Json

  /** A rating's score is a `u8`. */
  datatype SignalType = Failure | Loopback | Rating(score: nat) | Anomaly

  datatype Signal = Signal(timestamp: int, session_id: string, signal_type: SignalType, phase: string, reason: string)

  /** Every counter is a `u32`. */
  datatype PerformanceStats = PerformanceStats(
    total_tasks: nat,
    successful_tasks: nat,
    total_loopbacks: nat,
    algorithm_compliance_streak: nat)

  /** `PerformanceStats::default()`. */
  const Zero := PerformanceStats(0, 0, 0, 0)

  /** The message of the panic an overflowing `+= 1` raises. */
  const Overflow: string := "attempt to add with overflow"

  /** The log file a signal of this type is appended to. */
  function SignalFileName(t: SignalType): (name: string)
    ensures |name| > 6 && name[|name| - 6..] == ".jsonl"
  {
    match t
    case Failure => "failures.jsonl"
    case Loopback => "loopbacks.jsonl"
    case Rating(_) => "ratings.jsonl"
    case Anomaly => "anomalies.jsonl"
  }

  /** Signals of different kinds never share a log; ratings share one whatever their score. */
  lemma SignalFilesDistinct(a: SignalType, b: SignalType)
    ensures SignalFileName(a) == SignalFileName(b) <==> (a.Rating? && b.Rating?) || a == b
  {
    var x, y := SignalFileName(a), SignalFileName(b);
    if x == y && !(a.Rating? && b.Rating?) {
      assert |x| == |y| && x[0] == y[0] && x[1] == y[1];
    }
  }

  /** `capture_signal`'s log: root/History/Signals/<file>. */
  function SignalPath(root: Path, t: SignalType): (p: Path)
    ensures p == root + ["History", "Signals", SignalFileName(t)]
  {
    Join(Join(Join(root, "History"), "Signals"), SignalFileName(t))
  }

  /** What reading the statistics file gave. */
  datatype StoredStats =
    | Missing                                // the file does not exist
    | Unreadable(error: string)              // it exists but could not be read
    | Stored(parsed: Option<PerformanceStats>) // its contents, `None` when they do not parse

  /** `update_stats`, loading part: a missing file or unparsable contents give the zero statistics. */
  function LoadStats(stored: StoredStats): (r: Result<PerformanceStats, string>)
    ensures stored.Unreadable? <==> r.Err?
    ensures stored.Unreadable? ==> r.error == stored.error
    ensures stored.Stored? && stored.parsed.Some? ==> r == Ok(stored.parsed.value)
    ensures stored.Missing? || stored == Stored(None) ==> r == Ok(Zero)
  {
    match stored
    case Missing => Ok(Zero)
    case Unreadable(error) => Err(error)
    case Stored(parsed) => Ok(parsed.GetOr(Zero))
  }

  /** At most as many successful tasks as tasks. */
  predicate Consistent(s: PerformanceStats) {
    s.successful_tasks <= s.total_tasks
  }

  /** Every counter fits in a `u32`. */
  predicate InRange(s: PerformanceStats) {
    s.total_tasks <= U32_MAX && s.successful_tasks <= U32_MAX &&
    s.total_loopbacks <= U32_MAX && s.algorithm_compliance_streak <= U32_MAX
  }

  /** A rating of 7 or more is a success. */
  predicate Succeeds(t: SignalType) {
    t.Rating? && t.score >= 7
  }

  /** The signal counts as a task: a failure or a success. */
  predicate Counts(t: SignalType) {
    t.Failure? || Succeeds(t)
  }

  /**
   * The statistics after one signal, or the overflow panic: a failure counts a
   * task and breaks the streak, a loopback is counted, a rating of 7 or more
   * counts a successful task and extends the streak, anything else is ignored.
   */
  function Next(s: PerformanceStats, t: SignalType): (r: Result<PerformanceStats, string>)
    ensures r.Err? <==> (Counts(t) && s.total_tasks == U32_MAX) || (t.Loopback? && s.total_loopbacks == U32_MAX) ||
                        (Succeeds(t) && (s.successful_tasks == U32_MAX || s.algorithm_compliance_streak == U32_MAX))
    ensures r.Err? ==> r.error == Overflow
    ensures r.Ok? ==>
      var n := r.value;
      n.total_tasks == s.total_tasks + (if Counts(t) then 1 else 0) &&
      n.successful_tasks == s.successful_tasks + (if Succeeds(t) then 1 else 0) &&
      n.total_loopbacks == s.total_loopbacks + (if t.Loopback? then 1 else 0) &&
      n.algorithm_compliance_streak == (if t.Failure? then 0 else s.algorithm_compliance_streak + (if Succeeds(t) then 1 else 0))
  {
    match t
    case Failure =>
      if s.total_tasks == U32_MAX then Err(Overflow)
      else Ok(s.(total_tasks := s.total_tasks + 1, algorithm_compliance_streak := 0))
    case Loopback =>
      if s.total_loopbacks == U32_MAX then Err(Overflow)
      else Ok(s.(total_loopbacks := s.total_loopbacks + 1))
    case Rating(score) =>
      if score < 7 then Ok(s)
      else if s.total_tasks == U32_MAX then Err(Overflow)
      else if s.successful_tasks == U32_MAX then Err(Overflow)
      else if s.algorithm_compliance_streak == U32_MAX then Err(Overflow)
      else Ok(PerformanceStats(s.total_tasks + 1, s.successful_tasks + 1, s.total_loopbacks, s.algorithm_compliance_streak + 1))
    case Anomaly => Ok(s)
  }

  /** Every update keeps the successful tasks within the tasks, and every counter within `u32`. */
  lemma NextKeepsInvariant(s: PerformanceStats, t: SignalType)
    requires Consistent(s) && InRange(s)
    ensures Next(s, t).Ok? ==> Consistent(Next(s, t).value) && InRange(Next(s, t).value)
  {
  }

  /** Counters never go down, except the streak, which only a failure resets. */
  lemma NextNeverUncounts(s: PerformanceStats, t: SignalType)
    ensures Next(s, t).Ok? ==>
      var n := Next(s, t).value;
      n.total_tasks >= s.total_tasks && n.successful_tasks >= s.successful_tasks &&
      n.total_loopbacks >= s.total_loopbacks &&
      (n.algorithm_compliance_streak < s.algorithm_compliance_streak ==> t.Failure?)
  {
  }

  /** A consistent record cannot overflow on successes without overflowing on tasks first. */
  lemma RatingOverflowIsTaskOverflow(s: PerformanceStats, score: nat)
    requires Consistent(s) && InRange(s) && score >= 7 && s.algorithm_compliance_streak < U32_MAX
    ensures Next(s, Rating(score)).Err? <==> s.total_tasks == U32_MAX
  {
  }

  /**
   * `update_stats`, counting part: the statistics are updated field by field,
   * as the source does, with a check before every increment.
   */
  method UpdateStats(stats: PerformanceStats, t: SignalType) returns (r: Result<PerformanceStats, string>)
    ensures r == Next(stats, t)
  {
    var s := stats;
    match t {
      case Failure =>
        if s.total_tasks == U32_MAX { return Err(Overflow); }
        s := s.(total_tasks := s.total_tasks + 1);
        s := s.(algorithm_compliance_streak := 0);
      case Loopback =>
        if s.total_loopbacks == U32_MAX { return Err(Overflow); }
        s := s.(total_loopbacks := s.total_loopbacks + 1);
      case Rating(score) =>
        if score >= 7 {
          if s.total_tasks == U32_MAX { return Err(Overflow); }
          s := s.(total_tasks := s.total_tasks + 1);
          if s.successful_tasks == U32_MAX { return Err(Overflow); }
          s := s.(successful_tasks := s.successful_tasks + 1);
          if s.algorithm_compliance_streak == U32_MAX { return Err(Overflow); }
          s := s.(algorithm_compliance_streak := s.algorithm_compliance_streak + 1);
        }
      case Anomaly =>
    }
    return Ok(s);
  }

  /** A first excellent rating on a fresh record: one task, one success, a streak of one. */
  lemma FirstRating()
    ensures LoadStats(Missing).Ok? && Next(LoadStats(Missing).value, Rating(10)) == Ok(PerformanceStats(1, 1, 0, 1))
  {
  }
}
