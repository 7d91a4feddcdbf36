/**
 * The seven-phase task algorithm: phases, effort levels, ideal-state
 * requirements, and `TaskAlgorithm`, whose `advance` steps through the phases.
 */
module Algorithm {

  datatype AlgorithmPhase = Observe | Think | Plan | Build | Execute | Verify | Learn

  datatype EffortLevel = Trivial | Quick | Standard | Thorough | Determined

  datatype ISCSource = Explicit | Inferred | Implicit

  datatype ISCStatus = Pending | Active | Done | Adjusted(why: string) | Blocked(why: string)

  /** `id` is a `u32`. */
  datatype ISCRequirement = ISCRequirement(id: nat, description: string, source: ISCSource, status: ISCStatus)

  /** The phases in the order the algorithm goes through them. */
  const Phases: seq<AlgorithmPhase> := [Observe, Think, Plan, Build, Execute, Verify, Learn]

  /** Position of a phase in `Phases`. */
  function PhaseIndex(p: AlgorithmPhase): (i: nat)
    ensures i < |Phases| && Phases[i] == p
  {
    match p
    case Observe => 0
    case Think => 1
    case Plan => 2
    case Build => 3
    case Execute => 4
    case Verify => 5
    case Learn => 6
  }

  lemma PhaseIndexInjective(p: AlgorithmPhase, q: AlgorithmPhase)
    ensures PhaseIndex(p) == PhaseIndex(q) <==> p == q
  {
  }

  /** Position of an effort level in declaration order, from `Trivial` to `Determined`. */
  function EffortRank(e: EffortLevel): (r: nat)
    ensures r < 5
    ensures r == 0 <==> e == Trivial
    ensures r == 4 <==> e == Determined
  {
    match e
    case Trivial => 0
    case Quick => 1
    case Standard => 2
    case Thorough => 3
    case Determined => 4
  }

  class TaskAlgorithm {
    var phase: AlgorithmPhase
    var effort: EffortLevel
    var requirements: seq<ISCRequirement>

    /** `TaskAlgorithm::new`. */
    constructor (effort: EffortLevel)
      ensures phase == Observe && this.effort == effort && requirements == []
    {
      phase := Observe;
      this.effort := effort;
      requirements := [];
    }

    /** Moves to the next phase and answers `true`, or answers `false` at `Learn`. Nothing else changes. */
    method Advance() returns (advanced: bool)
      modifies this
      ensures advanced <==> old(phase) != Learn
      ensures advanced ==> PhaseIndex(phase) == PhaseIndex(old(phase)) + 1
      ensures !advanced ==> phase == old(phase)
      ensures effort == old(effort) && requirements == old(requirements)
    {
      match phase {
        case Observe => phase := Think;
        case Think => phase := Plan;
        case Plan => phase := Build;
        case Build => phase := Execute;
        case Execute => phase := Verify;
        case Verify => phase := Learn;
        case Learn => return false;
      }
      return true;
    }
  }

  /** Advancing a new task seven times: six steps reach `Learn`, the seventh is refused. */
  method RunThroughPhases(effort: EffortLevel) returns (answers: seq<bool>, last: AlgorithmPhase)
    ensures answers == [true, true, true, true, true, true, false]
    ensures last == Learn
  {
    var task := new TaskAlgorithm(effort);
    answers := [];
    var k := 0;
    while k < 7
      invariant 0 <= k <= 7
      invariant |answers| == k
      invariant forall j | 0 <= j < k :: answers[j] == (j < 6)
      invariant PhaseIndex(task.phase) == if k < 6 then k else 6
    {
      var advanced := task.Advance();
      answers := answers + [advanced];
      k := k + 1;
    }
    last := task.phase;
  }
}
