/** Capability limits granted to a task according to its effort level. */
module Orchestration {
  import opened Algorithm
  import opened Json

  /** `max_parallel_agents` and `iteration_limit` are `u32`s. */
  datatype CapabilityLimits = CapabilityLimits(
    target_model: string,
    max_parallel_agents: nat,
    allow_background_thinking: bool,
    iteration_limit: nat)

  /** `CapabilityOrchestrator::get_limits`. */
  function GetLimits(effort: EffortLevel): (l: CapabilityLimits)
    ensures l.max_parallel_agents <= 32 && 1 <= l.iteration_limit <= U32_MAX
    ensures l.allow_background_thinking <==> EffortRank(effort) >= EffortRank(Standard)
    ensures l.target_model == (if EffortRank(effort) <= EffortRank(Quick) then "haiku"
                               else if EffortRank(effort) <= EffortRank(Thorough) then "sonnet"
                               else "opus")
  {
    match effort
    case Trivial => CapabilityLimits("haiku", 0, false, 1)
    case Quick => CapabilityLimits("haiku", 2, false, 1)
    case Standard => CapabilityLimits("sonnet", 4, true, 3)
    case Thorough => CapabilityLimits("sonnet", 8, true, 5)
    case Determined => CapabilityLimits("opus", 32, true, U32_MAX)
  }

  /** More effort never grants fewer agents or fewer iterations, nor takes background thinking away. */
  lemma LimitsMonotone(a: EffortLevel, b: EffortLevel)
    requires EffortRank(a) <= EffortRank(b)
    ensures GetLimits(a).max_parallel_agents <= GetLimits(b).max_parallel_agents
    ensures GetLimits(a).iteration_limit <= GetLimits(b).iteration_limit
    ensures GetLimits(a).allow_background_thinking ==> GetLimits(b).allow_background_thinking
  {
  }

  /** Strictly more effort grants strictly more agents. */
  lemma AgentsStrictlyIncreasing(a: EffortLevel, b: EffortLevel)
    requires EffortRank(a) < EffortRank(b)
    ensures GetLimits(a).max_parallel_agents < GetLimits(b).max_parallel_agents
  {
  }
}

/** `EffortClassifier`: guesses the effort a query calls for from the words it contains. */
module Classifier {
  import opened Text
  import opened Algorithm

  /** The three pattern lists; every pattern is a plain lowercase literal. */
  datatype EffortClassifier = EffortClassifier(
    quick_patterns: seq<string>,
    thorough_patterns: seq<string>,
    determined_patterns: seq<string>)

  function New(): (c: EffortClassifier)
    ensures forall k | 0 <= k < |c.quick_patterns| :: IsLower(c.quick_patterns[k])
    ensures forall k | 0 <= k < |c.thorough_patterns| :: IsLower(c.thorough_patterns[k])
    ensures forall k | 0 <= k < |c.determined_patterns| :: IsLower(c.determined_patterns[k])
  {
    var quick := ["quick", "simple", "typo", "just"];
    var thorough := ["thorough", "comprehensive", "refactor", "architect"];
    var determined := ["until done", "don't stop", "whatever it takes"];
    QuickLower(quick);
    ThoroughLower(thorough);
    DeterminedLower(determined);
    EffortClassifier(quick, thorough, determined)
  }

  lemma QuickLower(ps: seq<string>)
    requires ps == ["quick", "simple", "typo", "just"]
    ensures forall k | 0 <= k < |ps| :: IsLower(ps[k])
  {
  }

  lemma ThoroughLower(ps: seq<string>)
    requires ps == ["thorough", "comprehensive", "refactor", "architect"]
    ensures forall k | 0 <= k < |ps| :: IsLower(ps[k])
  {
  }

  lemma DeterminedLower(ps: seq<string>)
    requires ps == ["until done", "don't stop", "whatever it takes"]
    ensures forall k | 0 <= k < |ps| :: IsLower(ps[k])
  {
  }

  /** `classify`: the query is lowercased, then determined, thorough and quick phrases are tried in that order. */
  function Classify(c: EffortClassifier, query: string): (level: EffortLevel)
    ensures var q := ToLower(query);
      (level == Determined <==> ContainsAny(q, c.determined_patterns)) &&
      (level == Thorough <==> !ContainsAny(q, c.determined_patterns) && ContainsAny(q, c.thorough_patterns)) &&
      (level == Quick <==> !ContainsAny(q, c.determined_patterns) && !ContainsAny(q, c.thorough_patterns) &&
                           ContainsAny(q, c.quick_patterns)) &&
      (level == Standard <==> !ContainsAny(q, c.determined_patterns) && !ContainsAny(q, c.thorough_patterns) &&
                              !ContainsAny(q, c.quick_patterns))
  {
    var q := ToLower(query);
    if ContainsAny(q, c.determined_patterns) then Determined
    else if ContainsAny(q, c.thorough_patterns) then Thorough
    else if ContainsAny(q, c.quick_patterns) then Quick
    else Standard
  }

  /** Case does not matter: a query and its lowercase form are classified alike. */
  lemma ClassifyIgnoresCase(c: EffortClassifier, query: string)
    ensures Classify(c, query) == Classify(c, ToLower(query))
  {
    LowerIsLower(query);
    LowerFixesLower(ToLower(query));
  }

  /** A determined phrase anywhere in the query wins over every other word. */
  lemma DeterminedWins(before: string, k: nat, after: string)
    requires k < |New().determined_patterns|
    ensures Classify(New(), before + New().determined_patterns[k] + after) == Determined
  {
    var p := New().determined_patterns[k];
    ToLowerAppend(before + p, after);
    ToLowerAppend(before, p);
    LowerFixesLower(p);
    ContainsInMiddle(ToLower(before), p, ToLower(after));
  }

  /** "fix a quick typo" holds "quick". */
  lemma QuickTypoPhrase(query: string)
    requires query == "fix a quick typo"
    ensures ContainsAny(query, New().quick_patterns)
  {
    ContainsInMiddle("fix a ", "quick", " typo");
    assert "fix a " + "quick" + " typo" == query;
    assert New().quick_patterns[0] == "quick";
  }

  /** "fix a quick typo" holds none of the determined phrases. */
  lemma QuickTypoNotDetermined(query: string)
    requires query == "fix a quick typo"
    ensures !ContainsAny(query, New().determined_patterns)
  {
    var c := New();
    // 'n' and 'w' are missing from the query.
    NotContainedByChar(query, c.determined_patterns[0], 1);
    NotContainedByChar(query, c.determined_patterns[1], 2);
    NotContainedByChar(query, c.determined_patterns[2], 0);
  }

  /** "fix a quick typo" holds none of the thorough phrases. */
  lemma QuickTypoNotThorough(query: string)
    requires query == "fix a quick typo"
    ensures !ContainsAny(query, New().thorough_patterns)
  {
    var c := New();
    // 'h', 'm' and 'r' are missing from the query.
    NotContainedByChar(query, c.thorough_patterns[0], 1);
    NotContainedByChar(query, c.thorough_patterns[1], 2);
    NotContainedByChar(query, c.thorough_patterns[2], 0);
    NotContainedByChar(query, c.thorough_patterns[3], 1);
  }

  lemma QuickTypo(query: string)
    requires query == "fix a quick typo"
    ensures Classify(New(), query) == Quick
  {
    LowerFixesLower(query);
    QuickTypoPhrase(query);
    QuickTypoNotDetermined(query);
    QuickTypoNotThorough(query);
  }

  /** "architect a new microservice" holds "architect". */
  lemma ArchitectPhrase(query: string)
    requires query == "architect a new microservice"
    ensures ContainsAny(query, New().thorough_patterns)
  {
    assert query[..9] == "architect";
    ContainsWitness(query, "architect", 0);
    assert New().thorough_patterns[3] == "architect";
  }

  /** "architect a new microservice" holds none of the determined phrases. */
  lemma ArchitectNotDetermined(query: string)
    requires query == "architect a new microservice"
    ensures !ContainsAny(query, New().determined_patterns)
  {
    var c := New();
    ArchitectLacks(query);
    assert c.determined_patterns[0][0] == 'u' && c.determined_patterns[1][3] == '\'' && c.determined_patterns[2][14] == 'k';
    NotContainedByChar(query, c.determined_patterns[0], 0);
    NotContainedByChar(query, c.determined_patterns[1], 3);
    NotContainedByChar(query, c.determined_patterns[2], 14);
  }

  lemma ArchitectLacks(query: string)
    requires query == "architect a new microservice"
    ensures 'u' !in query && '\'' !in query && 'k' !in query
  {
  }

  lemma ArchitectMicroservice(query: string)
    requires query == "architect a new microservice"
    ensures Classify(New(), query) == Thorough
  {
    LowerFixesLower(query);
    ArchitectPhrase(query);
    ArchitectNotDetermined(query);
  }

  lemma KeepGoingUntilDone(query: string)
    requires query == "keep going until done"
    ensures Classify(New(), query) == Determined
  {
    LowerFixesLower(query);
    ContainsInMiddle("keep going ", "until done", "");
    assert "keep going " + "until done" + "" == query;
    assert New().determined_patterns[0] == "until done";
  }

  lemma Hello(query: string)
    requires query == "hello"
    ensures Classify(New(), query) == Standard
  {
    var c := New();
    LowerFixesLower(query);
    NoneContainedByLead(query, c.determined_patterns);
    NoneContainedByLead(query, c.thorough_patterns);
    NoneContainedByLead(query, c.quick_patterns);
  }
}
