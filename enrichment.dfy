/**
 * `EnrichmentEngine::enrich`: a `Task` tool call whose description carries a
 * tag `[agent-type-N]` gets an `agent_metadata` object naming the agent type,
 * the instance number and the parent session. The update in place of the
 * event is modelled as a function from the event to the updated event.
 */
module Enrichment {
  import opened Wrappers
  import opened Text
  import opened Json
  import opened Hooks

  /** The class `[a-z-]`. */
  predicate IsTypeChar(c: char) {
    'a' <= c <= 'z' || c == '-'
  }

  /** End of the longest run of `[a-z-]` characters starting at `i`. */
  function TypeRunEnd(s: string, i: nat): (j: nat)
    requires i <= |s|
    ensures i <= j <= |s|
    ensures forall t | i <= t < j :: IsTypeChar(s[t])
    ensures j == |s| || !IsTypeChar(s[j])
    decreases |s| - i
  {
    if i < |s| && IsTypeChar(s[i]) then TypeRunEnd(s, i + 1) else i
  }

  predicate AllTypeChars(s: string, lo: int, hi: int)
    requires 0 <= lo <= hi <= |s|
  {
    forall t | lo <= t < hi :: IsTypeChar(s[t])
  }

  predicate AllDigits(s: string, lo: int, hi: int)
    requires 0 <= lo <= hi <= |s|
  {
    forall t | lo <= t < hi :: IsDigit(s[t])
  }

  /**
   * What the pattern `\[([a-z-]+)-(\d+)\]` asks of a match starting at `i`
   * whose hyphen is at `j` and whose closing bracket is at `k`.
   */
  predicate SplitMatch(s: string, i: int, j: int, k: int) {
    0 <= i && i + 1 < j && j + 1 < k < |s| &&
    s[i] == '[' && AllTypeChars(s, i + 1, j) && s[j] == '-' && AllDigits(s, j + 1, k) && s[k] == ']'
  }

  /** The pattern matches at `i`, for some placement of its hyphen and closing bracket. */
  predicate PatternAt(s: string, i: int) {
    exists j, k | i < j < k < |s| :: SplitMatch(s, i, j, k)
  }

  /**
   * The match at `i` read off directly: the type run starting after `[` must
   * end with the hyphen (a digit cannot belong to it), and the digits that
   * follow must be closed by `]`.
   */
  predicate TagAt(s: string, i: int) {
    0 <= i < |s| && s[i] == '[' &&
    var e := TypeRunEnd(s, i + 1);
    e >= i + 3 && s[e - 1] == '-' &&
    var d := DigitRunEnd(s, e);
    e < d < |s| && s[d] == ']'
  }

  /** Position of the hyphen before the digits, in a tag at `i`. */
  function HyphenOf(s: string, i: int): (j: int)
    requires TagAt(s, i)
  {
    TypeRunEnd(s, i + 1) - 1
  }

  /** Position of the closing bracket, in a tag at `i`. */
  function CloseOf(s: string, i: int): (k: int)
    requires TagAt(s, i)
  {
    DigitRunEnd(s, TypeRunEnd(s, i + 1))
  }

  /**
   * The pattern matches at `i` exactly when `TagAt` holds, and then the hyphen
   * and the closing bracket can only be where `TagAt` finds them: the greedy
   * `[a-z-]+` and `\d+` leave no choice, so the captures are determined.
   */
  lemma TagAtIsPattern(s: string, i: int)
    ensures TagAt(s, i) <==> PatternAt(s, i)
    ensures TagAt(s, i) ==> SplitMatch(s, i, HyphenOf(s, i), CloseOf(s, i))
    ensures forall j, k | i < j < k < |s| && SplitMatch(s, i, j, k) :: TagAt(s, i) && j == HyphenOf(s, i) && k == CloseOf(s, i)
  {
    if TagAt(s, i) {
      var e := TypeRunEnd(s, i + 1);
      assert SplitMatch(s, i, e - 1, DigitRunEnd(s, e));
    }
    forall j, k | i < j < k < |s| && SplitMatch(s, i, j, k)
      ensures TagAt(s, i) && j == HyphenOf(s, i) && k == CloseOf(s, i)
    {
      SplitIsTag(s, i, j, k);
    }
  }

  lemma SplitIsTag(s: string, i: int, j: int, k: int)
    requires SplitMatch(s, i, j, k)
    ensures TagAt(s, i) && j == TypeRunEnd(s, i + 1) - 1 && k == DigitRunEnd(s, j + 1)
  {
    var e := TypeRunEnd(s, i + 1);
    // Every character up to the hyphen is of the type class, and the one after it is a digit.
    assert IsTypeChar(s[j]) && !IsTypeChar(s[j + 1]);
    TypeRunEndAt(s, i + 1, j + 1);
    DigitRunEndAt(s, j + 1, k);
  }

  /** A run of `[a-z-]` characters that cannot be extended is the one `TypeRunEnd` finds. */
  lemma TypeRunEndAt(s: string, i: nat, j: nat)
    requires i <= j <= |s| && AllTypeChars(s, i, j) && (j == |s| || !IsTypeChar(s[j]))
    ensures TypeRunEnd(s, i) == j
  {
  }

  /** A run of digits that cannot be extended is the one `DigitRunEnd` finds. */
  lemma DigitRunEndAt(s: string, i: nat, j: nat)
    requires i <= j <= |s| && AllDigits(s, i, j) && (j == |s| || !IsDigit(s[j]))
    ensures DigitRunEnd(s, i) == j
  {
  }

  /** The leftmost tag at or after `from`, as `Regex::captures` finds it. */
  function FindTag(s: string, from: nat): (r: Option<nat>)
    requires from <= |s|
    ensures r.Some? ==> from <= r.value < |s| && TagAt(s, r.value)
    ensures forall i | from <= i < (if r.Some? then r.value else |s|) :: !TagAt(s, i)
    decreases |s| - from
  {
    if from == |s| then None
    else if TagAt(s, from) then Some(from)
    else FindTag(s, from + 1)
  }

  /** The first capture: the agent type, between `[` and the hyphen. */
  function AgentType(s: string, i: nat): (t: string)
    requires TagAt(s, i)
    ensures |t| >= 1 && forall c | c in t :: IsTypeChar(c)
  {
    s[i + 1..HyphenOf(s, i)]
  }

  /** The second capture: the digits between the hyphen and `]`. */
  function InstanceDigits(s: string, i: nat): (d: string)
    requires TagAt(s, i)
    ensures |d| >= 1 && forall t | 0 <= t < |d| :: IsDigit(d[t])
  {
    s[HyphenOf(s, i) + 1..CloseOf(s, i)]
  }

  /** `parse::<u32>().unwrap_or(0)` on a run of ASCII digits. */
  function ParseU32(digits: string): (n: nat)
    requires forall t | 0 <= t < |digits| :: IsDigit(digits[t])
    ensures n <= U32_MAX
    ensures DigitsValue(digits) <= U32_MAX ==> n == DigitsValue(digits)
    ensures DigitsValue(digits) > U32_MAX ==> n == 0
  {
    var v := DigitsValue(digits);
    if v <= U32_MAX then v else 0
  }

  /** The event is a `Task` tool call about to run. */
  predicate Eligible(e: HookEvent) {
    e.event_type == PreToolUse && Get(e.payload, "tool_name") == Str("Task")
  }

  /** `payload["tool_input"]["description"]`, or "" when it is missing or not a string. */
  function Description(e: HookEvent): (d: string)
    ensures AsStr(Get(Get(e.payload, "tool_input"), "description")).None? ==> d == ""
  {
    AsStr(Get(Get(e.payload, "tool_input"), "description")).GetOr("")
  }

  /** The `agent_metadata` object. */
  function Metadata(agent_type: string, instance_number: nat, parent_session_id: string): Value {
    Object(map["agent_type" := Str(agent_type), "instance_number" := Number(instance_number),
               "parent_session_id" := Str(parent_session_id)])
  }

  /**
   * `enrich`: only the payload of an eligible event whose description holds a
   * tag changes, and only in its `agent_metadata` member.
   */
  function Enrich(e: HookEvent): (r: HookEvent)
    ensures r.event_type == e.event_type && r.session_id == e.session_id && r.timestamp == e.timestamp
    ensures !Eligible(e) || FindTag(Description(e), 0).None? ==> r == e
    ensures Eligible(e) && FindTag(Description(e), 0).Some? ==>
      var d, i := Description(e), FindTag(Description(e), 0).value;
      r.payload.Object? && e.payload.Object? &&
      r.payload.fields.Keys == e.payload.fields.Keys + {"agent_metadata"} &&
      (forall k | k in e.payload.fields && k != "agent_metadata" :: r.payload.fields[k] == e.payload.fields[k]) &&
      r.payload.fields["agent_metadata"] == Metadata(AgentType(d, i), ParseU32(InstanceDigits(d, i)), e.session_id)
  {
    if !Eligible(e) then e
    else
      var d := Description(e);
      match FindTag(d, 0)
      case None => e
      case Some(i) =>
        var m := Metadata(AgentType(d, i), ParseU32(InstanceDigits(d, i)), e.session_id);
        e.(payload := Insert(e.payload, "agent_metadata", m).value)
  }

  /** Enriching twice is enriching once: the tag is read from `tool_input`, which enrichment never touches. */
  lemma EnrichIdempotent(e: HookEvent)
    ensures Enrich(Enrich(e)) == Enrich(e)
  {
    var r := Enrich(e);
    if Eligible(e) && FindTag(Description(e), 0).Some? {
      assert Get(r.payload, "tool_name") == Get(e.payload, "tool_name");
      assert Get(r.payload, "tool_input") == Get(e.payload, "tool_input");
      assert r.payload.fields == e.payload.fields["agent_metadata" := r.payload.fields["agent_metadata"]];
    }
  }

  /** A tag with no `[` before it, from `from` on, is the one `FindTag` finds. */
  lemma {:induction false} FindTagFirst(s: string, from: nat, i: nat)
    requires from <= i < |s| && TagAt(s, i)
    requires forall t | from <= t < i :: s[t] != '['
    ensures FindTag(s, from) == Some(i)
    decreases i - from
  {
    if from < i {
      FindTagFirst(s, from + 1, i);
    }
  }

  /** In "Running [researcher-1]" the tag starts at index 8, with type "researcher" and instance 1. */
  lemma ResearcherTag(d: string)
    requires d == "Running [researcher-1]"
    ensures FindTag(d, 0) == Some(8)
    ensures AgentType(d, 8) == "researcher" && ParseU32(InstanceDigits(d, 8)) == 1
  {
    ResearcherTagAt(d);
    FindTagFirst(d, 0, 8);
    ResearcherTagParts(d);
  }

  lemma ResearcherTagAt(d: string)
    requires d == "Running [researcher-1]"
    ensures TagAt(d, 8) && HyphenOf(d, 8) == 19 && CloseOf(d, 8) == 21
  {
    TypeRunEndAt(d, 9, 20);
    DigitRunEndAt(d, 20, 21);
  }

  lemma ResearcherTagParts(d: string)
    requires d == "Running [researcher-1]"
    requires TagAt(d, 8) && HyphenOf(d, 8) == 19 && CloseOf(d, 8) == 21
    ensures AgentType(d, 8) == "researcher" && ParseU32(InstanceDigits(d, 8)) == 1
  {
    assert AgentType(d, 8) == d[9..19] == "researcher";
    assert InstanceDigits(d, 8) == d[20..21] == "1";
    assert DigitsValue("1") == 1;
  }

  /** The type keeps its inner hyphens: "[code-review-3]" names the type "code-review". */
  lemma HyphenatedType(d: string)
    requires d == "[code-review-3]"
    ensures FindTag(d, 0) == Some(0) && AgentType(d, 0) == "code-review"
  {
    TypeRunEndAt(d, 1, 13);
    DigitRunEndAt(d, 13, 14);
  }

  /** A `Task` call described as "Running [researcher-1]" is tagged as researcher instance 1 of its session. */
  lemma ResearcherEvent(e: HookEvent)
    requires e.event_type == PreToolUse
    requires e.payload == Object(map["tool_name" := Str("Task"),
                                     "tool_input" := Object(map["description" := Str("Running [researcher-1]")])])
    ensures var m := Get(Enrich(e).payload, "agent_metadata");
      Get(m, "agent_type") == Str("researcher") && Get(m, "instance_number") == Number(1) &&
      Get(m, "parent_session_id") == Str(e.session_id)
  {
    var d := "Running [researcher-1]";
    assert Get(e.payload, "tool_name") == Str("Task");
    assert Description(e) == d;
    ResearcherTag(d);
    EnrichedMetadata(e, 8, "researcher", 1);
  }

  /** The `agent_metadata` an eligible event receives, read back member by member. */
  lemma EnrichedMetadata(e: HookEvent, i: nat, agent_type: string, n: nat)
    requires Eligible(e) && FindTag(Description(e), 0) == Some(i)
    requires AgentType(Description(e), i) == agent_type && ParseU32(InstanceDigits(Description(e), i)) == n
    ensures var m := Get(Enrich(e).payload, "agent_metadata");
      Get(m, "agent_type") == Str(agent_type) && Get(m, "instance_number") == Number(n) &&
      Get(m, "parent_session_id") == Str(e.session_id)
  {
    var m := Metadata(agent_type, n, e.session_id);
    assert Get(Enrich(e).payload, "agent_metadata") == m;
  }
}
