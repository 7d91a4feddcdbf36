/**
 * `SecurityValidator`: a hook that blocks a Bash command when one of an ordered
 * table of patterns matches it, answering with the reason of the first match.
 * Each regular expression of the table is written out as a predicate on the
 * positions where a match can start.
 */
module Safety {
  import opened Wrappers
  import opened Text
  import opened Json
  import opened Hooks

  /** The shapes of the table's regular expressions. */
  datatype Pattern =
      // `rm\s+(-rf?|--recursive)\s+T` where `T` is a character class.
    | RecursiveRm(targets: set<char>)
      // `>\s*/dev/sd[a-z]`.
    | DiskOverwrite
      // A plain literal, such as `mkfs\.`.
    | Literal(lit: string)
      // `bash\s+-i\s+>&\s*/dev/tcp`.
    | BashReverseShell
      // `nc\s+(-e|--exec)\s+/bin/(ba)?sh`.
    | NetcatShell
      // `head.*(t1|t2|...)`: a literal, then one of `tails` later on the same line.
    | ThenOnLine(head: string, tails: seq<string>)
      // `git\s+push.*PAI.*public`.
    | GitPushPaiPublic
      // A character class such as `[;&|`$]`.
    | AnyOf(chars: set<char>)
      // `\b(w1|w2|...)\b`.
    | Word(words: seq<string>)

  datatype Rule = Rule(pattern: Pattern, reason: string)

  datatype SecurityValidator = SecurityValidator(blocked_patterns: seq<Rule>)

  const RmFlags: seq<string> := ["-rf", "-r", "--recursive"]
  const NcFlags: seq<string> := ["-e", "--exec"]
  const Interpreters: seq<string> := ["python", "perl", "ruby", "php", "node"]
  const ShellOperators: set<char> := {';', '&', '|', '`', '$'}

  const CatastrophicReason := "\U{1F6A8} BLOCKED: Catastrophic deletion/destruction detected"
  const DiskReason := "\U{1F6A8} BLOCKED: Disk overwrite attempt"
  const FormatReason := "\U{1F6A8} BLOCKED: Filesystem format attempt"
  const ReverseShellReason := "\U{1F6A8} BLOCKED: Reverse shell pattern detected"
  const NetcatReason := "\U{1F6A8} BLOCKED: Netcat shell attempt"
  const ExfiltrationReason := "\U{1F6A8} BLOCKED: Data exfiltration pattern detected"
  const InfrastructureReason := "\U{1F6A8} BLOCKED: PAI infrastructure protection triggered"
  const PushReason := "\U{1F6A8} BLOCKED: Attempt to push private PAI to public repository"
  const ShellOperatorReason := "\U{1F6A8} BLOCKED: Shell operator detected"
  const InterpreterReason := "\U{1F6A8} BLOCKED: Script interpreter execution detected"

  /** `SecurityValidator::new`: the five tiers of rules, in order. */
  function New(): (v: SecurityValidator)
    ensures |v.blocked_patterns| == 12
    ensures v.blocked_patterns[0] == Rule(RecursiveRm({'/', '~'}), CatastrophicReason)
    ensures v.blocked_patterns[10] == Rule(AnyOf(ShellOperators), ShellOperatorReason)
  {
    SecurityValidator([
      Rule(RecursiveRm({'/', '~'}), CatastrophicReason),
      Rule(RecursiveRm({'*'}), CatastrophicReason),
      Rule(DiskOverwrite, DiskReason),
      Rule(Literal("mkfs."), FormatReason),
      Rule(BashReverseShell, ReverseShellReason),
      Rule(NetcatShell, NetcatReason),
      Rule(ThenOnLine("curl", ["@", "--upload-file"]), ExfiltrationReason),
      Rule(ThenOnLine("wget", ["--post-file", "--post-data"]), ExfiltrationReason),
      Rule(ThenOnLine("rm", [".config/pai"]), InfrastructureReason),
      Rule(GitPushPaiPublic, PushReason),
      Rule(AnyOf(ShellOperators), ShellOperatorReason),
      Rule(Word(Interpreters), InterpreterReason)
    ])
  }

  // ------------------------------------------------------------ matching

  /** No line break in `s[a..b]`: what `.*` may skip over. */
  predicate NoNewline(s: string, a: nat, b: nat)
    requires b <= |s|
  {
    forall t | a <= t < b :: s[t] != '\n'
  }

  /** `.*lit` from `from`: `lit` occurs later on the same line. */
  predicate LaterOnLine(s: string, from: nat, lit: string) {
    exists j | from <= j <= |s| - |lit| :: NoNewline(s, from, j) && OccursAt(s, lit, j)
  }

  /** At least one blank starts at `i` (`\s+`); the run ends at `SpaceRunEnd(s, i)`. */
  predicate Spaced(s: string, i: nat)
    requires i <= |s|
  {
    SpaceRunEnd(s, i) > i
  }

  /** The flag `f` at `j`, followed by blanks (`f\s+`). */
  predicate FlagAt(s: string, j: nat, f: string) {
    OccursAt(s, f, j) && Spaced(s, j + |f|)
  }

  predicate BoundedWord(s: string, w: string, i: nat) {
    OccursAt(s, w, i) && (i == 0 || !IsWordChar(s[i - 1])) && (i + |w| == |s| || !IsWordChar(s[i + |w|]))
  }

  /** `rm\s+(-rf?|--recursive)\s+` and then a character of `targets`, from `i`. */
  predicate RecursiveRmAt(s: string, i: nat, targets: set<char>) {
    OccursAt(s, "rm", i) && Spaced(s, i + 2) &&
    exists f | f in RmFlags ::
      FlagAt(s, SpaceRunEnd(s, i + 2), f) &&
      var k := SpaceRunEnd(s, SpaceRunEnd(s, i + 2) + |f|);
      k < |s| && s[k] in targets
  }

  predicate DiskOverwriteAt(s: string, i: nat) {
    OccursAt(s, ">", i) &&
    var j := SpaceRunEnd(s, i + 1);
    OccursAt(s, "/dev/sd", j) && j + 7 < |s| && 'a' <= s[j + 7] <= 'z'
  }

  predicate BashReverseShellAt(s: string, i: nat) {
    OccursAt(s, "bash", i) && Spaced(s, i + 4) &&
    FlagAt(s, SpaceRunEnd(s, i + 4), "-i") &&
    var k := SpaceRunEnd(s, SpaceRunEnd(s, i + 4) + 2);
    OccursAt(s, ">&", k) && OccursAt(s, "/dev/tcp", SpaceRunEnd(s, k + 2))
  }

  predicate NetcatShellAt(s: string, i: nat) {
    OccursAt(s, "nc", i) && Spaced(s, i + 2) &&
    exists f | f in NcFlags ::
      FlagAt(s, SpaceRunEnd(s, i + 2), f) &&
      var k := SpaceRunEnd(s, SpaceRunEnd(s, i + 2) + |f|);
      OccursAt(s, "/bin/sh", k) || OccursAt(s, "/bin/bash", k)
  }

  predicate ThenOnLineAt(s: string, i: nat, head: string, tails: seq<string>) {
    OccursAt(s, head, i) && exists t | t in tails :: LaterOnLine(s, i + |head|, t)
  }

  predicate GitPushPaiPublicAt(s: string, i: nat) {
    OccursAt(s, "git", i) && Spaced(s, i + 3) && OccursAt(s, "push", SpaceRunEnd(s, i + 3)) &&
    var from := SpaceRunEnd(s, i + 3) + 4;
    exists k | from <= k <= |s| - 3 :: NoNewline(s, from, k) && OccursAt(s, "PAI", k) && LaterOnLine(s, k + 3, "public")
  }

  predicate WordAt(s: string, i: nat, words: seq<string>) {
    exists w | w in words :: BoundedWord(s, w, i)
  }

  /** A match of `p` in `s` starts at `i`. */
  predicate MatchesAt(p: Pattern, s: string, i: nat) {
    match p
    case RecursiveRm(targets) => RecursiveRmAt(s, i, targets)
    case DiskOverwrite => DiskOverwriteAt(s, i)
    case Literal(lit) => OccursAt(s, lit, i)
    case BashReverseShell => BashReverseShellAt(s, i)
    case NetcatShell => NetcatShellAt(s, i)
    case ThenOnLine(head, tails) => ThenOnLineAt(s, i, head, tails)
    case GitPushPaiPublic => GitPushPaiPublicAt(s, i)
    case AnyOf(chars) => i < |s| && s[i] in chars
    case Word(words) => WordAt(s, i, words)
  }

  /** `Regex::is_match`: a match starts somewhere. */
  predicate Matches(p: Pattern, s: string) {
    exists i | 0 <= i < |s| :: MatchesAt(p, s, i)
  }

  /** The characters a match of `p` can start with. */
  function Lead(p: Pattern): set<char> {
    match p
    case RecursiveRm(_) => {'r'}
    case DiskOverwrite => {'>'}
    case Literal(lit) => if |lit| > 0 then {lit[0]} else {}
    case BashReverseShell => {'b'}
    case NetcatShell => {'n'}
    case ThenOnLine(head, _) => if |head| > 0 then {head[0]} else {}
    case GitPushPaiPublic => {'g'}
    case AnyOf(chars) => chars
    case Word(words) => set w | w in words && |w| > 0 :: w[0]
  }

  predicate NonEmptyHeads(p: Pattern) {
    match p
    case Literal(lit) => |lit| > 0
    case ThenOnLine(head, _) => |head| > 0
    case Word(words) => forall w | w in words :: |w| > 0
    case _ => true
  }

  lemma OccursLead(s: string, lit: string, i: nat)
    requires OccursAt(s, lit, i) && |lit| > 0
    ensures i < |s| && s[i] == lit[0]
  {
    assert s[i..i + |lit|][0] == s[i];
  }

  lemma MatchStartsWithLead(p: Pattern, s: string, i: nat)
    requires NonEmptyHeads(p) && MatchesAt(p, s, i)
    ensures i < |s| && s[i] in Lead(p)
  {
    match p
    case Word(words) =>
      var w :| w in words && BoundedWord(s, w, i);
      OccursLead(s, w, i);
    case RecursiveRm(_) => OccursLead(s, "rm", i);
    case DiskOverwrite => OccursLead(s, ">", i);
    case Literal(lit) => OccursLead(s, lit, i);
    case BashReverseShell => OccursLead(s, "bash", i);
    case NetcatShell => OccursLead(s, "nc", i);
    case ThenOnLine(head, _) => OccursLead(s, head, i);
    case GitPushPaiPublic => OccursLead(s, "git", i);
    case AnyOf(_) =>
  }

  /** A pattern cannot match a command holding none of the characters its matches start with. */
  lemma NoLeadNoMatch(p: Pattern, s: string)
    requires NonEmptyHeads(p)
    requires forall i | 0 <= i < |s| :: s[i] !in Lead(p)
    ensures !Matches(p, s)
  {
    if Matches(p, s) {
      var i :| 0 <= i < |s| && MatchesAt(p, s, i);
      MatchStartsWithLead(p, s, i);
    }
  }

  // ------------------------------------------------------------ the decision

  /** The reason of the first rule whose pattern matches, if any. */
  function FirstMatch(rules: seq<Rule>, s: string): Option<string>
    decreases |rules|
  {
    if rules == [] then None
    else if Matches(rules[0].pattern, s) then Some(rules[0].reason)
    else FirstMatch(rules[1..], s)
  }

  /** `rules[k]` is the first rule that matches `s`. */
  predicate FirstMatching(rules: seq<Rule>, s: string, k: int) {
    0 <= k < |rules| && Matches(rules[k].pattern, s) &&
    forall j | 0 <= j < k :: !Matches(rules[j].pattern, s)
  }

  /** The search answers the reason of the first matching rule, and nothing when no rule matches. */
  lemma {:induction false} FirstMatchSpec(rules: seq<Rule>, s: string)
    ensures FirstMatch(rules, s).Some? ==>
      exists k :: FirstMatching(rules, s, k) && rules[k].reason == FirstMatch(rules, s).value
    ensures forall k | FirstMatching(rules, s, k) :: FirstMatch(rules, s) == Some(rules[k].reason)
    ensures FirstMatch(rules, s).None? <==> forall k | 0 <= k < |rules| :: !Matches(rules[k].pattern, s)
    decreases |rules|
  {
    if rules != [] {
      FirstMatchSpec(rules[1..], s);
      assert forall j | 0 <= j < |rules| - 1 :: rules[1..][j] == rules[j + 1];
      if !Matches(rules[0].pattern, s) {
        if FirstMatch(rules, s).Some? {
          var k :| FirstMatching(rules[1..], s, k) && rules[1..][k].reason == FirstMatch(rules, s).value;
          assert FirstMatching(rules, s, k + 1);
        }
        forall k | FirstMatching(rules, s, k)
          ensures FirstMatch(rules, s) == Some(rules[k].reason)
        {
          assert k > 0;
          assert FirstMatching(rules[1..], s, k - 1);
        }
      } else {
        assert FirstMatching(rules, s, 0);
      }
    }
  }

  /** Some rule matches, so the search answers. */
  lemma AnyMatchAnswers(rules: seq<Rule>, s: string, k: nat)
    requires k < |rules| && Matches(rules[k].pattern, s)
    ensures FirstMatch(rules, s).Some?
  {
    FirstMatchSpec(rules, s);
  }

  /** `payload["tool_input"]["command"]`. */
  function Command(e: HookEvent): Value {
    Get(Get(e.payload, "tool_input"), "command")
  }

  /** `on_event`: only Bash commands of `PreToolUse` events are inspected; it never modifies. */
  function OnEvent(v: SecurityValidator, e: HookEvent): (r: Result<HookAction, Error>)
    ensures r.Ok? && !r.value.Modify?
    ensures e.event_type != PreToolUse ==> r == Ok(Continue)
    ensures Get(e.payload, "tool_name") != Str("Bash") ==> r == Ok(Continue)
    ensures !Command(e).Str? ==> r == Ok(Continue)
    ensures r.value.Block? ==> FirstMatch(v.blocked_patterns, Command(e).s) == Some(r.value.reason)
    ensures e.event_type == PreToolUse && Get(e.payload, "tool_name") == Str("Bash") && Command(e).Str? ==>
      (r == Ok(Continue) <==> FirstMatch(v.blocked_patterns, Command(e).s).None?)
  {
    if e.event_type == PreToolUse && Get(e.payload, "tool_name") == Str("Bash") then
      match AsStr(Command(e))
      case Some(command) =>
        (match FirstMatch(v.blocked_patterns, command)
         case Some(reason) => Ok(Block(reason))
         case None => Ok(Continue))
      case None => Ok(Continue)
    else Ok(Continue)
  }

  /** The validator as a hook of the pipeline. */
  function AsHook(v: SecurityValidator): Hook {
    e => OnEvent(v, e)
  }

  // ------------------------------------------------------------ consequences for the table

  /** A Bash command holding a shell operator is blocked, by the shell-operator rule at the latest. */
  lemma ShellOperatorBlocked(e: HookEvent, i: nat)
    requires e.event_type == PreToolUse && Get(e.payload, "tool_name") == Str("Bash")
    requires Command(e).Str? && i < |Command(e).s| && Command(e).s[i] in ShellOperators
    ensures OnEvent(New(), e).value.Block?
  {
    var v := New();
    assert MatchesAt(v.blocked_patterns[10].pattern, Command(e).s, i);
    AnyMatchAnswers(v.blocked_patterns, Command(e).s, 10);
  }

  function BashEvent(command: string, session_id: string, timestamp: int): HookEvent {
    HookEvent(PreToolUse, session_id,
      Object(map["tool_name" := Str("Bash"), "tool_input" := Object(map["command" := Str(command)])]),
      timestamp)
  }

  lemma BashEventCommand(command: string, session_id: string, timestamp: int)
    ensures var e := BashEvent(command, session_id, timestamp);
      Get(e.payload, "tool_name") == Str("Bash") && Command(e) == Str(command)
  {
  }

  lemma RecursiveRootRemovalMatches()
    ensures RecursiveRmAt("rm -rf /", 0, {'/', '~'})
  {
    var s := "rm -rf /";
    assert s[0..2] == "rm";
    assert s[3..6] == "-rf";
    assert SpaceRunEnd(s, 3) == 3;
    assert SpaceRunEnd(s, 2) == 3;
    assert SpaceRunEnd(s, 7) == 7;
    assert SpaceRunEnd(s, 6) == 7;
    assert FlagAt(s, 3, "-rf");
    assert "-rf" in RmFlags;
  }

  lemma RecursiveRootRemovalFirstMatch()
    ensures FirstMatch(New().blocked_patterns, "rm -rf /") == Some(CatastrophicReason)
  {
    var v := New();
    var s := "rm -rf /";
    RecursiveRootRemovalMatches();
    assert MatchesAt(v.blocked_patterns[0].pattern, s, 0);
    assert Matches(v.blocked_patterns[0].pattern, s);
  }

  /** `rm -rf /` is caught by the very first rule. */
  lemma RecursiveRootRemovalBlocked(session_id: string, timestamp: int)
    ensures OnEvent(New(), BashEvent("rm -rf /", session_id, timestamp)) == Ok(Block(CatastrophicReason))
    ensures Dispatch([AsHook(New())], BashEvent("rm -rf /", session_id, timestamp)) == Ok(Block(CatastrophicReason))
  {
    BashEventCommand("rm -rf /", session_id, timestamp);
    RecursiveRootRemovalFirstMatch();
  }

  /** Every character a rule of the table can start matching at. */
  const TableLeads: set<char> := {'r', '>', 'm', 'b', 'n', 'c', 'w', 'g', ';', '&', '|', '`', '$', 'p'}

  lemma TableHeads(k: nat)
    requires k < 12
    ensures NonEmptyHeads(New().blocked_patterns[k].pattern)
    ensures Lead(New().blocked_patterns[k].pattern) <= TableLeads
  {
    if k < 6 {
      FirstHeads(k);
    } else if k < 11 {
      LaterHeads(k);
    } else {
      InterpreterHeads();
    }
  }

  lemma FirstHeads(k: nat)
    requires k < 6
    ensures NonEmptyHeads(New().blocked_patterns[k].pattern)
    ensures Lead(New().blocked_patterns[k].pattern) <= TableLeads
  {
    if k == 3 {
      assert New().blocked_patterns[k].pattern == Literal("mkfs.");
    }
  }

  lemma LaterHeads(k: nat)
    requires 6 <= k < 11
    ensures NonEmptyHeads(New().blocked_patterns[k].pattern)
    ensures Lead(New().blocked_patterns[k].pattern) <= TableLeads
  {
    var p := New().blocked_patterns[k].pattern;
    if k == 10 {
      assert p == AnyOf(ShellOperators);
    } else if k <= 8 {
      assert p.ThenOnLine? && p.head[0] in {'c', 'w', 'r'};
    }
  }

  lemma InterpreterHeads()
    ensures NonEmptyHeads(New().blocked_patterns[11].pattern)
    ensures Lead(New().blocked_patterns[11].pattern) <= TableLeads
  {
    assert New().blocked_patterns[11].pattern == Word(Interpreters);
    assert forall i | 0 <= i < |Interpreters| :: |Interpreters[i]| > 0 && Interpreters[i][0] in {'p', 'r', 'n'};
    WordLeads(Interpreters, TableLeads);
  }

  /** Words that all begin with one of `leads` form a pattern led by `leads`. */
  lemma WordLeads(words: seq<string>, leads: set<char>)
    requires forall i | 0 <= i < |words| :: |words[i]| > 0 && words[i][0] in leads
    ensures NonEmptyHeads(Word(words)) && Lead(Word(words)) <= leads
  {
    forall c | c in Lead(Word(words))
      ensures c in leads
    {
      var w :| w in words && |w| > 0 && w[0] == c;
      var i :| 0 <= i < |words| && words[i] == w;
    }
  }

  /** `ls -la` matches no rule and goes through. */
  lemma ListingAllowed(session_id: string, timestamp: int)
    ensures OnEvent(New(), BashEvent("ls -la", session_id, timestamp)) == Ok(Continue)
    ensures Dispatch([AsHook(New())], BashEvent("ls -la", session_id, timestamp)) == Ok(Continue)
  {
    ListingMatchesNothing("ls -la");
    NoRuleContinues(New(), "ls -la", session_id, timestamp);
  }

  /** A Bash command that no rule matches goes through. */
  lemma NoRuleContinues(v: SecurityValidator, s: string, session_id: string, timestamp: int)
    requires forall k | 0 <= k < |v.blocked_patterns| :: !Matches(v.blocked_patterns[k].pattern, s)
    ensures OnEvent(v, BashEvent(s, session_id, timestamp)) == Ok(Continue)
    ensures Dispatch([AsHook(v)], BashEvent(s, session_id, timestamp)) == Ok(Continue)
  {
    var e := BashEvent(s, session_id, timestamp);
    BashEventCommand(s, session_id, timestamp);
    FirstMatchSpec(v.blocked_patterns, s);
    assert AsHook(v)(Handed(e, e.payload, false)) == Ok(Continue);
    assert [AsHook(v)][1..] == [];
    assert Run([AsHook(v)], e, e.payload, false) == Ok(Continue);
  }

  lemma ListingMatchesNothing(s: string)
    requires s == "ls -la"
    ensures forall k | 0 <= k < |New().blocked_patterns| :: !Matches(New().blocked_patterns[k].pattern, s)
  {
    var rules := New().blocked_patterns;
    assert forall i | 0 <= i < |s| :: s[i] !in TableLeads;
    forall k | 0 <= k < |rules|
      ensures !Matches(rules[k].pattern, s)
    {
      TableHeads(k);
      NoLeadNoMatch(rules[k].pattern, s);
    }
  }

  /** A command given as something other than a string is not inspected. */
  lemma MissingCommandAllowed(session_id: string, timestamp: int)
    ensures OnEvent(New(), HookEvent(PreToolUse, session_id,
      Object(map["tool_name" := Str("Bash"), "tool_input" := Object(map[])]), timestamp)) == Ok(Continue)
  {
  }
}
