# pai-core and tradekit, modelled in Dafny

This project models the decision-making core of two codebases kept in one repository.

**pai-core** (Rust) is the hook pipeline of a personal AI assistant. `HookManager` offers each event to the registered hooks in registration order. A hook may let the event through, block it with a reason, or replace its payload. The model also covers the hooks and helpers around the pipeline:
- the security validator's first-match pattern table;
- the seven-phase task algorithm and its progress bar;
- the effort classifier and the capability limits per effort level;
- deep JSON configuration merging;
- prompt-injection hardening, privacy-leak detection and compliance rules;
- agent metadata enrichment, learning statistics and agent composition;
- the skill registry's trigger matching and the verification oracle's admission guards;
- TELOS context loading, memory tier paths, response formatting and swarm steelmanning.

**tradekit** (Python) is a pre-market stock screener and analysis tool. The model covers:
- the screener's filter chain;
- pivot points, support and resistance levels, and the rule-based momentum, trend and volume scores with their composite grade;
- the TTL data cache and the backtest provider's trading days and flat-file keys;
- the command line's session, provider and relative-volume decisions;
- the terminal styling choices and the structure of the Markdown reports.

Each source file is modelled by one Dafny module:
- `Hooks` (lib.rs, hooks.rs), `Safety`, `Algorithm`, `Visuals`, `Orchestration` (with the classifier), `Config`, `Hardening`, `Privacy`, `Compliance`, `Enrichment`, `Learning`, `Agents`, `Skills`, `Oracle`, `Telos`, `Memory`, `Identity` and `Swarm`;
- `Filters`, `Levels`, `Scoring`, `Cache`, `Backtest`, `Cli`, `Terminal` and `Markdown`.

Shared vocabulary lives in `Wrappers` (Option and Result), `Text` (substrings, ASCII case, splitting, decimal digits), `Json` (serde_json values, with integer numbers), `Paths` and `Frames` (data frames as rows of optional cells, with `None` for NaN).

Where the source holds state that changes in place, the model uses a class:
- `HookManager`, `TaskAlgorithm`, `SkillRegistry`, `DataCache` and `ScreenerSettings`;
- each class's methods are proved against specification functions.

Everything else is a function or a method over values, following the source.

Things outside the model become parameters:
- the clock, file contents and file existence;
- float formatting and rounding;
- results of I/O.

## Model

| member | source | states |
|---|---|---|
| Hooks.Handed | rust/pai-core/src/lib.rs:84-91 | the event handed to a hook keeps type, session and timestamp; it is the original event until a hook has modified the payload, and carries the working payload after |
| Hooks.Calls | rust/pai-core/src/lib.rs:83-101 | the run invokes at most one call per hook, and the j-th call's answer is the j-th registered hook applied to what it received |
| Hooks.CarryWithoutModify | rust/pai-core/src/lib.rs:94-99 | answers without a Modify leave the working payload and the modified flag as they were (a Continue after a Modify keeps the modification) |
| Hooks.CarryLatest | rust/pai-core/src/lib.rs:96-99 | after a sequence of answers the working payload is that of the latest Modify |
| Hooks.CallInput | rust/pai-core/src/lib.rs:84-91 | the i-th hook receives the event with the working payload accumulated from the first i answers |
| Hooks.CallsPass | rust/pai-core/src/lib.rs:88-95 | every invocation but the last one answered Continue or Modify |
| Hooks.RunOutcome | rust/pai-core/src/lib.rs:83-107 | a run that stopped returns its last answer; a run that went through every hook returns Modify of the working payload if modified, else Continue |
| Hooks.DispatchEmpty | rust/pai-core/src/lib.rs:80-107 | with no hook registered, trigger invokes nothing and returns Continue |
| Hooks.HookInputs | rust/pai-core/src/lib.rs:85-98 | each hook receives the original event, except that after a Modify the payload is replaced by the latest modified payload |
| Hooks.StopsAtBlockOrError | rust/pai-core/src/lib.rs:88-95 | a Block or an error is the answer of the last hook invoked, every earlier hook passed, and hooks registered later are never invoked and change nothing |
| Hooks.ExtendAfterStop | rust/pai-core/src/lib.rs:88-95 | appending hooks after a run that stopped changes neither its result nor its invocations |
| Hooks.VerdictWithoutStop | rust/pai-core/src/lib.rs:103-107 | if no hook blocks or fails, every hook runs and the result is Continue iff no hook modified, else Modify of the latest modified payload |
| Hooks.FinishVerdict | rust/pai-core/src/lib.rs:93-107 | once every hook has answered, the result is Continue iff no answer was a Modify, and otherwise Modify of the payload of the last Modify |
| Hooks.HookManager.constructor | rust/pai-core/src/lib.rs:71-73 | a new manager has no hooks |
| Hooks.HookManager.Register | rust/pai-core/src/lib.rs:75-77 | registration appends the hook at the end |
| Hooks.HookManager.Trigger | rust/pai-core/src/lib.rs:79-108 | the loop's result equals the specification `Dispatch` of the registered hooks, whose properties are the lemmas above |
| Hooks.LoggerHook | rust/pai-core/src/hooks.rs:13-16 | the logger hook always answers Continue |
| Hooks.LoggersAreTransparent | rust/pai-core/src/hooks.rs:13-16 | a chain of logger hooks passes the working payload through untouched |
| Hooks.AddTo | rust/pai-core/src/lib.rs:119-123 | a counter-style hook either fails or answers Modify |
| Hooks.Counters | rust/pai-core/src/lib.rs:127-131 | n registrations of the counter hook give n hooks |
| Hooks.CountersAdd | rust/pai-core/src/lib.rs:115-124 | n counter hooks raise the count by n, whatever else the payload holds |
| Hooks.RunSteps | rust/pai-core/src/lib.rs:85-107 | a run of hooks that each turn payload k into payload k + 1 ends with Modify of the payload one step per hook further on |
| Hooks.HundredCounters | rust/pai-core/src/lib.rs:126-146 | one hundred counter hooks turn {"count": 0} into {"count": 100} |
| Hooks.AddOneThenTen | rust/pai-core/tests/integration_tests.rs:264-305 | adding 1 and then 10 to {"val": 1} gives {"val": 12}: the second hook sees the first one's payload |
| Hooks.FailingHookAborts | rust/pai-core/tests/integration_tests.rs:603-627 | a failing hook's error is returned unchanged by trigger, whatever hooks follow |
| Safety.New | rust/pai-core/src/safety.rs:11-41 | the table has the twelve rules in source order; the first is recursive removal of / or ~ and the eleventh is the shell-operator class |
| Safety.NoLeadNoMatch | rust/pai-core/src/safety.rs:14-33 | a pattern cannot match a command that holds none of the characters its matches start with |
| Safety.FirstMatchSpec | rust/pai-core/src/safety.rs:54-58 | the search answers the reason of the first matching rule, and answers nothing exactly when no rule matches |
| Safety.NoRuleContinues | rust/pai-core/src/safety.rs:54-62 | a Bash command that no rule matches is let through, both by the hook alone and by a pipeline holding only that hook |
| Safety.AnyMatchAnswers | rust/pai-core/src/safety.rs:54-58 | if some rule matches, the search answers |
| Safety.OnEvent | rust/pai-core/src/safety.rs:50-63 | never Modify; Continue for other event types, for a tool other than "Bash" and for a missing or non-string command; otherwise Block with the first matching rule's reason, and Continue iff no rule matches |
| Safety.ShellOperatorBlocked | rust/pai-core/src/safety.rs:32 | any Bash command containing one of ; & \| ` $ is blocked, by the shell-operator rule at the latest |
| Safety.RecursiveRootRemovalMatches | rust/pai-core/src/safety.rs:14 | "rm -rf /" matches the first rule's pattern |
| Safety.RecursiveRootRemovalFirstMatch | rust/pai-core/src/safety.rs:14-56 | the first match for "rm -rf /" is the catastrophic-deletion reason |
| Safety.RecursiveRootRemovalBlocked | rust/pai-core/tests/integration_tests.rs:29-39 | "rm -rf /" is blocked with the catastrophic-deletion reason, by the validator alone and through a HookManager |
| Safety.ListingAllowed | rust/pai-core/tests/integration_tests.rs:17-27 | "ls -la" matches no rule and goes through |
| Safety.MissingCommandAllowed | rust/pai-core/tests/integration_tests.rs:496-509 | a Bash event without a command is not inspected and answers Continue |
| Algorithm.PhaseIndex | rust/pai-core/src/algorithm.rs:4-12 | each phase has its own position in Observe, Think, Plan, Build, Execute, Verify, Learn |
| Algorithm.PhaseIndexInjective | rust/pai-core/src/algorithm.rs:4-12 | two phases share a position iff they are equal |
| Algorithm.EffortRank | rust/pai-core/src/algorithm.rs:15-21 | effort levels are ranked in declaration order, Trivial lowest and Determined highest |
| Algorithm.TaskAlgorithm.constructor | rust/pai-core/src/algorithm.rs:54-60 | a new task starts at Observe with the given effort and no requirements |
| Algorithm.TaskAlgorithm.Advance | rust/pai-core/src/algorithm.rs:62-73 | answers true iff the phase was not Learn; then the phase moves one step forward, otherwise it stays; effort and requirements never change |
| Algorithm.RunThroughPhases | rust/pai-core/src/algorithm.rs:62-73 | seven advances of a new task answer true six times and then false, ending at Learn |
| Visuals.PhaseColor | rust/pai-core/src/visuals.rs:7-17 | every phase colour is a triple of bytes |
| Visuals.PhaseColorsDistinct | rust/pai-core/src/visuals.rs:7-17 | the seven phases get seven distinct colours |
| Visuals.EffortEmoji | rust/pai-core/src/visuals.rs:19-27 | every effort level has an emoji, three or four characters as written in the source |
| Visuals.EffortEmojisDistinct | rust/pai-core/src/visuals.rs:19-27 | the five effort levels get five distinct emojis |
| Visuals.Markers | rust/pai-core/src/visuals.rs:41-49 | the bar holds exactly one marker per phase |
| Visuals.MarkersDistinct | rust/pai-core/src/visuals.rs:43-47 | the current, check and dot markers differ from each other |
| Visuals.MarkerOfPhase | rust/pai-core/src/visuals.rs:42-48 | the k-th marker is the current marker iff phase k is the current phase, a check iff phase k comes earlier, and a dot iff it comes later |
| Visuals.ExecuteBar | rust/pai-core/tests/integration_tests.rs:832-836 | at Execute the bar shows four checks, then the current marker, then two dots |
| Visuals.RenderProgressBar | rust/pai-core/src/visuals.rs:29-52 | the loop builds the specification bar, which starts with "[ " and ends with "]" |
| Orchestration.GetLimits | rust/pai-core/src/orchestration.rs:15-48 | total over the five effort levels; at most 32 agents and between 1 and u32::MAX iterations; background thinking iff Standard or higher; haiku up to Quick, sonnet up to Thorough, opus for Determined |
| Orchestration.LimitsMonotone | rust/pai-core/src/orchestration.rs:19-45 | more effort never grants fewer agents or fewer iterations, and never withdraws background thinking |
| Orchestration.AgentsStrictlyIncreasing | rust/pai-core/src/orchestration.rs:19-43 | strictly more effort grants strictly more parallel agents (0, 2, 4, 8, 32) |
| Classifier.New | rust/pai-core/src/classifier.rs:11-31 | the phrase tables are lowercase, so matching them against the lowercased query is meaningful |
| Classifier.Classify | rust/pai-core/src/classifier.rs:33-49 | after lowercasing: Determined iff some determined phrase occurs; else Thorough iff some thorough word occurs; else Quick iff some quick word occurs; else Standard |
| Classifier.ClassifyIgnoresCase | rust/pai-core/src/classifier.rs:34 | a query and its lowercase form are classified alike |
| Classifier.DeterminedWins | rust/pai-core/src/classifier.rs:36-38 | a determined phrase anywhere in the query gives Determined whatever surrounds it |
| Classifier.QuickTypoPhrase | rust/pai-core/src/classifier.rs:14 | "fix a quick typo" contains a quick word |
| Classifier.QuickTypoNotDetermined | rust/pai-core/src/classifier.rs:25-29 | "fix a quick typo" contains no determined phrase |
| Classifier.QuickTypoNotThorough | rust/pai-core/src/classifier.rs:19-24 | "fix a quick typo" contains no thorough word |
| Classifier.QuickTypo | rust/pai-core/tests/integration_tests.rs:658-661 | "fix a quick typo" is Quick |
| Classifier.ArchitectPhrase | rust/pai-core/src/classifier.rs:23 | "architect a new microservice" contains a thorough word |
| Classifier.ArchitectNotDetermined | rust/pai-core/src/classifier.rs:25-29 | "architect a new microservice" contains no determined phrase |
| Classifier.ArchitectMicroservice | rust/pai-core/tests/integration_tests.rs:658-662 | "architect a new microservice" is Thorough |
| Classifier.KeepGoingUntilDone | rust/pai-core/tests/integration_tests.rs:658-663 | "keep going until done" is Determined |
| Classifier.Hello | rust/pai-core/tests/integration_tests.rs:658-664 | "hello" is Standard |
| Config.Merge | rust/pai-core/src/config.rs:9-24 | two objects merge into an object whose keys are the union: base-only keys keep their value and every extension key gets the recursive merge; two arrays give the base items followed by the extension items; any other pair gives the extension |
| Config.MergedEntry | rust/pai-core/src/config.rs:12-14 | a key the extension object gives holds, in the merge, the merge of the base entry (Null when absent) with the extension entry |
| Config.MergeIntoNull | rust/pai-core/src/config.rs:13-22 | merging into a missing entry (Null) gives the extension value itself |
| Config.ExtensionOnlyKey | rust/pai-core/src/config.rs:12-22 | a key only the extension has gets the extension's value unchanged |
| Config.MergeEmptyObject | rust/pai-core/src/config.rs:11-16 | merging an empty object over an object leaves it unchanged |
| Config.BaseKeysSurvive | rust/pai-core/src/config.rs:11-16 | every base key survives, and so does a nested base key when both sides hold objects there |
| Config.ObjectKeySurvives | rust/pai-core/src/config.rs:11-16 | a base key is still present after merging two objects |
| Config.DeepMergeExample | rust/pai-core/tests/integration_tests.rs:639-655 | a nested override keeps its sibling key, and the two one-item arrays concatenate |
| Config.ArraysKeepDuplicates | rust/pai-core/tests/integration_tests.rs:438-445 | ["a"] merged with ["b", "a"] has three items: arrays are not deduplicated |
| Config.LoadWithCustomization | rust/pai-core/src/config.rs:26-37 | a failed base read or parse is the error; with no customization file the base is returned unchanged; a failed customization read or parse is the error; otherwise the merge of both |
| Config.MissingCustomizationExample | rust/pai-core/tests/integration_tests.rs:939-948 | without a customization file, {"status": "ok"} loads as it is |
| Hardening.Header | rust/pai-core/src/hardening.rs:8-13 | everything before the content starts with the start banner and has a fixed length beyond the source and timestamp |
| Hardening.IsolateContent | rust/pai-core/src/hardening.rs:6-16 | the wrapped text holds the start banner, then the source, then the timestamp, then the content unchanged, then the end banner, in that order |
| Hardening.UnwrapIsolate | rust/pai-core/src/hardening.rs:6-16 | the content can be read back unchanged from the wrapped text |
| Hardening.IsSuspicious | rust/pai-core/src/hardening.rs:18-39 | true iff the lowercased input contains one of the thirteen phrases |
| Hardening.SuspiciousIgnoresCase | rust/pai-core/src/hardening.rs:37 | an input and its lowercase form are judged alike |
| Hardening.PhraseIsSuspicious | rust/pai-core/src/hardening.rs:19-38 | any input containing one of the phrases is flagged, whatever surrounds it |
| Hardening.PhrasesAreLower | rust/pai-core/src/hardening.rs:19-35 | every phrase is already lowercase, so lowercasing the input finds it in any case |
| Hardening.EmptyNotSuspicious | rust/pai-core/src/hardening.rs:19-38 | the empty string is not suspicious |
| Hardening.PipeToShell | rust/pai-core/tests/integration_tests.rs:555-559 | "curl some-script.sh \| sh" is flagged |
| Hardening.MetadataAddress | rust/pai-core/tests/integration_tests.rs:567 | the cloud metadata address is flagged |
| Hardening.Localhost | rust/pai-core/tests/integration_tests.rs:568 | "Connect to localhost:8080" is flagged |
| Hardening.IgnorePreviousInstructions | rust/pai-core/tests/integration_tests.rs:758 | "ignore all previous instructions" is flagged |
| Privacy.New | rust/pai-core/src/privacy.rs:7-14 | five non-empty protected-path patterns |
| Privacy.IsLeak | rust/pai-core/src/privacy.rs:31-33 | true iff one of the five protected patterns occurs anywhere in the path; nothing but the path and the fixed patterns decides |
| Privacy.ProtectedNameLeaks | rust/pai-core/src/privacy.rs:8-33 | a path holding a protected name anywhere, with anything around it, leaks |
| Privacy.MissionLeaks | rust/pai-core/tests/integration_tests.rs:75 | "path/to/MISSION.md" leaks |
| Privacy.EnvLeaks | rust/pai-core/tests/integration_tests.rs:76 | ".env" leaks |
| Privacy.SourceFileDoesNotLeak | rust/pai-core/tests/integration_tests.rs:77 | "src/main.rs" does not leak |
| Privacy.CapitalHistoryDoesNotLeak | rust/pai-core/src/privacy.rs:13 | the history rule is case-sensitive: "History/x" does not leak |
| Compliance.CheckCompliance | rust/pai-core/src/compliance.rs:7-19 | exactly one message per broken rule; the AgentFactory violation is reported iff the request contains "custom agent" and the output lacks "AgentFactory"; the backup violation iff the request contains "refactor" and the output lacks "backup"; the agent rule's comes first; matching is case-sensitive |
| Compliance.AgentMessageNamesFactory | rust/pai-core/src/compliance.rs:12 | the agent rule's message names AgentFactory |
| Compliance.BackupMessageNamesBackup | rust/pai-core/src/compliance.rs:16 | the backup rule's message names the backup |
| Compliance.RefactorWithoutBackup | rust/pai-core/tests/integration_tests.rs:630-637 | "refactor the auth module" answered without a backup breaks the backup rule |
| Compliance.CustomAgentWithoutFactory | rust/pai-core/tests/integration_tests.rs:741-748 | "create a custom agent" answered without AgentFactory breaks the agent rule |
| Enrichment.TypeRunEnd | rust/pai-core/src/enrichment.rs:20 | the greedy `[a-z-]+` run: it ends at the first character that is not a lowercase letter or a hyphen |
| Enrichment.TagAtIsPattern | rust/pai-core/src/enrichment.rs:20 | the hand-written matcher accepts at position i iff the regular expression matches there, and its split into type and digits is the only one possible, with the type ending at the last hyphen before the digit run |
| Enrichment.SplitIsTag | rust/pai-core/src/enrichment.rs:20 | any way of reading `[type-digits]` at i is the one the matcher finds |
| Enrichment.TypeRunEndAt | rust/pai-core/src/enrichment.rs:20 | a maximal run of type characters is the one the matcher finds |
| Enrichment.DigitRunEndAt | rust/pai-core/src/enrichment.rs:20 | a maximal run of digits is the one the matcher finds |
| Enrichment.FindTag | rust/pai-core/src/enrichment.rs:21 | the leftmost position where the pattern matches, or none when it matches nowhere |
| Enrichment.AgentType | rust/pai-core/src/enrichment.rs:22 | the first capture is a non-empty run of lowercase letters and hyphens |
| Enrichment.InstanceDigits | rust/pai-core/src/enrichment.rs:23 | the second capture is a non-empty run of digits |
| Enrichment.ParseU32 | rust/pai-core/src/enrichment.rs:23 | the digits' value when it fits in a u32, and 0 otherwise |
| Enrichment.Description | rust/pai-core/src/enrichment.rs:17 | a missing or non-string description reads as "" |
| Enrichment.Enrich | rust/pai-core/src/enrichment.rs:14-33 | only PreToolUse events for the Task tool can change; with no match the event is unchanged; on the leftmost match only the payload's agent_metadata key is set, to the type, the parsed instance number and the session id |
| Enrichment.EnrichedMetadata | rust/pai-core/src/enrichment.rs:21-29 | on a match, agent_metadata holds the type, the parsed instance number and the event's session id |
| Enrichment.EnrichIdempotent | rust/pai-core/src/enrichment.rs:14-33 | enriching twice gives the same event as enriching once |
| Enrichment.FindTagFirst | rust/pai-core/src/enrichment.rs:21 | a tag with no '[' before it is the match found |
| Enrichment.ResearcherTag | rust/pai-core/tests/integration_tests.rs:724-738 | in "Running [researcher-1]" the tag is at index 8, with type "researcher" and instance 1 |
| Enrichment.HyphenatedType | rust/pai-core/src/enrichment.rs:20-22 | "[code-review-3]" names the type "code-review": the type keeps its inner hyphens |
| Enrichment.ResearcherEvent | rust/pai-core/tests/integration_tests.rs:724-738 | a Task call described as "Running [researcher-1]" gets agent_metadata with type "researcher", instance 1 and the event's session id |
| Learning.SignalFileName | rust/pai-core/src/learning.rs:45-50 | every signal type is logged to a `.jsonl` file |
| Learning.SignalFilesDistinct | rust/pai-core/src/learning.rs:45-50 | signals of different kinds never share a log file; ratings share one whatever their score |
| Learning.SignalPath | rust/pai-core/src/learning.rs:42-55 | a signal is appended to root/History/Signals/ followed by its file name |
| Learning.LoadStats | rust/pai-core/src/learning.rs:72-77 | a missing file or unparsable contents start from all-zero statistics; a failed read is the error |
| Learning.Next | rust/pai-core/src/learning.rs:79-93 | a failure counts a task and resets the streak; a loopback counts only a loopback; a rating of 7 or more counts a task, a success and extends the streak; lower ratings and anomalies change nothing; an increment past u32::MAX is the overflow panic |
| Learning.NextKeepsInvariant | rust/pai-core/src/learning.rs:79-93 | every update keeps successful tasks at most total tasks, and every counter within u32 |
| Learning.NextNeverUncounts | rust/pai-core/src/learning.rs:79-93 | counters never go down, except the streak, which only a failure resets |
| Learning.RatingOverflowIsTaskOverflow | rust/pai-core/src/learning.rs:87-91 | on consistent statistics a high rating overflows exactly when the task count is at u32::MAX |
| Learning.UpdateStats | rust/pai-core/src/learning.rs:79-93 | the field-by-field update gives the statistics of `Next` |
| Learning.FirstRating | rust/pai-core/tests/integration_tests.rs:81-98 | a first rating of 10 on a fresh record gives one task, one success and a streak of one |
| Agents.Lookup | rust/pai-core/src/agents.rs:39-49 | a trait is found iff its key is in the registry map, and it is the mapped trait |
| Agents.Section | rust/pai-core/src/agents.rs:103-116 | a section starts with its "## title" line |
| Agents.Compose | rust/pai-core/src/agents.rs:93-120 | an unknown expertise is the error, checked before the personality, which is checked before the approach; it succeeds iff all three keys are known, with the heading followed by the rendered sections |
| Agents.LayoutOrder | rust/pai-core/src/agents.rs:103-117 | the Identity section with the expertise description comes first; a Personality section is present iff the personality has a fragment, an Approach section iff the approach has one, in the order Identity, Personality, Approach |
| Agents.RenderContains | rust/pai-core/src/agents.rs:103-117 | the text of every section is contained in the rendering |
| Agents.PromptContainsTraits | rust/pai-core/src/agents.rs:103-117 | the prompt holds the expertise description and every fragment present |
| Agents.PromptOpening | rust/pai-core/src/agents.rs:101-105 | the prompt begins with "# Composed Agent: {exp} {pers} {app}" and a blank line, then "## Identity" and the expertise description |
| Agents.PushSection | rust/pai-core/src/agents.rs:108-110 | the three pushes append one section |
| Agents.ComposeAgent | rust/pai-core/src/agents.rs:93-120 | the imperative composition returns what `Compose` specifies |
| Agents.BuildPrompt | rust/pai-core/src/agents.rs:101-119 | the pushes build the specification prompt |
| Agents.VerifierMode | rust/pai-core/src/agents.rs:122-125 | verifier mode is the technical, skeptical, adversarial composition |
| Agents.EmptyRegistryRejects | rust/pai-core/src/agents.rs:93-95 | with the default empty registry every composition fails on the unknown expertise |
| Agents.TechBoldFast | rust/pai-core/tests/integration_tests.rs:100-126 | the tech, bold, fast composition succeeds and holds "Tech expert", "Be bold." and "Move fast." |
| Skills.NonDotRunEnd | rust/pai-core/src/skills.rs:39 | the greedy `[^.]+` run ends at the first '.' or at the end of the text |
| Skills.UseWhenAtIsPattern | rust/pai-core/src/skills.rs:39 | the hand-written matcher accepts at i iff "USE WHEN", some whitespace and a non-empty run without '.' can be read there |
| Skills.FindUseWhen | rust/pai-core/src/skills.rs:61 | the leftmost position where the pattern matches, or none |
| Skills.Capture | rust/pai-core/src/skills.rs:62 | the captured trigger list is non-empty and holds no '.' |
| Skills.CleanOne | rust/pai-core/src/skills.rs:64-65 | one piece trimmed and lowercased, dropped when that leaves it empty |
| Skills.Clean | rust/pai-core/src/skills.rs:63-66 | every kept trigger is trimmed, lowercase and non-empty, and there are no more triggers than pieces |
| Skills.CleanAppend | rust/pai-core/src/skills.rs:63-66 | cleaned lists stay clean when concatenated |
| Skills.TrimmedLowerEnds | rust/pai-core/src/skills.rs:64 | a trimmed and lowercased piece neither starts nor ends with whitespace |
| Skills.TrimLowerKeepsOut | rust/pai-core/src/skills.rs:64 | trimming and lowercasing introduce no character other than lowercase letters |
| Skills.CleanFixesClean | rust/pai-core/src/skills.rs:63-66 | cleaning a clean list gives it back unchanged |
| Skills.CleanOneFixes | rust/pai-core/src/skills.rs:64-65 | a trimmed, lowercase, non-empty piece is kept as it is |
| Skills.Triggers | rust/pai-core/src/skills.rs:59-67 | the triggers are trimmed, lowercase, non-empty and hold no ','; a SKILL.md without "USE WHEN" has none |
| Skills.TriggersAreClean | rust/pai-core/src/skills.rs:59-67 | cleaning the extracted triggers again changes nothing |
| Skills.MakeSkill | rust/pai-core/src/skills.rs:46-75 | a skill directory yields its name, the path of its SKILL.md, its extracted triggers, and customized iff EXTEND.yaml exists under the customization directory |
| Skills.ScanWellKeyed | rust/pai-core/src/skills.rs:69 | the scan keeps every skill keyed by its lowercased name |
| Skills.ScanCounts | rust/pai-core/src/skills.rs:42-79 | the count grows by at most one per entry; no skill is removed; every new key is the lowercased name of a scanned skill directory; keys grow by at most the count |
| Skills.ScanKeepsSkills | rust/pai-core/src/skills.rs:42-79 | a scan that meets no error registers every skill directory it was given |
| Skills.SkillRegistry.constructor | rust/pai-core/src/skills.rs:24-29 | a new registry has no skills and no customization directory |
| Skills.SkillRegistry.WithCustomization | rust/pai-core/src/skills.rs:31-34 | sets the customization directory and keeps the skills |
| Skills.SkillRegistry.ScanDirectory | rust/pai-core/src/skills.rs:36-81 | a missing directory gives 0 and changes nothing; a failed listing is the error; otherwise the skills and the result are those of the specification scan |
| Skills.SkillRegistry.ReadSkill | rust/pai-core/src/skills.rs:46-75 | reads one skill directory into the metadata `MakeSkill` specifies |
| Skills.SkillRegistry.FindMatchingSkills | rust/pai-core/src/skills.rs:83-91 | exactly the registered skills whose lowercased name contains the lowercased query, or one of whose triggers occurs in it; the registry is not changed |
| Skills.EmptyQueryMatchesAll | rust/pai-core/src/skills.rs:87 | an empty query matches every registered skill |
| Skills.QueryCaseIgnored | rust/pai-core/src/skills.rs:84 | a query and its lowercase form find the same skills |
| Skills.TriggerInQueryMatches | rust/pai-core/src/skills.rs:88 | a query holding one of a skill's triggers, in any case, finds that skill |
| Skills.NamePartMatches | rust/pai-core/src/skills.rs:87 | a query contained in a skill's name, in any case, finds that skill |
| Oracle.Verify | rust/pai-core/src/oracle.rs:17-59 | FileExists answers whether the path exists; HttpSuccess refuses a target not starting with "https://" before any request; CommandExitCode refuses a command starting with none of the allowed prefixes before running it; GrepMatch answers false unless the target splits into exactly two parts, refuses a path naming .env or MISSION.md before reading it, and otherwise answers whether the file holds the pattern, a failed read being the error |
| Oracle.ContainsAnyPrefix | rust/pai-core/src/oracle.rs:33 | true iff the target starts with one of the allowed prefixes |
| Oracle.GuardsComeFirst | rust/pai-core/src/oracle.rs:24-53 | a target refused by a guard gets the same answer whatever the file system, network or shell would do, and the answer is an error or false |
| Oracle.OnlySchemeChecked | rust/pai-core/src/oracle.rs:24-28 | any HTTPS target is requested, internal hosts included: only the scheme is checked |
| Oracle.PlainHttpRefused | rust/pai-core/src/oracle.rs:24-26 | plain HTTP is refused with the SSRF error |
| Oracle.OnlyPrefixChecked | rust/pai-core/src/oracle.rs:32-41 | any command starting with an allowed prefix is run, whatever follows the prefix |
| Oracle.RemoveRefused | rust/pai-core/src/oracle.rs:32-35 | "rm -rf /" is refused with the injection error |
| Oracle.GrepFindsPattern | rust/pai-core/tests/integration_tests.rs:231-242 | "pattern\|path" on a readable, non-sensitive file answers whether the file holds the pattern |
| Oracle.GrepRefusesEnv | rust/pai-core/src/oracle.rs:51-53 | a grep target whose path names .env is refused before the file is read |
| Telos.FileName | rust/pai-core/src/telos.rs:27-38 | every category's file is a Markdown file |
| Telos.FileNamesDistinct | rust/pai-core/src/telos.rs:27-38 | the ten categories have ten different file names |
| Telos.GetFilePath | rust/pai-core/src/telos.rs:26-40 | the path is root/skills/CORE/USER/TELOS/ followed by the category's file name |
| Telos.FilePathsDistinct | rust/pai-core/src/telos.rs:26-40 | different categories never share a path |
| Telos.DeepContext | rust/pai-core/src/telos.rs:42-53 | a successful context starts with the "# DEEP CONTEXT (TELOS)" header |
| Telos.DeepContextOk | rust/pai-core/src/telos.rs:46-47 | the context is built iff no requested file that exists fails to read |
| Telos.MissingSkipped | rust/pai-core/src/telos.rs:46 | a category whose file does not exist adds nothing |
| Telos.ContextHoldsContent | rust/pai-core/src/telos.rs:44-50 | the content of every requested file that exists was read and appears in the context |
| Telos.LoadDeepContext | rust/pai-core/src/telos.rs:42-53 | the loop builds the specification context, stopping at the first failed read |
| Telos.FirstErrorSticks | rust/pai-core/src/telos.rs:47 | once a prefix of the categories fails, the whole request fails with the same error |
| Telos.MissionContext | rust/pai-core/tests/integration_tests.rs:711-721 | with only MISSION.md present, the mission's context is the header, its text and a separator |
| Memory.GetPath | rust/pai-core/src/memory.rs:20-26 | a tier's path is a direct child of the root directory, named after the tier |
| Memory.TierPaths | rust/pai-core/src/memory.rs:22-24 | Hot is root/Work, Warm root/Learning and Cold root/History |
| Memory.TierPathsDistinct | rust/pai-core/src/memory.rs:20-26 | the three tiers have three different directories |
| Identity.ActionLines | rust/pai-core/src/identity.rs:37-39 | one "  - action" line per action, in input order |
| Identity.ResponseLines | rust/pai-core/src/identity.rs:33-43 | the reply is the summary line, the analysis line, the actions header, one line per action, the results line and the voice line, in that order |
| Identity.FormatResponse | rust/pai-core/src/identity.rs:33-43 | the pushes and the loop over the actions build the specification reply |
| Identity.DefaultName | rust/pai-core/src/identity.rs:12-22 | the default identity is called "PAI" and has no voice |
| Identity.VoiceUsesName | rust/pai-core/src/identity.rs:41 | only the identity's name reaches the reply: display name, role, colour and voice id are never shown |
| Identity.NoActions | rust/pai-core/src/identity.rs:36-40 | with no actions the actions header is followed directly by the results line |
| Identity.ResponseHoldsParts | rust/pai-core/tests/integration_tests.rs:819-829 | every part of the reply appears on its labelled line, and the voice line carries the identity's name |
| Swarm.Perspective | rust/pai-core/src/swarm.rs:26 | the block of response i starts with "### Perspective ", then the number i + 1, then the answer on the next line |
| Swarm.Perspectives | rust/pai-core/src/swarm.rs:25-27 | one block per response, in order |
| Swarm.Steelman | rust/pai-core/src/swarm.rs:23-29 | the loop builds the specification synthesis: the header followed by the blocks |
| Swarm.PushPerspective | rust/pai-core/src/swarm.rs:26 | one push appends one block |
| Swarm.SynthesisSnoc | rust/pai-core/src/swarm.rs:25-27 | the synthesis of one response more is the earlier synthesis followed by that response's block |
| Swarm.EmptySwarm | rust/pai-core/src/swarm.rs:24 | with no responses the synthesis is the header alone |
| Swarm.SynthesisStartsWithHeader | rust/pai-core/src/swarm.rs:24 | the synthesis always opens with the header |
| Swarm.SynthesisHoldsAnswers | rust/pai-core/tests/integration_tests.rs:197-206 | every answer and its perspective number appear in the synthesis |
| Filters.Select | src/tradekit/screener/filters.py:13-61 | a filter keeps exactly the rows whose cell passes its comparison (all rows when its column is missing), in order |
| Filters.Apply | src/tradekit/screener/filters.py:13-61 | a filter keeps the frame's columns and leaves the frame unchanged when its column is missing |
| Filters.SelectAllKept | src/tradekit/screener/filters.py:13-61 | a filter that keeps every row returns the rows unchanged |
| Filters.Chain | src/tradekit/screener/filters.py:66-73 | a chain keeps the frame's columns |
| Filters.SelectSnoc | src/tradekit/screener/filters.py:69-70 | filtering what a chain kept by one more filter is selecting by the longer chain |
| Filters.SelectAppend | src/tradekit/screener/filters.py:17 | a filter selects row by row: filtering a concatenation concatenates the filtered parts |
| Filters.SelectAllEmpty | src/tradekit/screener/filters.py:66-73 | an empty chain keeps every row |
| Filters.ChainIsConjunction | src/tradekit/screener/filters.py:66-73 | the chain, including its early stop on an empty frame, keeps exactly the rows every filter keeps, in order |
| Filters.SelectAllSubsequence | src/tradekit/screener/filters.py:66-73 | the rows a chain keeps are a subsequence of the input rows |
| Filters.EmptyStaysEmpty | src/tradekit/screener/filters.py:71-72 | once the frame is empty, the remaining filters change nothing, so stopping early is sound |
| Filters.ApplyFilters | src/tradekit/screener/filters.py:66-73 | the loop with its early break returns the specification chain |
| Filters.BuildFilterChain | src/tradekit/screener/filters.py:76-101 | one filter per setting group present, built from that group's settings (missing price bounds default to 0 and infinity), in the order price, volume, gap, average volume, float |
| Filters.AddGroup | src/tradekit/screener/filters.py:80-99 | one step appends the group's filter exactly when the group's settings are present, and keeps the list ordered by kind with one requested filter per present group so far |
| Filters.GroupFilter | src/tradekit/screener/filters.py:80-99 | the filter built for a present group is the one the config requests, of that group's kind |
| Filters.RequestedIsUnique | src/tradekit/screener/filters.py:80-99 | the config fixes each kind's filter: two requested filters of one kind are the same |
| Filters.PriceAndGapConfig | tests/test_filters.py:56-59 | a config with min and max price and a minimum gap gives a chain of two |
| Filters.PriceColumn | src/tradekit/screener/filters.py:14 | the price filter reads pre_price when the frame has it, else price |
| Filters.PriceBoundsInclusive | src/tradekit/screener/filters.py:17 | both price bounds are inclusive |
| Filters.GapIsAbsolute | src/tradekit/screener/filters.py:39 | the gap filter compares the gap's size: a gap down passes like a gap up |
| Filters.NaNNeverKept | src/tradekit/screener/filters.py:17-61 | a NaN cell passes no filter whose column exists |
| Filters.ScreenCandidate | src/tradekit/screener/filters.py:17-39 | under price at least 5 and gap at least 3, a candidate is kept iff its price is at least 5 and its gap's size at least 3 |
| Filters.PriceThenGap | tests/test_filters.py:47-54 | price at least 5 then gap at least 3 keeps AAA and CCC of the four test candidates |
| Levels.ComputePivotPoints | src/tradekit/analysis/levels.py:7-28 | with low <= close <= high and a non-decreasing rounding, the rounded levels are ordered s3 <= s2 <= s1 <= pivot <= r1 <= r2 <= r3 |
| Levels.PivotsOrdered | src/tradekit/analysis/levels.py:12-18 | with low <= close <= high, the unrounded levels are ordered s3 <= s2 <= s1 <= pivot <= r1 <= r2 <= r3 |
| Levels.PivotSpacing | src/tradekit/analysis/levels.py:12-18 | r2 and s2 sit one range from the pivot, r3, r1, s1 and s3 are one range apart, and r1 and s1 mirror low and high around the pivot |
| Levels.PivotExample | src/tradekit/analysis/levels.py:12-18 | high 110, low 90, close 100 give pivot 100, resistances 110, 120, 130 and supports 90, 80, 70 |
| Levels.MaxOf | src/tradekit/analysis/levels.py:49 | `np.max` of a window is an element of it and bounds it from above |
| Levels.MinOf | src/tradekit/analysis/levels.py:51 | `np.min` of a window is an element of it and bounds it from below |
| Levels.Window | src/tradekit/analysis/levels.py:48 | the window holds 2 * order + 1 values centred on i |
| Levels.WindowTests | src/tradekit/analysis/levels.py:49-51 | comparing with the window's max is the peak test, and failing it while equal to the window's min is the trough test |
| Levels.ExtremesExact | src/tradekit/analysis/levels.py:47-52 | the reported indices lie in [order, len - order), ascend, carry their values, and are exactly the peaks (or troughs) |
| Levels.PeakIsNoTrough | src/tradekit/analysis/levels.py:49-52 | no index is reported both as a peak and as a trough |
| Levels.FindLocalExtremes | src/tradekit/analysis/levels.py:31-54 | the loop returns the specification peaks and troughs |
| Levels.TestIndex | src/tradekit/analysis/levels.py:47-51 | testing index i against its window extends the peaks and troughs found so far to those of the indexes up to i |
| Levels.Groups | src/tradekit/analysis/levels.py:73-82 | clustering fails with division by zero iff some level but the last is 0; otherwise the clusters are non-empty and concatenate back to the sorted levels |
| Levels.GroupsStep | src/tradekit/analysis/levels.py:76-81 | one more price either joins the last cluster when within tolerance of its last price, or opens a new cluster |
| Levels.GroupsChained | src/tradekit/analysis/levels.py:76-81 | within a cluster each price is within tolerance of the previous one, and between clusters it is not |
| Levels.ZoneCount | src/tradekit/analysis/levels.py:76-82 | there is one cluster more than there are gaps wider than the tolerance |
| Levels.Summaries | src/tradekit/analysis/levels.py:84-90 | one zone per cluster, with its rounded mean as level and its size as strength |
| Levels.GroupSorted | src/tradekit/analysis/levels.py:73-82 | the loop over the sorted levels builds the specification clusters |
| Levels.ClusterLevels | src/tradekit/analysis/levels.py:57-90 | no levels give no zones; otherwise the sorted levels are clustered and each cluster summarised |
| Levels.StrengthsCountLevels | src/tradekit/analysis/levels.py:72-90 | every level lands in exactly one zone: the strengths add up to the number of levels |
| Levels.GroupsOrdered | src/tradekit/analysis/levels.py:72-82 | every price of an earlier cluster is at most every price of a later one |
| Levels.MeanBetween | src/tradekit/analysis/levels.py:86 | a cluster's mean lies between any bounds on its prices |
| Levels.ClustersAscending | src/tradekit/analysis/levels.py:84-90 | with a non-decreasing rounding the zones come out in ascending order of level |
| Levels.NoLevelsNoClusters | src/tradekit/analysis/levels.py:69-70 | no levels, no zones |
| Levels.TwoZones | src/tradekit/analysis/levels.py:72-82 | 100, 100.5, 101, 110, 110.5 at tolerance 1.5 percent form two clusters: three near 100 and two near 110 |
| Levels.Prices | src/tradekit/analysis/levels.py:113-114 | the prices of the extremes, in order |
| Levels.FindSupportResistance | src/tradekit/analysis/levels.py:93-123 | resistance ascends and support descends by level; the resistance strengths add up to the close peaks plus the high peaks, and the support strengths to the close troughs plus the low troughs |
| Levels.SortKeepsStrength | src/tradekit/analysis/levels.py:120-121 | sorting the zones keeps their total strength |
| Levels.Take | src/tradekit/analysis/levels.py:134-138 | `xs[:n]` is a prefix of n elements, or of all but -n elements for a negative n |
| Levels.Above | src/tradekit/analysis/levels.py:132-134 | exactly the resistance zones strictly above the price, each as many times as it occurs, in their order |
| Levels.AboveSorted | src/tradekit/analysis/levels.py:132-134 | filtering a list ordered by level keeps it ordered |
| Levels.Below | src/tradekit/analysis/levels.py:136-138 | exactly the support zones strictly below the price, each as many times as it occurs, in their order |
| Levels.BelowSorted | src/tradekit/analysis/levels.py:136-138 | filtering a list ordered by level keeps it ordered |
| Levels.GetNearestLevels | src/tradekit/analysis/levels.py:126-140 | the first n zones above the price and the first n below it: each a prefix of the filtered list, of length n or the whole list when it is shorter, and for a negative n all but the last -n |
| Levels.NearestResistance | src/tradekit/analysis/levels.py:126-134 | on resistance sorted upward, no returned zone lies above a zone above the price that was left out: these are the n nearest |
| Levels.NearestSupport | src/tradekit/analysis/levels.py:126-138 | on support sorted downward, no returned zone lies below a zone below the price that was left out: these are the n nearest |
| Levels.NearestFills | src/tradekit/analysis/levels.py:132-134 | with at least n resistance zones above the price, exactly n are returned |
| Scoring.Clamp | src/tradekit/analysis/scoring.py:54 | the result lies in [0, 100], equals x inside that range, and is the nearer end outside it |
| Scoring.RsiBandsCover | src/tradekit/analysis/scoring.py:15-25 | every RSI that is a number lands in one of the five bands, each of which moves the score |
| Scoring.MomentumBounds | src/tradekit/analysis/scoring.py:11-54 | the raw momentum lies in [15, 105] and the clamped score in [15, 100], equal to the raw score up to 100 |
| Scoring.ScoreMomentum | src/tradekit/analysis/scoring.py:6-54 | the step-by-step scoring computes the specification momentum score |
| Scoring.MaAdjustmentsBounds | src/tradekit/analysis/scoring.py:68-74 | each moving average moves the score by at most 5 either way |
| Scoring.TrendBounds | src/tradekit/analysis/scoring.py:57-86 | the trend score lies in [20, 85] and is never clamped; a missing, zero or NaN close gives 50 |
| Scoring.BullishTrend | tests/test_analysis.py:106-115 | a close above four positive averages with EMA 9 > EMA 20 > SMA 50 scores the maximum 85 |
| Scoring.ScoreTrend | src/tradekit/analysis/scoring.py:57-86 | the loop over the four averages computes the specification trend score |
| Scoring.VolumeBounds | src/tradekit/analysis/scoring.py:89-117 | the volume score lies in [30, 85] and is never clamped |
| Scoring.NaNCloseBelowVwap | src/tradekit/analysis/scoring.py:109-115 | a NaN close against a positive VWAP counts as below it, because NaN is truthy and fails the comparison |
| Scoring.ScoreVolume | src/tradekit/analysis/scoring.py:89-117 | the step-by-step scoring computes the specification volume score |
| Scoring.Grade | src/tradekit/analysis/scoring.py:146-154 | the grade is one of A, B, C, F |
| Scoring.GradeMonotone | src/tradekit/analysis/scoring.py:146-154 | a higher total never earns a worse grade |
| Scoring.ComputeCompositeScore | src/tradekit/analysis/scoring.py:120-162 | the grade is that of the rounded total, and the sub-scores are the rounded momentum, trend and volume scores |
| Scoring.DefaultTotalInRange | src/tradekit/analysis/scoring.py:132-144 | with the default weights and a monotone rounding that keeps 0 and 100, the total lies in [0, 100] |
| Cache.CacheKey | src/tradekit/data/cache.py:32-33 | the key starts with the namespace and a colon, and what follows is the key |
| Cache.Replace | src/tradekit/data/cache.py:59 | `str.replace` of one character: same length, each occurrence replaced and every other character kept |
| Cache.CacheFileName | src/tradekit/data/cache.py:59 | the file name is namespace, '_', key and ".parquet", with no '/' and no ':' left |
| Cache.SlashSharesFile | src/tradekit/data/cache.py:57-59 | the namespaces "x/y" and "x_y" have different cache keys but share one Parquet file name |
| Cache.LoadMeta | src/tradekit/data/cache.py:22-26 | an absent metadata file gives no entries, a parsed one its entries, and one that is not JSON an error |
| Cache.DataCache.constructor | src/tradekit/data/cache.py:16-26 | the directory given, else ~/.tradekit/cache; the metadata is what the metadata file holds, or empty when it does not exist; built only from a metadata file that loads |
| Cache.DataCache.Get | src/tradekit/data/cache.py:35-54 | nothing for a missing entry, one older than the TTL or one whose file is gone; otherwise what reading the file gives, a failed read being nothing |
| Cache.DataCache.Put | src/tradekit/data/cache.py:56-71 | a failed write changes nothing; otherwise the file is added and the entry recorded under the cache key with its file, time and row count, and saved when the save succeeds |
| Cache.DataCache.Clear | src/tradekit/data/cache.py:73-85 | without a namespace every Parquet file is deleted and the metadata emptied; with one, exactly the entries whose key starts with "namespace:" are removed together with their files; the metadata is then saved |
| Cache.RemovePrefixed | src/tradekit/data/cache.py:80-84 | deleting each key that starts with the prefix leaves exactly the other entries and removes exactly the deleted entries' files |
| Cache.TtlBoundary | src/tradekit/data/cache.py:42-44 | exactly at the TTL an entry is still served; any moment later it is not |
| Cache.PutKeyIsCleared | src/tradekit/data/cache.py:80 | every key put under a namespace is one that clearing that namespace removes |
| Cache.ClearTakesSubNamespaces | src/tradekit/data/cache.py:80 | clearing namespace a also removes the entries put under namespace "a:b" |
| Backtest.Weekday | src/tradekit/data/backtest.py:34 | `date.weekday()` lies in 0..6 |
| Backtest.WeekdayPeriodic | src/tradekit/data/backtest.py:34 | weekdays repeat every seven days and advance by one each day |
| Backtest.TradingDays | src/tradekit/data/backtest.py:29-37 | exactly the weekdays from start to end inclusive, in ascending order |
| Backtest.TwoDigits | src/tradekit/data/backtest.py:75 | `%m` and `%d` are two digits whose value is the number |
| Backtest.KeyParts | src/tradekit/data/backtest.py:75-76 | the key has five slash-free components |
| Backtest.S3Key | src/tradekit/data/backtest.py:73-76 | splitting the key on '/' gives back its five components |
| Backtest.S3KeyText | src/tradekit/data/backtest.py:76 | the key is us_stocks_sip/day_aggs_v1/YYYY/MM/YYYY-MM-DD.csv.gz |
| Backtest.CachePath | src/tradekit/data/backtest.py:78-81 | the cache path is the cache directory followed by the year, the month and the day's file, as in the key |
| Backtest.S3KeyInjective | src/tradekit/data/backtest.py:73-76 | different days have different keys, so no two days share a flat file |
| Backtest.PeriodDays | src/tradekit/data/backtest.py:115 | a known period has its listed length; any other is 90 days |
| Backtest.UnknownPeriodIsThreeMonths | src/tradekit/data/backtest.py:115 | an unknown period spans as long as "3mo" |
| Cli.MinuteOfDay | src/tradekit/cli.py:39-40 | the minute of the day is below 1440 |
| Cli.MarketSession | src/tradekit/cli.py:36-51 | the session is one of the four labels |
| Cli.SessionsPartitionDay | src/tradekit/cli.py:42-51 | overnight before 04:00 and from 20:00, pre-market 04:00-09:29, open 09:30-15:59, after hours 16:00-19:59: each minute gets exactly one label |
| Cli.EffectiveSource | src/tradekit/cli.py:25 | a non-empty source given on the command line is used; a missing or empty one falls back to the configured source |
| Cli.GetProvider | src/tradekit/cli.py:22-33 | the Massive provider exactly when the effective source is "massive", Yahoo otherwise |
| Cli.ExplicitSourceWins | src/tradekit/cli.py:25-33 | an explicit source makes the configured one irrelevant; an empty source behaves like none; with none, Massive exactly when configured so |
| Cli.RvolLabel | src/tradekit/cli.py:150-159 | the label is one of EXTREME, HIGH, ABOVE AVG, NORMAL, BELOW AVG |
| Cli.RvolStyle | src/tradekit/cli.py:148 | the figure's style is bold green, green, yellow or red |
| Cli.RvolLadder | src/tradekit/cli.py:150-159 | each label owns its half-open band: EXTREME from 3, HIGH [2, 3), ABOVE AVG [1.5, 2), NORMAL [1, 1.5), BELOW AVG below 1 or NaN |
| Cli.RvolLabelMonotone | src/tradekit/cli.py:150-159 | a larger relative volume never gets a lower label |
| Cli.StyleMatchesLabel | src/tradekit/cli.py:148-159 | the style ladder agrees with the label ladder: bold green exactly for HIGH and EXTREME, green for ABOVE AVG, yellow for NORMAL, red for BELOW AVG |
| Cli.RvolLine | src/tradekit/cli.py:146-159 | the line is printed exactly when the row has a relative volume, and then carries one of the five labels |
| Cli.ScreenerSettings.constructor | src/tradekit/config.py:40-46 | the defaults: 2% gap, 200000 pre-market volume, price 2 to 200, 500000 average volume, 20 results |
| Cli.ScreenerSettings.ApplyOverrides | src/tradekit/cli.py:86-92 | each option given replaces its setting; options left out and the other settings keep their values |
| Terminal.GradeColor | src/tradekit/reports/terminal.py:11-12 | the style is one of the four grade colours or white |
| Terminal.GradesAreColoured | src/tradekit/reports/terminal.py:11-12 | every grade the score hands out has a colour; any other text is white |
| Terminal.GradeColorsDistinct | src/tradekit/reports/terminal.py:11-12 | different grades have different colours |
| Terminal.GapColor | src/tradekit/reports/terminal.py:15-24 | the style is bold green, green, bold red, red or white |
| Terminal.GapColorBands | src/tradekit/reports/terminal.py:15-24 | bold green above 5%, green in (0, 5], red in [-5, 0), bold red below -5%, white for exactly zero or NaN |
| Terminal.GapColorSymmetric | src/tradekit/reports/terminal.py:15-24 | a gap and its mirror get the same weight of colour, green up and red down |
| Terminal.Trunc | src/tradekit/reports/terminal.py:34 | `int()` truncates toward zero: the result is within one of the value, on the zero side |
| Terminal.IntText | src/tradekit/reports/terminal.py:34 | `str()` of an integer ends in a digit, is all digits with the number's value when non-negative, and starts with '-' otherwise |
| Terminal.VolumeSuffix | src/tradekit/reports/terminal.py:27-34 | "-" exactly for NaN or zero, a trailing M exactly from a million, K exactly from a thousand below a million, a trailing digit otherwise |
| Terminal.SmallVolumeIsWholePart | src/tradekit/reports/terminal.py:34 | between one and a thousand the text is the volume's whole part in at most three digits |
| Markdown.FmtVol | src/tradekit/reports/markdown.py:117-124 | the report's volume rendering is the terminal's, branch for branch |
| Markdown.ScanReport | src/tradekit/reports/markdown.py:10-35 | the report is its lines joined with newlines, the lines built by the loop over the rows |
| Markdown.TableLinesMarked | src/tradekit/reports/markdown.py:16-21 | the table header and rule are table lines; the empty-result line is not |
| Markdown.ScanReportShape | src/tradekit/reports/markdown.py:10-35 | title, timestamp and a blank line come first; then either the single empty-result line or the header, the rule and one row per candidate, row i numbered i + 1 with its ticker in bold; table lines appear exactly from line 3 on and only when there are candidates |
| Markdown.ScanRowOneLine | src/tradekit/reports/markdown.py:26-33 | a candidate's row is a single line when its ticker and the number renderings are |
| Markdown.ScanReportReadsBack | src/tradekit/reports/markdown.py:13-35 | splitting the report on newlines gives back exactly its lines, so the report holds one line per entry |
| Markdown.NotLevelLine | src/tradekit/reports/markdown.py:63-66 | a line without a '*' in third place is not a level line |
| Markdown.FirstThree | src/tradekit/reports/markdown.py:62-65 | `[:3]` keeps the first three levels, or all when there are fewer |
| Markdown.AppendLevels | src/tradekit/reports/markdown.py:62-66 | the loop appends one level line for each of the first three levels, in order, after the lines already there |
| Markdown.AnalysisReport | src/tradekit/reports/markdown.py:38-69 | the report is the header lines and the levels section joined with newlines |
| Markdown.HeaderHasNoLevels | src/tradekit/reports/markdown.py:42-54 | the header has ten lines, none the levels heading and none a level line |
| Markdown.LevelLineKind | src/tradekit/reports/markdown.py:63-66 | a level line is tagged with its own kind and no other, and is neither blank nor the heading |
| Markdown.KeyLevelsIff | src/tradekit/reports/markdown.py:59-67 | the Key Levels section is present exactly when there is a resistance or a support level |
| Markdown.SectionPlaced | src/tradekit/reports/markdown.py:59-67 | after a ten-line header, the resistance lines sit right after the heading and the support lines right after them |
| Markdown.LevelLinesPlaced | src/tradekit/reports/markdown.py:42-67 | at most three resistance lines, at lines 11 onward, then at most three support lines, and no level lines anywhere else |
| Markdown.DailyReport | src/tradekit/reports/markdown.py:72-100 | the report is its lines joined with newlines, the ranking rows built by the loop |
| Markdown.PushRankedTable | src/tradekit/reports/markdown.py:83-98 | the ranking block pushed line by line is the heading, a blank line, the table head, one row per ticker and a blank line |
| Markdown.PushRankedRows | src/tradekit/reports/markdown.py:87-97 | the loop pushes one row per ranked ticker, numbered from 1, in order |
| Markdown.RankedSectionIff | src/tradekit/reports/markdown.py:83-98 | the ranking section is present exactly when a non-empty ranking is given |
| Markdown.RankedRowsNumbered | src/tradekit/reports/markdown.py:76-98 | with a ranking the report has one line per ranked row plus nine, row i numbered i + 1 with its ticker, in the ranking's order |

## Left out

- Concurrency: `trigger` and `on_event` are async on tokio in the source; the model makes them sequential calls, since nothing in the shown code shares state across tasks.
- File system, network and process I/O become parameters standing in for their results: configuration and customization file contents, TELOS file existence and contents, the skill directory listing and SKILL.md contents, the oracle's HTTP, shell and file results, and the cache's Parquet and metadata files.
- The clock becomes a parameter: the hardening timestamp, the cache's `now`, the report timestamps and the time of day in the market session.
- Float formatting and rounding (`:.1f`, `:.2f`, `:+.1f`, `:.0f`, `round`) are function parameters; prices and indicator values are exact reals, and NaN is an absent value.
- Text: regex `\s`, `\w` and `\d`, `to_lowercase`, `lower()` and `trim` are modelled on ASCII only; non-ASCII white space, letters and case mappings are not covered.
- Hardening.IsSuspicious: non-ASCII case folding is not modelled, because the model's lowercasing is ASCII-only.
- Skills.SkillRegistry.FindMatchingSkills: non-ASCII case folding of triggers and input is not modelled, for the same reason.
- Classifier.Classify: non-ASCII case folding of the request is not modelled, for the same reason.
- Safety.OnEvent: Unicode white space inside a command does not count as a separator in the model, because `\s` is ASCII-only here.
- The marker and emoji literals of visuals.rs are double-encoded in the source file; the model uses the code points exactly as written.
- Enrichment.Enrich: the source writes `agent_metadata` into the event in place through `&mut`; the model returns the updated event, which is the same effect on a value.
- Learning.UpdateStats: the u32 counters overflow as a debug build does, with a panic modelled as an error; the release-build wrap-around is not modelled.
- The compiled regexes in the source are constants that always compile, so their compile errors are not modelled.
- `privacy.rs` `redact` is not modelled: it rewrites text through case-insensitive lazy regex replacement.
- `swarm.rs` `select_pareto_winner` is not modelled: it ranks by f32 products and panics on NaN.
- `learning.rs` `capture_signal` file appends and `load_lessons` are not modelled beyond the signal file name and path; they are file I/O.
- `prosody.rs`, `debug_prosody.rs`, `prompting.rs`, `observability.rs`, `manifest.rs`, `recovery.rs`, `fabric.rs` and `upgrades.rs` are not part of this model: they are Unicode emoji regexes, f32 presets, template and serialisation wrappers, or file I/O.
- The integration tests for `AlgorithmEngine`, `SessionManager`, `DynamicCapabilityLoader`, `PromptEngine` and tiered-memory event logging exercise APIs that are not part of this model.
- tradekit's `indicators.py`, `volume.py`, `patterns.py`, the data providers, `premarket.py`, `ranking.py`, `alerts.py`, `base.py` and `config.py` loading are not part of this model: they wrap libraries, do float numerics or do I/O. The defaults of `ScreenerSettings` are kept.
- Scoring's `score_dataframe` is not modelled: it maps the scores over a DataFrame with pandas.
- Backtest's `get_history` and `_fetch_day` are not modelled: they download and read flat files.
- Backtest.TradingDays: days are ordinal day numbers, so the time of day carried by the source's datetimes is not modelled.
- Backtest.S3KeyText: years are written in four digits, so `%Y` for years below 1000 is not modelled.
- Markdown's `save_report` is not modelled: it writes a file.
- Cache.DataCache.Clear: the exception a failed metadata save raises is not modelled; nor is the order in which keys are removed, which does not change the result. The per-key deletions run on copies of the metadata map and the file set, which are stored back once the loop ends.
- Cache.SlashSharesFile: two namespaces whose cache keys differ share one file name; the model shows this collision as the code behaves and does not correct it.
- Oracle.Verify: the whitelist is checked by prefix only and the SSRF guard looks only at the scheme; both are modelled as written and shown by Oracle.OnlyPrefixChecked and Oracle.OnlySchemeChecked.
- The click commands' console printing, click's choice handling and the Rich tables in `terminal.py` are not modelled; only the decisions they print are.
- Cache.DataCache.constructor: a `_meta.json` that is not JSON makes `__init__` raise; a Dafny constructor cannot fail, so the constructor requires a metadata file that loads and Cache.LoadMeta models the error.
- Json.Value: numbers are integers; serde_json's floating-point numbers are not modelled, since no part of the core reads a fractional number from a payload or a configuration.
- Markdown.RankedRowsNumbered: rows are numbered by their position, so a pandas index that is not 0, 1, 2, … is not modelled.
