/**
 * `ComplianceEngine::check_compliance`: two case-sensitive rules that compare
 * what was asked with what was produced.
 */
module Compliance {
  import opened Text

  // Each message is written as the text around the word it names, plus that word.
  const AgentFactoryViolation: string := "Violation: MUST run " + "AgentFactory" + " before spawning custom agents."
  const BackupViolation: string := "Violation: MUST verify " + "backup" + " existence before refactoring."

  /** A custom agent was asked for and the output never mentions `AgentFactory`. */
  predicate AgentRuleBroken(request: string, output: string) {
    Contains(request, "custom agent") && !Contains(output, "AgentFactory")
  }

  /** A refactoring was asked for and the output never mentions a backup. */
  predicate BackupRuleBroken(request: string, output: string) {
    Contains(request, "refactor") && !Contains(output, "backup")
  }

  /**
   * `check_compliance`: one message per broken rule, the agent rule's first.
   */
  method CheckCompliance(request: string, output: string) returns (violations: seq<string>)
    ensures |violations| == (if AgentRuleBroken(request, output) then 1 else 0) + (if BackupRuleBroken(request, output) then 1 else 0)
    ensures AgentFactoryViolation in violations <==> AgentRuleBroken(request, output)
    ensures BackupViolation in violations <==> BackupRuleBroken(request, output)
    ensures forall v | v in violations :: v == AgentFactoryViolation || v == BackupViolation
    ensures AgentRuleBroken(request, output) ==> violations[0] == AgentFactoryViolation
  {
    violations := [];
    if Contains(request, "custom agent") && !Contains(output, "AgentFactory") {
      violations := violations + [AgentFactoryViolation];
    }
    if Contains(request, "refactor") && !Contains(output, "backup") {
      violations := violations + [BackupViolation];
    }
    assert |AgentFactoryViolation| != |BackupViolation|;
  }

  /** The agent rule's message names `AgentFactory`. */
  lemma AgentMessageNamesFactory(message: string)
    requires message == AgentFactoryViolation
    ensures Contains(message, "AgentFactory")
  {
    ContainsInMiddle("Violation: MUST run ", "AgentFactory", " before spawning custom agents.");
  }

  /** The backup rule's message names the backup. */
  lemma BackupMessageNamesBackup(message: string)
    requires message == BackupViolation
    ensures Contains(message, "backup")
  {
    ContainsInMiddle("Violation: MUST verify ", "backup", " existence before refactoring.");
  }

  /** "refactor the auth module" answered without a backup breaks the backup rule. */
  lemma RefactorWithoutBackup(request: string, output: string)
    requires request == "refactor the auth module" && output == "I'm changing the code now."
    ensures BackupRuleBroken(request, output)
  {
    assert request[..8] == "refactor";
    ContainsWitness(request, "refactor", 0);
    NotContainedByChar(output, "backup", 0);
  }

  /** "create a custom agent" answered without `AgentFactory` breaks the agent rule. */
  lemma CustomAgentWithoutFactory(request: string, output: string)
    requires request == "create a custom agent" && output == "I'm spawning an agent now."
    ensures AgentRuleBroken(request, output)
  {
    assert request[9..21] == "custom agent";
    ContainsWitness(request, "custom agent", 9);
    NotContainedByChar(output, "AgentFactory", 0);
  }
}
