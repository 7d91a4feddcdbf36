/**
 * `PAIIdentity` and `ResponseFormatter::format_response`: the structured
 * reply, one line per part, with the assistant's name on the voice line.
 */
module Identity {
  import opened Wrappers
  import opened Text

  datatype PAIIdentity = PAIIdentity(name: string, display_name: string, role: string, color: string, voice_id: Option<string>)

  /** `PAIIdentity::default()`. */
  const DefaultIdentity := PAIIdentity("PAI", "PAI", "AI Assistant", "#3B82F6", None)

  datatype ResponseFormatter = ResponseFormatter(identity: PAIIdentity)

  const SummaryLabel: string := "\U{1F4CB} SUMMARY: "
  const AnalysisLabel: string := "\U{1F50D} ANALYSIS: "
  const ActionsHeader: string := "\U{26A1} ACTIONS:\n"
  const ResultsLabel: string := "\U{2705} RESULTS: "
  const VoiceMark: string := "\U{1F5E3}\U{FE0F} "

  function ActionLine(action: string): string {
    "  - " + action + "\n"
  }

  function VoiceLine(name: string, voice_msg: string): string {
    VoiceMark + name + ": " + voice_msg + "\n"
  }

  /** One line per action, in input order. */
  function ActionLines(actions: seq<string>): (lines: seq<string>)
    ensures |lines| == |actions| && forall k | 0 <= k < |actions| :: lines[k] == ActionLine(actions[k])
  {
    seq(|actions|, k requires 0 <= k < |actions| => ActionLine(actions[k]))
  }

  function Opening(summary: string, analysis: string): seq<string> {
    [SummaryLabel + summary + "\n", AnalysisLabel + analysis + "\n", ActionsHeader]
  }

  /**
   * The lines of a response, in order: summary, analysis, the actions header,
   * one line per action in input order, results, and the voice line.
   */
  function ResponseLines(identity: PAIIdentity, summary: string, analysis: string, actions: seq<string>,
                         results: string, voice_msg: string): (lines: seq<string>)
    ensures |lines| == |actions| + 5
    ensures lines[0] == SummaryLabel + summary + "\n" && lines[1] == AnalysisLabel + analysis + "\n"
    ensures lines[2] == ActionsHeader
    ensures forall k | 0 <= k < |actions| :: lines[3 + k] == ActionLine(actions[k])
    ensures lines[|actions| + 3] == ResultsLabel + results + "\n"
    ensures lines[|actions| + 4] == VoiceLine(identity.name, voice_msg)
  {
    Opening(summary, analysis) + ActionLines(actions) + [ResultsLabel + results + "\n", VoiceLine(identity.name, voice_msg)]
  }

  /** What `format_response` returns: its lines one after the other. */
  function Response(identity: PAIIdentity, summary: string, analysis: string, actions: seq<string>,
                    results: string, voice_msg: string): string {
    Concat(ResponseLines(identity, summary, analysis, actions, results, voice_msg))
  }

  lemma OpeningConcat(summary: string, analysis: string)
    ensures Concat(Opening(summary, analysis)) == SummaryLabel + summary + "\n" + (AnalysisLabel + analysis + "\n") + ActionsHeader
  {
    var o := Opening(summary, analysis);
    ConcatAppend([], o[0]);
    ConcatAppend([o[0]], o[1]);
    ConcatAppend([o[0], o[1]], o[2]);
    assert [o[0]] == [] + [o[0]] && [o[0], o[1]] == [o[0]] + [o[1]] && o == [o[0], o[1]] + [o[2]];
  }

  /** The opening lines and the lines of the given actions. */
  function Partial(summary: string, analysis: string, actions: seq<string>): string {
    Concat(Opening(summary, analysis) + ActionLines(actions))
  }

  lemma PartialSnoc(summary: string, analysis: string, actions: seq<string>, action: string)
    ensures Partial(summary, analysis, actions + [action]) == Partial(summary, analysis, actions) + ActionLine(action)
  {
    var front := Opening(summary, analysis) + ActionLines(actions);
    assert Opening(summary, analysis) + ActionLines(actions + [action]) == front + [ActionLine(action)];
    ConcatAppend(front, ActionLine(action));
  }

  lemma PartialClose(identity: PAIIdentity, summary: string, analysis: string, actions: seq<string>,
                     results: string, voice_msg: string)
    ensures Response(identity, summary, analysis, actions, results, voice_msg) ==
            Partial(summary, analysis, actions) + (ResultsLabel + results + "\n") + VoiceLine(identity.name, voice_msg)
  {
    var front := Opening(summary, analysis) + ActionLines(actions);
    var lines := ResponseLines(identity, summary, analysis, actions, results, voice_msg);
    assert lines == front + [ResultsLabel + results + "\n"] + [VoiceLine(identity.name, voice_msg)];
    ConcatAppend(front, ResultsLabel + results + "\n");
    ConcatAppend(front + [ResultsLabel + results + "\n"], VoiceLine(identity.name, voice_msg));
  }

  /** `format_response`: pushes the lines one by one, looping over the actions. */
  method FormatResponse(formatter: ResponseFormatter, summary: string, analysis: string, actions: seq<string>,
                        results: string, voice_msg: string) returns (output: string)
    ensures output == Response(formatter.identity, summary, analysis, actions, results, voice_msg)
  {
    output := SummaryLabel + summary + "\n";
    output := output + (AnalysisLabel + analysis + "\n");
    output := output + ActionsHeader;
    OpeningConcat(summary, analysis);
    assert Opening(summary, analysis) + ActionLines([]) == Opening(summary, analysis);
    var i := 0;
    while i < |actions|
      invariant 0 <= i <= |actions|
      invariant output == Partial(summary, analysis, actions[..i])
    {
      PartialSnoc(summary, analysis, actions[..i], actions[i]);
      assert actions[..i] + [actions[i]] == actions[..i + 1];
      output := output + ("  - " + actions[i] + "\n");
      i := i + 1;
    }
    assert actions[..i] == actions;
    output := output + (ResultsLabel + results + "\n");
    output := output + (VoiceMark + formatter.identity.name + ": " + voice_msg + "\n");
    PartialClose(formatter.identity, summary, analysis, actions, results, voice_msg);
  }

  /** The default identity is called "PAI". */
  lemma DefaultName()
    ensures DefaultIdentity.name == "PAI" && DefaultIdentity.voice_id.None?
  {
  }

  /** Only the identity's name reaches the response: display name, role, colour and voice are never shown. */
  lemma VoiceUsesName(a: PAIIdentity, b: PAIIdentity, summary: string, analysis: string, actions: seq<string>,
                      results: string, voice_msg: string)
    requires a.name == b.name
    ensures Response(a, summary, analysis, actions, results, voice_msg) == Response(b, summary, analysis, actions, results, voice_msg)
  {
  }

  /** With no actions, the actions header is followed directly by the results line. */
  lemma NoActions(identity: PAIIdentity, summary: string, analysis: string, results: string, voice_msg: string)
    ensures Contains(Response(identity, summary, analysis, [], results, voice_msg), ActionsHeader + ResultsLabel + results + "\n")
  {
    PartialClose(identity, summary, analysis, [], results, voice_msg);
    var p := Partial(summary, analysis, []);
    assert Opening(summary, analysis) + ActionLines([]) == Opening(summary, analysis);
    OpeningConcat(summary, analysis);
    assert p == SummaryLabel + summary + "\n" + (AnalysisLabel + analysis + "\n") + ActionsHeader;
    ContainsInMiddle(SummaryLabel + summary + "\n" + (AnalysisLabel + analysis + "\n"), ActionsHeader + ResultsLabel + results + "\n",
                     VoiceLine(identity.name, voice_msg));
    assert p + (ResultsLabel + results + "\n") + VoiceLine(identity.name, voice_msg) ==
           SummaryLabel + summary + "\n" + (AnalysisLabel + analysis + "\n") + (ActionsHeader + ResultsLabel + results + "\n") +
           VoiceLine(identity.name, voice_msg);
  }

  /** Every part of the reply appears on its labelled line, the voice line under the identity's name. */
  lemma ResponseHoldsParts(identity: PAIIdentity, summary: string, analysis: string, actions: seq<string>,
                           results: string, voice_msg: string, k: nat)
    requires k < |actions|
    ensures var r := Response(identity, summary, analysis, actions, results, voice_msg);
      Contains(r, SummaryLabel + summary) && Contains(r, AnalysisLabel + analysis) && Contains(r, ActionsHeader) &&
      Contains(r, ActionLine(actions[k])) && Contains(r, ResultsLabel + results) &&
      Contains(r, VoiceMark + identity.name + ": " + voice_msg)
  {
    var lines := ResponseLines(identity, summary, analysis, actions, results, voice_msg);
    LineHolds(lines[0], SummaryLabel + summary, "\n");
    ConcatContains(lines, 0, SummaryLabel + summary);
    LineHolds(lines[1], AnalysisLabel + analysis, "\n");
    ConcatContains(lines, 1, AnalysisLabel + analysis);
    LineHolds(lines[2], ActionsHeader, "");
    ConcatContains(lines, 2, ActionsHeader);
    LineHolds(lines[3 + k], ActionLine(actions[k]), "");
    ConcatContains(lines, 3 + k, ActionLine(actions[k]));
    LineHolds(lines[|actions| + 3], ResultsLabel + results, "\n");
    ConcatContains(lines, |actions| + 3, ResultsLabel + results);
    LineHolds(lines[|actions| + 4], VoiceMark + identity.name + ": " + voice_msg, "\n");
    ConcatContains(lines, |actions| + 4, VoiceMark + identity.name + ": " + voice_msg);
  }

  lemma LineHolds(line: string, p: string, rest: string)
    requires line == p + rest
    ensures Contains(line, p)
  {
    assert line[..|p|] == p;
    ContainsWitness(line, p, 0);
  }
}
