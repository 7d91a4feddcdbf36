/**
 * `SwarmAggregator::steelman`: every agent's answer under its own numbered
 * heading. The scores are `f32` values that `steelman` does not read.
 */
module Swarm {
  import opened Text

  datatype AgentResponse = AgentResponse(answer: string, quality_score: real, risk_score: real)

  const SynthesisHeader: string := "# Swarm Synthesis (Steelmanned)\n\n"

  /** The block of the response at 0-based position `i`, numbered from 1. */
  function Perspective(i: nat, answer: string): (block: string)
    ensures StartsWith(block, "### Perspective ")
    ensures OccursAt(block, NatToString(i + 1), 16)
    ensures OccursAt(block, answer, 17 + |NatToString(i + 1)|)
  {
    var block := "### Perspective " + NatToString(i + 1) + "\n" + answer + "\n\n";
    assert block[..16] == "### Perspective ";
    assert block[16..16 + |NatToString(i + 1)|] == NatToString(i + 1);
    block
  }

  /** The blocks of the responses, in order. */
  function Perspectives(responses: seq<AgentResponse>): (blocks: seq<string>)
    ensures |blocks| == |responses|
    ensures forall i | 0 <= i < |responses| :: blocks[i] == Perspective(i, responses[i].answer)
  {
    seq(|responses|, i requires 0 <= i < |responses| => Perspective(i, responses[i].answer))
  }

  /** What `steelman` returns: the header, then the blocks. */
  function Synthesis(responses: seq<AgentResponse>): string {
    SynthesisHeader + Concat(Perspectives(responses))
  }

  /** `steelman`: appends each response's block, numbered from 1, in order. */
  method Steelman(responses: seq<AgentResponse>) returns (aggregate: string)
    ensures aggregate == Synthesis(responses)
  {
    aggregate := SynthesisHeader;
    var i := 0;
    while i < |responses|
      invariant 0 <= i <= |responses|
      invariant aggregate == Synthesis(responses[..i])
    {
      SynthesisSnoc(responses, i);
      aggregate := PushPerspective(aggregate, i, responses[i].answer);
      i := i + 1;
    }
    assert responses[..i] == responses;
  }

  /** One more response adds its block at the end. */
  lemma PerspectivesSnoc(responses: seq<AgentResponse>, i: nat)
    requires i < |responses|
    ensures Concat(Perspectives(responses[..i + 1])) ==
            Concat(Perspectives(responses[..i])) + Perspective(i, responses[i].answer)
  {
    assert Perspectives(responses[..i + 1]) == Perspectives(responses[..i]) + [Perspective(i, responses[i].answer)];
    ConcatAppend(Perspectives(responses[..i]), Perspective(i, responses[i].answer));
  }

  /** One more response extends the synthesis by its block. */
  lemma SynthesisSnoc(responses: seq<AgentResponse>, i: nat)
    requires i < |responses|
    ensures Synthesis(responses[..i + 1]) == Synthesis(responses[..i]) + Perspective(i, responses[i].answer)
  {
    PerspectivesSnoc(responses, i);
    var c, p := Concat(Perspectives(responses[..i])), Perspective(i, responses[i].answer);
    assert SynthesisHeader + (c + p) == (SynthesisHeader + c) + p;
  }

  /** Appends one block the way `steelman`'s `format!` does. */
  method PushPerspective(aggregate: string, i: nat, answer: string) returns (r: string)
    ensures r == aggregate + Perspective(i, answer)
  {
    r := aggregate + "### Perspective " + NatToString(i + 1) + "\n" + answer + "\n\n";
  }

  /** No responses, just the header. */
  lemma EmptySwarm()
    ensures Synthesis([]) == SynthesisHeader
  {
  }

  /** The synthesis always opens with the header. */
  lemma SynthesisStartsWithHeader(responses: seq<AgentResponse>)
    ensures StartsWith(Synthesis(responses), SynthesisHeader)
  {
    var s := Synthesis(responses);
    assert s[..|SynthesisHeader|] == SynthesisHeader;
  }

  /** Every answer, and the number of its perspective, appear in the synthesis. */
  lemma SynthesisHoldsAnswers(responses: seq<AgentResponse>, i: nat)
    requires i < |responses|
    ensures Contains(Synthesis(responses), responses[i].answer)
    ensures Contains(Synthesis(responses), "### Perspective " + NatToString(i + 1))
  {
    var blocks := Perspectives(responses);
    var b := blocks[i];
    ContainsWitness(b, responses[i].answer, 17 + |NatToString(i + 1)|);
    ConcatContains(blocks, i, responses[i].answer);
    assert b[..16 + |NatToString(i + 1)|] == "### Perspective " + NatToString(i + 1);
    ContainsWitness(b, "### Perspective " + NatToString(i + 1), 0);
    ConcatContains(blocks, i, "### Perspective " + NatToString(i + 1));
    ContainsAfter(SynthesisHeader, Concat(blocks), responses[i].answer);
    ContainsAfter(SynthesisHeader, Concat(blocks), "### Perspective " + NatToString(i + 1));
  }
}
