/**
 * `AgentFactory`: composes an agent prompt from an expertise, a personality
 * and an approach looked up in a trait registry. Loading the registry from
 * YAML is not modelled: the registry is a value.
 */
module Agents {
  import opened Wrappers
  import opened Text
  import Sequences

  datatype Trait = Trait(name: string, description: string, prompt_fragment: Option<string>, keywords: Option<seq<string>>)

  datatype AgentRegistry = AgentRegistry(
    expertise: map<string, Trait>,
    personality: map<string, Trait>,
    approach: map<string, Trait>)

  /** `AgentRegistry::default()`: no traits at all. */
  const EmptyRegistry := AgentRegistry(map[], map[], map[])

  /** `get_expertise`, `get_personality`, `get_approach`: a lookup by key. */
  function Lookup(traits: map<string, Trait>, key: string): (r: Option<Trait>)
    ensures r.Some? <==> key in traits
    ensures r.Some? ==> r.value == traits[key]
  {
    if key in traits then Some(traits[key]) else None
  }

  /** The first line of a composed prompt, followed by a blank line. */
  function Heading(exp: Trait, pers: Trait, app: Trait): string {
    "# Composed Agent: " + exp.name + " " + pers.name + " " + app.name + "\n\n"
  }

  /** A titled section: its header line, its text and a blank line. */
  function Section(title: string, body: string): (s: string)
    ensures StartsWith(s, "## " + title + "\n")
  {
    var s := "## " + title + "\n" + body + "\n\n";
    assert s[..|"## " + title + "\n"|] == "## " + title + "\n";
    s
  }

  /**
   * The sections of the prompt, as (title, text) pairs: the identity, then the
   * personality and the approach when they carry a prompt fragment.
   */
  function Layout(exp: Trait, pers: Trait, app: Trait): seq<(string, string)> {
    [("Identity", exp.description)] +
    (if pers.prompt_fragment.Some? then [("Personality", pers.prompt_fragment.value)] else []) +
    (if app.prompt_fragment.Some? then [("Approach", app.prompt_fragment.value)] else [])
  }

  /** The sections rendered one after the other. */
  function Render(sections: seq<(string, string)>): string {
    if sections == [] then "" else Render(sections[..|sections| - 1]) + Section(sections[|sections| - 1].0, sections[|sections| - 1].1)
  }

  /** The composed prompt: the heading, then the rendered sections. */
  function Prompt(exp: Trait, pers: Trait, app: Trait): string {
    Heading(exp, pers, app) + Render(Layout(exp, pers, app))
  }

  /**
   * What `compose_agent` returns: an error naming the first unknown key, the
   * expertise checked before the personality and the personality before the
   * approach, or else the prompt.
   */
  function Compose(registry: AgentRegistry, expertise: string, personality: string, approach: string): (r: Result<string, string>)
    ensures expertise !in registry.expertise ==> r == Err("Unknown expertise: " + expertise)
    ensures expertise in registry.expertise && personality !in registry.personality ==> r == Err("Unknown personality: " + personality)
    ensures expertise in registry.expertise && personality in registry.personality && approach !in registry.approach ==>
      r == Err("Unknown approach: " + approach)
    ensures r.Ok? <==> expertise in registry.expertise && personality in registry.personality && approach in registry.approach
    ensures r.Ok? ==>
      r.value == Prompt(registry.expertise[expertise], registry.personality[personality], registry.approach[approach])
  {
    match Lookup(registry.expertise, expertise)
    case None => Err("Unknown expertise: " + expertise)
    case Some(exp) =>
      match Lookup(registry.personality, personality)
      case None => Err("Unknown personality: " + personality)
      case Some(pers) =>
        match Lookup(registry.approach, approach)
        case None => Err("Unknown approach: " + approach)
        case Some(app) => Ok(Prompt(exp, pers, app))
  }

  /** The titles of the sections, in order. */
  function Titles(sections: seq<(string, string)>): (ts: seq<string>)
    ensures |ts| == |sections| && forall k | 0 <= k < |sections| :: ts[k] == sections[k].0
  {
    if sections == [] then [] else [sections[0].0] + Titles(sections[1..])
  }

  /**
   * The identity always comes first; a personality section is present iff the
   * personality has a fragment, an approach section iff the approach has one,
   * and they appear in the order Identity, Personality, Approach.
   */
  lemma LayoutOrder(exp: Trait, pers: Trait, app: Trait)
    ensures var l := Layout(exp, pers, app);
      Titles(l) == ["Identity"] + (if pers.prompt_fragment.Some? then ["Personality"] else []) +
                   (if app.prompt_fragment.Some? then ["Approach"] else []) &&
      l[0] == ("Identity", exp.description) &&
      ("Personality" in Titles(l) <==> pers.prompt_fragment.Some?) &&
      ("Approach" in Titles(l) <==> app.prompt_fragment.Some?) &&
      (pers.prompt_fragment.Some? ==> l[1] == ("Personality", pers.prompt_fragment.value)) &&
      (app.prompt_fragment.Some? ==> l[|l| - 1] == ("Approach", app.prompt_fragment.value))
  {
    var l := Layout(exp, pers, app);
    var ts := ["Identity"] + (if pers.prompt_fragment.Some? then ["Personality"] else []) +
              (if app.prompt_fragment.Some? then ["Approach"] else []);
    assert Titles(l) == ts;
    assert "Identity"[0] != "Personality"[0] && "Identity"[0] != "Approach"[0] && "Personality"[0] != "Approach"[0];
  }

  /** The text of every section is contained in the rendering. */
  lemma {:induction false} RenderContains(sections: seq<(string, string)>, k: nat)
    requires k < |sections|
    ensures Contains(Render(sections), sections[k].1)
  {
    var n := |sections| - 1;
    var front := Render(sections[..n]);
    var last := Section(sections[n].0, sections[n].1);
    assert Render(sections) == front + last;
    if k == n {
      SectionContains(sections[n].0, sections[n].1);
      ContainsAfter(front, last, sections[n].1);
    } else {
      assert sections[..n][k] == sections[k];
      RenderContains(sections[..n], k);
      ContainsBefore(front, last, sections[k].1);
    }
  }

  /** A section holds its body. */
  lemma SectionContains(title: string, body: string)
    ensures Contains(Section(title, body), body)
  {
    ContainsInMiddle("## " + title + "\n", body, "\n\n");
  }

  /** The prompt holds the expertise description and every fragment present. */
  lemma PromptContainsTraits(exp: Trait, pers: Trait, app: Trait)
    ensures Contains(Prompt(exp, pers, app), exp.description)
    ensures pers.prompt_fragment.Some? ==> Contains(Prompt(exp, pers, app), pers.prompt_fragment.value)
    ensures app.prompt_fragment.Some? ==> Contains(Prompt(exp, pers, app), app.prompt_fragment.value)
  {
    var h, l := Heading(exp, pers, app), Layout(exp, pers, app);
    LayoutOrder(exp, pers, app);
    RenderContains(l, 0);
    ContainsAfter(h, Render(l), exp.description);
    if pers.prompt_fragment.Some? {
      RenderContains(l, 1);
      ContainsAfter(h, Render(l), pers.prompt_fragment.value);
    }
    if app.prompt_fragment.Some? {
      RenderContains(l, |l| - 1);
      ContainsAfter(h, Render(l), app.prompt_fragment.value);
    }
  }

  /** Rendering two lists of sections one after the other is rendering their concatenation. */
  lemma {:induction false} RenderAppend(a: seq<(string, string)>, b: seq<(string, string)>)
    ensures Render(a + b) == Render(a) + Render(b)
    decreases |b|
  {
    if b == [] {
      assert a + b == a;
    } else {
      var n := |b| - 1;
      assert (a + b)[..|a + b| - 1] == a + b[..n];
      RenderAppend(a, b[..n]);
    }
  }

  /** The prompt opens with the heading naming the three traits, then the identity section. */
  lemma PromptOpening(exp: Trait, pers: Trait, app: Trait)
    ensures StartsWith(Prompt(exp, pers, app), Heading(exp, pers, app) + Section("Identity", exp.description))
  {
    var l := Layout(exp, pers, app);
    var first := ("Identity", exp.description);
    assert l[0] == first;
    Sequences.HeadTail(l);
    RenderOne(first);
    RenderAppend([first], l[1..]);
    Sequences.AppendAssoc(Heading(exp, pers, app), Section(first.0, first.1), Render(l[1..]));
    StartsWithAppend(Heading(exp, pers, app) + Section(first.0, first.1), Render(l[1..]));
  }

  /** One section renders as that section. */
  lemma RenderOne(section: (string, string))
    ensures Render([section]) == Section(section.0, section.1)
  {
    assert [section][..0] == [];
  }

  /** Rendering one more section appends that section to whatever preceded the rendering. */
  lemma RenderSnoc(prompt: string, heading: string, sections: seq<(string, string)>, title: string, body: string)
    requires prompt == heading + Render(sections)
    ensures prompt + Section(title, body) == heading + Render(sections + [(title, body)])
  {
    assert (sections + [(title, body)])[..|sections|] == sections;
  }

  /** Appends a section the way `compose_agent` does, with three pushes. */
  method PushSection(prompt: string, title: string, body: string) returns (r: string)
    ensures r == prompt + Section(title, body)
  {
    r := prompt + "## " + title + "\n";
    r := r + body;
    r := r + "\n\n";
  }

  /** `compose_agent`: looks the three traits up, then pushes the heading and each section present, in order. */
  method ComposeAgent(registry: AgentRegistry, expertise: string, personality: string, approach: string)
    returns (r: Result<string, string>)
    ensures r == Compose(registry, expertise, personality, approach)
  {
    var exp := Lookup(registry.expertise, expertise);
    if exp.None? { return Err("Unknown expertise: " + expertise); }
    var pers := Lookup(registry.personality, personality);
    if pers.None? { return Err("Unknown personality: " + personality); }
    var app := Lookup(registry.approach, approach);
    if app.None? { return Err("Unknown approach: " + approach); }
    var prompt := BuildPrompt(exp.value, pers.value, app.value);
    return Ok(prompt);
  }

  /** The string building of `compose_agent`. */
  method BuildPrompt(exp: Trait, pers: Trait, app: Trait) returns (prompt: string)
    ensures prompt == Prompt(exp, pers, app)
  {
    var heading := "# Composed Agent: " + exp.name + " " + pers.name + " " + app.name + "\n\n";
    ghost var sections: seq<(string, string)> := [];
    prompt := heading;
    RenderSnoc(prompt, heading, sections, "Identity", exp.description);
    prompt := PushSection(prompt, "Identity", exp.description);
    sections := sections + [("Identity", exp.description)];
    if pers.prompt_fragment.Some? {
      RenderSnoc(prompt, heading, sections, "Personality", pers.prompt_fragment.value);
      prompt := PushSection(prompt, "Personality", pers.prompt_fragment.value);
      sections := sections + [("Personality", pers.prompt_fragment.value)];
    }
    if app.prompt_fragment.Some? {
      RenderSnoc(prompt, heading, sections, "Approach", app.prompt_fragment.value);
      prompt := PushSection(prompt, "Approach", app.prompt_fragment.value);
      sections := sections + [("Approach", app.prompt_fragment.value)];
    }
    assert sections == Layout(exp, pers, app);
  }

  /** `verifier_mode`: the technical, skeptical, adversarial agent. */
  method VerifierMode(registry: AgentRegistry) returns (r: Result<string, string>)
    ensures r == Compose(registry, "technical", "skeptical", "adversarial")
  {
    r := ComposeAgent(registry, "technical", "skeptical", "adversarial");
  }

  /** The default registry knows no expertise, so every composition fails on the expertise first. */
  lemma EmptyRegistryRejects(expertise: string, personality: string, approach: string)
    ensures Compose(EmptyRegistry, expertise, personality, approach) == Err("Unknown expertise: " + expertise)
  {
  }

  /** The tech, bold, fast composition holds the expertise description and both fragments. */
  lemma TechBoldFast(registry: AgentRegistry)
    requires registry.expertise == map["tech" := Trait("Tech", "Tech expert", None, None)]
    requires registry.personality == map["bold" := Trait("Bold", "Bold personality", Some("Be bold."), None)]
    requires registry.approach == map["fast" := Trait("Fast", "Fast approach", Some("Move fast."), None)]
    ensures var r := Compose(registry, "tech", "bold", "fast");
      r.Ok? && Contains(r.value, "Tech expert") && Contains(r.value, "Be bold.") && Contains(r.value, "Move fast.")
  {
    PromptContainsTraits(registry.expertise["tech"], registry.personality["bold"], registry.approach["fast"]);
  }
}
