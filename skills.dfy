/**
 * `SkillRegistry`: skills found in a directory, keyed by their lowercased
 * name, with the trigger phrases their SKILL.md lists after "USE WHEN", and
 * the search that matches a query against names and triggers. Walking the
 * directory and reading files are not modelled: the directory's entries, and
 * what each holds, are parameters.
 */
module Skills {
  import opened Wrappers
  import opened Text
  import Paths
  import Sequences

  datatype SkillMetadata = SkillMetadata(
    name: string,
    description: string,
    path: Paths.Path,
    triggers: seq<string>,
    customized: bool)

  // ---------------------------------------------------------------- triggers

  const UseWhen: string := "USE WHEN"

  /** End of the longest run of characters other than '.' starting at `i`. */
  function NonDotRunEnd(s: string, i: nat): (j: nat)
    requires i <= |s|
    ensures i <= j <= |s|
    ensures forall t | i <= t < j :: s[t] != '.'
    ensures j == |s| || s[j] == '.'
    decreases |s| - i
  {
    if i < |s| && s[i] != '.' then NonDotRunEnd(s, i + 1) else i
  }

  predicate AllSpaces(s: string, lo: int, hi: int)
    requires 0 <= lo <= hi <= |s|
  {
    forall t | lo <= t < hi :: IsSpace(s[t])
  }

  predicate NoDots(s: string, lo: int, hi: int)
    requires 0 <= lo <= hi <= |s|
  {
    forall t | lo <= t < hi :: s[t] != '.'
  }

  /**
   * What `USE WHEN\s+([^.]+)` asks of a match at `i` whose blanks end at `w`
   * and whose capture ends at `k`.
   */
  predicate SplitMatch(s: string, i: int, w: int, k: int) {
    OccursAt(s, UseWhen, i) && i + |UseWhen| < w < k <= |s| &&
    AllSpaces(s, i + |UseWhen|, w) && NoDots(s, w, k)
  }

  /**
   * The pattern matches at `i`: after "USE WHEN" comes a run of blanks, and
   * then either a character other than '.', or nothing, in which case the
   * run must hold two blanks so that `[^.]+` can take the last one.
   */
  predicate UseWhenAt(s: string, i: int) {
    OccursAt(s, UseWhen, i) &&
    var a := i + |UseWhen|;
    var e := SpaceRunEnd(s, a);
    e > a && ((e < |s| && s[e] != '.') || e >= a + 2)
  }

  lemma UseWhenAtIsPattern(s: string, i: int)
    ensures UseWhenAt(s, i) <==> exists w, k | i < w < k <= |s| :: SplitMatch(s, i, w, k)
  {
    if UseWhenAt(s, i) {
      var a := i + |UseWhen|;
      var e := SpaceRunEnd(s, a);
      if e < |s| && s[e] != '.' {
        assert SplitMatch(s, i, e, e + 1);
      } else {
        assert SplitMatch(s, i, e - 1, e);
      }
    }
    forall w, k | i < w < k <= |s| && SplitMatch(s, i, w, k)
      ensures UseWhenAt(s, i)
    {
      var a := i + |UseWhen|;
      var e := SpaceRunEnd(s, a);
      assert s[w] != '.';
    }
  }

  /** The leftmost match at or after `from`, as `Regex::captures` finds it. */
  function FindUseWhen(s: string, from: nat): (r: Option<nat>)
    requires from <= |s|
    ensures r.Some? ==> from <= r.value < |s| && UseWhenAt(s, r.value)
    ensures forall i | from <= i < (if r.Some? then r.value else |s|) :: !UseWhenAt(s, i)
    decreases |s| - from
  {
    if from == |s| then None
    else if UseWhenAt(s, from) then Some(from)
    else FindUseWhen(s, from + 1)
  }

  /**
   * The capture of a match at `i`: the greedy `\s+` takes the whole run of
   * blanks and `[^.]+` everything up to the next '.', unless nothing but a '.'
   * or the end follows the blanks, when `\s+` gives its last blank back.
   */
  function Capture(s: string, i: nat): (c: string)
    requires UseWhenAt(s, i)
    ensures |c| >= 1 && '.' !in c
  {
    var e := SpaceRunEnd(s, i + |UseWhen|);
    if e < |s| && s[e] != '.' then s[e..NonDotRunEnd(s, e)] else s[e - 1..e]
  }

  /** No string of the list holds `c`. */
  predicate Excludes(ts: seq<string>, c: char) {
    forall k | 0 <= k < |ts| :: c !in ts[k]
  }

  /** One piece trimmed and lowercased, or nothing when that leaves it empty. */
  function CleanOne(part: string): (ts: seq<string>)
    ensures |ts| <= 1 && IsClean(ts)
    ensures ',' !in part ==> Excludes(ts, ',')
  {
    var t := ToLower(Trim(part));
    LowerIsLower(Trim(part));
    TrimmedLowerEnds(part);
    TrimLowerKeepsOut(part, ',');
    if t == "" then [] else [t]
  }

  /** Each piece trimmed and lowercased, the empty ones dropped. */
  function Clean(parts: seq<string>): (ts: seq<string>)
    ensures |ts| <= |parts| && IsClean(ts)
    ensures Excludes(parts, ',') ==> Excludes(ts, ',')
  {
    if parts == [] then []
    else
      var head, rest := CleanOne(parts[0]), Clean(parts[1..]);
      CleanAppend(head, rest);
      assert Excludes(parts, ',') ==> ',' !in parts[0] && Excludes(parts[1..], ',') by {
        if Excludes(parts, ',') {
          forall k | 0 <= k < |parts[1..]| ensures ',' !in parts[1..][k] {
            assert parts[1..][k] == parts[k + 1];
          }
        }
      }
      head + rest
  }

  lemma CleanAppend(a: seq<string>, b: seq<string>)
    requires IsClean(a) && IsClean(b)
    ensures IsClean(a + b)
    ensures Excludes(a, ',') && Excludes(b, ',') ==> Excludes(a + b, ',')
  {
    forall k | 0 <= k < |a + b|
      ensures (a + b)[k] == (if k < |a| then a[k] else b[k - |a|])
    {
    }
  }

  lemma TrimmedLowerEnds(s: string)
    ensures var t := ToLower(Trim(s)); t == "" || (!IsSpace(t[0]) && !IsSpace(t[|t| - 1]))
  {
  }

  lemma TrimLowerKeepsOut(s: string, c: char)
    requires !('a' <= c <= 'z')
    ensures c !in s ==> c !in ToLower(Trim(s))
  {
  }

  /** A list of triggers that is already clean. */
  predicate IsClean(ts: seq<string>) {
    forall k | 0 <= k < |ts| :: ts[k] != "" && IsLower(ts[k]) && !IsSpace(ts[k][0]) && !IsSpace(ts[k][|ts[k]| - 1])
  }

  /** Cleaning is idempotent: a clean list comes back unchanged. */
  lemma {:induction false} CleanFixesClean(ts: seq<string>)
    requires IsClean(ts)
    ensures Clean(ts) == ts
  {
    if ts != [] {
      CleanOneFixes(ts[0]);
      CleanTail(ts);
      CleanFixesClean(ts[1..]);
      CleanCons(ts);
      Sequences.HeadTail(ts);
    }
  }

  lemma CleanTail(ts: seq<string>)
    requires ts != [] && IsClean(ts)
    ensures IsClean(ts[1..])
  {
    forall k | 0 <= k < |ts[1..]| ensures ts[1..][k] == ts[k + 1] { }
  }

  lemma CleanCons(parts: seq<string>)
    requires parts != []
    ensures Clean(parts) == CleanOne(parts[0]) + Clean(parts[1..])
  {
  }

  lemma CleanOneFixes(t: string)
    requires t != "" && IsLower(t) && !IsSpace(t[0]) && !IsSpace(t[|t| - 1])
    ensures CleanOne(t) == [t]
  {
    assert TrimStart(t) == t;
    assert TrimEnd(t) == t;
    LowerFixesLower(t);
  }

  /**
   * The triggers of a SKILL.md: the capture after the first "USE WHEN", split
   * on ',', each piece trimmed and lowercased, empty pieces dropped; none when
   * the pattern does not match.
   */
  function Triggers(content: string): (ts: seq<string>)
    ensures IsClean(ts) && Excludes(ts, ',')
    ensures !Contains(content, UseWhen) ==> ts == []
  {
    match FindUseWhen(content, 0)
    case None => []
    case Some(i) => Clean(Split(Capture(content, i), ','))
  }

  /** Trigger extraction is stable: cleaning the triggers again changes nothing. */
  lemma TriggersAreClean(content: string)
    ensures Clean(Triggers(content)) == Triggers(content)
  {
    CleanFixesClean(Triggers(content));
  }

  // ---------------------------------------------------------------- matching

  /**
   * `find_matching_skills` on one skill: its lowercased name contains the
   * lowercased query, or the lowercased query contains one of its triggers.
   */
  predicate SkillMatches(m: SkillMetadata, query: string) {
    var q := ToLower(query);
    Contains(ToLower(m.name), q) || exists k | 0 <= k < |m.triggers| :: Contains(q, m.triggers[k])
  }

  // ---------------------------------------------------------------- scanning

  /** What `SKILL.md` in an entry holds: nothing, an unreadable file, or its text. */
  datatype SkillFile = NoSkillFile | Unreadable(error: string) | SkillText(content: string)

  /** One entry of the skills directory: its file name, whether it is a directory, and its `SKILL.md`. */
  datatype DirEntry = DirEntry(name: string, is_dir: bool, skill_md: SkillFile)

  /** Where the scan stands: the skills so far, how many were inserted, and the error that stopped it. */
  datatype ScanState = ScanState(skills: map<string, SkillMetadata>, count: nat, error: Option<string>)

  /** `EXTEND.yaml` exists for this skill under the customization directory. */
  predicate Customized(custom_dir: Option<Paths.Path>, files: set<Paths.Path>, name: string) {
    custom_dir.Some? && Paths.Join(Paths.Join(custom_dir.value, name), "EXTEND.yaml") in files
  }

  /** The metadata a skill directory yields. */
  function MakeSkill(skills_dir: Paths.Path, custom_dir: Option<Paths.Path>, files: set<Paths.Path>,
                     name: string, content: string): (m: SkillMetadata)
    ensures m.name == name && m.path == skills_dir + [name, "SKILL.md"]
    ensures m.triggers == Triggers(content) && IsClean(m.triggers)
    ensures m.customized <==> Customized(custom_dir, files, name)
  {
    SkillMetadata(name, "Parsed from SKILL.md", Paths.Join(Paths.Join(skills_dir, name), "SKILL.md"),
                  Triggers(content), Customized(custom_dir, files, name))
  }

  /** One step of the scan: an entry error or an unreadable `SKILL.md` stops it, a skill directory is inserted. */
  function Step(st: ScanState, skills_dir: Paths.Path, custom_dir: Option<Paths.Path>, files: set<Paths.Path>,
                entry: Result<DirEntry, string>): ScanState
  {
    match entry
    case Err(e) => st.(error := Some(e))
    case Ok(d) =>
      if !d.is_dir then st
      else match d.skill_md
        case NoSkillFile => st
        case Unreadable(e) => st.(error := Some(e))
        case SkillText(content) =>
          st.(skills := st.skills[ToLower(d.name) := MakeSkill(skills_dir, custom_dir, files, d.name, content)],
              count := st.count + 1)
  }

  /** The scan of the remaining entries, from a state; it stops at the first error. */
  function Scan(st: ScanState, skills_dir: Paths.Path, custom_dir: Option<Paths.Path>, files: set<Paths.Path>,
                entries: seq<Result<DirEntry, string>>): (r: ScanState)
    decreases |entries|
  {
    if entries == [] || st.error.Some? then st
    else Scan(Step(st, skills_dir, custom_dir, files, entries[0]), skills_dir, custom_dir, files, entries[1..])
  }

  /** Every skill is stored under its lowercased name, with clean triggers. */
  predicate WellKeyed(skills: map<string, SkillMetadata>) {
    forall k | k in skills :: k == ToLower(skills[k].name) && IsClean(skills[k].triggers)
  }

  /** A skill directory whose `SKILL.md` was read. */
  predicate IsSkill(entry: Result<DirEntry, string>) {
    entry.Ok? && entry.value.is_dir && entry.value.skill_md.SkillText?
  }

  /** The scan keeps every skill keyed by its lowercased name. */
  lemma {:induction false} ScanWellKeyed(st: ScanState, skills_dir: Paths.Path, custom_dir: Option<Paths.Path>,
                                         files: set<Paths.Path>, entries: seq<Result<DirEntry, string>>)
    requires WellKeyed(st.skills)
    ensures WellKeyed(Scan(st, skills_dir, custom_dir, files, entries).skills)
    decreases |entries|
  {
    if entries != [] && st.error.None? {
      var next := Step(st, skills_dir, custom_dir, files, entries[0]);
      if IsSkill(entries[0]) {
        LowerFixesLower(ToLower(entries[0].value.name));
      }
      ScanWellKeyed(next, skills_dir, custom_dir, files, entries[1..]);
    }
  }

  /**
   * From `st` to `r` over `entries`: the count grows by at most one per
   * entry, no skill is lost, there are no more new skills than counted ones,
   * and each new skill is the lowercased name of a skill entry.
   */
  predicate Grown(st: ScanState, entries: seq<Result<DirEntry, string>>, r: ScanState) {
    st.count <= r.count <= st.count + |entries| &&
    st.skills.Keys <= r.skills.Keys &&
    |r.skills.Keys| <= |st.skills.Keys| + (r.count - st.count) &&
    (forall k | k in r.skills && k !in st.skills ::
       exists t | 0 <= t < |entries| :: IsSkill(entries[t]) && k == ToLower(entries[t].value.name))
  }

  /**
   * The count is the number of skill directories read before any error, the
   * keys only grow, each new key is the lowercased name of a skill directory,
   * and there are never more new keys than inserts: two directories whose
   * names differ only in case share one entry.
   */
  lemma {:induction false} ScanCounts(st: ScanState, skills_dir: Paths.Path, custom_dir: Option<Paths.Path>,
                                      files: set<Paths.Path>, entries: seq<Result<DirEntry, string>>)
    ensures Grown(st, entries, Scan(st, skills_dir, custom_dir, files, entries))
    decreases |entries|
  {
    if entries != [] && st.error.None? {
      var next := Step(st, skills_dir, custom_dir, files, entries[0]);
      StepGrown(st, skills_dir, custom_dir, files, entries[0]);
      ScanCounts(next, skills_dir, custom_dir, files, entries[1..]);
      GrownChain(st, entries, next, Scan(next, skills_dir, custom_dir, files, entries[1..]));
    }
  }

  /** One step grows the state by at most the entry it reads. */
  lemma StepGrown(st: ScanState, skills_dir: Paths.Path, custom_dir: Option<Paths.Path>,
                  files: set<Paths.Path>, entry: Result<DirEntry, string>)
    ensures Grown(st, [entry], Step(st, skills_dir, custom_dir, files, entry))
  {
    var next := Step(st, skills_dir, custom_dir, files, entry);
    if IsSkill(entry) {
      var key := ToLower(entry.value.name);
      assert next.skills.Keys == st.skills.Keys + {key};
      forall k | k in next.skills && k !in st.skills
        ensures exists t | 0 <= t < 1 :: IsSkill([entry][t]) && k == ToLower([entry][t].value.name)
      {
        assert [entry][0] == entry;
      }
    }
  }

  /** Growth over the first entry, then over the rest, is growth over all of them. */
  lemma GrownChain(st: ScanState, entries: seq<Result<DirEntry, string>>, next: ScanState, r: ScanState)
    requires entries != [] && Grown(st, [entries[0]], next) && Grown(next, entries[1..], r)
    ensures Grown(st, entries, r)
  {
    forall k | k in r.skills && k !in st.skills
      ensures exists t | 0 <= t < |entries| :: IsSkill(entries[t]) && k == ToLower(entries[t].value.name)
    {
      if k !in next.skills {
        var t :| 0 <= t < |entries[1..]| && IsSkill(entries[1..][t]) && k == ToLower(entries[1..][t].value.name);
        assert entries[t + 1] == entries[1..][t];
      } else {
        var t :| 0 <= t < 1 && IsSkill([entries[0]][t]) && k == ToLower([entries[0]][t].value.name);
        assert IsSkill(entries[0]) && k == ToLower(entries[0].value.name);
      }
    }
  }

  /** A scan that meets no error keeps every skill directory it was given. */
  lemma {:induction false} ScanKeepsSkills(st: ScanState, skills_dir: Paths.Path, custom_dir: Option<Paths.Path>,
                                           files: set<Paths.Path>, entries: seq<Result<DirEntry, string>>, t: nat)
    requires t < |entries| && IsSkill(entries[t])
    requires Scan(st, skills_dir, custom_dir, files, entries).error.None?
    ensures ToLower(entries[t].value.name) in Scan(st, skills_dir, custom_dir, files, entries).skills
    decreases |entries|
  {
    var next := Step(st, skills_dir, custom_dir, files, entries[0]);
    if t == 0 {
      ScanCounts(next, skills_dir, custom_dir, files, entries[1..]);
    } else {
      assert entries[1..][t - 1] == entries[t];
      ScanKeepsSkills(next, skills_dir, custom_dir, files, entries[1..], t - 1);
    }
  }

  /** The registry: skills keyed by lowercased name, and where customizations live. */
  class SkillRegistry {
    var skills: map<string, SkillMetadata>
    var custom_dir: Option<Paths.Path>

    /** Every skill sits under its lowercased name and has clean triggers. */
    predicate Valid()
      reads this
    {
      WellKeyed(skills)
    }

    /** `SkillRegistry::new`: no skills, no customization directory. */
    constructor ()
      ensures skills == map[] && custom_dir == None
      ensures Valid()
    {
      skills := map[];
      custom_dir := None;
    }

    /** `with_customization`: sets the customization directory and keeps the skills. */
    method WithCustomization(dir: Paths.Path)
      modifies this
      ensures custom_dir == Some(dir) && skills == old(skills)
    {
      custom_dir := Some(dir);
    }

    /**
     * `scan_directory`: a missing directory scans to 0; otherwise the listing
     * is walked and each skill directory is inserted under its lowercased name,
     * replacing any earlier entry with that key. An error from the listing,
     * from an entry or from reading a `SKILL.md` is returned, and the skills
     * inserted before it stay. `files` is the set of files that exist.
     */
    method ScanDirectory(skills_dir: Paths.Path, dir_exists: bool,
                         listing: Result<seq<Result<DirEntry, string>>, string>, files: set<Paths.Path>)
      returns (r: Result<nat, string>)
      modifies this
      ensures custom_dir == old(custom_dir)
      ensures !dir_exists ==> r == Ok(0) && skills == old(skills)
      ensures dir_exists && listing.Err? ==> r == Err(listing.error) && skills == old(skills)
      ensures dir_exists && listing.Ok? ==>
        var st := Scan(ScanState(old(skills), 0, None), skills_dir, custom_dir, files, listing.value);
        skills == st.skills && r == (if st.error.Some? then Err(st.error.value) else Ok(st.count))
    {
      if !dir_exists { return Ok(0); }
      if listing.Err? { return Err(listing.error); }
      var entries := listing.value;
      ghost var final := Scan(ScanState(skills, 0, None), skills_dir, custom_dir, files, entries);
      var count := 0;
      var i := 0;
      while i < |entries|
        invariant 0 <= i <= |entries|
        invariant custom_dir == old(custom_dir)
        invariant Scan(ScanState(skills, count, None), skills_dir, custom_dir, files, entries[i..]) == final
      {
        assert entries[i..][1..] == entries[i + 1..];
        assert Scan(ScanState(skills, count, None), skills_dir, custom_dir, files, entries[i..]) ==
               Scan(Step(ScanState(skills, count, None), skills_dir, custom_dir, files, entries[i]),
                    skills_dir, custom_dir, files, entries[i + 1..]);
        match entries[i] {
          case Err(e) =>
            return Err(e);
          case Ok(d) =>
            if d.is_dir {
              match d.skill_md {
                case NoSkillFile =>
                case Unreadable(e) =>
                  return Err(e);
                case SkillText(content) =>
                  var skill := ReadSkill(skills_dir, files, d.name, content);
                  skills := skills[ToLower(d.name) := skill];
                  count := count + 1;
              }
            }
        }
        i := i + 1;
      }
      assert entries[i..] == [];
      return Ok(count);
    }

    /** The metadata of one skill directory, with the customization check of `scan_directory`. */
    method ReadSkill(skills_dir: Paths.Path, files: set<Paths.Path>, name: string, content: string)
      returns (m: SkillMetadata)
      ensures m == MakeSkill(skills_dir, custom_dir, files, name, content)
    {
      var customized := false;
      if custom_dir.Some? {
        var custom_file := Paths.Join(Paths.Join(custom_dir.value, name), "EXTEND.yaml");
        if custom_file in files {
          customized := true;
        }
      }
      var triggers := Triggers(content);
      m := SkillMetadata(name, "Parsed from SKILL.md", Paths.Join(Paths.Join(skills_dir, name), "SKILL.md"),
                         triggers, customized);
    }

    /**
     * `find_matching_skills`: the registered skills whose lowercased name
     * contains the lowercased query, or one of whose triggers the lowercased
     * query contains. The registry is only read.
     */
    function FindMatchingSkills(query: string): (r: set<SkillMetadata>)
      reads this
      ensures r <= skills.Values
      ensures forall m | m in skills.Values :: m in r <==> SkillMatches(m, query)
    {
      set m | m in skills.Values && SkillMatches(m, query)
    }
  }

  /** An empty query matches every registered skill. */
  lemma EmptyQueryMatchesAll(registry: SkillRegistry)
    ensures registry.FindMatchingSkills("") == registry.skills.Values
  {
    forall m | m in registry.skills.Values
      ensures SkillMatches(m, "")
    {
      ContainsWitness(ToLower(m.name), "", 0);
    }
  }

  /** The query's case does not matter. */
  lemma QueryCaseIgnored(registry: SkillRegistry, query: string)
    ensures registry.FindMatchingSkills(query) == registry.FindMatchingSkills(ToLower(query))
  {
    LowerIsLower(query);
    LowerFixesLower(ToLower(query));
  }

  /** A query holding one of a registered skill's triggers, in any case, finds that skill. */
  lemma TriggerInQueryMatches(registry: SkillRegistry, key: string, j: nat, before: string, after: string)
    requires registry.Valid() && key in registry.skills && j < |registry.skills[key].triggers|
    ensures registry.skills[key] in registry.FindMatchingSkills(before + registry.skills[key].triggers[j] + after)
  {
    var m := registry.skills[key];
    var t := m.triggers[j];
    ToLowerAppend(before + t, after);
    ToLowerAppend(before, t);
    LowerFixesLower(t);
    ContainsInMiddle(ToLower(before), t, ToLower(after));
    assert SkillMatches(m, before + t + after);
  }

  /** A query contained in a registered skill's name, in any case, finds that skill. */
  lemma NamePartMatches(registry: SkillRegistry, key: string, query: string)
    requires key in registry.skills
    requires Contains(ToLower(registry.skills[key].name), ToLower(query))
    ensures registry.skills[key] in registry.FindMatchingSkills(query)
  {
  }
}
