/**
 * `TelosEngine`: where each TELOS file lives, and the deep context assembled
 * from the files of the requested categories. Which files exist, and what
 * reading each gives, is a parameter.
 */
module Telos {
  import opened Wrappers
  import opened Text
  import Paths
  import Sequences

  datatype TelosCategory =
    Mission | Beliefs | Goals | Projects | Models | Strategies | Narratives | Learned | Challenges | Ideas

  datatype TelosEngine = TelosEngine(root_dir: Paths.Path)

  /** The file name of a category. */
  function FileName(c: TelosCategory): (name: string)
    ensures |name| > 3 && name[|name| - 3..] == ".md"
  {
    match c
    case Mission => "MISSION.md"
    case Beliefs => "BELIEFS.md"
    case Goals => "GOALS.md"
    case Projects => "PROJECTS.md"
    case Models => "MODELS.md"
    case Strategies => "STRATEGIES.md"
    case Narratives => "NARRATIVES.md"
    case Learned => "LEARNED.md"
    case Challenges => "CHALLENGES.md"
    case Ideas => "IDEAS.md"
  }

  /** The ten categories have ten different files. */
  lemma FileNamesDistinct(a: TelosCategory, b: TelosCategory)
    ensures FileName(a) == FileName(b) <==> a == b
  {
    var x, y := FileName(a), FileName(b);
    if x == y {
      assert |x| == |y| && x[0] == y[0];
    }
  }

  /** `get_file_path`: root/skills/CORE/USER/TELOS/<file name>. */
  function GetFilePath(engine: TelosEngine, c: TelosCategory): (p: Paths.Path)
    ensures p == engine.root_dir + ["skills", "CORE", "USER", "TELOS", FileName(c)]
  {
    var dir := Paths.Join(Paths.Join(Paths.Join(Paths.Join(engine.root_dir, "skills"), "CORE"), "USER"), "TELOS");
    Paths.Join(dir, FileName(c))
  }

  /** Different categories never share a path. */
  lemma FilePathsDistinct(engine: TelosEngine, a: TelosCategory, b: TelosCategory)
    ensures GetFilePath(engine, a) == GetFilePath(engine, b) <==> a == b
  {
    var n := |engine.root_dir| + 4;
    if GetFilePath(engine, a) == GetFilePath(engine, b) {
      assert GetFilePath(engine, a)[n] == GetFilePath(engine, b)[n];
      FileNamesDistinct(a, b);
    }
  }

  const ContextHeader: string := "# DEEP CONTEXT (TELOS)\n\n"
  const Separator: string := "\n---\n\n"

  /**
   * The deep context of the categories, given what reading each existing file
   * gives (`files` holds exactly the files that exist): the header, then for
   * each category whose file exists its content and a separator, in order;
   * the first failed read is the error.
   */
  function DeepContext(engine: TelosEngine, categories: seq<TelosCategory>,
                       files: map<Paths.Path, Result<string, string>>): (r: Result<string, string>)
    ensures r.Ok? ==> StartsWith(r.value, ContextHeader)
    decreases |categories|
  {
    if categories == [] then
      assert ContextHeader[..|ContextHeader|] == ContextHeader;
      Ok(ContextHeader)
    else
      var front := DeepContext(engine, categories[..|categories| - 1], files);
      var path := GetFilePath(engine, categories[|categories| - 1]);
      if front.Err? then front
      else if path !in files then front
      else match files[path]
        case Err(e) => Err(e)
        case Ok(content) =>
          var s := front.value + content + Separator;
          assert s[..|ContextHeader|] == front.value[..|ContextHeader|];
          Ok(s)
  }

  /** Every requested file that exists was read successfully. */
  predicate AllReadable(engine: TelosEngine, categories: seq<TelosCategory>,
                        files: map<Paths.Path, Result<string, string>>) {
    forall k | 0 <= k < |categories| :: Readable(engine, categories[k], files)
  }

  /** The category's file is missing or was read successfully. */
  predicate Readable(engine: TelosEngine, c: TelosCategory, files: map<Paths.Path, Result<string, string>>) {
    GetFilePath(engine, c) in files ==> files[GetFilePath(engine, c)].Ok?
  }

  /** The context is built iff no requested file that exists failed to read. */
  lemma {:induction false} DeepContextOk(engine: TelosEngine, categories: seq<TelosCategory>,
                                         files: map<Paths.Path, Result<string, string>>)
    ensures DeepContext(engine, categories, files).Ok? <==> AllReadable(engine, categories, files)
    decreases |categories|
  {
    if categories != [] {
      var n := |categories| - 1;
      DeepContextOk(engine, categories[..n], files);
      AllReadableSnoc(engine, categories, files);
    }
  }

  /** The requested files are readable iff those of all but the last are and the last one is. */
  lemma AllReadableSnoc(engine: TelosEngine, categories: seq<TelosCategory>,
                        files: map<Paths.Path, Result<string, string>>)
    requires categories != []
    ensures AllReadable(engine, categories, files) <==>
      AllReadable(engine, categories[..|categories| - 1], files) && Readable(engine, categories[|categories| - 1], files)
  {
    Sequences.AllSnoc(categories, categories[..|categories| - 1], c => Readable(engine, c, files));
  }

  /** A category whose file does not exist adds nothing. */
  lemma MissingSkipped(engine: TelosEngine, categories: seq<TelosCategory>, c: TelosCategory,
                       files: map<Paths.Path, Result<string, string>>)
    requires GetFilePath(engine, c) !in files
    ensures DeepContext(engine, categories + [c], files) == DeepContext(engine, categories, files)
  {
    assert (categories + [c])[..|categories|] == categories;
  }

  /** The content of every requested file that was read appears in the context. */
  lemma {:induction false} ContextHoldsContent(engine: TelosEngine, categories: seq<TelosCategory>,
                                               files: map<Paths.Path, Result<string, string>>, k: nat)
    requires k < |categories| && DeepContext(engine, categories, files).Ok?
    requires GetFilePath(engine, categories[k]) in files
    ensures files[GetFilePath(engine, categories[k])].Ok?
    ensures Contains(DeepContext(engine, categories, files).value, files[GetFilePath(engine, categories[k])].value)
    decreases |categories|
  {
    var n := |categories| - 1;
    var front := DeepContext(engine, categories[..n], files);
    var whole := DeepContext(engine, categories, files).value;
    if k == n {
      var content := files[GetFilePath(engine, categories[n])].value;
      ContainsInMiddle(front.value, content, Separator);
    } else {
      assert categories[..n][k] == categories[k];
      ContextHoldsContent(engine, categories[..n], files, k);
      var p := files[GetFilePath(engine, categories[k])].value;
      var i :| 0 <= i <= |front.value| - |p| && OccursAt(front.value, p, i);
      assert whole[..|front.value|] == front.value;
      assert whole[i..i + |p|] == front.value[i..i + |p|];
      ContainsWitness(whole, p, i);
    }
  }

  /**
   * `load_deep_context`: starts from the header and, for each category in
   * order whose file exists, reads it and appends its content and a
   * separator; a failed read is returned at once.
   */
  method LoadDeepContext(engine: TelosEngine, categories: seq<TelosCategory>,
                         files: map<Paths.Path, Result<string, string>>) returns (r: Result<string, string>)
    ensures r == DeepContext(engine, categories, files)
  {
    var context := ContextHeader;
    var i := 0;
    while i < |categories|
      invariant 0 <= i <= |categories|
      invariant DeepContext(engine, categories[..i], files) == Ok(context)
    {
      DeepContextStep(engine, categories, files, i);
      var path := GetFilePath(engine, categories[i]);
      if path in files {
        match files[path] {
          case Err(e) =>
            FirstErrorSticks(engine, categories, files, i + 1);
            return Err(e);
          case Ok(content) =>
            context := context + content;
            context := context + Separator;
        }
      }
      i := i + 1;
    }
    assert categories[..i] == categories;
    return Ok(context);
  }

  /** The context of one more category, from the context of the ones before it. */
  lemma DeepContextStep(engine: TelosEngine, categories: seq<TelosCategory>,
                        files: map<Paths.Path, Result<string, string>>, i: nat)
    requires i < |categories|
    ensures var front, path := DeepContext(engine, categories[..i], files), GetFilePath(engine, categories[i]);
      DeepContext(engine, categories[..i + 1], files) ==
        if front.Err? || path !in files then front
        else if files[path].Err? then Err(files[path].error)
        else Ok(front.value + files[path].value + Separator)
  {
    assert categories[..i + 1][..i] == categories[..i];
  }

  /** Once a prefix of the categories fails, the whole request fails with the same error. */
  lemma {:induction false} FirstErrorSticks(engine: TelosEngine, categories: seq<TelosCategory>,
                                            files: map<Paths.Path, Result<string, string>>, j: nat)
    requires j <= |categories| && DeepContext(engine, categories[..j], files).Err?
    ensures DeepContext(engine, categories, files) == DeepContext(engine, categories[..j], files)
    decreases |categories| - j
  {
    if j < |categories| {
      assert categories[..j + 1][..j] == categories[..j];
      FirstErrorSticks(engine, categories, files, j + 1);
    } else {
      assert categories[..j] == categories;
    }
  }

  /** With only MISSION.md present, the context of the mission is the header, its text and a separator. */
  lemma MissionContext(engine: TelosEngine, mission: string)
    ensures DeepContext(engine, [Mission], map[GetFilePath(engine, Mission) := Ok(mission)]) ==
            Ok(ContextHeader + mission + Separator)
  {
    assert [Mission][..0] == [];
  }
}
