/**
 * `VerificationOracle::verify`: the guards it applies before touching the
 * outside world, and what it then reports. The file system, the HTTP client
 * and the shell are not modelled: what they would answer is a parameter.
 */
module Oracle {
  import opened Wrappers
  import opened Text

  datatype OracleType = FileExists | HttpSuccess | CommandExitCode | GrepMatch

  /** What the outside world answers for a target. */
  datatype World = World(
    exists_path: string -> bool,               // `Path::exists`
    http_ok: string -> Result<bool, string>,   // GET, then whether the status is a success
    shell_ok: string -> Result<bool, string>,  // `sh -c`, then whether it exited with success
    read: string -> Result<string, string>)    // `read_to_string`

  /** The five command prefixes `CommandExitCode` lets through. */
  const AllowedCommands: seq<string> := ["ls", "git status", "cargo test", "cargo check", "exit"]

  const HttpsScheme: string := "https://"
  const SsrfError: string := "SSRF Protection: Only external HTTPS allowed"
  const InjectionError: string := "Command Injection Protection: Command not in whitelist"
  const LeakError: string := "Data Leakage Protection: Access to sensitive file blocked"

  /** The target starts with one of the allowed commands. */
  predicate Whitelisted(target: string) {
    exists k | 0 <= k < |AllowedCommands| :: StartsWith(target, AllowedCommands[k])
  }

  /** A path the grep oracle refuses to read. */
  predicate Sensitive(path: string) {
    Contains(path, ".env") || Contains(path, "MISSION.md")
  }

  /**
   * `verify`: a file check answers whether the path exists; an HTTP check
   * refuses anything but `https://`; a command check refuses a target that
   * starts with no allowed command; a grep check wants `pattern|path`
   * (anything else is `false`), refuses a sensitive path, and otherwise
   * answers whether the file holds the pattern.
   */
  function Verify(world: World, oracle_type: OracleType, target: string): (r: Result<bool, string>)
    ensures oracle_type == FileExists ==> r == Ok(world.exists_path(target))
    ensures oracle_type == HttpSuccess ==>
      r == if StartsWith(target, HttpsScheme) then world.http_ok(target) else Err(SsrfError)
    ensures oracle_type == CommandExitCode ==>
      r == if Whitelisted(target) then world.shell_ok(target) else Err(InjectionError)
    ensures oracle_type == GrepMatch && |Split(target, '|')| != 2 ==> r == Ok(false)
    ensures oracle_type == GrepMatch && |Split(target, '|')| == 2 && Sensitive(Split(target, '|')[1]) ==> r == Err(LeakError)
    ensures oracle_type == GrepMatch && |Split(target, '|')| == 2 && !Sensitive(Split(target, '|')[1]) ==>
      var parts := Split(target, '|');
      r == match world.read(parts[1]) case Ok(content) => Ok(Contains(content, parts[0])) case Err(e) => Err(e)
  {
    match oracle_type
    case FileExists => Ok(world.exists_path(target))
    case HttpSuccess =>
      if !StartsWith(target, HttpsScheme) then Err(SsrfError) else world.http_ok(target)
    case CommandExitCode =>
      if !ContainsAnyPrefix(target, AllowedCommands) then Err(InjectionError) else world.shell_ok(target)
    case GrepMatch =>
      var parts := Split(target, '|');
      if |parts| != 2 then Ok(false)
      else
        var pattern, path := parts[0], parts[1];
        if Contains(path, ".env") || Contains(path, "MISSION.md") then Err(LeakError)
        else
          match world.read(path)
          case Ok(content) => Ok(Contains(content, pattern))
          case Err(e) => Err(e)
  }

  /** `allowed_commands.iter().any(|c| target.starts_with(c))`, walked in order. */
  function ContainsAnyPrefix(target: string, prefixes: seq<string>): (b: bool)
    ensures b <==> exists k | 0 <= k < |prefixes| :: StartsWith(target, prefixes[k])
  {
    if prefixes == [] then false
    else StartsWith(target, prefixes[0]) || ContainsAnyPrefix(target, prefixes[1..])
  }

  /**
   * A refused request never reaches the world: the verdict on a non-HTTPS
   * target, a command outside the whitelist, a malformed grep target or a
   * sensitive grep path is the same whatever the world would answer.
   */
  lemma GuardsComeFirst(w1: World, w2: World, oracle_type: OracleType, target: string)
    requires oracle_type == HttpSuccess ==> !StartsWith(target, HttpsScheme)
    requires oracle_type == CommandExitCode ==> !Whitelisted(target)
    requires oracle_type == GrepMatch ==> |Split(target, '|')| != 2 || Sensitive(Split(target, '|')[1])
    requires oracle_type != FileExists
    ensures Verify(w1, oracle_type, target) == Verify(w2, oracle_type, target)
    ensures Verify(w1, oracle_type, target).Err? || Verify(w1, oracle_type, target) == Ok(false)
  {
  }

  /** Any HTTPS target is passed on, internal hosts included: only the scheme is checked. */
  lemma OnlySchemeChecked(world: World, rest: string)
    ensures Verify(world, HttpSuccess, HttpsScheme + rest) == world.http_ok(HttpsScheme + rest)
  {
    assert (HttpsScheme + rest)[..|HttpsScheme|] == HttpsScheme;
  }

  /** Plain HTTP is refused. */
  lemma PlainHttpRefused(world: World, rest: string)
    ensures Verify(world, HttpSuccess, "http://" + rest) == Err(SsrfError)
  {
    var t := "http://" + rest;
    assert t[4] == ':' && HttpsScheme[4] == 's';
  }

  /**
   * Only a prefix is checked: anything after an allowed command, further
   * shell commands included, goes to the shell.
   */
  lemma OnlyPrefixChecked(world: World, k: nat, rest: string)
    requires k < |AllowedCommands|
    ensures Verify(world, CommandExitCode, AllowedCommands[k] + rest) == world.shell_ok(AllowedCommands[k] + rest)
  {
    assert (AllowedCommands[k] + rest)[..|AllowedCommands[k]|] == AllowedCommands[k];
  }

  /** A command starting with none of the allowed prefixes is refused. */
  lemma RemoveRefused(world: World, target: string)
    requires target == "rm -rf /"
    ensures Verify(world, CommandExitCode, target) == Err(InjectionError)
  {
    forall k | 0 <= k < |AllowedCommands|
      ensures !StartsWith(target, AllowedCommands[k])
    {
      assert target[0] == 'r' && AllowedCommands[k][0] != 'r';
    }
  }

  /**
   * A well-formed grep target `pattern|path` on a readable, non-sensitive
   * file answers whether the file holds the pattern.
   */
  lemma GrepFindsPattern(world: World, pattern: string, path: string)
    requires '|' !in pattern && '|' !in path && !Sensitive(path)
    requires world.read(path).Ok?
    ensures Verify(world, GrepMatch, pattern + "|" + path) == Ok(Contains(world.read(path).value, pattern))
  {
    SplitJoin([pattern, path], '|');
    assert Join([pattern, path], '|') == pattern + "|" + path;
  }

  /** A grep target naming `.env` is refused before the file is read. */
  lemma GrepRefusesEnv(world: World, pattern: string, before: string, after: string)
    requires '|' !in pattern && '|' !in before + ".env" + after
    ensures Verify(world, GrepMatch, pattern + "|" + before + ".env" + after) == Err(LeakError)
  {
    var path := before + ".env" + after;
    SplitJoin([pattern, path], '|');
    assert Join([pattern, path], '|') == pattern + "|" + before + ".env" + after;
    ContainsInMiddle(before, ".env", after);
  }
}
