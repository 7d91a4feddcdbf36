/**
 * `PrivacyGuard::is_leak`: a path is protected when it holds the name of a
 * private file or directory. Every protected pattern is an unanchored regex
 * whose only special parts are an escaped dot and a trailing `.*`, so it
 * matches exactly where its literal text occurs.
 */
module Privacy {
  import opened Text

  datatype PrivacyGuard = PrivacyGuard(protected_paths: seq<string>)

  /** `PrivacyGuard::new`, the protected-path part. */
  function New(): (g: PrivacyGuard)
    ensures |g.protected_paths| == 5
    ensures forall k | 0 <= k < |g.protected_paths| :: |g.protected_paths[k]| > 0
  {
    PrivacyGuard(["MISSION.md", "BELIEFS.md", "TELOS/", ".env", "history/"])
  }

  /** `is_leak`: some protected pattern occurs in the path. */
  function IsLeak(g: PrivacyGuard, path: string): (b: bool)
    ensures b <==> exists k | 0 <= k < |g.protected_paths| :: Contains(path, g.protected_paths[k])
  {
    ContainsAny(path, g.protected_paths)
  }

  /** A path holding a protected name anywhere, with anything around it, leaks. */
  lemma ProtectedNameLeaks(before: string, k: nat, after: string)
    requires k < |New().protected_paths|
    ensures IsLeak(New(), before + New().protected_paths[k] + after)
  {
    ContainsInMiddle(before, New().protected_paths[k], after);
  }

  /** "path/to/MISSION.md" leaks. */
  lemma MissionLeaks(path: string)
    requires path == "path/to/MISSION.md"
    ensures IsLeak(New(), path)
  {
    var before := "path/to/";
    assert before + New().protected_paths[0] + "" == path;
    ProtectedNameLeaks(before, 0, "");
  }

  /** ".env" leaks. */
  lemma EnvLeaks(path: string)
    requires path == ".env"
    ensures IsLeak(New(), path)
  {
    assert "" + New().protected_paths[3] + "" == path;
    ProtectedNameLeaks("", 3, "");
  }

  /** "src/main.rs" does not leak. */
  lemma SourceFileDoesNotLeak(path: string)
    requires path == "src/main.rs"
    ensures !IsLeak(New(), path)
  {
    var ps := New().protected_paths;
    // 'M', 'B', 'T', 'e' and 'h' are missing from the path.
    NotContainedByChar(path, ps[0], 0);
    NotContainedByChar(path, ps[1], 0);
    NotContainedByChar(path, ps[2], 0);
    NotContainedByChar(path, ps[3], 1);
    NotContainedByChar(path, ps[4], 0);
  }

  /** The history rule is case-sensitive: "History/x" is not protected. */
  lemma CapitalHistoryDoesNotLeak(path: string)
    requires path == "History/x"
    ensures !IsLeak(New(), path)
  {
    NoneContainedByLead(path, New().protected_paths);
  }
}
