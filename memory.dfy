/** `TieredMemoryManager::get_path`: the directory of each memory tier. */
module Memory {
  import Paths

  /** Hot is active work, warm is phase-based learning, cold is immutable history. */
  datatype MemoryTier = Hot | Warm | Cold

  datatype TieredMemoryManager = TieredMemoryManager(root_dir: Paths.Path)

  /** The directory name of a tier. */
  function TierDirectory(tier: MemoryTier): string {
    match tier
    case Hot => "Work"
    case Warm => "Learning"
    case Cold => "History"
  }

  /** `get_path`: a direct child of the root directory, named after the tier. */
  function GetPath(manager: TieredMemoryManager, tier: MemoryTier): (p: Paths.Path)
    ensures |p| == |manager.root_dir| + 1 && p[..|manager.root_dir|] == manager.root_dir
    ensures p[|manager.root_dir|] == TierDirectory(tier)
  {
    Paths.Join(manager.root_dir, TierDirectory(tier))
  }

  /** Hot is root/Work, warm root/Learning and cold root/History. */
  lemma TierPaths(manager: TieredMemoryManager)
    ensures GetPath(manager, Hot) == manager.root_dir + ["Work"]
    ensures GetPath(manager, Warm) == manager.root_dir + ["Learning"]
    ensures GetPath(manager, Cold) == manager.root_dir + ["History"]
  {
  }

  /** The three tiers have three different directories. */
  lemma TierPathsDistinct(manager: TieredMemoryManager, a: MemoryTier, b: MemoryTier)
    ensures GetPath(manager, a) == GetPath(manager, b) <==> a == b
  {
    var n := |manager.root_dir|;
    if GetPath(manager, a) == GetPath(manager, b) {
      var x, y := TierDirectory(a), TierDirectory(b);
      assert x == GetPath(manager, a)[n] == GetPath(manager, b)[n] == y;
      assert x[0] == y[0];
    }
  }
}
