/**
 * `DataCache`: a TTL cache whose metadata map records, per `namespace:key`,
 * the Parquet file holding the frame, when it was written and how many rows
 * it has. The clock, the Parquet reader and writer and the metadata file's
 * writer are parameters; the cache directory's Parquet files are a set of
 * names.
 */
module Cache {
  import opened Wrappers
  import opened Text
  import opened Frames
  import Paths

  datatype Entry = Entry(file: string, timestamp: real, rows: nat)

  /** `_cache_key`: the namespace, a colon, the key. */
  function CacheKey(namespace: string, key: string): (k: string)
    ensures StartsWith(k, namespace + ":")
    ensures k[|namespace| + 1..] == key
  {
    var k := namespace + ":" + key;
    assert k[..|namespace| + 1] == namespace + ":";
    k
  }

  /** `s.replace(from, to)` for single characters. */
  function Replace(s: string, from: char, to: char): (r: string)
    ensures |r| == |s|
    ensures forall i | 0 <= i < |s| :: r[i] == if s[i] == from then to else s[i]
  {
    seq(|s|, i requires 0 <= i < |s| => if s[i] == from then to else s[i])
  }

  /** The Parquet file of an entry: `namespace_key.parquet` with every '/' and ':' turned into '_'. */
  function CacheFileName(namespace: string, key: string): (name: string)
    ensures |name| == |namespace| + |key| + 9
    ensures '/' !in name && ':' !in name
  {
    var name := Replace(Replace(namespace + "_" + key + ".parquet", '/', '_'), ':', '_');
    assert forall i | 0 <= i < |name| :: name[i] != '/' && name[i] != ':';
    name
  }

  /** Separators are flattened, so a namespace holding '/' shares its file with the one holding '_' instead. */
  lemma SlashSharesFile(a: string, b: string, key: string)
    requires a == "x/y" && b == "x_y"
    ensures CacheKey(a, key) != CacheKey(b, key)
    ensures CacheFileName(a, key) == CacheFileName(b, key)
  {
    assert CacheKey(a, key)[1] == '/' && CacheKey(b, key)[1] == '_';
    var sa, sb := a + "_" + key + ".parquet", b + "_" + key + ".parquet";
    assert forall i | 0 <= i < |sa| :: sa[i] == sb[i] || (i == 1 && sa[i] == '/' && sb[i] == '_');
  }

  /** Names matched by the glob `*.parquet`. */
  predicate IsParquet(name: string) {
    var ext := ".parquet";
    |name| >= |ext| && name[|name| - |ext|..] == ext
  }

  /** What the cache directory's `_meta.json` is: absent, a parsed mapping, or text that is not JSON. */
  datatype MetaFile = NoMetaFile | MetaJson(entries: map<string, Entry>) | Malformed

  /**
   * `_load_meta`: an absent file reads as no entries, a parsed one as its
   * entries; `json.load` raises on a file that is not JSON.
   */
  function LoadMeta(file: MetaFile): (r: Result<map<string, Entry>, string>)
    ensures r.Err? <==> file.Malformed?
    ensures file.NoMetaFile? ==> r == Ok(map[])
    ensures file.MetaJson? ==> r == Ok(file.entries)
  {
    match file
    case NoMetaFile => Ok(map[])
    case MetaJson(entries) => Ok(entries)
    case Malformed => Err("JSONDecodeError")
  }

  class DataCache {
    var cache_dir: Paths.Path
    /** `_meta`, in memory. */
    var meta: map<string, Entry>
    /** What `_meta.json` holds. */
    var saved: map<string, Entry>
    /** The names of the files in the cache directory. */
    var files: set<string>

    /**
     * The directory given, or `~/.tradekit/cache`; the metadata is what
     * `_meta.json` holds if it exists, and empty otherwise. A `_meta.json`
     * that is not JSON makes `__init__` raise, so a cache is only built from
     * a metadata file that loads.
     */
    constructor(dir: Option<Paths.Path>, home: Paths.Path, file: MetaFile, existing: set<string>)
      requires LoadMeta(file).Ok?
      ensures cache_dir == if dir.Some? then dir.value else home + [".tradekit", "cache"]
      ensures meta == saved == (if file.MetaJson? then file.entries else map[])
      ensures files == existing
    {
      cache_dir := if dir.Some? then dir.value else Paths.Join(Paths.Join(home, ".tradekit"), "cache");
      meta := LoadMeta(file).value;
      saved := LoadMeta(file).value;
      files := existing;
    }

    /** The entry exists, is no older than the TTL, and its file is still there. */
    predicate Hit(namespace: string, key: string, ttl_minutes: int, now: real)
      reads this
    {
      var ck := CacheKey(namespace, key);
      ck in meta && now - meta[ck].timestamp <= (ttl_minutes * 60) as real && meta[ck].file in files
    }

    /**
     * `get`: nothing for a missing entry, one older than the TTL or one
     * whose file is gone; otherwise what reading the file gives, a failed
     * read being nothing.
     */
    function Get(namespace: string, key: string, ttl_minutes: int, now: real,
                 read: string -> Option<DataFrame>): (r: Option<DataFrame>)
      reads this
      ensures !Hit(namespace, key, ttl_minutes, now) ==> r.None?
      ensures Hit(namespace, key, ttl_minutes, now) ==> r == read(meta[CacheKey(namespace, key)].file)
    {
      var ck := CacheKey(namespace, key);
      if ck !in meta then None
      else
        var entry := meta[ck];
        if now - entry.timestamp > (ttl_minutes * 60) as real then None
        else if entry.file !in files then None
        else read(entry.file)
    }

    /**
     * `put`: writes the frame to its file and records the entry under the
     * cache key, then saves the metadata. A failed write changes nothing; a
     * failed save leaves the new entry in memory only.
     */
    method Put(namespace: string, key: string, df: DataFrame, now: real, write_ok: bool, save_ok: bool)
      modifies this
      ensures cache_dir == old(cache_dir)
      ensures !write_ok ==> meta == old(meta) && saved == old(saved) && files == old(files)
      ensures write_ok ==>
        files == old(files) + {CacheFileName(namespace, key)} &&
        meta == old(meta)[CacheKey(namespace, key) := Entry(CacheFileName(namespace, key), now, |df.rows|)] &&
        saved == if save_ok then meta else old(saved)
    {
      var ck := CacheKey(namespace, key);
      var filename := CacheFileName(namespace, key);
      if write_ok {
        files := files + {filename};
        meta := meta[ck := Entry(filename, now, |df.rows|)];
        if save_ok {
          saved := meta;
        }
      }
    }

    /**
     * `clear`: without a namespace, deletes every Parquet file and empties
     * the metadata; with one, removes each entry whose key starts with
     * `namespace:` together with its file. The metadata is then saved.
     */
    method Clear(namespace: Option<string>)
      modifies this
      ensures cache_dir == old(cache_dir)
      ensures namespace.None? ==> meta == map[] && files == set f | f in old(files) && !IsParquet(f)
      ensures namespace.Some? ==>
        var prefix := namespace.value + ":";
        meta == (map k | k in old(meta) && !StartsWith(k, prefix) :: old(meta)[k]) &&
        files == old(files) - set k | k in old(meta) && StartsWith(k, prefix) :: old(meta)[k].file
      ensures saved == meta
    {
      if namespace.None? {
        files := set f | f in files && !IsParquet(f);
        meta := map[];
      } else {
        meta, files := RemovePrefixed(meta, files, namespace.value + ":");
      }
      saved := meta;
    }
  }

  /**
   * The loop of `clear` with a namespace: deletes, one key at a time, each
   * entry whose key starts with `prefix`, and its file.
   */
  method RemovePrefixed(meta0: map<string, Entry>, files0: set<string>, prefix: string)
    returns (meta: map<string, Entry>, files: set<string>)
    ensures meta == map k | k in meta0 && !StartsWith(k, prefix) :: meta0[k]
    ensures files == files0 - set k | k in meta0 && StartsWith(k, prefix) :: meta0[k].file
  {
    meta, files := meta0, files0;
    var todo := set k | k in meta && StartsWith(k, prefix);
    ghost var removing := todo;
    ghost var gone: set<string> := {};
    while todo != {}
      invariant todo <= removing && gone == removing - todo
      invariant meta == Kept(meta0, gone)
      invariant files == files0 - FilesOf(meta0, gone)
      decreases |todo|
    {
      var k :| k in todo;
      var entry := meta[k];
      KeptStep(meta0, gone, k);
      MoveOne(removing, todo, gone, k);
      meta := meta - {k};
      files := files - {entry.file};
      todo := todo - {k};
      gone := gone + {k};
    }
    ClearedNamespace(meta0, prefix, gone);
  }

  /** The entries of `m` whose key is not in `gone`. */
  function Kept(m: map<string, Entry>, gone: set<string>): map<string, Entry> {
    map k | k in m && k !in gone :: m[k]
  }

  /** The files of the entries of `m` whose key is in `gone`. */
  function FilesOf(m: map<string, Entry>, gone: set<string>): set<string> {
    set k | k in m && k in gone :: m[k].file
  }

  /** Removing one more key drops its entry and adds its file to those removed. */
  lemma KeptStep(m: map<string, Entry>, gone: set<string>, k: string)
    requires k in m && k !in gone
    ensures k in Kept(m, gone) && Kept(m, gone)[k] == m[k]
    ensures Kept(m, gone + {k}) == Kept(m, gone) - {k}
    ensures FilesOf(m, gone + {k}) == FilesOf(m, gone) + {m[k].file}
  {
  }

  /** Moving one key from those left to those done keeps the two a partition of `all`. */
  lemma MoveOne(all: set<string>, todo: set<string>, done: set<string>, k: string)
    requires todo <= all && done == all - todo && k in todo
    ensures todo - {k} <= all && done + {k} == all - (todo - {k})
  {
  }

  /** Removing exactly the keys that start with `prefix` leaves the others and removes their files. */
  lemma ClearedNamespace(m: map<string, Entry>, prefix: string, gone: set<string>)
    requires gone == set k | k in m && StartsWith(k, prefix)
    ensures Kept(m, gone) == map k | k in m && !StartsWith(k, prefix) :: m[k]
    ensures FilesOf(m, gone) == set k | k in m && StartsWith(k, prefix) :: m[k].file
  {
  }

  /** Exactly at the TTL an entry is still served; a moment later it is not. */
  lemma TtlBoundary(c: DataCache, namespace: string, key: string, ttl_minutes: int, now: real,
                    read: string -> Option<DataFrame>)
    requires CacheKey(namespace, key) in c.meta && c.meta[CacheKey(namespace, key)].file in c.files
    requires now == c.meta[CacheKey(namespace, key)].timestamp + (ttl_minutes * 60) as real
    ensures c.Get(namespace, key, ttl_minutes, now, read) == read(c.meta[CacheKey(namespace, key)].file)
    ensures forall later: real | later > now :: c.Get(namespace, key, ttl_minutes, later, read).None?
  {
  }

  /** Every key put under a namespace is one that clearing that namespace removes. */
  lemma PutKeyIsCleared(namespace: string, key: string)
    ensures StartsWith(CacheKey(namespace, key), namespace + ":")
  {
  }

  /** A namespace is cleared with its sub-namespaces: clearing `a` also removes the entries put under `a:b`. */
  lemma ClearTakesSubNamespaces(a: string, b: string, key: string)
    ensures StartsWith(CacheKey(a + ":" + b, key), a + ":")
  {
    var k := CacheKey(a + ":" + b, key);
    assert k[..|a| + 1] == (a + ":" + b + ":")[..|a| + 1] == a + ":";
  }
}
