/** `CachePathManager`: a process-wide singleton that owns the cache root directory and hands out
    paths below it, creating the directories they need. The directories on disk are the state of
    a `Disk` object; the environment variable and the home directory are parameters. */
module CachePaths {
  import opened Wrappers
  import opened Serialization

  /** The directories that exist on disk. */
  class Disk {
    var dirs: set<Path>

    constructor(existing: set<Path>)
      ensures dirs == existing
    {
      dirs := existing;
    }
  }

  /** The directories `mkdir(parents=True, exist_ok=True)` makes sure exist: the path and every
      path above it. */
  function Ancestors(p: Path): (r: set<Path>)
    ensures forall q :: q in r <==> |q| <= |p| && q == p[..|q|]
  {
    set k | 0 <= k <= |p| :: p[..k]
  }

  /** The parent directory of a path (the root is its own parent). */
  function Parent(p: Path): (r: Path)
    ensures |p| > 0 ==> r + [p[|p| - 1]] == p
    ensures |p| == 0 ==> r == p
  {
    if |p| == 0 then p else p[..|p| - 1]
  }

  /** `Path(os.getenv("CACHE_HOME", Path.home() / ".cache")) / app_name`. */
  function CacheRoot(cacheHome: Option<Path>, home: Path, appName: string): (r: Path)
    ensures |r| >= 1 && r[|r| - 1] == appName
    ensures cacheHome.Some? ==> r[..|r| - 1] == cacheHome.value
    ensures cacheHome.None? ==> r[..|r| - 1] == home + [".cache"]
  {
    (if cacheHome.Some? then cacheHome.value else home + [".cache"]) + [appName]
  }

  class CachePathManager {
    var root: Path
    var initialized: bool

    /** `__new__` on first use: an instance whose `_initialized` flag is false. */
    constructor()
      ensures !initialized
    {
      root := [];
      initialized := false;
    }

    /** `__init__`: does nothing once initialised; the first time, fixes the root from the
        application name and creates it. */
    method Init(appName: string, cacheHome: Option<Path>, home: Path, disk: Disk)
      modifies this, disk
      ensures initialized
      ensures old(initialized) ==> root == old(root) && disk.dirs == old(disk.dirs)
      ensures !old(initialized) ==>
        root == CacheRoot(cacheHome, home, appName) && disk.dirs == old(disk.dirs) + Ancestors(root)
    {
      if initialized {
        return;
      }
      initialized := true;
      root := CacheRoot(cacheHome, home, appName);
      disk.dirs := disk.dirs + Ancestors(root);
    }

    /** `subdir(name)`: root / name, created. */
    method Subdir(name: string, disk: Disk) returns (p: Path)
      modifies disk
      ensures p == root + [name]
      ensures disk.dirs == old(disk.dirs) + Ancestors(p)
    {
      p := root + [name];
      disk.dirs := disk.dirs + Ancestors(p);
    }

    /** `file(*parts)`: root joined with the parts, with its parent directory created. */
    method File(parts: seq<string>, disk: Disk) returns (p: Path)
      modifies disk
      ensures p == root + parts
      ensures disk.dirs == old(disk.dirs) + Ancestors(Parent(p))
    {
      p := root + parts;
      disk.dirs := disk.dirs + Ancestors(Parent(p));
    }
  }

  /** The class object, whose `_instance` attribute holds the one instance once it exists. */
  class CachePathManagerClass {
    var instance: CachePathManager?

    constructor()
      ensures instance == null
    {
      instance := null;
    }

    /** Every existing instance has been initialised. */
    predicate Valid()
      reads this, instance
    {
      instance != null ==> instance.initialized
    }

    /** `CachePathManager(app_name)`: `__new__` followed by `__init__`. The first call creates the
        instance and its root; every later call returns that same instance with the same root,
        whatever application name it is given. */
    method Call(appName: string, cacheHome: Option<Path>, home: Path, disk: Disk) returns (m: CachePathManager)
      requires Valid()
      modifies this, instance, disk
      ensures Valid() && instance == m && m.initialized
      ensures old(instance) != null ==> m == old(instance) && m.root == old(instance.root) && disk.dirs == old(disk.dirs)
      ensures old(instance) == null ==>
        fresh(m) && m.root == CacheRoot(cacheHome, home, appName) && disk.dirs == old(disk.dirs) + Ancestors(m.root)
    {
      if instance == null {
        m := new CachePathManager();
        instance := m;
      } else {
        m := instance;
      }
      m.Init(appName, cacheHome, home, disk);
    }
  }
}
