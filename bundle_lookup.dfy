/**
 * Resolution of the bundle identifier of the app a process belongs to,
 * from the path of the process's executable, with a cache keyed by that
 * path. The filesystem read `Bundle(url:)?.bundleIdentifier` is the
 * oracle `bundleIdentifierAt`, a fixed function from directory to
 * optional identifier.
 */
module BundleLookup {
  import opened Wrappers
  import opened Text
  import opened Paths

  /** The walk looks at no more than this many directories (`for _ in 0..<10`). */
  const MaxDirectories: nat := 10

  /**
   * The first directory whose extension is "app", met while walking up
   * from `dir`: `dir` itself is looked at first, at most `budget`
   * directories are looked at, and the walk ends after the root.
   */
  function FirstAppDirectory(dir: Path, budget: nat): Option<Path>
    decreases budget
  {
    if budget == 0 then None
    else if IsAppDirectory(dir) then Some(dir)
    else if Parent(dir) == dir then None
    else FirstAppDirectory(Parent(dir), budget - 1)
  }

  /**
   * What the walk finds, stated without the walk: the directories looked
   * at are the ancestors `dir[..m]` less than `budget` levels up; the
   * result is the nearest of them that is an app directory, and None
   * when there is none.
   */
  lemma {:induction false} FirstAppDirectoryCharacterised(dir: Path, budget: nat)
    ensures var r := FirstAppDirectory(dir, budget);
      r.Some? ==>
        |r.value| <= |dir| && |dir| - |r.value| < budget && r.value == dir[..|r.value|]
        && IsAppDirectory(r.value)
        && forall m :: |r.value| < m <= |dir| ==> !IsAppDirectory(dir[..m])
    ensures FirstAppDirectory(dir, budget).None? ==>
        forall m :: 0 <= m <= |dir| && |dir| - m < budget ==> !IsAppDirectory(dir[..m])
    decreases budget
  {
    if budget == 0 {
    } else if IsAppDirectory(dir) {
      assert dir[..|dir|] == dir;
    } else if Parent(dir) == dir {
      assert dir == [];
    } else {
      var parent := Parent(dir);
      FirstAppDirectoryCharacterised(parent, budget - 1);
      assert dir[..|dir|] == dir;
      forall m | 0 <= m < |dir| ensures dir[..m] == parent[..m] { }
    }
  }

  /**
   * The loop of the lookup: walks up from the executable's directory and
   * returns what `FirstAppDirectory` specifies for ten directories, which
   * `FirstAppDirectoryCharacterised` describes without the walk.
   */
  method FindAppDirectory(executableDirectory: Path) returns (appURL: Option<Path>)
    ensures appURL == FirstAppDirectory(executableDirectory, MaxDirectories)
  {
    var url := executableDirectory;
    appURL := None;
    for i := 0 to MaxDirectories
      invariant appURL == None
      invariant FirstAppDirectory(url, MaxDirectories - i)
             == FirstAppDirectory(executableDirectory, MaxDirectories)
    {
      if IsAppDirectory(url) {
        appURL := Some(url);
        break;
      }
      var parent := Parent(url);
      if parent == url {
        break;
      }
      url := parent;
    }
  }

  /**
   * The uncached resolution: strip the executable's name, walk up to the
   * nearest app directory and read its bundle identifier; None when no
   * app directory is found or the oracle has no identifier for it.
   */
  function Resolve(bundleIdentifierAt: Path -> Option<string>, processImagePath: string): Option<string> {
    match FirstAppDirectory(Parent(Components(processImagePath)), MaxDirectories)
    case None => None
    case Some(app) => bundleIdentifierAt(app)
  }

  /**
   * The walk starts at the executable's directory: an executable whose
   * directory is an app directory resolves through that directory.
   */
  lemma ResolveThroughEnclosingApp(bundleIdentifierAt: Path -> Option<string>, p: Path)
    requires IsPath(p) && p != [] && IsAppDirectory(p[..|p| - 1])
    ensures Resolve(bundleIdentifierAt, Join(p)) == bundleIdentifierAt(p[..|p| - 1])
  {
    ComponentsOfJoin(p);
  }

  /** An executable directly inside `<stem>.app` (in any letter case) resolves through that bundle. */
  lemma ResolveInsideApp(bundleIdentifierAt: Path -> Option<string>, dir: Path, stem: string, ext: string,
                         executable: string)
    requires IsPath(dir) && IsComponent(stem) && IsAppExtension(ext) && IsComponent(executable)
    ensures Resolve(bundleIdentifierAt, Join(dir + [stem + "." + ext, executable]))
         == bundleIdentifierAt(dir + [stem + "." + ext])
  {
    var app := dir + [stem + "." + ext];
    var p := app + [executable];
    assert dir + [stem + "." + ext, executable] == p;
    AppExtensionCaseInsensitive(ext);
    assert IsComponent(stem + "." + ext);
    assert p[..|p| - 1] == app;
    AppDirectoryName(dir, stem, ext);
    ResolveThroughEnclosingApp(bundleIdentifierAt, p);
  }

  /** For example, "/Applications/Foo.app/Foo" resolves through "/Applications/Foo.app", as does its ".APP" variant. */
  lemma ResolveFooApp(bundleIdentifierAt: Path -> Option<string>, app: string)
    requires app == "Foo.app" || app == "Foo.APP"
    ensures Resolve(bundleIdentifierAt, "/Applications/" + app + "/Foo")
         == bundleIdentifierAt(["Applications", app])
  {
    FooAppPath(app);
    ResolveInsideApp(bundleIdentifierAt, ["Applications"], "Foo", app[4..], "Foo");
  }

  lemma FooAppPath(app: string)
    requires app == "Foo.app" || app == "Foo.APP"
    ensures app == "Foo" + "." + app[4..] && IsAppExtension(app[4..])
    ensures ["Applications"] + ["Foo" + "." + app[4..], "Foo"] == ["Applications", app, "Foo"]
    ensures ["Applications"] + ["Foo" + "." + app[4..]] == ["Applications", app]
    ensures Join(["Applications", app, "Foo"]) == "/Applications/" + app + "/Foo"
  {
    AppExtensionCaseInsensitive(app[4..]);
    var p := ["Applications", app, "Foo"];
    assert Join(p[2..]) == "/Foo";
  }

  /** The outcome of one cache lookup. */
  datatype LookupResult = LookupResult(
    bundleID: Option<string>,
    cache: map<string, Option<string>>,
    walked: bool)

  /**
   * One call of the cached lookup: a path already in the cache (with an
   * identifier or with None) is answered from it; otherwise the path is
   * resolved and the answer stored under the original image path.
   */
  function Lookup(cache: map<string, Option<string>>, bundleIdentifierAt: Path -> Option<string>,
                  processImagePath: string): LookupResult
  {
    if processImagePath in cache then
      LookupResult(cache[processImagePath], cache, false)
    else
      var bundleID := Resolve(bundleIdentifierAt, processImagePath);
      LookupResult(bundleID, cache[processImagePath := bundleID], true)
  }

  /** Every cached answer is the one resolution would give. */
  ghost predicate CacheAgrees(cache: map<string, Option<string>>, bundleIdentifierAt: Path -> Option<string>) {
    forall path :: path in cache ==> cache[path] == Resolve(bundleIdentifierAt, path)
  }

  /** A second lookup of the same path is a hit that changes nothing and returns the same answer. */
  lemma LookupMemoises(cache: map<string, Option<string>>, bundleIdentifierAt: Path -> Option<string>,
                       processImagePath: string)
    ensures var first := Lookup(cache, bundleIdentifierAt, processImagePath);
            Lookup(first.cache, bundleIdentifierAt, processImagePath)
              == LookupResult(first.bundleID, first.cache, false)
  {
  }

  /**
   * The cache only grows: every earlier entry survives with its value,
   * the one new key is the image path, and it holds the answer returned
   * (None included). A hit neither walks nor changes the cache.
   */
  lemma LookupNeverEvicts(cache: map<string, Option<string>>, bundleIdentifierAt: Path -> Option<string>,
                          processImagePath: string)
    ensures var r := Lookup(cache, bundleIdentifierAt, processImagePath);
      r.cache.Keys == cache.Keys + {processImagePath}
      && (forall path :: path in cache ==> r.cache[path] == cache[path])
      && r.cache[processImagePath] == r.bundleID
      && (r.walked <==> processImagePath !in cache)
  {
  }

  /** Caching is invisible: with a cache that agrees with resolution, a lookup answers as resolution does. */
  lemma LookupAgreesWithResolve(cache: map<string, Option<string>>, bundleIdentifierAt: Path -> Option<string>,
                                processImagePath: string)
    requires CacheAgrees(cache, bundleIdentifierAt)
    ensures var r := Lookup(cache, bundleIdentifierAt, processImagePath);
      r.bundleID == Resolve(bundleIdentifierAt, processImagePath)
      && CacheAgrees(r.cache, bundleIdentifierAt)
  {
  }

  /**
   * The process-wide cache of `bundleIDFromProcessPath`. `walks` counts
   * the directory walks done so far; each path is walked for at most once.
   */
  class BundleIDLookup {
    const bundleIdentifierAt: Path -> Option<string>
    var cache: map<string, Option<string>>
    ghost var walks: nat

    ghost predicate Valid()
      reads this
    {
      CacheAgrees(cache, bundleIdentifierAt) && walks == |cache.Keys|
    }

    constructor (bundleIdentifierAt: Path -> Option<string>)
      ensures Valid()
      ensures this.bundleIdentifierAt == bundleIdentifierAt
      ensures cache == map[] && walks == 0
    {
      this.bundleIdentifierAt := bundleIdentifierAt;
      cache := map[];
      walks := 0;
    }

    /** `bundleIDFromProcessPath` */
    method BundleIDFromProcessPath(processImagePath: string) returns (bundleID: Option<string>)
      requires Valid()
      modifies this
      ensures Valid()
      ensures var r := Lookup(old(cache), bundleIdentifierAt, processImagePath);
        bundleID == r.bundleID && cache == r.cache
        && walks == if r.walked then old(walks) + 1 else old(walks)
      ensures bundleID == Resolve(bundleIdentifierAt, processImagePath)
    {
      if processImagePath in cache {
        return cache[processImagePath];
      }
      var url := Parent(Components(processImagePath));
      var appURL := FindAppDirectory(url);
      walks := walks + 1;
      match appURL {
        case Some(app) => bundleID := bundleIdentifierAt(app);
        case None => bundleID := None;
      }
      cache := cache[processImagePath := bundleID];
    }
  }
}
