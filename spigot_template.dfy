/**
 * templates/server/spigot/SpigotTemplate: the Spigot jar, built once per
 * version into a cache directory and copied into an instance on every
 * prepare.
 */
module SpigotTemplates {
  import opened Wrappers
  import opened Json
  import opened Sections
  import opened FileStore

  /** The constructor's check on spigot.version, first-wins over the walk. */
  function VersionOf(nodes: seq<Json>): (r: Result<string>)
    ensures r.Err? <==> FirstText(nodes, "spigot", "version").None?
    ensures r.Err? ==> r.error == InvalidTemplate
    ensures r.Ok? ==> Some(r.value) == FirstText(nodes, "spigot", "version")
  {
    match FirstText(nodes, "spigot", "version")
    case None => Err(InvalidTemplate)
    case Some(version) => Ok(version)
  }

  /** cache/servers/spigot/<version>. */
  function CacheDir(cachePath: Path, version: string): Path {
    cachePath + ["servers", "spigot", version]
  }

  /** spigot-<version>.jar in the cache directory. */
  function Jar(cachePath: Path, version: string): Path {
    CacheDir(cachePath, version) + ["spigot-" + version + ".jar"]
  }

  /** The instance's server.jar. */
  function Executable(serverPath: Path): Path { serverPath + ["files", "server.jar"] }

  /** updateServer(): create the cache directory, then build the jar if it is missing. */
  function Update(paths: set<Path>, cachePath: Path, version: string, built: bool): (Result<bool>, set<Path>) {
    Fetch(paths + {CacheDir(cachePath, version)}, Jar(cachePath, version), built)
  }

  /**
   * prepareServer: the update (an IOException counts as no change), then the
   * copy of the cached jar, whether or not anything changed. A jar still
   * missing makes the copy, and so prepareServer, fail.
   */
  function Prepare(paths: set<Path>, cachePath: Path, version: string, built: bool, serverPath: Path): (Outcome, set<Path>) {
    var after := Update(paths, cachePath, version, built).1;
    match Copy(after, Jar(cachePath, version), Executable(serverPath))
    case Ok(copied) => (Pass, copied)
    case Err(e) => (Fail(e), after)
  }

  /** updateServer reports a change exactly when the jar was missing; once it exists, calls change nothing. */
  lemma UpdateChangedIffMissing(paths: set<Path>, cachePath: Path, version: string, built: bool)
    ensures Update(paths, cachePath, version, built).0.Ok? ==>
      (Update(paths, cachePath, version, built).0.value <==> Jar(cachePath, version) !in paths) &&
      Jar(cachePath, version) in Update(paths, cachePath, version, built).1
    ensures Jar(cachePath, version) in paths ==>
      Update(paths, cachePath, version, built) == (Ok(false), paths + {CacheDir(cachePath, version)})
  {
    assert Jar(cachePath, version) != CacheDir(cachePath, version);
    FetchChangedIffMissing(paths + {CacheDir(cachePath, version)}, Jar(cachePath, version), built);
  }

  /** The jar is copied into the instance on every successful prepare, changed or not. */
  lemma PrepareAlwaysCopies(paths: set<Path>, cachePath: Path, version: string, built: bool, serverPath: Path)
    ensures Prepare(paths, cachePath, version, built, serverPath).0.Pass? <==>
      Jar(cachePath, version) in paths || built
    ensures Prepare(paths, cachePath, version, built, serverPath).0.Pass? ==>
      Executable(serverPath) in Prepare(paths, cachePath, version, built, serverPath).1
  {
    UpdateChangedIffMissing(paths, cachePath, version, built);
  }

  class SpigotTemplate {
    const version: string
    const cachePath: Path
    /** The pending update's result, once it has completed; null between calls. */
    var updateServerFuture: Option<bool>

    constructor (version: string, cachePath: Path)
      ensures this.version == version && this.cachePath == cachePath && updateServerFuture.None?
    {
      this.version := version;
      this.cachePath := cachePath;
      updateServerFuture := None;
    }

    /** The constructor's loop over the walk `nodes`, then its check. */
    static method Load(nodes: seq<Json>, cachePath: Path) returns (r: Result<SpigotTemplate>)
      ensures r.Err? <==> VersionOf(nodes).Err?
      ensures r.Err? ==> r.error == InvalidTemplate
      ensures r.Ok? ==>
        fresh(r.value) && r.value.version == VersionOf(nodes).value &&
        r.value.cachePath == cachePath && r.value.updateServerFuture.None?
    {
      var version := ScanFirst(nodes, "spigot", "version");
      if version.None? {
        return Err(InvalidTemplate);
      }
      var t := new SpigotTemplate(version.value, cachePath);
      return Ok(t);
    }

    /** updateServer(), with `built` the outcome of the BuildTools run. */
    method UpdateServer(fs: FileSystem, built: bool) returns (r: Result<bool>)
      modifies fs
      ensures (r, fs.paths) == Update(old(fs.paths), cachePath, version, built)
    {
      var changed := false;
      fs.Create(CacheDir(cachePath, version));
      var serverJar := Jar(cachePath, version);
      if serverJar !in fs.paths {
        if !built {
          return Err(IOFailure);
        }
        fs.Create(serverJar);
        changed := true;
      }
      return Ok(changed);
    }

    /** prepareServer(server) with no update pending. */
    method PrepareServer(fs: FileSystem, serverPath: Path, built: bool) returns (outcome: Outcome)
      requires updateServerFuture.None?
      modifies this, fs
      ensures updateServerFuture.None?
      ensures (outcome, fs.paths) == Prepare(old(fs.paths), cachePath, version, built, serverPath)
    {
      var _ := UpdateServer(fs, built);
      var serverJar := Jar(cachePath, version);
      if serverJar !in fs.paths {
        return Fail(IOFailure);
      }
      fs.Create(Executable(serverPath));
      return Pass;
    }
  }
}
