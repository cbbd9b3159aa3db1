/**
 * templates/server/paper/PaperTemplate: the Paper jar, built once per
 * version into a cache directory and copied into an instance on every
 * prepare.
 */
module PaperTemplates {
  import opened Wrappers
  import opened Json
  import opened Sections
  import opened FileStore

  /**
   * The constructor's checks on paper.version and paper.url, each first-wins
   * over the walk: a missing version is reported before a missing url.
   */
  function SettingsOf(nodes: seq<Json>): (r: Result<(string, string)>)
    ensures r.Err? <==> FirstText(nodes, "paper", "version").None? || FirstText(nodes, "paper", "url").None?
    ensures r.Err? ==> r.error == InvalidTemplate
    ensures r.Ok? ==> r.value == (FirstText(nodes, "paper", "version").value, FirstText(nodes, "paper", "url").value)
  {
    match FirstText(nodes, "paper", "version")
    case None => Err(InvalidTemplate)
    case Some(version) =>
      match FirstText(nodes, "paper", "url")
      case None => Err(InvalidTemplate)
      case Some(url) => Ok((version, url))
  }

  /** cache/servers/paper/<version>. */
  function CacheDir(cachePath: Path, version: string): Path {
    cachePath + ["servers", "paper", version]
  }

  /** paper-<version>.jar in the cache directory. */
  function Jar(cachePath: Path, version: string): Path {
    CacheDir(cachePath, version) + ["paper-" + version + ".jar"]
  }

  /** The instance's server.jar. */
  function Executable(serverPath: Path): Path { serverPath + ["files", "server.jar"] }

  /** updateServer(): create the cache directory, then build the jar if it is missing. */
  function Update(paths: set<Path>, cachePath: Path, version: string, built: bool): (Result<bool>, set<Path>) {
    Fetch(paths + {CacheDir(cachePath, version)}, Jar(cachePath, version), built)
  }

  /**
   * prepareServer: the update (an IOException counts as no change), then the
   * copy of the cached jar, whether or not anything changed. A jar still
   * missing makes the copy, and so prepareServer, fail.
   */
  function Prepare(paths: set<Path>, cachePath: Path, version: string, built: bool, serverPath: Path): (Outcome, set<Path>) {
    var after := Update(paths, cachePath, version, built).1;
    match Copy(after, Jar(cachePath, version), Executable(serverPath))
    case Ok(copied) => (Pass, copied)
    case Err(e) => (Fail(e), after)
  }

  /** updateServer reports a change exactly when the jar was missing; once it exists, calls change nothing. */
  lemma UpdateChangedIffMissing(paths: set<Path>, cachePath: Path, version: string, built: bool)
    ensures Update(paths, cachePath, version, built).0.Ok? ==>
      (Update(paths, cachePath, version, built).0.value <==> Jar(cachePath, version) !in paths) &&
      Jar(cachePath, version) in Update(paths, cachePath, version, built).1
    ensures Jar(cachePath, version) in paths ==>
      Update(paths, cachePath, version, built) == (Ok(false), paths + {CacheDir(cachePath, version)})
  {
    assert Jar(cachePath, version) != CacheDir(cachePath, version);
    FetchChangedIffMissing(paths + {CacheDir(cachePath, version)}, Jar(cachePath, version), built);
  }

  /** The jar is copied into the instance on every successful prepare, changed or not. */
  lemma PrepareAlwaysCopies(paths: set<Path>, cachePath: Path, version: string, built: bool, serverPath: Path)
    ensures Prepare(paths, cachePath, version, built, serverPath).0.Pass? <==>
      Jar(cachePath, version) in paths || built
    ensures Prepare(paths, cachePath, version, built, serverPath).0.Pass? ==>
      Executable(serverPath) in Prepare(paths, cachePath, version, built, serverPath).1
  {
    UpdateChangedIffMissing(paths, cachePath, version, built);
  }

  class PaperTemplate {
    const version: string
    const url: string
    const cachePath: Path
    /** The pending update's result, once it has completed; null between calls. */
    var updateServerFuture: Option<bool>

    constructor (version: string, url: string, cachePath: Path)
      ensures this.version == version && this.url == url && this.cachePath == cachePath && updateServerFuture.None?
    {
      this.version := version;
      this.url := url;
      this.cachePath := cachePath;
      updateServerFuture := None;
    }

    /** The constructor's loop over the walk `nodes`, then its two checks. */
    static method Load(nodes: seq<Json>, cachePath: Path) returns (r: Result<PaperTemplate>)
      ensures r.Err? <==> SettingsOf(nodes).Err?
      ensures r.Err? ==> r.error == InvalidTemplate
      ensures r.Ok? ==>
        fresh(r.value) && (r.value.version, r.value.url) == SettingsOf(nodes).value &&
        r.value.cachePath == cachePath && r.value.updateServerFuture.None?
    {
      var version := ScanFirst(nodes, "paper", "version");
      var url := ScanFirst(nodes, "paper", "url");
      if version.None? {
        return Err(InvalidTemplate);
      }
      if url.None? {
        return Err(InvalidTemplate);
      }
      var t := new PaperTemplate(version.value, url.value, cachePath);
      return Ok(t);
    }

    /** updateServer(), with `built` the outcome of the Paperclip run. */
    method UpdateServer(fs: FileSystem, built: bool) returns (r: Result<bool>)
      modifies fs
      ensures (r, fs.paths) == Update(old(fs.paths), cachePath, version, built)
    {
      var changed := false;
      fs.Create(CacheDir(cachePath, version));
      var serverJar := Jar(cachePath, version);
      if serverJar !in fs.paths {
        if !built {
          return Err(IOFailure);
        }
        fs.Create(serverJar);
        changed := true;
      }
      return Ok(changed);
    }

    /** prepareServer(server) with no update pending. */
    method PrepareServer(fs: FileSystem, serverPath: Path, built: bool) returns (outcome: Outcome)
      requires updateServerFuture.None?
      modifies this, fs
      ensures updateServerFuture.None?
      ensures (outcome, fs.paths) == Prepare(old(fs.paths), cachePath, version, built, serverPath)
    {
      var _ := UpdateServer(fs, built);
      var serverJar := Jar(cachePath, version);
      if serverJar !in fs.paths {
        return Fail(IOFailure);
      }
      fs.Create(Executable(serverPath));
      return Pass;
    }
  }
}
