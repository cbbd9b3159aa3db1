/**
 * templates/server/vanilla/VanillaTemplate: the vanilla server jar, fetched
 * into a cache directory per version and patched for IP forwarding, then
 * copied into an instance when it changed.
 */
module VanillaTemplates {
  import opened Wrappers
  import opened JavaText
  import opened Json
  import opened Sections
  import opened FileStore

  /** One entry of the launcher's version manifest: its id and the url of its server manifest. */
  datatype ManifestEntry = ManifestEntry(id: string, url: string)

  /** The url the manifest loop ends with: every entry whose id matches ignoring case overwrites it. */
  function ManifestUrl(versions: seq<ManifestEntry>, version: string): Option<string> {
    if versions == [] then None
    else
      var last := versions[|versions| - 1];
      if EqualsIgnoreCase(last.id, version) then Some(last.url)
      else ManifestUrl(versions[..|versions| - 1], version)
  }

  /**
   * No url when no entry matches; otherwise the url of the last matching
   * entry.
   */
  lemma {:induction false} ManifestUrlIsLastMatch(versions: seq<ManifestEntry>, version: string)
    ensures ManifestUrl(versions, version).None? <==>
      forall i :: 0 <= i < |versions| ==> !EqualsIgnoreCase(versions[i].id, version)
    ensures ManifestUrl(versions, version).Some? ==>
      exists i :: 0 <= i < |versions| && EqualsIgnoreCase(versions[i].id, version) &&
        ManifestUrl(versions, version) == Some(versions[i].url) &&
        forall j :: i < j < |versions| ==> !EqualsIgnoreCase(versions[j].id, version)
  {
    if versions != [] {
      var front := versions[..|versions| - 1];
      ManifestUrlIsLastMatch(front, version);
      assert forall k :: 0 <= k < |front| ==> front[k] == versions[k];
      if !EqualsIgnoreCase(versions[|versions| - 1].id, version) && ManifestUrl(front, version).Some? {
        var i :| 0 <= i < |front| && EqualsIgnoreCase(front[i].id, version) &&
          ManifestUrl(front, version) == Some(front[i].url) &&
          forall j :: i < j < |front| ==> !EqualsIgnoreCase(front[j].id, version);
        assert EqualsIgnoreCase(versions[i].id, version);
      }
    }
  }

  /** The loop of downloadServer over the manifest's "versions". */
  method SelectServerManifest(versions: seq<ManifestEntry>, version: string) returns (url: Option<string>)
    ensures url == ManifestUrl(versions, version)
  {
    url := None;
    var i := 0;
    while i < |versions|
      invariant i <= |versions|
      invariant url == ManifestUrl(versions[..i], version)
      decreases |versions| - i
    {
      assert versions[..i + 1][..i] == versions[..i];
      if EqualsIgnoreCase(versions[i].id, version) {
        url := Some(versions[i].url);
      }
      i := i + 1;
    }
    assert versions[..i] == versions;
  }

  /** The version of a vanilla template: the first vanilla.version of its walk, which must exist. */
  function VersionOf(nodes: seq<Json>): Result<string> {
    match FirstText(nodes, "vanilla", "version")
    case Some(v) => Ok(v)
    case None => Err(InvalidTemplate)
  }

  /** cache/servers/vanilla/<version>. */
  function CacheDir(cachePath: Path, version: string): Path {
    cachePath + ["servers", "vanilla", version]
  }

  function Original(dir: Path): Path { dir + ["original-server.jar"] }

  function Patched(dir: Path): Path { dir + ["patched-server.jar"] }

  /** The instance's server.jar. */
  function Executable(serverPath: Path): Path { serverPath + ["files", "server.jar"] }

  /**
   * updateServer(): the cache directory is created, the original jar is
   * downloaded if missing, then the patched jar is made if missing;
   * `changed` records whether either step ran. `downloaded` and `patched`
   * say whether those steps succeed when they run.
   */
  function Update(paths: set<Path>, dir: Path, downloaded: bool, patched: bool): (Result<bool>, set<Path>) {
    var first := Fetch(paths + {dir}, Original(dir), downloaded);
    if first.0.Err? then first
    else
      var second := Fetch(first.1, Patched(dir), patched);
      if second.0.Err? then second
      else (Ok(first.0.value || second.0.value), second.1)
  }

  /**
   * updateServer reports a change exactly when the original or the patched
   * jar was missing, and afterwards both exist.
   */
  lemma UpdateChangedIffMissing(paths: set<Path>, dir: Path, downloaded: bool, patched: bool)
    ensures Update(paths, dir, downloaded, patched).0.Ok? ==>
      (Update(paths, dir, downloaded, patched).0.value <==> Original(dir) !in paths || Patched(dir) !in paths)
    ensures Update(paths, dir, downloaded, patched).0.Ok? ==>
      Original(dir) in Update(paths, dir, downloaded, patched).1 && Patched(dir) in Update(paths, dir, downloaded, patched).1
  {
    FetchChangedIffMissing(paths + {dir}, Original(dir), downloaded);
    var first := Fetch(paths + {dir}, Original(dir), downloaded);
    FetchChangedIffMissing(first.1, Patched(dir), patched);
  }

  /** Once both jars exist, updateServer does no work and reports no change, whatever the network would do. */
  lemma UpdateIdempotent(paths: set<Path>, dir: Path, downloaded: bool, patched: bool, downloaded2: bool, patched2: bool)
    requires Update(paths, dir, downloaded, patched).0.Ok?
    ensures var after := Update(paths, dir, downloaded, patched).1;
      Update(after, dir, downloaded2, patched2) == (Ok(false), after)
  {
    UpdateChangedIffMissing(paths, dir, downloaded, patched);
    var after := Update(paths, dir, downloaded, patched).1;
    assert dir in after;
    assert after + {dir} == after;
  }

  class VanillaTemplate {
    const version: string
    const cachePath: Path
    /** The pending update's result, once it has completed; null between calls. */
    var updateServerFuture: Option<bool>

    constructor (version: string, cachePath: Path)
      ensures this.version == version && this.cachePath == cachePath && updateServerFuture.None?
    {
      this.version := version;
      this.cachePath := cachePath;
      updateServerFuture := None;
    }

    /** The constructor's loop over the walk `nodes`: a missing vanilla.version is an InvalidTemplateException. */
    static method Load(nodes: seq<Json>, cachePath: Path) returns (r: Result<VanillaTemplate>)
      ensures r.Err? <==> VersionOf(nodes).Err?
      ensures r.Err? ==> r.error == InvalidTemplate
      ensures r.Ok? ==>
        fresh(r.value) && r.value.version == VersionOf(nodes).value &&
        r.value.cachePath == cachePath && r.value.updateServerFuture.None?
    {
      var version := ScanFirst(nodes, "vanilla", "version");
      if version.None? {
        return Err(InvalidTemplate);
      }
      var t := new VanillaTemplate(version.value, cachePath);
      return Ok(t);
    }

    /**
     * downloadServer(file): the server manifest is looked up in `versions`
     * (no match is an IOException), then fetched with outcome `fetched`.
     */
    method DownloadServer(fs: FileSystem, file: Path, versions: seq<ManifestEntry>, fetched: bool) returns (outcome: Outcome)
      requires file !in fs.paths
      modifies fs
      ensures (if outcome.Pass? then Ok(true) else Err(outcome.error), fs.paths) ==
        Fetch(old(fs.paths), file, ManifestUrl(versions, version).Some? && fetched)
    {
      var url := SelectServerManifest(versions, version);
      if url.None? || !fetched {
        return Fail(IOFailure);
      }
      fs.Create(file);
      return Pass;
    }

    /** updateServer(), with `patched` the outcome of the VanillaCord patch. */
    method UpdateServer(fs: FileSystem, versions: seq<ManifestEntry>, fetched: bool, patched: bool) returns (r: Result<bool>)
      modifies fs
      ensures (r, fs.paths) == Update(old(fs.paths), CacheDir(cachePath, version), ManifestUrl(versions, version).Some? && fetched, patched)
    {
      var changed := false;
      var dir := CacheDir(cachePath, version);
      fs.Create(dir);
      var vanillaServer := Original(dir);
      if vanillaServer !in fs.paths {
        var downloaded := DownloadServer(fs, vanillaServer, versions, fetched);
        if downloaded.Fail? {
          return Err(downloaded.error);
        }
        changed := true;
      }
      var patchedServer := Patched(dir);
      if patchedServer !in fs.paths {
        if !patched {
          return Err(IOFailure);
        }
        fs.Create(patchedServer);
        changed := true;
      }
      return Ok(changed);
    }

    /**
     * prepareServer(server): runs updateServer when no update is pending,
     * an IOException counting as "no change"; copies the patched jar into
     * the instance only when the update reported a change; always clears
     * the pending handle.
     */
    method PrepareServer(fs: FileSystem, serverPath: Path, versions: seq<ManifestEntry>, fetched: bool, patched: bool)
      returns (outcome: Outcome)
      modifies this, fs
      ensures updateServerFuture.None?
      ensures old(updateServerFuture).None? ==>
        var u := Update(old(fs.paths), CacheDir(cachePath, version), ManifestUrl(versions, version).Some? && fetched, patched);
        if u.0 == Ok(true) then outcome.Pass? && fs.paths == u.1 + {Executable(serverPath)}
        else outcome.Pass? && fs.paths == u.1
    {
      if updateServerFuture.None? {
        var updated := UpdateServer(fs, versions, fetched, patched);
        updateServerFuture := Some(updated == Ok(true));
      }
      var changed := updateServerFuture.value;
      updateServerFuture := None;
      if changed {
        var dir := CacheDir(cachePath, version);
        if Patched(dir) !in fs.paths {
          return Fail(IOFailure);
        }
        fs.Create(Executable(serverPath));
      }
      return Pass;
    }
  }
}
