/**
 * The parts of the file system the server code tests and creates: which
 * files and directories exist, each named by its path components.
 */
module FileStore {
  import opened Wrappers
  /** A path as its components; Path.startsWith compares whole components. */
  type Path = seq<string>

  /** Files.exists over the paths that exist. */
  class FileSystem {
    var paths: set<Path>

    constructor (paths: set<Path>)
      ensures this.paths == paths
    {
      this.paths := paths;
    }

    /** Files.createDirectories / a file written: the path exists afterwards. */
    method Create(p: Path)
      modifies this
      ensures paths == old(paths) + {p}
    {
      paths := paths + {p};
    }
  }

  /**
   * "if (!Files.exists(file)) { produce(file); changed = true; }": the
   * outcome and the paths afterwards, where `produced` says whether the
   * download or build that makes the file succeeds; when it fails the
   * IOException propagates and nothing is added.
   */
  function Fetch(paths: set<Path>, file: Path, produced: bool): (Result<bool>, set<Path>) {
    if file in paths then (Ok(false), paths)
    else if produced then (Ok(true), paths + {file})
    else (Err(IOFailure), paths)
  }

  /** FileUtils.copyFile(src, dst): a missing source is an IOException. */
  function Copy(paths: set<Path>, src: Path, dst: Path): Result<set<Path>> {
    if src in paths then Ok(paths + {dst}) else Err(IOFailure)
  }

  /** A file that exists is never fetched again: the step reports no change and adds nothing. */
  lemma FetchPresent(paths: set<Path>, file: Path, produced: bool)
    requires file in paths
    ensures Fetch(paths, file, produced) == (Ok(false), paths)
  {
  }

  /** Fetching changes something exactly when the file was missing, and on success the file exists. */
  lemma FetchChangedIffMissing(paths: set<Path>, file: Path, produced: bool)
    ensures Fetch(paths, file, produced).0.Ok? ==>
      (Fetch(paths, file, produced).0.value <==> file !in paths) && file in Fetch(paths, file, produced).1
    ensures Fetch(paths, file, produced).0.Err? <==> file !in paths && !produced
    ensures paths <= Fetch(paths, file, produced).1
  {
  }
}
