/**
 * LocalTemplateLoader: finds template manifests under the template root and
 * indexes the directories holding them by the manifest's "name".
 */
module LocalTemplateLoaders {
  import opened Wrappers
  import opened Json
  import opened Discovery

  /**
   * A directory of the walk that holds a manifest, in walk order, with the
   * parsed manifest, or None when reading or parsing it failed.
   */
  datatype Candidate = Candidate(path: Path, manifest: Option<Json>)

  /** The directories of the candidates, in order. */
  function Paths(cands: seq<Candidate>): (r: seq<Path>)
    ensures |r| == |cands| && forall i :: 0 <= i < |cands| ==> r[i] == cands[i].path
  {
    seq(|cands|, i requires 0 <= i < |cands| => cands[i].path)
  }

  /** Candidate j is taken by the walk, read, and names itself `name`. */
  predicate NamedAt(cands: seq<Candidate>, j: nat, name: string)
    requires j < |cands|
  {
    IsTaken(Paths(cands), j) && cands[j].manifest.Some? &&
    Has(cands[j].manifest.value, "name") && AsText(Get(cands[j].manifest.value, "name").value) == name
  }

  /** The name index after the first n candidates: each taken, named manifest overwrites its name's entry. */
  function Index(cands: seq<Candidate>, n: nat): map<string, Path>
    requires n <= |cands|
  {
    if n == 0 then map[]
    else
      var prev := Index(cands, n - 1);
      var c := cands[n - 1];
      if IsTaken(Paths(cands), n - 1) && c.manifest.Some? && Has(c.manifest.value, "name")
      then prev[AsText(Get(c.manifest.value, "name").value) := c.path]
      else prev
  }

  /** The directory last taken among the first n candidates (the loop's lastPath). */
  function LastPath(cands: seq<Candidate>, n: nat): Option<Path>
    requires n <= |cands|
  {
    match LastTaken(Paths(cands), n)
    case None => None
    case Some(l) => Some(cands[l].path)
  }

  /**
   * findTemplatesByName(search): nothing when the root does not exist;
   * otherwise the walk's candidates indexed by name. `search` is not read.
   */
  method FindTemplatesByName(rootExists: bool, cands: seq<Candidate>, search: string)
    returns (result: map<string, Path>)
    ensures !rootExists ==> result == map[]
    ensures rootExists ==> result == Index(cands, |cands|)
  {
    result := map[];
    if !rootExists {
      return;
    }
    var lastPath: Option<Path> := None;
    var i := 0;
    while i < |cands|
      invariant i <= |cands|
      invariant lastPath == LastPath(cands, i)
      invariant result == Index(cands, i)
      decreases |cands| - i
    {
      var c := cands[i];
      if lastPath.None? || !StartsWith(c.path, lastPath.value) {
        assert IsTaken(Paths(cands), i);
        lastPath := Some(c.path);
        if c.manifest.Some? && Has(c.manifest.value, "name") {
          result := result[AsText(Get(c.manifest.value, "name").value) := c.path];
        }
      } else {
        assert !IsTaken(Paths(cands), i);
      }
      i := i + 1;
    }
  }

  /** Some taken, read candidate among the first n names itself `name`. */
  predicate NamedBefore(cands: seq<Candidate>, n: nat, name: string)
    requires n <= |cands|
  {
    exists j :: 0 <= j < n && NamedAt(cands, j, name)
  }

  /** Candidate j is the last among the first n to name itself `name`. */
  predicate LastNamedAt(cands: seq<Candidate>, n: nat, name: string, j: nat)
    requires j < n <= |cands|
  {
    NamedAt(cands, j, name) && forall k :: j < k < n ==> !NamedAt(cands, k, name)
  }

  /** One candidate more changes the entry of `name` only when that candidate names itself `name`. */
  lemma IndexStep(cands: seq<Candidate>, n: nat, name: string)
    requires 0 < n <= |cands|
    ensures NamedAt(cands, n - 1, name) ==> name in Index(cands, n) && Index(cands, n)[name] == cands[n - 1].path
    ensures !NamedAt(cands, n - 1, name) ==>
      (name in Index(cands, n) <==> name in Index(cands, n - 1)) &&
      (name in Index(cands, n) ==> Index(cands, n)[name] == Index(cands, n - 1)[name])
  {
  }

  /** A candidate that does not name itself `name` keeps the last one that did. */
  lemma LastNamedExtends(cands: seq<Candidate>, n: nat, name: string, j: nat)
    requires j < n - 1 && n <= |cands|
    requires LastNamedAt(cands, n - 1, name, j) && !NamedAt(cands, n - 1, name)
    ensures LastNamedAt(cands, n, name, j)
  {
    forall k | j < k < n
      ensures !NamedAt(cands, k, name)
    {
      if k < n - 1 {
        assert !NamedAt(cands, k, name);
      }
    }
  }

  /**
   * The index holds exactly the names of taken, readable manifests that have
   * one, and each maps to the directory of the last such manifest.
   */
  lemma {:induction false} IndexContents(cands: seq<Candidate>, n: nat, name: string)
    requires n <= |cands|
    ensures name in Index(cands, n) <==> NamedBefore(cands, n, name)
    ensures name in Index(cands, n) ==>
      exists j :: 0 <= j < n && LastNamedAt(cands, n, name, j) && Index(cands, n)[name] == cands[j].path
  {
    if n > 0 {
      IndexContents(cands, n - 1, name);
      IndexStep(cands, n, name);
      if NamedAt(cands, n - 1, name) {
        assert LastNamedAt(cands, n, name, n - 1);
      } else {
        if NamedBefore(cands, n, name) {
          var j :| 0 <= j < n && NamedAt(cands, j, name);
          assert j < n - 1;
        }
        if NamedBefore(cands, n - 1, name) {
          var j :| 0 <= j < n - 1 && NamedAt(cands, j, name);
        }
        if name in Index(cands, n - 1) {
          var j :| 0 <= j < n - 1 && LastNamedAt(cands, n - 1, name, j) && Index(cands, n - 1)[name] == cands[j].path;
          LastNamedExtends(cands, n, name, j);
        }
      }
    }
  }

  /** Every indexed directory was taken by the walk: j is the candidate it came from. */
  lemma IndexedPathTaken(cands: seq<Candidate>, n: nat, name: string) returns (j: nat)
    requires n <= |cands| && name in Index(cands, n)
    ensures j < n && IsTaken(Paths(cands), j) && Index(cands, n)[name] == cands[j].path
  {
    IndexContents(cands, n, name);
    j :| 0 <= j < n && LastNamedAt(cands, n, name, j) && Index(cands, n)[name] == cands[j].path;
  }

  /**
   * On a pre-order walk no two indexed directories are nested: a template
   * directory's own nested manifests never appear.
   */
  lemma IndexNotNested(cands: seq<Candidate>, a: string, b: string)
    requires PreOrder(Paths(cands))
    requires a in Index(cands, |cands|) && b in Index(cands, |cands|)
    requires Index(cands, |cands|)[a] != Index(cands, |cands|)[b]
    ensures !StartsWith(Index(cands, |cands|)[a], Index(cands, |cands|)[b])
  {
    var i := IndexedPathTaken(cands, |cands|, a);
    var j := IndexedPathTaken(cands, |cands|, b);
    TakenApart(Paths(cands), i, j);
  }

  /**
   * A manifest without a name is not indexed, but its directory is still
   * taken and prunes the named manifest below it.
   */
  lemma UnnamedManifestStillPrunes()
    ensures var cands := [Candidate(["t"], Some(JObject([]))),
                          Candidate(["t", "sub"], Some(JObject([("name", JText("a:b@1"))])))];
      Index(cands, 2) == map[]
  {
    var cands := [Candidate(["t"], Some(JObject([]))),
                  Candidate(["t", "sub"], Some(JObject([("name", JText("a:b@1"))])))];
    assert IsTaken(Paths(cands), 0);
    assert LastTaken(Paths(cands), 1) == Some(0);
    assert StartsWith(["t", "sub"], ["t"]) by {
      assert ["t", "sub"][1..] == ["sub"];
      assert ["t"][1..] == [];
    }
    assert !IsTaken(Paths(cands), 1);
  }

  /** loadTemplate(name): always null. */
  function LoadTemplate<T>(name: string): Option<T> {
    None
  }
}
