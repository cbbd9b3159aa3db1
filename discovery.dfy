/**
 * Manifest discovery, shared by the template loader and the server manager:
 * walking a directory tree, a directory holding a manifest is taken as a
 * leaf, and any manifest directory below the last one taken is skipped.
 */
module Discovery {
  import opened Wrappers

  /** A path as its sequence of name components. */
  type Path = seq<string>

  /** Path.startsWith: `prefix` is a leading run of p's components. */
  predicate StartsWith(p: Path, prefix: Path) {
    prefix == [] || (p != [] && p[0] == prefix[0] && StartsWith(p[1..], prefix[1..]))
  }

  /** Every path starts with itself. */
  lemma {:induction false} StartsWithReflexive(p: Path)
    ensures StartsWith(p, p)
  {
    if p != [] {
      StartsWithReflexive(p[1..]);
    }
  }

  /** StartsWith is the component-wise prefix relation. */
  lemma {:induction false} StartsWithIsPrefix(p: Path, prefix: Path)
    ensures StartsWith(p, prefix) <==> |prefix| <= |p| && p[..|prefix|] == prefix
  {
    if prefix != [] && p != [] {
      StartsWithIsPrefix(p[1..], prefix[1..]);
      if |prefix| <= |p| && p[..|prefix|] == prefix {
        assert p[1..][..|prefix| - 1] == p[..|prefix|][1..];
      }
      if StartsWith(p, prefix) {
        assert p[..|prefix|] == [p[0]] + p[1..][..|prefix| - 1];
      }
    }
  }

  /**
   * Whether the walk takes candidate k: nothing was taken before it, or it
   * does not lie under the directory taken last.
   */
  predicate IsTaken(paths: seq<Path>, k: nat)
    requires k < |paths|
    decreases k, 1
  {
    var last := LastTaken(paths, k);
    last.None? || !StartsWith(paths[k], paths[last.value])
  }

  /** The index of the last candidate taken among the first n, if any (the loop's lastPath). */
  function LastTaken(paths: seq<Path>, n: nat): (r: Option<nat>)
    requires n <= |paths|
    ensures r.Some? ==> r.value < n
    decreases n, 0
  {
    if n == 0 then None
    else if IsTaken(paths, n - 1) then Some(n - 1)
    else LastTaken(paths, n - 1)
  }

  /** LastTaken names the latest taken candidate, and none is taken when it is null. */
  lemma {:induction false} LastTakenIsLatest(paths: seq<Path>, n: nat)
    requires n <= |paths|
    ensures LastTaken(paths, n).None? ==> forall k :: 0 <= k < n ==> !IsTaken(paths, k)
    ensures LastTaken(paths, n).Some? ==>
      var l := LastTaken(paths, n).value;
      IsTaken(paths, l) && forall k :: l < k < n ==> !IsTaken(paths, k)
  {
    if n > 0 {
      LastTakenIsLatest(paths, n - 1);
    }
  }

  /**
   * What Files.walk guarantees of the candidate list: each directory once, a
   * directory before everything below it, and a directory's subtree listed
   * without interruption.
   */
  predicate PreOrder(paths: seq<Path>) {
    (forall i, j :: 0 <= i < j < |paths| ==> !StartsWith(paths[i], paths[j])) &&
    (forall i, j, k :: 0 <= i < j < k < |paths| && StartsWith(paths[k], paths[i]) ==> StartsWith(paths[j], paths[i]))
  }

  /** A skipped candidate lies under a directory taken before it: only nested manifests are pruned. */
  lemma SkippedLiesUnderTaken(paths: seq<Path>, k: nat)
    requires k < |paths| && !IsTaken(paths, k)
    ensures LastTaken(paths, k).Some?
    ensures var l := LastTaken(paths, k).value; l < k && IsTaken(paths, l) && StartsWith(paths[k], paths[l])
  {
    LastTakenIsLatest(paths, k);
  }

  /**
   * On a pre-order walk no taken directory lies under another taken one,
   * in either order.
   */
  lemma {:induction false} TakenNotNested(paths: seq<Path>, a: nat, b: nat)
    requires PreOrder(paths)
    requires a < b < |paths| && IsTaken(paths, a) && IsTaken(paths, b)
    ensures !StartsWith(paths[b], paths[a]) && !StartsWith(paths[a], paths[b])
    decreases b
  {
    LastTakenIsLatest(paths, b);
    var last := LastTaken(paths, b);
    if last.Some? && last.value != a {
      var l := last.value;
      assert a < l;
      TakenNotNested(paths, a, l);
    }
  }

  /** No taken directory lies under a different taken one, whichever comes first. */
  lemma TakenApart(paths: seq<Path>, a: nat, b: nat)
    requires PreOrder(paths)
    requires a < |paths| && b < |paths| && a != b && IsTaken(paths, a) && IsTaken(paths, b)
    ensures !StartsWith(paths[a], paths[b])
  {
    if a < b {
      TakenNotNested(paths, a, b);
    } else {
      TakenNotNested(paths, b, a);
    }
  }
}
