/**
 * LocalTemplateDefinition: a template found on disk, identified by the full
 * name in its manifest, `type:name@version`, split by the pattern
 * `([^:]+):([^@]+)@(.+)` under Matcher.find.
 */
module LocalTemplateDefinitions {
  import opened Wrappers
  import opened Json

  /** The characters `.` does not match without DOTALL: Java's line terminators. */
  predicate LineTerminator(c: char) {
    c == '\n' || c == '\r' || c == '\U{0085}' || c == '\U{2028}' || c == '\U{2029}'
  }

  /**
   * The first index at or after k holding `stop`, or |s|: where a greedy
   * `[^stop]+` group starting at k ends (`[^:]+` and `[^@]+`).
   */
  function RunFrom(s: string, k: nat, stop: char): (r: nat)
    requires k <= |s|
    ensures k <= r <= |s|
    decreases |s| - k
  {
    if k == |s| || s[k] == stop then k else RunFrom(s, k + 1, stop)
  }

  /** The first index at or after k holding a line terminator, or |s|. */
  function LineEndFrom(s: string, k: nat): (r: nat)
    requires k <= |s|
    ensures k <= r <= |s|
    decreases |s| - k
  {
    if k == |s| || LineTerminator(s[k]) then k else LineEndFrom(s, k + 1)
  }

  /** The three groups of a match. */
  datatype FullName = FullName(templateType: string, name: string, version: string)

  /**
   * The match starting exactly at i, if any. Each group takes the longest
   * run its class allows, and giving characters back can never let the next
   * literal match, so this greedy reading is the regex's only one.
   */
  function MatchAt(s: string, i: nat): (r: Option<FullName>)
    requires i <= |s|
    ensures r.Some? ==> r.value.templateType != [] && r.value.name != [] && r.value.version != []
  {
    var c := RunFrom(s, i, ':');
    if c == i || c == |s| then None
    else
      var a := RunFrom(s, c + 1, '@');
      if a == c + 1 || a == |s| then None
      else
        var e := LineEndFrom(s, a + 1);
        if e == a + 1 then None else Some(FullName(s[i..c], s[c + 1..a], s[a + 1..e]))
  }

  /** Matcher.find from index i: the leftmost start at or after i where the pattern matches. */
  function Find(s: string, i: nat): Option<FullName>
    requires i <= |s|
    decreases |s| - i
  {
    if i == |s| then None
    else
      match MatchAt(s, i)
      case Some(m) => Some(m)
      case None => Find(s, i + 1)
  }

  lemma {:induction false} RunFromStops(s: string, k: nat, j: nat, stop: char)
    requires k <= j < |s| && s[j] == stop
    requires forall x :: k <= x < j ==> s[x] != stop
    ensures RunFrom(s, k, stop) == j
    decreases j - k
  {
    if k < j {
      RunFromStops(s, k + 1, j, stop);
    }
  }

  lemma {:induction false} LineEndFromRun(s: string, k: nat)
    requires k <= |s|
    requires forall x :: k <= x < |s| ==> !LineTerminator(s[x])
    ensures LineEndFrom(s, k) == |s|
    decreases |s| - k
  {
    if k < |s| {
      LineEndFromRun(s, k + 1);
    }
  }

  /** A well-formed single-line type (no ':'), name (no '@') and version. */
  predicate WellFormed(t: string, n: string, v: string) {
    t != [] && n != [] && v != [] &&
    (forall x :: 0 <= x < |t| ==> t[x] != ':') &&
    (forall x :: 0 <= x < |n| ==> n[x] != '@') &&
    (forall x :: 0 <= x < |v| ==> !LineTerminator(v[x]))
  }

  /**
   * Splitting a composed full name gives its parts back: the type is the
   * text before the first ':', the name runs to the next '@' (and may hold
   * further colons), the version is the rest.
   */
  lemma SplitCompose(t: string, n: string, v: string)
    requires WellFormed(t, n, v)
    ensures Find(t + ":" + n + "@" + v, 0) == Some(FullName(t, n, v))
  {
    var s := t + ":" + n + "@" + v;
    ComposedLayout(t, n, v, s);
    FindFromLayout(s, |t|, |t| + 1 + |n|);
  }

  /** A text with a ':' after a colon-free start and then an '@' after an '@'-free run matches at 0. */
  lemma FindFromLayout(s: string, c: nat, a: nat)
    requires 0 < c && c + 1 < a && a + 1 < |s| && s[c] == ':' && s[a] == '@'
    requires forall x :: 0 <= x < c ==> s[x] != ':'
    requires forall x :: c + 1 <= x < a ==> s[x] != '@'
    requires forall x :: a + 1 <= x < |s| ==> !LineTerminator(s[x])
    ensures Find(s, 0) == Some(FullName(s[0..c], s[c + 1..a], s[a + 1..|s|]))
  {
    MatchAtLayout(s, c, a);
  }

  /** The same layout, as a match at 0. */
  lemma MatchAtLayout(s: string, c: nat, a: nat)
    requires 0 < c && c + 1 < a && a + 1 < |s| && s[c] == ':' && s[a] == '@'
    requires forall x :: 0 <= x < c ==> s[x] != ':'
    requires forall x :: c + 1 <= x < a ==> s[x] != '@'
    requires forall x :: a + 1 <= x < |s| ==> !LineTerminator(s[x])
    ensures MatchAt(s, 0) == Some(FullName(s[0..c], s[c + 1..a], s[a + 1..|s|]))
  {
    RunFromStops(s, 0, c, ':');
    RunFromStops(s, c + 1, a, '@');
    LineEndFromRun(s, a + 1);
  }

  /** Where the parts of a composed full name sit, and what lies between the separators. */
  lemma ComposedLayout(t: string, n: string, v: string, s: string)
    requires WellFormed(t, n, v) && s == t + ":" + n + "@" + v
    ensures |s| == |t| + |n| + |v| + 2
    ensures s[|t|] == ':' && s[|t| + 1 + |n|] == '@'
    ensures forall x :: 0 <= x < |t| ==> s[x] != ':'
    ensures forall x :: |t| + 1 <= x < |t| + 1 + |n| ==> s[x] != '@'
    ensures forall x :: |t| + |n| + 2 <= x < |s| ==> !LineTerminator(s[x])
    ensures s[0..|t|] == t && s[|t| + 1..|t| + 1 + |n|] == n && s[|t| + |n| + 2..|s|] == v
  {
    var c := |t|;
    var a := c + 1 + |n|;
    assert forall x :: 0 <= x < c ==> s[x] == t[x];
    assert forall x :: c + 1 <= x < a ==> s[x] == n[x - c - 1];
    assert forall x :: a + 1 <= x < |s| ==> s[x] == v[x - a - 1];
  }

  /** The group runs to the first `stop` at or after k, or to the end. */
  lemma {:induction false} RunFromSkips(s: string, k: nat, stop: char)
    requires k <= |s|
    ensures forall x :: k <= x < RunFrom(s, k, stop) ==> s[x] != stop
    ensures RunFrom(s, k, stop) < |s| ==> s[RunFrom(s, k, stop)] == stop
    decreases |s| - k
  {
    if k < |s| && s[k] != stop {
      RunFromSkips(s, k + 1, stop);
    }
  }

  lemma {:induction false} LineEndFromSkips(s: string, k: nat)
    requires k <= |s|
    ensures forall x :: k <= x < LineEndFrom(s, k) ==> !LineTerminator(s[x])
    decreases |s| - k
  {
    if k < |s| && !LineTerminator(s[k]) {
      LineEndFromSkips(s, k + 1);
    }
  }

  /** The composed text of a full name. */
  function Compose(m: FullName): string {
    m.templateType + ":" + m.name + "@" + m.version
  }

  /** The composed full name m is the text of s starting at j. */
  predicate OccursAt(s: string, j: nat, m: FullName) {
    j + |Compose(m)| <= |s| && s[j..j + |Compose(m)|] == Compose(m)
  }

  /** A match found at i is well formed and is exactly the text at i. */
  lemma MatchAtSound(s: string, i: nat)
    requires i <= |s| && MatchAt(s, i).Some?
    ensures var m := MatchAt(s, i).value;
      WellFormed(m.templateType, m.name, m.version) && OccursAt(s, i, m)
  {
    var c := RunFrom(s, i, ':');
    RunFromSkips(s, i, ':');
    var a := RunFrom(s, c + 1, '@');
    RunFromSkips(s, c + 1, '@');
    var e := LineEndFrom(s, a + 1);
    LineEndFromSkips(s, a + 1);
    assert MatchAt(s, i).value == FullName(s[i..c], s[c + 1..a], s[a + 1..e]);
    SliceAround(s, i, c, a, e);
  }

  /** A slice cut at two separators. */
  lemma SliceAround(s: string, i: nat, c: nat, a: nat, e: nat)
    requires i <= c < a < e <= |s|
    ensures s[i..e] == s[i..c] + [s[c]] + s[c + 1..a] + [s[a]] + s[a + 1..e]
  {
    assert s[i..e] == s[i..c] + s[c..e];
    assert s[c..e] == [s[c]] + s[c + 1..a] + s[a..e];
    assert s[a..e] == [s[a]] + s[a + 1..e];
  }

  /**
   * Whatever find returns is a well-formed full name that occurs in the
   * text at or after the start.
   */
  lemma {:induction false} FindSound(s: string, i: nat)
    requires i <= |s| && Find(s, i).Some?
    ensures var m := Find(s, i).value;
      WellFormed(m.templateType, m.name, m.version) &&
      exists j :: i <= j && OccursAt(s, j, m)
    decreases |s| - i
  {
    if MatchAt(s, i).Some? {
      MatchAtSound(s, i);
    } else {
      FindSound(s, i + 1);
      var m := Find(s, i + 1).value;
      var j :| i + 1 <= j && OccursAt(s, j, m);
      assert i <= j;
    }
  }

  /** The match is leftmost: a leading ':' is skipped over rather than rejected. */
  lemma LeadingColonSkipped()
    ensures Find(":a:b@1", 0) == Some(FullName("a", "b", "1"))
  {
    var s := ":a:b@1";
    assert MatchAt(s, 0).None?;
    assert RunFrom(s, 1, ':') == 2;
    assert RunFrom(s, 3, '@') == 4;
    assert LineEndFrom(s, 5) == 6;
    assert s[1..2] == "a" && s[3..4] == "b" && s[5..6] == "1";
  }

  /** The version stops at the first line break. */
  lemma VersionStopsAtLineBreak()
    ensures Find("a:b@1\n2", 0) == Some(FullName("a", "b", "1"))
  {
    var s := "a:b@1\n2";
    assert RunFrom(s, 0, ':') == 1;
    assert RunFrom(s, 2, '@') == 3;
    assert LineEndFrom(s, 4) == 5;
    assert s[0..1] == "a" && s[2..3] == "b" && s[4..5] == "1";
  }

  /** Without an '@' after the colon there is no match at any start. */
  lemma MissingVersionNoMatch()
    ensures Find("a:b", 0).None?
  {
    var s := "a:b";
    assert MatchAt(s, 0).None? by { assert RunFrom(s, 0, ':') == 1; assert RunFrom(s, 2, '@') == 3; }
    assert MatchAt(s, 1).None?;
    assert MatchAt(s, 2).None?;
  }

  /**
   * The fields the constructor computes. The version is kept as text: the
   * Version type it is parsed into is not part of this model.
   */
  datatype LocalTemplateDefinition = LocalTemplateDefinition(
    rootNode: Json,
    fullName: string,
    templateType: string,
    name: string,
    version: string,
    description: string)

  /**
   * The constructor over the parsed manifest: a missing "name" is a null
   * dereference, a name the pattern does not match an InvalidTemplateException.
   */
  function NewDefinition(root: Json): (r: Result<LocalTemplateDefinition>)
    ensures r.Err? ==> r.error == NullDereference || r.error == InvalidTemplate
  {
    match Get(root, "name")
    case None => Err(NullDereference)
    case Some(nameNode) =>
      var fullName := AsText(nameNode);
      match Find(fullName, 0)
      case None => Err(InvalidTemplate)
      case Some(m) =>
        var description := match Get(root, "description") case Some(d) => AsText(d) case None => "";
        Ok(LocalTemplateDefinition(root, fullName, m.templateType, m.name, m.version, description))
  }

  /**
   * A manifest named `type:name@version` yields a definition with exactly
   * those parts; one without a name, or with a name the pattern rejects,
   * yields the corresponding error.
   */
  lemma NewDefinitionParts(root: Json, t: string, n: string, v: string)
    requires WellFormed(t, n, v)
    requires Get(root, "name") == Some(JText(t + ":" + n + "@" + v))
    ensures NewDefinition(root).Ok?
    ensures var d := NewDefinition(root).value;
      d.fullName == t + ":" + n + "@" + v && d.templateType == t && d.name == n && d.version == v && d.rootNode == root
  {
    SplitCompose(t, n, v);
  }

  lemma NewDefinitionErrors(root: Json)
    ensures !Has(root, "name") ==> NewDefinition(root) == Err(NullDereference)
    ensures Has(root, "name") && Find(AsText(Get(root, "name").value), 0).None? ==> NewDefinition(root) == Err(InvalidTemplate)
  {
  }

  /** getDescription(): null. */
  function GetDescription(d: LocalTemplateDefinition): Option<string> {
    None
  }

  /**
   * The constructor reads the manifest's description (or "") into its
   * field, but getDescription never returns it.
   */
  lemma DescriptionNeverReturned(root: Json)
    requires NewDefinition(root).Ok?
    ensures Has(root, "description") ==> NewDefinition(root).value.description == AsText(Get(root, "description").value)
    ensures !Has(root, "description") ==> NewDefinition(root).value.description == ""
    ensures GetDescription(NewDefinition(root).value).None?
  {
  }

  /** getData(): the parsed manifest, unchanged. */
  function GetData(d: LocalTemplateDefinition): Json {
    d.rootNode
  }

  /** The data handed out is the manifest the definition was built from. */
  lemma GetDataIsManifest(root: Json)
    requires NewDefinition(root).Ok?
    ensures GetData(NewDefinition(root).value) == root
  {
  }
}
