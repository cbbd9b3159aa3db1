/**
 * SimpleTemplater: `{{ name }}` placeholder substitution over a mutable
 * variable map. A pass replaces every bound placeholder by its value; passes
 * repeat on their own output until one finds nothing bound, at most 20 times.
 */
module SimpleTemplater {
  import opened Wrappers

  /** replace gives up after this many passes that still substitute. */
  const MaxTries: nat := 20

  /** A placeholder found at some start: the captured name and the index just past `}}`. */
  datatype Match = Match(name: string, text: string, end: nat)

  /** The index of the first character at or after k that is not a space. */
  function SpacesEnd(s: string, k: nat): (j: nat)
    requires k <= |s|
    ensures k <= j <= |s|
    decreases |s| - k
  {
    if k < |s| && s[k] == ' ' then SpacesEnd(s, k + 1) else k
  }

  /** Characters allowed in a placeholder name: the class `[^} ]`. */
  predicate NameChar(c: char) {
    c != '}' && c != ' '
  }

  /** The index of the first character at or after k that cannot be part of a name. */
  function NameEnd(s: string, k: nat): (j: nat)
    requires k <= |s|
    ensures k <= j <= |s|
    decreases |s| - k
  {
    if k < |s| && NameChar(s[k]) then NameEnd(s, k + 1) else k
  }

  /**
   * The match of the pattern `\{\{ *([^} ]+) *}}` that starts exactly at i,
   * if any. Backtracking cannot help this pattern, so the greedy scan below is
   * the regex's answer.
   */
  function MatchAt(s: string, i: nat): (r: Option<Match>)
    requires i <= |s|
    ensures r.Some? ==> i + 5 <= r.value.end <= |s| && r.value.name != []
  {
    if i + 2 <= |s| && s[i] == '{' && s[i + 1] == '{' then
      var j := SpacesEnd(s, i + 2);
      var k := NameEnd(s, j);
      if k == j then None
      else
        var l := SpacesEnd(s, k);
        if l + 2 <= |s| && s[l] == '}' && s[l + 1] == '}' then Some(Match(s[j..k], s[i..l + 2], l + 2)) else None
    else None
  }

  /** The value a name is bound to; an absent key and a null value both give None. */
  function Lookup(vars: map<string, Option<string>>, name: string): Option<string> {
    if name in vars then vars[name] else None
  }

  /** The text a match is replaced by: the bound value, or the matched text itself when unbound. */
  function Substitute(vars: map<string, Option<string>>, m: Match): string {
    Lookup(vars, m.name).GetOr(m.text)
  }

  /** Where the scan resumes after position i: past the match there, or the next character. */
  function Next(s: string, i: nat): (j: nat)
    requires i < |s|
    ensures i < j <= |s|
  {
    match MatchAt(s, i)
    case Some(m) => m.end
    case None => i + 1
  }

  /** What a pass emits for position i: the match's substitution, or the character itself. */
  function Chunk(vars: map<string, Option<string>>, s: string, i: nat): string
    requires i < |s|
  {
    match MatchAt(s, i)
    case Some(m) => Substitute(vars, m)
    case None => [s[i]]
  }

  /** Whether position i starts a placeholder whose name is bound. */
  predicate Hit(vars: map<string, Option<string>>, s: string, i: nat)
    requires i < |s|
  {
    match MatchAt(s, i)
    case Some(m) => Lookup(vars, m.name).Some?
    case None => false
  }

  /**
   * The text one pass produces from s[i..]: each match found scanning left to
   * right is replaced by its bound value, or copied when unbound.
   */
  function PassText(vars: map<string, Option<string>>, s: string, i: nat): string
    requires i <= |s|
    decreases |s| - i
  {
    if i == |s| then "" else Chunk(vars, s, i) + PassText(vars, s, Next(s, i))
  }

  /** Whether one pass over s[i..] meets a bound placeholder. */
  predicate PassFound(vars: map<string, Option<string>>, s: string, i: nat)
    requires i <= |s|
    decreases |s| - i
  {
    i < |s| && (Hit(vars, s, i) || PassFound(vars, s, Next(s, i)))
  }

  /** One step of a pass: the chunk at i, then the pass from where the scan resumes. */
  lemma PassStep(vars: map<string, Option<string>>, s: string, i: nat)
    requires i < |s|
    ensures PassText(vars, s, i) == Chunk(vars, s, i) + PassText(vars, s, Next(s, i))
    ensures PassFound(vars, s, i) <==> Hit(vars, s, i) || PassFound(vars, s, Next(s, i))
  {
  }

  /**
   * One pass of replace's loop body (appendReplacement for each match, then
   * appendTail), over an unchanging snapshot of the variables.
   */
  method ScanPass(vars: map<string, Option<string>>, s: string) returns (out: string, found: bool)
    ensures out == PassText(vars, s, 0)
    ensures found == PassFound(vars, s, 0)
  {
    out := "";
    found := false;
    var i: nat := 0;
    while i < |s|
      invariant i <= |s|
      invariant out + PassText(vars, s, i) == PassText(vars, s, 0)
      invariant PassFound(vars, s, 0) <==> found || PassFound(vars, s, i)
      decreases |s| - i
    {
      out, found, i := ScanStep(vars, s, i, out, found);
    }
  }

  /** The body of the pass loop at position i: the chunk emitted there, and where the scan resumes. */
  method ScanStep(vars: map<string, Option<string>>, s: string, i: nat, out: string, found: bool)
    returns (out2: string, found2: bool, next: nat)
    requires i < |s|
    ensures i < next <= |s|
    ensures out2 + PassText(vars, s, next) == out + PassText(vars, s, i)
    ensures found2 || PassFound(vars, s, next) <==> found || PassFound(vars, s, i)
  {
    var chunk, hit := Chunk(vars, s, i), Hit(vars, s, i);
    next := Next(s, i);
    PassStep(vars, s, i);
    ghost var rest := PassText(vars, s, next);
    assert (out + chunk) + rest == out + (chunk + rest);
    out2 := out + chunk;
    found2 := found || hit;
  }

  /** What replace returns, or the error it throws, given `tries` passes left. */
  function Render(vars: map<string, Option<string>>, s: string, tries: nat): Result<string>
    decreases tries
  {
    if tries == 0 then Err(TooManyRecursions)
    else
      if !PassFound(vars, s, 0) then Ok(s) else Render(vars, PassText(vars, s, 0), tries - 1)
  }

  /** What process writes for the given lines, and how it ends. */
  function ProcessLines(vars: map<string, Option<string>>, lines: seq<string>, newline: string): (string, Outcome)
  {
    if lines == [] then ("", Pass)
    else
      match Render(vars, lines[0], MaxTries)
      case Err(e) => ("", Fail(e))
      case Ok(t) =>
        var rest := ProcessLines(vars, lines[1..], newline);
        (t + newline + rest.0, rest.1)
  }

  /** A chunk that substitutes nothing is the scanned text itself. */
  lemma UnboundChunkCopies(vars: map<string, Option<string>>, s: string, i: nat)
    requires i < |s|
    requires !Hit(vars, s, i)
    ensures Chunk(vars, s, i) == s[i..Next(s, i)]
  {
  }

  /** Two adjacent slices of a text join up. */
  lemma SliceJoin(s: string, i: nat, j: nat)
    requires i <= j <= |s|
    ensures s[i..] == s[i..j] + s[j..]
  {
  }

  /** Text a pass leaves unchanged: with nothing bound to meet, every chunk is copied verbatim. */
  lemma {:induction false} UnboundPassCopies(vars: map<string, Option<string>>, s: string, i: nat)
    requires i <= |s|
    requires !PassFound(vars, s, i)
    ensures PassText(vars, s, i) == s[i..]
    decreases |s| - i
  {
    if i < |s| {
      var j := Next(s, i);
      PassStep(vars, s, i);
      UnboundPassCopies(vars, s, j);
      UnboundChunkCopies(vars, s, i);
      SliceJoin(s, i, j);
    }
  }

  /** Whatever replace returns has no bound placeholder left, so one more pass would change nothing. */
  lemma {:induction false} RenderResultIsFixed(vars: map<string, Option<string>>, s: string, tries: nat, t: string)
    requires Render(vars, s, tries) == Ok(t)
    ensures !PassFound(vars, t, 0)
    ensures PassText(vars, t, 0) == t
    decreases tries
  {
    if PassFound(vars, s, 0) {
      RenderResultIsFixed(vars, PassText(vars, s, 0), tries - 1, t);
    } else {
      UnboundPassCopies(vars, t, 0);
    }
  }

  /** Text with no bound placeholder is returned as it is, whatever budget is left. */
  lemma NoBoundPlaceholderIsFixedPoint(vars: map<string, Option<string>>, s: string, tries: nat)
    requires tries > 0
    requires !PassFound(vars, s, 0)
    ensures Render(vars, s, tries) == Ok(s)
  {
  }

  /** A pass over exactly "{{a}}" with a bound to "{{a}}" reproduces the input and reports a substitution. */
  lemma SelfPassOnce(vars: map<string, Option<string>>)
    requires "a" in vars && vars["a"] == Some("{{a}}")
    ensures PassText(vars, "{{a}}", 0) == "{{a}}"
    ensures PassFound(vars, "{{a}}", 0)
  {
    var s := "{{a}}";
    assert SpacesEnd(s, 2) == 2;
    assert NameEnd(s, 3) == 3;
    assert NameEnd(s, 2) == 3;
    assert SpacesEnd(s, 3) == 3;
    assert s[2..3] == "a";
    assert s[0..5] == s;
    assert MatchAt(s, 0) == Some(Match("a", s, 5));
  }

  /** A variable bound to its own placeholder never settles: replace throws for every budget. */
  lemma {:induction false} SelfReferenceThrows(vars: map<string, Option<string>>, tries: nat)
    requires "a" in vars && vars["a"] == Some("{{a}}")
    ensures Render(vars, "{{a}}", tries) == Err(TooManyRecursions)
    decreases tries
  {
    if tries > 0 {
      SelfPassOnce(vars);
      SelfReferenceThrows(vars, tries - 1);
    }
  }

  /** SpacesEnd stops exactly at the end of a run of spaces. */
  lemma {:induction false} SpacesEndOfRun(s: string, k: nat, j: nat)
    requires k <= j <= |s|
    requires forall x :: k <= x < j ==> s[x] == ' '
    requires j == |s| || s[j] != ' '
    ensures SpacesEnd(s, k) == j
    decreases j - k
  {
    if k < j {
      SpacesEndOfRun(s, k + 1, j);
    }
  }

  /** NameEnd stops exactly at the end of a run of name characters. */
  lemma {:induction false} NameEndOfRun(s: string, k: nat, j: nat)
    requires k <= j <= |s|
    requires forall x :: k <= x < j ==> NameChar(s[x])
    requires j == |s| || !NameChar(s[j])
    ensures NameEnd(s, k) == j
    decreases j - k
  {
    if k < j {
      NameEndOfRun(s, k + 1, j);
    }
  }

  predicate AllSpaces(t: string) {
    forall x :: 0 <= x < |t| ==> t[x] == ' '
  }

  predicate ValidName(name: string) {
    name != [] && forall x :: 0 <= x < |name| ==> NameChar(name[x])
  }

  /**
   * A whole string of the form "{{", spaces, a name, spaces, "}}" is one
   * match of the placeholder pattern, capturing exactly that name. Only the
   * space character is skipped around the name.
   */
  lemma PlaceholderMatches(sp1: string, name: string, sp2: string)
    requires AllSpaces(sp1) && AllSpaces(sp2) && ValidName(name)
    ensures var s := "{{" + sp1 + name + sp2 + "}}";
      MatchAt(s, 0) == Some(Match(name, s, |s|))
  {
    var s := "{{" + sp1 + name + sp2 + "}}";
    var j := 2 + |sp1|;
    var k := j + |name|;
    var l := k + |sp2|;
    assert forall x :: 2 <= x < j ==> s[x] == sp1[x - 2];
    assert forall x :: j <= x < k ==> s[x] == name[x - j];
    assert forall x :: k <= x < l ==> s[x] == sp2[x - k];
    assert s[l] == '}' && s[l + 1] == '}' && |s| == l + 2;
    SpacesEndOfRun(s, 2, j);
    NameEndOfRun(s, j, k);
    SpacesEndOfRun(s, k, l);
    assert s[j..k] == name;
    assert s[0..l + 2] == s;
  }

  /** A pass over a lone placeholder emits its substitution and reports whether the name was bound. */
  lemma LonePlaceholderPass(vars: map<string, Option<string>>, sp1: string, name: string, sp2: string)
    requires AllSpaces(sp1) && AllSpaces(sp2) && ValidName(name)
    ensures var s := "{{" + sp1 + name + sp2 + "}}";
      PassText(vars, s, 0) == Lookup(vars, name).GetOr(s) &&
      PassFound(vars, s, 0) == Lookup(vars, name).Some?
  {
    var s := "{{" + sp1 + name + sp2 + "}}";
    PlaceholderMatches(sp1, name, sp2);
    assert PassText(vars, s, 0) == Chunk(vars, s, 0) + PassText(vars, s, |s|);
  }

  /**
   * A bound placeholder is replaced by its value literally: when the value
   * holds no bound placeholder itself, replace returns exactly that value.
   */
  lemma BoundPlaceholderReplacedLiterally(vars: map<string, Option<string>>, sp1: string, name: string, sp2: string, v: string, tries: nat)
    requires AllSpaces(sp1) && AllSpaces(sp2) && ValidName(name)
    requires Lookup(vars, name) == Some(v)
    requires !PassFound(vars, v, 0)
    requires tries >= 2
    ensures Render(vars, "{{" + sp1 + name + sp2 + "}}", tries) == Ok(v)
  {
    LonePlaceholderPass(vars, sp1, name, sp2);
  }

  /** An unbound (absent or null) placeholder is copied through unchanged. */
  lemma UnboundPlaceholderKept(vars: map<string, Option<string>>, sp1: string, name: string, sp2: string, tries: nat)
    requires AllSpaces(sp1) && AllSpaces(sp2) && ValidName(name)
    requires Lookup(vars, name).None?
    requires tries > 0
    ensures var s := "{{" + sp1 + name + sp2 + "}}"; Render(vars, s, tries) == Ok(s)
  {
    LonePlaceholderPass(vars, sp1, name, sp2);
  }

  /** A tab is not skipped: it becomes part of the name, so "{{\ta}}" does not refer to a. */
  lemma TabIsPartOfName(vars: map<string, Option<string>>, tries: nat)
    requires "\ta" !in vars
    requires tries > 0
    ensures Render(vars, "{{\ta}}", tries) == Ok("{{\ta}}")
  {
    assert ValidName("\ta");
    assert "{{" + "" + "\ta" + "" + "}}" == "{{\ta}}";
    UnboundPlaceholderKept(vars, "", "\ta", "", tries);
  }

  /** Substituted text is scanned again: a -> "{{b}}", b -> "x" renders "{{a}}" as "x". */
  lemma SubstitutionIsRescanned()
    ensures Render(map["a" := Some("{{b}}"), "b" := Some("x")], "{{a}}", MaxTries) == Ok("x")
  {
    var vars := map["a" := Some("{{b}}"), "b" := Some("x")];
    assert ValidName("a") && ValidName("b");
    assert "{{" + "" + "a" + "" + "}}" == "{{a}}";
    assert "{{" + "" + "b" + "" + "}}" == "{{b}}";
    LonePlaceholderPass(vars, "", "a", "");
    LonePlaceholderPass(vars, "", "b", "");
    assert MatchAt("x", 0).None?;
    assert !PassFound(vars, "x", 0);
    assert Render(vars, "x", MaxTries - 2) == Ok("x");
    assert Render(vars, "{{b}}", MaxTries - 1) == Ok("x");
  }

  /** Lines are rendered independently: processing a + b is processing a, then b if a went through. */
  lemma {:induction false} ProcessLinesAppend(vars: map<string, Option<string>>, a: seq<string>, b: seq<string>, newline: string)
    ensures var pa := ProcessLines(vars, a, newline);
      ProcessLines(vars, a + b, newline) ==
        if pa.1.Pass? then (pa.0 + ProcessLines(vars, b, newline).0, ProcessLines(vars, b, newline).1) else pa
  {
    if a == [] {
      assert a + b == b;
      assert "" + ProcessLines(vars, b, newline).0 == ProcessLines(vars, b, newline).0;
    } else {
      assert (a + b)[0] == a[0];
      assert (a + b)[1..] == a[1..] + b;
      ProcessLinesAppend(vars, a[1..], b, newline);
      match Render(vars, a[0], MaxTries)
      case Err(e) =>
      case Ok(t) =>
        var rest := ProcessLines(vars, a[1..], newline);
        var pb := ProcessLines(vars, b, newline);
        if rest.1.Pass? {
          assert t + newline + (rest.0 + pb.0) == (t + newline + rest.0) + pb.0;
        }
    }
  }

  /** One line that renders is written followed by exactly one line separator. */
  lemma ProcessSingleLine(vars: map<string, Option<string>>, line: string, newline: string, t: string)
    requires Render(vars, line, MaxTries) == Ok(t)
    ensures ProcessLines(vars, [line], newline) == (t + newline, Pass)
  {
    assert [line][1..] == [];
    assert ProcessLines(vars, [line], newline) == (t + newline + "", Pass);
    assert t + newline + "" == t + newline;
  }

  /** A placeholder split over two lines is not substituted, even when its name is bound. */
  lemma SplitPlaceholderNotSubstituted(newline: string)
    ensures ProcessLines(map["a" := Some("x")], ["{{a", "}}"], newline) == ("{{a" + newline + "}}" + newline, Pass)
  {
    var vars := map["a" := Some("x")];
    assert MatchAt("{{a", 0).None? && MatchAt("{{a", 1).None? && MatchAt("{{a", 2).None?;
    assert !PassFound(vars, "{{a", 0);
    assert MatchAt("}}", 0).None? && MatchAt("}}", 1).None?;
    assert !PassFound(vars, "}}", 0);
    ProcessSingleLine(vars, "{{a", newline, "{{a");
    ProcessSingleLine(vars, "}}", newline, "}}");
    ProcessLinesAppend(vars, ["{{a"], ["}}"], newline);
    assert ["{{a"] + ["}}"] == ["{{a", "}}"];
    assert "{{a" + newline + ("}}" + newline) == "{{a" + newline + "}}" + newline;
  }

  /**
   * Line n processed after the lines before it, which all rendered: its text
   * is appended, or its failure ends the whole run with what was written.
   */
  lemma ProcessLinesPrefix(vars: map<string, Option<string>>, lines: seq<string>, n: nat, newline: string)
    requires n < |lines| && ProcessLines(vars, lines[..n], newline).1.Pass?
    ensures Render(vars, lines[n], MaxTries).Err? ==>
      ProcessLines(vars, lines, newline) == (ProcessLines(vars, lines[..n], newline).0, Fail(Render(vars, lines[n], MaxTries).error))
    ensures Render(vars, lines[n], MaxTries).Ok? ==>
      ProcessLines(vars, lines[..n + 1], newline) ==
        (ProcessLines(vars, lines[..n], newline).0 + Render(vars, lines[n], MaxTries).value + newline, Pass)
  {
    var done := ProcessLines(vars, lines[..n], newline).0;
    assert lines[..n + 1] == lines[..n] + [lines[n]];
    ProcessLinesAppend(vars, lines[..n], [lines[n]], newline);
    match Render(vars, lines[n], MaxTries)
    case Err(e) =>
      assert [lines[n]][1..] == [];
      assert ProcessLines(vars, [lines[n]], newline) == ("", Fail(e));
      assert done + "" == done;
      assert lines[..n + 1] + lines[n + 1..] == lines;
      ProcessLinesAppend(vars, lines[..n + 1], lines[n + 1..], newline);
    case Ok(t) =>
      ProcessSingleLine(vars, lines[n], newline, t);
      assert done + (t + newline) == done + t + newline;
  }

  class Templater {
    var variables: map<string, Option<string>>

    constructor ()
      ensures variables == map[]
    {
      variables := map[];
    }

    /** register(key, value): binds key, replacing any previous binding. */
    method Register(key: string, value: Option<string>)
      modifies this
      ensures variables == old(variables)[key := value]
    {
      variables := variables[key := value];
    }

    /** register(map): binds every entry, replacing existing bindings of the same keys. */
    method RegisterAll(tags: map<string, Option<string>>)
      modifies this
      ensures variables == old(variables) + tags
    {
      var remaining := tags.Keys;
      while remaining != {}
        invariant remaining <= tags.Keys
        invariant variables == old(variables) + map k | k in tags.Keys - remaining :: tags[k]
        decreases remaining
      {
        var k :| k in remaining;
        variables := variables[k := tags[k]];
        remaining := remaining - {k};
      }
    }

    /** replace(input). */
    method Replace(input: string) returns (r: Result<string>)
      ensures r == Render(variables, input, MaxTries)
    {
      var current := input;
      var tries := MaxTries;
      while tries > 0
        invariant Render(variables, current, tries) == Render(variables, input, MaxTries)
        decreases tries
      {
        var out, found := ScanPass(variables, current);
        if !found {
          return Ok(current);
        }
        current := out;
        tries := tries - 1;
      }
      return Err(TooManyRecursions);
    }

    /** process(in, out): renders each line on its own and writes it followed by a line separator. */
    method Process(lines: seq<string>, newline: string) returns (written: string, outcome: Outcome)
      ensures (written, outcome) == ProcessLines(variables, lines, newline)
    {
      written := "";
      var n := 0;
      assert lines[..n] == [];
      while n < |lines|
        invariant n <= |lines|
        invariant ProcessLines(variables, lines[..n], newline) == (written, Pass)
        decreases |lines| - n
      {
        var line := Replace(lines[n]);
        ProcessLinesPrefix(variables, lines, n, newline);
        if line.Err? {
          return written, Fail(line.error);
        }
        written := written + line.value + newline;
        n := n + 1;
      }
      assert lines[..n] == lines;
      outcome := Pass;
    }
  }
}
