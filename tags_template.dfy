/**
 * TagsTemplate's two instance initializers: the tag table built from the
 * "tags" section of the template's configuration, and the per-class lists of
 * template files built from its "templates" section.
 */
module TagsTemplates {
  import opened Wrappers
  import opened JavaText
  import opened Json
  import opened TagDefinitions

  /** The classes of template file: rendered once at creation, or on every tag change. */
  datatype TemplateFileEnum = STATIC | DYNAMIC

  /** TemplateFileEnum.valueOf: the class with exactly this name, else IllegalArgumentException. */
  function FileClassValueOf(name: string): Result<TemplateFileEnum> {
    if name == "STATIC" then Ok(STATIC)
    else if name == "DYNAMIC" then Ok(DYNAMIC)
    else Err(IllegalArgument)
  }

  /** The text of a field when present, else null. */
  function TextIfPresent(node: Json, key: string): Option<string> {
    match Get(node, key)
    case Some(v) => Some(AsText(v))
    case None => None
  }

  /**
   * The definition built for one entry of "tags". The builder never sets
   * `choices`, so it is always empty.
   */
  function TagDefOf(key: string, node: Json): Result<TagDefinition> {
    var tagType :- match Get(node, "type")
      case Some(v) => TypeValueOf(ToUpper(AsText(v)))
      case None => Ok(STRING);
    Ok(TagDefinition(Some(key), TextIfPresent(node, "description"), tagType, TextIfPresent(node, "default"),
                     TextIfPresent(node, "permission"), Has(node, "required") && AsBoolean(Get(node, "required").value), []))
  }

  /** The tag table after the first `|entries|` entries have been put, or the error one of them raised. */
  function TagsTable(entries: seq<(string, Json)>): Result<map<string, TagDefinition>> {
    if entries == [] then Ok(map[])
    else
      var table :- TagsTable(entries[..|entries| - 1]);
      var last := entries[|entries| - 1];
      var def :- TagDefOf(last.0, last.1);
      Ok(table[last.0 := def])
  }

  /** The index of the last entry with the given key. */
  predicate IsLastWithKey(entries: seq<(string, Json)>, key: string, i: int) {
    0 <= i < |entries| && entries[i].0 == key && forall j :: i < j < |entries| ==> entries[j].0 != key
  }

  /**
   * Every entry becomes a definition named after its key, the last entry
   * with a key winning; its type defaults to STRING; description, default
   * and permission are null when absent; it is required only when "required"
   * is present and reads as true; its choice list is empty.
   */
  lemma {:induction false} TagsTableContents(entries: seq<(string, Json)>)
    requires TagsTable(entries).Ok?
    ensures var table := TagsTable(entries).value;
      (forall k :: k in table <==> exists i :: 0 <= i < |entries| && entries[i].0 == k) &&
      forall k, i :: k in table && IsLastWithKey(entries, k, i) ==> TagDefOf(k, entries[i].1) == Ok(table[k])
  {
    if entries != [] {
      var prefix := entries[..|entries| - 1];
      TagsTableContents(prefix);
      var table := TagsTable(entries).value;
      var last := entries[|entries| - 1];
      forall k | k in table
        ensures exists i :: 0 <= i < |entries| && entries[i].0 == k
      {
        if k != last.0 {
          var i :| 0 <= i < |prefix| && prefix[i].0 == k;
          assert entries[i] == prefix[i];
        }
      }
      forall k, i | k in table && IsLastWithKey(entries, k, i)
        ensures TagDefOf(k, entries[i].1) == Ok(table[k])
      {
        if k != last.0 {
          assert IsLastWithKey(prefix, k, i);
        }
      }
    }
  }

  /** What the builder does with one entry's fields. */
  lemma TagDefOfFields(key: string, node: Json)
    ensures !Has(node, "type") ==> TagDefOf(key, node).Ok? && TagDefOf(key, node).value.tagType == STRING
    ensures TagDefOf(key, node).Ok? ==>
      var d := TagDefOf(key, node).value;
      d.name == Some(key) && d.choices == [] &&
      (d.description.None? <==> !Has(node, "description")) &&
      (d.defaultValue.None? <==> !Has(node, "default")) &&
      (d.permission.None? <==> !Has(node, "permission")) &&
      (d.required <==> Has(node, "required") && AsBoolean(Get(node, "required").value))
  {
  }

  /** So a CHOICE tag declared this way accepts no input at all. */
  lemma BuiltChoiceRejectsEverything(key: string, node: Json, input: string)
    requires TagDefOf(key, node).Ok? && TagDefOf(key, node).value.tagType == CHOICE
    ensures !Validate(TagDefOf(key, node).value, input)
  {
    ValidateByType(TagDefOf(key, node).value, input);
  }

  /** The file lists after the first `|entries|` entries of "templates", or the error one raised. */
  function FilesTable(entries: seq<(string, Json)>): Result<map<TemplateFileEnum, seq<string>>> {
    if entries == [] then Ok(map[])
    else
      var table :- FilesTable(entries[..|entries| - 1]);
      var last := entries[|entries| - 1];
      var fileClass :- match FileClassValueOf(ToUpper(last.0))
        case Ok(c) => Ok(c)
        case Err(_) => Err(InvalidTemplate);
      if !last.1.JArray? then Err(InvalidTemplate)
      else
        var before := if fileClass in table then table[fileClass] else [];
        Ok(table[fileClass := before + Texts(last.1.items)])
  }

  /** Whether an entry of "templates" names the given class. */
  predicate OfClass(entry: (string, Json), c: TemplateFileEnum) {
    FileClassValueOf(ToUpper(entry.0)) == Ok(c)
  }

  /** Every path listed under class c, entries in document order, each list in its own order. */
  function PathsOfClass(entries: seq<(string, Json)>, c: TemplateFileEnum): seq<string> {
    if entries == [] then []
    else
      var last := entries[|entries| - 1];
      PathsOfClass(entries[..|entries| - 1], c) + (if OfClass(last, c) && last.1.JArray? then Texts(last.1.items) else [])
  }

  /** FilesTable one entry further, for an entry list named by a variable. */
  lemma FilesTableSnoc(front: seq<(string, Json)>, e: (string, Json), whole: seq<(string, Json)>)
    requires |whole| > 0 && whole[..|whole| - 1] == front && whole[|whole| - 1] == e
    ensures FilesTable(front).Err? ==> FilesTable(whole) == FilesTable(front)
    ensures FilesTable(front).Ok? && (FileClassValueOf(ToUpper(e.0)).Err? || !e.1.JArray?) ==>
      FilesTable(whole) == Err(InvalidTemplate)
    ensures FilesTable(front).Ok? && FileClassValueOf(ToUpper(e.0)).Ok? && e.1.JArray? ==>
      var table := FilesTable(front).value;
      var c := FileClassValueOf(ToUpper(e.0)).value;
      FilesTable(whole) == Ok(table[c := (if c in table then table[c] else []) + Texts(e.1.items)])
    ensures forall c ::
      PathsOfClass(whole, c) == PathsOfClass(front, c) + (if OfClass(e, c) && e.1.JArray? then Texts(e.1.items) else [])
  {
  }

  /**
   * Building the file lists fails exactly when some key is not a class name
   * or some list is not an array, both as InvalidTemplateException.
   */
  lemma {:induction false} FilesTableOk(entries: seq<(string, Json)>)
    ensures FilesTable(entries).Ok? <==>
      forall i :: 0 <= i < |entries| ==> FileClassValueOf(ToUpper(entries[i].0)).Ok? && entries[i].1.JArray?
    ensures FilesTable(entries).Err? ==> FilesTable(entries).error == InvalidTemplate
  {
    if entries != [] {
      var prefix := entries[..|entries| - 1];
      FilesTableOk(prefix);
      FilesTableSnoc(prefix, entries[|entries| - 1], entries);
      assert forall i :: 0 <= i < |prefix| ==> prefix[i] == entries[i];
    }
  }

  /** Some entry names class c. */
  predicate HasClass(entries: seq<(string, Json)>, c: TemplateFileEnum) {
    exists i :: 0 <= i < |entries| && OfClass(entries[i], c)
  }

  /** HasClass one entry further. */
  lemma HasClassSnoc(front: seq<(string, Json)>, e: (string, Json), whole: seq<(string, Json)>, c: TemplateFileEnum)
    requires |whole| > 0 && whole[..|whole| - 1] == front && whole[|whole| - 1] == e
    ensures HasClass(whole, c) <==> HasClass(front, c) || OfClass(e, c)
  {
    if HasClass(front, c) {
      var i :| 0 <= i < |front| && OfClass(front[i], c);
      assert whole[i] == front[i];
    }
    if OfClass(e, c) {
      assert OfClass(whole[|whole| - 1], c);
    }
    if HasClass(whole, c) && !OfClass(e, c) {
      var i :| 0 <= i < |whole| && OfClass(whole[i], c);
      assert front[i] == whole[i];
    }
  }

  /** When building succeeds, class c is present exactly when some entry names it, with all its paths in document order. */
  lemma {:induction false} FilesTableClass(entries: seq<(string, Json)>, c: TemplateFileEnum)
    requires FilesTable(entries).Ok?
    ensures c in FilesTable(entries).value <==> HasClass(entries, c)
    ensures c in FilesTable(entries).value ==> FilesTable(entries).value[c] == PathsOfClass(entries, c)
  {
    if entries != [] {
      var prefix := entries[..|entries| - 1];
      var last := entries[|entries| - 1];
      FilesTableSnoc(prefix, last, entries);
      HasClassSnoc(prefix, last, entries, c);
      FilesTableClass(prefix, c);
      if !HasClass(prefix, c) {
        PathsOfAbsentClass(prefix, c);
      }
    }
  }

  /** When building succeeds, each class present maps to all its paths in document order. */
  lemma FilesTableContents(entries: seq<(string, Json)>)
    requires FilesTable(entries).Ok?
    ensures forall c ::
      (c in FilesTable(entries).value <==> HasClass(entries, c)) &&
      (c in FilesTable(entries).value ==> FilesTable(entries).value[c] == PathsOfClass(entries, c))
  {
    forall c {
      FilesTableClass(entries, c);
    }
  }

  /** A class no entry names collects no paths. */
  lemma {:induction false} PathsOfAbsentClass(entries: seq<(string, Json)>, c: TemplateFileEnum)
    requires !HasClass(entries, c)
    ensures PathsOfClass(entries, c) == []
  {
    if entries != [] {
      var prefix := entries[..|entries| - 1];
      FilesTableSnoc(prefix, entries[|entries| - 1], entries);
      HasClassSnoc(prefix, entries[|entries| - 1], entries, c);
      PathsOfAbsentClass(prefix, c);
    }
  }

  class TagsTemplate {
    var tags: map<string, TagDefinition>
    var templateFiles: map<TemplateFileEnum, seq<string>>

    /** Both tables start empty, before the initializers run. */
    constructor ()
      ensures tags == map[] && templateFiles == map[]
    {
      tags := map[];
      templateFiles := map[];
    }

    /**
     * The two initializers in order, over the template's configuration. A
     * missing "tags" or "templates" section is a null dereference; any other
     * section that is not an object contributes nothing.
     */
    method RunInitializers(config: Json) returns (outcome: Outcome)
      requires tags == map[] && templateFiles == map[]
      modifies this
      ensures outcome.Pass? <==>
        Has(config, "tags") && TagsTable(Fields(Get(config, "tags").value)).Ok? &&
        Has(config, "templates") && FilesTable(Fields(Get(config, "templates").value)).Ok?
      ensures outcome.Pass? ==> tags == TagsTable(Fields(Get(config, "tags").value)).value
      ensures outcome.Pass? ==> templateFiles == FilesTable(Fields(Get(config, "templates").value)).value
      ensures !Has(config, "tags") ==> outcome == Fail(NullDereference)
    {
      var tagsNode := Get(config, "tags");
      if tagsNode.None? {
        return Fail(NullDereference);
      }
      outcome := PutTags(Fields(tagsNode.value));
      if outcome.Fail? {
        return;
      }
      var templatesNode := Get(config, "templates");
      if templatesNode.None? {
        return Fail(NullDereference);
      }
      outcome := AddFileLists(Fields(templatesNode.value));
    }

    /** The first initializer: put a definition for each entry of "tags", in order. */
    method PutTags(entries: seq<(string, Json)>) returns (outcome: Outcome)
      requires tags == map[]
      modifies this
      ensures outcome.Pass? <==> TagsTable(entries).Ok?
      ensures outcome.Pass? ==> tags == TagsTable(entries).value
      ensures templateFiles == old(templateFiles)
    {
      var i := 0;
      while i < |entries|
        invariant i <= |entries|
        invariant TagsTable(entries[..i]) == Ok(tags)
        invariant templateFiles == old(templateFiles)
        decreases |entries| - i
      {
        assert entries[..i + 1][..i] == entries[..i];
        var def := TagDefOf(entries[i].0, entries[i].1);
        if def.Err? {
          TagsTableErrorPersists(entries, i + 1);
          return Fail(def.error);
        }
        tags := tags[entries[i].0 := def.value];
        i := i + 1;
      }
      assert entries[..i] == entries;
      return Pass;
    }

    /** The second initializer: append each entry of "templates" to its class's list. */
    method AddFileLists(files: seq<(string, Json)>) returns (outcome: Outcome)
      requires templateFiles == map[]
      modifies this
      ensures outcome.Pass? <==> FilesTable(files).Ok?
      ensures outcome.Pass? ==> templateFiles == FilesTable(files).value
      ensures tags == old(tags)
    {
      var n := 0;
      while n < |files|
        invariant n <= |files|
        invariant FilesTable(files[..n]) == Ok(templateFiles)
        invariant tags == old(tags)
        decreases |files| - n
      {
        assert files[..n + 1][..n] == files[..n];
        var key := files[n].0;
        var node := files[n].1;
        var fileClass := FileClassValueOf(ToUpper(key));
        if fileClass.Err? || !node.JArray? {
          FilesTableErrorPersists(files, n + 1);
          return Fail(InvalidTemplate);
        }
        ghost var table := templateFiles;
        ghost var before := if fileClass.value in table then table[fileClass.value] else [];
        if fileClass.value !in templateFiles {
          templateFiles := templateFiles[fileClass.value := []];
        }
        AppendPaths(fileClass.value, node.items);
        assert templateFiles == table[fileClass.value := before + Texts(node.items)];
        n := n + 1;
      }
      assert files[..n] == files;
      return Pass;
    }

    /** Appends the text of each node, in order, to the list of class c. */
    method AppendPaths(c: TemplateFileEnum, items: seq<Json>)
      requires c in templateFiles
      modifies this
      ensures templateFiles == old(templateFiles)[c := old(templateFiles)[c] + Texts(items)]
      ensures tags == old(tags)
    {
      var k := 0;
      assert Texts(items[..0]) == [];
      assert old(templateFiles)[c] + [] == old(templateFiles)[c];
      while k < |items|
        invariant k <= |items|
        invariant templateFiles == old(templateFiles)[c := old(templateFiles)[c] + Texts(items[..k])]
        invariant tags == old(tags)
        decreases |items| - k
      {
        assert Texts(items[..k + 1]) == Texts(items[..k]) + [AsText(items[k])];
        assert old(templateFiles)[c] + Texts(items[..k]) + [AsText(items[k])] == old(templateFiles)[c] + Texts(items[..k + 1]);
        templateFiles := templateFiles[c := templateFiles[c] + [AsText(items[k])]];
        k := k + 1;
      }
      assert items[..k] == items;
    }
  }

  /** Once a prefix of the tag entries fails, the whole section fails. */
  lemma {:induction false} TagsTableErrorPersists(entries: seq<(string, Json)>, n: nat)
    requires n <= |entries| && TagsTable(entries[..n]).Err?
    ensures TagsTable(entries).Err?
    decreases |entries| - n
  {
    if n < |entries| {
      assert entries[..n + 1][..n] == entries[..n];
      TagsTableErrorPersists(entries, n + 1);
    } else {
      assert entries[..n] == entries;
    }
  }

  /** Once a prefix of the file entries fails, the whole section fails. */
  lemma {:induction false} FilesTableErrorPersists(entries: seq<(string, Json)>, n: nat)
    requires n <= |entries| && FilesTable(entries[..n]).Err?
    ensures FilesTable(entries).Err?
    decreases |entries| - n
  {
    if n < |entries| {
      assert entries[..n + 1][..n] == entries[..n];
      FilesTableErrorPersists(entries, n + 1);
    } else {
      assert entries[..n] == entries;
    }
  }
}
