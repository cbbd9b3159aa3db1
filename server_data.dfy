/**
 * The persisted record of a server instance (its server.yml) and the tag
 * view layered over its template's declared defaults. Both
 * templates/server/BaseServer and templates/server/Server carry the same
 * saveData, loadData, getTag and getAllTags; they are modelled once here,
 * over the values of the instance's fields.
 */
module ServerData {
  import opened Wrappers
  import opened Json
  import opened ApiTag
  import opened TagDefinitions
  import opened TagsTemplates
  import opened JavaText
  import T = SimpleTemplater

  /**
   * What a server instance reads from its template: the name, the declared
   * tags, the per-class lists of template files, whether the template has a
   * "files" directory at all, the lines of each file under it (none when it
   * has no such directory), and the start and stop settings.
   */
  datatype TemplateView = TemplateView(
    name: string,
    tags: map<string, TagDefinition>,
    templateFiles: map<TemplateFileEnum, seq<string>>,
    hasFiles: bool,
    sources: map<string, seq<string>>,
    startExecute: string,
    stopCommands: seq<string>)

  /** getTemplateFiles().getOrDefault(kind, emptyList()). */
  function FilesOf(t: TemplateView, kind: TemplateFileEnum): seq<string> {
    if kind in t.templateFiles then t.templateFiles[kind] else []
  }

  /** The platform line separator BufferedWriter.newLine writes. */
  const LineSeparator: string := "\n"

  /** A file holding these lines, each ended by a line separator. */
  function Join(lines: seq<string>): string {
    if lines == [] then "" else lines[0] + LineSeparator + Join(lines[1..])
  }

  /** A copy of the template's "files" directory. */
  function CopyOf(sources: map<string, seq<string>>): map<string, string> {
    map p | p in sources :: Join(sources[p])
  }

  /**
   * The instance files after rendering each listed path in turn, and how the
   * loop ends. A missing template file fails on opening, before its output
   * is created, as a RuntimeException wrapping the IOException; a render that
   * throws leaves the lines written so far in the output file.
   */
  function Rendered(vars: map<string, Option<string>>, sources: map<string, seq<string>>,
                    paths: seq<string>, files: map<string, string>): (map<string, string>, Outcome)
  {
    if paths == [] then (files, Pass)
    else if paths[0] !in sources then (files, Fail(Wrapped(IOFailure)))
    else
      var out := T.ProcessLines(vars, sources[paths[0]], LineSeparator);
      if out.1.Fail? then (files[paths[0] := out.0], out.1)
      else Rendered(vars, sources, paths[1..], files[paths[0] := out.0])
  }

  /** The loop of updateFiles over the listed paths, with the templater st. */
  method RenderFiles(st: T.Templater, sources: map<string, seq<string>>, paths: seq<string>, files0: map<string, string>)
    returns (files: map<string, string>, outcome: Outcome)
    ensures (files, outcome) == Rendered(st.variables, sources, paths, files0)
  {
    files := files0;
    var i := 0;
    while i < |paths|
      invariant i <= |paths|
      invariant Rendered(st.variables, sources, paths[i..], files) == Rendered(st.variables, sources, paths, files0)
      decreases |paths| - i
    {
      assert paths[i..][0] == paths[i] && paths[i..][1..] == paths[i + 1..];
      if paths[i] !in sources {
        return files, Fail(Wrapped(IOFailure));
      }
      var written, result := st.Process(sources[paths[i]], LineSeparator);
      files := files[paths[i] := written];
      if result.Fail? {
        return files, result;
      }
      i := i + 1;
    }
    assert paths[i..] == [];
    outcome := Pass;
  }

  /**
   * updateFiles succeeds exactly when every listed file exists and renders;
   * then each listed path holds its rendered text and every other file is
   * left as it was.
   */
  lemma {:induction false} RenderedContents(vars: map<string, Option<string>>, sources: map<string, seq<string>>,
                                            paths: seq<string>, files: map<string, string>)
    ensures Rendered(vars, sources, paths, files).1.Pass? <==>
      forall i :: 0 <= i < |paths| ==> paths[i] in sources && T.ProcessLines(vars, sources[paths[i]], LineSeparator).1.Pass?
    ensures Rendered(vars, sources, paths, files).1.Pass? ==>
      forall i :: 0 <= i < |paths| ==>
        paths[i] in sources && paths[i] in Rendered(vars, sources, paths, files).0 &&
        Rendered(vars, sources, paths, files).0[paths[i]] == T.ProcessLines(vars, sources[paths[i]], LineSeparator).0
    ensures forall p :: p !in paths ==> (p in Rendered(vars, sources, paths, files).0 <==> p in files)
    ensures forall p :: p !in paths && p in files ==> Rendered(vars, sources, paths, files).0[p] == files[p]
  {
    if paths != [] && paths[0] in sources {
      var out := T.ProcessLines(vars, sources[paths[0]], LineSeparator);
      var next := files[paths[0] := out.0];
      if out.1.Pass? {
        RenderedContents(vars, sources, paths[1..], next);
        assert forall i :: 1 <= i < |paths| ==> paths[i] == paths[1..][i - 1];
        assert forall p :: p in paths[1..] ==> p in paths;
        var r := Rendered(vars, sources, paths, files);
        if r.1.Pass? && paths[0] !in paths[1..] {
          assert r.0[paths[0]] == next[paths[0]];
        }
      }
    }
  }

  /** The array of text nodes saveData writes for a list of strings. */
  function TextNodes(items: seq<string>): (r: seq<Json>)
    ensures |r| == |items| && forall i :: 0 <= i < |items| ==> r[i] == JText(items[i])
  {
    seq(|items|, i requires 0 <= i < |items| => JText(items[i]))
  }

  /** The entries hold each key of m exactly once, with its value. */
  ghost predicate Holds(fields: seq<(string, Json)>, m: map<string, Json>) {
    UniqueKeys(fields) &&
    (forall k :: Lookup(fields, k).Some? <==> k in m) &&
    (forall k :: k in m ==> Lookup(fields, k) == Some(m[k]))
  }

  /** The "permissions" object saveData writes, as a map. */
  function PermissionNodes(permissions: map<string, seq<string>>): map<string, Json> {
    map k | k in permissions :: JArray(TextNodes(permissions[k]))
  }

  /** The "tags" object saveData writes, as a map. */
  function TagNodes(tags: map<string, string>): map<string, Json> {
    map k | k in tags :: JText(tags[k])
  }

  /** put(key, (String) null) stores a null node. */
  function NameNode(name: Option<string>): Json {
    match name
    case Some(n) => JText(n)
    case None => JNull
  }

  /**
   * What saveData leaves in an empty root object: template name, name and
   * uuid always, and a permissions or tags object only when that map is
   * non-empty, holding each entry once. The entry order follows HashMap
   * iteration and is not fixed.
   */
  ghost predicate Saved(doc: Json, templateName: string, name: Option<string>, uuid: string,
                        permissions: map<string, seq<string>>, tags: map<string, string>) {
    doc.JObject? &&
    Get(doc, "template") == Some(JText(templateName)) &&
    Get(doc, "name") == Some(NameNode(name)) &&
    Get(doc, "uuid") == Some(JText(uuid)) &&
    (Has(doc, "permissions") <==> |permissions| > 0) &&
    (|permissions| > 0 ==>
      Get(doc, "permissions").value.JObject? && Holds(Fields(Get(doc, "permissions").value), PermissionNodes(permissions))) &&
    (Has(doc, "tags") <==> |tags| > 0) &&
    (|tags| > 0 ==> Get(doc, "tags").value.JObject? && Holds(Fields(Get(doc, "tags").value), TagNodes(tags)))
  }

  /**
   * saveData(root) on an empty root. A null uuid is dereferenced
   * (getUuid().toString()) after template and name are written.
   */
  method SaveDocument(templateName: string, name: Option<string>, uuid: Option<string>,
                      permissions: map<string, seq<string>>, tags: map<string, string>)
    returns (r: Result<Json>)
    ensures uuid.None? ==> r == Err(NullDereference)
    ensures uuid.Some? ==> r.Ok? && Saved(r.value, templateName, name, uuid.value, permissions, tags)
  {
    var root: seq<(string, Json)> := [("template", JText(templateName)), ("name", NameNode(name))];
    if uuid.None? {
      return Err(NullDereference);
    }
    root := root + [("uuid", JText(uuid.value))];
    ghost var head := root;
    var permissionsPart: seq<(string, Json)> := [];
    if |permissions| > 0 {
      var entries := WritePermissions(permissions);
      permissionsPart := [("permissions", JObject(entries))];
    }
    var tagsPart: seq<(string, Json)> := [];
    if |tags| > 0 {
      var entries := WriteTags(tags);
      tagsPart := [("tags", JObject(entries))];
    }
    root := root + permissionsPart + tagsPart;
    SavedRoot(head, permissionsPart, tagsPart, templateName, name, uuid.value, permissions, tags);
    r := Ok(JObject(root));
  }

  /** The root saveData writes holds its fixed fields, then the optional sections. */
  lemma SavedRoot(head: seq<(string, Json)>, permissionsPart: seq<(string, Json)>, tagsPart: seq<(string, Json)>,
                  templateName: string, name: Option<string>, uuid: string,
                  permissions: map<string, seq<string>>, tags: map<string, string>)
    requires head == [("template", JText(templateName)), ("name", NameNode(name)), ("uuid", JText(uuid))]
    requires |permissions| > 0 ==> exists e :: permissionsPart == [("permissions", JObject(e))] && Holds(e, PermissionNodes(permissions))
    requires |permissions| == 0 ==> permissionsPart == []
    requires |tags| > 0 ==> exists e :: tagsPart == [("tags", JObject(e))] && Holds(e, TagNodes(tags))
    requires |tags| == 0 ==> tagsPart == []
    ensures Saved(JObject(head + permissionsPart + tagsPart), templateName, name, uuid, permissions, tags)
  {
    var front := head + permissionsPart;
    var root := front + tagsPart;
    LookupFirst(head, "template");
    LookupFirst(head, "name");
    assert head[1].0 != "uuid" by { assert head[1].0[0] != "uuid"[0]; }
    assert head[0].0 != "uuid";
    LookupFirst(head, "uuid");
    LookupFirst(head, "permissions");
    LookupFirst(head, "tags");
    LookupFirst(permissionsPart, "tags");
    LookupFirst(front, "tags");
    LookupFirst(tagsPart, "tags");
    LookupFirst(permissionsPart, "permissions");
    LookupAppend(front, tagsPart, "template");
    LookupAppend(front, tagsPart, "name");
    LookupAppend(front, tagsPart, "uuid");
    LookupAppend(front, tagsPart, "permissions");
    LookupAppend(front, tagsPart, "tags");
    LookupAppend(head, permissionsPart, "template");
    LookupAppend(head, permissionsPart, "name");
    LookupAppend(head, permissionsPart, "uuid");
    LookupAppend(head, permissionsPart, "permissions");
    LookupAppend(head, permissionsPart, "tags");
    var doc := JObject(root);
    assert Get(doc, "template") == Some(JText(templateName));
    assert Get(doc, "name") == Some(NameNode(name));
    assert Lookup(head, "uuid") == Some(JText(uuid)) by {
      assert head[1..][1..] == [("uuid", JText(uuid))];
      assert Lookup(head[1..][1..], "uuid") == Some(JText(uuid));
    }
    assert Get(doc, "uuid") == Some(JText(uuid));
    assert Has(doc, "permissions") <==> |permissions| > 0;
    assert Has(doc, "tags") <==> |tags| > 0;
  }

  /** Adding a key not yet present: each key is still held once, and only that key gains a value. */
  lemma AppendFresh(fields: seq<(string, Json)>, key: string, value: Json)
    requires UniqueKeys(fields) && Lookup(fields, key).None?
    ensures UniqueKeys(fields + [(key, value)])
    ensures forall k :: Lookup(fields + [(key, value)], k) == if k == key then Some(value) else Lookup(fields, k)
  {
    LookupFirst(fields, key);
    forall k
      ensures Lookup(fields + [(key, value)], k) == if k == key then Some(value) else Lookup(fields, k)
    {
      LookupAppend(fields, [(key, value)], k);
    }
  }

  /** The permissions loop: an array per entry, filled with the entry's strings in order. */
  method WritePermissions(permissions: map<string, seq<string>>) returns (entries: seq<(string, Json)>)
    ensures Holds(entries, PermissionNodes(permissions))
  {
    entries := [];
    var remaining := permissions.Keys;
    while remaining != {}
      invariant remaining <= permissions.Keys
      invariant UniqueKeys(entries)
      invariant forall k :: Lookup(entries, k).Some? <==> k in permissions && k !in remaining
      invariant forall k :: k in permissions && k !in remaining ==> Lookup(entries, k) == Some(JArray(TextNodes(permissions[k])))
      decreases remaining
    {
      var key :| key in remaining;
      var items := WriteArray(permissions[key]);
      AppendFresh(entries, key, JArray(items));
      entries := entries + [(key, JArray(items))];
      remaining := remaining - {key};
    }
  }

  /** permission.add(p) for each string in turn. */
  method WriteArray(items: seq<string>) returns (nodes: seq<Json>)
    ensures nodes == TextNodes(items)
  {
    nodes := [];
    var i := 0;
    while i < |items|
      invariant i <= |items|
      invariant nodes == TextNodes(items[..i])
      decreases |items| - i
    {
      nodes := nodes + [JText(items[i])];
      i := i + 1;
    }
    assert items[..i] == items;
  }

  /** The tags loop: one text entry per tag. */
  method WriteTags(tags: map<string, string>) returns (entries: seq<(string, Json)>)
    ensures Holds(entries, TagNodes(tags))
  {
    entries := [];
    var remaining := tags.Keys;
    while remaining != {}
      invariant remaining <= tags.Keys
      invariant UniqueKeys(entries)
      invariant forall k :: Lookup(entries, k).Some? <==> k in tags && k !in remaining
      invariant forall k :: k in tags && k !in remaining ==> Lookup(entries, k) == Some(JText(tags[k]))
      decreases remaining
    {
      var key :| key in remaining;
      AppendFresh(entries, key, JText(tags[key]));
      entries := entries + [(key, JText(tags[key]))];
      remaining := remaining - {key};
    }
  }

  /** The permissions map loadData builds: each entry's element texts, in order. */
  function PermissionsOf(fields: seq<(string, Json)>): map<string, seq<string>> {
    if fields == [] then map[]
    else
      var (key, value) := fields[|fields| - 1];
      PermissionsOf(fields[..|fields| - 1])[key := Texts(Elements(value))]
  }

  /** The tags map loadData builds: each entry's text. */
  function TagTextsOf(fields: seq<(string, Json)>): map<string, string> {
    if fields == [] then map[]
    else
      var (key, value) := fields[|fields| - 1];
      TagTextsOf(fields[..|fields| - 1])[key := AsText(value)]
  }

  /** The permissions loadData leaves: empty without a "permissions" section. */
  function LoadedPermissions(doc: Json): map<string, seq<string>> {
    if Has(doc, "permissions") then PermissionsOf(Fields(Get(doc, "permissions").value)) else map[]
  }

  /** The tags loadData leaves: empty without a "tags" section. */
  function LoadedTags(doc: Json): map<string, string> {
    if Has(doc, "tags") then TagTextsOf(Fields(Get(doc, "tags").value)) else map[]
  }

  /** The permissions loop of loadData. */
  method ReadPermissions(fields: seq<(string, Json)>) returns (permissions: map<string, seq<string>>)
    ensures permissions == PermissionsOf(fields)
  {
    permissions := map[];
    var i := 0;
    while i < |fields|
      invariant i <= |fields|
      invariant permissions == PermissionsOf(fields[..i])
      decreases |fields| - i
    {
      assert fields[..i + 1][..i] == fields[..i];
      var items := ReadItems(Elements(fields[i].1));
      permissions := permissions[fields[i].0 := items];
      i := i + 1;
    }
    assert fields[..i] == fields;
  }

  /** permissionItems.add(p.asText()) for each element in turn. */
  method ReadItems(elements: seq<Json>) returns (items: seq<string>)
    ensures items == Texts(elements)
  {
    items := [];
    var j := 0;
    while j < |elements|
      invariant j <= |elements|
      invariant items == Texts(elements[..j])
      decreases |elements| - j
    {
      items := items + [AsText(elements[j])];
      j := j + 1;
    }
    assert elements[..j] == elements;
  }

  /** The tags loop of loadData. */
  method ReadTagTexts(fields: seq<(string, Json)>) returns (tags: map<string, string>)
    ensures tags == TagTextsOf(fields)
  {
    tags := map[];
    var i := 0;
    while i < |fields|
      invariant i <= |fields|
      invariant tags == TagTextsOf(fields[..i])
      decreases |fields| - i
    {
      assert fields[..i + 1][..i] == fields[..i];
      tags := tags[fields[i].0 := AsText(fields[i].1)];
      i := i + 1;
    }
    assert fields[..i] == fields;
  }

  /** Each permissions key maps to its element texts, in order. */
  lemma {:induction false} PermissionsContents(fields: seq<(string, Json)>, key: string)
    requires UniqueKeys(fields)
    ensures key in PermissionsOf(fields) <==> Lookup(fields, key).Some?
    ensures key in PermissionsOf(fields) ==> PermissionsOf(fields)[key] == Texts(Elements(Lookup(fields, key).value))
  {
    if fields != [] {
      var front := fields[..|fields| - 1];
      var last := fields[|fields| - 1];
      assert fields == front + [last];
      PermissionsContents(front, key);
      LookupAppend(front, [last], key);
      if last.0 == key {
        LookupFirst(front, key);
      }
    }
  }

  /** Each tags key maps to its entry's text. */
  lemma {:induction false} TagTextsContents(fields: seq<(string, Json)>, key: string)
    requires UniqueKeys(fields)
    ensures key in TagTextsOf(fields) <==> Lookup(fields, key).Some?
    ensures key in TagTextsOf(fields) ==> TagTextsOf(fields)[key] == AsText(Lookup(fields, key).value)
  {
    if fields != [] {
      var front := fields[..|fields| - 1];
      var last := fields[|fields| - 1];
      assert fields == front + [last];
      TagTextsContents(front, key);
      LookupAppend(front, [last], key);
      if last.0 == key {
        LookupFirst(front, key);
      }
    }
  }

  /**
   * Saving then loading gives back the name, the uuid, every permission
   * list in order and every tag.
   */
  lemma SaveLoadRoundTrip(doc: Json, templateName: string, name: string, uuid: string,
                          permissions: map<string, seq<string>>, tags: map<string, string>)
    requires Saved(doc, templateName, Some(name), uuid, permissions, tags)
    ensures Has(doc, "name") && AsText(Get(doc, "name").value) == name
    ensures Has(doc, "uuid") && AsText(Get(doc, "uuid").value) == uuid
    ensures LoadedPermissions(doc) == permissions
    ensures LoadedTags(doc) == tags
  {
    if |permissions| > 0 {
      var fields := Fields(Get(doc, "permissions").value);
      forall k | true
        ensures k in PermissionsOf(fields) <==> k in permissions
        ensures k in permissions ==> PermissionsOf(fields)[k] == permissions[k]
      {
        PermissionsContents(fields, k);
        if k in permissions {
          var items := permissions[k];
          assert Texts(TextNodes(items)) == items;
        }
      }
    } else {
      assert permissions == map[];
    }
    if |tags| > 0 {
      var fields := Fields(Get(doc, "tags").value);
      forall k | true
        ensures k in TagTextsOf(fields) <==> k in tags
        ensures k in tags ==> TagTextsOf(fields)[k] == tags[k]
      {
        TagTextsContents(fields, k);
      }
    } else {
      assert tags == map[];
    }
  }

  /** A null name is saved as a null node and comes back as the text "null". */
  lemma NullNameComesBackAsText(doc: Json, templateName: string, uuid: string,
                                permissions: map<string, seq<string>>, tags: map<string, string>)
    requires Saved(doc, templateName, None, uuid, permissions, tags)
    ensures Has(doc, "name") && AsText(Get(doc, "name").value) == "null"
  {
  }

  /** getTag(name, defaultValue): the override; else, given a default, the template's declared default; else the default. */
  function TagValue(declared: map<string, TagDefinition>, tags: map<string, string>, name: string, d: Option<string>): Option<string> {
    if name in tags then Some(tags[name])
    else if d.Some? && name in declared then declared[name].defaultValue
    else d
  }

  /** getAllTags(): every declared tag with its default, then every override on top. */
  function AllTags(declared: map<string, TagDefinition>, tags: map<string, string>): map<string, Option<string>> {
    (map k | k in declared :: declared[k].defaultValue) + (map k | k in tags :: Some(tags[k]))
  }

  /** The two loops of getAllTags. */
  method CollectAllTags(declared: map<string, TagDefinition>, tags: map<string, string>)
    returns (result: map<string, Option<string>>)
    ensures result == AllTags(declared, tags)
  {
    result := PutDefaults(declared);
    result := PutOverrides(result, tags);
  }

  /** getAllTags' first loop: every declared tag under its default. */
  method PutDefaults(declared: map<string, TagDefinition>) returns (result: map<string, Option<string>>)
    ensures result == map k | k in declared :: declared[k].defaultValue
  {
    result := map[];
    var remaining := declared.Keys;
    while remaining != {}
      invariant remaining <= declared.Keys
      invariant forall k :: k in result <==> k in declared && k !in remaining
      invariant forall k :: k in result ==> result[k] == declared[k].defaultValue
      decreases remaining
    {
      var key :| key in remaining;
      result := result[key := declared[key].defaultValue];
      remaining := remaining - {key};
    }
  }

  /** getAllTags' second loop: every override put over what is there. */
  method PutOverrides(base: map<string, Option<string>>, tags: map<string, string>) returns (result: map<string, Option<string>>)
    ensures result == base + map k | k in tags :: Some(tags[k])
  {
    result := base;
    var remaining := tags.Keys;
    while remaining != {}
      invariant remaining <= tags.Keys
      invariant forall k :: k in result <==> k in base || (k in tags && k !in remaining)
      invariant forall k :: k in result ==> result[k] == if k in tags && k !in remaining then Some(tags[k]) else base[k]
      decreases remaining
    {
      var key :| key in remaining;
      result := result[key := Some(tags[key])];
      remaining := remaining - {key};
    }
  }

  /**
   * getAllTags has the declared names and the override names as keys, and
   * an override's value wins over the declared default.
   */
  lemma AllTagsContents(declared: map<string, TagDefinition>, tags: map<string, string>, name: string)
    ensures name in AllTags(declared, tags) <==> name in declared || name in tags
    ensures name in tags ==> AllTags(declared, tags)[name] == Some(tags[name])
    ensures name !in tags && name in declared ==> AllTags(declared, tags)[name] == declared[name].defaultValue
  {
  }

  /**
   * getTag(name) is the override or null; given a non-null default, getTag
   * agrees with getAllTags on every tag it lists and returns the default
   * for the rest.
   */
  lemma TagValueAgreesWithAllTags(declared: map<string, TagDefinition>, tags: map<string, string>, name: string, d: Option<string>)
    ensures TagValue(declared, tags, name, None) == if name in tags then Some(tags[name]) else None
    ensures d.Some? && name in AllTags(declared, tags) ==> TagValue(declared, tags, name, d) == AllTags(declared, tags)[name]
    ensures name !in AllTags(declared, tags) ==> TagValue(declared, tags, name, d) == d
  {
  }

  /** The bindings createTemplater starts from: every tag getAllTags lists, then DATE_GENERATED. */
  function BaseBindings(declared: map<string, TagDefinition>, tags: map<string, string>, now: string): map<string, Option<string>> {
    AllTags(declared, tags)["DATE_GENERATED" := Some(now)]
  }

  /** The text bound to MC_SERVER_IP and MC_SERVER_PORT: the value, or "invalid" when it is null. */
  function AddressText(ip: Option<string>): string {
    if ip.Some? then ip.value else "invalid"
  }

  function PortText(port: Option<int>): string {
    if port.Some? then IntToString(port.value) else "invalid"
  }

  /** The two address bindings registered after the others. */
  function AddressBindings(vars: map<string, Option<string>>, ip: Option<string>, port: Option<int>): map<string, Option<string>> {
    vars["MC_SERVER_IP" := Some(AddressText(ip))]["MC_SERVER_PORT" := Some(PortText(port))]
  }

  /**
   * MC_SERVER_IP and MC_SERVER_PORT are bound to the address, or to
   * "invalid" when unset, whatever a tag of the same name says; every other
   * binding is kept.
   */
  lemma AddressBindingsContents(vars: map<string, Option<string>>, ip: Option<string>, port: Option<int>)
    ensures AddressBindings(vars, ip, port)["MC_SERVER_IP"] == Some(if ip.Some? then ip.value else "invalid")
    ensures AddressBindings(vars, ip, port)["MC_SERVER_PORT"] == Some(if port.Some? then IntToString(port.value) else "invalid")
    ensures AddressBindings(vars, ip, port).Keys == vars.Keys + {"MC_SERVER_IP", "MC_SERVER_PORT"}
    ensures forall k :: k in vars && k != "MC_SERVER_IP" && k != "MC_SERVER_PORT" ==> AddressBindings(vars, ip, port)[k] == vars[k]
  {
  }
}
