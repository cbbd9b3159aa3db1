/**
 * template/server/vanilla: the older generation's vanilla server, read from
 * a server document against its template's tag table, and the vanilla
 * server template with its first-wins "server" section.
 */
module TemplateVanilla {
  import opened Wrappers
  import opened Json
  import opened ApiTag
  import opened TagDefinitions
  import opened ApiTemplates
  import opened Sections
  import opened ServerTemplates
  import opened ServerData

  /** A server read from its document; the uuid is kept as its text. */
  datatype VanillaServer = VanillaServer(
    name: string,
    uuid: string,
    permissions: map<string, seq<string>>,
    tags: map<string, Value>)

  /**
   * The tags map after each entry: a tag the template declares is stored as
   * its parsed value, or dropped when parsing gives null; an undeclared tag
   * is stored as its text.
   */
  function TagValuesOf(declared: map<string, Tag>, fields: seq<(string, Json)>): map<string, Value> {
    if fields == [] then map[]
    else
      var prev := TagValuesOf(declared, fields[..|fields| - 1]);
      var (key, value) := fields[|fields| - 1];
      if key in declared then
        match ParseNode(declared[key], Some(value))
        case Some(v) => prev[key := v]
        case None => prev
      else prev[key := Text(AsText(value))]
  }

  /**
   * The server new VanillaServer(template, node) builds, or the exception it
   * throws: a missing name, or else a missing uuid, is an
   * InvalidServerException; absent sections leave their maps empty.
   */
  function ServerOf(declared: map<string, Tag>, node: Json): (r: Result<VanillaServer>)
    ensures r.Err? <==> !Has(node, "name") || !Has(node, "uuid")
    ensures r.Err? ==> r.error == InvalidServer
    ensures r.Ok? ==> r.value.name == AsText(Get(node, "name").value) && r.value.uuid == AsText(Get(node, "uuid").value)
    ensures r.Ok? && !Has(node, "permissions") ==> r.value.permissions == map[]
    ensures r.Ok? && !Has(node, "tags") ==> r.value.tags == map[]
  {
    if !Has(node, "name") then Err(InvalidServer)
    else if !Has(node, "uuid") then Err(InvalidServer)
    else
      var permissions := if Has(node, "permissions") then PermissionsOf(Fields(Get(node, "permissions").value)) else map[];
      var tags := if Has(node, "tags") then TagValuesOf(declared, Fields(Get(node, "tags").value)) else map[];
      Ok(VanillaServer(AsText(Get(node, "name").value), AsText(Get(node, "uuid").value), permissions, tags))
  }

  /** new VanillaServer(template, node), with `declared` the template's tag table. */
  method NewVanillaServer(declared: map<string, Tag>, node: Json) returns (r: Result<VanillaServer>)
    ensures r == ServerOf(declared, node)
  {
    if !Has(node, "name") {
      return Err(InvalidServer);
    }
    var name := AsText(Get(node, "name").value);
    if !Has(node, "uuid") {
      return Err(InvalidServer);
    }
    var uuid := AsText(Get(node, "uuid").value);
    var permissions: map<string, seq<string>> := map[];
    if Has(node, "permissions") {
      permissions := ReadPermissions(Fields(Get(node, "permissions").value));
    }
    var tags: map<string, Value> := map[];
    if Has(node, "tags") {
      tags := ReadTags(declared, Fields(Get(node, "tags").value));
    }
    return Ok(VanillaServer(name, uuid, permissions, tags));
  }

  /** The tags loop. */
  method ReadTags(declared: map<string, Tag>, fields: seq<(string, Json)>) returns (tags: map<string, Value>)
    ensures tags == TagValuesOf(declared, fields)
  {
    tags := map[];
    var i := 0;
    while i < |fields|
      invariant i <= |fields|
      invariant tags == TagValuesOf(declared, fields[..i])
      decreases |fields| - i
    {
      assert fields[..i + 1][..i] == fields[..i];
      var (key, value) := fields[i];
      if key in declared {
        var result := ParseNode(declared[key], Some(value));
        if result.Some? {
          tags := tags[key := result.value];
        }
      } else {
        tags := tags[key := Text(AsText(value))];
      }
      i := i + 1;
    }
    assert fields[..i] == fields;
  }

  /**
   * A declared tag holds its parsed value, and is absent when that value is
   * null; an undeclared tag holds its text.
   */
  lemma {:induction false} TagValuesContents(declared: map<string, Tag>, fields: seq<(string, Json)>, key: string)
    requires UniqueKeys(fields)
    ensures key in TagValuesOf(declared, fields) <==>
      Lookup(fields, key).Some? && (key in declared ==> ParseNode(declared[key], Lookup(fields, key)).Some?)
    ensures key in TagValuesOf(declared, fields) && key in declared ==>
      TagValuesOf(declared, fields)[key] == ParseNode(declared[key], Lookup(fields, key)).value
    ensures key in TagValuesOf(declared, fields) && key !in declared ==>
      TagValuesOf(declared, fields)[key] == Text(AsText(Lookup(fields, key).value))
  {
    if fields != [] {
      var front := fields[..|fields| - 1];
      var last := fields[|fields| - 1];
      assert fields == front + [last];
      TagValuesContents(declared, front, key);
      LookupAppend(front, [last], key);
      if last.0 == key {
        LookupFirst(front, key);
      }
    }
  }

  /** A CHOICE tag given a value outside its choices is dropped rather than stored. */
  lemma ChoiceOutsideChoicesDropped(t: Tag, v: Json)
    requires t.tagType == CHOICE && AsText(v) !in t.choices
    ensures TagValuesOf(map["mode" := t], [("mode", v)]) == map[]
  {
    assert [("mode", v)][..0] == [];
  }

  datatype VanillaServerTemplate = VanillaServerTemplate(base: ServerTemplate, server: ServerSection)

  /**
   * new VanillaServerTemplate(manager, node): the ServerTemplate (whose
   * failure propagates), then the "server" section with each field
   * first-wins over getAllNodes().
   */
  method NewVanillaServerTemplate(arena: Arena, id: TemplateId) returns (r: Result<VanillaServerTemplate>)
    requires Closed(arena) && id in arena
    ensures r.Ok? <==> TagTable(TagEntries(AllNodes(arena, id))).Ok?
    ensures r.Ok? ==> r.value.base == ServerTemplate(arena[id], TagTable(TagEntries(AllNodes(arena, id))).value)
    ensures r.Err? ==> r.error == TagTable(TagEntries(AllNodes(arena, id))).error
    ensures r.Ok? ==> (r.value.server ==
      ServerSection(FirstText(AllNodes(arena, id), "server", "version"), FirstText(AllNodes(arena, id), "server", "description")))
  {
    var base := NewServerTemplate(arena, id);
    var nodes := GetAllNodes(arena, id);
    if base.Err? {
      return Err(base.error);
    }
    var version := ScanFirst(nodes, "server", "version");
    var description := ScanFirst(nodes, "server", "description");
    return Ok(VanillaServerTemplate(base.value, ServerSection(version, description)));
  }

  /**
   * A field the template's own document leaves unset is inherited from the
   * first parent's documents when they set it, ahead of any later parent.
   */
  lemma InheritedFromFirstParent(arena: Arena, id: TemplateId, key: string)
    requires Closed(arena) && id in arena && |arena[id].parents| > 0
    requires SectionField(arena[id].node, "server", key).None?
    requires FirstText(Walk(arena, arena[id].parents[0], [arena[id].node]).0, "server", key).Some?
    ensures FirstText(AllNodes(arena, id), "server", key) ==
      FirstText(Walk(arena, arena[id].parents[0], [arena[id].node]).0, "server", key)
  {
    var first := Walk(arena, arena[id].parents[0], [arena[id].node]).0;
    assert [] + [arena[id].node] == [arena[id].node];
    WalkSegments(arena, id, []);
    FirstTextSkipUnset(arena[id].node, first, "server", key);
    FirstTextPrefix(AllNodes(arena, id), [arena[id].node] + first, "server", key);
  }

  /** createServer(name): always null. */
  function CreateServer(t: VanillaServerTemplate, name: string): (r: Option<VanillaServer>)
    ensures r.None?
  {
    None
  }

  /** loadServer(node): a VanillaServer read against this template's tags; its exceptions propagate. */
  method LoadServer(t: VanillaServerTemplate, node: Json) returns (r: Result<VanillaServer>)
    ensures r == ServerOf(t.base.tags, node)
  {
    r := NewVanillaServer(t.base.tags, node);
  }
}
