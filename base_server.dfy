/**
 * templates/server/BaseServer: a server instance's persisted record (name,
 * uuid, permissions, tag overrides), its tag view over the template's
 * declared defaults, and the rendering of the template's files into the
 * instance.
 */
module BaseServers {
  import opened Wrappers
  import opened Json
  import opened TagDefinitions
  import opened TagsTemplates
  import opened ServerData
  import T = SimpleTemplater

  class BaseServer {
    const template: TemplateView
    var uuid: Option<string>
    var permissions: map<string, seq<string>>
    var name: Option<string>
    var tags: map<string, string>
    /** The instance's server.yml, when one has been written. */
    var stored: Option<Json>
    /** The instance's "files" directory: each path with its contents. */
    var files: map<string, string>

    /** The builder: template, name and uuid as given, no permissions and no overrides. */
    constructor (template: TemplateView, name: Option<string>, uuid: Option<string>, stored: Option<Json>, files: map<string, string>)
      ensures this.template == template && this.name == name && this.uuid == uuid
      ensures permissions == map[] && tags == map[]
      ensures this.stored == stored && this.files == files
    {
      this.template := template;
      this.name := name;
      this.uuid := uuid;
      permissions := map[];
      tags := map[];
      this.stored := stored;
      this.files := files;
    }

    /** saveData(root) on a fresh root object. */
    method SaveData() returns (r: Result<Json>)
      ensures uuid.None? ==> r == Err(NullDereference)
      ensures uuid.Some? ==> r.Ok? && Saved(r.value, template.name, name, uuid.value, permissions, tags)
    {
      r := SaveDocument(template.name, name, uuid, permissions, tags);
    }

    /** save(): server.yml is replaced by what saveData writes; nothing is written when saveData throws. */
    method Save() returns (outcome: Outcome)
      modifies this`stored
      ensures uuid.None? ==> outcome == Fail(NullDereference) && stored == old(stored)
      ensures uuid.Some? ==> outcome.Pass? && stored.Some? && Saved(stored.value, template.name, name, uuid.value, permissions, tags)
    {
      var doc := SaveData();
      if doc.Err? {
        return Fail(doc.error);
      }
      stored := Some(doc.value);
      return Pass;
    }

    /**
     * loadData(node): name is required and set first, then uuid; permissions
     * and tags are then replaced wholesale by the document's sections.
     */
    method LoadData(doc: Json) returns (outcome: Outcome)
      modifies this`name, this`uuid, this`permissions, this`tags
      ensures !Has(doc, "name") ==> outcome == Fail(InvalidServer) && name == old(name)
      ensures Has(doc, "name") ==> name == Some(AsText(Get(doc, "name").value))
      ensures !Has(doc, "name") || !Has(doc, "uuid") ==>
        outcome == Fail(InvalidServer) && uuid == old(uuid) && permissions == old(permissions) && tags == old(tags)
      ensures Has(doc, "name") && Has(doc, "uuid") ==>
        outcome == Pass && uuid == Some(AsText(Get(doc, "uuid").value)) &&
        permissions == LoadedPermissions(doc) && tags == LoadedTags(doc)
    {
      if !Has(doc, "name") {
        return Fail(InvalidServer);
      }
      name := Some(AsText(Get(doc, "name").value));
      if !Has(doc, "uuid") {
        return Fail(InvalidServer);
      }
      uuid := Some(AsText(Get(doc, "uuid").value));
      permissions := map[];
      if Has(doc, "permissions") {
        permissions := ReadPermissions(Fields(Get(doc, "permissions").value));
      }
      tags := map[];
      if Has(doc, "tags") {
        tags := ReadTagTexts(Fields(Get(doc, "tags").value));
      }
      return Pass;
    }

    /** load(): loadData over server.yml; a missing file is an IOException. */
    method Load() returns (outcome: Outcome)
      modifies this`name, this`uuid, this`permissions, this`tags
      ensures stored.None? ==> outcome == Fail(IOFailure) && unchanged(this)
      ensures stored.Some? && Has(stored.value, "name") && Has(stored.value, "uuid") ==>
        outcome == Pass && name == Some(AsText(Get(stored.value, "name").value)) &&
        uuid == Some(AsText(Get(stored.value, "uuid").value)) &&
        permissions == LoadedPermissions(stored.value) && tags == LoadedTags(stored.value)
      ensures stored.Some? && (!Has(stored.value, "name") || !Has(stored.value, "uuid")) ==> outcome == Fail(InvalidServer)
    {
      if stored.None? {
        return Fail(IOFailure);
      }
      outcome := LoadData(stored.value);
    }

    /** getTag(name, defaultValue); getTag(name) is d == None. */
    function GetTag(tagName: string, d: Option<string>): Option<string>
      reads this
    {
      TagValue(template.tags, tags, tagName, d)
    }

    /** getAllTags(). */
    method GetAllTags() returns (result: map<string, Option<string>>)
      ensures result == AllTags(template.tags, tags)
    {
      result := CollectAllTags(template.tags, tags);
    }

    /** setTag(name, value): only the override map changes. */
    method SetTag(tagName: string, value: string)
      modifies this`tags
      ensures tags == old(tags)[tagName := value]
    {
      tags := tags[tagName := value];
    }

    /** createTemplater(): every tag, then DATE_GENERATED at the time `now`. */
    method CreateTemplater(now: string) returns (st: T.Templater)
      ensures fresh(st) && st.variables == BaseBindings(template.tags, tags, now)
    {
      st := new T.Templater();
      var all := GetAllTags();
      st.RegisterAll(all);
      st.Register("DATE_GENERATED", Some(now));
    }

    /** The loop of updateFiles, with the templater the instance's createTemplater built. */
    method UpdateFilesWith(st: T.Templater, kind: TemplateFileEnum) returns (outcome: Outcome)
      modifies this`files
      ensures (files, outcome) == Rendered(st.variables, template.sources, FilesOf(template, kind), old(files))
    {
      files, outcome := RenderFiles(st, template.sources, FilesOf(template, kind), files);
    }

    /** updateFiles(kind) of a BaseServer that does not override createTemplater. */
    method UpdateFiles(kind: TemplateFileEnum, now: string) returns (outcome: Outcome)
      modifies this`files
      ensures (files, outcome) == Rendered(BaseBindings(template.tags, tags, now), template.sources, FilesOf(template, kind), old(files))
    {
      var st := CreateTemplater(now);
      outcome := UpdateFilesWith(st, kind);
    }
  }

  /**
   * A server saved with a name and uuid, reloaded into any instance of the
   * same template, comes back with the same name, uuid, permissions and
   * overrides.
   */
  method SaveThenLoad(s: BaseServer, t: BaseServer) returns (outcome: Outcome)
    requires s != t && s.uuid.Some? && s.name.Some?
    modifies s`stored, t`name, t`uuid, t`permissions, t`tags, t`stored
    ensures outcome == Pass
    ensures t.name == s.name && t.uuid == s.uuid && t.permissions == s.permissions && t.tags == s.tags
  {
    var saved := s.Save();
    t.stored := s.stored;
    SaveLoadRoundTrip(s.stored.value, s.template.name, s.name.value, s.uuid.value, s.permissions, s.tags);
    outcome := t.Load();
  }
}
