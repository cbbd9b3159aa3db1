/**
 * templates/server/vanilla: the newer generation's vanilla server (a
 * BaseServer whose templater also binds the listen address) and its
 * template, which creates and loads such servers.
 */
module TemplatesVanilla {
  import opened Wrappers
  import opened JavaText
  import opened Json
  import opened TagsTemplates
  import opened Sections
  import opened ServerData
  import opened BaseServers
  import opened FileStore
  import T = SimpleTemplater

  /** A BaseServer with a settable listen address. */
  class VanillaServer {
    const base: BaseServer
    var serverIp: Option<string>
    var serverPort: Option<int>

    constructor (base: BaseServer)
      ensures this.base == base && serverIp.None? && serverPort.None?
    {
      this.base := base;
      serverIp := None;
      serverPort := None;
    }

    /** createTemplater(): the base bindings, then MC_SERVER_IP and MC_SERVER_PORT. */
    method CreateTemplater(now: string) returns (st: T.Templater)
      ensures fresh(st)
      ensures st.variables == AddressBindings(BaseBindings(base.template.tags, base.tags, now), serverIp, serverPort)
    {
      st := base.CreateTemplater(now);
      st.Register("MC_SERVER_IP", Some(if serverIp.Some? then serverIp.value else "invalid"));
      st.Register("MC_SERVER_PORT", Some(if serverPort.Some? then IntToString(serverPort.value) else "invalid"));
    }

    /** updateFiles(kind), which renders with this class's createTemplater. */
    method UpdateFiles(kind: TemplateFileEnum, now: string) returns (outcome: Outcome)
      modifies base`files
      ensures (base.files, outcome) ==
        Rendered(AddressBindings(BaseBindings(base.template.tags, base.tags, now), serverIp, serverPort),
                 base.template.sources, FilesOf(base.template, kind), old(base.files))
    {
      var st := CreateTemplater(now);
      outcome := base.UpdateFilesWith(st, kind);
    }
  }

  /** A character of the class [0-9a-zA-Z-.]. */
  predicate NameChar(c: char) {
    ('0' <= c <= '9') || ('a' <= c <= 'z') || ('A' <= c <= 'Z') || c == '-' || c == '.'
  }

  /** A name createServer accepts: non-empty and matching [0-9a-zA-Z-.]+ as a whole. */
  predicate ValidServerName(name: string) {
    |name| > 0 && forall i :: 0 <= i < |name| ==> NameChar(name[i])
  }

  /** The checks the name passes, by example: letters, digits, '-' and '.' only, at least one. */
  lemma ServerNameExamples()
    ensures ValidServerName("lobby-1.16")
    ensures !ValidServerName("")
    ensures !ValidServerName("my server")
    ensures !ValidServerName("a_b")
  {
    assert !NameChar(' ') && "my server"[2] == ' ';
    assert !NameChar('_') && "a_b"[1] == '_';
  }

  class VanillaServerTemplate {
    const view: TemplateView
    const server: ServerSection
    /** Where new server directories go. */
    const serversPath: Path

    /** The constructor: the "server" section, each field first-wins over the template's walk `nodes`. */
    constructor (view: TemplateView, nodes: seq<Json>, serversPath: Path)
      ensures this.view == view && this.serversPath == serversPath
      ensures server == ServerSection(FirstText(nodes, "server", "version"), FirstText(nodes, "server", "description"))
    {
      this.view := view;
      this.serversPath := serversPath;
      var version := ScanFirst(nodes, "server", "version");
      var description := ScanFirst(nodes, "server", "description");
      server := ServerSection(version, description);
    }

    /**
     * createServer(name): the name is checked, then whether the manager
     * already knows it (`known`), then whether its directory exists. The
     * directory is created and the template's "files" directory copied into
     * it; a template without one fails that copy with an IOException, leaving
     * the new directory behind and no server saved. Otherwise the server is
     * given the name and the fresh `uuid`, saved, and its STATIC files are
     * rendered.
     */
    method CreateServer(name: string, known: bool, fs: FileSystem, uuid: string, now: string)
      returns (r: Result<VanillaServer>)
      modifies fs
      ensures !ValidServerName(name) || known || serversPath + [name] in old(fs.paths) ==>
        r == Err(InvalidServer) && fs.paths == old(fs.paths)
      ensures ValidServerName(name) && !known && serversPath + [name] !in old(fs.paths) ==>
        fs.paths == old(fs.paths) + {serversPath + [name]} &&
        (!view.hasFiles ==> r == Err(IOFailure)) &&
        (r.Ok? <==> view.hasFiles && Rendered(AddressBindings(BaseBindings(view.tags, map[], now), None, None),
                            view.sources, FilesOf(view, STATIC), CopyOf(view.sources)).1.Pass?)
      ensures r.Ok? ==>
        fresh(r.value) && fresh(r.value.base) && r.value.base.template == view &&
        r.value.base.name == Some(name) && r.value.base.uuid == Some(uuid) &&
        r.value.base.permissions == map[] && r.value.base.tags == map[] &&
        r.value.base.stored.Some? && Saved(r.value.base.stored.value, view.name, Some(name), uuid, map[], map[]) &&
        r.value.base.files == Rendered(AddressBindings(BaseBindings(view.tags, map[], now), None, None),
                                       view.sources, FilesOf(view, STATIC), CopyOf(view.sources)).0
    {
      if |name| == 0 || !AllNameChars(name) {
        return Err(InvalidServer);
      }
      if known {
        return Err(InvalidServer);
      }
      var serverPath := serversPath + [name];
      if serverPath in fs.paths {
        return Err(InvalidServer);
      }
      fs.Create(serverPath);
      if !view.hasFiles {
        return Err(IOFailure);
      }
      var base := new BaseServer(view, Some(name), Some(uuid), None, CopyOf(view.sources));
      var server := new VanillaServer(base);
      var saved := base.Save();
      assert saved.Pass?;
      var rendered := server.UpdateFiles(STATIC, now);
      if rendered.Fail? {
        return Err(rendered.error);
      }
      return Ok(server);
    }

    /**
     * loadServer(serverPath): a server of this template with no name or
     * uuid, loaded from its server.yml (`doc`, None when the file is
     * missing); the load's exceptions propagate.
     */
    method LoadServer(doc: Option<Json>, files: map<string, string>) returns (r: Result<VanillaServer>)
      ensures doc.None? ==> r == Err(IOFailure)
      ensures doc.Some? ==> (r.Ok? <==> Has(doc.value, "name") && Has(doc.value, "uuid"))
      ensures doc.Some? && r.Err? ==> r.error == InvalidServer
      ensures r.Ok? ==>
        fresh(r.value) && fresh(r.value.base) && r.value.base.template == view &&
        r.value.base.name == Some(AsText(Get(doc.value, "name").value)) &&
        r.value.base.uuid == Some(AsText(Get(doc.value, "uuid").value)) &&
        r.value.base.permissions == LoadedPermissions(doc.value) && r.value.base.tags == LoadedTags(doc.value)
    {
      var base := new BaseServer(view, None, None, doc, files);
      var server := new VanillaServer(base);
      var loaded := base.Load();
      if loaded.Fail? {
        return Err(loaded.error);
      }
      return Ok(server);
    }
  }

  /** The matches() loop over the name's characters. */
  function AllNameChars(name: string): (r: bool)
    ensures r <==> forall i :: 0 <= i < |name| ==> NameChar(name[i])
  {
    if name == [] then true else NameChar(name[0]) && AllNameChars(name[1..])
  }
}
