/**
 * ServerManager: the cache of loaded servers keyed by uuid, the enumeration
 * of the servers directory with the same pruning as template discovery, and
 * the lookups by name and by uuid over that enumeration.
 *
 * The servers are the older generation's vanilla servers, read through
 * their VanillaServerTemplate. getTemplate(ServerTemplate.class, name) is
 * given as `templates`: the template it returns for each name, or the
 * exception it throws; a name it does not know is NoSuchTemplate.
 */
module ServerManagers {
  import opened Wrappers
  import opened Json
  import opened Discovery
  import opened LocalTemplateLoaders
  import opened TemplateVanilla

  /** The uuid text of a document that has one. */
  function UuidOf(doc: Json): string
    requires Has(doc, "uuid")
  {
    AsText(Get(doc, "uuid").value)
  }

  /**
   * loadServer(doc) against the instance cache: the server and the cache
   * afterwards. A document without uuid is NoSuchServer; a cached uuid
   * returns the cached server before the template is looked at; a document
   * without template is an IOException; only a newly loaded server is cached.
   */
  function LoadResult(cache: map<string, VanillaServer>, templates: map<string, Result<VanillaServerTemplate>>, doc: Json)
    : (map<string, VanillaServer>, Result<VanillaServer>)
  {
    if !Has(doc, "uuid") then (cache, Err(NoSuchServer))
    else if UuidOf(doc) in cache then (cache, Ok(cache[UuidOf(doc)]))
    else if !Has(doc, "template") then (cache, Err(IOFailure))
    else
      var name := AsText(Get(doc, "template").value);
      if name !in templates then (cache, Err(NoSuchTemplate))
      else match templates[name]
        case Err(e) => (cache, Err(e))
        case Ok(t) =>
          match ServerOf(t.base.tags, doc)
          case Err(e) => (cache, Err(e))
          case Ok(s) => (cache[UuidOf(doc) := s], Ok(s))
  }

  /** Every cached server sits under its own uuid. */
  predicate Keyed(cache: map<string, VanillaServer>) {
    forall k :: k in cache ==> cache[k].uuid == k
  }

  /**
   * A load keeps the cache keyed, returns a server carrying the document's
   * uuid, and adds to the cache only that server under that uuid.
   */
  lemma LoadKeepsKeyed(cache: map<string, VanillaServer>, templates: map<string, Result<VanillaServerTemplate>>, doc: Json)
    requires Keyed(cache)
    ensures Keyed(LoadResult(cache, templates, doc).0)
    ensures LoadResult(cache, templates, doc).1.Ok? ==>
      Has(doc, "uuid") && LoadResult(cache, templates, doc).1.value.uuid == UuidOf(doc) &&
      LoadResult(cache, templates, doc).0 == cache[UuidOf(doc) := LoadResult(cache, templates, doc).1.value]
    ensures LoadResult(cache, templates, doc).1.Err? ==> LoadResult(cache, templates, doc).0 == cache
  {
    if Has(doc, "uuid") && UuidOf(doc) !in cache && Has(doc, "template") {
      var name := AsText(Get(doc, "template").value);
      if name in templates && templates[name].Ok? {
        var s := ServerOf(templates[name].value.base.tags, doc);
        if s.Ok? {
          assert s.value.uuid == UuidOf(doc);
        }
      }
    }
  }

  /**
   * Once loaded, a uuid keeps returning the same server, whatever document
   * carries it and whatever templates are known then.
   */
  lemma LoadIsCached(cache: map<string, VanillaServer>, templates: map<string, Result<VanillaServerTemplate>>, doc: Json,
                     templates2: map<string, Result<VanillaServerTemplate>>, doc2: Json)
    requires LoadResult(cache, templates, doc).1.Ok?
    requires Has(doc, "uuid") && Has(doc2, "uuid") && UuidOf(doc2) == UuidOf(doc)
    ensures LoadResult(LoadResult(cache, templates, doc).0, templates2, doc2) ==
      (LoadResult(cache, templates, doc).0, LoadResult(cache, templates, doc).1)
  {
  }

  /**
   * The exceptions getServers catches around each load: IOException,
   * NoSuchTemplateException, NoSuchServerException, InvalidServerException
   * and InvalidTemplateException. Any other escapes.
   */
  predicate Caught(e: Error) {
    e == IOFailure || e == NoSuchTemplate || e == NoSuchServer || e == InvalidServer || e == InvalidTemplate
  }

  /**
   * The outcome of getServers after the first n candidates, with the cache:
   * each taken candidate whose file could be read is loaded, the servers
   * that load are listed in walk order, and a caught failure is skipped;
   * the first failure of any other kind ends the enumeration and escapes.
   */
  function Listed(cache: map<string, VanillaServer>, templates: map<string, Result<VanillaServerTemplate>>,
                  cands: seq<Candidate>, n: nat): (map<string, VanillaServer>, Result<seq<VanillaServer>>)
    requires n <= |cands|
  {
    if n == 0 then (cache, Ok([]))
    else
      var prev := Listed(cache, templates, cands, n - 1);
      if prev.1.Err? then prev
      else if IsTaken(Paths(cands), n - 1) && cands[n - 1].manifest.Some? then
        var loaded := LoadResult(prev.0, templates, cands[n - 1].manifest.value);
        if loaded.1.Ok? then (loaded.0, Ok(prev.1.value + [loaded.1.value]))
        else if Caught(loaded.1.error) then (loaded.0, prev.1)
        else (loaded.0, Err(loaded.1.error))
      else prev
  }

  /** One candidate more, while nothing has escaped: the listing as the loop body extends it. */
  lemma ListedNext(cache: map<string, VanillaServer>, templates: map<string, Result<VanillaServerTemplate>>,
                   cands: seq<Candidate>, i: nat, cache0: map<string, VanillaServer>, result: seq<VanillaServer>)
    requires i < |cands|
    requires Listed(cache, templates, cands, i).0 == cache0 && Listed(cache, templates, cands, i).1 == Ok(result)
    ensures !(IsTaken(Paths(cands), i) && cands[i].manifest.Some?) ==>
      Listed(cache, templates, cands, i + 1).0 == cache0 && Listed(cache, templates, cands, i + 1).1 == Ok(result)
    ensures IsTaken(Paths(cands), i) && cands[i].manifest.Some? ==>
      var loaded := LoadResult(cache0, templates, cands[i].manifest.value);
      Listed(cache, templates, cands, i + 1).0 == loaded.0 &&
      Listed(cache, templates, cands, i + 1).1 ==
        if loaded.1.Ok? then Ok(result + [loaded.1.value])
        else if Caught(loaded.1.error) then Ok(result)
        else Err(loaded.1.error)
  {
  }

  /** After an escape, one candidate more changes nothing. */
  lemma ListedStopped(cache: map<string, VanillaServer>, templates: map<string, Result<VanillaServerTemplate>>,
                      cands: seq<Candidate>, i: nat, cache0: map<string, VanillaServer>, e: Error)
    requires i < |cands|
    requires Listed(cache, templates, cands, i).0 == cache0 && Listed(cache, templates, cands, i).1 == Err(e)
    ensures Listed(cache, templates, cands, i + 1).0 == cache0 && Listed(cache, templates, cands, i + 1).1 == Err(e)
  {
  }

  /** Once a failure has escaped, later candidates change nothing: the loop was left. */
  lemma {:induction false} EscapePersists(cache: map<string, VanillaServer>, templates: map<string, Result<VanillaServerTemplate>>,
                                          cands: seq<Candidate>, n: nat, m: nat)
    requires n <= m <= |cands| && Listed(cache, templates, cands, n).1.Err?
    ensures Listed(cache, templates, cands, m).0 == Listed(cache, templates, cands, n).0
    ensures Listed(cache, templates, cands, m).1 == Listed(cache, templates, cands, n).1
    decreases m
  {
    if n < m {
      EscapePersists(cache, templates, cands, n, m - 1);
      ListedStopped(cache, templates, cands, m - 1, Listed(cache, templates, cands, n).0, Listed(cache, templates, cands, n).1.error);
    }
  }

  /** What escapes the enumeration is never one of the exceptions getServers catches. */
  lemma {:induction false} EscapeIsUncaught(cache: map<string, VanillaServer>, templates: map<string, Result<VanillaServerTemplate>>,
                                            cands: seq<Candidate>, n: nat)
    requires n <= |cands|
    ensures Listed(cache, templates, cands, n).1.Err? ==> !Caught(Listed(cache, templates, cands, n).1.error)
  {
    if n > 0 {
      EscapeIsUncaught(cache, templates, cands, n - 1);
      var prev := Listed(cache, templates, cands, n - 1);
      if prev.1.Err? {
        ListedStopped(cache, templates, cands, n - 1, prev.0, prev.1.error);
      } else {
        ListedNext(cache, templates, cands, n - 1, prev.0, prev.1.value);
      }
    }
  }

  /** Candidate j is taken by the walk, was read, and carries uuid u. */
  predicate FromCandidate(cands: seq<Candidate>, j: nat, u: string)
    requires j < |cands|
  {
    IsTaken(Paths(cands), j) && cands[j].manifest.Some? &&
    Has(cands[j].manifest.value, "uuid") && UuidOf(cands[j].manifest.value) == u
  }

  /** Some taken, read candidate among the first n carries uuid u. */
  predicate Traced(cands: seq<Candidate>, n: nat, u: string)
    requires n <= |cands|
  {
    exists j: nat :: j < n && FromCandidate(cands, j, u)
  }

  /**
   * Starting from a keyed cache, every listed server carries the uuid of a
   * taken candidate that was read: nested instance directories, skipped by
   * the walk, contribute nothing.
   */
  lemma {:induction false} ListedFromTaken(cache: map<string, VanillaServer>, templates: map<string, Result<VanillaServerTemplate>>,
                                           cands: seq<Candidate>, n: nat)
    requires n <= |cands| && Keyed(cache)
    ensures Keyed(Listed(cache, templates, cands, n).0)
    ensures Listed(cache, templates, cands, n).1.Ok? ==> |Listed(cache, templates, cands, n).1.value| <= n
    ensures Listed(cache, templates, cands, n).1.Ok? ==>
      forall i :: 0 <= i < |Listed(cache, templates, cands, n).1.value| ==>
        Traced(cands, n, Listed(cache, templates, cands, n).1.value[i].uuid)
  {
    if n > 0 {
      ListedFromTaken(cache, templates, cands, n - 1);
      var prev := Listed(cache, templates, cands, n - 1);
      if prev.1.Err? {
        ListedStopped(cache, templates, cands, n - 1, prev.0, prev.1.error);
        return;
      }
      ListedNext(cache, templates, cands, n - 1, prev.0, prev.1.value);
      if IsTaken(Paths(cands), n - 1) && cands[n - 1].manifest.Some? {
        LoadKeepsKeyed(prev.0, templates, cands[n - 1].manifest.value);
      }
      if Listed(cache, templates, cands, n).1.Err? {
        return;
      }
      var r := Listed(cache, templates, cands, n).1.value;
      if IsTaken(Paths(cands), n - 1) && cands[n - 1].manifest.Some? {
        var doc := cands[n - 1].manifest.value;
        LoadKeepsKeyed(prev.0, templates, doc);
        var loaded := LoadResult(prev.0, templates, doc);
        if loaded.1.Ok? {
          assert r == prev.1.value + [loaded.1.value];
          assert FromCandidate(cands, n - 1, loaded.1.value.uuid);
        } else {
          assert r == prev.1.value;
        }
      } else {
        assert r == prev.1.value;
      }
      forall i | 0 <= i < |r|
        ensures Traced(cands, n, r[i].uuid)
      {
        if i < |prev.1.value| {
          assert r[i] == prev.1.value[i];
          assert Traced(cands, n - 1, prev.1.value[i].uuid);
          var j: nat :| j < n - 1 && FromCandidate(cands, j, prev.1.value[i].uuid);
          assert j < n && FromCandidate(cands, j, r[i].uuid);
        } else {
          assert FromCandidate(cands, n - 1, r[i].uuid);
        }
      }
    }
  }

  /**
   * One instance directory whose template fails to load: a wrapped failure
   * (the RuntimeException loadTemplate throws for a failed constructor)
   * escapes the enumeration, while an InvalidTemplateException is caught and
   * the server is left out.
   */
  lemma UncaughtFailureEscapes()
    ensures var doc := JObject([("uuid", JText("u")), ("template", JText("t"))]);
      var cands := [Candidate(["servers", "a"], Some(doc))];
      Listed(map[], map["t" := Err(Wrapped(InvalidTemplate))], cands, 1).1 == Err(Wrapped(InvalidTemplate)) &&
      Listed(map[], map["t" := Err(InvalidTemplate)], cands, 1).1 == Ok([])
  {
    var doc := JObject([("uuid", JText("u")), ("template", JText("t"))]);
    var cands := [Candidate(["servers", "a"], Some(doc))];
    assert IsTaken(Paths(cands), 0);
    assert Has(doc, "uuid") && UuidOf(doc) == "u";
    assert Has(doc, "template") && AsText(Get(doc, "template").value) == "t";
  }

  /** The key a lookup compares: the uuid or the name. */
  function KeyOf(s: VanillaServer, byUuid: bool): string {
    if byUuid then s.uuid else s.name
  }

  /** The filter and findFirst of getServer: the first listed server whose key matches, else NoSuchServer. */
  function FirstMatch(servers: seq<VanillaServer>, key: string, byUuid: bool): (r: Result<VanillaServer>)
    ensures r.Err? <==> forall i :: 0 <= i < |servers| ==> KeyOf(servers[i], byUuid) != key
    ensures r.Err? ==> r.error == NoSuchServer
    ensures r.Ok? ==>
      exists i :: 0 <= i < |servers| && servers[i] == r.value && KeyOf(r.value, byUuid) == key &&
        forall k :: 0 <= k < i ==> KeyOf(servers[k], byUuid) != key
  {
    if servers == [] then Err(NoSuchServer)
    else if KeyOf(servers[0], byUuid) == key then
      assert KeyOf(servers[0], byUuid) == key;
      Ok(servers[0])
    else
      var r := FirstMatch(servers[1..], key, byUuid);
      assert forall i :: 0 <= i < |servers[1..]| ==> servers[1..][i] == servers[i + 1];
      if r.Ok? then
        var i :| 0 <= i < |servers[1..]| && servers[1..][i] == r.value && KeyOf(r.value, byUuid) == key &&
          forall k :: 0 <= k < i ==> KeyOf(servers[1..][k], byUuid) != key;
        assert servers[i + 1] == r.value;
        r
      else r
  }

  class ServerManager {
    /** serverInstances: uuid to loaded server. */
    var serverInstances: map<string, VanillaServer>

    constructor ()
      ensures serverInstances == map[]
    {
      serverInstances := map[];
    }

    /** loadServer(doc), with the document already read. */
    method LoadServer(doc: Json, templates: map<string, Result<VanillaServerTemplate>>) returns (r: Result<VanillaServer>)
      modifies this
      ensures serverInstances == LoadResult(old(serverInstances), templates, doc).0
      ensures r == LoadResult(old(serverInstances), templates, doc).1
    {
      if !Has(doc, "uuid") {
        return Err(NoSuchServer);
      }
      var uuid := AsText(Get(doc, "uuid").value);
      if uuid in serverInstances {
        return Ok(serverInstances[uuid]);
      }
      if !Has(doc, "template") {
        return Err(IOFailure);
      }
      var templateName := AsText(Get(doc, "template").value);
      if templateName !in templates {
        return Err(NoSuchTemplate);
      }
      var template := templates[templateName];
      if template.Err? {
        return Err(template.error);
      }
      r := TemplateVanilla.LoadServer(template.value, doc);
      if r.Ok? {
        serverInstances := serverInstances[uuid := r.value];
      }
    }

    /**
     * getServers(): nothing when the servers directory does not exist;
     * otherwise each candidate of the walk the pruning takes is loaded, those
     * that load are listed, a caught failure is skipped, and any other
     * failure escapes.
     */
    method GetServers(rootExists: bool, cands: seq<Candidate>, templates: map<string, Result<VanillaServerTemplate>>)
      returns (r: Result<seq<VanillaServer>>)
      modifies this
      ensures !rootExists ==> r == Ok([]) && serverInstances == old(serverInstances)
      ensures rootExists ==>
        serverInstances == Listed(old(serverInstances), templates, cands, |cands|).0 &&
        r == Listed(old(serverInstances), templates, cands, |cands|).1
    {
      if !rootExists {
        return Ok([]);
      }
      var result: seq<VanillaServer> := [];
      var lastPath: Option<Path> := None;
      var i := 0;
      while i < |cands|
        invariant i <= |cands|
        invariant lastPath == LastPath(cands, i)
        invariant serverInstances == Listed(old(serverInstances), templates, cands, i).0
        invariant Listed(old(serverInstances), templates, cands, i).1 == Ok(result)
        decreases |cands| - i
      {
        var c := cands[i];
        ListedNext(old(serverInstances), templates, cands, i, serverInstances, result);
        if lastPath.None? || !StartsWith(c.path, lastPath.value) {
          assert IsTaken(Paths(cands), i);
          lastPath := Some(c.path);
          if c.manifest.Some? {
            var loaded := LoadServer(c.manifest.value, templates);
            if loaded.Ok? {
              result := result + [loaded.value];
            } else if !Caught(loaded.error) {
              EscapePersists(old(serverInstances), templates, cands, i + 1, |cands|);
              return Err(loaded.error);
            }
          }
        } else {
          assert !IsTaken(Paths(cands), i);
        }
        i := i + 1;
      }
      return Ok(result);
    }

    /**
     * getServer(name) or getServer(uuid): the first server getServers lists
     * with that key; an exception escaping getServers escapes here too.
     */
    method GetServer(rootExists: bool, cands: seq<Candidate>, templates: map<string, Result<VanillaServerTemplate>>,
                     key: string, byUuid: bool) returns (r: Result<VanillaServer>)
      modifies this
      ensures !rootExists ==> r == Err(NoSuchServer)
      ensures rootExists ==>
        serverInstances == Listed(old(serverInstances), templates, cands, |cands|).0 &&
        r == match Listed(old(serverInstances), templates, cands, |cands|).1
             case Ok(servers) => FirstMatch(servers, key, byUuid)
             case Err(e) => Err(e)
    {
      var servers := GetServers(rootExists, cands, templates);
      if servers.Err? {
        return Err(servers.error);
      }
      r := FirstMatch(servers.value, key, byUuid);
    }
  }
}
