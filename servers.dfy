/**
 * templates/server/Server: a server instance with its lifecycle. The
 * persisted record (name, uuid, permissions, tag overrides, server.yml and
 * the rendered "files" directory) is the same as BaseServer's and is held in
 * a BaseServer; on top of it a Server keeps its address, its status and the
 * handles of the process it launched.
 *
 * The process itself is outside the model: spawning it, the ping that
 * checks it is up and the end of its output arrive as parameters or as
 * calls (Ping, OutputClosed) made by whoever observes them.
 */
module Servers {
  import opened Wrappers
  import opened TagDefinitions
  import opened TagsTemplates
  import opened ServerData
  import opened BaseServers
  import T = SimpleTemplater

  datatype ServerStatus = UNKNOWN | STOPPED | INIT | STARTING | STARTED | STOPPING | ERROR

  /**
   * The switch at the head of start(): STARTED, STARTING, INIT and every
   * other state but STOPPED and ERROR refuse; ERROR is reset to STOPPED.
   */
  function StartGate(status: ServerStatus): (r: Result<ServerStatus>)
    ensures r.Ok? <==> status == STOPPED || status == ERROR
    ensures r.Ok? ==> r.value == STOPPED
    ensures r.Err? ==> r.error == InvalidServer
  {
    match status
    case STARTED => Err(InvalidServer)
    case STARTING => Err(InvalidServer)
    case INIT => Err(InvalidServer)
    case ERROR => Ok(STOPPED)
    case STOPPED => Ok(STOPPED)
    case _ => Err(InvalidServer)
  }

  /** The switch at the head of stop(): only a STARTED server is stopped. */
  function StopGate(status: ServerStatus): (r: Outcome)
    ensures r.Pass? <==> status == STARTED
    ensures r.Fail? ==> r.error == InvalidServer
  {
    match status
    case STOPPED => Fail(InvalidServer)
    case STOPPING => Fail(InvalidServer)
    case STARTED => Pass
    case _ => Fail(InvalidServer)
  }

  /** A declared tag that is required, has no override and no default. */
  predicate MissingRequired(declared: map<string, TagDefinition>, tags: map<string, string>, k: string)
    requires k in declared
  {
    declared[k].required && k !in tags && declared[k].defaultValue.None?
  }

  /** Some declared tag is required and has no value at all. */
  predicate AnyMissingRequired(declared: map<string, TagDefinition>, tags: map<string, string>) {
    exists k :: k in declared && MissingRequired(declared, tags, k)
  }

  /**
   * The loop of startServer over the template's tags: the name of a tag
   * that is required and has no value, or none when every required tag has
   * one. Which offending tag is named depends on the map's order.
   */
  method CheckRequiredTags(declared: map<string, TagDefinition>, tags: map<string, string>) returns (missing: Option<string>)
    ensures missing.None? <==> !AnyMissingRequired(declared, tags)
    ensures missing.Some? ==> missing.value in declared && MissingRequired(declared, tags, missing.value)
  {
    var remaining := declared.Keys;
    while remaining != {}
      invariant remaining <= declared.Keys
      invariant forall k :: k in declared && k !in remaining ==> !MissingRequired(declared, tags, k)
      decreases remaining
    {
      var key :| key in remaining;
      if declared[key].required && key !in tags && declared[key].defaultValue.None? {
        return Some(key);
      }
      remaining := remaining - {key};
    }
    return None;
  }

  /** The bindings of newTemplater(): every tag, DATE_GENERATED, then the address. */
  function StartBindings(t: TemplateView, tags: map<string, string>, now: string, ip: Option<string>, port: Option<int>): map<string, Option<string>> {
    AddressBindings(BaseBindings(t.tags, tags, now), ip, port)
  }

  /**
   * How startServer ends, its steps in order: the required-tag check, the
   * rendering of the DYNAMIC files, the template's preparation of the
   * server, the substitution into the start command, and the spawn.
   */
  function LaunchOutcome(t: TemplateView, tags: map<string, string>, vars: map<string, Option<string>>,
                         files: map<string, string>, prepared: Outcome, spawned: Outcome): Outcome
  {
    if AnyMissingRequired(t.tags, tags) then Fail(InvalidServer)
    else if Rendered(vars, t.sources, FilesOf(t, DYNAMIC), files).1.Fail? then Rendered(vars, t.sources, FilesOf(t, DYNAMIC), files).1
    else if prepared.Fail? then prepared
    else match T.Render(vars, t.startExecute, T.MaxTries)
      case Err(e) => Fail(e)
      case Ok(_) => spawned
  }

  /**
   * A launch fails on a missing required tag before anything else is done,
   * and otherwise succeeds exactly when every later step does.
   */
  lemma LaunchOrder(t: TemplateView, tags: map<string, string>, vars: map<string, Option<string>>,
                    files: map<string, string>, prepared: Outcome, spawned: Outcome)
    ensures AnyMissingRequired(t.tags, tags) ==> LaunchOutcome(t, tags, vars, files, prepared, spawned) == Fail(InvalidServer)
    ensures LaunchOutcome(t, tags, vars, files, prepared, spawned).Pass? <==>
      !AnyMissingRequired(t.tags, tags) && Rendered(vars, t.sources, FilesOf(t, DYNAMIC), files).1.Pass? &&
      prepared.Pass? && T.Render(vars, t.startExecute, T.MaxTries).Ok? && spawned.Pass?
  {
  }

  /** The ServerManager's instance map as the servers see it: uuid to running server. */
  class Registry {
    var instances: map<string, Server>

    constructor ()
      ensures instances == map[]
    {
      instances := map[];
    }
  }

  class Server {
    const record: BaseServer
    const registry: Registry
    var serverIp: Option<string>
    var serverPort: Option<int>
    var status: ServerStatus
    /** process != null. */
    var processAttached: bool
    /** processInput != null. */
    var inputOpen: bool
    /** The command line the process was started with, after substitution. */
    var command: Option<string>
    /** Every line written to the process's input since it was started. */
    var sent: seq<string>

    constructor (record: BaseServer, registry: Registry)
      ensures this.record == record && this.registry == registry
      ensures status == UNKNOWN && !processAttached && !inputOpen
      ensures serverIp.None? && serverPort.None? && command.None? && sent == []
    {
      this.record := record;
      this.registry := registry;
      serverIp := None;
      serverPort := None;
      status := UNKNOWN;
      processAttached := false;
      inputOpen := false;
      command := None;
      sent := [];
    }

    /** newTemplater(): every tag, DATE_GENERATED at `now`, then MC_SERVER_IP and MC_SERVER_PORT. */
    method NewTemplater(now: string) returns (st: T.Templater)
      ensures fresh(st)
      ensures st.variables == StartBindings(record.template, record.tags, now, serverIp, serverPort)
    {
      st := record.CreateTemplater(now);
      st.Register("MC_SERVER_IP", Some(AddressText(serverIp)));
      st.Register("MC_SERVER_PORT", Some(PortText(serverPort)));
    }

    /** updateFiles(kind), rendered with newTemplater(). */
    method UpdateFiles(kind: TemplateFileEnum, now: string) returns (outcome: Outcome)
      modifies record`files
      ensures (record.files, outcome) ==
        Rendered(StartBindings(record.template, record.tags, now, serverIp, serverPort),
                 record.template.sources, FilesOf(record.template, kind), old(record.files))
    {
      var st := NewTemplater(now);
      outcome := record.UpdateFilesWith(st, kind);
    }

    /**
     * setTag(name, value): the override is stored, server.yml is saved and
     * the DYNAMIC files are rendered again; a save that throws stops it
     * before the files are touched.
     */
    method SetTag(tagName: string, value: string, now: string) returns (outcome: Outcome)
      modifies record`tags, record`stored, record`files
      ensures record.tags == old(record.tags)[tagName := value]
      ensures record.uuid.None? ==> outcome == Fail(NullDereference) && record.files == old(record.files) && record.stored == old(record.stored)
      ensures record.uuid.Some? ==>
        record.stored.Some? && Saved(record.stored.value, record.template.name, record.name, record.uuid.value, record.permissions, record.tags) &&
        (record.files, outcome) == Rendered(StartBindings(record.template, record.tags, now, serverIp, serverPort),
                                            record.template.sources, FilesOf(record.template, DYNAMIC), old(record.files))
    {
      record.SetTag(tagName, value);
      var saved := record.Save();
      if saved.Fail? {
        return saved;
      }
      outcome := UpdateFiles(DYNAMIC, now);
    }

    /** resetTag(name): only when an override was removed is the record saved and the DYNAMIC files rendered. */
    method ResetTag(tagName: string, now: string) returns (outcome: Outcome)
      modifies record`tags, record`stored, record`files
      ensures tagName !in old(record.tags) ==> outcome == Pass && unchanged(record)
      ensures record.tags == old(record.tags) - {tagName}
      ensures tagName in old(record.tags) && record.uuid.None? ==>
        outcome == Fail(NullDereference) && record.files == old(record.files) && record.stored == old(record.stored)
      ensures tagName in old(record.tags) && record.uuid.Some? ==>
        record.stored.Some? && Saved(record.stored.value, record.template.name, record.name, record.uuid.value, record.permissions, record.tags) &&
        (record.files, outcome) == Rendered(StartBindings(record.template, record.tags, now, serverIp, serverPort),
                                            record.template.sources, FilesOf(record.template, DYNAMIC), old(record.files))
    {
      if tagName !in record.tags {
        assert record.tags - {tagName} == record.tags;
        return Pass;
      }
      record.tags := record.tags - {tagName};
      var saved := record.Save();
      if saved.Fail? {
        return saved;
      }
      outcome := UpdateFiles(DYNAMIC, now);
    }

    /** getTag(name, defaultValue). */
    function GetTag(tagName: string, d: Option<string>): (r: Option<string>)
      reads this, record
      ensures r == record.GetTag(tagName, d)
    {
      record.GetTag(tagName, d)
    }

    /** The switch of start(); an ERROR server is reset to STOPPED. */
    method BeginStart() returns (outcome: Outcome)
      modifies this`status
      ensures StartGate(old(status)).Err? ==> outcome == Fail(InvalidServer) && status == old(status)
      ensures StartGate(old(status)).Ok? ==> outcome == Pass && status == STOPPED
    {
      if status == STARTED || status == STARTING || status == INIT {
        return Fail(InvalidServer);
      } else if status == ERROR {
        status := STOPPED;
      } else if status != STOPPED {
        return Fail(InvalidServer);
      }
      return Pass;
    }

    /**
     * startServer(): INIT, the required-tag check, the DYNAMIC files, the
     * template's preparation (`prepared`), STARTING, then the process
     * launched with the substituted start command (`spawned`) and its input
     * and output attached.
     */
    method StartServer(now: string, prepared: Outcome, spawned: Outcome) returns (outcome: Outcome)
      modifies this`status, this`processAttached, this`inputOpen, this`command, this`sent, record`files
      ensures outcome == LaunchOutcome(record.template, record.tags, StartBindings(record.template, record.tags, now, serverIp, serverPort),
                                       old(record.files), prepared, spawned)
      ensures AnyMissingRequired(record.template.tags, record.tags) ==> record.files == old(record.files)
      ensures !AnyMissingRequired(record.template.tags, record.tags) ==>
        record.files == Rendered(StartBindings(record.template, record.tags, now, serverIp, serverPort),
                                 record.template.sources, FilesOf(record.template, DYNAMIC), old(record.files)).0
      ensures outcome.Pass? ==>
        status == STARTING && processAttached && inputOpen && sent == [] &&
        command == Some(T.Render(StartBindings(record.template, record.tags, now, serverIp, serverPort), record.template.startExecute, T.MaxTries).value)
      ensures outcome.Fail? ==>
        status in {INIT, STARTING} &&
        processAttached == old(processAttached) && inputOpen == old(inputOpen) && sent == old(sent)
    {
      status := INIT;
      var missing := CheckRequiredTags(record.template.tags, record.tags);
      if missing.Some? {
        return Fail(InvalidServer);
      }
      var rendered := UpdateFiles(DYNAMIC, now);
      if rendered.Fail? {
        return rendered;
      }
      if prepared.Fail? {
        return prepared;
      }
      status := STARTING;
      var st := NewTemplater(now);
      var line := st.Replace(record.template.startExecute);
      if line.Err? {
        return Fail(line.error);
      }
      if spawned.Fail? {
        return spawned;
      }
      command := Some(line.value);
      processAttached := true;
      inputOpen := true;
      sent := [];
      return Pass;
    }

    /**
     * The rest of start(): a failed startServer leaves the server in ERROR
     * and is rethrown; otherwise the server is entered in the instance map
     * under its uuid (a null uuid makes that put throw, with the same effect).
     */
    method FinishStart(started: Outcome) returns (outcome: Outcome)
      modifies this`status, registry`instances
      ensures started.Fail? ==> outcome == started && status == ERROR && registry.instances == old(registry.instances)
      ensures started.Pass? && record.uuid.None? ==>
        outcome == Fail(NullDereference) && status == ERROR && registry.instances == old(registry.instances)
      ensures started.Pass? && record.uuid.Some? ==>
        outcome == Pass && status == old(status) && registry.instances == old(registry.instances)[record.uuid.value := this]
    {
      if started.Fail? {
        status := ERROR;
        return started;
      }
      if record.uuid.None? {
        status := ERROR;
        return Fail(NullDereference);
      }
      registry.instances := registry.instances[record.uuid.value := this];
      return Pass;
    }

    /**
     * start(): refused, with nothing changed, unless STOPPED or ERROR; a
     * successful start leaves the server STARTING with a process attached and
     * its uuid registered; a failed one leaves it in ERROR, unregistered.
     */
    method Start(now: string, prepared: Outcome, spawned: Outcome) returns (outcome: Outcome)
      modifies this`status, this`processAttached, this`inputOpen, this`command, this`sent, record`files, registry`instances
      ensures StartGate(old(status)).Err? ==>
        outcome == Fail(InvalidServer) && status == old(status) && unchanged(record) && unchanged(registry) &&
        processAttached == old(processAttached)
      ensures StartGate(old(status)).Ok? ==>
        var launched := LaunchOutcome(record.template, record.tags, StartBindings(record.template, record.tags, now, serverIp, serverPort),
                                      old(record.files), prepared, spawned);
        (outcome.Pass? <==> launched.Pass? && record.uuid.Some?) &&
        (launched.Fail? ==> outcome == launched)
      ensures StartGate(old(status)).Ok? && outcome.Pass? ==>
        status == STARTING && processAttached && inputOpen &&
        registry.instances == old(registry.instances)[record.uuid.value := this]
      ensures StartGate(old(status)).Ok? && outcome.Fail? ==>
        status == ERROR && registry.instances == old(registry.instances)
    {
      outcome := BeginStart();
      if outcome.Fail? {
        return;
      }
      var started := StartServer(now, prepared, spawned);
      outcome := FinishStart(started);
    }

    /** sendCommand(command): refused when the process takes no input. */
    method SendCommand(line: string) returns (outcome: Outcome)
      modifies this`sent
      ensures !inputOpen ==> outcome == Fail(InvalidServer) && sent == old(sent)
      ensures inputOpen ==> outcome == Pass && sent == old(sent) + [line]
    {
      if !inputOpen {
        return Fail(InvalidServer);
      }
      sent := sent + [line];
      return Pass;
    }

    /**
     * stopServer(): STOPPING, then each of the template's stop commands in
     * order; the first refused command ends it.
     */
    method StopServer() returns (outcome: Outcome)
      modifies this`status, this`sent
      ensures status == STOPPING
      ensures inputOpen ==> outcome == Pass && sent == old(sent) + record.template.stopCommands
      ensures !inputOpen ==>
        sent == old(sent) && (outcome.Pass? <==> record.template.stopCommands == []) &&
        (outcome.Fail? ==> outcome.error == InvalidServer)
    {
      status := STOPPING;
      var commands := record.template.stopCommands;
      var i := 0;
      while i < |commands|
        invariant i <= |commands|
        invariant status == STOPPING
        invariant inputOpen ==> sent == old(sent) + commands[..i]
        invariant !inputOpen ==> sent == old(sent) && i == 0
        decreases |commands| - i
      {
        var sentOne := SendCommand(commands[i]);
        if sentOne.Fail? {
          return sentOne;
        }
        assert commands[..i + 1] == commands[..i] + [commands[i]];
        i := i + 1;
      }
      assert commands[..i] == commands;
      return Pass;
    }

    /**
     * stop(): refused, with nothing changed, unless STARTED; otherwise the
     * stop commands are sent and the uuid leaves the instance map (a null uuid
     * removes nothing). A refused command leaves the server STOPPING and
     * registered.
     */
    method Stop() returns (outcome: Outcome)
      modifies this`status, this`sent, registry`instances
      ensures old(status) != STARTED ==>
        outcome == Fail(InvalidServer) && status == old(status) && sent == old(sent) && unchanged(registry)
      ensures old(status) == STARTED ==> status == STOPPING
      ensures old(status) == STARTED && outcome.Pass? ==>
        registry.instances == (if record.uuid.Some? then old(registry.instances) - {record.uuid.value} else old(registry.instances))
      ensures old(status) == STARTED ==>
        (outcome.Pass? <==> inputOpen || record.template.stopCommands == []) &&
        (outcome.Fail? ==> registry.instances == old(registry.instances))
      ensures old(status) == STARTED && inputOpen ==> sent == old(sent) + record.template.stopCommands
    {
      outcome := StopGate(status);
      if outcome.Fail? {
        return;
      }
      outcome := StopServer();
      if outcome.Fail? {
        return;
      }
      if record.uuid.Some? {
        registry.instances := registry.instances - {record.uuid.value};
      }
    }

    /** onServerStart(). */
    method OnServerStart()
      modifies this`status
      ensures status == STARTED
    {
      status := STARTED;
    }

    /** onServerStop(). */
    method OnServerStop()
      modifies this`status
      ensures status == STOPPED
    {
      status := STOPPED;
    }

    /**
     * The check scheduled after launch: while a process is attached, a
     * successful ping marks the server STARTED and a failed one leaves it as
     * it is, to be asked again; with no process the check ends.
     */
    method Ping(pinged: bool)
      modifies this`status
      ensures status == if old(processAttached) && pinged then STARTED else old(status)
    {
      if processAttached {
        if !pinged {
          return;
        }
        OnServerStart();
      }
    }

    /** The end of the output reader: the process handles are cleared. */
    method DetachProcess()
      modifies this`processAttached, this`inputOpen
      ensures !processAttached && !inputOpen
    {
      processAttached := false;
      inputOpen := false;
    }

    /** The output stream ends: handles cleared, then onServerStop(). */
    method OutputClosed()
      modifies this`processAttached, this`inputOpen, this`status
      ensures !processAttached && !inputOpen && status == STOPPED
    {
      DetachProcess();
      OnServerStop();
    }
  }

  /**
   * A full round: a stopped server that starts, is pinged up, and is
   * stopped with its input open goes STOPPED, STARTING, STARTED, STOPPING and
   * leaves the instance map as it found it for its uuid.
   */
  method StartPingStop(s: Server, now: string) returns (outcome: Outcome)
    requires s.status == STOPPED && s.record.uuid.Some?
    requires s.record.uuid.value !in s.registry.instances
    modifies s, s.record`files, s.registry`instances
    ensures outcome.Pass? ==> s.status == STOPPING && s.registry.instances == old(s.registry.instances)
    ensures outcome.Pass? <==>
      LaunchOutcome(s.record.template, s.record.tags, StartBindings(s.record.template, s.record.tags, now, s.serverIp, s.serverPort),
                    old(s.record.files), Pass, Pass).Pass?
  {
    outcome := s.Start(now, Pass, Pass);
    if outcome.Fail? {
      return;
    }
    s.Ping(true);
    assert s.status == STARTED;
    outcome := s.Stop();
    assert s.registry.instances == old(s.registry.instances)[s.record.uuid.value := s] - {s.record.uuid.value};
    assert s.registry.instances == old(s.registry.instances);
  }
}
