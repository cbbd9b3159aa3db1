/**
 * The BungeeCord platform: BungeeServerManager hands each server a port of
 * its configured range and enters it in the proxy's server table, and
 * BungeePaperServer wraps a server's start and stop in that registration.
 */
module Bungee {
  import opened Wrappers
  import opened Servers

  /** The proxy's entry for a server: constructServerInfo(name, address, motd, restricted). */
  datatype ServerInfo = ServerInfo(name: Option<string>, host: string, port: int, motd: Option<string>, restricted: bool)

  /** The address every server listens on. */
  const LocalHost: string := "127.0.0.1"

  /**
   * reservePort(): the lowest port of [start, start + amount) that is not in
   * the reserved list, or PortNotFound when every one of them is.
   */
  function FirstFree(start: int, amount: int, reserved: seq<int>): (r: Result<int>)
    ensures r.Err? <==> forall q :: start <= q < start + amount ==> q in reserved
    ensures r.Err? ==> r.error == PortNotFound
    ensures r.Ok? ==>
      start <= r.value < start + amount && r.value !in reserved &&
      forall q :: start <= q < r.value ==> q in reserved
    decreases amount
  {
    if amount <= 0 then Err(PortNotFound)
    else if start !in reserved then Ok(start)
    else FirstFree(start + 1, amount - 1, reserved)
  }

  /**
   * Nothing is ever added to the reserved list, so while it is empty every
   * reservation hands out the first port of the range: two servers started
   * one after the other are given the same port.
   */
  lemma UnreservedRangeGivesFirst(start: int, amount: int)
    requires amount > 0
    ensures FirstFree(start, amount, []) == Ok(start)
  {
  }

  class BungeeServerManager {
    const portStart: int
    const portAmount: int
    /** reservedPorts: the list releasePort removes from; nothing adds to it. */
    var reservedPorts: seq<int>
    /** The proxy's server table, by server name (a null name is a key like any other). */
    var proxyServers: map<Option<string>, ServerInfo>

    constructor (portStart: int, portAmount: int, proxyServers: map<Option<string>, ServerInfo>)
      ensures this.portStart == portStart && this.portAmount == portAmount
      ensures reservedPorts == [] && this.proxyServers == proxyServers
    {
      this.portStart := portStart;
      this.portAmount := portAmount;
      reservedPorts := [];
      this.proxyServers := proxyServers;
    }

    /** reservePort(): the loop over the range; nothing is recorded. */
    method ReservePort() returns (r: Result<int>)
      ensures r == FirstFree(portStart, portAmount, reservedPorts)
    {
      var port := portStart;
      while port < portStart + portAmount
        invariant portStart <= port || portAmount <= 0
        invariant port <= portStart + portAmount || portAmount <= 0
        invariant portAmount > 0 ==> FirstFree(port, portStart + portAmount - port, reservedPorts) == FirstFree(portStart, portAmount, reservedPorts)
        decreases portStart + portAmount - port
      {
        if port !in reservedPorts {
          return Ok(port);
        }
        port := port + 1;
      }
      return Err(PortNotFound);
    }

    /**
     * releasePort(port): List.remove(int) removes by index, so `port` is
     * taken as a position in the list; out of range it throws.
     */
    method ReleasePort(port: int) returns (outcome: Outcome)
      modifies this`reservedPorts
      ensures 0 <= port < |old(reservedPorts)| ==>
        outcome == Pass && reservedPorts == old(reservedPorts)[..port] + old(reservedPorts)[port + 1..]
      ensures !(0 <= port < |old(reservedPorts)|) ==>
        outcome == Fail(IndexOutOfBounds) && reservedPorts == old(reservedPorts)
    {
      if !(0 <= port < |reservedPorts|) {
        return Fail(IndexOutOfBounds);
      }
      reservedPorts := reservedPorts[..port] + reservedPorts[port + 1..];
      return Pass;
    }

    /**
     * registerBungeeServer(server): a port is reserved, the server is given
     * it and the local address, and the proxy gets an entry under the
     * server's name. `entered` is how the proxy's construction and entry
     * end; when they throw, releasePort runs and its own exception, if any,
     * replaces theirs.
     */
    method Register(server: Server, entered: Outcome) returns (outcome: Outcome)
      modifies this`reservedPorts, this`proxyServers, server`serverPort, server`serverIp
      ensures FirstFree(portStart, portAmount, old(reservedPorts)).Err? ==>
        outcome == Fail(PortNotFound) && unchanged(this) && unchanged(server)
      ensures FirstFree(portStart, portAmount, old(reservedPorts)).Ok? ==>
        var port := FirstFree(portStart, portAmount, old(reservedPorts)).value;
        server.serverPort == Some(port) && server.serverIp == Some(LocalHost) &&
        (entered.Pass? ==>
          outcome == Pass && reservedPorts == old(reservedPorts) &&
          proxyServers == old(proxyServers)[server.record.name := ServerInfo(server.record.name, LocalHost, port, server.record.name, true)]) &&
        (entered.Fail? ==>
          proxyServers == old(proxyServers) &&
          outcome == (if 0 <= port < |old(reservedPorts)| then entered else Fail(IndexOutOfBounds)))
    {
      var port := ReservePort();
      if port.Err? {
        return Fail(port.error);
      }
      server.serverPort := Some(port.value);
      server.serverIp := Some(LocalHost);
      if entered.Fail? {
        var released := ReleasePort(port.value);
        if released.Fail? {
          return released;
        }
        return entered;
      }
      var info := ServerInfo(server.record.name, LocalHost, port.value, server.record.name, true);
      proxyServers := proxyServers[server.record.name := info];
      return Pass;
    }

    /** unregisterBungeeServer(server): the proxy entry goes, and the server's address is cleared. */
    method Unregister(server: Server)
      modifies this`proxyServers, server`serverPort, server`serverIp
      ensures proxyServers == old(proxyServers) - {server.record.name}
      ensures server.serverPort.None? && server.serverIp.None?
    {
      proxyServers := proxyServers - {server.record.name};
      server.serverPort := None;
      server.serverIp := None;
    }

    /**
     * serverPing(server): false for a server the proxy does not know;
     * otherwise whether the proxy's ping got an answer (`answered`).
     */
    method ServerPing(server: Server, answered: bool) returns (up: bool)
      ensures up <==> server.record.name in proxyServers && answered
    {
      if server.record.name !in proxyServers {
        return false;
      }
      return answered;
    }
  }

  /** A Paper server run behind the proxy. */
  class BungeePaperServer {
    const server: Server
    const manager: BungeeServerManager

    constructor (server: Server, manager: BungeeServerManager)
      ensures this.server == server && this.manager == manager
    {
      this.server := server;
      this.manager := manager;
    }

    /**
     * startServer(): refused when the proxy already has a server of this
     * name; then registered with the proxy (no free port is reported as an
     * InvalidServerException); then the server's own startServer, whose
     * failure unregisters it again before being rethrown.
     */
    method StartServer(now: string, entered: Outcome, prepared: Outcome, spawned: Outcome) returns (outcome: Outcome)
      modifies manager`reservedPorts, manager`proxyServers, server`serverPort, server`serverIp
      modifies server`status, server`processAttached, server`inputOpen, server`command, server`sent, server.record`files
      ensures server.record.name in old(manager.proxyServers) ==>
        outcome == Fail(InvalidServer) && unchanged(manager) && unchanged(server) && unchanged(server.record)
      ensures server.record.name !in old(manager.proxyServers) &&
              FirstFree(manager.portStart, manager.portAmount, old(manager.reservedPorts)).Err? ==>
        outcome == Fail(InvalidServer) && unchanged(server) && unchanged(server.record)
      ensures outcome.Pass? ==>
        server.record.name in manager.proxyServers && server.serverIp == Some(LocalHost) &&
        server.serverPort == Some(FirstFree(manager.portStart, manager.portAmount, old(manager.reservedPorts)).value) &&
        server.status == STARTING && server.processAttached
      ensures outcome.Fail? && server.record.name !in old(manager.proxyServers) ==>
        server.record.name !in manager.proxyServers
    {
      if server.record.name in manager.proxyServers {
        return Fail(InvalidServer);
      }
      var registered := manager.Register(server, entered);
      if registered == Fail(PortNotFound) {
        return Fail(InvalidServer);
      }
      if registered.Fail? {
        return registered;
      }
      outcome := server.StartServer(now, prepared, spawned);
      if outcome.Fail? {
        manager.Unregister(server);
      }
    }

    /**
     * start(): Server's start with this class's startServer in place of
     * Server's: refused unless STOPPED or ERROR; a failed startServer leaves
     * the server in ERROR and out of the proxy; a success leaves it STARTING,
     * in the proxy and in the instance map. A server without uuid always
     * fails, at the instance map, after startServer has already registered
     * it with the proxy: that entry is not taken back.
     */
    method Start(now: string, entered: Outcome, prepared: Outcome, spawned: Outcome) returns (outcome: Outcome)
      modifies manager`reservedPorts, manager`proxyServers, server`serverPort, server`serverIp
      modifies server`status, server`processAttached, server`inputOpen, server`command, server`sent, server.record`files
      modifies server.registry`instances
      ensures StartGate(old(server.status)).Err? ==>
        outcome == Fail(InvalidServer) && server.status == old(server.status) && unchanged(manager) && unchanged(server.registry)
      ensures StartGate(old(server.status)).Ok? && outcome.Fail? ==>
        server.status == ERROR && server.registry.instances == old(server.registry.instances) &&
        (server.record.uuid.Some? && server.record.name !in old(manager.proxyServers) ==> server.record.name !in manager.proxyServers)
      ensures StartGate(old(server.status)).Ok? && server.record.uuid.None? ==> outcome.Fail?
      ensures StartGate(old(server.status)).Ok? && outcome.Pass? ==>
        server.status == STARTING && server.record.name in manager.proxyServers &&
        server.record.uuid.Some? && server.registry.instances == old(server.registry.instances)[server.record.uuid.value := server]
    {
      outcome := server.BeginStart();
      if outcome.Fail? {
        return;
      }
      var started := StartServer(now, entered, prepared, spawned);
      outcome := server.FinishStart(started);
    }

    /** The scheduled check after launch, with serverPing() asking the proxy. */
    method Ping(answered: bool)
      modifies server`status
      ensures server.status ==
        if old(server.processAttached) && server.record.name in manager.proxyServers && answered then STARTED else old(server.status)
    {
      var up := manager.ServerPing(server, answered);
      server.Ping(up);
    }

    /** The output stream ends: handles cleared, STOPPED, then out of the proxy. */
    method OutputClosed()
      modifies server`processAttached, server`inputOpen, server`status
      modifies manager`proxyServers, server`serverPort, server`serverIp
      ensures !server.processAttached && !server.inputOpen && server.status == STOPPED
      ensures manager.proxyServers == old(manager.proxyServers) - {server.record.name}
      ensures server.serverIp.None? && server.serverPort.None?
    {
      server.DetachProcess();
      server.OnServerStop();
      manager.Unregister(server);
    }
  }
}
