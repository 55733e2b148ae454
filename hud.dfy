/** The discovery HUD: a component that keeps the registry of discovered
    servers, starts hosting with an advertisement, runs active discovery,
    hands a chosen server to the transport, and prints the server list.

    The engine singletons it talks to (the network manager, the active
    transport and the discovery service) are the object `network`: their
    state is a handful of flags and values, and the calls the HUD makes on
    them are appended to logs. */
module Hud {
  import opened DiscoveryTypes
  import Registry
  import Display

  /** Host/client lifecycle calls made on the network manager. */
  datatype LifecycleCall = StartHost | StartClient | StopClient | StopHost

  /** Exceptions the HUD's unguarded code can raise. */
  datatype Fault =
    | NullReference  // a member access through a missing manager or transport
    | InvalidCast    // the active transport cast to the Telepathy transport when it is another kind

  /** How a handler ended: normally, or by an exception escaping it. */
  datatype Completion = Normal | Threw(fault: Fault)

  /** Which way Connect went. */
  datatype ConnectOutcome =
    | NotReady              // no manager or no transport: returned silently
    | UnsupportedTransport  // the transport is not Telepathy: an error was logged
    | ClientStarted         // address and port assigned, client started

  /** The one button (if any) pressed during a GUI pass. */
  datatype GuiPress = NoPress | PassiveHostPressed | ActiveDiscoveryPressed | ServerRowPressed(guid: string)

  /** The collaborators' state, as far as the HUD reads or writes it. */
  class Network {
    var managerPresent: bool     // the network manager singleton exists
    var networkAddress: string   // the manager's address to connect to / advertise
    var serverActive: bool       // a server (or host) is running
    var clientActive: bool       // a client is running
    var clientConnected: bool    // the client is connected
    var transportPresent: bool   // there is an active transport
    var isTelepathy: bool        // the active transport is the Telepathy transport
    var port: UShort             // the Telepathy transport's port
    const discoverySupported: bool  // discovery works on this platform
    const serverId: string          // the discovery service's server GUID
    var lifecycle: seq<LifecycleCall>        // manager calls made, oldest first
    var advertised: seq<GameBroadcastPacket> // packets handed to the passive broadcaster
    var discoveryRuns: nat                   // active discovery rounds started

    constructor (managerPresent: bool, networkAddress: string, serverActive: bool, clientActive: bool,
                 clientConnected: bool, transportPresent: bool, isTelepathy: bool, port: UShort,
                 discoverySupported: bool, serverId: string)
      ensures this.managerPresent == managerPresent && this.networkAddress == networkAddress
      ensures this.serverActive == serverActive && this.clientActive == clientActive
      ensures this.clientConnected == clientConnected
      ensures this.transportPresent == transportPresent && this.isTelepathy == isTelepathy && this.port == port
      ensures this.discoverySupported == discoverySupported && this.serverId == serverId
      ensures lifecycle == [] && advertised == [] && discoveryRuns == 0
    {
      this.managerPresent := managerPresent;
      this.networkAddress := networkAddress;
      this.serverActive := serverActive;
      this.clientActive := clientActive;
      this.clientConnected := clientConnected;
      this.transportPresent := transportPresent;
      this.isTelepathy := isTelepathy;
      this.port := port;
      this.discoverySupported := discoverySupported;
      this.serverId := serverId;
      lifecycle := [];
      advertised := [];
      discoveryRuns := 0;
    }
  }

  class NetworkDiscoveryHud {
    /** Discovered servers, keyed by the GUID each advertises. */
    var discoveredServers: Registry.Registry
    /** Column headers of the server list. */
    const headerNames: seq<string> := ["IP", "Gamename"]
    /** Host names StartServer picks from. */
    const gameNames: seq<string> := ["Alpha", "Beta", "Gamma", "Delta"]
    /** Host name the Passive Host button advertises. */
    const passiveHostName: string := "MyDistinctDummyPlayerName"
    const network: Network

    ghost predicate Valid()
      reads this
    {
      Registry.WellKeyed(discoveredServers)
    }

    constructor (network: Network)
      ensures Valid() && discoveredServers == map[] && this.network == network
    {
      discoveredServers := map[];
      this.network := network;
    }

    /** The GUI pass draws (and so can react to) anything: a manager exists,
        nothing is running yet, and discovery is supported. */
    predicate GuiShown()
      reads network
    {
      network.managerPresent && !network.serverActive && !network.clientActive && network.discoverySupported
    }

    /** Start hosting, then advertise a packet built from the manager's
        address, the Telepathy port, `hostName` and the discovery GUID. A
        missing manager throws before hosting starts; a missing transport, or
        one that is not Telepathy, throws after hosting started and before
        anything is advertised. */
    twostate predicate Hosted(hostName: string, c: Completion)
      reads network
    {
      if !network.managerPresent then
        c == Threw(NullReference)
        && network.lifecycle == old(network.lifecycle) && network.advertised == old(network.advertised)
      else
        && network.lifecycle == old(network.lifecycle) + [StartHost]
        && if !network.transportPresent then
             c == Threw(NullReference) && network.advertised == old(network.advertised)
           else if !network.isTelepathy then
             c == Threw(InvalidCast) && network.advertised == old(network.advertised)
           else
             c == Normal
             && network.advertised == old(network.advertised)
                  + [GameBroadcastPacket(old(network.networkAddress), old(network.port), hostName, network.serverId)]
    }

    /** Connection handoff: with a manager and a Telepathy transport, the
        manager's address becomes the address the reply came FROM (not the
        advertised serverAddress), the transport's port becomes the advertised
        port cast to ushort, and the client is started. Otherwise nothing
        changes. */
    twostate predicate HandedOff(info: DiscoveryInfo, r: ConnectOutcome)
      reads network
    {
      if !network.managerPresent || !network.transportPresent || !network.isTelepathy then
        && r == (if !network.managerPresent || !network.transportPresent then NotReady else UnsupportedTransport)
        && network.networkAddress == old(network.networkAddress)
        && network.port == old(network.port)
        && network.lifecycle == old(network.lifecycle)
      else
        && r == ClientStarted
        && network.networkAddress == info.endPointAddress
        && network.port == ToUShort(info.unpackedData.port)
        && network.lifecycle == old(network.lifecycle) + [StartClient]
    }

    /** A reply arrived: file it under its GUID, replacing any earlier reply
        from that server. */
    method OnDiscoveredServer(info: DiscoveryInfo)
      requires Valid()
      modifies this
      ensures Valid()
      ensures discoveredServers == Registry.Upsert(old(discoveredServers), info)
      ensures Guid(info) in discoveredServers && discoveredServers[Guid(info)] == info
    {
      discoveredServers := discoveredServers[Guid(info) := info];
    }

    /** Forget all servers and start a new round of active discovery. */
    method Refresh()
      modifies this, network`discoveryRuns
      ensures Valid()
      ensures discoveredServers == map[]
      ensures network.discoveryRuns == old(network.discoveryRuns) + 1
    {
      discoveredServers := map[];
      network.discoveryRuns := network.discoveryRuns + 1;
    }

    /** Shared tail of StartServer and the Passive Host button. */
    method HostAndAdvertise(hostName: string) returns (c: Completion)
      modifies network`lifecycle, network`advertised
      ensures Hosted(hostName, c)
    {
      if !network.managerPresent {
        return Threw(NullReference);
      }
      network.lifecycle := network.lifecycle + [StartHost];
      var serverAddress := network.networkAddress;
      if !network.transportPresent {
        return Threw(NullReference);
      }
      if !network.isTelepathy {
        return Threw(InvalidCast);
      }
      var packet := GameBroadcastPacket(serverAddress, network.port, hostName, network.serverId);
      network.advertised := network.advertised + [packet];
      c := Normal;
    }

    /** Pick one of the four host names at random, clear the registry, start
        hosting and advertise. `serverNum` is the random pick. */
    method StartServer() returns (c: Completion, ghost serverNum: int)
      modifies this, network`lifecycle, network`advertised
      ensures Valid()
      ensures 0 <= serverNum < |gameNames|
      ensures discoveredServers == map[]
      ensures Hosted(gameNames[serverNum], c)
    {
      var k :| 0 <= k < 4;
      serverNum := k;
      discoveredServers := map[];
      c := HostAndAdvertise(gameNames[k]);
    }

    /** Stop the client if no server runs, the host otherwise, then clear the
        registry. A missing manager throws before anything happens. */
    method DisconnectFromGame() returns (c: Completion)
      requires Valid()
      modifies this, network`lifecycle
      ensures Valid()
      ensures !network.managerPresent ==>
        c == Threw(NullReference)
        && discoveredServers == old(discoveredServers) && network.lifecycle == old(network.lifecycle)
      ensures network.managerPresent ==>
        c == Normal && discoveredServers == map[]
        && network.lifecycle == old(network.lifecycle) + [if network.serverActive then StopHost else StopClient]
    {
      if !network.managerPresent {
        return Threw(NullReference);
      }
      if !network.serverActive {
        network.lifecycle := network.lifecycle + [StopClient];
      } else {
        network.lifecycle := network.lifecycle + [StopHost];
      }
      discoveredServers := map[];
      c := Normal;
    }

    /** Point the manager and transport at a discovered server and start the client. */
    method Connect(info: DiscoveryInfo) returns (r: ConnectOutcome)
      modifies network`networkAddress, network`port, network`lifecycle
      ensures HandedOff(info, r)
    {
      if !network.managerPresent || !network.transportPresent {
        return NotReady;
      }
      if !network.isTelepathy {
        return UnsupportedTransport;
      }
      network.networkAddress := info.endPointAddress;
      network.port := ToUShort(info.unpackedData.port);
      network.lifecycle := network.lifecycle + [StartClient];
      r := ClientStarted;
    }

    /** The lines DisplayServers prints, in the order it prints them. The
        registry is visited in the dictionary's own order, `order`; each
        entry gives one line per header column after the first. */
    method DisplayServers() returns (lines: seq<string>, ghost order: seq<string>)
      ensures Display.Enumerates(order, discoveredServers.Keys)
      ensures forall i :: 0 <= i < |order| ==> order[i] in discoveredServers
      ensures lines == Display.DisplayText(discoveredServers, order, |headerNames|)
      ensures |lines| == |discoveredServers| * Display.LinesPerServer(|headerNames|)
    {
      lines := [];
      order := [];
      var remaining := discoveredServers.Keys;
      while remaining != {}
        invariant remaining <= discoveredServers.Keys
        invariant forall i, j :: 0 <= i < j < |order| ==> order[i] != order[j]
        invariant forall i :: 0 <= i < |order| ==> order[i] in discoveredServers && order[i] !in remaining
        invariant forall k :: k in discoveredServers.Keys ==> k in remaining || k in order
        invariant lines == Display.DisplayText(discoveredServers, order, |headerNames|)
        decreases remaining
      {
        var key :| key in remaining;
        var info := discoveredServers[key];
        ghost var before := lines;
        var hostline := Display.LinePrefix + info.endPointAddress;
        var i := 1;
        while i < |headerNames|
          invariant 1 <= i <= |headerNames|
          invariant hostline == Display.HostLine(info, i - 1)
          invariant lines == before + Display.ServerLines(info, |headerNames|)[..i - 1]
        {
          if i == 0 {
            // The serverAddress column is never printed: i starts at 1.
            assert false;
          } else {
            hostline := hostline + " " + info.unpackedData.hostName;
          }
          lines := lines + [hostline];
          i := i + 1;
        }
        assert Display.ServerLines(info, |headerNames|)[..i - 1] == Display.ServerLines(info, |headerNames|);
        order := order + [key];
        remaining := remaining - {key};
      }
      Display.EnumerationLength(order, discoveredServers.Keys);
      Display.DisplayTextLength(discoveredServers, order, |headerNames|);
    }

    /** One GUI pass, reduced to the state it changes. Nothing reacts unless
        a manager exists, nothing runs and discovery is supported. Passive
        Host is offered only while the client is neither connected nor
        active; it clears the registry, hosts and advertises under a fixed
        name, and an exception there ends the pass. Active Discovery clears
        the registry and starts a discovery round. A server row's button
        connects to that server. */
    method OnGui(press: GuiPress) returns (c: Completion)
      requires Valid()
      modifies this, network`lifecycle, network`advertised, network`discoveryRuns,
               network`networkAddress, network`port
      ensures Valid()
      ensures !GuiShown() || press == NoPress ==>
        c == Normal && discoveredServers == old(discoveredServers) && unchanged(network)
      ensures GuiShown() && press == PassiveHostPressed ==>
        network.discoveryRuns == old(network.discoveryRuns)
        && network.networkAddress == old(network.networkAddress) && network.port == old(network.port)
        && if network.clientConnected then
             c == Normal && discoveredServers == old(discoveredServers) && unchanged(network)
           else
             discoveredServers == map[] && Hosted(passiveHostName, c)
      ensures GuiShown() && press == ActiveDiscoveryPressed ==>
        c == Normal && discoveredServers == map[]
        && network.discoveryRuns == old(network.discoveryRuns) + 1
        && network.lifecycle == old(network.lifecycle) && network.advertised == old(network.advertised)
        && network.networkAddress == old(network.networkAddress) && network.port == old(network.port)
      ensures GuiShown() && press.ServerRowPressed? && press.guid in discoveredServers ==>
        Guid(discoveredServers[press.guid]) == press.guid
      ensures GuiShown() && press.ServerRowPressed? ==>
        c == Normal && discoveredServers == old(discoveredServers)
        && network.discoveryRuns == old(network.discoveryRuns) && network.advertised == old(network.advertised)
        && if press.guid in discoveredServers then
             exists r :: HandedOff(discoveredServers[press.guid], r)
           else
             unchanged(network)
    {
      c := Normal;
      if !GuiShown() {
        return;
      }
      if !network.clientConnected && !network.serverActive {
        if !network.clientActive {
          if press == PassiveHostPressed {
            discoveredServers := map[];
            c := HostAndAdvertise(passiveHostName);
            if c.Threw? {
              return;
            }
          }
        }
      }
      if press == ActiveDiscoveryPressed {
        discoveredServers := map[];
        network.discoveryRuns := network.discoveryRuns + 1;
      }
      if press.ServerRowPressed? && press.guid in discoveredServers {
        var r := Connect(discoveredServers[press.guid]);
      }
    }
  }

  /** Three servers answer a discovery round, one of them twice; the
      registry ends with three entries, the repeated server's last reply,
      and connecting to it uses the address its reply came from. */
  method DiscoveryScenario(network: Network)
    modifies network
  {
    var hud := new NetworkDiscoveryHud(network);
    hud.Refresh();
    var first := DiscoveryInfo("10.0.0.5", GameBroadcastPacket("192.168.1.5", 100, "Alpha", "g1"));
    var second := DiscoveryInfo("10.0.0.6", GameBroadcastPacket("10.0.0.6", 7777, "Beta", "g2"));
    var third := DiscoveryInfo("10.0.0.7", GameBroadcastPacket("10.0.0.7", 7777, "Gamma", "g3"));
    var again := DiscoveryInfo("10.0.0.5", GameBroadcastPacket("192.168.1.5", 7777, "Alpha", "g1"));
    hud.OnDiscoveredServer(first);
    hud.OnDiscoveredServer(second);
    hud.OnDiscoveredServer(third);
    hud.OnDiscoveredServer(again);
    assert |hud.discoveredServers| == 3;
    assert hud.discoveredServers["g1"].unpackedData.port == 7777;
    var r := hud.Connect(hud.discoveredServers["g1"]);
    assert r == ClientStarted ==> network.networkAddress == "10.0.0.5" && network.port == 7777;
  }
}
