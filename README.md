# Network discovery HUD, modelled in Dafny

This project models the state logic of the Mirror network-discovery HUD
(`NetworkDiscoveryHUD`), the Unity component that lists the game servers found
on the local network and lets the player host or join one:

- the **discovered-server registry**, a dictionary from the GUID a server
  advertises to the last reply (`DiscoveryInfo`) received from it, filled by
  `OnDiscoveredServer` and emptied by `StartServer`, `DisconnectFromGame`,
  `Refresh` and the "Passive Host" and "Active Discovery" buttons;
- **hosting with an advertisement** (`StartServer`, "Passive Host"): start a
  host and hand the broadcaster a `GameBroadcastPacket` built from the
  manager's address, the Telepathy transport's port, a host name and the
  discovery GUID;
- the **connection handoff** (`Connect`): point the manager at the address a
  reply came from and the transport at the advertised port, then start the
  client;
- **`DisconnectFromGame`**, which stops the client or the host;
- **`DisplayServers`**, which prints one or more lines per registry entry.

Files:

- `types.dfy` (module `DiscoveryTypes`): the packet and reply records, the
  `ushort`/`int` widths and the `(ushort)` conversion.
- `registry.dfy` (module `Registry`): the registry as a map value, `Upsert`,
  runs of replies (`UpsertAll`) and what they do to keys, sizes and values.
- `display.dfy` (module `Display`): the text `DisplayServers` prints, for a
  given visiting order of the registry.
- `hud.dfy` (module `Hud`): class `Network` (the manager, transport and
  discovery singletons as flags, values and call logs) and class
  `NetworkDiscoveryHud`, whose methods are the HUD's handlers, each proved
  against the functions and predicates above.

Conventions of the model:

- Exceptions are results. `StartServer` and "Passive Host" dereference the
  manager and cast the active transport to `TelepathyTransport` without a
  check. `DisconnectFromGame` dereferences the manager without a check. In
  the model these handlers return `Threw(NullReference)` or
  `Threw(InvalidCast)` at the point where the code would throw. Whatever
  happened before that point stays done.
- Calls into the collaborators are recorded. `StartHost`, `StartClient`,
  `StopClient` and `StopHost` are appended to `Network.lifecycle`. Packets given
  to the passive broadcaster are appended to `Network.advertised`. Active
  discovery rounds are counted in `Network.discoveryRuns`.
- `Random.Range(0, 4)` is a nondeterministic choice of an index in [0, 4).
- `print` in `DisplayServers` becomes the returned sequence of lines. The
  dictionary's enumeration order is unspecified, so the method also returns,
  as a ghost value, the order in which it visited the keys.
- One `OnGUI` pass is `OnGui(press)`, where `press` says which button, if
  any, was clicked.
- The packet's `port` field is taken to be a C# `int`. `GameBroadcastPacket`
  is not part of this model. The HUD assigns a `ushort` to that field and
  reads it back through a `(ushort)` cast, which fits an `int` field.

Two consequences of the code worth stating:

- With no manager, `DisconnectFromGame` throws at line 75 before the `Clear`
  at line 77, so the registry is kept.
- `Connect` assigns the address and port itself and starts the client; it
  returns no connection target.

## Model

| member | source | states |
|---|---|---|
| `DiscoveryTypes.ToUShort` | Assets/Mirror/MirrorNetworkDiscovery/Utility/NetworkDiscoveryHUD.cs:195 | the `(ushort)` cast gives the one value in [0, 65536) congruent to the port modulo 2^16; ports already in range are unchanged, -65536..-1 wrap to x + 65536 |
| `Registry.Upsert` | Assets/Mirror/MirrorNetworkDiscovery/Utility/NetworkDiscoveryHUD.cs:202 | after a reply the registry maps its GUID to that reply (replaced, not merged); keys are the old keys plus that GUID; every other key keeps its entry; the size grows by one exactly when the GUID was new; entries stay filed under their own GUID |
| `Registry.UpsertAllSteps` | Assets/Mirror/MirrorNetworkDiscovery/Utility/NetworkDiscoveryHUD.cs:202 | a run of replies is one `Upsert` per reply, in arrival order |
| `Registry.UpsertAllKeys` | Assets/Mirror/MirrorNetworkDiscovery/Utility/NetworkDiscoveryHUD.cs:202 | after a run of replies the keys are exactly the old keys plus the GUIDs the replies carry |
| `Registry.DistinctRepliesCount` | Assets/Mirror/MirrorNetworkDiscovery/Utility/NetworkDiscoveryHUD.cs:96-99 | replies with N pairwise distinct GUIDs, none already known, add exactly N entries; from the empty registry a refresh leaves, the count is N |
| `Registry.RepeatedRepliesKeepLast` | Assets/Mirror/MirrorNetworkDiscovery/Utility/NetworkDiscoveryHUD.cs:202 | any number of replies from one GUID leave the registry as if only the last had arrived; that GUID holds one entry, the last reply |
| `Registry.LastReplyWins` | Assets/Mirror/MirrorNetworkDiscovery/Utility/NetworkDiscoveryHUD.cs:202 | a reply not followed by another from the same GUID is the entry for that GUID, even if an earlier reply differed |
| `Registry.OtherGuidsUntouched` | Assets/Mirror/MirrorNetworkDiscovery/Utility/NetworkDiscoveryHUD.cs:202 | a GUID no reply carries is present afterwards iff it was before, with the same entry |
| `Registry.UpsertAllWellKeyed` | Assets/Mirror/MirrorNetworkDiscovery/Utility/NetworkDiscoveryHUD.cs:202 | replies keep every entry filed under the GUID its own advertisement carries |
| `Display.EnumerationLength` | Assets/Mirror/MirrorNetworkDiscovery/Utility/NetworkDiscoveryHUD.cs:81 | a visit of the registry that meets every key exactly once has as many steps as there are entries |
| `Display.DisplayTextLength` | Assets/Mirror/MirrorNetworkDiscovery/Utility/NetworkDiscoveryHUD.cs:81-92 | the printout has exactly (header count - 1) lines per visited entry |
| `Display.DisplayTextTwoColumns` | Assets/Mirror/MirrorNetworkDiscovery/Utility/NetworkDiscoveryHUD.cs:11 | with the two headers "IP" and "Gamename", entry i of the visit prints the single line "Gameinfo: " + endpoint address + " " + host name |
| `Hud.NetworkDiscoveryHud.constructor` | Assets/Mirror/MirrorNetworkDiscovery/Utility/NetworkDiscoveryHUD.cs:10-12 | the HUD starts with an empty registry, the headers "IP" and "Gamename" and the four host names |
| `Hud.NetworkDiscoveryHud.OnDiscoveredServer` | Assets/Mirror/MirrorNetworkDiscovery/Utility/NetworkDiscoveryHUD.cs:200-203 | the registry becomes `Upsert` of the old registry and the reply; the reply's GUID maps to the reply |
| `Hud.NetworkDiscoveryHud.Refresh` | Assets/Mirror/MirrorNetworkDiscovery/Utility/NetworkDiscoveryHUD.cs:96-99 | the registry is empty and one more active-discovery round has started; nothing else changes |
| `Hud.NetworkDiscoveryHud.HostAndAdvertise` | Assets/Mirror/MirrorNetworkDiscovery/Utility/NetworkDiscoveryHUD.cs:54-65 | no manager: throws, nothing done; otherwise `StartHost` is called, then no transport throws, a non-Telepathy transport throws an invalid cast, and a Telepathy transport advertises (manager address, transport port, host name, discovery GUID) |
| `Hud.NetworkDiscoveryHud.StartServer` | Assets/Mirror/MirrorNetworkDiscovery/Utility/NetworkDiscoveryHUD.cs:51-66 | the registry is empty; the host name is `gameNames[k]` for a random k in [0, 4), always in bounds; hosting and advertising go as in `HostAndAdvertise` |
| `Hud.NetworkDiscoveryHud.DisconnectFromGame` | Assets/Mirror/MirrorNetworkDiscovery/Utility/NetworkDiscoveryHUD.cs:73-78 | with a manager: `StopClient` if no server is active, `StopHost` otherwise, then the registry is empty; with no manager it throws and the registry is kept |
| `Hud.NetworkDiscoveryHud.Connect` | Assets/Mirror/MirrorNetworkDiscovery/Utility/NetworkDiscoveryHUD.cs:183-198 | no manager or transport, or a non-Telepathy transport: address, port and lifecycle untouched, no client started; otherwise the address becomes the reply's source endpoint whatever `serverAddress` says, the port becomes the advertised port cast to ushort, and `StartClient` is called |
| `Hud.NetworkDiscoveryHud.DisplayServers` | Assets/Mirror/MirrorNetworkDiscovery/Utility/NetworkDiscoveryHUD.cs:80-94 | visits every key exactly once and prints (header count - 1) lines per entry, the k-th being "Gameinfo: " + endpoint address followed by " " + host name k + 1 times; the `i == 0` branch is proved unreachable |
| `Hud.NetworkDiscoveryHud.OnGui` | Assets/Mirror/MirrorNetworkDiscovery/Utility/NetworkDiscoveryHUD.cs:101-181 | nothing reacts without a manager, with a server or client running, or without discovery support; Passive Host (only while not connected) clears and hosts under "MyDistinctDummyPlayerName"; Active Discovery clears and starts a round; a server row connects to that entry, whose reply carries the pressed row's GUID |

## Left out

- Rendering in `OnGUI`: areas, labels, header buttons, the scroll view, label styles and the `elemWidth` arithmetic. Only the effects of the buttons on state are modelled.
- `Hud.NetworkDiscoveryHud.OnGui`: one call models one pass with at most one button press. The per-row loop of `OnGUI` is reduced to the row whose GUID was pressed.
- `Update`, which is keyboard polling. Also `ConnectServer(n)`, which only prints: its connect call is commented out.
- `Awake`, whose branches all return without any effect.
- `OnEnable`/`OnDisable`, which subscribe to the discovery event. `OnDiscoveredServer` is a method the environment calls.
- `ByteStreamer.StreamToBytes` and the discovery service (`ServerPassiveBroadcastGame`, `ClientRunActiveDiscovery`). These are foreign code and are not part of this model. They appear as recorded calls: the packet before encoding, and a count of rounds.
- The packet codec's round trip and malformed-packet rejection. The codec is not part of this model.
- The internals of the network manager's host/client lifecycle. `StartHost`, `StartClient`, `StopClient` and `StopHost` are logged and do not change the modelled flags, for example `serverActive`.
- A missing discovery service instance (`NetworkDiscovery.instance == null`). Every handler assumes the instance exists.
- `Random.Range` itself. The model keeps only its range.
- Concurrency between the discovery listener's callback and the UI thread. Handlers are atomic steps.
- Null values inside replies. Replies, packets, endpoints and GUIDs are never null in the model, so the `ArgumentNullException` of the indexer at line 202 for a null `serverGUID` and the `NullReferenceException` of a null `unpackedData` or `EndPoint` at lines 82-89 and 194-195 are not modelled.
- The log calls: `print` at line 74 is left out, and `Debug.LogErrorFormat` at line 189 survives only as the `UnsupportedTransport` outcome of `Connect`.
- The `lastUpdatedAt` timestamp and entry expiry. The HUD keeps neither.
