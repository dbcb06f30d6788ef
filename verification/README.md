# rVPN: address allocation, peer maps, routing lifecycle and staleness

rVPN has a control plane that leases addresses to VPN clients and tells daemons what to do, and
a Linux daemon that turns those instructions into WireGuard, routing and firewall state. This
project models both sides and proves what holds in every interleaving and over every run.

**The control plane as a state machine** (`Protocol`). A connect or serve handler runs once per
websocket, any number at the same time and no lock between statements. Every SQL statement,
every remote call and every use of the connection manager is one atomic step of a handler with
a program counter and local snapshots; any step may fail, before or after it took effect. The
invariant (`ProtocolInvariant`) is proved by rely and guarantee: `Steps` says what any one step
may do to the shared state, every handler's step is shown to do no more, and what every other
handler relies on survives it. The heart of it is the relation between a handler's pending pick and the table: the address
is already taken, or it is the one the scan finds now. From it follow, in every interleaving
(`ProtocolTheorems`): one row per device, no gaps in the leased addresses, the capacity bound,
and that fixed columns never change. No database constraint says any of this. `OwnAddress` and
`AddressRace` settle what a handler that loses a race announces, and `Sessions` which sessions
a target lists.

**The same handlers as code** (`Handlers`, `Database`, `ConnectionManagement`, `Allocation`).
The source's functions are methods on a database object, a connection manager object and a
control-plane object. Each method is proved to be an uninterrupted run of the state machine, so
the step machine and the imperative form cannot drift apart. The address scan is a loop that
refines a least-free-address specification on numbers, through the text the source compares
(`Ipv4`: printing and parsing dotted decimals are inverse). `Announcement` is about what the
daemons at the other end are told.

**The peer map as a cache** (`Peers`, `PeerMirror`). A WireGuard device is a map from address
to the key that owns it. Bulk and incremental construction are compared for every list, and
with handlers taken one at a time the map of every registered server is shown to mirror the
connections table. `MirrorRace` says exactly when an append does so in every interleaving.

**The Linux lifecycle** (`Kernel`, `WireguardDaemon`, `SourceRouting`, `ClientSetup`,
`ChainLedger`, `Lifecycle`, `Lookup`, `PlainRuns`, `RvpnDaemon`). Route tables, policy rules, firewall chains
and the tunnel address are an abstract kernel with netlink's error cases. The daemon's methods are
proved equal to functions on that state; those functions are characterised as a whole (when
they succeed, what they leave), then over whole runs of connect, serve and disconnect while the
rest of the host changes its own routes, rules, chains and interfaces, and chain calls may
fail. Packet lookup follows policy rules first and then longest prefix match (section 5.2.4.3
of RFC 1812; prefixes as in section 3.1 of RFC 4632).

**The staleness monitor** (`Staleness`) and **device registration** (`DeviceRegistry`) have
their own machines.

Outside answers are parameters: whether a statement or call fails, random ids, keys, the port
text being a number, the times at which the monitor handles a signal.

## Where the code differs from what one would expect

The model follows the code; each point is a lemma or a branch of the model.

- The result of the INSERT is ignored (cmd/control-plane/device_connect.go:232), and the second
  check exits early with the caller's own address (lines 227-229). A failed lookup query is
  logged and then treated like an absent row (lines 107-111), so a device that has a row may
  scan. `OwnAddress` says for every handler and every run exactly when the address it goes on
  with is leased to its own device; `AddressRace` has a run for each failing branch: two devices
  that race for an address, and one device whose lookup fails.
- So a server's map may differ from the table: it learns of an address that no row holds, or
  gives one device's address to another's key. `MirrorRace` has a run for each, and the exact
  condition under which an append leaves the two equal.
- Serving an absent target logs an error and then dereferences it
  (cmd/control-plane/device_serve.go:89-112): the handler ends.
- The bulk form replaces the allowed addresses of a key, so with a repeated key it drops
  addresses that the incremental form keeps; `BulkIsIncremental` and `ServedMirrors` are
  equivalences with distinct keys.
- The read after a refused device insert does not mention the target
  (cmd/control-plane/db.go:147-163); `FetchIsForced` says when its answer is determined, and
  `AnotherTargetsId` is a run in which it is another target's.
- The server and control-plane routes are pinned only while no default interface is remembered
  (daemon/wg/daemon_linux.go:147). If both are the same host, the second pin collides with the
  first and the daemon exits (`SharedHostIsFatal`). On a later connect to another server,
  traffic for that server enters the tunnel unless an earlier route longer than /1 covers it
  (`LaterConnectMayLoop`; `PlainRuns` has a run in which it does).
- A failed deletion of a forwarding rule is only logged, and the rule stays
  (daemon/wg/daemon_linux.go:492-497; `PlainRuns.LeftoverMasquerade`).
- Stopping source routing never clears the lists of what was added
  (daemon/wg/network_util_linux.go:161-178), and disconnecting does not leave server mode
  (daemon/wg/daemon_linux.go:485-510). The invariant of `Lifecycle` shows that over guarded
  runs neither does harm.

## Model

| member | source | states |
|---|---|---|
| Ipv4.ParseShow | cmd/control-plane/device_utils.go:63-80 | The dotted-decimal text of an address parses back to that address, for every address |
| Ipv4.ShowParse | cmd/control-plane/device_utils.go:63-80 | A text that parses as an address is the text that address prints as (no leading zeros, no second spelling) |
| Ipv4.ShowInjective | cmd/control-plane/db.go:199-207 | Distinct addresses never share a key, so the string-keyed set of taken addresses decides as a set of addresses would |
| Ipv4.ParsePrefixIff | cmd/control-plane/device_utils.go:63 | A text reads as a prefix if and only if it is the address, a slash and the length in decimal |
| Ipv4.ContainsIsTheBlock | cmd/control-plane/device_utils.go:71 | A prefix contains exactly the addresses from the start to the end of its block |
| Allocation.Scan | cmd/control-plane/device_utils.go:68-86 | The loop terminates for every prefix, also one that ends at 255.255.255.255, and returns the specified least free address |
| Allocation.NextFreeMeaning | cmd/control-plane/device_utils.go:68-86 | The result is address a exactly when a is the least address of the network strictly above the network address whose text is free; there is none exactly when all are taken |
| Allocation.GetNextClientIp | cmd/control-plane/device_utils.go:46-90 | Every error case in its order, and otherwise the least free address with the target's prefix length; "none left" only when every address is taken |
| Allocation.ScanIsACounter | cmd/control-plane/device_utils.go:69-81 | When the taken addresses are the first n, the scan finds the next one, or nothing at capacity |
| ProtocolTheorems.CreatedTarget | cmd/control-plane/target.go:20 | The row that a create leaves on a new name, column by column |
| ProtocolTheorems.CreatedTargetStays | cmd/control-plane/target.go:20 | In every continuation of a create the target keeps its owner, network, DNS server and internal address; its network reads as 10.8.0.1/23; it has at most 510 rows, and the scan succeeds exactly below that |
| Database.RVPNDatabase.CreateTarget | cmd/control-plane/db.go:50-63 | Inserts unless the name is there; reports whether it did |
| Database.RVPNDatabase.UpdateTarget | cmd/control-plane/db.go:65-82 | Replaces the whole row of that name, or nothing |
| Database.RVPNDatabase.GetTargetByName | cmd/control-plane/db.go:166-188 | The row of that name, or none |
| Database.RVPNDatabase.GetTargetClientIps | cmd/control-plane/db.go:190-210 | Exactly the set of addresses held by rows of the target |
| Database.RVPNDatabase.GetConnection | cmd/control-plane/db.go:213-234 | Some row of that target and device; none only if there is none |
| Database.RVPNDatabase.GetConnectionsByTarget | cmd/control-plane/db.go:237-262 | Every row of the target exactly once, and nothing else, in no promised order |
| Database.RVPNDatabase.CreateConnection | cmd/control-plane/db.go:265-281 | Inserts unless the id is taken or the address is held on that target |
| Database.RVPNDatabase.UpdateConnection | cmd/control-plane/db.go:284-300 | Replaces the whole row; fails exactly on a query error or an address held by another row, and then changes nothing |
| ConnectionManagement.ConnectionManager.SetVPNServerConn | cmd/control-plane/connman.go:21-27 | The target's server becomes this session, other targets keep theirs, and an overwrite is reported |
| ConnectionManagement.ConnectionManager.SetVPNClientConn | cmd/control-plane/connman.go:30-40 | The session joins the end of the target's clients and nothing else changes |
| ConnectionManagement.ConnectionManager.GetVPNServerConn | cmd/control-plane/connman.go:43-50 | The registered session, or none |
| Sessions.ClientsAreTheSaved | cmd/control-plane/connman.go:30-60 | In every run the clients listed for a target are exactly the connect sessions ever saved for it, each once; in particular every open one |
| ProtocolInvariant.StepsKeepTables | migrations/000002_create_initial_tables.up.sql:27-35 | Whatever one step may do keeps the tables in order: one row per device, one per address, leased addresses without gaps |
| ProtocolInvariant.StepsKeepHandler | cmd/control-plane/device_connect.go:104-181 | What a handler has read stays good for it under any step of any other handler; in particular its pending pick |
| ProtocolInvariant.ConnectGuarantee | cmd/control-plane/device_connect.go:80-217 | Every step of a connect handler, with any answer, does no more than the others rely on, and leaves the handler in order |
| ProtocolInvariant.InsertGuarantee | cmd/control-plane/device_connect.go:219-238 | Inserting a pending pick after the second check adds at most one row, at the address the scan finds now, for a device without one |
| ProtocolInvariant.ResyncGuarantee | cmd/control-plane/device_utils.go:11-21 | Writing back a row from an old snapshot with a new key changes nothing but the key and breaks no constraint |
| ProtocolInvariant.ServeGuarantee | cmd/control-plane/device_serve.go:82-165 | The same for every step of a serve handler |
| ProtocolInvariant.StepInv | cmd/control-plane/device_connect.go:80-217 | Every event keeps the whole invariant, and is one of the permitted changes |
| ProtocolInvariant.RunInv | cmd/control-plane/device_connect.go:80-217 | So does every run |
| ProtocolTheorems.OneRowPerDevice | cmd/control-plane/device_connect.go:104-158 | In every interleaving the table never holds two rows for the same target and device, though no constraint forbids it |
| ProtocolTheorems.PendingPicks | cmd/control-plane/device_connect.go:134-158 | In every interleaving a pending pick is already taken or is the least free address at that moment |
| ProtocolTheorems.RowsAreTheFirstAddresses | cmd/control-plane/device_utils.go:69-81 | In every interleaving a target with n rows holds exactly the n addresses after its network address |
| ProtocolTheorems.CapacityBound | cmd/control-plane/device_utils.go:63-86 | In every interleaving a target at offset k in a block of length b has at most 2^(32-b) - 1 - k rows; the scan succeeds exactly below that, and with n rows it finds the address n + 1 past the network address |
| ProtocolTheorems.FixedColumnsStay | cmd/control-plane/db.go:284-300 | Whole-row writes from stale snapshots never change a row's target, device or address, nor a target's owner, network or internal address, and no row or target is lost |
| ProtocolTheorems.RecordedAddressIsForever | cmd/control-plane/device_connect.go:190-198 | A handler that found or inserted its row sends the address that this row holds in every continuation |
| ProtocolInvariant.InitialStarts | migrations/000002_create_initial_tables.up.sql:3-35 | Any set of targets without connections is a start on tables in order, from which all theorems about runs hold |
| ProtocolTheorems.RestartStarts | cmd/control-plane/connman.go:12-17 | So is what any process leaves, stopped anywhere, for the process that starts next: handlers and sessions are gone, the tables are as they were |
| ProtocolTheorems.RestartsKeepTables | cmd/control-plane/connman.go:12-17 | Stopping and starting the process any number of times, handlers cut off anywhere, leaves the tables in order and a start on them |
| ProtocolTheorems.RestartsLoseNothing | cmd/control-plane/connman.go:12-17 | Over restarts too, no row, target or fixed column is lost |
| OwnAddress.InsertRaceOutcome | cmd/control-plane/device_connect.go:231-237 | After the INSERT a handler's address is leased to its own device if and only if the address was free and the id new, or the device already held it |
| OwnAddress.RecheckOutcome | cmd/control-plane/device_connect.go:226-229 | A handler whose second check finds a row goes on with its own pick, which is its device's address if and only if the row found holds that address |
| OwnAddress.OwnAddressIff | cmd/control-plane/device_connect.go:104-198 | In every run, every handler from its settling on an address to the end of its session: the address was leased to its own device as it settled if and only if it found its row, or its second check found a row with that address, or its INSERT met the condition above; it is so now if and only if that held or another handler has inserted it for the device since; with a new random id the latter never happens |
| AddressRace.RaceHandsOutALeasedAddress | cmd/control-plane/device_connect.go:219-238 | From any state in order with two devices about to scan a target with room, a continuation leases the address to one device while the other's handler is about to announce it |
| AddressRace.RaceFromScratch | cmd/control-plane/device_connect.go:231-237 | A whole run from an empty control plane in which that happens |
| AddressRace.FailedLookupMisleads | cmd/control-plane/device_connect.go:106-111 | From any state in order with a device that has a row and is about to scan a target with room: two steps later its handler goes on with an address that nobody leases |
| AddressRace.FailedLookupFromScratch | cmd/control-plane/device_connect.go:106-111 | A whole run from an empty control plane, with one device, that gets there through a failed lookup |
| ProtocolTheorems.ServerAddressIsNeverLeased | cmd/control-plane/target.go:20 | For a target made by createTarget, whether or not the create reported an error, through any interleaving of creates, serves and connects, the server's internal address equals the network address and no row holds it |
| ProtocolTheorems.ServersStay | cmd/control-plane/connman.go:21-27 | A target with a registered server has one in every continuation |
| ProtocolTheorems.AppendFindsAServer | cmd/control-plane/device_connect.go:160-181 | In every interleaving a handler with a peer to append gets the registered server, so the "not alive" branch before the call is unreachable |
| Handlers.DrivesIsARun | cmd/control-plane/device_connect.go:80-217 | Driving one handler with a list of answers is the run of the machine in which nobody else moves |
| Handlers.ControlPlane.CreateTarget | cmd/control-plane/target.go:9-31 | Adds one row on a new name, with the given name and owner, 10.8.0.1 and /23 as network and as internal address, 1.1.1.1 for DNS and the other columns empty; is the create event of the machine; reports whether the name was new |
| Handlers.ControlPlane.TargetServerAlive | cmd/control-plane/device_utils.go:24-43 | True exactly if the target exists, its key, address and port columns are all set, and a session is registered under its name |
| Announcement.KnownServerIsSet | cmd/control-plane/device_utils.go:30-33 | In every run a connect handler past the test goes on with a target whose server key, address and port are not empty |
| Announcement.PrefixLengthIsTheTargets | cmd/control-plane/device_utils.go:89 | In every run from rows that have it, every row, and the row carried by every handler from the second check on, has its target's prefix length |
| Announcement.ClientIsToldItsNetwork | cmd/control-plane/device_connect.go:190-198 | In every run a client is told a server whose key, address and port are set, its target's DNS server and prefix length, its row's key, and an address of its target's network after the network address |
| Announcement.ToldPrefixReads | daemon/wg/daemon_linux.go:212 | For a target on 10.8.0.1/23, the told address and length together read as a prefix of that block |
| Announcement.ServerIsToldItsAddress | cmd/control-plane/device_serve.go:143-149 | In every run a new server is told the internal address and length that its target has, the key and port it reported, and the listed peers |
| Handlers.ControlPlane.CreateConnection | cmd/control-plane/device_connect.go:220-238 | Fails exactly if a query fails; keeps the table if the device already has a row, and otherwise inserts if it can |
| Handlers.ControlPlane.ClientConnect | cmd/control-plane/device_connect.go:80-217 | The whole handler is an uninterrupted run of the machine. On tables in order it says exactly when the client is told; then what: the target's server key, address, port and DNS server, the row's address, the target's prefix length and the client's key; and the whole new state: the rows (one row re-keyed, one more row, or none), the one server told or not, and the session saved. With a new id the row is in the table if and only if the lookup did not fail for a device that has a row |
| Handlers.ControlPlane.ClientServe | cmd/control-plane/device_serve.go:82-165 | The whole handler is an uninterrupted run of the machine. It says exactly when the daemon is told; then what: the reported key and port, the target's internal address and length, and one listing of the target's rows as peers; and that the target's row is updated, the daemon configured and the session registered |
| Handlers.PeersFrom | cmd/control-plane/device_serve.go:126-141 | One peer for each listed row, in order, with the row's key and address |
| Peers.WireguardDevice.ConfigureDevice | daemon/wg/daemon_linux.go:407-420 | Applies the entries in order, from an empty device if peers are replaced |
| Peers.WireguardDevice.UpdateServeConf | daemon/wg/daemon_linux.go:380-420 | The device ends as the bulk construction of the given peers, whatever it held |
| Peers.WireguardDevice.AppendPeers | daemon/wg/daemon_linux.go:432-480 | The device ends as what it held with the given peers appended |
| Peers.ServedMeaning | daemon/wg/daemon_linux.go:384-412 | For every list: an address belongs to a key if and only if some entry says so and no later entry repeats its address or its key |
| Peers.AppendedMeaning | daemon/wg/daemon_linux.go:445-471 | For every list: the last entry for an address decides its owner, and addresses not mentioned keep theirs |
| Peers.AppendedConcat | daemon/wg/daemon_linux.go:445-471 | Appending in two calls is appending in one |
| Peers.BulkIsIncremental | daemon/wg/daemon_linux.go:384-471 | For every list with distinct addresses and every split of it into any number of calls, bulk and incremental construction agree if and only if the keys are distinct |
| PeerMirror.ServedMirrors | cmd/control-plane/device_serve.go:125-160 | Serving from a listing rebuilds the table's address-to-key map if and only if the listed keys are distinct |
| PeerMirror.OrderlyStep | cmd/control-plane/device_connect.go:111-181 | With handlers in turn and answers that succeed, every step keeps every registered server's map equal to the table, but for the one address the handler is about to announce |
| PeerMirror.RegisteredServersMirrorTheTable | cmd/control-plane/device_serve.go:125-160 | From any start, on tables an earlier process left too, after any sequence of serves, new connects, reconnects and key re-syncs in turn, each registered server maps exactly each row's address to that row's key |
| MirrorRace.AppendMirrorsAtIff | cmd/control-plane/device_connect.go:168-181 | In every interleaving an append that takes effect mirrors the table at its address if and only if some row of the target holds that address and that key |
| MirrorRace.AppendMirrorsIff | cmd/control-plane/device_connect.go:168-181 | It leaves the whole map a mirror if and only if, besides, the map was one at every other address |
| MirrorRace.AppendMirrorsInRuns | cmd/control-plane/device_connect.go:104-181 | In every run, for every append: if the address was the device's own as its handler settled, or was given to it since, it mirrors if and only if the device's row still holds the key; otherwise if and only if the device that has the address has the same key |
| MirrorRace.FailedLookupBreaksMirror | cmd/control-plane/device_connect.go:106-111 | A whole run with one device, one failed lookup and calls that succeed, after which the registered server's map is not the table's |
| MirrorRace.RaceBreaksMirror | cmd/control-plane/device_connect.go:231-237 | The same by a race of two devices: the server gives the first device's address to the second's key |
| DeviceRegistry.ReturnedIdIsStored | cmd/control-plane/device.go:48-67 | In every interleaving a returned id is not empty, is stored, and belongs to that principal and hardware |
| DeviceRegistry.IdsAreNotShared | migrations/000002_create_initial_tables.up.sql:39-46 | In every interleaving two different pairs of principal and hardware never get the same id |
| DeviceRegistry.OneTargetOneId | cmd/control-plane/device.go:55-67 | Hardware registered on one target only always gets the same id back |
| DeviceRegistry.FetchIsForced | cmd/control-plane/db.go:147-163 | The read after a refused insert must return the id of the requested target if and only if that hardware is registered on no other |
| DeviceRegistry.AnotherTargetsId | cmd/control-plane/device.go:59-62 | A whole run in which hardware registered on two targets is given the other target's id |
| DeviceRegistry.RegistrationHandler.CreateDevice | cmd/control-plane/db.go:131-144 | Inserts unless the key or the id is taken; reports whether it did |
| DeviceRegistry.RegistrationHandler.GetDeviceId | cmd/control-plane/db.go:147-163 | An id stored for the principal and hardware, or "" only if there is none |
| DeviceRegistry.RegistrationHandler.RegisterDevice | cmd/control-plane/device.go:28-67 | For the authorized an uninterrupted run of the registration machine; replies with an id exactly if authorized and the statements it needs report no error; the id belongs to the caller; adds exactly one row if the device was unknown and the insert took effect |
| WireguardDaemons.WireguardDaemon.FindDefaultInterface | daemon/wg/network_util_linux.go:55-92 | The first interface, in link order, with a default route of the least metric anywhere; none only if there is none |
| WireguardDaemons.WireguardDaemon.EnableSourceRouting | daemon/wg/network_util_linux.go:95-158 | The loops build and add the listed rules and routes, remember each list once all of it is added, and stop at the first failure |
| WireguardDaemons.WireguardDaemon.StopSourceRouting | daemon/wg/network_util_linux.go:161-178 | Deletes in order, stops at the first failure, forgets nothing |
| WireguardDaemons.WireguardDaemon.EnableForwarding | daemon/wg/network_util_linux.go:181-201 | Appends the FORWARD and then the MASQUERADE rule, the latter for the remembered default interface, and stops with an error at a call that fails |
| WireguardDaemons.WireguardDaemon.DisableForwarding | daemon/wg/network_util_linux.go:204-224 | Deletes the two in the same order, and stops with an error at a call that fails or finds no such rule |
| WireguardDaemons.WireguardDaemon.UpdateClientConf | daemon/wg/daemon_linux.go:108-313 | The whole method is the specified change of kernel and daemon, false where the process exits; it remembers the two hosts as given and a default interface only if none was remembered, and gives the tunnel the client's address |
| WireguardDaemons.WireguardDaemon.UpdateServeConf | daemon/wg/daemon_linux.go:316-429 | The same for serving, with the server's internal address; gets to its end exactly if there is a default interface; a failure to enable forwarding leaves what was appended and is otherwise ignored |
| WireguardDaemons.WireguardDaemon.Disconnect | daemon/wg/daemon_linux.go:485-510 | The same for disconnecting, with failed chain calls and deletions skipped or stopping as in the source |
| Kernel.VictimExists | daemon/wg/daemon_linux.go:499-504 | A deletion that fits some route has a fitting route of least metric to delete |
| SourceRouting.EnableSucceedsIff | daemon/wg/network_util_linux.go:95-158 | Enabling succeeds if and only if none of its rules and none of its table slots is in use |
| SourceRouting.EnableEffect | daemon/wg/network_util_linux.go:95-158 | It then adds exactly one rule and one route per address, the rules in order after those of priority 0 and 1 |
| SourceRouting.SourceTablesAreOwn | daemon/wg/network_util_linux.go:106-134 | The i-th address has a rule of priority 1 for it and a table of its own, 130 + i, with a default route of metric 50 through the gateway and the interface |
| SourceRouting.EnableRemembers | daemon/wg/network_util_linux.go:137-157 | Each list is remembered exactly if all of it was added, and no other field of the daemon changes |
| SourceRouting.StopUndoesEnable | daemon/wg/network_util_linux.go:161-178 | For any list of addresses and any kernel on which enabling succeeds, stopping restores the kernel exactly |
| ClientSetup.ConfigureSucceedsIff | daemon/wg/daemon_linux.go:141-309 | Configuring as a client gets to its end if and only if nothing is in the way: the two hosts differ and are not pinned (first time), no rule, source table or /1 slot is in use, the client network is not the upper half |
| ClientSetup.ConfigureEffect | daemon/wg/daemon_linux.go:141-313 | The routes, rules and daemon fields that it then leaves, in closed form |
| ClientSetup.SharedHostIsFatal | daemon/wg/daemon_linux.go:147-182 | With the server on the control plane's host, the first connect ends the daemon |
| Lookup.GatewayIsTheBest | daemon/wg/network_util_linux.go:66-92 | The default interface and gateway are those of a default route of the least metric, on the first such link |
| Lookup.FirstConnectRouting | daemon/wg/daemon_linux.go:147-309 | After the first configuration, whatever policy rules the host has and whatever they select on, for every packet to a destination outside the tunnel's subnet, the route in its fields: from a source on the default interface, unless a host rule ahead decides, the default route of its own table through that interface and its gateway (the source tables having been empty); of the others, what the host's rules leave to the main table takes, for the server and the control plane, the host route through that gateway, for destinations with an earlier route longer than /1 what it took before, and otherwise the gateway-less /1 route through the tunnel |
| Lookup.FirstConnectReaches | daemon/wg/daemon_linux.go:147-309 | And each of these packets has a route |
| Lookup.PinnedHostsLeaveByTheGateway | daemon/wg/daemon_linux.go:158-182 | After the first configuration the server and the control plane are reached, and only by a host route with the gateway and the interface of the host's best default route |
| Lookup.SourcePacketsLeaveByTheGateway | daemon/wg/network_util_linux.go:126-132 | After any configuration a packet that the daemon's rules decide is delivered, and only through the gateway and the interface of the host's best default route |
| Lookup.StandardHostRouting | daemon/wg/daemon_linux.go:147-309 | On a host with the standard rules and empty source tables that covers every packet, with the route in its fields |
| Lookup.PolicyAfterConfigure | daemon/wg/network_util_linux.go:104-157 | After any configuration, whatever policy rules the host has and whatever they select on: a packet from an address of the default interface is decided by the table of that address unless a host rule ahead decides, and every other packet by the host's rules alone |
| Lookup.LongRouteKept | daemon/wg/daemon_linux.go:284-309 | A destination with an earlier route longer than /1 is routed as before |
| Lookup.NoLongRouteTunnels | daemon/wg/daemon_linux.go:284-309 | Any other ordinary destination takes the /1 route through the tunnel, without a gateway, for the half of the address space that it lies in |
| Lookup.PinnedHostsAvoidTheTunnel | daemon/wg/daemon_linux.go:152-182 | For a pinned host the route chosen is exactly the host route through the default gateway, whatever else covers it |
| Lookup.LaterConnectMayLoop | daemon/wg/daemon_linux.go:147 | On a later configuration, traffic for the server itself that the host's rules leave to the main table takes the tunnel's /1 route if no earlier route longer than /1 covers it, and otherwise never leaves on the tunnel |
| PlainRuns.SecondServerLoops | daemon/wg/daemon_linux.go:147 | A whole run in which it does: connect, disconnect, connect to another server |
| Lifecycle.StepInv | daemon/wg/daemon_linux.go:485-510 | Each guarded connect, serve or disconnect, whichever chain calls fail, and each change of the rest of the host keeps the invariant |
| Lifecycle.ConnectNeverMeetsLeftovers | daemon/wg/daemon_linux.go:302-309 | Connecting gets to its end if and only if the rest of the host allows it |
| Lifecycle.NextConnectMeetsNoLeftovers | daemon/wg/daemon_linux.go:302-309 | So in every run: nothing the daemon left behind is ever in the way of the next connect |
| Lifecycle.DisconnectedLeavesNoTrace | daemon/wg/daemon_linux.go:485-510 | In every run, whenever disconnected: the routes off the tunnel are the host's own plus at most two pinned host routes, rules are the host's own in its order, chains too if no chain call failed, no source table has a route, and the tunnel has only its connected route |
| Lifecycle.CycleLeavesPins | daemon/wg/daemon_linux.go:147-182 | From any state in order, connecting and disconnecting leaves the routes off the tunnel and the new pins, and nothing else |
| PlainRuns.TwoPinsMayStay | daemon/wg/daemon_linux.go:147-182 | The bound is met: a run on a plain host after which both pinned routes stay |
| Lifecycle.ForwardingExactlyWhileServing | daemon/wg/network_util_linux.go:181-224 | In every run with successful chain calls the two forwarding rules are there once each while serving and not otherwise, although the default interface may change in between |
| Lifecycle.ChainsAreAccountedFor | daemon/wg/network_util_linux.go:181-224 | In every run, whichever chain calls fail: the chains are the host's own, less the rules that the daemon deleted in place of its own, plus those that it appended and has not deleted, and all of these are its two rules |
| PlainRuns.LeftoverMasquerade | daemon/wg/network_util_linux.go:218-221 | A whole run in which a deletion fails and the masquerading rule stays |
| ChainLedger.ForwardingRestoredIff | daemon/wg/network_util_linux.go:181-224 | For any failures of the four chain calls of one serve and disconnect, the chains are restored if and only if each rule that was appended could be deleted and no deletion took an equal rule of the host's own |
| RvpnDaemon.RVPNDaemon.ConnectServer | daemon/daemon.go:215-276 | The instruction is the connect event of the runs, and sets the status |
| RvpnDaemon.RVPNDaemon.ServeVpn | daemon/daemon_linux.go:74-143 | The instruction is the serve event of the runs, and sets the status |
| RvpnDaemon.RVPNDaemon.Disconnect | daemon/daemon.go:371-379 | The command is the disconnect event of the runs, and clears the status |
| Staleness.BlockUntilStale | cmd/control-plane/device_utils.go:93-114 | The loop returns at the first tick whose last heartbeat is too old or at the first cancellation, and at nothing else |
| Staleness.StaleMeansSilence | cmd/control-plane/device_utils.go:100-105 | Whenever it returns for staleness, no heartbeat was handled for at least the timeout |
| Staleness.FrequentHeartbeatsSurvive | cmd/control-plane/device_utils.go:98-113 | Between heartbeats less than the timeout apart no tick ends the loop, wherever the ticks fall |
| Staleness.StaleWithinOnePeriod | cmd/control-plane/device_utils.go:95-105 | With prompt ticks it returns at least the timeout, and strictly less than timeout plus period, after the last heartbeat |
| Staleness.SessionGivenUpInTime | cmd/control-plane/device_utils.go:93-114 | The same for a session whose heartbeats were frequent and then ceased |
| Staleness.SilentSessionEndsBeforeFourMinutes | cmd/control-plane/device_connect.go:213 | With the source's three-minute timeout and one-minute ticks a silent session ends before four minutes |

## Left out

- Websocket, JSON-RPC and HTTP plumbing, JSON, authentication, JWT signing and logging; a device id is given to the handler.
- Heartbeats as messages: the monitor's signals and the times it handles them are inputs.
- Closing sessions, and stale entries in the connection manager, which the source never removes.
- Unsynchronised map access: each use of the connection manager is one atomic step. So `Sessions.ClientsAreTheSaved` does not see that two saves at once, which look up, append and store without a lock, may lose a session.
- NULL columns: the tables hold texts only, as the statements always write them.
- Reading the port text as a number is a step that succeeds or fails.
- IPv6, and addresses of network columns in any text but dotted decimal.
- Key generation and parsing: keys are opaque texts that parse, and a client's key differs from its server's.
- The client's own WireGuard peer (one peer, all addresses) and the listen ports.
- Getting the tunnel interface, bringing it up or down, and listing calls of netlink that fail: a link going down would also drop its routes.
- Policy rules that do something other than look in a table (refuse, jump, suppress a result).
- The kernel's local table, which claims only packets for the host itself.
- More than 123 addresses on one interface, where the source tables would run into the ones the kernel reserves (`SourceRouting` has no such limit).
- Packets for the tunnel's own subnet are outside the lookup theorems.
- The end of the daemon process (`ShutdownDevice`), and runs that go on after a fatal exit.
- Commands that arrive while an instruction is being carried out: each one finishes before the next.
- The Darwin and Windows back ends, the GUI, the command line's text and the service manager.
- Lifecycle.ForwardingExactlyWhileServing: speaks of runs whose chain calls all went through; `Lifecycle.ChainsAreAccountedFor` has what holds in every run.
- Lookup.FirstConnectRouting: where a rule of the host's own sends a packet to a table other than main, that table's routes are the host's and the theorem only says that its rules decide.
- PeerMirror.RegisteredServersMirrorTheTable: needs handlers one at a time and answers that succeed; `MirrorRace` has what holds otherwise. A session stands for one daemon.
- ProtocolTheorems.ServersStay: holds within one life of the process; a restart forgets every session.
