/**
 The handlers as the source writes them: methods that run the statements one after another on
 the database object and the connection manager object.

 A world fixes what the database, the network and the random source answer during one call.
 Each method is proved to be an uninterrupted run of the state machine: there are answers, all
 possible when given, that drive the machine from the state before to the state after.
 */
module Handlers {
  import opened Wrappers
  import opened Database
  import opened ConnectionManagement
  import opened Allocation
  import opened Peers
  import opened Protocol
  import opened ProtocolInvariant
  import opened Announcement
  import opened PeerMirror

  datatype ConnectWorld = ConnectWorld(
    loadFails: bool, information: Option<string>, lookupFails: bool, resyncFault: Fault,
    networkFails: bool, ipsFails: bool, uuid: string, recheckFails: bool, insertFault: Fault,
    callFault: Fault, portReads: bool)

  datatype ServeWorld = ServeWorld(
    loadFails: bool, information: Option<(string, string)>, writeFault: Fault, portReads: bool,
    listFails: bool, callFault: Fault)

  predicate Stored(rows: Connections, c: Connection) {
    c.id in rows && rows[c.id] == c
  }

  /** With a free address, an insert needs a new id. */
  lemma FreeInserts(rows: Connections, c: Connection)
    requires c.clientIp !in ClientIps(rows, c.target)
    ensures ConnectionInserted(rows, c) == if c.id in rows then rows else rows[c.id := c]
  {
    forall id | id in rows && rows[id].target == c.target
      ensures rows[id].clientIp != c.clientIp
    {
      assert id in Ids(rows, c.target);
    }
  }

  // ---------- what clientConnect does, uninterrupted ----------

  /** Does the lookup find a row of the device? */
  predicate Finds(rows: Connections, target: string, device: string, world: ConnectWorld) {
    !world.lookupFails && HasDevice(rows, target, device)
  }

  /** Does a row of the device hold this key? */
  predicate UpToDate(rows: Connections, target: string, device: string, key: string) {
    exists id :: id in rows && rows[id].target == target && rows[id].deviceId == device && rows[id].pubkey == key
  }

  /** Will there be a connection for the device? */
  predicate ConnectionPossible(s: Shared, target: string, device: string, key: string, world: ConnectWorld) {
    if Finds(s.rows, target, device, world) then
      UpToDate(s.rows, target, device, key) || world.resyncFault.NoFault?
    else
      && PickPossible(s, target, world)
      && !world.recheckFails && (HasDevice(s.rows, target, device) || world.insertFault.NoFault?)
  }

  predicate PickPossible(s: Shared, target: string, world: ConnectWorld) {
    && !world.networkFails && !world.ipsFails && target in s.targets && NetworkOf(s.targets[target]).Some?
    && NextFree(NetworkOf(s.targets[target]).value, ClientIps(s.rows, target)).Some?
  }

  /** Will the client be told anything? */
  predicate ConnectGoesThrough(s: Shared, target: string, device: string, world: ConnectWorld) {
    && !world.loadFails && world.information.Some? && world.portReads
    && target in s.targets && target in s.servers
    && s.targets[target].serverPubkey != "" && s.targets[target].serverPublicIp != ""
    && s.targets[target].serverPublicVpnPort != ""
    && ConnectionPossible(s, target, device, world.information.value, world)
  }

  /** The rows afterwards: the row found with the new key, or one more row, or those of before. */
  predicate RowsAfter(rows: Connections, rows': Connections, target: string, device: string, row: Connection,
                      world: ConnectWorld)
  {
    if Finds(rows, target, device, world) then
      row.id in rows && row == rows[row.id].(pubkey := row.pubkey) && rows' == rows[row.id := row]
    else
      && row.id == world.uuid && row.clientIp !in ClientIps(rows, target)
      && rows' == if HasDevice(rows, target, device) || row.id in rows then rows else rows[row.id := row]
  }

  /** With a new random id, the row is in the table unless the lookup failed although the device has one. */
  lemma RowIsStored(rows: Connections, rows': Connections, target: string, device: string, row: Connection,
                    world: ConnectWorld)
    requires RowsAfter(rows, rows', target, device, row, world) && world.uuid !in rows
    ensures Stored(rows', row) <==> !(world.lookupFails && HasDevice(rows, target, device))
  {
  }

  /** Is the target's server told of the row? */
  predicate Tells(rows: Connections, target: string, device: string, row: Connection, world: ConnectWorld) {
    !(Finds(rows, target, device, world) && row.id in rows && rows[row.id].pubkey == row.pubkey)
  }

  function DevicesAfter(s: Shared, target: string, row: Connection): map<Conn, AllowedIps>
    requires target in s.servers
  {
    s.devices[s.servers[target] := DeviceOf(s, s.servers[target])[row.clientIp := row.pubkey]]
  }

  // ---------- uninterrupted runs of one handler ----------

  /** Where an uninterrupted run starts. */
  datatype Origin = Origin(shared: Shared, h: Conn, handler: Handler)

  /** The state and the handler after these answers, nobody else moving. */
  function Drive(o: Origin, trace: seq<Answer>): (Shared, Handler) {
    if trace == [] then (o.shared, o.handler)
    else
      var (s, handler) := Drive(o, trace[..|trace| - 1]);
      HandlerStep(s, o.h, handler, trace[|trace| - 1])
  }

  /** Every answer was possible when it was given. */
  ghost predicate Legal(o: Origin, trace: seq<Answer>) {
    trace != [] ==>
      && Legal(o, trace[..|trace| - 1])
      && var (s, handler) := Drive(o, trace[..|trace| - 1]);
         Possible(s, handler, trace[|trace| - 1])
  }

  ghost predicate Drives(o: Origin, trace: seq<Answer>, s: Shared, handler: Handler) {
    Legal(o, trace) && Drive(o, trace) == (s, handler)
  }

  lemma Advance(o: Origin, trace: seq<Answer>, s: Shared, prior: Handler, a: Answer)
    returns (trace': seq<Answer>, handler: Handler)
    requires Drives(o, trace, s, prior) && Possible(s, prior, a)
    ensures handler == HandlerStep(s, o.h, prior, a).1
    ensures Drives(o, trace', HandlerStep(s, o.h, prior, a).0, handler)
  {
    trace', handler := trace + [a], HandlerStep(s, o.h, prior, a).1;
    assert trace'[..|trace'| - 1] == trace;
  }

  function Answers(h: Conn, trace: seq<Answer>): (events: seq<Event>)
    ensures |events| == |trace|
  {
    seq(|trace|, i requires 0 <= i < |trace| => Answered(h, trace[i]))
  }

  /** Driving one handler is running the machine with nobody else moving. */
  lemma {:induction false} DrivesIsARun(sys: Sys, h: Conn, trace: seq<Answer>, s: Shared, handler: Handler)
    requires h in sys.handlers && Drives(Origin(sys.shared, h, sys.handlers[h]), trace, s, handler)
    ensures Run(sys, Answers(h, trace)) == Sys(s, sys.handlers[h := handler])
    decreases |trace|
  {
    if trace != [] {
      var n := |trace| - 1;
      var (before, prior) := Drive(Origin(sys.shared, h, sys.handlers[h]), trace[..n]);
      DrivesIsARun(sys, h, trace[..n], before, prior);
      assert Answers(h, trace)[..n] == Answers(h, trace[..n]);
      assert Possible(before, prior, trace[n]);
      MovedTwice(sys.handlers, h, prior, handler);
    }
  }

  lemma MovedTwice(handlers: map<Conn, Handler>, h: Conn, a: Handler, b: Handler)
    ensures handlers[h := a][h := b] == handlers[h := b]
  {
  }

  /** A failed statement, or what it answers otherwise. */
  function Or(fails: bool, a: Answer): Answer {
    if fails then Fails else a
  }

  function AnswerOf(fault: Fault): Answer {
    match fault
    case NoFault => Done
    case Refused => Fails
    case Late => FailsLate
  }

  method PeersFrom(targetConnections: seq<Connection>) returns (rVPNPeers: seq<WireGuardPeer>)
    ensures rVPNPeers == PeersOf(targetConnections)
  {
    rVPNPeers := [];
    for i := 0 to |targetConnections|
      invariant rVPNPeers == PeersOf(targetConnections)[..i]
    {
      rVPNPeers := rVPNPeers + [WireGuardPeer(targetConnections[i].pubkey, targetConnections[i].clientIp)];
    }
  }

  class ControlPlane {
    const db: RVPNDatabase
    const connMan: ConnectionManager
    var devices: map<Conn, AllowedIps>  // the daemons at the other end of the sessions

    constructor ()
      ensures fresh(db) && fresh(connMan)
      ensures State() == Shared(map[], map[], map[], map[], map[])
    {
      db := new RVPNDatabase();
      connMan := new ConnectionManager();
      devices := map[];
    }

    function State(): Shared
      reads this, db, connMan
    {
      Shared(db.targets, db.connections, connMan.servers, connMan.clients, devices)
    }

    /** createTarget: the same network and server address for every target. */
    method CreateTarget(name: string, owner: string, fault: Fault) returns (r: Result<bool, SqlError>)
      modifies db`targets
      ensures db.targets ==
        if fault.Refused? || name in old(db.targets) then old(db.targets)
        else old(db.targets)[name := Target(name, owner, "10.8.0.1", "/23", "1.1.1.1", "", "", "",
                                            "10.8.0.1", "/23", "")]
      ensures forall sys: Sys :: sys.shared == old(State()) ==>
        Step(sys, Create(name, owner, fault)) == sys.(shared := State())
      ensures r == if fault.NoFault? then Ok(name !in old(db.targets)) else Err(QueryFailed)
    {
      r := db.CreateTarget(NewTarget(name, owner), fault);
    }

    method TargetServerAlive(tgt: Option<Target>) returns (alive: bool)
      ensures alive <==>
        && tgt.Some? && tgt.value.name in connMan.servers
        && tgt.value.serverPubkey != "" && tgt.value.serverPublicIp != "" && tgt.value.serverPublicVpnPort != ""
      ensures alive == Protocol.TargetServerAlive(State(), tgt)
    {
      if tgt.None? {
        return false;
      }
      if tgt.value.serverPubkey == "" || tgt.value.serverPublicIp == "" || tgt.value.serverPublicVpnPort == "" {
        return false;
      }
      var vpnServerConn := connMan.GetVPNServerConn(tgt.value.name);
      alive := vpnServerConn.Some?;
    }

    /** The call that tells a target's server about one more peer. */
    method CallAppendVPNPeers(conn: Conn, c: Connection, fault: Fault)
      modifies this`devices
      ensures State() == if fault.Refused? then old(State())
                         else old(State()).(devices := old(devices)[conn :=
                                Appended(DeviceOf(old(State()), conn), [PeerOf(c)])])
    {
      if !fault.Refused? {
        var device := new WireguardDevice();
        device.allowedIps := if conn in devices then devices[conn] else map[];
        device.AppendPeers([WireGuardPeer(c.pubkey, c.clientIp)]);
        devices := devices[conn := device.allowedIps];
      }
    }

    method CallServeVPN(conn: Conn, peers: seq<WireGuardPeer>, fault: Fault)
      modifies this`devices
      ensures State() == if fault.Refused? then old(State())
                         else old(State()).(devices := old(devices)[conn := Served(peers)])
    {
      if !fault.Refused? {
        var device := new WireguardDevice();
        device.UpdateServeConf(peers);
        devices := devices[conn := device.allowedIps];
      }
    }

    /** createConnection: look again, and insert only if there is still no row. */
    method CreateConnection(c: Connection, world: ConnectWorld)
      returns (r: Result<(), SqlError>, ghost early: Option<Connection>)
      requires Keyed(db.connections) && "" !in db.connections
      modifies db`connections
      ensures r.Err? <==> world.recheckFails || (early.None? && !world.insertFault.NoFault?)
      ensures !world.recheckFails ==> Selects(old(db.connections), c.target, c.deviceId, early)
      ensures db.connections ==
        if world.recheckFails || early.Some? || world.insertFault.Refused? then old(db.connections)
        else ConnectionInserted(old(db.connections), c)
    {
      early := None;
      var existing := db.GetConnection(c.target, c.deviceId, world.recheckFails);
      if existing.Err? {
        return Err(existing.error), None;
      }
      if existing.value.Some? && existing.value.value.id != "" {
        return Ok(()), existing.value;
      }
      var created := db.CreateConnection(c, world.insertFault);
      if created.Err? {
        return Err(created.error), None;
      }
      r := Ok(());
    }

    /** The opening of clientConnect: the target, whether it is alive, the client's key. */
    method OpenConnect(ghost o: Origin, target: string, device: string, world: ConnectWorld)
      returns (greeted: Option<(Target, string)>, ghost trace: seq<Answer>, ghost me: Handler)
      requires o == Origin(State(), o.h, Connecting(target, device, ConnectPc.LoadTarget))
      ensures Drives(o, trace, State(), me)
      ensures match greeted
              case None => me == Connecting(target, device, ConnectPc.Stopped)
              case Some((known, key)) => me == Connecting(target, device, Lookup(known, key))
      ensures greeted.Some? ==>
        && world.information == Some(greeted.value.1)
        && target in db.targets && greeted.value.0 == db.targets[target]
        && greeted.value.0.serverPubkey != "" && greeted.value.0.serverPublicIp != ""
        && greeted.value.0.serverPublicVpnPort != "" && greeted.value.0.name in connMan.servers
      ensures greeted.Some? <==>
        && !world.loadFails && world.information.Some? && target in db.targets
        && db.targets[target].serverPubkey != "" && db.targets[target].serverPublicIp != ""
        && db.targets[target].serverPublicVpnPort != "" && db.targets[target].name in connMan.servers
    {
      greeted, trace, me := None, [], o.handler;
      var tgt := db.GetTargetByName(target, world.loadFails);
      trace, me := Advance(o, trace, State(), me, Or(world.loadFails, Done));
      if tgt.Err? {
        return;
      }
      var alive := TargetServerAlive(tgt.value);
      trace, me := Advance(o, trace, State(), me, Done);
      if !alive {
        return;
      }
      match world.information
      case None =>
        trace, me := Advance(o, trace, State(), me, Fails);
      case Some(key) =>
        trace, me := Advance(o, trace, State(), me, Key(key));
        greeted := Some((tgt.value.value, key));
    }

    /** The branch for a device that has a row whose key is out of date. */
    method SyncConnectionPubkey(ghost o: Origin, ghost trace0: seq<Answer>, ghost me0: Handler,
                                c: Connection, key: string, fault: Fault)
      returns (synced: Option<Connection>, ghost trace: seq<Answer>, ghost me: Handler)
      requires Drives(o, trace0, State(), me0)
      requires me0.Connecting? && me0.cpc.Resync? && me0.cpc.c == c && me0.cpc.key == key
      modifies db`connections
      ensures Drives(o, trace, State(), me)
      ensures me == me0.(cpc := match synced
                                case None => ConnectPc.Stopped
                                case Some(c') => FindServer(me0.cpc.known, c', true))
      ensures synced.Some? ==> synced.value == c.(pubkey := key)
      ensures synced.Some? <==>
        fault.NoFault? && !(c.id in old(db.connections) && AddressHeldByOther(old(db.connections), c.(pubkey := key)))
      ensures synced.Some? && c.id in old(db.connections) ==>
        db.connections == old(db.connections)[c.id := synced.value]
    {
      ghost var before := State();
      var c' := c.(pubkey := key);
      var r := db.UpdateConnection(c', fault);
      trace, me := Advance(o, trace0, before, me0, AnswerOf(fault));
      synced := if r.Err? then None else Some(c');
    }

    /** The branch for a device that has no row: pick an address ... */
    method PickConnection(ghost o: Origin, ghost trace0: seq<Answer>, ghost me0: Handler,
                          target: string, device: string, key: string, world: ConnectWorld)
      returns (pick: Option<Connection>, ghost trace: seq<Answer>, ghost me: Handler)
      requires world.uuid != "" && Drives(o, trace0, State(), me0)
      requires me0.Connecting? && me0.target == target && me0.device == device
      requires me0.cpc.LoadNetwork? && me0.cpc.key == key
      ensures Drives(o, trace, State(), me)
      ensures me == me0.(cpc := match pick
                                case None => ConnectPc.Stopped
                                case Some(c) => Recheck(me0.cpc.known, c))
      ensures pick.Some? ==>
        && pick.value.id == world.uuid && pick.value.target == target && pick.value.deviceId == device
        && pick.value.pubkey == key && pick.value.clientIp !in ClientIps(db.connections, target)
        && target in db.targets && pick.value.clientCidr == db.targets[target].networkCidr
      ensures pick.Some? <==> PickPossible(State(), target, world)
    {
      pick, trace, me := None, trace0, me0;
      var lease := GetNextClientIp(db, target, world.networkFails, world.ipsFails);
      trace, me := Advance(o, trace, State(), me, Or(world.networkFails, Done));
      if !world.networkFails && target in db.targets {
        trace, me := Advance(o, trace, State(), me, Or(world.ipsFails, Uuid(world.uuid)));
      }
      if lease.Ok? {
        pick := Some(Connection(world.uuid, target, device, key, lease.value.clientIp, lease.value.clientCidr));
      }
    }

    /** ... then create the connection. */
    method SaveConnection(ghost o: Origin, ghost trace0: seq<Answer>, ghost me0: Handler,
                          c: Connection, world: ConnectWorld)
      returns (saved: bool, ghost trace: seq<Answer>, ghost me: Handler)
      requires Keyed(db.connections) && "" !in db.connections
      requires Drives(o, trace0, State(), me0)
      requires me0.Connecting? && me0.cpc.Recheck? && me0.cpc.c == c
      requires me0.target == c.target && me0.device == c.deviceId
      modifies db`connections
      ensures Drives(o, trace, State(), me)
      ensures me.Connecting? && me.target == c.target && me.device == c.deviceId
      ensures if saved then me.cpc.FindServer? && me.cpc.c == c && me.cpc.known == me0.cpc.known else me.cpc.Stopped?
      ensures saved <==> !world.recheckFails
                         && (HasDevice(old(db.connections), c.target, c.deviceId) || world.insertFault.NoFault?)
      ensures saved ==>
        db.connections == (if HasDevice(old(db.connections), c.target, c.deviceId) then old(db.connections)
                           else ConnectionInserted(old(db.connections), c))
    {
      ghost var before, early := State(), None;
      var created;
      created, early := CreateConnection(c, world);
      trace, me := Advance(o, trace0, before, me0, Or(world.recheckFails, Row(early)));
      if !world.recheckFails && early.None? {
        trace, me := Advance(o, trace, before, me, AnswerOf(world.insertFault));
      }
      saved := created.Ok?;
    }

    /** Telling the target's server about the peer. */
    method AppendPeerToVPNServer(ghost o: Origin, ghost trace0: seq<Answer>, ghost me0: Handler,
                                 target: string, c: Connection, fault: Fault)
      returns (appended: bool, ghost trace: seq<Answer>, ghost me: Handler)
      requires Drives(o, trace0, State(), me0)
      requires me0.Connecting? && me0.target == target && me0.cpc.FindServer? && me0.cpc.c == c
      modifies this`devices
      ensures Drives(o, trace, State(), me)
      ensures appended == (target in connMan.servers)
      ensures devices == if appended && !fault.Refused? then DevicesAfter(old(State()), target, c) else old(devices)
      ensures me == me0.(cpc := if appended then ConnectPc.ParsePort(me0.cpc.known, c, me0.cpc.recorded)
                                else ConnectPc.Stopped)
    {
      var vpnServerConn := connMan.GetVPNServerConn(target);
      trace, me := Advance(o, trace0, State(), me0, Done);
      appended := vpnServerConn.Some?;
      if appended {
        ghost var before := State();
        AppendOne(DeviceOf(State(), vpnServerConn.value), c);
        CallAppendVPNPeers(vpnServerConn.value, c, fault);
        trace, me := Advance(o, trace, before, me, AnswerOf(fault));
      }
    }

    /** The end of clientConnect: read the port, instruct the client, register its session. */
    method FinishConnect(ghost o: Origin, ghost trace0: seq<Answer>, ghost me0: Handler,
                         h: Conn, target: string, known: Target, c: Connection, portReads: bool)
      returns (told: Option<ConnectServerRequest>, ghost trace: seq<Answer>, ghost me: Handler)
      requires Drives(o, trace0, State(), me0) && o.h == h
      requires me0.Connecting? && me0.target == target
      requires me0.cpc.ParsePort? && me0.cpc.c == c && me0.cpc.known == known
      modifies connMan`clients
      ensures Drives(o, trace, State(), me)
      ensures me == me0.(cpc := if portReads then ConnectPc.Blocked(known, c, me0.cpc.recorded) else ConnectPc.Stopped)
      ensures connMan.clients == if portReads then AddClient(old(connMan.clients), target, h) else old(connMan.clients)
      ensures told ==
        if portReads then
          Some(ConnectServerRequest(known.serverPubkey, c.pubkey, c.clientIp, c.clientCidr,
                                    known.serverPublicIp, known.serverPublicVpnPort, known.dnsIp))
        else None
    {
      told := None;
      trace, me := Advance(o, trace0, State(), me0, Or(!portReads, Done));
      if portReads {
        told := Some(ConnectRequest(known, c));
        trace, me := Advance(o, trace, State(), me, Done);
        trace, me := RegisterClient(o, trace, me, h, target);
      }
    }

    method RegisterClient(ghost o: Origin, ghost trace0: seq<Answer>, ghost me0: Handler, h: Conn, target: string)
      returns (ghost trace: seq<Answer>, ghost me: Handler)
      requires Drives(o, trace0, State(), me0) && o.h == h
      requires me0.Connecting? && me0.target == target && me0.cpc.Save?
      modifies connMan`clients
      ensures Drives(o, trace, State(), me)
      ensures me == me0.(cpc := ConnectPc.Blocked(me0.cpc.known, me0.cpc.c, me0.cpc.recorded))
      ensures connMan.clients == AddClient(old(connMan.clients), target, h)
    {
      ghost var before := State();
      connMan.SetVPNClientConn(target, h);
      trace, me := Advance(o, trace0, before, me0, Done);
    }

    /**
     clientConnect, uninterrupted.  Returns what the client was told, with the row that it was
     told of, and the answers that drive the machine through the same states.  On tables in
     order it says exactly when the client is told, and then the whole new state.
     */
    method ClientConnect(h: Conn, target: string, device: string, world: ConnectWorld)
      returns (told: Option<ConnectServerRequest>, ghost row: Option<Connection>,
               ghost trace: seq<Answer>, ghost me: Handler)
      requires Keyed(db.connections) && "" !in db.connections && world.uuid != ""
      modifies this`devices, db`connections, connMan`clients
      ensures Drives(Origin(old(State()), h, Connecting(target, device, ConnectPc.LoadTarget)), trace, State(), me)
      ensures me.Connecting? && (me.cpc.Blocked? || me.cpc.Stopped?)
      ensures row == if me.cpc.Blocked? then Some(me.cpc.c) else None
      ensures told.Some? == row.Some?
      ensures told.Some? ==>
        && target in old(db.targets) && old(db.targets)[target].name in old(connMan.servers)
        && var tgt := old(db.targets)[target];
           && tgt.serverPubkey != "" && tgt.serverPublicIp != "" && tgt.serverPublicVpnPort != ""
           && told.value == ConnectServerRequest(
                tgt.serverPubkey, row.value.pubkey, row.value.clientIp, row.value.clientCidr,
                tgt.serverPublicIp, tgt.serverPublicVpnPort, tgt.dnsIp)
      ensures told.Some? ==>
        row.value.target == target && row.value.deviceId == device && world.information == Some(row.value.pubkey)
      ensures told.Some? && RowsHaveCidr(old(State())) ==>
        told.value.clientCidr == old(db.targets)[target].networkCidr
      ensures told.Some? && world.uuid !in old(db.connections) ==>
        (Stored(db.connections, row.value)
         <==> !(world.lookupFails && HasDevice(old(db.connections), target, device)))
      ensures told.Some? ==>
        && RowsAfter(old(db.connections), db.connections, target, device, row.value, world)
        && connMan.clients == AddClient(old(connMan.clients), target, h)
        && (Tells(old(db.connections), target, device, row.value, world) ==> target in connMan.servers)
        && devices == (if Tells(old(db.connections), target, device, row.value, world) && !world.callFault.Refused?
                       then DevicesAfter(old(State()), target, row.value) else old(devices))
      ensures AddressesUnique(old(db.connections)) && DevicesUnique(old(db.connections))
              && (target in old(db.targets) ==> old(db.targets)[target].name == target) ==>
        (told.Some? <==> ConnectGoesThrough(old(State()), target, device, world))
    {
      told, row := None, None;
      ghost var o := Origin(State(), h, Connecting(target, device, ConnectPc.LoadTarget));
      var greeted;
      greeted, trace, me := OpenConnect(o, target, device, world);
      if greeted.None? {
        return;
      }
      told, row, trace, me := GoOn(o, trace, me, h, target, device, greeted.value.0, greeted.value.1, world);
      if told.Some? && world.uuid !in old(db.connections) {
        RowIsStored(old(db.connections), db.connections, target, device, row.value, world);
      }
    }

    /** The rest of clientConnect. */
    method GoOn(ghost o: Origin, ghost trace0: seq<Answer>, ghost me0: Handler,
                h: Conn, target: string, device: string, known: Target, key: string, world: ConnectWorld)
      returns (told: Option<ConnectServerRequest>, ghost row: Option<Connection>,
               ghost trace: seq<Answer>, ghost me: Handler)
      requires Keyed(db.connections) && "" !in db.connections && world.uuid != ""
      requires Drives(o, trace0, State(), me0) && o.h == h
      requires me0 == Connecting(target, device, Lookup(known, key))
      modifies this`devices, db`connections, connMan`clients
      ensures Drives(o, trace, State(), me)
      ensures me.Connecting? && (me.cpc.Blocked? || me.cpc.Stopped?)
      ensures row == if me.cpc.Blocked? then Some(me.cpc.c) else None
      ensures told.Some? == row.Some?
      ensures told.Some? ==>
        && row.value.target == target && row.value.deviceId == device && row.value.pubkey == key
        && told.value == ConnectServerRequest(
             known.serverPubkey, key, row.value.clientIp, row.value.clientCidr,
             known.serverPublicIp, known.serverPublicVpnPort, known.dnsIp)
        && (target in db.targets && RowsHaveCidr(old(State())) ==>
              row.value.clientCidr == db.targets[target].networkCidr)
        && RowsAfter(old(db.connections), db.connections, target, device, row.value, world)
        && connMan.clients == AddClient(old(connMan.clients), target, h)
        && (Tells(old(db.connections), target, device, row.value, world) ==> target in connMan.servers)
        && devices == (if Tells(old(db.connections), target, device, row.value, world) && !world.callFault.Refused?
                       then DevicesAfter(old(State()), target, row.value) else old(devices))
      ensures target in connMan.servers
              && AddressesUnique(old(db.connections)) && DevicesUnique(old(db.connections)) ==>
        (told.Some? <==> world.portReads && ConnectionPossible(old(State()), target, device, key, world))
    {
      told, row := None, None;
      var deviceConnection, appendPeerToVPNServer;
      deviceConnection, appendPeerToVPNServer, trace, me :=
        EnsureConnection(o, trace0, me0, target, device, key, world);
      if deviceConnection.None? {
        return;
      }
      if appendPeerToVPNServer {
        var appended;
        appended, trace, me := AppendPeerToVPNServer(o, trace, me, target, deviceConnection.value, world.callFault);
        if !appended {
          return;
        }
      }
      told, trace, me := FinishConnect(o, trace, me, h, target, known, deviceConnection.value, world.portReads);
      row := if world.portReads then deviceConnection else None;
    }

    /** The middle of clientConnect: there must be a connection for the device. */
    method EnsureConnection(ghost o: Origin, ghost trace0: seq<Answer>, ghost me0: Handler,
                            target: string, device: string, key: string, world: ConnectWorld)
      returns (deviceConnection: Option<Connection>, appendPeerToVPNServer: bool,
               ghost trace: seq<Answer>, ghost me: Handler)
      requires Keyed(db.connections) && "" !in db.connections && world.uuid != ""
      requires Drives(o, trace0, State(), me0)
      requires me0.Connecting? && me0.target == target && me0.device == device
      requires me0.cpc.Lookup? && me0.cpc.key == key
      modifies db`connections
      ensures Drives(o, trace, State(), me)
      ensures me.Connecting? && me.target == target && me.device == device
      ensures match deviceConnection
              case None => me.cpc.Stopped?
              case Some(c) =>
                && (if appendPeerToVPNServer then me.cpc.FindServer? else me.cpc.ParsePort?)
                && me.cpc.c == c && me.cpc.known == me0.cpc.known
      ensures deviceConnection.Some? ==>
        var c := deviceConnection.value;
        && c.target == target && c.deviceId == device && c.pubkey == key
        && RowsAfter(old(db.connections), db.connections, target, device, c, world)
        && appendPeerToVPNServer == Tells(old(db.connections), target, device, c, world)
        && (target in db.targets && RowsHaveCidr(old(State())) ==> c.clientCidr == db.targets[target].networkCidr)
      ensures AddressesUnique(old(db.connections)) && DevicesUnique(old(db.connections)) ==>
        (deviceConnection.Some? <==> ConnectionPossible(old(State()), target, device, key, world))
    {
      appendPeerToVPNServer := true;
      var existing := db.GetConnection(target, device, world.lookupFails);
      trace, me := Advance(o, trace0, State(), me0, if existing.Ok? then Row(existing.value) else Fails);
      if existing.Ok? && existing.value.Some? && existing.value.value.id != "" {
        if existing.value.value.pubkey != key {
          deviceConnection, trace, me :=
            SyncConnectionPubkey(o, trace, me, existing.value.value, key, world.resyncFault);
        } else {
          deviceConnection, appendPeerToVPNServer := existing.value, false;
        }
      } else {
        deviceConnection, trace, me := PickConnection(o, trace, me, target, device, key, world);
        if deviceConnection.Some? {
          FreeInserts(db.connections, deviceConnection.value);
          var saved;
          saved, trace, me := SaveConnection(o, trace, me, deviceConnection.value, world);
          deviceConnection := if saved then deviceConnection else None;
        }
      }
    }

    /** The peers of some listing of the target's rows, or none if the listing failed. */
    ghost predicate PeersListed(target: string, peers: seq<WireGuardPeer>, listFails: bool)
      reads db
    {
      if listFails then peers == []
      else exists list :: Lists(db.connections, target, list) && peers == PeersOf(list)
    }

    /** clientServe, uninterrupted; its answers drive the machine through the same states. */
    method ClientServe(h: Conn, target: string, publicIp: string, world: ServeWorld)
      returns (told: Option<ServeVPNRequest>, ghost trace: seq<Answer>, ghost me: Handler)
      requires Keyed(db.connections)
      modifies this`devices, db`targets, connMan`servers
      ensures Drives(Origin(old(State()), h, Serving(target, publicIp, ServePc.LoadTarget)), trace, State(), me)
      ensures me == Serving(target, publicIp, if told.Some? then ServePc.Blocked else ServePc.Stopped)
      ensures connMan.servers == if told.Some? then old(connMan.servers)[target := h] else old(connMan.servers)
      ensures told.Some? ==>
        && target in old(db.targets) && world.information.Some? && world.portReads
        && var known := old(db.targets)[target].(
             serverPubkey := world.information.value.0, serverPublicIp := publicIp,
             serverPublicVpnPort := world.information.value.1);
           && db.targets == (if world.writeFault.Refused? then old(db.targets)
                             else TargetUpdated(old(db.targets), target, known))
           && told.value == ServeVPNRequest(world.information.value.0, known.serverInternalIp, known.serverInternalCidr,
                                            world.information.value.1, told.value.peers)
      ensures told.Some? <==>
        !world.loadFails && target in old(db.targets) && world.information.Some? && world.portReads
      ensures told.Some? ==> PeersListed(target, told.value.peers, world.listFails)
      ensures told.Some? && !world.callFault.Refused? ==> devices == old(devices)[h := Served(told.value.peers)]
    {
      ghost var o := Origin(State(), h, Serving(target, publicIp, ServePc.LoadTarget));
      var known;
      known, trace, me := OpenServe(o, target, publicIp, world);
      told := None;
      if known.Some? {
        trace, me := WriteTarget(o, trace, me, target, known.value, world);
        if world.portReads {
          var request;
          request, trace, me := ServePeers(o, trace, me, h, target, known.value, world);
          told := Some(request);
        }
      }
    }

    /** The target's row, whatever the statement answers, and the port. */
    method WriteTarget(ghost o: Origin, ghost trace0: seq<Answer>, ghost me0: Handler,
                       target: string, known: Target, world: ServeWorld)
      returns (ghost trace: seq<Answer>, ghost me: Handler)
      requires Drives(o, trace0, State(), me0)
      requires me0.Serving? && me0.target == target && me0.spc == ServePc.WriteTarget(known)
      modifies db`targets
      ensures Drives(o, trace, State(), me)
      ensures me == me0.(spc := if world.portReads then LoadRows(known) else ServePc.Stopped)
      ensures db.targets == if world.writeFault.Refused? then old(db.targets)
                            else TargetUpdated(old(db.targets), target, known)
    {
      ghost var before := State();
      var _ := db.UpdateTarget(target, known, world.writeFault);
      trace, me := Advance(o, trace0, before, me0, AnswerOf(world.writeFault));
      trace, me := Advance(o, trace, State(), me, Or(!world.portReads, Done));
    }

    /** The opening of clientServe: the target, and what its new server reports. */
    method OpenServe(ghost o: Origin, target: string, publicIp: string, world: ServeWorld)
      returns (known: Option<Target>, ghost trace: seq<Answer>, ghost me: Handler)
      requires o == Origin(State(), o.h, Serving(target, publicIp, ServePc.LoadTarget))
      ensures Drives(o, trace, State(), me)
      ensures me == Serving(target, publicIp, if known.Some? then ServePc.WriteTarget(known.value) else ServePc.Stopped)
      ensures known == if world.loadFails || target !in db.targets || world.information.None? then None
                       else Some(db.targets[target].(
                              serverPubkey := world.information.value.0, serverPublicIp := publicIp,
                              serverPublicVpnPort := world.information.value.1))
    {
      known, trace, me := None, [], o.handler;
      var tgt := db.GetTargetByName(target, world.loadFails);
      trace, me := Advance(o, trace, State(), me, Or(world.loadFails, Done));
      if tgt.Err? {
        return;
      }
      match world.information
      case None =>
        trace, me := Advance(o, trace, State(), me, Fails);
      case Some((key, port)) =>
        trace, me := Advance(o, trace, State(), me, Info(key, port));
        if tgt.value.Some? {
          known := Some(tgt.value.value.(serverPubkey := key, serverPublicIp := publicIp, serverPublicVpnPort := port));
        }
    }

    /** The rest of clientServe: the peers from the rows ... */
    method ServePeers(ghost o: Origin, ghost trace0: seq<Answer>, ghost me0: Handler,
                      h: Conn, target: string, known: Target, world: ServeWorld)
      returns (told: ServeVPNRequest, ghost trace: seq<Answer>, ghost me: Handler)
      requires Keyed(db.connections) && Drives(o, trace0, State(), me0) && o.h == h
      requires me0.Serving? && me0.target == target && me0.spc == LoadRows(known)
      modifies this`devices, connMan`servers
      ensures Drives(o, trace, State(), me)
      ensures me == me0.(spc := ServePc.Blocked)
      ensures connMan.servers == old(connMan.servers)[target := h]
      ensures told == ServeVPNRequest(known.serverPubkey, known.serverInternalIp, known.serverInternalCidr,
                                      known.serverPublicVpnPort, told.peers)
      ensures PeersListed(target, told.peers, world.listFails)
      ensures !world.callFault.Refused? ==> devices == old(devices)[h := Served(told.peers)]
    {
      var rVPNPeers: seq<WireGuardPeer> := [];
      var targetConnections := db.GetConnectionsByTarget(target, world.listFails);
      ghost var answer := Fails;
      if targetConnections.Ok? {
        rVPNPeers := PeersFrom(targetConnections.value);
        answer := Rows(targetConnections.value);
      }
      trace, me := Advance(o, trace0, State(), me0, answer);
      assert targetConnections.Ok? ==> Lists(db.connections, target, targetConnections.value);
      told := ServeRequest(known, rVPNPeers);
      trace, me := RegisterServer(o, trace, me, h, target, known, told, world.callFault);
    }

    /** ... the call and the registration. */
    method RegisterServer(ghost o: Origin, ghost trace0: seq<Answer>, ghost me0: Handler,
                          h: Conn, target: string, ghost known: Target, request: ServeVPNRequest, callFault: Fault)
      returns (ghost trace: seq<Answer>, ghost me: Handler)
      requires Drives(o, trace0, State(), me0) && o.h == h
      requires me0.Serving? && me0.target == target && me0.spc == InstructServe(known, request.peers)
      modifies this`devices, connMan`servers
      ensures Drives(o, trace, State(), me)
      ensures me == me0.(spc := ServePc.Blocked)
      ensures connMan.servers == old(connMan.servers)[target := h]
      ensures devices == if callFault.Refused? then old(devices) else old(devices)[h := Served(request.peers)]
    {
      ghost var before := State();
      CallServeVPN(h, request.peers, callFault);
      trace, me := Advance(o, trace0, before, me0, AnswerOf(callFault));
      before := State();
      var _ := connMan.SetVPNServerConn(target, h);
      trace, me := Advance(o, trace, before, me, Done);
    }
  }
}
