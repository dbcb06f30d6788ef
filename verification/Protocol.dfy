/**
 The control plane as a state machine: any number of connect and serve handlers, interleaved.

 A handler runs once per websocket.  Each SQL statement, each JSON-RPC call and each use of
 the connection manager is one atomic step; no lock is held between steps.  The database, the
 remote daemon and the random source answer a step, and an answer may be a failure, before or
 after the step took effect.  A step
 whose answer the database could not have given does nothing, so every event sequence is a run.

 The session number of a handler is its identity, and doubles as the identity of the daemon
 at the other end.  `devices` holds the WireGuard map of each serving daemon.
 */
module Protocol {
  import opened Wrappers
  import opened Database
  import opened ConnectionManagement
  import opened Allocation
  import opened Peers

  datatype Shared = Shared(
    targets: Targets, rows: Connections,
    servers: map<string, Conn>, clients: map<string, seq<Conn>>,
    devices: map<Conn, AllowedIps>)

  /** `Fails` is a failure without effect; `FailsLate` reports a failure after the effect. */
  datatype Answer =
    | Fails
    | FailsLate
    | Done
    | Key(key: string)
    | Uuid(id: string)
    | Row(row: Option<Connection>)
    | Rows(rows: seq<Connection>)
    | Info(key: string, port: string)

  /** Where a connect handler stands, with its local variables.  `recorded` says that the row
      it carries was read from the table or was inserted by its own statement. */
  datatype ConnectPc =
    | LoadTarget
    | CheckAlive(tgt: Option<Target>)
    | FetchKey(known: Target)
    | Lookup(known: Target, key: string)
    | Resync(known: Target, c: Connection, key: string)
    | LoadNetwork(known: Target, key: string)
    | Scan(known: Target, key: string, net: Target)
    | Recheck(known: Target, c: Connection)
    | Insert(known: Target, c: Connection)
    | FindServer(known: Target, c: Connection, recorded: bool)
    | Append(known: Target, c: Connection, recorded: bool, conn: Conn)
    | ParsePort(known: Target, c: Connection, recorded: bool)
    | Instruct(known: Target, c: Connection, recorded: bool)
    | Save(known: Target, c: Connection, recorded: bool)
    | Blocked(known: Target, c: Connection, recorded: bool)
    | Stopped

  datatype ServePc =
    | LoadTarget
    | FetchInfo(tgt: Option<Target>)
    | WriteTarget(known: Target)
    | ParsePort(known: Target)
    | LoadRows(known: Target)
    | InstructServe(known: Target, peers: seq<WireGuardPeer>)
    | Register
    | Blocked
    | Stopped

  /** What a client is told; the port is still the text that the target's row holds. */
  datatype ConnectServerRequest = ConnectServerRequest(
    serverPublicKey: string, clientPublicKey: string, clientIp: string, clientCidr: string,
    serverIp: string, serverPort: string, dnsIp: string)

  /** What a new server is told. */
  datatype ServeVPNRequest = ServeVPNRequest(
    serverPublicKey: string, serverInternalIp: string, serverInternalCidr: string, serverPublicVpnPort: string,
    peers: seq<WireGuardPeer>)

  datatype Handler =
    | Connecting(target: string, device: string, cpc: ConnectPc)
    | Serving(target: string, publicIp: string, spc: ServePc)

  datatype Sys = Sys(shared: Shared, handlers: map<Conn, Handler>)

  datatype Event =
    | Create(name: string, owner: string, fault: Fault)
    | Connect(h: Conn, target: string, device: string)
    | Serve(h: Conn, target: string, publicIp: string)
    | Answered(h: Conn, answer: Answer)

  // ---------- small pieces ----------

  /** What createTarget inserts. */
  function NewTarget(name: string, owner: string): Target {
    Target(name, owner, "10.8.0.1", "/23", "1.1.1.1", "", "", "", "10.8.0.1", "/23", "")
  }

  function TargetByName(s: Shared, name: string): Option<Target> {
    if name in s.targets then Some(s.targets[name]) else None
  }

  predicate TargetServerAlive(s: Shared, tgt: Option<Target>) {
    && tgt.Some?
    && tgt.value.serverPubkey != "" && tgt.value.serverPublicIp != "" && tgt.value.serverPublicVpnPort != ""
    && tgt.value.name in s.servers
  }

  function DeviceOf(s: Shared, conn: Conn): AllowedIps {
    if conn in s.devices then s.devices[conn] else map[]
  }

  function PeerOf(c: Connection): WireGuardPeer {
    WireGuardPeer(c.pubkey, c.clientIp)
  }

  function PeersOf(cs: seq<Connection>): seq<WireGuardPeer> {
    seq(|cs|, i requires 0 <= i < |cs| => PeerOf(cs[i]))
  }

  /** The instruction of a connect handler that knows this target and carries this row. */
  function ConnectRequest(known: Target, c: Connection): ConnectServerRequest {
    ConnectServerRequest(known.serverPubkey, c.pubkey, c.clientIp, c.clientCidr,
                         known.serverPublicIp, known.serverPublicVpnPort, known.dnsIp)
  }

  function ServeRequest(known: Target, peers: seq<WireGuardPeer>): ServeVPNRequest {
    ServeVPNRequest(known.serverPubkey, known.serverInternalIp, known.serverInternalCidr, known.serverPublicVpnPort,
                    peers)
  }

  /** A row was found: the source tests the id for the empty string. */
  predicate Found(a: Answer) {
    a.Row? && a.row.Some? && a.row.value.id != ""
  }

  predicate Errs(a: Answer) {
    a.Fails? || a.FailsLate?
  }

  // ---------- steps ----------

  /** One step of clientConnect or of the functions it calls. */
  function ConnectStep(s: Shared, h: Conn, target: string, device: string, pc: ConnectPc, a: Answer)
    : (Shared, ConnectPc)
  {
    match pc
    case LoadTarget =>
      if Errs(a) then (s, ConnectPc.Stopped) else (s, CheckAlive(TargetByName(s, target)))
    case CheckAlive(tgt) =>
      if TargetServerAlive(s, tgt) then (s, FetchKey(tgt.value)) else (s, ConnectPc.Stopped)
    case FetchKey(known) =>
      if a.Key? then (s, Lookup(known, a.key)) else (s, ConnectPc.Stopped)
    case Lookup(known, key) =>
      // a failed query is logged and then treated like an absent row
      if Found(a) then
        if a.row.value.pubkey != key then (s, Resync(known, a.row.value, key))
        else (s, ConnectPc.ParsePort(known, a.row.value, true))
      else (s, LoadNetwork(known, key))
    case Resync(known, c, key) =>
      var c' := c.(pubkey := key);
      if a.Fails? then (s, ConnectPc.Stopped)
      else
        var refused := c.id in s.rows && AddressHeldByOther(s.rows, c');
        (s.(rows := ConnectionUpdated(s.rows, c')),
         if a.FailsLate? || refused then ConnectPc.Stopped else FindServer(known, c', true))
    case LoadNetwork(known, key) =>
      if Errs(a) || target !in s.targets then (s, ConnectPc.Stopped)
      else (s, Scan(known, key, s.targets[target]))
    case Scan(known, key, net) =>
      if !a.Uuid? || NetworkOf(net).None? then (s, ConnectPc.Stopped)
      else
        var free := NextFree(NetworkOf(net).value, ClientIps(s.rows, target));
        if free.None? then (s, ConnectPc.Stopped)
        else (s, Recheck(known, Connection(a.id, target, device, key, free.value, net.networkCidr)))
    case Recheck(known, c) =>
      if !a.Row? then (s, ConnectPc.Stopped)
      else if Found(a) then (s, FindServer(known, c, false))  // early exit, keeping the new address
      else (s, Insert(known, c))
    case Insert(known, c) =>
      // whether a row was affected is ignored
      if a.Fails? then (s, ConnectPc.Stopped)
      else
        (s.(rows := ConnectionInserted(s.rows, c)),
         if a.FailsLate? then ConnectPc.Stopped else FindServer(known, c, Inserts(s.rows, c)))
    case FindServer(known, c, recorded) =>
      if target !in s.servers then (s, ConnectPc.Stopped)  // a nil connection is called
      else (s, Append(known, c, recorded, s.servers[target]))
    case Append(known, c, recorded, conn) =>
      // the error of the call is logged
      (if a.Fails? then s else s.(devices := s.devices[conn := Appended(DeviceOf(s, conn), [PeerOf(c)])]),
       ConnectPc.ParsePort(known, c, recorded))
    case ParsePort(known, c, recorded) =>
      if Errs(a) then (s, ConnectPc.Stopped) else (s, Instruct(known, c, recorded))
    case Instruct(known, c, recorded) => (s, Save(known, c, recorded))
    case Save(known, c, recorded) =>
      (s.(clients := AddClient(s.clients, target, h)), ConnectPc.Blocked(known, c, recorded))
    case Blocked(_, _, _) => (s, ConnectPc.Stopped)
    case Stopped => (s, pc)
  }

  /** One step of clientServe. */
  function ServeStep(s: Shared, h: Conn, target: string, publicIp: string, pc: ServePc, a: Answer)
    : (Shared, ServePc)
  {
    match pc
    case LoadTarget =>
      if Errs(a) then (s, ServePc.Stopped) else (s, FetchInfo(TargetByName(s, target)))
    case FetchInfo(tgt) =>
      // an absent target is logged and then dereferenced, which ends the handler
      if !a.Info? || tgt.None? then (s, ServePc.Stopped)
      else (s, WriteTarget(tgt.value.(serverPubkey := a.key, serverPublicIp := publicIp,
                                      serverPublicVpnPort := a.port)))
    case WriteTarget(known) =>
      // the error of the statement is ignored
      if a.Fails? then (s, ServePc.ParsePort(known))
      else (s.(targets := TargetUpdated(s.targets, target, known)), ServePc.ParsePort(known))
    case ParsePort(known) =>
      if Errs(a) then (s, ServePc.Stopped) else (s, LoadRows(known))
    case LoadRows(known) =>
      // a failed query is logged and leaves no peers
      (s, InstructServe(known, if a.Rows? then PeersOf(a.rows) else []))
    case InstructServe(_, peers) =>
      (if a.Fails? then s else s.(devices := s.devices[h := Served(peers)]), Register)
    case Register => (s.(servers := s.servers[target := h]), ServePc.Blocked)
    case Blocked => (s, ServePc.Stopped)
    case Stopped => (s, pc)
  }

  function HandlerStep(s: Shared, h: Conn, handler: Handler, a: Answer): (Shared, Handler) {
    match handler
    case Connecting(target, device, pc) =>
      var (s', pc') := ConnectStep(s, h, target, device, pc, a);
      (s', Connecting(target, device, pc'))
    case Serving(target, publicIp, pc) =>
      var (s', pc') := ServeStep(s, h, target, publicIp, pc, a);
      (s', Serving(target, publicIp, pc'))
  }

  /** Could the database and the random source give this answer to this handler now? */
  ghost predicate Possible(s: Shared, handler: Handler, a: Answer) {
    && (a.Uuid? ==> a.id != "")
    && (a.Row? && handler.Connecting? ==> Selects(s.rows, handler.target, handler.device, a.row))
    && (a.Rows? ==> Lists(s.rows, handler.target, a.rows))
  }

  ghost predicate Enabled(sys: Sys, ev: Event) {
    match ev
    case Create(_, _, _) => true
    case Connect(h, _, _) => h !in sys.handlers
    case Serve(h, _, _) => h !in sys.handlers
    case Answered(h, a) => h in sys.handlers && Possible(sys.shared, sys.handlers[h], a)
  }

  ghost function Step(sys: Sys, ev: Event): Sys {
    if !Enabled(sys, ev) then sys
    else
      match ev
      case Create(name, owner, fault) =>
        if fault.Refused? then sys
        else sys.(shared := sys.shared.(targets := TargetInserted(sys.shared.targets, NewTarget(name, owner))))
      case Connect(h, target, device) =>
        sys.(handlers := sys.handlers[h := Connecting(target, device, ConnectPc.LoadTarget)])
      case Serve(h, target, publicIp) =>
        sys.(handlers := sys.handlers[h := Serving(target, publicIp, ServePc.LoadTarget)])
      case Answered(h, a) =>
        var (s', handler') := HandlerStep(sys.shared, h, sys.handlers[h], a);
        Sys(s', sys.handlers[h := handler'])
  }

  ghost function Run(sys: Sys, events: seq<Event>): Sys {
    if events == [] then sys else Step(Run(sys, events[..|events| - 1]), events[|events| - 1])
  }

  /** A control plane that has just started on any set of targets and no connections. */
  predicate Initial(sys: Sys) {
    && sys.handlers == map[]
    && sys.shared.rows == map[] && sys.shared.servers == map[]
    && sys.shared.clients == map[] && sys.shared.devices == map[]
    && forall t :: t in sys.shared.targets ==> sys.shared.targets[t].name == t
  }
}
