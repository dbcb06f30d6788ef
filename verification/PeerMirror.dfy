/**
 The peer map of a serving daemon as a cache of the connections table.

 Under racing handlers the two may differ.  When handlers run one at a time until they block,
 every query and call succeeds, random ids are new, and the rows listed to a server have
 distinct keys, the registered server of every target maps exactly each row's address to that
 row's key.
 */
module PeerMirror {
  import opened Database
  import opened ConnectionManagement
  import opened Allocation
  import opened Peers
  import opened Protocol
  import opened ProtocolInvariant

  // ---------- mirroring ----------

  ghost predicate RowSays(rows: Connections, t: string, ip: string, key: string) {
    exists id :: id in Ids(rows, t) && rows[id].clientIp == ip && rows[id].pubkey == key
  }

  ghost predicate Mirrors(m: AllowedIps, rows: Connections, t: string) {
    forall ip, key :: Owns(m, ip, key) <==> RowSays(rows, t, ip, key)
  }

  ghost predicate MirrorsAt(m: AllowedIps, rows: Connections, t: string, ip: string) {
    forall key :: Owns(m, ip, key) <==> RowSays(rows, t, ip, key)
  }

  lemma ListedEntry(rows: Connections, t: string, list: seq<Connection>, ip: string, key: string)
    requires Lists(rows, t, list)
    ensures RowSays(rows, t, ip, key) <==> exists i :: IsEntry(PeersOf(list), i, ip, key)
  {
    if RowSays(rows, t, ip, key) {
      var id :| id in Ids(rows, t) && rows[id].clientIp == ip && rows[id].pubkey == key;
      assert rows[id] in list;
      var i :| 0 <= i < |list| && list[i] == rows[id];
      assert IsEntry(PeersOf(list), i, ip, key);
    }
    if i :| IsEntry(PeersOf(list), i, ip, key) {
      assert list[i].id in Ids(rows, t);
    }
  }

  lemma ListedIpsDistinct(rows: Connections, t: string, list: seq<Connection>)
    requires Lists(rows, t, list) && AddressesUnique(rows)
    ensures DistinctIps(PeersOf(list))
  {
    forall i, j | 0 <= i < j < |list|
      ensures list[i].clientIp != list[j].clientIp
    {
      assert list[i].id in Ids(rows, t) && list[j].id in Ids(rows, t);
    }
  }

  /** Serving rebuilds the mirror from a listing exactly when the listed keys are distinct. */
  lemma ServedMirrors(rows: Connections, t: string, list: seq<Connection>)
    requires Lists(rows, t, list) && AddressesUnique(rows)
    ensures Mirrors(Served(PeersOf(list)), rows, t) <==> DistinctKeys(PeersOf(list))
  {
    var peers := PeersOf(list);
    ListedIpsDistinct(rows, t, list);
    if DistinctKeys(peers) {
      forall ip, key
        ensures Owns(Served(peers), ip, key) <==> RowSays(rows, t, ip, key)
      {
        ServedMeaning(peers, ip, key);
        ListedEntry(rows, t, list, ip, key);
        forall i | 0 <= i < |peers|
          ensures LastWithIp(peers, i) && (IsEntry(peers, i, ip, key) ==> LastWord(peers, i, ip, key))
        {
        }
      }
    } else {
      var i, j :| 0 <= i < j < |peers| && peers[i].publicKey == peers[j].publicKey;
      var ip, key := peers[i].allowedIp, peers[i].publicKey;
      assert IsEntry(peers, i, ip, key);
      ListedEntry(rows, t, list, ip, key);
      ServedMeaning(peers, ip, key);
      assert forall k :: IsEntry(peers, k, ip, key) ==> k == i;
    }
  }

  lemma AppendOne(m: AllowedIps, c: Connection)
    ensures Appended(m, [PeerOf(c)]) == m[c.clientIp := c.pubkey]
  {
    var configs := Configs([PeerOf(c)], false);
    assert configs == [PeerConfig(c.pubkey, c.clientIp, false)];
    assert configs[..0] == [];
    assert ApplyAll(m, configs[..0]) == m;
  }

  // ---------- runs with one handler at a time ----------

  predicate Idle(handler: Handler) {
    match handler
    case Connecting(_, _, pc) => pc.Blocked? || pc.Stopped?
    case Serving(_, _, pc) => pc.Blocked? || pc.Stopped?
  }

  /** The answers of a database, a network and a random source that work. */
  ghost predicate Succeeds(s: Shared, handler: Handler, a: Answer) {
    && !Errs(a)
    && (a.Uuid? ==> a.id !in s.rows)
    && (handler.Connecting? && (handler.cpc.Lookup? || handler.cpc.Recheck?) ==> a.Row?)
    && (handler.Serving? && handler.spc.LoadRows? ==> a.Rows? && DistinctKeys(PeersOf(a.rows)))
  }

  ghost predicate InTurn(sys: Sys, ev: Event) {
    match ev
    case Create(_, _, _) => true
    case Connect(_, _, _) => forall h :: h in sys.handlers ==> Idle(sys.handlers[h])
    case Serve(_, _, _) => forall h :: h in sys.handlers ==> Idle(sys.handlers[h])
    case Answered(h, a) => h in sys.handlers && Succeeds(sys.shared, sys.handlers[h], a)
  }

  /** A run in which an event out of turn does nothing. */
  ghost function OrderlyRun(sys: Sys, events: seq<Event>): Sys {
    if events == [] then sys
    else
      var before := OrderlyRun(sys, events[..|events| - 1]);
      var ev := events[|events| - 1];
      if InTurn(before, ev) then Step(before, ev) else before
  }

  // ---------- the invariant ----------

  /** Has the handler a peer that it has yet to tell the server? */
  predicate ToTell(handler: Handler) {
    handler.Connecting? && (handler.cpc.FindServer? || handler.cpc.Append?)
  }

  /** The address that the active handler has yet to tell the server. */
  predicate Untold(handlers: map<Conn, Handler>, t: string, ip: string) {
    exists h :: h in handlers && ToTell(handlers[h]) && handlers[h].target == t && handlers[h].cpc.c.clientIp == ip
  }

  predicate OneActive(handlers: map<Conn, Handler>) {
    forall g, h :: g in handlers && h in handlers && !Idle(handlers[g]) && !Idle(handlers[h]) ==> g == h
  }

  /** A registered session belongs to a handler that served this very target and is done. */
  predicate SessionsOk(sys: Sys) {
    forall t :: t in sys.shared.servers ==>
      var h := sys.shared.servers[t];
      h in sys.handlers && sys.handlers[h].Serving? && sys.handlers[h].target == t && Idle(sys.handlers[h])
  }

  /** What the only active handler knows because nobody else moves. */
  ghost predicate AloneOk(s: Shared, h: Conn, handler: Handler) {
    match handler
    case Connecting(target, device, pc) =>
      (match pc
       case LoadNetwork(_, _) => !HasDevice(s.rows, target, device)
       case Scan(_, _, _) => !HasDevice(s.rows, target, device)
       case Recheck(_, c) =>
         !HasDevice(s.rows, target, device) && c.clientIp !in ClientIps(s.rows, target) && c.id !in s.rows
       case Insert(_, c) => c.clientIp !in ClientIps(s.rows, target) && c.id !in s.rows
       case FindServer(_, c, _) => c.id in s.rows && s.rows[c.id] == c
       case Append(_, c, _, conn) =>
         c.id in s.rows && s.rows[c.id] == c && target in s.servers && s.servers[target] == conn
       case _ => true)
    case Serving(target, _, pc) =>
      (match pc
       case InstructServe(_, peers) => Mirrors(Served(peers), s.rows, target)
       case Register => Mirrors(DeviceOf(s, h), s.rows, target)
       case _ => true)
  }

  ghost predicate ServersMirror(sys: Sys) {
    forall t, ip :: t in sys.shared.servers && !Untold(sys.handlers, t, ip) ==>
      MirrorsAt(DeviceOf(sys.shared, sys.shared.servers[t]), sys.shared.rows, t, ip)
  }

  ghost predicate OrderlyInv(sys: Sys) {
    && Inv(sys)
    && OneActive(sys.handlers)
    && SessionsOk(sys)
    && (forall h :: h in sys.handlers ==> AloneOk(sys.shared, h, sys.handlers[h]))
    && ServersMirror(sys)
  }

  // ---------- one step ----------

  /** Changing what the handler in turn does leaves nothing untold but, perhaps, its own address. */
  lemma OnlyActiveUntold(handlers: map<Conn, Handler>, h: Conn, t: string, ip: string)
    requires OneActive(handlers) && h in handlers && !Idle(handlers[h])
    requires Untold(handlers, t, ip)
    ensures ToTell(handlers[h]) && handlers[h].target == t && handlers[h].cpc.c.clientIp == ip
  {
  }

  /** What is untold only grows when a handler that has nothing to tell, or only finds the server, moves. */
  lemma SameMapsMirror(sys: Sys, sys': Sys, h: Conn)
    requires ServersMirror(sys) && OneActive(sys.handlers)
    requires h in sys.handlers && !Idle(sys.handlers[h])
    requires ToTell(sys.handlers[h]) ==>
      && h in sys'.handlers && ToTell(sys'.handlers[h]) && sys'.handlers[h].target == sys.handlers[h].target
      && sys'.handlers[h].cpc.c == sys.handlers[h].cpc.c
    requires sys'.shared.rows == sys.shared.rows && sys'.shared.servers == sys.shared.servers
    requires sys'.shared.devices == sys.shared.devices
    ensures ServersMirror(sys')
  {
    forall t, ip | t in sys'.shared.servers && !Untold(sys'.handlers, t, ip)
      ensures MirrorsAt(DeviceOf(sys'.shared, sys'.shared.servers[t]), sys'.shared.rows, t, ip)
    {
      if Untold(sys.handlers, t, ip) {
        OnlyActiveUntold(sys.handlers, h, t, ip);
        assert false;
      }
      assert MirrorsAt(DeviceOf(sys.shared, sys.shared.servers[t]), sys.shared.rows, t, ip);
    }
  }

  /** A step that touches neither rows nor maps nor registrations. */
  predicate Quiet(handler: Handler) {
    match handler
    case Connecting(_, _, pc) => !pc.Resync? && !pc.Insert? && !pc.Append?
    case Serving(_, _, pc) => !pc.InstructServe? && !pc.Register?
  }

  lemma QuietShares(s: Shared, h: Conn, handler: Handler, a: Answer)
    requires Quiet(handler)
    ensures var s' := HandlerStep(s, h, handler, a).0;
            s'.rows == s.rows && s'.servers == s.servers && s'.devices == s.devices
  {
  }

  /** Writing one row, of this target and at this address, changes what rows say only there. */
  lemma WriteSaysElsewhere(rows: Connections, c: Connection, t: string, ip: string)
    requires Keyed(rows)
    requires c.id in rows ==> rows[c.id].target == c.target && rows[c.id].clientIp == c.clientIp
    requires t != c.target || ip != c.clientIp
    ensures forall key :: RowSays(rows[c.id := c], t, ip, key) <==> RowSays(rows, t, ip, key)
  {
    var rows' := rows[c.id := c];
    forall key
      ensures RowSays(rows', t, ip, key) <==> RowSays(rows, t, ip, key)
    {
      if RowSays(rows', t, ip, key) {
        var id :| id in Ids(rows', t) && rows'[id].clientIp == ip && rows'[id].pubkey == key;
        assert id in Ids(rows, t) && rows[id] == rows'[id];
      }
      if RowSays(rows, t, ip, key) {
        var id :| id in Ids(rows, t) && rows[id].clientIp == ip && rows[id].pubkey == key;
        assert id in Ids(rows', t) && rows[id] == rows'[id];
      }
    }
  }

  /** The row that a write step stores. */
  function RowWritten(pc: ConnectPc): Connection
    requires pc.Resync? || pc.Insert?
  {
    if pc.Resync? then pc.c.(pubkey := pc.key) else pc.c
  }

  /** Alone, a write always lands: the address is free, or is that of the row being re-synced. */
  lemma WriteLands(s: Shared, h: Conn, target: string, device: string, pc: ConnectPc, a: Answer)
    requires TablesOk(s) && ConnectOk(s, target, device, pc) && !Errs(a)
    requires pc.Resync? || (pc.Insert? && AloneOk(s, h, Connecting(target, device, pc)))
    ensures var (s', pc'), c := ConnectStep(s, h, target, device, pc, a), RowWritten(pc);
            && s' == s.(rows := s.rows[c.id := c]) && pc'.FindServer? && pc'.c == c
            && c.target == target
            && (c.id in s.rows ==> s.rows[c.id].target == target && s.rows[c.id].clientIp == c.clientIp)
  {
    if pc.Resync? {
      ResyncGuarantee(s, pc.c, pc.key);
    } else {
      forall id | id in s.rows && s.rows[id].target == target
        ensures s.rows[id].clientIp != pc.c.clientIp
      {
        assert id in Ids(s.rows, target);
      }
    }
  }

  /** Inserting or re-syncing a row leaves only that row's address to be told. */
  lemma WriteStepMirrors(sys: Sys, h: Conn, a: Answer)
    requires OrderlyInv(sys) && h in sys.handlers && sys.handlers[h].Connecting?
    requires sys.handlers[h].cpc.Resync? || sys.handlers[h].cpc.Insert?
    requires Possible(sys.shared, sys.handlers[h], a) && Succeeds(sys.shared, sys.handlers[h], a)
    ensures var sys' := Step(sys, Answered(h, a));
            ServersMirror(sys') && AloneOk(sys'.shared, h, sys'.handlers[h])
  {
    var s, sys', handler := sys.shared, Step(sys, Answered(h, a)), sys.handlers[h];
    assert HandlerOk(s, handler) && AloneOk(s, h, handler);
    var c := RowWritten(handler.cpc);
    WriteLands(s, h, handler.target, handler.device, handler.cpc, a);
    assert sys'.handlers[h].Connecting? && sys'.handlers[h].cpc.FindServer? && sys'.handlers[h].cpc.c == c;
    StoringMirrors(sys, sys', h, c);
  }

  lemma StoringMirrors(sys: Sys, sys': Sys, h: Conn, c: Connection)
    requires ServersMirror(sys) && OneActive(sys.handlers) && Keyed(sys.shared.rows)
    requires h in sys.handlers && !Idle(sys.handlers[h]) && !ToTell(sys.handlers[h])
    requires sys'.shared == sys.shared.(rows := sys.shared.rows[c.id := c])
    requires c.id in sys.shared.rows ==>
      sys.shared.rows[c.id].target == c.target && sys.shared.rows[c.id].clientIp == c.clientIp
    requires Untold(sys'.handlers, c.target, c.clientIp)
    ensures ServersMirror(sys')
  {
    var s := sys.shared;
    forall t, ip | t in sys'.shared.servers && !Untold(sys'.handlers, t, ip)
      ensures MirrorsAt(DeviceOf(sys'.shared, sys'.shared.servers[t]), sys'.shared.rows, t, ip)
    {
      assert t != c.target || ip != c.clientIp;
      WriteSaysElsewhere(s.rows, c, t, ip);
      if Untold(sys.handlers, t, ip) {
        OnlyActiveUntold(sys.handlers, h, t, ip);
        assert false;
      }
      assert MirrorsAt(DeviceOf(s, s.servers[t]), s.rows, t, ip);
    }
  }

  lemma StoredRowSays(rows: Connections, c: Connection)
    requires c.id in rows && rows[c.id] == c && AddressesUnique(rows) && Keyed(rows)
    ensures forall key :: RowSays(rows, c.target, c.clientIp, key) <==> key == c.pubkey
  {
    assert c.id in Ids(rows, c.target);
    forall key
      ensures RowSays(rows, c.target, c.clientIp, key) <==> key == c.pubkey
    {
      if RowSays(rows, c.target, c.clientIp, key) {
        var id :| id in Ids(rows, c.target) && rows[id].clientIp == c.clientIp && rows[id].pubkey == key;
        assert id == c.id;
      }
    }
  }

  /** Telling the server makes its map mirror the row. */
  lemma AppendStepMirrors(sys: Sys, h: Conn, a: Answer)
    requires OrderlyInv(sys) && h in sys.handlers && sys.handlers[h].Connecting? && sys.handlers[h].cpc.Append?
    requires Possible(sys.shared, sys.handlers[h], a) && Succeeds(sys.shared, sys.handlers[h], a)
    ensures ServersMirror(Step(sys, Answered(h, a)))
  {
    var s, sys', handler := sys.shared, Step(sys, Answered(h, a)), sys.handlers[h];
    assert HandlerOk(s, handler) && AloneOk(s, h, handler);
    var c, conn := handler.cpc.c, handler.cpc.conn;
    AppendOne(DeviceOf(s, conn), c);
    StoredRowSays(s.rows, c);
    forall t, ip | t in sys'.shared.servers && !Untold(sys'.handlers, t, ip)
      ensures MirrorsAt(DeviceOf(sys'.shared, sys'.shared.servers[t]), sys'.shared.rows, t, ip)
    {
      if t != handler.target || ip != c.clientIp {
        if Untold(sys.handlers, t, ip) {
          OnlyActiveUntold(sys.handlers, h, t, ip);
          assert false;
        }
        AppendElsewhere(sys, h, t, ip);
      }
    }
  }

  lemma AppendElsewhere(sys: Sys, h: Conn, t: string, ip: string)
    requires ServersMirror(sys) && SessionsOk(sys)
    requires h in sys.handlers && sys.handlers[h].Connecting? && sys.handlers[h].cpc.Append?
    requires sys.handlers[h].target in sys.shared.servers && t in sys.shared.servers
    requires !Untold(sys.handlers, t, ip)
    requires t != sys.handlers[h].target || ip != sys.handlers[h].cpc.c.clientIp
    ensures var s, c := sys.shared, sys.handlers[h].cpc.c;
            var conn := s.servers[sys.handlers[h].target];
            var s' := s.(devices := s.devices[conn := DeviceOf(s, conn)[c.clientIp := c.pubkey]]);
            MirrorsAt(DeviceOf(s', s.servers[t]), s.rows, t, ip)
  {
    assert MirrorsAt(DeviceOf(sys.shared, sys.shared.servers[t]), sys.shared.rows, t, ip);
    assert t != sys.handlers[h].target ==> sys.shared.servers[t] != sys.shared.servers[sys.handlers[h].target];
  }

  /** Configuring the new server touches no registered one; registering it keeps the mirror. */
  lemma ServeStepMirrors(sys: Sys, h: Conn, a: Answer)
    requires OrderlyInv(sys) && h in sys.handlers && sys.handlers[h].Serving?
    requires sys.handlers[h].spc.InstructServe? || sys.handlers[h].spc.Register?
    requires Possible(sys.shared, sys.handlers[h], a) && Succeeds(sys.shared, sys.handlers[h], a)
    ensures ServersMirror(Step(sys, Answered(h, a)))
  {
    var s, sys', handler := sys.shared, Step(sys, Answered(h, a)), sys.handlers[h];
    assert AloneOk(s, h, handler);
    forall t, ip | t in sys'.shared.servers && !Untold(sys'.handlers, t, ip)
      ensures MirrorsAt(DeviceOf(sys'.shared, sys'.shared.servers[t]), sys'.shared.rows, t, ip)
    {
      if t == handler.target && handler.spc.Register? {
        assert Mirrors(DeviceOf(s, h), s.rows, t);
      } else {
        if Untold(sys.handlers, t, ip) {
          OnlyActiveUntold(sys.handlers, h, t, ip);
          assert false;
        }
        assert MirrorsAt(DeviceOf(s, s.servers[t]), s.rows, t, ip);
        assert s.servers[t] != h;
      }
    }
  }

  lemma StepMirrors(sys: Sys, h: Conn, a: Answer)
    requires OrderlyInv(sys) && h in sys.handlers && !Idle(sys.handlers[h])
    requires Possible(sys.shared, sys.handlers[h], a) && Succeeds(sys.shared, sys.handlers[h], a)
    ensures ServersMirror(Step(sys, Answered(h, a)))
  {
    match sys.handlers[h]
    case Connecting(_, _, pc) =>
      if pc.Resync? || pc.Insert? {
        WriteStepMirrors(sys, h, a);
      } else if pc.Append? {
        AppendStepMirrors(sys, h, a);
      } else {
        QuietShares(sys.shared, h, sys.handlers[h], a);
        SameMapsMirror(sys, Step(sys, Answered(h, a)), h);
      }
    case Serving(_, _, pc) =>
      if pc.InstructServe? || pc.Register? {
        ServeStepMirrors(sys, h, a);
      } else {
        QuietShares(sys.shared, h, sys.handlers[h], a);
        SameMapsMirror(sys, Step(sys, Answered(h, a)), h);
      }
  }

  /** The scan's pick is free, and the random id is new. */
  lemma ScanAlone(s: Shared, h: Conn, target: string, device: string, pc: ConnectPc, a: Answer)
    requires TablesOk(s) && ConnectOk(s, target, device, pc) && pc.Scan?
    requires AloneOk(s, h, Connecting(target, device, pc)) && !Errs(a) && (a.Uuid? ==> a.id !in s.rows)
    ensures AloneOk(s, h, Connecting(target, device, ConnectStep(s, h, target, device, pc, a).1))
  {
    assert Dense(s, target);
    assert NetworkOf(pc.net) == NetworkOf(s.targets[target]);
    if NetworkOf(pc.net).Some? {
      ScanOfDense(s, target);
    }
  }

  lemma RecheckAlone(s: Shared, h: Conn, target: string, device: string, pc: ConnectPc, a: Answer)
    requires TablesOk(s) && pc.Recheck? && AloneOk(s, h, Connecting(target, device, pc))
    requires a.Row? && Selects(s.rows, target, device, a.row)
    ensures AloneOk(s, h, Connecting(target, device, ConnectStep(s, h, target, device, pc, a).1))
  {
  }

  lemma ConnectAlone(s: Shared, h: Conn, target: string, device: string, pc: ConnectPc, a: Answer)
    requires TablesOk(s) && ConnectOk(s, target, device, pc) && !pc.Resync? && !pc.Insert?
    requires AloneOk(s, h, Connecting(target, device, pc))
    requires Possible(s, Connecting(target, device, pc), a) && Succeeds(s, Connecting(target, device, pc), a)
    ensures var (s', pc') := ConnectStep(s, h, target, device, pc, a);
            AloneOk(s', h, Connecting(target, device, pc'))
  {
    if pc.Scan? {
      ScanAlone(s, h, target, device, pc, a);
    } else if pc.Recheck? {
      RecheckAlone(s, h, target, device, pc, a);
    }
  }

  lemma ServeAlone(s: Shared, h: Conn, target: string, publicIp: string, pc: ServePc, a: Answer)
    requires TablesOk(s) && AloneOk(s, h, Serving(target, publicIp, pc))
    requires Possible(s, Serving(target, publicIp, pc), a) && Succeeds(s, Serving(target, publicIp, pc), a)
    ensures var (s', pc') := ServeStep(s, h, target, publicIp, pc, a);
            AloneOk(s', h, Serving(target, publicIp, pc'))
  {
    if pc.LoadRows? {
      ServedMirrors(s.rows, target, a.rows);
    }
  }

  lemma StepAlone(sys: Sys, h: Conn, a: Answer)
    requires OrderlyInv(sys) && h in sys.handlers && !Idle(sys.handlers[h])
    requires Possible(sys.shared, sys.handlers[h], a) && Succeeds(sys.shared, sys.handlers[h], a)
    ensures var sys' := Step(sys, Answered(h, a)); AloneOk(sys'.shared, h, sys'.handlers[h])
  {
    var s, handler := sys.shared, sys.handlers[h];
    assert AloneOk(s, h, handler) && HandlerOk(s, handler);
    match handler
    case Connecting(target, device, pc) =>
      if pc.Resync? || pc.Insert? {
        WriteStepMirrors(sys, h, a);
      } else {
        ConnectAlone(s, h, target, device, pc, a);
      }
    case Serving(target, publicIp, pc) => ServeAlone(s, h, target, publicIp, pc, a);
  }

  lemma StaysUntold(sys: Sys, ev: Event, t: string, ip: string)
    requires Untold(sys.handlers, t, ip) && Enabled(sys, ev)
    requires ev.Answered? ==> Idle(sys.handlers[ev.h])
    ensures Untold(Step(sys, ev).handlers, t, ip)
  {
    var g :| g in sys.handlers && ToTell(sys.handlers[g]) && sys.handlers[g].target == t
      && sys.handlers[g].cpc.c.clientIp == ip;
    assert Step(sys, ev).handlers[g] == sys.handlers[g];
  }

  /** A step of no active handler leaves what the mirror is about alone. */
  lemma BystanderQuiet(sys: Sys, ev: Event)
    requires InTurn(sys, ev) && Enabled(sys, ev) && (ev.Answered? ==> Idle(sys.handlers[ev.h]))
    ensures var s, s' := sys.shared, Step(sys, ev).shared;
            s'.rows == s.rows && s'.servers == s.servers && s'.devices == s.devices
  {
    if ev.Answered? {
      QuietShares(sys.shared, ev.h, sys.handlers[ev.h], ev.answer);
    }
  }

  lemma BystanderStep(sys: Sys, ev: Event)
    requires OrderlyInv(sys) && InTurn(sys, ev) && Enabled(sys, ev)
    requires ev.Answered? ==> Idle(sys.handlers[ev.h])
    ensures ServersMirror(Step(sys, ev))
  {
    var sys' := Step(sys, ev);
    BystanderQuiet(sys, ev);
    forall t, ip | t in sys'.shared.servers && !Untold(sys'.handlers, t, ip)
      ensures MirrorsAt(DeviceOf(sys'.shared, sys'.shared.servers[t]), sys'.shared.rows, t, ip)
    {
      if Untold(sys.handlers, t, ip) {
        StaysUntold(sys, ev, t, ip);
        assert false;
      }
      assert MirrorsAt(DeviceOf(sys.shared, sys.shared.servers[t]), sys.shared.rows, t, ip);
    }
  }

  lemma ConnectKeepsServers(s: Shared, h: Conn, target: string, device: string, pc: ConnectPc, a: Answer)
    ensures var (s', pc') := ConnectStep(s, h, target, device, pc, a);
            s'.servers == s.servers && (pc.Blocked? || pc.Stopped? ==> pc'.Stopped?)
  {
  }

  /** A step keeps what a handler is, and only registering changes the servers. */
  lemma StepKind(s: Shared, h: Conn, handler: Handler, a: Answer)
    ensures var (s', handler') := HandlerStep(s, h, handler, a);
            && handler'.Serving? == handler.Serving? && handler'.target == handler.target
            && (Idle(handler) ==> Idle(handler'))
            && (s'.servers == s.servers
                || (handler.Serving? && Idle(handler') && s'.servers == s.servers[handler.target := h]))
  {
    if handler.Connecting? {
      ConnectKeepsServers(s, h, handler.target, handler.device, handler.cpc, a);
    }
  }

  lemma StepSessions(sys: Sys, ev: Event)
    requires OneActive(sys.handlers) && SessionsOk(sys) && InTurn(sys, ev) && Enabled(sys, ev)
    ensures OneActive(Step(sys, ev).handlers) && SessionsOk(Step(sys, ev))
  {
    if ev.Answered? {
      StepKind(sys.shared, ev.h, sys.handlers[ev.h], ev.answer);
      MovedSessions(sys, ev.h, HandlerStep(sys.shared, ev.h, sys.handlers[ev.h], ev.answer));
    }
  }

  lemma MovedSessions(sys: Sys, h: Conn, moved: (Shared, Handler))
    requires OneActive(sys.handlers) && SessionsOk(sys) && h in sys.handlers
    requires var handler, s', handler' := sys.handlers[h], moved.0, moved.1;
             && handler'.Serving? == handler.Serving? && handler'.target == handler.target
             && (Idle(handler) ==> Idle(handler'))
             && (s'.servers == sys.shared.servers
                 || (handler.Serving? && Idle(handler') && s'.servers == sys.shared.servers[handler.target := h]))
    ensures var sys' := Sys(moved.0, sys.handlers[h := moved.1]);
            OneActive(sys'.handlers) && SessionsOk(sys')
  {
  }

  /** A handler that does not move is idle, or nothing it relies on moves. */
  lemma BystandersStayAlone(sys: Sys, ev: Event, h: Conn)
    requires OneActive(sys.handlers) && InTurn(sys, ev) && Enabled(sys, ev)
    requires h in sys.handlers && AloneOk(sys.shared, h, sys.handlers[h])
    requires ev.Answered? ==> ev.h != h || Idle(sys.handlers[h])
    ensures AloneOk(Step(sys, ev).shared, h, Step(sys, ev).handlers[h])
  {
    if ev.Answered? && ev.h == h {
      StepKind(sys.shared, h, sys.handlers[h], ev.answer);
      IdleIsAlone(Step(sys, ev).shared, h, Step(sys, ev).handlers[h]);
    } else if ev.Answered? && !Idle(sys.handlers[ev.h]) {
      IdleIsAlone(Step(sys, ev).shared, h, sys.handlers[h]);
    } else {
      BystanderQuiet(sys, ev);
      QuietAlone(sys.shared, Step(sys, ev).shared, h, sys.handlers[h]);
    }
  }

  /** A handler that is done relies on nothing. */
  lemma IdleIsAlone(s: Shared, h: Conn, handler: Handler)
    requires Idle(handler)
    ensures AloneOk(s, h, handler)
  {
  }

  lemma QuietAlone(s: Shared, s': Shared, h: Conn, handler: Handler)
    requires s'.rows == s.rows && s'.servers == s.servers && s'.devices == s.devices && AloneOk(s, h, handler)
    ensures AloneOk(s', h, handler)
  {
  }

  lemma EveryoneAlone(sys: Sys, ev: Event)
    requires OrderlyInv(sys) && InTurn(sys, ev) && Enabled(sys, ev)
    ensures var sys' := Step(sys, ev);
            forall h :: h in sys'.handlers ==> AloneOk(sys'.shared, h, sys'.handlers[h])
  {
    var sys' := Step(sys, ev);
    forall h | h in sys'.handlers
      ensures AloneOk(sys'.shared, h, sys'.handlers[h])
    {
      if ev.Answered? && ev.h == h && !Idle(sys.handlers[h]) {
        StepAlone(sys, h, ev.answer);
      } else if h in sys.handlers {
        assert AloneOk(sys.shared, h, sys.handlers[h]);
        BystandersStayAlone(sys, ev, h);
      }
    }
  }

  lemma OrderlyStep(sys: Sys, ev: Event)
    requires OrderlyInv(sys) && InTurn(sys, ev) && Enabled(sys, ev)
    ensures OrderlyInv(Step(sys, ev))
  {
    StepInv(sys, ev);
    StepSessions(sys, ev);
    EveryoneAlone(sys, ev);
    if ev.Answered? && !Idle(sys.handlers[ev.h]) {
      StepMirrors(sys, ev.h, ev.answer);
    } else {
      BystanderStep(sys, ev);
    }
  }

  lemma {:induction false} OrderlyRunInv(sys: Sys, events: seq<Event>)
    requires Starts(sys)
    ensures OrderlyInv(OrderlyRun(sys, events))
    decreases |events|
  {
    if events == [] {
      StartsInv(sys);
    } else {
      var before, ev := OrderlyRun(sys, events[..|events| - 1]), events[|events| - 1];
      OrderlyRunInv(sys, events[..|events| - 1]);
      if InTurn(before, ev) && Enabled(before, ev) {
        OrderlyStep(before, ev);
      }
    }
  }

  /**
   After any sequence of serves, new connects, reconnects and key re-syncs, one at a time:
   once the handler in turn has blocked, every registered server maps exactly each row's
   address to that row's key.
   */
  lemma RegisteredServersMirrorTheTable(sys: Sys, events: seq<Event>, t: string)
    requires Starts(sys)
    requires var now := OrderlyRun(sys, events);
             t in now.shared.servers && forall h :: h in now.handlers ==> Idle(now.handlers[h])
    ensures var now := OrderlyRun(sys, events);
            Mirrors(DeviceOf(now.shared, now.shared.servers[t]), now.shared.rows, t)
  {
    OrderlyRunInv(sys, events);
    IdleMirrors(OrderlyRun(sys, events), t);
  }

  lemma IdleMirrors(now: Sys, t: string)
    requires ServersMirror(now) && t in now.shared.servers
    requires forall h :: h in now.handlers ==> Idle(now.handlers[h])
    ensures Mirrors(DeviceOf(now.shared, now.shared.servers[t]), now.shared.rows, t)
  {
    var m := DeviceOf(now.shared, now.shared.servers[t]);
    forall ip, key
      ensures Owns(m, ip, key) <==> RowSays(now.shared.rows, t, ip, key)
    {
      assert !Untold(now.handlers, t, ip);
      assert MirrorsAt(m, now.shared.rows, t, ip);
    }
  }
}
