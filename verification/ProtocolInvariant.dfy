/**
 What every step of every handler keeps.

 The proof is by rely and guarantee.  `Steps` says what any one step may do to the shared
 state: fixed columns stay, servers stay registered, and at most one row appears, at the
 address the scan would find now, for a device that has none.  Each handler's step is shown
 to do no more (StepGuarantee), the tables survive any such change (StepsKeepTables), and so
 does what every other handler relies on (StepsKeepHandler).
 */
module ProtocolInvariant {
  import opened Wrappers
  import opened Ipv4
  import opened Database
  import opened ConnectionManagement
  import opened Allocation
  import opened Protocol

  // ---------- columns that never change ----------

  /** Every column but the three that serving rewrites. */
  predicate SameTarget(a: Target, b: Target) {
    b == a.(serverPubkey := b.serverPubkey, serverPublicIp := b.serverPublicIp,
            serverPublicVpnPort := b.serverPublicVpnPort)
  }

  /** Every column but the public key. */
  predicate SameRow(a: Connection, b: Connection) {
    b == a.(pubkey := b.pubkey)
  }

  // ---------- the tables ----------

  predicate DevicesUnique(rows: Connections) {
    forall i, j :: i in rows && j in rows && rows[i].target == rows[j].target && rows[i].deviceId == rows[j].deviceId
      ==> i == j
  }

  /** A target with n rows holds exactly the first n addresses of its network. */
  ghost predicate Dense(s: Shared, t: string) {
    if t in s.targets && NetworkOf(s.targets[t]).Some? then
      var p := NetworkOf(s.targets[t]).value;
      var n := |Ids(s.rows, t)|;
      n <= Capacity(p) && ClientIps(s.rows, t) == FirstTexts(p, n)
    else
      Ids(s.rows, t) == {}
  }

  ghost predicate TablesOk(s: Shared) {
    && Keyed(s.rows) && "" !in s.rows
    && (forall t :: t in s.targets ==> s.targets[t].name == t)
    && AddressesUnique(s.rows)
    && DevicesUnique(s.rows)
    && (forall t :: Dense(s, t))
  }

  // ---------- the handlers ----------

  /** A snapshot of a target that differs from its row only in what serving rewrites. */
  predicate Knows(s: Shared, target: string, known: Target) {
    target in s.targets && SameTarget(s.targets[target], known)
  }

  /** A pending pick: the address is already taken, or it is the one the scan finds now. */
  ghost predicate PickOk(s: Shared, target: string, ip: string) {
    && target in s.targets && NetworkOf(s.targets[target]).Some?
    && (|| ip in ClientIps(s.rows, target)
        || NextFree(NetworkOf(s.targets[target]).value, ClientIps(s.rows, target)) == Some(ip))
  }

  predicate HoldsRow(s: Shared, c: Connection) {
    c.id in s.rows && SameRow(s.rows[c.id], c)
  }

  /** The row a handler carries is for its target and device; if recorded, it is in the table. */
  predicate Carries(s: Shared, target: string, device: string, c: Connection, recorded: bool) {
    c.target == target && c.deviceId == device && (recorded ==> HoldsRow(s, c))
  }

  ghost predicate ConnectOk(s: Shared, target: string, device: string, pc: ConnectPc) {
    match pc
    case LoadTarget => true
    case CheckAlive(tgt) => tgt.Some? ==> Knows(s, target, tgt.value)
    case FetchKey(known) => Knows(s, target, known) && target in s.servers
    case Lookup(known, _) => Knows(s, target, known) && target in s.servers
    case Resync(known, c, _) =>
      Knows(s, target, known) && target in s.servers && Carries(s, target, device, c, true)
    case LoadNetwork(known, _) => Knows(s, target, known) && target in s.servers
    case Scan(known, _, net) => Knows(s, target, known) && target in s.servers && Knows(s, target, net)
    case Recheck(known, c) =>
      && Knows(s, target, known) && target in s.servers
      && c.target == target && c.deviceId == device && c.id != ""
      && PickOk(s, target, c.clientIp)
    case Insert(known, c) =>
      && Knows(s, target, known) && target in s.servers
      && c.target == target && c.deviceId == device && c.id != ""
      && PickOk(s, target, c.clientIp)
      && (c.clientIp in ClientIps(s.rows, target) || !HasDevice(s.rows, target, device))
    case FindServer(known, c, recorded) =>
      && Knows(s, target, known) && target in s.servers
      && Carries(s, target, device, c, recorded)
    case Append(known, c, recorded, _) =>
      Knows(s, target, known) && Carries(s, target, device, c, recorded)
    case ParsePort(known, c, recorded) =>
      Knows(s, target, known) && Carries(s, target, device, c, recorded)
    case Instruct(known, c, recorded) =>
      Knows(s, target, known) && Carries(s, target, device, c, recorded)
    case Save(known, c, recorded) =>
      Knows(s, target, known) && Carries(s, target, device, c, recorded)
    case Blocked(known, c, recorded) =>
      Knows(s, target, known) && Carries(s, target, device, c, recorded)
    case Stopped => true
  }

  ghost predicate ServeOk(s: Shared, target: string, pc: ServePc) {
    match pc
    case FetchInfo(tgt) => tgt.Some? ==> Knows(s, target, tgt.value)
    case WriteTarget(known) => Knows(s, target, known)
    case ParsePort(known) => Knows(s, target, known)
    case LoadRows(known) => Knows(s, target, known)
    case InstructServe(known, _) => Knows(s, target, known)
    case _ => true
  }

  ghost predicate HandlerOk(s: Shared, handler: Handler) {
    match handler
    case Connecting(target, device, pc) => ConnectOk(s, target, device, pc)
    case Serving(target, _, pc) => ServeOk(s, target, pc)
  }

  ghost predicate Inv(sys: Sys) {
    && TablesOk(sys.shared)
    && forall h :: h in sys.handlers ==> HandlerOk(sys.shared, sys.handlers[h])
  }

  // ---------- what one step may do ----------

  /** Nothing is lost and no fixed column changes. */
  predicate Grows(s: Shared, s': Shared) {
    && (forall t :: t in s.targets ==> t in s'.targets && SameTarget(s.targets[t], s'.targets[t]))
    && (forall id :: id in s.rows ==> id in s'.rows && SameRow(s.rows[id], s'.rows[id]))
    && (forall t :: t in s.servers ==> t in s'.servers)
  }

  /** A row that may appear: at the address the scan finds now, for a device without a row. */
  ghost predicate MayAppear(s: Shared, c: Connection) {
    && c.target in s.targets && NetworkOf(s.targets[c.target]).Some?
    && NextFree(NetworkOf(s.targets[c.target]).value, ClientIps(s.rows, c.target)) == Some(c.clientIp)
    && !HasDevice(s.rows, c.target, c.deviceId)
  }

  ghost predicate Steps(s: Shared, s': Shared) {
    && Grows(s, s')
    && Keyed(s'.rows) && "" !in s'.rows
    && (forall t :: t in s'.targets ==> s'.targets[t].name == t)
    && (forall id :: id in s'.rows && id !in s.rows ==>
          MayAppear(s, s'.rows[id]) && s'.rows.Keys == s.rows.Keys + {id})
  }

  // ---------- the tables survive ----------

  /** Without a new row of t, the rows of t and their addresses are the same. */
  lemma SameIds(s: Shared, s': Shared, t: string)
    requires Steps(s, s')
    requires forall id :: id in s'.rows && id !in s.rows ==> s'.rows[id].target != t
    ensures Ids(s'.rows, t) == Ids(s.rows, t)
    ensures ClientIps(s'.rows, t) == ClientIps(s.rows, t)
  {
    assert forall id :: id in s.rows ==> SameRow(s.rows[id], s'.rows[id]);
    assert Ids(s'.rows, t) == Ids(s.rows, t);
    SameAddresses(s.rows, s'.rows, t);
  }

  lemma SameAddresses(rows: Connections, rows': Connections, t: string)
    requires Ids(rows', t) == Ids(rows, t)
    requires forall id :: id in Ids(rows, t) ==> rows'[id].clientIp == rows[id].clientIp
    ensures ClientIps(rows', t) == ClientIps(rows, t)
  {
    forall ip
      ensures ip in ClientIps(rows', t) <==> ip in ClientIps(rows, t)
    {
      if ip in ClientIps(rows, t) {
        var id :| id in Ids(rows, t) && rows[id].clientIp == ip;
        assert rows'[id].clientIp == ip;
      }
    }
  }

  lemma OneMoreId(s: Shared, s': Shared, id: string)
    requires Grows(s, s') && id !in s.rows && s'.rows.Keys == s.rows.Keys + {id}
    ensures var t := s'.rows[id].target;
            && Ids(s'.rows, t) == Ids(s.rows, t) + {id}
            && ClientIps(s'.rows, t) == ClientIps(s.rows, t) + {s'.rows[id].clientIp}
  {
    var t := s'.rows[id].target;
    assert forall i :: i in s.rows ==> SameRow(s.rows[i], s'.rows[i]);
    assert Ids(s'.rows, t) == Ids(s.rows, t) + {id};
    OneMoreAddress(s.rows, s'.rows, t, id);
  }

  lemma OneMoreAddress(rows: Connections, rows': Connections, t: string, id: string)
    requires id in rows' && Ids(rows', t) == Ids(rows, t) + {id}
    requires forall i :: i in Ids(rows, t) ==> rows'[i].clientIp == rows[i].clientIp
    ensures ClientIps(rows', t) == ClientIps(rows, t) + {rows'[id].clientIp}
  {
    forall ip
      ensures ip in ClientIps(rows', t) <==> ip in ClientIps(rows, t) + {rows'[id].clientIp}
    {
      if ip in ClientIps(rows, t) {
        var i :| i in Ids(rows, t) && rows[i].clientIp == ip;
        assert i in Ids(rows', t) && rows'[i].clientIp == ip;
      }
      assert id in Ids(rows', t);
    }
  }

  /** The address the scan finds is the next one, and nobody has it. */
  lemma ScanOfDense(s: Shared, t: string)
    requires Dense(s, t) && t in s.targets && NetworkOf(s.targets[t]).Some?
    ensures var p, n := NetworkOf(s.targets[t]).value, |Ids(s.rows, t)|;
            NextFree(p, ClientIps(s.rows, t)) == if n < Capacity(p) then Some(AddressText(p, n)) else None
    ensures var p, n := NetworkOf(s.targets[t]).value, |Ids(s.rows, t)|;
            n < Capacity(p) ==> AddressText(p, n) !in ClientIps(s.rows, t)
                                && FirstTexts(p, n + 1) == ClientIps(s.rows, t) + {AddressText(p, n)}
  {
    var p, n := NetworkOf(s.targets[t]).value, |Ids(s.rows, t)|;
    ScanIsACounter(p, 0, n);
    if n < Capacity(p) {
      FirstTextsGrow(p, n);
    }
  }

  lemma StepsKeepNetwork(s: Shared, s': Shared, t: string)
    requires Steps(s, s') && t in s.targets
    ensures t in s'.targets && NetworkOf(s'.targets[t]) == NetworkOf(s.targets[t])
  {
    assert SameTarget(s.targets[t], s'.targets[t]);
  }

  /** One row more, at the address that the scan finds. */
  lemma DenseGrows(s: Shared, s': Shared, t: string, id: string, ip: string)
    requires Dense(s, t) && t in s.targets && NetworkOf(s.targets[t]).Some?
    requires t in s'.targets && NetworkOf(s'.targets[t]) == NetworkOf(s.targets[t])
    requires id !in Ids(s.rows, t) && Ids(s'.rows, t) == Ids(s.rows, t) + {id}
    requires ClientIps(s'.rows, t) == ClientIps(s.rows, t) + {ip}
    requires NextFree(NetworkOf(s.targets[t]).value, ClientIps(s.rows, t)) == Some(ip)
    ensures Dense(s', t)
  {
    ScanOfDense(s, t);
    assert |Ids(s'.rows, t)| == |Ids(s.rows, t)| + 1;
  }

  lemma NewRowKeepsDense(s: Shared, s': Shared, id: string)
    requires Steps(s, s') && id in s'.rows && id !in s.rows && Dense(s, s'.rows[id].target)
    ensures Dense(s', s'.rows[id].target)
  {
    var t := s'.rows[id].target;
    assert MayAppear(s, s'.rows[id]);
    OneMoreId(s, s', id);
    StepsKeepNetwork(s, s', t);
    DenseGrows(s, s', t, id, s'.rows[id].clientIp);
  }

  lemma SameRowsKeepDense(s: Shared, s': Shared, t: string)
    requires Steps(s, s') && Dense(s, t)
    requires forall id :: id in s'.rows && id !in s.rows ==> s'.rows[id].target != t
    ensures Dense(s', t)
  {
    SameIds(s, s', t);
    if t in s.targets {
      StepsKeepNetwork(s, s', t);
    } else if t in s'.targets && NetworkOf(s'.targets[t]).Some? {
      assert FirstTexts(NetworkOf(s'.targets[t]).value, 0) == {};
    }
  }

  lemma StepsKeepDense(s: Shared, s': Shared, t: string)
    requires Dense(s, t) && Steps(s, s')
    ensures Dense(s', t)
  {
    if id :| id in s'.rows && id !in s.rows && s'.rows[id].target == t {
      NewRowKeepsDense(s, s', id);
    } else {
      SameRowsKeepDense(s, s', t);
    }
  }

  lemma NewAddressIsFree(s: Shared, s': Shared, i: string, j: string)
    requires TablesOk(s) && Steps(s, s')
    requires i in s'.rows && i !in s.rows && j in s.rows && s'.rows[i].target == s'.rows[j].target
    ensures s'.rows[i].clientIp != s'.rows[j].clientIp && s'.rows[i].deviceId != s'.rows[j].deviceId
  {
    var t := s'.rows[i].target;
    assert SameRow(s.rows[j], s'.rows[j]);
    assert Dense(s, t);
    ScanOfDense(s, t);
    assert j in Ids(s.rows, t) && s.rows[j].clientIp in ClientIps(s.rows, t);
  }

  lemma StepsKeepTables(s: Shared, s': Shared)
    requires TablesOk(s) && Steps(s, s')
    ensures TablesOk(s')
  {
    forall t
      ensures Dense(s', t)
    {
      assert Dense(s, t);
      StepsKeepDense(s, s', t);
    }
    StepsKeepUnique(s, s');
  }

  lemma StepsKeepUnique(s: Shared, s': Shared)
    requires TablesOk(s) && Steps(s, s')
    ensures AddressesUnique(s'.rows) && DevicesUnique(s'.rows)
  {
    forall i, j | i in s'.rows && j in s'.rows && i != j && s'.rows[i].target == s'.rows[j].target
      ensures s'.rows[i].clientIp != s'.rows[j].clientIp && s'.rows[i].deviceId != s'.rows[j].deviceId
    {
      if i !in s.rows {
        NewAddressIsFree(s, s', i, j);
      } else if j !in s.rows {
        NewAddressIsFree(s, s', j, i);
      } else {
        assert SameRow(s.rows[i], s'.rows[i]) && SameRow(s.rows[j], s'.rows[j]);
      }
    }
  }

  // ---------- the handlers survive ----------

  /** A pick that was free stays the next free address until it is taken. */
  lemma StepsKeepPick(s: Shared, s': Shared, target: string, device: string, ip: string)
    requires TablesOk(s) && Steps(s, s') && PickOk(s, target, ip)
    ensures PickOk(s', target, ip)
    ensures ip in ClientIps(s.rows, target) ==> ip in ClientIps(s'.rows, target)
    ensures !HasDevice(s.rows, target, device) ==>
      ip in ClientIps(s'.rows, target) || !HasDevice(s'.rows, target, device)
  {
    assert NetworkOf(s'.targets[target]) == NetworkOf(s.targets[target]);
    if id :| id in s'.rows && id !in s.rows && s'.rows[id].target == target {
      OneMoreId(s, s', id);
    } else {
      SameIds(s, s', target);
      if HasDevice(s'.rows, target, device) {
        var id :| id in s'.rows && s'.rows[id].target == target && s'.rows[id].deviceId == device;
        assert SameRow(s.rows[id], s'.rows[id]);
      }
    }
  }

  lemma StepsKeepPending(s: Shared, s': Shared, target: string, device: string, pc: ConnectPc)
    requires TablesOk(s) && Steps(s, s') && ConnectOk(s, target, device, pc) && (pc.Recheck? || pc.Insert?)
    ensures ConnectOk(s', target, device, pc)
  {
    StepsKeepPick(s, s', target, device, pc.c.clientIp);
  }

  lemma StepsKeepOthers(s: Shared, s': Shared, target: string, device: string, pc: ConnectPc)
    requires Grows(s, s') && ConnectOk(s, target, device, pc) && !pc.Recheck? && !pc.Insert?
    ensures ConnectOk(s', target, device, pc)
  {
  }

  lemma StepsKeepHandler(s: Shared, s': Shared, handler: Handler)
    requires TablesOk(s) && Steps(s, s') && HandlerOk(s, handler)
    ensures HandlerOk(s', handler)
  {
    if handler.Connecting? {
      if handler.cpc.Recheck? || handler.cpc.Insert? {
        StepsKeepPending(s, s', handler.target, handler.device, handler.cpc);
      } else {
        StepsKeepOthers(s, s', handler.target, handler.device, handler.cpc);
      }
    }
  }

  // ---------- each step does no more ----------

  lemma QuietSteps(s: Shared, s': Shared)
    requires TablesOk(s)
    requires s'.targets == s.targets && s'.rows == s.rows
    requires forall t :: t in s.servers ==> t in s'.servers
    ensures Steps(s, s')
  {
  }

  /** Re-syncing writes back the row it read with a new key; no constraint can break. */
  lemma ResyncGuarantee(s: Shared, c: Connection, key: string)
    requires TablesOk(s) && HoldsRow(s, c)
    ensures !AddressHeldByOther(s.rows, c.(pubkey := key))
    ensures ConnectionUpdated(s.rows, c.(pubkey := key)) == s.rows[c.id := c.(pubkey := key)]
    ensures Steps(s, s.(rows := ConnectionUpdated(s.rows, c.(pubkey := key))))
    ensures HoldsRow(s.(rows := ConnectionUpdated(s.rows, c.(pubkey := key))), c.(pubkey := key))
  {
  }

  lemma InsertGuarantee(s: Shared, target: string, device: string, c: Connection)
    requires TablesOk(s)
    requires c.target == target && c.deviceId == device && c.id != ""
    requires PickOk(s, target, c.clientIp)
    requires c.clientIp in ClientIps(s.rows, target) || !HasDevice(s.rows, target, device)
    ensures Steps(s, s.(rows := ConnectionInserted(s.rows, c)))
  {
    if Inserts(s.rows, c) {
      assert c.clientIp !in ClientIps(s.rows, target);
      var s' := s.(rows := ConnectionInserted(s.rows, c));
      assert s'.rows.Keys == s.rows.Keys + {c.id};
    }
  }

  lemma InsertHolds(s: Shared, c: Connection)
    ensures Inserts(s.rows, c) ==> HoldsRow(s.(rows := ConnectionInserted(s.rows, c)), c)
  {
  }

  /** All but two of the steps leave targets, rows and servers alone. */
  lemma QuietConnectStep(s: Shared, h: Conn, target: string, device: string, pc: ConnectPc, a: Answer)
    requires !pc.Resync? && !pc.Insert?
    ensures var s' := ConnectStep(s, h, target, device, pc, a).0;
            s'.targets == s.targets && s'.rows == s.rows && s'.servers == s.servers
  {
  }

  lemma SameTablesOk(s: Shared, s': Shared, target: string, device: string, pc: ConnectPc)
    requires s'.targets == s.targets && s'.rows == s.rows && s'.servers == s.servers
    requires ConnectOk(s, target, device, pc)
    ensures ConnectOk(s', target, device, pc)
  {
  }

  // where a handler stands after a quiet step

  lemma LookupNext(s: Shared, h: Conn, target: string, device: string, pc: ConnectPc, a: Answer)
    requires TablesOk(s) && ConnectOk(s, target, device, pc)
    requires Possible(s, Connecting(target, device, pc), a)
    requires pc.LoadTarget? || pc.CheckAlive? || pc.FetchKey? || pc.Lookup?
    ensures ConnectOk(s, target, device, ConnectStep(s, h, target, device, pc, a).1)
  {
    if pc.Lookup? && Found(a) {
      assert a.row.value.id in Ids(s.rows, target);
    }
  }

  lemma ScanNext(s: Shared, h: Conn, target: string, device: string, pc: ConnectPc, a: Answer)
    requires TablesOk(s) && ConnectOk(s, target, device, pc)
    requires Possible(s, Connecting(target, device, pc), a)
    requires pc.LoadNetwork? || pc.Scan?
    ensures ConnectOk(s, target, device, ConnectStep(s, h, target, device, pc, a).1)
  {
  }

  lemma RecheckNext(s: Shared, h: Conn, target: string, device: string, pc: ConnectPc, a: Answer)
    requires TablesOk(s) && ConnectOk(s, target, device, pc)
    requires Possible(s, Connecting(target, device, pc), a)
    requires pc.Recheck?
    ensures ConnectOk(s, target, device, ConnectStep(s, h, target, device, pc, a).1)
  {
  }

  lemma FinishNext(s: Shared, h: Conn, target: string, device: string, pc: ConnectPc, a: Answer)
    requires ConnectOk(s, target, device, pc)
    requires pc.FindServer? || pc.Append? || pc.ParsePort? || pc.Instruct? || pc.Save? || pc.Blocked? || pc.Stopped?
    ensures ConnectOk(s, target, device, ConnectStep(s, h, target, device, pc, a).1)
  {
  }

  lemma QuietGuarantee(s: Shared, h: Conn, target: string, device: string, pc: ConnectPc, a: Answer)
    requires TablesOk(s) && ConnectOk(s, target, device, pc)
    requires Possible(s, Connecting(target, device, pc), a)
    requires !pc.Resync? && !pc.Insert?
    ensures var (s', pc') := ConnectStep(s, h, target, device, pc, a);
            Steps(s, s') && ConnectOk(s', target, device, pc')
  {
    var (s', pc') := ConnectStep(s, h, target, device, pc, a);
    if pc.LoadTarget? || pc.CheckAlive? || pc.FetchKey? || pc.Lookup? {
      LookupNext(s, h, target, device, pc, a);
    } else if pc.LoadNetwork? || pc.Scan? {
      ScanNext(s, h, target, device, pc, a);
    } else if pc.Recheck? {
      RecheckNext(s, h, target, device, pc, a);
    } else {
      FinishNext(s, h, target, device, pc, a);
    }
    QuietConnectStep(s, h, target, device, pc, a);
    QuietSteps(s, s');
    SameTablesOk(s, s', target, device, pc');
  }

  lemma FindServerOk(
    s: Shared, s': Shared, target: string, device: string, known: Target, c: Connection, recorded: bool)
    requires Knows(s, target, known) && target in s.servers && Grows(s, s')
    requires Carries(s', target, device, c, recorded)
    ensures ConnectOk(s', target, device, FindServer(known, c, recorded))
  {
  }

  lemma ResyncStepGuarantee(s: Shared, h: Conn, target: string, device: string, pc: ConnectPc, a: Answer)
    requires TablesOk(s) && ConnectOk(s, target, device, pc) && pc.Resync?
    ensures var (s', pc') := ConnectStep(s, h, target, device, pc, a);
            Steps(s, s') && ConnectOk(s', target, device, pc')
  {
    if a.Fails? {
      QuietSteps(s, s);
    } else {
      ResyncGuarantee(s, pc.c, pc.key);
      var c' := pc.c.(pubkey := pc.key);
      FindServerOk(s, s.(rows := ConnectionUpdated(s.rows, c')), target, device, pc.known, c', true);
    }
  }

  lemma InsertStepGuarantee(s: Shared, h: Conn, target: string, device: string, pc: ConnectPc, a: Answer)
    requires TablesOk(s) && ConnectOk(s, target, device, pc) && pc.Insert?
    ensures var (s', pc') := ConnectStep(s, h, target, device, pc, a);
            Steps(s, s') && ConnectOk(s', target, device, pc')
  {
    if a.Fails? {
      QuietSteps(s, s);
    } else {
      InsertGuarantee(s, target, device, pc.c);
      InsertHolds(s, pc.c);
      var s' := s.(rows := ConnectionInserted(s.rows, pc.c));
      FindServerOk(s, s', target, device, pc.known, pc.c, Inserts(s.rows, pc.c));
    }
  }

  lemma ConnectGuarantee(s: Shared, h: Conn, target: string, device: string, pc: ConnectPc, a: Answer)
    requires TablesOk(s) && ConnectOk(s, target, device, pc)
    requires Possible(s, Connecting(target, device, pc), a)
    ensures var (s', pc') := ConnectStep(s, h, target, device, pc, a);
            Steps(s, s') && ConnectOk(s', target, device, pc')
  {
    if pc.Resync? {
      ResyncStepGuarantee(s, h, target, device, pc, a);
    } else if pc.Insert? {
      InsertStepGuarantee(s, h, target, device, pc, a);
    } else {
      QuietGuarantee(s, h, target, device, pc, a);
    }
  }

  /** Writing a target from an old snapshot changes nothing but the three server columns. */
  lemma WriteTargetGuarantee(s: Shared, target: string, known: Target)
    requires TablesOk(s) && Knows(s, target, known)
    ensures var s' := s.(targets := TargetUpdated(s.targets, target, known));
            Steps(s, s') && Knows(s', target, known)
  {
  }

  lemma ServeGuarantee(s: Shared, h: Conn, target: string, publicIp: string, pc: ServePc, a: Answer)
    requires TablesOk(s) && ServeOk(s, target, pc)
    ensures var (s', pc') := ServeStep(s, h, target, publicIp, pc, a);
            Steps(s, s') && ServeOk(s', target, pc')
  {
    if pc.WriteTarget? {
      WriteTargetGuarantee(s, target, pc.known);
      QuietSteps(s, s);
    } else {
      QuietServeStep(s, h, target, publicIp, pc, a);
      QuietSteps(s, ServeStep(s, h, target, publicIp, pc, a).0);
    }
  }

  lemma QuietServeStep(s: Shared, h: Conn, target: string, publicIp: string, pc: ServePc, a: Answer)
    requires ServeOk(s, target, pc) && !pc.WriteTarget?
    ensures var (s', pc') := ServeStep(s, h, target, publicIp, pc, a);
            && s'.targets == s.targets && s'.rows == s.rows
            && (forall t :: t in s.servers ==> t in s'.servers)
            && ServeOk(s', target, pc')
  {
  }

  /** Rows change by inserts and by re-syncs. */
  lemma HandlerStepRows(s: Shared, h: Conn, handler: Handler, a: Answer)
    ensures HandlerStep(s, h, handler, a).0.rows ==
      if a.Fails? || !handler.Connecting? then s.rows
      else if handler.cpc.Insert? then ConnectionInserted(s.rows, handler.cpc.c)
      else if handler.cpc.Resync? then ConnectionUpdated(s.rows, handler.cpc.c.(pubkey := handler.cpc.key))
      else s.rows
  {
  }

  lemma CreateGuarantee(s: Shared, name: string, owner: string)
    requires TablesOk(s)
    ensures Steps(s, s.(targets := TargetInserted(s.targets, NewTarget(name, owner))))
  {
  }

  // ---------- every run ----------

  /** A process that has just started on tables in order: no handler and no session. */
  ghost predicate Starts(sys: Sys) {
    && sys.handlers == map[] && sys.shared.servers == map[] && sys.shared.clients == map[]
    && sys.shared.devices == map[] && TablesOk(sys.shared)
  }

  lemma StartsInv(sys: Sys)
    requires Starts(sys)
    ensures Inv(sys)
  {
  }

  /** Any set of targets without connections is in order. */
  lemma InitialStarts(sys: Sys)
    requires Initial(sys)
    ensures Starts(sys)
  {
    forall t
      ensures Dense(sys.shared, t)
    {
      assert Ids(sys.shared.rows, t) == {};
      if t in sys.shared.targets && NetworkOf(sys.shared.targets[t]).Some? {
        assert FirstTexts(NetworkOf(sys.shared.targets[t]).value, 0) == {};
      }
    }
  }

  lemma StepInv(sys: Sys, ev: Event)
    requires Inv(sys)
    ensures Inv(Step(sys, ev))
    ensures Steps(sys.shared, Step(sys, ev).shared)
  {
    var s, sys' := sys.shared, Step(sys, ev);
    if Enabled(sys, ev) {
      match ev
      case Create(name, owner, fault) => CreateGuarantee(s, name, owner);
      case Connect(_, _, _) => QuietSteps(s, sys'.shared);
      case Serve(_, _, _) => QuietSteps(s, sys'.shared);
      case Answered(h, a) =>
        match sys.handlers[h]
        case Connecting(target, device, pc) => ConnectGuarantee(s, h, target, device, pc, a);
        case Serving(target, publicIp, pc) => ServeGuarantee(s, h, target, publicIp, pc, a);
    }
    StepsKeepTables(s, sys'.shared);
    forall h | h in sys'.handlers
      ensures HandlerOk(sys'.shared, sys'.handlers[h])
    {
      if h in sys.handlers && sys'.handlers[h] == sys.handlers[h] {
        StepsKeepHandler(s, sys'.shared, sys.handlers[h]);
      }
    }
  }

  /** Every run keeps the tables and every handler in order. */
  lemma {:induction false} RunInv(sys: Sys, events: seq<Event>)
    requires Inv(sys)
    ensures Inv(Run(sys, events))
    decreases |events|
  {
    if events != [] {
      RunInv(sys, events[..|events| - 1]);
      StepInv(Run(sys, events[..|events| - 1]), events[|events| - 1]);
    }
  }

  lemma GrowsTransitive(a: Shared, b: Shared, c: Shared)
    requires Grows(a, b) && Grows(b, c)
    ensures Grows(a, c)
  {
    forall id | id in a.rows
      ensures id in c.rows && SameRow(a.rows[id], c.rows[id])
    {
      assert SameRow(a.rows[id], b.rows[id]) && SameRow(b.rows[id], c.rows[id]);
    }
    forall t | t in a.targets
      ensures t in c.targets && SameTarget(a.targets[t], c.targets[t])
    {
      assert SameTarget(a.targets[t], b.targets[t]) && SameTarget(b.targets[t], c.targets[t]);
    }
  }

  /** Over every run no row, target or server is lost and no fixed column changes. */
  lemma {:induction false} RunGrows(sys: Sys, events: seq<Event>)
    requires Inv(sys)
    ensures Grows(sys.shared, Run(sys, events).shared)
    decreases |events|
  {
    if events != [] {
      var front := events[..|events| - 1];
      RunGrows(sys, front);
      RunInv(sys, front);
      StepInv(Run(sys, front), events[|events| - 1]);
      GrowsTransitive(sys.shared, Run(sys, front).shared, Run(sys, events).shared);
    }
  }
}
