/**
 Two ways in which a handler goes on with an address that is not its own, each with a run from
 an empty control plane: two handlers race for one address, and a lookup fails for a device
 that has a row.
 */
module AddressRace {
  import opened Wrappers
  import opened Database
  import opened ConnectionManagement
  import opened Allocation
  import opened Protocol
  import opened ProtocolInvariant
  import opened ProtocolTheorems
  import opened OwnAddress

  // ---------- two handlers with one address ----------

  /** A handler about to scan, for a device without a row. */
  ghost predicate AboutToScan(sys: Sys, h: Conn, target: string, device: string) {
    && h in sys.handlers && sys.handlers[h].Connecting? && sys.handlers[h].cpc.Scan?
    && sys.handlers[h].target == target && sys.handlers[h].device == device
    && !HasDevice(sys.shared.rows, target, device)
  }

  function BothScan(h1: Conn, id1: string, h2: Conn, id2: string): seq<Event> {
    [Answered(h1, Uuid(id1)), Answered(h2, Uuid(id2))]
  }

  function CheckAndInsert(h: Conn): seq<Event> {
    [Answered(h, Row(None)), Answered(h, Done)]
  }

  lemma RunPair(sys: Sys, e: Event, f: Event)
    ensures Run(sys, [e, f]) == Step(Step(sys, e), f)
  {
    assert Run(sys, [e]) == Step(sys, e) by { assert [e][..0] == []; }
    assert [e, f][..1] == [e];
  }

  /** A handler at the second check or at the insert, with this pick. */
  predicate Pending(sys: Sys, h: Conn, target: string, device: string, id: string, ip: string) {
    && h in sys.handlers && sys.handlers[h].Connecting? && (sys.handlers[h].cpc.Recheck? || sys.handlers[h].cpc.Insert?)
    && sys.handlers[h].target == target == sys.handlers[h].cpc.c.target
    && sys.handlers[h].device == device == sys.handlers[h].cpc.c.deviceId
    && sys.handlers[h].cpc.c.id == id && sys.handlers[h].cpc.c.clientIp == ip
  }

  lemma ScanPicks(sys: Sys, h: Conn, t: string, d: string, id: string)
    requires Inv(sys) && AboutToScan(sys, h, t, d) && id != ""
    requires var net := sys.shared.targets[t];
             NetworkOf(net).Some? && NextFree(NetworkOf(net).value, ClientIps(sys.shared.rows, t)).Some?
    ensures var sys' := Step(sys, Answered(h, Uuid(id)));
            var ip := NextFree(NetworkOf(sys.shared.targets[t]).value, ClientIps(sys.shared.rows, t)).value;
            && sys' == sys.(handlers := sys'.handlers)
            && sys'.handlers == sys.handlers[h := sys'.handlers[h]]
            && sys'.handlers[h].cpc.Recheck? && Pending(sys', h, t, d, id, ip)
            && sys'.handlers[h].cpc.c.pubkey == sys.handlers[h].cpc.key
  {
    assert HandlerOk(sys.shared, sys.handlers[h]);
  }

  /** With no row for the device, the second check passes and the insert follows. */
  lemma CheckThenInsert(sys: Sys, h: Conn, t: string, d: string, id: string, ip: string)
    requires Pending(sys, h, t, d, id, ip) && sys.handlers[h].cpc.Recheck?
    requires !HasDevice(sys.shared.rows, t, d)
    ensures var sys' := Run(sys, CheckAndInsert(h));
            && sys'.shared == sys.shared.(rows := ConnectionInserted(sys.shared.rows, sys.handlers[h].cpc.c))
            && h in sys'.handlers && sys'.handlers == sys.handlers[h := sys'.handlers[h]]
            && sys'.handlers[h].Connecting? && sys'.handlers[h].cpc.FindServer?
            && sys'.handlers[h].target == t && sys'.handlers[h].cpc.c == sys.handlers[h].cpc.c
  {
    RunPair(sys, Answered(h, Row(None)), Answered(h, Done));
    var checked := Step(sys, Answered(h, Row(None)));
    assert Possible(sys.shared, sys.handlers[h], Row(None));
    assert checked.handlers[h].cpc.Insert? && checked.shared == sys.shared;
    assert Possible(checked.shared, checked.handlers[h], Done);
  }

  lemma FirstInsertWins(rows: Connections, c1: Connection, c2: Connection)
    requires c1.target == c2.target && c1.clientIp == c2.clientIp && c1.deviceId != c2.deviceId
    requires c1.id !in rows && c1.clientIp !in ClientIps(rows, c1.target)
    requires !HasDevice(rows, c1.target, c2.deviceId)
    ensures var once := ConnectionInserted(rows, c1);
            && once == rows[c1.id := c1] && ConnectionInserted(once, c2) == once
            && Leased(once, c1.target, c1.deviceId, c1.clientIp) && !HasDevice(once, c1.target, c2.deviceId)
            && c1.id in once && once[c1.id] == c1
  {
    forall id | id in rows && rows[id].target == c1.target
      ensures rows[id].clientIp != c1.clientIp
    {
      assert id in Ids(rows, c1.target);
    }
    var once := rows[c1.id := c1];
    assert once[c1.id] == c1;
    assert c2.id == c1.id || AddressHeldByOther(once, c2);
  }

  lemma BothPick(
    sys: Sys, t: string, h1: Conn, d1: string, id1: string, h2: Conn, d2: string, id2: string)
    returns (picked: Sys)
    requires Inv(sys) && h1 != h2
    requires AboutToScan(sys, h1, t, d1) && AboutToScan(sys, h2, t, d2)
    requires id1 != "" && id2 != ""
    requires var net := sys.shared.targets[t];
             NetworkOf(net).Some? && NextFree(NetworkOf(net).value, ClientIps(sys.shared.rows, t)).Some?
    ensures picked == Run(sys, BothScan(h1, id1, h2, id2)) && picked.shared == sys.shared
    ensures var ip := NextFree(NetworkOf(sys.shared.targets[t]).value, ClientIps(sys.shared.rows, t)).value;
            && Pending(picked, h1, t, d1, id1, ip) && picked.handlers[h1].cpc.Recheck?
            && Pending(picked, h2, t, d2, id2, ip) && picked.handlers[h2].cpc.Recheck?
            && picked.handlers[h1].cpc.c.pubkey == sys.handlers[h1].cpc.key
            && picked.handlers[h2].cpc.c.pubkey == sys.handlers[h2].cpc.key
  {
    var first, second := Answered(h1, Uuid(id1)), Answered(h2, Uuid(id2));
    ScanPicks(sys, h1, t, d1, id1);
    StepInv(sys, first);
    ScanPicks(Step(sys, first), h2, t, d2, id2);
    RunPair(sys, first, second);
    picked := Run(sys, [first, second]);
  }

  /** Two handlers with the same pick check and insert, one after the other. */
  lemma RaceAfterPicks(
    sys: Sys, t: string, h1: Conn, d1: string, id1: string, h2: Conn, d2: string, id2: string, ip: string)
    requires h1 != h2 && d1 != d2 && id1 !in sys.shared.rows && ip !in ClientIps(sys.shared.rows, t)
    requires Pending(sys, h1, t, d1, id1, ip) && sys.handlers[h1].cpc.Recheck? && !HasDevice(sys.shared.rows, t, d1)
    requires Pending(sys, h2, t, d2, id2, ip) && sys.handlers[h2].cpc.Recheck? && !HasDevice(sys.shared.rows, t, d2)
    ensures var raced := Run(Run(sys, CheckAndInsert(h1)), CheckAndInsert(h2));
            && h2 in raced.handlers && raced.handlers[h2].Connecting? && raced.handlers[h2].cpc.FindServer?
            && raced.handlers[h2].target == t && raced.handlers[h2].cpc.c == sys.handlers[h2].cpc.c
            && id1 in raced.shared.rows && raced.shared.rows[id1] == sys.handlers[h1].cpc.c
            && Leased(raced.shared.rows, t, d1, ip) && !Leased(raced.shared.rows, t, d2, ip)
  {
    var c1, c2 := sys.handlers[h1].cpc.c, sys.handlers[h2].cpc.c;
    CheckThenInsert(sys, h1, t, d1, id1, ip);
    FirstInsertWins(sys.shared.rows, c1, c2);
    CheckThenInsert(Run(sys, CheckAndInsert(h1)), h2, t, d2, id2, ip);
  }

  /**
   The race the source leaves open: from any reachable state in which two devices are about to
   scan a target with room, both may pick the same address; the second then goes on to tell
   its peer and its client an address that is leased to the first.
   */
  lemma RaceHandsOutALeasedAddress(
    sys: Sys, t: string, h1: Conn, d1: string, id1: string, h2: Conn, d2: string, id2: string)
    requires Inv(sys) && h1 != h2 && d1 != d2
    requires AboutToScan(sys, h1, t, d1) && AboutToScan(sys, h2, t, d2)
    requires id1 != "" && id2 != "" && id1 !in sys.shared.rows
    requires var net := sys.shared.targets[t];
             NetworkOf(net).Some? && NextFree(NetworkOf(net).value, ClientIps(sys.shared.rows, t)).Some?
    ensures var raced := Run(sys, BothScan(h1, id1, h2, id2) + CheckAndInsert(h1) + CheckAndInsert(h2));
            && h2 in raced.handlers && raced.handlers[h2].Connecting? && raced.handlers[h2].cpc.FindServer?
            && raced.handlers[h2].target == t && raced.handlers[h2].cpc.c.pubkey == sys.handlers[h2].cpc.key
            && id1 in raced.shared.rows && raced.shared.rows[id1].pubkey == sys.handlers[h1].cpc.key
            && var ip := raced.handlers[h2].cpc.c.clientIp;
               && raced.shared.rows[id1].target == t && raced.shared.rows[id1].clientIp == ip
               && Leased(raced.shared.rows, t, d1, ip) && !Leased(raced.shared.rows, t, d2, ip)
  {
    var s := sys.shared;
    var ip := NextFree(NetworkOf(s.targets[t]).value, ClientIps(s.rows, t)).value;
    assert ip !in ClientIps(s.rows, t) by {
      assert Dense(s, t);
      ScanOfDense(s, t);
    }
    var picked := BothPick(sys, t, h1, d1, id1, h2, d2, id2);
    RaceAfterPicks(picked, t, h1, d1, id1, h2, d2, id2, ip);
    RunConcat(sys, BothScan(h1, id1, h2, id2), CheckAndInsert(h1));
    RunConcat(sys, BothScan(h1, id1, h2, id2) + CheckAndInsert(h1), CheckAndInsert(h2));
  }

  // ---------- a run that gets there ----------

  /** What a target's row becomes when these runs serve it. */
  function ServedTarget(tgt: Target): Target {
    tgt.(serverPubkey := "server key", serverPublicIp := "203.0.113.1", serverPublicVpnPort := "21820")
  }

  /** A session that serves an existing target, until it has its row ... */
  lemma ServeLoads(sys: Sys, events: seq<Event>, h: Conn, t: string) returns (events': seq<Event>)
    requires var now := Run(sys, events); h !in now.handlers && t in now.shared.targets
    ensures var now := Run(sys, events);
            Run(sys, events') == now.(handlers := now.handlers[h :=
              Serving(t, "203.0.113.1", FetchInfo(Some(now.shared.targets[t])))])
  {
    var now := Run(sys, events);
    events' := RunOneMore(sys, events, Serve(h, t, "203.0.113.1"));
    var asked := Serving(t, "203.0.113.1", ServePc.LoadTarget);
    assert Run(sys, events') == now.(handlers := now.handlers[h := asked]);
    events' := RunOneMore(sys, events', Answered(h, Done));
    Overwritten(now.handlers, h, asked, Run(sys, events').handlers[h]);
  }

  lemma Overwritten(handlers: map<Conn, Handler>, h: Conn, a: Handler, b: Handler)
    ensures handlers[h := a][h := b] == handlers[h := b]
  {
  }

  /** ... until it has written it ... */
  lemma ServeWrites(sys: Sys, events: seq<Event>, h: Conn, t: string) returns (events': seq<Event>)
    requires var now := Run(sys, events);
             && h in now.handlers && t in now.shared.targets && now.shared.targets[t].name == t
             && now.handlers[h] == Serving(t, "203.0.113.1", FetchInfo(Some(now.shared.targets[t])))
    ensures var now := Run(sys, events);
            var known := ServedTarget(now.shared.targets[t]);
            Run(sys, events') == Sys(now.shared.(targets := now.shared.targets[t := known]),
                                     now.handlers[h := Serving(t, "203.0.113.1", ServePc.ParsePort(known))])
  {
    var known := ServedTarget(Run(sys, events).shared.targets[t]);
    events' := RunOneMore(sys, events, Answered(h, Info("server key", "21820")));
    assert Run(sys, events').handlers[h] == Serving(t, "203.0.113.1", ServePc.WriteTarget(known));
    events' := RunOneMore(sys, events', Answered(h, Done));
  }

  /** ... and until it is registered. */
  lemma ServeRegisters(sys: Sys, events: seq<Event>, h: Conn, t: string) returns (events': seq<Event>)
    requires var now := Run(sys, events);
             && h in now.handlers && now.handlers[h].Serving?
             && now.handlers[h].target == t && now.handlers[h].spc.ParsePort?
    ensures var now, now' := Run(sys, events), Run(sys, events');
            && now'.handlers == now.handlers[h := now.handlers[h].(spc := ServePc.Blocked)]
            && now'.shared.rows == now.shared.rows && now'.shared.targets == now.shared.targets
            && now'.shared.servers == now.shared.servers[t := h]
  {
    events' := RunOneMore(sys, events, Answered(h, Done));
    events' := RunOneMore(sys, events', Answered(h, Fails));
    events' := RunOneMore(sys, events', Answered(h, Done));
    events' := RunOneMore(sys, events', Answered(h, Done));
  }

  lemma ServeUp(sys: Sys, events: seq<Event>, h: Conn, t: string) returns (events': seq<Event>)
    requires var now := Run(sys, events);
             h !in now.handlers && t in now.shared.targets && now.shared.targets[t].name == t
    ensures var now, now' := Run(sys, events), Run(sys, events');
            && now'.handlers.Keys == now.handlers.Keys + {h}
            && now'.shared.rows == now.shared.rows
            && t in now'.shared.targets && SameTarget(now.shared.targets[t], now'.shared.targets[t])
            && TargetServerAlive(now'.shared, Some(now'.shared.targets[t]))
  {
    events' := ServeLoads(sys, events, h, t);
    events' := ServeWrites(sys, events', h, t);
    events' := ServeRegisters(sys, events', h, t);
  }

  /** A device that connects to a live target, until it looks for its row. */
  lemma ConnectUpToLookup(sys: Sys, events: seq<Event>, h: Conn, t: string, d: string, key: string)
    returns (events': seq<Event>)
    requires var now := Run(sys, events);
             && h !in now.handlers && t in now.shared.targets && now.shared.targets[t].name == t
             && TargetServerAlive(now.shared, Some(now.shared.targets[t]))
    ensures var now := Run(sys, events);
            Run(sys, events') ==
            now.(handlers := now.handlers[h := Connecting(t, d, Lookup(now.shared.targets[t], key))])
  {
    var tgt := Run(sys, events).shared.targets[t];
    events' := RunOneMore(sys, events, Connect(h, t, d));
    events' := RunOneMore(sys, events', Answered(h, Done));
    assert Run(sys, events').handlers[h] == Connecting(t, d, CheckAlive(Some(tgt)));
    events' := RunOneMore(sys, events', Answered(h, Done));
    assert Run(sys, events').handlers[h] == Connecting(t, d, FetchKey(tgt));
    events' := RunOneMore(sys, events', Answered(h, Key(key)));
  }

  /** Without a row, or with a failed lookup, it is then about to scan. */
  lemma LookupUpToScan(sys: Sys, events: seq<Event>, h: Conn, t: string, d: string, a: Answer)
    returns (events': seq<Event>)
    requires var now := Run(sys, events);
             && h in now.handlers && now.handlers[h].Connecting? && now.handlers[h].cpc.Lookup?
             && now.handlers[h].target == t && now.handlers[h].device == d && t in now.shared.targets
    requires a.Fails? || (a == Row(None) && !HasDevice(Run(sys, events).shared.rows, t, d))
    ensures var now := Run(sys, events);
            var pc := now.handlers[h].cpc;
            Run(sys, events') ==
            now.(handlers := now.handlers[h := Connecting(t, d, Scan(pc.known, pc.key, now.shared.targets[t]))])
  {
    var pc := Run(sys, events).handlers[h].cpc;
    events' := RunOneMore(sys, events, Answered(h, a));
    assert Run(sys, events').handlers[h] == Connecting(t, d, LoadNetwork(pc.known, pc.key));
    events' := RunOneMore(sys, events', Answered(h, Done));
  }

  /** A device without a row that connects to a live target, until it is about to scan. */
  lemma ConnectUpToScan(sys: Sys, events: seq<Event>, h: Conn, t: string, d: string, key: string)
    returns (events': seq<Event>)
    requires var now := Run(sys, events);
             && h !in now.handlers && t in now.shared.targets && now.shared.targets[t].name == t
             && TargetServerAlive(now.shared, Some(now.shared.targets[t])) && !HasDevice(now.shared.rows, t, d)
    ensures var now, now' := Run(sys, events), Run(sys, events');
            && now'.shared == now.shared && AboutToScan(now', h, t, d) && now'.handlers[h].cpc.key == key
            && now'.handlers == now.handlers[h := now'.handlers[h]]
  {
    events' := ConnectUpToLookup(sys, events, h, t, d, key);
    events' := LookupUpToScan(sys, events', h, t, d, Row(None));
  }

  const EMPTY := Sys(Shared(map[], map[], map[], map[], map[]), map[])

  lemma EmptyReachable(events: seq<Event>)
    ensures Inv(Run(EMPTY, events))
  {
    InitialStarts(EMPTY);
    Reachable(EMPTY, events);
  }

  /** One created and served target, and two devices about to scan it. */
  lemma TwoAboutToScan() returns (events: seq<Event>)
    ensures var now := Run(EMPTY, events);
            && AboutToScan(now, 1, "t", "d1") && now.handlers[1].cpc.key == "key1"
            && AboutToScan(now, 2, "t", "d2") && now.handlers[2].cpc.key == "key2"
            && now.shared.rows == map[] && "t" in now.shared.targets
            && SameTarget(NewTarget("t", "owner"), now.shared.targets["t"])
  {
    assert Run(EMPTY, []) == EMPTY;
    events := RunOneMore(EMPTY, [], Create("t", "owner", NoFault));
    events := ServeUp(EMPTY, events, 0, "t");
    events := ConnectUpToScan(EMPTY, events, 1, "t", "d1", "key1");
    events := ConnectUpToScan(EMPTY, events, 2, "t", "d2", "key2");
  }

  /**
   A whole run: create one target, serve it, connect two devices.  The table leases the address
   to the first device, and the second is about to announce it.
   */
  lemma RaceFromScratch() returns (events: seq<Event>)
    ensures var now := Run(EMPTY, events);
            && 2 in now.handlers && now.handlers[2].Connecting? && now.handlers[2].cpc.FindServer?
            && now.handlers[2].target == "t" && now.handlers[2].cpc.c.pubkey == "key2"
            && "id1" in now.shared.rows && now.shared.rows["id1"].pubkey == "key1"
            && var ip := now.handlers[2].cpc.c.clientIp;
               && now.shared.rows["id1"].target == "t" && now.shared.rows["id1"].clientIp == ip
               && Leased(now.shared.rows, "t", "d1", ip) && !Leased(now.shared.rows, "t", "d2", ip)
  {
    var ready := TwoAboutToScan();
    EmptyReachable(ready);
    RoomAtFirst(Run(EMPTY, ready), "t");
    RaceHandsOutALeasedAddress(Run(EMPTY, ready), "t", 1, "d1", "id1", 2, "d2", "id2");
    var race := BothScan(1, "id1", 2, "id2") + CheckAndInsert(1) + CheckAndInsert(2);
    RunConcat(EMPTY, ready, race);
    events := ready + race;
  }

  /** A target on the default network without rows has room. */
  lemma RoomAtFirst(sys: Sys, t: string)
    requires Inv(sys) && sys.shared.rows == map[] && t in sys.shared.targets
    requires sys.shared.targets[t].networkIp == "10.8.0.1" && sys.shared.targets[t].networkCidr == "/23"
    ensures var net := sys.shared.targets[t];
            NetworkOf(net).Some? && NextFree(NetworkOf(net).value, ClientIps(sys.shared.rows, t)).Some?
  {
    DefaultNetwork(sys.shared.targets[t]);
    assert Ids(sys.shared.rows, t) == {};
    assert Dense(sys.shared, t);
    ScanOfDense(sys.shared, t);
  }

  // ---------- a lookup that failed ----------

  predicate ScansAgain(sys: Sys, h: Conn, t: string, d: string, found: Connection) {
    && h in sys.handlers && sys.handlers[h].Connecting? && sys.handlers[h].cpc.Scan?
    && sys.handlers[h].target == t && sys.handlers[h].device == d
    && Selects(sys.shared.rows, t, d, Some(found))
  }

  predicate HasRoom(s: Shared, t: string) {
    && t in s.targets && NetworkOf(s.targets[t]).Some?
    && NextFree(NetworkOf(s.targets[t]).value, ClientIps(s.rows, t)).Some?
  }

  lemma FreeIsNotLeased(rows: Connections, t: string, d: string, ip: string)
    requires ip !in ClientIps(rows, t)
    ensures !Leased(rows, t, d, ip)
  {
    forall id | id in rows && rows[id].target == t
      ensures rows[id].clientIp != ip
    {
      assert id in Ids(rows, t);
    }
  }

  /** Scanning picks a free address, row or no row. */
  lemma ScanAgainPicks(sys: Sys, h: Conn, t: string, d: string, id: string, found: Connection)
    requires Inv(sys) && ScansAgain(sys, h, t, d, found) && HasRoom(sys.shared, t) && id != ""
    ensures var sys' := Step(sys, Answered(h, Uuid(id)));
            && sys'.shared == sys.shared && h in sys'.handlers && sys'.handlers[h].Connecting?
            && sys'.handlers[h].cpc.Recheck? && sys'.handlers[h].target == t && sys'.handlers[h].device == d
            && sys'.handlers[h].cpc.c.clientIp !in ClientIps(sys.shared.rows, t)
  {
    assert HandlerOk(sys.shared, sys.handlers[h]);
    assert SameTarget(sys.shared.targets[t], sys.handlers[h].cpc.net);
    assert NetworkOf(sys.handlers[h].cpc.net) == NetworkOf(sys.shared.targets[t]);
    assert Dense(sys.shared, t);
    ScanOfDense(sys.shared, t);
  }

  /**
   A device that has a row and scans all the same, because its lookup failed, ends with an
   address that nobody leases: no other handler has to move.
   */
  lemma FailedLookupMisleads(sys: Sys, h: Conn, t: string, d: string, id: string, found: Connection)
    requires Inv(sys) && ScansAgain(sys, h, t, d, found) && HasRoom(sys.shared, t) && id != ""
    ensures var now := Step(Step(sys, Answered(h, Uuid(id))), Answered(h, Row(Some(found))));
            && now.shared == sys.shared && h in now.handlers
            && now.handlers[h].Connecting? && now.handlers[h].cpc.FindServer?
            && now.handlers[h].target == t && now.handlers[h].device == d
            && var ip := now.handlers[h].cpc.c.clientIp;
               ip !in ClientIps(now.shared.rows, t) && !Leased(now.shared.rows, t, d, ip)
  {
    ScanAgainPicks(sys, h, t, d, id, found);
    var picked := Step(sys, Answered(h, Uuid(id)));
    FreeIsNotLeased(sys.shared.rows, t, d, picked.handlers[h].cpc.c.clientIp);
    assert Possible(picked.shared, picked.handlers[h], Row(Some(found)));
    assert found.id != "";
  }

  /** One created and served target, and one device that has connected up to its insert. */
  lemma OneLeased() returns (events: seq<Event>)
    ensures var now := Run(EMPTY, events);
            && now.handlers.Keys == {0, 1}
            && now.shared.rows.Keys == {"id1"} && now.shared.rows["id1"].target == "t"
            && now.shared.rows["id1"].deviceId == "d1"
            && "t" in now.shared.targets && SameTarget(NewTarget("t", "owner"), now.shared.targets["t"])
            && TargetServerAlive(now.shared, Some(now.shared.targets["t"]))
  {
    assert Run(EMPTY, []) == EMPTY;
    events := RunOneMore(EMPTY, [], Create("t", "owner", NoFault));
    events := ServeUp(EMPTY, events, 0, "t");
    events := ConnectUpToScan(EMPTY, events, 1, "t", "d1", "key1");
    var ready := Run(EMPTY, events);
    EmptyReachable(events);
    RoomAtFirst(ready, "t");
    events := RunOneMore(EMPTY, events, Answered(1, Uuid("id1")));
    ScanPicks(ready, 1, "t", "d1", "id1");
    var picked := Run(EMPTY, events);
    CheckThenInsert(picked, 1, "t", "d1", "id1", picked.handlers[1].cpc.c.clientIp);
    RunConcat(EMPTY, events, CheckAndInsert(1));
    events := events + CheckAndInsert(1);
    assert Inserts(map[], picked.handlers[1].cpc.c);
  }

  lemma RoomForTwo(events: seq<Event>)
    requires var s := Run(EMPTY, events).shared;
             && s.rows.Keys == {"id1"} && "t" in s.targets && SameTarget(NewTarget("t", "owner"), s.targets["t"])
    ensures HasRoom(Run(EMPTY, events).shared, "t")
  {
    var s := Run(EMPTY, events).shared;
    DefaultNetwork(s.targets["t"]);
    EmptyReachable(events);
    assert Dense(s, "t");
    ScanOfDense(s, "t");
    assert Ids(s.rows, "t") <= {"id1"};
    SubsetIsSmaller(Ids(s.rows, "t"), {"id1"});
  }

  lemma SubsetIsSmaller(a: set<string>, b: set<string>)
    requires a <= b
    ensures |a| <= |b|
  {
    assert b == a + (b - a);
  }

  /**
   A whole run with one device only: it connects, connects again while its lookup fails, and
   is about to announce an address that nobody leases.
   */
  lemma FailedLookupFromScratch() returns (events: seq<Event>)
    ensures var now := Run(EMPTY, events);
            && 2 in now.handlers && now.handlers[2].Connecting? && now.handlers[2].cpc.FindServer?
            && now.handlers[2].target == "t" && now.handlers[2].device == "d1"
            && HasDevice(now.shared.rows, "t", "d1")
            && now.handlers[2].cpc.c.clientIp !in ClientIps(now.shared.rows, "t")
  {
    events := OneLeased();
    EmptyReachable(events);
    RoomForTwo(events);
    events := ConnectUpToLookup(EMPTY, events, 2, "t", "d1", "new key");
    events := LookupUpToScan(EMPTY, events, 2, "t", "d1", Fails);
    var now := Run(EMPTY, events);
    var found := now.shared.rows["id1"];
    EmptyReachable(events);
    assert found.id == "id1";
    FailedLookupMisleads(now, 2, "t", "d1", "id2", found);
    events := RunOneMore(EMPTY, events, Answered(2, Uuid("id2")));
    events := RunOneMore(EMPTY, events, Answered(2, Row(Some(found))));
  }
}
