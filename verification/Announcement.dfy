/**
 What handlers tell the daemons at the other end.

 A connect handler instructs its client with columns of the target it loaded and of the row it
 carries; a serve handler instructs its daemon with columns of the target and with peers.  The
 row's prefix length comes from the target, its address from the target's network, and the
 server columns were seen to be set before the handler went on.
 */
module Announcement {
  import opened Wrappers
  import opened Ipv4
  import opened Database
  import opened ConnectionManagement
  import opened Allocation
  import opened Protocol
  import opened ProtocolInvariant
  import opened ProtocolTheorems

  // ---------- the rows' prefix lengths ----------

  /** Every row has the prefix length of its target. */
  predicate RowsHaveCidr(s: Shared) {
    forall id :: id in s.rows && s.rows[id].target in s.targets ==>
      s.rows[id].clientCidr == s.targets[s.rows[id].target].networkCidr
  }

  /** An address of the target's network, after the network address. */
  ghost predicate InNetwork(s: Shared, t: string, ip: string) {
    && t in s.targets && NetworkOf(s.targets[t]).Some?
    && exists a: Addr :: ip == Show(a) && NetworkOf(s.targets[t]).value.addr < a
                         && Contains(NetworkOf(s.targets[t]).value, a)
  }

  // ---------- what a handler carries ----------

  /** Has the handler got past the test whether the server is alive? */
  predicate Past(pc: ConnectPc) {
    !pc.LoadTarget? && !pc.CheckAlive? && !pc.Stopped?
  }

  predicate HasRow(pc: ConnectPc) {
    Past(pc) && !pc.FetchKey? && !pc.Lookup? && !pc.LoadNetwork? && !pc.Scan?
  }

  predicate ServerSet(known: Target) {
    known.serverPubkey != "" && known.serverPublicIp != "" && known.serverPublicVpnPort != ""
  }

  ghost predicate RowFits(s: Shared, t: string, c: Connection) {
    t in s.targets && c.clientCidr == s.targets[t].networkCidr && InNetwork(s, t, c.clientIp)
  }

  ghost predicate CarriesOk(s: Shared, handler: Handler) {
    handler.Connecting? && HasRow(handler.cpc) ==> RowFits(s, handler.target, handler.cpc.c)
  }

  ghost predicate AllCarryOk(sys: Sys) {
    forall h :: h in sys.handlers ==> CarriesOk(sys.shared, sys.handlers[h])
  }

  // ---------- one step ----------

  lemma OthersCarryOk(s: Shared, s': Shared, handler: Handler)
    requires Grows(s, s') && CarriesOk(s, handler)
    ensures CarriesOk(s', handler)
  {
    if handler.Connecting? && HasRow(handler.cpc) {
      assert SameTarget(s.targets[handler.target], s'.targets[handler.target]);
    }
  }

  /** The row of a target lies in its network. */
  lemma RowsAreInNetwork(s: Shared, id: string)
    requires TablesOk(s) && id in s.rows
    ensures InNetwork(s, s.rows[id].target, s.rows[id].clientIp)
  {
    var t, ip := s.rows[id].target, s.rows[id].clientIp;
    assert Dense(s, t);
    assert id in Ids(s.rows, t) && ip in ClientIps(s.rows, t);
    var p, n := NetworkOf(s.targets[t]).value, |Ids(s.rows, t)|;
    FirstTextsMeaning(p, n, ip);
    var a: Addr :| p.addr < a <= p.addr + n && ip == Show(a);
    WithinCapacity(p, n, a);
  }

  lemma WithinCapacity(p: Prefix, n: nat, a: Addr)
    requires n <= Capacity(p) && p.addr < a <= p.addr + n
    ensures Contains(p, a)
  {
    var _ := IndexOf(p, a);
  }

  lemma PickIsInNetwork(s: Shared, t: string, ip: string)
    requires t in s.targets && NetworkOf(s.targets[t]).Some?
    requires NextFree(NetworkOf(s.targets[t]).value, ClientIps(s.rows, t)) == Some(ip)
    ensures InNetwork(s, t, ip)
  {
    var p, taken := NetworkOf(s.targets[t]).value, ClientIps(s.rows, t);
    NextFreeMeaning(p, taken, 0);
    var a: Addr :| ip == Show(a);
    NextFreeMeaning(p, taken, a);
  }

  /** The target a handler goes on with has its server columns set. */
  lemma KnownStaysSet(s: Shared, h: Conn, target: string, device: string, pc: ConnectPc, a: Answer)
    requires Past(pc) ==> ServerSet(pc.known)
    ensures var pc' := ConnectStep(s, h, target, device, pc, a).1; Past(pc') ==> ServerSet(pc'.known)
  {
  }

  /** Where a row comes from: the table, the scan, or the step before. */
  lemma RowOrigin(s: Shared, h: Conn, target: string, device: string, pc: ConnectPc, a: Answer)
    requires ConnectOk(s, target, device, pc) && Possible(s, Connecting(target, device, pc), a)
    ensures var pc' := ConnectStep(s, h, target, device, pc, a).1;
            HasRow(pc') ==>
              || (HasRow(pc) && pc'.c.clientCidr == pc.c.clientCidr && pc'.c.clientIp == pc.c.clientIp)
              || (pc.Lookup? && pc'.c.id in s.rows && s.rows[pc'.c.id] == pc'.c && pc'.c.target == target)
              || (pc.Scan? && pc'.c.clientCidr == pc.net.networkCidr && NetworkOf(pc.net).Some?
                  && NextFree(NetworkOf(pc.net).value, ClientIps(s.rows, target)) == Some(pc'.c.clientIp))
  {
  }

  lemma MovedRowFits(s: Shared, h: Conn, target: string, device: string, pc: ConnectPc, a: Answer)
    requires TablesOk(s) && ConnectOk(s, target, device, pc) && RowsHaveCidr(s)
    requires Possible(s, Connecting(target, device, pc), a)
    requires HasRow(pc) ==> RowFits(s, target, pc.c)
    ensures var pc' := ConnectStep(s, h, target, device, pc, a).1; HasRow(pc') ==> RowFits(s, target, pc'.c)
  {
    var pc' := ConnectStep(s, h, target, device, pc, a).1;
    RowOrigin(s, h, target, device, pc, a);
    if HasRow(pc') && !HasRow(pc) {
      if pc.Lookup? {
        RowsAreInNetwork(s, pc'.c.id);
      } else {
        assert SameTarget(s.targets[target], pc.net);
        PickIsInNetwork(s, target, pc'.c.clientIp);
      }
    }
  }

  /** A row that appears has the prefix length of its target; the others keep theirs. */
  lemma WriteKeepsCidr(s: Shared, s': Shared, c: Connection)
    requires TablesOk(s) && RowsHaveCidr(s) && Grows(s, s') && c.target in s.targets
    requires c.clientCidr == s.targets[c.target].networkCidr
    requires forall id :: id in s'.rows && id !in s.rows ==> s'.rows[id] == c
    ensures RowsHaveCidr(s')
  {
    forall id | id in s'.rows && s'.rows[id].target in s'.targets
      ensures s'.rows[id].clientCidr == s'.targets[s'.rows[id].target].networkCidr
    {
      if id in s.rows {
        OldRowKeepsCidr(s, s', id);
      } else {
        assert SameTarget(s.targets[c.target], s'.targets[c.target]);
      }
    }
  }

  lemma OldRowKeepsCidr(s: Shared, s': Shared, id: string)
    requires TablesOk(s) && RowsHaveCidr(s) && Grows(s, s') && id in s.rows
    ensures id in s'.rows && s'.rows[id].target in s'.targets
    ensures s'.rows[id].clientCidr == s'.targets[s'.rows[id].target].networkCidr
  {
    RowsAreInNetwork(s, id);
    assert SameRow(s.rows[id], s'.rows[id]);
    assert SameTarget(s.targets[s.rows[id].target], s'.targets[s.rows[id].target]);
  }

  lemma NoNewRowKeepsCidr(s: Shared, s': Shared)
    requires TablesOk(s) && RowsHaveCidr(s) && Grows(s, s') && s'.rows.Keys <= s.rows.Keys
    ensures RowsHaveCidr(s')
  {
    forall id | id in s'.rows && s'.rows[id].target in s'.targets
      ensures s'.rows[id].clientCidr == s'.targets[s'.rows[id].target].networkCidr
    {
      OldRowKeepsCidr(s, s', id);
    }
  }

  /** The only new row of a step is the one that an insert carries. */
  lemma NewRowIsCarried(sys: Sys, ev: Event)
    requires Inv(sys)
    ensures var rows, rows' := sys.shared.rows, Step(sys, ev).shared.rows;
            if ev.Answered? && Enabled(sys, ev) && sys.handlers[ev.h].Connecting? && sys.handlers[ev.h].cpc.Insert?
            then forall id :: id in rows' && id !in rows ==> rows'[id] == sys.handlers[ev.h].cpc.c
            else rows'.Keys <= rows.Keys
  {
    if ev.Answered? && Enabled(sys, ev) {
      var handler := sys.handlers[ev.h];
      assert HandlerOk(sys.shared, handler);
      HandlerStepRows(sys.shared, ev.h, handler, ev.answer);
    }
  }

  lemma StepRowsHaveCidr(sys: Sys, ev: Event)
    requires Inv(sys) && RowsHaveCidr(sys.shared) && AllCarryOk(sys)
    ensures RowsHaveCidr(Step(sys, ev).shared)
  {
    var s, s' := sys.shared, Step(sys, ev).shared;
    StepInv(sys, ev);
    NewRowIsCarried(sys, ev);
    if ev.Answered? && Enabled(sys, ev) && sys.handlers[ev.h].Connecting? && sys.handlers[ev.h].cpc.Insert? {
      var handler := sys.handlers[ev.h];
      assert HandlerOk(s, handler) && CarriesOk(s, handler);
      WriteKeepsCidr(s, s', handler.cpc.c);
    } else {
      NoNewRowKeepsCidr(s, s');
    }
  }

  lemma StepCarriesOk(sys: Sys, ev: Event, h: Conn)
    requires Inv(sys) && RowsHaveCidr(sys.shared) && AllCarryOk(sys)
    requires h in Step(sys, ev).handlers
    ensures CarriesOk(Step(sys, ev).shared, Step(sys, ev).handlers[h])
  {
    var s, sys' := sys.shared, Step(sys, ev);
    StepInv(sys, ev);
    if h in sys.handlers {
      assert HandlerOk(s, sys.handlers[h]) && CarriesOk(s, sys.handlers[h]);
      if ev.Answered? && ev.h == h && Enabled(sys, ev) && sys.handlers[h].Connecting? {
        var handler := sys.handlers[h];
        MovedRowFits(s, h, handler.target, handler.device, handler.cpc, ev.answer);
        assert CarriesOk(s, sys'.handlers[h]);
      }
      OthersCarryOk(s, sys'.shared, sys'.handlers[h]);
    }
  }

  // ---------- every run ----------

  lemma {:induction false} RunCarriesOk(sys: Sys, events: seq<Event>)
    requires Starts(sys) && RowsHaveCidr(sys.shared)
    ensures RowsHaveCidr(Run(sys, events).shared) && AllCarryOk(Run(sys, events))
    decreases |events|
  {
    if events != [] {
      var front, ev := events[..|events| - 1], events[|events| - 1];
      RunCarriesOk(sys, front);
      Reachable(sys, front);
      StepRowsHaveCidr(Run(sys, front), ev);
      forall h | h in Run(sys, events).handlers
        ensures CarriesOk(Run(sys, events).shared, Run(sys, events).handlers[h])
      {
        StepCarriesOk(Run(sys, front), ev, h);
      }
    }
  }

  /** In every run, from the second check on a handler carries its target's prefix length, and so does every row. */
  lemma PrefixLengthIsTheTargets(sys: Sys, events: seq<Event>)
    requires Starts(sys) && RowsHaveCidr(sys.shared)
    ensures var now := Run(sys, events);
            && (forall id :: id in now.shared.rows ==>
                  && now.shared.rows[id].target in now.shared.targets
                  && now.shared.rows[id].clientCidr == now.shared.targets[now.shared.rows[id].target].networkCidr)
            && (forall h :: h in now.handlers && now.handlers[h].Connecting? && HasRow(now.handlers[h].cpc) ==>
                  && now.handlers[h].target in now.shared.targets
                  && now.handlers[h].cpc.c.clientCidr == now.shared.targets[now.handlers[h].target].networkCidr)
  {
    RunCarriesOk(sys, events);
    Reachable(sys, events);
    var now := Run(sys, events);
    forall id | id in now.shared.rows
      ensures now.shared.rows[id].target in now.shared.targets
      ensures now.shared.rows[id].clientCidr == now.shared.targets[now.shared.rows[id].target].networkCidr
    {
      RowsAreInNetwork(now.shared, id);
    }
    forall h | h in now.handlers && now.handlers[h].Connecting? && HasRow(now.handlers[h].cpc)
      ensures now.handlers[h].target in now.shared.targets
      ensures now.handlers[h].cpc.c.clientCidr == now.shared.targets[now.handlers[h].target].networkCidr
    {
      assert CarriesOk(now.shared, now.handlers[h]);
    }
  }

  /** In every run, a handler past the test knows a target whose three server columns are set. */
  lemma {:induction false} KnownServerIsSet(sys: Sys, events: seq<Event>, h: Conn)
    requires Starts(sys)
    requires var handlers := Run(sys, events).handlers;
             h in handlers && handlers[h].Connecting? && Past(handlers[h].cpc)
    ensures var known := Run(sys, events).handlers[h].cpc.known;
            known.serverPubkey != "" && known.serverPublicIp != "" && known.serverPublicVpnPort != ""
    decreases |events|
  {
    var front, ev := events[..|events| - 1], events[|events| - 1];
    var before := Run(sys, front);
    if h in before.handlers && before.handlers[h].Connecting? && Past(before.handlers[h].cpc) {
      KnownServerIsSet(sys, front, h);
    }
    KnownStepSet(before, ev, h);
  }

  lemma KnownStepSet(sys: Sys, ev: Event, h: Conn)
    requires h in sys.handlers && sys.handlers[h].Connecting? && Past(sys.handlers[h].cpc) ==>
      ServerSet(sys.handlers[h].cpc.known)
    requires h in Step(sys, ev).handlers && Step(sys, ev).handlers[h].Connecting? && Past(Step(sys, ev).handlers[h].cpc)
    ensures ServerSet(Step(sys, ev).handlers[h].cpc.known)
  {
    if ev.Answered? && ev.h == h && Enabled(sys, ev) {
      var handler := sys.handlers[h];
      KnownStaysSet(sys.shared, h, handler.target, handler.device, handler.cpc, ev.answer);
    }
  }

  /**
   In every run, what a client is told: a server whose key, address and port are set, the
   target's DNS server and prefix length, an address of the target's network, and the row's key.
   */
  lemma ClientIsToldItsNetwork(sys: Sys, events: seq<Event>, h: Conn)
    requires Starts(sys) && RowsHaveCidr(sys.shared)
    requires var handlers := Run(sys, events).handlers;
             h in handlers && handlers[h].Connecting? && handlers[h].cpc.Instruct?
    ensures var s, handler := Run(sys, events).shared, Run(sys, events).handlers[h];
            var told := ConnectRequest(handler.cpc.known, handler.cpc.c);
            && handler.target in s.targets
            && told.serverPublicKey != "" && told.serverIp != "" && told.serverPort != ""
            && told.dnsIp == s.targets[handler.target].dnsIp
            && told.clientCidr == s.targets[handler.target].networkCidr
            && told.clientPublicKey == handler.cpc.c.pubkey && told.clientIp == handler.cpc.c.clientIp
            && InNetwork(s, handler.target, told.clientIp)
  {
    RunCarriesOk(sys, events);
    KnownServerIsSet(sys, events, h);
    Reachable(sys, events);
    var s, handler := Run(sys, events).shared, Run(sys, events).handlers[h];
    assert HandlerOk(s, handler) && CarriesOk(s, handler);
  }

  /** For a target on 10.8.0.1/23, address and length together are a prefix of the same block. */
  lemma ToldPrefixReads(s: Shared, t: string, ip: string, cidr: string) returns (a: Addr)
    requires InNetwork(s, t, ip) && cidr == s.targets[t].networkCidr
    requires s.targets[t].networkIp == "10.8.0.1" && s.targets[t].networkCidr == "/23"
    ensures ip == Show(a) && ParsePrefix(ip + cidr) == Some(Prefix(a, 23))
    ensures 0x0A08_0001 < a && Contains(Prefix(0x0A08_0001, 23), a)
  {
    DefaultNetwork(s.targets[t]);
    a :| ip == Show(a) && 0x0A08_0001 < a && Contains(Prefix(0x0A08_0001, 23), a);
    ReadsBack(a);
  }

  lemma ReadsBack(a: Addr)
    ensures ParsePrefix(Show(a) + "/23") == Some(Prefix(a, 23))
  {
    ParsePrefixOf(a, "23");
    assert "/23" == "/" + "23";
  }

  /** In every run, a new server is told the internal address that its target has had from the start. */
  lemma ServerIsToldItsAddress(sys: Sys, events: seq<Event>, h: Conn)
    requires Starts(sys)
    requires var handlers := Run(sys, events).handlers;
             h in handlers && handlers[h].Serving? && handlers[h].spc.InstructServe?
    ensures var s, handler := Run(sys, events).shared, Run(sys, events).handlers[h];
            var told := ServeRequest(handler.spc.known, handler.spc.peers);
            && handler.target in s.targets
            && told.serverInternalIp == s.targets[handler.target].serverInternalIp
            && told.serverInternalCidr == s.targets[handler.target].serverInternalCidr
            && told.serverPublicKey == handler.spc.known.serverPubkey
            && told.serverPublicVpnPort == handler.spc.known.serverPublicVpnPort && told.peers == handler.spc.peers
  {
    Reachable(sys, events);
    assert HandlerOk(Run(sys, events).shared, Run(sys, events).handlers[h]);
  }
}
