/**
 What appending a peer does to the mirror of the table in every interleaving.

 Under racing handlers, or after a lookup that failed, a server's map and the table may differ.
 Here is exactly when an append leaves them equal, at its own address and everywhere, and two
 runs from an empty control plane after which they are not.
 */
module MirrorRace {
  import opened Database
  import opened ConnectionManagement
  import opened Peers
  import opened Protocol
  import opened ProtocolInvariant
  import opened ProtocolTheorems
  import opened PeerMirror
  import opened OwnAddress
  import opened AddressRace

  // ---------- exactly when an append mirrors ----------

  /** A handler about to make the call, and an answer with which it takes effect. */
  ghost predicate Appends(sys: Sys, h: Conn, a: Answer) {
    && h in sys.handlers && sys.handlers[h].Connecting? && sys.handlers[h].cpc.Append?
    && Possible(sys.shared, sys.handlers[h], a) && !a.Fails?
  }

  lemma AppendEffect(sys: Sys, h: Conn, a: Answer)
    requires Appends(sys, h, a)
    ensures var s, s', c, conn := sys.shared, Step(sys, Answered(h, a)).shared, sys.handlers[h].cpc.c,
                                  sys.handlers[h].cpc.conn;
            s'.rows == s.rows && DeviceOf(s', conn) == DeviceOf(s, conn)[c.clientIp := c.pubkey]
  {
    AppendOne(DeviceOf(sys.shared, sys.handlers[h].cpc.conn), sys.handlers[h].cpc.c);
  }

  /** At most one row speaks about an address. */
  lemma RowsAgree(rows: Connections, t: string, ip: string, key: string)
    requires AddressesUnique(rows) && Keyed(rows) && RowSays(rows, t, ip, key)
    ensures forall k :: RowSays(rows, t, ip, k) <==> k == key
  {
    var id :| id in Ids(rows, t) && rows[id].clientIp == ip && rows[id].pubkey == key;
    StoredRowSays(rows, rows[id]);
  }

  /** At its own address an append mirrors the table exactly when some row holds that address and key. */
  lemma AppendMirrorsAtIff(sys: Sys, h: Conn, a: Answer)
    requires Inv(sys) && Appends(sys, h, a)
    ensures var s', c, conn := Step(sys, Answered(h, a)).shared, sys.handlers[h].cpc.c, sys.handlers[h].cpc.conn;
            MirrorsAt(DeviceOf(s', conn), s'.rows, c.target, c.clientIp) <==>
            RowSays(sys.shared.rows, c.target, c.clientIp, c.pubkey)
  {
    AppendEffect(sys, h, a);
    var s', c, conn := Step(sys, Answered(h, a)).shared, sys.handlers[h].cpc.c, sys.handlers[h].cpc.conn;
    assert Owns(DeviceOf(s', conn), c.clientIp, c.pubkey);
    if RowSays(s'.rows, c.target, c.clientIp, c.pubkey) {
      RowsAgree(s'.rows, c.target, c.clientIp, c.pubkey);
    }
  }

  /** Everywhere: exactly when, besides, the map mirrored the table at every other address before. */
  lemma AppendMirrorsIff(sys: Sys, h: Conn, a: Answer)
    requires Inv(sys) && Appends(sys, h, a)
    ensures var s, s', c, conn := sys.shared, Step(sys, Answered(h, a)).shared, sys.handlers[h].cpc.c,
                                  sys.handlers[h].cpc.conn;
            Mirrors(DeviceOf(s', conn), s'.rows, c.target) <==>
            && RowSays(s.rows, c.target, c.clientIp, c.pubkey)
            && forall ip :: ip != c.clientIp ==> MirrorsAt(DeviceOf(s, conn), s.rows, c.target, ip)
  {
    AppendEffect(sys, h, a);
    AppendMirrorsAtIff(sys, h, a);
    var s, s', c, conn := sys.shared, Step(sys, Answered(h, a)).shared, sys.handlers[h].cpc.c, sys.handlers[h].cpc.conn;
    var m, m' := DeviceOf(s, conn), DeviceOf(s', conn);
    forall ip | ip != c.clientIp
      ensures MirrorsAt(m', s'.rows, c.target, ip) <==> MirrorsAt(m, s.rows, c.target, ip)
    {
      assert forall key :: Owns(m', ip, key) <==> Owns(m, ip, key);
    }
    MirrorsByAddress(m', s'.rows, c.target);
  }

  lemma MirrorsByAddress(m: AllowedIps, rows: Connections, t: string)
    ensures Mirrors(m, rows, t) <==> forall ip :: MirrorsAt(m, rows, t, ip)
  {
    if Mirrors(m, rows, t) {
      forall ip
        ensures MirrorsAt(m, rows, t, ip)
      {
      }
    }
    if forall ip :: MirrorsAt(m, rows, t, ip) {
      forall ip, key
        ensures Owns(m, ip, key) <==> RowSays(rows, t, ip, key)
      {
        assert MirrorsAt(m, rows, t, ip);
      }
    }
  }

  // ---------- and whose address it is ----------

  /** Does the row that leases this address to this device hold this key? */
  predicate DeviceSays(rows: Connections, t: string, d: string, ip: string, key: string) {
    exists id :: id in rows && rows[id].target == t && rows[id].deviceId == d
                 && rows[id].clientIp == ip && rows[id].pubkey == key
  }

  /** Does another device's row hold this address and this very key? */
  predicate OtherSays(rows: Connections, t: string, d: string, ip: string, key: string) {
    exists id :: id in rows && rows[id].target == t && rows[id].deviceId != d
                 && rows[id].clientIp == ip && rows[id].pubkey == key
  }

  lemma SaysByDevice(rows: Connections, t: string, d: string, ip: string, key: string)
    requires AddressesUnique(rows)
    ensures RowSays(rows, t, ip, key) <==>
      if Leased(rows, t, d, ip) then DeviceSays(rows, t, d, ip, key) else OtherSays(rows, t, d, ip, key)
  {
    if RowSays(rows, t, ip, key) {
      var id :| id in Ids(rows, t) && rows[id].clientIp == ip && rows[id].pubkey == key;
      assert rows[id].deviceId == d ==> DeviceSays(rows, t, d, ip, key);
      assert rows[id].deviceId != d ==> OtherSays(rows, t, d, ip, key);
      if Leased(rows, t, d, ip) {
        var i :| i in rows && rows[i].target == t && rows[i].deviceId == d && rows[i].clientIp == ip;
        assert i == id;
      }
    }
    if DeviceSays(rows, t, d, ip, key) {
      var id :| id in rows && rows[id].target == t && rows[id].deviceId == d
        && rows[id].clientIp == ip && rows[id].pubkey == key;
      assert id in Ids(rows, t);
    }
    if OtherSays(rows, t, d, ip, key) {
      var id :| id in rows && rows[id].target == t && rows[id].deviceId != d
        && rows[id].clientIp == ip && rows[id].pubkey == key;
      assert id in Ids(rows, t);
    }
  }

  /**
   In every run, for every append: it mirrors the table at its address exactly when, if the
   handler's address was its device's own when it settled, at event n, or has been given to it
   since, the device's row still holds the key; and otherwise exactly when the device that has
   the address has the same key.
   */
  lemma AppendMirrorsInRuns(sys: Sys, events: seq<Event>, h: Conn, a: Answer) returns (n: nat)
    requires Starts(sys) && Appends(Run(sys, events), h, a)
    ensures n < |events| && Settles(Run(sys, events[..n]), events[n], h)
    ensures Run(sys, events[..n]).handlers[h].Connecting?
    ensures var before, now, after := Run(sys, events[..n]), Run(sys, events), Step(Run(sys, events), Answered(h, a));
            var t, d, c, conn := now.handlers[h].target, now.handlers[h].device, now.handlers[h].cpc.c,
                                 now.handlers[h].cpc.conn;
            var own := KeepsOwn(before.shared.rows, before.handlers[h], events[n].answer)
                       || GivenSince(sys, events, n + 1, t, d, c.clientIp);
            MirrorsAt(DeviceOf(after.shared, conn), after.shared.rows, t, c.clientIp) <==>
            if own then DeviceSays(now.shared.rows, t, d, c.clientIp, c.pubkey)
            else OtherSays(now.shared.rows, t, d, c.clientIp, c.pubkey)
  {
    var now := Run(sys, events);
    n := OwnAddressIff(sys, events, h);
    Reachable(sys, events);
    var handler := now.handlers[h];
    assert HandlerOk(now.shared, handler);
    AppendMirrorsAtIff(now, h, a);
    SaysByDevice(now.shared.rows, handler.target, handler.device, handler.cpc.c.clientIp, handler.cpc.c.pubkey);
  }

  // ---------- two runs after which they differ ----------

  /** Telling a server of an address and key that no row holds breaks its mirror. */
  lemma AppendBreaksMirror(sys: Sys, h: Conn, a: Answer)
    requires Inv(sys) && Appends(sys, h, a)
    requires var c := sys.handlers[h].cpc.c; !RowSays(sys.shared.rows, c.target, c.clientIp, c.pubkey)
    ensures var s', c, conn := Step(sys, Answered(h, a)).shared, sys.handlers[h].cpc.c, sys.handlers[h].cpc.conn;
            !Mirrors(DeviceOf(s', conn), s'.rows, c.target)
  {
    AppendMirrorsIff(sys, h, a);
  }

  /** A handler with such a peer finds the target's server and makes the call. */
  lemma TellServer(sys: Sys, events: seq<Event>, h: Conn) returns (events': seq<Event>)
    requires var now := Run(sys, events);
             && Inv(now) && h in now.handlers && now.handlers[h].Connecting? && now.handlers[h].cpc.FindServer?
             && var c := now.handlers[h].cpc.c; !RowSays(now.shared.rows, now.handlers[h].target, c.clientIp, c.pubkey)
    ensures var now', t := Run(sys, events'), Run(sys, events).handlers[h].target;
            && t in now'.shared.servers
            && !Mirrors(DeviceOf(now'.shared, now'.shared.servers[t]), now'.shared.rows, t)
  {
    var now := Run(sys, events);
    assert HandlerOk(now.shared, now.handlers[h]);
    events' := RunOneMore(sys, events, Answered(h, Done));
    StepInv(now, Answered(h, Done));
    var ready := Run(sys, events');
    assert ready.shared == now.shared && ready.handlers[h].cpc.Append?;
    assert ready.handlers[h].cpc.c == now.handlers[h].cpc.c;
    AppendBreaksMirror(ready, h, Done);
    events' := RunOneMore(sys, events', Answered(h, Done));
  }

  /** One device, whose lookup failed: the server learns of an address that no row holds. */
  lemma FailedLookupBreaksMirror() returns (events: seq<Event>)
    ensures var s := Run(EMPTY, events).shared;
            "t" in s.servers && !Mirrors(DeviceOf(s, s.servers["t"]), s.rows, "t")
  {
    events := FailedLookupFromScratch();
    EmptyReachable(events);
    var now := Run(EMPTY, events);
    assert HandlerOk(now.shared, now.handlers[2]);
    assert forall id :: id in Ids(now.shared.rows, "t") ==>
        now.shared.rows[id].clientIp in ClientIps(now.shared.rows, "t");
    events := TellServer(EMPTY, events, 2);
  }

  /** Two devices that race: the server gives the first device's address to the second's key. */
  lemma RaceBreaksMirror() returns (events: seq<Event>)
    ensures var s := Run(EMPTY, events).shared;
            "t" in s.servers && !Mirrors(DeviceOf(s, s.servers["t"]), s.rows, "t")
  {
    events := RaceFromScratch();
    EmptyReachable(events);
    var now := Run(EMPTY, events);
    var row := now.shared.rows["id1"];
    assert HandlerOk(now.shared, now.handlers[2]) && row.id == "id1";
    StoredRowSays(now.shared.rows, row);
    events := TellServer(EMPTY, events, 2);
  }
}
