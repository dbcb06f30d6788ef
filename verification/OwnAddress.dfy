/**
 When a handler goes on with an address that is its own.

 A handler settles on an address when it finds its row, when its second check finds one, or
 when its INSERT is done.  The control plane ignores whether the INSERT added a row, and after
 a second check that finds one it keeps its own pick.  Here is exactly when the address is
 leased to the handler's device, as the handler settles and ever after.
 */
module OwnAddress {
  import opened Wrappers
  import opened Database
  import opened ConnectionManagement
  import opened Protocol
  import opened ProtocolInvariant
  import opened ProtocolTheorems

  /** Does the table give this device this address? */
  predicate Leased(rows: Connections, target: string, device: string, ip: string) {
    exists id :: id in rows && rows[id].target == target && rows[id].deviceId == device && rows[id].clientIp == ip
  }

  lemma RunOneMore(sys: Sys, events: seq<Event>, ev: Event) returns (events': seq<Event>)
    ensures events' == events + [ev]
    ensures Run(sys, events') == Step(Run(sys, events), ev)
  {
    events' := events + [ev];
    assert events'[..|events'| - 1] == events;
  }

  // ---------- the three ways to settle ----------

  /** Inserting leases the address if it was free and the id new; a lease from before stays. */
  lemma InsertOutcome(rows: Connections, c: Connection)
    ensures Leased(ConnectionInserted(rows, c), c.target, c.deviceId, c.clientIp) <==>
      || (c.clientIp !in ClientIps(rows, c.target) && c.id !in rows)
      || Leased(rows, c.target, c.deviceId, c.clientIp)
  {
    if Inserts(rows, c) {
      assert ConnectionInserted(rows, c)[c.id] == c;
    }
    if c.clientIp in ClientIps(rows, c.target) && c.id !in rows {
      var id :| id in Ids(rows, c.target) && rows[id].clientIp == c.clientIp;
      assert AddressHeldByOther(rows, c);
    }
    if c.clientIp !in ClientIps(rows, c.target) && c.id !in rows {
      forall id | id in rows && rows[id].target == c.target
        ensures rows[id].clientIp != c.clientIp
      {
        assert id in Ids(rows, c.target);
      }
      assert Inserts(rows, c);
    }
  }

  /**
   The result of the INSERT is ignored, so a handler may go on with an address that is not its
   own.  It goes on with its own address exactly when, before the statement, the address was
   free (and the random id new) or was already leased to the same device.
   */
  lemma InsertRaceOutcome(sys: Sys, events: seq<Event>, h: Conn)
    requires Starts(sys)
    requires var handlers := Run(sys, events).handlers;
             h in handlers && handlers[h].Connecting? && handlers[h].cpc.Insert?
    ensures var before, handler := Run(sys, events).shared.rows, Run(sys, events).handlers[h];
            var after := Run(sys, events + [Answered(h, Done)]).shared.rows;
            var t, d, c := handler.target, handler.device, handler.cpc.c;
            Leased(after, t, d, c.clientIp) <==>
              || (c.clientIp !in ClientIps(before, t) && c.id !in before)
              || Leased(before, t, d, c.clientIp)
  {
    Reachable(sys, events);
    var s, handler := Run(sys, events).shared, Run(sys, events).handlers[h];
    assert HandlerOk(s, handler);
    var _ := RunOneMore(sys, events, Answered(h, Done));
    InsertOutcome(s.rows, handler.cpc.c);
  }

  /** Two rows of a device are one row, so the address of the row found is the device's. */
  lemma LeasedOnlyItsRow(s: Shared, c: Connection, ip: string)
    requires TablesOk(s) && c.id in s.rows && s.rows[c.id] == c
    ensures Leased(s.rows, c.target, c.deviceId, ip) <==> ip == c.clientIp
  {
  }

  /**
   A second check that finds a row ends createConnection, and the handler keeps its own pick:
   it is the device's address exactly when the row found holds that very address.
   */
  lemma RecheckOutcome(sys: Sys, events: seq<Event>, h: Conn, found: Connection)
    requires Starts(sys)
    requires var now := Run(sys, events);
             && h in now.handlers && now.handlers[h].Connecting? && now.handlers[h].cpc.Recheck?
             && Possible(now.shared, now.handlers[h], Row(Some(found)))
    ensures var handler, after := Run(sys, events).handlers[h], Run(sys, events + [Answered(h, Row(Some(found)))]);
            var c := handler.cpc.c;
            && after.shared == Run(sys, events).shared
            && after.handlers[h] == handler.(cpc := FindServer(handler.cpc.known, c, false))
            && (Leased(after.shared.rows, handler.target, handler.device, c.clientIp) <==> found.clientIp == c.clientIp)
  {
    Reachable(sys, events);
    var _ := RunOneMore(sys, events, Answered(h, Row(Some(found))));
    LeasedOnlyItsRow(Run(sys, events).shared, found, Run(sys, events).handlers[h].cpc.c.clientIp);
  }

  /** Has the handler settled on an address, which it announces unless it fails? */
  predicate Settled(handler: Handler) {
    handler.Connecting? && SettledPc(handler.cpc)
  }

  predicate SettledPc(pc: ConnectPc) {
    pc.FindServer? || pc.Append? || pc.ParsePort? || pc.Instruct? || pc.Save? || pc.Blocked?
  }

  /** This event makes h settle. */
  ghost predicate Settles(sys: Sys, ev: Event, h: Conn) {
    && ev.Answered? && ev.h == h && Enabled(sys, ev)
    && !Settled(sys.handlers[h]) && Settled(Step(sys, ev).handlers[h])
  }

  /** What a caller can check before the handler settles: will the address be its device's own? */
  ghost predicate KeepsOwn(rows: Connections, handler: Handler, a: Answer)
    requires handler.Connecting?
  {
    match handler.cpc
    case Insert(_, c) =>
      || (c.clientIp !in ClientIps(rows, handler.target) && c.id !in rows)
      || Leased(rows, handler.target, handler.device, c.clientIp)
    case Recheck(_, c) => a.Row? && a.row.Some? && a.row.value.clientIp == c.clientIp
    case _ => true  // the handler found its row
  }

  /** A handler settles by finding its row, by a second check, or by an INSERT. */
  lemma SettlingConnectStep(s: Shared, h: Conn, t: string, d: string, pc: ConnectPc, a: Answer)
    requires !SettledPc(pc) && SettledPc(ConnectStep(s, h, t, d, pc, a).1)
    ensures var (s', pc') := ConnectStep(s, h, t, d, pc, a);
            && (pc.Lookup? || pc.Resync? || pc.Recheck? || pc.Insert?)
            && (pc.Lookup? || pc.Resync? ==> pc'.recorded)
            && (pc.Recheck? ==> Found(a) && pc'.c == pc.c && s' == s)
            && (pc.Insert? ==> pc'.c == pc.c && s'.rows == ConnectionInserted(s.rows, pc.c))
  {
  }

  lemma SettlingSteps(sys: Sys, ev: Event, h: Conn)
    requires Settles(sys, ev, h)
    ensures var handler, after := sys.handlers[h], Step(sys, ev).handlers[h];
            && handler.Connecting? && after.target == handler.target && after.device == handler.device
            && (Step(sys, ev).shared, after.cpc)
               == ConnectStep(sys.shared, h, handler.target, handler.device, handler.cpc, ev.answer)
  {
  }

  /** As it settles, a handler's address is its own exactly when KeepsOwn says so. */
  lemma SettlingOutcome(sys: Sys, ev: Event, h: Conn)
    requires Inv(sys) && Settles(sys, ev, h)
    ensures var after, handler' := Step(sys, ev), Step(sys, ev).handlers[h];
            Leased(after.shared.rows, handler'.target, handler'.device, handler'.cpc.c.clientIp)
            <==> KeepsOwn(sys.shared.rows, sys.handlers[h], ev.answer)
  {
    SettlingSteps(sys, ev, h);
    StepInv(sys, ev);
    var handler, after := sys.handlers[h], Step(sys, ev);
    SettlingConnectStep(sys.shared, h, handler.target, handler.device, handler.cpc, ev.answer);
    assert HandlerOk(sys.shared, handler) && HandlerOk(after.shared, after.handlers[h]);
    if handler.cpc.Insert? {
      InsertOutcome(sys.shared.rows, handler.cpc.c);
    } else if handler.cpc.Recheck? {
      LeasedOnlyItsRow(sys.shared, ev.answer.row.value, handler.cpc.c.clientIp);
    } else {
      SettledOnItsRow(after.shared, after.handlers[h]);
    }
  }

  lemma SettledOnItsRow(s: Shared, handler: Handler)
    requires Settled(handler) && HandlerOk(s, handler) && handler.cpc.recorded
    ensures Leased(s.rows, handler.target, handler.device, handler.cpc.c.clientIp)
  {
    assert HoldsRow(s, handler.cpc.c);
  }

  // ---------- and for ever after ----------

  lemma LeasedStays(s: Shared, s': Shared, t: string, d: string, ip: string)
    requires Grows(s, s') && Leased(s.rows, t, d, ip)
    ensures Leased(s'.rows, t, d, ip)
  {
    var id :| id in s.rows && s.rows[id].target == t && s.rows[id].deviceId == d && s.rows[id].clientIp == ip;
    assert SameRow(s.rows[id], s'.rows[id]);
  }

  /** A row with the device and another address, or the address and another device, rules a lease out. */
  lemma NeverLeased(s: Shared, s': Shared, t: string, d: string, ip: string, id: string)
    requires Grows(s, s') && TablesOk(s') && id in s.rows && s.rows[id].target == t
    requires (s.rows[id].deviceId == d) != (s.rows[id].clientIp == ip)
    ensures !Leased(s'.rows, t, d, ip)
  {
    assert SameRow(s.rows[id], s'.rows[id]);
  }

  /** A settled handler keeps its address until it stops. */
  lemma SettledStays(sys: Sys, ev: Event, h: Conn)
    requires h in sys.handlers && Settled(sys.handlers[h])
    ensures h in Step(sys, ev).handlers
    ensures var handler, handler' := sys.handlers[h], Step(sys, ev).handlers[h];
            Settled(handler') ==>
              handler'.target == handler.target && handler'.device == handler.device && handler'.cpc.c == handler.cpc.c
  {
  }

  /** Event n made h settle, on the address that it still has. */
  ghost predicate SettledBy(sys: Sys, events: seq<Event>, h: Conn, n: nat) {
    && n < |events| && Settles(Run(sys, events[..n]), events[n], h)
    && h in Run(sys, events).handlers && Settled(Run(sys, events).handlers[h])
    && var after, now := Step(Run(sys, events[..n]), events[n]), Run(sys, events);
       && Grows(after.shared, now.shared)
       && after.handlers[h].target == now.handlers[h].target && after.handlers[h].device == now.handlers[h].device
       && after.handlers[h].cpc.c == now.handlers[h].cpc.c
  }

  lemma SettledByStays(sys: Sys, events: seq<Event>, h: Conn, n: nat)
    requires Starts(sys) && events != [] && SettledBy(sys, events[..|events| - 1], h, n)
    requires h in Run(sys, events).handlers && Settled(Run(sys, events).handlers[h])
    ensures SettledBy(sys, events, h, n)
  {
    var front, ev := events[..|events| - 1], events[|events| - 1];
    var before := Run(sys, front);
    Reachable(sys, front);
    StepInv(before, ev);
    SettledStays(before, ev, h);
    assert events[..n] == front[..n];
    GrowsTransitive(Step(Run(sys, front[..n]), front[n]).shared, before.shared, Run(sys, events).shared);
  }

  /** A settled handler has settled at some event, with the address that it still has. */
  lemma {:induction false} SettledAt(sys: Sys, events: seq<Event>, h: Conn) returns (n: nat)
    requires Starts(sys)
    requires h in Run(sys, events).handlers && Settled(Run(sys, events).handlers[h])
    ensures SettledBy(sys, events, h, n)
    decreases |events|
  {
    n := |events| - 1;
    var before := Run(sys, events[..n]);
    if h in before.handlers && Settled(before.handlers[h]) {
      var m := SettledAt(sys, events[..n], h);
      SettledByStays(sys, events, h, m);
      n := m;
    } else {
      SettlesNow(before, events[n], h);
    }
  }

  lemma SettlesNow(sys: Sys, ev: Event, h: Conn)
    requires h in Step(sys, ev).handlers && Settled(Step(sys, ev).handlers[h])
    requires h in sys.handlers ==> !Settled(sys.handlers[h])
    ensures Settles(sys, ev, h)
  {
  }

  // ---------- when a lease appears ----------

  /** This event inserts a row that leases the address to the device. */
  ghost predicate Gives(sys: Sys, ev: Event, t: string, d: string, ip: string) {
    && ev.Answered? && Enabled(sys, ev) && !ev.answer.Fails?
    && sys.handlers[ev.h].Connecting? && sys.handlers[ev.h].target == t && sys.handlers[ev.h].device == d
    && sys.handlers[ev.h].cpc.Insert? && sys.handlers[ev.h].cpc.c.clientIp == ip
    && Inserts(sys.shared.rows, sys.handlers[ev.h].cpc.c)
  }

  ghost predicate GivenSince(sys: Sys, events: seq<Event>, n: nat, t: string, d: string, ip: string) {
    exists m :: n <= m && GivenAt(sys, events, m, t, d, ip)
  }

  ghost predicate GivenAt(sys: Sys, events: seq<Event>, m: nat, t: string, d: string, ip: string) {
    m < |events| && Gives(Run(sys, events[..m]), events[m], t, d, ip)
  }

  lemma LeaseAppears(sys: Sys, ev: Event, t: string, d: string, ip: string)
    requires Inv(sys)
    ensures Leased(Step(sys, ev).shared.rows, t, d, ip) <==>
      Leased(sys.shared.rows, t, d, ip) || Gives(sys, ev, t, d, ip)
  {
    if ev.Answered? && Enabled(sys, ev) {
      var handler := sys.handlers[ev.h];
      assert HandlerOk(sys.shared, handler);
      HandlerStepRows(sys.shared, ev.h, handler, ev.answer);
      if handler.Connecting? && handler.cpc.Insert? && !ev.answer.Fails? {
        InsertLeases(sys.shared.rows, handler.cpc.c, t, d, ip);
      } else if handler.Connecting? && handler.cpc.Resync? && !ev.answer.Fails? {
        ResyncLeases(sys.shared, handler.cpc.c, handler.cpc.key, t, d, ip);
      }
    }
  }

  lemma InsertLeases(rows: Connections, c: Connection, t: string, d: string, ip: string)
    ensures Leased(ConnectionInserted(rows, c), t, d, ip) <==>
      || Leased(rows, t, d, ip)
      || (Inserts(rows, c) && c.target == t && c.deviceId == d && c.clientIp == ip)
  {
    if Inserts(rows, c) {
      var rows' := ConnectionInserted(rows, c);
      assert rows'[c.id] == c && forall id :: id in rows ==> rows'[id] == rows[id];
    }
  }

  lemma ResyncLeases(s: Shared, c: Connection, key: string, t: string, d: string, ip: string)
    requires HoldsRow(s, c)
    ensures Leased(ConnectionUpdated(s.rows, c.(pubkey := key)), t, d, ip) <==> Leased(s.rows, t, d, ip)
  {
    var rows' := ConnectionUpdated(s.rows, c.(pubkey := key));
    assert rows'.Keys == s.rows.Keys;
    assert forall id :: id in s.rows ==> SameRow(s.rows[id], rows'[id]);
  }

  /** A lease that is there was there at event n, or was given since. */
  lemma {:induction false} LeasedSince(sys: Sys, events: seq<Event>, n: nat, t: string, d: string, ip: string)
    requires Starts(sys) && n <= |events|
    ensures Leased(Run(sys, events).shared.rows, t, d, ip) <==>
      Leased(Run(sys, events[..n]).shared.rows, t, d, ip) || GivenSince(sys, events, n, t, d, ip)
    decreases |events|
  {
    if n == |events| {
      assert events[..n] == events;
    } else {
      var front, ev := events[..|events| - 1], events[|events| - 1];
      assert front[..n] == events[..n];
      LeasedSince(sys, front, n, t, d, ip);
      Reachable(sys, front);
      LeaseAppears(Run(sys, front), ev, t, d, ip);
      GivenSinceGrows(sys, events, n, t, d, ip);
    }
  }

  lemma GivenInFront(sys: Sys, events: seq<Event>, m: nat, t: string, d: string, ip: string)
    requires m + 1 < |events|
    ensures GivenAt(sys, events[..|events| - 1], m, t, d, ip) <==> GivenAt(sys, events, m, t, d, ip)
  {
    assert events[..|events| - 1][..m] == events[..m];
  }

  lemma GivenSinceGrows(sys: Sys, events: seq<Event>, n: nat, t: string, d: string, ip: string)
    requires n < |events|
    ensures var last := |events| - 1;
            GivenSince(sys, events, n, t, d, ip) <==>
            GivenSince(sys, events[..last], n, t, d, ip) || GivenAt(sys, events, last, t, d, ip)
  {
    var front := events[..|events| - 1];
    if m: nat :| n <= m && GivenAt(sys, front, m, t, d, ip) {
      GivenInFront(sys, events, m, t, d, ip);
    }
    if m: nat :| n <= m && GivenAt(sys, events, m, t, d, ip) {
      if m < |front| {
        GivenInFront(sys, events, m, t, d, ip);
      }
    }
  }

  /**
   In every run, for every handler that has settled: the event n at which it did is in the
   run, and its address is leased to its own device exactly when the table before event n met
   KeepsOwn, or another handler of the device has been given that address since.  With a new
   random id the latter never happens: the address is the device's own from event n on, or
   never.
   */
  lemma OwnAddressIff(sys: Sys, events: seq<Event>, h: Conn) returns (n: nat)
    requires Starts(sys)
    requires h in Run(sys, events).handlers && Settled(Run(sys, events).handlers[h])
    ensures n < |events| && Settles(Run(sys, events[..n]), events[n], h)
    ensures Run(sys, events[..n]).handlers[h].Connecting?
    ensures var before, now := Run(sys, events[..n]), Run(sys, events);
            var t, d, c := now.handlers[h].target, now.handlers[h].device, now.handlers[h].cpc.c;
            var own := KeepsOwn(before.shared.rows, before.handlers[h], events[n].answer);
            && (Leased(Run(sys, events[..n + 1]).shared.rows, t, d, c.clientIp) <==> own)
            && (Leased(now.shared.rows, t, d, c.clientIp) <==> own || GivenSince(sys, events, n + 1, t, d, c.clientIp))
            && ((before.handlers[h].cpc.Insert? ==> c.id !in before.shared.rows) ==>
                  (Leased(now.shared.rows, t, d, c.clientIp) <==> own))
  {
    n := SettledAt(sys, events, h);
    assert events[..n + 1][..n] == events[..n];
    var before, ev, now := Run(sys, events[..n]), events[n], Run(sys, events);
    assert Run(sys, events[..n + 1]) == Step(before, ev);
    Reachable(sys, events[..n]);
    SettlingOutcome(before, ev, h);
    SettledOutcomeStays(sys, events, h, n);
    LeasedSince(sys, events, n + 1, now.handlers[h].target, now.handlers[h].device, now.handlers[h].cpc.c.clientIp);
  }

  /** With a new random id the outcome at event n is for ever. */
  lemma SettledOutcomeStays(sys: Sys, events: seq<Event>, h: Conn, n: nat)
    requires Starts(sys) && SettledBy(sys, events, h, n)
    ensures var before, now := Run(sys, events[..n]), Run(sys, events);
            var t, d, c := now.handlers[h].target, now.handlers[h].device, now.handlers[h].cpc.c;
            before.handlers[h].Connecting? && (before.handlers[h].cpc.Insert? ==> c.id !in before.shared.rows) ==>
              (Leased(now.shared.rows, t, d, c.clientIp) <==>
               KeepsOwn(before.shared.rows, before.handlers[h], events[n].answer))
  {
    var before, ev, now := Run(sys, events[..n]), events[n], Run(sys, events);
    var after := Step(before, ev);
    Reachable(sys, events[..n]);
    Reachable(sys, events);
    SettlingSteps(before, ev, h);
    var handler := before.handlers[h];
    SettlingConnectStep(before.shared, h, handler.target, handler.device, handler.cpc, ev.answer);
    SettlingOutcome(before, ev, h);
    StepInv(before, ev);
    GrowsTransitive(before.shared, after.shared, now.shared);
    var t, d, c := now.handlers[h].target, now.handlers[h].device, now.handlers[h].cpc.c;
    if KeepsOwn(before.shared.rows, before.handlers[h], ev.answer) {
      LeasedStays(after.shared, now.shared, t, d, c.clientIp);
    } else if before.handlers[h].cpc.Insert? {
      if c.id !in before.shared.rows {
        var id :| id in Ids(before.shared.rows, t) && before.shared.rows[id].clientIp == c.clientIp;
        NeverLeased(before.shared, now.shared, t, d, c.clientIp, id);
      }
    } else {
      NeverLeased(before.shared, now.shared, t, d, c.clientIp, ev.answer.row.value.id);
    }
  }
}
