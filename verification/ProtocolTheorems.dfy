/**
 What holds in every interleaving of any number of handlers, with any answers and failures,
 from any tables in order: from any set of targets without connections, and from whatever an
 earlier process left.
 */
module ProtocolTheorems {
  import opened Wrappers
  import opened Ipv4
  import opened Database
  import opened ConnectionManagement
  import opened Allocation
  import opened Protocol
  import opened ProtocolInvariant

  lemma Reachable(sys: Sys, events: seq<Event>)
    requires Starts(sys)
    ensures Inv(Run(sys, events))
  {
    StartsInv(sys);
    RunInv(sys, events);
  }

  /** The table never holds two rows for the same target and device; no constraint says so. */
  lemma OneRowPerDevice(sys: Sys, events: seq<Event>, i: string, j: string)
    requires Starts(sys)
    requires var rows := Run(sys, events).shared.rows;
             && i in rows && j in rows
             && rows[i].target == rows[j].target && rows[i].deviceId == rows[j].deviceId
    ensures i == j
  {
    Reachable(sys, events);
  }

  /** A pending pick is already taken, or it is the least free address at that moment. */
  lemma PendingPicks(sys: Sys, events: seq<Event>, h: Conn)
    requires Starts(sys)
    requires var handlers := Run(sys, events).handlers;
             h in handlers && handlers[h].Connecting? && (handlers[h].cpc.Recheck? || handlers[h].cpc.Insert?)
    ensures var s, handler := Run(sys, events).shared, Run(sys, events).handlers[h];
            && handler.target in s.targets && NetworkOf(s.targets[handler.target]).Some?
            && var p, taken := NetworkOf(s.targets[handler.target]).value, ClientIps(s.rows, handler.target);
               || handler.cpc.c.clientIp in taken
               || exists a: Addr :: handler.cpc.c.clientIp == Show(a) && IsLowestFree(p, taken, a)
  {
    Reachable(sys, events);
    var s, handler := Run(sys, events).shared, Run(sys, events).handlers[h];
    assert HandlerOk(s, handler);
    var p, taken := NetworkOf(s.targets[handler.target]).value, ClientIps(s.rows, handler.target);
    NextFreeMeaning(p, taken, 0);
    if NextFree(p, taken).Some? {
      var a: Addr :| NextFree(p, taken).value == Show(a);
      NextFreeMeaning(p, taken, a);
    }
  }

  /** A target with n rows holds exactly the n addresses after its network address. */
  lemma RowsAreTheFirstAddresses(sys: Sys, events: seq<Event>, t: string, ip: string)
    requires Starts(sys)
    requires var s := Run(sys, events).shared; t in s.targets && NetworkOf(s.targets[t]).Some?
    ensures var s := Run(sys, events).shared;
            var p, n := NetworkOf(s.targets[t]).value, |Ids(s.rows, t)|;
            ip in ClientIps(s.rows, t) <==> exists a: Addr :: p.addr < a <= p.addr + n && ip == Show(a)
  {
    Reachable(sys, events);
    var s := Run(sys, events).shared;
    assert Dense(s, t);
    FirstTextsMeaning(NetworkOf(s.targets[t]).value, |Ids(s.rows, t)|, ip);
  }

  /** The capacity of a network is what its block has above the offset of the network address. */
  lemma CapacityIsBlockRest(p: Prefix)
    ensures Capacity(p) == BlockSize(p.bits) - 1 - p.addr % BlockSize(p.bits)
  {
    var size := BlockSize(p.bits);
    assert p.addr == p.addr / size * size + p.addr % size;
    assert (p.addr / size + 1) * size == p.addr / size * size + size;
  }

  /**
   No target outgrows its block; the scan succeeds exactly while there is room, and is then a
   counter: with n rows it finds the address n + 1 past the network address.
   */
  lemma CapacityBound(sys: Sys, events: seq<Event>, t: string)
    requires Starts(sys)
    requires var s := Run(sys, events).shared; t in s.targets && NetworkOf(s.targets[t]).Some?
    ensures var s := Run(sys, events).shared;
            var p, n := NetworkOf(s.targets[t]).value, |Ids(s.rows, t)|;
            var room := BlockSize(p.bits) - 1 - p.addr % BlockSize(p.bits);
            && n <= room
            && (NextFree(p, ClientIps(s.rows, t)).Some? <==> n < room)
            && (n < room ==> exists a: Addr ::
                  a == p.addr + 1 + n && NextFree(p, ClientIps(s.rows, t)) == Some(Show(a)))
  {
    Reachable(sys, events);
    var s := Run(sys, events).shared;
    assert Dense(s, t);
    ScanOfDense(s, t);
    var p, n := NetworkOf(s.targets[t]).value, |Ids(s.rows, t)|;
    CapacityIsBlockRest(p);
    if n < Capacity(p) {
      assert Nth(p, n) == p.addr + 1 + n && AddressText(p, n) == Show(Nth(p, n));
    }
  }

  lemma {:induction false} RunConcat(sys: Sys, pre: seq<Event>, post: seq<Event>)
    ensures Run(sys, pre + post) == Run(Run(sys, pre), post)
    decreases |post|
  {
    if post == [] {
      assert pre + post == pre;
    } else {
      RunConcat(sys, pre, post[..|post| - 1]);
      assert (pre + post)[..|pre + post| - 1] == pre + post[..|post| - 1];
    }
  }

  /** Whole-row writes from stale snapshots never change a fixed column, and nothing is deleted. */
  lemma FixedColumnsStay(sys: Sys, pre: seq<Event>, post: seq<Event>)
    requires Starts(sys)
    ensures var s, s' := Run(sys, pre).shared, Run(sys, pre + post).shared;
            && (forall id :: id in s.rows ==> id in s'.rows && SameRow(s.rows[id], s'.rows[id]))
            && (forall t :: t in s.targets ==> t in s'.targets && SameTarget(s.targets[t], s'.targets[t]))
  {
    Reachable(sys, pre);
    RunConcat(sys, pre, post);
    RunGrows(Run(sys, pre), post);
  }

  /** A handler that found or inserted its row sends the address which that row holds for ever. */
  lemma RecordedAddressIsForever(sys: Sys, pre: seq<Event>, post: seq<Event>, h: Conn)
    requires Starts(sys)
    requires var handlers := Run(sys, pre).handlers;
             h in handlers && handlers[h].Connecting? && handlers[h].cpc.Instruct? && handlers[h].cpc.recorded
    ensures var handler, rows := Run(sys, pre).handlers[h], Run(sys, pre + post).shared.rows;
            var sent := handler.cpc.c;
            && sent.id in rows
            && rows[sent.id].target == handler.target && rows[sent.id].deviceId == handler.device
            && rows[sent.id].clientIp == sent.clientIp && rows[sent.id].clientCidr == sent.clientCidr
  {
    Reachable(sys, pre);
    var s, handler := Run(sys, pre).shared, Run(sys, pre).handlers[h];
    assert HandlerOk(s, handler);
    FixedColumnsStay(sys, pre, post);
    assert SameRow(s.rows[handler.cpc.c.id], Run(sys, pre + post).shared.rows[handler.cpc.c.id]);
  }

  /** The process stops and starts again: the tables stay, handlers and sessions do not. */
  function Restarted(sys: Sys): Sys {
    Sys(sys.shared.(servers := map[], clients := map[], devices := map[]), map[])
  }

  ghost function RunWithRestarts(sys: Sys, runs: seq<seq<Event>>): Sys {
    if runs == [] then sys
    else Run(Restarted(RunWithRestarts(sys, runs[..|runs| - 1])), runs[|runs| - 1])
  }

  /**
   Restarting, any number of times and wherever the handlers stand, keeps the tables in order;
   so every theorem here holds for the process that then starts.
   */
  lemma {:induction false} RestartsKeepTables(sys: Sys, runs: seq<seq<Event>>)
    requires Starts(sys)
    ensures Inv(RunWithRestarts(sys, runs)) && Starts(Restarted(RunWithRestarts(sys, runs)))
    decreases |runs|
  {
    if runs == [] {
      StartsInv(sys);
    } else {
      RestartsKeepTables(sys, runs[..|runs| - 1]);
      Reachable(Restarted(RunWithRestarts(sys, runs[..|runs| - 1])), runs[|runs| - 1]);
    }
    RestartStarts(RunWithRestarts(sys, runs));
  }

  /** No row, target or fixed column is lost over restarts. */
  lemma {:induction false} RestartsLoseNothing(sys: Sys, runs: seq<seq<Event>>, later: seq<seq<Event>>)
    requires Starts(sys)
    ensures var s, s' := RunWithRestarts(sys, runs).shared, RunWithRestarts(sys, runs + later).shared;
            Grows(s.(servers := map[]), s'.(servers := map[]))
    decreases |later|
  {
    if later == [] {
      assert runs + later == runs;
    } else {
      var upTo, all := runs + later[..|later| - 1], runs + later;
      assert all[..|all| - 1] == upTo;
      RestartsLoseNothing(sys, runs, later[..|later| - 1]);
      RestartsKeepTables(sys, upTo);
      var s, before := RunWithRestarts(sys, runs).shared, RunWithRestarts(sys, upTo);
      StartsInv(Restarted(before));
      RunGrows(Restarted(before), all[|all| - 1]);
      GrowsTransitive(s.(servers := map[]), before.shared.(servers := map[]),
                      RunWithRestarts(sys, all).shared.(servers := map[]));
    }
  }

  /** A process that starts again meets what every theorem here asks of a start. */
  lemma RestartStarts(sys: Sys)
    requires Inv(sys)
    ensures Starts(Restarted(sys))
  {
    forall t
      ensures Dense(Restarted(sys).shared, t)
    {
      assert Dense(sys.shared, t);
    }
  }

  /** The row that a create leaves on a new name, unless the statement had no effect. */
  lemma CreatedTarget(sys: Sys, name: string, owner: string, fault: Fault)
    requires !fault.Refused? && name !in sys.shared.targets
    ensures Step(sys, Create(name, owner, fault)).shared == sys.shared.(targets := sys.shared.targets[name :=
              Target(name, owner, "10.8.0.1", "/23", "1.1.1.1", "", "", "", "10.8.0.1", "/23", "")])
  {
  }

  /**
   In every continuation of a create, whatever serves and connects follow: the target keeps its
   owner, network, DNS server and internal address, its network is 10.8.0.1/23, it has at most
   510 rows, and none of them holds the server's internal address.
   */
  lemma CreatedTargetStays(
    sys: Sys, pre: seq<Event>, name: string, owner: string, fault: Fault, post: seq<Event>)
    requires Starts(sys) && !fault.Refused? && name !in Run(sys, pre).shared.targets
    ensures var s := Run(sys, pre + ([Create(name, owner, fault)] + post)).shared;
            && name in s.targets
            && s.targets[name].name == name && s.targets[name].owner == owner && s.targets[name].dnsIp == "1.1.1.1"
            && s.targets[name].networkIp == "10.8.0.1" && s.targets[name].networkCidr == "/23"
            && s.targets[name].serverInternalIp == "10.8.0.1" && s.targets[name].serverInternalCidr == "/23"
            && NetworkOf(s.targets[name]) == Some(Prefix(0x0A08_0001, 23))
            && |Ids(s.rows, name)| <= 510
            && (NextFree(Prefix(0x0A08_0001, 23), ClientIps(s.rows, name)).Some? <==> |Ids(s.rows, name)| < 510)
  {
    var create := Create(name, owner, fault);
    var created := pre + [create];
    assert created[..|created| - 1] == pre;
    assert created + post == pre + ([create] + post);
    assert Run(sys, created) == Step(Run(sys, pre), create);
    CreatedTarget(Run(sys, pre), name, owner, fault);
    assert name in Run(sys, created).shared.targets;
    FixedColumnsStay(sys, created, post);
    var s := Run(sys, created + post).shared;
    assert SameTarget(Run(sys, created).shared.targets[name], s.targets[name]);
    Reachable(sys, created + post);
    DefaultNetwork(s.targets[name]);
    assert Dense(s, name);
    ScanOfDense(s, name);
  }

  /** A created target's server address is never leased, whatever serves and connects follow. */
  lemma ServerAddressIsNeverLeased(
    sys: Sys, pre: seq<Event>, name: string, owner: string, fault: Fault, post: seq<Event>, id: string)
    requires Starts(sys) && !fault.Refused? && name !in Run(sys, pre).shared.targets
    requires id in Ids(Run(sys, pre + ([Create(name, owner, fault)] + post)).shared.rows, name)
    ensures var s := Run(sys, pre + ([Create(name, owner, fault)] + post)).shared;
            && name in s.targets
            && s.targets[name].serverInternalIp == s.targets[name].networkIp == "10.8.0.1"
            && s.rows[id].clientIp != s.targets[name].serverInternalIp
  {
    var events := pre + ([Create(name, owner, fault)] + post);
    CreatedTargetStays(sys, pre, name, owner, fault, post);
    var s := Run(sys, events).shared;
    DefaultAddressText();
    RowsAreTheFirstAddresses(sys, events, name, s.rows[id].clientIp);
    var a: Addr :| 0x0A08_0001 < a && s.rows[id].clientIp == Show(a);
    if s.rows[id].clientIp == "10.8.0.1" {
      ShowInjective(a, 0x0A08_0001);
    }
  }

  /** A registered server stays registered, though its session may be replaced. */
  lemma ServersStay(sys: Sys, pre: seq<Event>, post: seq<Event>, t: string)
    requires Starts(sys) && t in Run(sys, pre).shared.servers
    ensures t in Run(sys, pre + post).shared.servers
  {
    Reachable(sys, pre);
    RunConcat(sys, pre, post);
    RunGrows(Run(sys, pre), post);
  }

  /** A handler with a peer to append always finds a server: the "not alive" branch is dead. */
  lemma AppendFindsAServer(sys: Sys, events: seq<Event>, h: Conn, a: Answer)
    requires Starts(sys)
    requires var handlers := Run(sys, events).handlers;
             h in handlers && handlers[h].Connecting? && handlers[h].cpc.FindServer?
    ensures var s, handler := Run(sys, events).shared, Run(sys, events).handlers[h];
            && handler.target in s.servers
            && ConnectStep(s, h, handler.target, handler.device, handler.cpc, a).1.Append?
            && ConnectStep(s, h, handler.target, handler.device, handler.cpc, a).1.conn == s.servers[handler.target]
  {
    Reachable(sys, events);
    assert HandlerOk(Run(sys, events).shared, Run(sys, events).handlers[h]);
  }
}
