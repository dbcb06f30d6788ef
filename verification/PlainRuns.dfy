/**
 Runs on a plain host: one interface, one default route, the main rule and no chain rules.

 Connecting and disconnecting leaves the two pinned routes.  After connecting to a second
 server, whose host route is missing, the encrypted packets for it are sent into the tunnel
 that they should carry.  A deletion that fails leaves a firewall rule behind.
 */
module PlainRuns {
  import opened Wrappers
  import opened Ipv4
  import opened Kernel
  import opened WireguardDaemons
  import opened SourceRouting
  import opened ClientSetup
  import opened Lookup
  import opened Lifecycle
  import opened ChainLedger

  /** A host with one interface, one default route and the main rule. */
  function PlainHost(): Host {
    Host(Net([Link(2, "eth0", [0xC0A8_000A])], {Route(Everything(), Some(0xC0A8_0001), 2, MAIN_TABLE, 100)},
             [Rule(32766, Anything, MAIN_TABLE)], multiset{}, None),
         Daemon(3, "rvpn0", None, None, None, [], [], [], false))
  }

  function PlainWorld(): World {
    var net := PlainHost().net;
    World(PlainHost(), StatusDisconnected, false, true, EMPTY,
          Base(net.routes, net.rules, net.chains), 0, {}, None)
  }

  lemma PlainDefault() returns (def: DefaultRoute)
    ensures def == DefaultRoute(PlainHost().net.links[0], Some(0xC0A8_0001))
    ensures IsDefault(PlainHost().net, Some(def))
  {
    var net := PlainHost().net;
    var r := Route(Everything(), Some(0xC0A8_0001), 2, MAIN_TABLE, 100);
    def := DefaultRoute(net.links[0], r.gw);
    assert IsCandidate(net, 0, r);
    assert IsBest(net, 0, r);
  }

  lemma TwoPins(config: ClientConfig, def: DefaultRoute)
    requires config.serverIp != config.controlPlaneIp
    ensures |SetOf(Pins(config, def))| == 2
  {
    var pins := Pins(config, def);
    assert SetOf(pins) == {pins[0], pins[1]} && pins[0] != pins[1];
  }

  lemma PlainReady(config: ClientConfig, def: DefaultRoute)
    requires IsDefault(PlainHost().net, Some(def)) && FewAddresses(def)
    requires config.serverIp != config.controlPlaneIp && config.client.bits == 23
    ensures Inv(PlainWorld()) && Enabled(PlainWorld(), ConnectServer(config, Some(def)))
    ensures HostAllows(PlainWorld(), config, def) && Foreign(PlainHost()) == PlainWorld().base.routes
  {
    PlainAllows(config, def);
    RunInv(PlainWorld(), []);
  }

  /** A first connect that the plain host allows, and a disconnect. */
  lemma PlainCycle(config: ClientConfig, def: DefaultRoute) returns (events: seq<Event>)
    requires IsDefault(PlainHost().net, Some(def)) && FewAddresses(def)
    requires config.serverIp != config.controlPlaneIp && config.client.bits == 23
    ensures var w, now := PlainWorld(), Run(PlainWorld(), events);
            && Inv(now) && !now.exited && now.status.StatusDisconnected?
            && now.base == w.base && now.pins == SetOf(Pins(config, def))
            && Foreign(now.host) == w.base.routes + SetOf(Pins(config, def))
            && now.host.net.links == w.host.net.links
            && now.host.daemon.tun == 3 && now.host.daemon.defaultLink.Some?
  {
    PlainReady(config, def);
    events := FirstCycle(PlainWorld(), config, def);
  }

  /** The first connect of a daemon, and a disconnect. */
  lemma FirstCycle(w: World, config: ClientConfig, def: DefaultRoute) returns (events: seq<Event>)
    requires Inv(w) && Enabled(w, ConnectServer(config, Some(def))) && HostAllows(w, config, def)
    requires w.host.daemon.defaultLink.None? && w.pins == {} && Foreign(w.host) == w.base.routes
    ensures var now := Run(w, events);
            && Inv(now) && !now.exited && now.status.StatusDisconnected?
            && now.base == w.base && now.pins == SetOf(Pins(config, def))
            && Foreign(now.host) == w.base.routes + SetOf(Pins(config, def))
            && now.host.net.links == w.host.net.links
            && now.host.daemon.tun == w.host.daemon.tun && now.host.daemon.defaultLink.Some?
  {
    CycleLeavesPins(w, config, def, BOTH);
    events := [ConnectServer(config, Some(def)), Disconnect(BOTH)];
    RunOfTwo(w, events[0], events[1]);
    assert {} + SetOf(Pins(config, def)) == SetOf(Pins(config, def));
  }

  /** The bound on what a disconnect leaves is met: connecting and disconnecting leaves two pins. */
  lemma TwoPinsMayStay() returns (events: seq<Event>)
    ensures JustStarted(PlainWorld())
    ensures var now := Run(PlainWorld(), events);
            && !now.exited && now.status.StatusDisconnected?
            && |now.pins| == 2 && Foreign(now.host) == now.base.routes + now.pins
  {
    var def := PlainDefault();
    PlainAllows(FIRST, def);
    events := PlainCycle(FIRST, def);
    TwoPins(FIRST, def);
  }

  lemma PlainAllows(config: ClientConfig, def: DefaultRoute)
    requires config.serverIp != config.controlPlaneIp && config.client.bits == 23
    ensures JustStarted(PlainWorld()) && HostAllows(PlainWorld(), config, def)
    ensures Foreign(PlainHost()) == PlainWorld().base.routes
  {
    var w := PlainWorld();
    assert forall r :: r in w.base.routes ==> r.dst.bits == 0 && IsForeign(3, r);
    assert forall r :: r in Pins(config, def) ==> r.dst.bits == 32;
    assert forall r :: r in Halves(3) ==> r.dst.bits == 1;
  }

  lemma RunOfTwo(w: World, e: Event, f: Event)
    ensures Run(w, [e, f]) == Step(Step(w, e), f)
  {
    assert Run(w, [e]) == Step(w, e) by { assert [e][..0] == []; }
    assert [e, f][..1] == [e];
  }

  // ---------- a second server ----------

  const FIRST := ClientConfig(0xCB00_7101, 0xCB00_7102, Prefix(0x0A08_0002, 23))
  const SECOND := ClientConfig(0xC633_6401, 0xCB00_7102, Prefix(0x0A08_0002, 23))

  /** The state between the two connects. */
  ghost predicate Between(w: World, def: DefaultRoute) {
    && Inv(w) && !w.exited && w.status.StatusDisconnected? && w.base == PlainWorld().base
    && w.host.net.links == PlainHost().net.links && w.host.daemon.tun == 3 && w.host.daemon.defaultLink.Some?
    && Foreign(w.host) == w.base.routes + SetOf(Pins(FIRST, def))
  }

  /** The pins do not change what the default interface is. */
  lemma SameDefault(w: World, def: DefaultRoute)
    requires def == DefaultRoute(PlainHost().net.links[0], Some(0xC0A8_0001)) && Between(w, def)
    ensures IsDefault(w.host.net, Some(def))
  {
    IdleRoutes(w);
    var r := Route(Everything(), Some(0xC0A8_0001), 2, MAIN_TABLE, 100);
    assert r in PlainHost().net.routes;
    assert IsCandidate(w.host.net, 0, r);
    forall j: nat, o | IsCandidate(w.host.net, j, o)
      ensures j == 0 && o == r
    {
      assert o.dev == 2 && o.dst.bits == 0;
      assert o in Foreign(w.host);
    }
    assert IsBest(w.host.net, 0, r);
  }

  /** No route longer than /1 covers the second server. */
  lemma SecondServerNotCovered(w: World, def: DefaultRoute)
    requires Between(w, def)
    ensures !HasLongRoute(w.host, SECOND.serverIp)
  {
    IdleRoutes(w);
    HostContains(FIRST.serverIp, SECOND.serverIp);
    HostContains(FIRST.controlPlaneIp, SECOND.serverIp);
    forall r
      ensures !LongRoute(w.host, SECOND.serverIp, r)
    {
      if r in Foreign(w.host) && r.dst.bits > 1 {
        assert r in Pins(FIRST, def);
      }
    }
  }

  lemma ClientNetworksDiffer()
    ensures !Contains(SECOND.client, SECOND.serverIp)
  {
    assert BlockSize(28) == 16;
    assert BlockSize(23) == 512;
  }

  lemma SecondConnectLoops(w: World, def: DefaultRoute, custom: Meaning, p: Packet, r: Route)
    requires def == DefaultRoute(PlainHost().net.links[0], Some(0xC0A8_0001)) && Between(w, def)
    requires p.src !in def.link.addrs && p.dst == SECOND.serverIp
    ensures var now := Step(w, ConnectServer(SECOND, Some(def)));
            && Enabled(w, ConnectServer(SECOND, Some(def))) && !now.exited && now.status.StatusConnected?
            && (Routed(now.host.net.rules, now.host.net.routes, custom, p, r) <==> IntoTunnel(3, p.dst, r))
  {
    var routes := ClientRoutes(w.host, SECOND, def);
    SameDefault(w, def);
    IdleRoutes(w);
    PlainAllows(FIRST, def);
    ConnectNeverMeetsLeftovers(w, SECOND, def);
    HalfIsThere(w.host, SECOND, def, p.dst);
    assert w.host.net.rules == [Rule(32766, Anything, MAIN_TABLE)];
    assert Decides(w.host.net.rules[0], routes, custom, p) && w.host.net.rules[..0] == [];
    SecondServerNotCovered(w, def);
    ClientNetworksDiffer();
    LaterConnectMayLoop(w.host, SECOND, def, custom, p, r);
  }

  /**
   The whole run, on a plain host: after connecting to the second server, every packet for it
   from any source but the default interface's address takes the tunnel, and nothing else.
   */
  lemma SecondServerLoops(custom: Meaning) returns (events: seq<Event>)
    ensures var now := Run(PlainWorld(), events);
            && !now.exited && now.status.StatusConnected?
            && forall p: Packet, r :: p.src != 0xC0A8_000A && p.dst == SECOND.serverIp ==>
                 (Routed(now.host.net.rules, now.host.net.routes, custom, p, r) <==> IntoTunnel(3, p.dst, r))
  {
    var def := PlainDefault();
    var cycle := PlainCycle(FIRST, def);
    var again := ConnectServer(SECOND, Some(def));
    events := cycle + [again];
    assert events[..|events| - 1] == cycle;
    forall p: Packet, r | p.src != 0xC0A8_000A && p.dst == SECOND.serverIp
      ensures var now := Step(Run(PlainWorld(), cycle), again);
              Routed(now.host.net.rules, now.host.net.routes, custom, p, r) <==> IntoTunnel(3, p.dst, r)
    {
      SecondConnectLoops(Run(PlainWorld(), cycle), def, custom, p, r);
    }
    SecondConnectLoops(Run(PlainWorld(), cycle), def, custom, Packet(0, SECOND.serverIp, ""), HalfOf(3, 0));
  }

  // ---------- a deletion that fails ----------

  /** Serving, and disconnecting while the second deletion fails: the masquerading rule stays. */
  lemma LeftoverMasquerade() returns (events: seq<Event>)
    ensures var now := Run(PlainWorld(), events);
            && !now.exited && now.status.StatusDisconnected?
            && now.base.chains == multiset{} && now.host.net.chains == multiset{MasqueradeOut("eth0")}
  {
    var w, calls := PlainWorld(), ChainCalls(true, false);
    var def := PlainDefault();
    var internal := Prefix(0x0A08_0001, 23);
    PlainAllows(FIRST, def);
    RunInv(w, []);
    ServeEffect(w, internal, def, BOTH);
    ServeInv(w, internal, def, BOTH);
    events := [ServeVpn(internal, Some(def), BOTH), Disconnect(calls)];
    RunOfTwo(w, events[0], events[1]);
    DisconnectFromServer(Step(w, events[0]), calls);
    MasqueradeStays();
  }

  lemma MasqueradeStays()
    ensures var enabled := ForwardingEnabled(multiset{}, "rvpn0", "eth0", BOTH);
            ForwardingDisabled(enabled, "rvpn0", "eth0", ChainCalls(true, false)) == multiset{MasqueradeOut("eth0")}
  {
  }
}
