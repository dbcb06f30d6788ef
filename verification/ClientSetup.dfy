/**
 Configuring as a client, as a whole: exactly when it gets to its end, and what the kernel and
 the daemon hold afterwards.

 Throughout, the default interface has at most 123 IPv4 addresses, so that the source tables
 130, 131, ... stay below the tables 253 to 255 that the kernel reserves.
 */
module ClientSetup {
  import opened Wrappers
  import opened Ipv4
  import opened Kernel
  import opened WireguardDaemons
  import opened SourceRouting

  const MAX_ADDRESSES: nat := 123

  predicate FewAddresses(def: DefaultRoute) {
    |def.link.addrs| <= MAX_ADDRESSES
  }

  /** The pins that this configuration adds: both the first time, none later. */
  function NewPins(host: Host, config: ClientConfig, def: DefaultRoute): set<Route> {
    if host.daemon.defaultLink.None? then SetOf(Pins(config, def)) else {}
  }

  /** What stays of the routes when the tunnel interface is flushed. */
  function Kept(host: Host, config: ClientConfig, def: DefaultRoute): set<Route> {
    OffTunnel(host.daemon.tun, host.net.routes + NewPins(host, config, def))
  }

  /** The routes after configuring. */
  function ClientRoutes(host: Host, config: ClientConfig, def: DefaultRoute): set<Route> {
    Kept(host, config, def) + SetOf(SourceRoutes(def))
    + ConnectedRoutes(host.daemon.tun, Some(config.client)) + SetOf(Halves(host.daemon.tun))
  }

  /** The daemon after configuring. */
  function ClientDaemon(daemon: Daemon, config: ClientConfig, def: DefaultRoute): Daemon {
    daemon.(defaultLink := if daemon.defaultLink.Some? then daemon.defaultLink else Some(def.link),
            serverIp := Some(config.serverIp), controlPlaneIp := Some(config.controlPlaneIp),
            appendedRoutes := Halves(daemon.tun),
            appendedSrcRules := SourceRules(def.link.addrs), appendedSrcRoutes := SourceRoutes(def),
            vpnServerMode := false)
  }

  // ---------- pieces ----------

  lemma PinsOwnSlots(config: ClientConfig, def: DefaultRoute)
    ensures OwnSlots(Pins(config, def)) <==> config.serverIp != config.controlPlaneIp
  {
    if config.serverIp == config.controlPlaneIp {
      assert SameSlot(Pins(config, def)[0], Pins(config, def)[1]);
    }
  }

  /** The second pin collides with the first when the two hosts are the same. */
  lemma PinsSucceedIff(routes: set<Route>, config: ClientConfig, def: DefaultRoute)
    ensures AddRoutes(routes, Pins(config, def)).1 <==>
      config.serverIp != config.controlPlaneIp && SlotsFree(routes, Pins(config, def))
    ensures AddRoutes(routes, Pins(config, def)).1 ==>
      AddRoutes(routes, Pins(config, def)).0 == routes + SetOf(Pins(config, def))
  {
    var pins := Pins(config, def);
    PinsOwnSlots(config, def);
    if OwnSlots(pins) {
      AddRoutesUnites(routes, pins);
    } else {
      assert pins[..1] == [pins[0]] && [pins[0]][..0] == [];
      assert AddRoutes(routes, []) == (routes, true);
      assert AddRoutes(routes, pins[..1]).1 ==> pins[0] in AddRoutes(routes, pins[..1]).0;
      assert SameSlot(pins[0], pins[1]);
    }
  }

  lemma HalvesOwnSlots(tun: nat)
    ensures OwnSlots(Halves(tun))
  {
  }

  /** A connected route is on the tunnel; it is a half exactly for a /1 in the upper half. */
  lemma ConnectedIsHalfIff(tun: nat, client: Prefix)
    ensures SlotsFree(ConnectedRoutes(tun, Some(client)), Halves(tun)) <==>
      !(client.bits == 1 && client.addr >= 0x8000_0000)
  {
    HalfBlock();
    var m := Masked(client);
    var connected := ConnectedRoutes(tun, Some(client));
    if client.bits == 1 {
      if client.addr >= 0x8000_0000 {
        assert m == UpperHalf();
        assert Halves(tun)[1] in connected;
        assert Halves(tun)[1] in Halves(tun) && SameSlot(Halves(tun)[1], Halves(tun)[1]);
      } else {
        assert m.addr == 0;
      }
    }
  }

  /** No route off the tunnel occupies the slot of a half. */
  predicate HalvesFree(host: Host) {
    SlotsFree(OffTunnel(host.daemon.tun, host.net.routes), Halves(host.daemon.tun))
  }

  /** Everything that the configuration must not find in the way. */
  predicate NothingInTheWay(host: Host, config: ClientConfig, def: DefaultRoute) {
    && (host.daemon.defaultLink.None? ==>
          config.serverIp != config.controlPlaneIp && SlotsFree(host.net.routes, Pins(config, def)))
    && (forall r :: r in SourceRules(def.link.addrs) ==> r !in host.net.rules)
    && SlotsFree(host.net.routes, SourceRoutes(def))
    && HalvesFree(host)
    && !(config.client.bits == 1 && config.client.addr >= 0x8000_0000)
  }

  lemma PinnedEffect(host: Host, config: ClientConfig, def: DefaultRoute)
    ensures Pinned(host, config, def).1 <==>
      (host.daemon.defaultLink.None? ==>
         config.serverIp != config.controlPlaneIp && SlotsFree(host.net.routes, Pins(config, def)))
    ensures Pinned(host, config, def).1 ==>
      Pinned(host, config, def).0 ==
      Host(host.net.(routes := host.net.routes + NewPins(host, config, def)),
           host.daemon.(serverIp := Some(config.serverIp), controlPlaneIp := Some(config.controlPlaneIp),
                        defaultLink := if host.daemon.defaultLink.Some? then host.daemon.defaultLink
                                       else Some(def.link)))
  {
    PinsSucceedIff(host.net.routes, config, def);
    assert host.net.routes + {} == host.net.routes;
  }

  /** Source slots lie in tables of their own, so neither pins nor flushing matter to them. */
  lemma SourceSlotsAfterFlush(host: Host, config: ClientConfig, def: DefaultRoute)
    requires FewAddresses(def)
    ensures SlotsFree(Kept(host, config, def), SourceRoutes(def)) <==> SlotsFree(host.net.routes, SourceRoutes(def))
  {
    forall r | r in SourceRoutes(def)
      ensures SlotTaken(Kept(host, config, def), r) <==> SlotTaken(host.net.routes, r)
    {
      assert r.table != MAIN_TABLE;
      if o :| o in host.net.routes && SameSlot(o, r) {
        assert o in Kept(host, config, def);
      }
    }
  }

  /** The halves meet only routes off the tunnel, and the tunnel's own connected route. */
  lemma HalfSlotsAtEnd(host: Host, config: ClientConfig, def: DefaultRoute)
    requires FewAddresses(def)
    ensures var routes := Kept(host, config, def) + SetOf(SourceRoutes(def))
                          + ConnectedRoutes(host.daemon.tun, Some(config.client));
            SlotsFree(routes, Halves(host.daemon.tun)) <==>
            HalvesFree(host) && !(config.client.bits == 1 && config.client.addr >= 0x8000_0000)
  {
    var tun := host.daemon.tun;
    var connected := ConnectedRoutes(tun, Some(config.client));
    var kept, off := Kept(host, config, def), OffTunnel(tun, host.net.routes);
    ConnectedIsHalfIff(tun, config.client);
    forall r | r in Halves(tun)
      ensures SlotTaken(kept + SetOf(SourceRoutes(def)) + connected, r) <==>
              SlotTaken(off, r) || SlotTaken(connected, r)
    {
      assert r.table == MAIN_TABLE && r.dst.bits == 1;
      assert forall o :: o in SourceRoutes(def) ==> o.table != MAIN_TABLE;
      assert forall o :: o in Pins(config, def) ==> o.dst.bits == 32;
    }
  }

  /** Re-addressing a flushed tunnel only adds the new connected route. */
  lemma ReaddressFlushed(host: Host, config: ClientConfig, def: DefaultRoute)
    requires FewAddresses(def)
    ensures var kept := Kept(host, config, def) + SetOf(SourceRoutes(def));
            kept - ConnectedRoutes(host.daemon.tun, host.net.tunnelAddr) == kept
  {
  }

  // ---------- the whole ----------

  lemma ConfigureStages(host: Host, config: ClientConfig, def: DefaultRoute) returns (sourced: Host)
    requires FewAddresses(def) && Pinned(host, config, def).1
    requires SourceRoutingEnabled(Flushed(Pinned(host, config, def).0), def).1
    ensures ClientConfigured(host, config, Some(def)) == Redirected(Addressed(sourced, config.client))
    ensures Addressed(sourced, config.client).net ==
      host.net.(rules := WithRules(host.net.rules, SourceRules(def.link.addrs)),
                routes := Kept(host, config, def) + SetOf(SourceRoutes(def))
                          + ConnectedRoutes(host.daemon.tun, Some(config.client)),
                tunnelAddr := Some(config.client))
    ensures sourced.daemon ==
      ClientDaemon(host.daemon, config, def).(appendedRoutes := host.daemon.appendedRoutes,
                                              vpnServerMode := host.daemon.vpnServerMode)
  {
    PinnedEffect(host, config, def);
    var flushed := Flushed(Pinned(host, config, def).0);
    EnableEffect(flushed, def);
    sourced := SourceRoutingEnabled(flushed, def).0;
    ReaddressFlushed(host, config, def);
  }

  /** Configuring gets to its end exactly when nothing is in the way. */
  lemma ConfigureSucceedsIff(host: Host, config: ClientConfig, def: DefaultRoute)
    requires FewAddresses(def)
    ensures ClientConfigured(host, config, Some(def)).1 <==> NothingInTheWay(host, config, def)
  {
    PinnedEffect(host, config, def);
    if Pinned(host, config, def).1 {
      var flushed := Flushed(Pinned(host, config, def).0);
      EnableSucceedsIff(flushed, def);
      SourceSlotsAfterFlush(host, config, def);
      if SourceRoutingEnabled(flushed, def).1 {
        var sourced := ConfigureStages(host, config, def);
        HalvesOwnSlots(host.daemon.tun);
        AddRoutesUnites(Addressed(sourced, config.client).net.routes, Halves(host.daemon.tun));
        HalfSlotsAtEnd(host, config, def);
      }
    }
  }

  lemma ConfigureEffect(host: Host, config: ClientConfig, def: DefaultRoute)
    requires FewAddresses(def) && ClientConfigured(host, config, Some(def)).1
    ensures ClientConfigured(host, config, Some(def)).0 ==
      Host(host.net.(rules := WithRules(host.net.rules, SourceRules(def.link.addrs)),
                     routes := ClientRoutes(host, config, def), tunnelAddr := Some(config.client)),
           ClientDaemon(host.daemon, config, def))
  {
    var sourced := ConfigureStages(host, config, def);
    HalvesOwnSlots(host.daemon.tun);
    AddRoutesUnites(Addressed(sourced, config.client).net.routes, Halves(host.daemon.tun));
  }

  /** A server that is also the control plane's host ends the daemon the first time it connects. */
  lemma SharedHostIsFatal(host: Host, config: ClientConfig, def: DefaultRoute)
    requires FewAddresses(def) && host.daemon.defaultLink.None?
    requires config.serverIp == config.controlPlaneIp
    ensures !ClientConfigured(host, config, Some(def)).1
  {
    ConfigureSucceedsIff(host, config, def);
  }
}
