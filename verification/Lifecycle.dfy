/**
 Whole runs of the daemon: connect, serve and disconnect, in any order the client's status
 checks allow, each instruction finishing before the next command, while the rest of the host
 changes its own routes, rules, chains and interfaces at any time between them.

 `base` is what the host would have without the daemon, and `lead` is how many of its rules are
 ahead of the daemon's; `pins` are the host routes that the daemon has added for good; `ledger`
 holds the chain rules that it appended and has not deleted, and those of the host's own that
 it deleted; `clean` says that every chain call so far went through.  The rest of the host may put its
 rules ahead of the daemon's or behind them.  Where the source exits the process the run stops.
 */
module Lifecycle {
  import opened Wrappers
  import opened Ipv4
  import opened Kernel
  import opened WireguardDaemons
  import opened SourceRouting
  import opened ClientSetup
  import opened ChainLedger

  datatype Status = StatusConnected | StatusDisconnected | StatusServing

  datatype Base = Base(routes: set<Route>, rules: seq<Rule>, chains: multiset<ChainRule>)

  datatype World = World(
    host: Host, status: Status, exited: bool, clean: bool, ledger: Ledger,
    base: Base, lead: nat, pins: set<Route>, used: Option<DefaultRoute>)

  datatype Event =
    | ConnectServer(config: ClientConfig, found: Option<DefaultRoute>)
    | ServeVpn(internal: Prefix, found: Option<DefaultRoute>, calls: ChainCalls)
    | Disconnect(calls: ChainCalls)
    | Elsewhere(links: seq<Link>, removed: set<Route>, added: set<Route>,
                front: seq<Rule>, back: seq<Rule>, unchained: multiset<ChainRule>, chained: multiset<ChainRule>)

  // ---------- what is the daemon's and what is not ----------

  /** The tables that source routing uses. */
  predicate IsSourceTable(table: nat) {
    SOURCE_TABLE_BASE <= table < SOURCE_TABLE_BASE + MAX_ADDRESSES
  }

  /** A route that neither is on the tunnel nor in a source table. */
  predicate IsForeign(tun: nat, r: Route) {
    !OnTunnel(tun, r) && !IsSourceTable(r.table)
  }

  function Foreign(host: Host): set<Route> {
    set r | r in host.net.routes && IsForeign(host.daemon.tun, r)
  }

  function SourceTableRoutes(host: Host): set<Route> {
    set r | r in host.net.routes && IsSourceTable(r.table)
  }

  function TunnelRoutes(host: Host): set<Route> {
    set r | r in host.net.routes && OnTunnel(host.daemon.tun, r)
  }

  /** The policy rules that the daemon has in force. */
  function ActiveRules(w: World): seq<Rule> {
    if w.status.StatusConnected? then w.host.daemon.appendedSrcRules else []
  }

  /** The chain rules that the daemon has in force, if no chain call failed. */
  function ActiveLedger(w: World): Ledger {
    if w.status.StatusServing? && w.host.daemon.defaultLink.Some?
    then InForce(w.host.daemon.tunName, w.host.daemon.defaultLink.value.name)
    else EMPTY
  }

  function LinkName(daemon: Daemon): Option<string> {
    if daemon.defaultLink.Some? then Some(daemon.defaultLink.value.name) else None
  }

  // ---------- runs ----------

  ghost predicate FoundOk(w: World, found: Option<DefaultRoute>) {
    IsDefault(w.host.net, found) && (found.Some? ==> FewAddresses(found.value))
  }

  /** The guards of the client, and what the rest of the host leaves alone. */
  ghost predicate Enabled(w: World, ev: Event) {
    && !w.exited
    && match ev
       case ConnectServer(_, found) => w.status.StatusDisconnected? && FoundOk(w, found)
       case ServeVpn(_, found, _) => w.status.StatusDisconnected? && FoundOk(w, found)
       case Disconnect(_) => !w.status.StatusDisconnected?
       case Elsewhere(_, removed, added, front, back, unchained, _) =>
         && unchained <= w.base.chains - w.ledger.taken
         && (forall r :: r in removed || r in added ==> IsForeign(w.host.daemon.tun, r))
         && (forall r :: r in front || r in back ==> !IsSourceTable(r.table))
         && Tidy(w.host.net.routes - removed + added)
  }

  function Moved(w: World, moved: (Host, bool), status: Status): World {
    if moved.1 then w.(host := moved.0, status := status) else w.(host := moved.0, exited := true)
  }

  ghost function Step(w: World, ev: Event): World {
    if !Enabled(w, ev) then w
    else
      match ev
      case ConnectServer(config, found) =>
        var w' := Moved(w, ClientConfigured(w.host, config, found), StatusConnected);
        if w'.exited then w'
        else w'.(pins := w.pins + NewPins(w.host, config, found.value), used := found,
                 lead := Lead(w.host.net.rules, 1))
      case ServeVpn(internal, found, calls) =>
        var w' := Moved(w, ServerConfigured(w.host, internal, found, calls), StatusServing);
        if w'.exited then w'
        else
          var d := w'.host.daemon;
          w'.(clean := w.clean && calls == BOTH,
              ledger := EnabledLedger(w.ledger, d.tunName, d.defaultLink.value.name, calls))
      case Disconnect(calls) =>
        var d := w.host.daemon;
        if d.vpnServerMode && d.defaultLink.None? then w  // never, by ChainsOk
        else w.(host := Disconnected(w.host, calls), status := StatusDisconnected,
                clean := w.clean && (d.vpnServerMode ==> calls == BOTH),
                ledger := if !d.vpnServerMode then w.ledger
                          else DisabledLedger(w.ledger, w.host.net.chains, d.tunName, d.defaultLink.value.name, calls))
      case Elsewhere(links, removed, added, front, back, unchained, chained) =>
        w.(base := Base(w.base.routes - removed + added, front + back, w.base.chains - unchained + chained),
           lead := |front|,
           host := w.host.(net := w.host.net.(
             links := links, routes := w.host.net.routes - removed + added,
             rules := front + ActiveRules(w) + back,
             chains := w.host.net.chains - unchained + chained)))
  }

  ghost function Run(w: World, events: seq<Event>): World {
    if events == [] then w else Step(Run(w, events[..|events| - 1]), events[|events| - 1])
  }

  /** A daemon that has just started on a host that it has not touched. */
  predicate JustStarted(w: World) {
    && !w.exited && w.clean && w.ledger == EMPTY
    && w.status.StatusDisconnected? && w.lead == 0 && w.pins == {} && w.used == None
    && w.base == Base(w.host.net.routes, w.host.net.rules, w.host.net.chains)
    && Tidy(w.host.net.routes) && w.host.net.tunnelAddr.None?
    && (forall r :: r in w.host.net.routes ==> IsForeign(w.host.daemon.tun, r))
    && (forall r :: r in w.host.net.rules ==> !IsSourceTable(r.table))
    && w.host.daemon == Daemon(w.host.daemon.tun, w.host.daemon.tunName, None, None, None, [], [], [], false)
  }

  // ---------- the invariant ----------

  /** Between base and base plus pins. */
  predicate ForeignOk(w: World) {
    && w.base.routes <= Foreign(w.host) <= w.base.routes + w.pins
    && |w.pins| <= 2 && (forall r :: r in w.pins ==> r.dst.bits == 32)
    && (w.host.daemon.defaultLink.None? ==> w.pins == {})
  }

  predicate RulesOk(w: World) {
    && (forall r :: r in w.base.rules ==> !IsSourceTable(r.table))
    && w.lead <= |w.base.rules|
    && w.host.net.rules == w.base.rules[..w.lead] + ActiveRules(w) + w.base.rules[w.lead..]
  }

  /** The ledger tells the daemon's chain rules from the host's. */
  predicate LedgerOk(w: World) {
    && Balanced(w.base.chains, w.host.net.chains, w.ledger)
    && Concerns(w.ledger, w.host.daemon.tunName, LinkName(w.host.daemon))
  }

  predicate ChainsOk(w: World) {
    && LedgerOk(w)
    && (w.clean ==> w.ledger == ActiveLedger(w))
    && (w.host.daemon.vpnServerMode ==> w.host.daemon.defaultLink.Some?)
    && (w.status.StatusServing? ==> w.host.daemon.vpnServerMode)
    && (w.status.StatusConnected? ==> !w.host.daemon.vpnServerMode && w.host.daemon.defaultLink.Some?)
  }

  /** The remembered source routing is that of the last connect, or none. */
  predicate MemoryOk(w: World) {
    var d := w.host.daemon;
    match w.used
    case None => d.appendedSrcRules == [] && d.appendedSrcRoutes == [] && !w.status.StatusConnected?
    case Some(def) =>
      FewAddresses(def) && d.appendedSrcRules == SourceRules(def.link.addrs) && d.appendedSrcRoutes == SourceRoutes(def)
  }

  /** What the daemon has on the tunnel and in the source tables. */
  predicate OwnRoutesOk(w: World) {
    var tun, connected := w.host.daemon.tun, ConnectedRoutes(w.host.daemon.tun, w.host.net.tunnelAddr);
    if w.status.StatusConnected? then
      && w.used.Some? && w.host.daemon.appendedRoutes == Halves(tun)
      && SourceTableRoutes(w.host) == SetOf(SourceRoutes(w.used.value))
      && TunnelRoutes(w.host) == connected + SetOf(Halves(tun)) && SlotsFree(connected, Halves(tun))
    else
      && w.host.daemon.appendedRoutes == []
      && SourceTableRoutes(w.host) == {}
      && TunnelRoutes(w.host) == connected
  }

  predicate Inv(w: World) {
    w.exited || (Tidy(w.host.net.routes) && ForeignOk(w) && RulesOk(w) && ChainsOk(w) && MemoryOk(w) && OwnRoutesOk(w))
  }

  // ---------- tidiness ----------

  lemma TidyUnion(routes: set<Route>, rs: seq<Route>)
    requires Tidy(routes) && OwnSlots(rs) && SlotsFree(routes, rs)
    ensures Tidy(routes + SetOf(rs))
  {
    forall a, b | a in routes + SetOf(rs) && b in routes + SetOf(rs) && SameSlot(a, b) && a.dev == b.dev
      ensures a == b
    {
      if a in rs && b in rs {
        var i, j :| 0 <= i < |rs| && rs[i] == a && 0 <= j < |rs| && rs[j] == b;
        assert i == j by {
          assert SameSlot(rs[i], rs[j]) && SameSlot(rs[j], rs[i]);
        }
      }
    }
  }

  lemma TidyConnected(routes: set<Route>, tun: nat, addr: Option<Prefix>)
    requires Tidy(routes) && forall r :: r in routes ==> !OnTunnel(tun, r)
    ensures Tidy(routes + ConnectedRoutes(tun, addr))
  {
  }

  // ---------- connecting ----------

  /** The tunnel never is the default interface. */
  lemma DefaultIsElsewhere(w: World, def: DefaultRoute)
    requires Inv(w) && !w.exited && w.status.StatusDisconnected? && IsDefault(w.host.net, Some(def))
    ensures def.link.index != w.host.daemon.tun
  {
    var i: nat, r :| IsBest(w.host.net, i, r) && def == DefaultRoute(w.host.net.links[i], r.gw);
    assert r.dev == w.host.daemon.tun ==> r in TunnelRoutes(w.host);
  }

  /** What connecting needs of the rest of the host; nothing here is the daemon's own. */
  predicate HostAllows(w: World, config: ClientConfig, def: DefaultRoute) {
    && (w.host.daemon.defaultLink.None? ==>
          config.serverIp != config.controlPlaneIp && SlotsFree(w.base.routes, Pins(config, def)))
    && SlotsFree(w.base.routes, Halves(w.host.daemon.tun))
    && !(config.client.bits == 1 && config.client.addr >= 0x8000_0000)
  }

  /** While disconnected, every route is foreign or the tunnel's connected route. */
  lemma IdleRoutes(w: World)
    requires Inv(w) && !w.exited && !w.status.StatusConnected?
    ensures w.host.net.routes == Foreign(w.host) + ConnectedRoutes(w.host.daemon.tun, w.host.net.tunnelAddr)
    ensures OffTunnel(w.host.daemon.tun, w.host.net.routes) == Foreign(w.host)
    ensures w.host.net.rules == w.base.rules
  {
    forall r | r in w.host.net.routes
      ensures r in Foreign(w.host) || r in TunnelRoutes(w.host)
      ensures !IsSourceTable(r.table)
    {
      assert r !in SourceTableRoutes(w.host);
    }
    assert TunnelRoutes(w.host) <= w.host.net.routes;
    assert w.base.rules[..w.lead] + [] + w.base.rules[w.lead..] == w.base.rules;
  }

  lemma ForeignSlots(w: World, rs: seq<Route>)
    requires Inv(w) && !w.exited && !w.status.StatusConnected?
    requires w.pins == {} || forall r :: r in rs ==> r.dst.bits < 32
    ensures SlotsFree(Foreign(w.host), rs) <==> SlotsFree(w.base.routes, rs)
  {
    forall r | r in rs
      ensures SlotTaken(Foreign(w.host), r) <==> SlotTaken(w.base.routes, r)
    {
      if o :| o in w.base.routes && SameSlot(o, r) {
        assert o in Foreign(w.host);
      }
    }
  }

  lemma PinSlots(w: World, config: ClientConfig, def: DefaultRoute)
    requires Inv(w) && !w.exited && w.status.StatusDisconnected?
    ensures SlotsFree(w.host.net.routes, Pins(config, def)) <==> SlotsFree(Foreign(w.host), Pins(config, def))
  {
    IdleRoutes(w);
    forall r | r in Pins(config, def)
      ensures SlotTaken(w.host.net.routes, r) <==> SlotTaken(Foreign(w.host), r)
    {
    }
  }

  /** While disconnected, nothing is in the way of source routing. */
  lemma SourceRoomWhenIdle(w: World, def: DefaultRoute)
    requires Inv(w) && !w.exited && w.status.StatusDisconnected? && FewAddresses(def)
    ensures forall r :: r in SourceRules(def.link.addrs) ==> r !in w.host.net.rules
    ensures SlotsFree(w.host.net.routes, SourceRoutes(def))
  {
    IdleRoutes(w);
    forall r | r in SourceRoutes(def)
      ensures !SlotTaken(w.host.net.routes, r)
    {
      assert IsSourceTable(r.table);
      assert SourceTableRoutes(w.host) == {};
    }
  }

  lemma HalfRoomWhenIdle(w: World)
    requires Inv(w) && !w.exited && w.status.StatusDisconnected?
    ensures HalvesFree(w.host) <==> SlotsFree(w.base.routes, Halves(w.host.daemon.tun))
  {
    IdleRoutes(w);
    ForeignSlots(w, Halves(w.host.daemon.tun));
  }

  lemma PinRoomWhenIdle(w: World, config: ClientConfig, def: DefaultRoute)
    requires Inv(w) && !w.exited && w.status.StatusDisconnected? && w.host.daemon.defaultLink.None?
    ensures SlotsFree(w.host.net.routes, Pins(config, def)) <==> SlotsFree(w.base.routes, Pins(config, def))
  {
    PinSlots(w, config, def);
    ForeignSlots(w, Pins(config, def));
  }

  /**
   In every run, connecting gets to its end exactly when the rest of the host allows it: no
   route, rule or table that the daemon left behind is ever in the way.
   */
  lemma ConnectNeverMeetsLeftovers(w: World, config: ClientConfig, def: DefaultRoute)
    requires Inv(w) && !w.exited && w.status.StatusDisconnected? && FewAddresses(def)
    ensures ClientConfigured(w.host, config, Some(def)).1 <==> HostAllows(w, config, def)
  {
    ConfigureSucceedsIff(w.host, config, def);
    SourceRoomWhenIdle(w, def);
    HalfRoomWhenIdle(w);
    if w.host.daemon.defaultLink.None? {
      PinRoomWhenIdle(w, config, def);
    }
  }

  lemma NewPinsAreFew(w: World, config: ClientConfig, def: DefaultRoute)
    requires ForeignOk(w)
    ensures var pins := w.pins + NewPins(w.host, config, def);
            |pins| <= 2 && forall r :: r in pins ==> r.dst.bits == 32
  {
    var pins := Pins(config, def);
    assert SetOf(pins) == {pins[0], pins[1]};
    assert {} + NewPins(w.host, config, def) == NewPins(w.host, config, def);
    assert w.pins + {} == w.pins;
    assert |{pins[0], pins[1]}| <= 2;
  }

  lemma Partition(host: Host, foreign: set<Route>, source: set<Route>, tunnel: set<Route>)
    requires host.net.routes == foreign + source + tunnel
    requires forall r :: r in foreign ==> IsForeign(host.daemon.tun, r)
    requires forall r :: r in source ==> IsSourceTable(r.table)
    requires forall r :: r in tunnel ==> OnTunnel(host.daemon.tun, r)
    ensures Foreign(host) == foreign && SourceTableRoutes(host) == source && TunnelRoutes(host) == tunnel
  {
  }

  lemma SameRoutesSamePartition(h: Host, h': Host)
    requires h'.net.routes == h.net.routes && h'.daemon.tun == h.daemon.tun
    ensures Foreign(h') == Foreign(h) && SourceTableRoutes(h') == SourceTableRoutes(h)
    ensures TunnelRoutes(h') == TunnelRoutes(h)
  {
  }

  lemma OffTunnelOfUnion(tun: nat, routes: set<Route>, more: set<Route>)
    requires forall r :: r in more ==> !OnTunnel(tun, r)
    ensures OffTunnel(tun, routes + more) == OffTunnel(tun, routes) + more
  {
  }

  lemma NewPinsAreForeign(w: World, config: ClientConfig, def: DefaultRoute)
    requires Inv(w) && !w.exited && w.status.StatusDisconnected? && IsDefault(w.host.net, Some(def))
    ensures forall r :: r in NewPins(w.host, config, def) ==> IsForeign(w.host.daemon.tun, r)
  {
    DefaultIsElsewhere(w, def);
  }

  lemma KeptIsForeign(w: World, config: ClientConfig, def: DefaultRoute)
    requires Inv(w) && !w.exited && w.status.StatusDisconnected? && IsDefault(w.host.net, Some(def))
    ensures Kept(w.host, config, def) == Foreign(w.host) + NewPins(w.host, config, def)
  {
    NewPinsAreForeign(w, config, def);
    IdleRoutes(w);
    OffTunnelOfUnion(w.host.daemon.tun, w.host.net.routes, NewPins(w.host, config, def));
  }

  lemma OwnRouteKinds(host: Host, config: ClientConfig, def: DefaultRoute)
    requires FewAddresses(def)
    ensures var tunnel := ConnectedRoutes(host.daemon.tun, Some(config.client)) + SetOf(Halves(host.daemon.tun));
            && ClientRoutes(host, config, def) == Kept(host, config, def) + SetOf(SourceRoutes(def)) + tunnel
            && (forall r :: r in SetOf(SourceRoutes(def)) ==> IsSourceTable(r.table))
            && (forall r :: r in tunnel ==> OnTunnel(host.daemon.tun, r))
  {
  }

  /** What is where after connecting. */
  lemma ConnectedPartition(w: World, config: ClientConfig, def: DefaultRoute)
    requires Inv(w) && !w.exited && w.status.StatusDisconnected?
    requires IsDefault(w.host.net, Some(def)) && FewAddresses(def)
    requires ClientConfigured(w.host, config, Some(def)).1
    ensures var h, tun := ClientConfigured(w.host, config, Some(def)).0, w.host.daemon.tun;
            && h.daemon == ClientDaemon(w.host.daemon, config, def)
            && h.net == w.host.net.(rules := WithRules(w.host.net.rules, SourceRules(def.link.addrs)),
                                    routes := ClientRoutes(w.host, config, def), tunnelAddr := Some(config.client))
            && Foreign(h) == Foreign(w.host) + NewPins(w.host, config, def)
            && SourceTableRoutes(h) == SetOf(SourceRoutes(def))
            && TunnelRoutes(h) == ConnectedRoutes(tun, Some(config.client)) + SetOf(Halves(tun))
  {
    ConfigureEffect(w.host, config, def);
    NewPinsAreForeign(w, config, def);
    KeptIsForeign(w, config, def);
    var h, tun := ClientConfigured(w.host, config, Some(def)).0, w.host.daemon.tun;
    var tunnel := ConnectedRoutes(tun, Some(config.client)) + SetOf(Halves(tun));
    OwnRouteKinds(w.host, config, def);
    Partition(h, Kept(w.host, config, def), SetOf(SourceRoutes(def)), tunnel);
  }

  lemma ConnectedTidy(host: Host, config: ClientConfig, def: DefaultRoute)
    requires Tidy(host.net.routes) && FewAddresses(def) && ClientConfigured(host, config, Some(def)).1
    ensures Tidy(ClientRoutes(host, config, def))
    ensures SlotsFree(ConnectedRoutes(host.daemon.tun, Some(config.client)), Halves(host.daemon.tun))
  {
    var tun := host.daemon.tun;
    ConfigureSucceedsIff(host, config, def);
    ConnectedIsHalfIff(tun, config.client);
    HalfSlotsAtEnd(host, config, def);
    SourceSlotsAfterFlush(host, config, def);
    if host.daemon.defaultLink.None? {
      PinsOwnSlots(config, def);
      TidyUnion(host.net.routes, Pins(config, def));
    }
    var kept := Kept(host, config, def);
    assert Tidy(kept);
    SourceTablesAreOwn(def);
    TidyUnion(kept, SourceRoutes(def));
    assert forall r :: r in SourceRoutes(def) ==> !OnTunnel(tun, r);
    TidyConnected(kept + SetOf(SourceRoutes(def)), tun, Some(config.client));
    HalvesOwnSlots(tun);
    TidyUnion(kept + SetOf(SourceRoutes(def)) + ConnectedRoutes(tun, Some(config.client)), Halves(tun));
  }

  function AfterConnect(w: World, config: ClientConfig, def: DefaultRoute): World {
    w.(host := ClientConfigured(w.host, config, Some(def)).0, status := StatusConnected,
       pins := w.pins + NewPins(w.host, config, def), used := Some(def), lead := Lead(w.host.net.rules, 1))
  }

  lemma ConnectForeignOk(w: World, config: ClientConfig, def: DefaultRoute)
    requires Inv(w) && Enabled(w, ConnectServer(config, Some(def))) && ClientConfigured(w.host, config, Some(def)).1
    ensures ForeignOk(AfterConnect(w, config, def)) && Tidy(AfterConnect(w, config, def).host.net.routes)
    ensures OwnRoutesOk(AfterConnect(w, config, def))
  {
    ConnectedPartition(w, config, def);
    ConnectedTidy(w.host, config, def);
    NewPinsAreFew(w, config, def);
  }

  lemma ConnectRulesOk(w: World, config: ClientConfig, def: DefaultRoute)
    requires Inv(w) && Enabled(w, ConnectServer(config, Some(def))) && ClientConfigured(w.host, config, Some(def)).1
    ensures var w' := AfterConnect(w, config, def); RulesOk(w') && MemoryOk(w')
  {
    ConfigureEffect(w.host, config, def);
    IdleRoutes(w);
  }

  lemma ConnectChainsOk(w: World, config: ClientConfig, def: DefaultRoute)
    requires ChainsOk(w) && Enabled(w, ConnectServer(config, Some(def)))
    requires ClientConfigured(w.host, config, Some(def)).1
    ensures ChainsOk(AfterConnect(w, config, def))
  {
    ConfigureEffect(w.host, config, def);
    SameLedger(w, AfterConnect(w, config, def));
  }

  /** The ledger stays right while nobody touches the chains. */
  lemma SameLedger(w: World, w': World)
    requires LedgerOk(w) && w'.ledger == w.ledger && w'.base.chains == w.base.chains
    requires w'.host.net.chains == w.host.net.chains && w'.host.daemon.tunName == w.host.daemon.tunName
    requires w.host.daemon.defaultLink.Some? ==> w'.host.daemon.defaultLink == w.host.daemon.defaultLink
    ensures LedgerOk(w')
  {
  }

  lemma ConnectInv(w: World, config: ClientConfig, def: DefaultRoute)
    requires Inv(w) && Enabled(w, ConnectServer(config, Some(def))) && ClientConfigured(w.host, config, Some(def)).1
    ensures Inv(Step(w, ConnectServer(config, Some(def))))
  {
    assert Step(w, ConnectServer(config, Some(def))) == AfterConnect(w, config, def);
    ConnectForeignOk(w, config, def);
    ConnectRulesOk(w, config, def);
    ConnectChainsOk(w, config, def);
  }

  // ---------- serving ----------

  lemma ServedPartition(w: World, internal: Prefix)
    requires Inv(w) && !w.exited && w.status.StatusDisconnected?
    ensures var h := Addressed(w.host, internal);
            && Tidy(h.net.routes)
            && Foreign(h) == Foreign(w.host) && SourceTableRoutes(h) == {}
            && TunnelRoutes(h) == ConnectedRoutes(w.host.daemon.tun, Some(internal))
  {
    IdleRoutes(w);
    var h, tun := Addressed(w.host, internal), w.host.daemon.tun;
    assert h.net.routes == Foreign(w.host) + ConnectedRoutes(tun, Some(internal));
    TidyConnected(Foreign(w.host), tun, Some(internal));
    Partition(h, Foreign(w.host), {}, ConnectedRoutes(tun, Some(internal)));
  }

  lemma ServeEffect(w: World, internal: Prefix, def: DefaultRoute, calls: ChainCalls)
    requires Enabled(w, ServeVpn(internal, Some(def), calls))
    ensures var w', d := Step(w, ServeVpn(internal, Some(def), calls)), w.host.daemon;
            var link := if d.defaultLink.Some? then d.defaultLink.value else def.link;
            && w' == w.(host := w'.host, status := StatusServing, clean := w.clean && calls == BOTH,
                        ledger := EnabledLedger(w.ledger, d.tunName, link.name, calls))
            && w'.host.net == Addressed(w.host, internal).net.(
                 chains := ForwardingEnabled(w.host.net.chains, d.tunName, link.name, calls))
            && w'.host.daemon == d.(defaultLink := Some(link), vpnServerMode := true)
  {
  }

  lemma ServeLedgerOk(w: World, internal: Prefix, def: DefaultRoute, calls: ChainCalls)
    requires LedgerOk(w) && Enabled(w, ServeVpn(internal, Some(def), calls))
    ensures LedgerOk(Step(w, ServeVpn(internal, Some(def), calls)))
  {
    ServeEffect(w, internal, def, calls);
    var link := if w.host.daemon.defaultLink.Some? then w.host.daemon.defaultLink.value else def.link;
    ServeLedger(w, link.name, calls);
  }

  lemma ServeLedger(w: World, link: string, calls: ChainCalls)
    requires LedgerOk(w) && (w.host.daemon.defaultLink.Some? ==> link == w.host.daemon.defaultLink.value.name)
    ensures var tun, l := w.host.daemon.tunName, EnabledLedger(w.ledger, w.host.daemon.tunName, link, calls);
            && Balanced(w.base.chains, ForwardingEnabled(w.host.net.chains, tun, link, calls), l)
            && Concerns(l, tun, Some(link))
  {
    var tun, chains := w.host.daemon.tunName, w.host.net.chains;
    EnablingBalances(w.base.chains, chains, w.ledger, tun, link, calls);
    assert Concerns(w.ledger, tun, Some(link));
    CallsConcern(w.ledger, chains, tun, link, calls);
  }

  lemma ServeChainsOk(w: World, internal: Prefix, def: DefaultRoute, calls: ChainCalls)
    requires ChainsOk(w) && Enabled(w, ServeVpn(internal, Some(def), calls))
    ensures ChainsOk(Step(w, ServeVpn(internal, Some(def), calls)))
  {
    var w' := Step(w, ServeVpn(internal, Some(def), calls));
    ServeEffect(w, internal, def, calls);
    ServeLedgerOk(w, internal, def, calls);
    if w'.clean {
      assert w.ledger == EMPTY;
      EnablingFromEmpty(w.host.daemon.tunName, w'.host.daemon.defaultLink.value.name);
    }
  }

  lemma ServeRoutesOk(w: World, internal: Prefix, def: DefaultRoute, calls: ChainCalls)
    requires Inv(w) && Enabled(w, ServeVpn(internal, Some(def), calls))
    ensures var w' := Step(w, ServeVpn(internal, Some(def), calls));
            Tidy(w'.host.net.routes) && ForeignOk(w') && OwnRoutesOk(w')
  {
    ServeEffect(w, internal, def, calls);
    ServedPartition(w, internal);
    SameRoutesSamePartition(Addressed(w.host, internal), Step(w, ServeVpn(internal, Some(def), calls)).host);
  }

  lemma ServeRulesOk(w: World, internal: Prefix, def: DefaultRoute, calls: ChainCalls)
    requires RulesOk(w) && MemoryOk(w) && Enabled(w, ServeVpn(internal, Some(def), calls))
    ensures var w' := Step(w, ServeVpn(internal, Some(def), calls)); RulesOk(w') && MemoryOk(w')
  {
    ServeEffect(w, internal, def, calls);
  }

  lemma ServeInv(w: World, internal: Prefix, def: DefaultRoute, calls: ChainCalls)
    requires Inv(w) && Enabled(w, ServeVpn(internal, Some(def), calls))
    ensures Inv(Step(w, ServeVpn(internal, Some(def), calls)))
  {
    ServeChainsOk(w, internal, def, calls);
    ServeRoutesOk(w, internal, def, calls);
    ServeRulesOk(w, internal, def, calls);
  }

  // ---------- disconnecting ----------

  /** With no route in the source tables, stopping source routing does nothing. */
  lemma StopStale(host: Host, def: DefaultRoute)
    requires FewAddresses(def) && SourceTableRoutes(host) == {}
    requires host.daemon.appendedSrcRules == SourceRules(def.link.addrs)
    requires host.daemon.appendedSrcRoutes == SourceRoutes(def)
    ensures SourceRoutingStopped(host) == host
  {
    var rs := SourceRoutes(def);
    if rs != [] {
      assert IsSourceTable(rs[0].table);
      forall r | r in host.net.routes
        ensures !Fits(rs[0], r)
      {
        assert r !in SourceTableRoutes(host);
      }
      assert rs[..1] == [rs[0]] && rs[..1][..0] == [];
      assert DeleteRoutes(host.net.routes, []) == (host.net.routes, true);
      assert DeleteRoutes(host.net.routes, rs[..1]) == (host.net.routes, false);
      DeleteRoutesFails(host.net.routes, rs, 1);
    }
  }

  /** Deleting the halves from the tunnel deletes just them. */
  lemma HalvesDeleted(routes: set<Route>, tun: nat)
    requires Tidy(routes) && SetOf(Halves(tun)) <= routes
    ensures TryDeleteRoutes(routes, Halves(tun)) == routes - SetOf(Halves(tun))
  {
    var halves := Halves(tun);
    var lower, upper := halves[0], halves[1];
    assert lower in SetOf(halves) && upper in SetOf(halves);
    OwnVictim(routes, lower);
    OwnVictim(routes - {lower}, upper);
    assert halves[..1] == [lower] && [lower][..0] == [];
    assert TryDeleteRoutes(routes, []) == routes;
    assert TryDeleteRoutes(routes, halves[..1]) == routes - {lower};
    assert SetOf(halves) == {lower, upper};
  }

  lemma DisconnectFromServer(w: World, calls: ChainCalls)
    requires Inv(w) && !w.exited && w.status.StatusServing?
    ensures var d, chains := w.host.daemon, Step(w, Disconnect(calls)).host.net.chains;
            && Step(w, Disconnect(calls)) ==
               w.(host := Host(w.host.net.(chains := chains), d.(appendedRoutes := [])),
                  status := StatusDisconnected, clean := w.clean && calls == BOTH,
                  ledger := DisabledLedger(w.ledger, w.host.net.chains, d.tunName, d.defaultLink.value.name, calls))
            && chains == ForwardingDisabled(w.host.net.chains, d.tunName, d.defaultLink.value.name, calls)
  {
    var chains :=
      ForwardingDisabled(w.host.net.chains, w.host.daemon.tunName, w.host.daemon.defaultLink.value.name, calls);
    var before := Host(w.host.net.(chains := chains), w.host.daemon.(appendedRoutes := []));
    assert SourceTableRoutes(before) == SourceTableRoutes(w.host);
    if w.used.Some? {
      StopStale(before, w.used.value);
    }
  }

  lemma DisconnectFromClient(w: World, calls: ChainCalls)
    requires Inv(w) && !w.exited && w.status.StatusConnected?
    ensures Step(w, Disconnect(calls)) ==
      w.(host := Host(w.host.net.(routes := w.host.net.routes - SetOf(SourceRoutes(w.used.value))
                                            - SetOf(Halves(w.host.daemon.tun)),
                                  rules := w.base.rules),
                      w.host.daemon.(appendedRoutes := [])),
         status := StatusDisconnected)
  {
    var def, tun, net := w.used.value, w.host.daemon.tun, w.host.net;
    assert SetOf(Halves(tun)) <= TunnelRoutes(w.host) <= net.routes;
    HalvesDeleted(net.routes, tun);
    var left := net.routes - SetOf(Halves(tun));
    var rest := left - SetOf(SourceRoutes(def));
    assert SetOf(SourceRoutes(def)) <= SourceTableRoutes(w.host) <= net.routes;
    assert forall r :: r in Halves(tun) ==> !IsSourceTable(r.table);
    assert left == rest + SetOf(SourceRoutes(def));
    forall r | r in SourceRoutes(def)
      ensures !SlotTaken(rest, r)
    {
      assert IsSourceTable(r.table);
      assert forall o :: o in rest && IsSourceTable(o.table) ==> o in SourceTableRoutes(w.host);
    }
    var front, back := w.base.rules[..w.lead], w.base.rules[w.lead..];
    assert w.base.rules == front + back;
    StopSubtracts(Host(net.(routes := left), w.host.daemon.(appendedRoutes := [])), front, back, rest, def);
    assert rest == net.routes - SetOf(SourceRoutes(def)) - SetOf(Halves(tun));
  }

  lemma DisconnectFromServerChainsOk(w: World, calls: ChainCalls)
    requires Inv(w) && !w.exited && w.status.StatusServing?
    ensures ChainsOk(Step(w, Disconnect(calls)))
  {
    DisconnectFromServer(w, calls);
    var own, chains, tun, link :=
      w.base.chains, w.host.net.chains, w.host.daemon.tunName, w.host.daemon.defaultLink.value.name;
    DisablingBalances(own, chains, w.ledger, tun, link, calls);
    CallsConcern(w.ledger, chains, tun, link, calls);
    if w.clean {
      DisablingToEmpty(own, chains, tun, link);
    }
  }

  lemma DisconnectFromServerInv(w: World, calls: ChainCalls)
    requires Inv(w) && !w.exited && w.status.StatusServing?
    ensures Inv(Step(w, Disconnect(calls)))
  {
    var w' := Step(w, Disconnect(calls));
    DisconnectFromServer(w, calls);
    DisconnectFromServerChainsOk(w, calls);
    SameRoutesSamePartition(w.host, w'.host);
    assert ForeignOk(w') && MemoryOk(w') && OwnRoutesOk(w');
  }

  lemma RemainsAfterDisconnect(tun: nat, foreign: set<Route>, source: seq<Route>, connected: set<Route>)
    requires forall r :: r in foreign ==> IsForeign(tun, r)
    requires forall r :: r in source ==> IsSourceTable(r.table)
    requires forall r :: r in connected ==> OnTunnel(tun, r)
    requires connected + SetOf(Halves(tun)) - SetOf(Halves(tun)) == connected
    ensures foreign + SetOf(source) + (connected + SetOf(Halves(tun))) - SetOf(source) - SetOf(Halves(tun))
            == foreign + {} + connected
  {
    assert forall r :: r in Halves(tun) ==> OnTunnel(tun, r);
    assert forall r :: r in connected ==> r !in SetOf(Halves(tun));
  }

  lemma DisconnectedPartition(w: World, calls: ChainCalls)
    requires Inv(w) && !w.exited && w.status.StatusConnected?
    ensures var h, tun := Step(w, Disconnect(calls)).host, w.host.daemon.tun;
            && Tidy(h.net.routes)
            && Foreign(h) == Foreign(w.host) && SourceTableRoutes(h) == {}
            && TunnelRoutes(h) == ConnectedRoutes(tun, w.host.net.tunnelAddr)
  {
    var w', tun := Step(w, Disconnect(calls)), w.host.daemon.tun;
    DisconnectFromClient(w, calls);
    var connected := ConnectedRoutes(tun, w.host.net.tunnelAddr);
    HalvesAreNotConnected(tun, w.host.net.tunnelAddr);
    ConnectedRoutesSplit(w);
    RemainsAfterDisconnect(tun, Foreign(w.host), SourceRoutes(w.used.value), connected);
    Partition(w'.host, Foreign(w.host), {}, connected);
    assert w'.host.net.routes <= w.host.net.routes;
  }

  lemma DisconnectFromClientInv(w: World, calls: ChainCalls)
    requires Inv(w) && !w.exited && w.status.StatusConnected?
    ensures Inv(Step(w, Disconnect(calls)))
  {
    var w' := Step(w, Disconnect(calls));
    DisconnectFromClient(w, calls);
    DisconnectedPartition(w, calls);
    assert w.base.rules[..w.lead] + [] + w.base.rules[w.lead..] == w.base.rules;
    assert RulesOk(w') && ChainsOk(w');
  }

  /** Every route is foreign, in a source table or on the tunnel. */
  lemma ConnectedRoutesSplit(w: World)
    requires Inv(w) && !w.exited && w.status.StatusConnected?
    ensures w.host.net.routes ==
      Foreign(w.host) + SetOf(SourceRoutes(w.used.value))
      + (ConnectedRoutes(w.host.daemon.tun, w.host.net.tunnelAddr) + SetOf(Halves(w.host.daemon.tun)))
  {
    assert w.host.net.routes == Foreign(w.host) + SourceTableRoutes(w.host) + TunnelRoutes(w.host);
  }

  lemma HalvesAreNotConnected(tun: nat, addr: Option<Prefix>)
    requires SlotsFree(ConnectedRoutes(tun, addr), Halves(tun))
    ensures ConnectedRoutes(tun, addr) + SetOf(Halves(tun)) - SetOf(Halves(tun)) == ConnectedRoutes(tun, addr)
  {
    forall r | r in Halves(tun)
      ensures r !in ConnectedRoutes(tun, addr)
    {
      assert !SlotTaken(ConnectedRoutes(tun, addr), r) && SameSlot(r, r);
    }
  }

  // ---------- the rest of the host ----------

  lemma ElsewhereRoutesOk(w: World, ev: Event)
    requires Inv(w) && ev.Elsewhere? && Enabled(w, ev)
    ensures Tidy(Step(w, ev).host.net.routes) && ForeignOk(Step(w, ev)) && OwnRoutesOk(Step(w, ev))
  {
    var w' := Step(w, ev);
    assert Foreign(w'.host) == Foreign(w.host) - ev.removed + ev.added;
    assert SourceTableRoutes(w'.host) == SourceTableRoutes(w.host);
    assert TunnelRoutes(w'.host) == TunnelRoutes(w.host);
  }

  lemma ElsewhereRulesOk(w: World, ev: Event)
    requires Inv(w) && ev.Elsewhere? && Enabled(w, ev)
    ensures RulesOk(Step(w, ev)) && MemoryOk(Step(w, ev))
  {
    var w' := Step(w, ev);
    assert ActiveRules(w') == ActiveRules(w);
    assert w'.base.rules[..w'.lead] == ev.front && w'.base.rules[w'.lead..] == ev.back;
  }

  lemma ElsewhereChainsOk(w: World, ev: Event)
    requires ChainsOk(w) && ev.Elsewhere? && Enabled(w, ev)
    ensures ChainsOk(Step(w, ev))
  {
    OthersBalance(w.base.chains, w.host.net.chains, w.ledger, ev.unchained, ev.chained);
    assert ActiveLedger(Step(w, ev)) == ActiveLedger(w);
  }

  lemma ElsewhereInv(w: World, ev: Event)
    requires Inv(w) && ev.Elsewhere? && Enabled(w, ev)
    ensures Inv(Step(w, ev))
  {
    ElsewhereRoutesOk(w, ev);
    ElsewhereRulesOk(w, ev);
    ElsewhereChainsOk(w, ev);
  }

  // ---------- every run ----------

  lemma StepInv(w: World, ev: Event)
    requires Inv(w)
    ensures Inv(Step(w, ev))
  {
    if Enabled(w, ev) {
      match ev
      case ConnectServer(config, found) =>
        if found.Some? && ClientConfigured(w.host, config, found).1 {
          ConnectInv(w, config, found.value);
        }
      case ServeVpn(internal, found, calls) =>
        if found.Some? {
          ServeInv(w, internal, found.value, calls);
        }
      case Disconnect(calls) =>
        if w.status.StatusServing? {
          DisconnectFromServerInv(w, calls);
        } else {
          DisconnectFromClientInv(w, calls);
        }
      case Elsewhere(_, _, _, _, _, _, _) => ElsewhereInv(w, ev);
    }
  }

  lemma {:induction false} RunInv(w: World, events: seq<Event>)
    requires JustStarted(w)
    ensures Inv(Run(w, events))
    decreases |events|
  {
    if events == [] {
      assert w.base.rules[..0] + [] + w.base.rules[0..] == w.base.rules;
    } else {
      RunInv(w, events[..|events| - 1]);
      StepInv(Run(w, events[..|events| - 1]), events[|events| - 1]);
    }
  }

  /** Every chain call of the run went through. */
  predicate AllThrough(events: seq<Event>) {
    forall ev :: ev in events && (ev.ServeVpn? || ev.Disconnect?) ==> ev.calls == BOTH
  }

  lemma {:induction false} ThroughIsClean(w: World, events: seq<Event>)
    requires JustStarted(w) && AllThrough(events)
    ensures Run(w, events).clean
    decreases |events|
  {
    if events != [] {
      assert events[|events| - 1] in events;
      ThroughIsClean(w, events[..|events| - 1]);
    }
  }

  /**
   Whenever the daemon is disconnected, the host's own routes are as they would be without it,
   plus at most two pinned host routes, and its rules are as they would be, even if chain calls
   failed; so are its chains if none did.  No /1 route, source rule or source table remains.
   */
  lemma DisconnectedLeavesNoTrace(w: World, events: seq<Event>)
    requires JustStarted(w)
    requires !Run(w, events).exited && Run(w, events).status.StatusDisconnected?
    ensures var now := Run(w, events);
            && now.base.routes <= Foreign(now.host) <= now.base.routes + now.pins
            && |now.pins| <= 2 && (forall r :: r in now.pins ==> r.dst.bits == 32)
            && now.host.net.rules == now.base.rules
            && (AllThrough(events) ==> now.host.net.chains == now.base.chains)
            && SourceTableRoutes(now.host) == {}
            && TunnelRoutes(now.host) == ConnectedRoutes(now.host.daemon.tun, now.host.net.tunnelAddr)
  {
    RunInv(w, events);
    IdleRoutes(Run(w, events));
    if AllThrough(events) {
      ThroughIsClean(w, events);
    }
  }

  /** Connecting and disconnecting leaves every route off the tunnel and the new pins. */
  lemma CycleLeavesPins(w: World, config: ClientConfig, def: DefaultRoute, calls: ChainCalls)
    requires Inv(w) && Enabled(w, ConnectServer(config, Some(def))) && HostAllows(w, config, def)
    ensures var now := Step(Step(w, ConnectServer(config, Some(def))), Disconnect(calls));
            && !now.exited && now.status.StatusDisconnected?
            && now.base == w.base && now.pins == w.pins + NewPins(w.host, config, def)
            && Foreign(now.host) == Foreign(w.host) + NewPins(w.host, config, def)
            && Inv(now) && now.host.net.links == w.host.net.links
            && now.host.daemon.tun == w.host.daemon.tun && now.host.daemon.defaultLink.Some?
  {
    ConnectNeverMeetsLeftovers(w, config, def);
    var connected := Step(w, ConnectServer(config, Some(def)));
    assert connected == AfterConnect(w, config, def);
    ConnectInv(w, config, def);
    ConnectedPartition(w, config, def);
    DisconnectFromClient(connected, calls);
    DisconnectedPartition(connected, calls);
    DisconnectFromClientInv(connected, calls);
  }

  /**
   In every run, whichever chain calls fail: the chains are the host's own, without the rules
   that the daemon deleted in place of its own, and with those that it appended and has not
   deleted.  All of these are its two rules.
   */
  lemma ChainsAreAccountedFor(w: World, events: seq<Event>)
    requires JustStarted(w) && !Run(w, events).exited
    ensures var now := Run(w, events);
            && Balanced(now.base.chains, now.host.net.chains, now.ledger)
            && Concerns(now.ledger, now.host.daemon.tunName, LinkName(now.host.daemon))
  {
    RunInv(w, events);
  }

  /**
   The daemon's forwarding and masquerading rules are in force, once each, exactly while it
   serves; the rule that is deleted is the rule that was added, whatever the default interface
   has become.
   */
  lemma ForwardingExactlyWhileServing(w: World, events: seq<Event>)
    requires JustStarted(w) && !Run(w, events).exited
    ensures var now := Run(w, events);
            && (now.status.StatusServing? ==> now.host.daemon.defaultLink.Some?)
            && (AllThrough(events) ==>
                  now.host.net.chains ==
                  now.base.chains + if now.status.StatusServing? then ForwardingRules(now.host.daemon) else multiset{})
  {
    RunInv(w, events);
    if AllThrough(events) {
      ThroughIsClean(w, events);
    }
  }

  /** In every run, the next connect meets no leftovers. */
  lemma NextConnectMeetsNoLeftovers(w: World, events: seq<Event>, config: ClientConfig, def: DefaultRoute)
    requires JustStarted(w) && Enabled(Run(w, events), ConnectServer(config, Some(def)))
    ensures var now := Run(w, events);
            ClientConfigured(now.host, config, Some(def)).1 <==> HostAllows(now, config, def)
  {
    RunInv(w, events);
    ConnectNeverMeetsLeftovers(Run(w, events), config, def);
  }
}
