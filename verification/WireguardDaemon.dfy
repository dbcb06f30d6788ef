/**
 The WireGuard daemon on Linux: what configuring as a client, configuring as a server and
 disconnecting do to the kernel.

 Each operation is a function on a host (kernel and daemon fields) that also tells whether it
 got to its end; where the source exits the process, the function stops with what it had done
 so far.  The class runs the operations step by step on a kernel object and its own fields.
 */
module WireguardDaemons {
  import opened Wrappers
  import opened Ipv4
  import opened Kernel

  const SOURCE_TABLE_BASE: nat := 130
  const MAX_INT: nat := 0x7FFF_FFFF_FFFF_FFFF

  datatype Daemon = Daemon(
    tun: nat, tunName: string,
    defaultLink: Option<Link>, serverIp: Option<Addr>, controlPlaneIp: Option<Addr>,
    appendedRoutes: seq<Route>, appendedSrcRules: seq<Rule>, appendedSrcRoutes: seq<Route>,
    vpnServerMode: bool)

  datatype Host = Host(net: Net, daemon: Daemon)

  datatype ClientConfig = ClientConfig(serverIp: Addr, controlPlaneIp: Addr, client: Prefix)

  /** The default interface and its gateway. */
  datatype DefaultRoute = DefaultRoute(link: Link, gw: Option<Addr>)

  // ---------- the default interface ----------

  predicate IsCandidate(net: Net, i: nat, r: Route) {
    && i < |net.links| && r in net.routes
    && r.dev == net.links[i].index && r.table == MAIN_TABLE && r.dst == Everything()
  }

  /** The first interface, in order, with a default route of the lowest metric anywhere. */
  ghost predicate IsBest(net: Net, i: nat, r: Route) {
    && IsCandidate(net, i, r)
    && forall j: nat, o :: IsCandidate(net, j, o) ==> r.metric <= o.metric && (j < i ==> r.metric < o.metric)
  }

  ghost predicate IsDefault(net: Net, found: Option<DefaultRoute>) {
    match found
    case None => forall i: nat, r :: !IsCandidate(net, i, r)
    case Some(def) => exists i: nat, r :: IsBest(net, i, r) && def == DefaultRoute(net.links[i], r.gw)
  }

  /** The state of the search: of the default routes seen, on the first n interfaces, this is the best. */
  ghost predicate BestOf(
    net: Net, seen: set<(nat, Route)>, n: nat, best: (nat, Route), found: Option<DefaultRoute>, lowestMetric: nat)
  {
    match found
    case None => seen == {} && lowestMetric == MAX_INT
    case Some(def) =>
      && best in seen && best.0 < n <= |net.links|
      && lowestMetric == best.1.metric && def == DefaultRoute(net.links[best.0], best.1.gw)
      && forall c :: c in seen ==>
           c.0 < n && best.1.metric <= c.1.metric && (c.0 < best.0 ==> best.1.metric < c.1.metric)
  }

  /** One more default route on interface n - 1: kept if it is better than the best. */
  lemma SeenOneMore(net: Net, seen: set<(nat, Route)>, n: nat, best: (nat, Route), found: Option<DefaultRoute>,
                    lowestMetric: nat, r: Route)
    requires BestOf(net, seen, n, best, found, lowestMetric) && 0 < n <= |net.links|
    ensures var seen' := seen + {(n - 1, r)};
            if r.metric < lowestMetric
            then BestOf(net, seen', n, (n - 1, r), Some(DefaultRoute(net.links[n - 1], r.gw)), r.metric)
            else BestOf(net, seen', n, best, found, lowestMetric)
  {
  }

  // ---------- source routing ----------

  function SourceRules(addrs: seq<Addr>): (rules: seq<Rule>)
    ensures |rules| == |addrs|
  {
    seq(|addrs|, i requires 0 <= i < |addrs| => Rule(1, From(addrs[i]), SOURCE_TABLE_BASE + i))
  }

  function SourceRoutes(def: DefaultRoute): (routes: seq<Route>)
    ensures |routes| == |def.link.addrs|
  {
    seq(|def.link.addrs|, i requires 0 <= i < |def.link.addrs| =>
      Route(Everything(), def.gw, def.link.index, SOURCE_TABLE_BASE + i, 50))
  }

  /** Adds rules, then routes; stops at the first that fails. */
  function SourceRoutingAdded(host: Host, ours: seq<Rule>, rs: seq<Route>): (Host, bool) {
    var (rules, rulesAdded) := AddRules(host.net.rules, ours);
    var net := host.net.(rules := rules);
    if !rulesAdded then (host.(net := net), false)
    else
      var daemon := host.daemon.(appendedSrcRules := ours);
      var (routes, routesAdded) := AddRoutes(net.routes, rs);
      (Host(net.(routes := routes), if routesAdded then daemon.(appendedSrcRoutes := rs) else daemon), routesAdded)
  }

  function SourceRoutingEnabled(host: Host, def: DefaultRoute): (Host, bool) {
    SourceRoutingAdded(host, SourceRules(def.link.addrs), SourceRoutes(def))
  }

  /** Stops at the first route or rule that cannot be deleted; forgets nothing. */
  function SourceRoutingStopped(host: Host): Host {
    var (routes, deleted) := DeleteRoutes(host.net.routes, host.daemon.appendedSrcRoutes);
    var rules := if deleted then DeleteRules(host.net.rules, host.daemon.appendedSrcRules).0 else host.net.rules;
    host.(net := host.net.(routes := routes, rules := rules))
  }

  // ---------- forwarding ----------

  /** The two chain rules of a serving daemon; the second names the default interface. */
  function ForwardingRules(daemon: Daemon): multiset<ChainRule>
    requires daemon.defaultLink.Some?
  {
    multiset{ForwardFrom(daemon.tunName), MasqueradeOut(daemon.defaultLink.value.name)}
  }

  /** Of two chain calls, which go through if they are made. */
  datatype ChainCalls = ChainCalls(first: bool, second: bool)

  /** Appends the two rules; stops at a call that fails. */
  function ForwardingEnabled(chains: multiset<ChainRule>, tun: string, link: string, calls: ChainCalls)
    : multiset<ChainRule>
  {
    if !calls.first then chains
    else if !calls.second then chains + multiset{ForwardFrom(tun)}
    else chains + multiset{ForwardFrom(tun)} + multiset{MasqueradeOut(link)}
  }

  /** Deletes the two rules; stops at a call that fails or finds no such rule. */
  function ForwardingDisabled(chains: multiset<ChainRule>, tun: string, link: string, calls: ChainCalls)
    : multiset<ChainRule>
  {
    if !calls.first || ForwardFrom(tun) !in chains then chains
    else if !calls.second then chains - multiset{ForwardFrom(tun)}
    else chains - multiset{ForwardFrom(tun)} - multiset{MasqueradeOut(link)}
  }

  // ---------- the operations ----------

  /** The host routes that keep the server and the control plane off the tunnel. */
  function Pins(config: ClientConfig, def: DefaultRoute): seq<Route> {
    [Route(HostNetwork(config.serverIp), def.gw, def.link.index, MAIN_TABLE, 0),
     Route(HostNetwork(config.controlPlaneIp), def.gw, def.link.index, MAIN_TABLE, 0)]
  }

  /** The two halves of the address space, through the tunnel. */
  function Halves(tun: nat): seq<Route> {
    [Route(LowerHalf(), None, tun, MAIN_TABLE, 0), Route(UpperHalf(), None, tun, MAIN_TABLE, 0)]
  }

  /** Remembers the default interface, and pins the two hosts, the first time only. */
  function Pinned(host: Host, config: ClientConfig, def: DefaultRoute): (Host, bool) {
    var daemon := host.daemon.(serverIp := Some(config.serverIp), controlPlaneIp := Some(config.controlPlaneIp));
    if daemon.defaultLink.Some? then (host.(daemon := daemon), true)
    else
      var (routes, ok) := AddRoutes(host.net.routes, Pins(config, def));
      (Host(host.net.(routes := routes), daemon.(defaultLink := Some(def.link))), ok)
  }

  predicate OnTunnel(tun: nat, r: Route) {
    r.dev == tun && r.table == MAIN_TABLE
  }

  function OffTunnel(tun: nat, routes: set<Route>): set<Route> {
    set r | r in routes && !OnTunnel(tun, r)
  }

  function Flushed(host: Host): Host {
    host.(net := host.net.(routes := OffTunnel(host.daemon.tun, host.net.routes)))
  }

  function Addressed(host: Host, addr: Prefix): Host {
    host.(net := Readdressed(host.net, host.daemon.tun, addr))
  }

  function Redirected(host: Host): (Host, bool) {
    var (routes, ok) := AddRoutes(host.net.routes, Halves(host.daemon.tun));
    var daemon := if ok then host.daemon.(appendedRoutes := Halves(host.daemon.tun), vpnServerMode := false)
                  else host.daemon;
    (Host(host.net.(routes := routes), daemon), ok)
  }

  /** UpdateClientConf, given what findDefaultInterface found. */
  function ClientConfigured(host: Host, config: ClientConfig, found: Option<DefaultRoute>): (Host, bool) {
    if found.None? then
      (host.(daemon := host.daemon.(serverIp := Some(config.serverIp), controlPlaneIp := Some(config.controlPlaneIp))),
       false)
    else
      var (pinned, ok) := Pinned(host, config, found.value);
      if !ok then (pinned, false)
      else
        var (sourced, ok') := SourceRoutingEnabled(Flushed(pinned), found.value);
        if !ok' then (sourced, false)
        else Redirected(Addressed(sourced, config.client))
  }

  /** UpdateServeConf, given what findDefaultInterface found; a failed chain call is only logged. */
  function ServerConfigured(host: Host, internal: Prefix, found: Option<DefaultRoute>, calls: ChainCalls)
    : (Host, bool)
  {
    if found.None? then (host, false)
    else
      var daemon := if host.daemon.defaultLink.Some? then host.daemon
                    else host.daemon.(defaultLink := Some(found.value.link));
      var addressed := Addressed(host.(daemon := daemon), internal);
      var chains := ForwardingEnabled(addressed.net.chains, daemon.tunName, daemon.defaultLink.value.name, calls);
      (Host(addressed.net.(chains := chains), daemon.(vpnServerMode := true)), true)
  }

  function Disconnected(host: Host, calls: ChainCalls): Host
    requires host.daemon.vpnServerMode ==> host.daemon.defaultLink.Some?
  {
    var d := host.daemon;
    var chains := if !d.vpnServerMode then host.net.chains
                  else ForwardingDisabled(host.net.chains, d.tunName, d.defaultLink.value.name, calls);
    var routes := TryDeleteRoutes(host.net.routes, d.appendedRoutes);
    SourceRoutingStopped(Host(host.net.(chains := chains, routes := routes), d.(appendedRoutes := [])))
  }

  // ---------- deletion of listed routes ----------

  /** A route given back to the kernel is deleted itself. */
  lemma OwnVictim(routes: set<Route>, r: Route)
    requires Tidy(routes) && r in routes
    ensures RouteDeleted(routes, r) == routes - {r} && AnyFits(routes, r)
  {
    assert Fits(r, r);
    forall o | o in routes && Fits(r, o)
      ensures r.metric <= o.metric
    {
    }
    VictimUnique(routes, r, r);
  }

  // ---------- the daemon as an object ----------

  class WireguardDaemon {
    const kernel: KernelState
    const interfaceIndex: nat
    const interfaceName: string
    var defaultIFaceLink: Option<Link>
    var serverIp: Option<Addr>
    var controlPlaneIp: Option<Addr>
    var appendedRoutes: seq<Route>
    var appendedSrcRules: seq<Rule>
    var appendedSrcRoutes: seq<Route>
    var vpnServerMode: bool

    constructor (kernel: KernelState, interfaceIndex: nat, interfaceName: string)
      ensures this.kernel == kernel
      ensures Now() == Host(kernel.Now(), Daemon(interfaceIndex, interfaceName, None, None, None, [], [], [], false))
    {
      this.kernel, this.interfaceIndex, this.interfaceName := kernel, interfaceIndex, interfaceName;
      defaultIFaceLink, serverIp, controlPlaneIp := None, None, None;
      appendedRoutes, appendedSrcRules, appendedSrcRoutes, vpnServerMode := [], [], [], false;
    }

    function Now(): Host
      reads this, kernel
    {
      Host(kernel.Now(),
           Daemon(interfaceIndex, interfaceName, defaultIFaceLink, serverIp, controlPlaneIp,
                  appendedRoutes, appendedSrcRules, appendedSrcRoutes, vpnServerMode))
    }

    method FindDefaultInterface() returns (found: Option<DefaultRoute>)
      ensures IsDefault(kernel.Now(), found)
    {
      found := None;
      var lowestMetric := MAX_INT;
      ghost var net := kernel.Now();
      ghost var seen: set<(nat, Route)>, best: (nat, Route) := {}, (0, Route(Everything(), None, 0, 0, 0));
      for i := 0 to |kernel.links|
        invariant BestOf(net, seen, i, best, found, lowestMetric)
        invariant forall j: nat, o :: (j, o) in seen <==> j < i && IsCandidate(net, j, o)
      {
        var routeList := kernel.RouteList(kernel.links[i].index);
        ghost var seenBefore := seen;
        for k := 0 to |routeList|
          invariant BestOf(net, seen, i + 1, best, found, lowestMetric)
          invariant forall j: nat, o :: (j, o) in seen <==>
            (j, o) in seenBefore || (j == i && o in routeList[..k] && o.dst == Everything())
        {
          var route := routeList[k];
          assert route in routeList;
          if route.dst == Everything() {
            SeenOneMore(net, seen, i + 1, best, found, lowestMetric, route);
            seen := seen + {(i, route)};
            if route.metric < lowestMetric {
              found, lowestMetric := Some(DefaultRoute(kernel.links[i], route.gw)), route.metric;
              best := (i, route);
            }
          }
        }
        assert routeList[..|routeList|] == routeList;
      }
    }

    method EnableSourceRouting(def: DefaultRoute) returns (ok: bool)
      modifies kernel`rules, kernel`routes, this`appendedSrcRules, this`appendedSrcRoutes
      ensures (Now(), ok) == SourceRoutingEnabled(old(Now()), def)
    {
      var sourceRoutingRules: seq<Rule> := [];
      var sourceRoutingRoutes: seq<Route> := [];
      for i := 0 to |def.link.addrs|
        invariant sourceRoutingRules == SourceRules(def.link.addrs)[..i]
        invariant sourceRoutingRoutes == SourceRoutes(def)[..i]
      {
        var targetTable := SOURCE_TABLE_BASE + i;
        sourceRoutingRules := sourceRoutingRules + [Rule(1, From(def.link.addrs[i]), targetTable)];
        sourceRoutingRoutes := sourceRoutingRoutes + [Route(Everything(), def.gw, def.link.index, targetTable, 50)];
      }
      assert sourceRoutingRules == SourceRules(def.link.addrs) && sourceRoutingRoutes == SourceRoutes(def);
      ok := AddSourceRouting(sourceRoutingRules, sourceRoutingRoutes);
    }

    /** Adds what the loop has listed, and remembers each list once all of it is added. */
    method AddSourceRouting(rules: seq<Rule>, routes: seq<Route>) returns (ok: bool)
      modifies kernel`rules, kernel`routes, this`appendedSrcRules, this`appendedSrcRoutes
      ensures (Now(), ok) == SourceRoutingAdded(old(Now()), rules, routes)
    {
      ok := AddAllRules(rules);
      if !ok {
        return;
      }
      appendedSrcRules := rules;
      ok := AddAllRoutes(routes);
      if ok {
        appendedSrcRoutes := routes;
      }
    }

    method AddAllRules(rules: seq<Rule>) returns (ok: bool)
      modifies kernel`rules
      ensures (kernel.rules, ok) == AddRules(old(kernel.rules), rules)
    {
      ok := true;
      for i := 0 to |rules|
        invariant ok && (kernel.rules, true) == AddRules(old(kernel.rules), rules[..i])
      {
        assert rules[..i + 1][..i] == rules[..i];
        ok := kernel.RuleAdd(rules[i]);
        if !ok {
          AddRulesFails(old(kernel.rules), rules, i + 1);
          return;
        }
      }
      assert rules[..|rules|] == rules;
    }

    method AddAllRoutes(routes: seq<Route>) returns (ok: bool)
      modifies kernel`routes
      ensures (kernel.routes, ok) == AddRoutes(old(kernel.routes), routes)
    {
      ok := true;
      for i := 0 to |routes|
        invariant ok && (kernel.routes, true) == AddRoutes(old(kernel.routes), routes[..i])
      {
        assert routes[..i + 1][..i] == routes[..i];
        ok := kernel.RouteAdd(routes[i]);
        if !ok {
          AddRoutesFails(old(kernel.routes), routes, i + 1);
          return;
        }
      }
      assert routes[..|routes|] == routes;
    }

    method DeleteAllRoutes(routes: seq<Route>) returns (ok: bool)
      requires Tidy(kernel.routes)
      modifies kernel`routes
      ensures (kernel.routes, ok) == DeleteRoutes(old(kernel.routes), routes)
    {
      ok := true;
      for i := 0 to |routes|
        invariant ok && (kernel.routes, true) == DeleteRoutes(old(kernel.routes), routes[..i])
        invariant Tidy(kernel.routes)
      {
        assert routes[..i + 1][..i] == routes[..i];
        ghost var before := kernel.routes;
        ok := kernel.RouteDel(routes[i]);
        if !ok {
          NothingFits(before, routes[i]);
          DeleteRoutesFails(old(kernel.routes), routes, i + 1);
          return;
        }
      }
      assert routes[..|routes|] == routes;
    }

    method DeleteAllRules(rules: seq<Rule>) returns (ok: bool)
      modifies kernel`rules
      ensures (kernel.rules, ok) == DeleteRules(old(kernel.rules), rules)
    {
      ok := true;
      for i := 0 to |rules|
        invariant ok && (kernel.rules, true) == DeleteRules(old(kernel.rules), rules[..i])
      {
        assert rules[..i + 1][..i] == rules[..i];
        ok := kernel.RuleDel(rules[i]);
        if !ok {
          DeleteRulesFails(old(kernel.rules), rules, i + 1);
          return;
        }
      }
      assert rules[..|rules|] == rules;
    }

    method StopSourceRouting()
      requires Tidy(kernel.routes)
      modifies kernel`rules, kernel`routes
      ensures Now() == SourceRoutingStopped(old(Now()))
    {
      var deleted := DeleteAllRoutes(appendedSrcRoutes);
      if deleted {
        var _ := DeleteAllRules(appendedSrcRules);
      }
    }

    method EnableForwarding(calls: ChainCalls) returns (ok: bool)
      requires defaultIFaceLink.Some?
      modifies kernel`chains
      ensures kernel.chains == ForwardingEnabled(old(kernel.chains), interfaceName, defaultIFaceLink.value.name, calls)
      ensures ok == (calls.first && calls.second)
    {
      ok := kernel.ChainAppend(ForwardFrom(interfaceName), calls.first);
      if ok {
        ok := kernel.ChainAppend(MasqueradeOut(defaultIFaceLink.value.name), calls.second);
      }
    }

    method DisableForwarding(calls: ChainCalls) returns (ok: bool)
      requires defaultIFaceLink.Some?
      modifies kernel`chains
      ensures kernel.chains == ForwardingDisabled(old(kernel.chains), interfaceName, defaultIFaceLink.value.name, calls)
      ensures ok <==>
        && calls.first && ForwardFrom(interfaceName) in old(kernel.chains)
        && calls.second && MasqueradeOut(defaultIFaceLink.value.name) in old(kernel.chains)
    {
      ok := kernel.ChainDelete(ForwardFrom(interfaceName), calls.first);
      if ok {
        ok := kernel.ChainDelete(MasqueradeOut(defaultIFaceLink.value.name), calls.second);
      }
    }

    method FlushInterface()
      requires Tidy(kernel.routes)
      modifies kernel`routes
      ensures Now() == Flushed(old(Now())) && Tidy(kernel.routes)
    {
      var interfaceRoutes := kernel.RouteList(interfaceIndex);
      for i := 0 to |interfaceRoutes|
        invariant Tidy(kernel.routes)
        invariant forall r :: r in kernel.routes <==> r in old(kernel.routes) && r !in interfaceRoutes[..i]
      {
        OwnVictim(kernel.routes, interfaceRoutes[i]);
        var _ := kernel.RouteDel(interfaceRoutes[i]);
      }
      assert interfaceRoutes[..|interfaceRoutes|] == interfaceRoutes;
    }

    /** The first time only: remember the default interface and pin the two hosts to it. */
    method PinHosts(config: ClientConfig, def: DefaultRoute) returns (ok: bool)
      requires Tidy(kernel.routes)
      modifies this`defaultIFaceLink, this`serverIp, this`controlPlaneIp, kernel`routes
      ensures (Now(), ok) == Pinned(old(Now()), config, def)
      ensures Tidy(kernel.routes)
    {
      serverIp, controlPlaneIp := Some(config.serverIp), Some(config.controlPlaneIp);
      ok := true;
      if defaultIFaceLink.None? {
        defaultIFaceLink := Some(def.link);
        AddRoutesKeepsTidy(kernel.routes, Pins(config, def));
        ok := AddAllRoutes(Pins(config, def));
      }
    }

    /** The /1 routes, once the tunnel is up. */
    method Redirect() returns (ok: bool)
      modifies this`appendedRoutes, this`vpnServerMode, kernel`routes
      ensures (Now(), ok) == Redirected(old(Now()))
    {
      var routes := Halves(interfaceIndex);
      ok := AddAllRoutes(routes);
      if ok {
        appendedRoutes := routes;
        vpnServerMode := false;
      }
    }

    /** False where the source exits the process. */
    method UpdateClientConf(config: ClientConfig) returns (ok: bool, ghost found: Option<DefaultRoute>)
      requires Tidy(kernel.routes)
      modifies this, kernel`routes, kernel`rules, kernel`tunnelAddr
      ensures IsDefault(old(kernel.Now()), found)
      ensures (Now(), ok) == ClientConfigured(old(Now()), config, found)
      ensures serverIp == Some(config.serverIp) && controlPlaneIp == Some(config.controlPlaneIp)
      ensures ok ==>
        && !vpnServerMode && kernel.tunnelAddr == Some(config.client) && found.Some?
        && defaultIFaceLink == (if old(defaultIFaceLink).Some? then old(defaultIFaceLink) else Some(found.value.link))
    {
      var curr := FindDefaultInterface();
      found := curr;
      if curr.None? {
        serverIp, controlPlaneIp := Some(config.serverIp), Some(config.controlPlaneIp);
        return false, found;
      }
      ok := PinHosts(config, curr.value);
      if !ok {
        return;
      }
      FlushInterface();
      ok := EnableSourceRouting(curr.value);
      if !ok {
        return;
      }
      kernel.AssignInterfaceAddr(interfaceIndex, config.client);
      ok := Redirect();
    }

    method UpdateServeConf(internal: Prefix, calls: ChainCalls) returns (ok: bool, ghost found: Option<DefaultRoute>)
      modifies this`defaultIFaceLink, this`vpnServerMode, kernel`routes, kernel`tunnelAddr, kernel`chains
      ensures IsDefault(old(kernel.Now()), found)
      ensures (Now(), ok) == ServerConfigured(old(Now()), internal, found, calls)
      ensures ok == found.Some?
      ensures ok ==>
        && vpnServerMode && kernel.tunnelAddr == Some(internal)
        && defaultIFaceLink == (if old(defaultIFaceLink).Some? then old(defaultIFaceLink) else Some(found.value.link))
    {
      var curr := FindDefaultInterface();
      found := curr;
      if curr.None? {
        return false, found;
      }
      if defaultIFaceLink.None? {
        defaultIFaceLink := Some(curr.value.link);
      }
      ghost var remembered := Now();
      kernel.AssignInterfaceAddr(interfaceIndex, internal);
      assert Now() == Addressed(remembered, internal);
      var _ := EnableForwarding(calls);
      assert Now() == Host(Addressed(remembered, internal).net.(chains := kernel.chains), remembered.daemon);
      vpnServerMode := true;
      ok := true;
    }

    method TryDeleteAllRoutes(routes: seq<Route>)
      requires Tidy(kernel.routes)
      modifies kernel`routes
      ensures kernel.routes == TryDeleteRoutes(old(kernel.routes), routes) && Tidy(kernel.routes)
    {
      for i := 0 to |routes|
        invariant kernel.routes == TryDeleteRoutes(old(kernel.routes), routes[..i])
        invariant Tidy(kernel.routes)
      {
        assert routes[..i + 1][..i] == routes[..i];
        var _ := kernel.RouteDel(routes[i]);
      }
      assert routes[..|routes|] == routes;
    }

    method Disconnect(calls: ChainCalls)
      requires Tidy(kernel.routes)
      requires vpnServerMode ==> defaultIFaceLink.Some?
      modifies this`appendedRoutes, kernel`routes, kernel`rules, kernel`chains
      ensures Now() == Disconnected(old(Now()), calls)
      ensures appendedRoutes == []
    {
      if vpnServerMode {
        var _ := DisableForwarding(calls);
      }
      TryDeleteAllRoutes(appendedRoutes);
      appendedRoutes := [];
      StopSourceRouting();
    }
  }

  // ---------- folds that stop early ----------

  lemma {:induction false} AddRulesFails(rules: seq<Rule>, rs: seq<Rule>, n: nat)
    requires n <= |rs| && !AddRules(rules, rs[..n]).1
    ensures AddRules(rules, rs) == AddRules(rules, rs[..n])
    decreases |rs|
  {
    if n < |rs| {
      assert rs[..|rs| - 1][..n] == rs[..n];
      AddRulesFails(rules, rs[..|rs| - 1], n);
    } else {
      assert rs[..n] == rs;
    }
  }

  lemma {:induction false} AddRoutesFails(routes: set<Route>, rs: seq<Route>, n: nat)
    requires n <= |rs| && !AddRoutes(routes, rs[..n]).1
    ensures AddRoutes(routes, rs) == AddRoutes(routes, rs[..n])
    decreases |rs|
  {
    if n < |rs| {
      assert rs[..|rs| - 1][..n] == rs[..n];
      AddRoutesFails(routes, rs[..|rs| - 1], n);
    } else {
      assert rs[..n] == rs;
    }
  }

  lemma {:induction false} DeleteRulesFails(rules: seq<Rule>, rs: seq<Rule>, n: nat)
    requires n <= |rs| && !DeleteRules(rules, rs[..n]).1
    ensures DeleteRules(rules, rs) == DeleteRules(rules, rs[..n])
    decreases |rs|
  {
    if n < |rs| {
      assert rs[..|rs| - 1][..n] == rs[..n];
      DeleteRulesFails(rules, rs[..|rs| - 1], n);
    } else {
      assert rs[..n] == rs;
    }
  }

  lemma {:induction false} DeleteRoutesFails(routes: set<Route>, rs: seq<Route>, n: nat)
    requires n <= |rs| && !DeleteRoutes(routes, rs[..n]).1
    ensures DeleteRoutes(routes, rs) == DeleteRoutes(routes, rs[..n])
    decreases |rs|
  {
    if n < |rs| {
      assert rs[..|rs| - 1][..n] == rs[..n];
      DeleteRoutesFails(routes, rs[..|rs| - 1], n);
    } else {
      assert rs[..n] == rs;
    }
  }

  lemma {:induction false} AddRoutesKeepsTidy(routes: set<Route>, rs: seq<Route>)
    requires Tidy(routes)
    ensures Tidy(AddRoutes(routes, rs).0)
    decreases |rs|
  {
    if rs != [] {
      AddRoutesKeepsTidy(routes, rs[..|rs| - 1]);
    }
  }
}
