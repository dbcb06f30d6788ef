/**
 What the configured routes mean: where each packet goes, for every source and destination.

 A packet follows the policy rules in order; the first rule that selects it and whose table
 covers its destination decides, and in that table the longest prefix wins (section 5.2.4.3 of
 RFC 1812), the lowest metric among equals.  The host's own rules may select on anything: the
 theorems hold for every meaning of their selectors.  Packets for the host itself are the local
 table's and do not get here.
 */
module Lookup {
  import opened Wrappers
  import opened Ipv4
  import opened Kernel
  import opened WireguardDaemons
  import opened SourceRouting
  import opened ClientSetup

  predicate Covers(r: Route, table: nat, dst: Addr) {
    r.table == table && Contains(r.dst, dst)
  }

  predicate HasRoute(routes: set<Route>, table: nat, dst: Addr) {
    exists r :: r in routes && Covers(r, table, dst)
  }

  /** A route that the table may use: covering, longest, and then of the lowest metric. */
  predicate Chosen(routes: set<Route>, table: nat, dst: Addr, r: Route) {
    && r in routes && Covers(r, table, dst)
    && forall o :: o in routes && Covers(o, table, dst) ==>
         o.dst.bits < r.dst.bits || (o.dst.bits == r.dst.bits && r.metric <= o.metric)
  }

  /** What the host's own selectors select. */
  type Meaning = (string, Packet) -> bool

  predicate Selected(custom: Meaning, selector: Selector, p: Packet) {
    match selector
    case Anything => true
    case From(src) => p.src == src
    case Custom(name) => custom(name, p)
  }

  /** Does the rule decide: it selects the packet, and its table covers the destination? */
  predicate Decides(rule: Rule, routes: set<Route>, custom: Meaning, p: Packet) {
    Selected(custom, rule.selector, p) && HasRoute(routes, rule.table, p.dst)
  }

  predicate Decided(rules: seq<Rule>, routes: set<Route>, custom: Meaning, p: Packet) {
    exists rule :: rule in rules && Decides(rule, routes, custom, p)
  }

  /** A route that a packet may take. */
  predicate Routed(rules: seq<Rule>, routes: set<Route>, custom: Meaning, p: Packet, r: Route) {
    if rules == [] then false
    else if Decides(rules[0], routes, custom, p) then Chosen(routes, rules[0].table, p.dst, r)
    else Routed(rules[1..], routes, custom, p, r)
  }

  /** The rules of a host without policy of its own: main, then default. */
  function StandardRules(): seq<Rule> {
    [Rule(32766, Anything, MAIN_TABLE), Rule(32767, Anything, 253)]
  }

  // ---------- prefixes ----------

  lemma HostContains(a: Addr, dst: Addr)
    ensures Contains(HostNetwork(a), dst) <==> dst == a
  {
    SingleHostBlock();
  }

  lemma EverythingContains(dst: Addr)
    ensures Contains(Everything(), dst)
  {
    BlockSizeOfAll();
  }

  /** The half that a destination is in. */
  function HalfOf(tun: nat, dst: Addr): Route {
    if dst < 0x8000_0000 then Halves(tun)[0] else Halves(tun)[1]
  }

  lemma HalfContains(tun: nat, dst: Addr)
    ensures forall h :: h in Halves(tun) ==> (Contains(h.dst, dst) <==> h == HalfOf(tun, dst))
  {
    HalfBlock();
  }

  lemma MaskedContains(p: Prefix, dst: Addr)
    ensures Contains(Masked(p), dst) <==> Contains(p, dst)
  {
    BlockStartIsInTheBlock(p);
  }

  // ---------- three routes, field by field ----------

  /** A route to one host, through the default gateway. */
  predicate ToHostByGateway(def: DefaultRoute, dst: Addr, r: Route) {
    && r.table == MAIN_TABLE && r.dst.addr == dst && r.dst.bits == 32 && r.metric == 0
    && r.gw == def.gw && r.dev == def.link.index
  }

  /** A route to everywhere, through the default gateway, in the i-th source table. */
  predicate AnywhereByGateway(def: DefaultRoute, i: nat, r: Route) {
    && r.table == 130 + i && r.dst.addr == 0 && r.dst.bits == 0 && r.metric == 50
    && r.gw == def.gw && r.dev == def.link.index
  }

  /** A route through the tunnel, to the half of the addresses that dst is in. */
  predicate IntoTunnel(tun: nat, dst: Addr, r: Route) {
    && r.table == MAIN_TABLE && r.dst.bits == 1 && Contains(r.dst, dst) && r.metric == 0
    && r.gw == None && r.dev == tun
  }

  lemma PinFields(config: ClientConfig, def: DefaultRoute, r: Route)
    ensures ToHostByGateway(def, config.serverIp, r) <==> r == Pins(config, def)[0]
    ensures ToHostByGateway(def, config.controlPlaneIp, r) <==> r == Pins(config, def)[1]
  {
  }

  lemma SourceFields(def: DefaultRoute, i: nat, r: Route)
    requires i < |def.link.addrs|
    ensures AnywhereByGateway(def, i, r) <==> r == SourceRoutes(def)[i]
  {
    var own := SourceRoutes(def)[i];
    assert Everything() == Prefix(0, 0);
    assert own.dst == Everything() && own.table == 130 + i && own.metric == 50;
    assert own.gw == def.gw && own.dev == def.link.index;
    if AnywhereByGateway(def, i, r) {
      assert r.dst == own.dst;
      SameFields(r, own);
    }
  }

  lemma SameFields(a: Route, b: Route)
    requires a.dst == b.dst && a.gw == b.gw && a.dev == b.dev && a.table == b.table && a.metric == b.metric
    ensures a == b
  {
  }

  lemma HalfFields(tun: nat, dst: Addr, r: Route)
    ensures IntoTunnel(tun, dst, r) <==> r == HalfOf(tun, dst)
  {
    var half := HalfOf(tun, dst);
    HalfContains(tun, dst);
    assert half in Halves(tun);
    if IntoTunnel(tun, dst, r) {
      HalfUnique(r.dst, half.dst, dst);
    }
  }

  /** The gateway and the link are those of a default route of the least metric. */
  lemma GatewayIsTheBest(net: Net, def: DefaultRoute) returns (i: nat, best: Route)
    requires IsDefault(net, Some(def))
    ensures i < |net.links| && def.link == net.links[i] && best.dev == net.links[i].index && best.gw == def.gw
    ensures best in net.routes && best.table == MAIN_TABLE && best.dst.addr == 0 && best.dst.bits == 0
    ensures forall o, l ::
              (o in net.routes && l in net.links && o.dev == l.index
               && o.table == MAIN_TABLE && o.dst.addr == 0 && o.dst.bits == 0)
              ==> best.metric <= o.metric
    ensures forall o, j ::
              (0 <= j < i && o in net.routes && o.dev == net.links[j].index
               && o.table == MAIN_TABLE && o.dst == Prefix(0, 0))
              ==> best.metric < o.metric
  {
    i, best :| IsBest(net, i, best) && def == DefaultRoute(net.links[i], best.gw);
    forall o, l | o in net.routes && l in net.links && o.dev == l.index
                  && o.table == MAIN_TABLE && o.dst.addr == 0 && o.dst.bits == 0
      ensures best.metric <= o.metric
    {
      var j :| 0 <= j < |net.links| && net.links[j] == l;
      assert IsCandidate(net, j, o);
    }
    forall o, j | 0 <= j < i && o in net.routes && o.dev == net.links[j].index
                  && o.table == MAIN_TABLE && o.dst == Prefix(0, 0)
      ensures best.metric < o.metric
    {
      assert IsCandidate(net, j, o);
    }
  }

  /** A table that covers a destination has a route for it. */
  lemma {:induction false} ChosenExists(routes: set<Route>, table: nat, dst: Addr)
    requires HasRoute(routes, table, dst)
    ensures exists r :: Chosen(routes, table, dst, r)
    decreases routes
  {
    var r :| r in routes && Covers(r, table, dst);
    if HasRoute(routes - {r}, table, dst) {
      ChosenExists(routes - {r}, table, dst);
      var c :| Chosen(routes - {r}, table, dst, c);
      if c.dst.bits < r.dst.bits || (c.dst.bits == r.dst.bits && r.metric <= c.metric) {
        BetterIsChosen(routes, table, dst, r, c);
      } else {
        assert Chosen(routes, table, dst, c);
      }
    } else {
      assert forall o :: o in routes && Covers(o, table, dst) ==> o in routes - {r} || o == r;
      assert Chosen(routes, table, dst, r);
    }
  }

  lemma BetterIsChosen(routes: set<Route>, table: nat, dst: Addr, r: Route, c: Route)
    requires r in routes && Covers(r, table, dst) && Chosen(routes - {r}, table, dst, c)
    requires c.dst.bits < r.dst.bits || (c.dst.bits == r.dst.bits && r.metric <= c.metric)
    ensures Chosen(routes, table, dst, r)
  {
    assert forall o :: o in routes ==> o in routes - {r} || o == r;
  }

  /** A packet that some rule decides has a route. */
  lemma {:induction false} RoutedExists(rules: seq<Rule>, routes: set<Route>, custom: Meaning, p: Packet)
    requires Decided(rules, routes, custom, p)
    ensures exists r :: Routed(rules, routes, custom, p, r)
  {
    if Decides(rules[0], routes, custom, p) {
      ChosenExists(routes, rules[0].table, p.dst);
      var r :| Chosen(routes, rules[0].table, p.dst, r);
      assert Routed(rules, routes, custom, p, r);
    } else {
      assert rules == [rules[0]] + rules[1..];
      RoutedExists(rules[1..], routes, custom, p);
      var r :| Routed(rules[1..], routes, custom, p, r);
      assert Routed(rules, routes, custom, p, r);
    }
  }

  // ---------- the main table ----------

  /** A route of the main table, off the tunnel, longer than /1 and covering dst. */
  predicate LongRoute(host: Host, dst: Addr, r: Route) {
    r in OffTunnel(host.daemon.tun, host.net.routes) && Covers(r, MAIN_TABLE, dst) && r.dst.bits > 1
  }

  ghost predicate HasLongRoute(host: Host, dst: Addr) {
    exists r :: LongRoute(host, dst, r)
  }

  /** The routes of the main table that cover a destination outside the tunnel's subnet. */
  lemma CoveringRoutes(host: Host, config: ClientConfig, def: DefaultRoute, dst: Addr, r: Route)
    requires FewAddresses(def) && !Contains(config.client, dst)
    requires r in ClientRoutes(host, config, def) && Covers(r, MAIN_TABLE, dst)
    ensures r == HalfOf(host.daemon.tun, dst) || r in Kept(host, config, def)
  {
    HalfContains(host.daemon.tun, dst);
    MaskedContains(config.client, dst);
    assert forall o :: o in SourceRoutes(def) ==> o.table != MAIN_TABLE;
  }

  lemma HalfIsThere(host: Host, config: ClientConfig, def: DefaultRoute, dst: Addr)
    ensures HalfOf(host.daemon.tun, dst) in ClientRoutes(host, config, def)
    ensures Covers(HalfOf(host.daemon.tun, dst), MAIN_TABLE, dst)
    ensures HalfOf(host.daemon.tun, dst).dst.bits == 1
  {
    HalfContains(host.daemon.tun, dst);
  }

  /** A destination that neither is pinned nor is in the tunnel's subnet. */
  predicate Ordinary(host: Host, config: ClientConfig, def: DefaultRoute, dst: Addr) {
    && !Contains(config.client, dst)
    && (host.daemon.defaultLink.None? ==> dst != config.serverIp && dst != config.controlPlaneIp)
  }

  lemma PinsMissOrdinary(host: Host, config: ClientConfig, def: DefaultRoute, dst: Addr, r: Route)
    requires Ordinary(host, config, def, dst) && r in Kept(host, config, def) && Covers(r, MAIN_TABLE, dst)
    ensures r in OffTunnel(host.daemon.tun, host.net.routes)
  {
    HostContains(config.serverIp, dst);
    HostContains(config.controlPlaneIp, dst);
  }

  /** An ordinary destination with a route longer than /1 keeps the routes it had. */
  lemma LongRouteKept(host: Host, config: ClientConfig, def: DefaultRoute, dst: Addr, r: Route)
    requires FewAddresses(def) && Ordinary(host, config, def, dst) && HasLongRoute(host, dst)
    ensures Chosen(ClientRoutes(host, config, def), MAIN_TABLE, dst, r) <==>
            Chosen(OffTunnel(host.daemon.tun, host.net.routes), MAIN_TABLE, dst, r)
  {
    var all, off := ClientRoutes(host, config, def), OffTunnel(host.daemon.tun, host.net.routes);
    var long :| LongRoute(host, dst, long);
    assert off <= all;
    HalfIsThere(host, config, def, dst);
    forall o | o in all && Covers(o, MAIN_TABLE, dst)
      ensures o in off || o == HalfOf(host.daemon.tun, dst)
    {
      CoveringRoutes(host, config, def, dst, o);
      if o != HalfOf(host.daemon.tun, dst) {
        PinsMissOrdinary(host, config, def, dst, o);
      }
    }
  }

  /** Any other ordinary destination enters the tunnel. */
  lemma NoLongRouteTunnels(host: Host, config: ClientConfig, def: DefaultRoute, dst: Addr, r: Route)
    requires FewAddresses(def) && Ordinary(host, config, def, dst) && !HasLongRoute(host, dst) && HalvesFree(host)
    ensures Chosen(ClientRoutes(host, config, def), MAIN_TABLE, dst, r) <==> IntoTunnel(host.daemon.tun, dst, r)
  {
    var all, off, half := ClientRoutes(host, config, def), OffTunnel(host.daemon.tun, host.net.routes),
                          HalfOf(host.daemon.tun, dst);
    HalfIsThere(host, config, def, dst);
    HalfFields(host.daemon.tun, dst, r);
    forall o | o in all && Covers(o, MAIN_TABLE, dst) && o != half
      ensures o.dst.bits < 1 || (o.dst.bits == 1 && half.metric < o.metric)
    {
      CoveringRoutes(host, config, def, dst, o);
      PinsMissOrdinary(host, config, def, dst, o);
      assert !LongRoute(host, dst, o);
      if o.dst.bits == 1 {
        HalfUnique(o.dst, half.dst, dst);
        assert half in Halves(host.daemon.tun) && !SlotTaken(off, half);
        assert !SameSlot(o, half);
      }
    }
  }

  /** One network of a given length contains a given address. */
  lemma HalfUnique(a: Network, b: Network, dst: Addr)
    requires a.bits == b.bits && Contains(a, dst) && Contains(b, dst)
    ensures a == b
  {
    assert a.addr == BlockStart(a) && b.addr == BlockStart(b);
  }

  /** The pinned hosts go to the default gateway, whatever else covers them. */
  lemma PinnedHostsAvoidTheTunnel(host: Host, config: ClientConfig, def: DefaultRoute, pin: Route, r: Route)
    requires FewAddresses(def) && NothingInTheWay(host, config, def)
    requires host.daemon.defaultLink.None? && def.link.index != host.daemon.tun
    requires pin in Pins(config, def)
    ensures Chosen(ClientRoutes(host, config, def), MAIN_TABLE, pin.dst.addr, r) <==>
            ToHostByGateway(def, pin.dst.addr, r)
  {
    PinFields(config, def, r);
    PinFields(config, def, pin);
    var all, dst := ClientRoutes(host, config, def), pin.dst.addr;
    HostContains(pin.dst.addr, dst);
    assert pin in Kept(host, config, def);
    forall o | o in all && Covers(o, MAIN_TABLE, dst) && o != pin
      ensures o.dst.bits < 32 || pin.metric < o.metric
    {
      if o.dst.bits == 32 {
        HalfUnique(o.dst, pin.dst, dst);
        assert !SlotTaken(host.net.routes, pin);
        assert o in host.net.routes + SetOf(Pins(config, def)) by {
          assert o !in Halves(host.daemon.tun) && o !in ConnectedRoutes(host.daemon.tun, Some(config.client));
          assert forall s :: s in SourceRoutes(def) ==> s.table != MAIN_TABLE;
        }
        assert o in host.net.routes ==> !SameSlot(o, pin);
      }
    }
  }

  // ---------- the rules ----------

  /** Where an address first occurs. */
  function FirstAt(addrs: seq<Addr>, src: Addr): (i: nat)
    requires src in addrs
    ensures i < |addrs| && addrs[i] == src
  {
    if addrs[0] == src then 0 else 1 + FirstAt(addrs[1..], src)
  }

  /** The first rule for a source address. */
  function FirstRule(rules: seq<Rule>, src: Addr): Option<Rule> {
    if rules == [] then None
    else if rules[0].selector == From(src) then Some(rules[0])
    else FirstRule(rules[1..], src)
  }

  /** Rules in front decide if any of them does; otherwise the rest decide. */
  lemma {:induction false} RoutedConcat(
    front: seq<Rule>, rest: seq<Rule>, routes: set<Route>, custom: Meaning, p: Packet, r: Route)
    ensures Routed(front + rest, routes, custom, p, r) <==>
      if Decided(front, routes, custom, p) then Routed(front, routes, custom, p, r)
      else Routed(rest, routes, custom, p, r)
  {
    if front == [] {
      assert front + rest == rest;
    } else {
      assert (front + rest)[1..] == front[1..] + rest;
      RoutedConcat(front[1..], rest, routes, custom, p, r);
      assert front == [front[0]] + front[1..];
      assert front[0] in front;
    }
  }

  /** Where every table covers the destination, the first rule for the source decides. */
  lemma {:induction false} FirstRuleDecides(rules: seq<Rule>, routes: set<Route>, custom: Meaning, p: Packet, r: Route)
    requires forall rule :: rule in rules ==> rule.selector.From? && HasRoute(routes, rule.table, p.dst)
    ensures Decided(rules, routes, custom, p) <==> FirstRule(rules, p.src).Some?
    ensures Routed(rules, routes, custom, p, r) <==>
      FirstRule(rules, p.src).Some? && Chosen(routes, FirstRule(rules, p.src).value.table, p.dst, r)
  {
    if rules != [] {
      assert rules[0] in rules;
      FirstRuleDecides(rules[1..], routes, custom, p, r);
      assert rules == [rules[0]] + rules[1..];
    }
  }

  lemma {:induction false} FirstSourceRule(addrs: seq<Addr>, n: nat, src: Addr)
    requires n <= |addrs|
    ensures FirstRule(SourceRules(addrs)[n..], src) ==
      if src in addrs[n..] then Some(Rule(1, From(src), SOURCE_TABLE_BASE + n + FirstAt(addrs[n..], src))) else None
    decreases |addrs| - n
  {
    if n < |addrs| {
      FirstSourceRule(addrs, n + 1, src);
      assert SourceRules(addrs)[n..][1..] == SourceRules(addrs)[n + 1..];
      assert addrs[n..][1..] == addrs[n + 1..];
    }
  }

  lemma SourceRulesDecide(addrs: seq<Addr>, routes: set<Route>, custom: Meaning, p: Packet, r: Route)
    requires forall t :: SOURCE_TABLE_BASE <= t < SOURCE_TABLE_BASE + |addrs| ==> HasRoute(routes, t, p.dst)
    ensures Decided(SourceRules(addrs), routes, custom, p) <==> p.src in addrs
    ensures p.src in addrs ==>
      (Routed(SourceRules(addrs), routes, custom, p, r)
       <==> Chosen(routes, SOURCE_TABLE_BASE + FirstAt(addrs, p.src), p.dst, r))
  {
    FirstRuleDecides(SourceRules(addrs), routes, custom, p, r);
    FirstSourceRule(addrs, 0, p.src);
    assert SourceRules(addrs)[0..] == SourceRules(addrs) && addrs[0..] == addrs;
  }

  /** Were the tables of the source routes empty before? */
  predicate SourceTablesEmpty(host: Host, def: DefaultRoute) {
    forall r :: r in host.net.routes ==>
      !(SOURCE_TABLE_BASE <= r.table < SOURCE_TABLE_BASE + |def.link.addrs|)
  }

  /** A source table covers everything ... */
  lemma SourceTableCovers(host: Host, config: ClientConfig, def: DefaultRoute, i: nat, dst: Addr)
    requires i < |def.link.addrs|
    ensures SourceRoutes(def)[i] in ClientRoutes(host, config, def)
    ensures Covers(SourceRoutes(def)[i], SOURCE_TABLE_BASE + i, dst)
    ensures HasRoute(ClientRoutes(host, config, def), SOURCE_TABLE_BASE + i, dst)
  {
    EverythingContains(dst);
    assert SourceRoutes(def)[i] in SourceRoutes(def);
  }

  /** ... and if it was empty before, its one route is the daemon's. */
  lemma SourceTableRoute(host: Host, config: ClientConfig, def: DefaultRoute, i: nat, dst: Addr, r: Route)
    requires i < |def.link.addrs| && FewAddresses(def) && SourceTablesEmpty(host, def)
    ensures Chosen(ClientRoutes(host, config, def), SOURCE_TABLE_BASE + i, dst, r) <==> r == SourceRoutes(def)[i]
  {
    SourceTableCovers(host, config, def, i, dst);
    forall o | o in ClientRoutes(host, config, def) && o.table == SOURCE_TABLE_BASE + i
      ensures o == SourceRoutes(def)[i]
    {
      OnlySourceRoute(host, config, def, i, o);
    }
  }

  lemma OnlySourceRoute(host: Host, config: ClientConfig, def: DefaultRoute, i: nat, o: Route)
    requires i < |def.link.addrs| && FewAddresses(def) && SourceTablesEmpty(host, def)
    requires o in ClientRoutes(host, config, def) && o.table == SOURCE_TABLE_BASE + i
    ensures o == SourceRoutes(def)[i]
  {
    assert o in SourceRoutes(def);
  }

  lemma SourceTablesRoute(host: Host, config: ClientConfig, def: DefaultRoute, dst: Addr)
    ensures forall t :: SOURCE_TABLE_BASE <= t < SOURCE_TABLE_BASE + |def.link.addrs| ==>
              HasRoute(ClientRoutes(host, config, def), t, dst)
  {
    forall t | SOURCE_TABLE_BASE <= t < SOURCE_TABLE_BASE + |def.link.addrs|
      ensures HasRoute(ClientRoutes(host, config, def), t, dst)
    {
      SourceTableCovers(host, config, def, t - SOURCE_TABLE_BASE, dst);
    }
  }

  // ---------- where packets go ----------

  /** Do the daemon's rules decide: an own source address, and no host rule ahead of them that decides? */
  predicate BySource(rules: seq<Rule>, routes: set<Route>, def: DefaultRoute, custom: Meaning, p: Packet) {
    p.src in def.link.addrs && !Decided(rules[..Lead(rules, 1)], routes, custom, p)
  }

  /** The daemon's rules among any others: they decide for their addresses, the others as before. */
  lemma SplicedRulesDecide(
    rules: seq<Rule>, routes: set<Route>, def: DefaultRoute, custom: Meaning, p: Packet, r: Route)
    requires forall t :: SOURCE_TABLE_BASE <= t < SOURCE_TABLE_BASE + |def.link.addrs| ==> HasRoute(routes, t, p.dst)
    ensures Routed(WithRules(rules, SourceRules(def.link.addrs)), routes, custom, p, r) <==>
      if BySource(rules, routes, def, custom, p)
      then Chosen(routes, SOURCE_TABLE_BASE + FirstAt(def.link.addrs, p.src), p.dst, r)
      else Routed(rules, routes, custom, p, r)
  {
    var k, ours := Lead(rules, 1), SourceRules(def.link.addrs);
    assert WithRules(rules, ours) == rules[..k] + (ours + rules[k..]);
    assert rules == rules[..k] + rules[k..];
    RoutedConcat(rules[..k], ours + rules[k..], routes, custom, p, r);
    RoutedConcat(ours, rules[k..], routes, custom, p, r);
    RoutedConcat(rules[..k], rules[k..], routes, custom, p, r);
    SourceRulesDecide(def.link.addrs, routes, custom, p, r);
  }

  /** After configuring, on a host with any policy rules. */
  lemma PolicyOfRoutes(host: Host, config: ClientConfig, def: DefaultRoute, custom: Meaning, p: Packet, r: Route)
    ensures var rules, routes := host.net.rules, ClientRoutes(host, config, def);
            Routed(WithRules(rules, SourceRules(def.link.addrs)), routes, custom, p, r) <==>
            if BySource(rules, routes, def, custom, p)
            then Chosen(routes, SOURCE_TABLE_BASE + FirstAt(def.link.addrs, p.src), p.dst, r)
            else Routed(rules, routes, custom, p, r)
  {
    SourceTablesRoute(host, config, def, p.dst);
    SplicedRulesDecide(host.net.rules, ClientRoutes(host, config, def), def, custom, p, r);
  }

  /**
   After any configuration that gets to its end, on a host with any policy rules: a packet
   from an address of the default interface is decided by that address's own table, unless a
   host rule ahead decides; every other packet is decided by the host's rules alone.
   */
  lemma PolicyAfterConfigure(
    host: Host, config: ClientConfig, def: DefaultRoute, custom: Meaning, p: Packet, r: Route)
    requires FewAddresses(def) && ClientConfigured(host, config, Some(def)).1
    ensures var net := ClientConfigured(host, config, Some(def)).0.net;
            Routed(net.rules, net.routes, custom, p, r) <==>
            if BySource(host.net.rules, net.routes, def, custom, p)
            then Chosen(net.routes, SOURCE_TABLE_BASE + FirstAt(def.link.addrs, p.src), p.dst, r)
            else Routed(host.net.rules, net.routes, custom, p, r)
  {
    ConfigureEffect(host, config, def);
    PolicyOfRoutes(host, config, def, custom, p, r);
  }

  /** Do these rules leave the packet to the main table? */
  predicate MainFirst(rules: seq<Rule>, routes: set<Route>, custom: Meaning, p: Packet) {
    exists m :: 0 <= m < |rules| && rules[m].table == MAIN_TABLE && Decides(rules[m], routes, custom, p)
                && !Decided(rules[..m], routes, custom, p)
  }

  lemma MainDecides(rules: seq<Rule>, routes: set<Route>, custom: Meaning, p: Packet, r: Route)
    requires MainFirst(rules, routes, custom, p)
    ensures Routed(rules, routes, custom, p, r) <==> Chosen(routes, MAIN_TABLE, p.dst, r)
  {
    var m :| 0 <= m < |rules| && rules[m].table == MAIN_TABLE && Decides(rules[m], routes, custom, p)
      && !Decided(rules[..m], routes, custom, p);
    RoutedConcat(rules[..m], rules[m..], routes, custom, p, r);
    assert rules == rules[..m] + rules[m..];
  }

  /** What the main table chooses after the first configuration. */
  ghost predicate FirstConnectChoice(host: Host, config: ClientConfig, def: DefaultRoute, dst: Addr, r: Route) {
    if dst == config.serverIp || dst == config.controlPlaneIp then ToHostByGateway(def, dst, r)
    else if HasLongRoute(host, dst) then Chosen(OffTunnel(host.daemon.tun, host.net.routes), MAIN_TABLE, dst, r)
    else IntoTunnel(host.daemon.tun, dst, r)
  }

  lemma FirstConnectMainTable(host: Host, config: ClientConfig, def: DefaultRoute, dst: Addr, r: Route)
    requires FewAddresses(def) && NothingInTheWay(host, config, def)
    requires host.daemon.defaultLink.None? && def.link.index != host.daemon.tun
    requires !Contains(config.client, dst)
    ensures Chosen(ClientRoutes(host, config, def), MAIN_TABLE, dst, r) <==>
            FirstConnectChoice(host, config, def, dst, r)
  {
    if dst == config.serverIp {
      PinnedHostsAvoidTheTunnel(host, config, def, Pins(config, def)[0], r);
    } else if dst == config.controlPlaneIp {
      PinnedHostsAvoidTheTunnel(host, config, def, Pins(config, def)[1], r);
    } else if HasLongRoute(host, dst) {
      LongRouteKept(host, config, def, dst, r);
    } else {
      NoLongRouteTunnels(host, config, def, dst, r);
    }
  }

  /** Where the source tables cover a destination and one route is chosen in its table. */
  lemma RoutedInTable(rules: seq<Rule>, routes: set<Route>, def: DefaultRoute, custom: Meaning, p: Packet,
                      own: Route, r: Route)
    requires forall t :: SOURCE_TABLE_BASE <= t < SOURCE_TABLE_BASE + |def.link.addrs| ==> HasRoute(routes, t, p.dst)
    requires BySource(rules, routes, def, custom, p)
    requires Chosen(routes, SOURCE_TABLE_BASE + FirstAt(def.link.addrs, p.src), p.dst, r) <==> r == own
    ensures Routed(WithRules(rules, SourceRules(def.link.addrs)), routes, custom, p, r) <==> r == own
  {
    SplicedRulesDecide(rules, routes, def, custom, p, r);
  }

  /** What the daemon's rules decide leaves by the default gateway, if the source tables were empty. */
  lemma RoutedBySource(host: Host, config: ClientConfig, def: DefaultRoute, custom: Meaning, p: Packet, r: Route)
    requires FewAddresses(def) && SourceTablesEmpty(host, def)
    requires BySource(host.net.rules, ClientRoutes(host, config, def), def, custom, p)
    ensures var rules := WithRules(host.net.rules, SourceRules(def.link.addrs));
            var routes := ClientRoutes(host, config, def);
            Routed(rules, routes, custom, p, r) <==> AnywhereByGateway(def, FirstAt(def.link.addrs, p.src), r)
  {
    var i := FirstAt(def.link.addrs, p.src);
    SourceFields(def, i, r);
    SourceTablesRoute(host, config, def, p.dst);
    SourceTableRoute(host, config, def, i, p.dst, r);
    RoutedInTable(host.net.rules, ClientRoutes(host, config, def), def, custom, p, SourceRoutes(def)[i], r);
  }

  /** What the host's rules leave to the main table goes as FirstConnectChoice says. */
  lemma RoutedByMain(host: Host, config: ClientConfig, def: DefaultRoute, custom: Meaning, p: Packet, r: Route)
    requires FewAddresses(def) && NothingInTheWay(host, config, def)
    requires host.daemon.defaultLink.None? && def.link.index != host.daemon.tun && !Contains(config.client, p.dst)
    requires !BySource(host.net.rules, ClientRoutes(host, config, def), def, custom, p)
    requires MainFirst(host.net.rules, ClientRoutes(host, config, def), custom, p)
    ensures var rules := WithRules(host.net.rules, SourceRules(def.link.addrs));
            var routes := ClientRoutes(host, config, def);
            Routed(rules, routes, custom, p, r) <==> FirstConnectChoice(host, config, def, p.dst, r)
  {
    PolicyOfRoutes(host, config, def, custom, p, r);
    MainDecides(host.net.rules, ClientRoutes(host, config, def), custom, p, r);
    FirstConnectMainTable(host, config, def, p.dst, r);
  }

  /** After the first configuration, on a kernel with these rules and routes. */
  ghost predicate FirstConnectRoutes(host: Host, config: ClientConfig, def: DefaultRoute, custom: Meaning, p: Packet,
                                     r: Route, rules: seq<Rule>, routes: set<Route>)
  {
    if BySource(host.net.rules, routes, def, custom, p) then
      SourceTablesEmpty(host, def) ==>
        (Routed(rules, routes, custom, p, r) <==> AnywhereByGateway(def, FirstAt(def.link.addrs, p.src), r))
    else
      MainFirst(host.net.rules, routes, custom, p) ==>
        (Routed(rules, routes, custom, p, r) <==> FirstConnectChoice(host, config, def, p.dst, r))
  }

  lemma FirstConnectCases(host: Host, config: ClientConfig, def: DefaultRoute, custom: Meaning, p: Packet, r: Route)
    requires FewAddresses(def) && NothingInTheWay(host, config, def)
    requires host.daemon.defaultLink.None? && def.link.index != host.daemon.tun && !Contains(config.client, p.dst)
    ensures FirstConnectRoutes(host, config, def, custom, p, r,
                               WithRules(host.net.rules, SourceRules(def.link.addrs)), ClientRoutes(host, config, def))
  {
    var rules, routes := host.net.rules, ClientRoutes(host, config, def);
    if BySource(rules, routes, def, custom, p) {
      if SourceTablesEmpty(host, def) {
        RoutedBySource(host, config, def, custom, p, r);
      }
    } else if MainFirst(rules, routes, custom, p) {
      RoutedByMain(host, config, def, custom, p, r);
    }
  }

  /**
   The first configuration since the daemon started, on a host with any policy rules, for every
   packet to a destination outside the tunnel's own subnet: what the daemon's rules decide
   leaves by the default gateway, and what the host's rules leave to the main table goes as
   FirstConnectChoice says.
   */
  lemma FirstConnectRouting(
    host: Host, config: ClientConfig, def: DefaultRoute, custom: Meaning, p: Packet, r: Route)
    requires FewAddresses(def) && ClientConfigured(host, config, Some(def)).1
    requires host.daemon.defaultLink.None? && def.link.index != host.daemon.tun
    requires !Contains(config.client, p.dst)
    ensures var net := ClientConfigured(host, config, Some(def)).0.net;
            FirstConnectRoutes(host, config, def, custom, p, r, net.rules, net.routes)
  {
    ConfigureSucceedsIff(host, config, def);
    ConfigureEffect(host, config, def);
    FirstConnectCases(host, config, def, custom, p, r);
  }

  /** On the standard rules nothing precedes the daemon's, and the main table decides the rest. */
  lemma StandardRulesAreMainFirst(host: Host, config: ClientConfig, def: DefaultRoute, custom: Meaning, p: Packet)
    ensures var routes := ClientRoutes(host, config, def);
            && (BySource(StandardRules(), routes, def, custom, p) <==> p.src in def.link.addrs)
            && MainFirst(StandardRules(), routes, custom, p)
  {
    HalfIsThere(host, config, def, p.dst);
    var routes := ClientRoutes(host, config, def);
    assert StandardRules()[..0] == [];
    assert Decides(StandardRules()[0], routes, custom, p);
  }

  /** The same on a host with the standard rules and empty source tables, without conditions. */
  lemma StandardHostRouting(
    host: Host, config: ClientConfig, def: DefaultRoute, custom: Meaning, p: Packet, r: Route)
    requires FewAddresses(def) && ClientConfigured(host, config, Some(def)).1
    requires host.daemon.defaultLink.None? && def.link.index != host.daemon.tun
    requires !Contains(config.client, p.dst)
    requires host.net.rules == StandardRules() && SourceTablesEmpty(host, def)
    ensures var net := ClientConfigured(host, config, Some(def)).0.net;
            Routed(net.rules, net.routes, custom, p, r) <==>
            if p.src in def.link.addrs
            then AnywhereByGateway(def, FirstAt(def.link.addrs, p.src), r)
            else FirstConnectChoice(host, config, def, p.dst, r)
  {
    ConfigureEffect(host, config, def);
    StandardRulesAreMainFirst(host, config, def, custom, p);
    FirstConnectRouting(host, config, def, custom, p, r);
  }

  /**
   Every later configuration adds no pins: traffic for the server itself that is left to the
   main table enters the tunnel exactly when no earlier route longer than /1 covers the server.
   */
  lemma LaterConnectMayLoop(
    host: Host, config: ClientConfig, def: DefaultRoute, custom: Meaning, p: Packet, r: Route)
    requires FewAddresses(def) && ClientConfigured(host, config, Some(def)).1
    requires host.daemon.defaultLink.Some? && p.dst == config.serverIp && !Contains(config.client, p.dst)
    requires var routes := ClientRoutes(host, config, def);
             && !BySource(host.net.rules, routes, def, custom, p) && MainFirst(host.net.rules, routes, custom, p)
    ensures var net := ClientConfigured(host, config, Some(def)).0.net;
            if HasLongRoute(host, p.dst)
            then Routed(net.rules, net.routes, custom, p, r) ==> r.dev != host.daemon.tun
            else Routed(net.rules, net.routes, custom, p, r) <==> IntoTunnel(host.daemon.tun, p.dst, r)
  {
    ConfigureSucceedsIff(host, config, def);
    ConfigureEffect(host, config, def);
    PolicyAfterConfigure(host, config, def, custom, p, r);
    MainDecides(host.net.rules, ClientRoutes(host, config, def), custom, p, r);
    if HasLongRoute(host, p.dst) {
      LongRouteKept(host, config, def, p.dst, r);
    } else {
      NoLongRouteTunnels(host, config, def, p.dst, r);
    }
  }

  // ---------- the default gateway ----------

  /**
   After the first configuration the server and the control plane are reached, and only through
   the gateway and the interface of the best default route that the host had.
   */
  lemma PinnedHostsLeaveByTheGateway(host: Host, config: ClientConfig, def: DefaultRoute, dst: Addr, r: Route)
    returns (i: nat, best: Route)
    requires FewAddresses(def) && ClientConfigured(host, config, Some(def)).1 && IsDefault(host.net, Some(def))
    requires host.daemon.defaultLink.None? && def.link.index != host.daemon.tun
    requires dst == config.serverIp || dst == config.controlPlaneIp
    ensures i < |host.net.links| && IsBest(host.net, i, best)
    ensures var routes := ClientConfigured(host, config, Some(def)).0.net.routes;
            && (Chosen(routes, MAIN_TABLE, dst, r) ==>
                  r.dst == HostNetwork(dst) && r.gw == best.gw && r.dev == best.dev)
            && exists o :: Chosen(routes, MAIN_TABLE, dst, o)
  {
    i, best :| IsBest(host.net, i, best) && def == DefaultRoute(host.net.links[i], best.gw);
    ConfigureSucceedsIff(host, config, def);
    ConfigureEffect(host, config, def);
    var pin := if dst == config.serverIp then Pins(config, def)[0] else Pins(config, def)[1];
    PinFields(config, def, pin);
    PinnedHostsAvoidTheTunnel(host, config, def, pin, r);
    PinnedHostsAvoidTheTunnel(host, config, def, pin, pin);
  }

  /**
   After any configuration, what the daemon's rules decide is delivered, and only through the
   gateway and the interface of the best default route that the host had.
   */
  lemma SourcePacketsLeaveByTheGateway(
    host: Host, config: ClientConfig, def: DefaultRoute, custom: Meaning, p: Packet, r: Route)
    returns (i: nat, best: Route)
    requires FewAddresses(def) && ClientConfigured(host, config, Some(def)).1 && IsDefault(host.net, Some(def))
    requires SourceTablesEmpty(host, def)
    requires BySource(host.net.rules, ClientConfigured(host, config, Some(def)).0.net.routes, def, custom, p)
    ensures i < |host.net.links| && IsBest(host.net, i, best) && p.src in host.net.links[i].addrs
    ensures var net := ClientConfigured(host, config, Some(def)).0.net;
            && (Routed(net.rules, net.routes, custom, p, r) ==> r.gw == best.gw && r.dev == best.dev)
            && exists o :: Routed(net.rules, net.routes, custom, p, o)
  {
    i, best :| IsBest(host.net, i, best) && def == DefaultRoute(host.net.links[i], best.gw);
    ConfigureEffect(host, config, def);
    var k := FirstAt(def.link.addrs, p.src);
    RoutedBySource(host, config, def, custom, p, r);
    RoutedBySource(host, config, def, custom, p, SourceRoutes(def)[k]);
    SourceFields(def, k, SourceRoutes(def)[k]);
  }

  /** After the first configuration every packet that the promise is about has a route. */
  lemma FirstConnectReaches(host: Host, config: ClientConfig, def: DefaultRoute, custom: Meaning, p: Packet)
    requires FewAddresses(def) && ClientConfigured(host, config, Some(def)).1
    requires var routes := ClientConfigured(host, config, Some(def)).0.net.routes;
             BySource(host.net.rules, routes, def, custom, p) || MainFirst(host.net.rules, routes, custom, p)
    ensures var net := ClientConfigured(host, config, Some(def)).0.net;
            exists r :: Routed(net.rules, net.routes, custom, p, r)
  {
    ConfigureEffect(host, config, def);
    var rules, ours, routes := host.net.rules, SourceRules(def.link.addrs), ClientRoutes(host, config, def);
    if BySource(rules, routes, def, custom, p) {
      SourceTablesRoute(host, config, def, p.dst);
      SourceRulesDecide(def.link.addrs, routes, custom, p, SourceRoutes(def)[0]);
      var rule :| rule in ours && Decides(rule, routes, custom, p);
      InSplice(rules, ours, rule);
    } else {
      var m :| 0 <= m < |rules| && rules[m].table == MAIN_TABLE && Decides(rules[m], routes, custom, p)
        && !Decided(rules[..m], routes, custom, p);
      InSplice(rules, ours, rules[m]);
    }
    RoutedExists(WithRules(rules, ours), routes, custom, p);
  }
}
