/**
 The part of the Linux kernel that the daemon changes: route tables, source rules, firewall
 chains and the address of the tunnel interface.

 Every call is a function on values; the class Kernel runs the same calls on its own state.
 Adding a route fails if its table already has one for the same destination and metric;
 deleting one takes the lowest-metric route that fits the given one, where metric 0 and an
 absent gateway fit any.  The local table is not modelled: it only claims packets for the
 host itself.
 */
module Kernel {
  import opened Wrappers
  import opened Ipv4

  const MAIN_TABLE: nat := 254

  /** A destination: a prefix without host bits. */
  type Network = p: Prefix | BlockStart(p) == p.addr witness Prefix(0, 32)

  /** A route metric is an unsigned 32-bit number. */
  type Metric = m: nat | m < 0x1_0000_0000

  datatype Link = Link(index: nat, name: string, addrs: seq<Addr>)

  datatype Route = Route(dst: Network, gw: Option<Addr>, dev: nat, table: nat, metric: Metric)

  /** A packet; its traits are whatever else a policy rule may look at: mark, interface, service. */
  datatype Packet = Packet(src: Addr, dst: Addr, traits: string)

  /** What a policy rule selects: everything, one source address, or something of the host's own. */
  datatype Selector = Anything | From(src: Addr) | Custom(name: string)

  /** A policy rule: the packets it selects look in the table. */
  datatype Rule = Rule(priority: nat, selector: Selector, table: nat)

  datatype ChainRule = ForwardFrom(iface: string) | MasqueradeOut(iface: string) | OtherRule(text: string)

  datatype Net = Net(
    links: seq<Link>, routes: set<Route>, rules: seq<Rule>, chains: multiset<ChainRule>,
    tunnelAddr: Option<Prefix>)

  lemma SingleHostBlock()
    ensures BlockSize(32) == 1
  {
  }

  function HostNetwork(a: Addr): Network {
    Prefix(a, 32)
  }

  function Everything(): Network {
    BlockSizeOfAll();
    Prefix(0, 0)
  }

  lemma HalfBlock()
    ensures BlockSize(1) == 0x8000_0000
  {
    BlockSizeOfAll();
  }

  function LowerHalf(): Network {
    Prefix(0, 1)
  }

  function UpperHalf(): Network {
    HalfBlock();
    Prefix(0x8000_0000, 1)
  }

  /** The network a prefix lies in. */
  function Masked(p: Prefix): Network {
    BlockStartIsInTheBlock(p);
    Prefix(BlockStart(p), p.bits)
  }

  // ---------- routes ----------

  predicate SameSlot(a: Route, b: Route) {
    a.table == b.table && a.dst == b.dst && a.metric == b.metric
  }

  predicate SlotTaken(routes: set<Route>, r: Route) {
    exists o :: o in routes && SameSlot(o, r)
  }

  /** Does deleting `given` fit this route? */
  predicate Fits(given: Route, r: Route) {
    && r.table == given.table && r.dst == given.dst && r.dev == given.dev
    && (given.gw.None? || r.gw == given.gw)
    && (given.metric == 0 || r.metric == given.metric)
  }

  predicate AnyFits(routes: set<Route>, given: Route) {
    exists r :: r in routes && Fits(given, r)
  }

  predicate IsVictim(routes: set<Route>, given: Route, r: Route) {
    r in routes && Fits(given, r) && forall o :: o in routes && Fits(given, o) ==> r.metric <= o.metric
  }

  /** An interface has at most one route for a destination and metric in a table. */
  predicate Tidy(routes: set<Route>) {
    forall a, b :: a in routes && b in routes && SameSlot(a, b) && a.dev == b.dev ==> a == b
  }

  function RouteDeleted(routes: set<Route>, given: Route): set<Route> {
    routes - (set r | r in routes && IsVictim(routes, given, r))
  }

  /** Adding one route after another; stops at the first that fails. */
  function AddRoutes(routes: set<Route>, rs: seq<Route>): (set<Route>, bool) {
    if rs == [] then (routes, true)
    else
      var (routes', ok) := AddRoutes(routes, rs[..|rs| - 1]);
      if !ok || SlotTaken(routes', rs[|rs| - 1]) then (routes', false)
      else (routes' + {rs[|rs| - 1]}, true)
  }

  /** Deleting one route after another; stops at the first that fails. */
  function DeleteRoutes(routes: set<Route>, rs: seq<Route>): (set<Route>, bool) {
    if rs == [] then (routes, true)
    else
      var (routes', ok) := DeleteRoutes(routes, rs[..|rs| - 1]);
      if !ok || !AnyFits(routes', rs[|rs| - 1]) then (routes', false)
      else (RouteDeleted(routes', rs[|rs| - 1]), true)
  }

  /** Deleting one route after another, carrying on after failures. */
  function TryDeleteRoutes(routes: set<Route>, rs: seq<Route>): set<Route> {
    if rs == [] then routes
    else RouteDeleted(TryDeleteRoutes(routes, rs[..|rs| - 1]), rs[|rs| - 1])
  }

  /** Among the routes that fit, one has the lowest metric. */
  lemma {:induction false} VictimExists(routes: set<Route>, given: Route)
    requires AnyFits(routes, given)
    ensures exists r :: IsVictim(routes, given, r)
    decreases routes
  {
    var r :| r in routes && Fits(given, r);
    if AnyFits(routes - {r}, given) {
      VictimExists(routes - {r}, given);
      var v :| IsVictim(routes - {r}, given, v);
      if v.metric <= r.metric {
        assert IsVictim(routes, given, v);
      } else {
        assert IsVictim(routes, given, r);
      }
    } else {
      forall o | o in routes && Fits(given, o)
        ensures o == r
      {
        assert o in routes - {r} || o == r;
      }
      assert IsVictim(routes, given, r);
    }
  }

  /** In tidy tables there is one victim. */
  lemma VictimUnique(routes: set<Route>, given: Route, r: Route)
    requires Tidy(routes) && IsVictim(routes, given, r)
    ensures RouteDeleted(routes, given) == routes - {r}
  {
    forall o | IsVictim(routes, given, o)
      ensures o == r
    {
      assert SameSlot(o, r);
    }
  }

  lemma NothingFits(routes: set<Route>, given: Route)
    requires !AnyFits(routes, given)
    ensures RouteDeleted(routes, given) == routes
  {
  }

  // ---------- rules ----------

  /** A rule goes in front of the first rule with a greater priority number. */
  function RuleInserted(rules: seq<Rule>, r: Rule): seq<Rule> {
    if rules == [] || rules[0].priority > r.priority then [r] + rules
    else [rules[0]] + RuleInserted(rules[1..], r)
  }

  function RuleDeleted(rules: seq<Rule>, r: Rule): seq<Rule> {
    if rules == [] then []
    else if rules[0] == r then rules[1..]
    else [rules[0]] + RuleDeleted(rules[1..], r)
  }

  function AddRules(rules: seq<Rule>, rs: seq<Rule>): (seq<Rule>, bool) {
    if rs == [] then (rules, true)
    else
      var (rules', ok) := AddRules(rules, rs[..|rs| - 1]);
      if !ok || rs[|rs| - 1] in rules' then (rules', false)
      else (RuleInserted(rules', rs[|rs| - 1]), true)
  }

  function DeleteRules(rules: seq<Rule>, rs: seq<Rule>): (seq<Rule>, bool) {
    if rs == [] then (rules, true)
    else
      var (rules', ok) := DeleteRules(rules, rs[..|rs| - 1]);
      if !ok || rs[|rs| - 1] !in rules' then (rules', false)
      else (RuleDeleted(rules', rs[|rs| - 1]), true)
  }

  // ---------- the tunnel address ----------

  /** The route the kernel keeps for an interface address: none for a single host, none in 0/8. */
  function ConnectedRoutes(tun: nat, addr: Option<Prefix>): set<Route> {
    if addr.None? || addr.value.bits == 32 || Masked(addr.value).addr / 0x100_0000 == 0 then {}
    else {Route(Masked(addr.value), None, tun, MAIN_TABLE, 0)}
  }

  /** Replacing the address of the tunnel interface replaces its connected route. */
  function Readdressed(net: Net, tun: nat, addr: Prefix): Net {
    net.(routes := net.routes - ConnectedRoutes(tun, net.tunnelAddr) + ConnectedRoutes(tun, Some(addr)),
         tunnelAddr := Some(addr))
  }

  // ---------- the kernel as an object ----------

  class KernelState {
    var links: seq<Link>
    var routes: set<Route>
    var rules: seq<Rule>
    var chains: multiset<ChainRule>
    var tunnelAddr: Option<Prefix>

    constructor (net: Net)
      ensures Now() == net
    {
      links, routes, rules, chains, tunnelAddr := net.links, net.routes, net.rules, net.chains, net.tunnelAddr;
    }

    function Now(): Net
      reads this
    {
      Net(links, routes, rules, chains, tunnelAddr)
    }

    method RouteAdd(r: Route) returns (ok: bool)
      modifies this`routes
      ensures ok == !SlotTaken(old(routes), r)
      ensures routes == if ok then old(routes) + {r} else old(routes)
    {
      ok := !SlotTaken(routes, r);
      if ok {
        routes := routes + {r};
      }
    }

    method RouteDel(given: Route) returns (ok: bool)
      requires Tidy(routes)
      modifies this`routes
      ensures ok == AnyFits(old(routes), given)
      ensures routes == RouteDeleted(old(routes), given) && Tidy(routes)
    {
      ok := AnyFits(routes, given);
      if ok {
        VictimExists(routes, given);
        var victim :| victim in routes && IsVictim(routes, given, victim);
        VictimUnique(routes, given, victim);
        routes := routes - {victim};
      } else {
        NothingFits(routes, given);
      }
    }

    /** The main-table routes of an interface, in no particular order. */
    method RouteList(dev: nat) returns (list: seq<Route>)
      ensures forall r :: r in list <==> r in routes && r.dev == dev && r.table == MAIN_TABLE
      ensures forall i, j :: 0 <= i < j < |list| ==> list[i] != list[j]
    {
      list := [];
      var pending := set r | r in routes && r.dev == dev && r.table == MAIN_TABLE;
      ghost var all := pending;
      while pending != {}
        invariant pending <= all
        invariant forall r :: r in list <==> r in all - pending
        invariant forall i, j :: 0 <= i < j < |list| ==> list[i] != list[j]
        decreases pending
      {
        var r :| r in pending;
        assert r !in list;
        pending := pending - {r};
        list := list + [r];
      }
    }

    method RuleAdd(r: Rule) returns (ok: bool)
      modifies this`rules
      ensures ok == (r !in old(rules))
      ensures rules == if ok then RuleInserted(old(rules), r) else old(rules)
    {
      ok := r !in rules;
      if ok {
        rules := RuleInserted(rules, r);
      }
    }

    method RuleDel(r: Rule) returns (ok: bool)
      modifies this`rules
      ensures ok == (r in old(rules))
      ensures rules == if ok then RuleDeleted(old(rules), r) else old(rules)
    {
      ok := r in rules;
      if ok {
        rules := RuleDeleted(rules, r);
      }
    }

    /** assignInterfaceAddr on the tunnel interface. */
    method AssignInterfaceAddr(tun: nat, addr: Prefix)
      modifies this`routes, this`tunnelAddr
      ensures Now() == Readdressed(old(Now()), tun, addr)
    {
      routes := routes - ConnectedRoutes(tun, tunnelAddr);
      tunnelAddr := Some(addr);
      routes := routes + ConnectedRoutes(tun, tunnelAddr);
    }

    method ChainAppend(r: ChainRule, through: bool) returns (ok: bool)
      modifies this`chains
      ensures ok == through
      ensures chains == if ok then old(chains) + multiset{r} else old(chains)
    {
      ok := through;
      if ok {
        chains := chains + multiset{r};
      }
    }

    /** Fails if the call does not go through, and also if there is no such rule. */
    method ChainDelete(r: ChainRule, through: bool) returns (ok: bool)
      modifies this`chains
      ensures ok == (through && r in old(chains))
      ensures chains == if ok then old(chains) - multiset{r} else old(chains)
    {
      ok := through && r in chains;
      if ok {
        chains := chains - multiset{r};
      }
    }
  }
}
