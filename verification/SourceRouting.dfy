/**
 Enabling and stopping source routing: exactly when enabling succeeds, what it leaves in the
 kernel, and that stopping takes exactly that away again.
 */
module SourceRouting {
  import opened Ipv4
  import opened Kernel
  import opened WireguardDaemons

  // ---------- rules ----------

  /** How many rules come before a new rule of this priority. */
  function Lead(rules: seq<Rule>, priority: nat): (k: nat)
    ensures k <= |rules|
  {
    if rules == [] || rules[0].priority > priority then 0 else 1 + Lead(rules[1..], priority)
  }

  /** Where the daemon's rules, all of priority 1, end up. */
  function WithRules(rules: seq<Rule>, ours: seq<Rule>): seq<Rule> {
    rules[..Lead(rules, 1)] + ours + rules[Lead(rules, 1)..]
  }

  lemma {:induction false} InsertedAtLead(rules: seq<Rule>, r: Rule)
    ensures var k := Lead(rules, r.priority);
            RuleInserted(rules, r) == rules[..k] + [r] + rules[k..]
  {
    if rules != [] && rules[0].priority <= r.priority {
      InsertedAtLead(rules[1..], r);
      var k := Lead(rules, r.priority);
      assert rules[1..][..k - 1] == rules[1..k] && rules[1..][k - 1..] == rules[k..];
      assert rules[..k] == [rules[0]] + rules[1..k];
    }
  }

  lemma {:induction false} LeadSplits(rules: seq<Rule>)
    ensures forall i :: 0 <= i < Lead(rules, 1) ==> rules[i].priority <= 1
    ensures Lead(rules[Lead(rules, 1)..], 1) == 0
  {
    if rules != [] && rules[0].priority <= 1 {
      LeadSplits(rules[1..]);
      assert rules[1..][Lead(rules, 1) - 1..] == rules[Lead(rules, 1)..];
    }
  }

  lemma {:induction false} LeadAppend(front: seq<Rule>, rest: seq<Rule>)
    requires forall i :: 0 <= i < |front| ==> front[i].priority <= 1
    ensures Lead(front + rest, 1) == |front| + Lead(rest, 1)
  {
    if front == [] {
      assert front + rest == rest;
    } else {
      LeadAppend(front[1..], rest);
      assert (front + rest)[1..] == front[1..] + rest;
    }
  }

  lemma LeadOfSplice(rules: seq<Rule>, ours: seq<Rule>)
    requires forall r :: r in ours ==> r.priority == 1
    ensures Lead(WithRules(rules, ours), 1) == Lead(rules, 1) + |ours|
  {
    var k := Lead(rules, 1);
    LeadSplits(rules);
    LeadAppend(rules[..k] + ours, rules[k..]);
  }

  predicate AllDistinct(rs: seq<Rule>) {
    forall i, j :: 0 <= i < j < |rs| ==> rs[i] != rs[j]
  }

  lemma SpliceOneMore(rules: seq<Rule>, ours: seq<Rule>, r: Rule)
    requires r.priority == 1 && forall o :: o in ours ==> o.priority == 1
    ensures RuleInserted(WithRules(rules, ours), r) == WithRules(rules, ours + [r])
  {
    var spliced, k := WithRules(rules, ours), Lead(rules, 1);
    LeadOfSplice(rules, ours);
    InsertedAtLead(spliced, r);
    assert spliced[..k + |ours|] == rules[..k] + ours && spliced[k + |ours|..] == rules[k..];
  }

  lemma InSplice(rules: seq<Rule>, ours: seq<Rule>, r: Rule)
    ensures r in WithRules(rules, ours) <==> r in rules || r in ours
  {
    assert rules == rules[..Lead(rules, 1)] + rules[Lead(rules, 1)..];
  }

  lemma {:induction false} AddRulesSplices(rules: seq<Rule>, ours: seq<Rule>)
    requires AllDistinct(ours) && forall r :: r in ours ==> r.priority == 1
    ensures AddRules(rules, ours).1 <==> forall r :: r in ours ==> r !in rules
    ensures AddRules(rules, ours).1 ==> AddRules(rules, ours).0 == WithRules(rules, ours)
    decreases |ours|
  {
    if ours == [] {
      assert WithRules(rules, ours) == rules;
    } else {
      var front, r := ours[..|ours| - 1], ours[|ours| - 1];
      AddRulesSplices(rules, front);
      assert ours == front + [r];
      InSplice(rules, front, r);
      SpliceOneMore(rules, front, r);
    }
  }

  lemma {:induction false} DeletedAfter(a: seq<Rule>, r: Rule, b: seq<Rule>)
    requires r !in a
    ensures RuleDeleted(a + [r] + b, r) == a + b
  {
    if a != [] {
      DeletedAfter(a[1..], r, b);
      assert (a + [r] + b)[1..] == a[1..] + [r] + b;
      assert a + b == [a[0]] + (a[1..] + b);
    }
  }

  lemma {:induction false} DeleteRulesUnsplices(front: seq<Rule>, ours: seq<Rule>, back: seq<Rule>, n: nat)
    requires n <= |ours| && forall r :: r in ours ==> r !in front
    ensures DeleteRules(front + ours + back, ours[..n]) == (front + ours[n..] + back, true)
    decreases n
  {
    if n == 0 {
      assert ours[0..] == ours;
    } else {
      DeleteRulesUnsplices(front, ours, back, n - 1);
      assert ours[..n][..n - 1] == ours[..n - 1];
      assert ours[n - 1..] == [ours[n - 1]] + ours[n..];
      assert ours[n - 1] in ours;
      assert front + ours[n - 1..] + back == front + [ours[n - 1]] + (ours[n..] + back);
      DeletedAfter(front, ours[n - 1], ours[n..] + back);
      assert front + (ours[n..] + back) == front + ours[n..] + back;
    }
  }

  // ---------- routes ----------

  predicate OwnSlots(rs: seq<Route>) {
    forall i, j :: 0 <= i < j < |rs| ==> !SameSlot(rs[i], rs[j])
  }

  predicate SlotsFree(routes: set<Route>, rs: seq<Route>) {
    forall r :: r in rs ==> !SlotTaken(routes, r)
  }

  function SetOf(rs: seq<Route>): set<Route> {
    set r | r in rs
  }

  lemma OtherSlots(rs: seq<Route>, n: nat)
    requires OwnSlots(rs) && n < |rs|
    ensures forall o :: o in rs[..n] || o in rs[n + 1..] ==> !SameSlot(o, rs[n])
  {
  }

  lemma {:induction false} AddRoutesUnites(routes: set<Route>, rs: seq<Route>)
    requires OwnSlots(rs)
    ensures AddRoutes(routes, rs).1 <==> SlotsFree(routes, rs)
    ensures AddRoutes(routes, rs).1 ==> AddRoutes(routes, rs).0 == routes + SetOf(rs)
    decreases |rs|
  {
    if rs != [] {
      var front, r := rs[..|rs| - 1], rs[|rs| - 1];
      AddRoutesUnites(routes, front);
      assert rs == front + [r];
      if AddRoutes(routes, front).1 {
        OtherSlots(rs, |rs| - 1);
        assert SlotTaken(routes + SetOf(front), r) <==> SlotTaken(routes, r);
      }
    }
  }

  /** Deleting one added route of a fixed metric takes away just that one. */
  lemma DeleteOne(routes: set<Route>, r: Route, rest: seq<Route>)
    requires r.metric > 0 && !SlotTaken(routes, r) && forall o :: o in rest ==> !SameSlot(o, r)
    ensures AnyFits(routes + SetOf([r] + rest), r)
    ensures RouteDeleted(routes + SetOf([r] + rest), r) == routes + SetOf(rest)
  {
    var before := routes + SetOf([r] + rest);
    assert r in before && Fits(r, r) && SameSlot(r, r);
    forall o | o in before && Fits(r, o)
      ensures o == r
    {
      assert SameSlot(o, r);
    }
    assert IsVictim(before, r, r);
    assert r !in routes && r !in rest;
  }

  /** Deleting added routes of a fixed metric takes away exactly those. */
  lemma {:induction false} DeleteRoutesSubtracts(routes: set<Route>, rs: seq<Route>, n: nat)
    requires n <= |rs| && OwnSlots(rs) && SlotsFree(routes, rs) && forall r :: r in rs ==> r.metric > 0
    ensures DeleteRoutes(routes + SetOf(rs), rs[..n]) == (routes + SetOf(rs[n..]), true)
    decreases n
  {
    if n == 0 {
      assert rs[0..] == rs;
    } else {
      DeleteRoutesSubtracts(routes, rs, n - 1);
      assert rs[..n][..n - 1] == rs[..n - 1];
      assert rs[n - 1..] == [rs[n - 1]] + rs[n..];
      OtherSlots(rs, n - 1);
      DeleteOne(routes, rs[n - 1], rs[n..]);
    }
  }

  // ---------- enabling and stopping ----------

  /**
   Each address gets a rule and a table of its own: the rule of priority 1, the table 130, 131
   and so on, holding a default route of metric 50 through the given gateway.
   */
  lemma SourceTablesAreOwn(def: DefaultRoute)
    ensures AllDistinct(SourceRules(def.link.addrs)) && OwnSlots(SourceRoutes(def))
    ensures forall r :: r in SourceRules(def.link.addrs) ==> r.priority == 1
    ensures forall r :: r in SourceRoutes(def) ==> r.metric == 50
    ensures forall i :: 0 <= i < |def.link.addrs| ==>
              && SourceRules(def.link.addrs)[i] == Rule(1, From(def.link.addrs[i]), 130 + i)
              && SourceRoutes(def)[i].table == 130 + i && SourceRoutes(def)[i].dst == Prefix(0, 0)
              && SourceRoutes(def)[i].gw == def.gw && SourceRoutes(def)[i].dev == def.link.index
  {
    assert Everything() == Prefix(0, 0);
  }

  /** Enabling succeeds exactly when none of its rules and none of its table slots is in use. */
  lemma EnableSucceedsIff(host: Host, def: DefaultRoute)
    ensures SourceRoutingEnabled(host, def).1 <==>
      && (forall r :: r in SourceRules(def.link.addrs) ==> r !in host.net.rules)
      && SlotsFree(host.net.routes, SourceRoutes(def))
  {
    SourceTablesAreOwn(def);
    AddRulesSplices(host.net.rules, SourceRules(def.link.addrs));
    AddRoutesUnites(host.net.routes, SourceRoutes(def));
  }

  lemma EnableEffect(host: Host, def: DefaultRoute)
    requires SourceRoutingEnabled(host, def).1
    ensures SourceRoutingEnabled(host, def).0 ==
      Host(host.net.(rules := WithRules(host.net.rules, SourceRules(def.link.addrs)),
                     routes := host.net.routes + SetOf(SourceRoutes(def))),
           host.daemon.(appendedSrcRules := SourceRules(def.link.addrs), appendedSrcRoutes := SourceRoutes(def)))
  {
    SourceTablesAreOwn(def);
    AddRulesSplices(host.net.rules, SourceRules(def.link.addrs));
    AddRoutesUnites(host.net.routes, SourceRoutes(def));
  }

  /** Each list is remembered exactly if all of it is added; no other field of the daemon changes. */
  lemma EnableRemembers(host: Host, def: DefaultRoute)
    ensures var (after, ok) := SourceRoutingEnabled(host, def);
            && after.daemon == host.daemon.(
                 appendedSrcRules := if forall r :: r in SourceRules(def.link.addrs) ==> r !in host.net.rules
                                     then SourceRules(def.link.addrs) else host.daemon.appendedSrcRules,
                 appendedSrcRoutes := if ok then SourceRoutes(def) else host.daemon.appendedSrcRoutes)
            && after.net == host.net.(rules := after.net.rules, routes := after.net.routes)
  {
    SourceTablesAreOwn(def);
    AddRulesSplices(host.net.rules, SourceRules(def.link.addrs));
  }

  lemma StopDeletesRoutes(routes: set<Route>, def: DefaultRoute)
    requires SlotsFree(routes, SourceRoutes(def))
    ensures DeleteRoutes(routes + SetOf(SourceRoutes(def)), SourceRoutes(def)) == (routes, true)
  {
    var rs := SourceRoutes(def);
    SourceTablesAreOwn(def);
    DeleteRoutesSubtracts(routes, rs, |rs|);
    assert rs[..|rs|] == rs && routes + SetOf(rs[|rs|..]) == routes;
  }

  lemma StopDeletesRules(front: seq<Rule>, back: seq<Rule>, def: DefaultRoute)
    requires forall r :: r in SourceRules(def.link.addrs) ==> r !in front
    ensures var ours := SourceRules(def.link.addrs);
            DeleteRules(front + ours + back, ours) == (front + back, true)
  {
    var ours := SourceRules(def.link.addrs);
    DeleteRulesUnsplices(front, ours, back, |ours|);
    assert ours[..|ours|] == ours && front + ours[|ours|..] + back == front + back;
  }

  /** Stopping on a kernel that holds the daemon's additions among other rules and routes. */
  lemma StopSubtracts(host: Host, front: seq<Rule>, back: seq<Rule>, routes: set<Route>, def: DefaultRoute)
    requires host.daemon.appendedSrcRules == SourceRules(def.link.addrs)
    requires host.daemon.appendedSrcRoutes == SourceRoutes(def)
    requires forall r :: r in SourceRules(def.link.addrs) ==> r !in front
    requires SlotsFree(routes, SourceRoutes(def))
    requires host.net.rules == front + SourceRules(def.link.addrs) + back
    requires host.net.routes == routes + SetOf(SourceRoutes(def))
    ensures SourceRoutingStopped(host) == host.(net := host.net.(rules := front + back, routes := routes))
  {
    StopDeletesRoutes(routes, def);
    StopDeletesRules(front, back, def);
  }

  /** Whenever enabling succeeds, for any list of addresses, stopping restores the kernel. */
  lemma StopUndoesEnable(host: Host, def: DefaultRoute)
    requires SourceRoutingEnabled(host, def).1
    ensures SourceRoutingStopped(SourceRoutingEnabled(host, def).0).net == host.net
  {
    EnableSucceedsIff(host, def);
    EnableEffect(host, def);
    var rules, k := host.net.rules, Lead(host.net.rules, 1);
    StopSubtracts(SourceRoutingEnabled(host, def).0, rules[..k], rules[k..], host.net.routes, def);
    assert rules[..k] + rules[k..] == rules;
  }
}
