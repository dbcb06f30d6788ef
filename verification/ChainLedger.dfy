/**
 Accounting for the firewall rules of a serving daemon when chain calls fail.

 Chains do not say who appended a rule.  The ledger does: what the daemon appended and has not
 deleted, and what it deleted although the host had appended it.
 */
module ChainLedger {
  import opened Wrappers
  import opened Kernel
  import opened WireguardDaemons

  datatype Ledger = Ledger(added: multiset<ChainRule>, taken: multiset<ChainRule>)

  /** The chains are the host's own rules, less the taken, plus the added. */
  predicate Balanced(own: multiset<ChainRule>, chains: multiset<ChainRule>, l: Ledger) {
    l.taken <= own && chains == own - l.taken + l.added
  }

  function Entered(l: Ledger, r: ChainRule): Ledger {
    l.(added := l.added + multiset{r})
  }

  /** One rule like r is deleted: the daemon's own, if it has one there. */
  function Struck(l: Ledger, r: ChainRule): Ledger {
    if r in l.added then l.(added := l.added - multiset{r}) else l.(taken := l.taken + multiset{r})
  }

  function EnabledLedger(l: Ledger, tun: string, link: string, calls: ChainCalls): Ledger {
    if !calls.first then l
    else if !calls.second then Entered(l, ForwardFrom(tun))
    else Entered(Entered(l, ForwardFrom(tun)), MasqueradeOut(link))
  }

  function DisabledLedger(l: Ledger, chains: multiset<ChainRule>, tun: string, link: string, calls: ChainCalls)
    : Ledger
  {
    if !calls.first || ForwardFrom(tun) !in chains then l
    else if !calls.second || MasqueradeOut(link) !in chains then Struck(l, ForwardFrom(tun))
    else Struck(Struck(l, ForwardFrom(tun)), MasqueradeOut(link))
  }

  /** The ledger is about the two rules of this daemon only. */
  predicate Concerns(l: Ledger, tun: string, link: Option<string>) {
    && (forall r :: r in l.added ==> IsOwnRule(r, tun, link))
    && (forall r :: r in l.taken ==> IsOwnRule(r, tun, link))
  }

  predicate IsOwnRule(r: ChainRule, tun: string, link: Option<string>) {
    r == ForwardFrom(tun) || (link.Some? && r == MasqueradeOut(link.value))
  }

  lemma StrikingBalances(own: multiset<ChainRule>, chains: multiset<ChainRule>, l: Ledger, r: ChainRule)
    requires Balanced(own, chains, l) && r in chains
    ensures Balanced(own, chains - multiset{r}, Struck(l, r))
  {
  }

  /** The host deletes rules of its own that are there, and appends others. */
  lemma OthersBalance(own: multiset<ChainRule>, chains: multiset<ChainRule>, l: Ledger,
                      unchained: multiset<ChainRule>, chained: multiset<ChainRule>)
    requires Balanced(own, chains, l) && unchained <= own - l.taken
    ensures Balanced(own - unchained + chained, chains - unchained + chained, l)
  {
  }

  lemma EnablingBalances(
    own: multiset<ChainRule>, chains: multiset<ChainRule>, l: Ledger, tun: string, link: string, calls: ChainCalls)
    requires Balanced(own, chains, l)
    ensures Balanced(own, ForwardingEnabled(chains, tun, link, calls), EnabledLedger(l, tun, link, calls))
  {
  }

  lemma DisablingBalances(
    own: multiset<ChainRule>, chains: multiset<ChainRule>, l: Ledger, tun: string, link: string, calls: ChainCalls)
    requires Balanced(own, chains, l)
    ensures Balanced(own, ForwardingDisabled(chains, tun, link, calls), DisabledLedger(l, chains, tun, link, calls))
  {
    var forward, masquerade := ForwardFrom(tun), MasqueradeOut(link);
    if calls.first && forward in chains {
      StrikingBalances(own, chains, l, forward);
      var left := chains - multiset{forward};
      assert masquerade in left <==> masquerade in chains;
      if masquerade in chains {
        StrikingBalances(own, left, Struck(l, forward), masquerade);
      } else {
        assert left - multiset{masquerade} == left;
      }
    }
  }

  const EMPTY := Ledger(multiset{}, multiset{})

  const BOTH := ChainCalls(true, true)

  /** The two rules of a daemon that serves. */
  function InForce(tun: string, link: string): Ledger {
    Ledger(multiset{ForwardFrom(tun), MasqueradeOut(link)}, multiset{})
  }

  lemma EnablingFromEmpty(tun: string, link: string)
    ensures EnabledLedger(EMPTY, tun, link, BOTH) == InForce(tun, link)
  {
  }

  lemma DisablingToEmpty(own: multiset<ChainRule>, chains: multiset<ChainRule>, tun: string, link: string)
    requires Balanced(own, chains, InForce(tun, link))
    ensures DisabledLedger(InForce(tun, link), chains, tun, link, BOTH) == EMPTY
  {
    var l := InForce(tun, link);
    assert ForwardFrom(tun) in l.added && MasqueradeOut(link) in l.added;
    assert Struck(l, ForwardFrom(tun)).added == multiset{MasqueradeOut(link)};
  }

  lemma StrikingConcerns(l: Ledger, r: ChainRule, tun: string, link: string)
    requires Concerns(l, tun, Some(link)) && (r == ForwardFrom(tun) || r == MasqueradeOut(link))
    ensures Concerns(Entered(l, r), tun, Some(link)) && Concerns(Struck(l, r), tun, Some(link))
  {
  }

  lemma CallsConcern(l: Ledger, chains: multiset<ChainRule>, tun: string, link: string, calls: ChainCalls)
    requires Concerns(l, tun, Some(link))
    ensures Concerns(EnabledLedger(l, tun, link, calls), tun, Some(link))
    ensures Concerns(DisabledLedger(l, chains, tun, link, calls), tun, Some(link))
  {
    StrikingConcerns(l, ForwardFrom(tun), tun, link);
    StrikingConcerns(Entered(l, ForwardFrom(tun)), MasqueradeOut(link), tun, link);
    StrikingConcerns(Struck(l, ForwardFrom(tun)), MasqueradeOut(link), tun, link);
  }

  /**
   For any chain calls that fail: enabling and then disabling restores the chains exactly when
   each rule that was appended could be deleted, and no deletion took a rule of the host's own
   for the one whose append failed.
   */
  lemma ForwardingRestoredIff(
    chains: multiset<ChainRule>, tun: string, link: string, appends: ChainCalls, deletes: ChainCalls)
    ensures ForwardingDisabled(ForwardingEnabled(chains, tun, link, appends), tun, link, deletes) == chains <==>
            if !appends.first then !(deletes.first && ForwardFrom(tun) in chains)
            else
              && deletes.first
              && (if appends.second then deletes.second else !(deletes.second && MasqueradeOut(link) in chains))
  {
    var forward, masquerade := ForwardFrom(tun), MasqueradeOut(link);
    var disabled := ForwardingDisabled(ForwardingEnabled(chains, tun, link, appends), tun, link, deletes);
    if !appends.first {
      assert disabled != chains ==> disabled[forward] < chains[forward];
    } else if !deletes.first {
      assert disabled[forward] == chains[forward] + 1;
    } else if appends.second {
      assert disabled[masquerade] == chains[masquerade] + if deletes.second then 0 else 1;
      assert deletes.second ==> disabled == chains;
    } else if deletes.second {
      assert disabled == chains - multiset{masquerade};
      assert disabled[masquerade] == chains[masquerade] <==> masquerade !in chains;
    } else {
      assert disabled == chains;
    }
  }
}
