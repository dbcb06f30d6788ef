/**
 The scan for the next client address of a target.

 The scan starts one past the network address, which is the server's, and walks upward while
 it is still inside the network, comparing texts with the set of taken texts.
 */
module Allocation {
  import opened Wrappers
  import opened Ipv4
  import opened Database

  datatype AllocationError = Sql(error: SqlError) | NoSuchTarget | BadNetwork | NoAddressLeft

  datatype Lease = Lease(clientIp: string, clientCidr: string)

  /** The network of a target, if its two columns read as one. */
  function NetworkOf(t: Target): Option<Prefix> {
    ParsePrefix(t.networkIp + t.networkCidr)
  }

  /** The text of the i-th address after the network address. */
  function AddressText(p: Prefix, i: nat): string
    requires i < Capacity(p)
  {
    Show(Nth(p, i))
  }

  /** The first free address text at or after index i. */
  function FreeFrom(p: Prefix, i: nat, taken: set<string>): Option<string>
    requires i <= Capacity(p)
    decreases Capacity(p) - i
  {
    if i == Capacity(p) then None
    else if AddressText(p, i) !in taken then Some(AddressText(p, i))
    else FreeFrom(p, i + 1, taken)
  }

  function NextFree(p: Prefix, taken: set<string>): Option<string> {
    FreeFrom(p, 0, taken)
  }

  /** The texts of the first n addresses after the network address. */
  function FirstTexts(p: Prefix, n: nat): set<string>
    requires n <= Capacity(p)
  {
    set i | 0 <= i < n :: AddressText(p, i)
  }

  // ---------- what the scan means ----------

  /** a is the least address of the network above the network address whose text is free. */
  ghost predicate IsLowestFree(p: Prefix, taken: set<string>, a: Addr) {
    && p.addr < a && Contains(p, a) && Show(a) !in taken
    && forall b: Addr :: p.addr < b < a ==> Show(b) in taken
  }

  ghost predicate AllTaken(p: Prefix, taken: set<string>) {
    forall b: Addr :: p.addr < b && Contains(p, b) ==> Show(b) in taken
  }

  lemma {:induction false} FreeFromMeaning(p: Prefix, i: nat, taken: set<string>)
    requires i <= Capacity(p)
    requires forall j :: 0 <= j < i ==> AddressText(p, j) in taken
    ensures FreeFrom(p, i, taken).None? ==> forall j :: 0 <= j < Capacity(p) ==> AddressText(p, j) in taken
    ensures FreeFrom(p, i, taken).Some? ==>
      exists k :: 0 <= k < Capacity(p)
                  && FreeFrom(p, i, taken).value == AddressText(p, k) && AddressText(p, k) !in taken
                  && forall j :: 0 <= j < k ==> AddressText(p, j) in taken
    decreases Capacity(p) - i
  {
    if i < Capacity(p) && AddressText(p, i) in taken {
      FreeFromMeaning(p, i + 1, taken);
    }
  }

  /** Index and address views of a network agree. */
  lemma IndexOf(p: Prefix, b: Addr) returns (i: int)
    ensures i == b - p.addr - 1
    ensures p.addr < b && Contains(p, b) <==> 0 <= i < Capacity(p)
    ensures 0 <= i < Capacity(p) ==> Nth(p, i) == b
  {
    i := b - p.addr - 1;
    BlockEndIsAnAddressBound(p);
    if p.addr <= b {
      ContainsAbove(p, b);
    }
  }

  /** The scan finds exactly the least free address, and finds none exactly when all are taken. */
  lemma NextFreeMeaning(p: Prefix, taken: set<string>, a: Addr)
    ensures NextFree(p, taken) == Some(Show(a)) <==> IsLowestFree(p, taken, a)
    ensures NextFree(p, taken).None? <==> AllTaken(p, taken)
    ensures NextFree(p, taken).Some? ==> exists b: Addr :: NextFree(p, taken).value == Show(b)
  {
    FreeFromMeaning(p, 0, taken);
    forall b: Addr | p.addr < b && Contains(p, b)
      ensures exists i :: 0 <= i < Capacity(p) && AddressText(p, i) == Show(b) && b == p.addr + 1 + i
    {
      var i := IndexOf(p, b);
      assert AddressText(p, i) == Show(b);
    }
    if NextFree(p, taken).Some? {
      var k :| 0 <= k < Capacity(p) && NextFree(p, taken).value == AddressText(p, k) && AddressText(p, k) !in taken
        && forall j :: 0 <= j < k ==> AddressText(p, j) in taken;
      LowestFreeAtIndex(p, taken, k);
      var b := Nth(p, k);
      if Show(a) == Show(b) {
        ShowInjective(a, b);
      }
      if IsLowestFree(p, taken, a) {
        LowestFreeUnique(p, taken, a, b);
      }
    }
  }

  lemma LowestFreeUnique(p: Prefix, taken: set<string>, a: Addr, b: Addr)
    requires IsLowestFree(p, taken, a) && IsLowestFree(p, taken, b)
    ensures a == b
  {
  }

  lemma LowestFreeAtIndex(p: Prefix, taken: set<string>, k: nat)
    requires k < Capacity(p) && AddressText(p, k) !in taken
    requires forall j :: 0 <= j < k ==> AddressText(p, j) in taken
    ensures IsLowestFree(p, taken, Nth(p, k))
  {
    var a := Nth(p, k);
    BlockEndIsAnAddressBound(p);
    ContainsAbove(p, a);
    forall b: Addr | p.addr < b < a
      ensures Show(b) in taken
    {
      assert AddressText(p, b - p.addr - 1) == Show(b);
    }
  }

  // ---------- counting ----------

  lemma AddressTextInjective(p: Prefix, i: nat, j: nat)
    requires i < Capacity(p) && j < Capacity(p) && AddressText(p, i) == AddressText(p, j)
    ensures i == j
  {
    ShowInjective(Nth(p, i), Nth(p, j));
  }

  lemma FirstTextsGrow(p: Prefix, n: nat)
    requires n < Capacity(p)
    ensures AddressText(p, n) !in FirstTexts(p, n)
    ensures FirstTexts(p, n + 1) == FirstTexts(p, n) + {AddressText(p, n)}
  {
    if AddressText(p, n) in FirstTexts(p, n) {
      var i :| 0 <= i < n && AddressText(p, i) == AddressText(p, n);
      AddressTextInjective(p, i, n);
    }
  }

  lemma FirstTextsMeaning(p: Prefix, n: nat, ip: string)
    requires n <= Capacity(p)
    ensures ip in FirstTexts(p, n) <==> exists a: Addr :: p.addr < a <= p.addr + n && ip == Show(a)
  {
    BlockEndIsAnAddressBound(p);
    if ip in FirstTexts(p, n) {
      var i :| 0 <= i < n && AddressText(p, i) == ip;
      assert p.addr < Nth(p, i) <= p.addr + n && ip == Show(Nth(p, i));
    }
    if a: Addr :| p.addr < a <= p.addr + n && ip == Show(a) {
      assert AddressText(p, a - p.addr - 1) == ip;
    }
  }

  /** When the first n addresses are the taken ones, the scan is a counter. */
  lemma {:induction false} ScanIsACounter(p: Prefix, i: nat, n: nat)
    requires i <= n <= Capacity(p)
    ensures FreeFrom(p, i, FirstTexts(p, n)) == if n < Capacity(p) then Some(AddressText(p, n)) else None
    decreases n - i
  {
    if i < n {
      assert AddressText(p, i) in FirstTexts(p, n);
      ScanIsACounter(p, i + 1, n);
    } else if n < Capacity(p) {
      FirstTextsGrow(p, n);
    }
  }

  // ---------- the method ----------

  /** The i-th step of the walk: where it stands, and whether it goes on. */
  lemma WalkAt(p: Prefix, i: nat, a: Option<Addr>)
    requires i <= Capacity(p)
    requires a == if p.addr + 1 + i == ADDRESS_COUNT then None else Some(p.addr + 1 + i)
    ensures a.Some? && Contains(p, a.value) <==> i < Capacity(p)
    ensures i < Capacity(p) ==> Nth(p, i) == a.value
  {
    CapacityFits(p);
    if a.Some? {
      var j := IndexOf(p, a.value);
      assert j == i;
    }
  }

  lemma CapacityFits(p: Prefix)
    ensures p.addr + Capacity(p) < ADDRESS_COUNT
  {
    BlockEndIsAnAddressBound(p);
  }

  /** Walks the network; the walk also ends after 255.255.255.255, which has no successor. */
  method Scan(p: Prefix, taken: set<string>) returns (ipToAllocate: Option<string>)
    ensures ipToAllocate == NextFree(p, taken)
  {
    ipToAllocate := None;
    var currIp := Next(p.addr);
    ghost var i := 0;
    WalkAt(p, i, currIp);
    while currIp.Some? && Contains(p, currIp.value)
      invariant i <= Capacity(p)
      invariant currIp == if p.addr + 1 + i == ADDRESS_COUNT then None else Some(p.addr + 1 + i)
      invariant currIp.Some? && Contains(p, currIp.value) <==> i < Capacity(p)
      invariant ipToAllocate.None?
      invariant FreeFrom(p, i, taken) == NextFree(p, taken)
      decreases Capacity(p) - i
    {
      WalkAt(p, i, currIp);
      if Show(currIp.value) !in taken {
        ipToAllocate := Some(Show(currIp.value));
        return;
      }
      currIp := Next(currIp.value);
      i := i + 1;
      WalkAt(p, i, currIp);
    }
  }

  /** getNextClientIp: two queries, then the scan. */
  method GetNextClientIp(db: RVPNDatabase, target: string, targetQueryFails: bool, ipsQueryFails: bool)
    returns (r: Result<Lease, AllocationError>)
    ensures targetQueryFails ==> r == Err(Sql(QueryFailed))
    ensures !targetQueryFails && target !in db.targets ==> r == Err(NoSuchTarget)
    ensures !targetQueryFails && target in db.targets && ipsQueryFails ==> r == Err(Sql(QueryFailed))
    ensures !targetQueryFails && target in db.targets && !ipsQueryFails ==>
      var t := db.targets[target];
      var taken := ClientIps(db.connections, target);
      match NetworkOf(t)
      case None => r == Err(BadNetwork)
      case Some(p) =>
        && (r.Ok? ==> exists a: Addr :: IsLowestFree(p, taken, a) && r.value == Lease(Show(a), t.networkCidr))
        && (r.Err? ==> r.error.NoAddressLeft? && AllTaken(p, taken))
        && r.Ok? == NextFree(p, taken).Some? && (r.Ok? ==> r.value.clientIp == NextFree(p, taken).value)
  {
    var tgt := db.GetTargetByName(target, targetQueryFails);
    if tgt.Err? {
      return Err(Sql(tgt.error));
    }
    if tgt.value.None? {
      return Err(NoSuchTarget);
    }
    var t := tgt.value.value;
    var clientIpSet := db.GetTargetClientIps(target, ipsQueryFails);
    if clientIpSet.Err? {
      return Err(Sql(clientIpSet.error));
    }
    var network := NetworkOf(t);
    if network.None? {
      return Err(BadNetwork);
    }
    var ipToAllocate := Scan(network.value, clientIpSet.value);
    NextFreeMeaning(network.value, clientIpSet.value, 0);
    if ipToAllocate.None? {
      return Err(NoAddressLeft);
    }
    ghost var a: Addr :| ipToAllocate.value == Show(a);
    NextFreeMeaning(network.value, clientIpSet.value, a);
    r := Ok(Lease(ipToAllocate.value, t.networkCidr));
  }

  const DEFAULT_NETWORK := Prefix(0x0A08_0001, 23)

  lemma DefaultAddressText()
    ensures Show(0x0A08_0001) == "10.8.0.1"
  {
    var o := Octets(0x0A08_0001);
    assert o == [10, 8, 0, 1];
    assert o[..3] == [10, 8, 0];
    assert [10, 8, 0][..2] == [10, 8] && [10, 8][..1] == [10] && [10][..0] == [];
    assert ShowFields([10]) == "10.";
    assert ShowFields([10, 8]) == "10.8.";
    assert ShowFields([10, 8, 0]) == "10.8.0.";
  }

  lemma DefaultCapacity()
    ensures Capacity(DEFAULT_NETWORK) == 510
  {
    assert BlockSize(28) == 16;
    assert BlockSize(23) == 512;
  }

  /** The network every created target gets has room for 510 clients. */
  lemma DefaultNetwork(t: Target)
    requires t.networkIp == "10.8.0.1" && t.networkCidr == "/23"
    ensures NetworkOf(t) == Some(DEFAULT_NETWORK)
    ensures Capacity(DEFAULT_NETWORK) == 510
  {
    DefaultAddressText();
    DefaultCapacity();
    ParsePrefixOf(0x0A08_0001, "23");
    assert "/23" == "/" + "23";
  }
}
