/**
 The WireGuard device of a serving daemon, seen as a map from client address to the public
 key of the peer that owns it.

 Every allowed address is a single host, so the map is exact.  Giving an address to a peer
 takes it away from its previous owner; "replace allowed addresses" first takes away every
 address the peer had; "replace peers" starts from an empty device.  Addresses are kept as
 text, which Ipv4.ParseShow and Ipv4.ShowParse show to be the same as keeping the numbers.
 */
module Peers {
  type AllowedIps = map<string, string>

  datatype WireGuardPeer = WireGuardPeer(publicKey: string, allowedIp: string)

  datatype PeerConfig = PeerConfig(publicKey: string, allowedIp: string, replaceAllowedIps: bool)

  function WithoutKey(m: AllowedIps, key: string): AllowedIps {
    map ip | ip in m && m[ip] != key :: m[ip]
  }

  function Apply(m: AllowedIps, c: PeerConfig): AllowedIps {
    (if c.replaceAllowedIps then WithoutKey(m, c.publicKey) else m)[c.allowedIp := c.publicKey]
  }

  function ApplyAll(m: AllowedIps, configs: seq<PeerConfig>): AllowedIps {
    if configs == [] then m
    else Apply(ApplyAll(m, configs[..|configs| - 1]), configs[|configs| - 1])
  }

  function Configs(peers: seq<WireGuardPeer>, replaceAllowedIps: bool): (configs: seq<PeerConfig>)
    ensures |configs| == |peers|
  {
    seq(|peers|, i requires 0 <= i < |peers| =>
      PeerConfig(peers[i].publicKey, peers[i].allowedIp, replaceAllowedIps))
  }

  /** The device after serving with these peers. */
  function Served(peers: seq<WireGuardPeer>): AllowedIps {
    ApplyAll(map[], Configs(peers, true))
  }

  /** The device after appending these peers to what it has. */
  function Appended(m: AllowedIps, peers: seq<WireGuardPeer>): AllowedIps {
    ApplyAll(m, Configs(peers, false))
  }

  predicate Owns(m: AllowedIps, ip: string, key: string) {
    ip in m && m[ip] == key
  }

  // ---------- the device ----------

  class WireguardDevice {
    var allowedIps: AllowedIps

    constructor ()
      ensures allowedIps == map[]
    {
      allowedIps := map[];
    }

    method ConfigureDevice(replacePeers: bool, configs: seq<PeerConfig>)
      modifies this
      ensures allowedIps == ApplyAll(if replacePeers then map[] else old(allowedIps), configs)
    {
      if replacePeers {
        allowedIps := map[];
      }
      ghost var start := allowedIps;
      for i := 0 to |configs|
        invariant allowedIps == ApplyAll(start, configs[..i])
      {
        var c := configs[i];
        if c.replaceAllowedIps {
          allowedIps := WithoutKey(allowedIps, c.publicKey);
        }
        allowedIps := allowedIps[c.allowedIp := c.publicKey];
        assert configs[..i + 1][..i] == configs[..i];
      }
      assert configs[..|configs|] == configs;
    }

    /** The peer part of UpdateServeConf. */
    method UpdateServeConf(clientPeers: seq<WireGuardPeer>)
      modifies this
      ensures allowedIps == Served(clientPeers)
    {
      var peers := BuildConfigs(clientPeers, true);
      ConfigureDevice(true, peers);
    }

    method AppendPeers(toAppendPeers: seq<WireGuardPeer>)
      modifies this
      ensures allowedIps == Appended(old(allowedIps), toAppendPeers)
    {
      var peers := BuildConfigs(toAppendPeers, false);
      ConfigureDevice(false, peers);
    }
  }

  method BuildConfigs(clientPeers: seq<WireGuardPeer>, replaceAllowedIps: bool) returns (peers: seq<PeerConfig>)
    ensures peers == Configs(clientPeers, replaceAllowedIps)
  {
    peers := [];
    for i := 0 to |clientPeers|
      invariant peers == Configs(clientPeers, replaceAllowedIps)[..i]
    {
      peers := peers + [PeerConfig(clientPeers[i].publicKey, clientPeers[i].allowedIp, replaceAllowedIps)];
    }
  }

  // ---------- meaning ----------

  ghost predicate DistinctIps(peers: seq<WireGuardPeer>) {
    forall i, j :: 0 <= i < j < |peers| ==> peers[i].allowedIp != peers[j].allowedIp
  }

  ghost predicate DistinctKeys(peers: seq<WireGuardPeer>) {
    forall i, j :: 0 <= i < j < |peers| ==> peers[i].publicKey != peers[j].publicKey
  }

  /** No later entry mentions the address of entry i. */
  ghost predicate LastWithIp(peers: seq<WireGuardPeer>, i: nat)
    requires i < |peers|
  {
    forall j :: i < j < |peers| ==> peers[j].allowedIp != peers[i].allowedIp
  }

  /** No later entry mentions the key of entry i. */
  ghost predicate LastWithKey(peers: seq<WireGuardPeer>, i: nat)
    requires i < |peers|
  {
    forall j :: i < j < |peers| ==> peers[j].publicKey != peers[i].publicKey
  }

  ghost predicate IsEntry(peers: seq<WireGuardPeer>, i: int, ip: string, key: string) {
    0 <= i < |peers| && peers[i].allowedIp == ip && peers[i].publicKey == key
  }

  lemma ConfigsFront(peers: seq<WireGuardPeer>, replaceAllowedIps: bool)
    requires peers != []
    ensures Configs(peers, replaceAllowedIps)[..|peers| - 1] == Configs(peers[..|peers| - 1], replaceAllowedIps)
  {
  }

  /** Entry i is the last word on its address and on its key. */
  ghost predicate LastWord(peers: seq<WireGuardPeer>, i: int, ip: string, key: string) {
    IsEntry(peers, i, ip, key) && LastWithIp(peers, i) && LastWithKey(peers, i)
  }

  /** A last word stays one exactly while the next entry repeats neither address nor key. */
  lemma LastWordStays(peers: seq<WireGuardPeer>, i: nat, ip: string, key: string)
    requires i + 1 < |peers|
    ensures LastWord(peers, i, ip, key) <==>
      && LastWord(peers[..|peers| - 1], i, ip, key)
      && peers[|peers| - 1].allowedIp != ip && peers[|peers| - 1].publicKey != key
  {
  }

  /**
   Serving, for any list: an address belongs to a key exactly when some entry says so and no
   later entry repeats its address or its key.
   */
  lemma {:induction false} ServedMeaning(peers: seq<WireGuardPeer>, ip: string, key: string)
    ensures Owns(Served(peers), ip, key) <==> exists i :: LastWord(peers, i, ip, key)
    decreases |peers|
  {
    if peers != [] {
      var n := |peers| - 1;
      var front, c := peers[..n], peers[n];
      ConfigsFront(peers, true);
      ServedMeaning(front, ip, key);
      if ip == c.allowedIp && key == c.publicKey {
        assert LastWord(peers, n, ip, key);
      } else if i :| LastWord(front, i, ip, key) {
        LastWordStays(peers, i, ip, key);
      }
      if i :| LastWord(peers, i, ip, key) {
        if i < n {
          LastWordStays(peers, i, ip, key);
        }
      }
    }
  }

  /**
   Appending, for any list: the last entry for an address decides its owner, and addresses
   not mentioned keep theirs.
   */
  lemma {:induction false} AppendedMeaning(m: AllowedIps, peers: seq<WireGuardPeer>, ip: string, key: string)
    ensures Owns(Appended(m, peers), ip, key) <==>
      || (exists i :: IsEntry(peers, i, ip, key) && LastWithIp(peers, i))
      || (Owns(m, ip, key) && forall i :: 0 <= i < |peers| ==> peers[i].allowedIp != ip)
    decreases |peers|
  {
    if peers != [] {
      var n := |peers| - 1;
      var front := peers[..n];
      ConfigsFront(peers, false);
      AppendedMeaning(m, front, ip, key);
      if ip == peers[n].allowedIp {
        if key == peers[n].publicKey {
          assert IsEntry(peers, n, ip, key) && LastWithIp(peers, n);
        }
      } else {
        if exists i :: IsEntry(front, i, ip, key) && LastWithIp(front, i) {
          var i :| IsEntry(front, i, ip, key) && LastWithIp(front, i);
          assert IsEntry(peers, i, ip, key) && LastWithIp(peers, i);
        }
        if exists i :: IsEntry(peers, i, ip, key) && LastWithIp(peers, i) {
          var i :| IsEntry(peers, i, ip, key) && LastWithIp(peers, i);
          assert IsEntry(front, i, ip, key) && LastWithIp(front, i);
        }
      }
    }
  }

  lemma {:induction false} ApplyAllConcat(m: AllowedIps, a: seq<PeerConfig>, b: seq<PeerConfig>)
    ensures ApplyAll(m, a + b) == ApplyAll(ApplyAll(m, a), b)
    decreases |b|
  {
    if b == [] {
      assert a + b == a;
    } else {
      ApplyAllConcat(m, a, b[..|b| - 1]);
      assert (a + b)[..|a + b| - 1] == a + b[..|b| - 1];
    }
  }

  lemma AppendedConcat(m: AllowedIps, a: seq<WireGuardPeer>, b: seq<WireGuardPeer>)
    ensures Appended(m, a + b) == Appended(Appended(m, a), b)
  {
    ApplyAllConcat(m, Configs(a, false), Configs(b, false));
    assert Configs(a + b, false) == Configs(a, false) + Configs(b, false);
  }

  lemma SameOwners(m: AllowedIps, n: AllowedIps)
    requires forall ip, key :: Owns(m, ip, key) <==> Owns(n, ip, key)
    ensures m == n
  {
    forall ip | ip in m
      ensures ip in n && n[ip] == m[ip]
    {
      assert Owns(m, ip, m[ip]);
    }
    forall ip | ip in n
      ensures ip in m
    {
      assert Owns(n, ip, n[ip]);
    }
  }

  /** A list with distinct addresses, in one call each: they agree exactly when the keys are distinct too. */
  lemma BulkIsOneAppend(peers: seq<WireGuardPeer>)
    requires DistinctIps(peers)
    ensures Served(peers) == Appended(map[], peers) <==> DistinctKeys(peers)
  {
    if DistinctKeys(peers) {
      forall ip, key
        ensures Owns(Served(peers), ip, key) <==> Owns(Appended(map[], peers), ip, key)
      {
        ServedMeaning(peers, ip, key);
        AppendedMeaning(map[], peers, ip, key);
        forall i | 0 <= i < |peers|
          ensures LastWithIp(peers, i) && (IsEntry(peers, i, ip, key) ==> LastWord(peers, i, ip, key))
        {
        }
      }
      SameOwners(Served(peers), Appended(map[], peers));
    } else {
      var i, j :| 0 <= i < j < |peers| && peers[i].publicKey == peers[j].publicKey;
      var ip, key := peers[i].allowedIp, peers[i].publicKey;
      ServedMeaning(peers, ip, key);
      AppendedMeaning(map[], peers, ip, key);
      assert IsEntry(peers, i, ip, key) && LastWithIp(peers, i);
      assert !LastWithKey(peers, i);
      assert Owns(Appended(map[], peers), ip, key);
    }
  }

  /** The parts of a split, one after another. */
  function Flat(parts: seq<seq<WireGuardPeer>>): seq<WireGuardPeer> {
    if parts == [] then [] else Flat(parts[..|parts| - 1]) + parts[|parts| - 1]
  }

  /** One call for each part. */
  function AppendedAll(m: AllowedIps, parts: seq<seq<WireGuardPeer>>): AllowedIps {
    if parts == [] then m else Appended(AppendedAll(m, parts[..|parts| - 1]), parts[|parts| - 1])
  }

  lemma {:induction false} AppendedAllIsOne(m: AllowedIps, parts: seq<seq<WireGuardPeer>>)
    ensures AppendedAll(m, parts) == Appended(m, Flat(parts))
    decreases |parts|
  {
    if parts != [] {
      AppendedAllIsOne(m, parts[..|parts| - 1]);
      AppendedConcat(m, Flat(parts[..|parts| - 1]), parts[|parts| - 1]);
    }
  }

  /**
   Bulk and incremental construction, from an empty device and for any split, into any number
   of calls, of a list with distinct addresses: they agree exactly when the keys are distinct.
   */
  lemma BulkIsIncremental(parts: seq<seq<WireGuardPeer>>)
    requires DistinctIps(Flat(parts))
    ensures Served(Flat(parts)) == AppendedAll(map[], parts) <==> DistinctKeys(Flat(parts))
  {
    AppendedAllIsOne(map[], parts);
    BulkIsOneAppend(Flat(parts));
  }
}
