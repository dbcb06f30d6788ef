/**
 The rVPN daemon object: its status, and the three instructions that change it.  Each is a
 step of the runs that Lifecycle reasons about.
 */
module RvpnDaemon {
  import opened Ipv4
  import opened Kernel
  import opened WireguardDaemons
  import opened ClientSetup
  import Lifecycle

  /** Every interface has at most as many addresses as there are source tables. */
  predicate FewOnLinks(net: Net) {
    forall l :: l in net.links ==> |l.addrs| <= MAX_ADDRESSES
  }

  class RVPNDaemon {
    var status: Lifecycle.Status
    const wireguardDaemon: WireguardDaemon

    constructor (wireguardDaemon: WireguardDaemon)
      ensures this.wireguardDaemon == wireguardDaemon && status == Lifecycle.StatusDisconnected
    {
      this.wireguardDaemon := wireguardDaemon;
      status := Lifecycle.StatusDisconnected;
    }

    /** Is this object in the state that w describes? */
    ghost predicate Shows(w: Lifecycle.World)
      reads this, wireguardDaemon, wireguardDaemon.kernel
    {
      !w.exited && w.host == wireguardDaemon.Now() && w.status == status
    }

    /** The connect_server branch of Handle; false where the process exits. */
    method ConnectServer(ghost w: Lifecycle.World, config: ClientConfig) returns (ok: bool, ghost w': Lifecycle.World)
      requires Shows(w) && Lifecycle.Inv(w) && FewOnLinks(w.host.net) && status.StatusDisconnected?
      modifies this, wireguardDaemon, wireguardDaemon.kernel
      ensures exists found :: w' == Lifecycle.Step(w, Lifecycle.ConnectServer(config, found))
      ensures w'.exited == !ok && (ok ==> Shows(w') && status.StatusConnected?)
    {
      ghost var found;
      ok, found := wireguardDaemon.UpdateClientConf(config);
      assert Lifecycle.Enabled(w, Lifecycle.ConnectServer(config, found));
      w' := Lifecycle.Step(w, Lifecycle.ConnectServer(config, found));
      if ok {
        status := Lifecycle.StatusConnected;
      }
    }

    /** serveVPNHandler. */
    method ServeVpn(ghost w: Lifecycle.World, internal: Prefix, calls: ChainCalls)
      returns (ok: bool, ghost w': Lifecycle.World)
      requires Shows(w) && Lifecycle.Inv(w) && FewOnLinks(w.host.net) && status.StatusDisconnected?
      modifies this, wireguardDaemon, wireguardDaemon.kernel
      ensures exists found :: w' == Lifecycle.Step(w, Lifecycle.ServeVpn(internal, found, calls))
      ensures w'.exited == !ok && (ok ==> Shows(w') && status.StatusServing?)
    {
      ghost var found;
      ok, found := wireguardDaemon.UpdateServeConf(internal, calls);
      assert Lifecycle.Enabled(w, Lifecycle.ServeVpn(internal, found, calls));
      w' := Lifecycle.Step(w, Lifecycle.ServeVpn(internal, found, calls));
      if ok {
        status := Lifecycle.StatusServing;
      }
    }

    method Disconnect(ghost w: Lifecycle.World, calls: ChainCalls) returns (ghost w': Lifecycle.World)
      requires Shows(w) && Lifecycle.Inv(w) && !status.StatusDisconnected?
      modifies this, wireguardDaemon, wireguardDaemon.kernel
      ensures w' == Lifecycle.Step(w, Lifecycle.Disconnect(calls))
      ensures Shows(w') && status.StatusDisconnected?
    {
      w' := Lifecycle.Step(w, Lifecycle.Disconnect(calls));
      wireguardDaemon.Disconnect(calls);
      status := Lifecycle.StatusDisconnected;
    }
  }
}
