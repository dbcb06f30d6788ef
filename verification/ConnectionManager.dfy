/**
 The connection manager: which session serves a target and which sessions are its clients.
 A session (one websocket and its JSON-RPC connection) is an opaque number.
 */
module ConnectionManagement {
  import opened Wrappers

  type Conn = nat

  class ConnectionManager {
    var servers: map<string, Conn>
    var clients: map<string, seq<Conn>>

    constructor ()
      ensures servers == map[] && clients == map[]
    {
      servers, clients := map[], map[];
    }

    /** True if an older serving session was overwritten. */
    method SetVPNServerConn(target: string, conn: Conn) returns (existed: bool)
      modifies this`servers
      ensures servers == old(servers)[target := conn]
      ensures existed == (target in old(servers))
    {
      existed := target in servers;
      servers := servers[target := conn];
    }

    method SetVPNClientConn(target: string, conn: Conn)
      modifies this`clients
      ensures clients == AddClient(old(clients), target, conn)
    {
      if target in clients {
        clients := clients[target := clients[target] + [conn]];
      } else {
        assert [] + [conn] == [conn];
        clients := clients[target := [conn]];
      }
    }

    method GetVPNServerConn(target: string) returns (conn: Option<Conn>)
      ensures conn == if target in servers then Some(servers[target]) else None
    {
      conn := if target in servers then Some(servers[target]) else None;
    }

    method GetVPNClientConn(target: string) returns (conns: seq<Conn>)
      ensures conns == ClientsOf(clients, target)
    {
      conns := if target in clients then clients[target] else [];
    }
  }

  function ClientsOf(clients: map<string, seq<Conn>>, target: string): seq<Conn> {
    if target in clients then clients[target] else []
  }

  function AddClient(clients: map<string, seq<Conn>>, target: string, conn: Conn): map<string, seq<Conn>> {
    clients[target := ClientsOf(clients, target) + [conn]]
  }
}
