/**
 The control plane's tables and the SQL statements on them.

 Every statement is atomic.  The schema gives a primary key to each table and one more
 constraint on connections: no two rows of a target hold the same client address.  Each
 statement is a function on table values; RVPNDatabase runs the statements on its own tables
 and may be told that the database reports an error instead.
 */
module Database {
  import opened Wrappers

  datatype Target = Target(
    name: string, owner: string, networkIp: string, networkCidr: string, dnsIp: string,
    serverPubkey: string, serverPublicIp: string, serverPublicVpnPort: string,
    serverInternalIp: string, serverInternalCidr: string, serverHeartbeat: string)

  datatype Connection = Connection(
    id: string, target: string, deviceId: string, pubkey: string, clientIp: string, clientCidr: string)

  type Targets = map<string, Target>

  type Connections = map<string, Connection>

  datatype SqlError = QueryFailed | UniqueViolation

  /** How a statement that writes, or a remote call, may go wrong: without effect, or after it. */
  datatype Fault = NoFault | Refused | Late

  // ---------- what the tables say ----------

  /** The ids of the rows of a target. */
  function Ids(rows: Connections, target: string): set<string> {
    set id | id in rows && rows[id].target == target
  }

  /** The client addresses taken on a target. */
  function ClientIps(rows: Connections, target: string): set<string> {
    set id | id in Ids(rows, target) :: rows[id].clientIp
  }

  predicate HasDevice(rows: Connections, target: string, device: string) {
    exists id :: id in rows && rows[id].target == target && rows[id].deviceId == device
  }

  /** A possible answer of SELECT ... WHERE target AND device_id, reading one row. */
  predicate Selects(rows: Connections, target: string, device: string, answer: Option<Connection>) {
    match answer
    case None => !HasDevice(rows, target, device)
    case Some(c) => c.id in rows && rows[c.id] == c && c.target == target && c.deviceId == device
  }

  /** A possible answer of SELECT ... WHERE target: every row of the target once, in some order. */
  ghost predicate Lists(rows: Connections, target: string, answer: seq<Connection>) {
    && (forall i :: 0 <= i < |answer| ==> answer[i].id in Ids(rows, target) && rows[answer[i].id] == answer[i])
    && (forall id :: id in Ids(rows, target) ==> rows[id] in answer)
    && (forall i, j :: 0 <= i < j < |answer| ==> answer[i].id != answer[j].id)
  }

  /** Rows are stored under their own id. */
  predicate Keyed(rows: Connections) {
    forall id :: id in rows ==> rows[id].id == id
  }

  /** UNIQUE (target, client_ip). */
  predicate AddressesUnique(rows: Connections) {
    forall i, j :: i in rows && j in rows && i != j && rows[i].target == rows[j].target
      ==> rows[i].clientIp != rows[j].clientIp
  }

  predicate AddressHeldByOther(rows: Connections, c: Connection) {
    exists id :: id in rows && id != c.id && rows[id].target == c.target && rows[id].clientIp == c.clientIp
  }

  // ---------- statements ----------

  /** INSERT INTO targets ... ON CONFLICT DO NOTHING. */
  function TargetInserted(targets: Targets, t: Target): Targets {
    if t.name in targets then targets else targets[t.name := t]
  }

  /** UPDATE targets SET every other column WHERE name. */
  function TargetUpdated(targets: Targets, name: string, t: Target): Targets {
    if name in targets then targets[name := t.(name := name)] else targets
  }

  predicate Inserts(rows: Connections, c: Connection) {
    c.id !in rows && !AddressHeldByOther(rows, c)
  }

  /** INSERT INTO connections ... ON CONFLICT DO NOTHING. */
  function ConnectionInserted(rows: Connections, c: Connection): Connections {
    if Inserts(rows, c) then rows[c.id := c] else rows
  }

  /** UPDATE connections SET every other column WHERE id; a broken constraint changes nothing. */
  function ConnectionUpdated(rows: Connections, c: Connection): Connections {
    if c.id in rows && !AddressHeldByOther(rows, c) then rows[c.id := c] else rows
  }

  class RVPNDatabase {
    var targets: Targets
    var connections: Connections

    constructor ()
      ensures targets == map[] && connections == map[]
    {
      targets, connections := map[], map[];
    }

    method CreateTarget(t: Target, fault: Fault) returns (r: Result<bool, SqlError>)
      modifies this`targets
      ensures r == if fault.NoFault? then Ok(t.name !in old(targets)) else Err(QueryFailed)
      ensures targets == if fault.Refused? || t.name in old(targets) then old(targets) else old(targets)[t.name := t]
      ensures targets == if fault.Refused? then old(targets) else TargetInserted(old(targets), t)
    {
      var inserted := !fault.Refused? && t.name !in targets;
      if inserted {
        targets := targets[t.name := t];
      }
      r := if fault.NoFault? then Ok(inserted) else Err(QueryFailed);
    }

    method UpdateTarget(name: string, t: Target, fault: Fault) returns (r: Result<bool, SqlError>)
      modifies this`targets
      ensures r == if fault.NoFault? then Ok(name in old(targets)) else Err(QueryFailed)
      ensures targets == if fault.Refused? || name !in old(targets) then old(targets)
                         else old(targets)[name := t.(name := name)]
      ensures targets == if fault.Refused? then old(targets) else TargetUpdated(old(targets), name, t)
    {
      var updated := !fault.Refused? && name in targets;
      if updated {
        targets := targets[name := t.(name := name)];
      }
      r := if fault.NoFault? then Ok(updated) else Err(QueryFailed);
    }

    method GetTargetByName(name: string, fails: bool) returns (r: Result<Option<Target>, SqlError>)
      ensures if fails then r == Err(QueryFailed) else r.Ok?
      ensures r.Ok? ==> r.value == if name in targets then Some(targets[name]) else None
    {
      if fails {
        r := Err(QueryFailed);
      } else if name in targets {
        r := Ok(Some(targets[name]));
      } else {
        r := Ok(None);
      }
    }

    /** Reads one row; the default struct of the source is None here. */
    method GetConnection(target: string, device: string, fails: bool) returns (r: Result<Option<Connection>, SqlError>)
      requires Keyed(connections)
      ensures if fails then r == Err(QueryFailed) else r.Ok?
      ensures r.Ok? ==> Selects(connections, target, device, r.value)
    {
      if fails {
        r := Err(QueryFailed);
      } else if id :| id in connections && connections[id].target == target && connections[id].deviceId == device {
        r := Ok(Some(connections[id]));
      } else {
        r := Ok(None);
      }
    }

    method GetTargetClientIps(target: string, fails: bool) returns (r: Result<set<string>, SqlError>)
      ensures if fails then r == Err(QueryFailed) else r.Ok?
      ensures r.Ok? ==> r.value == ClientIps(connections, target)
    {
      if fails {
        return Err(QueryFailed);
      }
      var clientIpSet: set<string> := {};
      var pending := connections.Keys;
      while pending != {}
        invariant pending <= connections.Keys
        invariant clientIpSet == set id | id in Ids(connections, target) - pending :: connections[id].clientIp
        decreases pending
      {
        var id :| id in pending;
        pending := pending - {id};
        if connections[id].target == target {
          clientIpSet := clientIpSet + {connections[id].clientIp};
        }
      }
      r := Ok(clientIpSet);
    }

    method GetConnectionsByTarget(target: string, fails: bool) returns (r: Result<seq<Connection>, SqlError>)
      requires Keyed(connections)
      ensures if fails then r == Err(QueryFailed) else r.Ok?
      ensures r.Ok? ==> Lists(connections, target, r.value)
    {
      if fails {
        return Err(QueryFailed);
      }
      var found: seq<Connection> := [];
      var pending := connections.Keys;
      while pending != {}
        invariant pending <= connections.Keys
        invariant forall i :: 0 <= i < |found| ==>
          found[i].id in Ids(connections, target) - pending && connections[found[i].id] == found[i]
        invariant forall id :: id in Ids(connections, target) - pending ==> connections[id] in found
        invariant forall i, j :: 0 <= i < j < |found| ==> found[i].id != found[j].id
        decreases pending
      {
        var id :| id in pending;
        pending := pending - {id};
        if connections[id].target == target {
          found := found + [connections[id]];
        }
      }
      r := Ok(found);
    }

    method CreateConnection(c: Connection, fault: Fault) returns (r: Result<bool, SqlError>)
      modifies this`connections
      ensures r == if fault.NoFault? then Ok(Inserts(old(connections), c)) else Err(QueryFailed)
      ensures connections ==
        if fault.Refused? || c.id in old(connections)
           || exists id :: id in old(connections) && old(connections)[id].target == c.target
                           && old(connections)[id].clientIp == c.clientIp
        then old(connections) else old(connections)[c.id := c]
      ensures connections == if fault.Refused? then old(connections) else ConnectionInserted(old(connections), c)
    {
      var inserted := !fault.Refused? && c.id !in connections && !AddressHeldByOther(connections, c);
      if inserted {
        connections := connections[c.id := c];
      }
      r := if fault.NoFault? then Ok(inserted) else Err(QueryFailed);
    }

    method UpdateConnection(c: Connection, fault: Fault) returns (r: Result<bool, SqlError>)
      modifies this`connections
      ensures r == if !fault.NoFault? then Err(QueryFailed)
                   else if c.id in old(connections) && AddressHeldByOther(old(connections), c) then Err(UniqueViolation)
                   else Ok(c.id in old(connections))
      ensures connections ==
        if fault.Refused? || c.id !in old(connections)
           || exists id :: id in old(connections) && id != c.id && old(connections)[id].target == c.target
                           && old(connections)[id].clientIp == c.clientIp
        then old(connections) else old(connections)[c.id := c]
      ensures connections == if fault.Refused? then old(connections) else ConnectionUpdated(old(connections), c)
    {
      var found, violates := c.id in connections, AddressHeldByOther(connections, c);
      if !fault.Refused? && found && !violates {
        connections := connections[c.id := c];
      }
      if !fault.NoFault? {
        return Err(QueryFailed);
      }
      r := if found && violates then Err(UniqueViolation) else Ok(found);
    }
  }
}
