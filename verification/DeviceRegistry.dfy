/**
 Device registration: insert a row with a new id, and if the row was there already, read an id.

 The devices table is keyed by principal, target and hardware id, and device ids are unique.
 The read that follows a refused insert does not mention the target, and the two statements
 are not one transaction.  Any number of registrations run at the same time.
 */
module DeviceRegistry {
  import opened Wrappers
  import opened Database

  datatype DeviceKey = DeviceKey(principal: string, target: string, hardwareId: string)

  type Devices = map<DeviceKey, string>

  predicate IdStored(devices: Devices, id: string) {
    exists k :: k in devices && devices[k] == id
  }

  predicate InsertsDevice(devices: Devices, k: DeviceKey, id: string) {
    k !in devices && !IdStored(devices, id)
  }

  /** INSERT INTO devices ... ON CONFLICT DO NOTHING. */
  function DeviceInserted(devices: Devices, k: DeviceKey, id: string): Devices {
    if InsertsDevice(devices, k, id) then devices[k := id] else devices
  }

  /** A possible answer of SELECT device_id WHERE principal AND hardware_id, reading one row. */
  predicate SelectsDevice(devices: Devices, principal: string, hardwareId: string, answer: Option<string>) {
    match answer
    case None => forall k :: k in devices ==> k.principal != principal || k.hardwareId != hardwareId
    case Some(id) => BelongsTo(devices, principal, hardwareId, id)
  }

  /** Is this id stored for this principal and hardware, on some target? */
  predicate BelongsTo(devices: Devices, principal: string, hardwareId: string, id: string) {
    exists k :: k in devices && k.principal == principal && k.hardwareId == hardwareId && devices[k] == id
  }

  // ---------- the state machine ----------

  datatype Registration =
    | Inserting(k: DeviceKey, id: string)
    | Fetching(k: DeviceKey)
    | Registered(k: DeviceKey, id: string)
    | Failed

  datatype Registry = Registry(devices: Devices, registrations: map<nat, Registration>)

  datatype RegistryEvent =
    | Begin(r: nat, k: DeviceKey, id: string)
    | Insert(r: nat, fault: Fault)
    | Fetch(r: nat, fails: bool, answer: Option<string>)

  /** A new random id: neither stored nor held by a registration under way. */
  predicate Fresh(reg: Registry, id: string) {
    && id != "" && !IdStored(reg.devices, id)
    && forall r :: r in reg.registrations && reg.registrations[r].Inserting? ==> reg.registrations[r].id != id
  }

  predicate Enabled(reg: Registry, ev: RegistryEvent) {
    match ev
    case Begin(r, _, id) => r !in reg.registrations && Fresh(reg, id)
    case Insert(r, _) => r in reg.registrations && reg.registrations[r].Inserting?
    case Fetch(r, fails, answer) =>
      && r in reg.registrations && reg.registrations[r].Fetching?
      && var k := reg.registrations[r].k;
         fails || SelectsDevice(reg.devices, k.principal, k.hardwareId, answer)
  }

  function Step(reg: Registry, ev: RegistryEvent): Registry {
    if !Enabled(reg, ev) then reg
    else
      match ev
      case Begin(r, k, id) => reg.(registrations := reg.registrations[r := Inserting(k, id)])
      case Insert(r, fault) =>
        var (k, id) := (reg.registrations[r].k, reg.registrations[r].id);
        var outcome :=
          if !fault.NoFault? then Failed
          else if InsertsDevice(reg.devices, k, id) then Registered(k, id)
          else Fetching(k);
        Registry(if fault.Refused? then reg.devices else DeviceInserted(reg.devices, k, id),
                 reg.registrations[r := outcome])
      case Fetch(r, fails, answer) =>
        var k := reg.registrations[r].k;
        var outcome :=
          if fails then Failed
          else Registered(k, match answer case None => "" case Some(id) => id);  // no row reads as ""
        reg.(registrations := reg.registrations[r := outcome])
  }

  function Run(reg: Registry, events: seq<RegistryEvent>): Registry {
    if events == [] then reg else Step(Run(reg, events[..|events| - 1]), events[|events| - 1])
  }

  const EMPTY := Registry(map[], map[])

  lemma RunOneMore(reg: Registry, events: seq<RegistryEvent>, ev: RegistryEvent) returns (events': seq<RegistryEvent>)
    ensures events' == events + [ev]
    ensures Run(reg, events') == Step(Run(reg, events), ev)
  {
    events' := events + [ev];
    assert events'[..|events'| - 1] == events;
  }

  // ---------- the invariant ----------

  predicate IdsUnique(devices: Devices) {
    forall j, k :: j in devices && k in devices && devices[j] == devices[k] ==> j == k
  }

  predicate RegistrationOk(reg: Registry, r: nat)
    requires r in reg.registrations
  {
    match reg.registrations[r]
    case Inserting(_, id) =>
      && id != "" && !IdStored(reg.devices, id)
      && forall q :: q in reg.registrations && q != r && reg.registrations[q].Inserting? ==>
           reg.registrations[q].id != id
    case Fetching(k) => k in reg.devices
    case Registered(k, id) => BelongsTo(reg.devices, k.principal, k.hardwareId, id)
    case Failed => true
  }

  predicate Inv(reg: Registry) {
    && IdsUnique(reg.devices)
    && (forall k :: k in reg.devices ==> reg.devices[k] != "")
    && (forall r :: r in reg.registrations ==> RegistrationOk(reg, r))
  }

  lemma BelongsStays(devices: Devices, devices': Devices, principal: string, hardwareId: string, id: string)
    requires forall k :: k in devices ==> k in devices' && devices'[k] == devices[k]
    requires BelongsTo(devices, principal, hardwareId, id)
    ensures BelongsTo(devices', principal, hardwareId, id)
  {
    var k :| k in devices && k.principal == principal && k.hardwareId == hardwareId && devices[k] == id;
    assert k in devices' && devices'[k] == id;
  }

  lemma InsertInv(reg: Registry, r: nat, fault: Fault)
    requires Inv(reg) && Enabled(reg, Insert(r, fault)) && !fault.Refused?
    ensures Inv(Step(reg, Insert(r, fault)))
  {
    var reg', k, id := Step(reg, Insert(r, fault)), reg.registrations[r].k, reg.registrations[r].id;
    assert RegistrationOk(reg, r);
    if InsertsDevice(reg.devices, k, id) {
      assert reg'.devices == reg.devices[k := id] && reg'.devices[k] == id;
    }
    forall q | q in reg'.registrations
      ensures RegistrationOk(reg', q)
    {
      if q != r {
        assert RegistrationOk(reg, q);
        match reg.registrations[q]
        case Registered(kq, idq) => BelongsStays(reg.devices, reg'.devices, kq.principal, kq.hardwareId, idq);
        case _ =>
      }
    }
  }

  lemma StepInv(reg: Registry, ev: RegistryEvent)
    requires Inv(reg)
    ensures Inv(Step(reg, ev))
  {
    if Enabled(reg, ev) {
      match ev
      case Insert(r, fault) =>
        if !fault.Refused? {
          InsertInv(reg, r, fault);
        } else {
          OthersKeep(reg, r, Failed);
        }
      case Begin(r, k, id) => OthersKeep(reg, r, Inserting(k, id));
      case Fetch(r, _, answer) =>
        assert RegistrationOk(reg, r);
        OthersKeep(reg, r, Step(reg, ev).registrations[r]);
    }
  }

  /** Moving one registration without touching the table keeps the others. */
  lemma OthersKeep(reg: Registry, r: nat, moved: Registration)
    requires Inv(reg) && (moved.Inserting? ==> Fresh(reg, moved.id))
    ensures var reg' := reg.(registrations := reg.registrations[r := moved]);
            forall q :: q in reg'.registrations && q != r ==> RegistrationOk(reg', q)
  {
    var reg' := reg.(registrations := reg.registrations[r := moved]);
    forall q | q in reg'.registrations && q != r
      ensures RegistrationOk(reg', q)
    {
      assert RegistrationOk(reg, q);
    }
  }

  lemma {:induction false} RunInv(reg: Registry, events: seq<RegistryEvent>)
    requires Inv(reg)
    ensures Inv(Run(reg, events))
    decreases |events|
  {
    if events != [] {
      RunInv(reg, events[..|events| - 1]);
      StepInv(Run(reg, events[..|events| - 1]), events[|events| - 1]);
    }
  }

  // ---------- what holds in every interleaving ----------

  /** The id returned is never empty, is stored, and belongs to the caller and its hardware. */
  lemma ReturnedIdIsStored(events: seq<RegistryEvent>, r: nat)
    requires r in Run(EMPTY, events).registrations && Run(EMPTY, events).registrations[r].Registered?
    ensures var reg := Run(EMPTY, events);
            var k, id := reg.registrations[r].k, reg.registrations[r].id;
            id != "" && BelongsTo(reg.devices, k.principal, k.hardwareId, id)
  {
    RunInv(EMPTY, events);
    assert RegistrationOk(Run(EMPTY, events), r);
  }

  /** Two different pairs of principal and hardware never share an id. */
  lemma IdsAreNotShared(events: seq<RegistryEvent>, q: nat, r: nat)
    requires var regs := Run(EMPTY, events).registrations;
             && q in regs && regs[q].Registered? && r in regs && regs[r].Registered?
             && regs[q].id == regs[r].id
    ensures var regs := Run(EMPTY, events).registrations;
            regs[q].k.principal == regs[r].k.principal && regs[q].k.hardwareId == regs[r].k.hardwareId
  {
    RunInv(EMPTY, events);
    assert RegistrationOk(Run(EMPTY, events), q) && RegistrationOk(Run(EMPTY, events), r);
  }

  /** The targets on which this hardware of this principal is registered. */
  function TargetsOf(devices: Devices, principal: string, hardwareId: string): set<string> {
    set k | k in devices && k.principal == principal && k.hardwareId == hardwareId :: k.target
  }

  /** Hardware registered on one target only always gets the same id back. */
  lemma OneTargetOneId(events: seq<RegistryEvent>, q: nat, r: nat, target: string)
    requires var regs := Run(EMPTY, events).registrations;
             && q in regs && regs[q].Registered? && r in regs && regs[r].Registered?
             && regs[q].k.principal == regs[r].k.principal && regs[q].k.hardwareId == regs[r].k.hardwareId
             && TargetsOf(Run(EMPTY, events).devices, regs[q].k.principal, regs[q].k.hardwareId) == {target}
    ensures Run(EMPTY, events).registrations[q].id == Run(EMPTY, events).registrations[r].id
  {
    RunInv(EMPTY, events);
    var reg := Run(EMPTY, events);
    assert RegistrationOk(reg, q) && RegistrationOk(reg, r);
    var p, h := reg.registrations[q].k.principal, reg.registrations[q].k.hardwareId;
    forall k | k in reg.devices && k.principal == p && k.hardwareId == h
      ensures k == DeviceKey(p, target, h)
    {
      assert k.target in TargetsOf(reg.devices, p, h);
    }
  }

  /**
   Registering again on several targets is not determined: the id read back is that of the
   requested target, whichever row the database reads, exactly when there is no other target.
   */
  lemma FetchIsForced(events: seq<RegistryEvent>, r: nat)
    requires r in Run(EMPTY, events).registrations && Run(EMPTY, events).registrations[r].Fetching?
    ensures var reg := Run(EMPTY, events);
            var k := reg.registrations[r].k;
            && k in reg.devices
            && ((forall answer :: SelectsDevice(reg.devices, k.principal, k.hardwareId, answer) ==>
                   answer == Some(reg.devices[k]))
                <==> TargetsOf(reg.devices, k.principal, k.hardwareId) == {k.target})
  {
    RunInv(EMPTY, events);
    var reg := Run(EMPTY, events);
    assert RegistrationOk(reg, r);
    var k := reg.registrations[r].k;
    var targets := TargetsOf(reg.devices, k.principal, k.hardwareId);
    assert k.target in targets;
    if targets != {k.target} {
      var t :| t in targets && t != k.target;
      var j :| j in reg.devices && j.principal == k.principal && j.hardwareId == k.hardwareId && j.target == t;
      assert SelectsDevice(reg.devices, k.principal, k.hardwareId, Some(reg.devices[j]));
    } else {
      forall j | j in reg.devices && j.principal == k.principal && j.hardwareId == k.hardwareId
        ensures j == k
      {
        assert j.target in targets;
      }
    }
  }

  /** A registration up to its insert: with an id, failed, or about to read one. */
  lemma UpToInsert(reg: Registry, events: seq<RegistryEvent>, r: nat, k: DeviceKey, id: string, fault: Fault)
    returns (events': seq<RegistryEvent>)
    requires var now := Run(reg, events); r !in now.registrations && Fresh(now, id)
    ensures var now := Run(reg, events);
            Run(reg, events') == Registry(
              if fault.Refused? || k in now.devices then now.devices else now.devices[k := id],
              now.registrations[r := if !fault.NoFault? then Failed
                                     else if k in now.devices then Fetching(k)
                                     else Registered(k, id)])
  {
    events' := RunOneMore(reg, events, Begin(r, k, id));
    events' := RunOneMore(reg, events', Insert(r, fault));
  }

  /** The read: any id of that principal and hardware. */
  lemma ThenFetch(reg: Registry, events: seq<RegistryEvent>, r: nat, k: DeviceKey, fails: bool, read: string)
    returns (events': seq<RegistryEvent>)
    requires var now := Run(reg, events);
             && r in now.registrations && now.registrations[r] == Fetching(k)
             && (fails || BelongsTo(now.devices, k.principal, k.hardwareId, read))
    ensures var now := Run(reg, events);
            Run(reg, events') ==
            Registry(now.devices, now.registrations[r := if fails then Failed else Registered(k, read)])
  {
    events' := RunOneMore(reg, events, Fetch(r, fails, Some(read)));
  }

  /**
   A whole run in which one hardware of one principal registers on target "a", on target "b",
   and on "a" again, and is then given the id of "b".
   */
  lemma AnotherTargetsId() returns (events: seq<RegistryEvent>)
    ensures var reg, k := Run(EMPTY, events), DeviceKey("p", "a", "h");
            && k in reg.devices && 2 in reg.registrations
            && reg.registrations[2].Registered? && reg.registrations[2].k == k
            && reg.registrations[2].id != reg.devices[k]
  {
    var a, b := DeviceKey("p", "a", "h"), DeviceKey("p", "b", "h");
    events := UpToInsert(EMPTY, [], 0, a, "x", NoFault);
    events := UpToInsert(EMPTY, events, 1, b, "xx", NoFault);
    var now := Run(EMPTY, events);
    assert now.devices[a] == "x" && now.devices[b] == "xx";
    events := UpToInsert(EMPTY, events, 2, a, "xxx", NoFault);
    events := ThenFetch(EMPTY, events, 2, a, false, "xx");
  }

  // ---------- the handler ----------

  class RegistrationHandler {
    var devices: Devices

    constructor ()
      ensures devices == map[]
    {
      devices := map[];
    }

    method CreateDevice(k: DeviceKey, id: string, fault: Fault) returns (r: Result<bool, SqlError>)
      modifies this
      ensures r == if fault.NoFault? then Ok(InsertsDevice(old(devices), k, id)) else Err(QueryFailed)
      ensures devices ==
        if fault.Refused? || k in old(devices) || exists j :: j in old(devices) && old(devices)[j] == id
        then old(devices) else old(devices)[k := id]
      ensures devices == if fault.Refused? then old(devices) else DeviceInserted(old(devices), k, id)
    {
      var inserted := false;
      if !fault.Refused? && k !in devices && !IdStored(devices, id) {
        devices := devices[k := id];
        inserted := true;
      }
      r := if fault.NoFault? then Ok(inserted) else Err(QueryFailed);
    }

    method GetDeviceId(principal: string, hardwareId: string, fails: bool) returns (r: Result<string, SqlError>)
      ensures fails ==> r == Err(QueryFailed)
      ensures !fails ==> r.Ok?
      ensures r.Ok? ==>
        SelectsDevice(devices, principal, hardwareId, Some(r.value))
        || (r.value == "" && SelectsDevice(devices, principal, hardwareId, None))
    {
      if fails {
        return Err(QueryFailed);
      }
      if k :| k in devices && k.principal == principal && k.hardwareId == hardwareId {
        assert SelectsDevice(devices, principal, hardwareId, Some(devices[k]));
        r := Ok(devices[k]);
      } else {
        assert SelectsDevice(devices, principal, hardwareId, None);
        r := Ok("");
      }
    }

    /**
     registerDevice: None stands for the unauthorized and the server error replies.  For the
     authorized it is an uninterrupted run of the machine, as registration r.
     */
    method RegisterDevice(authorizedTargets: seq<string>, k: DeviceKey, newUUID: string,
                          insertFault: Fault, fetchFails: bool, ghost reg: Registry, ghost r: nat)
      returns (deviceId: Option<string>, ghost events: seq<RegistryEvent>)
      requires reg.devices == devices && r !in reg.registrations && Fresh(reg, newUUID)
      modifies this
      ensures k.target in authorizedTargets ==>
        Run(reg, events) == Registry(devices, reg.registrations[r := Outcome(k, deviceId)])
      ensures devices ==
        if k.target !in authorizedTargets || insertFault.Refused? || k in old(devices) then old(devices)
        else old(devices)[k := newUUID]
      ensures deviceId.Some? <==>
        k.target in authorizedTargets && insertFault.NoFault? && (k in old(devices) ==> !fetchFails)
      ensures deviceId.Some? ==> BelongsTo(devices, k.principal, k.hardwareId, deviceId.value)
      ensures deviceId.Some? && k !in old(devices) ==> deviceId.value == newUUID
    {
      deviceId, events := None, [];
      var userAuthorized := false;
      for i := 0 to |authorizedTargets|
        invariant userAuthorized <==> k.target in authorizedTargets[..i]
      {
        if k.target == authorizedTargets[i] {
          userAuthorized := true;
          break;
        }
      }
      if userAuthorized {
        deviceId, events := CreateOrFetch(k, newUUID, insertFault, fetchFails, reg, r);
      }
    }

    /** The part below authorization. */
    method CreateOrFetch(k: DeviceKey, newUUID: string, insertFault: Fault, fetchFails: bool,
                         ghost reg: Registry, ghost r: nat)
      returns (deviceId: Option<string>, ghost events: seq<RegistryEvent>)
      requires reg.devices == devices && r !in reg.registrations && Fresh(reg, newUUID)
      modifies this
      ensures Run(reg, events) == Registry(devices, reg.registrations[r := Outcome(k, deviceId)])
      ensures devices == if insertFault.Refused? || k in old(devices) then old(devices)
                         else old(devices)[k := newUUID]
      ensures deviceId.Some? <==> insertFault.NoFault? && (k in old(devices) ==> !fetchFails)
      ensures deviceId.Some? ==> BelongsTo(devices, k.principal, k.hardwareId, deviceId.value)
      ensures deviceId.Some? && k !in old(devices) ==> deviceId.value == newUUID
    {
      deviceId, events := None, [];
      events := UpToInsert(reg, events, r, k, newUUID, insertFault);
      var createdDevice := CreateDevice(k, newUUID, insertFault);
      if createdDevice.Err? {
        return;
      }
      if createdDevice.value {
        assert devices[k] == newUUID;
        deviceId := Some(newUUID);
      } else {
        assert BelongsTo(devices, k.principal, k.hardwareId, devices[k]);
        var fetched := GetDeviceId(k.principal, k.hardwareId, fetchFails);
        deviceId := if fetched.Ok? then Some(fetched.value) else None;
        events := ThenFetch(reg, events, r, k, fetchFails, if fetched.Ok? then fetched.value else "");
      }
    }
  }

  /** How a registration stands when the handler has replied. */
  function Outcome(k: DeviceKey, deviceId: Option<string>): Registration {
    if deviceId.Some? then Registered(k, deviceId.value) else Failed
  }
}
