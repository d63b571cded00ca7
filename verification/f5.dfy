/**
  The F5 driver's decision logic over an abstract device. The device holds
  the pools and monitors of the driver's partition; each device write takes
  the device's reply as an input (`Pass`, or `Fail` with its message), and a
  refused write changes nothing. Reads (fetching a pool or its members) come
  from the device state; the member read of `CheckAndClean`, whose failure
  the driver does not stop at, also takes the device's reply. Pool listings
  for the orphan scan and the failover state for HA switching are the
  device's answers, passed in.
 */
module F5 {
  import opened Strings
  import opened Routes
  import opened Provider

  const ProviderName := "f5"
  const AlreadyExistsSuffix := "already exists in partition."
  const DefaultMode := "round-robin"
  const DefaultGroup := "cluster"
  const CommonPartition := "Common"
  const StandbyState := "standby"
  const Disabled := "user-disabled"
  const Enabled := "user-enabled"
  /** Stands in for the library's error when a pool cannot be fetched. */
  const NotFound := "pool not found"

  /** Pool and monitor name of a host on a port. */
  function PoolName(host: string, port: string): string {
    host + "_" + port
  }

  /** Pool member name of a cluster on a port. */
  function MemberName(alias: string, port: string): string {
    alias + ":" + port
  }

  /** The monitor type: HTTPS on port 443, HTTP on every other port. */
  function Scheme(port: string): (r: string)
    ensures r == "https" <==> port == Https
    ensures r == "http" <==> port != Https
  {
    if port == Https then "https" else "http"
  }

  /** The request a monitor sends. */
  function SendString(httpMethod: string, uri: string, host: string): string {
    httpMethod + " " + uri + " HTTP/1.1\r\nHost:" + host + "  \r\nConnection: Close\r\n\r\n"
  }

  /** `alreadyExist`: the device's message ends with "already exists in partition.". */
  predicate AlreadyExist(msg: string) {
    HasSuffix(msg, AlreadyExistsSuffix)
  }

  /** The answer of a create: success, unless the device refused for another reason than existence. */
  function Absorb(reply: Outcome): (r: Outcome)
    ensures r.Pass? <==> reply.Pass? || AlreadyExist(reply.msg)
    ensures r.Fail? ==> r == reply
  {
    if reply.Fail? && !AlreadyExist(reply.msg) then reply else Pass
  }

  /** A device "already exists" refusal of any resource is absorbed. */
  lemma AlreadyExistsIsSuccess(resource: string)
    ensures Absorb(Fail(resource + AlreadyExistsSuffix)) == Pass
  {
    SuffixOfConcat(resource, AlreadyExistsSuffix);
  }

  /** `None` fields are left at the device's default. */
  datatype Member = Member(name: string, priority: Option<int>, session: Option<string>)
  datatype Pool = Pool(members: seq<Member>, mode: Option<string>, minActive: Option<int>, monitor: Option<string>)
  datatype MonitorKey = MonitorKey(scheme: string, name: string)
  datatype Monitor = Monitor(interval: int, timeout: int, send: string)
  datatype Device = Device(pools: map<string, Pool>, monitors: map<MonitorKey, Monitor>)

  /**
    The driver: the device it manages, the cluster alias last passed to
    `AddPoolMember`, the HA address list with the index of the address in
    use and the address the session talks to, the sync group and the
    configured partition.
   */
  datatype Driver = Driver(device: Device, clusterAlias: string, addresses: seq<string>, current: int,
                           sessionAddr: string, group: string, partition: string)

  /** A driver after `Initialize`: at least one address, and the session on the current one. */
  predicate Valid(d: Driver) {
    |d.addresses| >= 1 && 0 <= d.current < |d.addresses| && d.sessionAddr == d.addresses[d.current]
  }

  /** An operation's result: the driver afterwards and the error it returns. */
  datatype Step = Step(driver: Driver, status: Outcome)

  function PoolAt(d: Driver, name: string): Option<Pool> {
    if name in d.device.pools then Some(d.device.pools[name]) else None
  }

  function MonitorAt(d: Driver, key: MonitorKey): Option<Monitor> {
    if key in d.device.monitors then Some(d.device.monitors[key]) else None
  }

  /** Every pool but `name` is as it was. */
  ghost predicate PoolsFramed(before: Driver, after: Driver, name: string) {
    forall other :: other != name ==> PoolAt(after, other) == PoolAt(before, other)
  }

  /** Only the device's pools may differ. */
  predicate OnlyPools(before: Driver, after: Driver) {
    after == before.(device := after.device) && after.device.monitors == before.device.monitors
  }

  /** Only the device's monitors may differ. */
  predicate OnlyMonitors(before: Driver, after: Driver) {
    after == before.(device := after.device) && after.device.pools == before.device.pools
  }

  function WithPool(d: Driver, name: string, p: Pool): (r: Driver)
    ensures PoolAt(r, name) == Some(p) && PoolsFramed(d, r, name) && OnlyPools(d, r)
  {
    d.(device := d.device.(pools := d.device.pools[name := p]))
  }

  function WithMonitor(d: Driver, key: MonitorKey, m: Monitor): (r: Driver)
    ensures MonitorAt(r, key) == Some(m) && OnlyMonitors(d, r)
    ensures forall other :: other != key ==> MonitorAt(r, other) == MonitorAt(d, other)
  {
    d.(device := d.device.(monitors := d.device.monitors[key := m]))
  }

  // ---------------------------------------------------------------- members

  predicate HasMember(ms: seq<Member>, name: string) {
    exists m :: m in ms && m.name == name
  }

  /** The index of the first member called `name`. */
  function FindMember(ms: seq<Member>, name: string): (r: Option<nat>)
    ensures r.Some? ==> r.value < |ms| && ms[r.value].name == name
    ensures r.Some? ==> forall j :: 0 <= j < r.value ==> ms[j].name != name
    ensures r.None? <==> !HasMember(ms, name)
  {
    if |ms| == 0 then None
    else if ms[0].name == name then Some(0)
    else
      match FindMember(ms[1..], name)
      case None =>
        assert forall j :: 1 <= j < |ms| ==> ms[j] == ms[1..][j - 1];
        None
      case Some(i) => Some(i + 1)
  }

  /** The members without any called `name`, the rest in order. */
  function RemoveMember(ms: seq<Member>, name: string): (r: seq<Member>)
    ensures !HasMember(r, name)
    ensures forall m :: m in r <==> m in ms && m.name != name
    ensures (forall m :: m in ms ==> m.name == name) ==> r == []
  {
    if |ms| == 0 then []
    else
      var rest := RemoveMember(ms[1..], name);
      assert forall m :: m in ms <==> m == ms[0] || m in ms[1..];
      if ms[0].name == name then rest else [ms[0]] + rest
  }

  /** The session state a member is given: disabled in maintenance, enabled otherwise. */
  function SessionFor(maintenance: bool): (r: string)
    ensures r == Disabled <==> maintenance
    ensures r == Enabled <==> !maintenance
  {
    if maintenance then Disabled else Enabled
  }

  /** The first member called `name` carries this priority and session. */
  predicate Patched(ms: seq<Member>, name: string, prio: int, session: string) {
    match FindMember(ms, name)
    case None => false
    case Some(i) => ms[i].priority == Some(prio) && ms[i].session == Some(session)
  }

  // ------------------------------------------------------------- operations

  /** `CreatePool`: the pool `name_port` exists afterwards unless the device refused. */
  function CreatePool(d: Driver, name: string, port: string, reply: Outcome): (r: Step)
    ensures r.status == Absorb(reply)
    ensures reply.Pass? ==> PoolAt(r.driver, PoolName(name, port)).Some?
    ensures reply.Pass? && PoolAt(d, PoolName(name, port)).None? ==>
      PoolAt(r.driver, PoolName(name, port)) == Some(Pool([], None, None, None))
    ensures PoolAt(d, PoolName(name, port)).Some? || reply.Fail? ==> r.driver == d
    ensures PoolsFramed(d, r.driver, PoolName(name, port)) && OnlyPools(d, r.driver)
  {
    var key := PoolName(name, port);
    if reply.Pass? && key !in d.device.pools then Step(WithPool(d, key, Pool([], None, None, None)), Pass)
    else Step(d, Absorb(reply))
  }

  /**
    `AddPoolMember`: remembers the alias, and unless the device refused,
    the pool (when it exists) holds the member `alias:port`; existing
    members are kept.
   */
  function AddPoolMember(d: Driver, member: string, name: string, port: string, reply: Outcome): (r: Step)
    ensures r.status == Absorb(reply)
    ensures r.driver.clusterAlias == member
    ensures PoolsFramed(d, r.driver, PoolName(name, port))
    ensures r.driver.device.monitors == d.device.monitors
    ensures r.driver == d.(clusterAlias := member, device := r.driver.device)
    ensures PoolAt(r.driver, PoolName(name, port)).Some? <==> PoolAt(d, PoolName(name, port)).Some?
    ensures PoolAt(d, PoolName(name, port)).Some? ==>
      var before, after := PoolAt(d, PoolName(name, port)).value, PoolAt(r.driver, PoolName(name, port)).value;
      && after == before.(members := after.members)
      && (forall m :: m in before.members ==> m in after.members)
      && (reply.Pass? ==> HasMember(after.members, MemberName(member, port)))
      && (reply.Pass? && !HasMember(before.members, MemberName(member, port)) ==>
            after.members == before.members + [Member(MemberName(member, port), None, None)])
      && (reply.Fail? ==> after == before)
      && (HasMember(before.members, MemberName(member, port)) ==> after == before)
  {
    var d1 := d.(clusterAlias := member);
    var key, mname := PoolName(name, port), MemberName(member, port);
    if reply.Pass? && key in d.device.pools && !HasMember(d.device.pools[key].members, mname) then
      var p := d.device.pools[key];
      var p' := p.(members := p.members + [Member(mname, None, None)]);
      assert p'.members[|p.members|].name == mname;
      Step(WithPool(d1, key, p'), Pass)
    else Step(d1, Absorb(reply))
  }

  /**
    `modifyMember`: patch the first member called `alias:port`, with the
    alias the driver last remembered, to the given priority and to the
    disabled session in maintenance, enabled otherwise. A refused patch, or
    no such member, changes nothing.
   */
  function ModifyMember(d: Driver, name: string, port: string, maintenance: bool, prio: int, reply: Outcome): (r: Driver)
    requires PoolAt(d, PoolName(name, port)).Some?
    ensures PoolsFramed(d, r, PoolName(name, port)) && OnlyPools(d, r)
    ensures PoolAt(r, PoolName(name, port)).Some?
    ensures var before, after := PoolAt(d, PoolName(name, port)).value, PoolAt(r, PoolName(name, port)).value;
      && after == before.(members := after.members)
      && |after.members| == |before.members|
      && (forall i :: 0 <= i < |before.members| ==> after.members[i].name == before.members[i].name)
      && (forall i :: 0 <= i < |before.members| && Some(i) != FindMember(before.members, MemberName(d.clusterAlias, port)) ==>
            after.members[i] == before.members[i])
      && (reply.Pass? && HasMember(before.members, MemberName(d.clusterAlias, port)) ==>
            Patched(after.members, MemberName(d.clusterAlias, port), prio, SessionFor(maintenance)))
      && (reply.Fail? ==> after == before)
  {
    var key := PoolName(name, port);
    var p := d.device.pools[key];
    var mname := MemberName(d.clusterAlias, port);
    match FindMember(p.members, mname)
    case None => d
    case Some(i) =>
      if reply.Fail? then d
      else
        WithPool(d, key, p.(members := PatchMember(p.members, i, prio, SessionFor(maintenance))))
  }

  /** The member at `i` given a priority and a session; every name, and so every lookup, stays. */
  function PatchMember(ms: seq<Member>, i: nat, prio: int, session: string): (r: seq<Member>)
    requires i < |ms|
    ensures |r| == |ms|
    ensures forall j :: 0 <= j < |ms| ==> r[j].name == ms[j].name
    ensures forall j :: 0 <= j < |ms| && j != i ==> r[j] == ms[j]
    ensures r[i].priority == Some(prio) && r[i].session == Some(session)
    ensures forall name :: FindMember(r, name) == FindMember(ms, name)
  {
    var r := ms[i := ms[i].(priority := Some(prio), session := Some(session))];
    assert forall name :: FindMember(r, name) == FindMember(ms, name) by {
      forall name
        ensures FindMember(r, name) == FindMember(ms, name)
      {
        FindMemberByNames(r, ms, name);
      }
    }
    r
  }

  /** `FindMember` only looks at names. */
  lemma {:induction false} FindMemberByNames(a: seq<Member>, b: seq<Member>, name: string)
    requires |a| == |b| && forall j :: 0 <= j < |a| ==> a[j].name == b[j].name
    ensures FindMember(a, name) == FindMember(b, name)
  {
    if |a| > 0 && a[0].name != name {
      FindMemberByNames(a[1..], b[1..], name);
    }
  }

  /** The balancing mode a pool is given: the requested one, or round robin when none is requested. */
  function ModeFor(lbMethod: string): (r: string)
    ensures |r| > 0
    ensures |lbMethod| > 0 ==> r == lbMethod
    ensures |lbMethod| == 0 ==> r == DefaultMode
  {
    if |lbMethod| == 0 then DefaultMode else lbMethod
  }

  /**
    `ModifyPool`: fetch the pool (a missing pool returns the error before
    any change), patch this cluster's member, then write the balancing mode
    (round robin when none is requested) and the minimum of active members.
    The member patch stays even when the pool write is refused.
   */
  function ModifyPool(d: Driver, name: string, port: string, lbMethod: string, pga: int, maintenance: bool, prio: int,
                      patchReply: Outcome, writeReply: Outcome): (r: Step)
    ensures PoolAt(d, PoolName(name, port)).None? ==> r == Step(d, Fail(NotFound))
    ensures PoolsFramed(d, r.driver, PoolName(name, port)) && OnlyPools(d, r.driver)
    ensures PoolAt(d, PoolName(name, port)).Some? ==>
      && PoolAt(r.driver, PoolName(name, port)).Some?
      && r.status == writeReply
      && var before, after := PoolAt(d, PoolName(name, port)).value, PoolAt(r.driver, PoolName(name, port)).value;
      && after.monitor == before.monitor
      && |after.members| == |before.members|
      && (forall i :: 0 <= i < |before.members| ==> after.members[i].name == before.members[i].name)
      && (forall i :: 0 <= i < |before.members| && Some(i) != FindMember(before.members, MemberName(d.clusterAlias, port)) ==>
            after.members[i] == before.members[i])
      && (patchReply.Fail? ==> after.members == before.members)
      && (writeReply.Pass? ==> after.mode == Some(ModeFor(lbMethod)) && after.minActive == Some(pga))
      && (writeReply.Fail? ==> after.mode == before.mode && after.minActive == before.minActive)
      && (patchReply.Pass? && HasMember(before.members, MemberName(d.clusterAlias, port)) ==>
            Patched(after.members, MemberName(d.clusterAlias, port), prio, SessionFor(maintenance)))
  {
    var key := PoolName(name, port);
    if key !in d.device.pools then Step(d, Fail(NotFound))
    else
      var d1 := ModifyMember(d, name, port, maintenance, prio, patchReply);
      if writeReply.Fail? then Step(d1, writeReply)
      else
        var p := d1.device.pools[key];
        Step(WithPool(d1, key, p.(mode := Some(ModeFor(lbMethod)), minActive := Some(pga))), Pass)
  }

  /** `CreateMonitor`: the monitor `host_port` of the port's scheme exists afterwards unless the device refused. */
  function CreateMonitor(d: Driver, host: string, port: string, uri: string, httpMethod: string,
                         interval: int, timeout: int, reply: Outcome): (r: Step)
    ensures r.status == Absorb(reply)
    ensures OnlyMonitors(d, r.driver)
    ensures forall k :: k != MonitorKey(Scheme(port), PoolName(host, port)) ==> MonitorAt(r.driver, k) == MonitorAt(d, k)
    ensures reply.Pass? ==> MonitorAt(r.driver, MonitorKey(Scheme(port), PoolName(host, port))).Some?
    ensures reply.Pass? && MonitorAt(d, MonitorKey(Scheme(port), PoolName(host, port))).None? ==>
      MonitorAt(r.driver, MonitorKey(Scheme(port), PoolName(host, port))) ==
        Some(Monitor(interval, timeout, SendString(httpMethod, uri, host)))
    ensures MonitorAt(d, MonitorKey(Scheme(port), PoolName(host, port))).Some? || reply.Fail? ==> r.driver == d
  {
    var key := MonitorKey(Scheme(port), PoolName(host, port));
    if reply.Pass? && key !in d.device.monitors then
      Step(WithMonitor(d, key, Monitor(interval, timeout, SendString(httpMethod, uri, host))), Pass)
    else Step(d, Absorb(reply))
  }

  /** `ModifyMonitor`: the existing monitor takes the new settings; every device error is returned. */
  function ModifyMonitor(d: Driver, host: string, port: string, uri: string, httpMethod: string,
                         interval: int, timeout: int, reply: Outcome): (r: Step)
    ensures r.status == reply
    ensures OnlyMonitors(d, r.driver)
    ensures forall k :: k != MonitorKey(Scheme(port), PoolName(host, port)) ==> MonitorAt(r.driver, k) == MonitorAt(d, k)
    ensures reply.Pass? && MonitorAt(d, MonitorKey(Scheme(port), PoolName(host, port))).Some? ==>
      MonitorAt(r.driver, MonitorKey(Scheme(port), PoolName(host, port))) ==
        Some(Monitor(interval, timeout, SendString(httpMethod, uri, host)))
    ensures reply.Fail? || MonitorAt(d, MonitorKey(Scheme(port), PoolName(host, port))).None? ==> r.driver == d
  {
    var key := MonitorKey(Scheme(port), PoolName(host, port));
    if reply.Pass? && key in d.device.monitors then
      Step(WithMonitor(d, key, Monitor(interval, timeout, SendString(httpMethod, uri, host))), Pass)
    else Step(d, reply)
  }

  /** `AddMonitorToPool`: the pool `name_port` is watched by the monitor of the same name unless the device refused. */
  function AddMonitorToPool(d: Driver, name: string, port: string, reply: Outcome): (r: Step)
    ensures r.status == Absorb(reply)
    ensures PoolsFramed(d, r.driver, PoolName(name, port)) && OnlyPools(d, r.driver)
    ensures PoolAt(r.driver, PoolName(name, port)).Some? <==> PoolAt(d, PoolName(name, port)).Some?
    ensures PoolAt(d, PoolName(name, port)).Some? ==>
      var before, after := PoolAt(d, PoolName(name, port)).value, PoolAt(r.driver, PoolName(name, port)).value;
      && after == before.(monitor := after.monitor)
      && (reply.Pass? ==> after.monitor == Some(PoolName(name, port)))
      && (reply.Fail? ==> after == before)
  {
    var key := PoolName(name, port);
    if reply.Pass? && key in d.device.pools then
      Step(WithPool(d, key, d.device.pools[key].(monitor := Some(key))), Pass)
    else Step(d, Absorb(reply))
  }

  /** `DeletePoolMember`: the member `alias:port` leaves the pool unless the device refused; errors are returned as they are. */
  function DeletePoolMember(d: Driver, member: string, poolName: string, port: string, reply: Outcome): (r: Step)
    ensures r.status == reply
    ensures PoolsFramed(d, r.driver, PoolName(poolName, port)) && OnlyPools(d, r.driver)
    ensures PoolAt(r.driver, PoolName(poolName, port)).Some? <==> PoolAt(d, PoolName(poolName, port)).Some?
    ensures PoolAt(d, PoolName(poolName, port)).Some? ==>
      var before, after := PoolAt(d, PoolName(poolName, port)).value, PoolAt(r.driver, PoolName(poolName, port)).value;
      && after == before.(members := after.members)
      && (reply.Pass? ==> !HasMember(after.members, MemberName(member, port)))
      && (forall m :: m in before.members && m.name != MemberName(member, port) ==> m in after.members)
      && (forall m :: m in after.members ==> m in before.members)
      && (reply.Fail? ==> after == before)
  {
    var key := PoolName(poolName, port);
    if reply.Pass? && key in d.device.pools then
      var p := d.device.pools[key];
      Step(WithPool(d, key, p.(members := RemoveMember(p.members, MemberName(member, port)))), Pass)
    else Step(d, reply)
  }

  /**
    The members `CheckAndClean` sees: the pool's members, or none when the
    pool is missing or the device refuses the read.
   */
  function SeenMembers(d: Driver, key: string, readReply: Outcome): seq<Member> {
    if readReply.Pass? && key in d.device.pools then d.device.pools[key].members else []
  }

  /**
    `CheckAndClean`: when it sees no members it deletes the pool and then
    the monitor, each unless the device refuses. A refused or impossible
    read does not stop it, so a missing pool still has its monitor deleted
    and a pool whose members cannot be read is deleted with them. A pool
    seen with members is left alone.
   */
  function CheckAndClean(d: Driver, name: string, port: string, readReply: Outcome, poolReply: Outcome,
                         monitorReply: Outcome): (r: Driver)
    ensures r == d.(device := r.device)
    ensures PoolsFramed(d, r, PoolName(name, port))
    ensures forall k :: k != MonitorKey(Scheme(port), PoolName(name, port)) ==> MonitorAt(r, k) == MonitorAt(d, k)
    ensures (readReply.Pass? && PoolAt(d, PoolName(name, port)).Some? &&
             |PoolAt(d, PoolName(name, port)).value.members| > 0) ==> r == d
    ensures (readReply.Fail? || PoolAt(d, PoolName(name, port)).None? ||
             |PoolAt(d, PoolName(name, port)).value.members| == 0) ==>
      && (poolReply.Pass? ==> PoolAt(r, PoolName(name, port)).None?)
      && (poolReply.Fail? ==> PoolAt(r, PoolName(name, port)) == PoolAt(d, PoolName(name, port)))
      && (monitorReply.Pass? ==> MonitorAt(r, MonitorKey(Scheme(port), PoolName(name, port))).None?)
      && (monitorReply.Fail? ==> MonitorAt(r, MonitorKey(Scheme(port), PoolName(name, port))) ==
                                   MonitorAt(d, MonitorKey(Scheme(port), PoolName(name, port))))
  {
    var key := PoolName(name, port);
    if |SeenMembers(d, key, readReply)| == 0 then
      var pools := if poolReply.Pass? then d.device.pools - {key} else d.device.pools;
      var monitors := if monitorReply.Pass? then d.device.monitors - {MonitorKey(Scheme(port), key)} else d.device.monitors;
      d.(device := Device(pools, monitors))
    else d
  }

  // -------------------------------------------------------------- HA session

  /**
    `PreUpdate`: with more than one address, ask the device which state the
    current unit is in; on "standby" move to the next address, wrapping
    round, and open the session there. A single address, a failed query or
    any other state keeps everything as it is.
   */
  function PreUpdate(d: Driver, failover: Option<string>): (r: Driver)
    requires Valid(d)
    ensures Valid(r)
    ensures r == d.(current := r.current, sessionAddr := r.sessionAddr)
    ensures |d.addresses| > 1 && failover == Some(StandbyState) ==> r.current == (d.current + 1) % |d.addresses|
    ensures |d.addresses| == 1 || failover != Some(StandbyState) ==> r == d
  {
    if |d.addresses| == 1 then d
    else if failover.None? then d
    else if failover.value == StandbyState then
      var count := if |d.addresses| <= d.current + 1 then 0 else d.current + 1;
      d.(current := count, sessionAddr := d.addresses[count])
    else d
  }

  /** `n` standby answers in a row. */
  function StandbyRounds(d: Driver, n: nat): (r: Driver)
    requires Valid(d)
    ensures Valid(r)
  {
    if n == 0 then d else PreUpdate(StandbyRounds(d, n - 1), Some(StandbyState))
  }

  /** After `n` standby answers the driver is `n` addresses further on, so a full round comes back to the start. */
  lemma {:induction false} StandbyRoundsRotate(d: Driver, n: nat)
    requires Valid(d) && |d.addresses| > 1
    ensures StandbyRounds(d, n).current == (d.current + n) % |d.addresses|
    ensures StandbyRounds(d, n).addresses == d.addresses
  {
    if n > 0 {
      var k := |d.addresses|;
      var prev := StandbyRounds(d, n - 1);
      StandbyRoundsRotate(d, n - 1);
      assert prev.current == (d.current + (n - 1)) % k;
      assert StandbyRounds(d, n).current == (prev.current + 1) % k;
      ModAddOne(d.current + (n - 1), d.current + n, k);
    }
  }

  /** Adding one after taking the remainder is adding one before it. */
  lemma {:induction false} ModAddOne(x: nat, y: nat, k: nat)
    requires k > 0 && y == x + 1
    ensures (x % k + 1) % k == y % k
    decreases x
  {
    if x >= k {
      ModShift(x - k, x, k);
      ModShift(y - k, y, k);
      ModAddOne(x - k, y - k, k);
    } else {
      ModUnique(x, k, 0, x);
      var r := x % k;
      assert r + 1 == y;
    }
  }

  /** Adding the modulus keeps the remainder. */
  lemma ModShift(x: nat, y: nat, k: nat)
    requires k > 0 && y == x + k
    ensures y % k == x % k
  {
    var q, r := x / k, x % k;
    assert x == q * k + r;
    assert y == (q + 1) * k + r;
    ModUnique(y, k, q + 1, r);
  }

  /** The Euclidean remainder is the only one. */
  lemma ModUnique(a: int, k: int, q: int, r: int)
    requires k > 0 && 0 <= r < k && a == q * k + r
    ensures a % k == r
  {
    var q0, r0 := a / k, a % k;
    assert a == q0 * k + r0;
    MulSub(q, q0, k);
    if q > q0 {
      MulAtLeast(q - q0, k);
    } else if q < q0 {
      MulAtLeast(q0 - q, k);
      MulSub(q0, q, k);
    }
  }

  lemma MulSub(a: int, b: int, k: int)
    ensures (a - b) * k == a * k - b * k
  {
  }

  lemma {:induction false} MulAtLeast(m: int, k: int)
    requires m >= 1 && k > 0
    ensures m * k >= k
    decreases m
  {
    if m > 1 {
      MulAtLeast(m - 1, k);
      MulSub(m, 1, k);
    }
  }

  /** `PostUpdate`: the group it syncs the configuration to, when more than one address is configured. */
  function PostUpdate(d: Driver): (r: Option<string>)
    ensures r.Some? <==> |d.addresses| != 1
    ensures r.Some? ==> r.value == d.group
  {
    if |d.addresses| == 1 then None else Some(d.group)
  }

  /** A fresh driver initialised with a complete configuration is ready for `PreUpdate`. */
  lemma InitializeFreshIsValid(addressList: string, group: string, user: string, password: string, partition: string)
    requires |addressList| > 0 && |user| > 0 && |password| > 0
    ensures Initialize(NewDriver(), addressList, group, user, password, partition).Ready?
    ensures Valid(Initialize(NewDriver(), addressList, group, user, password, partition).driver)
  {
  }

  /**
    The address list decides HA: without a comma the driver has the one
    address and is never switched nor synced; with a comma it has several
    addresses and syncs after every update.
   */
  lemma InitializeDecidesHa(d: Driver, addressList: string, group: string, user: string, password: string,
                            partition: string, failover: Option<string>)
    requires d.current == 0
    requires Initialize(d, addressList, group, user, password, partition).Ready?
    ensures var r := Initialize(d, addressList, group, user, password, partition).driver;
      && (',' !in addressList ==> r.addresses == [addressList] && PreUpdate(r, failover) == r && PostUpdate(r).None?)
      && (',' in addressList ==> |r.addresses| >= 2 && PostUpdate(r) == Some(r.group))
  {
    var r := Initialize(d, addressList, group, user, password, partition).driver;
    if |r.addresses| == 1 {
      assert Join(r.addresses, ',') == r.addresses[0];
      if ',' !in addressList {
        assert r.addresses == [addressList];
      }
    }
  }

  /** A single-address device is never switched and never synced. */
  lemma SingleAddressIsInert(d: Driver, failover: Option<string>)
    requires Valid(d) && |d.addresses| == 1
    ensures PreUpdate(d, failover) == d && PostUpdate(d).None?
  {
  }

  // ------------------------------------------------------------- startup

  /** The outcome of `Initialize`: the configured driver, or the fatal message. */
  datatype Init = Ready(driver: Driver) | Abort(msg: string)

  /** `NewProviderF5`: no address yet, sync group "cluster", no partition. */
  function NewDriver(): (d: Driver)
    ensures d.current == 0 && d.group == DefaultGroup && d.partition == "" && d.addresses == []
  {
    Driver(Device(map[], map[]), "", [], 0, "", DefaultGroup, "")
  }

  /**
    `Initialize` with the environment values passed in: the address list is
    required and split at commas, a non-empty group or partition replaces
    the default, user and password are required, and the session opens on
    the first address while the address index is left as it was.
   */
  function Initialize(d: Driver, addressList: string, group: string, user: string, password: string,
                      partition: string): (r: Init)
    ensures r.Ready? <==> |addressList| > 0 && |user| > 0 && |password| > 0
    ensures |addressList| == 0 ==> r == Abort("F5_ADDR environment variable needed")
    ensures r.Ready? ==> |r.driver.addresses| >= 1 && r.driver.sessionAddr == r.driver.addresses[0]
    ensures r.Ready? ==> r.driver.current == d.current && r.driver.device == d.device
    ensures r.Ready? && d.current == 0 ==> Valid(r.driver)
    ensures r.Ready? ==> r.driver.addresses == Split(addressList, ',')
    ensures r.Ready? ==> Join(r.driver.addresses, ',') == addressList
    ensures r.Ready? ==> forall i :: 0 <= i < |r.driver.addresses| ==> ',' !in r.driver.addresses[i]
    ensures r.Ready? ==> r.driver.group == (if |group| > 0 then group else d.group)
    ensures r.Ready? ==> r.driver.partition == (if |partition| > 0 then partition else d.partition)
  {
    if |addressList| == 0 then Abort("F5_ADDR environment variable needed")
    else
      var d1 := if |group| > 0 then d.(group := group) else d;
      var addresses := Split(addressList, ',');
      if |user| == 0 then Abort("F5_USER environment variable needed")
      else if |password| == 0 then Abort("F5_PASSWORD environment variable needed")
      else
        var d2 := if |partition| > 0 then d1.(partition := partition) else d1;
        Ready(d2.(addresses := addresses, sessionAddr := addresses[0]))
  }

  // ----------------------------------------------------------- orphan scan

  /** One entry of the device's pool listing, with the answer to the query for its members. */
  datatype Listed = Listed(name: string, partition: string, members: Option<seq<string>>)

  /** `getPools`' filter: the "Common" partition when none is configured, or the configured one. */
  predicate InScope(poolPartition: string, configured: string) {
    (|configured| == 0 && poolPartition == CommonPartition) || poolPartition == configured
  }

  /** `getPools`: the listed pools in scope, in listing order. */
  function GetPools(listing: seq<Listed>, configured: string): (r: seq<Listed>)
    ensures forall x :: x in r <==> x in listing && InScope(x.partition, configured)
  {
    if |listing| == 0 then []
    else
      var rest := GetPools(listing[1..], configured);
      assert forall x :: x in listing <==> x == listing[0] || x in listing[1..];
      if InScope(listing[0].partition, configured) then [listing[0]] + rest else rest
  }

  /** The host a pool belongs to: its name up to the first underscore. */
  function HostOf(poolName: string): string {
    Before(poolName, '_')
  }

  /** `poolMemberExist`: some member's name up to its first colon is the alias; a failed member query says no. */
  predicate PoolMemberExist(l: Listed, alias: string) {
    l.members.Some? && exists m :: m in l.members.value && Before(m, ':') == alias
  }

  /** A managed route whose spec host is `host`. */
  predicate Covered(routes: seq<Route>, hostToWatch: string, host: string) {
    exists r :: r in routes && Managed(r.specHost, r.annotations, hostToWatch) && r.specHost == host
  }

  /** The scan over in-scope pools: the host of each pool holding the alias that no managed route covers. */
  function Orphans(pools: seq<Listed>, routes: seq<Route>, hostToWatch: string, alias: string): (r: set<string>)
    ensures forall h :: h in r <==>
      !Covered(routes, hostToWatch, h) && exists l :: l in pools && PoolMemberExist(l, alias) && HostOf(l.name) == h
  {
    if |pools| == 0 then {}
    else
      var rest := Orphans(pools[1..], routes, hostToWatch, alias);
      var l := pools[0];
      assert forall x :: x in pools <==> x == l || x in pools[1..];
      if PoolMemberExist(l, alias) && !Covered(routes, hostToWatch, HostOf(l.name)) then {HostOf(l.name)} + rest
      else rest
  }

  /**
    `CheckPools`: the hosts to tear down are exactly the hosts of in-scope
    listed pools that hold a member of this cluster and that no managed
    route covers; a failed listing yields none.
   */
  function CheckPools(d: Driver, routes: seq<Route>, hostToWatch: string, alias: string,
                      listing: Option<seq<Listed>>): (r: set<string>)
    ensures listing.None? ==> r == {}
    ensures forall h :: h in r <==>
      && listing.Some?
      && !Covered(routes, hostToWatch, h)
      && exists l :: l in listing.value && InScope(l.partition, d.partition) && PoolMemberExist(l, alias) && HostOf(l.name) == h
  {
    match listing
    case None => {}
    case Some(pools) => Orphans(GetPools(pools, d.partition), routes, hostToWatch, alias)
  }

  /** Names come apart again: a host without underscores, and an alias without colons. */
  lemma NamingRoundTrip(host: string, alias: string, port: string)
    requires '_' !in host && ':' !in alias
    ensures HostOf(PoolName(host, port)) == host
    ensures Before(MemberName(alias, port), ':') == alias
  {
    assert PoolName(host, port) == host + ['_'] + port;
    BeforeJoin(host, '_', port);
    assert MemberName(alias, port) == alias + [':'] + port;
    BeforeJoin(alias, ':', port);
  }

  /**
    A pool this driver made for a host no managed route covers any more,
    listed in scope with this cluster's member, is reported; a host a
    managed route covers never is.
   */
  lemma OrphanReported(d: Driver, routes: seq<Route>, hostToWatch: string, alias: string,
                       host: string, port: string, pools: seq<Listed>)
    requires '_' !in host && ':' !in alias
    requires Listed(PoolName(host, port), d.partition, Some([MemberName(alias, port)])) in pools
    requires forall r :: r in routes && Managed(r.specHost, r.annotations, hostToWatch) ==> r.specHost != host
    ensures host in CheckPools(d, routes, hostToWatch, alias, Some(pools))
  {
    NamingRoundTrip(host, alias, port);
    var l := Listed(PoolName(host, port), d.partition, Some([MemberName(alias, port)]));
    assert MemberName(alias, port) in l.members.value;
    assert PoolMemberExist(l, alias);
  }
}
