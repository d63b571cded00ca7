/**
  The controller's workflows run against the F5 driver on a device that
  accepts every write. Under that assumption ensure-present leaves both
  pools of a host set up for this cluster and ensure-absent takes this
  cluster out of them again, deleting pools it leaves empty. The priority
  the driver gives its member is an input here: the controller does not
  pass one.
 */
module Convergence {
  import opened Strings
  import opened Routes
  import opened Provider
  import opened Workflows
  import F5

  /** One controller call on the driver, every write accepted; `failover` is the device's HA state answer. */
  function Apply(d: F5.Driver, c: Call, prio: int, failover: Option<string>): (r: F5.Step)
    requires F5.Valid(d)
    ensures F5.Valid(r.driver)
    ensures r.driver.addresses == d.addresses && r.driver.group == d.group && r.driver.partition == d.partition
  {
    match c
    case Initialize => F5.Step(d, Pass)
    case CreatePool(host, port) => F5.CreatePool(d, host, port, Pass)
    case AddPoolMember(member, host, port) => F5.AddPoolMember(d, member, host, port, Pass)
    case ModifyPool(host, port, lbMethod, pga, maintenance) =>
      F5.ModifyPool(d, host, port, lbMethod, pga, maintenance, prio, Pass, Pass)
    case CreateMonitor(host, port, uri, httpMethod, interval, timeout) =>
      F5.CreateMonitor(d, host, port, uri, httpMethod, interval, timeout, Pass)
    case ModifyMonitor(host, port, uri, httpMethod, interval, timeout) =>
      F5.ModifyMonitor(d, host, port, uri, httpMethod, interval, timeout, Pass)
    case AddMonitorToPool(host, port) => F5.AddMonitorToPool(d, host, port, Pass)
    case DeletePoolMember(member, host, port) => F5.DeletePoolMember(d, member, host, port, Pass)
    case CheckAndClean(host, port) => F5.Step(F5.CheckAndClean(d, host, port, Pass, Pass, Pass), Pass)
    case CheckPools(_, _, _) => F5.Step(d, Pass)
    case PreUpdate => F5.Step(F5.PreUpdate(d, failover), Pass)
    case PostUpdate => F5.Step(d, Pass)
  }

  /** The driver after a sequence of calls, and the answer to each. */
  datatype Trace = Trace(driver: F5.Driver, answers: seq<Outcome>)

  /** The calls applied in order from `d`. */
  function Run(d: F5.Driver, calls: seq<Call>, prio: int, failover: Option<string>): (t: Trace)
    requires F5.Valid(d)
    ensures F5.Valid(t.driver) && |t.answers| == |calls|
    ensures t.driver.addresses == d.addresses
    decreases |calls|, 1
  {
    if |calls| == 0 then Trace(d, []) else RunFrom(d, calls[0], calls[1..], prio, failover)
  }

  /** `c` applied to `d`, then the `rest`. */
  function RunFrom(d: F5.Driver, c: Call, rest: seq<Call>, prio: int, failover: Option<string>): (t: Trace)
    requires F5.Valid(d)
    ensures F5.Valid(t.driver) && |t.answers| == |rest| + 1
    ensures t.driver.addresses == d.addresses
    decreases |rest| + 1, 0
  {
    var s := Apply(d, c, prio, failover);
    var t := Run(s.driver, rest, prio, failover);
    Trace(t.driver, [s.status] + t.answers)
  }

  /** Running `c` first and then the rest. */
  lemma RunCons(d: F5.Driver, c: Call, rest: seq<Call>, prio: int, failover: Option<string>)
    requires F5.Valid(d)
    ensures var s := Apply(d, c, prio, failover);
      var t := Run(s.driver, rest, prio, failover);
      Run(d, [c] + rest, prio, failover) == Trace(t.driver, [s.status] + t.answers)
  {
    assert ([c] + rest)[0] == c && ([c] + rest)[1..] == rest;
    assert Run(d, [c] + rest, prio, failover) == RunFrom(d, c, rest, prio, failover);
  }

  /**
    A host's pool on a port set up for this cluster: it holds the cluster's
    member with the priority and session the settings call for, it has the
    balancing mode and minimum of active members asked for, it is watched by
    its monitor, and the monitor exists.
   */
  predicate Ready(d: F5.Driver, alias: string, host: string, e: Endpoint, port: string, prio: int) {
    var name := F5.PoolName(host, port);
    match F5.PoolAt(d, name)
    case None => false
    case Some(p) =>
      && F5.Patched(p.members, F5.MemberName(alias, port), prio, F5.SessionFor(e.maintenance))
      && p.mode == Some(F5.ModeFor(e.lbMethod))
      && p.minActive == Some(e.pga)
      && p.monitor == Some(name)
      && F5.MonitorAt(d, F5.MonitorKey(F5.Scheme(port), name)).Some?
  }

  /** The pool and monitor of `host` on a port are as in `before`, or freshly made with what the settings ask for. */
  predicate FreshWhereMissing(before: F5.Driver, after: F5.Driver, alias: string, host: string, e: Endpoint, port: string) {
    var name := F5.PoolName(host, port);
    var key := F5.MonitorKey(F5.Scheme(port), name);
    && (F5.PoolAt(before, name).None? && F5.PoolAt(after, name).Some? ==>
          forall m :: m in F5.PoolAt(after, name).value.members ==> m.name == F5.MemberName(alias, port))
    && (F5.MonitorAt(before, key).None? ==>
          F5.MonitorAt(after, key) == Some(F5.Monitor(MonitorInterval, MonitorTimeout, F5.SendString(e.httpMethod, e.path, host))))
    && (F5.MonitorAt(before, key).Some? ==> F5.MonitorAt(after, key) == F5.MonitorAt(before, key))
  }

  /** Pools and monitors of other hosts are left as they were. */
  ghost predicate OthersUntouched(before: F5.Driver, after: F5.Driver, host: string) {
    && (forall name :: name != F5.PoolName(host, Http) && name != F5.PoolName(host, Https) ==>
          F5.PoolAt(after, name) == F5.PoolAt(before, name))
    && (forall k :: k != F5.MonitorKey("http", F5.PoolName(host, Http)) && k != F5.MonitorKey("https", F5.PoolName(host, Https)) ==>
          F5.MonitorAt(after, k) == F5.MonitorAt(before, k))
  }

  lemma DistinctNames(host: string)
    ensures F5.PoolName(host, Http) != F5.PoolName(host, Https)
    ensures F5.Scheme(Http) == "http" && F5.Scheme(Https) == "https"
  {
    assert |F5.PoolName(host, Http)| != |F5.PoolName(host, Https)|;
  }

  /**
    How far ensure-present has got on one port, starting from `d0`: after
    step 1 the pool exists (a pool it created holds only this cluster's
    member), after step 2 it holds the member, after step 3 the member is
    patched and the pool settings written, after step 4 the monitor exists,
    after step 5 the pool is watched by it.
   */
  predicate Stage(d0: F5.Driver, s: F5.Driver, alias: string, host: string, e: Endpoint, port: string, prio: int, k: nat) {
    var name := F5.PoolName(host, port);
    var key := F5.MonitorKey(F5.Scheme(port), name);
    var mname := F5.MemberName(alias, port);
    && (k == 0 ==> F5.PoolAt(s, name) == F5.PoolAt(d0, name))
    && (k >= 1 ==> F5.PoolAt(s, name).Some?)
    && (k >= 1 && F5.PoolAt(d0, name).None? ==> forall m :: m in F5.PoolAt(s, name).value.members ==> m.name == mname)
    && (k >= 2 ==> F5.HasMember(F5.PoolAt(s, name).value.members, mname))
    && (k >= 3 ==> var p := F5.PoolAt(s, name).value;
          && F5.Patched(p.members, mname, prio, F5.SessionFor(e.maintenance))
          && p.mode == Some(F5.ModeFor(e.lbMethod)) && p.minActive == Some(e.pga))
    && (k < 4 ==> F5.MonitorAt(s, key) == F5.MonitorAt(d0, key))
    && (k >= 4 && F5.MonitorAt(d0, key).None? ==>
          F5.MonitorAt(s, key) == Some(F5.Monitor(MonitorInterval, MonitorTimeout, F5.SendString(e.httpMethod, e.path, host))))
    && (k >= 4 && F5.MonitorAt(d0, key).Some? ==> F5.MonitorAt(s, key) == F5.MonitorAt(d0, key))
    && (k >= 5 ==> F5.PoolAt(s, name).value.monitor == Some(name))
  }

  /** Both ports at step `k`, the alias remembered once members are added, nothing of other hosts touched. */
  ghost predicate Progress(d0: F5.Driver, s: F5.Driver, alias: string, host: string, e: Endpoint, prio: int, k: nat) {
    && F5.Valid(s)
    && Stage(d0, s, alias, host, e, Http, prio, k)
    && Stage(d0, s, alias, host, e, Https, prio, k)
    && (k >= 2 ==> s.clusterAlias == alias)
    && OthersUntouched(d0, s, host)
  }

  /** Step `i` of ensure-present on one port, counting from 0. */
  function PresentStep(alias: string, host: string, e: Endpoint, port: string, i: nat): Call
    requires i < 5
  {
    PresentSteps(alias, host, e, port)[i]
  }

  /** Running the next step on port 80 and then on port 443 moves both ports one step on, answering no error. */
  lemma PairAdvances(d0: F5.Driver, s: F5.Driver, alias: string, host: string, e: Endpoint, prio: int,
                     failover: Option<string>, done: nat)
    requires done < 5 && Progress(d0, s, alias, host, e, prio, done)
    ensures var a := Apply(s, PresentStep(alias, host, e, Http, done), prio, failover);
      var b := Apply(a.driver, PresentStep(alias, host, e, Https, done), prio, failover);
      && a.status == Pass && b.status == Pass
      && Progress(d0, b.driver, alias, host, e, prio, done + 1)
  {
    var a := Apply(s, PresentStep(alias, host, e, Http, done), prio, failover);
    StepAdvances(d0, s, alias, host, e, prio, failover, done, Http, Https, done);
    StepAdvances(d0, a.driver, alias, host, e, prio, failover, done, Https, Http, done + 1);
  }

  /** A port's stage depends only on its own pool and monitor. */
  lemma StageFramed(d0: F5.Driver, s: F5.Driver, r: F5.Driver, alias: string, host: string, e: Endpoint,
                    port: string, prio: int, k: nat)
    requires F5.PoolAt(r, F5.PoolName(host, port)) == F5.PoolAt(s, F5.PoolName(host, port))
    requires F5.MonitorAt(r, F5.MonitorKey(F5.Scheme(port), F5.PoolName(host, port))) ==
             F5.MonitorAt(s, F5.MonitorKey(F5.Scheme(port), F5.PoolName(host, port)))
    requires Stage(d0, s, alias, host, e, port, prio, k)
    ensures Stage(d0, r, alias, host, e, port, prio, k)
  {
  }

  /** A step confined to one of the host's pools and monitors keeps other hosts untouched. */
  lemma OthersFramed(d0: F5.Driver, s: F5.Driver, r: F5.Driver, host: string, port: string)
    requires port == Http || port == Https
    requires OthersUntouched(d0, s, host)
    requires Confined(s, r, host, port)
    ensures OthersUntouched(d0, r, host)
  {
  }

  /** Only the host's pool and monitor on `port` may have changed. */
  ghost predicate Confined(s: F5.Driver, r: F5.Driver, host: string, port: string) {
    && (forall name :: name != F5.PoolName(host, port) ==> F5.PoolAt(r, name) == F5.PoolAt(s, name))
    && (forall k :: k != F5.MonitorKey(F5.Scheme(port), F5.PoolName(host, port)) ==> F5.MonitorAt(r, k) == F5.MonitorAt(s, k))
  }

  /** Step 0 creates the pool; a pool it creates holds no member. */
  lemma CreatePoolAdvances(d0: F5.Driver, s: F5.Driver, alias: string, host: string, e: Endpoint, prio: int,
                      failover: Option<string>, done: nat, port: string)
    requires done == 0
    requires F5.Valid(s) && Stage(d0, s, alias, host, e, port, prio, done)
    ensures var r := Apply(s, PresentStep(alias, host, e, port, done), prio, failover);
      && r.status == Pass
      && Stage(d0, r.driver, alias, host, e, port, prio, done + 1)
      && Confined(s, r.driver, host, port)
      && (done >= 1 ==> r.driver.clusterAlias == alias)
  {
    assert PresentStep(alias, host, e, port, done) == CreatePool(host, port);
  }

  /** Step 1 adds this cluster's member and remembers the alias. */
  lemma AddPoolMemberAdvances(d0: F5.Driver, s: F5.Driver, alias: string, host: string, e: Endpoint, prio: int,
                      failover: Option<string>, done: nat, port: string)
    requires done == 1
    requires F5.Valid(s) && Stage(d0, s, alias, host, e, port, prio, done)
    ensures var r := Apply(s, PresentStep(alias, host, e, port, done), prio, failover);
      && r.status == Pass
      && Stage(d0, r.driver, alias, host, e, port, prio, done + 1)
      && Confined(s, r.driver, host, port)
      && (done >= 1 ==> r.driver.clusterAlias == alias)
  {
    assert PresentStep(alias, host, e, port, done) == AddPoolMember(alias, host, port);
    var name, mname := F5.PoolName(host, port), F5.MemberName(alias, port);
    var r := F5.AddPoolMember(s, alias, host, port, Pass).driver;
    var before, after := F5.PoolAt(s, name).value, F5.PoolAt(r, name).value;
    if F5.PoolAt(d0, name).None? && !F5.HasMember(before.members, mname) {
      assert after.members == before.members + [F5.Member(mname, None, None)];
    }
  }

  /** Step 2 patches the member and writes the pool settings, keeping the member list's names. */
  lemma ModifyPoolAdvances(d0: F5.Driver, s: F5.Driver, alias: string, host: string, e: Endpoint, prio: int,
                      failover: Option<string>, done: nat, port: string)
    requires done == 2 && s.clusterAlias == alias
    requires F5.Valid(s) && Stage(d0, s, alias, host, e, port, prio, done)
    ensures var r := Apply(s, PresentStep(alias, host, e, port, done), prio, failover);
      && r.status == Pass
      && Stage(d0, r.driver, alias, host, e, port, prio, done + 1)
      && Confined(s, r.driver, host, port)
      && (done >= 1 ==> r.driver.clusterAlias == alias)
  {
    assert PresentStep(alias, host, e, port, done) == ModifyPool(host, port, e.lbMethod, e.pga, e.maintenance);
    var name, mname := F5.PoolName(host, port), F5.MemberName(alias, port);
    var st := F5.ModifyPool(s, host, port, e.lbMethod, e.pga, e.maintenance, prio, Pass, Pass);
    assert Apply(s, PresentStep(alias, host, e, port, done), prio, failover) == st;
    var r := st.driver;
    var before, after := F5.PoolAt(s, name).value, F5.PoolAt(r, name).value;
    F5.FindMemberByNames(before.members, after.members, mname);
    if F5.PoolAt(d0, name).None? {
      forall m | m in after.members
        ensures m.name == mname
      {
        var i :| 0 <= i < |after.members| && after.members[i] == m;
        assert before.members[i] in before.members;
      }
    }
  }

  /** Step 3 creates the monitor unless it exists. */
  lemma CreateMonitorAdvances(d0: F5.Driver, s: F5.Driver, alias: string, host: string, e: Endpoint, prio: int,
                      failover: Option<string>, done: nat, port: string)
    requires done == 3 && s.clusterAlias == alias
    requires F5.Valid(s) && Stage(d0, s, alias, host, e, port, prio, done)
    ensures var r := Apply(s, PresentStep(alias, host, e, port, done), prio, failover);
      && r.status == Pass
      && Stage(d0, r.driver, alias, host, e, port, prio, done + 1)
      && Confined(s, r.driver, host, port)
      && (done >= 1 ==> r.driver.clusterAlias == alias)
  {
    assert PresentStep(alias, host, e, port, done) ==
      CreateMonitor(host, port, e.path, e.httpMethod, MonitorInterval, MonitorTimeout);
  }

  /** Step 4 makes the monitor watch the pool. */
  lemma AddMonitorToPoolAdvances(d0: F5.Driver, s: F5.Driver, alias: string, host: string, e: Endpoint, prio: int,
                      failover: Option<string>, done: nat, port: string)
    requires done == 4 && s.clusterAlias == alias
    requires F5.Valid(s) && Stage(d0, s, alias, host, e, port, prio, done)
    ensures var r := Apply(s, PresentStep(alias, host, e, port, done), prio, failover);
      && r.status == Pass
      && Stage(d0, r.driver, alias, host, e, port, prio, done + 1)
      && Confined(s, r.driver, host, port)
      && (done >= 1 ==> r.driver.clusterAlias == alias)
  {
    assert PresentStep(alias, host, e, port, done) == AddMonitorToPool(host, port);
  }

  /** The step after `done` on `port` advances it and leaves the `other` port at its step `j`. */
  lemma StepAdvances(d0: F5.Driver, s: F5.Driver, alias: string, host: string, e: Endpoint, prio: int,
                     failover: Option<string>, done: nat, port: string, other: string, j: nat)
    requires done < 5 && {port, other} == {Http, Https}
    requires F5.Valid(s)
    requires Stage(d0, s, alias, host, e, port, prio, done) && Stage(d0, s, alias, host, e, other, prio, j)
    requires done >= 2 ==> s.clusterAlias == alias
    requires OthersUntouched(d0, s, host)
    ensures var r := Apply(s, PresentStep(alias, host, e, port, done), prio, failover);
      && r.status == Pass
      && Stage(d0, r.driver, alias, host, e, port, prio, done + 1)
      && Stage(d0, r.driver, alias, host, e, other, prio, j)
      && (done >= 1 ==> r.driver.clusterAlias == alias)
      && OthersUntouched(d0, r.driver, host)
  {
    var r := Apply(s, PresentStep(alias, host, e, port, done), prio, failover);
    ApplyAdvances(d0, s, alias, host, e, prio, failover, done, port);
    StepFramed(d0, s, r.driver, alias, host, e, port, other, prio, j);
  }

  /** The step after `done` on `port` advances that port and changes nothing but its pool and monitor. */
  lemma ApplyAdvances(d0: F5.Driver, s: F5.Driver, alias: string, host: string, e: Endpoint, prio: int,
                      failover: Option<string>, done: nat, port: string)
    requires done < 5 && F5.Valid(s)
    requires Stage(d0, s, alias, host, e, port, prio, done)
    requires done >= 2 ==> s.clusterAlias == alias
    ensures var r := Apply(s, PresentStep(alias, host, e, port, done), prio, failover);
      && r.status == Pass
      && Stage(d0, r.driver, alias, host, e, port, prio, done + 1)
      && Confined(s, r.driver, host, port)
      && (done >= 1 ==> r.driver.clusterAlias == alias)
  {
    if done == 0 {
      CreatePoolAdvances(d0, s, alias, host, e, prio, failover, done, port);
    } else if done == 1 {
      AddPoolMemberAdvances(d0, s, alias, host, e, prio, failover, done, port);
    } else if done == 2 {
      ModifyPoolAdvances(d0, s, alias, host, e, prio, failover, done, port);
    } else if done == 3 {
      CreateMonitorAdvances(d0, s, alias, host, e, prio, failover, done, port);
    } else {
      AddMonitorToPoolAdvances(d0, s, alias, host, e, prio, failover, done, port);
    }
  }

  /** A step confined to `port` keeps the other port's stage and other hosts untouched. */
  lemma StepFramed(d0: F5.Driver, s: F5.Driver, r: F5.Driver, alias: string, host: string, e: Endpoint,
                   port: string, other: string, prio: int, j: nat)
    requires {port, other} == {Http, Https}
    requires Confined(s, r, host, port) && Stage(d0, s, alias, host, e, other, prio, j)
    requires OthersUntouched(d0, s, host)
    ensures Stage(d0, r, alias, host, e, other, prio, j) && OthersUntouched(d0, r, host)
  {
    OtherPortFramed(d0, s, r, alias, host, e, port, other, prio, j);
    OthersFramed(d0, s, r, host, port);
  }

  /** A step confined to one port keeps the other port's stage. */
  lemma OtherPortFramed(d0: F5.Driver, s: F5.Driver, r: F5.Driver, alias: string, host: string, e: Endpoint,
                        port: string, other: string, prio: int, j: nat)
    requires {port, other} == {Http, Https}
    requires Confined(s, r, host, port) && Stage(d0, s, alias, host, e, other, prio, j)
    ensures Stage(d0, r, alias, host, e, other, prio, j)
  {
    DistinctNames(host);
    var otherName := F5.PoolName(host, other);
    assert otherName != F5.PoolName(host, port);
    assert F5.MonitorKey(F5.Scheme(other), otherName) != F5.MonitorKey(F5.Scheme(port), F5.PoolName(host, port));
    StageFramed(d0, s, r, alias, host, e, other, prio, j);
  }

  predicate AllPass(answers: seq<Outcome>) {
    forall i :: 0 <= i < |answers| ==> answers[i].Pass?
  }

  lemma AllPassAppend(a: seq<Outcome>, b: seq<Outcome>)
    requires AllPass(a) && AllPass(b)
    ensures AllPass(a + b)
  {
  }

  /** Ensure-present from step `done` on: the remaining steps of both ports, pair by pair, then `PostUpdate`. */
  function Remaining(alias: string, host: string, e: Endpoint, done: nat): seq<Call>
    requires done <= 5
    decreases 5 - done
  {
    if done == 5 then [PostUpdate]
    else [PresentStep(alias, host, e, Http, done)] + ([PresentStep(alias, host, e, Https, done)] + Remaining(alias, host, e, done + 1))
  }

  /** Ensure-present is `PreUpdate` followed by everything that remains from step 0. */
  lemma EnsurePresentRemaining(alias: string, host: string, e: Endpoint)
    ensures EnsurePresent(alias, host, e) == [PreUpdate] + Remaining(alias, host, e, 0)
  {
    var a, b := PresentSteps(alias, host, e, Http), PresentSteps(alias, host, e, Https);
    RemainingFrom(a, b, alias, host, e, 0);
    assert a[0..] == a && b[0..] == b;
    Associate([PreUpdate], Interleave(a, b), [PostUpdate]);
  }

  lemma Associate<T>(x: seq<T>, y: seq<T>, z: seq<T>)
    ensures x + y + z == x + (y + z)
  {
  }

  /** What remains from step `done` is the interleaving of the steps left on each port, then `PostUpdate`. */
  lemma {:induction false} RemainingFrom(a: seq<Call>, b: seq<Call>, alias: string, host: string, e: Endpoint, done: nat)
    requires done <= 5 && a == PresentSteps(alias, host, e, Http) && b == PresentSteps(alias, host, e, Https)
    ensures Remaining(alias, host, e, done) == Interleave(a[done..], b[done..]) + [PostUpdate]
    decreases 5 - done
  {
    if done < 5 {
      RemainingFrom(a, b, alias, host, e, done + 1);
      var x, y := a[done..], b[done..];
      assert x[1..] == a[done + 1..] && y[1..] == b[done + 1..];
      var m := Interleave(x[1..], y[1..]);
      assert Interleave(x, y) == [x[0], y[0]] + m;
      assert Remaining(alias, host, e, done) == [x[0]] + ([y[0]] + (m + [PostUpdate]));
      Regroup(x[0], y[0], m, PostUpdate);
    } else {
      assert a[done..] == [] && b[done..] == [];
    }
  }

  lemma Regroup<T>(p: T, q: T, m: seq<T>, z: T)
    ensures [p] + ([q] + (m + [z])) == ([p, q] + m) + [z]
  {
  }

  /** From step `done`, the rest of ensure-present answers no error and brings both ports to the last step. */
  lemma {:induction false} PresentFrom(d0: F5.Driver, s: F5.Driver, alias: string, host: string, e: Endpoint, prio: int,
                                       failover: Option<string>, done: nat)
    requires done <= 5 && Progress(d0, s, alias, host, e, prio, done)
    ensures var t := Run(s, Remaining(alias, host, e, done), prio, failover);
      AllPass(t.answers) && Progress(d0, t.driver, alias, host, e, prio, 5)
    decreases 5 - done, 1
  {
    if done == 5 {
      PresentLast(d0, s, alias, host, e, prio, failover);
    } else {
      PresentPair(d0, s, alias, host, e, prio, failover, done);
    }
  }

  /** A call answered with no error, then a rest that answers no error: the whole answers no error and ends where the rest ends. */
  lemma RunOne(s: F5.Driver, c: Call, rest: seq<Call>, prio: int, failover: Option<string>)
    requires F5.Valid(s)
    requires Apply(s, c, prio, failover).status == Pass
    requires AllPass(Run(Apply(s, c, prio, failover).driver, rest, prio, failover).answers)
    ensures var t := Run(Apply(s, c, prio, failover).driver, rest, prio, failover);
      var u := Run(s, [c] + rest, prio, failover);
      AllPass(u.answers) && u.driver == t.driver
  {
    var t := Run(Apply(s, c, prio, failover).driver, rest, prio, failover);
    RunCons(s, c, rest, prio, failover);
    AllPassAppend([Pass], t.answers);
  }

  /** Once both ports are done, `PostUpdate` leaves the device as it is. */
  lemma PresentLast(d0: F5.Driver, s: F5.Driver, alias: string, host: string, e: Endpoint, prio: int,
                    failover: Option<string>)
    requires Progress(d0, s, alias, host, e, prio, 5)
    ensures var t := Run(s, Remaining(alias, host, e, 5), prio, failover);
      AllPass(t.answers) && Progress(d0, t.driver, alias, host, e, prio, 5)
  {
    RunOne(s, PostUpdate, [], prio, failover);
    assert Remaining(alias, host, e, 5) == [PostUpdate] + [];
  }

  /** Two calls answered with no error, then a rest that answers no error: the whole answers no error and ends where the rest ends. */
  lemma RunPair(s: F5.Driver, x: Call, y: Call, rest: seq<Call>, prio: int, failover: Option<string>)
    requires F5.Valid(s)
    requires Apply(s, x, prio, failover).status == Pass
    requires Apply(Apply(s, x, prio, failover).driver, y, prio, failover).status == Pass
    requires AllPass(Run(Apply(Apply(s, x, prio, failover).driver, y, prio, failover).driver, rest, prio, failover).answers)
    ensures var t := Run(Apply(Apply(s, x, prio, failover).driver, y, prio, failover).driver, rest, prio, failover);
      var u := Run(s, [x] + ([y] + rest), prio, failover);
      AllPass(u.answers) && u.driver == t.driver
  {
    var a := Apply(s, x, prio, failover);
    var b := Apply(a.driver, y, prio, failover);
    var t := Run(b.driver, rest, prio, failover);
    RunCons(a.driver, y, rest, prio, failover);
    RunCons(s, x, [y] + rest, prio, failover);
    assert Run(s, [x] + ([y] + rest), prio, failover).answers == [Pass, Pass] + t.answers;
    AllPassAppend([Pass, Pass], t.answers);
  }

  /** The next pair of steps, then the rest. */
  lemma {:induction false} PresentPair(d0: F5.Driver, s: F5.Driver, alias: string, host: string, e: Endpoint, prio: int,
                                       failover: Option<string>, done: nat)
    requires done < 5 && Progress(d0, s, alias, host, e, prio, done)
    ensures var t := Run(s, Remaining(alias, host, e, done), prio, failover);
      AllPass(t.answers) && Progress(d0, t.driver, alias, host, e, prio, 5)
    decreases 5 - done, 0
  {
    var x, y := PresentStep(alias, host, e, Http, done), PresentStep(alias, host, e, Https, done);
    PairAdvances(d0, s, alias, host, e, prio, failover, done);
    var b := Apply(Apply(s, x, prio, failover).driver, y, prio, failover);
    PresentFrom(d0, b.driver, alias, host, e, prio, failover, done + 1);
    RunPair(s, x, y, Remaining(alias, host, e, done + 1), prio, failover);
  }

  /** `PreUpdate` leaves the device alone: both ports at step 0. */
  lemma PresentStart(d: F5.Driver, alias: string, host: string, e: Endpoint, prio: int, failover: Option<string>)
    requires F5.Valid(d)
    ensures Progress(d, F5.PreUpdate(d, failover), alias, host, e, prio, 0)
  {
  }

  /** Both ports at the last step are what ensure-present promises. */
  lemma ProgressDone(d: F5.Driver, s: F5.Driver, alias: string, host: string, e: Endpoint, prio: int)
    requires Progress(d, s, alias, host, e, prio, 5)
    ensures Ready(s, alias, host, e, Http, prio) && Ready(s, alias, host, e, Https, prio)
    ensures FreshWhereMissing(d, s, alias, host, e, Http) && FreshWhereMissing(d, s, alias, host, e, Https)
  {
  }

  /** All of ensure-present after `PreUpdate`: no error, both ports at the last step. */
  lemma PresentAll(d: F5.Driver, alias: string, host: string, e: Endpoint, prio: int, failover: Option<string>)
    requires F5.Valid(d)
    ensures var t := Run(d, [PreUpdate] + Remaining(alias, host, e, 0), prio, failover);
      AllPass(t.answers) && Progress(d, t.driver, alias, host, e, prio, 5)
  {
    var s0 := Apply(d, PreUpdate, prio, failover).driver;
    assert s0 == F5.PreUpdate(d, failover);
    PresentStart(d, alias, host, e, prio, failover);
    PresentFrom(d, s0, alias, host, e, prio, failover, 0);
    RunOne(d, PreUpdate, Remaining(alias, host, e, 0), prio, failover);
  }

  /**
    On a device that accepts every write, ensure-present answers no error,
    sets up both pools of the host for this cluster, creates any missing
    monitor with the requested health check (an existing one keeps its
    settings), puts only this cluster's member into a pool it creates, and
    touches nothing of other hosts.
   */
  lemma EnsurePresentConverges(d: F5.Driver, alias: string, host: string, e: Endpoint, prio: int,
                               failover: Option<string>)
    requires F5.Valid(d)
    ensures var t := Run(d, EnsurePresent(alias, host, e), prio, failover);
      && Diagnostics(EnsurePresent(alias, host, e), t.answers) == []
      && Ready(t.driver, alias, host, e, Http, prio) && Ready(t.driver, alias, host, e, Https, prio)
      && FreshWhereMissing(d, t.driver, alias, host, e, Http) && FreshWhereMissing(d, t.driver, alias, host, e, Https)
      && OthersUntouched(d, t.driver, host)
      && t.driver.clusterAlias == alias
  {
    EnsurePresentRemaining(alias, host, e);
    PresentAll(d, alias, host, e, prio, failover);
    var t := Run(d, EnsurePresent(alias, host, e), prio, failover);
    ProgressDone(d, t.driver, alias, host, e, prio);
  }
}
