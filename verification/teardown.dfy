/**
  Ensure-absent run against the F5 driver on a device that accepts every
  write: this cluster's member leaves both pools of the host, a pool left
  without members is deleted together with its monitor, a pool that still
  holds other clusters' members keeps them, and nothing of other hosts is
  touched.
 */
module Teardown {
  import opened Strings
  import opened Routes
  import opened Provider
  import opened Workflows
  import opened Convergence
  import F5

  /** A pool without this cluster's member. */
  function Without(p: Option<F5.Pool>, member: string): Option<F5.Pool> {
    match p
    case None => None
    case Some(pool) => Some(pool.(members := F5.RemoveMember(pool.members, member)))
  }

  /**
    The host's pool on `port` after ensure-absent, against `before`: a
    missing pool stays missing and a leftover monitor of that name is
    deleted; a pool left without members is gone with its monitor; any
    other pool keeps everything but this cluster's member, and its monitor
    stays.
   */
  predicate Cleared(before: F5.Driver, after: F5.Driver, alias: string, host: string, port: string) {
    var name := F5.PoolName(host, port);
    var key := F5.MonitorKey(F5.Scheme(port), name);
    match Without(F5.PoolAt(before, name), F5.MemberName(alias, port))
    case None => F5.PoolAt(after, name).None? && F5.MonitorAt(after, key).None?
    case Some(p) =>
      if |p.members| == 0 then F5.PoolAt(after, name).None? && F5.MonitorAt(after, key).None?
      else F5.PoolAt(after, name) == Some(p) && F5.MonitorAt(after, key) == F5.MonitorAt(before, key)
  }

  /** How far ensure-absent has got on one port: 0 untouched, 1 member deleted, 2 pool cleaned up. */
  predicate Gone(d0: F5.Driver, s: F5.Driver, alias: string, host: string, port: string, k: nat) {
    var name := F5.PoolName(host, port);
    var key := F5.MonitorKey(F5.Scheme(port), name);
    && (k == 0 ==> F5.PoolAt(s, name) == F5.PoolAt(d0, name))
    && (k == 1 ==> F5.PoolAt(s, name) == Without(F5.PoolAt(d0, name), F5.MemberName(alias, port)))
    && (k < 2 ==> F5.MonitorAt(s, key) == F5.MonitorAt(d0, key))
    && (k >= 2 ==> Cleared(d0, s, alias, host, port))
  }

  /** Both ports at step `k`, nothing of other hosts touched. */
  ghost predicate Retreat(d0: F5.Driver, s: F5.Driver, alias: string, host: string, k: nat) {
    && F5.Valid(s)
    && Gone(d0, s, alias, host, Http, k)
    && Gone(d0, s, alias, host, Https, k)
    && OthersUntouched(d0, s, host)
  }

  /** `DeletePoolMember` on a healthy device: no error, the member leaves the pool, nothing else changes. */
  lemma DeleteAdvances(d0: F5.Driver, s: F5.Driver, alias: string, host: string, port: string, prio: int,
                       failover: Option<string>)
    requires F5.Valid(s) && Gone(d0, s, alias, host, port, 0)
    ensures var r := Apply(s, DeletePoolMember(alias, host, port), prio, failover);
      && r.status == Pass
      && Gone(d0, r.driver, alias, host, port, 1)
      && Confined(s, r.driver, host, port)
  {
    var name := F5.PoolName(host, port);
    var st := F5.DeletePoolMember(s, alias, host, port, Pass);
    assert Apply(s, DeletePoolMember(alias, host, port), prio, failover) == st;
    assert F5.PoolAt(st.driver, name) == Without(F5.PoolAt(s, name), F5.MemberName(alias, port));
  }

  /** `CheckAndClean` on a healthy device, once the member is gone: the pool is cleaned up, nothing else changes. */
  lemma CleanAdvances(d0: F5.Driver, s: F5.Driver, alias: string, host: string, port: string, prio: int,
                      failover: Option<string>)
    requires F5.Valid(s) && Gone(d0, s, alias, host, port, 1)
    ensures var r := Apply(s, CheckAndClean(host, port), prio, failover);
      && r.status == Pass
      && Gone(d0, r.driver, alias, host, port, 2)
      && Confined(s, r.driver, host, port)
  {
    var r := F5.CheckAndClean(s, host, port, Pass, Pass, Pass);
    assert Apply(s, CheckAndClean(host, port), prio, failover) == F5.Step(r, Pass);
  }

  /** The step `i` of ensure-absent on `port` moves that port on and changes nothing but its pool and monitor. */
  lemma AbsentAdvances(d0: F5.Driver, s: F5.Driver, alias: string, host: string, port: string, prio: int,
                       failover: Option<string>, i: nat)
    requires i < 2 && F5.Valid(s) && Gone(d0, s, alias, host, port, i)
    ensures var r := Apply(s, AbsentSteps(alias, host, port)[i], prio, failover);
      && r.status == Pass
      && Gone(d0, r.driver, alias, host, port, i + 1)
      && Confined(s, r.driver, host, port)
  {
    if i == 0 {
      DeleteAdvances(d0, s, alias, host, port, prio, failover);
    } else {
      CleanAdvances(d0, s, alias, host, port, prio, failover);
    }
  }

  /** A step confined to one port keeps the other port's stage. */
  lemma GoneFramed(d0: F5.Driver, s: F5.Driver, r: F5.Driver, alias: string, host: string,
                   port: string, other: string, k: nat)
    requires {port, other} == {Http, Https}
    requires Confined(s, r, host, port) && Gone(d0, s, alias, host, other, k)
    ensures Gone(d0, r, alias, host, other, k)
  {
    DistinctNames(host);
    var otherName := F5.PoolName(host, other);
    var otherKey := F5.MonitorKey(F5.Scheme(other), otherName);
    assert otherName != F5.PoolName(host, port);
    assert otherKey != F5.MonitorKey(F5.Scheme(port), F5.PoolName(host, port));
    assert F5.PoolAt(r, otherName) == F5.PoolAt(s, otherName);
    assert F5.MonitorAt(r, otherKey) == F5.MonitorAt(s, otherKey);
  }

  /** Step `i` on `port` advances it, keeps the `other` port at its step `j` and other hosts untouched. */
  lemma AbsentStepAdvances(d0: F5.Driver, s: F5.Driver, alias: string, host: string, prio: int,
                           failover: Option<string>, i: nat, port: string, other: string, j: nat)
    requires i < 2 && {port, other} == {Http, Https}
    requires F5.Valid(s) && Gone(d0, s, alias, host, port, i) && Gone(d0, s, alias, host, other, j)
    requires OthersUntouched(d0, s, host)
    ensures var r := Apply(s, AbsentSteps(alias, host, port)[i], prio, failover);
      && r.status == Pass
      && Gone(d0, r.driver, alias, host, port, i + 1)
      && Gone(d0, r.driver, alias, host, other, j)
      && OthersUntouched(d0, r.driver, host)
  {
    var r := Apply(s, AbsentSteps(alias, host, port)[i], prio, failover);
    AbsentAdvances(d0, s, alias, host, port, prio, failover, i);
    GoneFramed(d0, s, r.driver, alias, host, port, other, j);
    OthersFramed(d0, s, r.driver, host, port);
  }

  /** Step `i` on port 80 and then on port 443: no error, both ports one step on. */
  lemma AbsentPairAdvances(d0: F5.Driver, s: F5.Driver, alias: string, host: string, prio: int,
                           failover: Option<string>, i: nat)
    requires i < 2 && Retreat(d0, s, alias, host, i)
    ensures var a := Apply(s, AbsentSteps(alias, host, Http)[i], prio, failover);
      var b := Apply(a.driver, AbsentSteps(alias, host, Https)[i], prio, failover);
      && a.status == Pass && b.status == Pass
      && Retreat(d0, b.driver, alias, host, i + 1)
  {
    var a := Apply(s, AbsentSteps(alias, host, Http)[i], prio, failover);
    AbsentStepAdvances(d0, s, alias, host, prio, failover, i, Http, Https, i);
    AbsentStepAdvances(d0, a.driver, alias, host, prio, failover, i, Https, Http, i + 1);
  }

  /** The cleaning pair and `PostUpdate`: no error, both ports cleaned up. */
  lemma AbsentLast(d0: F5.Driver, s: F5.Driver, alias: string, host: string, prio: int, failover: Option<string>)
    requires Retreat(d0, s, alias, host, 1)
    ensures var t := Run(s, [CheckAndClean(host, Http), CheckAndClean(host, Https), PostUpdate], prio, failover);
      AllPass(t.answers) && Retreat(d0, t.driver, alias, host, 2)
  {
    var x, y := CheckAndClean(host, Http), CheckAndClean(host, Https);
    AbsentPairAdvances(d0, s, alias, host, prio, failover, 1);
    var b := Apply(Apply(s, x, prio, failover).driver, y, prio, failover);
    RunOne(b.driver, PostUpdate, [], prio, failover);
    RunPair(s, x, y, [PostUpdate] + [], prio, failover);
    assert [x] + ([y] + ([PostUpdate] + [])) == [x, y, PostUpdate];
  }

  /** Both pairs and `PostUpdate`: no error, both ports cleaned up. */
  lemma AbsentPairs(d0: F5.Driver, s: F5.Driver, alias: string, host: string, prio: int, failover: Option<string>)
    requires Retreat(d0, s, alias, host, 0)
    ensures var t := Run(s, Interleave(AbsentSteps(alias, host, Http), AbsentSteps(alias, host, Https)) + [PostUpdate],
                         prio, failover);
      AllPass(t.answers) && Retreat(d0, t.driver, alias, host, 2)
  {
    var x, y := DeletePoolMember(alias, host, Http), DeletePoolMember(alias, host, Https);
    var rest := [CheckAndClean(host, Http), CheckAndClean(host, Https), PostUpdate];
    AbsentPairAdvances(d0, s, alias, host, prio, failover, 0);
    var b := Apply(Apply(s, x, prio, failover).driver, y, prio, failover);
    AbsentLast(d0, b.driver, alias, host, prio, failover);
    RunPair(s, x, y, rest, prio, failover);
    AbsentLaidOut(alias, host);
  }

  /** Ensure-absent after `PreUpdate`: the deleting pair, then the cleaning pair and `PostUpdate`. */
  lemma AbsentLaidOut(alias: string, host: string)
    ensures Interleave(AbsentSteps(alias, host, Http), AbsentSteps(alias, host, Https)) + [PostUpdate] ==
      [DeletePoolMember(alias, host, Http)] + ([DeletePoolMember(alias, host, Https)] +
        [CheckAndClean(host, Http), CheckAndClean(host, Https), PostUpdate])
  {
    var a, b := AbsentSteps(alias, host, Http), AbsentSteps(alias, host, Https);
    var m := Interleave(a, b);
    assert m[0] == a[0] && m[1] == b[0] && m[2] == a[1] && m[3] == b[1];
    assert m == [DeletePoolMember(alias, host, Http), DeletePoolMember(alias, host, Https),
                 CheckAndClean(host, Http), CheckAndClean(host, Https)];
  }

  /** `PreUpdate`, then the rest: no error, both ports cleaned up. */
  lemma AbsentAll(d: F5.Driver, alias: string, host: string, prio: int, failover: Option<string>)
    requires F5.Valid(d)
    ensures var t := Run(d, EnsureAbsent(alias, host), prio, failover);
      AllPass(t.answers) && Retreat(d, t.driver, alias, host, 2)
  {
    var rest := Interleave(AbsentSteps(alias, host, Http), AbsentSteps(alias, host, Https)) + [PostUpdate];
    var s0 := Apply(d, PreUpdate, prio, failover).driver;
    assert s0 == F5.PreUpdate(d, failover);
    assert Retreat(d, s0, alias, host, 0);
    AbsentPairs(d, s0, alias, host, prio, failover);
    RunOne(d, PreUpdate, rest, prio, failover);
    Associate([PreUpdate], Interleave(AbsentSteps(alias, host, Http), AbsentSteps(alias, host, Https)), [PostUpdate]);
  }

  /**
    On a device that accepts every write, ensure-absent answers no error,
    takes this cluster's member out of both pools of the host, deletes a
    pool it leaves empty together with its monitor, deletes the monitor of
    a pool that does not exist, keeps the other members
    of a pool it does not empty, and touches nothing of other hosts.
   */
  lemma EnsureAbsentConverges(d: F5.Driver, alias: string, host: string, prio: int, failover: Option<string>)
    requires F5.Valid(d)
    ensures var t := Run(d, EnsureAbsent(alias, host), prio, failover);
      && Diagnostics(EnsureAbsent(alias, host), t.answers) == []
      && Cleared(d, t.driver, alias, host, Http) && Cleared(d, t.driver, alias, host, Https)
      && OthersUntouched(d, t.driver, host)
  {
    AbsentAll(d, alias, host, prio, failover);
  }

  /** Ensure-present and then ensure-absent on a host whose pools did not exist leaves both pools and monitors gone. */
  lemma PresentThenAbsent(d: F5.Driver, alias: string, host: string, e: Endpoint, prio: int, failover: Option<string>)
    requires F5.Valid(d)
    requires F5.PoolAt(d, F5.PoolName(host, Http)).None? && F5.PoolAt(d, F5.PoolName(host, Https)).None?
    ensures var t := Run(d, EnsurePresent(alias, host, e), prio, failover);
      var u := Run(t.driver, EnsureAbsent(alias, host), prio, failover);
      && F5.PoolAt(u.driver, F5.PoolName(host, Http)).None? && F5.PoolAt(u.driver, F5.PoolName(host, Https)).None?
      && F5.MonitorAt(u.driver, F5.MonitorKey("http", F5.PoolName(host, Http))).None?
      && F5.MonitorAt(u.driver, F5.MonitorKey("https", F5.PoolName(host, Https))).None?
      && OthersUntouched(d, u.driver, host)
  {
    var t := Run(d, EnsurePresent(alias, host, e), prio, failover);
    EnsurePresentConverges(d, alias, host, e, prio, failover);
    EnsureAbsentConverges(t.driver, alias, host, prio, failover);
    DistinctNames(host);
    OnlyOwnMemberLeft(d, t.driver, alias, host, e, Http, prio);
    OnlyOwnMemberLeft(d, t.driver, alias, host, e, Https, prio);
  }

  /** A pool ensure-present created holds only this cluster's member, so removing it leaves the pool empty. */
  lemma OnlyOwnMemberLeft(d: F5.Driver, s: F5.Driver, alias: string, host: string, e: Endpoint, port: string, prio: int)
    requires F5.PoolAt(d, F5.PoolName(host, port)).None?
    requires Ready(s, alias, host, e, port, prio) && FreshWhereMissing(d, s, alias, host, e, port)
    ensures var p := F5.PoolAt(s, F5.PoolName(host, port)).value;
      |F5.RemoveMember(p.members, F5.MemberName(alias, port))| == 0
  {
  }
}
