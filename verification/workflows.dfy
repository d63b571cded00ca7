/**
  The three reconciliation workflows of the controller as the provider calls
  they issue: ensure-present (`checkExternalLBDoesExists`), ensure-absent
  (`checkExternalLBDoesNotExists`) and the patch branch of `updateRoute`.
  None of them looks at a provider's answer: an error is reported and the
  next step runs regardless.
 */
module Workflows {
  import opened Routes
  import opened Provider

  /** Per port, the steps of ensure-present in the order `checkExternalLBDoesExists` issues them. */
  function PresentSteps(alias: string, host: string, e: Endpoint, port: string): seq<Call> {
    [ CreatePool(host, port),
      AddPoolMember(alias, host, port),
      ModifyPool(host, port, e.lbMethod, e.pga, e.maintenance),
      CreateMonitor(host, port, e.path, e.httpMethod, MonitorInterval, MonitorTimeout),
      AddMonitorToPool(host, port) ]
  }

  /** Per port, the steps of ensure-absent. */
  function AbsentSteps(alias: string, host: string, port: string): seq<Call> {
    [ DeletePoolMember(alias, host, port), CheckAndClean(host, port) ]
  }

  /** `a[0], b[0], a[1], b[1], ...`: two equally long step lists taken in lock step. */
  function Interleave(a: seq<Call>, b: seq<Call>): (r: seq<Call>)
    requires |a| == |b|
    ensures |r| == 2 * |a|
    ensures forall i :: 0 <= i < |a| ==> r[2 * i] == a[i] && r[2 * i + 1] == b[i]
  {
    if |a| == 0 then []
    else
      var rest := Interleave(a[1..], b[1..]);
      var r := [a[0], b[0]] + rest;
      assert forall i :: 0 <= i < |a| ==> r[2 * i] == a[i] && r[2 * i + 1] == b[i] by {
        forall i | 1 <= i < |a|
          ensures r[2 * i] == a[i] && r[2 * i + 1] == b[i]
        {
          var j := i - 1;
          assert r[2 * i] == rest[2 * j] && r[2 * i + 1] == rest[2 * j + 1];
          assert a[1..][j] == a[i] && b[1..][j] == b[i];
        }
      }
      r
  }

  /** Ensure-present: each step runs for port 80 and then for port 443 before the next step starts. */
  function EnsurePresent(alias: string, host: string, e: Endpoint): seq<Call> {
    [PreUpdate] + Interleave(PresentSteps(alias, host, e, Http), PresentSteps(alias, host, e, Https)) + [PostUpdate]
  }

  /** Ensure-absent: drop this cluster's member on both ports, then clean both pools up. */
  function EnsureAbsent(alias: string, host: string): seq<Call> {
    [PreUpdate] + Interleave(AbsentSteps(alias, host, Http), AbsentSteps(alias, host, Https)) + [PostUpdate]
  }

  /** The pool settings differ: balancing method, PGA or maintenance. */
  predicate PoolChanged(o: Endpoint, n: Endpoint) {
    o.lbMethod != n.lbMethod || o.pga != n.pga || o.maintenance != n.maintenance
  }

  /** The monitor settings differ: health-check path or HTTP method. */
  predicate MonitorChanged(o: Endpoint, n: Endpoint) {
    o.path != n.path || o.httpMethod != n.httpMethod
  }

  /**
    The patch branch of `updateRoute`: always bracketed, with the pool pair
    exactly when a pool setting changed and the monitor pair exactly when a
    monitor setting changed, both carrying the new values.
   */
  function Patch(host: string, o: Endpoint, n: Endpoint): (r: seq<Call>)
    ensures |r| >= 2 && r[0] == PreUpdate && r[|r| - 1] == PostUpdate
    ensures (exists i :: 0 <= i < |r| && r[i].ModifyPool?) <==> PoolChanged(o, n)
    ensures (exists i :: 0 <= i < |r| && r[i].ModifyMonitor?) <==> MonitorChanged(o, n)
    ensures forall i :: 0 < i < |r| - 1 ==>
      || r[i] in {ModifyPool(host, Http, n.lbMethod, n.pga, n.maintenance),
                  ModifyPool(host, Https, n.lbMethod, n.pga, n.maintenance)}
      || r[i] in {ModifyMonitor(host, Http, n.path, n.httpMethod, MonitorInterval, MonitorTimeout),
                  ModifyMonitor(host, Https, n.path, n.httpMethod, MonitorInterval, MonitorTimeout)}
  {
    var pool := if PoolChanged(o, n) then
                  [ ModifyPool(host, Http, n.lbMethod, n.pga, n.maintenance),
                    ModifyPool(host, Https, n.lbMethod, n.pga, n.maintenance) ]
                else [];
    var monitor := if MonitorChanged(o, n) then
                     [ ModifyMonitor(host, Http, n.path, n.httpMethod, MonitorInterval, MonitorTimeout),
                       ModifyMonitor(host, Https, n.path, n.httpMethod, MonitorInterval, MonitorTimeout) ]
                   else [];
    var r := [PreUpdate] + pool + monitor + [PostUpdate];
    assert forall i :: 0 < i < |r| - 1 ==> r[i] in pool + monitor;
    assert PoolChanged(o, n) ==> r[1].ModifyPool?;
    assert MonitorChanged(o, n) ==> r[|pool| + 1].ModifyMonitor?;
    r
  }

  /**
    Per port, what the patch branch asks of that port: the pool update when
    a pool setting changed, then the monitor update when a monitor setting
    changed.
   */
  function PatchSteps(host: string, o: Endpoint, n: Endpoint, port: string): seq<Call> {
    (if PoolChanged(o, n) then [ModifyPool(host, port, n.lbMethod, n.pga, n.maintenance)] else [])
    + (if MonitorChanged(o, n) then [ModifyMonitor(host, port, n.path, n.httpMethod, MonitorInterval, MonitorTimeout)] else [])
  }

  /**
    The patch branch is bracketed, touches ports 80 and 443 only, issues
    each update on port 80 and right after on port 443, and seen from
    either port runs the pool update before the monitor update.
   */
  lemma PatchShape(host: string, o: Endpoint, n: Endpoint)
    ensures Bracketed(Patch(host, o, n))
    ensures OnlyWebPorts(Patch(host, o, n))
    ensures Interleaved(Patch(host, o, n))
    ensures OnPort(Patch(host, o, n), Http) == PatchSteps(host, o, n, Http)
    ensures OnPort(Patch(host, o, n), Https) == PatchSteps(host, o, n, Https)
  {
    var a, b := PatchSteps(host, o, n, Http), PatchSteps(host, o, n, Https);
    assert Patch(host, o, n) == [PreUpdate] + Interleave(a, b) + [PostUpdate];
    BracketedShape(a, b);
    BracketedProjection(a, b, Http, Https);
  }

  /** An update that changes no setting still brackets the provider: exactly `PreUpdate`, `PostUpdate`. */
  lemma PatchUnchanged(host: string, e: Endpoint)
    ensures Patch(host, e, e) == [PreUpdate, PostUpdate]
  {
  }

  /** Only the PGA changed: exactly the pool pair, no monitor call. */
  lemma PatchPgaOnly(host: string, o: Endpoint, n: Endpoint)
    requires n == o.(pga := n.pga) && n.pga != o.pga
    ensures Patch(host, o, n) ==
      [ PreUpdate,
        ModifyPool(host, Http, n.lbMethod, n.pga, n.maintenance),
        ModifyPool(host, Https, n.lbMethod, n.pga, n.maintenance),
        PostUpdate ]
  {
  }

  lemma {:induction false} OnPortAppend(a: seq<Call>, b: seq<Call>, port: string)
    ensures OnPort(a + b, port) == OnPort(a, port) + OnPort(b, port)
  {
    if |a| == 0 {
      assert a + b == b;
    } else {
      assert (a + b)[1..] == a[1..] + b;
      OnPortAppend(a[1..], b, port);
    }
  }

  /** Ports other than 80 and 443 are never addressed by ensure-present. */
  predicate OnlyWebPorts(calls: seq<Call>) {
    forall i :: 0 <= i < |calls| ==> calls[i].Bracket() || (calls[i].PerPort() && calls[i].port in {Http, Https})
  }

  /** Bracketed by `PreUpdate` and `PostUpdate`, with no bracket in between. */
  predicate Bracketed(calls: seq<Call>) {
    && |calls| >= 2 && calls[0] == PreUpdate && calls[|calls| - 1] == PostUpdate
    && forall i :: 0 < i < |calls| - 1 ==> !calls[i].Bracket()
  }

  /** Each per-port step runs on port 80 and, immediately after, the same step on port 443. */
  predicate Interleaved(calls: seq<Call>) {
    && |calls| % 2 == 0
    && (forall k :: 0 <= k < |calls| / 2 - 1 ==>
          && calls[2 * k + 1].PerPort() && calls[2 * k + 1].port == Http
          && calls[2 * k + 2] == calls[2 * k + 1].(port := Https))
  }

  /** All calls of `steps` are addressed to `port`. */
  predicate AllOnPort(steps: seq<Call>, port: string) {
    forall i :: 0 <= i < |steps| ==> steps[i].PerPort() && steps[i].port == port
  }

  /** Seen from one port, interleaving two ports' steps gives back that port's steps. */
  lemma {:induction false} OnPortInterleave(a: seq<Call>, b: seq<Call>, p: string, q: string)
    requires |a| == |b| && p != q
    requires AllOnPort(a, p) && AllOnPort(b, q)
    ensures OnPort(Interleave(a, b), p) == a
    ensures OnPort(Interleave(a, b), q) == b
  {
    if |a| > 0 {
      var rest := Interleave(a[1..], b[1..]);
      assert Interleave(a, b) == [a[0]] + ([b[0]] + rest);
      OnPortAppend([a[0]], [b[0]] + rest, p);
      OnPortAppend([b[0]], rest, p);
      OnPortAppend([a[0]], [b[0]] + rest, q);
      OnPortAppend([b[0]], rest, q);
      OnPortInterleave(a[1..], b[1..], p, q);
    }
  }

  /** The brackets are seen by no port. */
  lemma OnPortBrackets(port: string)
    ensures OnPort([PreUpdate], port) == [] && OnPort([PostUpdate], port) == []
  {
    assert [PreUpdate][1..] == [] && [PostUpdate][1..] == [];
  }

  /** Adding the brackets around a sequence does not change what a port sees of it. */
  lemma OnPortBracketed(mid: seq<Call>, port: string)
    ensures OnPort([PreUpdate] + mid + [PostUpdate], port) == OnPort(mid, port)
  {
    var pre := [PreUpdate] + mid;
    OnPortAppend(pre, [PostUpdate], port);
    OnPortAppend([PreUpdate], mid, port);
    OnPortBrackets(port);
    assert OnPort(pre, port) == OnPort(mid, port);
  }

  /** The per-port steps of a bracketed workflow are what one port sees of it. */
  lemma BracketedProjection(a: seq<Call>, b: seq<Call>, p: string, q: string)
    requires |a| == |b| && p != q
    requires AllOnPort(a, p) && AllOnPort(b, q)
    ensures OnPort([PreUpdate] + Interleave(a, b) + [PostUpdate], p) == a
    ensures OnPort([PreUpdate] + Interleave(a, b) + [PostUpdate], q) == b
  {
    OnPortBracketed(Interleave(a, b), p);
    OnPortBracketed(Interleave(a, b), q);
    OnPortInterleave(a, b, p, q);
  }

  /** One position of an interleaving: even positions come from `a`, odd ones from `b`. */
  lemma InterleaveAt(a: seq<Call>, b: seq<Call>, i: nat)
    requires |a| == |b| && i < 2 * |a|
    ensures Interleave(a, b)[i] == if i % 2 == 0 then a[i / 2] else b[i / 2]
  {
    var k := i / 2;
    assert i == 2 * k || i == 2 * k + 1;
  }

  /** Inside the brackets, step `k` of `a` sits at `2k + 1` and its twin from `b` right after it. */
  lemma BracketedAt(a: seq<Call>, b: seq<Call>)
    requires |a| == |b|
    ensures var r := [PreUpdate] + Interleave(a, b) + [PostUpdate];
      |r| == 2 * |a| + 2 && forall k :: 0 <= k < |a| ==> r[2 * k + 1] == a[k] && r[2 * k + 2] == b[k]
  {
    var mid := Interleave(a, b);
    var r := [PreUpdate] + mid + [PostUpdate];
    forall k | 0 <= k < |a|
      ensures r[2 * k + 1] == a[k] && r[2 * k + 2] == b[k]
    {
      assert r[2 * k + 1] == mid[2 * k] && r[2 * k + 2] == mid[2 * k + 1];
    }
  }

  /** Inside the brackets every call is a per-port call on port 80 or 443. */
  lemma BracketedInside(a: seq<Call>, b: seq<Call>)
    requires |a| == |b|
    requires AllOnPort(a, Http) && AllOnPort(b, Https)
    ensures var r := [PreUpdate] + Interleave(a, b) + [PostUpdate];
      forall i :: 0 < i < |r| - 1 ==> r[i].PerPort() && r[i].port in {Http, Https} && !r[i].Bracket()
  {
    var mid := Interleave(a, b);
    var r := [PreUpdate] + mid + [PostUpdate];
    forall i | 0 < i < |r| - 1
      ensures r[i].PerPort() && r[i].port in {Http, Https} && !r[i].Bracket()
    {
      assert r[i] == mid[i - 1];
      InterleaveAt(a, b, i - 1);
    }
  }

  /** A bracketed interleaving of a port-80 step list with its port-443 twin has all three shapes. */
  lemma BracketedShape(a: seq<Call>, b: seq<Call>)
    requires |a| == |b|
    requires AllOnPort(a, Http) && AllOnPort(b, Https)
    requires forall k :: 0 <= k < |a| ==> b[k] == a[k].(port := Https)
    ensures var r := [PreUpdate] + Interleave(a, b) + [PostUpdate];
      Bracketed(r) && OnlyWebPorts(r) && Interleaved(r)
  {
    var r := [PreUpdate] + Interleave(a, b) + [PostUpdate];
    BracketedAt(a, b);
    BracketedInside(a, b);
    assert |r| / 2 - 1 == |a|;
  }

  /**
    Ensure-present is bracketed, touches ports 80 and 443 only, interleaves
    the two ports step by step, and seen from either port runs exactly
    CreatePool, AddPoolMember (with the cluster alias), ModifyPool (with the
    resolved values), CreateMonitor (interval 3, timeout 10) and
    AddMonitorToPool, in that order.
   */
  lemma EnsurePresentShape(alias: string, host: string, e: Endpoint)
    ensures Bracketed(EnsurePresent(alias, host, e))
    ensures OnlyWebPorts(EnsurePresent(alias, host, e))
    ensures Interleaved(EnsurePresent(alias, host, e))
    ensures OnPort(EnsurePresent(alias, host, e), Http) == PresentSteps(alias, host, e, Http)
    ensures OnPort(EnsurePresent(alias, host, e), Https) == PresentSteps(alias, host, e, Https)
  {
    var a, b := PresentSteps(alias, host, e, Http), PresentSteps(alias, host, e, Https);
    BracketedShape(a, b);
    BracketedProjection(a, b, Http, Https);
  }

  /**
    Ensure-absent is bracketed, touches ports 80 and 443 only, interleaves
    them, and seen from either port deletes this cluster's member before
    asking the provider to clean the pool up.
   */
  lemma EnsureAbsentShape(alias: string, host: string)
    ensures Bracketed(EnsureAbsent(alias, host))
    ensures OnlyWebPorts(EnsureAbsent(alias, host))
    ensures Interleaved(EnsureAbsent(alias, host))
    ensures OnPort(EnsureAbsent(alias, host), Http) == AbsentSteps(alias, host, Http)
    ensures OnPort(EnsureAbsent(alias, host), Https) == AbsentSteps(alias, host, Https)
  {
    var a, b := AbsentSteps(alias, host, Http), AbsentSteps(alias, host, Https);
    BracketedShape(a, b);
    BracketedProjection(a, b, Http, Https);
  }

  /** Ensure-present written out call by call. */
  lemma EnsurePresentSpelled(alias: string, host: string, e: Endpoint)
    ensures EnsurePresent(alias, host, e) ==
      [ PreUpdate,
        CreatePool(host, Http), CreatePool(host, Https),
        AddPoolMember(alias, host, Http), AddPoolMember(alias, host, Https),
        ModifyPool(host, Http, e.lbMethod, e.pga, e.maintenance), ModifyPool(host, Https, e.lbMethod, e.pga, e.maintenance),
        CreateMonitor(host, Http, e.path, e.httpMethod, MonitorInterval, MonitorTimeout),
        CreateMonitor(host, Https, e.path, e.httpMethod, MonitorInterval, MonitorTimeout),
        AddMonitorToPool(host, Http), AddMonitorToPool(host, Https),
        PostUpdate ]
  {
    var a, b := PresentSteps(alias, host, e, Http), PresentSteps(alias, host, e, Https);
    var m := Interleave(a, b);
    assert m[0] == a[0] && m[1] == b[0] && m[2] == a[1] && m[3] == b[1] && m[4] == a[2];
    assert m[5] == b[2] && m[6] == a[3] && m[7] == b[3] && m[8] == a[4] && m[9] == b[4];
  }

  /** Ensure-absent written out call by call. */
  lemma EnsureAbsentSpelled(alias: string, host: string)
    ensures EnsureAbsent(alias, host) ==
      [ PreUpdate,
        DeletePoolMember(alias, host, Http), DeletePoolMember(alias, host, Https),
        CheckAndClean(host, Http), CheckAndClean(host, Https),
        PostUpdate ]
  {
    var a, b := AbsentSteps(alias, host, Http), AbsentSteps(alias, host, Https);
    var m := Interleave(a, b);
    assert m[0] == a[0] && m[1] == b[0] && m[2] == a[1] && m[3] == b[1];
  }

  /** A provider complaint the controller reports: the operation, the host and the error text. */
  datatype Diagnostic = Diagnostic(op: string, host: string, msg: string)

  /**
    The reporting side of a workflow. `answers[i]` is the provider's answer
    to `calls[i]`; every failed error-returning call is reported, in order,
    and nothing else is. The calls issued never depend on the answers.
   */
  function Diagnostics(calls: seq<Call>, answers: seq<Outcome>): (r: seq<Diagnostic>)
    requires |answers| == |calls|
    ensures |r| <= |calls|
    ensures (forall i :: 0 <= i < |calls| ==> answers[i].Pass?) ==> r == []
    ensures forall d :: d in r ==>
      exists i :: 0 <= i < |calls| && calls[i].ReturnsError() && answers[i] == Fail(d.msg)
        && d.op == calls[i].Name() && d.host == calls[i].host
    ensures forall i :: 0 <= i < |calls| && calls[i].ReturnsError() && answers[i].Fail? ==>
      Diagnostic(calls[i].Name(), calls[i].host, answers[i].msg) in r
  {
    if |calls| == 0 then []
    else
      var rest := Diagnostics(calls[1..], answers[1..]);
      var c := calls[0];
      assert forall i :: 1 <= i < |calls| ==> calls[i] == calls[1..][i - 1] && answers[i] == answers[1..][i - 1];
      if c.ReturnsError() && answers[0].Fail? then [Diagnostic(c.Name(), c.host, answers[0].msg)] + rest
      else rest
  }

  /**
    Reports come in call order: a call added at the end adds its report, if
    any, after all earlier ones.
   */
  lemma {:induction false} DiagnosticsInOrder(calls: seq<Call>, answers: seq<Outcome>, c: Call, a: Outcome)
    requires |answers| == |calls|
    ensures Diagnostics(calls + [c], answers + [a]) ==
      Diagnostics(calls, answers) + (if c.ReturnsError() && a.Fail? then [Diagnostic(c.Name(), c.host, a.msg)] else [])
  {
    if |calls| > 0 {
      assert (calls + [c])[1..] == calls[1..] + [c];
      assert (answers + [a])[1..] == answers[1..] + [a];
      DiagnosticsInOrder(calls[1..], answers[1..], c, a);
    } else {
      assert calls + [c] == [c] && answers + [a] == [a];
    }
  }
}
