/**
  Startup of the route controller: the configuration checks, the provider
  lookup, `Initialize`, and the consistency sweep `cleanUp`, which tears
  down every host the provider reports as orphaned. The route listing and
  the provider's orphan report are inputs.
 */
module Scanner {
  import opened Strings
  import opened Routes
  import opened Provider
  import opened Workflows
  import opened Dispatcher
  import Registry

  /** Ensure-absent for each host of `hosts`, in that order. */
  function Sweep(alias: string, hosts: seq<string>): seq<Call> {
    if |hosts| == 0 then []
    else Sweep(alias, hosts[..|hosts| - 1]) + EnsureAbsent(alias, hosts[|hosts| - 1])
  }

  /** The hosts the calls tear down: the host of every port-80 `DeletePoolMember`, with multiplicity. */
  function TornDown(calls: seq<Call>): multiset<string> {
    if |calls| == 0 then multiset{}
    else
      var c := calls[|calls| - 1];
      TornDown(calls[..|calls| - 1]) + if c.DeletePoolMember? && c.port == Http then multiset{c.host} else multiset{}
  }

  lemma {:induction false} TornDownAppend(a: seq<Call>, b: seq<Call>)
    ensures TornDown(a + b) == TornDown(a) + TornDown(b)
    decreases |b|
  {
    if |b| == 0 {
      assert a + b == a;
    } else {
      assert (a + b)[..|a + b| - 1] == a + b[..|b| - 1];
      TornDownAppend(a, b[..|b| - 1]);
    }
  }

  /** Ensure-absent tears down its own host once. */
  lemma EnsureAbsentTearsDownOnce(alias: string, host: string)
    ensures TornDown(EnsureAbsent(alias, host)) == multiset{host}
  {
    var r := EnsureAbsent(alias, host);
    assert r == [r[0], r[1], r[2], r[3], r[4]] + [r[5]];
    TornDownAppend([r[0], r[1], r[2], r[3], r[4]], [r[5]]);
    assert [r[0], r[1], r[2], r[3], r[4]] == [r[0], r[1], r[2], r[3]] + [r[4]];
    TornDownAppend([r[0], r[1], r[2], r[3]], [r[4]]);
    assert [r[0], r[1], r[2], r[3]] == [r[0], r[1], r[2]] + [r[3]];
    TornDownAppend([r[0], r[1], r[2]], [r[3]]);
    assert [r[0], r[1], r[2]] == [r[0], r[1]] + [r[2]];
    TornDownAppend([r[0], r[1]], [r[2]]);
    assert [r[0], r[1]] == [r[0]] + [r[1]];
    TornDownAppend([r[0]], [r[1]]);
    assert [r[0]] == [] + [r[0]];
    TornDownAppend([], [r[0]]);
  }

  /** Counting a sequence is counting all but its last element, then the last one. */
  lemma MultisetLast<T>(s: seq<T>)
    requires |s| > 0
    ensures multiset(s) == multiset(s[..|s| - 1]) + multiset{s[|s| - 1]}
  {
    assert s == s[..|s| - 1] + [s[|s| - 1]];
  }

  /** A sweep tears down exactly the hosts it was given, as many times as each is listed. */
  lemma {:induction false} SweepTearsDown(alias: string, hosts: seq<string>)
    ensures TornDown(Sweep(alias, hosts)) == multiset(hosts)
  {
    if |hosts| > 0 {
      var init, last := hosts[..|hosts| - 1], hosts[|hosts| - 1];
      var before, tail := Sweep(alias, init), EnsureAbsent(alias, last);
      assert Sweep(alias, hosts) == before + tail;
      SweepTearsDown(alias, init);
      TornDownAppend(before, tail);
      EnsureAbsentTearsDownOnce(alias, last);
      MultisetLast(hosts);
    }
  }

  /**
    `cleanUp`: with a route listing, ask the provider for orphans and run
    ensure-absent once for each host it reports, in whatever order the
    report is walked (`order` is the order chosen); without a listing, do
    nothing. Every reported host is torn down exactly once and no other host
    is torn down.
   */
  method CleanUp(c: Controller, listing: Option<seq<Route>>, orphans: set<string>)
    returns (calls: seq<Call>, order: seq<string>)
    ensures listing.None? ==> calls == [] && order == []
    ensures listing.Some? ==>
      calls == [CheckPools(listing.value, c.hostToWatch, c.clusterAlias)] + Sweep(c.clusterAlias, order)
    ensures listing.Some? ==> multiset(order) == multiset(orphans)
    ensures listing.Some? ==> forall h :: h in orphans ==> TornDown(calls)[h] == 1
    ensures listing.Some? ==> forall h :: h !in orphans ==> TornDown(calls)[h] == 0
  {
    if listing.None? {
      return [], [];
    }
    var remaining := orphans;
    order := [];
    while remaining != {}
      invariant remaining <= orphans
      invariant multiset(order) + multiset(remaining) == multiset(orphans)
      decreases remaining
    {
      var h :| h in remaining;
      order := order + [h];
      remaining := remaining - {h};
    }
    var head := [CheckPools(listing.value, c.hostToWatch, c.clusterAlias)];
    calls := head + Sweep(c.clusterAlias, order);
    TornDownAppend(head, Sweep(c.clusterAlias, order));
    assert TornDown(head) == multiset{} by {
      assert head == [] + [head[0]];
    }
    SweepTearsDown(c.clusterAlias, order);
  }

  /** The outcome of starting the controller: a fatal message, or the provider calls made. */
  datatype Startup = Fatal(msg: string) | Started(calls: seq<Call>, order: seq<string>)

  /**
    `NewRouteController` after the informer is wired: the watched suffix and
    the cluster alias must be set and the configured provider registered,
    else startup is fatal; then the provider is initialised and the sweep
    runs.
   */
  method Start<P>(reg: Registry.Registry<P>, hostToWatch: string, clusterAlias: string, providerName: string,
                  listing: Option<seq<Route>>, orphans: set<string>)
    returns (r: Startup)
    ensures |hostToWatch| == 0 ==> r == Fatal("SUFFIXHOST environment variable needed")
    ensures |hostToWatch| > 0 && |clusterAlias| == 0 ==> r == Fatal("CLUSTERALIAS environment variable needed")
    ensures |hostToWatch| > 0 && |clusterAlias| > 0 && Registry.InitProvider(reg, providerName).None? ==>
      r == Fatal("Could not find working LB provider")
    ensures r.Started? <==> |hostToWatch| > 0 && |clusterAlias| > 0 && ToLower(providerName) in reg
    ensures r.Started? ==> |r.calls| >= 1 && r.calls[0] == Initialize
    ensures r.Started? && listing.Some? ==> multiset(r.order) == multiset(orphans)
    ensures r.Started? && listing.Some? ==> forall h :: TornDown(r.calls)[h] == if h in orphans then 1 else 0
    ensures r.Started? && listing.None? ==> r.calls == [Initialize]
  {
    if |hostToWatch| == 0 {
      return Fatal("SUFFIXHOST environment variable needed");
    }
    if |clusterAlias| == 0 {
      return Fatal("CLUSTERALIAS environment variable needed");
    }
    var provider := Registry.InitProvider(reg, providerName);
    if provider.None? {
      return Fatal("Could not find working LB provider");
    }
    var sweep, order := CleanUp(Controller(hostToWatch, clusterAlias), listing, orphans);
    TornDownAppend([Initialize], sweep);
    assert TornDown([Initialize]) == multiset{} by {
      assert [Initialize] == [] + [Initialize];
    }
    r := Started([Initialize] + sweep, order);
  }
}
