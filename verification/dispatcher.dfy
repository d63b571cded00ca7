/**
  The event handlers of the route controller: `createRoute`, `deleteRoute`
  and `updateRoute`, each turning one route event into the provider calls it
  issues. Create and delete look at the route's spec host; update looks at
  the host of the first admitted ingress entry, and only once both the old
  and the new route have one.
 */
module Dispatcher {
  import opened Strings
  import opened Routes
  import opened Provider
  import opened Workflows

  /** The controller's startup values: the watched host suffix and this cluster's member alias. */
  datatype Controller = Controller(hostToWatch: string, clusterAlias: string)

  /** `createRoute`: ensure-present on the spec host of a managed route; nothing otherwise. */
  function CreateRoute(c: Controller, r: Route): (calls: seq<Call>)
    ensures calls != [] <==> Managed(r.specHost, r.annotations, c.hostToWatch)
    ensures calls != [] ==> calls == EnsurePresent(c.clusterAlias, r.specHost, Resolve(r.annotations))
  {
    var found := LbEnabledKey in r.annotations;
    if HasSuffix(r.specHost, c.hostToWatch) || found then
      EnsurePresent(c.clusterAlias, r.specHost, Resolve(r.annotations))
    else []
  }

  /** `deleteRoute`: ensure-absent on the spec host of a managed route; nothing otherwise. */
  function DeleteRoute(c: Controller, r: Route): (calls: seq<Call>)
    ensures calls != [] <==> Managed(r.specHost, r.annotations, c.hostToWatch)
    ensures calls != [] ==> calls == EnsureAbsent(c.clusterAlias, r.specHost)
  {
    var found := LbEnabledKey in r.annotations;
    if HasSuffix(r.specHost, c.hostToWatch) || found then
      EnsureAbsent(c.clusterAlias, r.specHost)
    else []
  }

  /** Which branch of `updateRoute` an update event takes. */
  datatype Branch = NotAdmitted | Present | Absent | Reconfigure | Ignore

  /** The host of a route's first admitted ingress entry. */
  function StatusHost(r: Route): string
    requires |r.ingress| > 0
  {
    r.ingress[0].host
  }

  /** A route managed by its first admitted host. */
  predicate ManagedByStatus(c: Controller, r: Route)
    requires |r.ingress| > 0
  {
    Managed(StatusHost(r), r.annotations, c.hostToWatch)
  }

  /**
    The branch `updateRoute` takes, written with its literal conditions: a
    suffix transition OR an opt-in transition enters, the reverse leaves,
    and otherwise a route watched by suffix or opt-in is reconfigured.
   */
  function UpdateBranch(c: Controller, prev: Route, next: Route): Branch {
    if |prev.ingress| == 0 || |next.ingress| == 0 then NotAdmitted
    else
      var found := LbEnabledKey in next.annotations;
      var foundOld := LbEnabledKey in prev.annotations;
      var oldHost, newHost := prev.ingress[0].host, next.ingress[0].host;
      if (!HasSuffix(oldHost, c.hostToWatch) && HasSuffix(newHost, c.hostToWatch)) || (!foundOld && found) then Present
      else if (HasSuffix(oldHost, c.hostToWatch) && !HasSuffix(newHost, c.hostToWatch)) || (!found && foundOld) then Absent
      else if HasSuffix(newHost, c.hostToWatch) || found then Reconfigure
      else Ignore
  }

  /** `updateRoute`: the calls of the branch the event takes. */
  function UpdateRoute(c: Controller, prev: Route, next: Route): (calls: seq<Call>)
    ensures |prev.ingress| == 0 || |next.ingress| == 0 ==> calls == []
    ensures UpdateBranch(c, prev, next) == Present ==>
      calls == EnsurePresent(c.clusterAlias, StatusHost(next), Resolve(next.annotations))
    ensures UpdateBranch(c, prev, next) == Absent ==> calls == EnsureAbsent(c.clusterAlias, StatusHost(prev))
    ensures UpdateBranch(c, prev, next) == Reconfigure ==>
      calls == Patch(StatusHost(next), Resolve(prev.annotations), Resolve(next.annotations))
    ensures calls == [] <==> UpdateBranch(c, prev, next) in {NotAdmitted, Ignore}
  {
    match UpdateBranch(c, prev, next)
    case NotAdmitted => []
    case Present => EnsurePresent(c.clusterAlias, next.ingress[0].host, Resolve(next.annotations))
    case Absent => EnsureAbsent(c.clusterAlias, prev.ingress[0].host)
    case Reconfigure => Patch(next.ingress[0].host, Resolve(prev.annotations), Resolve(next.annotations))
    case Ignore => []
  }

  /** Entering takes the new route to be managed, leaving takes the old one to be managed. */
  lemma BranchImpliesManaged(c: Controller, prev: Route, next: Route)
    requires |prev.ingress| > 0 && |next.ingress| > 0
    ensures UpdateBranch(c, prev, next) == Present ==> ManagedByStatus(c, next)
    ensures UpdateBranch(c, prev, next) == Absent ==> ManagedByStatus(c, prev)
  {
  }

  /**
    The reconfigure branch is reached exactly when neither the suffix test
    nor the opt-in key changed and the route is managed; so both the old and
    the new route are managed there.
   */
  lemma ReconfigureExactly(c: Controller, prev: Route, next: Route)
    requires |prev.ingress| > 0 && |next.ingress| > 0
    ensures UpdateBranch(c, prev, next) == Reconfigure <==>
      && HasSuffix(StatusHost(prev), c.hostToWatch) == HasSuffix(StatusHost(next), c.hostToWatch)
      && (LbEnabledKey in prev.annotations) == (LbEnabledKey in next.annotations)
      && ManagedByStatus(c, next)
    ensures UpdateBranch(c, prev, next) == Reconfigure ==> ManagedByStatus(c, prev) && ManagedByStatus(c, next)
  {
  }

  /** An admitted update is ignored exactly when neither the old nor the new route is managed. */
  lemma IgnoreExactly(c: Controller, prev: Route, next: Route)
    requires |prev.ingress| > 0 && |next.ingress| > 0
    ensures UpdateBranch(c, prev, next) == Ignore <==> !ManagedByStatus(c, prev) && !ManagedByStatus(c, next)
  {
  }

  /** An unmanaged route becoming managed gets exactly the calls a creation of it would. */
  lemma UpdateEnteringIsCreate(c: Controller, prev: Route, next: Route)
    requires |prev.ingress| > 0 && |next.ingress| > 0
    requires !ManagedByStatus(c, prev) && ManagedByStatus(c, next)
    ensures UpdateRoute(c, prev, next) == EnsurePresent(c.clusterAlias, StatusHost(next), Resolve(next.annotations))
    ensures next.specHost == StatusHost(next) ==> UpdateRoute(c, prev, next) == CreateRoute(c, next)
  {
  }

  /** A managed route becoming unmanaged gets exactly the calls a deletion of it would. */
  lemma UpdateLeavingIsDelete(c: Controller, prev: Route, next: Route)
    requires |prev.ingress| > 0 && |next.ingress| > 0
    requires ManagedByStatus(c, prev) && !ManagedByStatus(c, next)
    ensures UpdateRoute(c, prev, next) == EnsureAbsent(c.clusterAlias, StatusHost(prev))
    ensures prev.specHost == StatusHost(prev) ==> UpdateRoute(c, prev, next) == DeleteRoute(c, prev)
  {
  }

  /**
    A managed route redelivered unchanged still brackets the provider with
    `PreUpdate` and `PostUpdate`: the handler does not compare the whole
    route, only the resolved settings.
   */
  lemma UnchangedManagedUpdate(c: Controller, r: Route)
    requires |r.ingress| > 0 && ManagedByStatus(c, r)
    ensures UpdateRoute(c, r, r) == [PreUpdate, PostUpdate]
  {
    PatchUnchanged(StatusHost(r), Resolve(r.annotations));
  }

  /**
    The literal conditions differ from comparing managed-ness: a route
    watched by suffix and opted in, whose host then leaves the suffix while
    keeping the opt-in key, stays managed, yet its old host is torn down and
    its new host is not set up.
   */
  lemma StillManagedButTornDown()
    ensures var c := Controller("test.com", "dc1");
      var prev := Route("", [Ingress("a.test.com")], map[LbEnabledKey := "true"]);
      var next := Route("", [Ingress("a.example.org")], map[LbEnabledKey := "true"]);
      && ManagedByStatus(c, prev) && ManagedByStatus(c, next)
      && UpdateRoute(c, prev, next) == EnsureAbsent("dc1", "a.test.com")
  {
    assert "a.test.com"[2..] == "test.com";
    assert HasSuffix("a.test.com", "test.com");
    assert !HasSuffix("a.example.org", "test.com") by {
      assert "a.example.org"[5..] != "test.com" by {
        assert "a.example.org"[5..][0] == 'm';
      }
    }
  }

  /**
    Conversely, a route already watched by suffix that gains the opt-in key
    goes through ensure-present again rather than reconfiguration.
   */
  lemma OptInOnWatchedRouteRecreates()
    ensures var c := Controller("test.com", "dc1");
      var prev := Route("", [Ingress("a.test.com")], map[]);
      var next := Route("", [Ingress("a.test.com")], map[LbEnabledKey := "true"]);
      && ManagedByStatus(c, prev)
      && UpdateRoute(c, prev, next) == EnsurePresent("dc1", "a.test.com", Resolve(next.annotations))
  {
    assert "a.test.com"[2..] == "test.com";
  }
}
