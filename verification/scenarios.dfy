/**
  The controller's handlers driven against the recording provider: the log
  of operation names each event leaves behind, in general and for the
  routes the controller's own test suite uses.
 */
module Scenarios {
  import opened Strings
  import opened Routes
  import opened Provider
  import opened Workflows
  import opened Dispatcher
  import opened FakeProvider

  /** The names ensure-present leaves in the log. */
  const PresentLog: seq<string> :=
    [ "PreUpdate", "CreatePool", "CreatePool", "AddPoolMember", "AddPoolMember", "ModifyPool", "ModifyPool",
      "CreateMonitor", "CreateMonitor", "AddMonitorToPool", "AddMonitorToPool", "PostUpdate" ]

  /** The names ensure-absent leaves in the log. */
  const AbsentLog: seq<string> :=
    [ "PreUpdate", "DeletePoolMember", "DeletePoolMember", "CheckAndClean", "CheckAndClean", "PostUpdate" ]

  /** The log holds, at each position, the name of the call made at that position. */
  lemma {:induction false} NamesAt(s: seq<Call>)
    ensures forall i :: 0 <= i < |s| ==> Names(s)[i] == s[i].Name()
  {
    if |s| > 0 {
      NamesAt(s[1..]);
      assert forall i :: 1 <= i < |s| ==> Names(s)[i] == Names(s[1..])[i - 1] && s[i] == s[1..][i - 1];
    }
  }

  lemma PresentLogged(alias: string, host: string, e: Endpoint)
    ensures Names(EnsurePresent(alias, host, e)) == PresentLog
  {
    EnsurePresentSpelled(alias, host, e);
    NamesAt(EnsurePresent(alias, host, e));
  }

  lemma AbsentLogged(alias: string, host: string)
    ensures Names(EnsureAbsent(alias, host)) == AbsentLog
  {
    EnsureAbsentSpelled(alias, host);
    NamesAt(EnsureAbsent(alias, host));
  }

  /**
    `createRoute` on a fresh recording provider logs ensure-present for a
    managed route and nothing for any other.
   */
  lemma CreateLogged(c: Controller, r: Route)
    ensures Calls(Replay(NewFake(), CreateRoute(c, r))) ==
      if Managed(r.specHost, r.annotations, c.hostToWatch) then PresentLog else []
  {
    if Managed(r.specHost, r.annotations, c.hostToWatch) {
      PresentLogged(c.clusterAlias, r.specHost, Resolve(r.annotations));
    }
  }

  /** `deleteRoute` on a fresh recording provider logs ensure-absent for a managed route and nothing for any other. */
  lemma DeleteLogged(c: Controller, r: Route)
    ensures Calls(Replay(NewFake(), DeleteRoute(c, r))) ==
      if Managed(r.specHost, r.annotations, c.hostToWatch) then AbsentLog else []
  {
    if Managed(r.specHost, r.annotations, c.hostToWatch) {
      AbsentLogged(c.clusterAlias, r.specHost);
    }
  }

  /**
    `updateRoute` on a fresh recording provider: ensure-present's log when a
    route enters, ensure-absent's when it leaves, a bracketed log when it is
    reconfigured, and nothing when it is not admitted or not managed.
   */
  lemma UpdateLogged(c: Controller, prev: Route, next: Route)
    ensures var log := Calls(Replay(NewFake(), UpdateRoute(c, prev, next)));
      && (UpdateBranch(c, prev, next) == Present ==> log == PresentLog)
      && (UpdateBranch(c, prev, next) == Absent ==> log == AbsentLog)
      && (UpdateBranch(c, prev, next) == Reconfigure ==>
            |log| >= 2 && log[0] == "PreUpdate" && log[|log| - 1] == "PostUpdate")
      && (UpdateBranch(c, prev, next) in {NotAdmitted, Ignore} <==> log == [])
  {
    var branch := UpdateBranch(c, prev, next);
    if branch == Present {
      PresentLogged(c.clusterAlias, StatusHost(next), Resolve(next.annotations));
    } else if branch == Absent {
      AbsentLogged(c.clusterAlias, StatusHost(prev));
    } else if branch == Reconfigure {
      PatchLogged(StatusHost(next), Resolve(prev.annotations), Resolve(next.annotations));
    }
  }

  /** The patch branch's log opens with `PreUpdate` and closes with `PostUpdate`. */
  lemma PatchLogged(host: string, o: Endpoint, n: Endpoint)
    ensures var log := Names(Patch(host, o, n));
      |log| >= 2 && log[0] == "PreUpdate" && log[|log| - 1] == "PostUpdate"
  {
    NamesAt(Patch(host, o, n));
  }

  /** Every error-returning operation of the recording provider answers a nil error, and `CheckPools` no host. */
  lemma FakeAnswersNil(f: Fake, routes: seq<Route>, hostToWatch: string, member: string, host: string, port: string)
    ensures Invoke(f, CreatePool(host, port)).1 == NilError
    ensures Invoke(f, DeletePoolMember(member, host, port)).1 == NilError
    ensures Invoke(f, CheckPools(routes, hostToWatch, member)) == (Fake(f.log + ["CheckPools"]), NoHosts)
    ensures Invoke(f, CheckAndClean(host, port)) == (Fake(f.log + ["CheckAndClean"]), Done)
  {
  }

  // ------------------------------------------------------------ the test suite

  const Watched := Controller("test.com", "dc1")

  /** A route admitted under `host` alone, with the given annotations. */
  function Admitted(host: string, a: map<string, string>): Route {
    Route("", [Ingress(host)], a)
  }

  /**
    The create cases: a host under the watched suffix and a host opted in
    by annotation are set up; a host whose suffix only looks similar is not.
   */
  lemma CreateCases()
    ensures Calls(Replay(NewFake(), CreateRoute(Watched, Route("foo.test.com", [Ingress("")], map[])))) == PresentLog
    ensures Calls(Replay(NewFake(), CreateRoute(Watched, Route("leet.com", [Ingress("")], map[LbEnabledKey := "enabled"]))))
      == PresentLog
    ensures Calls(Replay(NewFake(), CreateRoute(Watched, Route("foo.testx.com", [Ingress("")], map[])))) == []
  {
    assert "foo.test.com"[4..] == "test.com";
    CreateLogged(Watched, Route("foo.test.com", [Ingress("")], map[]));
    CreateLogged(Watched, Route("leet.com", [Ingress("")], map[LbEnabledKey := "enabled"]));
    assert !HasSuffix("foo.testx.com", "test.com") by {
      assert "foo.testx.com"[5..][0] == 'e';
    }
    CreateLogged(Watched, Route("foo.testx.com", [Ingress("")], map[]));
  }

  /** The delete cases mirror the create cases with ensure-absent. */
  lemma DeleteCases()
    ensures Calls(Replay(NewFake(), DeleteRoute(Watched, Route("foo.test.com", [Ingress("")], map[])))) == AbsentLog
    ensures Calls(Replay(NewFake(), DeleteRoute(Watched, Route("leet.com", [Ingress("")], map[LbEnabledKey := "enabled"]))))
      == AbsentLog
    ensures Calls(Replay(NewFake(), DeleteRoute(Watched, Route("foo.testx.com", [Ingress("")], map[])))) == []
  {
    assert "foo.test.com"[4..] == "test.com";
    DeleteLogged(Watched, Route("foo.test.com", [Ingress("")], map[]));
    DeleteLogged(Watched, Route("leet.com", [Ingress("")], map[LbEnabledKey := "enabled"]));
    assert !HasSuffix("foo.testx.com", "test.com") by {
      assert "foo.testx.com"[5..][0] == 'e';
    }
    DeleteLogged(Watched, Route("foo.testx.com", [Ingress("")], map[]));
  }

  /**
    The first two updates of the update test: the same watched route
    redelivered, then the same unwatched route redelivered. The handler
    leaves `PreUpdate` and `PostUpdate` in the log, where the test expects
    an empty log.
   */
  lemma RedeliveredUpdates()
    ensures var f1 := Replay(NewFake(), UpdateRoute(Watched, Admitted("foo.test.com", map[]), Admitted("foo.test.com", map[])));
      var f2 := Replay(f1, UpdateRoute(Watched, Admitted("foo.texst.com", map[]), Admitted("foo.texst.com", map[])));
      Calls(f2) == ["PreUpdate", "PostUpdate"]
  {
    var watched, other := Admitted("foo.test.com", map[]), Admitted("foo.texst.com", map[]);
    assert "foo.test.com"[4..] == "test.com";
    UnchangedManagedUpdate(Watched, watched);
    assert !HasSuffix("foo.texst.com", "test.com") by {
      assert "foo.texst.com"[5..][0] == 'e';
    }
    assert UpdateBranch(Watched, other, other) == Ignore;
  }

  /**
    A route whose admitted host leaves the watched suffix is torn down (the
    log's second entry is `DeletePoolMember`); one whose host enters it is
    set up (the second entry is `CreatePool`).
   */
  lemma SuffixTransitions()
    ensures Calls(Replay(NewFake(), UpdateRoute(Watched, Admitted("foo.test.com", map[]), Admitted("foo.texst.com", map[]))))
      == AbsentLog
    ensures Calls(Replay(NewFake(), UpdateRoute(Watched, Admitted("foo.tesxt.com", map[]), Admitted("foo.test.com", map[]))))
      == PresentLog
  {
    var watched, gone, coming := Admitted("foo.test.com", map[]), Admitted("foo.texst.com", map[]), Admitted("foo.tesxt.com", map[]);
    assert "foo.test.com"[4..] == "test.com";
    assert !HasSuffix("foo.texst.com", "test.com") by {
      assert "foo.texst.com"[5..][0] == 'e';
    }
    assert !HasSuffix("foo.tesxt.com", "test.com") by {
      assert "foo.tesxt.com"[5..][0] == 'e';
    }
    UpdateLogged(Watched, watched, gone);
    UpdateLogged(Watched, coming, watched);
  }

  /** Gaining the opt-in key sets a route up; losing it tears the route down. */
  lemma OptInTransitions()
    ensures Calls(Replay(NewFake(), UpdateRoute(Watched, Admitted("foo.com", map[]),
                                                 Admitted("foo.com", map[LbEnabledKey := "enabled"])))) == PresentLog
    ensures Calls(Replay(NewFake(), UpdateRoute(Watched, Admitted("foobar.com", map[LbEnabledKey := "enabled"]),
                                                 Admitted("foobar.com", map[])))) == AbsentLog
  {
    var plain, opted := Admitted("foo.com", map[]), Admitted("foo.com", map[LbEnabledKey := "enabled"]);
    var optedBar, plainBar := Admitted("foobar.com", map[LbEnabledKey := "enabled"]), Admitted("foobar.com", map[]);
    assert !HasSuffix("foo.com", "test.com");
    assert !HasSuffix("foobar.com", "test.com") by {
      assert "foobar.com"[2..][0] == 'o';
    }
    UpdateLogged(Watched, plain, opted);
    UpdateLogged(Watched, optedBar, plainBar);
  }

  /** `CleanCalls` leaves an empty log, whatever was logged before. */
  lemma CleanCallsEmpties(c: Controller, r: Route)
    ensures Calls(CleanCalls(Replay(NewFake(), CreateRoute(c, r)))) == []
  {
  }
}
