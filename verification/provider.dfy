/**
  The provider interface as a call alphabet: one constructor per operation a
  load-balancer provider offers, carrying the arguments the controller
  passes. `ModifyPool` carries five arguments because the controller passes
  five; the priority a concrete driver may also take is an input of that
  driver, not of a call.
 */
module Provider {
  import opened Routes

  /** The two ports every route is published on. */
  const Http := "80"
  const Https := "443"

  /** Health-monitor interval and timeout, in seconds, fixed by the controller. */
  const MonitorInterval := 3
  const MonitorTimeout := 10

  /** A Go `error` result: nil, or an error with its message. */
  datatype Outcome = Pass | Fail(msg: string)

  datatype Call =
    | Initialize
    | CreatePool(host: string, port: string)
    | AddPoolMember(member: string, host: string, port: string)
    | ModifyPool(host: string, port: string, lbMethod: string, pga: int, maintenance: bool)
    | CreateMonitor(host: string, port: string, uri: string, httpMethod: string, interval: int, timeout: int)
    | ModifyMonitor(host: string, port: string, uri: string, httpMethod: string, interval: int, timeout: int)
    | AddMonitorToPool(host: string, port: string)
    | DeletePoolMember(member: string, host: string, port: string)
    | CheckAndClean(host: string, port: string)
    | CheckPools(routes: seq<Route>, hostToWatch: string, member: string)
    | PreUpdate
    | PostUpdate
  {
    /** The operation's name, as a recording provider logs it. */
    function Name(): string {
      match this
      case Initialize => "Initialize"
      case CreatePool(_, _) => "CreatePool"
      case AddPoolMember(_, _, _) => "AddPoolMember"
      case ModifyPool(_, _, _, _, _) => "ModifyPool"
      case CreateMonitor(_, _, _, _, _, _) => "CreateMonitor"
      case ModifyMonitor(_, _, _, _, _, _) => "ModifyMonitor"
      case AddMonitorToPool(_, _) => "AddMonitorToPool"
      case DeletePoolMember(_, _, _) => "DeletePoolMember"
      case CheckAndClean(_, _) => "CheckAndClean"
      case CheckPools(_, _, _) => "CheckPools"
      case PreUpdate => "PreUpdate"
      case PostUpdate => "PostUpdate"
    }

    /** Operations whose Go signature returns an `error`. */
    predicate ReturnsError() {
      || CreatePool? || AddPoolMember? || ModifyPool? || CreateMonitor?
      || ModifyMonitor? || AddMonitorToPool? || DeletePoolMember?
    }

    /** Operations addressed to one pool: they carry a host and a port. */
    predicate PerPort() {
      ReturnsError() || CheckAndClean?
    }

    /** The brackets around every workflow. */
    predicate Bracket() {
      PreUpdate? || PostUpdate?
    }
  }

  /** The names a recording provider logs for a sequence of calls. */
  function Names(calls: seq<Call>): (r: seq<string>)
    ensures |r| == |calls|
  {
    if |calls| == 0 then [] else [calls[0].Name()] + Names(calls[1..])
  }

  lemma {:induction false} NamesAppend(a: seq<Call>, b: seq<Call>)
    ensures Names(a + b) == Names(a) + Names(b)
  {
    if |a| == 0 {
      assert a + b == b;
    } else {
      assert (a + b)[1..] == a[1..] + b;
      NamesAppend(a[1..], b);
    }
  }

  /** The calls addressed to a given port, in order. */
  function OnPort(calls: seq<Call>, port: string): (r: seq<Call>)
    ensures |r| <= |calls|
  {
    if |calls| == 0 then []
    else
      var rest := OnPort(calls[1..], port);
      if calls[0].PerPort() && calls[0].port == port then [calls[0]] + rest else rest
  }
}
