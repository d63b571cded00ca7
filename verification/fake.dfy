/**
  The recording provider used by the controller's tests: it logs the name of
  every operation it receives and answers every error-returning operation
  with a nil error and `CheckPools` with no host.
 */
module FakeProvider {
  import opened Provider

  /** What a fake operation hands back: nothing, a nil error, or a nil host list. */
  datatype Answer = Done | NilError | NoHosts

  datatype Fake = Fake(log: seq<string>)

  /** `NewFakeProvider`: an empty call log. */
  function NewFake(): (f: Fake)
    ensures |f.log| == 0
  {
    Fake([])
  }

  /** One recorded operation: its name appended once, and the fake's fixed answer. */
  function Invoke(f: Fake, c: Call): (r: (Fake, Answer))
    ensures r.0.log == f.log + [c.Name()]
    ensures c.ReturnsError() ==> r.1 == NilError
    ensures c.CheckPools? ==> r.1 == NoHosts
    ensures !c.ReturnsError() && !c.CheckPools? ==> r.1 == Done
  {
    var answer := if c.ReturnsError() then NilError else if c.CheckPools? then NoHosts else Done;
    (Fake(f.log + [c.Name()]), answer)
  }

  /** `Calls`: the log, unchanged. */
  function Calls(f: Fake): seq<string> {
    f.log
  }

  /** `CleanCalls`: the log emptied. */
  function CleanCalls(f: Fake): (r: Fake)
    ensures Calls(r) == []
  {
    Fake([])
  }

  /** A fake that has received `calls` in order logs exactly their names after what it held. */
  function Replay(f: Fake, calls: seq<Call>): (r: Fake)
    ensures r.log == f.log + Names(calls)
    decreases |calls|
  {
    if |calls| == 0 then f
    else
      var next := Fake(f.log + [calls[0].Name()]);
      var r := Replay(next, calls[1..]);
      assert Names(calls) == [calls[0].Name()] + Names(calls[1..]);
      assert r.log == f.log + ([calls[0].Name()] + Names(calls[1..]));
      r
  }
}
