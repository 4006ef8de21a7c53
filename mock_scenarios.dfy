/**
  Client runs of `MiniTest.Mock` on concrete values: what a test that uses a
  mock can conclude from the contracts of `Expect`, `Call`, `Verify` and
  `RespondsTo` alone.
 */
module MockScenarios {
  import opened MockModel
  import opened MiniTest

  /** A sample of the names the mock's own class answers `respond_to?` for. */
  const Builtins: set<string> := {"expect", "verify", "respond_to?"}

  /** `m.expect(:f, 42, [1, 2]); m.f(1, 2)` returns 42, and `m.verify` then returns true. */
  method HappyPath() returns (ret: CallOutcome<int>, verdict: VerifyOutcome<string, int>)
    ensures ret == Returned(42)
    ensures verdict == Verified
  {
    var mock := new Mock<string, int>(Builtins);
    var _ := mock.Expect("f", 42, [1, 2]);
    ret := mock.Call("f", [1, 2]);
    verdict := mock.Verify();
  }

  /** Two chained expectations, each called once with its arguments, verify. */
  method Chained() returns (a: CallOutcome<int>, b: CallOutcome<int>, verdict: VerifyOutcome<string, int>)
    ensures a == Returned(1) && b == Returned(2)
    ensures verdict == Verified
  {
    var mock := new Mock<string, int>(Builtins);
    var m1 := mock.Expect("f", 1);
    var m2 := m1.Expect("g", 2, [7]);
    assert mock.expectedCalls == map["f" := Record(1, []), "g" := Record(2, [7])];
    assert mock.actualCalls == map[];
    a := mock.Call("f", []);
    assert Log(mock.actualCalls, "f") == [Record(1, [])];
    b := mock.Call("g", [7]);
    assert Log(mock.actualCalls, "f") == [Record(1, [])];
    assert Log(mock.actualCalls, "g") == [Record(2, [7])];
    verdict := mock.Verify();
  }

  /** `m.expect(:f, 42, [1, 2]); m.verify` without a call raises about `f`. */
  method NeverCalled() returns (verdict: VerifyOutcome<string, int>)
    ensures verdict == MockExpectationError("f", Record(42, [1, 2]))
  {
    var mock := new Mock<string, int>(Builtins);
    var _ := mock.Expect("f", 42, [1, 2]);
    verdict := mock.Verify();
  }

  /** `m.f(9, 9)` has the right arity, so it returns 42, but `verify` still raises. */
  method WrongArguments() returns (ret: CallOutcome<int>, verdict: VerifyOutcome<string, int>)
    ensures ret == Returned(42)
    ensures verdict == MockExpectationError("f", Record(42, [1, 2]))
  {
    var mock := new Mock<string, int>(Builtins);
    var _ := mock.Expect("f", 42, [1, 2]);
    ret := mock.Call("f", [9, 9]);
    verdict := mock.Verify();
    assert mock.actualCalls["f"] == [Record(42, [9, 9])];
  }

  /** `m.f(1)` against two expected arguments raises `ArgumentError` and logs nothing. */
  method WrongArity() returns (ret: CallOutcome<int>, logged: map<string, seq<Record<int>>>, verdict: VerifyOutcome<string, int>)
    ensures ret == ArgumentError
    ensures logged == map[]
    ensures verdict == MockExpectationError("f", Record(42, [1, 2]))
  {
    var mock := new Mock<string, int>(Builtins);
    var _ := mock.Expect("f", 42, [1, 2]);
    ret := mock.Call("f", [1]);
    logged := mock.actualCalls;
    verdict := mock.Verify();
  }

  /**
    Re-registering `f` keeps only the latest expectation: the call that met
    the first one stays in the log but does not meet the second.
   */
  method Reregistered() returns (first: VerifyOutcome<string, int>, logged: map<string, seq<Record<int>>>, second: VerifyOutcome<string, int>)
    ensures first == Verified
    ensures logged == map["f" := [Record(42, [1, 2])]]
    ensures second == MockExpectationError("f", Record(7, [3]))
  {
    var mock := new Mock<string, int>(Builtins);
    var _ := mock.Expect("f", 42, [1, 2]);
    var _ := mock.Call("f", [1, 2]);
    first := mock.Verify();
    var _ := mock.Expect("f", 7, [3]);
    assert mock.actualCalls["f"] == [Record(42, [1, 2])];
    logged := mock.actualCalls;
    second := mock.Verify();
  }

  /** `respond_to?(:f)` is false before `expect(:f, ...)` and true after; built-in names always answer true. */
  method RespondsBeforeAndAfter() returns (before: bool, after: bool, builtin: bool)
    ensures !before && after && builtin
  {
    var mock := new Mock<string, int>(Builtins);
    before := mock.RespondsTo("f");
    var _ := mock.Expect("f", 42);
    after := mock.RespondsTo("f");
    builtin := mock.RespondsTo("verify");
  }

  /** A successful `verify` repeated gives the same answer. */
  method VerifyTwice() returns (v1: VerifyOutcome<string, int>, v2: VerifyOutcome<string, int>)
    ensures v1 == Verified && v2 == Verified
  {
    var mock := new Mock<string, int>(Builtins);
    var _ := mock.Expect("f", 42, [1, 2]);
    var _ := mock.Call("f", [1, 2]);
    v1 := mock.Verify();
    v2 := mock.Verify();
  }

  /** Calling a name that was never registered reaches no handler and logs nothing. */
  method Unregistered() returns (ret: CallOutcome<int>, logged: map<string, seq<Record<int>>>, verdict: VerifyOutcome<string, int>)
    ensures ret == NoHandler
    ensures logged == map[]
    ensures verdict == Verified
  {
    var mock := new Mock<string, int>(Builtins);
    ret := mock.Call("g", [1]);
    logged := mock.actualCalls;
    verdict := mock.Verify();
  }
}
