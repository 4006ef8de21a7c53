/**
  `MiniTest::Mock`: an expectation recorder. Each `expect` stores the
  expected return value and arguments for a method name and installs a
  handler for that name on this one mock; an intercepted call goes through
  the handler, which checks the arity, logs the call and returns the
  scripted value; `verify` then checks that every expectation was met by
  some logged call.

  Ruby's per-instance (eigenclass) method definition is modelled as the
  dispatch table `handlers` together with one generic entry point `Call`; the
  original `respond_to?` that the source aliases is the set `innate` of names
  the mock's own class answers to.
 */
module MiniTest {
  import opened MockModel

  class Mock<N(==, !new), V(==)> {
    /** `@expected_calls`: name to `{retval, args}`. */
    var expectedCalls: map<N, Record<V>>
    /** The key order of `@expected_calls`, which `each_key` follows. */
    var expectedOrder: seq<N>
    /** `@actual_calls`: name to the records of its calls, oldest first. */
    var actualCalls: map<N, seq<Record<V>>>
    /** The handlers defined on the eigenclass, each with the `(retval, args)` it captured. */
    var handlers: map<N, Record<V>>
    /** The names the original `respond_to?` answers true for. */
    const innate: set<N>

    /** The contents of the two hashes. */
    ghost function State(): MockState<N, V>
      reads this
    {
      MockState(expectedCalls, expectedOrder, actualCalls)
    }

    /**
      The mock's invariant: the abstract state is valid, and the handler
      installed for each name captured exactly the expectation stored for it.
     */
    ghost predicate Valid()
      reads this
    {
      MockModel.Valid(State()) && handlers == expectedCalls
    }

    /** `initialize`: both hashes empty, no handler installed. */
    constructor (innate: set<N>)
      ensures Valid()
      ensures State() == Init()
      ensures this.innate == innate
    {
      expectedCalls := map[];
      expectedOrder := [];
      actualCalls := map[];
      handlers := map[];
      this.innate := innate;
    }

    /**
      `expect(name, retval, args = [])`: registers the expectation, replacing
      any earlier one for `name`, installs the handler, and returns the mock
      itself so that calls can be chained.
     */
    method Expect(name: N, retval: V, args: seq<V> := []) returns (self: Mock<N, V>)
      requires Valid()
      modifies this
      ensures Valid()
      ensures self == this
      ensures State() == ExpectStep(old(State()), name, retval, args)
      ensures handlers == old(handlers)[name := Record(retval, args)]
    {
      var order := if name in expectedCalls then expectedOrder else expectedOrder + [name];
      expectedCalls := expectedCalls[name := Record(retval, args)];
      expectedOrder := order;
      handlers := handlers[name := Record(retval, args)];
      self := this;
    }

    /**
      An intercepted call of `name` with `givenArgs`, dispatched to the
      installed handler: an arity mismatch raises `ArgumentError` and logs
      nothing; otherwise the record `{retval, givenArgs}` is appended to the
      log of `name` and `retval` is returned.
     */
    method Call(name: N, givenArgs: seq<V>) returns (outcome: CallOutcome<V>)
      requires Valid()
      modifies this
      ensures Valid()
      ensures CallResult(State(), outcome) == CallStep(old(State()), name, givenArgs)
      ensures handlers == old(handlers)
    {
      if name !in handlers {
        return NoHandler;
      }
      var h := handlers[name];
      if |h.args| != |givenArgs| {
        return ArgumentError;
      }
      // `@actual_calls[name] << record`: the default block creates the empty list first
      var log := if name in actualCalls then actualCalls[name] else [];
      actualCalls := actualCalls[name := log + [Record(h.retval, givenArgs)]];
      return Returned(h.retval);
    }

    /**
      `verify`: walks the expectations in key order and reports the first one
      whose name has no logged call equal to it; `Verified` exactly when every
      expectation is met. It changes nothing, so repeating it gives the same
      answer.
     */
    method Verify() returns (r: VerifyOutcome<N, V>)
      requires Valid()
      ensures r.Verified? <==> Satisfied(State())
      ensures r.MockExpectationError? ==>
        && r.name in expectedCalls
        && r.expected == expectedCalls[r.name]
        && !Met(State(), r.name)
        && exists k :: 0 <= k < |expectedOrder| && expectedOrder[k] == r.name &&
             forall i :: 0 <= i < k ==> Met(State(), expectedOrder[i])
    {
      var i := 0;
      while i < |expectedOrder|
        invariant 0 <= i <= |expectedOrder|
        invariant forall k :: 0 <= k < i ==> Met(State(), expectedOrder[k])
      {
        var name := expectedOrder[i];
        var expected := expectedCalls[name];
        // the `has_key?` guard keeps the default block from inserting `name`
        if !(name in actualCalls && expected in actualCalls[name]) {
          return MockExpectationError(name, expected);
        }
        i := i + 1;
      }
      forall n | n in expectedCalls
        ensures Met(State(), n)
      {
        var k :| 0 <= k < |expectedOrder| && expectedOrder[k] == n;
      }
      return Verified;
    }

    /** `respond_to?(sym)`: true for every registered name, otherwise the original answer. */
    function RespondsTo(sym: N): (r: bool)
      reads this
      ensures r == Responds(State(), innate, sym)
    {
      sym in expectedCalls || sym in innate
    }
  }
}
