/**
  The abstract state of a MiniTest mock object and its state transitions.

  A mock owns two tables: the expectations, one record per method name, and
  the log of actual calls, an ordered list of records per method name. A
  record pairs a return value with an argument list; an expectation and a
  logged call have the same shape, so verification compares them by plain
  structural equality.
 */
module MockModel {

  datatype Option<T> = None | Some(value: T)

  /** `{ :retval => retval, :args => args }`, for an expectation and for a logged call alike. */
  datatype Record<V> = Record(retval: V, args: seq<V>)

  /**
    The contents of the mock's two hashes. `order` lists the keys of the
    expectation hash in the order Ruby's Hash enumerates them: the order in
    which each name was first registered.
   */
  datatype MockState<N, V> = MockState(
    expected: map<N, Record<V>>,
    order: seq<N>,
    actual: map<N, seq<Record<V>>>)

  /** What an intercepted call yields. */
  datatype CallOutcome<V> =
    | Returned(value: V)  // the scripted return value
    | ArgumentError       // the number of given arguments differs from the expected one
    | NoHandler           // no handler was installed for the name

  datatype CallResult<N, V> = CallResult(next: MockState<N, V>, outcome: CallOutcome<V>)

  /** What `verify` yields: `true`, or the first unmet expectation it raises about. */
  datatype VerifyOutcome<N, V> =
    | Verified
    | MockExpectationError(name: N, expected: Record<V>)

  /** The state right after `initialize`: both hashes empty. */
  function Init<N(!new), V>(): (s: MockState<N, V>)
    ensures Valid(s)
    ensures s.expected == map[] && s.actual == map[]
  {
    MockState(map[], [], map[])
  }

  /** The expectation registered for `name`, if any. */
  function Lookup<N(!new), V>(expected: map<N, Record<V>>, name: N): (r: Option<Record<V>>)
  {
    if name in expected then Some(expected[name]) else None
  }

  /** Reading the auto-vivifying call hash: a name never called has the empty list. */
  function Log<N(!new), V>(actual: map<N, seq<Record<V>>>, name: N): (r: seq<Record<V>>)
  {
    if name in actual then actual[name] else []
  }

  /**
    The invariant of every reachable state: the registration order lists each
    expected name exactly once, and the call log only has keys that were
    registered, each created by the append of a first call.
   */
  ghost predicate Valid<N(!new), V>(s: MockState<N, V>)
  {
    && (forall i, j :: 0 <= i < j < |s.order| ==> s.order[i] != s.order[j])
    && (forall n :: n in s.expected <==> n in s.order)
    && (forall n :: n in s.actual ==> n in s.expected && s.actual[n] != [])
  }

  /** `expect(name, retval, args)`: stores the expectation, replacing any earlier one for `name`. */
  function ExpectStep<N(!new), V>(s: MockState<N, V>, name: N, retval: V, args: seq<V>): (r: MockState<N, V>)
    ensures Lookup(r.expected, name) == Some(Record(retval, args))
    ensures forall m :: m != name ==> Lookup(r.expected, m) == Lookup(s.expected, m)
    ensures name in s.expected ==> r.order == s.order
    ensures name !in s.expected ==> r.order == s.order + [name]
    ensures r.actual == s.actual
    ensures Valid(s) ==> Valid(r)
  {
    var order := if name in s.expected then s.order else s.order + [name];
    MockState(s.expected[name := Record(retval, args)], order, s.actual)
  }

  /**
    An intercepted call of `name` with `given`: the handler installed by the
    latest `expect` checks the arity, appends `{retval, given}` to the log of
    `name` and returns `retval`.
   */
  function CallStep<N(!new), V>(s: MockState<N, V>, name: N, given: seq<V>): (r: CallResult<N, V>)
    ensures name !in s.expected ==> r == CallResult(s, NoHandler)
    ensures name in s.expected && |given| != |s.expected[name].args| ==> r == CallResult(s, ArgumentError)
    ensures name in s.expected && |given| == |s.expected[name].args| ==>
      && r.outcome == Returned(s.expected[name].retval)
      && Log(r.next.actual, name) == Log(s.actual, name) + [Record(s.expected[name].retval, given)]
    ensures forall m :: m != name ==> Log(r.next.actual, m) == Log(s.actual, m)
    ensures r.next.expected == s.expected && r.next.order == s.order
    ensures Valid(s) ==> Valid(r.next)
  {
    if name !in s.expected then
      CallResult(s, NoHandler)
    else
      var e := s.expected[name];
      if |e.args| != |given| then
        CallResult(s, ArgumentError)
      else
        var log := Log(s.actual, name) + [Record(e.retval, given)];
        CallResult(s.(actual := s.actual[name := log]), Returned(e.retval))
  }

  /** `respond_to?(sym)`: registered names answer true, all others as the mock's own methods do. */
  function Responds<N(!new), V>(s: MockState<N, V>, innate: set<N>, sym: N): (r: bool)
    ensures sym in s.expected ==> r
    ensures sym !in s.expected ==> (r <==> sym in innate)
  {
    sym in s.expected || sym in innate
  }

  /** The condition `verify` checks for one name: its log exists and holds a record equal to the expectation. */
  ghost predicate Met<N(!new), V>(s: MockState<N, V>, name: N)
  {
    name in s.expected && name in s.actual && s.expected[name] in s.actual[name]
  }

  /** Every registered expectation is met: the condition under which `verify` returns true. */
  ghost predicate Satisfied<N(!new), V>(s: MockState<N, V>)
  {
    forall n :: n in s.expected ==> Met(s, n)
  }

  // ---------------------------------------------------------------------
  // Properties of single steps and of short scenarios

  /** Registering `name` twice keeps only the second expectation (and the first-registration position). */
  lemma ExpectOverwrites<N(!new), V>(s: MockState<N, V>, name: N, r1: V, a1: seq<V>, r2: V, a2: seq<V>)
    ensures ExpectStep(ExpectStep(s, name, r1, a1), name, r2, a2) == ExpectStep(s, name, r2, a2)
  {
  }

  /** A fresh expectation with no equal record in the log is unmet, so `verify` fails. */
  lemma UncalledExpectationFails<N(!new), V>(s: MockState<N, V>, name: N, retval: V, args: seq<V>)
    requires Record(retval, args) !in Log(s.actual, name)
    ensures !Met(ExpectStep(s, name, retval, args), name)
    ensures !Satisfied(ExpectStep(s, name, retval, args))
  {
  }

  /**
    Logged calls stay attributable after re-registration: if the log of
    `name` already holds a record equal to the new expectation, the new
    expectation is met without any further call.
   */
  lemma EarlierCallMeetsNewExpectation<N(!new), V>(s: MockState<N, V>, name: N, retval: V, args: seq<V>)
    requires Record(retval, args) in Log(s.actual, name)
    ensures Met(ExpectStep(s, name, retval, args), name)
  {
  }

  /**
    An expectation followed by a call with exactly the expected arguments:
    the call returns the scripted value, the expectation is met, and if every
    other expectation was already met then `verify` succeeds.
   */
  lemma MatchingCallSatisfies<N(!new), V>(s: MockState<N, V>, name: N, retval: V, args: seq<V>)
    ensures CallStep(ExpectStep(s, name, retval, args), name, args).outcome == Returned(retval)
    ensures Met(CallStep(ExpectStep(s, name, retval, args), name, args).next, name)
    ensures (forall m :: m in s.expected && m != name ==> Met(s, m)) ==>
              Satisfied(CallStep(ExpectStep(s, name, retval, args), name, args).next)
  {
  }

  /**
    A call with the right arity but other argument values still returns the
    scripted value, yet leaves the expectation unmet, so `verify` fails.
   */
  lemma MismatchedCallFailsVerify<N(!new), V>(s: MockState<N, V>, name: N, retval: V, args: seq<V>, given: seq<V>)
    requires Record(retval, args) !in Log(s.actual, name)
    requires |given| == |args| && given != args
    ensures CallStep(ExpectStep(s, name, retval, args), name, given).outcome == Returned(retval)
    ensures !Met(CallStep(ExpectStep(s, name, retval, args), name, given).next, name)
    ensures !Satisfied(CallStep(ExpectStep(s, name, retval, args), name, given).next)
  {
  }

  /** Verification is an any-match check, not a count: more calls never unmeet an expectation. */
  lemma CallKeepsSatisfied<N(!new), V>(s: MockState<N, V>, name: N, given: seq<V>)
    requires Satisfied(s)
    ensures Satisfied(CallStep(s, name, given).next)
  {
  }

  /** `expect` makes the mock respond to `name` and does not change its answer for any other name. */
  lemma ExpectMakesResponsive<N(!new), V>(s: MockState<N, V>, innate: set<N>, name: N, retval: V, args: seq<V>, other: N)
    ensures Responds(ExpectStep(s, name, retval, args), innate, name)
    ensures other != name ==>
      Responds(ExpectStep(s, name, retval, args), innate, other) == Responds(s, innate, other)
  {
  }

  // ---------------------------------------------------------------------
  // Runs: any sequence of registrations and intercepted calls

  datatype Op<N, V> =
    | ExpectOp(name: N, retval: V, args: seq<V>)
    | CallOp(name: N, given: seq<V>)

  function Apply<N(!new), V>(s: MockState<N, V>, op: Op<N, V>): (r: MockState<N, V>)
  {
    match op
    case ExpectOp(name, retval, args) => ExpectStep(s, name, retval, args)
    case CallOp(name, given) => CallStep(s, name, given).next
  }

  /** The state after performing `ops` in order, starting from `s`. */
  function Run<N(!new), V>(s: MockState<N, V>, ops: seq<Op<N, V>>): (r: MockState<N, V>)
    decreases |ops|
  {
    if ops == [] then s else Apply(Run(s, ops[..|ops| - 1]), ops[|ops| - 1])
  }

  /** Every state reachable from a valid state is valid. */
  lemma {:induction false} RunValid<N(!new), V>(s: MockState<N, V>, ops: seq<Op<N, V>>)
    requires Valid(s)
    ensures Valid(Run(s, ops))
  {
    if ops != [] {
      RunValid(s, ops[..|ops| - 1]);
    }
  }

  /**
    The call log is append-only: each name's log after a run extends its log
    before, the registered names only grow and keep their order.
   */
  lemma {:induction false} RunAppendOnly<N(!new), V>(s: MockState<N, V>, ops: seq<Op<N, V>>, name: N)
    ensures Log(s.actual, name) <= Log(Run(s, ops).actual, name)
    ensures s.order <= Run(s, ops).order
    ensures name in s.expected ==> name in Run(s, ops).expected
  {
    if ops != [] {
      var pre := ops[..|ops| - 1];
      RunAppendOnly(s, pre, name);
      var t := Run(s, pre);
      match ops[|ops| - 1]
      case ExpectOp(n, r, a) =>
        assert Lookup(Run(s, ops).expected, name) == Lookup(t.expected, name) || n == name;
      case CallOp(n, g) =>
        assert Log(t.actual, name) <= Log(Run(s, ops).actual, name);
    }
  }

  ghost predicate IsExpectOf<N(!new), V>(op: Op<N, V>, name: N)
  {
    op.ExpectOp? && op.name == name
  }

  ghost predicate IsCallOf<N(!new), V>(op: Op<N, V>, name: N)
  {
    op.CallOp? && op.name == name
  }

  /** From the initial state, a name has an expectation only if some operation registered it. */
  lemma {:induction false} ExpectedWasRegistered<N(!new), V>(ops: seq<Op<N, V>>, name: N)
    requires name in Run(Init(), ops).expected
    ensures exists i :: 0 <= i < |ops| && IsExpectOf(ops[i], name)
  {
    var pre := ops[..|ops| - 1];
    var last := ops[|ops| - 1];
    if name in Run(Init(), pre).expected {
      ExpectedWasRegistered(pre, name);
      var i :| 0 <= i < |pre| && IsExpectOf(pre[i], name);
      assert ops[i] == pre[i];
    } else {
      assert IsExpectOf(last, name);
    }
  }

  /** Operation `j` of `ops`, run from the initial state, is a call of `name` that its handler accepted and logged. */
  ghost predicate IsLoggedCallOf<N(!new), V>(ops: seq<Op<N, V>>, j: nat, name: N)
    requires j < |ops|
  {
    IsCallOf(ops[j], name) && CallStep(Run(Init(), ops[..j]), name, ops[j].given).outcome.Returned?
  }

  /**
    From the initial state, every key of the call log is a name that some
    operation registered before a call of that name was accepted and logged.
   */
  lemma {:induction false} LoggedWasRegisteredEarlier<N(!new), V>(ops: seq<Op<N, V>>, name: N)
    requires name in Run(Init(), ops).actual
    ensures exists i, j :: 0 <= i < j < |ops| && IsExpectOf(ops[i], name) && IsLoggedCallOf(ops, j, name)
  {
    var pre := ops[..|ops| - 1];
    var last := ops[|ops| - 1];
    var t := Run(Init(), pre);
    if name in t.actual {
      LoggedWasRegisteredEarlier(pre, name);
      var i, j :| 0 <= i < j < |pre| && IsExpectOf(pre[i], name) && IsLoggedCallOf(pre, j, name);
      assert ops[i] == pre[i] && ops[j] == pre[j];
      assert ops[..j] == pre[..j];
      assert IsLoggedCallOf(ops, j, name);
    } else {
      assert last.CallOp? && last.name == name && name in t.expected;
      ExpectedWasRegistered(pre, name);
      var i :| 0 <= i < |pre| && IsExpectOf(pre[i], name);
      assert ops[i] == pre[i];
      assert ops[..|pre|] == pre;
      assert IsLoggedCallOf(ops, |pre|, name);
    }
  }

}
