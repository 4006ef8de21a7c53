# MiniTest::Mock in Dafny

This project models `MiniTest::Mock`, the expectation recorder of MiniTest.
A mock holds two tables:

- the expected calls: one record `{retval, args}` per method name;
- the actual calls: one list of call records per method name, oldest first.

The operations are:

- `expect(name, retval, args = [])` stores an expectation, replacing any
  earlier one for that name. It installs a handler for the name on this one
  mock and returns the mock, so calls can be chained.
- The installed handler rejects a call whose argument count differs from the
  expected count with `ArgumentError`. Otherwise it appends
  `{retval, given_args}` to the name's call list and returns `retval`.
- `verify` walks the expectations in key order. It raises
  `MockExpectationError` about the first name whose call list is missing or
  holds no record equal to the expectation, and otherwise returns true.
- `respond_to?(sym)` is true for registered names. For every other name it
  gives the answer of the mock's own class.

Files:

- `mock_model.dfy` (module `MockModel`) holds the abstract state of the two
  hashes, the effect of each operation as a function, and the lemmas about
  single steps and about whole runs of operations.
- `mock.dfy` (module `MiniTest`) holds the class `Mock`. Its fields are the two
  hashes, the key order of the expectation hash, and the dispatch table of
  installed handlers. Each method is proved against the step functions of
  `MockModel`. `Verify` is the source's early-exit loop, proved against the
  any-match predicate `Satisfied`.
- `mock_scenarios.dfy` (module `MockScenarios`) holds client runs on concrete
  values. They cover the happy path, two expectations chained through the
  returned mock, a name that is never called, wrong argument values, wrong
  arity, re-registration, `respond_to?` before and after `expect`, a repeated
  `verify`, and a call of a name that was never registered. Each run's result follows from the class
  contracts alone.

Modelling decisions:

- Method names and values are type parameters with equality; argument lists
  are `seq<V>`. An expectation and a logged call are the same datatype
  `Record`, because verification compares them by structural equality.
- Ruby defines a handler on the mock's eigenclass for each name. Here that is
  the map `handlers` plus one entry point `Call(name, givenArgs)`. The class
  invariant says each handler captured exactly the expectation stored for its
  name.
- Ruby's Hash keeps keys in first-insertion order, and assigning to an
  existing key keeps its place. So the expectation hash is a map plus the
  sequence `expectedOrder`, and `verify` reports the first unmet name in that
  order.
- The call hash fills in `[]` for a missing key when that key is read. It is a
  plain map read through `Log`, and `Call` writes the key on the first append.
  `verify` reads the hash only after its `has_key?` guard, so it never adds a
  key. The invariant records this: every key of the call log is registered and
  has a non-empty list.
- The aliased original `respond_to?` is the constructor parameter `innate`:
  the set of names the mock's own class answers to.
- Exceptions become results: `CallOutcome` (`Returned`, `ArgumentError`,
  `NoHandler`) and `VerifyOutcome` (`Verified`, `MockExpectationError` with the
  unmet name and its expected record).

## Model

| member | source | states |
|---|---|---|
| `MockModel.Init` | lib/minitest/mock.rb:12-15 | a new mock has no expectations and no logged calls, and its state satisfies the invariant |
| `MockModel.ExpectStep` | lib/minitest/mock.rb:27-38 | after `expect`, the expectation for `name` is exactly `{retval, args}` and every other name's expectation is unchanged; a new name goes to the end of the key order and a re-registered one keeps its place; the call log is untouched; the invariant is preserved |
| `MockModel.CallStep` | lib/minitest/mock.rb:31-35 | an unregistered name reaches no handler; a wrong argument count gives `ArgumentError` and leaves the state unchanged; the right count returns the expected `retval` whatever the argument values and appends `{retval, given}` to that name's log; other names' logs and the expectations are unchanged; the invariant is preserved |
| `MockModel.Responds` | lib/minitest/mock.rb:55-59 | true for every registered name; for any other name, exactly the original `respond_to?` answer |
| `MockModel.ExpectOverwrites` | lib/minitest/mock.rb:28 | registering a name twice is the same as registering it once with the latest `{retval, args}` |
| `MockModel.UncalledExpectationFails` | lib/minitest/mock.rb:45-51 | an expectation with no equal record in its log is unmet, so verification fails |
| `MockModel.EarlierCallMeetsNewExpectation` | lib/minitest/mock.rb:28-50 | after re-registration, a call logged earlier that equals the new expectation meets it without a further call |
| `MockModel.MatchingCallSatisfies` | lib/minitest/mock.rb:27-52 | expect followed by a call with exactly the expected arguments returns `retval` and meets the expectation; if every other expectation was met, verification succeeds |
| `MockModel.MismatchedCallFailsVerify` | lib/minitest/mock.rb:31-51 | a call with the right arity but other argument values returns `retval`, yet the expectation stays unmet and verification fails |
| `MockModel.CallKeepsSatisfied` | lib/minitest/mock.rb:33-50 | verification is any-match, not a count: a further call never turns a satisfied mock into an unsatisfied one |
| `MockModel.ExpectMakesResponsive` | lib/minitest/mock.rb:28-57 | after `expect(name, …)` the mock responds to `name`, and its answer for every other name is unchanged |
| `MockModel.RunValid` | lib/minitest/mock.rb:12-35 | every sequence of `expect`s and intercepted calls preserves the invariant: distinct key order covering the expectations, and a log whose keys are registered and whose lists are non-empty |
| `MockModel.RunAppendOnly` | lib/minitest/mock.rb:28-33 | over any run, each name's log is extended and never rewritten, and the registered names only grow and keep their order |
| `MockModel.ExpectedWasRegistered` | lib/minitest/mock.rb:28 | from a new mock, a name has an expectation only if some `expect` registered it |
| `MockModel.LoggedWasRegisteredEarlier` | lib/minitest/mock.rb:31-33 | from a new mock, every key of the call log was registered by an `expect` that came before a call of that name which its handler accepted and logged |
| `MiniTest.Mock.constructor` | lib/minitest/mock.rb:12-15 | both hashes and the dispatch table start empty and the invariant holds |
| `MiniTest.Mock.Expect` | lib/minitest/mock.rb:27-38 | the new state is `ExpectStep` of the old one, the handler for `name` captures `{retval, args}`, and the result is the mock itself |
| `MiniTest.Mock.Call` | lib/minitest/mock.rb:31-35 | dispatching through the handler table gives the new state and outcome of `CallStep`; the handlers are unchanged |
| `MiniTest.Mock.Verify` | lib/minitest/mock.rb:45-53 | returns `Verified` exactly when every expectation is met; otherwise it reports the first unmet name in key order with its expected record; it modifies nothing, so it can be repeated |
| `MiniTest.Mock.RespondsTo` | lib/minitest/mock.rb:55-59 | the answer of `Responds` on the mock's state and its built-in names; reads state, changes none |
| `MockScenarios.HappyPath` | lib/minitest/mock.rb:21-25 | `expect(:f, 42, [1, 2])` then `f(1, 2)` returns 42, and `verify` returns true |
| `MockScenarios.Chained` | lib/minitest/mock.rb:37 | two expectations chained through the returned mock, each called as expected, verify |
| `MockScenarios.NeverCalled` | lib/minitest/mock.rb:45-51 | an expectation that is never called makes `verify` raise about it |
| `MockScenarios.WrongArguments` | lib/minitest/mock.rb:32-50 | a call with the right count but other values returns 42, yet `verify` raises |
| `MockScenarios.WrongArity` | lib/minitest/mock.rb:32 | a call with the wrong count raises `ArgumentError`, the call log stays empty (`logged == map[]`), and `verify` raises |
| `MockScenarios.Reregistered` | lib/minitest/mock.rb:28-50 | after re-registration only the latest expectation is verified; the earlier matching call stays logged (`logged == map["f" := [Record(42, [1, 2])]]`) but does not meet it |
| `MockScenarios.RespondsBeforeAndAfter` | lib/minitest/mock.rb:56-58 | `respond_to?(:f)` is false before `expect(:f, …)` and true after; a built-in name answers true |
| `MockScenarios.VerifyTwice` | lib/minitest/mock.rb:45-53 | a successful `verify` gives the same answer when repeated |
| `MockScenarios.Unregistered` | lib/minitest/mock.rb:30-31 | a name without an installed handler is not intercepted (`NoHandler`) and the call log stays empty (`logged == map[]`) |

## Left out

- Ruby metaprogramming. The eigenclass, `define_method` and the `alias` of `respond_to?` are replaced by the `handlers` table and the `innate` set; names are not reflected on.
- Shadowing of the mock's own methods. In the source, `expect(:verify, …)` or `expect(:expect, …)` would replace these methods on the instance. In the model, `Expect`, `Verify` and `RespondsTo` always stay the mock's own.
- Names of different kinds. Ruby stores `:f` and `"f"` as different hash keys but defines the same method for both. The model has one name type, so this case does not arise.
- `NoHandler` covers a call of an unregistered name: Ruby's ordinary lookup (an innate method or `NoMethodError`) is not modelled beyond "no handler, nothing logged".
- The message text of `MockExpectationError`, built with `inspect`. The error carries the unmet name and its expected record instead.
- Ruby's `==` on arbitrary objects. Values are a type parameter with decidable equality.
- Aliasing of the `args` array. The source keeps the caller's array object, so mutating it after `expect` would change both the expectation and the arity check. The model keeps sequence values.
- Exceptions as control flow. They are modelled as the outcome datatypes above.
- Thread safety and the test framework's lifecycle of the mock are not in the source's scope.
