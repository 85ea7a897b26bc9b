// The unit-test harness of extensions/testing: tests register with their
// group, groups register in a linked list whose first node is a static root,
// running a group collects the tests that reported an error, and running
// everything yields the failures and the process exit code. Console output
// is left out; a test's body is modelled as the sequence of PB_EXPECT checks
// it performs.

module Testing {

  /** The values a check compares: bools promote to 0 and 1 when compared with integers. */
  datatype Value = BoolValue(b: bool) | IntValue(i: int) | TextValue(s: string)

  /** The pairs `!=` is defined for; any other pair does not compile. */
  predicate Comparable(lhs: Value, rhs: Value) {
    lhs.TextValue? <==> rhs.TextValue?
  }

  function Promote(v: Value): int
    requires !v.TextValue?
  {
    match v
    case BoolValue(b) => if b then 1 else 0
    case IntValue(i) => i
  }

  /** C++ `lhs != rhs` on the two values. */
  predicate Differs(lhs: Value, rhs: Value)
    requires Comparable(lhs, rhs)
  {
    if lhs.TextValue? then lhs.s != rhs.s else Promote(lhs) != Promote(rhs)
  }

  /** One `PB_EXPECT_EQL(lhs, rhs)` in a test body. */
  datatype Check = ExpectEql(lhs: Value, rhs: Value)

  predicate ValidCheck(check: Check) {
    Comparable(check.lhs, check.rhs)
  }

  /** `PB_EXPECT_TRUE(v)` is `PB_EXPECT_EQL(v, true)`. */
  function ExpectTrue(v: Value): (c: Check)
    ensures c.lhs == v
    ensures c.rhs == BoolValue(true)
  {
    ExpectEql(v, BoolValue(true))
  }

  /** `PB_EXPECT_FALSE(v)` is `PB_EXPECT_EQL(v, false)`. */
  function ExpectFalse(v: Value): (c: Check)
    ensures c.lhs == v
    ensures c.rhs == BoolValue(false)
  {
    ExpectEql(v, BoolValue(false))
  }

  /** `NotEqualError`, the only error the macros push. */
  datatype TestError = NotEqualError

  predicate Fails(check: Check)
    requires ValidCheck(check)
  {
    Differs(check.lhs, check.rhs)
  }

  /** One error per check whose two sides differ, in the order the checks run. */
  function ErrorsOf(checks: seq<Check>): seq<TestError>
    requires forall i :: 0 <= i < |checks| ==> ValidCheck(checks[i])
  {
    if checks == [] then []
    else ErrorsOf(checks[..|checks| - 1]) + (if Fails(checks[|checks| - 1]) then [NotEqualError] else [])
  }

  /** A test body reports an error exactly when one of its checks fails. */
  lemma {:induction false} ErrorsIffSomeCheckFails(checks: seq<Check>)
    requires forall i :: 0 <= i < |checks| ==> ValidCheck(checks[i])
    ensures ErrorsOf(checks) != [] <==> exists i :: 0 <= i < |checks| && Fails(checks[i])
    ensures |ErrorsOf(checks)| <= |checks|
    decreases |checks|
  {
    if checks != [] {
      var init := checks[..|checks| - 1];
      ErrorsIffSomeCheckFails(init);
      if exists i :: 0 <= i < |init| && Fails(init[i]) {
        var i :| 0 <= i < |init| && Fails(init[i]);
        assert Fails(checks[i]);
      }
      if exists i :: 0 <= i < |checks| && Fails(checks[i]) {
        var i :| 0 <= i < |checks| && Fails(checks[i]);
        if i < |init| {
          assert Fails(init[i]);
        }
      }
    }
  }

  /** `PB_EXPECT_TRUE` reports an error iff the value is not true (for an integer: not 1). */
  lemma ExpectTrueSemantics(v: Value)
    requires !v.TextValue?
    ensures ErrorsOf([ExpectTrue(v)]) == (if Promote(v) == 1 then [] else [NotEqualError])
  {
    assert [ExpectTrue(v)][..0] == [];
  }

  /** `PB_EXPECT_FALSE` reports an error iff the value is not false (for an integer: not 0). */
  lemma ExpectFalseSemantics(v: Value)
    requires !v.TextValue?
    ensures ErrorsOf([ExpectFalse(v)]) == (if Promote(v) == 0 then [] else [NotEqualError])
  {
    assert [ExpectFalse(v)][..0] == [];
  }

  class UnitTest {
    /** The group's name and the test's name, as the PB_TEST macro spells them. */
    const group: string
    const name: string
    /** The checks the test's `Dispatch` body performs, in order. */
    const checks: seq<Check>

    predicate Valid() {
      forall i :: 0 <= i < |checks| ==> ValidCheck(checks[i])
    }

    /**
     * The object `PB_TEST(group, name)` declares: constructing it registers it
     * with its group, exactly once.
     */
    constructor (groupName: string, testName: string, body: seq<Check>, testGroup: UnitTestGroup)
      requires forall i :: 0 <= i < |body| ==> ValidCheck(body[i])
      modifies testGroup
      ensures Valid() && group == groupName && name == testName && checks == body
      ensures testGroup.tests == old(testGroup.tests) + [this]
    {
      group, name, checks := groupName, testName, body;
      new;
      testGroup.RegisterTest(this);
    }

    /** `Dispatch(errors)`: runs the checks, pushing one NotEqualError for each that fails. */
    method Dispatch(errors: seq<TestError>) returns (after: seq<TestError>)
      requires Valid()
      ensures after == errors + ErrorsOf(checks)
    {
      after := errors;
      var index := 0;
      while index < |checks|
        invariant 0 <= index <= |checks|
        invariant after == errors + ErrorsOf(checks[..index])
      {
        assert checks[..index + 1][..index] == checks[..index];
        if Differs(checks[index].lhs, checks[index].rhs) {
          after := after + [NotEqualError];
        }
        index := index + 1;
      }
      assert checks[..|checks|] == checks;
    }
  }

  /** A test counts as failed iff its Dispatch pushed at least one error. */
  predicate TestFailed(test: UnitTest)
    requires test.Valid()
  {
    ErrorsOf(test.checks) != []
  }

  predicate AllValid(tests: seq<UnitTest>) {
    forall i :: 0 <= i < |tests| ==> tests[i].Valid()
  }

  /** The failed tests, in their order. */
  function FailedTests(tests: seq<UnitTest>): (failed: seq<UnitTest>)
    requires AllValid(tests)
    ensures |failed| <= |tests|
  {
    if tests == [] then []
    else FailedTests(tests[..|tests| - 1]) + (if TestFailed(tests[|tests| - 1]) then [tests[|tests| - 1]] else [])
  }

  lemma FailedTestsSnoc(tests: seq<UnitTest>, index: nat)
    requires AllValid(tests) && index < |tests|
    ensures AllValid(tests[..index + 1]) && AllValid(tests[..index])
    ensures FailedTests(tests[..index + 1])
      == FailedTests(tests[..index]) + (if TestFailed(tests[index]) then [tests[index]] else [])
  {
    assert tests[..index + 1][..index] == tests[..index];
  }

  /** A test is among the failures iff it is one of the tests and it failed. */
  lemma {:induction false} FailedTestsMembership(tests: seq<UnitTest>, t: UnitTest)
    requires AllValid(tests)
    ensures t in FailedTests(tests) <==> t in tests && TestFailed(t)
    decreases |tests|
  {
    if tests != [] {
      var init := tests[..|tests| - 1];
      FailedTestsMembership(init, t);
      assert tests == init + [tests[|tests| - 1]];
    }
  }

  class UnitTestGroup {
    const name: string
    /** `m_GroupDependencies`: copied from the constructor's argument, in order. */
    const dependencies: seq<UnitTestGroup>
    /** `m_Tests`: the registered tests, in registration order. */
    var tests: seq<UnitTest>

    /**
     * `UnitTestGroup(name, deps)`: copies the dependencies, then links the
     * group in: the first group fills the static root node, every later one
     * gets a new node at the tail of the list.
     */
    constructor (groupName: string, deps: seq<UnitTestGroup>, registry: TestRegistry)
      requires registry.Valid()
      modifies registry, registry.nodes
      ensures name == groupName && dependencies == deps && tests == []
      ensures registry.Valid()
      ensures registry.groups == old(registry.groups) + [this]
    {
      name := groupName;
      var copied: seq<UnitTestGroup> := [];
      var i := 0;
      while i < |deps|
        invariant 0 <= i <= |deps| && copied == deps[..i]
      {
        copied := copied + [deps[i]];
        i := i + 1;
      }
      dependencies := copied;
      tests := [];
      new;
      var group := registry.root;
      var isRoot := group.tests == null;
      ghost var k := 0;
      while group.next != null
        invariant 0 <= k < |registry.nodes| && group == registry.nodes[k]
        invariant registry.Valid() && registry.nodes == old(registry.nodes)
        decreases |registry.nodes| - k
      {
        group := group.next;
        k := k + 1;
      }
      assert k == |registry.nodes| - 1;
      ghost var oldNodes := registry.nodes;
      if !isRoot {
        var node := new GroupNode();
        group.next := node;
        group := node;
        registry.nodes := registry.nodes + [node];
        assert forall i :: 0 <= i < |oldNodes| - 1 ==> registry.nodes[i].next == registry.nodes[i + 1];
      }
      group.next := null;
      group.tests := this;
      registry.groups := registry.groups + [this];
    }

    /** `RegisterTest`: appends the test to `m_Tests` and changes nothing else. */
    method RegisterTest(test: UnitTest)
      modifies this
      ensures tests == old(tests) + [test]
    {
      tests := tests + [test];
    }

    /**
     * `ExecuteBatch(failures)`: dispatches every test in order; the failed
     * ones are appended to `failures` after the entries already there and
     * counted. The group has passed iff none failed.
     */
    method ExecuteBatch(failures: seq<UnitTest>) returns (after: seq<UnitTest>, testsFailed: nat, allPassed: bool)
      requires AllValid(tests)
      ensures after == failures + FailedTests(tests)
      ensures testsFailed == |FailedTests(tests)| && testsFailed <= |tests|
      ensures allPassed <==> FailedTests(tests) == []
    {
      after := failures;
      testsFailed := 0;
      var index := 0;
      while index < |tests|
        invariant 0 <= index <= |tests|
        invariant after == failures + FailedTests(tests[..index])
        invariant testsFailed == |FailedTests(tests[..index])|
      {
        FailedTestsSnoc(tests, index);
        var test := tests[index];
        var errors := test.Dispatch([]);
        if |errors| != 0 {
          after := after + [test];
          testsFailed := testsFailed + 1;
        }
        index := index + 1;
      }
      assert tests[..|tests|] == tests;
      allPassed := testsFailed == 0;
    }
  }

  /** `GroupLinkedListNode`. */
  class GroupNode {
    var next: GroupNode?
    var tests: UnitTestGroup?

    constructor ()
      ensures next == null && tests == null
    {
      next, tests := null, null;
    }
  }

  /**
   * The static root node returned by `GetTestGroups` and the list hanging off
   * it; `nodes` are the list's nodes in order and `groups` the groups they
   * hold. An unused root holds no group.
   */
  class TestRegistry {
    const root: GroupNode
    ghost var nodes: seq<GroupNode>
    ghost var groups: seq<UnitTestGroup>

    ghost predicate Valid()
      reads this, nodes
    {
      && |nodes| >= 1 && nodes[0] == root
      && (forall i :: 0 <= i < |nodes| - 1 ==> nodes[i].next == nodes[i + 1])
      && (forall i :: 0 <= i < |nodes| ==> (nodes[i].next == null <==> i == |nodes| - 1))
      && (forall i, j :: 0 <= i < j < |nodes| ==> nodes[i] != nodes[j])
      && (root.tests == null ==> |nodes| == 1 && groups == [])
      && (root.tests != null ==> |groups| == |nodes| && forall i :: 0 <= i < |nodes| ==> nodes[i].tests == groups[i])
    }

    constructor ()
      ensures Valid() && groups == []
    {
      root := new GroupNode();
      new;
      nodes := [root];
      groups := [];
    }
  }

  function TotalTests(groups: seq<UnitTestGroup>): nat
    reads groups
  {
    if groups == [] then 0 else TotalTests(groups[..|groups| - 1]) + |groups[|groups| - 1].tests|
  }

  predicate GroupsValid(groups: seq<UnitTestGroup>)
    reads groups
  {
    forall i :: 0 <= i < |groups| ==> AllValid(groups[i].tests)
  }

  /** Every group's failures, group after group, each in its tests' order. */
  function AllFailures(groups: seq<UnitTestGroup>): seq<UnitTest>
    reads groups
    requires GroupsValid(groups)
  {
    if groups == [] then []
    else AllFailures(groups[..|groups| - 1]) + FailedTests(groups[|groups| - 1].tests)
  }

  /** A group contributes no failures iff none of its tests failed. */
  lemma NoFailedTestsIffAllPass(tests: seq<UnitTest>)
    requires AllValid(tests)
    ensures FailedTests(tests) == [] <==> forall t :: t in tests ==> !TestFailed(t)
  {
    if FailedTests(tests) != [] {
      FailedTestsMembership(tests, FailedTests(tests)[0]);
    } else {
      forall t | t in tests
        ensures !TestFailed(t)
      {
        FailedTestsMembership(tests, t);
      }
    }
  }

  /** No failures at all iff no test of any group failed. */
  lemma {:induction false} NoFailuresIffAllPass(groups: seq<UnitTestGroup>)
    requires GroupsValid(groups)
    ensures AllFailures(groups) == [] <==>
      forall i, t :: 0 <= i < |groups| && t in groups[i].tests ==> !TestFailed(t)
    decreases |groups|
  {
    if groups != [] {
      var init, last := groups[..|groups| - 1], groups[|groups| - 1];
      assert forall i :: 0 <= i < |init| ==> init[i] == groups[i];
      assert AllFailures(groups) == AllFailures(init) + FailedTests(last.tests);
      NoFailuresIffAllPass(init);
      NoFailedTestsIffAllPass(last.tests);
    }
  }

  const ExitSuccess: int := 0
  const ExitFailure: int := 1

  /**
   * The first walk of `ExecuteAllTests` as written: along the list from the
   * root, adding up each group's test count and counting the groups. With no
   * group registered, the root's group pointer is null and is dereferenced:
   * `crashed` reports that undefined behaviour.
   */
  method CountTests(registry: TestRegistry) returns (crashed: bool, tests: nat, groupCount: nat)
    requires registry.Valid()
    ensures crashed <==> registry.root.tests == null
    ensures !crashed ==> tests == TotalTests(registry.groups) && groupCount == |registry.groups|
  {
    var groups := registry.groups;
    var nodes := registry.nodes;
    var group: GroupNode? := registry.root;
    crashed, groupCount, tests := false, 0, 0;
    assert groups[..0] == [];
    while group != null
      invariant 0 <= groupCount <= |nodes|
      invariant groupCount < |nodes| ==> group == nodes[groupCount]
      invariant groupCount == |nodes| ==> group == null
      invariant registry.root.tests == null ==> groupCount == 0
      invariant registry.root.tests != null ==> tests == TotalTests(groups[..groupCount])
      decreases |nodes| - groupCount
    {
      if group.tests == null {
        crashed := true;
        return;
      }
      assert groups[..groupCount + 1][..groupCount] == groups[..groupCount];
      tests := tests + |group.tests.tests|;
      groupCount := groupCount + 1;
      group := group.next;
    }
    assert groups[..|groups|] == groups;
  }

  /** The second walk: every group's batch in list order, all appending to one failure list. */
  method RunBatches(registry: TestRegistry) returns (failures: seq<UnitTest>)
    requires registry.Valid() && registry.root.tests != null
    requires GroupsValid(registry.groups)
    ensures failures == AllFailures(registry.groups)
  {
    var groups := registry.groups;
    var nodes := registry.nodes;
    var group: GroupNode? := registry.root;
    failures := [];
    ghost var done := 0;
    assert groups[..0] == [];
    while group != null
      invariant 0 <= done <= |nodes|
      invariant done < |nodes| ==> group == nodes[done]
      invariant done == |nodes| ==> group == null
      invariant failures == AllFailures(groups[..done])
      decreases |nodes| - done
    {
      assert groups[..done + 1][..done] == groups[..done];
      var testsFailed, allPassed;
      failures, testsFailed, allPassed := group.tests.ExecuteBatch(failures);
      group := group.next;
      done := done + 1;
    }
    assert groups[..|groups|] == groups;
  }

  /** A test binary without any group: the first walk dereferences the root's null group. */
  method EmptyRegistryCrashes() returns (crashed: bool)
    ensures crashed
  {
    var registry := new TestRegistry();
    var tests, groupCount;
    crashed, tests, groupCount := CountTests(registry);
  }

  /**
   * `ExecuteAllTests`: counts the tests and groups, runs every batch, and
   * exits with 0 iff nothing failed. With no group registered it reports no
   * tests and succeeds, where the program as written crashes (CountTests).
   */
  method ExecuteAllTests(registry: TestRegistry)
    returns (tests: nat, groupCount: nat, failures: seq<UnitTest>, exitCode: int)
    requires registry.Valid()
    requires GroupsValid(registry.groups)
    ensures tests == TotalTests(registry.groups)
    ensures groupCount == |registry.groups|
    ensures failures == AllFailures(registry.groups)
    ensures exitCode == (if failures == [] then ExitSuccess else ExitFailure)
  {
    if registry.root.tests == null {
      return 0, 0, [], ExitSuccess;
    }
    var crashed;
    crashed, tests, groupCount := CountTests(registry);
    failures := RunBatches(registry);
    exitCode := if |failures| == 0 then ExitSuccess else ExitFailure;
  }

  /** Without any group, the corrected run finds no tests and exits with 0. */
  method EmptyRegistryPasses() returns (tests: nat, groupCount: nat, exitCode: int)
    ensures tests == 0 && groupCount == 0 && exitCode == ExitSuccess
  {
    var registry := new TestRegistry();
    var failures;
    tests, groupCount, failures, exitCode := ExecuteAllTests(registry);
  }
}
