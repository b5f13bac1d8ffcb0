/**
 * The unit tests of tests/test_harness_tests.py, replayed against the
 * contracts of `Harness.TestHarness`: each method builds a fresh harness, runs
 * the test's calls and promises the counters the test asserts.
 */
module HarnessTests {
  import opened Wrappers
  import opened Values
  import opened Harness

  /** `lambda x: x + 1` (a wrong argument count or type raises a TypeError). */
  function AddOne(args: seq<Value>): Outcome {
    if |args| != 1 then Raised("TypeError: takes 1 positional argument")
    else match args[0]
      case IntV(x) => Returned(IntV(x + 1))
      case _ => Raised("TypeError: unsupported operand type(s) for +")
  }

  /** A function that raises on every call. */
  function AlwaysRaises(args: seq<Value>): Outcome {
    Raised("ValueError: Test error")
  }

  method SuccessfulTest() returns (result: bool, passed: nat, failed: nat)
    ensures result && passed == 1 && failed == 0
  {
    var harness := new TestHarness();
    var testId;
    result, testId := harness.RunTest(AddOne, ListV([IntV(1)]), IntV(2), StrV("Test add one"));
    passed, failed := harness.passedTests, harness.failedTests;
  }

  method FailedTest() returns (result: bool, passed: nat, failed: nat)
    ensures !result && passed == 0 && failed == 1
  {
    var harness := new TestHarness();
    var testId;
    result, testId := harness.RunTest(AddOne, ListV([IntV(1)]), IntV(3), StrV("Test add one"));
    passed, failed := harness.passedTests, harness.failedTests;
  }

  method ExceptionHandling() returns (result: bool, passed: nat, failed: nat)
    ensures !result && passed == 0 && failed == 1
  {
    var harness := new TestHarness();
    var testId;
    result, testId := harness.RunTest(AlwaysRaises, ListV([IntV(1)]), NoneV, StrV("Test exception"));
    passed, failed := harness.passedTests, harness.failedTests;
  }

  method TestSuite() returns (total: nat, passed: nat, failed: nat)
    ensures total == 3 && passed == 3 && failed == 0
  {
    var harness := new TestHarness();
    var cases := [
      [ListV([IntV(1)]), IntV(2), StrV("Test case 1")],
      [ListV([IntV(2)]), IntV(3), StrV("Test case 2")],
      [ListV([IntV(3)]), IntV(4), StrV("Test case 3")]
    ];
    FoldWellShaped(Counters(0, 0, 0), AddOne, cases);
    assert cases[..2][..1] == cases[..1];
    assert PassCount(AddOne, cases) == 3;
    var _ := harness.RunTestSuite(AddOne, cases);
    total, passed, failed := harness.totalTests, harness.passedTests, harness.failedTests;
  }

  lemma FirstDefaultId()
    ensures TestId(NoneV, 1) == StrV("Test #1")
  {
  }

  /** A test with no name on a fresh harness is labelled "Test #1". */
  method UnnamedTest() returns (id: Value)
    ensures id == StrV("Test #1")
  {
    var harness := new TestHarness();
    var passed;
    passed, id := harness.RunTest(AlwaysRaises, ListV([]), NoneV, NoneV);
    assert harness.totalTests == 1;
    FirstDefaultId();
  }

  /** An empty suite on a fresh harness ends in the division error of the summary line. */
  method EmptySuiteOnFreshHarness() returns (r: Result<real, SuiteError>, total: nat)
    ensures r == Failure(ZeroDivision) && total == 0
  {
    var harness := new TestHarness();
    r := harness.RunTestSuite(AddOne, []);
    total := harness.totalTests;
  }

  /** A four-element case raises out of the suite, after the case before it was counted. */
  method MalformedCaseEscapes() returns (r: Result<real, SuiteError>, total: nat, passed: nat)
    ensures r == Failure(UnpackError(4)) && total == 1 && passed == 1
  {
    var harness := new TestHarness();
    var cases := [
      [ListV([IntV(1)]), IntV(2)],
      [ListV([IntV(1)]), IntV(2), StrV("n"), StrV("extra")],
      [ListV([IntV(2)]), IntV(3)]
    ];
    FoldFirstMalformed(Counters(0, 0, 0), AddOne, cases, 1);
    FoldWellShaped(Counters(0, 0, 0), AddOne, cases[..1]);
    assert cases[..1][..0] == [];
    r := harness.RunTestSuite(AddOne, cases);
    total, passed := harness.totalTests, harness.passedTests;
  }
}
