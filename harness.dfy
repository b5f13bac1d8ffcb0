/**
 * The test harness of src/test_harness.py: a class with three counters that
 * `RunTest` classifies one call into and that `RunTestSuite` folds a list of
 * case tuples through.  The counters' evolution is specified by the pure
 * functions of this module (`Record`, `Fold`), about which the lemmas speak.
 */
module Harness {
  import opened Wrappers
  import opened Values

  /** The function under test, taking its positional arguments. */
  type Fn = seq<Value> -> Outcome

  /** A test-case tuple, given by its elements: (input_args, expected_output[, test_name]). */
  type TestCase = seq<Value>

  datatype Counters = Counters(total: nat, passed: nat, failed: nat)

  /** The invariant the harness keeps: every test counted is either passed or failed. */
  predicate Balanced(c: Counters) {
    c.total == c.passed + c.failed
  }

  /** The errors that escape `run_test_suite`. */
  datatype SuiteError =
    | UnpackError(got: nat)   // ValueError: the case tuple has neither 2 nor 3 elements
    | ZeroDivision            // ZeroDivisionError: the success rate with no test counted

  // ---------------------------------------------------------------- one test

  /**
   * `func(*input_args)`.  The spreading is inside the `try`, so a value that is
   * not iterable raises a TypeError the harness catches; a `str` spreads into
   * its one-character strings.
   */
  function Invoke(f: Fn, inputArgs: Value): (r: Outcome)
    ensures inputArgs.ListV? ==> r == f(inputArgs.items)
    ensures inputArgs.StrV? ==>
              r == f(seq(|inputArgs.s|, k requires 0 <= k < |inputArgs.s| => StrV([inputArgs.s[k]])))
    ensures inputArgs.IntV? || inputArgs.NoneV? ==> r.Raised?
  {
    match inputArgs
    case ListV(xs) => f(xs)
    case StrV(s) =>
      assert Characters(s) == seq(|s|, k requires 0 <= k < |s| => StrV([s[k]]));
      f(Characters(s))
    case _ => Raised("TypeError: argument after * must be an iterable")
  }

  /** Iterating over a `str`: its characters, each a one-character `str`. */
  function Characters(s: string): (r: seq<Value>)
    ensures |r| == |s|
    ensures forall k :: 0 <= k < |s| ==> r[k] == StrV([s[k]])
    decreases |s|
  {
    if s == [] then [] else Characters(s[..|s| - 1]) + [StrV([s[|s| - 1]])]
  }

  /** The test passes iff the call returned a value equal to the expected one. */
  predicate Passes(f: Fn, inputArgs: Value, expected: Value) {
    Invoke(f, inputArgs) == Returned(expected)
  }

  /** The counters after one `run_test` whose classification is `passed`. */
  function Record(c: Counters, passed: bool): (d: Counters) {
    if passed then Counters(c.total + 1, c.passed + 1, c.failed)
    else Counters(c.total + 1, c.passed, c.failed + 1)
  }

  /** `test_name or f"Test #{total}"`. */
  function TestId(testName: Value, total: nat): Value {
    if Truthy(testName) then testName else StrV("Test #" + NatToString(total))
  }

  lemma RecordCountsOnce(c: Counters, passed: bool)
    ensures Record(c, passed).total == c.total + 1
    ensures passed ==> Record(c, passed).passed == c.passed + 1 && Record(c, passed).failed == c.failed
    ensures !passed ==> Record(c, passed).failed == c.failed + 1 && Record(c, passed).passed == c.passed
    ensures Balanced(c) ==> Balanced(Record(c, passed))
  {
  }

  /** An int or None as `input_args` fails the test for every function and every expected value. */
  lemma NonIterableArgsFail(f: Fn, i: int, expected: Value)
    ensures !Passes(f, IntV(i), expected)
    ensures !Passes(f, NoneV, expected)
  {
  }

  /** Named tests keep their name; unnamed tests get distinct sequential ids. */
  lemma TestIdProperties(testName: Value, total: nat, other: nat)
    ensures Truthy(testName) ==> TestId(testName, total) == testName
    ensures !Truthy(testName) ==>
              && TestId(testName, total).StrV?
              && TestId(testName, total).s[..6] == "Test #"
              && ParseNat(TestId(testName, total).s[6..]) == total
    ensures !Truthy(testName) && total != other ==> TestId(testName, total) != TestId(testName, other)
  {
    if !Truthy(testName) {
      ParseNatToString(total);
      assert ("Test #" + NatToString(total))[6..] == NatToString(total);
    }
    if !Truthy(testName) && total != other {
      var a, b := NatToString(total), NatToString(other);
      if a == b {
        ParseNatToString(total);
        ParseNatToString(other);
        assert false;
      }
      assert ("Test #" + a)[6..] == a;
      assert ("Test #" + b)[6..] == b;
    }
  }

  // ---------------------------------------------------------- decimal digits

  function DigitChar(d: nat): (ch: char)
    requires d < 10
    ensures '0' <= ch <= '9'
  {
    ('0' as int + d) as char
  }

  function DigitValue(ch: char): nat {
    if '0' <= ch <= '9' then ch as int - '0' as int else 0
  }

  /** `str(n)` for a non-negative int: its decimal digits, no leading zero. */
  function NatToString(n: nat): (s: string)
    ensures |s| >= 1
    ensures forall k :: 0 <= k < |s| ==> '0' <= s[k] <= '9'
    ensures |s| > 1 ==> s[0] != '0'
    decreases n
  {
    if n < 10 then [DigitChar(n)] else NatToString(n / 10) + [DigitChar(n % 10)]
  }

  /** The value of a string of decimal digits, read left to right. */
  function ParseNat(s: string): nat {
    if s == [] then 0 else ParseNat(s[..|s| - 1]) * 10 + DigitValue(s[|s| - 1])
  }

  lemma {:induction false} ParseNatToString(n: nat)
    ensures ParseNat(NatToString(n)) == n
    decreases n
  {
    var s := NatToString(n);
    if n >= 10 {
      ParseNatToString(n / 10);
      assert s[..|s| - 1] == NatToString(n / 10);
    }
  }

  // -------------------------------------------------------------- the suite

  datatype Unpacked = Unpacked(inputArgs: Value, expected: Value, testName: Value)

  /** The tuple unpacking of lines 73-77: three elements, else exactly two. */
  function Unpack(tc: TestCase): (r: Result<Unpacked, SuiteError>)
    ensures r.Success? <==> WellShaped(tc)
    ensures r.Success? ==>
              tc == [r.value.inputArgs, r.value.expected] + (if |tc| == 3 then [r.value.testName] else [])
    ensures r.Success? && |tc| == 2 ==> r.value.testName == NoneV
    ensures r.Failure? ==> r.error == UnpackError(|tc|)
  {
    if |tc| == 3 then Success(Unpacked(tc[0], tc[1], tc[2]))
    else if |tc| == 2 then Success(Unpacked(tc[0], tc[1], NoneV))
    else Failure(UnpackError(|tc|))
  }

  predicate WellShaped(tc: TestCase) {
    |tc| == 2 || |tc| == 3
  }

  /** How far a suite got: the counters, and the error that escaped, if one did. */
  datatype Progress = Progress(counters: Counters, failure: Option<SuiteError>)

  /** One iteration of the loop of lines 72-78, unless an earlier case already raised. */
  function Step(p: Progress, f: Fn, tc: TestCase): Progress {
    if p.failure.Some? then p
    else match Unpack(tc)
      case Failure(e) => Progress(p.counters, Some(e))
      case Success(u) => Progress(Record(p.counters, Passes(f, u.inputArgs, u.expected)), None)
  }

  /**
   * The cases of a suite run in order from counters `c`: the fold stops at the
   * first case that cannot be unpacked, with the counters as they were then.
   */
  function Fold(c: Counters, f: Fn, cases: seq<TestCase>): Progress
    decreases |cases|
  {
    if cases == [] then Progress(c, None)
    else Step(Fold(c, f, cases[..|cases| - 1]), f, cases[|cases| - 1])
  }

  /** The number of cases of a suite whose call returns the expected value. */
  function PassCount(f: Fn, cases: seq<TestCase>): (n: nat)
    ensures n <= |cases|
    decreases |cases|
  {
    if cases == [] then 0
    else
      var last := cases[|cases| - 1];
      PassCount(f, cases[..|cases| - 1])
      + if WellShaped(last) && Passes(f, last[0], last[1]) then 1 else 0
  }

  /** `(passed_tests / total_tests) * 100`, as an exact rational. */
  function SuccessRate(c: Counters): (r: Result<real, SuiteError>)
    ensures r.Failure? <==> c.total == 0
    ensures r.Failure? ==> r.error == ZeroDivision
    ensures r.Success? ==> r.value * c.total as real == c.passed as real * 100.0
  {
    if c.total == 0 then Failure(ZeroDivision)
    else Success(c.passed as real / c.total as real * 100.0)
  }

  /** What `run_test_suite` ends with: the escaping error, or the success rate it reports. */
  function SuiteOutcome(c: Counters, f: Fn, cases: seq<TestCase>): Result<real, SuiteError> {
    var p := Fold(c, f, cases);
    if p.failure.Some? then Failure(p.failure.value) else SuccessRate(p.counters)
  }

  lemma FoldSnoc(c: Counters, f: Fn, cases: seq<TestCase>, tc: TestCase)
    ensures Fold(c, f, cases + [tc]) == Step(Fold(c, f, cases), f, tc)
  {
  }

  /** Once a case fails to unpack, nothing after it runs. */
  lemma {:induction false} FoldStuck(c: Counters, f: Fn, done: seq<TestCase>, rest: seq<TestCase>)
    requires Fold(c, f, done).failure.Some?
    ensures Fold(c, f, done + rest) == Fold(c, f, done)
    decreases |rest|
  {
    if rest == [] {
      assert done + rest == done;
    } else {
      var init := rest[..|rest| - 1];
      FoldStuck(c, f, done, init);
      assert done + rest == (done + init) + [rest[|rest| - 1]];
      FoldSnoc(c, f, done + init, rest[|rest| - 1]);
    }
  }

  /** A case that fails to unpack, reached with no earlier error, decides how the whole suite ends. */
  lemma FoldStopsAt(c: Counters, f: Fn, cases: seq<TestCase>, i: nat)
    requires i < |cases| && !WellShaped(cases[i])
    requires Fold(c, f, cases[..i]).failure == None
    ensures Fold(c, f, cases) == Progress(Fold(c, f, cases[..i]).counters, Some(UnpackError(|cases[i]|)))
  {
    var upTo := cases[..i + 1];
    assert upTo == cases[..i] + [cases[i]];
    FoldSnoc(c, f, cases[..i], cases[i]);
    FoldStuck(c, f, upTo, cases[i + 1..]);
    assert upTo + cases[i + 1..] == cases;
  }

  /**
   * Running two suites one after the other on one harness adds up as one
   * suite: the counters are carried over, never reset.
   */
  lemma {:induction false} FoldAppend(c: Counters, f: Fn, first: seq<TestCase>, second: seq<TestCase>)
    requires Fold(c, f, first).failure == None
    ensures Fold(c, f, first + second) == Fold(Fold(c, f, first).counters, f, second)
    decreases |second|
  {
    if second == [] {
      assert first + second == first;
    } else {
      var init := second[..|second| - 1];
      var last := second[|second| - 1];
      FoldAppend(c, f, first, init);
      assert first + second == (first + init) + [last];
      assert second == init + [last];
      FoldSnoc(c, f, first + init, last);
      FoldSnoc(Fold(c, f, first).counters, f, init, last);
    }
  }

  /** The invariant `total == passed + failed` survives any suite, even one cut short. */
  lemma {:induction false} FoldBalanced(c: Counters, f: Fn, cases: seq<TestCase>)
    requires Balanced(c)
    ensures Balanced(Fold(c, f, cases).counters)
    decreases |cases|
  {
    if cases != [] {
      FoldBalanced(c, f, cases[..|cases| - 1]);
    }
  }

  /**
   * A suite of N well-shaped cases runs to the end and counts exactly N more
   * tests: one more pass per case whose call returns the expected value, one
   * more fail per other case.
   */
  lemma {:induction false} FoldWellShaped(c: Counters, f: Fn, cases: seq<TestCase>)
    requires forall k :: 0 <= k < |cases| ==> WellShaped(cases[k])
    ensures Fold(c, f, cases) == Progress(
      Counters(c.total + |cases|, c.passed + PassCount(f, cases), c.failed + (|cases| - PassCount(f, cases))),
      None)
    decreases |cases|
  {
    if cases != [] {
      FoldWellShaped(c, f, cases[..|cases| - 1]);
    }
  }

  /**
   * The first case that is neither a pair nor a triple stops the suite with a
   * ValueError, after the cases before it have all been counted.
   */
  lemma FoldFirstMalformed(c: Counters, f: Fn, cases: seq<TestCase>, k: nat)
    requires k < |cases| && !WellShaped(cases[k])
    requires forall j :: 0 <= j < k ==> WellShaped(cases[j])
    ensures Fold(c, f, cases) == Progress(Fold(c, f, cases[..k]).counters, Some(UnpackError(|cases[k]|)))
    ensures Fold(c, f, cases).counters.total == c.total + k
  {
    var done := cases[..k];
    assert forall j :: 0 <= j < |done| ==> WellShaped(done[j]);
    FoldWellShaped(c, f, done);
    FoldStopsAt(c, f, cases, k);
  }

  /** The success rate is a percentage: it lies in [0, 100], and is 100 exactly when nothing failed. */
  lemma SuccessRateBounds(c: Counters)
    requires Balanced(c) && c.total > 0
    ensures SuccessRate(c).Success?
    ensures 0.0 <= SuccessRate(c).value <= 100.0
    ensures SuccessRate(c).value == 100.0 <==> c.failed == 0
  {
  }

  // -------------------------------------------------------------- the class

  class TestHarness {
    var totalTests: nat
    var passedTests: nat
    var failedTests: nat

    function Counts(): Counters
      reads this
    {
      Counters(totalTests, passedTests, failedTests)
    }

    /** A harness starts with all three counters at zero. */
    constructor ()
      ensures totalTests == 0 && passedTests == 0 && failedTests == 0
    {
      totalTests, passedTests, failedTests := 0, 0, 0;
    }

    /**
     * Runs one test: counts it, calls the function, and classifies the outcome
     * as passed (it returned the expected value) or failed (another value, or
     * an exception, which is caught).  The test id is printed by the source;
     * here it is returned.
     */
    method RunTest(f: Fn, inputArgs: Value, expected: Value, testName: Value) returns (passed: bool, testId: Value)
      modifies this
      ensures passed <==> Invoke(f, inputArgs) == Returned(expected)
      ensures Counts() == Record(old(Counts()), passed)
      ensures totalTests == old(totalTests) + 1
      ensures passed ==> passedTests == old(passedTests) + 1 && failedTests == old(failedTests)
      ensures !passed ==> failedTests == old(failedTests) + 1 && passedTests == old(passedTests)
      ensures old(Balanced(Counts())) ==> Balanced(Counts())
      ensures testId == TestId(testName, totalTests)
    {
      totalTests := totalTests + 1;
      testId := TestId(testName, totalTests);
      var actual := Invoke(f, inputArgs);
      match actual
      case Returned(v) =>
        if v == expected {
          passedTests := passedTests + 1;
          passed := true;
        } else {
          failedTests := failedTests + 1;
          passed := false;
        }
      case Raised(_) =>
        failedTests := failedTests + 1;
        passed := false;
    }

    /**
     * Runs the cases in order.  A case that is neither a pair nor a triple
     * stops the suite with the unpacking error; otherwise the result is the
     * cumulative success rate, or the division error when no test was ever
     * counted.
     */
    method RunTestSuite(f: Fn, testCases: seq<TestCase>) returns (r: Result<real, SuiteError>)
      modifies this
      ensures Counts() == Fold(old(Counts()), f, testCases).counters
      ensures r == SuiteOutcome(old(Counts()), f, testCases)
    {
      var i := 0;
      while i < |testCases|
        invariant 0 <= i <= |testCases|
        invariant Fold(old(Counts()), f, testCases[..i]) == Progress(Counts(), None)
      {
        var testCase := testCases[i];
        var inputArgs, expected, testName;
        if |testCase| == 3 {
          inputArgs, expected, testName := testCase[0], testCase[1], testCase[2];
        } else if |testCase| == 2 {
          inputArgs, expected := testCase[0], testCase[1];
          testName := NoneV;
        } else {
          FoldStopsAt(old(Counts()), f, testCases, i);
          r := Failure(UnpackError(|testCase|));
          return;
        }
        FoldSnoc(old(Counts()), f, testCases[..i], testCase);
        assert testCases[..i + 1] == testCases[..i] + [testCase];
        var _, _ := RunTest(f, inputArgs, expected, testName);
        i := i + 1;
      }
      assert testCases[..i] == testCases;
      r := SuccessRate(Counts());
    }
  }
}
