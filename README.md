# Python test harness, modelled in Dafny

A model of `python-test-harness`, a small teaching tool that runs a function
under test on a list of cases and tallies how many passed.

- `src/test_harness.py` defines the class `TestHarness`. It holds three counters:
  `total_tests`, `passed_tests` and `failed_tests`.
  - `run_test` calls the function and counts the test.
  - The test passes when the call returns a value equal to the expected one.
  - Any other returned value fails the test. So does a raised exception that
    subclasses `Exception`, which is caught.
  - `run_test_suite` unpacks each case tuple in order and hands it to `run_test`.
    It then reports the cumulative success rate.
- `src/examples.py` defines the functions the harness is shown on:
  `add_numbers`, `calculate_grade` and `count_vowels`.

Files:

- `values.dfy` (module `Values`): the Python values the harness handles.
  - `Value` has four variants: `int`, `str`, `None` and `list`.
  - Equality is structural, which stands in for Python's `==`.
  - `Outcome` is what a call does: it returns a value or raises.
  - `Truthy` is Python truthiness.
- `wrappers.dfy` (module `Wrappers`): `Option` and `Result`.
- `harness.dfy` (module `Harness`):
  - the class `TestHarness`, whose methods update its three counter fields;
  - the pure functions that specify it: `Record` for one test, and
    `Step`/`Fold` for a suite, folding from the left in list order;
  - the lemmas about those functions.
- `examples.dfy` (module `Examples`): the three example functions and their properties.
- `harness_tests.dfy` (module `HarnessTests`): the unit tests of `tests/test_harness_tests.py`
  and three edge cases of the harness. Each is a method whose contract promises
  the counters the test asserts.

The function under test is a Dafny function `seq<Value> -> Outcome` that takes
the positional arguments.

- `func(*input_args)` is `Invoke`. The spreading happens inside the `try`.
  - A non-iterable `input_args` raises a `TypeError`. The harness catches it
    and counts a failure.
  - A `str` spreads into its one-character strings.
- The test id is computed on line 29 and only printed. `RunTest` returns it so
  that its contract can state it.
- `run_test_suite` returns `None` in Python. `RunTestSuite` returns one of:
  - the success rate it prints, as an exact rational;
  - the exception that escapes it. That is the `ValueError` of a case with neither
    2 nor 3 elements, or the `ZeroDivisionError` of the summary line when no test
    was ever counted.

## Model

| member | source | states |
|---|---|---|
| `Harness.TestHarness.constructor` | src/test_harness.py:6-9 | a new harness has all three counters at zero |
| `Harness.TestHarness.RunTest` | src/test_harness.py:28-56 | `total_tests` grows by exactly 1 whatever the outcome. The result is true iff the call returned a value equal to the expected one. Exactly one of passed/failed grows by 1 and the other is unchanged; a raised exception is a failure. `total == passed + failed` is preserved. The test id is the name if truthy, else `"Test #"` followed by the incremented total |
| `Harness.TestHarness.RunTestSuite` | src/test_harness.py:72-84 | the counters end as the in-order fold of the cases (`Fold`) from their old values. The result is the unpacking error of the first malformed case. Otherwise it is the cumulative success rate, or the division error when the total is 0 |
| `Harness.RecordCountsOnce` | src/test_harness.py:28-56 | one recorded test adds 1 to the total and 1 to exactly one of passed/failed. It keeps `total == passed + failed` |
| `Harness.Invoke` | src/test_harness.py:32 | `func(*input_args)`. A list passes its items. A `str` of length n passes the n one-character strings `s[k]`, in order. An int or None raises |
| `Harness.NonIterableArgsFail` | src/test_harness.py:32-56 | an int or None as `input_args` fails the test, for every function and every expected value |
| `Harness.Unpack` | src/test_harness.py:73-77 | a case unpacks iff it has 2 or 3 elements. Read back in order, the unpacked fields (the name only for a triple) are the case itself, so nothing is lost or reordered. A pair gets the name None. Any other length gives the unpacking error for that length. The effect on a whole suite is in `FoldWellShaped`, `FoldStopsAt` and `FoldFirstMalformed` |
| `Harness.FoldStopsAt` | src/test_harness.py:72-78 | a case that fails to unpack, reached with no earlier error, ends the suite with that error. The counters are those of the cases before it |
| `Harness.SuccessRate` | src/test_harness.py:84 | the rate is undefined (the division error) iff the total is 0. Otherwise the rate times the total is 100 times the passed count |
| `Harness.TestIdProperties` | src/test_harness.py:29 | a truthy name is the id. A falsy name (None, empty string) gets an id that is `"Test #"` followed by digits that read back as the count. Different counts give different ids |
| `Harness.NatToString` | src/test_harness.py:29 | `str(n)` is a non-empty string of decimal digits with no leading zero |
| `Harness.ParseNatToString` | src/test_harness.py:29 | reading the digits of `str(n)` back gives `n`, so the rendering loses nothing |
| `Harness.Characters` | src/test_harness.py:32 | spreading a `str` passes one one-character string per character, in order |
| `Harness.PassCount` | src/test_harness.py:34-35 | the number of passing cases is at most the number of cases |
| `Harness.FoldStuck` | src/test_harness.py:72-77 | once a case fails to unpack, the later cases do not run and the counters stay as they were |
| `Harness.FoldAppend` | src/test_harness.py:72-78 | two suites run one after the other on one harness count as one concatenated suite. Counters accumulate and are never reset |
| `Harness.FoldBalanced` | src/test_harness.py:72-78 | `total == passed + failed` survives any suite, even one cut short by an error |
| `Harness.FoldWellShaped` | src/test_harness.py:72-78 | a suite of N cases of 2 or 3 elements runs to the end. It adds exactly N to the total, the number of passing cases to passed, and the rest to failed |
| `Harness.FoldFirstMalformed` | src/test_harness.py:73-77 | the first case with neither 2 nor 3 elements stops the suite with the unpacking error for its length, after exactly the cases before it were counted |
| `Harness.SuccessRateBounds` | src/test_harness.py:84 | with a non-zero total the success rate is defined and lies in [0, 100]. It is 100 exactly when nothing failed |
| `Examples.AddNumbersListedCases` | src/examples.py:3-5 | `add_numbers` gives the values listed for it: (1,2)→3, (0,0)→0, (-1,1)→0, (999,1)→1000 |
| `Examples.CalculateGrade` | src/examples.py:7-16 | the grade is one of `A`, `B`, `C`, `F`, and it is `A` iff the mark is at least 70 |
| `Examples.GradeBands` | src/examples.py:11-16 | `B` iff 60 ≤ mark < 70, `C` iff 50 ≤ mark < 60, `F` iff mark < 50 |
| `Examples.GradeMonotone` | src/examples.py:9-16 | a higher mark never gets a lower grade |
| `Examples.GradeListedCases` | src/examples.py:44-47 | 75→A, 65→B, 55→C, 45→F |
| `Examples.CountVowels` | src/examples.py:22-25 | the count is between 0 and the length of the text |
| `Examples.CountVowelsAppend` | src/examples.py:25 | the count is additive: the count of `s + t` is the count of `s` plus the count of `t` |
| `Examples.CountVowelsZero` | src/examples.py:24-25 | the count is 0 iff no character is one of `aeiouAEIOU` |
| `Examples.CountVowelsFull` | src/examples.py:24-25 | the count equals the length iff every character is a vowel |
| `Examples.CountVowelsIgnoresCase` | src/examples.py:24 | upper- and lower-case vowels count alike: ASCII lower-casing the text keeps the count |
| `Examples.CountVowelsListedCases` | src/examples.py:63-66 | "hello"→2, "AEIOU"→5, "BCDFG"→0, ""→0 |
| `HarnessTests.SuccessfulTest` | tests/test_harness_tests.py:15-22 | `x + 1` on 1 expecting 2 passes, with passed 1 and failed 0 |
| `HarnessTests.FailedTest` | tests/test_harness_tests.py:24-31 | `x + 1` on 1 expecting 3 fails, with passed 0 and failed 1 |
| `HarnessTests.ExceptionHandling` | tests/test_harness_tests.py:33-40 | a raising function fails the test and does not propagate, with passed 0 and failed 1 |
| `HarnessTests.TestSuite` | tests/test_harness_tests.py:42-55 | a suite of three passing cases gives total 3, passed 3, failed 0 |
| `HarnessTests.UnnamedTest` | src/test_harness.py:28-29 | an unnamed first test on a fresh harness is labelled `"Test #1"` |
| `HarnessTests.EmptySuiteOnFreshHarness` | src/test_harness.py:84 | an empty suite on a fresh harness ends in the division error and counts nothing |
| `HarnessTests.MalformedCaseEscapes` | src/test_harness.py:73-77 | a four-element case raises out of the suite. The case before it is counted and the case after it is not |

## Left out

- Harness.TestHarness.RunTest: the prints inside the `try` (lines 36-39 and
  43-46) are assumed never to raise. In the source, a print that raises after
  `passed_tests += 1` is caught: the test is then counted as failed as well, and
  the print in the `except` block can raise again and escape `run_test`. An
  example is the int-to-str digit limit of CPython 3.11+, or a "✓" on a stdout
  that is not UTF-8. The model promises exactly one of passed/failed grows.
- Harness.TestHarness.RunTestSuite: the model assumes the function under test
  has a `__name__`, which the banner reads on line 70 before any case runs. A
  callable without one, such as a `functools.partial` or an object with
  `__call__`, raises `AttributeError` there. That error escapes
  `run_test_suite` before any case runs or any counter moves.
- Harness.TestHarness.RunTest: `Raised` stands only for exceptions that subclass
  `Exception`, which line 49 catches. A `SystemExit` or `KeyboardInterrupt` from
  the function under test escapes `run_test` after the total was incremented,
  so `total == passed + failed` no longer holds. The model does not capture that.

- All console output is left out: the pass/fail lines, the inputs and values
  printed, `str(e)` and the traceback, the banner and the summary lines.
- The timestamp (`datetime.now()`) and the function's `__name__` in the banner
  are left out. They are a clock and reflection.
- The success rate is the exact rational `passed / total * 100`. Its `:.2f`
  float rendering is left out.
- `celsius_to_fahrenheit` is floating-point arithmetic and is not modelled.
- The `__main__` block of `src/examples.py` and all of `src/demo.py` only call
  the harness and are not modelled. `demo.py` passes constructor arguments that
  `TestHarness.__init__` does not accept.
- Python's dynamic equality across arbitrary types is not modelled. Equality
  is structural on `Value`, so `bool`/`int`/`float` cross-type equality such as
  `1 == True` is not captured.
- Case elements, arguments and names are `Value`s: int, str, None and list.
  Tuples, dicts and other iterables as `input_args` are not modelled.
- A `test_case` that has no `len()` is not modelled. A case here is always a
  sequence of elements.
- Exceptions that a comparison `==` could itself raise are not modelled. On
  `Value` it cannot raise.
- The function under test is a total Dafny function. A function that does not
  terminate, which would hang the harness, is not modelled.
- `Examples.AddNumbers` has no contract of its own. It is the expression
  `a + b` on unbounded integers, as Python's are. Its row is the lemma on the
  listed cases.
- `Examples.CountVowelsIgnoresCase` is stated for ASCII lower-casing, which
  is its correct form. Python's Unicode `str.lower` would break it: `'İ'.lower()`
  is `'i'` followed by U+0307, which raises the count from 0 to 1.
