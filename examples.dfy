/**
 * The pure functions of src/examples.py that the harness is demonstrated on.
 * Python ints are unbounded, as Dafny's are, so nothing here wraps around.
 */
module Examples {

  /** `add_numbers(a, b)`: `a + b`. */
  function AddNumbers(a: int, b: int): int {
    a + b
  }

  /** The cases examples.py runs `add_numbers` on, each with its expected value. */
  lemma AddNumbersListedCases()
    ensures AddNumbers(1, 2) == 3
    ensures AddNumbers(0, 0) == 0
    ensures AddNumbers(-1, 1) == 0
    ensures AddNumbers(999, 1) == 1000
  {
  }

  /** `calculate_grade(mark)`: the letter of the highest band whose threshold the mark reaches. */
  function CalculateGrade(mark: int): (g: string)
    ensures g in {"A", "B", "C", "F"}
    ensures g == "A" <==> mark >= 70
  {
    if mark >= 70 then "A"
    else if mark >= 60 then "B"
    else if mark >= 50 then "C"
    else "F"
  }

  /** The order of the grades, F lowest and A highest. */
  function GradeRank(g: string): nat {
    if g == "A" then 3
    else if g == "B" then 2
    else if g == "C" then 1
    else 0
  }

  lemma GradeBands(mark: int)
    ensures CalculateGrade(mark) == "B" <==> 60 <= mark < 70
    ensures CalculateGrade(mark) == "C" <==> 50 <= mark < 60
    ensures CalculateGrade(mark) == "F" <==> mark < 50
  {
  }

  /** A higher mark never gets a lower grade. */
  lemma GradeMonotone(lower: int, higher: int)
    requires lower <= higher
    ensures GradeRank(CalculateGrade(lower)) <= GradeRank(CalculateGrade(higher))
  {
  }

  lemma GradeListedCases()
    ensures CalculateGrade(75) == "A"
    ensures CalculateGrade(65) == "B"
    ensures CalculateGrade(55) == "C"
    ensures CalculateGrade(45) == "F"
  {
  }

  /** `char in 'aeiouAEIOU'`. */
  predicate IsVowel(ch: char) {
    ch in "aeiouAEIOU"
  }

  /** `count_vowels(text)`: one for each character of `text` that is a vowel of either case. */
  function CountVowels(text: string): (n: nat)
    ensures n <= |text|
    decreases |text|
  {
    if text == [] then 0
    else CountVowels(text[..|text| - 1]) + if IsVowel(text[|text| - 1]) then 1 else 0
  }

  lemma {:induction false} CountVowelsAppend(s: string, t: string)
    ensures CountVowels(s + t) == CountVowels(s) + CountVowels(t)
    decreases |t|
  {
    if t == [] {
      assert s + t == s;
    } else {
      var init := t[..|t| - 1];
      CountVowelsAppend(s, init);
      assert (s + t)[..|s + t| - 1] == s + init;
    }
  }

  /** The count is zero exactly when no character is a vowel. */
  lemma {:induction false} CountVowelsZero(text: string)
    ensures CountVowels(text) == 0 <==> forall k :: 0 <= k < |text| ==> !IsVowel(text[k])
    decreases |text|
  {
    if text != [] {
      var init := text[..|text| - 1];
      CountVowelsZero(init);
      assert forall k :: 0 <= k < |init| ==> init[k] == text[k];
    }
  }

  /** The count is the length exactly when every character is a vowel. */
  lemma {:induction false} CountVowelsFull(text: string)
    ensures CountVowels(text) == |text| <==> forall k :: 0 <= k < |text| ==> IsVowel(text[k])
    decreases |text|
  {
    if text != [] {
      var init := text[..|text| - 1];
      CountVowelsFull(init);
      assert forall k :: 0 <= k < |init| ==> init[k] == text[k];
    }
  }

  /** ASCII lower-casing of one character. */
  function LowerAscii(ch: char): char {
    if 'A' <= ch <= 'Z' then (ch as int - 'A' as int + 'a' as int) as char else ch
  }

  function LowerAsciiString(text: string): (r: string)
    ensures |r| == |text|
    decreases |text|
  {
    if text == [] then [] else LowerAsciiString(text[..|text| - 1]) + [LowerAscii(text[|text| - 1])]
  }

  /** Upper- and lower-case vowels count alike: lower-casing the text keeps the count. */
  lemma {:induction false} CountVowelsIgnoresCase(text: string)
    ensures CountVowels(LowerAsciiString(text)) == CountVowels(text)
    decreases |text|
  {
    if text != [] {
      var init := text[..|text| - 1];
      var ch := text[|text| - 1];
      CountVowelsIgnoresCase(init);
      var low := LowerAsciiString(text);
      assert low[..|low| - 1] == LowerAsciiString(init);
      assert IsVowel(LowerAscii(ch)) == IsVowel(ch);
    }
  }

  lemma CountVowelsListedCases()
    ensures CountVowels("hello") == 2
    ensures CountVowels("AEIOU") == 5
    ensures CountVowels("BCDFG") == 0
    ensures CountVowels("") == 0
  {
    assert "hello"[..4] == "hell" && "hell"[..3] == "hel" && "hel"[..2] == "he" && "he"[..1] == "h";
    assert CountVowels("h") == 0;
    CountVowelsFull("AEIOU");
    CountVowelsZero("BCDFG");
  }
}
