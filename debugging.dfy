/**
 * The helpers of 48_debugging.py that compute something: the running
 * total, the asserting age check and the "common bugs" examples with their
 * fixes. The debug printing is left out.
 */
module Debugging {
  import opened PyCore
  import Recursion
  import TypeHints
  import ExceptionTypes

  /** calculate_total(items): the running total over the items is their sum. */
  method CalculateTotal(items: seq<int>) returns (total: int)
    ensures total == Recursion.SumList(items)
  {
    total := 0;
    var i := 0;
    while i < |items|
      invariant 0 <= i <= |items|
      invariant total == Recursion.SumList(items[..i])
    {
      assert items[..i + 1] == items[..i] + [items[i]];
      Recursion.SumListSnoc(items[..i], items[i]);
      total := total + items[i];
      i := i + 1;
    }
    assert items[..i] == items;
  }

  /** The demo: calculate_total([1, 2, 3, 4, 5]) is 15. */
  method CalculateTotalDemo() returns (result: int)
    ensures result == 15
  {
    Recursion.SumListExample();
    result := CalculateTotal([1, 2, 3, 4, 5]);
  }

  /**
   * process_age(age): an AssertionError unless 0 <= age < 150, then the age
   * itself. The upper bound is strict.
   */
  function ProcessAge(age: int): (r: Result<int>)
    ensures r.Ok? <==> 0 <= age < 150
    ensures r.Ok? ==> r.value == age
    ensures r.Err? ==> r.error.kind == AssertionError
  {
    if age < 0 then Err(PyError(AssertionError, "Age must be non-negative, got " + IntToString(age)))
    else if age >= 150 then Err(PyError(AssertionError, "Age seems unrealistic: " + IntToString(age)))
    else Ok(age)
  }

  /** Every age process_age accepts validate_age accepts too, but 150 only the latter. */
  lemma ProcessAgeStricter(age: int)
    ensures ProcessAge(age).Ok? ==> ExceptionTypes.ValidateAge(PyInt(age)).Ok?
    ensures ProcessAge(age).Ok? <==> ExceptionTypes.ValidateAge(PyInt(age)).Ok? && age != 150
  {
  }

  /**
   * `sum(...)` over a generator whose items may raise: the total of the
   * values, or the first error, which ends the iteration.
   */
  function SumResults(rs: seq<Result<int>>): Result<int>
  {
    if rs == [] then Ok(0)
    else
      match rs[0]
      case Err(e) => Err(e)
      case Ok(v) =>
        match SumResults(rs[1..])
        case Err(e) => Err(e)
        case Ok(rest) => Ok(v + rest)
  }

  /** The sum fails exactly when some item does, and then with the first item's error. */
  lemma {:induction false} SumResultsFails(rs: seq<Result<int>>)
    ensures SumResults(rs).Err? <==> exists k :: 0 <= k < |rs| && rs[k].Err?
    ensures SumResults(rs).Err? ==>
              exists k :: 0 <= k < |rs| && rs[k].Err? && SumResults(rs).error == rs[k].error && (forall j :: 0 <= j < k ==> rs[j].Ok?)
  {
    if rs != [] {
      SumResultsFails(rs[1..]);
      if rs[0].Ok? && SumResults(rs[1..]).Err? {
        var k :| 0 <= k < |rs[1..]| && rs[1..][k].Err? && SumResults(rs[1..]).error == rs[1..][k].error
                 && forall j :: 0 <= j < k ==> rs[1..][j].Ok?;
        assert rs[k + 1] == rs[1..][k];
        assert forall j :: 1 <= j < k + 1 ==> rs[j] == rs[1..][j - 1];
      }
      if rs[0].Ok? && SumResults(rs[1..]).Ok? {
        forall k | 0 <= k < |rs|
          ensures rs[k].Ok?
        {
          if k > 0 {
            assert rs[k] == rs[1..][k - 1];
          }
        }
      }
    }
  }

  /** Without errors the sum is the sum of the values. */
  lemma {:induction false} SumResultsValues(xs: seq<int>)
    ensures SumResults(seq(|xs|, i requires 0 <= i < |xs| => Ok(xs[i]))) == Ok(Recursion.SumList(xs))
  {
    if xs != [] {
      var rs := seq(|xs|, i requires 0 <= i < |xs| => Ok(xs[i]));
      assert rs[1..] == seq(|xs[1..]|, i requires 0 <= i < |xs[1..]| => Ok(xs[1..][i]));
      SumResultsValues(xs[1..]);
    }
  }

  /** `sum(int(item) for item in items)`. */
  function SumOfInts(items: seq<string>): Result<int>
  {
    SumResults(seq(|items|, i requires 0 <= i < |items| => ParseInt(items[i])))
  }

  /** Summing the decimal strings of numbers gives the sum of the numbers. */
  lemma SumOfIntsDecimal(xs: seq<int>)
    ensures SumOfInts(seq(|xs|, i requires 0 <= i < |xs| => IntToString(xs[i]))) == Ok(Recursion.SumList(xs))
  {
    var items := seq(|xs|, i requires 0 <= i < |xs| => IntToString(xs[i]));
    forall i | 0 <= i < |xs|
      ensures ParseInt(items[i]) == Ok(xs[i])
    {
      ParseIntToString(xs[i]);
    }
    assert seq(|items|, i requires 0 <= i < |items| => ParseInt(items[i]))
        == seq(|xs|, i requires 0 <= i < |xs| => Ok(xs[i]));
    SumResultsValues(xs);
  }

  /** The sum of the strings fails exactly when int() refuses one of them, with a ValueError. */
  lemma SumOfIntsFails(items: seq<string>)
    ensures SumOfInts(items).Err? <==> exists k :: 0 <= k < |items| && ParseInt(items[k]).Err?
    ensures SumOfInts(items).Err? ==> SumOfInts(items).error.kind == ValueError
  {
    var rs := seq(|items|, i requires 0 <= i < |items| => ParseInt(items[i]));
    SumResultsFails(rs);
    if SumOfInts(items).Err? {
      var k :| 0 <= k < |rs| && rs[k].Err? && SumResults(rs).error == rs[k].error;
      assert ParseInt(items[k]).Err?;
    } else {
      forall k | 0 <= k < |items|
        ensures ParseInt(items[k]).Ok?
      {
        assert rs[k] == ParseInt(items[k]);
      }
    }
  }

  /** type_bug_example(): the strings "1", "2", "3" converted before summing. */
  function TypeBugExample(): (r: Result<int>)
    ensures r == Ok(6)
  {
    var items: seq<string> := ["1", "2", "3"];
    assert items == seq(3, i requires 0 <= i < 3 => IntToString([1, 2, 3][i]));
    SumOfIntsDecimal([1, 2, 3]);
    SumOfInts(items)
  }

  /** A string int() refuses makes the whole sum fail, as the unfixed `sum(items)` would too. */
  lemma TypeBugUnparsed()
    ensures SumOfInts(["1", "x", "3"]).Err?
  {
    ParseIntRejectsLetter("x");
    SumOfIntsFails(["1", "x", "3"]);
    assert ParseInt(["1", "x", "3"][1]).Err?;
  }

  /** off_by_one_example(): `[x * 2 for x in items]`, the comprehension process_numbers uses. */
  function OffByOneExample(): (r: seq<int>)
    ensures |r| == 5
    ensures forall i :: 0 <= i < 5 ==> r[i] == 2 * (i + 1)
  {
    TypeHints.ProcessNumbers([1, 2, 3, 4, 5])
  }

  /**
   * The conditional expression of none_handling_example:
   * `value.upper() if value else "default"` for a value that is None or a string.
   */
  function NoneHandling(value: Option<string>): (r: string)
    ensures value.Some? && value.value != "" ==> r == Upper(value.value)
    ensures r == "default" <==> value.None? || value.value == ""
  {
    if value.Some? && value.value != "" then
      UpperHasNoLowercase(value.value);
      Upper(value.value)
    else "default"
  }

  /** Upper-cased text never equals "default", whose letters are lower case. */
  lemma UpperHasNoLowercase(s: string)
    requires s != ""
    ensures Upper(s) != "default"
  {
    assert Upper(s)[0] == UpperChar(s[0]);
  }

  /** none_handling_example() itself: the value is None. */
  lemma NoneHandlingExample()
    ensures NoneHandling(None) == "default"
  {
  }

  /**
   * find_bug_in_code(): the loop runs one index past the end of
   * [1, 2, 3, 4, 5]; the IndexError it raises there is caught and reported,
   * so the total is still the sum of the list.
   */
  method FindBugInCode() returns (total: int, reported: seq<string>)
    ensures total == 15
    ensures reported == ["list index out of range"]
  {
    var data := [1, 2, 3, 4, 5];
    total := 0;
    reported := [];
    var i := 0;
    while i < |data| + 1
      invariant 0 <= i <= |data| + 1
      invariant total == Recursion.SumList(data[..if i <= |data| then i else |data|])
      invariant reported == if i <= |data| then [] else ["list index out of range"]
    {
      if i < |data| {
        assert data[..i + 1] == data[..i] + [data[i]];
        Recursion.SumListSnoc(data[..i], data[i]);
        total := total + data[i];
      } else {
        reported := reported + ["list index out of range"];
      }
      i := i + 1;
    }
    assert data[..|data|] == data;
    Recursion.SumListExample();
  }
}
