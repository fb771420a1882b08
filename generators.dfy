/**
 * The generators of 21_generators.py. A finite generator is modelled by
 * the sequence it yields; a generator consumed with `next()` by an object
 * holding its position; the infinite counter by an object whose count goes
 * up on every `next()`.
 */
module Generators {
  import opened PyCore

  /** simple_generator(): 1, 2 and 3, then StopIteration. */
  function SimpleGenerator(): (vs: seq<int>)
    ensures |vs| == 3 && forall i :: 0 <= i < 3 ==> vs[i] == i + 1
  {
    [1, 2, 3]
  }

  /** get_squares_gen(n): i ** 2 for i in range(n); nothing for n <= 0. */
  function GetSquaresGen(n: int): (vs: seq<int>)
    ensures |vs| == if n > 0 then n else 0
    ensures forall i :: 0 <= i < |vs| ==> vs[i] == i * i
  {
    if n <= 0 then [] else seq(n, i => i * i)
  }

  /** get_squares(n): the list built by appending i ** 2 in a loop; the generator's values. */
  method GetSquares(n: int) returns (result: seq<int>)
    ensures result == GetSquaresGen(n)
  {
    result := [];
    var i := 0;
    while i < n
      invariant n > 0 ==> 0 <= i <= n
      invariant n <= 0 ==> i == 0
      invariant |result| == i && forall j :: 0 <= j < i ==> result[j] == j * j
    {
      result := result + [i * i];
      i := i + 1;
    }
  }

  /** The demo: get_squares(5) and the generator both give 0, 1, 4, 9, 16. */
  method GetSquaresDemo() returns (result: seq<int>)
    ensures result == [0, 1, 4, 9, 16] && result == GetSquaresGen(5)
  {
    result := GetSquares(5);
  }

  /** A generator object over the values it will yield, consumed with `next()`. */
  class Generator {
    const values: seq<int>
    var position: nat

    constructor (values: seq<int>)
      ensures this.values == values && position == 0
    {
      this.values := values;
      position := 0;
    }

    /** `next(gen)`: the next value, or StopIteration once all have been yielded. */
    method Next() returns (r: Result<int>)
      requires position <= |values|
      modifies this
      ensures position <= |values|
      ensures old(position) == |values| ==> r == Err(PyError(StopIteration, "")) && position == old(position)
      ensures old(position) < |values| ==> r == Ok(values[old(position)]) && position == old(position) + 1
    {
      if position == |values| {
        return Err(PyError(StopIteration, ""));
      }
      r := Ok(values[position]);
      position := position + 1;
    }
  }

  /** number_generator(): 10, 20 and 30. */
  function NumberGenerator(): (vs: seq<int>)
    ensures |vs| == 3 && forall i :: 0 <= i < 3 ==> vs[i] == 10 * (i + 1)
  {
    [10, 20, 30]
  }

  /** The demo: three `next()` calls give 10, 20, 30; a fourth would raise StopIteration. */
  method NumberGeneratorDemo() returns (first: Result<int>, second: Result<int>, third: Result<int>, fourth: Result<int>)
    ensures first == Ok(10) && second == Ok(20) && third == Ok(30)
    ensures fourth.Err? && fourth.error.kind == StopIteration
  {
    var gen := new Generator(NumberGenerator());
    first := gen.Next();
    second := gen.Next();
    third := gen.Next();
    fourth := gen.Next();
  }

  /** infinite_counter(): the suspended generator holds `count`, which `next()` yields and then increments. */
  class InfiniteCounter {
    var count: int

    constructor ()
      ensures count == 0
    {
      count := 0;
    }

    method Next() returns (value: int)
      modifies this
      ensures value == old(count) && count == old(count) + 1
    {
      value := count;
      count := count + 1;
    }
  }

  /** `for i in range(k): next(counter)`: the first k values of a fresh counter are 0, ..., k - 1. */
  method FirstValues(k: nat) returns (values: seq<int>)
    ensures |values| == k && forall i :: 0 <= i < k ==> values[i] == i
  {
    var counter := new InfiniteCounter();
    values := [];
    var i := 0;
    while i < k
      invariant 0 <= i <= k && counter.count == i
      invariant |values| == i && forall j :: 0 <= j < i ==> values[j] == j
    {
      var v := counter.Next();
      values := values + [v];
      i := i + 1;
    }
  }

  /** The demo: the first five values are 0, 1, 2, 3, 4. */
  method InfiniteCounterDemo() returns (values: seq<int>)
    ensures values == [0, 1, 2, 3, 4]
  {
    values := FirstValues(5);
  }

  // ---------------------------------------------------------------- pipeline

  /** numbers(n): 0, 1, ..., n - 1. */
  function Numbers(n: int): (vs: seq<int>)
    ensures |vs| == if n > 0 then n else 0
    ensures forall i :: 0 <= i < |vs| ==> vs[i] == i
  {
    if n <= 0 then [] else seq(n, i => i)
  }

  /** squares(seq): each item squared. */
  function Squares(xs: seq<int>): (vs: seq<int>)
    ensures |vs| == |xs|
    ensures forall i :: 0 <= i < |xs| ==> vs[i] == xs[i] * xs[i]
  {
    seq(|xs|, i requires 0 <= i < |xs| => xs[i] * xs[i])
  }

  predicate IsEven(x: int)
  {
    x % 2 == 0
  }

  /** evens(seq): the items with `i % 2 == 0`, in their order. */
  function Evens(xs: seq<int>): seq<int>
  {
    if xs == [] then []
    else if IsEven(xs[0]) then [xs[0]] + Evens(xs[1..])
    else Evens(xs[1..])
  }

  /** evens keeps exactly the even items: every kept item is even and from the input, and every even item is kept. */
  lemma {:induction false} EvensMembers(xs: seq<int>)
    ensures |Evens(xs)| <= |xs|
    ensures forall x :: x in Evens(xs) <==> x in xs && IsEven(x)
  {
    if xs != [] {
      EvensMembers(xs[1..]);
      assert xs == [xs[0]] + xs[1..];
    }
  }

  /** evens works item by item, so it keeps the order: filtering a concatenation concatenates the filtered parts. */
  lemma {:induction false} EvensAppend(xs: seq<int>, ys: seq<int>)
    ensures Evens(xs + ys) == Evens(xs) + Evens(ys)
  {
    if xs == [] {
      assert xs + ys == ys;
    } else {
      assert (xs + ys)[1..] == xs[1..] + ys;
      EvensAppend(xs[1..], ys);
    }
  }

  /** A list of even items passes unchanged, so evens is idempotent. */
  lemma {:induction false} EvensOfEvens(xs: seq<int>)
    ensures (forall i :: 0 <= i < |xs| ==> IsEven(xs[i])) ==> Evens(xs) == xs
    ensures Evens(Evens(xs)) == Evens(xs)
  {
    if xs != [] {
      EvensOfEvens(xs[1..]);
      if IsEven(xs[0]) {
        assert Evens(xs) == [xs[0]] + Evens(xs[1..]);
        assert Evens(Evens(xs)) == [xs[0]] + Evens(Evens(xs[1..]));
      }
    }
  }

  lemma SquaresOfNumbersTen()
    ensures Squares(Numbers(10)) == [0, 1, 4, 9, 16] + [25, 36, 49, 64, 81]
  {
  }

  lemma EvensOfSquaresTen()
    ensures Evens([0, 1, 4, 9, 16]) == [0, 4, 16]
    ensures Evens([25, 36, 49, 64, 81]) == [36, 64]
  {
  }

  /** The demo: `list(evens(squares(numbers(10))))` is [0, 4, 16, 36, 64]. */
  lemma PipelineDemo()
    ensures Evens(Squares(Numbers(10))) == [0, 4, 16, 36, 64]
  {
    SquaresOfNumbersTen();
    EvensAppend([0, 1, 4, 9, 16], [25, 36, 49, 64, 81]);
    EvensOfSquaresTen();
  }
}
