/**
 * The slow/fast pairs of 41_profiling.py. Each slow version is the loop the
 * lesson times, a method; each fast version is the comprehension or builtin,
 * a function; the slow one is proved to compute the fast one's result. The
 * timing and profiling machinery is left out.
 */
module Profiling {
  import opened PyCore
  import Recursion

  // ---------------------------------------------------------------- squares

  /** fast_function(): `[i ** 2 for i in range(1000)]`. */
  function FastFunction(): (r: seq<int>)
    ensures |r| == 1000 && forall i :: 0 <= i < 1000 ==> r[i] == i * i
  {
    seq(1000, i => i * i)
  }

  /** slow_function(): the same list, appended to one square at a time. */
  method SlowFunction() returns (result: seq<int>)
    ensures result == FastFunction()
  {
    result := [];
    var i := 0;
    while i < 1000
      invariant 0 <= i <= 1000
      invariant |result| == i && forall j :: 0 <= j < i ==> result[j] == j * j
    {
      result := result + [i * i];
      i := i + 1;
    }
  }

  // ---------------------------------------------------------------- doubles

  /** fast_list_creation(): `[i * 2 for i in range(1000)]`. */
  function FastListCreation(): (r: seq<int>)
    ensures |r| == 1000 && forall i :: 0 <= i < 1000 ==> r[i] == 2 * i
  {
    seq(1000, i => i * 2)
  }

  /** slow_list_creation(): the same list built with append. */
  method SlowListCreation() returns (result: seq<int>)
    ensures result == FastListCreation()
  {
    result := [];
    var i := 0;
    while i < 1000
      invariant 0 <= i <= 1000
      invariant |result| == i && forall j :: 0 <= j < i ==> result[j] == 2 * j
    {
      result := result + [i * 2];
      i := i + 1;
    }
  }

  // ---------------------------------------------------------------- sum

  /** `sum(range(n))`: 0 + 1 + ... + (n - 1). */
  function RangeSum(n: nat): int
  {
    if n == 0 then 0 else RangeSum(n - 1) + (n - 1)
  }

  /** Gauss: the sum of range(n) is n (n - 1) / 2. */
  lemma {:induction false} RangeSumFormula(n: nat)
    ensures 2 * RangeSum(n) == n * (n - 1)
  {
    if n > 0 {
      RangeSumFormula(n - 1);
    }
  }

  /** fast_sum(): `sum(range(1000))`, which is 499500. */
  function FastSum(): (r: int)
    ensures r == 499500
  {
    RangeSumFormula(1000);
    RangeSum(1000)
  }

  /** slow_sum(): the running total of range(1000). */
  method SlowSum() returns (total: int)
    ensures total == FastSum()
  {
    total := 0;
    var i := 0;
    while i < 1000
      invariant 0 <= i <= 1000
      invariant total == RangeSum(i)
    {
      total := total + i;
      i := i + 1;
    }
  }

  // ---------------------------------------------------------------- fibonacci

  /** fibonacci_uncached(n): the tree recursion; a number below 2, negatives included, is its own value. */
  function FibonacciUncached(n: int): int
    decreases if n < 2 then 0 else n
  {
    if n < 2 then n else FibonacciUncached(n - 1) + FibonacciUncached(n - 2)
  }

  /** On n >= 0 it is the Fibonacci number of the recursion lesson. */
  lemma {:induction false} FibonacciUncachedAgrees(n: int)
    requires n >= 0
    ensures FibonacciUncached(n) == Recursion.Fibonacci(n)
    decreases n
  {
    if n >= 2 {
      FibonacciUncachedAgrees(n - 1);
      FibonacciUncachedAgrees(n - 2);
    }
  }

  /**
   * fibonacci_cached: the same recursion behind `lru_cache`; the cache maps
   * each argument already seen to its result.
   */
  class FibonacciCache {
    var memo: map<int, int>

    constructor ()
      ensures memo == map[]
    {
      memo := map[];
    }

    /** Every cached result is the uncached one. */
    ghost predicate Valid()
      reads this
    {
      forall k :: k in memo ==> memo[k] == FibonacciUncached(k)
    }

    /** A call returns the uncached value, caches it, and keeps every earlier entry. */
    method Fibonacci(n: int) returns (r: int)
      requires Valid()
      modifies this
      ensures Valid()
      ensures r == FibonacciUncached(n)
      ensures n in memo && memo.Keys >= old(memo.Keys)
      decreases if n < 2 then 0 else n
    {
      if n in memo {
        return memo[n];
      }
      if n < 2 {
        r := n;
      } else {
        var a := Fibonacci(n - 1);
        var b := Fibonacci(n - 2);
        r := a + b;
      }
      memo := memo[n := r];
    }
  }

  /** fibonacci_cached(n) == fibonacci_uncached(n) for every n, starting from an empty cache. */
  method FibonacciCached(n: int) returns (r: int)
    ensures r == FibonacciUncached(n)
    ensures n >= 0 ==> r == Recursion.Fibonacci(n)
  {
    var cache := new FibonacciCache();
    r := cache.Fibonacci(n);
    if n >= 0 {
      FibonacciUncachedAgrees(n);
    }
  }

  // ---------------------------------------------------------------- digit counts

  /** `[len(str(i)) for i in range(1000)]`. */
  function DigitLengths(): (r: seq<int>)
    ensures |r| == 1000
  {
    seq(1000, i requires 0 <= i < 1000 => |NatToString(i)|)
  }

  /** len(str(i)) is 1 below 10, 2 below 100 and 3 below 1000. */
  lemma DigitCount(i: nat)
    requires i < 1000
    ensures |NatToString(i)| == if i < 10 then 1 else if i < 100 then 2 else 3
  {
    if i >= 10 {
      assert NatToString(i) == NatToString(i / 10) + [DigitChar(i % 10)];
      if i >= 100 {
        assert NatToString(i / 10) == NatToString(i / 10 / 10) + [DigitChar(i / 10 % 10)];
      }
    }
  }

  /** Entry i of the list is the number of decimal digits of i. */
  lemma DigitLengthsCount()
    ensures forall i :: 0 <= i < 1000 ==> DigitLengths()[i] == if i < 10 then 1 else if i < 100 then 2 else 3
  {
    forall i | 0 <= i < 1000
      ensures DigitLengths()[i] == if i < 10 then 1 else if i < 100 then 2 else 3
    {
      DigitCount(i);
    }
  }

  /**
   * slow_global() and fast_local(): the same loop, once through the global
   * `len` and once through a local alias of it, so one method models both.
   */
  method DigitLengthsLoop() returns (result: seq<int>)
    ensures result == DigitLengths()
  {
    result := [];
    var i := 0;
    while i < 1000
      invariant 0 <= i <= 1000
      invariant |result| == i && forall j :: 0 <= j < i ==> result[j] == |NatToString(j)|
    {
      result := result + [|Str(PyInt(i))|];
      i := i + 1;
    }
  }

  // ---------------------------------------------------------------- string concatenation

  /** `"".join(str(i) for i in range(100))`. */
  function FastStringConcat(): string
  {
    Join(seq(100, i requires 0 <= i < 100 => NatToString(i)), "")
  }

  /** Joining with the empty separator: one more part is appended at the end. */
  lemma {:induction false} JoinEmptySnoc(parts: seq<string>, p: string)
    ensures Join(parts + [p], "") == Join(parts, "") + p
  {
    if parts == [] {
      assert parts + [p] == [p];
    } else if |parts| == 1 {
      assert (parts + [p])[1..] == [p];
    } else {
      assert (parts + [p])[1..] == parts[1..] + [p];
      JoinEmptySnoc(parts[1..], p);
    }
  }

  /** slow_string_concat(): `result += str(i)` for i in range(100) builds the joined string. */
  method SlowStringConcat() returns (result: string)
    ensures result == FastStringConcat()
  {
    var parts := seq(100, i requires 0 <= i < 100 => NatToString(i));
    result := "";
    var i := 0;
    while i < 100
      invariant 0 <= i <= 100
      invariant result == Join(parts[..i], "")
    {
      assert parts[..i + 1] == parts[..i] + [parts[i]];
      JoinEmptySnoc(parts[..i], parts[i]);
      result := result + Str(PyInt(i));
      i := i + 1;
    }
    assert parts[..100] == parts;
  }

  /** Joining with the empty separator distributes over concatenating the parts. */
  lemma {:induction false} JoinEmptyAppend(ps: seq<string>, qs: seq<string>)
    ensures Join(ps + qs, "") == Join(ps, "") + Join(qs, "")
    decreases |qs|
  {
    if qs == [] {
      assert ps + qs == ps;
    } else {
      var front := qs[..|qs| - 1];
      var last := qs[|qs| - 1];
      assert qs == front + [last];
      assert ps + qs == (ps + front) + [last];
      JoinEmptyAppend(ps, front);
      JoinEmptySnoc(ps + front, last);
      JoinEmptySnoc(front, last);
    }
  }

  // ---------------------------------------------------------------- example_function

  /** The sum of i ** 2 for i in range(n); nothing to add for n <= 0. */
  function SumOfSquares(n: int): int
    decreases if n <= 0 then 0 else n
  {
    if n <= 0 then 0 else SumOfSquares(n - 1) + (n - 1) * (n - 1)
  }

  /** The closed form: 6 * sum == (n - 1) n (2n - 1). */
  lemma {:induction false} SumOfSquaresFormula(n: nat)
    ensures 6 * SumOfSquares(n) == (n - 1) * n * (2 * n - 1)
  {
    if n > 0 {
      SumOfSquaresFormula(n - 1);
    }
  }

  /** The body of example_function(n): the running total of the squares. */
  method ExampleFunction(n: int) returns (total: int)
    ensures total == SumOfSquares(n)
  {
    total := 0;
    var i := 0;
    while i < n
      invariant n > 0 ==> 0 <= i <= n
      invariant n <= 0 ==> i == 0
      invariant total == SumOfSquares(i)
    {
      total := total + i * i;
      i := i + 1;
    }
  }

  /** The demo: example_function(1000) is 332833500. */
  method ExampleFunctionDemo() returns (total: int)
    ensures total == 332833500
  {
    total := ExampleFunction(1000);
    SumOfSquaresFormula(1000);
  }
}
