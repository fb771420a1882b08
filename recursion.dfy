/**
 * The recursive functions of 27_recursion.py: factorial, Fibonacci, power,
 * list sum, binary search and the Tower of Hanoi. The Hanoi solver returns
 * the moves it would print, in order.
 */
module Recursion {
  import opened PyCore

  /** factorial(n): 1 for n <= 1, otherwise n * factorial(n - 1). */
  function Factorial(n: int): (r: int)
    ensures r >= 1
    decreases n
  {
    if n <= 1 then 1 else n * Factorial(n - 1)
  }

  /** Every k in 1..n divides n!. */
  lemma {:induction false} FactorialDivisible(n: int, k: int)
    requires 1 <= k <= n
    ensures exists q :: Factorial(n) == k * q
    decreases n
  {
    if k == n {
      assert Factorial(n) == k * Factorial(n - 1);
    } else {
      FactorialDivisible(n - 1, k);
      var q :| Factorial(n - 1) == k * q;
      MulCommutesInside(n, k, q);
      assert Factorial(n) == k * (n * q);
    }
  }

  /** The product lo * (lo + 1) * ... * hi, built from the bottom up; 1 for an empty range. */
  function Product(lo: int, hi: int): int
    decreases hi - lo
  {
    if lo > hi then 1 else lo * Product(lo + 1, hi)
  }

  /** Extending the range at the top multiplies by the new factor. */
  lemma {:induction false} ProductSnoc(lo: int, hi: int)
    requires lo <= hi + 1
    ensures Product(lo, hi + 1) == Product(lo, hi) * (hi + 1)
    decreases hi - lo
  {
    if lo <= hi {
      ProductSnoc(lo + 1, hi);
      assert Product(lo, hi + 1) == lo * Product(lo + 1, hi + 1);
    }
  }

  /** The recursion computes n! = 1 * 2 * ... * n, as an ascending product defined independently of it. */
  lemma {:induction false} FactorialIsProduct(n: nat)
    ensures Factorial(n) == Product(1, n)
  {
    if n > 1 {
      FactorialIsProduct(n - 1);
      ProductSnoc(1, n - 1);
    }
  }

  lemma MulCommutesInside(a: int, b: int, c: int)
    ensures a * (b * c) == b * (a * c)
  {
  }

  lemma FactorialOfFive()
    ensures Factorial(5) == 120
  {
  }

  /** fibonacci(n): 0 for n <= 0, 1 for n == 1, otherwise the sum of the two preceding values. */
  function Fibonacci(n: int): (r: int)
    ensures r >= 0
    ensures n >= 1 ==> r >= 1
    decreases n
  {
    if n <= 0 then 0 else if n == 1 then 1 else Fibonacci(n - 1) + Fibonacci(n - 2)
  }

  function FibonacciPrefixSum(n: nat): int
  {
    if n == 0 then 0 else FibonacciPrefixSum(n - 1) + Fibonacci(n - 1)
  }

  /** The first n Fibonacci numbers add up to F(n + 1) - 1. */
  lemma {:induction false} FibonacciSum(n: nat)
    ensures FibonacciPrefixSum(n) == Fibonacci(n + 1) - 1
  {
    if n > 0 {
      FibonacciSum(n - 1);
    }
  }

  lemma FibonacciFirstTen()
    ensures [Fibonacci(0), Fibonacci(1), Fibonacci(2), Fibonacci(3), Fibonacci(4),
             Fibonacci(5), Fibonacci(6), Fibonacci(7), Fibonacci(8), Fibonacci(9)]
         == [0, 1, 1, 2, 3, 5, 8, 13, 21, 34]
  {
  }

  /**
   * power(base, exponent) for exponent >= 0; a negative exponent never reaches
   * the base case (the recursion runs until Python's recursion limit).
   */
  function Power(base: int, exponent: int): int
    requires exponent >= 0
    decreases exponent
  {
    if exponent == 0 then 1 else base * Power(base, exponent - 1)
  }

  /** Exponents add: b^(m+n) == b^m * b^n. */
  lemma {:induction false} PowerAdd(base: int, m: nat, n: nat)
    ensures Power(base, m + n) == Power(base, m) * Power(base, n)
    decreases m
  {
    if m > 0 {
      PowerAdd(base, m - 1, n);
      assert Power(base, m + n) == base * Power(base, m - 1 + n);
    }
  }

  /** Powers of a positive base are positive. */
  lemma {:induction false} PowerPositive(base: int, n: nat)
    requires base > 0
    ensures Power(base, n) > 0
  {
    if n > 0 {
      PowerPositive(base, n - 1);
    }
  }

  lemma PowerTwoFive()
    ensures Power(2, 5) == 32
  {
  }

  /** sum_list(lst): 0 for the empty list, otherwise head plus the sum of the tail. */
  function SumList(lst: seq<int>): int
  {
    if lst == [] then 0 else lst[0] + SumList(lst[1..])
  }

  /** The sum of a concatenation is the sum of the parts. */
  lemma {:induction false} SumListAppend(a: seq<int>, b: seq<int>)
    ensures SumList(a + b) == SumList(a) + SumList(b)
  {
    if a == [] {
      assert a + b == b;
    } else {
      assert (a + b)[0] == a[0];
      assert (a + b)[1..] == a[1..] + b;
      SumListAppend(a[1..], b);
      assert SumList(a + b) == a[0] + SumList(a[1..] + b);
    }
  }

  /** Appending one element adds it to the sum (the accumulating loop's step). */
  lemma SumListSnoc(a: seq<int>, x: int)
    ensures SumList(a + [x]) == SumList(a) + x
  {
    SumListAppend(a, [x]);
  }

  lemma SumListExample()
    ensures SumList([1, 2, 3, 4, 5]) == 15
  {
  }

  ghost predicate Sorted(arr: seq<int>)
  {
    forall i, j :: 0 <= i < j < |arr| ==> arr[i] <= arr[j]
  }

  /**
   * binary_search(arr, target, low, high): an index of target within
   * arr[low..high], or -1. Negative indices are not used by the lesson.
   */
  function BinarySearch(arr: seq<int>, target: int, low: int, high: int): (r: int)
    requires 0 <= low && high < |arr|
    ensures r == -1 || (low <= r <= high && arr[r] == target)
    ensures Sorted(arr) ==> (r == -1 <==> forall k :: low <= k <= high ==> arr[k] != target)
    decreases high - low
  {
    if low > high then -1
    else
      var mid := (low + high) / 2;
      if arr[mid] == target then mid
      else if arr[mid] > target then BinarySearch(arr, target, low, mid - 1)
      else BinarySearch(arr, target, mid + 1, high)
  }

  /** The call with the default bounds: low = 0 and high = len(arr) - 1. */
  function Search(arr: seq<int>, target: int): (r: int)
    ensures r == -1 || (0 <= r < |arr| && arr[r] == target)
    ensures Sorted(arr) ==> (r == -1 <==> target !in arr)
  {
    BinarySearch(arr, target, 0, |arr| - 1)
  }

  lemma SearchExample()
    ensures Search([1, 3, 5, 7, 9, 11, 13], 7) == 3
  {
  }

  // ---------------------------------------------------------------- Tower of Hanoi

  /** One printed line "Move disk {disk} from {source} to {destination}". */
  datatype Move = Move(disk: int, source: string, destination: string)

  /**
   * tower_of_hanoi(n, source, destination, auxiliary) for n >= 1; with n <= 0 the
   * source recurses without end, since its only base case is n == 1.
   */
  function TowerOfHanoi(n: int, source: string, destination: string, auxiliary: string): seq<Move>
    requires n >= 1
    decreases n
  {
    if n == 1 then [Move(1, source, destination)]
    else
      TowerOfHanoi(n - 1, source, auxiliary, destination) + [Move(n, source, destination)]
      + TowerOfHanoi(n - 1, auxiliary, destination, source)
  }

  /**
   * The move list has 2^n - 1 entries; the largest disk moves once, from
   * source to destination, in the middle; every other move is of a smaller disk.
   */
  lemma {:induction false} HanoiShape(n: int, source: string, destination: string, auxiliary: string)
    requires n >= 1
    ensures var moves := TowerOfHanoi(n, source, destination, auxiliary);
            && |moves| == Power(2, n) - 1
            && moves[Power(2, n - 1) - 1] == Move(n, source, destination)
            && (forall i :: 0 <= i < |moves| ==> 1 <= moves[i].disk <= n)
            && (forall i :: 0 <= i < |moves| && i != Power(2, n - 1) - 1 ==> moves[i].disk < n)
    decreases n
  {
    if n > 1 {
      var first := TowerOfHanoi(n - 1, source, auxiliary, destination);
      var last := TowerOfHanoi(n - 1, auxiliary, destination, source);
      HanoiShape(n - 1, source, auxiliary, destination);
      HanoiShape(n - 1, auxiliary, destination, source);
      PowerPositive(2, n - 2);
      assert Power(2, n - 1) == 2 * Power(2, n - 2);
      var moves := first + [Move(n, source, destination)] + last;
      assert TowerOfHanoi(n, source, destination, auxiliary) == moves;
      forall i | 0 <= i < |moves|
        ensures 1 <= moves[i].disk <= n
        ensures i != |first| ==> moves[i].disk < n
      {
        if i < |first| {
          assert moves[i] == first[i];
        } else if i > |first| {
          assert moves[i] == last[i - |first| - 1];
        }
      }
    }
  }

  lemma HanoiThreeDisks()
    ensures TowerOfHanoi(3, "A", "C", "B") == [
      Move(1, "A", "C"), Move(2, "A", "B"), Move(1, "C", "B"), Move(3, "A", "C"),
      Move(1, "B", "A"), Move(2, "B", "C"), Move(1, "A", "C")]
  {
  }

  /** Pegs: each peg's disks from the bottom up. */
  type Pegs = map<string, seq<int>>

  /** A disk may be put on an empty peg or on a larger disk. */
  predicate Fits(stack: seq<int>, disk: int)
  {
    stack == [] || stack[|stack| - 1] > disk
  }

  /** Carries out one move, or fails if it is illegal. */
  function Step(pegs: Pegs, m: Move): Option<Pegs>
  {
    if m.source in pegs && m.destination in pegs && m.source != m.destination
       && pegs[m.source] != [] && pegs[m.source][|pegs[m.source]| - 1] == m.disk
       && Fits(pegs[m.destination], m.disk)
    then
      var from := pegs[m.source];
      Some(pegs[m.source := from[..|from| - 1]][m.destination := pegs[m.destination] + [m.disk]])
    else None
  }

  /** Carries out the moves in order; fails at the first illegal move. */
  function Play(pegs: Pegs, moves: seq<Move>): Option<Pegs>
  {
    if moves == [] then Some(pegs)
    else match Step(pegs, moves[0])
      case None => None
      case Some(next) => Play(next, moves[1..])
  }

  lemma {:induction false} PlayAppend(pegs: Pegs, a: seq<Move>, b: seq<Move>)
    ensures Play(pegs, a + b) == match Play(pegs, a) case None => None case Some(mid) => Play(mid, b)
  {
    if a == [] {
      assert a + b == b;
    } else {
      assert (a + b)[0] == a[0];
      assert (a + b)[1..] == a[1..] + b;
      match Step(pegs, a[0])
      case None =>
      case Some(next) => PlayAppend(next, a[1..], b);
    }
  }

  /** The disks n, n-1, ..., 1 from the bottom up. */
  function Tower(n: nat): seq<int>
  {
    if n == 0 then [] else [n] + Tower(n - 1)
  }

  /** The single move of the largest disk: legal when the destination holds only larger disks. */
  lemma MoveLargest(p: Pegs, n: int, s: string, d: string, rest: seq<int>)
    requires s != d && s in p && d in p
    requires p[s] == rest + [n] && Fits(p[d], n)
    ensures Play(p, [Move(n, s, d)]) == Some(p[s := rest][d := p[d] + [n]])
  {
    assert p[s][..|p[s]| - 1] == rest;
    assert Step(p, Move(n, s, d)) == Some(p[s := rest][d := p[d] + [n]]);
    assert [Move(n, s, d)][1..] == [];
  }

  /** tower_of_hanoi(n) is the tower of n - 1 to the spare peg, the largest move, and the tower of n - 1 back on top. */
  lemma HanoiSplit(n: int, s: string, d: string, a: string)
    requires n >= 2
    ensures TowerOfHanoi(n, s, d, a)
         == TowerOfHanoi(n - 1, s, a, d) + ([Move(n, s, d)] + TowerOfHanoi(n - 1, a, d, s))
  {
  }

  lemma PlayThree(p0: Pegs, first: seq<Move>, mid: Move, last: seq<Move>, p1: Pegs, p2: Pegs, p3: Pegs)
    requires Play(p0, first) == Some(p1) && Play(p1, [mid]) == Some(p2) && Play(p2, last) == Some(p3)
    ensures Play(p0, first + ([mid] + last)) == Some(p3)
  {
    PlayAppend(p0, first, [mid] + last);
    PlayAppend(p1, [mid], last);
  }

  /** The pegs before and after the first recursive half meet the conditions of the inner calls. */
  lemma HanoiFirstHalf(pegs: Pegs, n: int, s: string, d: string, a: string, rest: seq<int>)
    requires n >= 2 && s != d && d != a && s != a && s in pegs && d in pegs && a in pegs
    requires pegs[s] == rest + Tower(n)
    requires Fits(rest, n) && Fits(pegs[d], n) && Fits(pegs[a], n)
    ensures pegs[s] == (rest + [n]) + Tower(n - 1)
    ensures Fits(rest + [n], n - 1) && Fits(pegs[d], n - 1) && Fits(pegs[a], n - 1)
    ensures var p1 := pegs[s := rest + [n]][a := pegs[a] + Tower(n - 1)];
            s in p1 && d in p1 && p1[s] == rest + [n] && Fits(p1[d], n)
  {
    assert Tower(n) == [n] + Tower(n - 1);
  }

  lemma HanoiSecondHalf(pegs: Pegs, n: int, s: string, d: string, a: string, rest: seq<int>)
    requires n >= 2 && s != d && d != a && s != a && s in pegs && d in pegs && a in pegs
    requires Fits(rest, n) && Fits(pegs[a], n)
    ensures var p1 := pegs[s := rest + [n]][a := pegs[a] + Tower(n - 1)];
            var p2 := p1[s := rest][d := pegs[d] + [n]];
            s in p2 && d in p2 && a in p2 && p2[a] == pegs[a] + Tower(n - 1)
            && Fits(pegs[a], n - 1) && Fits(p2[d], n - 1) && Fits(p2[s], n - 1)
  {
  }

  lemma HanoiFinalPegs(pegs: Pegs, n: int, s: string, d: string, a: string, rest: seq<int>)
    requires n >= 2 && s != d && d != a && s != a && s in pegs && d in pegs && a in pegs
    ensures var p1 := pegs[s := rest + [n]][a := pegs[a] + Tower(n - 1)];
            var p2 := p1[s := rest][d := pegs[d] + [n]];
            p2[a := pegs[a]][d := p2[d] + Tower(n - 1)] == pegs[s := rest][d := pegs[d] + Tower(n)]
  {
    assert Tower(n) == [n] + Tower(n - 1);
    assert (pegs[d] + [n]) + Tower(n - 1) == pegs[d] + Tower(n);
  }

  /**
   * The moves of tower_of_hanoi are a legal solution: starting with disks
   * n..1 on top of the source peg and only larger disks on top of the other
   * two pegs, they move exactly those n disks onto the destination peg and
   * leave everything else where it was.
   */
  lemma {:induction false} HanoiSolves(n: int, s: string, d: string, a: string, pegs: Pegs, rest: seq<int>)
    requires n >= 1
    requires s != d && d != a && s != a
    requires s in pegs && d in pegs && a in pegs
    requires pegs[s] == rest + Tower(n)
    requires Fits(rest, n) && Fits(pegs[d], n) && Fits(pegs[a], n)
    ensures Play(pegs, TowerOfHanoi(n, s, d, a)) == Some(pegs[s := rest][d := pegs[d] + Tower(n)])
    decreases n
  {
    if n == 1 {
      assert Tower(1) == [1];
      MoveLargest(pegs, 1, s, d, rest);
    } else {
      HanoiSplit(n, s, d, a);
      var restN := rest + [n];
      var p1 := pegs[s := restN][a := pegs[a] + Tower(n - 1)];
      var p2 := p1[s := rest][d := pegs[d] + [n]];
      var p3 := p2[a := pegs[a]][d := p2[d] + Tower(n - 1)];
      HanoiFirstHalf(pegs, n, s, d, a, rest);
      HanoiSolves(n - 1, s, a, d, pegs, restN);
      MoveLargest(p1, n, s, d, rest);
      HanoiSecondHalf(pegs, n, s, d, a, rest);
      HanoiSolves(n - 1, a, d, s, p2, pegs[a]);
      PlayThree(pegs, TowerOfHanoi(n - 1, s, a, d), Move(n, s, d), TowerOfHanoi(n - 1, a, d, s), p1, p2, p3);
      HanoiFinalPegs(pegs, n, s, d, a, rest);
    }
  }

  /** From all n disks on the source peg, the moves end with all n disks on the destination peg. */
  lemma HanoiFromStart(n: int, s: string, d: string, a: string)
    requires n >= 1 && s != d && d != a && s != a
    ensures Play(map[s := Tower(n), d := [], a := []], TowerOfHanoi(n, s, d, a))
         == Some(map[s := [], d := Tower(n), a := []])
  {
    var pegs := map[s := Tower(n), d := [], a := []];
    assert pegs[s] == [] + Tower(n);
    HanoiSolves(n, s, d, a, pegs, []);
    assert pegs[s := []][d := pegs[d] + Tower(n)] == map[s := [], d := Tower(n), a := []];
  }
}
