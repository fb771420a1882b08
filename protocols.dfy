/**
 * The protocol examples of 33_protocols_and_abc.py: the abstract animal's
 * describe, products ordered by price and the minimum of a list of them,
 * the re-iterable Countdown with its iterator, and a readable and writable
 * File.
 */
module Protocols {
  import opened PyCore

  // ---------------------------------------------------------------- abstract base class

  datatype Animal = Dog | Cat

  function Speak(a: Animal): string
  {
    match a
    case Dog => "Woof!"
    case Cat => "Meow!"
  }

  function Move(a: Animal): string
  {
    match a
    case Dog => "runs"
    case Cat => "walks"
  }

  /** describe(): the concrete speak() and move() joined by " and ". */
  function Describe(a: Animal): (r: string)
    ensures |r| == |Speak(a)| + 5 + |Move(a)|
    ensures r[..|Speak(a)|] == Speak(a) && r[|r| - |Move(a)|..] == Move(a)
  {
    Speak(a) + " and " + Move(a)
  }

  lemma DescribeDemo()
    ensures Describe(Dog) == "Woof! and runs" && Describe(Cat) == "Meow! and walks"
  {
  }

  // ---------------------------------------------------------------- comparable products

  /** A product; the lesson's prices are whole numbers. */
  datatype Product = Product(name: string, price: int)

  /** The right-hand side of a comparison: a Product or any other object. */
  datatype Operand = AProduct(product: Product) | NotAProduct

  /** `__eq__`: another product with the same price; never equal to anything else. */
  predicate ProductEq(p: Product, other: Operand)
  {
    other.AProduct? && p.price == other.product.price
  }

  /** `__lt__`: a product with a higher price; never less than anything else. */
  predicate ProductLt(p: Product, other: Operand)
  {
    other.AProduct? && p.price < other.product.price
  }

  /** Only the price takes part: products of equal price are equal whatever their names. */
  lemma ProductOrder(p: Product, q: Product)
    ensures ProductEq(p, AProduct(q)) <==> p.price == q.price
    ensures ProductLt(p, AProduct(q)) <==> p.price < q.price
    ensures ProductEq(p, AProduct(q)) == ProductEq(q, AProduct(p))
    ensures !(ProductLt(p, AProduct(q)) && ProductLt(q, AProduct(p)))
    ensures ProductLt(p, AProduct(q)) || ProductLt(q, AProduct(p)) || ProductEq(p, AProduct(q))
    ensures !ProductEq(p, NotAProduct) && !ProductLt(p, NotAProduct)
  {
  }

  /** `__str__`: "name: $price". */
  function ProductToString(p: Product): string
  {
    p.name + ": $" + IntToString(p.price)
  }

  /** best is the first index of a minimal price among items[..k]. */
  ghost predicate FirstMinimum(items: seq<Product>, k: int, best: int)
  {
    0 <= best < k <= |items|
    && (forall j :: 0 <= j < k ==> items[best].price <= items[j].price)
    && (forall j :: 0 <= j < best ==> items[j].price > items[best].price)
  }

  /**
   * The scan `min` makes: the candidate so far is replaced only by an item
   * strictly less than it, so the first minimal item stays.
   */
  function MinIndexFrom(items: seq<Product>, k: int, best: int): (r: int)
    requires FirstMinimum(items, k, best)
    ensures FirstMinimum(items, |items|, r)
    decreases |items| - k
  {
    if k == |items| then best
    else if ProductLt(items[k], AProduct(items[best])) then MinIndexFrom(items, k + 1, k)
    else MinIndexFrom(items, k + 1, best)
  }

  /**
   * find_min(items), that is `min(items)`: the first product of least price;
   * an empty list raises ValueError.
   */
  function FindMin(items: seq<Product>): (r: Result<Product>)
    ensures r.Err? <==> items == []
    ensures r.Err? ==> r.error.kind == ValueError
    ensures r.Ok? ==> exists i :: FirstMinimum(items, |items|, i) && items[i] == r.value
  {
    if items == [] then Err(PyError(ValueError, "min() arg is an empty sequence"))
    else
      var i := MinIndexFrom(items, 1, 0);
      Ok(items[i])
  }

  /** There is only one first minimum, so the result is determined by the prices. */
  lemma FirstMinimumUnique(items: seq<Product>, i: int, j: int)
    requires FirstMinimum(items, |items|, i) && FirstMinimum(items, |items|, j)
    ensures i == j
  {
    assert items[i].price == items[j].price;
  }

  /** The demo: the Mouse at 25 is cheaper than the Laptop at 999 and the Keyboard at 75. */
  lemma FindMinDemo()
    ensures FindMin([Product("Laptop", 999), Product("Mouse", 25), Product("Keyboard", 75)])
         == Ok(Product("Mouse", 25))
  {
    var items := [Product("Laptop", 999), Product("Mouse", 25), Product("Keyboard", 75)];
    var r := FindMin(items);
    var i :| FirstMinimum(items, |items|, i) && items[i] == r.value;
    assert FirstMinimum(items, |items|, 1);
    FirstMinimumUnique(items, i, 1);
  }

  lemma ProductToStringDemo()
    ensures ProductToString(Product("Mouse", 25)) == "Mouse: $25"
  {
    assert NatToString(2) == "2";
    assert IntToString(25) == "25";
  }

  // ---------------------------------------------------------------- iterable protocol

  /** What iterating from `current` yields: current, current - 1, ..., 1. */
  function CountdownValues(current: int): (vs: seq<int>)
    ensures |vs| == if current > 0 then current else 0
    ensures forall i :: 0 <= i < |vs| ==> vs[i] == current - i
    decreases current
  {
    if current <= 0 then [] else [current] + CountdownValues(current - 1)
  }

  /** Each value is one less than the one before, and all are positive. */
  lemma CountdownValuesStep(current: int)
    ensures forall i :: 0 < i < |CountdownValues(current)| ==> CountdownValues(current)[i] == CountdownValues(current)[i - 1] - 1
    ensures forall i :: 0 <= i < |CountdownValues(current)| ==> CountdownValues(current)[i] >= 1
  {
  }

  class CountdownIterator {
    var current: int

    constructor (start: int)
      ensures current == start
    {
      current := start;
    }

    /** `__iter__` of the iterator: the iterator itself. */
    method Iter() returns (it: CountdownIterator)
      ensures it == this
    {
      it := this;
    }

    /** `__next__`: StopIteration once current <= 0; otherwise current, which then drops by one. */
    method Next() returns (r: Result<int>)
      modifies this
      ensures old(current) <= 0 ==> r == Err(PyError(StopIteration, "")) && current == old(current)
      ensures old(current) > 0 ==> r == Ok(old(current)) && current == old(current) - 1
    {
      if current <= 0 {
        return Err(PyError(StopIteration, ""));
      }
      var value := current;
      current := current - 1;
      r := Ok(value);
    }
  }

  /** A `for` loop over an iterator: `__next__` until StopIteration, collecting the values. */
  method Drain(it: CountdownIterator) returns (values: seq<int>)
    modifies it
    ensures values == CountdownValues(old(it.current))
    ensures it.current == if old(it.current) > 0 then 0 else old(it.current)
  {
    values := [];
    var start := it.current;
    var r := it.Next();
    while r.Ok?
      invariant start > 0 ==> 0 <= it.current < start
      invariant r.Ok? ==> r.value == it.current + 1
      invariant r.Err? ==> it.current <= 0 && it.current == if start > 0 then 0 else start
      invariant values + (if r.Ok? then [r.value] else []) + CountdownValues(it.current) == CountdownValues(start)
      decreases it.current + 1, r.Ok?
    {
      values := values + [r.value];
      r := it.Next();
    }
  }

  /** Countdown(start): an iterable that hands out a new iterator on every `__iter__`. */
  class Countdown {
    const start: int

    constructor (start: int)
      ensures this.start == start
    {
      this.start := start;
    }

    method Iter() returns (it: CountdownIterator)
      ensures fresh(it) && it.current == start
    {
      it := new CountdownIterator(start);
    }
  }

  /** The demo: Countdown(5) yields 5, 4, 3, 2, 1 on every `for` loop over it. */
  method CountdownDemo() returns (first: seq<int>, second: seq<int>)
    ensures first == [5, 4, 3, 2, 1] && second == [5, 4, 3, 2, 1]
  {
    var countdown := new Countdown(5);
    var it1 := countdown.Iter();
    first := Drain(it1);
    var it2 := countdown.Iter();
    second := Drain(it2);
  }

  // ---------------------------------------------------------------- readable and writable

  class File {
    var content: string

    constructor (content: string)
      ensures this.content == content
    {
      this.content := content;
    }

    function Read(): string
      reads this
    {
      content
    }

    /** write(data): the content is replaced, not appended to. */
    method Write(data: string)
      modifies this
      ensures content == data
    {
      content := data;
    }
  }

  /** The demo: after write_file the read gives back exactly the data; an earlier content is gone. */
  method FileDemo() returns (content: string)
    ensures content == "Hello, World!"
  {
    var file := new File("");
    file.Write("old");
    file.Write("Hello, World!");
    content := file.Read();
  }
}
