/**
 * The custom iterator of 56_iterator_protocol.py: CountDown is its own
 * iterator (`__iter__` returns self), so a second `for` loop over the same
 * object finds it exhausted. What it yields is Protocols.CountdownValues.
 */
module IteratorProtocol {
  import opened PyCore
  import Protocols

  class CountDown {
    var current: int

    constructor (start: int)
      ensures current == start
    {
      current := start;
    }

    /** `__iter__`: the object itself, not a new iterator. */
    method Iter() returns (it: CountDown)
      ensures it == this
    {
      it := this;
    }

    /** `__next__`: StopIteration once current <= 0; otherwise current, which then drops by one. */
    method Next() returns (r: Result<int>)
      modifies this
      ensures old(current) <= 0 ==> r == Err(PyError(StopIteration, "")) && current == old(current)
      ensures old(current) > 0 ==> r == Ok(old(current)) && current == old(current) - 1
    {
      if current <= 0 {
        return Err(PyError(StopIteration, ""));
      }
      var value := current;
      current := current - 1;
      r := Ok(value);
    }
  }

  /**
   * `for num in countdown`: `__iter__`, then `__next__` until StopIteration.
   * The values are current, current - 1, ..., 1, and the object is left
   * exhausted.
   */
  method ForLoop(countdown: CountDown) returns (values: seq<int>)
    modifies countdown
    ensures values == Protocols.CountdownValues(old(countdown.current))
    ensures countdown.current <= 0
    ensures countdown.current == if old(countdown.current) > 0 then 0 else old(countdown.current)
  {
    var it := countdown.Iter();
    values := [];
    var start := it.current;
    var r := it.Next();
    while r.Ok?
      invariant start > 0 ==> 0 <= it.current < start
      invariant r.Ok? ==> r.value == it.current + 1
      invariant r.Err? ==> it.current == if start > 0 then 0 else start
      invariant values + (if r.Ok? then [r.value] else []) + Protocols.CountdownValues(it.current)
             == Protocols.CountdownValues(start)
      decreases it.current + 1, r.Ok?
    {
      values := values + [r.value];
      r := it.Next();
    }
  }

  /** The demo: CountDown(5) yields 5, 4, 3, 2, 1; looping over it again yields nothing. */
  method CountDownDemo() returns (first: seq<int>, second: seq<int>)
    ensures first == [5, 4, 3, 2, 1]
    ensures second == []
  {
    var countdown := new CountDown(5);
    first := ForLoop(countdown);
    second := ForLoop(countdown);
  }

  /** A start of zero or below yields nothing at all. */
  method NonPositiveStart(start: int) returns (values: seq<int>)
    requires start <= 0
    ensures values == []
  {
    var countdown := new CountDown(start);
    values := ForLoop(countdown);
  }
}
