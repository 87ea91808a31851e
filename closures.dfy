/** `createCounter`: a counter whose private count only its three
    operations can read or change. */
module Closures {

  const DEFAULT_INITIAL: int := 0

  class Counter {
    var count: int

    /** `createCounter(initial)` */
    constructor (initial: int)
      ensures count == initial
    {
      count := initial;
    }

    /** `createCounter()`: the initial count defaults to 0. */
    constructor Default()
      ensures count == DEFAULT_INITIAL
    {
      count := DEFAULT_INITIAL;
    }

    /** `++count`: adds one and returns the new count. */
    method Increment() returns (r: int)
      modifies this
      ensures count == old(count) + 1 && r == count
    {
      count := count + 1;
      r := count;
    }

    /** `--count`: subtracts one and returns the new count. */
    method Decrement() returns (r: int)
      modifies this
      ensures count == old(count) - 1 && r == count
    {
      count := count - 1;
      r := count;
    }

    /** Reads the count; changes nothing. */
    method GetCount() returns (r: int)
      ensures r == count
    {
      r := count;
    }
  }

  /** An increment followed by a decrement restores the count. */
  method IncrementThenDecrement(c: Counter) returns (up: int, down: int)
    modifies c
    ensures up == old(c.count) + 1 && down == old(c.count)
    ensures c.count == old(c.count)
  {
    up := c.Increment();
    down := c.Decrement();
  }

  /** Two counters do not share their count: `createCounter(5)` incremented
      twice reads 7 while a separate `createCounter(10)` still reads 10. */
  method CountersAreIndependent() returns (first: int, second: int)
    ensures first == 7 && second == 10
  {
    var c1 := new Counter(5);
    var c2 := new Counter(10);
    var _ := c1.Increment();
    var _ := c1.Increment();
    first := c1.GetCount();
    second := c2.GetCount();
  }
}
