/** Part 2 of the toolkit: factories that hand out closures.
    A closure that owns a mutable captured variable becomes a class whose one
    field is that variable; the factory call becomes the constructor. The
    stateless multiplier stays a pure function. */
module Closures {

  /** The closure returned by MakeCounter: the captured `count`. */
  class Counter {
    var count: int

    /** MakeCounter(start): the hidden count starts at `start`. */
    constructor (start: int)
      ensures count == start
    {
      count := start;
    }

    /** One call of the closure: raise the count by one and return the new value.
        Only this counter's own field may change, so counters made by separate
        factory calls cannot affect each other. */
    method Next() returns (v: int)
      modifies this
      ensures count == old(count) + 1
      ensures v == count
    {
      count := count + 1;
      v := count;
    }
  }

  /** The three closures returned by MakeAccumulator share one captured `total`. */
  class Accumulator {
    var total: int

    /** MakeAccumulator(initial): the shared total starts at `initial`. */
    constructor (initial: int)
      ensures total == initial
    {
      total := initial;
    }

    /** The `add` closure: raises the total by x and returns nothing. */
    method Add(x: int)
      modifies this
      ensures total == old(total) + x
    {
      total := total + x;
    }

    /** The `subtract` closure: lowers the total by x and returns nothing. */
    method Subtract(x: int)
      modifies this
      ensures total == old(total) - x
    {
      total := total - x;
    }

    /** The `get` closure: reports the total; it has no modifies clause, so it
        changes nothing. */
    method Get() returns (t: int)
      ensures t == total
    {
      t := total;
    }
  }

  /** MakeMultiplier(factor): a stateless closure multiplying its input by factor. */
  function MakeMultiplier(factor: int): int -> int
  {
    x => x * factor
  }
}
