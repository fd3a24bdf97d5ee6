/** Part 5 of the toolkit: value parameters versus pointers.
    A Go `*int` is a Cell, a heap object holding one integer; a plain `int`
    parameter is a Dafny value, which the callee cannot change for its caller. */
module Pointers {

  /** A memory cell that a pointer refers to. */
  class Cell {
    var value: int

    constructor (v: int)
      ensures value == v
    {
      value := v;
    }
  }

  /** DoubleValue doubles its own copy of x. It has no out-parameter and no
      modifies clause, so neither the caller's variable nor any cell changes. */
  method DoubleValue(x: int)
  {
    var copy := x;
    copy := copy * 2;
  }

  /** DoublePointer doubles the pointed-to value and touches nothing else. */
  method DoublePointer(x: Cell)
    modifies x
    ensures x.value == 2 * old(x.value)
  {
    x.value := x.value * 2;
  }

  /** SwapValues returns its two arguments in the other order. */
  function SwapValues(a: int, b: int): (int, int)
  {
    (b, a)
  }

  /** SwapPointers exchanges the two pointed-to values; when both pointers name
      the same cell, that cell keeps its value. */
  method SwapPointers(a: Cell, b: Cell)
    modifies a, b
    ensures a.value == old(b.value) && b.value == old(a.value)
  {
    a.value, b.value := b.value, a.value;
  }
}
