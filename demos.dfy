/** Client code, checked against the contracts of the toolkit's operations
    alone. It holds three groups: the expectation tables of main_test.go, the
    scenarios that main (main.go:241-372) prints, and further examples and
    client-level facts that neither of those files contains. */
module Demos {
  import opened MathOps
  import opened Closures
  import opened HigherOrder
  import opened Pointers

  // ---------------------------------------------------------------------
  // The expectation tables of main_test.go

  /** The factorial table: 0, 1, 3, 5, 7 and the rejected -1. */
  method FactorialTable()
  {
    var r := Factorial(0);
    assert r == Ok(1);
    r := Factorial(1);
    assert r == Ok(1);
    r := Factorial(3);
    assert r == Ok(6);
    r := Factorial(5);
    assert r == Ok(120);
    r := Factorial(7);
    assert r == Ok(5040);
    r := Factorial(-1);
    assert r.Err?;
  }

  /** The primality table: 2, 3, 17 prime; 4, 20 not; 1 and -5 rejected. */
  method IsPrimeTable()
  {
    var r := IsPrime(2);
    SmallDivisorsSuffice(2, 2);
    assert r == Ok(true);
    r := IsPrime(3);
    SmallDivisorsSuffice(3, 2);
    assert r == Ok(true);
    r := IsPrime(4);
    assert Divides(2, 4);
    assert r == Ok(false);
    r := IsPrime(17);
    forall d | 2 <= d < 5
      ensures !Divides(d, 17)
    {
      assert d == 2 || d == 3 || d == 4;
    }
    SmallDivisorsSuffice(17, 5);
    assert r == Ok(true);
    r := IsPrime(20);
    assert Divides(2, 20);
    assert r == Ok(false);
    r := IsPrime(1);
    assert r.Err?;
    r := IsPrime(-5);
    assert r.Err?;
  }

  /** The power table: 2^3, 5^0, 0^5, 1^10 and the rejected exponent -1. */
  method PowerTable()
  {
    var r := Power(2, 3);
    assert r == Ok(8);
    r := Power(5, 0);
    assert r == Ok(1);
    r := Power(0, 5);
    assert r == Ok(0);
    r := Power(1, 10);
    PowOfZeroAndOne(10);
    assert r == Ok(1);
    r := Power(2, -1);
    assert r.Err?;
  }

  // ---------------------------------------------------------------------
  // The scenarios main prints

  /** Factorials of 0, 5, 10; primality of 17, 20, 25; powers 2^8 and 5^3. */
  method MathScenario()
  {
    var f := Factorial(0);
    assert f == Ok(1);
    f := Factorial(5);
    assert f == Ok(120);
    f := Factorial(10);
    assert f == Ok(3628800);

    var p := IsPrime(17);
    forall d | 2 <= d < 5
      ensures !Divides(d, 17)
    {
      assert d == 2 || d == 3 || d == 4;
    }
    SmallDivisorsSuffice(17, 5);
    assert p == Ok(true);
    p := IsPrime(20);
    assert Divides(2, 20);
    assert p == Ok(false);
    p := IsPrime(25);
    assert Divides(5, 25);
    assert p == Ok(false);

    var w := Power(2, 8);
    assert w == Ok(256);
    w := Power(5, 3);
    assert w == Ok(125);
  }

  /** Counter A from 0 called three times, counter B from 100 called twice,
      and the doubler and tripler applied to 5. */
  method ClosureScenario()
  {
    var counterA := new Counter(0);
    var counterB := new Counter(100);
    var a1 := counterA.Next();
    var a2 := counterA.Next();
    var a3 := counterA.Next();
    var b1 := counterB.Next();
    var b2 := counterB.Next();
    assert [a1, a2, a3] == [1, 2, 3];
    assert [b1, b2] == [101, 102];

    var doubler, tripler := MakeMultiplier(2), MakeMultiplier(3);
    assert doubler(5) == 10 && tripler(5) == 15;
  }

  /** The squares of 1, ..., 10. */
  method SquaresScenario()
  {
    var nums := new int[] [1, 2, 3, 4, 5, 6, 7, 8, 9, 10];
    var square := x => x * x;
    var squared := Apply(nums, square);
    forall k | 0 <= k < 10
      ensures |squared[..]| == 10 && squared[k] == nums[k] * nums[k]
    {
      MapSeqAt(square, nums[..], k);
    }
    assert squared[..] == [1, 4, 9, 16, 25, 36, 49, 64, 81, 100];
  }

  /** The predicate main passes to Filter. */
  predicate IsEven(x: int)
  {
    x % 2 == 0
  }

  /** The even numbers among 1, ..., 10. */
  method EvensScenario()
  {
    var nums := new int[] [1, 2, 3, 4, 5, 6, 7, 8, 9, 10];
    assert nums[..] == [1, 2, 3, 4, 5] + [6, 7, 8, 9, 10];
    var evens := Filter(nums, IsEven);
    assert FilterSeq(IsEven, [1, 2, 3, 4, 5]) == [2, 4] by {
      assert FilterSeq(IsEven, [5]) == [];
      assert FilterSeq(IsEven, [4, 5]) == [4];
      assert FilterSeq(IsEven, [3, 4, 5]) == [4];
      assert FilterSeq(IsEven, [2, 3, 4, 5]) == [2, 4];
    }
    assert FilterSeq(IsEven, [6, 7, 8, 9, 10]) == [6, 8, 10] by {
      assert FilterSeq(IsEven, [10]) == [10];
      assert FilterSeq(IsEven, [9, 10]) == [10];
      assert FilterSeq(IsEven, [8, 9, 10]) == [8, 10];
      assert FilterSeq(IsEven, [7, 8, 9, 10]) == [8, 10];
    }
    FilterConcat(IsEven, [1, 2, 3, 4, 5], [6, 7, 8, 9, 10]);
    assert evens == [2, 4, 6, 8, 10];
  }

  /** The sum of 1, ..., 10, folded from 0. */
  method SumScenario()
  {
    var nums := new int[] [1, 2, 3, 4, 5, 6, 7, 8, 9, 10];
    assert nums[..] == [1, 2, 3, 4, 5, 6, 7, 8, 9, 10];
    var add := (acc, n) => acc + n;
    var sum := Reduce(nums, 0, add);
    assert FoldLeft(add, 0, [1, 2, 3, 4, 5, 6, 7, 8, 9, 10])
      == FoldLeft(add, 1, [2, 3, 4, 5, 6, 7, 8, 9, 10])
      == FoldLeft(add, 3, [3, 4, 5, 6, 7, 8, 9, 10])
      == FoldLeft(add, 6, [4, 5, 6, 7, 8, 9, 10])
      == FoldLeft(add, 10, [5, 6, 7, 8, 9, 10])
      == FoldLeft(add, 15, [6, 7, 8, 9, 10])
      == FoldLeft(add, 21, [7, 8, 9, 10])
      == FoldLeft(add, 28, [8, 9, 10])
      == FoldLeft(add, 36, [9, 10])
      == FoldLeft(add, 45, [10])
      == FoldLeft(add, 55, []) == 55;
    assert sum == 55;
  }

  /** Doubling and then adding ten, applied to 5. */
  method ComposeScenario()
  {
    var doubleThenAddTen := Compose(x => x + 10, x => x * 2);
    assert doubleThenAddTen(5) == 20;
  }

  /** Value parameters leave the caller's variables alone; pointers do not. */
  method PointerScenario()
  {
    var num1 := 10;
    DoubleValue(num1);
    assert num1 == 10;
    var num2 := new Cell(10);
    DoublePointer(num2);
    assert num2.value == 20;

    var a, b := 5, 10;
    var swapped := SwapValues(a, b);
    a, b := swapped.0, swapped.1;
    assert a == 10 && b == 5;

    // Part 6 calls SwapValues and discards its result.
    var a6, b6 := 3, 7;
    var _ := SwapValues(a6, b6);
    assert a6 == 3 && b6 == 7;

    var c := new Cell(5);
    var d := new Cell(10);
    SwapPointers(c, d);
    assert c.value == 10 && d.value == 5;

    // Part 6 swaps 3 and 7 through pointers.
    var c6 := new Cell(3);
    var d6 := new Cell(7);
    SwapPointers(c6, d6);
    assert c6.value == 7 && d6.value == 3;
  }
  // ---------------------------------------------------------------------
  // Further examples and client-level facts

  /** A counter from -5 called four times, an empty slice filtered, and an
      accumulator from 100 after +50, +25 and -30. */
  method FurtherExamples()
  {
    var down := new Counter(-5);
    var values := CallCounter(down, 4);
    assert values == [-4, -3, -2, -1];

    var none := new int[0];
    assert none[..] == [];
    var nothing := Filter(none, x => x % 2 == 0);
    assert nothing == [];

    var acc := new Accumulator(100);
    acc.Add(50);
    acc.Add(25);
    acc.Subtract(30);
    var total := acc.Get();
    assert total == 145;
  }

  /** Adding x and then subtracting x restores the shared total. */
  method AddThenSubtract(acc: Accumulator, x: int)
    modifies acc
    ensures acc.total == old(acc.total)
  {
    acc.Add(x);
    acc.Subtract(x);
  }

  /** Calling a counter k times yields start+1, ..., start+k, where start is
      its count before the first of these calls. */
  method CallCounter(c: Counter, k: nat) returns (values: seq<int>)
    modifies c
    ensures |values| == k
    ensures forall j :: 0 <= j < k ==> values[j] == old(c.count) + j + 1
    ensures c.count == old(c.count) + k
  {
    values := [];
    while |values| < k
      invariant |values| <= k
      invariant forall j :: 0 <= j < |values| ==> values[j] == old(c.count) + j + 1
      invariant c.count == old(c.count) + |values|
    {
      var v := c.Next();
      values := values + [v];
    }
  }

  /** Multiplying by a and then by b is the same as one multiplier by a * b. */
  lemma MultipliersCompose(a: int, b: int, x: int)
    ensures MakeMultiplier(b)(MakeMultiplier(a)(x)) == MakeMultiplier(a * b)(x)
  {
  }

  /** The multiplier by 1 is the identity and the multiplier by 0 is constant 0. */
  lemma MultiplierUnits(x: int)
    ensures MakeMultiplier(1)(x) == x
    ensures MakeMultiplier(0)(x) == 0
  {
  }

  /** Swapping the returned pair once more gives back the original pair, and
      the pair holds the same two values. */
  lemma SwapValuesInvolution(a: int, b: int)
    ensures SwapValues(SwapValues(a, b).0, SwapValues(a, b).1) == (a, b)
    ensures multiset{SwapValues(a, b).0, SwapValues(a, b).1} == multiset{a, b}
  {
  }
}
