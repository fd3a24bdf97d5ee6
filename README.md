# Integer toolkit: a verified Dafny model

This project models `main.go`, a small Go teaching toolkit, in Dafny. It covers four parts of that file:

- **Checked arithmetic** (`MathOps`, `math_ops.dfy`). `Factorial`, `IsPrime` and `Power` reject an invalid argument with an error. Otherwise each runs a counting loop over an accumulator. Each loop is proved against a mathematical definition: `Fact`, `Prime` (no divisor in [2, n-1]) and `Pow`.
- **Closure factories** (`Closures`, `closures.dfy`). The closure from `MakeCounter` captures a mutable count. The three closures from `MakeAccumulator` share one mutable total. Each becomes a class whose single field is that captured variable. The factory call becomes the constructor, and each closure becomes a method with an exact frame. `MakeMultiplier` captures nothing mutable, so it stays a pure function.
- **Higher-order slice operations** (`HigherOrder`, `higher_order.dfy`). `Apply`, `Filter` and `Reduce` take the caller's slice as an `array<int>`. None of them has a modifies clause, so the caller's slice provably stays unchanged. `Apply` fills a freshly allocated array, `Filter` appends to a sequence and `Reduce` reassigns an accumulator. Each is proved equal to a recursive specification: `MapSeq`, `FilterSeq` or `FoldLeft`. `Compose` is a pure function.
- **Pointers and value parameters** (`Pointers`, `pointers.dfy`). A Go `*int` is a `Cell` object. A value parameter is a Dafny value that the callee cannot change for its caller.

`Demos` (`demos.dfy`) is client code that uses nothing but the contracts of the operations. It has three groups: the expectation tables of `main_test.go`; the cases that `main` prints (factorials, primality, powers, counters, multipliers, squares, evens and the sum over 1..10, the composition, and the pointer calls); and further examples found in neither file (a counter from -5, an empty filter, an accumulator run). It also holds general client facts: `AddThenSubtract`, `CallCounter`, and the small multiplier and swap laws.

Integers are mathematical (unbounded). Go's `int` is 64 bits wide and wraps silently. The affected members are listed under "Left out".

## Model

| member | source | states |
|---|---|---|
| MathOps.Factorial | main.go:10-21 | fails, with the source's message, exactly when n < 0; otherwise returns n! (the loop's product 2·…·n equals the recursive `Fact`, so 0! = 1! = 1) |
| MathOps.FactPositive | main.go:15-18 | every factorial is at least 1 (the accumulator starts at 1 and only multiplies by factors ≥ 2) |
| MathOps.FactMonotone | main.go:15-18 | m ≤ n implies m! ≤ n! |
| MathOps.IsPrime | main.go:23-35 | fails, with the source's message, exactly when n < 2; otherwise returns true iff n has no divisor in [2, n-1] |
| MathOps.TrialDivisionCorrect | main.go:28-34 | for n ≥ 2, "no divisor d ≥ 2 with d·d ≤ n" (the loop's test) holds iff n has no divisor in [2, n-1] |
| MathOps.SmallDivisorsSuffice | main.go:28-34 | once every i' < i has been ruled out and i·i > n, n is prime; this is why leaving the loop means "prime" |
| MathOps.CoDivisor | main.go:28-32 | a divisor d of n above the square root has the partner divisor e = n/d (so d·e = n), with e in [2, d) and e·e at most n |
| MathOps.Power | main.go:37-48 | fails, with the source's message, exactly when exponent < 0; otherwise returns base^exponent, and base^0 = 1 for every base |
| MathOps.PowAdd | main.go:42-45 | b^(m+n) = b^m · b^n for the repeated-multiplication power |
| MathOps.PowOfZeroAndOne | main.go:42-47 | 0^e = 0 for every e > 0, and 1^e = 1 for every e |
| Closures.Counter.constructor | main.go:52-53 | the hidden count starts at the factory's argument |
| Closures.Counter.Next | main.go:54-57 | raises this counter's count by exactly 1 and returns the new value; only this counter's field may change |
| Closures.Accumulator.constructor | main.go:66-67 | the shared total starts at the factory's argument |
| Closures.Accumulator.Add | main.go:69-71 | raises the shared total by x and returns nothing |
| Closures.Accumulator.Subtract | main.go:73-75 | lowers the shared total by x and returns nothing |
| Closures.Accumulator.Get | main.go:77-79 | returns the shared total; it has no modifies clause, so it changes nothing |
| Closures.MakeMultiplier | main.go:60-64 | returns the function x ↦ x·factor; it is a pure function and captures no mutable state |
| Demos.AddThenSubtract | main.go:66-82 | add(x) followed by subtract(x) restores the shared total |
| Demos.CallCounter | main.go:52-58 | k calls of a counter whose count is s return s+1, …, s+k and leave the count at s+k |
| HigherOrder.Apply | main.go:86-92 | returns a freshly allocated slice of the input's length, equal to `MapSeq(operation, nums)`; the input slice is not modified |
| HigherOrder.MapSeqAt | main.go:86-92 | the mapped sequence has the input's length, and its element k is operation(nums[k]) |
| HigherOrder.MapCompose | main.go:112-116 | mapping `Compose(f, g)` equals mapping g and then mapping f, so g is applied first |
| HigherOrder.Compose | main.go:112-116 | returns the function x ↦ f(g(x)), so g is applied first; it captures no mutable state |
| HigherOrder.ComposeAssociative | main.go:112-116 | compose(f, compose(g, h)) and compose(compose(f, g), h) agree on every input |
| HigherOrder.Filter | main.go:94-102 | returns `FilterSeq(keep, nums)`, built by appending the kept elements in order; the input slice is not modified |
| HigherOrder.FilterConcat | main.go:94-102 | filtering a concatenation gives the filtered parts in the same order, so relative order is kept |
| HigherOrder.FilterCounts | main.go:94-102 | the result is never longer than the input; a value occurs in it exactly as often as in the input when the predicate holds for it, and otherwise not at all |
| HigherOrder.FilterIdempotent | main.go:94-102 | filtering the result again with the same predicate changes nothing |
| HigherOrder.Reduce | main.go:104-110 | returns the left fold `FoldLeft(operation, initial, nums)`, which is `initial` for an empty slice |
| HigherOrder.FoldLeftConcat | main.go:104-110 | folding a + b folds a from the initial value, then folds b from that result |
| Pointers.DoubleValue | main.go:197-200 | doubles only its own copy; with no out-parameter and no modifies clause, nothing the caller can see changes |
| Pointers.DoublePointer | main.go:202-205 | doubles the pointed-to value and may change nothing else |
| Pointers.SwapValues | main.go:219-222 | returns the pair (b, a); its arguments are values, so the caller's variables change only if the caller assigns the result |
| Pointers.SwapPointers | main.go:224-227 | exchanges the two pointed-to values, and changes only those two cells; when both point to the same cell, its value stays the same |

## Left out

- `ExploreProcess` (main.go:120-161) reads the process id and the parent process id from the operating system and prints addresses. This is I/O and a foreign call, with nothing to verify.
- `CreateOnStack`, `CreateOnHeap` and `AnalyzeEscape` (main.go:208-239) illustrate Go's choice between stack and heap allocation, which a Dafny model cannot observe. `CreateOnStack` and `CreateOnHeap` only return 42 and a pointer to 100; `AnalyzeEscape` prints them.
- `main` (main.go:241-372) only prints. The values it computes before printing are restated as client methods in `Demos`. The printing and `ExploreProcess` calls are not.
- Go returns a zero value (0 or false) next to each error. `Result.Err` carries only the error message.
- MathOps.Factorial: does not model 64-bit wrap-around. It returns the exact n!, which agrees with Go only while n! fits in an int64 (n ≤ 20).
- MathOps.Power: does not model 64-bit wrap-around. It returns the exact base^exponent, which agrees with Go only while the value fits in an int64.
- MathOps.IsPrime: evaluates the guard i·i ≤ n exactly. In Go, i·i wraps once i exceeds 3037000499, so the model agrees with Go only for n < 3037000499² = 9223372030926249001.
- Closures.Counter.Next: does not model wrap-around of the count at the largest int64.
- Closures.Accumulator.Add: does not model wrap-around of the total. The same holds for `Closures.Accumulator.Subtract`.
- Closures.MakeMultiplier: multiplies mathematical integers. Go's `x * factor` wraps at 64 bits.
- Pointers.DoublePointer: does not model wrap-around of the doubled value. A nil pointer cannot be passed, because `Cell` is a non-null type. In Go, a nil pointer would panic.
- Pointers.SwapPointers: nil pointers are excluded by the non-null `Cell` type.
- The function arguments of `Apply`, `Filter`, `Reduce` and `Compose` are modelled as total, side-effect-free Dafny functions. A Go callback may have side effects or panic.
- HigherOrder.Filter: the result is a sequence value. The capacity and the sharing of the backing array that Go's `append` creates are not modelled.
- The closures are single-threaded, as in the source. Concurrent calls are outside the model.
