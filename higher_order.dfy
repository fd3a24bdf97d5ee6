/** Part 3 of the toolkit: higher-order operations over integer slices.
    A slice handed in by the caller is an array the methods read but may not
    modify (none of them has a modifies clause). Each loop is proved against a
    recursive definition: MapSeq, FilterSeq and FoldLeft. */
module HigherOrder {

  // ---------------------------------------------------------------------
  // Specifications

  /** f applied to every element, in order. */
  function MapSeq(f: int -> int, s: seq<int>): seq<int>
  {
    if s == [] then [] else [f(s[0])] + MapSeq(f, s[1..])
  }

  /** The elements satisfying p, in their original order. */
  function FilterSeq(p: int -> bool, s: seq<int>): seq<int>
  {
    if s == [] then []
    else (if p(s[0]) then [s[0]] else []) + FilterSeq(p, s[1..])
  }

  /** Left fold: start at acc and combine with each element from the front. */
  function FoldLeft(op: (int, int) -> int, acc: int, s: seq<int>): int
    decreases |s|
  {
    if s == [] then acc else FoldLeft(op, op(acc, s[0]), s[1..])
  }

  /** Function composition: g first, then f. */
  function Compose(f: int -> int, g: int -> int): int -> int
  {
    x => f(g(x))
  }

  // ---------------------------------------------------------------------
  // Properties of the specifications

  /** Mapping keeps the length and sends element k to f of element k. */
  lemma {:induction false} MapSeqAt(f: int -> int, s: seq<int>, k: int)
    requires 0 <= k < |s|
    ensures |MapSeq(f, s)| == |s|
    ensures MapSeq(f, s)[k] == f(s[k])
  {
    if k > 0 {
      MapSeqAt(f, s[1..], k - 1);
    } else if |s| > 1 {
      MapSeqAt(f, s[1..], 0);
    }
  }

  /** Mapping a composition is mapping g and then mapping f over the result. */
  lemma {:induction false} MapCompose(f: int -> int, g: int -> int, s: seq<int>)
    ensures MapSeq(Compose(f, g), s) == MapSeq(f, MapSeq(g, s))
  {
    if s != [] {
      MapCompose(f, g, s[1..]);
      assert MapSeq(g, s)[1..] == MapSeq(g, s[1..]);
    }
  }

  /** Composition is associative, pointwise. */
  lemma ComposeAssociative(f: int -> int, g: int -> int, h: int -> int, x: int)
    ensures Compose(f, Compose(g, h))(x) == Compose(Compose(f, g), h)(x)
  {
  }

  /** Filtering a concatenation filters each part and keeps them in order. */
  lemma {:induction false} FilterConcat(p: int -> bool, a: seq<int>, b: seq<int>)
    ensures FilterSeq(p, a + b) == FilterSeq(p, a) + FilterSeq(p, b)
  {
    if a != [] {
      assert (a + b)[1..] == a[1..] + b;
      FilterConcat(p, a[1..], b);
    } else {
      assert a + b == b;
    }
  }

  /** Filtering never lengthens; each value x occurs in the result exactly as
      often as in the input when p(x) holds, and not at all otherwise. */
  lemma {:induction false} FilterCounts(p: int -> bool, s: seq<int>)
    ensures |FilterSeq(p, s)| <= |s|
    ensures forall x :: multiset(FilterSeq(p, s))[x] == if p(x) then multiset(s)[x] else 0
  {
    if s != [] {
      FilterCounts(p, s[1..]);
      assert s == [s[0]] + s[1..];
      assert multiset(s) == multiset([s[0]]) + multiset(s[1..]);
    }
  }

  /** Filtering twice with the same predicate is filtering once. */
  lemma {:induction false} FilterIdempotent(p: int -> bool, s: seq<int>)
    ensures FilterSeq(p, FilterSeq(p, s)) == FilterSeq(p, s)
  {
    if s != [] {
      FilterIdempotent(p, s[1..]);
      FilterConcat(p, if p(s[0]) then [s[0]] else [], FilterSeq(p, s[1..]));
    }
  }

  /** Folding a concatenation folds the first part, then continues with the second. */
  lemma {:induction false} FoldLeftConcat(op: (int, int) -> int, acc: int, a: seq<int>, b: seq<int>)
    ensures FoldLeft(op, acc, a + b) == FoldLeft(op, FoldLeft(op, acc, a), b)
    decreases |a|
  {
    if a != [] {
      assert (a + b)[1..] == a[1..] + b;
      FoldLeftConcat(op, op(acc, a[0]), a[1..], b);
    } else {
      assert a + b == b;
    }
  }

  // ---------------------------------------------------------------------
  // The operations

  /** Apply: a new slice of the same length whose element i is operation(nums[i]). */
  method Apply(nums: array<int>, operation: int -> int) returns (result: array<int>)
    ensures fresh(result)
    ensures result.Length == nums.Length
    ensures result[..] == MapSeq(operation, nums[..])
  {
    result := new int[nums.Length];
    for i := 0 to nums.Length
      invariant forall k :: 0 <= k < i ==> result[k] == operation(nums[k])
    {
      result[i] := operation(nums[i]);
    }
    forall k | 0 <= k < nums.Length
      ensures |MapSeq(operation, nums[..])| == nums.Length
      ensures result[k] == MapSeq(operation, nums[..])[k]
    {
      MapSeqAt(operation, nums[..], k);
    }
    if nums.Length == 0 {
      assert nums[..] == [];
    }
  }

  /** Filter: appends, in order, each element for which keep (the predicate) holds. */
  method Filter(nums: array<int>, keep: int -> bool) returns (result: seq<int>)
    ensures result == FilterSeq(keep, nums[..])
  {
    result := [];
    for i := 0 to nums.Length
      invariant result == FilterSeq(keep, nums[..i])
    {
      FilterConcat(keep, nums[..i], [nums[i]]);
      assert nums[..i + 1] == nums[..i] + [nums[i]];
      if keep(nums[i]) {
        result := result + [nums[i]];
      }
    }
    assert nums[..nums.Length] == nums[..];
  }

  /** Reduce: acc starts at initial and becomes operation(acc, n) for each n in order. */
  method Reduce(nums: array<int>, initial: int, operation: (int, int) -> int) returns (acc: int)
    ensures acc == FoldLeft(operation, initial, nums[..])
  {
    acc := initial;
    for i := 0 to nums.Length
      invariant acc == FoldLeft(operation, initial, nums[..i])
    {
      FoldLeftConcat(operation, initial, nums[..i], [nums[i]]);
      assert nums[..i + 1] == nums[..i] + [nums[i]];
      acc := operation(acc, nums[i]);
    }
    assert nums[..nums.Length] == nums[..];
  }
}
