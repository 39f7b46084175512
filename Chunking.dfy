/** `Session._trunk`: consecutive slices of a list, `n` elements each, the
    last one possibly shorter. */
module Chunking {
  import opened Seqs

  function Min(a: int, b: int): int { if a <= b then a else b }

  /** The slices `_trunk(xs, n)` yields. Python's `range` refuses a zero
      step, and with a negative step `range(0, len(xs), n)` is empty. */
  function Trunk<T>(xs: seq<T>, n: int): (r: seq<seq<T>>)
    requires n != 0
    ensures n < 0 ==> r == []
    ensures forall k :: 0 <= k < |r| ==> 0 < |r[k]| <= n
    decreases |xs|
  {
    if n < 0 || |xs| == 0 then []
    else if |xs| <= n then [xs]
    else [xs[..n]] + Trunk(xs[n..], n)
  }

  /** The generator's loop: `i` steps through `range(0, len(xs), n)` and each
      step yields `xs[i:i + n]`, which the slice cuts short at the end. */
  method TrunkSlices<T>(xs: seq<T>, n: int) returns (slices: seq<seq<T>>)
    requires n != 0
    ensures slices == Trunk(xs, n)
  {
    slices := [];
    if n < 0 {
      return;
    }
    var i := 0;
    while i < |xs|
      invariant 0 <= i
      invariant slices + Trunk(xs[Min(i, |xs|)..], n) == Trunk(xs, n)
      decreases |xs| - i
    {
      TrunkStep(xs, n, i);
      slices := slices + [xs[i..Min(i + n, |xs|)]];
      i := i + n;
    }
    assert xs[Min(i, |xs|)..] == [];
  }

  /** One step of the generator: the slices from `i` on are `xs[i:i + n]`
      followed by the slices from `i + n` on. */
  lemma TrunkStep<T>(xs: seq<T>, n: int, i: nat)
    requires n > 0 && i < |xs|
    ensures Trunk(xs[i..], n) == [xs[i..Min(i + n, |xs|)]] + Trunk(xs[Min(i + n, |xs|)..], n)
  {
    var rest := xs[i..];
    if |rest| > n {
      assert rest[..n] == xs[i..i + n];
      assert rest[n..] == xs[i + n..];
    } else {
      assert Min(i + n, |xs|) == |xs| && rest == xs[i..|xs|];
      assert xs[|xs|..] == [];
    }
  }

  /** Concatenating the slices, in order, gives back the list. */
  lemma {:induction false} TrunkFlatten<T>(xs: seq<T>, n: int)
    requires n > 0
    ensures Flatten(Trunk(xs, n)) == xs
    ensures Trunk(xs, n) == [] <==> xs == []
    decreases |xs|
  {
    if |xs| > n {
      TrunkFlatten(xs[n..], n);
      assert xs[..n] + xs[n..] == xs;
    }
  }

  /** Every slice but the last has exactly `n` elements, the last between 1
      and `n`, and there are ceil(len(xs) / n) of them. */
  lemma {:induction false} TrunkSizes<T>(xs: seq<T>, n: int)
    requires n > 0
    ensures |Trunk(xs, n)| == (|xs| + n - 1) / n
    ensures forall k :: 0 <= k < |Trunk(xs, n)| - 1 ==> |Trunk(xs, n)[k]| == n
    ensures |Trunk(xs, n)| > 0 ==> 1 <= |Trunk(xs, n)[|Trunk(xs, n)| - 1]| <= n
    decreases |xs|
  {
    if |xs| == 0 {
    } else if |xs| <= n {
      assert (|xs| + n - 1) / n == 1 by {
        assert n <= |xs| + n - 1 < 2 * n;
      }
    } else {
      var rest := xs[n..];
      TrunkSizes(rest, n);
      assert Trunk(xs, n) == [xs[..n]] + Trunk(rest, n);
      DivShift(|rest| + n - 1, n);
    }
  }

  lemma DivShift(a: int, n: int)
    requires a >= 0 && n > 0
    ensures (a + n) / n == a / n + 1
  {
    var q, r := a / n, a % n;
    assert a + n == (q + 1) * n + r;
    DivUnique(a + n, n, q + 1, r);
  }

  /** Euclidean division has one quotient. */
  lemma DivUnique(x: int, n: int, q: int, r: int)
    requires n > 0 && 0 <= r < n && x == q * n + r
    ensures x / n == q
  {
    var q', r' := x / n, x % n;
    assert (q - q') * n == r' - r;
    if q > q' {
      MulAtLeast(q - q', n);
      assert false;
    } else if q < q' {
      MulAtLeast(q' - q, n);
      assert false;
    }
  }

  lemma MulAtLeast(d: int, n: int)
    requires d >= 1 && n > 0
    ensures d * n >= n
  {
  }

  /** Slice `k` is `xs[k*n : min((k+1)*n, len(xs))]`: the slices do not
      overlap and follow the input order. */
  lemma {:induction false} TrunkSliceAt<T>(xs: seq<T>, n: int, k: nat)
    requires n > 0
    requires k < |Trunk(xs, n)|
    ensures k * n < |xs|
    ensures Trunk(xs, n)[k] == xs[k * n .. Min((k + 1) * n, |xs|)]
    decreases |xs|
  {
    if k > 0 {
      assert |xs| > n;
      var rest := xs[n..];
      assert Trunk(xs, n) == [xs[..n]] + Trunk(rest, n);
      TrunkSliceAt(rest, n, k - 1);
      var lo, hi := (k - 1) * n, Min(k * n, |rest|);
      assert lo + n == k * n && k * n + n == (k + 1) * n;
      assert hi + n == Min((k + 1) * n, |xs|);
      assert rest[lo..hi] == xs[n..][lo..hi];
      SliceShift(xs, n, lo, hi);
    }
  }

  /** A slice of a suffix is a slice of the whole, shifted by the cut. */
  lemma SliceShift<T>(xs: seq<T>, n: nat, lo: nat, hi: nat)
    requires n <= |xs| && lo <= hi <= |xs| - n
    ensures xs[n..][lo..hi] == xs[lo + n..hi + n]
  {
  }
}
