/** The memory workload: write i into element i of a fresh vector of
    `count` 64-bit integers, then sum the vector in order. */
module Memory {
  import opened Sizing

  /** The first n naturals in order: what the write loop leaves in the vector. */
  function Iota(n: nat): (r: seq<int>)
    ensures |r| == n
    ensures forall i :: 0 <= i < n ==> r[i] == i
  {
    if n == 0 then [] else Iota(n - 1) + [n - 1]
  }

  /** The sum of s taken left to right, as the read loop accumulates it. */
  function Sum(s: seq<int>): (r: int) {
    if s == [] then 0 else Sum(s[..|s| - 1]) + s[|s| - 1]
  }

  /** 0 + 1 + ... + (n - 1). */
  function Triangular(n: nat): (r: int) {
    n * (n - 1) / 2
  }

  /** The sum of the vector the write loop produces is n * (n - 1) / 2. */
  lemma {:induction false} SumOfIota(n: nat)
    ensures Sum(Iota(n)) == Triangular(n)
  {
    if n > 0 {
      SumOfIota(n - 1);
      assert Iota(n)[..n - 1] == Iota(n - 1);
      TriangularStep(n);
    }
  }

  /** Adding the element n - 1 takes the sum of the first n - 1 naturals to
      that of the first n. */
  lemma TriangularStep(n: nat)
    requires n > 0
    ensures Triangular(n) == Triangular(n - 1) + (n - 1)
  {
    var m := n - 1;
    assert n * (n - 1) == (m + 1) * m;
    assert (m + 1) * m == m * m + m;
    assert (n - 1) * (n - 2) == m * m - m;
  }

  /** Partial sums grow with the prefix: every value the accumulator takes is
      at most its final value. */
  lemma {:induction false} TriangularMonotone(i: nat, n: nat)
    requires i <= n
    ensures 0 <= Triangular(i) <= Triangular(n)
    decreases n - i
  {
    if i < n {
      TriangularMonotone(i, n - 1);
      TriangularStep(n);
    }
  }

  /** The accumulator `soma` is a `long long`: the final sum, and with it
      every partial sum, fits exactly when there are at most 2^32 elements. */
  lemma SumFitsInt64Iff(count: nat)
    ensures Triangular(count) <= INT64_MAX <==> count <= 0x1_0000_0000
    ensures count <= 0x1_0000_0000 ==> forall i :: 0 <= i <= count ==> Triangular(i) <= INT64_MAX
  {
    var m := 0x1_0000_0000;
    assert Triangular(m) == INT64_MAX - 0x7FFF_FFFF;
    assert Triangular(m + 1) == INT64_MAX + 0x8000_0001;
    if count <= m {
      TriangularMonotone(count, m);
      forall i | 0 <= i <= count
        ensures Triangular(i) <= INT64_MAX
      {
        TriangularMonotone(i, m);
      }
    } else {
      TriangularMonotone(m + 1, count);
    }
  }

  /** The whole memory workload for `count` elements. The source discards
      the vector and the sum; they are returned here so that they can be
      stated: the vector holds 0, 1, ..., count - 1, the read loop leaves it
      as it is, and the sum is that of its elements, count * (count - 1) / 2. */
  method MemoryWorkload(count: nat) returns (vec: array<int>, sum: int)
    ensures vec.Length == count
    ensures vec[..] == Iota(count)
    ensures sum == Sum(vec[..])
    ensures sum == count * (count - 1) / 2
  {
    vec := new int[count](_ => 0);

    var i := 0;
    while i < count
      invariant 0 <= i <= count
      invariant forall k :: 0 <= k < i ==> vec[k] == k
    {
      vec[i] := i;
      i := i + 1;
    }
    assert vec[..] == Iota(count);

    sum := 0;
    i := 0;
    while i < count
      invariant 0 <= i <= count
      invariant vec[..] == Iota(count)
      invariant sum == Sum(vec[..i])
    {
      assert vec[..i + 1][..i] == vec[..i];
      sum := sum + vec[i];
      i := i + 1;
    }
    assert vec[..count] == vec[..];
    SumOfIota(count);
  }
}
