/** The matrix workload: fill two n-by-n matrices by closed-form rules and
    multiply them with the naive i/j/k triple loop into a zeroed result.

    The source computes in `double`. The operands (i + 1) / 2 and
    3 * (j + 1) / 2 are exact in binary64 for every `int` index. Every
    product and partial sum is a quarter of a non-negative integer (see
    PartialSumIsQuarterInteger), so while that integer stays below 2^53 each
    of them is exact too, and the matrices are modelled over `real`. */
module Matrix {

  /** Entry (i, j) of the first operand: (i + 1) * 0.5, the same along a row. */
  function FillA(i: int): (r: real) { (i + 1) as real * 0.5 }

  /** Entry (i, j) of the second operand: (j + 1) * 1.5, the same down a column. */
  function FillB(j: int): (r: real) { (j + 1) as real * 1.5 }

  ghost predicate IsSquare(m: array2<real>, n: int) {
    m.Length0 == n && m.Length1 == n
  }

  /** Both operands have been filled by the rules above. */
  ghost predicate Filled(a: array2<real>, b: array2<real>, n: int)
    reads a, b
  {
    IsSquare(a, n) && IsSquare(b, n) &&
    (forall i, j :: 0 <= i < n && 0 <= j < n ==> a[i, j] == FillA(i)) &&
    (forall i, j :: 0 <= i < n && 0 <= j < n ==> b[i, j] == FillB(j))
  }

  /** The sum over k' < k of a[i, k'] * b[k', j]: entry (i, j) of the
      mathematical product a * b when k is the common dimension. */
  ghost function Dot(a: array2<real>, b: array2<real>, i: int, j: int, k: int): real
    requires 0 <= i < a.Length0 && 0 <= j < b.Length1
    requires 0 <= k <= a.Length1 && a.Length1 == b.Length0
    reads a, b
    decreases k
  {
    if k == 0 then 0.0 else Dot(a, b, i, j, k - 1) + a[i, k - 1] * b[k - 1, j]
  }

  /** The closed form of a product entry: (i + 1) * (j + 1) * 0.75 per term. */
  function ClosedForm(k: int, i: int, j: int): (r: real) {
    0.75 * k as real * (i + 1) as real * (j + 1) as real
  }

  /** With the fill rules, every partial dot product is the closed form. */
  lemma {:induction false} DotOfFilled(a: array2<real>, b: array2<real>, n: int, i: int, j: int, k: int)
    requires Filled(a, b, n)
    requires 0 <= i < n && 0 <= j < n && 0 <= k <= n
    ensures Dot(a, b, i, j, k) == ClosedForm(k, i, j)
  {
    if k > 0 {
      DotOfFilled(a, b, n, i, j, k - 1);
      var p := (i + 1) as real * (j + 1) as real;
      assert a[i, k - 1] * b[k - 1, j] == 0.75 * p;
      assert ClosedForm(k - 1, i, j) == 0.75 * (k - 1) as real * p;
      assert ClosedForm(k, i, j) == 0.75 * (k - 1) as real * p + 0.75 * p;
    }
  }

  lemma MulMonotone(x: int, y: int, u: int, v: int)
    requires 0 <= x <= u && 0 <= y <= v
    ensures 0 <= x * y <= u * v
  {
  }

  /** Every product and partial sum the product loop holds is c / 4 for an integer c with
      0 <= c <= 3 * n^3; hence exact in binary64 while 3 * n^3 <= 2^53. */
  lemma PartialSumIsQuarterInteger(n: int, i: int, j: int, k: int)
    requires 0 <= i < n && 0 <= j < n && 0 <= k <= n
    ensures 0 <= 3 * k * (i + 1) * (j + 1) <= 3 * n * n * n
    ensures ClosedForm(k, i, j) == (3 * k * (i + 1) * (j + 1)) as real / 4.0
  {
    MulMonotone(k, i + 1, n, n);
    MulMonotone(k * (i + 1), j + 1, n * n, n);
    var c := k * (i + 1) * (j + 1);
    assert 3 * k * (i + 1) * (j + 1) == 3 * c;
    assert ClosedForm(k, i, j) == 0.75 * c as real;
  }

  /** Fills both operands as the first double loop does. */
  method Fill(a: array2<real>, b: array2<real>, n: int)
    requires IsSquare(a, n) && IsSquare(b, n) && a != b
    modifies a, b
    ensures Filled(a, b, n)
  {
    var i := 0;
    while i < n
      invariant 0 <= i <= n
      invariant forall p, q :: 0 <= p < i && 0 <= q < n ==> a[p, q] == FillA(p)
      invariant forall p, q :: 0 <= p < i && 0 <= q < n ==> b[p, q] == FillB(q)
    {
      var j := 0;
      while j < n
        invariant 0 <= j <= n
        invariant forall p, q :: 0 <= p < i && 0 <= q < n ==> a[p, q] == FillA(p)
        invariant forall p, q :: 0 <= p < i && 0 <= q < n ==> b[p, q] == FillB(q)
        invariant forall q :: 0 <= q < j ==> a[i, q] == FillA(i) && b[i, q] == FillB(q)
      {
        a[i, j] := (i + 1) as real * 0.5;
        b[i, j] := (j + 1) as real * 1.5;
        j := j + 1;
      }
      i := i + 1;
    }
  }

  /** The triple loop: res += a * b, entry by entry in i, j, k order, on a
      result that starts at zero. The operands are only read. */
  method Multiply(a: array2<real>, b: array2<real>, res: array2<real>, n: int)
    requires IsSquare(a, n) && IsSquare(b, n) && IsSquare(res, n)
    requires res != a && res != b
    requires forall p, q :: 0 <= p < n && 0 <= q < n ==> res[p, q] == 0.0
    modifies res
    ensures forall p, q :: 0 <= p < n && 0 <= q < n ==> res[p, q] == Dot(a, b, p, q, n)
  {
    var i := 0;
    while i < n
      invariant 0 <= i <= n
      invariant forall p, q :: 0 <= p < i && 0 <= q < n ==> res[p, q] == Dot(a, b, p, q, n)
      invariant forall p, q :: i <= p < n && 0 <= q < n ==> res[p, q] == 0.0
    {
      var j := 0;
      while j < n
        invariant 0 <= j <= n
        invariant forall p, q :: 0 <= p < i && 0 <= q < n ==> res[p, q] == Dot(a, b, p, q, n)
        invariant forall q :: 0 <= q < j ==> res[i, q] == Dot(a, b, i, q, n)
        invariant forall q :: j <= q < n ==> res[i, q] == 0.0
        invariant forall p, q :: i < p < n && 0 <= q < n ==> res[p, q] == 0.0
      {
        var k := 0;
        while k < n
          invariant 0 <= k <= n
          invariant res[i, j] == Dot(a, b, i, j, k)
          invariant forall p, q :: 0 <= p < i && 0 <= q < n ==> res[p, q] == Dot(a, b, p, q, n)
          invariant forall q :: 0 <= q < j ==> res[i, q] == Dot(a, b, i, q, n)
          invariant forall q :: j < q < n ==> res[i, q] == 0.0
          invariant forall p, q :: i < p < n && 0 <= q < n ==> res[p, q] == 0.0
        {
          res[i, j] := res[i, j] + a[i, k] * b[k, j];
          k := k + 1;
        }
        j := j + 1;
      }
      i := i + 1;
    }
  }

  /** The whole matrix workload for size n. The source discards the three
      matrices; they are returned here so that their final contents can be
      stated: filled operands, and a result equal to the mathematical
      product a * b, entry (i, j) being 0.75 * n * (i + 1) * (j + 1). */
  method MatrixWorkload(n: nat) returns (a: array2<real>, b: array2<real>, res: array2<real>)
    ensures Filled(a, b, n) && IsSquare(res, n)
    ensures forall i, j :: 0 <= i < n && 0 <= j < n ==> res[i, j] == Dot(a, b, i, j, n)
    ensures forall i, j :: 0 <= i < n && 0 <= j < n ==> res[i, j] == ClosedForm(n, i, j)
  {
    a := new real[n, n]((_, _) => 0.0);
    b := new real[n, n]((_, _) => 0.0);
    res := new real[n, n]((_, _) => 0.0);
    Fill(a, b, n);
    Multiply(a, b, res, n);
    forall i, j | 0 <= i < n && 0 <= j < n
      ensures res[i, j] == ClosedForm(n, i, j)
    {
      DotOfFilled(a, b, n, i, j, n);
    }
  }

  /** The two-by-two instance: A = [[0.5, 0.5], [1.0, 1.0]],
      B = [[1.5, 3.0], [1.5, 3.0]] and A * B = [[1.5, 3.0], [3.0, 6.0]]. */
  method WorkloadOfSizeTwo() returns (ma: seq<seq<real>>, mb: seq<seq<real>>, mr: seq<seq<real>>)
    ensures ma == [[0.5, 0.5], [1.0, 1.0]]
    ensures mb == [[1.5, 3.0], [1.5, 3.0]]
    ensures mr == [[1.5, 3.0], [3.0, 6.0]]
  {
    var a, b, res := MatrixWorkload(2);
    ma := [[a[0, 0], a[0, 1]], [a[1, 0], a[1, 1]]];
    mb := [[b[0, 0], b[0, 1]], [b[1, 0], b[1, 1]]];
    mr := [[res[0, 0], res[0, 1]], [res[1, 0], res[1, 1]]];
  }
}
