# cpp-benchmark-simples in Dafny

A model of the core of a small CPU and memory micro-benchmark. The program
takes one load factor, runs a matrix-multiplication workload, a
math-function workload and a memory workload, times each one and prints a
report. The model covers three things: the entry validation and the sizing
done by `main`, the matrix workload (`benchmark_matrizes`) and the memory
workload (`benchmark_memoria`). Each is proved against a specification.

- `sizing.dfy` (module `Sizing`): the 32-bit `int` and the 64-bit
  `long long` of the source, with explicit two's-complement wrap-around. It
  also holds the workload size `load factor * 100000`, both as the source
  writes it (a 32-bit product) and as intended (a 64-bit product).
- `matrix.dfy` (module `Matrix`): three `n x n` matrices as `array2<real>`.
  A first double loop fills the operands. The i/j/k triple loop then
  accumulates the product into a zeroed result. The loop invariants state
  which entries are finished, which one is partly summed and which are
  still `0.0`. The result is proved equal to the mathematical product and
  to the closed form `0.75 * n * (i + 1) * (j + 1)`.
- `memory.dfy` (module `Memory`): the write loop leaves `vec[i] == i`. The
  read loop does not change the vector and sums it to `count * (count - 1) / 2`.
  A lemma states exactly when that sum fits the `long long` accumulator.
- `runner.dfy` (module `Runner`): `main` as `Run`. It returns exit code 1
  and runs nothing unless there is exactly one argument and `std::stoi`
  turns it into a positive `int`. Otherwise it runs the three workloads in
  order with their sizes and returns 0.

The source computes the matrices in `double`. The operands `(i + 1) / 2`
and `3 * (j + 1) / 2` are exact in binary64 for every `int` index. Every
product and partial sum is a quarter of a non-negative integer at most
`3 * n^3` (`Matrix.PartialSumIsQuarterInteger`). Such a value is exact in binary64
whenever `3 * n^3 <= 2^53`, that is for `n <= 144263`. At that size the
matrices would take about 500 GB, so the `real` model is exact for every
size the program can actually run.

`std::stoi` is a parameter of `Run`, of type `string -> StoiOutcome`. It
either returns an `int` or throws. Standard output and standard error, the
clock and the math library are not modelled.

## Model

| member | source | states |
|---|---|---|
| `Sizing.WrapInt32` | benchmark.cpp:106 | the 32-bit result lies in the `int` range, is congruent to the exact value modulo 2^32, and equals it when the exact value fits |
| `Sizing.WrapInt64` | benchmark.cpp:106 | the same for a 64-bit `long long` |
| `Sizing.AsWrittenSize` | benchmark.cpp:106 | `fator_carga * 100000` as written, in `int`: in the 32-bit range and congruent to the exact product modulo 2^32 |
| `Sizing.WorkloadSize` | benchmark.cpp:115 | the size evaluated in `long long`: exactly load factor times 100000, inside the `long long` range, and at least 100000 for a positive load factor |
| `Sizing.AsWrittenSizeExactIff` | benchmark.cpp:106 | for a positive load factor, the 32-bit product equals the intended size if and only if the load factor is at most 21474 |
| `Sizing.OverflowAt21475` | benchmark.cpp:115 | a load factor of 21475 should give 2147500000 but the 32-bit product gives -2147467296 |
| `Matrix.DotOfFilled` | benchmark.cpp:18-32 | with the fill rules, the partial dot product of row i and column j over the first k terms is `0.75 * k * (i + 1) * (j + 1)` |
| `Matrix.PartialSumIsQuarterInteger` | benchmark.cpp:20-29 | each partial sum is c / 4 for an integer c with 0 <= c <= 3 * n^3, so it is exact in `double` while 3 * n^3 <= 2^53 |
| `Matrix.Fill` | benchmark.cpp:18-23 | afterwards `a[i, j] == (i + 1) * 0.5` and `b[i, j] == (j + 1) * 1.5` for all i, j < n |
| `Matrix.Multiply` | benchmark.cpp:26-32 | starting from a zero result and reading the operands only, it leaves every `res[i, j]` equal to the sum over k of `a[i, k] * b[k, j]`. Its loop invariants say that entries already passed hold the full sum, the current one holds the partial sum over `k' < k`, and the rest are still `0.0` |
| `Matrix.MatrixWorkload` | benchmark.cpp:11-33 | the operands follow the fill rules, the result is n x n, equals the mathematical product a * b, and its entry (i, j) is `0.75 * n * (i + 1) * (j + 1)` |
| `Matrix.WorkloadOfSizeTwo` | benchmark.cpp:11-33 | for n = 2: A = [[0.5, 0.5], [1.0, 1.0]], B = [[1.5, 3.0], [1.5, 3.0]], A * B = [[1.5, 3.0], [3.0, 6.0]] |
| `Memory.Iota` | benchmark.cpp:55-57 | the contents left by the write loop: n elements, element i being i |
| `Memory.SumOfIota` | benchmark.cpp:55-63 | the sum of 0, 1, ..., n - 1 is `n * (n - 1) / 2` |
| `Memory.TriangularStep` | benchmark.cpp:61-63 | one step of the read loop: adding element n - 1 takes `Triangular(n - 1)` to `Triangular(n)` |
| `Memory.TriangularMonotone` | benchmark.cpp:60-63 | each partial sum taken by the read loop is at most its final sum |
| `Memory.SumFitsInt64Iff` | benchmark.cpp:60-63 | the final sum fits `long long` if and only if there are at most 2^32 elements, and then every partial sum fits too |
| `Memory.MemoryWorkload` | benchmark.cpp:50-66 | the vector has exactly `count` elements, element i holds i, the read loop leaves it unchanged, and the sum is both the sum of its elements and `count * (count - 1) / 2` |
| `Runner.Run` | benchmark.cpp:71-118 | the exit code is 0 or 1. It is 0 if and only if there is exactly one argument and `std::stoi` turns it into an `int` greater than 0. On exit 1 no workload runs. On exit 0 the matrix, math and memory workloads run in that order, with sizes f, f * 100000 and f * 100000 |
| `Runner.MemorySumFitsIff` | benchmark.cpp:115-118 | with those sizes, the memory sum fits `long long` if and only if the load factor is at most 42949 |

## Left out

- `benchmark_matematica` (benchmark.cpp:37-46) is left out. Its value comes from a chain of `sin`, `cos` and `log` on doubles and depends on how the math library rounds. `Run` records that the workload runs and with how many operations, and nothing more.
- The anti-dead-code guards `valor == 123.0` and `soma == 123` are left out. They only affect the compiler's optimisation.
- All `std::chrono` timing, the duration arithmetic, and every console message, banner, flush and `std::setprecision(2)` format are I/O and are left out.
- `std::stoi`'s handling of whitespace, signs, trailing characters and out-of-range values is left out. Only its outcome is modelled: an `int`, or an exception.
- Allocation failure of the `std::vector` constructors is not modelled. A negative size would throw in the same way, so `Matrix.MatrixWorkload` and `Memory.MemoryWorkload` take `nat` sizes. With the sizing of `Run` they are always positive.
- `Matrix.MatrixWorkload`: computes over `real` instead of `double`. This is exact only while 3 * n^3 <= 2^53 (`Matrix.PartialSumIsQuarterInteger`). Rounding for larger n is not modelled.
- `Matrix.MatrixWorkload`: the source's `vector<vector<double>>` becomes `array2<real>`, so there are no separate row objects. The source never aliases its rows. The fill loop and the triple loop are the methods `Matrix.Fill` and `Matrix.Multiply`.
- `Memory.MemoryWorkload`: the accumulator `soma` is an unbounded integer. A wrap-around past 2^63 - 1 is not modelled. `Memory.SumFitsInt64Iff` states exactly when it cannot happen.
- `Matrix.MatrixWorkload` and `Memory.MemoryWorkload`: the source discards the matrices, the vector and the sum. The model returns them so that their final values can be stated.
- `Runner.Run`: the workload sizes are the intended 64-bit product `Sizing.WorkloadSize`, not the 32-bit product of the source (see Findings). By `Sizing.AsWrittenSizeExactIff` the two agree for every load factor up to 21474. For larger ones the source overflows a signed `int`, which is undefined behaviour in C++.

## Findings

| source | as written | input that shows it | evidently intended | confidence | as-written member | corrected member |
|---|---|---|---|---|---|---|
| benchmark.cpp:106 | `long long num_operacoes = fator_carga * 100000;` multiplies in `int`, and so does line 115; the result is widened to `long long` only afterwards | load factor 21475 (any load factor above 21474): the product 2147500000 overflows `int`. This is undefined behaviour; a two's-complement machine yields -2147467296, so the math loop runs no iteration and the memory vector cannot be constructed | the product evaluated in `long long`, giving exactly load factor times 100000 (the variables are `long long` and the printed counts say so) | not executed | `Sizing.OverflowAt21475` | `Sizing.WorkloadSize` |
