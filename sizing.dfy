/** Machine integers of the benchmark and the sizing of its two
    iteration-count workloads: load factor times 100000. */
module Sizing {

  const INT32_HALF: int := 0x8000_0000
  const INT64_HALF: int := 0x8000_0000_0000_0000
  const INT64_MAX: int := INT64_HALF - 1

  /** A C++ `int`: 32 bits on every platform the benchmark targets. */
  newtype int32 = x: int | -0x8000_0000 <= x < 0x8000_0000

  /** Iterations (math workload) and elements (memory workload) per unit of load. */
  const UNITS_PER_LOAD: int := 100000

  /** The largest load factor whose workload size still fits in an `int`. */
  const LARGEST_EXACT_LOAD: int := 21474

  /** What a two's-complement machine keeps of x in a 32-bit register:
      the value of [-2^31, 2^31) congruent to x modulo 2^32. */
  function WrapInt32(x: int): (r: int)
    ensures -INT32_HALF <= r < INT32_HALF
    ensures (x - r) % 0x1_0000_0000 == 0
    ensures -INT32_HALF <= x < INT32_HALF ==> r == x
  {
    (x + 0x8000_0000) % 0x1_0000_0000 - 0x8000_0000
  }

  /** The same for a 64-bit register (`long long`). */
  function WrapInt64(x: int): (r: int)
    ensures -INT64_HALF <= r < INT64_HALF
    ensures (x - r) % 0x1_0000_0000_0000_0000 == 0
    ensures -INT64_HALF <= x < INT64_HALF ==> r == x
  {
    (x + 0x8000_0000_0000_0000) % 0x1_0000_0000_0000_0000 - 0x8000_0000_0000_0000
  }

  /** The workload size as written: `fator_carga * 100000` is evaluated in
      `int` and only the (wrapped) 32-bit result is widened to `long long`. */
  function AsWrittenSize(f: int32): (r: int)
    ensures -INT32_HALF <= r < INT32_HALF
    ensures (f as int * UNITS_PER_LOAD - r) % 0x1_0000_0000 == 0
  {
    WrapInt32(f as int * UNITS_PER_LOAD)
  }

  /** The workload size as intended: the product evaluated in `long long`.
      The 64-bit multiplication never wraps, so the size is exactly the
      load factor times 100000 and fits in `long long`. */
  function WorkloadSize(f: int32): (r: int)
    ensures r == f as int * UNITS_PER_LOAD
    ensures -INT64_HALF <= r <= INT64_MAX
    ensures f > 0 ==> r >= UNITS_PER_LOAD
  {
    WrapInt64(f as int * UNITS_PER_LOAD)
  }

  /** For a positive load factor the 32-bit product is the intended size
      exactly when the load factor is at most 21474. */
  lemma AsWrittenSizeExactIff(f: int32)
    requires f > 0
    ensures AsWrittenSize(f) == WorkloadSize(f) <==> f as int <= LARGEST_EXACT_LOAD
  {
  }

  /** The smallest load factor the 32-bit product gets wrong: it yields a
      negative size, so the math loop would run no iteration and the memory
      vector could not be constructed. */
  lemma OverflowAt21475()
    ensures WorkloadSize(21475) == 2147500000
    ensures AsWrittenSize(21475) == -2147467296
  {
  }
}
