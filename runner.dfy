/** The entry point of the benchmark: validate the single load-factor
    argument, then run the three workloads in their fixed order. */
module Runner {
  import opened Sizing
  import Matrix
  import Memory

  /** What `std::stoi` does with the argument: return an `int`, or throw
      (no number at the start of the text, or one outside the `int` range).
      Its character-level parsing is not modelled. */
  datatype StoiOutcome = Parsed(value: int32) | Threw

  /** One workload invocation and the size it is given. */
  datatype Workload =
    | MatrixMultiplication(size: int)
    | MathStress(operations: int)
    | MemoryStress(elements: int)

  const EXIT_OK: int := 0
  const EXIT_INVALID_LOAD_FACTOR: int := 1

  /** The argument vector is acceptable: one argument besides the program
      name, which `std::stoi` turns into a positive `int`. */
  predicate ValidArguments(args: seq<string>, stoi: string -> StoiOutcome) {
    |args| == 2 && stoi(args[1]).Parsed? && stoi(args[1]).value > 0
  }

  /** main(argc, argv) with argc == |args|: on a bad argument vector it
      returns 1 and runs nothing; otherwise it runs the matrix workload on
      the load factor and the math and memory workloads on load factor times
      100000, in that order, and returns 0. The returned sequence records
      the workload calls and their sizes; their results are discarded, as
      in the source, so it says nothing about what the workloads compute
      (their own contracts do). */
  method Run(args: seq<string>, stoi: string -> StoiOutcome) returns (exitCode: int, ran: seq<Workload>)
    ensures exitCode == EXIT_OK || exitCode == EXIT_INVALID_LOAD_FACTOR
    ensures exitCode == EXIT_OK <==> ValidArguments(args, stoi)
    ensures exitCode == EXIT_INVALID_LOAD_FACTOR ==> ran == []
    ensures exitCode == EXIT_OK ==>
      var f := stoi(args[1]).value as int;
      ran == [MatrixMultiplication(f), MathStress(f * UNITS_PER_LOAD), MemoryStress(f * UNITS_PER_LOAD)]
  {
    if |args| != 2 {
      return EXIT_INVALID_LOAD_FACTOR, [];
    }
    var loadFactor: int32;
    match stoi(args[1]) {
      case Threw =>
        return EXIT_INVALID_LOAD_FACTOR, [];
      case Parsed(v) =>
        loadFactor := v;
    }
    if loadFactor <= 0 {
      return EXIT_INVALID_LOAD_FACTOR, [];
    }

    var matrixSize := loadFactor as int;
    var a, b, product := Matrix.MatrixWorkload(matrixSize);

    var operations := WorkloadSize(loadFactor);
    // The math workload itself (sin, cos and log over doubles) is not modelled.

    var elements := WorkloadSize(loadFactor);
    var vec, sum := Memory.MemoryWorkload(elements);

    return EXIT_OK, [MatrixMultiplication(matrixSize), MathStress(operations), MemoryStress(elements)];
  }

  /** With the sizes of Run, the memory workload's `long long` accumulator
      can hold the final sum exactly when the load factor is at most 42949. */
  lemma MemorySumFitsIff(f: int32)
    requires f > 0
    ensures Memory.Triangular(WorkloadSize(f)) <= INT64_MAX <==> f as int <= 42949
  {
    Memory.SumFitsInt64Iff(WorkloadSize(f));
  }
}
