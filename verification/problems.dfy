/**
 * Problems, solver options and the pieces of text every solver builds its
 * artifact name and script from.
 *
 * Each Problem constructor corresponds to one Problem class of the package and
 * carries that class's constructor arguments; the base problem's dimensions
 * and direction are derived from them.
 */
module Problems {
  import opened Common
  import opened Text
  import opened Config

  datatype Problem =
    | DftProblem(n: int, dir: Direction)
    | MddftProblem(ns: seq<int>, dir: Direction)
    | MdprdftProblem(ns: seq<int>, dir: Direction)
    | PrdftProblem(n: int, dir: Direction, batchDims: seq<int>, readStride: int, writeStride: int)
    | BatchMddftProblem(ns: seq<int>, batchSz: int, dir: Direction)
    | MdrconvProblem(n: int)
    | MdrfsconvProblem(n: int)
    | StepPhaseProblem(n: int)
    | HockneyProblem(n: int, nSrc: int, nDst: int)

  /** The solver classes; each accepts exactly one Problem class. */
  datatype SolverKind =
    | DftSolver | MddftSolver | MdprdftSolver | PrdftSolver | BatchMddftSolver
    | MdrconvSolver | MdrfsconvSolver | StepPhaseSolver | HockneySolver

  /** The `isinstance` test each solver constructor performs first. */
  predicate Accepts(kind: SolverKind, p: Problem)
  {
    match kind
    case DftSolver => p.DftProblem?
    case MddftSolver => p.MddftProblem?
    case MdprdftSolver => p.MdprdftProblem?
    case PrdftSolver => p.PrdftProblem?
    case BatchMddftSolver => p.BatchMddftProblem?
    case MdrconvSolver => p.MdrconvProblem?
    case MdrfsconvSolver => p.MdrfsconvProblem?
    case StepPhaseSolver => p.StepPhaseProblem?
    case HockneySolver => p.HockneyProblem?
  }

  /** Every problem is accepted by exactly one solver kind. */
  lemma AcceptsExactlyOne(p: Problem, k1: SolverKind, k2: SolverKind)
    requires Accepts(k1, p) && Accepts(k2, p)
    ensures k1 == k2
  {
  }

  /** The base problem's `dimensions()`: the cube problems pass `[n, n, n]`. */
  function Dimensions(p: Problem): (dims: seq<int>)
    ensures p.DftProblem? || p.PrdftProblem? ==> dims == [p.n]
    ensures p.MdrconvProblem? || p.MdrfsconvProblem? || p.StepPhaseProblem? || p.HockneyProblem? ==> dims == [p.n, p.n, p.n]
  {
    match p
    case DftProblem(n, _) => [n]
    case MddftProblem(ns, _) => ns
    case MdprdftProblem(ns, _) => ns
    case PrdftProblem(n, _, _, _, _) => [n]
    case BatchMddftProblem(ns, _, _) => ns
    case MdrconvProblem(n) => [n, n, n]
    case MdrfsconvProblem(n) => [n, n, n]
    case StepPhaseProblem(n) => [n, n, n]
    case HockneyProblem(n, _, _) => [n, n, n]
  }

  /** `realctype` option: only the string 'float' selects single precision. */
  datatype RealCType = Float | Double

  /**
   * The recognised options.  `cuda` and `hip` are the solver's `_genCuda` and
   * `_genHIP` flags; they are separate booleans because the source tests them
   * separately.
   */
  datatype Options = Options(
    cuda: bool,
    hip: bool,
    realCType: RealCType,
    colMajor: bool,
    keepTemp: bool,
    mpi: bool,
    printRuleTree: bool,
    metadata: bool)

  /** The options an empty option dictionary stands for. */
  const DefaultOptions := Options(false, false, Double, false, false, false, false, false)

  /**
   * Six solver constructors set the `metadata` option before handing the
   * options to the base solver; the batched MDDFT, step-phase and Hockney
   * solvers leave it as given.
   */
  function EffectiveOptions(kind: SolverKind, o: Options): (r: Options)
    ensures r.metadata <==> o.metadata || !(kind.BatchMddftSolver? || kind.StepPhaseSolver? || kind.HockneySolver?)
    ensures r.(metadata := o.metadata) == o
  {
    if kind.BatchMddftSolver? || kind.StepPhaseSolver? || kind.HockneySolver? then o
    else o.(metadata := true)
  }

  /** Leading letter of complex-valued solver names: 'c' single, 'z' double. */
  function ComplexLetter(o: Options): string
  {
    if o.realCType == Float then "c" else "z"
  }

  /** Leading letter of real-valued solver names: 'f' single, 'd' double. */
  function RealLetter(o: Options): string
  {
    if o.realCType == Float then "f" else "d"
  }

  /** `'x'.join([str(n) for n in dims])`. */
  function JoinX(dims: seq<int>): string
  {
    Join(DimStrings(dims), "x")
  }

  function DimStrings(dims: seq<int>): (r: seq<string>)
    ensures |r| == |dims|
    ensures forall i :: 0 <= i < |dims| ==> r[i] == IntToString(dims[i])
  {
    if |dims| == 0 then [] else [IntToString(dims[0])] + DimStrings(dims[1..])
  }

  /** Characters that can appear in a printed integer. */
  predicate NumeralChar(c: char) { IsDigit(c) || c == '-' }

  /** A joined dimension list consists of numerals and 'x' only, and ends in a digit. */
  lemma {:induction false} JoinXChars(dims: seq<int>)
    requires |dims| > 0
    ensures forall i :: 0 <= i < |JoinX(dims)| ==> NumeralChar(JoinX(dims)[i]) || JoinX(dims)[i] == 'x'
    ensures |JoinX(dims)| > 0 && IsDigit(JoinX(dims)[|JoinX(dims)| - 1])
  {
    var parts := DimStrings(dims);
    if |dims| > 1 {
      JoinXChars(dims[1..]);
      assert DimStrings(dims[1..]) == parts[1..];
      assert JoinX(dims) == parts[0] + "x" + JoinX(dims[1..]);
    }
  }

  /** Distinct non-empty dimension lists give distinct joined strings. */
  lemma JoinXInjective(a: seq<int>, b: seq<int>)
    requires |a| > 0 && |b| > 0
    requires JoinX(a) == JoinX(b)
    ensures a == b
  {
    var pa, pb := DimStrings(a), DimStrings(b);
    forall k | 0 <= k < |pa| ensures 'x' !in pa[k] {
      NumeralsHaveNoX(a[k]);
    }
    forall k | 0 <= k < |pb| ensures 'x' !in pb[k] {
      NumeralsHaveNoX(b[k]);
    }
    JoinInjective(pa, pb, 'x');
    assert |a| == |b|;
    forall k | 0 <= k < |a| ensures a[k] == b[k] {
      IntToStringInjective(a[k], b[k]);
    }
  }

  lemma NumeralsHaveNoX(i: int)
    ensures 'x' !in IntToString(i)
  {
  }

  /** Python's `str(list)` of integers, e.g. `[8, 8, 8]`. */
  function PyListString(xs: seq<int>): string
  {
    "[" + Join(DimStrings(xs), ", ") + "]"
  }

  /** Storage order of an array. */
  datatype Order = COrder | FOrder

  datatype Precision = Single | Double64

  function PrecisionOf(o: Options): Precision
  {
    if o.realCType == Float then Single else Double64
  }

  /** Element type of an array. */
  datatype DType = RealType(prec: Precision) | ComplexType(prec: Precision)

  /** What a solver's `solve` allocates when no output array is supplied. */
  datatype Alloc = Alloc(backend: Backend, shape: seq<int>, dtype: DType, order: Order)

  /**
   * `numpy.zeros` / `cupy.zeros`: a zero-filled array of the given shape, or
   * ValueError when some dimension is negative.
   */
  function Zeros(backend: Backend, shape: seq<int>, dtype: DType, order: Order): (r: Result<Alloc>)
    ensures r.Err? <==> exists i :: 0 <= i < |shape| && shape[i] < 0
    ensures r.Err? ==> r.error == ValueError
    ensures r.Ok? ==> r.value == Alloc(backend, shape, dtype, order) && Prod(shape) >= 0
  {
    if forall i :: 0 <= i < |shape| ==> shape[i] >= 0 then
      ProdNonNegative(shape);
      Ok(Alloc(backend, shape, dtype, order))
    else Err(ValueError)
  }

  /** What `solve` (or `scale`) divides the native result by; true division in the source. */
  datatype Divisor = NoScaling | DivideBy(num: int, den: int)

  /** Output file extension of solvers that know about HIP: HIP wins over CUDA. */
  function HipAwareExt(o: Options): (ext: string)
    ensures ext == ".cpp" <==> o.hip
    ensures ext == ".cu" <==> o.cuda && !o.hip
    ensures ext == ".c" <==> !o.cuda && !o.hip
  {
    var ext := if o.cuda then ".cu" else ".c";
    if o.hip then ".cpp" else ext
  }

  /** Output file extension of solvers that ignore HIP. */
  function CudaOnlyExt(o: Options): (ext: string)
    ensures ext == ".cu" <==> o.cuda
    ensures ext == ".c" <==> !o.cuda
  {
    if o.cuda then ".cu" else ".c"
  }

  /** The script's `PrintTo` line: the generated source goes to the artifact name plus extension. */
  function PrintToLine(name: string, ext: string, printer: string): string
  {
    "PrintTo(\"" + name + ext + "\", " + printer + ");"
  }

  /** The `PrintTo` line names the output file: the artifact name followed by the extension. */
  lemma PrintToLineNamesFile(name: string, ext: string, printer: string)
    ensures StartsWith(PrintToLine(name, ext, printer), "PrintTo(\"" + name + ext + "\", ")
  {
    var head := "PrintTo(\"" + name + ext + "\", ";
    assert PrintToLine(name, ext, printer) == head + (printer + ");");
    assert (head + (printer + ");"))[..|head|] == head;
  }

  /** The `_F` suffix column-major names carry. */
  function ColMajorSuffix(o: Options): string
  {
    if o.colMajor then "_F" else ""
  }

  /**
   * A body followed by an optional suffix determines both the body and whether
   * the suffix is present, provided neither body ends with the suffix's last
   * character.
   */
  lemma OptionalSuffixDetermined(s1: string, f1: bool, s2: string, f2: bool, suffix: string)
    requires |suffix| > 0
    requires |s1| > 0 && s1[|s1| - 1] != suffix[|suffix| - 1]
    requires |s2| > 0 && s2[|s2| - 1] != suffix[|suffix| - 1]
    requires s1 + (if f1 then suffix else "") == s2 + (if f2 then suffix else "")
    ensures f1 == f2 && s1 == s2
  {
    if f1 && f2 {
      assert s1 + suffix == s2 + suffix;
      SameLengthSuffix(s1, suffix, s2, suffix);
    } else {
      assert s1 + "" == s1 && s2 + "" == s2;
    }
  }

  /** Stride classes the real-DFT metadata reports (SW_STR_UNIT, SW_STR_BLOCK). */
  datatype StrideClass = UnitStride | BlockStride

  /** Stride value 1 is unit stride; anything else is block stride. */
  function StrideOf(stride: int): (c: StrideClass)
    ensures c == UnitStride <==> stride == 1
  {
    if stride == 1 then UnitStride else BlockStride
  }

  /** Keys a solver's `_setFunctionMetadata` writes. */
  datatype MetaKey = TransformTypeKey | OrderKey | BatchSizeKey | ReadStrideKey | WriteStrideKey

  datatype MetaValue =
    | TypeValue(transform: TransformType)
    | OrderValue(order: Order)
    | CountValue(count: int)
    | StrideValue(stride: StrideClass)

  /**
   * A printed integer followed by nothing or by a piece starting with '_'
   * determines both the integer text and the piece.
   */
  lemma NumeralThenUnderscore(s1: string, t1: string, s2: string, t2: string)
    requires forall k :: 0 <= k < |s1| ==> NumeralChar(s1[k])
    requires forall k :: 0 <= k < |s2| ==> NumeralChar(s2[k])
    requires |t1| == 0 || t1[0] == '_'
    requires |t2| == 0 || t2[0] == '_'
    requires s1 + t1 == s2 + t2
    ensures s1 == s2 && t1 == t2
  {
    var m := if |s1| < |s2| then |s1| else |s2|;
    if m < |s1 + t1| {
      assert (s1 + t1)[m] == (s2 + t2)[m];
    }
    SameLengthPrefix(s1, t1, s2, t2);
  }
}
