/**
 * Package-level constants and the two environment probes of the package
 * (`__init__.py`): direction codes, platform and transform tags, metadata
 * sentinels, the shared-library extension, and the host/device fallbacks.
 */
module Config {
  import opened Common
  import opened Text

  /** Transform direction, independent of how it is encoded as a number. */
  datatype Direction = Forward | Inverse

  /**
   * The numeric encoding of a direction.  The base solver module and the
   * package module disagree on it.  The solver modules star-import the base
   * solver module after the package, so the base solver module's encoding is
   * the one their scripts print (Scripts.DirString).
   */
  datatype DirCodes = DirCodes(forward: int, inverse: int)

  /** SW_FORWARD = 1, SW_INVERSE = -1 in the base solver module. */
  const SolverModuleCodes := DirCodes(1, -1)

  /** SW_FORWARD = -1, SW_INVERSE = 1 in the package module. */
  const PackageCodes := DirCodes(-1, 1)

  function Code(d: Direction, codes: DirCodes): int
  {
    if d == Forward then codes.forward else codes.inverse
  }

  /** Each published encoding tells the two directions apart, and the two encodings are mirror images. */
  lemma DirectionCodesDistinct(d: Direction)
    ensures Code(Forward, PackageCodes) != Code(Inverse, PackageCodes)
    ensures Code(Forward, SolverModuleCodes) != Code(Inverse, SolverModuleCodes)
    ensures Code(d, PackageCodes) == -Code(d, SolverModuleCodes)
  {
  }

  /** The build targets (SW_CPU, SW_CUDA, SW_HIP). */
  datatype TargetPlatform = CPU | CUDA | HIP

  function PlatformTag(p: TargetPlatform): (s: string)
    ensures |s| > 0
  {
    match p
    case CPU => "CPU"
    case CUDA => "CUDA"
    case HIP => "HIP"
  }

  /** The platform tag identifies the platform. */
  lemma PlatformTagInjective(a: TargetPlatform, b: TargetPlatform)
    requires PlatformTag(a) == PlatformTag(b)
    ensures a == b
  {
  }

  /**
   * Transform types written into metadata.  The solvers use names the package
   * module does not define: the transform types SW_TRANSFORM_PRDFT and
   * SW_TRANSFORM_BATPRDFT and the keys and values SW_KEY_BATCHSIZE,
   * SW_KEY_READSTRIDE, SW_KEY_WRITESTRIDE, SW_STR_UNIT and SW_STR_BLOCK
   * (prdftsolver.py:177-182), and SW_KEY_ORDER, SW_STR_FORTRAN and SW_STR_C
   * (mdprdftsolver.py:185).  They are kept as values without a text form.
   */
  datatype TransformType = DFT | MDDFT | MDRCONV | MDRFSCONV | MDPRDFT | UNKNOWN | PRDFT | BATPRDFT

  predicate HasTag(t: TransformType) { !(t.PRDFT? || t.BATPRDFT?) }

  function TransformTag(t: TransformType): (s: string)
    requires HasTag(t)
    ensures |s| > 0
  {
    match t
    case DFT => "DFT"
    case MDDFT => "MDDFT"
    case MDRCONV => "MDRCONV"
    case MDRFSCONV => "MDRFSCONV"
    case MDPRDFT => "MDPRDFT"
    case UNKNOWN => "UNKNOWN"
  }

  /** The defined transform tags are pairwise distinct. */
  lemma TransformTagInjective(a: TransformType, b: TransformType)
    requires HasTag(a) && HasTag(b)
    requires TransformTag(a) == TransformTag(b)
    ensures a == b
  {
  }

  /** Bracketing markers around the metadata JSON inside a built library. */
  const MetadataStart: string := "!!START_METADATA!!"
  const MetadataEnd: string := "!!END_METADATA!!"

  /** The sentinels are distinct and neither occurs inside the other. */
  lemma SentinelsSeparate()
    ensures MetadataStart != MetadataEnd
    ensures !Contains(MetadataStart, MetadataEnd)
    ensures !Contains(MetadataEnd, MetadataStart)
  {
    assert |MetadataEnd| == 16 && |MetadataStart| == 18;
    forall i | 0 <= i <= |MetadataStart|
      ensures !OccursAt(MetadataStart, MetadataEnd, i)
    {
      if i == 0 {
        assert MetadataStart[2] != MetadataEnd[2];
      } else if i == 1 {
        assert MetadataStart[1 + 2] != MetadataEnd[2];
      } else if i == 2 {
        assert MetadataStart[2 + 2] != MetadataEnd[2];
      }
    }
  }

  /** The value of Python's `sys.platform`, as far as the package distinguishes it. */
  datatype HostOS = Win32 | Darwin | OtherOS

  /** SW_SHLIB_EXT: `.dll` on Windows, `.dylib` on macOS, `.so` elsewhere. */
  function SharedLibExt(os: HostOS): (ext: string)
    ensures ext == ".dll" <==> os == Win32
    ensures ext == ".dylib" <==> os == Darwin
    ensures ext == ".so" <==> os == OtherOS
  {
    match os
    case Win32 => ".dll"
    case Darwin => ".dylib"
    case OtherOS => ".so"
  }

  /** Where an array lives: host memory (NumPy) or device memory (CuPy). */
  datatype Backend = Host | Device

  /**
   * `get_array_module(a)`: without CuPy installed every array is treated as a
   * host array; with CuPy the array's own backend decides.
   */
  function ArrayModule(cupyInstalled: bool, arrayBackend: Backend): (b: Backend)
    ensures !cupyInstalled ==> b == Host
    ensures cupyInstalled ==> b == arrayBackend
  {
    if cupyInstalled then arrayBackend else Host
  }

  /** `has_ROCm()`: true only when CuPy is installed and reports a ROCm path. */
  function HasRocm(cupyInstalled: bool, rocmPath: Option<string>): (r: bool)
    ensures r <==> cupyInstalled && rocmPath.Some?
  {
    cupyInstalled && rocmPath != None
  }
}
