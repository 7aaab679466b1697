# SnowWhite solver core in Dafny

SnowWhite is a Python front end to the Spiral code generator. A solver
object is built for a transform *problem* (a 1-D DFT, a multi-dimensional
DFT, a real DFT, a batched DFT, a real convolution, a step-phase transform,
a Hockney free-space convolution). If no shared library for the problem
exists yet, the solver traces its Python definition of the transform into
a call graph, writes a Spiral script, runs Spiral, and builds the generated
C code with CMake. It then loads the library, looks up the `init_`, main
and `destroy_` entry points, and hands NumPy or CuPy arrays to the main
function. Separately, the package embeds JSON metadata into the built
libraries, reads it back from `*.dll` files, and parses Spiral's build
information.

This project models that core as pure Dafny functions over immutable
values and proves properties of the model:

- **Naming.** The library name each solver derives from its problem and
  options determines the problem, and different solver kinds never share a
  name.
- **Scripts.** Each Spiral script holds the lines its options ask for, in
  order.
- **Call graphs.** The call graph recorded while tracing lists the traced
  operations in reverse call order, comma-separated.
- **Cubes.** Embedding and extraction of cubes are inverses.
- **Build pipeline.** The construction runs Spiral and CMake only on a
  cache miss, in a fixed order, and leaves the working directory and the
  scratch directory as the source does.
- **Entry points.** Dispatch to the main entry point accepts exactly the
  array backends the target allows.
- **Metadata.** The metadata a library carries reads back as the JSON that
  was written when that JSON holds no backslash. With backslashes doubled
  before quotes are escaped, it reads back for every JSON text (see
  Findings).
- **Build information.** Spiral's build information parses into the
  key/value pairs of its output lines, later lines winning.

Failures are values: `Result` carries the exception that the Python code
would raise (`TypeError`, `RuntimeError`, `AttributeError`, a library load
failure, `ValueError`, `IndexError`, `ZeroDivisionError`). The effects the
pipeline performs (writing files, running Spiral and CMake, creating and
removing directories, loading the library) are recorded as an action log.
What the outside world answers (does the library exist, did the process
succeed, which symbols the library exports) comes in as parameters.

Modules, one per source file or shared concern:

| module | models |
|---|---|
| `Common` | Option/Result, the exceptions, products and Python's floor division |
| `Text` | `str(int)`, `join`/`split`, `find`, `replace`, Python slice normalisation |
| `Config` | the package constants of `__init__.py` |
| `Problems` | problem classes, options, name pieces shared by the solvers |
| `Scripts` | script lines the FFTX-based solvers share |
| `Tracer` | the call-graph recording of `swsolver.py` (`_trace` and the traced operations) |
| `Cube` | `embedCube` and `extract` on 3-D arrays, numpy real-FFT shapes |
| `Dft`, `Mddft`, `Mdprdft`, `Prdft`, `BatchMddft`, `Mdrconv`, `Mdrfsconv`, `StepPhase`, `Hockney` | one solver file each |
| `Solvers` | the library name and path of every solver kind, and what they share |
| `Dispatch` | `_func`, `_initFunc`, `_destroyFunc`: entry-point lookup and the array checks |
| `Pipeline` | the `SWSolver` constructor: cache check, script, Spiral, CMake, load, init |
| `CSource` | how a C compiler reads a string-literal body (line splicing, simple escapes) |
| `Metadata` | `metadata.py`: reading metadata from binaries, writing it as C source |
| `BuildInfo` | `spiral.py`: Spiral's build information |

## Behaviour worth knowing

The model follows the code in each of these places.

- Spiral's exit status is never looked at (swsolver.py:108-120). A CMake
  failure only decides whether the scratch directory is kept
  (swsolver.py:163-164); it surfaces later as the failure to load the
  library.
- The main entry point is looked up with `getattr` without a default
  (swsolver.py:74), so a missing symbol raises `AttributeError`. The
  `None` test after it can never fire, and it names a variable that does
  not exist there.
- On macOS the base solver looks for `.so` (swsolver.py:64-67), while the
  package publishes `.dylib` as the library extension (`__init__.py:81-86`).
- The base `_func` checks only the CUDA flag (swsolver.py:198-216). A HIP
  build handed device arrays is therefore rejected as a CPU function.
- `swsolver.py:28-29` encodes forward as 1 and inverse as -1;
  `__init__.py:36-37` encodes them the other way round. The solver
  modules star-import `swsolver` after the package, so its encoding is
  the one in effect there. The model keeps a `Direction` enumeration, and
  its scripts print the `swsolver` codes (`Scripts.DirString`).
- The packed real MDDFT solver's `TypeError` message names `MddftProblem`
  (mdprdftsolver.py:34-35).
- `metadataInDir` skips a file whose metadata parses to JSON `null`, just
  as it skips one without metadata (metadata.py:31).
- No problem class checks its sizes. A Hockney problem with a negative Nd
  builds its library, because the trace extracts an empty corner, and
  then its `solve` without an output array raises `ValueError` from
  `np.zeros` (hockneysolver.py:92-94).

## Model

| member | source | states |
|---|---|---|
| Common.FloorDiv | mdprdftsolver.py:61-66 | Python's `//` by a positive divisor: the quotient is the largest q with q*b <= a, so negative lengths round toward minus infinity |
| Common.ProdNonNegative | mdrconvsolver.py:80 | a shape without negative entries has a non-negative element count |
| Common.When | mddftsolver.py:108-115 | an optional script line (and, in the build log, an optional step such as swsolver.py:174-175) is present exactly when its condition holds, and at most once |
| Text.IntToStringInjective | dftsolver.py:27-33 | `str(n)` is injective on integers, which is what makes a number inside a library name recoverable |
| Text.JoinSplit | spiral.py:30 | splitting a byte string at a separator and joining the pieces with it gives the string back |
| Text.Find | metadata.py:15-16 | `find` yields -1 exactly when the pattern does not occur, otherwise the index of its first occurrence |
| Text.PySliceInRange | metadata.py:17 | a Python slice with bounds inside the sequence is the ordinary subsequence |
| Config.DirectionCodesDistinct | __init__.py:36-37 | the package encodes forward as -1 and inverse as 1, the base solver module (swsolver.py:28-29) the other way round; each encoding separates the directions |
| Config.PlatformTagInjective | __init__.py:41-43 | the platform strings CPU, CUDA and HIP identify the platform |
| Config.TransformTagInjective | __init__.py:58-63 | the transform-type strings written into metadata identify the transform type |
| Config.SentinelsSeparate | __init__.py:47-48 | the metadata start and end sentinels differ and neither occurs inside the other |
| Config.SharedLibExt | __init__.py:81-86 | the shared-library extension is `.dll` exactly on Windows, `.dylib` exactly on macOS, `.so` exactly elsewhere |
| Config.ArrayModule | __init__.py:89-93 | without CuPy every array is handled by NumPy; with CuPy the array's own module is used |
| Config.HasRocm | __init__.py:96-100 | ROCm is reported only when CuPy is installed and knows a ROCm path |
| Problems.AcceptsExactlyOne | dftsolver.py:24-25 | each solver's `isinstance` check accepts one problem class, so a problem is accepted by exactly one solver kind |
| Problems.Dimensions | dftsolver.py:19 | a 1-D problem has the dimension list [n]; the cube problems have [n, n, n] |
| Problems.Zeros | mdrconvsolver.py:80 | the zero-filled allocation every `solve` makes fails with ValueError exactly when a dimension is negative, and otherwise is an array of that shape, dtype, order and backend whose element count is non-negative |
| Problems.EffectiveOptions | dftsolver.py:35 | the DFT-family constructors force the `metadata` option on, the batched, step-phase and Hockney solvers leave it alone, and nothing else in the options changes |
| Problems.JoinXInjective | mddftsolver.py:33 | the `'x'.join` of the printed dimensions determines the dimension list |
| Problems.JoinXChars | mddftsolver.py:33 | a joined dimension list holds only digits, minus signs and `x`, and ends in a digit |
| Problems.HipAwareExt | mddftsolver.py:81-85 | the generated file is `.cpp` exactly for HIP, `.cu` exactly for CUDA without HIP, `.c` otherwise |
| Problems.CudaOnlyExt | dftsolver.py:68-70 | solvers that ignore HIP write `.cu` exactly for CUDA and `.c` otherwise |
| Problems.PrintToLineNamesFile | mddftsolver.py:121 | the `PrintTo` line names the file as the library name followed by the extension |
| Problems.OptionalSuffixDetermined | mddftsolver.py:40-41 | a name body ending in a digit plus an optional `_F` determines both the body and the storage order |
| Problems.StrideOf | prdftsolver.py:56-57 | stride 1 is reported as unit stride and every other stride as block stride |
| Problems.NumeralThenUnderscore | hockneysolver.py:41 | a printed integer followed by a `_`-led piece splits back into the integer text and the piece |
| Scripts.ConfOf | mddftsolver.py:89-94 | the configuration is the GPU one exactly for CUDA, the HIP one exactly for HIP without CUDA in HIP-aware solvers, the CPU default otherwise |
| Scripts.ConfTextInjective | mddftsolver.py:89-94 | the three configuration lines differ, so the line identifies the configuration |
| Scripts.OptionLinesSwitches | mddftsolver.py:107-115 | the wrap, single-precision and rule-tree lines are each present exactly when their option asks for them |
| Scripts.DirString | mddftsolver.py:99-103 | a script writes forward as `1` and inverse as `-1`, Spiral's convention |
| Dft.Name | dftsolver.py:27-33 | a DFT library name starts with `dft_` and ends with the printed length |
| Dft.NameInjective | dftsolver.py:27-33 | the DFT name determines the length and the direction |
| Dft.TransformLine | dftsolver.py:79-82 | the inverse wraps the DFT in `Scale(1/n, ...)`, the forward emits it bare, with Spiral's direction code |
| Dft.Output | dftsolver.py:61-62 | `solve` allocates a complex host array of exactly n elements; `np.zeros` raises ValueError exactly when n < 0 |
| Dft.Scaling | dftsolver.py:63-64 | the DFT result is returned without any normalisation |
| Dft.Script | dftsolver.py:66-87 | the script holds the transform line and the name, and its next-to-last line prints the code to the library name plus `.c` or `.cu` |
| Dft.Metadata | dftsolver.py:89-90 | the DFT solver records only its transform type, DFT |
| Mddft.Name | mddftsolver.py:30-41 | an MDDFT name starts with the precision letter and the direction part |
| Mddft.NameInjective | mddftsolver.py:30-41 | the MDDFT name determines the shape, the direction, the precision and the storage order |
| Mddft.Term | mddftsolver.py:100-103 | column-major wraps the MDDFT in `TColMajor`, and the direction is written with Spiral's code |
| Mddft.Output | mddftsolver.py:65-69 | ValueError exactly when a dimension is negative; otherwise the default output has the problem's dimensions and the source's dtype and backend, in Fortran order exactly for column-major |
| Mddft.Scaling | mddftsolver.py:72-74 | only the inverse is normalised, by the element count of the output |
| Mddft.Script | mddftsolver.py:77-122 | the script selects the configuration, calls the transform, emits exactly the requested option lines and prints to the library name with the HIP-aware extension |
| Mddft.Metadata | mddftsolver.py:124-125 | the MDDFT solver records only its transform type, MDDFT |
| Mdprdft.Name | mdprdftsolver.py:37-52 | a packed real DFT name starts with the precision letter and `mdprdft_` or `imdprdft_` |
| Mdprdft.NameInjective | mdprdftsolver.py:37-52 | the name determines the shape, the direction, the precision and the storage order |
| Mdprdft.NameBody | mdprdftsolver.py:44-52 | the name is a digit-terminated body plus `_F` exactly for column-major |
| Mdprdft.DirPartDetermined | mdprdftsolver.py:46-49 | `mdprdft_` and `imdprdft_` are told apart by their first character |
| Mdprdft.Cxns | mdprdftsolver.py:54-67 | the half-spectrum shape keeps every axis but one, which becomes d//2+1: the last axis in C order, the first in Fortran order; an empty shape raises IndexError |
| Mdprdft.Output | mdprdftsolver.py:107-116 | ValueError exactly when the shape allocated holds a negative entry; otherwise the forward output is a complex array of the half-spectrum shape, the inverse one a real array of the problem's shape, on the source's backend, Fortran order exactly for column-major |
| Mdprdft.Scaling | mdprdftsolver.py:119-121 | only the inverse is normalised, by the element count of the output |
| Mdprdft.TypesSwapWithDirection | mdprdftsolver.py:150-156 | the column-major input type of one direction is the output type of the other |
| Mdprdft.Call | mdprdftsolver.py:150-164 | column-major uses the five-line `TFCallF` with explicit array types, row-major the one-line `TFCall` |
| Mdprdft.Script | mdprdftsolver.py:124-181 | the script selects the configuration, contains the call block and prints to the library name with the HIP-aware extension |
| Mdprdft.Metadata | mdprdftsolver.py:183-185 | the metadata holds the transform type and the storage order, Fortran exactly for column-major |
| Prdft.StrideLetter | prdftsolver.py:56-57 | the name letter is `p` exactly for unit stride and `v` exactly for block stride |
| Prdft.BatchSuffix | prdftsolver.py:52-57 | the batch suffix is present exactly when the product of the batch dimensions exceeds 1, and then starts with `_` |
| Prdft.NameInjective | prdftsolver.py:37-57 | the name determines the length, the direction, the precision and whether the problem is batched; for a batched problem also the batch dimensions and both stride classes |
| Prdft.DirPartDetermined | prdftsolver.py:47-50 | `prdft_` and `ipidft_` are told apart, and what follows them is recovered |
| Prdft.BatchSuffixInjective | prdftsolver.py:54-57 | the batch suffix determines the batch dimensions and both stride classes |
| Prdft.NewDst | prdftsolver.py:93-106 | ValueError exactly when the transformed length or a batch dimension is negative; otherwise the output holds the batch dimensions and one axis of length n//2+1 (forward) or n (inverse), last for unit write stride and first otherwise; complex forward, real inverse; on the source's backend |
| Prdft.Scaling | prdftsolver.py:108-113 | `solve` returns the result without any normalisation, in either direction |
| Prdft.BatchCountText | prdftsolver.py:139-140 | the script prints the number of transforms, the product of the batch dimensions |
| Prdft.Pattern | prdftsolver.py:142-143 | the access pattern is `APar` exactly for stride 1 |
| Prdft.TensorLine | prdftsolver.py:148 | the tensor call names the write pattern before the read pattern |
| Prdft.Script | prdftsolver.py:115-172 | the script holds the tensor line and the HIP-aware configuration, the wrap and float lines exactly when asked for, and prints to the library name with the HIP-aware extension |
| Prdft.NameAgreesWithMetadata | prdftsolver.py:52-57 | every name starts with the unbatched name, and is longer exactly when the metadata (prdftsolver.py:174-182) reports a batch size |
| Prdft.Name | prdftsolver.py:37-57 | a real-DFT name starts with the precision letter and `prdft_` (forward) or `ipidft_` (inverse); an unbatched name ends with the printed length |
| Prdft.Metadata | prdftsolver.py:174-182 | a batched problem records BATPRDFT, the product of the batch dimensions and the unit/block class of each stride; an unbatched one records only PRDFT |
| BatchMddft.JoinXAppend | batchmddftsolver.py:40-42 | appending `'x' + str(b)` to the joined shape is joining the shape with the batch count appended |
| BatchMddft.NameAsDimensions | batchmddftsolver.py:36-42 | the name is the precision letter, `batchmddft`, the direction part and the joined shape-plus-batch list |
| BatchMddft.NameInjective | batchmddftsolver.py:36-42 | the name determines the shape, the batch count, the direction and the precision |
| BatchMddft.Output | batchmddftsolver.py:94-99 | ValueError exactly when the batch count or a dimension is negative; otherwise the default output has the batch count in front of the transform shape, so it holds batch times the transform's element count, with the source's dtype on the source's backend |
| BatchMddft.Scaling | batchmddftsolver.py:102-105 | the forward result is not scaled; the inverse one is divided by size/batch, and a zero batch count raises ZeroDivisionError |
| BatchMddft.InverseScalesPerTransform | batchmddftsolver.py:102-105 | with a non-zero batch count the inverse divides by the element count of one transform |
| BatchMddft.Script | batchmddftsolver.py:108-145 | the script holds the `let` block and the CUDA-only configuration, exactly the requested option lines, and prints to the library name with `.c` or `.cu` |
| BatchMddft.Name | batchmddftsolver.py:36-42 | a batched MDDFT name starts with the precision letter, `batchmddft` and the direction part, and ends with `x` and the batch count |
| Mdrconv.Name | mdrconvsolver.py:33-41 | the name starts with the precision letter and `mdrconv_` and ends with the printed cube size |
| Mdrconv.NameInjective | mdrconvsolver.py:33-41 | the name determines the cube size and the precision |
| Mdrconv.TestInput | mdrconvsolver.py:147-163 | a negative size is rejected with ValueError, as numpy rejects a negative shape |
| Mdrconv.DefaultTestInput | mdrconvsolver.py:147-163 | with the default shift and target the test input exists exactly for n >= 1: an n-cube with its one at (n-1, n-1, n-1) and a 2n-cube with its one at (1, 1, 1), zero elsewhere |
| Mdrconv.ImpulseInRange | mdrconvsolver.py:156-160 | setting one element of a zero cube at an in-range diagonal position gives a cube that is one there and zero everywhere else |
| Mdrconv.RecordedOps | mdrconvsolver.py:58-72 | tracing `runDef` records the embedding, forward FFT, pointwise product, inverse FFT and extraction with the sizes 2n, n and the 2n x 2n x (n+1) spectrum |
| Mdrconv.ShapesChain | mdrconvsolver.py:61-71 | each traced operation maps the shape before it to the shape after it: n-cube, 2n-cube, spectrum, spectrum, 2n-cube, n-cube |
| Mdrconv.TraceGraph | mdrconvsolver.py:48-56 | for n >= 1 the call graph is the five descriptors in reverse call order, all but the last followed by a comma; for n < 1 the trace fails |
| Mdrconv.Output | mdrconvsolver.py:74-82 | ValueError exactly when n < 0; otherwise `solve` allocates an n-cube of the source's dtype, on the device exactly for CUDA |
| Mdrconv.OutputHoldsRun | mdrconvsolver.py:58-82 | for every size the trace accepts, `runDef` ends in the n-cube and the allocated output has exactly that shape; a negative size fails both the trace and the allocation |
| Mdrconv.Scaling | mdrconvsolver.py:84-86 | `scale` divides by the element count of the padded 2n-cube the embedding produces |
| Mdrconv.Script | mdrconvsolver.py:111-145 | the script holds the CUDA-only configuration, the `Compose` block of the call graph naming the library, exactly the requested option lines, and prints to the library name with `.c` or `.cu` |
| Mdrconv.Trace | mdrconvsolver.py:48-56 | the convolution's `_trace`: build the test input and the symbol, then trace `runDef` on the n-cube; its graph is stated by the trace lemmas of this module |
| Mdrconv.Metadata | mdrconvsolver.py:165-166 | the convolution solver records only its transform type, MDRCONV |
| Mdrfsconv.NameInjective | mdrfsconvsolver.py:33-41 | the name `<f/d>Mdrfsconv_nxnxn` determines the cube size and the precision |
| Mdrfsconv.SymbolShape | mdrfsconvsolver.py:78-83 | a symbol whose first and third axes agree is cut to its first m//2+1 planes on the third axis, any other symbol passes unchanged, and a symbol of rank below 3 raises IndexError |
| Mdrfsconv.FullCubeBecomesSpectrum | mdrfsconvsolver.py:78-83 | a full m-cube symbol becomes the half spectrum (m, m, m//2+1) |
| Mdrfsconv.SpectrumPassesUnchanged | mdrfsconvsolver.py:78-83 | the half spectrum of the padded 2n-cube, the shape `rfftn` gives, passes unchanged |
| Mdrfsconv.SymbolShapeIdempotent | mdrfsconvsolver.py:78-83 | cutting a symbol twice is cutting it once |
| Mdrfsconv.Output | mdrfsconvsolver.py:85-87 | ValueError exactly when n < 0; otherwise, without a supplied output, `solve` allocates an n-cube of the source's dtype on the source's backend |
| Mdrfsconv.Scaling | mdrfsconvsolver.py:89 | `solve` always divides by (2n)^3, the element count of the padded cube |
| Mdrfsconv.Trace | mdrfsconvsolver.py:162-173 | the trace fails for n < 1, where the random test input or its forward transform cannot be built |
| Mdrfsconv.TraceGraph | mdrfsconvsolver.py:48-71 | for n >= 1 the call graph is extraction, inverse FFT, pointwise product and forward FFT of the padded shape's spectrum, then the embedding, all but the last followed by a comma |
| Mdrfsconv.Script | mdrfsconvsolver.py:115-160 | the script holds the HIP-aware configuration, the `Compose` block of the call graph, the option lines for either GPU target, and prints to the library name with the HIP-aware extension |
| Mdrfsconv.Name | mdrfsconvsolver.py:33-41 | a free-space convolution name starts with the precision letter and `Mdrfsconv_` |
| Mdrfsconv.Metadata | mdrfsconvsolver.py:175-176 | the free-space convolution solver records only its transform type, MDRFSCONV |
| StepPhase.Name | stepphasesolver.py:35-42 | the name starts with the precision letter and `stepphase_` and ends with the printed cube size |
| StepPhase.NameInjective | stepphasesolver.py:35-42 | the name determines the cube size and the precision |
| StepPhase.Output | stepphasesolver.py:72-74 | ValueError exactly when n < 0; otherwise, without a supplied output, `solve` allocates a cube of the problem's dimensions with the source's dtype on the source's backend |
| StepPhase.Scaling | stepphasesolver.py:75-76 | the step-phase result is returned without any normalisation |
| StepPhase.SzCubeLineListsDims | stepphasesolver.py:120 | the `szcube` line is the problem's dimension list as Python prints a list |
| StepPhase.TransformLineOrder | stepphasesolver.py:126 | the fused transform starts with the inverse real transform and ends with the forward one, so the forward one is applied first |
| StepPhase.Script | stepphasesolver.py:100-139 | the script opens with the HIP-aware configuration, the cube and the fused transform, has the wrap and float lines exactly when asked for, and prints to the library name with the HIP-aware extension |
| StepPhase.TransformLine | stepphasesolver.py:126 | the fused transform line multiplies the inverse transform, the step-phase pointwise product and the forward transform, in that order (stated by `StepPhase.TransformLineOrder`) |
| Hockney.NameIsJoin | hockneysolver.py:34-41 | the name is `hockney` and the three printed sizes joined with `_` |
| Hockney.NumeralsHaveNoUnderscore | hockneysolver.py:34-36 | no printed integer contains `_` |
| Hockney.NameSplits | hockneysolver.py:40-41 | splitting the name at `_` gives back `hockney` and the three printed sizes |
| Hockney.NameInjective | hockneysolver.py:34-41 | the name determines n, ns and nd; precision and target do not enter it |
| Hockney.DeleteLength | hockneysolver.py:61-63 | `np.delete` on an axis succeeds exactly when every index is in range for Python indexing, and otherwise raises IndexError |
| Hockney.SymbolShape | hockneysolver.py:44-71 | building the symbol can fail only with IndexError |
| Hockney.SymbolMatchesSpectrum | hockneysolver.py:44-71 | for every n >= 1, even or odd, the reflected and cut symbol has the shape (n, n, n//2+1) of the real forward transform of the n-cube; n = 0 gives a 1x1x1 symbol and a negative n fails |
| Hockney.SwapAxes01 | hockneysolver.py:97 | `swapaxes(0, 1)` exchanges the first two axes and keeps the third |
| Hockney.SwappedSymbolKeepsShape | hockneysolver.py:96-97 | the symbol handed to the C code after the swap has the same shape as before |
| Hockney.Output | hockneysolver.py:92-94 | ValueError exactly when Nd < 0; otherwise, without a supplied output, `solve` allocates a host Nd-cube of doubles, Nd³ elements |
| Hockney.OutputHoldsExtraction | hockneysolver.py:73-94 | for 0 <= Nd <= N the allocated output has exactly the shape of the corner `runDef` extracts |
| Hockney.NegativeNdBuildsButCannotSolve | hockneysolver.py:89-94 | a negative Nd passes the constructor, whose trace extracts an empty corner, but `solve` without an output array then raises ValueError |
| Hockney.Scaling | hockneysolver.py:101-103 | `scale` divides by n^3, the element count of the n-cube |
| Hockney.TestInput | hockneysolver.py:161-169 | the test input is an ns-cube whose entry at [p][q][r] is r*ns^2 + q*ns + p + 1, and empty for ns <= 0 |
| Hockney.TestValueDigits | hockneysolver.py:166 | an entry minus one is its position written in mixed radix ns, so entries lie in 1..ns^3 |
| Hockney.TestInputInRange | hockneysolver.py:166 | every test input entry lies in 1..ns^3 |
| Hockney.TestInputInjective | hockneysolver.py:166 | distinct positions of the test input hold distinct values |
| Hockney.TestInputCovers | hockneysolver.py:166 | every value in 1..ns^3 occurs in the test input |
| Hockney.TraceGraph | hockneysolver.py:73-87 | padding to the n-cube, the call graph is extraction of the nd-corner, inverse FFT, pointwise product over the spectrum, forward FFT, then the embedding, all but the last followed by a comma |
| Hockney.PointwiseCount | hockneysolver.py:122 | the pointwise descriptor counts 2*n*n*(n//2+1) reals, the value the script computes as `nnhlf3D` |
| Hockney.ConfBlock | hockneysolver.py:134-142 | the CUDA configuration has four lines and the only wrap line; the CPU one has three |
| Hockney.Script | hockneysolver.py:113-158 | the script holds the configuration block, the `Compose` block closed with `.withTags(opts.tags)`, and prints to the library name with `.c` or `.cu`; HIP and precision play no part |
| Hockney.Name | hockneysolver.py:34-41 | a Hockney name starts with `hockney_` and ends with `_` and the printed Nd; no precision letter appears |
| Hockney.TestValue | hockneysolver.py:166-167 | the test input at `[p][q][r]` is r·ns²+1+q·ns+p: the innermost variable `i` indexes the last axis, the outermost `k` the first (stated through `Hockney.TestInput`) |
| Hockney.Trace | swsolver.py:178-186 | the Hockney solver inherits the base `_trace`: it traces `runDef` on the Ns-cube test input; its graph is stated by `Hockney.TraceGraph` |
| Tracer.RfftShape | swsolver.py:243-245 | NumPy's real forward transform keeps the first two axes and halves the last one, rounding up past the middle: an axis of length m becomes m//2+1 |
| Tracer.SliceLen | swsolver.py:274 | a Python slice is never longer than the axis, and is e-b long when both bounds lie inside it |
| Tracer.Out | swsolver.py:229-281 | the shape each traced operation produces: the pointwise product keeps its shape, extraction of an in-range corner gives the Nd-cube, embedding gives the N-cube, the forward transform gives the half spectrum |
| Tracer.RecordedChain | swsolver.py:229-281 | when every operation maps the shape before it to the shape after it, the run succeeds with the last shape and every operation records its descriptor |
| Tracer.ExecComputesRun | swsolver.py:235-280 | tracing changes nothing about what is computed: the traced run succeeds exactly when the untraced one does, with the same result shape |
| Tracer.RecordedIffRun | swsolver.py:229-281 | a sequence of operations records descriptors exactly when it runs |
| Tracer.ExecRecordsReversed | swsolver.py:235-280 | inserting each descriptor at the front leaves the graph holding the descriptors in reverse call order ahead of what was there, and leaves the tracing flag alone |
| Tracer.Separated | swsolver.py:185-186 | every entry but the last gets a trailing comma; the last is unchanged |
| Tracer.SeparatedJoins | swsolver.py:185-186 | concatenating the separated graph is joining the descriptors with commas |
| Tracer.AddSeparators | swsolver.py:185-186 | the in-place loop over all but the last entry computes the separated graph |
| Tracer.Trace | swsolver.py:178-186 | `_trace` succeeds exactly when the operations run on the test input; it then leaves tracing off and a graph of one entry per operation, the descriptors reversed and comma-separated |
| Tracer.RecordedLength | swsolver.py:229-281 | each operation records exactly one descriptor |
| Tracer.Desc | swsolver.py:229-281 | the descriptor each primitive records: the transforms print the input's first axis, the pointwise product twice the input's element count |
| Tracer.EmbedDesc | swsolver.py:235-239 | `ZeroEmbedBox([N,N,N], [[0..Ns-1],[0..Ns-1],[0..Ns-1]])` |
| Tracer.RfftDesc | swsolver.py:246-249 | `MDPRDFT([N,N,N], -1)` with N the input's first axis |
| Tracer.PointwiseDesc | swsolver.py:256-258 | `RCDiag(FDataOfs(symvar, <count>, 0))` |
| Tracer.IrfftDesc | swsolver.py:265-268 | `IMDPRDFT([N,N,N], 1)` with N the input's first axis |
| Tracer.ExtractDesc | swsolver.py:275-279 | `ExtractBox([N,N,N], [[N-Nd..N-1],...])`, the corner the extraction reads |
| Tracer.Exec | swsolver.py:229-281 | the primitives of a reference definition in call order, each computing its shape and inserting its descriptor at the front of the graph when tracing; stated by `Tracer.ExecComputesRun` and `Tracer.ExecRecordsReversed` |
| Cube.EmbedCube | swsolver.py:229-241 | embedding fails with ValueError for a negative size and with IndexError when the copy loop leaves the new cube or the source; otherwise the N-cube holds the source in its [0,Ns)^3 corner and zero elsewhere |
| Cube.Extract | swsolver.py:272-274 | for a box at least N long on every axis and 0 <= Nd <= N, the result is the Nd-cube holding the [N-Nd, N)^3 corner |
| Cube.EmbedExtractRoundTrip | swsolver.py:229-274 | embedding an Ns-cube and extracting the [0,Ns)^3 corner gives the source back |
| Cube.ExtractedCornerIsPadding | swsolver.py:229-274 | when the extracted corner starts at or beyond Ns it lies entirely in the zero padding |
| Cube.PyIndex | mdrconvsolver.py:157 | an index is accepted exactly when it lies in [-len, len), negatives counting from the end; anything else raises IndexError |
| Cube.Impulse | mdrconvsolver.py:156-160 | a zero cube with one element set: ValueError for a negative size, IndexError for an out-of-range position, otherwise one exactly at the normalised position |
| Solvers.KindOf | dftsolver.py:24-25 | every problem is accepted by the solver kind of its own class |
| Solvers.Prepare | mdprdftsolver.py:34-69 | a constructor raises TypeError with its own message for a problem of another class (the packed real MDDFT solver's message names `MddftProblem`), IndexError for an empty packed-real shape or a negative Hockney size, and otherwise hands on its name and its effective options |
| Solvers.LibExt | swsolver.py:64-67 | the base solver looks for `.dll` exactly on Windows and `.so` everywhere else |
| Solvers.LibPath | swsolver.py:68 | the library path is the libraries directory, the separator, `lib`, the name and the extension |
| Solvers.DarwinExtensionsDiffer | swsolver.py:64-67 | on macOS the base solver's `.so` differs from the package's published `.dylib` (__init__.py:81-86) |
| Solvers.EndsWithNumeral | dftsolver.py:33 | a name ending in a printed integer does not end in `_cu` |
| Solvers.BaseNameNoUTail | swsolver.py:60-63 | no solver's base name ends in `_cu`, so the CUDA suffix can always be recognised |
| Solvers.PrdftNameNoUTail | prdftsolver.py:44-57 | the packed real DFT name, batched or not, does not end in `_cu` |
| Solvers.MdrfsconvNameNoUTail | mdrfsconvsolver.py:39-41 | the free-space convolution name does not end in `_cu` |
| Solvers.ShapeNameNoUTail | mddftsolver.py:33-41 | a shape name with an optional `_F` does not end in `_cu` |
| Solvers.LibPathDeterminesName | swsolver.py:60-68 | two requests share a cached library exactly when their base names agree and they agree on CUDA |
| Solvers.KindOfBaseName | mddftsolver.py:34-41 | the first characters of every base name identify the solver kind that produced it |
| Solvers.FamilyDft | dftsolver.py:27-33 | a DFT name is recognised as a DFT name |
| Solvers.FamilyMddft | mddftsolver.py:34-41 | an MDDFT name is recognised as an MDDFT name |
| Solvers.FamilyMdprdft | mdprdftsolver.py:44-52 | a packed real MDDFT name is recognised as one |
| Solvers.FamilyPrdft | prdftsolver.py:44-57 | a packed real DFT name is recognised as one |
| Solvers.FamilyBatchMddft | batchmddftsolver.py:36-42 | a batched MDDFT name is recognised as one |
| Solvers.FamilyMdrconv | mdrconvsolver.py:33-41 | a convolution name is recognised as one |
| Solvers.FamilyMdrfsconv | mdrfsconvsolver.py:33-41 | a free-space convolution name is recognised as one |
| Solvers.FamilyStepPhase | stepphasesolver.py:35-42 | a step-phase name is recognised as one |
| Solvers.FamilyHockney | hockneysolver.py:34-41 | a Hockney name is recognised as one |
| Solvers.NamesSeparateKinds | swsolver.py:60-71 | problems of different classes never share a base name, so they never share a cached library |
| Solvers.NameIgnoresOtherOptions | mddftsolver.py:30-41 | only the precision and the storage order reach a base name |
| Solvers.HipSharesCache | swsolver.py:60-71 | a HIP build and a CPU build of the same problem look for the same library, because HIP never reaches the name |
| Solvers.PrecisionBlindNames | dftsolver.py:27-33 | the DFT and Hockney names ignore the precision, so single and double precision solvers of one such problem share a library |
| Solvers.PrecisionInOtherNames | mddftsolver.py:30-32 | every other problem class puts the precision into its name |
| Solvers.BaseNameHead | prdftsolver.py:37-41 | a name of a class that records precision starts with its precision letter, real or complex |
| Solvers.FunctionMetadata | dftsolver.py:89-90 | the DFT-family solvers record metadata with a transform type; the batched, step-phase and Hockney solvers record none |
| Solvers.MetadataTypeIdentifiesKind | prdftsolver.py:174-182 | the recorded transform type identifies the solver class |
| Solvers.BaseName | swsolver.py:41 | the `namebase` each solver constructor hands to the base constructor, per problem class; its properties are stated by `Solvers.BaseNameNoUTail` and `Solvers.BaseNameHead` |
| Dispatch.Roles | mdrconvsolver.py:97-100 | every generated main function takes the output first and the input second; the convolution, step-phase and Hockney functions take a third array |
| Dispatch.PointersOn | swsolver.py:207-216 | every argument is passed as an address on the same backend |
| Dispatch.Call | swsolver.py:198-216 | a checked solver raises RuntimeError with the source's messages when the source array is on the host for a GPU build or on the device for a CPU build; any argument on the other backend than the source then raises AttributeError (`ctypes` or `ptr`), as does every CuPy array handed to the unchecked Hockney solver; otherwise the main function gets the addresses in role order on one backend |
| Dispatch.CallBackendAgrees | mdrconvsolver.py:88-108 | a successful call passes device addresses exactly for a GPU build, and every pointer is on the backend its array lives on |
| Dispatch.BaseCheckIgnoresHip | swsolver.py:203-212 | the base check looks at CUDA only, so a HIP build refuses device arrays and passes host arrays |
| Dispatch.NoCupyNoGpu | __init__.py:89-93 | without CuPy every array is a host array, so a checked GPU build always refuses |
| Dispatch.MainSymbol | swsolver.py:74 | looking up the main function fails with AttributeError exactly when the library lacks the symbol |
| Dispatch.EntryPoint | swsolver.py:188-196 | looking up `init_`/`destroy_` plus the name fails exactly when the library lacks it, with a RuntimeError naming the function |
| Dispatch.EntryPointErrorIdentifies | swsolver.py:219-227 | the error message tells init from destroy and one name from another |
| Dispatch.Addresses | swsolver.py:207-216 | taking `.ctypes.data` (host) or `.data.ptr` (device) of every argument succeeds exactly when all live on that backend, with the addresses in order; otherwise AttributeError on the missing attribute |
| Dispatch.HockneyDeviceSourceFails | hockneysolver.py:105-110 | the Hockney solver takes `src.ctypes.data` unchecked, so a CuPy source raises AttributeError whatever the build and the other arrays |
| Pipeline.GeneratorCommand | swsolver.py:114-120 | on Windows the generator is the argument list `spiral.bat < script`; elsewhere one shell line ending in `< script` |
| Pipeline.FlagsNotFixed | swsolver.py:140-149 | the fixed parts of the Windows CMake command hold neither the CUDA nor the MPI flag |
| Pipeline.WindowsCMake | swsolver.py:140-143 | the Windows CMake command starts with `cmake` and the file-root definition |
| Pipeline.WindowsCudaFlag | swsolver.py:144-145 | the Windows CMake command carries `-DHASCUDA=1` exactly for CUDA builds |
| Pipeline.WindowsMpiFlag | swsolver.py:146-147 | the Windows CMake command carries `-DHASMPI=1` exactly for MPI builds |
| Pipeline.ShellCMake | swsolver.py:153-159 | the shell CMake line starts with the file-root definition and ends with ` .. && make install` |
| Pipeline.CMakeCommand | swsolver.py:141-160 | Windows gets the argument list, every other platform the single shell line |
| Pipeline.CMakeSteps | swsolver.py:129-165 | CMakeLists.txt is copied exactly when missing, CMake always runs, and the scratch directory is removed exactly when CMake exited with 0 and `keeptemp` is off |
| Pipeline.PreSteps | swsolver.py:92-120 | the trace comes first, the script is written exactly when its file opens, the generator runs regardless, and the CUDA host code is written exactly for CUDA builds, last |
| Pipeline.Load | swsolver.py:73-78 | loading fails with a load error for a missing file, AttributeError for a missing main function, RuntimeError for a missing `init_` function, and otherwise calls `init_<name>` once after the load |
| Pipeline.CacheHitBuildsNothing | swsolver.py:70-73 | when the library file exists, the constructor loads it directly: nothing is traced, written, generated or compiled, and the files on disk stay as they are |
| Pipeline.TraceFailureStopsBuild | swsolver.py:92-94 | a failing trace propagates its error before any script, generator or compiler step |
| Pipeline.MissLog | swsolver.py:70-78 | on a miss the log is the steps before CMake, the CMake steps and the load, and the result is the load's |
| Pipeline.MissRunsStepsInOrder | swsolver.py:170-176 | on a miss the steps before CMake come first, the CMake steps next, and the load after them |
| Pipeline.CudaHostOnlyForCuda | swsolver.py:174-175 | the CUDA host code is written exactly for CUDA builds |
| Pipeline.ReplayAppend | swsolver.py:137-165 | replaying the directory steps of two logs in turn is replaying their concatenation |
| Pipeline.KeepsDirsReplay | swsolver.py:92-120 | steps that create, enter and remove no directory leave the directory state unchanged |
| Pipeline.CMakeStepsRestoreCwd | swsolver.py:129-162 | the CMake steps end in the working directory the constructor started in |
| Pipeline.CMakeStepsScratch | swsolver.py:137-165 | the CMake steps leave the scratch directory behind exactly when CMake failed or `keeptemp` is on |
| Pipeline.ScratchRemovedIff | swsolver.py:164-165 | a build removes its scratch directory exactly when CMake exited with 0 and `keeptemp` is off |
| Pipeline.OnlyCMakeRemoves | swsolver.py:164-165 | only the CMake part of a build log removes a directory |
| Pipeline.ScratchReplay | swsolver.py:129-165 | after a build the scratch directory exists exactly when CMake failed or `keeptemp` is on, and the working directory is back where it started |
| Pipeline.InitCalledOnce | swsolver.py:78 | a successful construction calls `init_<name>` exactly once, as its last step |
| Pipeline.SecondConstructionIsHit | swsolver.py:68-78 | after a successful construction, building the same solver again against the libraries it left is a cache hit that loads the same library and only calls `init_` |
| Pipeline.Destroy | swsolver.py:219-227 | the destructor calls `destroy_<name>` when the library has it and otherwise raises RuntimeError naming it |
| Pipeline.Construct | swsolver.py:41-78 | the base constructor: a library already at the path is loaded without building; otherwise a failed trace stops before anything is written, and a good trace is followed by the script, generator and CMake steps and then the load, whose failure is the only sign of a failed build; stated by the Pipeline lemmas |
| CSource.SimpleEscape | metadata.py:44 | the escapes the writer produces read back as what they stand for: `\"` as `"`, `\\` as a backslash, `\n` as a new-line |
| CSource.PrependTo | metadata.py:44-45 | a decoded prefix in front of a decoded body; an unreadable body stays unreadable |
| CSource.SpliceNoBackslash | metadata.py:45 | line splicing leaves text without backslashes unchanged |
| CSource.SplicePlainPrefix | metadata.py:46-48 | text without backslashes, quotes and new-lines splices independently of what follows it |
| CSource.UnescapePlainPrefix | metadata.py:46-48 | such plain text reads as itself in front of whatever follows it |
| CSource.UnescapePlain | metadata.py:46-48 | plain text is a valid literal body that reads as itself |
| Metadata.Utf8 | metadata.py:10-11 | encoding ASCII text gives one byte per character, its code |
| Metadata.Utf8Injective | metadata.py:10-11 | different ASCII texts encode to different bytes |
| Metadata.Utf8Append | metadata.py:10-11 | encoding distributes over concatenation |
| Metadata.SentinelsPlain | metadata.py:46-48 | both sentinels are ASCII and read as themselves inside a C literal |
| Metadata.SliceBetween | metadata.py:14-17 | the slice is absent exactly when the start marker does not occur in the buffer |
| Metadata.MetaSlice | metadata.py:14-17 | a buffer yields a slice exactly when it contains the encoded start sentinel |
| Metadata.SliceBetweenFramed | metadata.py:14-17 | when the markers first occur around d, the slice is exactly d |
| Metadata.MetaSliceBetween | metadata.py:15-17 | with the first start sentinel at s and the first end sentinel at e after it, the slice is the bytes between them |
| Metadata.MetaSliceNoEnd | metadata.py:16-17 | without an end sentinel `find` gives -1 and the slice runs from after the start sentinel to one byte before the end of the file |
| Metadata.MetaSliceEndFirst | metadata.py:15-17 | when the first end sentinel comes before the start sentinel's end, the slice is empty |
| Metadata.MetadataInFile | metadata.py:8-21 | a file without the start sentinel has no metadata; otherwise the slice is parsed and a parse error propagates |
| Metadata.CollectErrPersists | metadata.py:29-32 | once a file's metadata fails to parse, the scan of the directory fails with that error |
| Metadata.MetadataInDir | metadata.py:24-33 | the loop over the listing computes the reference scan: the first parse error stops it, and otherwise each `*.dll` file with metadata is reported under its joined path, in listing order |
| Metadata.Listed | metadata.py:27-32 | the reported entries are exactly the `*.dll` entries of the listing whose metadata loads to something |
| Metadata.CollectFailsIff | metadata.py:29-32 | the scan fails exactly when parsing fails on some `*.dll` file of the listing |
| Metadata.CollectReportsListed | metadata.py:29-32 | a successful scan reports every listed entry, in order, under its joined path with its metadata |
| Metadata.EscapeAgreesWithoutBackslash | metadata.py:44-45 | on JSON text without backslashes, doubling backslashes first changes nothing, so the corrected escaping agrees with the one written |
| Metadata.WriteMetadataSourceFile | metadata.py:36-49 | an unopenable path prints the error message and writes nothing; otherwise the file declares `varname` initialised with the literal whose body is the sentinels around the JSON text with only its quotes escaped |
| Metadata.WriteMetadataSourceFileFixed | metadata.py:36-49 | the same writer with backslashes doubled before the quotes are escaped |
| Metadata.WritersAgreeWithoutBackslash | metadata.py:43-45 | on JSON text without a backslash the source's writer and the corrected one write the same file |
| Metadata.WriterReadsBackWithoutBackslash | metadata.py:36-49 | for JSON text without a backslash, the source's file compiles to a literal holding the JSON, new-lines dropped, between the sentinels |
| Metadata.FixedWriterReadsBack | metadata.py:36-49 | the corrected writer's file compiles to a literal holding the JSON, new-lines dropped, between the sentinels, whatever the JSON text |
| Metadata.WriterLosesBackslash | metadata.py:44 | the source's file for the JSON text `"\\"` does not compile to that JSON text |
| Metadata.SpliceReplacedNewlines | metadata.py:45 | splicing the text where every new-line became backslash-new-line removes exactly the new-lines |
| Metadata.ReplaceFrame | metadata.py:45-48 | replacing new-lines distributes over the three lines the writer prints |
| Metadata.LiteralFrame | metadata.py:44-48 | the literal's body is the start sentinel, the continued JSON and the end sentinel |
| Metadata.DropFrame | metadata.py:45-48 | dropping new-lines from the framed body drops them from the JSON only |
| Metadata.SentinelsNoNewline | __init__.py:47-48 | neither sentinel contains a new-line |
| Metadata.SplicedBody | metadata.py:44-48 | after line splicing the literal's body is the start sentinel, the JSON without its new-lines, and the end sentinel |
| Metadata.ReplacesAreQuote | metadata.py:44 | doubling backslashes and then escaping quotes escapes every character once, in one pass |
| Metadata.QuoteDropNewlines | metadata.py:44-45 | escaping and dropping new-lines commute |
| Metadata.UnescapeQuoteChar | metadata.py:44 | an escaped character reads back as itself in front of whatever follows |
| Metadata.UnescapeQuote | metadata.py:44 | escaped text without new-lines reads back as itself in front of whatever follows |
| Metadata.UnescapeFramed | metadata.py:46-48 | an escaped text between plain sentinels reads back as the sentinels around the text |
| Metadata.StoredRoundTrip | metadata.py:43-48 | with the corrected escaping, the compiled string holds the start sentinel, the JSON text without its new-lines, and the end sentinel, for every JSON text |
| Metadata.StoredRoundTripAsWritten | metadata.py:43-48 | with the escaping as written, the same holds for every JSON text without backslashes |
| Metadata.AsWrittenLosesBackslash | metadata.py:44 | with the escaping as written, the JSON string `"\\"` compiles to `"\"`, which is not the text that was written |
| Metadata.MetaSliceFramed | metadata.py:14-17 | a buffer holding the encoded stored string yields exactly the encoded JSON between the sentinels |
| Metadata.StoredBytes | metadata.py:10-11 | the encoded stored string is the encoded start sentinel, the encoded JSON and the encoded end sentinel |
| Metadata.LibraryReadBack | metadata.py:8-48 | with the corrected escaping, reading a library that holds the compiled string gives the written JSON text, new-lines aside, as bytes for the parser |
| Metadata.Collect | metadata.py:24-33 | the reference result of `metadataInDir`: every `*.dll` entry in listing order, reported under its joined path when it carries metadata, the first parse error stopping the scan; stated by `Metadata.CollectFailsIff` and `Metadata.CollectReportsListed` |
| Metadata.EscapeAsWritten | metadata.py:44-45 | the escaping as written: quotes escaped, a backslash appended, every new-line spliced; backslashes are left single (see `Metadata.WriterLosesBackslash`) |
| Metadata.Escape | metadata.py:44-45 | the corrected escaping, doubling backslashes first; `Metadata.FixedWriterReadsBack` proves it reads back |
| BuildInfo.SpiralExe | spiral.py:18-21 | the executable is `spiral.bat` exactly on Windows and `spiral` elsewhere |
| BuildInfo.Command | spiral.py:25-27 | Spiral runs with `-B`, and `BuildInfo();` and `quit;` on its input for versions without that option |
| BuildInfo.StripLeftSuffix | spiral.py:35-36 | stripping on the left removes exactly the leading ASCII whitespace |
| BuildInfo.StripRightPrefix | spiral.py:35-36 | stripping on the right removes exactly the trailing ASCII whitespace |
| BuildInfo.StripBounds | spiral.py:35-36 | `strip()` keeps the part between the leading and the trailing whitespace, which starts and ends with non-whitespace |
| BuildInfo.StripEmpty | spiral.py:35-36 | stripping gives the empty string exactly for an all-whitespace line |
| BuildInfo.StripIdempotent | spiral.py:35-36 | stripping twice is stripping once |
| BuildInfo.SplitColon | spiral.py:33-34 | `split(b':', 1)` gives two parts exactly when the line contains a colon |
| BuildInfo.SplitColonRejoins | spiral.py:33 | the two parts are the line split at its first colon |
| BuildInfo.SplitColonOf | spiral.py:33 | a colon-free key, a colon and any value split back into that key and value |
| BuildInfo.Classify | spiral.py:33-36 | a line without a colon carries no pair |
| BuildInfo.ClassifyPair | spiral.py:33-36 | a line with a colon carries the stripped, decoded key and value, or is undecodable when either fails to decode |
| BuildInfo.CollectErrIsDecoding | spiral.py:35-36 | the only failure of the loop is a decoding error |
| BuildInfo.CollectFailsIff | spiral.py:32-37 | the loop fails exactly when some line with a colon does not decode |
| BuildInfo.CollectKeys | spiral.py:32-37 | the result has a key exactly when some line carries it |
| BuildInfo.CollectLastWins | spiral.py:37 | a key's value comes from the last line that carries it |
| BuildInfo.SpiralBuildInfo | spiral.py:17-38 | when Spiral cannot be started the result is empty; otherwise it fails with a decoding error exactly when some line with a colon does not decode |
| BuildInfo.BuildInfoKeys | spiral.py:30-37 | the result's keys are exactly those carried by the output's lines |
| BuildInfo.BuildInfoLastWins | spiral.py:30-37 | each key maps to the value on the last output line that carries it |

## Left out

- JSON itself: `json.dumps` and `json.loads` are not modelled. The writer takes the serialised JSON text. The reader hands the sliced bytes to a `loads` parameter, whose result may be an error or JSON `null`.
- Octal, hexadecimal and universal-character escapes of C string literals: the metadata writer never produces them, so a literal body using one is treated as unreadable.
- Text decoding of Spiral's output (`decode()` in spiral.py:35-36) is a parameter; a decoding failure is reported as `ValueError`.
- File system, processes and dynamic loading: whether the library exists, CMake's exit status, the symbols a library exports, Spiral's output and whether a file can be opened are parameters. The effects are entries in an action log.
- Metadata.PathJoin: the metadata scan joins the directory and a file name with `/` only, and `glob` is a plain suffix test on the names of a directory listing given in order; Windows separators there, case-insensitive matching and directories whose names end in `.dll` are not modelled. The library path (`Solvers.LibPath`) does use the platform separator, `\` on Windows (`Solvers.PathSep`).
- Prdft.Metadata, Prdft.BatchCountText: `np.prod` multiplies the batch dimensions as 64-bit integers and wraps on overflow; `Prod` is unbounded, so batch products beyond 2^63-1 are not modelled.
- The date and time header `_genScript` writes (swsolver.py:100-103): it depends on the clock.
- All numerics: the FFTs of the `runDef` reference definitions, the Hockney symbol values, random test data and the true division `solve` and `scale` perform. Only array shapes, element types and the integer divisor are modelled.
- CuPy and `ctypes` pointer casts: an array is a Host or Device tag, and an address handed to the C code is modelled by its argument role and backend.
- `zeroEmbedBox`, `_writePrintOpts` and `SWProblem`'s dimension accessors are called by the solvers but are not part of the base class modelled here: the descriptor and padded shape of `zeroEmbedBox`, and the print-options lines, are parameters.
- `has_ROCm` beyond its fallback: with CuPy present it probes the ROCm installation, which is outside the model.
- poissonsolver.py: it only does numerics, and its module references do not resolve.
- The example driver scripts: argument parsing and comparisons of floating-point results.
- The shared mutable default `opts={}`: options are immutable values, so the aliasing between solvers that share the default dictionary is not modelled.
- Several processes building into one cache directory at the same time.
- `np.float` in hockneysolver.py:167 no longer exists in current NumPy; the model treats the test input as an array of doubles.
- Problems.EffectiveOptions, Solvers.FunctionMetadata, Dispatch.Call, Pipeline.Construct: these take the `_genHIP` and `_colMajor` flags and the `metadata` option (the `hip`, `colMajor` and `metadata` fields of `Options`) as given, as the subclasses read them. The `swsolver.py` modelled here is an older base class: it never sets those flags, never emits metadata, and its `SWProblem` takes no dimensions or direction (swsolver.py:31-35). It also reads a `cuda` option (swsolver.py:44), while the package defines a `platform` option (`__init__.py:30`).
- The console messages the solvers print ("Generating C code" and the like).

## Findings

| source | as written | input that shows it | evidently intended | confidence | as-written member | corrected member |
|---|---|---|---|---|---|---|
| metadata.py:44 | `"` is escaped as `\"` but `\` is left alone, so the C compiler reads every backslash of the JSON text as the start of an escape sequence | the JSON text `"\\"` (a string holding one backslash) is read back from the library as `"\"`, which is not even valid JSON | double every backslash before escaping the quotes, so the library holds the JSON text unchanged | not executed | Metadata.WriterLosesBackslash | Metadata.FixedWriterReadsBack |
