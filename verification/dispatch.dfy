/**
 * Calling into a built library: the backend check every solver's `_func`
 * performs before handing pointers to the generated main function, the
 * argument order, and the lookup of the `init_`/`destroy_` entry points.
 */
module Dispatch {
  import opened Common
  import opened Text
  import opened Config
  import opened Problems

  /** What an argument of the generated main function stands for. */
  datatype Role = Dst | Src | Symbol | SwappedSymbol | Amplitudes

  /** A raw pointer handed to the generated function: a host address or a device address. */
  datatype Pointer = Pointer(role: Role, backend: Backend)

  /**
   * The three ways the solvers dispatch.  The base solver checks the source
   * array against the CUDA flag only; the convolution and step-phase solvers
   * accept either GPU target; the Hockney solver checks nothing and takes
   * the host address of every array.
   */
  datatype CheckStyle = CudaCheck | GpuCheck | NoCheck

  function StyleOf(kind: SolverKind): CheckStyle
  {
    match kind
    case MdrconvSolver => GpuCheck
    case MdrfsconvSolver => GpuCheck
    case StepPhaseSolver => GpuCheck
    case HockneySolver => NoCheck
    case _ => CudaCheck
  }

  /** The arguments each solver passes, in order. */
  function Roles(kind: SolverKind): (roles: seq<Role>)
    ensures |roles| >= 2 && roles[0] == Dst && roles[1] == Src
  {
    match kind
    case MdrconvSolver => [Dst, Src, Symbol]
    case MdrfsconvSolver => [Dst, Src, Symbol]
    case StepPhaseSolver => [Dst, Src, Amplitudes]
    case HockneySolver => [Dst, Src, SwappedSymbol]
    case _ => [Dst, Src]
  }

  /** Whether the style counts the solver as built for a GPU. */
  function GpuBuild(style: CheckStyle, o: Options): bool
  {
    match style
    case CudaCheck => o.cuda
    case GpuCheck => o.cuda || o.hip
    case NoCheck => false
  }

  /** The message for a host array handed to a GPU build. */
  function HostOnGpuMessage(style: CheckStyle): string
  {
    if style == CudaCheck then "CUDA function requires CuPy arrays" else "GPU function requires CuPy arrays"
  }

  const DeviceOnCpuMessage: string := "CPU function requires NumPy arrays"

  /** Every role passed with the same backend. */
  function PointersOn(roles: seq<Role>, b: Backend): (ptrs: seq<Pointer>)
    ensures |ptrs| == |roles|
    ensures forall i :: 0 <= i < |roles| ==> ptrs[i] == Pointer(roles[i], b)
  {
    seq(|roles|, i requires 0 <= i < |roles| => Pointer(roles[i], b))
  }

  /** Every argument array lives on backend b, as `get_array_module` sees it. */
  predicate AllOn(cupyInstalled: bool, args: seq<Backend>, b: Backend)
  {
    forall i :: 0 <= i < |args| ==> ArrayModule(cupyInstalled, args[i]) == b
  }

  /**
   * Taking the addresses of the arguments, all as host addresses
   * (`a.ctypes.data_as`) or all as device addresses (`a.data.ptr`).  An
   * array of the other kind lacks the attribute: a CuPy array has no
   * `ctypes`, and the `data` of a NumPy array has no `ptr`.
   */
  function Addresses(roles: seq<Role>, cupyInstalled: bool, args: seq<Backend>, b: Backend): (r: Result<seq<Pointer>>)
    requires |args| == |roles|
    ensures r.Ok? <==> AllOn(cupyInstalled, args, b)
    ensures r.Ok? ==> r.value == PointersOn(roles, b)
    ensures r.Err? ==> r.error == AttributeError(if b == Host then "ctypes" else "ptr")
  {
    if AllOn(cupyInstalled, args, b) then Ok(PointersOn(roles, b))
    else Err(AttributeError(if b == Host then "ctypes" else "ptr"))
  }

  /**
   * `_func`: the array module of the source array decides host or device;
   * a mismatch with the build raises, otherwise the main function receives
   * the addresses of its arguments in order, all host or all device
   * addresses, and an argument array of the other kind raises
   * AttributeError.  `args` holds the backend of each argument array, in
   * the order of `Roles(kind)`; the source array is the second.
   */
  function Call(kind: SolverKind, o: Options, cupyInstalled: bool, args: seq<Backend>): (r: Result<seq<Pointer>>)
    requires |args| == |Roles(kind)|
    ensures var style := StyleOf(kind);
      var onHost := ArrayModule(cupyInstalled, args[1]) == Host;
      && (r.Ok? <==>
            if style == NoCheck then AllOn(cupyInstalled, args, Host)
            else (onHost <==> !GpuBuild(style, o)) && AllOn(cupyInstalled, args, if onHost then Host else Device))
      && (style != NoCheck && onHost && GpuBuild(style, o) ==> r == Err(RuntimeError(HostOnGpuMessage(style))))
      && (style != NoCheck && !onHost && !GpuBuild(style, o) ==> r == Err(RuntimeError(DeviceOnCpuMessage)))
      && (style == NoCheck && !AllOn(cupyInstalled, args, Host) ==> r == Err(AttributeError("ctypes")))
    ensures r.Ok? ==> (|r.value| == |Roles(kind)| &&
      forall i :: 0 <= i < |Roles(kind)| ==> r.value[i].role == Roles(kind)[i])
  {
    var style := StyleOf(kind);
    var roles := Roles(kind);
    if style == NoCheck then Addresses(roles, cupyInstalled, args, Host)
    else if ArrayModule(cupyInstalled, args[1]) == Host then
      if GpuBuild(style, o) then Err(RuntimeError(HostOnGpuMessage(style)))
      else Addresses(roles, cupyInstalled, args, Host)
    else
      if !GpuBuild(style, o) then Err(RuntimeError(DeviceOnCpuMessage))
      else Addresses(roles, cupyInstalled, args, Device)
  }

  /**
   * A successful call hands every pointer on one backend: the device exactly
   * for a checked GPU build, the host otherwise, and every pointer is on the
   * backend its array lives on.
   */
  lemma CallBackendAgrees(kind: SolverKind, o: Options, cupyInstalled: bool, args: seq<Backend>)
    requires |args| == |Roles(kind)|
    requires Call(kind, o, cupyInstalled, args).Ok?
    ensures var ptrs := Call(kind, o, cupyInstalled, args).value;
      forall i :: 0 <= i < |ptrs| ==>
        (ptrs[i].backend == Device <==> GpuBuild(StyleOf(kind), o)) &&
        ptrs[i].backend == ArrayModule(cupyInstalled, args[i])
  {
  }

  /**
   * The base check looks at the CUDA flag only, so a HIP build of a base
   * solver refuses device arrays with the CPU message and accepts host ones.
   */
  lemma BaseCheckIgnoresHip(kind: SolverKind, o: Options)
    requires StyleOf(kind) == CudaCheck && o.hip && !o.cuda
    ensures Call(kind, o, true, [Device, Device]) == Err(RuntimeError(DeviceOnCpuMessage))
    ensures Call(kind, o, true, [Host, Host]) == Ok([Pointer(Dst, Host), Pointer(Src, Host)])
  {
    assert Roles(kind) == [Dst, Src];
    var ptrs := PointersOn([Dst, Src], Host);
    assert ptrs == [ptrs[0], ptrs[1]];
  }

  /**
   * The Hockney solver checks nothing, so a CuPy source array fails only
   * when its host address is taken, with AttributeError.
   */
  lemma HockneyDeviceSourceFails(o: Options, dst: Backend, sym: Backend)
    ensures Call(HockneySolver, o, true, [dst, Device, sym]) == Err(AttributeError("ctypes"))
  {
    assert ArrayModule(true, [dst, Device, sym][1]) != Host;
  }

  /** Without CuPy every array is a host array, so a GPU build always refuses. */
  lemma NoCupyNoGpu(kind: SolverKind, o: Options, args: seq<Backend>)
    requires |args| == |Roles(kind)|
    requires StyleOf(kind) != NoCheck && GpuBuild(StyleOf(kind), o)
    ensures Call(kind, o, false, args).Err?
  {
  }

  /** A built library, seen through the symbols it exports. */
  datatype Library = Library(symbols: set<string>)

  /** `getattr(lib, name)` without a default: a missing symbol raises AttributeError. */
  function MainSymbol(lib: Library, name: string): (r: Result<string>)
    ensures r.Ok? <==> name in lib.symbols
    ensures r.Ok? ==> r.value == name
    ensures r.Err? ==> r.error == AttributeError(name)
  {
    if name in lib.symbols then Ok(name) else Err(AttributeError(name))
  }

  /**
   * `_initFunc`/`_destroyFunc`: look up prefix + name with a default of
   * None; a missing function raises a RuntimeError naming it.
   */
  function EntryPoint(lib: Library, prefix: string, name: string): (r: Result<string>)
    ensures r.Ok? <==> prefix + name in lib.symbols
    ensures r.Ok? ==> r.value == prefix + name
    ensures r.Err? ==> r.error == RuntimeError("could not find function: " + prefix + name)
  {
    var fname := prefix + name;
    assert "could not find function: " + fname == "could not find function: " + prefix + name;
    if fname in lib.symbols then Ok(fname)
    else Err(RuntimeError("could not find function: " + fname))
  }

  const InitPrefix: string := "init_"
  const DestroyPrefix: string := "destroy_"

  /**
   * The error message names the missing function, so it tells an init
   * failure from a destroy failure and one solver's name from another's.
   */
  lemma EntryPointErrorIdentifies(lib1: Library, p1: string, n1: string, lib2: Library, p2: string, n2: string)
    requires p1 in {InitPrefix, DestroyPrefix} && p2 in {InitPrefix, DestroyPrefix}
    requires EntryPoint(lib1, p1, n1).Err? && EntryPoint(lib2, p2, n2).Err?
    requires EntryPoint(lib1, p1, n1).error == EntryPoint(lib2, p2, n2).error
    ensures p1 == p2 && n1 == n2
  {
    var m := "could not find function: ";
    assert m + p1 + n1 == m + p2 + n2;
    SameLengthPrefix(m, p1 + n1, m, p2 + n2);
    assert p1 + n1 == p2 + n2;
    if p1 != p2 {
      assert (p1 + n1)[0] == p1[0] && (p2 + n2)[0] == p2[0];
    }
    SameLengthPrefix(p1, n1, p2, n2);
  }
}
