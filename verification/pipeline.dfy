/**
 * The base solver's constructor as a build pipeline (`swsolver.py`): look
 * for the cached shared library; on a miss trace the reference definition,
 * write the generator script, run the generator, write the CUDA host code
 * for CUDA builds and run CMake in a scratch directory; then load the
 * library, resolve the main function and call `init_<name>`.
 *
 * The file system, the subprocesses and the loader are external: their
 * answers are fields of an `Env`, and every external step the constructor
 * takes is recorded, in order, in a plain log of `Action`s.
 */
module Pipeline {
  import opened Common
  import opened Text
  import opened Config
  import opened Problems
  import opened Dispatch
  import opened Solvers
  import opened Scripts
  import Tracer

  /** The external steps of a construction. */
  datatype Action =
    | TraceRun                                  // `_trace`: run the reference definition with tracing on
    | WriteScript(script: string)               // `_genScript` writes the generator script
    | RunGenerator(command: seq<string>)        // `_callSpiral`
    | WriteCudaHost                             // `_writeCudaHost`, CUDA builds only
    | CopyCMakeLists                            // copy the package's CMakeLists.txt into the working directory
    | MakeTempDir(dir: string)                  // `tempfile.mkdtemp` under the working directory
    | ChangeDir(dir: string)                    // `os.chdir`
    | RunCMake(command: seq<string>)            // the configure-and-install command
    | RemoveTree(dir: string)                   // `shutil.rmtree` of the scratch directory
    | LoadLibrary(path: string)                 // `ctypes.CDLL`
    | CallInit(symbol: string)                  // the generated `init_<name>`
    | CallDestroy(symbol: string)               // the generated `destroy_<name>`, from `__del__`

  /** What the outside world answers during one construction. */
  datatype Env = Env(
    libraries: map<string, Library>,  // shared libraries on disk, by path
    cwd: string,                      // the working directory when the constructor starts
    cmakeListsPresent: bool,          // a CMakeLists.txt is already in the working directory
    tempDir: string,                  // the directory mkdtemp creates
    scriptWritable: bool,             // the script file can be opened for writing
    cmakeReturnCode: int,             // the exit status of the CMake command
    installed: Option<Library>)       // what `make install` leaves at the library path, if anything

  /** A constructed solver: its name, library path and loaded library. */
  datatype Loaded = Loaded(namebase: string, path: string, lib: Library)

  /** The result, the log of external steps, and the libraries on disk afterwards. */
  datatype Outcome = Outcome(result: Result<Loaded>, log: seq<Action>, libraries: map<string, Library>)

  /**
   * The generator command: `spiral < script` through the shell, or the
   * argument list `spiral.bat < script` on Windows.
   */
  function GeneratorCommand(os: HostOS, script: string): (cmd: seq<string>)
    ensures os == Win32 ==> cmd == ["spiral.bat", "<", script]
    ensures os != Win32 ==> |cmd| == 1 && EndsWith(cmd[0], " < " + script)
  {
    if os == Win32 then ["spiral.bat", "<", script]
    else
      var line := "spiral" + (" < " + script);
      assert line[|line| - |" < " + script|..] == " < " + script;
      [line]
  }

  /** The CMake option flags for CUDA and MPI builds. */
  const CudaFlag: string := "-DHASCUDA=1"
  const MpiFlag: string := "-DHASMPI=1"

  /** The build-and-install arguments that follow the options on Windows. */
  const BuildTail: seq<string> := ["..", "&&", "cmake", "--build", ".", "--config", "Release", "--target", "install"]

  /** Membership in a three-part concatenation. */
  lemma InThreeParts<T>(x: T, a: seq<T>, b: seq<T>, c: seq<T>)
    ensures x in a + b + c <==> x in a || x in b || x in c
  {
  }

  /** Neither option flag occurs among the fixed Windows arguments. */
  lemma FlagsNotFixed(head: seq<string>, tail: seq<string>, basename: string, libsDir: string)
    requires head == ["cmake", "-DFILEROOT:STRING=" + basename]
    requires tail == ["-DPY_LIBS_DIR=" + libsDir] + BuildTail
    ensures CudaFlag !in head && MpiFlag !in head
    ensures CudaFlag !in tail && MpiFlag !in tail
  {
    assert head[1][2] == 'F';
    assert tail[0][2] == 'P';
    forall i | 1 <= i < |tail| ensures tail[i] != CudaFlag && tail[i] != MpiFlag {
      assert |tail[i]| < 10;
    }
  }

  /** The Windows argument list of `_callCMake`. */
  function WindowsCMake(basename: string, o: Options, libsDir: string): (cmd: seq<string>)
    ensures |cmd| >= 3 && cmd[..2] == ["cmake", "-DFILEROOT:STRING=" + basename]
  {
    var head := ["cmake", "-DFILEROOT:STRING=" + basename];
    var flags := When(o.cuda, CudaFlag) + When(o.mpi, MpiFlag);
    var tail := ["-DPY_LIBS_DIR=" + libsDir] + BuildTail;
    assert (head + flags + tail)[..2] == head;
    head + flags + tail
  }

  /** The Windows command carries the CUDA flag exactly for CUDA builds. */
  lemma WindowsCudaFlag(basename: string, o: Options, libsDir: string)
    ensures CudaFlag in WindowsCMake(basename, o, libsDir) <==> o.cuda
  {
    var head := ["cmake", "-DFILEROOT:STRING=" + basename];
    var flags := When(o.cuda, CudaFlag) + When(o.mpi, MpiFlag);
    var tail := ["-DPY_LIBS_DIR=" + libsDir] + BuildTail;
    FlagsNotFixed(head, tail, basename, libsDir);
    if o.cuda {
      assert (head + flags + tail)[2] == CudaFlag;
    } else {
      NotInConcat(CudaFlag, head, flags);
      NotInConcat(CudaFlag, head + flags, tail);
    }
  }

  /** The Windows command carries the MPI flag exactly for MPI builds. */
  lemma WindowsMpiFlag(basename: string, o: Options, libsDir: string)
    ensures MpiFlag in WindowsCMake(basename, o, libsDir) <==> o.mpi
  {
    var head := ["cmake", "-DFILEROOT:STRING=" + basename];
    var flags := When(o.cuda, CudaFlag) + When(o.mpi, MpiFlag);
    var tail := ["-DPY_LIBS_DIR=" + libsDir] + BuildTail;
    FlagsNotFixed(head, tail, basename, libsDir);
    if o.mpi {
      assert (head + flags + tail)[|head + flags| - 1] == MpiFlag;
    } else {
      NotInConcat(MpiFlag, head, flags);
      NotInConcat(MpiFlag, head + flags, tail);
    }
  }

  /** An element in neither part is not in their concatenation. */
  lemma NotInConcat<T>(x: T, a: seq<T>, b: seq<T>)
    requires x !in a && x !in b
    ensures x !in a + b
  {
  }

  /** The shell command line of `_callCMake` elsewhere. */
  function ShellCMake(basename: string, o: Options, libsDir: string): (line: string)
    ensures StartsWith(line, "cmake -DFILEROOT:STRING=" + basename)
    ensures EndsWith(line, " .. && make install")
  {
    var head := "cmake -DFILEROOT:STRING=" + basename;
    var opts := (if o.cuda then " " + CudaFlag else "") + (if o.mpi then " " + MpiFlag else "") + " -DPY_LIBS_DIR=" + libsDir;
    var tail := " .. && make install";
    var line := head + (opts + tail);
    assert line[..|head|] == head;
    assert line[|line| - |tail|..] == tail;
    line
  }

  /**
   * The configure-and-install command: the file root, the CUDA and MPI flags
   * when requested, and the install directory.  Windows gets an argument
   * list; elsewhere a single shell string.
   */
  function CMakeCommand(os: HostOS, basename: string, o: Options, libsDir: string): (cmd: seq<string>)
    ensures os == Win32 ==> cmd == WindowsCMake(basename, o, libsDir)
    ensures os != Win32 ==> cmd == [ShellCMake(basename, o, libsDir)]
  {
    if os == Win32 then WindowsCMake(basename, o, libsDir) else [ShellCMake(basename, o, libsDir)]
  }

  /** Steps that create, enter or remove no directory. */
  predicate KeepsDirs(a: Action)
  {
    !a.MakeTempDir? && !a.ChangeDir? && !a.RemoveTree?
  }

  /**
   * `_callCMake` with the command already built: copy CMakeLists.txt if
   * missing, make and enter a scratch directory, run CMake, go back, and
   * remove the scratch directory only after a zero exit status without
   * `keeptemp`.
   */
  function CMakeSteps(env: Env, cmd: seq<string>, keepTemp: bool): (steps: seq<Action>)
    ensures forall i :: 0 <= i < |steps| ==> !steps[i].LoadLibrary? && !steps[i].CallInit? && !steps[i].WriteCudaHost?
    ensures CopyCMakeLists in steps <==> !env.cmakeListsPresent
    ensures RemoveTree(env.tempDir) in steps <==> env.cmakeReturnCode == 0 && !keepTemp
    ensures RunCMake(cmd) in steps
  {
    var copy := When(!env.cmakeListsPresent, CopyCMakeLists);
    var mid := [MakeTempDir(env.tempDir), ChangeDir(env.tempDir), RunCMake(cmd), ChangeDir(env.cwd)];
    var rm := When(env.cmakeReturnCode == 0 && !keepTemp, RemoveTree(env.tempDir));
    assert forall a :: a in copy + mid + rm <==> a in copy || a in mid || a in rm;
    copy + mid + rm
  }

  /**
   * The part of `_setupCFuncs` before CMake, once the trace has succeeded:
   * the script is written when it can be opened (otherwise the failure is
   * only reported), the generator runs regardless, then the CUDA host code
   * is written for CUDA builds.
   */
  function PreSteps(env: Env, script: string, generator: seq<string>, cuda: bool): (steps: seq<Action>)
    ensures |steps| >= 2 && steps[0] == TraceRun
    ensures forall i :: 0 <= i < |steps| ==> KeepsDirs(steps[i]) && !steps[i].LoadLibrary? && !steps[i].CallInit?
    ensures WriteScript(script) in steps <==> env.scriptWritable
    ensures WriteCudaHost in steps <==> cuda
    ensures steps[|steps| - 1 - (if cuda then 1 else 0)] == RunGenerator(generator)
  {
    var write := When(env.scriptWritable, WriteScript(script));
    var host := When(cuda, WriteCudaHost);
    var steps := [TraceRun] + write + [RunGenerator(generator)] + host;
    assert forall a :: a in steps <==> a == TraceRun || a in write || a == RunGenerator(generator) || a in host;
    steps
  }

  /** Load the library, resolve the main function, call `init_<name>`. */
  function Load(libs: map<string, Library>, path: string, namebase: string): (r: (Result<Loaded>, seq<Action>))
    ensures |r.1| >= 1 && r.1[0] == LoadLibrary(path)
    ensures forall i :: 0 <= i < |r.1| ==> r.1[i].LoadLibrary? || r.1[i].CallInit?
    ensures r.0.Ok? <==> path in libs && namebase in libs[path].symbols && InitPrefix + namebase in libs[path].symbols
    ensures r.0.Ok? ==> r.0.value == Loaded(namebase, path, libs[path]) && r.1 == [LoadLibrary(path), CallInit(InitPrefix + namebase)]
    ensures r.0.Err? ==> r.1 == [LoadLibrary(path)]
    ensures path !in libs ==> r.0 == Err(LoadError(path))
  {
    if path !in libs then (Err(LoadError(path)), [LoadLibrary(path)])
    else
      var lib := libs[path];
      match MainSymbol(lib, namebase)
      case Err(e) => (Err(e), [LoadLibrary(path)])
      case Ok(_) =>
        match EntryPoint(lib, InitPrefix, namebase)
        case Err(e) => (Err(e), [LoadLibrary(path)])
        case Ok(f) => (Ok(Loaded(namebase, path, lib)), [LoadLibrary(path), CallInit(f)])
  }

  /** The `_namebase` of a prepared solver. */
  function NamebaseOf(prep: Prepared): string
  {
    Namebase(prep.namebase, prep.opts)
  }

  /** Where the library of a prepared solver lives. */
  function PathOf(prep: Prepared, libsDir: string, os: HostOS): string
  {
    LibPath(libsDir, NamebaseOf(prep), os)
  }

  /** The steps before CMake on a miss. */
  function PreOf(prep: Prepared, os: HostOS, env: Env): seq<Action>
  {
    var script := NamebaseOf(prep) + ".g";
    PreSteps(env, script, GeneratorCommand(os, script), prep.opts.cuda)
  }

  /** The CMake steps on a miss. */
  function CMakeOf(prep: Prepared, libsDir: string, os: HostOS, env: Env): seq<Action>
  {
    CMakeSteps(env, CMakeCommand(os, NamebaseOf(prep), prep.opts, libsDir), prep.opts.keepTemp)
  }

  /** The libraries on disk after a build: what `make install` left at the path, if anything. */
  function Installed(prep: Prepared, libsDir: string, os: HostOS, env: Env): map<string, Library>
  {
    if env.installed.Some? then env.libraries[PathOf(prep, libsDir, os) := env.installed.value] else env.libraries
  }

  /**
   * The base solver's constructor.  A trace failure propagates before
   * anything is written or run; neither subprocess's exit status stops the
   * build, so a failed build surfaces only when the library is loaded.
   */
  function Construct(prep: Prepared, trace: Result<Tracer.TraceState>, libsDir: string, os: HostOS, env: Env): Outcome
  {
    var namebase := NamebaseOf(prep);
    var path := PathOf(prep, libsDir, os);
    if path in env.libraries then
      var (res, steps) := Load(env.libraries, path, namebase);
      Outcome(res, steps, env.libraries)
    else if trace.Err? then
      Outcome(Err(trace.error), [TraceRun], env.libraries)
    else
      var libs := Installed(prep, libsDir, os, env);
      var (res, steps) := Load(libs, path, namebase);
      Outcome(res, PreOf(prep, os, env) + CMakeOf(prep, libsDir, os, env) + steps, libs)
  }

  /** Build steps: everything that traces, writes, generates or compiles. */
  predicate IsBuildStep(a: Action)
  {
    a.TraceRun? || a.WriteScript? || a.RunGenerator? || a.WriteCudaHost? || a.CopyCMakeLists? ||
    a.MakeTempDir? || a.RunCMake? || a.RemoveTree?
  }

  /** A cached library is loaded directly: no step of the build runs. */
  lemma CacheHitBuildsNothing(prep: Prepared, trace: Result<Tracer.TraceState>, libsDir: string, os: HostOS, env: Env)
    requires PathOf(prep, libsDir, os) in env.libraries
    ensures var out := Construct(prep, trace, libsDir, os, env);
      && out.log[0] == LoadLibrary(PathOf(prep, libsDir, os))
      && (forall i :: 0 <= i < |out.log| ==> !IsBuildStep(out.log[i]))
      && out.libraries == env.libraries
  {
  }

  /** A trace that fails stops the build before any script, generator or compiler step. */
  lemma TraceFailureStopsBuild(prep: Prepared, trace: Result<Tracer.TraceState>, libsDir: string, os: HostOS, env: Env)
    requires PathOf(prep, libsDir, os) !in env.libraries && trace.Err?
    ensures var out := Construct(prep, trace, libsDir, os, env);
      out.result == Err(trace.error) && out.log == [TraceRun] && out.libraries == env.libraries
  {
  }

  /** The log of a miss whose trace succeeds, in its three parts. */
  lemma MissLog(prep: Prepared, trace: Result<Tracer.TraceState>, libsDir: string, os: HostOS, env: Env)
    requires PathOf(prep, libsDir, os) !in env.libraries && trace.Ok?
    ensures var out := Construct(prep, trace, libsDir, os, env);
      var loaded := Load(Installed(prep, libsDir, os, env), PathOf(prep, libsDir, os), NamebaseOf(prep));
      && out.log == PreOf(prep, os, env) + CMakeOf(prep, libsDir, os, env) + loaded.1
      && out.result == loaded.0
      && out.libraries == Installed(prep, libsDir, os, env)
  {
  }

  /**
   * On a miss whose trace succeeds, the steps before CMake come first, then
   * the CMake steps, then the library is loaded.
   */
  lemma MissRunsStepsInOrder(prep: Prepared, trace: Result<Tracer.TraceState>, libsDir: string, os: HostOS, env: Env)
    requires PathOf(prep, libsDir, os) !in env.libraries && trace.Ok?
    ensures var out := Construct(prep, trace, libsDir, os, env);
      var pre := PreOf(prep, os, env);
      var cm := CMakeOf(prep, libsDir, os, env);
      && |out.log| > |pre| + |cm|
      && out.log[..|pre|] == pre
      && out.log[|pre|..|pre| + |cm|] == cm
      && out.log[|pre| + |cm|] == LoadLibrary(PathOf(prep, libsDir, os))
  {
    var pre := PreOf(prep, os, env);
    var cm := CMakeOf(prep, libsDir, os, env);
    var ld := Load(Installed(prep, libsDir, os, env), PathOf(prep, libsDir, os), NamebaseOf(prep)).1;
    MissLog(prep, trace, libsDir, os, env);
    ThreeParts(pre, cm, ld);
  }

  /** On a miss whose trace succeeds, the CUDA host code is written exactly for CUDA builds. */
  lemma CudaHostOnlyForCuda(prep: Prepared, trace: Result<Tracer.TraceState>, libsDir: string, os: HostOS, env: Env)
    requires PathOf(prep, libsDir, os) !in env.libraries && trace.Ok?
    ensures WriteCudaHost in Construct(prep, trace, libsDir, os, env).log <==> prep.opts.cuda
  {
    var pre := PreOf(prep, os, env);
    var cm := CMakeOf(prep, libsDir, os, env);
    var ld := Load(Installed(prep, libsDir, os, env), PathOf(prep, libsDir, os), NamebaseOf(prep)).1;
    MissLog(prep, trace, libsDir, os, env);
    InThreeParts(WriteCudaHost, pre, cm, ld);
    assert WriteCudaHost !in cm;
    assert WriteCudaHost !in ld;
  }

  /** The directories left after replaying the creations and removals of a log from s. */
  function ApplyDirs(s: set<string>, log: seq<Action>): set<string>
  {
    if |log| == 0 then s
    else
      var rest := ApplyDirs(s, log[..|log| - 1]);
      match log[|log| - 1]
      case MakeTempDir(d) => rest + {d}
      case RemoveTree(d) => rest - {d}
      case _ => rest
  }

  /** The working directory after replaying the directory changes of a log. */
  function CwdAfter(start: string, log: seq<Action>): string
  {
    if |log| == 0 then start
    else if log[|log| - 1].ChangeDir? then log[|log| - 1].dir
    else CwdAfter(start, log[..|log| - 1])
  }

  /** Replaying a concatenation replays the parts in turn. */
  lemma {:induction false} ReplayAppend(s: set<string>, start: string, a: seq<Action>, b: seq<Action>)
    ensures ApplyDirs(s, a + b) == ApplyDirs(ApplyDirs(s, a), b)
    ensures CwdAfter(start, a + b) == CwdAfter(CwdAfter(start, a), b)
    decreases |b|
  {
    if |b| == 0 {
      assert a + b == a;
    } else {
      var b' := b[..|b| - 1];
      assert (a + b)[..|a + b| - 1] == a + b';
      ReplayAppend(s, start, a, b');
    }
  }

  /** Steps that keep directories change nothing on replay. */
  lemma {:induction false} KeepsDirsReplay(s: set<string>, start: string, log: seq<Action>)
    requires forall i :: 0 <= i < |log| ==> KeepsDirs(log[i])
    ensures ApplyDirs(s, log) == s && CwdAfter(start, log) == start
  {
    if |log| > 0 {
      KeepsDirsReplay(s, start, log[..|log| - 1]);
    }
  }

  /** The CMake steps return to the working directory the constructor started in. */
  lemma CMakeStepsRestoreCwd(start: string, env: Env, cmd: seq<string>, keepTemp: bool)
    ensures CwdAfter(start, CMakeSteps(env, cmd, keepTemp)) == env.cwd
  {
    var t := env.tempDir;
    var copy := When(!env.cmakeListsPresent, CopyCMakeLists);
    var mid := [MakeTempDir(t), ChangeDir(t), RunCMake(cmd), ChangeDir(env.cwd)];
    var rm := When(env.cmakeReturnCode == 0 && !keepTemp, RemoveTree(t));
    assert CMakeSteps(env, cmd, keepTemp) == (copy + mid) + rm;
    ReplayAppend({}, start, copy + mid, rm);
    assert CwdAfter(start, copy + mid) == env.cwd;
    if |rm| == 1 {
      assert rm[..0] == [];
    }
  }

  /**
   * The CMake steps create a scratch directory and remove it again exactly
   * when CMake succeeded without `keeptemp`.
   */
  lemma CMakeStepsScratch(s: set<string>, env: Env, cmd: seq<string>, keepTemp: bool)
    ensures ApplyDirs(s, CMakeSteps(env, cmd, keepTemp))
      == (if env.cmakeReturnCode == 0 && !keepTemp then s - {env.tempDir} else s + {env.tempDir})
  {
    var t := env.tempDir;
    var cond := env.cmakeReturnCode == 0 && !keepTemp;
    var copy := When(!env.cmakeListsPresent, CopyCMakeLists);
    var mid := [MakeTempDir(t), ChangeDir(t), RunCMake(cmd), ChangeDir(env.cwd)];
    var rm := When(cond, RemoveTree(t));
    assert CMakeSteps(env, cmd, keepTemp) == (copy + mid) + rm;
    assert ApplyDirs(s, copy) == s by {
      KeepsDirsReplay(s, "", copy);
    }
    var made := ApplyDirs(s, copy + mid);
    assert made == s + {t} by {
      ReplayAppend(s, "", copy, mid);
      ScratchMade(s, t, mid);
    }
    assert ApplyDirs(s, (copy + mid) + rm) == ApplyDirs(made, rm) by {
      ReplayAppend(s, "", copy + mid, rm);
    }
    OptionalRemove(made, t, cond);
  }

  /** Replaying an optional removal removes the directory exactly when the condition holds. */
  lemma OptionalRemove(s: set<string>, t: string, cond: bool)
    ensures ApplyDirs(s, When(cond, RemoveTree(t))) == if cond then s - {t} else s
  {
    if cond {
      assert When(cond, RemoveTree(t))[..0] == [];
    }
  }

  /** Making a directory and then steps that neither make nor remove one leaves it made. */
  lemma ScratchMade(s: set<string>, t: string, mid: seq<Action>)
    requires |mid| == 4 && mid[0] == MakeTempDir(t)
    requires forall i :: 1 <= i < 4 ==> !mid[i].MakeTempDir? && !mid[i].RemoveTree?
    ensures ApplyDirs(s, mid) == s + {t}
  {
    var m3 := mid[..3];
    var m2 := m3[..2];
    var m1 := m2[..1];
    assert ApplyDirs(s, mid) == ApplyDirs(s, m3);
    assert ApplyDirs(s, m3) == ApplyDirs(s, m2);
    assert ApplyDirs(s, m2) == ApplyDirs(s, m1);
    assert m1 == [MakeTempDir(t)] && m1[..0] == [];
    assert ApplyDirs(s, m1) == ApplyDirs(s, []) + {t};
  }

  /**
   * A build that reaches CMake removes its scratch directory exactly when
   * CMake succeeded and `keeptemp` is not set.
   */
  lemma ScratchRemovedIff(prep: Prepared, trace: Result<Tracer.TraceState>, libsDir: string, os: HostOS, env: Env)
    requires PathOf(prep, libsDir, os) !in env.libraries && trace.Ok?
    ensures RemoveTree(env.tempDir) in Construct(prep, trace, libsDir, os, env).log
      <==> env.cmakeReturnCode == 0 && !prep.opts.keepTemp
  {
    var pre := PreOf(prep, os, env);
    var cm := CMakeOf(prep, libsDir, os, env);
    var ld := Load(Installed(prep, libsDir, os, env), PathOf(prep, libsDir, os), NamebaseOf(prep)).1;
    MissLog(prep, trace, libsDir, os, env);
    OnlyCMakeRemoves(env.tempDir, pre, cm, ld);
  }

  /** Only the CMake part of a build log removes a directory. */
  lemma OnlyCMakeRemoves(t: string, pre: seq<Action>, cm: seq<Action>, ld: seq<Action>)
    requires forall i :: 0 <= i < |pre| ==> KeepsDirs(pre[i])
    requires forall i :: 0 <= i < |ld| ==> ld[i].LoadLibrary? || ld[i].CallInit?
    ensures RemoveTree(t) in pre + cm + ld <==> RemoveTree(t) in cm
  {
    InThreeParts(RemoveTree(t), pre, cm, ld);
    assert RemoveTree(t) !in pre && RemoveTree(t) !in ld by {
      assert forall i :: 0 <= i < |pre| ==> !pre[i].RemoveTree?;
      assert forall i :: 0 <= i < |ld| ==> !ld[i].RemoveTree?;
    }
  }

  /**
   * Replaying the directory steps of a build that reaches CMake: the scratch
   * directory is left behind exactly when CMake failed or `keeptemp` is set,
   * and the constructor ends in the working directory it started in.
   */
  lemma ScratchReplay(prep: Prepared, trace: Result<Tracer.TraceState>, libsDir: string, os: HostOS, env: Env)
    requires PathOf(prep, libsDir, os) !in env.libraries && trace.Ok?
    ensures var out := Construct(prep, trace, libsDir, os, env);
      && (env.tempDir in ApplyDirs({}, out.log) <==> env.cmakeReturnCode != 0 || prep.opts.keepTemp)
      && CwdAfter(env.cwd, out.log) == env.cwd
  {
    var pre := PreOf(prep, os, env);
    var cm := CMakeOf(prep, libsDir, os, env);
    var ld := Load(Installed(prep, libsDir, os, env), PathOf(prep, libsDir, os), NamebaseOf(prep)).1;
    MissLog(prep, trace, libsDir, os, env);
    assert forall i :: 0 <= i < |ld| ==> KeepsDirs(ld[i]);
    KeepsDirsReplay({}, env.cwd, pre);
    ReplayAppend({}, env.cwd, pre, cm);
    CMakeStepsRestoreCwd(env.cwd, env, CMakeCommand(os, NamebaseOf(prep), prep.opts, libsDir), prep.opts.keepTemp);
    CMakeStepsScratch({}, env, CMakeCommand(os, NamebaseOf(prep), prep.opts, libsDir), prep.opts.keepTemp);
    ReplayAppend({}, env.cwd, pre + cm, ld);
    KeepsDirsReplay(ApplyDirs({}, pre + cm), env.cwd, ld);
  }

  /** A successful construction calls `init_<name>` exactly once, as its last step. */
  lemma InitCalledOnce(prep: Prepared, trace: Result<Tracer.TraceState>, libsDir: string, os: HostOS, env: Env)
    requires Construct(prep, trace, libsDir, os, env).result.Ok?
    ensures var out := Construct(prep, trace, libsDir, os, env);
      && |out.log| >= 2 && out.log[|out.log| - 1] == CallInit(InitPrefix + NamebaseOf(prep))
      && forall i :: 0 <= i < |out.log| - 1 ==> !out.log[i].CallInit?
  {
    var path := PathOf(prep, libsDir, os);
    if path !in env.libraries {
      MissLog(prep, trace, libsDir, os, env);
      InitLast(PreOf(prep, os, env) + CMakeOf(prep, libsDir, os, env), path, InitPrefix + NamebaseOf(prep));
    }
  }

  /** Build steps followed by a load and an init call: the init call is the only one, and last. */
  lemma InitLast(built: seq<Action>, path: string, f: string)
    requires forall i :: 0 <= i < |built| ==> !built[i].CallInit?
    ensures var log := built + [LoadLibrary(path), CallInit(f)];
      && log[|log| - 1] == CallInit(f)
      && forall i :: 0 <= i < |log| - 1 ==> !log[i].CallInit?
  {
  }

  /**
   * Once a construction succeeds, constructing the same solver again against
   * the libraries it left is a cache hit that loads the same library and
   * runs no build step.
   */
  lemma SecondConstructionIsHit(prep: Prepared, trace: Result<Tracer.TraceState>, trace2: Result<Tracer.TraceState>,
                                libsDir: string, os: HostOS, env: Env, env2: Env)
    requires Construct(prep, trace, libsDir, os, env).result.Ok?
    requires env2.libraries == Construct(prep, trace, libsDir, os, env).libraries
    ensures var first := Construct(prep, trace, libsDir, os, env);
      var second := Construct(prep, trace2, libsDir, os, env2);
      && second.result == first.result
      && second.log == [LoadLibrary(PathOf(prep, libsDir, os)), CallInit(InitPrefix + NamebaseOf(prep))]
  {
  }

  /** `__del__`: call `destroy_<name>`, or raise naming it. */
  function Destroy(s: Loaded): (r: Result<Action>)
    ensures r.Ok? <==> DestroyPrefix + s.namebase in s.lib.symbols
    ensures r.Ok? ==> r.value == CallDestroy(DestroyPrefix + s.namebase)
    ensures r.Err? ==> r.error == RuntimeError("could not find function: " + DestroyPrefix + s.namebase)
  {
    var f :- EntryPoint(s.lib, DestroyPrefix, s.namebase);
    Ok(CallDestroy(f))
  }
}
