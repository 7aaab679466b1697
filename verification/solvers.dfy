/**
 * What every solver constructor does before and inside the base solver's
 * constructor: the type check, the artifact name (`namebase`), the options
 * handed on, and the cache path of the shared library.  The name is at once
 * the cache key, the generated file name and the entry-point prefix, so the
 * lemmas here are about which requests share it.
 */
module Solvers {
  import opened Common
  import opened Text
  import opened Config
  import opened Problems
  import Dft
  import Mddft
  import Mdprdft
  import Prdft
  import BatchMddft
  import Mdrconv
  import Mdrfsconv
  import StepPhase
  import Hockney
  import Tracer

  /** The solver kind whose constructor accepts p. */
  function KindOf(p: Problem): (k: SolverKind)
    ensures Accepts(k, p)
  {
    match p
    case DftProblem(_, _) => DftSolver
    case MddftProblem(_, _) => MddftSolver
    case MdprdftProblem(_, _) => MdprdftSolver
    case PrdftProblem(_, _, _, _, _) => PrdftSolver
    case BatchMddftProblem(_, _, _) => BatchMddftSolver
    case MdrconvProblem(_) => MdrconvSolver
    case MdrfsconvProblem(_) => MdrfsconvSolver
    case StepPhaseProblem(_) => StepPhaseSolver
    case HockneyProblem(_, _, _) => HockneySolver
  }

  /** The TypeError each constructor raises for a problem of another class, as written. */
  function TypeErrorMessage(kind: SolverKind): string
  {
    match kind
    case DftSolver => "problem must be a DftProblem"
    case MddftSolver => "problem must be an MddftProblem"
    case MdprdftSolver => "problem must be an MddftProblem"
    case PrdftSolver => "problem must be a PrdftProblem"
    case BatchMddftSolver => "problem must be a BatchMddftProblem"
    case MdrconvSolver => "problem must be an MdrconvProblem"
    case MdrfsconvSolver => "problem must be an MdrfsconvProblem"
    case StepPhaseSolver => "problem must be a StepPhaseProblem"
    case HockneySolver => "problem must be a HockneyProblem"
  }

  /** The `namebase` a solver constructor passes to the base constructor. */
  function BaseName(p: Problem, o: Options): string
  {
    match p
    case DftProblem(n, dir) => Dft.Name(n, dir)
    case MddftProblem(ns, dir) => Mddft.Name(ns, dir, o)
    case MdprdftProblem(ns, dir) => Mdprdft.Name(ns, dir, o)
    case PrdftProblem(n, dir, batch, rs, ws) => Prdft.Name(n, dir, batch, rs, ws, o)
    case BatchMddftProblem(ns, batch, dir) => BatchMddft.Name(ns, batch, dir, o)
    case MdrconvProblem(n) => Mdrconv.Name(n, o)
    case MdrfsconvProblem(n) => Mdrfsconv.Name(n, o)
    case StepPhaseProblem(n) => StepPhase.Name(n, o)
    case HockneyProblem(n, ns, nd) => Hockney.Name(n, ns, nd)
  }

  /** What reaches the base constructor. */
  datatype Prepared = Prepared(kind: SolverKind, namebase: string, opts: Options)

  /**
   * A solver constructor up to the call of the base constructor: the
   * isinstance check, then the work some constructors do first (the complex
   * shape of the packed real MDDFT, the Hockney symbol), which can raise.
   */
  function Prepare(kind: SolverKind, p: Problem, o: Options): (r: Result<Prepared>)
    ensures !Accepts(kind, p) ==> r == Err(TypeError(TypeErrorMessage(kind)))
    ensures r.Ok? <==> Accepts(kind, p) && !(p.MdprdftProblem? && |p.ns| == 0) && !(p.HockneyProblem? && p.n < 0)
    ensures r.Err? && Accepts(kind, p) ==> r.error == IndexError
    ensures r.Ok? ==> r.value.kind == kind && r.value.namebase == BaseName(p, o) && r.value.opts == EffectiveOptions(kind, o)
  {
    if !Accepts(kind, p) then Err(TypeError(TypeErrorMessage(kind)))
    else
      var _ :- if p.MdprdftProblem? then Mdprdft.Cxns(p.ns, o.colMajor) else Ok([]);
      var _ :- if p.HockneyProblem? then Hockney.SymbolShape(p.n) else Ok(Tracer.Cube3(0));
      Ok(Prepared(kind, BaseName(p, o), EffectiveOptions(kind, o)))
  }

  /** The base constructor's `_namebase`: `_cu` is appended for CUDA builds. */
  function Namebase(base: string, o: Options): string
  {
    base + (if o.cuda then "_cu" else "")
  }

  /** The separator `os.path.join` inserts. */
  function PathSep(os: HostOS): string
  {
    if os == Win32 then "\\" else "/"
  }

  /** The base solver's library extension: `.dll` on Windows and `.so` everywhere else, macOS included. */
  function LibExt(os: HostOS): (ext: string)
    ensures ext == ".dll" <==> os == Win32
    ensures ext == ".so" <==> os != Win32
  {
    if os == Win32 then ".dll" else ".so"
  }

  /** `os.path.join(libsDir, 'lib' + namebase + libext)`. */
  function LibPath(libsDir: string, namebase: string, os: HostOS): (path: string)
    ensures StartsWith(path, libsDir + PathSep(os) + "lib")
    ensures EndsWith(path, namebase + LibExt(os))
  {
    var head := libsDir + PathSep(os) + "lib";
    var path := head + (namebase + LibExt(os));
    assert path[..|head|] == head;
    assert path[|path| - |namebase + LibExt(os)|..] == namebase + LibExt(os);
    path
  }

  /**
   * On macOS the base solver looks for a `.so` library although the
   * package's published extension there is `.dylib`.
   */
  lemma DarwinExtensionsDiffer()
    ensures LibExt(Darwin) != SharedLibExt(Darwin)
  {
  }

  /** No solver's name ends in 'u', so the `_cu` suffix is never ambiguous. */
  predicate NoUTail(s: string)
  {
    |s| > 0 && s[|s| - 1] != 'u'
  }

  lemma LastOfConcat(a: string, b: string)
    requires |b| > 0
    ensures (a + b)[|a + b| - 1] == b[|b| - 1]
  {
  }

  /** An integer's text ends in a digit, and so does any name ending with it. */
  lemma EndsWithNumeral(head: string, i: int)
    ensures NoUTail(head + IntToString(i))
  {
    LastOfConcat(head, IntToString(i));
  }

  lemma BaseNameNoUTail(p: Problem, o: Options)
    ensures NoUTail(BaseName(p, o))
  {
    match p
    case DftProblem(n, dir) =>
      EndsWithNumeral(Dft.DirPart(dir), n);
    case MddftProblem(ns, dir) =>
      ShapeNameNoUTail(ComplexLetter(o) + Mddft.DirPart(dir), ns, o);
    case MdprdftProblem(ns, dir) =>
      ShapeNameNoUTail(ComplexLetter(o) + Mdprdft.DirPart(dir), ns, o);
    case PrdftProblem(n, dir, batch, rs, ws) =>
      PrdftNameNoUTail(n, dir, batch, rs, ws, o);
    case BatchMddftProblem(ns, batch, dir) =>
      EndsWithNumeral(ComplexLetter(o) + "batchmddft" + BatchMddft.DirPart(dir) + JoinX(ns) + "x", batch);
    case MdrconvProblem(n) =>
      EndsWithNumeral(RealLetter(o) + "mdrconv_", n);
    case MdrfsconvProblem(n) =>
      MdrfsconvNameNoUTail(n, o);
    case StepPhaseProblem(n) =>
      EndsWithNumeral(ComplexLetter(o) + "stepphase_", n);
    case HockneyProblem(n, ns, nd) =>
      EndsWithNumeral("hockney" + "_" + IntToString(n) + "_" + IntToString(ns) + "_", nd);
  }

  lemma PrdftNameNoUTail(n: int, dir: Direction, batch: seq<int>, rs: int, ws: int, o: Options)
    ensures NoUTail(Prdft.Name(n, dir, batch, rs, ws, o))
  {
    var suffix := Prdft.BatchSuffix(batch, rs, ws);
    var tail := IntToString(n) + suffix;
    assert NoUTail(tail) by {
      if |suffix| > 0 {
        LastOfConcat(IntToString(n), suffix);
      } else {
        assert tail == IntToString(n);
      }
    }
    LastOfConcat(Prdft.DirPart(dir), tail);
    LastOfConcat(RealLetter(o), Prdft.DirPart(dir) + tail);
  }

  lemma MdrfsconvNameNoUTail(n: int, o: Options)
    ensures NoUTail(Mdrfsconv.Name(n, o))
  {
    JoinXChars([n, n, n]);
    LastOfConcat(RealLetter(o) + "Mdrfsconv_", JoinX([n, n, n]));
    assert Mdrfsconv.Name(n, o) == RealLetter(o) + "Mdrfsconv_" + JoinX([n, n, n]);
  }

  /** `head + 'x'.join(dims)` plus the optional `_F`: ends in a digit, 'F' or the head's '_'. */
  lemma ShapeNameNoUTail(head: string, ns: seq<int>, o: Options)
    requires |head| > 0 && head[|head| - 1] == '_'
    ensures NoUTail(head + JoinX(ns) + ColMajorSuffix(o))
  {
    if o.colMajor {
      LastOfConcat(head + JoinX(ns), "_F");
    } else if |ns| > 0 {
      JoinXChars(ns);
      LastOfConcat(head, JoinX(ns));
      assert head + JoinX(ns) + ColMajorSuffix(o) == head + JoinX(ns);
    } else {
      assert JoinX(ns) == [];
      assert head + JoinX(ns) + ColMajorSuffix(o) == head;
    }
  }

  /**
   * The library path of a solver names its base name and whether it is a
   * CUDA build: two requests share a cached library exactly when their base
   * names agree and they agree on CUDA.
   */
  lemma LibPathDeterminesName(dir: string, os: HostOS, p1: Problem, o1: Options, p2: Problem, o2: Options)
    ensures LibPath(dir, Namebase(BaseName(p1, o1), o1), os) == LibPath(dir, Namebase(BaseName(p2, o2), o2), os)
      <==> BaseName(p1, o1) == BaseName(p2, o2) && o1.cuda == o2.cuda
  {
    var b1, b2 := BaseName(p1, o1), BaseName(p2, o2);
    var head := dir + PathSep(os) + "lib";
    var ext := LibExt(os);
    if LibPath(dir, Namebase(b1, o1), os) == LibPath(dir, Namebase(b2, o2), os) {
      assert head + (Namebase(b1, o1) + ext) == head + (Namebase(b2, o2) + ext);
      SameLengthPrefix(head, Namebase(b1, o1) + ext, head, Namebase(b2, o2) + ext);
      SameLengthSuffix(Namebase(b1, o1), ext, Namebase(b2, o2), ext);
      BaseNameNoUTail(p1, o1);
      BaseNameNoUTail(p2, o2);
      OptionalSuffixDetermined(b1, o1.cuda, b2, o2.cuda, "_cu");
    }
  }

  /**
   * The family a name belongs to, decided by its first characters: the
   * Hockney and DFT names start with their family word, every other name with
   * a precision letter ('c'/'z' complex, 'f'/'d' real) and then its family
   * word, and the family words differ within the first three characters.
   */
  function KindOfName(name: string): Option<SolverKind>
  {
    if |name| < 4 then None
    else if name[0] == 'h' then Some(HockneySolver)
    else if name[0] == 'd' && name[1] == 'f' then Some(DftSolver)
    else if name[0] == 'c' || name[0] == 'z' then
      if name[1] == 'm' then (if name[3] == 'd' then Some(MddftSolver) else Some(MdprdftSolver))
      else if name[1] == 'i' then Some(MdprdftSolver)
      else if name[1] == 'b' then Some(BatchMddftSolver)
      else if name[1] == 's' then Some(StepPhaseSolver)
      else None
    else if name[0] == 'f' || name[0] == 'd' then
      if name[1] == 'p' || name[1] == 'i' then Some(PrdftSolver)
      else if name[1] == 'm' then Some(MdrconvSolver)
      else if name[1] == 'M' then Some(MdrfsconvSolver)
      else None
    else None
  }

  /** The characters of a precision letter followed by a family word. */
  lemma LetterThen(letter: string, word: string, tail: string)
    requires |letter| == 1 && |word| >= 3
    ensures var name := letter + word + tail;
      |name| >= 4 && name[0] == letter[0] && name[1] == word[0] && name[3] == word[2]
  {
  }

  /** Every base name is recognised as its own family. */
  lemma KindOfBaseName(p: Problem, o: Options)
    ensures KindOfName(BaseName(p, o)) == Some(KindOf(p))
  {
    match p
    case DftProblem(n, dir) => FamilyDft(n, dir);
    case MddftProblem(ns, dir) => FamilyMddft(ns, dir, o);
    case MdprdftProblem(ns, dir) => FamilyMdprdft(ns, dir, o);
    case PrdftProblem(n, dir, batch, rs, ws) => FamilyPrdft(n, dir, batch, rs, ws, o);
    case BatchMddftProblem(ns, batch, dir) => FamilyBatchMddft(ns, batch, dir, o);
    case MdrconvProblem(n) => FamilyMdrconv(n, o);
    case MdrfsconvProblem(n) => FamilyMdrfsconv(n, o);
    case StepPhaseProblem(n) => FamilyStepPhase(n, o);
    case HockneyProblem(n, ns, nd) => FamilyHockney(n, ns, nd);
  }

  lemma FamilyDft(n: int, dir: Direction)
    ensures KindOfName(Dft.Name(n, dir)) == Some(DftSolver)
  {
    var name := Dft.DirPart(dir) + IntToString(n);
    assert name[0] == 'd' && name[1] == 'f';
  }

  lemma FamilyMddft(ns: seq<int>, dir: Direction, o: Options)
    ensures KindOfName(Mddft.Name(ns, dir, o)) == Some(MddftSolver)
  {
    LetterThen(ComplexLetter(o), Mddft.DirPart(dir), JoinX(ns) + ColMajorSuffix(o));
    assert Mddft.Name(ns, dir, o) == ComplexLetter(o) + Mddft.DirPart(dir) + (JoinX(ns) + ColMajorSuffix(o));
  }

  lemma FamilyMdprdft(ns: seq<int>, dir: Direction, o: Options)
    ensures KindOfName(Mdprdft.Name(ns, dir, o)) == Some(MdprdftSolver)
  {
    LetterThen(ComplexLetter(o), Mdprdft.DirPart(dir), JoinX(ns) + ColMajorSuffix(o));
    assert Mdprdft.Name(ns, dir, o) == ComplexLetter(o) + Mdprdft.DirPart(dir) + (JoinX(ns) + ColMajorSuffix(o));
  }

  lemma FamilyPrdft(n: int, dir: Direction, batch: seq<int>, rs: int, ws: int, o: Options)
    ensures KindOfName(Prdft.Name(n, dir, batch, rs, ws, o)) == Some(PrdftSolver)
  {
    var name := Prdft.Name(n, dir, batch, rs, ws, o);
    var head := RealLetter(o) + Prdft.DirPart(dir);
    assert |head| >= 4 && name[..|head|] == head;
    assert name[0] == head[0] && name[1] == head[1];
  }

  lemma FamilyBatchMddft(ns: seq<int>, batch: int, dir: Direction, o: Options)
    ensures KindOfName(BatchMddft.Name(ns, batch, dir, o)) == Some(BatchMddftSolver)
  {
    var name := BatchMddft.Name(ns, batch, dir, o);
    var head := ComplexLetter(o) + "batchmddft";
    assert |name| >= 4 && name[0] == head[0] && name[1] == head[1];
  }

  lemma FamilyMdrconv(n: int, o: Options)
    ensures KindOfName(Mdrconv.Name(n, o)) == Some(MdrconvSolver)
  {
    LetterThen(RealLetter(o), "mdrconv_", IntToString(n));
  }

  lemma FamilyMdrfsconv(n: int, o: Options)
    ensures KindOfName(Mdrfsconv.Name(n, o)) == Some(MdrfsconvSolver)
  {
    LetterThen(RealLetter(o), "Mdrfsconv_", JoinX([n, n, n]));
    assert Mdrfsconv.Name(n, o) == RealLetter(o) + "Mdrfsconv_" + JoinX([n, n, n]);
  }

  lemma FamilyStepPhase(n: int, o: Options)
    ensures KindOfName(StepPhase.Name(n, o)) == Some(StepPhaseSolver)
  {
    LetterThen(ComplexLetter(o), "stepphase_", IntToString(n));
  }

  lemma FamilyHockney(n: int, ns: int, nd: int)
    ensures KindOfName(Hockney.Name(n, ns, nd)) == Some(HockneySolver)
  {
    var name := Hockney.Name(n, ns, nd);
    assert |name| >= 4 && name[0] == 'h';
  }

  /** Problems of different classes never share a name, whatever the options. */
  lemma NamesSeparateKinds(p1: Problem, o1: Options, p2: Problem, o2: Options)
    requires KindOf(p1) != KindOf(p2)
    ensures BaseName(p1, o1) != BaseName(p2, o2)
  {
    KindOfBaseName(p1, o1);
    KindOfBaseName(p2, o2);
  }

  /** Options other than CUDA, precision and column-major never reach a name. */
  predicate SameNamingOptions(o1: Options, o2: Options)
  {
    o1.realCType == o2.realCType && o1.colMajor == o2.colMajor
  }

  lemma NameIgnoresOtherOptions(p: Problem, o1: Options, o2: Options)
    requires SameNamingOptions(o1, o2)
    ensures BaseName(p, o1) == BaseName(p, o2)
  {
  }

  /**
   * The HIP flag never reaches a name: a HIP build and a CPU build of the
   * same problem share one cached library.
   */
  lemma HipSharesCache(dir: string, os: HostOS, p: Problem, o: Options)
    requires o.hip && !o.cuda
    ensures LibPath(dir, Namebase(BaseName(p, o), o), os) ==
            LibPath(dir, Namebase(BaseName(p, o.(hip := false)), o.(hip := false)), os)
  {
    NameIgnoresOtherOptions(p, o, o.(hip := false));
  }

  /**
   * Neither the DFT nor the Hockney name mentions the precision, so a single
   * and a double precision solver of the same problem share one library.
   */
  lemma PrecisionBlindNames(p: Problem, o: Options)
    requires p.DftProblem? || p.HockneyProblem?
    ensures BaseName(p, o.(realCType := Float)) == BaseName(p, o.(realCType := Double))
  {
  }

  /** For every other problem class the precision is part of the name. */
  lemma PrecisionInOtherNames(p: Problem, o: Options)
    requires !(p.DftProblem? || p.HockneyProblem?)
    ensures BaseName(p, o.(realCType := Float)) != BaseName(p, o.(realCType := Double))
  {
    var f, d := o.(realCType := Float), o.(realCType := Double);
    BaseNameHead(p, f);
    BaseNameHead(p, d);
  }

  /** The first character of a name is its precision letter, for the classes that have one. */
  lemma BaseNameHead(p: Problem, o: Options)
    requires !(p.DftProblem? || p.HockneyProblem?)
    ensures |BaseName(p, o)| > 0
    ensures BaseName(p, o)[0] == (if p.PrdftProblem? || p.MdrconvProblem? || p.MdrfsconvProblem? then RealLetter(o) else ComplexLetter(o))[0]
  {
  }

  /** The metadata a solver records, for the classes that record any. */
  function FunctionMetadata(p: Problem, o: Options): (m: Option<map<MetaKey, MetaValue>>)
    ensures m.Some? <==> !(p.BatchMddftProblem? || p.StepPhaseProblem? || p.HockneyProblem?)
    ensures m.Some? ==> TransformTypeKey in m.value && m.value[TransformTypeKey].TypeValue?
  {
    match p
    case DftProblem(_, _) => Some(Dft.Metadata())
    case MddftProblem(_, _) => Some(Mddft.Metadata())
    case MdprdftProblem(_, _) => Some(Mdprdft.Metadata(o))
    case PrdftProblem(_, _, batch, rs, ws) => Some(Prdft.Metadata(batch, rs, ws))
    case MdrconvProblem(_) => Some(Mdrconv.Metadata())
    case MdrfsconvProblem(_) => Some(Mdrfsconv.Metadata())
    case _ => None
  }

  /** The recorded transform type tells the solver classes apart. */
  lemma MetadataTypeIdentifiesKind(p1: Problem, o1: Options, p2: Problem, o2: Options)
    requires FunctionMetadata(p1, o1).Some? && FunctionMetadata(p2, o2).Some?
    requires FunctionMetadata(p1, o1).value[TransformTypeKey] == FunctionMetadata(p2, o2).value[TransformTypeKey]
    ensures KindOf(p1) == KindOf(p2)
  {
  }
}
