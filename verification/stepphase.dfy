/**
 * The step-phase solver (`stepphasesolver.py`): a forward real transform, a
 * pointwise replacement of the amplitudes, and the inverse transform, fused
 * into one generated function.
 */
module StepPhase {
  import opened Common
  import opened Text
  import opened Problems
  import opened Config
  import opened Scripts

  /** `<c|z>stepphase_<n>`. */
  function Name(n: int, o: Options): (name: string)
    ensures StartsWith(name, ComplexLetter(o) + "stepphase_") && EndsWith(name, IntToString(n))
  {
    var head := ComplexLetter(o) + "stepphase_";
    var name := head + IntToString(n);
    assert name[..|head|] == head;
    name
  }

  /** The name determines the size and the precision. */
  lemma NameInjective(n1: int, o1: Options, n2: int, o2: Options)
    requires Name(n1, o1) == Name(n2, o2)
    ensures n1 == n2 && o1.realCType == o2.realCType
  {
    SameLengthPrefix(ComplexLetter(o1) + "stepphase_", IntToString(n1), ComplexLetter(o2) + "stepphase_", IntToString(n2));
    SameLengthPrefix(ComplexLetter(o1), "stepphase_", ComplexLetter(o2), "stepphase_");
    IntToStringInjective(n1, n2);
  }

  /** `solve` without a supplied output: an n-cube of src's dtype on src's backend, unscaled. */
  function Output(n: int, backend: Backend, srcType: DType): (r: Result<Alloc>)
    ensures r.Err? <==> n < 0
    ensures r.Err? ==> r.error == ValueError
    ensures r.Ok? ==> r.value.shape == Dimensions(StepPhaseProblem(n)) && r.value.backend == backend && r.value.dtype == srcType
  {
    Zeros(backend, [n, n, n], srcType, COrder)
  }

  function Scaling(): (d: Divisor)
    ensures !d.DivideBy?
  {
    NoScaling
  }

  /** `szcube := [n, n, n];`, the problem dimensions as Python prints a list. */
  function SzCubeLine(n: int): string
  {
    var s := IntToString(n);
    "szcube := [" + s + ", " + s + ", " + s + "];"
  }

  /** The `szcube` line prints the problem's dimension list. */
  lemma SzCubeLineListsDims(n: int)
    ensures SzCubeLine(n) == "szcube := " + PyListString(Dimensions(StepPhaseProblem(n))) + ";"
  {
    var s := IntToString(n);
    assert Dimensions(StepPhaseProblem(n)) == [n, n, n];
    CubeListString(n);
    CubeLineRegroups(s);
  }

  /** The line written as one piece is the list display between `szcube := ` and `;`. */
  lemma CubeLineRegroups(s: string)
    ensures "szcube := [" + s + ", " + s + ", " + s + "];" == "szcube := " + ("[" + s + ", " + s + ", " + s + "]") + ";"
  {
    assert "szcube := [" == "szcube := " + "[";
    assert "];" == "]" + ";";
  }

  lemma CubeListString(n: int)
    ensures PyListString([n, n, n]) == "[" + IntToString(n) + ", " + IntToString(n) + ", " + IntToString(n) + "]"
  {
    var s := IntToString(n);
    var parts := DimStrings([n, n, n]);
    assert parts == [s, s, s];
    assert parts[1..] == [s, s] && parts[1..][1..] == [s];
    assert Join(parts[1..], ", ") == s + ", " + s;
  }

  /**
   * The three factors of the fused transform, leftmost first.  Operators
   * compose right to left, so the forward transform is applied first and
   * the inverse last.
   */
  const Factors: seq<string> := [
    "IMDPRDFT(szcube, 1)",
    "StepPhase_Pointwise(domain, symvar, V(fdiv(1.0, Product(szcube))))",
    "MDPRDFT(szcube, -1)"]

  /** The `t := TFCall(...)` line: the factors joined by ` * `. */
  function TransformLine(): string
  {
    "t := TFCall(" + Factors[0] + " * " + Factors[1] + " * " + Factors[2] + ","
  }

  /** The fused transform starts with the inverse factor and ends with the forward one. */
  lemma TransformLineOrder()
    ensures StartsWith(TransformLine(), "t := TFCall(" + Factors[0]) && EndsWith(TransformLine(), Factors[2] + ",")
  {
    var line := TransformLine();
    assert line[..|"t := TFCall(" + Factors[0]|] == "t := TFCall(" + Factors[0];
    assert line[|line| - |Factors[2] + ","|..] == Factors[2] + ",";
  }

  /** The script up to `opts := conf.getOpts(t);`. */
  function Preamble(n: int, name: string, o: Options): (lines: seq<string>)
    ensures |lines| == 14 && lines[2] == ConfLine(o, true) && lines[4] == SzCubeLine(n) && lines[10] == TransformLine()
  {
    var setup := [LoadLine, ImportLine, ConfLine(o, true), "", SzCubeLine(n), ""];
    var vars := ["symvar := var(\"amplitudes\", TPtr(TReal));", "name := \"" + name + "\";",
                 "domain := MDPRDFT(szcube, -1).dims()[1];", ""];
    var call := [TransformLine(), "    rec(fname := name, params := [symvar]));", "", OptsLine];
    ThreeParts(setup, vars, call);
    setup + vars + call
  }

  /** `_writeScript`. */
  function Script(n: int, name: string, o: Options): (lines: seq<string>)
    ensures |lines| >= 20 && lines[..14] == Preamble(n, name, o)
    ensures lines[14..|lines| - 6] == OptionLines(o, o.cuda || o.hip, false)
    ensures lines[|lines| - 2] == PrettyPrintTo(name, HipAwareExt(o))
  {
    var head := Preamble(n, name, o);
    var mid := OptionLines(o, o.cuda || o.hip, false);
    var tail := [FloatIncludeLine, TagLine, "", GenLine,
                 PrettyPrintTo(name, HipAwareExt(o)), ""];
    ThreeParts(head, mid, tail);
    head + mid + tail
  }
}
