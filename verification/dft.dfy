/**
 * The 1-D complex DFT solver (`dftsolver.py`).
 */
module Dft {
  import opened Common
  import opened Text
  import opened Config
  import opened Problems
  import opened Scripts

  function DirPart(dir: Direction): string
  {
    if dir == Forward then "dft_fwd_" else "dft_inv_"
  }

  /** `dft_fwd_<n>` or `dft_inv_<n>`; the precision option plays no part. */
  function Name(n: int, dir: Direction): (name: string)
    ensures StartsWith(name, "dft_")
    ensures EndsWith(name, IntToString(n))
  {
    DirPart(dir) + IntToString(n)
  }

  /** The name determines the length and the direction. */
  lemma NameInjective(n1: int, d1: Direction, n2: int, d2: Direction)
    requires Name(n1, d1) == Name(n2, d2)
    ensures n1 == n2 && d1 == d2
  {
    SameLengthPrefix(DirPart(d1), IntToString(n1), DirPart(d2), IntToString(n2));
    IntToStringInjective(n1, n2);
  }

  /** `solve`: a length-n complex double array on the host, returned unscaled. */
  function Output(n: int): (r: Result<Alloc>)
    ensures r.Err? <==> n < 0
    ensures r.Err? ==> r.error == ValueError
    ensures r.Ok? ==> |r.value.shape| == 1 && Prod(r.value.shape) == n
    ensures r.Ok? ==> r.value.dtype.ComplexType? && r.value.backend == Host
  {
    Zeros(Host, [n], ComplexType(Double64), COrder)
  }

  function Scaling(): (d: Divisor)
    ensures !d.DivideBy?
  {
    NoScaling
  }

  /** The inverse wraps the DFT in `Scale(1/n, ...)`; the forward emits it bare. */
  function TransformLine(dir: Direction): (line: string)
    ensures StartsWith(line, "transform := Scale(1/n, ") <==> dir == Inverse
    ensures EndsWith(line, "DFT(n, " + DirString(dir) + (if dir == Inverse then "));" else ");"))
  {
    if dir == Inverse then
      var line := "transform := Scale(1/n, DFT(n, " + DirString(dir) + "));";
      assert line[..24] == "transform := Scale(1/n, ";
      line
    else
      var line := "transform := DFT(n, " + DirString(dir) + ");";
      assert line[13] == 'D';
      line
  }

  /** `_writeScript`. */
  function Script(n: int, dir: Direction, name: string, o: Options): (lines: seq<string>)
    ensures TransformLine(dir) in lines
    ensures "nameroot := \"" + name + "\";" in lines
    ensures |lines| >= 2 && lines[|lines| - 2] == PrintToLine(name, CudaOnlyExt(o), "PrintCode(nameroot, code, opts)")
  {
    [ "opts := SpiralDefaults;", "",
      "n  := " + IntToString(n) + ";", "",
      "nameroot := \"" + name + "\";", "",
      TransformLine(dir),
      "ruletree  := RuleTreeMid(transform, opts);",
      "code      := CodeRuleTree(ruletree, opts);",
      PrintToLine(name, CudaOnlyExt(o), "PrintCode(nameroot, code, opts)"),
      "" ]
  }

  function Metadata(): map<MetaKey, MetaValue>
  {
    map[TransformTypeKey := TypeValue(DFT)]
  }
}
