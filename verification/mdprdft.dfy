/**
 * The multi-dimensional packed real DFT solver (`mdprdftsolver.py`): real
 * input and half-spectrum complex output for the forward direction, the
 * reverse for the inverse.
 */
module Mdprdft {
  import opened Common
  import opened Text
  import opened Config
  import opened Problems
  import opened Scripts

  function DirPart(dir: Direction): string
  {
    if dir == Forward then "mdprdft_" else "imdprdft_"
  }

  /** `<c|z>mdprdft_<dims>` or `<c|z>imdprdft_<dims>`, with `_F` for column-major. */
  function Name(ns: seq<int>, dir: Direction, o: Options): (name: string)
    ensures StartsWith(name, ComplexLetter(o) + DirPart(dir))
  {
    var head := ComplexLetter(o) + DirPart(dir);
    var name := head + JoinX(ns) + ColMajorSuffix(o);
    assert name == head + (JoinX(ns) + ColMajorSuffix(o));
    name
  }

  /**
   * For non-empty shapes the name determines the shape, the direction, the
   * precision and the storage order.
   */
  lemma NameInjective(ns1: seq<int>, d1: Direction, o1: Options, ns2: seq<int>, d2: Direction, o2: Options)
    requires |ns1| > 0 && |ns2| > 0
    requires Name(ns1, d1, o1) == Name(ns2, d2, o2)
    ensures ns1 == ns2 && d1 == d2 && o1.realCType == o2.realCType && o1.colMajor == o2.colMajor
  {
    var b1 := NameBody(ns1, d1, o1);
    var b2 := NameBody(ns2, d2, o2);
    OptionalSuffixDetermined(b1, o1.colMajor, b2, o2.colMajor, "_F");
    SameLengthPrefix(ComplexLetter(o1), DirPart(d1) + JoinX(ns1), ComplexLetter(o2), DirPart(d2) + JoinX(ns2));
    DirPartDetermined(d1, JoinX(ns1), d2, JoinX(ns2));
    JoinXInjective(ns1, ns2);
  }

  /** The name without its storage-order suffix; it ends in a digit. */
  lemma NameBody(ns: seq<int>, dir: Direction, o: Options) returns (b: string)
    requires |ns| > 0
    ensures b == ComplexLetter(o) + (DirPart(dir) + JoinX(ns))
    ensures Name(ns, dir, o) == b + (if o.colMajor then "_F" else "")
    ensures |b| > 0 && IsDigit(b[|b| - 1])
  {
    b := ComplexLetter(o) + (DirPart(dir) + JoinX(ns));
    assert Name(ns, dir, o) == b + ColMajorSuffix(o) by {
      assert (ComplexLetter(o) + DirPart(dir)) + JoinX(ns) == b;
    }
    assert IsDigit(b[|b| - 1]) by {
      JoinXChars(ns);
      assert b[|b| - 1] == JoinX(ns)[|JoinX(ns)| - 1];
    }
  }

  /** The direction part is recognisable by its first character. */
  lemma DirPartDetermined(d1: Direction, t1: string, d2: Direction, t2: string)
    requires DirPart(d1) + t1 == DirPart(d2) + t2
    ensures d1 == d2 && t1 == t2
  {
    assert (DirPart(d1) + t1)[0] == DirPart(d1)[0];
    assert (DirPart(d2) + t2)[0] == DirPart(d2)[0];
    SameLengthPrefix(DirPart(d1), t1, DirPart(d2), t2);
  }

  /** The axis whose length is halved: the last in C order, the first in Fortran order. */
  function HalvedAxis(len: nat, colMajor: bool): int
  {
    if colMajor then 0 else len - 1
  }

  /** Replace the last entry d by d//2+1. */
  function HalveLast(d: seq<int>): seq<int>
    requires |d| > 0
  {
    d[..|d| - 1] + [FloorDiv(d[|d| - 1], 2) + 1]
  }

  /**
   * `_cxns`, the shape of the complex half-spectrum array, computed as the
   * constructor does: pop the last entry and push back its half, reversing
   * before and after for column-major.  Popping an empty list raises.
   */
  function Cxns(ns: seq<int>, colMajor: bool): (r: Result<seq<int>>)
    ensures r.Ok? <==> |ns| > 0
    ensures r.Err? ==> r.error == IndexError
    ensures r.Ok? ==> |r.value| == |ns|
    ensures r.Ok? ==> forall i :: 0 <= i < |ns| ==>
      r.value[i] == (if i == HalvedAxis(|ns|, colMajor) then FloorDiv(ns[i], 2) + 1 else ns[i])
  {
    if |ns| == 0 then Err(IndexError)
    else if colMajor then Ok(Reverse(HalveLast(Reverse(ns))))
    else Ok(HalveLast(ns))
  }

  /**
   * `solve` without a supplied output: forward gives a complex array of the
   * half-spectrum shape, inverse a real array of the problem shape; Fortran
   * order iff column-major.
   */
  function Output(ns: seq<int>, cxns: seq<int>, dir: Direction, backend: Backend, o: Options): (r: Result<Alloc>)
    ensures dir == Forward ==> (r.Err? <==> exists i :: 0 <= i < |cxns| && cxns[i] < 0)
    ensures dir == Inverse ==> (r.Err? <==> exists i :: 0 <= i < |ns| && ns[i] < 0)
    ensures r.Err? ==> r.error == ValueError
    ensures r.Ok? && dir == Forward ==> r.value.shape == cxns && r.value.dtype == ComplexType(PrecisionOf(o))
    ensures r.Ok? && dir == Inverse ==> r.value.shape == ns && r.value.dtype == RealType(PrecisionOf(o))
    ensures r.Ok? ==> (r.value.order == FOrder <==> o.colMajor) && r.value.backend == backend
  {
    var order := if o.colMajor then FOrder else COrder;
    if dir == Forward then Zeros(backend, cxns, ComplexType(PrecisionOf(o)), order)
    else Zeros(backend, ns, RealType(PrecisionOf(o)), order)
  }

  /** Only the inverse is normalised, by the element count of the output. */
  function Scaling(dir: Direction, dstShape: seq<int>): (d: Divisor)
    ensures d.DivideBy? <==> dir == Inverse
    ensures d.DivideBy? ==> d.num == Prod(dstShape) && d.den == 1
  {
    if dir == Inverse then DivideBy(Prod(dstShape), 1) else NoScaling
  }

  function Xform(dir: Direction): string
  {
    if dir == Forward then "MDPRDFT" else "IMDPRDFT"
  }

  const RealArray: string := "TArrayNDF(TReal, ns)"
  const ConjEvenArray: string := "TArrayNDF_ConjEven(TComplex, ns)"

  /** Input and output array types under column-major: real into conj-even forward, back for the inverse. */
  function XType(dir: Direction): string
  {
    if dir == Inverse then ConjEvenArray else RealArray
  }

  function YType(dir: Direction): string
  {
    if dir == Inverse then RealArray else ConjEvenArray
  }

  /** The input type of one direction is the output type of the other, and the two differ. */
  lemma TypesSwapWithDirection(dir: Direction, other: Direction)
    requires dir != other
    ensures XType(dir) == YType(other) && YType(dir) == XType(other)
    ensures XType(dir) != YType(dir)
  {
  }

  /** The call inside `let(...)`: `TFCallF` with explicit array types for column-major. */
  function Call(dir: Direction, colMajor: bool): (lines: seq<string>)
    ensures |lines| == (if colMajor then 5 else 1)
    ensures colMajor ==> lines[3] == "        Xtype := " + XType(dir) + "," && lines[4] == "        Ytype := " + YType(dir) + "))"
  {
    var x := Xform(dir) + "(ns, " + DirString(dir) + ")";
    if colMajor then
      ["  TFCallF(" + x + ",", "    rec(fname := name,", "        params := [],",
       "        Xtype := " + XType(dir) + ",", "        Ytype := " + YType(dir) + "))"]
    else
      ["    TFCall(" + x + ", rec(fname := name, params := []))"]
  }

  /** `_writeScript`. */
  function Script(ns: seq<int>, dir: Direction, name: string, o: Options): (lines: seq<string>)
    ensures |lines| >= 5 + |Call(dir, o.colMajor)| && lines[2] == ConfLine(o, true)
    ensures lines[5..5 + |Call(dir, o.colMajor)|] == Call(dir, o.colMajor)
    ensures lines[|lines| - 2] == PrettyPrintTo(name, HipAwareExt(o))
  {
    var head := [LoadLine, ImportLine, ConfLine(o, true),
                 "t := let(ns := " + PyListString(ns) + ",",
                 "    name := \"" + name + "\","];
    var call := Call(dir, o.colMajor);
    var rest := [");", OptsLine]
      + OptionLines(o, o.cuda || o.hip, true)
      + [TagLine, "", GenLine, PrettyPrintTo(name, HipAwareExt(o)), ""];
    ThreeParts(head, call, rest);
    head + call + rest
  }

  /** `_setFunctionMetadata`: transform type and storage order. */
  function Metadata(o: Options): (m: map<MetaKey, MetaValue>)
    ensures m.Keys == {TransformTypeKey, OrderKey}
    ensures m[OrderKey] == OrderValue(FOrder) <==> o.colMajor
  {
    map[TransformTypeKey := TypeValue(MDPRDFT), OrderKey := OrderValue(if o.colMajor then FOrder else COrder)]
  }
}
