/**
 * The multi-dimensional complex DFT solver (`mddftsolver.py`).
 */
module Mddft {
  import opened Common
  import opened Text
  import opened Config
  import opened Problems
  import opened Scripts

  function DirPart(dir: Direction): string
  {
    if dir == Forward then "mddft_fwd_" else "mddft_inv_"
  }

  /** `<c|z>mddft_<fwd|inv>_<d1>x<d2>x...`, with `_F` for column-major. */
  function Name(ns: seq<int>, dir: Direction, o: Options): (name: string)
    ensures StartsWith(name, ComplexLetter(o) + DirPart(dir))
  {
    var head := ComplexLetter(o) + DirPart(dir);
    var name := head + JoinX(ns) + ColMajorSuffix(o);
    assert name == head + (JoinX(ns) + ColMajorSuffix(o));
    name
  }

  /**
   * For non-empty shapes the name determines the shape, the direction, the
   * precision and the storage order.
   */
  lemma NameInjective(ns1: seq<int>, d1: Direction, o1: Options, ns2: seq<int>, d2: Direction, o2: Options)
    requires |ns1| > 0 && |ns2| > 0
    requires Name(ns1, d1, o1) == Name(ns2, d2, o2)
    ensures ns1 == ns2 && d1 == d2 && o1.realCType == o2.realCType && o1.colMajor == o2.colMajor
  {
    JoinXChars(ns1);
    JoinXChars(ns2);
    var h1, h2 := ComplexLetter(o1) + DirPart(d1), ComplexLetter(o2) + DirPart(d2);
    var b1, b2 := h1 + JoinX(ns1), h2 + JoinX(ns2);
    assert b1[|b1| - 1] == JoinX(ns1)[|JoinX(ns1)| - 1];
    assert b2[|b2| - 1] == JoinX(ns2)[|JoinX(ns2)| - 1];
    OptionalSuffixDetermined(b1, o1.colMajor, b2, o2.colMajor, "_F");
    SameLengthPrefix(h1, JoinX(ns1), h2, JoinX(ns2));
    SameLengthPrefix(ComplexLetter(o1), DirPart(d1), ComplexLetter(o2), DirPart(d2));
    JoinXInjective(ns1, ns2);
  }

  /** `solve` without a supplied output: the problem shape, src's dtype, Fortran order iff column-major. */
  function Output(ns: seq<int>, backend: Backend, srcType: DType, o: Options): (r: Result<Alloc>)
    ensures r.Err? <==> exists i :: 0 <= i < |ns| && ns[i] < 0
    ensures r.Err? ==> r.error == ValueError
    ensures r.Ok? ==> r.value.shape == ns && r.value.dtype == srcType && r.value.backend == backend
    ensures r.Ok? ==> (r.value.order == FOrder <==> o.colMajor)
  {
    Zeros(backend, ns, srcType, if o.colMajor then FOrder else COrder)
  }

  /** Only the inverse is normalised, by the element count of the output. */
  function Scaling(dir: Direction, dstShape: seq<int>): (d: Divisor)
    ensures d.DivideBy? <==> dir == Inverse
    ensures d.DivideBy? ==> d.num == Prod(dstShape) && d.den == 1
  {
    if dir == Inverse then DivideBy(Prod(dstShape), 1) else NoScaling
  }

  /** The transform inside `TFCall`: column-major wraps the MDDFT in `TColMajor`. */
  function Term(dir: Direction, colMajor: bool): (t: string)
    ensures StartsWith(t, "TRC(TColMajor(") <==> colMajor
    ensures EndsWith(t, "MDDFT(ns, " + DirString(dir) + (if colMajor then ")))" else "))"))
  {
    if colMajor then
      var t := "TRC(TColMajor(MDDFT(ns, " + DirString(dir) + ")))";
      assert t[..14] == "TRC(TColMajor(";
      t
    else
      var t := "TRC(MDDFT(ns, " + DirString(dir) + "))";
      assert t[4] == 'M';
      t
  }

  /** `_writeScript`. */
  function Script(ns: seq<int>, dir: Direction, name: string, o: Options): (lines: seq<string>)
    ensures "    TFCall(" + Term(dir, o.colMajor) + ", rec(fname := name, params := []))" in lines
    ensures |lines| >= 16 && lines[2] == ConfLine(o, true)
    ensures lines[10..|lines| - 6] == OptionLines(o, o.cuda || o.hip, true)
    ensures |lines| >= 2 && lines[|lines| - 2] == PrettyPrintTo(name, HipAwareExt(o))
  {
    var head := [LoadLine, ImportLine, ConfLine(o, true), "",
                 "t := let(ns := " + PyListString(ns) + ",",
                 "    name := \"" + name + "\",",
                 "    TFCall(" + Term(dir, o.colMajor) + ", rec(fname := name, params := []))",
                 ");", "",
                 OptsLine];
    var opts := OptionLines(o, o.cuda || o.hip, true);
    var tail := [FloatIncludeLine, TagLine, "",
                 GenLine, PrettyPrintTo(name, HipAwareExt(o)), ""];
    ThreeParts(head, opts, tail);
    assert (head + opts + tail)[6] == head[6];
    head + opts + tail
  }

  function Metadata(): map<MetaKey, MetaValue>
  {
    map[TransformTypeKey := TypeValue(MDDFT)]
  }
}
