/**
 * The 1-D packed real DFT solver (`prdftsolver.py`), optionally batched: a
 * batch of real transforms of length N whose batch shape, read stride and
 * write stride are part of the problem.
 */
module Prdft {
  import opened Common
  import opened Text
  import opened Config
  import opened Problems
  import opened Scripts

  function DirPart(dir: Direction): string
  {
    if dir == Forward then "prdft_" else "ipidft_"
  }

  /** 'p' for unit stride, 'v' for any other. */
  function StrideLetter(stride: int): (c: string)
    ensures c == "p" <==> StrideOf(stride) == UnitStride
    ensures c == "v" <==> StrideOf(stride) == BlockStride
  {
    if stride == 1 then "p" else "v"
  }

  /** Only a batch of more than one transform is a batched problem. */
  predicate Batched(batch: seq<int>)
  {
    Prod(batch) > 1
  }

  /** `_b<dims><w><r>`, or nothing for an unbatched problem. */
  function BatchSuffix(batch: seq<int>, readStride: int, writeStride: int): (s: string)
    ensures |s| > 0 <==> Batched(batch)
    ensures |s| > 0 ==> s[0] == '_'
  {
    if Batched(batch) then "_b" + JoinX(batch) + StrideLetter(writeStride) + StrideLetter(readStride)
    else ""
  }

  /** `<f|d>prdft_<N>` or `<f|d>ipidft_<N>`, followed by the batch suffix. */
  function Name(n: int, dir: Direction, batch: seq<int>, readStride: int, writeStride: int, o: Options): (name: string)
    ensures StartsWith(name, RealLetter(o) + DirPart(dir))
    ensures !Batched(batch) ==> EndsWith(name, IntToString(n))
  {
    RealLetter(o) + (DirPart(dir) + (IntToString(n) + BatchSuffix(batch, readStride, writeStride)))
  }

  /**
   * The name determines the length, the direction, the precision and whether
   * the problem is batched; for a batched problem also the batch shape and
   * both stride classes.  Strides other than 1 are not told apart.
   */
  lemma NameInjective(n1: int, d1: Direction, b1: seq<int>, rs1: int, ws1: int, o1: Options,
                      n2: int, d2: Direction, b2: seq<int>, rs2: int, ws2: int, o2: Options)
    requires Name(n1, d1, b1, rs1, ws1, o1) == Name(n2, d2, b2, rs2, ws2, o2)
    ensures n1 == n2 && d1 == d2 && o1.realCType == o2.realCType
    ensures Batched(b1) <==> Batched(b2)
    ensures Batched(b1) ==> b1 == b2 && StrideOf(rs1) == StrideOf(rs2) && StrideOf(ws1) == StrideOf(ws2)
  {
    var s1, s2 := BatchSuffix(b1, rs1, ws1), BatchSuffix(b2, rs2, ws2);
    SameLengthPrefix(RealLetter(o1), DirPart(d1) + (IntToString(n1) + s1),
                     RealLetter(o2), DirPart(d2) + (IntToString(n2) + s2));
    DirPartDetermined(d1, IntToString(n1) + s1, d2, IntToString(n2) + s2);
    NumeralThenUnderscore(IntToString(n1), s1, IntToString(n2), s2);
    IntToStringInjective(n1, n2);
    if Batched(b1) {
      BatchSuffixInjective(b1, rs1, ws1, b2, rs2, ws2);
    }
  }

  lemma DirPartDetermined(d1: Direction, t1: string, d2: Direction, t2: string)
    requires DirPart(d1) + t1 == DirPart(d2) + t2
    ensures d1 == d2 && t1 == t2
  {
    assert (DirPart(d1) + t1)[0] == DirPart(d1)[0];
    assert (DirPart(d2) + t2)[0] == DirPart(d2)[0];
    SameLengthPrefix(DirPart(d1), t1, DirPart(d2), t2);
  }

  /** A non-empty batch suffix determines the batch shape and the stride classes. */
  lemma BatchSuffixInjective(b1: seq<int>, rs1: int, ws1: int, b2: seq<int>, rs2: int, ws2: int)
    requires Batched(b1) && Batched(b2)
    requires BatchSuffix(b1, rs1, ws1) == BatchSuffix(b2, rs2, ws2)
    ensures b1 == b2 && StrideOf(rs1) == StrideOf(rs2) && StrideOf(ws1) == StrideOf(ws2)
  {
    var t1 := StrideLetter(ws1) + StrideLetter(rs1);
    var t2 := StrideLetter(ws2) + StrideLetter(rs2);
    assert BatchSuffix(b1, rs1, ws1) == "_b" + JoinX(b1) + t1;
    assert BatchSuffix(b2, rs2, ws2) == "_b" + JoinX(b2) + t2;
    SameLengthSuffix("_b" + JoinX(b1), t1, "_b" + JoinX(b2), t2);
    SameLengthPrefix("_b", JoinX(b1), "_b", JoinX(b2));
    SameLengthPrefix(StrideLetter(ws1), StrideLetter(rs1), StrideLetter(ws2), StrideLetter(rs2));
    assert |b1| > 0 && |b2| > 0;
    JoinXInjective(b1, b2);
  }

  /** The length of the transformed axis in the output: N//2+1 forward, N inverse. */
  function OutLength(n: int, dir: Direction): int
  {
    if dir == Forward then FloorDiv(n, 2) + 1 else n
  }

  /**
   * `_new_dst`: the batch shape with the transformed axis appended for unit
   * write stride, prepended otherwise; complex forward, real inverse.
   */
  function NewDst(n: int, dir: Direction, batch: seq<int>, writeStride: int, backend: Backend, o: Options): (r: Result<Alloc>)
    ensures r.Err? <==> OutLength(n, dir) < 0 || exists i :: 0 <= i < |batch| && batch[i] < 0
    ensures r.Err? ==> r.error == ValueError
    ensures r.Ok? ==> |r.value.shape| == |batch| + 1
    ensures r.Ok? ==> Prod(r.value.shape) == Prod(batch) * OutLength(n, dir)
    ensures r.Ok? && writeStride == 1 ==> r.value.shape[..|batch|] == batch && r.value.shape[|batch|] == OutLength(n, dir)
    ensures r.Ok? && writeStride != 1 ==> r.value.shape[0] == OutLength(n, dir) && r.value.shape[1..] == batch
    ensures r.Ok? ==> r.value.dtype == (if dir == Forward then ComplexType(PrecisionOf(o)) else RealType(PrecisionOf(o)))
    ensures r.Ok? ==> r.value.backend == backend
  {
    var nx := OutLength(n, dir);
    var typ := if dir == Forward then ComplexType(PrecisionOf(o)) else RealType(PrecisionOf(o));
    var dims := if writeStride == 1 then batch + [nx] else [nx] + batch;
    ProdAppend(batch, [nx]);
    ProdAppend([nx], batch);
    assert writeStride == 1 ==> dims[|batch|] == nx && forall i :: 0 <= i < |batch| ==> dims[i] == batch[i];
    assert writeStride != 1 ==> dims[0] == nx && forall i :: 0 <= i < |batch| ==> dims[i + 1] == batch[i];
    Zeros(backend, dims, typ, COrder)
  }

  /** `solve` returns the native result as it is, in either direction. */
  function Scaling(): (d: Divisor)
    ensures !d.DivideBy?
  {
    NoScaling
  }

  /**
   * `str(np.prod(bdims))`: the product as an integer, except that NumPy's
   * product of an empty list is the float 1.0.
   */
  function BatchCountText(batch: seq<int>): (s: string)
    ensures |batch| > 0 ==> s == IntToString(Prod(batch))
  {
    if |batch| == 0 then "1.0" else IntToString(Prod(batch))
  }

  function Xform(dir: Direction): string
  {
    if dir == Forward then "PRDFT" else "IPRDFT"
  }

  /** Access pattern of one side of the tensor: parallel for unit stride, vector otherwise. */
  function Pattern(stride: int): (p: string)
    ensures p == "APar" <==> stride == 1
  {
    if stride == 1 then "APar" else "AVec"
  }

  /** The `TFCall(TRC(TTensorI(...)))` line: write pattern first, then read pattern. */
  function TensorLine(dir: Direction, batch: seq<int>, readStride: int, writeStride: int): (line: string)
    ensures EndsWith(line, Pattern(writeStride) + ", " + Pattern(readStride) + ")), rec(fname := name, params := []))")
  {
    var head := "    TFCall(TRC(TTensorI(" + Xform(dir) + "(N, -1), " + BatchCountText(batch) + " ,";
    var tail := Pattern(writeStride) + ", " + Pattern(readStride) + ")), rec(fname := name, params := []))";
    assert (head + tail)[|head + tail| - |tail|..] == tail;
    head + tail
  }

  /**
   * `_writeScript`.  The print-option lines come from the base solver's
   * `_writePrintOpts`, which is not part of this model: they are a parameter.
   */
  function Script(n: int, dir: Direction, batch: seq<int>, readStride: int, writeStride: int,
                  name: string, o: Options, printOpts: seq<string>): (lines: seq<string>)
    ensures |lines| >= 17 && lines[7] == TensorLine(dir, batch, readStride, writeStride) && lines[9] == ConfLine(o, true)
    ensures lines[11..|lines| - 6] == When(o.cuda || o.hip, WrapLine) + When(o.realCType == Float, FloatLine) + printOpts
    ensures lines[|lines| - 2] == PrettyPrintTo(name, HipAwareExt(o))
  {
    var head := [LoadLine, ImportLine, "Import(realdft);", "",
                 "t := let(", "    name := \"" + name + "\",", "    N  := " + IntToString(n) + ",",
                 TensorLine(dir, batch, readStride, writeStride), ");",
                 ConfLine(o, true), OptsLine];
    var mid := When(o.cuda || o.hip, WrapLine) + When(o.realCType == Float, FloatLine) + printOpts;
    var tail := [FloatIncludeLine, TagLine, "",
                 GenLine, PrettyPrintTo(name, HipAwareExt(o)), ""];
    ThreeParts(head, mid, tail);
    head + mid + tail
  }

  /**
   * `_setFunctionMetadata`: a batched problem reports BATPRDFT, the batch
   * count and both stride classes; an unbatched one only PRDFT.
   */
  function Metadata(batch: seq<int>, readStride: int, writeStride: int): (m: map<MetaKey, MetaValue>)
    ensures Batched(batch) ==> m == map[TransformTypeKey := TypeValue(BATPRDFT), BatchSizeKey := CountValue(Prod(batch)),
                                        ReadStrideKey := StrideValue(StrideOf(readStride)),
                                        WriteStrideKey := StrideValue(StrideOf(writeStride))]
    ensures !Batched(batch) ==> m == map[TransformTypeKey := TypeValue(PRDFT)]
  {
    if Batched(batch) then
      map[TransformTypeKey := TypeValue(BATPRDFT), BatchSizeKey := CountValue(Prod(batch)),
          ReadStrideKey := StrideValue(StrideOf(readStride)), WriteStrideKey := StrideValue(StrideOf(writeStride))]
    else map[TransformTypeKey := TypeValue(PRDFT)]
  }

  /**
   * The name and the metadata agree on batching: the name carries a batch
   * suffix exactly when the metadata reports a batch size.
   */
  lemma NameAgreesWithMetadata(n: int, dir: Direction, batch: seq<int>, readStride: int, writeStride: int, o: Options)
    ensures var name := Name(n, dir, batch, readStride, writeStride, o);
      var unbatched := RealLetter(o) + DirPart(dir) + IntToString(n);
      StartsWith(name, unbatched) &&
      (|name| > |unbatched| <==> BatchSizeKey in Metadata(batch, readStride, writeStride))
  {
    var name := Name(n, dir, batch, readStride, writeStride, o);
    var unbatched := RealLetter(o) + DirPart(dir) + IntToString(n);
    var suffix := BatchSuffix(batch, readStride, writeStride);
    assert name == unbatched + suffix by {
      ConcatAssoc3(RealLetter(o), DirPart(dir), IntToString(n), suffix);
    }
    assert StartsWith(name, unbatched) by {
      assert (unbatched + suffix)[..|unbatched|] == unbatched;
    }
    assert BatchSizeKey in Metadata(batch, readStride, writeStride) <==> Batched(batch);
  }
}
