/**
 * The batched multi-dimensional complex DFT solver (`batchmddftsolver.py`):
 * `batch` independent MDDFTs over the trailing axes of a `[batch] + dims`
 * array.
 */
module BatchMddft {
  import opened Common
  import opened Text
  import opened Config
  import opened Problems
  import opened Scripts

  function DirPart(dir: Direction): string
  {
    if dir == Forward then "_fwd_" else "_inv_"
  }

  /** `<c|z>batchmddft_<fwd|inv>_<dims>x<batch>`. */
  function Name(ns: seq<int>, batch: int, dir: Direction, o: Options): (name: string)
    ensures StartsWith(name, ComplexLetter(o) + "batchmddft" + DirPart(dir))
    ensures EndsWith(name, "x" + IntToString(batch))
  {
    var head := ComplexLetter(o) + "batchmddft" + DirPart(dir);
    var tail := "x" + IntToString(batch);
    var name := head + JoinX(ns) + tail;
    assert name == head + (JoinX(ns) + tail);
    name
  }

  /** Appending an entry to a non-empty shape appends 'x' and its numeral to the joined text. */
  lemma JoinXAppend(ns: seq<int>, b: int)
    requires |ns| > 0
    ensures JoinX(ns + [b]) == JoinX(ns) + "x" + IntToString(b)
  {
    assert DimStrings(ns + [b]) == DimStrings(ns) + [IntToString(b)];
    JoinAppend(DimStrings(ns), IntToString(b), "x");
  }

  /** For a non-empty shape the batch size reads as one more dimension. */
  lemma NameAsDimensions(ns: seq<int>, batch: int, dir: Direction, o: Options)
    requires |ns| > 0
    ensures Name(ns, batch, dir, o) == ComplexLetter(o) + "batchmddft" + DirPart(dir) + JoinX(ns + [batch])
  {
    JoinXAppend(ns, batch);
  }

  /** For non-empty shapes the name determines the shape, the batch size, the direction and the precision. */
  lemma NameInjective(ns1: seq<int>, b1: int, d1: Direction, o1: Options, ns2: seq<int>, b2: int, d2: Direction, o2: Options)
    requires |ns1| > 0 && |ns2| > 0
    requires Name(ns1, b1, d1, o1) == Name(ns2, b2, d2, o2)
    ensures ns1 == ns2 && b1 == b2 && d1 == d2 && o1.realCType == o2.realCType
  {
    NameAsDimensions(ns1, b1, d1, o1);
    NameAsDimensions(ns2, b2, d2, o2);
    var h1 := ComplexLetter(o1) + "batchmddft" + DirPart(d1);
    var h2 := ComplexLetter(o2) + "batchmddft" + DirPart(d2);
    SameLengthPrefix(h1, JoinX(ns1 + [b1]), h2, JoinX(ns2 + [b2]));
    SameLengthPrefix(ComplexLetter(o1) + "batchmddft", DirPart(d1), ComplexLetter(o2) + "batchmddft", DirPart(d2));
    SameLengthPrefix(ComplexLetter(o1), "batchmddft", ComplexLetter(o2), "batchmddft");
    assert DirPart(d1)[1] == DirPart(d2)[1];
    JoinXInjective(ns1 + [b1], ns2 + [b2]);
    assert ns1 == (ns1 + [b1])[..|ns1|] && ns2 == (ns2 + [b2])[..|ns2|];
  }

  /** `solve` without a supplied output: a `[batch] + dims` array of src's dtype. */
  function Output(ns: seq<int>, batch: int, backend: Backend, srcType: DType): (r: Result<Alloc>)
    ensures r.Err? <==> batch < 0 || exists i :: 0 <= i < |ns| && ns[i] < 0
    ensures r.Err? ==> r.error == ValueError
    ensures r.Ok? ==> |r.value.shape| == |ns| + 1 && r.value.shape[0] == batch && r.value.shape[1..] == ns
    ensures r.Ok? ==> Prod(r.value.shape) == batch * Prod(ns)
    ensures r.Ok? ==> r.value.dtype == srcType && r.value.backend == backend
  {
    var dims := [batch] + ns;
    assert dims[1..] == ns;
    assert forall i :: 0 <= i < |ns| ==> dims[i + 1] == ns[i];
    Zeros(backend, dims, srcType, COrder)
  }

  /**
   * The inverse divides by `size(dst) / batch`, Python's true division, which
   * raises for a zero batch size; the forward leaves the result alone.
   */
  function Scaling(dir: Direction, dstSize: int, batch: int): (r: Result<Divisor>)
    ensures dir == Forward ==> r == Ok(NoScaling)
    ensures dir == Inverse ==> (r.Err? <==> batch == 0)
    ensures r.Err? ==> r.error == ZeroDivisionError
    ensures r.Ok? && dir == Inverse ==> r.value.DivideBy? && r.value.num == dstSize && r.value.den == batch
  {
    if dir == Forward then Ok(NoScaling)
    else if batch == 0 then Err(ZeroDivisionError)
    else Ok(DivideBy(dstSize, batch))
  }

  /**
   * With the allocated output, the inverse divides every batch member by the
   * element count of one transform, num/den == Prod(dims).
   */
  lemma InverseScalesPerTransform(ns: seq<int>, batch: int, backend: Backend, srcType: DType)
    requires batch != 0
    ensures var a := Output(ns, batch, backend, srcType);
      a.Ok? ==> var r := Scaling(Inverse, Prod(a.value.shape), batch);
        r.Ok? && r.value.DivideBy? && r.value.num == r.value.den * Prod(ns)
  {
  }

  /** The `let(...)` block: batch, access pattern, shape, direction, name and the tensor call. */
  function LetBlock(ns: seq<int>, batch: int, dir: Direction, name: string): (lines: seq<string>)
    ensures |lines| == 8
  {
    [ "t := let(batch := " + IntToString(batch) + ",",
      "    apat := When(true, APar, AVec),",
      "    ns := " + PyListString(ns) + ",",
      "    k := " + DirString(dir) + ",",
      "    name := \"" + name + "\",",
      "    TFCall(TRC(TTensorI(MDDFT(ns, k), batch, apat, apat)),",
      "        rec(fname := name, params := []))",
      ");" ]
  }

  /**
   * `_writeScript`.  This solver knows nothing of HIP: a HIP build gets the
   * CPU configuration, no wrapping and a `.c` file.
   */
  function Script(ns: seq<int>, batch: int, dir: Direction, name: string, o: Options): (lines: seq<string>)
    ensures |lines| >= 19 && lines[3..11] == LetBlock(ns, batch, dir, name) && lines[12] == ConfLine(o, false)
    ensures lines[14..|lines| - 5] == OptionLines(o, o.cuda, true)
    ensures lines[|lines| - 2] == PrettyPrintTo(name, CudaOnlyExt(o))
  {
    var pre := [LoadLine, ImportLine, ""];
    var let := LetBlock(ns, batch, dir, name);
    var post := ["", ConfLine(o, false), OptsLine];
    var mid := OptionLines(o, o.cuda, true);
    var tail := ["", TagLine, GenLine, PrettyPrintTo(name, CudaOnlyExt(o)), ""];
    FiveParts(pre, let, post, mid, tail);
    pre + let + post + mid + tail
  }
}
