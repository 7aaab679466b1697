/**
 * The real 3-D convolution solver with a full-size symbol
 * (`mdrfsconvsolver.py`): like the plain convolution, but the padding is done
 * by `zeroEmbedBox` and `solve` accepts the symbol either as a full cube or
 * as a half spectrum.
 */
module Mdrfsconv {
  import opened Common
  import opened Text
  import opened Problems
  import opened Config
  import opened Scripts
  import opened Tracer

  /** `<f|d>Mdrfsconv_<n>x<n>x<n>`. */
  function Name(n: int, o: Options): (name: string)
    ensures StartsWith(name, RealLetter(o) + "Mdrfsconv_")
  {
    RealLetter(o) + ("Mdrfsconv_" + JoinX([n, n, n]))
  }

  /** The name determines the size and the precision. */
  lemma NameInjective(n1: int, o1: Options, n2: int, o2: Options)
    requires Name(n1, o1) == Name(n2, o2)
    ensures n1 == n2 && o1.realCType == o2.realCType
  {
    SameLengthPrefix(RealLetter(o1), "Mdrfsconv_" + JoinX([n1, n1, n1]), RealLetter(o2), "Mdrfsconv_" + JoinX([n2, n2, n2]));
    SameLengthPrefix("Mdrfsconv_", JoinX([n1, n1, n1]), "Mdrfsconv_", JoinX([n2, n2, n2]));
    JoinXInjective([n1, n1, n1], [n2, n2, n2]);
    assert [n1, n1, n1][0] == n1;
  }

  /**
   * The symbol shape `solve` hands to the generated code: a symbol whose
   * first and third axes agree (length N) is cut to N//2+1 along the third
   * axis; any other symbol passes unchanged.  Reading `shape[2]` of an array
   * of rank below 3 raises.
   */
  function SymbolShape(shape: seq<nat>): (r: Result<seq<nat>>)
    ensures r.Ok? <==> |shape| >= 3
    ensures r.Err? ==> r.error == IndexError
    ensures r.Ok? ==> |r.value| == |shape| && (forall i :: 0 <= i < |shape| && i != 2 ==> r.value[i] == shape[i])
    ensures r.Ok? && shape[0] != shape[2] ==> r.value == shape
    ensures r.Ok? && shape[0] == shape[2] ==> r.value[2] == SliceLen(shape[2], 0, FloorDiv(shape[0], 2) + 1)
  {
    if |shape| < 3 then Err(IndexError)
    else if shape[0] == shape[2] then
      Ok(shape[2 := SliceLen(shape[2], 0, FloorDiv(shape[0], 2) + 1)])
    else Ok(shape)
  }

  /** A full m-cube symbol becomes the half spectrum (m, m, m//2+1) of the forward real transform. */
  lemma FullCubeBecomesSpectrum(m: nat)
    requires m >= 1
    ensures SymbolShape([m, m, m]) == Ok([m, m, FloorDiv(m, 2) + 1])
  {
    assert FloorDiv(m, 2) + 1 <= m;
    assert [m, m, m][2 := FloorDiv(m, 2) + 1] == [m, m, FloorDiv(m, 2) + 1];
  }

  /**
   * The half spectrum of the padded 2n-cube, the symbol the test input
   * produces, passes unchanged.
   */
  lemma SpectrumPassesUnchanged(n: nat)
    requires n >= 1
    ensures var s := RfftShape(Cube3(2 * n)); SymbolShape([s.d0, s.d1, s.d2]) == Ok([s.d0, s.d1, s.d2])
  {
    var s := RfftShape(Cube3(2 * n));
    assert s == Shape3(2 * n, 2 * n, n + 1);
    if n == 1 {
      assert SliceLen(2, 0, 2) == 2;
      assert [2, 2, 2][2 := 2] == [2, 2, 2];
    }
  }

  /** Cutting the symbol twice is the same as cutting it once. */
  lemma SymbolShapeIdempotent(shape: seq<nat>)
    requires |shape| >= 3
    ensures SymbolShape(SymbolShape(shape).value) == SymbolShape(shape)
  {
    var once := SymbolShape(shape).value;
    if shape[0] == shape[2] {
      var cut := SliceLen(shape[2], 0, FloorDiv(shape[0], 2) + 1);
      assert once == shape[2 := cut];
      if once[0] == once[2] {
        assert once[2 := SliceLen(once[2], 0, FloorDiv(once[0], 2) + 1)] == once;
      }
    }
  }

  /** `solve` without a supplied output: an n-cube of src's dtype on src's backend. */
  function Output(n: int, backend: Backend, srcType: DType): (r: Result<Alloc>)
    ensures r.Err? <==> n < 0
    ensures r.Err? ==> r.error == ValueError
    ensures r.Ok? ==> r.value.shape == Dimensions(MdrfsconvProblem(n)) && r.value.backend == backend && r.value.dtype == srcType
  {
    Zeros(backend, [n, n, n], srcType, COrder)
  }

  /** `solve` always divides by the element count of the padded 2n-cube. */
  function Scaling(n: int): (d: Divisor)
    ensures d.DivideBy? && d.den == 1
    ensures n >= 0 ==> d.num == Size(Cube3(2 * n))
  {
    DivideBy((2 * n) * (2 * n) * (2 * n), 1)
  }

  /**
   * `runDef` with N = 2n and Ns = Nd = n.  `zeroEmbedBox` is not part of
   * the base solver shown, so its descriptor and result shape are parameters.
   */
  function Ops(n: int, embedDesc: string, padded: Shape3): seq<Op>
  {
    [ZeroEmbed(embedDesc, padded), Rfftn, Pointwise, Irfftn(padded), Extract(2 * n, n)]
  }

  /**
   * `_trace`: the random test input needs n >= 0, and the forward transform
   * of its 2n-cube symbol needs n >= 1.
   */
  function Trace(n: int, embedDesc: string, padded: Shape3): (r: Result<TraceState>)
    ensures n < 1 ==> r == Err(ValueError)
  {
    if n < 1 then Err(ValueError)
    else Tracer.Trace(Ops(n, embedDesc, padded), Cube3(n))
  }

  /**
   * For a non-empty padded shape the call graph holds the five descriptors
   * in reverse call order, the embedding's own descriptor last.
   */
  lemma TraceGraph(n: int, embedDesc: string, padded: Shape3)
    requires n >= 1 && Size(padded) > 0
    ensures var spectrum := RfftShape(padded);
      Trace(n, embedDesc, padded) == Ok(TraceState(false, [
        ExtractDesc(2 * n, n) + ",",
        IrfftDesc(spectrum.d0) + ",",
        PointwiseDesc(2 * Size(spectrum)) + ",",
        RfftDesc(padded.d0) + ",",
        embedDesc]))
  {
    var spectrum := RfftShape(padded);
    SizeZero(padded);
    SizeZero(spectrum);
    var ops := Ops(n, embedDesc, padded);
    var last := Out(ops[4], padded).value;
    var xs := [Cube3(n), padded, spectrum, spectrum, padded, last];
    assert Out(ops[0], xs[0]) == Ok(xs[1]);
    assert Out(ops[1], xs[1]) == Ok(xs[2]);
    assert Out(ops[2], xs[2]) == Ok(xs[3]);
    assert Out(ops[3], xs[3]) == Ok(xs[4]);
    assert Out(ops[4], xs[4]) == Ok(xs[5]);
    Trace5(ops, xs);
  }

  /**
   * `_writeScript`: HIP-aware configuration, wrapping for either GPU target
   * and the HIP-first extension.
   */
  function Script(name: string, graph: seq<string>, o: Options): (lines: seq<string>)
    ensures |lines| >= 19 + |graph| && lines[3] == ConfLine(o, true)
    ensures lines[5..12 + |graph|] == ComposeBlock(graph, name, "    )")
    ensures lines[14 + |graph|..|lines| - 5] == OptionLines(o, o.cuda || o.hip, true)
    ensures lines[|lines| - 2] == PrettyPrintTo(name, HipAwareExt(o))
  {
    var head := [LoadLine, ImportLine, "", ConfLine(o, true), ""];
    var block := ComposeBlock(graph, name, "    )");
    var mid := ["", OptsLine];
    var opts := OptionLines(o, o.cuda || o.hip, true);
    var tail := [TagLine, "", GenLine, PrettyPrintTo(name, HipAwareExt(o)), ""];
    FiveParts(head, block, mid, opts, tail);
    head + block + mid + opts + tail
  }

  function Metadata(): map<MetaKey, MetaValue>
  {
    map[TransformTypeKey := TypeValue(MDRFSCONV)]
  }
}
