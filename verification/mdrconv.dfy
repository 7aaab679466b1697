/**
 * The real 3-D convolution solver (`mdrconvsolver.py`): an n-cube is
 * zero-padded to 2n, transformed, multiplied by a symbol, transformed back,
 * and the last n-cube corner is kept.
 */
module Mdrconv {
  import opened Common
  import opened Text
  import opened Problems
  import opened Config
  import opened Scripts
  import opened Tracer
  import opened Cube

  /** `<f|d>mdrconv_<n>`. */
  function Name(n: int, o: Options): (name: string)
    ensures StartsWith(name, RealLetter(o) + "mdrconv_") && EndsWith(name, IntToString(n))
  {
    var head := RealLetter(o) + "mdrconv_";
    var name := head + IntToString(n);
    assert name[..|head|] == head;
    name
  }

  /** The name determines the size and the precision. */
  lemma NameInjective(n1: int, o1: Options, n2: int, o2: Options)
    requires Name(n1, o1) == Name(n2, o2)
    ensures n1 == n2 && o1.realCType == o2.realCType
  {
    SameLengthPrefix(RealLetter(o1) + "mdrconv_", IntToString(n1), RealLetter(o2) + "mdrconv_", IntToString(n2));
    SameLengthPrefix(RealLetter(o1), "mdrconv_", RealLetter(o2), "mdrconv_");
    IntToStringInjective(n1, n2);
  }

  /**
   * `buildTestInput(shift, target)`: an n-cube with a single one at
   * n - shift + target, and a 2n-cube with a single one at shift (the
   * symbol before its forward transform, which is not modelled).
   */
  function TestInput<T>(n: int, shift: (int, int, int), target: (int, int, int), zero: T, one: T): (r: Result<(Cube<T>, Cube<T>)>)
    ensures r.Ok? ==> n >= 0
    ensures n < 0 ==> r == Err(ValueError)
  {
    var src :- Impulse(n, (n - shift.0 + target.0, n - shift.1 + target.1, n - shift.2 + target.2), zero, one);
    var sym :- Impulse(2 * n, shift, zero, one);
    Ok((src, sym))
  }

  /**
   * With the default shift (1,1,1) and target (0,0,0) the source impulse sits
   * at (n-1,n-1,n-1) and the symbol impulse at (1,1,1); both are in range
   * exactly when n >= 1.
   */
  lemma DefaultTestInput<T>(n: int, zero: T, one: T)
    ensures TestInput(n, (1, 1, 1), (0, 0, 0), zero, one).Ok? <==> n >= 1
    ensures n >= 1 ==>
      var (src, sym) := TestInput(n, (1, 1, 1), (0, 0, 0), zero, one).value;
      IsBox(src, n, n, n) && IsBox(sym, 2 * n, 2 * n, 2 * n) &&
      (forall i, j, k :: 0 <= i < n && 0 <= j < n && 0 <= k < n ==>
        src[i][j][k] == (if i == n - 1 && j == n - 1 && k == n - 1 then one else zero)) &&
      (forall i, j, k :: 0 <= i < 2 * n && 0 <= j < 2 * n && 0 <= k < 2 * n ==>
        sym[i][j][k] == (if i == 1 && j == 1 && k == 1 then one else zero))
  {
    if n >= 1 {
      DefaultTestInputValue(n, zero, one);
      ImpulseInRange(n, n - 1, zero, one);
      ImpulseInRange(2 * n, 1, zero, one);
    } else if n == 0 {
      var start := (n - 1 + 0, n - 1 + 0, n - 1 + 0);
      assert PyIndex(start.0, 0).Err?;
      assert Impulse(n, start, zero, one).Err?;
    }
  }

  lemma DefaultTestInputValue<T>(n: int, zero: T, one: T)
    requires n >= 1
    ensures Impulse(n, (n - 1, n - 1, n - 1), zero, one).Ok? && Impulse(2 * n, (1, 1, 1), zero, one).Ok?
    ensures TestInput(n, (1, 1, 1), (0, 0, 0), zero, one) ==
      Ok((Impulse(n, (n - 1, n - 1, n - 1), zero, one).value, Impulse(2 * n, (1, 1, 1), zero, one).value))
  {
    assert (n - 1 + 0, n - 1 + 0, n - 1 + 0) == (n - 1, n - 1, n - 1);
    assert PyIndex(n - 1, n) == Ok(n - 1);
    assert PyIndex(1, 2 * n) == Ok(1);
  }

  /** A diagonal impulse inside the cube is one at that position and zero elsewhere. */
  lemma ImpulseInRange<T>(n: int, p: int, zero: T, one: T)
    requires 0 <= p < n
    ensures var r := Impulse(n, (p, p, p), zero, one);
      r.Ok? && IsBox(r.value, n, n, n) &&
      forall i, j, k :: 0 <= i < n && 0 <= j < n && 0 <= k < n ==>
        r.value[i][j][k] == (if i == p && j == p && k == p then one else zero)
  {
    assert PyIndex(p, n) == Ok(p);
  }

  /** `runDef` with N = 2n and Ns = Nd = n. */
  function Ops(n: nat): seq<Op>
  {
    [EmbedCube(2 * n, n), Rfftn, Pointwise, Irfftn(Cube3(2 * n)), Extract(2 * n, n)]
  }

  /** `_trace`: build the test input, then trace `runDef` on it. */
  function Trace(n: int): Result<TraceState>
  {
    var _ :- TestInput(n, (1, 1, 1), (0, 0, 0), 0, 1);
    Tracer.Trace(Ops(n), Cube3(n))
  }

  /**
   * For n >= 1 the call graph is the five descriptors in reverse call order,
   * each but the last followed by ','; below that the test input cannot be
   * built.
   */
  lemma TraceGraph(n: int)
    ensures n < 1 ==> Trace(n).Err?
    ensures n >= 1 ==> Trace(n) == Ok(TraceState(false, [
      ExtractDesc(2 * n, n) + ",",
      IrfftDesc(2 * n) + ",",
      PointwiseDesc(2 * Size(Shape3(2 * n, 2 * n, n + 1))) + ",",
      RfftDesc(2 * n) + ",",
      EmbedDesc(2 * n, n)]))
  {
    DefaultTestInput(n, 0, 1);
    if n >= 1 {
      var d := RecordedOps(n);
      SeparatedReverse5(d);
    }
  }

  /** The descriptors `runDef` records, in call order. */
  lemma RecordedOps(n: int) returns (d: seq<string>)
    requires n >= 1
    ensures Recorded(Ops(n), Cube3(n)) == Ok(d)
    ensures d == [EmbedDesc(2 * n, n), RfftDesc(2 * n), PointwiseDesc(2 * Size(Shape3(2 * n, 2 * n, n + 1))),
                  IrfftDesc(2 * n), ExtractDesc(2 * n, n)]
  {
    var xs := Shapes(n);
    var ops := Ops(n);
    ShapesChain(n);
    RecordedChain(ops, xs);
    d := Descs(ops, xs);
  }

  /** The shapes `runDef` passes through: n-cube, 2n-cube, spectrum, spectrum, 2n-cube, n-cube. */
  function Shapes(n: nat): seq<Shape3>
  {
    [Cube3(n), Cube3(2 * n), Shape3(2 * n, 2 * n, n + 1), Shape3(2 * n, 2 * n, n + 1), Cube3(2 * n), Cube3(n)]
  }

  lemma ShapesChain(n: int)
    requires n >= 1
    ensures forall i :: 0 <= i < |Ops(n)| ==> Out(Ops(n)[i], Shapes(n)[i]) == Ok(Shapes(n)[i + 1])
  {
    SizePositive(Cube3(2 * n));
    SizePositive(Shape3(2 * n, 2 * n, n + 1));
  }

  /** `solve`: an n-cube of src's dtype, on the device iff the CUDA option is set. */
  function Output(n: int, o: Options, srcType: DType): (r: Result<Alloc>)
    ensures r.Err? <==> n < 0
    ensures r.Err? ==> r.error == ValueError
    ensures r.Ok? ==> r.value.shape == [n, n, n] && r.value.dtype == srcType
    ensures r.Ok? ==> (r.value.backend == Device <==> o.cuda)
  {
    Zeros(if o.cuda then Device else Host, [n, n, n], srcType, COrder)
  }

  /**
   * For every size the trace accepts, `runDef` ends in the n-cube and the
   * allocated output has exactly that shape; for the others both fail.
   */
  lemma OutputHoldsRun(n: int, o: Options, srcType: DType)
    ensures n >= 1 ==> Run(Ops(n), Cube3(n)) == Ok(Cube3(n))
    ensures n >= 1 ==> Output(n, o, srcType).Ok? && Output(n, o, srcType).value.shape == [n, n, n]
    ensures n < 0 ==> Trace(n).Err? && Output(n, o, srcType).Err?
  {
    if n >= 1 {
      ShapesChain(n);
      RecordedChain(Ops(n), Shapes(n));
    } else {
      TraceGraph(n);
    }
  }

  /** `scale`: division by the element count of the padded 2n-cube. */
  function Scaling(n: int): (d: Divisor)
    ensures d.DivideBy? && d.den == 1
    ensures n >= 0 ==> d.num == Size(Cube3(2 * n)) && Ops(n)[0] == EmbedCube(2 * n, n)
  {
    DivideBy((2 * n) * (2 * n) * (2 * n), 1)
  }

  /**
   * `_writeScript`.  HIP plays no part: the configuration, the wrapping
   * switch and the extension follow the CUDA option alone.
   */
  function Script(name: string, graph: seq<string>, o: Options): (lines: seq<string>)
    ensures |lines| >= 19 + |graph| && lines[3] == ConfLine(o, false)
    ensures lines[5..12 + |graph|] == ComposeBlock(graph, name, "    )")
    ensures lines[14 + |graph|..|lines| - 5] == OptionLines(o, o.cuda, true)
    ensures lines[|lines| - 2] == PrettyPrintTo(name, CudaOnlyExt(o))
  {
    var head := [LoadLine, ImportLine, "", ConfLine(o, false), ""];
    var block := ComposeBlock(graph, name, "    )");
    var mid := ["", OptsLine];
    var opts := OptionLines(o, o.cuda, true);
    var tail := [TagLine, "", GenLine, PrettyPrintTo(name, CudaOnlyExt(o)), ""];
    FiveParts(head, block, mid, opts, tail);
    head + block + mid + opts + tail
  }

  function Metadata(): map<MetaKey, MetaValue>
  {
    map[TransformTypeKey := TypeValue(MDRCONV)]
  }
}
