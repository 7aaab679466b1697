/**
 * The Hockney free-space convolution solver (`hockneysolver.py`): an
 * ns-cube source is embedded in an n-cube, convolved with a precomputed
 * symbol, and an nd-cube corner of the result is kept.  Only shapes, the
 * integer test input and the text are modelled; the symbol's values are
 * floating point.
 */
module Hockney {
  import opened Common
  import opened Text
  import opened Problems
  import opened Config
  import opened Scripts
  import opened Tracer
  import opened Cube

  /** The pieces of the name, in order. */
  function NameParts(n: int, ns: int, nd: int): seq<string>
  {
    ["hockney", IntToString(n), IntToString(ns), IntToString(nd)]
  }

  /** `hockney_<n>_<ns>_<nd>`: neither the precision nor the target appears. */
  function Name(n: int, ns: int, nd: int): (name: string)
    ensures StartsWith(name, "hockney_")
    ensures EndsWith(name, "_" + IntToString(nd))
  {
    var head, mid, tail := "hockney_", IntToString(n) + "_" + IntToString(ns), "_" + IntToString(nd);
    assert (head + mid + tail)[..|head|] == head;
    assert (head + mid + tail)[|head + mid|..] == tail;
    head + mid + tail
  }

  /** The name is its pieces joined with '_'. */
  lemma NameIsJoin(n: int, ns: int, nd: int)
    ensures Name(n, ns, nd) == Join(NameParts(n, ns, nd), "_")
  {
    var a, b, c := IntToString(n), IntToString(ns), IntToString(nd);
    JoinAppend(["hockney"], a, "_");
    JoinAppend(["hockney", a], b, "_");
    assert ["hockney", a] + [b] == ["hockney", a, b];
    JoinAppend(["hockney", a, b], c, "_");
    assert ["hockney", a, b] + [c] == NameParts(n, ns, nd);
  }

  /** A printed integer holds no underscore. */
  lemma NumeralsHaveNoUnderscore(i: int)
    ensures '_' !in IntToString(i)
  {
  }

  /** Splitting the name at '_' gives its pieces back. */
  lemma NameSplits(n: int, ns: int, nd: int)
    ensures Split(Name(n, ns, nd), '_') == NameParts(n, ns, nd)
  {
    var parts := NameParts(n, ns, nd);
    NumeralsHaveNoUnderscore(n);
    NumeralsHaveNoUnderscore(ns);
    NumeralsHaveNoUnderscore(nd);
    SplitJoin(parts, '_');
    NameIsJoin(n, ns, nd);
  }

  /** The name determines all three sizes. */
  lemma NameInjective(n1: int, ns1: int, nd1: int, n2: int, ns2: int, nd2: int)
    requires Name(n1, ns1, nd1) == Name(n2, ns2, nd2)
    ensures n1 == n2 && ns1 == ns2 && nd1 == nd2
  {
    NameSplits(n1, ns1, nd1);
    NameSplits(n2, ns2, nd2);
    assert NameParts(n1, ns1, nd1) == NameParts(n2, ns2, nd2);
    IntToStringInjective(n1, n2);
    IntToStringInjective(ns1, ns2);
    IntToStringInjective(nd1, nd2);
  }

  /**
   * The length left after NumPy's `delete` of the listed indices along an
   * axis of length len: every index is normalised (negatives count from the
   * end) and must be in range; an index listed twice is removed once.
   */
  function DeleteLength(len: nat, idx: seq<int>): (r: Result<nat>)
    requires |idx| == 1 || |idx| == 2
    ensures r.Ok? <==> forall k :: 0 <= k < |idx| ==> PyIndex(idx[k], len).Ok?
    ensures r.Err? ==> r.error == IndexError
  {
    var a :- PyIndex(idx[0], len);
    if |idx| == 1 then Ok(len - 1)
    else
      var b :- PyIndex(idx[1], len);
      Ok(if a == b then len - 1 else len - 2)
  }

  /** The planes dropped after stitching an axis: [nf, -1] for even n, [nf] for odd n. */
  function Dropped(n: int, nf: int): (d: seq<int>)
    ensures |d| == 1 || |d| == 2
  {
    if n % 2 == 0 then [nf, -1] else [nf]
  }

  /**
   * The shape of `_buildSymbol`'s result.  The octant is nf-cubed with
   * nf = n//2+1; reflecting and stitching doubles the first axis, which then
   * loses the dropped planes; the second axis, also nf long, is reflected,
   * stitched and cut the same way.  An empty octant leaves nothing to delete
   * from, which raises.
   */
  function SymbolShape(n: int): (r: Result<Shape3>)
    ensures r.Err? ==> r.error == IndexError
  {
    var nf := FloorDiv(n, 2) + 1;
    if nf <= 0 then Err(IndexError)
    else
      var a :- DeleteLength(2 * nf, Dropped(n, nf));
      Ok(Shape3(a, a, nf))
  }

  /**
   * For n >= 1, even or odd, the symbol has exactly the shape of the forward
   * real transform of the n-cube, so the pointwise product is elementwise.
   * For n = 0 both deleted indices name the same plane; below that the
   * symbol cannot be built.
   */
  lemma SymbolMatchesSpectrum(n: int)
    ensures n >= 1 ==> SymbolShape(n) == Ok(RfftShape(Cube3(n)))
    ensures n == 0 ==> SymbolShape(n) == Ok(Shape3(1, 1, 1))
    ensures n < 0 ==> SymbolShape(n).Err?
  {
    var nf := FloorDiv(n, 2) + 1;
    if n >= 0 {
      if n % 2 == 0 {
        assert PyIndex(nf, 2 * nf) == Ok(nf);
        assert PyIndex(-1, 2 * nf) == Ok(2 * nf - 1);
        assert DeleteLength(2 * nf, [nf, -1]) == Ok(if n == 0 then 1 else n);
      } else {
        assert PyIndex(nf, 2 * nf) == Ok(nf);
        assert DeleteLength(2 * nf, [nf]) == Ok(n);
      }
    }
  }

  /** `np.swapaxes(x, 0, 1)` on a shape. */
  function SwapAxes01(x: Shape3): (y: Shape3)
    ensures y.d0 == x.d1 && y.d1 == x.d0 && y.d2 == x.d2
  {
    Shape3(x.d1, x.d0, x.d2)
  }

  /** Swapping the first two axes of the symbol, as `solve` does, keeps its shape for n >= 1. */
  lemma SwappedSymbolKeepsShape(n: int)
    requires n >= 1
    ensures SymbolShape(n).Ok? && SwapAxes01(SymbolShape(n).value) == SymbolShape(n).value
  {
    SymbolMatchesSpectrum(n);
  }

  /** `solve` without a supplied output: a double nd-cube on the host. */
  function Output(nd: int): (r: Result<Alloc>)
    ensures r.Err? <==> nd < 0
    ensures r.Err? ==> r.error == ValueError
    ensures r.Ok? ==> r.value.shape == [nd, nd, nd] && Prod(r.value.shape) == nd * nd * nd
    ensures r.Ok? ==> r.value.backend == Host && r.value.dtype == RealType(Double64)
  {
    var dims := [nd, nd, nd];
    assert [nd][1..] == [] && [nd, nd][1..] == [nd] && dims[1..] == [nd, nd];
    assert Prod([nd]) == nd;
    assert Prod([nd, nd]) == nd * nd;
    assert Prod(dims) == nd * nd * nd;
    Zeros(Host, dims, RealType(Double64), COrder)
  }

  /**
   * The allocated output has the shape of the corner `runDef` extracts, for
   * every Nd the extraction accepts and the allocation does too.
   */
  lemma OutputHoldsExtraction(n: int, nd: int)
    requires 0 <= nd <= n
    ensures Out(Extract(n, nd), Cube3(n)) == Ok(Cube3(nd))
    ensures Output(nd).Ok? && Output(nd).value.shape == [Cube3(nd).d0, Cube3(nd).d1, Cube3(nd).d2]
  {
  }

  /**
   * A negative Nd passes the constructor: the trace extracts an empty corner
   * and the library is built; the first `solve` without an output array then
   * raises ValueError.
   */
  lemma NegativeNdBuildsButCannotSolve(n: int, ns: nat, nd: int, embedDesc: string)
    requires n >= 1 && nd < 0
    ensures Trace(n, ns, nd, embedDesc, Cube3(n)).Ok?
    ensures Output(nd) == Err(ValueError)
  {
    TraceGraph(n, ns, nd, embedDesc);
  }

  /** `scale`: division by the element count of the n-cube. */
  function Scaling(n: int): (d: Divisor)
    ensures d.DivideBy? && d.den == 1
    ensures n >= 0 ==> d.num == Size(Cube3(n))
  {
    DivideBy(n * n * n, 1)
  }

  /**
   * The test input value at `[p][q][r]`: the outermost loop variable `k` indexes
   * the first axis, and the innermost `i`, weighted by ns², the last.
   */
  function TestValue(ns: int, p: int, q: int, r: int): int
  {
    (r * ns * ns + 1) + (q * ns) + p
  }

  /** `buildTestInput`: an ns-cube of consecutive integers; empty when ns <= 0. */
  function TestInput(ns: int): (c: Cube<int>)
    ensures ns >= 0 ==> IsBox(c, ns, ns, ns)
    ensures ns <= 0 ==> c == []
    ensures forall p, q, r :: 0 <= p < ns && 0 <= q < ns && 0 <= r < ns ==> c[p][q][r] == TestValue(ns, p, q, r)
  {
    if ns <= 0 then []
    else
      seq(ns, p requires 0 <= p < ns =>
        seq(ns, q requires 0 <= q < ns =>
          seq(ns, r requires 0 <= r < ns => TestValue(ns, p, q, r))))
  }

  /** Writing a + b*m with 0 <= a < m is unique. */
  lemma DivModUnique(a: int, b: int, m: int)
    requires m > 0 && 0 <= a < m
    ensures (b * m + a) / m == b && (b * m + a) % m == a
  {
    var w := b * m + a;
    var q, r := w / m, w % m;
    assert w == q * m + r;
    assert (b - q) * m == r - a;
    if b - q >= 1 {
      MulMono(1, b - q, m);
    } else if b - q <= -1 {
      MulMono(b - q, -1, m);
    }
  }

  lemma MulMono(a: int, b: int, m: int)
    requires a <= b && m >= 0
    ensures a * m <= b * m
  {
  }

  /** The value at `[p][q][r]` minus one, in mixed radix ns. */
  lemma TestValueDigits(ns: int, p: int, q: int, r: int)
    requires ns >= 1 && 0 <= p < ns && 0 <= q < ns && 0 <= r < ns
    ensures TestValue(ns, p, q, r) - 1 == (r * ns + q) * ns + p
    ensures 0 <= r * ns + q < ns * ns
    ensures 1 <= TestValue(ns, p, q, r) <= ns * ns * ns
  {
    assert r * ns * ns == (r * ns) * ns;
    assert (r * ns + q) * ns == r * ns * ns + q * ns;
    MulMono(r, ns - 1, ns);
    assert r * ns + q <= (ns - 1) * ns + (ns - 1);
    assert (ns - 1) * ns + (ns - 1) == ns * ns - 1;
    MulMono(r * ns + q, ns * ns - 1, ns);
    assert (ns * ns - 1) * ns == ns * ns * ns - ns;
    assert 0 <= r * ns;
    MulMono(0, r * ns + q, ns);
  }

  /** Every test input entry lies in 1..ns³. */
  lemma TestInputInRange(ns: int, p: int, q: int, r: int)
    requires 0 <= p < ns && 0 <= q < ns && 0 <= r < ns
    ensures 1 <= TestInput(ns)[p][q][r] <= ns * ns * ns
  {
    TestValueDigits(ns, p, q, r);
  }

  /** Distinct positions hold distinct values. */
  lemma TestInputInjective(ns: int, p1: int, q1: int, r1: int, p2: int, q2: int, r2: int)
    requires 0 <= p1 < ns && 0 <= q1 < ns && 0 <= r1 < ns
    requires 0 <= p2 < ns && 0 <= q2 < ns && 0 <= r2 < ns
    requires TestInput(ns)[p1][q1][r1] == TestInput(ns)[p2][q2][r2]
    ensures p1 == p2 && q1 == q2 && r1 == r2
  {
    TestValueDigits(ns, p1, q1, r1);
    TestValueDigits(ns, p2, q2, r2);
    var w := TestValue(ns, p1, q1, r1) - 1;
    DivModUnique(p1, r1 * ns + q1, ns);
    DivModUnique(p2, r2 * ns + q2, ns);
    DivModUnique(q1, r1, ns);
    DivModUnique(q2, r2, ns);
  }

  /** Every value in 1..ns³ appears somewhere in the test input. */
  lemma TestInputCovers(ns: int, v: int) returns (p: int, q: int, r: int)
    requires ns >= 1 && 1 <= v <= ns * ns * ns
    ensures 0 <= p < ns && 0 <= q < ns && 0 <= r < ns
    ensures TestInput(ns)[p][q][r] == v
  {
    var w := v - 1;
    assert ns * ns * ns == (ns * ns) * ns;
    var t := DivBelow(w, ns, ns * ns);
    p := w % ns;
    r := DivBelow(t, ns, ns);
    q := t % ns;
    TestValueDigits(ns, p, q, r);
  }

  /**
   * Euclidean division of w in [0, k*m) by m: the quotient lies in [0, k)
   * and w is quotient*m plus the remainder.
   */
  lemma DivBelow(w: int, m: int, k: int) returns (d: int)
    requires m > 0 && 0 <= w < k * m
    ensures d == w / m && 0 <= d < k && w == d * m + w % m && 0 <= w % m < m
  {
    d := w / m;
    if d >= k {
      MulMono(k, d, m);
    }
    if d < 0 {
      MulMono(d, -1, m);
    }
  }

  /** `runDef`: zeroEmbedBox (not part of the base solver shown) pads to `padded`. */
  function Ops(n: int, nd: int, embedDesc: string, padded: Shape3): seq<Op>
  {
    [ZeroEmbed(embedDesc, padded), Rfftn, Pointwise, Irfftn(padded), Extract(n, nd)]
  }

  /** `_trace` of the base solver on the ns-cube test input. */
  function Trace(n: int, ns: nat, nd: int, embedDesc: string, padded: Shape3): Result<TraceState>
  {
    Tracer.Trace(Ops(n, nd, embedDesc, padded), Cube3(ns))
  }

  /**
   * Padding to the n-cube, the trace records the five descriptors in reverse
   * call order; the pointwise descriptor counts the real and imaginary parts
   * of the spectrum, which has the symbol's shape.
   */
  lemma TraceGraph(n: int, ns: nat, nd: int, embedDesc: string)
    requires n >= 1
    ensures Trace(n, ns, nd, embedDesc, Cube3(n)) == Ok(TraceState(false, [
      ExtractDesc(n, nd) + ",",
      IrfftDesc(n) + ",",
      PointwiseDesc(2 * Size(RfftShape(Cube3(n)))) + ",",
      RfftDesc(n) + ",",
      embedDesc]))
  {
    var padded := Cube3(n);
    var spectrum := RfftShape(padded);
    SizePositive(padded);
    SizePositive(spectrum);
    var ops := Ops(n, nd, embedDesc, padded);
    var last := Out(ops[4], padded).value;
    var xs := [Cube3(ns), padded, spectrum, spectrum, padded, last];
    assert Out(ops[0], xs[0]) == Ok(xs[1]);
    assert Out(ops[1], xs[1]) == Ok(xs[2]);
    assert Out(ops[2], xs[2]) == Ok(xs[3]);
    assert Out(ops[3], xs[3]) == Ok(xs[4]);
    assert Out(ops[4], xs[4]) == Ok(xs[5]);
    Trace5(ops, xs);
  }

  /**
   * The pointwise count is `2*n*n*(n//2+1)`, the value the script computes
   * as `nnhlf3D` (and never prints); by SymbolMatchesSpectrum it is also
   * twice the symbol's element count.
   */
  lemma PointwiseCount(n: int)
    requires n >= 1
    ensures 2 * Size(RfftShape(Cube3(n))) == 2 * n * n * (FloorDiv(n, 2) + 1)
  {
    DoubleSize(n, n, FloorDiv(n, 2) + 1);
  }

  lemma DoubleSize(a: nat, b: nat, c: nat)
    ensures 2 * Size(Shape3(a, b, c)) == 2 * a * b * c
  {
  }

  /** The configuration lines: the Hockney CUDA device configuration, or the CPU convolution one. */
  function ConfBlock(cuda: bool): (lines: seq<string>)
    ensures |lines| == (if cuda then 4 else 3)
    ensures WrapLine in lines <==> cuda
  {
    if cuda then
      ["conf := FFTXGlobals.confHockneyMlcCUDADevice();", "opts := FFTXGlobals.getOpts(conf);",
       "opts.devFunc := true;", WrapLine]
    else
      ["conf := FFTXGlobals.mdRConv();", "opts := FFTXGlobals.getOpts(conf);",
       "opts.preProcess := (self, t) >> t;"]
  }

  /**
   * `_writeScript`.  HIP and the precision option play no part; the Compose
   * block closes with `.withTags(opts.tags)`.
   */
  function Script(name: string, graph: seq<string>, o: Options): (lines: seq<string>)
    ensures var k := 5 + |ConfBlock(o.cuda)| + |When(o.printRuleTree, RuleTreeLine)|;
      |lines| == k + |graph| + 11 &&
      lines[4..4 + |ConfBlock(o.cuda)|] == ConfBlock(o.cuda) &&
      lines[k..k + |graph| + 7] == ComposeBlock(graph, name, "    ).withTags(opts.tags)") &&
      lines[|lines| - 2] == PrettyPrintTo(name, CudaOnlyExt(o))
  {
    var head := [LoadLine, ImportLine, "Import(realdft);", ""];
    var conf := ConfBlock(o.cuda);
    var rest := When(o.printRuleTree, RuleTreeLine) + [""];
    var block := ComposeBlock(graph, name, "    ).withTags(opts.tags)");
    var tail := ["", "c := opts.fftxGen(t);", PrettyPrintTo(name, CudaOnlyExt(o)), ""];
    var front := head + conf + rest;
    ThreeParts(head, conf, rest);
    ThreeParts(front, block, tail);
    assert (front + block + tail)[4..4 + |conf|] == front[4..4 + |conf|];
    front + block + tail
  }
}
