/**
 * The tracer of the base solver: while the tracing flag is on, every
 * primitive of a reference definition prepends one operator descriptor to the
 * call graph; afterwards every descriptor but the last gets a ',' so that the
 * graph reads as a comma-separated operator chain.
 *
 * Only array shapes flow through the model; the numerical values the
 * primitives compute are not modelled here (see module Cube for the index
 * semantics of embedding and extraction).
 */
module Tracer {
  import opened Common
  import opened Text

  /** Shape of a rank-3 array. */
  datatype Shape3 = Shape3(d0: nat, d1: nat, d2: nat)

  function Size(x: Shape3): nat
  {
    x.d0 * x.d1 * x.d2
  }

  /** A shape with no empty axis has a positive element count. */
  lemma SizePositive(x: Shape3)
    requires x.d0 > 0 && x.d1 > 0 && x.d2 > 0
    ensures Size(x) > 0
  {
    assert x.d0 * x.d1 > 0;
  }

  /** The element count is zero exactly when some axis is empty. */
  lemma SizeZero(x: Shape3)
    ensures Size(x) == 0 <==> x.d0 == 0 || x.d1 == 0 || x.d2 == 0
  {
    if x.d0 > 0 && x.d1 > 0 && x.d2 > 0 {
      SizePositive(x);
    }
  }

  function Cube3(n: nat): Shape3
  {
    Shape3(n, n, n)
  }

  /** The tracing flag and the call graph recorded so far (most recent first). */
  datatype TraceState = TraceState(tracing: bool, graph: seq<string>)

  /** What every primitive does with its descriptor: prepend it iff tracing is on. */
  function Record(st: TraceState, desc: string): TraceState
  {
    if st.tracing then TraceState(st.tracing, [desc] + st.graph) else st
  }

  /** `[N,N,N]` as the descriptors print it. */
  function CubeText(n: int): string
  {
    "[" + IntToString(n) + "," + IntToString(n) + "," + IntToString(n) + "]"
  }

  /** `[lo..hi]`. */
  function RangeText(lo: int, hi: int): string
  {
    "[" + IntToString(lo) + ".." + IntToString(hi) + "]"
  }

  function Box3Text(r: string): string
  {
    "[" + r + "," + r + "," + r + "]"
  }

  function EmbedDesc(n: int, ns: int): string
  {
    "ZeroEmbedBox(" + CubeText(n) + ", " + Box3Text(RangeText(0, ns - 1)) + ")"
  }

  function RfftDesc(n: int): string
  {
    "MDPRDFT(" + CubeText(n) + ", -1)"
  }

  function PointwiseDesc(nElems: int): string
  {
    "RCDiag(FDataOfs(symvar, " + IntToString(nElems) + ", 0))"
  }

  function IrfftDesc(n: int): string
  {
    "IMDPRDFT(" + CubeText(n) + ", 1)"
  }

  function ExtractDesc(n: int, nd: int): string
  {
    "ExtractBox(" + CubeText(n) + ", " + Box3Text(RangeText(n - nd, n - 1)) + ")"
  }

  /**
   * The primitives a reference definition calls, with the arguments that
   * matter to the trace.  `ZeroEmbed` stands for `zeroEmbedBox`, which the
   * convolution solvers call but the base solver shown does not define: its
   * descriptor and result shape are parameters.
   */
  datatype Op =
    | EmbedCube(n: int, ns: int)
    | ZeroEmbed(desc: string, out: Shape3)
    | Rfftn
    | Pointwise
    | Irfftn(shape: Shape3)
    | Extract(n: int, nd: int)

  /** Shape of a real forward transform's result: the last axis becomes d//2+1. */
  function RfftShape(x: Shape3): (y: Shape3)
    ensures y.d0 == x.d0 && y.d1 == x.d1
    ensures 2 * y.d2 - 2 <= x.d2 <= 2 * y.d2 - 1
  {
    Shape3(x.d0, x.d1, FloorDiv(x.d2, 2) + 1)
  }

  /** Length of `a[b:e]` on an axis of length len. */
  function SliceLen(len: nat, b: int, e: int): (r: nat)
    ensures r <= len
    ensures 0 <= b <= e <= len ==> r == e - b
  {
    var lo, hi := SliceBound(b, len), SliceBound(e, len);
    if lo < hi then hi - lo else 0
  }

  /**
   * The result shape of a primitive applied to an array of shape x, or the
   * failure the reference definition raises: a negative cube size or a copy
   * loop running past either array in `embedCube`, or a transform over an
   * empty axis.
   */
  function Out(op: Op, x: Shape3): (r: Result<Shape3>)
    ensures op.Pointwise? ==> r == Ok(x)
    ensures op.Extract? && 0 <= op.nd <= op.n && op.n <= x.d0 && op.n <= x.d1 && op.n <= x.d2 ==> r == Ok(Cube3(op.nd))
    ensures op.EmbedCube? && r.Ok? ==> op.n >= 0 && r.value == Cube3(op.n)
    ensures op.Rfftn? && r.Ok? ==> r.value == RfftShape(x)
  {
    match op
    case EmbedCube(n, ns) =>
      if n < 0 then Err(ValueError)
      else if ns > 0 && (ns > n || ns > x.d0 || ns > x.d1 || ns > x.d2) then Err(IndexError)
      else Ok(Cube3(n))
    case ZeroEmbed(_, out) => Ok(out)
    case Rfftn =>
      if Size(x) == 0 then Err(ValueError) else Ok(RfftShape(x))
    // NumPy's `x * y` broadcasts the symbol against x or raises; the model
    // keeps x's shape because the symbols the solvers pass have it already
    // (Hockney.SymbolMatchesSpectrum, Mdrfsconv.SpectrumPassesUnchanged).
    case Pointwise => Ok(x)
    case Irfftn(s) =>
      if Size(x) == 0 || Size(s) == 0 then Err(ValueError) else Ok(s)
    case Extract(n, nd) =>
      Ok(Shape3(SliceLen(x.d0, n - nd, n), SliceLen(x.d1, n - nd, n), SliceLen(x.d2, n - nd, n)))
  }

  /**
   * The descriptor a primitive records for an input of shape x.  The
   * transforms print the input's first axis; the pointwise product prints
   * twice the element count (real and imaginary parts).
   */
  function Desc(op: Op, x: Shape3): string
  {
    match op
    case EmbedCube(n, ns) => EmbedDesc(n, ns)
    case ZeroEmbed(desc, _) => desc
    case Rfftn => RfftDesc(x.d0)
    case Pointwise => PointwiseDesc(2 * Size(x))
    case Irfftn(_) => IrfftDesc(x.d0)
    case Extract(n, nd) => ExtractDesc(n, nd)
  }

  /** One primitive call: compute the result shape and record the descriptor if tracing. */
  function Step(op: Op, x: Shape3, st: TraceState): Result<(Shape3, TraceState)>
  {
    var y :- Out(op, x);
    Ok((y, Record(st, Desc(op, x))))
  }

  /** Running a reference definition: its primitives in call order. */
  function Exec(ops: seq<Op>, x: Shape3, st: TraceState): Result<(Shape3, TraceState)>
  {
    if |ops| == 0 then Ok((x, st))
    else
      var (y, st') :- Step(ops[0], x, st);
      Exec(ops[1..], y, st')
  }

  /** The same run without any tracing machinery: the result shape alone. */
  function Run(ops: seq<Op>, x: Shape3): Result<Shape3>
  {
    if |ops| == 0 then Ok(x)
    else
      var y :- Out(ops[0], x);
      Run(ops[1..], y)
  }

  /** The descriptors of a run, in call order. */
  function Recorded(ops: seq<Op>, x: Shape3): Result<seq<string>>
  {
    if |ops| == 0 then Ok([])
    else
      var y :- Out(ops[0], x);
      var rest :- Recorded(ops[1..], y);
      Ok([Desc(ops[0], x)] + rest)
  }

  /** The descriptor of each primitive at the matching shape of xs. */
  function Descs(ops: seq<Op>, xs: seq<Shape3>): (d: seq<string>)
    requires |ops| <= |xs|
    ensures |d| == |ops|
    ensures forall i :: 0 <= i < |ops| ==> d[i] == Desc(ops[i], xs[i])
  {
    if |ops| == 0 then [] else [Desc(ops[0], xs[0])] + Descs(ops[1..], xs[1..])
  }

  /**
   * A run whose primitives take each shape of the chain xs to the next
   * records, for every primitive, its descriptor at the shape it was given,
   * and ends at the last shape of the chain.
   */
  lemma {:induction false} RecordedChain(ops: seq<Op>, xs: seq<Shape3>)
    requires |xs| == |ops| + 1
    requires forall i :: 0 <= i < |ops| ==> Out(ops[i], xs[i]) == Ok(xs[i + 1])
    ensures Recorded(ops, xs[0]) == Ok(Descs(ops, xs))
    ensures Run(ops, xs[0]) == Ok(xs[|ops|])
  {
    if |ops| > 0 {
      RecordedChain(ops[1..], xs[1..]);
      assert xs[1..][0] == xs[1];
      assert Out(ops[0], xs[0]) == Ok(xs[1]);
    }
  }

  /** Tracing does not change what a run computes, nor whether it fails. */
  lemma {:induction false} ExecComputesRun(ops: seq<Op>, x: Shape3, st: TraceState)
    ensures Exec(ops, x, st).Ok? <==> Run(ops, x).Ok?
    ensures Exec(ops, x, st).Ok? ==> Exec(ops, x, st).value.0 == Run(ops, x).value
  {
    if |ops| > 0 && Out(ops[0], x).Ok? {
      ExecComputesRun(ops[1..], Out(ops[0], x).value, Record(st, Desc(ops[0], x)));
    }
  }

  /** A run records descriptors exactly when it succeeds. */
  lemma {:induction false} RecordedIffRun(ops: seq<Op>, x: Shape3)
    ensures Run(ops, x).Ok? <==> Recorded(ops, x).Ok?
  {
    if |ops| > 0 && Out(ops[0], x).Ok? {
      RecordedIffRun(ops[1..], Out(ops[0], x).value);
    }
  }

  /**
   * With the flag on, the graph gains the descriptors in reverse call order;
   * with it off, the graph is untouched.  The flag itself is never changed.
   */
  lemma {:induction false} ExecRecordsReversed(ops: seq<Op>, x: Shape3, st: TraceState)
    requires Exec(ops, x, st).Ok? && Recorded(ops, x).Ok?
    ensures Exec(ops, x, st).value.1.tracing == st.tracing
    ensures Exec(ops, x, st).value.1.graph ==
      (if st.tracing then Reverse(Recorded(ops, x).value) + st.graph else st.graph)
  {
    if |ops| > 0 {
      var y := Out(ops[0], x).value;
      var d := Desc(ops[0], x);
      var st' := Record(st, d);
      assert Exec(ops, x, st) == Exec(ops[1..], y, st');
      var rest := Recorded(ops[1..], y).value;
      assert Recorded(ops, x).value == [d] + rest;
      ExecRecordsReversed(ops[1..], y, st');
      assert Reverse([d] + rest) == Reverse(rest) + [d];
    }
  }

  /** Every entry but the last gets a trailing ','. */
  function Separated(g: seq<string>): (r: seq<string>)
    ensures |r| == |g|
    ensures forall i :: 0 <= i < |g| - 1 ==> r[i] == g[i] + ","
    ensures |g| > 0 ==> r[|g| - 1] == g[|g| - 1]
  {
    seq(|g|, i requires 0 <= i < |g| => if i < |g| - 1 then g[i] + "," else g[i])
  }

  /** Concatenating the separated entries gives the comma-joined chain. */
  lemma {:induction false} SeparatedJoins(g: seq<string>)
    ensures Concat(Separated(g)) == Join(g, ",")
    decreases |g|
  {
    if |g| > 1 {
      SeparatedJoins(g[1..]);
      assert Separated(g) == [g[0] + ","] + Separated(g[1..]);
    } else if |g| == 1 {
      assert Separated(g) == [g[0]];
    }
  }

  function Concat(ss: seq<string>): string
  {
    if |ss| == 0 then "" else ss[0] + Concat(ss[1..])
  }

  /** The post-pass of `_trace`, as the in-place loop over the graph. */
  method AddSeparators(g: seq<string>) returns (r: seq<string>)
    ensures |r| == |g|
    ensures forall i :: 0 <= i < |g| - 1 ==> r[i] == g[i] + ","
    ensures |g| > 0 ==> r[|g| - 1] == g[|g| - 1]
    ensures r == Separated(g)
  {
    r := g;
    var i := 0;
    while i < |g| - 1
      invariant 0 <= i <= |g|
      invariant |g| > 0 ==> i <= |g| - 1
      invariant |r| == |g|
      invariant forall j :: 0 <= j < i ==> r[j] == g[j] + ","
      invariant forall j :: i <= j < |g| ==> r[j] == g[j]
    {
      r := r[i := r[i] + ","];
      i := i + 1;
    }
  }

  /**
   * `_trace`: start from an empty graph with the flag on, run the reference
   * definition on the test input, switch the flag off and separate the
   * entries.  A failure inside the reference definition propagates.
   */
  function Trace(ops: seq<Op>, input: Shape3): (r: Result<TraceState>)
    ensures r.Ok? <==> Recorded(ops, input).Ok?
    ensures r.Ok? ==> !r.value.tracing && r.value.graph == Separated(Reverse(Recorded(ops, input).value))
    ensures r.Ok? ==> |r.value.graph| == |ops|
  {
    ExecComputesRun(ops, input, TraceState(true, []));
    RecordedIffRun(ops, input);
    RecordedLength(ops, input);
    match Exec(ops, input, TraceState(true, []))
    case Err(e) => Err(e)
    case Ok((_, st)) =>
      ExecRecordsReversed(ops, input, TraceState(true, []));
      Ok(TraceState(false, Separated(st.graph)))
  }

  /** A successful run records exactly one descriptor per primitive. */
  lemma {:induction false} RecordedLength(ops: seq<Op>, x: Shape3)
    ensures Recorded(ops, x).Ok? ==> |Recorded(ops, x).value| == |ops|
  {
    if |ops| > 0 && Out(ops[0], x).Ok? {
      RecordedLength(ops[1..], Out(ops[0], x).value);
    }
  }

  /** The separated graph of a five-primitive run. */
  lemma SeparatedReverse5(d: seq<string>)
    requires |d| == 5
    ensures Separated(Reverse(d)) == [d[4] + ",", d[3] + ",", d[2] + ",", d[1] + ",", d[0]]
  {
    Reverse5(d);
    Separated5(Reverse(d));
  }

  /**
   * The trace of a five-primitive run along a chain of shapes: the five
   * descriptors in reverse call order, all but the first-called one
   * followed by ','.
   */
  lemma Trace5(ops: seq<Op>, xs: seq<Shape3>)
    requires |ops| == 5 && |xs| == 6
    requires forall i :: 0 <= i < 5 ==> Out(ops[i], xs[i]) == Ok(xs[i + 1])
    ensures Trace(ops, xs[0]) == Ok(TraceState(false, [
      Desc(ops[4], xs[4]) + ",", Desc(ops[3], xs[3]) + ",", Desc(ops[2], xs[2]) + ",",
      Desc(ops[1], xs[1]) + ",", Desc(ops[0], xs[0])]))
  {
    RecordedChain(ops, xs);
    SeparatedReverse5(Descs(ops, xs));
  }

  lemma Reverse5(d: seq<string>)
    requires |d| == 5
    ensures Reverse(d) == [d[4], d[3], d[2], d[1], d[0]]
  {
    var r := Reverse(d);
    assert r[0] == d[4] && r[1] == d[3] && r[2] == d[2] && r[3] == d[1] && r[4] == d[0];
  }

  lemma Separated5(r: seq<string>)
    requires |r| == 5
    ensures Separated(r) == [r[0] + ",", r[1] + ",", r[2] + ",", r[3] + ",", r[4]]
  {
    var s := Separated(r);
    assert s[0] == r[0] + "," && s[1] == r[1] + "," && s[2] == r[2] + ",";
    assert s[3] == r[3] + "," && s[4] == r[4];
  }
}
