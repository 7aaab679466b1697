/**
 * Index semantics of the base solver's `embedCube` and `extract` over rank-3
 * arrays of any element type, and of NumPy's single-element assignment used
 * to build impulse test inputs.  A rank-3 array is a nested sequence indexed
 * `[i][j][k]`, as NumPy's `a[i, j, k]`.
 */
module Cube {
  import opened Common
  import opened Text

  type Cube<T> = seq<seq<seq<T>>>

  /** c is an n0 x n1 x n2 box. */
  predicate IsBox<T>(c: Cube<T>, n0: nat, n1: nat, n2: nat)
  {
    && |c| == n0
    && (forall i :: 0 <= i < n0 ==> |c[i]| == n1)
    && (forall i, j :: 0 <= i < n0 && 0 <= j < n1 ==> |c[i][j]| == n2)
  }

  /** Every index below m on every axis is inside c. */
  predicate Covers<T>(c: Cube<T>, m: nat)
  {
    && m <= |c|
    && (forall i :: 0 <= i < m ==> m <= |c[i]|)
    && (forall i, j :: 0 <= i < m && 0 <= j < m ==> m <= |c[i][j]|)
  }

  /**
   * `embedCube(N, src, Ns)`: an N-cube of zeros with src copied into the
   * [0,Ns)^3 corner.  NumPy refuses a negative size; the copy loop raises as
   * soon as it indexes past the new cube or past src.
   */
  function EmbedCube<T>(n: int, src: Cube<T>, ns: int, zero: T): (r: Result<Cube<T>>)
    ensures r.Ok? <==> n >= 0 && (ns <= 0 || (ns <= n && Covers(src, ns)))
    ensures n < 0 ==> r == Err(ValueError)
    ensures r.Ok? ==> IsBox(r.value, n, n, n)
    ensures r.Ok? ==> forall i, j, k :: 0 <= i < n && 0 <= j < n && 0 <= k < n ==>
      r.value[i][j][k] == (if i < ns && j < ns && k < ns then src[i][j][k] else zero)
  {
    if n < 0 then Err(ValueError)
    else if ns > 0 && !(ns <= n && Covers(src, ns)) then Err(IndexError)
    else
      Ok(seq(n, i requires 0 <= i < n =>
           seq(n, j requires 0 <= j < n =>
             seq(n, k requires 0 <= k < n =>
               if i < ns && j < ns && k < ns then src[i][j][k] else zero))))
  }

  /** `x[b:e, b:e, b:e]` with Python's slice normalisation on every axis. */
  function SliceCube<T>(x: Cube<T>, b: int, e: int): Cube<T>
  {
    var planes := PySlice(x, b, e);
    seq(|planes|, i requires 0 <= i < |planes| => SliceRows(planes[i], b, e))
  }

  /** `plane[b:e, b:e]`. */
  function SliceRows<T>(plane: seq<seq<T>>, b: int, e: int): seq<seq<T>>
  {
    var rows := PySlice(plane, b, e);
    seq(|rows|, j requires 0 <= j < |rows| => PySlice(rows[j], b, e))
  }

  /**
   * `extract(x, N, Nd)`: the [N-Nd, N)^3 corner.  For a box at least N long on
   * every axis and 0 <= Nd <= N it is an Nd-cube holding exactly that corner.
   */
  function Extract<T>(x: Cube<T>, n: int, nd: int): (r: Cube<T>)
    ensures forall m0: nat, m1: nat, m2: nat ::
      IsBox(x, m0, m1, m2) && 0 <= nd <= n && n <= m0 && n <= m1 && n <= m2 ==>
        IsBox(r, nd, nd, nd) &&
        forall i, j, k :: 0 <= i < nd && 0 <= j < nd && 0 <= k < nd ==>
          r[i][j][k] == x[n - nd + i][n - nd + j][n - nd + k]
  {
    var r := SliceCube(x, n - nd, n);
    forall m0: nat, m1: nat, m2: nat |
      IsBox(x, m0, m1, m2) && 0 <= nd <= n && n <= m0 && n <= m1 && n <= m2
      ensures IsBox(r, nd, nd, nd)
      ensures forall i, j, k :: 0 <= i < nd && 0 <= j < nd && 0 <= k < nd ==>
        r[i][j][k] == x[n - nd + i][n - nd + j][n - nd + k]
    {
      ExtractBox(x, n, nd, m0, m1, m2);
    }
    r
  }

  lemma ExtractBox<T>(x: Cube<T>, n: int, nd: int, m0: nat, m1: nat, m2: nat)
    requires IsBox(x, m0, m1, m2) && 0 <= nd <= n && n <= m0 && n <= m1 && n <= m2
    ensures var r := SliceCube(x, n - nd, n);
      IsBox(r, nd, nd, nd) &&
      forall i, j, k :: 0 <= i < nd && 0 <= j < nd && 0 <= k < nd ==>
        r[i][j][k] == x[n - nd + i][n - nd + j][n - nd + k]
  {
    var b := n - nd;
    var r := SliceCube(x, b, n);
    PySliceInRange(x, b, n);
    forall i | 0 <= i < nd
      ensures |r[i]| == nd
      ensures forall j :: 0 <= j < nd ==> |r[i][j]| == nd
      ensures forall j, k :: 0 <= j < nd && 0 <= k < nd ==> r[i][j][k] == x[b + i][b + j][b + k]
    {
      SlicePlane(x, b, n, m2, i, x[b + i]);
    }
  }

  /** Plane i of the sliced cube is the slice of plane b + i. */
  lemma SlicePlane<T>(x: Cube<T>, b: int, e: int, m2: nat, i: int, plane: seq<seq<T>>)
    requires 0 <= b <= e <= |x| && 0 <= i < e - b && plane == x[b + i]
    requires e <= |plane| && e <= m2
    requires forall j :: 0 <= j < |plane| ==> |plane[j]| == m2
    ensures var r := SliceCube(x, b, e);
      && |r| == e - b
      && |r[i]| == e - b
      && (forall j :: 0 <= j < e - b ==> |r[i][j]| == e - b)
      && (forall j, k :: 0 <= j < e - b && 0 <= k < e - b ==> r[i][j][k] == x[b + i][b + j][b + k])
  {
    PySliceInRange(x, b, e);
    assert SliceCube(x, b, e)[i] == SliceRows(plane, b, e);
    SliceRowsInRange(plane, b, e, m2);
  }

  lemma SliceRowsInRange<T>(plane: seq<seq<T>>, b: int, e: int, m2: nat)
    requires 0 <= b <= e <= |plane| && e <= m2
    requires forall j :: 0 <= j < |plane| ==> |plane[j]| == m2
    ensures var rows := SliceRows(plane, b, e);
      && |rows| == e - b
      && (forall j :: 0 <= j < e - b ==> |rows[j]| == e - b)
      && (forall j, k :: 0 <= j < e - b && 0 <= k < e - b ==> rows[j][k] == plane[b + j][b + k])
  {
    var rows := SliceRows(plane, b, e);
    PySliceInRange(plane, b, e);
    forall j | 0 <= j < e - b
      ensures |rows[j]| == e - b
      ensures forall k :: 0 <= k < e - b ==> rows[j][k] == plane[b + j][b + k]
    {
      PySliceInRange(plane[b + j], b, e);
    }
  }

  /**
   * Embedding an Ns-cube and extracting the [0,Ns)^3 corner gives the input
   * back.
   */
  lemma EmbedExtractRoundTrip<T>(n: int, src: Cube<T>, ns: nat, zero: T)
    requires IsBox(src, ns, ns, ns) && ns <= n
    ensures EmbedCube(n, src, ns, zero).Ok?
    ensures Extract(EmbedCube(n, src, ns, zero).value, ns, ns) == src
  {
    assert Covers(src, ns);
    var c := EmbedCube(n, src, ns, zero).value;
    var r := Extract(c, ns, ns);
    assert IsBox(r, ns, ns, ns);
    forall i | 0 <= i < ns ensures r[i] == src[i] {
      forall j | 0 <= j < ns ensures r[i][j] == src[i][j] {
        assert forall k :: 0 <= k < ns ==> r[i][j][k] == c[i][j][k];
      }
    }
  }

  /**
   * When the extracted corner starts at or beyond Ns, it lies entirely in the
   * zero padding: no input sample is read back directly.  The convolution
   * solvers use N = 2n and Ns = Nd = n, which satisfies this.
   */
  lemma ExtractedCornerIsPadding<T>(n: int, src: Cube<T>, ns: nat, nd: nat, zero: T)
    requires Covers(src, ns) && ns <= n && nd <= n && n - nd >= ns
    ensures EmbedCube(n, src, ns, zero).Ok?
    ensures var r := Extract(EmbedCube(n, src, ns, zero).value, n, nd);
      IsBox(r, nd, nd, nd) &&
      forall i, j, k :: 0 <= i < nd && 0 <= j < nd && 0 <= k < nd ==> r[i][j][k] == zero
  {
    var c := EmbedCube(n, src, ns, zero).value;
    assert IsBox(c, n, n, n);
  }

  /** NumPy's index normalisation for one axis: negatives count from the end. */
  function PyIndex(i: int, len: nat): (r: Result<nat>)
    ensures r.Ok? <==> -(len as int) <= i < len
    ensures r.Ok? ==> r.value < len && r.value == (if i < 0 then i + len else i)
    ensures r.Err? ==> r == Err(IndexError)
  {
    if 0 <= i < len then Ok(i)
    else if -(len as int) <= i < 0 then Ok(i + len)
    else Err(IndexError)
  }

  /**
   * `a = zeros((n, n, n)); a[pos] = one`: a cube with a single `one`, or the
   * error NumPy raises for a negative size or an index outside the cube.
   */
  function Impulse<T>(n: int, pos: (int, int, int), zero: T, one: T): (r: Result<Cube<T>>)
    ensures n < 0 ==> r == Err(ValueError)
    ensures n >= 0 ==> (r.Ok? <==> PyIndex(pos.0, n).Ok? && PyIndex(pos.1, n).Ok? && PyIndex(pos.2, n).Ok?)
    ensures r.Ok? ==> n >= 0 && IsBox(r.value, n, n, n)
    ensures r.Ok? ==> forall i, j, k :: 0 <= i < n && 0 <= j < n && 0 <= k < n ==>
      r.value[i][j][k] == (if (i, j, k) == (PyIndex(pos.0, n).value, PyIndex(pos.1, n).value, PyIndex(pos.2, n).value) then one else zero)
  {
    if n < 0 then Err(ValueError)
    else
      var a :- PyIndex(pos.0, n);
      var b :- PyIndex(pos.1, n);
      var c :- PyIndex(pos.2, n);
      Ok(seq(n, i requires 0 <= i < n =>
           seq(n, j requires 0 <= j < n =>
             seq(n, k requires 0 <= k < n => if (i, j, k) == (a, b, c) then one else zero))))
  }
}
