/**
 * Plotting helpers: `process_outputs_to_plot_format`, which reshapes a network output
 * over the trunk points into a meshgrid over the coordinate axes, and `format_param`,
 * which renders a parameter for a plot title. Arrays are modelled as a shape and a
 * row-major sequence of elements, as numpy stores them.
 */
module PlotUtils {
  import opened Common

  /** A numpy array: its shape and its elements in row-major (C) order. */
  datatype Arr<T> = Arr(shape: seq<nat>, data: seq<T>)

  /** `np.prod(shape)`; the empty product is 1. */
  function Prod(shape: seq<nat>): nat {
    if |shape| == 0 then 1 else shape[0] * Prod(shape[1..])
  }

  /** An array whose element count is the product of its dimensions. */
  type Tensor<T> = a: Arr<T> | |a.data| == Prod(a.shape) witness Arr([0], [])

  /** An index with one in-range entry per dimension. */
  predicate InBounds(shape: seq<nat>, idx: seq<nat>) {
    |idx| == |shape| && forall k | 0 <= k < |idx| :: idx[k] < shape[k]
  }

  /** The row-major position of an index: the last dimension varies fastest. */
  function FlatIndex(shape: seq<nat>, idx: seq<nat>): nat
    requires |idx| == |shape|
  {
    if |shape| == 0 then 0 else idx[0] * Prod(shape[1..]) + FlatIndex(shape[1..], idx[1..])
  }

  /** The element at an index. */
  function Get<T>(a: Tensor<T>, idx: seq<nat>): T
    requires InBounds(a.shape, idx)
  {
    FlatIndexBound(a.shape, idx);
    a.data[FlatIndex(a.shape, idx)]
  }

  /** `a.reshape(shape)`: the same elements in the same order; numpy raises when the counts differ. */
  function Reshape<T>(a: Tensor<T>, shape: seq<nat>): (r: Result<Tensor<T>>)
    ensures r.Ok? <==> Prod(shape) == Prod(a.shape)
    ensures r.Ok? ==> r.value.shape == shape && r.value.data == a.data
    ensures r.Err? ==> r.error == CannotReshape
  {
    if Prod(shape) == |a.data| then Ok(Arr(shape, a.data)) else Err(CannotReshape)
  }

  /** The coordinate arrays the trunk was built from: a list or tuple of arrays, or one array. */
  datatype Coords = CoordTuple(axes: seq<seq<real>>) | CoordArray(values: seq<real>)

  /** `grid_shape`: one length per coordinate array, or the length of the single array. */
  function GridShape(coords: Coords): (g: seq<nat>)
    ensures coords.CoordTuple? ==> |g| == |coords.axes| && forall i | 0 <= i < |g| :: g[i] == |coords.axes[i]|
    ensures coords.CoordArray? ==> g == [|coords.values|]
  {
    match coords
    case CoordTuple(axes) => seq(|axes|, i requires 0 <= i < |axes| => |axes[i]|)
    case CoordArray(values) => [|values|]
  }

  /** `(first, *middle, last)`, for shapes and for indices. */
  function Framed(first: nat, middle: seq<nat>, last: nat): seq<nat> {
    [first] + middle + [last]
  }

  /** A 2-D output (N, trunk) becomes (N, *grid, 1); the size is checked only without `basis`. */
  function Process2D<T>(output: Tensor<T>, grid: seq<nat>, basis: bool): Result<Tensor<T>>
    requires |output.shape| == 2
  {
    var n, trunkSize := output.shape[0], output.shape[1];
    if Prod(grid) != trunkSize && !basis then Err(TrunkSizeMismatch)
    else Reshape(output, Framed(n, grid, 1))
  }

  /**
   * A 3-D output is read as (N, outputs, trunk), or as (N, trunk, outputs) with `basis`,
   * and becomes (N, *grid, outputs) after a size check.
   */
  function Process3D<T>(output: Tensor<T>, grid: seq<nat>, basis: bool): Result<Tensor<T>>
    requires |output.shape| == 3
  {
    var n := output.shape[0];
    var outputs := if basis then output.shape[2] else output.shape[1];
    var trunkSize := if basis then output.shape[1] else output.shape[2];
    if Prod(grid) != trunkSize then Err(TrunkSizeMismatch)
    else Reshape(output, Framed(n, grid, outputs))
  }

  /** `process_outputs_to_plot_format(output, coords, basis)`. */
  function ProcessOutputs<T>(output: Tensor<T>, coords: Coords, basis: bool): Result<Tensor<T>> {
    var grid := GridShape(coords);
    if |output.shape| == 2 then Process2D(output, grid, basis)
    else if |output.shape| == 3 then Process3D(output, grid, basis)
    else Err(BadRank)
  }

  // ---------------------------------------------------------------------------
  // Row-major arithmetic

  /** A bounded index has a position below the element count. */
  lemma {:induction false} FlatIndexBound(shape: seq<nat>, idx: seq<nat>)
    requires InBounds(shape, idx)
    ensures FlatIndex(shape, idx) < Prod(shape)
  {
    if |shape| > 0 {
      var p := Prod(shape[1..]);
      FlatIndexBound(shape[1..], idx[1..]);
      MulLeftMono(idx[0] + 1, shape[0], p);
      assert (idx[0] + 1) * p == idx[0] * p + p;
    }
  }

  /** One leading dimension: the element count and the position scale with it. */
  lemma FlatLead(n: nat, rest: seq<nat>, i: nat, idx: seq<nat>)
    requires |idx| == |rest|
    ensures Prod([n] + rest) == n * Prod(rest)
    ensures FlatIndex([n] + rest, [i] + idx) == i * Prod(rest) + FlatIndex(rest, idx)
  {
    assert ([n] + rest)[1..] == rest && ([i] + idx)[1..] == idx;
  }

  /** One trailing dimension multiplies the element count. */
  lemma {:induction false} ProdTrail(s: seq<nat>, last: nat)
    ensures Prod(s + [last]) == Prod(s) * last
  {
    if |s| == 0 {
      assert [] + [last] == [last] && [last][1..] == [];
    } else {
      ProdTrail(s[1..], last);
      assert (s + [last])[1..] == s[1..] + [last];
      assert s[0] * (Prod(s[1..]) * last) == (s[0] * Prod(s[1..])) * last;
    }
  }

  /** One trailing dimension: the position is the old position times its size plus its index. */
  lemma {:induction false} FlatTrail(s: seq<nat>, last: nat, idx: seq<nat>, j: nat)
    requires |idx| == |s|
    ensures FlatIndex(s + [last], idx + [j]) == FlatIndex(s, idx) * last + j
  {
    if |s| == 0 {
      assert [] + [last] == [last] && [last][1..] == [];
      assert [] + [j] == [j] && [j][1..] == [];
    } else {
      var p, f := Prod(s[1..]), FlatIndex(s[1..], idx[1..]);
      FlatTrail(s[1..], last, idx[1..], j);
      ProdTrail(s[1..], last);
      assert (s + [last])[1..] == s[1..] + [last];
      assert (idx + [j])[1..] == idx[1..] + [j];
      assert FlatIndex(s + [last], idx + [j]) == idx[0] * (p * last) + (f * last + j);
      Regroup(idx[0], p, f, last, j);
    }
  }

  /** The shape (n, *grid, last) has n * Prod(grid) * last elements. */
  lemma GridCount(n: nat, grid: seq<nat>, last: nat)
    ensures Prod(Framed(n, grid, last)) == n * Prod(grid) * last
  {
    var tail := grid + [last];
    assert Framed(n, grid, last) == [n] + tail;
    FlatLead(n, tail, 0, seq(|tail|, _ => 0));
    ProdTrail(grid, last);
    MulAssoc(n, Prod(grid), last);
  }

  /** The position of (i, *g, j) in the shape (n, *grid, last). */
  lemma GridPosition(n: nat, grid: seq<nat>, last: nat, i: nat, g: seq<nat>, j: nat)
    requires |g| == |grid|
    ensures FlatIndex(Framed(n, grid, last), Framed(i, g, j)) == (i * Prod(grid) + FlatIndex(grid, g)) * last + j
  {
    var p, f := Prod(grid), FlatIndex(grid, g);
    var shape, tail := Framed(n, grid, last), grid + [last];
    var idx, itail := Framed(i, g, j), g + [j];
    assert shape == [n] + tail;
    assert idx == [i] + itail;
    FlatLead(n, tail, i, itail);
    ProdTrail(grid, last);
    FlatTrail(grid, last, g, j);
    var pt, ft := Prod(tail), FlatIndex(tail, itail);
    assert FlatIndex(shape, idx) == i * pt + ft;
    assert pt == p * last && ft == f * last + j;
    Regroup(i, p, f, last, j);
  }

  /** A 2-D shape (a, b): a * b elements, (i, j) at position i * b + j. */
  lemma Layout2(a: nat, b: nat, i: nat, j: nat)
    ensures Prod([a, b]) == a * b
    ensures FlatIndex([a, b], [i, j]) == i * b + j
  {
    assert [a, b][1..] == [b] && [b][1..] == [];
    assert [i, j][1..] == [j] && [j][1..] == [];
    assert Prod([b]) == b * Prod([]);
    assert FlatIndex([b], [j]) == j * Prod([]) + FlatIndex([], []);
  }

  /** A 3-D shape (a, b, c): a * b * c elements, (i, j, k) at position (i * b + j) * c + k. */
  lemma Layout3(a: nat, b: nat, c: nat, i: nat, j: nat, k: nat)
    ensures Prod([a, b, c]) == a * b * c
    ensures FlatIndex([a, b, c], [i, j, k]) == (i * b + j) * c + k
  {
    assert [a, b, c][1..] == [b, c] && [i, j, k][1..] == [j, k];
    Layout2(b, c, j, k);
    MulAssoc(a, b, c);
    MulAssoc(i, b, c);
    assert i * (b * c) + (j * c + k) == (i * b + j) * c + k;
  }

  /** An index (i, *g, j) into (n, *grid, last) is in bounds when each part is. */
  lemma GridInBounds(n: nat, grid: seq<nat>, last: nat, i: nat, g: seq<nat>, j: nat)
    requires i < n && InBounds(grid, g) && j < last
    ensures InBounds(Framed(n, grid, last), Framed(i, g, j))
  {
    var shape, idx := Framed(n, grid, last), Framed(i, g, j);
    forall k | 0 <= k < |idx| ensures idx[k] < shape[k] {
      if 0 < k <= |g| {
        assert idx[k] == g[k - 1] && shape[k] == grid[k - 1];
      }
    }
  }

  // ---------------------------------------------------------------------------
  // Properties of the reshaping

  /** Anything but a 2-D or 3-D output is an error. */
  lemma ProcessRank<T>(output: Tensor<T>, coords: Coords, basis: bool)
    ensures ProcessOutputs(output, coords, basis).Ok? ==> |output.shape| == 2 || |output.shape| == 3
    ensures |output.shape| != 2 && |output.shape| != 3 ==> ProcessOutputs(output, coords, basis) == Err(BadRank)
  {
  }

  /**
   * A 2-D output: without `basis` a size mismatch is reported as such; with `basis` it is
   * not checked and numpy's reshape raises instead, unless there are no rows. On success the
   * shape is (N, *grid, 1) and the elements keep their order.
   */
  lemma Process2DSpec<T>(output: Tensor<T>, grid: seq<nat>, basis: bool)
    requires |output.shape| == 2
    ensures var n, trunkSize := output.shape[0], output.shape[1];
      && (!basis ==> (Process2D(output, grid, basis).Ok? <==> Prod(grid) == trunkSize))
      && (!basis && Prod(grid) != trunkSize ==> Process2D(output, grid, basis) == Err(TrunkSizeMismatch))
      && (basis ==> (Process2D(output, grid, basis).Ok? <==> n == 0 || Prod(grid) == trunkSize))
      && (basis && Process2D(output, grid, basis).Err? ==> Process2D(output, grid, basis).error == CannotReshape)
    ensures Process2D(output, grid, basis).Ok? ==>
      && Process2D(output, grid, basis).value.shape == Framed(output.shape[0], grid, 1)
      && Process2D(output, grid, basis).value.data == output.data
  {
    var n, trunkSize := output.shape[0], output.shape[1];
    GridCount(n, grid, 1);
    Layout2(n, trunkSize, 0, 0);
    assert output.shape == [n, trunkSize];
    if n > 0 && n * Prod(grid) == n * trunkSize {
      MulCancel(n, Prod(grid), trunkSize);
    }
  }

  /**
   * A 3-D output succeeds exactly when the grid has as many points as the trunk dimension
   * (the middle one with `basis`, the last one without); the shape is then
   * (N, *grid, outputs) and the elements keep their order.
   */
  lemma Process3DSpec<T>(output: Tensor<T>, grid: seq<nat>, basis: bool)
    requires |output.shape| == 3
    ensures var trunkSize := if basis then output.shape[1] else output.shape[2];
      && (Process3D(output, grid, basis).Ok? <==> Prod(grid) == trunkSize)
      && (Process3D(output, grid, basis).Err? ==> Process3D(output, grid, basis).error == TrunkSizeMismatch)
    ensures Process3D(output, grid, basis).Ok? ==>
      && Process3D(output, grid, basis).value.shape ==
           Framed(output.shape[0], grid, if basis then output.shape[2] else output.shape[1])
      && Process3D(output, grid, basis).value.data == output.data
  {
    var n, d1, d2 := output.shape[0], output.shape[1], output.shape[2];
    var outputs := if basis then d2 else d1;
    var trunkSize := if basis then d1 else d2;
    if Prod(grid) == trunkSize {
      GridCount(n, grid, outputs);
      Layout3(n, d1, d2, 0, 0, 0);
      assert output.shape == [n, d1, d2];
      if !basis {
        MulAssoc(n, d1, d2);
        MulAssoc(n, d2, d1);
      }
    }
  }

  /**
   * Point g of the grid of a 2-D output holds, for sample i, trunk entry FlatIndex(grid, g):
   * the trunk points are laid out over the grid in row-major order.
   */
  lemma Process2DCell<T>(output: Tensor<T>, grid: seq<nat>, basis: bool, i: nat, g: seq<nat>)
    requires |output.shape| == 2 && Process2D(output, grid, basis).Ok?
    requires i < output.shape[0] && InBounds(grid, g)
    ensures FlatIndex(grid, g) < output.shape[1]
    ensures InBounds(Process2D(output, grid, basis).value.shape, Framed(i, g, 0))
    ensures Get(Process2D(output, grid, basis).value, Framed(i, g, 0)) == Get(output, [i, FlatIndex(grid, g)])
  {
    Process2DSpec(output, grid, basis);
    var n, trunkSize := output.shape[0], output.shape[1];
    var t := FlatIndex(grid, g);
    FlatIndexBound(grid, g);
    GridInBounds(n, grid, 1, i, g, 0);
    GridCount(n, grid, 1);
    GridPosition(n, grid, 1, i, g, 0);
    Layout2(n, trunkSize, i, t);
    assert output.shape == [n, trunkSize];
  }

  /**
   * With `basis`, entry (i, t, o) of a 3-D output moves to sample i, grid point g and output o
   * whenever t is the row-major position of g: the reshape keeps each point's outputs together.
   */
  lemma Process3DBasisCell<T>(output: Tensor<T>, grid: seq<nat>, i: nat, g: seq<nat>, o: nat)
    requires |output.shape| == 3 && Process3D(output, grid, true).Ok?
    requires i < output.shape[0] && InBounds(grid, g) && o < output.shape[2]
    ensures FlatIndex(grid, g) < output.shape[1]
    ensures InBounds(Process3D(output, grid, true).value.shape, Framed(i, g, o))
    ensures Get(Process3D(output, grid, true).value, Framed(i, g, o)) == Get(output, [i, FlatIndex(grid, g), o])
  {
    Process3DSpec(output, grid, true);
    var n, trunkSize, outputs := output.shape[0], output.shape[1], output.shape[2];
    var t := FlatIndex(grid, g);
    FlatIndexBound(grid, g);
    GridInBounds(n, grid, outputs, i, g, o);
    GridCount(n, grid, outputs);
    GridPosition(n, grid, outputs, i, g, o);
    Layout3(n, trunkSize, outputs, i, t, o);
    assert output.shape == [n, trunkSize, outputs];
  }

  /**
   * Without `basis` the reshape is not a transpose: in a (1, 2, 2) output with the outputs
   * along the middle axis, sample 0 at grid point 1 receives for output 0 the element of
   * output 1 at point 0, where a transpose would have put output 0 at point 1.
   */
  lemma Process3DNotTranspose<T>(output: Tensor<T>)
    requires output.shape == [1, 2, 2]
    ensures Process3D(output, [2], false).Ok?
    ensures InBounds(Process3D(output, [2], false).value.shape, [0, 1, 0])
    ensures Get(Process3D(output, [2], false).value, [0, 1, 0]) == Get(output, [0, 1, 0])
    ensures Get(output, [0, 1, 0]) != Get(output, [0, 0, 1]) ==>
      Get(Process3D(output, [2], false).value, [0, 1, 0]) != Get(output, [0, 0, 1])
  {
    assert Prod([2]) == 2 by {
      assert [2][1..] == [];
    }
    Process3DSpec(output, [2], false);
    assert Framed(1, [2], 2) == [1, 2, 2];
  }

  // ---------------------------------------------------------------------------
  // format_param

  /** A plot parameter: a dictionary (in insertion order), a non-string iterable, a string, or a number. */
  datatype Param =
    | PDict(items: seq<(string, real)>)
    | PIter(values: seq<real>)
    | PStr(s: string)
    | PNumber(x: real)

  /** `", ".join(items)`. */
  function JoinComma(items: seq<string>): string {
    if |items| == 0 then ""
    else if |items| == 1 then items[0]
    else JoinComma(items[..|items| - 1]) + ", " + items[|items| - 1]
  }

  /** `f"{k}={v:.2f}"`, with the two-decimal formatter a parameter. */
  function KeyValue(fmt: real -> string, k: string, v: real): string {
    k + "=" + fmt(v)
  }

  /**
   * `format_param(param, param_keys)`: a dictionary gives its `k=v` pairs in parentheses; an
   * iterable gives keys zipped with values when the keys are as many as the values, its values
   * alone otherwise; anything else is `str(param)`, the number printer a parameter.
   */
  function FormatParam(param: Param, keys: Option<seq<string>>, fmt: real -> string, show: real -> string): string {
    match param
    case PDict(items) =>
      "(" + JoinComma(seq(|items|, i requires 0 <= i < |items| => KeyValue(fmt, items[i].0, items[i].1))) + ")"
    case PIter(values) =>
      if keys.Some? && |keys.value| == |values| then
        "(" + JoinComma(seq(|values|, i requires 0 <= i < |values| => KeyValue(fmt, keys.value[i], values[i]))) + ")"
      else
        "(" + JoinComma(seq(|values|, i requires 0 <= i < |values| => fmt(values[i]))) + ")"
    case PStr(s) => s
    case PNumber(x) => show(x)
  }

  /** Joining two non-empty lists is joining each and separating them by ", ". */
  lemma {:induction false} JoinCommaAppend(a: seq<string>, b: seq<string>)
    requires |a| > 0 && |b| > 0
    ensures JoinComma(a + b) == JoinComma(a) + ", " + JoinComma(b)
  {
    if |b| == 1 {
      assert (a + b)[..|a + b| - 1] == a;
    } else {
      var k := |b| - 1;
      JoinCommaAppend(a, b[..k]);
      assert (a + b)[..|a + b| - 1] == a + b[..k];
    }
  }

  /** A zipped iterable is formatted like the dictionary of the same pairs. */
  lemma FormatZipIsDict(values: seq<real>, keys: seq<string>, fmt: real -> string, show: real -> string)
    requires |keys| == |values|
    ensures FormatParam(PIter(values), Some(keys), fmt, show) ==
      FormatParam(PDict(seq(|values|, i requires 0 <= i < |values| => (keys[i], values[i]))), None, fmt, show)
  {
    var items := seq(|values|, i requires 0 <= i < |values| => (keys[i], values[i]));
    assert seq(|items|, i requires 0 <= i < |items| => KeyValue(fmt, items[i].0, items[i].1)) ==
           seq(|values|, i requires 0 <= i < |values| => KeyValue(fmt, keys[i], values[i]));
  }

  /** Keys of the wrong length, or none, give the values alone; a dictionary ignores them. */
  lemma FormatKeysIgnored(param: Param, keys: Option<seq<string>>, fmt: real -> string, show: real -> string)
    requires param.PIter? ==> keys.None? || |keys.value| != |param.values|
    ensures FormatParam(param, keys, fmt, show) == FormatParam(param, None, fmt, show)
  {
  }

  /** A string is shown as it is, a number by the printer; containers are parenthesised. */
  lemma FormatShape(param: Param, keys: Option<seq<string>>, fmt: real -> string, show: real -> string)
    ensures param.PStr? ==> FormatParam(param, keys, fmt, show) == param.s
    ensures param.PNumber? ==> FormatParam(param, keys, fmt, show) == show(param.x)
    ensures (param.PDict? || param.PIter?) ==>
      var f := FormatParam(param, keys, fmt, show);
      |f| >= 2 && f[0] == '(' && f[|f| - 1] == ')'
  {
  }

  /** Two keyed values: "(a=<x>, b=<y>)". */
  lemma FormatPairExample(a: string, b: string, x: real, y: real, fmt: real -> string, show: real -> string)
    ensures FormatParam(PIter([x, y]), Some([a, b]), fmt, show) == "(" + (a + "=" + fmt(x)) + ", " + (b + "=" + fmt(y)) + ")"
  {
    var items := seq(2, i requires 0 <= i < 2 => KeyValue(fmt, [a, b][i], [x, y][i]));
    assert items == [KeyValue(fmt, a, x)] + [KeyValue(fmt, b, y)];
    JoinCommaAppend([KeyValue(fmt, a, x)], [KeyValue(fmt, b, y)]);
  }

  // ---------------------------------------------------------------------------
  // Arithmetic helpers: proof steps about natural numbers, not part of
  // the modelled behaviour.

  lemma MulLeftMono(a: nat, b: nat, c: nat)
    requires a <= b
    ensures a * c <= b * c
  {
  }

  lemma MulCancel(n: nat, a: nat, b: nat)
    requires n > 0 && n * a == n * b
    ensures a == b
  {
    if a < b {
      MulLeftMono(a + 1, b, n);
    } else if b < a {
      MulLeftMono(b + 1, a, n);
    }
  }

  lemma Regroup(i: nat, p: nat, f: nat, last: nat, j: nat)
    ensures i * (p * last) + (f * last + j) == (i * p + f) * last + j
  {
    MulAssoc(i, p, last);
    Distrib(i * p, f, last);
  }

  lemma Distrib(a: nat, b: nat, c: nat)
    ensures (a + b) * c == a * c + b * c
  {
  }

  lemma MulAssoc(a: nat, b: nat, c: nat)
    ensures a * (b * c) == a * b * c
  {
  }
}
