/**
 * Preprocessing helpers: the four scalers (standardisation and min–max
 * normalisation and their inverses), the running min/max over a loader of
 * samples, the pair that flattens a (r, z) meshgrid into trunk coordinates and
 * recovers it, and the rule that picks how many POD modes to keep from the
 * singular values.
 */
module Preprocessing {
  import opened Common
  import opened Matrices

  /** Applying a scalar map to every entry of a tensor. */
  function MapCells(m: Matrix, f: real -> real): (r: Matrix)
    ensures r.rows == m.rows && r.cols == m.cols
  {
    Mat(m.rows, m.cols, seq(m.rows, i requires 0 <= i < m.rows =>
      seq(m.cols, j requires 0 <= j < m.cols => f(m.cells[i][j]))))
  }

  /** Mapping by f and then by a left inverse of f gives the tensor back. */
  lemma MapCellsInverse(m: Matrix, f: real -> real, g: real -> real)
    requires forall x :: g(f(x)) == x
    ensures MapCells(MapCells(m, f), g) == m
  {
    var r := MapCells(MapCells(m, f), g);
    forall i, j | 0 <= i < m.rows && 0 <= j < m.cols
      ensures r.cells[i][j] == m.cells[i][j]
    {
      assert r.cells[i][j] == g(f(m.cells[i][j]));
    }
    Ext(r, m);
  }

  /** `Standardize(mu, std)`: `(vals - mu) / std`. */
  datatype Standardize = Standardize(mu: real, std: real) {
    function Apply(vals: Matrix): (r: Result<Matrix>)
      ensures r.Ok? <==> std != 0.0
      ensures r.Ok? ==> r.value.rows == vals.rows && r.value.cols == vals.cols
    {
      if std == 0.0 then Err(DivisionByZero) else Ok(MapCells(vals, x => (x - mu) / std))
    }
  }

  /** `Destandardize(mu, std)`: `vals * std + mu`. */
  datatype Destandardize = Destandardize(mu: real, std: real) {
    function Apply(vals: Matrix): (r: Matrix)
      ensures r.rows == vals.rows && r.cols == vals.cols
    {
      MapCells(vals, x => x * std + mu)
    }
  }

  /** `Normalize(v_min, v_max)`: `(vals - v_min) / (v_max - v_min)`. */
  datatype Normalize = Normalize(vMin: real, vMax: real) {
    function Apply(vals: Matrix): (r: Result<Matrix>)
      ensures r.Ok? <==> vMax != vMin
      ensures r.Ok? ==> r.value.rows == vals.rows && r.value.cols == vals.cols
    {
      if vMax == vMin then Err(DivisionByZero) else Ok(MapCells(vals, x => (x - vMin) / (vMax - vMin)))
    }
  }

  /** `Denormalize(v_min, v_max)`: `vals * (v_max - v_min) + v_min`. */
  datatype Denormalize = Denormalize(vMin: real, vMax: real) {
    function Apply(vals: Matrix): (r: Matrix)
      ensures r.rows == vals.rows && r.cols == vals.cols
    {
      MapCells(vals, x => x * (vMax - vMin) + vMin)
    }
  }

  lemma DivMul(a: real, d: real)
    requires d != 0.0
    ensures (a / d) * d == a && (a * d) / d == a
  {
  }

  /** Destandardising a standardised tensor gives it back, and the other way round. */
  lemma StandardizeRoundTrip(mu: real, std: real, vals: Matrix)
    requires std != 0.0
    ensures Destandardize(mu, std).Apply(Standardize(mu, std).Apply(vals).value) == vals
    ensures Standardize(mu, std).Apply(Destandardize(mu, std).Apply(vals)) == Ok(vals)
  {
    var f := x => (x - mu) / std;
    var g := x => x * std + mu;
    forall x ensures g(f(x)) == x && f(g(x)) == x {
      DivMul(x - mu, std);
      DivMul(x * std, std);
    }
    MapCellsInverse(vals, f, g);
    MapCellsInverse(vals, g, f);
  }

  /** Denormalising a normalised tensor gives it back, and the other way round. */
  lemma NormalizeRoundTrip(vMin: real, vMax: real, vals: Matrix)
    requires vMax != vMin
    ensures Denormalize(vMin, vMax).Apply(Normalize(vMin, vMax).Apply(vals).value) == vals
    ensures Normalize(vMin, vMax).Apply(Denormalize(vMin, vMax).Apply(vals)) == Ok(vals)
  {
    var f := x => (x - vMin) / (vMax - vMin);
    var g := x => x * (vMax - vMin) + vMin;
    forall x ensures g(f(x)) == x && f(g(x)) == x {
      DivMul(x - vMin, vMax - vMin);
      DivMul(x * (vMax - vMin), vMax - vMin);
    }
    MapCellsInverse(vals, f, g);
    MapCellsInverse(vals, g, f);
  }

  /** Values between the bounds are normalised into [0, 1]. */
  lemma NormalizeRange(vMin: real, vMax: real, vals: Matrix, i: nat, j: nat)
    requires vMin < vMax && i < vals.rows && j < vals.cols
    requires vMin <= vals.cells[i][j] <= vMax
    ensures 0.0 <= Normalize(vMin, vMax).Apply(vals).value.cells[i][j] <= 1.0
  {
    var x := vals.cells[i][j];
    assert Normalize(vMin, vMax).Apply(vals).value.cells[i][j] == (x - vMin) / (vMax - vMin);
    DivMul(x - vMin, vMax - vMin);
    DivMul(vMax - vMin, vMax - vMin);
  }

  // ---------------------------------------------------------------------------
  // Running min/max over a loader

  /** A float that may be infinite, as the running bounds start out. */
  datatype Extended = MinusInf | Num(x: real) | PlusInf

  predicate Below(a: Extended, b: Extended) {
    match (a, b)
    case (MinusInf, MinusInf) => false
    case (MinusInf, _) => true
    case (Num(x), Num(y)) => x < y
    case (Num(_), PlusInf) => true
    case _ => false
  }

  /** Python's `min(a, b)`: `a` unless `b` is smaller. */
  function PyMin(a: Extended, b: Extended): Extended {
    if Below(b, a) then b else a
  }

  /** Python's `max(a, b)`: `a` unless `b` is larger. */
  function PyMax(a: Extended, b: Extended): Extended {
    if Below(a, b) then b else a
  }

  /** `t.min()` of a non-empty tensor, given its entries. */
  function SeqMin(s: seq<real>): real
    requires |s| > 0
  {
    if |s| == 1 then s[0]
    else
      var m := SeqMin(s[..|s| - 1]);
      if s[|s| - 1] < m then s[|s| - 1] else m
  }

  /** `t.max()` of a non-empty tensor, given its entries. */
  function SeqMax(s: seq<real>): real
    requires |s| > 0
  {
    if |s| == 1 then s[0]
    else
      var m := SeqMax(s[..|s| - 1]);
      if m < s[|s| - 1] then s[|s| - 1] else m
  }

  /** The minimum is below every entry and is one of them. */
  lemma {:induction false} SeqMinSpec(s: seq<real>)
    requires |s| > 0
    ensures forall k | 0 <= k < |s| :: SeqMin(s) <= s[k]
    ensures exists k | 0 <= k < |s| :: s[k] == SeqMin(s)
  {
    if |s| == 1 {
      assert s[0] == SeqMin(s);
    } else {
      var p := s[..|s| - 1];
      SeqMinSpec(p);
      assert forall k | 0 <= k < |p| :: p[k] == s[k];
      var k0 :| 0 <= k0 < |p| && p[k0] == SeqMin(p);
      if s[|s| - 1] < SeqMin(p) {
        assert s[|s| - 1] == SeqMin(s);
      } else {
        assert s[k0] == SeqMin(s);
      }
    }
  }

  /** The maximum is above every entry and is one of them. */
  lemma {:induction false} SeqMaxSpec(s: seq<real>)
    requires |s| > 0
    ensures forall k | 0 <= k < |s| :: s[k] <= SeqMax(s)
    ensures exists k | 0 <= k < |s| :: s[k] == SeqMax(s)
  {
    if |s| == 1 {
      assert s[0] == SeqMax(s);
    } else {
      var p := s[..|s| - 1];
      SeqMaxSpec(p);
      assert forall k | 0 <= k < |p| :: p[k] == s[k];
      var k0 :| 0 <= k0 < |p| && p[k0] == SeqMax(p);
      if SeqMax(p) < s[|s| - 1] {
        assert s[|s| - 1] == SeqMax(s);
      } else {
        assert s[k0] == SeqMax(s);
      }
    }
  }

  /** One loader sample: the three tensors the bounds are taken over, given by their entries. */
  datatype Sample = Sample(xb: seq<real>, gUReal: seq<real>, gUImag: seq<real>)

  datatype Field = Xb | GuReal | GuImag

  function Values(s: Sample, f: Field): seq<real> {
    match f
    case Xb => s.xb
    case GuReal => s.gUReal
    case GuImag => s.gUImag
  }

  /** No tensor of the sample is empty. */
  predicate Filled(s: Sample) {
    |s.xb| > 0 && |s.gUReal| > 0 && |s.gUImag| > 0
  }

  predicate NonEmptyFields(loader: seq<Sample>) {
    forall j | 0 <= j < |loader| :: Filled(loader[j])
  }

  /** `min(v.min(), w)`; an empty tensor leaves `w` as it is. */
  function Lower(v: seq<real>, w: Extended): Extended {
    if |v| == 0 then w else PyMin(Num(SeqMin(v)), w)
  }

  /** `max(v.max(), w)`; an empty tensor leaves `w` as it is. */
  function Raise(v: seq<real>, w: Extended): Extended {
    if |v| == 0 then w else PyMax(Num(SeqMax(v)), w)
  }

  /**
   * The running minimum of a field after the first `i` samples, starting from +inf. An empty
   * tensor is skipped here; `MinMaxSpec` rules that case out before the bounds are used.
   */
  function RunMin(loader: seq<Sample>, i: nat, f: Field): Extended
    requires i <= |loader|
  {
    if i == 0 then PlusInf else Lower(Values(loader[i - 1], f), RunMin(loader, i - 1, f))
  }

  /** The running maximum of a field after the first `i` samples, starting from −inf. */
  function RunMax(loader: seq<Sample>, i: nat, f: Field): Extended
    requires i <= |loader|
  {
    if i == 0 then MinusInf else Raise(Values(loader[i - 1], f), RunMax(loader, i - 1, f))
  }

  datatype Bounds = Bounds(min: Extended, max: Extended)

  datatype MinMaxParams = MinMaxParams(xb: Bounds, gUReal: Bounds, gUImag: Bounds)

  /** The running bounds of one field over the whole loader. */
  function FieldBounds(loader: seq<Sample>, f: Field): Bounds {
    Bounds(RunMin(loader, |loader|, f), RunMax(loader, |loader|, f))
  }

  /** What `get_minmax_norm_params` returns: an empty loader or an empty tensor fails. */
  function MinMaxSpec(loader: seq<Sample>): Result<MinMaxParams> {
    if |loader| == 0 || !NonEmptyFields(loader) then Err(EmptyInput)
    else Ok(MinMaxParams(FieldBounds(loader, Xb), FieldBounds(loader, GuReal), FieldBounds(loader, GuImag)))
  }

  /** `get_minmax_norm_params`: one pass updating six running bounds. */
  method GetMinMaxNormParams(loader: seq<Sample>) returns (r: Result<MinMaxParams>)
    ensures r == MinMaxSpec(loader)
  {
    if |loader| == 0 {
      return Err(EmptyInput);
    }
    var minXb, maxXb := PlusInf, MinusInf;
    var minReal, maxReal := PlusInf, MinusInf;
    var minImag, maxImag := PlusInf, MinusInf;
    for i := 0 to |loader|
      invariant forall j | 0 <= j < i :: Filled(loader[j])
      invariant minXb == RunMin(loader, i, Xb) && maxXb == RunMax(loader, i, Xb)
      invariant minReal == RunMin(loader, i, GuReal) && maxReal == RunMax(loader, i, GuReal)
      invariant minImag == RunMin(loader, i, GuImag) && maxImag == RunMax(loader, i, GuImag)
    {
      var sample := loader[i];
      if !Filled(sample) {
        return Err(EmptyInput);
      }
      minXb := Lower(sample.xb, minXb);
      maxXb := Raise(sample.xb, maxXb);
      minReal := Lower(sample.gUReal, minReal);
      maxReal := Raise(sample.gUReal, maxReal);
      minImag := Lower(sample.gUImag, minImag);
      maxImag := Raise(sample.gUImag, maxImag);
    }
    return Ok(MinMaxParams(Bounds(minXb, maxXb), Bounds(minReal, maxReal), Bounds(minImag, maxImag)));
  }

  /**
   * After at least one sample with no empty tensor the running minimum is finite, below every
   * value seen, and one of them.
   */
  lemma RunMinSpec(loader: seq<Sample>, i: nat, f: Field)
    requires 0 < i <= |loader| && forall j | 0 <= j < i :: Filled(loader[j])
    ensures RunMin(loader, i, f).Num?
    ensures forall j, k | 0 <= j < i && 0 <= k < |Values(loader[j], f)| :: RunMin(loader, i, f).x <= Values(loader[j], f)[k]
    ensures exists j, k | 0 <= j < i && 0 <= k < |Values(loader[j], f)| :: Values(loader[j], f)[k] == RunMin(loader, i, f).x
  {
    RunMinBelow(loader, i, f);
    RunMinAttained(loader, i, f);
  }

  /** One step of the running minimum: the smaller of the step's minimum and the minimum so far. */
  lemma RunMinStep(loader: seq<Sample>, i: nat, f: Field)
    requires 0 < i <= |loader| && Filled(loader[i - 1])
    requires i > 1 ==> RunMin(loader, i - 1, f).Num?
    ensures var m := SeqMin(Values(loader[i - 1], f));
      RunMin(loader, i, f) ==
        if i == 1 then Num(m)
        else if RunMin(loader, i - 1, f).x < m then RunMin(loader, i - 1, f) else Num(m)
  {
  }

  lemma {:induction false} RunMinBelow(loader: seq<Sample>, i: nat, f: Field)
    requires 0 < i <= |loader| && forall j | 0 <= j < i :: Filled(loader[j])
    ensures RunMin(loader, i, f).Num?
    ensures forall j, k | 0 <= j < i && 0 <= k < |Values(loader[j], f)| :: RunMin(loader, i, f).x <= Values(loader[j], f)[k]
  {
    var last := Values(loader[i - 1], f);
    assert Filled(loader[i - 1]);
    SeqMinSpec(last);
    if i > 1 {
      RunMinBelow(loader, i - 1, f);
    }
    RunMinStep(loader, i, f);
  }

  lemma {:induction false} RunMinAttained(loader: seq<Sample>, i: nat, f: Field)
    requires 0 < i <= |loader| && forall j | 0 <= j < i :: Filled(loader[j])
    ensures RunMin(loader, i, f).Num?
    ensures exists j, k | 0 <= j < i && 0 <= k < |Values(loader[j], f)| :: Values(loader[j], f)[k] == RunMin(loader, i, f).x
  {
    var last := Values(loader[i - 1], f);
    assert Filled(loader[i - 1]);
    var m := SeqMin(last);
    SeqMinSpec(last);
    var km :| 0 <= km < |last| && last[km] == m;
    if i == 1 {
      RunMinStep(loader, i, f);
      assert Values(loader[0], f)[km] == RunMin(loader, i, f).x;
    } else {
      RunMinAttained(loader, i - 1, f);
      RunMinStep(loader, i, f);
      var w := RunMin(loader, i - 1, f).x;
      var j0, k0 :| 0 <= j0 < i - 1 && 0 <= k0 < |Values(loader[j0], f)| && Values(loader[j0], f)[k0] == w;
      if w < m {
        assert Values(loader[j0], f)[k0] == RunMin(loader, i, f).x;
      } else {
        assert Values(loader[i - 1], f)[km] == RunMin(loader, i, f).x;
      }
    }
  }

  /**
   * After at least one sample with no empty tensor the running maximum is finite, above every
   * value seen, and one of them.
   */
  lemma RunMaxSpec(loader: seq<Sample>, i: nat, f: Field)
    requires 0 < i <= |loader| && forall j | 0 <= j < i :: Filled(loader[j])
    ensures RunMax(loader, i, f).Num?
    ensures forall j, k | 0 <= j < i && 0 <= k < |Values(loader[j], f)| :: Values(loader[j], f)[k] <= RunMax(loader, i, f).x
    ensures exists j, k | 0 <= j < i && 0 <= k < |Values(loader[j], f)| :: Values(loader[j], f)[k] == RunMax(loader, i, f).x
  {
    RunMaxAbove(loader, i, f);
    RunMaxAttained(loader, i, f);
  }

  /** One step of the running maximum: the larger of the step's maximum and the maximum so far. */
  lemma RunMaxStep(loader: seq<Sample>, i: nat, f: Field)
    requires 0 < i <= |loader| && Filled(loader[i - 1])
    requires i > 1 ==> RunMax(loader, i - 1, f).Num?
    ensures var m := SeqMax(Values(loader[i - 1], f));
      RunMax(loader, i, f) ==
        if i == 1 then Num(m)
        else if m < RunMax(loader, i - 1, f).x then RunMax(loader, i - 1, f) else Num(m)
  {
  }

  lemma {:induction false} RunMaxAbove(loader: seq<Sample>, i: nat, f: Field)
    requires 0 < i <= |loader| && forall j | 0 <= j < i :: Filled(loader[j])
    ensures RunMax(loader, i, f).Num?
    ensures forall j, k | 0 <= j < i && 0 <= k < |Values(loader[j], f)| :: Values(loader[j], f)[k] <= RunMax(loader, i, f).x
  {
    var last := Values(loader[i - 1], f);
    assert Filled(loader[i - 1]);
    SeqMaxSpec(last);
    if i > 1 {
      RunMaxAbove(loader, i - 1, f);
    }
    RunMaxStep(loader, i, f);
  }

  lemma {:induction false} RunMaxAttained(loader: seq<Sample>, i: nat, f: Field)
    requires 0 < i <= |loader| && forall j | 0 <= j < i :: Filled(loader[j])
    ensures RunMax(loader, i, f).Num?
    ensures exists j, k | 0 <= j < i && 0 <= k < |Values(loader[j], f)| :: Values(loader[j], f)[k] == RunMax(loader, i, f).x
  {
    var last := Values(loader[i - 1], f);
    assert Filled(loader[i - 1]);
    var m := SeqMax(last);
    SeqMaxSpec(last);
    var km :| 0 <= km < |last| && last[km] == m;
    if i == 1 {
      RunMaxStep(loader, i, f);
      assert Values(loader[0], f)[km] == RunMax(loader, i, f).x;
    } else {
      RunMaxAttained(loader, i - 1, f);
      RunMaxStep(loader, i, f);
      var w := RunMax(loader, i - 1, f).x;
      var j0, k0 :| 0 <= j0 < i - 1 && 0 <= k0 < |Values(loader[j0], f)| && Values(loader[j0], f)[k0] == w;
      if m < w {
        assert Values(loader[j0], f)[k0] == RunMax(loader, i, f).x;
      } else {
        assert Values(loader[i - 1], f)[km] == RunMax(loader, i, f).x;
      }
    }
  }

  /**
   * The bounds exist exactly when the loader is non-empty and no tensor in it is empty; then
   * every field's min and max are finite values of that field enclosing all of its values.
   */
  lemma MinMaxBounds(loader: seq<Sample>, f: Field)
    ensures MinMaxSpec(loader).Ok? <==> |loader| > 0 && NonEmptyFields(loader)
    ensures MinMaxSpec(loader).Err? ==> MinMaxSpec(loader).error == EmptyInput
    ensures MinMaxSpec(loader).Ok? ==>
      var b := match f case Xb => MinMaxSpec(loader).value.xb
                       case GuReal => MinMaxSpec(loader).value.gUReal
                       case GuImag => MinMaxSpec(loader).value.gUImag;
      && b.min.Num? && b.max.Num?
      && (forall j, k | 0 <= j < |loader| && 0 <= k < |Values(loader[j], f)| ::
            b.min.x <= Values(loader[j], f)[k] <= b.max.x)
      && (exists j, k | 0 <= j < |loader| && 0 <= k < |Values(loader[j], f)| :: Values(loader[j], f)[k] == b.min.x)
      && (exists j, k | 0 <= j < |loader| && 0 <= k < |Values(loader[j], f)| :: Values(loader[j], f)[k] == b.max.x)
  {
    if |loader| > 0 && NonEmptyFields(loader) {
      RunMinSpec(loader, |loader|, f);
      RunMaxSpec(loader, |loader|, f);
    }
  }

  // ---------------------------------------------------------------------------
  // Meshgrid flattening

  /** The trunk rows for one z value: `(r[i], z_j)` for every i. */
  function GridRow(r: seq<real>, zj: real): (rows: seq<seq<real>>)
    ensures |rows| == |r| && forall i | 0 <= i < |r| :: rows[i] == [r[i], zj]
  {
    seq(|r|, i requires 0 <= i < |r| => [r[i], zj])
  }

  /** All trunk rows, z-major as `np.meshgrid` then row-major flattening orders them. */
  function MeshRows(r: seq<real>, z: seq<real>): (rows: seq<seq<real>>)
    ensures |rows| == Offset(|z|, |r|)
    ensures forall k | 0 <= k < |rows| :: |rows[k]| == 2
  {
    if |z| == 0 then [] else MeshRows(r, z[..|z| - 1]) + GridRow(r, z[|z| - 1])
  }

  /** `meshgrid_to_trunk(r, z)` */
  function MeshgridToTrunk(r: seq<real>, z: seq<real>): (xt: Matrix)
    ensures xt.cols == 2
  {
    Mat(|MeshRows(r, z)|, 2, MeshRows(r, z))
  }

  /** Row j·|r| + i of the trunk is (r[i], z[j]). */
  lemma {:induction false} MeshRowsAt(r: seq<real>, z: seq<real>, i: nat, j: nat)
    requires i < |r| && j < |z|
    ensures Offset(j, |r|) + i < |MeshRows(r, z)|
    ensures MeshRows(r, z)[Offset(j, |r|) + i] == [r[i], z[j]]
  {
    var n := |z|;
    var front := z[..n - 1];
    var f := MeshRows(r, front);
    assert MeshRows(r, z) == f + GridRow(r, z[n - 1]);
    OffsetMono(j + 1, n, |r|);
    if j < n - 1 {
      MeshRowsAt(r, front, i, j);
      OffsetMono(j + 1, n - 1, |r|);
    } else {
      assert Offset(j, |r|) == |f|;
    }
  }

  /** Every trunk row holds one r value and one z value. */
  lemma {:induction false} MeshRowsValues(r: seq<real>, z: seq<real>, k: nat)
    requires k < |MeshRows(r, z)|
    ensures MeshRows(r, z)[k][0] in r && MeshRows(r, z)[k][1] in z
  {
    var n := |z|;
    var front := z[..n - 1];
    var f := MeshRows(r, front);
    assert MeshRows(r, z) == f + GridRow(r, z[n - 1]);
    if k < |f| {
      MeshRowsValues(r, front, k);
      assert forall x | x in front :: x in z;
    } else {
      assert MeshRows(r, z)[k] == [r[k - |f|], z[n - 1]];
    }
  }

  /** The trunk has |r|·|z| rows and row j·|r| + i is (r[i], z[j]). */
  lemma MeshgridToTrunkSpec(r: seq<real>, z: seq<real>)
    ensures MeshgridToTrunk(r, z).rows == |r| * |z|
    ensures forall i, j | 0 <= i < |r| && 0 <= j < |z| ::
      j * |r| + i < |r| * |z| && MeshgridToTrunk(r, z).cells[j * |r| + i] == [r[i], z[j]]
  {
    OffsetIsProduct(|z|, |r|);
    forall i, j | 0 <= i < |r| && 0 <= j < |z|
      ensures j * |r| + i < |r| * |z| && MeshgridToTrunk(r, z).cells[j * |r| + i] == [r[i], z[j]]
    {
      MeshRowsAt(r, z, i, j);
      OffsetIsProduct(j, |r|);
    }
  }

  predicate StrictlyIncreasing(s: seq<real>) {
    forall i, j | 0 <= i < j < |s| :: s[i] < s[j]
  }

  /** `x` put into its place in a strictly increasing sequence, unless it is there already. */
  function Insert(xs: seq<real>, x: real): (ys: seq<real>)
    requires StrictlyIncreasing(xs)
    ensures StrictlyIncreasing(ys)
    ensures forall y :: y in ys <==> y in xs || y == x
  {
    if |xs| == 0 then [x]
    else if x < xs[0] then [x] + xs
    else if x == xs[0] then xs
    else
      var rest := Insert(xs[1..], x);
      TailAbove(xs);
      ConsIncreasing(xs[0], rest);
      [xs[0]] + rest
  }

  /** Every later entry of a strictly increasing sequence is above its head. */
  lemma TailAbove(xs: seq<real>)
    requires |xs| > 0 && StrictlyIncreasing(xs)
    ensures forall y | y in xs[1..] :: xs[0] < y
  {
    forall y | y in xs[1..] ensures xs[0] < y {
      var k :| 0 <= k < |xs[1..]| && xs[1..][k] == y;
      assert xs[k + 1] == y;
    }
  }

  /** A head below every entry of a strictly increasing sequence keeps it strictly increasing. */
  lemma ConsIncreasing(h: real, s: seq<real>)
    requires StrictlyIncreasing(s) && forall y | y in s :: h < y
    ensures StrictlyIncreasing([h] + s)
  {
    var ys := [h] + s;
    forall i, j | 0 <= i < j < |ys| ensures ys[i] < ys[j] {
      assert ys[j] == s[j - 1] && s[j - 1] in s;
      if i > 0 {
        assert ys[i] == s[i - 1];
      }
    }
  }

  /** `np.unique`: the distinct values, in increasing order. */
  function Unique(s: seq<real>): (u: seq<real>)
    ensures StrictlyIncreasing(u)
    ensures forall y :: y in u <==> y in s
  {
    if |s| == 0 then []
    else
      var u := Insert(Unique(s[..|s| - 1]), s[|s| - 1]);
      assert forall y :: y in s <==> y in s[..|s| - 1] || y == s[|s| - 1] by {
        assert s == s[..|s| - 1] + [s[|s| - 1]];
      }
      u
  }

  /** The first entry, or 0 for an empty sequence. */
  function Head(s: seq<real>): real {
    if |s| > 0 then s[0] else 0.0
  }

  /** Two strictly increasing sequences with the same values are equal. */
  lemma {:induction false} IncreasingSameValues(a: seq<real>, b: seq<real>)
    requires StrictlyIncreasing(a) && StrictlyIncreasing(b)
    requires forall y :: y in a <==> y in b
    ensures a == b
  {
    assert |a| > 0 ==> Head(a) in a;
    assert |b| > 0 ==> Head(b) in b;
    if |a| == 0 || |b| == 0 {
      assert |a| == 0 && |b| == 0;
    } else {
      assert a[0] in b && b[0] in a;
      var ka :| 0 <= ka < |b| && b[ka] == a[0];
      var kb :| 0 <= kb < |a| && a[kb] == b[0];
      assert b[0] <= b[ka] && a[0] <= a[kb];
      forall y ensures y in a[1..] <==> y in b[1..] {
        if y in a[1..] {
          var k :| 1 <= k < |a| && a[k] == y;
          assert a[0] < y && y in b;
        }
        if y in b[1..] {
          var k :| 1 <= k < |b| && b[k] == y;
          assert b[0] < y && y in a;
        }
      }
      IncreasingSameValues(a[1..], b[1..]);
      assert a == [a[0]] + a[1..] && b == [b[0]] + b[1..];
    }
  }

  /**
   * `trunk_to_meshgrid(arr)`: z is the sorted distinct second column, and r the first
   * `len(arr) / len(z)` entries of the first column; a trunk with no rows divides by zero.
   */
  function TrunkToMeshgrid(arr: Matrix): (g: Result<(seq<real>, seq<real>)>)
    ensures g.Ok? ==> 0 < |g.value.1| <= arr.rows && |g.value.0| == arr.rows / |g.value.1|
  {
    if arr.cols < 2 then Err(IndexOutOfRange)
    else
      var zs := Column(arr, 1);
      var z := Unique(zs);
      if |z| == 0 then Err(DivisionByZero)
      else
        UniqueShorter(zs);
        var nr := arr.rows / |z|;
        DivAtMost(arr.rows, |z|);
        Ok((Column(arr, 0)[..nr], z))
  }

  lemma DivAtMost(a: nat, b: nat)
    requires b > 0
    ensures a / b <= a
  {
    if a / b > a {
      MulMono(a + 1, a / b, b);
      MulMono(1, b, a + 1);
    }
  }

  /** A sequence has no more distinct values than entries. */
  lemma UniqueShorter(s: seq<real>)
    ensures |Unique(s)| <= |s|
  {
    var u := Unique(s);
    var idx := seq(|u|, p requires 0 <= p < |u| => Index(s, u[p]));
    forall p, q | 0 <= p < q < |u| ensures idx[p] != idx[q] {
      assert u[p] < u[q];
    }
    InjectiveBound(idx, |s|);
  }

  function Index(s: seq<real>, x: real): (k: nat)
    requires x in s
    ensures k < |s| && s[k] == x
  {
    if s[0] == x then 0 else 1 + Index(s[1..], x)
  }

  /** Distinct naturals below `n`: there are at most `n` of them. */
  lemma {:induction false} InjectiveBound(idx: seq<nat>, n: nat)
    requires forall p | 0 <= p < |idx| :: idx[p] < n
    requires forall p, q | 0 <= p < q < |idx| :: idx[p] != idx[q]
    ensures |idx| <= n
    decreases |idx|
  {
    if |idx| > 0 {
      var top := idx[|idx| - 1];
      var rest := seq(|idx| - 1, p requires 0 <= p < |idx| - 1 => if idx[p] == n - 1 then top else idx[p]);
      forall p | 0 <= p < |rest| ensures rest[p] < n - 1 {
        if idx[p] == n - 1 {
          assert top != n - 1;
        }
      }
      forall p, q | 0 <= p < q < |rest| ensures rest[p] != rest[q] {
      }
      InjectiveBound(rest, n - 1);
    }
  }

  /** Flattening a meshgrid and recovering it gives back (r, z) when z is strictly increasing. */
  lemma MeshgridRoundTrip(r: seq<real>, z: seq<real>)
    requires |r| > 0 && |z| > 0 && StrictlyIncreasing(z)
    ensures TrunkToMeshgrid(MeshgridToTrunk(r, z)) == Ok((r, z))
  {
    var arr := MeshgridToTrunk(r, z);
    MeshZColumn(r, z);
    IncreasingSameValues(Unique(Column(arr, 1)), z);
    OffsetIsProduct(|z|, |r|);
    MulDiv(|z|, |r|);
    assert arr.rows / |z| == |r|;
    MeshRColumn(r, z);
  }

  /** The second coordinate of the flattened meshgrid takes exactly the values of z. */
  lemma MeshZColumn(r: seq<real>, z: seq<real>)
    requires |r| > 0
    ensures forall y :: y in Column(MeshgridToTrunk(r, z), 1) <==> y in z
  {
    var arr := MeshgridToTrunk(r, z);
    var zs := Column(arr, 1);
    forall y ensures y in zs <==> y in z {
      if y in zs {
        var k :| 0 <= k < |zs| && zs[k] == y;
        MeshRowsValues(r, z, k);
      }
      if y in z {
        var j :| 0 <= j < |z| && z[j] == y;
        MeshRowsAt(r, z, 0, j);
        assert zs[Offset(j, |r|)] == y;
      }
    }
  }

  /** The first |r| points of the flattened meshgrid have the r values as first coordinate. */
  lemma MeshRColumn(r: seq<real>, z: seq<real>)
    requires |z| > 0
    ensures |r| <= MeshgridToTrunk(r, z).rows
    ensures Column(MeshgridToTrunk(r, z), 0)[..|r|] == r
  {
    var arr := MeshgridToTrunk(r, z);
    OffsetMono(1, |z|, |r|);
    forall i | 0 <= i < |r| ensures Column(arr, 0)[i] == r[i] {
      MeshRowsAt(r, z, i, 0);
    }
  }

  // ---------------------------------------------------------------------------
  // POD mode count

  /** `cumsum(S**2)[i]` */
  function CumSq(s: seq<real>, i: nat): real
    requires i < |s|
  {
    if i == 0 then s[0] * s[0] else CumSq(s, i - 1) + s[i] * s[i]
  }

  /** `norm(S)**2`, the sum of the squares (no outputs: 0). */
  function TotalSq(s: seq<real>): real {
    if |s| == 0 then 0.0 else CumSq(s, |s| - 1)
  }

  /**
   * Whether `explained_variance_ratio[i] < share`. A zero total makes every ratio NaN in
   * floating point, and a comparison with NaN is false.
   */
  predicate RatioBelow(s: seq<real>, share: real, i: nat)
    requires i < |s|
  {
    TotalSq(s) != 0.0 && CumSq(s, i) / TotalSq(s) < share
  }

  /** How many of the first j ratios are below the share. */
  function CountBelow(s: seq<real>, share: real, j: nat): (c: nat)
    requires j <= |s|
    ensures c <= j
  {
    if j == 0 then 0 else CountBelow(s, share, j - 1) + (if RatioBelow(s, share, j - 1) then 1 else 0)
  }

  /** `most_significant_modes`: the ratios below the share, counted, plus one. */
  function ModeCount(s: seq<real>, share: real): nat {
    CountBelow(s, share, |s|) + 1
  }

  /** Cumulative sums of squares never decrease and never go negative. */
  lemma {:induction false} CumSqMono(s: seq<real>, i: nat, j: nat)
    requires i <= j < |s|
    ensures 0.0 <= CumSq(s, i) <= CumSq(s, j)
  {
    if i < j {
      CumSqMono(s, i, j - 1);
    } else if i > 0 {
      CumSqMono(s, i - 1, i - 1);
    }
  }

  /** Once a ratio reaches the share, every later one does too. */
  lemma RatioStaysAbove(s: seq<real>, share: real, i: nat, j: nat)
    requires i <= j < |s| && !RatioBelow(s, share, i)
    ensures !RatioBelow(s, share, j)
  {
    CumSqMono(s, i, j);
    if TotalSq(s) != 0.0 {
      CumSqMono(s, 0, |s| - 1);
      CumSqMono(s, j, |s| - 1);
      assert TotalSq(s) > 0.0;
      DivMono(CumSq(s, i), CumSq(s, j), TotalSq(s));
    }
  }

  lemma DivMono(a: real, b: real, d: real)
    requires a <= b && d > 0.0
    ensures a / d <= b / d
  {
    DivMul(a, d);
    DivMul(b, d);
  }

  /** The ratios below the share form a prefix: the first c of the first j, c being their count. */
  lemma {:induction false} CountIsPrefix(s: seq<real>, share: real, j: nat)
    requires j <= |s|
    ensures forall i | 0 <= i < CountBelow(s, share, j) :: RatioBelow(s, share, i)
    ensures forall i | CountBelow(s, share, j) <= i < j :: !RatioBelow(s, share, i)
  {
    if j > 0 {
      CountIsPrefix(s, share, j - 1);
      var c := CountBelow(s, share, j - 1);
      if RatioBelow(s, share, j - 1) && c < j - 1 {
        RatioStaysAbove(s, share, c, j - 1);
      }
    }
  }

  /**
   * The mode count m is the least count whose cumulative share reaches the target: the
   * first m − 1 ratios are below it and, when there is an m-th, it is not.
   */
  lemma ModeCountLeast(s: seq<real>, share: real)
    ensures ModeCount(s, share) >= 1
    ensures forall i | 0 <= i < ModeCount(s, share) - 1 :: RatioBelow(s, share, i)
    ensures ModeCount(s, share) - 1 < |s| ==> !RatioBelow(s, share, ModeCount(s, share) - 1)
  {
    CountIsPrefix(s, share, |s|);
  }

  /** With a share of at most 1, no more modes than singular values are kept. */
  lemma ModeCountBounds(s: seq<real>, share: real)
    requires |s| > 0 && share <= 1.0
    ensures 1 <= ModeCount(s, share) <= |s|
  {
    if TotalSq(s) != 0.0 {
      assert CumSq(s, |s| - 1) / TotalSq(s) == 1.0;
    }
    assert !RatioBelow(s, share, |s| - 1);
    CountIsPrefix(s, share, |s|);
  }

  /** Singular values 10, 1 and 0.1 with a 0.95 share keep one mode. */
  lemma ModeCountExample()
    ensures ModeCount([10.0, 1.0, 0.1], 0.95) == 1
  {
    var s := [10.0, 1.0, 0.1];
    assert CumSq(s, 0) == 100.0;
    assert CumSq(s, 1) == 101.0;
    assert CumSq(s, 2) == 101.01;
    assert TotalSq(s) == 101.01;
    assert !RatioBelow(s, 0.95, 0);
    RatioStaysAbove(s, 0.95, 0, 1);
    RatioStaysAbove(s, 0.95, 0, 2);
    assert CountBelow(s, 0.95, 1) == 0;
    assert CountBelow(s, 0.95, 2) == 0;
    assert CountBelow(s, 0.95, 3) == 0;
  }

  /**
   * `compute_pod_modes` once the decomposition has run: the first ModeCount columns of the
   * left singular vectors, a slice that stops at the last column.
   */
  function PodModes(u: Matrix, s: seq<real>, share: real): (modes: Matrix)
    ensures modes.rows == u.rows
    ensures modes.cols == Min(ModeCount(s, share), u.cols)
  {
    ColSlice(u, 0, ModeCount(s, share))
  }

  /**
   * With singular values no more than the columns of U and a share of at most 1, the modes are
   * exactly the first ModeCount columns of U, between one and |S| of them.
   */
  lemma PodModesSpec(u: Matrix, s: seq<real>, share: real)
    requires 0 < |s| <= u.cols && share <= 1.0
    ensures 1 <= PodModes(u, s, share).cols <= |s|
    ensures PodModes(u, s, share).cols == ModeCount(s, share)
    ensures forall i, k | 0 <= i < u.rows && 0 <= k < ModeCount(s, share) ::
      PodModes(u, s, share).cells[i][k] == u.cells[i][k]
  {
    ModeCountBounds(s, share);
    ColSliceCells(u, 0, ModeCount(s, share));
  }
}
