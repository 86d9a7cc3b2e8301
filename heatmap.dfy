/** The low-resolution heatmap of app.py (update_heatmap, app.py:1418-1531).
    Two accumulators of shape (low_h, low_w): a live grid that decays by
    `heatmap_decay` every frame and is kept in [0, 1], and an aggregate grid
    that is never decayed and grows by one normalised frame per frame that
    had detections, counted by `aggregate_frame_count`. Cells are `real`;
    np.sqrt, cv2.GaussianBlur and cv2.resize are opaque functions. */
module Heatmap {

  import opened Types
  import opened Numeric

  type Grid = seq<seq<real>>

  /** np.sqrt on a non-negative argument: all that is assumed is that it is
      non-negative there. */
  type SqrtFn = f: real -> real | forall d: real :: d >= 0.0 ==> f(d) >= 0.0
    witness (d: real) => 0.0

  /** cv2.GaussianBlur(grid, (k, k), 0): assumed to keep the shape and to map
      a non-negative grid to a non-negative grid. */
  type BlurFn = f: (nat, Grid) -> Grid
    | forall k: nat, g: Grid, h: nat, w: nat :: IsGrid(g, h, w) ==> IsGrid(f(k, g), h, w) && (NonNeg(g) ==> NonNeg(f(k, g)))
    witness (k: nat, g: Grid) => g

  /** cv2.resize(grid, (w, h)): nothing is assumed. */
  type ResizeFn = (Grid, nat, nat) -> Grid

  /** The foreign numerics update_heatmap calls. */
  datatype Numerics = Numerics(sqrt: SqrtFn, blur: BlurFn, resize: ResizeFn)

  /** heatmap_decay, heatmap_intensity, heatmap_scale_factor and
      heatmap_neighbor_radius (app.py:103-107). */
  datatype HeatParams = HeatParams(decay: real, intensity: real, scale: real, radius: int)

  const DefaultParams := HeatParams(0.99, 0.6, 0.2, 4)

  predicate IsGrid(g: Grid, h: nat, w: nat)
  {
    |g| == h && forall i :: 0 <= i < h ==> |g[i]| == w
  }

  predicate NonNeg(g: Grid)
  {
    forall i, j :: 0 <= i < |g| && 0 <= j < |g[i]| ==> g[i][j] >= 0.0
  }

  predicate InUnit(g: Grid)
  {
    forall i, j :: 0 <= i < |g| && 0 <= j < |g[i]| ==> 0.0 <= g[i][j] <= 1.0
  }

  /** np.zeros((h, w)). */
  function ZeroGrid(h: nat, w: nat): (g: Grid)
    ensures IsGrid(g, h, w)
    ensures forall i, j :: 0 <= i < h && 0 <= j < w ==> g[i][j] == 0.0
  {
    seq(h, i => seq(w, j => 0.0))
  }

  /** grid * k, element-wise. */
  function ScaleGrid(g: Grid, k: real): (r: Grid)
    ensures |r| == |g| && forall i :: 0 <= i < |g| ==> |r[i]| == |g[i]|
    ensures forall i, j :: 0 <= i < |g| && 0 <= j < |g[i]| ==> r[i][j] == g[i][j] * k
  {
    seq(|g|, i requires 0 <= i < |g| => seq(|g[i]|, j requires 0 <= j < |g[i]| => g[i][j] * k))
  }

  /** a + b * k, element-wise, on grids of one shape. */
  function AddScaled(a: Grid, b: Grid, k: real, h: nat, w: nat): (r: Grid)
    requires IsGrid(a, h, w) && IsGrid(b, h, w)
    ensures IsGrid(r, h, w)
    ensures forall i, j :: 0 <= i < h && 0 <= j < w ==> r[i][j] == a[i][j] + b[i][j] * k
  {
    seq(h, i requires 0 <= i < h => seq(w, j requires 0 <= j < w => a[i][j] + b[i][j] * k))
  }

  /** grid / m, element-wise. */
  function DivGrid(g: Grid, m: real): (r: Grid)
    requires m != 0.0
    ensures |r| == |g| && forall i :: 0 <= i < |g| ==> |r[i]| == |g[i]|
    ensures forall i, j :: 0 <= i < |g| && 0 <= j < |g[i]| ==> r[i][j] == g[i][j] / m
  {
    seq(|g|, i requires 0 <= i < |g| => seq(|g[i]|, j requires 0 <= j < |g[i]| => g[i][j] / m))
  }

  /** np.maximum(grid, 0.0). */
  function ClampNonNeg(g: Grid): (r: Grid)
    ensures |r| == |g| && forall i :: 0 <= i < |g| ==> |r[i]| == |g[i]|
    ensures forall i, j :: 0 <= i < |g| && 0 <= j < |g[i]| ==> r[i][j] == RealMax(g[i][j], 0.0)
  {
    seq(|g|, i requires 0 <= i < |g| => seq(|g[i]|, j requires 0 <= j < |g[i]| => RealMax(g[i][j], 0.0)))
  }

  /** The largest element of a non-empty row. */
  function RowMax(row: seq<real>): (m: real)
    requires |row| > 0
    ensures forall j :: 0 <= j < |row| ==> row[j] <= m
    ensures exists j :: 0 <= j < |row| && row[j] == m
  {
    if |row| == 1 then row[0]
    else
      var m0 := RowMax(row[..|row| - 1]);
      assert forall j :: 0 <= j < |row| - 1 ==> row[..|row| - 1][j] == row[j];
      RealMax(m0, row[|row| - 1])
  }

  /** np.max of a grid with at least one cell in every row. */
  function GridMax(g: Grid): (m: real)
    requires |g| > 0 && forall i :: 0 <= i < |g| ==> |g[i]| > 0
    ensures forall i, j :: 0 <= i < |g| && 0 <= j < |g[i]| ==> g[i][j] <= m
    ensures exists i, j :: 0 <= i < |g| && 0 <= j < |g[i]| && g[i][j] == m
  {
    var r := RowMax(g[|g| - 1]);
    if |g| == 1 then r
    else
      var m0 := GridMax(g[..|g| - 1]);
      assert forall i :: 0 <= i < |g| - 1 ==> g[..|g| - 1][i] == g[i];
      RealMax(m0, r)
  }

  /** The normalisation of the blurred frame (app.py:1506-1511): divided by
      its maximum when that is positive, otherwise all zeros. The result
      never exceeds 1, and a non-negative grid comes out in [0, 1]. */
  function Normalize(g: Grid, h: nat, w: nat): (r: Grid)
    requires h > 0 && w > 0 && IsGrid(g, h, w)
    ensures IsGrid(r, h, w)
    ensures forall i, j :: 0 <= i < h && 0 <= j < w ==> r[i][j] <= 1.0
    ensures NonNeg(g) ==> InUnit(r)
    ensures GridMax(g) > 0.0 ==> exists i, j :: 0 <= i < h && 0 <= j < w && r[i][j] == 1.0
    ensures GridMax(g) <= 0.0 ==> r == ZeroGrid(h, w)
  {
    var m := GridMax(g);
    if m > 0.0 then
      var r := DivGrid(g, m);
      assert forall i, j :: 0 <= i < h && 0 <= j < w ==> r[i][j] <= 1.0 && (g[i][j] >= 0.0 ==> r[i][j] >= 0.0) by {
        forall i, j | 0 <= i < h && 0 <= j < w ensures r[i][j] <= 1.0 && (g[i][j] >= 0.0 ==> r[i][j] >= 0.0) {
          DivAtMostOne(g[i][j], m);
        }
      }
      assert exists i, j :: 0 <= i < h && 0 <= j < w && r[i][j] == 1.0 by {
        var i, j :| 0 <= i < |g| && 0 <= j < |g[i]| && g[i][j] == m;
        DivAtMostOne(g[i][j], m);
      }
      r
    else ZeroGrid(h, w)
  }

  lemma DivAtMostOne(v: real, m: real)
    requires m > 0.0 && v <= m
    ensures v / m <= 1.0
    ensures v >= 0.0 ==> v / m >= 0.0
    ensures v == m ==> v / m == 1.0
  {
  }

  /** The cap of the live grid (app.py:1523-1525): divided by its maximum
      when that exceeds 1, otherwise left alone. */
  function CapToOne(g: Grid, h: nat, w: nat): (r: Grid)
    requires h > 0 && w > 0 && IsGrid(g, h, w)
    ensures IsGrid(r, h, w)
    ensures forall i, j :: 0 <= i < h && 0 <= j < w ==> r[i][j] <= 1.0
    ensures GridMax(g) <= 1.0 ==> r == g
    ensures GridMax(g) > 1.0 ==> r == DivGrid(g, GridMax(g))
  {
    var m := GridMax(g);
    if m > 1.0 then
      var r := DivGrid(g, m);
      forall i, j | 0 <= i < h && 0 <= j < w ensures r[i][j] <= 1.0 {
        DivAtMostOne(g[i][j], m);
      }
      r
    else g
  }

  /** A cell of the low-resolution grid, row first. */
  datatype Cell = Cell(y: int, x: int)

  /** The low-resolution shape: (int(h * scale), int(w * scale)). */
  function LowDims(h: nat, w: nat, scale: real): (int, int)
  {
    (Trunc(h as real * scale), Trunc(w as real * scale))
  }

  /** The foot point of a box (app.py:1462-1468): the bottom centre scaled
      down and truncated, then clamped into the grid. It always lies in the
      grid, and is exactly the scaled point whenever that already does. */
  function FootPoint(b: Box, scale: real, lowH: int, lowW: int): (c: Cell)
    requires lowH > 0 && lowW > 0
    ensures 0 <= c.y < lowH && 0 <= c.x < lowW
    ensures var fy := Trunc(b.y2 as real * scale); 0 <= fy < lowH ==> c.y == fy
    ensures var fx := Trunc((b.x1 + b.x2) as real / 2.0 * scale); 0 <= fx < lowW ==> c.x == fx
  {
    var fx := Trunc((b.x1 + b.x2) as real / 2.0 * scale);
    var fy := Trunc(b.y2 as real * scale);
    Cell(Clamp(0, lowH - 1, fy), Clamp(0, lowW - 1, fx))
  }

  function Feet(boxes: seq<Box>, scale: real, lowH: int, lowW: int): (r: seq<Cell>)
    requires lowH > 0 && lowW > 0
    ensures |r| == |boxes|
    ensures forall k :: 0 <= k < |boxes| ==> r[k] == FootPoint(boxes[k], scale, lowH, lowW)
  {
    seq(|boxes|, k requires 0 <= k < |boxes| => FootPoint(boxes[k], scale, lowH, lowW))
  }

  function DistSq(f: Cell, y: int, x: int): (d: int)
    ensures d >= 0
    ensures d == 0 <==> (y == f.y && x == f.x)
  {
    SquareNonNeg(x - f.x);
    SquareNonNeg(y - f.y);
    (x - f.x) * (x - f.x) + (y - f.y) * (y - f.y)
  }

  lemma SquareNonNeg(n: int)
    ensures n * n >= 0
    ensures n != 0 ==> n * n > 0
  {
  }

  /** max(0, 1 - dist / radius) * 0.7 for a non-negative dist and a
      positive radius. */
  function Falloff(dist: real, radius: int): (v: real)
    requires dist >= 0.0 && radius > 0
    ensures 0.0 <= v <= 0.7
  {
    var q := dist / radius as real;
    assert q >= 0.0;
    RealMax(0.0, 1.0 - q) * 0.7
  }

  /** Inside the window and the radius, off the foot: the radius is
      positive and the contribution is the falloff. */
  lemma ContribInWindow(f: Cell, y: int, x: int, radius: int, sqrt: SqrtFn)
    requires Abs(y - f.y) <= radius && Abs(x - f.x) <= radius && !(y == f.y && x == f.x)
    requires DistSq(f, y, x) <= radius * radius
    ensures radius > 0
    ensures Contrib(f, y, x, radius, sqrt) == Falloff(sqrt(DistSq(f, y, x) as real), radius)
  {
  }

  /** What one foot point contributes to a cell (app.py:1470-1493): 1.0 on
      the foot itself; inside the square window and within the radius, a
      linear falloff of sqrt(dist_sq) / radius weighted by 0.7; else 0. */
  function Contrib(f: Cell, y: int, x: int, radius: int, sqrt: SqrtFn): (v: real)
    ensures 0.0 <= v <= 1.0
    ensures (y == f.y && x == f.x) <==> v == 1.0
    ensures !(y == f.y && x == f.x) ==> v <= 0.7
    ensures DistSq(f, y, x) > radius * radius ==> v == 0.0
  {
    SquareNonNeg(radius);
    if y == f.y && x == f.x then 1.0
    else if Abs(y - f.y) <= radius && Abs(x - f.x) <= radius && DistSq(f, y, x) <= radius * radius then
      Falloff(sqrt(DistSq(f, y, x) as real), radius)
    else 0.0
  }

  /** The value a cell holds after splatting every foot in turn: the largest
      contribution of any of them (0 if none). */
  function SplatValue(feet: seq<Cell>, y: int, x: int, radius: int, sqrt: SqrtFn): real
  {
    if feet == [] then 0.0
    else RealMax(SplatValue(feet[..|feet| - 1], y, x, radius, sqrt), Contrib(feet[|feet| - 1], y, x, radius, sqrt))
  }

  /** `current_heatmap` after the loop over boxes. */
  function SplatGrid(feet: seq<Cell>, h: nat, w: nat, radius: int, sqrt: SqrtFn): (g: Grid)
    ensures IsGrid(g, h, w)
    ensures forall i, j :: 0 <= i < h && 0 <= j < w ==> g[i][j] == SplatValue(feet, i, j, radius, sqrt)
  {
    seq(h, i => seq(w, j => SplatValue(feet, i, j, radius, sqrt)))
  }

  /** Every cell of the splatted frame is in [0, 1]; a cell is exactly 1.0
      iff it is some box's foot point; every other cell is at most 0.7; and
      a cell farther than the radius from every foot stays 0. */
  lemma {:induction false} SplatValueBounds(feet: seq<Cell>, y: int, x: int, radius: int, sqrt: SqrtFn)
    ensures var v := SplatValue(feet, y, x, radius, sqrt);
      && 0.0 <= v <= 1.0
      && (v == 1.0 <==> exists k :: 0 <= k < |feet| && feet[k] == Cell(y, x))
      && ((forall k :: 0 <= k < |feet| ==> feet[k] != Cell(y, x)) ==> v <= 0.7)
      && ((forall k :: 0 <= k < |feet| ==> DistSq(feet[k], y, x) > radius * radius) ==> v == 0.0)
  {
    if feet != [] {
      var pre := feet[..|feet| - 1];
      SplatValueBounds(pre, y, x, radius, sqrt);
      assert forall k :: 0 <= k < |pre| ==> pre[k] == feet[k];
      var c := Contrib(feet[|feet| - 1], y, x, radius, sqrt);
      if c == 1.0 {
        assert feet[|feet| - 1] == Cell(y, x);
      }
    }
  }

  /** Splatting one foot point into `a` (one iteration of the loop over
      boxes, app.py:1462-1493): the foot cell is set to 1.0, then every
      other cell of the clipped window within the radius takes the max of
      itself and its intensity. */
  method SplatOne(a: array2<real>, f: Cell, radius: int, sqrt: SqrtFn)
    requires 0 <= f.y < a.Length0 && 0 <= f.x < a.Length1
    requires forall i, j :: 0 <= i < a.Length0 && 0 <= j < a.Length1 ==> 0.0 <= a[i, j] <= 1.0
    modifies a
    ensures forall i, j :: 0 <= i < a.Length0 && 0 <= j < a.Length1 ==>
      a[i, j] == RealMax(old(a[i, j]), Contrib(f, i, j, radius, sqrt))
  {
    a[f.y, f.x] := 1.0;
    var yMin, yMax := Max(0, f.y - radius), Min(a.Length0 - 1, f.y + radius);
    var xMin, xMax := Max(0, f.x - radius), Min(a.Length1 - 1, f.x + radius);
    var y := yMin;
    while y <= yMax
      invariant yMin <= y && (yMin <= yMax + 1 ==> y <= yMax + 1)
      invariant forall i, j :: 0 <= i < a.Length0 && 0 <= j < a.Length1 ==>
        a[i, j] == (if (yMin <= i < y && xMin <= j <= xMax) || (i == f.y && j == f.x)
                    then RealMax(old(a[i, j]), Contrib(f, i, j, radius, sqrt)) else old(a[i, j]))
      decreases yMax - y
    {
      SplatRow(a, f, y, xMin, xMax, radius, sqrt);
      y := y + 1;
    }
    forall i, j | 0 <= i < a.Length0 && 0 <= j < a.Length1 && !((yMin <= i <= yMax && xMin <= j <= xMax) || (i == f.y && j == f.x))
      ensures Contrib(f, i, j, radius, sqrt) == 0.0
    {
    }
  }

  /** The inner `for x` loop of the splat, on row y of the window. */
  method SplatRow(a: array2<real>, f: Cell, y: int, xMin: int, xMax: int, radius: int, sqrt: SqrtFn)
    requires 0 <= y < a.Length0 && 0 <= xMin <= xMax + 1 && xMax < a.Length1
    requires Abs(y - f.y) <= radius && f.x - radius <= xMin && xMax <= f.x + radius
    modifies a
    ensures forall i, j :: 0 <= i < a.Length0 && 0 <= j < a.Length1 ==>
      a[i, j] == (if i == y && xMin <= j <= xMax && !(i == f.y && j == f.x) && DistSq(f, i, j) <= radius * radius
                  then RealMax(old(a[i, j]), Contrib(f, i, j, radius, sqrt)) else old(a[i, j]))
  {
    for x := xMin to xMax + 1
      invariant forall i, j :: 0 <= i < a.Length0 && 0 <= j < a.Length1 ==>
        a[i, j] == (if i == y && xMin <= j < x && !(i == f.y && j == f.x) && DistSq(f, i, j) <= radius * radius
                    then RealMax(old(a[i, j]), Contrib(f, i, j, radius, sqrt)) else old(a[i, j]))
    {
      if !(x == f.x && y == f.y) {
        var distSq := (x - f.x) * (x - f.x) + (y - f.y) * (y - f.y);
        assert distSq == DistSq(f, y, x);
        if distSq <= radius * radius {
          ContribInWindow(f, y, x, radius, sqrt);
          var dist := sqrt(distSq as real);
          var intensity := RealMax(0.0, 1.0 - dist / radius as real) * 0.7;
          a[y, x] := RealMax(a[y, x], intensity);
        }
      }
    }
  }

  /** The loop over boxes of update_heatmap (app.py:1459-1493) on a fresh
      zero grid of the low-resolution shape: the result is SplatGrid of the
      boxes' foot points. */
  method SplatBoxes(boxes: seq<Box>, scale: real, h: nat, w: nat, radius: int, sqrt: SqrtFn) returns (g: Grid)
    requires h > 0 && w > 0
    ensures g == SplatGrid(Feet(boxes, scale, h, w), h, w, radius, sqrt)
  {
    var feet := Feet(boxes, scale, h, w);
    var a := new real[h, w]((i, j) => 0.0);
    for k := 0 to |boxes|
      invariant forall i, j :: 0 <= i < h && 0 <= j < w ==> a[i, j] == SplatValue(feet[..k], i, j, radius, sqrt)
    {
      forall i, j | 0 <= i < h && 0 <= j < w ensures 0.0 <= a[i, j] <= 1.0 {
        SplatValueBounds(feet[..k], i, j, radius, sqrt);
      }
      var f := FootPoint(boxes[k], scale, h, w);
      SplatOne(a, f, radius, sqrt);
      assert feet[..k + 1][..k] == feet[..k] && feet[..k + 1][k] == f;
    }
    assert feet[..|boxes|] == feet;
    g := seq(h, i requires 0 <= i < h reads a => seq(w, j requires 0 <= j < w reads a => a[i, j]));
    var s := SplatGrid(feet, h, w, radius, sqrt);
    forall i | 0 <= i < h ensures g[i] == s[i] {
    }
  }

  /** heatmap_accumulator, aggregate_heatmap_accumulator (None until the
      first update) and aggregate_frame_count. */
  datatype HeatState = HeatState(live: Option<Grid>, aggregate: Option<Grid>, aggregateFrames: int)

  /** The values every reset writes. */
  const Reset := HeatState(None, None, 0)

  /** The accumulators as the source keeps them: both absent, or both
      present with one shape of at least one cell, the live grid in [0, 1]
      and the aggregate non-negative. */
  predicate Consistent(s: HeatState)
  {
    && (s.live.None? <==> s.aggregate.None?)
    && s.aggregateFrames >= 0
    && (s.live.Some? ==>
          var g := s.live.value;
          && |g| > 0 && |g[0]| > 0 && IsGrid(g, |g|, |g[0]|) && IsGrid(s.aggregate.value, |g|, |g[0]|)
          && InUnit(g) && NonNeg(s.aggregate.value))
  }

  lemma ResetIsConsistent()
    ensures Consistent(Reset)
  {
  }

  /** `current_heatmap` as added to the accumulators: the splatted feet,
      and, when there were boxes, blurred with kernels 7, 17 and 31 and
      normalised. */
  function Current(boxes: seq<Box>, p: HeatParams, num: Numerics, lh: nat, lw: nat): (g: Grid)
    requires lh > 0 && lw > 0
    ensures IsGrid(g, lh, lw) && InUnit(g)
    ensures boxes == [] ==> forall i, j :: 0 <= i < lh && 0 <= j < lw ==> g[i][j] == 0.0
  {
    var feet := Feet(boxes, p.scale, lh, lw);
    var splat := SplatGrid(feet, lh, lw, p.radius, num.sqrt);
    SplatInUnit(feet, lh, lw, p.radius, num.sqrt);
    if |boxes| > 0 then Blurred(splat, num.blur, lh, lw) else splat
  }

  lemma SplatInUnit(feet: seq<Cell>, lh: nat, lw: nat, radius: int, sqrt: SqrtFn)
    ensures InUnit(SplatGrid(feet, lh, lw, radius, sqrt))
    ensures feet == [] ==> forall i, j :: 0 <= i < lh && 0 <= j < lw ==> SplatGrid(feet, lh, lw, radius, sqrt)[i][j] == 0.0
  {
    var g := SplatGrid(feet, lh, lw, radius, sqrt);
    forall i, j | 0 <= i < lh && 0 <= j < lw ensures 0.0 <= g[i][j] <= 1.0 {
      SplatValueBounds(feet, i, j, radius, sqrt);
    }
  }

  /** The three blur passes followed by the normalisation. */
  function Blurred(g: Grid, blur: BlurFn, lh: nat, lw: nat): (r: Grid)
    requires lh > 0 && lw > 0 && IsGrid(g, lh, lw) && NonNeg(g)
    ensures IsGrid(r, lh, lw) && InUnit(r)
  {
    var b1 := blur(7, g);
    assert IsGrid(b1, lh, lw) && NonNeg(b1);
    var b2 := blur(17, b1);
    assert IsGrid(b2, lh, lw) && NonNeg(b2);
    var b3 := blur(31, b2);
    assert IsGrid(b3, lh, lw) && NonNeg(b3);
    Normalize(b3, lh, lw)
  }

  /** The accumulators update_heatmap starts from (app.py:1434-1448): each is
      a fresh zero grid when absent or when the live grid's shape differs
      from the new shape, and the counter restarts with a fresh aggregate. */
  function Prepare(s: HeatState, lh: nat, lw: nat): (r: HeatState)
    requires Consistent(s) && lh > 0 && lw > 0
    ensures r.live.Some? && r.aggregate.Some? && r.aggregateFrames >= 0
    ensures IsGrid(r.live.value, lh, lw) && IsGrid(r.aggregate.value, lh, lw)
    ensures InUnit(r.live.value) && NonNeg(r.aggregate.value)
    ensures s.live.Some? && IsGrid(s.live.value, lh, lw) ==> r == s
    ensures s.live.None? || !IsGrid(s.live.value, lh, lw) ==> r == HeatState(Some(ZeroGrid(lh, lw)), Some(ZeroGrid(lh, lw)), 0)
  {
    var changed := s.live.Some? && !IsGrid(s.live.value, lh, lw);
    var live0 := if s.live.None? || changed then ZeroGrid(lh, lw) else s.live.value;
    var isNew := s.aggregate.None? || changed;
    var agg0 := if isNew then ZeroGrid(lh, lw) else s.aggregate.value;
    var frames0 := if isNew then 0 else s.aggregateFrames;
    HeatState(Some(live0), Some(agg0), frames0)
  }

  /** live * decay + current * intensity, capped to 1 and clamped at 0
      (app.py:1452, 1514, 1523-1528): in [0, 1] whatever decay and
      intensity are. */
  function LiveUpdate(live: Grid, cur: Grid, p: HeatParams, lh: nat, lw: nat): (r: Grid)
    requires lh > 0 && lw > 0 && IsGrid(live, lh, lw) && IsGrid(cur, lh, lw)
    ensures IsGrid(r, lh, lw) && InUnit(r)
  {
    var live1 := AddScaled(ScaleGrid(live, p.decay), cur, p.intensity, lh, lw);
    var capped := CapToOne(live1, lh, lw);
    var r := ClampNonNeg(capped);
    assert forall i, j :: 0 <= i < lh && 0 <= j < lw ==> 0.0 <= r[i][j] <= 1.0;
    r
  }

  /** The aggregate update (app.py:1517-1520): with boxes it adds the
      current frame, undecayed; without, nothing changes. */
  function AggregateUpdate(agg: Grid, cur: Grid, hasBoxes: bool, lh: nat, lw: nat): (r: Grid)
    requires IsGrid(agg, lh, lw) && IsGrid(cur, lh, lw) && NonNeg(cur)
    ensures IsGrid(r, lh, lw)
    ensures forall i, j :: 0 <= i < lh && 0 <= j < lw ==> agg[i][j] <= r[i][j]
    ensures hasBoxes ==> forall i, j :: 0 <= i < lh && 0 <= j < lw ==> r[i][j] == agg[i][j] + cur[i][j]
    ensures !hasBoxes ==> r == agg
    ensures NonNeg(agg) ==> NonNeg(r)
  {
    if hasBoxes then
      var r := AddScaled(agg, cur, 1.0, lh, lw);
      assert forall i, j :: 0 <= i < lh && 0 <= j < lw ==> r[i][j] == agg[i][j] + cur[i][j];
      r
    else agg
  }

  /** What update_heatmap returns and leaves behind. */
  datatype HeatResult = HeatResult(state: HeatState, overlay: Option<Grid>)

  /** update_heatmap(frame, boxes) (app.py:1418-1531). */
  function Step(s: HeatState, p: HeatParams, num: Numerics, frame: Option<Frame>, boxes: seq<Box>): (r: HeatResult)
    requires Consistent(s)
    ensures Consistent(r.state)
    ensures r.overlay.Some? ==> frame.Some?
  {
    if frame.None? then HeatResult(s, None)
    else
      var (lh, lw) := LowDims(frame.value.height, frame.value.width, p.scale);
      if lh <= 0 || lw <= 0 then HeatResult(s, None)
      else FrameStep(s, p, num, frame.value, boxes, lh, lw)
  }

  /** update_heatmap on a frame whose low-resolution shape is (lh, lw). */
  function FrameStep(s: HeatState, p: HeatParams, num: Numerics, f: Frame, boxes: seq<Box>, lh: nat, lw: nat): HeatResult
    requires Consistent(s) && lh > 0 && lw > 0
  {
    FoldIn(Prepare(s, lh, lw), Current(boxes, p, num, lh, lw), p, num, f, |boxes| > 0, lh, lw)
  }

  /** The prepared accumulators `s0` taking the current grid `cur`: the
      live grid decays and gains it, the aggregate and its counter gain it
      when there were boxes; the overlay is the live grid at frame size. */
  function FoldIn(s0: HeatState, cur: Grid, p: HeatParams, num: Numerics, f: Frame, hasBoxes: bool, lh: nat, lw: nat): HeatResult
    requires lh > 0 && lw > 0 && s0.live.Some? && s0.aggregate.Some?
    requires IsGrid(s0.live.value, lh, lw) && IsGrid(s0.aggregate.value, lh, lw) && IsGrid(cur, lh, lw) && NonNeg(cur)
  {
    var live := LiveUpdate(s0.live.value, cur, p, lh, lw);
    var agg := AggregateUpdate(s0.aggregate.value, cur, hasBoxes, lh, lw);
    var frames := if hasBoxes then s0.aggregateFrames + 1 else s0.aggregateFrames;
    HeatResult(HeatState(Some(live), Some(agg), frames), Some(num.resize(live, f.width, f.height)))
  }

  /** `current_heatmap` (app.py:1455-1512): the splat over a fresh array,
      then the blur passes when there were boxes. */
  method CurrentGrid(boxes: seq<Box>, p: HeatParams, num: Numerics, lh: nat, lw: nat) returns (g: Grid)
    requires lh > 0 && lw > 0
    ensures g == Current(boxes, p, num, lh, lw)
  {
    var splat := SplatBoxes(boxes, p.scale, lh, lw, p.radius, num.sqrt);
    SplatInUnit(Feet(boxes, p.scale, lh, lw), lh, lw, p.radius, num.sqrt);
    g := if |boxes| > 0 then Blurred(splat, num.blur, lh, lw) else splat;
  }

  /** The body of update_heatmap (app.py:1418-1531): the boxes are splatted
      into a fresh low-resolution array, blurred when there are any, and
      folded into the accumulators; the overlay is the live grid resized to
      the frame. */
  method ComputeHeatmap(s: HeatState, p: HeatParams, num: Numerics, frame: Option<Frame>, boxes: seq<Box>)
      returns (r: HeatResult)
    requires Consistent(s)
    ensures r == Step(s, p, num, frame, boxes)
  {
    if frame.None? {
      return HeatResult(s, None);
    }
    var f := frame.value;
    var (lh, lw) := LowDims(f.height, f.width, p.scale);
    if lh <= 0 || lw <= 0 {
      return HeatResult(s, None);
    }
    r := UpdateOnFrame(s, p, num, f, boxes, lh, lw);
  }

  /** The accumulator update of update_heatmap (app.py:1434-1531) once the
      low-resolution shape is known to be non-empty. */
  method UpdateOnFrame(s: HeatState, p: HeatParams, num: Numerics, f: Frame, boxes: seq<Box>, lh: nat, lw: nat)
      returns (r: HeatResult)
    requires Consistent(s) && lh > 0 && lw > 0
    ensures r == FrameStep(s, p, num, f, boxes, lh, lw)
  {
    var start := Prepare(s, lh, lw);
    var current := CurrentGrid(boxes, p, num, lh, lw);
    r := FoldIn(start, current, p, num, f, |boxes| > 0, lh, lw);
  }

  /** update_heatmap returns None exactly when there is no frame or a
      low-resolution side truncates to 0 or less, and then touches none of
      the accumulators or the counter. */
  lemma StepNoOverlay(s: HeatState, p: HeatParams, num: Numerics, frame: Option<Frame>, boxes: seq<Box>)
    requires Consistent(s)
    ensures var r := Step(s, p, num, frame, boxes);
      && (r.overlay.None? <==>
            (frame.None? || LowDims(frame.value.height, frame.value.width, p.scale).0 <= 0
                         || LowDims(frame.value.height, frame.value.width, p.scale).1 <= 0))
      && (r.overlay.None? ==> r.state == s)
  {
  }

  /** Whatever the parameters and the foreign numerics do, an update keeps
      the accumulators consistent: both of the low-resolution shape, every
      live cell in [0, 1], the aggregate non-negative. */
  lemma StepKeepsConsistent(s: HeatState, p: HeatParams, num: Numerics, frame: Option<Frame>, boxes: seq<Box>)
    requires Consistent(s)
    ensures var r := Step(s, p, num, frame, boxes);
      && Consistent(r.state)
      && (r.overlay.Some? ==>
            var (lh, lw) := LowDims(frame.value.height, frame.value.width, p.scale);
            lh > 0 && lw > 0 && IsGrid(r.state.live.value, lh, lw) && IsGrid(r.state.aggregate.value, lh, lw))
  {
  }

  /** A change of the low-resolution shape starts both accumulators over:
      the counter restarts from 0, and with no boxes the aggregate is all
      zeros. */
  lemma StepResetsOnResize(s: HeatState, p: HeatParams, num: Numerics, f: Frame, boxes: seq<Box>)
    requires Consistent(s)
    requires var (lh, lw) := LowDims(f.height, f.width, p.scale);
      lh > 0 && lw > 0 && s.live.Some? && !IsGrid(s.live.value, lh, lw)
    ensures var r := Step(s, p, num, Some(f), boxes);
      var (lh, lw) := LowDims(f.height, f.width, p.scale);
      && r.state.aggregateFrames == (if |boxes| > 0 then 1 else 0)
      && (|boxes| == 0 ==> r.state.aggregate == Some(ZeroGrid(lh, lw)))
  {
    var d := LowDims(f.height, f.width, p.scale);
    var lh, lw := d.0, d.1;
    StepOnShape(s, p, num, f, boxes, lh, lw);
    var s0 := Prepare(s, lh, lw);
    FoldInAccumulates(s0, Current(boxes, p, num, lh, lw), p, num, f, |boxes| > 0, lh, lw);
  }

  /** With the shape unchanged, the aggregate is never decayed: no cell
      ever decreases, a frame without boxes leaves it and the counter as
      they were, and a frame with boxes adds the current grid to it, cell
      by cell, and exactly one to the counter. */
  lemma StepAggregateNeverDecays(s: HeatState, p: HeatParams, num: Numerics, f: Frame, boxes: seq<Box>)
    requires Consistent(s)
    requires var (lh, lw) := LowDims(f.height, f.width, p.scale);
      lh > 0 && lw > 0 && s.live.Some? && IsGrid(s.live.value, lh, lw)
    ensures var r := Step(s, p, num, Some(f), boxes);
      var before, after := s.aggregate.value, r.state.aggregate.value;
      && r.state.aggregateFrames == s.aggregateFrames + (if |boxes| > 0 then 1 else 0)
      && (|boxes| == 0 ==> after == before)
      && (|boxes| > 0 ==> var cur := Current(boxes, p, num, |before|, |before[0]|);
            forall i, j :: 0 <= i < |before| && 0 <= j < |before[i]| ==> after[i][j] == before[i][j] + cur[i][j])
      && IsGrid(after, |before|, |before[0]|)
      && (forall i, j :: 0 <= i < |before| && 0 <= j < |before[i]| ==> before[i][j] <= after[i][j])
  {
  }

  /** Step on a frame whose low-resolution shape is (lh, lw). */
  lemma StepOnShape(s: HeatState, p: HeatParams, num: Numerics, f: Frame, boxes: seq<Box>, lh: int, lw: int)
    requires Consistent(s) && lh > 0 && lw > 0 && LowDims(f.height, f.width, p.scale) == (lh, lw)
    ensures Step(s, p, num, Some(f), boxes) == FrameStep(s, p, num, f, boxes, lh, lw)
  {
  }

  /** What FoldIn does to the aggregate and its counter. */
  lemma FoldInAccumulates(s0: HeatState, cur: Grid, p: HeatParams, num: Numerics, f: Frame, hasBoxes: bool, lh: nat, lw: nat)
    requires lh > 0 && lw > 0 && s0.live.Some? && s0.aggregate.Some?
    requires IsGrid(s0.live.value, lh, lw) && IsGrid(s0.aggregate.value, lh, lw) && IsGrid(cur, lh, lw) && NonNeg(cur)
    ensures var r := FoldIn(s0, cur, p, num, f, hasBoxes, lh, lw);
      && r.state.aggregateFrames == s0.aggregateFrames + (if hasBoxes then 1 else 0)
      && r.state.aggregate == Some(AggregateUpdate(s0.aggregate.value, cur, hasBoxes, lh, lw))
  {
  }

  /** g' is g with every cell multiplied by k. */
  predicate ScaledBy(g': Grid, g: Grid, k: real, lh: nat, lw: nat)
  {
    IsGrid(g', lh, lw) && IsGrid(g, lh, lw) && forall i, j :: 0 <= i < lh && 0 <= j < lw ==> g'[i][j] == g[i][j] * k
  }

  /** A frame without boxes, on an unchanged shape with a decay in [0, 1],
      only decays the live grid: every cell is multiplied by the decay. */
  lemma StepWithoutBoxesDecays(s: HeatState, p: HeatParams, num: Numerics, f: Frame, lh: nat, lw: nat)
    requires Consistent(s) && 0.0 <= p.decay <= 1.0
    requires lh > 0 && lw > 0 && LowDims(f.height, f.width, p.scale) == (lh, lw)
    requires s.live.Some? && IsGrid(s.live.value, lh, lw)
    ensures ScaledBy(Step(s, p, num, Some(f), []).state.live.value, s.live.value, p.decay, lh, lw)
  {
    assert Step(s, p, num, Some(f), []) == FrameStep(s, p, num, f, [], lh, lw);
    assert Prepare(s, lh, lw) == s;
    LiveUpdateOnlyDecays(s.live.value, Current([], p, num, lh, lw), p, lh, lw);
  }

  lemma LiveUpdateOnlyDecays(live: Grid, cur: Grid, p: HeatParams, lh: nat, lw: nat)
    requires lh > 0 && lw > 0 && IsGrid(live, lh, lw) && IsGrid(cur, lh, lw) && InUnit(live)
    requires 0.0 <= p.decay <= 1.0
    requires forall i, j :: 0 <= i < lh && 0 <= j < lw ==> cur[i][j] == 0.0
    ensures ScaledBy(LiveUpdate(live, cur, p, lh, lw), live, p.decay, lh, lw)
  {
    var live1 := AddScaled(ScaleGrid(live, p.decay), cur, p.intensity, lh, lw);
    forall i, j | 0 <= i < lh && 0 <= j < lw ensures live1[i][j] == live[i][j] * p.decay && 0.0 <= live1[i][j] <= 1.0 {
      ProductInUnit(live[i][j], p.decay);
    }
    assert CapToOne(live1, lh, lw) == live1;
  }

  lemma ProductInUnit(a: real, b: real)
    requires 0.0 <= a <= 1.0 && 0.0 <= b <= 1.0
    ensures 0.0 <= a * b <= 1.0
  {
    ProductNonNeg(a, b);
    ProductNonNeg(1.0 - a, b);
    assert (1.0 - a) * b == b - a * b;
  }

  lemma ProductNonNeg(a: real, b: real)
    requires 0.0 <= a && 0.0 <= b
    ensures a * b >= 0.0
  {
  }

}
