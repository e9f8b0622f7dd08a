/**
 * The shape library: text sampled from a rasterised canvas, and the
 * procedural vortex, Christmas tree and photo frame clouds.
 */
module Shapes {
  import opened Common
  import Messages

  // ---------------------------------------------------------------------
  // Text shapes
  // ---------------------------------------------------------------------

  const CANVAS_WIDTH: nat := 2048
  const CANVAS_HEIGHT: nat := 1024
  /** TEXT_SAMPLE_DENSITY: every third pixel in each direction is sampled. */
  const TEXT_SAMPLE_DENSITY: nat := 3
  const TEXT_SCALE: real := 0.08
  const LINE_HEIGHT_RATIO: real := 1.2
  /** Red byte threshold for a lit pixel. */
  const LIT_THRESHOLD: int := 128

  /** Sampled rows (0, 3, .., 1023) and columns (0, 3, .., 2046). */
  const SAMPLED_ROWS: nat := 342
  const SAMPLED_COLUMNS: nat := 683

  type Byte = b: int | 0 <= b < 256

  /** The RGBA bytes of the 2048 x 1024 canvas, row-major, four bytes per pixel. */
  type PixelBuffer = s: seq<Byte> | |s| == 2048 * 1024 * 4
    witness seq(2048 * 1024 * 4, _ => 0)

  /**
   * The canvas: given the lines, the vertical position of each line and the
   * font size, it returns the rendered pixels (white text on black).
   */
  type Rasterizer = (seq<string>, seq<real>, nat) -> PixelBuffer

  /** Vertical centre of each line as createTextPoints draws it. */
  function LinePositions(lines: seq<string>, fontSize: nat): (ys: seq<real>)
    ensures |ys| == |lines|
    ensures forall k :: 0 <= k < |ys| - 1 ==> ys[k + 1] - ys[k] == fontSize as real * LINE_HEIGHT_RATIO
    ensures |ys| > 0 ==> ys[0] + ys[|ys| - 1] == CANVAS_HEIGHT as real
  {
    var lineHeight := fontSize as real * LINE_HEIGHT_RATIO;
    var startY := (CANVAS_HEIGHT as real - (|lines| as real - 1.0) * lineHeight) / 2.0;
    seq(|lines|, k => startY + k as real * lineHeight)
  }

  function WorldX(px: int): real
  {
    (px - 1024) as real * 0.08
  }

  function WorldY(py: int): real
  {
    -((py - 512) as real * 0.08)
  }

  /** The fixed affine map from a canvas pixel to world space, on the plane z = 0. */
  function PixelToWorld(px: int, py: int): Point
  {
    Point(WorldX(px), WorldY(py), 0.0)
  }

  predicate Lit(data: PixelBuffer, px: nat, py: nat)
    requires px < CANVAS_WIDTH && py < CANVAS_HEIGHT
  {
    data[(py * 2048 + px) * 4] > LIT_THRESHOLD
  }

  /**
   * Points of sampled row py, from column px rightwards. The measure names
   * the buffer so that a call with a literal start column is not unrolled
   * eagerly by the verifier; it decreases exactly as CANVAS_WIDTH - px does.
   */
  function RowPoints(data: PixelBuffer, py: nat, px: nat): seq<Point>
    requires py < CANVAS_HEIGHT
    decreases |data| - px
  {
    if px >= CANVAS_WIDTH then []
    else (if Lit(data, px, py) then [PixelToWorld(px, py)] else []) + RowPoints(data, py, px + TEXT_SAMPLE_DENSITY)
  }

  /** Points of the sampled rows from py downwards, row after row (measure as for RowPoints). */
  function GridPoints(data: PixelBuffer, py: nat): seq<Point>
    decreases |data| - py
  {
    if py >= CANVAS_HEIGHT then []
    else RowPoints(data, py, 0) + GridPoints(data, py + TEXT_SAMPLE_DENSITY)
  }

  /** The point cloud of a rendered canvas. */
  function TextPoints(data: PixelBuffer): seq<Point>
  {
    GridPoints(data, 0)
  }

  /** The outer sampling loop of createTextPoints: row after row. */
  method CreateTextPoints(data: PixelBuffer) returns (points: seq<Point>)
    ensures points == TextPoints(data)
  {
    points := [];
    var y: nat := 0;
    EmptyLeft(TextPoints(data));
    while y < CANVAS_HEIGHT
      invariant points + GridPoints(data, y) == TextPoints(data)
      decreases CANVAS_HEIGHT - y
    {
      var row := SampleRow(data, y);
      GridStep(points, data, y);
      points := points + row;
      y := y + TEXT_SAMPLE_DENSITY;
    }
    GridEnd(points, data, y);
  }

  /** The inner sampling loop of createTextPoints: one row, left to right. */
  method SampleRow(data: PixelBuffer, y: nat) returns (row: seq<Point>)
    requires y < CANVAS_HEIGHT
    ensures row == RowPoints(data, y, 0)
  {
    row := [];
    var x: nat := 0;
    EmptyLeft(RowPoints(data, y, 0));
    while x < CANVAS_WIDTH
      invariant row + RowPoints(data, y, x) == RowPoints(data, y, 0)
      decreases CANVAS_WIDTH - x
    {
      RowStep(row, data, y, x);
      if Lit(data, x, y) {
        row := row + [PixelToWorld(x, y)];
      }
      x := x + TEXT_SAMPLE_DENSITY;
    }
    RowEnd(row, data, y, x);
  }

  /** One column of the inner loop: appending the sampled pixel, if lit, keeps row + rest fixed. */
  lemma RowStep(row: seq<Point>, data: PixelBuffer, y: nat, x: nat)
    requires y < CANVAS_HEIGHT && x < CANVAS_WIDTH
    ensures Lit(data, x, y) ==>
      (row + [PixelToWorld(x, y)]) + RowPoints(data, y, x + TEXT_SAMPLE_DENSITY) == row + RowPoints(data, y, x)
    ensures !Lit(data, x, y) ==> row + RowPoints(data, y, x + TEXT_SAMPLE_DENSITY) == row + RowPoints(data, y, x)
  {
    var rest := RowPoints(data, y, x + TEXT_SAMPLE_DENSITY);
    if Lit(data, x, y) {
      assert RowPoints(data, y, x) == [PixelToWorld(x, y)] + rest;
      AppendAssoc(row, [PixelToWorld(x, y)], rest);
    } else {
      assert RowPoints(data, y, x) == [] + rest;
      EmptyLeft(rest);
    }
  }

  lemma RowEnd(row: seq<Point>, data: PixelBuffer, y: nat, x: nat)
    requires y < CANVAS_HEIGHT && x >= CANVAS_WIDTH
    requires row + RowPoints(data, y, x) == RowPoints(data, y, 0)
    ensures row == RowPoints(data, y, 0)
  {
    assert RowPoints(data, y, x) == [];
    assert row + [] == row;
  }

  lemma GridEnd(points: seq<Point>, data: PixelBuffer, y: nat)
    requires y >= CANVAS_HEIGHT
    requires points + GridPoints(data, y) == TextPoints(data)
    ensures points == TextPoints(data)
  {
    assert GridPoints(data, y) == [];
    assert points + [] == points;
  }

  /** One row of the outer loop. */
  lemma GridStep(points: seq<Point>, data: PixelBuffer, y: nat)
    requires y < CANVAS_HEIGHT
    ensures (points + RowPoints(data, y, 0)) + GridPoints(data, y + TEXT_SAMPLE_DENSITY) == points + GridPoints(data, y)
  {
    AppendAssoc(points, RowPoints(data, y, 0), GridPoints(data, y + TEXT_SAMPLE_DENSITY));
  }

  lemma EmptyLeft(s: seq<Point>)
    ensures [] + s == s
  {
  }

  lemma AppendAssoc(a: seq<Point>, b: seq<Point>, c: seq<Point>)
    ensures (a + b) + c == a + (b + c)
  {
  }

  /** A canvas pixel that the sampling loops visit. */
  predicate Sampled(px: int, py: int)
  {
    0 <= px < CANVAS_WIDTH && 0 <= py < CANVAS_HEIGHT
    && px % TEXT_SAMPLE_DENSITY == 0 && py % TEXT_SAMPLE_DENSITY == 0
  }

  /** p comes before q when q lies on a lower row, or on the same row further right. */
  predicate RasterBefore(p: Point, q: Point)
  {
    p.y > q.y || (p.y == q.y && p.x < q.x)
  }

  ghost predicate RowMajor(s: seq<Point>)
  {
    forall i, j :: 0 <= i < j < |s| ==> RasterBefore(s[i], s[j])
  }

  function ColumnsFrom(px: nat): nat
  {
    if px >= CANVAS_WIDTH then 0 else (CANVAS_WIDTH - px + 2) / 3
  }

  function RowsFrom(py: nat): nat
  {
    if py >= CANVAS_HEIGHT then 0 else (CANVAS_HEIGHT - py + 2) / 3
  }

  lemma {:induction false} RowShape(data: PixelBuffer, py: nat, px: nat)
    requires py < CANVAS_HEIGHT
    ensures RowMajor(RowPoints(data, py, px))
    ensures |RowPoints(data, py, px)| <= ColumnsFrom(px)
    ensures forall k :: 0 <= k < |RowPoints(data, py, px)| ==>
      RowPoints(data, py, px)[k].y == WorldY(py) && RowPoints(data, py, px)[k].x >= WorldX(px)
      && RowPoints(data, py, px)[k].z == 0.0
    decreases CANVAS_WIDTH - px
  {
    if px < CANVAS_WIDTH {
      var rest := RowPoints(data, py, px + TEXT_SAMPLE_DENSITY);
      RowShape(data, py, px + TEXT_SAMPLE_DENSITY);
      ColumnsStep(px);
      assert WorldX(px + TEXT_SAMPLE_DENSITY) > WorldX(px);
      if Lit(data, px, py) {
        assert RowPoints(data, py, px) == [PixelToWorld(px, py)] + rest;
        ConsRowMajor(PixelToWorld(px, py), rest);
      } else {
        assert RowPoints(data, py, px) == rest;
      }
    }
  }

  lemma ColumnsStep(px: nat)
    requires px < CANVAS_WIDTH
    ensures ColumnsFrom(px + TEXT_SAMPLE_DENSITY) + 1 <= ColumnsFrom(px)
  {
  }

  /** A point left of, and on the row of, every point of a row-major sequence extends it. */
  lemma ConsRowMajor(p: Point, rest: seq<Point>)
    requires RowMajor(rest)
    requires forall k :: 0 <= k < |rest| ==> rest[k].y == p.y && rest[k].x > p.x
    ensures RowMajor([p] + rest)
  {
    var s := [p] + rest;
    forall i, j | 0 <= i < j < |s| ensures RasterBefore(s[i], s[j]) {
      if i > 0 {
        assert s[i] == rest[i - 1] && s[j] == rest[j - 1];
      } else {
        assert s[j] == rest[j - 1];
      }
    }
  }

  lemma {:induction false} GridShape(data: PixelBuffer, py: nat)
    ensures RowMajor(GridPoints(data, py))
    ensures |GridPoints(data, py)| <= RowsFrom(py) * SAMPLED_COLUMNS
    ensures forall k :: 0 <= k < |GridPoints(data, py)| ==>
      GridPoints(data, py)[k].y <= WorldY(py) && GridPoints(data, py)[k].z == 0.0
    decreases CANVAS_HEIGHT - py
  {
    if py < CANVAS_HEIGHT {
      var row := RowPoints(data, py, 0);
      var rest := GridPoints(data, py + TEXT_SAMPLE_DENSITY);
      RowShape(data, py, 0);
      GridShape(data, py + TEXT_SAMPLE_DENSITY);
      var s := row + rest;
      assert GridPoints(data, py) == s;
      forall k | 0 <= k < |rest| ensures rest[k].y < WorldY(py) {
      }
      forall i, j | 0 <= i < j < |s| ensures RasterBefore(s[i], s[j]) {
        if j < |row| {
        } else if i >= |row| {
          assert s[i] == rest[i - |row|] && s[j] == rest[j - |row|];
        } else {
          assert s[j] == rest[j - |row|];
        }
      }
    }
  }

  /** Text points are flat, in row-major order, and at most one per sampled pixel. */
  lemma TextPointsShape(data: PixelBuffer)
    ensures RowMajor(TextPoints(data))
    ensures forall k :: 0 <= k < |TextPoints(data)| ==> TextPoints(data)[k].z == 0.0
    ensures |TextPoints(data)| <= SAMPLED_ROWS * SAMPLED_COLUMNS
  {
    GridShape(data, 0);
  }

  lemma {:induction false} RowHasLitPixel(data: PixelBuffer, py: nat, px: nat, qx: nat)
    requires py < CANVAS_HEIGHT && px <= qx < CANVAS_WIDTH && (qx - px) % TEXT_SAMPLE_DENSITY == 0
    requires Lit(data, qx, py)
    ensures PixelToWorld(qx, py) in RowPoints(data, py, px)
    decreases CANVAS_WIDTH - px
  {
    if qx != px {
      RowHasLitPixel(data, py, px + TEXT_SAMPLE_DENSITY, qx);
    }
  }

  lemma {:induction false} GridHasLitPixel(data: PixelBuffer, py: nat, qx: nat, qy: nat)
    requires py <= qy < CANVAS_HEIGHT && (qy - py) % TEXT_SAMPLE_DENSITY == 0
    requires qx < CANVAS_WIDTH && qx % TEXT_SAMPLE_DENSITY == 0
    requires Lit(data, qx, qy)
    ensures PixelToWorld(qx, qy) in GridPoints(data, py)
    decreases CANVAS_HEIGHT - py
  {
    if qy == py {
      RowHasLitPixel(data, py, 0, qx);
    } else {
      GridHasLitPixel(data, py + TEXT_SAMPLE_DENSITY, qx, qy);
    }
  }

  lemma {:induction false} RowPointIsLit(data: PixelBuffer, py: nat, px: nat, qx: int, qy: int)
    requires py < CANVAS_HEIGHT && px % TEXT_SAMPLE_DENSITY == 0
    requires PixelToWorld(qx, qy) in RowPoints(data, py, px)
    ensures qy == py && px <= qx < CANVAS_WIDTH && qx % TEXT_SAMPLE_DENSITY == 0
    ensures Lit(data, qx, qy)
    decreases CANVAS_WIDTH - px
  {
    var rest := RowPoints(data, py, px + TEXT_SAMPLE_DENSITY);
    if Lit(data, px, py) && PixelToWorld(qx, qy) == PixelToWorld(px, py) {
    } else {
      assert PixelToWorld(qx, qy) in rest;
      RowPointIsLit(data, py, px + TEXT_SAMPLE_DENSITY, qx, qy);
    }
  }

  lemma {:induction false} GridPointIsLit(data: PixelBuffer, py: nat, qx: int, qy: int)
    requires py % TEXT_SAMPLE_DENSITY == 0
    requires PixelToWorld(qx, qy) in GridPoints(data, py)
    ensures py <= qy < CANVAS_HEIGHT && qy % TEXT_SAMPLE_DENSITY == 0
    ensures 0 <= qx < CANVAS_WIDTH && qx % TEXT_SAMPLE_DENSITY == 0
    ensures Lit(data, qx, qy)
    decreases CANVAS_HEIGHT - py
  {
    if py >= CANVAS_HEIGHT {
      assert false;
    }
    var row := RowPoints(data, py, 0);
    var rest := GridPoints(data, py + TEXT_SAMPLE_DENSITY);
    assert GridPoints(data, py) == row + rest;
    InConcat(PixelToWorld(qx, qy), row, rest);
    if PixelToWorld(qx, qy) in row {
      GridPointIsLitStep(data, py, qx, qy);
    } else {
      GridPointIsLit(data, py + TEXT_SAMPLE_DENSITY, qx, qy);
    }
  }

  lemma GridPointIsLitStep(data: PixelBuffer, py: nat, qx: int, qy: int)
    requires py % TEXT_SAMPLE_DENSITY == 0 && py < CANVAS_HEIGHT
    requires PixelToWorld(qx, qy) in RowPoints(data, py, 0)
    ensures py <= qy < CANVAS_HEIGHT && qy % TEXT_SAMPLE_DENSITY == 0
    ensures 0 <= qx < CANVAS_WIDTH && qx % TEXT_SAMPLE_DENSITY == 0
    ensures Lit(data, qx, qy)
  {
      RowPointIsLit(data, py, 0, qx, qy);
  }

  lemma InConcat(p: Point, a: seq<Point>, b: seq<Point>)
    requires p in a + b
    ensures p in a || p in b
  {
  }

  /** Every point of a sampled row, from a sampled column on, is the world point of a lit sampled pixel. */
  lemma {:induction false} RowPointsArePixels(data: PixelBuffer, py: nat, px: nat)
    requires py < CANVAS_HEIGHT && py % TEXT_SAMPLE_DENSITY == 0 && px % TEXT_SAMPLE_DENSITY == 0
    ensures forall p :: p in RowPoints(data, py, px) ==>
      exists qx: int :: p == PixelToWorld(qx, py) && Sampled(qx, py) && Lit(data, qx, py)
    decreases CANVAS_WIDTH - px
  {
    if px < CANVAS_WIDTH {
      var rest := RowPoints(data, py, px + TEXT_SAMPLE_DENSITY);
      RowPointsArePixels(data, py, px + TEXT_SAMPLE_DENSITY);
      var here := if Lit(data, px, py) then [PixelToWorld(px, py)] else [];
      assert RowPoints(data, py, px) == here + rest;
      forall p | p in RowPoints(data, py, px)
        ensures exists qx: int :: p == PixelToWorld(qx, py) && Sampled(qx, py) && Lit(data, qx, py)
      {
        InConcat(p, here, rest);
        if p in here {
          assert p == PixelToWorld(px, py) && Sampled(px, py) && Lit(data, px, py);
        }
      }
    }
  }

  /** Every point of the rows from a sampled row on is the world point of a lit sampled pixel. */
  lemma {:induction false} GridPointsArePixels(data: PixelBuffer, py: nat)
    requires py % TEXT_SAMPLE_DENSITY == 0
    ensures forall p :: p in GridPoints(data, py) ==>
      exists qx: int, qy: int :: p == PixelToWorld(qx, qy) && Sampled(qx, qy) && Lit(data, qx, qy)
    decreases CANVAS_HEIGHT - py
  {
    if py < CANVAS_HEIGHT {
      var row := RowPoints(data, py, 0);
      var rest := GridPoints(data, py + TEXT_SAMPLE_DENSITY);
      RowPointsArePixels(data, py, 0);
      GridPointsArePixels(data, py + TEXT_SAMPLE_DENSITY);
      assert GridPoints(data, py) == row + rest;
      forall p | p in GridPoints(data, py)
        ensures exists qx: int, qy: int :: p == PixelToWorld(qx, qy) && Sampled(qx, qy) && Lit(data, qx, qy)
      {
        InConcat(p, row, rest);
        if p in row {
          var qx: int :| p == PixelToWorld(qx, py) && Sampled(qx, py) && Lit(data, qx, py);
          assert p == PixelToWorld(qx, py);
        }
      }
    }
  }

  /**
   * A sampled pixel contributes its world point exactly when its red byte
   * exceeds 128, and no other point appears.
   */
  lemma TextPointMembership(data: PixelBuffer, px: int, py: int)
    ensures PixelToWorld(px, py) in TextPoints(data) <==> Sampled(px, py) && Lit(data, px, py)
    ensures forall p :: p in TextPoints(data) ==>
      exists qx: int, qy: int :: p == PixelToWorld(qx, qy) && Sampled(qx, qy) && Lit(data, qx, qy)
  {
    if PixelToWorld(px, py) in TextPoints(data) {
      GridPointIsLit(data, 0, px, py);
    }
    if Sampled(px, py) && Lit(data, px, py) {
      GridHasLitPixel(data, 0, px, py);
    }
    GridPointsArePixels(data, 0);
  }

  /** The points of a message: its lines laid out, rasterised and sampled. */
  function MessagePoints(raster: Rasterizer, m: Messages.Message): Shape
  {
    TextPoints(raster(m.text, LinePositions(m.text, m.fontSize), m.fontSize))
  }

  /** createTextPoints(text, fontSize): lay the lines out, rasterise them, sample the canvas. */
  method CreateMessagePoints(raster: Rasterizer, m: Messages.Message) returns (points: Shape)
    ensures points == MessagePoints(raster, m)
  {
    var lines := LinePositions(m.text, m.fontSize);
    var data := raster(m.text, lines, m.fontSize);
    points := CreateTextPoints(data);
  }

  // ---------------------------------------------------------------------
  // Vortex
  // ---------------------------------------------------------------------

  /** Draws used per vortex point: radius, depth. */
  function VortexRadius(draws: seq<real>, i: nat): (r: real)
    requires 2 * i + 1 < |draws|
    ensures UnitDraws(draws) ==> 160.0 <= r < 260.0
  {
    160.0 + draws[2 * i] * 100.0
  }

  function VortexPoint(t: Trig, draws: seq<real>, i: nat): (p: Point)
    requires 2 * i + 1 < |draws|
    ensures UnitDraws(draws) ==> -25.0 <= p.z < 25.0
  {
    var angle := (i as real / PARTICLE_COUNT as real) * PI * 2.0 * 10.0;
    var r := VortexRadius(draws, i);
    Point(t.cos(angle) * r, t.sin(angle) * r, (draws[2 * i + 1] - 0.5) * 50.0)
  }

  /** A vortex point lies on the circle of its drawn radius, which is in [160, 260). */
  lemma VortexPointOnCircle(t: Trig, draws: seq<real>, i: nat)
    requires 2 * i + 1 < |draws| && Pythagorean(t)
    ensures var p := VortexPoint(t, draws, i); var r := VortexRadius(draws, i);
      p.x * p.x + p.y * p.y == r * r
  {
    var angle := (i as real / PARTICLE_COUNT as real) * PI * 2.0 * 10.0;
    ScaledUnitCircle(t, angle, VortexRadius(draws, i));
  }

  lemma ScaledUnitCircle(t: Trig, angle: real, r: real)
    requires Pythagorean(t)
    ensures (t.cos(angle) * r) * (t.cos(angle) * r) + (t.sin(angle) * r) * (t.sin(angle) * r) == r * r
  {
    var c, s := t.cos(angle), t.sin(angle);
    assert c * c + s * s == 1.0;
    calc {
      (c * r) * (c * r) + (s * r) * (s * r);
      == (c * c + s * s) * (r * r);
      == r * r;
    }
  }

  method CreateVortex(t: Trig, draws: seq<real>) returns (points: seq<Point>)
    requires |draws| == 2 * PARTICLE_COUNT
    ensures |points| == PARTICLE_COUNT
    ensures forall i :: 0 <= i < PARTICLE_COUNT ==> points[i] == VortexPoint(t, draws, i)
  {
    points := [];
    for i := 0 to PARTICLE_COUNT
      invariant |points| == i
      invariant forall j :: 0 <= j < i ==> points[j] == VortexPoint(t, draws, j)
    {
      var angle := (i as real / PARTICLE_COUNT as real) * PI * 2.0 * 10.0;
      var r := 160.0 + draws[2 * i] * 100.0;
      points := points + [Point(t.cos(angle) * r, t.sin(angle) * r, (draws[2 * i + 1] - 0.5) * 50.0)];
    }
  }

  // ---------------------------------------------------------------------
  // Christmas tree
  // ---------------------------------------------------------------------

  const TREE_HEIGHT: real := 80.0
  const BASE_WIDTH: real := 50.0
  const LAYERS: nat := 5
  /** Indices [0, TRUNK_END) form the trunk, [TRUNK_END, STAR_END) the star. */
  const TRUNK_END: nat := 500
  const STAR_END: nat := 800
  /** Five draws per cone point, then three per trunk point. */
  const TREE_DRAWS: nat := 5 * PARTICLE_COUNT + 3 * TRUNK_END

  /** Layer of a cone point: floor(draw * 5). */
  function ConeLayer(draws: seq<real>, i: nat): (layer: int)
    requires 5 * i + 4 < |draws|
    ensures UnitDraws(draws) ==> 0 <= layer < LAYERS
  {
    (draws[5 * i + 1] * LAYERS as real).Floor
  }

  function ConePoint(t: Trig, draws: seq<real>, i: nat): (p: Point)
    requires 5 * i + 4 < |draws|
    ensures UnitDraws(draws) ==> -29.0 <= p.y < 45.0
  {
    var layer := ConeLayer(draws, i);
    var layerY := TREE_HEIGHT / 2.0 - (layer as real / LAYERS as real) * TREE_HEIGHT;
    var layerWidth := BASE_WIDTH * (1.0 - layer as real / LAYERS as real * 0.7);
    var angle := draws[5 * i + 2] * PI * 2.0;
    var r := draws[5 * i + 3] * layerWidth;
    var branchNoise := t.sin(angle * 8.0 + layer as real * 2.0) * 5.0;
    Point(t.cos(angle) * (r + branchNoise), layerY + (draws[5 * i + 4] - 0.5) * 10.0, t.sin(angle) * (r + branchNoise))
  }

  function TrunkPoint(draws: seq<real>, i: nat): (p: Point)
    requires 5 * PARTICLE_COUNT + 3 * i + 2 < |draws|
    ensures UnitDraws(draws) ==> -55.0 < p.y <= -40.0 && -4.0 <= p.x < 4.0 && -4.0 <= p.z < 4.0
  {
    var d := 5 * PARTICLE_COUNT + 3 * i;
    Point((draws[d] - 0.5) * 8.0, -TREE_HEIGHT / 2.0 - draws[d + 1] * 15.0, (draws[d + 2] - 0.5) * 8.0)
  }

  function StarPoint(t: Trig, i: nat): (p: Point)
    ensures p.y == 48.0
  {
    var angle := (i as real / 50.0) * PI * 2.0;
    var r := 3.0 + t.sin(angle * 5.0) * 2.0;
    Point(t.cos(angle) * r, TREE_HEIGHT / 2.0 + 8.0, t.sin(angle) * r)
  }

  /** Point i of the tree after the trunk and star overrides. */
  function TreePoint(t: Trig, draws: seq<real>, i: nat): Point
    requires i < PARTICLE_COUNT && |draws| == TREE_DRAWS
  {
    if i < TRUNK_END then TrunkPoint(draws, i)
    else if i < STAR_END then StarPoint(t, i)
    else ConePoint(t, draws, i)
  }

  /** The reserved index ranges: trunk below the cone, star on top, cone elsewhere. */
  lemma TreeLayout(t: Trig, draws: seq<real>, i: nat)
    requires i < PARTICLE_COUNT && |draws| == TREE_DRAWS && UnitDraws(draws)
    ensures i < TRUNK_END ==> -55.0 < TreePoint(t, draws, i).y <= -40.0
    ensures TRUNK_END <= i < STAR_END ==> TreePoint(t, draws, i).y == 48.0
    ensures STAR_END <= i ==> -29.0 <= TreePoint(t, draws, i).y < 45.0
  {
  }

  /** createChristmasTree: the cone, then the trunk and star overrides of the low indices. */
  method CreateChristmasTree(t: Trig, draws: seq<real>) returns (points: seq<Point>)
    requires |draws| == TREE_DRAWS
    ensures |points| == PARTICLE_COUNT
    ensures forall i :: 0 <= i < PARTICLE_COUNT ==> points[i] == TreePoint(t, draws, i)
  {
    var cone := CreateCone(t, draws);
    var trunk := PlaceTrunk(draws, cone);
    points := PlaceStar(t, trunk);
  }

  /** The first loop: one cone point per particle. */
  method CreateCone(t: Trig, draws: seq<real>) returns (points: seq<Point>)
    requires |draws| == TREE_DRAWS
    ensures |points| == PARTICLE_COUNT
    ensures forall j :: 0 <= j < PARTICLE_COUNT ==> points[j] == ConePoint(t, draws, j)
  {
    points := [];
    for i := 0 to PARTICLE_COUNT
      invariant |points| == i
      invariant forall j :: 0 <= j < i ==> points[j] == ConePoint(t, draws, j)
    {
      var layer := (draws[5 * i + 1] * LAYERS as real).Floor;
      var layerY := TREE_HEIGHT / 2.0 - (layer as real / LAYERS as real) * TREE_HEIGHT;
      var layerWidth := BASE_WIDTH * (1.0 - layer as real / LAYERS as real * 0.7);
      var angle := draws[5 * i + 2] * PI * 2.0;
      var r := draws[5 * i + 3] * layerWidth;
      var branchNoise := t.sin(angle * 8.0 + layer as real * 2.0) * 5.0;
      var p := Point(t.cos(angle) * (r + branchNoise), layerY + (draws[5 * i + 4] - 0.5) * 10.0,
                     t.sin(angle) * (r + branchNoise));
      assert p == ConePoint(t, draws, i);
      points := points + [p];
    }
  }

  /** The trunk loop: indices below TRUNK_END become trunk points. */
  method PlaceTrunk(draws: seq<real>, cone: seq<Point>) returns (points: seq<Point>)
    requires |draws| == TREE_DRAWS && |cone| == PARTICLE_COUNT
    ensures |points| == PARTICLE_COUNT
    ensures forall j :: 0 <= j < TRUNK_END ==> points[j] == TrunkPoint(draws, j)
    ensures forall j :: TRUNK_END <= j < PARTICLE_COUNT ==> points[j] == cone[j]
  {
    points := cone;
    for i := 0 to TRUNK_END
      invariant |points| == PARTICLE_COUNT
      invariant forall j :: 0 <= j < i ==> points[j] == TrunkPoint(draws, j)
      invariant forall j :: i <= j < PARTICLE_COUNT ==> points[j] == cone[j]
    {
      var d := 5 * PARTICLE_COUNT + 3 * i;
      var p := Point((draws[d] - 0.5) * 8.0, -TREE_HEIGHT / 2.0 - draws[d + 1] * 15.0, (draws[d + 2] - 0.5) * 8.0);
      assert p == TrunkPoint(draws, i);
      points := points[i := p];
    }
  }

  /** The star loop: indices in [TRUNK_END, STAR_END) become star points. */
  method PlaceStar(t: Trig, trunk: seq<Point>) returns (points: seq<Point>)
    requires |trunk| == PARTICLE_COUNT
    ensures |points| == PARTICLE_COUNT
    ensures forall j :: TRUNK_END <= j < STAR_END ==> points[j] == StarPoint(t, j)
    ensures forall j :: 0 <= j < PARTICLE_COUNT && !(TRUNK_END <= j < STAR_END) ==> points[j] == trunk[j]
  {
    points := trunk;
    for i := TRUNK_END to STAR_END
      invariant |points| == PARTICLE_COUNT
      invariant forall j :: TRUNK_END <= j < i ==> points[j] == StarPoint(t, j)
      invariant forall j :: 0 <= j < PARTICLE_COUNT && !(TRUNK_END <= j < i) ==> points[j] == trunk[j]
    {
      var angle := (i as real / 50.0) * PI * 2.0;
      var r := 3.0 + t.sin(angle * 5.0) * 2.0;
      var p := Point(t.cos(angle) * r, TREE_HEIGHT / 2.0 + 8.0, t.sin(angle) * r);
      assert p == StarPoint(t, i);
      points := points[i := p];
    }
  }

  // ---------------------------------------------------------------------
  // Photo frame
  // ---------------------------------------------------------------------

  const FRAME_SIZE: real := 40.0
  const FRAME_THICKNESS: real := 8.0
  /** Indices below FRAME_COUNT (70% of the particles) lie on the frame, the rest in the halo. */
  const FRAME_COUNT: nat := 14000

  /** Which edge: floor(4t) mod 4 (0 top, 1 right, 2 bottom, 3 left). */
  function FrameSide(t: real): (side: int)
    ensures 0 <= side < 4
  {
    (t * 4.0).Floor % 4
  }

  /** Position along the edge: (4t) mod 1, for t >= 0. */
  function FramePosition(t: real): (pos: real)
    ensures 0.0 <= pos < 1.0
  {
    t * 4.0 - (t * 4.0).Floor as real
  }

  /** The undisturbed point at position pos along edge side of the 80 x 80 square. */
  function EdgePoint(side: int, pos: real): (xy: (real, real))
    requires 0 <= side < 4 && 0.0 <= pos < 1.0
    ensures (Abs(xy.0) == FRAME_SIZE && -FRAME_SIZE <= xy.1 <= FRAME_SIZE)
         || (Abs(xy.1) == FRAME_SIZE && -FRAME_SIZE <= xy.0 <= FRAME_SIZE)
  {
    if side == 0 then (-FRAME_SIZE + pos * FRAME_SIZE * 2.0, -FRAME_SIZE)
    else if side == 1 then (FRAME_SIZE, -FRAME_SIZE + pos * FRAME_SIZE * 2.0)
    else if side == 2 then (FRAME_SIZE - pos * FRAME_SIZE * 2.0, FRAME_SIZE)
    else (-FRAME_SIZE, FRAME_SIZE - pos * FRAME_SIZE * 2.0)
  }

  /**
   * Point i of the frame when the edge parameter is et: three draws per
   * point in both branches.
   */
  function FramePoint(t: Trig, draws: seq<real>, i: nat, et: real): Point
    requires 3 * i + 2 < |draws|
  {
    if i < FRAME_COUNT then
      var xy := EdgePoint(FrameSide(et), FramePosition(et));
      var sparkle := t.sin(i as real * 0.5) * 3.0;
      Point(xy.0 + (draws[3 * i] - 0.5) * FRAME_THICKNESS,
            xy.1 + (draws[3 * i + 1] - 0.5) * FRAME_THICKNESS,
            (draws[3 * i + 2] - 0.5) * 10.0 + sparkle)
    else
      var angle := draws[3 * i] * PI * 2.0;
      var r := FRAME_SIZE + 20.0 + draws[3 * i + 1] * 40.0;
      Point(t.cos(angle) * r, t.sin(angle) * r, (draws[3 * i + 2] - 0.5) * 30.0)
  }

  /** The edge parameter createPhotoFrame uses: t = i / PARTICLE_COUNT. */
  function EdgeParameterAsWritten(i: nat): real
  {
    i as real / PARTICLE_COUNT as real
  }

  /** The edge parameter that spreads the frame particles over all four edges: t = i / FRAME_COUNT. */
  function EdgeParameter(i: nat): real
  {
    i as real / FRAME_COUNT as real
  }

  /**
   * As written, t stays below 0.7 on the frame branch, so floor(4t) <= 2:
   * the left edge (side 3) never receives a particle, and the bottom edge
   * only its first 80%.
   */
  lemma AsWrittenLeftEdgeUnused(i: nat)
    requires i < FRAME_COUNT
    ensures FrameSide(EdgeParameterAsWritten(i)) != 3
    ensures FrameSide(EdgeParameterAsWritten(i)) == 2 ==> FramePosition(EdgeParameterAsWritten(i)) < 0.8
  {
    var t4 := EdgeParameterAsWritten(i) * 4.0;
    assert t4 < 2.8;
    assert t4.Floor <= 2;
  }

  /** With t = i / FRAME_COUNT every edge receives particles, and each frame index lands on some edge. */
  lemma EveryEdgeUsed(side: int)
    requires 0 <= side < 4
    ensures var i := 3500 * side; i < FRAME_COUNT && FrameSide(EdgeParameter(i)) == side
  {
    var i := 3500 * side;
    assert EdgeParameter(i) * 4.0 == side as real;
  }

  /** A halo point lies on a circle of radius in [60, 100) around the frame. */
  lemma HaloOutsideFrame(t: Trig, draws: seq<real>, i: nat, et: real)
    requires 3 * i + 2 < |draws| && FRAME_COUNT <= i && UnitDraws(draws) && Pythagorean(t)
    ensures var p := FramePoint(t, draws, i, et);
      60.0 * 60.0 <= p.x * p.x + p.y * p.y < 100.0 * 100.0
  {
    var angle := draws[3 * i] * PI * 2.0;
    var r := FRAME_SIZE + 20.0 + draws[3 * i + 1] * 40.0;
    ScaledUnitCircle(t, angle, r);
    SquareBetween(r, 60.0, 100.0);
  }

  lemma SquareBetween(r: real, lo: real, hi: real)
    requires 0.0 < lo <= r < hi
    ensures lo * lo <= r * r < hi * hi
  {
    assert lo * lo <= lo * r <= r * r;
    assert r * r < r * hi < hi * hi;
  }

  /** createPhotoFrame exactly as written. */
  method CreatePhotoFrameAsWritten(t: Trig, draws: seq<real>) returns (points: seq<Point>)
    requires |draws| == 3 * PARTICLE_COUNT
    ensures |points| == PARTICLE_COUNT
    ensures forall i :: 0 <= i < PARTICLE_COUNT ==> points[i] == FramePoint(t, draws, i, EdgeParameterAsWritten(i))
  {
    points := [];
    for i := 0 to PARTICLE_COUNT
      invariant |points| == i
      invariant forall j :: 0 <= j < i ==> points[j] == FramePoint(t, draws, j, EdgeParameterAsWritten(j))
    {
      var et := i as real / PARTICLE_COUNT as real;
      points := points + [FramePoint(t, draws, i, et)];
    }
  }

  /** createPhotoFrame with the edge parameter running over the frame share only. */
  method CreatePhotoFrame(t: Trig, draws: seq<real>) returns (points: seq<Point>)
    requires |draws| == 3 * PARTICLE_COUNT
    ensures |points| == PARTICLE_COUNT
    ensures forall i :: 0 <= i < PARTICLE_COUNT ==> points[i] == FramePoint(t, draws, i, EdgeParameter(i))
  {
    points := [];
    for i := 0 to PARTICLE_COUNT
      invariant |points| == i
      invariant forall j :: 0 <= j < i ==> points[j] == FramePoint(t, draws, j, EdgeParameter(j))
    {
      var et := i as real / FRAME_COUNT as real;
      points := points + [FramePoint(t, draws, i, et)];
    }
  }

  // ---------------------------------------------------------------------
  // The shape table
  // ---------------------------------------------------------------------

  /** A key generateShapes always defines. */
  predicate FixedKey(key: ShapeKey)
  {
    !key.FingerShape?
  }

  /** The per-count text shapes: finger_i for every count with a message. */
  method CreateFingerShapes(raster: Rasterizer) returns (shapes: ShapeMap)
    ensures forall key :: key in shapes <==> key.FingerShape? && 1 <= key.k <= 10
    ensures forall k :: 1 <= k <= 10 ==>
      FingerShape(k) in shapes && shapes[FingerShape(k)] == MessagePoints(raster, Messages.FingerMessage(k).value)
  {
    shapes := map[];
    for i := 1 to 11
      invariant forall key :: key in shapes <==> key.FingerShape? && 1 <= key.k < i
      invariant forall k :: 1 <= k < i ==> FingerShape(k) in shapes && shapes[FingerShape(k)] == MessagePoints(raster, Messages.FingerMessage(k).value)
    {
      var msg := Messages.FingerMessage(i);
      if msg.Some? {
        var pts := CreateMessagePoints(raster, msg.value);
        shapes := shapes[FingerShape(i) := pts];
      }
    }
  }

  /**
   * The five fixed shapes, each as its builder defines it. The photo frame
   * is the one createPhotoFrame builds, with edge parameter i / N.
   */
  ghost predicate FixedShapes(shapes: ShapeMap, t: Trig, raster: Rasterizer,
                              vortexDraws: seq<real>, treeDraws: seq<real>, frameDraws: seq<real>)
    requires |vortexDraws| == 2 * PARTICLE_COUNT && |treeDraws| == TREE_DRAWS && |frameDraws| == 3 * PARTICLE_COUNT
  {
    Vortex in shapes && ChristmasTree in shapes && PhotoFrame in shapes && SpecialLove in shapes && Missing in shapes
    && |shapes[Vortex]| == PARTICLE_COUNT
    && (forall i :: 0 <= i < PARTICLE_COUNT ==> shapes[Vortex][i] == VortexPoint(t, vortexDraws, i))
    && |shapes[ChristmasTree]| == PARTICLE_COUNT
    && (forall i :: 0 <= i < PARTICLE_COUNT ==> shapes[ChristmasTree][i] == TreePoint(t, treeDraws, i))
    && |shapes[PhotoFrame]| == PARTICLE_COUNT
    && (forall i :: 0 <= i < PARTICLE_COUNT ==>
          shapes[PhotoFrame][i] == FramePoint(t, frameDraws, i, EdgeParameterAsWritten(i)))
    && shapes[SpecialLove] == MessagePoints(raster, Messages.SPECIAL_LOVE)
    && shapes[Missing] == MessagePoints(raster, Messages.MISSING)
  }

  /** finger_k holds the cloud of message k, for every count 1 .. 10. */
  ghost predicate FingerShapes(shapes: ShapeMap, raster: Rasterizer)
  {
    forall k :: 1 <= k <= 10 ==>
      FingerShape(k) in shapes && shapes[FingerShape(k)] == MessagePoints(raster, Messages.FingerMessage(k).value)
  }

  /** The object literal of generateShapes: the five shapes under fixed keys. */
  method CreateFixedShapes(t: Trig, raster: Rasterizer, vortexDraws: seq<real>, treeDraws: seq<real>, frameDraws: seq<real>)
    returns (shapes: ShapeMap)
    requires |vortexDraws| == 2 * PARTICLE_COUNT && |treeDraws| == TREE_DRAWS && |frameDraws| == 3 * PARTICLE_COUNT
    ensures forall key :: key in shapes <==> FixedKey(key)
    ensures FixedShapes(shapes, t, raster, vortexDraws, treeDraws, frameDraws)
  {
    var vortex := CreateVortex(t, vortexDraws);
    var tree := CreateChristmasTree(t, treeDraws);
    var frame := CreatePhotoFrameAsWritten(t, frameDraws);
    var love := CreateMessagePoints(raster, Messages.SPECIAL_LOVE);
    var missing := CreateMessagePoints(raster, Messages.MISSING);
    shapes := map[Vortex := vortex, ChristmasTree := tree, PhotoFrame := frame, SpecialLove := love, Missing := missing];
  }

  /** generateShapes: every shape built once, under its fixed key. */
  method GenerateShapes(t: Trig, raster: Rasterizer, vortexDraws: seq<real>, treeDraws: seq<real>, frameDraws: seq<real>)
    returns (shapes: ShapeMap)
    requires |vortexDraws| == 2 * PARTICLE_COUNT && |treeDraws| == TREE_DRAWS && |frameDraws| == 3 * PARTICLE_COUNT
    ensures forall key :: key in shapes <==> FixedKey(key) || 1 <= key.k <= 10
    ensures FixedShapes(shapes, t, raster, vortexDraws, treeDraws, frameDraws)
    ensures FingerShapes(shapes, raster)
  {
    var fixed := CreateFixedShapes(t, raster, vortexDraws, treeDraws, frameDraws);
    var fingers := CreateFingerShapes(raster);
    shapes := fingers + fixed;
  }
}
