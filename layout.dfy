/**
 * Per-index target poses of the three tile layouts (sphere, helix, grid).
 *
 * The grid and the helix height are exact integer arithmetic and are modelled
 * exactly, with JavaScript's operators spelled out: `%` truncates toward zero
 * and `Math.floor(i / n)` rounds toward minus infinity. Everything derived
 * from trigonometry (the sphere's angles, the helix angle and every `lookAt`
 * rotation) is kept symbolic: a pose records the values the arguments of
 * `setFromSphericalCoords` / `setFromCylindricalCoords` are computed from, with
 * the sphere's `-1 + 2i/l` taken as an exact real.
 */
module Layout {

  /** A target pose: where a tile should go and which way it should face. */
  datatype Pose =
      /** `setFromSphericalCoords(radius, acos(cosPhi), sqrt(total * PI) * acos(cosPhi))`,
          turned to look at twice its own position (facing outward). */
    | OnSphere(radius: int, cosPhi: real, total: int)
      /** `setFromCylindricalCoords(radius, step * 0.275 + PI, height)`, turned to look
          at its position with doubled x and z (facing outward, level). */
    | OnCylinder(radius: int, step: int, height: int)
      /** A plain position with the identity rotation. */
    | InGrid(x: int, y: int, z: int)

  const SphereRadius: int := 800
  const HelixRadius: int := 1000

  // ---------------------------------------------------------------------------
  // JavaScript integer arithmetic

  /** The quotient of JavaScript's `a / b` truncated toward zero (`Math.trunc`). */
  function JsQuot(a: int, b: int): (q: int)
    requires b > 0
  {
    if a >= 0 then a / b else -((-a) / b)
  }

  /** JavaScript's `a % b` for a positive divisor: what is left of `a` after taking away
      the truncated quotient's multiple of `b`, so it takes the sign of `a`. */
  function JsRem(a: int, b: int): (r: int)
    requires b > 0
    ensures -b < r < b
    ensures a >= 0 ==> r >= 0
    ensures a < 0 ==> r <= 0
  {
    if a >= 0 then a % b else -((-a) % b)
  }

  /** Together with the bounds and the sign in its contract, this fixes `JsRem` as
      JavaScript's truncated remainder: `a` is the truncated quotient's multiple of `b`
      plus the remainder. */
  lemma JsRemDivision(a: int, b: int)
    requires b > 0
    ensures a == JsQuot(a, b) * b + JsRem(a, b)
  {
    if a >= 0 {
      assert a == (a / b) * b + a % b;
    } else {
      assert -a == ((-a) / b) * b + (-a) % b;
    }
  }

  /** `Math.floor(a / b)` for a positive divisor. */
  function FloorDiv(a: int, b: int): (q: int)
    requires b > 0
    ensures q * b <= a < q * b + b
  {
    a / b
  }

  // ---------------------------------------------------------------------------
  // Grid: a 5 x 5 raster per layer, layers one behind the other

  /** Column of tile `i`: `i % 5`. */
  function GridCol(i: int): (col: int) { JsRem(i, 5) }

  /** Row of tile `i`: `Math.floor(i / 5) % 5`. */
  function GridRow(i: int): (row: int) { JsRem(FloorDiv(i, 5), 5) }

  /** Depth layer of tile `i`: `Math.floor(i / 25)`. */
  function GridLayer(i: int): (layer: int) { FloorDiv(i, 25) }

  /** Grid target of tile `i` as the bulk build computes it. */
  function BulkGridTarget(i: int): (p: Pose)
  {
    InGrid(GridCol(i) * 400 - 800, -GridRow(i) * 400 + 800, GridLayer(i) * 1000 - 1000)
  }

  /** Grid target of tile `i` as the incremental build computes it (depth offset -2000). */
  function IncrementalGridTarget(i: int): (p: Pose)
  {
    InGrid(GridCol(i) * 400 - 800, -GridRow(i) * 400 + 800, GridLayer(i) * 1000 - 2000)
  }

  /** A non-negative index is its layer, row and column read as base-5/base-25 digits. */
  lemma GridCellDecomposition(i: int)
    requires i >= 0
    ensures 0 <= GridCol(i) < 5 && 0 <= GridRow(i) < 5 && 0 <= GridLayer(i)
    ensures i == 25 * GridLayer(i) + 5 * GridRow(i) + GridCol(i)
  {
  }

  /** Every bulk grid target of a real tile lies on the 5 x 5 raster centred on the
      origin, in steps of 400, in a layer at depth -1000 or further back in steps of 1000. */
  lemma BulkGridInRaster(i: int)
    requires i >= 0
    ensures BulkGridTarget(i).x in {-800, -400, 0, 400, 800}
    ensures BulkGridTarget(i).y in {-800, -400, 0, 400, 800}
    ensures BulkGridTarget(i).z >= -1000 && (BulkGridTarget(i).z + 1000) % 1000 == 0
  {
  }

  /** Distinct tiles never share a bulk grid position. */
  lemma BulkGridInjective(i: int, j: int)
    requires i >= 0 && j >= 0
    ensures BulkGridTarget(i) == BulkGridTarget(j) <==> i == j
  {
    GridCellDecomposition(i);
    GridCellDecomposition(j);
    if BulkGridTarget(i) == BulkGridTarget(j) {
      assert GridCol(i) == GridCol(j);
      assert GridRow(i) == GridRow(j);
      assert GridLayer(i) == GridLayer(j);
    }
  }

  /** The incremental grid target keeps the bulk column and row but sits one layer
      (1000 units) further back. */
  lemma IncrementalGridOneLayerBack(i: int)
    ensures IncrementalGridTarget(i).x == BulkGridTarget(i).x
    ensures IncrementalGridTarget(i).y == BulkGridTarget(i).y
    ensures IncrementalGridTarget(i).z == BulkGridTarget(i).z - 1000
  {
  }

  /** Moving 25 tiles back keeps the column and row and steps one layer forward. */
  lemma GridShiftLayer(i: int)
    requires i >= 25
    ensures GridCol(i - 25) == GridCol(i)
    ensures GridRow(i - 25) == GridRow(i)
    ensures GridLayer(i - 25) == GridLayer(i) - 1
  {
  }

  /** An added tile computed for index `i` gets the position the bulk build gives index `j`
      exactly when `i >= 25` and `j == i - 25`; index -1 (an empty document) gets no bulk
      position. Which tile, if any, already occupies that position is not stated here: it is
      the initial-load tile whose grid entry was computed for index `i - 25`, or any
      earlier added tile computed for the same index `i`. */
  lemma IncrementalGridCollision(i: int, j: int)
    requires j >= 0
    ensures IncrementalGridTarget(i) == BulkGridTarget(j) <==> i >= 25 && j == i - 25
  {
    if i < 0 {
      GridCellDecomposition(j);
      assert GridCol(i) <= 0 && GridLayer(i) < 0;
    } else if i >= 25 {
      GridCellDecomposition(i);
      GridShiftLayer(i);
      assert IncrementalGridTarget(i) == BulkGridTarget(i - 25);
      BulkGridInjective(i - 25, j);
    } else {
      GridCellDecomposition(i);
      GridCellDecomposition(j);
      assert IncrementalGridTarget(i).z == -2000;
    }
  }

  // ---------------------------------------------------------------------------
  // Helix

  /** Height of tile `i` on the helix: `-(i * 10) + 450`. */
  function HelixY(i: int): (y: int) { -(i * 10) + 450 }

  /** Helix target of tile `i`; the angle `i * 0.275 + PI` is recorded by its step `i`. */
  function HelixTarget(i: int): (p: Pose) { OnCylinder(HelixRadius, i, HelixY(i)) }

  /** The helix starts at height 450 and every following tile sits 10 units lower. */
  lemma HelixDescends(i: int, j: int)
    ensures HelixY(0) == 450
    ensures HelixY(i + 1) == HelixY(i) - 10
    ensures i < j <==> HelixY(j) < HelixY(i)
  {
  }

  /** Different indices give different helix targets. */
  lemma HelixInjective(i: int, j: int)
    ensures HelixTarget(i) == HelixTarget(j) <==> i == j
  {
  }

  // ---------------------------------------------------------------------------
  // Sphere

  /** Cosine of the polar angle of point `i` of `total`: `-1 + 2 * i / total`. */
  function SphereCosPhi(i: int, total: int): (c: real)
    requires total > 0
  {
    -1.0 + (2 * i) as real / total as real
  }

  /** Sphere target of tile `i` in a bulk build of `total` tiles. */
  function SphereTarget(i: int, total: int): (p: Pose)
    requires 0 <= i < total
    ensures p.OnSphere? && p.radius == SphereRadius && p.total == total
    ensures -1.0 <= p.cosPhi < 1.0
  {
    assert (2 * i) as real / total as real < 2.0 by {
      assert (2 * i) as real < 2.0 * total as real;
    }
    OnSphere(SphereRadius, SphereCosPhi(i, total), total)
  }

  /** Sphere target of an incrementally added tile; the source evaluates the formula at
      `i = 1, total = 1`, whatever the tile's index. */
  function IncrementalSphereTarget(): (p: Pose)
  {
    OnSphere(SphereRadius, SphereCosPhi(1, 1), 1)
  }

  /** Within one bulk build, the polar angle grows strictly with the index, so distinct
      tiles get distinct sphere targets. */
  lemma SphereOrdered(i: int, j: int, total: int)
    requires 0 <= i < total && 0 <= j < total
    ensures i < j <==> SphereTarget(i, total).cosPhi < SphereTarget(j, total).cosPhi
    ensures SphereTarget(i, total) == SphereTarget(j, total) <==> i == j
  {
    var t := total as real;
    var a, b := (2 * i) as real / t, (2 * j) as real / t;
    assert b - a == (2 * (j - i)) as real / t;
    if i < j {
      assert (2 * (j - i)) as real / t > 0.0;
    } else if j < i {
      assert (2 * (j - i)) as real / t < 0.0;
    }
  }

  /** An incrementally added tile always heads for the pole (`cosPhi = 1`, polar angle 0),
      a point no bulk sphere target uses. */
  lemma IncrementalSphereIsPole(i: int, total: int)
    requires 0 <= i < total
    ensures IncrementalSphereTarget().cosPhi == 1.0
    ensures IncrementalSphereTarget() != SphereTarget(i, total)
  {
  }
}
