/**
 * The placement of each brick inside the volume's world-space box.
 *
 * World space is set up so that the dataset's longest axis spans one unit
 * before scaling: a voxel coordinate is re-centred inside a cube whose edge
 * is the longest global extent, multiplied by the normalised scale and
 * divided by that extent.
 */
module Placement {
  import opened UnityMath
  import opened Metadata

  /** A brick's world-space centre and its bottom-front-left and top-back-right corners. */
  datatype BrickBox = BrickBox(center: Vec3, min: Vec3, max: Vec3)

  /**
   * Places a cubic brick of edge `size` whose voxel-grid origin is
   * `position`, in a dataset of extents `globalSize` whose longest extent
   * is `maxGlobalSize` and whose scale is `scale`.
   */
  function PlaceBrick(scale: Vec3, globalSize: seq<int>, maxGlobalSize: int, size: int, position: Int3): BrickBox
    requires |globalSize| == 3 && maxGlobalSize > 0
  {
    var maxG := maxGlobalSize as real;
    // centre of the enclosing cube and of the dataset itself
    var boundingVolumeCenter := Div(Mul(Splat(maxG), scale), 2.0);
    var volumeCenter := Div(Mul(Vec3(globalSize[0] as real, globalSize[1] as real, globalSize[2] as real), scale), 2.0);
    // the dataset's corner inside the enclosing cube
    var volumeCornerVoxelSpace := Sub(boundingVolumeCenter, volumeCenter);
    var newBrickPosition := Mul(Vec3(position.x as real, position.y as real, position.z as real), scale);
    var brickPositionVoxelSpace := Add(volumeCornerVoxelSpace, newBrickPosition);
    var brickOffsetVoxelSpace := Div(Mul(Splat(size as real), scale), 2.0);
    var finalBrickPosition := Div(Add(brickPositionVoxelSpace, brickOffsetVoxelSpace), maxG);
    BrickBox(finalBrickPosition,
             Sub(finalBrickPosition, Div(brickOffsetVoxelSpace, maxG)),
             Add(finalBrickPosition, Div(brickOffsetVoxelSpace, maxG)))
  }

  /**
   * Reference map from voxel space to world space on one axis of scale `s`
   * and extent `g`, in an enclosing cube of edge `m`: shift the dataset so
   * that it is centred in the cube, then scale by `s / m`.
   */
  function WorldCoord(s: real, g: int, m: int, v: real): real
    requires m > 0
  {
    ((m - g) as real / 2.0 + v) * s / m as real
  }

  /** `WorldCoord` on all three axes. */
  function ToWorld(scale: Vec3, globalSize: seq<int>, m: int, v: Vec3): Vec3
    requires |globalSize| == 3 && m > 0
  {
    Vec3(WorldCoord(scale.x, globalSize[0], m, v.x),
         WorldCoord(scale.y, globalSize[1], m, v.y),
         WorldCoord(scale.z, globalSize[2], m, v.z))
  }

  /** The voxel-grid corner `position + offset` of a brick. */
  function GridPoint(position: Int3, offset: real): Vec3 {
    Vec3(position.x as real + offset, position.y as real + offset, position.z as real + offset)
  }

  /** The numerator of a brick centre's coordinate on one axis, as `PlaceBrick` sums it up. */
  ghost function AxisSum(s: real, g: int, m: int, p: int, size: int): real {
    m as real * s / 2.0 - g as real * s / 2.0 + p as real * s + size as real * s / 2.0
  }

  /** Half a brick's world-space extent on one axis. */
  ghost function AxisHalf(s: real, m: int, size: int): real
    requires m > 0
  {
    size as real * s / 2.0 / m as real
  }

  /** The sum `PlaceBrick` divides by the longest extent, axis by axis. */
  lemma SumByAxis(scale: Vec3, globalSize: seq<int>, m: int, size: int, position: Int3)
    requires |globalSize| == 3
    ensures var mr := m as real;
            var g := Vec3(globalSize[0] as real, globalSize[1] as real, globalSize[2] as real);
            var pos := Vec3(position.x as real, position.y as real, position.z as real);
            Add(Add(Sub(Div(Mul(Splat(mr), scale), 2.0), Div(Mul(g, scale), 2.0)), Mul(pos, scale)),
                Div(Mul(Splat(size as real), scale), 2.0))
            == Vec3(AxisSum(scale.x, globalSize[0], m, position.x, size),
                    AxisSum(scale.y, globalSize[1], m, position.y, size),
                    AxisSum(scale.z, globalSize[2], m, position.z, size))
  {
  }

  /** The half extent `PlaceBrick` subtracts and adds, axis by axis. */
  lemma HalfByAxis(scale: Vec3, m: int, size: int)
    requires m > 0
    ensures Div(Div(Mul(Splat(size as real), scale), 2.0), m as real)
            == Vec3(AxisHalf(scale.x, m, size), AxisHalf(scale.y, m, size), AxisHalf(scale.z, m, size))
  {
  }

  /** `PlaceBrick` spelled out axis by axis. */
  lemma PlaceBrickByAxis(scale: Vec3, globalSize: seq<int>, m: int, size: int, position: Int3)
    requires |globalSize| == 3 && m > 0
    ensures var p := PlaceBrick(scale, globalSize, m, size, position);
            var half := Vec3(AxisHalf(scale.x, m, size), AxisHalf(scale.y, m, size), AxisHalf(scale.z, m, size));
            && p.center == Vec3(AxisSum(scale.x, globalSize[0], m, position.x, size) / m as real,
                                AxisSum(scale.y, globalSize[1], m, position.y, size) / m as real,
                                AxisSum(scale.z, globalSize[2], m, position.z, size) / m as real)
            && p.min == Sub(p.center, half)
            && p.max == Add(p.center, half)
  {
    SumByAxis(scale, globalSize, m, size, position);
    HalfByAxis(scale, m, size);
  }

  /** The per-axis arithmetic behind `PlaceBrickIsVoxelBoxImage`. */
  lemma AxisImage(s: real, g: int, m: int, p: int, size: int)
    requires m > 0
    ensures AxisSum(s, g, m, p, size) / m as real == WorldCoord(s, g, m, p as real + size as real / 2.0)
    ensures AxisSum(s, g, m, p, size) / m as real - AxisHalf(s, m, size) == WorldCoord(s, g, m, p as real)
    ensures AxisSum(s, g, m, p, size) / m as real + AxisHalf(s, m, size) == WorldCoord(s, g, m, p as real + size as real)
  {
    var mr := m as real;
    var offset := size as real * s / 2.0;
    var num := mr * s / 2.0 - g as real * s / 2.0 + p as real * s;
    assert num == ((m - g) as real / 2.0 + p as real) * s;
    assert num + offset == ((m - g) as real / 2.0 + (p as real + size as real / 2.0)) * s;
    assert num + 2.0 * offset == ((m - g) as real / 2.0 + (p as real + size as real)) * s;
    DivSum(num, offset, mr);
    DivSum(num + offset, offset, mr);
  }

  lemma DivSum(a: real, b: real, d: real)
    requires d > 0.0
    ensures (a + b) / d == a / d + b / d
    ensures (a + b) / d - b / d == a / d
  {
  }

  /**
   * A brick's centre and corners are the images under `ToWorld` of its
   * centre and corners in the voxel grid: the placement of one brick
   * depends on its own size and position and on the dataset-wide scale and
   * extents only.
   */
  lemma PlaceBrickIsVoxelBoxImage(scale: Vec3, globalSize: seq<int>, m: int, size: int, position: Int3)
    requires |globalSize| == 3 && m > 0
    ensures var p := PlaceBrick(scale, globalSize, m, size, position);
            && p.center == ToWorld(scale, globalSize, m, GridPoint(position, size as real / 2.0))
            && p.min == ToWorld(scale, globalSize, m, GridPoint(position, 0.0))
            && p.max == ToWorld(scale, globalSize, m, GridPoint(position, size as real))
  {
    PlaceBrickByAxis(scale, globalSize, m, size, position);
    AxisImage(scale.x, globalSize[0], m, position.x, size);
    AxisImage(scale.y, globalSize[1], m, position.y, size);
    AxisImage(scale.z, globalSize[2], m, position.z, size);
  }

  /**
   * A brick's corners bracket its centre, which is their midpoint, and its
   * extent is its size times the scale over the longest global extent.
   */
  lemma BrickBoxOrdered(scale: Vec3, globalSize: seq<int>, m: int, size: int, position: Int3)
    requires |globalSize| == 3 && m > 0
    requires size >= 0 && LessEq(ZERO, scale)
    ensures var p := PlaceBrick(scale, globalSize, m, size, position);
            && LessEq(p.min, p.center) && LessEq(p.center, p.max)
            && Sub(p.max, p.min) == Div(Mul(Splat(size as real), scale), m as real)
            && p.center == Div(Add(p.min, p.max), 2.0)
  {
    PlaceBrickByAxis(scale, globalSize, m, size, position);
    var p := PlaceBrick(scale, globalSize, m, size, position);
    AxisExtent(size, scale.x, m, p.center.x);
    AxisExtent(size, scale.y, m, p.center.y);
    AxisExtent(size, scale.z, m, p.center.z);
    ExtentByAxis(scale, m, size);
  }

  /** A brick's world-space extent, axis by axis. */
  lemma ExtentByAxis(scale: Vec3, m: int, size: int)
    requires m > 0
    ensures Div(Mul(Splat(size as real), scale), m as real)
            == Vec3(size as real * scale.x / m as real, size as real * scale.y / m as real, size as real * scale.z / m as real)
  {
  }

  lemma AxisExtent(size: int, s: real, m: int, c: real)
    requires size >= 0 && s >= 0.0 && m > 0
    ensures 0.0 <= AxisHalf(s, m, size)
    ensures (c + AxisHalf(s, m, size)) - (c - AxisHalf(s, m, size)) == size as real * s / m as real
    ensures ((c - AxisHalf(s, m, size)) + (c + AxisHalf(s, m, size))) / 2.0 == c
  {
    assert size as real * s >= 0.0;
  }

  /** The world map preserves order along an axis of non-negative scale. */
  lemma WorldCoordMonotone(s: real, g: int, m: int, v: real, w: real)
    requires m > 0 && s >= 0.0 && v <= w
    ensures WorldCoord(s, g, m, v) <= WorldCoord(s, g, m, w)
  {
    var a := (m - g) as real / 2.0;
    assert (a + w) * s - (a + v) * s == (w - v) * s;
  }

  /**
   * The dataset's own extent `[0, g]` on an axis lands symmetrically about
   * `s / 2` (the volume's anchor) and, since `g` is at most the longest
   * extent `m`, inside `[0, s]`.
   */
  lemma DatasetCentred(s: real, g: int, m: int)
    requires 0 <= g <= m && 0 < m && s >= 0.0
    ensures WorldCoord(s, g, m, 0.0) + WorldCoord(s, g, m, g as real) == s
    ensures 0.0 <= WorldCoord(s, g, m, 0.0)
    ensures WorldCoord(s, g, m, g as real) <= s
  {
    var mr := m as real;
    var lo := (m - g) as real / 2.0 * s;
    var hi := ((m - g) as real / 2.0 + g as real) * s;
    assert lo + hi == mr * s;
    assert lo >= 0.0;
    assert hi <= mr * s by {
      assert mr * s - hi == (m - g) as real / 2.0 * s;
    }
    DivSum(lo, hi, mr);
    assert mr * s / mr == s;
  }

  lemma AxisContained(s: real, g: int, m: int, p: int, size: int)
    requires 0 <= p && 0 <= size && p + size <= g <= m && 0 < m && s >= 0.0
    ensures 0.0 <= WorldCoord(s, g, m, p as real)
    ensures WorldCoord(s, g, m, p as real + size as real) <= s
  {
    DatasetCentred(s, g, m);
    WorldCoordMonotone(s, g, m, 0.0, p as real);
    WorldCoordMonotone(s, g, m, p as real + size as real, g as real);
  }

  /**
   * A brick that lies inside the voxel grid on every axis lies inside the
   * volume's box `[(0, 0, 0), scale]`.
   */
  lemma BrickContained(scale: Vec3, globalSize: seq<int>, size: int, position: Int3)
    requires |globalSize| == 3 && MaxOf(globalSize) > 0
    requires size >= 0 && LessEq(ZERO, scale)
    requires 0 <= position.x && position.x + size <= globalSize[0]
    requires 0 <= position.y && position.y + size <= globalSize[1]
    requires 0 <= position.z && position.z + size <= globalSize[2]
    ensures var p := PlaceBrick(scale, globalSize, MaxOf(globalSize), size, position);
            LessEq(ZERO, p.min) && LessEq(p.max, scale)
  {
    var m := MaxOf(globalSize);
    PlaceBrickIsVoxelBoxImage(scale, globalSize, m, size, position);
    AxisContained(scale.x, globalSize[0], m, position.x, size);
    AxisContained(scale.y, globalSize[1], m, position.y, size);
    AxisContained(scale.z, globalSize[2], m, position.z, size);
  }

  /**
   * A single brick filling a cubic dataset of unit scale covers the unit
   * cube, and its centre is the volume's anchor `(0.5, 0.5, 0.5)`.
   */
  lemma WholeCubePlacement(n: int)
    requires n > 0
    ensures var p := PlaceBrick(Vec3(1.0, 1.0, 1.0), [n, n, n], n, n, Int3(0, 0, 0));
            && p.min == ZERO && p.max == Vec3(1.0, 1.0, 1.0) && p.center == Vec3(0.5, 0.5, 0.5)
  {
    PlaceBrickIsVoxelBoxImage(Vec3(1.0, 1.0, 1.0), [n, n, n], n, n, Int3(0, 0, 0));
    UnitAxis(n);
  }

  lemma UnitAxis(n: int)
    requires n > 0
    ensures WorldCoord(1.0, n, n, 0.0) == 0.0
    ensures WorldCoord(1.0, n, n, n as real / 2.0) == 0.5
    ensures WorldCoord(1.0, n, n, n as real) == 1.0
  {
  }

  /**
   * A non-cubic dataset of 256 x 256 x 128 voxels with scale (1, 1, 2): a
   * 64-voxel brick at (128, 128, 0) is centred at (0.625, 0.625, 0.75).
   */
  lemma NonCubicPlacement()
    ensures PlaceBrick(Vec3(1.0, 1.0, 2.0), [256, 256, 128], 256, 64, Int3(128, 128, 0)).center
            == Vec3(0.625, 0.625, 0.75)
  {
    PlaceBrickIsVoxelBoxImage(Vec3(1.0, 1.0, 2.0), [256, 256, 128], 256, 64, Int3(128, 128, 0));
  }
}
