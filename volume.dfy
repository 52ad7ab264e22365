/**
 * The volume to be visualised: the loader that turns a parsed dataset
 * description into the volume's fields and its placed bricks, and the
 * queries the renderer asks of a loaded volume.
 */
module VolumeModel {
  import opened UnityMath
  import opened Metadata
  import opened Scale
  import opened Placement
  import opened SystemPath

  /**
   * A brick as the volume holds it: its data file, its edge length in
   * voxels, its world-space centre and corners, and the deepest resolution
   * level its data offers.
   */
  datatype Brick = Brick(filename: string, size: int, position: Vec3, boxMin: Vec3, boxMax: Vec3, maxZLevel: int)

  /** The summary of a volume handed to the rendering compute shader. */
  datatype MetaVolume = MetaVolume(
    position: Vec3,
    boxMin: Vec3,
    boxMax: Vec3,
    scale: Vec3,
    numBricks: int,
    isHz: int,
    numBits: int,
    maxGlobalSize: int)

  /** The brick built from entry `e` of the document, with its file under `dataPath`. */
  function MakeBrick(dataPath: string, e: BrickEntry, scale: Vec3, globalSize: seq<int>, maxGlobalSize: int): Brick
    requires |globalSize| == 3 && maxGlobalSize > 0
  {
    var p := PlaceBrick(scale, globalSize, maxGlobalSize, e.size, e.position);
    Brick(dataPath + e.filename, e.size, p.center, p.min, p.max, e.maxZLevel)
  }

  /** The scalar fields of a volume, its file type and its scale. */
  datatype Header = Header(
    dataPath: string,
    minLevel: int,
    maxLevel: int,
    totalBricks: int,
    bytesPerPixel: int,
    bitsPerPixel: int,
    globalSize: seq<int>,
    endianness: string,
    brickDataType: string,
    scale: Vec3)

  /** The header the loader reads from document `doc` under `path`. */
  function HeaderOf(path: string, doc: Document): Header
    requires Loadable(doc)
  {
    Header(path, doc.minLevel, doc.maxLevel, doc.totalBricks, doc.bytesPerPixel,
           Int32Wrap(doc.bytesPerPixel * 8), GlobalSizeArray(doc), doc.endianness,
           Extension(doc.bricks[0].filename), NormalizeScale(doc.scale))
  }

  /** `bs` holds one brick per entry of `doc`, each built and placed under header `h`. */
  ghost predicate PlacedFrom(bs: seq<Brick>, h: Header, doc: Document) {
    && |h.globalSize| == 3 && MaxOf(h.globalSize) > 0
    && |bs| == h.totalBricks <= |doc.bricks|
    && forall i :: 0 <= i < |bs| ==>
         bs[i] == MakeBrick(h.dataPath, doc.bricks[i], h.scale, h.globalSize, MaxOf(h.globalSize))
  }

  /**
   * `z` is the deepest resolution level among the first `n` bricks of `bs`,
   * or 0 when there are none.
   */
  ghost predicate IsMaxZLevel(bs: seq<Brick>, n: int, z: int) {
    && (n <= 0 ==> z == 0)
    && (forall b :: 0 <= b < n && b < |bs| ==> bs[b].maxZLevel <= z)
    && (n > 0 ==> exists b :: 0 <= b < n && b < |bs| && bs[b].maxZLevel == z)
  }

  /** At most one level is the deepest. */
  lemma MaxZLevelUnique(bs: seq<Brick>, n: int, z1: int, z2: int)
    requires n <= |bs| && IsMaxZLevel(bs, n, z1) && IsMaxZLevel(bs, n, z2)
    ensures z1 == z2
  {
    if n > 0 {
      var b1 :| 0 <= b1 < n && b1 < |bs| && bs[b1].maxZLevel == z1;
      var b2 :| 0 <= b2 < n && b2 < |bs| && bs[b2].maxZLevel == z2;
      assert z1 <= z2 && z2 <= z1;
    }
  }

  /** Bricks of depths 2, 5 and 3 have deepest level 5, and no bricks have level 0. */
  lemma MaxZLevelExample(bs: seq<Brick>)
    requires |bs| == 3 && bs[0].maxZLevel == 2 && bs[1].maxZLevel == 5 && bs[2].maxZLevel == 3
    ensures forall z :: IsMaxZLevel(bs, 3, z) <==> z == 5
    ensures forall z :: IsMaxZLevel([], 0, z) <==> z == 0
  {
    assert IsMaxZLevel(bs, 3, 5);
    forall z | IsMaxZLevel(bs, 3, z)
      ensures z == 5
    {
      MaxZLevelUnique(bs, 3, z, 5);
    }
  }

  class Volume {
    var bricks: array<Brick>
    var bitsPerPixel: int
    var bytesPerPixel: int
    var totalBricks: int
    var minLevel: int
    var maxLevel: int
    var maxZLevel: int
    var globalSize: seq<int>
    var dataPath: string
    var position: Vec3
    var brickDataType: string
    var scale: Vec3
    var endianness: string
    /** Bottom, front, left corner of the box around the volume. */
    var boxMin: Vec3
    /** Top, back, right corner of the box around the volume. */
    var boxMax: Vec3

    /** The header fields as they stand. */
    function HeaderFields(): Header
      reads this`dataPath, this`minLevel, this`maxLevel, this`totalBricks, this`bytesPerPixel,
            this`bitsPerPixel, this`globalSize, this`endianness, this`brickDataType, this`scale
    {
      Header(dataPath, minLevel, maxLevel, totalBricks, bytesPerPixel,
             bitsPerPixel, globalSize, endianness, brickDataType, scale)
    }

    /** Every field the loader sets holds what it reads from document `doc` under `path`. */
    ghost predicate LoadedFrom(path: string, doc: Document)
      reads this`dataPath, this`minLevel, this`maxLevel, this`totalBricks, this`bytesPerPixel,
            this`bitsPerPixel, this`globalSize, this`endianness, this`brickDataType, this`scale,
            this`bricks, bricks, this`maxZLevel
    {
      && Loadable(doc)
      && HeaderFields() == HeaderOf(path, doc)
      && PlacedFrom(bricks[..], HeaderFields(), doc)
      && IsMaxZLevel(bricks[..], totalBricks, maxZLevel)
    }

    /** The volume's anchor sits at the centre of its box `[(0, 0, 0), scale]`. */
    ghost predicate Anchored()
      reads this`position, this`boxMin, this`boxMax, this`scale
    {
      position == Mul(Splat(0.5), scale) && boxMin == ZERO && boxMax == scale
    }

    /** Loads the volume described by `doc`, then anchors it. */
    constructor (path: string, doc: Document)
      requires Loadable(doc)
      ensures LoadedFrom(path, doc)
      ensures Anchored()
    {
      bricks := new Brick[0];
      new;
      LoadVolume(path, doc);
      Anchor();
    }

    /** Centres the anchor in the box `[(0, 0, 0), scale]`, as the constructor does after loading. */
    method Anchor()
      modifies this`position, this`boxMin, this`boxMax
      ensures Anchored()
    {
      position := Mul(Splat(0.5), scale);
      boxMin := ZERO;
      boxMax := scale;
    }

    /**
     * Reads every field from `doc`, builds and places one brick per entry,
     * and records the deepest resolution level; the anchor and the box are
     * left as they were.
     */
    method LoadVolume(path: string, doc: Document)
      requires Loadable(doc)
      modifies this`dataPath, this`minLevel, this`maxLevel, this`totalBricks, this`bytesPerPixel,
               this`bitsPerPixel, this`globalSize, this`endianness, this`brickDataType, this`scale,
               this`bricks, this`maxZLevel
      ensures LoadedFrom(path, doc)
      ensures fresh(bricks)
    {
      ReadHeader(path, doc);
      PlaceBricks(doc);
      maxZLevel := CalculateMaxZLevel();
    }

    /** The first phase of loading: the scalar fields, the file type and the normalised scale. */
    method ReadHeader(path: string, doc: Document)
      requires Loadable(doc)
      modifies this`dataPath, this`minLevel, this`maxLevel, this`totalBricks, this`bytesPerPixel,
               this`bitsPerPixel, this`globalSize, this`endianness, this`brickDataType, this`scale
      ensures HeaderFields() == HeaderOf(path, doc)
    {
      dataPath := path;
      minLevel := doc.minLevel;
      maxLevel := doc.maxLevel;
      totalBricks := doc.totalBricks;
      bytesPerPixel := doc.bytesPerPixel;
      bitsPerPixel := Int32Wrap(bytesPerPixel * 8);
      globalSize := GlobalSizeArray(doc);
      endianness := doc.endianness;
      brickDataType := Extension(doc.bricks[0].filename);
      scale := NormalizeScale(doc.scale);
    }

    /** The second phase of loading: a fresh array with one placed brick per entry. */
    method PlaceBricks(doc: Document)
      requires 0 <= totalBricks <= |doc.bricks|
      requires |globalSize| == 3 && MaxOf(globalSize) > 0
      modifies this`bricks
      ensures fresh(bricks)
      ensures PlacedFrom(bricks[..], HeaderFields(), doc)
    {
      bricks := new Brick[totalBricks];
      var maxGlobalSize := MaxOf(globalSize);
      var i := 0;
      while i < bricks.Length
        invariant 0 <= i <= bricks.Length
        invariant forall k :: 0 <= k < i ==>
                    bricks[k] == MakeBrick(dataPath, doc.bricks[k], scale, globalSize, maxGlobalSize)
        modifies bricks
      {
        bricks[i] := MakeBrick(dataPath, doc.bricks[i], scale, globalSize, maxGlobalSize);
        i := i + 1;
      }
    }

    /** The deepest resolution level among the bricks. */
    method CalculateMaxZLevel() returns (z: int)
      requires 0 <= totalBricks <= bricks.Length
      ensures IsMaxZLevel(bricks[..], totalBricks, z)
    {
      var zLevs := new int[totalBricks];
      var b := 0;
      while b < totalBricks
        invariant 0 <= b <= totalBricks
        invariant forall k :: 0 <= k < b ==> zLevs[k] == bricks[k].maxZLevel
      {
        zLevs[b] := bricks[b].maxZLevel;
        b := b + 1;
      }
      z := MaxOf(zLevs[..]);
    }

    /**
     * The largest sample value representable in `bitsPerPixel` bits. The
     * power is taken in floating point and truncated to an integer, so a
     * negative bit count gives a power in (0, 1) that truncates to 0.
     */
    function CalculateIsovalueRange(): (r: int)
      reads this`bitsPerPixel
      requires bitsPerPixel < 31
      ensures bitsPerPixel >= 0 ==> r + 1 == Pow2(bitsPerPixel) && 0 <= r < 0x4000_0000
      ensures bitsPerPixel < 0 ==> r == -1
    {
      if bitsPerPixel < 0 then -1
      else
        Pow2Monotone(bitsPerPixel, 30);
        Pow2Values();
        Pow2(bitsPerPixel) - 1
    }

    /** The volume's summary for the compute shader. */
    function GetMetaVolume(): (mv: MetaVolume)
      reads this`position, this`boxMin, this`boxMax, this`scale, this`totalBricks,
            this`brickDataType, this`bitsPerPixel, this`globalSize
      ensures mv.position == position && mv.boxMin == boxMin && mv.boxMax == boxMax && mv.scale == scale
      ensures mv.numBricks == totalBricks && mv.numBits == bitsPerPixel
      ensures mv.isHz == 0 || mv.isHz == 1
      ensures mv.isHz == 1 <==> brickDataType == ".hz"
      ensures forall k :: 0 <= k < |globalSize| ==> globalSize[k] <= mv.maxGlobalSize
      ensures |globalSize| > 0 ==> exists k :: 0 <= k < |globalSize| && globalSize[k] == mv.maxGlobalSize
      ensures |globalSize| == 0 ==> mv.maxGlobalSize == 0
    {
      MetaVolume(position, boxMin, boxMax, scale, totalBricks,
                 if brickDataType == ".hz" then 1 else 0,
                 bitsPerPixel, MaxOf(globalSize))
    }
  }

  /** The loader's fields for a loaded volume: bit depth, brick count and scale. */
  lemma LoadedFields(v: Volume, path: string, doc: Document)
    requires v.LoadedFrom(path, doc)
    ensures -0x1000_0000 <= doc.bytesPerPixel < 0x1000_0000 ==> v.bitsPerPixel == 8 * doc.bytesPerPixel
    ensures v.bricks.Length == v.totalBricks == doc.totalBricks
    ensures MinOf(Components(v.scale)) == 1.0 && LessEq(Splat(1.0), v.scale)
  {
    NormalizedMinIsOne(doc.scale);
  }

  /**
   * Each loaded brick lies between its corners, which are its size times
   * the scale over the longest extent apart, and is placed from its own
   * entry alone.
   */
  lemma LoadedBrickGeometry(v: Volume, path: string, doc: Document, i: int)
    requires v.LoadedFrom(path, doc)
    requires 0 <= i < doc.totalBricks && doc.bricks[i].size >= 0
    ensures var b := v.bricks[i];
            var e := doc.bricks[i];
            && b.filename == path + e.filename && b.size == e.size && b.maxZLevel == e.maxZLevel
            && LessEq(b.boxMin, b.position) && LessEq(b.position, b.boxMax)
            && Sub(b.boxMax, b.boxMin) == Div(Mul(Splat(e.size as real), v.scale), MaxOf(v.globalSize) as real)
            && b.position == ToWorld(v.scale, v.globalSize, MaxOf(v.globalSize), GridPoint(e.position, e.size as real / 2.0))
  {
    var e := doc.bricks[i];
    var m := MaxOf(v.globalSize);
    NormalizedMinIsOne(doc.scale);
    BrickBoxOrdered(v.scale, v.globalSize, m, e.size, e.position);
    PlaceBrickIsVoxelBoxImage(v.scale, v.globalSize, m, e.size, e.position);
  }

  /**
   * An entry that lies inside the voxel grid on every axis gives a brick
   * inside the volume's box `[boxMin, boxMax]`.
   */
  lemma LoadedBrickInsideBox(v: Volume, path: string, doc: Document, i: int)
    requires v.LoadedFrom(path, doc) && v.Anchored()
    requires 0 <= i < doc.totalBricks
    requires var e := doc.bricks[i];
             && e.size >= 0
             && 0 <= e.position.x && e.position.x + e.size <= doc.globalSize.x
             && 0 <= e.position.y && e.position.y + e.size <= doc.globalSize.y
             && 0 <= e.position.z && e.position.z + e.size <= doc.globalSize.z
    ensures LessEq(v.boxMin, v.bricks[i].boxMin) && LessEq(v.bricks[i].boxMax, v.boxMax)
  {
    var e := doc.bricks[i];
    NormalizedMinIsOne(doc.scale);
    BrickContained(v.scale, v.globalSize, e.size, e.position);
  }

  /**
   * A cubic dataset of unit spacing stored as a single brick: that brick
   * fills the volume's box and is centred on the volume's anchor.
   */
  lemma SingleBrickFillsBox(v: Volume, path: string, doc: Document, n: int)
    requires v.LoadedFrom(path, doc) && v.Anchored()
    requires n > 0 && doc.globalSize == Int3(n, n, n) && doc.scale == Vec3(1.0, 1.0, 1.0)
    requires doc.totalBricks == 1 && doc.bricks[0].size == n && doc.bricks[0].position == Int3(0, 0, 0)
    ensures v.bricks[0].boxMin == v.boxMin == ZERO
    ensures v.bricks[0].boxMax == v.boxMax == Vec3(1.0, 1.0, 1.0)
    ensures v.bricks[0].position == v.position == Vec3(0.5, 0.5, 0.5)
  {
    var unit := Vec3(1.0, 1.0, 1.0);
    NormalizeUnitScale();
    assert v.globalSize == [n, n, n];
    MaxOfCube(n);
    assert v.bricks[0] == MakeBrick(path, doc.bricks[0], unit, [n, n, n], n);
    WholeCubePlacement(n);
  }

  /** The loaded maximum Z-level is the deepest level any brick entry reports. */
  lemma LoadedMaxZLevel(v: Volume, path: string, doc: Document)
    requires v.LoadedFrom(path, doc)
    ensures doc.totalBricks == 0 ==> v.maxZLevel == 0
    ensures forall i :: 0 <= i < doc.totalBricks ==> doc.bricks[i].maxZLevel <= v.maxZLevel
    ensures doc.totalBricks > 0 ==> exists i :: 0 <= i < doc.totalBricks && doc.bricks[i].maxZLevel == v.maxZLevel
  {
    forall i | 0 <= i < doc.totalBricks
      ensures v.bricks[i].maxZLevel == doc.bricks[i].maxZLevel
    {
    }
    if doc.totalBricks > 0 {
      var b :| 0 <= b < v.totalBricks && b < v.bricks.Length && v.bricks[b].maxZLevel == v.maxZLevel;
      assert doc.bricks[b].maxZLevel == v.maxZLevel;
    }
  }

  /** The isovalue range of a loaded volume is `256^bytesPerPixel - 1`: 255 for 8-bit data, 65535 for 16-bit data. */
  lemma LoadedIsovalueRange(v: Volume, path: string, doc: Document)
    requires v.LoadedFrom(path, doc) && 0 <= doc.bytesPerPixel <= 3
    ensures v.bitsPerPixel == 8 * doc.bytesPerPixel
    ensures v.CalculateIsovalueRange() + 1 == Pow2(8 * doc.bytesPerPixel)
    ensures doc.bytesPerPixel == 1 ==> v.CalculateIsovalueRange() == 255
    ensures doc.bytesPerPixel == 2 ==> v.CalculateIsovalueRange() == 65535
  {
    Pow2Values();
  }

  /**
   * The shader summary of a constructed volume: the anchor and the box, the
   * document's brick count, a positive longest extent, and the `.hz`
   * sampling flag set from the first entry's file type.
   */
  lemma ConstructedMetaVolume(v: Volume, path: string, doc: Document)
    requires v.LoadedFrom(path, doc) && v.Anchored()
    ensures var mv := v.GetMetaVolume();
            && mv.position == Mul(Splat(0.5), mv.scale) && mv.boxMin == ZERO && mv.boxMax == mv.scale
            && MinOf(Components(mv.scale)) == 1.0
            && mv.numBricks == doc.totalBricks
            && mv.maxGlobalSize > 0
            && mv.maxGlobalSize == MaxOf([doc.globalSize.x, doc.globalSize.y, doc.globalSize.z])
            && (mv.isHz == 1 <==> Extension(doc.bricks[0].filename) == ".hz")
  {
    NormalizedMinIsOne(doc.scale);
  }

  /** `.hz` bricks select the hierarchical sampling path, `.raw` bricks the plain one. */
  lemma FileTypeSelectsSampling(v: Volume, path: string, doc: Document)
    requires v.LoadedFrom(path, doc)
    ensures doc.bricks[0].filename == "bricks/brick_0.hz" ==> v.GetMetaVolume().isHz == 1
    ensures doc.bricks[0].filename == "brick_0.raw" ==> v.GetMetaVolume().isHz == 0
  {
    ExtensionExamples();
  }
}
