# PRISM volume loader, modelled in Dafny

PRISM renders bricked volume datasets. Its `Volume` class loads a dataset from a metadata
document and turns it into a spatial model:

- the scalar fields (levels, brick count, bytes and bits per pixel, extents, endianness);
- the brick file type, taken from the first brick's file name;
- the voxel spacing, normalised so that its finest axis is 1;
- one brick for each of the first `totalBricks` entries, each with a world-space centre and
  corners; a brick that lies inside the voxel grid lies inside the volume's box
  `[(0, 0, 0), scale]`;
- the deepest resolution level ("Z-level") any of those bricks offers, computed by the private
  `calculateMaxZlevel` at the end of the load.

The constructor then anchors the volume at the centre of its box `[(0, 0, 0), scale]`. Two
queries work on a loaded volume: the isovalue range `2^bits - 1` and the summary record for the
rendering compute shader.

This project models that loader and proves what it computes. Files:

- `unity_math.dfy` (`UnityMath`): `Vector3` over exact reals, `Mathf.Min` / `Mathf.Max` on
  arrays, powers of two, and C#'s 32-bit wrap-around.
- `metadata.dfy` (`Metadata`): the already-parsed metadata document.
- `system_path.dfy` (`SystemPath`): `Path.GetExtension`.
- `scale.dfy` (`Scale`): scale normalisation and its properties.
- `placement.dfy` (`Placement`): the per-brick placement formula, a reference voxel-to-world
  map, and the order and containment properties.
- `volume.dfy` (`VolumeModel`): the `Volume` class (fields, constructor, `LoadVolume`,
  `CalculateMaxZLevel`, `CalculateIsovalueRange`, `GetMetaVolume`) and lemmas about a loaded
  volume.

`Volume` is a class whose methods assign its fields, as the source's do. `LoadVolume` is split
into its two phases:

- `ReadHeader` reads the scalar fields, the file type and the scale.
- `PlaceBricks` fills a fresh `bricks` array in the source's loop.

`LoadVolume` then stores `CalculateMaxZLevel()`, which fills a `zLevs` array in a loop before
reducing it.

`LoadedFrom(path, doc)` states the whole loaded state as a function of the inputs:

- the header fields equal `HeaderOf(path, doc)`;
- brick `i` equals `MakeBrick(path, doc.bricks[i], ...)`;
- `maxZLevel` is the maximum of the bricks' levels.

The lemmas derive what the source promises from `LoadedFrom` and `Anchored`.

Three points where the code differs from what one might expect of such a loader:

- One might expect normalisation never to shrink the spacing. The code divides by the smallest
  component, so it grows or keeps every component exactly when that component is at most 1, and
  shrinks the spacing otherwise (`Scale.NormalizeScaleGrowsIff`).
- One might expect typed load errors and a failed state. The code swallows every exception in
  one `catch` and has no error path. The model has none either. It demands of the document, in
  `Metadata.Loadable`, that the entries it reads are present, that the spacing is positive and
  that the longest extent is positive. Some of these exclude inputs the code computes on without
  failing; "## Left out" lists them.
- One might expect a `totalBricks` that differs from the number of entries to be rejected. The
  code reads only the first `totalBricks` entries and ignores any others, and so does the model.

## Model

Source paths are relative to the repository root.

| member | source | states |
|---|---|---|
| UnityMath.MaxOf | VolumeVisualizationDesktop/Assets/Scripts/ObjectClasses/Volume.cs:319 | `Mathf.Max` of an int array: 0 for an empty array, otherwise an element that bounds every element |
| UnityMath.MinOf | VolumeVisualizationDesktop/Assets/Scripts/ObjectClasses/Volume.cs:313 | `Mathf.Min` of a float array: 0 for an empty array, otherwise an element bounded by every element |
| UnityMath.MinOfComponents | VolumeVisualizationDesktop/Assets/Scripts/ObjectClasses/Volume.cs:313 | the minimum of the three spacings is at most each of them and equals one of them |
| UnityMath.MaxOfCube | VolumeVisualizationDesktop/Assets/Scripts/ObjectClasses/Volume.cs:319 | the longest extent of an n x n x n grid is n |
| UnityMath.Pow2 | VolumeVisualizationDesktop/Assets/Scripts/ObjectClasses/Volume.cs:405 | a power of two is at least 1 |
| UnityMath.Pow2Monotone | VolumeVisualizationDesktop/Assets/Scripts/ObjectClasses/Volume.cs:405 | powers of two grow with the exponent |
| UnityMath.Pow2Sum | VolumeVisualizationDesktop/Assets/Scripts/ObjectClasses/Volume.cs:405 | `2^(a+b) == 2^a * 2^b` |
| UnityMath.Pow2Values | VolumeVisualizationDesktop/Assets/Scripts/ObjectClasses/Volume.cs:405 | `2^8`, `2^16`, `2^24` and `2^30` have their familiar values |
| UnityMath.Int32Wrap | VolumeVisualizationDesktop/Assets/Scripts/ObjectClasses/Volume.cs:291 | unchecked 32-bit `int` arithmetic: the result is in `[-2^31, 2^31)`, congruent to the exact value modulo `2^32`, and equal to it when the exact value fits |
| SystemPath.ScanBackSuffix | VolumeVisualizationDesktop/Assets/Scripts/ObjectClasses/Volume.cs:301 | the backward scan finds nothing, or a suffix of at least two characters that starts with '.' before the scan position |
| SystemPath.ExtensionIsSuffix | VolumeVisualizationDesktop/Assets/Scripts/ObjectClasses/Volume.cs:301 | an extension is empty or a suffix of the path that starts with '.' and has more than the '.' |
| SystemPath.ScanBackFinds | VolumeVisualizationDesktop/Assets/Scripts/ObjectClasses/Volume.cs:301 | a scan that starts past an extension's '.', over plain characters only, returns that extension |
| SystemPath.ScanBackOnlyAtExtension | VolumeVisualizationDesktop/Assets/Scripts/ObjectClasses/Volume.cs:301 | what the scan returns starts at an extension's '.' |
| SystemPath.ExtensionCharacterised | VolumeVisualizationDesktop/Assets/Scripts/ObjectClasses/Volume.cs:301 | the file type is empty exactly when no '.' is followed by a non-empty tail free of '.' and separators; otherwise it is the text from that '.' on |
| SystemPath.ExtensionExamples | VolumeVisualizationDesktop/Assets/Scripts/ObjectClasses/Volume.cs:301 | `bricks/brick_0.hz` gives `.hz`, `brick_0.raw` gives `.raw`, and `brick.` gives the empty string |
| Scale.NormalizedMinIsOne | VolumeVisualizationDesktop/Assets/Scripts/ObjectClasses/Volume.cs:308-315 | for a positive raw spacing, the normalised scale has minimum exactly 1 and every component at least 1 |
| Scale.NormalizeScaleKeepsRatios | VolumeVisualizationDesktop/Assets/Scripts/ObjectClasses/Volume.cs:308-315 | normalisation keeps the pairwise ratios of the raw components |
| Scale.NormalizeScaleGrowsIff | VolumeVisualizationDesktop/Assets/Scripts/ObjectClasses/Volume.cs:313-315 | the normalised scale is component-wise at least the raw one if and only if the smallest raw component is at most 1 |
| Scale.NormalizeScaleIdempotent | VolumeVisualizationDesktop/Assets/Scripts/ObjectClasses/Volume.cs:313-315 | a normalised scale is positive and is its own normalisation |
| Scale.NormalizeUnitScale | VolumeVisualizationDesktop/Assets/Scripts/ObjectClasses/Volume.cs:313-315 | the spacing (1, 1, 1) normalises to itself |
| Scale.NormalizeScaleExample | VolumeVisualizationDesktop/Assets/Scripts/ObjectClasses/Volume.cs:313-315 | the spacing (1, 1, 2) normalises to itself |
| Placement.PlaceBrickByAxis | VolumeVisualizationDesktop/Assets/Scripts/ObjectClasses/Volume.cs:319-366 | the centre is `((maxG*s - g*s)/2 + p*s + size*s/2) / maxG` per axis; the corners are the centre minus and plus `size*s/2/maxG` |
| Placement.PlaceBrickIsVoxelBoxImage | VolumeVisualizationDesktop/Assets/Scripts/ObjectClasses/Volume.cs:327-366 | the centre and corners are the images of the brick's voxel-grid centre and corners under one fixed voxel-to-world map, so a brick's placement depends only on its own entry and the dataset-wide scale and extents |
| Placement.BrickBoxOrdered | VolumeVisualizationDesktop/Assets/Scripts/ObjectClasses/Volume.cs:357-366 | for `size >= 0` and a non-negative scale, min <= centre <= max component-wise, the centre is the corners' midpoint, and `max - min == size*scale/maxG` |
| Placement.DatasetCentred | VolumeVisualizationDesktop/Assets/Scripts/ObjectClasses/Volume.cs:327-338 | on each axis the dataset's extent lands symmetrically about the anchor `s/2` and inside `[0, s]` |
| Placement.BrickContained | VolumeVisualizationDesktop/Assets/Scripts/ObjectClasses/Volume.cs:327-366 | a brick inside the voxel grid on every axis is placed inside `[(0, 0, 0), scale]` |
| Placement.WholeCubePlacement | VolumeVisualizationDesktop/Assets/Scripts/ObjectClasses/Volume.cs:327-366 | one brick filling a cubic grid of unit scale spans `(0, 0, 0)` to `(1, 1, 1)` and is centred at `(0.5, 0.5, 0.5)` |
| Placement.NonCubicPlacement | VolumeVisualizationDesktop/Assets/Scripts/ObjectClasses/Volume.cs:327-366 | in a 256 x 256 x 128 grid of scale (1, 1, 2), a 64-voxel brick at (128, 128, 0) is centred at (0.625, 0.625, 0.75) |
| VolumeModel.MaxZLevelUnique | VolumeVisualizationDesktop/Assets/Scripts/ObjectClasses/Volume.cs:387-397 | the deepest level among a set of bricks is unique |
| VolumeModel.MaxZLevelExample | VolumeVisualizationDesktop/Assets/Scripts/ObjectClasses/Volume.cs:387-397 | bricks of depths 2, 5 and 3 have deepest level 5, and no bricks have level 0 |
| VolumeModel.Volume.constructor | VolumeVisualizationDesktop/Assets/Scripts/ObjectClasses/Volume.cs:234-263 | a constructed volume is loaded from the document and anchored in its box |
| VolumeModel.Volume.Anchor | VolumeVisualizationDesktop/Assets/Scripts/ObjectClasses/Volume.cs:249-262 | afterwards `position == 0.5*scale`, `boxMin == (0, 0, 0)` and `boxMax == scale`, with nothing else changed |
| VolumeModel.Volume.LoadVolume | VolumeVisualizationDesktop/Assets/Scripts/ObjectClasses/Volume.cs:271-385 | afterwards every loaded field, every brick and the maximum Z-level are what the document gives; `bricks` is a fresh array; the anchor and the box are untouched |
| VolumeModel.Volume.ReadHeader | VolumeVisualizationDesktop/Assets/Scripts/ObjectClasses/Volume.cs:276-315 | afterwards the header fields equal `HeaderOf(path, doc)`: the data path, the document's scalars, `bytesPerPixel*8` with 32-bit wrap, the extents, the first entry's extension and the normalised scale |
| VolumeModel.Volume.PlaceBricks | VolumeVisualizationDesktop/Assets/Scripts/ObjectClasses/Volume.cs:341-374 | afterwards `bricks` is a fresh array of exactly `totalBricks` bricks, brick `i` built and placed from entry `i` |
| VolumeModel.Volume.CalculateMaxZLevel | VolumeVisualizationDesktop/Assets/Scripts/ObjectClasses/Volume.cs:387-397 | the result is the largest `maxZLevel` among the first `totalBricks` bricks, attained by one of them, or 0 when there are none |
| VolumeModel.Volume.CalculateIsovalueRange | VolumeVisualizationDesktop/Assets/Scripts/ObjectClasses/Volume.cs:403-406 | for `0 <= bits < 31` the result is `2^bits - 1`, in `[0, 2^30)`; for negative bits it is -1 |
| VolumeModel.Volume.GetMetaVolume | VolumeVisualizationDesktop/Assets/Scripts/ObjectClasses/Volume.cs:412-424 | the vectors are copied; `numBricks` and `numBits` are the brick count and bit depth; `isHz` is 1 if and only if the file type is `.hz`, and 0 otherwise; `maxGlobalSize` is the largest extent |
| VolumeModel.LoadedFields | VolumeVisualizationDesktop/Assets/Scripts/ObjectClasses/Volume.cs:289-315 | after a load `bitsPerPixel == 8*bytesPerPixel` whenever that does not overflow; the array holds exactly `totalBricks` bricks; the scale has minimum 1 and every component at least 1 |
| VolumeModel.LoadedBrickGeometry | VolumeVisualizationDesktop/Assets/Scripts/ObjectClasses/Volume.cs:341-369 | each loaded brick has its entry's file (under the data path), size and level; its corners bracket its centre; its extent is `size*scale/maxG`; its centre is the world image of its voxel-grid centre |
| VolumeModel.LoadedBrickInsideBox | VolumeVisualizationDesktop/Assets/Scripts/ObjectClasses/Volume.cs:327-366 | a loaded, anchored volume keeps every brick that lies inside the voxel grid inside `[boxMin, boxMax]` |
| VolumeModel.SingleBrickFillsBox | VolumeVisualizationDesktop/Assets/Scripts/ObjectClasses/Volume.cs:249-366 | for a cubic unit-spacing dataset stored as one brick, that brick's corners are the volume's box and its centre is the volume's anchor `(0.5, 0.5, 0.5)` |
| VolumeModel.LoadedMaxZLevel | VolumeVisualizationDesktop/Assets/Scripts/ObjectClasses/Volume.cs:377-397 | the loaded maximum Z-level is the deepest level any of the `totalBricks` entries reports, attained by one of them, or 0 with no entries |
| VolumeModel.LoadedIsovalueRange | VolumeVisualizationDesktop/Assets/Scripts/ObjectClasses/Volume.cs:403-406 | for one to three bytes per pixel the range is `2^(8*bytes) - 1`: 255 for one byte, 65535 for two |
| VolumeModel.ConstructedMetaVolume | VolumeVisualizationDesktop/Assets/Scripts/ObjectClasses/Volume.cs:412-424 | a constructed volume's summary has the anchor at half the scale, the box `[(0, 0, 0), scale]`, unit minimum scale, the document's brick count, a positive longest extent, and `isHz` set from the first entry's file type |
| VolumeModel.FileTypeSelectsSampling | VolumeVisualizationDesktop/Assets/Scripts/ObjectClasses/Volume.cs:420 | a first brick `bricks/brick_0.hz` selects hierarchical sampling and `brick_0.raw` plain sampling |

## Left out

- Reading the metadata file (`StreamReader`) and parsing it with SimpleJSON are I/O and a foreign
  library. `LoadVolume` takes the data path and the parsed document instead of a file name.
- The Unity scene graph is engine state, not part of the model. This covers the cube created and
  hidden by the constructor, its `transform.position`, and each brick's `localScale` (line 372).
  `Scale`, which the source keeps in the cube's `localScale`, is a plain field.
- `Debug.Log` calls are output only.
- The catch-all `try`/`catch` is not modelled, nor is the partly assigned state a failed load
  leaves behind. For example, a negative `totalBricks` throws at line 295; `Metadata.Loadable`
  requires `0 <= totalBricks`.
- `Metadata.Loadable` excludes a spacing with a zero or negative component, although the code
  computes on one: only a zero minimum divides by zero (to an infinity), and a negative minimum
  gives, for `(-1, 2, 3)`, the scale `(1, -2, -3)`. The model does not describe volumes of
  non-positive spacing.
- `Metadata.Loadable` excludes a document with no brick entries and `totalBricks` 0, although
  the code loads it:
  reading the first entry's file name then yields no name, `Path.GetExtension` returns null, and
  the volume has no bricks, a null file type and `isHz == 0`. The model does not describe this
  empty volume.
- IEEE-754 single-precision rounding is not modelled. Vectors are exact reals, so the proved
  geometry is the intended one and is free of rounding. The infinities and NaNs that a zero
  spacing or a zero longest extent would produce are excluded by `Loadable`.
- The `Brick` class is not part of this model. How a brick derives its `MaxZLevel` from its
  stored data is unknown, so each entry carries that level as an input. A brick's back-reference
  to its volume is dropped.
- `Path.GetExtension` is modelled for Windows separators (`\`, `/`, `:`). Its exception on
  invalid path characters is not modelled.
- The empty constructor `Volume()` (lines 223-226) sets nothing and is not modelled.
- A second `LoadVolume` call on an existing volume leaves `Position`, `BoxMin` and `BoxMax` from
  the first load, as in the source. Only the constructor anchors, so `Anchored` is a separate
  predicate from `LoadedFrom`.
- The source allocates `bricks` (line 295) before reading the endianness, the file type and the
  scale. The model allocates it at the start of `PlaceBricks`. Without exceptions the order is
  not observable.
- VolumeModel.Volume.CalculateIsovalueRange: requires `bitsPerPixel < 31`. The source's
  `(int)Mathf.Pow(2, bits)` converts an out-of-range float to `int`, and C# leaves that result
  unspecified.
- VolumeModel.LoadedFields: states `bitsPerPixel == 8*bytesPerPixel` only when
  `|bytesPerPixel| < 2^28`. Beyond that the product wraps, and `Int32Wrap` states the wrapped
  value.
- `HZGenerator/src/main/java/CLFW.java` is OpenCL set-up, and its `NextPow2` works through
  floating-point `log`, `pow` and `ceil`. It is not part of this model.
- `VolumeVisualization/Assets/Scripts/ColorPaletteHandler.cs` is UI glue and is not part of this
  model.
- `VolumeVisualizationDesktop/Assets/Scripts/JsonList.cs` is a serialisable container and is not
  part of this model.
