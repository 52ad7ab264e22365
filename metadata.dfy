/**
 * The dataset description as the volume loader sees it once the JSON
 * metadata file has been read and parsed: every field it asks the parsed
 * document for, already converted to the type it reads it as.
 */
module Metadata {
  import opened UnityMath

  /** Three integers read from a JSON array of three numbers. */
  datatype Int3 = Int3(x: int, y: int, z: int)

  /**
   * One element of `bricks`: its file name relative to the data path, its
   * edge length in voxels and its origin in the voxel grid. `maxZLevel` is
   * the deepest resolution level the brick's stored data offers; the brick
   * storage derives it, and here it is handed in with the entry.
   */
  datatype BrickEntry = BrickEntry(filename: string, size: int, position: Int3, maxZLevel: int)

  /** The top-level fields of the metadata document. */
  datatype Document = Document(
    minLevel: int,
    maxLevel: int,
    totalBricks: int,
    bytesPerPixel: int,
    globalSize: Int3,
    endianness: string,
    scale: Vec3,
    bricks: seq<BrickEntry>)

  /** `globalSize` as the `int[]` the loader builds from the document. */
  function GlobalSizeArray(doc: Document): (g: seq<int>)
    ensures |g| == 3
  {
    [doc.globalSize.x, doc.globalSize.y, doc.globalSize.z]
  }

  /**
   * What the loader needs of a document to finish without dividing by zero
   * or reading a brick entry that is not there: a first brick entry to take
   * the file type from, `totalBricks` entries to place, a positive voxel
   * spacing on every axis and a positive longest extent.
   */
  predicate Loadable(doc: Document) {
    && 0 <= doc.totalBricks <= |doc.bricks|
    && 0 < |doc.bricks|
    && Positive(doc.scale)
    && MaxOf(GlobalSizeArray(doc)) > 0
  }
}
