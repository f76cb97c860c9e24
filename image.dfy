/**
 * A 3D volume of scalar samples (an ITK image over its largest possible
 * region, starting at index 0), stored in raster order.
 */
module Images {
  import opened Grid

  datatype Volume<T> = Volume(width: nat, height: nat, depth: nat, data: seq<T>) {

    predicate Valid() {
      |data| == width * height * depth
    }

    predicate Contains(v: Index) {
      InVolume(width, height, depth, v)
    }

    /** GetPixel: the sample stored for an in-volume voxel. */
    function At(v: Index): T
      requires Valid() && Contains(v)
    {
      ArrayIndexBounds(width, height, depth, v);
      data[ArrayIndex(width, height, v)]
    }
  }

  /** The voxel at raster position k is in the volume and At reads data[k]. */
  lemma AtRasterPosition<T>(vol: Volume<T>, k: int)
    requires vol.Valid() && 0 <= k < |vol.data|
    ensures vol.width > 0 && vol.height > 0
    ensures vol.Contains(IndexOf(vol.width, vol.height, k))
    ensures vol.At(IndexOf(vol.width, vol.height, k)) == vol.data[k]
  {
    IndexOfInVolume(vol.width, vol.height, vol.depth, k);
  }
}
