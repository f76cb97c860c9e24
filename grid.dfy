/**
 * Voxel coordinates, flat array indices and the direction-to-slot mapping of
 * the capacity matrix (the pure index arithmetic of Graph.h).
 */
module Grid {

  /** A voxel coordinate (x, y, z), as an itk::Index<3>. */
  datatype Index = Index(x: int, y: int, z: int)

  function Add(a: Index, b: Index): Index {
    Index(a.x + b.x, a.y + b.y, a.z + b.z)
  }

  function Sub(a: Index, b: Index): Index {
    Index(a.x - b.x, a.y - b.y, a.z - b.z)
  }

  const MinusX := Index(-1, 0, 0)
  const PlusX := Index(1, 0, 0)
  const MinusY := Index(0, -1, 0)
  const PlusY := Index(0, 1, 0)
  const MinusZ := Index(0, 0, -1)
  const PlusZ := Index(0, 0, 1)

  /** The six unit offsets of a 6-connected neighbourhood. */
  predicate UnitOffset(e: Index) {
    e == MinusX || e == PlusX || e == MinusY || e == PlusY || e == MinusZ || e == PlusZ
  }

  /** `a` and `b` differ by exactly one unit along exactly one axis. */
  predicate Adjacent(a: Index, b: Index) {
    UnitOffset(Sub(b, a))
  }

  /** The forward offsets +x, +y, +z the builder visits, in that order. */
  function Forward(j: int): (e: Index)
    requires 0 <= j < 3
    ensures UnitOffset(e)
  {
    if j == 0 then PlusX else if j == 1 then PlusY else PlusZ
  }

  predicate InVolume(width: int, height: int, depth: int, v: Index) {
    0 <= v.x < width && 0 <= v.y < height && 0 <= v.z < depth
  }

  /** Capacity-matrix slots: 0 source (foreground), 1 sink (background). */
  const SourceSlot := 0
  const SinkSlot := 1

  /** GetArrayIndex: the flat position of a voxel in each capacity array. */
  function ArrayIndex(width: int, height: int, v: Index): int {
    v.x + width * v.y + height * width * v.z
  }

  /** The inverse of ArrayIndex: the voxel at a flat position (raster order, x fastest). */
  function IndexOf(width: int, height: int, k: int): Index
    requires width > 0 && height > 0
  {
    Index(k % width, (k / width) % height, (k / width) / height)
  }

  /** The signed axis offset n = dx + 2 dy + 3 dz of VolumeIndexToCapacityIndex. */
  function AxisCode(center: Index, neighbour: Index): int {
    (neighbour.x - center.x) + 2 * (neighbour.y - center.y) + 3 * (neighbour.z - center.z)
  }

  /** VolumeIndexToCapacityIndex: 2n+1 when n >= 0, otherwise -2n. */
  function CapacityIndex(center: Index, neighbour: Index): nat {
    var n := AxisCode(center, neighbour);
    if n >= 0 then 2 * n + 1 else -2 * n
  }

  /** Graph::IsForegroundLabel: the source side (label 0) is the foreground. */
  predicate IsForegroundLabel(segment: int) {
    segment == 0
  }

  // ---------------------------------------------------------------------
  // Arithmetic helpers

  lemma DivModUnique(n: int, d: int, q: int, r: int)
    requires 0 < d && 0 <= r < d && n == q * d + r
    ensures n / d == q && n % d == r
  {
    var q', r' := n / d, n % d;
    assert n == q' * d + r';
    assert (q - q') * d == r' - r;
    if q' < q {
      MulAtLeast(q - q', d);
    } else if q < q' {
      MulAtLeast(q' - q, d);
    }
  }

  lemma MulAtLeast(a: int, d: int)
    requires a >= 1 && d > 0
    ensures a * d >= d
  {
    assert a * d == (a - 1) * d + d;
    MulNonNegative(a - 1, d);
  }

  lemma MulNonNegative(a: int, b: int)
    requires a >= 0 && b >= 0
    ensures a * b >= 0
  {
  }

  lemma MulStrictBound(a: int, b: int, c: int)
    requires 0 <= a < b && c > 0
    ensures a * c < b * c && a * c + c <= b * c
  {
    assert b * c == a * c + (b - a) * c;
    MulAtLeast(b - a, c);
  }

  // ---------------------------------------------------------------------
  // Flat indices

  lemma {:induction false} ArrayIndexAdd(width: int, height: int, a: Index, b: Index)
    ensures ArrayIndex(width, height, Add(a, b)) == ArrayIndex(width, height, a) + ArrayIndex(width, height, b)
  {
    assert width * (a.y + b.y) == width * a.y + width * b.y;
    assert height * width * (a.z + b.z) == height * width * a.z + height * width * b.z;
  }

  /** The flat index of the forward offset j: 1, W and W·H. */
  lemma ForwardStride(width: int, height: int, j: int)
    requires 0 <= j < 3
    ensures ArrayIndex(width, height, Forward(j)) == if j == 0 then 1 else if j == 1 then width else height * width
  {
  }

  lemma ArrayIndexFactor(width: int, height: int, v: Index)
    ensures ArrayIndex(width, height, v) == v.x + width * (v.y + height * v.z)
  {
    assert width * (v.y + height * v.z) == width * v.y + width * (height * v.z);
    assert width * (height * v.z) == height * width * v.z;
  }

  /** An in-volume voxel's flat index lies in [0, W·H·D). */
  lemma ArrayIndexBounds(width: int, height: int, depth: int, v: Index)
    requires InVolume(width, height, depth, v)
    ensures 0 <= ArrayIndex(width, height, v) < width * height * depth
  {
    ArrayIndexFactor(width, height, v);
    var inner := v.y + height * v.z;
    MulNonNegative(height, v.z);
    MulStrictBound(v.z, depth, height);
    assert height * v.z + height <= depth * height;
    assert 0 <= inner < height * depth;
    MulNonNegative(width, inner);
    MulStrictBound(inner, height * depth, width);
    assert width * inner + width <= (height * depth) * width;
    assert (height * depth) * width == width * height * depth;
  }

  lemma MulMonotone(a: int, b: int, c: int)
    requires a <= b && c >= 0
    ensures a * c <= b * c
  {
    MulNonNegative(b - a, c);
    assert b * c == a * c + (b - a) * c;
  }

  /** A value below m·d has a quotient by d below m. */
  lemma QuotientBelow(n: int, d: int, m: int)
    requires d > 0 && 0 <= n < m * d
    ensures 0 <= n / d < m
  {
    var q := n / d;
    assert n == q * d + n % d;
    if q < 0 {
      MulMonotone(q, -1, d);
      assert false;
    }
    if q >= m {
      MulMonotone(m, q, d);
      assert false;
    }
  }

  /** Every flat position in [0, W·H·D) is the index of an in-volume voxel. */
  lemma IndexOfInVolume(width: int, height: int, depth: int, k: int)
    requires width >= 0 && height >= 0 && depth >= 0
    requires 0 <= k < width * height * depth
    ensures width > 0 && height > 0 && depth > 0
    ensures InVolume(width, height, depth, IndexOf(width, height, k))
    ensures ArrayIndex(width, height, IndexOf(width, height, k)) == k
  {
    if width == 0 || height == 0 || depth == 0 {
      assert false;
    }
    assert width * height * depth == (height * depth) * width;
    QuotientBelow(k, width, height * depth);
    var q := k / width;
    assert q < depth * height;
    QuotientBelow(q, height, depth);
    var v := IndexOf(width, height, k);
    assert k == q * width + v.x;
    assert q == v.z * height + v.y;
    ArrayIndexFactor(width, height, v);
  }

  /** IndexOf inverts ArrayIndex on the volume. */
  lemma IndexOfArrayIndex(width: int, height: int, depth: int, v: Index)
    requires InVolume(width, height, depth, v)
    ensures IndexOf(width, height, ArrayIndex(width, height, v)) == v
  {
    var k := ArrayIndex(width, height, v);
    ArrayIndexFactor(width, height, v);
    var q := v.y + height * v.z;
    DivModUnique(k, width, q, v.x);
    DivModUnique(q, height, v.z, v.y);
  }

  /**
   * GetArrayIndex is a bijection from the voxels of a W×H×D volume onto
   * [0, W·H·D): it is injective on the volume and every position is hit.
   */
  lemma ArrayIndexBijective(width: int, height: int, depth: int)
    requires width >= 0 && height >= 0 && depth >= 0
    ensures forall v :: InVolume(width, height, depth, v) ==>
              0 <= ArrayIndex(width, height, v) < width * height * depth
    ensures forall a, b ::
              InVolume(width, height, depth, a) && InVolume(width, height, depth, b) &&
              ArrayIndex(width, height, a) == ArrayIndex(width, height, b)
              ==> a == b
  {
    forall v | InVolume(width, height, depth, v)
      ensures 0 <= ArrayIndex(width, height, v) < width * height * depth
    {
      ArrayIndexBounds(width, height, depth, v);
    }
    forall a, b | InVolume(width, height, depth, a) && InVolume(width, height, depth, b) &&
                  ArrayIndex(width, height, a) == ArrayIndex(width, height, b)
      ensures a == b
    {
      IndexOfArrayIndex(width, height, depth, a);
      IndexOfArrayIndex(width, height, depth, b);
    }
  }

  // ---------------------------------------------------------------------
  // Direction slots

  /** The six unit offsets land in the slots -x→2, +x→3, -y→4, +y→5, -z→6, +z→7. */
  lemma CapacityIndexOfOffsets(c: Index)
    ensures CapacityIndex(c, Add(c, MinusX)) == 2
    ensures CapacityIndex(c, Add(c, PlusX)) == 3
    ensures CapacityIndex(c, Add(c, MinusY)) == 4
    ensures CapacityIndex(c, Add(c, PlusY)) == 5
    ensures CapacityIndex(c, Add(c, MinusZ)) == 6
    ensures CapacityIndex(c, Add(c, PlusZ)) == 7
  {
  }

  /** The slot depends only on the difference neighbour - centre. */
  lemma CapacityIndexTranslation(c: Index, n: Index, t: Index)
    ensures CapacityIndex(Add(c, t), Add(n, t)) == CapacityIndex(c, n)
    ensures CapacityIndex(c, n) == CapacityIndex(Index(0, 0, 0), Sub(n, c))
  {
  }

  /**
   * For a unit-adjacent pair the two directions use distinct slots of the same
   * axis pair {2,3}, {4,5} or {6,7}; the slot is never a terminal slot.
   */
  lemma CapacityIndexPaired(a: Index, b: Index)
    requires Adjacent(a, b)
    ensures 2 <= CapacityIndex(a, b) <= 7 && 2 <= CapacityIndex(b, a) <= 7
    ensures CapacityIndex(a, b) != CapacityIndex(b, a)
    ensures CapacityIndex(a, b) / 2 == CapacityIndex(b, a) / 2
    ensures CapacityIndex(a, b) % 2 == 1 <==> Sub(b, a) in {PlusX, PlusY, PlusZ}
  {
  }

  /** The forward offset j uses slot 2j+3 from the centre and 2j+2 back from the neighbour. */
  lemma ForwardSlots(v: Index, j: int)
    requires 0 <= j < 3
    ensures CapacityIndex(v, Add(v, Forward(j))) == 2 * j + 3
    ensures CapacityIndex(Add(v, Forward(j)), v) == 2 * j + 2
  {
  }
}
