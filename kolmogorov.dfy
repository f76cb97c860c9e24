/**
 * MaxFlowGraphKolmogorov: the sizes the Kolmogorov backend allocates for a
 * dimension1 × dimension2 × dimension3 grid with 6-connectivity.
 */
module KolmogorovBackend {

  /** The undirected edges of a 6-connected x × y grid within one slice. */
  function SliceEdges(x: int, y: int): int {
    (x - 1) * y + x * (y - 1)
  }

  /**
   * An independent count: a grid of one slice has its in-slice edges; each
   * further slice adds its own in-slice edges and one edge per voxel to the
   * slice below.
   */
  function GridEdges(x: int, y: int, z: nat): int
    requires z >= 1
  {
    if z == 1 then SliceEdges(x, y) else GridEdges(x, y, z - 1) + SliceEdges(x, y) + x * y
  }

  /**
   * calculateNumberOfEdges: starting from 3 edges per voxel, ((3x - 1)y - x)z - xy,
   * which is one edge per pair of neighbours along each of the three axes.
   */
  function CalculateNumberOfEdges(x: int, y: int, z: int): (edges: int)
    ensures edges == (x - 1) * y * z + x * (y - 1) * z + x * y * (z - 1)
  {
    var numberOfEdges := 3;
    var afterX := numberOfEdges * x - 1;
    var afterY := afterX * y - x;
    afterY * z - x * y
  }

  /** The number of vertices: one per voxel, never negative for unsigned extents. */
  function NumberOfVertices(dimension1: int, dimension2: int, dimension3: int): (n: int)
    ensures n == dimension1 * dimension2 * dimension3
    ensures dimension1 >= 0 && dimension2 >= 0 && dimension3 >= 0 ==> n >= 0
  {
    dimension1 * dimension2 * dimension3
  }

  /** The closed form agrees with the slice-by-slice count for every grid. */
  lemma {:induction false} EdgesBySlices(x: int, y: int, z: nat)
    requires z >= 1
    ensures CalculateNumberOfEdges(x, y, z) == GridEdges(x, y, z)
  {
    if z > 1 {
      EdgesBySlices(x, y, z - 1);
      assert CalculateNumberOfEdges(x, y, z) == CalculateNumberOfEdges(x, y, z - 1) + SliceEdges(x, y) + x * y;
    }
  }

  lemma ProductNonNegative(a: int, b: int, c: int)
    requires a >= 0 && b >= 0 && c >= 0
    ensures a * b * c >= 0
  {
    assert a * b >= 0;
  }

  /** For a grid of at least one voxel per axis, the edge count is never negative. */
  lemma EdgesNonNegative(x: int, y: int, z: int)
    requires x >= 1 && y >= 1 && z >= 1
    ensures CalculateNumberOfEdges(x, y, z) >= 0
  {
    ProductNonNegative(x - 1, y, z);
    ProductNonNegative(x, y - 1, z);
    ProductNonNegative(x, y, z - 1);
  }

  /** The edge count does not depend on the order of the axes. */
  lemma EdgesSymmetric(x: int, y: int, z: int)
    ensures CalculateNumberOfEdges(x, y, z) == CalculateNumberOfEdges(y, x, z)
    ensures CalculateNumberOfEdges(x, y, z) == CalculateNumberOfEdges(x, z, y)
    ensures CalculateNumberOfEdges(x, y, z) == CalculateNumberOfEdges(z, y, x)
  {
  }

  /** A single voxel has no edges and a line of two voxels has one. */
  lemma SmallGridEdges()
    ensures CalculateNumberOfEdges(1, 1, 1) == 0
    ensures CalculateNumberOfEdges(2, 1, 1) == 1
  {
  }

  /** A 3 × 3 × 3 cube has 27 vertices and 54 edges. */
  lemma CubeEdges()
    ensures CalculateNumberOfEdges(3, 3, 3) == 54
    ensures NumberOfVertices(3, 3, 3) == 27
  {
  }
}
