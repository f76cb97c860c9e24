/**
 * ImageGraphCut3DFilter: the backend-neutral variant of the graph-cut filter.
 * It numbers voxels by unrolling their index over the region's size and
 * drives an abstract max-flow backend through virtual calls, modelled here
 * as the sequence of calls the filter makes.
 */
module ImageGraphCut3D {
  import opened Grid
  import opened Images

  // ---------------------------------------------------------------------
  // Vertex descriptors

  /** The product of the first n extents of the region's size. */
  function Extent(size: seq<int>, n: nat): int
    requires n <= |size|
  {
    if n == 0 then 1 else Extent(size, n - 1) * size[n - 1]
  }

  /** The first n coordinates of an index unrolled: sum of index[i] * Extent(size, i). */
  function Unroll(index: seq<int>, size: seq<int>, n: nat): int
    requires n <= |index| && n <= |size|
  {
    if n == 0 then 0 else Unroll(index, size, n - 1) + index[n - 1] * Extent(size, n - 1)
  }

  /** The index lies in the region [0, size) of the same dimension. */
  predicate InRegion(index: seq<int>, size: seq<int>) {
    |index| == |size| && forall i :: 0 <= i < |index| ==> 0 <= index[i] < size[i]
  }

  /**
   * ConvertIndexToVertexDescriptor: unrolls the index by the region's size;
   * an index in the region gets a descriptor below the region's voxel count.
   */
  method ConvertIndexToVertexDescriptor(index: seq<int>, size: seq<int>) returns (vertexDescriptor: int)
    requires |index| == |size|
    ensures vertexDescriptor == Unroll(index, size, |index|)
    ensures InRegion(index, size) ==> 0 <= vertexDescriptor < Extent(size, |size|)
  {
    var dimension := 1;
    vertexDescriptor := 0;
    var i := 0;
    while i < |index|
      invariant 0 <= i <= |index|
      invariant vertexDescriptor == Unroll(index, size, i)
      invariant dimension == Extent(size, i)
    {
      vertexDescriptor := vertexDescriptor + index[i] * dimension;
      dimension := dimension * size[i];
      i := i + 1;
    }
    if InRegion(index, size) {
      UnrollBound(index, size, |index|);
    }
  }

  /** Inside the region every prefix extent is positive and the prefix unrolls below it. */
  lemma {:induction false} UnrollBound(index: seq<int>, size: seq<int>, n: nat)
    requires InRegion(index, size) && n <= |index|
    ensures Extent(size, n) > 0
    ensures 0 <= Unroll(index, size, n) < Extent(size, n)
  {
    if n > 0 {
      UnrollBound(index, size, n - 1);
      var e := Extent(size, n - 1);
      var u := Unroll(index, size, n - 1);
      MulNonNegative(index[n - 1], e);
      MulStrictBound(index[n - 1], size[n - 1], e);
      assert u + index[n - 1] * e < index[n - 1] * e + e <= size[n - 1] * e;
      assert Extent(size, n) == e * size[n - 1];
      MulAtLeast(size[n - 1], e);
    }
  }

  /** Two indices in the region with the same unrolled prefix agree on that prefix. */
  lemma {:induction false} UnrollInjective(a: seq<int>, b: seq<int>, size: seq<int>, n: nat)
    requires InRegion(a, size) && InRegion(b, size) && n <= |size|
    requires Unroll(a, size, n) == Unroll(b, size, n)
    ensures a[..n] == b[..n]
  {
    if n > 0 {
      var e := Extent(size, n - 1);
      UnrollBound(a, size, n - 1);
      UnrollBound(b, size, n - 1);
      var k := Unroll(a, size, n);
      DivModUnique(k, e, a[n - 1], Unroll(a, size, n - 1));
      DivModUnique(k, e, b[n - 1], Unroll(b, size, n - 1));
      UnrollInjective(a, b, size, n - 1);
      assert a[..n] == a[..n - 1] + [a[n - 1]];
      assert b[..n] == b[..n - 1] + [b[n - 1]];
    }
  }

  /** Vertex descriptors of distinct voxels of the region differ. */
  lemma VertexDescriptorsDistinct(a: seq<int>, b: seq<int>, size: seq<int>)
    requires InRegion(a, size) && InRegion(b, size) && a != b
    ensures Unroll(a, size, |size|) != Unroll(b, size, |size|)
  {
    if Unroll(a, size, |size|) == Unroll(b, size, |size|) {
      UnrollInjective(a, b, size, |size|);
    }
  }

  function Coordinates(v: Index): seq<int> {
    [v.x, v.y, v.z]
  }

  function Size<T>(vol: Volume<T>): seq<int> {
    [vol.width, vol.height, vol.depth]
  }

  /** In three dimensions the unrolled index is Graph's GetArrayIndex. */
  lemma UnrollIsArrayIndex(width: int, height: int, depth: int, v: Index)
    ensures Unroll(Coordinates(v), [width, height, depth], 3) == ArrayIndex(width, height, v)
  {
    var size := [width, height, depth];
    var c := Coordinates(v);
    assert Extent(size, 1) == width;
    assert Extent(size, 2) == width * height;
    assert Unroll(c, size, 1) == v.x;
    assert Unroll(c, size, 2) == v.x + v.y * width;
    assert Unroll(c, size, 3) == v.x + v.y * width + v.z * (width * height);
    assert v.z * (width * height) == height * width * v.z;
  }

  /** The descriptor of a voxel of the volume, as the loop computes it. */
  function Vertex<T>(vol: Volume<T>, v: Index): int {
    Unroll(Coordinates(v), Size(vol), 3)
  }

  // ---------------------------------------------------------------------
  // The filter

  /** A call GenerateData makes on the backend's virtual interface. */
  datatype BackendCall =
    | InitializeGraph
    | AddTLink(node: int, foreground: int, background: int)
    | AddNLink(node1: int, node2: int, capacity: int, reverseCapacity: int)
    | SolveGraph
    | DestroyGraph

  /**
   * One run's inputs: the volume, the filter's settings, the active
   * neighbourhood offsets of the backend's iterator and its energy terms.
   */
  datatype Run = Run(
    input: Volume<int>,
    ignoreMaskValue: int,
    foregroundLabel: int,
    backgroundLabel: int,
    offsets: seq<Index>,
    regional: (Index, int) -> int,
    boundary: (Index, Index) -> int)
  {
    function Voxels(): nat {
      input.width * input.height * input.depth
    }
  }

  /** The N-link calls for the first j active offsets of an in-volume voxel v. */
  function NeighbourCalls(r: Run, v: Index, j: nat): seq<BackendCall>
    requires j <= |r.offsets|
  {
    if j == 0 then []
    else
      var n := Add(v, r.offsets[j - 1]);
      NeighbourCalls(r, v, j - 1) +
      (if r.input.Contains(n)
       then [AddNLink(Vertex(r.input, v), Vertex(r.input, n), r.boundary(v, n), r.boundary(n, v))]
       else [])
  }

  /** The calls for the voxel at raster position k: nothing when ignored. */
  function VoxelCalls(r: Run, k: int): seq<BackendCall>
    requires r.input.Valid() && 0 <= k < r.Voxels()
  {
    AtRasterPosition(r.input, k);
    var v := IndexOf(r.input.width, r.input.height, k);
    if r.input.At(v) == r.ignoreMaskValue then []
    else [AddTLink(Vertex(r.input, v), r.regional(v, r.foregroundLabel), r.regional(v, r.backgroundLabel))]
         + NeighbourCalls(r, v, |r.offsets|)
  }

  /** The calls for the first i voxels in raster order. */
  function TraversalCalls(r: Run, i: nat): seq<BackendCall>
    requires r.input.Valid() && i <= r.Voxels()
  {
    if i == 0 then [] else TraversalCalls(r, i - 1) + VoxelCalls(r, i - 1)
  }

  /** Every call of a whole run, from InitializeGraph to the optional DestroyGraph. */
  function RunCalls(r: Run, destroyGraph: bool): seq<BackendCall>
    requires r.input.Valid()
  {
    [InitializeGraph] + TraversalCalls(r, r.Voxels()) + [SolveGraph] + (if destroyGraph then [DestroyGraph] else [])
  }

  /** The output label of the voxel at raster position k. */
  function OutputAt(r: Run, segmentation: int -> int, k: int): int
    requires r.input.Valid() && 0 <= k < |r.input.data|
  {
    AtRasterPosition(r.input, k);
    var v := IndexOf(r.input.width, r.input.height, k);
    if r.input.At(v) == r.ignoreMaskValue then r.backgroundLabel else segmentation(Vertex(r.input, v))
  }

  /** The output image for the backend's answer segmentation(vertex). */
  function Labelling(r: Run, segmentation: int -> int): (out: seq<int>)
    requires r.input.Valid()
    ensures |out| == |r.input.data|
    ensures forall k :: 0 <= k < |out| ==> out[k] == OutputAt(r, segmentation, k)
  {
    seq(|r.input.data|, k requires 0 <= k < |r.input.data| => OutputAt(r, segmentation, k))
  }

  class ImageGraphCut3DFilter {
    var verboseOutput: bool
    var destroyGraph: bool
    var ignoreMaskValue: int
    var backgroundLabel: int
    var foregroundLabel: int
    /** The calls made on the backend so far. */
    var calls: seq<BackendCall>

    /** The defaults: ignore value 0, background 0, foreground 1, both flags off. */
    constructor ()
      ensures !verboseOutput && !destroyGraph
      ensures ignoreMaskValue == 0 && backgroundLabel == 0 && foregroundLabel == 1
      ensures calls == []
    {
      verboseOutput := false;
      destroyGraph := false;
      ignoreMaskValue := 0;
      backgroundLabel := 0;
      foregroundLabel := 1;
      calls := [];
    }

    function RunFor(input: Volume<int>, offsets: seq<Index>, regional: (Index, int) -> int,
                    boundary: (Index, Index) -> int): Run
      reads this
    {
      Run(input, ignoreMaskValue, foregroundLabel, backgroundLabel, offsets, regional, boundary)
    }

    /**
     * GenerateData: initializes the backend, adds the links of every voxel
     * that is not ignored, solves, fills the output from the backend's
     * segmentation and destroys the graph when asked to.
     */
    method GenerateData(input: Volume<int>, offsets: seq<Index>, regional: (Index, int) -> int,
                        boundary: (Index, Index) -> int, segmentation: int -> int)
      returns (output: array<int>)
      requires input.Valid()
      modifies this`calls
      ensures fresh(output)
      ensures calls == old(calls) + RunCalls(RunFor(input, offsets, regional, boundary), destroyGraph)
      ensures output[..] == Labelling(RunFor(input, offsets, regional, boundary), segmentation)
    {
      var r := RunFor(input, offsets, regional, boundary);
      calls := calls + [InitializeGraph];
      ghost var initialized := calls;
      BuildGraph(r);
      ghost var built := calls;
      calls := calls + [SolveGraph];
      output := FillOutput(r, segmentation);
      if destroyGraph {
        calls := calls + [DestroyGraph];
        assert calls == built + [SolveGraph] + [DestroyGraph];
      } else {
        assert calls == built + [SolveGraph];
      }
      Regroup(old(calls), [InitializeGraph], TraversalCalls(r, r.Voxels()), [SolveGraph],
              if destroyGraph then [DestroyGraph] else []);
    }

    /** The voxel loop of GenerateData, in raster order. */
    method BuildGraph(r: Run)
      requires r.input.Valid()
      modifies this`calls
      ensures calls == old(calls) + TraversalCalls(r, r.Voxels())
    {
      var n := r.Voxels();
      var i := 0;
      while i < n
        invariant 0 <= i <= n
        invariant calls == old(calls) + TraversalCalls(r, i)
      {
        AddVoxelCalls(r, i);
        AppendAssociative(old(calls), TraversalCalls(r, i), VoxelCalls(r, i));
        i := i + 1;
      }
    }

    /** The body of the voxel loop at raster position i. */
    method AddVoxelCalls(r: Run, i: int)
      requires r.input.Valid() && 0 <= i < r.Voxels()
      modifies this`calls
      ensures calls == old(calls) + VoxelCalls(r, i)
    {
      var input := r.input;
      var size := Size(input);
      AtRasterPosition(input, i);
      var v := IndexOf(input.width, input.height, i);
      if input.At(v) != r.ignoreMaskValue {
        var vertex := ConvertIndexToVertexDescriptor(Coordinates(v), size);
        calls := calls + [AddTLink(vertex, r.regional(v, r.foregroundLabel), r.regional(v, r.backgroundLabel))];
        ghost var before := calls;
        var j := 0;
        while j < |r.offsets|
          invariant 0 <= j <= |r.offsets|
          invariant calls == before + NeighbourCalls(r, v, j)
        {
          var neighbour := Add(v, r.offsets[j]);
          if input.Contains(neighbour) {
            var neighbourVertex := ConvertIndexToVertexDescriptor(Coordinates(neighbour), size);
            calls := calls + [AddNLink(vertex, neighbourVertex, r.boundary(v, neighbour), r.boundary(neighbour, v))];
          }
          j := j + 1;
        }
      }
    }
  }

  lemma AppendAssociative<T>(a: seq<T>, b: seq<T>, c: seq<T>)
    ensures a + b + c == a + (b + c)
  {
  }

  lemma Regroup<T>(o: seq<T>, a: seq<T>, b: seq<T>, c: seq<T>, d: seq<T>)
    ensures o + a + b + c + d == o + (a + b + c + d)
  {
  }

  /** The output loop: background for ignored voxels, else the backend's segmentation. */
  method FillOutput(r: Run, segmentation: int -> int) returns (output: array<int>)
    requires r.input.Valid()
    ensures fresh(output)
    ensures output[..] == Labelling(r, segmentation)
  {
    var input := r.input;
    var n := |input.data|;
    output := new int[n];
    var k := 0;
    while k < n
      invariant 0 <= k <= n
      invariant forall k' :: 0 <= k' < k ==> output[k'] == OutputAt(r, segmentation, k')
    {
      AtRasterPosition(input, k);
      var v := IndexOf(input.width, input.height, k);
      if input.At(v) == r.ignoreMaskValue {
        output[k] := r.backgroundLabel;
      } else {
        var vertex := ConvertIndexToVertexDescriptor(Coordinates(v), Size(input));
        output[k] := segmentation(vertex);
      }
      k := k + 1;
    }
  }

  // ---------------------------------------------------------------------
  // What a run's calls say

  /** The number of AddTLink calls on a given node. */
  function TLinkCount(cs: seq<BackendCall>, node: int): nat {
    if |cs| == 0 then 0
    else TLinkCount(cs[..|cs| - 1], node) + (if cs[|cs| - 1].AddTLink? && cs[|cs| - 1].node == node then 1 else 0)
  }

  lemma {:induction false} TLinkCountAppend(a: seq<BackendCall>, b: seq<BackendCall>, node: int)
    ensures TLinkCount(a + b, node) == TLinkCount(a, node) + TLinkCount(b, node)
  {
    if |b| > 0 {
      assert (a + b)[..|a + b| - 1] == a + b[..|b| - 1];
      assert (a + b)[|a + b| - 1] == b[|b| - 1];
      TLinkCountAppend(a, b[..|b| - 1], node);
    } else {
      assert a + b == a;
    }
  }

  lemma {:induction false} NeighbourCallsAreNLinks(r: Run, v: Index, j: nat)
    requires j <= |r.offsets|
    ensures forall c :: c in NeighbourCalls(r, v, j) ==> c.AddNLink? && c.node1 == Vertex(r.input, v)
    ensures forall node :: TLinkCount(NeighbourCalls(r, v, j), node) == 0
  {
    if j > 0 {
      NeighbourCallsAreNLinks(r, v, j - 1);
      var n := Add(v, r.offsets[j - 1]);
      var tail := if r.input.Contains(n)
        then [AddNLink(Vertex(r.input, v), Vertex(r.input, n), r.boundary(v, n), r.boundary(n, v))]
        else [];
      forall node
        ensures TLinkCount(NeighbourCalls(r, v, j), node) == 0
      {
        TLinkCountAppend(NeighbourCalls(r, v, j - 1), tail, node);
        assert TLinkCount(tail, node) == 0 by {
          if |tail| > 0 {
            assert tail[..0] == [];
          }
        }
      }
    }
  }

  /** The voxel at raster position k has vertex k. */
  lemma RasterVertex(r: Run, k: int)
    requires r.input.Valid() && 0 <= k < r.Voxels()
    ensures r.input.width > 0 && r.input.height > 0
    ensures Vertex(r.input, IndexOf(r.input.width, r.input.height, k)) == k
  {
    IndexOfInVolume(r.input.width, r.input.height, r.input.depth, k);
    UnrollIsArrayIndex(r.input.width, r.input.height, r.input.depth, IndexOf(r.input.width, r.input.height, k));
  }

  lemma VoxelTLinkCount(r: Run, k: int, node: int)
    requires r.input.Valid() && 0 <= k < r.Voxels()
    ensures r.input.width > 0 && r.input.height > 0
    ensures TLinkCount(VoxelCalls(r, k), node) ==
              if node == k && r.input.data[k] != r.ignoreMaskValue then 1 else 0
  {
    AtRasterPosition(r.input, k);
    RasterVertex(r, k);
    var v := IndexOf(r.input.width, r.input.height, k);
    if r.input.At(v) != r.ignoreMaskValue {
      var head := [AddTLink(Vertex(r.input, v), r.regional(v, r.foregroundLabel), r.regional(v, r.backgroundLabel))];
      NeighbourCallsAreNLinks(r, v, |r.offsets|);
      TLinkCountAppend(head, NeighbourCalls(r, v, |r.offsets|), node);
      assert head[..0] == [];
    }
  }

  /**
   * Over the first i voxels, a node gets exactly one T-link when it is one of
   * them and not ignored, and none otherwise: ignored voxels get no T-link.
   */
  lemma {:induction false} TraversalTLinkCount(r: Run, i: nat, node: int)
    requires r.input.Valid() && i <= r.Voxels()
    ensures TLinkCount(TraversalCalls(r, i), node) ==
              if 0 <= node < i && r.input.data[node] != r.ignoreMaskValue then 1 else 0
  {
    if i > 0 {
      TraversalTLinkCount(r, i - 1, node);
      TLinkCountAppend(TraversalCalls(r, i - 1), VoxelCalls(r, i - 1), node);
      VoxelTLinkCount(r, i - 1, node);
    }
  }

  /** A whole run adds exactly one T-link per voxel that is not ignored and none per ignored voxel. */
  lemma RunTLinks(r: Run, destroyGraph: bool, k: int)
    requires r.input.Valid() && 0 <= k < r.Voxels()
    ensures TLinkCount(RunCalls(r, destroyGraph), k) == if r.input.data[k] == r.ignoreMaskValue then 0 else 1
  {
    var tail := [SolveGraph] + (if destroyGraph then [DestroyGraph] else []);
    assert RunCalls(r, destroyGraph) == [InitializeGraph] + (TraversalCalls(r, r.Voxels()) + tail);
    TLinkCountAppend([InitializeGraph], TraversalCalls(r, r.Voxels()) + tail, k);
    TLinkCountAppend(TraversalCalls(r, r.Voxels()), tail, k);
    TraversalTLinkCount(r, r.Voxels(), k);
    assert [InitializeGraph][..0] == [];
    if destroyGraph {
      assert tail[..1] == [SolveGraph];
    }
    assert [SolveGraph][..0] == [];
  }

  /** An ignored voxel makes no backend call at all: no T-link and no N-link. */
  lemma IgnoredVoxelNoCalls(r: Run, k: int)
    requires r.input.Valid() && 0 <= k < r.Voxels() && r.input.data[k] == r.ignoreMaskValue
    ensures VoxelCalls(r, k) == []
  {
    AtRasterPosition(r.input, k);
  }

  lemma {:induction false} TraversalCallsAreLinks(r: Run, i: nat)
    requires r.input.Valid() && i <= r.Voxels()
    ensures forall c :: c in TraversalCalls(r, i) ==> c.AddTLink? || c.AddNLink?
  {
    if i > 0 {
      TraversalCallsAreLinks(r, i - 1);
      AtRasterPosition(r.input, i - 1);
      var v := IndexOf(r.input.width, r.input.height, i - 1);
      NeighbourCallsAreNLinks(r, v, |r.offsets|);
    }
  }

  /** The graph is destroyed exactly when the flag is set, and only as the last call. */
  lemma DestroyedIffFlag(r: Run, destroyGraph: bool)
    requires r.input.Valid()
    ensures DestroyGraph in RunCalls(r, destroyGraph) <==> destroyGraph
    ensures destroyGraph ==> RunCalls(r, destroyGraph)[|RunCalls(r, destroyGraph)| - 1] == DestroyGraph
    ensures RunCalls(r, destroyGraph)[0] == InitializeGraph
  {
    TraversalCallsAreLinks(r, r.Voxels());
  }

  /** Ignored voxels are background in the output; the others carry the backend's answer. */
  lemma LabellingValues(r: Run, segmentation: int -> int, k: int)
    requires r.input.Valid() && 0 <= k < |r.input.data|
    ensures r.input.data[k] == r.ignoreMaskValue ==> Labelling(r, segmentation)[k] == r.backgroundLabel
    ensures r.input.data[k] != r.ignoreMaskValue ==> Labelling(r, segmentation)[k] == segmentation(k)
  {
    AtRasterPosition(r.input, k);
    RasterVertex(r, k);
  }
}
