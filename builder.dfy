/**
 * GraphCutImageFilter: the filter that walks the input volume in raster
 * order, fills a capacity-matrix Graph from the regional and boundary
 * energy terms, solves it and labels every voxel foreground or background.
 */
module GraphCutFilter {
  import opened Grid
  import opened Images
  import opened CapacityGraph

  /** Everything one run of GenerateData depends on besides the engine. */
  datatype Problem = Problem(
    input: Volume<int>,
    ignoreMaskValue: int,
    foregroundLabel: int,
    backgroundLabel: int,
    maxWeight: nat,
    regional: (Index, int) -> int,
    boundary: (Index, Index) -> int)
  {
    /**
     * The energy terms yield weights of the weight type (at most maxWeight)
     * and never negative ones, which AddTLink and AddNLink assert.
     */
    ghost predicate Valid() {
      input.Valid() &&
      (forall v, l :: input.Contains(v) ==> 0 <= regional(v, l) <= maxWeight) &&
      (forall a, b :: input.Contains(a) && input.Contains(b) ==> 0 <= boundary(a, b) <= maxWeight)
    }

    function Voxels(): nat {
      input.width * input.height * input.depth
    }

    /** The voxel carries the ignore value and is hard-linked to the background. */
    predicate Ignored(v: Index)
      requires input.Valid() && input.Contains(v)
    {
      input.At(v) == ignoreMaskValue
    }
  }

  // ---------------------------------------------------------------------
  // The capacity matrix GenerateData builds

  /**
   * The final capacity of slot s of voxel v. T-links come from the voxel
   * itself; a forward slot (+x, +y, +z) is written by v towards its
   * neighbour; a backward slot (-x, -y, -z) is written by the neighbour
   * behind v, as the reverse half of that neighbour's forward N-link.
   */
  function Built(p: Problem, s: int, v: Index): int
    requires p.input.Valid() && p.input.Contains(v) && 0 <= s < SlotCount
  {
    if s == SourceSlot then
      (if p.Ignored(v) then 0 else p.regional(v, p.foregroundLabel))
    else if s == SinkSlot then
      (if p.Ignored(v) then p.maxWeight else p.regional(v, p.backgroundLabel))
    else if s % 2 == 1 then
      var n := Add(v, Forward((s - 3) / 2));
      if !p.Ignored(v) && p.input.Contains(n) then p.boundary(v, n) else 0
    else
      var m := Sub(v, Forward((s - 2) / 2));
      if p.input.Contains(m) && !p.Ignored(m) then p.boundary(v, m) else 0
  }

  /** Built, addressed by raster position. */
  function BuiltAt(p: Problem, s: int, k: int): int
    requires p.input.Valid() && 0 <= s < SlotCount && 0 <= k < p.Voxels()
  {
    AtRasterPosition(p.input, k);
    Built(p, s, IndexOf(p.input.width, p.input.height, k))
  }

  /** The capacity matrix after the traversal, before solving. */
  function BuiltMatrix(p: Problem): (m: seq<seq<int>>)
    requires p.input.Valid()
    ensures |m| == SlotCount && forall s :: 0 <= s < SlotCount ==> |m[s]| == p.Voxels()
    ensures forall s, k :: 0 <= s < SlotCount && 0 <= k < p.Voxels() ==> m[s][k] == BuiltAt(p, s, k)
  {
    seq(SlotCount, s requires 0 <= s < SlotCount =>
      seq(p.Voxels(), k requires 0 <= k < p.Voxels() => BuiltAt(p, s, k)))
  }

  // ---------------------------------------------------------------------
  // Progress of the traversal

  /** The raster distance between a voxel and its forward neighbour j. */
  function Stride(p: Problem, j: int): int
    requires 0 <= j < 3
  {
    ArrayIndex(p.input.width, p.input.height, Forward(j))
  }

  /** The raster position of the voxel whose step writes cell (s, k). */
  function WriterPosition(p: Problem, s: int, k: int): int
    requires 0 <= s < SlotCount
  {
    if s >= 2 && s % 2 == 0 then k - Stride(p, (s - 2) / 2) else k
  }

  /** Within a voxel's step: T-links first (-1), then the offsets 0, 1, 2. */
  function SlotStep(s: int): int {
    if s < 2 then -1 else (s - 2) / 2
  }

  /**
   * Cell (s, k) has been written once voxels before position i are done and
   * voxel i has done its T-link and its first j offsets (j = -1: nothing yet).
   */
  predicate Written(p: Problem, i: int, j: int, s: int, k: int)
    requires 0 <= s < SlotCount
  {
    WriterPosition(p, s, k) < i || (WriterPosition(p, s, k) == i && SlotStep(s) < j)
  }

  /** The capacity of cell (s, k) at that point of the traversal. */
  function PartialCell(p: Problem, i: int, j: int, s: int, k: int): int
    requires p.input.Valid() && 0 <= s < SlotCount && 0 <= k < p.Voxels()
  {
    if Written(p, i, j, s, k) then BuiltAt(p, s, k) else InitialCapacity(s, p.maxWeight)
  }

  /** The capacity matrix at that point of the traversal. */
  function PartialMatrix(p: Problem, i: int, j: int): (m: seq<seq<int>>)
    requires p.input.Valid()
    ensures |m| == SlotCount && forall s :: 0 <= s < SlotCount ==> |m[s]| == p.Voxels()
    ensures forall s, k :: 0 <= s < SlotCount && 0 <= k < p.Voxels() ==> m[s][k] == PartialCell(p, i, j, s, k)
  {
    seq(SlotCount, s requires 0 <= s < SlotCount =>
      seq(p.Voxels(), k requires 0 <= k < p.Voxels() => PartialCell(p, i, j, s, k)))
  }

  lemma MatrixExtensionality(a: seq<seq<int>>, b: seq<seq<int>>, voxels: nat)
    requires |a| == SlotCount && |b| == SlotCount
    requires forall s :: 0 <= s < SlotCount ==> |a[s]| == voxels && |b[s]| == voxels
    requires forall s, k :: 0 <= s < SlotCount && 0 <= k < voxels ==> a[s][k] == b[s][k]
    ensures a == b
  {
    forall s | 0 <= s < SlotCount
      ensures a[s] == b[s]
    {
      assert forall k :: 0 <= k < voxels ==> a[s][k] == b[s][k];
    }
  }

  /**
   * The voxel m behind raster position k along offset j, when it is in the
   * volume, sits at position k - Stride(j).
   */
  lemma BehindPosition(p: Problem, j: int, k: int)
    requires p.input.Valid() && 0 <= j < 3 && 0 <= k < p.Voxels()
    ensures p.input.width > 0 && p.input.height > 0
    ensures var m := Sub(IndexOf(p.input.width, p.input.height, k), Forward(j));
            p.input.Contains(m) ==>
              ArrayIndex(p.input.width, p.input.height, m) == k - Stride(p, j) &&
              0 <= k - Stride(p, j) &&
              IndexOf(p.input.width, p.input.height, k - Stride(p, j)) == m
  {
    var w, h, d := p.input.width, p.input.height, p.input.depth;
    AtRasterPosition(p.input, k);
    var u := IndexOf(w, h, k);
    var m := Sub(u, Forward(j));
    if p.input.Contains(m) {
      assert Add(m, Forward(j)) == u;
      ArrayIndexAdd(w, h, m, Forward(j));
      ArrayIndexBounds(w, h, d, m);
      IndexOfArrayIndex(w, h, d, m);
    }
  }

  /** Before the first voxel the partial matrix is the freshly constructed one. */
  lemma PartialStart(p: Problem)
    requires p.input.Valid()
    ensures PartialMatrix(p, 0, -1) == InitialMatrix(p.Voxels(), p.maxWeight)
  {
    var a, b := PartialMatrix(p, 0, -1), InitialMatrix(p.Voxels(), p.maxWeight);
    forall s, k | 0 <= s < SlotCount && 0 <= k < p.Voxels()
      ensures a[s][k] == b[s][k]
    {
      if Written(p, 0, -1, s, k) {
        var j := (s - 2) / 2;
        assert s == 2 * j + 2;
        BehindPosition(p, j, k);
        assert BuiltAt(p, s, k) == 0;
      }
    }
    MatrixExtensionality(a, b, p.Voxels());
  }

  /** AddTLink at position i with the built T-link values completes the T-link part of step i. */
  lemma PartialTLink(p: Problem, i: int)
    requires p.input.Valid() && 0 <= i < p.Voxels()
    ensures WithCell(WithCell(PartialMatrix(p, i, -1), SourceSlot, i, BuiltAt(p, SourceSlot, i)),
                     SinkSlot, i, BuiltAt(p, SinkSlot, i))
            == PartialMatrix(p, i, 0)
  {
    var before := PartialMatrix(p, i, -1);
    var a := WithCell(WithCell(before, SourceSlot, i, BuiltAt(p, SourceSlot, i)),
                      SinkSlot, i, BuiltAt(p, SinkSlot, i));
    var b := PartialMatrix(p, i, 0);
    forall s, k | 0 <= s < SlotCount && 0 <= k < p.Voxels()
      ensures a[s][k] == b[s][k]
    {
      if s < 2 && k == i {
        assert Written(p, i, 0, s, k);
      } else {
        assert a[s][k] == before[s][k];
        assert Written(p, i, -1, s, k) == Written(p, i, 0, s, k);
      }
    }
    MatrixExtensionality(a, b, p.Voxels());
  }

  /** An ignored voxel writes no N-link: after its T-link its step is complete. */
  lemma PartialIgnoredSkip(p: Problem, i: int)
    requires p.input.Valid() && 0 <= i < p.Voxels()
    requires p.input.width > 0 && p.input.height > 0
    requires p.input.Contains(IndexOf(p.input.width, p.input.height, i))
    requires p.Ignored(IndexOf(p.input.width, p.input.height, i))
    ensures PartialMatrix(p, i, 0) == PartialMatrix(p, i + 1, -1)
  {
    var a, b := PartialMatrix(p, i, 0), PartialMatrix(p, i + 1, -1);
    forall s, k | 0 <= s < SlotCount && 0 <= k < p.Voxels()
      ensures a[s][k] == b[s][k]
    {
      if s >= 2 && WriterPosition(p, s, k) == i {
        if s % 2 == 0 {
          var j := (s - 2) / 2;
          assert s == 2 * j + 2;
          BehindPosition(p, j, k);
        } else {
          assert k == i;
        }
        assert BuiltAt(p, s, k) == 0;
      } else {
        assert Written(p, i, 0, s, k) == Written(p, i + 1, -1, s, k);
      }
    }
    MatrixExtensionality(a, b, p.Voxels());
  }

  /** AddNLink towards an in-volume forward neighbour completes offset j of step i. */
  lemma PartialNLink(p: Problem, i: int, j: int)
    requires p.input.Valid() && 0 <= i < p.Voxels() && 0 <= j < 3
    requires p.input.width > 0 && p.input.height > 0
    requires var v := IndexOf(p.input.width, p.input.height, i);
             p.input.Contains(v) && !p.Ignored(v) && p.input.Contains(Add(v, Forward(j)))
    ensures var v := IndexOf(p.input.width, p.input.height, i);
            var n := Add(v, Forward(j));
            var ni := ArrayIndex(p.input.width, p.input.height, n);
            0 <= ni < p.Voxels() &&
            WithCell(WithCell(PartialMatrix(p, i, j), 2 * j + 3, i, p.boundary(v, n)), 2 * j + 2, ni, p.boundary(n, v))
            == PartialMatrix(p, i, j + 1)
  {
    var w, h, d := p.input.width, p.input.height, p.input.depth;
    var v := IndexOf(w, h, i);
    var n := Add(v, Forward(j));
    var ni := ArrayIndex(w, h, n);
    IndexOfInVolume(w, h, d, i);
    ArrayIndexAdd(w, h, v, Forward(j));
    ArrayIndexBounds(w, h, d, n);
    IndexOfArrayIndex(w, h, d, n);
    assert ni == i + Stride(p, j);
    assert Sub(n, Forward(j)) == v;
    var before := PartialMatrix(p, i, j);
    var a := WithCell(WithCell(before, 2 * j + 3, i, p.boundary(v, n)), 2 * j + 2, ni, p.boundary(n, v));
    var b := PartialMatrix(p, i, j + 1);
    forall s, k | 0 <= s < SlotCount && 0 <= k < p.Voxels()
      ensures a[s][k] == b[s][k]
    {
      if s == 2 * j + 3 && k == i {
        assert (s - 3) / 2 == j;
        assert BuiltAt(p, s, k) == p.boundary(v, n);
        assert Written(p, i, j + 1, s, k);
      } else if s == 2 * j + 2 && k == ni {
        assert (s - 2) / 2 == j;
        assert BuiltAt(p, s, k) == Built(p, s, n) == p.boundary(n, v);
        assert WriterPosition(p, s, k) == i;
      } else {
        assert a[s][k] == before[s][k];
        assert Written(p, i, j, s, k) == Written(p, i, j + 1, s, k);
      }
    }
    MatrixExtensionality(a, b, p.Voxels());
  }

  /** A forward neighbour outside the volume is skipped: nothing is written for offset j. */
  lemma PartialNoNeighbour(p: Problem, i: int, j: int)
    requires p.input.Valid() && 0 <= i < p.Voxels() && 0 <= j < 3
    requires p.input.width > 0 && p.input.height > 0
    requires var v := IndexOf(p.input.width, p.input.height, i);
             p.input.Contains(v) && !p.input.Contains(Add(v, Forward(j)))
    ensures PartialMatrix(p, i, j) == PartialMatrix(p, i, j + 1)
  {
    var a, b := PartialMatrix(p, i, j), PartialMatrix(p, i, j + 1);
    forall s, k | 0 <= s < SlotCount && 0 <= k < p.Voxels()
      ensures a[s][k] == b[s][k]
    {
      if WriterPosition(p, s, k) == i && SlotStep(s) == j {
        if s % 2 == 0 {
          assert s == 2 * j + 2;
          BehindPosition(p, j, k);
          var u := IndexOf(p.input.width, p.input.height, k);
          var m := Sub(u, Forward(j));
        } else {
          assert s == 2 * j + 3 && k == i;
        }
        assert BuiltAt(p, s, k) == 0;
      } else {
        assert Written(p, i, j, s, k) == Written(p, i, j + 1, s, k);
      }
    }
    MatrixExtensionality(a, b, p.Voxels());
  }

  /** After the three offsets, step i is complete. */
  lemma PartialStepDone(p: Problem, i: int)
    requires p.input.Valid()
    ensures PartialMatrix(p, i, 3) == PartialMatrix(p, i + 1, -1)
  {
    var a, b := PartialMatrix(p, i, 3), PartialMatrix(p, i + 1, -1);
    forall s, k | 0 <= s < SlotCount && 0 <= k < p.Voxels()
      ensures a[s][k] == b[s][k]
    {
      assert Written(p, i, 3, s, k) == Written(p, i + 1, -1, s, k);
    }
    MatrixExtensionality(a, b, p.Voxels());
  }

  /** After the last voxel every cell holds its built value. */
  lemma PartialEnd(p: Problem)
    requires p.input.Valid()
    ensures PartialMatrix(p, p.Voxels(), -1) == BuiltMatrix(p)
  {
    var a, b := PartialMatrix(p, p.Voxels(), -1), BuiltMatrix(p);
    forall s, k | 0 <= s < SlotCount && 0 <= k < p.Voxels()
      ensures a[s][k] == b[s][k]
    {
      if s >= 2 && s % 2 == 0 {
        ForwardStride(p.input.width, p.input.height, (s - 2) / 2);
        MulNonNegative(p.input.height, p.input.width);
      }
      assert Written(p, p.Voxels(), -1, s, k);
    }
    MatrixExtensionality(a, b, p.Voxels());
  }

  // ---------------------------------------------------------------------
  // Segmentation extraction

  /** The output label of one voxel from its input value and its segment. */
  function OutputLabel(p: Problem, pixel: int, segment: int): int {
    if pixel == p.ignoreMaskValue then p.backgroundLabel
    else if IsForegroundLabel(segment) then p.foregroundLabel
    else p.backgroundLabel
  }

  /** The output image for the engine's segments. */
  function Labelling(p: Problem, segments: seq<int>): seq<int>
    requires p.input.Valid() && |segments| == |p.input.data|
  {
    seq(|p.input.data|, k requires 0 <= k < |p.input.data| => OutputLabel(p, p.input.data[k], segments[k]))
  }

  // ---------------------------------------------------------------------
  // What the built matrix holds, voxel by voxel

  /** The cell of slot s for voxel v is BuiltMatrix at v's flat index. */
  lemma BuiltCell(p: Problem, s: int, v: Index)
    requires p.input.Valid() && p.input.Contains(v) && 0 <= s < SlotCount
    ensures 0 <= ArrayIndex(p.input.width, p.input.height, v) < p.Voxels()
    ensures BuiltMatrix(p)[s][ArrayIndex(p.input.width, p.input.height, v)] == Built(p, s, v)
  {
    ArrayIndexBounds(p.input.width, p.input.height, p.input.depth, v);
    IndexOfArrayIndex(p.input.width, p.input.height, p.input.depth, v);
  }

  /** An ignored voxel is hard-linked to the background: source 0, sink at the weight maximum. */
  lemma IgnoredVoxelTLinks(p: Problem, v: Index)
    requires p.input.Valid() && p.input.Contains(v) && p.Ignored(v)
    ensures var k := ArrayIndex(p.input.width, p.input.height, v);
            0 <= k < p.Voxels() &&
            BuiltMatrix(p)[SourceSlot][k] == 0 && BuiltMatrix(p)[SinkSlot][k] == p.maxWeight
  {
    BuiltCell(p, SourceSlot, v);
    BuiltCell(p, SinkSlot, v);
  }

  /** Any other voxel's T-links are its regional terms for the foreground and the background label. */
  lemma VoxelTLinks(p: Problem, v: Index)
    requires p.input.Valid() && p.input.Contains(v) && !p.Ignored(v)
    ensures var k := ArrayIndex(p.input.width, p.input.height, v);
            0 <= k < p.Voxels() &&
            BuiltMatrix(p)[SourceSlot][k] == p.regional(v, p.foregroundLabel) &&
            BuiltMatrix(p)[SinkSlot][k] == p.regional(v, p.backgroundLabel)
  {
    BuiltCell(p, SourceSlot, v);
    BuiltCell(p, SinkSlot, v);
  }

  /**
   * A voxel that is not ignored links to each in-volume forward neighbour n:
   * boundary(v, n) in v's slot towards n and boundary(n, v) in n's slot
   * towards v, the slots being VolumeIndexToCapacityIndex.
   */
  lemma ForwardNLinkPair(p: Problem, v: Index, j: int)
    requires p.input.Valid() && 0 <= j < 3
    requires p.input.Contains(v) && !p.Ignored(v) && p.input.Contains(Add(v, Forward(j)))
    ensures var n := Add(v, Forward(j));
            var vk := ArrayIndex(p.input.width, p.input.height, v);
            var nk := ArrayIndex(p.input.width, p.input.height, n);
            0 <= vk < p.Voxels() && 0 <= nk < p.Voxels() &&
            CapacityIndex(v, n) < SlotCount && CapacityIndex(n, v) < SlotCount &&
            BuiltMatrix(p)[CapacityIndex(v, n)][vk] == p.boundary(v, n) &&
            BuiltMatrix(p)[CapacityIndex(n, v)][nk] == p.boundary(n, v)
  {
    var n := Add(v, Forward(j));
    ForwardSlots(v, j);
    BuiltCell(p, 2 * j + 3, v);
    BuiltCell(p, 2 * j + 2, n);
    assert Sub(n, Forward(j)) == v;
  }

  /** An ignored voxel adds none of its own N-links: both halves stay 0. */
  lemma IgnoredVoxelNoNLinks(p: Problem, v: Index, j: int)
    requires p.input.Valid() && 0 <= j < 3
    requires p.input.Contains(v) && p.Ignored(v)
    ensures var n := Add(v, Forward(j));
            var vk := ArrayIndex(p.input.width, p.input.height, v);
            var nk := ArrayIndex(p.input.width, p.input.height, n);
            0 <= vk < p.Voxels() &&
            BuiltMatrix(p)[CapacityIndex(v, n)][vk] == 0 &&
            (p.input.Contains(n) ==> 0 <= nk < p.Voxels() && BuiltMatrix(p)[CapacityIndex(n, v)][nk] == 0)
  {
    var n := Add(v, Forward(j));
    ForwardSlots(v, j);
    BuiltCell(p, 2 * j + 3, v);
    if p.input.Contains(n) {
      BuiltCell(p, 2 * j + 2, n);
      assert Sub(n, Forward(j)) == v;
    }
  }

  /** A neighbour slot whose neighbour lies outside the volume keeps capacity 0. */
  lemma OutsideNeighbourNoCapacity(p: Problem, v: Index, e: Index)
    requires p.input.Valid() && p.input.Contains(v) && UnitOffset(e)
    requires !p.input.Contains(Add(v, e))
    ensures var vk := ArrayIndex(p.input.width, p.input.height, v);
            0 <= vk < p.Voxels() &&
            CapacityIndex(v, Add(v, e)) < SlotCount &&
            BuiltMatrix(p)[CapacityIndex(v, Add(v, e))][vk] == 0
  {
    CapacityIndexOfOffsets(v);
    BuiltCell(p, CapacityIndex(v, Add(v, e)), v);
    if e == MinusX {
      assert Sub(v, Forward(0)) == Add(v, e);
    } else if e == MinusY {
      assert Sub(v, Forward(1)) == Add(v, e);
    } else if e == MinusZ {
      assert Sub(v, Forward(2)) == Add(v, e);
    }
  }

  /** With in-range energy terms, every capacity is a weight in [0, maxWeight]. */
  lemma BuiltIsCapacityMatrix(p: Problem)
    requires p.Valid()
    ensures IsCapacityMatrix(BuiltMatrix(p), p.Voxels(), p.maxWeight)
  {
    var m := BuiltMatrix(p);
    forall s, k | 0 <= s < SlotCount && 0 <= k < p.Voxels()
      ensures 0 <= m[s][k] <= p.maxWeight
    {
      AtRasterPosition(p.input, k);
      var v := IndexOf(p.input.width, p.input.height, k);
      if s >= 2 && s % 2 == 1 {
        var n := Add(v, Forward((s - 3) / 2));
        assert p.input.Contains(n) ==> 0 <= p.boundary(v, n) <= p.maxWeight;
      } else if s >= 2 {
        var n := Sub(v, Forward((s - 2) / 2));
        assert p.input.Contains(n) ==> 0 <= p.boundary(v, n) <= p.maxWeight;
      }
    }
  }

  /**
   * The output holds only the two labels: ignored voxels are background,
   * the others foreground exactly when the engine put them on the source side.
   */
  lemma LabellingValues(p: Problem, segments: seq<int>, k: int)
    requires p.input.Valid() && |segments| == |p.input.data| && 0 <= k < |segments|
    ensures Labelling(p, segments)[k] == p.foregroundLabel || Labelling(p, segments)[k] == p.backgroundLabel
    ensures p.input.data[k] == p.ignoreMaskValue ==> Labelling(p, segments)[k] == p.backgroundLabel
    ensures p.input.data[k] != p.ignoreMaskValue && segments[k] == SourceSegment ==>
              Labelling(p, segments)[k] == p.foregroundLabel
    ensures p.input.data[k] != p.ignoreMaskValue && segments[k] != SourceSegment ==>
              Labelling(p, segments)[k] == p.backgroundLabel
  {
  }

  // ---------------------------------------------------------------------
  // The filter

  class GraphCutImageFilter {
    var verboseOutput: bool
    var destroyGraph: bool
    var ignoreMaskValue: int
    var backgroundLabel: int
    var foregroundLabel: int

    /** The defaults: ignore value 0, background 0, foreground 1, both flags off. */
    constructor ()
      ensures !verboseOutput && !destroyGraph
      ensures ignoreMaskValue == 0 && backgroundLabel == 0 && foregroundLabel == 1
    {
      verboseOutput := false;
      destroyGraph := false;
      ignoreMaskValue := 0;
      backgroundLabel := 0;
      foregroundLabel := 1;
    }

    function ProblemFor(input: Volume<int>, maxWeight: nat, regional: (Index, int) -> int,
                        boundary: (Index, Index) -> int): Problem
      reads this
    {
      Problem(input, ignoreMaskValue, foregroundLabel, backgroundLabel, maxWeight, regional, boundary)
    }

    /**
     * GenerateData: creates a graph with the input's three extents, visits
     * every voxel once in raster order (tLinkWrites[k] sums the AddTLink
     * calls the loop body reports for raster position k), solves, and writes
     * the output labels.
     */
    method GenerateData(input: Volume<int>, maxWeight: nat, regional: (Index, int) -> int,
                        boundary: (Index, Index) -> int, engine: MaxFlowEngine)
      returns (graph: Graph, output: array<int>, ghost tLinkWrites: seq<nat>)
      requires ProblemFor(input, maxWeight, regional, boundary).Valid()
      requires forall m :: ValidCut(engine(m), |input.data|)
      ensures fresh(graph) && fresh(output)
      ensures graph.Valid()
      ensures graph.width == input.width && graph.height == input.height && graph.depth == input.depth
      ensures graph.maxWeight == maxWeight
      ensures graph.cap == BuiltMatrix(ProblemFor(input, maxWeight, regional, boundary))
      ensures graph.isSolved && graph.cut == engine(graph.cap)
      ensures output[..] == Labelling(ProblemFor(input, maxWeight, regional, boundary), graph.cut.segments)
      ensures |tLinkWrites| == |input.data| && forall k :: 0 <= k < |input.data| ==> tLinkWrites[k] == 1
    {
      var p := ProblemFor(input, maxWeight, regional, boundary);
      var n := input.width * input.height * input.depth;
      graph := new Graph(input.width, input.height, input.depth, maxWeight);
      PartialStart(p);
      tLinkWrites := seq(n, k => 0);

      var i := 0;
      while i < n
        invariant 0 <= i <= n
        invariant graph.Valid() && !graph.isSolved
        invariant graph.width == input.width && graph.height == input.height && graph.depth == input.depth
        invariant graph.maxWeight == maxWeight
        invariant graph.cap == PartialMatrix(p, i, -1)
        invariant |tLinkWrites| == n && forall k :: 0 <= k < n ==> tLinkWrites[k] == if k < i then 1 else 0
      {
        ghost var calls := AddVoxelLinks(graph, p, i);
        tLinkWrites := tLinkWrites[i := tLinkWrites[i] + calls];
        i := i + 1;
      }
      PartialEnd(p);

      graph.SolveGraph(engine);
      output := FillOutput(graph, p);
    }
  }

  /**
   * The body of GenerateData's voxel loop at raster position i: the T-link,
   * then, unless the voxel is ignored, an N-link to each in-volume forward
   * neighbour (an out-of-volume neighbour is skipped). tLinkCalls counts the
   * AddTLink calls it makes on voxel i: one on either branch.
   */
  method AddVoxelLinks(graph: Graph, p: Problem, i: int) returns (ghost tLinkCalls: nat)
    requires p.Valid() && 0 <= i < p.Voxels()
    requires graph.Valid() && graph.maxWeight == p.maxWeight
    requires graph.width == p.input.width && graph.height == p.input.height && graph.depth == p.input.depth
    requires graph.cap == PartialMatrix(p, i, -1)
    modifies graph`cap
    ensures graph.Valid()
    ensures graph.cap == PartialMatrix(p, i + 1, -1)
    ensures tLinkCalls == 1
  {
    tLinkCalls := 0;
    var input := p.input;
    AtRasterPosition(input, i);
    IndexOfInVolume(input.width, input.height, input.depth, i);
    var v := IndexOf(input.width, input.height, i);
    var value := input.At(v);
    if value == p.ignoreMaskValue {
      // Hard link to the background and skip the neighbours.
      var thrown := graph.AddTLink(v, 0, p.maxWeight);
      tLinkCalls := tLinkCalls + 1;
      PartialTLink(p, i);
      PartialIgnoredSkip(p, i);
    } else {
      var foreground := p.regional(v, p.foregroundLabel);
      var background := p.regional(v, p.backgroundLabel);
      var thrown := graph.AddTLink(v, foreground, background);
      tLinkCalls := tLinkCalls + 1;
      PartialTLink(p, i);

      var j := 0;
      while j < 3
        invariant 0 <= j <= 3
        invariant graph.Valid()
        invariant graph.cap == PartialMatrix(p, i, j)
      {
        var neighbour := Add(v, Forward(j));
        if input.Contains(neighbour) {
          var capacity := p.boundary(v, neighbour);
          var reverseCapacity := p.boundary(neighbour, v);
          ForwardSlots(v, j);
          ArrayIndexBounds(input.width, input.height, input.depth, neighbour);
          thrown := graph.AddNLink(v, neighbour, capacity, reverseCapacity);
          PartialNLink(p, i, j);
        } else {
          // Out of the region: skip this neighbour.
          PartialNoNeighbour(p, i, j);
        }
        j := j + 1;
      }
      PartialStepDone(p, i);
    }
  }

  /** The output loop of GenerateData: one label per voxel, in raster order. */
  method FillOutput(graph: Graph, p: Problem) returns (output: array<int>)
    requires p.input.Valid() && graph.Valid() && graph.isSolved
    requires graph.width == p.input.width && graph.height == p.input.height && graph.depth == p.input.depth
    ensures fresh(output)
    ensures |graph.cut.segments| == |p.input.data|
    ensures output[..] == Labelling(p, graph.cut.segments)
  {
    var input := p.input;
    var n := |input.data|;
    output := new int[n];
    var k := 0;
    while k < n
      invariant 0 <= k <= n
      invariant forall k' :: 0 <= k' < k ==> output[k'] == Labelling(p, graph.cut.segments)[k']
    {
      AtRasterPosition(input, k);
      IndexOfInVolume(input.width, input.height, input.depth, k);
      var v := IndexOf(input.width, input.height, k);
      if input.At(v) == p.ignoreMaskValue {
        output[k] := p.backgroundLabel;
      } else if IsForegroundLabel(graph.GetSegmentation(v)) {
        output[k] := p.foregroundLabel;
      } else {
        output[k] := p.backgroundLabel;
      }
      k := k + 1;
    }
  }
}

/**
 * The neighbour loop of GraphCutImageFilter::GenerateData as written: its
 * `continue` for a neighbour outside the region jumps back to the loop test
 * without advancing the neighbourhood iterator.
 */
module GraphCutFilterAsWritten {
  import opened Grid
  import opened Images
  import opened GraphCutFilter

  /** The iterator position after one pass of the loop body at position j. */
  function AsWrittenNextOffset(j: int, inRegion: bool): int {
    if inRegion then j + 1 else j
  }

  /** The iterator position after t passes, starting at j (the loop stops at 3). */
  function AsWrittenOffsetAfter(p: Problem, v: Index, j: int, t: nat): int
    requires 0 <= j <= 3
  {
    if t == 0 then j
    else
      var k := AsWrittenOffsetAfter(p, v, j, t - 1);
      if k < 0 || k >= 3 then k else AsWrittenNextOffset(k, p.input.Contains(Add(v, Forward(k))))
  }

  /** At an out-of-region neighbour the position never moves, so the loop never ends. */
  lemma {:induction false} AsWrittenNeighbourLoopStalls(p: Problem, v: Index, j: int, t: nat)
    requires 0 <= j < 3 && !p.input.Contains(Add(v, Forward(j)))
    ensures AsWrittenOffsetAfter(p, v, j, t) == j
  {
    if t > 0 {
      AsWrittenNeighbourLoopStalls(p, v, j, t - 1);
    }
  }

  /** Once the position sits at an out-of-region neighbour, it stays there for every later pass. */
  lemma {:induction false} AsWrittenStallPersists(p: Problem, v: Index, start: int, s: nat, j: int, t: nat)
    requires 0 <= start <= 3 && 0 <= j < 3 && !p.input.Contains(Add(v, Forward(j)))
    requires AsWrittenOffsetAfter(p, v, start, s) == j
    ensures AsWrittenOffsetAfter(p, v, start, s + t) == j
  {
    if t > 0 {
      AsWrittenStallPersists(p, v, start, s, j, t - 1);
      assert AsWrittenOffsetAfter(p, v, start, s + t) ==
             AsWrittenNextOffset(j, p.input.Contains(Add(v, Forward(j))));
    }
  }

  /** The raster loop starts at position 0, the voxel (0, 0, 0). */
  lemma FirstRasterVoxel(width: int, height: int)
    requires width > 0 && height > 0
    ensures IndexOf(width, height, 0) == Index(0, 0, 0)
  {
  }

  /** The 2 × 1 × 1 volume [1, 1] is well formed and holds the voxel (0, 0, 0). */
  lemma TwoVoxelLineShape(input: Volume<int>)
    requires input == Volume(2, 1, 1, [1, 1])
    ensures input.Valid() && input.Contains(Index(0, 0, 0))
  {
  }

  /** The voxel (0, 0, 0) is the first sample. */
  lemma FirstSample(input: Volume<int>)
    requires input.Valid() && input.Contains(Index(0, 0, 0))
    requires input.data == [1, 1]
    ensures input.At(Index(0, 0, 0)) == 1
  {
    assert ArrayIndex(input.width, input.height, Index(0, 0, 0)) == 0;
  }

  /** In a 2 × 1 × 1 volume, (0, 0, 0) has its +x neighbour inside and its +y neighbour outside. */
  lemma TwoVoxelLineNeighbours(input: Volume<int>)
    requires input.width == 2 && input.height == 1 && input.depth == 1
    ensures input.Contains(Add(Index(0, 0, 0), Forward(0)))
    ensures !input.Contains(Add(Index(0, 0, 0), Forward(1)))
  {
    assert Forward(0) == PlusX;
    assert Forward(1) == PlusY;
  }

  /**
   * A concrete input: in a 2 × 1 × 1 volume whose voxels are both 1 (the
   * ignore value being 0), the raster loop starts at (0, 0, 0), which is not
   * ignored. Its neighbour loop adds the +x link and moves on to +y, which
   * lies outside the region; from then on the position stays at +y, so the
   * loop never reaches its end (3) and the second voxel is never visited.
   */
  lemma AsWrittenHangsOnTwoVoxelLine(p: Problem, t: nat)
    requires p.input == Volume(2, 1, 1, [1, 1]) && p.ignoreMaskValue == 0 && t >= 1
    ensures IndexOf(p.input.width, p.input.height, 0) == Index(0, 0, 0)
    ensures p.input.Valid() && p.input.Contains(Index(0, 0, 0)) && !p.Ignored(Index(0, 0, 0))
    ensures p.input.Contains(Add(Index(0, 0, 0), Forward(0)))
    ensures !p.input.Contains(Add(Index(0, 0, 0), Forward(1)))
    ensures AsWrittenOffsetAfter(p, Index(0, 0, 0), 0, t) == 1
  {
    var v := Index(0, 0, 0);
    FirstRasterVoxel(p.input.width, p.input.height);
    TwoVoxelLineShape(p.input);
    FirstSample(p.input);
    TwoVoxelLineNeighbours(p.input);
    assert AsWrittenOffsetAfter(p, v, 0, 1) == 1;
    AsWrittenStallPersists(p, v, 0, 1, 1, t - 1);
  }
}
