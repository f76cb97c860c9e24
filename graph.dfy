/**
 * The capacity-matrix grid graph of Graph.h: eight per-voxel capacity arrays
 * (source and sink T-links, six directional N-links) that the builder fills
 * in place, a one-shot solve by an external max-flow engine, and the
 * solved-flag gating of the segmentation and flow queries.
 */
module CapacityGraph {
  import opened Grid

  /** The number of capacity arrays: 6 neighbours + 2 terminals. */
  const SlotCount := 8

  /** The initial value of a slot: the sink T-link is at the weight maximum, all else 0. */
  function InitialCapacity(slot: int, maxWeight: nat): int {
    if slot == SinkSlot then maxWeight else 0
  }

  /** The capacity matrix right after construction. */
  function InitialMatrix(voxels: nat, maxWeight: nat): (m: seq<seq<int>>)
    ensures |m| == SlotCount
    ensures forall s :: 0 <= s < SlotCount ==> |m[s]| == voxels
    ensures forall k :: 0 <= k < voxels ==> m[SinkSlot][k] == maxWeight
    ensures forall s, k :: 0 <= s < SlotCount && s != SinkSlot && 0 <= k < voxels ==> m[s][k] == 0
  {
    seq(SlotCount, s => seq(voxels, k => InitialCapacity(s, maxWeight)))
  }

  /** Eight arrays of `voxels` capacities each, every capacity in [0, maxWeight]. */
  predicate IsCapacityMatrix(m: seq<seq<int>>, voxels: nat, maxWeight: nat) {
    |m| == SlotCount &&
    (forall s :: 0 <= s < SlotCount ==> |m[s]| == voxels) &&
    (forall s, k :: 0 <= s < SlotCount && 0 <= k < voxels ==> 0 <= m[s][k] <= maxWeight)
  }

  /** `m` with the one cell (slot, k) overwritten by c. */
  function WithCell(m: seq<seq<int>>, slot: int, k: int, c: int): (r: seq<seq<int>>)
    requires 0 <= slot < |m| && 0 <= k < |m[slot]|
    ensures |r| == |m| && forall s :: 0 <= s < |m| ==> |r[s]| == |m[s]|
    ensures r[slot][k] == c
    ensures forall s, i :: 0 <= s < |m| && 0 <= i < |m[s]| && (s != slot || i != k) ==> r[s][i] == m[s][i]
  {
    m[slot := m[slot][k := c]]
  }

  /** What the max-flow engine reports: a segment per node and the total flow. */
  datatype Cut = Cut(segments: seq<int>, flow: int)

  /** The segment of the source side (foreground) and of the sink side (background). */
  const SourceSegment := 0
  const SinkSegment := 1

  /** The engine's contract: one segment, SOURCE or SINK, per node and a non-negative flow. */
  predicate ValidCut(c: Cut, voxels: nat) {
    |c.segments| == voxels &&
    (forall k :: 0 <= k < voxels ==> c.segments[k] == SourceSegment || c.segments[k] == SinkSegment) &&
    c.flow >= 0
  }

  /** The external max-flow solver: from the capacity matrix to a cut. */
  type MaxFlowEngine = seq<seq<int>> -> Cut

  /** The value GetSegmentation and GetMaxFlow return before SolveGraph. */
  const NotSolved := -1

  class Graph {
    const width: nat
    const height: nat
    const depth: nat
    const numberOfVoxels: nat
    /** numeric_limits<TWeight>::max(), the "infinite" hard-link capacity. */
    const maxWeight: nat

    var cap: seq<seq<int>>
    var isSolved: bool
    /** The engine's answer, meaningful once isSolved holds. */
    var cut: Cut

    ghost predicate Valid()
      reads this
    {
      numberOfVoxels == width * height * depth &&
      IsCapacityMatrix(cap, numberOfVoxels, maxWeight) &&
      (isSolved ==> ValidCut(cut, numberOfVoxels))
    }

    /** Graph(width, height, depth, …): allocates the eight arrays with their defaults. */
    constructor (width: nat, height: nat, depth: nat, maxWeight: nat)
      ensures Valid()
      ensures this.width == width && this.height == height && this.depth == depth
      ensures this.maxWeight == maxWeight && numberOfVoxels == width * height * depth
      ensures cap == InitialMatrix(width * height * depth, maxWeight)
      ensures !isSolved
    {
      this.width := width;
      this.height := height;
      this.depth := depth;
      this.maxWeight := maxWeight;
      this.numberOfVoxels := width * height * depth;
      cap := seq(SlotCount, s => seq(width * height * depth, k => InitialCapacity(s, maxWeight)));
      isSolved := false;
      cut := Cut([], 0);
    }

    /** GetArrayIndex on this graph's extents. */
    function GetArrayIndex(v: Index): int
      reads this
    {
      ArrayIndex(width, height, v)
    }

    /** The cell (slot, k) exists: the bounds `at` checks before each write. */
    predicate HasCell(slot: int, k: int)
      reads this
    {
      0 <= slot < SlotCount && 0 <= k < numberOfVoxels
    }

    /**
     * AddTLink: overwrites the source and sink capacities of one voxel and
     * leaves every other cell as it was. A voxel outside the arrays makes
     * `at` throw before anything is written (outOfRange).
     */
    method AddTLink(v: Index, foreground: int, background: int) returns (outOfRange: bool)
      requires Valid()
      requires 0 <= foreground <= maxWeight && 0 <= background <= maxWeight
      modifies this`cap
      ensures Valid()
      ensures outOfRange <==> !(0 <= GetArrayIndex(v) < numberOfVoxels)
      ensures outOfRange ==> cap == old(cap)
      ensures !outOfRange ==>
                cap == WithCell(WithCell(old(cap), SourceSlot, GetArrayIndex(v), foreground),
                                SinkSlot, GetArrayIndex(v), background)
      ensures !outOfRange ==>
                cap[SourceSlot][GetArrayIndex(v)] == foreground && cap[SinkSlot][GetArrayIndex(v)] == background
      ensures forall s, k ::
                0 <= s < SlotCount && 0 <= k < numberOfVoxels &&
                !((s == SourceSlot || s == SinkSlot) && k == GetArrayIndex(v))
                ==> cap[s][k] == old(cap[s][k])
    {
      var k := GetArrayIndex(v);
      if !HasCell(SourceSlot, k) {
        return true;
      }
      cap := WithCell(cap, SourceSlot, k, foreground);
      cap := WithCell(cap, SinkSlot, k, background);
      return false;
    }

    /**
     * AddNLink: writes the a→b capacity into a's slot towards b, then the b→a
     * capacity into b's slot towards a. A slot or index outside the matrix
     * (a pair that is not unit-adjacent, a voxel outside the volume) makes
     * `at` throw at that write, after the writes before it. For unit-adjacent
     * voxels the two cells are distinct N-link cells and nothing else changes.
     */
    method AddNLink(a: Index, b: Index, capacity: int, reverseCapacity: int) returns (outOfRange: bool)
      requires Valid()
      requires 0 <= capacity <= maxWeight && 0 <= reverseCapacity <= maxWeight
      modifies this`cap
      ensures Valid()
      ensures outOfRange <==>
                !HasCell(CapacityIndex(a, b), GetArrayIndex(a)) || !HasCell(CapacityIndex(b, a), GetArrayIndex(b))
      ensures !HasCell(CapacityIndex(a, b), GetArrayIndex(a)) ==> cap == old(cap)
      ensures HasCell(CapacityIndex(a, b), GetArrayIndex(a)) && !HasCell(CapacityIndex(b, a), GetArrayIndex(b)) ==>
                cap == WithCell(old(cap), CapacityIndex(a, b), GetArrayIndex(a), capacity)
      ensures !outOfRange ==>
                cap == WithCell(WithCell(old(cap), CapacityIndex(a, b), GetArrayIndex(a), capacity),
                                CapacityIndex(b, a), GetArrayIndex(b), reverseCapacity)
      ensures !outOfRange && Adjacent(a, b) ==>
                cap[CapacityIndex(a, b)][GetArrayIndex(a)] == capacity &&
                cap[CapacityIndex(b, a)][GetArrayIndex(b)] == reverseCapacity &&
                cap[SourceSlot] == old(cap[SourceSlot]) && cap[SinkSlot] == old(cap[SinkSlot])
      ensures forall s, k ::
                0 <= s < SlotCount && 0 <= k < numberOfVoxels &&
                !(s == CapacityIndex(a, b) && k == GetArrayIndex(a)) &&
                !(s == CapacityIndex(b, a) && k == GetArrayIndex(b))
                ==> cap[s][k] == old(cap[s][k])
    {
      if Adjacent(a, b) {
        CapacityIndexPaired(a, b);
      }
      if !HasCell(CapacityIndex(a, b), GetArrayIndex(a)) {
        return true;
      }
      cap := WithCell(cap, CapacityIndex(a, b), GetArrayIndex(a), capacity);
      if !HasCell(CapacityIndex(b, a), GetArrayIndex(b)) {
        return true;
      }
      cap := WithCell(cap, CapacityIndex(b, a), GetArrayIndex(b), reverseCapacity);
      return false;
    }

    /**
     * SolveGraph: hands the capacity matrix to the engine and records its cut;
     * the capacities themselves are not touched.
     */
    method SolveGraph(engine: MaxFlowEngine)
      requires Valid()
      requires ValidCut(engine(cap), numberOfVoxels)
      modifies this`isSolved, this`cut
      ensures Valid()
      ensures isSolved && cut == engine(cap)
    {
      cut := engine(cap);
      isSolved := true;
    }

    /**
     * GetSegmentation: the engine's segment (SOURCE or SINK) of a voxel once
     * solved, the sentinel -1 before.
     */
    function GetSegmentation(v: Index): (segment: int)
      reads this
      requires Valid()
      requires isSolved ==> 0 <= GetArrayIndex(v) < numberOfVoxels
      ensures !isSolved ==> segment == NotSolved
      ensures isSolved ==> segment == cut.segments[GetArrayIndex(v)]
      ensures isSolved ==> (segment == SourceSegment || segment == SinkSegment)
    {
      if isSolved then cut.segments[GetArrayIndex(v)] else NotSolved
    }

    /** GetMaxFlow: the engine's flow once solved, the sentinel -1 before. */
    function GetMaxFlow(): (flow: int)
      reads this
      requires Valid()
      ensures !isSolved ==> flow == NotSolved
      ensures isSolved ==> flow == cut.flow && flow >= 0
    {
      if isSolved then cut.flow else NotSolved
    }
  }

  /** For unit-adjacent voxels the two cells AddNLink writes are distinct N-link cells. */
  lemma AddNLinkCellsDistinct(a: Index, b: Index)
    requires Adjacent(a, b)
    ensures CapacityIndex(a, b) != CapacityIndex(b, a)
    ensures CapacityIndex(a, b) !in {SourceSlot, SinkSlot} && CapacityIndex(b, a) !in {SourceSlot, SinkSlot}
  {
    CapacityIndexPaired(a, b);
  }

  /** Before SolveGraph the segmentation sentinel reads as background. */
  lemma SentinelIsBackground()
    ensures !IsForegroundLabel(NotSolved)
    ensures IsForegroundLabel(SourceSegment) && !IsForegroundLabel(SinkSegment)
  {
  }
}
