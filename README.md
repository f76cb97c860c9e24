# Graph-cut segmentation of 3D volumes: a verified model

This project is a Dafny model of the core of an ITK-based graph-cut segmentation library for 3D images, together with proofs about that model.

- **Graph.** A `Graph` holds a capacity matrix of eight per-voxel arrays:
  - slot 0 is the source (foreground) T-link;
  - slot 1 is the sink (background) T-link;
  - slots 2-7 are the N-links towards the six neighbours −x, +x, −y, +y, −z, +z.
- **Builder.** `GraphCutImageFilter::GenerateData` fills that matrix:
  - it visits every voxel in raster order;
  - an ignore-valued voxel is hard-linked to the background;
  - every other voxel gets T-links from a regional energy term, and N-links towards its in-volume +x, +y and +z neighbours from a boundary energy term, in both directions.
- **Solving and output.** An external max-flow engine solves the graph. The filter then labels each voxel foreground or background.
- **Energy terms.** Two filters supply the terms:
  - the standard filter: hard seeds from a label image, and a scaled Gaussian of the grey-value difference;
  - the modified-sheetness filter: hard seeds from its input, and a Gaussian or a constant 1, depending on the sign of the sheetness difference and a boundary direction.
- **Backend-neutral variant.** `ImageGraphCut3DFilter` numbers voxels by unrolling their index and drives an abstract backend. It is modelled through the sequence of backend calls it makes.
- **Kolmogorov backend.** Its wrapper sizes its graph from the grid's vertex and edge counts.

Modules and files:

| File | Module | Contents |
|---|---|---|
| `grid.dfy` | `Grid` | voxel indices, the six unit offsets, the flat raster index (`GetArrayIndex`) and its inverse, the direction slot (`VolumeIndexToCapacityIndex`), `IsForegroundLabel` |
| `image.dfy` | `Images` | `Volume<T>`, a W×H×D image stored in raster order |
| `graph.dfy` | `CapacityGraph` | the `Graph` class: a capacity matrix (`seq<seq<int>>` field, updated in place), the solved flag, the engine's cut |
| `builder.dfy` | `GraphCutFilter` | the `GraphCutImageFilter` class and its `GenerateData`, proved against a specification `BuiltMatrix` of the final capacity matrix |
| `builder.dfy` | `GraphCutFilterAsWritten` | the neighbour loop exactly as written, which does not advance past an out-of-region neighbour |
| `standard.dfy` | `StandardFilter` | the standard filter's defaults and energy terms |
| `sheetness.dfy` | `ModifiedSheetness` | the sheetness filter's energy terms and its setter class |
| `image_filter.dfy` | `ImageGraphCut3D` | `ConvertIndexToVertexDescriptor` and the `ImageGraphCut3DFilter` class |
| `kolmogorov.dfy` | `KolmogorovBackend` | `calculateNumberOfEdges` and the vertex count |

How each outside dependency is modelled:

- **Weights.** `TWeight` is an integer type given by its maximum `maxWeight`, the "infinite" hard-link capacity.
- **Gaussian.** `exp(-d²/2σ²)` is a function parameter `g`. It is known only by the properties the filters rely on (predicate `GaussianLike`): a value in [0, 1], exactly 1 at d = 0, and the same for d and −d.
- **Max-flow engine.** It is a function parameter from the capacity matrix to a `Cut`, which holds a segment per node and a flow.
- **Energy terms of the builder.** The regional and boundary terms are function parameters of a `Problem`. The two filters then instantiate them.

## Model

| member | source | states |
|---|---|---|
| Grid.Forward | include/GraphCutImageFilter.hxx:60-65 | each of the three activated offsets +x, +y, +z is a unit offset of the 6-neighbourhood |
| Grid.ArrayIndexBijective | include/Graph.h:95-99 | on the voxels of a W×H×D volume, GetArrayIndex is injective and lands in [0, W·H·D) |
| Grid.IndexOfInVolume | include/Graph.h:95-99 | every flat position in [0, W·H·D) is the GetArrayIndex of an in-volume voxel, so the map is onto |
| Grid.IndexOfArrayIndex | include/Graph.h:95-99 | the raster decomposition (k mod W, (k div W) mod H, k div WH) inverts GetArrayIndex on the volume |
| Grid.ArrayIndexAdd | include/Graph.h:98 | the flat index is additive in the voxel index, so stepping by an offset adds that offset's flat index |
| Grid.ForwardStride | include/Graph.h:98 | the forward offsets +x, +y, +z advance the flat index by 1, W and W·H |
| Grid.CapacityIndexOfOffsets | include/Graph.h:158-163 | the six unit offsets from any centre map to slots −x→2, +x→3, −y→4, +y→5, −z→6, +z→7 |
| Grid.CapacityIndexTranslation | include/Graph.h:159-162 | the slot depends only on neighbour − centre, not on the absolute position |
| Grid.CapacityIndexPaired | include/Graph.h:159-162 | for unit-adjacent voxels the slots of (a, b) and (b, a) lie in 2..7, differ, form one pair {2,3}, {4,5} or {6,7}, and the odd one is the forward direction |
| Grid.ForwardSlots | include/Graph.h:158-163 | the forward offset j is written in slot 2j+3 of the centre and slot 2j+2 of the neighbour |
| Images.AtRasterPosition | include/GraphCutImageFilter.hxx:68-71 | the voxel visited at raster position k is in the volume and its pixel is the k-th stored sample |
| CapacityGraph.InitialMatrix | include/Graph.h:73-81 | 8 arrays of W·H·D capacities; the sink array is all maxWeight, the other seven all 0 |
| CapacityGraph.Graph.constructor | include/Graph.h:62-82 | the graph records the extents, W·H·D voxels and the initial matrix, and is not solved |
| CapacityGraph.Graph.AddTLink | include/Graph.h:150-156 | writes the foreground and background capacities into slots 0 and 1 of the voxel's index and changes no other cell; an index outside the arrays throws before writing |
| CapacityGraph.Graph.AddNLink | include/Graph.h:142-148 | writes capacity in a's slot towards b and reverseCapacity in b's slot towards a, leaving every other cell and both T-link arrays unchanged; if a cell is missing, the writes before it stay and the call throws |
| CapacityGraph.Graph.SolveGraph | include/Graph.h:101-112 | sets the solved flag and records the engine's cut of the current capacities; the capacities are untouched |
| CapacityGraph.Graph.GetSegmentation | include/Graph.h:114-126 | returns −1 before solving, and afterwards the engine's segment (SOURCE or SINK) of the voxel's node |
| CapacityGraph.Graph.GetMaxFlow | include/Graph.h:133-140 | returns −1 before solving, and afterwards the engine's non-negative flow |
| CapacityGraph.AddNLinkCellsDistinct | include/Graph.h:142-148 | for unit-adjacent voxels the two cells AddNLink writes are different N-link cells, never a T-link cell |
| CapacityGraph.SentinelIsBackground | include/Graph.h:114-131 | IsForegroundLabel holds for the source segment 0 only: not for the sink segment 1, nor for the unsolved sentinel −1 |
| GraphCutFilter.IgnoredVoxelTLinks | include/GraphCutImageFilter.hxx:72-76 | in the built matrix an ignore-valued voxel has T-links (0, maxWeight) |
| GraphCutFilter.VoxelTLinks | include/GraphCutImageFilter.hxx:78-81 | any other voxel has T-links (Regional(v, FG), Regional(v, BG)) |
| GraphCutFilter.ForwardNLinkPair | include/GraphCutImageFilter.hxx:84-101 | a voxel that is not ignored, with an in-volume forward neighbour n, holds Boundary(v, n) in its slot towards n, and n holds Boundary(n, v) in its slot towards v |
| GraphCutFilter.IgnoredVoxelNoNLinks | include/GraphCutImageFilter.hxx:72-76 | an ignored voxel adds none of its own forward N-links: both halves stay 0 |
| GraphCutFilter.OutsideNeighbourNoCapacity | include/GraphCutImageFilter.hxx:85-90 | a slot towards a neighbour outside the volume keeps capacity 0: border neighbours are skipped |
| GraphCutFilter.BuiltIsCapacityMatrix | include/GraphCutImageFilter.hxx:78-98 | with energy terms in [0, maxWeight], every capacity the builder writes is a non-negative weight, as AddTLink and AddNLink assert |
| GraphCutFilter.LabellingValues | include/GraphCutImageFilter.hxx:111-121 | each output value is one of the two labels: background for an ignored voxel, otherwise foreground iff the engine put the voxel on the source side |
| GraphCutFilter.GraphCutImageFilter.constructor | include/GraphCutImageFilter.hxx:16-22 | defaults: VerboseOutput and DestroyGraph off, ignore value 0, background 0, foreground 1 |
| GraphCutFilter.GraphCutImageFilter.GenerateData | include/GraphCutImageFilter.hxx:33-128 | the graph is created with the input's extents; after one raster pass its capacities are BuiltMatrix, and the loop body reports exactly one AddTLink call for every raster position; then it is solved with the engine's cut, and the output is the labelling of that cut |
| GraphCutFilter.AddVoxelLinks | include/GraphCutImageFilter.hxx:68-102 | one pass of the voxel loop takes the matrix from "voxels before i done" to "voxels up to i done": the T-link, then either the ignore skip or an N-link to each in-volume forward neighbour; it makes exactly one AddTLink call |
| GraphCutFilter.FillOutput | include/GraphCutImageFilter.hxx:107-121 | the output loop writes exactly the labelling of the solved graph's segments |
| GraphCutFilterAsWritten.AsWrittenNeighbourLoopStalls | include/GraphCutImageFilter.hxx:85-90 | as written, once the neighbour iterator reaches an out-of-region offset it stays there for any number of passes |
| GraphCutFilterAsWritten.AsWrittenStallPersists | include/GraphCutImageFilter.hxx:85-90 | once the neighbour iterator has reached an out-of-region offset, it is still there after any number of further passes |
| GraphCutFilterAsWritten.AsWrittenHangsOnTwoVoxelLine | include/GraphCutImageFilter.hxx:68-90 | on the 2×1×1 volume [1, 1] with ignore value 0, the raster loop starts at (0, 0, 0), which is not ignored. Its neighbour loop passes +x, which is inside, then stays at +y, which is outside, after every number t ≥ 1 of passes. It never reaches the end, so the second voxel is never visited |
| StandardFilter.DefaultWeightScale | include/StandardGraphCutImageFilter.hxx:10 | for integer weights the default scale (max − 1)/6 is the largest s with 6·s ≤ max − 1 |
| StandardFilter.DefaultParameters | include/StandardGraphCutImageFilter.hxx:5-13 | defaults: sigma 0.1, and six full boundary terms plus 1 stay within the maximum |
| StandardFilter.RegionalTerm | include/StandardGraphCutImageFilter.hxx:20-37 | every regional term is 0 or the maximum weight |
| StandardFilter.RegionalTermHardLinkIff | include/StandardGraphCutImageFilter.hxx:26-36 | the term is the maximum exactly when the label image holds the queried label (background for a background query, foreground for any other label), and 0 otherwise |
| StandardFilter.ForegroundSeedHardLinked | include/StandardGraphCutImageFilter.hxx:31-36 | a foreground seed gets the maximum for the foreground query and 0 for the background query |
| StandardFilter.BackgroundSeedHardLinked | include/StandardGraphCutImageFilter.hxx:26-30 | a background seed gets the maximum for the background query and 0 for the foreground query |
| StandardFilter.UnlabelledVoxelFree | include/StandardGraphCutImageFilter.hxx:26-36 | a voxel with neither label gets 0 for every query |
| StandardFilter.BoundaryTermRange | include/StandardGraphCutImageFilter.hxx:52-54 | the boundary term lies in [0, scale] and equals the scale between equal intensities |
| StandardFilter.BoundaryTermSymmetric | include/StandardGraphCutImageFilter.hxx:52-54 | Boundary(a, b) == Boundary(b, a) |
| StandardFilter.NeighbourhoodBelowHardLink | include/StandardGraphCutImageFilter.hxx:47-51 | with the default scale, the boundary terms of up to six neighbours sum to at most max − 1, below a hard link |
| StandardFilter.StandardProblemValid | include/StandardGraphCutImageFilter.hxx:20-55 | both terms yield valid weights in [0, max] for the builder |
| ModifiedSheetness.RegionalTerm | include/ModifiedSheetnessGraphCutImageFilter.hxx:20-38 | every regional term is 0 or the maximum weight |
| ModifiedSheetness.RegionalSeeds | include/ModifiedSheetnessGraphCutImageFilter.hxx:28-35 | a foreground seed gets (max, 0) and a background seed (0, max) for the (FG, BG) queries; any other voxel gets (0, 0) |
| ModifiedSheetness.BoundaryTermBinary | include/ModifiedSheetnessGraphCutImageFilter.hxx:47-55 | with no scale applied, the truncated term is 0 or 1, and 1 between equal sheetness values |
| ModifiedSheetness.NoDirectionIsGaussian | include/ModifiedSheetnessGraphCutImageFilter.hxx:48 | with direction 0 both orders of every pair take the Gaussian branch |
| ModifiedSheetness.DirectedTermAsymmetric | include/ModifiedSheetnessGraphCutImageFilter.hxx:48-53 | with direction ±1 and different values, exactly one order takes the Gaussian branch, and the other costs 1 |
| ModifiedSheetness.BrightToDarkDirection | include/ModifiedSheetnessGraphCutImageFilter.hxx:48-53 | bright-to-dark: a step down from a to b takes the Gaussian, and a step up costs 1 |
| ModifiedSheetness.SheetnessProblemValid | include/ModifiedSheetnessGraphCutImageFilter.hxx:20-56 | for any maximum ≥ 1 both terms yield valid weights for the builder |
| ModifiedSheetness.ModifiedSheetnessGraphCutImageFilter.constructor | include/ModifiedSheetnessGraphCutImageFilter.hxx:5-13 | defaults: sigma 0.1, direction 1 (bright-to-dark) |
| ModifiedSheetness.ModifiedSheetnessGraphCutImageFilter.SetSigma | include/ModifiedSheetnessGraphCutImageFilter.h:40 | stores sigma, keeps the direction, and bumps the modification time only when the value changes |
| ModifiedSheetness.ModifiedSheetnessGraphCutImageFilter.GetSigma | include/ModifiedSheetnessGraphCutImageFilter.h:41 | returns the stored sigma, so it reads back what SetSigma stored |
| ModifiedSheetness.ModifiedSheetnessGraphCutImageFilter.CutBrightToDarkOn | include/ModifiedSheetnessGraphCutImageFilter.h:43-45 | sets the direction to 1, keeping it in {−1, 0, 1} |
| ModifiedSheetness.ModifiedSheetnessGraphCutImageFilter.CutDarkToBrightOn | include/ModifiedSheetnessGraphCutImageFilter.h:47-49 | sets the direction to −1, keeping it in {−1, 0, 1} |
| ModifiedSheetness.ModifiedSheetnessGraphCutImageFilter.CutNoDirection | include/ModifiedSheetnessGraphCutImageFilter.h:51-53 | sets the direction to 0, keeping it in {−1, 0, 1} |
| ModifiedSheetness.ModifiedSheetnessGraphCutImageFilter.CutBrightToDark | include/ModifiedSheetnessGraphCutImageFilter.h:55-61 | true gives direction 1 and false gives −1; never 0 |
| ImageGraphCut3D.ConvertIndexToVertexDescriptor | include/ImageGraphCutFilter.hxx:135-150 | the loop computes Σ index[i]·Π_{j<i} size[j], and for an in-region index the result is below Π size |
| ImageGraphCut3D.UnrollBound | include/ImageGraphCutFilter.hxx:141-147 | the loop invariant: in the region, every prefix extent is positive and the prefix descriptor is below it |
| ImageGraphCut3D.UnrollInjective | include/ImageGraphCutFilter.hxx:144-147 | two in-region indices with the same unrolled prefix agree on that prefix |
| ImageGraphCut3D.VertexDescriptorsDistinct | include/ImageGraphCutFilter.hxx:144-147 | distinct in-region indices get distinct vertex descriptors |
| ImageGraphCut3D.UnrollIsArrayIndex | include/ImageGraphCutFilter.hxx:144-147 | in 3-D the vertex descriptor is x + W·y + W·H·z, which is Graph's GetArrayIndex |
| ImageGraphCut3D.ImageGraphCut3DFilter.constructor | include/ImageGraphCutFilter.hxx:16-26 | defaults: VerboseOutput and DestroyGraph off, ignore value 0, background 0, foreground 1, and no backend calls yet |
| ImageGraphCut3D.ImageGraphCut3DFilter.GenerateData | include/ImageGraphCutFilter.hxx:33-110 | makes exactly the calls InitializeGraph, the traversal's links, SolveGraph, and DestroyGraph iff the flag is set; the output is the labelling from the backend's segmentation |
| ImageGraphCut3D.ImageGraphCut3DFilter.BuildGraph | include/ImageGraphCutFilter.hxx:54-89 | the voxel loop appends the calls of every voxel in raster order |
| ImageGraphCut3D.ImageGraphCut3DFilter.AddVoxelCalls | include/ImageGraphCutFilter.hxx:55-88 | one voxel's calls: none if ignored, else its T-link followed by an N-link per active in-bounds offset |
| ImageGraphCut3D.FillOutput | include/ImageGraphCutFilter.hxx:94-104 | the output loop writes exactly the labelling |
| ImageGraphCut3D.NeighbourCallsAreNLinks | include/ImageGraphCutFilter.hxx:68-88 | the neighbour loop makes only N-link calls from the voxel's own vertex, and no T-link |
| ImageGraphCut3D.VoxelTLinkCount | include/ImageGraphCutFilter.hxx:56-65 | a voxel's calls hold one T-link, on its own vertex, when it is not ignored, and none otherwise |
| ImageGraphCut3D.TraversalTLinkCount | include/ImageGraphCutFilter.hxx:54-89 | over the first i voxels, each visited voxel that is not ignored has exactly one T-link, and every other node none |
| ImageGraphCut3D.RunTLinks | include/ImageGraphCutFilter.hxx:54-89 | over a whole run, each voxel has exactly one T-link when not ignored and none when ignored |
| ImageGraphCut3D.IgnoredVoxelNoCalls | include/ImageGraphCutFilter.hxx:56-59 | an ignored voxel makes no backend call at all |
| ImageGraphCut3D.TraversalCallsAreLinks | include/ImageGraphCutFilter.hxx:54-89 | the traversal makes only AddTLink and AddNLink calls |
| ImageGraphCut3D.DestroyedIffFlag | include/ImageGraphCutFilter.hxx:107-109 | DestroyGraph is called iff the flag is set, and then as the last call; InitializeGraph comes first |
| ImageGraphCut3D.LabellingValues | include/ImageGraphCutFilter.hxx:98-104 | an ignored voxel is background; any other voxel gets the backend's segmentation of its vertex |
| KolmogorovBackend.CalculateNumberOfEdges | MaxFlowGraphKolmogorov.hxx:75-81 | ((3x − 1)·y − x)·z − x·y equals (x−1)yz + x(y−1)z + xy(z−1), the number of neighbouring pairs along the three axes |
| KolmogorovBackend.EdgesBySlices | MaxFlowGraphKolmogorov.hxx:75-81 | the count agrees with an independent slice-by-slice count of the grid's edges |
| KolmogorovBackend.EdgesNonNegative | MaxFlowGraphKolmogorov.hxx:75-81 | for a grid with every extent ≥ 1 the count is non-negative |
| KolmogorovBackend.EdgesSymmetric | MaxFlowGraphKolmogorov.hxx:75-81 | the count does not depend on the order of the axes |
| KolmogorovBackend.SmallGridEdges | MaxFlowGraphKolmogorov.hxx:75-81 | a single voxel has 0 edges and a line of two has 1 |
| KolmogorovBackend.NumberOfVertices | MaxFlowGraphKolmogorov.hxx:24 | one vertex per voxel, d1·d2·d3, never negative for unsigned extents |
| KolmogorovBackend.CubeEdges | MaxFlowGraphKolmogorov.hxx:22-31 | a 3×3×3 grid is allocated with 27 vertices and 54 edges |

## Left out

- The max-flow solvers are foreign code and are not part of this model:
  - the GridCut calls (`set_caps`, `compute_maxflow`, `get_segment`, `get_flow`, `node_id`);
  - the Kolmogorov library calls behind `addBidirectionalEdge`, `addTerminalEdges`, `calculateMaxFlow`, `groupOf`, `getNumberOfVertices` and `getNumberOfEdges`.

  `SolveGraph` takes the engine as a parameter, and the engine may return any cut with one SOURCE/SINK segment per node and a non-negative flow. Node ids are taken to be the flat array index.
- Floating point is not modelled:
  - `vcl_exp` and `vcl_pow` are replaced by the abstract Gaussian `g`;
  - sigma is a `real` that only feeds `g`;
  - the casts to `TWeight` are truncations of non-negative reals (`Floor`).
- StandardFilter.DefaultWeightScale: models integer weight types only. A floating-point `TWeight` would subtract a non-zero `epsilon()`.
- Threads and `block_size` are not modelled. They are passed to the solver and change only its performance.
- The ITK pipeline is not modelled: inputs and outputs, regions, smart pointers, iterators, `EnlargeOutputRequestedRegion`, `PrintSelf`, `itkGetMacro`/`itkSetMacro` for the other settings, and the declaration headers.
  - Volumes are plain sequences over their largest possible region, and output is written in raster order.
  - In the standard filter, the input, label and grey images are taken over the same region.
- Integer widths are not modelled:
  - indices, `GetArrayIndex`, vertex descriptors and edge counts are unbounded integers, so 32-bit unsigned wrap-around is not captured (for example, `calculateNumberOfEdges` mixes `unsigned int` and `int`);
  - CapacityGraph.Graph.GetMaxFlow: the sentinel is −1; for an unsigned `TWeight` the cast `(TWeight)-1` wraps to the type's maximum;
  - the `assert(capacity >= 0)` checks in `AddTLink`/`AddNLink` are preconditions.
- CapacityGraph.Graph.AddTLink and CapacityGraph.Graph.AddNLink: a `std::out_of_range` thrown by `.at()` is reported as the result `outOfRange`. Exception propagation is not modelled.
- GraphCutFilter.GraphCutImageFilter.GenerateData: the builder's neighbour loop follows the evidently intended behaviour and skips an out-of-region neighbour. The loop as written is modelled separately under Findings.
- GraphCutFilter.GraphCutImageFilter.GenerateData: the commented-out `DestroyGraph` call at include/GraphCutImageFilter.hxx:123-126 is not modelled. The graph is simply returned.
- GraphCutFilter.GraphCutImageFilter: `verboseOutput` is recorded but has no effect on the model.
- The forward N-links written for a backward neighbour are faithful, not a defect of the model. An ignored voxel still receives the reverse half of the N-link from its non-ignored backward neighbour, because that neighbour does not test the ignore value of its forward neighbour.
- ImageGraphCut3D.ConvertIndexToVertexDescriptor: returns the accumulated `vertexDescriptor`. Line 149 of include/ImageGraphCutFilter.hxx names the type instead, and would not compile.
- ImageGraphCut3D.ImageGraphCut3DFilter.GenerateData has several simplifications:
  - the calls at include/ImageGraphCutFilter.hxx:65 and 81-82 pass a single argument to the two-argument `ConvertIndexToVertexDescriptor`; the model passes the input's size;
  - the active offsets of `GetIterator()` (implemented by subclasses that are not part of this model) are a parameter;
  - `GetGraphCutSegmentation`, declared `void` in include/ImageGraphCutFilter.h, is modelled as a function from vertex to label;
  - the other virtual backend methods are recorded as calls.
- ImageGraphCut3D.ImageGraphCut3DFilter.AddVoxelCalls: models the intended skip of an out-of-bounds neighbour. The `continue` at include/ImageGraphCutFilter.hxx:71-73 has the same missing increment as the one under Findings, and is not modelled as written.
- The Examples programs are not modelled (argument parsing, image I/O and the `LabelImage` helpers).
- The end-to-end expectations of the tests are not modelled. They depend on the solver's cut, as does test/TestSegmentation.cpp.

## Findings

| source | as written | input that shows it | evidently intended | confidence | as-written member | corrected member |
|---|---|---|---|---|---|---|
| include/GraphCutImageFilter.hxx:85-90 | `continue` for a neighbour outside the region returns to the loop test without `++neighborhoodIterator`, so the same offset is tested forever | a 2×1×1 volume with pixels [1, 1] and the default ignore value 0: the first voxel (0, 0, 0) adds its +x link, then its +y neighbour (0, 1, 0) is outside, and the loop stays at +y, so the second voxel is never reached | skip that neighbour and advance to the next offset | not executed | GraphCutFilterAsWritten.AsWrittenHangsOnTwoVoxelLine | GraphCutFilter.AddVoxelLinks |
