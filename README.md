# Voxel terrain core: VoxelData, Transvoxel extraction, drivers and the zone file

This project models in Dafny the core of the sandbox terrain plugin's voxel module,
`SandboxVoxeldata.cpp`. The model covers four parts.

- **VoxelData** (`voxel_grid.dfy`). An N×N×N lattice of density and material bytes.
  - The density buffer is allocated lazily. While it is absent, the fill state (ZERO, ALL or MIX) stands for the whole grid.
  - The material buffer is also allocated lazily. While it is absent, reads fall back to a base material.
  - The grid keeps a per-LOD substance cache: the list of cells that straddle the isolevel.
  - Helpers: `lattice.dfy` holds the linear index `x*N*N + y*N + z` and its decoding; `quantize.dfy` holds the float↔byte density conversion.
- **The Transvoxel extractor** (`case_codes.dfy`, `welding.dfy`, `extraction.dfy`).
  - Regular and transition case codes, and the decoding of table entries.
  - `clcMediumAddr`.
  - `vertexClc`, with both material rules.
  - The mesh handler, which welds equal vertex positions into one vertex.
  - `extractRegularCell`, `extractTransitionCell` and `generateCell`.
  - Each handler keeps, as ghost state, the sequence of extracted points (position and material weight) it was handed. Every extraction method is specified by what it appends there.
  - The handler's vertex and index buffers are proved to draw exactly those positions.
- **The drivers** (`visit_order.dfy`, `drivers.dfy`, `lod_drivers.dfy`).
  - The two cache-driven and the two brute-force polygonisers, and the selection in `sandboxVoxelGenerateMesh`.
  - Each driver is proved to leave every LOD section holding the extractor's output for a sequence of visited cells.
  - That sequence is either the decoded cache list, or the stride-aligned lattice cells below `N - step`, restricted to multiples of `1 << lod` for the LOD variant.
- **The zone file** (`codec.dfy`).
  - `sandboxSaveVoxelData` is a method producing the file's bytes, proved equal to a pure encoding.
  - `sandboxLoadVoxelData` is a method over an optional byte string. Its effect on the grid and on the substance cache is proved equal to a pure `Loaded` function.
  - A round-trip lemma states exactly which parts of a grid a save followed by a load restores.

Floating-point geometry is passed in as function parameters:
- voxel index to vector;
- interpolation;
- the distance ratio of `materialCalculation`;
- the address rounding of `materialCalculation2`;
- the face normal;
- normal averaging.

The lookup tables are a `Tables` value that only has to be well formed.

The model keeps two behaviours of the code that are easy to overlook:
- A stored density is truncated (line 83), not rounded. A write followed by a read therefore loses less than 1/255, and the loss can exceed half a step (`Quantize.TruncationExceedsHalfStep`).
- `getMaterial` returns 0 for an out-of-range point when a material buffer exists (line 133). Without a buffer it returns the base material.

## Model

| member | source | states |
|---|---|---|
| Lattice.LinearIndexBound | Source/UnrealSandboxTerrain/Private/SandboxVoxeldata.cpp:77-78 | an in-range coordinate's index `x*N*N + y*N + z` lies inside the N³ buffer |
| Lattice.SlotInjective | Source/UnrealSandboxTerrain/Private/SandboxVoxeldata.cpp:77-78 | two in-range coordinates share a buffer slot if and only if they are equal |
| Lattice.SlotsDistinct | Source/UnrealSandboxTerrain/Private/SandboxVoxeldata.cpp:77-78 | every other in-range coordinate addresses a slot other than the written one |
| Lattice.DecodeLinearIndex | Source/UnrealSandboxTerrain/Private/SandboxVoxeldata.cpp:813-815 | decoding `index/(N*N)`, `(index/N)%N`, `index%N` gives back the encoded coordinate |
| Lattice.LinearIndexDecode | Source/UnrealSandboxTerrain/Private/SandboxVoxeldata.cpp:813-815 | every buffer slot decodes to an in-range coordinate whose index is that slot |
| Lattice.LinearIndexMonotone | Source/UnrealSandboxTerrain/Private/SandboxVoxeldata.cpp:1034-1036 | the linear index grows with each coordinate, so the x, y, z loops write the buffer in order |
| Quantize.Clamp | Source/UnrealSandboxTerrain/Private/SandboxVoxeldata.cpp:80-81 | the density stored is in [0, 1]: unchanged inside, 0 below, 1 above |
| Quantize.QuantizeError | Source/UnrealSandboxTerrain/Private/SandboxVoxeldata.cpp:83-101 | writing a density and reading it back loses less than 1/255, always downward |
| Quantize.TruncationExceedsHalfStep | Source/UnrealSandboxTerrain/Private/SandboxVoxeldata.cpp:83 | the truncating store turns 1/300 into byte 0, an error above half a step (1/510) |
| Quantize.QuantizeDequantize | Source/UnrealSandboxTerrain/Private/SandboxVoxeldata.cpp:83-101 | every stored byte survives a read followed by a write |
| Quantize.BelowIsoLevel | Source/UnrealSandboxTerrain/Private/SandboxVoxeldata.cpp:253-288 | the extractor's test `density < 0.5` and the cache's byte test `<= 127` agree on every byte |
| Quantize.QuantizeUniform | Source/UnrealSandboxTerrain/Private/SandboxVoxeldata.cpp:39-44 | the ALL and ZERO fill values 1 and 0 are the bytes 255 and 0, and read back as 1 and 0 |
| VoxelGrid.FillGrid | Source/UnrealSandboxTerrain/Private/SandboxVoxeldata.cpp:36-48 | the three nested loops leave every one of the N³ bytes equal to the fill value |
| VoxelGrid.GridView.Density | Source/UnrealSandboxTerrain/Private/SandboxVoxeldata.cpp:89-106 | the density a grid stands for at any coordinate is in [0, 1] |
| VoxelGrid.GridView.Material | Source/UnrealSandboxTerrain/Private/SandboxVoxeldata.cpp:124-135 | the material a grid stands for at any coordinate is a byte |
| VoxelGrid.CacheCorners | Source/UnrealSandboxTerrain/Private/SandboxVoxeldata.cpp:255-266 | the eight probed samples all lie in the cell spanning `[x-step, x]` in each axis |
| VoxelGrid.CornerBytesRead | Source/UnrealSandboxTerrain/Private/SandboxVoxeldata.cpp:259-266 | the eight `getRawDensity` reads, in the probe's order, are the cell's corner bytes |
| VoxelGrid.ProbeLodsEffect | Source/UnrealSandboxTerrain/Private/SandboxVoxeldata.cpp:305-318 | after probing a sample, LOD l's list gains exactly the cell's near corner when l is probed, the sample is aligned to `1 << l`, passes the guards and its cell straddles; otherwise the list is unchanged |
| VoxelGrid.ScanCacheEffect | Source/UnrealSandboxTerrain/Private/SandboxVoxeldata.cpp:1034-1043 | probing the first k samples in buffer order appends to each LOD list exactly the scan of that LOD |
| VoxelGrid.ScanLodComplete | Source/UnrealSandboxTerrain/Private/SandboxVoxeldata.cpp:1034-1043 | every scanned sample whose cell is cached at LOD l has its near corner in LOD l's scan |
| VoxelGrid.ScanLodSound | Source/UnrealSandboxTerrain/Private/SandboxVoxeldata.cpp:1034-1043 | every entry of LOD l's scan is the near corner of a scanned sample whose cell is cached at LOD l |
| VoxelGrid.CornersPrecede | Source/UnrealSandboxTerrain/Private/SandboxVoxeldata.cpp:259-266 | all eight corners of a probed cell come at or before the probed sample in buffer order |
| VoxelGrid.ProbeLodsAgree | Source/UnrealSandboxTerrain/Private/SandboxVoxeldata.cpp:305-318 | probing a sample depends only on the bytes up to its own slot |
| VoxelGrid.ScanCacheAgree | Source/UnrealSandboxTerrain/Private/SandboxVoxeldata.cpp:1034-1043 | scanning k samples depends only on the first k bytes, so the in-order load probes what a full scan of the final bytes probes |
| VoxelGrid.VoxelData.constructor | Source/UnrealSandboxTerrain/Private/SandboxVoxeldata.cpp:16-26 | a new grid is ZERO, with no density or material buffer, and has an empty list for every LOD |
| VoxelGrid.VoxelData.InitializeDensity | Source/UnrealSandboxTerrain/Private/SandboxVoxeldata.cpp:33-49 | a fresh N³ buffer filled with 255 for ALL and 0 for ZERO; nothing else changes |
| VoxelGrid.VoxelData.InitializeMaterial | Source/UnrealSandboxTerrain/Private/SandboxVoxeldata.cpp:51-61 | a fresh N³ buffer filled with the base material; nothing else changes |
| VoxelGrid.VoxelData.SetDensity | Source/UnrealSandboxTerrain/Private/SandboxVoxeldata.cpp:63-87 | writing 0 into ZERO or 1 into ALL is skipped; otherwise the grid turns MIX (even for an out-of-range write) and only the one in-range byte changes, to the clamped truncated value; reading that point back gives `FromStored(ToStored(d))`, and every other point reads as before |
| VoxelGrid.VoxelData.GetDensity | Source/UnrealSandboxTerrain/Private/SandboxVoxeldata.cpp:89-106 | in range, the stored byte divided by 255; out of range, 1 for an ALL grid and 0 otherwise |
| VoxelGrid.VoxelData.GetRawDensity | Source/UnrealSandboxTerrain/Private/SandboxVoxeldata.cpp:108-111 | the stored density byte at the coordinate's slot |
| VoxelGrid.VoxelData.SetMaterial | Source/UnrealSandboxTerrain/Private/SandboxVoxeldata.cpp:113-122 | the first write fills a buffer with the base material; an in-range write stores `material` as an unsigned char; reading that point back gives it, and every other point reads as before |
| VoxelGrid.VoxelData.GetMaterial | Source/UnrealSandboxTerrain/Private/SandboxVoxeldata.cpp:124-135 | in range, the stored material byte; out of range, the base material without a buffer and 0 with one |
| VoxelGrid.VoxelData.GetVoxelPoint | Source/UnrealSandboxTerrain/Private/SandboxVoxeldata.cpp:164-180 | the stored bytes; density 0 when the buffer is absent, even for an ALL grid |
| VoxelGrid.VoxelData.SetVoxelPoint | Source/UnrealSandboxTerrain/Private/SandboxVoxeldata.cpp:182-195 | allocates both buffers as needed, turns MIX and writes both bytes at the slot; nothing else changes |
| VoxelGrid.VoxelData.SetVoxelPointDensity | Source/UnrealSandboxTerrain/Private/SandboxVoxeldata.cpp:197-205 | allocates the density buffer as needed, turns MIX and writes one byte |
| VoxelGrid.VoxelData.SetVoxelPointMaterial | Source/UnrealSandboxTerrain/Private/SandboxVoxeldata.cpp:207-214 | allocates the material buffer as needed and writes one byte |
| VoxelGrid.VoxelData.DeinitializeDensity | Source/UnrealSandboxTerrain/Private/SandboxVoxeldata.cpp:216-227 | MIX is refused; ZERO or ALL becomes the state and the buffer is dropped |
| VoxelGrid.VoxelData.DeinitializeMaterial | Source/UnrealSandboxTerrain/Private/SandboxVoxeldata.cpp:229-237 | sets the base material and drops the material buffer |
| VoxelGrid.VoxelData.PerformCellSubstanceCaching | Source/UnrealSandboxTerrain/Private/SandboxVoxeldata.cpp:243-294 | returns true exactly when the guards pass and the eight corner bytes are neither all above nor all at or below 127; then the near corner's index is appended to that LOD's list and nothing else changes |
| VoxelGrid.VoxelData.PerformSubstanceCacheNoLOD | Source/UnrealSandboxTerrain/Private/SandboxVoxeldata.cpp:297-303 | nothing without a density buffer, else one probe at LOD 0 with step 1 |
| VoxelGrid.VoxelData.PerformSubstanceCacheLOD | Source/UnrealSandboxTerrain/Private/SandboxVoxeldata.cpp:305-318 | nothing without a density buffer, else a probe at every LOD the sample is aligned to, with step `1 << lod` |
| CaseCodes.Asr | Source/UnrealSandboxTerrain/Private/SandboxVoxeldata.cpp:650-657 | an arithmetic shift of a non-negative value is the logical shift |
| CaseCodes.RegularBits | Source/UnrealSandboxTerrain/Private/SandboxVoxeldata.cpp:650-657 | a case code's eight corner flags |
| CaseCodes.RegularCodeBits | Source/UnrealSandboxTerrain/Private/SandboxVoxeldata.cpp:645-657 | the shifted `-127`/`0` corner bytes give a code below 256 whose bit i is set exactly when corner i is below the isolevel |
| CaseCodes.RegularBitsCode | Source/UnrealSandboxTerrain/Private/SandboxVoxeldata.cpp:650-657 | every byte is the case code of the corner flags it stands for |
| CaseCodes.RegularCodeExtremes | Source/UnrealSandboxTerrain/Private/SandboxVoxeldata.cpp:659-661 | the code is 0 exactly when no corner is below and 255 exactly when all are |
| CaseCodes.TransitionTermValue | Source/UnrealSandboxTerrain/Private/SandboxVoxeldata.cpp:724 | a sample adds its coefficient when below the isolevel and nothing otherwise |
| CaseCodes.TransitionBits | Source/UnrealSandboxTerrain/Private/SandboxVoxeldata.cpp:718-725 | a transition code's nine sample flags |
| CaseCodes.TransitionSumIsUnion | Source/UnrealSandboxTerrain/Private/SandboxVoxeldata.cpp:718-725 | the sum of the coefficients equals their bitwise union |
| CaseCodes.PartialTransitionCodeFull | Source/UnrealSandboxTerrain/Private/SandboxVoxeldata.cpp:721-725 | the accumulation over all nine samples is the transition case code |
| CaseCodes.ComputeTransitionCaseCode | Source/UnrealSandboxTerrain/Private/SandboxVoxeldata.cpp:713-725 | the loop computes the sum of the coefficients of the samples below the isolevel |
| CaseCodes.TransitionBitsOfCode | Source/UnrealSandboxTerrain/Private/SandboxVoxeldata.cpp:718-725 | each sample owns one distinct bit of a 9-bit pattern |
| CaseCodes.TransitionCodeDecodes | Source/UnrealSandboxTerrain/Private/SandboxVoxeldata.cpp:718-725 | the code is in 0..511 and determines every sample's flag |
| CaseCodes.TransitionBitsCode | Source/UnrealSandboxTerrain/Private/SandboxVoxeldata.cpp:718-725 | every value in 0..511 is the code of some sample configuration |
| CaseCodes.TransitionCodeInjective | Source/UnrealSandboxTerrain/Private/SandboxVoxeldata.cpp:718-725 | distinct sample configurations have distinct codes |
| CaseCodes.TransitionCodeZero | Source/UnrealSandboxTerrain/Private/SandboxVoxeldata.cpp:727-729 | the code is 0 exactly when no sample is below the isolevel |
| CaseCodes.EdgeEndpoints | Source/UnrealSandboxTerrain/Private/SandboxVoxeldata.cpp:669-671 | an edge code's two corner numbers, both below 16 |
| CaseCodes.EdgeEndpointsOfCode | Source/UnrealSandboxTerrain/Private/SandboxVoxeldata.cpp:669-671 | an edge code built from corners v0, v1 decodes to them |
| CaseCodes.EdgeCodeOfEndpoints | Source/UnrealSandboxTerrain/Private/SandboxVoxeldata.cpp:741-743 | the decoded corners and the high byte rebuild the edge code |
| CaseCodes.ClassDataIndex | Source/UnrealSandboxTerrain/Private/SandboxVoxeldata.cpp:735 | the low seven bits of the class byte index the cell data |
| CaseCodes.ClassByteSplit | Source/UnrealSandboxTerrain/Private/SandboxVoxeldata.cpp:733-735 | a class byte is exactly its inversion bit and its data index |
| CaseCodes.MediumCoord | Source/UnrealSandboxTerrain/Private/SandboxVoxeldata.cpp:636-642 | `(a2 - a1)/2 + a1` with C division, stored into a uint8, is a byte |
| CaseCodes.MediumCoordBetween | Source/UnrealSandboxTerrain/Private/SandboxVoxeldata.cpp:636-642 | the midpoint lies between the two coordinates; for an odd distance it rounds toward the first argument |
| Extraction.ToUint8 | Source/UnrealSandboxTerrain/Private/SandboxVoxeldata.cpp:637-639 | an int stored into a uint8 keeps any value in 0..255 |
| Extraction.RegularBelow | Source/UnrealSandboxTerrain/Private/SandboxVoxeldata.cpp:646-648 | flag i says whether corner i's density is below 0.5 |
| Extraction.TransitionBelow | Source/UnrealSandboxTerrain/Private/SandboxVoxeldata.cpp:713-716 | flag i says whether sample i's density is below 0.5 |
| Extraction.MediumAddrKeepsShared | Source/UnrealSandboxTerrain/Private/SandboxVoxeldata.cpp:636-642 | a coordinate the two addresses share is kept |
| Extraction.MediumAddrOddDistance | Source/UnrealSandboxTerrain/Private/SandboxVoxeldata.cpp:689 | the argument order matters: for x = 3 and 0 the midpoint is 2, and for 0 and 3 it is 1 |
| Extraction.MaterialWeightRuleCases | Source/UnrealSandboxTerrain/Private/SandboxVoxeldata.cpp:557-596 | weight 0 when both materials are the base, 1 when they are equal and not the base, else the distance ratio from the first point when it is not the base, else from the second |
| Extraction.CoarseWeight | Source/UnrealSandboxTerrain/Private/SandboxVoxeldata.cpp:608-614 | weight 0 exactly for the base material, else 1 |
| Extraction.TriangleSoupAt | Source/UnrealSandboxTerrain/Private/SandboxVoxeldata.cpp:676-682 | soup position k holds the vertex the index triple names at k, mirrored within the triangle when inverse |
| Extraction.TriangleSoupPrefix | Source/UnrealSandboxTerrain/Private/SandboxVoxeldata.cpp:676-682 | the first m triangles of a soup are the soup of m triangles |
| Extraction.TriangleSoupInverse | Source/UnrealSandboxTerrain/Private/SandboxVoxeldata.cpp:758-762 | the inversion flag swaps each triangle's first and third vertex and keeps the second |
| Extraction.RegularRowFacts | Source/UnrealSandboxTerrain/Private/SandboxVoxeldata.cpp:663-671 | for a well-formed table every class and vertex index read stays in bounds |
| Extraction.TransitionRowFacts | Source/UnrealSandboxTerrain/Private/SandboxVoxeldata.cpp:731-743 | for a well-formed table every class, data and vertex index read stays in bounds |
| Extraction.EmitTriangle | Source/UnrealSandboxTerrain/Private/SandboxVoxeldata.cpp:676-682 | one pass of the triangle loop hands addTriangle the triple at i, reversed when inverted |
| Extraction.EmitTriangles | Source/UnrealSandboxTerrain/Private/SandboxVoxeldata.cpp:676-682 | the loop hands the handler the triangle soup of the cell and adds one triangle per step |
| Extraction.SectionCornersOnFace | Source/UnrealSandboxTerrain/Private/SandboxVoxeldata.cpp:788-793 | the four corners handed to transition section s are distinct and all lie on that section's face |
| Extraction.CellCornersAreCacheCorners | Source/UnrealSandboxTerrain/Private/SandboxVoxeldata.cpp:773-780 | generateCell's eight corners of cell (x, y, z) are the cache's probed corners for the sample `(x+s, y+s, z+s)` |
| Extraction.StraddleIffMixedCode | Source/UnrealSandboxTerrain/Private/SandboxVoxeldata.cpp:268-288 | the cache's straddle test holds exactly when the regular case code is neither 0 nor 255 |
| Extraction.VoxelMeshExtractor.constructor | Source/UnrealSandboxTerrain/Private/SandboxVoxeldata.cpp:481-487 | a main handler and six transition handlers, all empty, over the given grid and parameters |
| Extraction.VoxelMeshExtractor.VertexClc | Source/UnrealSandboxTerrain/Private/SandboxVoxeldata.cpp:557-628 | the interpolated position. At LOD 0 the weight is 0 or 1 for the constant cases of materialCalculation. Otherwise it is the distance ratio measured from the first point when its material is not base, and from the second point when only the second is not base. Above LOD 0 it is the coarse weight of the material at the rounded address |
| Extraction.VoxelMeshExtractor.CellVertices | Source/UnrealSandboxTerrain/Private/SandboxVoxeldata.cpp:668-674 | vertex i is vertexClc of the two corners that edge code i names |
| Extraction.VoxelMeshExtractor.BuildVertexList | Source/UnrealSandboxTerrain/Private/SandboxVoxeldata.cpp:665-674 | the loop builds the list of vertexClc results, one per edge code |
| Extraction.VoxelMeshExtractor.RowSoupAt | Source/UnrealSandboxTerrain/Private/SandboxVoxeldata.cpp:676-682 | emitted point k is vertexClc of the corners that the edge at the table's index for k names, so positions and material weights are both fixed |
| Extraction.VoxelMeshExtractor.EmitRow | Source/UnrealSandboxTerrain/Private/SandboxVoxeldata.cpp:665-682 | the handler receives the table row's soup |
| Extraction.VoxelMeshExtractor.CellCorners | Source/UnrealSandboxTerrain/Private/SandboxVoxeldata.cpp:769-780 | the eight corner points of a cell |
| Extraction.VoxelMeshExtractor.RegularSoupEmpty | Source/UnrealSandboxTerrain/Private/SandboxVoxeldata.cpp:659-661 | a cell with no corner below the isolevel emits nothing |
| Extraction.VoxelMeshExtractor.RegularSoupRow | Source/UnrealSandboxTerrain/Private/SandboxVoxeldata.cpp:663-683 | a cell with a non-zero code emits its class's table row, not inverted |
| Extraction.VoxelMeshExtractor.ExtractRegularCell | Source/UnrealSandboxTerrain/Private/SandboxVoxeldata.cpp:644-683 | the main handler's points grow by exactly the cell's soup (positions and weights) |
| Extraction.VoxelMeshExtractor.TransitionSoupRow | Source/UnrealSandboxTerrain/Private/SandboxVoxeldata.cpp:727-764 | a transition cell with a non-zero code emits its class's row, inverted by the class byte's bit 7 |
| Extraction.VoxelMeshExtractor.ExtractTransitionCell | Source/UnrealSandboxTerrain/Private/SandboxVoxeldata.cpp:685-764 | the section handler's points grow by exactly the soup of the 13 samples built with clcMediumAddr in the source's argument order |
| Extraction.VoxelMeshExtractor.ExtractFace | Source/UnrealSandboxTerrain/Private/SandboxVoxeldata.cpp:788-793 | one face test: section s grows by its soup exactly when the cell lies on that face; the other sections are unchanged |
| Extraction.VoxelMeshExtractor.ExtractTransitionCells | Source/UnrealSandboxTerrain/Private/SandboxVoxeldata.cpp:784-795 | every transition section grows by its own soup, which is empty unless LODs are generated, lod > 0 and the cell is on that face |
| Extraction.VoxelMeshExtractor.GenerateCell | Source/UnrealSandboxTerrain/Private/SandboxVoxeldata.cpp:768-797 | the main handler grows by the regular soup of the cell's corners, each transition handler by its section soup, and the whole output by the cell's output |
| Extraction.VoxelMeshExtractor.Section | Source/UnrealSandboxTerrain/Private/SandboxVoxeldata.cpp:481-487 | the seven mesh sections draw exactly the positions emitted into the seven handlers |
| Extraction.VoxelMeshExtractor.CellOutputParts | Source/UnrealSandboxTerrain/Private/SandboxVoxeldata.cpp:768-797 | a cell's output is its regular soup in the main buffer and its section soups in the transition buffers |
| Extraction.VoxelMeshExtractor.VisitsAppend | Source/UnrealSandboxTerrain/Private/SandboxVoxeldata.cpp:768-797 | visiting a + b emits visiting a followed by visiting b |
| Welding.TruncToInt | Source/UnrealSandboxTerrain/Private/SandboxVoxeldata.cpp:446 | float-to-int conversion truncates toward zero |
| Welding.ColorByte | Source/UnrealSandboxTerrain/Private/SandboxVoxeldata.cpp:446-452 | the colour byte `(int)(weight*255)` is a byte and the floor of `weight*255` for a weight in [0, 1] |
| Welding.WeldReuse | Source/UnrealSandboxTerrain/Private/SandboxVoxeldata.cpp:430-441 | reusing the mapped vertex keeps the buffers welded and positions kept, and appends the position to the drawn soup |
| Welding.WeldAppend | Source/UnrealSandboxTerrain/Private/SandboxVoxeldata.cpp:443-460 | appending a new vertex keeps the buffers welded and appends its position to the drawn soup |
| Welding.WeldKeeps | Source/UnrealSandboxTerrain/Private/SandboxVoxeldata.cpp:427-462 | either branch keeps the buffers welded, grows them by at most one vertex and appends the point's position to the drawn soup |
| Welding.MeshHandler.constructor | Source/UnrealSandboxTerrain/Private/SandboxVoxeldata.cpp:405 | empty buffers, an empty vertex map, no triangles |
| Welding.MeshHandler.Section | Source/UnrealSandboxTerrain/Private/SandboxVoxeldata.cpp:427-472 | the vertex and index buffers draw exactly the positions of the points handed in, in order |
| Welding.MeshHandler.AddVertex | Source/UnrealSandboxTerrain/Private/SandboxVoxeldata.cpp:427-462 | a known position reuses its vertex and averages the normal, a new one is appended with the weight's colour byte; the points grow by this point |
| Welding.MeshHandler.AddTriangle | Source/UnrealSandboxTerrain/Private/SandboxVoxeldata.cpp:464-472 | the buffers are those of three addVertex steps in order. Each step carries the face normal of the three positions and its point's colour byte. The index buffer grows by exactly 3, the points by the three points, and there is one more triangle |
| Welding.DistinctPositions | Source/UnrealSandboxTerrain/Private/SandboxVoxeldata.cpp:430-460 | no two vertices of a handler share a position |
| Welding.MapInjective | Source/UnrealSandboxTerrain/Private/SandboxVoxeldata.cpp:430-460 | the vertex map sends distinct positions to distinct vertices |
| VisitOrder.DecodeCells | Source/UnrealSandboxTerrain/Private/SandboxVoxeldata.cpp:810-815 | one decoded cell per cache entry, in list order |
| VisitOrder.DecodeCellsInverse | Source/UnrealSandboxTerrain/Private/SandboxVoxeldata.cpp:813-815 | each cell decoded from an index in the buffer is in range and encodes back to that index |
| VisitOrder.RowCellsMembers | Source/UnrealSandboxTerrain/Private/SandboxVoxeldata.cpp:863-865 | the innermost loop visits exactly the z from its start in steps of step below `N - step` |
| VisitOrder.SlabCellsMembers | Source/UnrealSandboxTerrain/Private/SandboxVoxeldata.cpp:862-866 | the two inner loops visit exactly those y and z |
| VisitOrder.GridCellsFromMembers | Source/UnrealSandboxTerrain/Private/SandboxVoxeldata.cpp:861-867 | the three loops visit exactly those x, y and z |
| VisitOrder.GridCellsMembers | Source/UnrealSandboxTerrain/Private/SandboxVoxeldata.cpp:861-867 | the visited cells are exactly those whose coordinates are multiples of step below `N - step` |
| VisitOrder.OnLodStrideMembers | Source/UnrealSandboxTerrain/Private/SandboxVoxeldata.cpp:896-902 | LOD i receives exactly the visited cells whose coordinates are multiples of `1 << i` |
| VisitOrder.OnLodStrideAppend | Source/UnrealSandboxTerrain/Private/SandboxVoxeldata.cpp:891-906 | the per-LOD filter distributes over consecutive visits |
| Drivers.NewExtractor | Source/UnrealSandboxTerrain/Private/SandboxVoxeldata.cpp:807 | a fresh extractor over the grid at the given LOD, with empty output |
| Drivers.OnlyFirst | Source/UnrealSandboxTerrain/Private/SandboxVoxeldata.cpp:805-823 | the mesh data's LOD array with section 0 filled and every other section empty |
| Drivers.Generate | Source/UnrealSandboxTerrain/Private/SandboxVoxeldata.cpp:817 | one generateCell call adds that cell's output |
| Drivers.CacheStep | Source/UnrealSandboxTerrain/Private/SandboxVoxeldata.cpp:810-818 | one pass of the cache loop keeps "output so far then the remaining cells' output" equal to the goal |
| Drivers.VisitCacheList | Source/UnrealSandboxTerrain/Private/SandboxVoxeldata.cpp:810-818 | the cache loop adds the output of every decoded list entry, in order |
| Drivers.CacheSection | Source/UnrealSandboxTerrain/Private/SandboxVoxeldata.cpp:806-818 | a new section holds the output of the decoded list |
| Drivers.PolygonizeCellSubstanceCacheNoLOD | Source/UnrealSandboxTerrain/Private/SandboxVoxeldata.cpp:805-823 | section 0, built at the parameter's LOD, holds the output of LOD 0's decoded cache list; the other sections are empty; the collision mesh is section 0's main mesh |
| Drivers.PolygonizeCellSubstanceCacheLOD | Source/UnrealSandboxTerrain/Private/SandboxVoxeldata.cpp:826-852 | section l, built at LOD l, holds the output of LOD l's decoded cache list; the collision mesh is section 0's main mesh |
| Drivers.RowStep | Source/UnrealSandboxTerrain/Private/SandboxVoxeldata.cpp:863-865 | one z step keeps the row's remaining output on course for the goal |
| Drivers.VisitRow | Source/UnrealSandboxTerrain/Private/SandboxVoxeldata.cpp:863-865 | the z loop adds the output of the row's cells in order |
| Drivers.SlabStep | Source/UnrealSandboxTerrain/Private/SandboxVoxeldata.cpp:862-866 | one y step keeps the slab's remaining output on course for the goal |
| Drivers.VisitSlab | Source/UnrealSandboxTerrain/Private/SandboxVoxeldata.cpp:862-866 | the y loop adds the output of the slab's cells in order |
| Drivers.GridStep | Source/UnrealSandboxTerrain/Private/SandboxVoxeldata.cpp:861-867 | one x step keeps the grid's remaining output on course for the goal |
| Drivers.VisitGrid | Source/UnrealSandboxTerrain/Private/SandboxVoxeldata.cpp:861-867 | the three loops add the output of every lattice cell in x, y, z order |
| Drivers.GridSection | Source/UnrealSandboxTerrain/Private/SandboxVoxeldata.cpp:856-867 | a new section holds the output of the lattice cells |
| Drivers.PolygonizeVoxelGridNoLOD | Source/UnrealSandboxTerrain/Private/SandboxVoxeldata.cpp:855-872 | section 0 holds the output of every step-aligned cell below `N - step`; the other sections are empty; the collision mesh is section 0's main mesh |
| LodDrivers.LodStep | Source/UnrealSandboxTerrain/Private/SandboxVoxeldata.cpp:897-901 | extractor i generates the cell exactly when it is aligned to `1 << i`; the others are unchanged |
| LodDrivers.GenerateLods | Source/UnrealSandboxTerrain/Private/SandboxVoxeldata.cpp:896-902 | the LOD loop adds to each extractor the cell's output if aligned to its stride |
| LodDrivers.LodVisitRow | Source/UnrealSandboxTerrain/Private/SandboxVoxeldata.cpp:893-904 | the z loop adds to each LOD the output of the row's cells on its stride |
| LodDrivers.LodVisitSlab | Source/UnrealSandboxTerrain/Private/SandboxVoxeldata.cpp:892-905 | the y loop adds to each LOD the output of the slab's cells on its stride |
| LodDrivers.LodVisitGrid | Source/UnrealSandboxTerrain/Private/SandboxVoxeldata.cpp:891-906 | the three loops add to each LOD the output of the lattice cells on its stride |
| LodDrivers.NewFamily | Source/UnrealSandboxTerrain/Private/SandboxVoxeldata.cpp:882-887 | one fresh, empty extractor per LOD with disjoint state, extractor l at LOD l |
| LodDrivers.Sections | Source/UnrealSandboxTerrain/Private/SandboxVoxeldata.cpp:885 | each LOD section draws the positions its extractor emitted |
| LodDrivers.PolygonizeVoxelGridWithLOD | Source/UnrealSandboxTerrain/Private/SandboxVoxeldata.cpp:874-911 | section l, built at LOD l, holds the output of the lattice cells aligned to `1 << l`, in visiting order; the collision mesh is section 0's main mesh |
| LodDrivers.SandboxVoxelGenerateMesh | Source/UnrealSandboxTerrain/Private/SandboxVoxeldata.cpp:913-923 | the cache drivers when the cache is valid, the lattice drivers otherwise; LOD variants exactly when bGenerateLOD; each filled section holds its selected cells' output and the rest are empty |
| GridCodec.WordRoundTrip | Source/UnrealSandboxTerrain/Private/SandboxVoxeldata.cpp:940 | a 32-bit word written in four bytes reads back |
| GridCodec.WordOfRoundTrip | Source/UnrealSandboxTerrain/Private/SandboxVoxeldata.cpp:1020 | four bytes read as a word are written back as the same bytes |
| GridCodec.Int32RoundTrip | Source/UnrealSandboxTerrain/Private/SandboxVoxeldata.cpp:939 | an int32 written in four bytes reads back |
| GridCodec.Int32BytesOf | Source/UnrealSandboxTerrain/Private/SandboxVoxeldata.cpp:1019 | four bytes read as an int32 are written back as the same bytes |
| GridCodec.ReadByte | Source/UnrealSandboxTerrain/Private/SandboxVoxeldata.cpp:1037-1038 | the next byte, or 0 and a failed reader past the end |
| GridCodec.ReadWord | Source/UnrealSandboxTerrain/Private/SandboxVoxeldata.cpp:1020 | the next four bytes as a word, or 0 and a failed reader past the end |
| GridCodec.RunState | Source/UnrealSandboxTerrain/Private/SandboxVoxeldata.cpp:1034-1043 | k single-byte reads consume k bytes, or fail when fewer remain |
| GridCodec.RunBytes | Source/UnrealSandboxTerrain/Private/SandboxVoxeldata.cpp:1034-1043 | read i of k is the i-th remaining byte, or 0 past the end |
| GridCodec.Parse | Source/UnrealSandboxTerrain/Private/SandboxVoxeldata.cpp:1019-1064 | the loader's reads: N and size, the density state and N³ bytes for state 2 only, the material state, base material and N³ bytes for state 2 only, the end marker |
| GridCodec.ReadSection | Source/UnrealSandboxTerrain/Private/SandboxVoxeldata.cpp:1033-1044 | N³ bytes for state 2 and none for any other state |
| GridCodec.LoadDensity | Source/UnrealSandboxTerrain/Private/SandboxVoxeldata.cpp:1023-1044 | the density half of a load leaves the material untouched |
| GridCodec.LoadMaterial | Source/UnrealSandboxTerrain/Private/SandboxVoxeldata.cpp:1047-1061 | the material half of a load leaves the density untouched |
| GridCodec.ParseEncoded | Source/UnrealSandboxTerrain/Private/SandboxVoxeldata.cpp:929-992 | parsing the saved bytes yields the grid's N, size, state codes, the MIX densities, the per-voxel materials, the base material and the end marker, untruncated |
| GridCodec.LoadSaved | Source/UnrealSandboxTerrain/Private/SandboxVoxeldata.cpp:929-1075 | loading a saved grid into one of the same N restores the density state, every density and material byte and, for a uniform material only, the base material; the cache lists gain the scan of the densities when MIX and are otherwise untouched |
| GridCodec.DensityRestored | Source/UnrealSandboxTerrain/Private/SandboxVoxeldata.cpp:943-965 | the density record restores the state and the bytes |
| GridCodec.MaterialRestored | Source/UnrealSandboxTerrain/Private/SandboxVoxeldata.cpp:967-989 | the material record restores the bytes, and the base material only when no buffer is saved |
| GridCodec.UnknownDensityState | Source/UnrealSandboxTerrain/Private/SandboxVoxeldata.cpp:1025-1044 | a density state byte above 2 leaves the density and the cache lists as they were |
| GridCodec.LoadedCache | Source/UnrealSandboxTerrain/Private/SandboxVoxeldata.cpp:1033-1044 | a MIX load appends to LOD l's list exactly the scan of LOD l over the loaded bytes, without clearing it |
| GridCodec.WriteRow | Source/UnrealSandboxTerrain/Private/SandboxVoxeldata.cpp:958-963 | the z loop appends the row's bytes |
| GridCodec.WriteSlab | Source/UnrealSandboxTerrain/Private/SandboxVoxeldata.cpp:957-964 | the y loop appends the slab's bytes |
| GridCodec.WriteGrid | Source/UnrealSandboxTerrain/Private/SandboxVoxeldata.cpp:956-964 | the three loops append all N³ bytes in buffer order |
| GridCodec.Save | Source/UnrealSandboxTerrain/Private/SandboxVoxeldata.cpp:929-998 | the bytes written are the encoding of the grid |
| GridCodec.DensityStep | Source/UnrealSandboxTerrain/Private/SandboxVoxeldata.cpp:1037-1040 | storing one read byte and probing keeps the state equal to the scan of the bytes read so far |
| GridCodec.LoadDensityAt | Source/UnrealSandboxTerrain/Private/SandboxVoxeldata.cpp:1037-1040 | reads one byte, stores it at the slot, turns MIX and probes the cache at every LOD |
| GridCodec.LoadDensityRow | Source/UnrealSandboxTerrain/Private/SandboxVoxeldata.cpp:1036-1041 | the z loop keeps the loading invariant one row further |
| GridCodec.LoadDensitySlab | Source/UnrealSandboxTerrain/Private/SandboxVoxeldata.cpp:1035-1042 | the y loop keeps the loading invariant one slab further |
| GridCodec.LoadDensityGrid | Source/UnrealSandboxTerrain/Private/SandboxVoxeldata.cpp:1034-1043 | the x loop keeps the loading invariant to the end of the buffer |
| GridCodec.LoadDensities | Source/UnrealSandboxTerrain/Private/SandboxVoxeldata.cpp:1033-1044 | the MIX branch stores the N³ bytes read and appends the scan of them to the cache lists |
| GridCodec.LoadMaterialAt | Source/UnrealSandboxTerrain/Private/SandboxVoxeldata.cpp:1053-1055 | reads one byte and stores it at the slot |
| GridCodec.LoadMaterialRow | Source/UnrealSandboxTerrain/Private/SandboxVoxeldata.cpp:1052-1056 | the z loop keeps the loading invariant one row further |
| GridCodec.LoadMaterialSlab | Source/UnrealSandboxTerrain/Private/SandboxVoxeldata.cpp:1051-1057 | the y loop keeps the loading invariant one slab further |
| GridCodec.LoadMaterialGrid | Source/UnrealSandboxTerrain/Private/SandboxVoxeldata.cpp:1050-1058 | the x loop keeps the loading invariant to the end of the buffer |
| GridCodec.LoadMaterials | Source/UnrealSandboxTerrain/Private/SandboxVoxeldata.cpp:1049-1058 | the per-voxel branch stores the N³ bytes read and leaves the cache lists alone |
| GridCodec.LoadDensitySection | Source/UnrealSandboxTerrain/Private/SandboxVoxeldata.cpp:1023-1044 | the density half of the loader has the effect of `LoadDensity` on what it parses |
| GridCodec.LoadMaterialSection | Source/UnrealSandboxTerrain/Private/SandboxVoxeldata.cpp:1047-1061 | the material half of the loader has the effect of `LoadMaterial` on what it parses |
| GridCodec.Load | Source/UnrealSandboxTerrain/Private/SandboxVoxeldata.cpp:1000-1075 | returns false and changes nothing for a missing or empty file; otherwise returns true and leaves the grid and cache lists as `Loaded` of the parsed file |

## Left out

- Coordinates are `nat`. The source takes `int`: a negative coordinate passes the `x < voxel_num` tests (lines 77, 98, 118, 129) and indexes before the buffer. That case is undefined behaviour and is not modelled.
- `int` overflow is not modelled. `x*voxel_num*voxel_num` and `voxel_num³` (lines 34, 78) overflow 32 bits once N ≥ 1291. The model computes them exactly, and `VoxelData.Valid` only bounds N below 2³¹.
- Floats are exact reals. This covers `255 * density` (line 83), the `density == 0` / `== 1` tests (lines 65, 69) and `/ 255.0f` (line 101). Rounding in the float product is not captured.
- `clcLinearIndex` (line 290) is declared outside this file and is not part of this model. It is taken to be `x*N*N + y*N + z`, the index every other access uses.
- `VoxelDataParam::step()` is not part of this model. It is the parameter `stepOf(lod)`, with no tie to the LOD. The brute-force drivers need a positive step.
- `z_cut` in the extractor's `getDensity` (lines 515-521) is left out. The extractor reads `VoxelData::getDensity` directly.
- `DebugPointList` (line 748) and `SectionLocalBox` (lines 421, 455) are left out. They are debug and bounds bookkeeping that nothing in the core reads.
- `TmpPoint.mat_id` is left out: the mesh handler never reads it.
- The UV and tangent of each vertex are left out.
- Vertex welding keys positions by Dafny equality. `TMap<FVector,int>`'s hashing and float comparison are not modelled.
- The float geometry is a set of parameters with no contract:
  - `voxelIndexToVector`;
  - `vertexInterpolation` (its 0.00001 tolerances included);
  - the distance ratio of `materialCalculation`;
  - `clcNormal`;
  - normal averaging.
- Extraction.VoxelMeshExtractor.VertexClc: for LOD > 0, the float interpolation of `materialCalculation2` and its truncation to uint8 (lines 601-606) are the parameter `coarseAddr`. Only the base-material test on the material read there is stated.
- Welding.MeshHandler.AddVertex: a reused vertex's averaged normal is the parameter `average`. Its colour is left as it was, which is what the source does.
- `LOD_ARRAY_SIZE` is the grid's constant `lodCount`, at least 1.
- `isSubstanceCacheValid()` is declared outside this file and is not part of this model. It is the parameter `cacheValid` of `SandboxVoxelGenerateMesh`.
- Memory ownership is not modelled: `new`/`delete`, the shared pointers and the extractor destructors.
- Buffer freeing with `delete` instead of `delete[]` (lines 223, 233) is not modelled.
- File I/O is left out. The file is an `Option<seq<byte>>` (None when it cannot be read), and saving returns the bytes instead of writing them. The log lines and the timing in the loader are left out.
- A read past the end of a truncated file yields 0 and marks the reader failed. The loader still returns true, as the source does.
- The loader reads N and the size from the file (lines 1019-1020) but never stores them in the grid. The model does the same.
- The loader reads the end marker (lines 1063-1064) but never checks it. The model only records it in `Parsed`.
- The loader never clears the substance cache. A MIX load appends to the lists already present.
- The saved `size` is the float's 32-bit pattern, copied and never computed with.
- GridCodec.Load: requires the file's N to equal the grid's N when a per-voxel section is present (`Fits`). This leaves three cases unmodelled:
  - When the file's N is larger, the loops at lines 1034-1043 and 1050-1058 write past the grid's buffers. This is the only case that is undefined behaviour.
  - When the file's N is positive but smaller, they fill the sub-cube below the file's N at the grid's own slots, turn the grid MIX and probe the cache.
  - When the file's N is 0 or negative, no loop runs.
  
  The model leaves out the last two as well, because a zone file is always written from a grid of the same size.
- Accessors that take no bounds check in the source are modelled for in-range coordinates only: `VoxelData.GetRawDensity`, `GetVoxelPoint`, `SetVoxelPoint`, `SetVoxelPointDensity` and `SetVoxelPointMaterial` (lines 108-111, 164-214). Out of range, the source reads or writes another point's slot or past the buffer. Every call in this file passes an in-range point.
