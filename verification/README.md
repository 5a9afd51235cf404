# Verified models of the RAJAPerf kernels that hide an algorithm

RAJAPerf states each kernel as a short reference loop and then ships variants that must compute
the same thing. In most kernels the variant is the same loop again. This project models the
kernels in which it is not, and proves that the variant does what the reference loop does:

- **Index lists.** The single-pass list with decoupled look-back (INDEXLIST on CUDA and HIP), the
  two-phase OpenMP list and the three-loop list. The look-back is a lock-free protocol between
  thread blocks: every read and every write of a count or a flag by every lane is a step of its
  own, and the theorems hold for every interleaving, every lane count and every grid. The list
  that comes out is the list of the sequential loop.
- **Exclusive scan** by a team of OpenMP threads of any size, under every interleaving the barrier allows.
- **Sum-factorised finite-element operators.** DIFFUSION3DPA, CONVECTION3DPA and MASS3DPA with
  their reused scratch buffers, for any numbers of dofs and quadrature points, equal the direct
  sum over quadrature points; MASS3DEA assembles the matrix MASS3DPA applies; DIFFUSION3DPA is
  self-adjoint. The CONVECTION3DPA stages run under any interleaving of the threads of a block of
  any shape, a single thread being the sequential variant.
- **Phase fusion and reduction.** ENERGY's six loops without barriers, REDUCE_SUM's tree with its
  atomic adds, and the dispatch from a tuning index to a kernel.
- **Structured mesh and EDGE3D.** The index arithmetic of `ADomain`, scatter and gather between
  zones and nodes, and the Gram matrix assembled over a partly uninitialised array.

Arrays are exact: integers are unbounded and floating-point numbers are reals, so a sum has one
value whatever its order. The compile-time constants (points per axis, warp width, block size,
items per thread) are parameters.

## What turned out to be conditional

- DIFFUSION3DPA packs B and G into one array. The array can serve both tables exactly when B is
  symmetric and G antisymmetric under reflection (`Packing.ReadsBackIff`,
  `PackedTables.ServesGivenIff`), and the two tables share no word exactly when there is one more
  quadrature point than dofs (`PackedTables.OffsetsApartIff`). The benchmark's own set-up fills G
  with ones and so violates the first condition (`Packing.ConstantGradientMisread`); what the
  kernel then computes is the direct sum over the tables it sees, and with all tables constant 1 it
  is strictly less than the intended sum in every entry (`DiffusionSetUp.BenchmarkMissed`).
- MASS3DPA reads its second table with the row length D where the transpose of B has length Q. The
  load is the transpose exactly when B agrees with the entries really fetched
  (`MassMatrix.LoadedIsTransposeIff`); a two-by-two counterexample is `MassMatrix.TransposeMisread`.
  The operator theorem is stated over the loaded table, and the kernel applies the assembled matrix
  exactly when, point by point, that table repeats the row of B or the row vanishes
  (`MassExact.AppliesMatrixIff`).
- REDUCE_SUM's kernel starts every thread from `sum_init`, so it returns what the sequential loop
  returns exactly when that is zero (`ReduceSum.Compare`); tree and kernel add up all inputs exactly
  when the block size is a power of two (`ReduceSum.TreeTotalIff`, `ReduceSum.KernelTotalIff`). The comment in
  REDUCE_SUM.hpp starts its sum from zero; the code, followed here, starts from `sum_init`.
- In EDGE3D a rule with no points leaves the lower triangle unset (`Edge.BuildMatrix`).
- EDGE3D hands the corners of a zone over in the order of NDPTRSET, row by row, while the Jacobian
  formulas count them around each layer. On the box zones of the benchmark's mesh the determinant is
  therefore dx (1 - 2 eta) dy dz instead of dx dy dz: it changes sign half way and vanishes at the
  centre (`EdgeGeometry.MeshZonesFold`). That the kernel's sum is not negative holds for zones of any
  shape, these included.
- On HIP the source says that blocks may start in any order; progress of the look-back is claimed
  only for blocks that start in index order, safety for any order.

## How the project is laid out

`Sums`, `Arith` and `RealArith` hold finite sums (exchange, factorisation, comparison) and index and
real arithmetic; `Buffer` and `Elements` the scratch buffers under their several shapes and the
per-element slices of the mesh arrays; `Team` and `ThreadBlock` who owns which iteration; `Progress`
the work left to a set of threads; `TwoPhase` a team that runs two loops around a barrier; `Lists`
sequences without repetition. A pipeline is written as methods over flat arrays whose postconditions
name the mathematical table a buffer shows, and a second module (`MassMatrix`, `MassExact`,
`DiffusionOperator`, `DiffusionSetUp`, `ConvectionOperator`, `EdgePositivity`, `EdgeGeometry`) proves
what those tables amount to. `ElementData`, `EdgeSum` and `EnergyBalance` say what comes out in terms of
the arrays as they are stored, the corners of a zone and the pressures, without the tables in between. Threads are scheduled by nondeterministic choice, each step shrinking a
measure, so termination is part of every such contract.

In the table below a chunk is the range of iterations a thread owns.

## Model

| member | source | states |
|---|---|---|
| `Ballot.ReadyAboveTop` | src/basic/INDEXLIST-Cuda.cpp:148 | With the grid-ready lanes among the block-ready ones, the loop test on masks of any width says exactly that some grid count is ready and every lane from the highest such lane up is ready |
| `Ballot.ReadyByTops` | src/basic/INDEXLIST-Cuda.cpp:146-148 | The same test in terms of the highest unready and the highest grid-ready lane |
| `Ballot.MaskOrder` | src/basic/INDEXLIST-Cuda.cpp:148 | Masks with different highest votes compare as these do |
| `Ballot.OnlyRightOfTop` | src/basic/INDEXLIST-Hip.cpp:164 | The test against the mask of a lane and all lanes below holds exactly from the highest ready lane up |
| `Ballot.SelectByTop` | src/basic/INDEXLIST-Cuda.cpp:159-167 | Lanes above the highest grid-ready lane take block counts, that lane alone takes a grid count, the lanes below nothing |
| `LookBack.StepInv` | src/basic/INDEXLIST-Cuda.cpp:83-193 | Every step of every lane of every block, and every ballot and reduction, keeps the invariant of the protocol |
| `LookBack.FlagsNeverEarly` | src/basic/INDEXLIST-Cuda.cpp:85-98 | In every reachable state flag 1 vouches for the block's own count, flag 2 for the total through the block, and block 0 never shows flag 1 |
| `LookBack.PreviousTotalCorrect` | src/basic/INDEXLIST-Cuda.cpp:100-186 | In every reachable state a block past its look-back holds the total of exactly the blocks before it |
| `LookBack.ReadsStayInRange` | src/basic/INDEXLIST-Cuda.cpp:115-167 | No lane ever polls or adds the count of a negative block id, and each stays below its own block |
| `LookBack.AddWindow` | src/basic/INDEXLIST-Cuda.cpp:129-140 | A full window without a grid count cannot contain block 0, so the walk has room for another window |
| `LookBack.ReduceTotal` | src/basic/INDEXLIST-Cuda.cpp:170-171 | The lanes' shares, taken at different moments, add up to the total of all earlier blocks |
| `LookBackProgress.HelpfulStep` | src/basic/INDEXLIST-Cuda.cpp:100-183 | The lowest unfinished block always has an allowed step that shrinks its measure, however far later blocks have come |
| `LookBackProgress.NeverDeadlocks` | src/basic/INDEXLIST-Cuda.cpp:205-208 | With blocks starting in index order and at least one slot, every state that can be reached can be run to the end |
| `LookBackLiveness.SpinningEnds` | src/basic/INDEXLIST-Cuda.cpp:113-156 | In every run, from the moment the blocks before it are finished, a block takes at most a stated number of steps, polls included, whoever runs in between |
| `LookBackLiveness.AllFinish` | src/basic/INDEXLIST-Cuda.cpp:205-208 | In every weakly fair endless schedule with blocks starting in index order, all blocks finish, each with the total of the blocks before it |
| `LookBackLiveness.FairScheduleExists` | src/basic/INDEXLIST-Cuda.cpp:205-208 | From every initial state there is such a schedule |
| `IndexList.SelectedIsTheList` | src/basic/INDEXLIST.hpp:28-34 | The reference list is strictly increasing and holds exactly the indices with a negative entry |
| `IndexList.Sequential` | src/basic/INDEXLIST-Seq.cpp:36-42 | The reference loop leaves that list and its length, and nothing else changed |
| `IndexList.SlotsDistinct` | src/basic/INDEXLIST.hpp:31-34 | Two selected indices are never written to one slot |
| `IndexList.FilledList` | src/basic/INDEXLIST_3LOOP-OMP.cpp:100-103 | Writing every selected index to the slot its count names, in whatever order, gives the reference list |
| `GridList.BlockScan` | src/basic/INDEXLIST-Cuda.cpp:68-82 | Through striped-to-blocked, scan and blocked-to-striped, each item gets the number selected before it (and through it) in its block |
| `GridList.OwnerOf` | src/basic/INDEXLIST-Cuda.cpp:212-213 | Every index belongs to a thread and an item of some block of the grid, also in a partial last block |
| `GridList.GridCovers` | src/basic/INDEXLIST-Cuda.cpp:212-213 | The grid reaches n and its last block is not empty |
| `GridList.SlotIsOwner` | src/basic/INDEXLIST-Cuda.cpp:228-229 | No two indices share a thread, item and block, and an owner below n is the owner of its own position |
| `GridList.BlockTotal` | src/basic/INDEXLIST-Cuda.cpp:86 | What the last thread publishes is the number selected in its block |
| `GridList.PrefixCounts` | src/basic/INDEXLIST-Cuda.cpp:176 | The block counts add up to the number selected before the block |
| `GridList.FinishedLookBack` | src/basic/INDEXLIST-Cuda.cpp:185-191 | Every finished run of the protocol, however interleaved, leaves each block the number selected before it |
| `GridList.GridScan` | src/basic/INDEXLIST-Cuda.cpp:185-191 | Once its block is ready, and while others still walk back, each thread has the number selected before and through each of its items in the whole array |
| `GridList.WriteSlot` | src/basic/INDEXLIST-Cuda.cpp:228-239 | The writes of one item keep all items written before right and touch nothing at or beyond the length |
| `GridList.WriteItem` | src/basic/INDEXLIST-Cuda.cpp:232-235 | An item is written if and only if it is selected, to its slot of the list, and nothing at or beyond the length changes |
| `GridList.WriteList` | src/basic/INDEXLIST-Cuda.cpp:195-241 | For any interleaving of look-back steps and item writes that the flags and the block barrier allow, list and length are those of the sequential loop |
| `Team.ChunksPartition` | src/algorithm/SCAN-OMP.cpp:59-61 | For any team size an index lies in the chunk of its owner and of no other thread |
| `Team.ChunkLength` | src/algorithm/SCAN-OMP.cpp:59-61 | Thread t starts at t times n / p and gets n / p iterations; the last thread gets the remainder as well |
| `Scan.Sequential` | src/algorithm/SCAN.hpp:26-31 | The reference loop leaves the sums of all earlier inputs in y, which may be x itself |
| `Scan.ScanRecurrence` | src/algorithm/SCAN.hpp:10-16 | These sums satisfy the recurrence the kernel is documented by |
| `Scan.JoinRanges` | src/algorithm/SCAN-OMP.cpp:74-81 | The sum before a chunk and the sum within it combine to the sum before the index |
| `Scan.StepInv` | src/algorithm/SCAN-OMP.cpp:63-82 | Every step of any thread keeps what all threads have established, in place or not |
| `Scan.FinishedScan` | src/algorithm/SCAN-OMP.cpp:55-83 | When all threads are done, every entry is the exclusive scan |
| `Scan.AnyThreadSteps` | src/algorithm/SCAN-OMP.cpp:55-83 | As long as a thread is unfinished one can step; its step keeps the invariant and shrinks the work left, and nothing beyond the input changes |
| `Scan.ByTeam` | src/algorithm/SCAN-OMP.cpp:55-83 | A team of any size under any schedule terminates with the exclusive scan of what x held |
| `Scan.ScanByTeam` | src/algorithm/SCAN-OMP.cpp:55-83 | SCAN itself, over the reals: the team's y starts at zero and satisfies the recurrence, whatever the team size and schedule |
| `OmpList.StepInv` | src/basic/INDEXLIST-OMP.cpp:67-96 | Every step of any thread keeps the invariant of the two-phase list |
| `OmpList.FinishedList` | src/basic/INDEXLIST-OMP.cpp:86-96 | When all threads are done, list and count are those of the sequential loop |
| `OmpList.StepAbove` | src/basic/INDEXLIST-OMP.cpp:86-92 | No step of any thread touches the array at or beyond the final length |
| `OmpList.Region.StepInPlace` | src/basic/INDEXLIST-OMP.cpp:67-96 | One step on the shared arrays is one step of the model |
| `OmpList.ByTeam` | src/basic/INDEXLIST-OMP.cpp:59-100 | A team of any size under any schedule terminates with the list and length of the sequential loop and nothing else changed |
| `ThreeLoop.ScannedFlags` | src/basic/INDEXLIST_3LOOP-OMP.cpp:68-97 | The scanned flags count the selected indices, whatever stood in the entry after the last flag |
| `ThreeLoop.Scatter` | src/basic/INDEXLIST_3LOOP-OMP.cpp:100-103 | The parallel scatter, in any order, leaves the reference list and changes nothing else |
| `ThreeLoop.Sequential` | src/basic/INDEXLIST_3LOOP-Seq.cpp:45-61 | The sequential three loops leave list and length of the one-pass loop |
| `ThreeLoop.ByTeam` | src/basic/INDEXLIST_3LOOP-OMP.cpp:53-105 | The three parallel loops leave list and length of the one-pass loop, for any team size and schedule and any value left in the last count |
| `Sums.Sum3Swap` | src/apps/MASS3DPA.hpp:224-339 | A sextuple sum may be taken over quadrature points first or over dofs first |
| `Sums.FactorXYZ` | src/apps/MASS3DPA.hpp:224-279 | Three one-dimensional contractions, x then y then z, are the sum over all triples with the product of the three coefficients |
| `Mass.LoadInputs` | src/apps/MASS3DPA.hpp:215-222 | Stages 1 and 2 leave the element's dofs and B by rows |
| `Mass.ContractX` | src/apps/MASS3DPA.hpp:225-241 | Stages 3 and 7 leave the contraction along x, with a table that shares no memory with the result |
| `Mass.ContractY` | src/apps/MASS3DPA.hpp:244-260 | Stages 4 and 8 leave the contraction along y |
| `Mass.ContractWeigh` | src/apps/MASS3DPA.hpp:263-279 | Stage 5 leaves the contraction along z times the element's quadrature data |
| `Mass.LoadTransposed` | src/apps/MASS3DPA.hpp:281-282 | Stage 6 overwrites the table with the entries Bt_(q, d) really names |
| `Mass.ContractAdd` | src/apps/MASS3DPA.hpp:323-339 | Stage 9 adds the contraction along z to the element's part of Y and leaves the rest of Y alone |
| `Mass.ElementAction` | src/apps/MASS3DPA.hpp:183-339 | All nine stages over two ping-pong buffers add the factored operator to the element's part of Y |
| `Mass.Apply` | src/apps/MASS3DPA-Seq.cpp:34-89 | The element loop adds each element's result to its own part of Y |
| `MassMatrix.StagedIsDirect` | src/apps/MASS3DPA.hpp:183-339 | The factored operator is the sextuple sum, for any two loaded tables |
| `MassMatrix.MassResult` | src/apps/MASS3DPA-Seq.cpp:34-89 | Every entry of Y ends as it began plus the direct sum |
| `ElementData.MassStored` | src/apps/MASS3DPA.hpp:174-339 | In terms of the stored arrays: dof (z, y, x) of element e is in plane e D + z of X, its quadrature data in plane e Q + z of D; the entry grows by the values so interpolated and scaled, weighed with Bt |
| `Elements.BasisEntry` | src/apps/MASS3DPA.hpp:174-175 | B(q, d) stands at q + Q d |
| `Elements.ElementEntry` | src/apps/MASS3DPA.hpp:176-181 | Entry (z, y, x) of element e stands at x + n y + n n z + n n n e |
| `MassMatrix.EntrySymmetric` | src/apps/MASS3DEA.hpp:116-135 | The element matrix is symmetric: M(i, j) = M(j, i) |
| `MassMatrix.StagedIsMatrix` | src/apps/MASS3DPA.hpp:281-339 | When the loaded second table is the transpose of the first, MASS3DPA is the assembled matrix times X |
| `MassMatrix.LoadedIsTransposeIff` | src/apps/MASS3DPA.hpp:174-175 | The load is the transpose of B exactly when B agrees with the entries it fetches |
| `MassMatrix.FetchedEntry` | src/apps/MASS3DPA.hpp:282 | Which entry of B the load fetches |
| `MassMatrix.TransposeMisread` | src/apps/MASS3DPA.hpp:282 | Two points and two dofs for which it fetches a wrong one |
| `MassExact.OnePoint` | src/apps/MASS3DPA.hpp:183-339 | With quadrature data at one point and X at one dof the nine stages leave one product of coefficients |
| `MassExact.AppliesMatrixIff` | src/apps/MASS3DPA.hpp:281-339 | MASS3DPA is the assembled matrix times X for all data and all X if and only if, for every point, the loaded column repeats the row of B or that row vanishes |
| `MassAssembly.SlotInjective` | src/apps/MASS3DEA.hpp:93-94 | The plane of M that an entry stands in determines the element, j and the last index of i |
| `MassAssembly.OffsetInjective` | src/apps/MASS3DEA.hpp:93-94 | The index map M_ stays within the array and gives different entries of different elements different words |
| `MassAssembly.MatrixEntry` | src/apps/MASS3DEA.hpp:93-94 | Entry (i, j) of element e is read from the word the nested index map names, with the first index of i fastest |
| `MassAssembly.Matrices.Put` | src/apps/MASS3DEA.hpp:132 | A store changes its own entry and no other |
| `MassAssembly.EntryLoop` | src/apps/MASS3DEA.hpp:121-131 | The triple loop computes the weighted product of the basis functions at all quadrature points |
| `MassAssembly.EntryStored` | src/apps/MASS3DEA.hpp:114-131 | In terms of the stored arrays: the sum over the points of B(k1, i1) B(k2, i2) B(k3, i3), the same for j, and the data at point (k1, k2, k3) of element e |
| `MassAssembly.RowLoop` | src/apps/MASS3DEA.hpp:116-135 | The loops over j fill the row of i and keep what other elements and rows hold |
| `MassAssembly.LoadTables` | src/apps/MASS3DEA-Seq.cpp:36-52 | The loads leave B by rows and the quadrature data with its axes reversed |
| `MassAssembly.Assemble` | src/apps/MASS3DEA-Seq.cpp:34-62 | Every element's matrix ends as the assembled one |
| `Packing.CollisionFreeIff` | src/apps/DIFFUSION3DPA.hpp:243-263 | No cell is used for both B and G exactly when there is one more point than dofs |
| `Packing.WritesAgree` | src/apps/DIFFUSION3DPA.hpp:327-333 | With reflecting tables every write stores its cell's final value |
| `PackedTables.AnyOrder` | src/apps/DIFFUSION3DPA.hpp:327-348 | With Q = D + 1 and reflecting tables, after the stores in any order, with any repetitions and from any contents, reads return b(q, d) and g(q, d) |
| `PackedTables.Pair.LoadInAnyOrder` | src/apps/DIFFUSION3DPA-Cuda.cpp:43-49 | The load by a thread block, single stores in any order, serves B and G in either layout |
| `Packing.ReadsBackIff` | src/apps/DIFFUSION3DPA.hpp:335-348 | Some contents of the array serve B and G to all reads if and only if B is symmetric and G antisymmetric |
| `Packing.ConstantGradientMisread` | src/apps/DIFFUSION3DPA.cpp:78 | The constant G of the benchmark cannot be served by any contents |
| `PackedTables.OffsetsApartIff` | src/apps/DIFFUSION3DPA.hpp:301-305 | In the layout of B and in that of its transpose, B and G share no word of sBG exactly when Q = D + 1 |
| `PackedTables.LoadedAgrees` | src/apps/DIFFUSION3DPA.hpp:327-333 | A cell that a write has reached no longer depends on what the array held |
| `PackedTables.ServedFresh` | src/apps/DIFFUSION3DPA.hpp:327-348 | For any tables, what is read is the same whatever the array held before the load |
| `PackedTables.ServesGivenIff` | src/apps/DIFFUSION3DPA.hpp:327-348 | The loaded array returns the given B and G if and only if they reflect |
| `PackedTables.Pair.Set` | src/apps/DIFFUSION3DPA.hpp:332-333 | A write to the shared array, in either layout, changes its own cell and no other |
| `PackedTables.Pair.LoadBoth` | src/apps/DIFFUSION3DPA.hpp:400-406 | The load in loop order leaves exactly the table of all its writes |
| `PackedTables.Pair.Load` | src/apps/DIFFUSION3DPA.hpp:327-333 | After it every read returns the entry of one fixed pair of tables, for any B and G |
| `Diffusion.LoadElement` | src/apps/DIFFUSION3DPA.hpp:324-325 | Stage 1 leaves the element's dofs in the third row of sm0 |
| `Diffusion.InterpolateX` | src/apps/DIFFUSION3DPA.hpp:335-350 | Stage 3 leaves values and derivatives along x |
| `Diffusion.ContractY` | src/apps/DIFFUSION3DPA.hpp:352-368 | Stages 4 and 8 contract three fields along y, G in the second |
| `Diffusion.Weigh` | src/apps/DIFFUSION3DPA.hpp:384-398 | The coefficients read, symmetric or not, are those of the stored matrix, and the products are its rows times the gradient |
| `Diffusion.ContractWeigh` | src/apps/DIFFUSION3DPA.hpp:370-398 | Stage 5 leaves the fluxes at the quadrature points |
| `Diffusion.ContractX` | src/apps/DIFFUSION3DPA.hpp:408-424 | Stage 7 contracts three fields along x, G in the first |
| `Diffusion.ContractAdd` | src/apps/DIFFUSION3DPA.hpp:444-458 | Stage 9 adds the sum of the three contractions along z to the element's part of Y |
| `Diffusion.Interpolate` | src/apps/DIFFUSION3DPA-Seq.cpp:37-73 | Stages 1 to 5 over the aliased buffers leave the fluxes of the gradient |
| `Diffusion.Integrate` | src/apps/DIFFUSION3DPA-Seq.cpp:75-103 | Stages 6 to 9 over the aliased buffers add the divergence to Y |
| `Diffusion.ElementAction` | src/apps/DIFFUSION3DPA-Seq.cpp:35-103 | All nine stages add the factored operator over the tables seen |
| `Diffusion.Apply` | src/apps/DIFFUSION3DPA-Seq.cpp:33-105 | The element loop adds each element's result to its own part of Y |
| `DiffusionOperator.StagedIsDirect` | src/apps/DIFFUSION3DPA.hpp:335-458 | For any two tables the stages are the direct sum over quadrature points |
| `DiffusionOperator.ActionIsDirect` | src/apps/DIFFUSION3DPA.hpp:297-458 | With Q = D + 1 and reflecting tables that is the direct sum with B and G themselves |
| `DiffusionOperator.ResultIsDirect` | src/apps/DIFFUSION3DPA-Seq.cpp:33-105 | Every entry of Y ends as it began plus that sum |
| `ElementData.DiffusionStored` | src/apps/DIFFUSION3DPA.hpp:384-398 | In terms of the stored components: row r of the material has components 0, 1, 2 or 1, 3, 4 or 2, 4, 5 of six with the symmetric flag, and 3r, 3r + 1, 3r + 2 of nine without |
| `ElementData.DiffusionEnergy` | src/apps/DIFFUSION3DPA.hpp:384-398 | An element's X against what the kernel makes of it is the sum over the points of s0 gx gx + s3 gy gy + s5 gz gz + 2 (s1 gx gy + s2 gx gz + s4 gy gz), with the gradient interpolated from the stored dofs |
| `Elements.ComponentEntry` | src/apps/DIFFUSION3DPA.hpp:240-241 | Component s of element e at point (z, y, x) stands at x + Q y + Q Q z + Q Q Q s + Q Q Q S e, where S components are stored |
| `DiffusionSetUp.BenchmarkMissed` | src/apps/DIFFUSION3DPA.cpp:77-80 | With every table constant 1, as the benchmark sets up, and any D, the nine stages add strictly less than the direct sum to every entry |
| `DiffusionOperator.TensorAdjoint` | src/apps/DIFFUSION3DPA.hpp:408-458 | Integrating against the test functions is the transpose of interpolating |
| `DiffusionOperator.DirectSelfAdjoint` | src/apps/DIFFUSION3DPA.hpp:384-398 | With symmetric coefficients the direct operator is self-adjoint |
| `DiffusionOperator.ActionSelfAdjoint` | src/apps/DIFFUSION3DPA.hpp:297-458 | With `symmetric` true the nine stages are self-adjoint on every element, with no condition on B and G |
| `DiffusionOperator.OperatorSelfAdjoint` | src/apps/DIFFUSION3DPA-Seq.cpp:33-105 | So is the operator on the whole mesh: w.(A x) = x.(A w) |
| `ThreadBlock.StridedOwner` | src/apps/FEM_MACROS.hpp:23-24 | A thread's strided loop visits exactly the indices congruent to it |
| `ThreadBlock.CellOwner` | src/apps/CONVECTION3DPA-Cuda.cpp:32-41 | A nest of such loops visits exactly the cells whose coordinates are congruent to the thread's, in every nesting order |
| `ThreadBlock.BlockPartition` | src/apps/CONVECTION3DPA-Cuda.cpp:32-125 | For a block of any shape each cell of a stage is visited exactly once by exactly one thread |
| `Convection.Step` | src/apps/CONVECTION3DPA.hpp:275-355 | A loop iteration or a store of any thread keeps what all threads have computed, touches no input, and shrinks what is left |
| `Convection.Contract` | src/apps/CONVECTION3DPA.hpp:275-346 | Stages 2, 3, 4, 6 and 7 leave the contractions in all their output buffers under every interleaving of the threads |
| `Convection.LoadDofs` | src/apps/CONVECTION3DPA.hpp:272-273 | Stage 1, in any order of the threads, leaves the element's dofs |
| `Convection.Weigh` | src/apps/CONVECTION3DPA.hpp:321-328 | Stage 5 leaves velocity times gradient |
| `Convection.ContractAdd` | src/apps/CONVECTION3DPA.hpp:348-355 | Stage 8 adds the contraction along x to the element's part of Y |
| `Convection.InterpolateX` | src/apps/CONVECTION3DPA-Cuda.cpp:32-54 | Stages 1 and 2 leave values and derivatives along x in sm1 and sm2 |
| `Convection.Integrate` | src/apps/CONVECTION3DPA-Cuda.cpp:80-125 | Stages 5 to 8 reuse sm3, sm4 and sm5 and add the integrated flow to Y |
| `Convection.RunStages` | src/apps/CONVECTION3DPA-Cuda.cpp:28-127 | The eight stages over the six reused buffers add the factored operator |
| `Convection.Apply` | src/apps/CONVECTION3DPA-Seq.cpp:30-121 | The element loop adds each element's result to its own part of Y; a block of one thread is the sequential variant |
| `ConvectionOperator.FactorZYX` | src/apps/CONVECTION3DPA.hpp:330-355 | Contracting z, then y, then x is the full triple sum too |
| `ConvectionOperator.ConvectionIsDirect` | src/apps/CONVECTION3DPA.hpp:272-355 | The eight stages are the direct sum of Bt (O1 dX + O2 dY + O3 dZ) |
| `ConvectionOperator.ConvectionResult` | src/apps/CONVECTION3DPA-Seq.cpp:30-121 | Every entry of Y ends as it began plus that sum |
| `ElementData.ConvectionStored` | src/apps/CONVECTION3DPA.hpp:322-328 | In terms of the stored arrays: the flow at a point is the first stored component times the x derivative plus the second times the y derivative plus the third times the z derivative |
| `Energy.BodyInPlace` | src/apps/ENERGY.hpp:111-177 | Each of the six bodies touches the entries of its own index only |
| `Energy.Sequential` | src/apps/ENERGY.hpp:111-177 | Six loops one after another apply the six bodies to every index and leave the rest alone |
| `Energy.RunIteration` | src/apps/ENERGY-OMP.cpp:57-89 | An iteration by a thread in any of the six loops keeps every chunk at its owner's progress |
| `Energy.AnyThreadSteps` | src/apps/ENERGY-OMP.cpp:57-89 | Whichever thread steps, in whatever loop, the work left shrinks |
| `Energy.ByTeam` | src/apps/ENERGY-OMP.cpp:57-89 | Without barriers, under every interleaving, the arrays end as after the six sequential loops |
| `Energy.FinalCuts` | src/apps/ENERGY.hpp:156-177 | At the end no energy is below the minimum or cut off, and viscosity is zero in expanding zones and cut off nowhere |
| `EnergyBalance.Predictor` | src/apps/ENERGY.hpp:111-146 | The energy before the cut of loop 4 is e_old + work + delvc ((p_old + q_old) - 2 (pHalfStep + q)), with q from its own formula at the half step |
| `EnergyBalance.Balance` | src/apps/ENERGY.hpp:111-177 | Where nothing is cut and division is exact, a zone gains the work less the integral of p + q over its change of volume by Simpson's rule, with the three viscosities from their own formulas |
| `EnergyBalance.ExpandingBalance` | src/apps/ENERGY.hpp:111-177 | In an expanding zone the same rule holds for the pressures alone, and no viscosity is left |
| `ReduceSum.StridesCover` | src/algorithm/REDUCE_SUM-Cuda.cpp:38-43 | The grid-stride loops of all threads take every entry once |
| `ReduceSum.GridTotal` | src/algorithm/REDUCE_SUM-Cuda.cpp:38-55 | All blocks together hold the sum of x and `sum_init` once for every thread |
| `ReduceSum.TreeTotal` | src/algorithm/REDUCE_SUM-Cuda.cpp:46-51 | For a power of two the halving tree leaves the total of all entries in entry 0 |
| `ReduceSum.TreeTotalIff` | src/algorithm/REDUCE_SUM-Cuda.cpp:46-51 | The tree adds up all inputs if and only if the block size is a power of two |
| `ReduceSum.OnesMissed` | src/algorithm/REDUCE_SUM-Cuda.cpp:46-51 | For any other block size it comes out wrong on inputs that are all one |
| `ReduceSum.RunLevel` | src/algorithm/REDUCE_SUM-Cuda.cpp:47-50 | Loads and stores of the threads of a level may interleave in any way: the level is free of races |
| `ReduceSum.Accumulate` | src/algorithm/REDUCE_SUM-Cuda.cpp:38-43 | A thread's loop adds the entries of its stride to `sum_init` |
| `ReduceSum.Kernel` | src/algorithm/REDUCE_SUM-Cuda.cpp:33-56 | With the blocks' atomic adds in any order the sum grows by what the blocks add, for any block size; for a power of two that is the total of x plus gridDim * block_size * sum_init |
| `ReduceSum.KernelTotalIff` | src/algorithm/REDUCE_SUM-Cuda.cpp:33-56 | The kernel adds that total for all x and sum_init if and only if the block size is a power of two |
| `ReduceSum.Sequential` | src/algorithm/REDUCE_SUM-Seq.cpp:36-42 | The sequential loop adds the total of x to `sum_init` once |
| `ReduceSum.TailIsSum` | src/algorithm/REDUCE_SUM-Seq.cpp:36-42 | That total is the plain sum of all entries |
| `ReduceSum.Compare` | src/algorithm/REDUCE_SUM-Cuda.cpp:152-160 | Run side by side as the host runs them, kernel and sequential loop return the same if and only if `sum_init` is zero |
| `Tunings.DefineTunings` | src/algorithm/REDUCE_SUM-Cuda.cpp:291-336 | The names registered are those of the runs in order, for any block sizes and filter |
| `Tunings.RunsAreOffered` | src/algorithm/REDUCE_SUM-Cuda.cpp:291-336 | The tunings of a variant are exactly those that its lists, the filter and the variant allow |
| `Tunings.NamesDistinct` | src/algorithm/REDUCE_SUM-Cuda.cpp:291-336 | With lists free of repetitions every name stands at one index only |
| `Tunings.RunVariant` | src/algorithm/REDUCE_SUM-Cuda.cpp:221-289 | The dispatcher runs exactly the one configuration named at the index, and none when there is none |
| `Tunings.NameInjective` | src/common/GPUUtils.hpp:143-187 | Different configurations of a variant have different names |
| `Tunings.DecimalValue` | src/algorithm/REDUCE_SUM-Cuda.cpp:291-336 | The digits in a name denote the block size, with no zero in front |
| `Tunings.NameExamples` | src/common/GPUUtils.hpp:143-187 | Two names spelled out, which use every part a name can have |
| `Mesh.ADomain.constructor` | src/apps/AppsData.hpp:50-84 | The closed forms of all extents, counts and first and last indices, in two and three dimensions |
| `Mesh.Build3d` | src/apps/AppsData.hpp:50-84 | The domain built for rzmax is a mesh of rzmax - 1 real zones and rzmax + 3 nodes a side |
| `Mesh.SetRealZones3d` | src/apps/AppsData.cpp:52-83 | Every slot of the list holds the zone of its position; a domain of another dimension changes nothing |
| `Mesh.ListedZone` | src/apps/AppsData.cpp:73-82 | The zone of (i, j, k) is i + j jp + k kp and stands at (i - imin) + (j - jmin) n + (k - kmin) n n |
| `Mesh.ListedIff` | src/apps/AppsData.cpp:73-82 | An index is listed exactly when it is i + j jp + k kp with every coordinate in the real range, and the list starts with frn |
| `Mesh.SlotOnto` | src/apps/AppsData.cpp:78 | Every slot is the slot of a zone |
| `Mesh.ZonesDistinct` | src/apps/AppsData.cpp:73-82 | No zone is listed twice |
| `Mesh.SetPointers` | src/apps/AppsData.hpp:22-30 | The eight pointers are the eight corner offsets |
| `Mesh.CornerNode` | src/apps/AppsData.hpp:22-30 | Corner m of a zone is the node one further along the axes of m's set bits |
| `Mesh.CornersInside` | src/apps/AppsData.hpp:50-84 | All eight corners of every listed zone are nodes of the mesh |
| `MeshPositions.StoreCorners` | src/apps/AppsData.cpp:165-172 | The eight overlapping stores agree with what earlier zones stored |
| `MeshPositions.SetMeshPositions3d` | src/apps/AppsData.cpp:130-177 | Every node (i, j, k) of the mesh, phony ones included, ends at (i dx, j dy, k dz) |
| `MeshPositions.NodeCoordinates` | src/apps/AppsData.cpp:160-172 | The flat index i + j jp + k kp of the three arrays holds i dx, j dy and k dz |
| `Accumulation.Scatter` | src/apps/NODAL_ACCUMULATION_3D-OMP.cpp:41-63 | The atomic adds of all zones, in any order, leave each node its old value plus an eighth of every zone it is a corner of |
| `Accumulation.AtomicAdd` | src/apps/NODAL_ACCUMULATION_3D-OMP.cpp:47-62 | One atomic add accounts for its own share and no other |
| `Accumulation.ZonalBody` | src/apps/ZONAL_ACCUMULATION_3D.hpp:45-53 | A zone gets the mean of its eight corners |
| `Accumulation.ZonalMean` | src/apps/ZONAL_ACCUMULATION_3D.hpp:46-53 | That value is an eighth of the sum of x at i, i + 1, i + jp, i + jp + 1 and the same kp further on |
| `Accumulation.Gather` | src/apps/ZONAL_ACCUMULATION_3D.hpp:42-53 | Every listed zone gets the mean of its corners, in any order, and no other zone changes |
| `Accumulation.Adjoint` | src/apps/NODAL_ACCUMULATION_3D.hpp:47-57 | Gather is the transpose of scatter: w.gather(x) = x.scatter(w) |
| `Accumulation.VolumeConserved` | src/apps/NODAL_ACCUMULATION_3D.hpp:47-57 | Scatter conserves the total volume |
| `Accumulation.RealZonesQualify` | src/apps/NODAL_ACCUMULATION_3D.hpp:38-45 | The real zones of the mesh meet the conditions of these theorems |
| `Quadrature.RuleProperties` | src/apps/mixed_fem_helper.hpp:29-195 | A supported rule of order n has n points in [0, 1] and positive, symmetric weights |
| `Quadrature.Exact` | src/apps/mixed_fem_helper.hpp:29-195 | A Legendre rule of order n integrates the monomials up to degree 2n - 1 and a Lobatto rule those up to 2n - 3 within the digits printed |
| `Quadrature.GetQuadratureRule` | src/apps/mixed_fem_helper.hpp:198-216 | It is stored at the front of the arrays; an unsupported type or order leaves them as they were |
| `Jacobian.BadZone` | src/apps/mixed_fem_helper.hpp:317-333 | The absolute determinant is never negative and differs from the determinant in sign only |
| `Jacobian.ReplacedWhenSmall` | src/apps/mixed_fem_helper.hpp:326-332 | With exact division the determinant is replaced exactly when it is below the tolerance times the centre's, and the reciprocal inverts the one taken, shifted by ptiny |
| `Jacobian.ZeroTolerance` | src/apps/EDGE3D.hpp:382 | With the tolerance zero that EDGE3D passes no determinant is replaced |
| `Jacobian.InverseIsInverse` | src/apps/mixed_fem_helper.hpp:340-385 | The Jacobian times its inverse is the identity up to determinant times the reciprocal used |
| `Jacobian.PairingKept` | src/apps/mixed_fem_helper.hpp:810-863 | The transforms of basis functions and of curls keep their product up to the determinant factors |
| `Jacobian.TransformBasis` | src/apps/mixed_fem_helper.hpp:240-266 | transform_basis takes every function through the matrix |
| `Edge.InnerProduct` | src/apps/mixed_fem_helper.hpp:274-310 | The symmetric branch reads the upper triangle only, adds the weighted inner products and leaves the whole matrix set |
| `Edge.InnerProductGeneral` | src/apps/mixed_fem_helper.hpp:274-310 | The general branch adds them to every entry and needs every entry set |
| `Edge.ClearUpper` | src/apps/EDGE3D.hpp:231-235 | The first loop nest clears the upper triangle and leaves the lower one as it was |
| `Edge.AddPoint` | src/apps/EDGE3D.hpp:309-357 | One quadrature point, with its determinant and transformed functions, adds mass and stiffness terms |
| `Edge.BuildMatrix` | src/apps/EDGE3D.hpp:230-361 | With at least one point the matrix is fully set and is the weighted Gram sum, whatever the storage held; with none the lower triangle is untouched |
| `Edge.GramSymmetric` | src/apps/EDGE3D.hpp:345-357 | The Gram sum is symmetric |
| `EdgePositivity.GramSquares` | src/apps/mixed_fem_helper.hpp:302 | The quadratic form of one inner-product matrix is a sum of squares |
| `EdgePositivity.PositiveSemidefinite` | src/apps/EDGE3D.hpp:230-361 | For non-negative weights, alpha and beta the element matrix is positive semidefinite |
| `EdgePositivity.SumEntries` | src/apps/EDGE3D.hpp:383-390 | The body's loops add up all entries of the matrix |
| `EdgePositivity.EdgeBody` | src/apps/EDGE3D.hpp:377-391 | EDGE3D's sum over a zone is the Gram sum over all entries and is not negative |
| `EdgeGeometry.FirstIsSlope` | src/apps/mixed_fem_helper.hpp:440-486 | Jxx, Jxy and Jxz are the slopes along the first axis of the coordinates interpolated by nodebasis |
| `EdgeGeometry.SecondIsSlope` | src/apps/mixed_fem_helper.hpp:488-534 | Jyx, Jyy and Jyz are the slopes along the second axis |
| `EdgeGeometry.ThirdIsSlope` | src/apps/mixed_fem_helper.hpp:387-433 | Jzx, Jzy and Jzz are the slopes along the third axis |
| `EdgeGeometry.CentreIsHalfway` | src/apps/EDGE3D.hpp:213-228 | The cell-centred Jacobian is the Jacobian at the middle of the zone |
| `EdgeGeometry.CurlXIsCurl` | src/apps/mixed_fem_helper.hpp:712-730 | The x components of the tabulated curls are those of the curls of the edge functions, for all twelve |
| `EdgeGeometry.CurlYIsCurl` | src/apps/mixed_fem_helper.hpp:733-751 | So are the y components |
| `EdgeGeometry.CurlZIsCurl` | src/apps/mixed_fem_helper.hpp:754-772 | So are the z components |
| `EdgeGeometry.BoxJacobian` | src/apps/mixed_fem_helper.hpp:387-534 | With corners counted as these formulas expect, a box has a diagonal Jacobian of determinant dx dy dz everywhere |
| `EdgeGeometry.FoldedJacobian` | src/apps/EDGE3D.hpp:373-380 | With corners in the order of NDPTRSET the same box has determinant dx (1 - 2 eta) dy dz, zero at the centre |
| `EdgeGeometry.MeshZonesFold` | src/apps/AppsData.cpp:160-172 | So has every zone of the mesh that setMeshPositions_3d lays out |
| `EdgeGeometry.EdgeZone` | src/apps/EDGE3D.hpp:377-391 | From the corner coordinates on, whatever the zone's shape, the body returns the sum over the Gram matrix of the transformed functions, and it is not negative |
| `EdgeSum.EdgeDual` | src/apps/mixed_fem_helper.hpp:649-709 | Along an edge of its own axis the function of that edge has component one and the three others zero |
| `EdgeSum.EdgeAtPoint` | src/apps/mixed_fem_helper.hpp:810-834 | At every point of a zone the Jacobian takes each transformed edge function back to the reference function, times the determinant and its reciprocal |
| `EdgeSum.CurlAtPoint` | src/apps/mixed_fem_helper.hpp:836-863 | With exact division the shifted absolute determinant times a transformed curl is the transposed Jacobian times the reference curl |
| `EdgeSum.GramIs` | src/apps/EDGE3D.hpp:297-355 | An entry of the element matrix, as the sum over the points of the weights, the absolute determinant and alpha times the product of the functions plus beta times that of the curls |
| `EdgeSum.AllEntries` | src/apps/EDGE3D.hpp:377-391 | For any corners the curls cancel in the sum of all entries, which is the weighted sum of the squared lengths of the field that the inverse Jacobian makes of (1, 1, 1) |
| `EdgeSum.BoxSum` | src/apps/EDGE3D.hpp:377-391 | On a counter-clockwise box the sum is the absolute determinant times the square of its reciprocal times (dy dz)^2 + (dx dz)^2 + (dx dy)^2 times the third power of the sum of the weights |
| `EdgeSum.FoldedField` | src/apps/EDGE3D.hpp:373-391 | On a zone with its corners in the order of NDPTRSET that field has the components dy dz, 2 dx (x - y) dz and dx (1 - 2 y) dy times the reciprocal |

## Left out

- Timers, repetition counts, checksums, allocation and messages; the RAJA, Kokkos, OpenMP target
  and `inscan` variants; SORT, SORTPAIRS and the pointwise kernels; VOL3D and COUPLE.
- The two-dimensional mesh routines (`setRealZones_2d`, `setMeshPositions_2d`, NDSET2D).
- Rounding. The claims that a schedule does not matter are about exact arithmetic.
- Machine widths: block ids, counts and list entries do not wrap. Only the ballot masks have a width.
- Block scans, block exchanges, the warp reduction and the shuffle are used by their specification.
- Weak memory. A fence followed by an atomic flag is the order of two steps. Lanes of a warp advance
  on their own between two ballots, so their flag reads are no snapshot.
- LookBackProgress.NeverDeadlocks: gives one way to finish, for any past; that every weakly fair schedule
  finishes is LookBackLiveness.AllFinish. A scheduler that passes over for ever a block that could move
  is left out.
- Progress on HIP, where the source does not promise that blocks start in order.
- A block whose size is not a multiple of the warp width. The last warp of a block does its look-back.
- MASS3DPA and DIFFUSION3DPA between barriers are modelled in the loop order of the sequential variant,
  except DIFFUSION3DPA's packed load, whose stores also come in any order. Thread interleavings within
  a stage are modelled for CONVECTION3DPA, where the loops and stores of the contractions interleave
  step by step and stages 1, 5 and 8 cell by cell.
- Thread blocks of different elements. They write disjoint parts of Y; one element runs after another.
- Mass.Apply: more dofs than quadrature points are left out, since the second load would then read
  beyond its table.
- Diffusion.Apply: the number of stored coefficients is a parameter. With `symmetric` false and only
  six stored (SYM is 6) the source would read into the next element's; the model requires nine there.
- ENERGY's division and square root are parameters, any functions. One loop iteration is one step: the
  arrays it reads and writes belong to the thread alone. That all six loops get the same chunks is what
  section 2.9.2 of the OpenMP API 5.0 guarantees for a static schedule.
- REDUCE_SUM's blocks interleave at their atomic adds; within a block the threads of a tree level
  interleave at loads and stores.
- Edge.AddPoint: the determinant and the transformed functions of a point are given; EdgeGeometry.EdgeZone
  computes them from the corners.
- Edge.BuildMatrix: stated for any point data, for the same reason.
- EdgePositivity.EdgeBody: stated for any point data, for the same reason.
- EnergyBalance.Balance: where a cut-off or the minimum takes effect in loop 4 or 5 there is no balance;
  Energy.FinalCuts then says what the energies satisfy.
- Jacobian.BadZone: division is a parameter, any function; Jacobian.ReplacedWhenSmall takes it exact.
- Quadrature rules beyond order five. The source leaves its arrays unset for those, and so does the model.
- `ADomain` for a dimension other than two or three, which leaves fields unset.
