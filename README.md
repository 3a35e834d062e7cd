# PDD dose, LET and fluence scoring — a Dafny model

PDD is a Geant4 application that simulates a beam in a segmented water
phantom. It scores three things per voxel and per particle species:

- the energy deposit (dose),
- the dose- and track-averaged linear energy transfer (LET),
- the fluence.

It also records the depth–dose curve and the kinetic energies K50, K70
and K90 of the primary particle at three depths.

This project models the scoring core in Dafny:

- **The voxel grid.** The linear index `(i*ny + j)*nz + k` and the
  x-then-y-then-z order in which the writers walk the voxels
  (`voxel_grid.dfy`).
- **Particles and steps.**
  - Species keys: the PDG code with its last digit removed, C++-style, plus
    whether the track is the primary.
  - Names cut at the first `[`.
  - The (Z, A) order of species.
  - The secondary-electron energy sum (`particles.dfy`).
- **The dose matrix** (`DetectorMatrix`):
  - The species store: look up by key, or append a zeroed species, or fail
    without changing anything when allocation fails.
  - The three fill operations.
  - The sparse table writer, which skips voxels whose species total is zero.
  - The three `Store*Ascii` producers (`detector_matrix.dfy`).
- **The LET scorer** (`LET`):
  - The four grid-wide sums and the per-species sums.
  - The end-of-run division and sort (`LetOutput`).
  - The dense `Let.out` table (`let_scoring.dfy`).
- **The sensitive detector.** It turns a step into a hit (`detector_sd.dfy`).
- **The PDD event action** (`event_action.dfy`):
  - The per-event reset.
  - The progress divisor.
  - The histogram fills.
  - The routing of a hit collection into the dose matrix. Every quantity is
    proved conserved per voxel.
- **The PDD and D1 stepping actions** (`stepping_actions.dfy`):
  - The scoring-volume test.
  - The K latches: once per event for PDD, and never reset for D1, whose
    event action clears nothing at the start of an event.
  - The LET gate.
  - The depth histograms.
- **The nested phantom parameterisation.** Slab centres, the two-material
  checkerboard, placement and dimensions (`nested_phantom.dfy`).
- **The detector-construction accessors** (`detector_construction.dfy`).
- **The `dose` executable's command line** (`dose_main.dfy`):
  - Option pairs and their defaults.
  - The batch or interactive choice.
  - The end-of-run tables.

Quantities are Dafny `real`s in CLHEP units (mm = 1, MeV = 1). Tables are
modelled as a header and a sequence of rows rather than as files.

### Where the model follows the code over the documentation

- `LET::LetOutput` divides in place with no "already divided" flag, so
  calling it twice divides twice (`DivideWhereNotIdempotent`). `std::sort`
  is not stable, so the order of species with equal (Z, A) is left open.
  The model states only that the result is sorted and a permutation.
- The D1 stepping action compares the atomic number Z with the latch
  depths 242, 253 and 256 mm, not the z position. The model does the same
  (`D1LatchNeedsHeavyPrimary`).
- The usage text of `dose` offers `./dose macro.mac`, but the argument
  loop refuses every odd number of arguments (`OddArgumentsRejected`).
- The sensitive detector stores replica depth 2 as x and depth 1 as y. The
  stepping actions use depth 1 as x and depth 2 as y (`AxisSwap`).
- `DetectorMatrix::FillLet` ignores its `dx` argument.

## Model

| member | source | states |
|---|---|---|
| VoxelGrid.Zeros | src/LET.cc:169-172 | a freshly zeroed per-voxel array has n cells, all 0 |
| VoxelGrid.ZeroFill | src/LET.cc:78 | the zeroing loop leaves the array equal to Zeros of its length |
| VoxelGrid.IndexInRange | include/DetectorMatrix.hh:99-102 | an in-grid voxel's index lies in [0, nx*ny*nz) |
| VoxelGrid.CoordsOfIndex | include/DetectorMatrix.hh:99 | the inverse mapping recovers (i, j, k) from the index of an in-grid voxel |
| VoxelGrid.IndexOfCoords | include/DetectorMatrix.hh:99-102 | every offset in [0, nx*ny*nz) is the index of the in-grid voxel Coords returns |
| VoxelGrid.IndexOnGrid | include/DetectorMatrix.hh:99-102 | on the grid, the index is in range and Coords recovers the voxel |
| VoxelGrid.IndexBijective | include/DetectorMatrix.hh:99-102 | Index is a bijection from the grid onto [0, nx*ny*nz) |
| VoxelGrid.VoxelsInIndexOrder | src/DetectorMatrix.cc:155-157 | the i/j/k loop nest visits nx*ny*nz voxels, the m-th being the voxel with index m |
| VoxelGrid.VoxelsCoverGrid | src/LET.cc:242-247 | every in-grid voxel is visited, at position Index(i, j, k) of the walk |
| Particles.CppRem | src/DetectorMatrix.cc:333 | C++ `%` by a positive divisor: magnitude below the divisor, with the sign of the dividend |
| Particles.GroupedCode | src/DetectorMatrix.cc:332-333 | the grouped code is a multiple of 10, within 9 of the code, and lies between 0 and the code |
| Particles.GroupedCodeIdempotent | src/LET.cc:114-115 | grouping a grouped code changes nothing |
| Particles.GroupedCodeTowardZero | src/DetectorMatrix.cc:401-402 | a negative code is grouped toward zero (-2213 to -2210), unlike a floored remainder (-2220) |
| Particles.CutName | src/DetectorMatrix.cc:355-356 | the cut name is a prefix of the full name without '['; when shorter, the next character is '[' |
| Particles.PrimaryTestIsKeyEquality | src/DetectorMatrix.cc:341 | the two-branch primary test holds exactly when isPrimary equals (trackID == 1) |
| Particles.Locate | src/DetectorMatrix.cc:336-351 | the scan finds the first entry with the key, and finds nothing iff the key is absent |
| Particles.LocateUnique | src/LET.cc:134-140 | in a store without repeated keys, the match found is the only one |
| Particles.AppendMissingKeepsDistinct | src/DetectorMatrix.cc:385 | appending only after a miss keeps the keys distinct |
| Particles.ZALessIrreflexive | include/DetectorMatrix.hh:47 | no species is below itself under operator< |
| Particles.ZALessTransitive | include/LET.hh:39 | operator< is transitive |
| Particles.ZATrichotomy | include/LET.hh:39-40 | exactly one of a<b, b<a or equal (Z, A) holds |
| Particles.SumSecondaryElectronEnergy | src/DetectorSD.cc:75-92 | the loop returns the kinetic energy summed over the secondaries that are electrons |
| Particles.ElectronEnergySumBounds | src/PDD1SteppingAction.cc:135-153 | the sum is non-negative for non-negative energies, and 0 when no secondary is an electron |
| Particles.MeanKineticEnergy | src/DetectorSD.cc:118-124 | the mean lies between the pre- and post-step energies, equidistant from both |
| DetectorMatrix.IonLessStrictWeakOrder | include/DetectorMatrix.hh:47 | ion::operator< is irreflexive and transitive, and incomparability is equal (Z, A) |
| DetectorMatrix.NewIon | src/DetectorMatrix.cc:353-381 | a new entry has four zeroed arrays of nvox cells and the step's species key |
| DetectorMatrix.ApplyDeposits | src/DetectorMatrix.cc:346 | adding deposits keeps the shape and the species, name, Z and A of the entry |
| DetectorMatrix.ApplyDepositsCells | src/DetectorMatrix.cc:420-421 | a cell gains the deposits' total for its quantity at the filled voxel, and nothing elsewhere |
| DetectorMatrix.LetDepositsTotals | src/DetectorMatrix.cc:420-421 | a LET fill adds energyDeposit*Lsn to letN, energyDeposit to letD, and nothing to eDep or fluence |
| DetectorMatrix.Fill | src/DetectorMatrix.cc:329-395 | the shared body of the three fills keeps every entry's arrays nvox long |
| DetectorMatrix.FillValid | src/DetectorMatrix.cc:336-387 | a fill keeps the store shaped and its species keys distinct |
| DetectorMatrix.FillOutcome | src/DetectorMatrix.cc:336-393 | a fill fails only on a miss without memory, and then changes nothing; otherwise the match, or one new entry at the end, has the key, with the cut name, Z and A; no other entry changes species |
| DetectorMatrix.FillCells | src/DetectorMatrix.cc:346-383 | after a fill every cell holds its old value (0 for a new entry), plus the deposit total only at the filled entry and voxel |
| DetectorMatrix.SpeciesSumZero | src/DetectorMatrix.cc:163-173 | the species total of non-negative values is non-negative, and zero iff every value is zero |
| DetectorMatrix.SpeciesSumUpdate | src/DetectorMatrix.cc:165-171 | replacing one species' row changes the species total by the difference at that voxel |
| DetectorMatrix.SpeciesSumAppend | src/DetectorMatrix.cc:165-171 | appending a species adds its value to the species total |
| DetectorMatrix.FillSpeciesSum | src/DetectorMatrix.cc:329-395 | a successful fill raises the species total of each quantity at the filled voxel by exactly the deposit, and leaves other voxels unchanged; a failed fill changes nothing |
| DetectorMatrix.ScaledValues | src/DetectorMatrix.cc:178-184 | the per-species columns of a line are value*scale/unit, in store order |
| DetectorMatrix.SparseRowsSnoc | src/DetectorMatrix.cc:173-185 | one more voxel adds its line exactly when the species total is nonzero |
| DetectorMatrix.SparseRowsExact | src/DetectorMatrix.cc:155-187 | the lines written are exactly those of the walked voxels with a nonzero total |
| DetectorMatrix.SparseRowsOrdered | src/DetectorMatrix.cc:155-187 | lines follow increasing voxel index, so no voxel is written twice |
| DetectorMatrix.LinesExact | src/DetectorMatrix.cc:155-187 | the table holds a line for an in-grid voxel iff its species total is nonzero, and every line is an in-grid voxel's |
| DetectorMatrix.Columns | src/DetectorMatrix.cc:144-152 | one header column per species: its name, with "_1" for primaries |
| DetectorMatrix.Quantities | src/DetectorMatrix.cc:268-276 | the values handed to the writer are each species' array for the quantity, in store order |
| DetectorMatrix.GuardedRatio | src/DetectorMatrix.cc:295-300 | where letD > 0 the value times letD is letN; elsewhere it is 0 |
| DetectorMatrix.LetValues | src/DetectorMatrix.cc:289-302 | Let.out's values are each species' guarded letN/letD |
| DetectorMatrix.DetectorMatrix.constructor | src/DetectorMatrix.cc:59-80 | the dimensions and mass are stored, the store is empty, and the hit markers are all 0 |
| DetectorMatrix.DetectorMatrix.Clear | src/DetectorMatrix.cc:88-98 | the store is emptied |
| DetectorMatrix.DetectorMatrix.Initialize | src/DetectorMatrix.cc:101-106 | the store is emptied, and the matrix stays valid |
| DetectorMatrix.DetectorMatrix.ClearHitTrack | src/DetectorMatrix.cc:118-121 | every hit marker becomes 0 |
| DetectorMatrix.DetectorMatrix.Find | src/DetectorMatrix.cc:336-351 | the search loop returns Locate of the (grouped code, primary) key |
| DetectorMatrix.DetectorMatrix.NewEntry | src/DetectorMatrix.cc:359-381 | an entry exists iff allocation succeeds, and it is NewIon |
| DetectorMatrix.DetectorMatrix.Accumulate | src/DetectorMatrix.cc:329-395 | the search, allocation and add shared by the three fills leave Fill of the old store, which stays valid |
| DetectorMatrix.DetectorMatrix.FillEdep | src/DetectorMatrix.cc:329-395 | the new store and result are Fill with one eDep deposit of energyDeposit |
| DetectorMatrix.DetectorMatrix.FillLet | src/DetectorMatrix.cc:398-471 | the new store and result are Fill with letN += energyDeposit*Lsn and letD += energyDeposit; dx is not used |
| DetectorMatrix.DetectorMatrix.FillFluence | src/DetectorMatrix.cc:473-539 | the new store and result are Fill with one fluence deposit of dx/vol |
| DetectorMatrix.DetectorMatrix.WriteHeader | src/DetectorMatrix.cc:141-152 | the header is i, j, k, Total, then the species columns when the secondary flag is set |
| DetectorMatrix.DetectorMatrix.WriteVoxel | src/DetectorMatrix.cc:160-185 | a voxel's line is emitted iff its species total is nonzero, and then holds the scaled total and values |
| DetectorMatrix.DetectorMatrix.WriteColumn | src/DetectorMatrix.cc:157-187 | the k loop appends the lines of voxels (i, j, 0..nz-1) |
| DetectorMatrix.DetectorMatrix.WritePlane | src/DetectorMatrix.cc:156-187 | the j loop appends the lines of plane i |
| DetectorMatrix.DetectorMatrix.StoreAscii | src/DetectorMatrix.cc:130-191 | the table is the header and the sparse lines over the whole grid walk |
| DetectorMatrix.DetectorMatrix.StoreEDepAscii | src/DetectorMatrix.cc:257-279 | Edep.out holds each species' eDep in MeV, scaled by 1/nEvents |
| DetectorMatrix.DetectorMatrix.StoreLetAscii | src/DetectorMatrix.cc:281-305 | Let.out holds each species' guarded letN/letD in keV/um |
| DetectorMatrix.DetectorMatrix.StoreFluenceAscii | src/DetectorMatrix.cc:307-327 | Fluence.out holds each species' fluence in 1/cm2 |
| DetectorConstruction.PDD1DetectorConstruction.constructor | src/PDD1DetectorConstruction.cc:68-73 | the default phantom is a 50 cm cube cut into 1 x 1 x 500 segments |
| DetectorConstruction.PDD1DetectorConstruction.SetPhantomSize | include/PDD1DetectorConstruction.hh:48 | sets the size and keeps the segmentation |
| DetectorConstruction.PDD1DetectorConstruction.GetPhantomSize | include/PDD1DetectorConstruction.hh:49 | returns the stored size |
| DetectorConstruction.PDD1DetectorConstruction.SetNumberOfSegmentsInPhantom | include/PDD1DetectorConstruction.hh:51-52 | sets the three counts and keeps the size |
| DetectorConstruction.PDD1DetectorConstruction.GetNumberOfSegmentsInPhantom | include/PDD1DetectorConstruction.hh:53-54 | returns the same counts as the per-axis getters |
| DetectorConstruction.PDD1DetectorConstruction.Index | include/PDD1DetectorConstruction.hh:55 | the construction's index equals the matrix's, and on the grid it is in range and invertible |
| DetectorConstruction.SegmentsRoundTrip | include/PDD1DetectorConstruction.hh:51-68 | counts read back by either accessor are the counts set, and the size is unchanged |
| DetectorConstruction.PhantomSizeRoundTrip | include/PDD1DetectorConstruction.hh:48-49 | the size read back is the size set, and the counts are unchanged |
| LetScoring.StepAmounts | src/LET.cc:126-129 | a step with DE > 0 and non-negative DEEletrons has a positive dose denominator; with DX > 0, a positive track denominator |
| LetScoring.IonLetLessStrictWeakOrder | include/LET.hh:39-40 | ionLet::operator< is a strict weak order whose incomparability is equal (Z, A) |
| LetScoring.NewIonLet | src/LET.cc:142-174 | a new species has four zeroed arrays of nVoxels cells and the step's key |
| LetScoring.LetFillOutcome | src/LET.cc:132-182 | the species update keeps arrays shaped and keys distinct; it appends only on a miss, then with the cut name, full name, Z and A; no other species changes identity |
| LetScoring.LetFillCells | src/LET.cc:179-182 | each species cell keeps its old value (0 for a new one), plus the step's amount only at the matched species and voxel |
| LetScoring.AddAt | src/LET.cc:126-129 | `+=` on one cell: that cell grows by x and the others are unchanged |
| LetScoring.AddAtConsistent | src/LET.cc:126-129 | adding a positive amount to a denominator keeps every zero-denominator cell's numerator at 0 |
| LetScoring.LetFillConsistent | src/LET.cc:107-182 | steps with positive denominators keep each species' numerator at 0 wherever its denominator is 0 |
| LetScoring.DivideUpTo | src/LET.cc:188-194 | on the first w cells with a positive denominator the value times the denominator is the numerator; other cells are unchanged |
| LetScoring.DivideWhere | src/LET.cc:191-192 | the same division applied to the whole array |
| LetScoring.DivideWhereNotIdempotent | src/LET.cc:186-212 | dividing twice divides twice: 6/2 becomes 3, then 1.5 |
| LetScoring.FinalizeStep | src/LET.cc:202-211 | dividing cell w on top of cells [0, w) gives the division of cells [0, w+1) |
| LetScoring.FinalizeAll | src/LET.cc:202-211 | every species is averaged, in store order |
| LetScoring.FinalizeAllKeepsSpecies | src/LET.cc:202-211 | averaging changes only numerators, and keeps shape, order and key distinctness |
| LetScoring.InsertMultiset | src/LET.cc:197 | an insertion step adds exactly the inserted species |
| LetScoring.InsertSorted | src/LET.cc:197 | an insertion step keeps the sequence sorted |
| LetScoring.InsertDistinct | src/LET.cc:197 | inserting a species with a new key keeps the keys distinct |
| LetScoring.PrefixKeysDiffer | src/LET.cc:197 | a permutation of the first n species of a distinct store has none with species n's key |
| LetScoring.InsertStep | src/LET.cc:197 | one insertion pass keeps sorted-permutation-of-prefix |
| LetScoring.SortByZA | src/LET.cc:196-197 | the sorted store is ordered by (Z, A), is a permutation of the input, and keeps keys distinct |
| LetScoring.EqualZAOrderUnspecified | include/LET.hh:39 | a primary and a secondary of the same (Z, A) are incomparable, so their order is unspecified |
| LetScoring.LetColumns | src/LET.cc:232-238 | two header columns per species: name+"_D" then name+"_T", with "_1" for primaries |
| LetScoring.SpeciesLets | src/LET.cc:257-267 | a line's species part is each species' letDN and letTN at the voxel in keV/um, in store order |
| LetScoring.DenseRows | src/LET.cc:242-269 | the writer emits one line for every walked voxel, none suppressed |
| LetScoring.DenseRowsSnoc | src/LET.cc:245-253 | one more voxel appends exactly its line |
| LetScoring.LetLinesExact | src/LET.cc:242-269 | Let.out has nx*ny*nz lines, the line of voxel (i, j, k) at position Index(i, j, k) |
| LetScoring.PermutationShaped | src/LET.cc:197 | a permutation of a shaped store is shaped |
| LetScoring.Let.constructor | src/LET.cc:43-64 | the grid is copied from the construction, nVoxels is its product, and four arrays of that size exist |
| LetScoring.Let.Initialize | src/LET.cc:76-81 | the four totals are zero and the store is empty |
| LetScoring.Let.Clear | src/LET.cc:85-95 | the store is emptied |
| LetScoring.Let.Find | src/LET.cc:133-140 | the search loop returns Locate of the step's key |
| LetScoring.Let.NewSpecies | src/LET.cc:145-172 | the new species is NewIonLet |
| LetScoring.Let.FillEnergySpectrum | src/LET.cc:97-184 | nothing changes unless DE > 0, DX > 0, the scorer is on and Z >= 1; otherwise the four totals and the species store gain the step's amounts at Index(i, j, k) |
| LetScoring.Let.AddTotals | src/LET.cc:125-129 | each grid total gains its amount at the voxel, and nothing elsewhere |
| LetScoring.Let.UpdateSpecies | src/LET.cc:132-182 | the species store becomes LetFill, staying shaped with distinct keys |
| LetScoring.Let.DivideTotals | src/LET.cc:188-194 | a total array becomes DivideWhere of itself and its denominator |
| LetScoring.Let.DivideSpecies | src/LET.cc:202-211 | the voxel-outer, species-inner loop leaves FinalizeAll of the store |
| LetScoring.Let.LetOutput | src/LET.cc:186-212 | the totals are divided where positive; the store is a sorted permutation of the old one, averaged |
| LetScoring.Let.WriteHeader | src/LET.cc:227-238 | the header is i, j, k, LDT, LTT, then two columns per species |
| LetScoring.Let.WriteVoxel | src/LET.cc:247-267 | a voxel's line holds its indices, both total LETs and each species' two LETs, in keV/um |
| LetScoring.Let.WriteColumn | src/LET.cc:244-269 | the k loop appends the lines of voxels (i, j, 0..nz-1) |
| LetScoring.Let.WritePlane | src/LET.cc:243-269 | the j loop appends the lines of plane i |
| LetScoring.Let.StoreLetAscii | src/LET.cc:216-276 | no table for an empty store; otherwise the header and one line per voxel in walk order |
| DetectorSD.HitOf | src/DetectorSD.cc:111-152 | a hit takes x from replica depth 2, y from depth 1, z from depth 0, the secondary-electron sum and the mean kinetic energy |
| DetectorSD.KeptDeposited | src/DetectorSD.cc:94 | a kept step with non-negative energies deposited energy itself or through secondary electrons |
| DetectorSD.DetectorSD.constructor | src/DetectorSD.cc:31-37 | no collection until Initialize creates one, modelled as an empty collection (Initialize always precedes ProcessHits) |
| DetectorSD.DetectorSD.Initialize | src/DetectorSD.cc:42-50 | each event starts with an empty collection |
| DetectorSD.DetectorSD.ProcessHits | src/DetectorSD.cc:52-160 | electrons and steps with no deposit (own or secondary electrons') are refused; a kept step's hit is appended only when the matrix exists |
| EventAction.ProgressDivisor | src/PDD1EventAction.cc:68-77 | the divisor is nEvents/100 above ten events, nEvents otherwise, and never exceeds nEvents |
| EventAction.ProgressDivisorZero | src/PDD1EventAction.cc:68-77 | the remainder is taken by zero exactly when nEvents is 0 or between 11 and 99 |
| EventAction.EventFillsPositive | src/PDD1EventAction.cc:87-100 | histograms 1 to 4 get only positive K values, each once; range and vertex energy are always filled |
| EventAction.LetGateIsSpeciesFilter | src/PDD1EventAction.cc:141-151 | the routing LET gate is the species filter (not neutron, gamma or electron) with energy deposited and dx > 0 |
| EventAction.FillAt | src/PDD1EventAction.cc:135-153 | one allocating fill of the hit's species at an in-range voxel keeps the store valid |
| EventAction.Routed | src/PDD1EventAction.cc:123-153 | routing one hit (dose, gated LET, fluence) into an in-range voxel keeps the store valid |
| EventAction.RoutedAll | src/PDD1EventAction.cc:120-155 | routing the collection in order keeps the store valid |
| EventAction.RoutedAllStep | src/PDD1EventAction.cc:121-125 | hit h's voxel index is in range, and routing hits [0, h+1) is routing hit h at that index after hits [0, h) |
| EventAction.FillAtSum | src/PDD1EventAction.cc:135 | a fill at voxel n raises the species total there by the deposit total, and leaves every other voxel's total unchanged |
| EventAction.HitAmountTotals | src/PDD1EventAction.cc:135-153 | the three fills add eDep+secondariesEDep to dose, the gated LET pair, and dx/vol to fluence |
| EventAction.RoutedSum | src/PDD1EventAction.cc:123-153 | routing one hit at voxel n raises each quantity's species total there by the hit's amount, and leaves every other voxel's total unchanged |
| EventAction.RoutedAllSum | src/PDD1EventAction.cc:120-155 | after an event, each voxel's species total of each quantity has grown by exactly what its hits carried |
| EventAction.RouteHit | src/PDD1EventAction.cc:123-153 | the hit's voxel index is in range and the matrix's three fill calls leave Routed of the old store at that index |
| EventAction.RouteDose | src/PDD1EventAction.cc:135 | the dose call fills eDep + secondariesEDep into the hit's species at its voxel, and the index is in range |
| EventAction.RouteLet | src/PDD1EventAction.cc:137-150 | the LET call is made exactly when the routing gate passes, and then fills the hit's LET pair |
| EventAction.RouteFluence | src/PDD1EventAction.cc:152 | the fluence call fills dx / vol into the hit's species at its voxel |
| EventAction.RouteHits | src/PDD1EventAction.cc:120-155 | the routing loop leaves RoutedAll of the old store |
| EventAction.FillMatrix | src/PDD1EventAction.cc:105-155 | with a matrix, the markers are all zero afterwards, the species-column switch is kept and the store is RoutedAll of the old one when the event has the collection, unchanged otherwise |
| EventAction.FillEventHistograms | src/PDD1EventAction.cc:87-100 | the analysis block fills the range, the positive K values and the vertex energy, in that order |
| EventAction.PDD1EventAction.constructor | src/PDD1EventAction.cc:32-43 | all energies and K values start at 0, and the collection ID at -1 |
| EventAction.PDD1EventAction.BeginOfEventAction | src/PDD1EventAction.cc:48-62 | energies and K values reset to 0; the collection ID is looked up only while it is -1 |
| EventAction.PDD1EventAction.SetRange | include/PDD1EventAction.hh:38 | stores the range |
| EventAction.PDD1EventAction.SetK50 | include/PDD1EventAction.hh:39 | stores K50 |
| EventAction.PDD1EventAction.SetK70 | include/PDD1EventAction.hh:41 | stores K70 |
| EventAction.PDD1EventAction.SetK90 | include/PDD1EventAction.hh:43 | stores K90 |
| EventAction.PDD1EventAction.EndOfEventAction | src/PDD1EventAction.cc:64-160 | progress iff eventID is divisible by the divisor; fills only when analysis is on; the matrix's species-column switch never changes; without a collection ID the store and markers are left as they were; with one and a matrix, the markers are cleared and the hits routed |
| SteppingActions.Latch | src/PDD1SteppingAction.cc:92-96 | a K value changes only from 0, at a reached depth, to the kinetic energy |
| SteppingActions.FirstLatchSnoc | src/PDD1SteppingAction.cc:92-108 | the first latching step of a longer sequence is the earlier one if there was one |
| SteppingActions.LatchAllIsFirst | src/PDD1SteppingAction.cc:92-108 | from the reset value 0, a K value ends as the energy of the first step that latched it |
| SteppingActions.AxisSwap | src/PDD1SteppingAction.cc:84-87 | the stepping actions' x and y are the sensitive detector's y and x |
| SteppingActions.StepGateVersusHitGate | src/PDD1SteppingAction.cc:113-118 | the stepping gate requires DE > 0 itself, while the routing gate also accepts secondary-electron energy |
| SteppingActions.IsScoringVolume | src/PDD1SteppingAction.cc:61-67 | the loop finds the volume iff it is in the list |
| SteppingActions.ScoreLet | src/PDD1SteppingAction.cc:113-157 | passed iff the LET gate holds; then the scorer is filled with the mean energy and the secondary-electron sum, otherwise unchanged |
| SteppingActions.LatchPdd | src/PDD1SteppingAction.cc:92-108 | primary steps at z >= 242, 253, 256 mm latch K50, K70, K90 |
| SteppingActions.PDD1SteppingAction.constructor | src/PDD1SteppingAction.cc:41-43 | the action holds its event action and LET scorer, with no scoring volumes yet |
| SteppingActions.D1TrackingAction.AddTotalEdep | include/D1TrackingAction.hh:47 | adds the deposit to the running total |
| SteppingActions.D1TrackingAction.constructor | src/D1TrackingAction.cc:30-34 | the running deposit total starts at 0 |
| SteppingActions.D1EventAction.SetK50 | include/D1EventAction.hh:52 | stores K50 |
| SteppingActions.D1EventAction.SetK70 | include/D1EventAction.hh:54 | stores K70 |
| SteppingActions.D1EventAction.SetK90 | include/D1EventAction.hh:56 | stores K90 |
| SteppingActions.D1EventAction.constructor | src/D1EventAction.cc:41-48 | range and the three K values start at 0 |
| SteppingActions.DepositAndFill | src/D1SteppingAction.cc:92-99 | a deposit fills histogram 0 and adds to the running total; a primary step with DX > 0 fills histogram 1 |
| SteppingActions.D1SteppingAction.constructor | src/D1SteppingAction.cc:40-42 | the action holds its tracking action, event action and LET scorer, with no scoring volumes yet |
| SteppingActions.LatchD1 | src/D1SteppingAction.cc:103-119 | primary steps latch K50, K70, K90 when Z >= 242, 253, 256 (mm) |
| SteppingActions.PDD1SteppingAction.UserSteppingAction | src/PDD1SteppingAction.cc:48-168 | outside the scoring volumes nothing changes; inside, the latches, then the LET fill and primary depth histograms when the gate holds |
| SteppingActions.D1SteppingAction.UserSteppingAction | src/D1SteppingAction.cc:47-173 | outside nothing changes; inside, the deposit histograms and total, the Z-based latches, and the LET fill when the gate holds |
| SteppingActions.D1LatchNeedsHeavyPrimary | src/D1SteppingAction.cc:103-119 | a primary with Z < 242 never latches any D1 K value |
| NestedPhantom.Centres | src/PDD1NestedPhantomParameterisation.cc:43-46 | one centre per slab, none when nz <= 0 |
| NestedPhantom.CentresSymmetric | src/PDD1NestedPhantomParameterisation.cc:43-46 | the centres are symmetric about 0 and spaced 2*fdZ apart |
| NestedPhantom.CentresTile | src/PDD1NestedPhantomParameterisation.cc:43-46 | slabs of half-length fdZ tile [-nz*fdZ, nz*fdZ] exactly |
| NestedPhantom.MaterialIndex | src/PDD1NestedPhantomParameterisation.cc:60-71 | the first material without a parent touchable or when ix, iy and iz are all even; the second otherwise |
| NestedPhantom.CheckerboardNeighbours | src/PDD1NestedPhantomParameterisation.cc:70-71 | a voxel next to a first-material voxel along any axis gets the second material |
| NestedPhantom.PDD1NestedPhantomParameterisation.constructor | src/PDD1NestedPhantomParameterisation.cc:29-48 | half-lengths, nz and materials are stored, and the loop builds the slab centres |
| NestedPhantom.PDD1NestedPhantomParameterisation.ComputeMaterial | src/PDD1NestedPhantomParameterisation.cc:56-74 | the material is the one MaterialIndex selects |
| NestedPhantom.PDD1NestedPhantomParameterisation.GetNumberOfMaterials | src/PDD1NestedPhantomParameterisation.cc:79-81 | the number of materials given |
| NestedPhantom.PDD1NestedPhantomParameterisation.GetMaterial | src/PDD1NestedPhantomParameterisation.cc:86-88 | the i-th material of the list |
| NestedPhantom.PDD1NestedPhantomParameterisation.ComputeTransformation | src/PDD1NestedPhantomParameterisation.cc:92-96 | copy n is placed on the axis at its slab centre |
| NestedPhantom.PDD1NestedPhantomParameterisation.ComputeDimensions | src/PDD1NestedPhantomParameterisation.cc:100-105 | every copy gets the voxel half-lengths |
| DoseMain.Apply | dose.cc:68-80 | -m sets the macro; -ui sets onOffUI and opens the UI iff "on"; -vm sets the vis macro and forces the UI on; -n sets the event count |
| DoseMain.Initial | dose.cc:57-60 | the three strings start empty, the event count at 0 and there is no UI |
| DoseMain.WithDefaults | dose.cc:88-90 | empty values become "mac/init.mac", "off", "mac/vis1.mac"; the event count and UI are kept |
| DoseMain.ParseCommandLine | dose.cc:52-90 | more than 9 arguments is refused; no arguments means interactive with the defaults; a parsed result has no empty setting |
| DoseMain.ParseArguments | dose.cc:49-90 | the argument loop returns ParseCommandLine |
| DoseMain.ScanParsedEven | dose.cc:66-85 | a scan that succeeds consumes whole pairs |
| DoseMain.OddArgumentsRejected | dose.cc:36-41 | an odd number of arguments, including the documented `./dose macro.mac`, is never accepted |
| DoseMain.SingleMacroRejected | dose.cc:66-84 | one argument gives the usage text, or a missing value when it is a flag |
| DoseMain.ScanUI | dose.cc:69-79 | the UI exists after the scan iff it did before or some pair opens it |
| DoseMain.InteractiveIff | dose.cc:62-79 | with arguments, the run is interactive iff some pair is `-vm` or `-ui on` |
| DoseMain.ScanMacro | dose.cc:66-68 | the scanned macro is the value of the last `-m` pair, or the start value when no pair is `-m` |
| DoseMain.ScanEvents | dose.cc:66-80 | the scanned event count is the conversion of the last `-n` value, or the start count when no pair is `-n` |
| DoseMain.MacroGivenOrDefault | dose.cc:66-88 | the macro run is the last `-m` value when that is non-empty, and the default otherwise |
| DoseMain.EventsGivenOrZero | dose.cc:60-80 | the event count is the conversion of the last `-n` value, or 0; a batch run calls BeamOn with it when it is not negative |
| DoseMain.RunPlan | dose.cc:135-148 | batch runs the macro and calls BeamOn iff numberOfEvent >= 0; interactive runs the macro and vis macro and starts the session |
| DoseMain.StoreTables | dose.cc:150-155 | the three tables exist iff the matrix exists, and are the matrix's three producers |

## Left out

- I/O:
  - Files, streams and `setw`/`setprecision` formatting are left out. Each
    writer produces a header and a sequence of rows.
  - Log and usage printing is left out.
  - The `DetectorHit` record's `Print` and `Draw` are left out.
- Singletons and raw memory:
  - `GetInstance`, `new[]`/`delete[]` and the leaked copies in the three
    `Store*Ascii` are not modelled.
  - The dose matrix exists or not. This is a nullable parameter.
- Allocation failure in the three fills is the `allocOk` parameter.
  - C++ `new[]` throws rather than returning null.
  - The event routing (`RouteHit`) always fills with `allocOk` true.
- External and physics calls:
  - The stopping power `ComputeElectronicDEDX` is the parameter `dedx`.
  - The run manager's event count, event ID, analysis activation and
    vertex energy are parameters.
  - So are the scoring-volume list and the string-to-int conversion of
    `-n`.
- Histograms, run-action accumulation (`AddEdep`), tracking-action and
  run-action plumbing, and the random engine are not modelled. Fills are
  returned as values.
- Floating point is modelled as exact `real` arithmetic. No rounding or
  overflow is modelled.
- `hitTrack` is modelled as an array that is cleared. No fill reads it.
- `GetHitTrack` and `PrintNuclides` are not part of this model.
- The `StoreAscii` overload for integer data (src/DetectorMatrix.cc:194-255)
  is not part of this model. No producer calls it.
- The `Store*Ascii` copy loops into temporary arrays are modelled by the
  values they copy.
- DetectorMatrix.DetectorMatrix.StoreEDepAscii: requires `nEvents != 0`. The
  source would divide by zero.
- DetectorMatrix.DetectorMatrix.FillFluence: requires `vol != 0`. The source
  would divide by zero.
- EventAction.PDD1EventAction.EndOfEventAction:
  - It requires a nonzero progress divisor. The source takes `%` by zero
    when nEvents is 0 or between 11 and 99 (`ProgressDivisorZero`).
  - Its `fEdep` and `fK30` are fields the shown header does not declare.
    They are kept as the constructor and `BeginOfEventAction` set them.
- SteppingActions.PDD1SteppingAction.UserSteppingAction: requires
  `nEvents != 0`. The histogram weights divide by it.
- SteppingActions.D1SteppingAction.UserSteppingAction: requires
  `nEvents != 0`, for the same reason.
- LetScoring.Let.LetOutput: the sort is stated as sorted plus permutation.
  Which permutation `std::sort` picks among equal (Z, A) species is not
  modelled.
- LetScoring.Let.StoreLetAscii: the source's per-species null check on
  `letDN` is always true for stored species, so it is modelled as always
  writing both LETs.
- The loops of `FillEnergySpectrum`, `EndOfEventAction` and both
  `UserSteppingAction`s are split into helper methods of the same classes
  or module (`AddTotals`, `UpdateSpecies`, `RouteHit`, `ScoreLet`,
  `LatchPdd`, `LatchD1`, `DepositAndFill`). Their composition is stated in
  the callers' contracts.
- DoseMain.ParseCommandLine:
  - A trailing flag makes the source read `argv[argc]`. This is modelled
    as the outcome `MissingValue`, not as a crash.
  - The random-engine seeding and the visualisation manager are not
    modelled.
- Toolkit geometry, physics-list and detector wiring code is not part of
  this model.
