# Edge mesh simulator: signal, mesher and OBJ reader in Dafny

This project models the computational core of a warehouse edge-mesh simulator. Controllers sit at points of a voxelised warehouse, in which every cell holds a material code: 0 empty, 1 shelf, 2 pile, 3 wall. The simulator decides which controllers hear each other and how strongly. It has two signal models.

- **Voxel model** (`sim/signal.py`). A ray march (`occlusion`) walks the voxel grid from one controller to the other and records `(material, length)` segments. `signal` turns these into a loss and a strength in [0, 100]. `sigStren` evaluates every unordered pair of controllers and writes each link into both controllers' `hears` dictionaries.
- **Multipath model.**
  - The native tracer (`tracer.hpp`) returns a direct path and one reflected path per reflecting triangle. `Penetrace` is a bounded loop over intersections.
  - The loss model (`loss.hpp`) weights path segments as air or obstacle, computes free-space path loss and delay, and adds the reflection loss.
  - `sim/sig.py` keeps the five best paths and chooses between a beamformed and an omnidirectional figure. Its `sigStren` runs the pairs sequentially and reports progress.

Two more pieces are modelled:
- **Scene mesher** (`gen/build.py`). `march` emits two triangles for each exposed face of a solid voxel, into module-level vertex, face, normal and colour lists. `boundingBox` gives the box around the grid.
- **OBJ reader** (`sim/signal/object.py`). `read` parses Wavefront-OBJ `v` and `f` lines and splits each face into a strip of consecutive triangles. `Object` holds a component's transform and geometry.

Modules, one per file:
- `Wrappers`: `Option`, `Result` and the Python exceptions the code can raise.
- `Seqs`: two regrouping facts about concatenation.
- `Cloud`: the voxel grid, numpy's index rules and `KINDS`.
- `Mesh`: the controllers, the enumeration of unordered pairs, and the symmetric write-back shared by both `sigStren`s.
- `Occlusion`: `sim/signal.py`.
- `Mesher`: `gen/build.py`.
- `Loss`: `loss.hpp`.
- `Tracer`: `tracer.hpp`.
- `Multipath`: `sim/sig.py`.
- `ObjFile`: `object.py`.

The code follows its source's form:
- **Loops** become methods with loop invariants. Each method's `ensures` ties its result to a specification function: `March`/`Obstacles`, `Walked`/`PenetraceOf`, `EffLen`, `Time`, `Collect`, `ReadOf`, `Run`. Lemmas state the promised properties about those functions.
- **State changed in place** becomes a class: the `hears` dictionaries of `Mesh.Controller`, the mesher's module-level lists in `Mesher.Scene`, and the fields of `ObjFile.Object`.

Floats are exact reals. Python's `int()` truncation, numpy's negative-index wrap-around and C++'s `(short int)` cast are written out.

Behaviour of the code worth knowing:

- **Coinciding endpoints:** `occlusion` of two coinciding points divides by zero and raises `ZeroDivisionError`.
- **Voxel reads:** a negative voxel index wraps around as numpy indexing does. Only indices outside `[-dim, dim)` raise `IndexError`, and such a cell reads as empty.
- **Exceptions in a pass:** an exception from any pair aborts the whole `sigStren` pass before anything is written, in both `sim/signal.py` and `sim/sig.py`.
- **Progress reporting:** `sim/sig.py` reports progress once per outer controller. `sim/signal.py` reports only 0.0 and 1.0. With exactly one controller, `sim/sig.py` divides by zero pairs and raises.
- **An empty controller set:** both passes complete with nothing written.

## Model

| member | source | states |
|---|---|---|
| Cloud.NpIndex | sim/signal.py:27 | an integer index into an axis of length dim is accepted iff it lies in [-dim, dim), negative ones counting from the end; otherwise IndexError |
| Cloud.Lookup | sim/signal.py:27 | `cloud[tuple(pos)]` succeeds iff every coordinate is a valid numpy index, and then returns a cell of the grid (the cell at pos when pos is in bounds) |
| Cloud.KindName | gen/build.py:4-9 | KINDS is defined exactly on the codes 0..3 |
| Occlusion.Trunc | sim/signal.py:14 | `int(coord)` truncates toward zero: floor for non-negative, ceiling for negative coordinates |
| Occlusion.MinExit | sim/signal.py:25 | `exits = min(*inters, ray)` is at most ray and every finite boundary, and equals ray or one of them |
| Occlusion.Advance | sim/signal.py:30-33 | every axis whose boundary equals exits steps by its sign and moves its boundary on by its delta in the same iteration; the other axes stay |
| Occlusion.StepAxes | sim/signal.py:30-33 | the inner `enumerate(inters)` loop computes exactly the stepping rule |
| Occlusion.InitConsistent | sim/signal.py:15-21 | after initialisation an axis has a step iff its delta and first boundary are finite, and finite deltas are positive |
| Occlusion.BudgetDecreases | sim/signal.py:24-35 | each iteration keeps the per-axis state well formed and uses up boundary budget unless it reaches ray, so the loop terminates |
| Occlusion.MarchUnfold | sim/signal.py:24-35 | one iteration covers the span from t to exits in the current voxel and continues from the advanced state |
| Occlusion.MarchStep | sim/signal.py:24-35 | one iteration records `(kind, exits - t)` exactly when that length exceeds 0.01 |
| Occlusion.LoopStep | sim/signal.py:24-35 | one iteration preserves the loop invariant: recorded so far plus what the rest of the march records is the whole result |
| Occlusion.MarchShape | sim/signal.py:23-35 | the spans are in travel order: the first starts at t in the start voxel, each starts where the previous ended, none passes ray, the last ends exactly at ray, each reads its own voxel's material; there are spans iff t < ray |
| Occlusion.MarchCells | sim/signal.py:30-33 | consecutive voxels differ on each axis by nothing or by that axis' step, and an axis with zero direction never moves |
| Occlusion.RecordedAppend | sim/signal.py:28 | recording keeps travel order: the record of two runs of spans is the concatenation of their records |
| Occlusion.RecordedLong | sim/signal.py:28 | every recorded segment is longer than 0.01, at most one per span |
| Occlusion.RecordedWithinRay | sim/signal.py:23-35 | when no boundary lies behind t, the recorded lengths add up to at most ray - t |
| Occlusion.RecordedKinds | sim/signal.py:27 | in a grid of known materials every recorded kind is one of 0..3 |
| Occlusion.Occlusion | sim/signal.py:8-37 | the while loop returns what the specification function Obstacles gives |
| Occlusion.Obstacles | sim/signal.py:8-37 | occlusion raises ZeroDivisionError iff start == end; otherwise every recorded segment is longer than 0.01 |
| Occlusion.InitAhead | sim/signal.py:14-18 | from non-negative start coordinates no first boundary lies behind t = 0 |
| Occlusion.ObstaclesWithinRay | sim/signal.py:8-37 | from non-negative start coordinates the recorded lengths sum to at most dist(start, end) |
| Occlusion.NegativeStartOvercounts | sim/signal.py:14-18 | from a start at x = -0.5 heading towards -x, a 0.6 ray records 1.1 of segments: the bound needs the non-negative start |
| Occlusion.OvercountMarch | sim/signal.py:23-35 | the march behind that example records 1.1 |
| Occlusion.Density | sim/signal.py:39-44 | the density table has exactly the four material names as keys |
| Occlusion.DensityOf | sim/signal.py:53 | `density[KINDS[code]]` is defined iff code is 0..3, and lies between 1 and 5 |
| Occlusion.Loss | sim/signal.py:53 | the loss sum raises KeyError iff some segment's kind is not a key of KINDS |
| Occlusion.LossBounds | sim/signal.py:53 | the loss lies between the recorded length and five times it |
| Occlusion.Signal | sim/signal.py:49-56 | pairs farther apart than MAX_STREN give None before any tracing; otherwise the result is defined iff the march and the loss sum are, and is None iff the loss exceeds MAX_STREN and MAX_STREN - loss otherwise; coinciding controllers raise ZeroDivisionError; the only errors are ZeroDivisionError and KeyError; a strength lies in [0, MAX_STREN] |
| Occlusion.SignalStrength | sim/signal.py:52-56 | a strength is at most MAX_STREN minus the recorded length, and from a non-negative start at least MAX_STREN - 5·dist |
| Occlusion.SignalWithinReach | sim/signal.py:49-56 | distinct controllers within 20 m in a grid of known materials, from a start with non-negative coordinates, always get a strength |
| Occlusion.SigStren | sim/signal.py:58-72 | the pass raises iff some pair's signal raises, and then writes nothing and reports only 0.0; otherwise it reports 0.0 then 1.0 and each controller's `hears` is its old map updated with every link in pair order |
| Mesh.Names | sim/sig.py:65 | the controllers' names in dictionary order |
| Mesh.Row | sim/sig.py:72 | the inner loop over `controllers[i + 1:]` visits (i, i+1), (i, i+2), … in order |
| Mesh.PairsBeforeOrdered | sim/sig.py:71-72 | the pairs of the first i rows start below i, have a < b < n, and come in strict lexicographic order |
| Mesh.PairsBeforeCount | sim/sig.py:71-75 | the first i rows hold (n-1) + … + (n-i) = i(2n-i-1)/2 pairs |
| Mesh.PairsCount | sim/sig.py:67 | there are n(n-1)/2 pairs in all |
| Mesh.PairsBeforeComplete | sim/signal.py:64-65 | (a, b) is among the first i rows iff a < i and a < b < n |
| Mesh.PairsComplete | sim/signal.py:64-65 | every unordered pair a < b < n is visited, and nothing else |
| Mesh.Collect | sim/signal.py:62-68 | the kept links are at most as many as the pairs |
| Mesh.CollectSound | sim/sig.py:71-74 | the pass succeeds iff no pair raises, and every kept link is a pair's own link |
| Mesh.CollectOrdered | sim/sig.py:71-74 | the links come out in the pairs' strict order |
| Mesh.CollectComplete | sim/sig.py:73-74 | every pair that produced a link has it among the kept links |
| Mesh.HearsOther | sim/signal.py:70 | a controller's entry for another changes only through a link between the two |
| Mesh.HearsUntouched | sim/signal.py:68-70 | a controller no link touches keeps its `hears` |
| Mesh.HearsLink | sim/sig.py:79-80 | the only link between a and b ends up in both a's entry for b and b's entry for a |
| Mesh.OrderedUnique | sim/sig.py:71-72 | strictly ordered pairs touch each unordered pair at most once |
| Mesh.PairWritten | sim/sig.py:79-80 | after a full pass both entries of a pair hold its link when it produced one, and are unchanged when it produced none |
| Mesh.WriteBack | sim/sig.py:79-80 | the write-back loop leaves each controller's `hears` as its old map updated with every link in order |
| Mesher.FaceMapShape | gen/build.py:15-22 | faceMap has six faces of four unit-cube corners, each on the side its axis-aligned normal points to |
| Mesher.ColorOf | gen/build.py:37 | the colour lookup succeeds iff the cell value is a key of KINDS; empty gets the default black |
| Mesher.Order | gen/build.py:26 | `ndenumerate` visits X·Y·Z cells, all inside the grid |
| Mesher.RunAppend | gen/build.py:26-42 | marching two runs of cells is marching one after the other |
| Mesher.CellFacesShaped | gen/build.py:28-37 | one cell keeps the lists indexing each other, with one colour per vertex unless a KeyError cut the last face's colours |
| Mesher.RunShaped | gen/build.py:33-37 | the march keeps normals equal in number to vertices, two triangles per four vertices and every triangle index naming a vertex; colours match unless a KeyError ended it |
| Mesher.RunExtends | gen/build.py:33-37 | the march only appends: earlier contents of the module-level lists stay as a prefix |
| Mesher.CellFacesCorners | gen/build.py:34 | every vertex a cell emits is a corner of that cell |
| Mesher.RunInBox | gen/build.py:34 | every emitted vertex lies in [0, X]×[0, Y]×[0, Z] |
| Mesher.CellFacesCount | gen/build.py:28-37 | a cell emits four vertices and four normals per exposed face, and each emitted normal is an exposed face's normal |
| Mesher.BoundaryExposed | gen/build.py:29-31 | a face whose neighbour is outside the grid is always emitted |
| Mesher.EnclosedCell | gen/build.py:28-31 | a cell whose six neighbours are in bounds and solid emits nothing |
| Mesher.RunEmpty | gen/build.py:26-27 | empty cells emit nothing and are only counted |
| Mesher.CellFacesNoError | gen/build.py:37 | a cell holding a known material never raises |
| Mesher.RunNoError | gen/build.py:26-39 | in a grid of known materials the march never raises and counts every cell |
| Mesher.UnknownKindRaises | gen/build.py:37 | a solid cell with an unknown code raises KeyError at its first exposed face, and emits nothing without one |
| Mesher.VisitProgress | gen/build.py:39-42 | one cell keeps the progress values positive, increasing and at most count/total |
| Mesher.RunProgress | gen/build.py:39-42 | the same over a run of cells |
| Mesher.MarchProgress | gen/build.py:24-42 | every value passed to the callback lies in (0, 1], each larger than the one before |
| Mesher.BoundingBox | gen/build.py:46-56 | eight vertices, exactly the corners of the box, and six quads with indices below 8, each lying in one bounding plane |
| Mesher.Scene.constructor | gen/build.py:13 | the module-level lists start empty |
| Mesher.Scene.March | gen/build.py:14-44 | the lists, the progress reports and the exception are those of the fold of one visit per cell in numpy order, starting from what the lists held |
| Mesher.Scene.MarchPlane | gen/build.py:26 | one x-plane of the `ndenumerate` loop |
| Mesher.Scene.MarchLine | gen/build.py:26 | one (x, y) row of the `ndenumerate` loop |
| Mesher.Scene.Step | gen/build.py:26-42 | one cell of the loop, counting and reporting progress every 100 cells |
| Mesher.Scene.EmitCell | gen/build.py:27-37 | the `for face in faceMap` loop of a solid cell |
| Mesher.Scene.Emit | gen/build.py:33-37 | the four `extend` calls of one exposed face |
| Loss.ShortCast | sim/signal/core/loss.hpp:31 | `(short int)i` is i below 2^15 and i - 2^16 up to 2^16 |
| Loss.Dists | sim/signal/core/loss.hpp:30 | one distance per segment, between consecutive points |
| Loss.PathLoss | sim/signal/core/loss.hpp:25-39 | the loop accumulates the effective length EffLen and returns its FSPL |
| Loss.BumpsShort | sim/signal/core/loss.hpp:29-31 | on paths under 2^15 segments the counter is bumped once iff refIndex is a segment index |
| Loss.Classification | sim/signal/core/loss.hpp:27-36 | segment i weighs 1 when s is even and MAT_A when odd, with s = i before refIndex and i + 1 from it on |
| Loss.DefaultAlternates | sim/signal/core/loss.hpp:25-35 | with the default refIndex -1 segments alternate air, obstacle, … from segment 0 |
| Loss.ReflectionPointAlike | sim/signal/core/loss.hpp:31-35 | the two segments meeting at the reflection point weigh the same |
| Loss.DefaultWraps | sim/signal/core/loss.hpp:25-31 | with refIndex -1 the counter is bumped only when the index 65535 casts to -1 |
| Loss.DefaultWrapsWeight | sim/signal/core/loss.hpp:25-31 | so segment 65535 of a default path counts as air although odd |
| Loss.EffLenBounds | sim/signal/core/loss.hpp:29-36 | the effective length lies between the geometric length and MAT_A times it |
| Loss.EffLenMonotone | sim/signal/core/loss.hpp:29-36 | lengthening any segment never shortens the effective length |
| Loss.GetDelay | sim/signal/core/loss.hpp:41-52 | the loop accumulates Time, by segment parity, and scales it to nanoseconds |
| Loss.DelayClassification | sim/signal/core/loss.hpp:44-48 | the delay's parity agrees with the loss classification for refIndex -1 and is the opposite from refIndex on |
| Loss.TimeBounds | sim/signal/core/loss.hpp:44-51 | the travel time lies between the time at light speed in air and in the material |
| Loss.ReflectedPathLoss | sim/signal/core/loss.hpp:79-84 | the path loss with the reflection at refIndex plus 20·(-log10 |Γ|) of the coefficient at path[refIndex] |
| Loss.TotalReflectionFree | sim/signal/core/loss.hpp:71 | under total reflection the coefficient is 1 and the reflection adds nothing |
| Tracer.Penetrace | sim/signal/core/tracer.hpp:40-72 | the loop and its epilogue return PenetraceOf |
| Tracer.WalkedCount | sim/signal/core/tracer.hpp:50-64 | each non-breaking iteration records one hit and counts it; the count never exceeds maxInter + 1; earlier hits are kept |
| Tracer.PenetraceEmpty | sim/signal/core/tracer.hpp:66-69 | the result is empty iff the count exceeded maxInter (maxInter + 1 hits short of the end, or maxInter < 0); otherwise at most maxInter + 1 points |
| Tracer.PenetraceEnds | sim/signal/core/tracer.hpp:67-69 | a non-empty result ends at `end` with distToEnd, or at a hit within 0.001 of it |
| Tracer.WalkedAscending | sim/signal/core/tracer.hpp:53-60 | with non-negative hit distances the loop keeps recorded distances non-negative, increasing and short of the end |
| Tracer.PenetraceAscending | sim/signal/core/tracer.hpp:50-69 | the returned distances lie in [0, distToEnd] and strictly increase |
| Tracer.Positions | sim/signal/core/tracer.hpp:90-92 | the positions of the points, in order |
| Tracer.PushPositions | sim/signal/core/tracer.hpp:118-124 | the push_back loops append exactly those positions |
| Tracer.Candidates | sim/signal/core/tracer.hpp:97-126 | one candidate per triangle, in order |
| Tracer.Reflect | sim/signal/core/tracer.hpp:99-125 | one iteration of the triangle loop yields that triangle's reflected record or nothing |
| Tracer.Trace | sim/signal/core/tracer.hpp:81-128 | the records are the direct record followed by the triangles' reflected records |
| Tracer.PresentFrom | sim/signal/core/tracer.hpp:97-126 | skipping triangles with `continue` keeps the others' records in order, each from its own triangle |
| Tracer.ReflectionsFrom | sim/signal/core/tracer.hpp:97-127 | each reflected record comes from a triangle, in triangle order, and every reflecting triangle contributes |
| Tracer.TraceShape | sim/signal/core/tracer.hpp:85-127 | the direct record comes first as tx then the direct hits (even when Penetrace returned empty), with index size_t -1, whose C cast to short is -1; at most one record per triangle follows, all SingleReflected |
| Tracer.LegShape | sim/signal/core/tracer.hpp:110-113 | a leg traced with maxInter 4 has 1 to 5 points and ends at (or within 0.001 of) its end |
| Tracer.ReflectionShape | sim/signal/core/tracer.hpp:115-125 | a reflected record starts at tx; refPosIndex = |leg 1| is the last point of leg 1, at (or within 0.001 of) the point on the triangle, a valid index and short; it ends at (or within 0.001 of) rx |
| Multipath.Insert | sim/sig.py:47 | insertion keeps every path, adding p |
| Multipath.SortByLoss | sim/sig.py:47 | `sorted` returns a permutation of the paths |
| Multipath.InsertSorted | sim/sig.py:47 | insertion keeps the paths sorted by loss |
| Multipath.SortSorted | sim/sig.py:47 | `sorted(..., key=loss)` is in ascending loss order |
| Multipath.Best | sim/sig.py:47 | `[:5]` keeps min(5, number of paths) |
| Multipath.BestSelection | sim/sig.py:46-48 | the kept paths are sorted, with the dropped ones from all paths, and none has a larger loss than a dropped one |
| Multipath.BestFirst | sim/sig.py:55 | `losses[0]` is the smallest loss of all paths |
| Multipath.MinOf | sim/sig.py:16 | `min(delays)` is a delay no larger than any |
| Multipath.OmniSignal | sim/sig.py:10-21 | the loop computes OmniOf: 10·log10 of the delay-penalised sum of powers, ValueError for no paths |
| Multipath.OmniTotalBounds | sim/sig.py:17-20 | the penalty only reduces contributions: the total is positive and at most the plain power sum |
| Multipath.OmniDefined | sim/sig.py:10-21 | omniSignal never raises on a non-empty set of paths |
| Multipath.Received | sim/sig.py:53 | one received power per kept path, `power - loss` |
| Multipath.Delays | sim/sig.py:48 | the kept paths' delays, in order |
| Multipath.RecvStren | sim/sig.py:23-26 | the percentage lies strictly between 0 and 100 |
| Multipath.CalcSignalChoice | sim/sig.py:42-61 | with a path the link is computed; the figure is the beamformed one, 4 + 6 - the minimal loss, iff cA.bf, and otherwise the omni figure of the kept paths' received powers and delays; the percentage is recvStren of the chosen figure |
| Multipath.CalcSignalIgnoresB | sim/sig.py:57-61 | cB's beamforming flag has no effect |
| Multipath.RowProgress | sim/sig.py:76 | one progress value per outer controller |
| Multipath.EdgeCountIsTotal | sim/sig.py:67 | `n_edges` equals the number of pairs the loops visit |
| Multipath.EdgeCountZero | sim/sig.py:67 | `n_edges` is 0 iff there is at most one controller |
| Multipath.ProgressAt | sim/sig.py:76 | each progress value lies in (0, 1] |
| Multipath.ProgressBounded | sim/sig.py:71-77 | n progress values, all in (0, 1] |
| Multipath.ProgressMonotone | sim/sig.py:71-77 | the progress values never decrease |
| Multipath.ProgressEnds | sim/sig.py:67-77 | the last progress value is 1 |
| Multipath.CollectErrAppend | sim/sig.py:71-74 | once a pair raises, the pass raises with that error |
| Multipath.CollectSnoc | sim/sig.py:73-74 | one pair: its error, nothing, or its link appended |
| Multipath.RowErr | sim/sig.py:72-73 | a raising pair makes the whole pass raise with its error |
| Multipath.RowOk | sim/sig.py:72-74 | a pair that does not raise appends its link, if any |
| Multipath.PairStep | sim/sig.py:72-75 | one inner iteration extends the collected links by that pair, or ends the pass with the pass's error |
| Multipath.PairRow | sim/sig.py:72-77 | one outer iteration collects row i and counts its n - i - 1 pairs |
| Multipath.Pass | sim/sig.py:64-77 | the loops succeed iff no pair raises and n != 1; they report 0.0 then one value per controller and collect exactly the links of all pairs; on an exception the values of the controllers completed so far have been reported |
| Multipath.SigStren | sim/sig.py:63-82 | as Pass, then on success 1.0 is reported and every link is written into both controllers' `hears`; on an exception nothing is written and only 0.0 and the completed controllers' progress have been reported |
| ObjFile.StripShape | sim/signal/object.py:12 | stripping removes a run of blanks at each end and nothing else |
| ObjFile.Split | sim/signal/object.py:12 | split yields at least one piece |
| ObjFile.SplitJoin | sim/signal/object.py:12 | joining the pieces gives the line back, and no piece holds the separator |
| ObjFile.JoinSplit | sim/signal/object.py:12 | pieces free of the separator come back from splitting their join |
| ObjFile.FaceIndices | sim/signal/object.py:14 | the face line parses iff every token's text before the first '/' is an integer, each index being that integer minus 1 |
| ObjFile.Coordinates | sim/signal/object.py:18 | the vertex line parses iff every token is a float, each coordinate being that float |
| ObjFile.Triangulate | sim/signal/object.py:15-16 | k indices give max(k - 2, 0) triangles |
| ObjFile.StripTriangles | sim/signal/object.py:15-16 | triangle i is indices[i..i+3] and shares two indices with the next (a strip, not a fan); every index is used |
| ObjFile.AppendTriangles | sim/signal/object.py:15-16 | the range loop appends exactly the strip's triangles |
| ObjFile.Read | sim/signal/object.py:7-21 | the loop over lines computes ReadOf: vertices and triangles in file order, or the first ValueError |
| ObjFile.ToArray | sim/signal/object.py:21 | `np.array` of the two lists raises ValueError iff some list has rows of different lengths, and otherwise keeps them as they are |
| ObjFile.ReadTriangles | sim/signal/object.py:13-16 | every triangle `read` collects has three indices, so the triangle list is always rectangular |
| ObjFile.ReadErrAppend | sim/signal/object.py:11-19 | once a line raises, the remaining lines do not matter |
| ObjFile.ReadAppend | sim/signal/object.py:11-19 | reading two runs of lines concatenates their vertices and their triangles |
| ObjFile.IgnoredLine | sim/signal/object.py:13-19 | a line whose first field is neither "v" nor "f" changes nothing |
| ObjFile.PathJoin | sim/signal/object.py:31-35 | an absolute second part replaces the first; otherwise one '/' separates them |
| ObjFile.Loaded | sim/signal/object.py:21-38 | geometry is loaded iff the file opens, its lines parse and its vertices all have the same length, and is then what `read` collected |
| ObjFile.Object.constructor | sim/signal/object.py:24-38 | name set, scale [1, 1, 1], translate and rotate [0, 0, 0]; geometry is read only when no file path is given, and a failed read leaves it unset |
| ObjFile.Object.Triangles | sim/signal/object.py:40-41 | the geometry when it was loaded, AttributeError otherwise |
| ObjFile.Object.Resize | sim/signal/object.py:43-44 | sets scale and nothing else |
| ObjFile.Object.Reposition | sim/signal/object.py:46-47 | sets translate and nothing else |
| ObjFile.Object.RotateObj | sim/signal/object.py:49-50 | sets rotate and nothing else |

## Left out

- Occlusion.IsDistance: `math.dist` is modelled by two facts only. A distance is never negative, and it is zero exactly when the points coincide. Its square root is not computed exactly.
- Occlusion.ObstaclesWithinRay: stated only for start points with non-negative coordinates. `int()` truncates toward zero, so from a negative coordinate the first boundary can lie behind the start. `NegativeStartOvercounts` exhibits an overcount. The warehouse grid has no negative coordinates, so this is not listed as a defect.
- Occlusion.SignalStrength: the lower bound `MAX_STREN - 5·dist` needs the same non-negative start.
- Occlusion.SignalWithinReach: stated only from a start with non-negative coordinates, since it rests on the same bound.
- Mesher.RunShaped: states that every triangle index names a vertex. The exact triangles `[v, v+1, v+2]` and `[v, v+2, v+3]` are defined in `EmitFace`, but no lemma states them.
- Multipath.RecvStren: the logistic curve `100/(1 + exp(-0.2·(dBm + 70)))` is computed with `exp` as a parameter. Only its range is stated.
- The transcendental functions (`log10`, `exp`, `10 ** x`, `sqrt`, `asin`, `sin`, `cos`) are parameters, and so is the Fresnel coefficient with its total-reflection test. This covers FSPL's logarithms, omniSignal, recvStren and `GetRefCoe`.
- Floating point: every float and double is an exact real. Rounding, 32-bit float precision, NaN and infinity are not modelled, except where they decide control flow:
  - the infinite `inters`/`deltas` of an axis without a direction;
  - the NaN mirror point of a zero-normal triangle, which is modelled as None.
- Geometry oracles: `vec3.hpp`, `ray.hpp`, `triangle.hpp` and `bvh.hpp` are not part of this model. The tracer takes their scene hit, triangle hit, normalisation, `PositionAt` and distance as functions.
- `sim/signal/core/record.hpp` is modelled only as the `Record` datatype. The native bindings (`bind.cpp`, `core.cpp`) are not part of this model.
- The bindings' `calcLoss` (bind.cpp:51-58) computes a loss and delay only for record types 1 and 2, while `Direct` is 0. A direct record therefore never reaches `PathLoss` through them, and its `loss`/`delay` stay uninitialised. The model does not connect `Tracer.Trace`'s records to `Loss`.
- `refPosIndex` crosses into Python as an integer (2^64 - 1 for a direct record) and comes back through the `short int` parameter of `calcLoss`. That is a pybind11 conversion, not a C cast, and is not modelled.
- The older diffraction calculator (`calc.hpp`, `calc.cpp`) is not part of this model. Neither are the native build script, `sim/signal/tracer.py`, `run.py`, `vis.py`, `sim/graph.py`, `main.py`, `config.py`, the browser front end and the ray test script.
- `sim/rep.py` is not part of this model:
  - `sim/signal.py` imports KINDS from it, and the model assumes it equals `gen/build.py`'s KINDS;
  - the controller class and `Signal` come from it, and are modelled with the fields the core uses (name, position, beamforming flag, `hears`).
- The controller dictionary is modelled as a sequence of controllers with distinct names in dictionary order.
- Concurrency: the joblib `Parallel` evaluation in `sim/signal.py` is modelled as a sequential map, since every pair is independent and the results are written only afterwards.
- Callbacks are modelled by the sequence of progress values passed to them. Their messages and the `log` flag are not modelled.
- File and scene I/O are not modelled:
  - `open` becomes an environment mapping paths to their lines;
  - the trimesh scene load in `calcSignal` becomes a `trace` function from the two positions to the paths' losses and delays;
  - `build()` and the trimesh export are not modelled;
  - `boundingBox` returns its vertex and face lists rather than a `Trimesh`.
- `int()` and `float()` parsing are parameters that return None where Python raises ValueError.
- `np.array` is modelled only as the check that makes it raise: numpy 1.24 and later raise ValueError on rows of different lengths, and older versions build an object array instead, which is not modelled. Triangles always have three indices, so only `v` lines with different numbers of coordinates raise; `Object.__init__` then leaves its geometry unset. The array type itself is not modelled.
- The `print` in `Object.__init__`'s `except` is not modelled.
- `os.path.join` is modelled for POSIX paths only.
- ObjFile.Object.constructor: the initial scale `[1, 1, 1]` and the offsets `[0, 0, 0]` are integer lists in the source, and the setters store float tuples. Both are modelled as sequences of reals.
- Multipath.SortByLoss: the sort is stable by construction, as Python's `sorted` is, but no lemma states stability.
- Loss.PathLoss and Loss.GetDelay compute the segment distances once, before the loop. The source computes each one inside the loop. The values are the same.
- Mesher.Scene.March: numpy's `ndenumerate` order is modelled as nested loops over x, y and z.
