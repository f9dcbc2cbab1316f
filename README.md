# Cracked surface generation, modelled in Dafny

This project models the core of *cracked-surface-generation*, a pipeline that draws 2-D crack paths over a
brick-wall surface map, turns them into 3-D meshes, exports the meshes as Wavefront OBJ files and cuts the
rendered images into labelled patches for a dataset.

The model covers these parts, one Dafny module per source file:

- **Grid queries.** Grid and collision predicates on the surface map: `Collision`, `CollisionChecker` and the
  helpers of the two generations of path functions (`UtilPathFunctions`, `OperationsPathFunctions`).
- **Path building.** `PathPoint` gives the side points of a crack point, and `PointDecollider` moves a point
  off the bricks.
- **Walking a crack.** `PathWalker` and `CrackPathGenerator` are the two step loops; `CrackPathGenerator` also
  tapers the tips.
- **Post-processing.** `Postprocess` holds moving-average smoothing, shrinking at the end of the path and the
  progress filter.
- **Trajectory planning.** `PivotPoint`, `Trajectory`, `PivotPointGenerator`, `CrackTrajectoryGenerator` and
  `CrackPointChooser` choose the start, the pivots and the end of a crack.
- **The pipeline.** `CrackGenerator` chains the stages.
- **Meshing and export.** The two mesh builders are `CrackMesh` (`crack_generator_old.py`) and
  `CrackModelGenerator`; the two OBJ exporters live in `ObjFileExporter`.
- **Dataset helpers.** The dataset pipeline's pure and loop-shaped pieces:
  - `BoundingBox`;
  - the shared tiling `Patches`, with `RenderCrack` and both `PatchGenerator`s;
  - camera sampling in `RenderIteration` and `SceneParameterGenerator`;
  - configuration loading in `Parameters`.

Shared modules:

- `Numeric`: NumPy's `rint` (half to even), `astype(int)` (truncation), Python indexing and sums.
- `Geometry`: cells, real vectors, grids indexed `[row, column]`, and `cos`/`sin`/`atan2`/`sqrt` passed in as
  function values.
- `Text`: `str`, `int` and `os.path.join` on file names.
- `CrackModel`: the dataclasses.

How the model handles the source's effects and limits:

- **Randomness.** Every random draw is an explicit input; the pivot generator, whose draws are not, is a
  parameter indexed by the number of the call.
- **Unbounded retry loops.** Loops that retry until they succeed stop when their draws or a `fuel` bound run
  out, and then report failure.
- **Exceptions.** Where the source raises, the model returns `None`.
- **Defects.** Where the source does not do what it evidently intends (see Findings), the pipeline follows
  the code as written; the corrected definition stands beside it with the intended property proved.
- **Mutable state.** Loops that fill arrays or change a position in place are methods over arrays or local
  state, each proved against a function that states the result.

## Model

| member | source | states |
|---|---|---|
| BoundingBox.FromCorners | src/dataset_generation/models/bounding_box.py:35-43 | the box built from two corners keeps them, and its width, height and depth are the x, z and y extents |
| BoundingBox.CombineAsWritten | src/dataset_generation/models/bounding_box.py:25-43 | `combine` as written: the extents agree with the corners; each component of the new minimum corner is the smaller of the two minimum corners' and each component of the new maximum corner the smaller of the two maximum corners' (at or below both, and one of them) |
| BoundingBox.CombineAsWrittenDropsPoint | src/dataset_generation/models/bounding_box.py:30-34 | as written, combining the unit cube with the cube of side 2 loses the corner (2, 2, 2) of the larger one |
| BoundingBox.CombineAsWrittenCommutes | src/dataset_generation/models/bounding_box.py:25-34 | `combine` as written is symmetric |
| BoundingBox.CombineAsWrittenSelf | src/dataset_generation/models/bounding_box.py:25-34 | a box combined with itself, as written, keeps both corners |
| BoundingBox.Combine | src/dataset_generation/models/bounding_box.py:21-43 | the intended `combine` ("one (possibly bigger) bounding box") has extents that agree with its corners |
| BoundingBox.CombineContainsBoth | src/dataset_generation/models/bounding_box.py:21-34 | every point of either box lies in the intended combination |
| BoundingBox.CombineSmallest | src/dataset_generation/models/bounding_box.py:21-34 | any box holding the corners of both boxes holds the corners of the combination |
| BoundingBox.CombineCommutes | src/dataset_generation/models/bounding_box.py:25-34 | the intended `combine` is symmetric |
| BoundingBox.CombineAssociates | src/dataset_generation/models/bounding_box.py:25-34 | the intended `combine` is associative |
| BoundingBox.CombineSelf | src/dataset_generation/models/bounding_box.py:25-43 | a consistent box combined with itself is itself |
| Collision.OnEdgeIffNotInterior | src/crack_generation/path_functions/collision.py:4-15 | for a point on the surface, `on_edge` holds exactly when the point is not in the open interior 0 < x < width - 1, 0 < y < height - 1 |
| Collision.OnEdgeDoesNotImplyWithin | src/crack_generation/path_functions/collision.py:11-15 | (0, -3) is "on the edge" of every surface but not within it |
| Collision.InteriorIsWithinAndOffEdge | src/crack_generation/path_functions/collision.py:4-15 | a point of the open interior is within the surface and not on its edge |
| CollisionChecker.Create | src/crack_generation/operations/collision_checker.py:13-17 | the checker keeps exactly the mask it is built with |
| CollisionChecker.InObjectImpliesWithinBounds | src/crack_generation/operations/collision_checker.py:26-30 | `in_object` implies `within_bounds`, and then the mask is read at a valid cell |
| CollisionChecker.InObjectIff | src/crack_generation/operations/collision_checker.py:26-30 | `in_object` holds exactly when the position is within bounds and its mask cell is set |
| CollisionChecker.WithinBoundsRealAgrees | src/crack_generation/operations/collision_checker.py:19-24 | on integer positions the real and the integer bounds test agree; a real position within bounds rounds to a cell of the mask |
| CollisionChecker.NarrowGridHasNoBounds | src/crack_generation/operations/collision_checker.py:19-24 | on a mask with fewer than three rows or columns no position is within bounds |
| CollisionChecker.WithinBoundsIsInterior | src/crack_generation/operations/collision_checker.py:19-24 | `within_bounds` is the open interior of a surface of the same shape: within it and off its edge |
| UtilPathFunctions.IncrementByChance | src/crack_generation/util/path_generator_functions.py:15-19 | the increment is added exactly when the draw is below the chance; otherwise the value is returned unchanged |
| UtilPathFunctions.IncrementByChanceExtremes | src/crack_generation/util/path_generator_functions.py:15-19 | for a draw in [0, 1), a chance of 0 never increments and a chance of 1 always does |
| UtilPathFunctions.CreateSingleLine | src/crack_generation/util/path_generator_functions.py:34-39 | the outline has 2n + 1 points (n rows per line): the top line, then the bottom line reversed, then the first top point again, so it is closed; an empty top line raises (None) |
| UtilPathFunctions.InObject | src/crack_generation/util/path_generator_functions.py:50-54 | the mask is read with no bounds check: the lookup succeeds exactly when both indices are valid Python indices (negative ones wrap) |
| UtilPathFunctions.InObjectWithinBounds | src/crack_generation/util/path_generator_functions.py:42-54 | within bounds, `in_object` is the ordinary mask lookup and cannot raise |
| UtilPathFunctions.InObjectWrapsNegativeIndices | src/crack_generation/util/path_generator_functions.py:50-54 | (-1, -1) reads the bottom-right cell of the mask instead of answering false |
| UtilPathFunctions.FirstBlocked | src/crack_generation/util/path_generator_functions.py:69-74 | the first step at or after `idx` that is the last step, out of bounds or in an object; every step before it is free |
| UtilPathFunctions.ScanLimitBounds | src/crack_generation/util/path_generator_functions.py:57-76 | for `max_steps` >= 1 each limit lies in [0, max_steps - 1], every step up to it is free and the next one is blocked |
| UtilPathFunctions.ScanDirections | src/crack_generation/util/path_generator_functions.py:57-76 | four limits, each one less than the first blocked step of its direction (written once and never overwritten), -1 when there are no steps |
| UtilPathFunctions.ArgMax | src/crack_generation/util/path_generator_functions.py:106 | `np.argmax`: an index of a largest value, and the first one |
| UtilPathFunctions.ArgMin | src/crack_generation/util/path_generator_functions.py:109 | `np.argmin`: an index of a smallest value, and the first one |
| UtilPathFunctions.Margins | src/crack_generation/util/path_generator_functions.py:99 | the 15-step scan limits around a position, each in [0, 14] |
| UtilPathFunctions.PlaceStart | src/crack_generation/util/path_generator_functions.py:98-123 | the angle is the heading of the argmax of the margins, the width is min(margin at the argmin + the opposite margin - 1, requested width), the position moves ceil(width / 2) - margin away from the nearest wall; the width is at most 27 |
| UtilPathFunctions.WidthAtMost27 | src/crack_generation/util/path_generator_functions.py:109-112 | with margins of at most 14 the placed width is at most 27 |
| UtilPathFunctions.ChooseInitialPosition | src/crack_generation/util/path_generator_functions.py:79-123 | the start is placed from the first drawn position that is within bounds and on mortar; None exactly when no draw is |
| UtilPathFunctions.AcceptsWithFullOverlap | src/crack_generation/util/path_generator_functions.py:137 | an allowed overlap of 1 or more accepts every segment |
| UtilPathFunctions.AcceptsWithNoOverlap | src/crack_generation/util/path_generator_functions.py:137 | with no overlap allowed a segment is accepted exactly when none of its cells is marked |
| UtilPathFunctions.CheckAndMarkOverlap | src/crack_generation/util/path_generator_functions.py:126-140 | accepted exactly when the mean overlap on the line is within the allowed overlap; then every line cell is set and no other cell changes; otherwise the map is untouched; a cell NumPy cannot index raises before any write |
| OperationsPathFunctions.IncrementByChance | src/crack_generation/operations/path_generator_functions.py:9-13 | the result is the value or the value plus the increment, and the increment is added exactly when the draw is below the chance (or the increment is 0) |
| OperationsPathFunctions.GetRotationMatrix | src/crack_generation/operations/path_generator_functions.py:16-25 | the matrix is [[cos a, -sin a], [sin a, cos a]] |
| OperationsPathFunctions.RotatedVertical | src/crack_generation/operations/path_generator_functions.py:16-25 | rotating (0, w) gives w (-sin a, cos a), the offset `point_to_coords` uses |
| OperationsPathFunctions.RotationOfNegation | src/crack_generation/operations/path_generator_functions.py:16-25 | the rotation maps -v to the negated image of v |
| OperationsPathFunctions.RotationPreservesLength | src/crack_generation/operations/path_generator_functions.py:16-25 | when cos^2 + sin^2 = 1 the rotation preserves squared length |
| OperationsPathFunctions.CreateSingleLine | src/crack_generation/operations/path_generator_functions.py:28-33 | the outline has |top| + |bot| + 1 points and starts and ends at the first top point; an empty top line raises (None) |
| OperationsPathFunctions.SingleLineOfEqualLines | src/crack_generation/operations/path_generator_functions.py:32 | for lines of n rows the outline has 2n + 1 points and positions n .. 2n - 1 hold the bottom line reversed |
| PathPoint.PointToCoords | src/crack_generation/path_functions/point.py:5-9 | each side point is within half a cell of centre ± width/2 · (-sin a, cos a) on both axes, and the two are mirrored exactly around the centre (top + bottom = 2 · centre) |
| PathPoint.SidePair | src/crack_generation/path_functions/point.py:8-9 | rint(c + o) and rint(c - o) are within half a cell of the exact points and sum to 2c, for round half to even |
| PathPoint.ZeroWidthCollapses | src/crack_generation/path_functions/point.py:7-9 | a zero width puts both side points on the centre |
| PathPoint.SidePointsNearCenter | src/crack_generation/path_functions/point.py:7-9 | with sin and cos in [-1, 1], a side point is at most width / 2 + 0.5 cells from the centre on each axis |
| PathPoint.OffsetWithinHalfWidth | src/crack_generation/path_functions/point.py:7 | each component of the offset lies in [-width / 2, width / 2] |
| PathPoint.RoundedNear | src/crack_generation/path_functions/point.py:9 | rounding c + o with o in [-h, h] lands within h + 0.5 of c |
| PointDecollider.Decollided | src/crack_generation/operations/point_decollider.py:12-22 | a position the loop ends at is not in an object (outside the bounds or on mortar), and a start that is not in an object is returned unchanged |
| PointDecollider.StepIsShort | src/crack_generation/operations/point_decollider.py:19-20 | with cos and sin in [-1, 1] one step moves each coordinate by at most 2 cells |
| PointDecollider.RintBetween | src/crack_generation/operations/point_decollider.py:20 | rint of a value in [-2, 2] lies in [-2, 2] |
| PointDecollider.Decollide | src/crack_generation/operations/point_decollider.py:12-22 | the caller's position array is moved in place and ends where `Decollided` says, or reports that the step bound ran out |
| PathWalker.GeneratePath | src/crack_generation/path_functions/path.py:8-62 | the result is a `Walk`: the path excludes the initial point and gains one point per iteration; a start that fails the guard (width >= min_width, within the surface, farther than min_distance from the end) gives no points; unless the draws ran out the guard fails at the last point, measured against the end the clipped steps left; each step starts where the previous one ended, moves as `Moved` says towards the original end, ends on the surface, and changes width only on a successful update draw, by less than max_width_grow, and never upwards while not breaking through at a width at least the distance transform; a clipped step is the last when min_distance >= 0; the first step breaks through, a later one does when the point its predecessor started from is in an object and otherwise exactly when its breakthrough draw is below breakthrough_chance |
| PathWalker.IncrementBelowGrow | src/crack_generation/path_functions/path.py:54 | a uniform draw in [-1, 1) times max_width_grow stays below max_width_grow |
| PathWalker.TraceFacts | src/crack_generation/path_functions/path.py:25-60 | the facts the loop keeps about each step, spelled out per step |
| PathWalker.TraceExtend | src/crack_generation/path_functions/path.py:56-60 | a step from the point the walk is at, with a later width draw, extends those facts |
| PathWalker.SteeredExtend | src/crack_generation/path_functions/path.py:29-53 | a step that moved as `Moved` says extends the steering of the steps before it |
| PathWalker.RefreshedExtend | src/crack_generation/path_functions/path.py:37-56 | a step whose flag was kept when set and otherwise decided by its breakthrough draw extends the refreshing of the flags before it |
| PathWalker.PlacedStep | src/crack_generation/path_functions/path.py:51-60 | after a step the walk is at the new point, the guard measures against its centre exactly when it was clipped (the end is unchanged otherwise), and the next flag is whether the step's start is in an object |
| PathWalker.ClipEndsWalk | src/crack_generation/path_functions/path.py:44-51 | with min_distance >= 0 a clipped step is followed by no other: the guard then measures a distance of 0 |
| PathWalker.WalkingStep | src/crack_generation/path_functions/path.py:25-60 | one iteration of the loop keeps the state it walks in |
| PathWalker.WalkingDone | src/crack_generation/path_functions/path.py:25-62 | the state the loop leaves is a `Walk` of `generate_path` |
| PathWalker.GuardEndSnoc | src/crack_generation/path_functions/path.py:46-51 | the end the guard measures against moves to the centre of a clipped step and stays put otherwise |
| PathWalker.Step | src/crack_generation/path_functions/path.py:29-58 | one iteration: the flag stays set once set and otherwise becomes set exactly when the first draw is below breakthrough_chance (consuming that draw only then); the new centre and angle are as `Moved` says (the truncated step along the heading, clipped to the surface exactly when it leaves it, and `atan2` of the heading); the width change obeys `WidthStep` on the draw after the increment draw |
| PathWalker.Heading | src/crack_generation/path_functions/path.py:30-42 | the heading is the normalised direction to the end while breaking through, and otherwise the normalised blend of `gradient_influence` times the gradient vector and (1 - gradient_influence) times the direction to the end |
| PathWalker.ClipToSurface | src/crack_generation/path_functions/path.py:46-50 | clipping puts a cell on the surface and leaves a cell already on it unchanged |
| PathWalker.NextWidth | src/crack_generation/path_functions/path.py:54-55 | the width is unchanged unless the update draw is below the chance; it grows by less than max_width_grow; it cannot grow while not breaking through at a width at least the distance transform |
| CrackPathGenerator.DetermineWidthPoints | src/crack_generation/crack_path_generator.py:14-27 | each side point is within half a cell of `center ± R(angle)(0, width)/2`, so the two are mirrored about the centre up to one cell, and exactly when the centre is a cell |
| CrackPathGenerator.WidthPointsMatchPointToCoords | src/crack_generation/crack_path_generator.py:14-27 | on a cell centre the side points are those `point_to_coords` of the other generation computes |
| CrackPathGenerator.WidthPointsSpan | src/crack_generation/crack_path_generator.py:22-23 | when cos² + sin² = 1 the exact side points are `width` apart |
| CrackPathGenerator.GeneratePath | src/crack_generation/crack_path_generator.py:30-79 | the lines start with the row of the initial position and gain one row per step; every step starts where the last ended, at a point passing the loop guard, breaks through whenever its start cell is in an object, heads straight for the end while breaking through, and changes the width by 0 or ±0.2, growing only where half the width is below the distance transform; a start failing the guard gives one row; a normal stop fails the guard; an IndexError on the distance transform happens only while the guard holds |
| CrackPathGenerator.WalkOnce | src/crack_generation/crack_path_generator.py:53-77 | one loop body uses one or two draws, starts at the given centre and width, and, unless the distance transform lookup is out of range, satisfies the per-step facts above |
| CrackPathGenerator.WalkExtends | src/crack_generation/crack_path_generator.py:71-72 | appending a step that starts where the walk ended keeps the walk chained and every row consistent with its step |
| CrackPathGenerator.WidthDrift | src/crack_generation/crack_path_generator.py:75-77 | after n steps the width is within 0.2 n of the initial width |
| CrackPathGenerator.WidthGrowIncrements | src/crack_generation/crack_path_generator.py:107 | the taper increment is at least 0.2 and at least 5% of the width, and is one of the two |
| CrackPathGenerator.TaperWidth | src/crack_generation/crack_path_generator.py:113 | a tapered width is never below `MIN_WIDTH` and equals the reduced width when that is at least `MIN_WIDTH` |
| CrackPathGenerator.AsWrittenTaperTurnsSides | src/crack_generation/crack_path_generator.py:111-115 | as written, the recomputed side offset is perpendicular to the row's own side vector |
| CrackPathGenerator.AsWrittenTaperExample | src/crack_generation/crack_path_generator.py:111-115 | as written, the vertical row (0,2)/(0,0) of a horizontal crack becomes the horizontal row (-1,1)/(1,1) |
| CrackPathGenerator.TaperRowKeepsSides | src/crack_generation/crack_path_generator.py:111-115 | the corrected row keeps the side offset parallel to, and pointing the same way as, the old side vector |
| CrackPathGenerator.TaperRowExample | src/crack_generation/crack_path_generator.py:111-115 | the corrected taper leaves the vertical row (0,2)/(0,0) as it is |
| CrackPathGenerator.TaperForward | src/crack_generation/crack_path_generator.py:108-126 | a taper loop from a non-negative index rewrites each row from the index up to the stop once, from its old value, touches no other row, and fails (IndexError) exactly when it runs past the last row |
| CrackPathGenerator.TaperRows | src/crack_generation/crack_path_generator.py:108-126 | (specification of one taper loop) both lines keep their length; what happens to each row is stated by `TaperForward` |
| CrackPathGenerator.EndTaperOutOfRange | src/crack_generation/crack_path_generator.py:118-126 | an `end_pointiness` above twice the length raises IndexError before any row changes |
| CrackPathGenerator.EndTaperWraps | src/crack_generation/crack_path_generator.py:118-126 | an `end_pointiness` between the length and twice the length wraps round through negative indices and finishes without error |
| CrackPathGenerator.TaperLoop | src/crack_generation/crack_path_generator.py:108-126 | the in-place `while` loop over the two line arrays leaves them as the taper specification says, and reports the IndexError |
| CrackPathGenerator.RewriteRow | src/crack_generation/crack_path_generator.py:115 | row `idx` of both lines is replaced by its recomputed row and nothing else changes |
| CrackPathGenerator.TaperedKeepsMiddle | src/crack_generation/crack_path_generator.py:106-128 | with both pointiness values within the length the tapers succeed, keep the length, and leave the rows between the two tips as walked |
| CrackPathGenerator.TaperedStartTooLong | src/crack_generation/crack_path_generator.py:108-116 | a `start_pointiness` above the length raises IndexError |
| CrackPathGenerator.Tapered | src/crack_generation/crack_path_generator.py:106-128 | (specification of the two tapers, with the row rewrite as written) a tapered crack has the walk's length in both lines |
| CrackPathGenerator.TaperLines | src/crack_generation/crack_path_generator.py:106-128 | the tapers on array copies of the lines give exactly the taper specification |
| CrackPathGenerator.Generate | src/crack_generation/crack_path_generator.py:89-128 | the walk behind the crack is the one `GeneratePath` promises (first row at the start, one row per chained step that passed the loop guard, a normal stop failing the guard, an IndexError only while it holds); the crack is that walk tapered as written, of the walk's length, unless the walk or a taper raised IndexError |
| Postprocess.Padded | src/crack_generation/path_functions/postprocess.py:14-20 | the padded coordinate is `s - 1` copies of the first value, the values, `s - 1` copies of the last: each entry is the value at the clamped index |
| Postprocess.CumulativeSum | src/crack_generation/path_functions/postprocess.py:22 | entry `j` of the cumulative sum is the sum of the first `j + 1` values |
| Postprocess.SmoothedFromCumsum | src/crack_generation/path_functions/postprocess.py:23 | the difference of prefix sums `2s` apart, divided by `2s` and rounded, is the rounded mean of the clamped window around `i` |
| Postprocess.SmoothCoordinate | src/crack_generation/path_functions/postprocess.py:13-23 | the loop over the prefix sums gives the moving average: ends kept, each interior value the rounded window mean |
| Postprocess.MovingAverageOfConstant | src/crack_generation/path_functions/postprocess.py:13-23 | a constant coordinate is left unchanged |
| Postprocess.MovingAverageWithinRange | src/crack_generation/path_functions/postprocess.py:13-23 | every smoothed value lies between the least and the greatest input value |
| Postprocess.SmoothedPoints | src/crack_generation/path_functions/postprocess.py:13-27 | the points with each centre replaced by the smoothed x and y, widths and angles kept |
| Postprocess.SmoothPathMovingAverage | src/crack_generation/path_functions/postprocess.py:11-28 | fails exactly on an empty path or a smoothing below 1, then changing nothing; otherwise the path is updated in place to its moving-averaged centres |
| Postprocess.ShrinkPathEnd | src/crack_generation/path_functions/postprocess.py:43-57 | fails exactly on an empty path; centres and angles never change; the last width becomes min(width, min_width); walking back, each rewritten width is its successor plus draw × max_width_grow; rows before the first one reached are unchanged; a stop other than running out of draws is at a pair within max_width_grow |
| Postprocess.GrowBefore | src/crack_generation/path_functions/postprocess.py:54 | only row `idx - 1` changes, to the width of row `idx` plus the growth |
| Postprocess.ShrinkStepBounds | src/crack_generation/path_functions/postprocess.py:54 | a rewritten width exceeds its successor by at least half and less than all of max_width_grow |
| Postprocess.GradientOfLine | src/crack_generation/path_functions/postprocess.py:68 | the gradient of evenly spaced values is the spacing at every index, the ends included |
| Postprocess.KeptIndices | src/crack_generation/path_functions/postprocess.py:70-71 | the kept indices are exactly the `true` entries, strictly increasing |
| Postprocess.Filter | src/crack_generation/path_functions/postprocess.py:71 | the filter keeps the entries at the kept indices, in order |
| Postprocess.KeptIndicesAll | src/crack_generation/path_functions/postprocess.py:70-71 | when every entry is `true` every index is kept |
| Postprocess.RemoveNonIncreasingPoints | src/crack_generation/path_functions/postprocess.py:60-71 | a path of fewer than five points is returned as is; otherwise the result is, in order, exactly the points whose distance gradient exceeds the threshold |
| Postprocess.SteadyPathIsKept | src/crack_generation/path_functions/postprocess.py:60-71 | a path moving away from its start at a constant rate above the threshold loses no point |
| PivotPoint.Probabilities | src/crack_generation/path_functions/pivot_point.py:40-44 | the three chances keep their total; without `force_inwards` they are as configured; with it, on the roof the side chance moves into the bottom chance, elsewhere the bottom chance moves into the diagonal one |
| PivotPoint.Choose | src/crack_generation/path_functions/pivot_point.py:46 | `np.random.choice` succeeds exactly for non-negative chances summing to one and returns one of the three directions |
| PivotPoint.ChooseAvoidsZero | src/crack_generation/path_functions/pivot_point.py:46 | a direction of chance zero is never chosen |
| PivotPoint.ChooseIsInItsShare | src/crack_generation/path_functions/pivot_point.py:46 | the chosen direction has a positive chance and the draw lies in its share of [0, 1) |
| PivotPoint.Displacement | src/crack_generation/path_functions/pivot_point.py:48 | the rounded triangular draw lies between the triangle's ends |
| PivotPoint.DisplacementVectorInUnit | src/crack_generation/path_functions/pivot_point.py:49 | for a displacement within the unit, both components stay inside the unit and the two legs add up to the displacement |
| PivotPoint.SnapBounds | src/crack_generation/path_functions/pivot_point.py:50 | snapping to the brick size moves a component by at most half a brick and keeps it within the unit |
| PivotPoint.PivotTargetInUnit | src/crack_generation/path_functions/pivot_point.py:20-51 | the pivot moves by whole bricks: sideways by at most the drawn brick widths in the pivot direction, downwards by at most the drawn brick heights |
| PivotPoint.GeneratePivotPoint | src/crack_generation/path_functions/pivot_point.py:11-53 | a pivot exists exactly when the chances form a distribution, and it is the nearest-mortar move of the target for one of the three directions |
| PivotPoint.ForceInwardsNeverLeaves | src/crack_generation/path_functions/pivot_point.py:41-46 | with `force_inwards` a pivot on the roof never runs along the side, and one elsewhere never along the bottom |
| PivotPoint.SearchSpace | src/crack_generation/path_functions/pivot_point.py:66-71 | the search space is defined exactly for the left and right directions; to the left it ends at the last column, to the right it starts at column 0 |
| PivotPoint.Candidates | src/crack_generation/path_functions/pivot_point.py:74-79 | the candidates are the side column for the searched rows followed by the top row for the searched columns, empty ranges counting as empty |
| PivotPoint.InsertByDepth | src/crack_generation/path_functions/pivot_point.py:80 | inserting into a list sorted deepest first keeps it sorted and adds exactly the new entry |
| PivotPoint.SortByDepth | src/crack_generation/path_functions/pivot_point.py:80 | the sort by decreasing depth is sorted, a permutation of its input, and stable: the entries of each depth keep their input order, as Python's `list.sort` does |
| PivotPoint.InsertKeepsOrderAtDepth | src/crack_generation/path_functions/pivot_point.py:80 | insertion puts the new entry in front of the entries of its own depth and keeps the order of every depth's entries |
| PivotPoint.DetermineStartPoint | src/crack_generation/path_functions/pivot_point.py:56-86 | no start for a direction that is neither left nor right; a start found has its width capped at the initial width and the angle given by where it lies (the full characterisation is `StartPointIsAmongTheDeepest`) |
| PivotPoint.WithDepths | src/crack_generation/path_functions/pivot_point.py:80 | the keys exist exactly when every candidate indexes the distance transform, and each is the depth at its candidate |
| PivotPoint.ChoiceIndex | src/crack_generation/path_functions/pivot_point.py:83 | `randint(bound)` picks an index below the bound |
| PivotPoint.StartPointIsAmongTheDeepest | src/crack_generation/path_functions/pivot_point.py:56-86 | the start is a candidate, there are at least five candidates, fewer than a fifth of them are strictly deeper, the width is capped at its depth and the angle is given by where it lies |
| Trajectory.OrbitStep | src/crack_generation/path_functions/trajectory.py:21-28 | pivot `i` is what call `i` of the pivot generator makes of the pivot before it, the first of the start |
| Trajectory.OrbitPrefix | src/crack_generation/path_functions/trajectory.py:21-28 | a shorter list of pivots is a prefix of a longer one |
| Trajectory.FollowPivots | src/crack_generation/path_functions/trajectory.py:20-34 | between 1 and `num_pivot_points` pivots, each generated from the one before by the next call of the pivot generator; all but the last on the surface, and a short list ends with the first pivot off it |
| Trajectory.GeneratePivotTrajectory | src/crack_generation/path_functions/trajectory.py:9-34 | fails exactly when no start point can be determined; otherwise the start is the determined one and the pivots follow it as above |
| PivotPointGenerator.Displacement | src/crack_generation/operations/pivot_point_generator.py:32-43 | the triangular draw lies between the ends of the chosen distribution: [0, uw] along the bottom, [0, uw + uh] along the diagonal, [uw, uw + uh] along the side |
| PivotPointGenerator.SnapInUnit | src/crack_generation/operations/pivot_point_generator.py:45 | snapping a component of the unit gives a whole number of bricks within the unit |
| PivotPointGenerator.SnappedVectorInUnit | src/crack_generation/operations/pivot_point_generator.py:44-46 | both whole-pixel components of the snapped displacement lie inside the unit |
| PivotPointGenerator.TargetMovesUpAndAlong | src/crack_generation/operations/pivot_point_generator.py:25-46 | the target lies upwards by at most the drawn brick heights and, in the pivot direction, by at most the drawn brick widths |
| PivotPointGenerator.Generate | src/crack_generation/operations/pivot_point_generator.py:15-48 | no pivot when the chances are not a distribution; a pivot is the decollided target of one of the three directions, and never on a brick |
| CrackTrajectoryGenerator.DetermineWidth | src/crack_generation/crack_trajectory_generator.py:16-29 | the width is one less than the smaller of the requested width and the mortar bound for the angle (the mortar width for steep angles, the mortar height otherwise) |
| CrackTrajectoryGenerator.SearchBoxAsWrittenMirrorsOnlySquares | src/crack_generation/crack_trajectory_generator.py:45-46 | as written, the left-to-right and right-to-left boxes mirror each other exactly on square maps; on 100 rows by 1000 columns they span columns [0, 20) and [800, 1000) |
| CrackTrajectoryGenerator.StartSearchBoxesMirror | src/crack_generation/crack_trajectory_generator.py:45-46 | the corrected boxes mirror each other and each spans a fifth of the columns |
| CrackTrajectoryGenerator.FirstStart | src/crack_generation/crack_trajectory_generator.py:49-55 | a start found is within bounds and off the bricks |
| CrackTrajectoryGenerator.FirstStartIsFirstAccepted | src/crack_generation/crack_trajectory_generator.py:49-55 | the start is the decollision of some draw, and every earlier draw was decollided to a rejected position |
| CrackTrajectoryGenerator.AcceptedIffWithinBounds | src/crack_generation/crack_trajectory_generator.py:49 | a decollided position is accepted exactly when it is within bounds |
| CrackTrajectoryGenerator.DetermineStartPoint | src/crack_generation/crack_trajectory_generator.py:32-57 | for draws in the search box as written, with `randint`'s bounds truncated to integers, the retry loop from (-1, -1) ends on the first accepted decollided draw |
| CrackTrajectoryGenerator.FollowPivots | src/crack_generation/crack_trajectory_generator.py:86-102 | the in-place loop stores each next pivot while it is within bounds; the stored rows are the sequence the successive generator calls make from the start, a stop before the last row is at the pivot the next call makes, which would leave the bounds, and later rows keep their initial contents |
| CrackTrajectoryGenerator.PivotList | src/crack_generation/crack_trajectory_generator.py:87-102 | the pivot list starts at the start and holds up to `num_pivot_points` generated pivots within bounds; row 1 is the first pivot or, when there is none, the uninitialised row |
| CrackTrajectoryGenerator.Generate | src/crack_generation/crack_trajectory_generator.py:68-115 | fails exactly when the start search fails; otherwise the pivots are as in `PivotList`, the angle is the mean of the gradient angle at the start and the angle towards row 1, and the width is `determine_width` of that angle |
| CrackPointChooser.StepAsWrittenStandsStill | src/crack_generation/operations/crack_point_chooser.py:33-34 | as written, a heading with neither component a whole 1 or -1 truncates to (0, 0), so the step leaves the position where it is |
| CrackPointChooser.MoveToMortarAsWrittenStalls | src/crack_generation/operations/crack_point_chooser.py:32-34 | as written, a position on a brick with such a heading never reaches the mortar, however many steps are allowed |
| CrackPointChooser.StepAsWritten | src/crack_generation/operations/crack_point_chooser.py:33-34 | one step by the heading cast with `astype(int)` leaves the position in place exactly when both heading components lie strictly between -1 and 1 |
| CrackPointChooser.StepMoves | src/crack_generation/operations/crack_point_chooser.py:33-34 | the corrected step, rounding the unit heading, always moves the position |
| CrackPointChooser.Step | src/crack_generation/operations/crack_point_chooser.py:33-34 | the corrected step, rounding the heading, leaves the position in place exactly when both heading components lie within [-0.5, 0.5] |
| CrackPointChooser.MovedToMortar | src/crack_generation/operations/crack_point_chooser.py:25-36 | the move as written (truncated step, bounded by fuel) returns a position off the bricks, and a position already off them unchanged |
| CrackPointChooser.MoveToMortar | src/crack_generation/operations/crack_point_chooser.py:25-36 | the loop on a copy of the position, stepping by the truncated heading, gives the move as written |
| CrackPointChooser.FirstStart | src/crack_generation/operations/crack_point_chooser.py:50-56 | a start found is within bounds and off the bricks |
| CrackPointChooser.FirstStartIsFirstAccepted | src/crack_generation/operations/crack_point_chooser.py:50-56 | the start is some draw moved to the mortar, and every earlier draw was moved to a rejected position |
| CrackPointChooser.DetermineStartPoint | src/crack_generation/operations/crack_point_chooser.py:39-58 | for draws in `randint`'s range (bounds truncated to integers), the retry loop from (-1, -1) ends on the first accepted draw moved to the mortar as written |
| CrackPointChooser.ShiftWithinHalfWidth | src/crack_generation/operations/crack_point_chooser.py:95-97 | the start shift moves each coordinate by at most half the width |
| CrackPointChooser.RotatedShiftWithin | src/crack_generation/operations/crack_point_chooser.py:96-97 | `(h, 0)` rotated and truncated stays within `h` in each coordinate |
| CrackPointChooser.Choose | src/crack_generation/operations/crack_point_chooser.py:66-99 | fails exactly when the start search or the end's move to the mortar fails; otherwise the end is the start plus the grid size moved to the mortar (off the bricks), the angle is the mean of the gradient angle at the start and the angle to the end, the width is `determine_width` of the angle (lines 9-22, the same function as in the trajectory generator), and the start is shifted by half the width along the angle exactly when the width exceeds the distance transform there |
| CrackGenerator.SmoothingOf | src/crack_generation/crack_generator.py:30-33 | the Gaussian smoothing is selected exactly by "gaussian" and the moving average exactly by "moving_average" |
| CrackGenerator.ConcatMembers | src/crack_generation/crack_generator.py:21-22 | every point of the concatenated segments comes from one of them |
| CrackGenerator.ConcatAppend | src/crack_generation/crack_generator.py:22 | appending a segment appends its points |
| CrackGenerator.WalkSegment | src/crack_generation/crack_generator.py:22 | the segment is a `Walk` of `generate_path` from the start towards the pivot on its own draws (`WalkFrom`); in particular a start that fails the guard gives no points, and every point lies on the surface |
| CrackGenerator.StepsInRange | src/crack_generation/crack_generator.py:22 | the points of a walk whose every step is sound lie on the surface |
| CrackGenerator.WalkFromMeans | src/crack_generation/crack_generator.py:22 | any walk of `generate_path` gives no points from a start that fails the guard, and only points on the surface |
| CrackGenerator.WalkedExtend | src/crack_generation/crack_generator.py:21-22 | one more segment, walked by `generate_path` from the last point so far towards the next pivot on the next draw stream, extends the walk |
| CrackGenerator.WalkedMeans | src/crack_generation/crack_generator.py:18-22 | in a walk every segment is a walk of `generate_path` from the last point before it towards its pivot on its own draw stream, so it is empty when that point fails the guard and lies on the surface; every walked point lies on the surface |
| CrackGenerator.WalkSegments | src/crack_generation/crack_generator.py:18-22 | unless a segment runs out of draws, the points are the start followed by one segment per pivot, each a walk of `generate_path` from the last point so far towards its pivot on its own draw stream (`Walked`) |
| CrackGenerator.ShrinkEnd | src/crack_generation/crack_generator.py:36-40 | unless the draws run out, shrinking keeps the length, centres and angles and caps the last width at the minimum width |
| CrackGenerator.Smooth | src/crack_generation/crack_generator.py:30-33 | exactly the selected smoothing is applied; the moving average fails exactly on an empty path or a smoothing below 1 |
| CrackGenerator.Finish | src/crack_generation/crack_generator.py:24-46 | the filter keeps what `remove_non_increasing_points` keeps; on success the trajectory is the pivot list, the selected smoothing was applied, the end shrunk exactly when the smoothed last point is off the edge and wider than the minimum width, and the height map built from the final path |
| CrackGenerator.Generate | src/crack_generation/crack_generator.py:15-46 | on success the trajectory is between 1 and `num_pivot_points` pivots, each made by the next call of the pivot generator from the one before, starting at the start centre; the path before post-processing is the start and one segment per pivot, each a walk of `generate_path` from the point reached so far (`Walked`); post-processing as in `Finish` |
| CrackMesh.Linspace | src/crack_generation/crack_generator_old.py:28-31 | `np.linspace` has `n` samples, the first at the start and, from two samples on, the last exactly at the stop |
| CrackMesh.LinspaceBetween | src/crack_generation/crack_generator_old.py:41-42 | every sample of a linspace lies between its two ends |
| CrackMesh.StartAtZero | src/crack_generation/crack_generator_old.py:33-34 | the shifted profile starts at 0 and keeps every difference between samples |
| CrackMesh.DepthProfile | src/crack_generation/crack_generator_old.py:25-34 | the depth profile has one sample per point of a line and is 0 on the top line |
| CrackMesh.Shared | src/crack_generation/crack_generator_old.py:47 | every block gets the one profile |
| CrackMesh.ControlNetBlock | src/crack_generation/crack_generator_old.py:39-47 | sample `k` of block `b` is vertex `b * ppl + k`, at the profile's depth; the first sample is the top point and, from two samples on, the last the bottom point |
| CrackMesh.CalculateControlPoints | src/crack_generation/crack_generator_old.py:17-49 | the block-by-block loop fills a fresh array with exactly the control net |
| CrackMesh.CopyBlock | src/crack_generation/crack_generator_old.py:40-47 | one pass writes the samples of block `idx` after those of the earlier blocks |
| CrackMesh.CentredColumnsSumToZero | src/crack_generation/crack_generator_old.py:67-69 | after centring every coordinate column sums to zero |
| CrackMesh.CentredPlusMeans | src/crack_generation/crack_generator_old.py:67-69 | the stored means move every centred vertex back to where it was |
| CrackMesh.Centre | src/crack_generation/crack_generator_old.py:68-69 | the in-place loop subtracts the column means from every row and returns those means |
| CrackMesh.QuadFaceInRange | src/crack_generation/crack_generator_old.py:74-86 | each index of the first `(length - 1) * ppl` quads names one of the `length * ppl` vertices |
| CrackMesh.QuadFaceShape | src/crack_generation/crack_generator_old.py:79-86 | a quad joins a row to the same row of the next column and to the next row of both; after the last row it wraps to row 0 of the same column |
| CrackMesh.QuadFaceRowsDistinct | src/crack_generation/crack_generator_old.py:80 | within one column no two quads end at the same row |
| CrackMesh.QuadFaces | src/crack_generation/crack_generator_old.py:74-86 | the nested loops build exactly `(length - 1) * ppl` quads, quad `f` as above |
| CrackMesh.FillColumn | src/crack_generation/crack_generator_old.py:78-86 | one pass of the inner loop writes the quads of one column after those of the earlier ones |
| CrackMesh.Faces | src/crack_generation/crack_generator_old.py:74-86 | the quads of a strip, one per index below `(length - 1) * ppl` |
| CrackMesh.FacesInRange | src/crack_generation/crack_generator_old.py:74-86 | every quad of the strip names one of its vertices |
| CrackMesh.SideProjection | src/crack_generation/crack_generator_old.py:89-94 | a side is projected point by point to `(y, z)` when all its x are close to the first, to `(x, z)` otherwise |
| CrackMesh.ShiftTris | src/crack_generation/crack_generator_old.py:95 | the end side's triangles are shifted by the index of the last block |
| CrackMesh.SideFacesInBlocks | src/crack_generation/crack_generator_old.py:88-96 | when the triangulation names only points of its input, the start side's triangles name points of the first block and the end side's points of the last block |
| CrackMesh.OldNetSharedDepth | src/crack_generation/crack_generator_old.py:25-47 | every block of the net has the depths of the one shared profile, 0 on the top line |
| CrackMesh.OldMeshCentred | src/crack_generation/crack_generator_old.py:59-98 | the mesh has `length * ppl` vertices, each coordinate column sums to zero, and every quad names one of its vertices |
| CrackMesh.Generate | src/crack_generation/crack_generator_old.py:59-98 | fails exactly on a path without rows or a depth resolution below -1; otherwise builds the centred net, the stored means, the quads and the side triangles of the mesh specification |
| CrackModelGenerator.BlockProfiles | crack-generation/generators/crack_model_generator.py:27-35 | each block gets its own profile, computed from the distance between its top and bottom points |
| CrackModelGenerator.YZ | crack-generation/generators/crack_model_generator.py:80-81 | a side is triangulated in its (y, z) coordinates, point by point |
| CrackModelGenerator.NewModelVertices | crack-generation/generators/crack_model_generator.py:50-59 | the model keeps its parameters and has `ppl` vertices per row of the path, each coordinate column summing to zero |
| CrackModelGenerator.NewModelFaces | crack-generation/generators/crack_model_generator.py:61-76 | there are `(length - 1) * ppl` quads, quad `f` joining a point of a block to its successor (wrapping round) and to the same two points of the next block, all naming vertices of the net |
| CrackModelGenerator.NewModelSides | crack-generation/generators/crack_model_generator.py:78-82 | when the triangulation names only points of its input, the first side's triangles name vertices of the first block and the second side's vertices of the last block |
| CrackModelGenerator.NewModelOf | crack-generation/generators/crack_model_generator.py:56-84 | the centred net and the quads assemble into the model specification |
| CrackModelGenerator.BuildModel | crack-generation/generators/crack_model_generator.py:56-84 | the in-place control points, centring and face loops give exactly the model specification |
| CrackModelGenerator.Generate | crack-generation/generators/crack_model_generator.py:50-84 | fails exactly on a path without rows or a depth resolution below -1; otherwise returns the model specification |
| ObjFileExporter.ObjFile.Truncate | src/crack_generation/util/obj_file_exporter.py:22 | opening for writing empties the file |
| ObjFileExporter.ObjFile.Append | src/crack_generation/util/obj_file_exporter.py:24 | a write adds exactly one record at the end |
| ObjFileExporter.VertexRecords | src/crack_generation/util/obj_file_exporter.py:19-24 | one `v` record per vertex, in order, each scaled |
| ObjFileExporter.QuadRecords | src/crack_generation/util/obj_file_exporter.py:15-26 | one four-index `f` record per quad, in order, indices made 1-based |
| ObjFileExporter.TriRecords | src/crack_generation/util/obj_file_exporter.py:16-28 | one three-index `f` record per side triangle, in order, indices made 1-based |
| ObjFileExporter.Records | src/crack_generation/util/obj_file_exporter.py:23-28 | an export holds one record per vertex, quad and triangle |
| ObjFileExporter.ReadAppend | src/crack_generation/util/obj_file_exporter.py:23-28 | reading a file back distributes over consecutive parts of it |
| ObjFileExporter.ReadVertexRecords | src/crack_generation/util/obj_file_exporter.py:23-24 | reading the `v` records gives back the scaled vertices and no faces |
| ObjFileExporter.ReadQuadRecords | src/crack_generation/util/obj_file_exporter.py:25-26 | reading the quad records gives back the quads and nothing else |
| ObjFileExporter.ReadTriRecords | src/crack_generation/util/obj_file_exporter.py:27-28 | reading the triangle records gives back the triangles and nothing else |
| ObjFileExporter.ReadRecords | src/crack_generation/util/obj_file_exporter.py:14-28 | reading an export gives back the quads and triangles as they were and the vertices multiplied by the scale |
| ObjFileExporter.FaceRecordsNameVertices | src/crack_generation/util/obj_file_exporter.py:15-28 | with faces naming existing vertices, the `v` records come first and every `f` record names a `v` record by its 1-based position |
| ObjFileExporter.Export | src/crack_generation/util/obj_file_exporter.py:21-32 | succeeds exactly when no IOError strikes before the last record; a failed open leaves the file untouched, a failed write leaves the records written before it, and success leaves all records in order |
| ObjFileExporter.ExportModel | src/crack_generation/util/obj_file_exporter.py:9-32 | the model's points are written at 1% of their size, with the outcome as in `Export` |
| ObjFileExporter.ExportCrack | src/crack_generation/operations/obj_file_exporter.py:9-28 | the crack mesh's vertices are written as they are, with the outcome as in `Export` |
| RenderCrack.StepSize | src/dataset_generation/render_crack.py:20 | the tile side is the floor of the image height over `num_patches` |
| RenderCrack.RenderCrack | src/dataset_generation/render_crack.py:35-55 | the count is the number of image files written; a label total below `min_active_pixels` writes nothing; a render not cut up is written whole once, under `crack-<iteration>.png`; a cut one yields at most `num_patches²` patches |
| RenderCrack.RenderWritesInDirectories | src/dataset_generation/render_crack.py:29-30 | every image lands in the image directory and every label in the label directory |
| RenderCrack.PatchWritesInDirectories | src/dataset_generation/render_crack.py:29-30 | every patch image and patch label lands in its directory |
| RenderCrack.RenderWritesDistinct | src/dataset_generation/render_crack.py:29-30 | no two writes of one render share an image file or a label file |
| RenderCrack.PatchWritesDistinct | src/dataset_generation/render_crack.py:29-30 | no two patches of one render share a file |
| Patches.GeneratePatches | src/dataset_generation/render_crack.py:10-32 | None exactly when `num_patches` is zero (the division raises); otherwise the count is the number of kept tiles of the `n` by `n` grid, scanned row by row, and the writes are their image and label tiles numbered consecutively from the first index |
| Patches.ScanRow | src/dataset_generation/render_crack.py:23-31 | one pass of the inner loop extends the kept tiles and the writes by the active tiles of that grid row |
| Patches.Visit | src/dataset_generation/render_crack.py:24-31 | a tile is written, and counted, exactly when its label sum exceeds the threshold |
| Patches.KeptInRow | src/dataset_generation/render_crack.py:23-31 | a grid row yields at most as many tiles as it has columns |
| Patches.KeptInRowSound | src/dataset_generation/render_crack.py:23-31 | every tile kept from a row is one of that row's tiles and is active |
| Patches.KeptInRowComplete | src/dataset_generation/render_crack.py:23-31 | every active tile of a row is kept |
| Patches.KeptSound | src/dataset_generation/render_crack.py:21-31 | every kept tile is a tile of the grid whose label sum exceeds the threshold |
| Patches.KeptComplete | src/dataset_generation/render_crack.py:21-31 | every tile of the grid whose label sum exceeds the threshold is kept |
| Patches.KeptCount | src/dataset_generation/render_crack.py:21-23 | an `n` by `n` grid yields at most `n²` patches |
| Patches.ActiveIn | src/dataset_generation/render_crack.py:27 | the scan's test is the label sum of the tile exceeding the threshold |
| Patches.WritesOf | src/dataset_generation/render_crack.py:29-31 | there is one write per kept tile |
| Patches.WritesOfAt | src/dataset_generation/render_crack.py:29-31 | the `j`-th write holds the `j`-th kept tile under number `idx + j` |
| Patches.WritesOfSnoc | src/dataset_generation/render_crack.py:29-31 | writing one more kept tile appends its pair under the next number |
| Patches.TimesIsProduct | src/dataset_generation/render_crack.py:22 | the tile bounds `row_idx * step_size` are the products they name |
| Patches.TimesMonotone | src/dataset_generation/render_crack.py:22-24 | tile bounds grow with the grid index |
| Patches.FloorTimes | src/dataset_generation/render_crack.py:20 | `n` tiles of side `rows // n` fit in `rows` |
| Patches.TileInside | src/dataset_generation/render_crack.py:20-24 | every tile of the grid lies inside the image and has side `rows // n` |
| Patches.CropSize | src/dataset_generation/render_crack.py:25 | a rectangle inside the picture crops to its own height and width |
| Patches.TileSquare | src/dataset_generation/render_crack.py:25-28 | on an image at least as wide as it is high, every tile crops to a full `step` by `step` square |
| Patches.CrackName | src/dataset_generation/render_crack.py:29 | the file name `crack-{k}.png` starts with `c`, so it never starts with a separator |
| Patches.CrackNameInDirectoryInjective | src/dataset_generation/render_crack.py:29-30 | two numbers give the same path in one directory only when they are equal |
| Patches.NumberedInInjective | src/dataset_generation/render_crack.py:29-30 | different numbers name different files of one directory |
| Patches.WritesDistinct | src/dataset_generation/render_crack.py:29-31 | writes under numbers that name different files go to different files |
| Patches.WritesCrossDistinct | src/dataset_generation/render_crack.py:29-31 | an image write and a label write under numbers that name different files go to different files |
| Patches.NumberedWritesDistinct | src/dataset_generation/render_crack.py:29-31 | no two patches of one call overwrite each other's image or label |
| Patches.NumberedWritesInDirectories | src/dataset_generation/render_crack.py:29-30 | every patch image lands in the image directory and every patch label in the label directory |
| PatchGenerator.AfterPrefix | src/dataset_generation/operations/generators/patch_generator.py:25 | `file_name[6:]` is what follows the first six characters, and empty for a name of six characters or fewer |
| PatchGenerator.StartIndexOfCrack | src/dataset_generation/operations/generators/patch_generator.py:25 | a render named `crack-{k}` numbers its patches from `k` |
| PatchGenerator.GenerateInDirectories | src/dataset_generation/operations/generators/patch_generator.py:14-42 | None exactly when the name does not end in an integer or `num_patches` is zero; otherwise the active tiles, at most `num_patches²`, are written back into the two directories numbered from the name's index |
| PatchGenerator.GenerateInPlace | src/dataset_generation/operations/patch_generator.py:12-34 | the same tiling with the threshold fixed at zero, written as `crack-{k}.png` and `crack-{k}-label.png`; None exactly on the two exceptions |
| PatchGenerator.KeptInPlaceIffPositive | src/dataset_generation/operations/patch_generator.py:4 | with the zero threshold a tile is kept exactly when its label sum is positive |
| PatchGenerator.ImageNameIsNoLabelName | src/dataset_generation/operations/patch_generator.py:31-32 | an image patch name is never a label patch name |
| PatchGenerator.CrackNameInjective | src/dataset_generation/operations/patch_generator.py:31 | different numbers give different image names |
| PatchGenerator.LabelNameInjective | src/dataset_generation/operations/patch_generator.py:32 | different numbers give different label names |
| PatchGenerator.NamesDiffer | src/dataset_generation/operations/patch_generator.py:31-32 | both names tell different numbers apart |
| PatchGenerator.InPlaceImagesAreNoLabels | src/dataset_generation/operations/patch_generator.py:31-33 | no image patch of one call overwrites one of its label patches |
| PatchGenerator.InPlaceWritesDistinct | src/dataset_generation/operations/patch_generator.py:31-33 | no two patches of one call share an image or a label file |
| RenderIteration.InterpolateInRange | src/dataset_generation/generate_render_iteration.py:63-70 | `min + r * (max - min)` for a draw from `[0, 1)` lies in `[min, max]`, below `max` when the range is not empty |
| RenderIteration.InterpolateTripleWithin | src/dataset_generation/generate_render_iteration.py:62-71 | every axis of an interpolated triple lies within its range |
| RenderIteration.SampleCamera | src/dataset_generation/generate_render_iteration.py:51-77 | the translation is the interpolation of draws 0 to 2; the rotation of draws 3 to 5 is negated about x exactly when it and the z translation are both negative, about z exactly when it and the x translation are both negative, and the camera then faces the crack |
| RenderIteration.SampleCameraRanges | src/dataset_generation/generate_render_iteration.py:53-71 | with ordered ranges the translation and the unflipped rotation lie within the configured ranges |
| RenderIteration.GenerateCrack | src/dataset_generation/generate_render_iteration.py:36-42 | the result is the first crack of the stream whose height sum reaches `min_pixels`, and None exactly when none does |
| SceneParameterGenerator.Choose | src/dataset_generation/operations/generators/scene_parameter_generator.py:45-47 | a choice is an element of its list, and None exactly on an empty list |
| SceneParameterGenerator.Generate | src/dataset_generation/operations/generators/scene_parameter_generator.py:12-50 | the three assets come from their lists (None exactly when one is empty); the translation is drawn from the configured range, the rotation keeps its drawn y and flips x exactly when the drawn x and the translation's z are both negative, and z exactly when the drawn z and the translation's x are both negative, so the camera faces the crack |
| SceneParameterGenerator.PlaceCamera | src/dataset_generation/operations/scene_parameter_generator.py:28-50 | the rotation is the fixed-range interpolation of draws 0 and 2; each translation is negated exactly when it and the rotation about its axis are both negative, and afterwards no axis points away from the crack |
| SceneParameterGenerator.GenerateWithMaterials | src/dataset_generation/operations/scene_parameter_generator.py:20-60 | the four materials come from their lists (None exactly when one is empty), the file name is passed through, the rotation is the drawn one, and the translation keeps its drawn y and negates x (z) exactly when the rotation and the drawn translation along x (z) are both negative, so the camera faces the crack |
| SceneParameterGenerator.SecondFlipNeverFires | src/dataset_generation/operations/scene_parameter_generator.py:35 | the rotation about y is zero, so the y translation is never flipped |
| SceneParameterGenerator.PlacementRanges | src/dataset_generation/operations/scene_parameter_generator.py:5-12 | the angles lie in `[-pi/16, pi/16)`, and the translation in `[-0.2, 0.2)` along x and z and `[-1.0, -0.5)` along y |
| SceneParameterGenerator.PlacedBelow | src/dataset_generation/operations/scene_parameter_generator.py:39-48 | the camera stays in `[-1.0, -0.5)` along y after the flips |
| Parameters.LoadCrackParameters | src/dataset_generation/load_functions/parameters.py:13-19 | each of the three sections becomes its own part of the crack parameters |
| Parameters.LoadCrackParametersInjective | src/dataset_generation/load_functions/parameters.py:13-19 | nothing of the crack section is lost: different sections load into different parameters |
| Parameters.LoadCameraParameters | src/dataset_generation/load_functions/parameters.py:22-33 | the `i`-th entries of the minimum and maximum tuples give back the configured range of axis `i`, for rotation and for translation |
| Parameters.BaseOutputDirectory | src/dataset_generation/load_functions/parameters.py:39-40 | the base directory ends with the output directory, and is absolute when the working directory is |
| Parameters.BaseOutputDirectoryVerbatim | src/dataset_generation/load_functions/parameters.py:39-40 | the output directory is used verbatim exactly when it is absolute |
| Parameters.LabelDirectories | src/dataset_generation/load_functions/parameters.py:36-51 | the images and labels directories lie inside the base directory and end in `images` and `labels` |
| Parameters.LoadLabelParameters | src/dataset_generation/load_functions/parameters.py:36-51 | the patch count and the four thresholds are copied from the label section, the base directory is the output directory made absolute against the working directory, and the images and labels directories are `images` and `labels` joined to the base directory |
| Parameters.OutputDirectoriesDiffer | src/dataset_generation/load_functions/parameters.py:49-50 | images and labels never land in the same directory |
| Text.ParseIntToString | src/dataset_generation/operations/generators/patch_generator.py:25 | `int(str(k)) == k` |
| Text.ParseIntAccepts | src/dataset_generation/operations/generators/patch_generator.py:25 | the model of `int` accepts exactly an optional sign followed by at least one ASCII digit (see Left out for what Python's `int` accepts beyond that) |
| Text.IntToStringInjective | src/dataset_generation/render_crack.py:29 | different integers print differently |
| Text.Join | src/dataset_generation/render_crack.py:29 | `os.path.join`: an absolute second part replaces the first; otherwise the result starts with the first part, followed by the second with at most one separator between |
| Text.JoinInjective | src/dataset_generation/render_crack.py:29-30 | joining relative names onto one directory keeps them apart |
| Numeric.Rint | src/crack_generation/path_functions/pivot_point.py:48 | `np.rint` lands within half a unit of its argument, and on a tie on the even neighbour |
| Numeric.RintNeg | src/crack_generation/path_functions/point.py:9 | half-to-even rounding is symmetric about zero |
| Numeric.Trunc | src/crack_generation/operations/crack_point_chooser.py:34 | `astype(int)` truncates toward zero: the result lies within one unit of its argument on the side of zero |
| Numeric.Reversed | src/crack_generation/path_functions/postprocess.py:78 | `np.flip(s, 0)` holds the same entries in reverse order |
| Numeric.CenteredSumIsZero | src/crack_generation/crack_generator_old.py:68-69 | subtracting the mean from a column leaves a column that sums to zero |
| Geometry.Normalised | src/crack_generation/path_functions/path.py:42 | a vector of non-zero norm is divided by its norm (each component times the norm gives back the vector); a zero-norm vector is returned unchanged (see Left out) |

## Left out

- Floating point:
  - Coordinates, angles and draws are exact reals.
  - No claim is made about float rounding.
  - The `int32` casts never overflow on the grid sizes involved, so they are plain integers.
- Transcendental functions: `cos`, `sin`, `atan2` and `sqrt` are inputs (`Geometry.Trig`). Only their ranges are assumed, never their values.
- Gaussian profile: `centered_gaussian` uses `exp`, so it is the parameter `gaussian` (`CrackMesh`) or `blockProfile` (`CrackModelGenerator`).
  - In `crack-generation/generators/crack_model_generator.py:12` it subtracts `exp(+x²/2v²)` instead of multiplying by `exp(-x²/2v²)`.
  - Because it is a parameter, this model says nothing about that formula.
- SciPy, OpenCV and skimage code becomes parameters or given sequences:
  - Gaussian path smoothing;
  - the height map built from the path;
  - Delaunay side faces;
  - `skimage.draw.line` cells.
- `move_to_nearest_mortar` (imported by `path_functions/pivot_point.py`) is not part of this model; it is the parameter `moveToNearestMortar`.
- Mismatched call arities, where the callee is a parameter:
  - `path_functions/trajectory.py:22-27` calls `generate_pivot_point` with four of its five arguments.
  - `crack_trajectory_generator.py:90-96` calls a four-argument generator with five.
  - `path_functions/path.py:5` imports an `in_object` that `collision.py` does not define.
  - In each case the callee is a function parameter (`nextPivot`, `inObject`).
- Randomness: every `np.random` and `random` draw is an input with its stated range, except inside `generate_pivot_point`, whose draws are folded into the generator parameter `nextPivot`, indexed by the call. Retry loops and walks are bounded by the draws supplied or by `fuel`.
  - Running out gives `None` or a failure flag.
  - Nothing proves that the source's unbounded loops end.
- `RenderIteration.GenerateCrack`: the `signal.alarm` timeout is not modelled.
  - The generator's cracks are a finite input stream; exhausting it stands for the timeout.
- `generate_render_iteration`:
  - The scene, surface and world-texture choices (`generate_render_iteration.py:79-88`) are not modelled beyond `SceneParameterGenerator.Choose`, which models the same draw.
  - The construction of the `RenderIteration` record is not modelled.
- File I/O and rendering:
  - Image and OBJ writes are logs of records, and `cv2.imread` results are inputs.
  - The Blender render in `render_crack` is left out.
  - The `%.4f` text formatting of OBJ vertices is left out: a `v` record holds the coordinates.
- `CrackTrajectoryGenerator.Generate`: the start is shifted in place at `crack_trajectory_generator.py:112-113`. The model omits this.
  - The shift happens after the start was copied into the pivot array.
  - It changes nothing that is returned.
- `CrackTrajectoryGenerator.Generate`: when no pivot is accepted, the initial angle reads row 1 of an `np.empty` array. The model names that garbage value `uninitialised` rather than modelling memory contents.
- `CrackPointChooser.Choose`: the width comes from `CrackTrajectoryGenerator.DetermineWidth`. `crack_point_chooser.py:9-22` is the same code as `crack_trajectory_generator.py:16-29`.
- `PathPoint` and `Postprocess`: `point.center` is updated in place through a shared list. The model returns the new points; aliasing between list entries is not modelled.
- Blender scene work, loaders, compositors, label thresholders, playgrounds, CLI and batch scripts and YAML reading are not part of this model.
- Geometry.Normalised: a vector of norm zero is returned unchanged. NumPy divides by zero there (`path_functions/path.py:42`, `crack_path_generator.py:65`), giving NaN components that `astype(int32)` turns into an arbitrary integer. NaN is not represented.
- Text.ParseInt: accepts only an optional sign followed by ASCII digits. Python's `int` also accepts surrounding whitespace, `_` between digits and non-ASCII decimal digits; such strings give None here.
- The dataclass-only model files are record types (`CrackModel`, `Parameters`) with no behaviour of their own.

## Findings

| source | as written | input that shows it | evidently intended | confidence | as-written member | corrected member |
|---|---|---|---|---|---|---|
| src/crack_generation/crack_path_generator.py:111-115 | the taper passes the angle of the side vector `top - bot` to `determine_width_points`, which places the side points perpendicular to the angle it gets, so every tapered row is turned by a quarter turn | a vertical row from (0, 0) to (0, 2) with no reduction comes out as (-1, 1), (1, 1) | each tapered row keeps the direction of its sides and only narrows (the angle less a quarter turn) | not executed | CrackPathGenerator.AsWrittenTaperTurnsSides | CrackPathGenerator.TaperRowKeepsSides |
| src/crack_generation/operations/crack_point_chooser.py:33-34 | each `move_to_mortar` step adds `astype(int)` of the unit direction, which truncates to zero unless the direction is axis-aligned | a brick cell whose gradient angle is not a multiple of pi/2 | each step moves to a neighbouring cell along the gradient | not executed | CrackPointChooser.MoveToMortarAsWrittenStalls | CrackPointChooser.StepMoves |
| src/crack_generation/crack_trajectory_generator.py:45-46 | the left-to-right search box ends its columns at `0.2 * num_rows` instead of `0.2 * num_columns` | any non-square map: the left-to-right and right-to-left boxes are not mirror images | both boxes span the outer fifth of the columns, mirrored | not executed | CrackTrajectoryGenerator.SearchBoxAsWrittenMirrorsOnlySquares | CrackTrajectoryGenerator.StartSearchBoxesMirror |
| src/dataset_generation/models/bounding_box.py:30-34 | the combined maximum corner is the componentwise `min` of both maximum corners | the unit cube combined with the cube of side 2 loses the corner (2, 2, 2) | the componentwise `max`, a box holding both | not executed | BoundingBox.CombineAsWrittenDropsPoint | BoundingBox.CombineContainsBoth |
