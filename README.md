# Crop-circle phased-array engine, modelled in Dafny

This project models the computational core of the crop-circle mathematics site: the
Milk Hill ring geometry, the phased-array engine built on it and the geometry viewer's circle
sizing.

- **Ring geometry.** Two generators turn a list of ring specifications into an ordered list of
  points. A ring of count 1 is one point at the origin. Any other ring gives `count` points at
  angles `2*pi*i/count` on its circle. The simulator's generator (`generateArrayElements`) emits
  unit-amplitude, zero-phase radiating elements. The viewer's generator (`generateMilkHillData`)
  numbers its circles in push order and then scatters random circles until there are 409.
- **Array-factor evaluator.** `calculateArrayFactor` accumulates `amplitude*cos(totalPhase)` and
  `amplitude*sin(totalPhase)` over the elements and returns the modulus of the resulting sum.
- **Polar sweep.** The array factor is sampled every 2 degrees, normalised by the element count
  and placed around the centre of a 400 x 400 plot of radius 180.
- **Heat map.** The array factor is sampled on a 40 x 40 (theta, phi) grid and flattened row by
  row. Its maximum becomes the top of the colour domain `[0, max]`. Flat cell `k` is drawn at
  column `k % 40`, row `k / 40` of a 400 x 300 picture.
- **Circle sizing.** The viewer computes a minimum radius from the drawing area. A circle's drawn
  radius depends on the view mode and is capped at four times that minimum. The centre-point
  indicator is drawn at 1.5 times the minimum.

The modules, in dependency order:

- `RealMath` holds the real-number library the code calls (sine, cosine, square root, pi),
  together with the algebraic laws the proofs use.
- `ArrayGeometry` is the simulator's element generator.
- `Evaluator` is the array-factor evaluator.
- `PolarPattern` is the polar sweep.
- `Heatmap` is the heat-map grid, flattening, maximum and cell placement.
- `MilkHill` is the viewer's circle generator.
- `CircleSizing` is the viewer's radius clamp.

Each loop of the source is a method, proved against a specification function:

| method | specification function |
|---|---|
| `GenerateArrayElements` | `Layout` |
| `CalculateArrayFactor` | `ArrayFactor` |
| `PolarSweep` | `PolarPoint` |
| `SampleGrid` | `Sample` |
| `GenerateMilkHillData` | `MilkHill.Layout` |

The lemmas state what those functions promise: counts, order, ids, bounds and the placement of
cells.

The trigonometric functions, the square root and pi are the fields of a `MathLib` value passed
to every operation. `RealMath.Valid` collects the only facts assumed of them:

- `sqrt(x) >= 0` and `sqrt(x)^2 == x` for `x >= 0`;
- `sin 0 = 0` and `cos 0 = 1`;
- `sin^2 t + cos^2 t = 1`.

`Math.random` is a stream `random: nat -> real`, whose value at n is the result of the n-th call.
A scattered circle uses three consecutive draws: first the angle, then the distance, then the
size. `Math.max` of an empty list (negative infinity) is the `NegInfinity` case of `Extended`.

All paths below are relative to the repository root.

## Model

| member | source | states |
|---|---|---|
| ArrayGeometry.GenerateArrayElements | src/components/PhasedArraySimulator.tsx:23-49 | The elements pushed ring by ring are exactly `Layout(rings)`: the origin element for a ring of count 1, otherwise the ring's spokes in index order |
| ArrayGeometry.Spokes | src/components/PhasedArraySimulator.tsx:39-44 | A ring of count n > 1 yields n elements; element i lies at `(r cos(2*pi*i/n), r sin(2*pi*i/n))` with amplitude 1 and phase 0 |
| ArrayGeometry.RingElements | src/components/PhasedArraySimulator.tsx:36-45 | A ring contributes one element for count 1, count elements for a larger count and none for a count below 1 |
| ArrayGeometry.LayoutStep | src/components/PhasedArraySimulator.tsx:35-46 | Loop-proof step: one more ring turn appends that ring's elements after the earlier ones (the defining equation of `Layout` on a prefix) |
| ArrayGeometry.LayoutLength | src/components/PhasedArraySimulator.tsx:27-46 | The number of elements is the sum of the rings' sizes |
| ArrayGeometry.SimulatorElementCount | src/components/PhasedArraySimulator.tsx:27-46 | The simulator's five rings give 1 + 6 + 12 + 18 + 24 = 61 elements |
| ArrayGeometry.LayoutPrefix | src/components/PhasedArraySimulator.tsx:35-46 | The elements of earlier rings form a prefix of the output: rings are emitted in order |
| ArrayGeometry.LayoutAt | src/components/PhasedArraySimulator.tsx:36-44 | Element i of ring r sits right after the earlier rings' elements and is the origin or the i-th spoke of that ring |
| ArrayGeometry.UnitWeights | src/components/PhasedArraySimulator.tsx:37-43 | Every generated element has amplitude 1 and phase 0 |
| Evaluator.CalculateArrayFactor | src/components/PhasedArraySimulator.tsx:54-72 | The loop keeps the accumulators equal to the sums over the elements processed so far; the result is the modulus `sqrt(sumReal^2 + sumImag^2)` of the full sums |
| Evaluator.ArrayFactorNonNegative | src/components/PhasedArraySimulator.tsx:71 | The array factor is never negative |
| Evaluator.EmptyArrayFactor | src/components/PhasedArraySimulator.tsx:56-71 | Over no elements both sums stay 0 and the array factor is 0 |
| Evaluator.SumsSplit | src/components/PhasedArraySimulator.tsx:59-69 | The accumulated sums over a concatenation are the sums over the parts |
| Evaluator.SwapBlocks | src/components/PhasedArraySimulator.tsx:59-71 | Exchanging two blocks of elements leaves the array factor unchanged |
| Evaluator.SumsPermutation | src/components/PhasedArraySimulator.tsx:59-69 | Any rearrangement of the elements (same multiset) accumulates the same two sums: the order of summation does not matter |
| Evaluator.PermutedArrayFactor | src/components/PhasedArraySimulator.tsx:59-71 | Any rearrangement of the elements gives the same array factor |
| Evaluator.SilentSums | src/components/PhasedArraySimulator.tsx:67-68 | If every amplitude is 0 both sums are 0 |
| Evaluator.SilentArrayFactor | src/components/PhasedArraySimulator.tsx:67-71 | If every amplitude is 0 the array factor is 0 in every direction |
| Evaluator.InPhaseSums | src/components/PhasedArraySimulator.tsx:55-69 | At frequency 0, unit-amplitude zero-phase elements sum to (N, 0) |
| Evaluator.OmnidirectionalAtZeroFrequency | src/components/PhasedArraySimulator.tsx:55-71 | At frequency 0 the array factor of N unit-weight elements is N in every direction |
| PolarPattern.PolarSweep | src/components/PhasedArraySimulator.tsx:121-130 | The sweep yields exactly 180 points, and point a belongs to the angle 2a degrees at phi 0 |
| PolarPattern.PolarPointOnRay | src/components/PhasedArraySimulator.tsx:123-128 | Each point lies at distance d >= 0 from the centre (200, 200), where d = `AF(theta)/N * 180` (stated on squares) |
| PolarPattern.FullCircleAtZeroFrequency | src/components/PhasedArraySimulator.tsx:124-125 | At frequency 0 with unit weights every normalised gain equals the plot radius 180 |
| Heatmap.SampleGrid | src/components/PhasedArraySimulator.tsx:171-184 | The grid has 40 rows of 40 entries, and entry (i, j) is `AF(i/40*pi, j/40*2*pi)` |
| Heatmap.FlattenAt | src/components/PhasedArraySimulator.tsx:186 | Flattening rows of width w gives rows*w entries, with entry (i, j) at index `i*w + j` |
| Heatmap.FlattenLength | src/components/PhasedArraySimulator.tsx:186 | Flattening rows of width w gives rows*w entries |
| Heatmap.FlattenFrom | src/components/PhasedArraySimulator.tsx:186 | Every flattened entry comes from some row |
| Heatmap.MaxOf | src/components/PhasedArraySimulator.tsx:187 | `Math.max` of the spread list is negative infinity exactly for the empty list; otherwise it bounds every entry and equals one of them |
| Heatmap.RenderHeatmap | src/components/PhasedArraySimulator.tsx:171-203 | 1600 flat samples with (i, j) at `i*40 + j`; colour domain `[0, max]`, where max bounds every sample and is attained; one cell per sample, cell k at column `k % 40` and row `k / 40` |
| Heatmap.GridPlacement | src/components/PhasedArraySimulator.tsx:200-201 | Grid cell (i, j), flattened to `i*40 + j`, is drawn at column j and row i |
| Heatmap.CellInside | src/components/PhasedArraySimulator.tsx:192-203 | Each of the 1600 cells lies inside the 400 x 300 picture |
| Heatmap.CellsDisjoint | src/components/PhasedArraySimulator.tsx:192-203 | Two distinct cells never overlap |
| Heatmap.ZeroFieldDomain | src/components/PhasedArraySimulator.tsx:187-189 | An all-zero field gives the colour domain `[0, 0]` |
| Heatmap.SilentArrayDomain | src/components/PhasedArraySimulator.tsx:175-189 | A silent array (every amplitude 0) yields the colour domain `[0, 0]` |
| MilkHill.GenerateMilkHillData | src/components/GeometryViewer.tsx:10-55 | The generated circles are exactly `Layout(rings, random)`: the ring phase followed by the scatter phase |
| MilkHill.PushRings | src/components/GeometryViewer.tsx:23-37 | The ring loop produces the ring phase, with ids counting up from 0 in push order |
| MilkHill.PushRing | src/components/GeometryViewer.tsx:24-36 | One ring appends its circles, with ids continuing from the number of circles already pushed |
| MilkHill.PushScatter | src/components/GeometryViewer.tsx:39-52 | The scatter loop appends `ScatterCount` circles; circle i is drawn from random values 3i, 3i+1, 3i+2 and gets the next id |
| MilkHill.Spokes | src/components/GeometryViewer.tsx:29-35 | A ring of count n > 1 yields n circles; circle i lies at angle `2*pi*i/n` on the ring's circle, has the ring's circle size as radius and the next id |
| MilkHill.RingCircles | src/components/GeometryViewer.tsx:24-36 | A ring contributes one circle for count 1, count circles for a larger count and none for a count below 1 |
| MilkHill.Scatter | src/components/GeometryViewer.tsx:40-52 | n scatter circles, circle i drawn from random values 3i, 3i+1, 3i+2 with id `firstId + i` |
| MilkHill.RingPhaseStep | src/components/GeometryViewer.tsx:24-37 | Loop-proof step: one more ring turn appends that ring's circles, numbered after the earlier ones (the defining equation of `RingPhase` on a prefix) |
| MilkHill.RingPhaseLength | src/components/GeometryViewer.tsx:24-37 | The ring phase holds as many circles as the rings' sizes add up to |
| MilkHill.LayoutLength | src/components/GeometryViewer.tsx:39-41 | The layout holds max(409, number of ring circles) circles |
| MilkHill.RingPhaseIds | src/components/GeometryViewer.tsx:23-37 | Ring-phase circle k has id k |
| MilkHill.LayoutIds | src/components/GeometryViewer.tsx:23-52 | Every circle's id is its index, so all ids are distinct |
| MilkHill.RingPhaseAt | src/components/GeometryViewer.tsx:14-37 | Circle i of ring r sits right after the earlier rings' circles; it is the centre circle or at angle `2*pi*i/count`, and its radius is the ring's circle size |
| MilkHill.ViewerCounts | src/components/GeometryViewer.tsx:14-41 | The viewer's rings give 1 + 6 + 12 + 18 + 24 + 30 = 91 circles; 318 are scattered and 409 drawn |
| MilkHill.FirstCircle | src/components/GeometryViewer.tsx:14-27 | The first circle is the centre circle: at (0, 0), radius 20, id 0 |
| MilkHill.ScatterAt | src/components/GeometryViewer.tsx:40-50 | Scatter circle i follows the ring circles and uses random values 3i, 3i+1 and 3i+2 |
| MilkHill.ScatterCircleBounds | src/components/GeometryViewer.tsx:42-49 | With draws in [0, 1) a scattered circle's centre is at distance in [300, 500) from the origin (stated on squares) and its radius is in [4, 12) |
| MilkHill.ScatterBounds | src/components/GeometryViewer.tsx:40-52 | With every draw in [0, 1) each circle of the scatter phase lies in that band |
| CircleSizing.MinRadius | src/components/GeometryViewer.tsx:141 | The minimum radius is at least 2 and at least the shorter side / 200, and equals one of them |
| CircleSizing.DrawnRadius | src/components/GeometryViewer.tsx:150-153 | The drawn radius is at most 4 * minRadius; outside artistic mode it is at least minRadius; in artistic mode it never exceeds the model radius |
| CircleSizing.IndicatorRadius | src/components/GeometryViewer.tsx:181-185 | The centre indicator's radius (1.5 * minRadius) is at least 3, above minRadius and below the cap 4 * minRadius |
| CircleSizing.VisibleOutsideArtistic | src/components/GeometryViewer.tsx:141-153 | Outside artistic mode every circle is drawn with radius at least 2 |
| CircleSizing.UnclampedRadius | src/components/GeometryViewer.tsx:150-153 | Within the clamp's range the model radius is kept: unchanged in artistic mode, times 0.6 otherwise |
| CircleSizing.ClampedRadius | src/components/GeometryViewer.tsx:150-153 | A base radius at or above the cap is drawn at 4 * minRadius; outside artistic mode a scaled radius at or below the minimum is drawn at minRadius |
| CircleSizing.DrawnRadiusMonotone | src/components/GeometryViewer.tsx:150-153 | A larger model radius is never drawn smaller |
| CircleSizing.SmallScreenCentre | src/components/GeometryViewer.tsx:141-153 | When the shorter side is at most 400 the minimum is 2, and the centre circle (radius 20) is drawn at 8 in every mode |

## Left out

- Floating point: the model computes over the reals. Rounding, `NaN` and `Infinity` are not modelled. The values of sine, cosine, square root and pi are not computed; only the laws in `RealMath.Valid` are assumed.
- React state, hooks and effect re-runs are not modelled. Frequency and steering angle are explicit parameters (`Params`), and each effect is a method over them.
- d3 drawing is not modelled: the SVG elements, the closed line curve, the grid lines, labels and axes, zoom, and the viridis colour values. Only the numbers handed to d3 are modelled: the points, the colour domain `[0, max]` and the cell rectangles.
- The viewer's resize handling and container measurement are DOM input. Width and height enter the circle sizing as parameters.
- The photo overlay, the click selection of a circle and the colour per view mode are presentation only and are not modelled.
- ArrayGeometry.GenerateArrayElements: the source iterates its own fixed ring list. The model takes the ring list as a parameter, and `SimulatorRings` is that list. The same holds for MilkHill.GenerateMilkHillData and `ViewerRings`.
- MilkHill.GenerateMilkHillData: `Math.random` is replaced by the stream `random`. Its bounds in [0, 1) are a precondition only where a bound is proved (`ScatterBounds`).
- MilkHill.GenerateMilkHillData is split into `PushRings`, `PushRing` and `PushScatter`, which follow the source's outer ring loop, inner spoke loop and scatter loop. The running `id` counter equals the number of circles pushed so far.
- PolarPattern.PolarSweep requires a non-empty element list. For zero elements the source divides 0 by 0 and draws `NaN` points, and `NaN` is outside the model. The simulator always has 61 elements.
- Heatmap.RenderHeatmap: the colour domain is `[0, max]` with no guard for a zero maximum, exactly as in the code. No flat colour is chosen for an all-zero field, and `ZeroFieldDomain` shows that the domain collapses to `[0, 0]` there.
- Malformed rings are not rejected. A ring with a count of 0 or less contributes no points, as the code's loop does, and negative radii or sizes are accepted. The code has no validation error.
- The heat-map resolution is the fixed 40 of the code, not scaled with the viewport.
- Non-finite samples are not filtered before the maximum is taken, because the code does not filter them.
- The frequency and steering-angle slider ranges bound user input only. The model puts no bound on them.
