# Planet placement engine, modelled in Dafny

The planet scene in `src/main.js` decorates a sphere of radius 250. Its
placement engine does four things:

- A hash-style `noise(x, y)` returns the fractional part of a scaled sine.
- `getSphericalPosition(lat, lon, radius)` maps normalised coordinates
  onto the sphere.
- Two scatter loops place decorations:
  - Grass streaks are laid over a 20 x 35 latitude/longitude grid. A
    circular pond zone is kept clear and a two-noise mask thresholds the
    rest. Each kept cell is jittered and re-checked against the pond.
  - Wheat stalks are placed 25 at a time around each of ten cluster
    centres, with no rejection step.
- The pond mesh is bent in place. Every vertex's Y is lowered by a
  paraboloid centred on the mesh, so the flat pond follows the curve of
  the planet.

This project models each of these. Each scatter is parameterised by its
configuration, and the planet's constants are one instance of it
(`SourceGrass`, `SourceWheat`, `SourceBendStrength`).

Module layout:

- `HostMath` (host_math.dfy): what the engine takes from its host. `Math.sin`
  and `Math.cos` and three.js' "normalise, then rotate the up axis onto it"
  are function values of a `Library` record passed in by the caller.
  `Math.PI` is the constant 3.141592653589793.
- `NoiseMask` (noise.dfy): `Frac` and `Noise`.
- `Sphere` (sphere.dfy): the spherical projection, and the `Placement`
  each scatter emits. A placement records:
  - the surface coordinate it was projected from
  - its position
  - its orientation
  - its scale
- `Exclusion` (exclusion.dfy): the pond exclusion zone. The source tests
  `sqrt(d2) < r`. The model compares squares, and a lemma shows the two
  agree for every radius.
- `Variation` (variation.dfy): the centred jitter `(n - 0.5) * m` and the
  scale `min + n * range` shared by both scatters.
- `Grid` (grid.dfy): the row-major order and the filtering of a nested grid
  loop, independent of what is kept.
- `GrassScatter` (grass.dfy): the grass loop, as an imperative method
  proved against `KeptCells` and `GrassAt`.
- `Blocks` (blocks.dfy): sequences built block by block. Member i of block
  c lands at c * k + i.
- `WheatScatter` (wheat.dfy): the wheat loops, as imperative methods proved
  against `AllWheat`.
- `PondBend` (pond.dfy): the bend loop, as an in-place update of the
  position buffer in its packed xyz layout (`array<real>`, three entries per vertex),
  proved against `Bent`.

Where the scene appends a clone to the planet group, each scatter appends
a `Placement` to the sequence it returns.

## Model

| member | source | states |
|---|---|---|
| `NoiseMask.Frac` | src/main.js:96 | `n - floor(n)` lies in [0, 1) and differs from n by an integer |
| `NoiseMask.Noise` | src/main.js:94-97 | noise is in [0, 1) whatever the sine returns |
| `Sphere.SphericalPosition` | src/main.js:100-108 | `getSphericalPosition` term for term, with `Math.sin`/`Math.cos` from the host library; its contract states the point lies in the vertical plane through the Y axis at azimuth phi, (x, z) parallel to (cos phi, sin phi); which side of the axis is `Sphere.AlongAzimuth`, and its distance and pole properties are carried by `Sphere.OnSphere` and the two pole lemmas |
| `Sphere.AlongAzimuth` | src/main.js:101-106 | where sin^2 + cos^2 = 1 holds at phi, the point's signed horizontal distance along azimuth phi is `radius * sin(theta)`, so a negative sine puts it at azimuth phi + PI |
| `Sphere.ThetaInHalfTurnIffMidLatitude` | src/main.js:102 | theta lies in [0, PI] exactly when -0.5 <= lat <= 0.5; outside that range the projection passes over a pole |
| `Sphere.OnSphere` | src/main.js:100-108 | where sin^2 + cos^2 = 1 holds at theta and phi, the projected point is at distance `radius` from the origin |
| `Sphere.PoleAtHalfLatitude` | src/main.js:101-106 | lat = 0.5 (theta = 0) maps to the pole (0, radius, 0) for every longitude |
| `Sphere.SouthPoleAtMinusHalfLatitude` | src/main.js:101-106 | lat = -0.5 (theta = PI) maps to the other pole (0, -radius, 0) for every longitude |
| `Exclusion.Excluded` | src/main.js:152-153 | the pond test `distToPond < pondExclusionRadius` (also at src/main.js:173-174), with `sqrt` replaced by a comparison of squares; its contract states only a zone of positive radius excludes anything; `Exclusion.ExcludedIffDistanceBelowRadius` shows it agrees with the `sqrt` test, `Exclusion.RimIsKept` that the rim is kept |
| `Exclusion.CentreExcludedIffPositiveRadius` | src/main.js:152-155 | the pond's own centre is excluded exactly when the exclusion radius is positive |
| `Exclusion.ExcludedIffDistanceBelowRadius` | src/main.js:152-153 | the squared comparison excludes a point exactly when `sqrt` of the squared distance is below the radius |
| `Exclusion.RimIsKept` | src/main.js:153 | exclusion is strict: a point exactly on the rim is not excluded |
| `GrassScatter.GridCoord` | src/main.js:148-149 | for 0 <= k < n, `(k / n) * 2 - 1` lies in [-1, 1) |
| `GrassScatter.Streak` | src/main.js:158-162 | the streak value `0.6 * v1 + 0.4 * v2` lies in [0, 1) |
| `GrassScatter.Scatter` | src/main.js:145-192 | the loop emits, in order, one placement per kept cell: entry k is `GrassAt` of the k-th kept cell, and there are exactly as many entries as kept cells |
| `GrassScatter.KeptCellsExactly` | src/main.js:145-174 | kept cells are exactly the grid cells whose grid point is outside the pond zone, whose streak value exceeds the threshold and whose jittered point is outside the pond zone; they are strictly row-major (i outer, j inner) and at most latSegments x lonSegments |
| `GrassScatter.SourceGrassAtMost700` | src/main.js:134-135 | with the 20 x 35 grid, at most 700 grass instances |
| `GrassScatter.GrassJitterBound` | src/main.js:169-170 | each jittered coordinate differs from its grid coordinate by an amount in [-jitter/2, jitter/2) |
| `GrassScatter.GrassScaleBound` | src/main.js:186 | each grass scale lies in [scaleMin, scaleMin + scaleRange) |
| `GrassScatter.SourceGrassBounds` | src/main.js:169-186 | with the planet's constants the jitter lies in [-0.075, 0.075) per coordinate and the scale in [0.2, 0.4) |
| `WheatScatter.Scatter` | src/main.js:220-253 | the forEach over clusters returns exactly `AllWheat`: each cluster's block of instances, in list order |
| `WheatScatter.PlantCluster` | src/main.js:221-252 | the inner loop for cluster c returns its `count` placements, instance i being `WheatAt(c, i)` |
| `WheatScatter.AllWheatLength` | src/main.js:220-221 | the scatter emits exactly clusters x count placements, with no rejection |
| `WheatScatter.AllWheatAt` | src/main.js:220-251 | instance i of cluster c is at position c * count + i, so cluster-list order comes first and then instance order |
| `WheatScatter.WheatNearCentre` | src/main.js:225-228 | each instance's lat and lon differ from its cluster centre's by an amount in [-spread/2, spread/2) |
| `WheatScatter.WheatScaleBound` | src/main.js:239 | each wheat scale lies in [scaleMin, scaleMin + scaleRange) |
| `WheatScatter.SourceWheatBounds` | src/main.js:202-239 | with the planet's constants: 250 placements, offsets in [-0.025, 0.025) and scales in [0.8, 1.2) |
| `PondBend.BendVertices` | src/main.js:292-302 | afterwards the buffer is exactly `Bent` of what it held before |
| `PondBend.BentVertex` | src/main.js:293-301 | a whole vertex's new Y is its old Y less `(dx^2 + dz^2) * bendStrength`, measured from the centre |
| `PondBend.BentKeepsXZ` | src/main.js:292-302 | no X or Z entry of any vertex changes |
| `PondBend.BentKeepsTail` | src/main.js:292-302 | entries past the last whole vertex are unchanged |
| `PondBend.SagNonNegative` | src/main.js:297-301 | the drop is never negative for a non-negative strength |
| `PondBend.BentNeverRises` | src/main.js:292-302 | with a non-negative strength no entry of the buffer rises |
| `PondBend.SourcePondNeverRises` | src/main.js:267 | with bendStrength = 0.003 no entry of the buffer rises |
| `PondBend.CentreVertexStays` | src/main.js:297-301 | a vertex at the centre's X and Z keeps its Y |
| `PondBend.SagGrowsWithDistance` | src/main.js:297-301 | a vertex farther from the centre (horizontally) drops at least as far |
| `PondBend.UnbendBent` | src/main.js:292-302 | the bend loses nothing: adding each vertex's sag back gives the original buffer |
| `PondBend.BentTwice` | src/main.js:283-302 | bending the same buffer twice about the same centre equals one bend with the summed strength |
| `PondBend.BentN` | src/main.js:283-302 | the buffer after k passes of the bend, as a geometry shared by k meshes of the traversal receives; it keeps the buffer's length |
| `PondBend.BentNIsOneBend` | src/main.js:283-302 | k passes of the bend with one strength and centre equal a single bend with k times the strength |
| `PondBend.SagSplits` | src/main.js:301 | the drop `dist * dist * bendStrength` is linear in the strength |
| `PondBend.ZeroStrengthIsIdentity` | src/main.js:301 | a zero strength leaves the buffer unchanged |

## Left out

- Renderer, scene, camera, lights, textures, materials and the render loop. These are three.js set-up with nothing to prove.
- GLTF loading and the ordering of its asynchronous callbacks. Each scatter is a method that returns its placements instead of cloning meshes into the planet group.
- The one-off duck, cow, barn and pond positions. Each is a single projection with constant offsets.
- `Math.sin`, `Math.cos`, vector normalisation and `quaternion.setFromUnitVectors`. These are host functions, taken as the `Library` parameter. No concrete positions, orientations or noise values are claimed. Facts about sine and cosine enter only as a lemma's `requires`.
- IEEE-754 rounding. All arithmetic is over exact reals, so there are no claims about bit-exact results.
- In the pond loop `Math.sqrt` is taken and its result squared again. Over the reals that is the squared distance itself, which is what the model subtracts. The float rounding between the two is not modelled.
- `computeBoundingBox`, `getCenter`, `computeVertexNormals` and `needsUpdate`. These are library calls, and the centre is a parameter of `BendVertices`.
- `traverse` over the pond's children. `BendVertices` models one pass of the loop over one position buffer. A geometry shared by k mesh children (three.js clones share geometry by reference) is bent k times, ending at y - k * sag. The model proves that k passes compose into one bend with k times the strength (`PondBend.BentNIsOneBend`, by induction from `PondBend.BentTwice`), but does not model the traversal or the sharing itself.
- BendVertices: bends the floor(length / 3) whole vertices only. The code's `count` is `length / 3` without flooring. When length % 3 == 2 it runs one more pass, which reads a missing Z and writes NaN into the last Y entry. The model leaves that entry unchanged, since it has no NaN. Position data loaded as glTF VEC3 accessors always holds whole vertices, so this case does not arise for the pond.
- In-memory `InterleavedBufferAttribute` layouts (strided, shared buffers) are not modelled; only the packed xyz layout is.
- Mouse-drag rotation, the camera zoom animation, the emissive material tweaks on wheat, `AxesHelper` and console logging. These are UI, clock-driven or presentation-only.
- Configuration validation: the code checks none of its constants (segment counts, radii, ranges), so the model rejects no configuration either.
- Poles at lat = +/-1: the code has none. Its `theta = (0.5 - lat) * PI` puts one pole at lat = 0.5 (theta = 0, y = radius) and the other at lat = -0.5 (theta = PI, y = -radius). The model follows it (`Sphere.PoleAtHalfLatitude`, `Sphere.SouthPoleAtMinusHalfLatitude`). For |lat| > 0.5 theta leaves [0, PI] (`Sphere.ThetaInHalfTurnIffMidLatitude`), so the point wraps over a pole onto azimuth phi + PI (`Sphere.AlongAzimuth`). Wheat clusters at lat 0.7, 0.6 and -0.6 and the outer grass rows land there. The model keeps this wrap, as the code does.
- The pond zone test uses planar distance in (lat, lon) space, not geodesic distance, exactly as the code does.
