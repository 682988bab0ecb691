# Planet terrain subdivision predicate

A model of Skybolt's terrain level-of-detail decision,
`PlanetSubdivisionPredicate`. For one quadtree tile of a planet surface the
predicate answers whether the tile should be split into four children:

1. **Existence gate.** If no tile source reports descendants of the tile's key, the answer is no.
2. **Axis swap.** The tile bounds are stored as (longitude, latitude). Each corner is swapped into (latitude, longitude).
3. **Nearest point.** The observer's longitude is moved by a whole turn (minus or plus 2π) when that brings it closer to the box's centre longitude. Latitude and longitude are then clamped into the box.
4. **Floors.** The observer altitude is floored at 1 m before the geocentric conversion. The sea-level distance to the nearest point is floored at 0.01 before the division.
5. **Horizon cull.** The tile is visible only when `cosElevation > 0`. `cosElevation` is the dot product of the unit direction from the nearest point to the observer with the unit outward normal. The nearest point is taken at the planet radius plus the heightmap's minimum altitude.
6. **Threshold.** A visible tile is split when `planetRadius / 2^level / distance` exceeds `mix(0.4, 0.1, cosElevation)`.

Files:

- `math_utility.dfy`, module `MathUtility`: the scalar helpers the predicate calls. These are `abs`, `std::max`, `math::clamp`, `glm::mix`, `std::pow(2, n)` and 2π.
- `planet_subdivision_predicate.dfy`, module `PlanetSubdivisionPredicate`: the entities and the three operations of the source file.
  - `HasAnyChildren` is the source's loop with its early return. It is proved equal to the recursive reference `AnyHasChildren`.
  - `NearestPointInSolidBox` is the source's step-by-step running choice of the wrapped longitude. It is proved equal to `NearestPoint`, which is built on `WrappedLongitude`. `WrappedLongitude` is the reference definition "first nearest of lon, lon − 2π, lon + 2π".
  - `Evaluate` computes every intermediate quantity of `operator()`.
  - `ShouldSubdivide` is the decision.
- `subdivision_properties.dfy`, module `SubdivisionProperties`: properties that relate several calls, or that fix a concrete configuration.

Doubles are modelled as reals. Some helpers are called but not shown: geocentric conversion, vector length and normalisation. They are fields of a `Geometry` value holding arbitrary total functions, so every property holds whatever those helpers compute. The heightmap's minimum altitude is a field of the predicate's configuration.

## Model

| member | source | states |
|---|---|---|
| `PlanetSubdivisionPredicate.AnyHasChildren` | src/Skybolt/SkyboltVis/Renderable/Planet/Tile/PlanetSubdivisionPredicate.cpp:20-30 | true exactly when some source in the sequence reports children for the key; false for an empty sequence |
| `PlanetSubdivisionPredicate.HasAnyChildren` | src/Skybolt/SkyboltVis/Renderable/Planet/Tile/PlanetSubdivisionPredicate.cpp:20-30 | the loop with its early `return true` answers "some source reports children", the same as the reference `AnyHasChildren` |
| `PlanetSubdivisionPredicate.WrappedLongitude` | src/Skybolt/SkyboltVis/Renderable/Planet/Tile/PlanetSubdivisionPredicate.cpp:71-85 | the result is one of lon, lon − 2π, lon + 2π; its distance to the centre longitude is at most that of each candidate; ties keep the unshifted value, then the −2π shift (both directions stated); the three candidate distances are `CandidateDistance`, the `std::abs(point.y() ± twoPiD() − centerLon)` of lines 74, 75 and 81 |
| `PlanetSubdivisionPredicate.NearestPoint` | src/Skybolt/SkyboltVis/Renderable/Planet/Tile/PlanetSubdivisionPredicate.cpp:88-89 | latitude is only clamped, never shifted; on a box with min ≤ max on both axes the result lies in the box |
| `PlanetSubdivisionPredicate.NearestPointInSolidBox` | src/Skybolt/SkyboltVis/Renderable/Planet/Tile/PlanetSubdivisionPredicate.cpp:68-90 | the running choice of `dist` with strict `<` and the per-axis clamp give exactly `NearestPoint` |
| `PlanetSubdivisionPredicate.Swap` | src/Skybolt/SkyboltVis/Renderable/Planet/Tile/PlanetSubdivisionPredicate.cpp:39 | `math::vec2SwapComponents` exchanges the two axes, and swapping twice restores the vector |
| `PlanetSubdivisionPredicate.Center` | src/Skybolt/SkyboltVis/Renderable/Planet/Tile/PlanetSubdivisionPredicate.cpp:72 | the centre longitude is the midpoint of the box's longitude range, so it lies between its minimum and maximum |
| `PlanetSubdivisionPredicate.Threshold` | src/Skybolt/SkyboltVis/Renderable/Planet/Tile/PlanetSubdivisionPredicate.cpp:62 | equals 0.4 at cosElevation 0 and 0.1 at cosElevation 1; lies in [0.1, 0.4] for cosElevation in [0, 1] |
| `PlanetSubdivisionPredicate.TileSize` | src/Skybolt/SkyboltVis/Renderable/Planet/Tile/PlanetSubdivisionPredicate.cpp:60 | tile size times 2^level is the planet radius; positive and at most the radius for a positive radius |
| `PlanetSubdivisionPredicate.ProjectedSize` | src/Skybolt/SkyboltVis/Renderable/Planet/Tile/PlanetSubdivisionPredicate.cpp:61 | projected size times the distance floored at 0.01 is the tile size, so the division is always defined |
| `PlanetSubdivisionPredicate.Evaluate` | src/Skybolt/SkyboltVis/Renderable/Planet/Tile/PlanetSubdivisionPredicate.cpp:39-62 | the lat/lon box is the component-swapped input box, and the nearest point lies in it when it is well formed; the altitude given to the geocentric conversion is exactly `max(1.0, altitude)`, so at least 1.0; the divisor is exactly `max(0.01, distance)`, so at least 0.01; the tile size is `TileSize(radius, level)`; the threshold is `mix(0.4, 0.1, cosElevation)`. Vector difference (lines 47, 51) is `Sub` and the `Vec3d * Vec3d` dot product (line 55) is `Dot` |
| `PlanetSubdivisionPredicate.ShouldSubdivide` | src/Skybolt/SkyboltVis/Renderable/Planet/Tile/PlanetSubdivisionPredicate.cpp:32-66 | false when no source has children, for any bounds and observer (and so for no sources at all); false when cosElevation ≤ 0; true exactly when children exist, cosElevation > 0 and projected size exceeds the threshold |
| `MathUtility.Abs` | src/Skybolt/SkyboltVis/Renderable/Planet/Tile/PlanetSubdivisionPredicate.cpp:74-75 | `std::abs`: non-negative and equal to x or −x |
| `MathUtility.Max` | src/Skybolt/SkyboltVis/Renderable/Planet/Tile/PlanetSubdivisionPredicate.cpp:43 | `std::max`: at least both arguments and equal to one of them |
| `MathUtility.Clamp` | src/Skybolt/SkyboltVis/Renderable/Planet/Tile/PlanetSubdivisionPredicate.cpp:88-89 | inside [lo, hi] when lo ≤ hi; a value already in range is returned unchanged; the result is the value or an end |
| `MathUtility.ClampIsNearest` | src/Skybolt/SkyboltVis/Renderable/Planet/Tile/PlanetSubdivisionPredicate.cpp:88-89 | the clamped value is at least as close to the input as every point of [lo, hi] |
| `MathUtility.ClampIdempotent` | src/Skybolt/SkyboltVis/Renderable/Planet/Tile/PlanetSubdivisionPredicate.cpp:88-89 | clamping twice into a non-empty interval is clamping once |
| `MathUtility.Mix` | src/Skybolt/SkyboltVis/Renderable/Planet/Tile/PlanetSubdivisionPredicate.cpp:62 | `glm::mix`: the first endpoint at t = 0, the second at t = 1 |
| `MathUtility.Pow2` | src/Skybolt/SkyboltVis/Renderable/Planet/Tile/PlanetSubdivisionPredicate.cpp:60 | `std::pow(2, level)` is at least 1, and at least 2 above level 0 |
| `SubdivisionProperties.UnshiftedWithinHalfTurn` | src/Skybolt/SkyboltVis/Renderable/Planet/Tile/PlanetSubdivisionPredicate.cpp:74-85 | a longitude within half a turn of the centre is not shifted |
| `SubdivisionProperties.WrapWithinHalfTurn` | src/Skybolt/SkyboltVis/Renderable/Planet/Tile/PlanetSubdivisionPredicate.cpp:70-85 | for a longitude within one and a half turns of the centre, the wrapped longitude is within half a turn of it, so the nearest point does not jump to the far side of the planet |
| `SubdivisionProperties.NearestPointIsNearest` | src/Skybolt/SkyboltVis/Renderable/Planet/Tile/PlanetSubdivisionPredicate.cpp:87-89 | per axis, the result is at least as close to the wrapped observer point as every point of the solid box |
| `SubdivisionProperties.InBoxPointUnchanged` | src/Skybolt/SkyboltVis/Renderable/Planet/Tile/PlanetSubdivisionPredicate.cpp:71-89 | a point inside a box at most one turn wide is returned unchanged |
| `SubdivisionProperties.NearestPointIdempotent` | src/Skybolt/SkyboltVis/Renderable/Planet/Tile/PlanetSubdivisionPredicate.cpp:68-90 | on a well-formed box at most one turn wide, projecting twice is projecting once |
| `SubdivisionProperties.AntimeridianTile` | src/Skybolt/SkyboltVis/Renderable/Planet/Tile/PlanetSubdivisionPredicate.cpp:70-89 | for a tile over longitudes [3.0, 3.3] and an observer at longitude −3.1, the observer is shifted by +2π into the tile rather than clamped to its edge |
| `SubdivisionProperties.ThresholdAntitone` | src/Skybolt/SkyboltVis/Renderable/Planet/Tile/PlanetSubdivisionPredicate.cpp:62 | the threshold does not increase as cosElevation increases |
| `SubdivisionProperties.TileSizeHalvesPerLevel` | src/Skybolt/SkyboltVis/Renderable/Planet/Tile/PlanetSubdivisionPredicate.cpp:60 | one level deeper halves the tile size, which strictly decreases for a positive radius |
| `SubdivisionProperties.ProjectedSizeScaleLaw` | src/Skybolt/SkyboltVis/Renderable/Planet/Tile/PlanetSubdivisionPredicate.cpp:60-61 | one level deeper at half the distance gives the same projected size (doubling the distance instead would quarter it) |
| `SubdivisionProperties.ProjectedSizeAntitone` | src/Skybolt/SkyboltVis/Renderable/Planet/Tile/PlanetSubdivisionPredicate.cpp:61 | a farther tile of the same size never projects larger |
| `SubdivisionProperties.LargeVisibleTileSubdivides` | src/Skybolt/SkyboltVis/Renderable/Planet/Tile/PlanetSubdivisionPredicate.cpp:56-62 | with children, cosElevation in (0, 1] and projected size above 0.4, the tile is always subdivided |
| `SubdivisionProperties.SmallTileNeverSubdivides` | src/Skybolt/SkyboltVis/Renderable/Planet/Tile/PlanetSubdivisionPredicate.cpp:56-65 | with cosElevation ≤ 1 and projected size at most 0.1, the tile is never subdivided |
| `SubdivisionProperties.LevelTwoOverheadTile` | src/Skybolt/SkyboltVis/Renderable/Planet/Tile/PlanetSubdivisionPredicate.cpp:58-62 | on a 6,371,000 m planet, a level-2 tile with children seen overhead has size 1,592,750 m and is subdivided exactly when its distance is below 15,927,500 m, so an observer 10,000 km above it (projected size ≈ 0.159 > 0.1) still subdivides it |

## Left out

- Floating point: doubles are reals. The `float` narrowing of `cosElevation` (line 55), the `float` endpoints given to `glm::mix` and all IEEE rounding are not modelled. 2π is the decimal 6.283185307179586 of the double `math::twoPiD()`.
- `llaToGeocentric`, `osg::Vec3d::length` and `osg::Vec3d::normalize` are not part of this model. They are arbitrary functions supplied in a `Geometry` value. No claim depends on real geometry; in particular `cosElevation` is not claimed to lie in [−1, 1]. Lemmas that need `cosElevation ≤ 1` state it as a requirement.
- `getHeightmapMinAltitude()` and the heightmap behind it are not part of this model. The value is a field of the configuration.
- Tile-source implementations (data fetching, disk or network I/O) are left out. Only the `hasAnyChildren(key)` answer of each source is kept.
- Concurrent invocation by the traversal driver is left out. The decision is a pure function, so nothing about it changes.
- `ScreenQuad.cpp` (scene-graph wiring for a screen-aligned quad) has no decision logic and is not modelled.
- `math::clamp` and `Box2d::center` come from SkyboltCommon and osg, whose definitions are not in the modelled source file. The model assumes them as `Clamp` ("below lo gives lo, above hi gives hi, otherwise the value") and `Center` (the midpoint). Other plausible definitions of clamp differ only when min > max. The model makes no claim about a box with min > max on an axis beyond what `Clamp` as assumed computes.
- `InBoxPointUnchanged`, `NearestPointIdempotent`: stated only for boxes at most one turn (2π) wide in longitude. On a wider box, the wrap can move a longitude that is already in range to another turn that is also in range.
