/** The level-of-detail decision for a quadtree tile of a planet surface:
    should the tile be split into four children?  Coordinates are in radians,
    distances and altitudes in metres, doubles are modelled as reals. */
module PlanetSubdivisionPredicate {
  import opened MathUtility

  datatype Vec2 = Vec2(x: real, y: real)
  datatype Vec3 = Vec3(x: real, y: real, z: real)

  /** An axis-aligned rectangle.  Tile bounds store (longitude, latitude);
      after swapping, x is latitude and y is longitude. */
  datatype Box2 = Box2(minimum: Vec2, maximum: Vec2)

  datatype QuadTreeTileKey = QuadTreeTileKey(level: nat, x: int, y: int)

  /** A source of tile data, reduced to the one capability the predicate uses. */
  datatype TileSource = TileSource(hasAnyChildren: QuadTreeTileKey -> bool)

  /** The coordinate transforms and vector helpers the predicate calls but
      that are not part of this model; they are taken as given functions. */
  datatype Geometry = Geometry(
    llaToGeocentric: (Vec2, real, real) -> Vec3,   // (lat, lon), altitude, planet radius
    length: Vec3 -> real,
    normalize: Vec3 -> Vec3)

  /** The state a predicate is constructed with for one traversal pass. */
  datatype SubdivisionPredicate = SubdivisionPredicate(
    observerLatLon: Vec2,
    observerAltitude: real,
    planetRadius: real,
    tileSources: seq<TileSource>,
    heightmapMinAltitude: real)   // what getHeightmapMinAltitude() answers

  /** math::vec2SwapComponents: exchanges the two axes; swapping twice restores the vector. */
  function Swap(v: Vec2): (r: Vec2)
    ensures r.x == v.y && r.y == v.x
    ensures Vec2(r.y, r.x) == v
  {
    Vec2(v.y, v.x)
  }

  function Sub(a: Vec3, b: Vec3): Vec3 { Vec3(a.x - b.x, a.y - b.y, a.z - b.z) }

  function Dot(a: Vec3, b: Vec3): real { a.x * b.x + a.y * b.y + a.z * b.z }

  function Center(b: Box2): (c: Vec2)
    ensures c.y - b.minimum.y == b.maximum.y - c.y
    ensures b.minimum.y <= b.maximum.y ==> b.minimum.y <= c.y <= b.maximum.y
  {
    Vec2((b.minimum.x + b.maximum.x) / 2.0, (b.minimum.y + b.maximum.y) / 2.0)
  }

  predicate WellFormed(b: Box2) {
    b.minimum.x <= b.maximum.x && b.minimum.y <= b.maximum.y
  }

  predicate InBox(p: Vec2, b: Box2) {
    b.minimum.x <= p.x <= b.maximum.x && b.minimum.y <= p.y <= b.maximum.y
  }

  // ---------------------------------------------------------------------------
  // hasAnyChildren

  /** Some source in `sources` reports descendants of `key` (reference definition). */
  function AnyHasChildren(sources: seq<TileSource>, key: QuadTreeTileKey): (r: bool)
    ensures r <==> exists i :: 0 <= i < |sources| && sources[i].hasAnyChildren(key)
    ensures |sources| == 0 ==> !r
  {
    if |sources| == 0 then false
    else sources[0].hasAnyChildren(key) || AnyHasChildren(sources[1..], key)
  }

  /** The loop over the tile sources with an early return. */
  method HasAnyChildren(sources: seq<TileSource>, key: QuadTreeTileKey) returns (r: bool)
    ensures r <==> exists i :: 0 <= i < |sources| && sources[i].hasAnyChildren(key)
    ensures r == AnyHasChildren(sources, key)
  {
    for i := 0 to |sources|
      invariant forall j :: 0 <= j < i ==> !sources[j].hasAnyChildren(key)
    {
      if sources[i].hasAnyChildren(key) {
        return true;
      }
    }
    return false;
  }

  // ---------------------------------------------------------------------------
  // nearestPointInSolidBox

  /** Distance from the k-th longitude candidate (lon, lon - 2pi, lon + 2pi) to `centerLon`. */
  function CandidateDistance(lon: real, centerLon: real, k: nat): real
    requires k < 3
  {
    if k == 0 then Abs(lon - centerLon)
    else if k == 1 then Abs(lon - TwoPi - centerLon)
    else Abs(lon + TwoPi - centerLon)
  }

  /** The wrapped longitude: the first of lon, lon - 2pi, lon + 2pi (in that
      order) whose distance to `centerLon` is least. */
  function WrappedLongitude(lon: real, centerLon: real): (w: real)
    ensures w == lon || w == lon - TwoPi || w == lon + TwoPi
    ensures forall k :: 0 <= k < 3 ==> Abs(w - centerLon) <= CandidateDistance(lon, centerLon, k)
    ensures w == lon <==>
      CandidateDistance(lon, centerLon, 0) <= CandidateDistance(lon, centerLon, 1) &&
      CandidateDistance(lon, centerLon, 0) <= CandidateDistance(lon, centerLon, 2)
    ensures w == lon - TwoPi <==>
      CandidateDistance(lon, centerLon, 1) < CandidateDistance(lon, centerLon, 0) &&
      CandidateDistance(lon, centerLon, 1) <= CandidateDistance(lon, centerLon, 2)
  {
    var d0 := CandidateDistance(lon, centerLon, 0);
    var d1 := CandidateDistance(lon, centerLon, 1);
    var d2 := CandidateDistance(lon, centerLon, 2);
    if d0 <= d1 && d0 <= d2 then lon
    else if d1 <= d2 then lon - TwoPi
    else lon + TwoPi
  }

  /** The point of the solid box `bounds` nearest to `point`, after the
      longitude of `point` has been moved to the turn nearest the box. */
  function NearestPoint(point: Vec2, bounds: Box2): (r: Vec2)
    ensures r.x == Clamp(point.x, bounds.minimum.x, bounds.maximum.x)
    ensures WellFormed(bounds) ==> InBox(r, bounds)
  {
    var lon := WrappedLongitude(point.y, Center(bounds).y);
    Vec2(Clamp(point.x, bounds.minimum.x, bounds.maximum.x),
         Clamp(lon, bounds.minimum.y, bounds.maximum.y))
  }

  /** nearestPointInSolidBox as the source writes it: a running choice of
      the wrapped longitude and its distance, then a clamp per axis. */
  method NearestPointInSolidBox(point: Vec2, bounds: Box2) returns (r: Vec2)
    ensures r == NearestPoint(point, bounds)
  {
    var wrappedPoint := point;
    var centerLon := Center(bounds).y;

    var dist := Abs(point.y - centerLon);
    var candidateDist := Abs(point.y - TwoPi - centerLon);
    if candidateDist < dist {
      wrappedPoint := wrappedPoint.(y := wrappedPoint.y - TwoPi);
      dist := candidateDist;
    }
    candidateDist := Abs(point.y + TwoPi - centerLon);
    if candidateDist < dist {
      wrappedPoint := wrappedPoint.(y := wrappedPoint.y + TwoPi);
    }

    r := Vec2(Clamp(wrappedPoint.x, bounds.minimum.x, bounds.maximum.x),
              Clamp(wrappedPoint.y, bounds.minimum.y, bounds.maximum.y));
  }

  // ---------------------------------------------------------------------------
  // operator()

  /** Every intermediate value of one evaluation of the predicate. */
  datatype Evaluation = Evaluation(
    latLonBounds: Box2,
    latLon: Vec2,
    flooredAltitude: real,
    observerPosition: Vec3,
    tileNearestPointAtSeaLevel: Vec3,
    distanceToTileNearestPoint: real,
    tileNearestPointAtLowestAltitude: Vec3,
    cosElevation: real,
    tileSize: real,
    flooredDistance: real,
    projectedSize: real,
    threshold: real)

  /** Projected-size threshold endpoints: at grazing view and overhead view. */
  const GrazingThreshold: real := 0.4
  const OverheadThreshold: real := 0.1

  /** glm::mix(0.4, 0.1, cosElevation): the projected size a visible tile
      must exceed to be subdivided. */
  function Threshold(cosElevation: real): (t: real)
    ensures cosElevation == 0.0 ==> t == GrazingThreshold
    ensures cosElevation == 1.0 ==> t == OverheadThreshold
    ensures 0.0 <= cosElevation <= 1.0 ==> OverheadThreshold <= t <= GrazingThreshold
  {
    Mix(GrazingThreshold, OverheadThreshold, cosElevation)
  }

  /** Tile size at `level`: the planet radius halved once per level. */
  function TileSize(planetRadius: real, level: nat): (s: real)
    ensures s * Pow2(level) == planetRadius
    ensures planetRadius > 0.0 ==> 0.0 < s <= planetRadius
  {
    planetRadius / Pow2(level)
  }

  /** Tile size over the distance floored at 0.01, so the divisor is never zero. */
  function ProjectedSize(tileSize: real, distance: real): (p: real)
    ensures p * Max(0.01, distance) == tileSize
    ensures distance >= 0.01 ==> p * distance == tileSize
  {
    tileSize / Max(0.01, distance)
  }

  /** The geometry of operator(), computed whether or not the existence gate passes. */
  function Evaluate(p: SubdivisionPredicate, geo: Geometry, bounds: Box2, key: QuadTreeTileKey): (e: Evaluation)
    ensures e.latLonBounds == Box2(Swap(bounds.minimum), Swap(bounds.maximum))
    ensures e.latLon == NearestPoint(p.observerLatLon, e.latLonBounds)
    ensures WellFormed(e.latLonBounds) ==> InBox(e.latLon, e.latLonBounds)
    ensures e.observerPosition == geo.llaToGeocentric(p.observerLatLon, e.flooredAltitude, p.planetRadius)
    ensures e.flooredAltitude >= 1.0 && e.flooredAltitude >= p.observerAltitude
    ensures e.flooredAltitude == Max(1.0, p.observerAltitude)
    ensures p.observerAltitude >= 1.0 ==> e.flooredAltitude == p.observerAltitude
    ensures p.observerAltitude < 1.0 ==> e.flooredAltitude == 1.0
    ensures e.tileSize == TileSize(p.planetRadius, key.level)
    ensures e.flooredDistance == Max(0.01, e.distanceToTileNearestPoint)
    ensures e.flooredDistance >= 0.01 && e.flooredDistance >= e.distanceToTileNearestPoint
    ensures e.projectedSize * e.flooredDistance == e.tileSize
    ensures e.threshold == Threshold(e.cosElevation)
  {
    var latLonBounds := Box2(Swap(bounds.minimum), Swap(bounds.maximum));
    var latLon := NearestPoint(p.observerLatLon, latLonBounds);
    var altitude := Max(1.0, p.observerAltitude);
    var observerPosition := geo.llaToGeocentric(p.observerLatLon, altitude, p.planetRadius);
    var atSeaLevel := geo.llaToGeocentric(latLon, 0.0, p.planetRadius);
    var distance := geo.length(Sub(atSeaLevel, observerPosition));
    var atLowest := geo.llaToGeocentric(latLon, 0.0, p.planetRadius + p.heightmapMinAltitude);
    var toObserver := geo.normalize(Sub(observerPosition, atLowest));
    var cosElevation := Dot(toObserver, geo.normalize(atLowest));
    var tileSize := TileSize(p.planetRadius, key.level);
    Evaluation(latLonBounds, latLon, altitude, observerPosition, atSeaLevel, distance, atLowest,
               cosElevation, tileSize, Max(0.01, distance), ProjectedSize(tileSize, distance),
               Threshold(cosElevation))
  }

  /** operator(): should the tile with `bounds` and `key` be split into four children? */
  function ShouldSubdivide(p: SubdivisionPredicate, geo: Geometry, bounds: Box2, key: QuadTreeTileKey): (r: bool)
    ensures !AnyHasChildren(p.tileSources, key) ==> !r
    ensures |p.tileSources| == 0 ==> !r
    ensures Evaluate(p, geo, bounds, key).cosElevation <= 0.0 ==> !r
    ensures r <==> AnyHasChildren(p.tileSources, key) &&
                   Evaluate(p, geo, bounds, key).cosElevation > 0.0 &&
                   Evaluate(p, geo, bounds, key).projectedSize > Threshold(Evaluate(p, geo, bounds, key).cosElevation)
  {
    if !AnyHasChildren(p.tileSources, key) then false
    else
      var e := Evaluate(p, geo, bounds, key);
      var visible := e.cosElevation > 0.0;
      if visible then e.projectedSize > e.threshold else false
  }
}
