/** Properties of the subdivision decision that relate several calls or
    fix concrete configurations. */
module SubdivisionProperties {
  import opened MathUtility
  import opened PlanetSubdivisionPredicate

  // ---------------------------------------------------------------------------
  // Longitude wrap and nearest point

  /** A longitude within half a turn of the box centre is never shifted. */
  lemma UnshiftedWithinHalfTurn(lon: real, centerLon: real)
    requires Abs(lon - centerLon) <= TwoPi / 2.0
    ensures WrappedLongitude(lon, centerLon) == lon
  {
  }

  /** Whenever some candidate lies within half a turn of the centre, the chosen
      one does too: the nearest point never jumps to the far side of the planet. */
  lemma WrapWithinHalfTurn(lon: real, centerLon: real)
    requires -3.0 * TwoPi / 2.0 <= lon - centerLon <= 3.0 * TwoPi / 2.0
    ensures Abs(WrappedLongitude(lon, centerLon) - centerLon) <= TwoPi / 2.0
  {
  }

  /** Per axis, the result is at least as close to the (wrapped) observer as any point of the box. */
  lemma NearestPointIsNearest(point: Vec2, bounds: Box2, q: Vec2)
    requires InBox(q, bounds)
    ensures var r := NearestPoint(point, bounds);
            var lon := WrappedLongitude(point.y, Center(bounds).y);
            Abs(r.x - point.x) <= Abs(q.x - point.x) && Abs(r.y - lon) <= Abs(q.y - lon)
  {
    var lon := WrappedLongitude(point.y, Center(bounds).y);
    ClampIsNearest(point.x, bounds.minimum.x, bounds.maximum.x, q.x);
    ClampIsNearest(lon, bounds.minimum.y, bounds.maximum.y, q.y);
  }

  /** A point already inside a box at most one turn wide is returned unchanged. */
  lemma InBoxPointUnchanged(q: Vec2, bounds: Box2)
    requires InBox(q, bounds)
    requires bounds.maximum.y - bounds.minimum.y <= TwoPi
    ensures NearestPoint(q, bounds) == q
  {
    UnshiftedWithinHalfTurn(q.y, Center(bounds).y);
  }

  /** Hence the projection is idempotent on such boxes. */
  lemma NearestPointIdempotent(point: Vec2, bounds: Box2)
    requires WellFormed(bounds)
    requires bounds.maximum.y - bounds.minimum.y <= TwoPi
    ensures NearestPoint(NearestPoint(point, bounds), bounds) == NearestPoint(point, bounds)
  {
    InBoxPointUnchanged(NearestPoint(point, bounds), bounds);
  }

  /** A tile spanning longitudes 3.0 to 3.3 seen from longitude -3.1: the
      observer is moved one turn east, lands inside the tile and is kept,
      instead of being clamped to the tile's western edge. */
  lemma AntimeridianTile()
    ensures NearestPoint(Vec2(0.05, -3.1), Box2(Vec2(0.0, 3.0), Vec2(0.1, 3.3))) == Vec2(0.05, -3.1 + TwoPi)
  {
  }

  // ---------------------------------------------------------------------------
  // Threshold, tile size and projected size

  /** The threshold does not increase as the view becomes more overhead. */
  lemma ThresholdAntitone(c1: real, c2: real)
    requires c1 <= c2
    ensures Threshold(c2) <= Threshold(c1)
  {
  }

  /** One level deeper halves the tile size, and so strictly shrinks it. */
  lemma TileSizeHalvesPerLevel(planetRadius: real, level: nat)
    ensures TileSize(planetRadius, level + 1) * 2.0 == TileSize(planetRadius, level)
    ensures planetRadius > 0.0 ==> TileSize(planetRadius, level + 1) < TileSize(planetRadius, level)
  {
    assert Pow2(level + 1) == 2.0 * Pow2(level);
  }

  /** A tile one level deeper at half the distance projects to the same size. */
  lemma ProjectedSizeScaleLaw(planetRadius: real, level: nat, distance: real)
    requires distance >= 0.02
    ensures ProjectedSize(TileSize(planetRadius, level + 1), distance / 2.0) ==
            ProjectedSize(TileSize(planetRadius, level), distance)
  {
    TileSizeHalvesPerLevel(planetRadius, level);
  }

  /** A farther tile of the same size never projects larger. */
  lemma ProjectedSizeAntitone(tileSize: real, d1: real, d2: real)
    requires tileSize >= 0.0 && d1 <= d2
    ensures ProjectedSize(tileSize, d2) <= ProjectedSize(tileSize, d1)
  {
    var m1, m2 := Max(0.01, d1), Max(0.01, d2);
    var near, far := ProjectedSize(tileSize, d1), ProjectedSize(tileSize, d2);
    assert m1 <= m2;
    assert far >= 0.0;
    assert far * m1 <= far * m2 == near * m1;
  }

  // ---------------------------------------------------------------------------
  // The decision

  /** A visible tile (cosElevation in (0, 1]) whose projected size exceeds
      the grazing endpoint 0.4 is always subdivided when it has children. */
  lemma LargeVisibleTileSubdivides(p: SubdivisionPredicate, geo: Geometry, bounds: Box2, key: QuadTreeTileKey)
    requires AnyHasChildren(p.tileSources, key)
    requires 0.0 < Evaluate(p, geo, bounds, key).cosElevation <= 1.0
    requires Evaluate(p, geo, bounds, key).projectedSize > GrazingThreshold
    ensures ShouldSubdivide(p, geo, bounds, key)
  {
  }

  /** A tile whose projected size is at most the overhead endpoint 0.1 is never
      subdivided, wherever it lies (for cosElevation at most 1). */
  lemma SmallTileNeverSubdivides(p: SubdivisionPredicate, geo: Geometry, bounds: Box2, key: QuadTreeTileKey)
    requires Evaluate(p, geo, bounds, key).cosElevation <= 1.0
    requires Evaluate(p, geo, bounds, key).projectedSize <= OverheadThreshold
    ensures !ShouldSubdivide(p, geo, bounds, key)
  {
  }

  /** The worked configuration: an Earth-sized planet (radius 6,371,000 m), a
      level-2 tile (size 1,592,750 m) with children, seen straight overhead
      (cosElevation = 1).  It is subdivided exactly when its sea-level
      distance is below 15,927,500 m, so from 10 km and from 10,000 km alike. */
  lemma LevelTwoOverheadTile(p: SubdivisionPredicate, geo: Geometry, bounds: Box2, key: QuadTreeTileKey)
    requires p.planetRadius == 6371000.0 && key.level == 2
    requires AnyHasChildren(p.tileSources, key)
    requires Evaluate(p, geo, bounds, key).cosElevation == 1.0
    ensures Evaluate(p, geo, bounds, key).tileSize == 1592750.0
    ensures ShouldSubdivide(p, geo, bounds, key) <==>
            Evaluate(p, geo, bounds, key).distanceToTileNearestPoint < 15927500.0
  {
    var e := Evaluate(p, geo, bounds, key);
    assert Pow2(2) == 4.0;
    assert e.tileSize == 1592750.0;
    if e.distanceToTileNearestPoint >= 0.01 {
      assert e.projectedSize * e.distanceToTileNearestPoint == 1592750.0;
    } else {
      assert e.projectedSize * 0.01 == 1592750.0;
    }
  }
}
