/** The circular pond exclusion zone in (lat, lon) space. */
module Exclusion {
  import opened Sphere

  datatype Zone = Zone(centre: SurfaceCoordinate, radius: real)

  /** Planar squared distance in (lat, lon) space, not geodesic. */
  function DistanceSquared(a: SurfaceCoordinate, b: SurfaceCoordinate): (d: real)
    ensures d >= 0.0
  {
    (a.lat - b.lat) * (a.lat - b.lat) + (a.lon - b.lon) * (a.lon - b.lon)
  }

  /**
    A point is excluded when its distance to the centre is strictly
    below the radius. Compared on squares; a negative radius excludes
    nothing, as `sqrt(d) < r` never holds for r < 0, and neither does a
    zero radius, so only a zone of positive radius excludes anything.
   */
  predicate Excluded(z: Zone, p: SurfaceCoordinate)
    ensures Excluded(z, p) ==> z.radius > 0.0
  {
    z.radius >= 0.0 && DistanceSquared(p, z.centre) < z.radius * z.radius
  }

  /**
    The squared comparison decides exactly what `sqrt(d2) < radius`
    decides, for every radius: `dist` is any non-negative root of the
    squared distance.
   */
  lemma ExcludedIffDistanceBelowRadius(z: Zone, p: SurfaceCoordinate, dist: real)
    requires 0.0 <= dist && dist * dist == DistanceSquared(p, z.centre)
    ensures Excluded(z, p) <==> dist < z.radius
  {
    var r := z.radius;
    if 0.0 <= r {
      if dist < r {
        SquareBelow(dist, r);
      } else {
        SquareBelow(r, dist);
      }
    }
  }

  /** Squaring is monotone on the non-negative reals. */
  lemma SquareBelow(a: real, b: real)
    requires 0.0 <= a <= b
    ensures a * a <= b * b
    ensures a < b ==> a * a < b * b
  {
    var aa, ab, bb := a * a, a * b, b * b;
    assert aa <= ab;
    if a < b {
      assert ab < bb;
    }
  }

  /** The zone's own centre is excluded exactly when the radius is positive. */
  lemma CentreExcludedIffPositiveRadius(z: Zone)
    ensures Excluded(z, z.centre) <==> z.radius > 0.0
  {
    assert DistanceSquared(z.centre, z.centre) == 0.0;
    if z.radius > 0.0 {
      SquareBelow(0.0, z.radius);
    }
  }

  /** Exclusion is strict: a point exactly on the rim is kept. */
  lemma RimIsKept(z: Zone, p: SurfaceCoordinate)
    requires DistanceSquared(p, z.centre) == z.radius * z.radius
    ensures !Excluded(z, p)
  {
  }
}
