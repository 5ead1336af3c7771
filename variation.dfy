/**
  The two ways both scatters turn a noise value in [0, 1) into
  variation: a centred offset `(n - 0.5) * magnitude` and a scale
  `min + n * range`.
 */
module Variation {
  import opened Sphere

  /** `x + (n - 0.5) * magnitude`. */
  function Offset(x: real, n: real, magnitude: real): real
  {
    x + (n - 0.5) * magnitude
  }

  /** A noise in [0, 1) moves x by an amount in [-magnitude/2, magnitude/2). */
  lemma OffsetWithinHalf(x: real, n: real, magnitude: real)
    requires 0.0 <= n < 1.0 && magnitude > 0.0
    ensures -magnitude / 2.0 <= Offset(x, n, magnitude) - x < magnitude / 2.0
  {
    var nm, dm := n * magnitude, (n - 0.5) * magnitude;
    assert dm == nm - 0.5 * magnitude;
    assert 0.0 <= nm < magnitude;
  }

  /** A site moved by `(noise - 0.5) * magnitude` in each coordinate. */
  function Jittered(site: SurfaceCoordinate, nLat: real, nLon: real, magnitude: real): SurfaceCoordinate
  {
    SurfaceCoordinate(Offset(site.lat, nLat, magnitude), Offset(site.lon, nLon, magnitude))
  }

  /** With noises in [0, 1), each coordinate moves by an amount in [-magnitude/2, magnitude/2). */
  lemma JitteredWithinHalf(site: SurfaceCoordinate, nLat: real, nLon: real, magnitude: real)
    requires 0.0 <= nLat < 1.0 && 0.0 <= nLon < 1.0 && magnitude > 0.0
    ensures -magnitude / 2.0 <= Jittered(site, nLat, nLon, magnitude).lat - site.lat < magnitude / 2.0
    ensures -magnitude / 2.0 <= Jittered(site, nLat, nLon, magnitude).lon - site.lon < magnitude / 2.0
  {
    OffsetWithinHalf(site.lat, nLat, magnitude);
    OffsetWithinHalf(site.lon, nLon, magnitude);
  }

  /** `min + n * range`. */
  function Scaled(min: real, n: real, range: real): real
  {
    min + n * range
  }

  /** A noise in [0, 1) gives a scale in [min, min + range). */
  lemma ScaledWithinRange(min: real, n: real, range: real)
    requires 0.0 <= n < 1.0 && range > 0.0
    ensures min <= Scaled(min, n, range) < min + range
  {
    var nr, rest := n * range, (1.0 - n) * range;
    assert 0.0 < rest;
    assert nr + rest == range;
  }
}
