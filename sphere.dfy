/** Mapping normalised (lat, lon) coordinates onto the planet sphere. */
module Sphere {
  import opened HostMath

  /** A normalised latitude/longitude pair. */
  datatype SurfaceCoordinate = SurfaceCoordinate(lat: real, lon: real)

  /**
    One decoration instance as the scene receives it: the surface
    coordinate it was projected from, the position on the sphere, the
    orientation that stands it on the surface and its uniform scale.
   */
  datatype Placement = Placement(site: SurfaceCoordinate, position: Vec3, orientation: Quaternion, scale: real)

  /** The polar angle `theta = (0.5 - lat) * PI`. */
  function Theta(lat: real): real { (0.5 - lat) * PI }

  /** The azimuth `phi = lon * PI * 2`. */
  function Phi(lon: real): real { lon * PI * 2.0 }

  /**
    `getSphericalPosition(lat, lon, radius)`. The point lies in the
    vertical plane through the Y axis at azimuth phi: its horizontal part
    (x, z) is parallel to (cos phi, sin phi). Which side of the Y axis it
    falls on is the sign of `radius * sin(theta)` (`AlongAzimuth`).
   */
  function SphericalPosition(lib: Library, lat: real, lon: real, radius: real): (p: Vec3)
    ensures p.x * lib.sin(Phi(lon)) == p.z * lib.cos(Phi(lon))
  {
    var theta, phi := Theta(lat), Phi(lon);
    Vec3(radius * lib.sin(theta) * lib.cos(phi),
         radius * lib.cos(theta),
         radius * lib.sin(theta) * lib.sin(phi))
  }

  function NormSquared(v: Vec3): real { v.x * v.x + v.y * v.y + v.z * v.z }

  /** The host's sine and cosine agree with sin^2 + cos^2 = 1 at `t`. */
  predicate Pythagorean(lib: Library, t: real)
  {
    lib.sin(t) * lib.sin(t) + lib.cos(t) * lib.cos(t) == 1.0
  }

  /**
    Wherever the host trigonometry satisfies sin^2 + cos^2 = 1, the
    projected point lies on the sphere of the given radius.
   */
  lemma OnSphere(lib: Library, lat: real, lon: real, radius: real)
    requires Pythagorean(lib, Theta(lat)) && Pythagorean(lib, Phi(lon))
    ensures NormSquared(SphericalPosition(lib, lat, lon, radius)) == radius * radius
  {
    var st, ct := lib.sin(Theta(lat)), lib.cos(Theta(lat));
    var sp, cp := lib.sin(Phi(lon)), lib.cos(Phi(lon));
    var p := SphericalPosition(lib, lat, lon, radius);
    var r2 := radius * radius;
    calc {
      NormSquared(p);
      (radius * st * cp) * (radius * st * cp) + (radius * ct) * (radius * ct) + (radius * st * sp) * (radius * st * sp);
      { assert (radius * st * cp) * (radius * st * cp) == r2 * (st * st) * (cp * cp);
        assert (radius * st * sp) * (radius * st * sp) == r2 * (st * st) * (sp * sp);
        assert (radius * ct) * (radius * ct) == r2 * (ct * ct); }
      r2 * (st * st) * (cp * cp) + r2 * (ct * ct) + r2 * (st * st) * (sp * sp);
      r2 * (st * st) * (sp * sp + cp * cp) + r2 * (ct * ct);
      r2 * (st * st) + r2 * (ct * ct);
      r2 * (st * st + ct * ct);
      r2;
    }
  }

  /**
    The signed horizontal distance of the point along azimuth phi is
    `radius * sin(theta)`. For theta outside [0, PI], where the host sine
    is negative, the point wraps over a pole onto azimuth phi + PI.
   */
  lemma AlongAzimuth(lib: Library, lat: real, lon: real, radius: real)
    requires Pythagorean(lib, Phi(lon))
    ensures var p := SphericalPosition(lib, lat, lon, radius);
      p.x * lib.cos(Phi(lon)) + p.z * lib.sin(Phi(lon)) == radius * lib.sin(Theta(lat))
  {
    var rs := radius * lib.sin(Theta(lat));
    var sp, cp := lib.sin(Phi(lon)), lib.cos(Phi(lon));
    var p := SphericalPosition(lib, lat, lon, radius);
    assert p.x == rs * cp && p.z == rs * sp;
    assert rs * cp * cp + rs * sp * sp == rs * (sp * sp + cp * cp);
  }

  /**
    The polar angle stays within [0, PI] exactly for latitudes in
    [-0.5, 0.5]; beyond them the projection passes over a pole.
   */
  lemma ThetaInHalfTurnIffMidLatitude(lat: real)
    ensures 0.0 <= Theta(lat) <= PI <==> -0.5 <= lat <= 0.5
  {
    var h := 0.5 - lat;
    assert Theta(lat) == h * PI;
    if 0.0 <= h * PI {
      assert 0.0 <= h;
    }
    if h * PI <= PI {
      assert (h - 1.0) * PI <= 0.0;
    }
    if -0.5 <= lat <= 0.5 {
      assert 0.0 <= h <= 1.0;
      assert h * PI <= 1.0 * PI;
    }
  }

  /**
    The pole sits at lat = 0.5, not at lat = 1: there theta is 0, so the
    point is straight up the Y axis.
   */
  lemma PoleAtHalfLatitude(lib: Library, lon: real, radius: real)
    requires lib.sin(0.0) == 0.0 && lib.cos(0.0) == 1.0
    ensures SphericalPosition(lib, 0.5, lon, radius) == Vec3(0.0, radius, 0.0)
  {
    assert Theta(0.5) == 0.0;
  }

  /**
    The other pole sits at lat = -0.5: there theta is PI, so the point is
    straight down the Y axis.
   */
  lemma SouthPoleAtMinusHalfLatitude(lib: Library, lon: real, radius: real)
    requires lib.sin(PI) == 0.0 && lib.cos(PI) == -1.0
    ensures SphericalPosition(lib, -0.5, lon, radius) == Vec3(0.0, -radius, 0.0)
  {
    assert Theta(-0.5) == PI;
  }

  /**
    Project a coordinate, position the instance there, stand it on the
    surface and give it its scale: what each scatter does with a
    surviving site.
   */
  function PlaceAt(lib: Library, site: SurfaceCoordinate, radius: real, scale: real): Placement
  {
    var position := SphericalPosition(lib, site.lat, site.lon, radius);
    Placement(site, position, lib.alignUp(position), scale)
  }
}
