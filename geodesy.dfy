/** Geodesy (core/flight_controller.py, `_bearing` and `_haversine_nm`).
    The spherical trigonometry is floating-point numerics and stays
    uninterpreted: a `Geo` value supplies it. Only the normalisation of the
    bearing into [0, 360) is modelled exactly, over the reals. */
module Geodesy {
  import opened SimTypes

  /** The floating-point numerics the engine relies on, as opaque functions. */
  datatype Geo = Geo(
    /** `degrees(atan2(x, y))` inside `_bearing(lat1, lon1, lat2, lon2)`, before normalisation */
    atan2Deg: (real, real, real, real) -> real,
    /** `_haversine_nm(lat1, lon1, lat2, lon2)` */
    distanceNm: (real, real, real, real) -> real,
    /** `math.radians` */
    radians: real -> real,
    /** teleport's `meters_to_deg_lat(step_m * cos(radians(bearing)))`, from (step_m, bearing) */
    latPerStep: (real, real) -> real,
    /** teleport's `meters_to_deg_lon(step_m * sin(radians(bearing)), lat)`, from (step_m, bearing, lat) */
    lonPerStep: (real, real, real) -> real)

  /** `atan2` answers in [-180, 180] degrees. */
  ghost predicate AngleInRange(g: Geo) {
    forall a, b, c, d :: -180.0 <= g.atan2Deg(a, b, c, d) <= 180.0
  }

  lemma ScaleBelow(m: real, a: real, b: real)
    requires m > 0.0 && a <= b
    ensures m * a <= m * b
  {}

  lemma ScaleStrict(m: real, a: real, b: real)
    requires m > 0.0 && a < b
    ensures m * a < m * b
  {}

  lemma FloorBoundsAt(x: real, m: real, q: real, k: real)
    requires m > 0.0 && q == x / m && k <= q < k + 1.0
    ensures m * k <= x < m * k + m
  {
    ScaleBelow(m, k, q);
    ScaleStrict(m, q, k + 1.0);
    assert m * q == x;
    assert m * (k + 1.0) == m * k + m;
  }

  lemma FloorBounds(x: real, m: real)
    requires m > 0.0
    ensures m * ((x / m).Floor as real) <= x < m * ((x / m).Floor as real) + m
  {
    var q := x / m;
    FloorBoundsAt(x, m, q, q.Floor as real);
  }

  /** Python's `x % m` on floats with a positive modulus: the remainder has
      the sign of the modulus. */
  function PyMod(x: real, m: real): (r: real)
    requires m > 0.0
    ensures 0.0 <= r < m
  {
    FloorBounds(x, m);
    x - m * ((x / m).Floor as real)
  }

  /** `_bearing`: the atan2 angle shifted by a full turn and reduced modulo 360. */
  function Bearing(g: Geo, lat1: real, lon1: real, lat2: real, lon2: real): (r: real)
    ensures 0.0 <= r < 360.0
  {
    PyMod(g.atan2Deg(lat1, lon1, lat2, lon2) + 360.0, 360.0)
  }

  /** For an angle from atan2 the normalisation only maps the negative half
      turn onto (180, 360) and leaves [0, 180] alone. */
  lemma NormaliseAngle(d: real)
    requires -180.0 <= d <= 180.0
    ensures PyMod(d + 360.0, 360.0) == if d < 0.0 then d + 360.0 else d
  {
    var x := d + 360.0;
    if d < 0.0 {
      assert 0.5 <= x / 360.0 < 1.0;
      assert (x / 360.0).Floor == 0;
    } else {
      assert 1.0 <= x / 360.0 <= 1.5;
      assert (x / 360.0).Floor == 1;
    }
  }

  /** The bearing is the compass form of the atan2 angle: equal to it or one
      full turn above it, and therefore in [0, 360). */
  lemma BearingIsCompassAngle(g: Geo, lat1: real, lon1: real, lat2: real, lon2: real)
    requires AngleInRange(g)
    ensures var d := g.atan2Deg(lat1, lon1, lat2, lon2);
            Bearing(g, lat1, lon1, lat2, lon2) == if d < 0.0 then d + 360.0 else d
  {
    NormaliseAngle(g.atan2Deg(lat1, lon1, lat2, lon2));
  }

  /** The heading bug sent for a bearing, `int(brg)`: a whole degree in [0, 359]. */
  function HeadingBug(brg: real): (h: int)
    requires 0.0 <= brg < 360.0
    ensures 0 <= h < 360
    ensures h as real <= brg < h as real + 1.0
  {
    Trunc(brg)
  }
}
