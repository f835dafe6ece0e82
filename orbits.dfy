/** Orbit-parameter handling for the simulated-satellite loaders: the check that the
    loader keywords name one complete orbit specification, the planetary constant table,
    and the conversions between (periapsis, apoapsis) altitudes and (eccentricity, mean
    motion). */
module Orbits {
  import opened Wrappers
  import opened RealMath
  import opened Text

  const Keplerians: seq<string> := ["alt_periapsis", "inclination"]
  const Tles: seq<string> := ["tle1", "tle2"]

  /** The keyword groups in the order they are checked: two-line elements first. */
  const Groups: seq<seq<string>> := [Tles, Keplerians]

  const GroupMessage := "Insufficient kwargs.  Kwarg group requires "
  const BothWarning := "Cannot use both Keplerians and TLEs. Defaulting to Keplerians."

  predicate SomePresent(group: seq<string>, keys: set<string>) {
    exists k :: 0 <= k < |group| && group[k] in keys
  }

  predicate AllPresent(group: seq<string>, keys: set<string>) {
    forall k :: 0 <= k < |group| ==> group[k] in keys
  }

  /** A group is incomplete when some but not all of its keywords are given. */
  predicate Incomplete(group: seq<string>, keys: set<string>) {
    SomePresent(group, keys) && !AllPresent(group, keys)
  }

  /** The loop over the groups: the position of the first incomplete group, if any. */
  function FirstIncomplete(groups: seq<seq<string>>, keys: set<string>): (r: Option<nat>)
    ensures r.None? <==> forall j :: 0 <= j < |groups| ==> !Incomplete(groups[j], keys)
    ensures r.Some? ==> r.value < |groups| && Incomplete(groups[r.value], keys)
    ensures r.Some? ==> forall j :: 0 <= j < r.value ==> !Incomplete(groups[j], keys)
  {
    if groups == [] then None
    else if Incomplete(groups[0], keys) then Some(0)
    else
      match FirstIncomplete(groups[1..], keys)
      case None => None
      case Some(j) => Some(j + 1)
  }

  /** `_check_orbital_params` on the keys of the load keywords. It fails with a KeyError
      naming the first incomplete group, and otherwise returns the warning it issues,
      if any. */
  function CheckOrbitalParams(keys: set<string>): (r: Result<Option<string>, Exception>)
    ensures r.Err? <==> Incomplete(Tles, keys) || Incomplete(Keplerians, keys)
    ensures Incomplete(Tles, keys) ==> r == Err(KeyError(GroupMessage + "tle1, tle2"))
    ensures !Incomplete(Tles, keys) && Incomplete(Keplerians, keys) ==>
      r == Err(KeyError(GroupMessage + "alt_periapsis, inclination"))
    ensures r.Ok? ==> (r.value == Some(BothWarning) <==> AllPresent(Tles, keys) && AllPresent(Keplerians, keys))
    ensures r.Ok? ==> (r.value.None? <==> !(AllPresent(Tles, keys) && AllPresent(Keplerians, keys)))
    ensures !SomePresent(Tles, keys) && !SomePresent(Keplerians, keys) ==> r == Ok(None)
  {
    GroupsSpelled(keys);
    match FirstIncomplete(Groups, keys)
    case Some(i) => Err(KeyError(GroupMessage + Join(Groups[i], ", ")))
    case None =>
      if AllPresent(Tles, keys) && AllPresent(Keplerians, keys) then Ok(Some(BothWarning))
      else Ok(None)
  }

  /** The two groups written out: their keywords and their joined names. */
  lemma GroupsSpelled(keys: set<string>)
    ensures Join(Tles, ", ") == "tle1, tle2"
    ensures Join(Keplerians, ", ") == "alt_periapsis, inclination"
    ensures SomePresent(Tles, keys) <==> "tle1" in keys || "tle2" in keys
    ensures AllPresent(Tles, keys) <==> "tle1" in keys && "tle2" in keys
    ensures SomePresent(Keplerians, keys) <==> "alt_periapsis" in keys || "inclination" in keys
    ensures AllPresent(Keplerians, keys) <==> "alt_periapsis" in keys && "inclination" in keys
    ensures Groups[0] == Tles && Groups[1] == Keplerians && |Groups| == 2
  {
    assert Tles[1..] == ["tle2"];
    assert Keplerians[1..] == ["inclination"];
    if "tle1" in keys {
      assert Tles[0] in keys;
    }
    if "tle2" in keys {
      assert Tles[1] in keys;
    }
    if "alt_periapsis" in keys {
      assert Keplerians[0] in keys;
    }
    if "inclination" in keys {
      assert Keplerians[1] in keys;
    }
  }

  /** Mean radius (km), mass (kg) and the gravitational constant (m³ kg⁻¹ s⁻²). */
  datatype Constants = Constants(radius: real, mass: real, gravity: real)

  /** The one row of the table. */
  const Earth := Constants(6371.2, 5.9722e24, 6.6743e-11)

  /** `_get_constants`: only the exact name "earth" is in the table. */
  function GetConstants(planet: string): (r: Result<Constants, Exception>)
    ensures r.Ok? <==> planet == "earth"
    ensures r.Ok? ==> r.value == Earth && 0.0 < r.value.radius && 0.0 < r.value.gravity * r.value.mass
    ensures r.Err? ==> r.error == KeyError(planet + " is not yet a supported planet!")
  {
    if planet == "earth" then Ok(Earth)
    else Err(KeyError(planet + " is not yet a supported planet!"))
  }

  function Cube(v: real): real {
    v * v * v
  }

  lemma CubeSign(v: real)
    ensures 0.0 < v ==> 0.0 < Cube(v)
    ensures v < 0.0 ==> Cube(v) < 0.0
  {
    if v != 0.0 {
      SquarePositive(v);
      assert Cube(v) == Product(v, v) * v;
    }
  }

  /** Eccentricity and mean motion (rad/minute). A missing mean motion is the NaN that
      `np.sqrt` returns for a negative argument. */
  datatype Elements = Elements(eccentricity: real, meanMotion: Option<real>)

  /** Periapsis and apoapsis altitudes (km). */
  datatype Altitudes = Altitudes(periapsis: real, apoapsis: real)

  /** Kepler's third law for a mean radius `a` (km) and a mean motion `n` (rad/minute):
      (n / 60)² (1000 a)³ = G M. */
  predicate Kepler(c: Constants, a: real, n: real) {
    Cube(1000.0 * a) * (n / 60.0) * (n / 60.0) == c.gravity * c.mass
  }

  /** The mean motion for mean radius `semimajor` (km), in rad/minute: `np.sqrt` of
      G M / (1000 a)³, times 60. The square root of a negative number is NaN. */
  function MeanMotion(c: Constants, semimajor: real, sqrt: real -> real): (n: Option<real>)
    requires IsSqrt(sqrt) && 0.0 < c.gravity * c.mass && semimajor != 0.0
    ensures n.Some? <==> 0.0 < semimajor
    ensures n.Some? ==> 0.0 < n.value && Kepler(c, semimajor, n.value)
  {
    var k := Cube(1000.0 * semimajor);
    var x := c.gravity * c.mass / k;
    CubeSign(1000.0 * semimajor);
    if x < 0.0 then None
    else
      assert 0.0 < x && k * x == c.gravity * c.mass;
      SqrtPositive(sqrt, x);
      Some(sqrt(x) * 60.0)
  }

  /** `convert_to_keplerian`. A missing apoapsis means a circular orbit; radii that sum
      to zero divide by zero. The result is the orbit with those apsides: the apoapsis
      and periapsis radii are a (1 + e) and a (1 - e) for the mean radius a, and the
      mean motion obeys Kepler's third law, NaN exactly when a is negative. */
  function ConvertToKeplerian(altPeriapsis: real, altApoapsis: Option<real>, planet: string,
                              sqrt: real -> real): (r: Result<Elements, Exception>)
    requires IsSqrt(sqrt)
    ensures var altA := if altApoapsis.Some? then altApoapsis.value else altPeriapsis;
      r.Ok? <==> planet == "earth" && Semimajor(altPeriapsis, altA) != 0.0
    ensures planet != "earth" ==> r == Err(KeyError(planet + " is not yet a supported planet!"))
    ensures r.Err? && planet == "earth" ==> r == Err(ZeroDivisionError)
    ensures var altA := if altApoapsis.Some? then altApoapsis.value else altPeriapsis;
      var a := Semimajor(altPeriapsis, altA);
      r.Ok? ==>
        a * (1.0 + r.value.eccentricity) == altA + Earth.radius
        && a * (1.0 - r.value.eccentricity) == altPeriapsis + Earth.radius
        && (r.value.meanMotion.Some? <==> 0.0 < a)
        && (r.value.meanMotion.Some? ==>
              0.0 < r.value.meanMotion.value && Kepler(Earth, a, r.value.meanMotion.value))
  {
    match GetConstants(planet)
    case Err(e) => Err(e)
    case Ok(c) =>
      var altA := if altApoapsis.Some? then altApoapsis.value else altPeriapsis;
      var radA := altA + c.radius;
      var radP := altPeriapsis + c.radius;
      var semimajor := 0.5 * (radA + radP);
      if radA + radP == 0.0 then Err(ZeroDivisionError)
      else
        ApsidesFromEccentricity(radA, radP);
        Ok(Elements((radA - radP) / (radA + radP), MeanMotion(c, semimajor, sqrt)))
  }

  /** The eccentricity (rA - rP) / (rA + rP) recovers both radii from their mean. */
  lemma ApsidesFromEccentricity(radA: real, radP: real)
    requires radA + radP != 0.0
    ensures var e := (radA - radP) / (radA + radP);
      0.5 * (radA + radP) * (1.0 + e) == radA && 0.5 * (radA + radP) * (1.0 - e) == radP
  {
    var e := (radA - radP) / (radA + radP);
    assert e * (radA + radP) == radA - radP;
    assert 0.5 * (radA + radP) * (1.0 + e) == 0.5 * (radA + radP) + 0.5 * (e * (radA + radP));
    assert 0.5 * (radA + radP) * (1.0 - e) == 0.5 * (radA + radP) - 0.5 * (e * (radA + radP));
  }

  /** The mean radius (km) for mean motion `n` (rad/minute): the cube root of
      G M / (n / 60)², in metres, over 1000. It is the one positive radius that obeys
      Kepler's third law. */
  function SemimajorOf(c: Constants, n: real, cbrt: real -> real): (a: real)
    requires IsCubeRoot(cbrt) && 0.0 < c.gravity * c.mass && n != 0.0
    ensures 0.0 < a && Kepler(c, a, n)
  {
    SemimajorBounds(c, n, cbrt);
    cbrt(GravityOver(c, n)) / 1000.0
  }

  /** G M / (n / 60)², in m³/s² over s⁻². */
  function GravityOver(c: Constants, n: real): real
    requires n != 0.0
  {
    SquarePositive(n / 60.0);
    c.gravity * c.mass / Product(n / 60.0, n / 60.0)
  }

  lemma SemimajorBounds(c: Constants, n: real, cbrt: real -> real)
    requires IsCubeRoot(cbrt) && 0.0 < c.gravity * c.mass && n != 0.0
    ensures var a := cbrt(GravityOver(c, n)) / 1000.0; 0.0 < a && Kepler(c, a, n)
  {
    var w := n / 60.0;
    var s := GravityOver(c, n);
    SquarePositive(w);
    assert 0.0 < s && s * Product(w, w) == c.gravity * c.mass;
    var q := cbrt(s);
    assert 0.0 < q && q * q * q == s;
    assert 1000.0 * (q / 1000.0) == q;
  }

  /** No other positive radius obeys Kepler's third law for the same mean motion. */
  lemma SemimajorUnique(c: Constants, n: real, cbrt: real -> real, b: real)
    requires IsCubeRoot(cbrt) && 0.0 < c.gravity * c.mass && n != 0.0
    requires 0.0 < b && Kepler(c, b, n)
    ensures SemimajorOf(c, n, cbrt) == b
  {
    var w := n / 60.0;
    var s := GravityOver(c, n);
    SquarePositive(w);
    var k := Cube(1000.0 * b);
    assert k * Product(w, w) == c.gravity * c.mass;
    assert s * Product(w, w) == c.gravity * c.mass;
    assert s == k;
    CubeRootUnique(cbrt, s, 1000.0 * b);
  }

  /** `convert_from_keplerian`. A zero mean motion divides by zero. */
  function ConvertFromKeplerian(eccentricity: real, meanMotion: real, planet: string,
                                cbrt: real -> real): (r: Result<Altitudes, Exception>)
    requires IsCubeRoot(cbrt)
    ensures r.Ok? <==> planet == "earth" && meanMotion != 0.0
    ensures r.Ok? ==>
      var c := GetConstants(planet).value;
      var a := (r.value.periapsis + r.value.apoapsis) / 2.0 + c.radius;
      0.0 < a && Kepler(c, a, meanMotion)
      && r.value.apoapsis - r.value.periapsis == 2.0 * a * eccentricity
  {
    match GetConstants(planet)
    case Err(e) => Err(e)
    case Ok(c) =>
      if meanMotion == 0.0 then Err(ZeroDivisionError)
      else
        var semimajor := SemimajorOf(c, meanMotion, cbrt);
        var radA := semimajor * (1.0 + eccentricity);
        var radP := semimajor * (1.0 - eccentricity);
        Ok(Altitudes(radP - c.radius, radA - c.radius))
  }

  /** Both converters reject every planet but "earth" with the table's KeyError. */
  lemma UnknownPlanetRejected(planet: string, altPeriapsis: real, altApoapsis: Option<real>,
                              eccentricity: real, meanMotion: real,
                              sqrt: real -> real, cbrt: real -> real)
    requires IsSqrt(sqrt) && IsCubeRoot(cbrt) && planet != "earth"
    ensures ConvertToKeplerian(altPeriapsis, altApoapsis, planet, sqrt)
      == Err(KeyError(planet + " is not yet a supported planet!"))
    ensures ConvertFromKeplerian(eccentricity, meanMotion, planet, cbrt)
      == Err(KeyError(planet + " is not yet a supported planet!"))
  {
  }

  /** The mean radius of the Earth orbit with the given altitudes. */
  function Semimajor(altPeriapsis: real, altApoapsis: real): real {
    0.5 * ((altApoapsis + Earth.radius) + (altPeriapsis + Earth.radius))
  }

  /** Without an apoapsis the orbit is circular: the eccentricity is exactly zero. */
  lemma CircularWithoutApoapsis(altPeriapsis: real, planet: string, sqrt: real -> real)
    requires IsSqrt(sqrt)
    ensures var r := ConvertToKeplerian(altPeriapsis, None, planet, sqrt);
      r.Ok? ==> r.value.eccentricity == 0.0
  {
  }

  /** For altitudes with 0 <= periapsis <= apoapsis the conversion succeeds, the
      eccentricity lies in [0, 1), and the mean motion is defined. */
  lemma EccentricityInUnitInterval(altPeriapsis: real, altApoapsis: real, sqrt: real -> real)
    requires IsSqrt(sqrt)
    requires 0.0 <= altPeriapsis <= altApoapsis
    ensures var r := ConvertToKeplerian(altPeriapsis, Some(altApoapsis), "earth", sqrt);
      r.Ok? && 0.0 <= r.value.eccentricity < 1.0 && r.value.meanMotion.Some?
  {
    var radA, radP := altApoapsis + 6371.2, altPeriapsis + 6371.2;
    assert 0.0 < radP <= radA;
    var e := (radA - radP) / (radA + radP);
    assert e * (radA + radP) == radA - radP;
  }

  /** For a non-zero mean radius the conversion succeeds; the mean motion is defined
      exactly when the radius is positive, and then it is positive and obeys Kepler's
      third law. */
  lemma MeanMotionObeysKepler(altPeriapsis: real, altApoapsis: real, sqrt: real -> real)
    requires IsSqrt(sqrt)
    requires Semimajor(altPeriapsis, altApoapsis) != 0.0
    ensures var r := ConvertToKeplerian(altPeriapsis, Some(altApoapsis), "earth", sqrt);
      var a := Semimajor(altPeriapsis, altApoapsis);
      r.Ok? && (r.value.meanMotion.Some? <==> 0.0 < a)
      && (r.value.meanMotion.Some? ==>
            0.0 < r.value.meanMotion.value && Kepler(Earth, a, r.value.meanMotion.value))
  {
  }

  /** Converting altitudes to elements and back gives the altitudes again, exactly,
      whenever the mean radius is positive. */
  lemma RoundTrip(altPeriapsis: real, altApoapsis: real, sqrt: real -> real, cbrt: real -> real)
    requires IsSqrt(sqrt) && IsCubeRoot(cbrt)
    requires 0.0 < Semimajor(altPeriapsis, altApoapsis)
    ensures var r := ConvertToKeplerian(altPeriapsis, Some(altApoapsis), "earth", sqrt);
      r.Ok? && r.value.meanMotion.Some?
      && ConvertFromKeplerian(r.value.eccentricity, r.value.meanMotion.value, "earth", cbrt)
         == Ok(Altitudes(altPeriapsis, altApoapsis))
  {
    var a := Semimajor(altPeriapsis, altApoapsis);
    var r := ConvertToKeplerian(altPeriapsis, Some(altApoapsis), "earth", sqrt);
    var e, n := r.value.eccentricity, r.value.meanMotion.value;
    SemimajorUnique(Earth, n, cbrt, a);
    var radA, radP := altApoapsis + 6371.2, altPeriapsis + 6371.2;
    assert e * (radA + radP) == radA - radP;
    assert a * (1.0 + e) == radA;
    assert a * (1.0 - e) == radP;
    assert r.Ok? && r.value.meanMotion.Some?;
    var b := ConvertFromKeplerian(e, n, "earth", cbrt);
    assert SemimajorOf(Earth, n, cbrt) == a;
    assert b.Ok?;
    assert b.value.periapsis == altPeriapsis;
    assert b.value.apoapsis == altApoapsis;
  }

  /** The eccentricity the unit test expects for perigee 400 km and apogee 850 km is
      met within its relative tolerance of 1e-6. */
  lemma TestEccentricity(sqrt: real -> real)
    requires IsSqrt(sqrt)
    ensures var r := ConvertToKeplerian(400.0, Some(850.0), "earth", sqrt);
      var expected := 0.032160315599897085;
      r.Ok? && expected - 1e-6 * r.value.eccentricity < r.value.eccentricity
      && r.value.eccentricity < expected + 1e-6 * r.value.eccentricity
  {
    assert (850.0 + 6371.2 - (400.0 + 6371.2)) / ((850.0 + 6371.2) + (400.0 + 6371.2)) == 450.0 / 13992.4;
  }

  /** The mean motion the same unit test expects, 0.06474416985702029 rad/minute, is not
      met within 1e-6 relative: with the table's constants the mean motion stays below
      0.0647334 rad/minute. */
  lemma TestMeanMotionOutsideTolerance(sqrt: real -> real)
    requires IsSqrt(sqrt)
    ensures var r := ConvertToKeplerian(400.0, Some(850.0), "earth", sqrt);
      var expected := 0.06474416985702029;
      r.Ok? && r.value.meanMotion.Some?
      && r.value.meanMotion.value < 0.0647334
      && expected - r.value.meanMotion.value > 1e-6 * r.value.meanMotion.value
  {
    var a := Semimajor(400.0, 850.0);
    assert a == 6996.2;
    var x := 6.6743e-11 * 5.9722e24 / Cube(1000.0 * a);
    var u := 0.0647334 / 60.0;
    assert x <= Product(u, u);
    SqrtAtMost(sqrt, x, u);
    SqrtPositive(sqrt, x);
  }
}
