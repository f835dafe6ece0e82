/** The Horizontal Wind Model part of the empirical-model methods: the zonal (east) and
    meridional unit vectors at the spacecraft position, the model winds as columns, the
    total wind vector they compose and its expression in the spacecraft frame. The wind
    model itself is a parameter; it is missing when the library that provides it is not
    installed. */
module Empirical {
  import opened Wrappers
  import opened RealMath
  import opened Vectors
  import opened Frames
  import opened Spacecraft

  const ZonalUnitLabels: Labels :=
    Labels("unit_zonal_wind_ecef_x", "unit_zonal_wind_ecef_y", "unit_zonal_wind_ecef_z")
  const MeridionalUnitLabels: Labels :=
    Labels("unit_mer_wind_ecef_x", "unit_mer_wind_ecef_y", "unit_mer_wind_ecef_z")
  const TotalWind: Labels := Labels("total_wind_x", "total_wind_y", "total_wind_z")
  const SimulatedWind: Labels := Labels("sim_wind_sc_x", "sim_wind_sc_y", "sim_wind_sc_z")
  const ZonalWind := "zonal_wind"
  const MeridionalWind := "meridional_wind"

  /** The warning issued when the wind model is not installed. */
  const PyglowWarning :=
    "pyglow must be installed to use this function.  See instructions at https://github.com/pysat/pysatMissions"

  /** The key error pandas raises when the two wind columns are selected from the table
      built out of an empty list of model runs. */
  const NoWindColumns := "['zonal_wind', 'meridional_wind']"

  /** The two winds one model run gives, in m/s. */
  datatype Wind = Wind(zonal: Option<real>, meridional: Option<real>)

  /** A wind model run at a time, latitude, longitude and altitude. */
  type WindModel = (real, Option<real>, Option<real>, Option<real>) -> Wind

  /** The horizontal direction perpendicular to the position, pointing east. */
  function East(x: real, y: real): Vec3 {
    Vec3(-y, x, 0.0)
  }

  /** The zonal unit vector at one sample of the position: x and y divided by the
      horizontal distance from the axis, z set to zero times the position's x. A NaN x or
      y, or a position on the polar axis (0/0), leaves x and y NaN; z is NaN only when the
      position's x is. */
  function ZonalUnit(pos: Triple, sqrt: real -> real): (t: Triple)
    requires IsSqrt(sqrt)
    ensures t.z == (if pos.x.Some? then Some(0.0) else None)
    ensures t.x.Some? <==> pos.x.Some? && pos.y.Some? && (pos.x.value != 0.0 || pos.y.value != 0.0)
    ensures t.y.Some? <==> t.x.Some?
    ensures t.x.Some? ==>
      var u, e := AsVector(t).value, East(pos.x.value, pos.y.value);
      Norm2(u) == 1.0 && Cross(u, e) == Zero && 0.0 < Dot(u, e)
      && u.x * pos.x.value + u.y * pos.y.value == 0.0
  {
    var z := if pos.x.Some? then Some(0.0) else None;
    if pos.x.Some? && pos.y.Some? then
      var e := East(pos.x.value, pos.y.value);
      var u := Normalize(Some(e), sqrt);
      if u.Some? then
        EastPerpendicular(u.value, pos.x.value, pos.y.value, sqrt);
        Triple(Some(u.value.x), Some(u.value.y), z)
      else Triple(None, None, z)
    else Triple(None, None, z)
  }

  /** The normalised east direction is horizontal and perpendicular to the position. */
  lemma EastPerpendicular(u: Vec3, x: real, y: real, sqrt: real -> real)
    requires IsSqrt(sqrt) && Normalize(Some(East(x, y)), sqrt) == Some(u)
    ensures u.z == 0.0 && u.x * x + u.y * y == 0.0
  {
    var e := East(x, y);
    NormalizeScales(Some(e), sqrt);
    var k := 1.0 / sqrt(Norm2(e));
    assert u == Scale(k, e);
    assert u.x * x + u.y * y == k * (-y * x + x * y);
  }

  /** The meridional vector at one sample: the unit vector towards the Earth's centre
      crossed with the zonal unit vector. */
  function Meridional(pos: Triple, sqrt: real -> real): Option<Vec3>
    requires IsSqrt(sqrt)
  {
    CrossProduct(Nadir(AsVector(pos), sqrt), AsVector(ZonalUnit(pos, sqrt)))
  }

  /** Where the position is present and off the polar axis, the meridional vector is a
      unit vector perpendicular to the position and to the zonal vector, and its z
      component is negative: it points south, although the wind it multiplies is
      described as positive north. Elsewhere it is entirely NaN. */
  lemma MeridionalBasis(pos: Triple, sqrt: real -> real)
    requires IsSqrt(sqrt)
    ensures Meridional(pos, sqrt).Some? <==>
      AsVector(pos).Some? && (pos.x.value != 0.0 || pos.y.value != 0.0)
    ensures Meridional(pos, sqrt).Some? ==>
      var m, p, u := Meridional(pos, sqrt).value, AsVector(pos).value, AsVector(ZonalUnit(pos, sqrt)).value;
      Norm2(m) == 1.0 && Dot(m, p) == 0.0 && Dot(m, u) == 0.0 && m.z < 0.0
  {
    var p := AsVector(pos);
    if p.Some? && (pos.x.value != 0.0 || pos.y.value != 0.0) {
      assert p.value != Zero;
      MeridionalUnit(p.value, sqrt);
    } else if p.Some? {
      assert ZonalUnit(pos, sqrt).x.None?;
    }
  }

  lemma MeridionalUnit(p: Vec3, sqrt: real -> real)
    requires IsSqrt(sqrt) && (p.x != 0.0 || p.y != 0.0)
    ensures var pos := Triple(Some(p.x), Some(p.y), Some(p.z));
      Meridional(pos, sqrt).Some?
      && var m, u := Meridional(pos, sqrt).value, AsVector(ZonalUnit(pos, sqrt)).value;
      Norm2(m) == 1.0 && Dot(m, p) == 0.0 && Dot(m, u) == 0.0 && m.z < 0.0
  {
    var pos := Triple(Some(p.x), Some(p.y), Some(p.z));
    var e := East(p.x, p.y);
    assert p != Zero;
    NormalizeScales(Some(Neg(p)), sqrt);
    NormalizeScales(Some(e), sqrt);
    var j, k := 1.0 / sqrt(Norm2(Neg(p))), 1.0 / sqrt(Norm2(e));
    var n, u := Scale(j, Neg(p)), Scale(k, e);
    assert Nadir(AsVector(pos), sqrt) == Some(n);
    assert AsVector(ZonalUnit(pos, sqrt)) == Some(u);
    var m := Cross(n, u);
    assert Meridional(pos, sqrt) == Some(m);
    // perpendicular to the position
    CrossOrthogonal(n, u);
    DotSymmetric(n, m);
    DotScaleLeft(j, Neg(p), m);
    assert Dot(Neg(p), m) == -Dot(p, m);
    DotSymmetric(p, m);
    // unit length
    DotScaleLeft(j, Neg(p), u);
    DotScaleRight(k, Neg(p), e);
    assert Dot(Neg(p), e) == 0.0;
    Lagrange(n, u);
    assert Norm2(m) == 1.0 * 1.0 - 0.0 * 0.0;
    // pointing south
    MeridionalDown(p, j, k);
  }

  /** The z component of (j · −p) × (k · east) is −j·k·(x² + y²). */
  lemma MeridionalDown(p: Vec3, j: real, k: real)
    requires 0.0 < j && 0.0 < k && (p.x != 0.0 || p.y != 0.0)
    ensures Cross(Scale(j, Neg(p)), Scale(k, East(p.x, p.y))).z < 0.0
  {
    var e := East(p.x, p.y);
    CrossScale(j, Neg(p), k, e);
    var w := Product(p.x, p.x) + Product(p.y, p.y);
    assert Cross(Neg(p), e).z == -w;
    SquareNonNegative(p.x);
    SquareNonNegative(p.y);
    if p.x != 0.0 {
      SquarePositive(p.x);
    } else {
      SquarePositive(p.y);
    }
    assert Cross(Scale(j, Neg(p)), Scale(k, e)).z == -Product(j * k, w);
    ProductPositive(j * k, w);
  }

  /** At the point (1, 0, 0) the zonal vector is (0, 1, 0), east, and the meridional
      vector is (0, 0, −1), south. */
  lemma MeridionalAtPrimeMeridian(sqrt: real -> real)
    requires IsSqrt(sqrt)
    ensures Meridional(Triple(Some(1.0), Some(0.0), Some(0.0)), sqrt) == Some(Vec3(0.0, 0.0, -1.0))
  {
    var u, n := Vec3(0.0, 1.0, 0.0), Vec3(-1.0, 0.0, 0.0);
    NadirAtPrimeMeridian(sqrt);
    ZonalAtPrimeMeridian(sqrt);
    MeridionalOf(Triple(Some(1.0), Some(0.0), Some(0.0)), sqrt, n, u);
    assert Cross(n, u) == Vec3(0.0, 0.0, -1.0);
  }

  lemma MeridionalOf(pos: Triple, sqrt: real -> real, nadir: Vec3, zonal: Vec3)
    requires IsSqrt(sqrt)
    requires Nadir(AsVector(pos), sqrt) == Some(nadir) && AsVector(ZonalUnit(pos, sqrt)) == Some(zonal)
    ensures Meridional(pos, sqrt) == Some(Cross(nadir, zonal))
  {
  }

  lemma ZonalAtPrimeMeridian(sqrt: real -> real)
    requires IsSqrt(sqrt)
    ensures ZonalUnit(Triple(Some(1.0), Some(0.0), Some(0.0)), sqrt) == Triple(Some(0.0), Some(1.0), Some(0.0))
    ensures AsVector(ZonalUnit(Triple(Some(1.0), Some(0.0), Some(0.0)), sqrt)) == Some(Vec3(0.0, 1.0, 0.0))
  {
    assert AsVector(Triple(Some(0.0), Some(1.0), Some(0.0))) == Some(Vec3(0.0, 1.0, 0.0));
    SqrtUnique(sqrt, 1.0, 1.0);
    var e := East(1.0, 0.0);
    assert Norm2(e) == 1.0;
    assert Scale(1.0 / 1.0, e) == Vec3(0.0, 1.0, 0.0);
    assert Normalize(Some(e), sqrt) == Some(Vec3(0.0, 1.0, 0.0));
  }

  lemma NadirAtPrimeMeridian(sqrt: real -> real)
    requires IsSqrt(sqrt)
    ensures Nadir(AsVector(Triple(Some(1.0), Some(0.0), Some(0.0))), sqrt) == Some(Vec3(-1.0, 0.0, 0.0))
  {
    assert AsVector(Triple(Some(1.0), Some(0.0), Some(0.0))) == Some(Vec3(1.0, 0.0, 0.0));
    SqrtUnique(sqrt, 1.0, 1.0);
    var n := Vec3(-1.0, 0.0, 0.0);
    assert Norm2(n) == 1.0;
    assert Scale(1.0 / 1.0, n) == n;
    assert Negated(Some(Vec3(1.0, 0.0, 0.0))) == Some(n);
  }

  /** The model winds at each sample, in the order of the index. */
  function Winds(model: WindModel, index: seq<real>, lat: Column, lon: Column, alt: Column): (w: seq<Wind>)
    requires |lat| == |index| && |lon| == |index| && |alt| == |index|
    ensures |w| == |index|
  {
    seq(|index|, i requires 0 <= i < |index| => model(index[i], lat[i], lon[i], alt[i]))
  }

  function ZonalColumn(w: seq<Wind>): (c: Column)
    ensures |c| == |w| && forall i :: 0 <= i < |w| ==> c[i] == w[i].zonal
  {
    seq(|w|, i requires 0 <= i < |w| => w[i].zonal)
  }

  function MeridionalColumn(w: seq<Wind>): (c: Column)
    ensures |c| == |w| && forall i :: 0 <= i < |w| ==> c[i] == w[i].meridional
  {
    seq(|w|, i requires 0 <= i < |w| => w[i].meridional)
  }

  /** The unit-vector labels are distinct from each other and from the position. */
  lemma UnitLabelsApart()
    ensures Distinct(ZonalUnitLabels) && Distinct(MeridionalUnitLabels)
    ensures Apart(ZonalUnitLabels, Position) && Apart(MeridionalUnitLabels, Position)
    ensures Apart(MeridionalUnitLabels, ZonalUnitLabels) && Apart(ZonalUnitLabels, MeridionalUnitLabels)
  {
  }

  /** The two wind columns are neither position nor unit-vector columns. */
  lemma WindColumnsApart()
    ensures !Labelled(ZonalWind, Position) && !Labelled(MeridionalWind, Position)
    ensures !Labelled(ZonalWind, ZonalUnitLabels) && !Labelled(ZonalWind, MeridionalUnitLabels)
    ensures !Labelled(MeridionalWind, ZonalUnitLabels) && !Labelled(MeridionalWind, MeridionalUnitLabels)
  {
  }

  /** The total and simulated wind labels are distinct from each other and from the
      wind and unit-vector columns. */
  lemma TotalLabelsApart()
    ensures Distinct(TotalWind) && Distinct(SimulatedWind)
    ensures Apart(SimulatedWind, TotalWind)
    ensures !Labelled(ZonalWind, TotalWind) && !Labelled(MeridionalWind, TotalWind)
    ensures Apart(TotalWind, ZonalUnitLabels) && Apart(TotalWind, MeridionalUnitLabels)
  {
  }

  /** `add_hwm_winds_and_ecef_vectors`. The wind model runs once per sample, in order;
      its winds become the `zonal_wind` and `meridional_wind` columns. On an empty
      instrument the model table has no columns, and selecting the two winds from it
      raises before anything is written. When the model is not installed the first run
      fails, a warning is issued and the wind columns are not added, but the unit vectors
      are. */
  method AddHwmWindsAndEcefVectors(inst: Instrument, model: Option<WindModel>,
                                   lat: string, lon: string, alt: string, sqrt: real -> real)
    returns (r: Outcome<Exception>, warning: Option<string>)
    requires IsSqrt(sqrt) && inst.Valid()
    requires lat in inst.data && lon in inst.data && alt in inst.data
    requires HasColumns(inst.data, Position)
    modifies inst`data
    ensures inst.Valid()
    ensures r.Fail? <==> |inst.index| == 0
    ensures r.Fail? ==> r.error == KeyError(NoWindColumns) && inst.data == old(inst.data)
    ensures warning.Some? <==> model.None? && 0 < |inst.index|
    ensures warning.Some? ==> warning.value == PyglowWarning
    ensures r.Pass? ==>
      inst.data == HwmData(old(inst.data), model, inst.index, lat, lon, alt, sqrt)
  {
    var n := |inst.index|;
    warning := None;
    if n == 0 {
      // No model run, so no failure of the missing model either.
      return Fail(KeyError(NoWindColumns)), None;
    }
    r := Pass;
    if model.None? {
      warning := Some(PyglowWarning);
    } else {
      var d := inst.data;
      var runs := RunModel(model.value, inst.index, d[lat], d[lon], d[alt]);
      inst.SetColumn(ZonalWind, ZonalColumn(runs));
      inst.SetColumn(MeridionalWind, MeridionalColumn(runs));
    }
    AddUnitVectors(inst, sqrt);
  }

  /** The data after the model winds are stored: unchanged when the model is missing. */
  function WithWinds(d: map<string, Column>, model: Option<WindModel>, index: seq<real>,
                     lat: string, lon: string, alt: string): (e: map<string, Column>)
    requires Aligned(d, |index|) && lat in d && lon in d && alt in d
    ensures Aligned(e, |index|)
  {
    if model.None? then d
    else
      var w := Winds(model.value, index, d[lat], d[lon], d[alt]);
      d[ZonalWind := ZonalColumn(w)][MeridionalWind := MeridionalColumn(w)]
  }

  /** The data after `add_hwm_winds_and_ecef_vectors` succeeds. */
  function HwmData(d: map<string, Column>, model: Option<WindModel>, index: seq<real>,
                   lat: string, lon: string, alt: string, sqrt: real -> real): (e: map<string, Column>)
    requires IsSqrt(sqrt) && Aligned(d, |index|) && lat in d && lon in d && alt in d && HasColumns(d, Position)
    ensures Aligned(e, |index|)
  {
    WindColumnsApart();
    UnitVectors(WithWinds(d, model, index, lat, lon, alt), |index|, sqrt)
  }

  /** The columns added are the six unit-vector columns and, when the model is present,
      the two winds. */
  lemma HwmKeys(d: map<string, Column>, model: Option<WindModel>, index: seq<real>,
                lat: string, lon: string, alt: string, sqrt: real -> real)
    requires IsSqrt(sqrt) && Aligned(d, |index|) && lat in d && lon in d && alt in d && HasColumns(d, Position)
    ensures var e := HwmData(d, model, index, lat, lon, alt, sqrt);
      e.Keys == d.Keys + Names(ZonalUnitLabels) + Names(MeridionalUnitLabels)
                + (if model.Some? then {ZonalWind, MeridionalWind} else {})
  {
    UnitVectorsKeys(WithWinds(d, model, index, lat, lon, alt), |index|, sqrt);
  }

  /** The winds hold the model's output sample by sample, and every column other than
      the ones written is unchanged. */
  lemma HwmKeeps(d: map<string, Column>, model: Option<WindModel>, index: seq<real>,
                 lat: string, lon: string, alt: string, sqrt: real -> real)
    requires IsSqrt(sqrt) && Aligned(d, |index|) && lat in d && lon in d && alt in d && HasColumns(d, Position)
    ensures var e := HwmData(d, model, index, lat, lon, alt, sqrt);
      forall k :: (k in d && !Labelled(k, ZonalUnitLabels) && !Labelled(k, MeridionalUnitLabels)
                   && (model.None? || (k != ZonalWind && k != MeridionalWind))) ==> e[k] == d[k]
    ensures model.Some? ==>
      var e, w := HwmData(d, model, index, lat, lon, alt, sqrt), Winds(model.value, index, d[lat], d[lon], d[alt]);
      ZonalWind in e && MeridionalWind in e && e[ZonalWind] == ZonalColumn(w) && e[MeridionalWind] == MeridionalColumn(w)
  {
    WindColumnsApart();
    var mid := WithWinds(d, model, index, lat, lon, alt);
    UnitVectorsKeys(mid, |index|, sqrt);
    var e := UnitVectors(mid, |index|, sqrt);
    forall k | k in d && !Labelled(k, ZonalUnitLabels) && !Labelled(k, MeridionalUnitLabels)
               && (model.None? || (k != ZonalWind && k != MeridionalWind))
      ensures e[k] == d[k]
    {
      assert k in mid && mid[k] == d[k];
    }
  }

  /** The unit vectors written are those at the positions the instrument held before. */
  lemma HwmUnitVectors(d: map<string, Column>, model: Option<WindModel>, index: seq<real>,
                       lat: string, lon: string, alt: string, sqrt: real -> real)
    requires IsSqrt(sqrt) && Aligned(d, |index|) && lat in d && lon in d && alt in d && HasColumns(d, Position)
    ensures UnitVectorsOf(d, HwmData(d, model, index, lat, lon, alt, sqrt), |index|, sqrt)
  {
    WindColumnsApart();
    var n := |index|;
    var mid := WithWinds(d, model, index, lat, lon, alt);
    var e := UnitVectors(mid, n, sqrt);
    UnitVectorsKeys(mid, n, sqrt);
    forall i | 0 <= i < n
      ensures Sample(e, ZonalUnitLabels, i) == ZonalUnit(Sample(d, Position, i), sqrt)
      ensures Sample(e, MeridionalUnitLabels, i) == FromVector(Meridional(Sample(d, Position, i), sqrt))
    {
      UnitVectorsSample(mid, n, sqrt, i);
      assert Sample(mid, Position, i) == Sample(d, Position, i);
    }
  }

  /** Every sample of the unit-vector columns of `after` is the zonal, then the
      meridional, unit vector at the same sample of the position in `before`. */
  predicate UnitVectorsOf(before: map<string, Column>, after: map<string, Column>, n: nat, sqrt: real -> real)
    requires IsSqrt(sqrt)
  {
    Aligned(before, n) && Aligned(after, n) && HasColumns(before, Position)
    && HasColumns(after, ZonalUnitLabels) && HasColumns(after, MeridionalUnitLabels)
    && forall i :: 0 <= i < n ==>
         Sample(after, ZonalUnitLabels, i) == ZonalUnit(Sample(before, Position, i), sqrt)
         && Sample(after, MeridionalUnitLabels, i) == FromVector(Meridional(Sample(before, Position, i), sqrt))
  }

  /** One model run per sample, in the order of the index. */
  method RunModel(model: WindModel, index: seq<real>, lat: Column, lon: Column, alt: Column)
    returns (runs: seq<Wind>)
    requires |lat| == |index| && |lon| == |index| && |alt| == |index|
    ensures runs == Winds(model, index, lat, lon, alt)
  {
    runs := [];
    var i := 0;
    while i < |index|
      invariant 0 <= i <= |index|
      invariant |runs| == i
      invariant forall j :: 0 <= j < i ==> runs[j] == model(index[j], lat[j], lon[j], alt[j])
    {
      runs := runs + [model(index[i], lat[i], lon[i], alt[i])];
      i := i + 1;
    }
  }

  /** The zonal unit vector at every sample of the position. */
  function ZonalUnitColumn(d: map<string, Column>, n: nat, sqrt: real -> real): (c: seq<Triple>)
    requires IsSqrt(sqrt) && Aligned(d, n) && HasColumns(d, Position)
    ensures |c| == n
  {
    seq(n, i requires 0 <= i < n => ZonalUnit(Sample(d, Position, i), sqrt))
  }

  /** The meridional vector at every sample, from the position and the zonal unit
      columns already stored. */
  function MeridionalUnitColumn(d: map<string, Column>, n: nat, sqrt: real -> real): (c: seq<Triple>)
    requires IsSqrt(sqrt) && Aligned(d, n) && HasColumns(d, Position) && HasColumns(d, ZonalUnitLabels)
    ensures |c| == n
  {
    seq(n, i requires 0 <= i < n =>
      FromVector(CrossProduct(Nadir(Vector(d, Position, i), sqrt), Vector(d, ZonalUnitLabels, i))))
  }

  /** Writing the zonal unit columns. */
  function ZonalStep(d: map<string, Column>, n: nat, sqrt: real -> real): (e: map<string, Column>)
    requires IsSqrt(sqrt) && Aligned(d, n) && HasColumns(d, Position)
    ensures Aligned(e, n) && HasColumns(e, ZonalUnitLabels) && HasColumns(e, Position)
    ensures e.Keys == d.Keys + Names(ZonalUnitLabels)
    ensures forall k :: k in d && !Labelled(k, ZonalUnitLabels) ==> e[k] == d[k]
  {
    StoreShape(d, n, ZonalUnitLabels, ZonalUnitColumn(d, n, sqrt), Position);
    Store(d, ZonalUnitLabels, ZonalUnitColumn(d, n, sqrt))
  }

  /** Writing the meridional unit columns. */
  function MeridionalStep(d: map<string, Column>, n: nat, sqrt: real -> real): (e: map<string, Column>)
    requires IsSqrt(sqrt) && Aligned(d, n) && HasColumns(d, Position) && HasColumns(d, ZonalUnitLabels)
    ensures Aligned(e, n) && HasColumns(e, MeridionalUnitLabels) && HasColumns(e, ZonalUnitLabels)
    ensures e.Keys == d.Keys + Names(MeridionalUnitLabels)
    ensures forall k :: k in d && !Labelled(k, MeridionalUnitLabels) ==> e[k] == d[k]
  {
    StoreShape(d, n, MeridionalUnitLabels, MeridionalUnitColumn(d, n, sqrt), ZonalUnitLabels);
    Store(d, MeridionalUnitLabels, MeridionalUnitColumn(d, n, sqrt))
  }

  /** The data after the unit vectors are added: the zonal columns first, then the
      meridional columns computed from them. */
  function UnitVectors(d: map<string, Column>, n: nat, sqrt: real -> real): (e: map<string, Column>)
    requires IsSqrt(sqrt) && Aligned(d, n) && HasColumns(d, Position)
    ensures Aligned(e, n)
  {
    MeridionalStep(ZonalStep(d, n, sqrt), n, sqrt)
  }

  /** Adding the unit vectors adds their six columns and changes no other column. */
  lemma UnitVectorsKeys(d: map<string, Column>, n: nat, sqrt: real -> real)
    requires IsSqrt(sqrt) && Aligned(d, n) && HasColumns(d, Position)
    ensures var e := UnitVectors(d, n, sqrt);
      HasColumns(e, ZonalUnitLabels) && HasColumns(e, MeridionalUnitLabels)
      && e.Keys == d.Keys + Names(ZonalUnitLabels) + Names(MeridionalUnitLabels)
      && forall k :: k in d && !Labelled(k, ZonalUnitLabels) && !Labelled(k, MeridionalUnitLabels) ==> e[k] == d[k]
  {
    var d1 := ZonalStep(d, n, sqrt);
    var e := MeridionalStep(d1, n, sqrt);
    forall k | k in d && !Labelled(k, ZonalUnitLabels) && !Labelled(k, MeridionalUnitLabels)
      ensures e[k] == d[k]
    {
      assert k in d1 && d1[k] == d[k];
    }
  }

  /** Each sample of the stored unit vectors is the zonal and the meridional vector at
      the same sample of the position. */
  lemma UnitVectorsSample(d: map<string, Column>, n: nat, sqrt: real -> real, i: nat)
    requires IsSqrt(sqrt) && Aligned(d, n) && HasColumns(d, Position) && i < n
    ensures var e := UnitVectors(d, n, sqrt);
      HasColumns(e, ZonalUnitLabels) && HasColumns(e, MeridionalUnitLabels)
      && Sample(e, ZonalUnitLabels, i) == ZonalUnit(Sample(d, Position, i), sqrt)
      && Sample(e, MeridionalUnitLabels, i) == FromVector(Meridional(Sample(d, Position, i), sqrt))
  {
    UnitLabelsApart();
    var c1 := ZonalUnitColumn(d, n, sqrt);
    StoreStep(d, n, ZonalUnitLabels, c1, Position);
    var d1 := ZonalStep(d, n, sqrt);
    var c2 := MeridionalUnitColumn(d1, n, sqrt);
    StoreRead(d1, MeridionalUnitLabels, c2);
    StoreKeeps(d1, MeridionalUnitLabels, c2, ZonalUnitLabels);
    assert Sample(d1, ZonalUnitLabels, i) == c1[i];
    assert Vector(d1, Position, i) == Vector(d, Position, i);
  }

  /** The zonal unit vectors, then the meridional unit vectors computed from the
      position and the zonal columns just stored. */
  method AddUnitVectors(inst: Instrument, sqrt: real -> real)
    requires IsSqrt(sqrt) && inst.Valid() && HasColumns(inst.data, Position)
    modifies inst`data
    ensures inst.Valid() && inst.data == UnitVectors(old(inst.data), |inst.index|, sqrt)
  {
    UnitLabelsApart();
    var n := |inst.index|;
    inst.SetVector(ZonalUnitLabels, ZonalUnitColumn(inst.data, n, sqrt));
    inst.SetVector(MeridionalUnitLabels, MeridionalUnitColumn(inst.data, n, sqrt));
  }

  /** `get_wind_comp` on one sample: the zonal wind times the zonal unit component plus
      the meridional wind times the meridional unit component, NaN when any factor is. */
  function Combine(zonal: Option<real>, zonalUnit: Option<real>,
                   meridional: Option<real>, meridionalUnit: Option<real>): (c: Option<real>)
    ensures c.Some? <==> zonal.Some? && zonalUnit.Some? && meridional.Some? && meridionalUnit.Some?
  {
    if zonal.Some? && zonalUnit.Some? && meridional.Some? && meridionalUnit.Some? then
      Some(zonal.value * zonalUnit.value + meridional.value * meridionalUnit.value)
    else None
  }

  function WindComponent(d: map<string, Column>, n: nat, zonalUnit: string, meridionalUnit: string): (c: Column)
    requires Aligned(d, n)
    requires ZonalWind in d && MeridionalWind in d && zonalUnit in d && meridionalUnit in d
    ensures |c| == n
  {
    seq(n, i requires 0 <= i < n => Combine(d[ZonalWind][i], d[zonalUnit][i], d[MeridionalWind][i], d[meridionalUnit][i]))
  }

  /** The data after the three `total_wind_*` assignments. */
  function Totals(d: map<string, Column>, n: nat): (e: map<string, Column>)
    requires Aligned(d, n) && ZonalWind in d && MeridionalWind in d
    requires HasColumns(d, ZonalUnitLabels) && HasColumns(d, MeridionalUnitLabels)
    ensures Aligned(e, n) && HasColumns(e, TotalWind)
    ensures e.Keys == d.Keys + Names(TotalWind)
    ensures forall k :: k in d && !Labelled(k, TotalWind) ==> e[k] == d[k]
  {
    d[TotalWind.x := WindComponent(d, n, ZonalUnitLabels.x, MeridionalUnitLabels.x)]
     [TotalWind.y := WindComponent(d, n, ZonalUnitLabels.y, MeridionalUnitLabels.y)]
     [TotalWind.z := WindComponent(d, n, ZonalUnitLabels.z, MeridionalUnitLabels.z)]
  }

  /** The total wind at one sample, from the two winds and the two unit vectors. */
  function TotalTriple(zonal: Option<real>, meridional: Option<real>, zonalUnit: Triple, meridionalUnit: Triple): Triple {
    Triple(Combine(zonal, zonalUnit.x, meridional, meridionalUnit.x),
           Combine(zonal, zonalUnit.y, meridional, meridionalUnit.y),
           Combine(zonal, zonalUnit.z, meridional, meridionalUnit.z))
  }

  /** The total wind is the zonal wind along the zonal vector plus the meridional wind
      along the meridional vector. Because the zonal vector is horizontal, its vertical
      component is the meridional wind times the meridional vector's z alone. */
  lemma TotalWindComposition(zonal: Option<real>, meridional: Option<real>, zonalUnit: Triple, meridionalUnit: Triple)
    ensures var t := AsVector(TotalTriple(zonal, meridional, zonalUnit, meridionalUnit));
      t.Some? <==> zonal.Some? && meridional.Some? && AsVector(zonalUnit).Some? && AsVector(meridionalUnit).Some?
    ensures var t := AsVector(TotalTriple(zonal, meridional, zonalUnit, meridionalUnit));
      t.Some? ==> t.value == Add(Scale(zonal.value, AsVector(zonalUnit).value),
                                 Scale(meridional.value, AsVector(meridionalUnit).value))
    ensures zonal.Some? && zonalUnit.z == Some(0.0) ==>
      TotalTriple(zonal, meridional, zonalUnit, meridionalUnit).z
        == (if meridional.Some? && meridionalUnit.z.Some? then Some(meridional.value * meridionalUnit.z.value) else None)
  {
    if zonal.Some? && zonalUnit.z == Some(0.0) {
      var t := TotalTriple(zonal, meridional, zonalUnit, meridionalUnit);
      assert t.z == Combine(zonal, Some(0.0), meridional, meridionalUnit.z);
      if meridional.Some? && meridionalUnit.z.Some? {
        assert t.z.value == zonal.value * 0.0 + meridional.value * meridionalUnit.z.value;
        assert t.z.value == meridional.value * meridionalUnit.z.value;
      }
    }
  }

  /** Each spacecraft-frame component of the total wind is the zonal wind times the zonal
      vector's component plus the meridional wind times the meridional vector's. */
  lemma WindInFrame(zonal: real, meridional: real, zonalUnit: Vec3, meridionalUnit: Vec3, axis: Option<Vec3>)
    requires axis.Some?
    ensures Project(Some(Add(Scale(zonal, zonalUnit), Scale(meridional, meridionalUnit))), axis)
         == Some(zonal * Dot(zonalUnit, axis.value) + meridional * Dot(meridionalUnit, axis.value))
  {
    var w := Add(Scale(zonal, zonalUnit), Scale(meridional, meridionalUnit));
    DotAddLeft(Scale(zonal, zonalUnit), Scale(meridional, meridionalUnit), axis.value);
    DotScaleLeft(zonal, zonalUnit, axis.value);
    DotScaleLeft(meridional, meridionalUnit, axis.value);
    assert Project(Some(w), axis).value
        == zonal * Dot(zonalUnit, axis.value) + meridional * Dot(meridionalUnit, axis.value);
  }

  /** After `project_hwm_onto_sc`, the `total_wind_*` columns hold the total wind of each
      sample, the `sim_wind_sc_*` columns hold its projection on the spacecraft frame of
      the same sample, and no other column has changed. */
  lemma SimulatedWindIsProjection(d: map<string, Column>, n: nat)
    requires Aligned(d, n) && ZonalWind in d && MeridionalWind in d
    requires HasColumns(d, ZonalUnitLabels) && HasColumns(d, MeridionalUnitLabels)
    requires HasColumns(d, ScX) && HasColumns(d, ScY) && HasColumns(d, ScZ)
    ensures var e := Projected(Totals(d, n), n, TotalWind, SimulatedWind);
      HasColumns(e, TotalWind) && HasColumns(e, SimulatedWind)
      && e.Keys == d.Keys + Names(TotalWind) + Names(SimulatedWind)
      && (forall k :: k in d && !Labelled(k, TotalWind) && !Labelled(k, SimulatedWind) ==> e[k] == d[k])
    ensures var e := Projected(Totals(d, n), n, TotalWind, SimulatedWind);
      forall i :: 0 <= i < n ==>
        var w := TotalTriple(d[ZonalWind][i], d[MeridionalWind][i],
                             Sample(d, ZonalUnitLabels, i), Sample(d, MeridionalUnitLabels, i));
        Sample(e, TotalWind, i) == w
        && Sample(e, SimulatedWind, i) == Triple(Project(AsVector(w), Vector(d, ScX, i)),
                                                 Project(AsVector(w), Vector(d, ScY, i)),
                                                 Project(AsVector(w), Vector(d, ScZ, i)))
  {
    SimulatedWindKeeps(d, n);
    var t := Totals(d, n);
    forall i | 0 <= i < n
      ensures var w := TotalTriple(d[ZonalWind][i], d[MeridionalWind][i],
                                   Sample(d, ZonalUnitLabels, i), Sample(d, MeridionalUnitLabels, i));
        Sample(Projected(t, n, TotalWind, SimulatedWind), TotalWind, i) == w
        && Sample(Projected(t, n, TotalWind, SimulatedWind), SimulatedWind, i)
           == Triple(Project(AsVector(w), Vector(d, ScX, i)),
                     Project(AsVector(w), Vector(d, ScY, i)),
                     Project(AsVector(w), Vector(d, ScZ, i)))
    {
      SimulatedWindSample(d, n, i);
    }
  }

  lemma SimulatedWindKeeps(d: map<string, Column>, n: nat)
    requires Aligned(d, n) && ZonalWind in d && MeridionalWind in d
    requires HasColumns(d, ZonalUnitLabels) && HasColumns(d, MeridionalUnitLabels)
    requires HasColumns(d, ScX) && HasColumns(d, ScY) && HasColumns(d, ScZ)
    ensures var e := Projected(Totals(d, n), n, TotalWind, SimulatedWind);
      HasColumns(e, TotalWind) && HasColumns(e, SimulatedWind)
      && e.Keys == d.Keys + Names(TotalWind) + Names(SimulatedWind)
      && (forall k :: k in d && !Labelled(k, TotalWind) && !Labelled(k, SimulatedWind) ==> e[k] == d[k])
  {
    TotalLabelsApart();
    ProjectedApart(Totals(d, n), n, TotalWind, SimulatedWind);
  }

  lemma SimulatedWindSample(d: map<string, Column>, n: nat, i: nat)
    requires Aligned(d, n) && ZonalWind in d && MeridionalWind in d
    requires HasColumns(d, ZonalUnitLabels) && HasColumns(d, MeridionalUnitLabels)
    requires HasColumns(d, ScX) && HasColumns(d, ScY) && HasColumns(d, ScZ)
    requires i < n
    ensures var e := Projected(Totals(d, n), n, TotalWind, SimulatedWind);
      var w := TotalTriple(d[ZonalWind][i], d[MeridionalWind][i],
                           Sample(d, ZonalUnitLabels, i), Sample(d, MeridionalUnitLabels, i));
      HasColumns(e, TotalWind) && HasColumns(e, SimulatedWind)
      && Sample(e, TotalWind, i) == w
      && Sample(e, SimulatedWind, i) == Triple(Project(AsVector(w), Vector(d, ScX, i)),
                                               Project(AsVector(w), Vector(d, ScY, i)),
                                               Project(AsVector(w), Vector(d, ScZ, i)))
  {
    TotalLabelsApart();
    var t := Totals(d, n);
    ProjectedApart(t, n, TotalWind, SimulatedWind);
    TotalsSample(d, n, i);
    var e := Projected(t, n, TotalWind, SimulatedWind);
    assert e[TotalWind.x] == t[TotalWind.x] && e[TotalWind.y] == t[TotalWind.y] && e[TotalWind.z] == t[TotalWind.z];
  }

  lemma TotalsSample(d: map<string, Column>, n: nat, i: nat)
    requires Aligned(d, n) && ZonalWind in d && MeridionalWind in d
    requires HasColumns(d, ZonalUnitLabels) && HasColumns(d, MeridionalUnitLabels)
    requires HasColumns(d, ScX) && HasColumns(d, ScY) && HasColumns(d, ScZ)
    requires i < n
    ensures var t := Totals(d, n);
      HasColumns(t, TotalWind) && HasColumns(t, ScX) && HasColumns(t, ScY) && HasColumns(t, ScZ)
      && Sample(t, TotalWind, i) == TotalTriple(d[ZonalWind][i], d[MeridionalWind][i],
                                                Sample(d, ZonalUnitLabels, i), Sample(d, MeridionalUnitLabels, i))
      && Vector(t, ScX, i) == Vector(d, ScX, i) && Vector(t, ScY, i) == Vector(d, ScY, i)
      && Vector(t, ScZ, i) == Vector(d, ScZ, i)
  {
    TotalLabelsApart();
    FrameApartFromTotal();
  }

  /** The spacecraft axis labels are not total wind labels. */
  lemma FrameApartFromTotal()
    ensures Apart(TotalWind, ScX) && Apart(TotalWind, ScY) && Apart(TotalWind, ScZ)
  {
  }

  /** `project_hwm_onto_sc`: the total wind per axis, then its projection on the
      spacecraft frame into `sim_wind_sc_*`. A missing wind column raises the key error
      of the first one read, before anything is written. */
  method ProjectHwmOntoSc(inst: Instrument) returns (r: Outcome<Exception>)
    requires inst.Valid()
    requires HasColumns(inst.data, ZonalUnitLabels) && HasColumns(inst.data, MeridionalUnitLabels)
    requires HasColumns(inst.data, ScX) && HasColumns(inst.data, ScY) && HasColumns(inst.data, ScZ)
    modifies inst`data
    ensures inst.Valid()
    ensures r.Fail? <==> ZonalWind !in old(inst.data) || MeridionalWind !in old(inst.data)
    ensures r.Fail? ==> (inst.data == old(inst.data)
      && r.error == KeyError(if ZonalWind !in old(inst.data) then ZonalWind else MeridionalWind))
    ensures r.Pass? ==>
      var t := Totals(old(inst.data), |inst.index|);
      HasColumns(t, TotalWind) && inst.data == Projected(t, |inst.index|, TotalWind, SimulatedWind)
  {
    TotalLabelsApart();
    if ZonalWind !in inst.data {
      return Fail(KeyError(ZonalWind));
    }
    if MeridionalWind !in inst.data {
      return Fail(KeyError(MeridionalWind));
    }
    var n := |inst.index|;
    inst.SetColumn(TotalWind.x, WindComponent(inst.data, n, ZonalUnitLabels.x, MeridionalUnitLabels.x));
    inst.SetColumn(TotalWind.y, WindComponent(inst.data, n, ZonalUnitLabels.y, MeridionalUnitLabels.y));
    inst.SetColumn(TotalWind.z, WindComponent(inst.data, n, ZonalUnitLabels.z, MeridionalUnitLabels.z));
    ProjectEcefVectorOntoSc(inst, TotalWind, SimulatedWind);
    r := Pass;
  }
}
