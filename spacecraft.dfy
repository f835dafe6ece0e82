/** The ram-pointing spacecraft frame: unit vectors x̂ along the ECEF velocity, ŷ
    completing a right-handed frame with the nadir direction, and ẑ = x̂ × ŷ; the
    central-difference velocity estimate; and the expression of an ECEF vector in the
    spacecraft frame. */
module Spacecraft {
  import opened Wrappers
  import opened RealMath
  import opened Vectors
  import opened Frames

  const Position: Labels := Labels("position_ecef_x", "position_ecef_y", "position_ecef_z")
  const Velocity: Labels := Labels("velocity_ecef_x", "velocity_ecef_y", "velocity_ecef_z")
  const ScX: Labels := Labels("sc_xhat_ecef_x", "sc_xhat_ecef_y", "sc_xhat_ecef_z")
  const ScY: Labels := Labels("sc_yhat_ecef_x", "sc_yhat_ecef_y", "sc_yhat_ecef_z")
  const ScZ: Labels := Labels("sc_zhat_ecef_x", "sc_zhat_ecef_y", "sc_zhat_ecef_z")

  const OrthogonalityMessage := "Unit vector generation failure. Not sufficently orthogonal."

  function Negated(v: Option<Vec3>): Option<Vec3> {
    if v.Some? then Some(Neg(v.value)) else None
  }

  /** `normalize` on one sample: the vector over its Euclidean length. A NaN component
      makes the length NaN, and the zero vector has length 0, so that every component
      is 0/0; both come out entirely NaN. */
  function Normalize(v: Option<Vec3>, sqrt: real -> real): (r: Option<Vec3>)
    requires IsSqrt(sqrt)
    ensures r.Some? <==> v.Some? && v.value != Zero
    ensures r.Some? ==> Norm2(r.value) == 1.0
    ensures r.Some? ==> Cross(r.value, v.value) == Zero
    ensures r.Some? ==> 0.0 < Dot(r.value, v.value) == sqrt(Norm2(v.value))
  {
    if v.None? then None
    else
      var n := sqrt(Norm2(v.value));
      Norm2Positive(v.value);
      if n == 0.0 then None
      else
        UnitScale(v.value, n);
        Some(Scale(1.0 / n, v.value))
  }

  /** Dividing a non-zero vector by its length gives a unit vector along it. */
  lemma UnitScale(v: Vec3, n: real)
    requires 0.0 < n && n * n == Norm2(v)
    ensures var u := Scale(1.0 / n, v);
      Norm2(u) == 1.0 && Cross(u, v) == Zero && Dot(u, v) == n
  {
    var k := 1.0 / n;
    Norm2Scale(k, v);
    assert k * k * Norm2(v) == 1.0 by {
      assert k * n == 1.0;
      assert k * k * (n * n) == (k * n) * (k * n);
    }
    DotScaleLeft(k, v, v);
    assert k * Norm2(v) == n by {
      assert k * (n * n) == (k * n) * n;
    }
  }

  /** A normalised vector is the input scaled by the inverse of its length. */
  lemma NormalizeScales(v: Option<Vec3>, sqrt: real -> real)
    requires IsSqrt(sqrt)
    ensures Normalize(v, sqrt).Some? ==>
      0.0 < sqrt(Norm2(v.value))
      && Normalize(v, sqrt).value == Scale(1.0 / sqrt(Norm2(v.value)), v.value)
  {
  }

  /** `cross_product` on one sample: NaN in either factor makes the product NaN. */
  function CrossProduct(a: Option<Vec3>, b: Option<Vec3>): (r: Option<Vec3>)
    ensures r.Some? <==> a.Some? && b.Some?
    ensures r.Some? ==> Dot(r.value, a.value) == 0.0 && Dot(r.value, b.value) == 0.0
  {
    if a.Some? && b.Some? then
      CrossOrthogonal(a.value, b.value);
      Some(Cross(a.value, b.value))
    else None
  }

  /** Swapping the factors of `cross_product` reverses the product. */
  lemma CrossProductAntisymmetric(a: Option<Vec3>, b: Option<Vec3>)
    ensures CrossProduct(b, a) == Negated(CrossProduct(a, b))
  {
    if a.Some? && b.Some? {
      CrossAntisymmetric(a.value, b.value);
    }
  }

  /** x̂: the unit vector along the velocity (ram direction). */
  function XHat(vel: Option<Vec3>, sqrt: real -> real): Option<Vec3>
    requires IsSqrt(sqrt)
  {
    Normalize(vel, sqrt)
  }

  /** The first estimate of ẑ: the unit vector towards the Earth's centre. */
  function Nadir(pos: Option<Vec3>, sqrt: real -> real): Option<Vec3>
    requires IsSqrt(sqrt)
  {
    Normalize(Negated(pos), sqrt)
  }

  /** ŷ: the normalised product nadir × x̂. */
  function YHat(pos: Option<Vec3>, vel: Option<Vec3>, sqrt: real -> real): Option<Vec3>
    requires IsSqrt(sqrt)
  {
    Normalize(CrossProduct(Nadir(pos, sqrt), XHat(vel, sqrt)), sqrt)
  }

  /** ẑ recomputed as x̂ × ŷ. */
  function ZHat(pos: Option<Vec3>, vel: Option<Vec3>, sqrt: real -> real): Option<Vec3>
    requires IsSqrt(sqrt)
  {
    CrossProduct(XHat(vel, sqrt), YHat(pos, vel, sqrt))
  }

  /** The frame is defined exactly when position and velocity are both present and not
      parallel (neither of them zero); it is then orthonormal and right-handed.
      Otherwise ŷ and ẑ are entirely NaN. */
  lemma TriadOrthonormal(pos: Option<Vec3>, vel: Option<Vec3>, sqrt: real -> real)
    requires IsSqrt(sqrt)
    ensures YHat(pos, vel, sqrt).Some? <==>
      pos.Some? && vel.Some? && Cross(pos.value, vel.value) != Zero
    ensures ZHat(pos, vel, sqrt).Some? <==> YHat(pos, vel, sqrt).Some?
    ensures YHat(pos, vel, sqrt).Some? ==>
      var x, y, z := XHat(vel, sqrt).value, YHat(pos, vel, sqrt).value, ZHat(pos, vel, sqrt).value;
      Norm2(x) == 1.0 && Norm2(y) == 1.0 && Norm2(z) == 1.0
      && Dot(x, y) == 0.0 && Dot(x, z) == 0.0 && Dot(y, z) == 0.0
      && Dot(Cross(x, y), z) == 1.0
  {
    YHatDefined(pos, vel, sqrt);
    if YHat(pos, vel, sqrt).Some? {
      TriadUnits(pos, vel, sqrt);
    }
  }

  lemma YHatDefined(pos: Option<Vec3>, vel: Option<Vec3>, sqrt: real -> real)
    requires IsSqrt(sqrt)
    ensures YHat(pos, vel, sqrt).Some? <==>
      pos.Some? && vel.Some? && Cross(pos.value, vel.value) != Zero
  {
    if pos.Some? && vel.Some? && pos.value != Zero && vel.value != Zero {
      var c := CrossProduct(Nadir(pos, sqrt), XHat(vel, sqrt));
      var m := NadirCrossScale(pos.value, vel.value, sqrt);
      ScaleNonZero(m, Cross(pos.value, vel.value));
    } else if pos.Some? && vel.Some? {
      assert Cross(pos.value, vel.value) == Zero;
    }
  }

  /** nadir × x̂ is a non-zero multiple of the position × the velocity. */
  lemma NadirCrossScale(p: Vec3, v: Vec3, sqrt: real -> real) returns (m: real)
    requires IsSqrt(sqrt) && p != Zero && v != Zero
    ensures m != 0.0
    ensures CrossProduct(Nadir(Some(p), sqrt), XHat(Some(v), sqrt)) == Some(Scale(m, Cross(p, v)))
  {
    var a, b := Nadir(Some(p), sqrt), XHat(Some(v), sqrt);
    NormalizeScales(Some(Neg(p)), sqrt);
    NormalizeScales(Some(v), sqrt);
    assert a.Some? && b.Some?;
    var j, k := 1.0 / sqrt(Norm2(Neg(p))), 1.0 / sqrt(Norm2(v));
    assert j != 0.0 && k != 0.0;
    assert a.value == Scale(j, Neg(p)) && b.value == Scale(k, v);
    assert CrossProduct(a, b) == Some(Cross(Scale(j, Neg(p)), Scale(k, v)));
    NadirCross(p, v, j, k);
    m := -(j * k);
  }

  lemma NadirCross(p: Vec3, v: Vec3, j: real, k: real)
    ensures Cross(Scale(j, Neg(p)), Scale(k, v)) == Scale(-(j * k), Cross(p, v))
  {
    CrossScale(j, Neg(p), k, v);
    assert Cross(Neg(p), v) == Scale(-1.0, Cross(p, v));
  }

  lemma TriadUnits(pos: Option<Vec3>, vel: Option<Vec3>, sqrt: real -> real)
    requires IsSqrt(sqrt) && YHat(pos, vel, sqrt).Some?
    ensures ZHat(pos, vel, sqrt).Some?
    ensures var x, y, z := XHat(vel, sqrt).value, YHat(pos, vel, sqrt).value, ZHat(pos, vel, sqrt).value;
      Norm2(x) == 1.0 && Norm2(y) == 1.0 && Norm2(z) == 1.0
      && Dot(x, y) == 0.0 && Dot(x, z) == 0.0 && Dot(y, z) == 0.0
      && Dot(Cross(x, y), z) == 1.0
  {
    var c := CrossProduct(Nadir(pos, sqrt), XHat(vel, sqrt));
    var x, y := XHat(vel, sqrt).value, YHat(pos, vel, sqrt).value;
    var z := Cross(x, y);
    NormalizeScales(c, sqrt);
    DotScaleLeft(1.0 / sqrt(Norm2(c.value)), c.value, x);
    assert Dot(y, x) == 0.0;
    Lagrange(x, y);
    assert Norm2(z) == 1.0 * 1.0 - 0.0 * 0.0;
    CrossOrthogonal(x, y);
  }

  /** ŷ is perpendicular to the position, so the position has no ŷ component. */
  lemma YHatPerpendicularToPosition(pos: Option<Vec3>, vel: Option<Vec3>, sqrt: real -> real)
    requires IsSqrt(sqrt)
    ensures YHat(pos, vel, sqrt).Some? ==> Dot(pos.value, YHat(pos, vel, sqrt).value) == 0.0
  {
    var c := CrossProduct(Nadir(pos, sqrt), XHat(vel, sqrt));
    if YHat(pos, vel, sqrt).Some? {
      TriadOrthonormal(pos, vel, sqrt);
      var p, n := pos.value, Nadir(pos, sqrt).value;
      NormalizeScales(Negated(pos), sqrt);
      NormalizeScales(c, sqrt);
      var j := 1.0 / sqrt(Norm2(Neg(p)));
      assert 0.0 < j;
      assert Dot(c.value, n) == 0.0;
      DotScaleRight(j, c.value, Neg(p));
      assert Dot(c.value, Neg(p)) == 0.0;
      DotScaleLeft(1.0 / sqrt(Norm2(c.value)), c.value, Neg(p));
      DotSymmetric(p, YHat(pos, vel, sqrt).value);
    }
  }

  /** The sample that the magnitude check rejects: a ẑ whose length is outside
      [0.999999999, 1.000000001]. A NaN length fails neither comparison. */
  predicate OutOfBand(z: Option<Vec3>, sqrt: real -> real) {
    z.Some? && (sqrt(Norm2(z.value)) < 0.999999999 || sqrt(Norm2(z.value)) > 1.000000001)
  }

  /** Over the reals the magnitude check never rejects a sample: ẑ is either a unit
      vector or NaN. */
  lemma MagnitudeCheckNeverFires(pos: Option<Vec3>, vel: Option<Vec3>, sqrt: real -> real)
    requires IsSqrt(sqrt)
    ensures !OutOfBand(ZHat(pos, vel, sqrt), sqrt)
  {
    var z := ZHat(pos, vel, sqrt);
    TriadOrthonormal(pos, vel, sqrt);
    if z.Some? {
      var n := Norm2(z.value);
      assert n == 1.0;
      SqrtUnique(sqrt, 1.0, 1.0);
      assert sqrt(n) == 1.0;
    }
  }

  /** Expressing the velocity in its own frame gives (|v|, 0, 0). */
  lemma VelocityInFrame(pos: Option<Vec3>, vel: Option<Vec3>, sqrt: real -> real)
    requires IsSqrt(sqrt)
    requires YHat(pos, vel, sqrt).Some?
    ensures Project(vel, XHat(vel, sqrt)) == Some(sqrt(Norm2(vel.value)))
    ensures Project(vel, YHat(pos, vel, sqrt)) == Some(0.0)
    ensures Project(vel, ZHat(pos, vel, sqrt)) == Some(0.0)
  {
    TriadOrthonormal(pos, vel, sqrt);
    var v, x := vel.value, XHat(vel, sqrt).value;
    NormalizeScales(vel, sqrt);
    var s := sqrt(Norm2(v));
    assert x == Scale(1.0 / s, v);
    assert v == Scale(s, x) by {
      assert s * (1.0 / s) == 1.0;
      assert s * (1.0 / s * v.x) == v.x;
      assert s * (1.0 / s * v.y) == v.y;
      assert s * (1.0 / s * v.z) == v.z;
    }
    var y, z := YHat(pos, vel, sqrt).value, ZHat(pos, vel, sqrt).value;
    DotScaleLeft(s, x, y);
    DotScaleLeft(s, x, z);
    DotSymmetric(v, x);
    assert Dot(v, y) == s * Dot(x, y) == 0.0;
    assert Dot(v, z) == s * Dot(x, z) == 0.0;
  }

  /** One output column of the projection: the dot product of the vector with one axis
      of the frame, NaN when either is. */
  function Project(u: Option<Vec3>, axis: Option<Vec3>): (c: Option<real>)
    ensures c.Some? <==> u.Some? && axis.Some?
  {
    if u.Some? && axis.Some? then Some(Dot(u.value, axis.value)) else None
  }

  /** The frame columns, position and velocity are six different quantities. */
  lemma FrameLabelsDistinct()
    ensures Distinct(ScX) && Distinct(ScY) && Distinct(ScZ)
  {
  }

  /** Each write of the frame leaves the vectors the later steps read back. */
  lemma FrameLabelsApart()
    ensures Apart(ScX, Position) && Apart(ScZ, ScX) && Apart(ScY, ScX) && Apart(ScZ, ScY)
  {
  }

  /** The unit vectors along the vectors kept under `l`, one per sample. */
  function UnitColumn(d: map<string, Column>, n: nat, l: Labels, sqrt: real -> real): (c: seq<Triple>)
    requires IsSqrt(sqrt) && Aligned(d, n) && HasColumns(d, l)
    ensures |c| == n
  {
    seq(n, i requires 0 <= i < n => FromVector(Normalize(Vector(d, l, i), sqrt)))
  }

  /** The cross products of the vectors kept under `a` and `b`, one per sample. */
  function CrossColumn(d: map<string, Column>, n: nat, a: Labels, b: Labels): (c: seq<Triple>)
    requires Aligned(d, n) && HasColumns(d, a) && HasColumns(d, b)
    ensures |c| == n
  {
    seq(n, i requires 0 <= i < n => FromVector(CrossProduct(Vector(d, a, i), Vector(d, b, i))))
  }

  /** The nadir estimates from the position, one per sample. */
  function NadirColumn(d: map<string, Column>, n: nat, sqrt: real -> real): (c: seq<Triple>)
    requires IsSqrt(sqrt) && Aligned(d, n) && HasColumns(d, Position)
    ensures |c| == n
  {
    seq(n, i requires 0 <= i < n => FromVector(Nadir(Vector(d, Position, i), sqrt)))
  }

  /** Writing `col` under `l` keeps the data aligned, and a vector kept under labels
      apart from `l` reads back as it was. */
  lemma StoreStep(d: map<string, Column>, n: nat, l: Labels, col: seq<Triple>, m: Labels)
    requires Aligned(d, n) && |col| == n && Distinct(l) && HasColumns(d, m) && Apart(l, m)
    ensures var e := Store(d, l, col);
      Aligned(e, n) && HasColumns(e, l) && HasColumns(e, m)
      && forall i :: 0 <= i < n ==> Sample(e, l, i) == col[i] && Vector(e, m, i) == Vector(d, m, i)
  {
    StoreRead(d, l, col);
    StoreKeeps(d, l, col, m);
  }

  /** Writing x̂ from the velocity. */
  function XStep(d: map<string, Column>, n: nat, sqrt: real -> real): (e: map<string, Column>)
    requires IsSqrt(sqrt) && Aligned(d, n) && HasColumns(d, Position) && HasColumns(d, Velocity)
    ensures Aligned(e, n) && HasColumns(e, ScX) && HasColumns(e, Position)
    ensures e.Keys == d.Keys + Names(ScX) && forall k :: k in d && !Labelled(k, ScX) ==> e[k] == d[k]
  {
    StoreShape(d, n, ScX, UnitColumn(d, n, Velocity, sqrt), Position);
    Store(d, ScX, UnitColumn(d, n, Velocity, sqrt))
  }

  /** Writing the nadir estimate into the ẑ columns. */
  function NadirStep(d: map<string, Column>, n: nat, sqrt: real -> real): (e: map<string, Column>)
    requires IsSqrt(sqrt) && Aligned(d, n) && HasColumns(d, Position) && HasColumns(d, ScX)
    ensures Aligned(e, n) && HasColumns(e, ScZ) && HasColumns(e, ScX)
    ensures e.Keys == d.Keys + Names(ScZ) && forall k :: k in d && !Labelled(k, ScZ) ==> e[k] == d[k]
  {
    StoreShape(d, n, ScZ, NadirColumn(d, n, sqrt), ScX);
    Store(d, ScZ, NadirColumn(d, n, sqrt))
  }

  /** Writing the cross product of the vectors under `a` and `b` under `l`. */
  function CrossStep(d: map<string, Column>, n: nat, a: Labels, b: Labels, l: Labels): (e: map<string, Column>)
    requires Aligned(d, n) && HasColumns(d, a) && HasColumns(d, b)
    ensures Aligned(e, n) && HasColumns(e, l) && HasColumns(e, a)
    ensures e.Keys == d.Keys + Names(l) && forall k :: k in d && !Labelled(k, l) ==> e[k] == d[k]
  {
    StoreShape(d, n, l, CrossColumn(d, n, a, b), a);
    Store(d, l, CrossColumn(d, n, a, b))
  }

  /** Normalising the vectors under ŷ in place. */
  function NormStep(d: map<string, Column>, n: nat, sqrt: real -> real): (e: map<string, Column>)
    requires IsSqrt(sqrt) && Aligned(d, n) && HasColumns(d, ScY) && HasColumns(d, ScX)
    ensures Aligned(e, n) && HasColumns(e, ScY) && HasColumns(e, ScX)
    ensures e.Keys == d.Keys + Names(ScY) && forall k :: k in d && !Labelled(k, ScY) ==> e[k] == d[k]
  {
    StoreShape(d, n, ScY, UnitColumn(d, n, ScY, sqrt), ScX);
    Store(d, ScY, UnitColumn(d, n, ScY, sqrt))
  }

  /** The data after the five writes of `add_ram_pointing_sc_attitude_vectors`, in the
      order of the source: x̂, the nadir estimate into ẑ, nadir × x̂ into ŷ, ŷ
      normalised, and x̂ × ŷ into ẑ. */
  function Attitude(d: map<string, Column>, n: nat, sqrt: real -> real): (e: map<string, Column>)
    requires IsSqrt(sqrt) && Aligned(d, n) && HasColumns(d, Position) && HasColumns(d, Velocity)
    ensures Aligned(e, n)
  {
    var d3 := CrossStep(NadirStep(XStep(d, n, sqrt), n, sqrt), n, ScZ, ScX, ScY);
    CrossStep(NormStep(d3, n, sqrt), n, ScX, ScY, ScZ)
  }

  /** The attitude columns are the ones added. */
  lemma AttitudeKeys(d: map<string, Column>, n: nat, sqrt: real -> real)
    requires IsSqrt(sqrt) && Aligned(d, n) && HasColumns(d, Position) && HasColumns(d, Velocity)
    ensures var e := Attitude(d, n, sqrt);
      HasColumns(e, ScX) && HasColumns(e, ScY) && HasColumns(e, ScZ)
      && e.Keys == d.Keys + Names(ScX) + Names(ScY) + Names(ScZ)
  {
    var d1 := XStep(d, n, sqrt);
    var d2 := NadirStep(d1, n, sqrt);
    var d3 := CrossStep(d2, n, ScZ, ScX, ScY);
    var d4 := NormStep(d3, n, sqrt);
    UnionChain(d.Keys, Names(ScX), Names(ScY), Names(ScZ));
  }

  /** Writing x̂, ẑ, ŷ, ŷ and ẑ in turn adds the three sets of names once each. */
  lemma UnionChain<T>(a: set<T>, x: set<T>, y: set<T>, z: set<T>)
    ensures a + x + z + y + y + z == a + x + y + z
  {
  }

  /** No column but the attitude columns changes. */
  lemma AttitudeKeeps(d: map<string, Column>, n: nat, sqrt: real -> real)
    requires IsSqrt(sqrt) && Aligned(d, n) && HasColumns(d, Position) && HasColumns(d, Velocity)
    ensures var e := Attitude(d, n, sqrt);
      forall k :: k in d && !Labelled(k, ScX) && !Labelled(k, ScY) && !Labelled(k, ScZ) ==> e[k] == d[k]
  {
    var d1 := XStep(d, n, sqrt);
    var d2 := NadirStep(d1, n, sqrt);
    var d3 := CrossStep(d2, n, ScZ, ScX, ScY);
    var d4 := NormStep(d3, n, sqrt);
    var e := CrossStep(d4, n, ScX, ScY, ScZ);
    forall k | k in d && !Labelled(k, ScX) && !Labelled(k, ScY) && !Labelled(k, ScZ)
      ensures e[k] == d[k]
    {
      assert d1[k] == d[k] && d2[k] == d1[k] && d3[k] == d2[k] && d4[k] == d3[k];
    }
  }

  /** Each sample of the attitude columns is x̂, ŷ and ẑ of the same sample of the
      position and the velocity. */
  lemma AttitudeSample(d: map<string, Column>, n: nat, sqrt: real -> real, i: nat)
    requires IsSqrt(sqrt) && Aligned(d, n) && HasColumns(d, Position) && HasColumns(d, Velocity)
    requires i < n
    ensures var e, p, v := Attitude(d, n, sqrt), Vector(d, Position, i), Vector(d, Velocity, i);
      HasColumns(e, ScX) && HasColumns(e, ScY) && HasColumns(e, ScZ)
      && Sample(e, ScX, i) == FromVector(XHat(v, sqrt))
      && Sample(e, ScY, i) == FromVector(YHat(p, v, sqrt))
      && Sample(e, ScZ, i) == FromVector(ZHat(p, v, sqrt))
      && Vector(e, ScZ, i) == ZHat(p, v, sqrt)
  {
    FrameLabelsDistinct();
    FrameLabelsApart();
    var p, v := Vector(d, Position, i), Vector(d, Velocity, i);
    var d1 := XStep(d, n, sqrt);
    StoreStep(d, n, ScX, UnitColumn(d, n, Velocity, sqrt), Position);
    var x := Vector(d1, ScX, i);
    assert x == XHat(v, sqrt);
    var d2 := NadirStep(d1, n, sqrt);
    StoreStep(d1, n, ScZ, NadirColumn(d1, n, sqrt), ScX);
    assert Vector(d2, ScZ, i) == Nadir(p, sqrt);
    var d3 := CrossStep(d2, n, ScZ, ScX, ScY);
    StoreStep(d2, n, ScY, CrossColumn(d2, n, ScZ, ScX), ScX);
    assert Vector(d3, ScY, i) == CrossProduct(Nadir(p, sqrt), x);
    var d4 := NormStep(d3, n, sqrt);
    StoreStep(d3, n, ScY, UnitColumn(d3, n, ScY, sqrt), ScX);
    assert Sample(d4, ScY, i) == FromVector(YHat(p, v, sqrt));
    var e := CrossStep(d4, n, ScX, ScY, ScZ);
    StoreStep(d4, n, ScZ, CrossColumn(d4, n, ScX, ScY), ScX);
    StoreStep(d4, n, ScZ, CrossColumn(d4, n, ScX, ScY), ScY);
    assert Sample(e, ScZ, i) == FromVector(ZHat(p, v, sqrt));
  }

  /** The five writes, each computed from the data the previous ones left. */
  method WriteAttitude(inst: Instrument, sqrt: real -> real)
    requires IsSqrt(sqrt) && inst.Valid()
    requires HasColumns(inst.data, Position) && HasColumns(inst.data, Velocity)
    modifies inst`data
    ensures inst.Valid()
    ensures inst.data == Attitude(old(inst.data), |inst.index|, sqrt)
  {
    FrameLabelsDistinct();
    var n := |inst.index|;
    var d := inst.data;
    inst.SetVector(ScX, UnitColumn(inst.data, n, Velocity, sqrt));
    var d1 := XStep(d, n, sqrt);
    inst.SetVector(ScZ, NadirColumn(inst.data, n, sqrt));
    var d2 := NadirStep(d1, n, sqrt);
    inst.SetVector(ScY, CrossColumn(inst.data, n, ScZ, ScX));
    var d3 := CrossStep(d2, n, ScZ, ScX, ScY);
    inst.SetVector(ScY, UnitColumn(inst.data, n, ScY, sqrt));
    var d4 := NormStep(d3, n, sqrt);
    inst.SetVector(ScZ, CrossColumn(inst.data, n, ScX, ScY));
  }

  /** `add_ram_pointing_sc_attitude_vectors`. The steps run in the order of the source,
      each reading back the columns the previous ones wrote. The magnitude check comes
      last, so the nine columns are written even when it raises. */
  method AddRamPointingScAttitudeVectors(inst: Instrument, sqrt: real -> real)
    returns (r: Outcome<Exception>)
    requires IsSqrt(sqrt) && inst.Valid()
    requires HasColumns(inst.data, Position) && HasColumns(inst.data, Velocity)
    modifies inst`data
    ensures inst.Valid()
    ensures inst.data == Attitude(old(inst.data), |inst.index|, sqrt)
    ensures r.Fail? <==>
      exists i :: 0 <= i < |inst.index| && OutOfBand(ZHat(Vector(old(inst.data), Position, i),
                                                       Vector(old(inst.data), Velocity, i), sqrt), sqrt)
    ensures r.Fail? ==> r.error == RuntimeError(OrthogonalityMessage)
  {
    var n := |inst.index|;
    var d := inst.data;
    WriteAttitude(inst, sqrt);
    forall i | 0 <= i < n
      ensures HasColumns(inst.data, ScZ)
        && Vector(inst.data, ScZ, i) == ZHat(Vector(d, Position, i), Vector(d, Velocity, i), sqrt)
    {
      AttitudeSample(d, n, sqrt, i);
    }
    if exists i :: 0 <= i < n && OutOfBand(Vector(inst.data, ScZ, i), sqrt) {
      r := Fail(RuntimeError(OrthogonalityMessage));
    } else {
      r := Pass;
    }
  }

  /** Half the difference of two samples, NaN when either is. */
  function HalfDifference(next: Option<real>, previous: Option<real>): (v: Option<real>)
    ensures v.Some? <==> next.Some? && previous.Some?
  {
    if next.Some? && previous.Some? then Some((next.value - previous.value) / 2.0) else None
  }

  /** `get_vel_from_pos` followed by the slice assignment `inst[1:-1, label] = vel`:
      each sample but the first and the last becomes half the difference of its two
      neighbours; the first and the last keep what the column held before, and are NaN
      when the column is new. */
  function CentralDifference(p: Column, prior: Option<Column>): (v: Column)
    requires prior.Some? ==> |prior.value| == |p|
    ensures |v| == |p|
  {
    seq(|p|, i requires 0 <= i < |p| =>
      if 0 < i < |p| - 1 then HalfDifference(p[i + 1], p[i - 1])
      else if prior.Some? then prior.value[i] else None)
  }

  /** Along a track that moves by `step` per sample, every interior estimate is exactly
      `step`: the difference is halved but not divided by the sample spacing. */
  lemma LinearTrackVelocity(p: Column, prior: Option<Column>, start: real, step: real)
    requires prior.Some? ==> |prior.value| == |p|
    requires forall i :: 0 <= i < |p| ==> p[i] == Some(start + i as real * step)
    ensures forall i :: 0 < i < |p| - 1 ==> CentralDifference(p, prior)[i] == Some(step)
  {
    forall i | 0 < i < |p| - 1
      ensures CentralDifference(p, prior)[i] == Some(step)
    {
      var next, previous := p[i + 1], p[i - 1];
      assert next == Some(start + (i + 1) as real * step);
      assert previous == Some(start + (i - 1) as real * step);
      assert next.value - previous.value == 2.0 * step;
      assert HalfDifference(next, previous) == Some(step);
    }
  }

  /** On a new column the two end samples are NaN and every interior sample with both
      neighbours present is set; on an existing column the ends are left as they were. */
  lemma EndpointsOfEstimate(p: Column, prior: Option<Column>)
    requires prior.Some? ==> |prior.value| == |p|
    requires 0 < |p|
    ensures var v := CentralDifference(p, prior);
      (prior.None? ==> v[0].None? && v[|p| - 1].None?)
      && (prior.Some? ==> v[0] == prior.value[0] && v[|p| - 1] == prior.value[|p| - 1])
      && forall i :: 0 < i < |p| - 1 ==> (v[i].Some? <==> p[i - 1].Some? && p[i + 1].Some?)
  {
  }

  /** `calculate_ecef_velocity`: the estimate of each velocity component from the
      position component of the same axis. Nothing but the three velocity columns
      changes. */
  method CalculateEcefVelocity(inst: Instrument)
    requires inst.Valid() && HasColumns(inst.data, Position)
    modifies inst`data
    ensures inst.Valid()
    ensures inst.data == old(inst.data)
      [Velocity.x := CentralDifference(old(inst.data)[Position.x], Existing(old(inst.data), Velocity.x))]
      [Velocity.y := CentralDifference(old(inst.data)[Position.y], Existing(old(inst.data), Velocity.y))]
      [Velocity.z := CentralDifference(old(inst.data)[Position.z], Existing(old(inst.data), Velocity.z))]
  {
    var d := inst.data;
    var vx := CentralDifference(d[Position.x], Existing(d, Velocity.x));
    var vy := CentralDifference(d[Position.y], Existing(d, Velocity.y));
    var vz := CentralDifference(d[Position.z], Existing(d, Velocity.z));
    inst.SetColumn(Velocity.x, vx);
    inst.SetColumn(Velocity.y, vy);
    inst.SetColumn(Velocity.z, vz);
  }

  /** One output column of the projection: each sample of the vector under `u` in
      `current` dotted with the same sample of the axis under `axis` in `frame`. */
  function ProjectColumn(current: map<string, Column>, u: Labels, frame: map<string, Column>,
                         axis: Labels, n: nat): (c: Column)
    requires Aligned(current, n) && HasColumns(current, u)
    requires Aligned(frame, n) && HasColumns(frame, axis)
    ensures |c| == n
  {
    seq(n, i requires 0 <= i < n => Project(Vector(current, u, i), Vector(frame, axis, i)))
  }

  /** The data after `project_ecef_vector_onto_sc`. The frame columns are read once at
      the start; the vector is read again for each output column, so an output label
      equal to an input label feeds the later columns. */
  function Projected(d: map<string, Column>, n: nat, u: Labels, out: Labels): (e: map<string, Column>)
    requires Aligned(d, n) && HasColumns(d, u)
    requires HasColumns(d, ScX) && HasColumns(d, ScY) && HasColumns(d, ScZ)
    ensures Aligned(e, n)
  {
    var d1 := d[out.x := ProjectColumn(d, u, d, ScX, n)];
    var d2 := d1[out.y := ProjectColumn(d1, u, d, ScY, n)];
    d2[out.z := ProjectColumn(d2, u, d, ScZ, n)]
  }

  /** When the output labels are three new names apart from the input's, each output
      sample is the dot product of the input sample with the matching frame axis, and no
      other column changes. */
  lemma ProjectedApart(d: map<string, Column>, n: nat, u: Labels, out: Labels)
    requires Aligned(d, n) && HasColumns(d, u)
    requires HasColumns(d, ScX) && HasColumns(d, ScY) && HasColumns(d, ScZ)
    requires Apart(out, u) && Distinct(out)
    ensures var e := Projected(d, n, u, out);
      HasColumns(e, out)
      && e.Keys == d.Keys + Names(out)
      && (forall k :: k in d && !Labelled(k, out) ==> e[k] == d[k])
      && forall i :: 0 <= i < n ==>
           Sample(e, out, i) == Triple(Project(Vector(d, u, i), Vector(d, ScX, i)),
                                       Project(Vector(d, u, i), Vector(d, ScY, i)),
                                       Project(Vector(d, u, i), Vector(d, ScZ, i)))
  {
    var d1 := d[out.x := ProjectColumn(d, u, d, ScX, n)];
    var d2 := d1[out.y := ProjectColumn(d1, u, d, ScY, n)];
    assert ProjectColumn(d1, u, d, ScY, n) == ProjectColumn(d, u, d, ScY, n);
    assert ProjectColumn(d2, u, d, ScZ, n) == ProjectColumn(d, u, d, ScZ, n);
  }

  /** `project_ecef_vector_onto_sc`, three column assignments in order. */
  method ProjectEcefVectorOntoSc(inst: Instrument, u: Labels, out: Labels)
    requires inst.Valid() && HasColumns(inst.data, u)
    requires HasColumns(inst.data, ScX) && HasColumns(inst.data, ScY) && HasColumns(inst.data, ScZ)
    modifies inst`data
    ensures inst.Valid()
    ensures inst.data == Projected(old(inst.data), |inst.index|, u, out)
  {
    var d, n := inst.data, |inst.index|;
    inst.SetColumn(out.x, ProjectColumn(inst.data, u, d, ScX, n));
    inst.SetColumn(out.y, ProjectColumn(inst.data, u, d, ScY, n));
    inst.SetColumn(out.z, ProjectColumn(inst.data, u, d, ScZ, n));
  }

  /** The projection is linear in the vector projected. */
  lemma ProjectLinear(k: real, a: Vec3, b: Vec3, axis: Option<Vec3>)
    requires axis.Some?
    ensures Project(Some(Add(Scale(k, a), b)), axis).value
         == k * Project(Some(a), axis).value + Project(Some(b), axis).value
  {
    DotAddLeft(Scale(k, a), b, axis.value);
    DotScaleLeft(k, a, axis.value);
  }
}
