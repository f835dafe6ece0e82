/** The legacy sgp4 loader: the two lines, the date read back from the first file name,
    the one-second time grid of that day, and the columns of propagated position and
    velocity, collected as one flat list per quantity and split back by stride three.
    The propagator is a parameter. */
module Sgp4Loader {
  import opened Wrappers
  import opened Vectors
  import opened Text
  import opened Calendar
  import opened SimFiles

  const IssLine1 := "1 25544U 98067A   18135.61844383  .00002728  00000-0  48567-4 0  9998"
  const IssLine2 := "2 25544  51.6402 181.0633 0004018  88.8954  22.2246 15.54059185113452"

  /** The number of samples kept when the tests run with reduced resources. */
  const ReducedSamples := 100

  /** The two lines: each given line replaces its default independently. */
  function Lines(tle1: Option<string>, tle2: Option<string>): (lines: (string, string))
    ensures lines.0 == (if tle1.Some? then tle1.value else IssLine1)
    ensures lines.1 == (if tle2.Some? then tle2.value else IssLine2)
  {
    (if tle1.Some? then tle1.value else IssLine1, if tle2.Some? then tle2.value else IssLine2)
  }

  /** `int(...)` of a field, narrowed to plain ASCII digits: a non-empty run of them is
      read as its value, and anything else is the `ValueError`. */
  function ParseField(s: string): (r: Result<nat, Exception>)
    ensures r.Ok? <==> s != [] && AllDigits(s)
    ensures r.Ok? ==> r.value == Value(s)
  {
    match ParseNat(s)
    case Some(n) => Ok(n)
    case None => Err(ValueError("invalid literal for int()"))
  }

  /** The date in the first file name: its base name split at '-', the year from the
      first field, the month from the second and the day from the first two characters
      of the third. The fields are read in that order, so a missing field is found only
      after the ones before it parsed; a date outside the calendar is refused. */
  function ParseFileDate(fnames: seq<string>): (r: Result<Date, Exception>)
    ensures r.Ok? ==> Calendar.Valid(r.value)
  {
    if fnames == [] then Err(IndexError)
    else
      var parts := Split(Basename(fnames[0]), '-');
      match ParseField(parts[0])
      case Err(e) => Err(e)
      case Ok(year) =>
        if |parts| < 2 then Err(IndexError)
        else match ParseField(parts[1])
          case Err(e) => Err(e)
          case Ok(month) =>
            if |parts| < 3 then Err(IndexError)
            else
              var field := parts[2];
              match ParseField(field[..if |field| < 2 then |field| else 2])
              case Err(e) => Err(e)
              case Ok(day) =>
                if Calendar.Valid(Date(year, month, day)) then Ok(Date(year, month, day))
                else Err(ValueError("day is out of range for month"))
  }

  /** Reading the date back from a name the simulated file list builds gives the date it
      was built from, when the data path ends in a separator. */
  lemma FileNameRoundTrip(dir: string, d: Date, rest: seq<string>)
    requires Calendar.Valid(d) && 1000 <= d.year
    ensures ParseFileDate([FileName(dir + "/", d)] + rest) == Ok(d)
  {
    FormatDateFields(d);
    var y, m, dd := PadDecimal(d.year, 4), PadDecimal(d.month, 2), PadDecimal(d.day, 2);
    var name := FormatDate(d) + Suffix;
    DigitsFree(y, '/');
    DigitsFree(m, '/');
    DigitsFree(dd, '/');
    assert '/' !in name;
    assert FileName(dir + "/", d) == dir + "/" + name;
    BasenameAfterSlash(dir, name);
    var third := dd + Suffix;
    DigitsFree(y, '-');
    DigitsFree(m, '-');
    DigitsFree(dd, '-');
    assert '-' !in third;
    var parts := [y, m, third];
    assert parts[1..] == [m, third] && [m, third][1..] == [third];
    assert Join([m, third], "-") == m + "-" + third;
    assert Join(parts, "-") == y + "-" + (m + "-" + third);
    assert name == y + "-" + m + "-" + dd + Suffix;
    SplitJoin(parts, '-');
    assert third[..2] == dd;
    var fnames := [FileName(dir + "/", d)] + rest;
    assert fnames[0] == dir + "/" + name;
    assert Basename(fnames[0]) == name;
    assert Join(parts, ['-']) == name;
    assert Split(name, '-') == parts;
    assert ParseField(y) == Ok(d.year) && ParseField(m) == Ok(d.month) && ParseField(dd) == Ok(d.day);
    assert Date(d.year, d.month, d.day) == d;
  }

  lemma DigitsFree(s: string, c: char)
    requires AllDigits(s) && !IsDigit(c)
    ensures c !in s
  {
  }

  /** A name whose base name has no '-' is refused before any field but the year is
      read; with no file name at all there is nothing to read. */
  lemma ParseFailures(fnames: seq<string>)
    ensures fnames == [] ==> ParseFileDate(fnames) == Err(IndexError)
    ensures fnames != [] && '-' !in Basename(fnames[0]) ==> ParseFileDate(fnames).Err?
  {
    if fnames != [] && '-' !in Basename(fnames[0]) {
      SplitFree(Basename(fnames[0]), '-');
    }
  }

  /** The 1 Hz time stamps from midnight of `date` to 23:59:59, or only the first
      hundred of them on a test server. */
  function DayGrid(date: Date, reduced: bool): (times: seq<DateTime>)
    ensures |times| == (if reduced then ReducedSamples else 86400)
    ensures forall k :: 0 <= k < |times| ==> times[k] == DateTime(date, k as real)
  {
    var day := seq(86400, k requires 0 <= k < 86400 => DateTime(date, k as real));
    if reduced then day[..ReducedSamples] else day
  }

  /** The samples of a whole day run from midnight to one second before the next. */
  lemma DayGridSpan(date: Date)
    requires Calendar.Valid(date)
    ensures var times := DayGrid(date, false);
      times[0] == DateTime(date, 0.0) && times[|times| - 1] == DateTime(date, 86399.0)
      && forall k :: 0 <= k < |times| ==> ValidTime(times[k])
  {
  }

  /** `list.extend` of each vector in turn: the components one after another. */
  function Flatten(vs: seq<Vec3>): (xs: seq<real>)
    ensures |xs| == 3 * |vs|
  {
    if vs == [] then []
    else
      var v := vs[|vs| - 1];
      Flatten(vs[..|vs| - 1]) + [v.x, v.y, v.z]
  }

  /** `xs[start::3]`. */
  function Stride(xs: seq<real>, start: nat): (ys: seq<real>)
    ensures |ys| == (if start < |xs| then (|xs| - start + 2) / 3 else 0)
  {
    if start < |xs| then
      seq((|xs| - start + 2) / 3, k requires 0 <= k < (|xs| - start + 2) / 3 => xs[start + 3 * k])
    else []
  }

  /** Component `c` of a vector. */
  function Component(v: Vec3, c: nat): real
    requires c < 3
  {
    if c == 0 then v.x else if c == 1 then v.y else v.z
  }

  lemma {:induction false} FlattenAt(vs: seq<Vec3>, i: nat, c: nat)
    requires i < |vs| && c < 3
    ensures Flatten(vs)[3 * i + c] == Component(vs[i], c)
    decreases |vs|
  {
    var init := vs[..|vs| - 1];
    if i < |vs| - 1 {
      FlattenAt(init, i, c);
    }
  }

  /** Deinterleaving an interleaved list by stride three recovers each component. */
  lemma StrideFlatten(vs: seq<Vec3>, c: nat)
    requires c < 3
    ensures Stride(Flatten(vs), c) == seq(|vs|, i requires 0 <= i < |vs| => Component(vs[i], c))
  {
    var xs := Flatten(vs);
    var ys := Stride(xs, c);
    if c < |xs| {
      assert |ys| == |vs|;
      forall i | 0 <= i < |vs|
        ensures ys[i] == Component(vs[i], c)
      {
        FlattenAt(vs, i, c);
      }
    }
  }

  /** Interleaving the three strides of a list whose length is a multiple of three
      gives back the list. */
  lemma StrideInterleave(xs: seq<real>)
    requires |xs| % 3 == 0
    ensures var n := |xs| / 3;
      Flatten(seq(n, i requires 0 <= i < n => Vec3(Stride(xs, 0)[i], Stride(xs, 1)[i], Stride(xs, 2)[i]))) == xs
  {
    var n := |xs| / 3;
    var vs := seq(n, i requires 0 <= i < n => Vec3(Stride(xs, 0)[i], Stride(xs, 1)[i], Stride(xs, 2)[i]));
    var ys := Flatten(vs);
    forall j | 0 <= j < |xs|
      ensures ys[j] == xs[j]
    {
      var i, c := j / 3, j % 3;
      assert j == 3 * i + c && i < n;
      FlattenAt(vs, i, c);
      assert Stride(xs, c)[i] == xs[c + 3 * i];
      assert Component(vs[i], c) == Stride(xs, c)[i];
    }
  }

  /** Three columns, one per component. */
  datatype Columns = Columns(x: seq<real>, y: seq<real>, z: seq<real>)

  /** The loaded data: the time stamps and the ECI position and velocity columns. */
  datatype Sgp4Data = Sgp4Data(index: seq<DateTime>, position: Columns, velocity: Columns)

  function Deinterleave(xs: seq<real>): Columns {
    Columns(Stride(xs, 0), Stride(xs, 1), Stride(xs, 2))
  }

  /** The column triple holds the components of `vs`, one row per vector. */
  predicate Holds(c: Columns, vs: seq<Vec3>) {
    |c.x| == |vs| && |c.y| == |vs| && |c.z| == |vs|
    && forall i :: 0 <= i < |vs| ==> c.x[i] == vs[i].x && c.y[i] == vs[i].y && c.z[i] == vs[i].z
  }

  /** Splitting an interleaved list into its three strides gives each component of
      each vector back, in order. */
  lemma DeinterleaveFlatten(vs: seq<Vec3>)
    ensures Holds(Deinterleave(Flatten(vs)), vs)
  {
    StrideFlatten(vs, 0);
    StrideFlatten(vs, 1);
    StrideFlatten(vs, 2);
  }

  /** The positions, then the velocities, the propagator gives at each time stamp. */
  function Positions(lines: (string, string), times: seq<DateTime>,
                     propagate: (string, string, DateTime) -> (Vec3, Vec3)): (ps: seq<Vec3>)
    ensures |ps| == |times| && forall i :: 0 <= i < |times| ==> ps[i] == propagate(lines.0, lines.1, times[i]).0
  {
    seq(|times|, i requires 0 <= i < |times| => propagate(lines.0, lines.1, times[i]).0)
  }

  function Velocities(lines: (string, string), times: seq<DateTime>,
                      propagate: (string, string, DateTime) -> (Vec3, Vec3)): (vs: seq<Vec3>)
    ensures |vs| == |times| && forall i :: 0 <= i < |times| ==> vs[i] == propagate(lines.0, lines.1, times[i]).1
  {
    seq(|times|, i requires 0 <= i < |times| => propagate(lines.0, lines.1, times[i]).1)
  }

  /** The propagator evaluated at every time stamp, position and velocity lists
      interleaved x, y, z per time stamp as they are appended. */
  method Propagate(lines: (string, string), times: seq<DateTime>,
                   propagate: (string, string, DateTime) -> (Vec3, Vec3))
    returns (position: seq<real>, velocity: seq<real>)
    ensures position == Flatten(Positions(lines, times, propagate))
    ensures velocity == Flatten(Velocities(lines, times, propagate))
  {
    ghost var ps := Positions(lines, times, propagate);
    ghost var vs := Velocities(lines, times, propagate);
    position, velocity := [], [];
    var i := 0;
    while i < |times|
      invariant 0 <= i <= |times|
      invariant position == Flatten(ps[..i])
      invariant velocity == Flatten(vs[..i])
    {
      var (p, v) := propagate(lines.0, lines.1, times[i]);
      assert ps[..i + 1][..i] == ps[..i] && vs[..i + 1][..i] == vs[..i];
      position := position + [p.x, p.y, p.z];
      velocity := velocity + [v.x, v.y, v.z];
      i := i + 1;
    }
    assert ps[..i] == ps && vs[..i] == vs;
  }

  /** The stand-in for the message of the `ValueError` the propagator's `twoline2rv`
      raises on lines it cannot read. */
  const TleFormatError := "TLE format error"

  /** `load`. `readable` says whether `twoline2rv` accepts the two lines, which it is
      asked before the file name is read; `propagate` stands for the satellite it builds
      from them, evaluated at one time stamp. */
  method Load(fnames: seq<string>, tle1: Option<string>, tle2: Option<string>, reduced: bool,
              readable: (string, string) -> bool,
              propagate: (string, string, DateTime) -> (Vec3, Vec3))
    returns (r: Result<Sgp4Data, Exception>)
    ensures var lines := Lines(tle1, tle2);
      r.Err? <==> !readable(lines.0, lines.1) || ParseFileDate(fnames).Err?
    ensures var lines := Lines(tle1, tle2);
      !readable(lines.0, lines.1) ==> r == Err(ValueError(TleFormatError))
    ensures var lines := Lines(tle1, tle2);
      readable(lines.0, lines.1) && r.Err? ==> r.error == ParseFileDate(fnames).error
    ensures r.Ok? ==>
      var times := DayGrid(ParseFileDate(fnames).value, reduced);
      r.value.index == times
      && Holds(r.value.position, Positions(Lines(tle1, tle2), times, propagate))
      && Holds(r.value.velocity, Velocities(Lines(tle1, tle2), times, propagate))
  {
    var lines := Lines(tle1, tle2);
    if !readable(lines.0, lines.1) {
      return Err(ValueError(TleFormatError));
    }
    var parsed := ParseFileDate(fnames);
    if parsed.Err? {
      return Err(parsed.error);
    }
    var times := DayGrid(parsed.value, reduced);
    var position, velocity := Propagate(lines, times, propagate);
    DeinterleaveFlatten(Positions(lines, times, propagate));
    DeinterleaveFlatten(Velocities(lines, times, propagate));
    r := Ok(Sgp4Data(times, Deinterleave(position), Deinterleave(velocity)));
  }
}
