/** The COSMIC 2013 radio-occultation instrument: the file index read from the file
    names, the loading of readable files, the cleaning of ionospheric profiles and the
    download requests. Reading netCDF files, the file-system search and the network are
    parameters or left out. */
module CosmicGps {
  import opened Wrappers
  import opened Text
  import opened Calendar

  // ---------------------------------------------------------------------------------
  // list_files

  /** The time of one file: the year, the day of year and the seconds of day. */
  datatype Stamp = Stamp(year: nat, day: nat, uts: real)

  /** A `pandas.Series` of file names indexed by their times. */
  datatype FileIndex = FileIndex(index: seq<Stamp>, names: seq<string>)

  /** The dot-separated field `k` places from the end of a name, `f.split('.')[-k]`. */
  function FromEnd(f: string, k: nat): string
    requires 1 <= k <= |Split(f, '.')|
  {
    var parts := Split(f, '.');
    parts[|parts| - k]
  }

  /** `int(s)` for a field of digits. */
  predicate Numeric(s: string) {
    s != [] && AllDigits(s)
  }

  /** A name from which a time can be read: at least six fields, and the year, day, hour
      and minute fields (sixth to third from the end) are numbers. */
  predicate Timed(f: string) {
    6 <= |Split(f, '.')|
    && Numeric(FromEnd(f, 6)) && Numeric(FromEnd(f, 5))
    && Numeric(FromEnd(f, 4)) && Numeric(FromEnd(f, 3))
  }

  /** The offset that keeps the times of files sharing a minute apart:
      `((4 i) mod 8000) * 1e-5` seconds for the file at position `i`. */
  function Offset(i: nat): (t: real)
    ensures 0.0 <= t <= 0.07996
  {
    ((4 * i) % 8000) as real / 100000.0
  }

  /** The time of the file at position `i`. */
  function StampOf(f: string, i: nat): Stamp
    requires Timed(f)
  {
    var hour, minute := Value(FromEnd(f, 4)), Value(FromEnd(f, 3));
    Stamp(Value(FromEnd(f, 6)), Value(FromEnd(f, 5)), (3600 * hour + 60 * minute) as real + Offset(i))
  }

  /** The offsets of the first 2000 files are all different ... */
  lemma OffsetsDistinct(i: nat, j: nat)
    requires i < j < 2000
    ensures Offset(i) != Offset(j)
  {
    assert (4 * i) % 8000 == 4 * i && (4 * j) % 8000 == 4 * j;
  }

  /** ... and from there on they repeat, so two files 2000 positions apart in the same
      minute share a time. */
  lemma OffsetsRepeat(i: nat)
    ensures Offset(i + 2000) == Offset(i)
  {
    assert 4 * (i + 2000) == 4 * i + 8000;
  }

  /** `np.array(strs).astype(int)`: every field converted, or `ValueError` at the first
      that is not a number. */
  function ParseAll(strs: seq<string>): (r: Result<seq<nat>, Exception>)
    ensures r.Ok? <==> forall k :: 0 <= k < |strs| ==> Numeric(strs[k])
    ensures r.Err? ==> r.error.ValueError?
    ensures r.Ok? ==> |r.value| == |strs| && forall k :: 0 <= k < |strs| ==> r.value[k] == Value(strs[k])
  {
    if strs == [] then Ok([])
    else if !Numeric(strs[0]) then Err(ValueError("invalid literal for int() with base 10"))
    else
      match ParseAll(strs[1..])
      case Err(e) => Err(e)
      case Ok(rest) =>
        assert forall k :: 0 < k < |strs| ==> strs[k] == strs[1..][k - 1];
        Ok([Value(strs[0])] + rest)
  }

  /** The field `k` places from the end of every name. */
  function Column(files: seq<string>, k: nat): (c: seq<string>)
    requires 1 <= k && forall i :: 0 <= i < |files| ==> 6 <= |Split(files[i], '.')|
    requires k <= 6
    ensures |c| == |files|
  {
    seq(|files|, i requires 0 <= i < |files| => FromEnd(files[i], k))
  }

  /** The year, day, hour and minute fields of every name. */
  datatype Fields = Fields(year: seq<string>, days: seq<string>, hours: seq<string>, minutes: seq<string>)

  /** The loop of `list_files` that collects the fields name by name; a name with fewer
      than six fields raises `IndexError` there. */
  method CollectFields(files: seq<string>) returns (r: Result<Fields, Exception>)
    ensures r.Ok? <==> forall k :: 0 <= k < |files| ==> 6 <= |Split(files[k], '.')|
    ensures r.Err? ==> r.error == IndexError
    ensures r.Ok? ==>
      r.value == Fields(Column(files, 6), Column(files, 5), Column(files, 4), Column(files, 3))
  {
    var year, days, hours, minutes := [], [], [], [];
    var i := 0;
    while i < |files|
      invariant 0 <= i <= |files|
      invariant |year| == |days| == |hours| == |minutes| == i
      invariant forall k :: 0 <= k < i ==> 6 <= |Split(files[k], '.')|
      invariant forall k :: 0 <= k < i ==>
        year[k] == FromEnd(files[k], 6) && days[k] == FromEnd(files[k], 5)
        && hours[k] == FromEnd(files[k], 4) && minutes[k] == FromEnd(files[k], 3)
    {
      var f2 := Split(files[i], '.');
      if |f2| < 6 {
        return Err(IndexError);
      }
      year := year + [f2[|f2| - 6]];
      days := days + [f2[|f2| - 5]];
      hours := hours + [f2[|f2| - 4]];
      minutes := minutes + [f2[|f2| - 3]];
      i := i + 1;
    }
    r := Ok(Fields(year, days, hours, minutes));
  }

  /** `list_files` over the names the file-system search found, in the order found. The
      fields are collected name by name, then each field list is converted to numbers,
      year first. With no names the series is empty. */
  method ListFiles(files: seq<string>) returns (r: Result<FileIndex, Exception>)
    ensures (exists k :: 0 <= k < |files| && |Split(files[k], '.')| < 6) ==> r == Err(IndexError)
    ensures r.Ok? <==> forall k :: 0 <= k < |files| ==> Timed(files[k])
    ensures r.Err? && (forall k :: 0 <= k < |files| ==> 6 <= |Split(files[k], '.')|) ==> r.error.ValueError?
    ensures r.Ok? ==>
      r.value.names == files && |r.value.index| == |files|
      && forall k :: 0 <= k < |files| ==> r.value.index[k] == StampOf(files[k], k)
  {
    if |files| == 0 {
      return Ok(FileIndex([], []));
    }
    var fields := CollectFields(files);
    if fields.Err? {
      return Err(fields.error);
    }
    var y := ParseAll(fields.value.year);
    var d := ParseAll(fields.value.days);
    var h := ParseAll(fields.value.hours);
    var m := ParseAll(fields.value.minutes);
    TimedColumns(files);
    if y.Err? {
      return Err(y.error);
    } else if d.Err? {
      return Err(d.error);
    } else if h.Err? {
      return Err(h.error);
    } else if m.Err? {
      return Err(m.error);
    }
    var index := seq(|files|, k requires 0 <= k < |files| =>
      Stamp(y.value[k], d.value[k], (3600 * h.value[k] + 60 * m.value[k]) as real + Offset(k)));
    r := Ok(FileIndex(index, files));
  }

  /** Every name is timed exactly when each of its four field columns is all numbers. */
  lemma TimedColumns(files: seq<string>)
    requires forall i :: 0 <= i < |files| ==> 6 <= |Split(files[i], '.')|
    ensures (forall k :: 0 <= k < |files| ==> Timed(files[k])) <==>
      (forall k :: 0 <= k < |files| ==> Numeric(Column(files, 6)[k]))
      && (forall k :: 0 <= k < |files| ==> Numeric(Column(files, 5)[k]))
      && (forall k :: 0 <= k < |files| ==> Numeric(Column(files, 4)[k]))
      && (forall k :: 0 <= k < |files| ==> Numeric(Column(files, 3)[k]))
  {
    forall k | 0 <= k < |files|
      ensures Timed(files[k]) <==>
        Numeric(Column(files, 6)[k]) && Numeric(Column(files, 5)[k])
        && Numeric(Column(files, 4)[k]) && Numeric(Column(files, 3)[k])
    {
      assert Column(files, 6)[k] == FromEnd(files[k], 6);
      assert Column(files, 5)[k] == FromEnd(files[k], 5);
      assert Column(files, 4)[k] == FromEnd(files[k], 4);
      assert Column(files, 3)[k] == FromEnd(files[k], 3);
    }
  }

  /** A name made of a directory and file prefix (which may hold dots of its own), then
      year, day, hour, minute and two further fields, all dot-separated, yields those
      year, day, hour and minute fields. */
  lemma NameFields(prefix: string, year: string, day: string, hour: string, minute: string,
                   tail1: string, tail2: string)
    requires '.' !in year && '.' !in day && '.' !in hour && '.' !in minute
    requires '.' !in tail1 && '.' !in tail2
    ensures var f := prefix + "." + Join([year, day, hour, minute, tail1, tail2], ".");
      6 <= |Split(f, '.')|
      && FromEnd(f, 6) == year && FromEnd(f, 5) == day
      && FromEnd(f, 4) == hour && FromEnd(f, 3) == minute
  {
    var fields := [year, day, hour, minute, tail1, tail2];
    SplitConcat(prefix, Join(fields, "."), '.');
    SplitJoin(fields, '.');
    assert "." == ['.'];
  }

  // ---------------------------------------------------------------------------------
  // load_files

  /** The entries that are present, in their order. */
  function Compact<T>(xs: seq<Option<T>>): (ys: seq<Option<T>>)
    ensures |ys| <= |xs|
    ensures forall k :: 0 <= k < |ys| ==> ys[k].Some?
  {
    if xs == [] then [] else (if xs[0].Some? then [xs[0]] else []) + Compact(xs[1..])
  }

  lemma {:induction false} CompactAppend<T>(a: seq<Option<T>>, b: seq<Option<T>>)
    ensures Compact(a + b) == Compact(a) + Compact(b)
    decreases |a|
  {
    if a != [] {
      assert (a + b)[1..] == a[1..] + b;
      CompactAppend(a[1..], b);
    } else {
      assert a + b == b;
    }
  }

  lemma {:induction false} CompactWhole<T>(a: seq<Option<T>>)
    requires forall k :: 0 <= k < |a| ==> a[k].Some?
    ensures Compact(a) == a
  {
    if a != [] {
      CompactWhole(a[1..]);
    }
  }

  /** An entry is kept exactly when it is present. */
  lemma {:induction false} CompactMembers<T>(a: seq<Option<T>>, x: Option<T>)
    ensures x in Compact(a) <==> x in a && x.Some?
  {
    if a != [] {
      CompactMembers(a[1..], x);
      assert a == [a[0]] + a[1..];
    }
  }

  /** What the readable files held, in their order. */
  function Readable<T>(loaded: seq<Option<T>>): (out: seq<T>)
    ensures |out| <= |loaded|
  {
    var c := Compact(loaded);
    seq(|c|, k requires 0 <= k < |c| => c[k].value)
  }

  /** A file's contents are loaded exactly when the file could be read. */
  lemma ReadableMembers<T>(loaded: seq<Option<T>>, x: T)
    ensures x in Readable(loaded) <==> Some(x) in loaded
  {
    var c := Compact(loaded);
    CompactMembers(loaded, Some(x));
    if x in Readable(loaded) {
      var k :| 0 <= k < |c| && c[k].value == x;
      assert c[k] == Some(x);
    }
    if Some(x) in loaded {
      var k :| 0 <= k < |c| && c[k] == Some(x);
      assert Readable(loaded)[k] == x;
    }
  }

  /** `drop` lists, in ascending order, exactly the positions whose read failed. */
  predicate Failures<T>(loaded: seq<Option<T>>, drop: seq<nat>) {
    (forall j :: 0 <= j < |drop| ==> drop[j] < |loaded| && loaded[drop[j]].None?)
    && (forall j, j' :: 0 <= j < j' < |drop| ==> drop[j] < drop[j'])
    && (forall k :: 0 <= k < |loaded| && Unread(loaded, k) ==> k in drop)
  }

  /** The read of file `k` failed. */
  predicate Unread<T>(loaded: seq<Option<T>>, k: nat)
    requires k < |loaded|
  {
    loaded[k].None?
  }

  /** Between two consecutive failures, and after the last one, every read succeeded. */
  lemma Gap<T>(loaded: seq<Option<T>>, drop: seq<nat>, q: nat)
    requires Failures(loaded, drop) && q < |drop|
    ensures var t := if q + 1 < |drop| then drop[q + 1] else |loaded|;
      drop[q] < t <= |loaded| && forall m :: drop[q] < m < t ==> loaded[m].Some?
  {
    var t := if q + 1 < |drop| then drop[q + 1] else |loaded|;
    forall m | drop[q] < m < t
      ensures loaded[m].Some?
    {
      assert Unread(loaded, m) ==> m in drop;
    }
  }

  /** Before the first failure every read succeeded. */
  lemma Head<T>(loaded: seq<Option<T>>, drop: seq<nat>)
    requires Failures(loaded, drop)
    ensures var t := if drop == [] then |loaded| else drop[0];
      t <= |loaded| && forall m :: 0 <= m < t ==> loaded[m].Some?
  {
    var t := if drop == [] then |loaded| else drop[0];
    forall m | 0 <= m < t
      ensures loaded[m].Some?
    {
      assert Unread(loaded, m) ==> m in drop;
    }
  }

  /** Deleting a failed position `j` whose successors up to `t` were all read extends
      the compacted suffix from `t` down to `j`. */
  lemma DeleteStep<T>(loaded: seq<Option<T>>, j: nat, t: nat)
    requires j < t <= |loaded| && loaded[j].None?
    requires forall m :: j < m < t ==> loaded[m].Some?
    ensures var out := loaded[..t] + Compact(loaded[t..]);
      out[..j] + out[j + 1..] == loaded[..j] + Compact(loaded[j..])
  {
    var rest := Compact(loaded[t..]);
    var out := loaded[..t] + rest;
    var mid := loaded[j + 1..t];
    SkipFailure(loaded, j, t);
    assert out[..j] == loaded[..j];
    assert out[j + 1..] == mid + rest;
  }

  /** Compacting from a failed position `j` whose successors up to `t` were all read. */
  lemma SkipFailure<T>(loaded: seq<Option<T>>, j: nat, t: nat)
    requires j < t <= |loaded| && loaded[j].None?
    requires forall m :: j < m < t ==> loaded[m].Some?
    ensures Compact(loaded[j..]) == loaded[j + 1..t] + Compact(loaded[t..])
  {
    var mid := loaded[j + 1..t];
    assert loaded[j..] == [loaded[j]] + (mid + loaded[t..]);
    assert ([loaded[j]] + (mid + loaded[t..]))[1..] == mid + loaded[t..];
    CompactAppend(mid, loaded[t..]);
    CompactWhole(mid);
  }

  /** The reading loop of `load_files`: each result is stored at its position and the
      positions whose read failed are collected in ascending order. */
  method ReadAll<T>(loaded: seq<Option<T>>) returns (out: seq<Option<T>>, drop: seq<nat>)
    ensures out == loaded && Failures(loaded, drop)
  {
    out := seq(|loaded|, k => None);
    drop := [];
    var i := 0;
    while i < |loaded|
      invariant 0 <= i <= |loaded| && |out| == |loaded|
      invariant forall k :: 0 <= k < i ==> out[k] == loaded[k]
      invariant forall k :: i <= k < |loaded| ==> out[k] == None
      invariant forall j :: 0 <= j < |drop| ==> drop[j] < i && loaded[drop[j]].None?
      invariant forall j, j' :: 0 <= j < j' < |drop| ==> drop[j] < drop[j']
      invariant forall k :: 0 <= k < i && Unread(loaded, k) ==> k in drop
    {
      if loaded[i].Some? {
        out := out[i := loaded[i]];
      } else {
        drop := drop + [i];
      }
      i := i + 1;
    }
  }

  /** The deleting loop of `load_files`: the failed positions are deleted from the last
      to the first, so that no deletion moves a position still to be deleted, and what
      remains is exactly the entries that were read. */
  method DropFailures<T>(loaded: seq<Option<T>>, drop: seq<nat>) returns (out: seq<Option<T>>)
    requires Failures(loaded, drop)
    ensures out == Compact(loaded)
  {
    out := loaded;
    var order := seq(|drop|, j requires 0 <= j < |drop| => drop[|drop| - 1 - j]);
    var n := 0;
    assert loaded[..|loaded|] == loaded && loaded[|loaded|..] == [];
    while n < |order|
      invariant 0 <= n <= |order|
      invariant var t := if n == 0 then |loaded| else order[n - 1];
        t <= |loaded| && out == loaded[..t] + Compact(loaded[t..])
    {
      var t := if n == 0 then |loaded| else order[n - 1];
      var j := order[n];
      Gap(loaded, drop, |drop| - 1 - n);
      DeleteStep(loaded, j, t);
      out := out[..j] + out[j + 1..];
      n := n + 1;
    }
    Head(loaded, drop);
    Finish(loaded, if n == 0 then |loaded| else order[n - 1]);
  }

  /** Once every failure is deleted, what is left is the compacted whole. */
  lemma Finish<T>(loaded: seq<Option<T>>, t: nat)
    requires t <= |loaded| && forall m :: 0 <= m < t ==> loaded[m].Some?
    ensures loaded[..t] + Compact(loaded[t..]) == Compact(loaded)
  {
    var a, b := loaded[..t], loaded[t..];
    assert forall k :: 0 <= k < |a| ==> a[k] == loaded[k];
    CompactWhole(a);
    assert a + b == loaded;
    CompactAppend(a, b);
  }

  /** `load_files`. `loaded[i]` is what reading file `i` gave, `None` when the read
      raised `RuntimeError` (an empty file); the result holds what the readable files
      gave, in their order. */
  method LoadFiles<T>(loaded: seq<Option<T>>) returns (output: seq<T>)
    ensures output == Readable(loaded)
  {
    var out, drop := ReadAll(loaded);
    out := DropFailures(out, drop);
    output := seq(|out|, k requires 0 <= k < |out| => out[k].value);
  }

  // ---------------------------------------------------------------------------------
  // clean

  /** One row of an ionospheric profile: its altitude label (the profile's index), and
      the `MSL_alt` and `ELEC_dens` columns, `None` standing for NaN. */
  datatype Level = Level(height: real, mslAlt: Option<real>, dens: Option<real>)

  type Profile = seq<Level>

  /** One occultation: the peak density and its altitude and latitude, the scintillation
      summaries, and the density profile. */
  datatype Occultation = Occultation(edmaxalt: Option<real>, edmax: Option<real>, edmaxlat: Option<real>,
                                     alttpS4max: Option<real>, s4max9sec: Option<real>, profile: Profile)

  /** The value the data provider writes where its processing failed. */
  const Missing: real := -999.0

  /** The altitude, in km, separating the bottomside from the topside of a profile. */
  const Split325: real := 325.0

  function Abs(x: real): real {
    if x < 0.0 then -x else x
  }

  /** `profile.iloc[lo:hi] = np.nan`: every column of those rows becomes NaN, the altitude
      labels stay. */
  function Blank(p: Profile, lo: nat, hi: nat): (q: Profile)
    requires lo <= hi <= |p|
    ensures |q| == |p|
    ensures forall k :: 0 <= k < |p| ==> q[k].height == p[k].height
    ensures forall k :: 0 <= k < |p| ==> q[k] == (if lo <= k < hi then Cleared(p[k]) else p[k])
  {
    seq(|p|, k requires 0 <= k < |p| => if lo <= k < hi then Cleared(p[k]) else p[k])
  }

  function Cleared(l: Level): Level {
    Level(l.height, None, None)
  }

  /** A negative density (a NaN density compares false). */
  predicate Negative(l: Level) {
    l.dens.Some? && l.dens.value < 0.0
  }

  predicate LowNegative(l: Level) {
    Negative(l) && l.height <= Split325
  }

  predicate HighNegative(l: Level) {
    Negative(l) && l.height > Split325
  }

  /** `idx[-1]` of the rows with a negative density at or below 325 km. */
  function LastLow(p: Profile): (r: Option<nat>)
    ensures r.Some? <==> exists k :: 0 <= k < |p| && LowNegative(p[k])
    ensures r.Some? ==> (r.value < |p| && LowNegative(p[r.value])
                         && forall k :: r.value < k < |p| ==> !LowNegative(p[k]))
  {
    if p == [] then None
    else if LowNegative(p[|p| - 1]) then Some(|p| - 1)
    else
      var r := LastLow(p[..|p| - 1]);
      assert forall k :: 0 <= k < |p| - 1 ==> p[..|p| - 1][k] == p[k];
      r
  }

  /** `idx[0]` of the rows with a negative density above 325 km. */
  function FirstHigh(p: Profile): (r: Option<nat>)
    ensures r.Some? <==> exists k :: 0 <= k < |p| && HighNegative(p[k])
    ensures r.Some? ==> (r.value < |p| && HighNegative(p[r.value])
                         && forall k :: 0 <= k < r.value ==> !HighNegative(p[k]))
  {
    if p == [] then None
    else if HighNegative(p[0]) then Some(0)
    else
      assert forall k :: 1 <= k < |p| ==> p[1..][k - 1] == p[k];
      match FirstHigh(p[1..])
      case None => None
      case Some(k) => Some(k + 1)
  }

  /** Rows 0 through the last negative density at or below 325 km become NaN. */
  function TrimLow(p: Profile): (q: Profile)
    ensures |q| == |p|
  {
    match LastLow(p)
    case None => p
    case Some(k) => Blank(p, 0, k + 1)
  }

  /** Rows from the first negative density above 325 km to the top become NaN. */
  function TrimHigh(p: Profile): (q: Profile)
    ensures |q| == |p|
  {
    match FirstHigh(p)
    case None => p
    case Some(k) => Blank(p, k, |p|)
  }

  /** The two trimmings, in the order applied: the second looks at what the first left. */
  function Trimmed(p: Profile): (q: Profile)
    ensures |q| == |p|
  {
    TrimHigh(TrimLow(p))
  }

  /** A row is cleared by the bottomside trimming exactly when a negative density at or
      below 325 km lies at or above it in the profile. */
  lemma TrimLowRows(p: Profile, k: nat)
    requires k < |p|
    ensures TrimLow(p)[k] == (if exists j :: k <= j < |p| && LowNegative(p[j]) then Cleared(p[k]) else p[k])
  {
    if exists j :: k <= j < |p| && LowNegative(p[j]) {
      var j :| k <= j < |p| && LowNegative(p[j]);
      assert LastLow(p).Some? && j <= LastLow(p).value;
    }
  }

  /** A row is cleared by the topside trimming exactly when a negative density above
      325 km lies at or below it in the profile. */
  lemma TrimHighRows(p: Profile, k: nat)
    requires k < |p|
    ensures TrimHigh(p)[k] == (if exists j :: 0 <= j <= k && HighNegative(p[j]) then Cleared(p[k]) else p[k])
  {
    if exists j :: 0 <= j <= k && HighNegative(p[j]) {
      var j :| 0 <= j <= k && HighNegative(p[j]);
      assert FirstHigh(p).Some? && FirstHigh(p).value <= j;
    }
  }

  /** After both trimmings no negative density is left anywhere in the profile. */
  lemma TrimmedNonNegative(p: Profile)
    ensures forall k :: 0 <= k < |p| ==> !Negative(Trimmed(p)[k])
  {
    var q := TrimLow(p);
    forall k | 0 <= k < |p|
      ensures !Negative(Trimmed(p)[k])
    {
      TrimHighRows(q, k);
      if !exists j :: 0 <= j <= k && HighNegative(q[j]) {
        TrimLowRows(p, k);
        if !exists j :: k <= j < |p| && LowNegative(p[j]) {
          assert !LowNegative(q[k]);
          assert !HighNegative(q[k]);
        }
      }
    }
  }

  /** The gradient test at row `k` (k >= 1): the change in density is more than the
      change in altitude times the density, in magnitude. Any NaN operand fails it. */
  predicate Steep(p: Profile, k: nat)
    requires 1 <= k < |p|
  {
    p[k].dens.Some? && p[k - 1].dens.Some? && p[k].mslAlt.Some? && p[k - 1].mslAlt.Some?
    && Abs(p[k].dens.value - p[k - 1].dens.value)
       > Abs((p[k].mslAlt.value - p[k - 1].mslAlt.value) * p[k].dens.value)
  }

  /** Some row of the profile fails the gradient test. */
  predicate Slipped(p: Profile) {
    exists k :: 1 <= k < |p| && Steep(p, k)
  }

  /** Where the denominator is not zero the test is the normalised gradient
      `|dn / (dh n)| > 1` of the source. (Where it is zero, a non-zero change in density
      gives an infinite gradient, which fails the test, and a zero one gives NaN, which
      passes it; `Steep` agrees with both.) */
  lemma SteepIsGradient(p: Profile, k: nat)
    requires 1 <= k < |p|
    requires p[k].dens.Some? && p[k - 1].dens.Some? && p[k].mslAlt.Some? && p[k - 1].mslAlt.Some?
    requires (p[k].mslAlt.value - p[k - 1].mslAlt.value) * p[k].dens.value != 0.0
    ensures var dn, den := p[k].dens.value - p[k - 1].dens.value,
                           (p[k].mslAlt.value - p[k - 1].mslAlt.value) * p[k].dens.value;
      Steep(p, k) <==> Abs(dn / den) > 1.0
  {
    var dn := p[k].dens.value - p[k - 1].dens.value;
    var den := (p[k].mslAlt.value - p[k - 1].mslAlt.value) * p[k].dens.value;
    var g := dn / den;
    assert dn == g * den;
    var ag, ad := Abs(g), Abs(den);
    assert Abs(dn) == ag * ad by {
      if g < 0.0 && den < 0.0 {
        assert dn == (-g) * (-den);
      } else if g < 0.0 {
        assert -dn == (-g) * den;
      } else if den < 0.0 {
        assert -dn == g * (-den);
      }
    }
    assert ad > 0.0;
    Product(ag, ad);
    assert Steep(p, k) <==> Abs(dn) > ad;
  }

  /** Multiplication behind a function symbol for the sign argument above. */
  lemma Product(a: real, b: real)
    requires 0.0 <= a && 0.0 < b
    ensures a * b > b <==> a > 1.0
  {
    if a > 1.0 {
      assert a * b - b == (a - 1.0) * b;
    } else {
      assert b - a * b == (1.0 - a) * b;
    }
  }

  /** `profile['ELEC_dens'] *= np.nan`. */
  function Smeared(p: Profile): (q: Profile)
    ensures |q| == |p|
    ensures forall k :: 0 <= k < |p| ==> q[k] == p[k].(dens := None)
  {
    seq(|p|, k requires 0 <= k < |p| => p[k].(dens := None))
  }

  /** One pass of the cleaning loop over an occultation: its profile trimmed, and when the
      trimmed profile fails the gradient test the peak values and the densities NaN. */
  function Checked(o: Occultation): Occultation {
    var p := Trimmed(o.profile);
    if Slipped(p) then o.(edmaxalt := None, edmax := None, edmaxlat := None, profile := Smeared(p))
    else o.(profile := p)
  }

  function Checks(rows: seq<Occultation>): (r: seq<Occultation>)
    ensures |r| == |rows|
  {
    seq(|rows|, k requires 0 <= k < |rows| => Checked(rows[k]))
  }

  /** `data[mask]`: the rows that pass, in their order. */
  function Where(rows: seq<Occultation>, keep: Occultation -> bool): (r: seq<Occultation>)
    ensures |r| <= |rows|
    ensures forall x :: x in r ==> x in rows && keep(x)
  {
    if rows == [] then []
    else (if keep(rows[0]) then [rows[0]] else []) + Where(rows[1..], keep)
  }

  /** The provider reported a peak (a NaN compares unequal to the missing value). */
  predicate PeakReported(o: Occultation) {
    o.edmaxalt != Some(Missing) && o.edmax != Some(Missing)
  }

  /** The peak altitude lies between 175 and 475 km (a NaN compares false). */
  predicate PeakInRange(o: Occultation) {
    o.edmaxalt.Some? && 175.0 <= o.edmaxalt.value <= 475.0
  }

  /** `edmaxalt.notnull()`. */
  predicate PeakKnown(o: Occultation) {
    o.edmaxalt.Some?
  }

  predicate ScintillationReported(o: Occultation) {
    o.alttpS4max != Some(Missing) && o.s4max9sec != Some(Missing)
  }

  /** An occultation that the 'clean' level of 'ionprf' keeps: a reported peak in range,
      and a trimmed profile that passes the gradient test. */
  predicate Survives(o: Occultation) {
    PeakReported(o) && PeakInRange(o) && !Slipped(Trimmed(o.profile))
  }

  function Kept(rows: seq<Occultation>): (r: seq<Occultation>)
    ensures |r| == |rows|
    ensures forall k :: 0 <= k < |rows| ==> r[k] == rows[k].(profile := Trimmed(rows[k].profile))
  {
    seq(|rows|, k requires 0 <= k < |rows| => rows[k].(profile := Trimmed(rows[k].profile)))
  }

  /** The ionospheric profiles at the 'clean' level, stage by stage as the source applies
      them: the two row filters, the per-profile pass, and the final `notnull` filter. */
  function CleanIonprf(rows: seq<Occultation>): seq<Occultation> {
    Where(Checks(Where(Where(rows, PeakReported), PeakInRange)), PeakKnown)
  }

  /** The stages together keep exactly the occultations that survive, with their profiles
      trimmed: in particular one that fails the gradient test loses its peak altitude and
      is removed. */
  lemma {:induction false} CleanIonprfSelects(rows: seq<Occultation>)
    ensures CleanIonprf(rows) == Kept(Where(rows, Survives))
  {
    if rows != [] {
      var o, rest := rows[0], rows[1..];
      assert rows == [o] + rest;
      CleanIonprfSelects(rest);
      CleanIonprfCons(o, rest);
      WhereCons(o, rest, Survives);
      KeptCons(o, Where(rest, Survives));
    }
  }

  /** The stages applied to one more occultation in front. */
  lemma CleanIonprfCons(o: Occultation, rest: seq<Occultation>)
    ensures CleanIonprf([o] + rest)
      == (if Survives(o) then [o.(profile := Trimmed(o.profile))] else []) + CleanIonprf(rest)
  {
    var rows := [o] + rest;
    var b := Where(Where(rest, PeakReported), PeakInRange);
    WhereCons(o, rest, PeakReported);
    if PeakReported(o) {
      assert Where(rows, PeakReported) == [o] + Where(rest, PeakReported);
      WhereCons(o, Where(rest, PeakReported), PeakInRange);
      if PeakInRange(o) {
        assert Where(Where(rows, PeakReported), PeakInRange) == [o] + b;
        ChecksCons(o, b);
        WhereCons(Checked(o), Checks(b), PeakKnown);
        if Slipped(Trimmed(o.profile)) {
          assert !PeakKnown(Checked(o)) && !Survives(o);
        } else {
          assert Checked(o) == o.(profile := Trimmed(o.profile)) && Survives(o);
        }
      } else {
        assert Where(Where(rows, PeakReported), PeakInRange) == b;
      }
    } else {
      assert Where(rows, PeakReported) == Where(rest, PeakReported);
    }
  }

  lemma WhereCons(o: Occultation, rest: seq<Occultation>, keep: Occultation -> bool)
    ensures Where([o] + rest, keep) == (if keep(o) then [o] else []) + Where(rest, keep)
  {
    assert ([o] + rest)[1..] == rest;
  }

  lemma ChecksCons(o: Occultation, rest: seq<Occultation>)
    ensures Checks([o] + rest) == [Checked(o)] + Checks(rest)
  {
    var r, s := Checks([o] + rest), [Checked(o)] + Checks(rest);
    assert |r| == |s|;
    forall k | 0 <= k < |r|
      ensures r[k] == s[k]
    {
      if k > 0 {
        assert ([o] + rest)[k] == rest[k - 1];
      }
    }
  }

  lemma KeptCons(o: Occultation, rest: seq<Occultation>)
    ensures Kept([o] + rest) == [o.(profile := Trimmed(o.profile))] + Kept(rest)
  {
    var r, s := Kept([o] + rest), [o.(profile := Trimmed(o.profile))] + Kept(rest);
    forall k | 0 <= k < |r|
      ensures r[k] == s[k]
    {
      if k > 0 {
        assert ([o] + rest)[k] == rest[k - 1];
      }
    }
  }

  /** Every occultation left by the 'clean' level of 'ionprf' has a reported peak between
      175 and 475 km, no negative density, and a profile that passes the gradient test. */
  lemma CleanIonprfSurvivors(rows: seq<Occultation>)
    ensures forall o :: o in CleanIonprf(rows) ==>
      PeakReported(o) && PeakInRange(o) && !Slipped(o.profile)
      && forall k :: 0 <= k < |o.profile| ==> !Negative(o.profile[k])
  {
    CleanIonprfSelects(rows);
    var kept := Where(rows, Survives);
    forall o | o in CleanIonprf(rows)
      ensures PeakReported(o) && PeakInRange(o) && !Slipped(o.profile)
      ensures forall k :: 0 <= k < |o.profile| ==> !Negative(o.profile[k])
    {
      var i :| 0 <= i < |kept| && Kept(kept)[i] == o;
      assert kept[i] in kept;
      TrimmedNonNegative(kept[i].profile);
    }
  }

  /** One pass of the cleaning loop: the profile trimmed below and then above 325 km,
      then the gradient test on what is left. */
  method CheckProfile(row: Occultation) returns (r: Occultation)
    ensures r == Checked(row)
  {
    var profile := row.profile;
    profile := TrimLow(profile);
    profile := TrimHigh(profile);
    if Slipped(profile) {
      r := row.(edmaxalt := None, edmax := None, edmaxlat := None, profile := Smeared(profile));
    } else {
      r := row.(profile := profile);
    }
  }

  /** The COSMIC instrument: its tag, its clean level and its rows. */
  class Cosmic {
    const tag: string
    const cleanLevel: string
    var data: seq<Occultation>

    constructor(tag: string, cleanLevel: string, data: seq<Occultation>)
      ensures this.tag == tag && this.cleanLevel == cleanLevel && this.data == data
    {
      this.tag := tag;
      this.cleanLevel := cleanLevel;
      this.data := data;
    }

    /** The loop over the profiles: each row replaced by its pass through the cleaning
        loop, in place. */
    method CheckProfiles()
      modifies this`data
      ensures data == Checks(old(data))
    {
      var i := 0;
      while i < |data|
        invariant 0 <= i <= |data| == |old(data)|
        invariant forall k :: 0 <= k < i ==> data[k] == Checked(old(data)[k])
        invariant forall k :: i <= k < |data| ==> data[k] == old(data)[k]
      {
        var row := CheckProfile(data[i]);
        data := data[i := row];
        i := i + 1;
      }
    }

    /** `clean`. For 'ionprf' the row filters and the per-profile pass run only at the
        'clean' level, while the final `notnull` filter runs at every level; for
        'scnlvl1' at the 'clean' level only the provider's missing values are filtered;
        any other tag is left as it is. */
    method Clean()
      modifies this`data
      ensures tag == "ionprf" && cleanLevel == "clean" ==> data == CleanIonprf(old(data))
      ensures tag == "ionprf" && cleanLevel != "clean" ==> data == Where(old(data), PeakKnown)
      ensures tag == "scnlvl1" && cleanLevel == "clean" ==> data == Where(old(data), ScintillationReported)
      ensures tag != "ionprf" && (tag != "scnlvl1" || cleanLevel != "clean") ==> data == old(data)
    {
      if tag == "ionprf" {
        if cleanLevel == "clean" {
          data := Where(data, PeakReported);
          data := Where(data, PeakInRange);
          CheckProfiles();
        }
        data := Where(data, PeakKnown);
      } else if tag == "scnlvl1" && cleanLevel == "clean" {
        data := Where(data, ScintillationReported);
      }
    }
  }

  // ---------------------------------------------------------------------------------
  // download

  /** The tags the instrument lists. */
  const Tags: seq<string> := ["ionprf", "sonprf", "wetprf", "atmprf"]

  const UnknownTag := "Unknown cosmic_gps tag"
  const NoAccount := "CDAAC user account information must be provided."

  /** The archive's sub-directory for a tag, as the source maps it: the fourth branch
      compares against 'atmPrf', not the listed tag 'atmprf'. */
  function SubDirAsWritten(tag: string): (sub: Option<string>)
    ensures sub.Some? <==> tag in {"ionprf", "sonprf", "wetprf", "atmPrf"}
  {
    if tag == "ionprf" then Some("ionPrf")
    else if tag == "sonprf" then Some("sonPrf")
    else if tag == "wetprf" then Some("wetPrf")
    else if tag == "atmPrf" then Some("atmPrf")
    else None
  }

  /** The mapping as evidently intended: the listed tag 'atmprf' reaches 'atmPrf' too. */
  function SubDir(tag: string): (sub: Option<string>)
    ensures sub.Some? <==> tag in Tags || tag == "atmPrf"
  {
    if tag == "atmprf" then Some("atmPrf") else SubDirAsWritten(tag)
  }

  /** One download: the archive's URL and the name it is saved under in the data path. */
  datatype Request = Request(url: string, archive: string)

  /** `'{year:04d}.{doy:03d}'`. */
  function YearDoy(d: Date): string
    requires Calendar.Valid(d)
  {
    PadDecimal(d.year, 4) + "." + PadDecimal(DayOfYear(d), 3)
  }

  function Server(satId: string): string {
    if satId == "2013" then "https://cdaac-www.cosmic.ucar.edu/cdaac/rest/tarservice/data/cosmic2013/"
    else "https://cdaac-www.cosmic.ucar.edu/cdaac/rest/tarservice/data/cosmic/"
  }

  /** The requests of the download loop, one per date, in order. */
  function Requests(dates: seq<Date>, sub: string, satId: string): (r: seq<Request>)
    requires forall k :: 0 <= k < |dates| ==> Calendar.Valid(dates[k])
    ensures |r| == |dates|
  {
    seq(|dates|, k requires 0 <= k < |dates| =>
      Request(Server(satId) + sub + "/" + YearDoy(dates[k]), "cosmic_" + sub + "_" + YearDoy(dates[k]) + ".tar"))
  }

  /** The checks `download` makes before it fetches anything, with a given tag mapping. */
  function DownloadWith(subDir: string -> Option<string>, dates: seq<Date>, tag: string, satId: string,
                        user: Option<string>, password: Option<string>): (r: Result<seq<Request>, Exception>)
    requires forall k :: 0 <= k < |dates| ==> Calendar.Valid(dates[k])
    ensures r.Err? <==> subDir(tag).None? || user.None? || password.None?
    ensures subDir(tag).None? ==> r == Err(ValueError(UnknownTag))
    ensures subDir(tag).Some? && r.Err? ==> r == Err(ValueError(NoAccount))
    ensures r.Ok? ==> r.value == Requests(dates, subDir(tag).value, satId)
  {
    match subDir(tag)
    case None => Err(ValueError(UnknownTag))
    case Some(sub) =>
      if user.None? || password.None? then Err(ValueError(NoAccount))
      else Ok(Requests(dates, sub, satId))
  }

  /** `download`, as the source maps tags. */
  function Download(dates: seq<Date>, tag: string, satId: string,
                    user: Option<string>, password: Option<string>): (r: Result<seq<Request>, Exception>)
    requires forall k :: 0 <= k < |dates| ==> Calendar.Valid(dates[k])
    ensures r.Err? <==> tag !in {"ionprf", "sonprf", "wetprf", "atmPrf"} || user.None? || password.None?
  {
    DownloadWith(SubDirAsWritten, dates, tag, satId, user, password)
  }

  /** `download` with the intended tag mapping. */
  function DownloadCorrected(dates: seq<Date>, tag: string, satId: string,
                             user: Option<string>, password: Option<string>): (r: Result<seq<Request>, Exception>)
    requires forall k :: 0 <= k < |dates| ==> Calendar.Valid(dates[k])
    ensures r.Err? <==> (tag !in Tags && tag != "atmPrf") || user.None? || password.None?
  {
    DownloadWith(SubDir, dates, tag, satId, user, password)
  }

  /** The listed tag 'atmprf' is refused by the download as written, whatever the
      account. */
  lemma AtmprfRefused(dates: seq<Date>, satId: string, user: Option<string>, password: Option<string>)
    requires forall k :: 0 <= k < |dates| ==> Calendar.Valid(dates[k])
    ensures "atmprf" in Tags
    ensures Download(dates, "atmprf", satId, user, password) == Err(ValueError(UnknownTag))
  {
  }

  /** With the intended mapping every listed tag is accepted once an account is given,
      and 'atmprf' is fetched from the 'atmPrf' archive. */
  lemma DownloadCorrectedAcceptsTags(dates: seq<Date>, tag: string, satId: string, user: string, password: string)
    requires forall k :: 0 <= k < |dates| ==> Calendar.Valid(dates[k])
    requires tag in Tags
    ensures DownloadCorrected(dates, tag, satId, Some(user), Some(password)).Ok?
    ensures tag == "atmprf" ==>
      DownloadCorrected(dates, tag, satId, Some(user), Some(password)).value == Requests(dates, "atmPrf", satId)
  {
  }

  /** The date field of a request gives back the year and the day of year. */
  lemma YearDoyFields(d: Date)
    requires Calendar.Valid(d) && 1000 <= d.year
    ensures var parts := Split(YearDoy(d), '.');
      |parts| == 2 && AllDigits(parts[0]) && AllDigits(parts[1])
      && Value(parts[0]) == d.year && Value(parts[1]) == DayOfYear(d)
  {
    var y, n := PadDecimal(d.year, 4), PadDecimal(DayOfYear(d), 3);
    PadDecimalValue(d.year, 4);
    PadDecimalValue(DayOfYear(d), 3);
    assert Pow10(4) == 10000 && Pow10(3) == 1000;
    assert '.' !in y && '.' !in n;
    SplitConcat(y, n, '.');
    SplitFree(y, '.');
    SplitFree(n, '.');
    assert YearDoy(d) == y + ['.'] + n;
  }
}
