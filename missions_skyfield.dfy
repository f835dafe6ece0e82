/** The skyfield loader of simulated satellite data, up to the call of the propagator:
    the keyword check and epoch default of `init`, and in `load` the choice of the two
    lines, the number of samples, the element set handed to the propagator, the epoch in
    days, and the one-orbit truncation of the sample times. */
module Skyfield {
  import opened Wrappers
  import opened RealMath
  import opened Calendar
  import opened Orbits

  /** The values a load keyword may take. */
  datatype Value = Text(text: string) | Number(number: real) | Flag(flag: bool) | Moment(moment: DateTime)

  /** The International Space Station's two-line element set, used when none is given. */
  const IssLine1 := "1 25544U 98067A   18135.61844383  .00002728  00000-0  48567-4 0  9998"
  const IssLine2 := "2 25544  51.6402 181.0633 0004018  88.8954  22.2246 15.54059185113452"

  /** `np.pi`. */
  const Pi: real := 3.141592653589793

  /** The reference day of the propagator's epoch. */
  const EpochReference: Date := Date(1949, 12, 31)

  /** The keywords `init` inspects and completes: the load keywords, and the dates of
      the instrument's files. */
  class SkyfieldInstrument {
    var loadKeywords: map<string, Value>
    const fileDates: seq<Date>

    constructor(loadKeywords: map<string, Value>, fileDates: seq<Date>)
      ensures this.loadKeywords == loadKeywords && this.fileDates == fileDates
    {
      this.loadKeywords := loadKeywords;
      this.fileDates := fileDates;
    }

    /** `init`: the orbit keyword check, whose error propagates and whose warning is
        returned, then the epoch defaulting to midnight of the first file date. Without
        an epoch and without files, taking the first file date raises. */
    method Init() returns (r: Result<Option<string>, Exception>)
      modifies this`loadKeywords
      ensures CheckOrbitalParams(old(loadKeywords).Keys).Err? ==>
        r == CheckOrbitalParams(old(loadKeywords).Keys) && loadKeywords == old(loadKeywords)
      ensures CheckOrbitalParams(old(loadKeywords).Keys).Ok? ==>
        if "epoch" in old(loadKeywords) then
          r == CheckOrbitalParams(old(loadKeywords).Keys) && loadKeywords == old(loadKeywords)
        else if fileDates == [] then
          r == Err(IndexError) && loadKeywords == old(loadKeywords)
        else
          r == CheckOrbitalParams(old(loadKeywords).Keys)
          && loadKeywords == old(loadKeywords)["epoch" := Moment(DateTime(fileDates[0], 0.0))]
    {
      r := CheckOrbitalParams(loadKeywords.Keys);
      if r.Err? {
        return;
      }
      if "epoch" !in loadKeywords {
        if fileDates == [] {
          return Err(IndexError);
        }
        loadKeywords := loadKeywords["epoch" := Moment(DateTime(fileDates[0], 0.0))];
      }
    }
  }

  /** The epoch keyword that `init` adds does not change the outcome of the orbit
      keyword check, so running `init` again on its result passes the check again. */
  lemma CheckIgnoresEpoch(keys: set<string>)
    ensures CheckOrbitalParams(keys + {"epoch"}) == CheckOrbitalParams(keys)
  {
    GroupsSpelled(keys);
    GroupsSpelled(keys + {"epoch"});
  }

  /** The whole days from 1949-12-31 to the epoch: the `days` of a `timedelta`, which
      rounds the difference down. */
  function EpochDays(epoch: DateTime): int
    requires Calendar.Valid(epoch.date)
  {
    (((Ordinal(epoch.date) - Ordinal(EpochReference)) as real * 86400.0 + epoch.seconds) / 86400.0).Floor
  }

  /** The time of day never changes the epoch's day count: it is the difference of the
      day numbers. */
  lemma EpochDaysWholeDays(epoch: DateTime)
    requires ValidTime(epoch)
    ensures EpochDays(epoch) == Ordinal(epoch.date) - Ordinal(EpochReference)
  {
    var k := Ordinal(epoch.date) - Ordinal(EpochReference);
    var x := (k as real * 86400.0 + epoch.seconds) / 86400.0;
    assert x == k as real + epoch.seconds / 86400.0;
    assert k as real <= x < k as real + 1.0;
  }

  /** The first day of the instrument's test date, 2018-01-01, is day 24838. */
  lemma EpochDaysOfTestDate()
    ensures EpochDays(DateTime(Date(2018, 1, 1), 0.0)) == 24838
  {
    EpochDaysWholeDays(DateTime(Date(2018, 1, 1), 0.0));
  }

  /** The keywords of `load` that this model follows. The cadence is the length of one
      step in seconds, which may be a fraction of a second. */
  datatype LoadArgs = LoadArgs(
    tle1: Option<string>, tle2: Option<string>,
    altPeriapsis: Option<real>, altApoapsis: Option<real>, inclination: Option<real>,
    raan: real, argPeriapsis: real, meanAnomaly: real,
    epoch: Option<DateTime>, bstar: real,
    oneOrbit: bool, numSamples: Option<nat>, cadence: real)

  /** What `generate_times` gives: the elapsed seconds of each sample, its time stamp, and
      the dates of the files. */
  datatype Grid = Grid(times: seq<real>, index: seq<DateTime>, dates: seq<Date>)

  /** The element set the propagator is built from: Keplerian elements with angles in
      radians, or the two lines of a TLE. */
  datatype ElementSet =
    | Keplerian(epochDays: int, bstar: real, eccentricity: real, argPeriapsis: real,
                inclination: real, meanAnomaly: real, meanMotion: Option<real>, raan: real)
    | TwoLine(line1: string, line2: string)

  /** What `load` hands to the propagator: the element set, the number of samples asked
      for, and the sample times and time stamps it keeps. */
  datatype Loaded = Loaded(elements: ElementSet, numSamples: nat, times: seq<real>, index: seq<DateTime>)

  /** `np.radians`. */
  function Radians(degrees: real): real {
    degrees * Pi / 180.0
  }

  /** The two lines: each given line replaces its default independently. */
  function Lines(args: LoadArgs): (lines: (string, string))
    ensures lines.0 == (if args.tle1.Some? then args.tle1.value else IssLine1)
    ensures lines.1 == (if args.tle2.Some? then args.tle2.value else IssLine2)
  {
    var line1 := if args.tle1.Some? then args.tle1.value else IssLine1;
    var line2 := if args.tle2.Some? then args.tle2.value else IssLine2;
    (line1, line2)
  }

  /** One less than the number of time stamps from one midnight to the next, both
      included, at the cadence: the steps in one day. */
  function StepsPerDay(cadence: real): (n: nat)
    requires 0.0 < cadence
    ensures Product(n as real, cadence) <= 86400.0 < Product((n + 1) as real, cadence)
  {
    var f := (86400.0 / cadence).Floor;
    StepBounds(cadence, f);
    f
  }

  /** The floor of 86400 / cadence, times the cadence, falls within one day and one
      more step does not. */
  lemma StepBounds(cadence: real, f: int)
    requires 0.0 < cadence && f == (86400.0 / cadence).Floor
    ensures 0 <= f
    ensures Product(f as real, cadence) <= 86400.0 < Product((f + 1) as real, cadence)
  {
    var q := 86400.0 / cadence;
    assert q * cadence == 86400.0;
    assert f as real * cadence == q * cadence - (q - f as real) * cadence;
    assert (f + 1) as real * cadence == q * cadence + ((f + 1) as real - q) * cadence;
    if f as real < q {
      ProductPositive(q - f as real, cadence);
    }
    ProductPositive((f + 1) as real - q, cadence);
  }



  /** The number of samples: the given one, or one day of steps when none is given or
      when only one orbit is wanted. */
  function NumSamples(args: LoadArgs): (n: nat)
    requires 0.0 < args.cadence
    ensures args.numSamples.Some? && !args.oneOrbit ==> n == args.numSamples.value
    ensures args.numSamples.None? || args.oneOrbit ==>
      Product(n as real, args.cadence) <= 86400.0 < Product((n + 1) as real, args.cadence)
  {
    if args.numSamples.None? || args.oneOrbit then StepsPerDay(args.cadence) else args.numSamples.value
  }

  lemma OneSecondCadence(args: LoadArgs)
    requires args.cadence == 1.0 && (args.numSamples.None? || args.oneOrbit)
    ensures NumSamples(args) == 86400
  {
  }

  /** The samples kept by the one-orbit mask: those whose elapsed time is within one
      orbital period, 2π / n minutes. A NaN mean motion makes every comparison false. */
  function InOneOrbit(times: seq<real>, meanMotion: Option<real>): (keep: seq<bool>)
    requires meanMotion != Some(0.0)
    ensures |keep| == |times|
    ensures forall i :: 0 <= i < |times| ==>
      (keep[i] <==> meanMotion.Some? && times[i] <= 2.0 * Pi / meanMotion.value * 60.0)
  {
    seq(|times|, i requires 0 <= i < |times| =>
      meanMotion.Some? && times[i] <= 2.0 * Pi / meanMotion.value * 60.0)
  }

  /** Boolean indexing: the entries of `xs` whose flag is set, in order. */
  function Select<T>(xs: seq<T>, keep: seq<bool>): (r: seq<T>)
    requires |keep| == |xs|
    ensures |r| <= |xs|
    decreases |xs|
  {
    if xs == [] then []
    else (if keep[0] then [xs[0]] else []) + Select(xs[1..], keep[1..])
  }

  /** The number of flags set. */
  function Count(keep: seq<bool>): (c: nat)
    ensures c <= |keep|
    decreases |keep|
  {
    if keep == [] then 0 else (if keep[0] then 1 else 0) + Count(keep[1..])
  }

  /** Masking keeps exactly the flagged entries: as many as there are flags, every
      flagged entry is kept, and each kept entry is a flagged entry of the original. */
  lemma {:induction false} SelectCount<T>(xs: seq<T>, keep: seq<bool>)
    requires |keep| == |xs|
    ensures |Select(xs, keep)| == Count(keep)
    ensures forall y :: y in Select(xs, keep) ==> exists i :: 0 <= i < |xs| && keep[i] && xs[i] == y
    ensures forall i :: 0 <= i < |xs| && keep[i] ==> xs[i] in Select(xs, keep)
    decreases |xs|
  {
    if xs != [] {
      SelectCount(xs[1..], keep[1..]);
      assert Select(xs, keep) == (if keep[0] then [xs[0]] else []) + Select(xs[1..], keep[1..]);
      forall i | 0 <= i < |xs| && keep[i]
        ensures xs[i] in Select(xs, keep)
      {
        if 0 < i {
          assert xs[1..][i - 1] == xs[i] && keep[1..][i - 1];
        }
      }
      forall y | y in Select(xs, keep)
        ensures exists i :: 0 <= i < |xs| && keep[i] && xs[i] == y
      {
        if keep[0] && y == xs[0] {
          assert keep[0] && xs[0] == y;
        } else {
          assert y in Select(xs[1..], keep[1..]);
          var i :| 0 <= i < |xs[1..]| && keep[1..][i] && xs[1..][i] == y;
          assert keep[i + 1] && xs[i + 1] == y;
        }
      }
    }
  }

  /** The same mask applied to the times and to the index keeps them in step: the j-th
      kept time and the j-th kept time stamp come from the same sample. */
  lemma {:induction false} SelectAligned<S, T>(xs: seq<S>, ys: seq<T>, keep: seq<bool>)
    requires |keep| == |xs| == |ys|
    ensures |Select(xs, keep)| == |Select(ys, keep)|
    ensures Select(seq(|xs|, i requires 0 <= i < |xs| => (xs[i], ys[i])), keep)
         == seq(|Select(xs, keep)|, j requires 0 <= j < |Select(xs, keep)| => (Select(xs, keep)[j], Select(ys, keep)[j]))
    decreases |xs|
  {
    SelectCount(xs, keep);
    SelectCount(ys, keep);
    if xs != [] {
      var pairs := seq(|xs|, i requires 0 <= i < |xs| => (xs[i], ys[i]));
      var rest := seq(|xs| - 1, i requires 0 <= i < |xs| - 1 => (xs[1..][i], ys[1..][i]));
      assert pairs[1..] == rest;
      SelectAligned(xs[1..], ys[1..], keep[1..]);
    }
  }

  predicate Ascending(times: seq<real>) {
    forall i, j :: 0 <= i < j < |times| ==> times[i] <= times[j]
  }

  /** On ascending times the one-orbit mask keeps a prefix: the first samples, up to the
      last one within the limit, and a sample lies in that prefix exactly when it is
      flagged. */
  lemma {:induction false} SelectPrefix<T>(times: seq<real>, xs: seq<T>, keep: seq<bool>, limit: real)
    requires |times| == |xs| == |keep| && Ascending(times)
    requires forall i :: 0 <= i < |times| ==> (keep[i] <==> times[i] <= limit)
    ensures Select(xs, keep) == xs[..Count(keep)]
    ensures Select(times, keep) == times[..Count(keep)]
    ensures forall i :: 0 <= i < |times| ==> (i < Count(keep) <==> keep[i])
    decreases |xs|
  {
    if xs != [] {
      if keep[0] {
        SelectPrefix(times[1..], xs[1..], keep[1..], limit);
        forall i | 0 < i < |times|
          ensures i < Count(keep) <==> keep[i]
        {
          assert keep[1..][i - 1] == keep[i];
        }
        assert xs[..Count(keep)] == [xs[0]] + xs[1..][..Count(keep[1..])];
        assert times[..Count(keep)] == [times[0]] + times[1..][..Count(keep[1..])];
      } else {
        NoneKept(times, limit);
        NothingFlagged(xs, keep);
        NothingFlagged(times, keep);
      }
    }
  }

  /** When the first time is already past the limit, no later one is within it. */
  lemma NoneKept(times: seq<real>, limit: real)
    requires Ascending(times) && 0 < |times| && limit < times[0]
    ensures forall i :: 0 <= i < |times| ==> !(times[i] <= limit)
  {
    forall i | 0 <= i < |times|
      ensures !(times[i] <= limit)
    {
      if 0 < i {
        assert times[0] <= times[i];
      }
    }
  }

  lemma {:induction false} NothingFlagged<T>(xs: seq<T>, keep: seq<bool>)
    requires |keep| == |xs| && forall i :: 0 <= i < |keep| ==> !keep[i]
    ensures Select(xs, keep) == [] && Count(keep) == 0
    decreases |xs|
  {
    if xs != [] {
      NothingFlagged(xs[1..], keep[1..]);
    }
  }

  /** `load` up to the propagator. `generate` stands for `generate_times` on the file
      names at the cadence; `tleMeanMotion` for the mean motion the propagator reads from
      two lines. A missing epoch cannot be subtracted from, no file date means no first
      date, and a Keplerian orbit without a periapsis cannot be converted. */
  function Load(args: LoadArgs, generate: nat -> Grid, tleMeanMotion: (string, string) -> real,
                sqrt: real -> real): (r: Result<Loaded, Exception>)
    requires IsSqrt(sqrt) && 0.0 < args.cadence
    requires forall n :: |generate(n).times| == |generate(n).index|
    requires args.epoch.Some? ==> Calendar.Valid(args.epoch.value.date)
    ensures r.Ok? ==> |r.value.times| == |r.value.index|
    ensures r.Ok? ==> (r.value.elements.Keplerian? <==> args.inclination.Some?)
  {
    var lines := Lines(args);
    var numSamples := NumSamples(args);
    var grid := generate(numSamples);
    if args.epoch.None? then Err(TypeError)
    else if grid.dates == [] then Err(IndexError)
    else
      var epochDays := EpochDays(args.epoch.value);
      var chosen: Result<(ElementSet, Option<real>), Exception> :=
        if args.inclination.Some? then
          if args.altPeriapsis.None? then Err(TypeError)
          else match ConvertToKeplerian(args.altPeriapsis.value, args.altApoapsis, "earth", sqrt)
            case Err(e) => Err(e)
            case Ok(k) =>
              Ok((Keplerian(epochDays, args.bstar, k.eccentricity, Radians(args.argPeriapsis),
                            Radians(args.inclination.value), Radians(args.meanAnomaly),
                            k.meanMotion, Radians(args.raan)), k.meanMotion))
        else
          var n := tleMeanMotion(lines.0, lines.1);
          Ok((TwoLine(lines.0, lines.1), Some(n)));
      match chosen
      case Err(e) => Err(e)
      case Ok((elements, meanMotion)) =>
        if !args.oneOrbit then Ok(Loaded(elements, numSamples, grid.times, grid.index))
        else if meanMotion == Some(0.0) then Err(ZeroDivisionError)
        else
          var keep := InOneOrbit(grid.times, meanMotion);
          SelectAligned(grid.times, grid.index, keep);
          Ok(Loaded(elements, numSamples, Select(grid.times, keep), Select(grid.index, keep)))
  }

  /** The mean motion the one-orbit mask divides by: the converted one of a Keplerian
      element set, or the one the propagator reads from two lines. */
  function MeanMotionOf(elements: ElementSet, tleMeanMotion: (string, string) -> real): Option<real> {
    if elements.Keplerian? then elements.meanMotion
    else Some(tleMeanMotion(elements.line1, elements.line2))
  }

  /** The element set is Keplerian exactly when an inclination is given, with the
      eccentricity and mean motion of `convert_to_keplerian` and the epoch in days;
      otherwise it is the two lines chosen. */
  lemma ElementSetChoice(args: LoadArgs, generate: nat -> Grid, tleMeanMotion: (string, string) -> real,
                         sqrt: real -> real)
    requires IsSqrt(sqrt) && 0.0 < args.cadence
    requires forall n :: |generate(n).times| == |generate(n).index|
    requires args.epoch.Some? ==> Calendar.Valid(args.epoch.value.date)
    ensures var r := Load(args, generate, tleMeanMotion, sqrt);
      r.Ok? ==> (r.value.elements.Keplerian? <==> args.inclination.Some?)
    ensures var r := Load(args, generate, tleMeanMotion, sqrt);
      r.Ok? && args.inclination.Some? ==>
        args.altPeriapsis.Some?
        && var k := ConvertToKeplerian(args.altPeriapsis.value, args.altApoapsis, "earth", sqrt);
        k.Ok? && r.value.elements.eccentricity == k.value.eccentricity
        && r.value.elements.meanMotion == k.value.meanMotion
        && r.value.elements.epochDays == EpochDays(args.epoch.value)
    ensures var r := Load(args, generate, tleMeanMotion, sqrt);
      r.Ok? && args.inclination.None? ==> r.value.elements == TwoLine(Lines(args).0, Lines(args).1)
  {
  }

  /** The loader fails only for a missing epoch, missing file dates, a Keplerian orbit
      without a periapsis or whose conversion fails, or a zero mean motion with one
      orbit requested; and a Keplerian orbit with altitudes 0 <= periapsis <= apoapsis
      always loads. */
  lemma LoadFailures(args: LoadArgs, generate: nat -> Grid, tleMeanMotion: (string, string) -> real,
                     sqrt: real -> real)
    requires IsSqrt(sqrt) && 0.0 < args.cadence
    requires forall n :: |generate(n).times| == |generate(n).index|
    requires args.epoch.Some? ==> Calendar.Valid(args.epoch.value.date)
    ensures var r := Load(args, generate, tleMeanMotion, sqrt);
      args.epoch.None? ==> r == Err(TypeError)
    ensures var r := Load(args, generate, tleMeanMotion, sqrt);
      args.epoch.Some? && generate(NumSamples(args)).dates == [] ==> r == Err(IndexError)
    ensures var r := Load(args, generate, tleMeanMotion, sqrt);
      (args.epoch.Some? && generate(NumSamples(args)).dates != [] && args.inclination.Some?
       && args.altPeriapsis.Some? && args.altApoapsis.Some?
       && 0.0 <= args.altPeriapsis.value <= args.altApoapsis.value) ==> r.Ok?
  {
    if args.inclination.Some? && args.altPeriapsis.Some? && args.altApoapsis.Some?
       && 0.0 <= args.altPeriapsis.value <= args.altApoapsis.value {
      EccentricityInUnitInterval(args.altPeriapsis.value, args.altApoapsis.value, sqrt);
      var k := ConvertToKeplerian(args.altPeriapsis.value, args.altApoapsis, "earth", sqrt);
      assert k.Ok? && k.value.meanMotion.Some?;
      MeanMotionObeysKepler(args.altPeriapsis.value, args.altApoapsis.value, sqrt);
    }
  }

  /** With one orbit requested the mean motion is not zero, a time of the grid is kept
      exactly when it lies within one orbital period 2π / n minutes, the time stamps kept
      are the same samples', and on ascending times they are the first samples of the
      grid, a sample being among them exactly when it is within the period. Without it
      the whole grid is kept. */
  lemma OneOrbitTruncation(args: LoadArgs, generate: nat -> Grid, tleMeanMotion: (string, string) -> real,
                           sqrt: real -> real)
    requires IsSqrt(sqrt) && 0.0 < args.cadence
    requires forall n :: |generate(n).times| == |generate(n).index|
    requires args.epoch.Some? ==> Calendar.Valid(args.epoch.value.date)
    ensures var r := Load(args, generate, tleMeanMotion, sqrt);
      var g := generate(NumSamples(args));
      r.Ok? && !args.oneOrbit ==> r.value.times == g.times && r.value.index == g.index
    ensures var r := Load(args, generate, tleMeanMotion, sqrt);
      var g := generate(NumSamples(args));
      r.Ok? && args.oneOrbit ==>
        var n := MeanMotionOf(r.value.elements, tleMeanMotion);
        n != Some(0.0)
        && (forall i :: 0 <= i < |g.times| ==>
              (g.times[i] in r.value.times <==> n.Some? && g.times[i] <= 2.0 * Pi / n.value * 60.0))
        && (Ascending(g.times) ==>
              exists k :: 0 <= k <= |g.times| && r.value.times == g.times[..k] && r.value.index == g.index[..k]
                && forall i :: 0 <= i < |g.times| ==>
                     (i < k <==> n.Some? && g.times[i] <= 2.0 * Pi / n.value * 60.0))
  {
    var r := Load(args, generate, tleMeanMotion, sqrt);
    var g := generate(NumSamples(args));
    if r.Ok? && args.oneOrbit {
      var n := MeanMotionOf(r.value.elements, tleMeanMotion);
      assert n == if args.inclination.Some? then
        ConvertToKeplerian(args.altPeriapsis.value, args.altApoapsis, "earth", sqrt).value.meanMotion
        else Some(tleMeanMotion(Lines(args).0, Lines(args).1));
      assert n != Some(0.0);
      var keep := InOneOrbit(g.times, n);
      assert r.value.times == Select(g.times, keep) && r.value.index == Select(g.index, keep);
      SelectCount(g.times, keep);
      if Ascending(g.times) {
        if n.Some? {
          var limit := 2.0 * Pi / n.value * 60.0;
          SelectPrefix(g.times, g.index, keep, limit);
          assert r.value.times == g.times[..Count(keep)];
        } else {
          NothingFlagged(g.times, keep);
          NothingFlagged(g.index, keep);
          assert r.value.times == g.times[..0];
        }
      }
    }
  }

}
