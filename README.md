# pysatMissions core, modelled in Dafny

This project models the geometry and bookkeeping of pysatMissions, the pysat
package that simulates satellite data. It covers the following parts:

- **Orbit parameters.** This is the check that the orbit keywords of a simulated
  loader form either a complete two-line element pair or a complete Keplerian pair.
  It also covers the planet-constant table and the two converters between periapsis
  and apoapsis altitudes on one side and eccentricity and mean motion on the other.
- **Spacecraft frame.** This is the ram-pointing attitude triad built from the ECEF
  position and velocity, with its magnitude check. It also covers the
  central-difference velocity estimate and the projection of an ECEF vector onto the
  triad.
- **Horizontal Wind Model vectors.** These are the zonal and meridional unit vectors,
  the model winds run once per sample, the total wind they compose, and its
  projection into the spacecraft frame.
- **Skyfield loader.** This covers the defaults `init` completes and everything
  `load` decides before it calls the propagator: the two lines, the number of
  samples, the element set, the epoch day count and the one-orbit mask.
- **Simulated file names.** These are the daily names of the simulated instruments.
  The legacy sgp4 loader reads the date back from the first name, builds a 1 Hz day
  grid, and splits the propagated lists into their three components.
- **COSMIC 2013 radio occultation.** This covers:
  - the file index read from the names;
  - the dropping of unreadable files;
  - the cleaning of ionospheric profiles (row filters, trimming of negative
    densities on both sides of 325 km, and the gradient test);
  - the checks and requests of the download.

Modelling conventions:

- An instrument is a class whose data (a map from column name to column) the
  methods update in place.
- NaN is `None`.
- Real arithmetic is exact. Square root and cube root are function parameters
  that satisfy their defining equations.
- Foreign code is a parameter of the operation that calls it. This covers the
  propagators, the wind model, `generate_times`, the file-system search and netCDF
  reading.

## Model

| member | source | states |
|---|---|---|
| Orbits.FirstIncomplete | pysatMissions/instruments/methods/orbits.py:23-28 | the first group with some but not all of its keywords, or none exactly when every group is complete or absent |
| Orbits.CheckOrbitalParams | pysatMissions/instruments/methods/orbits.py:7-34 | fails with a KeyError exactly when a group is half given, naming the two-line group first; warns "Defaulting to Keplerians" exactly when both groups are complete; passes silently when no orbit keyword is given |
| Orbits.GroupsSpelled | pysatMissions/instruments/methods/orbits.py:20-22 | the two groups are (tle1, tle2) then (alt_periapsis, inclination), and being half given means exactly one of the pair is present |
| Orbits.GetConstants | pysatMissions/instruments/methods/orbits.py:37-64 | only the exact name "earth" is in the table; any other name is a KeyError "<name> is not yet a supported planet!" |
| Orbits.MeanMotion | pysatMissions/instruments/methods/orbits.py:102 | the mean motion is defined exactly for a positive mean radius, is positive, and obeys Kepler's third law for that radius |
| Orbits.ConvertToKeplerian | pysatMissions/instruments/methods/orbits.py:67-104 | succeeds exactly for "earth" and radii that do not sum to zero (a missing apoapsis taken equal to the periapsis), else the table's KeyError or a ZeroDivisionError; the apoapsis and periapsis radii are a(1+e) and a(1−e) for the mean radius a, and the mean motion is defined exactly when a is positive and then obeys Kepler's third law |
| Orbits.ApsidesFromEccentricity | pysatMissions/instruments/methods/orbits.py:94-99 | the eccentricity of two radii recovers both of them from their mean |
| Orbits.SemimajorOf | pysatMissions/instruments/methods/orbits.py:132-135 | the radius recovered from a mean motion is positive and obeys Kepler's third law |
| Orbits.SemimajorBounds | pysatMissions/instruments/methods/orbits.py:132-135 | the cube-root formula of the source gives a positive radius obeying Kepler's third law |
| Orbits.SemimajorUnique | pysatMissions/instruments/methods/orbits.py:132-135 | no other positive radius obeys Kepler's third law for the same mean motion |
| Orbits.ConvertFromKeplerian | pysatMissions/instruments/methods/orbits.py:107-143 | succeeds exactly for "earth" and a non-zero mean motion; the altitudes are a(1−e) and a(1+e) less the Earth's radius |
| Orbits.UnknownPlanetRejected | pysatMissions/instruments/methods/orbits.py:57-62 | both converters reject every planet but "earth" with the table's KeyError |
| Orbits.CircularWithoutApoapsis | pysatMissions/instruments/methods/orbits.py:91-99 | without an apoapsis the eccentricity is exactly 0 |
| Orbits.EccentricityInUnitInterval | pysatMissions/instruments/methods/orbits.py:94-99 | for 0 ≤ periapsis ≤ apoapsis the conversion succeeds and the eccentricity lies in [0, 1) |
| Orbits.MeanMotionObeysKepler | pysatMissions/instruments/methods/orbits.py:94-102 | for a non-zero mean radius the mean motion is defined exactly when the radius is positive and then obeys Kepler's third law |
| Orbits.RoundTrip | pysatMissions/tests/test_inst_methods_orbits.py:39-55 | converting altitudes to elements and back returns the same two altitudes exactly |
| Orbits.TestEccentricity | pysatMissions/tests/test_inst_methods_orbits.py:13-15 | for 400 km and 850 km the eccentricity is within the test's 1e-6 relative tolerance of its expected 0.032160315599897085 |
| Orbits.TestMeanMotionOutsideTolerance | pysatMissions/tests/test_inst_methods_orbits.py:13-27 | the expected mean motion of the test is not within the test's relative tolerance of the exact value under the source's Earth mass |
| Skyfield.SkyfieldInstrument.Init | pysatMissions/instruments/missions_skyfield.py:43-64 | a failing orbit check propagates with the keywords unchanged; on success a missing epoch becomes midnight of the first file date (an IndexError when there is no file), and no other keyword changes |
| Skyfield.CheckIgnoresEpoch | pysatMissions/instruments/missions_skyfield.py:50-62 | adding the epoch keyword does not change the orbit check |
| Skyfield.EpochDaysWholeDays | pysatMissions/instruments/missions_skyfield.py:188 | the epoch day count is the difference of day numbers from 1949-12-31, whatever the time of day |
| Skyfield.EpochDaysOfTestDate | pysatMissions/instruments/missions_skyfield.py:40 | the test date 2018-01-01 is day 24838 |
| Skyfield.StepsPerDay | pysatMissions/instruments/missions_skyfield.py:179-182 | the largest number of whole cadence steps, of any positive length in seconds, that fits in 86400 s |
| Skyfield.NumSamples | pysatMissions/instruments/missions_skyfield.py:179-182 | the given count unless it is missing or one orbit is asked for, then one day of cadence steps |
| Skyfield.OneSecondCadence | pysatMissions/instruments/missions_skyfield.py:179-182 | at a one-second cadence the default is 86400 samples |
| Skyfield.SelectCount | pysatMissions/instruments/missions_skyfield.py:205-208 | masking keeps as many entries as flags are set; every flagged entry is kept and every kept entry is a flagged one |
| Skyfield.SelectAligned | pysatMissions/instruments/missions_skyfield.py:205-208 | the same mask on times and index keeps them equally long and pairwise aligned |
| Skyfield.SelectPrefix | pysatMissions/instruments/missions_skyfield.py:205-208 | on ascending times a threshold mask keeps a prefix of the times and of the index, and a sample lies in the prefix exactly when it is within the threshold |
| Skyfield.NoneKept | pysatMissions/instruments/missions_skyfield.py:205-208 | on ascending times past the limit from the first one, no sample is within it |
| Skyfield.NothingFlagged | pysatMissions/instruments/missions_skyfield.py:205-208 | a mask with no flag set keeps nothing |
| Skyfield.ElementSetChoice | pysatMissions/instruments/missions_skyfield.py:191-203 | the element set is Keplerian exactly when an inclination is given, with the eccentricity, mean motion and epoch day count of the conversion, and otherwise the two lines chosen |
| Skyfield.LoadFailures | pysatMissions/instruments/missions_skyfield.py:185-203 | a missing epoch is a TypeError, an empty time grid an IndexError, and a Keplerian orbit with 0 ≤ periapsis ≤ apoapsis always loads |
| Skyfield.Load | pysatMissions/instruments/missions_skyfield.py:165-208 | a loaded result has as many time stamps as times, and its element set is Keplerian exactly when an inclination is given |
| Skyfield.OneOrbitTruncation | pysatMissions/instruments/missions_skyfield.py:199-208 | without one orbit the whole grid is kept; with it the mean motion n is not zero, a grid time is kept exactly when it is within 2π/n·60 (none when n is NaN), and on ascending times the kept times and index are the first k samples, i < k holding exactly when sample i is within the period |
| SimFiles.ListFiles | pysatMissions/instruments/_core.py:9-18 | one name per day from 2017-12-01 to 2018-12-01, each the data path, the date as YYYY-MM-DD and ".nofile"; a missing data path is a TypeError |
| SimFiles.SpanOrdinals | pysatMissions/instruments/_core.py:12-13 | the first and last day of the span are valid dates 365 days apart |
| SimFiles.ListFilesSpan | pysatMissions/instruments/_core.py:12-13 | the index holds 366 days, ascending, with none missing or repeated |
| SimFiles.FormatDateFields | pysatMissions/instruments/_core.py:16-17 | a date is written as four, two and two zero-padded digits joined by '-', each giving back its field |
| SimFiles.NoSeparatorAdded | pysatMissions/instruments/_core.py:16 | the data path is put in front of the date as it is, with no separator added |
| Sgp4Loader.ParseField | pysatMissionPlanning/instruments/pysat_sgp4.py:93-97 | `int` succeeds exactly on a non-empty run of ASCII digits, a narrower set than Python's `int` accepts, and gives its value |
| Sgp4Loader.ParseFileDate | pysatMissionPlanning/instruments/pysat_sgp4.py:93-97 | a date read from the first name is always a valid calendar date |
| Sgp4Loader.FileNameRoundTrip | pysatMissionPlanning/instruments/pysat_sgp4.py:93-97 | reading a name the simulated file list builds, under a directory ending in '/', gives back its date |
| Sgp4Loader.ParseFailures | pysatMissionPlanning/instruments/pysat_sgp4.py:93-97 | an empty name list is an IndexError; a base name without '-' is refused |
| Sgp4Loader.DayGrid | pysatMissionPlanning/instruments/pysat_sgp4.py:100-106 | one stamp per second from midnight, 86400 of them, or the first 100 when resources are reduced |
| Sgp4Loader.DayGridSpan | pysatMissionPlanning/instruments/pysat_sgp4.py:100-101 | a whole day's grid starts at midnight and ends at 86399 s |
| Sgp4Loader.FlattenAt | pysatMissionPlanning/instruments/pysat_sgp4.py:109-116 | entry 3i+c of the extended list is component c of vector i |
| Sgp4Loader.StrideFlatten | pysatMissionPlanning/instruments/pysat_sgp4.py:119-125 | the stride-3 slice from c of the extended list is component c of each vector |
| Sgp4Loader.StrideInterleave | pysatMissionPlanning/instruments/pysat_sgp4.py:119-125 | interleaving the three strides of a list whose length is a multiple of three gives it back |
| Sgp4Loader.DeinterleaveFlatten | pysatMissionPlanning/instruments/pysat_sgp4.py:119-125 | the three columns hold the components of each propagated vector, row by row |
| Sgp4Loader.Propagate | pysatMissionPlanning/instruments/pysat_sgp4.py:109-116 | the loop's lists are the positions and velocities at every stamp, flattened in order |
| Sgp4Loader.Load | pysatMissionPlanning/instruments/pysat_sgp4.py:35-130 | lines the propagator cannot read are a ValueError before anything else; otherwise it fails exactly when the date cannot be read from the first name, with that error, and else the columns hold each component of the propagated state at each stamp of that day |
| Spacecraft.Normalize | pysatMissions/methods/spacecraft.py:190-216 | defined exactly for a present non-zero vector; the result is a unit vector pointing along the input |
| Spacecraft.NormalizeScales | pysatMissions/methods/spacecraft.py:213-214 | the result is the input over its Euclidean length |
| Spacecraft.CrossProduct | pysatMissions/methods/spacecraft.py:219-247 | NaN in either factor gives NaN; otherwise the product is orthogonal to both factors |
| Spacecraft.CrossProductAntisymmetric | pysatMissions/methods/spacecraft.py:243-245 | swapping the factors negates the product |
| Spacecraft.TriadOrthonormal | pysatMissions/methods/spacecraft.py:39-69 | ŷ and ẑ are defined exactly when position and velocity are present and not parallel; x̂, ŷ, ẑ are then unit, pairwise orthogonal and right-handed |
| Spacecraft.YHatDefined | pysatMissions/methods/spacecraft.py:48-61 | ŷ is defined exactly when the position × velocity product is non-zero |
| Spacecraft.NadirCrossScale | pysatMissions/methods/spacecraft.py:54-57 | nadir × x̂ is a non-zero multiple of position × velocity |
| Spacecraft.TriadUnits | pysatMissions/methods/spacecraft.py:59-69 | where ŷ is defined, ẑ is too and all three axes have unit length |
| Spacecraft.YHatPerpendicularToPosition | pysatMissions/methods/spacecraft.py:54-61 | the position has no ŷ component |
| Spacecraft.MagnitudeCheckNeverFires | pysatMissions/methods/spacecraft.py:83-89 | over the reals no sample's ẑ falls outside the band: it is a unit vector or NaN |
| Spacecraft.VelocityInFrame | pysatMissions/methods/spacecraft.py:39-69 | the velocity in its own frame is (|v|, 0, 0) |
| Spacecraft.Project | pysatMissions/methods/spacecraft.py:178-180 | a projected component is defined exactly when the vector and the axis are |
| Spacecraft.XStep | pysatMissions/methods/spacecraft.py:39-41 | writing x̂ adds its three columns and changes no other column |
| Spacecraft.NadirStep | pysatMissions/methods/spacecraft.py:48-50 | writing the nadir estimate adds the ẑ columns and changes no other column |
| Spacecraft.CrossStep | pysatMissions/methods/spacecraft.py:54-57 | writing a cross product adds its three columns and changes no other column |
| Spacecraft.NormStep | pysatMissions/methods/spacecraft.py:59-61 | normalising ŷ in place changes no other column |
| Spacecraft.AttitudeKeys | pysatMissions/methods/spacecraft.py:6-91 | the attitude writes add the nine frame columns and nothing else |
| Spacecraft.AttitudeKeeps | pysatMissions/methods/spacecraft.py:6-91 | no column but the nine frame columns changes |
| Spacecraft.AttitudeSample | pysatMissions/methods/spacecraft.py:39-69 | each sample of the frame columns is x̂, ŷ and ẑ of the same sample of position and velocity |
| Spacecraft.Attitude | pysatMissions/methods/spacecraft.py:39-69 | after the five writes every column still holds one value per sample |
| Spacecraft.WriteAttitude | pysatMissions/methods/spacecraft.py:39-69 | the five column writes, in the source's order, leave the attitude data |
| Spacecraft.AddRamPointingScAttitudeVectors | pysatMissions/methods/spacecraft.py:6-91 | the frame columns are written, then a RuntimeError is raised exactly when some sample's ẑ is outside the magnitude band |
| Spacecraft.HalfDifference | pysatMissions/methods/spacecraft.py:116-118 | the estimate is NaN exactly when a neighbour is |
| Spacecraft.CentralDifference | pysatMissions/methods/spacecraft.py:116-126 | one estimate per sample; interior samples are half the neighbours' difference and the ends keep their old value |
| Spacecraft.LinearTrackVelocity | pysatMissions/methods/spacecraft.py:116-118 | on a track moving by a fixed step per sample every interior estimate is that step: there is no cadence factor |
| Spacecraft.EndpointsOfEstimate | pysatMissionPlanning/tests/test_methods_spacecraft.py:41-44 | on a new column both ends are NaN; on an existing one they are kept; an interior sample is set exactly when both neighbours are present |
| Spacecraft.CalculateEcefVelocity | pysatMissions/methods/spacecraft.py:94-134 | only the three velocity columns change, each the estimate from the position component of the same axis |
| Spacecraft.Projected | pysatMissions/methods/spacecraft.py:166-180 | the projection keeps the data aligned |
| Spacecraft.ProjectedApart | pysatMissions/methods/spacecraft.py:166-180 | with new output names, each output sample is the vector dotted with the same sample of each axis, and no other column changes |
| Spacecraft.ProjectEcefVectorOntoSc | pysatMissions/methods/spacecraft.py:137-187 | the three output columns are assigned in order from the frame and the vector |
| Spacecraft.ProjectLinear | pysatMissions/methods/spacecraft.py:178-180 | the projection is linear in the vector projected |
| Empirical.ZonalUnit | pysatMissions/methods/empirical.py:365-368 | the zonal vector is defined exactly off the polar axis; it is a horizontal unit vector perpendicular to the position, with a zero z column wherever x is present |
| Empirical.EastPerpendicular | pysatMissions/methods/empirical.py:365-368 | the normalised east direction is horizontal and perpendicular to the position |
| Empirical.MeridionalBasis | pysatMissions/methods/empirical.py:373-386 | the meridional vector is defined exactly for a present position off the polar axis; it is then unit, perpendicular to the position and to the zonal vector, and points south |
| Empirical.MeridionalUnit | pysatMissions/methods/empirical.py:373-386 | off the polar axis the meridional vector is a unit vector perpendicular to position and zonal vector |
| Empirical.MeridionalDown | pysatMissions/methods/empirical.py:373-383 | −r̂ × east has a negative z component wherever it is defined |
| Empirical.MeridionalAtPrimeMeridian | pysatMissions/methods/empirical.py:371-386 | at (1, 0, 0) the meridional vector is (0, 0, −1), southward, although the comment says positive north |
| Empirical.ZonalAtPrimeMeridian | pysatMissions/methods/empirical.py:365-368 | at (1, 0, 0) the zonal vector is (0, 1, 0), east |
| Empirical.NadirAtPrimeMeridian | pysatMissions/methods/empirical.py:373-376 | at (1, 0, 0) the nadir direction is (−1, 0, 0) |
| Empirical.MeridionalOf | pysatMissions/methods/empirical.py:373-386 | the meridional vector is the nadir direction crossed with the zonal vector |
| Empirical.Winds | pysatMissions/methods/empirical.py:342-357 | one model run per sample, in index order |
| Empirical.RunModel | pysatMissions/methods/empirical.py:342-357 | the loop's runs are the model runs of every sample, in index order |
| Empirical.AddHwmWindsAndEcefVectors | pysatMissions/methods/empirical.py:301-423 | an empty instrument is a KeyError with nothing changed; a missing model is a warning that leaves out only the winds; otherwise the winds and unit vectors are stored |
| Empirical.WithWinds | pysatMissions/methods/empirical.py:342-360 | storing the winds keeps the data aligned |
| Empirical.HwmData | pysatMissions/methods/empirical.py:342-386 | the data after the method stays aligned |
| Empirical.HwmKeys | pysatMissions/methods/empirical.py:342-386 | the method adds the six unit-vector columns and, when the model is present, the two wind columns; nothing else |
| Empirical.HwmKeeps | pysatMissions/methods/empirical.py:342-386 | the wind columns hold the model's output sample by sample, and every other existing column is unchanged |
| Empirical.HwmUnitVectors | pysatMissions/methods/empirical.py:365-386 | the unit vectors written are those at the positions held before |
| Empirical.ZonalStep | pysatMissions/methods/empirical.py:365-368 | writing the zonal columns changes no other column |
| Empirical.MeridionalStep | pysatMissions/methods/empirical.py:373-386 | writing the meridional columns changes no other column |
| Empirical.UnitVectorsKeys | pysatMissions/methods/empirical.py:365-386 | the unit-vector writes add six columns and change no other column |
| Empirical.UnitVectorsSample | pysatMissions/methods/empirical.py:365-386 | each stored sample is the zonal and the meridional vector at the same sample of the position |
| Empirical.AddUnitVectors | pysatMissions/methods/empirical.py:365-386 | the zonal columns are written, then the meridional ones from them |
| Empirical.Combine | pysatMissions/methods/empirical.py:448-453 | a total wind component is NaN exactly when one of its four inputs is |
| Empirical.Totals | pysatMissions/methods/empirical.py:463-465 | the total wind adds its three columns and changes no other column |
| Empirical.TotalWindComposition | pysatMissions/methods/empirical.py:448-453 | the total wind is the zonal wind times the zonal vector plus the meridional wind times the meridional vector; with a zero zonal z it has no zonal z part |
| Empirical.WindInFrame | pysatMissions/methods/empirical.py:463-469 | each spacecraft-frame component of the total wind is the sum of the projected zonal and meridional parts |
| Empirical.TotalsSample | pysatMissions/methods/empirical.py:463-465 | each total wind sample composes the two winds and unit vectors of the same sample |
| Empirical.SimulatedWindIsProjection | pysatMissions/methods/empirical.py:463-469 | the total wind columns hold the composed total wind and the simulated wind columns its projection onto the frame |
| Empirical.SimulatedWindKeeps | pysatMissions/methods/empirical.py:463-469 | no column but the six total and simulated wind columns changes |
| Empirical.SimulatedWindSample | pysatMissions/methods/empirical.py:463-469 | each simulated wind sample is the total wind at that sample dotted with each axis |
| Empirical.ProjectHwmOntoSc | pysatMissions/methods/empirical.py:426-475 | a missing wind column is a KeyError naming it with nothing changed; otherwise the totals are written and projected onto the frame |
| Frames.AsVector | pysatMissions/methods/spacecraft.py:190-216 | a vector is present exactly when all three components are, and then gives them back |
| Frames.FromVector | pysatMissions/methods/spacecraft.py:190-216 | the components of a vector read back as that vector; a NaN vector is NaN in every column |
| Frames.Store | pysatMissions/methods/spacecraft.py:39-41 | assigning three columns adds them and changes no other column |
| Frames.StoreRead | pysatMissions/methods/spacecraft.py:39-41 | reading back what was stored gives the samples stored |
| Frames.StoreShape | pysatMissions/methods/spacecraft.py:39-41 | storing a column of full length keeps the data aligned and the columns read later |
| Frames.StoreKeeps | pysatMissions/methods/spacecraft.py:39-41 | storing under one set of labels leaves a vector under other labels as it was |
| Frames.Existing | pysatMissions/methods/spacecraft.py:120-126 | the column under a name is there exactly when the name is |
| Frames.Instrument.SetColumn | pysatMissions/methods/spacecraft.py:120-126 | one column is replaced or added and nothing else changes |
| Frames.Instrument.SetVector | pysatMissions/methods/spacecraft.py:39-41 | three columns are replaced or added, as `Store` says |
| CosmicGps.FromEnd | cosmic2013_gps.py:109-114 | the field k places from the end of the dot-separated name, which holds no dot |
| CosmicGps.Offset | cosmic2013_gps.py:121-123 | the uniqueness offset lies in [0, 0.07996] s |
| CosmicGps.OffsetsDistinct | cosmic2013_gps.py:121-123 | the offsets of the first 2000 files all differ |
| CosmicGps.OffsetsRepeat | cosmic2013_gps.py:121-123 | from there on they repeat every 2000 files |
| CosmicGps.ParseAll | cosmic2013_gps.py:117-120 | every field converted, or a ValueError exactly when some field is not a number |
| CosmicGps.Column | cosmic2013_gps.py:108-115 | one field per name, in the order of the names |
| CosmicGps.CollectFields | cosmic2013_gps.py:108-115 | the year, day, hour and minute fields are the 6th to 3rd from the end of every name; a name with fewer than six fields is an IndexError |
| CosmicGps.ListFiles | cosmic2013_gps.py:59-130 | succeeds exactly when every name carries a numeric year, day, hour and minute, and then indexes each name by its time plus its offset; no names give an empty series |
| CosmicGps.TimedColumns | cosmic2013_gps.py:117-120 | every name is timed exactly when each field column converts |
| CosmicGps.NameFields | cosmic2013_gps.py:108-115 | in a name ending with year, day, hour, minute and two more fields, the fields read back are those four, even when the prefix holds dots |
| CosmicGps.Compact | cosmic2013_gps.py:223-226 | the present entries, no more of them than there were |
| CosmicGps.CompactAppend | cosmic2013_gps.py:223-226 | compacting distributes over concatenation |
| CosmicGps.CompactWhole | cosmic2013_gps.py:223-226 | a list with nothing missing is kept whole |
| CosmicGps.CompactMembers | cosmic2013_gps.py:223-226 | an entry is kept exactly when it is present |
| CosmicGps.Readable | cosmic2013_gps.py:190-226 | what the readable files held, no more entries than files |
| CosmicGps.ReadableMembers | cosmic2013_gps.py:190-226 | a file's contents are in the output exactly when its read succeeded |
| CosmicGps.Gap | cosmic2013_gps.py:223-226 | between two consecutive failures every read succeeded |
| CosmicGps.Head | cosmic2013_gps.py:223-226 | before the first failure every read succeeded |
| CosmicGps.DeleteStep | cosmic2013_gps.py:225-226 | deleting a failed position whose successors were read extends the compacted suffix by one |
| CosmicGps.SkipFailure | cosmic2013_gps.py:225-226 | compacting from a failed position skips it and keeps what follows |
| CosmicGps.ReadAll | cosmic2013_gps.py:190-221 | the reading loop stores each result at its position and lists, ascending, exactly the positions whose read failed |
| CosmicGps.DropFailures | cosmic2013_gps.py:223-226 | deleting the failed positions from the last to the first leaves exactly the present entries, in order |
| CosmicGps.Finish | cosmic2013_gps.py:223-226 | once every failure is deleted the rest is the compacted whole |
| CosmicGps.LoadFiles | cosmic2013_gps.py:184-240 | the output holds what the readable files held, in file order |
| CosmicGps.LastLow | cosmic2013_gps.py:260-262 | the last row with a negative density at or below 325 km, or none exactly when there is none |
| CosmicGps.FirstHigh | cosmic2013_gps.py:266-268 | the first row with a negative density above 325 km, or none exactly when there is none |
| CosmicGps.TrimLow | cosmic2013_gps.py:260-263 | the profile keeps its length |
| CosmicGps.TrimHigh | cosmic2013_gps.py:266-269 | the profile keeps its length |
| CosmicGps.Trimmed | cosmic2013_gps.py:257-269 | the profile keeps its length |
| CosmicGps.TrimLowRows | cosmic2013_gps.py:260-263 | a row is cleared exactly when a negative density at or below 325 km lies at or after it |
| CosmicGps.TrimHighRows | cosmic2013_gps.py:266-269 | a row is cleared exactly when a negative density above 325 km lies at or before it |
| CosmicGps.TrimmedNonNegative | cosmic2013_gps.py:257-269 | after both trimmings no negative density is left |
| CosmicGps.SteepIsGradient | cosmic2013_gps.py:273-276 | where the denominator is non-zero the division-free test is the normalised gradient above 1 |
| CosmicGps.Checks | cosmic2013_gps.py:257-281 | one cleaned occultation per occultation |
| CosmicGps.Where | cosmic2013_gps.py:251-255 | the rows kept are rows that pass, in their order |
| CosmicGps.CleanIonprfSelects | cosmic2013_gps.py:247-285 | the stages of the 'clean' level keep exactly the occultations that survive every filter and the gradient test, with their profiles trimmed |
| CosmicGps.CleanIonprfCons | cosmic2013_gps.py:247-285 | the stages applied to one more occultation in front |
| CosmicGps.WhereCons | cosmic2013_gps.py:251-255 | a filter on one more row keeps it exactly when it passes |
| CosmicGps.ChecksCons | cosmic2013_gps.py:257-281 | the per-profile pass on one more row |
| CosmicGps.KeptCons | cosmic2013_gps.py:257-269 | the trimming on one more row |
| CosmicGps.CleanIonprfSurvivors | cosmic2013_gps.py:247-285 | every occultation left has a reported peak between 175 and 475 km, no slip and no negative density |
| CosmicGps.CheckProfile | cosmic2013_gps.py:257-281 | one pass of the cleaning loop over an occultation |
| CosmicGps.Cosmic.CheckProfiles | cosmic2013_gps.py:257-281 | each row is replaced by its pass through the cleaning loop |
| CosmicGps.Cosmic.Clean | cosmic2013_gps.py:243-296 | 'ionprf' at 'clean' runs every stage, 'ionprf' at other levels only the final known-peak filter, 'scnlvl1' at 'clean' the scintillation filter, and anything else changes nothing |
| CosmicGps.SubDirAsWritten | cosmic2013_gps.py:307-316 | the tags mapped as written: ionprf, sonprf, wetprf and atmPrf |
| CosmicGps.SubDir | cosmic2013_gps.py:307-316 | the intended mapping accepts every listed tag |
| CosmicGps.Requests | cosmic2013_gps.py:326-336 | one request per date, in order |
| CosmicGps.DownloadWith | cosmic2013_gps.py:307-336 | an unknown tag is a ValueError first, then a missing user or password, otherwise the requests for every date |
| CosmicGps.Download | cosmic2013_gps.py:299-352 | fails exactly for a tag outside ionprf, sonprf, wetprf, atmPrf or a missing account |
| CosmicGps.DownloadCorrected | cosmic2013_gps.py:299-352 | fails exactly for an unlisted tag or a missing account |
| CosmicGps.AtmprfRefused | cosmic2013_gps.py:313 | the listed tag 'atmprf' is refused as an unknown tag |
| CosmicGps.DownloadCorrectedAcceptsTags | cosmic2013_gps.py:307-316 | every listed tag is accepted once an account is given, 'atmprf' reaching atmPrf |
| CosmicGps.YearDoyFields | cosmic2013_gps.py:326-333 | the date field of a request gives back the year and the day of year |
| Calendar.DayOfYear | pysatMissions/instruments/missions_skyfield.py:188 | the day of year lies between 1 and the length of the year |
| Calendar.NextDay | pysatMissions/instruments/_core.py:12-13 | the day after a valid date is valid and one day number later |
| Calendar.OrdinalMonotone | pysatMissions/instruments/_core.py:12-13 | later dates have larger day numbers |
| Calendar.OrdinalInjective | pysatMissions/instruments/_core.py:12-13 | two dates with the same day number are the same date |
| Calendar.DateRange | pysatMissions/instruments/_core.py:12-13 | n consecutive valid days from the start |
| Calendar.DatesBetween | pysatMissions/instruments/_core.py:12-13 | every day from the first to the last, both included, in order |
| Text.ParseNat | pysatMissionPlanning/instruments/pysat_sgp4.py:93-97 | a number exactly for a non-empty run of ASCII digits, a narrower set than Python's `int` accepts |
| Text.PadDecimalValue | pysatMissions/instruments/_core.py:16-17 | padding gives digits only, at least the width, denoting the number |
| Text.PadDecimalLength | pysatMissions/instruments/_core.py:16-17 | a number below 10^width is padded to exactly the width |
| Text.Split | cosmic2013_gps.py:109 | at least one piece, none holding the separator |
| Text.JoinSplit | cosmic2013_gps.py:109 | joining the pieces of a split gives the string back |
| Text.SplitJoin | cosmic2013_gps.py:109 | splitting a join of separator-free pieces gives the pieces back |
| Text.Basename | pysatMissionPlanning/instruments/pysat_sgp4.py:93 | the base name holds no '/' |
| Text.BasenameAfterSlash | pysatMissionPlanning/instruments/pysat_sgp4.py:93 | the base name is what follows the last '/' |
| Text.SplitConcat | pysatMissionPlanning/instruments/pysat_sgp4.py:94 | splitting two strings joined by the separator gives the pieces of each in turn |

## Left out

- The propagators (sgp4, skyfield) are foreign code. They are function parameters: the
  sgp4 loader takes the position and velocity at each stamp; the skyfield loader stops at
  the element set and the sample count it would hand over.
- `generate_times` of pysat is foreign code and is a parameter of the skyfield loader.
- The wind model (pyglow's HWM) is foreign code. It is a parameter giving the two winds
  for one sample; its absence is an `Option`.
- `geodetic_to_ecef` and the normalize and cross product of pysatMagVect are foreign.
  The horizontal-wind vectors use the spacecraft `Normalize` and `CrossProduct`, which
  compute the same thing.
- Floating point: arithmetic is over the reals. Square root, cube root and π are
  parameters or constants with their defining equations, and no rounding or 1e-6
  test tolerance is modelled beyond the test lemmas.
- Spacecraft.MagnitudeCheckNeverFires: it holds over the reals only. Under IEEE
  rounding, a ẑ could in principle fall outside the band.
- Empirical.ZonalUnit: on the polar axis (x = y = 0) the source divides by zero and
  keeps a 0.0 z column. The model keeps that z column but makes the vector missing
  (NaN) as a whole for the meridional vector and the total wind, which is what the
  NaN x and y make of them.
- Metadata (`inst.meta[...]`) and the `meta` argument of the projection are
  annotation only.
- Warnings are returned as values, not issued.
- Printing and `sys.stdout.flush` are left out.
- `_download` of the simulated instruments does nothing and has no model.
- The `load` of the COSMIC instrument (cosmic2013_gps.py:133-178) only assembles a
  DataFrame and metadata from `load_files`. It is not modelled.
- The altitude binning and profile index assignment at the end of `load_files`
  (cosmic2013_gps.py:228-238) are floating-point `round` and pandas `groupby`. They
  are not modelled; the profiles are taken as already indexed by altitude.
- The file-system search of the COSMIC `list_files` is a parameter: the names found,
  in order.
- `create_datetime_index` is a pysat function. The index is modelled as (year, day of
  year, seconds of day) stamps.
- CosmicGps.ParseAll: `int` also accepts surrounding whitespace, a sign and
  underscores. The model accepts digit runs only.
- Sgp4Loader.ParseField: Python's `int` also accepts surrounding whitespace, a sign,
  underscores between digits and non-ASCII decimal digits. A name such as
  "2018- 1-01.nofile" loads in the source and is refused here.
- Text.ParseNat: the same narrowing to non-empty runs of ASCII digits.
- Sgp4Loader.Load: which lines `twoline2rv` refuses is a parameter, and the message of
  its `ValueError` is a stand-in.
- Skyfield.Load: the mean motion the propagator reads from two lines is a parameter
  that always gives a value. Lines that `Satrec.twoline2rv` cannot read are not
  modelled for this loader.
- Skyfield.StepsPerDay: the cadence is a fixed step in seconds. Pandas frequencies of
  calendar length (months, business days) have no fixed step and are not modelled.
- The COSMIC download's HTTP fetch, tar extraction and file moves are I/O. The model
  stops at the list of requests (URL and archive name).
- netCDF reading in `load_files` is a parameter: each file either gives its contents
  or fails with the RuntimeError that the loop catches.
- The other loaders (missions_sgp4, missions_ephem, the ephem loaders), the magnetic
  coordinate methods, the IRI, IGRF and MSIS parts of `empirical.py`, plotting and
  tests are outside the modelled core.

## Findings

| source | as written | input that shows it | evidently intended | confidence | as-written member | corrected member |
|---|---|---|---|---|---|---|
| cosmic2013_gps.py:313 | the fourth branch of the tag mapping compares the tag against 'atmPrf', a spelling no listed tag has | `download(dates, tag='atmprf', ...)` with a valid account raises ValueError "Unknown cosmic_gps tag" although 'atmprf' is one of the instrument's tags | the listed tag 'atmprf' maps to the 'atmPrf' sub-directory | high (not executed) | CosmicGps.AtmprfRefused | CosmicGps.DownloadCorrectedAcceptsTags |

## Where the model follows the code rather than its description

- The velocity estimate halves the difference of the neighbouring positions. It does
  not divide by the sample spacing (`Spacecraft.LinearTrackVelocity`).
- A degenerate frame sample becomes NaN and raises nothing. `normalize` has no zero
  guard, and a NaN magnitude fails both band comparisons
  (`Spacecraft.MagnitudeCheckNeverFires`).
- The meridional unit vector points south, although the comment beside it says
  positive north (`Empirical.MeridionalAtPrimeMeridian`). It is modelled as written.
- On an instrument with no samples, the wind table has no columns. Selecting the two
  wind columns from it raises KeyError (`Empirical.AddHwmWindsAndEcefVectors`).
- The mean motion the orbit test expects matches an Earth mass of 5.9742e24 kg. The
  table holds 5.9722e24 kg, so the exact value lies outside the test's relative
  tolerance (`Orbits.TestMeanMotionOutsideTolerance`).
- The comment on the COSMIC time offsets says they stay under 1e-3 s. They reach
  0.07996 s, and they repeat every 2000 files (`CosmicGps.Offset`,
  `CosmicGps.OffsetsRepeat`).
- The gradient test is stated without division (`CosmicGps.Steep`). Where the
  normalised gradient is defined it agrees with it (`CosmicGps.SteepIsGradient`);
  where the denominator is zero pandas gives inf or NaN.
  - An infinite gradient (a density change over a zero altitude step) counts as a
    slip, as the division-free form does.
  - A 0/0 is NaN and is ignored.
- `self[i, 'edmaxalt'] = np.nan` marks the i-th row of the current data. The final
  `notnull` filter then removes it.
- The `iloc` blanking of a profile covers its altitude and density columns. The
  altitude label of each row (the index) stays.
- The final `notnull` filter of the COSMIC `clean` sits outside the 'clean' branch.
  It applies to 'ionprf' at every clean level (`CosmicGps.Cosmic.Clean`).
