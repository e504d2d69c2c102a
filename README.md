# GNSS satellite ephemeris bookkeeping

This project models the part of the S2E spacecraft simulator that keeps GNSS satellite
ephemerides. The simulator reads precise orbit and clock products: SP3 position files, and
either SP3 or `.clk30s` clock files. From them it keeps, for each of 117 satellites, a list
of sample times and the values at those times: ECEF and ECI positions, or clock offsets.

For each query time it picks the sample nearest to that time. It cuts a window of N
samples around that sample and decides whether an interpolation over the window is
trustworthy. It advances the window as simulated time moves on.

A facade combines a *true* track and an *estimate* track, one for the truth model and one
for the onboard estimate. It answers position, clock, pseudorange and carrier-phase queries,
and returns zero for a satellite that either track cannot serve.

Two companions are modelled with it:
- The product-file reader builds file names day by day, week by week or in six-hour
  ultra-rapid segments, from a `first` name up to a `last` name. It reads each named file
  from a directory chosen by the product sort.
- The random-walk derivative keeps a bounded random walk inside its limits.

The modules follow the program:

| module | concerns |
|---|---|
| `Wrappers` | `Option`, `Result`, and the ways the C++ code fails (`std::out_of_range`, `std::invalid_argument`, the front of an empty container, `exit(1)`) |
| `Decimal` | `std::to_string` and `std::stoi` on decimal text |
| `Constellation` | flat satellite index ↔ identifier (`GetIndexFromId`, `GetIdFromIndex`) |
| `Series` | SP3 page layout, sentinel samples, the overwrite-or-append merge |
| `Window` | `lower_bound`, the odd-N tie-break, the clipped window, the validity tests, one `Update` step |
| `Position` | `GnssSatellitePosition` as the class `PositionTrack` |
| `Clock` | `GnssSatelliteClock` as the class `ClockTrack` |
| `Satellites` | `GnssSatelliteInformation`, `GnssSatellites`, pseudorange and carrier phase |
| `ProductFiles` | `initialize_gnss_satellites.cpp`: directories, file-name sequences, file reading, ultra-rapid flags |
| `RandomWalk` | `RandomWalk<N>::DerivativeFunction` |

## How the state is modelled

The position and clock tracks are classes. Their fields are the C++ members:
- the per-satellite sample lists (`unixTimeList`, `ecefSeries`, …);
- the per-satellite window state (`tracking`, one record per satellite);
- `timeInterval`, `interpolationNumber` and `stepWidth`.

`Initialize`, `SetUp` and `Update` are methods. Each is proved equal to a specification
function of the old state:
- `Ingestion` or `ClockIngestion` for `Initialize`;
- `SetUpSat` for `SetUp`;
- `UpdateSat` for `Update`.

The lemmas about those functions state what the C++ code promises:
- lists stay aligned, and only grow;
- sentinels are dropped;
- samples closer than the overwrite threshold replace the previous one;
- validity holds exactly when the window is full, near, and tight;
- the nearest index moves forward by at most one sample per `Update`.

The interpolation kernels are function-valued constants of the track classes, so nothing is
assumed about them. The model specifies only the exact-sample branch, which returns the
stored sample.

The C++ code's failure modes are the `Fault` values of a `Result`:
- `OutOfRange`: `at()` past the end;
- `InvalidArgument`: `stoi` on a non-number;
- `Undefined`: `front()` or `back()` of an empty string or list;
- `Fatal`: `exit(1)`;
- `NotReached`: the model's bound on a loop that the C++ code runs until a name matches.

## Model

| member | source | states |
|---|---|---|
| Decimal.NatToString | src/environment/global/gnss_satellites.cpp:196-221 | `to_string` of a non-negative number is at least one digit, is one digit exactly when the number is below 10, and has no leading zero otherwise |
| Decimal.NatToStringWidth | src/environment/global/initialize_gnss_satellites.cpp:110-117 | `to_string` has 1, 2, 3 or 4 digits for numbers below 10, 100, 1000 and 10000 respectively |
| Decimal.NatToStringValue | src/environment/global/gnss_satellites.cpp:196-221 | the digits `to_string` writes have the number's value |
| Decimal.DigitRun | src/environment/global/gnss_satellites.cpp:160-194 | the digit run `stoi` reads is maximal: all digits, followed by a non-digit or the end |
| Decimal.StoiOfDigits | src/environment/global/initialize_gnss_satellites.cpp:130-141 | `stoi` of a digit string followed by a non-digit returns the digits' value |
| Decimal.StoiOfIntToString | src/environment/global/gnss_satellites.cpp:160-221 | `stoi(to_string(n)) == n` for every integer |
| Decimal.LeadingZeroValue | src/environment/global/gnss_satellites.cpp:196-221 | a leading `'0'` added for padding does not change the value read back |
| Constellation.PrefixedIdSameIndex | src/environment/global/gnss_satellites.cpp:160-194 | `"P" + id` and `id` map to the same index (e.g. `"PG05"` and `"G05"`) |
| Constellation.UnknownTagIndex | src/environment/global/gnss_satellites.cpp:160-194 | an unknown constellation letter, with or without the `P` prefix, maps to `INT32_MAX` |
| Constellation.IndexOfDigits | src/environment/global/gnss_satellites.cpp:160-194 | a known letter (no `P`) followed by a run of digits maps to the digits' value plus that constellation's bias, whatever non-digit text follows |
| Constellation.NumberlessIdRejected | src/environment/global/gnss_satellites.cpp:160-194 | a known letter followed by neither a sign nor a digit makes `stoi` throw `invalid_argument` |
| Constellation.NegativeIndexReachable | src/environment/global/gnss_satellites.cpp:160-194 | `"G00"` and `"PG00"` are read without error and give the negative index −1 |
| Constellation.IndexOfWellFormedId | src/environment/global/gnss_satellites.cpp:24-36 | a well-formed identifier (letter, two digits, number 1..count) maps into `[0, 117)` at number + bias |
| Constellation.RenderReadsBack | src/environment/global/gnss_satellites.cpp:196-221 | the letter, padding and `to_string` of a number read back with `stoi` as that number |
| Constellation.RenderShape | src/environment/global/gnss_satellites.cpp:196-221 | below 100 the rendered identifier is exactly letter plus two digits of the number |
| Constellation.RenderOfDigits | src/environment/global/gnss_satellites.cpp:196-221 | rendering the two-digit number of a three-character identifier gives the identifier back |
| Constellation.RenderWellFormed | src/environment/global/gnss_satellites.cpp:160-221 | rendering a number 1..count of a known constellation gives a well-formed identifier at number + bias |
| Constellation.BandOfTag | src/environment/global/gnss_satellites.cpp:24-36 | number + bias of each constellation falls in that constellation's corrected band |
| Constellation.IdFromIndexIsRender | src/environment/global/gnss_satellites.cpp:196-221 | corrected: every index in `[0, 117)` renders as a letter and a number 1..count of that letter |
| Constellation.IdFromIndexAsWrittenIsRender | src/environment/global/gnss_satellites.cpp:196-221 | as written: every index in `[0, 117)` renders as some letter and a non-negative number |
| Constellation.IndexRoundTrip | src/environment/global/gnss_satellites.cpp:160-221 | corrected: `GetIndexFromId(GetIdFromIndex(i)) == i` and the identifier is well formed, for all `0 <= i < 117` |
| Constellation.AsWrittenIndexRoundTrip | src/environment/global/gnss_satellites.cpp:160-221 | as written: `GetIndexFromId(GetIdFromIndex(i)) == i` still holds for all `0 <= i < 117` |
| Constellation.IdRoundTrip | src/environment/global/gnss_satellites.cpp:160-221 | corrected: id → index → id gives back every well-formed identifier |
| Constellation.AsWrittenBoundaryDefect | src/environment/global/gnss_satellites.cpp:196-221 | as written: 31, 57, 93, 109 render as `"R00"`, `"E00"`, `"C00"`, `"J00"`, though `"G32"`, `"R26"`, `"E36"`, `"C16"` map to them; the corrected mapping renders those identifiers |
| Constellation.NextZero | src/environment/global/gnss_satellites.cpp:196-221 | as written: the bias of every constellation after GPS renders as that letter with number 00 |
| Constellation.LastSatellite | src/environment/global/gnss_satellites.cpp:160-221 | corrected: the last satellite of each constellation goes to count + bias and back to its identifier |
| Series.Min | src/environment/global/gnss_satellites.cpp:315-316 | `std::min`: below both arguments and equal to one |
| Series.Max | src/environment/global/gnss_satellites.cpp:315-316 | `std::max`: above both arguments and equal to one |
| Series.TruncDiv | src/environment/global/gnss_satellites.cpp:285-286 | C++ integer division, truncating toward zero for negative dividends |
| Series.FirstEpochMarker | src/environment/global/gnss_satellites.cpp:277-278 | the marker found is the first line at or after `from` that starts with `*`; every line before it is non-empty and starts otherwise; an empty line before any marker is an error |
| Series.FindEpochMarker | src/environment/global/gnss_satellites.cpp:277-278 | the scanning loop returns exactly the first marker at or after line 3 |
| Series.SegmentsAdjacent | src/environment/global/gnss_satellites.cpp:281-289 | ultra-rapid segment k ends where segment k+1 starts, and each spans `L/8` lines |
| Series.SegmentsTileBlock | src/environment/global/gnss_satellites.cpp:281-289 | when 8 divides L, the eight segments start and end where the whole block (`kNotUse`) does |
| Series.UnknownSegmentEndsAtMarker | src/environment/global/gnss_satellites.cpp:281-289 | `kUnknown` gives offset −1: the range is the `L/8` lines just before the first epoch marker |
| Series.SegmentEpochsAligned | src/environment/global/gnss_satellites.cpp:281-300 | a segment starts on an epoch boundary, so line i of it is an epoch line exactly when the block's line i is |
| Series.DataLine | src/environment/global/gnss_satellites.cpp:295-300 | data line i is the page's line `lo + i` (out of range otherwise) and is an epoch line iff `i % (num_sat+1) == 0` |
| Series.FirstDataLineIsEpoch | src/environment/global/gnss_satellites.cpp:298-300 | the first data line is always read as an epoch line |
| Series.Put | src/environment/global/gnss_satellites.cpp:352-360 | overwrite replaces the last element, otherwise appends; the new element ends the list and the rest is unchanged |
| Series.MergeKeepsSpacing | src/environment/global/gnss_satellites.cpp:352-360 | with times presented in order, the merge keeps consecutive stored times at least the threshold apart |
| Series.SpacedIncreasing | src/environment/global/gnss_satellites.cpp:352-360 | times kept a positive threshold apart are strictly increasing, so `lower_bound` applies |
| Window.Abs | src/environment/global/gnss_satellites.cpp:396-405 | `std::abs` is non-negative and equal to the argument or its negation |
| Window.LowerBound | src/environment/global/gnss_satellites.cpp:387-393 | `lower_bound`: every earlier sample is before the time, and the sample found is not |
| Window.LowerBoundSplits | src/environment/global/gnss_satellites.cpp:387-393 | on sorted times the index splits the samples into "before" and "at or after" |
| Window.TieBreak | src/environment/global/gnss_satellites.cpp:396-401 | the tie-break stays in range |
| Window.NearestIsClosest | src/environment/global/gnss_satellites.cpp:387-401 | for odd N on sorted times the chosen sample is as close as any other; for even N it is the `lower_bound` sample |
| Window.StepBack | src/environment/global/gnss_satellites.cpp:396-401 | the step-back code computes the tie-break |
| Window.Slice | src/environment/global/gnss_satellites.cpp:408-415 | the window never holds more than N samples |
| Window.ClippedRangeGrow | src/environment/global/gnss_satellites.cpp:408-415 | each loop step of the window builder appends sample `index+j` exactly when it is in range |
| Window.SliceIsClipped | src/environment/global/gnss_satellites.cpp:408-415 | the window is the samples `index+j`, `j ∈ [−N/2, (N+1)/2)`, clipped to the series |
| Window.SliceFullIffUnclipped | src/environment/global/gnss_satellites.cpp:408-419 | the window contains the nearest sample, and has N samples iff no clipping happened, in which case it is a contiguous slice |
| Window.SetUpNearestInRange | src/environment/global/gnss_satellites.cpp:375-401 | `SetUp` leaves the index at most the size; index == size means every sample is earlier and the satellite is invalid |
| Window.FreshWindowOk | src/environment/global/gnss_satellites.cpp:416-427 | size and span tests on a fresh window hold iff N samples exist around the index and their span is within the bound |
| Window.SetUpValidIff | src/environment/global/gnss_satellites.cpp:375-427 | `SetUp` validity iff the series is non-empty, `lower_bound` is in range, the nearest sample is within one interval, and a full, tight window exists |
| Window.SetUpAgainInvalid | src/environment/global/gnss_satellites.cpp:408-419 | `SetUp` without clearing the window would append to it and always fail the size test |
| Window.UpdateStepBounds | src/environment/global/gnss_satellites.cpp:454-476 | one `Update` moves the nearest index forward by 0 or 1, never past the size |
| Window.UpdateAdvanceIff | src/environment/global/gnss_satellites.cpp:454-476 | it advances iff the next sample exists and is strictly closer; the window is rebuilt iff it advances |
| Window.UpdateValidIff | src/environment/global/gnss_satellites.cpp:477-494 | `Update` validity iff the index is in range, the nearest sample is within one interval, and the (possibly rebuilt) window passes the size and span tests |
| Window.NearestAfter | src/environment/global/gnss_satellites.cpp:454-476 | after any sequence of `Update` calls the nearest index stays within the series |
| Window.NearestAfterBounds | src/environment/global/gnss_satellites.cpp:454-476 | over k `Update` calls the nearest index never decreases and grows by at most k |
| Position.Ingest | src/environment/global/gnss_satellites.cpp:352-360 | after storing a sample the lists stay aligned and only that satellite changes; the sample ends its lists; it overwrote iff within 1 s of the last stored time |
| Position.IngestRecord | src/environment/global/gnss_satellites.cpp:318-361 | a record keeps the lists aligned and growing |
| Position.SentinelDropped | src/environment/global/gnss_satellites.cpp:330-337 | a record with any coordinate within 1.0 of `999999.999999` leaves the lists unchanged |
| Position.RecordStored | src/environment/global/gnss_satellites.cpp:318-361 | a non-sentinel record is stored iff its index is in range, with the epoch time and `km × 1000` |
| Position.ScanLine | src/environment/global/gnss_satellites.cpp:295-361 | an epoch line widens the time range to include its time; a record line keeps the lists aligned and growing |
| Position.ScanLinesFrom | src/environment/global/gnss_satellites.cpp:293-362 | reading a block keeps the lists aligned and growing and keeps the interval |
| Position.ScanStep | src/environment/global/gnss_satellites.cpp:294-362 | reading one data line keeps the lists aligned and growing |
| Position.ScanPage | src/environment/global/gnss_satellites.cpp:246-362 | reading a page keeps the lists aligned and growing and takes the page's interval |
| Position.ScanPagesFrom | src/environment/global/gnss_satellites.cpp:246-363 | reading pages keeps the lists aligned and growing and leaves the last page's interval |
| Position.IngestKeepsSpacing | src/environment/global/gnss_satellites.cpp:352-360 | with epochs in time order, every satellite's times stay 1 s apart and strictly increasing |
| Position.ApplyPlan | src/environment/global/gnss_satellites.cpp:408-504 | applying a window plan keeps the per-satellite state consistent |
| Position.Settled | src/environment/global/gnss_satellites.cpp:427-437 | setting the validity and outputs keeps the per-satellite state consistent |
| Position.SetUpSat | src/environment/global/gnss_satellites.cpp:368-439 | `SetUp` of one satellite keeps its state consistent |
| Position.UpdateSat | src/environment/global/gnss_satellites.cpp:441-506 | `Update` of one satellite keeps its state consistent |
| Position.ExactSampleReported | src/environment/global/gnss_satellites.cpp:429-437 | when valid and within 1e-4 s of the nearest sample, `SetUp` and `Update` report that sample's ECEF and ECI positions |
| Position.InvalidKeepsOutputs | src/environment/global/gnss_satellites.cpp:477-504 | an `Update` that finds the satellite invalid leaves its reported positions as they were |
| Position.StepsKeepSeries | src/environment/global/gnss_satellites.cpp:368-506 | `SetUp` and `Update` never change the sample lists |
| Position.GatherWindow | src/environment/global/gnss_satellites.cpp:408-415 | the window-building loop yields the clipped window of times, ECEF and ECI |
| Position.Judge | src/environment/global/gnss_satellites.cpp:416-437 | the size and span tests compute the `WindowOk` result and settle the outputs |
| Position.SetUpStep | src/environment/global/gnss_satellites.cpp:375-437 | the per-satellite `SetUp` code computes `SetUpSat` |
| Position.Advance | src/environment/global/gnss_satellites.cpp:454-476 | the advance code computes the `Update` plan's index and window |
| Position.UpdateStep | src/environment/global/gnss_satellites.cpp:446-505 | the per-satellite `Update` code computes `UpdateSat` |
| Position.PositionTrack.Sat | src/environment/global/gnss_satellites.cpp:368-373 | each satellite's view of the track is consistent |
| Position.PositionTrack.constructor | src/environment/global/gnss_satellites.cpp:238-240 | a fresh track has 117 empty satellites, none valid, with zero outputs |
| Position.PositionTrack.Record | src/environment/global/gnss_satellites.cpp:352-360 | storing a sample changes the lists as `Ingest` says and nothing else |
| Position.PositionTrack.ReadLine | src/environment/global/gnss_satellites.cpp:295-361 | reading one line changes the lists and range as `ScanLine` says |
| Position.PositionTrack.ReadDataLine | src/environment/global/gnss_satellites.cpp:294-361 | reading data line i changes the lists and range as `ScanStep` says |
| Position.PositionTrack.ReadBlock | src/environment/global/gnss_satellites.cpp:293-362 | the data-line loop changes the lists and range as `ScanLinesFrom` says |
| Position.PositionTrack.ReadPage | src/environment/global/gnss_satellites.cpp:246-362 | reading a page changes the lists, range and interval as `ScanPage` says |
| Position.PositionTrack.Initialize | src/environment/global/gnss_satellites.cpp:231-366 | `Initialize` sets N and leaves the lists, interval and returned range that `Ingestion` computes; it fails exactly when `Ingestion` does |
| Position.PositionTrack.PutSat | src/environment/global/gnss_satellites.cpp:368-506 | storing one satellite's window state changes only that satellite |
| Position.PositionTrack.SetUp | src/environment/global/gnss_satellites.cpp:368-439 | every satellite becomes `SetUpSat` of its state with validity and outputs cleared (the window is kept); lists, interval and N are unchanged; the step width is stored |
| Position.PositionTrack.Update | src/environment/global/gnss_satellites.cpp:441-506 | every satellite becomes `UpdateSat` of its old state; nothing else changes |
| Clock.Ingest | src/environment/global/gnss_satellites.cpp:599-605 | after storing a sample the lists stay aligned and only that satellite changes; it overwrote iff within the threshold of the last stored time |
| Clock.Sp3Record | src/environment/global/gnss_satellites.cpp:586-606 | an SP3 clock record keeps the lists aligned and growing |
| Clock.Sp3Line | src/environment/global/gnss_satellites.cpp:570-606 | an SP3 clock-file line keeps the lists aligned and growing |
| Clock.Sp3Step | src/environment/global/gnss_satellites.cpp:570-606 | reading one data line keeps the lists aligned and growing |
| Clock.Sp3LinesFrom | src/environment/global/gnss_satellites.cpp:568-606 | reading a block keeps the lists aligned and growing |
| Clock.Sp3Page | src/environment/global/gnss_satellites.cpp:525-607 | reading a page keeps the lists aligned and growing and takes the page's interval |
| Clock.Sp3PagesFrom | src/environment/global/gnss_satellites.cpp:525-608 | reading pages keeps the lists aligned and growing |
| Clock.Sp3SentinelDropped | src/environment/global/gnss_satellites.cpp:594-595 | a clock within 1.0 of `999999.999999` leaves the lists unchanged |
| Clock.Sp3ClockStored | src/environment/global/gnss_satellites.cpp:592-605 | a non-sentinel clock is stored iff its index is in range, as `µs × c × 1e-6` metres |
| Clock.Opened | src/environment/global/gnss_satellites.cpp:644-648 | the first satellite line of an ultra-rapid segment opens a 6-hour window; an open window stays |
| Clock.Merge30 | src/environment/global/gnss_satellites.cpp:656-665 | a `.clk30s` sample keeps the lists aligned and growing and never raises the interval |
| Clock.ClkStep | src/environment/global/gnss_satellites.cpp:626-666 | one `.clk30s` line keeps the lists aligned and growing and never raises the interval |
| Clock.ClkLinesFrom | src/environment/global/gnss_satellites.cpp:620-666 | one `.clk30s` page keeps the lists aligned and growing and never raises the interval |
| Clock.ClkPagesFrom | src/environment/global/gnss_satellites.cpp:615-667 | all `.clk30s` pages keep the lists aligned and growing and never raise the interval |
| Clock.PredictedClockFatal | src/environment/global/gnss_satellites.cpp:610-613 | a `.clk30s` file with a predicted segment selected ends the program |
| Clock.Clk30sIntervalBounded | src/environment/global/gnss_satellites.cpp:614 | the `.clk30s` interval starts at 1e9 and only decreases |
| Clock.ClkStoredOnlyInWindow | src/environment/global/gnss_satellites.cpp:626-665 | only satellite-bias (`AS`) lines inside the time window change the lists; reading stops only at such a line past the window's end |
| Clock.ClkRecordStored | src/environment/global/gnss_satellites.cpp:656-665 | the `.clk30s` sample ends its satellite's lists, and an appended sample bounds the interval by its gap |
| Clock.Merge30KeepsSpacing | src/environment/global/gnss_satellites.cpp:656-665 | with times in order, stored `.clk30s` times stay 1e-4 s apart |
| Clock.ApplyPlan | src/environment/global/gnss_satellites.cpp:709-734 | applying a window plan keeps the per-satellite state consistent |
| Clock.Settled | src/environment/global/gnss_satellites.cpp:727-734 | setting the validity and output keeps the per-satellite state consistent |
| Clock.SetUpSat | src/environment/global/gnss_satellites.cpp:671-736 | `SetUp` of one satellite keeps its state consistent |
| Clock.UpdateSat | src/environment/global/gnss_satellites.cpp:738-799 | `Update` of one satellite keeps its state consistent |
| Clock.SetUpWindowTight | src/environment/global/gnss_satellites.cpp:716-727 | a valid clock window after `SetUp` has N samples spanning at most `interval·(N−1) + 1e-4` |
| Clock.UpdateWindowTight | src/environment/global/gnss_satellites.cpp:778-790 | the same after `Update` |
| Clock.ClockOutputs | src/environment/global/gnss_satellites.cpp:727-797 | an invalid step keeps the old clock output; a valid one within 1e-4 s of the nearest sample reports that sample |
| Clock.GatherWindow | src/environment/global/gnss_satellites.cpp:709-716 | the window-building loop yields the clipped window of times and offsets |
| Clock.JudgeSpan | src/environment/global/gnss_satellites.cpp:717-734 | the size and span tests compute the `WindowOk` result and settle the output |
| Clock.SetUpStep | src/environment/global/gnss_satellites.cpp:678-734 | the per-satellite `SetUp` code computes `SetUpSat` |
| Clock.Advance | src/environment/global/gnss_satellites.cpp:751-771 | the advance code computes the `Update` plan's index and window |
| Clock.UpdateStep | src/environment/global/gnss_satellites.cpp:743-798 | the per-satellite `Update` code computes `UpdateSat` |
| Clock.ClockTrack.Sat | src/environment/global/gnss_satellites.cpp:671-736 | each satellite's view of the track is consistent |
| Clock.ClockTrack.constructor | src/environment/global/gnss_satellites.cpp:519-524 | a fresh track has 117 empty satellites, none valid, with zero output |
| Clock.ClockTrack.Record | src/environment/global/gnss_satellites.cpp:599-605 | storing a sample changes the lists as `Ingest` says and nothing else |
| Clock.ClockTrack.ReadSp3DataLine | src/environment/global/gnss_satellites.cpp:570-606 | reading one data line changes the lists as `Sp3Step` says |
| Clock.ClockTrack.ReadSp3Page | src/environment/global/gnss_satellites.cpp:525-607 | reading one page changes the lists and interval as `Sp3Page` says |
| Clock.ClockTrack.ReadClkLine | src/environment/global/gnss_satellites.cpp:626-666 | reading one `.clk30s` line changes the lists, interval and window as `ClkStep` says |
| Clock.ClockTrack.MergeRecord | src/environment/global/gnss_satellites.cpp:656-665 | storing a `.clk30s` sample changes the lists and interval as `Merge30` says |
| Clock.ClockTrack.ReadClkPage | src/environment/global/gnss_satellites.cpp:618-666 | the line loop of one `.clk30s` page computes `ClkLinesFrom` |
| Clock.ClockTrack.Initialize | src/environment/global/gnss_satellites.cpp:519-669 | `Initialize` sets N and leaves the lists and interval that `ClockIngestion` computes; it fails exactly when that fails |
| Clock.ClockTrack.PutSat | src/environment/global/gnss_satellites.cpp:671-799 | storing one satellite's window state changes only that satellite |
| Clock.ClockTrack.SetUp | src/environment/global/gnss_satellites.cpp:671-736 | every satellite becomes `SetUpSat` of its state marked invalid; lists, interval and N are unchanged; the step width is stored |
| Clock.ClockTrack.Update | src/environment/global/gnss_satellites.cpp:738-799 | every satellite becomes `UpdateSat` of its old state; nothing else changes |
| Satellites.SatelliteInformation.constructor | src/environment/global/gnss_satellites.cpp:808-813 | the two tracks are fresh and carry the given kernels |
| Satellites.SatelliteInformation.Initialize | src/environment/global/gnss_satellites.cpp:808-813 | the position track is read first; its range is the window of the clock read; either failure fails the call |
| Satellites.SatelliteInformation.PosSats | src/environment/global/gnss_satellites.cpp:815-823 | the per-satellite view of the position track |
| Satellites.SatelliteInformation.ClkSats | src/environment/global/gnss_satellites.cpp:815-823 | the per-satellite view of the clock track |
| Satellites.SatelliteInformation.SetUp | src/environment/global/gnss_satellites.cpp:815-818 | both tracks are set up at the same time |
| Satellites.SatelliteInformation.Update | src/environment/global/gnss_satellites.cpp:820-823 | both tracks are updated at the same time |
| Satellites.SatelliteInformation.GetNumberOfSatellites | src/environment/global/gnss_satellites.cpp:825-832 | 117 for consistent tracks, 0 when the two tracks disagree in size |
| Satellites.SatelliteInformation.GetWhetherValid | src/environment/global/gnss_satellites.cpp:834-837 | valid iff the index is in range and both the position and the clock track are valid |
| Satellites.IonosphericModel | src/environment/global/gnss_satellites.cpp:1083-1101 | no delay at or above 1000 km; otherwise a non-negative delay for a non-negative obliquity |
| Satellites.IonosphereDecreasesWithAltitude | src/environment/global/gnss_satellites.cpp:1083-1101 | the delay never grows with altitude |
| Satellites.IonosphereFrequencyScaling | src/environment/global/gnss_satellites.cpp:1096-1101 | the delay scales with the inverse square of the frequency |
| Satellites.PhaseSplit | src/environment/global/gnss_satellites.cpp:1039-1040 | the cycle count splits into a fraction in `[0, 1)` and an integral part that sum to it |
| Satellites.Wavelength | src/environment/global/gnss_satellites.cpp:1036 | the wavelength is non-zero, and positive for a positive frequency |
| Satellites.GnssSatellites.constructor | src/environment/global/gnss_satellites.cpp:850-864 | the facade holds the two given informations and the enable flag |
| Satellites.GnssSatellites.Initialize | src/environment/global/gnss_satellites.cpp:868-889 | on success both informations are consistent and carry their configured window sizes |
| Satellites.GnssSatellites.SetUp | src/environment/global/gnss_satellites.cpp:891-910 | disabled: nothing changes; enabled: the start time is stored and both informations are set up at it |
| Satellites.GnssSatellites.CurrentTime | src/environment/global/gnss_satellites.cpp:912-925 | the query time is the start time plus the elapsed time |
| Satellites.GnssSatellites.Update | src/environment/global/gnss_satellites.cpp:912-925 | disabled: nothing changes; enabled: both informations are updated at the current time |
| Satellites.GnssSatellites.GetNumberOfSatellites | src/environment/global/gnss_satellites.cpp:927 | 117 |
| Satellites.GnssSatellites.GetWhetherValid | src/environment/global/gnss_satellites.cpp:933-940 | valid iff the id is below 117 and all four tracks (true and estimate; position and clock) are valid |
| Satellites.GnssSatellites.GetSatellitePositionEcef | src/environment/global/gnss_satellites.cpp:942-950 | zero for an invalid or out-of-range id, else the estimate ECEF position |
| Satellites.GnssSatellites.GetSatellitePositionEci | src/environment/global/gnss_satellites.cpp:952-960 | zero for an invalid or out-of-range id, else the estimate ECI position |
| Satellites.GnssSatellites.GetSatelliteClock | src/environment/global/gnss_satellites.cpp:962-968 | zero for an invalid or out-of-range id, else the estimate clock |
| Satellites.GnssSatellites.IonosphericDelay | src/environment/global/gnss_satellites.cpp:1076-1104 | zero for an invalid id and for a receiver at or above 1000 km altitude |
| Satellites.GnssSatellites.GetPseudoRange | src/environment/global/gnss_satellites.cpp:970-1013 | zero for an invalid id, else geometric range plus receiver clock minus satellite clock plus ionospheric delay |
| Satellites.GnssSatellites.GetCarrierPhase | src/environment/global/gnss_satellites.cpp:1015-1073 | `(0, 0)` for an invalid id, else the fraction and integer cycles of (pseudorange − 2·ionosphere)/λ |
| Satellites.CodeCarrierDivergence | src/environment/global/gnss_satellites.cpp:970-1073 | the carrier phase times λ is the pseudorange minus twice the ionospheric delay |
| ProductFiles.Substr | src/environment/global/initialize_gnss_satellites.cpp:130-141 | `std::string::substr(pos, len)`: out of range iff `pos > size`, else the clamped slice |
| ProductFiles.SubstrFrom | src/environment/global/initialize_gnss_satellites.cpp:130-141 | `substr(pos)`: out of range iff `pos > size`, else the suffix |
| ProductFiles.FirstUnderscore | src/environment/global/initialize_gnss_satellites.cpp:18-53 | `find('_')`: the first underscore, or none |
| ProductFiles.IgsDirectories | src/environment/global/initialize_gnss_satellites.cpp:18-53 | `IGS…`, `IGR…`, `IGU…` and `ma…` map to `IGS/igs/`, `IGS/igr/`, `IGS/igu/` and `JAXA/madoca/` |
| ProductFiles.UnderscoreDirectories | src/environment/global/initialize_gnss_satellites.cpp:30-50 | the prefix before `_` plus `F`/`R`/`U` gives `/final/`, `/rapid/` or `/ultra_rapid/`; another letter is fatal |
| ProductFiles.NoUnderscoreDirectory | src/environment/global/initialize_gnss_satellites.cpp:30-52 | any other sort without `_` gives `""` |
| ProductFiles.YearLength | src/environment/global/initialize_gnss_satellites.cpp:99 | 365 or 366 days |
| ProductFiles.YearLengthIsGregorian | src/environment/global/initialize_gnss_satellites.cpp:99 | 366 iff the Gregorian leap-year rule holds |
| ProductFiles.DayOfYearStep | src/environment/global/initialize_gnss_satellites.cpp:104-109 | the next day-of-year file is the next day, or day 1 of the next year after the last day; it stays a valid day |
| ProductFiles.DayStringThreeDigits | src/environment/global/initialize_gnss_satellites.cpp:110-116 | days 1..999 are written with exactly three digits of their value |
| ProductFiles.WeeklyStep | src/environment/global/initialize_gnss_satellites.cpp:183-194 | the next weekly file is one GPS day later; day 7 wraps to day 0 of the next week |
| ProductFiles.UltraRapidStep | src/environment/global/initialize_gnss_satellites.cpp:145-164 | the next ultra-rapid file is six hours later; hour 24 wraps to hour 0 of the next day, with the week rollover |
| ProductFiles.HourStringTwoDigits | src/environment/global/initialize_gnss_satellites.cpp:154-158 | hours 0..99 are written with exactly two digits of their value |
| ProductFiles.FirstDigit | src/environment/global/initialize_gnss_satellites.cpp:130-133 | the header ends at the first digit of `first` |
| ProductFiles.WeeklyNameParses | src/environment/global/initialize_gnss_satellites.cpp:169-196 | parsing a generated weekly name gives back its header, footer, week and day |
| ProductFiles.UltraRapidNameParses | src/environment/global/initialize_gnss_satellites.cpp:130-158 | parsing a generated ultra-rapid name gives back its header, footer, week, day and hour |
| ProductFiles.DayOfYearNameParses | src/environment/global/initialize_gnss_satellites.cpp:95-117 | parsing a generated COD day-of-year name gives back its year and day |
| ProductFiles.ReadFileContents | src/environment/global/initialize_gnss_satellites.cpp:62-78 | a missing file is fatal; the lines are the file's, with one trailing `"EOF"` line removed |
| ProductFiles.NamesEndAtLast | src/environment/global/initialize_gnss_satellites.cpp:118-123 | the generated names end with `last`, and no earlier name equals it |
| ProductFiles.PagesFollowNames | src/environment/global/initialize_gnss_satellites.cpp:117-123 | one page per generated name, each the contents of that file |
| ProductFiles.ReadPages | src/environment/global/initialize_gnss_satellites.cpp:104-195 | each of the read-until-`last` loops computes `Pages` for its naming scheme |
| ProductFiles.Sp3Flag | src/environment/global/initialize_gnss_satellites.cpp:93-126 | the flag is `kNotUse` or `kUnknown`, and `kUnknown` exactly when `first` does not start with `COD` and the sort starts with `IGU` or contains `Ultra` |
| ProductFiles.Sp3FlagMatchesScheme | src/environment/global/initialize_gnss_satellites.cpp:93-126 | when the first name parses, the flag is `kUnknown` exactly when the files are named by the ultra-rapid scheme |
| ProductFiles.ReadSp3Files | src/environment/global/initialize_gnss_satellites.cpp:90-199 | `ReadSp3Files` computes `Sp3Files`: the directory, the naming scheme chosen by sort, the pages, and the flag |
| ProductFiles.ReadClockFiles | src/environment/global/initialize_gnss_satellites.cpp:211-288 | `ReadClockFiles` computes `ClockFiles`: the directory, the sub-directory named by the extension, and the pages |
| ProductFiles.SegmentFlag | src/environment/global/initialize_gnss_satellites.cpp:328-335 | the segment choice fails iff it is empty; else `kObserve1` or `kPredict1` plus its last digit minus one |
| ProductFiles.SegmentFlagOfChoice | src/environment/global/initialize_gnss_satellites.cpp:328-335 | `"observeK"` and `"predictK"` give `kObserve1+K−1` and `kPredict1+K−1` for K in 1..4 |
| ProductFiles.EstimatePositionFlagOfChoice | src/environment/global/initialize_gnss_satellites.cpp:328-335 | after a `kNotUse` read the choice is ignored; otherwise `"observeK"` gives `kObserve1+K−1`, `"predictK"` gives `kPredict1+K−1` and an empty choice fails |
| ProductFiles.EstimateClockFlag | src/environment/global/initialize_gnss_satellites.cpp:339-347 | a non-SP3 clock inherits the position flag; an SP3 clock's flag is `Sp3Flag` of its own sort and first name |
| ProductFiles.UltraRapidEstimateFlags | src/environment/global/initialize_gnss_satellites.cpp:320-347 | an ultra-rapid estimate position with `"observeK"` is at segment K; a non-SP3 clock keeps it, an ultra-rapid SP3 clock is reset to `kUnknown` |
| RandomWalk.Derivative | src/library/randomization/random_walk_template_functions.hpp:22-33 | all N components are written, each by the component rule |
| RandomWalk.MagnitudeKept | src/library/randomization/random_walk_template_functions.hpp:25-32 | every branch keeps the magnitude of the draw |
| RandomWalk.PushedTowardBand | src/library/randomization/random_walk_template_functions.hpp:26-31 | above the limit the derivative is ≤ 0, below it ≥ 0, inside it the draw itself |
| RandomWalk.UpperTestFirst | src/library/randomization/random_walk_template_functions.hpp:26-29 | with a negative limit the overlap is pushed down: the upper test wins |
| RandomWalk.ComponentsIndependent | src/library/randomization/random_walk_template_functions.hpp:25-32 | component i depends only on state i, limit i and draw i |
| RandomWalk.DerivativeBounded | src/library/randomization/random_walk_template_functions.hpp:25-32 | every component keeps its draw's magnitude and points back into the band |
| RandomWalk.RandomWalk.constructor | src/library/randomization/random_walk_template_functions.hpp:13-19 | the walk keeps its step width, standard deviations and limits, one per component |
| RandomWalk.RandomWalk.DerivativeFunction | src/library/randomization/random_walk_template_functions.hpp:22-33 | the loop writes `rhs` as the component rule applied to every component |

## Left out

- The interpolation kernels (trigonometric and Lagrange) are uninterpreted function values. Only the exact-sample branch, which returns the stored value, is specified.
- `TrigonometricInterpolation`'s `sin` and `LagrangeInterpolation`'s floating division are therefore not modelled. The `interpolation_method` argument of `Initialize` is unused in the C++ code and does not appear.
- Calendar conversion (`mktime`, `jday`, `gstime`) uses libc and timezone state. An epoch line arrives already converted, as its unix time and the cosine and sine of its sidereal angle.
- The tokenising of lines with `istringstream`, `stod` and `stoi`: each SP3 line arrives as its first character plus its fields read both as an epoch line and as a record. A `.clk30s` line arrives as its record type, identifier, unix time and bias.
- The `stoi` of identifiers and file names is modelled on digits and an optional sign. Leading white space and overflow are not modelled.
- `double` arithmetic is modelled as exact `real` arithmetic. `speed_of_light` and `earth_equatorial_radius_m` are environment constants; the model fixes them at 299792458 m/s and 6378137 m (WGS84).
- Euclidean norms are a parameter (`Geometry.norm`), because they need `sqrt`. So is the ionosphere's obliquity factor `1 / cos(angle)`, because it needs `cos` and the angle between two vectors. `pow(·, 2)` is written as a product.
- `IonosphericModel`, `IonosphericDelay`, `GetPseudoRange` and `GetCarrierPhase` require a non-zero frequency. At zero the C++ code divides by zero and produces infinities, which the model does not represent.
- `UltraRapidMode` is modelled as the integers `kNotUse = 0`, `kUnknown = 1`, `kObserve1..4 = 2..5` and `kPredict1..4 = 6..9`. The enumeration's declaration is not modelled; the order is the one `ur_flag - kObserve1` needs.
- Everything file-system related:
  - reading the file system is a map from paths to lines;
  - `ReadFileContents`' message and `exit(1)` become the `Fatal` error;
  - reading the `.ini` configuration in `InitGnssSatellites` is left out;
  - `GnssSatellites`' logging (`GetLogHeader`, `GetLogValue`) and `DebugOutput` write CSV and are left out.
- The loops that generate file names until one equals `last` never end when `last` is never produced. The model runs them for at most a given bound, and returns `NotReached` when the bound runs out.
- The simulation time object is reduced to elapsed seconds. `SetUp`'s unix start time arrives already converted.
- `SetUp` and `Update` of the tracks require a window size N of at least 1. With N = 0 the C++ code reads `front()` of an empty window.
- Per-satellite window state is kept as one tracking record per satellite instead of the C++ code's several parallel vectors.
- `PositionTrack.GetWhetherValid`, `PositionTrack.GetPositionEcef`, `PositionTrack.GetPositionEci`, `ClockTrack.GetWhetherValid`, `ClockTrack.GetSatClock` and the three `SatelliteInformation` accessors return the stored field and carry no contract. The facade's contracts state what they return.
- The constructor of `RandomWalk<N>` seeds `N` normal randomizers, which is not modelled. Each call's draws arrive as an input.
- `Position.SetUpSat`, `Position.UpdateSat`, `Clock.SetUpSat` and `Clock.UpdateSat` state only that the per-satellite state stays consistent. What they compute is stated by the `SetUpValidIff`, `UpdateValidIff`, `UpdateAdvanceIff`, `ExactSampleReported`, `ClockOutputs` and window-tightness lemmas.
- `Satellites.GnssSatellites.Initialize` states the window sizes and consistency on success, not the stored lists. The lists are stated by `SatelliteInformation.Initialize`.
- For an ultra-rapid position file (an `IGU` sort, or one containing `Ultra`), `ReadSp3Files` gives the true track the flag `kUnknown`. The C++ segment arithmetic then has offset −1 and reads the `L/8` lines just before the first epoch marker. The model reproduces this as written (`Series.UnknownSegmentEndsAtMarker`). Nothing in the source shows what was intended, so it is not listed as a finding.
- Satellite ids are `nat` in every accessor. In the C++ code a negative id passes the `id >= all_sat_num_` test and `.at` throws `out_of_range` (gnss_satellites.cpp:224-227, 508-516, 801-804, 933-968). Such an id is reachable: `GetIndexFromId("G00")` is −1 (`Constellation.NegativeIndexReachable`).
- `Window.LowerBound` is a linear scan for the first sample not before the time. `std::lower_bound` (gnss_satellites.cpp:387-388) is specified only on times partitioned by that test; on sorted times the two agree (`Window.LowerBoundSplits`).
- The constructors pre-fill all 117 records as untracked, with validity false and zero outputs. In the C++ code `validate_` and the outputs are sized only in `SetUp` (gnss_satellites.cpp:371-375, 674-675) and the lists only in `Initialize` (gnss_satellites.cpp:238-240, 522-523). A query before `SetUp`, for example on a disabled `GnssSatellites` (initialize_gnss_satellites.cpp:294-295; gnss_satellites.cpp:892), does `.at` on an empty vector and throws, while the model answers false or zero.

## Findings

| source | as written | input that shows it | evidently intended | confidence | as-written member | corrected member |
|---|---|---|---|---|---|---|
| src/environment/global/gnss_satellites.cpp:196-221 | `GetIdFromIndex` tests `index < bias` of the next constellation, but that bias is the last index of the previous one | index 31 (the index of `"G32"`) gives `"R00"`; likewise 57 → `"E00"`, 93 → `"C00"`, 109 → `"J00"` | `index <= bias`, so that 31 → `"G32"`, 57 → `"R26"`, 93 → `"E36"`, 109 → `"C16"` and id → index → id is the identity | not executed | Constellation.AsWrittenBoundaryDefect | Constellation.IdRoundTrip |
