/**
 * GnssSatellitePosition: per-satellite ECEF and ECI position series read from SP3
 * pages, and the nearest-sample window from which SetUp and Update produce each
 * satellite's position and validity.
 */
module Position {
  import opened Wrappers
  import opened Constellation
  import opened Window
  import opened Series

  /** The three parallel per-satellite lists Initialize fills. */
  datatype PosStore = PosStore(times: seq<seq<real>>, ecef: seq<seq<Vec3>>, eci: seq<seq<Vec3>>)

  /** One list per satellite, and the time, ECEF and ECI lists of a satellite equally long. */
  predicate Aligned(st: PosStore)
  {
    && |st.times| == AllSatNum && |st.ecef| == AllSatNum && |st.eci| == AllSatNum
    && forall k :: 0 <= k < AllSatNum ==> |st.ecef[k]| == |st.times[k]| && |st.eci[k]| == |st.times[k]|
  }

  /** No satellite's list got shorter. */
  predicate Grows(a: PosStore, b: PosStore)
    requires Aligned(a) && Aligned(b)
  {
    forall k :: 0 <= k < AllSatNum ==> |a.times[k]| <= |b.times[k]|
  }

  /** Kilometres to metres. */
  function KmToM(r: Record): Vec3
  {
    Vec3(r.x * 1000.0, r.y * 1000.0, r.z * 1000.0)
  }

  /** ECEF to ECI by the Greenwich sidereal angle of the epoch. */
  function Rotate(ep: Epoch, v: Vec3): Vec3
  {
    Vec3(ep.cosGst * v.x - ep.sinGst * v.y, ep.sinGst * v.x + ep.cosGst * v.y, v.z)
  }

  /** Store one sample of satellite `id` under the merge rule (1 s threshold). */
  function Ingest(st: PosStore, id: nat, t: real, ecef: Vec3, eci: Vec3): (r: PosStore)
    requires Aligned(st) && id < AllSatNum
    ensures Aligned(r) && Grows(st, r)
    ensures forall k :: 0 <= k < AllSatNum && k != id ==>
      r.times[k] == st.times[k] && r.ecef[k] == st.ecef[k] && r.eci[k] == st.eci[k]
    ensures var n := |r.times[id]|;
      n > 0 && r.times[id][n - 1] == t && r.ecef[id][n - 1] == ecef && r.eci[id][n - 1] == eci
    ensures |r.times[id]| == |st.times[id]| <==> Overwrites(st.times[id], t, 1.0)
    ensures r.times[id][..|r.times[id]| - 1]
         == if Overwrites(st.times[id], t, 1.0) then st.times[id][..|st.times[id]| - 1] else st.times[id]
  {
    var ow := Overwrites(st.times[id], t, 1.0);
    PosStore(st.times[id := Put(st.times[id], ow, t)],
             st.ecef[id := Put(st.ecef[id], ow, ecef)],
             st.eci[id := Put(st.eci[id], ow, eci)])
  }

  /**
   * A satellite record: its id is looked up first; a record with any coordinate at the
   * sentinel is dropped; an index outside the lists throws; otherwise the sample, in
   * metres and rotated to ECI, is merged.
   */
  function IngestRecord(st: PosStore, ep: Epoch, r: Record): (res: Result<PosStore>)
    requires Aligned(st)
    ensures res.Ok? ==> Aligned(res.value) && Grows(st, res.value)
  {
    var id :- IndexFromId(r.id);
    if IsSentinel(r.x) || IsSentinel(r.y) || IsSentinel(r.z) then Ok(st)
    else if !(0 <= id < AllSatNum) then Err(OutOfRange)
    else
      var ecef := KmToM(r);
      Ok(Ingest(st, id, ep.unixTime, ecef, Rotate(ep, ecef)))
  }

  /** A record with a sentinel coordinate changes nothing (once its id has been read). */
  lemma SentinelDropped(st: PosStore, ep: Epoch, r: Record)
    requires Aligned(st) && IndexFromId(r.id).Ok?
    requires IsSentinel(r.x) || IsSentinel(r.y) || IsSentinel(r.z)
    ensures IngestRecord(st, ep, r) == Ok(st)
  {
  }

  /** A record that is kept lands in its satellite's list as the last sample, in metres. */
  lemma RecordStored(st: PosStore, ep: Epoch, r: Record)
    requires Aligned(st) && IndexFromId(r.id).Ok?
    requires !IsSentinel(r.x) && !IsSentinel(r.y) && !IsSentinel(r.z)
    ensures var id := IndexFromId(r.id).value;
      (0 <= id < AllSatNum <==> IngestRecord(st, ep, r).Ok?)
      && (0 <= id < AllSatNum ==>
            var s := IngestRecord(st, ep, r).value;
            var n := |s.times[id]|;
            s.times[id][n - 1] == ep.unixTime && s.ecef[id][n - 1] == Vec3(r.x * 1000.0, r.y * 1000.0, r.z * 1000.0))
  {
  }

  /** The per-page and per-file accumulators: the lists, the epoch range, the interval. */
  datatype PosScan = PosScan(store: PosStore, start: real, end: real, interval: real)

  /** One data line: an epoch line sets the current epoch and widens the range; a record is ingested. */
  function ScanLine(sc: PosScan, ep: Epoch, line: Line, isEpoch: bool): (r: Result<(PosScan, Epoch)>)
    requires Aligned(sc.store)
    ensures r.Ok? ==> Aligned(r.value.0.store) && Grows(sc.store, r.value.0.store)
    ensures r.Ok? ==> r.value.0.interval == sc.interval
    ensures r.Ok? && isEpoch ==> r.value.0.start <= line.asEpoch.unixTime <= r.value.0.end
  {
    if isEpoch then
      var t := line.asEpoch.unixTime;
      Ok((sc.(start := Min(sc.start, t), end := Max(sc.end, t)), line.asEpoch))
    else
      var st :- IngestRecord(sc.store, ep, line.asRecord);
      Ok((sc.(store := st), ep))
  }

  /** Data lines i, i+1, ..., count-1 of a block starting at `lo`. */
  function ScanLinesFrom(sc: PosScan, ep: Epoch, page: Page, lo: int, i: nat, count: nat): (r: Result<PosScan>)
    requires Aligned(sc.store)
    ensures r.Ok? ==> Aligned(r.value.store) && Grows(sc.store, r.value.store)
    ensures r.Ok? ==> r.value.interval == sc.interval
    decreases count - i
  {
    if i >= count then Ok(sc)
    else
      var next :- ScanStep(sc, ep, page, lo, i);
      ScanLinesFrom(next.0, next.1, page, lo, i + 1, count)
  }

  /** Data line i of a block starting at `lo`, fetched and then scanned. */
  function ScanStep(sc: PosScan, ep: Epoch, page: Page, lo: int, i: nat): (r: Result<(PosScan, Epoch)>)
    requires Aligned(sc.store)
    ensures r.Ok? ==> Aligned(r.value.0.store) && Grows(sc.store, r.value.0.store)
    ensures r.Ok? ==> r.value.0.interval == sc.interval
  {
    var li :- DataLine(page, lo, i);
    ScanLine(sc, ep, li.0, li.1)
  }

  /**
   * One page: its interval replaces the track's, the first epoch marker at or after
   * line 3 locates the data block, and the block (or the ultra-rapid segment `flag`)
   * is read with the current epoch cleared.
   */
  function ScanPage(sc: PosScan, page: Page, flag: int): (r: Result<PosScan>)
    requires Aligned(sc.store)
    ensures r.Ok? ==> Aligned(r.value.store) && Grows(sc.store, r.value.store)
    ensures r.Ok? ==> r.value.interval == page.interval
  {
    if |page.lines| < 3 then Err(OutOfRange)
    else
      var marker :- FirstEpochMarker(page.lines, 3);
      var range := DataRange(marker, page, flag);
      ScanLinesFrom(sc.(interval := page.interval), Epoch(0.0, 0.0, 0.0), page, range.0, 0, Count(range))
  }

  /** Pages p, p+1, ... of a file. */
  function ScanPagesFrom(sc: PosScan, pages: seq<Page>, p: nat, flag: int): (r: Result<PosScan>)
    requires Aligned(sc.store) && p <= |pages|
    ensures r.Ok? ==> Aligned(r.value.store) && Grows(sc.store, r.value.store)
    ensures r.Ok? && p < |pages| ==> r.value.interval == pages[|pages| - 1].interval
    decreases |pages| - p
  {
    if p == |pages| then Ok(sc)
    else
      var next :- ScanPage(sc, pages[p], flag);
      ScanPagesFrom(next, pages, p + 1, flag)
  }

  /** The initial range is [1e16, 0], so min and max pick the first epoch read. */
  const StartSup: real := 10000000000000000.0

  /** Initialize as a function of the lists it starts from and the file's pages. */
  function Ingestion(st: PosStore, interval: real, pages: seq<Page>, flag: int): Result<PosScan>
    requires Aligned(st)
  {
    ScanPagesFrom(PosScan(st, StartSup, 0.0, interval), pages, 0, flag)
  }

  /**
   * When the epochs a file presents are in time order, ingestion keeps every
   * satellite's times at least one second apart, hence strictly increasing.
   */
  lemma IngestKeepsSpacing(st: PosStore, id: nat, t: real, ecef: Vec3, eci: Vec3)
    requires Aligned(st) && id < AllSatNum
    requires forall k :: 0 <= k < AllSatNum ==> Spaced(st.times[k], 1.0)
    requires |st.times[id]| > 0 ==> t >= st.times[id][|st.times[id]| - 1]
    ensures forall k :: 0 <= k < AllSatNum ==> Spaced(Ingest(st, id, t, ecef, eci).times[k], 1.0)
    ensures forall k :: 0 <= k < AllSatNum ==> StrictlyIncreasing(Ingest(st, id, t, ecef, eci).times[k])
  {
    var r := Ingest(st, id, t, ecef, eci);
    MergeKeepsSpacing(st.times[id], t, 1.0);
    forall k | 0 <= k < AllSatNum
      ensures StrictlyIncreasing(r.times[k])
    {
      SpacedIncreasing(r.times[k], 1.0);
    }
  }

  /** One satellite's slice of the track state. */
  datatype PosSat = PosSat(
    times: seq<real>, ecef: seq<Vec3>, eci: seq<Vec3>,
    nearest: int,
    windowTimes: seq<real>, windowEcef: seq<Vec3>, windowEci: seq<Vec3>,
    valid: bool, outEcef: Vec3, outEci: Vec3)

  predicate SatOk(s: PosSat)
  {
    && |s.ecef| == |s.times| && |s.eci| == |s.times|
    && 0 <= s.nearest <= |s.times|
    && |s.windowEcef| == |s.windowTimes| && |s.windowEci| == |s.windowTimes|
  }

  /** The extra span, in samples, the position window may have: up to three missing epochs. */
  const PosSlack: nat := 3

  /** What a step writes for a satellite once its plan is known. */
  function ApplyPlan(s: PosSat, p: Plan, t: real, n: nat,
                     kernel: (seq<real>, seq<Vec3>, real) -> Vec3): (r: PosSat)
    requires SatOk(s) && 0 <= p.nearest <= |s.times| && (p.valid || p.change != Keep ==> p.nearest < |s.times|)
    ensures SatOk(r)
  {
    Settled(s.(nearest := p.nearest,
               windowTimes := Apply(p.change, s.windowTimes, s.times, p.nearest, n),
               windowEcef := Apply(p.change, s.windowEcef, s.ecef, p.nearest, n),
               windowEci := Apply(p.change, s.windowEci, s.eci, p.nearest, n)), t, p.valid, kernel)
  }

  /**
   * The validity flag and outputs of a satellite whose nearest sample and window are
   * settled: a valid satellite reports the stored sample when t is within 1e-4 s of it,
   * and the interpolation over its window otherwise; an invalid one keeps its outputs.
   */
  function Settled(s: PosSat, t: real, valid: bool, kernel: (seq<real>, seq<Vec3>, real) -> Vec3): (r: PosSat)
    requires SatOk(s) && (valid ==> s.nearest < |s.times|)
    ensures SatOk(r)
  {
    var exact := valid && Abs(t - s.times[s.nearest]) < 0.0001;
    s.(valid := valid,
       outEcef := if !valid then s.outEcef else if exact then s.ecef[s.nearest] else kernel(s.windowTimes, s.windowEcef, t),
       outEci := if !valid then s.outEci else if exact then s.eci[s.nearest] else kernel(s.windowTimes, s.windowEci, t))
  }

  lemma SetUpPlanFacts(s: PosSat, t: real, n: nat, interval: real)
    requires SatOk(s)
    ensures var p := SetUpPlan(s.times, s.nearest, s.windowTimes, t, n, interval, PosSlack);
      0 <= p.nearest <= |s.times| && (p.valid || p.change != Keep ==> p.nearest < |s.times|)
  {
  }

  lemma UpdatePlanFacts(s: PosSat, t: real, n: nat, interval: real)
    requires SatOk(s)
    ensures var p := UpdatePlan(s.times, s.nearest, s.windowTimes, t, n, interval, PosSlack);
      0 <= p.nearest <= |s.times| && (p.valid || p.change != Keep ==> p.nearest < |s.times|)
  {
  }

  /** SetUp of one satellite (after SetUp has cleared its outputs and validity). */
  function SetUpSat(s: PosSat, t: real, n: nat, interval: real,
                    kernel: (seq<real>, seq<Vec3>, real) -> Vec3): (r: PosSat)
    requires SatOk(s)
    ensures SatOk(r)
  {
    SetUpPlanFacts(s, t, n, interval);
    ApplyPlan(s, SetUpPlan(s.times, s.nearest, s.windowTimes, t, n, interval, PosSlack), t, n, kernel)
  }

  /** Update of one satellite; an invalid satellite keeps its previous outputs. */
  function UpdateSat(s: PosSat, t: real, n: nat, interval: real,
                     kernel: (seq<real>, seq<Vec3>, real) -> Vec3): (r: PosSat)
    requires SatOk(s)
    ensures SatOk(r)
  {
    UpdatePlanFacts(s, t, n, interval);
    ApplyPlan(s, UpdatePlan(s.times, s.nearest, s.windowTimes, t, n, interval, PosSlack), t, n, kernel)
  }

  /** SetUp clears every output to zero and every validity flag before it visits the satellites. */
  function Cleared(s: PosSat): PosSat
  {
    s.(valid := false, outEcef := ZeroVec, outEci := ZeroVec)
  }

  /**
   * When the time asked for is within 1e-4 s of the settled sample, a valid satellite
   * reports that stored sample itself rather than an interpolated one.
   */
  lemma ExactSampleReported(s: PosSat, t: real, n: nat, interval: real,
                            kernel: (seq<real>, seq<Vec3>, real) -> Vec3)
    requires SatOk(s)
    ensures var r := SetUpSat(s, t, n, interval, kernel);
      r.valid && Abs(t - s.times[r.nearest]) < 0.0001 ==>
        r.outEcef == s.ecef[r.nearest] && r.outEci == s.eci[r.nearest]
    ensures var r := UpdateSat(s, t, n, interval, kernel);
      r.valid && Abs(t - s.times[r.nearest]) < 0.0001 ==>
        r.outEcef == s.ecef[r.nearest] && r.outEci == s.eci[r.nearest]
  {
    SetUpPlanFacts(s, t, n, interval);
    UpdatePlanFacts(s, t, n, interval);
  }

  /** An Update that leaves a satellite invalid leaves its outputs as they were. */
  lemma InvalidKeepsOutputs(s: PosSat, t: real, n: nat, interval: real,
                            kernel: (seq<real>, seq<Vec3>, real) -> Vec3)
    requires SatOk(s)
    ensures var r := UpdateSat(s, t, n, interval, kernel);
      !r.valid ==> r.outEcef == s.outEcef && r.outEci == s.outEci
  {
  }

  /** The series of a satellite are read, never written, by SetUp and Update. */
  lemma StepsKeepSeries(s: PosSat, t: real, n: nat, interval: real,
                        kernel: (seq<real>, seq<Vec3>, real) -> Vec3)
    requires SatOk(s)
    ensures var r := SetUpSat(s, t, n, interval, kernel); r.times == s.times && r.ecef == s.ecef && r.eci == s.eci
    ensures var r := UpdateSat(s, t, n, interval, kernel); r.times == s.times && r.ecef == s.ecef && r.eci == s.eci
  {
  }

  /**
   * What SetUp and Update maintain for one satellite: nearest_index_, the window lists
   * (time_period_list_ and the ECEF and ECI windows), validate_ and the two outputs. The
   * source keeps each in its own vector indexed by satellite; here they are one record
   * per satellite.
   */
  datatype Tracking = Tracking(nearest: int, windowTimes: seq<real>, windowEcef: seq<Vec3>,
                               windowEci: seq<Vec3>, valid: bool, outEcef: Vec3, outEci: Vec3)

  predicate TrackOk(tr: Tracking, size: nat)
  {
    0 <= tr.nearest <= size && |tr.windowEcef| == |tr.windowTimes| && |tr.windowEci| == |tr.windowTimes|
  }

  const Untracked: Tracking := Tracking(0, [], [], [], false, ZeroVec, ZeroVec)

  /**
   * The window around sample `index`: the source's loop over j in [-n/2, (n+1)/2), which
   * skips the positions outside the series.
   */
  method GatherWindow(times: seq<real>, ecef: seq<Vec3>, eci: seq<Vec3>, index: nat, n: nat)
    returns (wt: seq<real>, we: seq<Vec3>, wi: seq<Vec3>)
    requires |ecef| == |times| && |eci| == |times|
    ensures wt == Slice(times, index, n) && we == Slice(ecef, index, n) && wi == Slice(eci, index, n)
  {
    wt, we, wi := [], [], [];
    SliceIsClipped(times, index, n);
    SliceIsClipped(ecef, index, n);
    SliceIsClipped(eci, index, n);
    var lo: int := index - n / 2;
    var j: int := -(n / 2);
    while j < (n + 1) / 2
      invariant -(n / 2) <= j <= (n + 1) / 2
      invariant wt == ClippedRange(times, lo, index + j)
      invariant we == ClippedRange(ecef, lo, index + j)
      invariant wi == ClippedRange(eci, lo, index + j)
      decreases (n + 1) / 2 - j
    {
      var now := index + j;
      ClippedRangeGrow(times, lo, now);
      ClippedRangeGrow(ecef, lo, now);
      ClippedRangeGrow(eci, lo, now);
      if !(now < 0 || now >= |times|) {
        wt := wt + [times[now]];
        we := we + [ecef[now]];
        wi := wi + [eci[now]];
      }
      j := j + 1;
    }
  }

  /** The size and span tests on a settled window, then the outputs, as SetUp and Update end. */
  method Judge(s: PosSat, t: real, n: nat, interval: real,
               kernel: (seq<real>, seq<Vec3>, real) -> Vec3) returns (r: PosSat)
    requires SatOk(s) && n >= 1 && s.nearest < |s.times|
    ensures r == Settled(s, t, WindowOk(s.windowTimes, n, interval, PosSlack), kernel)
  {
    var w := s.windowTimes;
    if |w| != n {
      return s.(valid := false);
    }
    if w[|w| - 1] - w[0] > SpanBound(interval, n, PosSlack) {
      return s.(valid := false);
    }
    if Abs(t - s.times[s.nearest]) < 0.0001 {
      return s.(valid := true, outEcef := s.ecef[s.nearest], outEci := s.eci[s.nearest]);
    }
    return s.(valid := true, outEcef := kernel(w, s.windowEcef, t), outEci := kernel(w, s.windowEci, t));
  }

  /** The body of SetUp's loop for one satellite, branch by branch. */
  method SetUpStep(s: PosSat, t: real, n: nat, interval: real,
                   kernel: (seq<real>, seq<Vec3>, real) -> Vec3) returns (r: PosSat)
    requires SatOk(s) && n >= 1
    ensures r == SetUpSat(s, t, n, interval, kernel)
  {
    var times := s.times;
    if |times| == 0 {
      return s.(valid := false);
    }
    var index := LowerBound(times, t);
    if index == |times| {
      return s.(nearest := index, valid := false);
    }
    index := StepBack(times, t, index, n);
    var nearestTime := times[index];
    if Abs(t - nearestTime) > interval {
      return s.(nearest := index, valid := false);
    }
    var wt, we, wi := GatherWindow(times, s.ecef, s.eci, index, n);
    r := Judge(s.(nearest := index, windowTimes := s.windowTimes + wt,
                  windowEcef := s.windowEcef + we, windowEci := s.windowEci + wi), t, n, interval, kernel);
  }

  /** Update's move to the next sample when it is strictly closer, with the window rebuilt around it. */
  method Advance(s: PosSat, t: real, n: nat, interval: real) returns (moved: PosSat)
    requires SatOk(s) && s.nearest < |s.times|
    ensures var p := UpdatePlan(s.times, s.nearest, s.windowTimes, t, n, interval, PosSlack);
      moved == s.(nearest := p.nearest,
                  windowTimes := Apply(p.change, s.windowTimes, s.times, p.nearest, n),
                  windowEcef := Apply(p.change, s.windowEcef, s.ecef, p.nearest, n),
                  windowEci := Apply(p.change, s.windowEci, s.eci, p.nearest, n))
  {
    var times := s.times;
    var index := s.nearest;
    moved := s;
    if index + 1 < |times| {
      var preUnix := times[index];
      var postUnix := times[index + 1];
      if Abs(t - postUnix) < Abs(t - preUnix) {
        index := index + 1;
        var wt, we, wi := GatherWindow(times, s.ecef, s.eci, index, n);
        moved := s.(nearest := index, windowTimes := wt, windowEcef := we, windowEci := wi);
      }
    }
  }

  /** The body of Update's loop for one satellite, branch by branch. */
  method UpdateStep(s: PosSat, t: real, n: nat, interval: real,
                    kernel: (seq<real>, seq<Vec3>, real) -> Vec3) returns (r: PosSat)
    requires SatOk(s) && n >= 1
    ensures r == UpdateSat(s, t, n, interval, kernel)
  {
    var times := s.times;
    if |times| == 0 {
      return s.(valid := false);
    }
    var index := s.nearest;
    if index == |times| {
      return s.(valid := false);
    }
    var moved := Advance(s, t, n, interval);
    var nearestTime := times[moved.nearest];
    if Abs(t - nearestTime) > interval {
      return moved.(valid := false);
    }
    r := Judge(moved, t, n, interval, kernel);
  }

  class PositionTrack {
    var unixTimeList: seq<seq<real>>
    var ecefSeries: seq<seq<Vec3>>
    var eciSeries: seq<seq<Vec3>>
    var timeInterval: real
    var interpolationNumber: nat
    var stepWidth: real
    var tracking: seq<Tracking>
    /** TrigonometricInterpolation(window times, window values, t), left uninterpreted. */
    const kernel: (seq<real>, seq<Vec3>, real) -> Vec3

    function Store(): PosStore
      reads this
    {
      PosStore(unixTimeList, ecefSeries, eciSeries)
    }

    ghost predicate Valid()
      reads this
    {
      && Aligned(Store()) && |tracking| == AllSatNum
      && forall k :: 0 <= k < AllSatNum ==> TrackOk(tracking[k], |unixTimeList[k]|)
    }

    function Sat(k: nat): (s: PosSat)
      reads this
      requires Valid() && k < AllSatNum
      ensures SatOk(s)
    {
      var tr := tracking[k];
      PosSat(unixTimeList[k], ecefSeries[k], eciSeries[k], tr.nearest,
             tr.windowTimes, tr.windowEcef, tr.windowEci, tr.valid, tr.outEcef, tr.outEci)
    }

    constructor(kernel: (seq<real>, seq<Vec3>, real) -> Vec3)
      ensures Valid() && this.kernel == kernel
      ensures forall k :: 0 <= k < AllSatNum ==> Sat(k) == PosSat([], [], [], 0, [], [], [], false, ZeroVec, ZeroVec)
    {
      this.kernel := kernel;
      unixTimeList := seq(AllSatNum, _ => []);
      ecefSeries := seq(AllSatNum, _ => []);
      eciSeries := seq(AllSatNum, _ => []);
      timeInterval := 0.0;
      interpolationNumber := 1;
      stepWidth := 0.0;
      tracking := seq(AllSatNum, _ => Untracked);
    }

    /** The in-place merge of one sample: overwrite the last one or push a new one. */
    method Record(id: nat, t: real, ecef: Vec3, eci: Vec3)
      requires Valid() && id < AllSatNum
      modifies this
      ensures Valid() && Store() == Ingest(old(Store()), id, t, ecef, eci)
      ensures tracking == old(tracking) && timeInterval == old(timeInterval)
      ensures interpolationNumber == old(interpolationNumber) && stepWidth == old(stepWidth)
    {
      var times := unixTimeList[id];
      if |times| > 0 && Abs(t - times[|times| - 1]) < 1.0 {
        unixTimeList := unixTimeList[id := times[..|times| - 1] + [t]];
        ecefSeries := ecefSeries[id := ecefSeries[id][..|times| - 1] + [ecef]];
        eciSeries := eciSeries[id := eciSeries[id][..|times| - 1] + [eci]];
      } else {
        unixTimeList := unixTimeList[id := times + [t]];
        ecefSeries := ecefSeries[id := ecefSeries[id] + [ecef]];
        eciSeries := eciSeries[id := eciSeries[id] + [eci]];
      }
      assert Store() == Ingest(old(Store()), id, t, ecef, eci);
      forall j | 0 <= j < AllSatNum
        ensures TrackOk(tracking[j], |unixTimeList[j]|)
      {
        assert |old(unixTimeList)[j]| <= |unixTimeList[j]|;
      }
    }

    /** One data line of a page, given the page's current epoch and the running range. */
    method ReadLine(ep: Epoch, line: Line, isEpoch: bool, start: real, end: real)
      returns (r: Result<(real, real, Epoch)>)
      requires Valid()
      modifies this
      ensures Valid() && tracking == old(tracking) && timeInterval == old(timeInterval)
      ensures interpolationNumber == old(interpolationNumber) && stepWidth == old(stepWidth)
      ensures var spec := ScanLine(PosScan(old(Store()), start, end, timeInterval), ep, line, isEpoch);
        && (r.Ok? <==> spec.Ok?)
        && (r.Ok? ==> spec.value == (PosScan(Store(), r.value.0, r.value.1, timeInterval), r.value.2))
    {
      if isEpoch {
        var e := line.asEpoch;
        return Ok((Min(start, e.unixTime), Max(end, e.unixTime), e));
      }
      var rec := line.asRecord;
      var id := IndexFromId(rec.id);
      if id.Err? {
        return Err(id.fault);
      }
      if IsSentinel(rec.x) || IsSentinel(rec.y) || IsSentinel(rec.z) {
        return Ok((start, end, ep));
      }
      if !(0 <= id.value < AllSatNum) {
        return Err(OutOfRange);
      }
      var ecef := KmToM(rec);
      Record(id.value, ep.unixTime, ecef, Rotate(ep, ecef));
      return Ok((start, end, ep));
    }

    /** Data line i of a block: the bounds-checked access, the epoch-line test, then the line itself. */
    method ReadDataLine(page: Page, from: int, i: nat, ep: Epoch, start: real, end: real)
      returns (r: Result<(real, real, Epoch)>)
      requires Valid()
      modifies this
      ensures Valid() && tracking == old(tracking) && timeInterval == old(timeInterval)
      ensures interpolationNumber == old(interpolationNumber) && stepWidth == old(stepWidth)
      ensures var spec := ScanStep(PosScan(old(Store()), start, end, timeInterval), ep, page, from, i);
        && (r.Ok? <==> spec.Ok?)
        && (r.Ok? ==> spec.value == (PosScan(Store(), r.value.0, r.value.1, timeInterval), r.value.2))
    {
      var at := from + i;
      if !(0 <= at < |page.lines|) {
        return Err(OutOfRange);
      }
      if page.numSat + 1 == 0 {
        return Err(Undefined);
      }
      r := ReadLine(ep, page.lines[at], i % (page.numSat + 1) == 0, start, end);
    }

    /** The data lines of one block, from the page's cleared epoch on. */
    method ReadBlock(page: Page, from: int, count: nat, start: real, end: real) returns (r: Result<(real, real)>)
      requires Valid()
      modifies this
      ensures Valid() && tracking == old(tracking) && timeInterval == old(timeInterval)
      ensures interpolationNumber == old(interpolationNumber) && stepWidth == old(stepWidth)
      ensures var spec := ScanLinesFrom(PosScan(old(Store()), start, end, timeInterval), Epoch(0.0, 0.0, 0.0), page, from, 0, count);
        && (r.Ok? <==> spec.Ok?)
        && (r.Ok? ==> spec.value == PosScan(Store(), r.value.0, r.value.1, timeInterval))
    {
      var ep := Epoch(0.0, 0.0, 0.0);
      var lo, hi := start, end;
      var i := 0;
      while i < count
        invariant 0 <= i <= count && Valid() && tracking == old(tracking) && timeInterval == old(timeInterval)
        invariant interpolationNumber == old(interpolationNumber) && stepWidth == old(stepWidth)
        invariant ScanLinesFrom(PosScan(old(Store()), start, end, timeInterval), Epoch(0.0, 0.0, 0.0), page, from, 0, count)
               == ScanLinesFrom(PosScan(Store(), lo, hi, timeInterval), ep, page, from, i, count)
      {
        var step := ReadDataLine(page, from, i, ep, lo, hi);
        if step.Err? {
          return Err(step.fault);
        }
        lo, hi, ep := step.value.0, step.value.1, step.value.2;
        i := i + 1;
      }
      return Ok((lo, hi));
    }

    /** One page: its header's interval replaces the track's, then the block after the first epoch marker. */
    method ReadPage(page: Page, flag: int, start: real, end: real) returns (r: Result<(real, real)>)
      requires Valid()
      modifies this
      ensures Valid() && tracking == old(tracking)
      ensures interpolationNumber == old(interpolationNumber) && stepWidth == old(stepWidth)
      ensures var spec := ScanPage(PosScan(old(Store()), start, end, old(timeInterval)), page, flag);
        && (r.Ok? <==> spec.Ok?)
        && (r.Ok? ==> spec.value == PosScan(Store(), r.value.0, r.value.1, timeInterval))
    {
      if |page.lines| < 3 {
        return Err(OutOfRange);
      }
      timeInterval := page.interval;
      var marker := FindEpochMarker(page.lines);
      if marker.Err? {
        return Err(marker.fault);
      }
      var range := DataRange(marker.value, page, flag);
      r := ReadBlock(page, range.0, Count(range), start, end);
    }

    /**
     * Initialize: read every page of an SP3 file (or segment `flag` of each page of an
     * ultra-rapid file) into the per-satellite lists, and return the first and last
     * epoch read.
     */
    method Initialize(pages: seq<Page>, n: nat, flag: int) returns (r: Result<(real, real)>)
      requires Valid()
      modifies this
      ensures interpolationNumber == n
      ensures var spec := Ingestion(old(Store()), old(timeInterval), pages, flag);
        && (r.Ok? <==> spec.Ok?)
        && (r.Ok? ==> && Valid() && Store() == spec.value.store && timeInterval == spec.value.interval
                      && r.value == (spec.value.start, spec.value.end))
      ensures tracking == old(tracking) && stepWidth == old(stepWidth)
    {
      interpolationNumber := n;
      var start, end := StartSup, 0.0;
      var p := 0;
      while p < |pages|
        invariant 0 <= p <= |pages| && Valid() && interpolationNumber == n
        invariant tracking == old(tracking) && stepWidth == old(stepWidth)
        invariant Ingestion(old(Store()), old(timeInterval), pages, flag)
               == ScanPagesFrom(PosScan(Store(), start, end, timeInterval), pages, p, flag)
      {
        var step := ReadPage(pages[p], flag, start, end);
        if step.Err? {
          return Err(step.fault);
        }
        start, end := step.value.0, step.value.1;
        p := p + 1;
      }
      return Ok((start, end));
    }

    /** Write back one satellite's SetUp/Update state. */
    method PutSat(k: nat, r: PosSat)
      requires Valid() && k < AllSatNum && SatOk(r)
      requires r.times == unixTimeList[k] && r.ecef == ecefSeries[k] && r.eci == eciSeries[k]
      modifies this
      ensures Valid() && Store() == old(Store()) && timeInterval == old(timeInterval)
      ensures interpolationNumber == old(interpolationNumber) && stepWidth == old(stepWidth)
      ensures Sat(k) == r && forall j :: 0 <= j < AllSatNum && j != k ==> Sat(j) == old(Sat(j))
    {
      tracking := tracking[k := Tracking(r.nearest, r.windowTimes, r.windowEcef, r.windowEci, r.valid, r.outEcef, r.outEci)];
    }

    /**
     * SetUp: clear every output and validity flag, then set up each satellite from the
     * start time. The series are left as they are.
     */
    method SetUp(t: real, stepWidth: real)
      requires Valid() && interpolationNumber >= 1
      modifies this
      ensures Valid() && Store() == old(Store()) && timeInterval == old(timeInterval)
      ensures interpolationNumber == old(interpolationNumber) && this.stepWidth == stepWidth
      ensures forall k :: 0 <= k < AllSatNum ==>
        Sat(k) == SetUpSat(Cleared(old(Sat(k))), t, interpolationNumber, timeInterval, kernel)
    {
      this.stepWidth := stepWidth;
      var prev := tracking;
      tracking := seq(AllSatNum, k requires 0 <= k < |prev| => prev[k].(valid := false, outEcef := ZeroVec, outEci := ZeroVec));
      var k := 0;
      while k < AllSatNum
        invariant 0 <= k <= AllSatNum && Valid() && Store() == old(Store())
        invariant timeInterval == old(timeInterval) && interpolationNumber == old(interpolationNumber)
        invariant this.stepWidth == stepWidth
        invariant forall j :: 0 <= j < k ==>
          Sat(j) == SetUpSat(Cleared(old(Sat(j))), t, interpolationNumber, timeInterval, kernel)
        invariant forall j :: k <= j < AllSatNum ==> Sat(j) == Cleared(old(Sat(j)))
      {
        var s := SetUpStep(Sat(k), t, interpolationNumber, timeInterval, kernel);
        PutSat(k, s);
        k := k + 1;
      }
    }

    /** Update: advance and re-evaluate each satellite at time t. */
    method Update(t: real)
      requires Valid() && interpolationNumber >= 1
      modifies this
      ensures Valid() && Store() == old(Store()) && timeInterval == old(timeInterval)
      ensures interpolationNumber == old(interpolationNumber) && stepWidth == old(stepWidth)
      ensures forall k :: 0 <= k < AllSatNum ==>
        Sat(k) == UpdateSat(old(Sat(k)), t, interpolationNumber, timeInterval, kernel)
    {
      var k := 0;
      while k < AllSatNum
        invariant 0 <= k <= AllSatNum && Valid() && Store() == old(Store())
        invariant timeInterval == old(timeInterval) && interpolationNumber == old(interpolationNumber)
        invariant stepWidth == old(stepWidth)
        invariant forall j :: 0 <= j < k ==>
          Sat(j) == UpdateSat(old(Sat(j)), t, interpolationNumber, timeInterval, kernel)
        invariant forall j :: k <= j < AllSatNum ==> Sat(j) == old(Sat(j))
      {
        var s := UpdateStep(Sat(k), t, interpolationNumber, timeInterval, kernel);
        PutSat(k, s);
        k := k + 1;
      }
    }

    /** GetWhetherValid: false for an index past the lists. */
    function GetWhetherValid(id: nat): bool
      reads this
      requires Valid()
    {
      id < AllSatNum && tracking[id].valid
    }

    /** GetPosition_ecef_m / GetPosition_eci_m: zero for an index past the lists. */
    function GetPositionEcef(id: nat): Vec3
      reads this
      requires Valid()
    {
      if id >= AllSatNum then ZeroVec else tracking[id].outEcef
    }

    function GetPositionEci(id: nat): Vec3
      reads this
      requires Valid()
    {
      if id >= AllSatNum then ZeroVec else tracking[id].outEci
    }
  }
}
