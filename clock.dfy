/**
 * GnssSatelliteClock: per-satellite clock-offset series read from the clock records of
 * an SP3 file or from the "AS" records of a 30-second clock (.clk30s) file, and the
 * nearest-sample window from which SetUp and Update produce each satellite's clock
 * offset and validity.
 */
module Clock {
  import opened Wrappers
  import opened Constellation
  import opened Window
  import opened Series

  /** The two parallel per-satellite lists Initialize fills: epoch times and offsets in metres. */
  datatype ClkStore = ClkStore(times: seq<seq<real>>, offsets: seq<seq<real>>)

  predicate Aligned(st: ClkStore)
  {
    && |st.times| == AllSatNum && |st.offsets| == AllSatNum
    && forall k :: 0 <= k < AllSatNum ==> |st.offsets[k]| == |st.times[k]|
  }

  predicate Grows(a: ClkStore, b: ClkStore)
    requires Aligned(a) && Aligned(b)
  {
    forall k :: 0 <= k < AllSatNum ==> |a.times[k]| <= |b.times[k]|
  }

  /** Store one offset of satellite `id` under the merge rule with the given threshold. */
  function Ingest(st: ClkStore, id: nat, t: real, v: real, threshold: real): (r: ClkStore)
    requires Aligned(st) && id < AllSatNum
    ensures Aligned(r) && Grows(st, r)
    ensures forall k :: 0 <= k < AllSatNum && k != id ==> r.times[k] == st.times[k] && r.offsets[k] == st.offsets[k]
    ensures var n := |r.times[id]|; n > 0 && r.times[id][n - 1] == t && r.offsets[id][n - 1] == v
    ensures |r.times[id]| == |st.times[id]| <==> Overwrites(st.times[id], t, threshold)
    ensures r.times[id][..|r.times[id]| - 1]
         == if Overwrites(st.times[id], t, threshold) then st.times[id][..|st.times[id]| - 1] else st.times[id]
  {
    var ow := Overwrites(st.times[id], t, threshold);
    ClkStore(st.times[id := Put(st.times[id], ow, t)], st.offsets[id := Put(st.offsets[id], ow, v)])
  }

  /** The accumulators of Initialize: the lists and the track's time interval. */
  datatype ClkScan = ClkScan(store: ClkStore, interval: real)

  // ---------------------------------------------------------------------------------
  // SP3 clock records

  /** Microseconds of clock to metres of range. */
  function UsToM(us: real): real
  {
    us * (SpeedOfLight * 0.000001)
  }

  /**
   * A satellite record of an SP3 page: its id is looked up first; a sentinel clock is
   * dropped; an index outside the lists throws; otherwise the clock, in metres, is
   * merged with a 1 s threshold.
   */
  function Sp3Record(st: ClkStore, t: real, r: Record): (res: Result<ClkStore>)
    requires Aligned(st)
    ensures res.Ok? ==> Aligned(res.value) && Grows(st, res.value)
  {
    var id :- IndexFromId(r.id);
    if IsSentinel(r.clockUs) then Ok(st)
    else if !(0 <= id < AllSatNum) then Err(OutOfRange)
    else Ok(Ingest(st, id, t, UsToM(r.clockUs), 1.0))
  }

  /** One data line of an SP3 page: an epoch line only sets the current time. */
  function Sp3Line(st: ClkStore, t: real, line: Line, isEpoch: bool): (r: Result<(ClkStore, real)>)
    requires Aligned(st)
    ensures r.Ok? ==> Aligned(r.value.0) && Grows(st, r.value.0)
  {
    if isEpoch then Ok((st, line.asEpoch.unixTime))
    else
      var next :- Sp3Record(st, t, line.asRecord);
      Ok((next, t))
  }

  function Sp3Step(st: ClkStore, t: real, page: Page, lo: int, i: nat): (r: Result<(ClkStore, real)>)
    requires Aligned(st)
    ensures r.Ok? ==> Aligned(r.value.0) && Grows(st, r.value.0)
  {
    var li :- DataLine(page, lo, i);
    Sp3Line(st, t, li.0, li.1)
  }

  function Sp3LinesFrom(st: ClkStore, t: real, page: Page, lo: int, i: nat, count: nat): (r: Result<ClkStore>)
    requires Aligned(st)
    ensures r.Ok? ==> Aligned(r.value) && Grows(st, r.value)
    decreases count - i
  {
    if i >= count then Ok(st)
    else
      var next :- Sp3Step(st, t, page, lo, i);
      Sp3LinesFrom(next.0, next.1, page, lo, i + 1, count)
  }

  /** One SP3 page, laid out as the position track reads it; its interval replaces the track's. */
  function Sp3Page(sc: ClkScan, page: Page, flag: int): (r: Result<ClkScan>)
    requires Aligned(sc.store)
    ensures r.Ok? ==> Aligned(r.value.store) && Grows(sc.store, r.value.store) && r.value.interval == page.interval
  {
    if |page.lines| < 3 then Err(OutOfRange)
    else
      var marker :- FirstEpochMarker(page.lines, 3);
      var range := DataRange(marker, page, flag);
      var st :- Sp3LinesFrom(sc.store, 0.0, page, range.0, 0, Count(range));
      Ok(ClkScan(st, page.interval))
  }

  function Sp3PagesFrom(sc: ClkScan, pages: seq<Page>, p: nat, flag: int): (r: Result<ClkScan>)
    requires Aligned(sc.store) && p <= |pages|
    ensures r.Ok? ==> Aligned(r.value.store) && Grows(sc.store, r.value.store)
    decreases |pages| - p
  {
    if p == |pages| then Ok(sc)
    else
      var next :- Sp3Page(sc, pages[p], flag);
      Sp3PagesFrom(next, pages, p + 1, flag)
  }

  /** A sentinel clock changes nothing (once its id has been read). */
  lemma Sp3SentinelDropped(st: ClkStore, t: real, r: Record)
    requires Aligned(st) && IndexFromId(r.id).Ok? && IsSentinel(r.clockUs)
    ensures Sp3Record(st, t, r) == Ok(st)
  {
  }

  /** A kept SP3 clock lands as its satellite's last offset, converted from microseconds to metres. */
  lemma Sp3ClockStored(st: ClkStore, t: real, r: Record)
    requires Aligned(st) && IndexFromId(r.id).Ok? && !IsSentinel(r.clockUs)
    ensures var id := IndexFromId(r.id).value;
      (0 <= id < AllSatNum <==> Sp3Record(st, t, r).Ok?)
      && (0 <= id < AllSatNum ==>
            var s := Sp3Record(st, t, r).value;
            var n := |s.times[id]|;
            s.times[id][n - 1] == t && s.offsets[id][n - 1] == r.clockUs * SpeedOfLight / 1000000.0)
  {
  }

  // ---------------------------------------------------------------------------------
  // 30-second clock files

  /**
   * One line of a .clk30s page: whether it is a satellite-bias record (starts with "AS "),
   * and for one that is, its satellite id (second field), its epoch (fields three to
   * eight, through mktime) and its clock bias in seconds (tenth field).
   */
  datatype ClkLine = ClkLine(isSatelliteBias: bool, id: string, unixTime: real, biasS: real)

  /** One ultra-rapid segment: six hours. */
  const SegmentSeconds: real := 21600.0

  /** The interval a .clk30s ingestion starts from, before the smallest gap seen replaces it. */
  const ClkInitialInterval: real := 1000000000.0

  /** The time window a page's records must fall in. */
  datatype Bounds = Bounds(start: real, end: real)

  /**
   * Without ultra-rapid segments a page reads the given period, extended by one record
   * (30 s); with them the window is opened by the page's first satellite-bias record.
   */
  function PageBounds(flag: int, period: (real, real)): Bounds
  {
    if flag == NotUse then Bounds(period.0, period.1 + 30.0) else Bounds(-1.0, 0.0)
  }

  /** A window whose start is negative is opened at segment flag - Observe1 after time t. */
  function Opened(b: Bounds, t: real, flag: int): (r: Bounds)
    ensures b.start < 0.0 ==> r.end - r.start == SegmentSeconds
    ensures b.start >= 0.0 ==> r == b
  {
    if b.start < 0.0 then
      var start := t + ((flag - Observe1) as real) * SegmentSeconds;
      Bounds(start, start + SegmentSeconds)
    else b
  }

  /**
   * A new offset: an overwrite within 1e-4 s, or an append that first lowers the track's
   * interval to the gap from the satellite's last time.
   */
  function Merge30(sc: ClkScan, id: nat, t: real, bias: real): (r: ClkScan)
    requires Aligned(sc.store) && id < AllSatNum
    ensures Aligned(r.store) && Grows(sc.store, r.store) && r.interval <= sc.interval
  {
    var times := sc.store.times[id];
    var interval := if !Overwrites(times, t, 0.0001) && |times| > 0 then Min(sc.interval, t - times[|times| - 1])
                    else sc.interval;
    ClkScan(Ingest(sc.store, id, t, bias, 0.0001), interval)
  }

  /** What a line leaves: the accumulators, the page's window, and whether the page ends here. */
  datatype Outcome = Outcome(scan: ClkScan, bounds: Bounds, stop: bool)

  /**
   * One .clk30s line: a record other than "AS " is skipped; otherwise the window is opened
   * if need be, the id is looked up, a record before the window is skipped, one at or
   * after its end ends the page, and any other is merged.
   */
  function ClkStep(sc: ClkScan, b: Bounds, line: ClkLine, flag: int): (r: Result<Outcome>)
    requires Aligned(sc.store)
    ensures r.Ok? ==> Aligned(r.value.scan.store) && Grows(sc.store, r.value.scan.store)
    ensures r.Ok? ==> r.value.scan.interval <= sc.interval
  {
    if !line.isSatelliteBias then Ok(Outcome(sc, b, false))
    else
      var t := line.unixTime;
      var w := Opened(b, t, flag);
      var id :- IndexFromId(line.id);
      var bias := line.biasS * SpeedOfLight;
      if w.start - t > 0.0001 then Ok(Outcome(sc, w, false))
      else if w.end - t < 0.0001 then Ok(Outcome(sc, w, true))
      else if !(0 <= id < AllSatNum) then Err(OutOfRange)
      else Ok(Outcome(Merge30(sc, id, t, bias), w, false))
  }

  function ClkLinesFrom(sc: ClkScan, b: Bounds, lines: seq<ClkLine>, i: nat, flag: int): (r: Result<ClkScan>)
    requires Aligned(sc.store)
    ensures r.Ok? ==> Aligned(r.value.store) && Grows(sc.store, r.value.store) && r.value.interval <= sc.interval
    decreases |lines| - i
  {
    if i >= |lines| then Ok(sc)
    else
      var o :- ClkStep(sc, b, lines[i], flag);
      if o.stop then Ok(o.scan) else ClkLinesFrom(o.scan, o.bounds, lines, i + 1, flag)
  }

  function ClkPagesFrom(sc: ClkScan, pages: seq<seq<ClkLine>>, p: nat, flag: int, period: (real, real)): (r: Result<ClkScan>)
    requires Aligned(sc.store) && p <= |pages|
    ensures r.Ok? ==> Aligned(r.value.store) && Grows(sc.store, r.value.store) && r.value.interval <= sc.interval
    decreases |pages| - p
  {
    if p == |pages| then Ok(sc)
    else
      var next :- ClkLinesFrom(sc, PageBounds(flag, period), pages[p], 0, flag);
      ClkPagesFrom(next, pages, p + 1, flag, period)
  }

  /** A clock file, with its pages read both as SP3 pages and as .clk30s pages. */
  datatype ClockFile = ClockFile(extension: string, sp3: seq<Page>, clk30s: seq<seq<ClkLine>>)

  /** Initialize as a function of the lists and interval it starts from. */
  function ClockIngestion(st: ClkStore, interval: real, file: ClockFile, flag: int, period: (real, real)): Result<ClkScan>
    requires Aligned(st)
  {
    if file.extension == ".sp3" then Sp3PagesFrom(ClkScan(st, interval), file.sp3, 0, flag)
    else if Predict1 <= flag <= Predict4 then Err(Fatal)
    else ClkPagesFrom(ClkScan(st, ClkInitialInterval), file.clk30s, 0, flag, period)
  }

  /** A .clk30s file cannot be read for a predicted segment: the program stops. */
  lemma PredictedClockFatal(st: ClkStore, interval: real, file: ClockFile, flag: int, period: (real, real))
    requires Aligned(st) && file.extension != ".sp3" && Predict1 <= flag <= Predict4
    ensures ClockIngestion(st, interval, file, flag, period) == Err(Fatal)
  {
  }

  /** After a .clk30s ingestion the interval is at most its initial 1e9 s. */
  lemma Clk30sIntervalBounded(st: ClkStore, interval: real, file: ClockFile, flag: int, period: (real, real))
    requires Aligned(st) && file.extension != ".sp3"
    requires ClockIngestion(st, interval, file, flag, period).Ok?
    ensures ClockIngestion(st, interval, file, flag, period).value.interval <= ClkInitialInterval
  {
  }

  /**
   * A record is stored only when it lies in the page's window: not more than 1e-4 s before
   * its start, and more than 1e-4 s before its end.
   */
  lemma ClkStoredOnlyInWindow(sc: ClkScan, b: Bounds, line: ClkLine, flag: int)
    requires Aligned(sc.store) && ClkStep(sc, b, line, flag).Ok?
    ensures var o := ClkStep(sc, b, line, flag).value;
      o.scan != sc ==>
        && line.isSatelliteBias
        && !(o.bounds.start - line.unixTime > 0.0001) && !(o.bounds.end - line.unixTime < 0.0001)
    ensures var o := ClkStep(sc, b, line, flag).value;
      o.stop ==> line.isSatelliteBias && o.bounds.end - line.unixTime < 0.0001
  {
  }

  /**
   * A stored record, once its window test passes, lands as its satellite's last offset in
   * metres; appending to a nonempty list lowers the interval to at most the gap.
   */
  lemma ClkRecordStored(sc: ClkScan, id: nat, t: real, bias: real)
    requires Aligned(sc.store) && id < AllSatNum
    ensures var r := Merge30(sc, id, t, bias); var n := |r.store.times[id]|;
      r.store.times[id][n - 1] == t && r.store.offsets[id][n - 1] == bias
    ensures var times := sc.store.times[id];
      |times| > 0 && !Overwrites(times, t, 0.0001) ==>
        Merge30(sc, id, t, bias).interval <= t - times[|times| - 1]
  {
  }

  /** In time order, .clk30s merging keeps every satellite's times at least 1e-4 s apart. */
  lemma Merge30KeepsSpacing(sc: ClkScan, id: nat, t: real, bias: real)
    requires Aligned(sc.store) && id < AllSatNum
    requires forall k :: 0 <= k < AllSatNum ==> Spaced(sc.store.times[k], 0.0001)
    requires |sc.store.times[id]| > 0 ==> t >= sc.store.times[id][|sc.store.times[id]| - 1]
    ensures forall k :: 0 <= k < AllSatNum ==> Spaced(Merge30(sc, id, t, bias).store.times[k], 0.0001)
  {
    MergeKeepsSpacing(sc.store.times[id], t, 0.0001);
  }

  // ---------------------------------------------------------------------------------
  // SetUp and Update

  /** One satellite's slice of the track state. */
  datatype ClkSat = ClkSat(times: seq<real>, offsets: seq<real>, nearest: int,
                           windowTimes: seq<real>, windowBias: seq<real>, valid: bool, out: real)

  predicate SatOk(s: ClkSat)
  {
    |s.offsets| == |s.times| && 0 <= s.nearest <= |s.times| && |s.windowBias| == |s.windowTimes|
  }

  /** The clock window may not span more than (n - 1) intervals: no missing epoch is tolerated. */
  const ClkSlack: nat := 0

  function Settled(s: ClkSat, t: real, valid: bool, kernel: (seq<real>, seq<real>, real) -> real): (r: ClkSat)
    requires SatOk(s) && (valid ==> s.nearest < |s.times|)
    ensures SatOk(r)
  {
    var exact := valid && Abs(t - s.times[s.nearest]) < 0.0001;
    s.(valid := valid,
       out := if !valid then s.out else if exact then s.offsets[s.nearest] else kernel(s.windowTimes, s.windowBias, t))
  }

  function ApplyPlan(s: ClkSat, p: Plan, t: real, n: nat, kernel: (seq<real>, seq<real>, real) -> real): (r: ClkSat)
    requires SatOk(s) && 0 <= p.nearest <= |s.times| && (p.valid || p.change != Keep ==> p.nearest < |s.times|)
    ensures SatOk(r)
  {
    Settled(s.(nearest := p.nearest,
               windowTimes := Apply(p.change, s.windowTimes, s.times, p.nearest, n),
               windowBias := Apply(p.change, s.windowBias, s.offsets, p.nearest, n)), t, p.valid, kernel)
  }

  lemma SetUpPlanFacts(s: ClkSat, t: real, n: nat, interval: real)
    requires SatOk(s)
    ensures var p := SetUpPlan(s.times, s.nearest, s.windowTimes, t, n, interval, ClkSlack);
      0 <= p.nearest <= |s.times| && (p.valid || p.change != Keep ==> p.nearest < |s.times|)
  {
  }

  lemma UpdatePlanFacts(s: ClkSat, t: real, n: nat, interval: real)
    requires SatOk(s)
    ensures var p := UpdatePlan(s.times, s.nearest, s.windowTimes, t, n, interval, ClkSlack);
      0 <= p.nearest <= |s.times| && (p.valid || p.change != Keep ==> p.nearest < |s.times|)
  {
  }

  /** SetUp of one satellite (after SetUp has cleared its validity; its offset is kept). */
  function SetUpSat(s: ClkSat, t: real, n: nat, interval: real, kernel: (seq<real>, seq<real>, real) -> real): (r: ClkSat)
    requires SatOk(s)
    ensures SatOk(r)
  {
    SetUpPlanFacts(s, t, n, interval);
    ApplyPlan(s, SetUpPlan(s.times, s.nearest, s.windowTimes, t, n, interval, ClkSlack), t, n, kernel)
  }

  function UpdateSat(s: ClkSat, t: real, n: nat, interval: real, kernel: (seq<real>, seq<real>, real) -> real): (r: ClkSat)
    requires SatOk(s)
    ensures SatOk(r)
  {
    UpdatePlanFacts(s, t, n, interval);
    ApplyPlan(s, UpdatePlan(s.times, s.nearest, s.windowTimes, t, n, interval, ClkSlack), t, n, kernel)
  }

  /**
   * A valid clock window holds n samples spanning no more than (n - 1) intervals (plus
   * 1e-4 s), so with samples one interval apart it has no gap.
   */
  lemma SetUpWindowTight(s: ClkSat, t: real, n: nat, interval: real, kernel: (seq<real>, seq<real>, real) -> real)
    requires SatOk(s)
    ensures var r := SetUpSat(s, t, n, interval, kernel);
      r.valid ==> |r.windowTimes| == n && r.windowTimes[n - 1] - r.windowTimes[0] <= interval * ((n - 1) as real) + 0.0001
  {
    SetUpPlanFacts(s, t, n, interval);
    var p := SetUpPlan(s.times, s.nearest, s.windowTimes, t, n, interval, ClkSlack);
    assert p.valid ==> WindowOk(Apply(p.change, s.windowTimes, s.times, p.nearest, n), n, interval, ClkSlack);
  }

  lemma UpdateWindowTight(s: ClkSat, t: real, n: nat, interval: real, kernel: (seq<real>, seq<real>, real) -> real)
    requires SatOk(s)
    ensures var r := UpdateSat(s, t, n, interval, kernel);
      r.valid ==> |r.windowTimes| == n && r.windowTimes[n - 1] - r.windowTimes[0] <= interval * ((n - 1) as real) + 0.0001
  {
    UpdatePlanFacts(s, t, n, interval);
    var p := UpdatePlan(s.times, s.nearest, s.windowTimes, t, n, interval, ClkSlack);
    UpdateValidIff(s.times, s.nearest, s.windowTimes, t, n, interval, ClkSlack);
  }

  /** A satellite that turns invalid keeps the offset it had; one that is exact reports the stored offset. */
  lemma ClockOutputs(s: ClkSat, t: real, n: nat, interval: real, kernel: (seq<real>, seq<real>, real) -> real)
    requires SatOk(s)
    ensures var r := UpdateSat(s, t, n, interval, kernel);
      (!r.valid ==> r.out == s.out)
      && (r.valid && Abs(t - s.times[r.nearest]) < 0.0001 ==> r.out == s.offsets[r.nearest])
    ensures var r := SetUpSat(s, t, n, interval, kernel);
      (!r.valid ==> r.out == s.out)
      && (r.valid && Abs(t - s.times[r.nearest]) < 0.0001 ==> r.out == s.offsets[r.nearest])
  {
    SetUpPlanFacts(s, t, n, interval);
    UpdatePlanFacts(s, t, n, interval);
  }

  /** The window around sample `index`, gathered as the source's loop does. */
  method GatherWindow(times: seq<real>, offsets: seq<real>, index: nat, n: nat) returns (wt: seq<real>, wb: seq<real>)
    requires |offsets| == |times|
    ensures wt == Slice(times, index, n) && wb == Slice(offsets, index, n)
  {
    wt, wb := [], [];
    SliceIsClipped(times, index, n);
    SliceIsClipped(offsets, index, n);
    var lo: int := index - n / 2;
    var j: int := -(n / 2);
    while j < (n + 1) / 2
      invariant -(n / 2) <= j <= (n + 1) / 2
      invariant wt == ClippedRange(times, lo, index + j)
      invariant wb == ClippedRange(offsets, lo, index + j)
      decreases (n + 1) / 2 - j
    {
      var now := index + j;
      ClippedRangeGrow(times, lo, now);
      ClippedRangeGrow(offsets, lo, now);
      if !(now < 0 || now >= |times|) {
        wt := wt + [times[now]];
        wb := wb + [offsets[now]];
      }
      j := j + 1;
    }
  }

  /** The span test on a full window, then the offset, as SetUp and Update end. */
  method JudgeSpan(s: ClkSat, t: real, n: nat, interval: real, kernel: (seq<real>, seq<real>, real) -> real)
    returns (r: ClkSat)
    requires SatOk(s) && n >= 1 && s.nearest < |s.times| && |s.windowTimes| == n
    ensures r == Settled(s, t, WindowOk(s.windowTimes, n, interval, ClkSlack), kernel)
  {
    var w := s.windowTimes;
    if w[|w| - 1] - w[0] > SpanBound(interval, n, ClkSlack) {
      return s.(valid := false);
    }
    if Abs(t - s.times[s.nearest]) < 0.0001 {
      return s.(valid := true, out := s.offsets[s.nearest]);
    }
    return s.(valid := true, out := kernel(w, s.windowBias, t));
  }

  method SetUpStep(s: ClkSat, t: real, n: nat, interval: real, kernel: (seq<real>, seq<real>, real) -> real)
    returns (r: ClkSat)
    requires SatOk(s) && n >= 1
    ensures r == SetUpSat(s, t, n, interval, kernel)
  {
    var times := s.times;
    if |times| == 0 {
      return s.(valid := false);
    }
    var index := LowerBound(times, t);
    if index == |times| {
      return s.(nearest := index, valid := false);
    }
    index := StepBack(times, t, index, n);
    var nearestTime := times[index];
    if Abs(t - nearestTime) > interval {
      return s.(nearest := index, valid := false);
    }
    var wt, wb := GatherWindow(times, s.offsets, index, n);
    var moved := s.(nearest := index, windowTimes := s.windowTimes + wt, windowBias := s.windowBias + wb);
    if |moved.windowTimes| != n {
      return moved.(valid := false);
    }
    r := JudgeSpan(moved, t, n, interval, kernel);
  }

  /** Update's move to the next sample when it is strictly closer, with the window rebuilt around it. */
  method Advance(s: ClkSat, t: real, n: nat, interval: real) returns (moved: ClkSat)
    requires SatOk(s) && s.nearest < |s.times|
    ensures var p := UpdatePlan(s.times, s.nearest, s.windowTimes, t, n, interval, ClkSlack);
      moved == s.(nearest := p.nearest,
                  windowTimes := Apply(p.change, s.windowTimes, s.times, p.nearest, n),
                  windowBias := Apply(p.change, s.windowBias, s.offsets, p.nearest, n))
  {
    var times := s.times;
    var index := s.nearest;
    moved := s;
    if index + 1 < |times| {
      var preUnix := times[index];
      var postUnix := times[index + 1];
      if Abs(t - postUnix) < Abs(t - preUnix) {
        index := index + 1;
        var wt, wb := GatherWindow(times, s.offsets, index, n);
        moved := s.(nearest := index, windowTimes := wt, windowBias := wb);
      }
    }
  }

  method UpdateStep(s: ClkSat, t: real, n: nat, interval: real, kernel: (seq<real>, seq<real>, real) -> real)
    returns (r: ClkSat)
    requires SatOk(s) && n >= 1
    ensures r == UpdateSat(s, t, n, interval, kernel)
  {
    var times := s.times;
    if |times| == 0 {
      return s.(valid := false);
    }
    if s.nearest == |times| {
      return s.(valid := false);
    }
    var moved := Advance(s, t, n, interval);
    if |moved.windowTimes| != n {
      return moved.(valid := false);
    }
    var nearestTime := times[moved.nearest];
    if Abs(t - nearestTime) > interval {
      return moved.(valid := false);
    }
    r := JudgeSpan(moved, t, n, interval, kernel);
  }

  /** What SetUp and Update maintain for one satellite. */
  datatype Tracking = Tracking(nearest: int, windowTimes: seq<real>, windowBias: seq<real>, valid: bool, out: real)

  predicate TrackOk(tr: Tracking, size: nat)
  {
    0 <= tr.nearest <= size && |tr.windowBias| == |tr.windowTimes|
  }

  const Untracked: Tracking := Tracking(0, [], [], false, 0.0)

  class ClockTrack {
    var unixTimeList: seq<seq<real>>
    var offsetSeries: seq<seq<real>>
    var timeInterval: real
    var interpolationNumber: nat
    var stepWidth: real
    var tracking: seq<Tracking>
    /** LagrangeInterpolation(window times, window offsets, t), left uninterpreted. */
    const kernel: (seq<real>, seq<real>, real) -> real

    function Store(): ClkStore
      reads this
    {
      ClkStore(unixTimeList, offsetSeries)
    }

    ghost predicate Valid()
      reads this
    {
      && Aligned(Store()) && |tracking| == AllSatNum
      && forall k :: 0 <= k < AllSatNum ==> TrackOk(tracking[k], |unixTimeList[k]|)
    }

    function Sat(k: nat): (s: ClkSat)
      reads this
      requires Valid() && k < AllSatNum
      ensures SatOk(s)
    {
      var tr := tracking[k];
      ClkSat(unixTimeList[k], offsetSeries[k], tr.nearest, tr.windowTimes, tr.windowBias, tr.valid, tr.out)
    }

    constructor(kernel: (seq<real>, seq<real>, real) -> real)
      ensures Valid() && this.kernel == kernel
      ensures forall k :: 0 <= k < AllSatNum ==> Sat(k) == ClkSat([], [], 0, [], [], false, 0.0)
    {
      this.kernel := kernel;
      unixTimeList := seq(AllSatNum, _ => []);
      offsetSeries := seq(AllSatNum, _ => []);
      timeInterval := 0.0;
      interpolationNumber := 1;
      stepWidth := 0.0;
      tracking := seq(AllSatNum, _ => Untracked);
    }

    /** The in-place merge of one offset: overwrite the last one or push a new one. */
    method Record(id: nat, t: real, v: real, threshold: real)
      requires Valid() && id < AllSatNum
      modifies this
      ensures Valid() && Store() == Ingest(old(Store()), id, t, v, threshold)
      ensures tracking == old(tracking) && timeInterval == old(timeInterval)
      ensures interpolationNumber == old(interpolationNumber) && stepWidth == old(stepWidth)
    {
      var times := unixTimeList[id];
      var overwrite := |times| > 0 && Abs(t - times[|times| - 1]) < threshold;
      assert overwrite == Overwrites(times, t, threshold);
      unixTimeList := unixTimeList[id := Put(times, overwrite, t)];
      offsetSeries := offsetSeries[id := Put(offsetSeries[id], overwrite, v)];
      assert Store() == Ingest(old(Store()), id, t, v, threshold);
      forall j | 0 <= j < AllSatNum
        ensures TrackOk(tracking[j], |unixTimeList[j]|)
      {
        assert |old(unixTimeList)[j]| <= |unixTimeList[j]|;
      }
    }

    /** One data line of an SP3 page, given the page's current epoch time. */
    method ReadSp3DataLine(page: Page, from: int, i: nat, t: real) returns (r: Result<real>)
      requires Valid()
      modifies this
      ensures Valid() && tracking == old(tracking) && timeInterval == old(timeInterval)
      ensures interpolationNumber == old(interpolationNumber) && stepWidth == old(stepWidth)
      ensures var spec := Sp3Step(old(Store()), t, page, from, i);
        (r.Ok? <==> spec.Ok?) && (r.Ok? ==> spec.value == (Store(), r.value))
    {
      var at := from + i;
      if !(0 <= at < |page.lines|) {
        return Err(OutOfRange);
      }
      if page.numSat + 1 == 0 {
        return Err(Undefined);
      }
      var line := page.lines[at];
      if i % (page.numSat + 1) == 0 {
        return Ok(line.asEpoch.unixTime);
      }
      var rec := line.asRecord;
      var id := IndexFromId(rec.id);
      if id.Err? {
        return Err(id.fault);
      }
      if IsSentinel(rec.clockUs) {
        return Ok(t);
      }
      if !(0 <= id.value < AllSatNum) {
        return Err(OutOfRange);
      }
      Record(id.value, t, UsToM(rec.clockUs), 1.0);
      return Ok(t);
    }

    method ReadSp3Page(page: Page, flag: int) returns (r: Result<()>)
      requires Valid()
      modifies this
      ensures Valid() && tracking == old(tracking)
      ensures interpolationNumber == old(interpolationNumber) && stepWidth == old(stepWidth)
      ensures var spec := Sp3Page(ClkScan(old(Store()), old(timeInterval)), page, flag);
        (r.Ok? <==> spec.Ok?) && (r.Ok? ==> spec.value == ClkScan(Store(), timeInterval))
    {
      if |page.lines| < 3 {
        return Err(OutOfRange);
      }
      timeInterval := page.interval;
      var marker := FindEpochMarker(page.lines);
      if marker.Err? {
        return Err(marker.fault);
      }
      var range := DataRange(marker.value, page, flag);
      var count := Count(range);
      var t := 0.0;
      var i := 0;
      while i < count
        invariant 0 <= i <= count && Valid() && tracking == old(tracking) && timeInterval == page.interval
        invariant interpolationNumber == old(interpolationNumber) && stepWidth == old(stepWidth)
        invariant Sp3LinesFrom(old(Store()), 0.0, page, range.0, 0, count)
               == Sp3LinesFrom(Store(), t, page, range.0, i, count)
      {
        var step := ReadSp3DataLine(page, range.0, i, t);
        if step.Err? {
          return Err(step.fault);
        }
        t := step.value;
        i := i + 1;
      }
      return Ok(());
    }

    /** One .clk30s record as the line loop handles it; `stop` is the loop's break. */
    method ReadClkLine(line: ClkLine, b: Bounds, flag: int) returns (r: Result<(Bounds, bool)>)
      requires Valid()
      modifies this
      ensures Valid() && tracking == old(tracking)
      ensures interpolationNumber == old(interpolationNumber) && stepWidth == old(stepWidth)
      ensures var spec := ClkStep(ClkScan(old(Store()), old(timeInterval)), b, line, flag);
        && (r.Ok? <==> spec.Ok?)
        && (r.Ok? ==> spec.value == Outcome(ClkScan(Store(), timeInterval), r.value.0, r.value.1))
    {
      if !line.isSatelliteBias {
        return Ok((b, false));
      }
      var t := line.unixTime;
      var w := Opened(b, t, flag);
      var id := IndexFromId(line.id);
      if id.Err? {
        return Err(id.fault);
      }
      var bias := line.biasS * SpeedOfLight;
      if w.start - t > 0.0001 {
        return Ok((w, false));
      }
      if w.end - t < 0.0001 {
        return Ok((w, true));
      }
      if !(0 <= id.value < AllSatNum) {
        return Err(OutOfRange);
      }
      MergeRecord(id.value, t, bias);
      return Ok((w, false));
    }

    /** The merge of a .clk30s offset, lowering the interval to the gap on an append. */
    method MergeRecord(id: nat, t: real, bias: real)
      requires Valid() && id < AllSatNum
      modifies this
      ensures Valid() && tracking == old(tracking)
      ensures interpolationNumber == old(interpolationNumber) && stepWidth == old(stepWidth)
      ensures ClkScan(Store(), timeInterval) == Merge30(ClkScan(old(Store()), old(timeInterval)), id, t, bias)
    {
      var times := unixTimeList[id];
      if |times| > 0 && Abs(t - times[|times| - 1]) < 0.0001 {
      } else if |times| > 0 {
        timeInterval := Min(timeInterval, t - times[|times| - 1]);
      }
      Record(id, t, bias, 0.0001);
    }

    method ReadClkPage(lines: seq<ClkLine>, flag: int, period: (real, real)) returns (r: Result<()>)
      requires Valid()
      modifies this
      ensures Valid() && tracking == old(tracking)
      ensures interpolationNumber == old(interpolationNumber) && stepWidth == old(stepWidth)
      ensures var spec := ClkLinesFrom(ClkScan(old(Store()), old(timeInterval)), PageBounds(flag, period), lines, 0, flag);
        (r.Ok? <==> spec.Ok?) && (r.Ok? ==> spec.value == ClkScan(Store(), timeInterval))
    {
      var b := if flag == NotUse then Bounds(period.0, period.1 + 30.0) else Bounds(-1.0, 0.0);
      var i := 0;
      while i < |lines|
        invariant 0 <= i <= |lines| && Valid() && tracking == old(tracking)
        invariant interpolationNumber == old(interpolationNumber) && stepWidth == old(stepWidth)
        invariant ClkLinesFrom(ClkScan(old(Store()), old(timeInterval)), PageBounds(flag, period), lines, 0, flag)
               == ClkLinesFrom(ClkScan(Store(), timeInterval), b, lines, i, flag)
      {
        var step := ReadClkLine(lines[i], b, flag);
        if step.Err? {
          return Err(step.fault);
        }
        if step.value.1 {
          break;
        }
        b := step.value.0;
        i := i + 1;
      }
      return Ok(());
    }

    /**
     * Initialize: read the clock file into the per-satellite lists. An SP3 file is read
     * page by page as the position track reads it; a .clk30s file is read from the
     * period the position file covered (or the ultra-rapid segment `flag`).
     */
    method Initialize(file: ClockFile, n: nat, flag: int, period: (real, real)) returns (r: Result<()>)
      requires Valid()
      modifies this
      ensures interpolationNumber == n && tracking == old(tracking) && stepWidth == old(stepWidth)
      ensures var spec := ClockIngestion(old(Store()), old(timeInterval), file, flag, period);
        && (r.Ok? <==> spec.Ok?)
        && (r.Ok? ==> Valid() && Store() == spec.value.store && timeInterval == spec.value.interval)
    {
      interpolationNumber := n;
      if file.extension == ".sp3" {
        var p := 0;
        while p < |file.sp3|
          invariant 0 <= p <= |file.sp3| && Valid() && interpolationNumber == n
          invariant tracking == old(tracking) && stepWidth == old(stepWidth)
          invariant ClockIngestion(old(Store()), old(timeInterval), file, flag, period)
                 == Sp3PagesFrom(ClkScan(Store(), timeInterval), file.sp3, p, flag)
        {
          var step := ReadSp3Page(file.sp3[p], flag);
          if step.Err? {
            return Err(step.fault);
          }
          p := p + 1;
        }
        return Ok(());
      }
      if Predict1 <= flag <= Predict4 {
        return Err(Fatal);
      }
      timeInterval := ClkInitialInterval;
      var p := 0;
      while p < |file.clk30s|
        invariant 0 <= p <= |file.clk30s| && Valid() && interpolationNumber == n
        invariant tracking == old(tracking) && stepWidth == old(stepWidth)
        invariant ClockIngestion(old(Store()), old(timeInterval), file, flag, period)
               == ClkPagesFrom(ClkScan(Store(), timeInterval), file.clk30s, p, flag, period)
      {
        var step := ReadClkPage(file.clk30s[p], flag, period);
        if step.Err? {
          return Err(step.fault);
        }
        p := p + 1;
      }
      return Ok(());
    }

    method PutSat(k: nat, r: ClkSat)
      requires Valid() && k < AllSatNum && SatOk(r)
      requires r.times == unixTimeList[k] && r.offsets == offsetSeries[k]
      modifies this
      ensures Valid() && Store() == old(Store()) && timeInterval == old(timeInterval)
      ensures interpolationNumber == old(interpolationNumber) && stepWidth == old(stepWidth)
      ensures Sat(k) == r && forall j :: 0 <= j < AllSatNum && j != k ==> Sat(j) == old(Sat(j))
    {
      tracking := tracking[k := Tracking(r.nearest, r.windowTimes, r.windowBias, r.valid, r.out)];
    }

    /** SetUp: clear every validity flag (offsets are kept), then set up each satellite. */
    method SetUp(t: real, stepWidth: real)
      requires Valid() && interpolationNumber >= 1
      modifies this
      ensures Valid() && Store() == old(Store()) && timeInterval == old(timeInterval)
      ensures interpolationNumber == old(interpolationNumber) && this.stepWidth == stepWidth
      ensures forall k :: 0 <= k < AllSatNum ==>
        Sat(k) == SetUpSat(old(Sat(k)).(valid := false), t, interpolationNumber, timeInterval, kernel)
    {
      this.stepWidth := stepWidth;
      var prev := tracking;
      tracking := seq(AllSatNum, k requires 0 <= k < |prev| => prev[k].(valid := false));
      var k := 0;
      while k < AllSatNum
        invariant 0 <= k <= AllSatNum && Valid() && Store() == old(Store())
        invariant timeInterval == old(timeInterval) && interpolationNumber == old(interpolationNumber)
        invariant this.stepWidth == stepWidth
        invariant forall j :: 0 <= j < k ==>
          Sat(j) == SetUpSat(old(Sat(j)).(valid := false), t, interpolationNumber, timeInterval, kernel)
        invariant forall j :: k <= j < AllSatNum ==> Sat(j) == old(Sat(j)).(valid := false)
      {
        var s := SetUpStep(Sat(k), t, interpolationNumber, timeInterval, kernel);
        PutSat(k, s);
        k := k + 1;
      }
    }

    method Update(t: real)
      requires Valid() && interpolationNumber >= 1
      modifies this
      ensures Valid() && Store() == old(Store()) && timeInterval == old(timeInterval)
      ensures interpolationNumber == old(interpolationNumber) && stepWidth == old(stepWidth)
      ensures forall k :: 0 <= k < AllSatNum ==>
        Sat(k) == UpdateSat(old(Sat(k)), t, interpolationNumber, timeInterval, kernel)
    {
      var k := 0;
      while k < AllSatNum
        invariant 0 <= k <= AllSatNum && Valid() && Store() == old(Store())
        invariant timeInterval == old(timeInterval) && interpolationNumber == old(interpolationNumber)
        invariant stepWidth == old(stepWidth)
        invariant forall j :: 0 <= j < k ==>
          Sat(j) == UpdateSat(old(Sat(j)), t, interpolationNumber, timeInterval, kernel)
        invariant forall j :: k <= j < AllSatNum ==> Sat(j) == old(Sat(j))
      {
        var s := UpdateStep(Sat(k), t, interpolationNumber, timeInterval, kernel);
        PutSat(k, s);
        k := k + 1;
      }
    }

    function GetWhetherValid(id: nat): bool
      reads this
      requires Valid()
    {
      id < AllSatNum && tracking[id].valid
    }

    /** GetSatClock: zero for an index past the lists. */
    function GetSatClock(id: nat): real
      reads this
      requires Valid()
    {
      if id >= AllSatNum then 0.0 else tracking[id].out
    }
  }
}
