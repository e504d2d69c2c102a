/**
 * Ephemeris product files as the position and clock tracks ingest them: pages of
 * pre-split lines, the layout of the data block of an SP3 page (the first epoch
 * marker, the ultra-rapid segment offsets, which lines are epoch lines), sentinel
 * samples, and the merge rule that keeps one sample per instant in a satellite's list.
 */
module Series {
  import opened Wrappers
  import opened Window

  datatype Vec3 = Vec3(x: real, y: real, z: real)

  const ZeroVec: Vec3 := Vec3(0.0, 0.0, 0.0)

  /** The value an SP3 or clock file writes for a missing coordinate or clock. */
  const Nan99: real := 999999.999999

  predicate IsSentinel(v: real)
  {
    Abs(v - Nan99) < 1.0
  }

  /**
   * UltraRapidMode, as the integers the source computes with: an ultra-rapid file holds
   * eight six-hour segments, four observed and four predicted.
   */
  const NotUse: int := 0
  const Unknown: int := 1
  const Observe1: int := 2
  const Observe4: int := 5
  const Predict1: int := 6
  const Predict4: int := 9

  /** What the tokenizer yields for a line read as an epoch line ("*  yyyy mm dd hh mm ss"). */
  datatype Epoch = Epoch(unixTime: real, cosGst: real, sinGst: real)

  /** What it yields for a line read as a satellite record ("PG05 x y z clock"). */
  datatype Record = Record(id: string, x: real, y: real, z: real, clockUs: real)

  /**
   * One line of an SP3 page: its first character (None for an empty line) and its
   * fields read either way; the position of the line decides which reading is used.
   */
  datatype Line = Line(first: Option<char>, asEpoch: Epoch, asRecord: Record)

  /**
   * An SP3 page: the header fields read from its first three lines (number of epochs,
   * epoch interval, number of satellites) and all of its lines, header lines included.
   */
  datatype Page = Page(numTimeStamps: int, interval: real, numSat: int, lines: seq<Line>)

  /** std::min and std::max. */
  function Min(a: real, b: real): (m: real)
    ensures m <= a && m <= b && (m == a || m == b)
  {
    if b < a then b else a
  }

  function Max(a: real, b: real): (m: real)
    ensures m >= a && m >= b && (m == a || m == b)
  {
    if a < b then b else a
  }

  /** environment::speed_of_light_m_s. */
  const SpeedOfLight: real := 299792458.0

  /** C++ integer division: truncates toward zero. */
  function TruncDiv(a: int, b: int): (q: int)
    requires b > 0
    ensures a >= 0 ==> q == a / b
    ensures a < 0 ==> q == -((-a) / b)
  {
    if a >= 0 then a / b else -((-a) / b)
  }

  /**
   * The search for the first epoch marker: from line `from` on, the first line whose
   * first character is '*'. Running off the page throws out_of_range; front() of an
   * empty line is undefined.
   */
  function FirstEpochMarker(lines: seq<Line>, from: nat): (r: Result<nat>)
    ensures r.Ok? ==> from <= r.value < |lines| && lines[r.value].first == Some('*')
    ensures r.Ok? ==> forall i :: from <= i < r.value ==> lines[i].first.Some? && lines[i].first != Some('*')
    decreases |lines| - from
  {
    if from >= |lines| then Err(OutOfRange)
    else match lines[from].first
      case None => Err(Undefined)
      case Some(c) => if c == '*' then Ok(from) else FirstEpochMarker(lines, from + 1)
  }

  /** The search for the first epoch marker from line 3 on, as the source's loop does it. */
  method FindEpochMarker(lines: seq<Line>) returns (r: Result<nat>)
    ensures r == FirstEpochMarker(lines, 3)
  {
    var line := 3;
    while true
      invariant 3 <= line
      invariant FirstEpochMarker(lines, 3) == FirstEpochMarker(lines, line)
      decreases |lines| - line
    {
      if line >= |lines| {
        return Err(OutOfRange);
      }
      if lines[line].first.None? {
        return Err(Undefined);
      }
      if lines[line].first == Some('*') {
        return Ok(line);
      }
      line := line + 1;
    }
  }

  /** The number of data lines of a page: one epoch line plus one line per satellite, per epoch. */
  function BlockLength(page: Page): int
  {
    (page.numSat + 1) * page.numTimeStamps
  }

  /**
   * The lines [lo, hi) the reader visits after the marker: the whole block, or for an
   * ultra-rapid file the eighth of it that belongs to segment flag - Observe1.
   */
  function DataRange(marker: int, page: Page, flag: int): (int, int)
  {
    var len := BlockLength(page);
    if flag == NotUse then (marker, marker + len)
    else
      var offset := flag - Observe1;
      var seg := TruncDiv(len, 8);
      (marker + seg * offset, marker + seg * (offset + 1))
  }

  /** Consecutive ultra-rapid segments are adjacent, each an eighth of the block long. */
  lemma SegmentsAdjacent(marker: int, page: Page, k: nat)
    ensures DataRange(marker, page, Observe1 + k).1 == DataRange(marker, page, Observe1 + k + 1).0
    ensures DataRange(marker, page, Observe1 + k).1 - DataRange(marker, page, Observe1 + k).0
         == TruncDiv(BlockLength(page), 8)
  {
    var seg := TruncDiv(BlockLength(page), 8);
    assert seg * (k + 1) == seg * k + seg;
  }

  /** When the block length is a multiple of 8, the eight segments tile the whole block. */
  lemma SegmentsTileBlock(marker: int, page: Page)
    requires BlockLength(page) % 8 == 0
    ensures DataRange(marker, page, Observe1).0 == DataRange(marker, page, NotUse).0
    ensures DataRange(marker, page, Observe1 + 7).1 == DataRange(marker, page, NotUse).1
  {
    var len := BlockLength(page);
    var seg := TruncDiv(len, 8);
    assert seg * 8 == len;
  }

  /**
   * The flag Unknown (what file-name sequencing reports for an ultra-rapid file) gives
   * the offset -1: the range is the eighth of a block that ends at the epoch marker.
   */
  lemma UnknownSegmentEndsAtMarker(marker: int, page: Page)
    ensures DataRange(marker, page, Unknown) == (marker - TruncDiv(BlockLength(page), 8), marker)
  {
  }

  /**
   * When the number of epochs is a multiple of 8, every segment starts on an epoch line
   * of the whole block, so the lines a segment reads as epoch lines (every
   * (numSat+1)-th one from its start) are exactly the whole block's epoch lines.
   */
  lemma SegmentEpochsAligned(marker: int, page: Page, k: nat, i: nat)
    requires page.numSat >= 0 && page.numTimeStamps >= 0 && page.numTimeStamps % 8 == 0
    ensures var start := DataRange(marker, page, Observe1 + k).0;
      (start - marker + i) % (page.numSat + 1) == i % (page.numSat + 1)
  {
    var m := page.numSat + 1;
    var c := page.numTimeStamps / 8;
    assert BlockLength(page) == m * (8 * c);
    assert BlockLength(page) == (m * c) * 8;
    assert TruncDiv(BlockLength(page), 8) == m * c;
    assert TruncDiv(BlockLength(page), 8) * k == m * (c * k);
    ModMultipleShift(m, c * k, i);
  }

  lemma ModMultipleShift(m: nat, c: nat, i: nat)
    requires m > 0
    ensures (m * c + i) % m == i % m
  {
    assert m * (c + i / m) == m * c + m * (i / m);
    ModUnique(m * c + i, m, c + i / m, i % m);
  }

  /** Euclidean division is unique: the quotient and remainder are the only ones that fit. */
  lemma ModUnique(y: int, m: nat, q: int, r: int)
    requires m > 0 && 0 <= r < m && y == m * q + r
    ensures y % m == r && y / m == q
  {
    var q2, r2 := y / m, y % m;
    assert m * (q2 - q) == r - r2;
    if q2 - q >= 1 {
      MulAtLeast(m, q2 - q);
    } else if q - q2 >= 1 {
      MulAtLeast(m, q - q2);
    }
  }

  lemma MulAtLeast(m: nat, d: int)
    requires m > 0 && d >= 1
    ensures m * d >= m
  {
  }

  /**
   * Line i (counted from `lo`) of a data block, and whether it is read as an epoch line.
   * A line outside the page throws out_of_range; i % (numSat+1) with numSat == -1 divides
   * by zero.
   */
  function DataLine(page: Page, lo: int, i: nat): (r: Result<(Line, bool)>)
    ensures r.Ok? ==> 0 <= lo + i < |page.lines| && r.value.0 == page.lines[lo + i]
    ensures r.Ok? ==> page.numSat + 1 != 0 && (r.value.1 <==> i % (page.numSat + 1) == 0)
  {
    if !(0 <= lo + i < |page.lines|) then Err(OutOfRange)
    else if page.numSat + 1 == 0 then Err(Undefined)
    else Ok((page.lines[lo + i], i % (page.numSat + 1) == 0))
  }

  /** The number of lines a block [lo, hi) holds; an empty or reversed range holds none. */
  function Count(range: (int, int)): nat
  {
    if range.1 - range.0 > 0 then range.1 - range.0 else 0
  }

  /** The first line of a block is always read as an epoch line. */
  lemma FirstDataLineIsEpoch(page: Page, lo: int)
    requires DataLine(page, lo, 0).Ok?
    ensures DataLine(page, lo, 0).value.1
  {
  }

  /**
   * The merge rule: a sample whose time is within `threshold` of the satellite's last
   * stored time replaces that sample; any other sample is appended.
   */
  predicate Overwrites(times: seq<real>, t: real, threshold: real)
  {
    |times| > 0 && Abs(t - times[|times| - 1]) < threshold
  }

  function Put<T>(s: seq<T>, overwrite: bool, x: T): (r: seq<T>)
    ensures |r| == (if overwrite && |s| > 0 then |s| else |s| + 1)
    ensures |r| > 0 && r[|r| - 1] == x
    ensures r[..|r| - 1] == (if overwrite && |s| > 0 then s[..|s| - 1] else s)
  {
    if overwrite && |s| > 0 then s[..|s| - 1] + [x] else s + [x]
  }

  /** Consecutive stored times at least `gap` apart. */
  predicate Spaced(s: seq<real>, gap: real)
  {
    forall i :: 0 <= i < |s| - 1 ==> s[i + 1] - s[i] >= gap
  }

  predicate StrictlyIncreasing(s: seq<real>)
  {
    forall i, j :: 0 <= i < j < |s| ==> s[i] < s[j]
  }

  /**
   * When samples arrive in time order, merging keeps a satellite's times at least
   * `threshold` apart: an overwrite moves the last time forward, an append is at least
   * `threshold` after it.
   */
  lemma MergeKeepsSpacing(times: seq<real>, t: real, threshold: real)
    requires Spaced(times, threshold)
    requires |times| > 0 ==> t >= times[|times| - 1]
    ensures Spaced(Put(times, Overwrites(times, t, threshold), t), threshold)
  {
    var r := Put(times, Overwrites(times, t, threshold), t);
    forall i | 0 <= i < |r| - 1
      ensures r[i + 1] - r[i] >= threshold
    {
      assert r[..|r| - 1][i] == r[i];
      if i + 1 < |r| - 1 {
        assert r[..|r| - 1][i + 1] == r[i + 1];
      }
    }
  }

  /** Times spaced by a positive gap are strictly increasing. */
  lemma {:induction false} SpacedIncreasing(s: seq<real>, gap: real)
    requires gap > 0.0 && Spaced(s, gap)
    ensures StrictlyIncreasing(s)
    decreases |s|
  {
    if |s| > 1 {
      var u := s[..|s| - 1];
      assert Spaced(u, gap) by {
        forall i | 0 <= i < |u| - 1 ensures u[i + 1] - u[i] >= gap {
          assert u[i] == s[i] && u[i + 1] == s[i + 1];
        }
      }
      SpacedIncreasing(u, gap);
      forall i, j | 0 <= i < j < |s|
        ensures s[i] < s[j]
      {
        if j < |s| - 1 {
          assert u[i] == s[i] && u[j] == s[j];
        } else if i < |s| - 2 {
          assert u[i] == s[i] && u[|s| - 2] == s[|s| - 2];
        }
      }
    }
  }
}
