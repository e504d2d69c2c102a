/**
 * Index arithmetic shared by the position and clock tracks of the GNSS engine:
 * the nearest-sample search of SetUp, the one-step advance of Update, the clipped
 * interpolation window and the three validity tests (window size, distance to the
 * nearest sample, window span). Only the sample times matter here; each track
 * applies a Plan to its value lists.
 */
module Window {

  function Abs(r: real): (a: real)
    ensures a >= 0.0 && (a == r || a == -r)
  {
    if r < 0.0 then -r else r
  }

  predicate Sorted(s: seq<real>)
  {
    forall i, j :: 0 <= i < j < |s| ==> s[i] <= s[j]
  }

  /**
   * std::lower_bound: the first position whose sample is not less than `x`. The
   * library searches by bisection and assumes a sorted range; on a sorted range
   * this is the position it finds.
   */
  function LowerBound(s: seq<real>, x: real): (k: nat)
    ensures k <= |s|
    ensures forall i :: 0 <= i < k ==> s[i] < x
    ensures k < |s| ==> s[k] >= x
  {
    if |s| == 0 || s[0] >= x then 0 else 1 + LowerBound(s[1..], x)
  }

  /** On sorted samples everything from the lower bound on is at least `x`. */
  lemma LowerBoundSplits(s: seq<real>, x: real)
    requires Sorted(s)
    ensures forall i :: 0 <= i < LowerBound(s, x) ==> s[i] < x
    ensures forall i :: LowerBound(s, x) <= i < |s| ==> s[i] >= x
  {
  }

  /** For an odd window length, step back one sample when the predecessor is strictly closer. */
  function TieBreak(s: seq<real>, t: real, index: nat, n: nat): (k: nat)
    requires index < |s|
    ensures k < |s|
  {
    if n % 2 != 0 && index != 0 && Abs(t - s[index - 1]) < Abs(t - s[index]) then index - 1 else index
  }

  /**
   * With sorted samples and an odd window length, the sample SetUp settles on is a
   * closest one to `t`; with an even length it is the first sample at or after `t`.
   */
  lemma NearestIsClosest(s: seq<real>, t: real, n: nat)
    requires Sorted(s) && LowerBound(s, t) < |s|
    ensures n % 2 != 0 ==>
      forall i :: 0 <= i < |s| ==> Abs(t - s[TieBreak(s, t, LowerBound(s, t), n)]) <= Abs(t - s[i])
    ensures n % 2 == 0 ==> TieBreak(s, t, LowerBound(s, t), n) == LowerBound(s, t)
  {
    var lb := LowerBound(s, t);
    var k := TieBreak(s, t, lb, n);
    LowerBoundSplits(s, t);
    if n % 2 != 0 {
      forall i | 0 <= i < |s|
        ensures Abs(t - s[k]) <= Abs(t - s[i])
      {
        assert Abs(t - s[k]) <= Abs(t - s[lb]);
        if i < lb {
          assert Abs(t - s[k]) <= Abs(t - s[lb - 1]);
          assert s[i] <= s[lb - 1] < t;
        } else {
          assert t <= s[lb] <= s[i];
        }
      }
    }
  }

  /** First and one-past-last sample positions of the window around `index`, clipped to [0, size). */
  function SliceLo(index: int, n: nat): int
  {
    if index - n / 2 < 0 then 0 else index - n / 2
  }

  function SliceHi(index: int, n: nat, size: nat): int
  {
    if index + (n + 1) / 2 > size then size else index + (n + 1) / 2
  }

  /**
   * The samples a loop over j in [-n/2, (n+1)/2) collects from `s` when it skips every
   * index + j outside [0, |s|).
   */
  function Slice<T>(s: seq<T>, index: int, n: nat): (w: seq<T>)
    ensures |w| <= n
  {
    var lo := SliceLo(index, n);
    var hi := SliceHi(index, n, |s|);
    if lo < hi then s[lo..hi] else []
  }

  /** s[lo..hi] with both ends clipped to [0, |s|]: what a loop over lo..hi-1 collects when it skips positions outside s. */
  function ClippedRange<T>(s: seq<T>, lo: int, hi: int): seq<T>
  {
    var a := if lo < 0 then 0 else if lo > |s| then |s| else lo;
    var b := if hi < 0 then 0 else if hi > |s| then |s| else hi;
    if a < b then s[a..b] else []
  }

  /** One more loop step: position hi is collected when it lies inside s, and skipped otherwise. */
  lemma ClippedRangeGrow<T>(s: seq<T>, lo: int, hi: int)
    requires lo <= hi
    ensures 0 <= hi < |s| ==> ClippedRange(s, lo, hi + 1) == ClippedRange(s, lo, hi) + [s[hi]]
    ensures !(0 <= hi < |s|) ==> ClippedRange(s, lo, hi + 1) == ClippedRange(s, lo, hi)
  {
    if 0 <= hi < |s| {
      var a := if lo < 0 then 0 else lo;
      assert ClippedRange(s, lo, hi + 1) == s[a..hi + 1];
      assert s[a..hi + 1] == s[a..hi] + [s[hi]];
    }
  }

  /** The window is the clipped range [index - n/2, index + (n+1)/2); an empty range collects nothing. */
  lemma SliceIsClipped<T>(s: seq<T>, index: int, n: nat)
    ensures ClippedRange(s, index - n / 2, index - n / 2) == []
    ensures Slice(s, index, n) == ClippedRange(s, index - n / 2, index + (n + 1) / 2)
  {
  }

  /** Around a sample inside the series the window is full exactly when it is not clipped. */
  lemma SliceFullIffUnclipped<T>(s: seq<T>, index: int, n: nat)
    requires 0 <= index < |s| && n >= 1
    ensures SliceLo(index, n) <= index < SliceHi(index, n, |s|)
    ensures Slice(s, index, n)[index - SliceLo(index, n)] == s[index]
    ensures |Slice(s, index, n)| == n <==> n / 2 <= index && index + (n + 1) / 2 <= |s|
    ensures |Slice(s, index, n)| == n ==> Slice(s, index, n) == s[index - n / 2 .. index + (n + 1) / 2]
  {
  }

  /** The span the SetUp and Update tests allow: interval * (n - 1 + slack) plus 1e-4. */
  function SpanBound(interval: real, n: nat, slack: nat): real
  {
    interval * ((n - 1 + slack) as real) + 0.0001
  }

  /** Window size and span tests: exactly n samples, last minus first within the bound. */
  predicate WindowOk(w: seq<real>, n: nat, interval: real, slack: nat)
  {
    |w| == n && |w| > 0 && !(w[|w| - 1] - w[0] > SpanBound(interval, n, slack))
  }

  /** Distance test: the nearest sample is at most one interval away. */
  predicate Near(t: real, sample: real, interval: real)
  {
    !(Abs(t - sample) > interval)
  }

  /** What a step does to a window list: leave it, push a new slice, or clear and refill it. */
  datatype Change = Keep | Append | Replace

  /** The outcome of one SetUp or Update step for one satellite. */
  datatype Plan = Plan(nearest: int, change: Change, valid: bool)

  function Apply<T>(c: Change, window: seq<T>, s: seq<T>, index: int, n: nat): seq<T>
  {
    match c
    case Keep => window
    case Append => window + Slice(s, index, n)
    case Replace => Slice(s, index, n)
  }

  /**
   * SetUp for one satellite: an empty series or a start after the last sample leaves the
   * satellite invalid; otherwise the nearest sample is found, and when it is close
   * enough the window around it is pushed onto the existing window lists.
   */
  function SetUpPlan(times: seq<real>, nearest: int, window: seq<real>, t: real, n: nat,
                     interval: real, slack: nat): Plan
  {
    if |times| == 0 then Plan(nearest, Keep, false)
    else
      var lb := LowerBound(times, t);
      if lb == |times| then Plan(lb, Keep, false)
      else
        var k := TieBreak(times, t, lb, n);
        if !Near(t, times[k], interval) then Plan(k, Keep, false)
        else Plan(k, Append, WindowOk(window + Slice(times, k, n), n, interval, slack))
  }

  /**
   * Update for one satellite: move to the next sample when it is strictly closer (and then
   * rebuild the window), and recompute validity from the three tests.
   */
  function UpdatePlan(times: seq<real>, nearest: int, window: seq<real>, t: real, n: nat,
                      interval: real, slack: nat): Plan
    requires 0 <= nearest <= |times|
  {
    if |times| == 0 || nearest == |times| then Plan(nearest, Keep, false)
    else
      var advance := nearest + 1 < |times| && Abs(t - times[nearest + 1]) < Abs(t - times[nearest]);
      var k := if advance then nearest + 1 else nearest;
      var w := if advance then Slice(times, k, n) else window;
      Plan(k, if advance then Replace else Keep, Near(t, times[k], interval) && WindowOk(w, n, interval, slack))
  }

  /** SetUp leaves a nearest index inside the series, or equal to its size, or untouched. */
  lemma SetUpNearestInRange(times: seq<real>, nearest: int, window: seq<real>, t: real, n: nat,
                            interval: real, slack: nat)
    ensures var p := SetUpPlan(times, nearest, window, t, n, interval, slack);
      (|times| == 0 ==> p.nearest == nearest) && (|times| > 0 ==> 0 <= p.nearest <= |times|)
    ensures var p := SetUpPlan(times, nearest, window, t, n, interval, slack);
      p.nearest == |times| > 0 ==> !p.valid && forall i :: 0 <= i < |times| ==> times[i] < t
  {
  }

  /** The unclipped-window and span conditions of SetUp's validity, at settled sample k. */
  predicate FullWindowWithin(times: seq<real>, k: int, n: nat, interval: real, slack: nat)
  {
    && 0 <= k - n / 2 && k + (n + 1) / 2 <= |times| && n >= 1
    && !(times[k + (n + 1) / 2 - 1] - times[k - n / 2] > SpanBound(interval, n, slack))
  }

  lemma FreshWindowOk(times: seq<real>, k: int, n: nat, interval: real, slack: nat)
    requires 0 <= k < |times| && n >= 1
    ensures WindowOk([] + Slice(times, k, n), n, interval, slack) <==> FullWindowWithin(times, k, n, interval, slack)
  {
    var w := Slice(times, k, n);
    assert [] + w == w;
    SliceFullIffUnclipped(times, k, n);
    var lo, hi := k - n / 2, k + (n + 1) / 2;
    if 0 <= lo && hi <= |times| {
      assert w == times[lo..hi];
      assert hi - lo == n;
      assert w[n - 1] == times[hi - 1] && w[0] == times[lo];
    }
  }

  /**
   * From fresh (empty) windows, SetUp makes a satellite valid exactly when the series is
   * nonempty, some sample is at or after the start, the settled sample is within one
   * interval, the window around it is not clipped, and its span is within the bound.
   */
  lemma SetUpValidIff(times: seq<real>, nearest: int, t: real, n: nat, interval: real, slack: nat)
    requires n >= 1
    ensures SetUpPlan(times, nearest, [], t, n, interval, slack).valid <==>
      && |times| > 0
      && LowerBound(times, t) < |times|
      && Near(t, times[TieBreak(times, t, LowerBound(times, t), n)], interval)
      && FullWindowWithin(times, TieBreak(times, t, LowerBound(times, t), n), n, interval, slack)
  {
    if |times| > 0 && LowerBound(times, t) < |times| {
      FreshWindowOk(times, TieBreak(times, t, LowerBound(times, t), n), n, interval, slack);
    }
  }

  /**
   * SetUp pushes onto the window lists without clearing them, so a satellite whose window
   * already holds n or more samples cannot become valid again by SetUp.
   */
  lemma SetUpAgainInvalid(times: seq<real>, nearest: int, window: seq<real>, t: real, n: nat,
                          interval: real, slack: nat)
    requires n >= 1 && |window| >= n
    ensures !SetUpPlan(times, nearest, window, t, n, interval, slack).valid
  {
    if |times| > 0 && LowerBound(times, t) < |times| {
      var k := TieBreak(times, t, LowerBound(times, t), n);
      SliceFullIffUnclipped(times, k, n);
    }
  }

  /** Update moves the nearest index forward by at most one sample and never past the end. */
  lemma UpdateStepBounds(times: seq<real>, nearest: int, window: seq<real>, t: real, n: nat,
                         interval: real, slack: nat)
    requires 0 <= nearest <= |times|
    ensures var p := UpdatePlan(times, nearest, window, t, n, interval, slack);
      nearest <= p.nearest <= nearest + 1 && p.nearest <= |times|
  {
  }

  /**
   * Update advances exactly when a next sample exists and is strictly closer to `t`, and the
   * window is rebuilt exactly on an advance; otherwise it is left as it was.
   */
  lemma UpdateAdvanceIff(times: seq<real>, nearest: int, window: seq<real>, t: real, n: nat,
                         interval: real, slack: nat)
    requires 0 <= nearest <= |times|
    ensures var p := UpdatePlan(times, nearest, window, t, n, interval, slack);
      (p.nearest == nearest + 1 <==>
        nearest + 1 < |times| && Abs(t - times[nearest + 1]) < Abs(t - times[nearest]))
    ensures var p := UpdatePlan(times, nearest, window, t, n, interval, slack);
      (p.change == Replace <==> p.nearest == nearest + 1) && (p.change != Replace ==> p.change == Keep)
  {
  }

  /**
   * Update's validity: the series is nonempty, the nearest index is not at the end, and
   * the distance, size and span tests hold for the (possibly advanced) nearest sample and
   * the (possibly rebuilt) window.
   */
  lemma UpdateValidIff(times: seq<real>, nearest: int, window: seq<real>, t: real, n: nat,
                       interval: real, slack: nat)
    requires 0 <= nearest <= |times|
    ensures var p := UpdatePlan(times, nearest, window, t, n, interval, slack);
      p.valid <==>
        && nearest < |times|
        && 0 <= p.nearest < |times|
        && Near(t, times[p.nearest], interval)
        && WindowOk(Apply(p.change, window, times, p.nearest, n), n, interval, slack)
  {
  }

  /** The nearest index after a run of Updates at the times `ts`. */
  function NearestAfter(times: seq<real>, nearest: int, window: seq<real>, ts: seq<real>, n: nat,
                        interval: real, slack: nat): (k: int)
    requires 0 <= nearest <= |times|
    ensures 0 <= k <= |times|
    decreases |ts|
  {
    if |ts| == 0 then nearest
    else
      UpdateStepBounds(times, nearest, window, ts[0], n, interval, slack);
      var p := UpdatePlan(times, nearest, window, ts[0], n, interval, slack);
      NearestAfter(times, p.nearest, Apply(p.change, window, times, p.nearest, n), ts[1..], n, interval, slack)
  }

  /** m Updates move the nearest index forward by at most m samples, and never back. */
  lemma {:induction false} NearestAfterBounds(times: seq<real>, nearest: int, window: seq<real>, ts: seq<real>,
                                              n: nat, interval: real, slack: nat)
    requires 0 <= nearest <= |times|
    ensures nearest <= NearestAfter(times, nearest, window, ts, n, interval, slack) <= nearest + |ts|
    decreases |ts|
  {
    if |ts| > 0 {
      UpdateStepBounds(times, nearest, window, ts[0], n, interval, slack);
      var p := UpdatePlan(times, nearest, window, ts[0], n, interval, slack);
      NearestAfterBounds(times, p.nearest, Apply(p.change, window, times, p.nearest, n), ts[1..], n, interval, slack);
    }
  }

  /** For an odd window length, SetUp steps back to the predecessor when it is strictly closer. */
  method StepBack(times: seq<real>, t: real, index: nat, n: nat) returns (k: nat)
    requires index < |times|
    ensures k == TieBreak(times, t, index, n)
  {
    k := index;
    if n % 2 != 0 && index != 0 {
      var preTime := times[index - 1];
      if Abs(t - preTime) < Abs(t - times[index]) {
        k := index - 1;
      }
    }
  }
}
