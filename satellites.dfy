/**
 * GnssSatelliteInformation (one position track and one clock track read from one pair of
 * product files) and GnssSatellites, the facade that keeps a true and an estimated
 * information, ANDs their validity, and answers position, clock, pseudorange and carrier
 * phase queries with zero for a satellite that is out of range or invalid.
 */
module Satellites {
  import opened Wrappers
  import opened Constellation
  import opened Series
  import P = Position
  import C = Clock

  class SatelliteInformation {
    const position: P.PositionTrack
    const clock: C.ClockTrack

    ghost predicate Valid()
      reads position, clock
    {
      position.Valid() && clock.Valid()
    }

    constructor(posKernel: (seq<real>, seq<Vec3>, real) -> Vec3, clkKernel: (seq<real>, seq<real>, real) -> real)
      ensures Valid() && fresh(position) && fresh(clock)
      ensures position.kernel == posKernel && clock.kernel == clkKernel
    {
      position := new P.PositionTrack(posKernel);
      clock := new C.ClockTrack(clkKernel);
    }

    /**
     * Initialize: read the position file, then read the clock file over the period the
     * position file covered. An error of either read ends the initialization.
     */
    method Initialize(posPages: seq<Page>, posN: nat, posFlag: int, clockFile: C.ClockFile, clkN: nat, clkFlag: int)
      returns (r: Result<()>)
      requires Valid()
      modifies position, clock
      ensures var ps := P.Ingestion(old(position.Store()), old(position.timeInterval), posPages, posFlag);
        && (ps.Err? ==> r.Err?)
        && (ps.Ok? ==>
              && position.Valid() && position.Store() == ps.value.store && position.timeInterval == ps.value.interval
              && var cs := C.ClockIngestion(old(clock.Store()), old(clock.timeInterval), clockFile, clkFlag,
                                            (ps.value.start, ps.value.end));
                 && (r.Ok? <==> cs.Ok?)
                 && (r.Ok? ==> clock.Valid() && clock.Store() == cs.value.store && clock.timeInterval == cs.value.interval))
      ensures r.Ok? ==> Valid() && position.interpolationNumber == posN && clock.interpolationNumber == clkN
    {
      var period := position.Initialize(posPages, posN, posFlag);
      if period.Err? {
        return Err(period.fault);
      }
      r := clock.Initialize(clockFile, clkN, clkFlag, period.value);
    }

    /** Every satellite's position state. */
    ghost function PosSats(): (ss: seq<P.PosSat>)
      reads position
      requires position.Valid()
      ensures |ss| == AllSatNum && forall k :: 0 <= k < AllSatNum ==> ss[k] == position.Sat(k)
    {
      seq(AllSatNum, k requires 0 <= k < AllSatNum && position.Valid() reads position => position.Sat(k))
    }

    /** Every satellite's clock state. */
    ghost function ClkSats(): (ss: seq<C.ClkSat>)
      reads clock
      requires clock.Valid()
      ensures |ss| == AllSatNum && forall k :: 0 <= k < AllSatNum ==> ss[k] == clock.Sat(k)
    {
      seq(AllSatNum, k requires 0 <= k < AllSatNum && clock.Valid() reads clock => clock.Sat(k))
    }

    /**
     * The state SetUp at time t leaves, from the satellite states `pos0` and `clk0`: each
     * position track cleared and set up, each clock track marked invalid and set up.
     */
    ghost predicate SetUpFrom(pos0: seq<P.PosSat>, clk0: seq<C.ClkSat>, t: real)
      reads position, clock
      requires Valid()
    {
      && |pos0| == AllSatNum && |clk0| == AllSatNum
      && forall k :: 0 <= k < AllSatNum ==>
           && P.SatOk(pos0[k]) && C.SatOk(clk0[k])
           && position.Sat(k) == P.SetUpSat(P.Cleared(pos0[k]), t, position.interpolationNumber,
                                            position.timeInterval, position.kernel)
           && clock.Sat(k) == C.SetUpSat(clk0[k].(valid := false), t, clock.interpolationNumber,
                                         clock.timeInterval, clock.kernel)
    }

    /** The state Update at time t leaves, from the satellite states `pos0` and `clk0`. */
    ghost predicate UpdatedFrom(pos0: seq<P.PosSat>, clk0: seq<C.ClkSat>, t: real)
      reads position, clock
      requires Valid()
    {
      && |pos0| == AllSatNum && |clk0| == AllSatNum
      && forall k :: 0 <= k < AllSatNum ==>
           && P.SatOk(pos0[k]) && C.SatOk(clk0[k])
           && position.Sat(k) == P.UpdateSat(pos0[k], t, position.interpolationNumber,
                                             position.timeInterval, position.kernel)
           && clock.Sat(k) == C.UpdateSat(clk0[k], t, clock.interpolationNumber, clock.timeInterval, clock.kernel)
    }

    method SetUp(t: real, stepWidth: real)
      requires Valid() && position.interpolationNumber >= 1 && clock.interpolationNumber >= 1
      modifies position, clock
      ensures Valid() && SetUpFrom(old(PosSats()), old(ClkSats()), t)
      ensures position.interpolationNumber == old(position.interpolationNumber)
      ensures clock.interpolationNumber == old(clock.interpolationNumber)
    {
      position.SetUp(t, stepWidth);
      clock.SetUp(t, stepWidth);
    }

    method Update(t: real)
      requires Valid() && position.interpolationNumber >= 1 && clock.interpolationNumber >= 1
      modifies position, clock
      ensures Valid() && UpdatedFrom(old(PosSats()), old(ClkSats()), t)
      ensures position.interpolationNumber == old(position.interpolationNumber)
      ensures clock.interpolationNumber == old(clock.interpolationNumber)
    {
      position.Update(t);
      clock.Update(t);
    }

    /** The number of satellites both tracks agree on, and 0 when they disagree. */
    function GetNumberOfSatellites(): (r: nat)
      reads position, clock
      ensures Valid() ==> r == AllSatNum
      ensures |position.tracking| != |clock.tracking| ==> r == 0
    {
      if |position.tracking| == |clock.tracking| then |position.tracking| else 0
    }

    function GetWhetherValid(id: nat): (r: bool)
      reads position, clock
      requires Valid()
      ensures r <==> id < AllSatNum && position.tracking[id].valid && clock.tracking[id].valid
    {
      position.GetWhetherValid(id) && clock.GetWhetherValid(id)
    }

    function GetSatellitePositionEcef(id: nat): Vec3
      reads position, clock
      requires Valid()
    {
      position.GetPositionEcef(id)
    }

    function GetSatellitePositionEci(id: nat): Vec3
      reads position, clock
      requires Valid()
    {
      position.GetPositionEci(id)
    }

    function GetSatelliteClock(id: nat): real
      reads position, clock
      requires Valid()
    {
      clock.GetSatClock(id)
    }
  }

  /** environment::earth_equatorial_radius_m, in kilometres (WGS84). */
  const EarthRadiusKm: real := 6378.137

  /** The frame a query is asked in: it selects which of a track's two outputs is used. */
  datatype Frame = Ecef | Eci

  /**
   * The parts of an observable that use floating-point library calls, given as functions:
   * the Euclidean norm of a vector, and the obliquity factor 1 / cos of the angle between
   * two vectors.
   */
  datatype Geometry = Geometry(norm: Vec3 -> real, obliquity: (Vec3, Vec3) -> real)

  function Sub(a: Vec3, b: Vec3): Vec3
  {
    Vec3(a.x - b.x, a.y - b.y, a.z - b.z)
  }

  /**
   * The ionospheric delay in metres at a receiver `altitude` km above the equatorial radius:
   * none at or above 1000 km; below, 20 m scaled by the fraction of the 1000 km layer above
   * the receiver, by the obliquity factor and by (1500 MHz / frequency)^2.
   */
  function IonosphericModel(altitude: real, obliquity: real, frequency: real): (d: real)
    requires frequency != 0.0
    ensures altitude >= 1000.0 ==> d == 0.0
    ensures altitude < 1000.0 && obliquity >= 0.0 ==> d >= 0.0
  {
    if altitude >= 1000.0 then 0.0
    else
      var layer := 20.0 * (1000.0 - altitude) / 1000.0;
      var scale := 2250000.0 / (frequency * frequency);
      assert frequency * frequency > 0.0 && scale > 0.0;
      assert obliquity >= 0.0 ==> layer * obliquity >= 0.0;
      layer * obliquity * scale
  }

  /** Lower receivers see more delay: the layer above them is thicker. */
  lemma IonosphereDecreasesWithAltitude(a1: real, a2: real, obliquity: real, frequency: real)
    requires frequency != 0.0 && obliquity >= 0.0 && a1 <= a2
    ensures IonosphericModel(a1, obliquity, frequency) >= IonosphericModel(a2, obliquity, frequency)
  {
    var q := 2250000.0 / (frequency * frequency);
    assert q > 0.0 by {
      assert frequency * frequency > 0.0;
    }
    if a2 < 1000.0 {
      var l1, l2 := 20.0 * (1000.0 - a1) / 1000.0, 20.0 * (1000.0 - a2) / 1000.0;
      assert l1 * obliquity >= l2 * obliquity;
      assert l1 * obliquity * q >= l2 * obliquity * q;
    }
  }

  /** The delay is inversely proportional to the square of the frequency. */
  lemma IonosphereFrequencyScaling(altitude: real, obliquity: real, frequency: real)
    requires frequency != 0.0
    ensures IonosphericModel(altitude, obliquity, frequency) == 4.0 * IonosphericModel(altitude, obliquity, 2.0 * frequency)
  {
    var f2 := 2.0 * frequency;
    assert f2 * f2 == 4.0 * (frequency * frequency);
    assert 2250000.0 / (frequency * frequency) == 4.0 * (2250000.0 / (f2 * f2));
  }

  /** A carrier phase split into its fractional cycle and its whole-cycle bias. */
  function PhaseSplit(cycle: real): (r: (real, real))
    ensures 0.0 <= r.0 < 1.0
    ensures r.0 + r.1 == cycle
    ensures r.1 == (r.1.Floor as real)
  {
    var bias := cycle.Floor as real;
    (cycle - bias, bias)
  }

  /** The wavelength in metres of a carrier at `frequency` MHz. */
  function Wavelength(frequency: real): (lambda: real)
    requires frequency != 0.0
    ensures lambda != 0.0 && (frequency > 0.0 ==> lambda > 0.0)
  {
    SpeedOfLight * 0.000001 / frequency
  }

  class GnssSatellites {
    const isCalcEnabled: bool
    const trueInfo: SatelliteInformation
    const estimateInfo: SatelliteInformation
    var startUnixTime: real

    ghost function Repr(): set<object>
      reads this
    {
      {trueInfo.position, trueInfo.clock, estimateInfo.position, estimateInfo.clock}
    }

    ghost predicate Valid()
      reads this, Repr()
    {
      && trueInfo.position != estimateInfo.position && trueInfo.clock != estimateInfo.clock
      && trueInfo.Valid() && estimateInfo.Valid()
    }

    constructor(isCalcEnabled: bool, trueInfo: SatelliteInformation, estimateInfo: SatelliteInformation)
      requires trueInfo.position != estimateInfo.position && trueInfo.clock != estimateInfo.clock
      requires trueInfo.Valid() && estimateInfo.Valid()
      ensures Valid() && this.isCalcEnabled == isCalcEnabled
      ensures this.trueInfo == trueInfo && this.estimateInfo == estimateInfo
    {
      this.isCalcEnabled := isCalcEnabled;
      this.trueInfo := trueInfo;
      this.estimateInfo := estimateInfo;
      startUnixTime := 0.0;
    }

    /** Initialize: the true information, then the estimated one; the first error ends it. */
    method Initialize(truePos: seq<Page>, truePosN: nat, truePosFlag: int,
                      trueClock: C.ClockFile, trueClockN: nat, trueClockFlag: int,
                      estPos: seq<Page>, estPosN: nat, estPosFlag: int,
                      estClock: C.ClockFile, estClockN: nat, estClockFlag: int)
      returns (r: Result<()>)
      requires Valid()
      modifies Repr()
      ensures r.Ok? ==> Valid()
      ensures r.Ok? ==> trueInfo.position.interpolationNumber == truePosN && trueInfo.clock.interpolationNumber == trueClockN
      ensures r.Ok? ==> estimateInfo.position.interpolationNumber == estPosN && estimateInfo.clock.interpolationNumber == estClockN
    {
      r := trueInfo.Initialize(truePos, truePosN, truePosFlag, trueClock, trueClockN, trueClockFlag);
      if r.Err? {
        return;
      }
      r := estimateInfo.Initialize(estPos, estPosN, estPosFlag, estClock, estClockN, estClockFlag);
    }

    /**
     * SetUp: nothing when the calculation is disabled; otherwise both informations are set up
     * at the start time (mktime of the simulation's start, given here), which is kept.
     */
    method SetUp(startTime: real, stepWidth: real)
      requires Valid()
      requires trueInfo.position.interpolationNumber >= 1 && trueInfo.clock.interpolationNumber >= 1
      requires estimateInfo.position.interpolationNumber >= 1 && estimateInfo.clock.interpolationNumber >= 1
      modifies this, Repr()
      ensures Valid()
      ensures !isCalcEnabled ==> startUnixTime == old(startUnixTime)
      ensures !isCalcEnabled ==> forall o :: o in Repr() ==> unchanged(o)
      ensures isCalcEnabled ==> startUnixTime == startTime
      ensures isCalcEnabled ==> trueInfo.SetUpFrom(old(trueInfo.PosSats()), old(trueInfo.ClkSats()), startTime)
      ensures isCalcEnabled ==> estimateInfo.SetUpFrom(old(estimateInfo.PosSats()), old(estimateInfo.ClkSats()), startTime)
      ensures trueInfo.position.interpolationNumber == old(trueInfo.position.interpolationNumber)
      ensures trueInfo.clock.interpolationNumber == old(trueInfo.clock.interpolationNumber)
      ensures estimateInfo.position.interpolationNumber == old(estimateInfo.position.interpolationNumber)
      ensures estimateInfo.clock.interpolationNumber == old(estimateInfo.clock.interpolationNumber)
    {
      if !isCalcEnabled {
        return;
      }
      trueInfo.SetUp(startTime, stepWidth);
      estimateInfo.SetUp(startTime, stepWidth);
      startUnixTime := startTime;
    }

    /** The unix time `elapsed` seconds into the simulation. */
    function CurrentTime(elapsed: real): (t: real)
      reads this
      ensures t - elapsed == startUnixTime
    {
      elapsed + startUnixTime
    }

    /** Update: nothing when disabled; otherwise both informations move to start + elapsed. */
    method Update(elapsed: real)
      requires Valid()
      requires trueInfo.position.interpolationNumber >= 1 && trueInfo.clock.interpolationNumber >= 1
      requires estimateInfo.position.interpolationNumber >= 1 && estimateInfo.clock.interpolationNumber >= 1
      modifies Repr()
      ensures Valid()
      ensures !isCalcEnabled ==> forall o :: o in Repr() ==> unchanged(o)
      ensures isCalcEnabled ==>
        trueInfo.UpdatedFrom(old(trueInfo.PosSats()), old(trueInfo.ClkSats()), CurrentTime(elapsed))
      ensures isCalcEnabled ==>
        estimateInfo.UpdatedFrom(old(estimateInfo.PosSats()), old(estimateInfo.ClkSats()), CurrentTime(elapsed))
      ensures trueInfo.position.interpolationNumber == old(trueInfo.position.interpolationNumber)
      ensures trueInfo.clock.interpolationNumber == old(trueInfo.clock.interpolationNumber)
      ensures estimateInfo.position.interpolationNumber == old(estimateInfo.position.interpolationNumber)
      ensures estimateInfo.clock.interpolationNumber == old(estimateInfo.clock.interpolationNumber)
    {
      if !isCalcEnabled {
        return;
      }
      trueInfo.Update(CurrentTime(elapsed));
      estimateInfo.Update(CurrentTime(elapsed));
    }


    function GetNumberOfSatellites(): (r: nat)
      reads this, Repr()
      requires Valid()
      ensures r == AllSatNum
    {
      estimateInfo.GetNumberOfSatellites()
    }

    /** Valid when the id is in range and both the true and the estimated tracks are valid. */
    function GetWhetherValid(id: nat): (r: bool)
      reads this, Repr()
      requires Valid()
      ensures r <==> (&& id < AllSatNum
                      && trueInfo.position.tracking[id].valid && trueInfo.clock.tracking[id].valid
                      && estimateInfo.position.tracking[id].valid && estimateInfo.clock.tracking[id].valid)
    {
      if id >= GetNumberOfSatellites() then false
      else trueInfo.GetWhetherValid(id) && estimateInfo.GetWhetherValid(id)
    }

    /** The estimated position, or zero for a satellite out of range or invalid. */
    function GetSatellitePositionEcef(id: nat): (r: Vec3)
      reads this, Repr()
      requires Valid()
      ensures !GetWhetherValid(id) ==> r == ZeroVec
      ensures GetWhetherValid(id) ==> r == estimateInfo.position.tracking[id].outEcef
    {
      if id >= GetNumberOfSatellites() || !GetWhetherValid(id) then ZeroVec
      else estimateInfo.GetSatellitePositionEcef(id)
    }

    function GetSatellitePositionEci(id: nat): (r: Vec3)
      reads this, Repr()
      requires Valid()
      ensures !GetWhetherValid(id) ==> r == ZeroVec
      ensures GetWhetherValid(id) ==> r == estimateInfo.position.tracking[id].outEci
    {
      if id >= GetNumberOfSatellites() || !GetWhetherValid(id) then ZeroVec
      else estimateInfo.GetSatellitePositionEci(id)
    }

    function GetSatelliteClock(id: nat): (r: real)
      reads this, Repr()
      requires Valid()
      ensures !GetWhetherValid(id) ==> r == 0.0
      ensures GetWhetherValid(id) ==> r == estimateInfo.clock.tracking[id].out
    {
      if id >= GetNumberOfSatellites() || !GetWhetherValid(id) then 0.0
      else estimateInfo.GetSatelliteClock(id)
    }

    /** The true satellite position in the given frame. */
    function TruePosition(id: nat, frame: Frame): Vec3
      reads this, Repr()
      requires Valid()
    {
      if frame == Ecef then trueInfo.GetSatellitePositionEcef(id) else trueInfo.GetSatellitePositionEci(id)
    }

    /** The ionospheric delay for a receiver at `rec`, zero for an invalid satellite. */
    function IonosphericDelay(id: nat, rec: Vec3, frequency: real, frame: Frame, g: Geometry): (d: real)
      reads this, Repr()
      requires Valid() && frequency != 0.0
      ensures !GetWhetherValid(id) ==> d == 0.0
      ensures g.norm(rec) / 1000.0 - EarthRadiusKm >= 1000.0 ==> d == 0.0
    {
      if id >= GetNumberOfSatellites() || !GetWhetherValid(id) then 0.0
      else
        var altitude := g.norm(rec) / 1000.0 - EarthRadiusKm;
        if altitude >= 1000.0 then 0.0
        else
          var sat := TruePosition(id, frame);
          IonosphericModel(altitude, g.obliquity(rec, Sub(sat, rec)), frequency)
    }

    /**
     * The pseudorange: geometric range to the true satellite position, plus the receiver
     * clock, minus the true satellite clock, plus the ionospheric delay; zero for an
     * invalid satellite.
     */
    function GetPseudoRange(id: nat, rec: Vec3, recClock: real, frequency: real, frame: Frame, g: Geometry): (r: real)
      reads this, Repr()
      requires Valid() && frequency != 0.0
      ensures !GetWhetherValid(id) ==> r == 0.0
      ensures GetWhetherValid(id) ==>
        r == g.norm(Sub(rec, TruePosition(id, frame))) + recClock - trueInfo.clock.tracking[id].out
             + IonosphericDelay(id, rec, frequency, frame, g)
    {
      if id >= GetNumberOfSatellites() || !GetWhetherValid(id) then 0.0
      else
        var range := g.norm(Sub(rec, TruePosition(id, frame)));
        range + (recClock - trueInfo.GetSatelliteClock(id)) + IonosphericDelay(id, rec, frequency, frame, g)
    }

    /**
     * The carrier phase as (fraction of a cycle, whole cycles): the range with the
     * ionospheric delay subtracted, in wavelengths of the carrier; (0, 0) for an invalid
     * satellite.
     */
    function GetCarrierPhase(id: nat, rec: Vec3, recClock: real, frequency: real, frame: Frame, g: Geometry)
      : (r: (real, real))
      reads this, Repr()
      requires Valid() && frequency != 0.0
      ensures !GetWhetherValid(id) ==> r == (0.0, 0.0)
      ensures GetWhetherValid(id) ==> 0.0 <= r.0 < 1.0 && r.1 == (r.1.Floor as real)
      ensures GetWhetherValid(id) ==>
        r.0 + r.1 == (GetPseudoRange(id, rec, recClock, frequency, frame, g)
                      - 2.0 * IonosphericDelay(id, rec, frequency, frame, g)) / Wavelength(frequency)
    {
      if id >= GetNumberOfSatellites() || !GetWhetherValid(id) then (0.0, 0.0)
      else
        var range := g.norm(Sub(rec, TruePosition(id, frame)));
        var res := range + (recClock - trueInfo.GetSatelliteClock(id)) - IonosphericDelay(id, rec, frequency, frame, g);
        PhaseSplit(res / Wavelength(frequency))
    }
  }

  /**
   * The code and carrier observables differ by twice the ionospheric delay: the code is
   * delayed by it, the carrier phase advanced.
   */
  lemma CodeCarrierDivergence(gs: GnssSatellites, id: nat, rec: Vec3, recClock: real, frequency: real,
                              frame: Frame, g: Geometry)
    requires gs.Valid() && frequency != 0.0 && gs.GetWhetherValid(id)
    ensures var cp := gs.GetCarrierPhase(id, rec, recClock, frequency, frame, g);
      (cp.0 + cp.1) * Wavelength(frequency)
        == gs.GetPseudoRange(id, rec, recClock, frequency, frame, g) - 2.0 * gs.IonosphericDelay(id, rec, frequency, frame, g)
  {
    var lambda := Wavelength(frequency);
    assert lambda != 0.0 by {
      assert SpeedOfLight * 0.000001 != 0.0;
    }
    var x := gs.GetPseudoRange(id, rec, recClock, frequency, frame, g) - 2.0 * gs.IonosphericDelay(id, rec, frequency, frame, g);
    assert (x / lambda) * lambda == x;
  }
}
