/**
 * The control decision of the thermostat (compareTemps) and the map from a
 * controller state to the two actuator lines (setNewState and the turn*
 * helpers).
 */
module Control {

  /** The controller states, in the order of the firmware's enum: HEATER, COOLER, CORRECT, ERR. */
  datatype ControlState = Heater | Cooler | Correct | Err

  /** Logical levels of the two output lines: true is HIGH. */
  datatype Lines = Lines(heater: bool, cooler: bool)

  /**
   * The new controller state for a reading, given the setpoint, the half-band
   * and the state before the reading. The branches are tried in the
   * firmware's order and the first that matches wins: the two latches, the
   * two band edges, the plausibility guard, and finally CORRECT.
   */
  function Decide(temp: real, setTemp: real, tempRange: real, prev: ControlState): (d: ControlState)
    ensures d == Err ==> temp > 100.0 || temp < 0.0
    ensures d == Correct ==> setTemp - tempRange <= temp <= setTemp + tempRange && 0.0 <= temp <= 100.0
    ensures d == Cooler && prev != Cooler ==> temp > setTemp + tempRange
    ensures d == Heater && prev != Heater ==> temp < setTemp - tempRange
  {
    if temp >= setTemp && prev == Cooler then Cooler
    else if temp <= setTemp && prev == Heater then Heater
    else if temp > setTemp + tempRange then Cooler
    else if temp < setTemp - tempRange then Heater
    else if temp > 100.0 || temp < 0.0 then Err
    else Correct
  }

  /** One of the two latch branches applies: the previous action continues. */
  predicate Latched(temp: real, setTemp: real, prev: ControlState)
  {
    (prev == Cooler && temp >= setTemp) || (prev == Heater && temp <= setTemp)
  }

  /** The reading lies in the closed dead band around the setpoint. */
  predicate InBand(temp: real, setTemp: real, tempRange: real)
  {
    setTemp - tempRange <= temp <= setTemp + tempRange
  }

  /** The reading passes the plausibility guard of the firmware. */
  predicate Plausible(temp: real)
  {
    0.0 <= temp <= 100.0
  }

  /** While cooling, the controller keeps cooling as long as the reading is at or above the setpoint, whatever the reading. */
  lemma CoolerLatch(temp: real, setTemp: real, tempRange: real)
    requires temp >= setTemp
    ensures Decide(temp, setTemp, tempRange, Cooler) == Cooler
  {
  }

  /** While heating, the controller keeps heating as long as the reading is at or below the setpoint, whatever the reading. */
  lemma HeaterLatch(temp: real, setTemp: real, tempRange: real)
    requires temp <= setTemp
    ensures Decide(temp, setTemp, tempRange, Heater) == Heater
  {
  }

  /**
   * With a non-negative half-band the latch is a real hysteresis: a cooling
   * controller stops cooling exactly when the reading falls below the
   * setpoint, not when it re-enters the band.
   */
  lemma CoolerReleasedOnlyBelowSetpoint(temp: real, setTemp: real, tempRange: real)
    requires tempRange >= 0.0
    ensures Decide(temp, setTemp, tempRange, Cooler) == Cooler <==> temp >= setTemp
    ensures temp < setTemp ==> (Decide(temp, setTemp, tempRange, Cooler) == Heater <==> temp < setTemp - tempRange)
  {
  }

  /** The mirror image for heating: heating stops exactly when the reading rises above the setpoint. */
  lemma HeaterReleasedOnlyAboveSetpoint(temp: real, setTemp: real, tempRange: real)
    requires tempRange >= 0.0
    ensures Decide(temp, setTemp, tempRange, Heater) == Heater <==> temp <= setTemp
    ensures temp > setTemp ==> (Decide(temp, setTemp, tempRange, Heater) == Cooler <==> temp > setTemp + tempRange)
  {
  }

  /** Without a latch, leaving the band is strict: above it gives COOLER, below it gives HEATER. */
  lemma OutsideBand(temp: real, setTemp: real, tempRange: real, prev: ControlState)
    requires !Latched(temp, setTemp, prev)
    ensures temp > setTemp + tempRange ==> Decide(temp, setTemp, tempRange, prev) == Cooler
    ensures temp < setTemp - tempRange && temp <= setTemp + tempRange ==> Decide(temp, setTemp, tempRange, prev) == Heater
  {
  }

  /** A reading exactly on a band edge starts neither heating nor cooling. */
  lemma BandEdgesStartNothing(temp: real, setTemp: real, tempRange: real, prev: ControlState)
    requires tempRange >= 0.0
    requires !Latched(temp, setTemp, prev)
    requires temp == setTemp + tempRange || temp == setTemp - tempRange
    ensures Decide(temp, setTemp, tempRange, prev) == Correct || Decide(temp, setTemp, tempRange, prev) == Err
  {
  }

  /** ERR comes out exactly when no latch applies, the reading is inside the band, and the reading is implausible. */
  lemma ErrExactly(temp: real, setTemp: real, tempRange: real, prev: ControlState)
    ensures Decide(temp, setTemp, tempRange, prev) == Err
        <==> !Latched(temp, setTemp, prev) && InBand(temp, setTemp, tempRange) && !Plausible(temp)
  {
  }

  /** CORRECT comes out exactly when no latch applies and the reading is inside the band and plausible. */
  lemma CorrectExactly(temp: real, setTemp: real, tempRange: real, prev: ControlState)
    ensures Decide(temp, setTemp, tempRange, prev) == Correct
        <==> !Latched(temp, setTemp, prev) && InBand(temp, setTemp, tempRange) && Plausible(temp)
  {
  }

  /** The plausibility guard is shadowed by the band: far above the band of the default setpoint the answer is COOLER, never ERR. */
  lemma FarAboveBandCools(prev: ControlState)
    ensures Decide(150.0, 60.0, 1.0, prev) == Cooler
    ensures Decide(-40.0, 60.0, 1.0, prev) == Heater
  {
  }

  /** With a non-negative half-band the heater is only commanded at or below the setpoint and the cooler only at or above it. */
  lemma ActionMatchesSide(temp: real, setTemp: real, tempRange: real, prev: ControlState)
    requires tempRange >= 0.0
    ensures Decide(temp, setTemp, tempRange, prev) == Heater ==> temp <= setTemp
    ensures Decide(temp, setTemp, tempRange, prev) == Cooler ==> temp >= setTemp
  {
  }

  /** With a non-negative half-band, the same reading again leaves the state where it is. */
  lemma SameReadingIsStable(temp: real, setTemp: real, tempRange: real, prev: ControlState)
    requires tempRange >= 0.0
    ensures var s := Decide(temp, setTemp, tempRange, prev);
            Decide(temp, setTemp, tempRange, s) == s
  {
  }

  /**
   * The outputs for a state once setNewState returns: HEATER drives only the
   * heater, COOLER only the cooler, CORRECT and ERR switch both off. The two
   * lines are then never both HIGH; between the two writes of a switch from
   * COOLER to HEATER, or back, they are.
   */
  function LinesFor(s: ControlState): (l: Lines)
    ensures !(l.heater && l.cooler)
    ensures l.heater <==> s == Heater
    ensures l.cooler <==> s == Cooler
  {
    match s
    case Cooler => CoolerOn()
    case Heater => HeaterOn()
    case Correct => AllOff()
    case Err => AllOff()
  }

  /** turnHeaterOn */
  function HeaterOn(): Lines { Lines(heater := true, cooler := false) }

  /** turnCoolerOn */
  function CoolerOn(): Lines { Lines(heater := false, cooler := true) }

  /** turnAllOff */
  function AllOff(): Lines { Lines(heater := false, cooler := false) }
}
