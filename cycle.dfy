/**
 * One tick of getNewData as a value: the decision for the reading, the lines
 * it drives and the frame it sends.
 *
 * compareTemps is declared to return a state but has no return statement,
 * so the `newState` that getNewData passes to setNewState and puts in the
 * frame is indeterminate. TickAsWritten models that value as an arbitrary
 * int, not necessarily one of the enum's values. Tick is the evidently
 * intended version, in which compareTemps returns the state it has just
 * stored. The controller uses Tick.
 */
module Cycle {
  import opened Wrappers
  import opened Control
  import opened Telemetry

  datatype TickResult = TickResult(state: ControlState, lines: Lines, frame: Frame)

  /**
   * setNewState over the raw value it receives: 1 (COOLER) turns the cooler
   * on, 0 (HEATER) the heater, 2 (CORRECT) and any other value fall to
   * turning both off.
   */
  function LinesForValue(v: int): (l: Lines)
    ensures !(l.heater && l.cooler)
    ensures 0 <= v < 4 ==> l == LinesFor(StateOfCode(v).value)
    ensures (v < 0 || v > 1) ==> l == AllOff()
  {
    if v == 1 then CoolerOn()
    else if v == 0 then HeaterOn()
    else AllOff()
  }

  /**
   * A tick as written: the stored state is the decision, but the lines and
   * the frame follow `returned`, the value compareTemps happened to leave,
   * which need not be one of the enum's values.
   */
  function TickAsWritten(prev: ControlState, reading: real, setTemp: real, tempRange: real, returned: int): (r: TickResult)
    ensures r.state == Decide(reading, setTemp, tempRange, prev)
    ensures !(r.lines.heater && r.lines.cooler)
    ensures 0 <= returned < 4 ==> r.lines == LinesFor(StateOfCode(returned).value)
                                  && Decode(r.frame) == Some(Report(StateOfCode(returned).value, reading, setTemp, tempRange))
    ensures (returned < 0 || returned > 3) ==> r.lines == AllOff() && Decode(r.frame) == None
  {
    TickResult(Decide(reading, setTemp, tempRange, prev), LinesForValue(returned),
               FrameOf(returned, reading, setTemp, tempRange))
  }

  /** A tick with compareTemps returning the updated state: the lines and the frame agree with the stored state. */
  function Tick(prev: ControlState, reading: real, setTemp: real, tempRange: real): (r: TickResult)
    ensures r.state == Decide(reading, setTemp, tempRange, prev)
    ensures r.lines == LinesFor(r.state)
    ensures Decode(r.frame) == Some(Report(r.state, reading, setTemp, tempRange))
  {
    var s := Decide(reading, setTemp, tempRange, prev);
    DecodeEncode(Report(s, reading, setTemp, tempRange));
    TickResult(s, LinesFor(s), Encode(Report(s, reading, setTemp, tempRange)))
  }

  /**
   * As written, the outputs can disagree with the stored state: a reading of
   * 70 with the default setpoint stores COOLER, yet if the missing return
   * value happens to be 0 (HEATER) the heater is switched on and the frame
   * reports HEATER.
   */
  lemma AsWrittenDesynchronises()
    ensures var r := TickAsWritten(Correct, 70.0, 60.0, 1.0, 0);
            r.state == Cooler && r.lines.heater && !r.lines.cooler
            && Decode(r.frame) == Some(Report(Heater, 70.0, 60.0, 1.0))
  {
    DecodeEncode(Report(Heater, 70.0, 60.0, 1.0));
  }

  /**
   * As written, a missing return value outside the enum switches both lines
   * off and sends a frame no receiver accepts, while the stored state, for a
   * reading of 70 with the default setpoint, is COOLER.
   */
  lemma AsWrittenOutOfRange(returned: int)
    requires returned < 0 || returned > 3
    ensures var r := TickAsWritten(Correct, 70.0, 60.0, 1.0, returned);
            r.state == Cooler && r.lines == AllOff() && Decode(r.frame) == None
  {
    OutOfRangeCodeRejected(returned, 70.0, 60.0, 1.0);
  }

  /** The intended tick is the written one with the return value equal to the stored state's enum value. */
  lemma TickIsAsWrittenWithReturn(prev: ControlState, reading: real, setTemp: real, tempRange: real)
    ensures TickAsWritten(prev, reading, setTemp, tempRange, StateCode(Decide(reading, setTemp, tempRange, prev)))
         == Tick(prev, reading, setTemp, tempRange)
  {
  }

  /** With a non-negative half-band a tick never drives the heater above the setpoint nor the cooler below it. */
  lemma TickDrivesCorrectSide(prev: ControlState, reading: real, setTemp: real, tempRange: real)
    requires tempRange >= 0.0
    ensures var r := Tick(prev, reading, setTemp, tempRange);
            (r.lines.heater ==> reading <= setTemp) && (r.lines.cooler ==> reading >= setTemp)
  {
  }
}
