/**
 * The telemetry frame that getNewData sends over the channel: an ordered list
 * of (key, type, value) records, state first, then the reading, the setpoint
 * and the half-band. The JSON text around it is not modelled.
 */
module Telemetry {
  import opened Wrappers
  import opened Control

  /** The "type" tag of a field. */
  datatype FieldType = IntType | FloatType

  /** The "value" of a field. */
  datatype Value = IntValue(i: int) | FloatValue(r: real)

  /** One record of the "fields" array. */
  datatype Field = Field(key: string, kind: FieldType, value: Value)

  type Frame = seq<Field>

  /** What one frame reports. */
  datatype Report = Report(state: ControlState, currentTemp: real, setTemp: real, tempRange: real)

  /** The keys of a frame, in the order the firmware adds the fields. */
  const FrameKeys: seq<string> := ["state", "currentTemp", "setTemp", "tempRange"]

  /** The enum value of a state, as `int(newState)` gives it. */
  function StateCode(s: ControlState): (code: int)
    ensures 0 <= code < 4
    ensures StateOfCode(code) == Some(s)
  {
    match s
    case Heater => 0
    case Cooler => 1
    case Correct => 2
    case Err => 3
  }

  /** The state a receiver reads back from a code; None for a code outside the enum. */
  function StateOfCode(code: int): Option<ControlState>
  {
    if code == 0 then Some(Heater)
    else if code == 1 then Some(Cooler)
    else if code == 2 then Some(Correct)
    else if code == 3 then Some(Err)
    else None
  }

  function Keys(f: Frame): seq<string>
  {
    seq(|f|, i requires 0 <= i < |f| => f[i].key)
  }

  function Kinds(f: Frame): seq<FieldType>
  {
    seq(|f|, i requires 0 <= i < |f| => f[i].kind)
  }

  /** The float record under the given key. */
  function FloatField(key: string, v: real): Field
  {
    Field(key, FloatType, FloatValue(v))
  }

  /**
   * The four fields getNewData adds, in order: the state value it holds as an
   * int, then the reading, the setpoint and the half-band as floats.
   */
  function FrameOf(code: int, currentTemp: real, setTemp: real, tempRange: real): (f: Frame)
    ensures Keys(f) == FrameKeys
    ensures Kinds(f) == [IntType, FloatType, FloatType, FloatType]
  {
    [ Field("state", IntType, IntValue(code)),
      FloatField("currentTemp", currentTemp),
      FloatField("setTemp", setTemp),
      FloatField("tempRange", tempRange) ]
  }

  /** The frame for a report: the state travels as its enum value. */
  function Encode(r: Report): (f: Frame)
    ensures Keys(f) == FrameKeys
    ensures Kinds(f) == [IntType, FloatType, FloatType, FloatType]
  {
    FrameOf(StateCode(r.state), r.currentTemp, r.setTemp, r.tempRange)
  }

  /** A frame whose state value lies outside the enum is rejected by a receiver. */
  lemma OutOfRangeCodeRejected(code: int, currentTemp: real, setTemp: real, tempRange: real)
    requires code < 0 || code > 3
    ensures Decode(FrameOf(code, currentTemp, setTemp, tempRange)) == None
  {
  }

  /** A float record with the expected key. */
  predicate IsFloatField(f: Field, key: string)
  {
    f.key == key && f.kind == FloatType && f.value.FloatValue?
  }

  /** What a receiver reads from a frame; None unless it has exactly the firmware's layout. */
  function Decode(f: Frame): Option<Report>
  {
    if |f| == 4
       && f[0].key == "state" && f[0].kind == IntType && f[0].value.IntValue?
       && StateOfCode(f[0].value.i).Some?
       && IsFloatField(f[1], "currentTemp")
       && IsFloatField(f[2], "setTemp")
       && IsFloatField(f[3], "tempRange")
    then Some(Report(StateOfCode(f[0].value.i).value, f[1].value.r, f[2].value.r, f[3].value.r))
    else None
  }

  /** A frame carries its report without loss. */
  lemma DecodeEncode(r: Report)
    ensures Decode(Encode(r)) == Some(r)
  {
  }

  /** Decoding is exact: a frame that decodes is the encoding of what it decodes to. */
  lemma EncodeDecode(f: Frame)
    requires Decode(f).Some?
    ensures Encode(Decode(f).value) == f
  {
  }
}
