/**
 * The controller's global state and the handlers that update it in place:
 * compareTemps, setNewState and the turn* helpers, handleGetRequest,
 * handlePostRequest, the /config dispatch registered in setup, getNewData
 * and loop.
 */
module Firmware {
  import opened Wrappers
  import opened Control
  import opened Telemetry
  import opened Timing
  import opened Config
  import opened Cycle

  class Controller {
    const heaterPin: int := 12
    const coolerPin: int := 13

    var currentState: ControlState
    var running: bool
    var topic: string
    var setTemp: real
    var tempRange: real
    var dataInterval: nat
    var startMillis: U32
    var currentMillis: U32

    /** Levels of the heater and cooler output lines. */
    var heaterLine: bool
    var coolerLine: bool

    /** How many times the telemetry channel has been (re-)initialised. */
    var channelInits: nat

    /** The frames sent over the channel, oldest first. */
    var sent: seq<Frame>

    /** The configuration fields a POST may change. */
    function Current(): Settings
      reads this
    {
      Settings(running, topic, setTemp, tempRange, dataInterval)
    }

    /** What GET /config reports. */
    function CurrentSnapshot(): Snapshot
      reads this
    {
      SnapshotOf(Current(), heaterPin, coolerPin)
    }

    /** The configuration satisfies its invariant and the output lines follow the current state. */
    ghost predicate Valid()
      reads this
    {
      Config.Valid(Current()) && Lines(heaterLine, coolerLine) == LinesFor(currentState)
    }

    /** The globals' initial values; `bootMillis` is the clock reading that setup stores in startMillis. */
    constructor (bootMillis: U32)
      ensures Valid()
      ensures Current() == Defaults
      ensures currentState == Correct && !heaterLine && !coolerLine
      ensures startMillis == bootMillis && currentMillis == 0
      ensures channelInits == 0 && sent == []
    {
      currentState := Correct;
      running := false;
      topic := "";
      setTemp := 60.0;
      tempRange := 1.0;
      dataInterval := 1000;
      startMillis := bootMillis;
      currentMillis := 0;
      heaterLine, coolerLine := false, false;
      channelInits := 0;
      sent := [];
    }

    /** compareTemps: stores the decision for the reading, and returns it. */
    method CompareTemps(reading: real) returns (s: ControlState)
      modifies this`currentState
      ensures currentState == Decide(reading, setTemp, tempRange, old(currentState))
      ensures s == currentState
    {
      if reading >= setTemp && currentState == Cooler {
        currentState := Cooler;
      } else if reading <= setTemp && currentState == Heater {
        currentState := Heater;
      } else if reading > setTemp + tempRange {
        currentState := Cooler;
      } else if reading < setTemp - tempRange {
        currentState := Heater;
      } else if reading > 100.0 || reading < 0.0 {
        currentState := Err;
      } else {
        currentState := Correct;
      }
      s := currentState;
    }

    /** setNewState: drives the lines for a state; once it returns, the two lines are not both HIGH. */
    method SetNewState(s: ControlState)
      modifies this`heaterLine, this`coolerLine
      ensures Lines(heaterLine, coolerLine) == LinesFor(s)
      ensures !(heaterLine && coolerLine)
    {
      match s {
        case Cooler => TurnCoolerOn();
        case Heater => TurnHeaterOn();
        case Correct => TurnAllOff();
        case Err => TurnAllOff();
      }
    }

    /** turnHeaterOn: the heater is written HIGH before the cooler LOW. */
    method TurnHeaterOn()
      modifies this`heaterLine, this`coolerLine
      ensures heaterLine && !coolerLine
    {
      heaterLine := true;
      coolerLine := false;
    }

    /** turnCoolerOn: the cooler is written HIGH before the heater LOW. */
    method TurnCoolerOn()
      modifies this`heaterLine, this`coolerLine
      ensures coolerLine && !heaterLine
    {
      coolerLine := true;
      heaterLine := false;
    }

    method TurnAllOff()
      modifies this`heaterLine, this`coolerLine
      ensures !heaterLine && !coolerLine
    {
      heaterLine := false;
      coolerLine := false;
    }

    /** initalizeWebsocket: the channel is opened again for the current topic. */
    method InitializeChannel()
      modifies this`channelInits
      ensures channelInits == old(channelInits) + 1
    {
      channelInits := channelInits + 1;
    }

    /** handleGetRequest: answers 200 with the snapshot and changes nothing. */
    method HandleGet() returns (resp: Response)
      ensures resp == Reply(200, "application/json", Json(CurrentSnapshot()))
    {
      resp := Reply(200, "application/json", Json(CurrentSnapshot()));
    }

    /**
     * handlePostRequest: a malformed body changes nothing and gets no answer;
     * otherwise each field follows its guard, a new topic re-initialises the
     * channel once, and the answer is the snapshot after the update.
     */
    method HandlePost(body: Body) returns (resp: Response)
      requires Valid()
      modifies this
      ensures Valid()
      ensures Current() == (if body.Parsed? then ApplyPost(old(Current()), body.fields) else old(Current()))
      ensures channelInits == old(channelInits) + (if body.Parsed? && ReinitsChannel(old(Current()), body.fields) then 1 else 0)
      ensures resp == (if body.Parsed? then Reply(200, "application/json", Json(CurrentSnapshot())) else NoReply)
      ensures currentState == old(currentState) && heaterLine == old(heaterLine) && coolerLine == old(coolerLine)
      ensures startMillis == old(startMillis) && currentMillis == old(currentMillis) && sent == old(sent)
    {
      if body.Malformed? {
        resp := NoReply;
        return;
      }
      var b := body.fields;
      ghost var before := Current();
      ApplyPostKeepsValid(before, b);
      TakeGuardedFields(b);
      var newTopic := if b.topic.Some? then b.topic.value else "";
      if topic != newTopic && newTopic != "" {
        topic := newTopic;
        InitializeChannel();
      }
      assert Current() == ApplyPost(before, b);
      resp := Reply(200, "application/json", Json(CurrentSnapshot()));
    }

    /** The guarded field updates of handlePostRequest: running, setTemp, tempRange and dataInterval. */
    method TakeGuardedFields(b: PostBody)
      modifies this`running, this`setTemp, this`tempRange, this`dataInterval
      ensures var after := ApplyPost(old(Current()), b);
              running == after.running && setTemp == after.setTemp
              && tempRange == after.tempRange && dataInterval == after.dataInterval
    {
      var newRunning := FlagOrFalse(b.running);
      running := if newRunning then newRunning else running;
      var newSetTemp := NumberOrZero(b.setTemp);
      setTemp := if newSetTemp > 1.0 then newSetTemp else setTemp;
      var newTempRange := NumberOrZero(b.tempRange);
      tempRange := if newTempRange > 0.1 then newTempRange else tempRange;
      var newDataInterval := NumberOrZero(b.dataInterval);
      dataInterval := if newDataInterval > 1.0 then newDataInterval.Floor else dataInterval;
    }

    /** The /config route: GET reads, POST updates, any other method gets 404. */
    method HandleConfig(req: Request) returns (resp: Response)
      requires Valid()
      modifies this
      ensures Valid()
      ensures Current() == AfterRequest(old(Current()), req)
      ensures channelInits == old(channelInits) + (if RequestReinits(old(Current()), req) then 1 else 0)
      ensures resp == Dispatch(req, CurrentSnapshot())
      ensures currentState == old(currentState) && heaterLine == old(heaterLine) && coolerLine == old(coolerLine)
      ensures startMillis == old(startMillis) && currentMillis == old(currentMillis) && sent == old(sent)
    {
      match req.verb {
        case Get =>
          resp := HandleGet();
        case Post =>
          resp := HandlePost(req.body);
        case _ =>
          resp := Reply(404, "text/plain", Text("Method not allowed"));
      }
    }

    /**
     * getNewData: decides on the reading, drives the lines, sends one frame
     * and restarts the interval timer. The configuration is left as it is.
     */
    method GetNewData(reading: real)
      requires Valid()
      modifies this
      ensures Valid()
      ensures var t := Tick(old(currentState), reading, setTemp, tempRange);
              currentState == t.state && Lines(heaterLine, coolerLine) == t.lines && sent == old(sent) + [t.frame]
      ensures heaterLine ==> reading <= setTemp
      ensures coolerLine ==> reading >= setTemp
      ensures startMillis == currentMillis && Elapsed(currentMillis, startMillis) == 0
      ensures Current() == old(Current()) && currentMillis == old(currentMillis) && channelInits == old(channelInits)
    {
      var newState := CompareTemps(reading);
      SetNewState(newState);
      TickDrivesCorrectSide(old(currentState), reading, setTemp, tempRange);

      var fields: Frame := [];
      fields := fields + [Field("state", IntType, IntValue(StateCode(newState)))];
      fields := fields + [Field("currentTemp", FloatType, FloatValue(reading))];
      fields := fields + [Field("setTemp", FloatType, FloatValue(setTemp))];
      fields := fields + [Field("tempRange", FloatType, FloatValue(tempRange))];

      assert fields == Encode(Report(newState, reading, setTemp, tempRange));
      sent := sent + [fields];
      startMillis := currentMillis;
    }

    /**
     * One pass of loop(): read the clock, serve at most one request on
     * /config, then tick if the controller runs and its interval has elapsed
     * since the last tick. `reading` is what the sensor would report if a
     * tick reads it.
     */
    method LoopStep(now: U32, request: Option<Request>, reading: real) returns (resp: Response)
      requires Valid()
      modifies this
      ensures Valid()
      ensures currentMillis == now
      ensures Current() == (if request.Some? then AfterRequest(old(Current()), request.value) else old(Current()))
      ensures channelInits == old(channelInits) + (if request.Some? && RequestReinits(old(Current()), request.value) then 1 else 0)
      ensures resp == (if request.Some? then Dispatch(request.value, CurrentSnapshot()) else NoReply)
      ensures TickDue(running, now, old(startMillis), dataInterval) ==>
                var t := Tick(old(currentState), reading, setTemp, tempRange);
                currentState == t.state && Lines(heaterLine, coolerLine) == t.lines
                && sent == old(sent) + [t.frame] && startMillis == now
      ensures !TickDue(running, now, old(startMillis), dataInterval) ==>
                currentState == old(currentState) && heaterLine == old(heaterLine) && coolerLine == old(coolerLine)
                && sent == old(sent) && startMillis == old(startMillis)
    {
      currentMillis := now;
      resp := NoReply;
      if request.Some? {
        resp := HandleConfig(request.value);
      }
      if Elapsed(currentMillis, startMillis) >= dataInterval && running {
        GetNewData(reading);
      }
    }
  }

  /**
   * A client run against the contracts alone: an idle controller sends
   * nothing when its interval has passed; once a POST switches it on, a
   * reading of 58 with the default setpoint heats and reports HEATER, and a
   * reading of 62.5 after the next interval cools.
   */
  method HeatThenCoolScenario() returns (frames: seq<Frame>)
    ensures |frames| == 2
    ensures Decode(frames[0]) == Some(Report(Heater, 58.0, 60.0, 1.0))
    ensures Decode(frames[1]) == Some(Report(Cooler, 62.5, 60.0, 1.0))
  {
    var c := new Controller(0);
    var r := c.LoopStep(1500, None, 58.0);
    assert c.sent == [];

    var on := PostBody(Some(true), None, None, None, None, None, None);
    r := c.LoopStep(1600, Some(Request(Post, Parsed(on))), 58.0);
    assert r == Reply(200, "application/json", Json(Snapshot(true, "", 60.0, 1.0, 12, 13, 1000)));
    assert c.currentState == Heater && c.heaterLine && !c.coolerLine;
    assert |c.sent| == 1;
    DecodeEncode(Report(Heater, 58.0, 60.0, 1.0));
    assert Decode(c.sent[0]) == Some(Report(Heater, 58.0, 60.0, 1.0));
    assert StateCode(Heater) == 0;

    r := c.LoopStep(2000, None, 62.5);
    assert |c.sent| == 1;
    r := c.LoopStep(2600, None, 62.5);
    assert c.currentState == Cooler && c.coolerLine && !c.heaterLine;
    assert |c.sent| == 2;
    frames := c.sent;
  }
}
