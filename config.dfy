/**
 * The live configuration of the controller, the partial update a POST to
 * /config applies (handlePostRequest), the seven-field snapshot that GET and
 * POST return (handleGetRequest), and the method dispatch on /config.
 */
module Config {
  import opened Wrappers

  /** The configuration fields a POST may change. */
  datatype Settings = Settings(running: bool, topic: string, setTemp: real, tempRange: real, dataInterval: nat)

  /** The values at start-up. */
  const Defaults: Settings := Settings(running := false, topic := "", setTemp := 60.0, tempRange := 1.0, dataInterval := 1000)

  /** The configuration invariant the guards keep: a setpoint above 1, a half-band above 0.1, an interval of at least 1 ms. */
  predicate Valid(c: Settings)
  {
    c.setTemp > 1.0 && c.tempRange > 0.1 && c.dataInterval >= 1
  }

  /** A parsed POST body: every field of the snapshot shape, each possibly absent. */
  datatype PostBody = PostBody(
    running: Option<bool>,
    topic: Option<string>,
    setTemp: Option<real>,
    tempRange: Option<real>,
    heaterPin: Option<int>,
    coolerPin: Option<int>,
    dataInterval: Option<real>)

  /** A POST body either fails to parse or yields its fields. */
  datatype Body = Malformed | Parsed(fields: PostBody)

  /** The seven-field snapshot returned by GET and by a successful POST. */
  datatype Snapshot = Snapshot(
    running: bool,
    topic: string,
    setTemp: real,
    tempRange: real,
    heaterPin: int,
    coolerPin: int,
    dataInterval: nat)

  /** An absent numeric field reads as 0. */
  function NumberOrZero(v: Option<real>): real
  {
    if v.Some? then v.value else 0.0
  }

  /** An absent boolean field reads as false. */
  function FlagOrFalse(v: Option<bool>): bool
  {
    v.Some? && v.value
  }

  /** The posted setpoint is taken when it is above 1. */
  function NewSetTemp(c: Settings, b: PostBody): real
  {
    var v := NumberOrZero(b.setTemp);
    if v > 1.0 then v else c.setTemp
  }

  /** The posted half-band is taken when it is above 0.1. */
  function NewTempRange(c: Settings, b: PostBody): real
  {
    var v := NumberOrZero(b.tempRange);
    if v > 0.1 then v else c.tempRange
  }

  /** The posted interval is taken when it is above 1, truncated to whole milliseconds. */
  function NewDataInterval(c: Settings, b: PostBody): nat
  {
    var v := NumberOrZero(b.dataInterval);
    if v > 1.0 then v.Floor else c.dataInterval
  }

  /** A posted topic replaces the current one, and re-initialises the channel, when it is non-empty and different. */
  predicate ReinitsChannel(c: Settings, b: PostBody)
  {
    b.topic.Some? && c.topic != b.topic.value && b.topic.value != ""
  }

  /** The settings after a parsed POST body. Each field follows its own guard; the pins are never taken. */
  function ApplyPost(c: Settings, b: PostBody): (r: Settings)
    ensures c.running ==> r.running
    ensures r.topic == c.topic || (r.topic != "" && b.topic == Some(r.topic))
    ensures r.setTemp == c.setTemp || r.setTemp > 1.0
    ensures r.tempRange == c.tempRange || r.tempRange > 0.1
    ensures r.dataInterval == c.dataInterval || r.dataInterval >= 1
  {
    Settings(
      running := if FlagOrFalse(b.running) then true else c.running,
      topic := if ReinitsChannel(c, b) then b.topic.value else c.topic,
      setTemp := NewSetTemp(c, b),
      tempRange := NewTempRange(c, b),
      dataInterval := NewDataInterval(c, b))
  }

  /** The snapshot of the settings and the two pins. */
  function SnapshotOf(c: Settings, heaterPin: int, coolerPin: int): (s: Snapshot)
    ensures SettingsOf(s) == c
    ensures s.heaterPin == heaterPin && s.coolerPin == coolerPin
  {
    Snapshot(c.running, c.topic, c.setTemp, c.tempRange, heaterPin, coolerPin, c.dataInterval)
  }

  /** The configuration fields a snapshot reports. */
  function SettingsOf(s: Snapshot): Settings
  {
    Settings(s.running, s.topic, s.setTemp, s.tempRange, s.dataInterval)
  }

  /** A POST body that repeats a snapshot field by field. */
  function Echo(s: Snapshot): PostBody
  {
    PostBody(Some(s.running), Some(s.topic), Some(s.setTemp), Some(s.tempRange),
             Some(s.heaterPin), Some(s.coolerPin), Some(s.dataInterval as real))
  }

  /** The setpoint changes only to a posted value above 1, and always does when one is posted. */
  lemma SetTempGuard(c: Settings, b: PostBody)
    ensures var r := ApplyPost(c, b);
            (b.setTemp.Some? && b.setTemp.value > 1.0 ==> r.setTemp == b.setTemp.value)
            && (r.setTemp != c.setTemp ==> b.setTemp == Some(r.setTemp) && r.setTemp > 1.0)
  {
  }

  /** The half-band changes only to a posted value above 0.1, and always does when one is posted. */
  lemma TempRangeGuard(c: Settings, b: PostBody)
    ensures var r := ApplyPost(c, b);
            (b.tempRange.Some? && b.tempRange.value > 0.1 ==> r.tempRange == b.tempRange.value)
            && (r.tempRange != c.tempRange ==> b.tempRange == Some(r.tempRange) && r.tempRange > 0.1)
  {
  }

  /**
   * The interval changes only when a value above 1 is posted, and then to that
   * value truncated to whole milliseconds, which is at least 1 and at most the
   * posted value.
   */
  lemma DataIntervalGuard(c: Settings, b: PostBody)
    ensures var r := ApplyPost(c, b);
            (b.dataInterval.Some? && b.dataInterval.value > 1.0 ==>
               1 <= r.dataInterval && r.dataInterval as real <= b.dataInterval.value < r.dataInterval as real + 1.0)
            && (r.dataInterval != c.dataInterval ==> b.dataInterval.Some? && b.dataInterval.value > 1.0)
  {
  }

  /** `running` is raised only by a posted true, and a POST never lowers it. */
  lemma RunningOnlyRaised(c: Settings, b: PostBody)
    ensures c.running ==> ApplyPost(c, b).running
    ensures ApplyPost(c, b).running <==> c.running || b.running == Some(true)
  {
  }

  /** The channel is re-initialised exactly when the topic changes, and the topic changes only to the posted one. */
  lemma TopicGuard(c: Settings, b: PostBody)
    ensures ReinitsChannel(c, b) <==> ApplyPost(c, b).topic != c.topic
    ensures ApplyPost(c, b).topic != c.topic ==> b.topic == Some(ApplyPost(c, b).topic)
  {
  }

  /** The guards keep the configuration invariant. */
  lemma ApplyPostKeepsValid(c: Settings, b: PostBody)
    requires Valid(c)
    ensures Valid(ApplyPost(c, b))
  {
  }

  /** Posting the same body twice: the second time changes nothing and does not re-initialise the channel. */
  lemma RepostIsNoOp(c: Settings, b: PostBody)
    ensures ApplyPost(ApplyPost(c, b), b) == ApplyPost(c, b)
    ensures !ReinitsChannel(ApplyPost(c, b), b)
  {
  }

  /** Posting back the snapshot a GET returned changes nothing and does not re-initialise the channel. */
  lemma EchoIsNoOp(c: Settings, heaterPin: int, coolerPin: int)
    ensures ApplyPost(c, Echo(SnapshotOf(c, heaterPin, coolerPin))) == c
    ensures !ReinitsChannel(c, Echo(SnapshotOf(c, heaterPin, coolerPin)))
  {
  }

  /** The settings after a sequence of parsed POST bodies, applied in order. */
  function ApplyAll(c: Settings, bodies: seq<PostBody>): Settings
    decreases |bodies|
  {
    if bodies == [] then c else ApplyAll(ApplyPost(c, bodies[0]), bodies[1..])
  }

  /** How many channel re-initialisations a sequence of POST bodies causes. */
  function ReinitCount(c: Settings, bodies: seq<PostBody>): nat
    decreases |bodies|
  {
    if bodies == [] then 0
    else (if ReinitsChannel(c, bodies[0]) then 1 else 0) + ReinitCount(ApplyPost(c, bodies[0]), bodies[1..])
  }

  /** Once running, no sequence of POSTs stops the controller. */
  lemma {:induction false} RunningNeverCleared(c: Settings, bodies: seq<PostBody>)
    requires c.running
    ensures ApplyAll(c, bodies).running
    decreases |bodies|
  {
    if bodies != [] {
      RunningOnlyRaised(c, bodies[0]);
      RunningNeverCleared(ApplyPost(c, bodies[0]), bodies[1..]);
    }
  }

  /** From any configuration that satisfies the invariant, every sequence of POSTs leaves one that satisfies it too. */
  lemma {:induction false} ApplyAllKeepsValid(c: Settings, bodies: seq<PostBody>)
    requires Valid(c)
    ensures Valid(ApplyAll(c, bodies))
    decreases |bodies|
  {
    if bodies != [] {
      ApplyPostKeepsValid(c, bodies[0]);
      ApplyAllKeepsValid(ApplyPost(c, bodies[0]), bodies[1..]);
    }
  }

  /** The topic after a sequence of POSTs differs from the one before only if the channel was re-initialised on the way. */
  lemma {:induction false} TopicChangeNeedsReinit(c: Settings, bodies: seq<PostBody>)
    ensures ApplyAll(c, bodies).topic != c.topic ==> ReinitCount(c, bodies) >= 1
    decreases |bodies|
  {
    if bodies != [] {
      TopicGuard(c, bodies[0]);
      TopicChangeNeedsReinit(ApplyPost(c, bodies[0]), bodies[1..]);
    }
  }

  /**
   * Posting the same topic any number of times re-initialises the channel at
   * most once, and not at all when that topic is already the current one.
   */
  lemma {:induction false} SameTopicReinitsAtMostOnce(c: Settings, bodies: seq<PostBody>, t: string)
    requires forall i :: 0 <= i < |bodies| ==> bodies[i].topic == Some(t)
    ensures ReinitCount(c, bodies) <= 1
    ensures c.topic == t ==> ReinitCount(c, bodies) == 0
    decreases |bodies|
  {
    if bodies != [] {
      var c1 := ApplyPost(c, bodies[0]);
      SameTopicReinitsAtMostOnce(c1, bodies[1..], t);
      if ReinitsChannel(c, bodies[0]) {
        assert c1.topic == t;
      }
    }
  }

  /** Changing the topic from "a" to "b" re-initialises the channel once; posting "b" again does not. */
  lemma TopicScenario(c: Settings)
    requires c.topic == "a"
    ensures var b := PostBody(None, Some("b"), None, None, None, None, None);
            ReinitCount(c, [b, b]) == 1 && ApplyAll(c, [b, b]).topic == "b"
  {
    var b := PostBody(None, Some("b"), None, None, None, None, None);
    assert "a" != "b" by { assert "a"[0] != "b"[0]; }
    var c1 := ApplyPost(c, b);
    assert ReinitsChannel(c, b) && c1.topic == "b";
    assert !ReinitsChannel(c1, b) && ApplyPost(c1, b).topic == "b";
    assert [b, b][1..] == [b];
    assert ReinitCount(c1, [b]) == 0 by { assert [b][1..] == []; }
    assert ApplyAll(c1, [b]) == ApplyPost(c1, b) by { assert [b][1..] == []; }
  }

  /** The HTTP methods a request on /config can carry. */
  datatype HttpMethod = Get | Head | Post | Put | Patch | Delete | Options

  /** A request on /config. */
  datatype Request = Request(verb: HttpMethod, body: Body)

  /** What the server answers; NoReply when the handler returns without sending. */
  datatype Payload = Json(snapshot: Snapshot) | Text(text: string)
  datatype Response = NoReply | Reply(status: int, contentType: string, payload: Payload)

  /** The settings after a request on /config: only a parsed POST changes anything. */
  function AfterRequest(c: Settings, req: Request): (r: Settings)
    ensures req.verb != Post || req.body == Malformed ==> r == c
  {
    if req.verb == Post && req.body.Parsed? then ApplyPost(c, req.body.fields) else c
  }

  /** Whether a request on /config re-initialises the channel. */
  predicate RequestReinits(c: Settings, req: Request)
  {
    req.verb == Post && req.body.Parsed? && ReinitsChannel(c, req.body.fields)
  }

  /**
   * The answer to a request on /config, given the snapshot after it: GET and a
   * parsed POST answer 200 with the snapshot, a malformed POST answers
   * nothing, every other method answers 404 in plain text.
   */
  function Dispatch(req: Request, after: Snapshot): (r: Response)
    ensures r.Reply? && r.status == 200 <==> req.verb == Get || (req.verb == Post && req.body.Parsed?)
    ensures r.Reply? && r.status == 200 ==> r == Reply(200, "application/json", Json(after))
    ensures r == NoReply <==> req.verb == Post && req.body == Malformed
    ensures r.Reply? && r.status == 404 <==> req.verb != Get && req.verb != Post
  {
    match req.verb
    case Get => Reply(200, "application/json", Json(after))
    case Post => if req.body.Malformed? then NoReply else Reply(200, "application/json", Json(after))
    case _ => Reply(404, "text/plain", Text("Method not allowed"))
  }
}
