/**
 * The door pipeline's rules: routing an inbound command by its topic levels,
 * publishing the lock state, and one iteration of each of the three worker
 * loops (video capture, face authorization, command handling). The module's
 * globals (the two queues, the stop flag, the deadbolt) become the fields of
 * `App`; publishing appends to `outbox`. Queues are unbounded, so a put always
 * succeeds. Camera, vision service and JSON decoding are parameters.
 */
module AppThreads {
  import opened Wrappers
  import opened Locks
  import opened Topics
  import opened Virtual
  import opened FaceDetector

  type Bytes = seq<bv8>
  type Frame = seq<bv8>

  /** A decoded JSON value: a string, or anything else. */
  datatype Json = JStr(s: string) | JOther
  /** A decoded JSON document: an object, or any other JSON value. */
  datatype Doc = Obj(fields: map<string, Json>) | NotObj

  /** A record of the inbound queue: `{"topic": ..., "payload": ...}`. */
  datatype Inbound = Inbound(topic: string, payload: Bytes)

  datatype QoS = AtMostOnce | AtLeastOnce | ExactlyOnce

  /** One publish to the broker; the payload stands for the JSON object it encodes. */
  datatype Publish = Publish(topic: string, payload: map<string, string>, qos: QoS)

  const StateTopic: string := "dt/lock/state"
  const CaptureInterval: real := 2.0
  const PresenceThreshold: real := 0.75
  const SimilarityThreshold: real := 99.5

  // ---------------------------------------------------------------------------
  // Lock state on the wire
  // ---------------------------------------------------------------------------

  /** The word the state lookup table gives for `s`. */
  function StateWord(s: LockState): (w: string)
    ensures w == "lock" || w == "unlock"
  {
    match s
    case Locked => "lock"
    case Unlocked => "unlock"
  }

  /** The state a command's `state` value asks for: only "lock" and "unlock" are understood. */
  function ParseStateWord(v: Json): (s: Option<LockState>)
    ensures s.Some? <==> v == JStr("lock") || v == JStr("unlock")
    ensures s.Some? ==> v == JStr(StateWord(s.value))
  {
    if v == JStr("lock") then Some(Locked)
    else if v == JStr("unlock") then Some(Unlocked)
    else None
  }

  /**
   * The publish of a state: on the state topic, at least once, with a payload
   * whose one field reads back, through the command parser, as that state.
   */
  function StatePublish(s: LockState): (p: Publish)
    ensures p.topic == StateTopic && p.qos == AtLeastOnce
    ensures p.payload.Keys == {"state"} && ParseStateWord(JStr(p.payload["state"])) == Some(s)
  {
    Publish(StateTopic, map["state" := StateWord(s)], AtLeastOnce)
  }

  /** Different states are published differently. */
  lemma StatePublishInjective(s: LockState, t: LockState)
    ensures StatePublish(s) == StatePublish(t) <==> s == t
  {
    if StatePublish(s) == StatePublish(t) {
      assert ParseStateWord(JStr(StatePublish(s).payload["state"])) == Some(s);
    }
  }

  // ---------------------------------------------------------------------------
  // Command routing
  // ---------------------------------------------------------------------------

  /** The exceptions dispatch can raise; only NotImplemented is caught by the command loop. */
  datatype DispatchError = NotImplemented | IndexError | KeyError | TypeError

  /** What dispatching a command does: drive the deadbolt, nothing, or raise. */
  datatype Action = Actuate(target: LockState) | Ignore | Fail(error: DispatchError)

  function RouteLevels(levels: seq<string>, payload: Doc): Action
    requires |levels| >= 1
  {
    if levels[0] == "cmd" then
      if |levels| < 2 then Fail(IndexError)
      else if levels[1] != "lock" then Ignore
      else if |levels| < 3 then Fail(IndexError)
      else if levels[2] != "state" then Ignore
      else if payload.NotObj? then Fail(TypeError)
      else if "state" !in payload.fields then Fail(KeyError)
      else
        match ParseStateWord(payload.fields["state"])
        case Some(t) => Actuate(t)
        case None => Fail(NotImplemented)
    else if levels[0] == "dt" then Ignore
    else Fail(NotImplemented)
  }

  /**
   * The route of a command with this topic and decoded payload. An actuation
   * names the state its payload asks for, and only a cmd topic can raise
   * anything other than NotImplementedError.
   */
  function Route(topic: string, payload: Doc): (a: Action)
    ensures a.Actuate? ==>
      payload.Obj? && "state" in payload.fields && payload.fields["state"] == JStr(StateWord(a.target))
    ensures a.Fail? && a.error != NotImplemented ==> Split(topic)[0] == "cmd"
  {
    RouteLevels(Split(topic), payload)
  }

  /**
   * A command actuates exactly when its first three levels are cmd/lock/state
   * and its payload object's `state` is "lock" or "unlock", and then it drives
   * the deadbolt to that state.
   */
  lemma RouteActuates(topic: string, payload: Doc)
    ensures var levels := Split(topic);
      Route(topic, payload).Actuate? <==>
        && |levels| >= 3 && levels[0] == "cmd" && levels[1] == "lock" && levels[2] == "state"
        && payload.Obj? && "state" in payload.fields
        && ParseStateWord(payload.fields["state"]).Some?
    ensures Route(topic, payload).Actuate? ==>
      payload.Obj? && "state" in payload.fields &&
      payload.fields["state"] == JStr(StateWord(Route(topic, payload).target))
  {
  }

  /** The topic levels of the lock command. */
  lemma CommandTopicLevels()
    ensures Split("cmd/lock/state") == ["cmd", "lock", "state"]
  {
    var levels := ["cmd", "lock", "state"];
    assert Join(levels[2..]) == "state";
    assert Join(levels[1..]) == "lock/state";
    assert Join(levels) == "cmd/lock/state";
    SplitJoin(levels);
  }

  /** The dispatch table for the lock command topic. */
  lemma LockCommandTable(other: Json)
    requires other != JStr("lock") && other != JStr("unlock")
    ensures Route("cmd/lock/state", Obj(map["state" := JStr("lock")])) == Actuate(Locked)
    ensures Route("cmd/lock/state", Obj(map["state" := JStr("unlock")])) == Actuate(Unlocked)
    ensures Route("cmd/lock/state", Obj(map["state" := other])) == Fail(NotImplemented)
    ensures Route("cmd/lock/state", Obj(map[])) == Fail(KeyError)
    ensures Route("cmd/lock/state", NotObj) == Fail(TypeError)
  {
    CommandTopicLevels();
    var levels := ["cmd", "lock", "state"];
    RouteByLevels("cmd/lock/state", levels, Obj(map["state" := JStr("lock")]));
    RouteByLevels("cmd/lock/state", levels, Obj(map["state" := JStr("unlock")]));
    RouteByLevels("cmd/lock/state", levels, Obj(map["state" := other]));
    RouteByLevels("cmd/lock/state", levels, Obj(map[]));
    RouteByLevels("cmd/lock/state", levels, NotObj);
  }

  /** Routing depends on the topic only through its levels. */
  lemma RouteByLevels(topic: string, levels: seq<string>, payload: Doc)
    requires Split(topic) == levels
    ensures |levels| >= 1 && Route(topic, payload) == RouteLevels(levels, payload)
  {
  }

  /** Every `dt/...` topic is accepted and ignored, whatever the payload. */
  lemma DataTopicsIgnored(rest: string, payload: Doc)
    ensures Route("dt/" + rest, payload) == Ignore
  {
    SplitLevel("dt", rest);
    assert "dt" + [Separator] + rest == "dt/" + rest;
  }

  /** A first level other than cmd or dt raises NotImplementedError. */
  lemma OtherFirstLevelNotImplemented(word: string, rest: string, payload: Doc)
    requires Separator !in word && word != "cmd" && word != "dt"
    ensures Route(word + "/" + rest, payload) == Fail(NotImplemented)
    ensures Route(word, payload) == Fail(NotImplemented)
  {
    SplitLevel(word, rest);
    SplitJoin([word]);
  }

  /** Under cmd, a second level other than lock returns silently, whatever follows. */
  lemma OtherCommandIgnored(second: string, rest: string, payload: Doc)
    requires Separator !in second && second != "lock"
    ensures Route("cmd/" + second + "/" + rest, payload) == Ignore
    ensures Route("cmd/" + second, payload) == Ignore
  {
    SplitLevel(second, rest);
    SplitLevel("cmd", second + "/" + rest);
    assert "cmd" + [Separator] + (second + "/" + rest) == "cmd/" + second + "/" + rest;
    SplitJoin([second]);
    SplitLevel("cmd", second);
    assert "cmd" + [Separator] + second == "cmd/" + second;
  }

  /** Under cmd/lock, a third level other than state returns silently, whatever follows. */
  lemma OtherLockSubtopicIgnored(third: string, rest: string, payload: Doc)
    requires Separator !in third && third != "state"
    ensures Route("cmd/lock/" + third + "/" + rest, payload) == Ignore
    ensures Route("cmd/lock/" + third, payload) == Ignore
  {
    LockSubtopicLevels(third, rest);
    RouteByLevels("cmd/lock/" + third + "/" + rest, ["cmd", "lock", third] + Split(rest), payload);
    RouteByLevels("cmd/lock/" + third, ["cmd", "lock", third], payload);
  }

  /** The levels of cmd/lock/third, with and without further levels. */
  lemma LockSubtopicLevels(third: string, rest: string)
    requires Separator !in third
    ensures Split("cmd/lock/" + third + "/" + rest) == ["cmd", "lock", third] + Split(rest)
    ensures Split("cmd/lock/" + third) == ["cmd", "lock", third]
  {
    SplitLevel(third, rest);
    SplitLevel("lock", third + "/" + rest);
    SplitLevel("cmd", "lock/" + third + "/" + rest);
    assert "lock" + [Separator] + (third + "/" + rest) == "lock/" + third + "/" + rest;
    assert "cmd" + [Separator] + ("lock/" + third + "/" + rest) == "cmd/lock/" + third + "/" + rest;
    var levels := ["cmd", "lock", third];
    assert Join(levels[2..]) == third;
    assert Join(levels[1..]) == "lock/" + third;
    assert Join(levels) == "cmd/lock/" + third;
    SplitJoin(levels);
  }

  /** A lock-command topic cut short of its third level fails on the missing level. */
  lemma ShortCommandTopics(payload: Doc)
    ensures Route("cmd", payload) == Fail(IndexError)
    ensures Route("cmd/lock", payload) == Fail(IndexError)
  {
    SplitJoin(["cmd"]);
    SplitJoin(["lock"]);
    SplitLevel("cmd", "lock");
    assert "cmd" + [Separator] + "lock" == "cmd/lock";
  }

  // ---------------------------------------------------------------------------
  // The command loop, as a specification
  // ---------------------------------------------------------------------------

  /** Why the command loop died: a payload that did not decode, or an uncaught dispatch error. */
  datatype IotError = DecodeError | Uncaught(error: DispatchError)

  /** The effect of handling one inbound record. */
  datatype Processed = Processed(state: LockState, published: seq<Publish>, crash: Option<IotError>)

  function ProcessMessage(m: Inbound, decode: Bytes -> Option<Doc>, s: LockState): (p: Processed)
    ensures p.crash.Some? ==> p.state == s && p.published == []
    ensures p.crash.None? && p.state != s ==> p.published == [StatePublish(p.state)]
  {
    match decode(m.payload)
    case None => Processed(s, [], Some(DecodeError))
    case Some(payload) =>
      match Route(m.topic, payload)
      case Actuate(t) => Processed(t, [StatePublish(t)], None)
      case Ignore => Processed(s, [], None)
      case Fail(NotImplemented) => Processed(s, [], None)
      case Fail(e) => Processed(s, [], Some(Uncaught(e)))
  }

  /** The command loop survives this record: it decodes and dispatch raises nothing but NotImplementedError. */
  predicate Survives(m: Inbound, decode: Bytes -> Option<Doc>)
  {
    decode(m.payload).Some? &&
    var r := Route(m.topic, decode(m.payload).value);
    !r.Fail? || r.error == NotImplemented
  }

  /** The state the record drives the deadbolt to, if any. */
  function ActuationOf(m: Inbound, decode: Bytes -> Option<Doc>): seq<LockState>
  {
    match decode(m.payload)
    case None => []
    case Some(payload) =>
      match Route(m.topic, payload)
      case Actuate(t) => [t]
      case _ => []
  }

  /** The states a run of records drives the deadbolt to, in order. */
  function Actuations(msgs: seq<Inbound>, decode: Bytes -> Option<Doc>): seq<LockState>
  {
    if msgs == [] then [] else ActuationOf(msgs[0], decode) + Actuations(msgs[1..], decode)
  }

  function StatePublishes(states: seq<LockState>): seq<Publish>
  {
    if states == [] then [] else [StatePublish(states[0])] + StatePublishes(states[1..])
  }

  /** The outcome of handling queued records in order until one kills the loop. */
  datatype Replay = Replay(state: LockState, published: seq<Publish>, consumed: nat, crash: Option<IotError>)

  function ReplayIot(msgs: seq<Inbound>, decode: Bytes -> Option<Doc>, s: LockState): (r: Replay)
    ensures r.consumed <= |msgs|
    ensures r.crash.None? ==> r.consumed == |msgs|
    ensures r.crash.Some? ==> r.consumed >= 1
  {
    if msgs == [] then Replay(s, [], 0, None)
    else
      var p := ProcessMessage(msgs[0], decode, s);
      if p.crash.Some? then Replay(s, [], 1, p.crash)
      else
        var rest := ReplayIot(msgs[1..], decode, p.state);
        Replay(rest.state, p.published + rest.published, 1 + rest.consumed, rest.crash)
  }

  /** A run in progress: `pubs` published and `k` records consumed so far, `rest` still to come. */
  function Resume(pubs: seq<Publish>, k: nat, rest: Replay): Replay
  {
    Replay(rest.state, pubs + rest.published, k + rest.consumed, rest.crash)
  }

  /** Handling the next queued record advances a run in progress by one step. */
  lemma ReplayAdvance(pubs: seq<Publish>, k: nat, queue: seq<Inbound>, decode: Bytes -> Option<Doc>, s: LockState)
    requires queue != []
    ensures var p := ProcessMessage(queue[0], decode, s);
      var whole := Resume(pubs, k, ReplayIot(queue, decode, s));
      && (p.crash.None? ==> whole == Resume(pubs + p.published, k + 1, ReplayIot(queue[1..], decode, p.state)))
      && (p.crash.Some? ==> whole == Replay(s, pubs, k + 1, p.crash))
  {
    var p := ProcessMessage(queue[0], decode, s);
    if p.crash.None? {
      var rest := ReplayIot(queue[1..], decode, p.state);
      assert pubs + (p.published + rest.published) == (pubs + p.published) + rest.published;
    } else {
      assert pubs + [] == pubs;
    }
  }

  /**
   * When every record survives, all are consumed, each actuation publishes its
   * state exactly once, in order, and the last actuation decides the final
   * state (the initial state stands when there is none).
   */
  lemma {:induction false} ReplayLastActuationWins(msgs: seq<Inbound>, decode: Bytes -> Option<Doc>, s: LockState)
    requires forall i :: 0 <= i < |msgs| ==> Survives(msgs[i], decode)
    ensures var r := ReplayIot(msgs, decode, s);
      var acts := Actuations(msgs, decode);
      && r.crash.None? && r.consumed == |msgs|
      && r.published == StatePublishes(acts)
      && r.state == if acts == [] then s else acts[|acts| - 1]
  {
    if msgs != [] {
      var p := ProcessMessage(msgs[0], decode, s);
      SurvivorEffect(msgs[0], decode, s);
      ReplayLastActuationWins(msgs[1..], decode, p.state);
      var a := ActuationOf(msgs[0], decode);
      var rest := Actuations(msgs[1..], decode);
      assert Actuations(msgs, decode) == a + rest;
      if a == [] {
        assert a + rest == rest;
      } else {
        assert StatePublishes(a + rest) == [StatePublish(a[0])] + StatePublishes(rest) by {
          assert (a + rest)[1..] == rest;
        }
      }
    }
  }

  /** A surviving record publishes exactly its actuation, and moves the state to it. */
  lemma SurvivorEffect(m: Inbound, decode: Bytes -> Option<Doc>, s: LockState)
    requires Survives(m, decode)
    ensures var p := ProcessMessage(m, decode, s);
      var a := ActuationOf(m, decode);
      && p.crash.None? && |a| <= 1
      && p.published == StatePublishes(a)
      && p.state == if a == [] then s else a[0]
  {
  }

  /** A record kills the loop exactly when it does not survive, whatever the lock state. */
  lemma CrashIffNotSurvives(m: Inbound, decode: Bytes -> Option<Doc>, s: LockState)
    ensures ProcessMessage(m, decode, s).crash.Some? <==> !Survives(m, decode)
  {
  }

  /** A record that kills the loop is the first one that does not survive, and the loop stops right after it. */
  lemma {:induction false} ReplayStopsAtFirstCrash(msgs: seq<Inbound>, decode: Bytes -> Option<Doc>, s: LockState)
    ensures var r := ReplayIot(msgs, decode, s);
      r.crash.Some? <==> exists i :: 0 <= i < |msgs| && !Survives(msgs[i], decode)
    ensures var r := ReplayIot(msgs, decode, s);
      r.crash.Some? ==>
        && !Survives(msgs[r.consumed - 1], decode)
        && forall j :: 0 <= j < r.consumed - 1 ==> Survives(msgs[j], decode)
  {
    if msgs != [] {
      var p := ProcessMessage(msgs[0], decode, s);
      CrashIffNotSurvives(msgs[0], decode, s);
      if p.crash.None? {
        var tail := msgs[1..];
        ReplayStopsAtFirstCrash(tail, decode, p.state);
        var rest := ReplayIot(tail, decode, p.state);
        var r := ReplayIot(msgs, decode, s);
        assert r.crash == rest.crash && r.consumed == 1 + rest.consumed;
        assert forall i :: 1 <= i < |msgs| ==> msgs[i] == tail[i - 1];
        if exists i :: 0 <= i < |msgs| && !Survives(msgs[i], decode) {
          var i :| 0 <= i < |msgs| && !Survives(msgs[i], decode);
          assert !Survives(tail[i - 1], decode);
        }
        if rest.crash.Some? {
          assert msgs[r.consumed - 1] == tail[rest.consumed - 1];
        }
      }
    }
  }

  /**
   * A run that ends in a crash leaves exactly what the records before the
   * crashing one left: the crashing record neither actuates nor publishes.
   */
  lemma {:induction false} ReplayCrashAddsNothing(msgs: seq<Inbound>, decode: Bytes -> Option<Doc>, s: LockState)
    ensures var r := ReplayIot(msgs, decode, s);
      r.crash.Some? ==>
        var before := ReplayIot(msgs[..r.consumed - 1], decode, s);
        && before.crash.None?
        && before.state == r.state
        && before.published == r.published
  {
    var r := ReplayIot(msgs, decode, s);
    if msgs != [] && r.crash.Some? {
      var p := ProcessMessage(msgs[0], decode, s);
      if p.crash.Some? {
        assert msgs[..r.consumed - 1] == [];
      } else {
        var tail := msgs[1..];
        ReplayCrashAddsNothing(tail, decode, p.state);
        var rest := ReplayIot(tail, decode, p.state);
        var prefix := msgs[..r.consumed - 1];
        assert prefix != [] && prefix[0] == msgs[0];
        assert prefix[1..] == tail[..rest.consumed - 1];
      }
    }
  }

  // ---------------------------------------------------------------------------
  // The capture rule, as a specification
  // ---------------------------------------------------------------------------

  /** What one video tick does: restart the 2-second window, and offer the frame. */
  datatype Tick = Tick(restart: bool, submit: bool)

  function VideoTick(elapsed: real, state: LockState): (t: Tick)
    ensures t.restart <==> elapsed > CaptureInterval
    ensures t.submit <==> t.restart && state == Locked
  {
    if elapsed > CaptureInterval then Tick(true, state == Locked) else Tick(false, false)
  }

  /** A clock reading and the lock state seen at that tick. */
  datatype Sample = Sample(now: real, lock: LockState)

  /** The times at which frames are offered over a run of ticks, the window having started at `past`. */
  function Submissions(samples: seq<Sample>, past: real): seq<real>
  {
    if samples == [] then []
    else
      var t := VideoTick(samples[0].now - past, samples[0].lock);
      var next := if t.restart then samples[0].now else past;
      (if t.submit then [samples[0].now] else []) + Submissions(samples[1..], next)
  }

  /** Offered frames are more than 2 s after the window start and more than 2 s apart. */
  lemma {:induction false} SubmissionsSpaced(samples: seq<Sample>, past: real)
    ensures forall i :: 0 <= i < |Submissions(samples, past)| ==>
      Submissions(samples, past)[i] > past + CaptureInterval
    ensures forall i :: 0 <= i < |Submissions(samples, past)| - 1 ==>
      Submissions(samples, past)[i + 1] - Submissions(samples, past)[i] > CaptureInterval
  {
    if samples != [] {
      var now := samples[0].now;
      var t := VideoTick(now - past, samples[0].lock);
      var next := if t.restart then now else past;
      SubmissionsSpaced(samples[1..], next);
      var rest := Submissions(samples[1..], next);
      var times := Submissions(samples, past);
      var head := if t.submit then [now] else [];
      assert times == head + rest;
      forall i | 0 <= i < |times|
        ensures times[i] > past + CaptureInterval
      {
        if i < |head| {
          assert times[i] == now;
        } else {
          assert times[i] == rest[i - |head|];
        }
      }
      forall i | 0 <= i < |times| - 1
        ensures times[i + 1] - times[i] > CaptureInterval
      {
        assert times[i + 1] == rest[i + 1 - |head|];
        if i < |head| {
          assert times[i] == now && next == now;
        } else {
          assert times[i] == rest[i - |head|];
        }
      }
    }
  }

  // ---------------------------------------------------------------------------
  // The authorization rule, as a specification
  // ---------------------------------------------------------------------------

  /** A call to the vision service. */
  datatype VisionCall = DetectLabels | CompareFaces(threshold: real)

  /**
   * What the authorization step decided for one dequeued frame. ReferenceMissing:
   * the reference image could not be opened, which the loop does not catch, so
   * the loop ends (RekognitionCrashed).
   */
  datatype Verdict = Skipped | NoFace | Guest | Authorized | ReferenceMissing

  datatype Authorization = Authorization(calls: seq<VisionCall>, verdict: Verdict)

  function Authorize(state: LockState, labels: Option<seq<Label>>, referenceReadable: bool,
                     matches: Option<seq<FaceMatch>>): (a: Authorization)
    ensures a.verdict == Authorized <==>
      state == Locked && DetectFaceFromBytes(labels) > PresenceThreshold && referenceReadable
      && CompareFaceFromBytes(matches)
    ensures a.verdict == Skipped <==> state != Locked
    ensures a.calls == [] <==> state != Locked
    ensures CompareFaces(SimilarityThreshold) in a.calls <==>
      state == Locked && DetectFaceFromBytes(labels) > PresenceThreshold && referenceReadable
  {
    if state != Locked then Authorization([], Skipped)
    else if !(DetectFaceFromBytes(labels) > PresenceThreshold) then Authorization([DetectLabels], NoFace)
    else if !referenceReadable then Authorization([DetectLabels], ReferenceMissing)
    else if CompareFaceFromBytes(matches) then
      Authorization([DetectLabels, CompareFaces(SimilarityThreshold)], Authorized)
    else Authorization([DetectLabels, CompareFaces(SimilarityThreshold)], Guest)
  }

  /**
   * An authorized frame was seen while LOCKED, the service answered with a
   * Human and a Face label, each past index 0 and each above 75 percent, the
   * counterfeit rule did not fire, and the comparison returned at least one match.
   */
  lemma AuthorizedNeedsGenuineFace(state: LockState, labels: Option<seq<Label>>, referenceReadable: bool,
                                   matches: Option<seq<FaceMatch>>)
    requires labels.Some? ==> ConfidencesInRange(labels.value)
    requires Authorize(state, labels, referenceReadable, matches).verdict == Authorized
    ensures state == Locked && labels.Some? && matches.Some? && |matches.value| > 0
    ensures CounterfeitConfidence(labels.value) == 0
    ensures exists i :: 0 < i < |labels.value| && labels.value[i].name == "Human"
                     && labels.value[i].confidence / 100.0 > PresenceThreshold
    ensures exists j :: 0 < j < |labels.value| && labels.value[j].name == "Face"
                     && labels.value[j].confidence / 100.0 > PresenceThreshold
  {
    assert labels.Some?;
    ScoreAboveNeedsHumanAndFace(labels.value, PresenceThreshold);
  }

  /**
   * The counterfeit rule does not block a first-ranked counterfeit label: a
   * Phone label at index 0 is read as absent, so this frame unlocks the door.
   */
  lemma FirstRankedCounterfeitUnlocks()
    ensures var labels := [Label("Phone", 99.0), Label("Human", 99.0), Label("Face", 99.0)];
      && labels[0].confidence / 100.0 > CounterfeitThreshold
      && Authorize(Locked, Some(labels), true, Some([FaceMatch(100.0)])).verdict == Authorized
  {
    var labels := [Label("Phone", 99.0), Label("Human", 99.0), Label("Face", 99.0)];
    GetConfidenceIndexZero(labels, "Phone");
    GetConfidenceAbsent(labels, "Electronics");
    GetConfidenceAbsent(labels, "Monitor");
    GetConfidenceFound(labels, "Human", 1);
    GetConfidenceFound(labels, "Face", 2);
    assert CounterfeitConfidence(labels) == 0;
    assert HumanFaceConfidence(labels) == 0.99 * 0.99;
  }

  // ---------------------------------------------------------------------------
  // The pipeline's shared state and the loop iterations
  // ---------------------------------------------------------------------------

  datatype IotOutcome = IotStopped | IotTimedOut | IotHandled | IotCrashed(error: IotError)
  datatype RekognitionOutcome = RekognitionStopped | RekognitionTimedOut | Decided(verdict: Verdict) | RekognitionCrashed

  class App {
    const deadbolt: LockVirtual
    var awsPipeline: seq<Frame>
    var iotPipeline: seq<Inbound>
    var stopCapture: bool
    var outbox: seq<Publish>

    constructor ()
      ensures fresh(deadbolt) && fresh(deadbolt.device) && deadbolt.device.state == Locked
      ensures awsPipeline == [] && iotPipeline == [] && !stopCapture && outbox == []
    {
      var device := new LockSimulation();
      deadbolt := new LockVirtual(device);
      awsPipeline, iotPipeline, stopCapture, outbox := [], [], false, [];
    }

    method MqttSendState(state: LockState)
      modifies this`outbox
      ensures outbox == old(outbox) + [StatePublish(state)]
    {
      outbox := outbox + [StatePublish(state)];
    }

    /** Dispatch one command: actuate and publish per its route, or report the raised error. */
    method MqttDispatch(topic: string, payload: Doc) returns (err: Option<DispatchError>)
      modifies this`outbox, deadbolt.device
      ensures var r := Route(topic, payload);
        && (r.Actuate? ==> deadbolt.device.state == r.target && outbox == old(outbox) + [StatePublish(r.target)])
        && (!r.Actuate? ==> deadbolt.device.state == old(deadbolt.device.state) && outbox == old(outbox))
        && err == (if r.Fail? then Some(r.error) else None)
    {
      var levels := Split(topic);
      if levels[0] == "cmd" {
        if |levels| < 2 {
          return Some(IndexError);
        }
        if levels[1] == "lock" {
          if |levels| < 3 {
            return Some(IndexError);
          }
          if levels[2] == "state" {
            if payload.NotObj? {
              return Some(TypeError);
            }
            if "state" !in payload.fields {
              return Some(KeyError);
            }
            if payload.fields["state"] == JStr("lock") {
              var state := deadbolt.LockDevice();
              MqttSendState(state);
            } else if payload.fields["state"] == JStr("unlock") {
              var state := deadbolt.UnlockDevice();
              MqttSendState(state);
            } else {
              return Some(NotImplemented);
            }
          }
        }
        err := None;
      } else if levels[0] == "dt" {
        err := None;
      } else {
        err := Some(NotImplemented);
      }
    }

    /** Starting the video loop: a camera that does not open sets the stop flag. */
    method VideoStart(cameraOpen: bool)
      modifies this`stopCapture
      ensures stopCapture == (old(stopCapture) || !cameraOpen)
    {
      if !cameraOpen {
        stopCapture := true;
      }
    }

    /**
     * One pass of the video loop with a captured `frame`, the clock reading
     * `now`, the window start `past` and whether the quit key was pressed.
     */
    method VideoIteration(frame: Frame, now: real, past: real, quitKey: bool) returns (running: bool, newPast: real)
      modifies this`awsPipeline, this`stopCapture
      ensures old(stopCapture) ==>
        !running && newPast == past && awsPipeline == old(awsPipeline) && stopCapture
      ensures !old(stopCapture) ==>
        var t := VideoTick(now - past, deadbolt.device.state);
        && running
        && newPast == (if t.restart then now else past)
        && awsPipeline == old(awsPipeline) + (if t.submit then [frame] else [])
        && stopCapture == quitKey
    {
      if stopCapture {
        return false, past;
      }
      running, newPast := true, past;
      var elapsed := now - past;
      if elapsed > CaptureInterval {
        newPast := now;
        var state := deadbolt.GetState();
        if state == Locked {
          awsPipeline := awsPipeline + [frame];
        }
      }
      if quitKey {
        stopCapture := true;
      }
    }

    /**
     * One pass of the authorization loop; the vision service's answers for the
     * dequeued frame and whether the reference image opens are parameters.
     */
    method RekognitionIteration(labels: Option<seq<Label>>, referenceReadable: bool,
                                matches: Option<seq<FaceMatch>>) returns (o: RekognitionOutcome)
      modifies this`awsPipeline, this`outbox, deadbolt.device
      ensures old(stopCapture) || old(awsPipeline) == [] ==>
        && o == (if old(stopCapture) then RekognitionStopped else RekognitionTimedOut)
        && awsPipeline == old(awsPipeline) && outbox == old(outbox)
        && deadbolt.device.state == old(deadbolt.device.state)
      ensures !old(stopCapture) && old(awsPipeline) != [] ==>
        var a := Authorize(old(deadbolt.device.state), labels, referenceReadable, matches);
        && awsPipeline == old(awsPipeline)[1..]
        && o == (if a.verdict == ReferenceMissing then RekognitionCrashed else Decided(a.verdict))
        && (a.verdict == Authorized ==>
              deadbolt.device.state == Unlocked && outbox == old(outbox) + [StatePublish(Unlocked)])
        && (a.verdict != Authorized ==>
              deadbolt.device.state == old(deadbolt.device.state) && outbox == old(outbox))
    {
      if stopCapture {
        return RekognitionStopped;
      }
      if awsPipeline == [] {
        return RekognitionTimedOut;
      }
      awsPipeline := awsPipeline[1..];
      var state := deadbolt.GetState();
      if state != Locked {
        return Decided(Skipped);
      }
      var prob := DetectFaceFromBytes(labels);
      if !(prob > PresenceThreshold) {
        return Decided(NoFace);
      }
      if !referenceReadable {
        return RekognitionCrashed;
      }
      var auth := CompareFaceFromBytes(matches);
      if auth {
        var unlocked := deadbolt.UnlockDevice();
        MqttSendState(unlocked);
        o := Decided(Authorized);
      } else {
        o := Decided(Guest);
      }
    }

    /** One pass of the command loop; `decode` stands for the payload's UTF-8 and JSON decoding. */
    method IotIteration(decode: Bytes -> Option<Doc>) returns (o: IotOutcome)
      modifies this`outbox, this`iotPipeline, deadbolt.device
      ensures old(stopCapture) || old(iotPipeline) == [] ==>
        && o == (if old(stopCapture) then IotStopped else IotTimedOut)
        && iotPipeline == old(iotPipeline) && outbox == old(outbox)
        && deadbolt.device.state == old(deadbolt.device.state)
      ensures !old(stopCapture) && old(iotPipeline) != [] ==>
        var p := ProcessMessage(old(iotPipeline)[0], decode, old(deadbolt.device.state));
        && iotPipeline == old(iotPipeline)[1..]
        && deadbolt.device.state == p.state
        && outbox == old(outbox) + p.published
        && o == (if p.crash.Some? then IotCrashed(p.crash.value) else IotHandled)
    {
      if stopCapture {
        return IotStopped;
      }
      if iotPipeline == [] {
        return IotTimedOut;
      }
      var info := iotPipeline[0];
      iotPipeline := iotPipeline[1..];
      var payload := decode(info.payload);
      if payload.None? {
        return IotCrashed(DecodeError);
      }
      var err := MqttDispatch(info.topic, payload.value);
      if err == None || err == Some(NotImplemented) {
        o := IotHandled;
      } else {
        o := IotCrashed(Uncaught(err.value));
      }
    }

    /**
     * The command loop: announce LOCKED (without reading the deadbolt), then
     * handle queued records until the stop flag, an empty queue or an uncaught
     * error. The model returns on an empty queue where the source keeps polling.
     */
    method IotThread(decode: Bytes -> Option<Doc>) returns (o: IotOutcome)
      modifies this`outbox, this`iotPipeline, deadbolt.device
      ensures var announced := old(outbox) + [StatePublish(Locked)];
        old(stopCapture) ==>
          && o == IotStopped && outbox == announced && iotPipeline == old(iotPipeline)
          && deadbolt.device.state == old(deadbolt.device.state)
      ensures var r := ReplayIot(old(iotPipeline), decode, old(deadbolt.device.state));
        var announced := old(outbox) + [StatePublish(Locked)];
        !old(stopCapture) ==>
          && iotPipeline == old(iotPipeline)[r.consumed..]
          && deadbolt.device.state == r.state
          && outbox == announced + r.published
          && o == (if r.crash.Some? then IotCrashed(r.crash.value) else IotTimedOut)
    {
      MqttSendState(Locked);
      o := IotLoop(decode);
    }

    /** The loop of the command thread, after the announcement. */
    method IotLoop(decode: Bytes -> Option<Doc>) returns (o: IotOutcome)
      modifies this`outbox, this`iotPipeline, deadbolt.device
      ensures old(stopCapture) ==>
        && o == IotStopped && outbox == old(outbox) && iotPipeline == old(iotPipeline)
        && deadbolt.device.state == old(deadbolt.device.state)
      ensures var r := ReplayIot(old(iotPipeline), decode, old(deadbolt.device.state));
        !old(stopCapture) ==>
          && iotPipeline == old(iotPipeline)[r.consumed..]
          && deadbolt.device.state == r.state
          && outbox == old(outbox) + r.published
          && o == (if r.crash.Some? then IotCrashed(r.crash.value) else IotTimedOut)
    {
      if stopCapture {
        o := IotIteration(decode);
        return;
      }
      ghost var q0, s0, out0 := iotPipeline, deadbolt.device.state, outbox;
      ghost var r0 := ReplayIot(q0, decode, s0);
      ghost var k := 0;
      ghost var pubs: seq<Publish> := [];
      assert r0 == Resume(pubs, k, r0);
      var running := true;
      o := IotHandled;
      while running
        invariant !stopCapture
        invariant 0 <= k <= |q0| && iotPipeline == q0[k..] && outbox == out0 + pubs
        invariant running ==> r0 == Resume(pubs, k, ReplayIot(iotPipeline, decode, deadbolt.device.state))
        invariant !running ==>
          && deadbolt.device.state == r0.state && pubs == r0.published && k == r0.consumed
          && o == (if r0.crash.Some? then IotCrashed(r0.crash.value) else IotTimedOut)
        decreases |iotPipeline|, running
      {
        ghost var before := deadbolt.device.state;
        ghost var queue := iotPipeline;
        o := IotIteration(decode);
        if o == IotHandled {
          ghost var p := ProcessMessage(queue[0], decode, before);
          ReplayAdvance(pubs, k, queue, decode, before);
          assert queue[1..] == q0[k + 1..];
          pubs, k := pubs + p.published, k + 1;
        } else if o.IotCrashed? {
          ReplayAdvance(pubs, k, queue, decode, before);
          k := k + 1;
          running := false;
        } else {
          assert pubs + [] == pubs;
          running := false;
        }
      }
    }
  }
}
