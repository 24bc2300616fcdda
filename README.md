# Door lock controller and face-authorization pipeline, modelled in Dafny

This project models the logic of a door access endpoint. The endpoint has four parts:

- A deadbolt with a two-valued lock state.
- The older integer-coded lock controller.
- The rules of the door pipeline: the MQTT command dispatcher, the state publisher, and one pass of each of the three worker loops (video capture, face authorization, command handling).
- The broker connection callbacks and the label-scoring rules of the face detector.

Modules, one per source file or component:

- `Locks` (`door/lock/lock_abstract.py`, `door/lock/lock_simulation.py`): the `LockState` datatype and the class `LockSimulation`. Its `state` field starts `Locked`, and `Lock`/`Unlock` overwrite it unconditionally and return it. The pure functions `Target` and `Run` state what any sequence of requests leaves behind.
- `Virtual` (`door/lock/lock_virtual.py`): the class `LockVirtual`. It holds its device in a `const`, so the device is never replaced, and locks the device on construction. Each request returns only after it has completed, because the executor's `with` block joins. `GetState` reads the device's live state.
- `LegacyLock` (`door/lock.py`): the class `Lock`. The constants are `Unlocked = 0` and `Locked = 1`, and a new lock starts `Unlocked`. The device controller's code is not part of this model, so each call receives the controller's outcome (`Returned(response)` or `Raised`). The response is passed back unchanged. The state changes only when the call returned.
- `Topics`: Python's `topic.split("/")`, following the topic levels of section 4.7.1.1 of MQTT Version 3.1.1. Empty levels are kept and there is always at least one level. It is proved inverse to `"/".join`.
- `FaceDetector` (`door/detection/face_detector.py`): the first-match search, the confidence lookup, the counterfeit rule, the human-face product and the presence score. These use exact `real`s.
- `AppThreads` (`door/app_threads.py`): the module's globals become the fields of `App`. These are the deadbolt, the two queues, the stop flag, and an `outbox` that each publish appends to. The pure functions beside the class specify each step:
  - `Route` specifies dispatch.
  - `ProcessMessage` and `ReplayIot` specify the command loop.
  - `VideoTick` and `Submissions` specify capture.
  - `Authorize` specifies the authorization step.
- `MqttCallbacks` (`door/iot_mqtt/mqtt_aws_cb.py`): the resume condition, the scan of resubscribe results, and the enqueueing of inbound messages.

The model follows what the code does, including its gaps:

- Under `cmd`, a second level other than `lock`, or a third level other than `state`, returns silently.
- A `cmd` topic with too few levels fails with an index error. A missing `state` key fails with a key error, and a payload that is not a JSON object fails with a type error.
- The command loop catches only `NotImplementedError`. Every other dispatch error, and every payload that does not decode, ends the loop.
- At startup the command loop announces LOCKED without reading the deadbolt.
- The reference image is opened with no handler around it, so an unreadable image ends the authorization loop. Only `queue.Empty` is caught there.
- Both queues are unbounded, so offering a frame always enqueues it. The `put` with a one-second timeout and the "video queue full" log message show that a full queue was expected. The handler around that `put` names `queue.Empty`, which `put` never raises.
- `get_confidence_` tests the found index for truth (`if idx:`). A label at index 0 is therefore treated as absent and yields 0.001.
- As a consequence, a first-ranked Electronics, Monitor or Phone label does not trigger the counterfeit rule and does not block unlocking. A frame labelled Phone 99 %, Human 99 %, Face 99 % in that order unlocks the door when the comparison matches.

## Model

| member | source | states |
|---|---|---|
| Locks.LockSimulation.constructor | door/lock/lock_abstract.py:7-9 | a new device is LOCKED |
| Locks.LockSimulation.Lock | door/lock/lock_simulation.py:13-16 | the state becomes LOCKED whatever it was, and the returned value equals the new state |
| Locks.LockSimulation.Unlock | door/lock/lock_simulation.py:18-21 | the state becomes UNLOCKED whatever it was, and the returned value equals the new state |
| Locks.Target | door/lock/lock_simulation.py:13-21 | a request's outcome depends only on the request: LOCKED iff it is a lock request |
| Locks.RunLastWins | door/lock/lock_simulation.py:13-21 | after any sequence of requests the state is the last request's target, or the initial state if there were none |
| Locks.RunIdempotent | door/lock/lock_simulation.py:15-20 | repeating a request changes nothing further |
| Virtual.LockVirtual.constructor | door/lock/lock_virtual.py:7-10 | the wrapped device is the given one and is LOCKED after construction; the stored answer is LOCKED |
| Virtual.LockVirtual.LockDevice | door/lock/lock_virtual.py:12-14 | on return the request has completed: the device is LOCKED and LOCKED is returned |
| Virtual.LockVirtual.UnlockDevice | door/lock/lock_virtual.py:16-18 | on return the request has completed: the device is UNLOCKED and UNLOCKED is returned |
| Virtual.LockVirtual.GetState | door/lock/lock_virtual.py:20-21 | returns the device's current state, not a cached copy |
| Virtual.LockTestScenario | door/test/lock_test.py:9-26 | a new virtual lock reads LOCKED, then UNLOCKED after unlock, then LOCKED after lock |
| LegacyLock.Lock.constructor | door/lock.py:8-10 | a new lock is Unlocked (0) and keeps the given device controller |
| LegacyLock.Lock.Lock | door/lock.py:12-15 | returns the controller's response unchanged; the state becomes Locked (1) only if the controller's call returned, and is unchanged if it raised |
| LegacyLock.Lock.Unlock | door/lock.py:17-20 | returns the controller's response unchanged; the state becomes Unlocked (0) only if the controller's call returned |
| LegacyLock.LegacyLockScenario | door/lock_test.py:8-27 | a new lock reads Unlocked, Locked after lock, Unlocked after unlock |
| Topics.Split | door/app_threads.py:23 | a topic has at least one level and no level contains the separator |
| Topics.JoinSplit | door/app_threads.py:23 | splitting loses nothing: joining the levels with "/" gives the topic back |
| Topics.SplitJoin | door/app_threads.py:23 | levels without separators, joined and split again, come back unchanged |
| Topics.SplitLevel | door/app_threads.py:23 | a topic "word/rest" splits into word followed by the levels of rest |
| FaceDetector.TryIndex | door/detection/face_detector.py:76-82 | the index of the first label with that name, or None iff no label has it |
| FaceDetector.GetConfidence | door/detection/face_detector.py:68-74 | the result is 0.001 or some matching label's confidence divided by 100 |
| FaceDetector.GetConfidenceFound | door/detection/face_detector.py:68-74 | a first match at an index above 0 yields its confidence divided by 100 |
| FaceDetector.GetConfidenceAbsent | door/detection/face_detector.py:72-74 | no match yields 0.001 |
| FaceDetector.GetConfidenceIndexZero | door/detection/face_detector.py:70-73 | a match at index 0 is treated as absent and yields 0.001 |
| FaceDetector.GetConfidenceBounds | door/detection/face_detector.py:68-74 | with confidences in [0,100] the scaled confidence lies in [0,1] |
| FaceDetector.CounterfeitConfidence | door/detection/face_detector.py:59-66 | 1 iff the Electronics, Monitor or Phone confidence is strictly above 0.50, else 0 |
| FaceDetector.HumanFaceConfidence | door/detection/face_detector.py:54-57 | with confidences in [0,100] the product of the Human and Face scaled confidences is a probability in [0,1] |
| FaceDetector.HumanFaceConfidenceBounds | door/detection/face_detector.py:54-57 | the Human times Face product lies in [0,1] and below each factor |
| FaceDetector.DetectionScore | door/detection/face_detector.py:15 | the score is 0 when the counterfeit rule fires and the human-face confidence otherwise |
| FaceDetector.DetectionScoreBounds | door/detection/face_detector.py:15 | with confidences in [0,100] the score lies in [0,1] |
| FaceDetector.ScoreAboveNeedsHumanAndFace | door/detection/face_detector.py:15 | a score above a threshold needs the counterfeit rule not to fire and both a Human and a Face label, past index 0, each above the threshold |
| FaceDetector.DetectFaceFromBytes | door/detection/face_detector.py:11-18 | a client error scores 0; otherwise the score of the returned labels |
| FaceDetector.CompareFaceFromBytes | door/detection/face_detector.py:30-39 | a comparison matches iff the service answered with a non-empty FaceMatches list |
| AppThreads.StateWord | door/app_threads.py:48 | the lookup maps each state to "lock" or "unlock" |
| AppThreads.ParseStateWord | door/app_threads.py:29-38 | only "lock" and "unlock" name a state, and each parses to the state whose word it is |
| AppThreads.StatePublish | door/app_threads.py:46-50 | a state is published on dt/lock/state at least once, with a one-field payload that parses back to that state |
| AppThreads.StatePublishInjective | door/app_threads.py:46-50 | different states are published differently |
| AppThreads.Route | door/app_threads.py:22-43 | an actuation names the state the payload's `state` field asks for; only a cmd topic raises anything other than NotImplementedError |
| AppThreads.RouteActuates | door/app_threads.py:22-43 | a command actuates iff its levels start cmd/lock/state and its payload's state is "lock" or "unlock"; it drives the deadbolt to the state named |
| AppThreads.CommandTopicLevels | door/app_threads.py:23 | cmd/lock/state has the three levels cmd, lock, state |
| AppThreads.LockCommandTable | door/app_threads.py:27-38 | on cmd/lock/state: "lock" locks, "unlock" unlocks, any other value raises NotImplementedError, a missing key raises KeyError, a non-object payload raises TypeError |
| AppThreads.DataTopicsIgnored | door/app_threads.py:39-41 | every dt/... topic is a no-op without error |
| AppThreads.OtherFirstLevelNotImplemented | door/app_threads.py:42-43 | a first level other than cmd or dt raises NotImplementedError |
| AppThreads.OtherCommandIgnored | door/app_threads.py:27-28 | under cmd a second level other than lock returns silently |
| AppThreads.OtherLockSubtopicIgnored | door/app_threads.py:28-38 | under cmd/lock a third level other than state returns silently, whatever follows |
| AppThreads.ShortCommandTopics | door/app_threads.py:24-28 | cmd and cmd/lock fail with an index error rather than NotImplementedError |
| AppThreads.ProcessMessage | door/app_threads.py:118-129 | a record that ends the loop changes nothing; one that changes the state publishes exactly that state |
| AppThreads.ReplayIot | door/app_threads.py:114-129 | records are consumed in order, all of them unless one ends the loop, and then at least one |
| AppThreads.ReplayLastActuationWins | door/app_threads.py:114-129 | when every record survives, all are consumed, each actuation publishes its state once in order, and the last actuation decides the final state |
| AppThreads.CrashIffNotSurvives | door/app_threads.py:121-127 | a record ends the loop iff it does not decode or dispatch raises anything but NotImplementedError |
| AppThreads.ReplayStopsAtFirstCrash | door/app_threads.py:118-129 | the loop ends iff some record fails to survive, and it ends right after the first such record |
| AppThreads.ReplayCrashAddsNothing | door/app_threads.py:118-129 | a run that ends in a crash leaves the state and the publishes the records before the crashing one left; the crashing record neither actuates nor publishes |
| AppThreads.VideoTick | door/app_threads.py:65-70 | the window restarts iff more than 2 s have elapsed; a frame is offered iff it restarts and the lock is LOCKED |
| AppThreads.SubmissionsSpaced | door/app_threads.py:59-70 | offered frames come more than 2 s after the window start and more than 2 s apart |
| AppThreads.Authorize | door/app_threads.py:91-106 | unlock iff LOCKED, score above 0.75, reference readable and comparison matched; when not LOCKED no vision call is made; a comparison at threshold 99.5 is made iff LOCKED, score above 0.75 and reference readable |
| AppThreads.AuthorizedNeedsGenuineFace | door/app_threads.py:91-102 | an authorized frame was seen while LOCKED, with Human and Face labels past index 0 above 75 %, the counterfeit rule not firing, and a non-empty match list |
| AppThreads.FirstRankedCounterfeitUnlocks | door/detection/face_detector.py:68-74 | a frame whose first label is Phone at 99 % and which also carries Human and Face at 99 % is authorized: the counterfeit label at index 0 goes unseen |
| AppThreads.App.constructor | door/app_threads.py:14-17 | both queues empty, stop flag clear, deadbolt LOCKED |
| AppThreads.App.MqttSendState | door/app_threads.py:46-50 | appends exactly one state publish to the outbox |
| AppThreads.App.MqttDispatch | door/app_threads.py:22-43 | an actuating route drives the deadbolt to its target and appends exactly one publish of it; any other route changes neither the deadbolt nor the outbox; the raised error is the route's |
| AppThreads.App.VideoStart | door/app_threads.py:56-58 | a camera that does not open sets the stop flag |
| AppThreads.App.VideoIteration | door/app_threads.py:59-75 | with the stop flag set nothing happens; otherwise the window and the frame queue follow VideoTick, the offered frame is never dropped, and the quit key sets the stop flag |
| AppThreads.App.RekognitionIteration | door/app_threads.py:83-108 | stop or an empty queue changes nothing; otherwise one frame is consumed, an unreadable reference image ends the loop, and only an Authorized verdict unlocks and publishes UNLOCKED once |
| AppThreads.App.IotIteration | door/app_threads.py:115-129 | stop or an empty queue changes nothing; otherwise one record is consumed with the effect ProcessMessage gives |
| AppThreads.App.IotThread | door/app_threads.py:112-129 | LOCKED is announced first, then the queue is handled as ReplayIot gives |
| AppThreads.App.IotLoop | door/app_threads.py:114-129 | with the stop flag set nothing changes; otherwise the deadbolt, the outbox and the rest of the queue are those ReplayIot gives, and the loop ends crashed exactly when the replay crashed |
| MqttCallbacks.OnConnectionResumed | door/iot_mqtt/mqtt_aws_cb.py:11-18 | resubscribe iff the return code is ACCEPTED and no session is present |
| MqttCallbacks.OnResubscribeComplete | door/iot_mqtt/mqtt_aws_cb.py:21-26 | returns normally iff every topic was granted a QoS; otherwise exits naming the first rejected topic |
| MqttCallbacks.OnMessageReceived | door/iot_mqtt/mqtt_aws_cb.py:29-31 | appends exactly one {topic, payload} record behind those already queued |

## Left out

- The abstract base class `LockAbstract` is not a separate type, because the model has no inheritance. Its constructor is `LockSimulation`'s constructor. Its abstract `lock`/`unlock` survive as `LockSimulation`'s method signatures, and the `NotImplementedError` bodies are not modelled.
- Threads, scheduling and blocking waits are not modelled. This covers queue timeouts, `threading.Event` and the executors. Each loop is modelled by single iterations, and a future is modelled as its resolved value.
- AppThreads.App.IotThread: returns once the queue is empty, where the source keeps polling until the stop flag is set. No other thread changes the flag during the run.
- AppThreads.App.IotLoop: returns once the queue is empty, where the source keeps polling until the stop flag is set. Only a stop flag already set when it starts makes it return IotStopped.
- OpenCV capture, display, encoding and the key poll are not modelled. The frame, the camera-open result and the quit key are parameters. A failed frame read is not modelled.
- The Rekognition calls are not modelled. Their responses are parameters: a label list, a FaceMatches list, or `None` for a client error. A response lacking `Labels` or `FaceMatches` is not modelled.
- `try_index_`/`get_confidence_`: the key is fixed to `Name`, as at every call site. An entry without that key is not modelled.
- JSON decoding and encoding are not modelled. Decoding is a function parameter, with `None` for a payload that does not decode. A publish carries its payload as a map.
- The clock is a parameter. The two `time.time()` reads of one video tick are taken as one reading. `DEVICE_DELAY` is 0, so the sleep is left out.
- `sys.exit` on a rejected resubscription is the `Exit` outcome.
- The MQTT SDK wrapper, connection bootstrap, configuration reading, logging and `door/iot_device.py` are not part of this model.
- The physical device controller of the legacy lock (`lock_physical`) is not part of this model. Each call's outcome is a parameter.
- Floating-point rounding in the scoring is not modelled. Exact rationals are used.
