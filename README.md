# Traffic-light command/ack protocol — a verified Dafny model

The repository drives a four-way traffic light over MQTT. An operator sends JSON commands
(`SET_MODE`, `SET_PHASE`, `EMERGENCY`) carrying a `cmd_id`. The edge controller executes each
command at most once, acknowledges it on the ack topic and publishes its state. Operator-side
tools time the round trip from command to ack and judge the results against thresholds.

This project models, in Dafny, the deterministic core of both sides.

- **The four edge-controller implementations, each from its own code:**
  - the Python mock controller (`MockEsp32`);
  - the Arduino firmware (`ArduinoFirmware`);
  - the ESP-IDF firmware, split as in the source into the lamp driver (`GpioLights`), the
    state machine (`FsmController`), the command handler (`MqttHandler`) and the publisher
    task (`AppMain`);
  - the dashboard's lamp-colour table (`SvgGen`).
- **The operator-side tools:**
  - the shared command record and ack rule (`RttRecords`, over a Python-dict model `PyDict`);
  - the multi-case benchmark (`BenchmarkReport`) and the single-run logger (`BenchLogger`);
  - the CSV analyser (`AnalyzeResults`) and the experiment runner (`RunExperiments`).

**How the model represents the source:**
- Code that updates fields or globals in place is a `class` whose fields mirror them. Fixed-size
  buffers are arrays: the 12 GPIO levels, the 32-slot and 10-slot id rings, and the 6 Arduino LEDs.
- Each such method is specified against a pure step function of the old state:
  `ensures Snapshot() == Step(old(Snapshot()), ...)`. The properties are lemmas about those
  step functions.
- Pure code (switch tables, statistics, verdicts) is functions and lemmas.
- Time is an explicit `now` parameter in milliseconds. The Arduino `unsigned long` arithmetic is
  written out modulo 2^32.
- Shared state that a loop reads while the MQTT callbacks run (the logger's connection flag and
  received count) is passed in as the sequence of values the loop reads. In the program the
  logger's connection flag never drops once set (see `BenchLogger.BenchmarkState.SendLoop`
  under "## Left out").
- JSON arrives already parsed (`Json.Inbound`), or as a parse failure.
- Messages the code publishes are appended to an `outbox` sequence.

**Behaviour that may look unintended, modelled as coded:**
- Both ack handlers overwrite the round-trip time of an already-acked record and count the ack
  again. `RttRecords.RepeatedAckCountsTwice` shows this, and `BenchmarkReport.DuplicateAckMasksLoss`
  shows the consequence: a duplicate ack can turn a lost command into a PASS.
- The percentile is `data[min(int(n*p), n-1)]` as coded. On `[10,20,30,40,50]` the 90th
  percentile is therefore 50, where the usual nearest-rank p90 would be 40.
- Both Python MQTT clients use paho's VERSION2 callback API, which calls `on_disconnect` with
  five arguments. The mock's `_on_disconnect` (mock_esp32.py:119) and the logger's
  `on_disconnect` (logger.py:95) accept only four, so every call raises TypeError before the
  body runs and neither connection flag is ever cleared. `MockEsp32.Mock.OnDisconnect` changes
  nothing.
- The logger's `finally: client.disconnect()` (logger.py:379-380) runs after `loop_stop()`,
  so paho calls `on_disconnect` on the calling thread and the TypeError escapes `main`. The
  logger therefore exits with status 1 even after a complete run whose CSV it has written, and
  `run_case` in the experiment runner reports that case as failed.
- The Arduino firmware's "insert ALL_RED first" branch in `handleCommand` is overwritten on the next
  line. `ArduinoFirmware.SetPhaseQuirks` shows a direct 0→3 switch.

## Model

| member | source | states |
|---|---|---|
| SvgGen.BuildPoles | node-red/svg_gen.js:7-21 | starting from all-dim poles and brightening in place per case yields exactly the reference lamp table `LampTable` |
| SvgGen.PhaseName | node-red/svg_gen.js:23-24 | the label is `phaseNames[k]` when the phase's property key is an index k in 0..5, and an inherited method's key renders as that function's native source text |
| SvgGen.JsIndexKey | node-red/svg_gen.js:24 | a phase selects an entry of `phaseNames` only as an index in 0..5 |
| SvgGen.JsNameKey | node-red/svg_gen.js:24 | a string phase is its own property key; only strings and one-element arrays can spell a property name |
| SvgGen.UnknownExactlyWhenNoProperty | node-red/svg_gen.js:23-24 | the label is "UNKNOWN" exactly when the key is neither an index 0..5 nor a property an array has (own `length`, inherited `constructor`, `__proto__` and methods); it is a phase name exactly when the key is an index |
| SvgGen.LengthLabel | node-red/svg_gen.js:23-24 | the key `length`, also sent as `["length"]`, labels the picture "6" |
| SvgGen.MethodLabel | node-red/svg_gen.js:23-24 | the key `map` labels the picture with the text `function map() { [native code] }` |
| SvgGen.ConstructorLabel | node-red/svg_gen.js:23-24 | the key `constructor` labels the picture with the `Array` function's source text |
| SvgGen.ProtoLabel | node-red/svg_gen.js:23-24 | the key `__proto__` labels the picture with the empty text of Array.prototype |
| SvgGen.UnknownLabels | node-red/svg_gen.js:23-24 | the string "6" and the boolean true read `undefined` and are labelled "UNKNOWN" |
| SvgGen.OneBrightLampPerPole | node-red/svg_gen.js:7-21 | every phase leaves exactly one bright lamp on each pole, all others dim |
| SvgGen.NsPhases | node-red/svg_gen.js:14-15 | phase 0 is NS green + EW red, phase 1 is NS yellow + EW red, every other lamp dim |
| SvgGen.EwPhases | node-red/svg_gen.js:17-18 | phase 3 is EW green + NS red, phase 4 is EW yellow + NS red |
| SvgGen.RedPhases | node-red/svg_gen.js:16-20 | phases 2, 5 and every value that is not the number 0, 1, 3 or 4 light both reds only |
| SvgGen.NoConflictingGreens | node-red/svg_gen.js:13-21 | NS green and EW green are never both bright, for any payload |
| SvgGen.GreenOnlyAgainstRed | node-red/svg_gen.js:13-21 | a bright green always faces a bright red on the crossing pole |
| SvgGen.StringPhaseNamedButNotLit | node-red/svg_gen.js:13-24 | the string "1" is labelled NS YELLOW while the `===` switch lights both reds |
| SvgGen.NumericPhaseName | node-red/svg_gen.js:23-24 | numeric phases 0..5 get their `phaseNames` entry and all other numbers "UNKNOWN" |
| MockEsp32.Mock.constructor | logger/tools/mock_esp32.py:48-61 | starts in AUTO, phase 0, empty id deque, disconnected |
| MockEsp32.Mock.OnConnect | logger/tools/mock_esp32.py:79-89 | connected, and a retained online status appended to the outbox |
| MockEsp32.Mock.OnDisconnect | logger/tools/mock_esp32.py:119-121 | paho's five-argument VERSION2 call does not fit the four-parameter callback, so it raises before the body: the connected flag and the device state stay as they were |
| MockEsp32.Mock.PublishAck | logger/tools/mock_esp32.py:189-196 | appends exactly one ack carrying the id, ok and err |
| MockEsp32.Mock.PublishState | logger/tools/mock_esp32.py:200-208 | appends exactly one state message built from the current mode and phase |
| MockEsp32.Mock.OnMessage | logger/tools/mock_esp32.py:93-117 | the new device state and outbox are `OnMessageSpec` of the old ones |
| MockEsp32.Mock.Dispatch | logger/tools/mock_esp32.py:126-166 | the type branches set mode, phase and timer and give the ack's ok and err exactly as `Execute` decides; cache, flags and outbox unchanged |
| MockEsp32.Mock.HandleCommand | logger/tools/mock_esp32.py:124-179 | applies `Execute`, appends the id to the 32-entry deque, then appends one ack and, when the id can be sliced for the log line, one state message |
| MockEsp32.Mock.AutoCycleStep | logger/tools/mock_esp32.py:221-227 | the state becomes `AutoCycle` of the old state |
| MockEsp32.Mock.StateLoopStep | logger/tools/mock_esp32.py:229-251 | the state becomes `StateTick` of the old state, connection flag as observed |
| MockEsp32.DequeAppend | logger/tools/mock_esp32.py:169 | the deque never exceeds 32 entries and ends with the appended id |
| MockEsp32.MissingIdRejected | logger/tools/mock_esp32.py:104-108 | a missing or falsy `cmd_id` yields one ack (None, false, ERR_INVALID_CMD), no caching, no state change |
| MockEsp32.DuplicateNotReexecuted | logger/tools/mock_esp32.py:110-114 | a cached id yields one ok ack and nothing else: no execution, no state message |
| MockEsp32.SetModeOutcomes | logger/tools/mock_esp32.py:131-140 | the four mode names set the mode and restart `phase_start`, keeping the phase; anything else is ERR_INVALID_MODE with no change |
| MockEsp32.PhaseValue | logger/tools/mock_esp32.py:147-149 | a stored phase (an int -1..5 or a bool) counts as the integer Python's `isinstance(phase, int)` test sees: True is 1, False is 0 |
| MockEsp32.SetPhaseOutcomes | logger/tools/mock_esp32.py:142-155 | outside MANUAL it is ERR_NOT_MANUAL_MODE; in MANUAL a value that is an int (or a bool) in 0..5 is stored exactly as sent and restarts the timer, otherwise ERR_INVALID_PHASE; refusals change nothing |
| MockEsp32.PhaseTypeQuirks | logger/tools/mock_esp32.py:147-155 | the float 2.0 and the string "2" are refused, while the boolean true is accepted and stored as `True`, not as 1 |
| MockEsp32.TruePhaseReachesDashboard | logger/tools/mock_esp32.py:147-208 | a SET_PHASE with `true` publishes a state message whose phase is JSON `true`, which the dashboard draws all red and labels "UNKNOWN", where the int 1 shows NS yellow |
| MockEsp32.EmergencyAndUnknown | logger/tools/mock_esp32.py:157-166 | EMERGENCY always succeeds with BLINK and phase 2; any other type is ERR_UNKNOWN_TYPE with no change |
| MockEsp32.FirstSeenCachedThenAckedAndPublished | logger/tools/mock_esp32.py:168-179 | a first-seen string id is cached whether the command succeeded or not, the state is the command's outcome, and exactly one ack and one state message follow |
| MockEsp32.RedeliveryIsNoOp | logger/tools/mock_esp32.py:110-117 | redelivering a handled command, even one whose first delivery failed, only appends an ok ack |
| MockEsp32.DequeAppendKeepsLast | logger/tools/mock_esp32.py:60-61 | one append to the last-32 window is the last-32 window of the extended history |
| MockEsp32.DequeHoldsMostRecent | logger/tools/mock_esp32.py:60-61 | after any sequence of appends the deque holds exactly the 32 most recent ids, oldest first |
| MockEsp32.AutoCycleAdvance | logger/tools/mock_esp32.py:221-227 | the phase becomes `(phase + 1) % 6` and the timer restarts exactly when the elapsed time reaches the phase's duration; from phase -1 Python's `[-1]` selects the 2000 ms entry and the next phase is 0; a stored `True` waits 3000 ms and advances to the int 2 |
| MockEsp32.StateTickModes | logger/tools/mock_esp32.py:232-245 | while connected BLINK flips the blink state and shows phase 2 or -1, OFF forces -1, MANUAL keeps the phase; each pass publishes the state and every fifth telemetry too; while disconnected nothing changes |
| MockEsp32.BlinkAlternates | logger/tools/mock_esp32.py:238-240 | two connected BLINK iterations show phases 2 and -1 once each and restore the blink state |
| ArduinoFirmware.Firmware.constructor | esp32/src/main.cpp:96-121 | AUTO, phase 0, ten empty cache slots, index 0, LEDs off |
| ArduinoFirmware.Firmware.IsCommandProcessed | esp32/src/main.cpp:473-480 | the loop over all ten slots returns true exactly when the key is in some slot |
| ArduinoFirmware.Firmware.CacheCommandId | esp32/src/main.cpp:482-485 | writes the key at the ring index and advances it modulo 10; FSM state and outbox unchanged |
| ArduinoFirmware.Firmware.PublishAck | esp32/src/main.cpp:528-547 | appends exactly one ack |
| ArduinoFirmware.Firmware.HandleCommand | esp32/src/main.cpp:385-467 | the new state, cache and outbox are `HandleCommandSpec` of the old ones |
| ArduinoFirmware.Firmware.MqttCallback | esp32/src/main.cpp:336-379 | the new state, cache and outbox are `CallbackSpec` of the old ones |
| ArduinoFirmware.Firmware.UpdateFsm | esp32/src/main.cpp:570-601 | the FSM state becomes `UpdateStep` of the old one; cache index and outbox unchanged |
| ArduinoFirmware.Firmware.SetLeds | esp32/src/main.cpp:626-676 | the six LED levels equal `LedTable` of mode, phase and blink state |
| ArduinoFirmware.Firmware.CheckFailsafe | esp32/src/main.cpp:682-694 | the FSM state becomes `FailsafeStep` of the old one |
| ArduinoFirmware.Firmware.Loop | esp32/src/main.cpp:192-227 | stamp the connection time when the first `mqtt.connected()` read succeeds, failsafe on its own read, update, LEDs: state is `LoopStep` and LEDs follow it |
| ArduinoFirmware.Elapsed | esp32/src/main.cpp:572 | the `unsigned long` difference always lies in 0..2^32-1 |
| ArduinoFirmware.StrField | esp32/src/main.cpp:387 | `doc[key] \| ""` is the field's string when it is a string and "" otherwise |
| ArduinoFirmware.IntField | esp32/src/main.cpp:429 | `doc["phase"] \| -1` is the field when it is an integer in `int` range and -1 otherwise |
| ArduinoFirmware.CacheKey | esp32/src/main.cpp:473-485 | a string id is its own key; a null id compares and stores as the empty `String` |
| ArduinoFirmware.HandleCommandSpec | esp32/src/main.cpp:385-467 | keeps the ring well-shaped (10 slots, index in range) |
| ArduinoFirmware.CallbackSpec | esp32/src/main.cpp:336-379 | keeps the ring well-shaped |
| ArduinoFirmware.LedTable | esp32/src/main.cpp:626-676 | always six levels |
| ArduinoFirmware.ElapsedAcrossWrap | esp32/src/main.cpp:570-572 | the wrapped difference is the true elapsed time even across a counter wrap |
| ArduinoFirmware.MissingIdDropped | esp32/src/main.cpp:362-366 | a parsed document without `cmd_id` changes nothing and is not acked |
| ArduinoFirmware.InvalidJsonOnlyAcks | esp32/src/main.cpp:351-360 | a parse failure is acked INVALID_JSON only when the partial document holds `cmd_id`; nothing else changes |
| ArduinoFirmware.DuplicateAckedWithoutExecution | esp32/src/main.cpp:370-375 | an id in any slot gets one ok ack and no execution |
| ArduinoFirmware.FirstSeenAlwaysCached | esp32/src/main.cpp:464-466 | a first-seen id is cached at the ring index whatever the outcome, other slots kept, one ack with the outcome |
| ArduinoFirmware.RedeliveryIsAckedOnly | esp32/src/main.cpp:370-378 | a second delivery right after the first only adds an ok ack |
| ArduinoFirmware.NonStringIdMatchesUnusedSlot | esp32/src/main.cpp:368-375 | a non-string `cmd_id` reads as nullptr and matches an unused slot, so it is acked ok and never run |
| ArduinoFirmware.SetModeOutcomes | esp32/src/main.cpp:398-423 | success exactly for the four names; AUTO restarts the phase timer, BLINK the blink timer; otherwise INVALID_MODE and no change |
| ArduinoFirmware.SetPhaseOutcomes | esp32/src/main.cpp:424-450 | NOT_MANUAL_MODE outside MANUAL; in MANUAL 0..5 becomes the phase with a timer restart, else INVALID_PHASE; refusals change nothing |
| ArduinoFirmware.SetPhaseQuirks | esp32/src/main.cpp:429-441 | a green switches straight to the crossing green (the ALL_RED insertion is overwritten); 3.0 and "3" are refused |
| ArduinoFirmware.EmergencyAndUnknown | esp32/src/main.cpp:451-462 | EMERGENCY gives BLINK with phase 2 and restarts the phase timer, not the blink timer; any other type is UNKNOWN_CMD with no change |
| ArduinoFirmware.OkIffNoError | esp32/src/main.cpp:395-462 | a command succeeds exactly when no error string is set |
| ArduinoFirmware.NextPhaseIsSuccessor | esp32/src/main.cpp:603-620 | `getNextPhase` is the successor modulo 6; six steps return to the start |
| ArduinoFirmware.AutoUpdate | esp32/src/main.cpp:575-583 | in AUTO the phase advances and the timer restarts exactly when the elapsed time reaches the duration |
| ArduinoFirmware.NonAutoUpdate | esp32/src/main.cpp:585-599 | BLINK flips the blink state exactly after 500 ms; MANUAL and OFF change nothing |
| ArduinoFirmware.LedsOffAndBlink | esp32/src/main.cpp:635-646 | OFF lights nothing; BLINK lights both yellows only while the blink state is on |
| ArduinoFirmware.LedsSafe | esp32/src/main.cpp:648-675 | never two greens; in AUTO/MANUAL one lamp per direction and at least one red |
| ArduinoFirmware.LedsFollowPhase | esp32/src/main.cpp:649-675 | in AUTO/MANUAL each phase lights the lamps its case names |
| ArduinoFirmware.FailsafeFiresIff | esp32/src/main.cpp:682-694 | the mode reverts to AUTO, restarting the phase timer and keeping the phase, exactly when disconnected for more than 10 s and not already in AUTO |
| ArduinoFirmware.ConnectedLoopKeepsMode | esp32/src/main.cpp:200-217 | a pass whose failsafe read sees the link up never triggers the failsafe; it stamps the connection time exactly when the first read also saw the link up, so a reconnecting pass keeps the old stamp |
| ArduinoFirmware.DisconnectedLoopFallsBack | esp32/src/main.cpp:200-217 | a pass that sees the link down at both reads, more than 10 s after the last stamp, ends in AUTO |
| ArduinoFirmware.FreshStampBlocksFallback | esp32/src/main.cpp:200-217 | a pass whose first read sees the link up cannot fall back, even if the link drops before `checkFailsafe` |
| ArduinoFirmware.ReconnectLeavesStaleStamp | esp32/src/main.cpp:200-217 | a pass where `reconnectMQTT` connects keeps the mode, and if the next pass is disconnected it falls back at once when the old stamp is over 10 s old |
| GpioLights.Lights.constructor | esp32_idf/main/gpio_lights.c:39-61 | all twelve pins start low |
| GpioLights.Lights.Set | esp32_idf/main/gpio_lights.c:63-94 | pins become `WithDirection` of the old levels |
| GpioLights.Lights.SetNs | esp32_idf/main/gpio_lights.c:96-99 | pins become `WithNs` of the old levels |
| GpioLights.Lights.SetEw | esp32_idf/main/gpio_lights.c:101-104 | pins become `WithEw` of the old levels |
| GpioLights.Lights.AllOff | esp32_idf/main/gpio_lights.c:106-110 | every pin low |
| GpioLights.Lights.AllRed | esp32_idf/main/gpio_lights.c:112-115 | pins become `WithAllRed` of the old levels |
| GpioLights.Lights.ToggleYellow | esp32_idf/main/gpio_lights.c:117-136 | the yellow state flips and exactly the four yellows follow it |
| GpioLights.SetWritesOnlyItsDirection | esp32_idf/main/gpio_lights.c:63-94 | a valid direction writes its three pins and no other |
| GpioLights.InvalidDirectionChangesNothing | esp32_idf/main/gpio_lights.c:87-88 | an invalid direction leaves every pin |
| GpioLights.NsMirrored | esp32_idf/main/gpio_lights.c:96-99 | north and south get the same three levels; east and west untouched |
| GpioLights.EwMirrored | esp32_idf/main/gpio_lights.c:101-104 | east and west get the same three levels; north and south untouched |
| GpioLights.AllRedShape | esp32_idf/main/gpio_lights.c:112-115 | exactly the four red pins are high |
| GpioLights.ToggleYellowShape | esp32_idf/main/gpio_lights.c:117-136 | each direction shows only its yellow, at the toggled state |
| FsmController.StringToMode | esp32_idf/main/fsm_controller.c:211-223 | always returns a valid mode |
| FsmController.Fsm.Init | esp32_idf/main/fsm_controller.c:128-141 | AUTO, phase 0, lamps initialised to all red |
| FsmController.Fsm.SetMode | esp32_idf/main/fsm_controller.c:143-161 | result and new state are `SetModeStep` of the old state |
| FsmController.Fsm.SetPhase | esp32_idf/main/fsm_controller.c:163-180 | result and new state are `SetPhaseStep` of the old state |
| FsmController.Fsm.ApplyPhase | esp32_idf/main/fsm_controller.c:52-78 | pins become `PhasePins` of the old levels |
| FsmController.Fsm.TaskStep | esp32_idf/main/fsm_controller.c:83-125 | one loop iteration is `Tick` of the old state, timer and pins |
| FsmController.SetModeInvalid | esp32_idf/main/fsm_controller.c:144-146 | an out-of-range mode is refused with no change |
| FsmController.SetModeValid | esp32_idf/main/fsm_controller.c:148-160 | a valid mode is stored and accepted; the phase resets to 0 exactly when AUTO is entered from another mode |
| FsmController.SetPhaseOutOfRange | esp32_idf/main/fsm_controller.c:164-167 | a phase outside 0..5 is refused in every mode |
| FsmController.SetPhaseInRange | esp32_idf/main/fsm_controller.c:169-179 | an in-range phase is accepted iff the mode is MANUAL, and then it is the phase |
| FsmController.StringToModeNames | esp32_idf/main/fsm_controller.c:211-223 | MANUAL, BLINK, OFF map to their modes; every other string and NULL map to AUTO |
| FsmController.ModeStringRoundTrip | esp32_idf/main/fsm_controller.c:196-223 | parsing the name of a valid mode gives the mode back, and the name is never UNKNOWN |
| FsmController.PhasePinsIsTable | esp32_idf/main/fsm_controller.c:52-78 | `apply_phase` rewrites all twelve pins to the reference table whatever they held |
| FsmController.PhaseTableNoConflictingGreens | esp32_idf/main/fsm_controller.c:48-78 | no phase, in range or not, lights an NS green with an EW green |
| FsmController.OutOfRangePhaseIsAllRed | esp32_idf/main/fsm_controller.c:74-76 | phases outside 0..5 fall back to all red |
| FsmController.AutoAdvanceModular | esp32_idf/main/fsm_controller.c:93-107 | in AUTO the phase becomes `(phase + 1) % 6` exactly when its duration has elapsed |
| FsmController.TickNoConflictingGreens | esp32_idf/main/fsm_controller.c:83-125 | after any task iteration in any mode no NS green is lit with an EW green |
| FsmController.TickNonAutoModes | esp32_idf/main/fsm_controller.c:110-121 | outside AUTO an iteration keeps mode, phase and timer; BLINK shows only the toggled yellows and OFF darkens every lamp |
| MqttHandler.CacheSlot | esp32_idf/main/mqtt_handler.c:69-70 | a slot holds a prefix of the id shorter than 64 characters, the whole id when it fits |
| MqttHandler.HandleSpec | esp32_idf/main/mqtt_handler.c:109-179 | keeps the ring well-shaped (32 slots, index in range) |
| MqttHandler.Bounded | esp32_idf/main/mqtt_handler.c:227-228 | the built topic is a prefix of the formatted text shorter than 128 characters |
| MqttHandler.Handler.Init | esp32_idf/main/mqtt_handler.c:223-243 | the cache is 32 empty slots, the index 0, the command topic built from the ids |
| MqttHandler.Handler.IsCached | esp32_idf/main/mqtt_handler.c:59-66 | the search returns true exactly when the id is in some slot |
| MqttHandler.Handler.CacheCmdId | esp32_idf/main/mqtt_handler.c:68-72 | the truncated id lands at the ring index, which advances modulo 32 |
| MqttHandler.Handler.PublishAck | esp32_idf/main/mqtt_handler.c:74-92 | appends exactly one ack |
| MqttHandler.Handler.HandleCommand | esp32_idf/main/mqtt_handler.c:109-179 | FSM state, cache and outbox become `HandleSpec` of the old ones |
| MqttHandler.Handler.OnConnected | esp32_idf/main/mqtt_handler.c:186-196 | connected, activity stamped, online status appended |
| MqttHandler.Handler.OnDisconnected | esp32_idf/main/mqtt_handler.c:198-201 | only the connected flag drops |
| MqttHandler.Handler.OnData | esp32_idf/main/mqtt_handler.c:207-212 | activity stamped; the command is handled exactly when the topic passes the prefix check |
| MqttHandler.Handler.OfflineDurationMs | esp32_idf/main/mqtt_handler.c:280-285 | returns `OfflineDuration` of the flag, last activity and now |
| MqttHandler.Handler.PublishState | esp32_idf/main/mqtt_handler.c:287-304 | one state message when connected, nothing otherwise |
| MqttHandler.Handler.PublishTelemetry | esp32_idf/main/mqtt_handler.c:306-324 | one telemetry message when connected, nothing otherwise |
| MqttHandler.RejectedInputIgnored | esp32_idf/main/mqtt_handler.c:110-124 | unparseable JSON or a non-string `cmd_id`/`type` changes nothing and is not acked |
| MqttHandler.DuplicateAckedWithoutExecution | esp32_idf/main/mqtt_handler.c:131-137 | an id in any slot gets one ok ack and no execution |
| MqttHandler.EmptyIdMatchesUnusedSlot | esp32_idf/main/mqtt_handler.c:59-66 | while a slot is unused an empty `cmd_id` is acked ok without running |
| MqttHandler.FailureOnlyAcks | esp32_idf/main/mqtt_handler.c:173-177 | a failed first-seen command leaves FSM and cache and is acked with its error |
| MqttHandler.FailedExecuteChangesNothing | esp32_idf/main/mqtt_handler.c:139-171 | a failing dispatch never moves the FSM and always names an error |
| MqttHandler.SuccessIsCached | esp32_idf/main/mqtt_handler.c:173-177 | a successful first-seen command is cached at the ring index, cut to 63 characters, and acked ok |
| MqttHandler.CacheInsertKeepsSlotsShort | esp32_idf/main/mqtt_handler.c:68-72 | writing a slot keeps every slot under 64 characters |
| MqttHandler.LongIdNeverFound | esp32_idf/main/mqtt_handler.c:59-70 | an id of 64 or more characters is never found in the cache |
| MqttHandler.LongIdReexecuted | esp32_idf/main/mqtt_handler.c:131-177 | a command with such an id runs again on every redelivery and is acked with that run's outcome |
| MqttHandler.SetModeOutcomes | esp32_idf/main/mqtt_handler.c:142-152 | a string mode always succeeds (unknown names become AUTO); a non-string is ERR_MISSING_MODE |
| MqttHandler.SetPhaseOutcomes | esp32_idf/main/mqtt_handler.c:153-163 | a non-number is ERR_MISSING_PHASE; a number is truncated and accepted only in MANUAL and in 0..5, else ERR_PHASE_REJECTED |
| Json.TruncToInt | esp32_idf/main/mqtt_handler.c:156 | the `(int)` cast truncates toward zero: the result is within one of the value, on the side of zero |
| MqttHandler.FractionalPhaseTruncated | esp32_idf/main/mqtt_handler.c:155-157 | 2.9 selects phase 2 and -0.5 selects phase 0 |
| MqttHandler.EmergencyIsManualAllRed | esp32_idf/main/mqtt_handler.c:164-168 | EMERGENCY always succeeds and leaves MANUAL with phase 2 |
| MqttHandler.UnknownTypeRejected | esp32_idf/main/mqtt_handler.c:169-171 | any other type is ERR_UNKNOWN_TYPE with no change |
| MqttHandler.OneAckPerCommand | esp32_idf/main/mqtt_handler.c:131-177 | every well-formed command yields exactly one ack carrying its id |
| MqttHandler.TopicPrefixAccepted | esp32_idf/main/mqtt_handler.c:209 | the check accepts exactly the prefixes of the command topic, including the empty topic |
| MqttHandler.OfflineDurationFacts | esp32_idf/main/mqtt_handler.c:280-285 | 0 while connected; otherwise the elapsed time as a `uint32_t` |
| MqttHandler.UptimeWholeSeconds | esp32_idf/main/mqtt_handler.c:55-57 | uptime counts whole seconds since init |
| AppMain.Publisher.constructor | esp32_idf/main/app_main.c:32-35 | both timestamps 0 and the latch clear |
| AppMain.Publisher.Step | esp32_idf/main/app_main.c:37-66 | one iteration is `PublisherStep` of the old state; the id cache is untouched |
| AppMain.FallbackFiresIff | esp32_idf/main/app_main.c:40-48 | the latch goes from clear to set, and AUTO is forced, exactly when disconnected past the timeout |
| AppMain.LatchClearAndHold | esp32_idf/main/app_main.c:41-51 | connection clears the latch; disconnection never clears it |
| AppMain.StateSchedule | esp32_idf/main/app_main.c:53-57 | state is published and its timestamp moved exactly when the interval has passed |
| AppMain.TelemetrySchedule | esp32_idf/main/app_main.c:59-63 | telemetry likewise; at most two messages per iteration |
| AppMain.LatchedNeverFires | esp32_idf/main/app_main.c:43-47 | once latched the fallback never fires again during the outage |
| AppMain.FallbackAtMostOncePerOutage | esp32_idf/main/app_main.c:40-51 | over any run of disconnected iterations the fallback fires at most once |
| RttRecords.Pending | logger/tools/run_benchmark_report.py:178-188 | a new record has its send time and no ack time or round-trip time |
| RttRecords.AckStep | logger/tools/run_benchmark_report.py:123-133 | handling an ack keeps the dict well-formed and never adds or removes a key |
| RttRecords.Rtts | logger/tools/run_benchmark_report.py:233 | never more samples than records |
| RttRecords.AckHandling | logger/tools/logger.py:72-92 | a non-empty string id that has a record gets ack time t_recv, rtt = t_recv − t_send and one more received, other records kept; any other payload changes nothing |
| RttRecords.RepeatedAckCountsTwice | logger/tools/logger.py:80-85 | a second ack for the same id counts again and overwrites the rtt |
| RttRecords.RttsAppend | logger/tools/run_benchmark_report.py:233 | appending a record appends its rtt, if any, to the samples |
| RttRecords.RttsReplace | logger/tools/run_benchmark_report.py:233 | replacing a record adds at most one sample |
| RttRecords.SamplesBoundedAfterAck | logger/tools/run_benchmark_report.py:123-133 | handling an ack keeps the number of samples within the received count |
| RttRecords.SamplesBoundedAfterSend | logger/tools/run_benchmark_report.py:178-188 | recording a send keeps that bound |
| BenchmarkReport.PayloadBytes | logger/tools/run_benchmark_report.py:234 | one payload size per record |
| BenchmarkReport.Percentile | logger/tools/run_benchmark_report.py:260-262 | the clamped nearest-rank index always selects one of the samples |
| BenchmarkReport.NatToString | logger/tools/run_benchmark_report.py:671 | decimal rendering is non-empty, one digit exactly below 10 |
| BenchmarkReport.BuildCases | logger/tools/run_benchmark_report.py:668-690 | one case per pad named "Case i+1" with its description and not expected to be rejected, plus the oversize case last when requested |
| BenchmarkReport.RttBenchmark.constructor | logger/tools/run_benchmark_report.py:106-107 | no records, received 0 |
| BenchmarkReport.RttBenchmark.Reset | logger/tools/run_benchmark_report.py:142-143 | no records, received 0 |
| BenchmarkReport.RttBenchmark.RecordSend | logger/tools/run_benchmark_report.py:178-188 | the record dict gains or replaces the pending record for the id |
| BenchmarkReport.RttBenchmark.SendCase | logger/tools/run_benchmark_report.py:164-196 | every sent id holds a pending record of the case, and exactly the record of its own send (time, sizes) unless a later send reused the id; other records kept; no key beyond the old ones and the sent ids; received unchanged |
| BenchmarkReport.PendingStep | logger/tools/run_benchmark_report.py:164-188 | one more send keeps every id sent so far mapped to a pending record of the case |
| PyDict.HoldsLatestStep | logger/tools/run_benchmark_report.py:178-188 | after one more `d[k] = v`, every assignment so far that no later one overwrote is still in place |
| PyDict.OnlyAssignedStep | logger/tools/logger.py:150-158 | after one more `d[k] = v`, every key not assigned so far keeps its earlier value, and every key is either an earlier one or one assigned so far |
| BenchmarkReport.RttBenchmark.OnMessage | logger/tools/run_benchmark_report.py:123-133 | records and received count become `AckStep` of the old ones |
| BenchmarkReport.NoSamplesResult | logger/tools/run_benchmark_report.py:239-249 | without samples: received 0, lost = sent, 100% loss, no figures, PASS exactly for an expected reject |
| BenchmarkReport.VerdictWithSamples | logger/tools/run_benchmark_report.py:270-277 | with samples: sent > 0, lost = sent − received, loss = lost/sent·100; PASS iff not an expected reject and loss < 1%; the std never changes the verdict |
| BenchmarkReport.SamplesSorted | logger/tools/run_benchmark_report.py:251-295 | the reported samples are the sorted round-trip times and min/max bound them |
| BenchmarkReport.OutliersAreTopSamples | logger/tools/run_benchmark_report.py:266-268 | the outliers are exactly the top samples above the threshold |
| BenchmarkReport.RankMonotone | logger/tools/run_benchmark_report.py:260-262 | a higher percentile never has a lower rank |
| BenchmarkReport.PercentileMonotone | logger/tools/run_benchmark_report.py:260-262 | percentiles are ordered and lie between the least and greatest sample |
| BenchmarkReport.P50IsUpperMiddle | logger/tools/run_benchmark_report.py:255-262 | p50 is the upper middle sample, equal to the median for odd counts |
| BenchmarkReport.P95AboveMiddle | logger/tools/run_benchmark_report.py:260-264 | p95 is at least the middle sample |
| BenchmarkReport.AtMostHalfAreOutliers | logger/tools/run_benchmark_report.py:266-268 | for non-negative samples at most half are outliers |
| BenchmarkReport.DuplicateAckMasksLoss | logger/tools/run_benchmark_report.py:128-131 | two acks for one sent command give received 2, lost -1, loss -100% and PASS |
| BenchmarkReport.NatToStringInjective | logger/tools/run_benchmark_report.py:671 | different numbers render differently |
| BenchmarkReport.CaseNamesDistinct | logger/tools/run_benchmark_report.py:671-682 | case names are pairwise distinct |
| SampleStats.Sort | logger/tools/run_benchmark_report.py:251 | the result is sorted and a permutation of the input |
| SampleStats.SeqMin | logger/tools/run_benchmark_report.py:288 | `min(rtts)` is a sample and at most every sample |
| SampleStats.SeqMax | logger/tools/run_benchmark_report.py:289 | `max(rtts)` is a sample and at least every sample |
| SampleStats.Median | logger/tools/run_benchmark_report.py:255 | lies between the two middle samples, is the middle one for odd counts and equidistant from both for even counts |
| SampleStats.CountAbove | logger/tools/run_benchmark_report.py:268 | never more than the number of samples |
| SampleStats.CountAboveAll | logger/tools/run_benchmark_report.py:268 | counts every sample when all exceed the bound |
| SampleStats.CountAboveIsTopSuffix | logger/tools/run_benchmark_report.py:268 | on sorted samples the counted ones are exactly a top suffix |
| BenchLogger.Pad | logger/tools/logger.py:124-125 | `"x" * n` is n characters, all x |
| BenchLogger.LeadingConnected | logger/tools/logger.py:138-141 | the number of sends is at most the count, all made while connected, and stops at the first disconnect seen |
| BenchLogger.P95Index | logger/tools/logger.py:211 | the unclamped `int(n * 0.95)` is always a valid index for n > 0 |
| BenchLogger.BenchmarkState.constructor | logger/tools/logger.py:41-47 | empty records, zero counts, not done |
| BenchLogger.BenchmarkState.RecordSend | logger/tools/logger.py:149-160 | the record for the id is set and `sent_count` goes up by one |
| BenchLogger.BenchmarkState.SendLoop | logger/tools/logger.py:138-171 | `sent_count` grows by the sends made before the first disconnect seen; each sent id holds its command's pending record unless a later send reused the id; every other earlier record is kept unchanged; no key exists beyond the earlier keys and the sent ids, so the key count grows by at most the number of sends |
| BenchLogger.BenchmarkState.OnMessage | logger/tools/logger.py:72-92 | records and received count become `AckStep` of the old ones |
| BenchLogger.BenchmarkState.WaitForAcks | logger/tools/logger.py:175-181 | leaves at the first poll with all acks in or 5 s passed, then `done` |
| BenchLogger.BuildCommandShape | logger/tools/logger.py:106-127 | a truthy mode wins, then a given phase, else SET_MODE AUTO; `pad` present exactly when `pad_bytes > 0` |
| BenchLogger.RecordedSendShape | logger/tools/logger.py:149-159 | a recorded send is pending, carries the command's mode or phase, and its type as note |
| BenchLogger.SendLoopStops | logger/tools/logger.py:138-141 | all sends happen when every pass sees the flag set; fewer only after a pass sees it cleared |
| BenchLogger.NoSamplesStatistics | logger/tools/logger.py:188-199 | without samples: received 0, lost = sent, 100% loss, no figures |
| BenchLogger.SampledStatistics | logger/tools/logger.py:201-214 | with samples, sent > 0 and the figures are those of the sorted samples, min and max bounding every sample |
| BenchLogger.SampledFigures | logger/tools/logger.py:204-214 | lost = sent − received, loss in percent, median as in the source, p95 = sorted[int(n·0.95)] |
| BenchLogger.MinMaxBound | logger/tools/logger.py:212-213 | the least and greatest sorted sample bound every sample |
| BenchLogger.P95AgreesWithReport | logger/tools/logger.py:211 | the logger's unclamped p95 is the same sample as the benchmark report's clamped one |
| BenchLogger.SamplesWithinReceived | logger/tools/logger.py:72-92 | sends and acks keep `|records| ≤ sent_count` and samples ≤ received |
| AnalyzeResults.Received | logger/tools/analyze_results.py:44 | the received count never exceeds the row count |
| AnalyzeResults.ExitCode | logger/tools/analyze_results.py:271 | the exit code is 0 or 1 |
| AnalyzeResults.ReceivedAll | logger/tools/analyze_results.py:44 | every row has an rtt exactly when received equals the row count |
| AnalyzeResults.ReceivedNone | logger/tools/analyze_results.py:44 | no row has an rtt exactly when received is 0 |
| AnalyzeResults.ReceivedAppend | logger/tools/analyze_results.py:44 | the count of two blocks of rows adds up |
| AnalyzeResults.CountsAndLoss | logger/tools/analyze_results.py:43-54 | received + lost = total, lost ≥ 0; loss 0 for an empty file, otherwise lost/total·100 in [0, 100] |
| AnalyzeResults.FiguresIffSamples | logger/tools/analyze_results.py:56-74 | figures are present exactly when some row has an rtt |
| AnalyzeResults.VerdictAndExitCode | logger/tools/analyze_results.py:143-170 | pass iff samples exist and mean, p95 and loss are each ≤ their threshold; exit 0 exactly then |
| AnalyzeResults.EmptyFileFails | logger/tools/analyze_results.py:53 | an empty CSV reports 0% loss yet exits 1 |
| RunExperiments.NoSamplesCase | logger/tools/run_experiments.py:105-123 | without samples: FAIL "Timeout/no-ack", lost = sent, 100% loss |
| RunExperiments.SampledCase | logger/tools/run_experiments.py:125-140 | with samples: rows exist, received = non-null count, lost the rest, loss = lost/sent·100 |
| RunExperiments.CaseStatus | logger/tools/run_experiments.py:138-139 | PASS iff samples exist and loss < 1 (strict); a sampled FAIL gives "Loss >= 1%" |
| RunExperiments.OverallVerdict | logger/tools/run_experiments.py:218-230 | PASS "-" iff figures exist and mean < 200, p95 < 500, loss < 1; no figures gives FAIL "Timeout/no-ack", else "Thresholds not met" |
| RunExperiments.OverallPassImpliesCasePass | logger/tools/run_experiments.py:221-227 | an overall PASS implies the case's own status is PASS |
| RunExperiments.AnalysersAgree | logger/tools/run_experiments.py:125-130 | on the same rows both analysers agree on counts and, for non-empty files, on loss; an empty file is 0% in one and 100% in the other |
| RunExperiments.OnePercentBoundary | logger/tools/run_experiments.py:138 | exactly 1% loss passes the analyser's `<=` threshold (exit 0) but fails the runner's strict `<` |

## Left out

- MQTT transport is not modelled: connecting, subscribing, QoS, retained flags, Last Will,
  PubSubClient/esp-mqtt/paho clients, `reconnectMQTT`, `setupWiFi` and the Wi-Fi manager.
  Published messages are only appended to an outbox.
- The Arduino `publishState`, `publishOnlineStatus`, the `wasConnected` latch and the periodic
  state publish in `loop()` are not modelled. Each loop pass takes two parameters for its
  two `mqtt.connected()` reads: the one before `reconnectMQTT` and the one in `checkFailsafe`.
  Whether `reconnectMQTT` succeeds in between is left to the caller.
- JSON encoding and decoding are not modelled. A payload whose top level is not an object is
  not modelled, and neither is cJSON's case-insensitive key lookup. ArduinoJson's 256-byte
  document limit is not modelled either.
- Concurrency is not modelled (locks, FreeRTOS tasks and mutexes, callbacks running beside
  loops). Each handler call and each loop iteration is one sequential step.
- Sleeps and delays are not modelled. Only the exit conditions of the wait loops are: the
  logger's 5 s ack wait is `BenchmarkState.WaitForAcks`. The report tool's 5 s connection wait
  and 10 s ack wait are not modelled.
- FreeRTOS tick-count wrap-around is not modelled. `esp_timer` values are unbounded integers.
- Json.TruncToInt: C's `(int)` cast of a double outside the range of `int` is undefined
  behaviour; the model truncates the exact value. A phase that large fails the 0..5 check in
  the model, while the C result is not defined.
- Floating point is modelled as exact reals:
  - the mean and median divisions;
  - the loss-rate percentages;
  - the products `n * 0.95` (integer division by 100 gives the same index);
  - the `< 1`/`>= 1` comparisons.
- The standard deviation (`variance ** 0.5`) is a parameter. So are all pandas figures in the
  CSV analyser and the experiment runner (`min`, `max`, `mean`, `median`, `std`, quantiles).
- An exception escaping a paho callback ends paho's network thread: the mock and the logger
  start it with `loop_start()` and leave exceptions unsuppressed, so no later message reaches
  them. The model does not capture this and goes on handling later messages. Each message
  that raises is modelled up to the point where Python raises:
  - for a missing or falsy `cmd_id` the mock publishes the ack and then fails on `None[:8]`;
    the model keeps the ack;
  - for an id that is neither a string nor a list, the mock publishes the ack and then fails
    on `cmd_id[:8]`. A first-seen id has also been executed and cached by then. The model keeps
    all of that and drops only the state message that would have followed;
  - in the logger, an unhashable `cmd_id` (a list or an object) fails in
    `cmd_id in state.records`; the model treats it as matching no record;
  - a payload whose top level is not an object fails at `payload.get`; such payloads are not
    modelled (see above).
- MockEsp32.Mock.OnDisconnect: the TypeError that the five-argument call raises ends the
  network thread, as any escaping callback exception does (above), and `stop()` raises it
  again from `client.disconnect()`. Neither is modelled. Because the state loop starts only
  after `connected` is set and the flag is never cleared, `StateLoopStep` always sees it set;
  the "while disconnected" case of `MockEsp32.StateTickModes` describes code that never runs.
- BenchLogger.BenchmarkState.SendLoop: `state.connected` is set by `on_connect` and never
  cleared, since `on_disconnect` raises before its body (above). So every sequence the
  program can produce is all true, and the break at logger.py:139-141 cannot fire on a lost
  connection. The contract covers every sequence, that one included. After a lost connection
  the loop goes on recording all `count` commands (the result of `client.publish` is ignored),
  which is the all-true case of `BenchLogger.SendLoopStops`; their acks never come, so they
  count as lost.
- Python compares `1 == 1.0 == True`, so the mock's deque membership test matches across
  number and boolean types. The model compares JSON values structurally.
- CSV writing and reading are not modelled, including `rtt_ms or ''`, which writes a 0 ms
  round trip as an empty cell. Report and summary rendering, plots, printing, argparse,
  `run_case` and the missing-file branch of `analyze_case` are not modelled either.
- The mock's random telemetry values are not modelled. The ESP-IDF telemetry message omits
  RSSI and free heap.
- SvgGen.PhaseName: the property names an array inherits are those of ECMAScript 2023, as in
  Node.js 20. An older runtime lacks `findLast`, `findLastIndex`, `toReversed`, `toSorted`,
  `toSpliced` and `with`, and labels those keys "UNKNOWN". A native function renders as V8
  prints it.
- BenchmarkReport.Analyze: `std` is a parameter rather than computed, so the outlier threshold
  is stated for any given non-negative `std`.
- RttRecords.AckStep: for an unparseable payload it states the bare-`except` behaviour of the
  report tool. The logger catches only JSON decode errors, and its other exceptions are not
  modelled (see above).
