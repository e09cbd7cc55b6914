# BluesScooter controller, modelled in Dafny

This project models the decision logic of the Blues Scooter firmware in `src/BluesScooter.cpp` and the SMS handler in `svc/notecard-signal.js`, and proves properties of the model.

On the firmware side the model covers:

- the Wi-Fi credential callback (`envVarManagerCb`);
- battery sampling and the telemetry note (`sampleSensors`, `queueReadingsToNotecard`);
- the fail-safe ignition query (`ignition`);
- the power-mode request sequences (`mcuSleep`, `mcuWake`);
- the streaming-mode body of `loop()`, with its 15-second gate and its signal drain that sounds the horn.

On the Twilio side it covers the three-way classification of an inbound SMS.

The programme's global state is one object, `Scooter.Controller`. Its fields are:

- `wifi_ssid` and `wifi_password`, optional NUL-free strings;
- `last_sample_ms`, a 32-bit unsigned clock value;
- `sent`, an append-only log of every request handed to the Notecard;
- `horn`, the horn pin level;
- `horn_trace`, a log of pin writes and holds.

Each request is a `Relay.Emitted` value. It records:

- the name;
- the fields, as a J* value tree;
- whether it was built with `newRequest` or `newCommand`;
- how it was sent: `sendRequest`, `sendRequestWithRetry(req, 5)` or `requestAndResponse`.

Everything the hardware, the clock or the Notecard decides is an explicit input:

- whether each `newRequest`, `newCommand`, `JAddArrayToObject` or `JAddObjectToObject` came back non-null;
- the reply to `requestAndResponse`;
- the ADC value;
- the two `millis()` readings;
- the pairs the environment-variable fetch delivers to the callback;
- the byte counts returned by the signal reads.

Module layout:

- `CStrings` defines C-library semantics for strcmp, strncmp, strnlen and strlcpy, and proves them equal to prefix and length statements.
- `Credentials` holds the per-call credential specification.
- `Battery` holds the clamp, the percentage (over the reals) and `note.add`.
- `Ignition` holds the response walk.
- `PowerMode` holds the sleep/wake sequences, plus a reading of what their `hub.set`/`card.attn` fields configure.
- `Timing` holds the wrap-around elapsed time.
- `Horn` holds the pulse trace.
- `Scooter` holds the controller class and the full sampling cycle.
- `SmsSignal` holds the Twilio handler.

Three behaviours of the code are worth stating up front:

- **Over-long credentials are cut, not rejected.** The guard `256 < strnlen(val, 255)` at lines 102 and 115 can never hold, so a long value is stored as its first 255 bytes (`Credentials.NeverTooLong`).
- **One `card.wifi` per changed value.** `update_wifi` is local to each callback call (line 97), so a fetch that changes both credentials sends two requests (`Credentials.ApplyAllSendsOnePerChange`, `Credentials.FirstFetchSendsTwo`).
- **The 15-second gate is strict.** Line 318 runs the cycle only when the elapsed time is `> 15000`, so exactly 15000 ms is not enough.

## Model

| member | source | states |
|---|---|---|
| CStrings.StrCmpEqualIsEqual | src/BluesScooter.cpp:99 | strcmp(a, b) == 0 holds exactly when the two strings are equal |
| CStrings.StrNCmpEqualIsPrefixEqual | src/BluesScooter.cpp:100 | strncmp(a, b, n) == 0 holds exactly when the first n bytes of both strings are equal |
| CStrings.StrNLenIsMin | src/BluesScooter.cpp:102-105 | strnlen(s, n) is min(length, n) |
| CStrings.StrLCpyIsPrefix | src/BluesScooter.cpp:105-107 | strlcpy with size n+1 stores exactly the first min(length, n) bytes of the source |
| Credentials.OnVariable | src/BluesScooter.cpp:99-131 | one callback asks for an update exactly when it changes the stored credentials; it changes at most one of the two; an unknown name changes nothing |
| Credentials.ApplyAll | src/BluesScooter.cpp:95-141 | over a run of callbacks at most one request per call goes out, and every one is a card.wifi sent with sendRequest |
| Credentials.NeverTooLong | src/BluesScooter.cpp:102-103 | the "too long" guard never holds for any value, so the error branch is unreachable |
| Credentials.ChangedIsStored | src/BluesScooter.cpp:99-128 | a recognised name whose value is new or differs in its first 255 bytes stores the first min(len,255) bytes of the value (a prefix of it); this asks for an update and leaves the other credential alone |
| Credentials.UnchangedIsNoop | src/BluesScooter.cpp:99-131 | a value equal in its first 255 bytes, or an unknown name, changes nothing and asks for no update |
| Credentials.OnVariableIdempotent | src/BluesScooter.cpp:100-113 | delivering the same pair a second time changes nothing and sends nothing |
| Credentials.OnVariableKeepsValid | src/BluesScooter.cpp:105-120 | both stored values stay within 255 bytes |
| Credentials.ApplyAllKeepsValid | src/BluesScooter.cpp:95-141 | over any run of callbacks both stored values stay within 255 bytes |
| Credentials.ApplyAllSendsOnePerChange | src/BluesScooter.cpp:97-139 | over a run of callbacks, one card.wifi goes out per change (when built) and nothing else; never more than one per call |
| Credentials.FirstFetchSendsTwo | src/BluesScooter.cpp:133-139 | ssid "CES2023" then password "xxxxxxxx" from nothing stored sends two card.wifi requests, the first with a null password |
| Scooter.Controller.StrCmp | src/BluesScooter.cpp:99 | the strcmp test on the variable name is true exactly for equal names |
| Scooter.Controller.ReplaceIfChanged | src/BluesScooter.cpp:100-110 | the compare/guard/strlcpy block reports a change exactly when the value differs in its first 255 bytes, and then yields its 255-byte prefix; otherwise the buffer is kept |
| Scooter.Controller.EnvVarManagerCb | src/BluesScooter.cpp:95-141 | new credentials are those of the per-call specification; the log grows by exactly one card.wifi carrying both current credentials iff a value changed and the request was built; buffers stay within 255 bytes |
| Scooter.Controller.FetchEnvVars | src/BluesScooter.cpp:319 | the fetch entry is logged, then the callback runs once per delivered pair, in order |
| Battery.Clamp | src/BluesScooter.cpp:263-268 | the stored reading lies in [500,800], equals the ADC value when that is in range, and is the nearest point of the range otherwise |
| Battery.Percentage | src/BluesScooter.cpp:272 | the percentage is in [0,100] and three times it is raw - 500 |
| Battery.Sample | src/BluesScooter.cpp:259-272 | a sample's reading is in [500,800] and its percentage in [0,100] |
| Battery.PercentageEnds | src/BluesScooter.cpp:270-272 | 500 gives 0, 650 gives 50, 800 gives 100 and 620 gives 40 |
| Battery.SampleMonotone | src/BluesScooter.cpp:263-272 | a higher ADC value never gives a lower reading or percentage |
| Battery.PercentageStrict | src/BluesScooter.cpp:272 | inside the range the percentage is strictly increasing |
| Battery.NoteAdd | src/BluesScooter.cpp:241-254 | note.add via sendRequest; when the body object is attached, body.raw_battery_reading and body.battery_percentage hold the readings; otherwise the request has no fields |
| Scooter.Controller.SampleSensors | src/BluesScooter.cpp:259-276 | returns the clamped reading and its percentage; last_sample_ms becomes the current time |
| Scooter.Controller.QueueReadingsToNotecard | src/BluesScooter.cpp:241-257 | appends exactly the note.add request when newRequest succeeded, nothing otherwise, and returns 0 |
| Relay.FirstMember | src/BluesScooter.cpp:154 | item lookup returns the value of the first member with that key, or nothing when no member has it |
| Relay.Member | src/BluesScooter.cpp:157 | a key lookup on anything but an object finds nothing |
| Relay.Item | src/BluesScooter.cpp:156 | GetArrayItem on an array yields element i iff i is in range; on an object it yields the value of the i-th member; on anything else nothing |
| Ignition.ParseIgnition | src/BluesScooter.cpp:153-162 | the reply reads as on exactly when it exists, state is an array, element 0 exists and its high is the literal true |
| Ignition.IgnitionState | src/BluesScooter.cpp:143-168 | ignition() is true only when the request was built, the usage array attached, a reply returned and the state path holds true; false in every other case |
| Ignition.IgnitionLog | src/BluesScooter.cpp:146-153 | card.aux {mode: gpio, usage: [input, off, off, off]} is sent with requestAndResponse iff both allocations succeeded |
| Ignition.StateObjectIsOff | src/BluesScooter.cpp:155 | a state that is an object reads as off even though GetArrayItem would find a member |
| Ignition.MistypedHighIsOff | src/BluesScooter.cpp:157-158 | a high that is the number 1 rather than true reads as off |
| Ignition.HighReplyIsOn | src/BluesScooter.cpp:154-158 | the well-formed reply with high true reads as on, extra members notwithstanding |
| Scooter.Controller.QueryIgnition | src/BluesScooter.cpp:143-169 | returns the fail-safe ignition state and logs the card.aux query only when it was sent |
| PowerMode.SleepLog | src/BluesScooter.cpp:175-203 | mcuSleep sends one request per successful allocation, each in its own position: hub.set first, hub.sync next (first when hub.set was not built), card.attn last |
| PowerMode.WakeLog | src/BluesScooter.cpp:210-214 | mcuWake sends exactly one request iff it was built, and it is a hub.set with mode continuous |
| PowerMode.SleepConfigures | src/BluesScooter.cpp:175-203 | after mcuSleep with hub.set built the relay is periodic with outbound and inbound 15, and re-armed on the AUX GPIO when card.attn went out |
| PowerMode.SleepIdempotent | src/BluesScooter.cpp:171-204 | issuing mcuSleep again leaves the configuration it produced unchanged |
| PowerMode.WakeConfigures | src/BluesScooter.cpp:210-214 | mcuWake makes the relay continuous and synced, other settings untouched |
| Scooter.Controller.McuSleep | src/BluesScooter.cpp:171-204 | appends hub.set (periodic, 15, 15, 5 s retry), hub.sync {allow:true}, card.attn command {mode:"rearm,auxgpio"} in that order, each only if built |
| Scooter.Controller.McuWake | src/BluesScooter.cpp:206-227 | appends hub.set {mode: continuous, sync: true} if built, and returns 0 |
| Timing.Elapsed | src/BluesScooter.cpp:318 | the unsigned difference is now - last, or now + 2^32 - last across a rollover |
| Timing.ElapsedMeasuresAdvance | src/BluesScooter.cpp:318 | for any real span d under 2^32 ms the difference equals d, so the cycle is due iff d > 15000 |
| Timing.RolloverExample | src/BluesScooter.cpp:318 | a sample 256 ms before the rollover is not due at 14000 and is due at 15000 |
| Horn.Pulses | src/BluesScooter.cpp:335-341 | the horn trace has at most three entries per read and, once anything was written, ends with the horn LOW |
| Horn.PulsesPerSignal | src/BluesScooter.cpp:335-341 | the horn trace has one HIGH/250 ms/LOW pulse per read with a nonzero count and nothing else |
| Horn.EmptyReadIsSilent | src/BluesScooter.cpp:234-236 | a zero-length read adds nothing to the horn trace |
| Scooter.Controller.DrainSignals | src/BluesScooter.cpp:229-238 | each processSignals read with a nonzero count drives one pulse; the horn is LOW afterwards |
| Scooter.Controller.SamplingCycle | src/BluesScooter.cpp:318-331 | logs exactly the cycle's requests in order; credentials follow the callbacks; last_sample_ms is the sample time |
| Scooter.Controller.Loop | src/BluesScooter.cpp:315-341 | the sampling cycle runs iff the 32-bit elapsed time exceeds 15000; otherwise credentials, clock and log are untouched; the signal drain runs every pass |
| Scooter.CycleLog | src/BluesScooter.cpp:318-330 | a cycle starts with the env-var fetch; with the ignition on it ends with the card.aux query, with it off and card.attn built it ends with card.attn |
| Scooter.CycleOrder | src/BluesScooter.cpp:318-330 | with every request built the log is: the fetch, one card.wifi per change, note.add, card.aux, then the three sleep requests exactly when the ignition is off |
| Scooter.CycleNeverWakes | src/BluesScooter.cpp:327-330 | loop never issues mcuWake's hub.set; the only hub.set it sends is the periodic one |
| Scooter.CyclePowerMode | src/BluesScooter.cpp:326-330 | with the ignition on a cycle leaves the relay configuration as it was; with it off and hub.set built it becomes periodic 15/15 |
| Scooter.EndToEndSleep | src/BluesScooter.cpp:318-330 | raw 620 with no card.aux reply logs the fetch, note {620, 40.0}, card.aux, then the sleep sequence |
| Scooter.Controller.constructor | src/BluesScooter.cpp:36-46 | nothing stored, last_sample_ms 0, nothing sent, horn LOW |
| SmsSignal.LowerChar | svc/notecard-signal.js:10 | only ASCII capitals change, each to its lower-case letter |
| SmsSignal.Lower | svc/notecard-signal.js:10 | lowercasing keeps the length and maps every character |
| SmsSignal.Includes | svc/notecard-signal.js:15 | a string includes only needles no longer than itself, and always the empty needle |
| SmsSignal.IncludesAt | svc/notecard-signal.js:15 | includes holds exactly when the needle occurs at some position |
| SmsSignal.EmojiSurvivesLower | svc/notecard-signal.js:10-15 | the lowercased body contains U+1F6F5 exactly when the original body does |
| SmsSignal.Handler | svc/notecard-signal.js:4-51 | the callback is invoked exactly once; at most one POST, and it is the signal POST; an error is passed on (with no reply) exactly when the POST failed; otherwise exactly one reply message |
| SmsSignal.EmojiSignals | svc/notecard-signal.js:15-41 | a body with the emoji makes exactly one hub.device.signal POST to api.notefile.net with the fixed product and device and an empty body, even if it also says "test"; the reply is the Blues message on success, and the error is passed on with no reply on failure |
| SmsSignal.TestGreets | svc/notecard-signal.js:42-44 | without the emoji, a lowercased body containing "test" gets "Hello there!" and no POST |
| SmsSignal.OtherwiseUnknown | svc/notecard-signal.js:45-48 | any other body gets "Not sure what you meant!?" and no POST |
| SmsSignal.UpperCaseTest | svc/notecard-signal.js:10-44 | "TEST" gets "Hello there!" |

## Left out

- `configureNotecard` and `setup()` are one-time initialisation: pin modes, the debug-serial wait, the env-var manager allocation, and the single `mcuWake` at start-up. The constructor gives the state before them.
- The non-`STREAM_SIGNALS` branch of `loop()` (the `hub.signal` poll and `delay(5000)`) is compiled out by the `#define` at line 15.
- `NotecardEnvVarManager_fetch` is not part of this model. It appears as one `EnvFetch` log entry followed by zero or more callback invocations, given as input.
- The Notecard transport is not modelled: `sendRequest` results, `sendRequestWithRetry` timing, and what the relay does with a request. `PowerMode.HubConfig` is only a reading of the `hub.set`/`card.attn` fields, not the relay firmware.
- J* library behaviour is not modelled beyond the lookups the ignition walk uses:
  - `JGetObjectItem` is treated as an exact key match; cJSON's case-insensitive lookup is not modelled.
  - Failures of `JAddStringToObject`, `JAddIntToObject` and the like are not modelled. Only the pointers the source checks (`pins`, `body`) are inputs.
- A credential that is still null appears in `card.wifi` as `OptStr(None)`. What `JCreateString(nullptr)` really produces is not modelled.
- Arduino hardware is not modelled: `analogRead`, `millis`, `delay`, `digitalWrite`. Their values are inputs, and the horn writes and the 250 ms hold are trace entries.
- `processSignals`: `readBytesUntil` and `available` are library code. They are modelled as a given sequence of byte counts, each at most 256. The signal text and its log line are not modelled.
- `battery_percentage` is computed over the reals, without float rounding.
- Each character of a `CStrings.CString` stands for one byte of the C string. UTF-8 text is given as its bytes, one character per byte. The type does not enforce values below 256; a caller passing a wider character gets a per-character reading of strnlen, strncmp and strlcpy, not a per-byte one.
- Debug log text is not modelled. That includes the password mask, which prints `strnlen + 1` asterisks.
- Memory management is not modelled: `delete` of a `new[]` buffer and the dangling pointer on the unreachable "too long" path. Buffers are values. On that unreachable path the model stores `None`.
- In `svc/notecard-signal.js` these are abstracted: the axios request headers and session token, `console` output, the Twilio `MessagingResponse` object (only its messages are kept), and a missing `event.Body`.
- Lower: implements only the ASCII part of JavaScript `toLowerCase`. No other character is lower-cased.
- SmsSignal.Handler: strings are sequences of code points, not of UTF-16 code units. For well-formed text, searching for the emoji gives the same answer either way.

