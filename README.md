# Biometric stream pipeline of the NeuroFlow dashboard, in Dafny

This project models the core of a browser dashboard that streams
heart-rate and skin-conductance (GSR) readings, derives a stress score,
keeps a rolling one-minute window of samples and asks a remote language
model for coping advice when stress stays high.

The model covers four parts of the application:

- `Session` (hooks/useBiometrics.ts) is the biometrics hook. A class
  `Biometrics` holds the connection status, the rolling window, whether the
  simulation interval is held, and the random-walk state of the synthetic
  sensor. Its methods are `ConnectVirtual`, `StartVirtualStream` (the
  1500 ms handshake callback), `Tick` (one firing of the 1 Hz interval),
  `StopSimulation` and `Disconnect`. Every method keeps the invariant
  `Valid()`. The invariant says:
  - the status is one the hook assigns;
  - the window holds at most 60 points;
  - the walkers are inside their clamp ranges;
  - every point in the window is plausible.
- `Window` is the hook's `addDataPoint`, a pure function on sequences.
  `Sensor` is the arithmetic of one tick, written as specification
  functions. `Tick` is proved against those functions.
- `GeminiService` (services/geminiService.ts) covers the API-key guard,
  the four-field summary of the window, and the empty-response guard. The
  remote model is a function from the summary to its reply.
- `Coach` (components/AICoach.tsx) holds the advice panel's state as a
  class `AdviceCoach`. The awaited request is split into `StartRequest`
  and `Settle`. The automatic trigger and the button gate are predicates.
- `Dashboard` (App.tsx) holds the displayed point and the derived
  `isConnected`, `isConnecting` and `isHighStress` flags.

`Types` transcribes types.ts and constants.ts. `JsMath` states
`Math.round`, `toFixed(2)` and the `Math.max`/`Math.min` clamp on exact
reals.

Behaviour worth knowing:

- The synthetic stress is `((hr-50)/90*0.6 + (gsr-0.5)/10*0.4)*100`,
  computed on the clamped, unrounded values. It normalises heart rate on
  50..140 and conductance on 0.5..10.5, and it is not capped. It ranges over
  [0, 118] (`Sensor.StressExceedsHundred`). For example, heart rate 90 and
  conductance 4.0 give a rounded score of 41 (`Sensor.StressAtNinetyAndFour`).
- The automatic advice path has no five-sample gate. It only needs a
  non-empty window (`Coach.ManualIgnoresCooldown`).
- An advice result that arrives after a disconnect is not discarded. The
  panel has no notion of a session.
- The hook never sets `CONNECTED` or `ERROR`. `connectVirtual` sets
  `CONNECTING` from any status.

## Model

| member | source | states |
|---|---|---|
| `JsMath.Round` | services/geminiService.ts:20 | `Math.round` gives the integer within half a unit of its argument, halves going up |
| `JsMath.ToFixed2` | services/geminiService.ts:21 | `toFixed(2)` read as a number is a whole number of hundredths within 0.005 of the input, and non-negative for non-negative input |
| `JsMath.Clamp` | hooks/useBiometrics.ts:73-74 | `Math.max(lo, Math.min(hi, x))` lies in [lo, hi], is x when x is already inside, lo below the range and hi above it |
| `Window.AddDataPoint` | hooks/useBiometrics.ts:32-40 | the new window has length min(n+1, 60), so never more than 60, and ends with the new point; below capacity it is the old window plus the point, nothing dropped |
| `Window.AddDropsOldest` | hooks/useBiometrics.ts:34-37 | at or over capacity the new window is the old one minus its oldest elements, in the same order, plus the point |
| `Window.AppendAllKeepsNewest` | hooks/useBiometrics.ts:32-40 | FIFO law: any run of appends to a window within capacity leaves exactly the newest 60 of everything appended |
| `Window.SixtyFiveAppends` | hooks/useBiometrics.ts:32-40 | 65 appends to an empty window leave points 6..65: length 60, newest present, five oldest gone |
| `Sensor.NextHeartRate` | hooks/useBiometrics.ts:60-73 | heart rate after a step, reversion and clamp always lies in [50, 140], whatever the delta |
| `Sensor.NextGsr` | hooks/useBiometrics.ts:67-74 | conductance after a step, reversion and clamp always lies in [0.5, 15], whatever the delta |
| `Sensor.RevertHeartRate` | hooks/useBiometrics.ts:63-64 | above 100 the value loses 1, below 60 it gains 1, otherwise it is unchanged |
| `Sensor.RevertGsr` | hooks/useBiometrics.ts:69-70 | above 8 the value loses 0.1, below 1 it gains 0.1, otherwise it is unchanged |
| `Sensor.SyntheticStress` | hooks/useBiometrics.ts:78-80 | for clamped inputs the weighted stress lies in [0, 118] |
| `Sensor.MakePoint` | hooks/useBiometrics.ts:82-87 | the point carries the given timestamp, `Math.round(hr)` as heart rate (within half a beat of hr), `toFixed(2)` of gsr (within 0.005 of it), and the rounded stress of the unrounded values |
| `Sensor.MakePointPlausible` | hooks/useBiometrics.ts:82-87 | the emitted point has a rounded heart rate in [50, 140], a two-decimal GSR in [0.5, 15] and a rounded stress in [0, 118] |
| `Sensor.HeartRateReversion` | hooks/useBiometrics.ts:61-64 | above 100 the stepped value loses 1, below 60 it gains 1, before the clamp; between them it is kept as is |
| `Sensor.GsrReversion` | hooks/useBiometrics.ts:68-70 | above 8 the stepped value loses 0.1, below 1 it gains 0.1, before the clamp; between them it is kept as is |
| `Sensor.TickStepIsSmall` | hooks/useBiometrics.ts:60-74 | with deltas in their random ranges one tick moves heart rate by at most 3 and conductance by at most 0.175 |
| `Sensor.StressMonotone` | hooks/useBiometrics.ts:78-80 | the stress grows with heart rate and with conductance |
| `Sensor.StressExceedsHundred` | hooks/useBiometrics.ts:78-86 | at heart rate 140 and conductance 15 the stress is 118: it is not capped at 100 |
| `Sensor.StressAtNinetyAndFour` | hooks/useBiometrics.ts:78-86 | heart rate 90 and conductance 4.0 give a rounded stress of 41 |
| `Session.Biometrics.constructor` | hooks/useBiometrics.ts:22-27 | the hook starts disconnected, with an empty window and no interval |
| `Session.Biometrics.StartVirtualStream` | hooks/useBiometrics.ts:43-55 | a no-op while an interval is held; otherwise status becomes SIMULATION, the interval is held, the walkers restart at 75 / 3.5 / 40 and the window is kept |
| `Session.Biometrics.Tick` | hooks/useBiometrics.ts:55-90 | the walkers become `NextHeartRate`/`NextGsr` of their old values, the stress is that of the clamped values, and the window is `AddDataPoint` of the new point; the invariant is kept |
| `Session.Biometrics.ConnectVirtual` | hooks/useBiometrics.ts:95-102 | the status becomes CONNECTING whatever it was; nothing else changes |
| `Session.Biometrics.StopSimulation` | hooks/useBiometrics.ts:104-109 | afterwards no interval is held; when none was held nothing changes, so a second call is a no-op |
| `Session.Biometrics.Disconnect` | hooks/useBiometrics.ts:112-127 | from any state the status ends DISCONNECTED, the window empty and no interval held |
| `GeminiService.Total` | services/geminiService.ts:20-21 | the reduce-sum of an empty window is 0, and of non-negative values is non-negative |
| `GeminiService.Mean` | services/geminiService.ts:20-21 | the mean times the window length is the reduce-sum; a one-point window's mean is that point's value |
| `GeminiService.TotalBetween` | services/geminiService.ts:20-21 | a reduce-sum of n values in [lo, hi] lies in [n*lo, n*hi] |
| `GeminiService.MeanBetween` | services/geminiService.ts:20-21 | the window average of a measure lies between any bounds of that measure |
| `GeminiService.Summarize` | services/geminiService.ts:19-23 | averageHR is within 0.5 of the mean heart rate; averageGSR is the mean GSR written to two decimals, so within 0.005 of it; currentStress is the last point's score; the trend is increasing iff the first score is below the last |
| `GeminiService.SummaryInRange` | services/geminiService.ts:20-21 | a window of sensor-range points summarises to an average heart rate in [50, 140] and an average GSR in [0.5, 15] |
| `GeminiService.EqualEndsReportDecreasing` | services/geminiService.ts:23 | equal first and last scores, a one-point window included, give "decreasing" |
| `GeminiService.AnalyzeStress` | services/geminiService.ts:12-75 | a missing key fails before anything else; an empty window then fails; success iff the service replies with a non-empty, parseable text, and the result is the parsed reply |
| `GeminiService.EmptyTextIsError` | services/geminiService.ts:67-68 | an empty response text yields the "No response from AI" error |
| `GeminiService.OnlySummaryIsSent` | services/geminiService.ts:19-36 | two windows with the same summary get the same outcome: only the summary reaches the model |
| `Coach.AdviceCoach.constructor` | components/AICoach.tsx:12-15 | no advice, not loading, no error, lastAnalysisTime 0 |
| `Coach.AdviceCoach.StartRequest` | components/AICoach.tsx:17-20 | on an empty window nothing changes; otherwise loading is set, the error cleared, advice and lastAnalysisTime kept, and neither the button nor the automatic path can start a second request |
| `Coach.AdviceCoach.Settle` | components/AICoach.tsx:21-29 | success replaces advice and sets lastAnalysisTime to now; failure sets the fixed message and keeps advice and lastAnalysisTime; loading ends either way |
| `Coach.AutoTriggerFires` | components/AICoach.tsx:34 | the automatic request fires only on high stress with nothing loading, never within 60000 ms of the last analysis, and always once all three hold |
| `Coach.ManualEnabled` | components/AICoach.tsx:48 | the button is disabled while loading or with fewer than 5 samples, and enabled otherwise |
| `Coach.AtMostOneInFlight` | components/AICoach.tsx:34-48 | while loading, neither the automatic path nor the button can start a request |
| `Coach.CooldownExamples` | components/AICoach.tsx:34 | 30 s after the last analysis the automatic path does not fire; 61 s after, it does |
| `Coach.FirstReadingNotBlocked` | components/AICoach.tsx:15-34 | with lastAnalysisTime 0 and a clock past 60000, the automatic path fires iff stress is high and nothing is loading |
| `Coach.ManualIgnoresCooldown` | components/AICoach.tsx:34-48 | the button is enabled iff not loading and at least 5 samples; the automatic path can fire where the button cannot |
| `Coach.FailureAllowsRetry` | components/AICoach.tsx:25-34 | after a failed request the automatic path fires again at once: the cooldown is not restarted |
| `Dashboard.NextCurrent` | App.tsx:19-23 | a non-empty window puts its last point on display; an empty window keeps the previous one; nothing is shown only when the window is empty and nothing was shown before |
| `Dashboard.IsConnected` | App.tsx:26 | connected iff the status is CONNECTED or SIMULATION |
| `Dashboard.IsConnecting` | App.tsx:27 | connecting iff the status is CONNECTING, and never together with connected |
| `Dashboard.IsHighStress` | App.tsx:28 | high stress iff a point is on display and its score exceeds 75; no point counts as 0, which is not high |
| `Dashboard.StatusClassification` | App.tsx:26-27 | connected and connecting exclude each other; ERROR and DISCONNECTED are neither; for the hook's statuses, connected means SIMULATION |
| `Dashboard.CurrentIsNewestPoint` | App.tsx:19-28 | after an append the displayed point is the new one, and high stress means its score exceeds 75 |
| `Dashboard.CurrentSurvivesDisconnect` | App.tsx:19-28 | an empty window keeps the displayed point and its high-stress flag; no point on display is never high stress |
| `Dashboard.StaleTriggerAfterDisconnect` | components/AICoach.tsx:17-35 | after a disconnect a stale high-stress flag may fire the automatic path, but the request does not start and the panel state is unchanged |

## Left out

- Rendering: JSX, styles, charts, icons, the stress gauge and the connection guide are presentation only.
- The remote call: the prompt text, the `generateContent` request, the response schema and `JSON.parse` are foreign code. The service is a function from the summary to a reply, which is a thrown error or a text with its parse outcome. An undefined response text is modelled as the empty text.
- Timers and `await`: `setInterval`, `setTimeout`, `clearInterval` and the awaited request are explicit method calls (`Tick`, `StartVirtualStream`, `StartRequest`/`Settle`). The handshake timeout is not tracked as pending, so a disconnect during the handshake is not followed by a late start.
- Clocks and randomness: `Date.now()` is a parameter, and `Math.random()` gives the deltas, which are parameters with the ranges of the source's expressions.
- Floating point: all numbers are exact reals. `Math.round` is floor(x + 0.5). `toFixed(2)` returns a string in the source and is modelled as its numeric value, rounded half away from zero. NaN, `|| 0` on NaN and IEEE rounding error are not modelled.
- React scheduling: state updates apply in sequence. The re-render that re-runs effects is the caller invoking the next method.
- The Web Serial declarations, the port and reader references and their close branches in `disconnect` are left out: they are never opened.
- `batteryLevel`, `SERIAL_CONFIG`, `STRESS_MODERATE` and `HR_MAX_ALERT` are left out: they are never changed or used by the core.
- `console.error` logging is left out.
- No serial line parser and no transport data source exist in the code, so none is modelled.
