# Loudness monitor: device selection, settings and notification gate

A Dafny model of the logic in a small Electron tray application that watches
microphone loudness. The app has two processes:

- **renderer.js** runs in the settings window. It resolves which audio device
  is selected and sends the tray the list of audio inputs. On each audio frame
  it tests the average amplitude against a threshold. It also saves or clears
  the notification title and message in `localStorage`.
- **main.js** is the tray process. It builds the "Choose Device" submenu from
  that list. It shows notifications through a gate: the `sendNotification`
  flag plus one-shot 10 000 ms timers.

The project has four modules:

- `JsValues` (js_values.dfy) holds the JavaScript rules the code depends on:
  truthiness of nullable strings and numbers, `x || default`, and
  `String.prototype.trim`.
- `Renderer` (renderer.dfy) turns the script's module-level variables and
  `localStorage` (a `map<string, string>`) into the fields of the class
  `Renderer.Renderer`. Each handler is a method whose `ensures` ties
  `State()` to a specification function of the old state (`AfterEnumeration`,
  `AfterSave`, `AfterClear`, ...). The lemmas are stated over those functions.
- `MainProcess` (main_process.dfy) holds the class `NotificationGate`, with
  fields `open` (the `sendNotification` flag) and `pending` (timer deadlines on
  an integer millisecond clock). `Tick(now)` runs the timers that are due.
  `ShowNotification` is the gated call. `Run` gives the outcome of a whole
  sequence of requests, and the trace lemmas are stated over it.
  `UpdateContextMenu` is a loop method that builds the submenu entries.
- `Pipeline` (pipeline.dfy) holds properties that cross the IPC boundary:
  loud frames becoming alerts, and a tray click coming back as
  `change-audio-device`.

Behaviour of the code worth knowing:

- **Gate timers.** In main.js (lines 96-98), every non-test call, shown or
  suppressed, clears the flag and starts its own 10 s timer, and no timer is
  ever cancelled. Any pending timer reopens the gate, so two notifications can
  come 3 s apart (`MainProcess.EarlyReopening`). Starting from a fresh gate, a burst that stays
  within 10 s of its first alert still yields exactly one notification
  (`MainProcess.OneNotificationPerBurst`).
- **Selection rule.** The selection falls back to `devices[0]`, whatever its
  kind, so a non-input device can be selected. The "no device" state depends
  on whether the list is empty, counting every kind. An empty list keeps the
  old selection rather than clearing it.
- **Empty stored selection.** A stored selection of `""` is falsy, so it is
  replaced like a missing one.

## Model

| member | source | states |
|---|---|---|
| `JsValues.OrElse` | main.js:87-88 | the defaulting idiom is never empty; it is `v` when `v` is a non-empty string and the fallback otherwise |
| `JsValues.LeadingBlank` | renderer.js:127 | the leading white-space run of a string: all of it white space, and the next character is not |
| `JsValues.KeptPrefix` | renderer.js:137 | the length without trailing white space: everything after it is white space, and its last character is not |
| `JsValues.TrimEmptyIffBlank` | renderer.js:127-147 | `value.trim()` is empty exactly when every character is ECMAScript white space or a line terminator |
| `Renderer.Resolve` | renderer.js:31-42 | an empty list keeps the previous selection; a truthy selection present in the list is kept; otherwise a non-empty list gives `devices[0].deviceId`, whatever its kind; with a non-empty list the result is always the id of an enumerated device |
| `Renderer.AfterEnumeration` | renderer.js:28-57 | `isDeviceFound` is true exactly when the list is non-empty, whatever the kinds; the store is rewritten with `devices[0].deviceId` exactly when the selection is replaced; title, message and threshold are unchanged |
| `Renderer.MenuListAppend` | renderer.js:46-54 | the device list keeps enumeration order: the list of `a + b` is the list of `a` followed by the list of `b` |
| `Renderer.MenuListMembers` | renderer.js:46-53 | an entry is in the list exactly when it is built, with label and id copied, from an `audioinput` device |
| `Renderer.MenuListFlags` | renderer.js:51 | `isSelected` holds exactly when the entry's id equals the resolved selection |
| `Renderer.ReenumerationIsStable` | renderer.js:31-42 | enumerating the same devices twice leaves the state of the first enumeration; if the first id is non-empty, the second does not write the store |
| `Renderer.SelectionScenario` | renderer.js:31-42 | a stored "b" survives the list a, b with no write; with only a, the selection becomes "a" and is persisted |
| `Renderer.Threshold` | renderer.js:92 | an unset variable gives 0.4; a parsed number is used when truthy, and 0 or NaN give 0.4, so a parsed threshold in effect is never 0 or NaN; raw `alertAmplitude` text is compared as the number it converts to, and empty text gives 0.4 |
| `Renderer.AfterSavedInfo` | renderer.js:152-185 | selection, title and message are reloaded from their keys; a truthy `amplitude` value is parsed into the threshold variable and the store is not written; otherwise the key is set to "0.4", no other key changes, and the variable holds the raw `alertAmplitude` value when that key exists and is unset otherwise |
| `Renderer.StartUpThreshold` | renderer.js:152-185 | for any store, the threshold in effect after start-up is the parsed `amplitude` value when that is a truthy number, 0.4 when it parses to 0 or NaN, the `alertAmplitude` value as a number when `amplitude` is missing or empty and that value is non-empty, and 0.4 otherwise |
| `Renderer.StartUpSeedsOnce` | renderer.js:178-184 | a second start-up over any store writes nothing; when `amplitude` was already truthy it leaves the whole state as the first start-up did |
| `Renderer.DefaultThresholdSurvivesRestart` | renderer.js:176-184 | on a store with no amplitude, start-up seeds "0.4" and the threshold is 0.4; a second start-up writes nothing and keeps 0.4 |
| `Renderer.AfterChoice` | renderer.js:11-13 | a tray choice selects the id and stores it under `selectedAudioDevice`; no other key changes, and the device flag, title, message and threshold are unchanged |
| `Renderer.SaveStoresNonBlank` | renderer.js:127-145 | the title and the message are each stored, untrimmed, exactly when they are not all white space; otherwise the variable and the key keep their old values |
| `Renderer.SaveTouchesNothingElse` | renderer.js:121-150 | saving changes no key other than `title` and `message`, and leaves the selection, the device flag and the threshold alone |
| `Renderer.AfterClear` | renderer.js:194-203 | clearing nulls title and message and removes exactly their two keys; every other key and variable is unchanged |
| `Renderer.Renderer.constructor` | renderer.js:3-4 | the script starts with no selection, no device found, nothing loaded, over the persisted store |
| `Renderer.Renderer.GetSavedInfo` | renderer.js:152-185 | the new state is `AfterSavedInfo` of the old one |
| `Renderer.Renderer.GetAudioInputs` | renderer.js:28-62 | the new state is `AfterEnumeration` of the old one; the list sent is `MenuList` over the devices with the resolved selection (built by the loop) |
| `Renderer.Renderer.ChangeAudioDevice` | renderer.js:11-16 | the chosen id is stored and selected, and then the devices are enumerated again |
| `Renderer.Renderer.OnAudioProcess` | renderer.js:84-101 | an alert is sent exactly when the amplitude is strictly above the effective threshold, so equality never alerts; it carries the current title and message and is not a test |
| `Renderer.Renderer.SaveNotificationSettings` | renderer.js:121-150 | the new state is `AfterSave`; `notification-setting-save` is sent exactly when neither value is all white space |
| `Renderer.Renderer.ClearTexts` | renderer.js:194-203 | the new state is `AfterClear` of the old one |
| `MainProcess.BuildNotification` | main.js:85-90 | an empty or missing title becomes "Loud Sound Detected" and an empty or missing body "Your voice is too loud!"; neither is ever empty |
| `MainProcess.LaterMembers` | main.js:102-106 | running due timers keeps exactly the deadlines after `now` and adds none |
| `MainProcess.AnyDueMeansSomeDeadline` | main.js:103-105 | the flag is set by a firing exactly when some pending deadline is at or before `now` |
| `MainProcess.LaterTwice` | main.js:103-105 | dropping the deadlines passed at `t1`, then those passed at a later `t2`, leaves those after `t2` |
| `MainProcess.AnyDueTwice` | main.js:103-105 | a deadline due by `t2` was due by `t1` or is still pending after firing at `t1` |
| `MainProcess.FireTwice` | main.js:103-105 | running timers at `t1` and then at `t2 >= t1` leaves the gate as running them at `t2` alone |
| `MainProcess.ReopensAfterCooldown` | main.js:96-106 | whatever the gate's state, it is open again 10 000 ms after a non-test call |
| `MainProcess.RunAfterFire` | main.js:102-106 | running timers early, before the next request, changes no later outcome |
| `MainProcess.TestsDoNotAffectGating` | main.js:92-99 | removing the test requests from any chronological sequence leaves the outcomes of the real alerts unchanged |
| `MainProcess.SuppressedUntil` | main.js:92-106 | while the gate is closed and no deadline falls before `bound`, every real alert in the 10 s before `bound` is suppressed |
| `MainProcess.OneNotificationPerBurst` | main.js:85-106 | from the initial open gate, real alerts that all come within 10 000 ms of the first give one notification, the first |
| `MainProcess.EarlyReopening` | main.js:96-106 | alerts at 0, 5 000, 12 000 and 15 000 ms are shown, suppressed, shown, shown: the timer of the suppressed alert reopens the gate 3 000 ms after a delivery |
| `MainProcess.NotificationGate.constructor` | main.js:6 | the gate starts open with no pending timer |
| `MainProcess.NotificationGate.Tick` | main.js:103-105 | the loop runs every timer due by `now`: the gate is `Fire` of the old gate, open if it was open or if a timer ran, keeping the later deadlines in order |
| `MainProcess.NotificationGate.GetNotificationUpdate` | main.js:102-106 | one deadline `now + 10000` is appended, and the flag is unchanged |
| `MainProcess.NotificationGate.ShowNotification` | main.js:85-100 | shown exactly when it is a test or the flag is set; a test leaves the flag and timers unchanged; any other call clears the flag and adds a deadline, shown or not |
| `MainProcess.NotificationGate.OnSettingSaved` | main.js:80-83 | the save confirmation is a test notification: always shown with its fixed text, and the gate is unchanged |
| `MainProcess.UpdateContextMenu` | main.js:108-127 | an empty list gives the single checked "No Device Found" entry with no click action; otherwise one entry per device, in order, with the label copied, `checked` equal to `isSelected`, and a click that sends the device id |
| `Pipeline.LoudAlerts` | renderer.js:92-101 | every frame strictly above the threshold gives a real alert at its time; every alert is real and comes from such a frame; there are never more alerts than frames |
| `Pipeline.LoudAlertsSingle` | renderer.js:92-101 | one frame gives exactly one real alert at its time when it is loud, and none otherwise |
| `Pipeline.LoudAlertsAppend` | renderer.js:84-101 | the alerts of frames handled one after another are those of the first frames followed by those of the rest, so they follow the order of the frames |
| `Pipeline.ClickSelectsDevice` | renderer.js:11-16 | choosing an entry with a non-empty id and enumerating the same devices selects and persists that id, and the new list marks exactly the entries with that id |
| `Pipeline.DefaultThresholdScenario` | renderer.js:92-100 | with a fresh store the threshold is 0.4; frames of 0.5 at 0, 5 000 and 11 000 ms give shown, suppressed, shown; a frame of exactly 0.4 sends nothing |

## Left out

- Electron lifecycle (main.js:9-74, 154-171) is left out: window creation, hiding on close, the tray icon, the outer menu entries ("Settings", separator, "Quit") and `app` events are platform UI.
- IPC transport is left out: `ipcRenderer.send` and `ipcMain.on` are plain values passed between the two modules. Each handler runs to completion, and interleavings of the asynchronous handlers are not modelled. For example, `change-audio-device` calls `getAudioInputs()` without awaiting it.
- Audio setup in `startVoiceDetection` is left out: `AudioContext`, `getUserMedia`, `createScriptProcessor`, the `devicechange` listener and the microphone error path. Only the per-frame loudness test is modelled (`OnAudioProcess`).
- `calculateAmplitude` is left out: it is a floating-point summation and is NaN on an empty buffer. The amplitude is an input real number.
- `Number(...)` is not modelled: it is the parameter `toNumber: string -> JsNumber`. Its infinities are not modelled.
- `changeAlertAmplitude` (renderer.js:187-192) is not modelled: it stores the string form of a parsed number, and that conversion is foreign.
- DOM reads and writes are left out: input values, error-label classes and the live amplitude display. The two input values are parameters of `SaveNotificationSettings`.
- Notification display is left out: a notification is the value built and a `shown` flag.
- `setTimeout` becomes deadlines that `Tick(now)` runs exactly at their time. A real timer may run later than its deadline.
- The `devices &&` guard is not modelled: `enumerateDevices` always yields an array, so a sequence stands for it.
- The checkbox `type` of the menu entries is not modelled: it is the same constant for every entry.
