# Battery print behavior, modelled in Dafny

This project models the ZMK keyboard-firmware behavior that types the split
peripherals' battery levels into the host as keystrokes. When the key bound to it is
pressed, it types `l:NN% r:NN%`: `l` and `r` are the left and right peripherals. Each
character is a key tap, that is, a press entry and then a release entry appended to the
firmware's behavior queue.

The project has four modules, one file each:

- `keycodes.dfy` (`Keycodes`): the key symbols as an enum, `uint8`, and `digit_keycode`
  (`DigitKeycode`). It also holds its inverse `DigitValue` and the character each key types (`KeyChar`, `Text`).
- `rendering.dfy` (`Rendering`): pure functions for what is typed.
  - `DecimalKeys` is the sequence `tap_u8_dec_0_100` taps.
  - `ReadingKeys` is one side of the line, and `LineKeys` is the whole line.
  - Inverses: `DecodeDecimal` reads digits back, and `ParseLine` reads a line back into
    its two values.
  - Reference: `DecimalString` is ordinary decimal notation.
  - The lemmas connect the renderers with their inverses and with the reference.
- `behavior_queue.dfy` (`BehaviorQueue`): the queue entries and the entries a tap
  produces (`Tap`, `TapAll`).
  - `PressedKeys` is the inverse of `TapAll`.
  - `Queue` is a class whose `entries` sequence only grows, through `Add`
    (`zmk_behavior_queue_add`).
- `battery_print.dfy` (`BatteryPrint`): the imperative part.
  - `TapKey`, `TapDecimal` and `OnKeymapBindingPressed` append to a `Queue` step by
    step, as the C functions do. Each states the queue's new contents as the old
    contents plus a specification function of its inputs.
  - `OnKeymapBindingReleased` has no `modifies` clause, so the queue stays as it was.
  - The press handler's specification is `PressedEvents`.

The source has two build-time gates. The model follows the code with `BuildConfig`:

- `HasBehaviorQueue` (not split, or split central) chooses between the real handlers
  and the no-op pair.
- `FetchesBatteryLevels` (split, central, and battery-level fetching on) decides
  whether the levels are fetched at all. A build with a queue that does not fetch types
  `l:??% r:??%`.

Readings are `uint8` values, as in the code, not only 0..100. Values above 100 are typed as `??`,
the same as a missing reading. `LineRoundTrip` states this: from the line, a reader can
recover a value only when it is 0..100.

## Model

| member | source | states |
|---|---|---|
| Keycodes.DigitKeycode | zmk-battery-print/src/behavior_battery_print.c:41-66 | digits 0..9 map to N0..N9 (the digit table), every other byte to QUESTION; the result is a digit key exactly when d < 10, and reading it back gives d |
| Keycodes.DigitValue | zmk-battery-print/src/behavior_battery_print.c:41-66 | inverse of the digit mapping: a key has a digit value exactly when it is a digit key, and that value maps back to the key |
| Rendering.DecimalKeys | zmk-battery-print/src/behavior_battery_print.c:68-89 | the keys `tap_u8_dec_0_100` taps: one to three keys, never `%`, and a QUESTION among them exactly when v > 100 |
| Rendering.ReadingKeys | zmk-battery-print/src/behavior_battery_print.c:109-114 | one side of the line: one to three keys, never `%`, and a QUESTION among them exactly when no value is shown (reading missing or above 100) |
| Rendering.LineKeys | zmk-battery-print/src/behavior_battery_print.c:106-126 | the whole line: 9 to 13 keys, 7 fixed ones plus both sides; it starts with `l:` and ends with `%` |
| Rendering.DecimalKeysCases | zmk-battery-print/src/behavior_battery_print.c:68-89 | above 100 exactly two QUESTION taps (and only then); 100 is N1 N0 N0; 10..99 is tens digit then ones digit; below 10 one digit; for 0..100 no QUESTION or `%`, and 1 tap iff v < 10, 3 taps iff v = 100 |
| Rendering.DecimalKeysNoLeadingZero | zmk-battery-print/src/behavior_battery_print.c:82-88 | for 0..100 every tap is a digit key and a multi-digit rendering never starts with N0 |
| Rendering.DecimalRoundTrip | zmk-battery-print/src/behavior_battery_print.c:75-88 | reading the taps of any v in 0..100 back as decimal gives v |
| Rendering.DecimalText | zmk-battery-print/src/behavior_battery_print.c:68-89 | for 0..100 the typed text equals the reference decimal notation of v |
| Rendering.ReadingRoundTrip | zmk-battery-print/src/behavior_battery_print.c:109-114 | one side never contains `%` and reads back as its value when present and 0..100, as "no value" when missing or out of range |
| Rendering.LineRoundTrip | zmk-battery-print/src/behavior_battery_print.c:106-126 | the composed line parses back to exactly the two shown values, so the line is unambiguous |
| Rendering.LineText | zmk-battery-print/src/behavior_battery_print.c:106-126 | the typed text is `l:` + left + `% r:` + right + `%`, each side in decimal or `??` |
| Rendering.SampleLineBothPresent | zmk-battery-print/src/behavior_battery_print.c:106 | levels 87 and 92 type `l:87% r:92%` |
| Rendering.SampleLineLeftMissing | zmk-battery-print/src/behavior_battery_print.c:109-121 | a missing left level and a right level of 5 type `l:??% r:5%` |
| Rendering.SampleLineOutOfRange | zmk-battery-print/src/behavior_battery_print.c:69-73 | a left level of 101 and a missing right level type `l:??% r:??%` |
| BehaviorQueue.Tap | zmk-battery-print/src/behavior_battery_print.c:28-39 | a tap is two entries for the triggering event, a press then a release, of the same binding `KeyPress(keycode)` (the `key_press` device with the key as first parameter and 0 as second, :30-34), each with delay 20; the key it presses is exactly the tapped key |
| BehaviorQueue.TapAllShape | zmk-battery-print/src/behavior_battery_print.c:28-39 | tapping n keys is 2n entries; entry 2i presses key i and entry 2i+1 releases it, both with the key_press binding, the triggering event and delay 20 |
| BehaviorQueue.TapAllAppend | zmk-battery-print/src/behavior_battery_print.c:107-126 | tapping one run of keys after another queues the taps of their concatenation, in order |
| BehaviorQueue.TapAllPressedKeys | zmk-battery-print/src/behavior_battery_print.c:28-39 | the keys pressed by the queued taps are exactly the tapped keys, in order |
| BehaviorQueue.Queue.Add | zmk-battery-print/src/behavior_battery_print.c:37-38 | appends one entry and leaves every entry already queued unchanged |
| BatteryPrint.BuildConfig.FetchesBatteryLevels | zmk-battery-print/src/behavior_battery_print.c:16-17 | levels are fetched only on a split central with fetching enabled, and such a build always has a behavior queue (the fetch gate lies inside the queue gate) |
| BatteryPrint.PressedEvents | zmk-battery-print/src/behavior_battery_print.c:91-129 | what a press queues: nothing exactly when the build has no queue, otherwise 18 to 26 entries, always an even number (press and release pairs) |
| BatteryPrint.TapKey | zmk-battery-print/src/behavior_battery_print.c:28-39 | appends exactly a press then a release of the key, each with delay 20, after the unchanged old queue |
| BatteryPrint.TapDecimal | zmk-battery-print/src/behavior_battery_print.c:68-89 | appends exactly the taps of the decimal rendering of v after the unchanged old queue |
| BatteryPrint.OnKeymapBindingPressed | zmk-battery-print/src/behavior_battery_print.c:91-129 | returns OPAQUE and appends exactly the taps of the line for the gated readings (nothing without a queue), after the unchanged old queue |
| BatteryPrint.OnKeymapBindingReleased | zmk-battery-print/src/behavior_battery_print.c:131-136 | returns OPAQUE and may not modify the queue |
| BatteryPrint.PressedWithoutQueue | zmk-battery-print/src/behavior_battery_print.c:138-145 | a press queues nothing exactly on a split peripheral (split and not central, the builds the gate at :25 excludes); on every other build, unsplit or split central, a press queues entries |
| BatteryPrint.PressedEventsLine | zmk-battery-print/src/behavior_battery_print.c:95-128 | a press queues 2 entries per key of the line, each press immediately followed by the release of the same key with delay 20; the pressed keys are the line and parse back to the shown values |
| BatteryPrint.PressedShowsLevels | zmk-battery-print/src/behavior_battery_print.c:100-103 | with fetching enabled (`Reading` passes the fetched level through, :100-103) and both levels read, the typed line shows each level that is at most 100 and `??` for the others |
| BatteryPrint.PressedWithoutLevels | zmk-battery-print/src/behavior_battery_print.c:95-114 | a build that does not fetch levels (`Reading` is then none, :95-98), or whose peripherals do not answer, types `l:??% r:??%` |

## Left out

- `zmk_behavior_queue_add` internals and timing: the queue is modelled only as an append of (event, binding, press, delay) to a sequence. What the host firmware later does with the entries is outside the model.
- `zmk_split_central_get_peripheral_battery_level` (the Bluetooth split transport): its outcome for each side is a parameter, `None` when the call fails. The value it may leave in `left`/`right` on failure is not modelled, because the code never reads it then.
- Driver registration, the devicetree macros and the `behavior_driver_api` table: framework plumbing with no behaviour of its own.
- Logging setup and header includes.
- The numeric keycode values from the firmware's key table: keys are an abstract enum, and the host-side character of each key is given by `KeyChar`.
- The `IS_ENABLED(...)` preprocessor conditions: they become the boolean fields of `BuildConfig`.
- The `binding` argument of both handlers: the source marks it unused. The C release handler takes only `binding` and `event`. The model adds two parameters to it: `config` stands for the compile-time gate that picks between its two copies, and `queue` is passed without a `modifies` clause, so the handler provably leaves it unchanged.
- The numeric values of `ZMK_BEHAVIOR_OPAQUE` and `ZMK_BEHAVIOR_TRANSPARENT`: they are the enum `BehaviorStatus`.
