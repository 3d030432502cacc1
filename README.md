# GK87 default keymap: press-order buffer and Alt+Tab hold

This project models the callback layer of the default keymap for the Skyloong GK87
(ANSI) keyboard, as written for the QMK firmware. The layer has two parts:

- **The press-order buffer.** This is a static array of `MAX_TRACKED_KEYS` (10)
  `(keycode, time)` entries plus a `queue_length` counter.
  - `add_to_queue` writes at index `queue_length`. When the buffer is full it drops
    the event.
  - `was_first_pressed` looks at entry 0.
  - `reset_queue` sets the counter back to 0.
- **The Alt+Tab hold.** The global `is_alt_tab_active` flag is driven by two
  callbacks:
  - `process_record_user` runs on every key event. It records presses, then acts on
    the keycode.
  - `layer_state_set_user` runs on every layer change. It empties the buffer and lets
    go of a held Alt.

Two modules:

- `KeymapSpec` (`keymap_spec.dfy`) is the reference model. It uses pure functions
  over an abstract `State`: the live buffer contents and the flag. The firmware
  primitives (`register_code`, `unregister_code`, `tap_code`, `tap_code16`,
  `layer_on`) appear as `Action` values that the callbacks emit. `Run` folds any
  sequence of callback invocations. The lemmas prove these properties:
  - the buffer stays within its bound;
  - `was_first_pressed` keeps its answer until the next layer change;
  - LALT presses and releases alternate, starting with a press, over any sequence of
    callbacks. The flag is set exactly while a press is unreleased.
- `Keymap` (`keymap.dfy`) is the imperative model. The class `UserKeymap` holds:
  - the buffer as an `array`;
  - `queue_length` as an 8-bit counter;
  - the flag;
  - the log of primitive calls.

  Its methods follow the C functions statement by statement. Each method is proved to
  produce the new state and log that the reference functions give. The object
  invariant `Valid()` includes the LALT pairing of the log.

The `case KC_L` branch has no `break` on a release, so the release runs on into the
`ALT_TAB` release code and sends an `unregister_code(KC_TAB)`. This is modelled as
written (`KcLReleaseSendsTabRelease`).

## Model

| member | source | states |
|---|---|---|
| KeymapSpec.Enqueue | keyboards/skyloong/gk87/ansi/keymaps/default/keymap.c:31-37 | The event is appended exactly when fewer than 10 entries are live. When appended, it lands at the old length and every earlier entry is kept. Otherwise the buffer is unchanged. The bound of 10 is preserved. |
| KeymapSpec.FirstPressed | keyboards/skyloong/gk87/ansi/keymaps/default/keymap.c:40-42 | `was_first_pressed` on the live buffer. It is false on an empty buffer. Otherwise it holds iff the oldest entry has the keycode. |
| KeymapSpec.AltTabCase | keyboards/skyloong/gk87/ansi/keymaps/default/keymap.c:108-118 | A press sets the flag and ends with `register TAB`. It sends `register LALT` iff the flag was clear. A release sends only `unregister TAB` and keeps the flag. |
| KeymapSpec.ProcessRecord | keyboards/skyloong/gk87/ansi/keymaps/default/keymap.c:88-134 | A press appends `(keycode, time)` to the buffer, subject to capacity. A release leaves the buffer alone. The flag becomes set only on an `ALT_TAB` press and is never cleared here. |
| KeymapSpec.Dispatch | keyboards/skyloong/gk87/ansi/keymaps/default/keymap.c:93-131 | The case table of the switch. A `KC_L` press taps L when `tap.count != 0 && !tap.interrupted`, otherwise it turns layer 2 on. A `KC_L` release has no `break`, so like an `ALT_TAB` release it sends only `unregister TAB`. An `ALT_TAB` press sends `register LALT` iff Alt was not held, then `register TAB`. `DESK_NEXT`/`DESK_PREV` presses tap Ctrl+GUI+Right/Left and their releases send nothing. Any other keycode sends nothing. The hold flag becomes set only on an `ALT_TAB` press and is otherwise kept. |
| KeymapSpec.Continues | keyboards/skyloong/gk87/ansi/keymaps/default/keymap.c:95-133 | `process_record_user` returns false exactly for `KC_L`, `ALT_TAB`, `DESK_NEXT` and `DESK_PREV`, and true for every other keycode. |
| KeymapSpec.LayerStateSet | keyboards/skyloong/gk87/ansi/keymaps/default/keymap.c:137-144 | Afterwards `was_first_pressed` is false for every keycode and the flag is clear. `unregister LALT` is sent iff the flag was set. |
| KeymapSpec.ProcessRecordLalt | keyboards/skyloong/gk87/ansi/keymaps/default/keymap.c:108-113 | The only key event that sends a LALT action is an `ALT_TAB` press while the flag is clear. It sends exactly one `register LALT`. |
| KeymapSpec.ProcessRecordKeepsAltPaired | keyboards/skyloong/gk87/ansi/keymaps/default/keymap.c:88-134 | A key event keeps the LALT actions of the log alternating, and keeps the flag equal to "a press is unreleased". |
| KeymapSpec.LayerStateSetKeepsAltPaired | keyboards/skyloong/gk87/ansi/keymaps/default/keymap.c:137-144 | A layer change preserves the same pairing. |
| KeymapSpec.RunKeepsAltPaired | keyboards/skyloong/gk87/ansi/keymaps/default/keymap.c:88-144 | Any sequence of callbacks run after a paired history leaves the history paired. |
| KeymapSpec.AltPairedFromPowerOn | keyboards/skyloong/gk87/ansi/keymaps/default/keymap.c:108-144 | From power-on, over any sequence of callbacks, LALT presses and releases strictly alternate, starting with a press. `is_alt_tab_active` holds exactly when the last press is unreleased. |
| KeymapSpec.KeyEventsNeverReleaseAlt | keyboards/skyloong/gk87/ansi/keymaps/default/keymap.c:108-118 | Key events alone never send `unregister LALT` and never clear the flag. Only a layer change lets go of Alt. |
| KeymapSpec.RunQueueBounded | keyboards/skyloong/gk87/ansi/keymaps/default/keymap.c:24-37 | Over any sequence of callbacks the buffer never holds more than 10 entries. |
| KeymapSpec.KeyEventsKeepFirstPressed | keyboards/skyloong/gk87/ansi/keymaps/default/keymap.c:31-42 | Without a layer change a non-empty buffer only grows at its end. So `was_first_pressed(k)` keeps its answer for every `k`. |
| KeymapSpec.FirstPressAfterLayerChange | keyboards/skyloong/gk87/ansi/keymaps/default/keymap.c:40-47 | After a layer change and then a press of `kc`, `was_first_pressed(k)` holds iff `k == kc`. |
| KeymapSpec.KcLReleaseSendsTabRelease | keyboards/skyloong/gk87/ansi/keymaps/default/keymap.c:95-118 | From power-on, a `KC_L` release falls through into the `ALT_TAB` release branch. It sends `unregister TAB` only, although no `register TAB` was ever sent. |
| Keymap.UserKeymap.constructor | keyboards/skyloong/gk87/ansi/keymaps/default/keymap.c:6-28 | The globals start out with an empty buffer, the flag clear and nothing sent. |
| Keymap.UserKeymap.AddToQueue | keyboards/skyloong/gk87/ansi/keymaps/default/keymap.c:31-37 | The live buffer becomes `Enqueue` of the old one. When there is room, the array is the old array with only index `old queue_length` overwritten by the event, and the length grows by one. When full, the length and the array are untouched. Earlier entries are never changed, and nothing outside the buffer changes. |
| Keymap.UserKeymap.WasFirstPressed | keyboards/skyloong/gk87/ansi/keymaps/default/keymap.c:40-42 | The result is true iff `queue_length > 0` and entry 0 has the keycode. |
| Keymap.UserKeymap.ResetQueue | keyboards/skyloong/gk87/ansi/keymaps/default/keymap.c:45-47 | The live buffer is empty, so `was_first_pressed` is false for every keycode. Only the counter changes. |
| Keymap.UserKeymap.AltTabBranch | keyboards/skyloong/gk87/ansi/keymaps/default/keymap.c:108-118 | The new flag and the calls sent are those of `AltTabCase`. |
| Keymap.UserKeymap.ProcessRecordUser | keyboards/skyloong/gk87/ansi/keymaps/default/keymap.c:88-134 | The new buffer, the flag and the appended calls are those of `ProcessRecord`. The return value is true only for keycodes the switch does not handle. The LALT pairing invariant is kept. |
| Keymap.UserKeymap.LayerStateSetUser | keyboards/skyloong/gk87/ansi/keymaps/default/keymap.c:137-144 | The buffer is emptied, the flag is cleared, `unregister LALT` is sent iff Alt was held, and `state` is returned unchanged. The LALT pairing invariant is kept. |

## Left out

- The `keymaps` layer table and the `encoder_map` (keymap.c lines 50-85). They are constant data built by board macros and headers that are not part of this model, and they have no behaviour.
- The firmware primitives `register_code`, `unregister_code`, `tap_code`, `tap_code16` and `layer_on` are foreign code. Each is modelled only as one log entry. In the firmware, `layer_on(2)` itself calls `layer_state_set_user`. The model treats that re-entry as a separate, later `LayerChange` call, which the trace lemmas cover.
- Keycodes are opaque. `KC_L`, `ALT_TAB`, `DESK_NEXT` and `DESK_PREV` are distinct constructors, and every other keycode is `Other(n)`. The payload `n` of `Other` stands for a keycode that is never one of the four named ones. The numeric values from `SAFE_RANGE`, the `LT()` encoding and the `LCTL(LGUI(...))` chords live in headers that are not part of this model.
- `keyrecord_t` is reduced to the four fields the code reads: pressed, time, tap count and tap interrupted. How the firmware counts taps is not modelled.
- Timestamps are stored as opaque 16-bit values and never interpreted.
- USB HID reporting, matrix scanning, debouncing and the backlight and encoder drivers belong to the host firmware.
