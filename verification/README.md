# ogage: hotkey and power-key event interpretation

A model of the event-interpretation core of `ogage`, a daemon for handheld
consoles (Odroid Go Advance, Odroid Go Super, RGB10 Max) that reads key
events from the kernel's input devices and runs external programs to change
brightness, volume, Wi-Fi, performance mode, or to suspend or shut down.

The model covers, from `src/main.rs`:

- **Device profile** (`DeviceProfile`): the device name, which is the contents
  of the device file without trailing line ends, or `rgb10maxtop` by default.
  From it come the OGA 1.1 flag and the codes of the hotkey, brightness,
  volume, mute, volume-normalise and suspend buttons. The derivations are
  proved equal to a per-family table of complete profiles.
- **Power-key settings** (`PowerkeyConfig`): the double-push flag, the maximum
  interval and the power-key action, taken from the already-parsed key/value
  properties. This includes Rust's `str::parse::<i64>` of `max_interval_time`,
  with the exact set of strings it accepts and a round-trip lemma, and the
  wrapping i64 `+ 1`.
- **Dispatch table** (`Dispatch`): `process_event` as a function from profile,
  event and hotkey flag to the actions it runs, in order. It is proved equal to
  a first-match lookup in one priority list of bindings. For every device
  profile, one event triggers at most one action, and neither the hotkey nor
  the power key is bound.
- **Event loop** (`Daemon`): the per-event body of the main loop. A class holds
  the hotkey flag and the reference timestamp of the double-push detector.
  `HandleEvent` follows the source's statements one by one. `HandleEvents`
  drains a sequence of events and is proved against the fold `Run` of the
  pure step `Step`. Lemmas about `Run` state when the hotkey flag and the
  reference time change.

Event codes carry the numeric values of the Linux header
`input-event-codes.h` (type `EV_KEY` = 1, `KEY_POWER` = 116, `BTN_SOUTH` =
0x130, ...), so the distinctness of the buttons within a profile is computed,
not assumed.

The double-push arithmetic is modelled as the code writes it. A negative
microsecond difference is wrapped by adding 999999. The second difference is
decremented whenever the wrapped microsecond difference is below 990000. The
action fires when the result lies in `[1, MAX_POWERKEY_INTERVAL_TIME]`.
`SecDiffAgainstElapsed` relates this count to the elapsed time: it is the
whole elapsed seconds minus one, the whole elapsed seconds, or plus one,
depending on the sub-second parts. `VerdictDependsOnPhase` shows two pairs of
presses, each 1.5 s apart, of which one fires and one does not.

Three consequences of this code are stated as lemmas:

- The reference is overwritten by every qualifying press and never reset; it
  starts at (0, 0).
- With double push disabled a power-key event changes nothing and runs
  nothing (`DisabledPowerKeyIsNoOp`), so a run never powers off and never
  moves the reference (`DisabledDoublePushNeverPowersOff`).
- Presses at 0 s, 0.5 s and 1.6 s do not fire on the third press
  (`SlidingReferenceExample`).

## Model

| member | source | states |
|---|---|---|
| `EventCodes.WrapI64` | src/main.rs:167 | the result is in the i64 range, congruent to the input modulo 2^64, and equal to it when the input already fits |
| `DeviceProfile.TrimEndNewlines` | src/main.rs:38 | the result is a prefix of the input, does not end in CR or LF, and everything removed is CR or LF |
| `DeviceProfile.ResolveDevice` | src/main.rs:36-45 | the device name is never empty; it is the trimmed file contents when these are non-empty, otherwise the default `rgb10maxtop` |
| `DeviceProfile.ProfileOf` | src/main.rs:47-131 | the OGA 1.1 flag holds iff the device is `oga1`; the hotkey is one of HAPPY2, HAPPY4, HAPPY6 and differs from the suspend button |
| `DeviceProfile.ProfileOfMatchesTable` | src/main.rs:47-131 | for every device name the derived codes equal the table entry of its family: HOTKEY is HAPPY4 on rgb10maxtop, HAPPY2 on rgb10maxnative, HAPPY6 otherwise; SUSPEND is NORTH on oga1, HAPPY4 on rgb10maxnative, HAPPY2 otherwise |
| `PowerkeyConfig.ParseI64` | src/main.rs:167 | `parse::<i64>`: any value read lies in the i64 range; which strings it accepts is `ParseI64Spelling` |
| `PowerkeyConfig.ParseI64Accepted` | src/main.rs:167 | every accepted string is a fitting sign, leading zeros and the digits of the value read |
| `PowerkeyConfig.ParseI64OfSpelling` | src/main.rs:167 | every such spelling of an i64 value is accepted and read as that value |
| `PowerkeyConfig.ParseI64Spelling` | src/main.rs:167 | the parse gives n iff n is an i64 and the string is an optional sign (`-` only for n <= 0, `+` or none for n >= 0), any leading zeros, then the digits of abs(n) |
| `PowerkeyConfig.ParseI64Examples` | src/main.rs:167 | `+7` and `007` read as 7 and `-0` as 0; ` 5`, `+` and the empty string are rejected |
| `PowerkeyConfig.ParseDecimal` | src/main.rs:167 | parsing the decimal spelling of any i64 gives it back (the partner of the modelled `parse::<i64>`) |
| `PowerkeyConfig.DoublePushActive` | src/main.rs:144-162 | double push is on iff `two_push_shutdown` is present with the value `enabled` |
| `PowerkeyConfig.MaxIntervalTime` | src/main.rs:164-173 | the maximum is 2 when `max_interval_time` is absent, otherwise its parsed value plus MIN_POWERKEY_ELAPSED with i64 wrap-around; always within i64 |
| `PowerkeyConfig.MaxIntervalOfDecimal` | src/main.rs:164-173 | a configured value n below the i64 maximum gives exactly n + 1 |
| `PowerkeyConfig.PowerkeyActionOf` | src/main.rs:175-188 | the action is suspend iff `action` is present with the value `suspend`, shutdown otherwise |
| `PowerkeyConfig.ConfigOf` | src/main.rs:144-188 | the resolved settings: double push iff `two_push_shutdown` is `enabled`; the maximum from `max_interval_time` (wrapped + 1) or 2; suspend iff `action` is `suspend` |
| `PowerkeyConfig.DefaultConfig` | src/main.rs:133-188 | with no properties double push is off, the maximum is 2 and the action is shutdown |
| `Dispatch.ChordedLevels` | src/main.rs:294-305 | the hotkey brightness/volume chain runs at most one action |
| `Dispatch.ChordedSystem` | src/main.rs:307-333 | the hotkey system chain runs at most one action |
| `Dispatch.UnchordedLevels` | src/main.rs:336-347 | the OGA 1.1 plain-key chain runs at most one action |
| `Dispatch.ProcessEvent` | src/main.rs:272-350 | nothing but a press (value 1) dispatches; without the hotkey a non-OGA 1.1 device does nothing and an OGA 1.1 only changes brightness or volume; with the hotkey an OGA 1.1 never runs a brightness/volume action; power-off is never dispatched |
| `Dispatch.FirstMatch` | src/main.rs:292-347 | the result is absent iff no binding matches, and otherwise is the action of a matching binding with no matching binding before it |
| `Dispatch.ChordedLevelsFirstMatch` | src/main.rs:294-305 | the hotkey brightness/volume chain is the first match in the order BRIGHT_UP, BRIGHT_DOWN, VOL_UP, VOL_DOWN |
| `Dispatch.ChordedSystemFirstMatch` | src/main.rs:307-333 | the system chain is the first match in the order MUTE, VOL_NORM, PERF_MAX, PERF_NORM, DARK_ON, DARK_OFF, WIFI_ON, WIFI_OFF, SUSPEND |
| `Dispatch.UnchordedLevelsFirstMatch` | src/main.rs:336-347 | the OGA 1.1 plain-key chain is the first match in the order BRIGHT_DOWN, BRIGHT_UP, VOL_UP, VOL_DOWN |
| `Dispatch.ChordedDispatch` | src/main.rs:292-333 | with the hotkey held and disjoint chains, the two chains together run the first chorded match and nothing else |
| `Dispatch.DispatchIsFirstMatch` | src/main.rs:283-349 | for a profile with disjoint chains, a press runs exactly the action of the first binding for its hotkey state and code, and any other event runs nothing |
| `Dispatch.UnboundDispatchesNothing` | src/main.rs:283-349 | an event whose code no chain looks at runs nothing |
| `Dispatch.ProfileChainsDisjoint` | src/main.rs:67-131 | on every device the hotkey brightness/volume codes are not also system-action codes |
| `Dispatch.AtMostOneAction` | src/main.rs:292-347 | on every device one event dispatches at most one action |
| `Dispatch.HotkeyAndPowerUnbound` | src/main.rs:55-131 | on every device neither the hotkey nor KEY_POWER is bound to any action |
| `Daemon.WrappedUsecDiff` | src/main.rs:406-411 | the microsecond difference when it is not negative, and that difference plus 999999 when it is; for microsecond fields in [0, 1000000) it lies in [0, 999999] |
| `Daemon.SecDiff` | src/main.rs:403-414 | the counted seconds are the raw second difference or one less, one less exactly when the wrapped microsecond difference is below 990000 |
| `Daemon.PowerAction` | src/main.rs:419-423 | the double push suspends iff the configured action is suspend, and powers off iff it is shutdown |
| `Daemon.SecDiffAgainstElapsed` | src/main.rs:403-414 | against the elapsed microseconds, the counted seconds are the whole elapsed seconds minus one, equal, or plus one, by the case of the microsecond parts |
| `Daemon.VerdictDependsOnPhase` | src/main.rs:403-419 | two pairs of presses 1.5 s apart: one does not fire, the other fires |
| `Daemon.PowerArithmeticFitsI64` | src/main.rs:403-414 | for kernel timestamps every intermediate value stays within i64 |
| `Daemon.Step` | src/main.rs:391-425 | one event: the hotkey flag becomes value == 1 on a hotkey event and is kept otherwise; the reference becomes the press's timestamp exactly on a qualifying press; the actions are the dispatched ones followed by the power action exactly when the counted seconds lie in [1, MAX] |
| `Daemon.Run` | src/main.rs:385-429 | the events handled one after another; each adds at most three actions (two dispatch chains and the power action) |
| `Daemon.RunSnoc` | src/main.rs:387-425 | handling one more event after a sequence is one more step, its actions appended |
| `Daemon.RunSplits` | src/main.rs:382-429 | handling a sequence in two batches, the second from the state the first left, gives the same state and the same actions in order |
| `Daemon.AtMostOneActionPerEventRun` | src/main.rs:385-429 | on every device a sequence of events triggers at most one action per event |
| `Daemon.PowerKeyStep` | src/main.rs:400-425 | a KEY_POWER event runs only the power action, exactly when it is a qualifying press whose counted seconds lie in [1, MAX] |
| `Daemon.AtMostOneActionPerEvent` | src/main.rs:393-425 | on every device one event runs at most one action in all |
| `Daemon.HotkeyEventStep` | src/main.rs:393-400 | a hotkey event sets the flag to value == 1 (release and autorepeat clear it), keeps the reference time and runs nothing |
| `Daemon.NonPressIsNoOp` | src/main.rs:393-425 | an event that is not a press and not of the hotkey leaves the state unchanged and runs nothing |
| `Daemon.HotkeyFollowsLastHotkeyEvent` | src/main.rs:393-394 | after a sequence of events the hotkey flag is determined by the last hotkey event alone |
| `Daemon.HotkeyKeptWithoutHotkeyEvents` | src/main.rs:393-394 | events of other codes never change the hotkey flag |
| `Daemon.ReferenceIsLastQualifyingPress` | src/main.rs:402-418 | the reference time is that of the last qualifying power press, whether or not it fired |
| `Daemon.ReferenceKeptWithoutPresses` | src/main.rs:402-418 | without qualifying presses the reference time never changes |
| `Daemon.DisabledDoublePushNeverPowersOff` | src/main.rs:402-425 | with double push disabled no event powers off and the reference time never moves |
| `Daemon.DisabledPowerKeyIsNoOp` | src/main.rs:393-425 | with double push disabled a power-key event leaves the state as it was and runs no action |
| `Daemon.FirstPressAgainstZero` | src/main.rs:357-425 | the first qualifying press fires iff its own timestamp, counted against (0, 0), lies in [1, MAX] |
| `Daemon.SlidingReferenceExample` | src/main.rs:402-424 | presses 0.5 s and then 1.1 s apart under the default settings do not fire, and the reference ends at the last press |
| `Daemon.HotkeyDaemon.constructor` | src/main.rs:352-358 | the profile and settings are resolved from the device name and properties; the flag is false and the reference is (0, 0) |
| `Daemon.HotkeyDaemon.HandleEvent` | src/main.rs:391-425 | the new hotkey flag, the new reference time and the actions, matching `Step` of the old state |
| `Daemon.HotkeyDaemon.HandleEvents` | src/main.rs:387-429 | draining a sequence of events leaves the state and emits the actions given by `Run` |

## Left out

- The actions themselves (src/main.rs:192-270) run external programs and sleep; they are the opaque values of `Dispatch.Action`.
- Every action calls `.expect(...)` on starting its program, and `blinkon`/`blinkoff` also `unwrap()` a UTF-8 conversion (src/main.rs:194, 206). An action whose program cannot be started therefore panics and ends the loop. The model assumes every action's program starts, so `Run` and `HandleEvents` always go on to the next event.
- Reading the device file and the power-key configuration file, and parsing the latter with `props_rs` (src/main.rs:36-45, 133-142), are file I/O and a foreign parser. The file contents and the key/value map are inputs. The panics on an unreadable file or a malformed properties file are not modelled.
- `PowerkeyConfig.MaxIntervalTime`: the `.unwrap()` panic on an unparsable `max_interval_time` is the precondition `ValidProperties`. The `+ 1` wraps as in a release build; a debug build would panic on `i64::MAX`.
- Device enumeration, `mio` polling, token bookkeeping and `evdev` reads (src/main.rs:353-389) are OS I/O. The input is a plain sequence of events; events from several devices arrive in whatever order polling reports them. Read errors are skipped by the source (src/main.rs:427) and need no model.
- Timestamps are unbounded integers; `Daemon.PowerArithmeticFitsI64` shows this agrees with the i64 code for kernel timestamps.
- Logging (`println!`) and the commented-out grab code.
