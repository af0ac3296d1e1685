# pad2osc in Dafny

pad2osc reads an XInput game controller and sends its state as OSC messages over UDP. The messages go to VRChat's OSC input addresses at a fixed rate. This project models the program's engine and proves properties of the model. The engine covers:

- the stick and trigger normalisers (`clamp`, `norm_thumb`, `norm_trigger`, `apply_curve`);
- the button table (`BUTTON_MASKS`, `is_pressed`);
- the mapping of one controller snapshot to motion and action values (`map_state`);
- controller discovery (`find_first_controller`);
- the settings window's normalisation of a configuration before saving (`App.gather`);
- one pass of `engine_loop`: foreground suppression with its one-time `zero_all`, the failsafe when the controller stops answering, the voice pulse/hold logic, and the six or eight sends of a good poll.

Modules, one per component:

- `Normalize` (normalize.dfy): the four normalisers, over `real`.
- `Buttons` (buttons.dfy): `BUTTON_MASKS` as a `map<string, bv16>`, `is_pressed`, and the settings window's button list.
- `Settings` (settings.dfy): the configuration record, `DEFAULT_CONFIG`, Python's `str.lower()`, and `App.gather`.
- `Mapper` (mapper.dfy): `XINPUT_GAMEPAD`, `Mapped`, `map_state`.
- `Device` (device.dfy): the controller oracle and `find_first_controller`, as a loop and as its specification function.
- `Voice` (voice.dfy): the pulse/hold block, and what it sends over a sequence of ticks.
- `Engine` (engine.dfy): the OSC send log, `zero_all`, and the loop state.
  - `Step` is the specification of one tick.
  - The class `Engine` holds the loop's variables `prev_voice`, `voice_pulse_until`, `suppressed_prev`, `last_ok` and `idx`, plus the log of sends. Its method `Tick` runs the loop body step by step and is proved to match `Step`.
  - `Run` chains ticks, so that lemmas can state properties of a whole stretch of ticks.

A tick takes these inputs:

- the configuration;
- the foreground process name;
- the controller, as a function from slot number to an optional snapshot;
- the clock reading;
- the float power function.

Details of the code's behaviour that the model keeps:

- `prev_voice` is updated only in pulse mode (main.py:509). It is left alone in hold mode.
- A release followed by a new press within 60 ms is a fresh 0-to-1 edge, and it arms the expiry again (main.py:506-507).
- The code does not guard its arithmetic. A tick can raise `ZeroDivisionError` in three places:
  - `norm_thumb` with a deadzone of exactly 32767 and a reading of -32768;
  - `apply_curve` raising `0.0` to a negative `curve_gamma`; with such a gamma this happens whenever the right stick rests inside its deadzone;
  - the pacing `1.0 / hz` with `hz` 0, after the tick's sends.

  The configuration file is not validated when it is loaded, so a hand-edited file can reach any of them. The model excludes the first two by precondition (`ThumbDefined`, `CurveDefined`, `MapDefined`, `TickDefined`). The third is outside the model, which does not include the pacing.
- With suppression switched off, `suppressed_prev` keeps its value, because the reset at main.py:475 sits inside the `if`.

## Model

| member | source | states |
|---|---|---|
| `Normalize.Clamp` | main.py:267-268 | the result lies in [lo, hi]; a value already inside is returned unchanged; values below lo give lo and values above hi give hi |
| `Normalize.ClampMonotone` | main.py:267-268 | clamping preserves order |
| `Normalize.NormThumb` | main.py:270-275 | 0 when abs(v) is at most the deadzone; otherwise in (0, 1] for v >= 0 and in [-1, 0) for v < 0; exactly 1 at 32767 and exactly -1 at -32768 when the deadzone is below 32767; defined everywhere except deadzone 32767 with reading -32768 |
| `Normalize.NormThumbOdd` | main.py:270-275 | opposite non-zero readings give opposite results |
| `Normalize.NormThumbMonotone` | main.py:270-275 | on the positive side a larger reading never gives a smaller result |
| `Normalize.NormThumbMonotoneNegative` | main.py:270-275 | on the negative side a reading further out never gives a larger result |
| `Normalize.NormTrigger` | main.py:277-280 | 0 up to the threshold; in (0, 1] above it; exactly 1 at 255; no precondition, since a uint8 reading above the threshold forces threshold < 255 |
| `Normalize.NormTriggerMonotone` | main.py:277-280 | pulling further never gives a smaller result |
| `Normalize.ApplyCurve` | main.py:282-284 | defined unless v is 0 and gamma is negative; the magnitude is that of abs(v) ** gamma; the sign is kept whenever the power is positive; the value is unchanged when the power returns abs(v) |
| `Normalize.ApplyCurveLinear` | main.py:282-284 | with gamma 1 the curve is the identity |
| `Normalize.StickScenario` | main.py:270-275 | with deadzone 7849: 32767 gives 1, 5000 gives 0, and -20000 gives -12151/24918 |
| `Normalize.TriggerScenario` | main.py:277-280 | with threshold 30: 255 gives 1, 30 gives 0, and 31 gives 1/225 |
| `Buttons.MaskOf` | main.py:373-383 | the mask of any name, known or not, is 0 or a single bit; it is the table's mask for a known name and 0 for an unknown one |
| `Buttons.IsPressed` | main.py:382-384 | the result is 0 or 1; it is 1 exactly when the name has a non-zero mask and that bit is set |
| `Buttons.NeverPressed` | main.py:373-384 | "None" and unknown names always give 0 |
| `Buttons.MasksAreSingleBits` | main.py:373-380 | every named mask other than "None" is exactly one bit |
| `Buttons.ButtonsDoNotAlias` | main.py:373-384 | with one named button's bit set, exactly that button reads as pressed |
| `Buttons.MorePressedStaysPressed` | main.py:382-384 | setting more bits never releases a pressed button |
| `Buttons.FirstWord` | main.py:114 | `split()[0]` of a label holding a word: a non-empty word with no blank in it; leading blanks are skipped; from a non-blank start it is the label's prefix up to the first blank or the end |
| `Buttons.FirstWordsOfChoices` | main.py:113-115 | the first word of each button-list label is the entry of the as-written value list at its index |
| `Buttons.ComboValues` | main.py:113-115 | as written, the combobox values are None, A, B, X, Y, LB, RB, Back, Start, LS, RS and then "DPad" four times |
| `Buttons.OtherChoicesMatchMasks` | main.py:113-115 | as written, the eleven entries before the D-pad group store a mask key, each carrying the mask listed beside its label |
| `Buttons.DPadChoicesNeverPress` | main.py:113-115 | as written, the four D-pad entries store "DPad"; their listed masks are non-zero, yet "DPad" never reads as pressed |
| `Buttons.ChoiceKey` | main.py:113-115 | the corrected value of a label is a blank-free word; outside the D-pad group it is the as-written `split()[0]` |
| `Buttons.CorrectedComboValues` | main.py:113-115 | with the correction, the combobox values are exactly the `BUTTON_MASKS` keys of the entries, in order |
| `Buttons.MaskKeysMatchChoices` | main.py:34-50 | each button-list entry's mask key carries the mask listed beside it |
| `Buttons.ChoiceKeyIsMaskKey` | main.py:34-50 | the corrected combobox value of each entry is its mask key |
| `Buttons.CorrectedChoicesMatchMasks` | main.py:34-50 | with the correction, every entry selects exactly the mask listed beside its label |
| `Settings.LowerChar` | main.py:237 | the result is never an ASCII capital; it is an ASCII letter exactly when the input is; capitals move to lower case and every other character is kept |
| `Settings.Lower` | main.py:237 | keeps the length, leaves no ASCII capital, and changes only capitals |
| `Settings.LowerIdempotent` | main.py:237 | lower-casing twice is the same as once |
| `Settings.Gather` | main.py:227-243 | voice_mode is always "pulse" or "hold"; it is "hold" exactly when the lower-cased input is "hold"; both grab addresses are the defaults; every other field is unchanged |
| `Settings.GatherIdempotent` | main.py:237-242 | gathering a gathered configuration changes nothing |
| `Settings.GatherKeepsDefaults` | main.py:52-85 | the default configuration is already in gathered form |
| `Settings.GatherKeepsEngineMode` | main.py:237-239 | gathering never changes whether the engine reads hold mode |
| `Settings.IsHoldMode` | main.py:502-503 | the engine reads hold mode exactly when voice_mode equals "hold" ignoring case; "hold" is hold mode and "pulse" is not |
| `Mapper.MapState` | main.py:397-423 | move X is the left-stick X normalisation; move Y is the Y normalisation, negated exactly when move_invert_y is set; both lie in [-1, 1]; look X and Y are the curved, scaled right-stick axes, Y negated exactly when look_invert_y is set; jump and voice are 0 or 1 and equal `is_pressed` of the configured buttons; grab lies in [0, 1], equals the trigger normalisation when grab is enabled, and is 0 when it is disabled; defined unless a stick normalisation divides by zero or a look axis raises 0 to a negative power |
| `Mapper.LookAxis` | main.py:408-409 | one look axis before inversion: 0 inside the deadzone when the power of 0 is 0; with gamma 1, the normalised reading times the gain |
| `Mapper.MoveInvertOnlyNegatesMoveY` | main.py:405-406 | flipping move_invert_y negates move Y and changes nothing else |
| `Mapper.LookInvertOnlyNegatesLookY` | main.py:408-411 | flipping look_invert_y negates look Y and changes nothing else |
| `Mapper.CentredLookIsZero` | main.py:402-409 | a right stick inside its deadzone gives zero look, whatever the gain, when the power of 0 is 0 |
| `Mapper.LinearLook` | main.py:408-411 | with gamma 1, look is the normalised stick times the gain, negated for Y when inverted |
| `Device.FirstFrom` | main.py:367-371 | the lowest slot from i up to 3 that answers, or None when none of them does |
| `Device.FirstController` | main.py:367-371 | the lowest slot in 0..3 that answers, or None when none does |
| `Device.FindFirstController` | main.py:367-371 | the loop returns the lowest answering slot below 4, or None when none answers |
| `Device.FirstControllerUnique` | main.py:367-371 | that contract fixes the answer, so the loop and the function agree |
| `Voice.PulseStep` | main.py:505-509 | a 0-to-1 edge sets the expiry to now + 0.06 and sends 1; with no edge the expiry is untouched; 1 is sent exactly while now is before the expiry; prev_voice becomes the button state |
| `Voice.VoiceStep` | main.py:501-509 | hold mode sends the button state and keeps prev_voice and the expiry; every other mode is pulse mode |
| `Voice.VoiceTrace` | main.py:501-509 | one voice value per tick; every value is 0 or 1 in pulse mode, and in either mode when the button readings are 0 or 1 |
| `Voice.HoldTraceIsButton` | main.py:503-504 | over any sequence of ticks in hold mode, the sent values are the button states |
| `Voice.HeldPressNeverExtends` | main.py:506-508 | while a press is held, the expiry never moves; 1 is sent exactly while before it |
| `Voice.PressThenHold` | main.py:506-508 | a press held from its first tick sends 1 exactly during the 60 ms after that tick |
| `Voice.PulseFollowsPress` | main.py:505-509 | every 1 sent lies either before the expiry pending at the start or within 60 ms after a press at that tick or an earlier one |
| `Voice.PulseOnlyAfterPress` | main.py:505-509 | with no pulse pending at the start, every 1 sent lies within 60 ms after a press |
| `Voice.ReleaseThenPressRearms` | main.py:506-509 | a release followed by a press re-arms the expiry from the press and sends 1 |
| `Engine.MappedSends` | main.py:495-513 | a good poll sends move X/Y, look X/Y, jump and voice, then the grab pair when grab is enabled, each address with its value |
| `Engine.ZeroAll` | main.py:441-450 | every value is neutral; the addresses are those of a tick, in the same order; 8 sends with grab enabled and 6 without |
| `Engine.ZeroAllIsTickAtRest` | main.py:441-450 | zero_all sends the same messages, in the same order, as a good poll whose mapped values are all 0 and whose voice value is 0 |
| `Engine.RestingPollIsZeroAll` | main.py:492-513 | a good poll of a resting controller (sticks centred, no button, triggers released) sends exactly zero_all, provided the deadzones and the trigger threshold are not negative, the curve maps 0 to 0, and no voice pulse is pending |
| `Engine.SuppressActive` | main.py:465-467 | the tick is suppressed only when suppression is on; it is suppressed exactly when the foreground name equals the configured process name ignoring case, and always when they are equal |
| `Engine.PollStep` | main.py:477-513 | a tick past the suppression check writes no address or all of the tick's addresses once each, in order; the slot it tracks afterwards answered during the tick; last_ok is kept or becomes now; suppressed_prev is kept |
| `Engine.Step` | main.py:464-513 | one tick writes no address or all of the tick's addresses once each, in order; last_ok is kept or becomes now; afterwards suppressed_prev is set exactly when this tick is suppressed, or when suppression is off and it was set before |
| `Engine.SuppressionBegins` | main.py:464-474 | the first suppressed tick sends exactly zero_all; prev_voice and the expiry become 0 and suppressed_prev becomes true; last_ok and idx are kept |
| `Engine.SuppressionHeld` | main.py:464-474 | later suppressed ticks send nothing and change nothing |
| `Engine.SuppressedSendsOnlyNeutral` | main.py:464-474 | while suppressed only neutral values are sent, and suppressed_prev is left true |
| `Engine.SuppressionEnds` | main.py:464-475 | with suppression on and another process in front, suppressed_prev becomes false, and the tick's sends do not depend on the earlier flag |
| `Engine.SuppressionOff` | main.py:465 | with suppression off, the foreground name changes nothing and the flag is kept |
| `Engine.NoControllerTracked` | main.py:475-480 | with no controller tracked, the tick sends nothing and re-acquires a controller; last_ok and the voice state are kept; suppressed_prev is cleared when suppression is on and kept when it is off |
| `Engine.Failsafe` | main.py:482-490 | a failed poll sends zero_all exactly when now - last_ok exceeds failsafe_timeout_sec, and nothing otherwise; last_ok and the voice state are kept; idx is re-acquired; suppressed_prev is cleared when suppression is on and kept when it is off |
| `Engine.GoodPollSends` | main.py:492-513 | a good poll sets last_ok to now, keeps idx, clears suppressed_prev when suppression is on, and sends the mapped values to the tick's 6 or 8 addresses in order |
| `Engine.HoldModeVoice` | main.py:501-504 | in hold mode the voice send is the button state, and prev_voice and the expiry are unchanged |
| `Engine.PulseModeVoice` | main.py:505-509 | in pulse mode a 0-to-1 edge sets the expiry to now + 0.06 and otherwise it is kept; the voice send is 1 exactly when now is before the expiry; prev_voice becomes the button state |
| `Engine.SuppressedRunOneBurst` | main.py:464-475 | a stretch of suppressed ticks sends one zero_all in all, or nothing if the tick before was already suppressed |
| `Engine.DisconnectedRunNeutral` | main.py:482-490 | while no controller answers, whatever is sent over any number of ticks is neutral, and last_ok never moves; it does not say that anything is sent (see Findings) |
| `Engine.Run` | main.py:452-516 | consecutive ticks under one configuration send at most 8 messages per tick |
| `Engine.GoodStep` | main.py:492-509 | a good poll keeps idx, sends the mapped snapshot with the voice value of one voice step, and carries that step's prev_voice and voice_pulse_until |
| `Engine.GoodRunLength` | main.py:482-513 | over a stretch of unsuppressed ticks where the tracked slot always answers, the engine keeps that slot and writes every address of a tick once per tick |
| `Engine.GoodRunSends` | main.py:492-513 | over such a stretch, each tick sends its mapped snapshot in address order, and its voice value is the one `VoiceTrace` gives for the voice button readings and clocks of the stretch, so the `VoiceTrace` lemmas describe what reaches the voice address |
| `Engine.UntrackedRunSilent` | main.py:477-480 | with no controller tracked, none answering and no suppression, a stretch of ticks sends nothing and still tracks none |
| `Engine.DisconnectWithinTimeoutSilent` | main.py:477-490 | as written, a controller lost within failsafe_timeout_sec of the last good poll is never followed by zero_all: the stretch of ticks sends nothing, however late its later ticks are |
| `Engine.FixedStep` | main.py:477-490 | corrected tick: the state is that of `Step`; whenever no controller answers or none is tracked and the tick is not suppressed, it sends zero_all exactly when now - last_ok exceeds failsafe_timeout_sec; a suppressed tick, a tick with a tracked controller and a tick within the timeout are exactly those of `Step` |
| `Engine.FixedRun` | main.py:452-516 | consecutive corrected ticks send at most 8 messages per tick |
| `Engine.FixedDisconnectedTick` | main.py:482-490 | a corrected tick with no controller answering sends zero_all exactly when past the timeout, and nothing otherwise; last_ok is kept |
| `Engine.FixedDisconnectReachesNeutral` | main.py:477-490 | with the correction, a stretch of ticks with no controller answering ends with zero_all whenever its last tick is past the failsafe timeout |
| `Engine.Engine.constructor` | main.py:428-436 | the loop starts from prev_voice 0, expiry 0, no suppression, last_ok at the start time, and the first answering controller |
| `Engine.Engine.SendFloat` | main.py:438 | appends one float message to the log |
| `Engine.Engine.SendInt` | main.py:439 | appends one int message to the log |
| `Engine.Engine.ZeroAllSends` | main.py:441-450 | appends exactly the zero_all sequence to the log |
| `Engine.Engine.Reacquire` | main.py:488 | idx becomes the first answering controller |
| `Engine.Engine.Tick` | main.py:452-516 | the new state and the appended sends are those of `Step` on the old state |
| `Engine.Engine.PollTick` | main.py:477-513 | the new state and the appended sends are those of `PollStep`: re-acquisition, failsafe or good poll |
| `Engine.Engine.GoodPoll` | main.py:492-493 | records now as last_ok, maps the snapshot, and sends |
| `Engine.Engine.SendMapped` | main.py:495-513 | appends the mapped sends in order and updates the voice state as `VoiceStep` says |
| `Engine.Engine.SendVoice` | main.py:501-509 | appends one send to the voice address and updates prev_voice and the expiry, both as `VoiceStep` says |

## Left out

- Configuration reload is not modelled. This covers `load_config`, `save_config`, the mtime check and the rebuilt UDP client (main.py:87-96, 453-462). These are filesystem and socket plumbing. Instead, every tick takes the configuration as a parameter, so each tick may see a different one.
- Time is not modelled: `time.time()`, the sleeps, and the `max(0.001, 1/hz)` pacing. The clock reading is a parameter of the tick.
- The stop flag, the engine thread, the tray icon, `main` and the Tk settings window are not modelled. They concern threads and UI. The window's button list appears only for the combobox finding below.
- `foreground_process_name` and XInput (`load_xinput`, `get_state`) are foreign calls through ctypes. The foreground name is a parameter. The controller is a function from slot to optional snapshot, fixed for one tick. The source polls the tracked slot and later searches all slots; the model uses one snapshot of the controller for both.
- OSC encoding and UDP sending are not modelled. A send is an entry appended to a log.
- Floats are modelled as exact reals. Negative zero is not distinguished.
- `Normalize.ApplyCurve`: `**` with a real exponent is a parameter (`Power`), because Dafny's reals have no such power. The function `Power` is total. Python's float `**` raises in two ways here. `0.0` raised to a negative exponent raises `ZeroDivisionError`; the precondition `CurveDefined` excludes it rather than modelling the crash. A result too large for a float raises `OverflowError`, for example a small non-zero stick value raised to a large negative gamma; this is not modelled, and `Power` returns a value there. Rounding of `**` is not modelled.
- `Settings.Lower`: models `str.lower()` for ASCII letters only, through `Settings.LowerChar`. Unicode case mapping is not modelled. `Engine.SuppressActive` compares the foreground and configured process names after this case folding (main.py:467), so it inherits the ASCII-only restriction.
- `Buttons.FirstWord`: models `str.split()[0]` only for the blanks space, tab, newline and carriage return. On a label with no word `split()[0]` raises `IndexError`; the precondition `HasWord` excludes that case, which no label of `BUTTON_CHOICES` reaches.
- `Settings.Gather`: the `int(float(x))`, `float(x)` and `bool(x)` conversions of the form values are not modelled. The fields are already typed.
- `Engine.Engine.Tick`: its precondition excludes two `ZeroDivisionError`s that end the engine thread in the source:
  - the one of `norm_thumb`, a deadzone of exactly 32767 with a reading of -32768. The settings window offers deadzones in 0..20000 (main.py:172-173), but a typed value or one loaded by `apply_cfg` (main.py:245-249) is saved unchecked.
  - the one of `apply_curve`, a negative `curve_gamma` with a look reading of 0. The settings window offers gamma in 1.0..2.4 (main.py:180), but a value loaded by `apply_cfg` (main.py:245-249) is saved unchecked.
- `Engine.Engine.Tick`: the `ZeroDivisionError` of `1.0 / hz` when `hz` is 0 (main.py:515-516) is not modelled. It comes after the tick's sends, and the pacing is left out. The model goes on ticking where the source's engine thread would stop.
- `Engine.Engine.Tick`: the engine reads its configuration as the JSON that `load_config` returns, without validation (main.py:430, 400-418, 442-450). A key missing from a hand-edited file makes `engine_loop` raise `KeyError`, and a value of the wrong type raises in the arithmetic. The model's configuration is a complete typed record, so neither is modelled.
- `XINPUT_STATE.dwPacketNumber` is never read, so it is not modelled.

## Findings

| source | as written | input that shows it | evidently intended | confidence | as-written member | corrected member |
|---|---|---|---|---|---|---|
| main.py:113-115 | The button combobox stores `n.split()[0]` for each label, so the four D-pad labels ("DPad Up", "DPad Down", "DPad Left", "DPad Right") all store "DPad". "DPad" is not a key of `BUTTON_MASKS` (main.py:373-380). | Choose any D-pad direction as the jump or voice button: `is_pressed(wButtons, "DPad")` is 0 for every `wButtons`. | Each entry stores the `BUTTON_MASKS` key of its own mask ("Up", "Down", "Left", "Right"), so that the chosen direction reads as pressed. | high; not executed | `Buttons.DPadChoicesNeverPress` | `Buttons.CorrectedChoicesMatchMasks` |
| main.py:477-490 | After a failed poll, `idx = find_first_controller()` (main.py:488) sets idx to `None` when no controller answers. From then on only the `idx is None` branch runs (main.py:477-480), and it never checks the failsafe. So `zero_all` is sent only if the very first failed poll already comes more than `failsafe_timeout_sec` after the last good one. | With the default configuration (60 Hz, timeout 0.25 s), unplug the controller right after a good poll. The first failed poll comes about 16 ms later, below the timeout. Every later tick finds no controller, sends nothing, and VRChat keeps the last move, look, jump and grab values. | The failsafe also applies while no controller is tracked: once now - last_ok exceeds the timeout, `zero_all` is sent. | high; not executed | `Engine.DisconnectWithinTimeoutSilent` | `Engine.FixedDisconnectReachesNeutral` |
