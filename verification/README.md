# Joystick PWM/OLED firmware — a Dafny model of its control logic

The firmware in `adc/adc.c` runs on a Raspberry Pi Pico. A main loop reads
the two joystick axes, maps each axis to the brightness of an LED (red for X,
blue for Y) and draws a small square that follows the joystick inside a
border on an SSD1306 display. Three buttons raise one interrupt handler:
button A toggles the PWM LEDs, button B resets the chip into its USB
bootloader, and the joystick button toggles the green LED and the border
style. A 200 ms software debounce gates all three.

This project models the decision logic of that loop as pure functions over
one immutable state record and proves properties of it:

- `FixedWidth` — `uint16_t`/`uint32_t`/`uint64_t` as subset types of `int`,
  with the truncating conversions and the wrapping `uint32_t` subtraction
  written out.
- `ControlState` — the constants, the state record (time stamp of the last
  accepted edge, PWM flag, green LED flag, border style, last joystick
  reading, the two duty registers, and a terminal bootloader marker) and the
  effect of a sequence of duty-register writes.
- `Display` — `update_display` as a function from (reading, border style) to
  the list of driver calls it makes.
- `DutyMapper` — `get_pwm_level` as written, including its use of an
  unassigned variable, and the corrected mapper.
- `Debounce` — `gpio_interrupt_handler`.
- `ControlLoop` — the firmware as any interleaving of loop phases (read,
  map, draw) and interrupts, each an atomic step, with the invariants that
  hold along every such run.

Three facts about the code that are easy to get wrong:

- The debounce test is `elapsed > 200000`, so an edge exactly 200000 µs
  after the last accepted one is rejected.
- The joystick at rest (1900, 2000) draws the square at row 26, column 55;
  the boundary correction does not touch it (`Display.RestPositionSquare`).
- Duty levels reach 4390 on X and 4190 on Y, above the PWM wrap value of
  4096; nothing clamps them (`DutyMapper.LevelRange`).

## Model

| member | source | states |
|---|---|---|
| FixedWidth.ToU32 | adc/adc.c:152 | the 64-bit clock reading stored in `uint32_t` is congruent to it modulo 2^32 and equal to it when it fits |
| FixedWidth.ToU16 | adc/adc.c:236-238 | a value stored in `uint16_t` is congruent to it modulo 2^16 and equal to it when it fits |
| FixedWidth.Sub32 | adc/adc.c:154 | the wrapping difference of two `uint32_t` values: adding it back to the subtrahend recovers the minuend; it equals `a - b` or `a - b + 2^32`; it is 0 exactly when the two are equal |
| FixedWidth.Sub32AddBack | adc/adc.c:154 | the wrapped difference is the unique `d` with `b + d ≡ a` modulo 2^32, in both directions |
| ControlState.ApplyWrites | adc/adc.c:205-208 | after a sequence of `set_pwm_duty_cycle` calls each duty register holds the level of the last write to its channel (or its old level if none), and no other field changes |
| ControlState.ApplyWritesAppend | adc/adc.c:229-253 | issuing two batches of duty writes one after the other has the effect of issuing them as one batch |
| Display.CastToInt | adc/adc.c:288 | the `(int)` cast truncates toward zero: the result lies within 1 of the value, on the side of 0 |
| Display.Correct | adc/adc.c:281-284 | the correction adds 8 exactly when the position is at or below the threshold, and otherwise leaves it; with the thresholds used a non-negative position ends at 8 or more |
| Display.SquareCol | adc/adc.c:277-282 | the square's X-derived coordinate is at least 8 for every reading and at most 119 for a 12-bit reading |
| Display.SquareRow | adc/adc.c:278-284 | the square's Y-derived coordinate is at least 8 for every reading and at most 55 for a 12-bit reading |
| Display.SquareColExact | adc/adc.c:277-288 | for every reading the square's column equals the integer reference: (7x + 1920) div 240 when 7x <= 1920 (correction fired), 7x div 240 otherwise |
| Display.SquareRowExact | adc/adc.c:278-288 | for every reading the square's row equals the integer reference: (11y + 6528) div 816 when 11y <= 7344 (correction fired), 11y div 816 otherwise |
| Display.Frame | adc/adc.c:262-292 | a frame starts with a clear and ends with a push; border style true gives exactly the rectangle (0,0,127,60), false gives (3,3,120,60) then (6,6,115,55), all outlines; then one filled 8x8 square, drawn in the on colour, whose first coordinate comes from Y and second from X |
| Display.FrameHasOneFilledRect | adc/adc.c:265-288 | exactly one command of the frame is a filled rectangle: the second-to-last |
| Display.SquareOnScreen | adc/adc.c:275-288 | for a 12-bit reading the square covers at most rows 8..63 and columns 8..127 |
| Display.RestPositionSquare | adc/adc.c:277-288 | the joystick at rest (1900, 2000) draws the square at row 26, column 55 |
| Display.FullDeflectionSquare | adc/adc.c:277-288 | reading (4095, 4095) draws the square at row 55, column 119 |
| Display.ZeroReadingSquare | adc/adc.c:277-288 | reading (0, 0) is moved in by both corrections to row 8, column 8 |
| DutyMapper.AxisLevel | adc/adc.c:236-238 | the level is twice the distance from the centre reduced modulo 2^16, and exactly twice the distance for a 12-bit reading |
| DutyMapper.DeadZoneWrites | adc/adc.c:231-243 | the dead-zone branches write only zeros, a 0 to a channel exactly when its axis is in its dead zone |
| DutyMapper.LevelWrites | adc/adc.c:250-253 | whatever state they land on, these writes leave red at the X level variable and blue at the Y level variable (the unassigned value for a dead-zone axis), and change nothing when PWM is off |
| DutyMapper.MapperWrites | adc/adc.c:229-253 | with PWM off the mapper writes only zeros and only to a channel whose axis is in its dead zone; with PWM on its last two writes are red with the X level (the unassigned value in the dead zone) then blue with the Y level likewise |
| DutyMapper.MapperStep | adc/adc.c:229-255 | with PWM on each duty ends at its axis's level, but a dead-zone axis leaves the unassigned variable's value; with PWM off a dead-zone duty becomes 0 and the other keeps its value; only the duties change; nothing happens after the reset |
| DutyMapper.CorrectedMapperStep | adc/adc.c:230-253 | with the level variables starting at 0 and PWM on, each duty is exactly its own axis's intended level (0 in the dead zone, the mapped level outside), whatever the other axis reads; with PWM off a dead-zone duty becomes 0 and the other keeps its value |
| DutyMapper.AsWrittenDeadZoneDuty | adc/adc.c:230-252 | at rest with PWM on, the red duty as written ends at whatever the unassigned variable holds, while the intended duty is 0 |
| DutyMapper.DeadZoneBounds | adc/adc.c:231 | the X dead zone is exactly [1700, 2100] and the Y dead zone exactly [1800, 2200], ends included |
| DutyMapper.LevelRange | adc/adc.c:236-248 | outside the dead zone a 12-bit reading maps to exactly 2·|v − centre|, in [402, 4390] on X and [402, 4190] on Y: no wrap and no clamp |
| DutyMapper.FullDeflectionDuties | adc/adc.c:229-253 | reading (4095, 4095) with PWM on gives red 4390 and blue 4190 |
| Debounce.Handler | adc/adc.c:150-179 | a rejected edge changes nothing and draws nothing; an accepted one stores the truncated time, then button A flips PWM (forcing both duties to 0 when it turns off), button B enters the terminal bootloader state, the joystick button flips the green LED and the border style and draws the new frame, and any other pin changes only the time; nothing happens after the reset |
| Debounce.RejectedIffUnchanged | adc/adc.c:152-155 | outside the bootloader state an edge leaves the state unchanged if and only if its wrapped elapsed time is at most 200000 µs |
| Debounce.BounceIsIgnored | adc/adc.c:152-155 | after an accepted edge, any edge within 200000 µs of it has no effect and draws nothing |
| Debounce.JoystickTwiceRestores | adc/adc.c:169-176 | two accepted joystick-button edges restore the green LED and the border style; only the time stamp differs |
| Debounce.ButtonATwice | adc/adc.c:157-163 | two accepted button-A edges restore the PWM flag and leave both duties at 0 |
| Debounce.EarlyEdgeIgnored | adc/adc.c:31 | the stored time starts at 0, so from boot an edge in the first 200000 µs is ignored |
| ControlLoop.Step | adc/adc.c:69-76 | a read replaces only the stored reading; a mapper event is the mapper step and changes only duties; the loop's redraw draws the frame of the current reading and style; an edge is the handler run to completion; any frame drawn is the frame of the resulting state; nothing happens after the reset |
| ControlLoop.InitialInv | adc/adc.c:31-35 | the boot state (PWM on, green LED off, border single, time 0) satisfies both invariants |
| ControlLoop.StepKeepsInv | adc/adc.c:157-176 | every event keeps "PWM off ⇒ both duties 0" and "border style == not green LED" |
| ControlLoop.RunKeepsInv | adc/adc.c:69-253 | any interleaving of the loop's phases (lines 69-72), the interrupt handler (150-179) and the mapper (229-253), each interrupt landing between two phases, keeps both invariants |
| ControlLoop.ReachableStatesSatisfyInv | adc/adc.c:34-35 | every state reachable from boot, for any readings, presses, timing and unassigned values, with each interrupt between two loop phases, has both LEDs dark while PWM is off and the border single exactly while the green LED is off |
| ControlLoop.BootselIsTerminal | adc/adc.c:165-168 | once the bootloader reset has happened, no sequence of events changes the state |
| ControlLoop.LoopPass | adc/adc.c:69-72 | one uninterrupted loop pass leaves the mapper's result for the fresh reading and draws that reading with the current border style |
| ControlLoop.CorrectedMapperIsAMapperEvent | adc/adc.c:230 | the corrected mapper is the mapper event whose unassigned variables hold 0, so every run property covers the corrected firmware |
| ControlLoop.PreemptedMapper | adc/adc.c:157-163 | an interrupt landing between the test of `pwm_active` and the level writes: a rejected edge gives the plain mapper step; an accepted button-A edge that turns PWM off from a 12-bit reading outside the X dead zone leaves PWM off with red at 2·|x − 1900|, breaking "PWM off ⇒ both duties 0" |
| ControlLoop.PreemptedButtonALeavesLedsLit | adc/adc.c:250-252 | with reading (4095, 4095), PWM on and button A accepted in that window, PWM ends off with red at 4390 and blue at 4190 |
| ControlLoop.MaskedMapper | adc/adc.c:250-253 | with interrupts held off from the test to the last write, an edge in the window is handled after the writes; this is exactly the mapper event followed by the edge event, and it keeps both invariants |

## Findings

| source | as written | input that shows it | evidently intended | confidence | as-written member | corrected member |
|---|---|---|---|---|---|---|
| adc/adc.c:250-252, 157-163 | the mapper tests `pwm_active` and then writes both levels; a button-A interrupt between the test and the writes turns PWM off and zeroes both duties, after which the writes go out anyway | PWM on, reading (4095, 4095), an accepted button-A edge after the test at line 250 and before line 251: PWM ends off with red at 4390 and blue at 4190 | with PWM off both LEDs stay dark | medium (the window is a few instructions wide); not executed | ControlLoop.PreemptedMapper | ControlLoop.MaskedMapper |
| adc/adc.c:230-252 | `pwm_x`/`pwm_y` are declared without a value and only assigned outside the dead zone, yet both are written to the LEDs whenever PWM is on | PWM on, reading (1900, 2000): both axes at rest, the red and blue duties are set to 0 and then overwritten with the unassigned variables | a dead-zone channel stays at 0 | high; not executed | DutyMapper.AsWrittenDeadZoneDuty | DutyMapper.CorrectedMapperStep |

The system model (`ControlLoop.Step`) keeps the mapper as written, with the
unassigned values as parameters of each mapper event. The corrected mapper is
the case where both are 0 (`ControlLoop.CorrectedMapperIsAMapperEvent`), so
the run invariants cover both. In the same way `ControlLoop.Step` runs each
interrupt between two loop phases, which is the masked mapper
(`ControlLoop.MaskedMapper`); the preempted mapper is modelled on its own to
exhibit the race.

## Left out

- Peripheral set-up (`initialize_leds`, `initialize_buttons`, `initialize_joystick`, `initialize_oled_display`, `setup_pwm`, the clock divisor): hardware configuration with no decision logic.
- `read_adc` and its 2 µs settle delays: the reading is the argument of a read event; the 12-bit bound is the predicate `IsAdc12`, assumed only where a lemma needs it.
- The SSD1306 driver and its I2C transport: draw calls are abstract commands, and the display contents they produce are not modelled.
- `reset_usb_boot`: modelled only as entry into the terminal `bootsel` state.
- `printf` diagnostics and the `sleep_ms` pacing: they carry no contract.
- Display.SquareCol: the scaling is exact `real` arithmetic, and the firmware's double computation and `float` store are not reproduced. The gap is narrow but not proved away: the exact column position is a multiple of 1/240 (`Display.PixelCol`). So when it is not an integer it is at least 1/240 from every integer and from the threshold 8, far more than the rounding error of a value below 128. When it is an integer, the double result lies well within half a `float` step of it and is stored as that integer.
- Display.SquareRow: the same idealisation as `Display.SquareCol`, with positions on multiples of 1/816 (`Display.PixelRow`) and threshold 9.
- Concurrency: an interrupt runs as one atomic step between loop phases. The one preemption modelled inside a phase is the window between the test of `pwm_active` and the level writes (`ControlLoop.PreemptedMapper`); other preemption points, and the handler's redraw interleaving with a half-built frame of the loop, are not modelled.
- What the PWM hardware does with a level above its wrap value of 4096: the firmware does nothing about it.
- The starting value of the duty registers: taken as 0, the hardware reset level, which the C code does not set itself.
- The green LED output pin: `gpio_put` drives it to the green LED flag, which the model keeps as the flag alone.
- The `events` argument of the handler: the code never reads it.
