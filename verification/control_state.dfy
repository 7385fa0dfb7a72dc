/**
 * The constants and the shared state of the joystick firmware: the globals
 * written by the button interrupt handler and read by the main loop, plus
 * the two PWM duty registers the firmware drives.
 */
module ControlState {
  import opened FixedWidth

  /** Joystick rest positions of the X and Y axes (ADC counts). */
  const DefaultVrx: int := 1900
  const DefaultVry: int := 2000
  /** Half-width of the inclusive dead zone around each rest position. */
  const DeadZone: int := 200
  /** Minimum time between two accepted button edges, in microseconds (exclusive). */
  const DebounceUs: int := 200000
  /** Largest value the 12-bit ADC produces. */
  const AdcMax: int := 4095

  /** GPIO numbers of the three buttons that raise the interrupt. */
  const ButtonA: nat := 5
  const ButtonB: nat := 6
  const JoystickButton: nat := 22

  /** One reading of the two joystick axes, held in `uint16_t` globals. */
  datatype Sample = Sample(x: u16, y: u16)

  /** A reading the 12-bit converter can actually produce. */
  predicate IsAdc12(s: Sample) {
    s.x <= AdcMax && s.y <= AdcMax
  }

  /** The two PWM-driven LEDs: red follows the X axis, blue the Y axis. */
  datatype Channel = Red | Blue

  /** One call of `set_pwm_duty_cycle(level, pin)`. */
  datatype DutyWrite = DutyWrite(channel: Channel, level: u16)

  /**
   * The firmware's state. `bootsel` marks the terminal state entered once
   * the reset-to-bootloader call has been made; nothing runs after it.
   */
  datatype State = State(
    previousTime: u32,
    pwmActive: bool,
    greenLedActive: bool,
    borderType: bool,
    sample: Sample,
    redDuty: u16,
    blueDuty: u16,
    bootsel: bool)

  /** The state at boot; duty registers start at the hardware reset level 0. */
  const Initial: State := State(0, true, false, true, Sample(0, 0), 0, 0, false)

  /** The state with both duty registers replaced, everything else kept. */
  function WithDuties(s: State, red: u16, blue: u16): State {
    s.(redDuty := red, blueDuty := blue)
  }

  /**
   * The level the last write to `c` in `ws` leaves in that register, or
   * `prior` when `ws` never writes `c`. Scans from the end of `ws`.
   */
  function LastLevel(ws: seq<DutyWrite>, c: Channel, prior: u16): (r: u16)
    ensures r == prior || exists i :: 0 <= i < |ws| && ws[i].channel == c && ws[i].level == r
    ensures (forall i :: 0 <= i < |ws| ==> ws[i].channel != c) ==> r == prior
    decreases |ws|
  {
    if ws == [] then prior
    else if ws[|ws| - 1].channel == c then ws[|ws| - 1].level
    else
      var r := LastLevel(ws[..|ws| - 1], c, prior);
      assert r == prior || exists i :: 0 <= i < |ws| - 1 && ws[i].channel == c && ws[i].level == r;
      r
  }

  lemma {:induction false} LastLevelAppend(a: seq<DutyWrite>, b: seq<DutyWrite>, c: Channel, prior: u16)
    ensures LastLevel(a + b, c, prior) == LastLevel(b, c, LastLevel(a, c, prior))
    decreases |b|
  {
    if b == [] {
      assert a + b == a;
    } else {
      var b' := b[..|b| - 1];
      assert (a + b)[..|a + b| - 1] == a + b';
      LastLevelAppend(a, b', c, prior);
    }
  }

  /**
   * The duty registers after the writes `ws`, issued in order: each register
   * holds the level of the last write to it, and nothing but the two
   * registers changes.
   */
  function ApplyWrites(s: State, ws: seq<DutyWrite>): (r: State)
    ensures r == WithDuties(s, LastLevel(ws, Red, s.redDuty), LastLevel(ws, Blue, s.blueDuty))
    decreases |ws|
  {
    if ws == [] then s
    else
      var w := ws[0];
      var s' := if w.channel == Red then s.(redDuty := w.level) else s.(blueDuty := w.level);
      assert ws == [w] + ws[1..];
      LastLevelAppend([w], ws[1..], Red, s.redDuty);
      LastLevelAppend([w], ws[1..], Blue, s.blueDuty);
      assert [w][..0] == [];
      ApplyWrites(s', ws[1..])
  }

  /** Issuing `a` and then `b` is issuing `a + b`. */
  lemma ApplyWritesAppend(s: State, a: seq<DutyWrite>, b: seq<DutyWrite>)
    ensures ApplyWrites(ApplyWrites(s, a), b) == ApplyWrites(s, a + b)
  {
    LastLevelAppend(a, b, Red, s.redDuty);
    LastLevelAppend(a, b, Blue, s.blueDuty);
  }
}
