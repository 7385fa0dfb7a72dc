/**
 * The button interrupt handler: a falling edge on one of the three buttons
 * is accepted only when more than 200 ms have passed since the last accepted
 * edge, measured on the 32-bit truncation of the microsecond clock with
 * wrapping subtraction. An accepted edge records the time and then toggles
 * PWM (button A), enters the bootloader (button B) or toggles the green LED
 * and the border style and redraws (joystick button).
 */
module Debounce {
  import opened FixedWidth
  import opened ControlState
  import opened Display

  /** A state together with the frame drawn while reaching it (empty if none). */
  datatype Outcome = Outcome(state: State, frame: seq<DrawCmd>)

  /** Microseconds since the last accepted edge, as the `uint32_t` subtraction computes them. */
  function Elapsed(previous: u32, nowUs: u64): u32 {
    Sub32(ToU32(nowUs), previous)
  }

  /** The debounce test: strictly more than 200000 microseconds. */
  predicate Accepts(previous: u32, nowUs: u64) {
    Elapsed(previous, nowUs) > DebounceUs
  }

  /**
   * The handler for an edge on `gpio` at clock reading `nowUs`. A rejected
   * edge changes nothing and draws nothing. An accepted edge stores the
   * truncated time and then:
   *  - button A flips PWM; turning it off forces both duties to 0, turning
   *    it on leaves them as they were;
   *  - button B enters the terminal bootloader state;
   *  - the joystick button flips the green LED and the border style and
   *    draws a frame with the new style;
   *  - any other pin changes only the stored time.
   * Only these fields change, and no edge has any effect after the reset.
   */
  function Handler(s: State, gpio: nat, nowUs: u64): (r: Outcome)
    ensures s.bootsel || !Accepts(s.previousTime, nowUs) ==> r == Outcome(s, [])
    ensures !s.bootsel && Accepts(s.previousTime, nowUs) ==> r.state.previousTime == ToU32(nowUs)
    ensures r.state.sample == s.sample
    ensures r.frame != [] ==> gpio == JoystickButton
    ensures r.state.bootsel <==> s.bootsel || (gpio == ButtonB && Accepts(s.previousTime, nowUs))
    ensures !s.bootsel && Accepts(s.previousTime, nowUs) && gpio == ButtonA ==>
      && r.state.pwmActive == !s.pwmActive
      && r.state.greenLedActive == s.greenLedActive && r.state.borderType == s.borderType
      && (r.state.pwmActive ==> r.state.redDuty == s.redDuty && r.state.blueDuty == s.blueDuty)
      && (!r.state.pwmActive ==> r.state.redDuty == 0 && r.state.blueDuty == 0)
    ensures !s.bootsel && Accepts(s.previousTime, nowUs) && gpio == JoystickButton ==>
      && r.state.greenLedActive == !s.greenLedActive && r.state.borderType == !s.borderType
      && r.state.pwmActive == s.pwmActive
      && r.state.redDuty == s.redDuty && r.state.blueDuty == s.blueDuty
      && r.frame == Frame(s.sample, r.state.borderType)
    ensures !s.bootsel && Accepts(s.previousTime, nowUs) && gpio == ButtonB ==>
      r.state == s.(previousTime := ToU32(nowUs), bootsel := true)
    ensures !s.bootsel && Accepts(s.previousTime, nowUs) && gpio !in {ButtonA, ButtonB, JoystickButton} ==>
      r.state == s.(previousTime := ToU32(nowUs))
    ensures gpio != ButtonA && gpio != JoystickButton ==>
      && r.state.pwmActive == s.pwmActive
      && r.state.greenLedActive == s.greenLedActive && r.state.borderType == s.borderType
      && r.state.redDuty == s.redDuty && r.state.blueDuty == s.blueDuty
  {
    if s.bootsel || !Accepts(s.previousTime, nowUs) then Outcome(s, [])
    else
      var t := s.(previousTime := ToU32(nowUs));
      if gpio == ButtonA then
        var toggled := t.(pwmActive := !t.pwmActive);
        if !toggled.pwmActive then
          Outcome(ApplyWrites(toggled, [DutyWrite(Red, 0), DutyWrite(Blue, 0)]), [])
        else
          Outcome(toggled, [])
      else if gpio == ButtonB then
        Outcome(t.(bootsel := true), [])
      else if gpio == JoystickButton then
        var toggled := t.(greenLedActive := !t.greenLedActive, borderType := !t.borderType);
        Outcome(toggled, Frame(toggled.sample, toggled.borderType))
      else
        Outcome(t, [])
  }

  /**
   * Outside the terminal state, an edge leaves the state exactly as it was
   * if and only if it falls within 200000 microseconds (wrapping) of the
   * last accepted one; otherwise at least the stored time moves.
   */
  lemma RejectedIffUnchanged(s: State, gpio: nat, nowUs: u64)
    requires !s.bootsel
    ensures Handler(s, gpio, nowUs).state == s <==> Elapsed(s.previousTime, nowUs) <= DebounceUs
  {
    if Accepts(s.previousTime, nowUs) {
      assert Elapsed(s.previousTime, nowUs) != 0;
      assert ToU32(nowUs) != s.previousTime;
    }
  }

  /**
   * A bounce: once an edge at `t1` has been accepted, a second edge on any
   * pin within 200000 microseconds of it (wrapping) has no effect at all.
   */
  lemma {:induction false} BounceIsIgnored(s: State, gpio1: nat, t1: u64, gpio2: nat, t2: u64)
    requires Accepts(s.previousTime, t1)
    requires Sub32(ToU32(t2), ToU32(t1)) <= DebounceUs
    ensures var s1 := Handler(s, gpio1, t1).state;
      Handler(s1, gpio2, t2) == Outcome(s1, [])
  {
    var s1 := Handler(s, gpio1, t1).state;
    if !s.bootsel {
      assert s1.previousTime == ToU32(t1);
      assert !Accepts(s1.previousTime, t2);
    }
  }

  /**
   * Two accepted joystick-button edges restore the green LED and the border
   * style: the only trace they leave is the stored time.
   */
  lemma {:induction false} JoystickTwiceRestores(s: State, t1: u64, t2: u64)
    requires !s.bootsel
    requires Accepts(s.previousTime, t1) && Accepts(ToU32(t1), t2)
    ensures var s1 := Handler(s, JoystickButton, t1).state;
      Handler(s1, JoystickButton, t2).state == s.(previousTime := ToU32(t2))
  {
    var s1 := Handler(s, JoystickButton, t1).state;
    assert s1.previousTime == ToU32(t1);
  }

  /**
   * Two accepted button-A edges restore the PWM flag and leave both duties
   * at 0, whichever way the flag started.
   */
  lemma {:induction false} ButtonATwice(s: State, t1: u64, t2: u64)
    requires !s.bootsel
    requires Accepts(s.previousTime, t1) && Accepts(ToU32(t1), t2)
    ensures var s2 := Handler(Handler(s, ButtonA, t1).state, ButtonA, t2).state;
      && s2.pwmActive == s.pwmActive
      && s2.greenLedActive == s.greenLedActive && s2.borderType == s.borderType
      && s2.redDuty == 0 && s2.blueDuty == 0
  {
    var s1 := Handler(s, ButtonA, t1).state;
    assert s1.previousTime == ToU32(t1);
  }

  /**
   * The stored time starts at 0, so an edge in the first 200 ms after boot
   * is ignored.
   */
  lemma EarlyEdgeIgnored(gpio: nat, nowUs: u64)
    requires nowUs <= DebounceUs
    ensures Handler(Initial, gpio, nowUs) == Outcome(Initial, [])
  {
  }
}
