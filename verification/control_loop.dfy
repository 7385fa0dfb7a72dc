/**
 * The firmware as a sequence of atomic steps: the main loop's read, map and
 * draw phases interleaved with button interrupts. Each interrupt runs to
 * completion between two loop phases.
 */
module ControlLoop {
  import opened FixedWidth
  import opened ControlState
  import opened Display
  import opened DutyMapper
  import opened Debounce

  /** One atomic step of the firmware. */
  datatype Event =
    | ReadAdc(reading: Sample)              // the loop stores a fresh joystick reading
    | MapDuties(unsetX: u16, unsetY: u16)   // the loop maps the reading to duties; the
                                            // values the unassigned level variables hold
    | Redraw                                // the loop draws the frame
    | Edge(gpio: nat, nowUs: u64)           // a button interrupt at this clock reading

  /**
   * The effect of one event. Reading replaces only the stored sample; the
   * mapper changes only the duties; the loop's redraw changes nothing and
   * draws the frame of the stored sample and border style; an edge is the
   * interrupt handler, run to completion. After the bootloader reset no
   * event has an effect.
   */
  function Step(s: State, e: Event): (r: Outcome)
    ensures s.bootsel ==> r == Outcome(s, [])
    ensures !s.bootsel && e.ReadAdc? ==> r == Outcome(s.(sample := e.reading), [])
    ensures !s.bootsel && e.MapDuties? ==> r == Outcome(MapperStep(s, e.unsetX, e.unsetY), [])
    ensures !s.bootsel && e.MapDuties? ==> r.state == WithDuties(s, r.state.redDuty, r.state.blueDuty)
    ensures !s.bootsel && e.Edge? ==> r == Handler(s, e.gpio, e.nowUs)
    ensures !s.bootsel && e.Redraw? ==> r == Outcome(s, Frame(s.sample, s.borderType))
    ensures r.frame == [] || r.frame == Frame(r.state.sample, r.state.borderType)
  {
    if s.bootsel then Outcome(s, [])
    else
      match e
      case ReadAdc(reading) => Outcome(s.(sample := reading), [])
      case MapDuties(unsetX, unsetY) => Outcome(MapperStep(s, unsetX, unsetY), [])
      case Redraw => Outcome(s, Frame(s.sample, s.borderType))
      case Edge(gpio, nowUs) => Handler(s, gpio, nowUs)
  }

  /** The state after the events `es`, in order. */
  function Run(s: State, es: seq<Event>): State
    decreases |es|
  {
    if es == [] then s else Run(Step(s, es[0]).state, es[1..])
  }

  /** With PWM off both duty registers hold 0. */
  predicate PwmOffMeansDark(s: State) {
    !s.pwmActive ==> s.redDuty == 0 && s.blueDuty == 0
  }

  /** The border style is single exactly while the green LED is off. */
  predicate BorderFollowsLed(s: State) {
    s.borderType == !s.greenLedActive
  }

  predicate Inv(s: State) {
    PwmOffMeansDark(s) && BorderFollowsLed(s)
  }

  lemma InitialInv()
    ensures Inv(Initial)
  {
  }

  /** Every event keeps both invariants. */
  lemma StepKeepsInv(s: State, e: Event)
    requires Inv(s)
    ensures Inv(Step(s, e).state)
  {
  }

  /** Any interleaving of loop phases and interrupts keeps both invariants. */
  lemma {:induction false} RunKeepsInv(s: State, es: seq<Event>)
    requires Inv(s)
    ensures Inv(Run(s, es))
    decreases |es|
  {
    if es != [] {
      StepKeepsInv(s, es[0]);
      RunKeepsInv(Step(s, es[0]).state, es[1..]);
    }
  }

  /**
   * From boot, whatever the readings, the button presses and their timing
   * (each interrupt landing between two loop phases), and whatever the
   * unassigned level variables hold: whenever PWM is off
   * both LEDs are dark, and the border is single exactly when the green LED
   * is off.
   */
  lemma ReachableStatesSatisfyInv(es: seq<Event>)
    ensures var s := Run(Initial, es);
      (!s.pwmActive ==> s.redDuty == 0 && s.blueDuty == 0) && s.borderType == !s.greenLedActive
  {
    InitialInv();
    RunKeepsInv(Initial, es);
  }

  /** The bootloader state is terminal: no sequence of events leaves it. */
  lemma {:induction false} BootselIsTerminal(s: State, es: seq<Event>)
    requires s.bootsel
    ensures Run(s, es) == s
    decreases |es|
  {
    if es != [] {
      BootselIsTerminal(Step(s, es[0]).state, es[1..]);
    }
  }

  /** The events of one pass of the main loop: read, map, draw. */
  function LoopEvents(reading: Sample, unsetX: u16, unsetY: u16): seq<Event> {
    [ReadAdc(reading), MapDuties(unsetX, unsetY), Redraw]
  }

  /**
   * One uninterrupted pass of the main loop: the frame it draws shows the
   * fresh reading with the current border style, the duties are those the
   * mapper gives for that reading, and no flag or time stamp changes.
   */
  lemma LoopPass(s: State, reading: Sample, unsetX: u16, unsetY: u16)
    requires !s.bootsel
    ensures var mapped := MapperStep(s.(sample := reading), unsetX, unsetY);
      && Run(s, LoopEvents(reading, unsetX, unsetY)) == mapped
      && Step(mapped, Redraw).frame == Frame(reading, s.borderType)
  {
    var es := LoopEvents(reading, unsetX, unsetY);
    var s1 := Step(s, es[0]).state;
    var s2 := Step(s1, es[1]).state;
    var s3 := Step(s2, es[2]).state;
    assert es[1..][1..][1..] == [];
    calc {
      Run(s, es);
      Run(s1, es[1..]);
      Run(s2, es[1..][1..]);
      Run(s3, es[1..][1..][1..]);
      s3;
    }
  }

  /**
   * The corrected mapper is the mapper event whose unassigned variables
   * hold 0, so every property proved here over all runs holds of the
   * firmware with the correction in place.
   */
  lemma CorrectedMapperIsAMapperEvent(s: State)
    ensures Step(s, MapDuties(0, 0)) == Outcome(CorrectedMapperStep(s), [])
  {
  }

  /**
   * The mapper as the hardware can run it: the interrupt for an edge on
   * `gpio` lands after `pwm_active` has been tested and before the two level
   * writes, which then go out as already decided. A rejected edge makes this
   * the plain mapper step; an accepted button-A edge that turns PWM off is
   * followed by the red level being written anyway, so PWM ends off with the
   * red LED lit.
   */
  function PreemptedMapper(s: State, unsetX: u16, unsetY: u16, gpio: nat, nowUs: u64): (r: State)
    ensures !s.bootsel && !Accepts(s.previousTime, nowUs) ==> r == MapperStep(s, unsetX, unsetY)
    ensures (&& !s.bootsel && s.pwmActive && Accepts(s.previousTime, nowUs) && gpio == ButtonA
             && s.sample.x <= AdcMax && !InDeadZone(s.sample.x, DefaultVrx)) ==>
      && !r.pwmActive
      && r.redDuty == 2 * Distance(s.sample.x, DefaultVrx)
      && !PwmOffMeansDark(r)
  {
    if s.bootsel then s
    else
      var dead := DeadZoneWrites(s.sample);
      var pending := LevelWrites(s.pwmActive, s.sample, unsetX, unsetY);
      var s1 := ApplyWrites(s, dead);
      var s2 := Handler(s1, gpio, nowUs).state;
      ApplyWritesAppend(s, dead, pending);
      if s2.bootsel then s2 else ApplyWrites(s2, pending)
  }

  /** Full deflection, PWM on, button A pressed in the window: PWM off, red at 4390, blue at 4190. */
  lemma PreemptedButtonALeavesLedsLit()
    ensures var s := Initial.(sample := Sample(4095, 4095));
      var r := PreemptedMapper(s, 0, 0, ButtonA, 300000);
      !r.pwmActive && r.redDuty == 4390 && r.blueDuty == 4190
  {
  }

  /**
   * The mapper with interrupts held off from the test of `pwm_active` to
   * the last level write: an edge arriving in that window is handled after
   * the writes. This is the atomic mapper step of `Step`, and it keeps both
   * invariants whatever the edge.
   */
  function MaskedMapper(s: State, unsetX: u16, unsetY: u16, gpio: nat, nowUs: u64): (r: State)
    ensures Inv(s) ==> Inv(r)
    ensures r == Run(s, [MapDuties(unsetX, unsetY), Edge(gpio, nowUs)])
  {
    var es := [MapDuties(unsetX, unsetY), Edge(gpio, nowUs)];
    var s1 := Step(s, es[0]).state;
    assert es[1..][1..] == [];
    assert Run(s, es) == Run(s1, es[1..]);
    assert Run(s1, es[1..]) == Run(Step(s1, es[1]).state, es[1..][1..]);
    Handler(MapperStep(s, unsetX, unsetY), gpio, nowUs).state
  }
}
