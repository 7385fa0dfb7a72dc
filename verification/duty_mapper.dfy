/**
 * The joystick-to-LED mapping run once per main-loop cycle: each axis
 * reading far enough from its rest position gives a PWM level of twice its
 * distance from that position; inside the inclusive dead zone the channel
 * is set to 0.
 *
 * The model keeps a defect of the code: the per-axis level variable is never
 * assigned in the dead-zone branch, yet it is written to the channel when PWM
 * is active. The value it happens to hold is a parameter (`unsetX`,
 * `unsetY`) about which nothing is assumed.
 */
module DutyMapper {
  import opened FixedWidth
  import opened ControlState

  /** The inclusive band of ±200 counts around `centre`. */
  predicate InDeadZone(v: int, centre: int) {
    centre - DeadZone <= v <= centre + DeadZone
  }

  function Distance(v: int, centre: int): nat {
    if v > centre then v - centre else centre - v
  }

  /**
   * The level computed outside the dead zone: the distance is stored in a
   * `uint16_t`, doubled, and stored again. The two stores reduce modulo
   * 2^16, which never bites for a 12-bit reading.
   */
  function AxisLevel(v: u16, centre: int): (r: u16)
    requires 0 <= centre < Two16
    ensures r == (2 * Distance(v, centre)) % Two16
    ensures v <= AdcMax && centre <= AdcMax ==> r == 2 * Distance(v, centre)
  {
    ToU16(ToU16(Distance(v, centre)) * 2)
  }

  /** The level each channel should carry: 0 in the dead zone, the mapped level outside. */
  function IntendedDuty(v: u16, centre: int): u16
    requires 0 <= centre < Two16
  {
    if InDeadZone(v, centre) then 0 else AxisLevel(v, centre)
  }

  /** The level variable of an axis when it is written: unassigned in the dead zone. */
  function LevelVariable(v: u16, centre: int, unset: u16): u16
    requires 0 <= centre < Two16
  {
    if InDeadZone(v, centre) then unset else AxisLevel(v, centre)
  }

  /** The writes of the two dead-zone branches: a 0 to each channel whose axis is in its dead zone. */
  function DeadZoneWrites(sample: Sample): (ws: seq<DutyWrite>)
    ensures forall i :: 0 <= i < |ws| ==> ws[i].level == 0
    ensures forall i :: 0 <= i < |ws| && ws[i].channel == Red ==> InDeadZone(sample.x, DefaultVrx)
    ensures forall i :: 0 <= i < |ws| && ws[i].channel == Blue ==> InDeadZone(sample.y, DefaultVry)
    ensures InDeadZone(sample.x, DefaultVrx) ==> DutyWrite(Red, 0) in ws
    ensures InDeadZone(sample.y, DefaultVry) ==> DutyWrite(Blue, 0) in ws
  {
    (if InDeadZone(sample.x, DefaultVrx) then [DutyWrite(Red, 0)] else [])
    + (if InDeadZone(sample.y, DefaultVry) then [DutyWrite(Blue, 0)] else [])
  }

  /**
   * The writes made once `pwm_active` has been tested: whatever state they
   * are issued on, they leave red at the X level variable and blue at the Y
   * level variable when PWM is active, and change nothing otherwise.
   */
  function LevelWrites(pwmActive: bool, sample: Sample, unsetX: u16, unsetY: u16): (ws: seq<DutyWrite>)
    ensures forall s: State {:trigger ApplyWrites(s, ws)} ::
              ApplyWrites(s, ws) ==
              (if pwmActive
               then WithDuties(s, LevelVariable(sample.x, DefaultVrx, unsetX), LevelVariable(sample.y, DefaultVry, unsetY))
               else s)
  {
    if pwmActive then
      [DutyWrite(Red, LevelVariable(sample.x, DefaultVrx, unsetX)),
       DutyWrite(Blue, LevelVariable(sample.y, DefaultVry, unsetY))]
    else []
  }

  /**
   * The PWM writes one mapper cycle issues, in order: a 0 to each channel
   * whose axis is in its dead zone, then, only when PWM is active, the level
   * variables of both channels (the unassigned one for a dead-zone axis).
   */
  function MapperWrites(pwmActive: bool, sample: Sample, unsetX: u16, unsetY: u16): (ws: seq<DutyWrite>)
    ensures !pwmActive ==> forall i :: 0 <= i < |ws| ==> ws[i].level == 0
    ensures !pwmActive ==> forall i :: 0 <= i < |ws| && ws[i].channel == Red ==> InDeadZone(sample.x, DefaultVrx)
    ensures !pwmActive ==> forall i :: 0 <= i < |ws| && ws[i].channel == Blue ==> InDeadZone(sample.y, DefaultVry)
    ensures pwmActive ==> (
      && 2 <= |ws|
      && ws[|ws| - 2] == DutyWrite(Red, if InDeadZone(sample.x, DefaultVrx) then unsetX else AxisLevel(sample.x, DefaultVrx))
      && ws[|ws| - 1] == DutyWrite(Blue, if InDeadZone(sample.y, DefaultVry) then unsetY else AxisLevel(sample.y, DefaultVry)))
  {
    DeadZoneWrites(sample) + LevelWrites(pwmActive, sample, unsetX, unsetY)
  }

  /**
   * One mapper cycle on the state, as written. With PWM active each channel
   * ends at its mapped level, except that a dead-zone channel ends at the
   * unassigned value. With PWM inactive a dead-zone channel ends at 0 and the
   * other keeps its level; no computed level is ever written. Only the two
   * duty registers change, and nothing happens after the bootloader reset.
   */
  function MapperStep(s: State, unsetX: u16, unsetY: u16): (r: State)
    ensures r == WithDuties(s, r.redDuty, r.blueDuty)
    ensures s.bootsel ==> r == s
    ensures !s.bootsel && s.pwmActive ==>
      r.redDuty == (if InDeadZone(s.sample.x, DefaultVrx) then unsetX else AxisLevel(s.sample.x, DefaultVrx))
    ensures !s.bootsel && s.pwmActive ==>
      r.blueDuty == (if InDeadZone(s.sample.y, DefaultVry) then unsetY else AxisLevel(s.sample.y, DefaultVry))
    ensures !s.bootsel && !s.pwmActive ==>
      r.redDuty == (if InDeadZone(s.sample.x, DefaultVrx) then 0 else s.redDuty)
    ensures !s.bootsel && !s.pwmActive ==>
      r.blueDuty == (if InDeadZone(s.sample.y, DefaultVry) then 0 else s.blueDuty)
  {
    if s.bootsel then s
    else
      var ws := MapperWrites(s.pwmActive, s.sample, unsetX, unsetY);
      var r := ApplyWrites(s, ws);
      if s.pwmActive then
        var pre := ws[..|ws| - 2];
        assert ws == pre + ws[|ws| - 2..];
        LastLevelAppend(pre, ws[|ws| - 2..], Red, s.redDuty);
        LastLevelAppend(pre, ws[|ws| - 2..], Blue, s.blueDuty);
        r
      else
        r
  }

  /**
   * The mapper with the level variables initialised to 0: with PWM active
   * every channel carries exactly the level its own axis calls for,
   * whatever the other axis reads.
   */
  function CorrectedMapperStep(s: State): (r: State)
    ensures r == WithDuties(s, r.redDuty, r.blueDuty)
    ensures s.bootsel ==> r == s
    ensures !s.bootsel && s.pwmActive ==>
      r.redDuty == IntendedDuty(s.sample.x, DefaultVrx) && r.blueDuty == IntendedDuty(s.sample.y, DefaultVry)
    ensures !s.bootsel && !s.pwmActive ==>
      && r.redDuty == (if InDeadZone(s.sample.x, DefaultVrx) then 0 else s.redDuty)
      && r.blueDuty == (if InDeadZone(s.sample.y, DefaultVry) then 0 else s.blueDuty)
  {
    MapperStep(s, 0, 0)
  }

  /**
   * The defect as written: at rest with PWM active, the red channel ends at
   * whatever the unassigned variable held, not at 0.
   */
  lemma AsWrittenDeadZoneDuty(unsetX: u16)
    ensures var s := Initial.(sample := Sample(DefaultVrx, DefaultVry));
      MapperStep(s, unsetX, 0).redDuty == unsetX
      && IntendedDuty(DefaultVrx, DefaultVrx) == 0
  {
  }

  /** The dead zones are exactly X in [1700, 2100] and Y in [1800, 2200], ends included. */
  lemma DeadZoneBounds(v: u16)
    ensures InDeadZone(v, DefaultVrx) <==> 1700 <= v <= 2100
    ensures InDeadZone(v, DefaultVry) <==> 1800 <= v <= 2200
  {
  }

  /**
   * Outside the dead zone a 12-bit reading maps to exactly twice its
   * distance from the rest position, between 402 and 4390 on X and between
   * 402 and 4190 on Y: the `uint16_t` arithmetic never wraps and nothing
   * clamps the level to the PWM period.
   */
  lemma LevelRange(v: u16)
    requires v <= AdcMax
    ensures !InDeadZone(v, DefaultVrx) ==>
      AxisLevel(v, DefaultVrx) == 2 * Distance(v, DefaultVrx) && 402 <= AxisLevel(v, DefaultVrx) <= 4390
    ensures !InDeadZone(v, DefaultVry) ==>
      AxisLevel(v, DefaultVry) == 2 * Distance(v, DefaultVry) && 402 <= AxisLevel(v, DefaultVry) <= 4190
  {
  }

  /** Full deflection with PWM active: red at 4390, blue at 4190. */
  lemma FullDeflectionDuties(unsetX: u16, unsetY: u16)
    ensures var s := Initial.(sample := Sample(4095, 4095));
      MapperStep(s, unsetX, unsetY).redDuty == 4390 && MapperStep(s, unsetX, unsetY).blueDuty == 4190
  {
  }
}
