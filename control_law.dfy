/** Control law (core/flight_controller.py): the vertical-speed command of
    each navigation cycle, the arrival and ALT-HOLD engage rules, and the
    initial vertical speed of the autopilot setup. */
module ControlLaw {
  import opened SimTypes

  const DeadBandFt: real := 25.0
  const VsGain: real := 1.5
  const VsLimitFpm: real := 500.0
  const ArrivalNm: real := 0.3
  const AltHoldErrFt: real := 100.0
  const AltHoldDistNm: real := 3.0
  const InitialVsFpm: int := 800

  /** `vs_cmd`: hold inside the dead-band, else the proportional command
      saturated at the limit. */
  function VsCommand(altErr: real): (vs: real)
    ensures -VsLimitFpm <= vs <= VsLimitFpm
    ensures vs == 0.0 <==> Abs(altErr) <= DeadBandFt
    ensures vs > 0.0 <==> altErr > DeadBandFt
    ensures vs < 0.0 <==> altErr < -DeadBandFt
    ensures Abs(altErr) > DeadBandFt && Abs(altErr * VsGain) <= VsLimitFpm ==> vs == altErr * VsGain
    ensures Abs(altErr * VsGain) > VsLimitFpm ==> Abs(vs) == VsLimitFpm
  {
    if Abs(altErr) > DeadBandFt then
      var p := altErr * VsGain;
      if p > VsLimitFpm then VsLimitFpm else if p < -VsLimitFpm then -VsLimitFpm else p
    else 0.0
  }

  /** The argument of AP_VS_SET_ENGLISH, `int(vs_cmd)`: within the limit, zero
      exactly inside the dead-band, otherwise of the sign of the error. */
  function SentVs(altErr: real): (v: int)
    ensures -500 <= v <= 500
    ensures v == 0 <==> Abs(altErr) <= DeadBandFt
    ensures v > 0 <==> altErr > DeadBandFt
    ensures v < 0 <==> altErr < -DeadBandFt
  {
    Trunc(VsCommand(altErr))
  }

  /** A cycle has arrived when the horizontal distance is under 0.3 NM. */
  predicate ArrivedAt(distNm: real) {
    distNm < ArrivalNm
  }

  /** ALT-HOLD is engaged only near the target in both axes. */
  predicate AltHoldEngages(altErr: real, distNm: real) {
    Abs(altErr) < AltHoldErrFt && Abs(distNm) < AltHoldDistNm
  }

  /** `_prepare_autopilot`'s initial vertical speed: +800 to climb, -800 otherwise. */
  function InitialVs(altErr: real): (v: int)
    ensures v == InitialVsFpm || v == -InitialVsFpm
    ensures v > 0 <==> altErr > 0.0
  {
    if altErr > 0.0 then InitialVsFpm else -InitialVsFpm
  }

  /** Fixture, not a property: sample values of the control law. +1000 ft
      saturates at +500 fpm, +10 ft is held, and a level aircraft is first
      sent down at 800 fpm. */
  lemma ControlFixtures()
    ensures SentVs(1000.0) == 500 && SentVs(10.0) == 0 && SentVs(-1000.0) == -500
    ensures SentVs(100.0) == 150 && SentVs(-30.0) == -45
    ensures InitialVs(0.0) == -800
  {}
}
