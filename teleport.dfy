/** The stepped teleport (`FlightController.teleport`,
    core/flight_controller.py): the aircraft is moved toward the target in
    equal steps of about `step_m` metres along the initial bearing, with the
    altitude difference split evenly over the steps, and is then set exactly
    onto the target and handed to the autopilot. */
module Teleport {
  import opened SimTypes
  import opened Geodesy
  import opened Guidance

  const MetresPerNm: real := 1852.0

  function Min(a: nat, b: nat): nat {
    if a <= b then a else b
  }

  /** `max(1, int(total_m // step_m))`: at least one step, otherwise the
      number of whole steps that fit into the distance. */
  function StepCount(totalM: real, stepM: real): (n: nat)
    requires stepM != 0.0
    ensures n >= 1
    ensures n == 1 <==> totalM / stepM < 2.0
    ensures n > 1 ==> n as real <= totalM / stepM < n as real + 1.0
  {
    var q := (totalM / stepM).Floor;
    if q < 1 then 1 else q
  }

  /** What teleport computes before its step loop. */
  datatype Plan = Plan(steps: nat, dLat: real, dLon: real, dAlt: real, heading: int)

  /** The plan from the current position (lat, lon, alt) to `tgt`. The first
      heading is the one given, else the bearing, truncated to whole degrees. */
  function PlanFor(geo: Geo, lat: real, lon: real, alt: real, tgt: Target, hdg: Option<real>, stepM: real): (p: Plan)
    requires stepM != 0.0
    ensures p.steps >= 1
    ensures p.steps as real * p.dAlt == tgt.alt - alt
    ensures hdg.None? ==> 0 <= p.heading < 360
  {
    var brg := Bearing(geo, lat, lon, tgt.lat, tgt.lon);
    var totalM := geo.distanceNm(lat, lon, tgt.lat, tgt.lon) * MetresPerNm;
    var n := StepCount(totalM, stepM);
    Plan(n, geo.latPerStep(stepM, brg), geo.lonPerStep(stepM, brg, lat),
         (tgt.alt - alt) / n as real, Trunc(hdg.GetOr(brg)))
  }

  /** The value of `cur += d` after `k` passes. */
  function Accum(x0: real, d: real, k: nat): real {
    if k == 0 then x0 else Accum(x0, d, k - 1) + d
  }

  lemma {:induction false} AccumIsLinear(x0: real, d: real, k: nat)
    ensures Accum(x0, d, k) == x0 + k as real * d
  {
    if k > 0 {
      AccumIsLinear(x0, d, k - 1);
      assert (k - 1) as real * d + d == k as real * d;
    }
  }

  /** Step number `i` (from 1) at the position reached after `i` increments. */
  function StepOut(bound: set<EventName>, lat: real, lon: real, alt: real, i: nat): seq<Output> {
    [SetVar(PlaneLatitude, lat), SetVar(PlaneLongitude, lon), SetVar(PlaneAltitude, alt)]
      + Emit(bound, ApAltVarSetEnglish, Some(Trunc(alt)))
      + [Report(TeleportStep(i))]
  }

  /** The first `n` passes of the step loop from (lat0, lon0, alt0). */
  function StepsOut(bound: set<EventName>, p: Plan, lat0: real, lon0: real, alt0: real, n: nat): seq<Output> {
    if n == 0 then []
    else StepsOut(bound, p, lat0, lon0, alt0, n - 1)
           + StepOut(bound, Accum(lat0, p.dLat, n), Accum(lon0, p.dLon, n), Accum(alt0, p.dAlt, n), n)
  }

  /** The snap onto the target after the step loop. */
  function SnapOut(tgt: Target): seq<Output> {
    [SetVar(PlaneLatitude, tgt.lat), SetVar(PlaneLongitude, tgt.lon), SetVar(PlaneAltitude, tgt.alt),
     Report(TeleportDone)]
  }

  /** The cruise settings handed to the autopilot at the end. */
  function CruiseOut(bound: set<EventName>, tgt: Target, spd: real): seq<Output> {
    Emit(bound, ApMaster, None)
      + Emit(bound, ApAltVarSetEnglish, Some(Trunc(tgt.alt)))
      + Emit(bound, ApVsSetEnglish, Some(0))
      + Emit(bound, ApSpdVarSet, Some(Trunc(spd)))
      + Emit(bound, ApAutothrottleArm, None)
      + Emit(bound, ThrottleAxisSetEx1, Some(8192))
  }

  function PreludeOut(bound: set<EventName>, p: Plan): seq<Output> {
    [Report(TeleportPlanned(p.steps))]
      + Emit(bound, HeadingBugSet, Some(p.heading))
      + Emit(bound, ApHdgHoldOn, None)
  }

  /** Everything `teleport` sends, given the position read at the start and
      the first pass of the step loop (from 0) whose stop-flag check sees the
      flag set. A read that raises and a zero step length (division by zero)
      end in the error report; a missing reading ends in the no-data report. */
  function TeleportOut(env: Env, tgt: Target, spd: real, hdg: Option<real>, stepM: real,
                       here: Sample, stopAt: nat): seq<Output>
  {
    if Faulty(here) then [Report(TeleportFailed)]
    else if !Complete(here) then [Report(TeleportNoData)]
    else if stepM == 0.0 then [Report(TeleportFailed)]
    else
      var lat, lon, alt := here.lat.v, here.lon.v, here.alt.v;
      var p := PlanFor(env.geo, lat, lon, alt, tgt, hdg, stepM);
      (PreludeOut(env.bound, p) + StepsOut(env.bound, p, lat, lon, alt, Min(p.steps, stopAt)))
        + (SnapOut(tgt) + CruiseOut(env.bound, tgt, spd))
  }

  // ---------------------------------------------------------------------
  // Properties

  /** Without a full position (or with a read that raises, or a zero step
      length) teleport writes no variable and fires no event: it only
      reports why. */
  lemma TeleportNeedsPosition(env: Env, tgt: Target, spd: real, hdg: Option<real>, stepM: real,
                              here: Sample, stopAt: nat)
    requires !Complete(here) || stepM == 0.0
    ensures var out := TeleportOut(env, tgt, spd, hdg, stepM, here, stopAt);
            |out| == 1 && out[0].Report?
            && out[0].status in {TeleportFailed, TeleportNoData}
            && (out[0].status == TeleportNoData <==> !Faulty(here) && !Complete(here))
  {
    if Complete(here) {
      assert !Faulty(here);
    }
  }

  lemma CruiseWritesNothing(bound: set<EventName>, tgt: Target, spd: real, v: VarName)
    ensures Untouched(CruiseOut(bound, tgt, spd), v)
  {}

  lemma PreludeWritesNothing(bound: set<EventName>, p: Plan, v: VarName)
    ensures Untouched(PreludeOut(bound, p), v)
  {}

  lemma SnapWrites(tgt: Target)
    ensures LastSet(SnapOut(tgt), PlaneLatitude) == Some(tgt.lat)
    ensures LastSet(SnapOut(tgt), PlaneLongitude) == Some(tgt.lon)
    ensures LastSet(SnapOut(tgt), PlaneAltitude) == Some(tgt.alt)
    ensures Writes(SnapOut(tgt), PlaneAltitude) == [tgt.alt]
  {
    var a, b, c, d := SetVar(PlaneLatitude, tgt.lat), SetVar(PlaneLongitude, tgt.lon),
                      SetVar(PlaneAltitude, tgt.alt), Report(TeleportDone);
    assert SnapOut(tgt) == [a, b, c] + [d];
    assert [a, b, c] == [a, b] + [c];
    assert [a, b] == [a] + [b];
    assert [a] == [] + [a];
    LastSetSnoc([a, b, c], d, PlaneLatitude);
    LastSetSnoc([a, b], c, PlaneLatitude);
    LastSetSnoc([a], b, PlaneLatitude);
    LastSetSnoc([], a, PlaneLatitude);
    LastSetSnoc([a, b, c], d, PlaneLongitude);
    LastSetSnoc([a, b], c, PlaneLongitude);
    LastSetSnoc([a, b, c], d, PlaneAltitude);
    WritesAppend([a, b, c], [d], PlaneAltitude);
    WritesAppend([a, b], [c], PlaneAltitude);
    WritesAppend([a], [b], PlaneAltitude);
    WritesOne(a, PlaneAltitude);
    WritesOne(b, PlaneAltitude);
    WritesOne(c, PlaneAltitude);
    WritesOne(d, PlaneAltitude);
  }

  /** The shape of a teleport that reads a full position. */
  lemma TeleportShape(env: Env, tgt: Target, spd: real, hdg: Option<real>, stepM: real,
                      here: Sample, stopAt: nat)
    requires Complete(here) && stepM != 0.0
    ensures var p := PlanFor(env.geo, here.lat.v, here.lon.v, here.alt.v, tgt, hdg, stepM);
            TeleportOut(env, tgt, spd, hdg, stepM, here, stopAt)
              == (PreludeOut(env.bound, p) + StepsOut(env.bound, p, here.lat.v, here.lon.v, here.alt.v, Min(p.steps, stopAt)))
                 + (SnapOut(tgt) + CruiseOut(env.bound, tgt, spd))
  {
    assert !Faulty(here);
  }

  /** Whatever the stop flag did to the step loop, the last values written
      to the position are exactly the target. */
  lemma TeleportSnapsToTarget(env: Env, tgt: Target, spd: real, hdg: Option<real>, stepM: real,
                              here: Sample, stopAt: nat)
    requires Complete(here) && stepM != 0.0
    ensures var out := TeleportOut(env, tgt, spd, hdg, stepM, here, stopAt);
            LastSet(out, PlaneLatitude) == Some(tgt.lat)
            && LastSet(out, PlaneLongitude) == Some(tgt.lon)
            && LastSet(out, PlaneAltitude) == Some(tgt.alt)
  {
    var p := PlanFor(env.geo, here.lat.v, here.lon.v, here.alt.v, tgt, hdg, stepM);
    var pre := PreludeOut(env.bound, p) + StepsOut(env.bound, p, here.lat.v, here.lon.v, here.alt.v, Min(p.steps, stopAt));
    var snap := SnapOut(tgt);
    var cruise := CruiseOut(env.bound, tgt, spd);
    TeleportShape(env, tgt, spd, hdg, stepM, here, stopAt);
    SnapWrites(tgt);
    forall v | v in {PlaneLatitude, PlaneLongitude, PlaneAltitude}
      ensures LastSet(pre + (snap + cruise), v) == LastSet(snap, v)
    {
      CruiseWritesNothing(env.bound, tgt, spd, v);
      UntouchedNoWrites(cruise, v);
      LastSetAppend(snap, cruise, v);
      LastSetAppend(pre, snap + cruise, v);
    }
  }

  lemma StepWrites(bound: set<EventName>, lat: real, lon: real, alt: real, i: nat)
    ensures Writes(StepOut(bound, lat, lon, alt, i), PlaneAltitude) == [alt]
  {
    var a, b, c := SetVar(PlaneLatitude, lat), SetVar(PlaneLongitude, lon), SetVar(PlaneAltitude, alt);
    var tail := Emit(bound, ApAltVarSetEnglish, Some(Trunc(alt))) + [Report(TeleportStep(i))];
    assert StepOut(bound, lat, lon, alt, i) == [a, b, c] + tail;
    assert [a, b, c] == [a, b] + [c];
    assert [a, b] == [a] + [b];
    assert Untouched(tail, PlaneAltitude);
    UntouchedNoWrites(tail, PlaneAltitude);
    WritesAppend([a, b, c], tail, PlaneAltitude);
    WritesAppend([a, b], [c], PlaneAltitude);
    WritesAppend([a], [b], PlaneAltitude);
    WritesOne(a, PlaneAltitude);
    WritesOne(b, PlaneAltitude);
    WritesOne(c, PlaneAltitude);
  }

  lemma {:induction false} StepAltitudes(bound: set<EventName>, p: Plan, lat0: real, lon0: real, alt0: real, n: nat)
    ensures var alts := Writes(StepsOut(bound, p, lat0, lon0, alt0, n), PlaneAltitude);
            |alts| == n && forall j :: 0 <= j < n ==> alts[j] == Accum(alt0, p.dAlt, j + 1)
  {
    if n > 0 {
      var prev := StepsOut(bound, p, lat0, lon0, alt0, n - 1);
      var a := Accum(alt0, p.dAlt, n);
      var step := StepOut(bound, Accum(lat0, p.dLat, n), Accum(lon0, p.dLon, n), a, n);
      assert StepsOut(bound, p, lat0, lon0, alt0, n) == prev + step;
      StepAltitudes(bound, p, lat0, lon0, alt0, n - 1);
      WritesAppend(prev, step, PlaneAltitude);
      StepWrites(bound, Accum(lat0, p.dLat, n), Accum(lon0, p.dLon, n), a, n);
      var prevAlts := Writes(prev, PlaneAltitude);
      var alts := Writes(StepsOut(bound, p, lat0, lon0, alt0, n), PlaneAltitude);
      assert alts == prevAlts + [a];
      forall j | 0 <= j < n
        ensures alts[j] == Accum(alt0, p.dAlt, j + 1)
      {
        if j < n - 1 {
          assert alts[j] == prevAlts[j];
        }
      }
    }
  }

  predicate Between(x: real, a: real, b: real) {
    (a <= x <= b) || (b <= x <= a)
  }

  lemma ScaleNonNeg(d: real, a: real, b: real)
    requires d >= 0.0 && 0.0 <= a <= b
    ensures 0.0 <= a * d <= b * d
  {}

  /** After k of n passes the accumulated value lies between the start and
      the value n passes reach. */
  lemma AccumBetween(x0: real, d: real, k: nat, n: nat)
    requires 1 <= k <= n
    ensures Between(Accum(x0, d, k), x0, Accum(x0, d, n))
  {
    AccumIsLinear(x0, d, k);
    AccumIsLinear(x0, d, n);
    if d >= 0.0 {
      ScaleNonNeg(d, k as real, n as real);
    } else {
      ScaleNonNeg(-d, k as real, n as real);
    }
  }

  lemma TeleportAltitudeWrites(env: Env, tgt: Target, spd: real, hdg: Option<real>, stepM: real,
                               here: Sample, stopAt: nat)
    requires Complete(here) && stepM != 0.0
    ensures var p := PlanFor(env.geo, here.lat.v, here.lon.v, here.alt.v, tgt, hdg, stepM);
            Writes(TeleportOut(env, tgt, spd, hdg, stepM, here, stopAt), PlaneAltitude)
              == Writes(StepsOut(env.bound, p, here.lat.v, here.lon.v, here.alt.v, Min(p.steps, stopAt)), PlaneAltitude)
                 + [tgt.alt]
  {
    var p := PlanFor(env.geo, here.lat.v, here.lon.v, here.alt.v, tgt, hdg, stepM);
    var pre := PreludeOut(env.bound, p);
    var steps := StepsOut(env.bound, p, here.lat.v, here.lon.v, here.alt.v, Min(p.steps, stopAt));
    var snap := SnapOut(tgt);
    var cruise := CruiseOut(env.bound, tgt, spd);
    TeleportShape(env, tgt, spd, hdg, stepM, here, stopAt);
    PreludeWritesNothing(env.bound, p, PlaneAltitude);
    UntouchedNoWrites(pre, PlaneAltitude);
    CruiseWritesNothing(env.bound, tgt, spd, PlaneAltitude);
    UntouchedNoWrites(cruise, PlaneAltitude);
    SnapWrites(tgt);
    WritesAppend(pre, steps, PlaneAltitude);
    WritesAppend(snap, cruise, PlaneAltitude);
    WritesAppend(pre + steps, snap + cruise, PlaneAltitude);
  }

  /** Each altitude the step loop writes lies between the start and the
      target, and the last of a full loop is the target. */
  lemma StepPath(bound: set<EventName>, p: Plan, lat0: real, lon0: real, alt0: real, tgtAlt: real, m: nat)
    requires tgtAlt == Accum(alt0, p.dAlt, p.steps) && m <= p.steps
    ensures var alts := Writes(StepsOut(bound, p, lat0, lon0, alt0, m), PlaneAltitude);
            |alts| == m
            && (forall j :: 0 <= j < m ==> Between(alts[j], alt0, tgtAlt))
            && (0 < m == p.steps ==> alts[m - 1] == tgtAlt)
  {
    var alts := Writes(StepsOut(bound, p, lat0, lon0, alt0, m), PlaneAltitude);
    StepAltitudes(bound, p, lat0, lon0, alt0, m);
    forall j | 0 <= j < m
      ensures Between(alts[j], alt0, tgtAlt)
    {
      AccumBetween(alt0, p.dAlt, j + 1, p.steps);
      assert alts[j] == Accum(alt0, p.dAlt, j + 1);
    }
    if 0 < m == p.steps {
      assert alts[m - 1] == Accum(alt0, p.dAlt, m);
    }
  }

  /** The per-step altitude increments add up to the altitude difference. */
  lemma PlanReachesTarget(geo: Geo, lat: real, lon: real, alt: real, tgt: Target, hdg: Option<real>, stepM: real)
    requires stepM != 0.0
    ensures var p := PlanFor(geo, lat, lon, alt, tgt, hdg, stepM);
            Accum(alt, p.dAlt, p.steps) == tgt.alt
  {
    var p := PlanFor(geo, lat, lon, alt, tgt, hdg, stepM);
    AccumIsLinear(alt, p.dAlt, p.steps);
  }

  /** The altitude path of a teleport: one write per completed step, each
      on the straight line from the start altitude toward the target and
      never beyond it, then the target itself; and when no stop interrupts
      the loop, the last step already lands on the target altitude. */
  lemma TeleportAltitudePath(env: Env, tgt: Target, spd: real, hdg: Option<real>, stepM: real,
                             here: Sample, stopAt: nat)
    requires Complete(here) && stepM != 0.0
    ensures var alt0 := here.alt.v;
            var p := PlanFor(env.geo, here.lat.v, here.lon.v, alt0, tgt, hdg, stepM);
            var alts := Writes(TeleportOut(env, tgt, spd, hdg, stepM, here, stopAt), PlaneAltitude);
            |alts| == Min(p.steps, stopAt) + 1
            && alts[|alts| - 1] == tgt.alt
            && (forall j :: 0 <= j < |alts| - 1 ==> Between(alts[j], alt0, tgt.alt))
            && (stopAt >= p.steps ==> alts[|alts| - 2] == tgt.alt)
  {
    var lat, lon, alt0 := here.lat.v, here.lon.v, here.alt.v;
    var p := PlanFor(env.geo, lat, lon, alt0, tgt, hdg, stepM);
    var m := Min(p.steps, stopAt);
    var stepAlts := Writes(StepsOut(env.bound, p, lat, lon, alt0, m), PlaneAltitude);
    var alts := Writes(TeleportOut(env, tgt, spd, hdg, stepM, here, stopAt), PlaneAltitude);
    TeleportAltitudeWrites(env, tgt, spd, hdg, stepM, here, stopAt);
    assert alts == stepAlts + [tgt.alt];
    PlanReachesTarget(env.geo, lat, lon, alt0, tgt, hdg, stepM);
    StepPath(env.bound, p, lat, lon, alt0, tgt.alt, m);
    assert forall j :: 0 <= j < |alts| - 1 ==> alts[j] == stepAlts[j];
  }
}
