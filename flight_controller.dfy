/** `FlightController` (core/flight_controller.py) as a class: the stop flag
    and the running navigation task are fields its methods update, the
    simulator is the `Vehicle` it writes to, and every loop of the source is
    a loop here, proved to send exactly what the functions of Guidance,
    Scenario, Teleport and Stream describe. */
module FlightControl {
  import opened SimTypes
  import opened Geodesy
  import opened ControlLaw
  import opened Guidance
  import opened Scenario
  import opened Teleport
  import opened Stream

  /** The task behind `nav_thread`: none (or finished), a single-target
      navigation, or a scenario. */
  datatype Task = Idle | Navigating(target: Target) | Touring(wps: seq<Waypoint>)

  /** What a task still sends once it sees the stop flag at its loop-top
      check: the navigator its VS 0, the sequencer its completion report
      and VS 0. */
  function Farewell(bound: set<EventName>, task: Task): seq<Output> {
    match task
    case Idle => []
    case Navigating(_) => Emit(bound, ApVsSetEnglish, Some(0))
    case Touring(_) => [Report(ScenarioDone)] + Emit(bound, ApVsSetEnglish, Some(0))
  }

  class FlightController {
    const sim: Vehicle
    const geo: Geo
    var task: Task
    var navStop: bool

    /** A live task has a clear stop flag: every task is started right
        after the flag is cleared, and a set flag ends it. */
    predicate Valid()
      reads this
    {
      task != Idle ==> !navStop
    }

    constructor (sim: Vehicle, geo: Geo)
      ensures this.sim == sim && this.geo == geo
      ensures task == Idle && !navStop && Valid()
    {
      this.sim := sim;
      this.geo := geo;
      task := Idle;
      navStop := false;
    }

    function Ctx(): Env {
      Env(geo, sim.bound)
    }

    /** `stop_nav`: when a task is live, set the flag and wait until the task
        has seen it and finished; otherwise do nothing at all. */
    method StopNav()
      requires Valid()
      modifies this, sim
      ensures old(task) != Idle ==> navStop
      ensures old(task) == Idle ==> navStop == old(navStop)
      ensures task == Idle && Valid()
      ensures sim.log == old(sim.log) + Farewell(sim.bound, old(task))
    {
      match task
      case Idle =>
      case Navigating(_) =>
        navStop := true;
        sim.Ev(ApVsSetEnglish, Some(0));
        task := Idle;
      case Touring(_) =>
        navStop := true;
        sim.Say(ScenarioDone);
        sim.Ev(ApVsSetEnglish, Some(0));
        task := Idle;
    }

    /** `_prepare_autopilot`; `ok` is false when a read raised. */
    method PrepareAutopilot(t: Target, spd: real, s: Sample) returns (ok: bool)
      modifies sim
      ensures var c := PrepareOut(Ctx(), t, spd, s);
              ok == c.Continue? && sim.log == old(sim.log) + c.out
    {
      ghost var log0, bound := sim.log, sim.bound;
      sim.Ev(ApAltHoldOff, None);
      if Faulty(s) {
        return false;
      }
      var lat, lon, alt := OrZero(s.lat), OrZero(s.lon), OrZero(s.alt);
      var brg := Bearing(geo, lat, lon, t.lat, t.lon);
      var altErr := t.alt - alt;
      var initialVs := if altErr > 0.0 then 800 else -800;
      ghost var h := Emit(bound, ApAltHoldOff, None);
      ghost var steer := SteerSetup(bound, HeadingBug(brg), Trunc(t.alt));
      ghost var vs := Emit(bound, ApVsSetEnglish, Some(initialVs));
      ghost var sp := Emit(bound, ApSpdVarSet, Some(Trunc(spd)));
      SendSteer(HeadingBug(brg), Trunc(t.alt));
      AppendAssoc(log0, h, steer);
      sim.Ev(ApVsSetEnglish, Some(initialVs));
      AppendAssoc(log0, h + steer, vs);
      sim.Ev(ApSpdVarSet, Some(Trunc(spd)));
      AppendAssoc(log0, h + steer + vs, sp);
      SendPower();
      AppendAssoc(log0, h + steer + vs + sp, PowerSetup(bound));
      assert h + steer + vs + sp + PowerSetup(bound) == PrepareOut(Ctx(), t, spd, s).out;
      return true;
    }

    /** The steering part of `_prepare_autopilot`. */
    method SendSteer(bug: int, altVar: int)
      modifies sim
      ensures sim.log == old(sim.log) + SteerSetup(sim.bound, bug, altVar)
    {
      ghost var log0, bound := sim.log, sim.bound;
      ghost var a, b := Emit(bound, ApMaster, None), Emit(bound, HeadingBugSet, Some(bug));
      ghost var c, d := Emit(bound, ApHdgHoldOff, None), Emit(bound, ApHdgHoldOn, None);
      ghost var e := Emit(bound, ApAltVarSetEnglish, Some(altVar));
      sim.Ev(ApMaster, None);
      sim.Ev(HeadingBugSet, Some(bug));
      AppendAssoc(log0, a, b);
      sim.Ev(ApHdgHoldOff, None);
      AppendAssoc(log0, a + b, c);
      sim.Ev(ApHdgHoldOn, None);
      AppendAssoc(log0, a + b + c, d);
      sim.Ev(ApAltVarSetEnglish, Some(altVar));
      AppendAssoc(log0, a + b + c + d, e);
    }

    /** The power part of `_prepare_autopilot`. */
    method SendPower()
      modifies sim
      ensures sim.log == old(sim.log) + PowerSetup(sim.bound)
    {
      ghost var log0, bound := sim.log, sim.bound;
      ghost var a := [SetVar(FlapsHandlePercent, 0.0), SetVar(ElevatorTrimPosition, 0.0)];
      ghost var b, c := Emit(bound, ThrottleAxisSetEx1, Some(8192)), Emit(bound, ApAutothrottleArm, None);
      sim.Set(FlapsHandlePercent, 0.0);
      sim.Set(ElevatorTrimPosition, 0.0);
      assert sim.log == log0 + a;
      sim.Ev(ThrottleAxisSetEx1, Some(8192));
      AppendAssoc(log0, a, b);
      sim.Ev(ApAutothrottleArm, None);
      AppendAssoc(log0, a + b, c);
    }

    /** `fly_to`: ALT-HOLD off, stop the running task, clear the flag, set up
        the autopilot and start navigating. A read that raises during the
        setup propagates to the caller and no task starts. */
    method FlyTo(t: Target, spd: real, here: Sample) returns (started: bool)
      requires Valid()
      modifies this, sim
      ensures started == !Faulty(here)
      ensures !navStop && task == (if started then Navigating(t) else Idle) && Valid()
      ensures sim.log == old(sim.log) + Emit(sim.bound, ApAltHoldOff, None)
                         + Farewell(sim.bound, old(task)) + PrepareOut(Ctx(), t, spd, here).out
    {
      sim.Ev(ApAltHoldOff, None);
      StopNav();
      navStop := false;
      started := PrepareAutopilot(t, spd, here);
      if started {
        task := Navigating(t);
      }
    }

    /** `fly_scenario`: stop the running task and clear the flag; an empty
        list is reported and starts nothing. */
    method FlyScenario(wps: seq<Waypoint>)
      requires Valid()
      modifies this, sim
      ensures !navStop && task == (if wps == [] then Idle else Touring(wps)) && Valid()
      ensures sim.log == old(sim.log) + Farewell(sim.bound, old(task))
                         + (if wps == [] then [Report(ScenarioEmpty)] else [])
    {
      StopNav();
      navStop := false;
      if wps == [] {
        sim.Say(ScenarioEmpty);
        return;
      }
      task := Touring(wps);
    }

    /** The body of `_nav_loop`'s while loop after the stop check. */
    method NavStep(t: Target, s: Sample) returns (exit: Option<End>)
      modifies sim
      ensures var c := NavCycle(Ctx(), t, s);
              sim.log == old(sim.log) + c.out
              && (exit.Some? <==> c.Exit?) && (c.Exit? ==> exit.value == c.end)
    {
      if Faulty(s) {
        sim.Say(NavFailed);
        return Some(Crashed);
      }
      if !Complete(s) {
        return None;
      }
      var dist := geo.distanceNm(s.lat.v, s.lon.v, t.lat, t.lon);
      var altErr := t.alt - s.alt.v;
      if dist < ArrivalNm {
        sim.Say(TargetReached);
        return Some(Arrived);
      }
      ghost var log0, bound := sim.log, sim.bound;
      var brg := Bearing(geo, s.lat.v, s.lon.v, t.lat, t.lon);
      sim.Ev(HeadingBugSet, Some(HeadingBug(brg)));
      ghost var acc := Emit(bound, HeadingBugSet, Some(HeadingBug(brg)));
      sim.Ev(ApHdgHoldOn, None);
      AppendAssoc(log0, acc, Emit(bound, ApHdgHoldOn, None));
      acc := acc + Emit(bound, ApHdgHoldOn, None);
      var vs := 0.0;
      if Abs(altErr) > DeadBandFt {
        vs := altErr * VsGain;
        if vs > VsLimitFpm { vs := VsLimitFpm; }
        if vs < -VsLimitFpm { vs := -VsLimitFpm; }
      }
      assert vs == VsCommand(altErr);
      sim.Ev(ApAltVarSetEnglish, Some(Trunc(t.alt)));
      AppendAssoc(log0, acc, Emit(bound, ApAltVarSetEnglish, Some(Trunc(t.alt))));
      acc := acc + Emit(bound, ApAltVarSetEnglish, Some(Trunc(t.alt)));
      sim.Ev(ApVsSetEnglish, Some(Trunc(vs)));
      AppendAssoc(log0, acc, Emit(bound, ApVsSetEnglish, Some(SentVs(altErr))));
      acc := acc + Emit(bound, ApVsSetEnglish, Some(SentVs(altErr)));
      sim.Say(NavProgress);
      AppendAssoc(log0, acc, [Report(NavProgress)]);
      acc := acc + [Report(NavProgress)];
      ghost var hold := if AltHoldEngages(altErr, dist) then Emit(bound, ApAltHoldOn, None) else [];
      if Abs(altErr) < AltHoldErrFt && Abs(dist) < AltHoldDistNm {
        sim.Ev(ApAltHoldOn, None);
      }
      AppendAssoc(log0, acc, hold);
      acc := acc + hold;
      assert acc == NavCycle(Ctx(), t, s).out;
      return None;
    }

    /** `_nav_loop` run over the observed ticks: the task ends, with the
        flag left set when it was the flag that ended it, unless the
        observations ran out first. */
    method NavLoop(ticks: seq<Tick>) returns (end: End)
      requires Valid() && task.Navigating?
      modifies this, sim
      ensures var r := NavRun(Ctx(), old(task).target, ticks);
              end == r.end && sim.log == old(sim.log) + r.out
      ensures end == Polling ==> task == old(task) && navStop == old(navStop)
      ensures end != Polling ==> task == Idle && navStop == (end == Stopped)
      ensures Valid()
    {
      var t := task.target;
      ghost var env := Ctx();
      sim.Say(NavStarted);
      ghost var log0 := sim.log;
      end := NavTicks(t, ticks);
      ghost var acc := NavLoopRun(env, t, ticks).out;
      ghost var vs0 := if end in {Arrived, Stopped} then Emit(env.bound, ApVsSetEnglish, Some(0)) else [];
      if end == Arrived || end == Stopped {
        sim.Ev(ApVsSetEnglish, Some(0));
      }
      assert sim.log == log0 + acc + vs0;
      AppendAssoc(old(sim.log), [Report(NavStarted)], acc);
      AppendAssoc(old(sim.log), [Report(NavStarted)] + acc, vs0);
      if end != Polling {
        task := Idle;
        navStop := end == Stopped;
      }
    }

    /** The while loop of `_nav_loop` over the observed ticks, toward `t`. */
    method NavTicks(t: Target, ticks: seq<Tick>) returns (end: End)
      modifies sim
      ensures var r := NavLoopRun(Ctx(), t, ticks);
              end == r.end && sim.log == old(sim.log) + r.out
    {
      ghost var env := Ctx();
      ghost var log0 := sim.log;
      ghost var acc: seq<Output> := [];
      var i := 0;
      end := Polling;
      while i < |ticks|
        invariant 0 <= i <= |ticks|
        invariant end == Polling
        invariant sim.log == log0 + acc
        invariant NavLoopRun(env, t, ticks) == Prepend(acc, NavLoopRun(env, t, ticks[i..]))
      {
        assert ticks[i..][0] == ticks[i] && ticks[i..][1..] == ticks[i + 1..];
        if ticks[i].Cancelled? {
          end := Stopped;
          break;
        }
        var s := ticks[i].sample;
        ghost var c := NavCycle(env, t, s);
        var exit := NavStep(t, s);
        AppendAssoc(log0, acc, c.out);
        if exit.Some? {
          acc := acc + c.out;
          end := exit.value;
          break;
        }
        ghost var rest := NavLoopRun(env, t, ticks[i + 1..]);
        AppendAssoc(acc, c.out, rest.out);
        acc := acc + c.out;
        i := i + 1;
      }
      assert NavLoopRun(env, t, ticks) == Run(end, acc);
    }

    /** The body of `_scenario_loop`'s inner while loop after the stop check,
        for waypoint number `idx`. */
    method ScenarioStep(t: Target, idx: nat, s: Sample) returns (exit: Option<End>)
      modifies sim
      ensures var c := ScenarioCycle(Ctx(), t, idx, s);
              sim.log == old(sim.log) + c.out
              && (exit.Some? <==> c.Exit?) && (c.Exit? ==> exit.value == c.end)
    {
      if Faulty(s) {
        sim.Say(ScenarioFailed);
        return Some(Crashed);
      }
      if !Complete(s) {
        return None;
      }
      ghost var log0, bound := sim.log, sim.bound;
      var dist := geo.distanceNm(s.lat.v, s.lon.v, t.lat, t.lon);
      var altErr := t.alt - s.alt.v;
      ghost var hold := if AltHoldEngages(altErr, dist) then Emit(bound, ApAltHoldOn, None) else [];
      if Abs(altErr) < AltHoldErrFt && Abs(dist) < AltHoldDistNm {
        sim.Ev(ApAltHoldOn, None);
      }
      assert sim.log == log0 + hold;
      if dist < ArrivalNm {
        sim.Say(WaypointReached(idx));
        assert ScenarioCycle(Ctx(), t, idx, s) == Exit(Arrived, hold + [Report(WaypointReached(idx))]);
        AppendAssoc(log0, hold, [Report(WaypointReached(idx))]);
        return Some(Arrived);
      }
      var brg := Bearing(geo, s.lat.v, s.lon.v, t.lat, t.lon);
      ghost var acc := [];
      sim.Ev(HeadingBugSet, Some(HeadingBug(brg)));
      AppendAssoc(log0, hold, Emit(bound, HeadingBugSet, Some(HeadingBug(brg))));
      acc := Emit(bound, HeadingBugSet, Some(HeadingBug(brg)));
      sim.Ev(ApHdgHoldOn, None);
      AppendAssoc(log0 + hold, acc, Emit(bound, ApHdgHoldOn, None));
      acc := acc + Emit(bound, ApHdgHoldOn, None);
      var vs := 0.0;
      if Abs(altErr) > DeadBandFt {
        vs := altErr * VsGain;
        if vs > VsLimitFpm { vs := VsLimitFpm; }
        if vs < -VsLimitFpm { vs := -VsLimitFpm; }
      }
      assert vs == VsCommand(altErr);
      sim.Ev(ApAltVarSetEnglish, Some(Trunc(t.alt)));
      AppendAssoc(log0 + hold, acc, Emit(bound, ApAltVarSetEnglish, Some(Trunc(t.alt))));
      acc := acc + Emit(bound, ApAltVarSetEnglish, Some(Trunc(t.alt)));
      sim.Ev(ApVsSetEnglish, Some(Trunc(vs)));
      AppendAssoc(log0 + hold, acc, Emit(bound, ApVsSetEnglish, Some(SentVs(altErr))));
      acc := acc + Emit(bound, ApVsSetEnglish, Some(SentVs(altErr)));
      sim.Say(ScenarioProgress(idx));
      AppendAssoc(log0 + hold, acc, [Report(ScenarioProgress(idx))]);
      acc := acc + [Report(ScenarioProgress(idx))];
      assert acc == Track(Ctx(), t, idx, s.lat.v, s.lon.v, s.alt.v);
      assert ScenarioCycle(Ctx(), t, idx, s) == Continue(hold + acc);
      AppendAssoc(log0, hold, acc);
      return None;
    }

    /** The arrival loop of waypoint number `k + 1` (the inner while loop of
        `_scenario_loop`), from tick `i`: it ends at `j` with `Arrived` when
        the waypoint is reached, or with how the whole tour ended. */
    method FlyLeg(wps: seq<Waypoint>, k: nat, ticks: seq<Tick>, i: nat) returns (j: nat, end: End, ghost out: seq<Output>)
      requires k < |wps| && i <= |ticks|
      modifies sim
      ensures i <= j <= |ticks| && sim.log == old(sim.log) + out
      ensures end == Arrived ==> TourFrom(Ctx(), wps, k, true, ticks[i..])
                                  == Prepend(out, TourFrom(Ctx(), wps, k + 1, false, ticks[j..]))
      ensures end != Arrived ==> TourFrom(Ctx(), wps, k, true, ticks[i..]) == Run(end, out)
    {
      ghost var env := Ctx();
      ghost var log0 := sim.log;
      var t := TargetOf(wps[k]);
      out := [];
      j := i;
      while true
        invariant i <= j <= |ticks|
        invariant sim.log == log0 + out
        invariant TourFrom(env, wps, k, true, ticks[i..]) == Prepend(out, TourFrom(env, wps, k, true, ticks[j..]))
        decreases |ticks| - j
      {
        if j == |ticks| {
          return j, Polling, out;
        }
        assert ticks[j..][0] == ticks[j] && ticks[j..][1..] == ticks[j + 1..];
        if ticks[j].Cancelled? {
          return j, Stopped, out;
        }
        var s := ticks[j].sample;
        ghost var c := ScenarioCycle(env, t, k + 1, s);
        var exit := ScenarioStep(t, k + 1, s);
        AppendAssoc(log0, out, c.out);
        j := j + 1;
        if exit.Some? && exit.value == Arrived {
          ghost var next := TourFrom(env, wps, k + 1, false, ticks[j..]);
          AppendAssoc(out, c.out, next.out);
          return j, Arrived, out + c.out;
        } else if exit.Some? {
          return j, Crashed, out + c.out;
        }
        ghost var rest := TourFrom(env, wps, k, true, ticks[j..]);
        AppendAssoc(out, c.out, rest.out);
        out := out + c.out;
      }
    }

    /** `_scenario_loop` run over the observed ticks: the for loop over the
        waypoints with the arrival loop of each inside it. */
    method ScenarioLoop(ticks: seq<Tick>) returns (end: End)
      requires Valid() && task.Touring?
      modifies this, sim
      ensures var r := ScenarioRun(Ctx(), old(task).wps, ticks);
              end == r.end && sim.log == old(sim.log) + r.out
      ensures end == Polling ==> task == old(task) && navStop == old(navStop)
      ensures end != Polling ==> task == Idle && navStop == (end == Stopped)
      ensures Valid()
    {
      var wps := task.wps;
      ghost var env := Ctx();
      sim.Say(ScenarioStarted);
      ghost var log0 := sim.log;
      end := Tour(wps, ticks);
      ghost var acc := TourFrom(env, wps, 0, false, ticks).out;
      ghost var fin := if end in {Completed, Stopped}
                       then [Report(ScenarioDone)] + Emit(env.bound, ApVsSetEnglish, Some(0))
                       else [];
      if end == Completed || end == Stopped {
        sim.Say(ScenarioDone);
        sim.Ev(ApVsSetEnglish, Some(0));
        AppendAssoc(log0 + acc, [Report(ScenarioDone)], Emit(env.bound, ApVsSetEnglish, Some(0)));
      }
      assert sim.log == log0 + acc + fin;
      AppendAssoc(old(sim.log), [Report(ScenarioStarted)], acc);
      AppendAssoc(old(sim.log), [Report(ScenarioStarted)] + acc, fin);
      if end != Polling {
        task := Idle;
        navStop := end == Stopped;
      }
    }

    /** The for loop of `_scenario_loop` over the waypoints, with the
        arrival loop of each inside it. */
    method Tour(wps: seq<Waypoint>, ticks: seq<Tick>) returns (end: End)
      modifies sim
      ensures var r := TourFrom(Ctx(), wps, 0, false, ticks);
              end == r.end && sim.log == old(sim.log) + r.out
    {
      ghost var env := Ctx();
      ghost var log0 := sim.log;
      ghost var acc: seq<Output> := [];
      var i := 0;
      var k := 0;
      end := Completed;
      assert ticks[i..] == ticks && sim.log == log0 + acc;
      assert TourFrom(env, wps, 0, false, ticks).out == acc + TourFrom(env, wps, 0, false, ticks).out;
      while k < |wps|
        invariant 0 <= i <= |ticks| && 0 <= k <= |wps|
        invariant end == Completed
        invariant sim.log == log0 + acc
        invariant TourFrom(env, wps, 0, false, ticks) == Prepend(acc, TourFrom(env, wps, k, false, ticks[i..]))
        decreases |wps| - k
      {
        var legEnd;
        ghost var out;
        i, legEnd, out := FlyWaypoint(wps, k, ticks, i);
        AppendAssoc(log0, acc, out);
        if legEnd != Arrived {
          acc := acc + out;
          end := legEnd;
          break;
        }
        ghost var next := TourFrom(env, wps, k + 1, false, ticks[i..]);
        AppendAssoc(acc, out, next.out);
        acc := acc + out;
        k := k + 1;
      }
      assert TourFrom(env, wps, 0, false, ticks) == Run(end, acc);
    }

    /** One pass of `_scenario_loop`'s for loop, for waypoint number `k + 1`
        from tick `i`: the stop check, the start of the waypoint and its
        arrival loop. It ends at tick `j` with `Arrived` when the waypoint
        is reached, or with how the whole tour ended. */
    method FlyWaypoint(wps: seq<Waypoint>, k: nat, ticks: seq<Tick>, i: nat) returns (j: nat, end: End, ghost out: seq<Output>)
      requires k < |wps| && i <= |ticks|
      modifies sim
      ensures i <= j <= |ticks| && sim.log == old(sim.log) + out
      ensures end == Arrived ==> TourFrom(Ctx(), wps, k, false, ticks[i..])
                                  == Prepend(out, TourFrom(Ctx(), wps, k + 1, false, ticks[j..]))
      ensures end != Arrived ==> TourFrom(Ctx(), wps, k, false, ticks[i..]) == Run(end, out)
    {
      ghost var env, log0 := Ctx(), sim.log;
      if i == |ticks| {
        assert ticks[i..] == [];
        return i, Polling, [];
      }
      assert ticks[i..][0] == ticks[i];
      if ticks[i].Cancelled? {
        return i, Stopped, [];
      }
      var ok;
      ghost var startOut;
      ok, startOut := StartWaypoint(wps, k, ticks, i);
      if !ok {
        return i + 1, Crashed, startOut;
      }
      ghost var legOut;
      j, end, legOut := FlyLeg(wps, k, ticks, i + 1);
      AppendAssoc(log0, startOut, legOut);
      out := startOut + legOut;
      if end == Arrived {
        AppendAssoc(startOut, legOut, TourFrom(env, wps, k + 1, false, ticks[j..]).out);
      }
    }

    /** The start of waypoint number `k + 1` on tick `i`: its report and the
        autopilot setup toward it; `ok` is false when a read raised, which
        ends the tour with the failure report. */
    method StartWaypoint(wps: seq<Waypoint>, k: nat, ticks: seq<Tick>, i: nat) returns (ok: bool, ghost out: seq<Output>)
      requires k < |wps| && i < |ticks| && ticks[i].Poll?
      modifies sim
      ensures sim.log == old(sim.log) + out
      ensures ok ==> TourFrom(Ctx(), wps, k, false, ticks[i..])
                     == Prepend(out, TourFrom(Ctx(), wps, k, true, ticks[i + 1..]))
      ensures !ok ==> TourFrom(Ctx(), wps, k, false, ticks[i..]) == Run(Crashed, out)
    {
      ghost var env, log0 := Ctx(), sim.log;
      assert ticks[i..][0] == ticks[i] && ticks[i..][1..] == ticks[i + 1..];
      var s := ticks[i].sample;
      var wp := wps[k];
      ghost var start := [Report(WaypointStarted(k + 1))];
      ghost var c := PrepareOut(env, TargetOf(wp), SpeedOf(wp), s);
      sim.Say(WaypointStarted(k + 1));
      ok := PrepareAutopilot(TargetOf(wp), SpeedOf(wp), s);
      AppendAssoc(log0, start, c.out);
      out := start + c.out;
      if !ok {
        sim.Say(ScenarioFailed);
        AppendAssoc(log0, out, [Report(ScenarioFailed)]);
        out := out + [Report(ScenarioFailed)];
      }
    }

    /** One pass of teleport's step loop: move to the next point of the
        straight path and command its altitude. */
    method MoveStep(lat: real, lon: real, alt: real, i: nat)
      modifies sim
      ensures sim.log == old(sim.log) + StepOut(sim.bound, lat, lon, alt, i)
    {
      ghost var log0 := sim.log;
      sim.Set(PlaneLatitude, lat);
      sim.Set(PlaneLongitude, lon);
      sim.Set(PlaneAltitude, alt);
      ghost var pos := [SetVar(PlaneLatitude, lat), SetVar(PlaneLongitude, lon), SetVar(PlaneAltitude, alt)];
      assert sim.log == log0 + pos;
      sim.Ev(ApAltVarSetEnglish, Some(Trunc(alt)));
      sim.Say(TeleportStep(i));
      AppendAssoc(log0, pos, Emit(sim.bound, ApAltVarSetEnglish, Some(Trunc(alt))));
      AppendAssoc(log0, pos + Emit(sim.bound, ApAltVarSetEnglish, Some(Trunc(alt))), [Report(TeleportStep(i))]);
    }

    /** Teleport's step loop from (lat0, lon0, alt0): `for i in range(steps)`
        with the stop flag checked at the top of each pass; the flag is seen
        from pass `stopAt` on. It returns the number of passes made. */
    method Walk(p: Plan, lat0: real, lon0: real, alt0: real, stopAt: nat) returns (n: nat)
      modifies sim
      ensures n == Min(p.steps, stopAt)
      ensures sim.log == old(sim.log) + StepsOut(sim.bound, p, lat0, lon0, alt0, n)
    {
      ghost var log0 := sim.log;
      var curLat, curLon, curAlt := lat0, lon0, alt0;
      n := 0;
      while n < p.steps
        invariant n <= Min(p.steps, stopAt)
        invariant curLat == Accum(lat0, p.dLat, n) && curLon == Accum(lon0, p.dLon, n)
                  && curAlt == Accum(alt0, p.dAlt, n)
        invariant sim.log == log0 + StepsOut(sim.bound, p, lat0, lon0, alt0, n)
      {
        if n >= stopAt {
          break;
        }
        curLat, curLon, curAlt := curLat + p.dLat, curLon + p.dLon, curAlt + p.dAlt;
        MoveStep(curLat, curLon, curAlt, n + 1);
        AppendAssoc(log0, StepsOut(sim.bound, p, lat0, lon0, alt0, n), StepOut(sim.bound, curLat, curLon, curAlt, n + 1));
        n := n + 1;
      }
    }

    /** The cruise settings that end a teleport. */
    method HandOver(tgt: Target, spd: real)
      modifies sim
      ensures sim.log == old(sim.log) + CruiseOut(sim.bound, tgt, spd)
    {
      ghost var log0, bound := sim.log, sim.bound;
      sim.Ev(ApMaster, None);
      ghost var acc := Emit(bound, ApMaster, None);
      sim.Ev(ApAltVarSetEnglish, Some(Trunc(tgt.alt)));
      AppendAssoc(log0, acc, Emit(bound, ApAltVarSetEnglish, Some(Trunc(tgt.alt))));
      acc := acc + Emit(bound, ApAltVarSetEnglish, Some(Trunc(tgt.alt)));
      sim.Ev(ApVsSetEnglish, Some(0));
      AppendAssoc(log0, acc, Emit(bound, ApVsSetEnglish, Some(0)));
      acc := acc + Emit(bound, ApVsSetEnglish, Some(0));
      sim.Ev(ApSpdVarSet, Some(Trunc(spd)));
      AppendAssoc(log0, acc, Emit(bound, ApSpdVarSet, Some(Trunc(spd))));
      acc := acc + Emit(bound, ApSpdVarSet, Some(Trunc(spd)));
      sim.Ev(ApAutothrottleArm, None);
      AppendAssoc(log0, acc, Emit(bound, ApAutothrottleArm, None));
      acc := acc + Emit(bound, ApAutothrottleArm, None);
      sim.Ev(ThrottleAxisSetEx1, Some(8192));
      AppendAssoc(log0, acc, Emit(bound, ThrottleAxisSetEx1, Some(8192)));
    }

    /** The part of `teleport` after the plan: report it, aim the heading
        bug, walk the steps, snap onto the target, hand over to cruise. */
    method Glide(tgt: Target, spd: real, p: Plan, lat0: real, lon0: real, alt0: real, stopAt: nat)
      modifies sim
      ensures sim.log == old(sim.log)
                         + (PreludeOut(sim.bound, p) + StepsOut(sim.bound, p, lat0, lon0, alt0, Min(p.steps, stopAt)))
                         + (SnapOut(tgt) + CruiseOut(sim.bound, tgt, spd))
    {
      ghost var log0 := sim.log;
      sim.Say(TeleportPlanned(p.steps));
      sim.Ev(HeadingBugSet, Some(p.heading));
      sim.Ev(ApHdgHoldOn, None);
      ghost var pre := PreludeOut(sim.bound, p);
      assert sim.log == log0 + pre;
      var i := Walk(p, lat0, lon0, alt0, stopAt);
      AppendAssoc(log0, pre, StepsOut(sim.bound, p, lat0, lon0, alt0, i));
      ghost var walked := pre + StepsOut(sim.bound, p, lat0, lon0, alt0, i);
      sim.Set(PlaneLatitude, tgt.lat);
      sim.Set(PlaneLongitude, tgt.lon);
      sim.Set(PlaneAltitude, tgt.alt);
      sim.Say(TeleportDone);
      assert sim.log == log0 + walked + SnapOut(tgt);
      HandOver(tgt, spd);
      AppendAssoc(log0 + walked, SnapOut(tgt), CruiseOut(sim.bound, tgt, spd));
      AppendAssoc(log0, walked, SnapOut(tgt) + CruiseOut(sim.bound, tgt, spd));
    }

    /** `teleport`: read the position, plan the steps, aim the heading bug,
        walk the straight path step by step until done or until the stop
        flag is seen (`stopAt` passes happen before someone sets it), then
        snap onto the target and hand over to the autopilot. */
    method Teleport(tgt: Target, spd: real, hdg: Option<real>, stepM: real, here: Sample, stopAt: nat)
      modifies sim
      ensures sim.log == old(sim.log)
                         + TeleportOut(Ctx(), tgt, spd, hdg, stepM, here, if navStop then 0 else stopAt)
    {
      if Faulty(here) {
        sim.Say(TeleportFailed);
        return;
      }
      if !Complete(here) {
        sim.Say(TeleportNoData);
        return;
      }
      if stepM == 0.0 {
        sim.Say(TeleportFailed);
        return;
      }
      var lat0, lon0, alt0 := here.lat.v, here.lon.v, here.alt.v;
      var brg := Bearing(geo, lat0, lon0, tgt.lat, tgt.lon);
      var totalM := geo.distanceNm(lat0, lon0, tgt.lat, tgt.lon) * MetresPerNm;
      var q := (totalM / stepM).Floor;
      var steps: nat := if q < 1 then 1 else q;
      var dLat := geo.latPerStep(stepM, brg);
      var dLon := geo.lonPerStep(stepM, brg, lat0);
      var dAlt := (tgt.alt - alt0) / steps as real;
      var firstHdg := Trunc(if hdg.Some? then hdg.value else brg);
      var p := Plan(steps, dLat, dLon, dAlt, firstHdg);
      assert p == PlanFor(geo, lat0, lon0, alt0, tgt, hdg, stepM);
      Glide(tgt, spd, p, lat0, lon0, alt0, if navStop then 0 else stopAt);
    }

    /** One frame of `follow_stream`'s loop; `ok` is false when formatting
        the progress report raised. */
    method FeedFrame(f: Frame) returns (ok: bool)
      modifies sim
      ensures ok == !BreaksStatus(f)
      ensures sim.log == old(sim.log) + FrameOut(Ctx(), f)
    {
      ghost var log0, env := sim.log, Ctx();
      ghost var a, lo, al := Put(PlaneLatitude, f.lat), Put(PlaneLongitude, f.lon), Put(PlaneAltitude, f.alt);
      ghost var h := HeadingOut(env, f);
      ghost var c := if BreaksStatus(f) then [] else [Report(StreamFrame)];
      PutField(PlaneLatitude, f.lat);
      ghost var log1 := sim.log;
      PutField(PlaneLongitude, f.lon);
      PutField(PlaneAltitude, f.alt);
      AppendAssoc(log1, lo, al);
      PutHeading(f);
      AppendAssoc(log1, lo + al, h);
      ok := !(f.lat.None? || f.lon.None?);
      if ok {
        sim.Say(StreamFrame);
      }
      AppendAssoc(log1, lo + al + h, c);
      AppendAssoc(log0, a, lo + al + h + c);
    }

    /** A frame field written to `v` when the frame has it. */
    method PutField(v: VarName, x: Option<real>)
      modifies sim
      ensures sim.log == old(sim.log) + Put(v, x)
    {
      if x.Some? {
        sim.Set(v, x.value);
      }
    }

    /** The heading bug and the true heading, when the frame has a heading. */
    method PutHeading(f: Frame)
      modifies sim
      ensures sim.log == old(sim.log) + HeadingOut(Ctx(), f)
    {
      if f.heading.Some? {
        ghost var log0 := sim.log;
        ghost var e := Emit(sim.bound, HeadingBugSet, Some(Trunc(f.heading.value)));
        sim.Ev(HeadingBugSet, Some(Trunc(f.heading.value)));
        sim.Set(PlaneHeadingTrue, HeadingWrite(geo, f.heading.value));
        AppendAssoc(log0, e, [SetVar(PlaneHeadingTrue, HeadingWrite(geo, f.heading.value))]);
      }
    }

    /** `follow_stream`: stop the running task, clear the flag, switch the
        autopilot off and write every frame, until the frames run out, the
        stop flag is seen (`stopAt` frames pass before someone sets it) or a
        frame breaks the progress report. */
    method FollowStream(frames: seq<Frame>, stopAt: nat) returns (end: End)
      requires Valid()
      modifies this, sim
      ensures var r := StreamRun(Ctx(), frames, stopAt);
              end == r.end && sim.log == old(sim.log) + Farewell(sim.bound, old(task)) + r.out
      ensures task == Idle && navStop == (end == Stopped) && Valid()
    {
      StopNav();
      navStop := false;
      ghost var env := Ctx();
      ghost var log0 := sim.log;
      sim.Say(StreamStarted);
      sim.Ev(ApMasterOff, None);
      ghost var head := [Report(StreamStarted)] + Emit(env.bound, ApMasterOff, None);
      AppendAssoc(log0, [Report(StreamStarted)], Emit(env.bound, ApMasterOff, None));
      assert sim.log == log0 + head;
      end := FeedFrames(frames, stopAt);
      if end == Stopped {
        navStop := true;
      }
      ghost var acc := StreamLoop(env, frames, stopAt).out;
      ghost var tail := [Report(if end == Crashed then StreamFailed else StreamDone)];
      sim.Say(if end == Crashed then StreamFailed else StreamDone);
      assert sim.log == log0 + head + acc + tail;
      AppendAssoc(log0, head, acc);
      AppendAssoc(log0, head + acc, tail);
      assert StreamRun(env, frames, stopAt).out == head + acc + tail;
    }

    /** The for loop of `follow_stream`: frames are written one after the
        other until they run out, the stop flag is seen after `stopAt`
        frames, or a frame breaks the progress report. */
    method FeedFrames(frames: seq<Frame>, stopAt: nat) returns (end: End)
      modifies sim
      ensures var r := StreamLoop(Ctx(), frames, stopAt);
              end == r.end && sim.log == old(sim.log) + r.out
    {
      ghost var env := Ctx();
      ghost var log0 := sim.log;
      ghost var acc: seq<Output> := [];
      var i := 0;
      end := Completed;
      while i < |frames|
        invariant 0 <= i <= |frames| && i <= stopAt
        invariant end == Completed
        invariant sim.log == log0 + acc
        invariant StreamLoop(env, frames, stopAt) == Prepend(acc, StreamLoop(env, frames[i..], stopAt - i))
      {
        assert frames[i..][0] == frames[i] && frames[i..][1..] == frames[i + 1..];
        if i == stopAt {
          end := Stopped;
          break;
        }
        var ok := FeedFrame(frames[i]);
        AppendAssoc(log0, acc, FrameOut(env, frames[i]));
        if !ok {
          acc := acc + FrameOut(env, frames[i]);
          end := Crashed;
          break;
        }
        ghost var rest := StreamLoop(env, frames[i + 1..], stopAt - (i + 1));
        AppendAssoc(acc, FrameOut(env, frames[i]), rest.out);
        acc := acc + FrameOut(env, frames[i]);
        i := i + 1;
      }
      assert StreamLoop(env, frames, stopAt) == Run(end, acc);
    }
  }
}
