/** The scenario sequencer (`FlightController._scenario_loop`,
    core/flight_controller.py): waypoints are flown in list order, each after
    an autopilot setup, and the sequencer moves on only when the current one
    is reached. */
module Scenario {
  import opened SimTypes
  import opened Geodesy
  import opened ControlLaw
  import opened Guidance

  /** The commands of a scenario cycle that has not arrived. */
  function Track(env: Env, t: Target, idx: nat, lat: real, lon: real, alt: real): seq<Output> {
    var brg := Bearing(env.geo, lat, lon, t.lat, t.lon);
    Emit(env.bound, HeadingBugSet, Some(HeadingBug(brg)))
      + Emit(env.bound, ApHdgHoldOn, None)
      + Emit(env.bound, ApAltVarSetEnglish, Some(Trunc(t.alt)))
      + Emit(env.bound, ApVsSetEnglish, Some(SentVs(t.alt - alt)))
      + [Report(ScenarioProgress(idx))]
  }

  /** One pass of the inner while body for waypoint number `idx`. Unlike the
      single-target navigator, ALT-HOLD is tested before the arrival test, so
      it can go out in the cycle that reaches the waypoint. */
  function ScenarioCycle(env: Env, t: Target, idx: nat, s: Sample): (r: Cycle)
    ensures r.Exit? <==> Faulty(s) || (Complete(s) && ArrivedAt(DistanceTo(env, s, t)))
    ensures !Faulty(s) && !Complete(s) ==> r == Continue([])
    ensures r.Exit? ==> r.end == Crashed || r.end == Arrived
  {
    if Faulty(s) then Exit(Crashed, [Report(ScenarioFailed)])
    else if !Complete(s) then Continue([])
    else
      var dist := DistanceTo(env, s, t);
      var hold := if AltHoldEngages(t.alt - s.alt.v, dist) then Emit(env.bound, ApAltHoldOn, None) else [];
      if ArrivedAt(dist) then Exit(Arrived, hold + [Report(WaypointReached(idx))])
      else Continue(hold + Track(env, t, idx, s.lat.v, s.lon.v, s.alt.v))
  }

  /** The for loop over `wps` from position `k` (0-based; reported as k + 1),
      either at the top of the for body (`inLeg` false) or inside the arrival
      loop of waypoint `k` (`inLeg` true). Each tick is one stop-flag check
      followed by one position read. */
  function TourFrom(env: Env, wps: seq<Waypoint>, k: nat, inLeg: bool, ticks: seq<Tick>): (r: Run)
    requires k <= |wps| && (inLeg ==> k < |wps|)
    ensures r.end != Arrived
    decreases |ticks|
  {
    if !inLeg && k == |wps| then Run(Completed, [])
    else if ticks == [] then Run(Polling, [])
    else match ticks[0]
      case Cancelled => Run(Stopped, [])
      case Poll(s) =>
        var wp := wps[k];
        if !inLeg then
          var start := [Report(WaypointStarted(k + 1))];
          match PrepareOut(env, TargetOf(wp), SpeedOf(wp), s)
          case Exit(_, out) => Run(Crashed, start + out + [Report(ScenarioFailed)])
          case Continue(out) => Prepend(start + out, TourFrom(env, wps, k, true, ticks[1..]))
        else
          match ScenarioCycle(env, TargetOf(wp), k + 1, s)
          case Continue(out) => Prepend(out, TourFrom(env, wps, k, true, ticks[1..]))
          case Exit(end, out) =>
            if end == Arrived then Prepend(out, TourFrom(env, wps, k + 1, false, ticks[1..]))
            else Run(Crashed, out)
  }

  /** The whole of `_scenario_loop`: the start report, the for loop, then the
      completion report and one VS 0 when the loop ended by running out of
      waypoints or by the stop flag (not after an exception). */
  function ScenarioRun(env: Env, wps: seq<Waypoint>, ticks: seq<Tick>): Run {
    var r := TourFrom(env, wps, 0, false, ticks);
    Run(r.end, [Report(ScenarioStarted)] + r.out
               + (if r.end in {Completed, Stopped}
                  then [Report(ScenarioDone)] + Emit(env.bound, ApVsSetEnglish, Some(0))
                  else []))
  }

  // ---------------------------------------------------------------------
  // Order of the waypoints

  predicate IsMilestone(o: Output) {
    o.Report? && (o.status.WaypointStarted? || o.status.WaypointReached?)
  }

  /** The "waypoint started" and "waypoint reached" reports among `out`. */
  function Milestones(out: seq<Output>): seq<Output> {
    if out == [] then []
    else (if IsMilestone(out[0]) then [out[0]] else []) + Milestones(out[1..])
  }

  /** Start and arrival of waypoints from + 1 .. n, in list order. */
  function Itinerary(from: nat, n: nat): seq<Output>
    decreases n - from
  {
    if from >= n then []
    else [Report(WaypointStarted(from + 1)), Report(WaypointReached(from + 1))] + Itinerary(from + 1, n)
  }

  /** What remains of the itinerary at a point of the for loop. */
  function Remaining(k: nat, inLeg: bool, n: nat): seq<Output> {
    if inLeg then [Report(WaypointReached(k + 1))] + Itinerary(k + 1, n) else Itinerary(k, n)
  }

  predicate IsPrefix(a: seq<Output>, b: seq<Output>) {
    |a| <= |b| && b[..|a|] == a
  }

  lemma {:induction false} MilestonesAppend(a: seq<Output>, b: seq<Output>)
    ensures Milestones(a + b) == Milestones(a) + Milestones(b)
  {
    if a != [] {
      assert (a + b)[1..] == a[1..] + b;
      MilestonesAppend(a[1..], b);
    } else {
      assert a + b == b;
    }
  }

  lemma {:induction false} NoMilestones(out: seq<Output>)
    requires forall o <- out :: !IsMilestone(o)
    ensures Milestones(out) == []
  {
    if out != [] {
      NoMilestones(out[1..]);
    }
  }

  lemma PrepareHasNoMilestones(env: Env, t: Target, spd: real, s: Sample)
    ensures Milestones(PrepareOut(env, t, spd, s).out) == []
  {
    if !Faulty(s) {
      var brg := Bearing(env.geo, OrZero(s.lat), OrZero(s.lon), t.lat, t.lon);
      SetupCommands(env.bound, HeadingBug(brg), Trunc(t.alt), InitialVs(t.alt - OrZero(s.alt)), Trunc(spd));
    }
    NoMilestones(PrepareOut(env, t, spd, s).out);
  }

  /** A scenario cycle reports the arrival at waypoint `idx` when it reaches
      it, and no other start or arrival. */
  lemma CycleMilestones(env: Env, t: Target, idx: nat, s: Sample)
    ensures var c := ScenarioCycle(env, t, idx, s);
            Milestones(c.out) == if c.Exit? && c.end == Arrived then [Report(WaypointReached(idx))] else []
  {
    var c := ScenarioCycle(env, t, idx, s);
    if c.Exit? && c.end == Arrived {
      var dist := DistanceTo(env, s, t);
      var hold := if AltHoldEngages(t.alt - s.alt.v, dist) then Emit(env.bound, ApAltHoldOn, None) else [];
      NoMilestones(hold);
      MilestonesAppend(hold, [Report(WaypointReached(idx))]);
      assert Milestones([Report(WaypointReached(idx))]) == [Report(WaypointReached(idx))] by {
        assert [Report(WaypointReached(idx))][1..] == [];
      }
    } else {
      NoMilestones(c.out);
    }
  }

  lemma {:induction false} PrefixExtend(m: seq<Output>, p: seq<Output>, rest: seq<Output>)
    requires IsPrefix(m, rest)
    ensures IsPrefix(p + m, p + rest)
  {
    assert (p + rest)[..|p + m|] == p + rest[..|m|];
  }

  /** The sequencer starts and reaches waypoints one at a time in list
      order, starting the next only after reaching the current one, and when
      it completes it has reached every one of them. */
  lemma {:induction false} TourMilestones(env: Env, wps: seq<Waypoint>, k: nat, inLeg: bool, ticks: seq<Tick>)
    requires k <= |wps| && (inLeg ==> k < |wps|)
    ensures OnItinerary(TourFrom(env, wps, k, inLeg, ticks), Remaining(k, inLeg, |wps|))
    decreases |ticks|, 1
  {
    var n := |wps|;
    if !inLeg && k == n {
      assert Remaining(k, inLeg, n) == [];
    } else if ticks == [] || ticks[0].Cancelled? {
      assert TourFrom(env, wps, k, inLeg, ticks).out == [];
    } else if !inLeg {
      StartMilestones(env, wps, k, ticks);
    } else {
      LegMilestones(env, wps, k, ticks);
    }
  }

  /** The tick that starts waypoint `k`. */
  lemma {:induction false} StartMilestones(env: Env, wps: seq<Waypoint>, k: nat, ticks: seq<Tick>)
    requires k < |wps| && ticks != [] && ticks[0].Poll?
    ensures OnItinerary(TourFrom(env, wps, k, false, ticks), Remaining(k, false, |wps|))
    decreases |ticks|, 0
  {
    TourHead(env, wps, k, false, ticks);
    var s, t := ticks[0].sample, TargetOf(wps[k]);
    var p := PrepareOut(env, t, SpeedOf(wps[k]), s);
    PrepareHasNoMilestones(env, t, SpeedOf(wps[k]), s);
    if p.Exit? {
      StartFails(k, p.out, |wps|);
    } else {
      TourMilestones(env, wps, k, true, ticks[1..]);
      StartGoesOn(k, p.out, TourFrom(env, wps, k, true, ticks[1..]), |wps|);
    }
  }

  /** A tick inside the leg toward waypoint `k`. */
  lemma {:induction false} LegMilestones(env: Env, wps: seq<Waypoint>, k: nat, ticks: seq<Tick>)
    requires k < |wps| && ticks != [] && ticks[0].Poll?
    ensures OnItinerary(TourFrom(env, wps, k, true, ticks), Remaining(k, true, |wps|))
    decreases |ticks|, 0
  {
    TourHead(env, wps, k, true, ticks);
    var s, t := ticks[0].sample, TargetOf(wps[k]);
    var c := ScenarioCycle(env, t, k + 1, s);
    CycleMilestones(env, t, k + 1, s);
    if c.Continue? {
      TourMilestones(env, wps, k, true, ticks[1..]);
      LegGoesOn(k, c.out, TourFrom(env, wps, k, true, ticks[1..]), |wps|);
    } else if c.end == Arrived {
      TourMilestones(env, wps, k + 1, false, ticks[1..]);
      LegArrives(k, c.out, TourFrom(env, wps, k + 1, false, ticks[1..]), |wps|);
    } else {
      assert IsPrefix([], Remaining(k, true, |wps|));
    }
  }

  /** One tick of the for loop, when there is a waypoint left and the stop
      flag is not seen. */
  lemma TourHead(env: Env, wps: seq<Waypoint>, k: nat, inLeg: bool, ticks: seq<Tick>)
    requires k <= |wps| && (inLeg ==> k < |wps|) && (inLeg || k < |wps|)
    requires ticks != [] && ticks[0].Poll?
    ensures var s, t, r := ticks[0].sample, TargetOf(wps[k]), TourFrom(env, wps, k, inLeg, ticks);
            var p, c := PrepareOut(env, t, SpeedOf(wps[k]), s), ScenarioCycle(env, t, k + 1, s);
            (!inLeg && p.Exit? ==> r == Run(Crashed, [Report(WaypointStarted(k + 1))] + p.out + [Report(ScenarioFailed)]))
            && (!inLeg && p.Continue? ==>
                  r == Prepend([Report(WaypointStarted(k + 1))] + p.out, TourFrom(env, wps, k, true, ticks[1..])))
            && (inLeg && c.Continue? ==> r == Prepend(c.out, TourFrom(env, wps, k, true, ticks[1..])))
            && (inLeg && c.Exit? && c.end == Arrived ==> r == Prepend(c.out, TourFrom(env, wps, k + 1, false, ticks[1..])))
            && (inLeg && c.Exit? && c.end != Arrived ==> r == Run(Crashed, c.out))
  {}

  /** The milestone facts of a tour from some point of the for loop. */
  predicate OnItinerary(r: Run, rem: seq<Output>) {
    IsPrefix(Milestones(r.out), rem) && (r.end == Completed ==> Milestones(r.out) == rem)
  }

  lemma StartFails(k: nat, pout: seq<Output>, n: nat)
    requires k < n && Milestones(pout) == []
    ensures OnItinerary(Run(Crashed, [Report(WaypointStarted(k + 1))] + pout + [Report(ScenarioFailed)]),
                        Remaining(k, false, n))
  {
    var start := [Report(WaypointStarted(k + 1))];
    assert Milestones(start + pout + [Report(ScenarioFailed)]) == start by {
      MilestonesOne(start[0]);
      MilestonesOne(Report(ScenarioFailed));
      MilestonesAppend(start, pout);
      MilestonesAppend(start + pout, [Report(ScenarioFailed)]);
    }
    assert IsPrefix(start, Remaining(k, false, n)) by {
      RemainingStart(k, n);
    }
  }

  lemma StartGoesOn(k: nat, pout: seq<Output>, rest: Run, n: nat)
    requires k < n && Milestones(pout) == [] && OnItinerary(rest, Remaining(k, true, n))
    ensures OnItinerary(Prepend([Report(WaypointStarted(k + 1))] + pout, rest), Remaining(k, false, n))
  {
    var start := [Report(WaypointStarted(k + 1))];
    MilestonesOne(start[0]);
    MilestonesAppend(start, pout);
    MilestonesAppend(start + pout, rest.out);
    RemainingStart(k, n);
    PrefixExtend(Milestones(rest.out), start, Remaining(k, true, n));
  }

  lemma MilestonesOne(o: Output)
    ensures Milestones([o]) == if IsMilestone(o) then [o] else []
  {
    assert [o][1..] == [];
  }

  /** Before waypoint `k` starts, the rest of the itinerary is its start
      followed by what remains inside its leg. */
  lemma RemainingStart(k: nat, n: nat)
    requires k < n
    ensures Remaining(k, false, n) == [Report(WaypointStarted(k + 1))] + Remaining(k, true, n)
  {
    var s, r := Report(WaypointStarted(k + 1)), Report(WaypointReached(k + 1));
    assert Itinerary(k, n) == [s, r] + Itinerary(k + 1, n);
    assert [s, r] + Itinerary(k + 1, n) == [s] + ([r] + Itinerary(k + 1, n));
  }

  lemma LegGoesOn(k: nat, cout: seq<Output>, rest: Run, n: nat)
    requires Milestones(cout) == [] && OnItinerary(rest, Remaining(k, true, n))
    ensures OnItinerary(Prepend(cout, rest), Remaining(k, true, n))
  {
    MilestonesAppend(cout, rest.out);
  }

  lemma LegArrives(k: nat, cout: seq<Output>, rest: Run, n: nat)
    requires Milestones(cout) == [Report(WaypointReached(k + 1))] && OnItinerary(rest, Remaining(k + 1, false, n))
    ensures OnItinerary(Prepend(cout, rest), Remaining(k, true, n))
  {
    MilestonesAppend(cout, rest.out);
    PrefixExtend(Milestones(rest.out), Milestones(cout), Remaining(k + 1, false, n));
  }

  /** `_scenario_loop` as a whole: waypoints are started and reached in list
      order; the completion report comes only after the last one is reached,
      or after the stop flag, and is followed by VS 0 alone. */
  lemma ScenarioInOrder(env: Env, wps: seq<Waypoint>, ticks: seq<Tick>)
    ensures var r := ScenarioRun(env, wps, ticks);
            var inner := TourFrom(env, wps, 0, false, ticks);
            IsPrefix(Milestones(r.out), Itinerary(0, |wps|))
            && (r.end == Completed ==> Milestones(r.out) == Itinerary(0, |wps|))
            && (r.end in {Completed, Stopped} ==>
                  r.out == [Report(ScenarioStarted)] + inner.out + [Report(ScenarioDone)]
                           + Emit(env.bound, ApVsSetEnglish, Some(0)))
  {
    RunMilestones(env, wps, ticks);
    TourMilestones(env, wps, 0, false, ticks);
  }

  /** The reports around the for loop are not milestones. */
  lemma RunMilestones(env: Env, wps: seq<Waypoint>, ticks: seq<Tick>)
    ensures Milestones(ScenarioRun(env, wps, ticks).out) == Milestones(TourFrom(env, wps, 0, false, ticks).out)
  {
    var inner := TourFrom(env, wps, 0, false, ticks);
    var head := [Report(ScenarioStarted)];
    var tail := if inner.end in {Completed, Stopped}
                then [Report(ScenarioDone)] + Emit(env.bound, ApVsSetEnglish, Some(0)) else [];
    assert ScenarioRun(env, wps, ticks).out == head + inner.out + tail;
    assert forall o <- tail :: !IsMilestone(o);
    MilestonesOne(head[0]);
    NoMilestones(tail);
    MilestonesAppend(head, inner.out);
    MilestonesAppend(head + inner.out, tail);
  }
}
