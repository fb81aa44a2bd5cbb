/** What `FlightController` sends to the simulator (core/flight_controller.py),
    as functions of the readings it gets: the autopilot setup, one control
    cycle of the single-target navigator and of the scenario sequencer, and
    the two polling loops over a trace of observations. The class in
    flight_controller.dfy is proved to produce exactly these outputs. */
module Guidance {
  import opened SimTypes
  import opened Geodesy
  import opened ControlLaw

  /** The numerics and the events the simulator binds. */
  datatype Env = Env(geo: Geo, bound: set<EventName>)

  /** The three position reads of one cycle. */
  datatype Sample = Sample(lat: Reading, lon: Reading, alt: Reading)

  /** One loop-top check of the stop flag: either the flag is seen set, or the
      loop goes on and reads the position. The flag stays set once set, so a
      run ends at its first `Cancelled`. */
  datatype Tick = Cancelled | Poll(sample: Sample)

  datatype Target = Target(lat: real, lon: real, alt: real)

  /** A scenario record {lat, lon, alt, spd}; `spd` may be absent. */
  datatype Waypoint = Waypoint(lat: real, lon: real, alt: real, spd: Option<real>)

  /** How a navigation task ended; `Polling` means the observations ran out
      while the loop was still polling. */
  datatype End = Arrived | Completed | Stopped | Crashed | Polling

  datatype Run = Run(end: End, out: seq<Output>)

  /** One step of a loop: go on, or leave the loop. */
  datatype Cycle = Continue(out: seq<Output>) | Exit(end: End, out: seq<Output>)

  predicate Faulty(s: Sample) {
    s.lat.Fault? || s.lon.Fault? || s.alt.Fault?
  }

  /** `None in (cur_lat, cur_lon, cur_alt)` is false */
  predicate Complete(s: Sample) {
    s.lat.Value? && s.lon.Value? && s.alt.Value?
  }

  function Prepend(pre: seq<Output>, r: Run): Run {
    Run(r.end, pre + r.out)
  }

  /** `aq.get(name) or 0.0` */
  function OrZero(r: Reading): real
    requires !r.Fault?
  {
    if r.Value? then r.v else 0.0
  }

  function TargetOf(wp: Waypoint): Target {
    Target(wp.lat, wp.lon, wp.alt)
  }

  /** `wp.get("spd", 90)` */
  function SpeedOf(wp: Waypoint): (spd: real)
    ensures wp.spd.None? ==> spd == 90.0
    ensures wp.spd.Some? ==> spd == wp.spd.value
  {
    wp.spd.GetOr(90.0)
  }

  // ---------------------------------------------------------------------
  // `_prepare_autopilot`

  /** The steering part of the setup, after ALT-HOLD off: autopilot master,
      heading bug `bug`, heading hold toggled off and on, target altitude
      `altVar`. */
  function SteerSetup(bound: set<EventName>, bug: int, altVar: int): seq<Output> {
    Emit(bound, ApMaster, None)
      + Emit(bound, HeadingBugSet, Some(bug))
      + Emit(bound, ApHdgHoldOff, None)
      + Emit(bound, ApHdgHoldOn, None)
      + Emit(bound, ApAltVarSetEnglish, Some(altVar))
  }

  /** The power part of the setup: flaps and trim zeroed, throttle at 8192
      and autothrottle armed. */
  function PowerSetup(bound: set<EventName>): seq<Output> {
    [SetVar(FlapsHandlePercent, 0.0), SetVar(ElevatorTrimPosition, 0.0)]
      + Emit(bound, ThrottleAxisSetEx1, Some(8192))
      + Emit(bound, ApAutothrottleArm, None)
  }

  /** The commands of the setup, in order: ALT-HOLD off, the steering part,
      vertical speed `vs`, speed `spdVar`, and the power part. */
  function SetupOut(bound: set<EventName>, bug: int, altVar: int, vs: int, spdVar: int): seq<Output> {
    Emit(bound, ApAltHoldOff, None)
      + SteerSetup(bound, bug, altVar)
      + Emit(bound, ApVsSetEnglish, Some(vs))
      + Emit(bound, ApSpdVarSet, Some(spdVar))
      + PowerSetup(bound)
  }

  /** The setup sends one vertical-speed command and one speed command, the
      given ones, and reports nothing. */
  lemma SetupCommands(bound: set<EventName>, bug: int, altVar: int, vs: int, spdVar: int)
    ensures var out := SetupOut(bound, bug, altVar, vs, spdVar);
            ArgsOf(out, ApVsSetEnglish) == (if ApVsSetEnglish in bound then [Some(vs)] else [])
            && ArgsOf(out, ApSpdVarSet) == (if ApSpdVarSet in bound then [Some(spdVar)] else [])
            && forall o <- out :: !o.Report?
  {
    SetupArgs(bound, bug, altVar, vs, spdVar, ApVsSetEnglish);
    SetupArgs(bound, bug, altVar, vs, spdVar, ApSpdVarSet);
    ArgsOfEmit(bound, ApVsSetEnglish, Some(vs), ApVsSetEnglish);
    ArgsOfEmit(bound, ApVsSetEnglish, Some(vs), ApSpdVarSet);
    ArgsOfEmit(bound, ApSpdVarSet, Some(spdVar), ApVsSetEnglish);
    ArgsOfEmit(bound, ApSpdVarSet, Some(spdVar), ApSpdVarSet);
    SetupReportsNothing(bound, bug, altVar, vs, spdVar);
  }

  lemma SetupReportsNothing(bound: set<EventName>, bug: int, altVar: int, vs: int, spdVar: int)
    ensures forall o <- SetupOut(bound, bug, altVar, vs, spdVar) :: !o.Report?
  {
    var pre := Emit(bound, ApAltHoldOff, None) + SteerSetup(bound, bug, altVar);
    var a := pre + Emit(bound, ApVsSetEnglish, Some(vs));
    var b := a + Emit(bound, ApSpdVarSet, Some(spdVar));
    QuietAround(bound, bug, altVar);
    assert forall o <- a :: !o.Report?;
    assert forall o <- b :: !o.Report?;
    assert forall o <- PowerSetup(bound) :: !o.Report?;
  }

  lemma SetupArgs(bound: set<EventName>, bug: int, altVar: int, vs: int, spdVar: int, n: EventName)
    requires n == ApVsSetEnglish || n == ApSpdVarSet
    ensures ArgsOf(SetupOut(bound, bug, altVar, vs, spdVar), n)
         == ArgsOf(Emit(bound, ApVsSetEnglish, Some(vs)), n) + ArgsOf(Emit(bound, ApSpdVarSet, Some(spdVar)), n)
  {
    QuietAround(bound, bug, altVar);
    SetupArgsOf(Emit(bound, ApAltHoldOff, None) + SteerSetup(bound, bug, altVar),
                Emit(bound, ApVsSetEnglish, Some(vs)), Emit(bound, ApSpdVarSet, Some(spdVar)),
                PowerSetup(bound), n);
  }

  lemma QuietAround(bound: set<EventName>, bug: int, altVar: int)
    ensures forall o <- Emit(bound, ApAltHoldOff, None) + SteerSetup(bound, bug, altVar) ::
              o.Event? && o.name !in {ApVsSetEnglish, ApSpdVarSet}
    ensures forall o <- PowerSetup(bound) :: !(o.Event? && o.name in {ApVsSetEnglish, ApSpdVarSet})
  {}

  /** The events named `n` of `pre + a + b + post` are those of `a` and `b`
      when `pre` and `post` fire none. */
  lemma SetupArgsOf(pre: seq<Output>, a: seq<Output>, b: seq<Output>, post: seq<Output>, n: EventName)
    requires forall o <- pre :: !(o.Event? && o.name == n)
    requires forall o <- post :: !(o.Event? && o.name == n)
    ensures ArgsOf(pre + a + b + post, n) == ArgsOf(a, n) + ArgsOf(b, n)
  {
    NoArgsOf(pre, n);
    NoArgsOf(post, n);
    ArgsOfAppend(pre + a + b, post, n);
    ArgsOfAppend(pre + a, b, n);
    ArgsOfAppend(pre, a, n);
  }

  /** The autopilot setup toward `t` at speed `spd`, given the position read
      at that moment. A read that raises stops it after ALT_HOLD_OFF. */
  function PrepareOut(env: Env, t: Target, spd: real, s: Sample): (r: Cycle)
    ensures r.Exit? <==> Faulty(s)
    ensures r.Exit? ==> r.end == Crashed && r.out == Emit(env.bound, ApAltHoldOff, None)
  {
    if Faulty(s) then Exit(Crashed, Emit(env.bound, ApAltHoldOff, None))
    else
      var lat, lon, alt := OrZero(s.lat), OrZero(s.lon), OrZero(s.alt);
      var brg := Bearing(env.geo, lat, lon, t.lat, t.lon);
      Continue(SetupOut(env.bound, HeadingBug(brg), Trunc(t.alt), InitialVs(t.alt - alt), Trunc(spd)))
  }

  /** An unreadable position or altitude is taken as 0.0: the setup is the
      one a reading of exactly 0.0 gives. */
  lemma PrepareReadsMissingAsZero(env: Env, t: Target, spd: real, s: Sample)
    requires !Faulty(s)
    ensures PrepareOut(env, t, spd, s)
         == PrepareOut(env, t, spd, Sample(Value(OrZero(s.lat)), Value(OrZero(s.lon)), Value(OrZero(s.alt))))
  {}

  /** The setup sends exactly one vertical-speed command, +800 fpm when the
      target is above the altitude read (taken as 0.0 when unreadable) and
      -800 fpm otherwise, a level target included. */
  lemma PrepareSendsInitialVs(env: Env, t: Target, spd: real, s: Sample)
    requires !Faulty(s) && ApVsSetEnglish in env.bound
    ensures ArgsOf(PrepareOut(env, t, spd, s).out, ApVsSetEnglish)
         == [Some(if t.alt > OrZero(s.alt) then 800 else -800)]
  {
    var brg := Bearing(env.geo, OrZero(s.lat), OrZero(s.lon), t.lat, t.lon);
    SetupCommands(env.bound, HeadingBug(brg), Trunc(t.alt), InitialVs(t.alt - OrZero(s.alt)), Trunc(spd));
  }

  // ---------------------------------------------------------------------
  // `_nav_loop`

  /** The commands of a cycle that has not arrived: re-aim the heading bug,
      hold heading, command the target altitude and the vertical speed,
      report, and engage ALT-HOLD when close in both axes. */
  function Steer(env: Env, t: Target, lat: real, lon: real, alt: real, dist: real): seq<Output> {
    var altErr := t.alt - alt;
    var brg := Bearing(env.geo, lat, lon, t.lat, t.lon);
    Emit(env.bound, HeadingBugSet, Some(HeadingBug(brg)))
      + Emit(env.bound, ApHdgHoldOn, None)
      + Emit(env.bound, ApAltVarSetEnglish, Some(Trunc(t.alt)))
      + Emit(env.bound, ApVsSetEnglish, Some(SentVs(altErr)))
      + [Report(NavProgress)]
      + (if AltHoldEngages(altErr, dist) then Emit(env.bound, ApAltHoldOn, None) else [])
  }

  function DistanceTo(env: Env, s: Sample, t: Target): real
    requires Complete(s)
  {
    env.geo.distanceNm(s.lat.v, s.lon.v, t.lat, t.lon)
  }

  /** One pass of `_nav_loop`'s while body after the stop check: skip when a
      reading is missing, leave on arrival under 0.3 NM, else steer. */
  function NavCycle(env: Env, t: Target, s: Sample): (r: Cycle)
    ensures r.Exit? <==> Faulty(s) || (Complete(s) && ArrivedAt(DistanceTo(env, s, t)))
    ensures !Faulty(s) && !Complete(s) ==> r == Continue([])
    ensures r.Exit? ==> r.end == Crashed || r.end == Arrived
  {
    if Faulty(s) then Exit(Crashed, [Report(NavFailed)])
    else if !Complete(s) then Continue([])
    else
      var dist := DistanceTo(env, s, t);
      if ArrivedAt(dist) then Exit(Arrived, [Report(TargetReached)])
      else Continue(Steer(env, t, s.lat.v, s.lon.v, s.alt.v, dist))
  }

  /** ALT_HOLD_ON goes out in a navigation cycle exactly when the position is
      readable, the target is not yet reached, and both the altitude error is
      under 100 ft and the distance under 3 NM. */
  lemma AltHoldOnlyNearTarget(env: Env, t: Target, s: Sample)
    requires ApAltHoldOn in env.bound
    ensures (Event(ApAltHoldOn, None) in NavCycle(env, t, s).out) <==>
            (!Faulty(s) && Complete(s) && !ArrivedAt(DistanceTo(env, s, t))
             && AltHoldEngages(t.alt - s.alt.v, DistanceTo(env, s, t)))
  {
    if !Faulty(s) && Complete(s) && !ArrivedAt(DistanceTo(env, s, t)) {
      var dist := DistanceTo(env, s, t);
      var altErr := t.alt - s.alt.v;
      var brg := Bearing(env.geo, s.lat.v, s.lon.v, t.lat, t.lon);
      var a := Emit(env.bound, HeadingBugSet, Some(HeadingBug(brg)))
        + Emit(env.bound, ApHdgHoldOn, None)
        + Emit(env.bound, ApAltVarSetEnglish, Some(Trunc(t.alt)))
        + Emit(env.bound, ApVsSetEnglish, Some(SentVs(altErr)))
        + [Report(NavProgress)];
      assert Event(ApAltHoldOn, None) !in a;
    }
  }

  /** `_nav_loop`'s while loop over the observed ticks. */
  function NavLoopRun(env: Env, t: Target, ticks: seq<Tick>): (r: Run)
    ensures r.end in {Arrived, Stopped, Crashed, Polling}
  {
    if ticks == [] then Run(Polling, [])
    else match ticks[0]
      case Cancelled => Run(Stopped, [])
      case Poll(s) =>
        match NavCycle(env, t, s)
        case Continue(out) => Prepend(out, NavLoopRun(env, t, ticks[1..]))
        case Exit(end, out) => Run(end, out)
  }

  /** The whole of `_nav_loop`: the start report, the loop, then one VS 0
      when the loop was left by arrival or by the stop flag (not after an
      exception). */
  function NavRun(env: Env, t: Target, ticks: seq<Tick>): Run {
    var r := NavLoopRun(env, t, ticks);
    Run(r.end, [Report(NavStarted)] + r.out
               + (if r.end in {Arrived, Stopped} then Emit(env.bound, ApVsSetEnglish, Some(0)) else []))
  }

  /** The loop consumes ticks one at a time: running it over `pre + post` is
      running it over `pre` and, if still polling, continuing over `post`. */
  lemma {:induction false} NavLoopSplit(env: Env, t: Target, pre: seq<Tick>, post: seq<Tick>)
    ensures var p := NavLoopRun(env, t, pre);
            NavLoopRun(env, t, pre + post)
              == if p.end == Polling then Prepend(p.out, NavLoopRun(env, t, post)) else p
  {
    if pre == [] {
      assert pre + post == post;
    } else {
      var whole := pre + post;
      assert whole[0] == pre[0] && whole[1..] == pre[1..] + post;
      LoopHead(env, t, pre);
      LoopHead(env, t, whole);
      if pre[0].Poll? && NavCycle(env, t, pre[0].sample).Continue? {
        var out := NavCycle(env, t, pre[0].sample).out;
        NavLoopSplit(env, t, pre[1..], post);
        var p := NavLoopRun(env, t, pre[1..]);
        if p.end == Polling {
          AppendAssoc(out, p.out, NavLoopRun(env, t, post).out);
        }
      }
    }
  }

  /** The first tick of the loop: a cycle that goes on is followed by the
      rest of the loop; anything else ends it there. */
  lemma LoopHead(env: Env, t: Target, ticks: seq<Tick>)
    requires ticks != []
    ensures var r := NavLoopRun(env, t, ticks);
            if ticks[0].Poll? && NavCycle(env, t, ticks[0].sample).Continue?
            then r == Prepend(NavCycle(env, t, ticks[0].sample).out, NavLoopRun(env, t, ticks[1..]))
            else (r.end != Polling
                  && r == (if ticks[0].Cancelled? then Run(Stopped, [])
                           else Run(NavCycle(env, t, ticks[0].sample).end, NavCycle(env, t, ticks[0].sample).out)))
  {}

  /** Cancellation: once the stop flag is seen, the only further output is a
      single VS 0, and nothing observed later matters. */
  lemma CancelEndsNavigation(env: Env, t: Target, pre: seq<Tick>, post: seq<Tick>)
    requires NavLoopRun(env, t, pre).end == Polling
    ensures NavRun(env, t, pre + [Cancelled] + post)
         == Run(Stopped, [Report(NavStarted)] + NavLoopRun(env, t, pre).out + Emit(env.bound, ApVsSetEnglish, Some(0)))
  {
    var rest := [Cancelled] + post;
    assert rest[0] == Cancelled;
    LoopHead(env, t, rest);
    NavLoopSplit(env, t, pre, rest);
    assert pre + [Cancelled] + post == pre + rest;
  }

  /** Arrival: the first sample under 0.3 NM ends the navigation with the
      arrival report and a single VS 0, and no heading or vertical-speed
      command for that cycle. */
  lemma ArrivalEndsNavigation(env: Env, t: Target, pre: seq<Tick>, s: Sample, post: seq<Tick>)
    requires NavLoopRun(env, t, pre).end == Polling
    requires Complete(s) && ArrivedAt(env.geo.distanceNm(s.lat.v, s.lon.v, t.lat, t.lon))
    ensures NavRun(env, t, pre + [Poll(s)] + post)
         == Run(Arrived, [Report(NavStarted)] + NavLoopRun(env, t, pre).out + [Report(TargetReached)]
                         + Emit(env.bound, ApVsSetEnglish, Some(0)))
  {
    var rest := [Poll(s)] + post;
    assert rest[0] == Poll(s);
    assert NavCycle(env, t, s) == Exit(Arrived, [Report(TargetReached)]);
    LoopHead(env, t, rest);
    NavLoopSplit(env, t, pre, rest);
    assert pre + [Poll(s)] + post == pre + rest;
  }

  /** A cycle whose readings are incomplete is skipped: it sends nothing and
      the navigation goes on as if it had not happened. */
  lemma MissingReadingIsSkipped(env: Env, t: Target, pre: seq<Tick>, s: Sample, post: seq<Tick>)
    requires !Faulty(s) && !Complete(s)
    ensures NavRun(env, t, pre + [Poll(s)] + post) == NavRun(env, t, pre + post)
  {
    var rest := [Poll(s)] + post;
    assert pre + [Poll(s)] + post == pre + rest;
    assert rest[0] == Poll(s) && rest[1..] == post;
    assert NavLoopRun(env, t, rest) == Prepend([], NavLoopRun(env, t, post));
    assert NavLoopRun(env, t, rest) == NavLoopRun(env, t, post);
    NavLoopSplit(env, t, pre, rest);
    NavLoopSplit(env, t, pre, post);
  }

  /** Every vertical-speed command the navigator sends is an integer in
      [-500, 500], the closing VS 0 included. */
  lemma {:induction false} NavVsBounded(env: Env, t: Target, ticks: seq<Tick>)
    ensures forall a <- ArgsOf(NavRun(env, t, ticks).out, ApVsSetEnglish) :: a.Some? && -500 <= a.value <= 500
  {
    var r := NavLoopRun(env, t, ticks);
    LoopVsBounded(env, t, ticks);
    var tail := if r.end in {Arrived, Stopped} then Emit(env.bound, ApVsSetEnglish, Some(0)) else [];
    ArgsOfAppend([Report(NavStarted)] + r.out, tail, ApVsSetEnglish);
    ArgsOfAppend([Report(NavStarted)], r.out, ApVsSetEnglish);
    assert ArgsOf([Report(NavStarted)], ApVsSetEnglish) == [];
    assert tail != [] ==> ArgsOf(tail, ApVsSetEnglish) == [Some(0)] by {
      if tail != [] { assert tail[1..] == []; }
    }
  }

  lemma {:induction false} LoopVsBounded(env: Env, t: Target, ticks: seq<Tick>)
    ensures forall a <- ArgsOf(NavLoopRun(env, t, ticks).out, ApVsSetEnglish) :: a.Some? && -500 <= a.value <= 500
  {
    if ticks != [] && ticks[0].Poll? {
      var s := ticks[0].sample;
      var c := NavCycle(env, t, s);
      CycleVsBounded(env, t, s);
      if c.Continue? {
        LoopVsBounded(env, t, ticks[1..]);
        ArgsOfAppend(c.out, NavLoopRun(env, t, ticks[1..]).out, ApVsSetEnglish);
      }
    }
  }

  lemma CycleVsBounded(env: Env, t: Target, s: Sample)
    ensures forall a <- ArgsOf(NavCycle(env, t, s).out, ApVsSetEnglish) :: a.Some? && -500 <= a.value <= 500
  {
    var c := NavCycle(env, t, s);
    if Faulty(s) || !Complete(s) || c.Exit? {
      assert ArgsOf(c.out, ApVsSetEnglish) == [] by {
        if c.out != [] { assert c.out[1..] == []; }
      }
    } else {
      SteerVsBounded(env, t, s.lat.v, s.lon.v, s.alt.v, DistanceTo(env, s, t));
    }
  }

  /** A steering cycle sends at most one vertical-speed command, `SentVs` of
      the altitude error. */
  lemma SteerVsBounded(env: Env, t: Target, lat: real, lon: real, alt: real, dist: real)
    ensures ArgsOf(Steer(env, t, lat, lon, alt, dist), ApVsSetEnglish)
         == if ApVsSetEnglish in env.bound then [Some(SentVs(t.alt - alt))] else []
  {
    var altErr := t.alt - alt;
    var brg := Bearing(env.geo, lat, lon, t.lat, t.lon);
    var a := Emit(env.bound, HeadingBugSet, Some(HeadingBug(brg)))
        + Emit(env.bound, ApHdgHoldOn, None)
        + Emit(env.bound, ApAltVarSetEnglish, Some(Trunc(t.alt)));
    var v := Emit(env.bound, ApVsSetEnglish, Some(SentVs(altErr)));
    var b := [Report(NavProgress)]
        + (if AltHoldEngages(altErr, dist) then Emit(env.bound, ApAltHoldOn, None) else []);
    assert Steer(env, t, lat, lon, alt, dist) == a + v + b;
    SteerQuiet(env.bound, HeadingBug(brg), Trunc(t.alt), AltHoldEngages(altErr, dist));
    ArgsOfMiddle(a, v, b, ApVsSetEnglish);
    ArgsOfEmit(env.bound, ApVsSetEnglish, Some(SentVs(altErr)), ApVsSetEnglish);
  }

  /** Around its vertical-speed command a steering cycle fires no other. */
  lemma SteerQuiet(bound: set<EventName>, bug: int, altVar: int, hold: bool)
    ensures forall o <- Emit(bound, HeadingBugSet, Some(bug)) + Emit(bound, ApHdgHoldOn, None)
                        + Emit(bound, ApAltVarSetEnglish, Some(altVar)) ::
              !(o.Event? && o.name == ApVsSetEnglish)
    ensures forall o <- [Report(NavProgress)] + (if hold then Emit(bound, ApAltHoldOn, None) else []) ::
              !(o.Event? && o.name == ApVsSetEnglish)
  {}

  /** The events named `n` of `pre + x + post` are those of `x` when `pre`
      and `post` fire none. */
  lemma ArgsOfMiddle(pre: seq<Output>, x: seq<Output>, post: seq<Output>, n: EventName)
    requires forall o <- pre :: !(o.Event? && o.name == n)
    requires forall o <- post :: !(o.Event? && o.name == n)
    ensures ArgsOf(pre + x + post, n) == ArgsOf(x, n)
  {
    NoArgsOf(pre, n);
    NoArgsOf(post, n);
    ArgsOfAppend(pre + x, post, n);
    ArgsOfAppend(pre, x, n);
  }
}
