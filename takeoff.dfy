/** The takeoff sequencer (`AutopilotController`, core/autopilot_controller.py):
    configure for the takeoff roll, wait for rotation speed, command a climb
    of 350 ft above the altitude read at rotation, level off within 50 ft of
    it and hand the aircraft over in vertical-speed mode. */
module Takeoff {
  import opened SimTypes

  const RotationKt: real := 70.0
  const ClimbFt: real := 350.0
  const LevelBandFt: real := 50.0
  const ClimbVsFpm: int := 1000
  const CruiseThrottle: int := 6554

  /** Where a takeoff stands when its readings run out or it ends: still on
      the roll (waiting for speed), climbing toward `target`, levelled off,
      or stopped by an exception. */
  datatype Phase = Rolling | Climbing(target: real) | Level(target: real) | Failed

  datatype Takeoff = Takeoff(phase: Phase, out: seq<Output>)

  /** Parking brakes, full throttle lever, flaps 25, trim 100, then the
      start report. */
  function ConfigureOut(bound: set<EventName>): seq<Output> {
    Emit(bound, ParkingBrakes, None)
      + [SetVar(ThrottleLever1, 100.0), SetVar(FlapsHandlePercent, 25.0),
         SetVar(ElevatorTrimPosition, 100.0), Report(TakeoffStarted)]
  }

  /** `spd is None or spd < 70` */
  predicate TooSlow(r: Reading)
    requires !r.Fault?
  {
    r.Missing? || r.v < RotationKt
  }

  /** How the rotation wait ends over a trace of airspeed reads: the trace
      runs out, a reading reaches 70 kt, or a read raises. */
  datatype Wait = StillRolling | Rotated | Raised

  function RollWait(speeds: seq<Reading>): Wait {
    if speeds == [] then StillRolling
    else if speeds[0].Fault? then Raised
    else if TooSlow(speeds[0]) then RollWait(speeds[1..])
    else Rotated
  }

  /** AP master, the target altitude, 1000 fpm up, then the climb report. */
  function ClimbOut(bound: set<EventName>, target: real): seq<Output> {
    Emit(bound, ApMaster, None)
      + Emit(bound, ApAltVarSetEnglish, Some(Trunc(target)))
      + Emit(bound, ApVsSetEnglish, Some(ClimbVsFpm))
      + [Report(ClimbingTo(Trunc(target)))]
  }

  /** `cur_alt and abs(cur_alt - target_alt) < 50`: a zero altitude is
      falsy in Python and never levels off. */
  predicate LevelsOff(alt: real, target: real) {
    alt != 0.0 && Abs(alt - target) < LevelBandFt
  }

  /** VS 0, ALT-HOLD off, cruise throttle, then the level-flight report. */
  function LevelOut(bound: set<EventName>): seq<Output> {
    Emit(bound, ApVsSetEnglish, Some(0))
      + Emit(bound, ApAltHoldOff, None)
      + Emit(bound, ThrottleAxisSetEx1, Some(CruiseThrottle))
      + [Report(LevelFlight)]
  }

  /** The level-off loop over a trace of altitude reads. */
  function LevelWait(bound: set<EventName>, target: real, alts: seq<Reading>): (r: Takeoff)
    ensures r.phase in {Climbing(target), Level(target), Failed}
  {
    if alts == [] then Takeoff(Climbing(target), [])
    else match alts[0]
      case Fault => Takeoff(Failed, [Report(TakeoffFailed)])
      case Missing => LevelWait(bound, target, alts[1..])
      case Value(a) =>
        if LevelsOff(a, target) then Takeoff(Level(target), LevelOut(bound))
        else LevelWait(bound, target, alts[1..])
  }

  /** Everything `takeoff_sequence` sends, given the airspeed reads of the
      rotation wait, the altitude read at rotation and the altitude reads of
      the level-off loop. A missing altitude at rotation (`None + 350`) and
      any read that raises end in the single failure report. */
  function TakeoffRun(bound: set<EventName>, speeds: seq<Reading>, rotAlt: Reading, alts: seq<Reading>): Takeoff {
    var cfg := ConfigureOut(bound);
    match RollWait(speeds)
    case StillRolling => Takeoff(Rolling, cfg)
    case Raised => Takeoff(Failed, cfg + [Report(TakeoffFailed)])
    case Rotated =>
      if !rotAlt.Value? then Takeoff(Failed, cfg + [Report(TakeoffFailed)])
      else
        var target := rotAlt.v + ClimbFt;
        var lw := LevelWait(bound, target, alts);
        Takeoff(lw.phase, cfg + ClimbOut(bound, target) + lw.out)
  }

  /** The status reports among `out`, in order. */
  function Reports(out: seq<Output>): seq<Status> {
    if out == [] then []
    else (if out[0].Report? then [out[0].status] else []) + Reports(out[1..])
  }

  class AutopilotController {
    const sim: Vehicle

    constructor (sim: Vehicle)
      ensures this.sim == sim
    {
      this.sim := sim;
    }

    /** `set_status` */
    method SetStatus(s: Status)
      modifies sim
      ensures sim.log == old(sim.log) + [Report(s)]
    {
      sim.Say(s);
    }

    method Configure()
      modifies sim
      ensures sim.log == old(sim.log) + ConfigureOut(sim.bound)
    {
      ghost var log0 := sim.log;
      sim.Ev(ParkingBrakes, None);
      ghost var brakes := Emit(sim.bound, ParkingBrakes, None);
      sim.Set(ThrottleLever1, 100.0);
      sim.Set(FlapsHandlePercent, 25.0);
      sim.Set(ElevatorTrimPosition, 100.0);
      SetStatus(TakeoffStarted);
      ghost var rest := [SetVar(ThrottleLever1, 100.0), SetVar(FlapsHandlePercent, 25.0),
                         SetVar(ElevatorTrimPosition, 100.0), Report(TakeoffStarted)];
      assert sim.log == (log0 + brakes) + rest;
      AppendAssoc(log0, brakes, rest);
    }

    method Climb(target: real)
      modifies sim
      ensures sim.log == old(sim.log) + ClimbOut(sim.bound, target)
    {
      ghost var log0, bound := sim.log, sim.bound;
      sim.Ev(ApMaster, None);
      ghost var acc := Emit(bound, ApMaster, None);
      sim.Ev(ApAltVarSetEnglish, Some(Trunc(target)));
      AppendAssoc(log0, acc, Emit(bound, ApAltVarSetEnglish, Some(Trunc(target))));
      acc := acc + Emit(bound, ApAltVarSetEnglish, Some(Trunc(target)));
      sim.Ev(ApVsSetEnglish, Some(ClimbVsFpm));
      AppendAssoc(log0, acc, Emit(bound, ApVsSetEnglish, Some(ClimbVsFpm)));
      acc := acc + Emit(bound, ApVsSetEnglish, Some(ClimbVsFpm));
      SetStatus(ClimbingTo(Trunc(target)));
      AppendAssoc(log0, acc, [Report(ClimbingTo(Trunc(target)))]);
    }

    method LevelOff()
      modifies sim
      ensures sim.log == old(sim.log) + LevelOut(sim.bound)
    {
      ghost var log0, bound := sim.log, sim.bound;
      sim.Ev(ApVsSetEnglish, Some(0));
      ghost var acc := Emit(bound, ApVsSetEnglish, Some(0));
      sim.Ev(ApAltHoldOff, None);
      AppendAssoc(log0, acc, Emit(bound, ApAltHoldOff, None));
      acc := acc + Emit(bound, ApAltHoldOff, None);
      sim.Ev(ThrottleAxisSetEx1, Some(CruiseThrottle));
      AppendAssoc(log0, acc, Emit(bound, ThrottleAxisSetEx1, Some(CruiseThrottle)));
      acc := acc + Emit(bound, ThrottleAxisSetEx1, Some(CruiseThrottle));
      SetStatus(LevelFlight);
      AppendAssoc(log0, acc, [Report(LevelFlight)]);
    }

    /** The rotation wait: poll the airspeed until it reaches 70 kt. */
    method AwaitRotation(speeds: seq<Reading>) returns (w: Wait)
      ensures w == RollWait(speeds)
    {
      var i := 0;
      while true
        invariant i <= |speeds| && RollWait(speeds) == RollWait(speeds[i..])
        decreases |speeds| - i
      {
        if i == |speeds| {
          assert speeds[i..] == [];
          return StillRolling;
        }
        assert speeds[i..][0] == speeds[i] && speeds[i..][1..] == speeds[i + 1..];
        var spd := speeds[i];
        if spd.Fault? {
          return Raised;
        }
        if !(spd.Missing? || spd.v < RotationKt) {
          return Rotated;
        }
        i := i + 1;
      }
    }

    /** The level-off wait: poll the altitude until it is within 50 ft of
        the target. */
    method AwaitLevel(target: real, alts: seq<Reading>) returns (phase: Phase)
      ensures phase == LevelWait(sim.bound, target, alts).phase
    {
      var j := 0;
      while true
        invariant j <= |alts| && LevelWait(sim.bound, target, alts) == LevelWait(sim.bound, target, alts[j..])
        decreases |alts| - j
      {
        if j == |alts| {
          assert alts[j..] == [];
          return Climbing(target);
        }
        assert alts[j..][0] == alts[j] && alts[j..][1..] == alts[j + 1..];
        var curAlt := alts[j];
        if curAlt.Fault? {
          return Failed;
        }
        if curAlt.Value? && curAlt.v != 0.0 && Abs(curAlt.v - target) < LevelBandFt {
          return Level(target);
        }
        j := j + 1;
      }
    }

    /** `takeoff_sequence`, run over the reads it gets; when a polling loop
        runs out of reads the sequence is still in progress and the phase
        says where. */
    method TakeoffSequence(speeds: seq<Reading>, rotAlt: Reading, alts: seq<Reading>) returns (phase: Phase)
      modifies sim
      ensures var r := TakeoffRun(sim.bound, speeds, rotAlt, alts);
              phase == r.phase && sim.log == old(sim.log) + r.out
    {
      ghost var log0, bound := sim.log, sim.bound;
      Configure();
      ghost var cfg := ConfigureOut(bound);
      var w := AwaitRotation(speeds);
      if w == StillRolling {
        assert TakeoffRun(bound, speeds, rotAlt, alts) == Takeoff(Rolling, cfg);
        return Rolling;
      }
      if w == Raised || !rotAlt.Value? {
        assert TakeoffRun(bound, speeds, rotAlt, alts) == Takeoff(Failed, cfg + [Report(TakeoffFailed)]);
        SetStatus(TakeoffFailed);
        AppendAssoc(log0, cfg, [Report(TakeoffFailed)]);
        return Failed;
      }
      var target := rotAlt.v + ClimbFt;
      assert TakeoffRun(bound, speeds, rotAlt, alts)
          == Takeoff(LevelWait(bound, target, alts).phase, cfg + (ClimbOut(bound, target) + LevelWait(bound, target, alts).out));
      phase := ClimbAndLevel(target, alts);
    }

    /** After rotation: command the climb, wait for the altitude band and
        level off, or report the failure of a read. */
    method ClimbAndLevel(target: real, alts: seq<Reading>) returns (phase: Phase)
      modifies sim
      ensures var lw := LevelWait(sim.bound, target, alts);
              phase == lw.phase && sim.log == old(sim.log) + (ClimbOut(sim.bound, target) + lw.out)
    {
      ghost var log0, bound := sim.log, sim.bound;
      Climb(target);
      ghost var climb := ClimbOut(bound, target);
      phase := AwaitLevel(target, alts);
      ghost var lw := LevelWait(bound, target, alts);
      LevelWaitOut(bound, target, alts);
      if phase.Failed? {
        assert lw.out == [Report(TakeoffFailed)];
        SetStatus(TakeoffFailed);
      } else if phase.Level? {
        assert lw.out == LevelOut(bound);
        LevelOff();
      } else {
        assert lw.out == [];
      }
      assert sim.log == log0 + climb + lw.out;
      AppendAssoc(log0, climb, lw.out);
    }
  }

  // ---------------------------------------------------------------------
  // Properties

  lemma {:induction false} ReportsAppend(a: seq<Output>, b: seq<Output>)
    ensures Reports(a + b) == Reports(a) + Reports(b)
  {
    if a != [] {
      assert (a + b)[1..] == a[1..] + b;
      ReportsAppend(a[1..], b);
    } else {
      assert a + b == b;
    }
  }

  lemma {:induction false} ReportsOfEvents(out: seq<Output>)
    requires forall o <- out :: o.Event?
    ensures Reports(out) == []
  {
    if out != [] {
      assert out[0] in out;
      ReportsOfEvents(out[1..]);
    }
  }

  lemma ReportsOfConfigure(bound: set<EventName>)
    ensures Reports(ConfigureOut(bound)) == [TakeoffStarted]
  {
    var brakes := Emit(bound, ParkingBrakes, None);
    var rest := [SetVar(ThrottleLever1, 100.0), SetVar(FlapsHandlePercent, 25.0),
                 SetVar(ElevatorTrimPosition, 100.0), Report(TakeoffStarted)];
    ReportsOfEvents(brakes);
    ReportsAppend(brakes, rest);
    assert rest[1..][1..][1..][1..] == [];
  }

  lemma ReportsOfClimb(bound: set<EventName>, target: real)
    ensures Reports(ClimbOut(bound, target)) == [ClimbingTo(Trunc(target))]
  {
    var evs := Emit(bound, ApMaster, None)
      + Emit(bound, ApAltVarSetEnglish, Some(Trunc(target)))
      + Emit(bound, ApVsSetEnglish, Some(ClimbVsFpm));
    ReportsOfEvents(evs);
    ReportsAppend(evs, [Report(ClimbingTo(Trunc(target)))]);
    assert [Report(ClimbingTo(Trunc(target)))][1..] == [];
  }

  lemma ReportsOfLevel(bound: set<EventName>)
    ensures Reports(LevelOut(bound)) == [LevelFlight]
  {
    var evs := Emit(bound, ApVsSetEnglish, Some(0))
      + Emit(bound, ApAltHoldOff, None)
      + Emit(bound, ThrottleAxisSetEx1, Some(CruiseThrottle));
    ReportsOfEvents(evs);
    ReportsAppend(evs, [Report(LevelFlight)]);
    assert [Report(LevelFlight)][1..] == [];
  }

  /** Whatever the altitude reads, the level-off loop sends nothing while it
      polls and, when it ends, either the level-off commands or the single
      failure report. */
  lemma {:induction false} LevelWaitOut(bound: set<EventName>, target: real, alts: seq<Reading>)
    ensures var r := LevelWait(bound, target, alts);
            r.out == match r.phase
                     case Level(_) => LevelOut(bound)
                     case Failed => [Report(TakeoffFailed)]
                     case _ => []
  {
    if alts != [] && (alts[0].Missing? || (alts[0].Value? && !LevelsOff(alts[0].v, target))) {
      LevelWaitOut(bound, target, alts[1..]);
    }
  }

  /** The status reports of a takeoff, whatever the reads: the start, then
      the climb target once rotation speed was reached and the altitude
      read, then level flight; an exception adds exactly one failure report,
      last, and a sequence still in progress has reported so far only what
      it has done. */
  lemma StatusSequence(bound: set<EventName>, speeds: seq<Reading>, rotAlt: Reading, alts: seq<Reading>)
    ensures var r := TakeoffRun(bound, speeds, rotAlt, alts);
            match r.phase
            case Rolling => Reports(r.out) == [TakeoffStarted]
            case Climbing(t) => Reports(r.out) == [TakeoffStarted, ClimbingTo(Trunc(t))]
            case Level(t) => Reports(r.out) == [TakeoffStarted, ClimbingTo(Trunc(t)), LevelFlight]
            case Failed => Reports(r.out) == [TakeoffStarted, TakeoffFailed]
                           || (rotAlt.Value? && Reports(r.out)
                               == [TakeoffStarted, ClimbingTo(Trunc(rotAlt.v + ClimbFt)), TakeoffFailed])
  {
    ReportsOfConfigure(bound);
    if RollWait(speeds) == Rotated && rotAlt.Value? {
      RotatedReports(bound, speeds, rotAlt.v, alts);
      LevelReports(bound, rotAlt.v + ClimbFt, alts);
    } else if RollWait(speeds) != StillRolling {
      assert [Report(TakeoffFailed)][1..] == [];
      ReportsAppend(ConfigureOut(bound), [Report(TakeoffFailed)]);
    }
  }

  lemma RotatedReports(bound: set<EventName>, speeds: seq<Reading>, alt: real, alts: seq<Reading>)
    requires RollWait(speeds) == Rotated
    ensures var lw := LevelWait(bound, alt + ClimbFt, alts);
            Reports(TakeoffRun(bound, speeds, Value(alt), alts).out)
              == [TakeoffStarted, ClimbingTo(Trunc(alt + ClimbFt))] + Reports(lw.out)
  {
    var target := alt + ClimbFt;
    var cfg, climb := ConfigureOut(bound), ClimbOut(bound, target);
    var lw := LevelWait(bound, target, alts);
    RotatedRun(bound, speeds, alt, alts);
    ReportsOfConfigure(bound);
    ReportsOfClimb(bound, target);
    ReportsAppend(cfg, climb);
    ReportsAppend(cfg + climb, lw.out);
  }

  /** The level-off loop reports level flight, the failure, or nothing. */
  lemma LevelReports(bound: set<EventName>, target: real, alts: seq<Reading>)
    ensures var lw := LevelWait(bound, target, alts);
            Reports(lw.out) == match lw.phase
                               case Level(_) => [LevelFlight]
                               case Failed => [TakeoffFailed]
                               case _ => []
  {
    LevelWaitOut(bound, target, alts);
    ReportsOfLevel(bound);
    assert [Report(TakeoffFailed)][1..] == [];
  }

  /** Airspeed read number `k` is the first to reach 70 kt, and no read
      before it raised. */
  predicate FirstFastAt(speeds: seq<Reading>, k: int) {
    0 <= k < |speeds| && speeds[k].Value? && speeds[k].v >= RotationKt
    && forall m :: 0 <= m < k ==> !speeds[m].Fault? && TooSlow(speeds[m])
  }

  lemma FirstFastShift(speeds: seq<Reading>, k: nat)
    requires speeds != [] && !speeds[0].Fault? && TooSlow(speeds[0])
    ensures FirstFastAt(speeds, k + 1) <==> FirstFastAt(speeds[1..], k)
  {
    if FirstFastAt(speeds[1..], k) {
      forall m | 0 <= m < k + 1
        ensures !speeds[m].Fault? && TooSlow(speeds[m])
      {
        if m > 0 {
          assert speeds[m] == speeds[1..][m - 1];
        }
      }
    }
    if FirstFastAt(speeds, k + 1) {
      forall m | 0 <= m < k
        ensures !speeds[1..][m].Fault? && TooSlow(speeds[1..][m])
      {
        assert speeds[1..][m] == speeds[m + 1];
      }
    }
  }

  /** Rotation happens exactly when some airspeed read reaches 70 kt and
      every read before it answered (none raised) with no value or less
      than 70 kt. */
  lemma {:induction false} RotatesAtFirstFastReading(speeds: seq<Reading>)
    ensures RollWait(speeds) == Rotated <==> exists k :: FirstFastAt(speeds, k)
  {
    if speeds == [] {
    } else if speeds[0].Fault? {
      forall k ensures !FirstFastAt(speeds, k) {
        if k > 0 {
          assert speeds[0].Fault?;
        }
      }
    } else if TooSlow(speeds[0]) {
      RotatesAtFirstFastReading(speeds[1..]);
      if RollWait(speeds) == Rotated {
        var k :| FirstFastAt(speeds[1..], k);
        FirstFastShift(speeds, k);
      } else {
        forall k ensures !FirstFastAt(speeds, k) {
          if k > 0 {
            FirstFastShift(speeds, k - 1);
          }
        }
      }
    } else {
      assert FirstFastAt(speeds, 0);
    }
  }

  /** Nothing of the climb goes out before rotation: until a read reaches
      70 kt, the autopilot master, altitude and vertical-speed events are
      never fired. */
  lemma NoClimbBeforeRotation(bound: set<EventName>, speeds: seq<Reading>, rotAlt: Reading, alts: seq<Reading>)
    requires RollWait(speeds) != Rotated
    ensures var out := TakeoffRun(bound, speeds, rotAlt, alts).out;
            ArgsOf(out, ApMaster) == [] && ArgsOf(out, ApAltVarSetEnglish) == []
            && ArgsOf(out, ApVsSetEnglish) == []
  {
    ShortArgs(bound, speeds, rotAlt, alts, ApMaster);
    ShortArgs(bound, speeds, rotAlt, alts, ApAltVarSetEnglish);
    ShortArgs(bound, speeds, rotAlt, alts, ApVsSetEnglish);
  }

  /** Altitude read number `j` is non-zero and within 50 ft of the target,
      and no read before it raised. */
  predicate CloseAt(target: real, alts: seq<Reading>, j: int) {
    0 <= j < |alts| && alts[j].Value? && LevelsOff(alts[j].v, target)
    && forall m :: 0 <= m < j ==> !alts[m].Fault?
  }

  lemma CloseShift(target: real, alts: seq<Reading>, j: nat)
    requires alts != [] && !alts[0].Fault?
    ensures CloseAt(target, alts, j + 1) <==> CloseAt(target, alts[1..], j)
  {
    if CloseAt(target, alts[1..], j) {
      forall m | 0 <= m < j + 1
        ensures !alts[m].Fault?
      {
        if m > 0 {
          assert alts[m] == alts[1..][m - 1];
        }
      }
    }
    if CloseAt(target, alts, j + 1) {
      forall m | 0 <= m < j
        ensures !alts[1..][m].Fault?
      {
        assert alts[1..][m] == alts[m + 1];
      }
    }
  }

  /** The level-off loop ends in level flight exactly when some altitude
      read is non-zero and within 50 ft of the target and no read before it
      raised; a zero reading never levels off, even near a target. */
  lemma {:induction false} LevelsOffAtFirstCloseReading(bound: set<EventName>, target: real, alts: seq<Reading>)
    ensures LevelWait(bound, target, alts).phase.Level? <==> exists j :: CloseAt(target, alts, j)
  {
    if alts == [] {
    } else if alts[0].Fault? {
      forall j ensures !CloseAt(target, alts, j) {
        if j > 0 {
          assert alts[0].Fault?;
        }
      }
    } else if alts[0].Value? && LevelsOff(alts[0].v, target) {
      assert CloseAt(target, alts, 0);
    } else {
      LevelsOffAtFirstCloseReading(bound, target, alts[1..]);
      if LevelWait(bound, target, alts).phase.Level? {
        var j :| CloseAt(target, alts[1..], j);
        CloseShift(target, alts, j);
      } else {
        forall j ensures !CloseAt(target, alts, j) {
          if j > 0 {
            CloseShift(target, alts, j - 1);
          }
        }
      }
    }
  }

  /** The configuration fires no event but the parking brakes. */
  lemma ConfigureArgs(bound: set<EventName>, n: EventName)
    requires n != ParkingBrakes
    ensures ArgsOf(ConfigureOut(bound), n) == []
  {
    var brakes := Emit(bound, ParkingBrakes, None);
    var sets := [SetVar(ThrottleLever1, 100.0), SetVar(FlapsHandlePercent, 25.0),
                 SetVar(ElevatorTrimPosition, 100.0), Report(TakeoffStarted)];
    assert ConfigureOut(bound) == brakes + sets;
    ArgsOfEmit(bound, ParkingBrakes, None, n);
    NoArgsOf(sets, n);
    ArgsOfAppend(brakes, sets, n);
  }

  /** The configuration writes the throttle lever, flaps and trim once
      each, with 100 %, 25 % and 100 %. */
  lemma ConfigureWrites(bound: set<EventName>, v: VarName)
    requires v in {FlapsHandlePercent, ElevatorTrimPosition, ThrottleLever1}
    ensures Writes(ConfigureOut(bound), v)
         == [if v == FlapsHandlePercent then 25.0 else 100.0]
  {
    var brakes := Emit(bound, ParkingBrakes, None);
    var sets := [SetVar(ThrottleLever1, 100.0), SetVar(FlapsHandlePercent, 25.0),
                 SetVar(ElevatorTrimPosition, 100.0), Report(TakeoffStarted)];
    assert ConfigureOut(bound) == brakes + sets;
    assert sets[1..][1..][1..][1..] == [];
    UntouchedNoWrites(brakes, v);
    WritesAppend(brakes, sets, v);
  }

  lemma ConfigureFacts(bound: set<EventName>)
    ensures ArgsOf(ConfigureOut(bound), ApVsSetEnglish) == []
    ensures ArgsOf(ConfigureOut(bound), ApAltVarSetEnglish) == []
    ensures Writes(ConfigureOut(bound), FlapsHandlePercent) == [25.0]
    ensures Writes(ConfigureOut(bound), ElevatorTrimPosition) == [100.0]
    ensures Writes(ConfigureOut(bound), ThrottleLever1) == [100.0]
  {
    ConfigureArgs(bound, ApVsSetEnglish);
    ConfigureArgs(bound, ApAltVarSetEnglish);
    ConfigureWrites(bound, FlapsHandlePercent);
    ConfigureWrites(bound, ElevatorTrimPosition);
    ConfigureWrites(bound, ThrottleLever1);
  }

  lemma ClimbWritesNothing(bound: set<EventName>, target: real, v: VarName)
    ensures Untouched(ClimbOut(bound, target), v)
  {}

  lemma ClimbArgs(bound: set<EventName>, target: real, n: EventName)
    requires n in {ApVsSetEnglish, ApAltVarSetEnglish}
    ensures ArgsOf(ClimbOut(bound, target), n)
         == if n !in bound then []
            else if n == ApVsSetEnglish then [Some(ClimbVsFpm)]
            else [Some(Trunc(target))]
  {
    var a := Emit(bound, ApMaster, None);
    var v := Emit(bound, ApAltVarSetEnglish, Some(Trunc(target)));
    var z := Emit(bound, ApVsSetEnglish, Some(ClimbVsFpm));
    var post := [Report(ClimbingTo(Trunc(target)))];
    assert ClimbOut(bound, target) == a + v + z + post;
    ArgsOfEmit(bound, ApMaster, None, n);
    ArgsOfEmit(bound, ApAltVarSetEnglish, Some(Trunc(target)), n);
    ArgsOfEmit(bound, ApVsSetEnglish, Some(ClimbVsFpm), n);
    assert post[1..] == [];
    ArgsOfAppend(a, v, n);
    ArgsOfAppend(a + v, z, n);
    ArgsOfAppend(a + v + z, post, n);
  }

  lemma LevelWritesNothing(bound: set<EventName>, v: VarName)
    ensures Untouched(LevelOut(bound), v)
  {}

  lemma LevelArgs(bound: set<EventName>, n: EventName)
    requires n in {ApVsSetEnglish, ApAltVarSetEnglish}
    ensures ArgsOf(LevelOut(bound), n) == if n == ApVsSetEnglish && n in bound then [Some(0)] else []
  {
    var zero := Emit(bound, ApVsSetEnglish, Some(0));
    var h := Emit(bound, ApAltHoldOff, None);
    var t := Emit(bound, ThrottleAxisSetEx1, Some(CruiseThrottle));
    var post := [Report(LevelFlight)];
    assert LevelOut(bound) == zero + h + t + post;
    ArgsOfEmit(bound, ApVsSetEnglish, Some(0), n);
    ArgsOfEmit(bound, ApAltHoldOff, None, n);
    ArgsOfEmit(bound, ThrottleAxisSetEx1, Some(CruiseThrottle), n);
    assert post[1..] == [];
    ArgsOfAppend(zero, h, n);
    ArgsOfAppend(zero + h, t, n);
    ArgsOfAppend(zero + h + t, post, n);
  }

  /** A takeoff that rotated with a readable altitude: the configuration,
      the climb toward 350 ft above that altitude, then the level-off
      loop. */
  lemma RotatedRun(bound: set<EventName>, speeds: seq<Reading>, alt: real, alts: seq<Reading>)
    requires RollWait(speeds) == Rotated
    ensures var lw := LevelWait(bound, alt + ClimbFt, alts);
            TakeoffRun(bound, speeds, Value(alt), alts)
              == Takeoff(lw.phase, ConfigureOut(bound) + ClimbOut(bound, alt + ClimbFt) + lw.out)
  {}

  /** The events named `n` of a rotated takeoff are those of the
      configuration, then of the climb, then of the level-off loop. */
  lemma RotatedArgs(bound: set<EventName>, speeds: seq<Reading>, alt: real, alts: seq<Reading>, n: EventName)
    requires RollWait(speeds) == Rotated
    ensures var lw := LevelWait(bound, alt + ClimbFt, alts);
            ArgsOf(TakeoffRun(bound, speeds, Value(alt), alts).out, n)
              == ArgsOf(ConfigureOut(bound), n) + ArgsOf(ClimbOut(bound, alt + ClimbFt), n) + ArgsOf(lw.out, n)
  {
    var cfg, climb := ConfigureOut(bound), ClimbOut(bound, alt + ClimbFt);
    var lw := LevelWait(bound, alt + ClimbFt, alts);
    RotatedRun(bound, speeds, alt, alts);
    ArgsOfAppend(cfg, climb, n);
    ArgsOfAppend(cfg + climb, lw.out, n);
  }

  /** A takeoff that did not both rotate and read its altitude: the
      configuration, then the failure report if a read raised. */
  lemma ShortRun(bound: set<EventName>, speeds: seq<Reading>, rotAlt: Reading, alts: seq<Reading>)
    requires !(RollWait(speeds) == Rotated && rotAlt.Value?)
    ensures var r := TakeoffRun(bound, speeds, rotAlt, alts);
            (r.phase == Rolling || r.phase == Failed)
            && r.out == ConfigureOut(bound) + (if r.phase == Failed then [Report(TakeoffFailed)] else [])
  {}

  /** The vertical-speed commands of a takeoff are 1000 fpm at rotation and
      0 at level-off, in that order and nothing else: none before rotation,
      and the second exactly when the aircraft levelled off. */
  lemma TakeoffVsCommands(bound: set<EventName>, speeds: seq<Reading>, rotAlt: Reading, alts: seq<Reading>)
    requires ApVsSetEnglish in bound
    ensures var r := TakeoffRun(bound, speeds, rotAlt, alts);
            ArgsOf(r.out, ApVsSetEnglish)
              == if r.phase.Level? then [Some(ClimbVsFpm), Some(0)]
                 else if RollWait(speeds) == Rotated && rotAlt.Value? then [Some(ClimbVsFpm)]
                 else []
  {
    if RollWait(speeds) != Rotated || !rotAlt.Value? {
      ShortArgs(bound, speeds, rotAlt, alts, ApVsSetEnglish);
    } else {
      RotatedRun(bound, speeds, rotAlt.v, alts);
      RotatedVs(bound, speeds, rotAlt.v, alts);
    }
  }

  lemma RotatedVs(bound: set<EventName>, speeds: seq<Reading>, alt: real, alts: seq<Reading>)
    requires RollWait(speeds) == Rotated && ApVsSetEnglish in bound
    ensures var lw := LevelWait(bound, alt + ClimbFt, alts);
            ArgsOf(TakeoffRun(bound, speeds, Value(alt), alts).out, ApVsSetEnglish)
              == if lw.phase.Level? then [Some(ClimbVsFpm), Some(0)] else [Some(ClimbVsFpm)]
  {
    var target := alt + ClimbFt;
    var lw := LevelWait(bound, target, alts);
    RotatedArgs(bound, speeds, alt, alts, ApVsSetEnglish);
    ConfigureArgs(bound, ApVsSetEnglish);
    ClimbArgs(bound, target, ApVsSetEnglish);
    LevelWaitOut(bound, target, alts);
    if lw.phase.Level? {
      LevelArgs(bound, ApVsSetEnglish);
    } else {
      NoArgsOf(lw.out, ApVsSetEnglish);
    }
  }

  /** A takeoff that did not both rotate and read its altitude fires no
      event but the parking brakes. */
  lemma ShortArgs(bound: set<EventName>, speeds: seq<Reading>, rotAlt: Reading, alts: seq<Reading>, n: EventName)
    requires !(RollWait(speeds) == Rotated && rotAlt.Value?) && n != ParkingBrakes
    ensures ArgsOf(TakeoffRun(bound, speeds, rotAlt, alts).out, n) == []
  {
    var r := TakeoffRun(bound, speeds, rotAlt, alts);
    ShortRun(bound, speeds, rotAlt, alts);
    var tail: seq<Output> := if r.phase == Failed then [Report(TakeoffFailed)] else [];
    ConfigureArgs(bound, n);
    NoArgsOf(tail, n);
    ArgsOfAppend(ConfigureOut(bound), tail, n);
  }

  /** The climb target is 350 ft above the altitude read at rotation, and it
      is the only altitude target the takeoff ever sends. */
  lemma ClimbTargetIsRotationAltitudePlus350(bound: set<EventName>, speeds: seq<Reading>, alt: real, alts: seq<Reading>)
    requires RollWait(speeds) == Rotated && ApAltVarSetEnglish in bound
    ensures var r := TakeoffRun(bound, speeds, Value(alt), alts);
            ArgsOf(r.out, ApAltVarSetEnglish) == [Some(Trunc(alt + 350.0))]
            && (r.phase.Climbing? || r.phase.Level? ==> r.phase.target == alt + 350.0)
  {
    var target := alt + ClimbFt;
    var lw := LevelWait(bound, target, alts);
    RotatedArgs(bound, speeds, alt, alts, ApAltVarSetEnglish);
    ConfigureArgs(bound, ApAltVarSetEnglish);
    ClimbArgs(bound, target, ApAltVarSetEnglish);
    LevelWaitOut(bound, target, alts);
    if lw.phase.Level? {
      LevelArgs(bound, ApAltVarSetEnglish);
    } else {
      NoArgsOf(lw.out, ApAltVarSetEnglish);
    }
  }

  /** After the configuration a takeoff only fires events and reports. */
  lemma AfterConfiguration(bound: set<EventName>, speeds: seq<Reading>, rotAlt: Reading, alts: seq<Reading>)
    returns (rest: seq<Output>)
    ensures TakeoffRun(bound, speeds, rotAlt, alts).out == ConfigureOut(bound) + rest
    ensures forall o <- rest :: !o.SetVar?
  {
    var r := TakeoffRun(bound, speeds, rotAlt, alts);
    var cfg := ConfigureOut(bound);
    if RollWait(speeds) == Rotated && rotAlt.Value? {
      var target := rotAlt.v + ClimbFt;
      var lw := LevelWait(bound, target, alts);
      RotatedRun(bound, speeds, rotAlt.v, alts);
      LevelWaitOut(bound, target, alts);
      rest := ClimbOut(bound, target) + lw.out;
      AppendAssoc(cfg, ClimbOut(bound, target), lw.out);
    } else {
      ShortRun(bound, speeds, rotAlt, alts);
      rest := if r.phase == Failed then [Report(TakeoffFailed)] else [];
    }
  }

  /** The takeoff configuration goes out first, whatever happens later, and
      it is the only write to flaps, trim and throttle lever. */
  lemma ConfigurationComesFirst(bound: set<EventName>, speeds: seq<Reading>, rotAlt: Reading, alts: seq<Reading>)
    ensures var out := TakeoffRun(bound, speeds, rotAlt, alts).out;
            var cfg := ConfigureOut(bound);
            |cfg| <= |out| && out[..|cfg|] == cfg
            && Writes(out, FlapsHandlePercent) == [25.0]
            && Writes(out, ElevatorTrimPosition) == [100.0]
            && Writes(out, ThrottleLever1) == [100.0]
  {
    var cfg := ConfigureOut(bound);
    var rest := AfterConfiguration(bound, speeds, rotAlt, alts);
    ConfigureFacts(bound);
    UntouchedNoWrites(rest, FlapsHandlePercent);
    UntouchedNoWrites(rest, ElevatorTrimPosition);
    UntouchedNoWrites(rest, ThrottleLever1);
    WritesAppend(cfg, rest, FlapsHandlePercent);
    WritesAppend(cfg, rest, ElevatorTrimPosition);
    WritesAppend(cfg, rest, ThrottleLever1);
  }

  /** A takeoff that levelled off ends with VS 0, ALT-HOLD off, cruise
      throttle and the level-flight report, in that order and last. */
  lemma TakeoffEndsLevel(bound: set<EventName>, speeds: seq<Reading>, rotAlt: Reading, alts: seq<Reading>)
    requires TakeoffRun(bound, speeds, rotAlt, alts).phase.Level?
    ensures var out := TakeoffRun(bound, speeds, rotAlt, alts).out;
            |LevelOut(bound)| <= |out| && out[|out| - |LevelOut(bound)|..] == LevelOut(bound)
            && out[|out| - 1] == Report(LevelFlight)
  {
    var target := rotAlt.v + ClimbFt;
    LevelWaitOut(bound, target, alts);
  }
}
