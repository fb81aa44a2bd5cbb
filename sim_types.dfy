/** The Vehicle Interface as the guidance engine sees it: named variables it
    reads (answered from a trace of readings), named variables it writes,
    named events it fires when the simulator binds them, and status reports.
    Everything the engine sends out is recorded, in order, in `Vehicle.log`. */
module SimTypes {

  datatype Option<+T> = None | Some(value: T) {
    function GetOr(default: T): T {
      match this
      case Some(v) => v
      case None => default
    }
  }

  /** What one `aq.get(name)` answers: no value (None), a number, or an
      exception raised inside the simulator library. */
  datatype Reading = Missing | Value(v: real) | Fault

  /** The simulator events the engine looks up with `ae.find(name)`. */
  datatype EventName =
    | ParkingBrakes          // PARKING_BRAKES
    | ApMaster               // AP_MASTER
    | ApMasterOff            // AP_MASTER_OFF
    | ApAltHoldOn            // AP_ALT_HOLD_ON
    | ApAltHoldOff           // AP_ALT_HOLD_OFF
    | ApAltVarSetEnglish     // AP_ALT_VAR_SET_ENGLISH
    | ApVsSetEnglish         // AP_VS_SET_ENGLISH
    | HeadingBugSet          // HEADING_BUG_SET
    | ApHdgHoldOn            // AP_HDG_HOLD_ON
    | ApHdgHoldOff           // AP_HDG_HOLD_OFF
    | ApSpdVarSet            // AP_SPD_VAR_SET
    | ApAutothrottleArm      // AP_AUTOTHROTTLE_ARM
    | ThrottleAxisSetEx1     // THROTTLE_AXIS_SET_EX1

  /** The simulator variables the engine writes with `aq.set(name, value)`. */
  datatype VarName =
    | PlaneLatitude          // PLANE_LATITUDE
    | PlaneLongitude         // PLANE_LONGITUDE
    | PlaneAltitude          // PLANE_ALTITUDE
    | PlaneHeadingTrue       // PLANE_HEADING_DEGREES_TRUE
    | FlapsHandlePercent     // FLAPS_HANDLE_PERCENT
    | ElevatorTrimPosition   // ELEVATOR_TRIM_POSITION
    | ThrottleLever1         // GENERAL_ENG_THROTTLE_LEVER_POSITION:1

  /** Status reports, by kind (the human-readable text is not modelled). */
  datatype Status =
    // navigation to one target
    | NavStarted | NavProgress | TargetReached | NavFailed
    // scenario sequencer; waypoint numbers start at 1
    | ScenarioStarted | WaypointStarted(idx: nat) | ScenarioProgress(idx: nat)
    | WaypointReached(idx: nat) | ScenarioDone | ScenarioEmpty | ScenarioFailed
    // stepped teleport
    | TeleportNoData | TeleportPlanned(steps: nat) | TeleportStep(k: nat)
    | TeleportDone | TeleportFailed
    // following an external data stream
    | StreamStarted | StreamFrame | StreamDone | StreamFailed
    // takeoff sequencer
    | TakeoffStarted | ClimbingTo(alt: int) | LevelFlight | TakeoffFailed

  datatype Output =
    | Event(name: EventName, arg: Option<int>)
    | SetVar(variable: VarName, value: real)
    | Report(status: Status)

  /** What firing `name` through `find` sends: nothing when the simulator does
      not bind the event. */
  function Emit(bound: set<EventName>, name: EventName, arg: Option<int>): seq<Output> {
    if name in bound then [Event(name, arg)] else []
  }

  /** Python's `int(x)` on a float: truncation toward zero. */
  function Trunc(x: real): (n: int)
    ensures 0.0 <= x ==> 0 <= n && n as real <= x < n as real + 1.0
    ensures x < 0.0 ==> n <= 0 && n as real - 1.0 < x <= n as real
  {
    if x >= 0.0 then x.Floor else -((-x).Floor)
  }

  function Abs(x: real): real {
    if x < 0.0 then -x else x
  }

  /** The events among `out`, in order. */
  function Events(out: seq<Output>): seq<Output> {
    if out == [] then []
    else (if out[0].Event? then [out[0]] else []) + Events(out[1..])
  }

  /** The arguments of the events named `n` among `out`, in order. */
  function ArgsOf(out: seq<Output>, n: EventName): seq<Option<int>> {
    if out == [] then []
    else (if out[0].Event? && out[0].name == n then [out[0].arg] else []) + ArgsOf(out[1..], n)
  }

  lemma {:induction false} ArgsOfAppend(a: seq<Output>, b: seq<Output>, n: EventName)
    ensures ArgsOf(a + b, n) == ArgsOf(a, n) + ArgsOf(b, n)
  {
    if a != [] {
      assert (a + b)[1..] == a[1..] + b;
      ArgsOfAppend(a[1..], b, n);
    } else {
      assert a + b == b;
    }
  }

  /** The value of the last write to `v` in `out`, if any. */
  function LastSet(out: seq<Output>, v: VarName): Option<real> {
    if out == [] then None
    else if out[|out| - 1].SetVar? && out[|out| - 1].variable == v then Some(out[|out| - 1].value)
    else LastSet(out[..|out| - 1], v)
  }

  lemma {:induction false} LastSetAppend(a: seq<Output>, b: seq<Output>, v: VarName)
    ensures LastSet(a + b, v) == if LastSet(b, v).Some? then LastSet(b, v) else LastSet(a, v)
    decreases |b|
  {
    if b != [] {
      assert (a + b)[..|a + b| - 1] == a + b[..|b| - 1];
      LastSetAppend(a, b[..|b| - 1], v);
    } else {
      assert a + b == a;
    }
  }

  /** The values written to `v` among `out`, in order. */
  function Writes(out: seq<Output>, v: VarName): seq<real> {
    if out == [] then []
    else (if out[0].SetVar? && out[0].variable == v then [out[0].value] else []) + Writes(out[1..], v)
  }

  lemma {:induction false} WritesAppend(a: seq<Output>, b: seq<Output>, v: VarName)
    ensures Writes(a + b, v) == Writes(a, v) + Writes(b, v)
  {
    if a != [] {
      assert (a + b)[1..] == a[1..] + b;
      WritesAppend(a[1..], b, v);
    } else {
      assert a + b == b;
    }
  }

  lemma WritesOne(o: Output, v: VarName)
    ensures Writes([o], v) == if o.SetVar? && o.variable == v then [o.value] else []
  {
    assert [o][1..] == [];
  }

  lemma LastSetSnoc(rest: seq<Output>, o: Output, v: VarName)
    ensures LastSet(rest + [o], v) == if o.SetVar? && o.variable == v then Some(o.value) else LastSet(rest, v)
  {
    assert (rest + [o])[..|rest + [o]| - 1] == rest;
  }

  lemma {:induction false} EventsAppend(a: seq<Output>, b: seq<Output>)
    ensures Events(a + b) == Events(a) + Events(b)
  {
    if a != [] {
      assert (a + b)[1..] == a[1..] + b;
      EventsAppend(a[1..], b);
    } else {
      assert a + b == b;
    }
  }

  /** `out` writes nothing to `v`. */
  predicate Untouched(out: seq<Output>, v: VarName) {
    forall o <- out :: !(o.SetVar? && o.variable == v)
  }

  lemma {:induction false} UntouchedNoWrites(out: seq<Output>, v: VarName)
    requires Untouched(out, v)
    ensures Writes(out, v) == [] && LastSet(out, v) == None
    decreases |out|
  {
    if out != [] {
      UntouchedNoWrites(out[1..], v);
      UntouchedNoWrites(out[..|out| - 1], v);
    }
  }

  lemma UntouchedAppend(a: seq<Output>, b: seq<Output>, v: VarName)
    ensures Untouched(a + b, v) <==> Untouched(a, v) && Untouched(b, v)
  {
    if !Untouched(a + b, v) {
      var o :| o in a + b && o.SetVar? && o.variable == v;
    }
    if !Untouched(a, v) {
      var o :| o in a && o.SetVar? && o.variable == v;
      assert o in a + b;
    }
    if !Untouched(b, v) {
      var o :| o in b && o.SetVar? && o.variable == v;
      assert o in a + b;
    }
  }

  /** `out` fires no event named `n`. */
  lemma {:induction false} NoArgsOf(out: seq<Output>, n: EventName)
    requires forall o <- out :: !(o.Event? && o.name == n)
    ensures ArgsOf(out, n) == []
  {
    if out != [] {
      NoArgsOf(out[1..], n);
    }
  }

  lemma ArgsOfEmit(bound: set<EventName>, name: EventName, arg: Option<int>, n: EventName)
    ensures ArgsOf(Emit(bound, name, arg), n) == if name in bound && name == n then [arg] else []
  {
    if name in bound {
      assert Emit(bound, name, arg)[1..] == [];
    }
  }

  lemma AppendAssoc(a: seq<Output>, b: seq<Output>, c: seq<Output>)
    ensures (a + b) + c == a + (b + c)
  {}

  /** The simulator connection: the events it binds and the log of
      everything the engine has sent to it. */
  class Vehicle {
    const bound: set<EventName>
    var log: seq<Output>

    constructor (bound: set<EventName>)
      ensures this.bound == bound && log == []
    {
      this.bound := bound;
      log := [];
    }

    /** `_ev(name, *args)`: fire the event when `find` resolves it, else do nothing. */
    method Ev(name: EventName, arg: Option<int>)
      modifies this
      ensures log == old(log) + Emit(bound, name, arg)
    {
      if name in bound {
        log := log + [Event(name, arg)];
      }
    }

    /** `aq.set(name, value)` */
    method Set(v: VarName, x: real)
      modifies this
      ensures log == old(log) + [SetVar(v, x)]
    {
      log := log + [SetVar(v, x)];
    }

    /** the status callback */
    method Say(s: Status)
      modifies this
      ensures log == old(log) + [Report(s)]
    {
      log := log + [Report(s)];
    }
  }
}
