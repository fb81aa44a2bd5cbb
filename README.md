# Flight guidance engine, modelled in Dafny

This project models the guidance and decision logic of a flight-automation
engine that drives a flight simulator. The engine has three parts:

- `FlightController` flies the aircraft to a point, through a list of
  waypoints, along a stepped "teleport" path, or along an external stream of
  position frames.
- `AutopilotController` runs the automatic takeoff sequence.
- The control panel (`MainWindow`) parses the operator's entries, builds the
  waypoint list and turns a JSON file into a position stream.

The simulator is seen from the outside:

- Reads come from a trace. A reading is a value, missing (`None`), or a
  read that raises.
- Everything the engine does is appended to a log on a `Vehicle`. An entry
  is an event (a name and an optional integer argument), a variable write,
  or a status report.
- An event whose name the simulator cannot resolve is skipped. The vehicle's
  `bound` set says which names resolve.

Status reports are compared by kind, not by their text.

Each loop of the source is a method with a `while` loop. It is proved to
append exactly what a function over the read trace gives:

| Source loop | Function |
|---|---|
| navigation | `NavRun` |
| scenario | `ScenarioRun` / `TourFrom` |
| stream following | `StreamRun` |
| teleport | `TeleportOut` |
| takeoff | `TakeoffRun` |

The guidance properties are lemmas about those functions. They cover:

- the bounds and signs of the vertical-speed command;
- arrival and stop handling;
- waypoint order;
- what is never written;
- where a teleport ends;
- the order of the takeoff stages.

The stop flag of the navigation tasks is a field of the controller class.
A `Cancelled` tick in the trace is a pass of a loop whose stop check sees
the flag set. For the teleport and stream loops, `stopAt` counts the passes
made before the check sees the flag.

Modules:

- `SimTypes`: the vehicle, the log and the readings.
- `ControlLaw`: the control law.
- `Geodesy`: the bearing normalisation.
- `Guidance`: the autopilot setup and the navigation cycle and loop.
- `Scenario`: the waypoint sequencer.
- `Teleport`: the stepped teleport.
- `Stream`: the per-frame writes.
- `FlightControl`: the controller class.
- `Takeoff`: the takeoff sequence.
- `Panel`: the control panel.

Where the code uses one constant in two places, the model follows the code:

| Constant | Value |
|---|---|
| vertical-speed dead-band, both modes | 25 ft |
| arrival radius | 0.3 NM |
| takeoff climb | 350 ft above the altitude read after rotation |
| level-off band | 50 ft |

## Model

| member | source | states |
|---|---|---|
| ControlLaw.VsCommand | core/flight_controller.py:246-248 | the command is 0 exactly within the 25 ft dead-band, has the sign of the altitude error outside it, equals error × 1.5 while that is within ±500, and is ±500 beyond |
| ControlLaw.SentVs | core/flight_controller.py:251 | the sent `int(vs_cmd)` lies in [-500, 500], is 0 exactly within the dead-band, and otherwise has the sign of the altitude error |
| ControlLaw.InitialVs | core/flight_controller.py:211 | the initial vertical speed is +800 or -800, positive exactly when the target is above |
| Geodesy.PyMod | core/flight_controller.py:11 | Python's float `%` with a positive modulus lies in [0, m) |
| Geodesy.Bearing | core/flight_controller.py:6-11 | the bearing lies in [0, 360) |
| Geodesy.NormaliseAngle | core/flight_controller.py:11 | for an angle in [-180, 180], `(d + 360) % 360` is d + 360 for negative d and d otherwise |
| Geodesy.BearingIsCompassAngle | core/flight_controller.py:6-11 | the bearing is the atan2 angle moved into [0, 360) |
| Geodesy.HeadingBug | core/flight_controller.py:243 | `int(brg)` of a bearing is a whole degree in [0, 360), the floor of the bearing |
| SimTypes.Trunc | core/flight_controller.py:251 | `int(x)` truncates toward zero |
| SimTypes.Vehicle.Ev | core/flight_controller.py:34-37 | firing an event appends it to the log only when its name resolves |
| SimTypes.Vehicle.Set | core/flight_controller.py:218 | a variable write appends exactly that write |
| SimTypes.Vehicle.Say | core/flight_controller.py:30-32 | a status report appends exactly that report |
| Guidance.SpeedOf | core/flight_controller.py:275 | a waypoint without a speed flies at 90 |
| Guidance.PrepareOut | core/flight_controller.py:196-221 | the setup stops after ALT-HOLD off exactly when a read raises |
| Guidance.SetupCommands | core/flight_controller.py:210-215 | the setup sends exactly one vertical-speed command and one speed command, the given ones (each when its event resolves), and no status |
| Guidance.SetupReportsNothing | core/flight_controller.py:196-221 | the setup reports no status |
| Guidance.PrepareReadsMissingAsZero | core/flight_controller.py:199-201 | a missing position or altitude gives the same setup as a reading of 0.0 |
| Guidance.PrepareSendsInitialVs | core/flight_controller.py:211-212 | the only vertical-speed command of the setup is +800 when the target is above the altitude read, else -800 |
| Guidance.NavCycle | core/flight_controller.py:227-259 | a cycle ends the loop exactly when a read raises or the position is complete and within 0.3 NM; a cycle with a missing reading sends nothing and goes on |
| Guidance.AltHoldOnlyNearTarget | core/flight_controller.py:257-258 | ALT-HOLD on is sent in a cycle exactly when the position is complete, not yet arrived, the altitude error is under 100 ft and the distance under 3 NM |
| Guidance.NavLoopRun | core/flight_controller.py:226-259 | the loop ends by arrival, stop, exception, or is still polling when the trace runs out |
| Guidance.NavLoopSplit | core/flight_controller.py:226-259 | running the loop over two trace pieces is running the first and, if it is still polling, the second after it |
| Guidance.CancelEndsNavigation | core/flight_controller.py:223-261 | a stop seen after a polling prefix ends navigation with that prefix's output and exactly one VS 0 |
| Guidance.ArrivalEndsNavigation | core/flight_controller.py:238-240 | a complete reading within 0.3 NM after a polling prefix ends navigation with the arrival report and one VS 0, and no heading or VS command for that cycle |
| Guidance.MissingReadingIsSkipped | core/flight_controller.py:231-233 | removing a cycle with a missing reading from the trace changes nothing |
| Guidance.NavVsBounded | core/flight_controller.py:246-251 | every vertical-speed command of a navigation run has an argument in [-500, 500] |
| Guidance.LoopVsBounded | core/flight_controller.py:226-259 | every vertical-speed command of the loop has an argument in [-500, 500] |
| Guidance.CycleVsBounded | core/flight_controller.py:242-251 | every vertical-speed command of one cycle has an argument in [-500, 500] |
| Guidance.SteerVsBounded | core/flight_controller.py:242-251 | a steering cycle sends exactly one vertical-speed command when the event resolves: `SentVs` of the altitude error |
| Scenario.ScenarioCycle | core/flight_controller.py:286-319 | a scenario cycle ends the leg exactly when a read raises or the position is within 0.3 NM; a missing reading sends nothing |
| Scenario.TourFrom | core/flight_controller.py:268-319 | the for loop never ends as arrived: reaching a waypoint only moves on to the next one |
| Scenario.PrepareHasNoMilestones | core/flight_controller.py:281 | the setup reports no waypoint start or arrival |
| Scenario.CycleMilestones | core/flight_controller.py:298-303 | a cycle reports waypoint idx reached exactly when it arrives, and no other start or arrival |
| Scenario.TourMilestones | core/flight_controller.py:268-303 | the start and arrival reports of the tour follow the itinerary "start 1, reached 1, start 2, …" from the current waypoint |
| Scenario.StartMilestones | core/flight_controller.py:272-284 | starting a waypoint keeps the reports on the itinerary |
| Scenario.LegMilestones | core/flight_controller.py:286-303 | a leg's cycles keep the reports on the itinerary, and arrival moves to the next waypoint |
| Scenario.ScenarioInOrder | core/flight_controller.py:265-322 | waypoints are started and reached in list order, each only after the previous arrival; a completed tour reports all of them; completion or stop is followed by the completion report and one VS 0 |
| Stream.StreamLoop | core/flight_controller.py:54-83 | the for loop ends completed, stopped or broken |
| Stream.PutWrites | core/flight_controller.py:67-69 | a position field is written exactly when the frame has it |
| Stream.FrameWritesLatitude | core/flight_controller.py:67 | the latitude writes of a frame are exactly its latitude, when it has one |
| Stream.StreamFollowsEveryFrame | core/flight_controller.py:54-83 | an unstopped stream of frames with positions completes and writes every frame's latitude, in order |
| Stream.BrokenFrameEndsStream | core/flight_controller.py:80-87 | the first frame without latitude or longitude still has its writes sent, then ends the stream in failure |
| Stream.StreamNeverSetsFlapsOrTrim | core/flight_controller.py:45-87 | following a stream never writes flaps or elevator trim |
| Teleport.StepCount | core/flight_controller.py:114 | `max(1, int(total // step))` is at least 1; it is 1 exactly when the distance is under two step lengths, and otherwise the number of whole steps that fit |
| Teleport.PlanFor | core/flight_controller.py:109-128 | the steps split the altitude difference evenly; the automatic heading is a whole degree in [0, 360) |
| Teleport.AccumIsLinear | core/flight_controller.py:139-141 | after k increments the position is the start plus k times the increment |
| Teleport.TeleportNeedsPosition | core/flight_controller.py:105-107 | without a full position, or with a zero step, teleport sends one report and nothing else: no data when a reading is missing, failure when a read raised or the step is zero |
| Teleport.SnapWrites | core/flight_controller.py:152-154 | the final writes set latitude, longitude and altitude to the target |
| Teleport.TeleportShape | core/flight_controller.py:125-163 | teleport sends its prelude, the steps made before the stop check fires, the snap to the target and the cruise setup |
| Teleport.TeleportSnapsToTarget | core/flight_controller.py:151-154 | whenever the stop flag breaks the loop, the last writes of latitude, longitude and altitude are the target's |
| Teleport.StepAltitudes | core/flight_controller.py:135-147 | the n steps write n altitudes, the start plus j+1 increments at step j |
| Teleport.AccumBetween | core/flight_controller.py:139-141 | every intermediate altitude lies between the start and the end of the path |
| Teleport.TeleportAltitudeWrites | core/flight_controller.py:143-154 | the altitudes written are the steps' and then the target's |
| Teleport.StepPath | core/flight_controller.py:135-147 | every step altitude lies between the start and the target, and a full run of steps ends on the target |
| Teleport.PlanReachesTarget | core/flight_controller.py:113-123 | all the steps together reach the target altitude |
| Teleport.TeleportAltitudePath | core/flight_controller.py:133-154 | teleport writes one altitude per step made plus the target; all lie between start and target; a full run already reaches the target |
| Teleport.CruiseWritesNothing | core/flight_controller.py:157-163 | the cruise setup writes no variable |
| Teleport.PreludeWritesNothing | core/flight_controller.py:125-130 | the prelude writes no variable |
| Takeoff.LevelWait | core/autopilot_controller.py:53-59 | the level-off loop ends level at the target, failed, or still climbing toward the target |
| Takeoff.LevelWaitOut | core/autopilot_controller.py:53-59 | the level-off loop sends nothing while polling, then the level-off commands or the one failure report |
| Takeoff.AutopilotController.SetStatus | core/autopilot_controller.py:18-20 | a status appends exactly that report |
| Takeoff.AutopilotController.Configure | core/autopilot_controller.py:26-33 | the configuration: brakes event, throttle lever 100, flaps 25, trim 100, start report |
| Takeoff.AutopilotController.Climb | core/autopilot_controller.py:43-50 | the climb: master, altitude target, VS 1000, climb report |
| Takeoff.AutopilotController.LevelOff | core/autopilot_controller.py:56-71 | the level-off: VS 0, ALT-HOLD off, throttle 6554, level report |
| Takeoff.AutopilotController.AwaitRotation | core/autopilot_controller.py:36-37 | the rotation loop ends as the trace function says |
| Takeoff.AutopilotController.AwaitLevel | core/autopilot_controller.py:53-59 | the level-off loop ends in the phase the trace function says |
| Takeoff.AutopilotController.ClimbAndLevel | core/autopilot_controller.py:43-71 | climb then level-off send the climb and the loop's output |
| Takeoff.AutopilotController.TakeoffSequence | core/autopilot_controller.py:23-73 | the sequence ends in the phase and sends exactly the output of `TakeoffRun` |
| Takeoff.StatusSequence | core/autopilot_controller.py:23-73 | the statuses are start, climbing to `int(target)`, level flight, in order, as far as the run got; a failure adds exactly one failure report, last |
| Takeoff.RotatesAtFirstFastReading | core/autopilot_controller.py:36-37 | rotation happens exactly when some airspeed read reaches 70 kt and no earlier read raised |
| Takeoff.NoClimbBeforeRotation | core/autopilot_controller.py:36-48 | before rotation no master, altitude or vertical-speed event is sent |
| Takeoff.LevelsOffAtFirstCloseReading | core/autopilot_controller.py:53-58 | levelling off happens exactly when some altitude read is non-zero and within 50 ft and no earlier read raised |
| Takeoff.ConfigureArgs | core/autopilot_controller.py:26-33 | the configuration fires no event but the brakes |
| Takeoff.ConfigureWrites | core/autopilot_controller.py:30-32 | the configuration writes throttle lever 100, flaps 25, trim 100, once each |
| Takeoff.ConfigureFacts | core/autopilot_controller.py:26-33 | the configuration sends no altitude or VS command and writes flaps 25, trim 100, throttle 100 |
| Takeoff.ClimbArgs | core/autopilot_controller.py:43-48 | the climb sends VS 1000 and altitude `int(target)`, when bound |
| Takeoff.LevelArgs | core/autopilot_controller.py:56-69 | level-off sends VS 0 and no altitude target |
| Takeoff.RotatedRun | core/autopilot_controller.py:36-50 | after rotation with a readable altitude the run is configuration, climb to altitude + 350, then the level-off loop |
| Takeoff.ShortRun | core/autopilot_controller.py:36-73 | without rotation and a readable altitude the run is the configuration, plus one failure report if a read raised |
| Takeoff.ShortArgs | core/autopilot_controller.py:36-41 | such a run fires no event but the brakes |
| Takeoff.TakeoffVsCommands | core/autopilot_controller.py:47-57 | the VS commands are 1000 at rotation and 0 at level-off, in that order, and no others |
| Takeoff.RotatedVs | core/autopilot_controller.py:47-57 | after rotation VS 1000 is sent, and VS 0 exactly when levelled off |
| Takeoff.ClimbTargetIsRotationAltitudePlus350 | core/autopilot_controller.py:40-46 | the only altitude target sent is `int(altitude + 350)`, and the phase's target is altitude + 350 |
| Takeoff.AfterConfiguration | core/autopilot_controller.py:30-71 | after the configuration only events and reports go out |
| Takeoff.ConfigurationComesFirst | core/autopilot_controller.py:26-33 | the configuration is the prefix of every run and the only write to flaps, trim and throttle lever |
| Takeoff.TakeoffEndsLevel | core/autopilot_controller.py:56-71 | a levelled-off takeoff ends with VS 0, ALT-HOLD off, cruise throttle and the level report, last |
| FlightControl.FlightController.constructor | core/flight_controller.py:23-28 | no task runs and the stop flag is clear |
| FlightControl.FlightController.StopNav | core/flight_controller.py:39-42 | with a live task the flag is set and the task's ending is sent; with none nothing changes |
| FlightControl.FlightController.PrepareAutopilot | core/flight_controller.py:196-221 | the setup sends exactly `PrepareOut`, and reports whether it got through |
| FlightControl.FlightController.SendSteer | core/flight_controller.py:205-210 | sends master, heading bug, heading hold off and on, altitude target |
| FlightControl.FlightController.SendPower | core/flight_controller.py:218-221 | writes flaps 0 and trim 0, then throttle 8192 and autothrottle arm |
| FlightControl.FlightController.FlyTo | core/flight_controller.py:170-180 | ALT-HOLD off, the old task stopped, the flag cleared, the setup sent; navigation starts unless a read raised |
| FlightControl.FlightController.FlyScenario | core/flight_controller.py:183-194 | the old task is stopped and the flag cleared first; an empty list is reported and starts nothing |
| FlightControl.FlightController.NavStep | core/flight_controller.py:227-259 | one pass sends exactly `NavCycle` and exits as it says |
| FlightControl.FlightController.NavLoop | core/flight_controller.py:223-263 | navigation sends exactly `NavRun`; on ending the task is idle and the flag is set only if it was the flag that ended it |
| FlightControl.FlightController.NavTicks | core/flight_controller.py:226-259 | the while loop sends exactly `NavLoopRun` |
| FlightControl.FlightController.ScenarioStep | core/flight_controller.py:286-319 | one pass sends exactly `ScenarioCycle` and exits as it says |
| FlightControl.FlightController.FlyLeg | core/flight_controller.py:286-319 | the arrival loop of one waypoint follows `TourFrom` up to arrival or the end of the tour |
| FlightControl.FlightController.ScenarioLoop | core/flight_controller.py:265-324 | the scenario sends exactly `ScenarioRun`; on ending the task is idle and the flag is set only if it ended the tour |
| FlightControl.FlightController.Tour | core/flight_controller.py:268-319 | the for loop sends exactly `TourFrom` from the first waypoint |
| FlightControl.FlightController.FlyWaypoint | core/flight_controller.py:268-319 | one pass of the for loop follows `TourFrom` up to the next waypoint or the end of the tour |
| FlightControl.FlightController.StartWaypoint | core/flight_controller.py:272-284 | starting a waypoint follows `TourFrom`: its report and setup, or the failure report |
| FlightControl.FlightController.MoveStep | core/flight_controller.py:139-148 | one step writes the position and commands its altitude |
| FlightControl.FlightController.Walk | core/flight_controller.py:135-149 | the step loop makes min(steps, stopAt) steps and sends exactly their writes, altitude commands and reports |
| FlightControl.FlightController.HandOver | core/flight_controller.py:157-163 | the cruise setup after the snap |
| FlightControl.FlightController.Glide | core/flight_controller.py:133-163 | prelude, steps, snap to target, cruise setup |
| FlightControl.FlightController.Teleport | core/flight_controller.py:91-168 | teleport sends exactly `TeleportOut`, with no step made when the flag is already set |
| FlightControl.FlightController.FeedFrame | core/flight_controller.py:58-83 | one frame sends exactly `FrameOut` and breaks exactly when it lacks latitude or longitude |
| FlightControl.FlightController.PutField | core/flight_controller.py:67-69 | a field is written exactly when the frame has it |
| FlightControl.FlightController.PutHeading | core/flight_controller.py:71-76 | a heading sets the heading bug and the true heading |
| FlightControl.FlightController.FollowStream | core/flight_controller.py:45-89 | following sends exactly `StreamRun` after stopping the old task; the flag is set only if it ended the stream |
| FlightControl.FlightController.FeedFrames | core/flight_controller.py:54-83 | the for loop sends exactly `StreamLoop` |
| Panel.Split | ui/main_window.py:136 | `split(",")` gives at least one piece |
| Panel.JoinSplit | ui/main_window.py:136 | joining the pieces with the separator gives the text back |
| Panel.SplitPieces | ui/main_window.py:136 | no piece holds the separator, and there is one piece more than separators |
| Panel.SplitJoin | ui/main_window.py:136 | splitting joined separator-free pieces gives them back |
| Panel.SplitPlain | ui/main_window.py:136 | text without the separator is one piece |
| Panel.SplitAfterFirst | ui/main_window.py:136 | the first separator ends the first piece |
| Panel.ParseCoords | ui/main_window.py:136 | the coordinates parse exactly when the entry is two comma-separated numbers; such an entry has exactly one comma |
| Panel.ParseCoordsOfPair | ui/main_window.py:136 | "a,b" with numbers a and b gives (a, b) |
| Panel.NavEntry | ui/main_window.py:126-128 | the entries parse exactly when coordinates, altitude and speed all do, and give those values |
| Panel.WaypointEntry | ui/main_window.py:136-140 | the waypoint record holds the parsed coordinates, altitude and speed |
| Panel.OneFramePerWaypoint | ui/main_window.py:169-178 | exactly one frame per waypoint, in file order |
| Panel.ZeroPrimaryFallsBack | ui/main_window.py:172-174 | a primary key that is absent, null or 0 falls back to the fallback key, whatever that gives |
| Panel.FrameFields | ui/main_window.py:172-177 | heading, flaps and trim are 0 when their key is absent and None when it holds null; latitude and longitude come from a non-zero primary number or else the fallback key |
| Panel.NullHeadingSendsNoHeading | ui/main_window.py:175 | a waypoint whose heading is null sends no heading-bug event and no true-heading write |
| Panel.FileIsFollowedToTheEnd | ui/main_window.py:169-182 | a file whose waypoints all have a position is followed to the end, every latitude written in order |
| Panel.MainWindow.constructor | ui/main_window.py:8-16 | an empty scenario, no data stream, buttons disabled |
| Panel.MainWindow.SetDataStream | ui/main_window.py:98-101 | the stream is set and reported ready; nothing else changes |
| Panel.MainWindow.FollowData | ui/main_window.py:103-108 | with no stream only the error is shown; otherwise following starts on that stream |
| Panel.MainWindow.AddWp | ui/main_window.py:134-146 | a parsed entry appends exactly one record at the end, keeps the earlier ones and enables running; otherwise the list is unchanged and the error is shown |
| Panel.MainWindow.RunScenario | ui/main_window.py:148-152 | an empty scenario is refused with a report; otherwise the scenario starts |
| Panel.MainWindow.LoadJsonScenario | ui/main_window.py:154-186 | a cancelled dialog changes nothing; a list becomes the stream of its frames, enables following and reports the count; a root that is not a list or unreadable JSON shows the error and keeps the stream |
| Panel.MainWindow.FlyTo | ui/main_window.py:124-131 | a parse error shows the NAV error and sends nothing; otherwise the controller\'s fly-to runs and the stop flag is left clear, and a raising read shows the NAV error and leaves no task |
| Panel.MainWindow.Teleport | ui/main_window.py:114-122 | any entry that does not parse, heading included, shows the input error and sends nothing; otherwise teleport runs with the 5 m step and the entered heading |

## Left out

- Threads, `threading.Timer`, `join` and `time.sleep` are not modelled; each task runs as one sequential loop over its trace.
  - The 0.5 s re-apply of `_prepare_autopilot` by a timer is left out, in both `fly_to` and `_scenario_loop`.
  - Interleavings of a task with the panel are left out.
- `stop_nav` is modelled as the running task ending at once: the flag is set and the task's final output is sent.
  - The thread started by `follow_stream` is never recorded as the running task, so `stop_nav` does not wait for it. The model keeps the controller idle during a stream.
- The stop flag set by another thread is modelled by a `Cancelled` tick, or by `stopAt` for the teleport and stream loops.
  - FlightControl.FlightController.FollowStream: sets the flag after the loop when it was the flag that ended the loop, rather than at the moment it is seen.
- Trigonometry is not modelled. The great-circle distance, the atan2 angle, `radians` and the metre-to-degree conversions are fields of the `Geo` record, left uninterpreted. Only the `(d + 360) % 360` normalisation is modelled over reals.
- Reals replace floating point: no rounding is modelled.
- The teleport step interval, the 10 Hz stream cadence and the sleeps in the polling loops are left out.
- The takeoff's polling loops have no timeout in the source. They are modelled over finite traces: a trace that runs out leaves the sequence rolling or climbing.
- Status texts and their number formatting are left out. Reports are compared by kind.
  - The one formatting failure that matters is kept: a stream frame without latitude or longitude breaks the progress report.
- Variable writes (`aq.set`) are modelled as never raising.
  - Only reads can raise, and they raise as `Fault` readings.
- The controllers are modelled as connected: `aq`, `ae` and the status callback are set, as `test_connection` leaves them.
  - Without a connection `aq` and `ae` are None. Then `_scenario_loop`, `_nav_loop` and `takeoff_sequence` raise on their first `aq.get` or `ae.find`. An empty `bound` set does not stand for that case.
- SimTypes.Vehicle.Say: always appends its report. `_status` sends nothing while `status_callback` is None, as it is before `test_connection` runs.
- Takeoff.AutopilotController.SetStatus: always appends its report. `set_status` sends nothing while `status_callback` is None.
- `follow_stream` reads pitch, roll and yaw, and its `print` calls, are left out: they send nothing to the simulator.
- The panel's `float()` is the abstract parameter `parse`.
- The panel's Tk widgets, list box and file dialog are left out.
  - The dialog and `json.load` appear as a `JsonDoc` value.
  - JSON waypoints are maps from keys to a number or null. Non-numeric values (strings, booleans, lists, objects) and list items that are not objects are not modelled.
- The data stream is a sequence of frames. A Python generator can be consumed only once, which the model does not capture.
- Panel.MainWindow.FollowData: only a missing stream is refused. A falsy stream object is not modelled, since a generator is always truthy.
- The panel's `self.scenario` list is passed to the scenario thread by reference. Later appends are not seen by a running tour in the model.
- Not part of this model:
  - `test_connection`;
  - `start_takeoff` (a thread launch);
  - the PFD windows;
  - the scenario-writing script;
  - the SimConnect wrapper;
  - the program entry point.
