/** The control panel (`MainWindow`, ui/main_window.py) as far as it feeds
    the flight engine: the coordinate and number entries it parses, the
    scenario list it builds, the data stream it derives from a JSON
    waypoint file, and the guards in front of the controller calls. Text to
    number conversion (`float()`) is the parameter `parse`. */
module Panel {
  import opened SimTypes
  import opened Guidance
  import opened Stream
  import opened Teleport
  import opened FlightControl

  // ---------------------------------------------------------------------
  // Entry text

  /** `s.split(sep)`: the pieces between separators, at least one. */
  function Split(s: string, sep: char): (parts: seq<string>)
    ensures |parts| >= 1
  {
    if s == [] then [[]]
    else
      var rest := Split(s[1..], sep);
      if s[0] == sep then [[]] + rest
      else [[s[0]] + rest[0]] + rest[1..]
  }

  /** `sep.join(parts)` */
  function Join(parts: seq<string>, sep: char): string
    requires |parts| >= 1
  {
    if |parts| == 1 then parts[0] else parts[0] + [sep] + Join(parts[1..], sep)
  }

  /** Joining the pieces of a split gives back the text. */
  lemma {:induction false} JoinSplit(s: string, sep: char)
    ensures Join(Split(s, sep), sep) == s
  {
    if s != [] {
      var rest := Split(s[1..], sep);
      JoinSplit(s[1..], sep);
      if s[0] == sep {
        assert Split(s, sep)[1..] == rest;
      } else {
        var parts := Split(s, sep);
        if |rest| == 1 {
          assert parts == [[s[0]] + rest[0]];
        } else {
          assert parts[1..] == rest[1..];
          assert Join(rest, sep) == rest[0] + [sep] + Join(rest[1..], sep);
        }
      }
    }
  }

  /** No piece of a split holds the separator, and there is one more piece
      than there are separators. */
  lemma {:induction false} SplitPieces(s: string, sep: char)
    ensures var parts := Split(s, sep);
            (forall p <- parts :: sep !in p) && |parts| == multiset(s)[sep] + 1
  {
    if s != [] {
      SplitPieces(s[1..], sep);
      assert s == [s[0]] + s[1..];
      assert multiset(s) == multiset([s[0]]) + multiset(s[1..]);
    }
  }

  /** Splitting a text without separators gives it back whole. */
  lemma {:induction false} SplitPlain(a: string, sep: char)
    requires sep !in a
    ensures Split(a, sep) == [a]
  {
    if a != [] {
      SplitPlain(a[1..], sep);
      assert [a[0]] + a[1..] == a;
    }
  }

  /** Splitting `a + sep + b`, with no separator in `a`, gives `a` and then
      the pieces of `b`. */
  lemma {:induction false} SplitAfterFirst(a: string, sep: char, b: string)
    requires sep !in a
    ensures Split(a + [sep] + b, sep) == [a] + Split(b, sep)
  {
    if a == [] {
      assert a + [sep] + b == [sep] + b;
      assert ([sep] + b)[1..] == b;
    } else {
      assert (a + [sep] + b)[1..] == a[1..] + [sep] + b;
      SplitAfterFirst(a[1..], sep, b);
      assert [a[0]] + a[1..] == a;
    }
  }

  /** Splitting a join of pieces free of the separator gives the pieces. */
  lemma {:induction false} SplitJoin(parts: seq<string>, sep: char)
    requires |parts| >= 1 && forall p <- parts :: sep !in p
    ensures Split(Join(parts, sep), sep) == parts
  {
    if |parts| == 1 {
      SplitPlain(parts[0], sep);
    } else {
      assert parts[0] in parts;
      assert forall p <- parts[1..] :: p in parts;
      SplitJoin(parts[1..], sep);
      SplitAfterFirst(parts[0], sep, Join(parts[1..], sep));
    }
  }

  /** `lat, lon = map(float, s.split(","))`: exactly two pieces, each a
      number. */
  function ParseCoords(parse: string -> Option<real>, s: string): (r: Option<(real, real)>)
    ensures r.Some? <==> |Split(s, ',')| == 2
                         && parse(Split(s, ',')[0]).Some? && parse(Split(s, ',')[1]).Some?
    ensures r.Some? ==> multiset(s)[','] == 1
  {
    SplitPieces(s, ',');
    var parts := Split(s, ',');
    if |parts| == 2 && parse(parts[0]).Some? && parse(parts[1]).Some?
    then Some((parse(parts[0]).value, parse(parts[1]).value))
    else None
  }

  /** Two numbers written with one comma between them are read back. */
  lemma ParseCoordsOfPair(parse: string -> Option<real>, a: string, b: string)
    requires ',' !in a && ',' !in b && parse(a).Some? && parse(b).Some?
    ensures ParseCoords(parse, a + [','] + b) == Some((parse(a).value, parse(b).value))
  {
    SplitAfterFirst(a, ',', b);
    SplitPlain(b, ',');
  }

  /** The target and speed of the NAV entries (`fly_to`). */
  function NavEntry(parse: string -> Option<real>, coord: string, altText: string, spdText: string)
    : (r: Option<(Target, real)>)
    ensures r.Some? <==> ParseCoords(parse, coord).Some? && parse(altText).Some? && parse(spdText).Some?
    ensures r.Some? ==> r.value.0 == Target(ParseCoords(parse, coord).value.0, ParseCoords(parse, coord).value.1,
                                            parse(altText).value)
                        && r.value.1 == parse(spdText).value
  {
    match (ParseCoords(parse, coord), parse(altText), parse(spdText))
    case (Some((lat, lon)), Some(alt), Some(spd)) => Some((Target(lat, lon, alt), spd))
    case _ => None
  }

  /** The scenario record of the entries (`add_wp`): the speed is always
      present. */
  function WaypointEntry(parse: string -> Option<real>, coord: string, altText: string, spdText: string)
    : (r: Option<Waypoint>)
    ensures r.Some? <==> NavEntry(parse, coord, altText, spdText).Some?
    ensures r.Some? ==> TargetOf(r.value) == NavEntry(parse, coord, altText, spdText).value.0
                        && r.value.spd == Some(NavEntry(parse, coord, altText, spdText).value.1)
  {
    match NavEntry(parse, coord, altText, spdText)
    case Some((t, spd)) => Some(Waypoint(t.lat, t.lon, t.alt, Some(spd)))
    case None => None
  }

  // ---------------------------------------------------------------------
  // JSON waypoints to stream frames

  /** A waypoint object of the file, by key: a number, or None for a JSON
      null. */
  type JsonWaypoint = map<string, Option<real>>

  /** `wp.get(key)`: None when the key is absent or holds null. */
  function Get(wp: JsonWaypoint, key: string): Option<real> {
    if key in wp then wp[key] else None
  }

  /** `wp.get(primary) or wp.get(fallback)`: the primary value when it is
      truthy (present, not null and non-zero), else whatever the fallback
      key gives. */
  function Pick(wp: JsonWaypoint, primary: string, fallback: string): Option<real> {
    var p := Get(wp, primary);
    if p.Some? && p.value != 0.0 then p else Get(wp, fallback)
  }

  /** `wp.get(key, 0)`: the default applies only to an absent key; a key
      holding null still gives None. */
  function GetOrZero(wp: JsonWaypoint, key: string): Option<real> {
    if key in wp then wp[key] else Some(0.0)
  }

  /** The frame `stream()` yields for one waypoint. */
  function FrameOf(wp: JsonWaypoint): Frame {
    Frame(Pick(wp, "latitude", "lat"), Pick(wp, "longitude", "lon"), Pick(wp, "altitude_m", "alt"),
          GetOrZero(wp, "heading_deg"), GetOrZero(wp, "flaps"), GetOrZero(wp, "elev_trim"))
  }

  /** The frames of `stream()`, one per waypoint. */
  function StreamFrames(wps: seq<JsonWaypoint>): seq<Frame> {
    if wps == [] then [] else [FrameOf(wps[0])] + StreamFrames(wps[1..])
  }

  /** The stream yields exactly one frame per waypoint, in file order. */
  lemma {:induction false} OneFramePerWaypoint(wps: seq<JsonWaypoint>)
    ensures |StreamFrames(wps)| == |wps|
    ensures forall i :: 0 <= i < |wps| ==> StreamFrames(wps)[i] == FrameOf(wps[i])
  {
    if wps != [] {
      OneFramePerWaypoint(wps[1..]);
      forall i | 0 <= i < |wps|
        ensures StreamFrames(wps)[i] == FrameOf(wps[i])
      {
        if i > 0 {
          assert StreamFrames(wps)[i] == StreamFrames(wps[1..])[i - 1];
        }
      }
    }
  }

  /** A primary key that is absent, null or 0 counts as absent: the
      fallback key decides, even when it gives nothing. */
  lemma ZeroPrimaryFallsBack(wp: JsonWaypoint, primary: string, fallback: string)
    requires primary !in wp || wp[primary] == None || wp[primary] == Some(0.0)
    ensures Pick(wp, primary, fallback) == if fallback in wp then wp[fallback] else None
  {}

  /** A frame from the file has a heading, flaps and trim unless the key
      holds null, zero when the waypoint leaves the key out, and has a
      position field exactly when one of its two keys gives a number, the
      first only when non-zero. */
  lemma FrameFields(wp: JsonWaypoint)
    ensures var f := FrameOf(wp);
            ("heading_deg" !in wp ==> f.heading == Some(0.0))
            && ("heading_deg" in wp ==> f.heading == wp["heading_deg"])
            && (f.flaps.None? <==> "flaps" in wp && wp["flaps"].None?)
            && (f.elevTrim.None? <==> "elev_trim" in wp && wp["elev_trim"].None?)
            && (f.lat.Some? <==> ("latitude" in wp && wp["latitude"].Some? && wp["latitude"].value != 0.0)
                                 || ("lat" in wp && wp["lat"].Some?))
            && (f.lon.Some? <==> ("longitude" in wp && wp["longitude"].Some? && wp["longitude"].value != 0.0)
                                 || ("lon" in wp && wp["lon"].Some?))
  {}

  /** A waypoint whose heading key holds null sends no heading at all: no
      heading-bug event and no write to the true heading. */
  lemma NullHeadingSendsNoHeading(env: Env, wp: JsonWaypoint)
    requires "heading_deg" in wp && wp["heading_deg"].None?
    ensures var out := FrameOut(env, FrameOf(wp));
            Writes(out, PlaneHeadingTrue) == [] && ArgsOf(out, HeadingBugSet) == []
  {
    var f := FrameOf(wp);
    var out := FrameOut(env, f);
    assert HeadingOut(env, f) == [];
    assert Untouched(out, PlaneHeadingTrue);
    UntouchedNoWrites(out, PlaneHeadingTrue);
    NoArgsOf(out, HeadingBugSet);
  }

  /** Predicate: `stream()` can report this waypoint's frame, i.e. it has a
      latitude and a longitude under one of their keys. */
  predicate Locatable(wp: JsonWaypoint) {
    (("latitude" in wp && wp["latitude"].Some? && wp["latitude"].value != 0.0) || ("lat" in wp && wp["lat"].Some?))
    && (("longitude" in wp && wp["longitude"].Some? && wp["longitude"].value != 0.0) || ("lon" in wp && wp["lon"].Some?))
  }

  /** A file whose waypoints are all locatable is followed to its end when
      not stopped, writing each waypoint's latitude in order; the first
      waypoint without a position ends the follow in failure. */
  lemma FileIsFollowedToTheEnd(env: Env, wps: seq<JsonWaypoint>, stopAt: nat)
    requires forall wp <- wps :: Locatable(wp)
    requires stopAt >= |wps|
    ensures var frames := StreamFrames(wps);
            var r := StreamLoop(env, frames, stopAt);
            r.end == Completed && Writes(r.out, PlaneLatitude) == Values(Lats(frames))
  {
    var frames := StreamFrames(wps);
    OneFramePerWaypoint(wps);
    forall f <- frames
      ensures !BreaksStatus(f)
    {
      var i :| 0 <= i < |frames| && frames[i] == f;
      assert wps[i] in wps;
      FrameFields(wps[i]);
    }
    StreamFollowsEveryFrame(env, frames, stopAt);
  }

  // ---------------------------------------------------------------------
  // The window

  /** What the panel shows in its status line, by kind. */
  datatype Note =
    | StreamReady | StreamMissing | InputError | NavError | EntryError
    | EmptyScenario | JsonLoaded(count: nat) | JsonError

  /** A job the panel starts on a thread of its own. */
  datatype Job = FollowJob(frames: seq<Frame>) | ScenarioJob(wps: seq<Waypoint>)

  datatype PanelOut = Shown(note: Note) | Started(job: Job)

  /** What the file dialog and `json.load` give: no file chosen, a file
      that cannot be read as JSON, a JSON root that is not a list, or a list
      of waypoint objects. */
  datatype JsonDoc = NoFile | Unreadable | NotAList | WaypointList(wps: seq<JsonWaypoint>)

  class MainWindow {
    const flight: FlightController
    var scenario: seq<Waypoint>
    var dataStream: Option<seq<Frame>>
    var runEnabled: bool
    var followEnabled: bool
    var log: seq<PanelOut>

    constructor (flight: FlightController)
      ensures this.flight == flight
      ensures scenario == [] && dataStream == None && !runEnabled && !followEnabled && log == []
    {
      this.flight := flight;
      scenario := [];
      dataStream := None;
      runEnabled := false;
      followEnabled := false;
      log := [];
    }

    /** `set_data_stream` */
    method SetDataStream(frames: seq<Frame>)
      modifies this
      ensures dataStream == Some(frames) && log == old(log) + [Shown(StreamReady)]
      ensures scenario == old(scenario) && runEnabled == old(runEnabled) && followEnabled == old(followEnabled)
    {
      dataStream := Some(frames);
      log := log + [Shown(StreamReady)];
    }

    /** `follow_data`: without a stream it only says so. */
    method FollowData()
      modifies this
      ensures dataStream.None? ==> log == old(log) + [Shown(StreamMissing)]
      ensures dataStream.Some? ==> log == old(log) + [Started(FollowJob(dataStream.value))]
      ensures scenario == old(scenario) && dataStream == old(dataStream)
      ensures runEnabled == old(runEnabled) && followEnabled == old(followEnabled)
    {
      if dataStream.None? {
        log := log + [Shown(StreamMissing)];
        return;
      }
      log := log + [Started(FollowJob(dataStream.value))];
    }

    /** `add_wp`: append the record of the entries and enable the run
        button; entries that do not parse leave the list as it was. */
    method AddWp(parse: string -> Option<real>, coord: string, altText: string, spdText: string)
      modifies this
      ensures var e := WaypointEntry(parse, coord, altText, spdText);
              if e.Some?
              then scenario == old(scenario) + [e.value] && runEnabled && log == old(log)
              else scenario == old(scenario) && runEnabled == old(runEnabled)
                   && log == old(log) + [Shown(EntryError)]
      ensures dataStream == old(dataStream) && followEnabled == old(followEnabled)
    {
      var e := WaypointEntry(parse, coord, altText, spdText);
      if e.None? {
        log := log + [Shown(EntryError)];
        return;
      }
      scenario := scenario + [e.value];
      runEnabled := true;
    }

    /** `run_scenario`: an empty list is refused. */
    method RunScenario()
      modifies this
      ensures scenario == [] ==> log == old(log) + [Shown(EmptyScenario)]
      ensures scenario != [] ==> log == old(log) + [Started(ScenarioJob(scenario))]
      ensures scenario == old(scenario) && dataStream == old(dataStream)
      ensures runEnabled == old(runEnabled) && followEnabled == old(followEnabled)
    {
      if scenario == [] {
        log := log + [Shown(EmptyScenario)];
        return;
      }
      log := log + [Started(ScenarioJob(scenario))];
    }

    /** `load_json_scenario`: a list of waypoints becomes the data stream and
        enables following; anything else leaves the stream as it was. */
    method LoadJsonScenario(doc: JsonDoc)
      modifies this
      ensures doc.NoFile? ==> log == old(log) && dataStream == old(dataStream) && followEnabled == old(followEnabled)
      ensures doc.Unreadable? || doc.NotAList? ==>
                log == old(log) + [Shown(JsonError)]
                && dataStream == old(dataStream) && followEnabled == old(followEnabled)
      ensures doc.WaypointList? ==>
                log == old(log) + [Shown(StreamReady), Shown(JsonLoaded(|doc.wps|))]
                && dataStream == Some(StreamFrames(doc.wps)) && followEnabled
      ensures scenario == old(scenario) && runEnabled == old(runEnabled)
    {
      match doc
      case NoFile =>
      case Unreadable =>
        log := log + [Shown(JsonError)];
      case NotAList =>
        log := log + [Shown(JsonError)];
      case WaypointList(wps) =>
        SetDataStream(StreamFrames(wps));
        followEnabled := true;
        log := log + [Shown(JsonLoaded(|wps|))];
    }

    /** `fly_to` of the panel: parse the entries and start navigating; a
        parse error, or the exception the controller lets through when a
        read raises, shows the NAV error. */
    method FlyTo(parse: string -> Option<real>, coord: string, altText: string, spdText: string, here: Sample)
      requires flight.Valid()
      modifies this, flight, flight.sim
      ensures var e := NavEntry(parse, coord, altText, spdText);
              if e.None?
              then log == old(log) + [Shown(NavError)] && flight.task == old(flight.task)
                   && flight.navStop == old(flight.navStop) && flight.sim.log == old(flight.sim.log)
              else flight.task == (if Faulty(here) then Idle else Navigating(e.value.0)) && !flight.navStop
                   && log == old(log) + (if Faulty(here) then [Shown(NavError)] else [])
                   && flight.sim.log == old(flight.sim.log) + Emit(flight.sim.bound, ApAltHoldOff, None)
                      + Farewell(flight.sim.bound, old(flight.task))
                      + PrepareOut(flight.Ctx(), e.value.0, e.value.1, here).out
      ensures flight.Valid()
      ensures scenario == old(scenario) && dataStream == old(dataStream)
      ensures runEnabled == old(runEnabled) && followEnabled == old(followEnabled)
    {
      var e := NavEntry(parse, coord, altText, spdText);
      if e.None? {
        log := log + [Shown(NavError)];
        return;
      }
      var started := flight.FlyTo(e.value.0, e.value.1, here);
      if !started {
        log := log + [Shown(NavError)];
      }
    }

    /** `teleport` of the panel: parse the entries, heading included, and
        teleport with the default 5 m step; the controller reports its own
        errors, so only a parse error shows here. */
    method Teleport(parse: string -> Option<real>, coord: string, altText: string, spdText: string,
                    hdgText: string, here: Sample, stopAt: nat)
      modifies this, flight.sim
      ensures var e := NavEntry(parse, coord, altText, spdText);
              if e.None? || parse(hdgText).None?
              then log == old(log) + [Shown(InputError)] && flight.sim.log == old(flight.sim.log)
              else log == old(log)
                   && flight.sim.log == old(flight.sim.log)
                      + TeleportOut(flight.Ctx(), e.value.0, e.value.1, parse(hdgText), 5.0, here,
                                    if flight.navStop then 0 else stopAt)
      ensures scenario == old(scenario) && dataStream == old(dataStream)
      ensures runEnabled == old(runEnabled) && followEnabled == old(followEnabled)
    {
      var e := NavEntry(parse, coord, altText, spdText);
      var hdg := parse(hdgText);
      if e.None? || hdg.None? {
        log := log + [Shown(InputError)];
        return;
      }
      flight.Teleport(e.value.0, e.value.1, hdg, 5.0, here, stopAt);
    }
  }
}
