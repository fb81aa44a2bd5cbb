/** Following an external data stream (`FlightController.follow_stream`,
    core/flight_controller.py): every frame's position and heading are
    written straight into the simulator, one frame after the other. */
module Stream {
  import opened SimTypes
  import opened Geodesy
  import opened Guidance

  /** One frame of the stream: the keys the follower looks up, each possibly
      absent (`frame.get(key)` answering None). */
  datatype Frame = Frame(lat: Option<real>, lon: Option<real>, alt: Option<real>,
                         heading: Option<real>, flaps: Option<real>, elevTrim: Option<real>)

  /** The value written to the true heading, `radians(hdg) * 366 / 360`. */
  function HeadingWrite(geo: Geo, h: real): real {
    geo.radians(h) * 366.0 / 360.0
  }

  /** A write of `x` to `v` when the frame has it. */
  function Put(v: VarName, x: Option<real>): seq<Output> {
    if x.Some? then [SetVar(v, x.value)] else []
  }

  /** The status line formats latitude and longitude as fixed-point numbers,
      which raises when either is absent: that happens after the writes. */
  predicate BreaksStatus(f: Frame) {
    f.lat.None? || f.lon.None?
  }

  /** The heading bug and the true heading, when the frame has a heading. */
  function HeadingOut(env: Env, f: Frame): seq<Output> {
    if f.heading.Some?
    then Emit(env.bound, HeadingBugSet, Some(Trunc(f.heading.value)))
         + [SetVar(PlaneHeadingTrue, HeadingWrite(env.geo, f.heading.value))]
    else []
  }

  /** What one frame sends: the position fields it has, its heading, and the
      progress report unless formatting that report raises. */
  function FrameOut(env: Env, f: Frame): seq<Output> {
    Put(PlaneLatitude, f.lat)
      + (Put(PlaneLongitude, f.lon) + Put(PlaneAltitude, f.alt) + HeadingOut(env, f)
         + (if BreaksStatus(f) then [] else [Report(StreamFrame)]))
  }

  /** The for loop over the frames; `stopAt` is how many frames pass before
      a stop-flag check sees the flag set. */
  function StreamLoop(env: Env, frames: seq<Frame>, stopAt: nat): (r: Run)
    ensures r.end in {Completed, Stopped, Crashed}
  {
    if frames == [] then Run(Completed, [])
    else if stopAt == 0 then Run(Stopped, [])
    else if BreaksStatus(frames[0]) then Run(Crashed, FrameOut(env, frames[0]))
    else Prepend(FrameOut(env, frames[0]), StreamLoop(env, frames[1..], stopAt - 1))
  }

  /** Everything `follow_stream` sends: the start report, the autopilot
      switched off, the frames, and the end report (the failure report when
      a frame broke the loop). */
  function StreamRun(env: Env, frames: seq<Frame>, stopAt: nat): Run {
    var r := StreamLoop(env, frames, stopAt);
    Run(r.end, [Report(StreamStarted)] + Emit(env.bound, ApMasterOff, None) + r.out
               + [Report(if r.end == Crashed then StreamFailed else StreamDone)])
  }

  // ---------------------------------------------------------------------
  // Properties

  function Values(xs: seq<Option<real>>): seq<real> {
    if xs == [] then []
    else (if xs[0].Some? then [xs[0].value] else []) + Values(xs[1..])
  }

  function Lats(frames: seq<Frame>): seq<Option<real>> {
    if frames == [] then [] else [frames[0].lat] + Lats(frames[1..])
  }

  lemma PutWrites(v: VarName, x: Option<real>, w: VarName)
    ensures Writes(Put(v, x), w) == if v == w && x.Some? then [x.value] else []
  {
    if x.Some? {
      WritesOne(SetVar(v, x.value), w);
    }
  }

  lemma HeadingWritesOnlyHeading(env: Env, f: Frame, v: VarName)
    requires v != PlaneHeadingTrue
    ensures forall o <- HeadingOut(env, f) :: !(o.SetVar? && o.variable == v)
  {}

  /** A frame writes its latitude when it has one, and only then. The
      other parts of the frame do not touch the latitude. */
  lemma FrameWritesLatitude(env: Env, f: Frame)
    ensures Writes(FrameOut(env, f), PlaneLatitude) == Values([f.lat])
  {
    var rest := Put(PlaneLongitude, f.lon) + Put(PlaneAltitude, f.alt) + HeadingOut(env, f)
                + (if BreaksStatus(f) then [] else [Report(StreamFrame)]);
    PutWrites(PlaneLatitude, f.lat, PlaneLatitude);
    HeadingWritesOnlyHeading(env, f, PlaneLatitude);
    UntouchedNoWrites(rest, PlaneLatitude);
    WritesAppend(Put(PlaneLatitude, f.lat), rest, PlaneLatitude);
    assert [f.lat][1..] == [];
  }

  /** A stream whose frames all carry a position, and that is not stopped,
      is followed to its end: it writes every frame's latitude, in order,
      and then reports completion. */
  lemma {:induction false} StreamFollowsEveryFrame(env: Env, frames: seq<Frame>, stopAt: nat)
    requires forall f <- frames :: !BreaksStatus(f)
    requires stopAt >= |frames|
    ensures var r := StreamLoop(env, frames, stopAt);
            r.end == Completed && Writes(r.out, PlaneLatitude) == Values(Lats(frames))
  {
    if frames != [] {
      var rest := StreamLoop(env, frames[1..], stopAt - 1);
      StreamFollowsEveryFrame(env, frames[1..], stopAt - 1);
      FrameWritesLatitude(env, frames[0]);
      WritesAppend(FrameOut(env, frames[0]), rest.out, PlaneLatitude);
      assert Lats(frames) == [frames[0].lat] + Lats(frames[1..]);
      ValuesAppend([frames[0].lat], Lats(frames[1..]));
    }
  }

  lemma {:induction false} ValuesAppend(a: seq<Option<real>>, b: seq<Option<real>>)
    ensures Values(a + b) == Values(a) + Values(b)
  {
    if a != [] {
      assert (a + b)[1..] == a[1..] + b;
      ValuesAppend(a[1..], b);
    } else {
      assert a + b == b;
    }
  }

  /** The first frame without latitude or longitude ends the stream in
      failure: its own writes still go out, no later frame is followed, and
      the run ends with the failure report. */
  lemma {:induction false} BrokenFrameEndsStream(env: Env, pre: seq<Frame>, f: Frame, post: seq<Frame>, stopAt: nat)
    requires forall g <- pre :: !BreaksStatus(g)
    requires BreaksStatus(f) && stopAt > |pre|
    ensures var r := StreamLoop(env, pre + [f] + post, stopAt);
            r.end == Crashed
            && r.out == StreamLoop(env, pre, stopAt).out + FrameOut(env, f)
  {
    var whole := pre + [f] + post;
    if pre == [] {
      assert whole[0] == f;
      assert StreamLoop(env, pre, stopAt).out == [];
    } else {
      assert whole[0] == pre[0] && whole[1..] == pre[1..] + [f] + post;
      assert pre[0] in pre && forall g <- pre[1..] :: g in pre;
      BrokenFrameEndsStream(env, pre[1..], f, post, stopAt - 1);
      var head, tail := FrameOut(env, pre[0]), StreamLoop(env, pre[1..], stopAt - 1).out;
      assert StreamLoop(env, pre, stopAt).out == head + tail;
      assert StreamLoop(env, whole, stopAt).out == head + (tail + FrameOut(env, f));
      AppendAssoc(head, tail, FrameOut(env, f));
    }
  }

  /** Flaps and elevator trim in a frame are never written, whatever the
      stream holds. */
  lemma StreamNeverSetsFlapsOrTrim(env: Env, frames: seq<Frame>, stopAt: nat)
    ensures var out := StreamRun(env, frames, stopAt).out;
            Writes(out, FlapsHandlePercent) == [] && Writes(out, ElevatorTrimPosition) == []
  {
    RunLeaves(env, frames, stopAt, FlapsHandlePercent);
    RunLeaves(env, frames, stopAt, ElevatorTrimPosition);
    UntouchedNoWrites(StreamRun(env, frames, stopAt).out, FlapsHandlePercent);
    UntouchedNoWrites(StreamRun(env, frames, stopAt).out, ElevatorTrimPosition);
  }

  lemma RunLeaves(env: Env, frames: seq<Frame>, stopAt: nat, v: VarName)
    requires v == FlapsHandlePercent || v == ElevatorTrimPosition
    ensures Untouched(StreamRun(env, frames, stopAt).out, v)
  {
    var r := StreamLoop(env, frames, stopAt);
    var head := [Report(StreamStarted)] + Emit(env.bound, ApMasterOff, None);
    var tail := [Report(if r.end == Crashed then StreamFailed else StreamDone)];
    LoopLeaves(env, frames, stopAt, v);
    assert Untouched(head, v) && Untouched(tail, v);
    UntouchedAppend(head, r.out, v);
    UntouchedAppend(head + r.out, tail, v);
  }

  lemma {:induction false} LoopLeaves(env: Env, frames: seq<Frame>, stopAt: nat, v: VarName)
    requires v == FlapsHandlePercent || v == ElevatorTrimPosition
    ensures Untouched(StreamLoop(env, frames, stopAt).out, v)
  {
    if frames != [] && stopAt > 0 {
      FrameLeaves(env, frames[0], v);
      if !BreaksStatus(frames[0]) {
        LoopLeaves(env, frames[1..], stopAt - 1, v);
        UntouchedAppend(FrameOut(env, frames[0]), StreamLoop(env, frames[1..], stopAt - 1).out, v);
      }
    }
  }

  lemma FrameLeaves(env: Env, f: Frame, v: VarName)
    requires v == FlapsHandlePercent || v == ElevatorTrimPosition
    ensures Untouched(FrameOut(env, f), v)
  {
    var rest := Put(PlaneLongitude, f.lon) + Put(PlaneAltitude, f.alt) + HeadingOut(env, f)
                + (if BreaksStatus(f) then [] else [Report(StreamFrame)]);
    assert Untouched(Put(PlaneLatitude, f.lat), v);
    assert Untouched(rest, v);
    UntouchedAppend(Put(PlaneLatitude, f.lat), rest, v);
  }
}
