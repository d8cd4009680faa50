/** `Frame`: one frame's start and end timestamps. */
module Frames {
  import opened Time

  datatype Frame = Frame(startTime: Timestamp, endTime: Timestamp)

  /** A frame whose start and end were both captured. */
  predicate Complete(f: Frame)
  {
    !f.startTime.isEmpty && !f.endTime.isEmpty
  }

  /** The seconds between the two captures of a complete frame. */
  function Duration(f: Frame): real
  {
    f.endTime.start - f.startTime.start
  }

  /** `Frame::new`: started at `clock`, not yet ended. */
  function New(clock: real): (f: Frame)
    ensures !f.startTime.isEmpty && f.startTime.start == clock
    ensures f.endTime.isEmpty
  {
    Frame(Now(clock), Time.Empty(clock))
  }

  /** `Frame::empty`: neither end captured. */
  function Empty(clock: real): (f: Frame)
    ensures f.startTime.isEmpty && f.endTime.isEmpty
  {
    Frame(Time.Empty(clock), Time.Empty(clock))
  }

  /** `Frame::begin`: restarts the frame at `clock`; the end is kept. */
  function Begin(f: Frame, clock: real): (r: Frame)
    ensures r.endTime == f.endTime
    ensures !r.startTime.isEmpty && r.startTime.start == clock
  {
    f.(startTime := Now(clock))
  }

  /** `Frame::end`: ends the frame at `clock`; the start is kept. */
  function End(f: Frame, clock: real): (r: Frame)
    ensures r.startTime == f.startTime
    ensures !r.endTime.isEmpty && r.endTime.start == clock
  {
    f.(endTime := Now(clock))
  }

  /** `Frame::frame_time_s`: `start.delta(end)`, the start's elapsed time
      read at `c1` and the end's at `c2`. A frame in flight (no end yet)
      reports 0. */
  function FrameTimeS(f: Frame, c1: real, c2: real): (r: real)
    ensures f.startTime.isEmpty || f.endTime.isEmpty ==> r == 0.0
    ensures Complete(f) ==> r == Duration(f) - (c2 - c1)
  {
    Delta(f.startTime, f.endTime, c1, c2)
  }

  /** `Frame::delta_time`: the seconds since the frame started, read at
      `clock`; 0 if the start was never captured. */
  function DeltaTime(f: Frame, clock: real): (r: real)
    ensures f.startTime.isEmpty ==> r == 0.0
    ensures !f.startTime.isEmpty ==> f.startTime.start + r == clock
  {
    Elapsed(f.startTime, clock)
  }

  /** An empty frame reports zero frame time and zero delta time, whatever
      the clock says. */
  lemma EmptyFrameReportsZero(c0: real, c1: real, c2: real)
    ensures FrameTimeS(Empty(c0), c1, c2) == 0.0
    ensures DeltaTime(Empty(c0), c1) == 0.0
  {
  }

  /** A frame begun at `t0` and ended at `t1` is complete, its frame time
      (both reads at one instant) is t1 - t0, and its delta time at a later
      reading is the time since t0. */
  lemma BeginEndMeasures(f: Frame, t0: real, t1: real, c: real)
    ensures Complete(End(Begin(f, t0), t1))
    ensures FrameTimeS(End(Begin(f, t0), t1), c, c) == t1 - t0
    ensures DeltaTime(End(Begin(f, t0), t1), c) == c - t0
  {
  }
}
