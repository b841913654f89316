/** Mouse-drag scrolling of the horizontal recipe carousel and the momentum
    that continues it after release: a state machine over
    {Idle, Dragging, Momentum} whose steps are the mouse handlers and the
    animation frames they schedule. Pointer coordinates, offsets and
    velocities are exact `real`s; `Date.now()` is an `int` parameter. */
module DragScroll {
  import opened Recipes

  /** Offset units moved per unit of pointer movement while dragging. */
  const DragGain: real := 1.5
  /** Nominal milliseconds per animation frame. */
  const FrameMs: real := 16.0
  /** Velocity kept per momentum frame. */
  const Friction: real := 0.95
  /** Speed (units per ms) below which momentum stops. */
  const StopSpeed: real := 0.1
  /** Drag frames between pagination checks. */
  const DragCheckEvery: nat := 5
  /** Momentum frames between pagination checks. */
  const MomentumCheckEvery: nat := 10

  datatype Mode = Idle | Dragging | Momentum

  /** The page's drag fields and the container properties they write.
      - `scrollLeft`: the container's horizontal offset;
      - `smooth`: whether the container's scroll behaviour is 'smooth';
      - `startX`: pointer x inside the container at mouse-down;
      - `anchor`: the container offset at mouse-down;
      - `lastX`, `lastTime`: the previous pointer sample;
      - `velocity`: pointer velocity in units per ms;
      - `frameCount`: frames run by drag and momentum together;
      - `pending`: the page x of the one scheduled drag frame, if any. */
  datatype Drag = Drag(
    mode: Mode,
    scrollLeft: real,
    smooth: bool,
    startX: real,
    anchor: real,
    lastX: real,
    lastTime: int,
    velocity: real,
    frameCount: nat,
    pending: Option<real>)

  /** An animation frame's effect, and whether it ran `checkScrollPosition`. */
  datatype Frame = Frame(next: Drag, check: bool)

  function Abs(x: real): real
  {
    if x < 0.0 then -x else x
  }

  /** Termination measure of the momentum loop. */
  function Measure(v: real): nat
  {
    (Abs(v) * 200.0).Floor
  }

  /** A container at rest with nothing scheduled. */
  function Resting(scrollLeft: real, smooth: bool): Drag
  {
    Drag(Idle, scrollLeft, smooth, 0.0, 0.0, 0.0, 0, 0.0, 0, None)
  }

  /** `onMouseDown`: cancel a running momentum loop, enter dragging with
      instant scroll behaviour, and anchor the gesture at the pointer and at
      the current offset. */
  function MouseDown(d: Drag, pageX: real, offsetLeft: real, now: int): (r: Drag)
    ensures r.mode == Dragging && !r.smooth
    ensures r.anchor == d.scrollLeft && r.scrollLeft == d.scrollLeft
    ensures r.startX == pageX - offsetLeft && r.lastX == pageX && r.lastTime == now
    ensures r.velocity == 0.0
    ensures r.frameCount == d.frameCount && r.pending == d.pending
  {
    Drag(Dragging, d.scrollLeft, false, pageX - offsetLeft, d.scrollLeft, pageX, now, 0.0, d.frameCount, d.pending)
  }

  /** `onMouseMove`: ignored unless dragging; otherwise samples velocity
      when time has advanced and (re)schedules the one drag frame for the
      latest pointer position. Nothing is scrolled until that frame. */
  function MouseMove(d: Drag, pageX: real, now: int): (r: Drag)
    ensures d.mode != Dragging ==> r == d
    ensures d.mode == Dragging ==>
              && r.pending == Some(pageX)
              && r.lastX == pageX && r.lastTime == now
              && r.scrollLeft == d.scrollLeft
              && (now > d.lastTime ==> r.velocity * (now - d.lastTime) as real == pageX - d.lastX)
              && (now <= d.lastTime ==> r.velocity == d.velocity)
              && r.(velocity := d.velocity, lastX := d.lastX, lastTime := d.lastTime, pending := d.pending) == d
  {
    if d.mode != Dragging then d
    else
      var dt := now - d.lastTime;
      var v := if dt > 0 then (pageX - d.lastX) / (dt as real) else d.velocity;
      d.(velocity := v, lastX := pageX, lastTime := now, pending := Some(pageX))
  }

  /** The scheduled drag frame: place the container at the anchor minus
      1.5 times the pointer's displacement since mouse-down, and check
      pagination on every fifth frame counted. */
  function DragFrame(d: Drag, offsetLeft: real): (f: Frame)
    ensures f.next.pending.None?
    ensures d.pending.None? ==> f == Frame(d, false)
    ensures d.pending.Some? ==>
              && f.next == d.(scrollLeft := d.anchor - ((d.pending.value - offsetLeft) - d.startX) * DragGain,
                              frameCount := d.frameCount + 1, pending := None)
              && (f.check <==> f.next.frameCount % DragCheckEvery == 0)
  {
    match d.pending
    case None => Frame(d, false)
    case Some(pageX) =>
      var count := d.frameCount + 1;
      Frame(d.(scrollLeft := d.anchor - ((pageX - offsetLeft) - d.startX) * DragGain,
               frameCount := count, pending := None),
            count % DragCheckEvery == 0)
  }

  /** `onMouseUp`: leave dragging, cancel the scheduled drag frame, and
      start the momentum loop. Only reachable while dragging, since the
      listener is attached at mouse-down and removed here. */
  function MouseUp(d: Drag): (r: Drag)
    ensures d.mode == Dragging ==> r.mode == Momentum && r.pending.None?
    ensures d.mode == Dragging ==> r.(mode := Dragging, pending := d.pending) == d
    ensures d.mode != Dragging ==> r == d
  {
    if d.mode == Dragging then d.(mode := Momentum, pending := None) else d
  }

  /** One frame of the momentum loop (`step`): stop and restore smooth
      behaviour below 0.1 units per ms; otherwise move by 16 ms worth of
      velocity against the drag direction, keep 95% of the velocity, and
      check pagination on every tenth frame counted. */
  function MomentumFrame(d: Drag): (f: Frame)
    ensures d.mode != Momentum ==> f == Frame(d, false)
    ensures d.mode == Momentum ==> (f.next.mode == Idle <==> Abs(d.velocity) < StopSpeed)
    ensures d.mode == Momentum && Abs(d.velocity) < StopSpeed ==>
              f == Frame(d.(mode := Idle, smooth := true), false)
    ensures d.mode == Momentum && Abs(d.velocity) >= StopSpeed ==>
              && f.next == d.(scrollLeft := d.scrollLeft - d.velocity * FrameMs,
                              velocity := d.velocity * Friction, frameCount := d.frameCount + 1)
              && Abs(f.next.velocity) < Abs(d.velocity)
              && Measure(f.next.velocity) < Measure(d.velocity)
              && (d.velocity > 0.0 ==> f.next.scrollLeft < d.scrollLeft && f.next.velocity > 0.0)
              && (d.velocity < 0.0 ==> f.next.scrollLeft > d.scrollLeft && f.next.velocity < 0.0)
              && (f.check <==> f.next.frameCount % MomentumCheckEvery == 0)
  {
    if d.mode != Momentum then Frame(d, false)
    else if Abs(d.velocity) < StopSpeed then Frame(d.(mode := Idle, smooth := true), false)
    else
      var count := d.frameCount + 1;
      var v := d.velocity * Friction;
      MeasureDrops(d.velocity);
      Frame(d.(scrollLeft := d.scrollLeft - d.velocity * FrameMs, velocity := v, frameCount := count),
            count % MomentumCheckEvery == 0)
  }

  /** A running frame removes 5% of the speed, at least 0.005 units per ms
      since the speed is at least 0.1, so the measure falls by at least one. */
  lemma MeasureDrops(v: real)
    requires Abs(v) >= StopSpeed
    ensures Abs(v * Friction) < Abs(v)
    ensures Measure(v * Friction) < Measure(v)
  {
    var a := Abs(v) * 200.0;
    var b := Abs(v * Friction) * 200.0;
    assert Abs(v * Friction) == Abs(v) * Friction;
    assert b <= a - 1.0;
    assert b.Floor as real <= b;
    assert a < a.Floor as real + 1.0;
  }

  /** Runs the momentum loop until it stops. At most `Measure(v0)` frames
      move the container, the loop ends below the cutoff with smooth
      behaviour restored, the container moves against the release
      velocity, and a pagination check ran once per multiple of ten the
      shared frame counter passed. */
  method Settle(d: Drag) returns (r: Drag, frames: nat, checks: nat)
    requires d.mode == Momentum
    ensures r.mode == Idle && r.smooth && Abs(r.velocity) < StopSpeed
    ensures frames <= Measure(d.velocity)
    ensures r.frameCount == d.frameCount + frames
    ensures checks == r.frameCount / MomentumCheckEvery - d.frameCount / MomentumCheckEvery
    ensures d.velocity >= 0.0 ==> r.scrollLeft <= d.scrollLeft
    ensures d.velocity <= 0.0 ==> r.scrollLeft >= d.scrollLeft
  {
    r := d;
    frames := 0;
    checks := 0;
    while r.mode == Momentum
      invariant r.mode == Momentum || (r.mode == Idle && r.smooth && Abs(r.velocity) < StopSpeed)
      invariant frames + Measure(r.velocity) <= Measure(d.velocity)
      invariant r.frameCount == d.frameCount + frames
      invariant checks == r.frameCount / MomentumCheckEvery - d.frameCount / MomentumCheckEvery
      invariant d.velocity >= 0.0 ==> r.velocity >= 0.0 && r.scrollLeft <= d.scrollLeft
      invariant d.velocity <= 0.0 ==> r.velocity <= 0.0 && r.scrollLeft >= d.scrollLeft
      decreases if r.mode == Momentum then Measure(r.velocity) + 1 else 0
    {
      var f := MomentumFrame(r);
      if f.next.mode == Momentum {
        frames := frames + 1;
      }
      if f.check {
        checks := checks + 1;
      }
      r := f.next;
    }
  }

  // ---------------------------------------------------------------------
  // Properties of the gesture

  /** Mouse-down during momentum cancels the loop: a momentum frame that
      was scheduled no longer moves anything. */
  lemma MouseDownCancelsMomentum(d: Drag, pageX: real, offsetLeft: real, now: int)
    ensures var down := MouseDown(d, pageX, offsetLeft, now);
            MomentumFrame(down) == Frame(down, false)
  {
  }

  /** Pointer moves, each `(pageX, now)`, each followed by the drag frame it
      scheduled, as when the browser renders between mouse events. */
  function DragAlong(d: Drag, moves: seq<(real, int)>, offsetLeft: real): Drag
    decreases |moves|
  {
    if |moves| == 0 then d
    else DragAlong(DragFrame(MouseMove(d, moves[0].0, moves[0].1), offsetLeft).next, moves[1..], offsetLeft)
  }

  /** Moves and their frames never change the mode, the anchor or `startX`;
      while dragging, every move's frame runs and counts once. */
  lemma {:induction false} FramesKeepAnchor(d: Drag, moves: seq<(real, int)>, offsetLeft: real)
    ensures var r := DragAlong(d, moves, offsetLeft);
            r.mode == d.mode && r.anchor == d.anchor && r.startX == d.startX
    ensures d.mode == Dragging ==> DragAlong(d, moves, offsetLeft).frameCount == d.frameCount + |moves|
    decreases |moves|
  {
    if |moves| > 0 {
      var moved := MouseMove(d, moves[0].0, moves[0].1);
      FramesKeepAnchor(DragFrame(moved, offsetLeft).next, moves[1..], offsetLeft);
    }
  }

  /** The drag offset is not cumulative: whatever moves and frames came
      before, each written at its own time, the frame after the move to `x`
      puts the container at the offset at press time minus 1.5 times
      `x - x0`, whatever the container's own left offset is. */
  lemma DragFollowsPointer(d: Drag, x0: real, offsetLeft: real, t0: int, moves: seq<(real, int)>, x: real, t: int)
    ensures var down := MouseDown(d, x0, offsetLeft, t0);
            var moved := MouseMove(DragAlong(down, moves, offsetLeft), x, t);
            DragFrame(moved, offsetLeft).next.scrollLeft == d.scrollLeft - (x - x0) * DragGain
  {
    var down := MouseDown(d, x0, offsetLeft, t0);
    FramesKeepAnchor(down, moves, offsetLeft);
  }

  /** Velocity is sampled only when time advanced: a move in the same
      millisecond keeps the previous velocity. */
  lemma SameInstantKeepsVelocity(d: Drag, pageX: real)
    ensures MouseMove(d, pageX, d.lastTime).velocity == d.velocity
  {
  }

  /** At most one drag frame is pending: after one frame ran, a second
      frame has nothing to write. */
  lemma OneFramePerMove(d: Drag, offsetLeft: real, laterOffset: real)
    ensures var first := DragFrame(d, offsetLeft).next;
            DragFrame(first, laterOffset) == Frame(first, false)
  {
  }

  /** Release cancels the scheduled drag frame, so its write never happens. */
  lemma MouseUpCancelsDragFrame(d: Drag, offsetLeft: real)
    requires d.mode == Dragging
    ensures DragFrame(MouseUp(d), offsetLeft) == Frame(MouseUp(d), false)
  {
  }

  /** Press at x = 100 at time 0, move to x = 180 at time 100: velocity
      0.8 units per ms; after release the first momentum frame moves the
      container back by 12.8 and leaves velocity 0.76. */
  lemma ScenarioFling()
    ensures var down := MouseDown(Resting(500.0, true), 100.0, 0.0, 0);
            var moved := MouseMove(down, 180.0, 100);
            var dragged := DragFrame(moved, 0.0).next;
            var released := MouseUp(dragged);
            var first := MomentumFrame(released).next;
            && moved.velocity == 0.8
            && dragged.scrollLeft == 380.0
            && released.mode == Momentum
            && first.scrollLeft == 367.2
            && first.velocity == 0.76
            && first.mode == Momentum
  {
    var down := MouseDown(Resting(500.0, true), 100.0, 0.0, 0);
    var moved := MouseMove(down, 180.0, 100);
    assert moved.velocity == 0.8;
  }
}
