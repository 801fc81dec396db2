/**
 * The decision logic of the application's main loop: each iteration reads the
 * tick counter, decides whether a frame is due, applies at most one input
 * event to the rotation angles, and, when the frame was due, issues a redraw
 * and records the time.
 *
 * The tick counter is an unsigned 32-bit value that wraps around; elapsed time
 * is the difference of two readings taken modulo 2^32.
 */
module AppLoop {
  import opened LinAlg

  /** Minimum number of ticks between two redraws. */
  const FRAME_INTERVAL: int := 100
  /** Change of a rotation angle, in radians, per key event. */
  const ROTATION_STEP: real := 0.1
  const TICK_MODULUS: int := 0x1_0000_0000

  /** A reading of the unsigned 32-bit tick counter. */
  type Tick = t: int | 0 <= t < TICK_MODULUS

  datatype InputType = Press | Release | Short | Long | Repeat

  datatype InputKey = Up | Down | Right | Left | Ok | Back

  datatype InputEvent = InputEvent(kind: InputType, key: InputKey)

  /** The outcome of one poll of the input queue. */
  datatype Poll = NoEvent | Event(event: InputEvent)

  datatype LoopState = LoopState(rotation: Vec3, running: bool, lastFrameTime: Tick)

  datatype StepResult = StepResult(state: LoopState, redraw: bool)

  /** Only presses and auto-repeats act on keys; releases, short and long presses are ignored. */
  predicate IsKeyAction(ev: InputEvent) {
    ev.kind == Press || ev.kind == Repeat
  }

  predicate StopsLoop(ev: InputEvent) {
    IsKeyAction(ev) && ev.key == Back
  }

  /** The rotation change an event stands for: one step on the axis of its key. */
  function RotationDelta(ev: InputEvent): Vec3 {
    if !IsKeyAction(ev) then ZERO
    else
      match ev.key
      case Up => Vec3(ROTATION_STEP, 0.0, 0.0)
      case Down => Vec3(-ROTATION_STEP, 0.0, 0.0)
      case Left => Vec3(0.0, -ROTATION_STEP, 0.0)
      case Right => Vec3(0.0, ROTATION_STEP, 0.0)
      case Ok => Vec3(0.0, 0.0, ROTATION_STEP)
      case Back => ZERO
  }

  /** Applies one input event to the loop state. */
  function HandleInput(s: LoopState, ev: InputEvent): (r: LoopState)
    ensures r.rotation == Add(s.rotation, RotationDelta(ev))
    ensures r.running <==> s.running && !StopsLoop(ev)
    ensures r.lastFrameTime == s.lastFrameTime
    ensures !IsKeyAction(ev) ==> r == s
  {
    if ev.kind == Press || ev.kind == Repeat then
      match ev.key
      case Up => s.(rotation := s.rotation.(x := s.rotation.x + ROTATION_STEP))
      case Down => s.(rotation := s.rotation.(x := s.rotation.x - ROTATION_STEP))
      case Left => s.(rotation := s.rotation.(y := s.rotation.y - ROTATION_STEP))
      case Right => s.(rotation := s.rotation.(y := s.rotation.y + ROTATION_STEP))
      case Ok => s.(rotation := s.rotation.(z := s.rotation.z + ROTATION_STEP))
      case Back => s.(running := false)
    else
      s
  }

  /** Opposite keys undo each other exactly (on reals). */
  lemma OppositeKeysCancel(s: LoopState, kind: InputType)
    requires kind == Press || kind == Repeat
    ensures HandleInput(HandleInput(s, InputEvent(kind, Up)), InputEvent(kind, Down)).rotation == s.rotation
    ensures HandleInput(HandleInput(s, InputEvent(kind, Left)), InputEvent(kind, Right)).rotation == s.rotation
  {
  }

  /** Ticks elapsed from last to now on a counter that wraps at 2^32. */
  function ElapsedTicks(now: Tick, last: Tick): (d: Tick)
    ensures (last + d) % TICK_MODULUS == now
  {
    (now - last) % TICK_MODULUS
  }

  predicate FrameReady(now: Tick, last: Tick) {
    ElapsedTicks(now, last) >= FRAME_INTERVAL
  }

  /**
   * The pacing test is immune to the counter wrapping: d ticks after last,
   * a frame is ready exactly when d is at least the frame interval, whether
   * or not the counter passed 2^32 in between.
   */
  lemma FrameReadyAcrossWraparound(last: Tick, d: int)
    requires 0 <= d < TICK_MODULUS
    ensures FrameReady((last + d) % TICK_MODULUS, last) <==> d >= FRAME_INTERVAL
  {
    var now := (last + d) % TICK_MODULUS;
    if last + d < TICK_MODULUS {
      assert now == last + d;
      assert ElapsedTicks(now, last) == d;
    } else {
      assert now == last + d - TICK_MODULUS;
      assert now - last == d - TICK_MODULUS;
      assert ElapsedTicks(now, last) == d;
    }
  }

  /**
   * One iteration of the main loop: decide whether a frame is due from the
   * time of the last frame, apply the polled event if there is one, and on a
   * due frame request a redraw and record the time.
   */
  function Step(s: LoopState, poll: Poll, now: Tick): (r: StepResult)
    ensures r.redraw <==> ElapsedTicks(now, s.lastFrameTime) >= FRAME_INTERVAL
    ensures r.state.lastFrameTime == if r.redraw then now else s.lastFrameTime
    ensures poll.NoEvent? ==> r.state.rotation == s.rotation && r.state.running == s.running
    ensures poll.Event? ==> r.state.rotation == Add(s.rotation, RotationDelta(poll.event))
    ensures poll.Event? ==> (r.state.running <==> s.running && !StopsLoop(poll.event))
  {
    var ready := FrameReady(now, s.lastFrameTime);
    var afterInput := match poll
      case NoEvent => s
      case Event(ev) => HandleInput(s, ev);
    if ready then StepResult(afterInput.(lastFrameTime := now), true)
    else StepResult(afterInput, false)
  }

  /**
   * The loop run over a sequence of (poll result, tick reading) pairs until it
   * stops. A stopped loop does nothing more; a started loop stops exactly when
   * one of the polled events is a Back press.
   */
  function Run(s: LoopState, ticks: seq<(Poll, Tick)>): (r: LoopState)
    ensures !s.running ==> r == s
    ensures r.running ==> s.running && forall i :: 0 <= i < |ticks| ==> !StopsAt(ticks, i)
    ensures s.running && !r.running ==> exists i :: 0 <= i < |ticks| && StopsAt(ticks, i)
    decreases |ticks|
  {
    if !s.running || |ticks| == 0 then s
    else
      var next := Step(s, ticks[0].0, ticks[0].1).state;
      var r := Run(next, ticks[1..]);
      assert !next.running ==> StopsAt(ticks, 0);
      assert forall i :: 1 <= i < |ticks| ==> (StopsAt(ticks, i) <==> StopsAt(ticks[1..], i - 1)) by {
        forall i | 1 <= i < |ticks|
          ensures StopsAt(ticks, i) <==> StopsAt(ticks[1..], i - 1)
        {
          assert ticks[1..][i - 1] == ticks[i];
        }
      }
      assert forall j :: 0 <= j < |ticks| - 1 ==> (StopsAt(ticks[1..], j) ==> StopsAt(ticks, j + 1));
      r
  }

  function PollDelta(p: Poll): Vec3 {
    match p
    case NoEvent => ZERO
    case Event(ev) => RotationDelta(ev)
  }

  /** The sum of the rotation changes of all polled events. */
  function SumDeltas(ticks: seq<(Poll, Tick)>): Vec3
    decreases |ticks|
  {
    if |ticks| == 0 then ZERO else Add(PollDelta(ticks[0].0), SumDeltas(ticks[1..]))
  }

  predicate StopsAt(ticks: seq<(Poll, Tick)>, i: int)
    requires 0 <= i < |ticks|
  {
    ticks[i].0.Event? && StopsLoop(ticks[i].0.event)
  }

  /**
   * Until Back is pressed the loop keeps running, and the rotation it ends
   * with is the starting rotation plus every event's increment: angles
   * accumulate without any wrap-around.
   */
  lemma {:induction false} RunAccumulatesRotation(s: LoopState, ticks: seq<(Poll, Tick)>)
    requires s.running
    requires forall i :: 0 <= i < |ticks| ==> !StopsAt(ticks, i)
    ensures Run(s, ticks).running
    ensures Run(s, ticks).rotation == Add(s.rotation, SumDeltas(ticks))
    decreases |ticks|
  {
    if |ticks| > 0 {
      var next := Step(s, ticks[0].0, ticks[0].1).state;
      assert !StopsAt(ticks, 0);
      assert next.rotation == Add(s.rotation, PollDelta(ticks[0].0));
      assert forall i :: 0 <= i < |ticks[1..]| ==> !StopsAt(ticks[1..], i) by {
        forall i | 0 <= i < |ticks[1..]|
          ensures !StopsAt(ticks[1..], i)
        {
          assert ticks[1..][i] == ticks[i + 1];
          assert !StopsAt(ticks, i + 1);
        }
      }
      RunAccumulatesRotation(next, ticks[1..]);
      assert Run(s, ticks) == Run(next, ticks[1..]);
      AddAssociative(s.rotation, PollDelta(ticks[0].0), SumDeltas(ticks[1..]));
    }
  }

  /** A Back press ends the loop at once: later events and ticks have no effect. */
  lemma BackStopsLoop(s: LoopState, ticks: seq<(Poll, Tick)>)
    requires s.running && |ticks| > 0 && StopsAt(ticks, 0)
    ensures Run(s, ticks) == Step(s, ticks[0].0, ticks[0].1).state
    ensures !Run(s, ticks).running
    ensures Run(s, ticks).rotation == s.rotation
  {
  }

  /**
   * The recorded frame time only ever moves to a tick reading at which a frame
   * was issued: after a run it is either the initial one or one of the readings.
   */
  lemma {:induction false} LastFrameTimeIsAReading(s: LoopState, ticks: seq<(Poll, Tick)>)
    ensures Run(s, ticks).lastFrameTime == s.lastFrameTime
         || exists i :: 0 <= i < |ticks| && Run(s, ticks).lastFrameTime == ticks[i].1
    decreases |ticks|
  {
    if s.running && |ticks| > 0 {
      var next := Step(s, ticks[0].0, ticks[0].1).state;
      LastFrameTimeIsAReading(next, ticks[1..]);
      var t := Run(s, ticks).lastFrameTime;
      if t == next.lastFrameTime {
        if t != s.lastFrameTime {
          assert t == ticks[0].1;
        }
      } else {
        var i :| 0 <= i < |ticks[1..]| && t == ticks[1..][i].1;
        assert t == ticks[i + 1].1;
      }
    }
  }
}
