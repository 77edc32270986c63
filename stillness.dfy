/**
 * The ball-stillness detector `isBallMoving`. Its two function-local statics
 * (the remembered ball position and the time it was remembered) are the fields
 * of a BallMotion object; they are primed by the first call, as a static local
 * is, and are never reset afterwards.
 *
 * `Observe` is the specification of one call; `Replay` and `Reports` run it over
 * a sequence of samples, and the lemmas at the end are the debounce properties.
 */
module Stillness {
  import opened Geometry

  /** Displacement (metres, in the field plane) that counts as movement. */
  const MoveThreshold: real := 0.01
  /** How long (seconds) the ball must stay put before it counts as settled. */
  const SettleWindow: real := 0.5

  /** The detector's remembered state; `Unprimed` before the first call. */
  datatype Memory = Unprimed | Remembered(lastBall: Vec, lastTime: real)

  /** What one call reports and the state it leaves behind. */
  datatype Observation = Observation(moving: bool, next: Memory)

  /** One sample of the simulation clock and the ball's ground-truth position. */
  datatype Sample = Sample(time: real, ball: Vec)

  /** The ball has moved by more than MoveThreshold in the plane since `last`. */
  predicate Displaced(ball: Vec, last: Vec)
  {
    DistSq(Flat(ball), Flat(last)) > MoveThreshold * MoveThreshold
  }

  /** One call of `isBallMoving` at `thisTime` with the ball at `thisBall`. */
  function Observe(m: Memory, thisTime: real, thisBall: Vec): (o: Observation)
    ensures o.next.Remembered? && o.next.lastBall.z == 0.0
    ensures m.Unprimed? ==> o.moving && o.next == Remembered(Flat(thisBall), thisTime)
    ensures m.Remembered? && Displaced(thisBall, m.lastBall) ==>
              o.moving && o.next == Remembered(Flat(thisBall), thisTime)
    ensures m.Remembered? && !Displaced(thisBall, m.lastBall) ==>
              o.next == Remembered(Flat(m.lastBall), m.lastTime) &&
              (o.moving <==> thisTime - m.lastTime < SettleWindow)
  {
    var (lastBall, lastTime) := if m.Unprimed? then (thisBall, thisTime) else (m.lastBall, m.lastTime);
    if Displaced(thisBall, lastBall) then
      Observation(true, Remembered(Flat(thisBall), thisTime))
    else
      Observation(thisTime - lastTime < SettleWindow, Remembered(Flat(lastBall), lastTime))
  }

  /** The detector's state after a sequence of calls. */
  function Replay(m: Memory, samples: seq<Sample>): Memory
    decreases |samples|
  {
    if samples == [] then m
    else Replay(Observe(m, samples[0].time, samples[0].ball).next, samples[1..])
  }

  /** What each call in a sequence of calls reports. */
  function Reports(m: Memory, samples: seq<Sample>): (r: seq<bool>)
    ensures |r| == |samples|
    decreases |samples|
  {
    if samples == [] then []
    else
      var o := Observe(m, samples[0].time, samples[0].ball);
      [o.moving] + Reports(o.next, samples[1..])
  }

  /** No sample in `samples` is displaced from `last`. */
  predicate Quiet(samples: seq<Sample>, last: Vec)
  {
    forall i :: 0 <= i < |samples| ==> !Displaced(samples[i].ball, last)
  }

  /** While the ball stays within the threshold, the remembered state never changes. */
  lemma {:induction false} QuietKeepsMemory(lastBall: Vec, lastTime: real, samples: seq<Sample>)
    requires lastBall.z == 0.0
    requires Quiet(samples, lastBall)
    ensures Replay(Remembered(lastBall, lastTime), samples) == Remembered(lastBall, lastTime)
    decreases |samples|
  {
    if samples != [] {
      assert !Displaced(samples[0].ball, lastBall);
      assert Flat(lastBall) == lastBall;
      assert Quiet(samples[1..], lastBall) by {
        forall i | 0 <= i < |samples[1..]| ensures !Displaced(samples[1..][i].ball, lastBall) {
          assert samples[1..][i] == samples[i + 1];
        }
      }
      QuietKeepsMemory(lastBall, lastTime, samples[1..]);
    }
  }

  /**
   * While the ball stays within the threshold, each call reports "moving" exactly
   * when it comes less than SettleWindow after the last detected movement: the
   * detector settles once the window has passed and stays settled.
   */
  lemma {:induction false} QuietReportsWindow(lastBall: Vec, lastTime: real, samples: seq<Sample>, k: nat)
    requires lastBall.z == 0.0
    requires Quiet(samples, lastBall)
    requires k < |samples|
    ensures Reports(Remembered(lastBall, lastTime), samples)[k] <==> samples[k].time - lastTime < SettleWindow
    decreases |samples|
  {
    var m := Remembered(lastBall, lastTime);
    assert !Displaced(samples[0].ball, lastBall);
    assert Flat(lastBall) == lastBall;
    var o := Observe(m, samples[0].time, samples[0].ball);
    assert o.next == m;
    if k > 0 {
      assert Quiet(samples[1..], lastBall) by {
        forall i | 0 <= i < |samples[1..]| ensures !Displaced(samples[1..][i].ball, lastBall) {
          assert samples[1..][i] == samples[i + 1];
        }
      }
      QuietReportsWindow(lastBall, lastTime, samples[1..], k - 1);
    }
  }

  /**
   * A single displacement restarts the window: the call that sees it reports
   * "moving", and so does every following quiet call less than SettleWindow later.
   */
  lemma MovementRestartsWindow(m: Memory, moved: Sample, rest: seq<Sample>, k: nat)
    requires m.Remembered? && Displaced(moved.ball, m.lastBall)
    requires Quiet(rest, Flat(moved.ball))
    requires k < |rest| && rest[k].time - moved.time < SettleWindow
    ensures Reports(m, [moved] + rest)[0]
    ensures Reports(m, [moved] + rest)[k + 1]
  {
    var o := Observe(m, moved.time, moved.ball);
    assert ([moved] + rest)[0] == moved;
    assert ([moved] + rest)[1..] == rest;
    QuietReportsWindow(Flat(moved.ball), moved.time, rest, k);
  }

  /** The two statics of `isBallMoving`. */
  class BallMotion {
    var primed: bool
    var lastBall: Vec
    var lastTime: real

    function State(): Memory
      reads this
    {
      if primed then Remembered(lastBall, lastTime) else Unprimed
    }

    constructor ()
      ensures State() == Unprimed
    {
      primed := false;
      lastBall := Origin;
      lastTime := 0.0;
    }

    /** `isBallMoving(worldModel)` at `thisTime` with the ball's ground truth at `thisBall`. */
    method IsBallMoving(thisTime: real, thisBall: Vec) returns (moving: bool)
      modifies this
      ensures Observation(moving, State()) == Observe(old(State()), thisTime, thisBall)
    {
      if !primed {
        primed := true;
        lastBall := thisBall;
        lastTime := thisTime;
      }
      var here := Flat(thisBall);
      lastBall := Flat(lastBall);
      if DistSq(here, lastBall) > MoveThreshold * MoveThreshold {
        lastBall := here;
        lastTime := thisTime;
        return true;
      }
      moving := thisTime - lastTime < SettleWindow;
    }
  }
}
