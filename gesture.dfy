/** The swipe classifier. A touch-down records the start sample; a move or an
    up classifies the net motion by distance, velocity and (on up only)
    duration. Timestamps are explicit milliseconds; the Euclidean distance is
    never computed, only compared through squares. */
module Gesture {

  datatype SwipeDirection = None | Left | Right | Down

  datatype TouchSample = TouchSample(x: real, y: real, timestampMs: int)

  datatype Thresholds = Thresholds(minDistance: real, minVelocity: real, maxDurationMs: int)

  /** The defaults of GestureThresholds, in pixels and pixels per millisecond. */
  const DefaultThresholds: Thresholds := Thresholds(60.0, 0.6, 220)

  /** The recogniser's state: whether a touch is active, and its start. */
  datatype GestureState = GestureState(active: bool, startX: real, startY: real, startMs: int)

  const InitialGesture: GestureState := GestureState(false, 0.0, 0.0, 0)

  function Abs(v: real): real { if v < 0.0 then -v else v }

  /** hypot(dx, dy) >= m, for a distance that is never negative. */
  predicate FarEnough(dx: real, dy: real, m: real) {
    m <= 0.0 || dx * dx + dy * dy >= m * m
  }

  /** hypot(dx, dy) / elapsed >= v: the distance must reach v * elapsed when
      time went forward, and stay within it when time went backward. */
  predicate FastEnough(dx: real, dy: real, elapsed: int, v: real)
    requires elapsed != 0
  {
    var reach := v * elapsed as real;
    if elapsed > 0 then reach <= 0.0 || dx * dx + dy * dy >= reach * reach
    else reach >= 0.0 && dx * dx + dy * dy <= reach * reach
  }

  /** A motion that passes the timing, distance and velocity tests. */
  predicate IsSwipe(dx: real, dy: real, elapsed: int, th: Thresholds) {
    elapsed != 0 && FarEnough(dx, dy, th.minDistance) && FastEnough(dx, dy, elapsed, th.minVelocity)
  }

  /** The classification shared by move and up, without the duration cap. */
  function Classify(dx: real, dy: real, elapsed: int, th: Thresholds): (r: SwipeDirection)
    ensures r == Right <==> IsSwipe(dx, dy, elapsed, th) && Abs(dx) > Abs(dy) && dx > 0.0
    ensures r == Left <==> IsSwipe(dx, dy, elapsed, th) && Abs(dx) > Abs(dy) && dx < 0.0
    ensures r == Down <==> IsSwipe(dx, dy, elapsed, th) && Abs(dx) <= Abs(dy) && dy > 0.0
    ensures Abs(dx) <= Abs(dy) && dy <= 0.0 ==> r == None
  {
    if elapsed == 0 then None
    else if FarEnough(dx, dy, th.minDistance) && FastEnough(dx, dy, elapsed, th.minVelocity) then
      if Abs(dx) > Abs(dy) then (if dx > 0.0 then Right else Left)
      else if dy > 0.0 then Down
      else None
    else None
  }

  /** What onTouchMove returns for a sample, given the recogniser's state. */
  function MoveResult(g: GestureState, s: TouchSample, th: Thresholds): (r: SwipeDirection)
    ensures !g.active ==> r == None
    ensures s.timestampMs == g.startMs ==> r == None
    ensures r != None ==> IsSwipe(s.x - g.startX, s.y - g.startY, s.timestampMs - g.startMs, th)
  {
    if !g.active then None
    else Classify(s.x - g.startX, s.y - g.startY, s.timestampMs - g.startMs, th)
  }

  /** What onTouchUp returns: the move classification, capped by maxDurationMs. */
  function UpResult(g: GestureState, s: TouchSample, th: Thresholds): (r: SwipeDirection)
    ensures !g.active ==> r == None
    ensures s.timestampMs == g.startMs ==> r == None
    ensures s.timestampMs - g.startMs > th.maxDurationMs ==> r == None
    ensures r != None ==> IsSwipe(s.x - g.startX, s.y - g.startY, s.timestampMs - g.startMs, th)
  {
    if !g.active then None
    else if s.timestampMs - g.startMs > th.maxDurationMs then None
    else Classify(s.x - g.startX, s.y - g.startY, s.timestampMs - g.startMs, th)
  }

  /** The up result is the move result within maxDurationMs and None beyond
      it; the move result does not depend on maxDurationMs at all. */
  lemma UpIsCappedMove(g: GestureState, s: TouchSample, th: Thresholds, otherCap: int)
    ensures s.timestampMs - g.startMs <= th.maxDurationMs ==> UpResult(g, s, th) == MoveResult(g, s, th)
    ensures s.timestampMs - g.startMs > th.maxDurationMs ==> UpResult(g, s, th) == None
    ensures MoveResult(g, s, th) == MoveResult(g, s, th.(maxDurationMs := otherCap))
  {
  }

  function Mirror(d: SwipeDirection): SwipeDirection {
    match d
    case Left => Right
    case Right => Left
    case other => other
  }

  /** Reflecting the motion left-to-right swaps Left and Right and keeps the rest. */
  lemma {:induction false} MirrorSymmetry(dx: real, dy: real, elapsed: int, th: Thresholds)
    ensures Classify(-dx, dy, elapsed, th) == Mirror(Classify(dx, dy, elapsed, th))
  {
    assert (-dx) * (-dx) == dx * dx;
  }

  lemma SquareMonotone(p: real, q: real)
    requires 0.0 <= p <= q
    ensures p * p <= q * q
  {
    assert p * p <= p * q <= q * q;
  }

  /** A swipe stays the same swipe when the same motion takes less time. */
  lemma FasterKeepsSwipe(dx: real, dy: real, slow: int, fast: int, th: Thresholds)
    requires 0 < fast <= slow
    requires Classify(dx, dy, slow, th) != None
    ensures Classify(dx, dy, fast, th) == Classify(dx, dy, slow, th)
  {
    var v := th.minVelocity;
    if v > 0.0 {
      assert v * fast as real <= v * slow as real;
      SquareMonotone(v * fast as real, v * slow as real);
    } else {
      assert v * fast as real <= 0.0;
    }
  }

  /** The classification test: from (0.5, 0.5) at 1000 ms to (0.8, 0.5) at
      1100 ms is a Right swipe whenever 0.3 units and 0.003 units/ms are
      enough and 100 ms is within the duration cap. */
  lemma TestSwipeIsRight(th: Thresholds)
    requires th.minDistance <= 0.3 && th.minVelocity <= 0.003 && th.maxDurationMs >= 100
    ensures UpResult(GestureState(true, 0.5, 0.5, 1000), TouchSample(0.8, 0.5, 1100), th) == Right
  {
    var dx := 0.8 - 0.5;
    assert dx * dx == 0.09;
    if th.minDistance > 0.0 {
      SquareMonotone(th.minDistance, 0.3);
    }
    var elapsed := 1100 - 1000;
    var reach := th.minVelocity * elapsed as real;
    assert reach <= 0.3;
    if reach > 0.0 {
      SquareMonotone(reach, 0.3);
    }
    assert FarEnough(dx, 0.5 - 0.5, th.minDistance);
    assert FastEnough(dx, 0.5 - 0.5, elapsed, th.minVelocity);
    assert Classify(dx, 0.5 - 0.5, elapsed, th) == Right;
  }

  /** With the pixel defaults, no motion inside the unit square is ever a
      swipe: its squared length is at most 2, far below 60 squared. */
  lemma DefaultsNeverSwipeInUnitSquare(g: GestureState, s: TouchSample)
    requires 0.0 <= g.startX <= 1.0 && 0.0 <= g.startY <= 1.0
    requires 0.0 <= s.x <= 1.0 && 0.0 <= s.y <= 1.0
    ensures UpResult(g, s, DefaultThresholds) == None
    ensures MoveResult(g, s, DefaultThresholds) == None
  {
    var dx := s.x - g.startX;
    var dy := s.y - g.startY;
    SquareMonotone(Abs(dx), 1.0);
    SquareMonotone(Abs(dy), 1.0);
    assert dx * dx == Abs(dx) * Abs(dx) && dy * dy == Abs(dy) * Abs(dy);
    assert !FarEnough(dx, dy, 60.0);
  }

  /** The classification test run against the pixel defaults yields None,
      where the test expects Right. */
  lemma DefaultsMissTestSwipe()
    ensures UpResult(GestureState(true, 0.5, 0.5, 1000), TouchSample(0.8, 0.5, 1100), DefaultThresholds) == None
  {
    DefaultsNeverSwipeInUnitSquare(GestureState(true, 0.5, 0.5, 1000), TouchSample(0.8, 0.5, 1100));
  }

  /** The direction's name. */
  function SwipeToString(d: SwipeDirection): (name: string)
    ensures d == None <==> name == "None"
  {
    match d
    case Left => "Left"
    case Right => "Right"
    case Down => "Down"
    case None => "None"
  }

  /** Distinct directions have distinct names. */
  lemma SwipeNamesDistinct(a: SwipeDirection, b: SwipeDirection)
    requires SwipeToString(a) == SwipeToString(b)
    ensures a == b
  {
  }

  class GestureRecognizer {
    const thresholds: Thresholds
    var active: bool
    var startX: real
    var startY: real
    var startMs: int

    function State(): GestureState
      reads this
    {
      GestureState(active, startX, startY, startMs)
    }

    constructor (thresholds: Thresholds)
      ensures this.thresholds == thresholds
      ensures State() == InitialGesture
    {
      this.thresholds := thresholds;
      active := false;
      startX, startY, startMs := 0.0, 0.0, 0;
    }

    /** Starts (or restarts) a gesture at the sample. */
    method OnTouchDown(s: TouchSample)
      modifies this
      ensures State() == GestureState(true, s.x, s.y, s.timestampMs)
    {
      active := true;
      startX, startY := s.x, s.y;
      startMs := s.timestampMs;
    }

    /** Classifies the motion so far; changes nothing. */
    method OnTouchMove(s: TouchSample) returns (dir: SwipeDirection)
      ensures dir == MoveResult(State(), s, thresholds)
    {
      if !active {
        return None;
      }
      var dx := s.x - startX;
      var dy := s.y - startY;
      var elapsed := s.timestampMs - startMs;
      if elapsed == 0 {
        return None;
      }
      if FarEnough(dx, dy, thresholds.minDistance) && FastEnough(dx, dy, elapsed, thresholds.minVelocity) {
        if Abs(dx) > Abs(dy) {
          return if dx > 0.0 then Right else Left;
        }
        if dy > 0.0 {
          return Down;
        }
      }
      return None;
    }

    /** Ends the gesture and classifies it, with the duration cap. */
    method OnTouchUp(s: TouchSample) returns (dir: SwipeDirection)
      modifies this
      ensures dir == UpResult(old(State()), s, thresholds)
      ensures State() == old(State()).(active := false)
    {
      if !active {
        return None;
      }
      active := false;
      var dx := s.x - startX;
      var dy := s.y - startY;
      var elapsed := s.timestampMs - startMs;
      if elapsed > thresholds.maxDurationMs {
        return None;
      }
      if elapsed == 0 {
        return None;
      }
      if FarEnough(dx, dy, thresholds.minDistance) && FastEnough(dx, dy, elapsed, thresholds.minVelocity) {
        if Abs(dx) > Abs(dy) {
          return if dx > 0.0 then Right else Left;
        }
        if dy > 0.0 {
          return Down;
        }
      }
      return None;
    }
  }
}
