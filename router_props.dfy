/** Properties of the router's behaviour, proved over the functions of
    RouterSpec: the session invariant, one commit per gesture, commit_char
    suppressing the next touch-up, idempotent clearing and the swipe paths. */
module RouterProps {
  import opened Gesture
  import opened RouterSpec

  /** Every message keeps the session invariant; in particular no message
      leaves the router in CommitChar. */
  lemma StepPreservesValid(cfg: RouterConfig, s: Session, m: Message, nowMs: int)
    requires Valid(s)
    ensures Valid(HandleMessage(cfg, s, m, nowMs).session)
    ensures HandleMessage(cfg, s, m, nowMs).session.state != CommitChar
  {
    match m
    case TouchDown(x, y) =>
      var s1 := s.(lastX := Clamp01(x), lastY := Clamp01(y), skipCommitOnTouchUp := false,
                   gestures := GestureState(true, Clamp01(x), Clamp01(y), nowMs));
      assert Transition(s1, Hovering).state == Hovering;
    case _ =>
  }

  /** A second clear changes nothing and notifies nothing. */
  lemma ClearIsIdempotent(s: Session)
    ensures ClearSelection(ClearSelection(s)) == ClearSelection(s)
    ensures ClearSelection(ClearSelection(s)).notices == ClearSelection(s).notices
  {
  }

  /** A cleared selection produces no notification; a set one exactly one. */
  lemma ClearNotifiesOnChange(s: Session)
    ensures |ClearSelection(s).notices| == |s.notices| + (if HasSelection(s) then 1 else 0)
  {
  }

  /** A message adds at most one commit, after what was already committed. */
  lemma AtMostOneCommitPerMessage(cfg: RouterConfig, s: Session, m: Message, nowMs: int)
    requires Valid(s)
    ensures var r := HandleMessage(cfg, s, m, nowMs).session;
            |s.commits| <= |r.commits| <= |s.commits| + 1 && r.commits[..|s.commits|] == s.commits
  {
    if m.TouchUp? {
      TouchUpSpec(cfg, s, Clamp01(m.x), Clamp01(m.y), nowMs);
    }
  }

  /** commit_char followed by a touch-up commits exactly once, whatever the
      swipe, and leaves the selection cleared and the skip flag down. */
  lemma CommitCharThenTouchUpCommitsOnce(cfg: RouterConfig, s: Session, text: string, x: real, y: real, t1: int, t2: int)
    requires Valid(s) && text != []
    ensures var s1 := HandleMessage(cfg, s, CommitCharRequest(text), t1).session;
            var s2 := HandleMessage(cfg, s1, TouchUp(x, y), t2).session;
            && s1.skipCommitOnTouchUp
            && s2.commits == s.commits + [CharCommitFor(text[0])]
            && NoSelection(s2) && !s2.skipCommitOnTouchUp && s2.state == Idle
  {
    var s1 := HandleMessage(cfg, s, CommitCharRequest(text), t1).session;
    TouchUpSpec(cfg, s1, Clamp01(x), Clamp01(y), t2);
  }

  /** A touch-down always lowers the skip flag, so a commit_char suppresses
      at most the touch-up of the gesture it arrived in. */
  lemma TouchDownClearsSkip(cfg: RouterConfig, s: Session, x: real, y: real, nowMs: int)
    requires Valid(s)
    ensures !HandleMessage(cfg, s, TouchDown(x, y), nowMs).session.skipCommitOnTouchUp
  {
  }

  /** A touch-up ends in Idle on every path. */
  lemma TouchUpEndsIdle(cfg: RouterConfig, s: Session, x: real, y: real, nowMs: int)
    requires Valid(s)
    ensures HandleMessage(cfg, s, TouchUp(x, y), nowMs).session.state == Idle
  {
    TouchUpSpec(cfg, s, Clamp01(x), Clamp01(y), nowMs);
  }

  /** Touch coordinates reach the router clamped into the unit square. */
  lemma TouchDownIsClamped(cfg: RouterConfig, s: Session, x: real, y: real, nowMs: int)
    requires Valid(s)
    ensures var r := HandleMessage(cfg, s, TouchDown(x, y), nowMs).session;
            0.0 <= r.lastX <= 1.0 && 0.0 <= r.lastY <= 1.0
            && r.gestures == GestureState(true, Clamp01(x), Clamp01(y), nowMs)
  {
  }

  datatype Timed = Timed(msg: Message, nowMs: int)

  /** The session after a sequence of timed messages. */
  function Run(cfg: RouterConfig, s: Session, events: seq<Timed>): (r: Session)
    requires Valid(s)
    ensures Valid(r)
    decreases |events|
  {
    if events == [] then s
    else
      StepPreservesValid(cfg, s, events[0].msg, events[0].nowMs);
      Run(cfg, HandleMessage(cfg, s, events[0].msg, events[0].nowMs).session, events[1..])
  }

  lemma {:induction false} RunAppend(cfg: RouterConfig, s: Session, a: seq<Timed>, b: seq<Timed>)
    requires Valid(s)
    ensures Run(cfg, s, a + b) == Run(cfg, Run(cfg, s, a), b)
    decreases |a|
  {
    if a == [] {
      assert a + b == b;
    } else {
      StepPreservesValid(cfg, s, a[0].msg, a[0].nowMs);
      assert (a + b)[1..] == a[1..] + b;
      RunAppend(cfg, HandleMessage(cfg, s, a[0].msg, a[0].nowMs).session, a[1..], b);
    }
  }

  predicate AllMoves(events: seq<Timed>) {
    forall i :: 0 <= i < |events| ==> events[i].msg.TouchMove?
  }

  /** Moves never commit and never touch the skip flag or the recogniser. */
  lemma {:induction false} MovesNeverCommit(cfg: RouterConfig, s: Session, moves: seq<Timed>)
    requires Valid(s) && AllMoves(moves)
    ensures Run(cfg, s, moves).commits == s.commits
    ensures Run(cfg, s, moves).skipCommitOnTouchUp == s.skipCommitOnTouchUp
    ensures Run(cfg, s, moves).gestures == s.gestures
    decreases |moves|
  {
    if moves != [] {
      StepPreservesValid(cfg, s, moves[0].msg, moves[0].nowMs);
      assert AllMoves(moves[1..]) by {
        forall i | 0 <= i < |moves[1..]| ensures moves[1..][i].msg.TouchMove? {
          assert moves[1..][i] == moves[i + 1];
        }
      }
      MovesNeverCommit(cfg, HandleMessage(cfg, s, moves[0].msg, moves[0].nowMs).session, moves[1..]);
    }
  }

  /** One gesture (down, any number of moves, up) commits at most once, and
      only at the up. */
  lemma OneCommitPerGesture(cfg: RouterConfig, s: Session, down: Timed, moves: seq<Timed>, up: Timed)
    requires Valid(s) && down.msg.TouchDown? && AllMoves(moves) && up.msg.TouchUp?
    ensures var r := Run(cfg, s, [down] + moves + [up]);
            |s.commits| <= |r.commits| <= |s.commits| + 1 && r.commits[..|s.commits|] == s.commits
            && r.state == Idle
  {
    var s1 := HandleMessage(cfg, s, down.msg, down.nowMs).session;
    StepPreservesValid(cfg, s, down.msg, down.nowMs);
    assert Run(cfg, s, [down]) == s1 by {
      assert Run(cfg, s1, []) == s1;
    }
    RunAppend(cfg, s, [down], moves);
    RunAppend(cfg, s, [down] + moves, [up]);
    MovesNeverCommit(cfg, s1, moves);
    var s2 := Run(cfg, s1, moves);
    StepPreservesValid(cfg, s2, up.msg, up.nowMs);
    AtMostOneCommitPerMessage(cfg, s2, up.msg, up.nowMs);
    TouchUpEndsIdle(cfg, s2, up.msg.x, up.msg.y, up.nowMs);
    assert Run(cfg, s2, [up]) == HandleMessage(cfg, s2, up.msg, up.nowMs).session by {
      var s3 := HandleMessage(cfg, s2, up.msg, up.nowMs).session;
      assert Run(cfg, s3, []) == s3;
    }
  }

  /** A fast leftward flick commits one backspace and not the key under the
      final point: down at (0.5, 0.5), up at (0.2, 0.5) 100 ms later. */
  lemma LeftFlickIsBackspace(cfg: RouterConfig, s: Session, t: int)
    requires Valid(s)
    requires cfg.thresholds.minDistance <= 0.3 && cfg.thresholds.minVelocity <= 0.003
    requires cfg.thresholds.maxDurationMs >= 100
    ensures var r := Run(cfg, s, [Timed(TouchDown(0.5, 0.5), t), Timed(TouchUp(0.2, 0.5), t + 100)]);
            r.commits == s.commits + [ActionCommit("backspace")] && r.state == Idle
  {
    var s1 := HandleMessage(cfg, s, TouchDown(0.5, 0.5), t).session;
    StepPreservesValid(cfg, s, TouchDown(0.5, 0.5), t);
    assert s1.gestures == GestureState(true, 0.5, 0.5, t);
    TestSwipeIsRight(cfg.thresholds);
    MirrorSymmetry(0.8 - 0.5, 0.5 - 0.5, 100, cfg.thresholds);
    assert 0.2 - 0.5 == -(0.8 - 0.5);
    assert UpSwipe(cfg, s1, 0.2, 0.5, t + 100) == Left;
    var s2 := HandleMessage(cfg, s1, TouchUp(0.2, 0.5), t + 100).session;
    StepPreservesValid(cfg, s1, TouchUp(0.2, 0.5), t + 100);
    assert Run(cfg, s2, []) == s2;
    assert Run(cfg, s1, [Timed(TouchUp(0.2, 0.5), t + 100)]) == s2;
  }

  /** With the header's pixel thresholds the router can never see a swipe:
      every touch-up falls through to the menu pick. */
  lemma PixelDefaultsNeverSwipe(cfg: RouterConfig, s: Session, x: real, y: real, nowMs: int)
    requires cfg.thresholds == DefaultThresholds
    requires 0.0 <= s.gestures.startX <= 1.0 && 0.0 <= s.gestures.startY <= 1.0
    ensures UpSwipe(cfg, s, Clamp01(x), Clamp01(y), nowMs) == None
  {
    DefaultsNeverSwipeInUnitSquare(s.gestures, TouchSample(Clamp01(x), Clamp01(y), nowMs));
  }
}
