/** The input router as an object: the selection fields, the skip-commit
    flag and the gesture context are updated in place, and the commit
    bridge, the haptics and the selectionChanged signal are traces the
    router appends to. Every handler is proved to move the session exactly
    as the matching RouterSpec function does. The wall clock is the nowMs
    parameter; the layout queries come with the configuration. */
module Router {
  import opened Layout
  import opened Gesture
  import opened RouterSpec
  import RouterProps

  class InputRouter {
    const config: RouterConfig
    const gestures: GestureRecognizer
    var state: RouterState
    var selectedSector: int
    var selectedKey: int
    var trackingLetter: bool
    var skipCommitOnTouchUp: bool
    var ctx: GestureCtx
    var lastX: real
    var lastY: real
    var commits: seq<Commit>
    var haptics: seq<Haptic>
    var notices: seq<Notice>

    /** The whole observable state, as one value. */
    function Session(): Session
      reads this, gestures
    {
      RouterSpec.Session(state, selectedSector, selectedKey, trackingLetter, skipCommitOnTouchUp,
                         ctx, lastX, lastY, gestures.State(), commits, haptics, notices)
    }

    ghost predicate Valid()
      reads this, gestures
    {
      RouterSpec.Valid(Session()) && gestures.thresholds == config.thresholds
    }

    /** A router whose recogniser uses the given thresholds, in the units
        the router feeds it (the corrected design; see AsWritten). */
    constructor (layout: LayoutQueries, thresholds: Thresholds)
      ensures config == RouterConfig(layout, thresholds)
      ensures Session() == InitialSession
      ensures Valid()
      ensures fresh(gestures)
    {
      config := RouterConfig(layout, thresholds);
      gestures := new GestureRecognizer(thresholds);
      state := Idle;
      selectedSector, selectedKey := -1, -1;
      trackingLetter, skipCommitOnTouchUp := false, false;
      ctx := EmptyCtx;
      lastX, lastY := 0.0, 0.0;
      commits, haptics, notices := [], [], [];
    }

    /** The router as the code builds it: the recogniser is default
        constructed, so its thresholds are the pixel defaults. */
    constructor AsWritten(layout: LayoutQueries)
      ensures config == RouterConfig(layout, DefaultThresholds)
      ensures Session() == InitialSession
      ensures Valid()
      ensures fresh(gestures)
    {
      config := RouterConfig(layout, DefaultThresholds);
      gestures := new GestureRecognizer(DefaultThresholds);
      state := Idle;
      selectedSector, selectedKey := -1, -1;
      trackingLetter, skipCommitOnTouchUp := false, false;
      ctx := EmptyCtx;
      lastX, lastY := 0.0, 0.0;
      commits, haptics, notices := [], [], [];
    }

    method TransitionTo(next: RouterState)
      modifies this
      ensures Session() == Transition(old(Session()), next)
    {
      if next == state {
        return;
      }
      state := next;
      if next == Idle {
        ctx := EmptyCtx;
      }
    }

    method EnterTrackGroup()
      modifies this
      ensures Session() == old(Session()).(trackingLetter := false)
    {
      trackingLetter := false;
    }

    method EnterTrackLetter()
      modifies this
      ensures Session() == old(Session()).(trackingLetter := true)
    {
      trackingLetter := true;
    }

    method ClearSelection()
      modifies this
      ensures Session() == RouterSpec.ClearSelection(old(Session()))
    {
      if selectedSector != -1 || selectedKey != -1 || trackingLetter {
        selectedSector, selectedKey := -1, -1;
        trackingLetter := false;
        notices := notices + [Notice(selectedSector, selectedKey, Group)];
      }
      TransitionTo(Idle);
    }

    /** Appends a commit with its feedback, bracketed by CommitChar. */
    method CommitWithHaptic(c: Commit)
      modifies this
      ensures Session() == CommitVia(old(Session()), c)
    {
      TransitionTo(CommitChar);
      commits := commits + [c];
      haptics := haptics + [CommitHaptic];
      TransitionTo(Idle);
    }

    method UpdateSelection(x: real, y: real)
      modifies this
      ensures Session() == RouterSpec.UpdateSelection(config, old(Session()), x, y)
    {
      var angle := config.layout.angleForPoint(x, y);
      var radius := config.layout.radiusForPoint(x, y);
      if !trackingLetter && radius >= InnerRadius {
        EnterTrackLetter();
      } else if trackingLetter && radius < InnerRadius - InnerHysteresis {
        EnterTrackGroup();
      }
      if radius < DeadzoneRadius {
        ClearSelection();
        return;
      }
      var nextSector := config.layout.sectorWithHysteresis(angle, selectedSector, AngleHysteresis);
      if nextSector != selectedSector {
        selectedSector := nextSector;
        selectedKey := -1;
        haptics := haptics + [SelectionHaptic];
        notices := notices + [Notice(selectedSector, selectedKey, StageOf(trackingLetter))];
      }
      if trackingLetter && selectedSector >= 0 {
        var nextKey := config.layout.keyIndexWithHysteresis(angle, selectedSector, selectedKey, AngleHysteresis);
        if nextKey != selectedKey {
          selectedKey := nextKey;
          notices := notices + [Notice(selectedSector, selectedKey, Letter)];
        }
      } else if !trackingLetter {
        selectedKey := -1;
      }
    }

    method HandleTouchDown(x: real, y: real, nowMs: int)
      modifies this, gestures
      ensures Session() == TouchDownStep(config, old(Session()), x, y, nowMs)
    {
      lastX, lastY := x, y;
      skipCommitOnTouchUp := false;
      gestures.OnTouchDown(TouchSample(x, y, nowMs));
      TransitionTo(Hovering);
      UpdateSelection(x, y);
    }

    method HandleTouchMove(x: real, y: real, nowMs: int)
      modifies this
      ensures Session() == TouchMoveStep(config, old(Session()), x, y)
    {
      lastX, lastY := x, y;
      var _ := gestures.OnTouchMove(TouchSample(x, y, nowMs));
      if state == Idle {
        TransitionTo(Hovering);
      }
      UpdateSelection(x, y);
    }

    method HandleTouchUp(x: real, y: real, nowMs: int)
      requires gestures.thresholds == config.thresholds
      modifies this, gestures
      ensures Session() == TouchUpStep(config, old(Session()), x, y, nowMs)
    {
      var swipe := gestures.OnTouchUp(TouchSample(x, y, nowMs));
      if skipCommitOnTouchUp {
        skipCommitOnTouchUp := false;
        ClearSelection();
        return;
      }
      if swipe == Left {
        CommitWithHaptic(ActionCommit("backspace"));
        return;
      } else if swipe == Right {
        CommitWithHaptic(ActionCommit("space"));
        return;
      } else if swipe == Down {
        haptics := haptics + [CancelHaptic];
        ClearSelection();
        return;
      }
      UpdateSelection(x, y);
      if selectedSector < 0 {
        TransitionTo(Idle);
        return;
      }
      var keyIndex := if trackingLetter && selectedKey >= 0 then selectedKey else 0;
      var keyCount := config.layout.keyCount(selectedSector);
      var clampedKeyIndex := 0;
      if keyCount > 0 && keyIndex >= 0 && keyIndex < keyCount {
        clampedKeyIndex := keyIndex;
      }
      var action := NoKey;
      if keyCount > 0 {
        action := KeyOptionToAction(config.layout.keyAt(selectedSector, clampedKeyIndex));
      }
      if action == NoKey {
        TransitionTo(Idle);
        return;
      }
      CommitWithHaptic(KeyActionCommit(action));
    }

    method HandleAction(actionType: string)
      modifies this
      ensures Session() == ActionStep(old(Session()), actionType)
    {
      if actionType == "enter" || actionType == "space" || actionType == "backspace" {
        TransitionTo(CommitChar);
        commits := commits + [ActionCommit(actionType)];
        TransitionTo(Idle);
      }
      if actionType == "cancel" {
        haptics := haptics + [CancelHaptic];
        ClearSelection();
      }
    }

    /** One decoded request line: dispatch on its type, then build the reply. */
    method HandleMessage(m: Message, nowMs: int) returns (reply: Reply)
      requires Valid()
      modifies this, gestures
      ensures Valid()
      ensures Handled(Session(), reply) == RouterSpec.HandleMessage(config, old(Session()), m, nowMs)
    {
      ghost var before := Session();
      match m {
        case InvalidJson =>
          return InvalidJsonReply;
        case TouchDown(x, y) =>
          HandleTouchDown(Clamp01(x), Clamp01(y), nowMs);
        case TouchMove(x, y) =>
          HandleTouchMove(Clamp01(x), Clamp01(y), nowMs);
        case TouchUp(x, y) =>
          HandleTouchUp(Clamp01(x), Clamp01(y), nowMs);
        case CommitCharRequest(text) =>
          if text != [] {
            CommitWithHaptic(CharCommitFor(text[0]));
            skipCommitOnTouchUp := true;
          }
        case ActionRequest(name) =>
          HandleAction(name);
        case UiShow =>
          TransitionTo(Idle);
        case UiHide =>
          ClearSelection();
        case OtherType(_) =>
      }
      if m.TouchDown? || m.TouchMove? {
        reply := SelectionReply(selectedSector, selectedKey, StageOf(trackingLetter), selectedSector < 0);
      } else {
        reply := AckReply;
      }
      RouterProps.StepPreservesValid(config, before, m, nowMs);
    }
  }
}
