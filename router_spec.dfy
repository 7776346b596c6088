/** The input router's behaviour as functions over the whole session value:
    router state, the selection triple, the skip-commit flag, the gesture
    context, the recogniser's state and the outbound traces (commits, haptic
    events, selection-changed notifications). Router.InputRouter is proved to
    follow these functions step for step. */
module RouterSpec {
  import opened Layout
  import opened Gesture

  datatype RouterState = Idle | Hovering | CommitChar | SwipeCapture

  datatype Stage = Group | Letter

  /** A resolved key: a Latin-1 character, a named action, or nothing. */
  datatype KeyAction = NoKey | CharKey(ch: char) | SpaceKey | BackspaceKey | EnterKey

  /** What reaches the commit bridge: a named action, a literal character
      (commit_char), or a resolved key action (touch-up pick). */
  datatype Commit = ActionCommit(action: string) | CharCommit(ch: char) | KeyActionCommit(key: KeyAction)

  datatype Haptic = SelectionHaptic | CommitHaptic | CancelHaptic

  /** One selectionChanged emission. */
  datatype Notice = Notice(sector: int, key: int, stage: Stage)

  /** Per-touch scratch; reset whenever the router re-enters Idle. */
  datatype GestureCtx = GestureCtx(startX: real, startY: real, startMs: int, distance: real)

  const EmptyCtx: GestureCtx := GestureCtx(0.0, 0.0, 0, 0.0)

  /** A request line after JSON decoding; InvalidJson stands for a line that
      does not parse, OtherType for any unrecognised or missing type. */
  datatype Message =
    | InvalidJson
    | TouchDown(x: real, y: real)
    | TouchMove(x: real, y: real)
    | TouchUp(x: real, y: real)
    | CommitCharRequest(text: string)
    | ActionRequest(action: string)
    | UiShow
    | UiHide
    | OtherType(name: string)

  /** A reply line before JSON encoding. */
  datatype Reply =
    | InvalidJsonReply
    | AckReply
    | SelectionReply(sector: int, letter: int, stage: Stage, clearSelection: bool)

  /** The layout queries the router relies on, whose bodies are outside this model. */
  datatype LayoutQueries = LayoutQueries(
    angleForPoint: (real, real) -> real,
    radiusForPoint: (real, real) -> real,
    sectorWithHysteresis: (real, int, real) -> int,
    keyIndexWithHysteresis: (real, int, int, real) -> int,
    keyCount: int -> int,
    keyAt: (int, int) -> KeyOption)

  datatype RouterConfig = RouterConfig(layout: LayoutQueries, thresholds: Thresholds)

  /** The configuration of the router's own layout instance: eight sectors
      centred on the pad, the first starting at a quarter turn. */
  const RouterLayoutConfig: LayoutConfig := LayoutConfig(8, 0.5, 0.5, Pi / 2.0)

  const DeadzoneRadius: real := 0.12
  const InnerRadius: real := 0.28
  const InnerHysteresis: real := 0.03
  const AngleHysteresis: real := 3.0 * Pi / 180.0

  datatype Session = Session(
    state: RouterState,
    sector: int,
    key: int,
    trackingLetter: bool,
    skipCommitOnTouchUp: bool,
    ctx: GestureCtx,
    lastX: real,
    lastY: real,
    gestures: GestureState,
    commits: seq<Commit>,
    haptics: seq<Haptic>,
    notices: seq<Notice>)

  const InitialSession: Session :=
    Session(Idle, -1, -1, false, false, EmptyCtx, 0.0, 0.0, InitialGesture, [], [], [])

  /** The consistency the router keeps between messages: CommitChar is never
      left standing (SwipeCapture is never entered), and no key is selected
      outside letter mode. */
  predicate Valid(s: Session) {
    && (s.state == Idle || s.state == Hovering)
    && (!s.trackingLetter ==> s.key == -1)
  }

  predicate HasSelection(s: Session) {
    s.sector != -1 || s.key != -1 || s.trackingLetter
  }

  predicate NoSelection(s: Session) {
    s.sector == -1 && s.key == -1 && !s.trackingLetter
  }

  function StageOf(trackingLetter: bool): Stage {
    if trackingLetter then Letter else Group
  }

  // ---------------------------------------------------------------- helpers

  function Clamp01(v: real): (r: real)
    ensures 0.0 <= r <= 1.0
    ensures 0.0 <= v <= 1.0 ==> r == v
    ensures v < 0.0 ==> r == 0.0
    ensures v > 1.0 ==> r == 1.0
  {
    if v < 0.0 then 0.0 else if v > 1.0 then 1.0 else v
  }

  /** QChar::toLatin1: the character itself below 256, the null character otherwise. */
  function ToLatin1(c: char): (r: char)
    ensures r as int < 256
    ensures c as int < 256 ==> r == c
  {
    if c as int < 256 then c else 0 as char
  }

  /** The action a key resolves to. The action name takes precedence over the
      character; an unknown name, or no name and a null character, is NoKey. */
  function KeyOptionToAction(o: KeyOption): (a: KeyAction)
    ensures o.IsAction() ==> (a == SpaceKey <==> o.action == "space")
    ensures o.IsAction() ==> (a == BackspaceKey <==> o.action == "backspace")
    ensures o.IsAction() ==> (a == EnterKey <==> o.action == "enter")
    ensures o.IsAction() ==> !a.CharKey?
    ensures !o.IsAction() ==> (a == NoKey <==> o.ch == NullChar)
    ensures !o.IsAction() && o.ch != NullChar ==> a == CharKey(ToLatin1(o.ch))
  {
    if o.IsAction() then
      if o.action == "space" then SpaceKey
      else if o.action == "backspace" then BackspaceKey
      else if o.action == "enter" then EnterKey
      else NoKey
    else if o.ch != NullChar then CharKey(ToLatin1(o.ch))
    else NoKey
  }

  /** An action key ignores its character. */
  lemma ActionNameWins(o: KeyOption, c: char)
    requires o.IsAction()
    ensures KeyOptionToAction(o.(ch := c)) == KeyOptionToAction(o)
  {
  }

  /** The log label of a resolved key: KEY_ and the upper-case letter for a
      lower-case letter, a fixed name for the rest. */
  function KeycodeLabel(a: KeyAction): (name: string)
    ensures a.CharKey? && 'a' <= a.ch <= 'z' ==> name == "KEY_" + [(a.ch as int - 32) as char]
    ensures |name| >= 4 && name[..4] == "KEY_"
  {
    match a
    case CharKey(c) => if 'a' <= c <= 'z' then "KEY_" + [(c as int - 32) as char] else "KEY_UNKNOWN"
    case SpaceKey => "KEY_SPACE"
    case BackspaceKey => "KEY_BACKSPACE"
    case EnterKey => "KEY_ENTER"
    case NoKey => "KEY_NONE"
  }

  /** The key index a touch-up commits: the letter-mode key when it is in
      range, otherwise the sector's first key. */
  function ResolveKeyIndex(trackingLetter: bool, key: int, keyCount: int): (r: int)
    ensures 0 <= r
    ensures keyCount > 0 ==> r < keyCount
    ensures trackingLetter && 0 <= key < keyCount ==> r == key
    ensures !(trackingLetter && 0 <= key < keyCount) ==> r == 0
  {
    var keyIndex := if trackingLetter && key >= 0 then key else 0;
    if keyCount > 0 && keyIndex >= 0 && keyIndex < keyCount then keyIndex else 0
  }

  /** The group/letter mode after seeing a radius: letter mode is entered at
      InnerRadius and left only below InnerRadius - InnerHysteresis. */
  function ModeAfter(trackingLetter: bool, radius: real): (r: bool)
    ensures radius >= InnerRadius ==> r
    ensures radius < InnerRadius - InnerHysteresis ==> !r
    ensures InnerRadius - InnerHysteresis <= radius < InnerRadius ==> r == trackingLetter
  {
    if !trackingLetter && radius >= InnerRadius then true
    else if trackingLetter && radius < InnerRadius - InnerHysteresis then false
    else trackingLetter
  }

  /** The control character U+0008. */
  const BackspaceChar: char := 8 as char

  /** commit_char's commit: newline, backspace and space become named actions. */
  function CharCommitFor(c: char): (r: Commit)
    ensures c == '\n' ==> r == ActionCommit("enter")
    ensures c == BackspaceChar ==> r == ActionCommit("backspace")
    ensures c == ' ' ==> r == ActionCommit("space")
    ensures c != '\n' && c != BackspaceChar && c != ' ' ==> r == CharCommit(c)
  {
    if c == '\n' then ActionCommit("enter")
    else if c == BackspaceChar then ActionCommit("backspace")
    else if c == ' ' then ActionCommit("space")
    else CharCommit(c)
  }

  predicate IsCommitAction(name: string) {
    name == "enter" || name == "space" || name == "backspace"
  }

  // ------------------------------------------------------ router operations

  function Transition(s: Session, next: RouterState): (r: Session)
    ensures r.state == next
    ensures next == s.state ==> r == s
    ensures next != s.state && next == Idle ==> r.ctx == EmptyCtx
    ensures next != Idle ==> r.ctx == s.ctx
    ensures r.(state := s.state, ctx := s.ctx) == s
  {
    if next == s.state then s
    else if next == Idle then s.(state := next, ctx := EmptyCtx)
    else s.(state := next)
  }

  function ClearSelection(s: Session): (r: Session)
    ensures NoSelection(r) && r.state == Idle
    ensures r.notices == s.notices + (if HasSelection(s) then [Notice(-1, -1, Group)] else [])
    ensures r.commits == s.commits && r.haptics == s.haptics
    ensures r.skipCommitOnTouchUp == s.skipCommitOnTouchUp && r.gestures == s.gestures
    ensures r.lastX == s.lastX && r.lastY == s.lastY
    ensures r.ctx == (if s.state == Idle then s.ctx else EmptyCtx)
  {
    var s1 :=
      if HasSelection(s) then
        s.(sector := -1, key := -1, trackingLetter := false, notices := s.notices + [Notice(-1, -1, Group)])
      else s;
    Transition(s1, Idle)
  }

  /** Recomputes the selection for a point: mode switch, deadzone clear,
      sector with hysteresis (a new sector drops the key), then the key. */
  function UpdateSelection(cfg: RouterConfig, s: Session, x: real, y: real): Session
  {
    var angle := cfg.layout.angleForPoint(x, y);
    var radius := cfg.layout.radiusForPoint(x, y);
    var s1 := s.(trackingLetter := ModeAfter(s.trackingLetter, radius));
    if radius < DeadzoneRadius then ClearSelection(s1)
    else
      var next := cfg.layout.sectorWithHysteresis(angle, s1.sector, AngleHysteresis);
      var s2 :=
        if next != s1.sector then
          s1.(sector := next, key := -1, haptics := s1.haptics + [SelectionHaptic],
              notices := s1.notices + [Notice(next, -1, StageOf(s1.trackingLetter))])
        else s1;
      if s2.trackingLetter && s2.sector >= 0 then
        var nextKey := cfg.layout.keyIndexWithHysteresis(angle, s2.sector, s2.key, AngleHysteresis);
        if nextKey != s2.key then s2.(key := nextKey, notices := s2.notices + [Notice(s2.sector, nextKey, Letter)])
        else s2
      else if !s2.trackingLetter then s2.(key := -1)
      else s2
  }

  /** What a selection update does: a point in the deadzone clears the
      selection; elsewhere the mode follows the radius, the sector moves
      with hysteresis (a new sector drops the key and gives a haptic tick)
      and, in letter mode, the key follows. A clear notifies once when
      something was selected; a sector change notifies the new sector, then
      a key change in letter mode the new key. The router state, the commits
      and the recogniser are untouched outside the deadzone clear. */
  lemma UpdateSelectionSpec(cfg: RouterConfig, s: Session, x: real, y: real)
    ensures var r := UpdateSelection(cfg, s, x, y);
            var radius := cfg.layout.radiusForPoint(x, y);
            var angle := cfg.layout.angleForPoint(x, y);
            var keyBefore := if r.sector != s.sector then -1 else s.key;
            && (radius < DeadzoneRadius ==> NoSelection(r) && r.state == Idle)
            && (radius >= DeadzoneRadius ==>
                  && r.state == s.state && r.ctx == s.ctx
                  && r.trackingLetter == ModeAfter(s.trackingLetter, radius)
                  && r.sector == cfg.layout.sectorWithHysteresis(angle, s.sector, AngleHysteresis))
            && (radius >= DeadzoneRadius && r.trackingLetter ==>
                  r.key == (if r.sector >= 0 then cfg.layout.keyIndexWithHysteresis(angle, r.sector, keyBefore, AngleHysteresis) else keyBefore))
            && (!r.trackingLetter ==> r.key == -1)
            && r.haptics == s.haptics + (if radius >= DeadzoneRadius && r.sector != s.sector then [SelectionHaptic] else [])
            && |s.notices| <= |r.notices| <= |s.notices| + 2 && r.notices[..|s.notices|] == s.notices
            && (radius < DeadzoneRadius ==>
                  r.notices == s.notices
                    + (if s.sector != -1 || s.key != -1 || ModeAfter(s.trackingLetter, radius) then [Notice(-1, -1, Group)] else []))
            && (radius >= DeadzoneRadius ==>
                  r.notices == s.notices
                    + (if r.sector != s.sector then [Notice(r.sector, -1, StageOf(r.trackingLetter))] else [])
                    + (if r.trackingLetter && r.sector >= 0 && r.key != keyBefore then [Notice(r.sector, r.key, Letter)] else []))
            && r.commits == s.commits && r.skipCommitOnTouchUp == s.skipCommitOnTouchUp && r.gestures == s.gestures
            && r.lastX == s.lastX && r.lastY == s.lastY
  {
  }

  /** A commit: through CommitChar, the commit, commit feedback, back to Idle. */
  function CommitVia(s: Session, c: Commit): (r: Session)
    ensures r.state == Idle && r.ctx == EmptyCtx
    ensures r.commits == s.commits + [c] && r.haptics == s.haptics + [CommitHaptic]
    ensures r.(state := s.state, ctx := s.ctx, commits := s.commits, haptics := s.haptics) == s
  {
    var s1 := Transition(s, CommitChar);
    Transition(s1.(commits := s1.commits + [c], haptics := s1.haptics + [CommitHaptic]), Idle)
  }

  function TouchDownStep(cfg: RouterConfig, s: Session, x: real, y: real, nowMs: int): (r: Session)
    ensures !r.skipCommitOnTouchUp
    ensures r.gestures == GestureState(true, x, y, nowMs)
    ensures r.commits == s.commits
    ensures r.lastX == x && r.lastY == y
    ensures r.state == (if cfg.layout.radiusForPoint(x, y) < DeadzoneRadius then Idle else Hovering)
  {
    var s1 := s.(lastX := x, lastY := y, skipCommitOnTouchUp := false, gestures := GestureState(true, x, y, nowMs));
    UpdateSelection(cfg, Transition(s1, Hovering), x, y)
  }

  /** The recogniser's move classification is computed and discarded. */
  function TouchMoveStep(cfg: RouterConfig, s: Session, x: real, y: real): (r: Session)
    ensures r.skipCommitOnTouchUp == s.skipCommitOnTouchUp && r.gestures == s.gestures
    ensures r.commits == s.commits
    ensures r.lastX == x && r.lastY == y
    ensures cfg.layout.radiusForPoint(x, y) >= DeadzoneRadius ==>
              r.state == (if s.state == Idle then Hovering else s.state)
  {
    var s1 := s.(lastX := x, lastY := y);
    var s2 := if s1.state == Idle then Transition(s1, Hovering) else s1;
    UpdateSelection(cfg, s2, x, y)
  }

  /** The key a no-swipe touch-up commits from the given selection. */
  function PickedAction(cfg: RouterConfig, s: Session): (a: KeyAction)
    ensures s.sector < 0 || cfg.layout.keyCount(s.sector) <= 0 ==> a == NoKey
    ensures s.sector >= 0 && cfg.layout.keyCount(s.sector) > 0 ==>
              a == KeyOptionToAction(cfg.layout.keyAt(s.sector,
                     ResolveKeyIndex(s.trackingLetter, s.key, cfg.layout.keyCount(s.sector))))
  {
    if s.sector < 0 then NoKey
    else
      var keyCount := cfg.layout.keyCount(s.sector);
      var index := ResolveKeyIndex(s.trackingLetter, s.key, keyCount);
      if keyCount > 0 then KeyOptionToAction(cfg.layout.keyAt(s.sector, index)) else NoKey
  }

  /** The swipe a touch-up at (x, y) and nowMs is classified as. */
  function UpSwipe(cfg: RouterConfig, s: Session, x: real, y: real, nowMs: int): SwipeDirection {
    UpResult(s.gestures, TouchSample(x, y, nowMs), cfg.thresholds)
  }

  function TouchUpStep(cfg: RouterConfig, s: Session, x: real, y: real, nowMs: int): Session
  {
    var swipe := UpSwipe(cfg, s, x, y, nowMs);
    var s0 := s.(gestures := s.gestures.(active := false));
    if s0.skipCommitOnTouchUp then ClearSelection(s0.(skipCommitOnTouchUp := false))
    else if swipe == Left then CommitVia(s0, ActionCommit("backspace"))
    else if swipe == Right then CommitVia(s0, ActionCommit("space"))
    else if swipe == Down then ClearSelection(s0.(haptics := s0.haptics + [CancelHaptic]))
    else
      var s1 := UpdateSelection(cfg, s0, x, y);
      var a := PickedAction(cfg, s1);
      if a == NoKey then Transition(s1, Idle) else CommitVia(s1, KeyActionCommit(a))
  }

  /** What a touch-up does: it always ends the gesture in Idle with the
      skip flag down and adds at most one commit. A pending skip swallows
      the touch-up and clears; otherwise a left swipe commits backspace, a
      right swipe space, a down swipe cancels, and no swipe commits the key
      picked from the updated selection, if any. */
  lemma TouchUpSpec(cfg: RouterConfig, s: Session, x: real, y: real, nowMs: int)
    ensures var r := TouchUpStep(cfg, s, x, y, nowMs);
            var swipe := UpSwipe(cfg, s, x, y, nowMs);
            var a := PickedAction(cfg, UpdateSelection(cfg, s, x, y));
            && r.state == Idle && !r.gestures.active && !r.skipCommitOnTouchUp
            && |s.commits| <= |r.commits| <= |s.commits| + 1 && r.commits[..|s.commits|] == s.commits
            && (s.skipCommitOnTouchUp ==> r.commits == s.commits && NoSelection(r))
            && (!s.skipCommitOnTouchUp && swipe == Left ==> r.commits == s.commits + [ActionCommit("backspace")])
            && (!s.skipCommitOnTouchUp && swipe == Right ==> r.commits == s.commits + [ActionCommit("space")])
            && (!s.skipCommitOnTouchUp && swipe == Down ==>
                  r.commits == s.commits && NoSelection(r) && r.haptics == s.haptics + [CancelHaptic])
            && (!s.skipCommitOnTouchUp && swipe == None ==>
                  r.commits == s.commits + (if a == NoKey then [] else [KeyActionCommit(a)]))
  {
    var s0 := s.(gestures := s.gestures.(active := false));
    if !s.skipCommitOnTouchUp && UpSwipe(cfg, s, x, y, nowMs) == None {
      UpdateSelectionSpec(cfg, s0, x, y);
      assert PickedAction(cfg, UpdateSelection(cfg, s0, x, y)) == PickedAction(cfg, UpdateSelection(cfg, s, x, y));
    }
  }

  function CommitCharStep(s: Session, text: string): (r: Session)
    ensures text == [] ==> r == s
    ensures text != [] ==>
              && r.state == Idle && r.skipCommitOnTouchUp
              && r.commits == s.commits + [CharCommitFor(text[0])]
              && r.haptics == s.haptics + [CommitHaptic]
              && r.sector == s.sector && r.key == s.key && r.trackingLetter == s.trackingLetter
              && r.notices == s.notices && r.gestures == s.gestures
  {
    if text == [] then s
    else CommitVia(s, CharCommitFor(text[0])).(skipCommitOnTouchUp := true)
  }

  function ActionStep(s: Session, name: string): (r: Session)
    ensures IsCommitAction(name) ==>
              r.state == Idle && r.commits == s.commits + [ActionCommit(name)] && r.haptics == s.haptics
    ensures name == "cancel" ==>
              NoSelection(r) && r.state == Idle && r.commits == s.commits && r.haptics == s.haptics + [CancelHaptic]
    ensures !IsCommitAction(name) && name != "cancel" ==> r == s
    ensures r.skipCommitOnTouchUp == s.skipCommitOnTouchUp && r.gestures == s.gestures
  {
    var s1 :=
      if IsCommitAction(name) then
        var c := Transition(s, CommitChar);
        Transition(c.(commits := c.commits + [ActionCommit(name)]), Idle)
      else s;
    if name == "cancel" then ClearSelection(s1.(haptics := s1.haptics + [CancelHaptic])) else s1
  }

  datatype Handled = Handled(session: Session, reply: Reply)

  function SelectionReplyOf(s: Session): Reply {
    SelectionReply(s.sector, s.key, StageOf(s.trackingLetter), s.sector < 0)
  }

  /** One request line, decoded, with the wall-clock time of its arrival. */
  function HandleMessage(cfg: RouterConfig, s: Session, m: Message, nowMs: int): (h: Handled)
    ensures m.InvalidJson? <==> h.reply == InvalidJsonReply
    ensures m.InvalidJson? ==> h.session == s
    ensures (m.TouchDown? || m.TouchMove?) <==> h.reply.SelectionReply?
    ensures h.reply.SelectionReply? ==>
              h.reply == SelectionReply(h.session.sector, h.session.key, StageOf(h.session.trackingLetter), h.session.sector < 0)
  {
    match m
    case InvalidJson => Handled(s, InvalidJsonReply)
    case TouchDown(x, y) =>
      var r := TouchDownStep(cfg, s, Clamp01(x), Clamp01(y), nowMs);
      Handled(r, SelectionReplyOf(r))
    case TouchMove(x, y) =>
      var r := TouchMoveStep(cfg, s, Clamp01(x), Clamp01(y));
      Handled(r, SelectionReplyOf(r))
    case TouchUp(x, y) => Handled(TouchUpStep(cfg, s, Clamp01(x), Clamp01(y), nowMs), AckReply)
    case CommitCharRequest(text) => Handled(CommitCharStep(s, text), AckReply)
    case ActionRequest(name) => Handled(ActionStep(s, name), AckReply)
    case UiShow => Handled(Transition(s, Idle), AckReply)
    case UiHide => Handled(ClearSelection(s), AckReply)
    case OtherType(_) => Handled(s, AckReply)
  }
}
