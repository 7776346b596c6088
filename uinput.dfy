/** The virtual uinput keyboard: character-to-key mapping, the event
    sequences that a key or a text produces, and the device object with its
    lazy, throttled initialisation and its once-only error log. System calls
    are replaced by their outcomes, given as parameters: the descriptor
    open returns and whether each ioctl succeeds (Syscalls), and the
    position in a call's event sequence at which a write first fails
    (failAt). The device records what reached the kernel (written), which
    descriptors were closed, and the errors it logged. */
module UInput {

  datatype Option<T> = None | Some(value: T)

  // Linux input-event codes (linux/input-event-codes.h).
  const EV_SYN: int := 0
  const EV_KEY: int := 1
  const SYN_REPORT: int := 0
  const KEY_ESC: int := 1
  const KEY_BACKSPACE: int := 14
  const KEY_TAB: int := 15
  const KEY_ENTER: int := 28
  const KEY_A: int := 30
  const KEY_S: int := 31
  const KEY_LEFTSHIFT: int := 42
  const KEY_Z: int := 44
  const KEY_COMMA: int := 51
  const KEY_DOT: int := 52
  const KEY_SLASH: int := 53
  const KEY_SPACE: int := 57

  /** The Linux key code of each letter, 'a' to 'z' (KEY_A, KEY_B, ... KEY_Z):
      the table a corrected charToKey uses. */
  const LetterKeys: seq<int> :=
    [30, 48, 46, 32, 18, 33, 34, 35, 23, 36, 37, 38, 50, 49, 24, 25, 16, 19, 31, 20, 22, 47, 17, 45, 21, 44]

  datatype KeyStroke = KeyStroke(key: int, shift: bool)

  /** One struct input_event: type and code are 16-bit, value 32-bit. */
  datatype InputEvent = InputEvent(evType: int, code: int, value: int)

  const SynReport: InputEvent := InputEvent(EV_SYN, SYN_REPORT, 0)

  function Press(code: int): InputEvent { InputEvent(EV_KEY, code, 1) }
  function Release(code: int): InputEvent { InputEvent(EV_KEY, code, 0) }

  predicate IsLower(c: char) { 'a' <= c <= 'z' }
  predicate IsUpper(c: char) { 'A' <= c <= 'Z' }

  function LetterIndex(c: char): (i: int)
    requires IsLower(c) || IsUpper(c)
    ensures 0 <= i < 26
  {
    if IsLower(c) then c as int - 'a' as int else c as int - 'A' as int
  }

  // ------------------------------------------------------------ characters

  /** The corrected charToKey: a letter by its Linux key from LetterKeys
      (shifted when upper case), space, '.', ',', '?' (shifted slash), and
      newline or carriage return as enter; every other character has none.
      The device does not use it: it types with CharToKeyAsWritten. */
  function CharToKey(c: char): Option<KeyStroke> {
    if IsLower(c) || IsUpper(c) then Some(KeyStroke(LetterKeys[LetterIndex(c)], IsUpper(c)))
    else if c == ' ' then Some(KeyStroke(KEY_SPACE, false))
    else if c == '.' then Some(KeyStroke(KEY_DOT, false))
    else if c == ',' then Some(KeyStroke(KEY_COMMA, false))
    else if c == '?' then Some(KeyStroke(KEY_SLASH, true))
    else if c == '\n' || c == '\r' then Some(KeyStroke(KEY_ENTER, false))
    else None
  }

  /** Both tables support exactly the letters and " .,?", newline and
      carriage return, and hold the shift for upper case and '?' only; they
      differ only in a letter's key. */
  lemma CharToKeySupported(c: char)
    ensures CharToKey(c).None? <==> !(IsLower(c) || IsUpper(c) || c in " .,?\n\r")
    ensures CharToKeyAsWritten(c).None? <==> CharToKey(c).None?
    ensures CharToKey(c).Some? ==> (CharToKey(c).value.shift <==> IsUpper(c) || c == '?')
    ensures CharToKey(c).Some? ==> CharToKeyAsWritten(c).value.shift == CharToKey(c).value.shift
    ensures (IsLower(c) || IsUpper(c)) ==> CharToKey(c).value.key == LetterKeys[LetterIndex(c)]
    ensures !(IsLower(c) || IsUpper(c)) ==> CharToKeyAsWritten(c) == CharToKey(c)
  {
  }

  /** charToKey as written, the table the device types with: a letter's key
      is KEY_A plus its alphabet index; every other character as CharToKey. */
  function CharToKeyAsWritten(c: char): (r: Option<KeyStroke>)
    ensures (IsLower(c) || IsUpper(c)) ==> r == Some(KeyStroke(KEY_A + LetterIndex(c), IsUpper(c)))
    ensures !(IsLower(c) || IsUpper(c)) ==> r == CharToKey(c)
  {
    if IsLower(c) || IsUpper(c) then Some(KeyStroke(KEY_A + LetterIndex(c), IsUpper(c)))
    else CharToKey(c)
  }

  /** As written, 'b' types the key of 's', and 'v' the key of ','. */
  lemma AsWrittenMistypes()
    ensures CharToKeyAsWritten('b') == Some(KeyStroke(KEY_S, false)) == CharToKey('s')
    ensures CharToKeyAsWritten('v') == CharToKeyAsWritten(',')
    ensures CharToKey('b') != CharToKeyAsWritten('b')
  {
  }

  /** As written, the only lower-case letter mapped to its own key is 'a'. */
  lemma AsWrittenRightOnlyForA(c: char)
    requires IsLower(c)
    ensures CharToKeyAsWritten(c) == CharToKey(c) <==> c == 'a'
  {
  }

  function IndexOf(s: seq<int>, x: int): (i: int)
    requires x in s
    ensures 0 <= i < |s| && s[i] == x
    ensures forall j :: 0 <= j < i ==> s[j] != x
  {
    if s[0] == x then 0 else 1 + IndexOf(s[1..], x)
  }

  lemma LetterKeysDistinct()
    ensures forall i, j :: 0 <= i < j < |LetterKeys| ==> LetterKeys[i] != LetterKeys[j]
  {
  }

  /** The character a stroke types: the inverse of CharToKey, with newline
      standing for both enter characters. */
  function KeyToChar(k: KeyStroke): (r: Option<char>)
  {
    if k.key in LetterKeys then
      var i := IndexOf(LetterKeys, k.key);
      Some(((if k.shift then 'A' else 'a') as int + i) as char)
    else if k == KeyStroke(KEY_SPACE, false) then Some(' ')
    else if k == KeyStroke(KEY_DOT, false) then Some('.')
    else if k == KeyStroke(KEY_COMMA, false) then Some(',')
    else if k == KeyStroke(KEY_SLASH, true) then Some('?')
    else if k == KeyStroke(KEY_ENTER, false) then Some('\n')
    else None
  }

  /** Every supported character is recovered from its stroke, except that a
      carriage return comes back as a newline. */
  lemma CharToKeyRoundTrip(c: char)
    requires CharToKey(c).Some?
    ensures KeyToChar(CharToKey(c).value) == Some(if c == '\r' then '\n' else c)
  {
    if IsLower(c) || IsUpper(c) {
      LetterCharRoundTrip(c);
    } else {
      CharToKeySupported(c);
      PunctuationRoundTrip(c);
    }
  }

  lemma LetterCharRoundTrip(c: char)
    requires IsLower(c) || IsUpper(c)
    ensures KeyToChar(CharToKey(c).value) == Some(c)
  {
    var i, u := LetterIndex(c), IsUpper(c);
    var k := KeyStroke(LetterKeys[i], u);
    assert CharToKey(c) == Some(k);
    LetterRoundTrip(i, u);
    assert ((if u then 'A' else 'a') as int + i) as char == c;
  }

  lemma PunctuationRoundTrip(c: char)
    requires c in " .,?\n\r"
    ensures KeyToChar(CharToKey(c).value) == Some(if c == '\r' then '\n' else c)
  {
    NotALetterKey(CharToKey(c).value.key);
  }

  /** No key outside 16..50, and not enter, is a letter key. */
  lemma NotALetterKey(k: int)
    requires k < 16 || k > 50 || k == KEY_ENTER
    ensures k !in LetterKeys
  {
    LetterKeysRange();
  }

  /** Every letter key lies in 16..50 and is not enter. */
  lemma LetterKeysRange()
    ensures forall i :: 0 <= i < |LetterKeys| ==> 16 <= LetterKeys[i] <= 50 && LetterKeys[i] != KEY_ENTER
  {
  }

  lemma LetterRoundTrip(i: int, shift: bool)
    requires 0 <= i < |LetterKeys|
    ensures KeyToChar(KeyStroke(LetterKeys[i], shift)) == Some(((if shift then 'A' else 'a') as int + i) as char)
  {
    LetterKeysDistinct();
    IndexOfDistinct(LetterKeys, i);
  }

  lemma IndexOfDistinct(s: seq<int>, i: int)
    requires 0 <= i < |s|
    requires forall p, q :: 0 <= p < q < |s| ==> s[p] != s[q]
    ensures IndexOf(s, s[i]) == i
  {
  }

  /** Every stroke that types something is the stroke of what it types. */
  lemma KeyToCharRoundTrip(k: KeyStroke)
    requires KeyToChar(k).Some?
    ensures CharToKey(KeyToChar(k).value) == Some(k)
  {
    if k.key in LetterKeys {
      var i := IndexOf(LetterKeys, k.key);
      var c := ((if k.shift then 'A' else 'a') as int + i) as char;
      assert LetterIndex(c) == i;
    }
  }

  /** An upper-case letter is its lower-case key with shift held. */
  lemma UpperIsShiftedLower(c: char)
    requires IsLower(c)
    ensures var u := (c as int - 32) as char;
            CharToKey(u) == Some(KeyStroke(CharToKey(c).value.key, true))
  {
  }

  // --------------------------------------------------------------- key bits

  /** The keys registered besides the letters. */
  const ExtraKeys: set<int> := {KEY_SPACE, KEY_ENTER, KEY_BACKSPACE, KEY_DOT, KEY_COMMA, KEY_SLASH, KEY_LEFTSHIFT, KEY_TAB, KEY_ESC}

  /** The corrected registration: every letter's Linux key, and the extras. */
  function KeyBits(): (bits: set<int>)
    ensures forall i :: 0 <= i < |LetterKeys| ==> LetterKeys[i] in bits
    ensures ExtraKeys <= bits
  {
    (set i | 0 <= i < |LetterKeys| :: LetterKeys[i]) + ExtraKeys
  }

  /** The codes lo, lo + 1, ..., hi. */
  function CodeRange(lo: int, hi: int): (r: seq<int>)
    ensures |r| == if hi >= lo then hi - lo + 1 else 0
    ensures forall i :: 0 <= i < |r| ==> r[i] == lo + i
  {
    seq(if hi >= lo then hi - lo + 1 else 0, i => lo + i)
  }

  lemma CodeRangeMembers(lo: int, hi: int)
    ensures forall k :: k in CodeRange(lo, hi) <==> lo <= k <= hi
  {
    forall k | lo <= k <= hi
      ensures k in CodeRange(lo, hi)
    {
      assert CodeRange(lo, hi)[k - lo] == k;
    }
  }

  function RangeSet(lo: int, hi: int): set<int> {
    set k | k in CodeRange(lo, hi)
  }

  /** The key codes the device registers as written: the range KEY_A..KEY_Z,
      and the extras. */
  function KeyBitsAsWritten(): (bits: set<int>)
    ensures forall k :: k in bits <==> (KEY_A <= k <= KEY_Z || k in ExtraKeys)
  {
    CodeRangeMembers(KEY_A, KEY_Z);
    RangeSet(KEY_A, KEY_Z) + ExtraKeys
  }

  /** As written, 'q' and 'b' (and nine letters more) are never registered,
      whichever table types them; and 'p' as written sends an unregistered key. */
  lemma AsWrittenLettersUnregistered()
    ensures CharToKey('q').value.key !in KeyBitsAsWritten()
    ensures CharToKey('b').value.key !in KeyBitsAsWritten()
    ensures CharToKeyAsWritten('p').value.key !in KeyBitsAsWritten()
  {
  }

  /** With the corrected table and the corrected registration, every stroke
      uses registered keys only. */
  lemma StrokesRegistered(c: char)
    requires CharToKey(c).Some?
    ensures CharToKey(c).value.key in KeyBits()
    ensures CharToKey(c).value.shift ==> KEY_LEFTSHIFT in KeyBits()
  {
  }

  // --------------------------------------------------------- event streams

  /** The events of one stroke: shift down, key down, key up, shift up, each
      followed by a sync report. */
  function StrokeEvents(k: KeyStroke): seq<InputEvent> {
    (if k.shift then [Press(KEY_LEFTSHIFT), SynReport] else [])
    + [Press(k.key), SynReport, Release(k.key), SynReport]
    + (if k.shift then [Release(KEY_LEFTSHIFT), SynReport] else [])
  }

  /** The events sendText emits for one character, with the table as written. */
  function CharEvents(c: char): seq<InputEvent> {
    match CharToKeyAsWritten(c)
    case None => []
    case Some(k) => StrokeEvents(k)
  }

  /** The events a text produces; unsupported characters produce none. */
  function TextEvents(text: string): seq<InputEvent>
    decreases |text|
  {
    if text == [] then [] else TextEvents(text[..|text| - 1]) + CharEvents(text[|text| - 1])
  }

  /** One more character appends its events. */
  lemma TextEventsSnoc(text: string, i: int)
    requires 0 <= i < |text|
    ensures TextEvents(text[..i + 1]) == TextEvents(text[..i]) + CharEvents(text[i])
  {
    assert text[..i + 1][..i] == text[..i];
    assert text[..i + 1][i] == text[i];
  }

  /** The events of a concatenation are the events of its parts. */
  lemma {:induction false} TextEventsAppend(a: string, b: string)
    ensures TextEvents(a + b) == TextEvents(a) + TextEvents(b)
    decreases |b|
  {
    if b == [] {
      assert a + b == a;
      assert TextEvents(a) + [] == TextEvents(a);
    } else {
      var init, c := b[..|b| - 1], b[|b| - 1];
      TextEventsAppend(a, init);
      SplitLast(a, b);
      TextEventsLast(a + b, a + init, c);
      TextEventsLast(b, init, c);
      Regroup(TextEvents(a + b), TextEvents(a + init), TextEvents(a), TextEvents(init), TextEvents(b), CharEvents(c));
    }
  }

  lemma SplitLast(a: string, b: string)
    requires b != []
    ensures b == b[..|b| - 1] + [b[|b| - 1]]
    ensures a + b == (a + b[..|b| - 1]) + [b[|b| - 1]]
  {
  }

  lemma TextEventsLast(t: string, front: string, c: char)
    requires t == front + [c]
    ensures TextEvents(t) == TextEvents(front) + CharEvents(c)
  {
    assert t[..|t| - 1] == front;
  }

  lemma Regroup(whole: seq<InputEvent>, front: seq<InputEvent>, pa: seq<InputEvent>, pi: seq<InputEvent>, pb: seq<InputEvent>, last: seq<InputEvent>)
    requires whole == front + last && front == pa + pi && pb == pi + last
    ensures whole == pa + pb
  {
  }

  /** An unsupported character is skipped: the text around it types the same. */
  lemma UnsupportedSkipped(a: string, c: char, b: string)
    requires CharToKeyAsWritten(c).None?
    ensures TextEvents(a + [c] + b) == TextEvents(a + b)
  {
    TextEventsAppend(a + [c], b);
    TextEventsLast(a + [c], a, c);
    TextEventsAppend(a, b);
    assert CharEvents(c) == [];
    assert TextEvents(a) + [] == TextEvents(a);
  }

  /** The events sendKey produces; the key code is truncated to 16 bits. */
  function KeyEvents(code: int, pressRelease: bool): seq<InputEvent> {
    var c := code % 0x1_0000;
    [Press(c), SynReport] + (if pressRelease then [Release(c), SynReport] else [])
  }

  /** Every key event is followed by a sync report. */
  predicate Synced(evs: seq<InputEvent>)
    decreases |evs|
  {
    evs == [] || (|evs| >= 2 && evs[0].evType == EV_KEY && evs[1] == SynReport && Synced(evs[2..]))
  }

  lemma {:induction false} SyncedAppend(a: seq<InputEvent>, b: seq<InputEvent>)
    requires Synced(a) && Synced(b)
    ensures Synced(a + b)
    decreases |a|
  {
    if a == [] {
      assert a + b == b;
    } else {
      assert (a + b)[0] == a[0] && (a + b)[1] == a[1];
      assert (a + b)[2..] == a[2..] + b;
      SyncedAppend(a[2..], b);
    }
  }

  /** Net presses of a key code: presses minus releases. */
  function Held(evs: seq<InputEvent>, code: int): int {
    if evs == [] then 0
    else
      var e := evs[0];
      (if e.evType == EV_KEY && e.code == code then (if e.value == 1 then 1 else if e.value == 0 then -1 else 0) else 0)
      + Held(evs[1..], code)
  }

  lemma {:induction false} HeldAppend(a: seq<InputEvent>, b: seq<InputEvent>, code: int)
    ensures Held(a + b, code) == Held(a, code) + Held(b, code)
    decreases |a|
  {
    if a == [] {
      assert a + b == b;
    } else {
      assert (a + b)[0] == a[0];
      assert (a + b)[1..] == a[1..] + b;
      HeldAppend(a[1..], b, code);
    }
  }

  lemma StrokeWellFormed(k: KeyStroke, code: int)
    ensures Synced(StrokeEvents(k))
    ensures Held(StrokeEvents(k), code) == 0
  {
    var core := [Press(k.key), SynReport, Release(k.key), SynReport];
    assert Synced(core[2..]);
    HeldAppend([Press(k.key), SynReport], [Release(k.key), SynReport], code);
    assert core == [Press(k.key), SynReport] + [Release(k.key), SynReport];
    if k.shift {
      var down := [Press(KEY_LEFTSHIFT), SynReport];
      var up := [Release(KEY_LEFTSHIFT), SynReport];
      assert Synced(down[2..]) && Synced(up[2..]);
      SyncedAppend(down, core);
      SyncedAppend(down + core, up);
      HeldAppend(down, core, code);
      HeldAppend(down + core, up, code);
    } else {
      assert StrokeEvents(k) == core;
    }
  }

  /** A text's events are key events each followed by a sync, and release
      every key they press: no key, shift included, is left held. */
  lemma {:induction false} TextWellFormed(text: string, code: int)
    ensures Synced(TextEvents(text))
    ensures Held(TextEvents(text), code) == 0
    decreases |text|
  {
    if text != [] {
      var init := text[..|text| - 1];
      TextWellFormed(init, code);
      match CharToKeyAsWritten(text[|text| - 1])
      case None =>
        assert CharEvents(text[|text| - 1]) == [];
        assert TextEvents(text) == TextEvents(init) + [] == TextEvents(init);
      case Some(k) =>
        StrokeWellFormed(k, code);
        SyncedAppend(TextEvents(init), StrokeEvents(k));
        HeldAppend(TextEvents(init), StrokeEvents(k), code);
    }
  }

  predicate AllRegistered(evs: seq<InputEvent>, bits: set<int>) {
    forall i :: 0 <= i < |evs| && evs[i].evType == EV_KEY ==> evs[i].code in bits
  }

  lemma AllRegisteredAppend(a: seq<InputEvent>, b: seq<InputEvent>, bits: set<int>)
    ensures AllRegistered(a + b, bits) <==> AllRegistered(a, bits) && AllRegistered(b, bits)
  {
    if AllRegistered(a, bits) && AllRegistered(b, bits) {
      forall i | 0 <= i < |a + b| && (a + b)[i].evType == EV_KEY
        ensures (a + b)[i].code in bits
      {
        if i >= |a| {
          assert (a + b)[i] == b[i - |a|];
        }
      }
    }
    if AllRegistered(a + b, bits) {
      forall i | 0 <= i < |a| && a[i].evType == EV_KEY
        ensures a[i].code in bits
      {
        assert (a + b)[i] == a[i];
      }
      forall i | 0 <= i < |b| && b[i].evType == EV_KEY
        ensures b[i].code in bits
      {
        assert (a + b)[|a| + i] == b[i];
      }
    }
  }

  /** A stroke's events use registered keys exactly when its key is
      registered, and the shift when it holds the shift. */
  lemma StrokeCodes(k: KeyStroke, bits: set<int>)
    ensures AllRegistered(StrokeEvents(k), bits) <==> k.key in bits && (k.shift ==> KEY_LEFTSHIFT in bits)
  {
    var evs := StrokeEvents(k);
    if k.shift {
      assert evs == [Press(KEY_LEFTSHIFT), SynReport, Press(k.key), SynReport, Release(k.key), SynReport, Release(KEY_LEFTSHIFT), SynReport];
      assert evs[0] == Press(KEY_LEFTSHIFT) && evs[2] == Press(k.key);
    } else {
      assert evs == [Press(k.key), SynReport, Release(k.key), SynReport];
      assert evs[0] == Press(k.key);
    }
  }

  /** Whether a character as written sends registered keys only: every
      non-letter does, and a letter does when KEY_A plus its index is
      registered, for 'a'..'o' inside KEY_A..KEY_Z and for 'v', 'w', 'x',
      whose codes are those of comma, dot and slash. */
  predicate RegisteredAsWritten(c: char) {
    !(IsLower(c) || IsUpper(c)) || LetterIndex(c) <= 14 || 21 <= LetterIndex(c) <= 23
  }

  lemma CharRegistered(c: char)
    ensures AllRegistered(CharEvents(c), KeyBitsAsWritten()) <==> RegisteredAsWritten(c)
  {
    var bits := KeyBitsAsWritten();
    match CharToKeyAsWritten(c)
    case None =>
    case Some(k) =>
      StrokeCodes(k, bits);
      assert KEY_LEFTSHIFT in bits;
  }

  /** As written, a text sends only registered keys exactly when each of
      its letters is one of 'a'..'o', 'v', 'w', 'x' (either case). */
  lemma {:induction false} TextRegistered(text: string)
    ensures AllRegistered(TextEvents(text), KeyBitsAsWritten())
            <==> forall i :: 0 <= i < |text| ==> RegisteredAsWritten(text[i])
    decreases |text|
  {
    if text != [] {
      var init, last := text[..|text| - 1], text[|text| - 1];
      TextRegistered(init);
      CharRegistered(last);
      AllRegisteredAppend(TextEvents(init), CharEvents(last), KeyBitsAsWritten());
      EveryCharSnoc(text, init);
    }
  }

  lemma EveryCharSnoc(text: string, init: string)
    requires text != [] && init == text[..|text| - 1]
    ensures (forall i :: 0 <= i < |text| ==> RegisteredAsWritten(text[i]))
            <==> (forall i :: 0 <= i < |init| ==> RegisteredAsWritten(init[i])) && RegisteredAsWritten(text[|text| - 1])
  {
    assert forall i :: 0 <= i < |init| ==> init[i] == text[i];
  }

  /** A press-only sendKey leaves exactly its key held; a press-release none. */
  lemma KeyEventsHeld(code: int, pressRelease: bool)
    ensures Synced(KeyEvents(code, pressRelease))
    ensures Held(KeyEvents(code, pressRelease), code % 0x1_0000) == (if pressRelease then 0 else 1)
  {
    var c := code % 0x1_0000;
    var down := [Press(c), SynReport];
    assert Synced(down[2..]);
    if pressRelease {
      var up := [Release(c), SynReport];
      assert Synced(up[2..]);
      SyncedAppend(down, up);
      HeldAppend(down, up, c);
    } else {
      assert down[1..] == [SynReport] && [SynReport][1..] == [];
      assert Held([SynReport], c) == 0;
      assert Held(down, c) == 1;
      assert KeyEvents(code, pressRelease) == down;
    }
  }

  // ------------------------------------------------------------ the device

  datatype Failure = OpenFailed | EventBitsFailed | SetupFailed | CreateFailed | WriteFailed

  /** The outcomes of the system calls of one initialisation attempt:
      the descriptor open returns (negative on failure), and whether the
      event-bit, setup and create ioctls succeed. */
  datatype Syscalls = Syscalls(openFd: int, eventBitsOk: bool, setupOk: bool, createOk: bool)

  datatype Device = Device(
    fd: int,
    available: bool,
    errorLogged: bool,
    lastInitAttemptMs: int,
    keyBits: set<int>,
    written: seq<InputEvent>,
    closed: seq<int>,
    errors: seq<Failure>)

  const InitialDevice: Device := Device(-1, false, false, 0, {}, [], [], [])

  const RetryCooldownMs: int := 2000

  /** Available exactly while a descriptor is open, with the keys of the
      code as written registered; the error log holds at most its one entry. */
  predicate Valid(d: Device) {
    && (d.available <==> d.fd >= 0)
    && (d.available ==> d.keyBits == KeyBitsAsWritten())
    && |d.errors| == (if d.errorLogged then 1 else 0)
  }

  /** Logs the first failure only, closes the descriptor, marks unavailable. */
  function AfterLogUnavailable(d: Device, f: Failure): (r: Device)
    ensures r.errorLogged && !r.available
    ensures r.fd == if d.fd >= 0 then -1 else d.fd
    ensures r.errors == if d.errorLogged then d.errors else d.errors + [f]
    ensures r.closed == d.closed + (if d.fd >= 0 then [d.fd] else [])
    ensures r.written == d.written && r.lastInitAttemptMs == d.lastInitAttemptMs
  {
    var d1 := if d.errorLogged then d else d.(errors := d.errors + [f], errorLogged := true);
    var d2 := if d1.fd >= 0 then d1.(closed := d1.closed + [d1.fd], fd := -1) else d1;
    d2.(available := false)
  }

  datatype Init = Init(device: Device, ok: bool)

  /** ensureInitialized: nothing to do when available; no attempt within
      the cooldown of the last one; otherwise close any old descriptor,
      open, set the event bits, register the keys, set up and create. */
  function EnsureInit(d: Device, nowMs: int, sys: Syscalls): Init {
    if d.available then Init(d, true)
    else if nowMs - d.lastInitAttemptMs < RetryCooldownMs then Init(d, false)
    else
      var d1 := d.(lastInitAttemptMs := nowMs);
      var d2 := if d1.fd >= 0 then d1.(closed := d1.closed + [d1.fd], fd := -1) else d1;
      var d3 := d2.(fd := sys.openFd, keyBits := {});
      if sys.openFd < 0 then Init(AfterLogUnavailable(d3, OpenFailed), false)
      else if !sys.eventBitsOk then Init(AfterLogUnavailable(d3, EventBitsFailed), false)
      else
        var d4 := d3.(keyBits := KeyBitsAsWritten());
        if !sys.setupOk then Init(AfterLogUnavailable(d4, SetupFailed), false)
        else if !sys.createOk then Init(AfterLogUnavailable(d4, CreateFailed), false)
        else Init(d4.(available := true), true)
  }

  /** What an initialisation attempt does: nothing when available; nothing
      within the cooldown; otherwise a fresh attempt, stamped with nowMs,
      that succeeds exactly when every system call does. Validity is kept,
      and success means availability. */
  lemma EnsureInitCases(d: Device, nowMs: int, sys: Syscalls)
    ensures var r := EnsureInit(d, nowMs, sys);
            && (d.available ==> r == Init(d, true))
            && (!d.available && nowMs - d.lastInitAttemptMs < RetryCooldownMs ==> r == Init(d, false))
            && (!d.available && nowMs - d.lastInitAttemptMs >= RetryCooldownMs ==>
                  && r.device.lastInitAttemptMs == nowMs
                  && r.device.written == d.written
                  && (r.ok <==> sys.openFd >= 0 && sys.eventBitsOk && sys.setupOk && sys.createOk))
            && (Valid(d) ==> Valid(r.device) && (r.ok <==> r.device.available))
  {
  }

  /** A failed attempt keeps every further attempt off for the cooldown:
      within 2000 ms the device is left as the failure left it. */
  lemma FailedInitThrottlesRetries(d: Device, t1: int, s1: Syscalls, t2: int, s2: Syscalls)
    requires Valid(d) && !d.available && t1 - d.lastInitAttemptMs >= RetryCooldownMs
    requires !EnsureInit(d, t1, s1).ok
    requires t2 - t1 < RetryCooldownMs
    ensures EnsureInit(EnsureInit(d, t1, s1).device, t2, s2) == Init(EnsureInit(d, t1, s1).device, false)
  {
  }

  /** However many attempts fail, only the first failure of the device's
      life is logged. */
  lemma OnlyFirstErrorLogged(d: Device, t1: int, s1: Syscalls, t2: int, s2: Syscalls)
    requires Valid(d)
    ensures var d1 := EnsureInit(d, t1, s1).device;
            var d2 := EnsureInit(d1, t2, s2).device;
            |d2.errors| <= 1 && (d1.errorLogged ==> d2.errors == d1.errors)
  {
  }

  /** emitEvent: nothing without a descriptor; a failed write logs and closes. */
  function Emit(d: Device, e: InputEvent, writeOk: bool): (r: Device)
    ensures d.fd < 0 ==> r == d
    ensures d.fd >= 0 && writeOk ==> r == d.(written := d.written + [e])
    ensures d.fd >= 0 && !writeOk ==> r == AfterLogUnavailable(d, WriteFailed)
  {
    if d.fd < 0 then d
    else if writeOk then d.(written := d.written + [e])
    else AfterLogUnavailable(d, WriteFailed)
  }

  /** Whether a write fails at a position in [pos, pos + n). */
  predicate FailsWithin(failAt: Option<nat>, pos: nat, n: nat) {
    failAt.Some? && pos <= failAt.value < pos + n
  }

  /** The events that reach the kernel when those of evs sit at positions
      pos, pos + 1, ... and the write at failAt fails: those before it. */
  function Delivered(evs: seq<InputEvent>, pos: nat, failAt: Option<nat>): (r: seq<InputEvent>)
    ensures !FailsWithin(failAt, pos, |evs|) ==> r == evs
    ensures FailsWithin(failAt, pos, |evs|) ==> r == evs[..failAt.value - pos]
  {
    if FailsWithin(failAt, pos, |evs|) then evs[..failAt.value - pos] else evs
  }

  /** The events of evs emitted in order; each write fails only at failAt. */
  function EmitAll(d: Device, evs: seq<InputEvent>, pos: nat, failAt: Option<nat>): Device
    decreases |evs|
  {
    if evs == [] then d
    else EmitAll(Emit(d, evs[0], failAt != Some(pos)), evs[1..], pos + 1, failAt)
  }

  /** Emitting without a descriptor does nothing. */
  lemma {:induction false} EmitAllClosed(d: Device, evs: seq<InputEvent>, pos: nat, failAt: Option<nat>)
    requires d.fd < 0
    ensures EmitAll(d, evs, pos, failAt) == d
    decreases |evs|
  {
    if evs != [] {
      EmitAllClosed(d, evs[1..], pos + 1, failAt);
    }
  }

  /** Without a failing write, every event reaches the kernel and nothing
      else changes. */
  lemma {:induction false} EmitAllWrites(d: Device, evs: seq<InputEvent>, pos: nat, failAt: Option<nat>)
    requires d.fd >= 0 && !FailsWithin(failAt, pos, |evs|)
    ensures EmitAll(d, evs, pos, failAt) == d.(written := d.written + evs)
    decreases |evs|
  {
    if evs == [] {
      assert d.written + evs == d.written;
    } else {
      var d1 := d.(written := d.written + [evs[0]]);
      assert Emit(d, evs[0], failAt != Some(pos)) == d1;
      EmitAllWrites(d1, evs[1..], pos + 1, failAt);
      assert d.written + [evs[0]] + evs[1..] == d.written + evs;
    }
  }

  /** With an open descriptor, what reaches the kernel is the events before
      the first failed write; the failure is logged once and closes the
      descriptor, and without one the device stays as it was. */
  lemma EmitAllDelivers(d: Device, evs: seq<InputEvent>, pos: nat, failAt: Option<nat>)
    requires Valid(d) && d.fd >= 0
    ensures var r := EmitAll(d, evs, pos, failAt);
            && Valid(r)
            && r.written == d.written + Delivered(evs, pos, failAt)
            && (!FailsWithin(failAt, pos, |evs|) ==> r == d.(written := r.written))
            && (FailsWithin(failAt, pos, |evs|) ==>
                  r == AfterLogUnavailable(d, WriteFailed).(written := r.written))
  {
    if !FailsWithin(failAt, pos, |evs|) {
      EmitAllWrites(d, evs, pos, failAt);
    } else {
      var w := d.written + evs[..failAt.value - pos];
      EmitAllFails(d, evs, pos, failAt);
      SameLogAfterWrite(d, w);
    }
  }

  /** A failing write at failAt: the events before it are written, then
      the failure is logged and the descriptor closed. */
  lemma EmitAllFails(d: Device, evs: seq<InputEvent>, pos: nat, failAt: Option<nat>)
    requires d.fd >= 0 && FailsWithin(failAt, pos, |evs|)
    ensures EmitAll(d, evs, pos, failAt)
            == AfterLogUnavailable(d.(written := d.written + evs[..failAt.value - pos]), WriteFailed)
  {
    var k := failAt.value - pos;
    var before, after := evs[..k], evs[k..];
    assert evs == before + after;
    EmitAllAppend(d, before, after, pos, failAt);
    EmitAllWrites(d, before, pos, failAt);
    EmitAllFailsFirst(d.(written := d.written + before), after, pos + k, failAt);
  }

  /** The first write failing: logged, closed, and nothing more written. */
  lemma EmitAllFailsFirst(d: Device, evs: seq<InputEvent>, pos: nat, failAt: Option<nat>)
    requires d.fd >= 0 && failAt == Some(pos) && evs != []
    ensures EmitAll(d, evs, pos, failAt) == AfterLogUnavailable(d, WriteFailed)
  {
    var d1 := AfterLogUnavailable(d, WriteFailed);
    assert Emit(d, evs[0], false) == d1;
    EmitAllClosed(d1, evs[1..], pos + 1, failAt);
  }

  /** Logging a failure does not depend on what was written before it. */
  lemma SameLogAfterWrite(d: Device, w: seq<InputEvent>)
    ensures AfterLogUnavailable(d.(written := w), WriteFailed).(written := d.written) == AfterLogUnavailable(d, WriteFailed)
  {
  }

  lemma {:induction false} EmitAllAppend(d: Device, a: seq<InputEvent>, b: seq<InputEvent>, pos: nat, failAt: Option<nat>)
    ensures EmitAll(d, a + b, pos, failAt) == EmitAll(EmitAll(d, a, pos, failAt), b, pos + |a|, failAt)
    decreases |a|
  {
    if a == [] {
      assert a + b == b;
    } else {
      assert (a + b)[1..] == a[1..] + b;
      EmitAllAppend(Emit(d, a[0], failAt != Some(pos)), a[1..], b, pos + 1, failAt);
    }
  }

  /** Emitting one more character's events continues the text's stream. */
  lemma EmitTextStep(start: Device, text: string, i: int, mid: Device, next: Device, failAt: Option<nat>)
    requires 0 <= i < |text|
    requires mid == EmitAll(start, TextEvents(text[..i]), 0, failAt)
    requires next == EmitAll(mid, CharEvents(text[i]), |TextEvents(text[..i])|, failAt)
    ensures next == EmitAll(start, TextEvents(text[..i + 1]), 0, failAt)
    ensures |TextEvents(text[..i + 1])| == |TextEvents(text[..i])| + |CharEvents(text[i])|
  {
    TextEventsSnoc(text, i);
    EmitAllSnoc(start, TextEvents(text[..i]), CharEvents(text[i]), mid, next, failAt);
  }

  lemma EmitAllSnoc(start: Device, a: seq<InputEvent>, b: seq<InputEvent>, mid: Device, next: Device, failAt: Option<nat>)
    requires mid == EmitAll(start, a, 0, failAt)
    requires next == EmitAll(mid, b, |a|, failAt)
    ensures next == EmitAll(start, a + b, 0, failAt)
  {
    EmitAllAppend(start, a, b, 0, failAt);
  }

  function AfterSendKey(d: Device, code: int, pressRelease: bool, nowMs: int, sys: Syscalls, failAt: Option<nat>): Device {
    var i := EnsureInit(d, nowMs, sys);
    if !i.ok then i.device else EmitAll(i.device, KeyEvents(code, pressRelease), 0, failAt)
  }

  function AfterSendText(d: Device, text: string, nowMs: int, sys: Syscalls, failAt: Option<nat>): Device {
    var i := EnsureInit(d, nowMs, sys);
    if !i.ok then i.device else EmitAll(i.device, TextEvents(text), 0, failAt)
  }

  /** sendText delivers the text's events when the device is (or becomes)
      available, up to the first failed write, and nothing otherwise. */
  lemma SendTextDelivers(d: Device, text: string, nowMs: int, sys: Syscalls, failAt: Option<nat>)
    requires Valid(d)
    ensures var r := AfterSendText(d, text, nowMs, sys, failAt);
            var ok := EnsureInit(d, nowMs, sys).ok;
            && Valid(r)
            && r.written == d.written + (if ok then Delivered(TextEvents(text), 0, failAt) else [])
            && (ok && !FailsWithin(failAt, 0, |TextEvents(text)|) ==> r.available)
  {
    var i := EnsureInit(d, nowMs, sys);
    if i.ok {
      EmitAllDelivers(i.device, TextEvents(text), 0, failAt);
    }
  }

  /** sendKey delivers its press (and release) the same way. */
  lemma SendKeyDelivers(d: Device, code: int, pressRelease: bool, nowMs: int, sys: Syscalls, failAt: Option<nat>)
    requires Valid(d)
    ensures var r := AfterSendKey(d, code, pressRelease, nowMs, sys, failAt);
            var ok := EnsureInit(d, nowMs, sys).ok;
            && Valid(r)
            && r.written == d.written + (if ok then Delivered(KeyEvents(code, pressRelease), 0, failAt) else [])
  {
    var i := EnsureInit(d, nowMs, sys);
    if i.ok {
      EmitAllDelivers(i.device, KeyEvents(code, pressRelease), 0, failAt);
    }
  }

  /** The keyboard object; every method follows the function of the same name. */
  class UInputKeyboard {
    var fd: int
    var available: bool
    var errorLogged: bool
    var lastInitAttemptMs: int
    var keyBits: set<int>
    var written: seq<InputEvent>
    var closed: seq<int>
    var errors: seq<Failure>

    function State(): Device
      reads this
    {
      Device(fd, available, errorLogged, lastInitAttemptMs, keyBits, written, closed, errors)
    }

    constructor ()
      ensures State() == InitialDevice
    {
      fd, available, errorLogged, lastInitAttemptMs := -1, false, false, 0;
      keyBits, written, closed, errors := {}, [], [], [];
    }

    function Available(): (r: bool)
      reads this
      ensures r == State().available
    {
      available
    }

    method LogUnavailable(f: Failure)
      modifies this
      ensures State() == AfterLogUnavailable(old(State()), f)
    {
      if !errorLogged {
        errors := errors + [f];
        errorLogged := true;
      }
      if fd >= 0 {
        closed := closed + [fd];
        fd := -1;
      }
      available := false;
    }

    method EnsureInitialized(nowMs: int, sys: Syscalls) returns (ok: bool)
      modifies this
      ensures Init(State(), ok) == EnsureInit(old(State()), nowMs, sys)
    {
      if available {
        return true;
      }
      if nowMs - lastInitAttemptMs < RetryCooldownMs {
        return false;
      }
      lastInitAttemptMs := nowMs;
      if fd >= 0 {
        closed := closed + [fd];
        fd := -1;
      }
      fd := sys.openFd;
      keyBits := {};
      if fd < 0 {
        LogUnavailable(OpenFailed);
        return false;
      }
      if !sys.eventBitsOk {
        LogUnavailable(EventBitsFailed);
        return false;
      }
      RegisterKeys();
      assert keyBits == KeyBitsAsWritten();
      if !sys.setupOk {
        LogUnavailable(SetupFailed);
        return false;
      }
      if !sys.createOk {
        LogUnavailable(CreateFailed);
        return false;
      }
      available := true;
      return true;
    }

    /** The UI_SET_KEYBIT calls: the codes KEY_A to KEY_Z, then the extra keys. */
    method RegisterKeys()
      modifies this
      ensures State() == old(State()).(keyBits := old(keyBits) + KeyBitsAsWritten())
    {
      var code := KEY_A;
      while code <= KEY_Z
        invariant KEY_A <= code <= KEY_Z + 1
        invariant keyBits == old(keyBits) + RangeSet(KEY_A, code - 1)
        invariant State() == old(State()).(keyBits := keyBits)
      {
        CodeRangeMembers(KEY_A, code - 1);
        CodeRangeMembers(KEY_A, code);
        keyBits := keyBits + {code};
        code := code + 1;
      }
      keyBits := keyBits + ExtraKeys;
    }

    method EmitEvent(evType: int, code: int, value: int, writeOk: bool)
      modifies this
      ensures State() == Emit(old(State()), InputEvent(evType, code, value), writeOk)
    {
      if fd < 0 {
        return;
      }
      if writeOk {
        written := written + [InputEvent(evType, code, value)];
      } else {
        LogUnavailable(WriteFailed);
      }
    }

    /** Emits evs in order; the event at position pos + j is written
        successfully unless pos + j is failAt. */
    method EmitEvents(evs: seq<InputEvent>, pos: nat, failAt: Option<nat>)
      modifies this
      ensures State() == EmitAll(old(State()), evs, pos, failAt)
    {
      var j := 0;
      while j < |evs|
        invariant 0 <= j <= |evs|
        invariant EmitAll(State(), evs[j..], pos + j, failAt) == EmitAll(old(State()), evs, pos, failAt)
      {
        assert evs[j..][1..] == evs[j + 1..];
        EmitEvent(evs[j].evType, evs[j].code, evs[j].value, failAt != Some(pos + j));
        j := j + 1;
      }
    }

    method SendKey(linuxKeyCode: int, pressRelease: bool, nowMs: int, sys: Syscalls, failAt: Option<nat>)
      modifies this
      ensures State() == AfterSendKey(old(State()), linuxKeyCode, pressRelease, nowMs, sys, failAt)
    {
      var ok := EnsureInitialized(nowMs, sys);
      if !ok {
        return;
      }
      EmitEvents(KeyEvents(linuxKeyCode, pressRelease), 0, failAt);
    }

    method SendText(text: string, nowMs: int, sys: Syscalls, failAt: Option<nat>)
      modifies this
      ensures State() == AfterSendText(old(State()), text, nowMs, sys, failAt)
    {
      var ok := EnsureInitialized(nowMs, sys);
      if !ok {
        return;
      }
      TypeText(text, failAt);
    }

    /** One character of sendText: its stroke's events, or none when the
        character is unsupported. Returns the position after them. */
    method TypeChar(c: char, pos: nat, failAt: Option<nat>) returns (next: nat)
      modifies this
      ensures State() == EmitAll(old(State()), CharEvents(c), pos, failAt)
      ensures next == pos + |CharEvents(c)|
    {
      var stroke := CharToKeyAsWritten(c);
      if stroke.None? {
        return pos;
      }
      EmitEvents(StrokeEvents(stroke.value), pos, failAt);
      next := pos + |StrokeEvents(stroke.value)|;
    }

    /** The loop of sendText over the characters of text. */
    method TypeText(text: string, failAt: Option<nat>)
      modifies this
      ensures State() == EmitAll(old(State()), TextEvents(text), 0, failAt)
    {
      ghost var start := State();
      var pos: nat := 0;
      var i := 0;
      while i < |text|
        invariant 0 <= i <= |text|
        invariant State() == EmitAll(start, TextEvents(text[..i]), 0, failAt)
        invariant pos == |TextEvents(text[..i])|
      {
        ghost var mid := State();
        pos := TypeChar(text[i], pos, failAt);
        EmitTextStep(start, text, i, mid, State(), failAt);
        i := i + 1;
      }
      assert text[..i] == text;
    }

    /** The destructor: destroy the device and close its descriptor. */
    method Destroy()
      modifies this
      ensures old(fd) >= 0 ==> State() == old(State()).(closed := old(closed) + [old(fd)])
      ensures old(fd) < 0 ==> State() == old(State())
    {
      if fd >= 0 {
        closed := closed + [fd];
      }
    }
  }
}
