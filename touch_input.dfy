/** The libinput touchscreen source: device start/stop guards, and the
    ready-read loop that drains the queue of libinput events, normalises
    touch coordinates by the panel's physical size and emits one signal per
    touch event. libinput itself is the queue field (what the context has
    pending) and the success flags of context creation and device adding. */
module TouchInput {
  import RouterSpec

  datatype EventKind = TouchDownKind | TouchMotionKind | TouchUpKind | OtherKind

  /** One libinput event: its type, touch slot and position in millimetres. */
  datatype LibinputEvent = LibinputEvent(kind: EventKind, slot: int, xMm: real, yMm: real)

  datatype TouchSignal =
    | TouchDown(slot: int, x: real, y: real)
    | TouchMove(slot: int, x: real, y: real)
    | TouchUp(slot: int)

  /** The Steam Deck panel's size in millimetres. */
  const DefaultWidthMm: real := 267.0
  const DefaultHeightMm: real := 142.0

  /** qBound(lo, v, hi): qMax(lo, qMin(hi, v)). */
  function Bound(lo: real, v: real, hi: real): (r: real)
    ensures lo <= hi ==> lo <= r <= hi
    ensures lo <= v <= hi ==> r == v
  {
    var m := if hi < v then hi else v;
    if lo < m then m else lo
  }

  /** qBound(0, v, 1) is the router's clamp01. */
  lemma BoundIsClamp01(v: real)
    ensures Bound(0.0, v, 1.0) == RouterSpec.Clamp01(v)
  {
  }

  /** A coordinate in millimetres as a fraction of the dimension (zero when
      the dimension is not positive), held inside [0, 1]. */
  function NormalizeAxis(mm: real, dimMm: real): (r: real)
    ensures 0.0 <= r <= 1.0
    ensures dimMm > 0.0 && 0.0 <= mm <= dimMm ==> r == mm / dimMm
    ensures dimMm <= 0.0 ==> r == 0.0
    ensures dimMm > 0.0 && mm < 0.0 ==> r == 0.0
    ensures dimMm > 0.0 && mm > dimMm ==> r == 1.0
  {
    var norm := if dimMm > 0.0 then mm / dimMm else 0.0;
    Bound(0.0, norm, 1.0)
  }

  predicate IsTouch(e: LibinputEvent) { e.kind != OtherKind }

  /** The signal of one touch event. */
  function Signal(e: LibinputEvent, widthMm: real, heightMm: real): TouchSignal
    requires IsTouch(e)
  {
    match e.kind
    case TouchUpKind => TouchUp(e.slot)
    case TouchDownKind => TouchDown(e.slot, NormalizeAxis(e.xMm, widthMm), NormalizeAxis(e.yMm, heightMm))
    case TouchMotionKind => TouchMove(e.slot, NormalizeAxis(e.xMm, widthMm), NormalizeAxis(e.yMm, heightMm))
  }

  /** What the loop body emits for one event: its signal, or nothing. */
  function Translate(e: LibinputEvent, widthMm: real, heightMm: real): (r: seq<TouchSignal>)
    ensures !IsTouch(e) <==> r == []
    ensures IsTouch(e) ==> r == [Signal(e, widthMm, heightMm)]
  {
    if IsTouch(e) then [Signal(e, widthMm, heightMm)] else []
  }

  /** The signals of a drained queue, in queue order. */
  function Dispatch(events: seq<LibinputEvent>, widthMm: real, heightMm: real): seq<TouchSignal> {
    if events == [] then [] else Translate(events[0], widthMm, heightMm) + Dispatch(events[1..], widthMm, heightMm)
  }

  /** The touch events of a queue, in order: every touch event is kept,
      and nothing else. */
  function Touches(events: seq<LibinputEvent>): (r: seq<LibinputEvent>)
    ensures forall i :: 0 <= i < |r| ==> IsTouch(r[i])
    ensures |r| <= |events|
    ensures forall i :: 0 <= i < |events| && IsTouch(events[i]) ==> events[i] in r
    ensures forall e :: e in r ==> e in events
  {
    if events == [] then []
    else (if IsTouch(events[0]) then [events[0]] else []) + Touches(events[1..])
  }

  /** Filtering a queue in two parts filters each part, in order. */
  lemma {:induction false} TouchesAppend(a: seq<LibinputEvent>, b: seq<LibinputEvent>)
    ensures Touches(a + b) == Touches(a) + Touches(b)
    decreases |a|
  {
    if a == [] {
      assert a + b == b;
    } else {
      assert (a + b)[0] == a[0];
      assert (a + b)[1..] == a[1..] + b;
      TouchesAppend(a[1..], b);
    }
  }

  /** Draining a queue emits exactly one signal per touch event, in order,
      and nothing for the other events. */
  lemma {:induction false} DispatchIsSignalOfTouches(events: seq<LibinputEvent>, w: real, h: real)
    ensures |Dispatch(events, w, h)| == |Touches(events)|
    ensures forall i :: 0 <= i < |Touches(events)| ==> Dispatch(events, w, h)[i] == Signal(Touches(events)[i], w, h)
    decreases |events|
  {
    if events != [] {
      DispatchIsSignalOfTouches(events[1..], w, h);
      var d := Dispatch(events[1..], w, h);
      var t := Touches(events[1..]);
      if IsTouch(events[0]) {
        forall i | 0 <= i < |Touches(events)|
          ensures Dispatch(events, w, h)[i] == Signal(Touches(events)[i], w, h)
        {
          if i > 0 {
            assert Dispatch(events, w, h)[i] == d[i - 1];
            assert Touches(events)[i] == t[i - 1];
          }
        }
      } else {
        assert Dispatch(events, w, h) == d;
        assert Touches(events) == t;
      }
    }
  }

  /** Every emitted position lies in the unit square. */
  predicate InUnitSquare(s: TouchSignal) {
    s.TouchUp? || (0.0 <= s.x <= 1.0 && 0.0 <= s.y <= 1.0)
  }

  lemma {:induction false} DispatchInUnitSquare(events: seq<LibinputEvent>, w: real, h: real)
    ensures forall i :: 0 <= i < |Dispatch(events, w, h)| ==> InUnitSquare(Dispatch(events, w, h)[i])
    decreases |events|
  {
    if events != [] {
      DispatchInUnitSquare(events[1..], w, h);
      var head := Translate(events[0], w, h);
      var tail := Dispatch(events[1..], w, h);
      forall i | 0 <= i < |head + tail| ensures InUnitSquare((head + tail)[i]) {
        if i >= |head| {
          assert (head + tail)[i] == tail[i - |head|];
        }
      }
    }
  }

  lemma {:induction false} DispatchAppend(a: seq<LibinputEvent>, b: seq<LibinputEvent>, w: real, h: real)
    ensures Dispatch(a + b, w, h) == Dispatch(a, w, h) + Dispatch(b, w, h)
    decreases |a|
  {
    if a == [] {
      assert a + b == b;
    } else {
      assert (a + b)[0] == a[0];
      assert (a + b)[1..] == a[1..] + b;
      DispatchAppend(a[1..], b, w, h);
    }
  }

  /** The router's clamp leaves every emitted coordinate as it is. */
  lemma RouterClampIsIdentity(events: seq<LibinputEvent>, w: real, h: real, i: int)
    requires 0 <= i < |Dispatch(events, w, h)| && !Dispatch(events, w, h)[i].TouchUp?
    ensures RouterSpec.Clamp01(Dispatch(events, w, h)[i].x) == Dispatch(events, w, h)[i].x
    ensures RouterSpec.Clamp01(Dispatch(events, w, h)[i].y) == Dispatch(events, w, h)[i].y
  {
    DispatchInUnitSquare(events, w, h);
  }

  /** Taking the first pending event moves its signal out of the pending
      part of the stream. */
  lemma DrainStep(sent: seq<TouchSignal>, pending: seq<LibinputEvent>, w: real, h: real)
    requires pending != []
    ensures sent + Dispatch(pending, w, h) == (sent + Translate(pending[0], w, h)) + Dispatch(pending[1..], w, h)
  {
  }

  class TouchInputLibinput {
    const devicePath: string
    var active: bool
    var hasContext: bool
    var hasDevice: bool
    var hasNotifier: bool
    var widthMm: real
    var heightMm: real
    var queue: seq<LibinputEvent>
    var emitted: seq<TouchSignal>
    var destroyed: seq<LibinputEvent>

    /** Active exactly while the context, the device and the notifier exist. */
    ghost predicate Valid()
      reads this
    {
      hasContext == active && hasDevice == active && hasNotifier == active
    }

    constructor (devicePath: string)
      ensures this.devicePath == devicePath
      ensures Valid() && !active
      ensures widthMm == DefaultWidthMm && heightMm == DefaultHeightMm
      ensures queue == [] && emitted == [] && destroyed == []
    {
      this.devicePath := devicePath;
      active, hasContext, hasDevice, hasNotifier := false, false, false, false;
      widthMm, heightMm := DefaultWidthMm, DefaultHeightMm;
      queue, emitted, destroyed := [], [], [];
    }

    function IsActive(): (r: bool)
      reads this
      ensures r == active
    {
      active
    }

    /** Creates the context, adds the device, installs the notifier. */
    method Start(contextCreated: bool, deviceAdded: bool) returns (ok: bool)
      requires Valid()
      modifies this
      ensures Valid()
      ensures old(active) ==> ok && unchanged(this)
      ensures !old(active) ==> (ok <==> contextCreated && deviceAdded) && active == ok
      ensures queue == old(queue) && emitted == old(emitted) && destroyed == old(destroyed)
      ensures widthMm == old(widthMm) && heightMm == old(heightMm)
    {
      if active {
        return true;
      }
      hasContext := contextCreated;
      if !hasContext {
        return false;
      }
      hasDevice := deviceAdded;
      if !hasDevice {
        hasContext := false;
        return false;
      }
      hasNotifier := true;
      active := true;
      return true;
    }

    method Stop()
      requires Valid()
      modifies this
      ensures Valid() && !active
      ensures !old(active) ==> unchanged(this)
      ensures queue == old(queue) && emitted == old(emitted) && destroyed == old(destroyed)
      ensures widthMm == old(widthMm) && heightMm == old(heightMm)
    {
      if !active {
        return;
      }
      active := false;
      if hasNotifier {
        hasNotifier := false;
      }
      if hasDevice {
        hasDevice := false;
      }
      if hasContext {
        hasContext := false;
      }
    }

    method SetDeviceDimensions(widthMm: real, heightMm: real)
      modifies this
      ensures this.widthMm == widthMm && this.heightMm == heightMm
      ensures active == old(active) && hasContext == old(hasContext) && hasDevice == old(hasDevice)
      ensures hasNotifier == old(hasNotifier)
      ensures queue == old(queue) && emitted == old(emitted) && destroyed == old(destroyed)
    {
      this.widthMm := widthMm;
      this.heightMm := heightMm;
    }

    /** The body of the drain loop for one event: a touch event emits its
        signal with normalised, clamped coordinates; any other emits nothing. */
    method EmitFor(ev: LibinputEvent)
      modifies this
      ensures emitted == old(emitted) + Translate(ev, widthMm, heightMm)
      ensures queue == old(queue) && destroyed == old(destroyed)
      ensures active == old(active) && hasContext == old(hasContext) && hasDevice == old(hasDevice)
      ensures hasNotifier == old(hasNotifier) && widthMm == old(widthMm) && heightMm == old(heightMm)
    {
      if ev.kind == TouchDownKind || ev.kind == TouchMotionKind || ev.kind == TouchUpKind {
        if ev.kind == TouchUpKind {
          emitted := emitted + [TouchUp(ev.slot)];
        } else {
          var xNorm := NormalizeAxis(ev.xMm, widthMm);
          var yNorm := NormalizeAxis(ev.yMm, heightMm);
          if ev.kind == TouchDownKind {
            emitted := emitted + [TouchDown(ev.slot, xNorm, yNorm)];
          } else {
            emitted := emitted + [TouchMove(ev.slot, xNorm, yNorm)];
          }
        }
      }
    }

    /** libinput_dispatch makes incoming pending; then every pending event
        is taken, translated and destroyed until none is left. */
    method OnReadyRead(incoming: seq<LibinputEvent>)
      modifies this
      ensures !old(hasContext) ==> unchanged(this)
      ensures old(hasContext) ==>
                && queue == []
                && emitted == old(emitted) + Dispatch(old(queue) + incoming, widthMm, heightMm)
                && destroyed == old(destroyed) + (old(queue) + incoming)
      ensures active == old(active) && hasContext == old(hasContext) && hasDevice == old(hasDevice)
      ensures hasNotifier == old(hasNotifier) && widthMm == old(widthMm) && heightMm == old(heightMm)
    {
      if !hasContext {
        return;
      }
      queue := queue + incoming;
      ghost var all := queue;
      while queue != []
        invariant emitted + Dispatch(queue, widthMm, heightMm) == old(emitted) + Dispatch(all, widthMm, heightMm)
        invariant destroyed + queue == old(destroyed) + all
        invariant active == old(active) && hasContext == old(hasContext) && hasDevice == old(hasDevice)
        invariant hasNotifier == old(hasNotifier) && widthMm == old(widthMm) && heightMm == old(heightMm)
        decreases |queue|
      {
        ghost var queueBefore := queue;
        ghost var destroyedBefore := destroyed;
        DrainStep(emitted, queue, widthMm, heightMm);
        var ev := queue[0];
        queue := queue[1..];
        EmitFor(ev);
        destroyed := destroyed + [ev];
        assert queueBefore == [ev] + queue;
        assert destroyed + queue == destroyedBefore + queueBefore;
      }
      assert Dispatch([], widthMm, heightMm) == [];
    }
  }
}
