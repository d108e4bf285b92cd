/**
  Input events and the platform's bounded event queue (src/platform.c,
  types from src/platform.h).

  Every event constructor starts from the all-zero `Event` and sets a few
  fields. `push_event_to_queue` appends to the fixed array of 1024 events and
  drops the event when the array is full. `b32` flags are modelled as
  `bool`, with 0 as `false`; key codes are the integers of `enum KeyCode`.
 */
module Platform {
  import opened Maths

  /** enum EventType (src/platform.h:74-86); EventNone is 0. */
  datatype EventType =
    | EventNone
    | EventKeyPress
    | EventKeyRelease
    | EventMousePress
    | EventMouseRelease
    | EventMouseMove
    | EventMouseScroll
    | EventWindowResize

  /** enum KeyModifiers (src/platform.h:48-52); Ctrl is 0. */
  datatype KeyModifiers = KeyModCtrl | KeyModShift | KeyModAlt

  /** enum MouseButtonCode (src/platform.h:54-60); Left is 0. */
  datatype MouseButtonCode = MouseButtonLeft | MouseButtonRight | MouseButtonMiddle

  /** struct Key (src/platform.h:62-67). */
  datatype Key = Key(scanCode: nat, modifiers: KeyModifiers, isPressed: bool, isRepeat: bool)

  /** struct MouseButton (src/platform.h:69-72). */
  datatype MouseButton = MouseButton(button: MouseButtonCode, isPressed: bool)

  /** struct Event (src/platform.h:88-95); `kind` is the C field `type`. */
  datatype Event = Event(
    kind: EventType,
    key: Key,
    button: MouseButton,
    position: Vector2,
    delta: Vector2,
    wheel: Vector2)

  /** `Event event = { 0 };` */
  const ZeroEvent: Event :=
    Event(EventNone, Key(0, KeyModCtrl, false, false), MouseButton(MouseButtonLeft, false),
          Zero2, Zero2, Zero2)

  /** key_press_event (src/platform.c:3-13). */
  function KeyPressEvent(code: nat, mods: KeyModifiers, isRepeat: bool): (e: Event)
    ensures e.kind == EventKeyPress
    ensures e.key == Key(code, mods, true, isRepeat)
    ensures e.button == ZeroEvent.button
    ensures e.position == Zero2 && e.delta == Zero2 && e.wheel == Zero2
  {
    var event := ZeroEvent;
    var event := event.(kind := EventKeyPress);
    var event := event.(key := event.key.(scanCode := code, modifiers := mods));
    event.(key := event.key.(isPressed := true, isRepeat := isRepeat))
  }

  /** key_release_event (src/platform.c:15-25). */
  function KeyReleaseEvent(code: nat, mods: KeyModifiers): (e: Event)
    ensures e.kind == EventKeyRelease
    ensures e.key == Key(code, mods, false, false)
    ensures e.button == ZeroEvent.button
    ensures e.position == Zero2 && e.delta == Zero2 && e.wheel == Zero2
  {
    var event := ZeroEvent;
    var event := event.(kind := EventKeyRelease);
    var event := event.(key := event.key.(scanCode := code, modifiers := mods));
    event.(key := event.key.(isPressed := false, isRepeat := false))
  }

  /** mouse_press_event (src/platform.c:27-36). */
  function MousePressEvent(button: MouseButtonCode, position: Vector2): (e: Event)
    ensures e.kind == EventMousePress
    ensures e.button == MouseButton(button, true)
    ensures e.position == position
    ensures e.key == ZeroEvent.key && e.delta == Zero2 && e.wheel == Zero2
  {
    var event := ZeroEvent.(kind := EventMousePress);
    var event := event.(button := event.button.(button := button, isPressed := true));
    event.(position := position)
  }

  /** mouse_release_event (src/platform.c:38-47). */
  function MouseReleaseEvent(button: MouseButtonCode, position: Vector2): (e: Event)
    ensures e.kind == EventMouseRelease
    ensures e.button == MouseButton(button, false)
    ensures e.position == position
    ensures e.key == ZeroEvent.key && e.delta == Zero2 && e.wheel == Zero2
  {
    var event := ZeroEvent.(kind := EventMouseRelease);
    var event := event.(button := event.button.(button := button, isPressed := false));
    event.(position := position)
  }

  /** mouse_scroll_event (src/platform.c:49-56). */
  function MouseScrollEvent(wheelDelta: Vector2): (e: Event)
    ensures e.kind == EventMouseScroll
    ensures e.wheel == wheelDelta
    ensures e.key == ZeroEvent.key && e.button == ZeroEvent.button
    ensures e.position == Zero2 && e.delta == Zero2
  {
    ZeroEvent.(kind := EventMouseScroll, wheel := wheelDelta)
  }

  /** mouse_move_event (src/platform.c:58-66). */
  function MouseMoveEvent(position: Vector2, delta: Vector2): (e: Event)
    ensures e.kind == EventMouseMove
    ensures e.position == position && e.delta == delta
    ensures e.key == ZeroEvent.key && e.button == ZeroEvent.button && e.wheel == Zero2
  {
    ZeroEvent.(kind := EventMouseMove, position := position, delta := delta)
  }

  /** Every constructed event may be queued: none has type EVENT_NONE. */
  lemma ConstructedEventsQueueable(code: nat, mods: KeyModifiers, isRepeat: bool,
                                   button: MouseButtonCode, p: Vector2, d: Vector2)
    ensures KeyPressEvent(code, mods, isRepeat).kind != EventNone
    ensures KeyReleaseEvent(code, mods).kind != EventNone
    ensures MousePressEvent(button, p).kind != EventNone
    ensures MouseReleaseEvent(button, p).kind != EventNone
    ensures MouseScrollEvent(d).kind != EventNone
    ensures MouseMoveEvent(p, d).kind != EventNone
  {
  }

  /** A press and the matching release differ only in their type and flags. */
  lemma PressReleaseDiffer(code: nat, mods: KeyModifiers, button: MouseButtonCode, p: Vector2)
    ensures KeyPressEvent(code, mods, false) ==
      KeyReleaseEvent(code, mods).(kind := EventKeyPress, key := Key(code, mods, true, false))
    ensures MousePressEvent(button, p) ==
      MouseReleaseEvent(button, p).(kind := EventMousePress, button := MouseButton(button, true))
  {
  }

  /** Length of `Platform.events` (src/platform.h:114). */
  const Capacity: nat := 1024

  /** The queue contents after a push: appended when there is room, else unchanged. */
  function Enqueue(q: seq<Event>, e: Event): (r: seq<Event>)
    ensures |q| <= Capacity ==> |r| <= Capacity
    ensures |q| <= |r| && r[..|q|] == q
    ensures |r| == |q| + 1 <==> |q| < Capacity
    ensures |q| < Capacity ==> r[|q|] == e
  {
    if |q| < Capacity then q + [e] else q
  }

  /** Enqueueing never drops an event while there is room, and the queue
      holds at most Capacity events after any number of pushes. */
  lemma {:induction false} EnqueueAllBounded(q: seq<Event>, es: seq<Event>)
    requires |q| <= Capacity
    ensures |EnqueueAll(q, es)| <= Capacity
    ensures |EnqueueAll(q, es)| == if |q| + |es| <= Capacity then |q| + |es| else Capacity
    ensures EnqueueAll(q, es)[..|q|] == q
    decreases |es|
  {
    if |es| > 0 {
      var q' := Enqueue(q, es[0]);
      EnqueueAllBounded(q', es[1..]);
      assert EnqueueAll(q', es[1..])[..|q|] == EnqueueAll(q', es[1..])[..|q'|][..|q|];
    }
  }

  /** Pushing the events `es` in order. */
  function EnqueueAll(q: seq<Event>, es: seq<Event>): seq<Event>
    decreases |es|
  {
    if |es| == 0 then q else EnqueueAll(Enqueue(q, es[0]), es[1..])
  }

  /** The event part of struct Platform (src/platform.h:103-124). */
  class Platform {
    const events: array<Event>
    var eventCount: nat

    ghost predicate Valid()
      reads this
    {
      events.Length == Capacity && eventCount <= Capacity
    }

    /** The events queued so far. */
    ghost function Queued(): seq<Event>
      reads this, events
      requires Valid()
    {
      events[..eventCount]
    }

    /** A zero-initialised platform record. */
    constructor ()
      ensures Valid() && fresh(events)
      ensures eventCount == 0 && Queued() == []
      ensures forall i :: 0 <= i < Capacity ==> events[i] == ZeroEvent
    {
      events := new Event[Capacity](_ => ZeroEvent);
      eventCount := 0;
    }

    /** push_event_to_queue (src/platform.c:73-78). The `assert` is the precondition. */
    method PushEventToQueue(event: Event)
      requires Valid()
      requires event.kind != EventNone
      modifies this`eventCount, events
      ensures Valid()
      ensures Queued() == Enqueue(old(Queued()), event)
      ensures old(eventCount) < Capacity ==>
        eventCount == old(eventCount) + 1 && events[old(eventCount)] == event &&
        (forall i :: 0 <= i < Capacity && i != old(eventCount) ==> events[i] == old(events[i]))
      ensures old(eventCount) >= Capacity ==>
        eventCount == old(eventCount) && events[..] == old(events[..])
    {
      if eventCount < Capacity {
        events[eventCount] := event;
        eventCount := eventCount + 1;
      }
    }
  }
}
