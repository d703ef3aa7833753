/** The touch signal normaliser of src/touch_ui.c: each raw sample is compared
    with the last stored one and classified as a press, a release, a move or
    nothing; the stored state is then updated. */
module TouchUi {
  import opened Uint

  /** touch_ui_event_type_t. Held and DoubleTap are declared by the source but
      never produced. */
  datatype EventType = None | Pressed | Released | Moved | Held | DoubleTap

  /** touch_ui_event_t */
  datatype TouchEvent = TouchEvent(eventType: EventType, x: U16, y: U16, timestamp: U32)

  /** touch_ui_state_t */
  datatype TouchState = TouchState(lastPressed: bool, lastX: U16, lastY: U16, lastPressTimestamp: U32)

  /** One raw reading: position, press flag and time stamp. */
  datatype Sample = Sample(x: U16, y: U16, pressed: bool, timestamp: U32)

  /** What one call to touch_ui_process_input returns and leaves behind. */
  datatype Transition = Transition(state: TouchState, event: TouchEvent)

  /** The state touch_ui_init stores. */
  const InitialState := TouchState(false, 0, 0, 0)

  /** The transition table of touch_ui_process_input for a valid context. */
  function Step(s: TouchState, sample: Sample): (t: Transition)
    // the event echoes the sample
    ensures t.event.x == sample.x && t.event.y == sample.y && t.event.timestamp == sample.timestamp
    // classification
    ensures t.event.eventType == Pressed <==> !s.lastPressed && sample.pressed
    ensures t.event.eventType == Released <==> s.lastPressed && !sample.pressed
    ensures t.event.eventType == Moved <==>
              s.lastPressed && sample.pressed && (sample.x != s.lastX || sample.y != s.lastY)
    ensures t.event.eventType != Held && t.event.eventType != DoubleTap
    // new state
    ensures t.state.lastPressed == sample.pressed
    ensures sample.pressed ==> t.state.lastX == sample.x && t.state.lastY == sample.y
    ensures !sample.pressed ==> t.state.lastX == s.lastX && t.state.lastY == s.lastY
    ensures t.state.lastPressTimestamp ==
              if t.event.eventType == Pressed then sample.timestamp else s.lastPressTimestamp
  {
    var eventType :=
      if !s.lastPressed && sample.pressed then Pressed
      else if s.lastPressed && !sample.pressed then Released
      else if sample.pressed && s.lastPressed == sample.pressed
              && (sample.x != s.lastX || sample.y != s.lastY) then Moved
      else None;
    var stamp := if eventType == Pressed then sample.timestamp else s.lastPressTimestamp;
    var state :=
      if sample.pressed then TouchState(true, sample.x, sample.y, stamp)
      else TouchState(false, s.lastX, s.lastY, stamp);
    Transition(state, TouchEvent(eventType, sample.x, sample.y, sample.timestamp))
  }

  /** The state after feeding a sequence of samples, one call per sample. */
  function Run(s: TouchState, samples: seq<Sample>): TouchState
    decreases |samples|
  {
    if samples == [] then s else Run(Step(s, samples[0]).state, samples[1..])
  }

  /** The event types produced by feeding a sequence of samples. */
  function Events(s: TouchState, samples: seq<Sample>): (es: seq<EventType>)
    decreases |samples|
  {
    if samples == [] then []
    else [Step(s, samples[0]).event.eventType] + Events(Step(s, samples[0]).state, samples[1..])
  }

  /** After a non-empty run the stored press flag is that of the last sample, and
      if that sample was a press the stored position is its position. */
  lemma {:induction false} RunEndsAtLastSample(s: TouchState, samples: seq<Sample>)
    requires |samples| > 0
    ensures Run(s, samples).lastPressed == samples[|samples| - 1].pressed
    ensures samples[|samples| - 1].pressed ==>
              Run(s, samples).lastX == samples[|samples| - 1].x &&
              Run(s, samples).lastY == samples[|samples| - 1].y
    decreases |samples|
  {
    if |samples| > 1 {
      RunEndsAtLastSample(Step(s, samples[0]).state, samples[1..]);
    }
  }

  /** A well-formed event stream, given whether the finger is down at its start:
      a press only while up, a release only while down, moves only while down. */
  ghost predicate Alternating(es: seq<EventType>, down: bool)
    decreases |es|
  {
    if es == [] then true
    else match es[0]
      case Pressed => !down && Alternating(es[1..], true)
      case Released => down && Alternating(es[1..], false)
      case Moved => down && Alternating(es[1..], true)
      case None => Alternating(es[1..], down)
      case _ => false
  }

  /** Presses and releases alternate in every run, starting from the stored flag;
      moves happen only between a press and its release. */
  lemma {:induction false} EventsAlternate(s: TouchState, samples: seq<Sample>)
    ensures Alternating(Events(s, samples), s.lastPressed)
    decreases |samples|
  {
    if samples != [] {
      var t := Step(s, samples[0]);
      EventsAlternate(t.state, samples[1..]);
      assert Events(s, samples)[1..] == Events(t.state, samples[1..]);
    }
  }

  /** touch_ui_context_t: the stored fields of internal_state, plus the driver
      binding, whose calls are not part of this model. */
  class TouchContext {
    var lastPressState: bool
    var lastXPosition: U16
    var lastYPosition: U16
    var lastPressTimestampValue: U32
    var driver: object?

    /** The stored state as a value. */
    function State(): TouchState
      reads this
    {
      TouchState(lastPressState, lastXPosition, lastYPosition, lastPressTimestampValue)
    }

    constructor ()
      ensures State() == InitialState && driver == null
    {
      lastPressState := false;
      lastXPosition := 0;
      lastYPosition := 0;
      lastPressTimestampValue := 0;
      driver := null;
    }
  }

  /** touch_ui_init: with a context and a driver, binds the driver and resets the
      state; with either missing, does nothing. */
  method Init(context: TouchContext?, driver: object?)
    modifies context
    ensures context != null && driver != null ==>
              context.State() == InitialState && context.driver == driver
    ensures context != null && driver == null ==> unchanged(context)
  {
    if context == null || driver == null {
      return;
    }
    context.driver := driver;
    context.lastPressState := false;
    context.lastXPosition := 0;
    context.lastYPosition := 0;
    context.lastPressTimestampValue := 0;
  }

  /** touch_ui_process_input. A missing context yields a None event over the
      sample; otherwise the event and the new state are those of Step. */
  method ProcessInput(context: TouchContext?, x: U16, y: U16, isPressed: bool, timestamp: U32)
    returns (event: TouchEvent)
    modifies context
    ensures context == null ==> event == TouchEvent(None, x, y, timestamp)
    ensures context != null ==>
              event == Step(old(context.State()), Sample(x, y, isPressed, timestamp)).event &&
              context.State() == Step(old(context.State()), Sample(x, y, isPressed, timestamp)).state &&
              context.driver == old(context.driver)
  {
    event := TouchEvent(None, x, y, timestamp);
    if context == null {
      return;
    }
    var wasPressed := context.lastPressState;
    var pressChanged := wasPressed != isPressed;
    if !wasPressed && isPressed {
      event := event.(eventType := Pressed);
      context.lastXPosition := x;
      context.lastYPosition := y;
      context.lastPressTimestampValue := timestamp;
    } else if wasPressed && !isPressed {
      event := event.(eventType := Released);
    } else if isPressed && !pressChanged {
      if x != context.lastXPosition || y != context.lastYPosition {
        event := event.(eventType := Moved);
      }
    }
    context.lastPressState := isPressed;
    if isPressed {
      context.lastXPosition := x;
      context.lastYPosition := y;
    }
  }
}
