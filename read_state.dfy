/**
 * The two read states the transaction and its handlers update inside a read
 * cycle: the common read state shared by the whole transaction, and the read
 * state of one data point. Both are stand-ins: their headers are not part of
 * this model, and they keep only what the transaction relies on (one object
 * in the read data block, a bounded number of events per update, and the
 * change descriptor the common state hands to every point).
 */
module ReadStates {
  import opened Common
  import opened DataBlocks
  import Walk

  /** CommonReadState::Changes: which parts of the common read state an update changed. */
  datatype Changes = Changes(timeChanged: bool, errorChanged: bool)

  /** Two error codes that both mean "no error" are the same state. */
  predicate SameError(a: ErrorCode, b: ErrorCode)
  {
    (!a.IsError() && !b.IsError()) || a == b
  }

  // ---------------------------------------------------------------------------
  // Common read state
  // ---------------------------------------------------------------------------

  const CommonUpdateTimeAttribute := Attribute("updateTime", ReadOnly)
  const CommonErrorAttribute := Attribute("error", ReadOnly)
  const CommonReadStateAttributes := [CommonUpdateTimeAttribute, CommonErrorAttribute]

  /** An update requests at most one event: "became error" or "became OK". */
  const CommonReadStateMaxEvents: nat := 1

  datatype CommonView = CommonView(slot: nat, errorEvent: Event, okEvent: Event)

  /** What one update of the common read state does, relative to the previous record. */
  datatype CommonUpdate = CommonUpdate(record: Record, changes: Changes, events: seq<Event>)

  /** The transition events: an error that differs from the previous state, or the return to no error. */
  function TransitionEvents(view: CommonView, previous: ErrorCode, error: ErrorCode): (r: seq<Event>)
    ensures |r| <= CommonReadStateMaxEvents
  {
    if error.IsError() && !SameError(previous, error) then [view.errorEvent]
    else if !error.IsError() && previous.IsError() then [view.okEvent]
    else []
  }

  function UpdateCommon(view: CommonView, previous: Record, timeStamp: TimePoint, error: ErrorCode): (u: CommonUpdate)
    ensures u.record == Record(timeStamp, error, None)
    ensures u.changes.timeChanged <==> timeStamp != previous.time
    ensures u.changes.errorChanged <==> !SameError(previous.error, error)
    ensures u.events == TransitionEvents(view, previous.error, error)
  {
    CommonUpdate(Record(timeStamp, error, None),
                 Changes(timeStamp != previous.time, !SameError(previous.error, error)),
                 TransitionEvents(view, previous.error, error))
  }

  /** The "became error" event fires exactly when an error arrives that differs from the previous state. */
  lemma ErrorEventFiresOnNewError(view: CommonView, previous: ErrorCode, error: ErrorCode)
    requires view.errorEvent != view.okEvent
    ensures view.errorEvent in TransitionEvents(view, previous, error)
        <==> error.IsError() && (!previous.IsError() || previous != error)
  {
  }

  /** The "became OK" event fires exactly when an error is followed by no error. */
  lemma OkEventFiresOnRecovery(view: CommonView, previous: ErrorCode, error: ErrorCode)
    requires view.errorEvent != view.okEvent
    ensures view.okEvent in TransitionEvents(view, previous, error) <==> previous.IsError() && !error.IsError()
  {
  }

  /** Some transition event fires exactly when the change descriptor reports an error change. */
  lemma TransitionIffErrorChanged(view: CommonView, previous: Record, timeStamp: TimePoint, error: ErrorCode)
    ensures UpdateCommon(view, previous, timeStamp, error).events != []
        <==> UpdateCommon(view, previous, timeStamp, error).changes.errorChanged
  {
  }

  class CommonReadState {
    const errorEvent: Event
    const okEvent: Event
    var stateHandle: nat

    ghost predicate Valid()
    {
      errorEvent != okEvent
    }

    constructor ()
      ensures Valid() && fresh(errorEvent) && fresh(okEvent) && stateHandle == 0
    {
      errorEvent := new Event(InputDirection);
      okEvent := new Event(InputDirection);
      stateHandle := 0;
    }

    function View(): (v: CommonView)
      reads this
      ensures v.slot == stateHandle && v.errorEvent == errorEvent && v.okEvent == okEvent
    {
      CommonView(stateHandle, errorEvent, okEvent)
    }

    function Events(): seq<NamedEvent>
    {
      [NamedEvent("error", errorEvent), NamedEvent("ok", okEvent)]
    }

    function ForEachAttribute(f: Attribute -> bool): (r: Walk.WalkResult<Attribute>)
      ensures r == Walk.ForEach(CommonReadStateAttributes, f)
    {
      Walk.ForEach(CommonReadStateAttributes, f)
    }

    function ForEachEvent(f: NamedEvent -> bool): (r: Walk.WalkResult<NamedEvent>)
      ensures r == Walk.ForEach(Events(), f)
    {
      Walk.ForEach(Events(), f)
    }

    function ReadHandle(block: DataBlock, attribute: Attribute): (r: Option<ReadHandle>)
      reads this
      ensures r.Some? <==> attribute in CommonReadStateAttributes
      ensures r.Some? ==> r.value == DataHandle(block, stateHandle, attribute)
    {
      if attribute in CommonReadStateAttributes then Some(DataHandle(block, stateHandle, attribute)) else None
    }

    method Attach(layout: DataArray, eventCount: nat) returns (eventCount': nat)
      modifies this`stateHandle, layout
      ensures stateHandle == old(layout.size) && layout.size == old(layout.size) + 1
      ensures eventCount' == eventCount + CommonReadStateMaxEvents
    {
      stateHandle := layout.AppendObject();
      eventCount' := eventCount + CommonReadStateMaxEvents;
    }

    /** update: records the read outcome through the sentinel and returns the change descriptor. */
    method Update(block: DataBlock, timeStamp: TimePoint, error: ErrorCode, eventsToFire: seq<Event>)
      returns (changes: Changes, eventsToFire': seq<Event>)
      requires block.writing
      modifies block`staged
      ensures var u := UpdateCommon(View(), Get(old(block.staged), stateHandle), timeStamp, error);
              block.staged == old(block.staged)[stateHandle := u.record]
              && changes == u.changes && eventsToFire' == eventsToFire + u.events
    {
      var u := UpdateCommon(View(), Get(block.staged, stateHandle), timeStamp, error);
      block.Stage(stateHandle, u.record);
      changes := u.changes;
      eventsToFire' := eventsToFire + u.events;
    }
  }

  // ---------------------------------------------------------------------------
  // Read state of one data point
  // ---------------------------------------------------------------------------

  const ValueAttribute := Attribute("value", ReadOnly)
  const PointUpdateTimeAttribute := Attribute("updateTime", ReadOnly)
  const PointReadErrorAttribute := Attribute("error", ReadOnly)
  const PointReadStateAttributes := [ValueAttribute, PointUpdateTimeAttribute, PointReadErrorAttribute]

  /** An update requests at most two events: "value changed" and "quality changed". */
  const PointReadStateMaxEvents: nat := 2

  datatype PointView = PointView(slot: nat, valueChangedEvent: Event, qualityChangedEvent: Event)

  /**
   * The point's object after a read: a payload replaces the value and clears
   * the error; an error wins over any payload and keeps the last value.
   */
  function PointNext(previous: Record, timeStamp: TimePoint, payloadOrError: PayloadOrError): (r: Record)
    ensures r.time == timeStamp
    ensures r.error == ErrorOf(payloadOrError)
    ensures payloadOrError.ReadError? ==> r.value == previous.value
    ensures payloadOrError.Payload? ==> r.value == Some(payloadOrError.payload)
  {
    match payloadOrError
    case Payload(p) => Record(timeStamp, NoError, Some(p))
    case ReadError(e) => Record(timeStamp, e, previous.value)
  }

  /** The events one point requests: its value changed, and the common error changed. */
  function PointEvents(view: PointView, previous: Record, next: Record, changes: Changes): (r: seq<Event>)
    ensures |r| <= PointReadStateMaxEvents
    ensures view.valueChangedEvent in r <== next.value != previous.value
    ensures view.qualityChangedEvent in r <== changes.errorChanged
    ensures forall e :: e in r ==> e == view.valueChangedEvent || e == view.qualityChangedEvent
  {
    (if next.value != previous.value then [view.valueChangedEvent] else [])
    + (if changes.errorChanged then [view.qualityChangedEvent] else [])
  }

  class PointReadState {
    const valueChangedEvent: Event
    const qualityChangedEvent: Event
    var stateHandle: nat

    constructor ()
      ensures fresh(valueChangedEvent) && fresh(qualityChangedEvent) && stateHandle == 0
    {
      valueChangedEvent := new Event(InputDirection);
      qualityChangedEvent := new Event(InputDirection);
      stateHandle := 0;
    }

    function View(): (v: PointView)
      reads this
      ensures v.slot == stateHandle && v.valueChangedEvent == valueChangedEvent
              && v.qualityChangedEvent == qualityChangedEvent
    {
      PointView(stateHandle, valueChangedEvent, qualityChangedEvent)
    }

    function Events(): seq<NamedEvent>
    {
      [NamedEvent("changed", valueChangedEvent), NamedEvent("qualityChanged", qualityChangedEvent)]
    }

    method Attach(layout: DataArray, eventCount: nat) returns (eventCount': nat)
      modifies this`stateHandle, layout
      ensures stateHandle == old(layout.size) && layout.size == old(layout.size) + 1
      ensures eventCount' == eventCount + PointReadStateMaxEvents
    {
      stateHandle := layout.AppendObject();
      eventCount' := eventCount + PointReadStateMaxEvents;
    }

    method Update(block: DataBlock, timeStamp: TimePoint, payloadOrError: PayloadOrError, changes: Changes,
                  eventsToFire: seq<Event>)
      returns (eventsToFire': seq<Event>)
      requires block.writing
      modifies block`staged
      ensures var previous := Get(old(block.staged), stateHandle);
              var next := PointNext(previous, timeStamp, payloadOrError);
              block.staged == old(block.staged)[stateHandle := next]
              && eventsToFire' == eventsToFire + PointEvents(View(), previous, next, changes)
    {
      var previous := Get(block.staged, stateHandle);
      var next := PointNext(previous, timeStamp, payloadOrError);
      block.Stage(stateHandle, next);
      eventsToFire' := eventsToFire + PointEvents(View(), previous, next, changes);
    }
  }
}
