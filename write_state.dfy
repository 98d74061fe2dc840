/**
 * WriteState: the state of the last write of an I/O transaction (its time and
 * its error), stored as one object of the write data block, with one event for
 * a successful write and one for a failed write.
 */
module WriteStates {
  import opened Common
  import opened DataBlocks
  import Walk

  const WriteTimeAttribute := Attribute("writeTime", ReadOnly)
  const WriteErrorAttribute := Attribute("writeError", ReadOnly)

  /** The attributes a write state owns. */
  const WriteStateAttributes := [WriteTimeAttribute, WriteErrorAttribute]

  /** The most events one update requests: exactly one of the two. */
  const WriteStateMaxEvents: nat := 1

  /** What a write state is, seen from outside: its object in the data block and its two events. */
  datatype WriteView = WriteView(slot: nat, writtenEvent: Event, writeErrorEvent: Event)

  /** The State object after a write at `timeStamp` that ended with `error` (successful or not). */
  function WriteOutcome(timeStamp: TimePoint, error: ErrorCode): (r: Record)
    ensures r.time == timeStamp && r.error == error && r.value.None?
  {
    Record(timeStamp, error, None)
  }

  /** The events an update requests: the written event on success, the write-error event on error. */
  function WriteEvents(view: WriteView, error: ErrorCode): (r: seq<Event>)
    ensures |r| == WriteStateMaxEvents
    ensures r[0] == view.writtenEvent || r[0] == view.writeErrorEvent
  {
    if error.IsError() then [view.writeErrorEvent] else [view.writtenEvent]
  }

  /** Because the two events are distinct objects, the event an update requests tells success from failure. */
  lemma WriteEventIdentifiesOutcome(view: WriteView, error: ErrorCode)
    requires view.writtenEvent != view.writeErrorEvent
    ensures WriteEvents(view, error)[0] == view.writtenEvent <==> !error.IsError()
    ensures WriteEvents(view, error)[0] == view.writeErrorEvent <==> error.IsError()
  {
  }

  /**
   * A write state whose object has no committed version yet (as after the
   * block is created) reads as a write at the minimum time point that ended
   * without error.
   */
  lemma FreshStateIsNotAnError(state: WriteState, block: DataBlock)
    requires state.stateHandle !in block.committed
    ensures block.Read(state.stateHandle) == WriteOutcome(MinTimePoint, NoError)
    ensures !block.Read(state.stateHandle).error.IsError()
  {
  }

  /** A default-constructed error code means success: the written event fires. */
  lemma DefaultErrorMeansWritten(view: WriteView)
    ensures WriteEvents(view, NoError) == [view.writtenEvent]
  {
  }

  class WriteState {
    const writtenEvent: Event
    const writeErrorEvent: Event
    var stateHandle: nat

    ghost predicate Valid()
    {
      writtenEvent != writeErrorEvent
    }

    /** The two events are members of the write state, so they are distinct objects. */
    constructor ()
      ensures Valid() && fresh(writtenEvent) && fresh(writeErrorEvent) && stateHandle == 0
      ensures writtenEvent.direction == OutputDirection && writeErrorEvent.direction == OutputDirection
    {
      writtenEvent := new Event(OutputDirection);
      writeErrorEvent := new Event(OutputDirection);
      stateHandle := 0;
    }

    function View(): (v: WriteView)
      reads this
      ensures v.slot == stateHandle && v.writtenEvent == writtenEvent && v.writeErrorEvent == writeErrorEvent
    {
      WriteView(stateHandle, writtenEvent, writeErrorEvent)
    }

    function Events(): seq<NamedEvent>
    {
      [NamedEvent("written", writtenEvent), NamedEvent("writeError", writeErrorEvent)]
    }

    /** resolveAttribute: absent for a name the write state does not own. */
    function ResolveAttribute(name: string): (r: Option<Attribute>)
      ensures r.Some? <==> name == WriteTimeAttribute.name || name == WriteErrorAttribute.name
      ensures r.Some? ==> r.value in WriteStateAttributes && r.value.name == name
    {
      assert WriteStateAttributes[0].name == "writeTime" && WriteStateAttributes[1].name == "writeError";
      FindAttribute(WriteStateAttributes, name)
    }

    /** resolveEvent: absent for a name the write state does not own. */
    function ResolveEvent(name: string): (r: Option<Event>)
      requires writtenEvent != writeErrorEvent
      ensures r == Some(writtenEvent) <==> name == "written"
      ensures r == Some(writeErrorEvent) <==> name == "writeError"
      ensures r.None? <==> name != "written" && name != "writeError"
    {
      var events := Events();
      assert events[0] == NamedEvent("written", writtenEvent) && events[1] == NamedEvent("writeError", writeErrorEvent);
      FindEvent(events, name)
    }

    /** readHandle: a handle on this state's object for its own attributes, absent otherwise; never throws. */
    function ReadHandle(block: DataBlock, attribute: Attribute): (r: Option<ReadHandle>)
      reads this
      ensures r.Some? <==> attribute in WriteStateAttributes
      ensures r.Some? ==> r.value.DataHandle? && r.value.block == block && r.value.slot == stateHandle
                          && r.value.attribute == attribute
    {
      if attribute in WriteStateAttributes then Some(DataHandle(block, stateHandle, attribute)) else None
    }

    function ForEachAttribute(f: Attribute -> bool): (r: Walk.WalkResult<Attribute>)
      ensures r == Walk.ForEach(WriteStateAttributes, f)
    {
      Walk.ForEach(WriteStateAttributes, f)
    }

    function ForEachEvent(f: NamedEvent -> bool): (r: Walk.WalkResult<NamedEvent>)
      ensures r == Walk.ForEach(Events(), f)
    {
      Walk.ForEach(Events(), f)
    }

    /** attach: appends the State object to the layout and adds what one update may request to the budget. */
    method Attach(layout: DataArray, eventCount: nat) returns (eventCount': nat)
      modifies this`stateHandle, layout
      ensures stateHandle == old(layout.size) && layout.size == old(layout.size) + 1
      ensures eventCount' == eventCount + WriteStateMaxEvents
    {
      stateHandle := layout.AppendObject();
      eventCount' := eventCount + WriteStateMaxEvents;
    }

    /**
     * update: records the time and error of the write through the sentinel
     * opened on `block` and requests its event by appending it to the list;
     * nothing is fired here.
     */
    method Update(block: DataBlock, timeStamp: TimePoint, error: ErrorCode, eventsToFire: seq<Event>)
      returns (eventsToFire': seq<Event>)
      requires block.writing
      modifies block`staged
      ensures block.staged == old(block.staged)[stateHandle := WriteOutcome(timeStamp, error)]
      ensures eventsToFire' == eventsToFire + WriteEvents(View(), error)
    {
      block.Stage(stateHandle, WriteOutcome(timeStamp, error));
      eventsToFire' := eventsToFire + WriteEvents(View(), error);
    }
  }
}
