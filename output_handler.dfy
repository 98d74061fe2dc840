/**
 * The output handler: the part of an output data point that depends on its
 * value type. The transaction sees it only through the operations of
 * AbstractTemplateOutputHandler, whose contract this module states: lookups
 * that answer "absent" for names the handler does not own, attach operations
 * that add the handler's event budget, a write-command step that consumes the
 * pending value, and updates that only append to the list of events to fire.
 * The typed implementation behind the interface is a stand-in built from one
 * point read state and one write state.
 */
module OutputHandlers {
  import opened Common
  import opened DataBlocks
  import opened ReadStates
  import opened WriteStates

  /** The output's value: readable, and writable by an external write request. */
  const OutputValueAttribute := Attribute("value", ReadWrite)

  /** The attributes read from the read data block. */
  const OutputReadAttributes := [OutputValueAttribute, PointUpdateTimeAttribute, PointReadErrorAttribute]

  /** Every attribute the handler owns. */
  const OutputAttributes := OutputReadAttributes + WriteStateAttributes

  /** A data::WriteHandle on an output's value: writing through it sets the pending value. */
  datatype WriteHandle = PendingValueHandle(handler: OutputHandler)

  /** WriteCommand: the values collected for one device write, in the order they were added. */
  type WriteCommand = seq<Value>

  class OutputHandler {
    const kind: ValueKind
    const readState: PointReadState
    const writeState: WriteState
    var pending: Option<Value>        // the value an external write request queued, not yet sent

    ghost predicate Valid()
    {
      writeState.writtenEvent != writeState.writeErrorEvent
    }

    /** The handler owns its read state and its write state. */
    constructor (kind: ValueKind)
      ensures Valid() && fresh(readState) && fresh(writeState)
      ensures this.kind == kind && readState.stateHandle == 0 && writeState.stateHandle == 0 && pending.None?
    {
      this.kind := kind;
      readState := new PointReadState();
      writeState := new WriteState();
      pending := None;
    }

    /** dataType */
    function DataType(): (k: ValueKind)
      ensures k == kind
    {
      kind
    }

    function Events(): seq<NamedEvent>
    {
      readState.Events() + writeState.Events()
    }

    /** resolveAttribute: absent for a name the handler does not own. */
    function ResolveAttribute(name: string): (r: Option<Attribute>)
      ensures r.Some? <==> exists i :: 0 <= i < |OutputAttributes| && OutputAttributes[i].name == name
      ensures r.Some? ==> r.value in OutputAttributes && r.value.name == name
    {
      FindAttribute(OutputAttributes, name)
    }

    /** resolveEvent: absent for a name the handler does not own. */
    function ResolveEvent(name: string): (r: Option<Event>)
      ensures r.Some? <==> exists i :: 0 <= i < |Events()| && Events()[i].name == name
      ensures r.Some? ==> NamedEvent(name, r.value) in Events()
    {
      FindEvent(Events(), name)
    }

    /**
     * readHandle: the value, update time and error are read from the point's
     * object in the read data block, the write time and write error from its
     * object in the write data block; absent for anything else, never an error.
     */
    function ReadHandle(attribute: Attribute, readBlock: DataBlock, writeBlock: DataBlock): (r: Option<ReadHandle>)
      reads readState, writeState
      ensures r.Some? <==> attribute in OutputAttributes
      ensures attribute in OutputReadAttributes ==> r == Some(DataHandle(readBlock, readState.stateHandle, attribute))
      ensures attribute in WriteStateAttributes ==> r == Some(DataHandle(writeBlock, writeState.stateHandle, attribute))
    {
      if attribute in OutputReadAttributes then Some(DataHandle(readBlock, readState.stateHandle, attribute))
      else writeState.ReadHandle(writeBlock, attribute)
    }

    /** writeHandle: only the value can be written; absent for read-only and unknown attributes. */
    function WriteHandle(attribute: Attribute): (r: Option<WriteHandle>)
      ensures r.Some? <==> attribute in OutputAttributes && attribute.access == ReadWrite
      ensures r.Some? ==> r.value.handler == this
    {
      assert forall i :: 0 <= i < |OutputAttributes| && OutputAttributes[i].access == ReadWrite ==> i == 0;
      if attribute == OutputValueAttribute then Some(PendingValueHandle(this)) else None
    }

    /** attachReadState: adds at most what one read update may request to the budget. */
    method AttachReadState(layout: DataArray, eventCount: nat) returns (eventCount': nat)
      modifies readState, layout
      ensures readState.stateHandle == old(layout.size) && layout.size == old(layout.size) + 1
      ensures eventCount' == eventCount + PointReadStateMaxEvents
    {
      eventCount' := readState.Attach(layout, eventCount);
    }

    /** updateReadState: stages the point's read outcome; events are only appended, within the budget. */
    method UpdateReadState(block: DataBlock, timeStamp: TimePoint, payloadOrError: PayloadOrError,
                           changes: Changes, eventsToFire: seq<Event>)
      returns (eventsToFire': seq<Event>)
      requires block.writing
      modifies block`staged
      ensures eventsToFire <= eventsToFire' && |eventsToFire'| <= |eventsToFire| + PointReadStateMaxEvents
      ensures var previous := Get(old(block.staged), readState.stateHandle);
              var next := PointNext(previous, timeStamp, payloadOrError);
              block.staged == old(block.staged)[readState.stateHandle := next]
              && eventsToFire' == eventsToFire + PointEvents(readState.View(), previous, next, changes)
    {
      eventsToFire' := readState.Update(block, timeStamp, payloadOrError, changes, eventsToFire);
    }

    /** attachWriteState: adds what one write update may request to the budget. */
    method AttachWriteState(layout: DataArray, eventCount: nat) returns (eventCount': nat)
      modifies writeState, layout
      ensures writeState.stateHandle == old(layout.size) && layout.size == old(layout.size) + 1
      ensures eventCount' == eventCount + WriteStateMaxEvents
    {
      eventCount' := writeState.Attach(layout, eventCount);
    }

    /**
     * addToWriteCommand: true exactly when a value was pending; that value is
     * appended to the command and is no longer pending. With nothing pending
     * the command is left as it was.
     */
    method AddToWriteCommand(command: WriteCommand) returns (added: bool, command': WriteCommand)
      modifies this`pending
      ensures added <==> old(pending).Some?
      ensures added ==> command' == command + [old(pending).value]
      ensures !added ==> command' == command
      ensures pending.None?
    {
      match pending
      case Some(v) =>
        added, command' := true, command + [v];
        pending := None;
      case None =>
        added, command' := false, command;
    }

    /**
     * updateWriteState: stages the write outcome; a default-constructed error
     * code means success. Events are only appended, within the budget.
     */
    method UpdateWriteState(block: DataBlock, timeStamp: TimePoint, error: ErrorCode, eventsToFire: seq<Event>)
      returns (eventsToFire': seq<Event>)
      requires block.writing
      modifies block`staged
      ensures eventsToFire <= eventsToFire' && |eventsToFire'| <= |eventsToFire| + WriteStateMaxEvents
      ensures block.staged == old(block.staged)[writeState.stateHandle := WriteOutcome(timeStamp, error)]
      ensures eventsToFire' == eventsToFire + WriteEvents(writeState.View(), error)
    {
      eventsToFire' := writeState.Update(block, timeStamp, error, eventsToFire);
    }
  }

  /** An output data point: its I/O component and its handler (the forwarding layer is not modelled). */
  class TemplateOutput {
    const ioComponent: nat
    const handler: OutputHandler

    constructor (ioComponent: nat, handler: OutputHandler)
      ensures this.ioComponent == ioComponent && this.handler == handler
    {
      this.ioComponent, this.handler := ioComponent, handler;
    }
  }
}
