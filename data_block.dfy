/**
 * The memory library the driver builds on: a data array that lays out the
 * objects of a data block, the data block itself, and the write sentinel
 * through which a writer changes it. Only the behaviour the driver relies on
 * is modelled: a block holds a committed version that readers see and, while
 * a sentinel is open, a staged copy that the writer changes; a commit
 * publishes the staged copy and then releases the events collected for it.
 */
module DataBlocks {
  import opened Common

  datatype Access = ReadOnly | ReadWrite

  /** A model::Attribute: a named field a data point or transaction exposes. */
  datatype Attribute = Attribute(name: string, access: Access)

  /** A process::Event together with the name it is resolved by. */
  datatype NamedEvent = NamedEvent(name: string, event: Event)

  /** One published version of a block: the commit time and the events released after it, in order. */
  datatype Published = Published(time: TimePoint, events: seq<Event>)

  /** The record at `slot`; a slot never written holds a default-constructed record. */
  function Get(content: map<nat, Record>, slot: nat): (r: Record)
    ensures slot !in content ==> r == DefaultRecord
  {
    if slot in content then content[slot] else DefaultRecord
  }

  /** memory::Array: the layout of a data block, built by appending one object at a time. */
  class DataArray {
    var size: nat

    constructor ()
      ensures size == 0
    {
      size := 0;
    }

    /** Appends an object to the layout; its handle is its position. */
    method AppendObject() returns (handle: nat)
      modifies this
      ensures handle == old(size) && size == old(size) + 1
    {
      handle := size;
      size := size + 1;
    }
  }

  /** A data block with its write sentinel. */
  class DataBlock {
    var slotCount: nat                 // the objects its data array laid out
    var committed: map<nat, Record>    // the version readers see
    var staged: map<nat, Record>       // the writer's copy while a sentinel is open
    var writing: bool                  // a sentinel is open
    var history: seq<Published>           // every version published so far

    constructor ()
      ensures slotCount == 0 && committed == map[] && !writing && history == []
    {
      slotCount := 0;
      committed := map[];
      staged := map[];
      writing := false;
      history := [];
    }

    /** DataBlock::create: allocates the block for the layout `layout`, every object default-constructed. */
    method Create(layout: DataArray)
      requires !writing
      modifies this
      ensures slotCount == layout.size && committed == map[] && !writing && history == old(history)
    {
      slotCount := layout.size;
      committed := map[];
      staged := map[];
    }

    /** The record a read handle for `slot` sees: always the committed version. */
    function Read(slot: nat): (r: Record)
      reads this
      ensures slot !in committed ==> r == DefaultRecord
    {
      Get(committed, slot)
    }

    /** Constructing a memory::WriteSentinel: the staged copy starts as the committed version. */
    method OpenSentinel()
      requires !writing
      modifies this`staged, this`writing
      ensures writing && staged == committed
    {
      staged := committed;
      writing := true;
    }

    /** Writing one object through the sentinel; readers do not see it yet. */
    method Stage(slot: nat, record: Record)
      requires writing
      modifies this`staged
      ensures staged == old(staged)[slot := record]
    {
      staged := staged[slot := record];
    }

    /** sentinel.commit: publishes the staged copy, then releases the events in list order. */
    method Commit(timeStamp: TimePoint, events: seq<Event>)
      requires writing
      modifies this`committed, this`writing, this`history
      ensures !writing && committed == old(staged)
      ensures history == old(history) + [Published(timeStamp, events)]
    {
      committed := staged;
      writing := false;
      history := history + [Published(timeStamp, events)];
    }

    /** Destroying a sentinel that was never committed: nothing is published and no event is released. */
    method Discard()
      requires writing
      modifies this`writing
      ensures !writing
      ensures committed == old(committed) && history == old(history)
    {
      writing := false;
    }
  }

  /** Looks an attribute up by name; absent when no attribute has that name. */
  function FindAttribute(attributes: seq<Attribute>, name: string): (r: Option<Attribute>)
    ensures r.Some? <==> exists i :: 0 <= i < |attributes| && attributes[i].name == name
    ensures r.Some? ==> r.value in attributes && r.value.name == name
  {
    if attributes == [] then None
    else if attributes[0].name == name then Some(attributes[0])
    else
      var r := FindAttribute(attributes[1..], name);
      assert forall i :: 1 <= i < |attributes| ==> attributes[i] == attributes[1..][i - 1];
      r
  }

  /** Looks an event up by name; absent when no event has that name. */
  function FindEvent(events: seq<NamedEvent>, name: string): (r: Option<Event>)
    ensures r.Some? <==> exists i :: 0 <= i < |events| && events[i].name == name
    ensures r.Some? ==> NamedEvent(name, r.value) in events
  {
    if events == [] then None
    else if events[0].name == name then Some(events[0].event)
    else
      var r := FindEvent(events[1..], name);
      assert forall i :: 1 <= i < |events| ==> events[i] == events[1..][i - 1];
      r
  }

  /**
   * A data::ReadHandle: bound to one attribute of one object of a data block,
   * or holding the error that prevented building it.
   */
  datatype ReadHandle =
    | DataHandle(block: DataBlock, slot: nat, attribute: Attribute)
    | ErrorHandle(error: ErrorCode)
}
