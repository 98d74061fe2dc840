/**
 * The I/O transaction: it polls its inputs with one read command and writes
 * its outputs with one write command. It owns a common read state in the read
 * data block and a write state in the write data block, collects the events
 * of an update in a scratch buffer and releases them when the update is
 * committed.
 *
 * Every update is specified by a value-level cycle (ReadCycle, WriteCycle):
 * the content the data block is committed with and the events released after
 * it. The properties of a cycle are proved as lemmas about those functions.
 */
module IoTransactions {
  import opened Common
  import opened DataBlocks
  import opened ReadStates
  import opened WriteStates
  import opened OutputHandlers
  import opened TemplateInputs
  import Walk

  /** tasks::kRead and tasks::kWrite: the roles of the two tasks a transaction offers. */
  datatype Task = ReadTask | WriteTask

  /** The tasks in the order forEachTask offers them. */
  const Tasks := [ReadTask, WriteTask]

  /** What an update leaves behind: the content to commit and the events to release after the commit. */
  datatype Cycle = Cycle(staged: map<nat, Record>, events: seq<Event>)

  // ---------------------------------------------------------------------------
  // The read cycle (updateInputs)
  // ---------------------------------------------------------------------------

  /** Every input, in attachment order, records the read outcome with the same change descriptor. */
  function InputsCycle(views: seq<PointView>, staged: map<nat, Record>, timeStamp: TimePoint,
                       payloadOrError: PayloadOrError, changes: Changes, events: seq<Event>): Cycle
    decreases |views|
  {
    if views == [] then Cycle(staged, events)
    else
      var previous := Get(staged, views[0].slot);
      var next := PointNext(previous, timeStamp, payloadOrError);
      InputsCycle(views[1..], staged[views[0].slot := next], timeStamp, payloadOrError, changes,
                  events + PointEvents(views[0], previous, next, changes))
  }

  /** One input of the cycle: the loop step of updateInputs. */
  lemma InputsCycleStep(views: seq<PointView>, i: nat, staged: map<nat, Record>, timeStamp: TimePoint,
                        payloadOrError: PayloadOrError, changes: Changes, events: seq<Event>)
    requires i < |views|
    ensures var previous := Get(staged, views[i].slot);
            var next := PointNext(previous, timeStamp, payloadOrError);
            InputsCycle(views[i..], staged, timeStamp, payloadOrError, changes, events)
            == InputsCycle(views[i + 1..], staged[views[i].slot := next], timeStamp, payloadOrError, changes,
                           events + PointEvents(views[i], previous, next, changes))
  {
    assert views[i..][1..] == views[i + 1..];
  }

  /** No input left: the cycle is what has been collected. */
  lemma InputsCycleDone(views: seq<PointView>, staged: map<nat, Record>, timeStamp: TimePoint,
                        payloadOrError: PayloadOrError, changes: Changes, events: seq<Event>)
    requires |views| == 0
    ensures InputsCycle(views, staged, timeStamp, payloadOrError, changes, events) == Cycle(staged, events)
  {
  }

  /** updateInputs: the common read state first, then every input with the changes it reported. */
  function ReadCycle(common: CommonView, views: seq<PointView>, committed: map<nat, Record>,
                     timeStamp: TimePoint, payloadOrError: PayloadOrError): Cycle
  {
    var u := UpdateCommon(common, Get(committed, common.slot), timeStamp, ErrorOf(payloadOrError));
    InputsCycle(views, committed[common.slot := u.record], timeStamp, payloadOrError, u.changes, u.events)
  }

  /** The objects of distinct data points are distinct. */
  predicate DistinctSlots(views: seq<PointView>)
  {
    forall i, j :: 0 <= i < j < |views| ==> views[i].slot != views[j].slot
  }

  /** An input update only appends events, at most its budget each. */
  lemma {:induction false} InputsCycleEvents(views: seq<PointView>, staged: map<nat, Record>, timeStamp: TimePoint,
                                             payloadOrError: PayloadOrError, changes: Changes, events: seq<Event>)
    ensures var r := InputsCycle(views, staged, timeStamp, payloadOrError, changes, events);
            events <= r.events && |r.events| <= |events| + PointReadStateMaxEvents * |views|
  {
    if views != [] {
      var previous := Get(staged, views[0].slot);
      var next := PointNext(previous, timeStamp, payloadOrError);
      var events' := events + PointEvents(views[0], previous, next, changes);
      InputsCycleEvents(views[1..], staged[views[0].slot := next], timeStamp, payloadOrError, changes, events');
    }
  }

  /**
   * With distinct objects, each input's object holds the read outcome applied
   * to its previous content, and every other object is left as it was.
   */
  lemma {:induction false} InputsCycleRecords(views: seq<PointView>, staged: map<nat, Record>, timeStamp: TimePoint,
                                              payloadOrError: PayloadOrError, changes: Changes, events: seq<Event>)
    requires DistinctSlots(views)
    ensures var r := InputsCycle(views, staged, timeStamp, payloadOrError, changes, events);
            forall i :: 0 <= i < |views| ==>
              Get(r.staged, views[i].slot) == PointNext(Get(staged, views[i].slot), timeStamp, payloadOrError)
    ensures var r := InputsCycle(views, staged, timeStamp, payloadOrError, changes, events);
            forall k: nat :: (forall i :: 0 <= i < |views| ==> views[i].slot != k) ==> Get(r.staged, k) == Get(staged, k)
  {
    if views != [] {
      var v, rest := views[0], views[1..];
      var previous := Get(staged, v.slot);
      var next := PointNext(previous, timeStamp, payloadOrError);
      var staged' := staged[v.slot := next];
      var events' := events + PointEvents(v, previous, next, changes);
      assert forall i :: 1 <= i < |views| ==> views[i] == rest[i - 1];
      InputsCycleRecords(rest, staged', timeStamp, payloadOrError, changes, events');
      var r := InputsCycle(views, staged, timeStamp, payloadOrError, changes, events);
      assert r == InputsCycle(rest, staged', timeStamp, payloadOrError, changes, events');
      forall i | 0 <= i < |views|
        ensures Get(r.staged, views[i].slot) == PointNext(Get(staged, views[i].slot), timeStamp, payloadOrError)
      {
        if i == 0 {
          assert forall j :: 0 <= j < |rest| ==> rest[j].slot != v.slot;
        } else {
          assert rest[i - 1] == views[i];
        }
      }
      forall k: nat | forall i :: 0 <= i < |views| ==> views[i].slot != k
        ensures Get(r.staged, k) == Get(staged, k)
      {
        assert forall j :: 0 <= j < |rest| ==> rest[j] == views[j + 1];
      }
    }
  }

  /** When the common error changed, every input requests its quality-changed event. */
  lemma {:induction false} InputsCycleQuality(views: seq<PointView>, staged: map<nat, Record>, timeStamp: TimePoint,
                                              payloadOrError: PayloadOrError, changes: Changes, events: seq<Event>)
    requires changes.errorChanged
    ensures var r := InputsCycle(views, staged, timeStamp, payloadOrError, changes, events);
            forall i :: 0 <= i < |views| ==> views[i].qualityChangedEvent in r.events
  {
    if views != [] {
      var v, rest := views[0], views[1..];
      var previous := Get(staged, v.slot);
      var next := PointNext(previous, timeStamp, payloadOrError);
      var staged' := staged[v.slot := next];
      var events' := events + PointEvents(v, previous, next, changes);
      InputsCycleQuality(rest, staged', timeStamp, payloadOrError, changes, events');
      InputsCycleEvents(rest, staged', timeStamp, payloadOrError, changes, events');
      var r := InputsCycle(rest, staged', timeStamp, payloadOrError, changes, events');
      assert v.qualityChangedEvent in events';
      assert v.qualityChangedEvent in r.events by {
        var k :| 0 <= k < |events'| && events'[k] == v.qualityChangedEvent;
        assert r.events[k] == events'[k];
      }
      assert forall i :: 1 <= i < |views| ==> views[i] == rest[i - 1];
    }
  }

  /** A read cycle requests at most the common state's budget plus every input's budget. */
  lemma ReadCycleWithinBudget(common: CommonView, views: seq<PointView>, committed: map<nat, Record>,
                              timeStamp: TimePoint, payloadOrError: PayloadOrError)
    ensures |ReadCycle(common, views, committed, timeStamp, payloadOrError).events|
            <= CommonReadStateMaxEvents + PointReadStateMaxEvents * |views|
  {
    var u := UpdateCommon(common, Get(committed, common.slot), timeStamp, ErrorOf(payloadOrError));
    InputsCycleEvents(views, committed[common.slot := u.record], timeStamp, payloadOrError, u.changes, u.events);
  }

  /**
   * With distinct objects: the common read state holds the read's time and
   * error; every input holds the read outcome applied to its previous content
   * (the same time stamp and the same payload or error for all); nothing else
   * changes.
   */
  lemma ReadCycleRecords(common: CommonView, views: seq<PointView>, committed: map<nat, Record>,
                         timeStamp: TimePoint, payloadOrError: PayloadOrError)
    requires DistinctSlots(views) && forall i :: 0 <= i < |views| ==> views[i].slot != common.slot
    ensures var c := ReadCycle(common, views, committed, timeStamp, payloadOrError);
            Get(c.staged, common.slot) == Record(timeStamp, ErrorOf(payloadOrError), None)
    ensures var c := ReadCycle(common, views, committed, timeStamp, payloadOrError);
            forall i :: 0 <= i < |views| ==>
              Get(c.staged, views[i].slot) == PointNext(Get(committed, views[i].slot), timeStamp, payloadOrError)
    ensures var c := ReadCycle(common, views, committed, timeStamp, payloadOrError);
            forall k: nat :: k != common.slot && (forall i :: 0 <= i < |views| ==> views[i].slot != k)
                             ==> Get(c.staged, k) == Get(committed, k)
  {
    var u := UpdateCommon(common, Get(committed, common.slot), timeStamp, ErrorOf(payloadOrError));
    var staged := committed[common.slot := u.record];
    InputsCycleRecords(views, staged, timeStamp, payloadOrError, u.changes, u.events);
    assert forall i :: 0 <= i < |views| ==> Get(staged, views[i].slot) == Get(committed, views[i].slot);
  }

  /**
   * A failed read, and invalidateData's "no data" in particular, keeps every
   * input's last value and marks it with the error and the time stamp.
   */
  lemma ReadFailureKeepsValues(common: CommonView, views: seq<PointView>, committed: map<nat, Record>,
                               timeStamp: TimePoint, error: ErrorCode)
    requires DistinctSlots(views) && forall i :: 0 <= i < |views| ==> views[i].slot != common.slot
    ensures var c := ReadCycle(common, views, committed, timeStamp, ReadError(error));
            forall i :: 0 <= i < |views| ==>
              Get(c.staged, views[i].slot) == Record(timeStamp, error, Get(committed, views[i].slot).value)
  {
    ReadCycleRecords(common, views, committed, timeStamp, ReadError(error));
  }

  /**
   * The change descriptor of the common read state reaches every input: when
   * the common error changes, every input requests its quality-changed event,
   * after the common state's own transition event.
   */
  lemma ErrorChangeReachesEveryInput(common: CommonView, views: seq<PointView>, committed: map<nat, Record>,
                                     timeStamp: TimePoint, payloadOrError: PayloadOrError)
    requires !SameError(Get(committed, common.slot).error, ErrorOf(payloadOrError))
    ensures var c := ReadCycle(common, views, committed, timeStamp, payloadOrError);
            && |c.events| > 0
            && (c.events[0] == common.errorEvent || c.events[0] == common.okEvent)
            && forall i :: 0 <= i < |views| ==> views[i].qualityChangedEvent in c.events
  {
    var u := UpdateCommon(common, Get(committed, common.slot), timeStamp, ErrorOf(payloadOrError));
    var staged := committed[common.slot := u.record];
    InputsCycleQuality(views, staged, timeStamp, payloadOrError, u.changes, u.events);
    InputsCycleEvents(views, staged, timeStamp, payloadOrError, u.changes, u.events);
  }

  // ---------------------------------------------------------------------------
  // The write cycle (updateOutputs)
  // ---------------------------------------------------------------------------

  /** Every output passed in, in order, records the write outcome with the same error code. */
  function OutputsCycle(views: seq<WriteView>, staged: map<nat, Record>, timeStamp: TimePoint,
                        error: ErrorCode, events: seq<Event>): Cycle
    decreases |views|
  {
    if views == [] then Cycle(staged, events)
    else OutputsCycle(views[1..], staged[views[0].slot := WriteOutcome(timeStamp, error)], timeStamp, error,
                      events + WriteEvents(views[0], error))
  }

  /** One output of the cycle: the loop step of updateOutputs. */
  lemma OutputsCycleStep(views: seq<WriteView>, i: nat, staged: map<nat, Record>, timeStamp: TimePoint,
                         error: ErrorCode, events: seq<Event>)
    requires i < |views|
    ensures OutputsCycle(views[i..], staged, timeStamp, error, events)
            == OutputsCycle(views[i + 1..], staged[views[i].slot := WriteOutcome(timeStamp, error)], timeStamp, error,
                            events + WriteEvents(views[i], error))
  {
    assert views[i..][1..] == views[i + 1..];
  }

  /** updateOutputs: the transaction's own write state first, then every output passed in. */
  function WriteCycle(own: WriteView, views: seq<WriteView>, committed: map<nat, Record>,
                      timeStamp: TimePoint, error: ErrorCode): Cycle
  {
    OutputsCycle(views, committed[own.slot := WriteOutcome(timeStamp, error)], timeStamp, error,
                 WriteEvents(own, error))
  }

  /**
   * Each output passed in requests exactly one event, in order: the written
   * event on success, the write-error event on failure. Its object holds the
   * write's time and error; every other object is left as it was.
   */
  lemma {:induction false} OutputsCycleFacts(views: seq<WriteView>, staged: map<nat, Record>, timeStamp: TimePoint,
                                             error: ErrorCode, events: seq<Event>)
    ensures var r := OutputsCycle(views, staged, timeStamp, error, events);
            && |r.events| == |events| + |views| && events <= r.events
            && forall i :: 0 <= i < |views| ==>
                 r.events[|events| + i] == (if error.IsError() then views[i].writeErrorEvent else views[i].writtenEvent)
    ensures var r := OutputsCycle(views, staged, timeStamp, error, events);
            forall i :: 0 <= i < |views| ==> Get(r.staged, views[i].slot) == WriteOutcome(timeStamp, error)
    ensures var r := OutputsCycle(views, staged, timeStamp, error, events);
            forall k: nat :: (forall i :: 0 <= i < |views| ==> views[i].slot != k) ==> Get(r.staged, k) == Get(staged, k)
  {
    if views != [] {
      var v, rest := views[0], views[1..];
      var staged' := staged[v.slot := WriteOutcome(timeStamp, error)];
      var events' := events + WriteEvents(v, error);
      OutputsCycleFacts(rest, staged', timeStamp, error, events');
      var r := OutputsCycle(views, staged, timeStamp, error, events);
      assert r == OutputsCycle(rest, staged', timeStamp, error, events');
      assert forall i :: 1 <= i < |views| ==> views[i] == rest[i - 1];
      assert r.events[|events|] == events'[|events|];
      forall i | 0 <= i < |views|
        ensures Get(r.staged, views[i].slot) == WriteOutcome(timeStamp, error)
      {
        if i == 0 && forall j :: 0 <= j < |rest| ==> rest[j].slot != v.slot {
        } else if i == 0 {
          var j :| 0 <= j < |rest| && rest[j].slot == v.slot;
        } else {
          assert rest[i - 1] == views[i];
        }
      }
      forall k: nat | forall i :: 0 <= i < |views| ==> views[i].slot != k
        ensures Get(r.staged, k) == Get(staged, k)
      {
        assert forall j :: 0 <= j < |rest| ==> rest[j] == views[j + 1];
      }
    }
  }

  /**
   * A write cycle requests exactly one event for the write state and one per
   * output passed in; the write state and every output passed in hold the
   * write's time and error, and every other object is left as it was.
   */
  lemma WriteCycleRecords(own: WriteView, views: seq<WriteView>, committed: map<nat, Record>,
                          timeStamp: TimePoint, error: ErrorCode)
    ensures var c := WriteCycle(own, views, committed, timeStamp, error);
            && |c.events| == WriteStateMaxEvents + WriteStateMaxEvents * |views|
            && c.events[0] == (if error.IsError() then own.writeErrorEvent else own.writtenEvent)
    ensures var c := WriteCycle(own, views, committed, timeStamp, error);
            && (forall i :: 0 <= i < |views| ==> Get(c.staged, views[i].slot) == WriteOutcome(timeStamp, error))
            && ((forall i :: 0 <= i < |views| ==> views[i].slot != own.slot) ==>
                  Get(c.staged, own.slot) == WriteOutcome(timeStamp, error))
    ensures var c := WriteCycle(own, views, committed, timeStamp, error);
            forall k: nat :: k != own.slot && (forall i :: 0 <= i < |views| ==> views[i].slot != k)
                             ==> Get(c.staged, k) == Get(committed, k)
  {
    var staged := committed[own.slot := WriteOutcome(timeStamp, error)];
    OutputsCycleFacts(views, staged, timeStamp, error, WriteEvents(own, error));
  }

  /**
   * The capacity realize reserves for the event buffer is enough for every
   * read cycle over the inputs and every write cycle over some of the outputs.
   */
  function EventsCapacity(inputCount: nat, outputCount: nat): (n: nat)
  {
    Max(CommonReadStateMaxEvents + PointReadStateMaxEvents * inputCount,
        WriteStateMaxEvents + WriteStateMaxEvents * outputCount)
  }

  lemma EventBufferNeverOverflows(common: CommonView, views: seq<PointView>, readCommitted: map<nat, Record>,
                                  payloadOrError: PayloadOrError, own: WriteView, notified: seq<WriteView>,
                                  outputCount: nat, writeCommitted: map<nat, Record>,
                                  timeStamp: TimePoint, error: ErrorCode)
    requires |notified| <= outputCount
    ensures |ReadCycle(common, views, readCommitted, timeStamp, payloadOrError).events|
            <= EventsCapacity(|views|, outputCount)
    ensures |WriteCycle(own, notified, writeCommitted, timeStamp, error).events|
            <= EventsCapacity(|views|, outputCount)
  {
    ReadCycleWithinBudget(common, views, readCommitted, timeStamp, payloadOrError);
    WriteCycleRecords(own, notified, writeCommitted, timeStamp, error);
  }

  // ---------------------------------------------------------------------------
  // The updateOutputs sentinel (see README, Findings)
  // ---------------------------------------------------------------------------

  /**
   * As written, updateOutputs commits the write cycle to the read data block.
   * The write state is the first object of the write data array and the
   * common read state the first object of the read data array, so both sit at
   * the same position: after a failed read, a successful write makes the read
   * block report the common read state as free of errors.
   */
  lemma AsWrittenWriteClearsReadError(own: WriteView, common: CommonView, notified: seq<WriteView>,
                                      readCommitted: map<nat, Record>, timeStamp: TimePoint)
    requires own.slot == common.slot
    requires Get(readCommitted, common.slot).error.IsError()
    ensures !Get(WriteCycle(own, notified, readCommitted, timeStamp, NoError).staged, common.slot).error.IsError()
  {
    WriteCycleRecords(own, notified, readCommitted, timeStamp, NoError);
    if i :| 0 <= i < |notified| && notified[i].slot == common.slot {
      assert Get(WriteCycle(own, notified, readCommitted, timeStamp, NoError).staged, notified[i].slot)
             == WriteOutcome(timeStamp, NoError);
    }
  }

  /**
   * In the same way, the as-written cycle replaces the record at an output's
   * slot of the read block, in the model's slot numbering: a value an input
   * kept in that slot is lost.
   */
  lemma AsWrittenWriteErasesInputValue(own: WriteView, output: WriteView, readCommitted: map<nat, Record>,
                                       timeStamp: TimePoint, error: ErrorCode)
    requires Get(readCommitted, output.slot).value.Some?
    ensures Get(WriteCycle(own, [output], readCommitted, timeStamp, error).staged, output.slot).value.None?
  {
    WriteCycleRecords(own, [output], readCommitted, timeStamp, error);
  }

  // ---------------------------------------------------------------------------
  // The outputs a write collects
  // ---------------------------------------------------------------------------

  /** The handlers of a list of outputs. */
  function HandlersOf(list: seq<TemplateOutput>): set<OutputHandler>
  {
    set i | 0 <= i < |list| :: list[i].handler
  }

  /** The write states of the handlers of a list of outputs. */
  function WriteStatesOf(list: seq<TemplateOutput>): set<WriteState>
  {
    set i | 0 <= i < |list| :: list[i].handler.writeState
  }

  /** The pending value of each output's handler, in list order. */
  function PendingOf(list: seq<TemplateOutput>): (pending: seq<Option<Value>>)
    reads HandlersOf(list)
    ensures |pending| == |list|
    ensures forall i :: 0 <= i < |list| ==> pending[i] == list[i].handler.pending
  {
    if list == [] then []
    else
      assert HandlersOf(list[1..]) <= HandlersOf(list) by {
        forall h | h in HandlersOf(list[1..]) ensures h in HandlersOf(list) {
          var i :| 0 <= i < |list[1..]| && list[1..][i].handler == h;
          assert list[i + 1].handler == h;
        }
      }
      [list[0].handler.pending] + PendingOf(list[1..])
  }

  /** The write view of each output's write state, in list order. */
  function WriteViews(list: seq<TemplateOutput>): (views: seq<WriteView>)
    reads WriteStatesOf(list)
    ensures |views| == |list|
    ensures forall i :: 0 <= i < |list| ==> views[i] == list[i].handler.writeState.View()
  {
    if list == [] then []
    else
      assert WriteStatesOf(list[1..]) <= WriteStatesOf(list) by {
        forall w | w in WriteStatesOf(list[1..]) ensures w in WriteStatesOf(list) {
          var i :| 0 <= i < |list[1..]| && list[1..][i].handler.writeState == w;
          assert list[i + 1].handler.writeState == w;
        }
      }
      [list[0].handler.writeState.View()] + WriteViews(list[1..])
  }

  /** The outputs whose value is pending, in their original order. */
  function Notified(list: seq<TemplateOutput>, pending: seq<Option<Value>>): seq<TemplateOutput>
    requires |list| == |pending|
  {
    if list == [] then []
    else (if pending[0].Some? then [list[0]] else []) + Notified(list[1..], pending[1..])
  }

  /** The pending values, in their original order: the content of the write command. */
  function PendingValues(pending: seq<Option<Value>>): seq<Value>
  {
    if pending == [] then []
    else (if pending[0].Some? then [pending[0].value] else []) + PendingValues(pending[1..])
  }

  /** The outputs to notify are outputs of the list, and there are none exactly when nothing is pending. */
  lemma {:induction false} NotifiedFacts(list: seq<TemplateOutput>, pending: seq<Option<Value>>)
    requires |list| == |pending|
    ensures |Notified(list, pending)| <= |list|
    ensures Notified(list, pending) == [] <==> forall i :: 0 <= i < |pending| ==> pending[i].None?
    ensures forall x :: x in Notified(list, pending) ==> x in list
  {
    if list != [] {
      NotifiedFacts(list[1..], pending[1..]);
      assert forall i :: 1 <= i < |pending| ==> pending[1..][i - 1] == pending[i];
    }
  }

  /** Every value of the command was pending somewhere, and the command holds one per notified output. */
  lemma {:induction false} CommandMatchesNotified(list: seq<TemplateOutput>, pending: seq<Option<Value>>)
    requires |list| == |pending|
    ensures |PendingValues(pending)| == |Notified(list, pending)|
    ensures forall v :: v in PendingValues(pending) ==> Some(v) in pending
  {
    if list != [] {
      CommandMatchesNotified(list[1..], pending[1..]);
      assert forall v :: Some(v) in pending[1..] ==> Some(v) in pending;
    }
  }

  /**
   * The collecting loop of write, run over `list` from the outputs already
   * queued and the command already built: each output whose value is pending
   * is queued and its value added to the command.
   */
  function Collect(list: seq<TemplateOutput>, pending: seq<Option<Value>>,
                   queued: seq<TemplateOutput>, command: seq<Value>): (seq<TemplateOutput>, seq<Value>)
    requires |list| == |pending|
  {
    if list == [] then (queued, command)
    else if pending[0].Some? then Collect(list[1..], pending[1..], queued + [list[0]], command + [pending[0].value])
    else Collect(list[1..], pending[1..], queued, command)
  }

  /** The loop leaves behind exactly the outputs to notify and the pending values, after what it started with. */
  lemma {:induction false} CollectIsNotified(list: seq<TemplateOutput>, pending: seq<Option<Value>>,
                                             queued: seq<TemplateOutput>, command: seq<Value>)
    requires |list| == |pending|
    ensures Collect(list, pending, queued, command) == (queued + Notified(list, pending), command + PendingValues(pending))
  {
    if list != [] {
      var q, c := if pending[0].Some? then queued + [list[0]] else queued,
                  if pending[0].Some? then command + [pending[0].value] else command;
      CollectIsNotified(list[1..], pending[1..], q, c);
      assert q + Notified(list[1..], pending[1..]) == queued + Notified(list, pending);
      assert c + PendingValues(pending[1..]) == command + PendingValues(pending);
    } else {
      assert queued + [] == queued && command + [] == command;
    }
  }

  /** Started from nothing, the loop leaves behind the outputs to notify and the write command. */
  lemma CollectFromNothing(list: seq<TemplateOutput>, pending: seq<Option<Value>>)
    requires |list| == |pending|
    ensures Collect(list, pending, [], []) == (Notified(list, pending), PendingValues(pending))
  {
    CollectIsNotified(list, pending, [], []);
    assert [] + Notified(list, pending) == Notified(list, pending);
    assert [] + PendingValues(pending) == PendingValues(pending);
  }

  /** One step of the collecting loop. */
  lemma CollectStep(list: seq<TemplateOutput>, pending: seq<Option<Value>>, i: nat,
                    queued: seq<TemplateOutput>, command: seq<Value>)
    requires i < |list| == |pending|
    ensures Collect(list[i..], pending[i..], queued, command)
            == if pending[i].Some? then Collect(list[i + 1..], pending[i + 1..], queued + [list[i]], command + [pending[i].value])
               else Collect(list[i + 1..], pending[i + 1..], queued, command)
  {
    assert list[i..][1..] == list[i + 1..];
    assert pending[i..][1..] == pending[i + 1..];
  }

  // ---------------------------------------------------------------------------
  // The transaction's own configuration
  // ---------------------------------------------------------------------------

  /** load: the only member a transaction knows is "TODO", which must hold an unsigned 64-bit number. */
  function LoadTransaction(members: seq<Member>): Outcome
  {
    if members == [] then Pass
    else if members[0].name == "TODO" then
      match AsUInt64(members[0].value)
      case Err(f) => Fail(f)
      case Ok(_) => LoadTransaction(members[1..])
    else Fail(UnknownParameter(members[0].name))
  }

  /** load succeeds exactly when every member is a "TODO" member with an unsigned 64-bit number. */
  lemma {:induction false} LoadTransactionAccepts(members: seq<Member>)
    ensures LoadTransaction(members).Pass? <==>
            forall i :: 0 <= i < |members| ==> members[i].name == "TODO" && AsUInt64(members[i].value).Ok?
  {
    if members != [] {
      LoadTransactionAccepts(members[1..]);
      assert forall i :: 1 <= i < |members| ==> members[i] == members[1..][i - 1];
    }
  }

  /** The first member with another name is reported as an unknown parameter. */
  lemma {:induction false} LoadTransactionReportsUnknown(members: seq<Member>, k: nat)
    requires k < |members| && members[k].name != "TODO"
    requires forall i :: 0 <= i < k ==> members[i].name == "TODO" && AsUInt64(members[i].value).Ok?
    ensures LoadTransaction(members) == Fail(UnknownParameter(members[k].name))
  {
    if k > 0 {
      assert forall i :: 0 <= i < k - 1 ==> members[1..][i] == members[i + 1];
      LoadTransactionReportsUnknown(members[1..], k - 1);
    }
  }

  // ---------------------------------------------------------------------------
  // The inputs a read updates
  // ---------------------------------------------------------------------------

  /** The read states of the handlers of the inputs that have one. */
  function ReadStatesOf(inputs: seq<TemplateInput>): set<PointReadState>
    reads set i | 0 <= i < |inputs| :: inputs[i]
  {
    set i | 0 <= i < |inputs| && inputs[i].handler != null :: inputs[i].handler.readState
  }

  /** The point view of each input's read state, in attachment order. */
  function PointViews(inputs: seq<TemplateInput>): (views: seq<PointView>)
    requires forall i :: 0 <= i < |inputs| ==> inputs[i].handler != null
    reads (set i | 0 <= i < |inputs| :: inputs[i]), ReadStatesOf(inputs)
    ensures |views| == |inputs|
    ensures forall i :: 0 <= i < |inputs| ==> views[i] == inputs[i].handler.readState.View()
  {
    if inputs == [] then []
    else
      assert forall i :: 0 <= i < |inputs[1..]| ==> inputs[1..][i] == inputs[i + 1];
      [inputs[0].handler.readState.View()] + PointViews(inputs[1..])
  }

  // ---------------------------------------------------------------------------
  // The transaction
  // ---------------------------------------------------------------------------

  class TemplateIoTransaction {
    const ioComponent: nat
    const readState: CommonReadState
    const writeState: WriteState
    const readDataArray: DataArray
    const writeDataArray: DataArray
    const readDataBlock: DataBlock
    const writeDataBlock: DataBlock
    var inputs: seq<TemplateInput>
    var outputs: seq<TemplateOutput>
    var eventsToRaise: seq<Event>               // _runtimeBuffers._eventsToRaise
    var eventsToRaiseCapacity: nat
    var outputsToNotify: seq<TemplateOutput>    // _runtimeBuffers._outputsToNotify
    var outputsToNotifyCapacity: nat

    /** The transaction's parts are its own and no update is half done. */
    ghost predicate Valid()
      reads readDataBlock, writeDataBlock
    {
      && readDataArray != writeDataArray
      && readDataBlock != writeDataBlock
      && !readDataBlock.writing && !writeDataBlock.writing
      && readState.Valid() && writeState.Valid()
    }

    /** Every attached input has been loaded, so it has a handler. */
    predicate Loaded()
      reads this, set i | 0 <= i < |inputs| :: inputs[i]
    {
      forall i :: 0 <= i < |inputs| ==> inputs[i].handler != null
    }

    /** Each output owns its handler, so no two outputs share one. */
    predicate OutputsOwnHandlers()
      reads this
    {
      forall i, j :: 0 <= i < j < |outputs| ==> outputs[i].handler != outputs[j].handler
    }

    /** No input after position k and before position n has the read state of input k. */
    predicate ReadStateLastAt(k: nat, n: nat)
      requires k < n <= |inputs|
      reads this`inputs, set i | 0 <= i < |inputs| :: inputs[i]
    {
      && inputs[k].handler != null
      && forall j :: k < j < n && inputs[j].handler != null ==> inputs[j].handler.readState != inputs[k].handler.readState
    }

    /**
     * Among the first n inputs, each read state sits at the object `base` plus
     * the position it was attached at; a read state listed twice was attached
     * twice and keeps the later object.
     */
    predicate InputsLaidOut(base: nat, n: nat)
      requires n <= |inputs|
      reads this`inputs, (set i | 0 <= i < |inputs| :: inputs[i]), ReadStatesOf(inputs)
    {
      forall k {:trigger ReadStateLastAt(k, n)} :: 0 <= k < n && ReadStateLastAt(k, n)
        ==> inputs[k].handler.readState.stateHandle == base + k
    }

    /**
     * Among the first n outputs, each write state sits at the object `base`
     * plus the position it was attached at, the later one for a write state
     * listed twice.
     */
    predicate OutputsLaidOut(base: nat, n: nat)
      requires n <= |outputs|
      reads this`outputs, WriteStatesOf(outputs)
    {
      forall j {:trigger WriteStateLastAt(j, n)} :: 0 <= j < n && WriteStateLastAt(j, n)
        ==> outputs[j].handler.writeState.stateHandle == base + j
    }

    /** No output after position j and before position n has the write state of output j. */
    predicate WriteStateLastAt(j: nat, n: nat)
      requires j < n <= |outputs|
      reads this`outputs
    {
      forall k :: j < k < n ==> outputs[k].handler.writeState != outputs[j].handler.writeState
    }

    constructor (ioComponent: nat)
      ensures Valid() && this.ioComponent == ioComponent
      ensures inputs == [] && outputs == [] && eventsToRaise == [] && outputsToNotify == []
      ensures fresh(readState) && fresh(writeState) && fresh(readDataArray) && fresh(writeDataArray)
      ensures fresh(readDataBlock) && fresh(writeDataBlock)
      ensures readDataArray.size == 0 && writeDataArray.size == 0
      ensures readDataBlock.history == [] && writeDataBlock.history == []
    {
      this.ioComponent := ioComponent;
      readState := new CommonReadState();
      writeState := new WriteState();
      readDataArray := new DataArray();
      writeDataArray := new DataArray();
      readDataBlock := new DataBlock();
      writeDataBlock := new DataBlock();
      inputs, outputs := [], [];
      eventsToRaise, eventsToRaiseCapacity := [], 0;
      outputsToNotify, outputsToNotifyCapacity := [], 0;
    }

    /** load: the transaction's own configuration is validated and nothing else changes. */
    method Load(members: seq<Member>) returns (outcome: Outcome)
      ensures outcome == LoadTransaction(members)
    {
      var i := 0;
      while i < |members|
        invariant 0 <= i <= |members|
        invariant LoadTransaction(members) == LoadTransaction(members[i..])
      {
        assert members[i..][1..] == members[i + 1..];
        if members[i].name == "TODO" {
          var todo := AsUInt64(members[i].value);
          if todo.Err? {
            return Fail(todo.failure);
          }
        } else {
          return Fail(UnknownParameter(members[i].name));
        }
        i := i + 1;
      }
      outcome := Pass;
    }

    /** addInput: a point of another I/O component is refused; otherwise it is appended. */
    method AddInput(input: TemplateInput) returns (outcome: Outcome)
      modifies this`inputs
      ensures input.ioComponent != ioComponent ==> outcome == Fail(DifferentIoComponent) && inputs == old(inputs)
      ensures input.ioComponent == ioComponent ==> outcome == Pass && inputs == old(inputs) + [input]
    {
      if input.ioComponent != ioComponent {
        return Fail(DifferentIoComponent);
      }
      inputs := inputs + [input];
      outcome := Pass;
    }

    /** addOutput: a point of another I/O component is refused; otherwise it is appended. */
    method AddOutput(output: TemplateOutput) returns (outcome: Outcome)
      modifies this`outputs
      ensures output.ioComponent != ioComponent ==> outcome == Fail(DifferentIoComponent) && outputs == old(outputs)
      ensures output.ioComponent == ioComponent ==> outcome == Pass && outputs == old(outputs) + [output]
    {
      if output.ioComponent != ioComponent {
        return Fail(DifferentIoComponent);
      }
      outputs := outputs + [output];
      outcome := Pass;
    }

    /**
     * The callback an input registers in load for its "ioTransaction"
     * reference: the input remembers the transaction, then attaches itself.
     */
    method ResolveInputReference(input: TemplateInput) returns (outcome: Outcome)
      modifies this`inputs, input`ioTransaction
      ensures input.ioTransaction == this
      ensures input.ioComponent != ioComponent ==> outcome == Fail(DifferentIoComponent) && inputs == old(inputs)
      ensures input.ioComponent == ioComponent ==> outcome == Pass && inputs == old(inputs) + [input]
    {
      input.ioTransaction := this;
      outcome := AddInput(input);
    }

    /** forEachAttribute: the read state's attributes, then, unless stopped, the write state's. */
    function ForEachAttribute(f: Attribute -> bool): (r: Walk.WalkResult<Attribute>)
      ensures r == Walk.ForEach(CommonReadStateAttributes + WriteStateAttributes, f)
    {
      Walk.OrElseIsConcatenation(CommonReadStateAttributes, WriteStateAttributes, f);
      Walk.OrElse(readState.ForEachAttribute(f), writeState.ForEachAttribute(f))
    }

    /** forEachEvent: the read state's events, then, unless stopped, the write state's. */
    function ForEachEvent(f: NamedEvent -> bool): (r: Walk.WalkResult<NamedEvent>)
      ensures r == Walk.ForEach(readState.Events() + writeState.Events(), f)
    {
      Walk.OrElseIsConcatenation(readState.Events(), writeState.Events(), f);
      Walk.OrElse(readState.ForEachEvent(f), writeState.ForEachEvent(f))
    }

    /** forEachTask: the read task, then, unless stopped, the write task. */
    function ForEachTask(f: Task -> bool): (r: Walk.WalkResult<Task>)
      ensures r == Walk.ForEach(Tasks, f)
      ensures f(ReadTask) ==> r == Walk.WalkResult(true, [ReadTask])
      ensures !f(ReadTask) ==> r == Walk.WalkResult(f(WriteTask), Tasks)
    {
      Walk.OrElseIsConcatenation([ReadTask], [WriteTask], f);
      assert [ReadTask] + [WriteTask] == Tasks;
      Walk.OrElse(Walk.ForEach([ReadTask], f), Walk.ForEach([WriteTask], f))
    }

    /**
     * makeReadHandle: a handle of the read state on the read data block if it
     * has one, else a handle of the write state on the write data block, else
     * none; never an error.
     */
    function MakeReadHandle(attribute: Attribute): (r: Option<ReadHandle>)
      reads readState, writeState
      ensures attribute in CommonReadStateAttributes ==>
                r == Some(DataHandle(readDataBlock, readState.stateHandle, attribute))
      ensures attribute !in CommonReadStateAttributes && attribute in WriteStateAttributes ==>
                r == Some(DataHandle(writeDataBlock, writeState.stateHandle, attribute))
      ensures r.None? <==> attribute !in CommonReadStateAttributes && attribute !in WriteStateAttributes
    {
      var handle := readState.ReadHandle(readDataBlock, attribute);
      if handle.Some? then handle
      else
        var other := writeState.ReadHandle(writeDataBlock, attribute);
        if other.Some? then other else None
    }

    /** forEachReadStateAttribute: the read state's attributes alone. */
    function ForEachReadStateAttribute(f: Attribute -> bool): (r: Walk.WalkResult<Attribute>)
      ensures r == Walk.ForEach(CommonReadStateAttributes, f)
    {
      readState.ForEachAttribute(f)
    }

    /** forEachReadStateEvent: the read state's events alone. */
    function ForEachReadStateEvent(f: NamedEvent -> bool): (r: Walk.WalkResult<NamedEvent>)
      ensures r == Walk.ForEach(readState.Events(), f)
    {
      readState.ForEachEvent(f)
    }

    /** makeReadStateReadHandle: a handle of the read state on the read data block, or none. */
    function MakeReadStateReadHandle(attribute: Attribute): (r: Option<ReadHandle>)
      reads readState
      ensures r.Some? <==> attribute in CommonReadStateAttributes
      ensures r.Some? ==> r.value == DataHandle(readDataBlock, readState.stateHandle, attribute)
    {
      readState.ReadHandle(readDataBlock, attribute)
    }

    /**
     * realize: lays out the read data array (the common read state, then every
     * input) and the write data array (the write state, then every output),
     * adding up the event budgets; creates both data blocks; and reserves the
     * event buffer for the larger budget and the notification buffer for
     * every output. An input that was never loaded makes attachInput throw,
     * which ends realize before any data block is created.
     */
    method Realize() returns (outcome: Outcome)
      requires Valid()
      requires forall j :: 0 <= j < |outputs| ==> outputs[j].handler.writeState != writeState
      modifies readState, writeState, readDataArray, writeDataArray, readDataBlock, writeDataBlock
      modifies this`eventsToRaise, this`eventsToRaiseCapacity, this`outputsToNotify, this`outputsToNotifyCapacity
      modifies ReadStatesOf(inputs), WriteStatesOf(outputs)
      ensures Valid()
      ensures outcome.Pass? <==> old(Loaded())
      ensures outcome.Fail? ==> outcome.failure == CalledBeforeLoad("attachInput")
                                && readDataBlock.slotCount == old(readDataBlock.slotCount)
                                && writeDataBlock.slotCount == old(writeDataBlock.slotCount)
      ensures outcome.Pass? ==>
                && readState.stateHandle == old(readDataArray.size) && writeState.stateHandle == old(writeDataArray.size)
                && readDataArray.size == old(readDataArray.size) + 1 + |inputs|
                && writeDataArray.size == old(writeDataArray.size) + 1 + |outputs|
                && readDataBlock.slotCount == readDataArray.size && writeDataBlock.slotCount == writeDataArray.size
                && readDataBlock.committed == map[] && writeDataBlock.committed == map[]
                && readDataBlock.history == old(readDataBlock.history)
                && writeDataBlock.history == old(writeDataBlock.history)
                && eventsToRaiseCapacity == EventsCapacity(|inputs|, |outputs|)
                && outputsToNotifyCapacity == |outputs|
                && eventsToRaise == [] && outputsToNotify == []
                && InputsLaidOut(old(readDataArray.size) + 1, |inputs|)
                && OutputsLaidOut(old(writeDataArray.size) + 1, |outputs|)
                && writeDataBlock.Read(writeState.stateHandle) == WriteOutcome(MinTimePoint, NoError)
    {
      var readEventCount, writeEventCount;
      outcome, readEventCount, writeEventCount := AttachAll();
      if outcome.Fail? {
        return;
      }
      CreateBlocks(Max(readEventCount, writeEventCount));
    }

    /**
     * The allocation phase of realize: both data blocks are created from their
     * layouts, the event buffer is reserved for `eventCapacity` events and the
     * output list for every output.
     */
    method CreateBlocks(eventCapacity: nat)
      requires Valid()
      modifies readDataBlock, writeDataBlock
      modifies this`eventsToRaise, this`eventsToRaiseCapacity, this`outputsToNotify, this`outputsToNotifyCapacity
      ensures Valid()
      ensures readDataBlock.slotCount == readDataArray.size && writeDataBlock.slotCount == writeDataArray.size
      ensures readDataBlock.committed == map[] && writeDataBlock.committed == map[]
      ensures readDataBlock.history == old(readDataBlock.history) && writeDataBlock.history == old(writeDataBlock.history)
      ensures eventsToRaiseCapacity == eventCapacity && outputsToNotifyCapacity == |outputs|
      ensures eventsToRaise == [] && outputsToNotify == []
    {
      readDataBlock.Create(readDataArray);
      writeDataBlock.Create(writeDataArray);
      eventsToRaise, eventsToRaiseCapacity := [], eventCapacity;
      outputsToNotify, outputsToNotifyCapacity := [], |outputs|;
    }

    /**
     * The attach phase of realize: the common read state, then every input, is
     * appended to the read layout; the write state, then every output, to the
     * write layout. The counts are the event budgets of the two sides. The
     * first input without a handler ends the phase.
     */
    method AttachAll() returns (outcome: Outcome, readEventCount: nat, writeEventCount: nat)
      requires readDataArray != writeDataArray
      requires forall j :: 0 <= j < |outputs| ==> outputs[j].handler.writeState != writeState
      modifies readState`stateHandle, writeState`stateHandle, readDataArray, writeDataArray
      modifies ReadStatesOf(inputs), WriteStatesOf(outputs)
      ensures outcome.Pass? <==> Loaded()
      ensures outcome.Fail? ==> outcome.failure == CalledBeforeLoad("attachInput")
      ensures outcome.Pass? ==>
                && readState.stateHandle == old(readDataArray.size) && writeState.stateHandle == old(writeDataArray.size)
                && readDataArray.size == old(readDataArray.size) + 1 + |inputs|
                && writeDataArray.size == old(writeDataArray.size) + 1 + |outputs|
                && readEventCount == CommonReadStateMaxEvents + PointReadStateMaxEvents * |inputs|
                && writeEventCount == WriteStateMaxEvents + WriteStateMaxEvents * |outputs|
                && InputsLaidOut(old(readDataArray.size) + 1, |inputs|)
                && OutputsLaidOut(old(writeDataArray.size) + 1, |outputs|)
    {
      readEventCount := readState.Attach(readDataArray, 0);
      writeEventCount := writeState.Attach(writeDataArray, 0);
      ghost var readHandle, writeHandle := readState.stateHandle, writeState.stateHandle;
      outcome, readEventCount, writeEventCount := AttachPoints(readEventCount, writeEventCount);
      assert readState.stateHandle == readHandle && writeState.stateHandle == writeHandle;
    }

    /** The two loops of realize: every input, then (unless one failed) every output. */
    method AttachPoints(readEventCount: nat, writeEventCount: nat)
      returns (outcome: Outcome, readEventCount': nat, writeEventCount': nat)
      requires readDataArray != writeDataArray
      requires forall j :: 0 <= j < |outputs| ==> outputs[j].handler.writeState != writeState
      modifies readDataArray, writeDataArray, ReadStatesOf(inputs), WriteStatesOf(outputs)
      ensures writeState.stateHandle == old(writeState.stateHandle)
      ensures outcome.Pass? <==> Loaded()
      ensures outcome.Fail? ==> outcome.failure == CalledBeforeLoad("attachInput")
      ensures outcome.Pass? ==>
                && readDataArray.size == old(readDataArray.size) + |inputs|
                && writeDataArray.size == old(writeDataArray.size) + |outputs|
                && readEventCount' == readEventCount + PointReadStateMaxEvents * |inputs|
                && writeEventCount' == writeEventCount + WriteStateMaxEvents * |outputs|
                && InputsLaidOut(old(readDataArray.size), |inputs|)
                && OutputsLaidOut(old(writeDataArray.size), |outputs|)
    {
      writeEventCount' := writeEventCount;
      ghost var writeSize := writeDataArray.size;
      outcome, readEventCount' := AttachInputs(readEventCount, old(readDataArray.size));
      if outcome.Fail? {
        return;
      }
      assert writeDataArray.size == writeSize;
      writeEventCount' := AttachOutputs(writeEventCount, writeSize);
    }

    /** The first loop of realize: every input attaches its read state to the read layout, in order. */
    method AttachInputs(eventCount: nat, ghost base: nat) returns (outcome: Outcome, eventCount': nat)
      requires readDataArray.size == base
      modifies readDataArray, ReadStatesOf(inputs)
      ensures outcome.Pass? <==> Loaded()
      ensures outcome.Fail? ==> outcome.failure == CalledBeforeLoad("attachInput")
      ensures outcome.Pass? ==> readDataArray.size == old(readDataArray.size) + |inputs|
                                && eventCount' == eventCount + PointReadStateMaxEvents * |inputs|
                                && InputsLaidOut(base, |inputs|)
    {
      eventCount' := eventCount;
      var i := 0;
      while i < |inputs|
        invariant 0 <= i <= |inputs|
        invariant forall j :: 0 <= j < i ==> inputs[j].handler != null
        invariant eventCount' == eventCount + PointReadStateMaxEvents * i
        invariant readDataArray.size == old(readDataArray.size) + i
        invariant InputsLaidOut(base, i)
      {
        var attached, count := AttachInputAt(i, base, eventCount');
        if attached.Fail? {
          return attached, eventCount';
        }
        eventCount' := count;
        i := i + 1;
      }
      outcome := Pass;
    }

    /** One step of the first loop: input i attaches its read state right after the i inputs before it. */
    method AttachInputAt(i: nat, ghost base: nat, eventCount: nat) returns (outcome: Outcome, eventCount': nat)
      requires i < |inputs| && readDataArray.size == base + i && InputsLaidOut(base, i)
      modifies readDataArray, if inputs[i].handler != null then {inputs[i].handler.readState} else {}
      ensures inputs[i].handler == null ==> outcome == Fail(CalledBeforeLoad("attachInput"))
                                            && eventCount' == eventCount && readDataArray.size == base + i
      ensures inputs[i].handler != null ==> outcome == Pass && eventCount' == eventCount + PointReadStateMaxEvents
                                            && readDataArray.size == base + i + 1 && InputsLaidOut(base, i + 1)
    {
      label before:
      outcome, eventCount' := inputs[i].AttachInput(readDataArray, eventCount);
      if outcome.Fail? {
        return;
      }
      forall k | 0 <= k <= i && ReadStateLastAt(k, i + 1)
        ensures inputs[k].handler.readState.stateHandle == base + k
      {
        if k < i {
          var r := inputs[k].handler.readState;
          assert r != inputs[i].handler.readState;
          assert ReadStateLastAt(k, i);
          assert old@before(ReadStateLastAt(k, i));
          assert old@before(r.stateHandle) == base + k;
          assert r.stateHandle == old@before(r.stateHandle);
        }
      }
    }

    /** The second loop of realize: every output attaches its write state to the write layout, in order. */
    method AttachOutputs(eventCount: nat, ghost base: nat) returns (eventCount': nat)
      requires forall j :: 0 <= j < |outputs| ==> outputs[j].handler.writeState != writeState
      requires writeDataArray.size == base
      modifies writeDataArray, WriteStatesOf(outputs)
      ensures writeDataArray.size == old(writeDataArray.size) + |outputs|
      ensures writeState.stateHandle == old(writeState.stateHandle)
      ensures eventCount' == eventCount + WriteStateMaxEvents * |outputs|
      ensures OutputsLaidOut(base, |outputs|)
    {
      eventCount' := eventCount;
      var j := 0;
      while j < |outputs|
        invariant 0 <= j <= |outputs|
        invariant eventCount' == eventCount + WriteStateMaxEvents * j
        invariant writeDataArray.size == old(writeDataArray.size) + j
        invariant writeState.stateHandle == old(writeState.stateHandle)
        invariant OutputsLaidOut(base, j)
      {
        eventCount' := AttachOutputAt(j, base, eventCount');
        j := j + 1;
      }
    }

    /** One step of the second loop: output j attaches its write state right after the j outputs before it. */
    method AttachOutputAt(j: nat, ghost base: nat, eventCount: nat) returns (eventCount': nat)
      requires j < |outputs| && writeDataArray.size == base + j && OutputsLaidOut(base, j)
      modifies writeDataArray, outputs[j].handler.writeState
      ensures eventCount' == eventCount + WriteStateMaxEvents
      ensures writeDataArray.size == base + j + 1 && OutputsLaidOut(base, j + 1)
    {
      label before:
      // attachOutput forwards to the handler's attachWriteState
      eventCount' := outputs[j].handler.AttachWriteState(writeDataArray, eventCount);
      forall k | 0 <= k <= j && WriteStateLastAt(k, j + 1)
        ensures outputs[k].handler.writeState.stateHandle == base + k
      {
        if k < j {
          var w := outputs[k].handler.writeState;
          assert w != outputs[j].handler.writeState;
          assert WriteStateLastAt(k, j);
          assert old@before(w.stateHandle) == base + k;
        }
      }
    }

    /** RuntimeBufferSentinel on the event buffer: constructing and destroying it both empty the buffer. */
    method ClearEventsToRaise()
      modifies this`eventsToRaise
      ensures eventsToRaise == []
    {
      eventsToRaise := [];
    }

    /** RuntimeBufferSentinel on the notification buffer: constructing and destroying it both empty the buffer. */
    method ClearOutputsToNotify()
      modifies this`outputsToNotify
      ensures outputsToNotify == []
    {
      outputsToNotify := [];
    }

    /**
     * updateInputs: one sentinel on the read data block, the common read
     * state updated first, then every input in attachment order with the
     * change descriptor the common state returned, then one commit that
     * releases the collected events. An input that was never loaded makes
     * updateReadState throw: the sentinel is destroyed without a commit, so
     * nothing is published. The event buffer is empty on entry and on exit.
     */
    method UpdateInputs(timeStamp: TimePoint, payloadOrError: PayloadOrError) returns (outcome: Outcome)
      requires Valid()
      modifies this`eventsToRaise, readDataBlock`staged, readDataBlock`writing, readDataBlock`committed
      modifies readDataBlock`history
      ensures Valid() && eventsToRaise == []
      ensures outcome.Pass? <==> old(Loaded())
      ensures outcome.Fail? ==> outcome.failure == CalledBeforeLoad("updateReadState")
                                && readDataBlock.committed == old(readDataBlock.committed)
                                && readDataBlock.history == old(readDataBlock.history)
      ensures old(Loaded()) ==>
                var c := ReadCycle(old(readState.View()), old(PointViews(inputs)), old(readDataBlock.committed),
                                   timeStamp, payloadOrError);
                readDataBlock.committed == c.staged
                && readDataBlock.history == old(readDataBlock.history) + [Published(timeStamp, c.events)]
    {
      ghost var common, loaded := readState.View(), Loaded();
      ghost var views := if loaded then PointViews(inputs) else [];
      ClearEventsToRaise();
      readDataBlock.OpenSentinel();
      assert common == readState.View() && loaded == Loaded() && (loaded ==> views == PointViews(inputs));
      ghost var c := if loaded then ReadCycle(common, views, readDataBlock.staged, timeStamp, payloadOrError)
                     else Cycle(map[], []);
      outcome := StageReadCycle(timeStamp, payloadOrError);
      if outcome.Fail? {
        readDataBlock.Discard();
        ClearEventsToRaise();
        return;
      }
      assert c == Cycle(readDataBlock.staged, eventsToRaise);
      readDataBlock.Commit(timeStamp, eventsToRaise);
      ClearEventsToRaise();
    }

    /** The staging part of updateInputs: the common read state first, then every input. */
    method StageReadCycle(timeStamp: TimePoint, payloadOrError: PayloadOrError) returns (outcome: Outcome)
      requires readDataBlock.writing && eventsToRaise == []
      modifies this`eventsToRaise, readDataBlock`staged
      ensures outcome.Pass? <==> old(Loaded())
      ensures outcome.Fail? ==> outcome.failure == CalledBeforeLoad("updateReadState")
      ensures old(Loaded()) ==>
                Cycle(readDataBlock.staged, eventsToRaise)
                == ReadCycle(old(readState.View()), old(PointViews(inputs)), old(readDataBlock.staged), timeStamp,
                             payloadOrError)
    {
      ghost var common, loaded := readState.View(), Loaded();
      ghost var views := if loaded then PointViews(inputs) else [];
      ghost var u := UpdateCommon(common, Get(readDataBlock.staged, common.slot), timeStamp, ErrorOf(payloadOrError));
      var changes, events := readState.Update(readDataBlock, timeStamp, ErrorOf(payloadOrError), eventsToRaise);
      eventsToRaise := events;
      assert eventsToRaise == u.events && changes == u.changes;
      assert readDataBlock.staged == old(readDataBlock.staged)[common.slot := u.record];
      assert loaded == Loaded() && (loaded ==> views == PointViews(inputs));
      outcome := UpdateEachInput(timeStamp, payloadOrError, changes);
    }

    /**
     * The loop of updateInputs: every input in attachment order, through the
     * open sentinel. The first input without a handler ends it.
     */
    method UpdateEachInput(timeStamp: TimePoint, payloadOrError: PayloadOrError, changes: Changes)
      returns (outcome: Outcome)
      requires readDataBlock.writing
      modifies this`eventsToRaise, readDataBlock`staged
      ensures outcome.Pass? <==> old(Loaded())
      ensures outcome.Fail? ==> outcome.failure == CalledBeforeLoad("updateReadState")
      ensures old(Loaded()) ==>
                Cycle(readDataBlock.staged, eventsToRaise)
                == InputsCycle(old(PointViews(inputs)), old(readDataBlock.staged), timeStamp, payloadOrError, changes,
                               old(eventsToRaise))
    {
      ghost var loaded := Loaded();
      ghost var views := if loaded then PointViews(inputs) else [];
      ghost var cycle := if loaded then InputsCycle(views, readDataBlock.staged, timeStamp, payloadOrError, changes,
                                                    eventsToRaise)
                         else Cycle(map[], []);
      assert views[0..] == views;

      var i := 0;
      while i < |inputs|
        invariant 0 <= i <= |inputs|
        invariant forall j :: 0 <= j < i ==> inputs[j].handler != null
        invariant loaded ==> cycle == InputsCycle(views[i..], readDataBlock.staged, timeStamp, payloadOrError,
                                                    changes, eventsToRaise)
      {
        if loaded {
          assert inputs[i].handler != null && views[i] == inputs[i].handler.readState.View();
          InputsCycleStep(views, i, readDataBlock.staged, timeStamp, payloadOrError, changes, eventsToRaise);
        }
        var updated, events' := inputs[i].UpdateReadState(readDataBlock, timeStamp, payloadOrError, changes,
                                                           eventsToRaise);
        if updated.Fail? {
          return updated;
        }
        eventsToRaise := events';
        i := i + 1;
      }
      assert loaded;
      InputsCycleDone(views[|inputs|..], readDataBlock.staged, timeStamp, payloadOrError, changes, eventsToRaise);
      outcome := Pass;
    }

    /**
     * read: the device's answer to the read command goes into updateInputs,
     * its payload on success and the error it reported on failure. An
     * exception from updateInputs itself is caught like a device error,
     * whose code `caught` stands for, and the second updateInputs throws
     * again, out of read.
     */
    method Read(timeStamp: TimePoint, device: PayloadOrError, caught: ErrorCode) returns (outcome: Outcome)
      requires Valid()
      modifies this`eventsToRaise, readDataBlock`staged, readDataBlock`writing, readDataBlock`committed
      modifies readDataBlock`history
      ensures Valid() && eventsToRaise == []
      ensures outcome.Pass? <==> old(Loaded())
      ensures outcome.Fail? ==> outcome.failure == CalledBeforeLoad("updateReadState")
                                && readDataBlock.committed == old(readDataBlock.committed)
                                && readDataBlock.history == old(readDataBlock.history)
      ensures old(Loaded()) ==>
                var c := ReadCycle(old(readState.View()), old(PointViews(inputs)), old(readDataBlock.committed),
                                   timeStamp, device);
                readDataBlock.committed == c.staged
                && readDataBlock.history == old(readDataBlock.history) + [Published(timeStamp, c.events)]
    {
      match device
      case Payload(payload) =>
        outcome := UpdateInputs(timeStamp, Payload(payload));
        if outcome.Fail? {
          outcome := UpdateInputs(timeStamp, ReadError(caught));
        }
      case ReadError(error) =>
        outcome := UpdateInputs(timeStamp, ReadError(error));
    }

    /** invalidateData: one updateInputs with the "no data" error. */
    method InvalidateData(timeStamp: TimePoint) returns (outcome: Outcome)
      requires Valid()
      modifies this`eventsToRaise, readDataBlock`staged, readDataBlock`writing, readDataBlock`committed
      modifies readDataBlock`history
      ensures Valid() && eventsToRaise == []
      ensures outcome.Pass? <==> old(Loaded())
      ensures outcome.Fail? ==> outcome.failure == CalledBeforeLoad("updateReadState")
                                && readDataBlock.committed == old(readDataBlock.committed)
                                && readDataBlock.history == old(readDataBlock.history)
      ensures old(Loaded()) ==>
                var c := ReadCycle(old(readState.View()), old(PointViews(inputs)), old(readDataBlock.committed),
                                   timeStamp, ReadError(NoData));
                readDataBlock.committed == c.staged
                && readDataBlock.history == old(readDataBlock.history) + [Published(timeStamp, c.events)]
    {
      outcome := UpdateInputs(timeStamp, ReadError(NoData));
    }

    /**
     * The body of updateOutputs with the block its sentinel is opened on made
     * explicit: the write state updated first, then every output passed in
     * with the same error code, then one commit that releases the collected
     * events. The event buffer is empty on entry and on exit.
     */
    method UpdateWriteSide(block: DataBlock, timeStamp: TimePoint, error: ErrorCode, list: seq<TemplateOutput>)
      requires !block.writing
      modifies this`eventsToRaise, block`staged, block`writing, block`committed, block`history
      ensures !block.writing && eventsToRaise == []
      ensures var c := WriteCycle(old(writeState.View()), old(WriteViews(list)), old(block.committed), timeStamp, error);
              block.committed == c.staged && block.history == old(block.history) + [Published(timeStamp, c.events)]
    {
      ghost var own, views := writeState.View(), WriteViews(list);
      ClearEventsToRaise();
      block.OpenSentinel();
      assert own == writeState.View() && views == WriteViews(list);
      ghost var c := WriteCycle(own, views, block.staged, timeStamp, error);
      StageWriteCycle(block, timeStamp, error, list);
      assert c == Cycle(block.staged, eventsToRaise);
      block.Commit(timeStamp, eventsToRaise);
      ClearEventsToRaise();
    }

    /** The staging part of updateOutputs: the transaction's own write state first, then every output passed in. */
    method StageWriteCycle(block: DataBlock, timeStamp: TimePoint, error: ErrorCode, list: seq<TemplateOutput>)
      requires block.writing && eventsToRaise == []
      modifies this`eventsToRaise, block`staged
      ensures Cycle(block.staged, eventsToRaise)
              == WriteCycle(old(writeState.View()), old(WriteViews(list)), old(block.staged), timeStamp, error)
    {
      ghost var own, views := writeState.View(), WriteViews(list);
      var events := writeState.Update(block, timeStamp, error, eventsToRaise);
      eventsToRaise := events;
      assert eventsToRaise == WriteEvents(own, error);
      assert block.staged == old(block.staged)[own.slot := WriteOutcome(timeStamp, error)];
      assert views == WriteViews(list);
      UpdateEachOutput(block, timeStamp, error, list);
    }

    /** The loop of updateOutputs: every output passed in, in order, through the open sentinel. */
    method UpdateEachOutput(block: DataBlock, timeStamp: TimePoint, error: ErrorCode, list: seq<TemplateOutput>)
      requires block.writing
      modifies this`eventsToRaise, block`staged
      ensures Cycle(block.staged, eventsToRaise)
              == OutputsCycle(old(WriteViews(list)), old(block.staged), timeStamp, error, old(eventsToRaise))
    {
      ghost var views := WriteViews(list);
      ghost var cycle := OutputsCycle(views, block.staged, timeStamp, error, eventsToRaise);
      assert views[0..] == views;

      var i := 0;
      while i < |list|
        invariant 0 <= i <= |list|
        invariant block.writing
        invariant forall j :: 0 <= j < |list| ==> views[j] == list[j].handler.writeState.View()
        invariant cycle == OutputsCycle(views[i..], block.staged, timeStamp, error, eventsToRaise)
      {
        OutputsCycleStep(views, i, block.staged, timeStamp, error, eventsToRaise);
        eventsToRaise := list[i].handler.UpdateWriteState(block, timeStamp, error, eventsToRaise);
        i := i + 1;
      }
      assert views[|list|..] == [];
    }

    /** updateOutputs as written: the sentinel is opened on the read data block. */
    method UpdateOutputs(timeStamp: TimePoint, error: ErrorCode, list: seq<TemplateOutput>)
      requires Valid()
      modifies this`eventsToRaise, readDataBlock`staged, readDataBlock`writing, readDataBlock`committed
      modifies readDataBlock`history
      ensures Valid() && eventsToRaise == []
      ensures var c := WriteCycle(old(writeState.View()), old(WriteViews(list)), old(readDataBlock.committed), timeStamp, error);
              readDataBlock.committed == c.staged
              && readDataBlock.history == old(readDataBlock.history) + [Published(timeStamp, c.events)]
    {
      UpdateWriteSide(readDataBlock, timeStamp, error, list);
    }

    /** updateOutputs corrected: the sentinel is opened on the write data block, where the write states live. */
    method UpdateOutputsOnWriteBlock(timeStamp: TimePoint, error: ErrorCode, list: seq<TemplateOutput>)
      requires Valid()
      modifies this`eventsToRaise, writeDataBlock`staged, writeDataBlock`writing, writeDataBlock`committed
      modifies writeDataBlock`history
      ensures Valid() && eventsToRaise == []
      ensures var c := WriteCycle(old(writeState.View()), old(WriteViews(list)), old(writeDataBlock.committed), timeStamp, error);
              writeDataBlock.committed == c.staged
              && writeDataBlock.history == old(writeDataBlock.history) + [Published(timeStamp, c.events)]
    {
      UpdateWriteSide(writeDataBlock, timeStamp, error, list);
    }

    /**
     * The body of write with the block updateOutputs opens its sentinel on
     * made explicit. The outputs are asked in attachment order to add their
     * pending value to the command; the ones that did are the outputs to
     * notify. With none, nothing else happens; otherwise the device's answer
     * to the command goes into one update of the write side. The
     * notification buffer is empty on entry and on exit.
     */
    method WriteThrough(block: DataBlock, timeStamp: TimePoint, deviceError: ErrorCode)
      returns (command: WriteCommand, ghost notified: seq<TemplateOutput>)
      requires Valid() && (block == readDataBlock || block == writeDataBlock)
      requires OutputsOwnHandlers()
      modifies this`outputsToNotify, this`eventsToRaise, block`staged, block`writing, block`committed, block`history
      modifies HandlersOf(outputs)`pending
      ensures Valid() && outputsToNotify == []
      ensures notified == Notified(outputs, old(PendingOf(outputs)))
      ensures command == PendingValues(old(PendingOf(outputs)))
      ensures forall i :: 0 <= i < |outputs| ==> outputs[i].handler.pending.None?
      ensures notified == [] ==> block.committed == old(block.committed) && block.history == old(block.history)
                                 && eventsToRaise == old(eventsToRaise)
      ensures notified != [] ==>
                eventsToRaise == []
                && var c := WriteCycle(old(writeState.View()), old(WriteViews(notified)), old(block.committed), timeStamp, deviceError);
                   block.committed == c.staged && block.history == old(block.history) + [Published(timeStamp, c.events)]
    {
      command := CollectPendingOutputs();
      notified := outputsToNotify;
      assert writeState.View() == old(writeState.View()) && WriteViews(notified) == old(WriteViews(notified));
      NotifyOutputs(block, timeStamp, deviceError);
    }

    /**
     * The end of write: with no output to notify nothing happens; otherwise
     * the device's answer goes into one update of the write side. The
     * notification buffer is emptied either way.
     */
    method NotifyOutputs(block: DataBlock, timeStamp: TimePoint, deviceError: ErrorCode)
      requires Valid() && (block == readDataBlock || block == writeDataBlock)
      modifies this`outputsToNotify, this`eventsToRaise, block`staged, block`writing, block`committed, block`history
      ensures Valid() && outputsToNotify == []
      ensures forall i :: 0 <= i < |outputs| ==> outputs[i].handler.pending == old(outputs[i].handler.pending)
      ensures old(outputsToNotify) == [] ==> block.committed == old(block.committed) && block.history == old(block.history)
                                             && eventsToRaise == old(eventsToRaise)
      ensures old(outputsToNotify) != [] ==>
                eventsToRaise == []
                && var c := WriteCycle(old(writeState.View()), old(WriteViews(outputsToNotify)), old(block.committed),
                                       timeStamp, deviceError);
                   block.committed == c.staged && block.history == old(block.history) + [Published(timeStamp, c.events)]
    {
      if outputsToNotify == [] {
        ClearOutputsToNotify();
        return;
      }

      UpdateWriteSide(block, timeStamp, deviceError, outputsToNotify);
      ClearOutputsToNotify();
    }

    /**
     * The collecting loop of write: every output in attachment order adds its
     * pending value to the command, and the ones that did are queued to be
     * notified. No data block is touched.
     */
    method CollectPendingOutputs() returns (command: WriteCommand)
      requires OutputsOwnHandlers()
      modifies this`outputsToNotify, HandlersOf(outputs)`pending
      ensures outputsToNotify == Notified(outputs, old(PendingOf(outputs)))
      ensures command == PendingValues(old(PendingOf(outputs)))
      ensures forall i :: 0 <= i < |outputs| ==> outputs[i].handler.pending.None?
    {
      ghost var pending := PendingOf(outputs);
      ghost var collected := Collect(outputs, pending, [], []);
      CollectFromNothing(outputs, pending);
      assert outputs[0..] == outputs && pending[0..] == pending;
      outputsToNotify := [];          // RuntimeBufferSentinel: the buffer starts empty
      command := [];

      var i := 0;
      while i < |outputs|
        invariant 0 <= i <= |outputs|
        invariant collected == Collect(outputs[i..], pending[i..], outputsToNotify, command)
        invariant forall j :: 0 <= j < i ==> outputs[j].handler.pending.None?
        invariant forall j :: i <= j < |outputs| ==> outputs[j].handler.pending == pending[j]
      {
        CollectStep(outputs, pending, i, outputsToNotify, command);
        command := CollectOne(i, command);
        i := i + 1;
      }
    }

    /** One output of the collecting loop: its pending value joins the command and the output is queued. */
    method CollectOne(i: nat, command: WriteCommand) returns (command': WriteCommand)
      requires i < |outputs|
      modifies this`outputsToNotify, outputs[i].handler`pending
      ensures outputs[i].handler.pending.None?
      ensures old(outputs[i].handler.pending).Some? ==>
                outputsToNotify == old(outputsToNotify) + [outputs[i]]
                && command' == command + [old(outputs[i].handler.pending).value]
      ensures old(outputs[i].handler.pending).None? ==>
                outputsToNotify == old(outputsToNotify) && command' == command
    {
      var added;
      added, command' := outputs[i].handler.AddToWriteCommand(command);
      if added {
        outputsToNotify := outputsToNotify + [outputs[i]];
      }
    }

    /**
     * write as written: a write with no pending outputs touches no data block;
     * otherwise the write outcome is committed to the read data block, and
     * the write data block, which the write states' read handles point into,
     * keeps its old content.
     */
    method Write(timeStamp: TimePoint, deviceError: ErrorCode)
      returns (command: WriteCommand, ghost notified: seq<TemplateOutput>)
      requires Valid() && OutputsOwnHandlers()
      modifies this`outputsToNotify, this`eventsToRaise, readDataBlock`staged, readDataBlock`writing
      modifies readDataBlock`committed, readDataBlock`history, HandlersOf(outputs)`pending
      ensures Valid() && outputsToNotify == []
      ensures notified == Notified(outputs, old(PendingOf(outputs)))
      ensures command == PendingValues(old(PendingOf(outputs)))
      ensures forall i :: 0 <= i < |outputs| ==> outputs[i].handler.pending.None?
      ensures writeDataBlock.committed == old(writeDataBlock.committed)
              && writeDataBlock.history == old(writeDataBlock.history)
      ensures notified == [] ==> readDataBlock.committed == old(readDataBlock.committed)
                                 && readDataBlock.history == old(readDataBlock.history)
                                 && eventsToRaise == old(eventsToRaise)
      ensures notified != [] ==>
                eventsToRaise == []
                && var c := WriteCycle(old(writeState.View()), old(WriteViews(notified)), old(readDataBlock.committed),
                                       timeStamp, deviceError);
                   readDataBlock.committed == c.staged
                   && readDataBlock.history == old(readDataBlock.history) + [Published(timeStamp, c.events)]
    {
      command, notified := WriteThrough(readDataBlock, timeStamp, deviceError);
    }

    /**
     * write corrected: the write outcome is committed to the write data
     * block, and the read data block is left alone.
     */
    method WriteCorrected(timeStamp: TimePoint, deviceError: ErrorCode)
      returns (command: WriteCommand, ghost notified: seq<TemplateOutput>)
      requires Valid() && OutputsOwnHandlers()
      modifies this`outputsToNotify, this`eventsToRaise, writeDataBlock`staged, writeDataBlock`writing
      modifies writeDataBlock`committed, writeDataBlock`history, HandlersOf(outputs)`pending
      ensures Valid() && outputsToNotify == []
      ensures notified == Notified(outputs, old(PendingOf(outputs)))
      ensures command == PendingValues(old(PendingOf(outputs)))
      ensures forall i :: 0 <= i < |outputs| ==> outputs[i].handler.pending.None?
      ensures readDataBlock.committed == old(readDataBlock.committed)
              && readDataBlock.history == old(readDataBlock.history)
      ensures notified == [] ==> writeDataBlock.committed == old(writeDataBlock.committed)
                                 && writeDataBlock.history == old(writeDataBlock.history)
                                 && eventsToRaise == old(eventsToRaise)
      ensures notified != [] ==>
                eventsToRaise == []
                && var c := WriteCycle(old(writeState.View()), old(WriteViews(notified)), old(writeDataBlock.committed),
                                       timeStamp, deviceError);
                   writeDataBlock.committed == c.staged
                   && writeDataBlock.history == old(writeDataBlock.history) + [Published(timeStamp, c.events)]
    {
      command, notified := WriteThrough(writeDataBlock, timeStamp, deviceError);
    }
  }

  /**
   * After realize, with every input listed once, the objects of the inputs are
   * distinct from each other and from the object of the common read state:
   * what the read cycle needs to give each input its own outcome.
   */
  lemma RealizedInputSlots(t: TemplateIoTransaction, base: nat)
    requires t.Loaded()
    requires forall i, j :: 0 <= i < j < |t.inputs| ==> t.inputs[i].handler.readState != t.inputs[j].handler.readState
    requires t.readState.stateHandle == base && t.InputsLaidOut(base + 1, |t.inputs|)
    ensures DistinctSlots(PointViews(t.inputs))
    ensures forall i :: 0 <= i < |t.inputs| ==>
              PointViews(t.inputs)[i].slot == base + 1 + i && PointViews(t.inputs)[i].slot != t.readState.View().slot
  {
    var views := PointViews(t.inputs);
    forall i | 0 <= i < |t.inputs|
      ensures views[i].slot == base + 1 + i
    {
      assert t.ReadStateLastAt(i, |t.inputs|);
      assert views[i] == t.inputs[i].handler.readState.View();
    }
  }

  /**
   * In the same way, with every output listed once, the objects of the outputs
   * are distinct from each other and from the object of the transaction's own
   * write state.
   */
  lemma RealizedOutputSlots(t: TemplateIoTransaction, base: nat)
    requires forall j, k :: 0 <= j < k < |t.outputs| ==> t.outputs[j].handler.writeState != t.outputs[k].handler.writeState
    requires t.writeState.stateHandle == base && t.OutputsLaidOut(base + 1, |t.outputs|)
    ensures forall j, k :: 0 <= j < k < |t.outputs| ==> WriteViews(t.outputs)[j].slot != WriteViews(t.outputs)[k].slot
    ensures forall j :: 0 <= j < |t.outputs| ==>
              WriteViews(t.outputs)[j].slot == base + 1 + j && WriteViews(t.outputs)[j].slot != t.writeState.View().slot
  {
    var views := WriteViews(t.outputs);
    forall j | 0 <= j < |t.outputs|
      ensures views[j].slot == base + 1 + j
    {
      assert t.WriteStateLastAt(j, |t.outputs|);
      assert views[j] == t.outputs[j].handler.writeState.View();
    }
  }
}
