# Template I/O transaction driver: a verified model

This project models the core of the Xentara template driver: the I/O
transaction that drives one periodic read and one periodic write against a
device, the input data point that feeds it, the contract every output handler
fulfils, and the write state that records the outcome of a write.

- **I/O transaction** (`IoTransactions.TemplateIoTransaction`). It owns:
  - a common read state, in the read data block;
  - a write state, in the write data block;
  - the lists of attached inputs and outputs;
  - two scratch buffers: the events to raise and the outputs to notify.

  Its operations:
  - `realize` lays out both data arrays and adds up the event budgets.
  - `read` and `invalidateData` feed one read cycle (`updateInputs`). The cycle stages the common read state and then every input through one write sentinel on the read data block. It then commits and releases the collected events.
  - `write` asks every output, in attachment order, to add its pending value to one write command. When no value was pending, nothing else happens. Otherwise one write cycle (`updateOutputs`) records the device's answer for the transaction's own write state and for exactly the outputs that were included.
- **Input data point** (`TemplateInputs.TemplateInput`):
  - loads its JSON configuration;
  - picks its typed handler from the `dataType` keyword;
  - refuses to be used before it is loaded, and before its `ioTransaction` reference is resolved.
- **Output handler** (`OutputHandlers.OutputHandler`) keeps the promises of `AbstractTemplateOutputHandler`:
  - a lookup answers "absent" for a name the handler does not own;
  - an attach operation adds its event budget;
  - `addToWriteCommand` consumes the pending value;
  - an update stages a record and only appends events, which are fired later by the caller's commit.
- **Write state** (`WriteStates.WriteState`) is one object in the data block:
  - it holds the last write time and write error;
  - it has one event for a successful write and another for a failed write.

**Data blocks.** A data block (`DataBlocks.DataBlock`) has two copies of its content:
- a committed version, which is what readers see;
- while a sentinel is open, a staged copy that the writer changes.

A commit publishes the staged copy and appends `Published(time, events)` to the block's history; that entry lists the events released after the commit, in order. A sentinel destroyed without a commit (the source's exception path) publishes nothing.

**Specification functions.** Every update method is proved against a value-level specification function:
- `ReadCycle` and `WriteCycle` give the content the block is committed with and the events released after it;
- `Notified` and `PendingValues` give the outputs a write notifies and the content of its command.

The properties of the driver are then proved as lemmas about these functions.

**Exceptions.** What the source throws is returned as a value:
- `Result` or `Outcome` carry a `Failure`;
- the `noexcept` `makeReadHandle` returns a handle holding `invalid_argument`.

**Notes on the source:**
- `realize` reserves the event buffer for the larger of the read and write budgets (`std::max` at src/TemplateIoTransaction.cpp:203), not for their sum. `IoTransactions.EventBufferNeverOverflows` proves the larger one is enough. A read cycle and a write cycle use the same buffer one after the other, never at the same time; concurrency between them is left out.
- `updateOutputs` opens its sentinel on the read data block (see Findings).

## Model

| member | source | states |
|---|---|---|
| Common.ErrorOf | src/TemplateIoTransaction.cpp:307 | the error handed to the common read state is the read error, and not an error when a payload arrived |
| Common.AsString | src/TemplateInput.cpp:88 | reading a JSON value as a string succeeds exactly for a string, with that string; otherwise it fails with NotAString |
| Common.AsUInt64 | src/TemplateInput.cpp:48 | reading a JSON value as an unsigned 64-bit number succeeds exactly for a number in [0, 2^64), with that number |
| Common.Max | src/TemplateIoTransaction.cpp:203 | the result is one of the two arguments and at least both |
| DataBlocks.DataArray.AppendObject | src/WriteState.hpp:84-85 | the new object's handle is its position, the old size, and the layout grows by one |
| DataBlocks.DataBlock.Read | src/TemplateIoTransaction.cpp:143-151 | a read handle sees the committed version of its object; an object never committed reads as the default record |
| DataBlocks.DataBlock.Create | src/TemplateIoTransaction.cpp:199-200 | the block gets one object per laid-out object, every one default-constructed, with nothing published |
| DataBlocks.DataBlock.OpenSentinel | src/TemplateIoTransaction.cpp:304 | the staged copy starts as the committed version |
| DataBlocks.DataBlock.Stage | src/TemplateIoTransaction.cpp:312 | only the staged copy of one object changes; readers still see the committed version |
| DataBlocks.DataBlock.Commit | src/TemplateIoTransaction.cpp:316 | the staged copy becomes the committed version and exactly one version, carrying the collected events, is published |
| DataBlocks.DataBlock.Discard | src/TemplateIoTransaction.cpp:304 | a sentinel left without a commit publishes nothing and leaves the committed version as it was |
| Walk.ForEachFacts | src/TemplateIoTransaction.cpp:133-141 | a walk sees a prefix of the items, stops exactly when some item satisfies the callback, at the first one, and sees every item when it does not stop |
| Walk.OrElse | src/TemplateIoTransaction.cpp:113-117 | `a \|\| b` on two walks: the second counts only when the first did not stop, and then the items of both are seen in order |
| Walk.OrElseIsConcatenation | src/TemplateIoTransaction.cpp:124-128 | walking one list and then, unless stopped, another is the same as one walk over their concatenation |
| WriteStates.WriteOutcome | src/WriteState.hpp:69-77 | the State object after a write holds the write's time and error code, successful or not |
| WriteStates.WriteEvents | src/WriteState.hpp:79-82 | an update requests exactly one event, the written or the write-error event |
| WriteStates.WriteEventIdentifiesOutcome | src/WriteState.hpp:79-82 | the written event is requested exactly on success and the write-error event exactly on failure |
| WriteStates.FreshStateIsNotAnError | src/WriteState.hpp:72-76 | a write state whose object has no committed version reads from the block as a write at the minimum time point without error |
| WriteStates.DefaultErrorMeansWritten | src/WriteState.hpp:56-62 | a default-constructed error code counts as success: the written event is requested |
| WriteStates.WriteState.constructor | src/WriteState.hpp:79-82 | the two events are distinct new output-direction events |
| WriteStates.WriteState.ResolveAttribute | src/WriteState.hpp:24-27 | present exactly for "writeTime" and "writeError", as one of the state's own attributes with that name |
| WriteStates.WriteState.ResolveEvent | src/WriteState.hpp:29-39 | "written" and "writeError" resolve to the two events, any other name to none |
| WriteStates.WriteState.ReadHandle | src/WriteState.hpp:41-46 | a handle on the state's object for its own attributes, absent for any other; never an error |
| WriteStates.WriteState.ForEachAttribute | src/TemplateIoTransaction.cpp:117 | the walk over the state's two attributes |
| WriteStates.WriteState.ForEachEvent | src/TemplateIoTransaction.cpp:128 | the walk over the state's two events |
| WriteStates.WriteState.Attach | src/WriteState.hpp:48-54 | the State object is appended to the layout and one event is added to the budget |
| WriteStates.WriteState.Update | src/WriteState.hpp:56-66 | only the state's own object is staged, with the write's time and error; its one event is appended and nothing is fired |
| ReadStates.UpdateCommon | src/TemplateIoTransaction.cpp:306-307 | the common read state records the read's time and error, says which of them changed, and requests a transition event |
| ReadStates.TransitionIffErrorChanged | src/TemplateIoTransaction.cpp:306-307 | the common read state requests an event exactly when its change descriptor reports an error change |
| ReadStates.ErrorEventFiresOnNewError | src/TemplateIoTransaction.cpp:306-307 | the common read state requests its error event exactly when the read's error is an error that was not already reported |
| ReadStates.OkEventFiresOnRecovery | src/TemplateIoTransaction.cpp:306-307 | the common read state requests its ok event exactly when a read without error follows one with an error |
| OutputHandlers.OutputHandler.DataType | src/AbstractTemplateOutputHandler.hpp:39-40 | the handler's value type |
| OutputHandlers.OutputHandler.ResolveAttribute | src/AbstractTemplateOutputHandler.hpp:42-46 | present exactly for the names of the handler's attributes; absent otherwise |
| OutputHandlers.OutputHandler.ResolveEvent | src/AbstractTemplateOutputHandler.hpp:48-59 | present exactly for the names of the handler's events, as that event; absent otherwise |
| OutputHandlers.OutputHandler.ReadHandle | src/AbstractTemplateOutputHandler.hpp:61-65 | value, update time and error read from the read data block, write time and write error from the write data block; absent for anything else |
| OutputHandlers.OutputHandler.WriteHandle | src/AbstractTemplateOutputHandler.hpp:67-78 | only the writable value has a write handle, bound to this handler; absent for read-only and unknown attributes |
| OutputHandlers.OutputHandler.AttachReadState | src/AbstractTemplateOutputHandler.hpp:80-86 | the read state is appended to the layout and its maximum event count added to the budget |
| OutputHandlers.OutputHandler.UpdateReadState | src/AbstractTemplateOutputHandler.hpp:88-102 | only the point's object is staged; events are only appended, at most the budget, and not fired |
| OutputHandlers.OutputHandler.AttachWriteState | src/AbstractTemplateOutputHandler.hpp:104-110 | the write state is appended to the layout and its maximum event count added to the budget |
| OutputHandlers.OutputHandler.AddToWriteCommand | src/AbstractTemplateOutputHandler.hpp:112-115 | true exactly when a value was pending; that value is appended to the command and no longer pending; otherwise the command is unchanged |
| OutputHandlers.OutputHandler.UpdateWriteState | src/AbstractTemplateOutputHandler.hpp:117-128 | only the write state's object is staged with the time and error; its one event is appended, within the budget, not fired |
| TemplateInputs.CreateHandler | src/TemplateInput.cpp:85-148 | a non-string fails; a string succeeds exactly when it is one of the twelve keywords, and the kind's keyword is that string; any other keyword is an unknown data type |
| TemplateInputs.CreateHandlerInvertsKeyword | src/TemplateInput.cpp:91-138 | every kind has a keyword of the table, and createHandler maps it back to that kind |
| TemplateInputs.KeywordsAreDistinct | src/TemplateInput.cpp:91-138 | no two kinds share a keyword |
| TemplateInputs.LoadMembersFacts | src/TemplateInput.cpp:27-63 | the member walk succeeds exactly when every member is acceptable; references are only added, and some are added exactly when an "ioTransaction" member occurs |
| TemplateInputs.LoadMembersReferences | src/TemplateInput.cpp:35-43 | a successful walk adds exactly the values of the "ioTransaction" members, in member order |
| TemplateInputs.LoadMembersKind | src/TemplateInput.cpp:27-33 | after a successful walk a kind is set exactly when one was set before or a "dataType" member occurs; without one it is unchanged; with one it is the kind created from the last "dataType" member |
| TemplateInputs.LastDataTypeExists | src/TemplateInput.cpp:27-33 | a list with a "dataType" member has a last one |
| TemplateInputs.LoadSucceedsExactly | src/TemplateInput.cpp:23-76 | on a fresh point, load succeeds exactly when every member is acceptable and both a "dataType" and an "ioTransaction" member occur; the kind is the one created from the last "dataType" member and the references are the "ioTransaction" values in order |
| TemplateInputs.ReloadSucceedsExactly | src/TemplateInput.cpp:23-76 | on a point that already has a handler, load succeeds exactly when every member is acceptable and an "ioTransaction" member occurs, because the check at line 66 tests the handler; without a "dataType" member the kind stays, otherwise it is the last one's |
| TemplateInputs.UnknownParameterFails | src/TemplateInput.cpp:59-62 | any other member name makes load fail, reported as unknown parameter when it is the first bad member |
| TemplateInputs.UnknownParameterIsReported | src/TemplateInput.cpp:27-63 | the walk reports the first unknown member name when every earlier member is acceptable |
| TemplateInputs.MissingDataTypeFails | src/TemplateInput.cpp:65-70 | without a "dataType" member load fails, with "missing data type" when nothing else is wrong |
| TemplateInputs.MissingIoTransactionFails | src/TemplateInput.cpp:71-76 | without an "ioTransaction" member load fails, with "missing I/O transaction" when a data type was given and nothing else is wrong |
| TemplateInputs.TemplateInput.Load | src/TemplateInput.cpp:23-83 | succeeds exactly when LoadConfigFrom does from the handler the point had, with the same failure otherwise; on success a handler of the resulting kind and the references to resolve; after a successful load with a "dataType" member the handler is a new one with a new read state, without one it is kept, and a handler that changed at all is new |
| TemplateInputs.TemplateInput.DataType | src/TemplateInput.cpp:150-161 | fails exactly before load; otherwise the handler's type |
| TemplateInputs.TemplateInput.Directions | src/TemplateInput.cpp:163-166 | an input is read and never written |
| TemplateInputs.TemplateInput.ForEachAttribute | src/TemplateInput.cpp:168-188 | fails before load, then before resolution; otherwise exactly the handler's walk |
| TemplateInputs.TemplateInput.ForEachEvent | src/TemplateInput.cpp:190-210 | fails before load, then before resolution; otherwise exactly the handler's walk |
| TemplateInputs.TemplateInput.MakeReadHandle | src/TemplateInput.cpp:212-238 | never fails: before load or resolution a handle holding invalid_argument; otherwise the handler's handle, none for a foreign attribute |
| TemplateInputs.TemplateInput.AttachInput | src/TemplateInput.cpp:240-251 | fails before load and leaves the layout alone; otherwise the read state is appended and its budget added |
| TemplateInputs.TemplateInput.UpdateReadState | src/TemplateInput.cpp:253-268 | fails before load and stages nothing; otherwise every argument is forwarded to the handler's update |
| IoTransactions.InputsCycleStep | src/TemplateIoTransaction.cpp:310-313 | one input of the loop: what remains of the cycle after it |
| IoTransactions.InputsCycleEvents | src/TemplateIoTransaction.cpp:309-313 | the inputs only append events, at most their budget each |
| IoTransactions.InputsCycleRecords | src/TemplateIoTransaction.cpp:309-313 | each input's object holds the read outcome applied to its previous content; every other object is unchanged |
| IoTransactions.InputsCycleQuality | src/TemplateIoTransaction.cpp:307-313 | when the common error changed, every input requests its quality-changed event |
| IoTransactions.ReadCycleWithinBudget | src/TemplateIoTransaction.cpp:300-316 | a read cycle requests at most the common budget plus every input's budget |
| IoTransactions.ReadCycleRecords | src/TemplateIoTransaction.cpp:303-316 | the common state holds the read's time and error, each input the same outcome applied to its previous content, nothing else changes |
| IoTransactions.ReadFailureKeepsValues | src/TemplateIoTransaction.cpp:291-295 | a failed read, invalidateData's "no data" among them, keeps every input's value and marks it with the error and time |
| IoTransactions.ErrorChangeReachesEveryInput | src/TemplateIoTransaction.cpp:306-313 | when the common error changes, the common transition event comes first and every input requests its quality-changed event |
| IoTransactions.OutputsCycleStep | src/TemplateIoTransaction.cpp:330-334 | one output of the loop: what remains of the cycle after it |
| IoTransactions.OutputsCycleFacts | src/TemplateIoTransaction.cpp:330-334 | each output passed in requests exactly one event, in order, the right one for the error; its object holds the write outcome; nothing else changes |
| IoTransactions.WriteCycleRecords | src/TemplateIoTransaction.cpp:327-337 | a write cycle requests one event for the write state and one per output; those objects hold the write's time and error; nothing else changes |
| IoTransactions.EventBufferNeverOverflows | src/TemplateIoTransaction.cpp:180-204 | the capacity reserved for the event buffer holds every read cycle and every write cycle over at most all outputs |
| IoTransactions.AsWrittenWriteClearsReadError | src/TemplateIoTransaction.cpp:324-334 | as written, after a failed read a successful write over any outputs makes the read block's common state report no error |
| IoTransactions.AsWrittenWriteErasesInputValue | src/TemplateIoTransaction.cpp:324-334 | as written, the write outcome replaces the record at the output's slot of the read block, in the model's slot numbering, so a value kept there is lost |
| IoTransactions.NotifiedFacts | src/TemplateIoTransaction.cpp:256-270 | the outputs to notify are outputs of the list, and there are none exactly when nothing is pending |
| IoTransactions.CommandMatchesNotified | src/TemplateIoTransaction.cpp:254-264 | the command holds one value per notified output, each of them pending before |
| IoTransactions.CollectIsNotified | src/TemplateIoTransaction.cpp:256-264 | the collecting loop adds exactly the outputs with a pending value and their values, in order |
| IoTransactions.CollectFromNothing | src/TemplateIoTransaction.cpp:253-264 | started empty, the loop leaves the outputs to notify and the write command |
| IoTransactions.CollectStep | src/TemplateIoTransaction.cpp:257-264 | one output of the collecting loop |
| IoTransactions.LoadTransactionAccepts | src/TemplateIoTransaction.cpp:51-75 | the transaction's load succeeds exactly when every member is "TODO" holding an unsigned 64-bit number |
| IoTransactions.LoadTransactionReportsUnknown | src/TemplateIoTransaction.cpp:71-74 | the first member with another name is reported as an unknown parameter |
| IoTransactions.TemplateIoTransaction.Load | src/TemplateIoTransaction.cpp:51-83 | the loop's outcome is exactly LoadTransaction's |
| IoTransactions.TemplateIoTransaction.AddInput | src/TemplateIoTransaction.cpp:85-96 | a point of another I/O component is refused and the list unchanged; otherwise it is appended |
| IoTransactions.TemplateIoTransaction.AddOutput | src/TemplateIoTransaction.cpp:98-109 | a point of another I/O component is refused and the list unchanged; otherwise it is appended |
| IoTransactions.TemplateIoTransaction.ResolveInputReference | src/TemplateInput.cpp:37-41 | the input remembers the transaction and is then added to it, or refused, as addInput decides |
| IoTransactions.TemplateIoTransaction.ForEachAttribute | src/TemplateIoTransaction.cpp:111-120 | one walk over the read state's attributes followed by the write state's |
| IoTransactions.TemplateIoTransaction.ForEachEvent | src/TemplateIoTransaction.cpp:122-131 | one walk over the read state's events followed by the write state's |
| IoTransactions.TemplateIoTransaction.ForEachTask | src/TemplateIoTransaction.cpp:133-141 | the read task is offered first; the write task only when the read task did not stop the walk |
| IoTransactions.TemplateIoTransaction.MakeReadHandle | src/TemplateIoTransaction.cpp:143-159 | the read state's handle on the read block if it has one, else the write state's on the write block, else none |
| IoTransactions.TemplateIoTransaction.ForEachReadStateAttribute | src/TemplateIoTransaction.cpp:161-164 | the walk over the read state's attributes alone |
| IoTransactions.TemplateIoTransaction.ForEachReadStateEvent | src/TemplateIoTransaction.cpp:166-169 | the walk over the read state's events alone |
| IoTransactions.TemplateIoTransaction.MakeReadStateReadHandle | src/TemplateIoTransaction.cpp:171-175 | the read state's handle on the read block, present exactly for its attributes |
| IoTransactions.TemplateIoTransaction.Realize | src/TemplateIoTransaction.cpp:177-205 | succeeds exactly when every input is loaded; then the own states hold the first objects and input i and output j the objects after them at position i and j (a state listed twice keeps its later object), both blocks are created empty so the own write state reads as never written without error, and the buffers are sized to the larger budget and to the outputs |
| IoTransactions.TemplateIoTransaction.AttachAll | src/TemplateIoTransaction.cpp:183-196 | the own states take the first objects, then every input and output in order, input i and output j at the own object plus 1 plus i and j; the counts are the two event budgets; the first unloaded input ends it |
| IoTransactions.TemplateIoTransaction.AttachPoints | src/TemplateIoTransaction.cpp:186-196 | every input's read state, then every output's write state, takes the next object in list order; the budgets grow by one share per point; fails exactly when some input is not loaded |
| IoTransactions.TemplateIoTransaction.AttachInputs | src/TemplateIoTransaction.cpp:187-191 | every input's read state is appended in order, input i at the old size plus i, and its budget added; fails exactly when some input is not loaded |
| IoTransactions.TemplateIoTransaction.AttachInputAt | src/TemplateIoTransaction.cpp:189-190 | input i's read state takes the next object, after those of the i inputs before it, or the step fails before load and the layout is unchanged |
| IoTransactions.TemplateIoTransaction.AttachOutputs | src/TemplateIoTransaction.cpp:192-196 | every output's write state is appended in order, output j at the old size plus j, and its budget added; the own write state keeps its object |
| IoTransactions.TemplateIoTransaction.AttachOutputAt | src/TemplateIoTransaction.cpp:194-195 | output j's write state takes the next object, after those of the j outputs before it |
| IoTransactions.TemplateIoTransaction.CreateBlocks | src/TemplateIoTransaction.cpp:198-204 | both blocks are created from their layouts with nothing committed and their history kept; the event buffer is reserved for the given capacity and the output list for every output, both empty |
| IoTransactions.RealizedInputSlots | src/TemplateIoTransaction.cpp:182-191 | after realize, with every input listed once, the inputs' objects are distinct from each other and from the common read state's object, as the read cycle needs |
| IoTransactions.RealizedOutputSlots | src/TemplateIoTransaction.cpp:183-196 | after realize, with every output listed once, the outputs' objects are distinct from each other and from the own write state's object |
| IoTransactions.TemplateIoTransaction.ClearEventsToRaise | src/TemplateIoTransaction.cpp:30-49 | the event buffer is empty |
| IoTransactions.TemplateIoTransaction.ClearOutputsToNotify | src/TemplateIoTransaction.cpp:30-49 | the notification buffer is empty |
| IoTransactions.TemplateIoTransaction.UpdateInputs | src/TemplateIoTransaction.cpp:297-317 | with every input loaded, the read block is committed with ReadCycle and publishes its events once; otherwise it fails and nothing is published; the buffer ends empty |
| IoTransactions.TemplateIoTransaction.StageReadCycle | src/TemplateIoTransaction.cpp:306-313 | the staged content and collected events are exactly ReadCycle's |
| IoTransactions.TemplateIoTransaction.UpdateEachInput | src/TemplateIoTransaction.cpp:309-313 | the staged content and collected events are exactly InputsCycle's; fails exactly when an input is not loaded |
| IoTransactions.TemplateIoTransaction.Read | src/TemplateIoTransaction.cpp:221-241 | the device's payload or error is committed as one read cycle; a failure with a payload is retried as the caught error |
| IoTransactions.TemplateIoTransaction.InvalidateData | src/TemplateIoTransaction.cpp:291-295 | one read cycle with the "no data" error |
| IoTransactions.TemplateIoTransaction.UpdateWriteSide | src/TemplateIoTransaction.cpp:319-338 | the given block is committed with WriteCycle and publishes its events once; the buffer ends empty |
| IoTransactions.TemplateIoTransaction.StageWriteCycle | src/TemplateIoTransaction.cpp:327-334 | the staged content and collected events are exactly WriteCycle's |
| IoTransactions.TemplateIoTransaction.UpdateEachOutput | src/TemplateIoTransaction.cpp:330-334 | the staged content and collected events are exactly OutputsCycle's |
| IoTransactions.TemplateIoTransaction.UpdateOutputs | src/TemplateIoTransaction.cpp:319-338 | as written: the write cycle is committed to the read data block |
| IoTransactions.TemplateIoTransaction.UpdateOutputsOnWriteBlock | src/TemplateIoTransaction.cpp:319-338 | corrected: the write cycle is committed to the write data block |
| IoTransactions.TemplateIoTransaction.WriteThrough | src/TemplateIoTransaction.cpp:248-289 | the command holds the pending values in order, the notified outputs are exactly those that had one, no value stays pending; with none nothing is committed, otherwise one write cycle over exactly them |
| IoTransactions.TemplateIoTransaction.NotifyOutputs | src/TemplateIoTransaction.cpp:266-288 | with no output to notify nothing is committed; otherwise one write cycle over exactly those outputs; the buffer ends empty |
| IoTransactions.TemplateIoTransaction.CollectPendingOutputs | src/TemplateIoTransaction.cpp:253-264 | the outputs to notify are exactly those with a pending value, in order; the command their values; nothing stays pending |
| IoTransactions.TemplateIoTransaction.CollectOne | src/TemplateIoTransaction.cpp:257-263 | an output with a pending value is queued and its value added; one without leaves both alone |
| IoTransactions.TemplateIoTransaction.Write | src/TemplateIoTransaction.cpp:248-289 | as written: the write cycle lands on the read data block and the write data block is never updated |
| IoTransactions.TemplateIoTransaction.WriteCorrected | src/TemplateIoTransaction.cpp:248-289 | corrected: the write cycle lands on the write data block and the read data block is left alone |

## Left out

- JSON decoding is left out. Configuration arrives as a list of already decoded members. Only string, number and "other" are told apart.
- Reference resolution is not modelled as a deferred second pass. `TemplateInputs.TemplateInput.Load` returns the collected "ioTransaction" references. `IoTransactions.TemplateIoTransaction.ResolveInputReference` is the callback the loader would run for each one.
- The `if (!"TODO")` branches can never be taken and are omitted. The values of the "TODO" members are only range-checked, because the source stores them nowhere.
- The device is a parameter:
  - the read command's answer is `device`;
  - the exception that `updateInputs` itself may throw inside `read` is represented by the error code `caught`;
  - the write command's answer is `deviceError`.

  `prepare`, the read command it builds, and the sending of commands are left out. They are placeholders in the source.
- `performReadTask` and `performWriteTask` only pass the scheduled time to `read` and `write`. They are left out, as are the scheduler and the task objects of src/Tasks.hpp.
- Events are objects identified by reference. A commit records the events it releases, in order. How events are delivered to subscribers is left out.
- The memory library (memory::Array, the data block, the write sentinel) is modelled only as far as the driver relies on it. Its allocation, memory resources and concurrent readers are left out.
- Concurrency between a read cycle and a write cycle is left out.
- Objects in a data array are numbered by position: the n-th attached state is slot n. The byte offsets of `memory::Array` are left out. Objects of different sizes, such as a `WriteState::State` and a typed read state, are not told apart. So the model's slot of output j coincides with the slot of input j of the read layout, which the source's offsets need not do. The first objects of the two arrays do coincide, which is the case the Findings row uses.
- Values are opaque bytes (payload) or tagged numbers. The handlers' decoding and encoding of payloads, and floating-point semantics, are not part of this model.
- Widths are not modelled: event counts and sizes are unbounded naturals, so size_t overflow is not modelled, and time points are integers.
- The `sharedFromThis()` parent references that share ownership with the returned events are not modelled.
- The common read state (CommonReadState), the typed point read state (ReadState<T>), the typed handlers (TemplateInputHandler<T>, TemplateOutputHandler<T>) and the forwarding layer of TemplateOutput are not part of this model. Where the driver calls them, the `ReadStates` module and the `InputHandler`/`OutputHandler` classes are stand-ins. They keep what the driver relies on:
  - one object per state;
  - a fixed event budget;
  - updates that only append events;
  - the change descriptor of the common read state.

  Only the stand-in members that the cited driver lines exercise have rows above.
- IoTransactions.TemplateIoTransaction.Realize: after a failed `attachInput` the contract says only that no data block was created. It does not describe how far each layout had already grown.
- IoTransactions.TemplateIoTransaction.Realize: it requires that no output's write state is the transaction's own. This holds because each handler owns its write state.
- IoTransactions.TemplateIoTransaction.WriteThrough: it requires that no two outputs share a handler. This excludes the same output listed twice, which `addOutput` accepts. Distinct outputs own distinct handlers.
- IoTransactions.TemplateIoTransaction.CollectPendingOutputs: it requires that no two outputs share a handler, for the same reason as WriteThrough.
- IoTransactions.TemplateIoTransaction.Write: it requires that no two outputs share a handler, for the same reason as WriteThrough.
- IoTransactions.TemplateIoTransaction.WriteCorrected: it requires that no two outputs share a handler, for the same reason as WriteThrough.
- IoTransactions.RealizedInputSlots: it requires that no read state is listed twice. With an input listed twice, only its later position holds its object, and the read cycle updates that object twice.
- IoTransactions.RealizedOutputSlots: it requires that no write state is listed twice, for the same reason.
- TemplateInputs.TemplateInput.MakeReadHandle: the caller passes in the read data block. It stands for the data block of the resolved I/O transaction (src/TemplateInput.cpp:230), because the input module cannot import the transaction module without a cycle. The contract does not tie the argument to `ioTransaction`.
- The write state's attribute and event names ("writeTime", "writeError", "written", "writeError"), its budget of one event, and its `forEachAttribute` and `forEachEvent` walks are assumptions of this model. src/WriteState.hpp declares the attribute and event lookups and the two events, but these names and walks are defined in source files that are not part of this model. The header's `readHandle` is the function that the transaction calls as `makeReadHandle` (src/TemplateIoTransaction.cpp:151).

## Findings

| source | as written | input that shows it | evidently intended | confidence | as-written member | corrected member |
|---|---|---|---|---|---|---|
| src/TemplateIoTransaction.cpp:325 | `updateOutputs` opens its write sentinel on `_readDataBlock`, so the write cycle is staged into and committed to the read data block | after realize on fresh arrays (the common read state and the write state are both object 0), a read that fails leaves an error in object 0 of the read block; then a write with one pending output whose device write succeeds commits "no error" over it, so the read block reports the transaction's inputs as healthy. Unrelatedly, the write data block, which the write states' read handles point into, never changes | open the sentinel on `_writeDataBlock`, the block whose layout the write states were attached to (lines 185, 195) | not executed | IoTransactions.TemplateIoTransaction.Write, IoTransactions.TemplateIoTransaction.UpdateOutputs, IoTransactions.AsWrittenWriteClearsReadError, IoTransactions.AsWrittenWriteErasesInputValue | IoTransactions.TemplateIoTransaction.WriteCorrected, IoTransactions.TemplateIoTransaction.UpdateOutputsOnWriteBlock, IoTransactions.WriteCycleRecords |
