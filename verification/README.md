# Workflow engine verification

A Dafny model of the workflow engine and of the parts of its plugins that carry an
algorithm, with proofs of what they promise. `dafny verify dfyconfig.toml` checks it all.

## What is modelled

**The scheduler as a concurrent protocol.** `run`, `waitForCompletion`, `scheduleNode`,
`executeNode` and `cancelNodeAndDownstream` share per-node atomics, a latch and metrics.
`SchedulerModel` gives each worker a program counter with its locals (position in the
downstream list, cancel stack) and makes every CAS, `fetch_sub`, store, `count_down`, counter
addition and enqueue one step; steps interleave arbitrarily and sequentially consistently, and
the pool is a bag of tasks any of which may start. Node bodies are arbitrary: the outcome of
each attempt is a parameter, and the retry loop of `NodeExecution` decides success.
`SchedulerInvariant` is the inductive invariant; the `…Steps` modules show that every step
keeps it. On it rest the main results: a deterministic outcome for every interleaving,
progress, termination with an explicit bound, exact conservation of latch and metrics,
stability after the latch has opened, agreement of reruns, and at-most-once events.
`WorkflowEngineModel` is the engine in its own form, a class whose methods run their atomic
operations one by one while `Interfere` lets the other actors take any number of steps between
them; each atomic operation is tied to the protocol's step, so the theorems apply to it.

**The ring buffer.** `RingProtocol` models `push` and `pop` move by move, with stale loads and
spurious CAS failures, for any number of producers and one consumer; `RingTheorems` proves
refinement to a ticket log. The protocol is safe exactly from capacity 2 on, and a concrete
run shows what goes wrong with capacity 1. `LockFreeRingBufferModel` is the class with its
array of slots.

**From text to graph to run.** `JsonStrings`, `JsonParser` and `JsonRoundTrip` model the JSON
parser and prove that it inverts printing; `ConfigFile` reads the node records, with the exact
condition of every answer; `GraphLoading` and `Kahn` build and validate the graph (both
implementations of the cycle check); `LoadedWorkflow` hands the acyclicity established there
to the scheduler's theorems, and ties the final states to the dependency lists in the text.

**Text and arithmetic in the plugins.** Chunked decoding, text splitting, JSON escaping, the
scan for edit commands (`EditReplies` proves what it makes of replies written as JSON) and the
atempo chain.

Text is a sequence of characters; where the source works on bytes, they are the characters
0 to 255. The lengths of sequences, positions, counters and sizes are unbounded integers,
except that chunked decoding adds modulo 2^64.

## Preconditions made explicit

- *Run isolation.* The latch is counted down before the downstream loop of a handler ends
  (src/WorkflowEngine.cpp:468-477, 489-493), so a handler can still be active when
  `waitForCompletion` returns. A run starts from a state in which no handler is in flight
  (`Quiescent`, `WorkflowEngine.Loaded`), and the graph is not reloaded during a run.
  `Stability` shows that such late handlers change nothing of the finished run, and
  `LetHandlersFinish` waits for them; `LateDecrementSpoils` shows what they would do to the
  next run.
- *Loading.* `loadConfig` clears the old graph before it validates the new one
  (src/WorkflowEngine.cpp:183, 216, 245); a job is always the result of a load that succeeded.
- *Factories* throw nothing but `std::exception` (src/WorkflowEngine.cpp:429-431).
- *Ring counters* stay below 2^63, so that the signed difference is exact. The capacity is a
  power of two in the source; the protocol only needs it to be at least 2. `MaskIsSlot`
  relates the bit mask to the remainder used in the model.

## Where code and comments differ

- core/GraphBuilder.cpp:87 says that the nodes left over are part of a cycle. They are on a
  cycle or downstream of one (`LeftoverIsCycleBound`); `ReportedOffCycle` has a node that is
  reported and on no cycle, and `ReportedOnCyclesIff` says when the comment is right.
- plugins/llm_text_analyzer_plugin.cpp:422 promises chunks of at most `max_chars`. The bound
  is `max_chars + 3` and is attained (`BoundAttained`); `PastLimitIff` says exactly when a cut
  passes the limit, and `Split` that no other chunk does. A Chinese full stop within the
  limit can be overlooked, because a later character starts with the same byte or because it
  directly follows a full stop (`StopOverlooked`, `StopAfterDotOverlooked`);
  `StopHonouredIff` is the exact condition.
- plugins/llm_audio_editor_plugin.cpp:213 speaks of a field of a JSON object, but the search for its key is not
  confined to the object: a command without a type takes the next one in the text
  (`TypeRead`). The lists are confined (`ListElsewhere`).
- The static assertion at include/LockFreeRingBuffer.h:33 admits the capacities 0 and 1
  (`SafeIffTwoSlots`, `ZeroCapacityIndex`).
- The loop of `unchunk` does not end on every text: a size that wraps the position around can
  lead back to its own line (`NeverEnds`; `EndsIff`, `ForeverIff` and `ForwardEnds` say when
  it ends).

## Model

| member | source | states |
|---|---|---|
| SchedulerOutcome.Confluence | src/WorkflowEngine.cpp:384-534 | Any run whose latch has reached 0, by any interleaving, has every node in the state the graph and the node outcomes fix, and metrics grown by exactly the number of nodes with each outcome. |
| SchedulerOutcome.OutcomeRecursion | src/WorkflowEngine.cpp:468-493 | The outcome is given by recursion over the graph: Cancelled iff some dependency did not succeed, otherwise the node's own result. |
| SchedulerOutcome.CancelledIffFailedAncestor | src/WorkflowEngine.cpp:491-534 | A node ends Cancelled iff some proper ancestor ends Failed. |
| SchedulerOutcome.EndState | src/WorkflowEngine.cpp:384-534 | The invariant with the latch at 0 determines all states and metrics. |
| SchedulerOutcome.AlwaysTowardsOutcome | src/WorkflowEngine.cpp:384-534 | From the end of the reset on, a node is at every moment Pending, Running or already in its outcome state; it is Running only if all its dependencies succeeded. |
| SchedulerOutcome.ResetIsPending | src/WorkflowEngine.cpp:315-321 | During the reset the nodes already reset are Pending. |
| SchedulerRuns.StepKeepsRunInv | src/WorkflowEngine.cpp:300-534 | Every step of every actor, in the reset phase or after it, keeps the invariant of a run. |
| SchedulerRuns.RunKeepsInv | src/WorkflowEngine.cpp:300-534 | The invariant holds at the end of every run, from any state an earlier run left behind. |
| SchedulerProgress.Progress | src/WorkflowEngine.cpp:300-534 | In every reachable state some actor has a step or the run is complete: no interleaving deadlocks with the latch above 0. |
| SchedulerProgress.DoneIsCounted | src/WorkflowEngine.cpp:431-534 | When no task is left, every node has counted down. |
| SchedulerTermination.StepLighter | src/WorkflowEngine.cpp:300-534 | One measure falls at every step of every actor. |
| SchedulerTermination.RunsAreBounded | src/WorkflowEngine.cpp:300-534 | Every run is finite, with a bound from the size of the graph and the retry budgets. |
| SchedulerAfterwards.Conservation | src/WorkflowEngine.cpp:431-443 | Throughout a run, the reset included, the latch stays between 0 and N, and N minus the latch <= recorded outcomes <= N. |
| SchedulerAfterwards.CounterExact | src/WorkflowEngine.cpp:472-477 | From the end of the reset on, `uncompleted_deps` of a node is the number of its dependency entries, with multiplicity, whose decrement has not happened; it is 0 for a claimed node, and at 0 all dependencies have succeeded. |
| SchedulerAfterwards.ScheduleCasSucceeds | src/WorkflowEngine.cpp:391-395 | When a worker calls `scheduleNode`, the node is Pending: the failure branch of the CAS is not taken. |
| SchedulerAfterwards.RootCasSucceeds | src/WorkflowEngine.cpp:333-337 | The same when `run` calls it on a root, so within a run the failure branch is unreachable. |
| SchedulerAfterwards.CancellationClosure | src/WorkflowEngine.cpp:504-534 | From the end of the reset on, each out-neighbour of a failed or cancelled node is past Pending, on a canceller's stack, in an untraversed part of a downstream loop, or about to be pushed. |
| SchedulerAfterwards.Stability | src/WorkflowEngine.cpp:468-493 | Once the latch is 0, no later step of the run changes a node state, a metric or the latch, or adds a task. |
| SchedulerAfterwards.LateDecrement | src/WorkflowEngine.cpp:468-477 | What a handler can still decrement once the latch is 0 is the counter of a cancelled node. |
| SchedulerAfterwards.LateDecrementSpoils | src/WorkflowEngine.cpp:468-477 | Done in a later run, after that run has reset the node, such a decrement leads to a state no run can be in. |
| SchedulerAfterwards.CompleteIsQuiescent | src/WorkflowEngine.cpp:312-337 | The end of a run is a state from which `run` may start again. |
| SchedulerAfterwards.RerunAgrees | src/WorkflowEngine.cpp:312-337 | A rerun after a complete run shows the same states and adds the same amounts to the metrics. |
| SchedulerForward.StepLater | src/WorkflowEngine.cpp:384-534 | No step moves a counter, the latch, a node state or a worker backwards. |
| SchedulerForward.AtMostOnce | src/WorkflowEngine.cpp:384-534 | From the end of the reset on, a node's counter reaches 0, and the node is claimed or cancelled, enqueued, settled and counted down, at most once each; an entry of its downstream list is taken up by its own loop at most once. |
| SchedulerWork.StepTakes | src/WorkflowEngine.cpp:472-534 | The entries of each downstream list are dealt with from the front, and a step decrements or pushes exactly those by which the part dealt with grows. |
| SchedulerWork.EntriesTakenOnce | src/WorkflowEngine.cpp:472-534 | Over any schedule, no downstream entry is decremented or pushed twice. |
| SchedulerWork.ListBounded | src/WorkflowEngine.cpp:491-534 | Over any schedule, the decrements and pushes of one node's list are at most its length: each list is traversed at most once in total. |
| SchedulerWork.WorkCountsTaken | src/WorkflowEngine.cpp:472-534 | The work counted for a step is the number of entries it takes. |
| SchedulerWork.WorkBounded | src/WorkflowEngine.cpp:472-534 | Over any schedule, pushes and decrements together never exceed the number of downstream entries. |
| NodeExecution.NodeExecutionWrapper.ExecuteOnce | include/NodeExecutionWrapper.h:66-78 | Never throws: success iff there is a node and its body returns; otherwise code 1 iff there is no node, 2 iff a std::exception was thrown, 3 for anything else, each with its message. |
| NodeExecution.NodeExecutionWrapper.Execute | include/NodeExecutionWrapper.h:42-59 | Succeeds iff the body returns from the first call or one of max_retries more; stops at the first success, otherwise makes max_retries + 1 attempts (none if that is not positive) and reports the last error. |
| NodeExecution.SucceedsIff | include/NodeExecutionWrapper.h:45-49 | The budget of the retry loop and the results of its attempts decide exactly that. |
| WorkflowEngineModel.WorkflowEngine.Interfere | src/WorkflowEngine.cpp:384-534 | Between two atomic operations of one thread the others take any steps; the invariant and this thread's position survive. |
| WorkflowEngineModel.WorkflowEngine.StoreState | src/WorkflowEngine.cpp:460-461 | The store of the final node state, as the protocol's step. |
| WorkflowEngineModel.WorkflowEngine.RecordMetric | src/WorkflowEngine.cpp:462-462 | The metric of the outcome, as the protocol's step. |
| WorkflowEngineModel.WorkflowEngine.CountDown | src/WorkflowEngine.cpp:468-468 | The latch falls by one before the downstream loop starts. |
| WorkflowEngineModel.WorkflowEngine.FetchSub | src/WorkflowEngine.cpp:474-475 | `fetch_sub` on the next downstream counter; true iff the old value was 1. |
| WorkflowEngineModel.WorkflowEngine.TryClaim | src/WorkflowEngine.cpp:391-395 | The CAS from Pending to Running, and whether it won. |
| WorkflowEngineModel.WorkflowEngine.PutInPool | src/WorkflowEngine.cpp:398-398 | The node's task enters the pool. |
| WorkflowEngineModel.WorkflowEngine.RunBody | src/WorkflowEngine.cpp:428-457 | Creating the instance and running the attempts, under interference, ends with the node's own result. |
| WorkflowEngineModel.WorkflowEngine.Conclude | src/WorkflowEngine.cpp:459-489 | State, metric and latch, in that order, on the success, failure and registry-error paths. |
| WorkflowEngineModel.WorkflowEngine.ScheduleNode | src/WorkflowEngine.cpp:384-399 | CAS, then enqueue if it won, under interference. |
| WorkflowEngineModel.WorkflowEngine.ScheduleDownstream | src/WorkflowEngine.cpp:470-477 | The loop over the downstream list after a success, under interference. |
| WorkflowEngineModel.WorkflowEngine.PopAndCas | src/WorkflowEngine.cpp:511-521 | Pop of the cancel stack and CAS from Pending to Cancelled. |
| WorkflowEngineModel.WorkflowEngine.CountAndPush | src/WorkflowEngine.cpp:529-532 | Count down for the cancelled node, then push its downstream list. |
| WorkflowEngineModel.WorkflowEngine.CancelNodeAndDownstream | src/WorkflowEngine.cpp:504-534 | The iterative cascade ends with an empty stack, under interference by other cancellers. |
| WorkflowEngineModel.WorkflowEngine.CancelDownstream | src/WorkflowEngine.cpp:489-494 | The loop over the downstream list after a failure. |
| WorkflowEngineModel.WorkflowEngine.ExecuteNode | src/WorkflowEngine.cpp:405-495 | One task ends with its node in the outcome state, whatever the other threads do in between. |
| WorkflowEngineModel.WorkflowEngine.Run | src/WorkflowEngine.cpp:300-338 | Refuses an empty configuration and a run in progress without changing anything; otherwise every node is reset and every root scheduled. |
| WorkflowEngineModel.WorkflowEngine.Reset | src/WorkflowEngine.cpp:312-321 | The reset establishes the invariant from any final state. |
| WorkflowEngineModel.WorkflowEngine.Scan | src/WorkflowEngine.cpp:333-337 | The loop over the roots, while earlier roots already execute. |
| WorkflowEngineModel.WorkflowEngine.WaitForCompletion | src/WorkflowEngine.cpp:344-350 | Returns, with the latch at 0, every node at its outcome and the metrics exact. |
| WorkflowEngineModel.WorkflowEngine.LetHandlersFinish | src/WorkflowEngine.cpp:470-494 | The handlers still in their downstream loops when the wait returns finish in any order, change no state, metric or latch, and leave the engine ready for `run`. |
| WorkflowEngineModel.RunTwice | src/WorkflowEngine.cpp:300-350 | Two runs of one configuration both show the outcomes, and the second adds to the metrics what the first did. |
| LoadedWorkflow.LoadedGraphIsRunnable | src/WorkflowEngine.cpp:245-245 | What a successful load establishes is what the scheduler's theorems ask of a job. |
| LoadedWorkflow.EveryRunCompletes | src/WorkflowEngine.cpp:300-534 | Every run, wherever it stands, can be carried on to a complete one. |
| LoadedWorkflow.StuckRunIsOver | src/WorkflowEngine.cpp:300-534 | A run that can go no further is complete and shows every node's outcome. |
| LoadedWorkflow.ShowsIff | src/WorkflowEngine.cpp:468-494 | For an accepted node list, the states are the outcomes iff each listed node is Cancelled when some listed dependency did not succeed and otherwise shows its own result: the dependency lists of the text determine the states. |
| LoadedWorkflow.AcceptedRunShows | src/WorkflowEngine.cpp:169-534 | An accepted node list gives a valid job that can be started from any quiescent engine, and every run of it that can go no further is complete with each listed node in the state its listed dependencies give it. |
| LoadedWorkflow.LoadAndRun | src/WorkflowEngine.cpp:169-350 | From the text to the final states, whatever the schedule: the exact answer of the load, and after an accepted load each listed node in the state its listed dependencies give it, with the metrics counting the states. |
| RingInvariant.MoveKeepsInv | include/LockFreeRingBuffer.h:67-112 | Every load, CAS, data access and store of producers and consumer keeps the slot protocol's invariant. |
| RingTheorems.SafeFromTwo | include/LockFreeRingBuffer.h:67-112 | For capacity >= 2, in every reachable state the values popped are those of tickets 0, 1, 2, ... in order, no two parties touch one slot's data at once, and at most Capacity tickets are unreleased. |
| RingTheorems.OneSlotLosesAnItem | include/LockFreeRingBuffer.h:33-34 | With capacity 1, which the assertion admits, a concrete run pops a value out of ticket order. |
| RingTheorems.SafeIffTwoSlots | include/LockFreeRingBuffer.h:33-34 | A capacity has slots and keeps every reachable state safe iff it is at least 2. |
| RingTheorems.ZeroCapacityIndex | include/LockFreeRingBuffer.h:40-40 | With capacity 0 the mask is all ones, every position is its own index, and no slot has it. |
| RingTheorems.PushAnswers | include/LockFreeRingBuffer.h:71-85 | `push` gives up iff its loaded position is Capacity past the released tickets, and then exactly Capacity tickets are unreleased; it reloads only if another producer has advanced the write position. |
| RingTheorems.CasFailure | include/LockFreeRingBuffer.h:76-79 | The CAS wins iff the position is current and it does not fail spuriously; otherwise the producer goes on with the current position. |
| RingTheorems.PopAnswers | include/LockFreeRingBuffer.h:99-123 | `pop` finds nothing iff the next ticket is unpublished; `empty` agrees although one tests != 0 and the other < 0. |
| RingTheorems.PopReturnsItsTicket | include/LockFreeRingBuffer.h:108-111 | The k-th successful pop returns the value pushed under ticket k. |
| RingTheorems.NothingLostAtRest | include/LockFreeRingBuffer.h:67-90 | With no call in progress, every ticket not yet popped is published and holds its value. |
| RingTheorems.PerProducerOrder | include/LockFreeRingBuffer.h:67-112 | What has been popped is the beginning of the ticket log, and of each producer's part of it. |
| RingCalls.CallOrder | include/LockFreeRingBuffer.h:67-112 | Over every run, a producer's part of the log is the items of its calls that took a ticket, in the order of the calls; a call that has returned took one or was refused; what has been popped of the producer is the beginning of that sequence. |
| RingProtocol.SlotInjective | include/LockFreeRingBuffer.h:70-70 | Tickets less than Capacity apart use different slots. |
| RingProtocol.MaskIsSlot | include/LockFreeRingBuffer.h:40-40 | For a power of two the bit mask is the remainder. |
| LockFreeRingBufferModel.LockFreeRingBuffer.constructor | include/LockFreeRingBuffer.h:52-55 | For every capacity slot i starts with sequence number i; from capacity 2 on this is a good state. |
| LockFreeRingBufferModel.LockFreeRingBuffer.Push | include/LockFreeRingBuffer.h:67-90 | Under interference: true iff the item was appended to this producer's tickets; false only after a look at which exactly Capacity tickets were unreleased. |
| LockFreeRingBufferModel.LockFreeRingBuffer.Pop | include/LockFreeRingBuffer.h:99-112 | Under interference: returns the value of the next ticket, or nothing and changes nothing. |
| LockFreeRingBufferModel.LockFreeRingBuffer.Empty | include/LockFreeRingBuffer.h:118-123 | True iff the next ticket is unpublished at the sequence load. |
| Kahn.Drain | src/WorkflowEngine.cpp:271-280 | The queue loop takes every node after all its dependencies; degree 0 at the end iff taken; the rest is self-dependent. |
| Kahn.WhenDrained | src/WorkflowEngine.cpp:282-293 | All nodes were visited iff the graph is acyclic; the order is then topological; otherwise the nodes with a positive degree are those on or downstream of a cycle, the largest set in which each node has a dependency inside. |
| Kahn.Validate | src/WorkflowEngine.cpp:258-294 | The verdict, in both implementations: accepted iff acyclic, with the exact set reported otherwise. |
| Kahn.TopologicalIsAcyclic | src/WorkflowEngine.cpp:266-282 | A topological order rules out cycles. |
| Kahn.LeftoverIsCycleBound | core/GraphBuilder.cpp:87-102 | What is left over is exactly the nodes on or downstream of a cycle. |
| DependencyGraph.AcyclicHasSource | src/WorkflowEngine.cpp:266-269 | In an acyclic graph every non-empty set of nodes has a member without dependencies in the set. |
| DependencyGraph.SelfDependentReachesCycle | core/GraphBuilder.cpp:87-102 | A node of a self-dependent set is on a cycle or downstream of one. |
| GraphLoading.RegisterIds | src/WorkflowEngine.cpp:216-226 | Every id is registered once, or the first duplicate is reported. |
| GraphLoading.CheckReferences | src/WorkflowEngine.cpp:231-238 | The first reference to an unknown id is reported, or there is none. |
| GraphLoading.Wire | src/WorkflowEngine.cpp:239-242 | The downstream list of u holds v exactly as often as the dependencies of v hold u, and the entries of each node number its dependencies. |
| GraphLoading.WirePush | src/WorkflowEngine.cpp:240-241 | One `push_back` accounts for one dependency entry, multiplicity included. |
| GraphLoading.LoadGraph | src/WorkflowEngine.cpp:215-249 | Duplicate id, unknown dependency and cycle are reported exactly, in this order; otherwise the graph is well-formed and acyclic with the dependencies configured. |
| GraphLoading.CheckCycles | core/GraphBuilder.cpp:32-103 | Reports the first unknown reference or the nodes on or downstream of a cycle, else the described graph is acyclic; entries sharing an id are merged. |
| GraphLoading.WireAndCount | core/GraphBuilder.cpp:47-66 | One pass wires successors and counts degrees with multiplicity, rejecting the first unknown reference. |
| GraphLoading.SameAnswer | core/GraphBuilder.cpp:32-103 | For distinct ids the two implementations agree, down to the reference and the set of nodes they report. |
| GraphLoading.ReportedOffCycle | core/GraphBuilder.cpp:87-102 | A graph for which a reported node lies on no cycle. |
| GraphLoading.ReportedOnCyclesIff | core/GraphBuilder.cpp:87-102 | Every node reported lies on a cycle iff no node off every cycle is downstream of one. |
| ConfigFile.ReadRecord | src/WorkflowEngine.cpp:184-213 | For every object: the record iff id and type are strings, with the strings of the dependency list in order and the retries; the missing id iff no string is said under "id"; the missing type, with the id, iff the id is a string and the type is not. |
| ConfigFile.ReadRecords | src/WorkflowEngine.cpp:184-213 | The records iff every object of the list describes one, in order, elements that are no objects passed over; otherwise the error of the first object that does not. |
| ConfigFile.GetLoop | src/WorkflowEngine.cpp:29-33 | The first entry under a key. |
| ConfigFile.LoadNodes | src/WorkflowEngine.cpp:169-213 | The answer for every text: an unreadable number, a root that is no object, no nodes array, the first faulty node, or the records. |
| ConfigFile.LoadConfig | src/WorkflowEngine.cpp:169-249 | From the text to the validated graph: that answer, and for records the exact answer of `LoadGraph`. |
| ConfigFile.ConfigRoundTrip | src/WorkflowEngine.cpp:156-163 | Every document, in any layout and spelling, with the members of each object in any order and among any others, gets the answer that its meaning deserves, each rejection included; one with a number that does not convert is rejected for it. |
| ConfigFile.GetIff | src/WorkflowEngine.cpp:29-33 | A key is found with a value iff the first member under that key has it. |
| ConfigFile.StringsIff | src/WorkflowEngine.cpp:201-206 | The dependencies read are exactly the strings of the array, in order. |
| ConfigFile.RecordIff | src/WorkflowEngine.cpp:187-211 | The exact condition of every answer for one node object. |
| ConfigFile.NodesIff | src/WorkflowEngine.cpp:184-213 | The exact condition of every answer for the list of nodes. |
| ConfigFile.RootIff | src/WorkflowEngine.cpp:175-213 | The exact condition of every answer for a document. |
| ConfigFile.DocumentLists | src/WorkflowEngine.cpp:156-163 | Every list of records has a document that lists it. |
| JsonStrings.EngineParseString | src/WorkflowEngine.cpp:44-66 | The engine's decoding loop computes the shared specification. |
| JsonStrings.EditorParseString | plugins/llm_audio_editor_plugin.cpp:158-182 | The audio editor's loop computes the same, after checking for the quote. |
| JsonStrings.ExtractString | plugins/llm_text_analyzer_plugin.cpp:332-348 | The text analyzer's loop computes the same text. |
| JsonStrings.DecodeWritten | src/WorkflowEngine.cpp:44-66 | On a literal written in any way RFC 8259 section 7 allows, decoding stops exactly at the closing quote. |
| JsonStrings.DecodeLoose | src/WorkflowEngine.cpp:44-66 | On any text, whatever its escapes and closed or not, decoding reads the pieces one by one and stops at the first quote between them or at the end. |
| JsonStrings.SomePieces | src/WorkflowEngine.cpp:44-66 | Every text is made of such pieces up to where decoding stops. |
| JsonStrings.MeaningRecovered | src/WorkflowEngine.cpp:48-57 | The text decoded is the text meant iff the literal uses none of \b, \f and \u. |
| JsonStrings.JsonEscape | plugins/llm_text_analyzer_plugin.cpp:496-518 | The escaper writes each byte as a valid piece that means that byte, as itself where it may. |
| JsonStrings.EscapeDecode | plugins/llm_text_analyzer_plugin.cpp:496-518 | Decoding an escaped text stops at the quote written after it, and recovers the text iff \n, \r and \t are its only bytes below 0x20. |
| JsonParser.ParseValue | src/WorkflowEngine.cpp:105-132 | On every input the parser returns or throws; the position never moves back, ends at most 4 past the end, and advances unless only whitespace was left; an exception means a number that does not convert. |
| JsonParser.ParseMembers | src/WorkflowEngine.cpp:70-88 | The same for the loop of `parseObject`, malformed objects included. |
| JsonParser.ParseElements | src/WorkflowEngine.cpp:90-103 | The same for the loop of `parseArray`. |
| JsonParser.CharClasses | src/WorkflowEngine.cpp:38-42 | White space and the characters of numbers are those of RFC 8259, sections 2 and 6. |
| JsonParser.SkipWhitespace | src/WorkflowEngine.cpp:38-42 | `skipWs` stops at the first character that is not whitespace. |
| JsonParser.ParseAt | src/WorkflowEngine.cpp:105-132 | The imperative `parseValue` computes `ParseValue`, all reads in range. |
| JsonParser.ParseObjectLoop | src/WorkflowEngine.cpp:70-88 | The imperative `parseObject` computes `ParseMembers`. |
| JsonParser.ParseArrayLoop | src/WorkflowEngine.cpp:90-103 | The imperative `parseArray` computes `ParseElements`. |
| JsonParser.OvershootAttained | src/WorkflowEngine.cpp:118-120 | The overshoot of 4 is attained by a truncated literal. |
| JsonRoundTrip.ParseDoc | src/WorkflowEngine.cpp:105-132 | On the text of a value in any layout the parser throws iff some number of it does not convert, and otherwise returns the value's reading and stops exactly after it. |
| JsonRoundTrip.ParserInvertsPrinter | src/WorkflowEngine.cpp:38-132 | With any whitespace in front and any suffix that does not extend a number: the exception iff some number does not convert; otherwise the value returned is the value meant iff only supported escapes are used. |
| JsonRoundTrip.PrintParse | src/WorkflowEngine.cpp:38-132 | Every printable value survives printing and parsing. |
| JsonRoundTrip.RfcNumberIsToken | src/WorkflowEngine.cpp:122-131 | Every number of RFC 8259 section 6 is taken whole and converts. |
| JsonRoundTrip.ConvertibleIff | src/WorkflowEngine.cpp:122-131 | The tokens accepted are exactly those that start with a decimal number. |
| Chunked.Unchunk | plugins/llm_text_analyzer_plugin.cpp:294-314 | On every text on which its loop ends, the decoder computes `Decoded`, with additions modulo 2^64. |
| Chunked.TurnIff | plugins/llm_text_analyzer_plugin.cpp:298-312 | A turn goes on iff its line gives a positive size and the position after the data, modulo 2^64, lies in the text; it appends as many of the bytes asked for as there are. |
| Chunked.EndsIff | plugins/llm_text_analyzer_plugin.cpp:298-312 | The loop ends iff it stops within as many turns as the text has bytes. |
| Chunked.ForeverIff | plugins/llm_text_analyzer_plugin.cpp:298-312 | It goes on for ever iff some position is visited twice. |
| Chunked.BackwardIff | plugins/llm_text_analyzer_plugin.cpp:306-311 | A turn does not move forward iff its size passes what a word can hold past the line and the wrapped position is at or before the line. |
| Chunked.ForwardEnds | plugins/llm_text_analyzer_plugin.cpp:298-312 | The loop ends if no size line it visits does that. |
| Chunked.NeverEnds | plugins/llm_text_analyzer_plugin.cpp:306-311 | A text on which it never ends: a negative size leads back to its own line. |
| Chunked.DecodeEncoded | plugins/llm_text_analyzer_plugin.cpp:294-314 | On the RFC 9112 section 7.1 encoding of non-empty chunks, with any extensions and trailer, the loop ends and decoding gives their concatenation, for bodies shorter than 2^64. |
| Chunked.DecodeTruncated | plugins/llm_text_analyzer_plugin.cpp:294-314 | On every truncation it ends and gives exactly the chunks whose data is wholly present. |
| Chunked.StoulReadsDigits | plugins/llm_text_analyzer_plugin.cpp:306-306 | `stoul` with base 16 reads the digits of a size line, up to a blank or the end. |
| JsonStrings.HexDigits | plugins/llm_text_analyzer_plugin.cpp:306-306 | The hex digits are the 22 characters 0-9, a-f and A-F. |
| Chunked.StoulReads | plugins/llm_text_analyzer_plugin.cpp:306-306 | Blanks, a sign and a 0x prefix before the digits are read as `stoul` does; a minus sign negates modulo 2^64, and more than a word holds is no size. |
| Chunked.StoulNothing | plugins/llm_text_analyzer_plugin.cpp:306-306 | Without a digit after them there is no size. |
| Chunked.CaseIsFree | plugins/llm_text_analyzer_plugin.cpp:306-306 | The value of hex digits does not depend on their case. |
| Chunked.AnyCaseReads | plugins/llm_text_analyzer_plugin.cpp:306-306 | Every size has a size line in digits of either case, and it is read. |
| Chunked.ChunksAreValid | plugins/llm_text_analyzer_plugin.cpp:294-314 | Every list of non-empty blocks has an encoding. |
| SplitText.Split | plugins/llm_text_analyzer_plugin.cpp:426-468 | The chunks concatenate to the text, none is empty, each has at most max_chars + 3 bytes, and each ends exactly where it should: after the last paragraph break within the limit; without one, after the Chinese full stop taken up; without that, after the last full stop; else at the limit; the last chunk is the rest. A chunk is longer than max_chars iff the condition of `PastLimitIff` holds at the length of the chunks before it. |
| SplitText.SplitDetermined | plugins/llm_text_analyzer_plugin.cpp:426-468 | What is stated of `Split` determines its result. |
| SplitText.CutIff | plugins/llm_text_analyzer_plugin.cpp:437-463 | The cut is the one of that rule, and no other. |
| SplitText.ProgressIff | plugins/llm_text_analyzer_plugin.cpp:432-466 | The loop advances iff the limit is at least 1; with 0 it repeats its state. |
| SplitText.CutIsGood | plugins/llm_text_analyzer_plugin.cpp:437-463 | Each cut is past the start, within the text, at most 3 past the limit, and at a boundary unless at the limit. |
| SplitText.HardCut | plugins/llm_text_analyzer_plugin.cpp:437-463 | A cut inside a sentence means no paragraph break and no full stop starts in the chunk after its first byte. |
| SplitText.StopHonouredIff | plugins/llm_text_analyzer_plugin.cpp:446-462 | Where no paragraph break comes first, the cut follows the last Chinese full stop within the limit iff no lead byte follows it there and no full stop stands directly before it, or it ends on the limit with no full stop before it. |
| SplitText.StopOverlooked | plugins/llm_text_analyzer_plugin.cpp:446-462 | A text for which one is overlooked because a later character has the same first byte. |
| SplitText.StopAfterDotOverlooked | plugins/llm_text_analyzer_plugin.cpp:452-453 | A text for which one is overlooked because it follows a full stop directly. |
| SplitText.PastLimitIff | plugins/llm_text_analyzer_plugin.cpp:439-463 | A cut passes the limit iff a paragraph break starts on it or directly before it, or there is no break and a full stop stands on it or a Chinese full stop that is taken up ends past it. |
| SplitText.BoundAttained | plugins/llm_text_analyzer_plugin.cpp:457-460 | For every limit some chunk passes it by exactly 3. |
| EditCommands.InnerCloses | plugins/llm_audio_editor_plugin.cpp:437-443 | A brace that opens strictly inside a balanced object closes before the object does. |
| EditCommands.FirstZero | plugins/llm_audio_editor_plugin.cpp:381-388 | A walk in steps of one that gets to zero or below has a first zero. |
| EditCommands.ScanObject | plugins/llm_audio_editor_plugin.cpp:378-389 | The brace scan finds the first return to depth 0, or there is none before the limit. |
| EditCommands.ScanSucceeds | plugins/llm_audio_editor_plugin.cpp:437-443 | The scan for a segment's end always succeeds, so the segments loop advances. |
| EditCommands.ReadSegments | plugins/llm_audio_editor_plugin.cpp:428-456 | Terminates in range; the segments are exactly the objects that open in the list, each balanced and inside the command. |
| EditCommands.ReadSources | plugins/llm_audio_editor_plugin.cpp:408-425 | Terminates in range; the sources are exactly the string literals of the list, decoded. |
| EditCommands.ParseEditCommands | plugins/llm_audio_editor_plugin.cpp:359-462 | Terminates on every text; reads the balanced objects of the array in order, skipping nothing that opens, to the end, the closing bracket or an object that never closes; keeps those with a type. |
| EditCommands.ParseDetermined | plugins/llm_audio_editor_plugin.cpp:359-462 | What is stated of `ParseEditCommands` determines its result: a text has exactly one list of commands. |
| EditCommands.SourcesUnique | plugins/llm_audio_editor_plugin.cpp:408-425 | The same for the sources of a command. |
| EditCommands.SegmentsUnique | plugins/llm_audio_editor_plugin.cpp:428-456 | The same for the segments of a command. |
| EditCommands.FindKeyIff | plugins/llm_audio_editor_plugin.cpp:199-211 | The search gives what follows the first quoted key and its colon, white space skipped, and nothing iff the quoted key does not stand there. |
| EditReplies.StringField | plugins/llm_audio_editor_plugin.cpp:215-222 | A string after the key is the field, as decoded. |
| EditReplies.EmptyField | plugins/llm_audio_editor_plugin.cpp:215-222 | Without the key, or with anything else after it, the field is empty. |
| EditReplies.ObjectBalanced | plugins/llm_audio_editor_plugin.cpp:376-389 | An object without braces in its strings closes, for the brace scan, at its last brace. |
| EditReplies.ListRead | plugins/llm_audio_editor_plugin.cpp:413-424 | The loop over a list written as JSON takes up exactly the items that start as it asks. |
| EditReplies.SourcesRead | plugins/llm_audio_editor_plugin.cpp:408-426 | The sources of a command are the strings listed under its key. |
| EditReplies.SegmentsRead | plugins/llm_audio_editor_plugin.cpp:428-456 | The segments are the objects listed under its key. |
| EditReplies.ListElsewhere | plugins/llm_audio_editor_plugin.cpp:411-412 | Without the key in the object, or with anything but a list after it, there are none. |
| EditReplies.TypeRead | plugins/llm_audio_editor_plugin.cpp:393-393 | The type is that of the command's member, or, when the quoted key does not stand in the command, that of the first one after it in the text, if there is any. |
| EditReplies.CommandRead | plugins/llm_audio_editor_plugin.cpp:391-456 | A command object written as JSON is read with its type, its listed sources and its segments. |
| EditReplies.ReplyRead | plugins/llm_audio_editor_plugin.cpp:359-462 | A reply whose command list is written as JSON gives exactly the commands listed. |
| EditReplies.TypedKept | plugins/llm_audio_editor_plugin.cpp:458-458 | Kept are exactly the commands with a type, in order. |
| EditReplies.OneCommand | plugins/llm_audio_editor_plugin.cpp:359-462 | The shortest reply with a command gives that command. |
| Atempo.SpeedFilter | plugins/llm_audio_editor_plugin.cpp:738-766 | Terminates; the stages lie in [0.5, 2.0], multiply to the factor (1 if not positive), all but the last are 2.0 or 0.5, and no shorter non-empty chain of such stages does. |
| Atempo.NoShorterChain | plugins/llm_audio_editor_plugin.cpp:741-766 | A factor beyond the n-th power of 2 or of 0.5 needs more than n stages. |

## Left out

- Weak memory ordering, cache-line layout, and wrap-around of `size_t` and `int` counters (a max_retries of INT_MAX included).
- JsonParser.ParseValue: a number is its token; rounding and the `out_of_range` exception of `stod`, which depends on the platform's underflow rules, are not modelled, nor is the depth of the call stack.
- ConfigFile.ReadRecord: max_retries stays the token of its number; its conversion to `int` is undefined for values out of range and is not modelled.
- EditCommands.ReadSegments: a segment is where its object stands; its start and end numbers are not modelled.
- SplitText.Split: asks for a limit of at least 1 on a non-empty text; with 0 the loop never ends (ProgressIff).
- WorkflowEngineModel.WorkflowEngine.Reset: the two stores that reset a node are one step, since no other thread runs then.
- WorkflowEngineModel.WorkflowEngine.Run: asks for `Loaded`, so a call while a handler of an earlier run is still active is not modelled (`LateDecrementSpoils`); the `running_` flag is set by one thread only, so calls of `run` racing with each other or with a reload are not modelled either.
- GraphLoading.CheckCycles: starts from the parsed node list; nlohmann parsing, the type check and Taskflow execution are not part of this model.
- EditCommands.ParseEditCommands: the numeric fields and the text fields other than the type are not modelled; the text fields are looked up as the type is (`FindKeyIff`, `StringField`).
- Atempo.SpeedFilter: over the reals; rounding and the precision of `to_string` are not modelled.
- RingProtocol: memory reclamation and the destructor of items.
- Logging, timing, printing, `ExecutionContext`, the plugin registry and manager, the thread pool's own queue, ConfigWatcher, ControlPlane, the command line tool, AsyncLogger.
- HTTP, subprocesses, ffmpeg argument lists, prompts, file scanning and reports of the plugins, and the key searches around the decoders of the text analyzer.
