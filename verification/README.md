# kugelblitz: verified models of the plan engine, the memory and the codecs

This project models the parts of the kugelblitz agent framework that decide something and
proves what they promise. The language model, its tools, the disk, the clock and the other
goroutines are arbitrary: every choice they can make is an input or a step, and the results
hold for all of them.

What is modelled, file by file:

- `KnowledgeGraph.dfy`: the graph store, with its edge list and two adjacency maps over
  the same edge objects, its file, the breadth-first shortest path and the hop-bounded
  subgraph.
- `PlanModel.dfy`, `PlanValidation.dfy`: plans, parent lists, and the three-colour search
  that decides whether a plan is well formed.
- `DagExecution.dfy`, `DagCompleteness.dfy`: one call of the batch executor as a transition
  system over every interleaving of its workers, with cancellation at any moment and drift
  rollbacks by the failure callback, and what a call achieves.
- `PlanStore.dfy`: the plan store with its version log, and the plan tools.
- `PlanExecution.dfy`, `DagExecutor.dfy`: what the executor's steps do to the stored plan, and
  the executor itself as updates of the store.
- `PlanMachine.dfy`, `PlanRunner.dfy`, `PlanStall.dfy`: the planner's state machine over whole
  runs, in which Doing is a complete call of that executor, its loop, and one run in full.
- `LongTermMemory.dfy`, `WritePipeline.dfy`: the indexed item store and the
  resolve, dedup, store pipeline on top.
- `TextCodec.dfy`, `Markdown.dfy`, `MarkdownRoundTrip.dfy`, `MarkdownMemory.dfy`: MEMORY.md,
  its printer and its parser, and writing the memory out and loading it back.
- `SessionMemory.dfy`: session history compressed while messages keep arriving.
- `HumanGate.dfy`, `HumanAnswers.dfy`: the reference-counted pause gate, the registry of
  workers that wait for a human, the resume path, and which question an answer reaches.
- `ReactLoop.dfy`: the loop that asks the model and executes its tool calls.
- `JsonExtract.dfy`: finding a JSON value in a reply, against the grammar of RFC 8259.
- `StreamAccum.dfy`, `Messages.dfy`, `SessionFile.dfy`: reassembling streamed tool calls,
  and the JSON form of messages and sessions.
- `GoStrings.dfy`, `TextLines.dfy`, `Options.dfy`: the string functions and the line scanner
  of the Go library used above, and an optional value.

Objects the Go code updates are classes here, its loops are loops, and each such method is
proved against a function on values; the results below are about those functions.

## Findings

Where the code does not do what its names or comments suggest, the model follows the code. A
lemma gives the failing case, and where there is one, another gives the exact condition.

- `HasFailed` of a batch result can be false although a worker marked its own entry failed:
  a goroutine that finds the context cancelled does so without counting it
  (`DagExecution.CancelledTaskGoesUnreported`; the exact condition is
  `DagExecution.HasFailedIsTruthfulIff`).
- The planner goes on to Done with work left over when an earlier failure blocks it, because
  the Doing state looks at `HasFailed` and not at `AllDone`. `PlanStall.DoneWithPendingTasks`
  is a run from an empty store that gets there: a worker fails, the plan is confirmed again
  unchanged, and the second call finds nothing ready. At Done every task is done exactly when
  execution began with every task pending or done and no goroutine gave up on a cancelled
  context (`PlanMachine.DoneMeansAllDoneIff`).
- A human wait that ends with its worker still registered, because it was cancelled or because
  it took the answer to an earlier question, leaves the pause gate closed for good: no worker's
  tool call gets past it in any continuation (`HumanGate.AbandonedWaitClosesTheGate`). A closed gate can
  open again exactly when no wait was abandoned (`HumanGate.GateOpensAgainIff`). A resume that
  gives up after taking a worker out of the registry leaves that worker waiting with nothing
  under way to answer it (`HumanGate.GivingUpHappens`, `HumanGate.StrandedStays`); exactly when
  a waiting worker can still be answered is `HumanGate.AnsweredIff`.
- An answer can reach another question than the one it was given for: when a wait is cancelled
  between the resumer's check and its send, the answer stays in the channel for the worker's
  next question (`HumanAnswers.SecondQuestionGetsFirstAnswer`). A received answer belongs to its
  question exactly when the worker has asked no other since it was taken
  (`HumanAnswers.BelongsIff`); it always does unless a wait is cancelled with an answer under way
  or a worker is taken as it leaves (`HumanAnswers.UncrossedIsOrderly`), and the first such step
  can lead to a wrong answer exactly when no wait is abandoned after it
  (`HumanAnswers.FirstCrossingIff`).
- Two overlapping compressions can lose a message (`SessionMemory.OverlapLosesMessage`); a
  summary is stored without loss exactly when its snapshot still is the front of the history
  (`SessionMemory.CommitLosesNothingIff`).
- A second, different value stored at full confidence is dropped
  (`LongTermMemory.SecondStoreIsDropped`, exactly when: `LongTermMemory.StoreTakesEffectIff`).
- The write pipeline never stores a restatement of a known value: the confidence bonus given
  while resolving is lost in deduplication (`WritePipeline.RestatementsAreLost`). Batch
  deduplication compares sections as spelled, so two spellings of one section slip past it
  (`WritePipeline.SpellingsSlipPast`), and nothing else does
  (`WritePipeline.WrittenTwiceIsSpelledTwice`; of two candidates for one key both are stored
  exactly under the condition of `WritePipeline.PairIsKeptIff`).
- MEMORY.md drops entries with an empty key and cuts a line of 65536 bytes or more short of
  loading; the exact condition for a lossless round trip is `MarkdownRoundTrip.RoundTripIff`.
- The guard that strips dangling tool calls when the ReAct loop is interrupted never has
  anything to strip (`ReactLoop.PairedIsNotDangling`, used at every exit of the loop).
- The extracted JSON is the value the model wrote exactly when no opening bracket before it is
  closed in the text around it (`JsonExtract.ExtractsValueIff`); a closed one hides the value
  (`JsonExtract.ClosedPrefixHidesValue`). Behind an open opener that leaves a string open the
  value itself decides (`JsonExtract.OpenQuoteLetsValueDecide`).
- A stray closing bracket in a session file ends the reading without an error, and the events
  behind it are dropped (`SessionFile.BracketHidesTheRest`). Of what follows written events, all
  is dropped without an error exactly when it starts with such a bracket
  (`SessionFile.RestIsDroppedIff`).
- A graph file with a line of 65536 bytes or more loads up to that line, with an error; a saved
  graph loads exactly when no stored entity or edge has such a line
  (`KnowledgeGraph.FileRoundTripIff`).
- Text streamed beside a tool call does not reach the final message
  (`StreamAccum.StreamKeepsTextIff`), and fragments without an id follow whichever call last used
  their index (`StreamAccum.ReusedIndexMisroutes`; a fragment reaches its own call exactly
  under the condition of `StreamAccum.RoutedIff`).

## Model

| member | source | states |
|---|---|---|
| KnowledgeGraph.GraphStore.constructor | memory/longterm/graph.go:46-54 | a new store is empty and consistent |
| KnowledgeGraph.GraphStore.Load | memory/longterm/graph.go:57-99 | after loading, entities and edges are those of the file up to a line too long for the scanner, where it fails, and both adjacency maps list exactly the edges by source and by target, in order |
| KnowledgeGraph.GraphStore.Save | memory/longterm/graph.go:102-125 | the file written holds the entities and the edges in order and, where the codec reads back what is stored, loads completely exactly when no stored entity or edge has a line that is too long |
| KnowledgeGraph.FileRoundTripIff | memory/longterm/graph.go:65-123 | of a written file, whose events the codec reads back, what precedes the first overlong line is read; everything comes back without an error if and only if every line fits the scanner |
| KnowledgeGraph.NoiseIsSkipped | memory/longterm/graph.go:66-83 | a blank line or one that does not decode makes no difference, wherever it stands |
| KnowledgeGraph.OverlongLineStops | memory/longterm/graph.go:65-96 | an overlong line ends the loading with an error, whatever follows it |
| KnowledgeGraph.LoadsInOrder | memory/longterm/graph.go:84-93 | events take effect in order: the last entity with an id is held, edges are appended one by one |
| KnowledgeGraph.LoadsOne | memory/longterm/graph.go:84-93 | what one entity event and one edge event load |
| KnowledgeGraph.SomeCodecReads | memory/longterm/graph.go:82-122 | for the events of any file there is a codec that reads them back |
| KnowledgeGraph.GraphStore.UpsertEntity | memory/longterm/graph.go:222-256 | an entity is found by folded name and type or added under a fresh id; nothing else changes and consistency holds |
| KnowledgeGraph.GraphStore.ResolveName | memory/longterm/graph.go:293-300 | some entity whose folded name matches, or the empty string when there is none |
| KnowledgeGraph.GraphStore.AddRelationship | memory/longterm/graph.go:258-291 | an offer raises the weight of the edge with its key, appends a new edge, or is refused, and refused only when one of its names matches no entity or an entity has the empty id; keys and ids stay unique and each weight stays the maximum offered |
| KnowledgeGraph.OfferKeepsGrown | memory/longterm/graph.go:258-291 | after every offer each (from, to, type) occurs once, its endpoints exist and its weight is the largest offered |
| KnowledgeGraph.MaxOfferedIsMaximum | memory/longterm/graph.go:270-278 | the recorded weight is one of the offers for the key and none is larger |
| KnowledgeGraph.AppendToOut | memory/longterm/graph.go:280-289 | appending an edge to its source's list keeps every list the subsequence of edges with that source |
| KnowledgeGraph.AppendToIn | memory/longterm/graph.go:280-289 | the same for targets |
| KnowledgeGraph.GraphStore.ShortestPath | memory/longterm/graph.go:369-425 | nil exactly when no undirected walk joins the two; otherwise an alternating list of entities and relations in which every hop is a real edge, reversed hops are marked, and no walk has fewer hops |
| KnowledgeGraph.FirstSightIsOptimal | memory/longterm/graph.go:391-422 | returning as soon as the target is discovered is already optimal: every walk to it is at least as long |
| KnowledgeGraph.WalksAreCovered | memory/longterm/graph.go:382-423 | in a layered search every vertex reached by a walk of n hops is known at depth at most n or lies behind the queue |
| KnowledgeGraph.AdvanceKeepsLayers | memory/longterm/graph.go:386-388 | taking the head off the queue keeps the layering |
| KnowledgeGraph.DiscoverKeepsLayers | memory/longterm/graph.go:391-405 | queueing a new vertex one deeper keeps the layering |
| KnowledgeGraph.GraphStore.Subgraph | memory/longterm/graph.go:428-479 | exactly the stored entities within the given number of undirected hops, each once, and each id of an edge with an endpoint nearer than that once; in a store built from offers exactly those edges, each once |
| KnowledgeGraph.DepthIsDistance | memory/longterm/graph.go:436-470 | the recorded depth of a vertex is its true distance |
| KnowledgeGraph.CollectedIsExact | memory/longterm/graph.go:428-479 | what the finished search has collected is exactly the ball and its edges |
| KnowledgeGraph.EdgesById | memory/longterm/graph.go:442-447 | where edge ids are distinct, recording each id once records exactly the edges |
| PlanModel.SplitParents | memory/working/working.go:216-231 | the loop computes the list of parents that the next rows describe: the trimmed, non-empty pieces in order |
| PlanModel.ParentListRoundTrip | memory/working/working.go:216-231 | splitting a comma-joined list of clean ids gives the list back |
| PlanModel.PaddedListRoundTrip | memory/working/working.go:216-231 | however a list of clean ids is written, with white space around the ids and blank pieces between them, splitting gives the ids in order |
| PlanModel.ParentsAreStretches | memory/working/working.go:224-229 | for every text, a non-empty id is among the parents if and only if it is what trimming leaves of a stretch between commas or ends |
| PlanModel.SplitGivesCleanIDs | memory/working/working.go:216-231 | whatever the text, the pieces are non-empty, trimmed and comma-free |
| PlanModel.FindIndex | memory/working/working.go:206-214 | the first position with an id, or -1 when no position has it |
| PlanValidation.Validate | memory/working/working.go:273-326 | returns nil if and only if the plan is not empty, every parent named exists and is another entry, and the parent relation has no cycle, for any map order; an error names a real fault |
| PlanValidation.Visit | memory/working/working.go:301-316 | the depth-first search either reports a vertex on a real cycle or completes its start with all parents completed before it |
| PlanValidation.CompletionOrderIsAcyclic | memory/working/working.go:301-325 | an order in which parents complete first excludes every cycle |
| PlanValidation.WalksDescend | memory/working/working.go:301-325 | along a cycle positions in that order would fall for ever |
| PlanValidation.BuildGraph | memory/working/working.go:283-294 | the graph built is the parent relation, or the error names a missing or self parent |
| PlanValidation.JustifiedErrorsAreFaults | memory/working/working.go:273-326 | every error returned is a reason why the plan is not well formed |
| DagExecution.TraceIsConsistent | runtime/engine/dag/dag.go:152-258 | in every interleaving, until a drift rollback, a running worker's entry is doing and entries only move forward |
| DagExecution.WorkersStartAfterParents | runtime/engine/dag/dag.go:152-184 | in every interleaving a worker starts only when all parents of its entry are done |
| DagExecution.EachTaskStartsOnce | runtime/engine/dag/dag.go:152-258 | no entry is started twice in one call |
| DagExecution.DoneHasACause | runtime/engine/dag/dag.go:228-231 | without a drift rollback an entry that became done was completed by its own worker |
| DagExecution.NoBatchAfterAFailure | runtime/engine/dag/dag.go:251-258 | no batch starts after one in which a worker failed |
| DagExecution.NothingStartsAfterCancellation | runtime/engine/dag/dag.go:162-197 | once the context is cancelled, by anyone or by a drift rollback, no worker and no batch starts |
| DagExecution.ReturnLeavesNothingDoing | runtime/engine/dag/dag.go:152-258 | on return, unless a drift rollback replaced the statuses, everything this call marked doing is done or failed and the rest is untouched |
| DagExecution.HasFailedIff | runtime/engine/dag/dag.go:162-171 | the reported HasFailed holds exactly when a worker reported an error or cancellation struck at a batch head |
| DagExecution.FailedIff | runtime/engine/dag/dag.go:162-231 | an entry is failed at the end exactly when a failing step since entry, or since the last drift rollback, named it, or it was failed then and no worker completed it since |
| DagExecution.HasFailedIsTruthfulIff | runtime/engine/dag/dag.go:185-196 | without a drift rollback HasFailed agrees with the entries this call failed exactly when no goroutine found its context cancelled or something was reported; with one it is true |
| DagExecution.RollbackIsReported | runtime/engine/dag/dag.go:223-255 | a call in which the failure callback rolled the plan back reports a failure |
| DagExecution.CancelledTaskGoesUnreported | runtime/engine/dag/dag.go:185-196 | a run in which an entry is failed and HasFailed is false |
| DagCompleteness.ReadyIsLevel | memory/working/working.go:244-259 | once the batches before are done, the ready entries are exactly those whose longest pending parent chain has the next length |
| DagCompleteness.CleanCallRunsTheLevels | runtime/engine/dag/dag.go:152-258 | without failures batch k runs exactly the entries whose longest pending parent chain has length k, and finishes all that nothing blocks |
| DagCompleteness.CleanCallFinishesIff | runtime/engine/dag/dag.go:152-258 | a call without failures finishes the whole plan exactly when nothing is blocked by an entry that was failed or doing at entry |
| DagCompleteness.UnfailedCallCompletesIff | runtime/engine/dag/dag.go:152-258 | a call that reports no failure leaves every task done exactly when at entry every task was pending or done and no goroutine gave up on a cancelled context |
| DagCompleteness.FreshPlanIsCarriedOut | runtime/engine/dag/dag.go:152-258 | a validated plan that is all pending ends all done, with AllDone true and HasFailed false |
| DagCompleteness.UntroubledIsClean | runtime/engine/dag/dag.go:152-258 | without a cancellation from outside and without a failing worker no goroutine gives up and nothing is reported |
| DagCompleteness.NoEndlessClimb | memory/working/working.go:301-325 | in an acyclic plan no set of entries has a parent inside itself for each member |
| DagCompleteness.EmptyLevelEndsIt | memory/working/working.go:244-259 | when a level is empty nothing deeper is left, so an executor that finds nothing ready has finished |
| DagCompleteness.BatchesAreBounded | runtime/engine/dag/dag.go:152-258 | there are at most as many batches as entries pending at entry; without a rollback batches so far plus pending entries never exceed them |
| DagCompleteness.BlockedPlanReportsNoFailure | runtime/engine/dag/dag.go:153-160 | a plan blocked by an earlier failure returns at once without reporting one |
| DagExecutor.BuildStatusMap | memory/working/working.go:245-248 | the map holds for each id the status of its last entry |
| DagExecutor.AllParentsDone | memory/working/working.go:234-242 | true exactly when every parent id is mapped to done |
| DagExecutor.ReadyTasks | memory/working/working.go:244-259 | lists exactly the pending entries whose parents are all done, each once |
| DagExecutor.Executor.ExecuteBatch | runtime/engine/dag/dag.go:134-259 | the executor, working on the plan in the store, carries out a complete trace whose cancellations, worker outcomes and review verdicts are the script's, leaves the store as the trace's steps make it, and returns what the final state says; when nobody cancels and every worker succeeds, no failure is reported, everything nothing blocked is stored as done, and a validated plan of pending and done entries ends all done |
| DagExecutor.Executor.RunBatch | runtime/engine/dag/dag.go:173-251 | one batch is marked, spawned and joined as a piece of such a trace |
| DagExecutor.Executor.RunGoroutine | runtime/engine/dag/dag.go:184-249 | one step of some goroutine, whichever comes next: it looks at its context, its worker returns, its callback runs, or it stores the plan |
| DagExecutor.Executor.ReviewFailure | runtime/engine/fsm/action.go:86-98 | the callback of a failed worker counts the failure, has it reviewed when due, and takes a rollback over, as one step of the trace |
| DagExecutor.Executor.PersistPlan | runtime/engine/dag/dag.go:241-243 | a goroutine stores the plan as it is by then, as a step of its own |
| DagExecutor.SmoothCall | runtime/engine/dag/dag.go:134-259 | a call of the executor that nobody cancels and in which every worker succeeds carries out everything that nothing blocked |
| PlanExecution.StepInStep | runtime/engine/dag/dag.go:173-244 | every step of the executor is matched by its step on the store: the stored tasks keep their ids and parents and have the executor's statuses |
| PlanExecution.StoreFollows | runtime/engine/dag/dag.go:134-259 | so after any call the stored plan has the statuses of the executor's final state |
| PlanExecution.RunKeepsLog | memory/working/working.go:93-136 | execution, with its rollbacks, keeps the version log |
| PlanExecution.RunCounts | runtime/engine/fsm/action.go:86-98 | a call adds one to the run's failure counter for each failure callback and one version for each batch and each goroutine that ended |
| PlanExecution.RollbackHappensIff | runtime/engine/fsm/action.go:205-216 | a failure callback rolls the plan back exactly when there is a reviewer, the failures counted over the whole run are due for review, the reviewer reports drift, and the store of the plan before the last reached the disk; it brings back the statuses of that store |
| PlanExecution.FailuresAreReviewedIff | runtime/engine/fsm/action.go:205-216 | some later failure is due for review if and only if there is a reviewer and an interval or a limit |
| DagExecutor.IsDAGDone | runtime/engine/dag/dag.go:261-268 | true exactly when no entry is pending or doing |
| PlanStore.PlanTools.PutPlan | memory/working/working.go:93-136 | bumps the version, stores the plan in memory and, when the disk cooperates, its snapshot under the new version |
| PlanStore.PlanTools.CreatePlan | tools/internals/plan.go:47-64 | stores an empty plan in its first state under a fresh id |
| PlanStore.PlanTools.Confirm | tools/internals/plan.go:149-182 | "doing" stores Doing, "rejected" Rejected and "update" Updating; refused, with nothing changed, for other texts and unknown plans |
| PlanStore.PlanTools.Insert | tools/internals/plan.go:226-262 | appends a pending entry to a known plan |
| PlanStore.PlanTools.Delete | tools/internals/plan.go:289-312 | removes one entry, and its first active mark, from some plan that holds it, in memory even when the disk fails; without such a plan nothing changes |
| PlanStore.PlanTools.UpdateStatus | tools/internals/plan.go:415-449 | sets an entry's status and, if given, its reason in some plan that holds it, in memory even when the disk fails; without such a plan nothing changes |
| PlanStore.PlanTools.Rollback | tools/internals/plan.go:482-526 | restores a checkpoint of an earlier version as a new version, or refuses |
| PlanStore.PlanTools.HandleDrift | runtime/engine/fsm/machine.go:160-178 | rolls back exactly when the checkpoint before the current version exists: the plan becomes that checkpoint under its current version, Updating, with the drift reason; otherwise nothing changes |
| PlanStore.PlanTools.FindTask | memory/working/working.go:192-204 | some plan that holds the id, in whatever order the map is walked, or none |
| PlanStore.CreateStores | tools/internals/plan.go:47-64 | a created plan is empty, in its first state, at version one; no other plan or checkpoint changes |
| PlanStore.ConfirmStores | tools/internals/plan.go:149-182 | for each of the three texts the state stored, with the reason if one is given; tasks, other plans and earlier checkpoints stay |
| PlanStore.InsertStores | tools/internals/plan.go:226-262 | the new task is pending behind the old ones, which stay |
| PlanStore.DeleteStores | tools/internals/plan.go:289-312 | the first task with the id is gone, the others stay in order |
| PlanStore.RemovesFirst | memory/working/working.go:402-410 | the first active mark of the task is removed, the others stay in order |
| PlanStore.UpdateStores | tools/internals/plan.go:415-447 | the first task with the id has the status and, if given, the reason; the rest of it and the other tasks stay |
| PlanStore.CallKeepsLog | memory/working/working.go:93-136 | every plan tool keeps the log: versions count PutPlan calls, checkpoint v is the plan as of the v-th, and none written before changes |
| PlanStore.CallsKeepLog | memory/working/working.go:93-136 | the same over any sequence of calls |
| PlanStore.CallsKeepUnique | tools/internals/plan.go:226-262 | over any sequence of calls task ids stay unique within each plan and checkpoint, as long as inserted ids are new |
| PlanStore.DriftKeepsLog | runtime/engine/fsm/machine.go:160-178 | a drift rollback adds no version and no checkpoint |
| PlanStore.DriftRestores | runtime/engine/fsm/machine.go:160-178 | a drift rollback brings back exactly what the PutPlan before the last stored, as Updating with the drift reason under the current version; without such a saved PutPlan nothing changes |
| PlanStore.RollbackRestores | tools/internals/plan.go:482-526 | a rollback to v brings back exactly what the v-th PutPlan stored, as version n+1 |
| PlanStore.RollbackIsUndone | tools/internals/plan.go:482-526 | rolling back to the version before a rollback restores the plan |
| PlanMachine.ConfirmedVisit | runtime/engine/fsm/state.go:145-168 | in Confirmed the model can only change a plan's state, and only through confirm_plan: the last one for the plan decides, "doing" for Doing, "rejected" for Rejected, "update" for Updating |
| PlanMachine.ExecIsGood | runtime/engine/fsm/state.go:67-264 | whatever a state does, the state it names next has the plan it needs, and a validated one where it is confirmed or executed |
| PlanMachine.RunsAreSound | runtime/engine/fsm/machine.go:62-146 | at every loop head of every run a plan's stored state equals the machine's, confirmed and executing plans pass validation, the version log is in order, task ids are unique, and Failed is never entered |
| PlanMachine.DoingIsEnteredFromConfirmed | runtime/engine/fsm/state.go:145-168 | Doing is entered only from Confirmed, in a visit whose last confirm_plan for this plan says "doing", with a plan that passes validation |
| PlanMachine.ConfirmedLeadsTo | runtime/engine/fsm/state.go:145-168 | the next state is Doing, Rejected or Updating if and only if the last answer is "doing", "rejected" or "update", and Confirmed again if and only if there was none |
| PlanMachine.HowStatesAreEntered | runtime/engine/fsm/state.go:67-264 | the whole transition table, over every run: for each state exactly when it is entered from which, with Intent and Failed never entered, and the first state as the configuration forces it |
| PlanMachine.CreatedIsFirst | runtime/engine/fsm/state.go:112-142 | the plan Init goes on with is the one of the first successful plan_create |
| PlanMachine.VisitLeaves | runtime/engine/fsm/state.go:19-47 | with the tools offered, only Confirmed changes a plan's state, Init only adds tasks, Doing keeps all but statuses and reasons, and states that only talk change nothing |
| PlanMachine.StopIs | runtime/engine/fsm/machine.go:73-97 | a run ends with an error exactly when the action fails or the plan cannot be stored, and with success exactly by executing Direct, Done or Rejected; a failed action leaves the plan in the machine's state |
| PlanMachine.DriftLeadsToUpdating | runtime/engine/fsm/machine.go:160-188 | a rollback during execution makes the executor report a failure, so it leads to Updating or to a persistence error, never to Done |
| PlanMachine.DoneMeansAllDoneIff | runtime/engine/fsm/state.go:170-188 | in any run Done follows Doing, and then every task is done exactly when execution began with every task pending or done and no goroutine gave up |
| PlanMachine.SmoothExecutionIsDone | runtime/engine/fsm/state.go:170-188 | where nobody cancels and every worker succeeds, executing a plan of pending and done entries leads to Done with every entry done |
| PlanMachine.TerminalStatesComeLast | runtime/engine/fsm/machine.go:80-89 | a terminal state has no successor in any run |
| PlanMachine.SuccessIsTerminal | runtime/engine/fsm/machine.go:80-89 | a cycle ends a run without error only by executing a terminal state |
| PlanRunner.Machine.Run | runtime/engine/fsm/machine.go:46-104 | the loop, for every world, is a run of the model whose visits are those of the world, with at most MaxCycles of them; its result and final store are those of its last cycle, or of storing the plan once more when the cycles ran out |
| PlanRunner.Machine.Turn | runtime/engine/fsm/machine.go:62-97 | one turn of the loop is a cycle of the model on a visit made of the given one |
| PlanRunner.Machine.Execute | runtime/engine/fsm/state.go:67-264 | the states as updates of the machine and the store do what the model's states do on a visit in which the given offered calls took place in order and the executor followed its script |
| PlanRunner.Machine.RunExecutor | runtime/engine/fsm/action.go:83-107 | calls the executor on the run's plan with the script: a complete trace that follows it, its effect on the store and the failure counter, and the failure it reports; without cancellation and failing workers it reports none and every open entry ends done |
| PlanRunner.Machine.RunCalls | runtime/engine/fsm/action.go:34-76 | every offered call of the script takes effect, in order, under fresh ids; the id reported is that of the first plan created and stored |
| PlanRunner.SuccessExecutesOneTerminalState | runtime/engine/fsm/machine.go:62-104 | a successful run has executed exactly one terminal state, as its last |
| PlanStall.DoneWithPendingTasks | runtime/engine/fsm/state.go:170-188 | a run from an empty store reaches Done with one entry failed and the other pending |
| LongTermMemory.Memory.constructor | memory/longterm/fact.go:312-325 | every key is indexed at its last item, and the index is a bijection exactly when the loaded keys are distinct |
| LongTermMemory.Memory.RebuildIndex | memory/longterm/fact.go:101-106 | every key is indexed at its last item |
| LongTermMemory.Memory.Get | memory/longterm/fact.go:183-191 | answers exactly the keys held, with the item held, its confidence c after a positive age being the larger of one tenth and c times the factor of that age |
| LongTermMemory.Memory.Store | memory/longterm/fact.go:112-158 | acts on the map of the memory as specified, and keeps the index a bijection onto slice positions |
| LongTermMemory.Memory.BulkStore | memory/longterm/fact.go:161-180 | the same for a batch |
| LongTermMemory.Memory.Remove | memory/longterm/fact.go:194-214 | swap-removal takes exactly the key out of the map and keeps the index a bijection |
| LongTermMemory.SwapRemoves | memory/longterm/fact.go:204-211 | moving the last item into the gap and re-indexing it leaves a bijection without the key |
| LongTermMemory.LookupIsSearch | memory/longterm/fact.go:183-191 | an index lookup equals a linear search by section and key when no section holds a NUL |
| LongTermMemory.KeysCollideIff | memory/longterm/fact.go:95-97 | the exact condition under which two section and key pairs share an index key |
| LongTermMemory.BulkCountsVersions | memory/longterm/fact.go:166-178 | a batch adds one version per item of a key and leaves other keys alone |
| LongTermMemory.BulkWritesLast | memory/longterm/fact.go:166-178 | of the items of a batch under one key the last is what is held afterwards, stamped and under its normalised section |
| LongTermMemory.BulkBringsIn | memory/longterm/fact.go:166-178 | a batch brings in its own keys and no others, a new one with the version of its first item |
| LongTermMemory.VersionsRise | memory/longterm/fact.go:112-214 | over any run of operations that does not remove a key, its item only changes to one with a higher version |
| LongTermMemory.StoreTakesEffectIff | memory/longterm/fact.go:128-157 | a stored value is what is held afterwards, at confidence 1 and the next version, if and only if no different value is held whose confidence, times the factor of its age if it has one, is still 1; otherwise nothing changes; a conflict is reported exactly when the values differ; other keys are untouched |
| LongTermMemory.StoredItemIs | memory/longterm/fact.go:119-157 | the item stored, the winner and the conflict returned, in each of the four cases |
| LongTermMemory.OldFactGivesWay | memory/longterm/fact.go:147-152 | where its age takes anything away, a fact held at confidence one or less gives way to a different value |
| LongTermMemory.SecondStoreIsDropped | memory/longterm/fact.go:147-156 | of two different values stored at one instant the second is dropped |
| LongTermMemory.DecayOnlyLowers | memory/longterm/fact.go:298-308 | decay never raises a confidence above one tenth and keeps larger ones between a tenth and themselves |
| LongTermMemory.DecayLowers | memory/longterm/fact.go:298-308 | where the factor of its age is below one a confidence above a tenth falls strictly; once the product is a tenth or less it is exactly a tenth, and above that it is the product; nothing else of the item changes |
| LongTermMemory.DecayFallsWithAge | memory/longterm/fact.go:298-308 | where the factor falls with age, waiting longer never gives more |
| LongTermMemory.MatchesIff | memory/longterm/fact.go:360-376 | two values match exactly when one is part of the other, trimmed and in lower case, or the judge says so |
| GoStrings.NormalizeIgnoresSpelling | memory/longterm/fact.go:378-380 | normalising ignores case and surrounding white space |
| WritePipeline.ClampConfidence | memory/longterm/conflict.go:121-129 | always in (0, 1]: the identity there, one half for what is not positive, one for what is larger |
| WritePipeline.Resolve | memory/longterm/conflict.go:42-119 | one winner per candidate, as resolved against the memory |
| WritePipeline.WinnerIs | memory/longterm/conflict.go:54-119 | the winner in full in each case: its value, clamped confidence, evidence and version as a new or displacing candidate, the bonus of a restatement, or what is held, decayed |
| WritePipeline.IsExistingDuplicate | memory/longterm/dedup.go:47-56 | whether the memory holds a semantic match under the item's key |
| WritePipeline.IsBatchDuplicate | memory/longterm/dedup.go:59-71 | whether an accepted item of the same section has the key or matches the value |
| WritePipeline.DedupItems | memory/longterm/dedup.go:28-44 | an item is kept if and only if neither the memory nor an earlier kept item says the same; kept and rejected add up |
| WritePipeline.KeepsIsUnique | memory/longterm/dedup.go:28-44 | that condition determines the kept items |
| WritePipeline.Run | memory/longterm/write/pipeline.go:71-89 | resolve, dedup and store act on the map of the memory as specified; stored plus rejected is the number of candidates; a stored item changes only if some candidate for its key overrides it |
| WritePipeline.SurvivorsAreNewOrOverride | memory/longterm/conflict.go:54-119 | a winner that is no duplicate of the memory is a new key or beats the stored confidence by the gap |
| WritePipeline.UntouchedUnlessOverridden | memory/longterm/write/pipeline.go:71-89 | a stored item changes in a run only if some candidate for its key is no semantic match and its clamped confidence exceeds the decayed one by at least the gap |
| WritePipeline.RestatementsAreLost | memory/longterm/conflict.go:75-88 | a candidate that restates a stored value is never kept |
| WritePipeline.WrittenTwiceIsSpelledTwice | memory/longterm/dedup.go:59-71 | two kept candidates for one key have differently spelled sections |
| WritePipeline.PairIsKeptIff | memory/longterm/dedup.go:28-71 | of two candidates for one key both are stored exactly when their sections are spelled differently and, if the key is held, each overrides what is held |
| WritePipeline.PairOfValuesIff | memory/longterm/dedup.go:59-71 | of two new candidates for different keys the first is stored, and the second exactly when their sections are spelled differently or their values do not match |
| WritePipeline.KeptCandidateIsStored | memory/longterm/write/pipeline.go:71-89 | under the key of a kept candidate that no later kept one shares, the memory holds its value, clamped confidence and evidence, dated to the run, at a higher version than before |
| WritePipeline.SpellingsSlipPast | memory/longterm/dedup.go:59-71 | two spellings of a section are both kept and the second is stored over the first |
| TextCodec.IntRoundTrip | persist/markdown_persist.go:169-173 | Atoi reads back every printed 64-bit integer |
| TextCodec.RealRoundTrip | persist/markdown_persist.go:174-178 | a confidence printed with two places reads back rounded to hundredths |
| TextCodec.RoundHundredths | persist/markdown_persist.go:149-149 | rounding moves a confidence by at most half a hundredth |
| TextCodec.HundredthsIff | persist/markdown_persist.go:149-149 | what is printed is the nearest whole number of hundredths, the even one of two equally near |
| TextCodec.RoundingIsIdempotent | persist/markdown_persist.go:149-149 | a rounded confidence is not rounded further |
| TextCodec.DateRoundTrip | persist/markdown_persist.go:179-181 | a printed date reads back |
| TextCodec.DateIff | persist/markdown_persist.go:179-181 | a text is read as a date exactly when it is what that date is printed as |
| TextCodec.YearIsGregorian | persist/markdown_persist.go:179-181 | the dates are those of the Gregorian calendar |
| Markdown.ParseMarkdown | persist/markdown_persist.go:76-121 | the scanner loop computes the parse of the lines, section by section, and reports an overlong line |
| Markdown.ParseEntry | persist/markdown_persist.go:88-118 | one item line becomes the entry specified, or none |
| Markdown.ParseMarkdownMeta | persist/markdown_persist.go:160-183 | the fields of the meta text override the defaults one by one |
| Markdown.FormatMarkdown | persist/markdown_persist.go:123-158 | the printer writes the groups in first-seen order under their first spelling |
| Markdown.CollectGroups | persist/markdown_persist.go:126-141 | groups hold their entries in order, the order lists each folded section once |
| Markdown.GroupsGrow | persist/markdown_persist.go:132-141 | groups stand in the order of first sight and hold their entries in order |
| Markdown.TitleIsFirstSpelling | persist/markdown_persist.go:134-137 | the heading is the section as the first entry of its group spells it |
| MarkdownRoundTrip.MetaRoundTrip | persist/markdown_persist.go:149-183 | the meta text reads back to version, rounded confidence, day and source |
| MarkdownRoundTrip.ItemRoundTrip | persist/markdown_persist.go:88-153 | a storable item line reads back to its entry; one with an empty key is dropped |
| MarkdownRoundTrip.ParsedEntriesAreStorable | persist/markdown_persist.go:76-121 | whatever the file, every entry parsed has a trimmed one-line key without a colon and space, a non-empty trimmed one-line value and a proper section |
| MarkdownRoundTrip.ParseOfFormat | persist/markdown_persist.go:76-158 | printing and parsing storable groups gives back every entry with a key |
| MarkdownRoundTrip.RoundTripIff | persist/markdown_persist.go:76-158 | parsing what was printed gives the entries back, stably regrouped by folded section, if and only if keys, values and headings are storable and every line fits the scanner |
| MarkdownRoundTrip.ItemIff | persist/markdown_persist.go:88-95 | under a heading a line is an item exactly when it starts with a dash and a blank and its first colon and blank come later, but not at once |
| MarkdownRoundTrip.PlainItem | persist/markdown_persist.go:96-118 | an item without meta text has version one, full confidence, no source and the time of loading |
| MarkdownRoundTrip.MetaFieldsJoin | persist/markdown_persist.go:160-183 | meta fields take effect in order, a later one of its kind winning |
| MarkdownRoundTrip.UnknownField | persist/markdown_persist.go:160-183 | a field of none of the four kinds changes nothing |
| MarkdownRoundTrip.StrayIsSkipped | persist/markdown_persist.go:80-118 | a line that is neither a heading nor an item makes no difference, wherever it stands |
| MarkdownRoundTrip.ExampleLine | persist/markdown_persist.go:144-153 | what an item looks like in the file |
| MarkdownRoundTrip.ExampleFile | persist/markdown_persist.go:141-157 | what a file with one item looks like |
| MarkdownMemory.Write | memory/longterm/fact.go:327-345 | the file is the printed items |
| MarkdownMemory.Load | memory/longterm/fact.go:312-325 | the memory holds the parsed entries, indexed by last occurrence |
| MarkdownMemory.EveryEntryIsGrouped | persist/markdown_persist.go:132-141 | grouping neither loses nor doubles an entry |
| MarkdownMemory.ReloadKeepsKeys | memory/longterm/fact.go:312-333 | a written memory reloads with distinct keys and the same number of items |
| MarkdownMemory.WriteThenLoad | memory/longterm/fact.go:312-333 | after write and load the rebuilt index is sound and answers every section and key with the same value, version, source and day and the rounded confidence |
| SessionMemory.CompressionLosesNothing | memory/session_memory.go:40-116 | with one compression in flight at a time, the log is always the summarized messages followed by the history, wherever appends fall |
| SessionMemory.CommitLosesNothingIff | memory/session_memory.go:106-112 | storing a summary loses and doubles nothing exactly when its snapshot is still the front of the history |
| SessionMemory.CompressionKeepsTail | memory/session_memory.go:77-112 | afterwards the history is the last messages of the snapshot plus everything appended meanwhile |
| SessionMemory.FailureChangesNothing | memory/session_memory.go:77-112 | a compression whose summary fails leaves summary and history as they are, with everything appended meanwhile |
| SessionMemory.OverlapLosesMessage | memory/session_memory.go:106-112 | two compressions in flight lose a message |
| SessionMemory.Session.Compress | memory/session_memory.go:77-116 | the method is the begin, append and commit or fail steps of the model |
| SessionMemory.Session.AppendMessages | memory/session_memory.go:40-50 | appends to history and log |
| SessionMemory.Session.GetHistoryMessages | memory/session_memory.go:54-67 | the summary, if there is one, before the history |
| HumanGate.RunsAreGood | runtime/engine/infra/pause_gate.go:25-48 | in every interleaving the pause count equals the registered workers past Pause plus the resumers on their way, and each worker's registration fits its phase |
| HumanGate.OpenGateMeansNobodyWaits | runtime/engine/infra/pause_gate.go:42-48 | an open gate means nobody registered past Pause, no resumer under way and nobody asleep at the gate: no wake-up is lost |
| HumanGate.ResumeNeverClamps | runtime/engine/infra/pause_gate.go:32-39 | the executor's Resume always finds a count to take away |
| HumanGate.AnswersAreConserved | runtime/engine/infra/react.go:365-392 | in every interleaving the answers sent to a worker are those it received and the one in its channel, if any: none is lost, doubled or overwritten |
| HumanGate.SenderHasLooked | runtime/engine/infra/react.go:379-392 | in every interleaving a resumer about to send has looked before and found its worker marked as waiting |
| HumanGate.AbandonedWaitClosesTheGate | runtime/engine/infra/react.go:368-373 | after a wait that ended with its worker still registered the gate is closed in every continuation and no tool call gets past it |
| HumanGate.GateOpensAgainIff | runtime/engine/infra/pause_gate.go:25-48 | some continuation opens the gate if and only if no wait was abandoned |
| HumanGate.CancelledWaitIsAbandoned | runtime/engine/infra/react.go:368-373 | cancelling the wait of a registered worker brings that about |
| HumanGate.CancelledWaitHappens | runtime/engine/dag/dag.go:203-208 | and it is reachable from the start |
| HumanGate.StrandedStays | runtime/engine/dag/dag.go:85-103 | a waiting worker that nothing can answer any more waits until its own context is cancelled |
| HumanGate.AnsweredIff | runtime/engine/infra/react.go:365-392 | a waiting worker can still be answered, its own context uncancelled, if and only if it is registered, has an answer in its channel, or some resumer is about to send it one |
| HumanGate.GivingUpStrands | runtime/engine/infra/react.go:386-391 | a resumer that gives up leaves its worker so, with the gate reopened |
| HumanGate.GivingUpHappens | runtime/engine/infra/react.go:386-391 | and it is reachable from the start, with the gate open again |
| HumanAnswers.WalkIsRun | runtime/engine/infra/react.go:358-392 | marking questions and answers changes nothing about the protocol |
| HumanAnswers.BelongsIff | runtime/engine/infra/react.go:365-392 | in every run an answer a waiting worker can receive belongs to its question if and only if the worker has asked no other since the answer's resumer took it |
| HumanAnswers.UncrossedIsOrderly | runtime/engine/infra/react.go:358-392 | in every run in which no wait is cancelled with an answer under way and no worker is taken as it leaves, every answer received belongs to its question, and at most one is under way to a worker |
| HumanAnswers.CrossingCrosses | runtime/engine/infra/react.go:383-387 | the first step of the other kind leaves an answer under way to a worker that has left its wait |
| HumanAnswers.CrossedIff | runtime/engine/infra/react.go:338-392 | such an answer can come to be received for another question if and only if no wait was abandoned |
| HumanAnswers.FirstCrossingIff | runtime/engine/infra/react.go:338-392 | the same of the first such step of any run |
| HumanAnswers.SecondQuestionGetsFirstAnswer | runtime/engine/infra/react.go:383-387 | a run from the start in which a second question is answered with the first one's answer, and its wait is then abandoned |
| HumanGate.Coordinator.EnterGate | runtime/engine/infra/pause_gate.go:42-48 | a tool call passes an open gate and sleeps at a closed one |
| HumanGate.Coordinator.RegisterAgent | runtime/engine/dag/dag.go:204-206 | registers the worker |
| HumanGate.Coordinator.PauseGate | runtime/engine/infra/pause_gate.go:25-29 | counts one pause |
| HumanGate.Coordinator.AwaitAnswer | runtime/engine/infra/react.go:365-373 | waits, then leaves with an answer or by cancellation |
| HumanGate.Coordinator.TakeWaiting | runtime/engine/dag/dag.go:86-95 | takes some waiting worker out of the registry; none only if no registered worker waits |
| HumanGate.Coordinator.Deliver | runtime/engine/infra/react.go:379-392 | sends only to a worker that waits and has room |
| HumanGate.Coordinator.ResumeGate | runtime/engine/infra/pause_gate.go:32-39 | takes one pause away and wakes the sleepers |
| ReactLoop.ReactAgent.ExecuteWithTools | runtime/engine/infra/react.go:137-220 | for every model, tools and interruptions: the loop stops only for an answer, a failing model, an interruption, a terminating tool, the step limit or the end of the given turns, and goes on otherwise; the transcript consists of complete rounds, in order, and at most one final answer without calls; each prompt is the conversation so far with the whitelisted tools; the step limit holds; the whitelist is restored |
| ReactLoop.PromptsAreConversations | runtime/engine/infra/react.go:138-215 | each prompt is the system message, the user's messages and the transcript so far, in full and in order, with the whitelisted tools |
| ReactLoop.StoppedIff | runtime/engine/infra/react.go:154-217 | no round before the last ends the loop, and the loop is stopped exactly when the observer or a terminating tool of the last round says so or an interruption without an error comes below the limit |
| ReactLoop.PairedIsNotDangling | runtime/engine/infra/react.go:224-237 | a transcript in which every reply's calls are answered ends in no dangling call |
| ReactLoop.RoundKeepsPaired | runtime/engine/infra/react.go:195-207 | a reply and its tool message keep every call answered |
| ReactLoop.ReactAgent.VisibleTools | runtime/engine/infra/react.go:285-318 | the definitions the whitelist lets through, in order, cached or not |
| ReactLoop.AllowedIff | runtime/engine/infra/react.go:285-318 | a tool is visible exactly when it is defined and, if there is a whitelist, named in it |
| ReactLoop.AllowedJoins | runtime/engine/infra/react.go:285-318 | leaving tools out does not move the others |
| ReactLoop.ReactAgent.WithTools | runtime/engine/infra/react.go:64-74 | replaces the whitelist and drops the cache |
| ReactLoop.StripDanglingToolCalls | runtime/engine/infra/react.go:224-237 | removes the last message exactly when it is an assistant's with calls |
| ReactLoop.ExtractToolCalls | runtime/engine/infra/react.go:253-271 | the calls of a content, composites searched one level deep |
| ReactLoop.CallsJoin | runtime/engine/infra/react.go:253-271 | the calls of a composite are those of its parts, in order |
| ReactLoop.CallsOfOne | runtime/engine/infra/react.go:253-271 | a part has the calls it lists itself, a nested composite none |
| JsonExtract.MatchDelim | llm/caller.go:205-232 | the loop computes the scan |
| JsonExtract.ExtractJSON | llm/caller.go:185-201 | the span from the first opener that is closed; none only if no opener is |
| JsonExtract.ValuePasses | llm/caller.go:205-232 | counting one bracket kind, the scanner walks over every JSON value unchanged once inside a bracket |
| JsonExtract.ContainerMatches | llm/caller.go:205-232 | from the first bracket of an object or array it stops at the last |
| JsonExtract.ExtractsValueIff | llm/caller.go:185-201 | around a value anything may stand: the extracted span is the value if and only if no opener before it is closed around it, which the surrounding text alone decides where no opener has left a string open |
| JsonExtract.OpenerIsClosedIff | llm/caller.go:205-232 | an opener before the value is closed in the whole text if and only if it is closed in the text without the value or, where it has left a string open, the scan of the value and what follows, begun in that string, comes to an end |
| JsonExtract.ExtractsAfterUnquotedPrefixIff | llm/caller.go:185-201 | the same after every prefix without quotes |
| JsonExtract.OpenQuoteLetsValueDecide | llm/caller.go:205-232 | where an opener leaves a string open, between one prefix and suffix one array is extracted and another is not |
| JsonExtract.ExtractsAfterPlainPrefix | llm/caller.go:185-201 | after a prefix without openers exactly the value is extracted |
| JsonExtract.ClosedPrefixHidesValue | llm/caller.go:185-201 | a closed bracket before the value is extracted in its place |
| StreamAccum.AccumulatesFaithfully | provider/chat_completions/format.go:142-185 | for every order of deltas each call has its own fragments in order and its first name, and every named call was announced exactly once |
| StreamAccum.InterleavingsAreSorted | provider/chat_completions/format.go:142-185 | for every interleaving of calls with distinct ids that do not overlap on an index, each named call ends up with the concatenation of its own fragments |
| StreamAccum.RoutedIff | provider/chat_completions/format.go:158-167 | a delta reaches its own call exactly when it carries an id or the last delta with an id on its index was of the same call |
| StreamAccum.DistinctIndexesDoNotOverlap | provider/chat_completions/format.go:158-167 | calls with indexes of their own do not overlap |
| StreamAccum.ReusedIndexMisroutes | provider/chat_completions/format.go:158-167 | a reused index sends later fragments to the wrong call |
| StreamAccum.AccumulateDeltas | provider/chat_completions/format.go:156-185 | the loop over a chunk's deltas is the fold |
| StreamAccum.CollectDetails | provider/chat_completions/format.go:243-256 | the details list every named call once with its parsed arguments, in some order |
| StreamAccum.Stream | provider/chat_completions/format.go:135-235 | the calls announced, and a content whose tool calls are exactly the named calls of the deltas, each once with its own fragments parsed, which shows all the reasoning streamed, and the streamed text exactly when there was none or no delta named a call |
| StreamAccum.ContentHolds | provider/chat_completions/format.go:258-281 | whatever is assembled, the calls found in the content are the calls listed and the reasoning shown is the reasoning streamed |
| StreamAccum.StreamedCallIsExecuted | provider/chat_completions/format.go:135-281 | from the deltas to the tool: every named call of an interleaving without overlap is in the reply once, with its own name and its own fragments parsed, and the tool message holds the result of exactly that call |
| StreamAccum.StreamsJoin | provider/chat_completions/format.go:147-222 | deltas, text and reasoning of a stream are those of its two halves, in order |
| StreamAccum.TextSurvivesIff | provider/chat_completions/format.go:260-281 | text reaches the content assembled exactly when it is empty or no call is listed |
| StreamAccum.StreamKeepsTextIff | provider/chat_completions/format.go:135-281 | over a whole stream, text reaches the content exactly when there was none or no delta of any chunk named a call |
| Messages.ContentRoundTrip | core/types/message.go:167-232 | writing and reading a content gives it back without embedded media data, at any nesting |
| Messages.StripIsIdentityIff | core/types/message.go:30-38 | nothing is lost exactly when no media carries data, and what was read carries none |
| Messages.UnmarshalFailsIff | core/types/message.go:200-232 | reading fails exactly when some nested part is malformed |
| Messages.Tags | core/types/message.go:167-232 | the tag of each kind of content; under any other tag a content is empty |
| Messages.MessageRoundTrip | core/types/message.go:133-165 | the same for messages |
| SessionFile.ReadAll | persist/jsonl_persist.go:81-96 | the decoder loop reads the events of the text up to its end or a stray closing bracket, or fails |
| SessionFile.WriteAll | persist/jsonl_persist.go:99-110 | one event per line |
| SessionFile.Append | persist/jsonl_persist.go:54-78 | the new events on lines of their own behind the old text |
| SessionFile.ReadsLines | persist/jsonl_persist.go:81-110 | events written are read back |
| SessionFile.AppendedAreRead | persist/jsonl_persist.go:54-96 | events appended follow those already there, even after a last line without newline |
| SessionFile.StopsBehindEventsIff | persist/jsonl_persist.go:88-95 | reading ends with exactly the written events, without an error, if and only if what follows them is blank or starts with a closing bracket |
| SessionFile.RestIsDroppedIff | persist/jsonl_persist.go:88-95 | what follows written events is dropped without an error if and only if it starts with a closing bracket |
| SessionFile.BracketHidesTheRest | persist/jsonl_persist.go:88-95 | a line that starts with a closing bracket is such a case: nothing from there on is reported, and there is no error |
| SessionFile.SaveSession | persist/session.go:13-27 | the file is init, summary if any, and messages |
| SessionFile.LoadSession | persist/session.go:29-57 | loading folds the events and fails on a malformed one |
| SessionFile.SessionRoundTrip | persist/session.go:13-57 | loading a saved session gives the same summary and the same messages in order, without embedded media data |
| SessionFile.SessionGoesOn | persist/session.go:29-57 | a file that was appended to loads with the later summary and all messages in order |
| SessionFile.LoadFailsIff | persist/session.go:38-55 | loading fails exactly on a summary or message event whose payload does not fit |
| SessionFile.PassedOver | persist/session.go:38-55 | events of other kinds change nothing |
| SessionFile.SomeCodecReads | persist/jsonl_persist.go:81-110 | for the events of any file there is a codec that reads them back |

## Left out

- Language models, HTTP, tools other than the plan tools, the web interface, tracing and
  logging: they appear only as arbitrary choices.
- encoding/json, net/url and UUIDs: assumed faithful on the wrapper structs and on the events of
  the file at hand, invertible with neither blanks nor backticks in escaped text, and fresh.
- Floating point: confidences and weights are reals, and the powers in the decay an arbitrary
  factor in (0, 1].
- Case folding: an idempotent character map that keeps white space; name comparison in the
  graph compares folded names.
- Text is a sequence of characters; byte lengths count UTF-8 widths, and ill-formed UTF-8 is
  not modelled.
- HumanGate.Coordinator.AwaitAnswer, HumanGate.Coordinator.Deliver: each groups the steps of
  one goroutine; the interleavings with others are those of the step-wise runs in the same
  module, which the results are about.
- SessionMemory.Session.Compress: does not model persisting the session after a compression.
- DagExecution: nobody but the executor and the failure callback edits the plan during a call,
  no other plan holds one of its task ids, and a worker's error has a text, so that the callback
  runs; the reasons, outputs and usage written beside a status are not modelled.
- DagExecutor.Executor.ExecuteBatch: a status write, a store of the plan and a failure callback
  are one step each, in any interleaving with those of other goroutines. That the callback's
  count, review and rollback are one step is a simplification, and so is an atomic status write
  by a goroutine that gives up, for which the code does not hold the plan's mutex.
- PlanMachine.RunsAreSound: calls outside the tools offered in a state, and custom tools that
  edit plans, are not modelled.
- PlanStore.PlanTools: one tool call is one step; the locks that make it so are not modelled.
- Markdown.ParseMarkdownMeta: takes confidences that TextCodec.ParseFloat reads, no others.
- TextCodec.ParseFloat: reads signed plain decimals only, not exponents, hexadecimal or names.
- LongTermMemory.Memory.Remove: with duplicate keys in a file edited by hand the index is no
  bijection, and what then happens is not stated beyond the last occurrence winning.
- Memory search, statistics, entity labels' order, neighbours and the Mermaid view of the
  graph, the dream scheduler, text overlap scoring: easy or only read.
- ReactLoop.ReactAgent.ExecuteWithTools: a loop without a step limit is followed for as long
  as the given sequence of turns lasts; the tool registry does not change during a call.
- Token usage and timestamps on tasks and messages, which are carried along unread.
