# RunSigil verification

A Dafny model of RunSigil's durable control plane, and proofs about it. Every database
transaction of the services and workers is one atomic step; the main results hold after every
sequence of steps by any number of workers, callers and approvers, with crashes, expired
leases and stale claims in between.

`dafny verify dfyconfig.toml` checks the whole project.

## What is modelled

**Workflows.** `Definitions` and `InlineConfig` state what makes a definition executable, and
`DefinitionRules` says the same on nodes, edges and keys. `JsonMeaning` says what conditions mean.
`Validator` and `CycleSearch` are the validator in its own imperative form, proved to accept
exactly those definitions. `Interpreter` is the sequential meaning of a definition: one ready
node per step. `InterpreterProofs`, `RunBounds`, `RunLength`, `RunEnds`, `EndlessRun`,
`Determinism`, `Branching` and `StepEffects` prove what every run keeps, when it ends, which edge
each node follows and what each step writes. `Engine` is the durable engine as a transition
system over executions, waits, subworkflow calls, checkpoints and outbox events; `EngineStore` is the same code as methods that
update rows in place, proved to have the effects `Engine` specifies. `EngineCases`,
`EngineMoves`, `EngineLinks`, `EngineSteps` and `EngineTheorems` prove the system invariant.
`EngineResults` draws the consequences: refinement of the interpreter, no lost wake-up, single
settlement, fenced claims, replay determinism. `EngineRuns` shows that every execution is a run
of the interpreter on its recorded inputs, `EngineCompleteness` proves the converse of
refinement and `EngineDeadlines` that nothing sleeps past its deadline or wakes early.
`EngineOutcomes` and `EngineEffects` state what each transaction does in every reachable state.

**Governance.** `Budgets` is the hierarchical ledger and `LedgerStore` its loops over rows.
`Actions` is the life of a governed action and `ActionStore` the in-place services and worker;
`ModelCalls` and `ModelCallStore` do the same for model calls. `Governance` puts any number of
actions and calls over one ledger. `GovernanceResults` proves conservation, the overshoot
bound, agreement of all rows, at-most-once execution after an exact approval, attempt
accounting and single settlement; `GovernanceCalls` says which calls are funded and what their
endings charge, `GovernanceApprovals` what becomes of a request that ran out, and
`GovernanceOutcomes` what each transaction does to rows, budgets and reservations.

**Smaller parts.** `Policy` (first match and the decision cache), `Audit` (the hash chain),
`Pagination` (keyset pages) and `Evaluation` (graders, mean and gates).

Identifiers are numbers or strings, the clock is a natural number that never goes back, claim
tokens come from a counter, and a digest stands for the document it digests; `Audit` instead
takes any collision-free digest function. A provider's answer, a policy refusal and the worker
that acts next are inputs of a step, so the theorems hold for all of them. An outbox event is
identified by its deduplication key. A query that takes the oldest matching row is modelled as
taking any matching row, so the theorems hold for every choice. Numbers in a run state are
finite, because the canonical digest of a state rejects the others
(packages/contracts/runsigil_contracts/canonical.py:15-18), and Python compares integers and
floats by value, so both are compared as reals.

## Where the code and its promises differ

- The decision cache never looks at a bundle's `valid_until`: `Policy.CacheOutlivesBundle` gives a
  permission that is reused after its bundle expired, and `Policy.ReuseAgrees` proves that a
  reused decision agrees with a fresh evaluation exactly while the bundle has not expired.
- A refused reservation leaves the row of a model call behind; only the execution fails.
  `GovernanceCalls.RefusedCallRemains` gives one, `CallsAreFunded` and `CreatedCall` say exactly which
  calls are funded, and `UnfundedForever` that the others are never claimed or charged.
- The expired-approval branch raises, so its status write is rolled back: the request stays
  pending. `GovernanceApprovals.ExpiryHappens` gives a history, and `ExpiredNeverGranted` proves that
  such a request is never granted and can be cancelled exactly while its action is proposed.
- A loop's exit edge may lie on a cycle, so loop counts alone do not bound a run: `EndlessRun.NeverEnds`
  gives an executable definition that only the step limit stops. `RunEnds.RunEndsExactly` says exactly
  when a deterministic parallel-free run ends, and `RunLength.RunIsBounded` bounds every run, with any
  outside inputs, of a definition whose cycles all use a `continue` edge.

## Model

| member | source | states |
|---|---|---|
| `CycleSearch.DepthFirst.constructor` | packages/contracts/runsigil_contracts/workflows.py:173-178 | the search starts with both sets empty over exactly the arcs of the restricted graph |
| `CycleSearch.DepthFirst.Visit` | packages/contracts/runsigil_contracts/workflows.py:180-190 | the recursive search terminates; it reports a cycle only if there is one, and otherwise finishes the node, everything it reaches, and restores the recursion stack |
| `CycleSearch.DepthFirst.Run` | packages/contracts/runsigil_contracts/workflows.py:172-192 | true exactly when the graph restricted to the given nodes has a cycle |
| `CycleSearch.Reachable` | packages/contracts/runsigil_contracts/workflows.py:566-574 | the worklist computes exactly the nodes the entry reaches |
| `Validator.IndexNodes` | packages/contracts/runsigil_contracts/workflows.py:200-209 | `nodes_by_id` with the last of equal ids, and an issue exactly when an id repeats |
| `Validator.IndexEdges` | packages/contracts/runsigil_contracts/workflows.py:211-240 | the outgoing and incoming lists hold exactly the known edges in order, and an issue exactly when an id repeats or an end is missing |
| `Validator.CheckEntry` | packages/contracts/runsigil_contracts/workflows.py:242-267 | no issue exactly when the entry exists, is an input without incoming edges, and there is an output |
| `InlineConfig.ForbiddenPaths` | packages/contracts/runsigil_contracts/workflows.py:135-147 | the recursive search lists exactly the paths through nested objects and lists that name a forbidden key |
| `InlineConfig.SensitiveMeans` | packages/contracts/runsigil_contracts/workflows.py:135-147 | a configuration is sensitive exactly when some path through it names a forbidden key |
| `Validator.CheckNodes` | packages/contracts/runsigil_contracts/workflows.py:269-563 | no issue but unsupported types exactly when every node has no sensitive inline configuration and the configuration and edges of its type |
| `Validator.CheckCycles` | packages/contracts/runsigil_contracts/workflows.py:589-598 | the cycle issue is raised exactly when a cycle avoids every bounded loop |
| `Validator.CheckMixes` | packages/contracts/runsigil_contracts/workflows.py:600-645 | no issue exactly when no forbidden combination of node types occurs |
| `Validator.Validate` | packages/contracts/runsigil_contracts/workflows.py:195-653 | `valid` and `executable` hold exactly for the definitions the declarative rules accept |
| `DefinitionRules.WellFormedMeans` | packages/contracts/runsigil_contracts/workflows.py:195-653 | `valid` means: distinct ids, known ends, an input entry no edge enters, an output, each node's edges and configuration as its type allows, everything reachable, no cycle without a loop, no forbidden mix, all stated on nodes and edges |
| `DefinitionRules.EdgeRuleMeans` | packages/contracts/runsigil_contracts/workflows.py:287-563 | the edges each node type may have, branch by branch |
| `DefinitionRules.ConfigRuleMeans` | packages/contracts/runsigil_contracts/workflows.py:299-556 | the configuration each node type must have, key by key |
| `DefinitionRules.ExecutableMeans` | packages/contracts/runsigil_contracts/workflows.py:646-653 | `executable` means accepted without supervisor and handoff nodes |
| `DefinitionRules.SensitiveNames` | packages/contracts/runsigil_contracts/workflows.py:120-147 | each of the eight sensitive names is refused at any depth, however it is spelled |
| `Definitions.EveryCycleMeetsALoop` | packages/contracts/runsigil_contracts/workflows.py:589-598 | in a well-formed definition every cycle of the whole graph contains a bounded-loop node |
| `Json.ConditionValue` | apps/control-api/runsigil_control_api/services/workflow_engine.py:97-103 | the loop returns the value the dotted path names, or None where it leads nowhere |
| `Json.ParseOperator` | apps/control-api/runsigil_control_api/services/workflow_engine.py:106-122 | each of the six names gives its own operator, and no other name gives one |
| `Json.OrderZero` | apps/control-api/runsigil_control_api/services/workflow_engine.py:106-121 | where Python orders two values, neither comes first exactly when they are equal |
| `Json.CompareMirror` | apps/control-api/runsigil_control_api/services/workflow_engine.py:106-122 | swapping the sides of a comparison swaps the operators |
| `Json.CompareAgrees` | apps/control-api/runsigil_control_api/services/workflow_engine.py:106-122 | the six operators are consistent with one another, and unorderable values make every ordering false |
| `JsonMeaning.EqualityMeans` | apps/control-api/runsigil_control_api/services/workflow_engine.py:107-110 | `eq` and `ne` compare what values are worth, numbers of all kinds by size and containers member by member |
| `JsonMeaning.NumbersCompare` | apps/control-api/runsigil_control_api/services/workflow_engine.py:111-119 | the four orderings of numbers are the orderings by size |
| `JsonMeaning.TextsCompare` | apps/control-api/runsigil_control_api/services/workflow_engine.py:111-119 | texts are ordered at the first differing character, a proper prefix first |
| `JsonMeaning.ListsCompare` | apps/control-api/runsigil_control_api/services/workflow_engine.py:111-119 | lists are ordered at the first position where they differ, and otherwise by length |
| `JsonMeaning.StrangersCompare` | apps/control-api/runsigil_control_api/services/workflow_engine.py:111-121 | values Python cannot order satisfy none of the four orderings |
| `JsonMeaning.SplitIsExact` | apps/control-api/runsigil_control_api/services/workflow_engine.py:99-99 | splitting at dots and joining gives the text back, and no part holds a dot |
| `JsonMeaning.LookupOne` | apps/control-api/runsigil_control_api/services/workflow_engine.py:100-102 | one name of a path is the field of that name in an object, and nothing anywhere else |
| `JsonMeaning.LookupOn` | apps/control-api/runsigil_control_api/services/workflow_engine.py:97-103 | a dotted path is followed name by name |
| `InterpreterProofs.ReadyIsExact` | apps/control-api/runsigil_control_api/services/workflow_engine.py:942-948 | the ready nodes are exactly the active nodes that exist and, if joins, have every parent completed, in ascending order |
| `InterpreterProofs.NextNodesTotal` | apps/control-api/runsigil_control_api/services/workflow_engine.py:211-244 | in an executable definition the successor lookup always finds its branch, follows edges only, and is empty exactly at outputs |
| `Branching.ConditionFollows` | apps/control-api/runsigil_control_api/services/workflow_engine.py:222-230 | a condition follows its `true` edge exactly when its comparison holds of the state, else its `false` edge |
| `Branching.ParallelFollows` | apps/control-api/runsigil_control_api/services/workflow_engine.py:231-232 | a parallel node activates exactly the targets of its edges, sorted |
| `Branching.LoopCountIsVisits` | apps/control-api/runsigil_control_api/services/workflow_engine.py:233-241 | in every run a loop's count is the number of its visits, capped at its maximum |
| `Branching.LoopFollows` | apps/control-api/runsigil_control_api/services/workflow_engine.py:233-241 | in every run a loop takes `continue` on its first max_iterations visits and `exit` on every later one |
| `Branching.ApprovalFollows` | apps/control-api/runsigil_control_api/services/workflow_engine.py:242-243 | an approval node follows the edge of its answer |
| `InterpreterProofs.RunNodeTotal` | apps/control-api/runsigil_control_api/services/workflow_engine.py:1739-1753 | with a suitable outside input every node of an executable definition runs |
| `InterpreterProofs.StepShape` | apps/control-api/runsigil_control_api/services/workflow_engine.py:1739-1753 | a step appends the node to the path and replaces it in the active set by edge targets |
| `StepEffects.ResponseIsWritten` | apps/control-api/runsigil_control_api/services/workflow_engine.py:1690-1711 | an event or information node writes the response under its `state_key`, and every other key of the run state keeps its value |
| `StepEffects.ResultIsWritten` | apps/control-api/runsigil_control_api/services/workflow_engine.py:1565-1574 | a subworkflow node writes the child's final state under its `result_state_key`, and nothing else |
| `StepEffects.OthersKeepState` | apps/control-api/runsigil_control_api/services/workflow_engine.py:1739-1753 | every other node leaves the run state alone |
| `StepEffects.StepIsExact` | apps/control-api/runsigil_control_api/services/workflow_engine.py:1739-1753 | active nodes, completed nodes, path, step count and loop counts after a step, exactly |
| `StepEffects.LoopsAreExact` | apps/control-api/runsigil_control_api/services/workflow_engine.py:233-241 | only a loop below its configured maximum counts, and it counts one |
| `StepEffects.RunsTheFirst` | apps/control-api/runsigil_control_api/services/workflow_engine.py:942-948 | the least active node that may run is the one that runs |
| `StepEffects.SingleEdgeFollows` | apps/control-api/runsigil_control_api/services/workflow_engine.py:244-244 | a node with one outgoing edge is followed by its target |
| `InterpreterProofs.StepKeepsInvariant` | apps/control-api/runsigil_control_api/services/workflow_engine.py:200-244 | each step keeps active nodes inside the graph, every executed node fed by an edge from an earlier path node, joins after all their parents, loop counts bounded, and completion at outputs only |
| `InterpreterProofs.StepTotal` | apps/control-api/runsigil_control_api/services/workflow_engine.py:942-948 | a ready node with a suitable input always runs |
| `InterpreterProofs.RunInvariant` | apps/control-api/runsigil_control_api/services/workflow_engine.py:1739-1753 | all of these hold at every record any run of an executable definition reaches |
| `RunBounds.ContinueBound` | apps/control-api/runsigil_control_api/services/workflow_engine.py:233-241 | over a whole run a loop node takes `continue` at most max_iterations times |
| `RunBounds.RunIsSerial` | apps/control-api/runsigil_control_api/services/workflow_engine.py:1747-1753 | without parallel nodes the path is a walk and at most one node is active |
| `RunBounds.StretchBound` | packages/contracts/runsigil_contracts/workflows.py:589-598 | in a parallel-free executable definition a stretch of the path without loop nodes repeats no node and is no longer than the number of non-loop nodes |
| `RunLength.RunIsBounded` | apps/control-api/runsigil_control_api/services/workflow_engine.py:233-241 | if every cycle of a parallel-free executable definition uses a loop's `continue` edge, no run is longer than one pass over the nodes for each continue its loops allow, and one more |
| `RunEnds.RunEndsExactly` | apps/control-api/runsigil_control_api/services/workflow_engine.py:855-1853 | a deterministic parallel-free definition runs forever on an input exactly when a node becomes active twice with no `continue` in between, which is exactly when it is still active after the longest bounded run; a run that ends has ended by then |
| `EndlessRun.EndlessIsExecutable` | packages/contracts/runsigil_contracts/workflows.py:589-598 | a concrete definition whose loop exits back into a cycle passes every rule of the validator |
| `EndlessRun.NeverEnds` | apps/control-api/runsigil_control_api/services/workflow_engine.py:233-241 | on that definition the interpreter takes any number of steps and never completes, so loop counts alone bound nothing |
| `EngineStore.Successors` | apps/control-api/runsigil_control_api/services/workflow_engine.py:211-244 | the method that updates `loop_counts` computes the specified successors and counts |
| `EngineStore.RunStep` | apps/control-api/runsigil_control_api/services/workflow_engine.py:1739-1753 | the step computed field by field is the interpreter's step |
| `EngineStore.ExecutionRows.constructor` | apps/control-api/runsigil_control_api/services/workflows.py:811-893 | a new execution row with its first ready event |
| `EngineStore.ExecutionRows.Claim` | apps/control-api/runsigil_control_api/services/workflow_engine.py:131-198 | the claim succeeds exactly when the event is unprocessed, due, and undelivered or recoverable, and has the specified effect |
| `EngineStore.ExecutionRows.CancelPendingWaits` | apps/control-api/runsigil_control_api/services/workflow_engine.py:611-624 | the loop cancels exactly the pending waits |
| `EngineStore.ExecutionRows.CancelPendingCalls` | apps/control-api/runsigil_control_api/services/workflow_engine.py:625-654 | the loop cancels exactly the pending calls and yields the children to stop |
| `EngineStore.ExecutionRows.EndClaimed` | apps/control-api/runsigil_control_api/services/workflow_engine.py:600-699 | failing or stopping a claimed execution has the specified effect on every row |
| `EngineStore.ExecutionRows.WriteStep` | apps/control-api/runsigil_control_api/services/workflow_engine.py:1747-1853 | a step writes the record, one checkpoint, and either completion or one ready event |
| `EngineStore.ExecutionRows.CreateWait` | apps/control-api/runsigil_control_api/services/workflow_waits.py:88-188 | suspending at a wait node writes the wait and one wake event at its expiry |
| `EngineStore.ExecutionRows.CreateCall` | apps/control-api/runsigil_control_api/services/workflow_subworkflows.py:58-185 | suspending on a subworkflow writes the call and one timeout event |
| `EngineStore.ExecutionRows.AdvanceWait` | apps/control-api/runsigil_control_api/services/workflow_engine.py:1575-1711 | each branch at a wait node has the specified effect |
| `EngineStore.ExecutionRows.AdvanceCall` | apps/control-api/runsigil_control_api/services/workflow_engine.py:1453-1574 | each branch at a subworkflow node has the specified effect, and yields the children given up |
| `EngineStore.ExecutionRows.Advance` | apps/control-api/runsigil_control_api/services/workflow_engine.py:855-1853 | the whole of `advance`, branch by branch, has the specified effect and yields the children given up |
| `EngineStore.ExecutionRows.Respond` | apps/control-api/runsigil_control_api/services/workflow_waits.py:297-400 | a response is accepted exactly when the wait is pending, unexpired, shown its exact content, and still waited for |
| `EngineStore.ExecutionRows.CancelByCaller` | apps/control-api/runsigil_control_api/services/workflows.py:960-1107 | cancellation of an idle execution has the specified effect |
| `EngineStore.ExecutionRows.ChildEnded` | apps/control-api/runsigil_control_api/services/workflow_subworkflows.py:219-273 | a child's end settles a pending call once and queues one resume event |
| `EngineMoves.ClaimKeeps` | apps/control-api/runsigil_control_api/services/workflow_engine.py:131-198 | a claim keeps the execution's invariant |
| `EngineMoves.CloseKeeps` | apps/control-api/runsigil_control_api/services/workflow_engine.py:600-800 | an early end keeps it |
| `EngineMoves.CancelKeeps` | apps/control-api/runsigil_control_api/services/workflows.py:960-1107 | a caller's cancellation keeps it |
| `EngineMoves.OpenWaitKeeps` | apps/control-api/runsigil_control_api/services/workflow_waits.py:88-188 | opening a wait keeps it: one live wake event, at the wait's expiry |
| `EngineMoves.OpenCallKeeps` | apps/control-api/runsigil_control_api/services/workflow_subworkflows.py:58-185 | opening a subworkflow call keeps it |
| `EngineMoves.FinishKeeps` | apps/control-api/runsigil_control_api/services/workflow_engine.py:1739-1853 | recording a step keeps it: the new checkpoint is the interpreter's next record |
| `EngineMoves.ChosenIsFirst` | apps/control-api/runsigil_control_api/services/workflow_engine.py:942-948 | the wake-up always names the first ready node, so a wake mismatch cannot occur |
| `EngineMoves.AdvanceKeeps` | apps/control-api/runsigil_control_api/services/workflow_engine.py:855-1853 | an advance with any claim, current or stale, keeps it |
| `EngineMoves.RespondKeeps` | apps/control-api/runsigil_control_api/services/workflow_waits.py:297-400 | a response keeps it: the wake event is retired and one resume event takes its place |
| `EngineMoves.ChildSettledKeeps` | apps/control-api/runsigil_control_api/services/workflow_subworkflows.py:219-273 | the settlement of a child keeps the parent's invariant |
| `EngineTheorems.NextKeeps` | apps/control-api/runsigil_control_api/services/workflow_engine.py:131-1853 | every transaction keeps the invariant of the whole system, and settled rows, checkpoints, ended executions and spent tokens never change again |
| `EngineTheorems.HistoryInvariant` | apps/control-api/runsigil_control_api/services/workflow_engine.py:131-1853 | the invariant holds after every sequence of transactions by any number of workers and callers |
| `EngineTheorems.CheckpointSound` | apps/control-api/runsigil_control_api/services/workflows.py:150-209 | every checkpoint is a record the interpreter can reach within the step limit |
| `EngineResults.NoLostWakeup` | apps/control-api/runsigil_control_api/services/workflow_waits.py:163-188 | every execution that has not ended has exactly one unprocessed wake event, claimable from its wake time on, and while waiting it names the wait or call the execution stands at |
| `EngineDeadlines.WakesByDeadline` | apps/control-api/runsigil_control_api/services/workflow_engine.py:855-929 | at the latest after its deadline and any lease, every execution that has not ended can be claimed |
| `EngineDeadlines.NothingEarly` | apps/control-api/runsigil_control_api/services/workflow_engine.py:1620-1651 | in every reachable state a timer that elapsed had come due, a wait that expired and a call that timed out had expired, and all were set to expire by the deadline |
| `EngineOutcomes.ClaimOutcome` | apps/control-api/runsigil_control_api/services/workflow_engine.py:131-198 | a claim takes a free event for exactly the length of the lease, and otherwise changes nothing |
| `EngineOutcomes.LeaseProtects` | apps/control-api/runsigil_control_api/services/workflow_engine.py:134-137 | while a lease lasts no claim on the execution has any effect |
| `EngineOutcomes.LeaseIsExclusive` | apps/control-api/runsigil_control_api/services/workflow_engine.py:134-198 | until its lease runs out or it advances, the holder keeps the execution and its claim stays good, whatever the others do |
| `EngineEffects.AdvanceOutcome` | apps/control-api/runsigil_control_api/services/workflow_engine.py:855-1853 | in every reachable state an advance with the current claim does what the checks in their order and then the node decide, on every row and event, and without the claim nothing |
| `EngineEffects.CallHasChild` | apps/control-api/runsigil_control_api/services/workflow_subworkflows.py:58-185 | a call that an advance opened has a child of the given definition, started on the parent's state with its own deadline |
| `EngineEffects.DelayIsConfigured` | apps/control-api/runsigil_control_api/services/workflow_engine.py:1585-1590 | a timer waits for the seconds in its configuration |
| `EngineEffects.DeadlineFreezes` | apps/control-api/runsigil_control_api/services/workflow_engine.py:908-918 | once the deadline has passed nothing moves the execution's record any more |
| `EngineEffects.DeadlineEnds` | apps/control-api/runsigil_control_api/services/workflow_engine.py:908-918 | from every reachable state, once the deadline and any lease have passed, one claim and one advance end the execution where it stands |
| `EngineEffects.CancelOutcome` | apps/control-api/runsigil_control_api/services/workflows.py:960-1107 | cancelling ends an idle execution, cancels its pending rows and queues its settlement, and changes nothing else |
| `EngineEffects.RespondOutcome` | apps/control-api/runsigil_control_api/services/workflow_waits.py:297-400 | a response that fits settles its wait as given, retires the wake event and queues a resume event; any other changes nothing |
| `EngineEffects.ChildEndReachesParent` | apps/control-api/runsigil_control_api/services/workflow_subworkflows.py:219-273 | the end of a child settles its parent's pending call with the child's own outcome and final state and queues one resume event |
| `EngineEffects.StateIsExplained` | apps/control-api/runsigil_control_api/services/workflow_engine.py:1690-1711 | in every reachable state the run state of every execution changed only by the responses and child results on record, under the configured keys |
| `EngineResults.NoOrphan` | apps/control-api/runsigil_control_api/services/workflow_engine.py:636-654 | a child whose parent gave up has an unprocessed stop event until it ends |
| `EngineResults.CallsAgreeWithChildren` | apps/control-api/runsigil_control_api/services/workflow_subworkflows.py:233-273 | a pending call has a child that still runs or awaits finalization, a completed call holds the final state of a completed child |
| `EngineResults.SettledOnce` | apps/control-api/runsigil_control_api/services/workflow_waits.py:308-400 | a wait or call settles once: in every race its settled row never changes again |
| `EngineResults.GuardsAreUnreachable` | apps/control-api/runsigil_control_api/services/workflow_engine.py:1007-1023 | no execution fails on a mismatched wake-up, an invalid child result or an invalid answer, and none exceeds its step limit |
| `EngineResults.StaleAdvance` | apps/control-api/runsigil_control_api/services/workflow_engine.py:855-873 | an advance with a token that is not the current one changes nothing |
| `EngineResults.AdvanceSpends` | apps/control-api/runsigil_control_api/services/workflow_engine.py:866-873 | an advance that changes anything held the current claim and gives it up |
| `EngineResults.ClaimAdvancesOnce` | apps/control-api/runsigil_control_api/services/workflow_engine.py:855-873 | a claim moves an execution at most once, whatever happens in between |
| `EngineResults.ExecutionIsExplained` | apps/control-api/runsigil_control_api/services/workflow_engine.py:1739-1785 | every checkpoint of every execution is the interpreter's step from the one before, on the recorded response or child result |
| `EngineResults.CheckpointsIterate` | apps/control-api/runsigil_control_api/services/workflow_engine.py:1739-1785 | the checkpoints of a deterministic execution are the interpreter's successive records |
| `EngineResults.ExecutionRefinesInterpreter` | apps/control-api/runsigil_control_api/services/workflow_engine.py:131-1853 | refinement: at every moment after a start on an input, under every interleaving of workers, crashes, lease expiries and stale advances, a deterministic execution has the sequential interpreter's record of that input after step_count steps |
| `EngineResults.RecordIsInterpreted` | apps/control-api/runsigil_control_api/services/workflows.py:1110-1163 | forked and child executions included, the record of a deterministic execution is one the interpreter reaches from a fresh start |
| `EngineRuns.ExecutionIsRun` | apps/control-api/runsigil_control_api/services/workflow_engine.py:131-1853 | refinement with waits, subworkflows, forks and replays: every execution is the interpreter's run from its first record on exactly the responses and child results on record, one per step |
| `EngineRuns.StartedExecutionIsRun` | apps/control-api/runsigil_control_api/services/workflows.py:811-893 | a started execution is the interpreter's run of the input it was started on |
| `EngineRuns.ForkedExecutionIsRun` | apps/control-api/runsigil_control_api/services/workflows.py:1110-1163 | a forked execution is the interpreter's run from the checkpoint it was forked at |
| `EngineRuns.ResponseIsRecorded` | apps/control-api/runsigil_control_api/services/workflow_waits.py:348-400 | an accepted response stays on record exactly as it was given |
| `EngineRuns.ChildStartsFromParent` | apps/control-api/runsigil_control_api/services/workflow_subworkflows.py:58-185 | every child execution started on the state its parent had at the call |
| `EngineRuns.LoopsBoundExecution` | apps/control-api/runsigil_control_api/services/workflow_engine.py:919-929 | an execution whose definition's cycles all use `continue` edges stays within the run bound, and is never ended by a step limit that allows as much |
| `EngineCompleteness.RoundSteps` | apps/control-api/runsigil_control_api/services/workflow_engine.py:131-1853 | one claim and one advance perform exactly the interpreter's next step |
| `EngineCompleteness.EngineCompletesRuns` | apps/control-api/runsigil_control_api/services/workflow_engine.py:855-1853 | every run the interpreter completes within the step limit, the engine can complete with the same record after any earlier history |
| `EngineResults.ReplayFollows` | apps/control-api/runsigil_control_api/services/workflow_replays.py:80-113 | each checkpoint of a replay is the corresponding checkpoint of its completed source |
| `EngineResults.VerdictMeans` | apps/control-api/runsigil_control_api/services/workflow_replays.py:206-218 | a replay matched exactly when it completed with the state and the path of its source |
| `EngineResults.ReplayMatches` | apps/control-api/runsigil_control_api/services/workflow_replays.py:193-214 | a replay of a completed deterministic execution is running or settles as matched, unless its deadline passed, a policy refused a node or its caller cancelled it |
| `EngineCompleteness.ReplayCompletes` | apps/control-api/runsigil_control_api/services/workflow_replays.py:80-113 | from every checkpoint with an active node the replay can complete, and then it settles as matched |
| `LedgerStore.LedgerTable.Reserve` | apps/control-api/runsigil_control_api/services/budgets.py:77-159 | all or nothing: the reservation is made in every applicable budget, or no row of any scope changes and the first failed check is reported |
| `LedgerStore.LedgerTable.HasRoom` | apps/control-api/runsigil_control_api/services/budgets.py:131-139 | true exactly when every applicable budget has room for its estimate |
| `LedgerStore.LedgerTable.Settle` | apps/control-api/runsigil_control_api/services/budgets.py:289-398 | the settlement loop settles every active reservation of the owner, or changes nothing when a guard fires |
| `LedgerStore.LedgerTable.Release` | apps/control-api/runsigil_control_api/services/budgets.py:250-286 | releasing is a settlement that charges nothing |
| `LedgerStore.SettleRow` | apps/control-api/runsigil_control_api/services/budgets.py:314-341 | one pass of the settlement loop computes the specified row or the specified error |
| `LedgerStore.ReleaseRow` | apps/control-api/runsigil_control_api/services/budgets.py:272-285 | one pass of the release loop likewise |
| `Budgets.ReserveSound` | apps/control-api/runsigil_control_api/services/budgets.py:121-159 | a reservation keeps conservation and the overshoot bound in every budget |
| `Budgets.SettledSound` | apps/control-api/runsigil_control_api/services/budgets.py:314-342 | a settlement keeps them |
| `Budgets.AlwaysSettleable` | apps/control-api/runsigil_control_api/services/budgets.py:317-323 | on a sound ledger the guards against unsafe reservations and negative usage never fire |
| `Budgets.SettleOnce` | apps/control-api/runsigil_control_api/services/budgets.py:314-316 | settling an owner a second time changes nothing |
| `Budgets.ActionsStayWithinLimit` | apps/control-api/runsigil_control_api/services/budgets.py:131-144 | a sound budget with reservations of governed actions alone never exceeds its limit |
| `Actions.DecideKeeps` | apps/control-api/runsigil_control_api/services/governed_actions.py:555-667 | a decision keeps action, run, approval, dead letter, attempts and ready event in agreement |
| `Actions.CancelKeeps` | apps/control-api/runsigil_control_api/services/governed_actions.py:703-764 | a cancellation keeps it |
| `Actions.ClaimKeeps` | apps/worker/runsigil_worker/service.py:82-172 | a ready event is only ever delivered to an approved action, and the claim keeps the agreement |
| `Actions.ReconcileKeeps` | apps/worker/runsigil_worker/service.py:174-252 | a reconciliation claim keeps it |
| `Actions.SettleKeeps` | apps/worker/runsigil_worker/service.py:287-413 | a worker's report keeps it, whatever the provider said and whether or not the claim is current |
| `Actions.RedriveKeeps` | apps/control-api/runsigil_control_api/services/dead_letters.py:15-98 | a redrive keeps it |
| `Actions.DecideSucceeds` | apps/control-api/runsigil_control_api/services/governed_actions.py:586-619 | a decision succeeds exactly when the action is proposed, the request unexpired and the submitted digest the stored one |
| `Actions.CancelSucceeds` | apps/control-api/runsigil_control_api/services/governed_actions.py:723-748 | a cancellation succeeds exactly while the run waits for approval |
| `Actions.RedriveSucceeds` | apps/control-api/runsigil_control_api/services/dead_letters.py:53-84 | the lineage guard never rejects; version and remaining redrives alone decide |
| `Actions.AttemptsBounded` | apps/worker/runsigil_worker/service.py:221-228 | reconcile_attempts never exceeds the maximum times one more than the allowed redrives |
| `ActionStore.ActionRow.DecideApproval` | apps/control-api/runsigil_control_api/services/governed_actions.py:555-667 | the field updates of a decision have the specified effect on row and ledger, and a refusal changes nothing |
| `ActionStore.ActionRow.CancelRun` | apps/control-api/runsigil_control_api/services/governed_actions.py:703-764 | the field updates of a cancellation likewise |
| `ActionStore.ActionRow.Claim` | apps/worker/runsigil_worker/service.py:82-172 | the field updates of an execution claim likewise |
| `ActionStore.ActionRow.ClaimForReconciliation` | apps/worker/runsigil_worker/service.py:174-252 | claims exactly the executing actions with an expired lease and the due reconciliations |
| `ActionStore.ActionRow.Report` | apps/worker/runsigil_worker/service.py:287-413 | the field updates of a settlement have the specified effect on row and ledger |
| `ActionStore.ActionRow.DeadLetter` | apps/worker/runsigil_worker/service.py:429-475 | the dead letter is opened, or reopened with a new version |
| `ActionStore.ActionRow.RedriveLetter` | apps/control-api/runsigil_control_api/services/dead_letters.py:15-98 | the field updates of a redrive have the specified effect, and every refusal changes nothing |
| `ModelCalls.SettleCallKeeps` | apps/worker/runsigil_worker/model_calls.py:244-374 | a worker's report keeps the call's invariant |
| `ModelCalls.ExpireCallKeeps` | apps/control-api/runsigil_control_api/services/workflow_models.py:452-495 | a timeout keeps it |
| `ModelCalls.TimeoutEndsUnclaimed` | apps/control-api/runsigil_control_api/services/workflow_models.py:472-495 | a timeout ends a call exactly when no worker ever claimed it, and only then releases its reservations |
| `ModelCallStore.ModelCallRow.constructor` | apps/control-api/runsigil_control_api/services/workflow_models.py:269-379 | a call is queued with its two events exactly when every reservation was made; otherwise the row stays behind without events |
| `ModelCallStore.ModelCallRow.Claim` | apps/worker/runsigil_worker/model_calls.py:61-134 | the field updates of a claim have the specified effect |
| `ModelCallStore.ModelCallRow.ClaimForReconciliation` | apps/worker/runsigil_worker/model_calls.py:136-203 | claims exactly the expired executions and due reconciliations |
| `ModelCallStore.ModelCallRow.Report` | apps/worker/runsigil_worker/model_calls.py:244-374 | the field updates of a settlement have the specified effect on row and ledger |
| `ModelCallStore.ModelCallRow.TimeOut` | apps/control-api/runsigil_control_api/services/workflow_models.py:452-509 | the field updates of a timeout likewise |
| `Governance.NextKeeps` | apps/worker/runsigil_worker/service.py:82-475 | every transaction on actions, model calls and the shared ledger keeps the invariant and only moves forward |
| `Governance.HistoryInvariant` | apps/worker/runsigil_worker/service.py:82-475 | the invariant holds after every sequence of transactions |
| `GovernanceOutcomes.RefusalOutcome` | apps/control-api/runsigil_control_api/services/budgets.py:86-139 | the checks of a reservation in their order, on estimates, scopes and amounts |
| `GovernanceOutcomes.CreateActionOutcome` | apps/control-api/runsigil_control_api/services/governed_actions.py:322-552 | an action is refused exactly when a budget is missing or has too little left in any of its scopes; otherwise it is reserved in all of them and proposed or queued |
| `GovernanceOutcomes.CreateCallOutcome` | apps/control-api/runsigil_control_api/services/workflow_models.py:269-379 | the same for a model call, its route included, with its two events or none |
| `GovernanceOutcomes.SettledMeans` | apps/control-api/runsigil_control_api/services/budgets.py:314-342 | a settlement is refused exactly for negative usage; it moves what was reserved to what was spent, concurrent runs apart, and touches nothing else |
| `GovernanceOutcomes.ActionCharges` | apps/control-api/runsigil_control_api/services/budgets.py:314-342 | in every reachable state the reservations of an action are active, paid or given back as its state says |
| `GovernanceOutcomes.SettleOutcome` | apps/worker/runsigil_worker/service.py:302-366 | a report by the worker that has the action ends it as the provider answered, paid or given back, or leaves it unresolved; any other changes nothing |
| `GovernanceOutcomes.DecideOutcome` | apps/control-api/runsigil_control_api/services/governed_actions.py:583-667 | a pending, unexpired request shown its digest is granted and queued or denied and given back as decided; any other decision changes nothing |
| `GovernanceOutcomes.CancelRunOutcome` | apps/control-api/runsigil_control_api/services/governed_actions.py:703-764 | cancelling rejects a proposed action, gives its reservations back, and changes nothing else |
| `GovernanceOutcomes.ExecuteOutcome` | apps/worker/runsigil_worker/service.py:129-149 | an approved action is claimed for execution once, for the length of the lease |
| `GovernanceOutcomes.ReconcileOutcome` | apps/worker/runsigil_worker/service.py:174-229 | exactly an execution whose lease ran out and a due reconciliation are claimed for reconciliation |
| `GovernanceOutcomes.RedriveOutcome` | apps/control-api/runsigil_control_api/services/dead_letters.py:53-98 | a redrive puts the action of an open letter back to reconciliation, at once and for a new cycle |
| `GovernanceOutcomes.CallRowsSay` | apps/control-api/runsigil_control_api/services/budgets.py:370-398 | in every reachable state the reservations of a funded call are those of its charge, resource by resource |
| `GovernanceOutcomes.SettleCallOutcome` | apps/worker/runsigil_worker/model_calls.py:252-300 | a completed answer charges the reported cost and tokens, a failed one gives everything back, and either wakes the execution once |
| `GovernanceOutcomes.TakeCallOutcome` | apps/worker/runsigil_worker/model_calls.py:97-109 | a queued, funded call is claimed for execution once, for the length of the lease |
| `GovernanceOutcomes.ReconcileCallOutcome` | apps/worker/runsigil_worker/model_calls.py:136-180 | exactly an execution whose lease ran out and a due reconciliation are claimed for reconciliation |
| `GovernanceOutcomes.TimeOutOutcome` | apps/control-api/runsigil_control_api/services/workflow_models.py:452-495 | a timeout ends an unclaimed call and gives everything back, sends an execution to reconciliation at once, and otherwise only marks its event |
| `GovernanceResults.LedgerIsSound` | apps/control-api/runsigil_control_api/services/budgets.py:121-159 | in every reachable state `reserved` is the sum of active estimates, `spent` the sum of committed actuals, and together they exceed the limit by at most what committed model calls went over estimate |
| `GovernanceResults.ActionBudgetsHold` | apps/control-api/runsigil_control_api/services/budgets.py:131-144 | a budget no model call reserves against never exceeds its limit |
| `GovernanceResults.GuardsNeverFire` | apps/control-api/runsigil_control_api/services/budgets.py:272-286 | in every reachable state every settlement passes the reservation guards |
| `GovernanceResults.ActionRowsAgree` | apps/worker/runsigil_worker/service.py:302-366 | in every reachable state the approval is pending exactly while the action is proposed, the dead letter open exactly while it is dead-lettered without a lease, and each reservation active exactly while it has not ended |
| `GovernanceResults.ActionsAreFunded` | apps/control-api/runsigil_control_api/services/governed_actions.py:407-421 | no action exists without a reservation of every estimated resource |
| `GovernanceResults.ReservationSettlesOnce` | apps/control-api/runsigil_control_api/services/budgets.py:314-316 | a reservation leaves the active state at most once, however many workers settle |
| `GovernanceResults.ClaimSettlesOnce` | apps/worker/runsigil_worker/service.py:302-310 | of all reports on one claim only the first has an effect, whatever happens in between |
| `GovernanceResults.ExecutesOnce` | apps/worker/runsigil_worker/service.py:129-140 | at most one execution claim; reconcile_attempts = M * redrives + cycle attempts, within the bound |
| `GovernanceResults.GrantIsOnRecord` | apps/control-api/runsigil_control_api/services/governed_actions.py:586-667 | a granted approval was granted by an earlier approve decision that showed the exact stored digest while the request was pending and unexpired |
| `GovernanceResults.ExecutionIsApproved` | apps/worker/runsigil_worker/service.py:129-140 | the claim that executes an action is its first, and comes after that grant when policy requires approval |
| `GovernanceResults.ApprovalUsedOnce` | apps/control-api/runsigil_control_api/services/governed_actions.py:586-592 | once decided, every later decision about the approval changes nothing |
| `GovernanceApprovals.ExpiredNeverGranted` | apps/control-api/runsigil_control_api/services/governed_actions.py:593-597 | after its request ran out a proposed action is never granted and never executed, no decision about it changes anything, and cancelling succeeds exactly while it is still proposed |
| `GovernanceApprovals.ExpiryHappens` | apps/control-api/runsigil_control_api/services/governed_actions.py:593-597 | a concrete history with a proposed action and an expired request |
| `GovernanceResults.RedriveDecides` | apps/control-api/runsigil_control_api/services/dead_letters.py:53-84 | in every reachable state a redrive succeeds exactly on an open letter of the stated version with redrives left |
| `GovernanceResults.RedrivenOnce` | apps/control-api/runsigil_control_api/services/dead_letters.py:59-92 | no version of a dead letter is redriven twice, whatever happens in between |
| `GovernanceResults.ModelCallOutcomes` | apps/worker/runsigil_worker/model_calls.py:252-326 | a call times out only if never claimed, every other ending sends one resume event, reconciliations are bounded, and a full charge happens only at that bound |
| `GovernanceCalls.CreatedCall` | apps/control-api/runsigil_control_api/services/workflow_models.py:309-373 | a new call has its events exactly when no check refuses the reservation; it then holds in exactly the applicable budgets, and refused it holds nowhere |
| `GovernanceCalls.CreatedAction` | apps/control-api/runsigil_control_api/services/governed_actions.py:407-421 | an action is created exactly when no check refuses, and then holds in exactly the applicable budgets |
| `GovernanceCalls.CallsAreFunded` | apps/control-api/runsigil_control_api/services/workflow_models.py:309-373 | in every reachable state a call has its events exactly when it holds a reservation of every estimated resource, and a call without events holds none |
| `GovernanceCalls.RefusedCallRemains` | apps/control-api/runsigil_control_api/services/workflow_models.py:309-330 | a concrete refused call whose row stays behind, queued and without events |
| `GovernanceCalls.UnfundedForever` | apps/worker/runsigil_worker/model_calls.py:61-150 | a call left without events stays queued, unclaimed and uncharged in every later state |
| `GovernanceCalls.ModelCallCharges` | apps/worker/runsigil_worker/model_calls.py:252-326 | every funded call has a reservation of each estimated resource, and each is active until the call ends and then released, charged the reported usage, or charged the estimate |
| `GovernanceCalls.AmbiguousAtMaximum` | apps/worker/runsigil_worker/model_calls.py:302-326 | a current ambiguous report ends the call exactly at the last allowed reconciliation, committing every reservation at its estimate; otherwise it comes back after the configured delay and nothing is charged |
| `GovernanceResults.CallClaimSettlesOnce` | apps/worker/runsigil_worker/model_calls.py:252-264 | of all reports on one claim of a model call only the first has an effect |
| `Policy.FirstMatchIsFirst` | packages/policy/runsigil_policy/engine.py:67-91 | evaluation stops at the first matching rule in list order, and finds none exactly when none matches |
| `Policy.EvaluateOutcome` | packages/policy/runsigil_policy/engine.py:37-91 | an unusable bundle fails in this order of reasons; otherwise the first rule that covers action, environment, risk and amount decides for ten minutes, or the answer is deny |
| `Policy.DecideNodeOutcome` | apps/control-api/runsigil_control_api/services/workflow_policies.py:49-211 | a node decision is refused, reused or made afresh exactly when its bundle and latest row say so |
| `Policy.LaterRulesDoNotOverride` | packages/policy/runsigil_policy/engine.py:67-91 | rules appended after a match never change the ruling |
| `Policy.DecisionLog.Decide` | apps/control-api/runsigil_control_api/services/workflow_policies.py:49-211 | the stored decision is reused or a new one appended as specified, evaluation numbers stay dense, and a failure stores nothing |
| `Policy.ReuseAgrees` | apps/control-api/runsigil_control_api/services/workflow_policies.py:114-130 | a reused decision agrees with a fresh evaluation exactly while the bundle is within `valid_until` |
| `Policy.AnswersAreCurrent` | apps/control-api/runsigil_control_api/services/workflow_policies.py:104-136 | after any queries the next answer has the effect and reason code the current policy gives, while the bundle is within `valid_until` |
| `Policy.CacheOutlivesBundle` | apps/control-api/runsigil_control_api/services/workflow_policies.py:114-130 | a concrete cached permission that is reused after its bundle expired |
| `Audit.AuditLog.Latest` | apps/control-api/runsigil_control_api/services/governed_actions.py:184-189 | the loop finds the organization's row with the highest sequence |
| `Audit.AuditLog.Write` | apps/control-api/runsigil_control_api/services/governed_actions.py:165-220 | an append adds the next row of its organization's chain and keeps every chain linked |
| `Audit.RowsHoldAppends` | apps/control-api/runsigil_control_api/services/governed_actions.py:193-219 | every row holds exactly the organization, entry and time that were appended at its place |
| `Audit.ChainsAreLinked` | apps/control-api/runsigil_control_api/services/governed_actions.py:176-220 | under every interleaving of writers each organization's sequences run from 1 without gaps and every previous-hash link is correct |
| `Audit.EqualHeadsEqualHistories` | apps/control-api/runsigil_control_api/services/governed_actions.py:192-219 | under a collision-free digest two logs with the same head hash hold the same documents at every position |
| `Audit.TamperingShows` | apps/control-api/runsigil_control_api/services/governed_actions.py:192-219 | rewriting any document of a chain without changing its head breaks a link |
| `Pagination.ListRuns` | apps/control-api/runsigil_control_api/routers/core.py:71-141 | unknown status names are refused first, then a cursor that does not decode; otherwise the page holds the first `limit` filtered rows after the cursor, and a next cursor exactly when there are more |
| `Pagination.FilteredMeans` | apps/control-api/runsigil_control_api/routers/core.py:95-115 | the rows listed are those that pass each filter that was given |
| `Pagination.ListedInOrder` | apps/control-api/runsigil_control_api/routers/core.py:130-132 | the list runs from the newest row to the oldest, by descending id among rows of one time |
| `Pagination.CursorLeavesRest` | apps/control-api/runsigil_control_api/routers/core.py:126-128 | a cursor taken from the k-th row leaves exactly the later rows in the same order |
| `Pagination.ListEverything` | apps/control-api/runsigil_control_api/routers/core.py:116-141 | following the cursors from the start ends, and the pages together are the filtered rows in (created_at, id) descending order, each once |
| `Evaluation.EvaluationRow.SettleExecution` | apps/control-api/runsigil_control_api/services/evaluations.py:389-536 | the field updates of a settlement have the specified effect, or nothing is written when the baseline is missing |
| `Evaluation.Mean` | apps/control-api/runsigil_control_api/services/evaluations.py:506-513 | the loop computes the mean score rounded down |
| `Evaluation.GradesMean` | apps/control-api/runsigil_control_api/services/evaluations.py:419-447 | what each of the five graders asks of a run |
| `Evaluation.ScoreMeans` | apps/control-api/runsigil_control_api/services/evaluations.py:449-456 | a run scores 200 for each grader it passes |
| `Evaluation.FirstResultStands` | apps/control-api/runsigil_control_api/services/evaluations.py:399-408 | settling a scenario again changes nothing |
| `Evaluation.FailedRunScore` | apps/control-api/runsigil_control_api/services/evaluations.py:419-456 | a failed run scores 200 if its required policy nodes were allowed and 0 otherwise |
| `Evaluation.OrderDoesNotMatter` | apps/control-api/runsigil_control_api/services/evaluations.py:399-536 | results, score, delta, regression and gate are the same for every order in which runs settle |
| `Evaluation.CompletesWithLast` | apps/control-api/runsigil_control_api/services/evaluations.py:501-536 | an evaluation completes exactly when its last scenario settles, and scores 1000 exactly when all five graders passed on every scenario |
| `Evaluation.GateMeans` | apps/control-api/runsigil_control_api/services/evaluations.py:513-535 | the gate passes exactly when the mean reaches the minimum and falls short of the baseline by at most the allowed regression |
| `Evaluation.NeverWithoutBaseline` | apps/control-api/runsigil_control_api/services/evaluations.py:514-521 | without its baseline's score an evaluation never completes |

## Left out

- Agent and tool nodes inside the engine's transition system: model calls are modelled with the ledger instead, and workflow tool calls would repeat the wait protocol.
- The run row of a workflow execution, its traces, evidence bundles and summaries: they copy fields of the execution.
- Validator.Validate: issue texts are not modelled, and whether the UUID library accepts a reference is a property of the node.
- Simulation profiles, replay rows and evaluation rows as part of the engine's transactions: `EngineResults.ReplayVerdict` and `Evaluation` model their settlement on its own.
- Liveness of reconciling actions and calls after a worker crash: the code does not re-claim them.
- What a failed outcome says about the provider: a gateway refusal settles as failed, so nothing is claimed.
- EngineCompleteness.EngineCompletesRuns: says that a serving worker can complete the run, not that some worker will.
- Pagination.ListEverything: the table does not change between pages; how a cursor is written as text is library code.
- Actions.DecideKeeps: argument encryption is the identity, and a digest is compared as the value it digests.
- Idempotency keys and policy checks before a governed action is created: they decide whether the creating transaction happens.
- Expiry times of budget reservations: no service reads them.
- EngineStore.ExecutionRows.Advance: the agent and tool branches are left out, as said above; the definition digest check and malformed wake payloads are not modelled, since stored definitions and payloads are immutable.
- Encryption, signatures, hashing, JSON rendering, row-level security, migrations, HTTP, the gateway, SDK, adapters and user interface.
