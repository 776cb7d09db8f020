# Service delivery, flow inputs and the codec of Sudory, proved

Sudory runs jobs on remote clusters. A manager keeps services and an append-only log of their
statuses. An agent in each cluster polls for services, runs each in an executor of its own and reports
every step back. Data the manager must not store in the clear goes through a configurable cipher
pipeline. This project models the parts of that system whose correctness does not show in any single
function.

**Delivery** (`ServiceModel`, `Scheduling`, `Executors`, `FlowExecutor`, `PollVault`, `StepVault`,
`Delivery*`). The real objects are modelled as classes and methods: the scheduler with its status map, the
executors with their channel, the poll query and its counting filter. `Delivery` puts their specifications
into one transition system: one agent, polls cut into the manager's separate reads and writes, and for
each message of each executor the ways it can go (in the agent's channels, handled by the manager, lost,
applied locally, recorded late or again). A run is any interleaving. Nothing is assumed about the order in
which messages are handled, or that they are handled at all, once, or before the agent gives up on them. The
main results:

- *At most once.* The code does not promise it outright, so the theorem says exactly what can go wrong:
  in every run a second executor for a v4 service comes with one of three conditions on its history
  (`DeliveryOnce.Excused`). `DeliveryWitness` reaches each of the three on its own, and `DeliveryCauses` traces
  those that are marks on the history back to the step that made them. The least obvious one: the agent gives up
  on a report after ten seconds and marks it all the same, while the manager may save it later still.
  `OrderlyRunsExecuteOnce` gives assumptions on the single steps that rule all three out: each message is
  recorded once, before the agent marks it, in the order sent and with a later time than the records before it,
  a poll that the agent gave up on records nothing, and no cleanup drops an entry that an unregistered answer
  names. The other way round, `DeliveryAgain` says exactly when the next request may start a service again.
- *Concurrency bound* and the match of entries with running executors, in every interleaving.
- *No lost service.* A poll returns everything that is waiting, with two exceptions: services cut off by the
  cap of a poll, and services older than the v3 services that the second half of a request finds, such as
  one created between the two halves. The second one is not obvious from the code and has a witness. Both end
  when the offset is next reset, that is, with a request that finds no v4 service. `PollWindow` says in numbers
  which services those are: younger than the limit in minutes, counted from the current second.
- *Delivery order does not matter* to the local status, and manager and agent agree on the verdict.

**Flow inputs** (`FlowJson`, `FlowHeap`, `FlowRewrite`, `FlowRefs`, `FlowPasses`, `FlowSteps`, `FlowConvert`).
Steps refer to the service's inputs and to earlier steps. The rewriting passes work in place on objects in
memory, and as in the source a reference gives way to the very object it leads to, so that steps, store and
service come to share objects. The passes are proved to compute a pure substitution all the same, in whatever
order a map is walked, because they write no object that holds no references, and the objects that do are one
step's own. That holds for services whose inputs hold no references themselves, and `OtherHolderUntouchedIff`
says why the condition is needed. The reference syntax has exact conditions: a step id with a dot is
unreachable, a path such as `[0]` right behind `outputs` names no step, and the two passes are one substitution
exactly if the first one fails or the service's inputs bring in no text that begins with a dollar.

**Codec** (`Padding`, `BlockModes`, `TextCodec`, `Enigma`, with `Division` for arithmetic). Padding is
section 6.3 of RFC 5652, ECB and CBC are sections 6.1 and 6.2 of NIST SP 800-38A, GCM is section 7 of NIST
SP 800-38D, the text forms are sections 4 and 8 of RFC 4648. The round trip that `cmd/manager/main.go:328-345`
tries on one sentence at start-up is proved for all inputs and settings. The block cipher and GCM are
parameters with one law each; a run-time panic is an error, because the machine recovers. A result a reader
would not expect: the error of the text decoder is overwritten, so base64 and hex with a broken tail decode,
and only the converter that refuses nothing has all that it refuses refused.

**Two loops** (`LogTemplate`, `ChannelRotation`). The template parser and its printer undo each other for
exactly those delimiters that cannot overlap themselves; a template without tags parses and then makes the
logger fail on every request. The rotation of channel rows keeps its bound for a maximum of two or more and
catches up with a backlog for three or more; with two a backlog stays for ever, with one the channel grows
without bound, and with zero nothing can be stored, although the code sets out to keep at most the maximum.

`Sorting` stands for the library sort: callers may only use that the result is some sorted permutation.

## Assumptions

The transition system holds for one agent that is not restarted and polls serially; for service ids that are
distinct and given together with their creation time; for a manager whose handler reads, saves and answers
in that order, one request at a time; and for services that convert. A request that the agent has given up on
may still save its `Sent` records, and also its offset; only the results on polling suppose that it saves no
offset, because its database context ends with it (`DeliveryOffset.NoStrayOffset`). Creation times never lie
before the manager's clock. The records a request saves, and the reports on a v4 service, are dated after the
services they are about. The v3 half of a request returns an arbitrary set of v3 services of its window.

## Model

| member | source | states |
|---|---|---|
| DeliveryAtMostOnce.AtMostOnce | pkg/agent/scheduler/scheduler.go:42-88 | over every run of the manager and one agent, saves of requests and reports that the agent has given up on included, two executors for one v4 service mean that an unfinished record overtook its finished one, or a cleanup dropped its entry while an answer naming it was pending, or the agent marked its last message before the manager had recorded it (lost or late) |
| DeliveryCauses.ForgottenBy | pkg/agent/scheduler/scheduler.go:156-175 | over every run, a service is among the forgotten only if a cleanup dropped its finished entry while a request had picked it for the agent |
| DeliveryCauses.MarkedFirstBy | pkg/agent/fetcher/fetcher.go:174-190 | over every run, it counts as marked first only if the agent marked its failure or the success of its last step at a time at which the manager had not recorded that message |
| DeliveryCauses.CappedBy | pkg/manager/control/agent.go:310-345 | over every run, it counts as capped only if a full poll left it out for services no worse than it, and no v3 half has come since |
| DeliveryCauses.OvertakenBy | pkg/manager/control/agent.go:443-453 | over every run, it counts as overtaken only if the v3 half of a request found nothing but newer services while it was new or skipped already |
| DeliveryReports.RecordOfMessage | pkg/manager/control/agent.go:787-842 | what the manager records for a message, late or not: the service's number of steps, the step counted from one, and the step's status |
| DeliveryAgain.RunsAgainIff | pkg/agent/scheduler/scheduler.go:42-71 | the converse for one request: in every run, between requests, the next one can give a v4 service that ran a second executor iff it has no entry, looks unfinished in the window, is hidden by neither offset nor cap and a slot is free; and then it is one of the exceptions |
| DeliveryAgain.NextRequestStartsIff | pkg/manager/control/agent.go:310-380 | between requests, whatever the database hands out, an uninterrupted request can start a service iff that condition holds |
| DeliveryOrderly.OrderlyRunsExecuteOnce | pkg/agent/fetcher/fetcher.go:170-191 | if each message is recorded once, before the agent marks it, in the order sent and under a clock that moves on, a poll the agent gave up on records nothing, and no cleanup drops an entry an unregistered answer names, no v4 service is ever given a second executor |
| DeliveryAtMostOnce.ManagerAgrees | pkg/manager/control/agent.go:787-842 | over every run, outside the three exceptions, the manager's latest record of a service the agent calls finished is finished with the same verdict |
| DeliveryAtMostOnce.InvStep | pkg/agent/fetcher/fetcher.go:103-191 | one invariant (tables, pending answers, executors, reports, slots) is kept by every step of every participant, the late saves of a request and of a report included |
| DeliveryAtMostOnce.OnceStep | pkg/agent/scheduler/scheduler.go:43-71 | every step keeps that a v4 service outside the exceptions has at most one executor, and that one that ran is either still in the map or finished for the manager and in no pending answer |
| DeliveryAtMostOnce.LatestStaysFinished | pkg/manager/control/vault/servicev4.go:72-89 | once a finished record exists, the reduction to the latest record shows a finished one unless an unfinished record is dated no earlier |
| DeliveryReports.ReportsStep | pkg/manager/control/agent.go:746-842 | every step, late and repeated records included, keeps that each finished record was caused by the last message of an executor that reached the manager, and that each message that reached it has its record |
| DeliveryOnce.ShapeStep | pkg/manager/control/agent.go:310-380 | every step keeps that rows are unique, records are dated after their service, and pending answers and executors stem from rows |
| DeliveryRequest.SavedSelection | pkg/manager/control/agent.go:329-380 | a v4 half that found services answers with each of them, moves the offset to the oldest of them and records as sent exactly those that were `Regist` |
| DeliveryRequest.SavedNothing | pkg/manager/control/agent.go:329-345 | one that found nothing resets the offset, records nothing and goes on to the v3 half |
| DeliveryRequest.SavedV3 | pkg/manager/control/agent.go:443-470 | the v3 half answers with what it found and moves the offset to the oldest of it, or resets it |
| DeliveryRequest.Registered | pkg/agent/scheduler/scheduler.go:73-88 | a registration brings in one executor with one entry for each service it starts, all its messages still to come |
| DeliveryOrderly.OrderlyStep | pkg/agent/fetcher/fetcher.go:174-190 | every orderly step keeps that no finished record is overtaken, every message the agent has marked is recorded, and every running v4 service is known to the log |
| DeliveryOrderly.ConcludedAllHandled | pkg/agent/executor/executor_v2.go:40-73 | once the manager has a finished record, no message of that service's executor is still on its way, because the finished one is the last |
| DeliveryWitness.ReorderedReportsRunTwice | pkg/agent/fetcher/fetcher.go:174-190 | a reachable state in which a service has two executors and the only thing wrong is that its two messages were handled in the opposite order |
| DeliveryWitness.LostReportRunsTwice | pkg/agent/fetcher/fetcher.go:180-189 | a reachable state in which a service has two executors and the only thing wrong is that its last message was lost: the local map is updated all the same |
| DeliveryWitness.LateReportRunsTwice | pkg/manager/control/agent.go:787-842 | a reachable state in which a service has two executors although all its messages reached the manager, once each and in order: the last record, saved under a context of its own, came after the agent had timed out and marked the message |
| DeliveryWitness.CleanupUnderPendingBatchRunsTwice | pkg/agent/scheduler/scheduler.go:156-175 | a reachable state in which a service has two executors and the only thing wrong is a cleanup between the answer and its registration |
| DeliverySlots.ConcurrencyBound | pkg/agent/scheduler/scheduler.go:62-88 | in every interleaving the map has at most the process limit of entries, its unfinished entries are exactly the services of the executors still running, so at most that many run, and never two for one service |
| DeliverySlots.SlotsStep | pkg/agent/scheduler/scheduler.go:131-174 | every step keeps the bound, the one-to-one match of running executors and unfinished entries, and that a finished entry carries its executor's verdict |
| DeliverySlots.SlotsApplyLast | pkg/agent/scheduler/scheduler.go:142-149 | applying an executor's last message ends its entry with its verdict |
| DeliveryOffset.PollSelectsIff | pkg/manager/control/agent.go:310-345 | over every run, a poll selects an unfinished v4 service of its window that existed when the request began iff the offset does not hide it and the poll's own cap does not cut it off |
| DeliveryOffset.PollWindow | pkg/manager/control/agent.go:310-345 | over every run, in numbers: a request that reads its services at `now` hands out an unfinished service iff the saved offset is no later than it and it is younger than the limit in minutes counted from the second `now` is in, except that a poll of 128 services, or of the limit and one more, may leave it out |
| DeliveryOffset.PollWindowInMinutes | pkg/manager/control/agent.go:315-326 | so a service is handed out for that many minutes, and no longer than a second more |
| DeliveryOffset.PollMissesNothing | pkg/manager/control/agent.go:310-345 | over every run, a poll selects each such service, unless since the last reset of the offset some poll's cap cut it off, or the v3 half of a request found only newer services and the service was created during that request or skipped already |
| DeliveryOffset.ResetEndsExceptions | pkg/manager/control/agent.go:443-453 | a request that finds no v4 service ends these exceptions, except for services older than all the v3 services that it goes on to find |
| DeliveryOffset.PollAfterResetMissesNothing | pkg/manager/control/agent.go:316-330 | the first poll after such a reset selects each waiting service, skipped before or not, unless its own cap cuts it off |
| DeliveryOffset.V3UsesWholeWindow | pkg/manager/control/agent.go:443-453 | the v3 half only runs after an empty v4 half, which resets the offset, so its offset condition excludes nothing in the window |
| DeliveryOffset.OffsetStep | pkg/manager/control/agent.go:108-160 | every step keeps that the saved offset and every offset in use are at or before each waiting service |
| DeliveryWitness.OvertakenServiceIsMissed | pkg/manager/control/agent.go:443-453 | the second exception is real: a reachable state whose next poll misses a waiting service although no cap was ever reached |
| Scheduling.Scheduler.RegisterServices | pkg/agent/scheduler/scheduler.go:42-108 | for any sort the library uses: services the map knows (finished entries included) are dropped first, finished entries deleted next, then exactly min(free slots, new services) start, best first; on the fields: priorities do not rise along the started ones, creation times do not fall within a priority, no service left out has a higher priority than one started or is older at the same one, and their number is min(limit less unfinished entries, new services) |
| Scheduling.Scheduler.StartFirst | pkg/agent/scheduler/scheduler.go:73-88 | the loop starts exactly the first min(free slots, candidates) services and reserves their entries |
| Scheduling.Scheduler.CollectUnknown | pkg/agent/scheduler/scheduler.go:46-51 | the candidates are the services the map has no entry for, each once |
| Scheduling.Scheduler.DeleteFinished | pkg/agent/scheduler/scheduler.go:62-71 | exactly the finished entries go |
| Scheduling.Scheduler.UpdateServiceStatus | pkg/agent/scheduler/scheduler.go:131-150 | a failure makes the entry failed for good, the success of the last step makes it a success unless it is failed, anything else leaves an unfinished entry processing; other entries and absent services are untouched |
| Scheduling.Scheduler.CleanupRemainingServices | pkg/agent/scheduler/scheduler.go:156-175 | drops finished entries and returns the others; nothing at all for an empty map |
| Scheduling.Admission | pkg/agent/scheduler/scheduler.go:52-88 | starting the first n of any sorted permutation of the candidates is a best-first admission |
| Scheduling.RegistersKeepsBound | pkg/agent/scheduler/scheduler.go:73-88 | a registration never takes a map within its limit beyond it: afterwards it holds the kept entries and one for each service started |
| Scheduling.PrecedesIsStrictWeakOrder | pkg/agent/scheduler/scheduler.go:52-60 | the comparator is a strict weak order |
| Scheduling.DeliveryOrderIndependent | pkg/agent/scheduler/scheduler.go:131-150 | in whatever order one executor's messages arrive, its entry ends at its verdict |
| Scheduling.DeliveryOrderIndependentInMap | pkg/agent/scheduler/scheduler.go:142-149 | the same through the whole map: every other entry keeps its status |
| Scheduling.DeliveredIsHighest | pkg/agent/scheduler/scheduler.go:143-148 | the entry is always the highest of its start and everything delivered |
| Scheduling.NeverDecreases | pkg/agent/scheduler/scheduler.go:143-148 | no later delivery lowers the status |
| Executors.ServiceExecutor.Execute | pkg/agent/executor/executor.go:21-73 | sends exactly the messages of the specification, stops at the first failing step, and leaves the result (the last body, or the error of the first step that fails), the status and the step statuses that go with it |
| Executors.V1TraceIsLegal | pkg/agent/executor/executor.go:41-73 | for every outcome of the steps: at most two messages a step, sequence numbers in range and never going back, exactly the last message terminal, its verdict success iff no step failed |
| Executors.V1Messages | pkg/agent/executor/executor.go:41-73 | on the fields: each message has the service's id and step count, step numbers never go back, only the last message can be a failure or the success of the last step, and it is one of them |
| Executors.FinalResultOkIffNothingFails | pkg/agent/executor/executor.go:49-72 | the run returns no error iff no step failed |
| FlowExecutor.ServiceExecutorV2.Execute | pkg/agent/executor/executor_v2.go:19-73 | over a memory in which steps, store and service may share all objects that hold no references, the run rewrites the steps' inputs in place, fails at the first step whose inputs do not resolve or whose command fails, sends exactly the two messages of the specification, and hands each command the arguments the store so far gives it |
| FlowExecutor.ServiceExecutorV2.RunSteps | pkg/agent/executor/executor_v2.go:43-67 | the loop ends with the last body, or at the one step that fails; the steps before hold their resolved arguments |
| FlowExecutor.RanMeans | pkg/agent/executor/executor_v2.go:43-67 | in full: each step before the failure was given its arguments by the store it found, holds them and yielded a body; the step that failed had inputs that do not resolve or a command that failed; without a failure the last body is the result |
| FlowExecutor.ServiceExecutorV2.RunStep | pkg/agent/executor/executor_v2.go:43-67 | one turn computes the specified arguments and store or fails as specified; the values of all other steps stay what they were, whatever they share with this one |
| FlowExecutor.ServiceExecutorV2.PassInputs | pkg/agent/executor/executor_v2.go:46-53 | the pass over one step gives its inputs their substitution from the store and leaves the inputs of every other step alone, also where steps hold the same object |
| FlowExecutor.OtherStepStays | pkg/agent/executor/executor_v2.go:46-53 | no object that another step hangs on is written, and a later step may still be passed over |
| FlowExecutor.SharedInputsAreReady | pkg/agent/service/flow.go:119-123 | an object of the service's inputs without references may be the inputs of any number of steps |
| FlowExecutor.StoreFinds | pkg/agent/service/flow.go:164-218 | what a reference leads to in a stored object is an object in memory, older than all the pass writes, with the value of the reference |
| FlowConvert.ConvertService | pkg/agent/service/util.go:48-78 | each step of a service ends with the inputs of the first pass or is reported, and the other steps go on; if none is reported and the service's inputs hold no references, the executor may begin, whatever steps share |
| FlowConvert.ConvertStep | pkg/agent/service/util.go:66-73 | filling the service's inputs into one step writes nothing but the step's own objects |
| FlowConvert.PassedOverIsReady | pkg/agent/service/flow.go:97-135 | after the first pass a step may hang on the service's own objects in many places, and only objects of its own hold references |
| FlowExecutor.V2TraceIsLegal | pkg/agent/executor/executor_v2.go:40-70 | for every outcome the two messages are in the same grammar, the manager reads them as the agent does, and the verdict is success iff nothing failed |
| FlowExecutor.FailsAtOneStep | pkg/agent/executor/executor_v2.go:43-67 | a run gets to its end or fails at exactly one step |
| FlowExecutor.StoreHoldsWhatStepsLeft | pkg/agent/executor/executor_v2.go:51-66 | with distinct ids the store a step finds holds exactly what the earlier steps left, each key written once |
| FlowExecutor.ReferenceMeansEarlierStep | pkg/agent/service/flow.go:143-218 | `$id.inputs…` and `$id.outputs…` at step i mean what the step left if it comes earlier, and fail for the step itself and for later ones |
| FlowExecutor.OutputReference | pkg/agent/service/flow.go:169-218 | what `$id.outputs` and a path mean: nothing for blank output, the text without leading blanks for plain output, and for output that begins like an object or array the path looked up in what it decodes to |
| FlowExecutor.InputsOfEarlierStep | pkg/agent/service/flow.go:164-218 | what `$id.inputs` and a path mean: the path looked up in the arguments that step was given |
| FlowExecutor.OnlyEarlierStepsResolve | pkg/agent/service/flow.go:164-167 | whatever any reference at step i resolves to was left by an earlier step |
| PollVault.GetServicesPollingV4 | pkg/manager/control/vault/servicev4.go:20-105 | refuses an unconditional query; else exactly the services of the cluster from the offset on, priorities falling and creation times rising within a priority: a best-first permutation of the matching services, each with the latest of the matching records or the default |
| PollVault.PolledAreThoseOf | pkg/manager/control/vault/servicev4.go:20-105 | on the tables: each service of the cluster from the offset on is there once read, with a record no other of its cluster is newer than, or with the default `Regist` dated at its creation |
| PollVault.FilteredLogEqualsFullLog | pkg/manager/control/vault/servicev4.go:26-38 | the offset condition on the status table changes no service's latest record, as no record is older than its service |
| PollVault.PollingSeesFullLog | pkg/manager/control/vault/servicev4.go:38-89 | so the two-table query shows each selected service with the latest record of its whole log |
| PollVault.LatestIsNewest | pkg/manager/control/vault/servicev4.go:83-86 | the scan ends at a record of the service that no other is newer than, or at the default |
| PollVault.PollingMembers | pkg/manager/control/vault/servicev4.go:62-89 | a service is listed iff it matches, with the status its log gives it |
| PollVault.PollingFilter.Accept | pkg/manager/control/agent.go:1470-1491 | the closure accepts an unfinished service of the window while its counter is positive, and counts down only then |
| PollVault.FilterPolling | pkg/manager/control/agent.go:1553-1579 | both lists are, index for index, those of the first min(limit + 1, eligible) eligible services (128 when no limit is set): none is finished, each is younger than the window's start if there is a limit in minutes, and all such are there if the poll is not full |
| PollVault.SelectionMembers | pkg/manager/control/agent.go:1470-1491 | nothing ineligible is handed out, and an eligible service is left out only when the poll is full |
| PollVault.SelectionIsBestFirst | pkg/manager/control/agent.go:1566-1576 | no eligible service left out strictly precedes one handed out |
| PollVault.OldestIsLeast | pkg/manager/control/agent.go:332-345 | the saved offset is the least creation time handed out |
| PollVault.PollingOffset | pkg/manager/control/agent.go:332-345 | the running minimum that takes the zero time for "not set" is that least time |
| StepVault.ReduceIsNewest | pkg/manager/control/vault/servicev3.go:84-104 | per key the scan keeps the first of the newest records, and a record for exactly the keys that occur |
| StepVault.ReduceLog | pkg/manager/control/vault/servicev3.go:189-209 | the insert-then-overwrite scan computes that reduction |
| StepVault.ListedAreNewest | pkg/manager/control/vault/servicev3.go:110-113 | listing the map in any order gives each key once, by that record |
| StepVault.GetServiceSteps | pkg/manager/control/vault/servicev3.go:175-225 | on the table: every row of the service (and cluster) has its sequence number in the answer by a record no older, and nothing else is there; one record for each step of the service, the first of its newest, in strictly increasing order |
| StepVault.GetServiceStep | pkg/manager/control/vault/servicev3.go:126-173 | a row of that service, cluster and sequence number that no other is newer than, and an error exactly if the table has none; the same record as in the list of all steps, and an error exactly if there is none |
| StepVault.OneStepAmongAll | pkg/manager/control/vault/servicev3.go:136-162 | restricting the query to one sequence number changes nothing about that step |
| StepVault.GetServicesPolling | pkg/manager/control/vault/servicev3.go:62-124 | refuses an unconditional query; else on the table each v3 service of the cluster from the offset on, by a record no other matching one is newer than, priorities falling and creation times rising within a priority: each matching v3 service once, by the first of its newest records, best first |
| FlowRewrite.Rewrite | pkg/agent/service/flow.go:72-94 | in any iteration order the in-place pass leaves the value of the pure substitution, and fails iff that has none; where a reference leads to an object, that very object is put in; only objects that hold references are written; a failed pass leaves some references replaced and nothing else touched |
| FlowRewrite.Visit | pkg/agent/service/flow.go:73-81 | one slot gets its substitution; the slots still to do and all they hang on are untouched, those done keep their values |
| FlowRewrite.OnlyReferencesGive | pkg/agent/service/flow.go:72-91 | a slot that a pass has changed held a reference, and holds the very object the reference leads to if it leads to one |
| FlowRewrite.CleanStays | pkg/agent/service/flow.go:72-94 | no pass, wherever it comes from, writes to an object without references or to anything it hangs on |
| FlowRewrite.CleanIsSound | pkg/agent/service/flow.go:72-94 | an object without references may be shared in any way |
| FlowRewrite.ApartIsSound | pkg/agent/service/flow.go:72-94 | a pass may begin where slots share only objects without references and all others are above what it hands out |
| FlowHeap.WalkFinds | pkg/agent/service/flow.go:49-68 | the object at the end of a path of keys is in memory and stands for the part of the value at that path |
| FlowHeap.Frame | pkg/agent/service/flow.go:72-94 | a value depends only on the objects it hangs on |
| FlowHeap.ToJson | pkg/agent/service/flow.go:137-139 | reading an object off the memory gives the value it stands for |
| FlowJson.SubstFailsIffDangling | pkg/agent/service/flow.go:220-239 | a pass fails iff some string at any depth is a reference to nothing |
| FlowJson.SubstLeavesRest | pkg/agent/service/flow.go:94-94 | a tree without references is left as it is |
| FlowJson.SubstOfAssembled | pkg/agent/service/flow.go:72-91 | a pass over an object or array is a pass over each of its slots |
| FlowHeap.Build | pkg/agent/service/flow.go:261-265 | a decoded value becomes objects of its own, nothing of them shared |
| FlowSteps.FlowStepInput.FindReplaceDeferredInputsFrom | pkg/agent/service/flow.go:97-135 | inputs given as one reference become the very object it leads to, and nothing is written, or the step is refused; other inputs become their substitution in place, or the step is refused; a refusal leaves some references replaced and nothing else touched |
| FlowSteps.FlowStepInput.FindReplacePassedInputsFrom | pkg/agent/service/flow.go:245-251 | the inputs become their substitution from the store in place, the stored objects themselves put in, or the step fails with some references replaced and nothing else touched |
| FlowPasses.OtherHolderUntouchedIff | pkg/agent/service/flow.go:119-123 | two steps that hold one object: whatever the store, the pass over the first leaves the second what it had iff the object holds no references |
| FlowSteps.FlowStepInput.Decode | pkg/agent/service/flow.go:289-302 | fresh inputs, in objects of their own, stand for what was declared |
| FlowSteps.UnmarshalFlow | pkg/agent/service/flow.go:309-332 | a flow is accepted iff every step decodes and ids are distinct, and an error names the step at fault |
| FlowSteps.StepIsDecoded | pkg/agent/service/flow.go:267-302 | a step is accepted iff it is an object with texts for `$id` and `$command` and inputs that are absent, an object, or `$inputs` alone or before a dot; it then holds just these |
| FlowRefs.FirstHit | pkg/agent/service/flow.go:49-68 | the loop over a query's results returns the specified hit |
| FlowRefs.HitIsFirstNonNull | pkg/agent/service/flow.go:49-68 | the hit is the result that only nulls precede; an error before it ends the search |
| FlowRefs.QueryIs | pkg/agent/service/flow.go:39-68 | a query stands for the first result of the library that is not null, with nothing but nulls before it |
| FlowRefs.InputsReference | pkg/agent/service/flow.go:16-37 | exactly `$inputs`, alone or before a dot, is a reference to the service's inputs, and the rest of it is the path |
| FlowRefs.SplitRefParts | pkg/agent/service/flow.go:145-162 | splitting at the second dot loses nothing: the path is empty or starts at that dot |
| FlowRefs.SplitRefUnique | pkg/agent/service/flow.go:145-162 | a key with one dot and a path behind it split back into themselves |
| FlowRefs.SplitUndoesStoreKey | pkg/agent/service/flow.go:145-162 | for a step id and a path, the split gives back key and path iff the id has no dot and the path is empty or starts with one |
| FlowRefs.DottedStepIsUnreachable | pkg/agent/service/flow.go:157-164 | a step with a dot in its id is reached by no reference at all |
| FlowRefs.StoreKeysDistinct | pkg/agent/executor/executor_v2.go:52-66 | two store keys are equal iff id and side are |
| FlowRefs.StepReferenceIsLeftForLater | pkg/agent/service/flow.go:16-32 | the first pass takes no reference to a step, except to one called `inputs` |
| FlowPasses.TwoPassesAsOne | pkg/agent/service/flow.go:137-251 | if the service's inputs bring in no references of their own, the two passes are one simultaneous substitution |
| FlowPasses.PassesAgreeIff | pkg/agent/service/flow.go:39-95 | for every tree, whatever it refers to: the passes and the simultaneous substitution agree for every store iff the first pass fails or no value brought in holds a reference |
| FlowPasses.OneReferenceAgreesIff | pkg/agent/service/flow.go:41-71 | the same at a single reference |
| FlowPasses.EmptyStoreDangles | pkg/agent/service/flow.go:164-167 | with nothing in the store every reference to a step fails |
| FlowPasses.InputsAreReadAgain | pkg/agent/service/flow.go:144-167 | a concrete failure: `$inputs.price` standing for a text that begins with a dollar sinks the step |
| FlowRefs.TrimLeft | pkg/agent/service/flow.go:172-172 | drops exactly the leading blanks |
| Enigma.RoundTrip | pkg/manager/macro/enigma/enigma_machine.go:34-149 | for every plaintext and every block cipher, mode, padding, converter and salt setting on which encoding succeeds, decoding gives the plaintext, whatever random bytes either side draws |
| Enigma.EncodeSucceedsIff | pkg/manager/macro/enigma/enigma_machine.go:53-88 | encoding succeeds iff there is a salt and, in CBC without padding, the data is whole blocks |
| Enigma.DecryptInverts | pkg/manager/macro/enigma/cipher_mode.go:35-116 | each mode undoes itself on whatever it accepts, the second padding of NONE included |
| Enigma.FreshSaltIndependence | pkg/manager/macro/enigma/enigma_machine.go:115-128 | without a configured salt the bytes the receiver draws never matter, on any text |
| Enigma.BrokenTailIsAccepted | pkg/manager/macro/enigma/enigma_machine.go:117-121 | whatever follows the text, if it alone decodes to nothing and is refused, the whole is refused by the text decoder and still decodes to the plaintext, in base64 and in hex |
| Enigma.BrokenTextRefusedIff | pkg/manager/macro/enigma/enigma_machine.go:117-121 | text that the converter refuses is always refused iff the converter is the plain one, which refuses nothing |
| Enigma.SaltSplitUndoesJoin | pkg/manager/macro/enigma/salt.go:86-122 | splitting undoes joining, travelling salt or configured one |
| Enigma.SafeSalt | pkg/manager/macro/enigma/salt.go:78-84 | a configured salt always has the length the mode asks for |
| Enigma.ScopeSalt.GenSalt | pkg/manager/macro/enigma/salt.go:18-24 | one call uses one salt, however often it asks |
| Enigma.Machine.constructor | pkg/manager/macro/enigma/cipher_mode.go:23-107 | the mode sets the salt's length, and the machine is ready to encode |
| Enigma.Machine.NewMachine | pkg/manager/macro/enigma/enigma_machine.go:169-275 | a machine is built iff GCM is not asked of blocks other than 16 bytes; a configured salt is kept |
| Enigma.Machine.Encoder | pkg/manager/macro/enigma/cipher_mode.go:42-113 | the encoder closure computes the mode's encryption, out-of-bounds and length errors included |
| Enigma.Machine.Decoder | pkg/manager/macro/enigma/cipher_mode.go:50-117 | the decoder closure computes the mode's decryption, errors included |
| Enigma.Machine.EncodeDetail | pkg/manager/macro/enigma/enigma_machine.go:34-89 | stage by stage, the specified encoding; on the bytes: the data with the pad bytes of RFC 5652, encrypted as the mode says under the drawn or the configured salt, the salt in front if it was drawn, as text |
| Enigma.EncodedInStages | pkg/manager/macro/enigma/enigma_machine.go:34-89 | every encoded text has come about in these stages: padded data, ciphertext that the mode's inverse takes back to it, salt in front or not |
| Enigma.SafeSaltKeepsFront | pkg/manager/macro/enigma/salt.go:78-84 | a configured salt is used by its front, or whole in front of zeros |
| Enigma.Machine.DecodeDetail | pkg/manager/macro/enigma/enigma_machine.go:95-149 | stage by stage, the specified decoding; only hex overwrites the caller's buffer |
| BlockModes.EcbInverts | pkg/manager/macro/enigma/cipher_mode.go:53-75 | for any number of blocks, block-wise decryption undoes block-wise encryption |
| BlockModes.CbcInverts | pkg/manager/macro/enigma/cipher_mode.go:86-95 | for any number of blocks the CBC chain unwinds |
| BlockModes.CbcLength | pkg/manager/macro/enigma/cipher_mode.go:86-90 | CBC keeps the length |
| BlockModes.EcbLength | pkg/manager/macro/enigma/cipher_mode.go:64-67 | the block loop fills the whole output |
| BlockModes.XorTwice | pkg/manager/macro/enigma/cipher_mode.go:86-95 | exclusive or with the same block twice is nothing |
| BlockModes.XorByteIs | pkg/manager/macro/enigma/cipher_mode.go:86-95 | the exclusive or of two bytes is the one byte whose bits are set where theirs differ |
| BlockModes.CryptBlocks | pkg/manager/macro/enigma/cipher_mode.go:64-67 | the loop computes the block-wise cipher on whole blocks and is out of bounds on anything else |
| Padding.PaddedLength | pkg/manager/macro/enigma/padding.go:47-51 | padding makes a positive number of whole blocks, adding one to a block of bytes |
| Padding.UnpadPad | pkg/manager/macro/enigma/padding.go:47-57 | for block sizes 1 to 255 unpadding undoes padding |
| Padding.PadsAsSpecified | pkg/manager/macro/enigma/padding.go:47-51 | for block sizes 1 to 255 the padder gives the one byte string that begins with the data, ends with the next whole block and has the number of added bytes in each of them |
| Padding.PaddingInverts | pkg/manager/macro/enigma/padding.go:47-57 | it does so for every input iff the block size is at most 255 |
| Padding.SchemeInverts | pkg/manager/macro/enigma/padding.go:15-45 | either padder is undone by its unpadder |
| TextCodec.TextInverts | pkg/manager/macro/enigma/strconv.go:21-77 | every converter gives back every byte string, without error |
| TextCodec.Base64Inverts | pkg/manager/macro/enigma/strconv.go:28-59 | base64, one- and two-byte tails and the trim included, gives back every byte string |
| TextCodec.EncodingThenText | pkg/manager/macro/enigma/strconv.go:56-59 | decoding a base64 encoding with any text behind it gives all the bytes and then what the text gives, unless the encoding ends in padding: then it gives the bytes, and an error iff anything follows |
| TextCodec.HexThenText | pkg/manager/macro/enigma/strconv.go:62-69 | decoding a hex encoding with any text behind it gives the bytes and goes on with the text |
| TextCodec.EncodingThenJunk | pkg/manager/macro/enigma/strconv.go:49-69 | in each converter, text that alone decodes to nothing and is refused leaves nothing behind an encoding but the error |
| TextCodec.EncodedLength | pkg/manager/macro/enigma/strconv.go:29-31 | an encoding exactly fills the buffer made for it |
| TextCodec.EncodedGroup | pkg/manager/macro/enigma/strconv.go:28-31 | each three bytes become four letters of the alphabet of RFC 4648, six bits each, with zero bits and padding for what the data does not reach |
| TextCodec.GroupDecodes | pkg/manager/macro/enigma/strconv.go:56-59 | four letters decode to their 24 bits whether or not an encoder writes them; behind padding nothing may follow and spare bits are ignored |
| TextCodec.LineBreakIsSkipped | pkg/manager/macro/enigma/strconv.go:56-59 | a newline or carriage return anywhere changes nothing |
| TextCodec.OthersAreRefused | pkg/manager/macro/enigma/strconv.go:56-59 | any other character ends the decoding with an error |
| TextCodec.EncodedByte | pkg/manager/macro/enigma/strconv.go:34-38 | each byte becomes two lower-case hex digits |
| TextCodec.HexDigitsRead | pkg/manager/macro/enigma/strconv.go:62-69 | both cases of hex digits are read, and nothing else |
| TextCodec.DecodedFitsBuffer | pkg/manager/macro/enigma/strconv.go:57-58 | what is decoded fits the buffer made for it, on any text |
| TextCodec.HexInverts | pkg/manager/macro/enigma/strconv.go:34-38 | hex gives back every byte string |
| TextCodec.HexDecodeInPlace | pkg/manager/macro/enigma/strconv.go:62-69 | decoding into the buffer being read gives what decoding a copy would |
| TextCodec.DecodeText | pkg/manager/macro/enigma/strconv.go:49-77 | each converter's decoder on the caller's buffer |
| LogTemplate.WeaveUndoesParse | pkg/manager/route/middleware_logger_config.go:261-292 | on success there is one more text than tags, no part holds its delimiter, and interleaving rebuilds the template |
| LogTemplate.ParseUndoesWeave | pkg/manager/route/middleware_logger_config.go:274-290 | delimiter-free parts come back, for delimiters that cannot overlap themselves |
| LogTemplate.InvertibleIffUnbordered | pkg/manager/route/middleware_logger_config.go:274-290 | they all come back iff neither delimiter can overlap itself |
| LogTemplate.DollarBraceInvertible | pkg/manager/route/middleware_logger_config.go:102-102 | so they do for the delimiters in use |
| LogTemplate.ParseTemplate | pkg/manager/route/middleware_logger_config.go:261-292 | the loop ends and computes the parse; without a start tag it hands out nothing |
| LogTemplate.Render | pkg/manager/route/middleware_logger_config.go:223-246 | writes each known tag's text and value and then the last text; out of range iff there are no texts |
| LogTemplate.UnknownTagTakesText | pkg/manager/route/middleware_logger_config.go:223-246 | a tag nobody knows might as well not be there, and neither might the text in front of it |
| LogTemplate.KnownTagIsWritten | pkg/manager/route/middleware_logger_config.go:223-246 | any other tag gives its text and then its value, in its place |
| LogTemplate.PrintUndoesParse | pkg/manager/route/middleware_logger_config.go:223-246 | printing the tags as themselves rebuilds the template |
| LogTemplate.Log | pkg/manager/route/middleware_logger_config.go:102-258 | a template that does not parse is refused at set-up; one that does fails on each request iff it has no start tag |
| ChannelRotation.StatusTable.CreateChannelStatus | pkg/manager/control/vault/channels.go:18-119 | a maximum of zero or a repeated key changes nothing; else the channel's rows become those of the specification, an old row goes iff at least max - 1 and less than twice that many rows of the channel are newer; messages are kept and other channels are untouched |
| ChannelRotation.RotatedIff | pkg/manager/control/vault/channels.go:48-83 | what is removed, without any ranking: the rows with at least max - 1 and less than 2 * (max - 1) newer ones |
| ChannelRotation.RotationKeepsBound | pkg/manager/control/vault/channels.go:48-116 | with a maximum of two or more and no more rows than that, the new row and the newest max - 1 old ones are left |
| ChannelRotation.NewestSurvive | pkg/manager/control/vault/channels.go:52-53 | the new row and the newest max - 1 old ones are never removed |
| ChannelRotation.SizeOfAfter | pkg/manager/control/vault/channels.go:84-116 | the exact number of rows after an insert |
| ChannelRotation.KeepsBoundIff | pkg/manager/control/vault/channels.go:48-53 | the bound is kept iff the maximum is at least two |
| ChannelRotation.BacklogShrinks | pkg/manager/control/vault/channels.go:98-113 | with three or more a larger backlog falls by max - 2 an insert until it is within the bound |
| ChannelRotation.SettlesIff | pkg/manager/control/vault/channels.go:53-113 | every backlog comes within the bound and stays there iff the maximum is at least three |
| ChannelRotation.SecondPage | pkg/manager/database/vanilla/stmt/dialects/mysql/pagination.go:36-68 | the second page begins where the first ends; a limit of zero selects nothing |

## Left out

- Agents restarting, several agents in one cluster, the upgrade and rebounce commands (`pkg/agent/fetcher/fetcher.go:194-240`) and the retried handshake.
- Services that fail to convert, inside the transition system: `pkg/agent/service/util.go:67-75` reports such a service and keeps it in the batch.
- The v3 rollup of steps into a service status; no end-to-end agreement is claimed for v3, where a failure before the last step stays `Processing` at the manager (`pkg/manager/control/agent.go:513-520`).
- The v3 half of a poll inside the transition system is any set of v3 services in its window, not the filtered result of `StepVault.GetServicesPolling`; v3 records and results are not written there.
- DeliveryOffset.PollMissesNothing: the exception of a capped poll has no witness run; the code makes no promise once a poll is full. What one poll does is exact in `PollSelectsIff`.
- Saving the offset and saving the `Sent` records are one step of the model; in the source the records are saved first. A run may stop a request between its other steps. Of a request that the agent has given up on, only its saves go on beside the next one.
- DeliveryOrderly.OrderlyRunsExecuteOnce: its assumptions suffice and are not all needed; when a second start follows is exact for the next uninterrupted request only (`DeliveryAgain.RunsAgainIff`), not for all that may come later.
- DeliveryAgain.RunsAgainIff: the v4 half of a request; the v3 half starts no v4 service.
- FlowExecutor.ServiceExecutorV2.Execute: services whose inputs bring in objects that hold references. If two steps share such an object, one sees what the pass over the other wrote, and the run has no meaning as a substitution (`FlowPasses.OtherHolderUntouchedIff`); if only one step holds it the source has one, which is not shown here. The constructor asks for the memory that `FlowConvert.ConvertService` leaves otherwise.
- FlowConvert.ConvertService: the V4 branch of the conversion; a service without steps, which the source drops, comes out without steps.
- A time limit of zero or less moves the window to the current second, so older services are not polled although the filter would accept them; the model has this, no lemma is about it.
- jq, JSON decoding, the ciphers and GCM: parameters with at most the one law that is needed. A query's results are a finite sequence; the source loops for ever on endless nulls.
- PKCS7Padding appends to its argument and may write into spare capacity of the caller's slice; byte strings are values here, except for the hex buffer.
- The parsing of a machine's options (names, key and salt text), and keys.
- LogTemplate.ParseTemplate: at least one delimiter is not empty; with both empty the source never ends. The values of the tags are a parameter.
- ChannelRotation.StatusTable.CreateChannelStatus: the database is a table with the primary key of the migration script and `LIMIT offset, count`; a failing database, and two inserts at a time, are not modelled.
- Error texts, log output, events, HTTP, tokens, SQL text and tickers.
