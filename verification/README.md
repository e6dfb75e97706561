# HUX, modelled and proved

HUX is a transport engine: it moves bytes between the memory of two processes over RDMA adapters, IPC mappings or
other transports, and tells its caller what became of each transfer. This project models the protocols and the
accounting behind that promise and proves what holds of them over every interleaving, every run and every input.

Locks are atomic steps: where several threads meet, a module is a state machine whose steps are the critical sections
of the source, and the theorems quantify over all runs. Objects that one thread updates at a time are classes whose
methods are proved against functions on their abstract value. Clocks, sockets, adapters and the device runtime are
parameters: every answer they could give is covered. Rates and weights are exact reals.

How the parts fit together:

- `Request`, `Lifecycle`, `LifecycleInvariant`, `LifecycleTheorems`: one transfer, split over lanes, posted in quanta,
  completed out of order, cancelled, failed or stranded at any moment. `LifecycleErrors`: which error it reports.
  `LifecycleProgress`: that it gets to its end.
- `Engine`: any number of such requests, with admission, counters, close and deregistration. `EngineProgress`: that it
  can always be closed.
- `Provider`: what the engine relies on from a transport.
- `RdmaLine`: one queue pair with its adapter. `RdmaPlan`: the plan of a batch, as a value.
- `Congestion`, `Timely`, `Controllers`: the byte budgets: none, a fixed window or TIMELY, behind one interface.
- `RdmaSubmit`, `RdmaProvider`: the objects that plan, post and retire, with either controller.
- `RdmaFabric`: any number of connections on one controller, at the granularity of its lock. `RdmaCalls` shows that the
  objects' calls are runs of it; `RdmaRuns`, `RdmaSignals` and `RdmaWindow` say what holds over all of its runs.
- `CompletionQueue`: the one completion queue that polling and path verification share, and work-request ids.
- `Bytes`, `ControlMessage`, `ControlOutbox`, `ControlLink`: the control channel from `post` to the far reader.
- `Notify`, `NotifyProgress`, `Ipc`: the notification and the publish/withdraw protocols that run on such a channel.
- `Copies`, `Lanes`, `Planning`, `Scheduler`: cutting a transfer up, spreading it, and giving every piece its turn.
- `Codec`, `Descriptor`, `Metadata`: the descriptor and metadata encodings.
- `RegCache`: sharing memory registrations.

Where the code does not quite do what its comments promise, the model follows the code:

- `cancel()` can return kOk and the request still succeed (`LifecycleTheorems.CancelCanComeTooLate`); it is honoured
  exactly when the ender has not yet passed its test (`LifecycleTheorems.CancelHonouredIffInTime`).
- `max_inflight_requests` can be passed by callers that submit at once, by one less than there are such callers and no
  more (`Engine.CallersPassTheBound`, `Engine.BoundHolds`); it is kept exactly if there is one at a time
  (`Engine.BoundKeptIffOneAtATime`).
- A post the adapter refuses can leave a queue pair without a signalled tail, and what was posted before it without a
  completion of its own (`RdmaSubmit.RefuseSecond`, `RdmaCalls.RefusedPostStrands`). It waits, its budget claimed, for as
  long as nothing more is posted there (`RdmaRuns.StrandedUntilMoreIsPosted`), and is reported by the first completion
  of a later request (`RdmaLine.ReportedUpToTheHighest`, `RdmaLine.NextCompletionReports`). The tail is signalled exactly
  if the queue pair got all the plan had for it or its last request was due a signal anyway
  (`RdmaPlan.TailSignalledIff`), and a queue pair drains exactly if it is (`RdmaRuns.NothingStranded`).
- Connections that share a fixed window can pass it together, since asking and claiming are separate holds of its lock:
  by one operation for each connection but one, and no more (`RdmaWindow.BoundIsReached`, `RdmaWindow.WindowBound`). The
  window is kept exactly if there is one connection (`RdmaWindow.WindowKeptIffOneConnection`).
- A stashed completion handled late takes the reclaimed counter back, even until posted - reclaimed passes the depth
  (`RdmaLine.StaleCompletionRewinds`, `RdmaLine.StaleCompletionPassesTheDepth`); the counter is exact after a completion
  exactly if none later was reported before it (`RdmaLine.ExactIffNotStale`).
- One arrival in every pass of the scheduler keeps the same piece in front for as long as that goes on
  (`Scheduler.OneArrivalPerPassPinsTheFirst`); exactly when a piece goes first twice running is
  `Scheduler.FirstAgainIff`.
- `deregister_region` of the IPC provider says kOk when the withdrawal could not be queued
  (`Ipc.RefusedWithdrawalLeavesTheMapping`); such a kOk means the peer has let go exactly if the peer was never told
  of the key or is gone (`Ipc.OkMeansUnmappedIff`).
- A descriptor cut to its fixed part decodes, without keys (`Descriptor.DescriptorIsExact`).

## Model

| member | source | states |
|---|---|---|
| Request.AtMostOneEnding | src/core/request_impl.cpp:48-212 | whatever calls are made on a new request and in whatever order, it is accepted, at most one of success, failure and cancellation is reached, the stages say which, and a success is complete with its target ready |
| Request.CallsOnlyGrow | src/core/request_impl.cpp:20-212 | no call undoes an ending, what wait() answers for it, the first error, an accepted cancellation, the seal or a stage |
| Request.EndingsStayExclusive | src/core/request_impl.cpp:181-212 | the three endings stay mutually exclusive through any sequence of calls |
| Request.StateFollows | src/core/request_impl.cpp:48-173 | until it ends a request is in the state last asked for, or draining exactly if somebody asked to cancel it |
| Request.StagesFollow | src/core/request_impl.cpp:58-202 | transfer-complete and target-ready are reached exactly if marked or if the request has succeeded |
| Request.RequestImpl.constructor | src/core/request_impl.cpp:25-29 | a new request is pending, without error, parts or accepted sub-operations |
| Request.RequestImpl.RecordErrorLocked | src/core/request_impl.cpp:20-24 | the first error sticks |
| Request.RequestImpl.SetStateTo | src/core/request_impl.cpp:48-56 | a terminal state is not overwritten |
| Request.RequestImpl.FinishPart | src/core/request_impl.cpp:83-87 | true for the last open lane only |
| Request.RequestImpl.SealWhenIdle | src/core/request_impl.cpp:94-98 | seals, and says whether everything accepted has completed |
| Request.RequestImpl.SubopComplete | src/core/request_impl.cpp:111-127 | an ended request is left alone; a live one counts the completion, keeps its first error or takes this one field by field, and is last exactly against the full size or, sealed, against what was accepted |
| Request.RequestImpl.RequestCancel | src/core/request_impl.cpp:163-173 | kOk only before the ending, and then the cancellation is on record |
| Request.RequestImpl.NoteErrorOnce | src/core/request_impl.cpp:175-179 | records an error without ending the request |
| Request.RequestImpl.EndFailed | src/core/request_impl.cpp:181-190 | ends a live request failed and safe, and leaves an ended one alone |
| Request.RequestImpl.EndSucceeded | src/core/request_impl.cpp:192-202 | ends a live request successfully, and leaves an ended one alone |
| Request.RequestImpl.EndCancelled | src/core/request_impl.cpp:204-212 | ends a live request cancelled and safe, and leaves an ended one alone |
| Provider.AcceptAllIs | src/transport/provider.h:168-183 | a batch is acceptable exactly if its sub-operations are distinct and none is held, and is then held |
| Provider.ReportAllIs | src/transport/provider.h:168-183 | a run of reports is allowed exactly if they are distinct and held, and are then no longer held |
| LifecycleInvariant.StepKeepsInv | src/core/engine_impl.cpp:879-989 | every step of submitter, scheduler, completion handler, canceller and reaper keeps the request's invariant: work not yet posted, posted, credited, counted and landed account for every sub-operation, and the counters agree |
| LifecycleTheorems.AdmitInv | src/core/engine_impl.cpp:1160-1176 | a request entering inflight_ satisfies that invariant |
| LifecycleTheorems.EndsOnce | src/core/engine_impl.cpp:962-989 | claimed at most once, ended at most once and by its claimer, published at most once and after it ended; in flight exactly while unclaimed |
| LifecycleTheorems.EndingIsFinal | src/core/request_impl.cpp:155-212 | a terminal state and what wait() says about it never change |
| LifecycleTheorems.ClaimedIsStill | src/core/engine_impl.cpp:962-989 | under the invariant a request that has left inflight_ has no sub-operation on a live connection, and none that could still be put there |
| LifecycleTheorems.SafeMeansStill | src/core/engine_impl.cpp:882-960 | once FailedSafe, CancelledSafe or SourceReusable is set, no sub-operation of the request is or can yet be put on a live connection, however the run goes on |
| LifecycleTheorems.SuccessMeansAllLanded | src/core/engine_impl.cpp:1681-1757 | a successful request had every sub-operation accepted and completed kOk, and answers kOk |
| LifecycleTheorems.OutcomeTellsTheEnding | src/core/request_impl.cpp:155-161 | wait() answers kOk exactly for success, and a failure has its own error to report |
| LifecycleTheorems.NeverStuck | src/core/engine_impl.cpp:945-960 | until a request is published some thread has a step to take or the transport owes a completion |
| LifecycleTheorems.CancelHonouredIffInTime | src/core/engine_impl.cpp:1681-1757 | a cancel() before the ending fails to stop the request exactly if its ender was already on its way to success |
| LifecycleTheorems.CancelCanComeTooLate | src/core/request_impl.cpp:163-173 | a reachable run in which cancel() returned kOk and the request succeeded |
| LifecycleTheorems.RunGrows | src/core/request_impl.cpp:20-212 | over any run nothing that a request has reached is taken back |
| LifecycleErrors.FirstErrorIsKept | src/core/request_impl.cpp:111-179 | over every run the recorded error is, field by field, that of the first step to bring one: a failed dependency, a post the transport refused, a completion reported with an error, or the reaper; and no step before it brought any |
| LifecycleErrors.WaitTellsTheFirstError | src/core/request_impl.cpp:155-161 | wait() on a failed request answers with the status of that step, and on a cancelled one with kCancelled |
| LifecycleProgress.StepShrinks | src/core/engine_impl.cpp:879-989 | every step leaves less work, but for those of callers, connections and dependencies, which leave as much, and a turn in which the transport takes nothing, which adds two |
| LifecycleProgress.EveryRequestEnds | src/core/engine_impl.cpp:879-989 | so from any reachable state and in any interleaving a request takes no more steps than it has work left and two for each empty-handed turn; when none is left to take it has been published or the transport owes a completion |
| LifecycleProgress.ReaperEndsIt | src/core/engine_impl.cpp:1409-1475 | a reachable run in which a request whose connections have all gone ends failed with the reaper's error, having posted nothing |
| Engine.StepKeeps | src/core/engine_impl.cpp:1115-1189 | every step of the engine keeps its lives, counters, finished queue and gates consistent |
| Engine.CountersBalance | src/core/engine_impl.cpp:962-984 | whenever no thread is half way through, accepted = succeeded + failed + cancelled + in flight |
| Engine.HandedOutOnce | src/core/engine_impl.cpp:1349-1394 | a request is waiting for poll_completions, handed out or pushed out once in all if it was published, and never if not; what is handed out has ended |
| Engine.ClosedForGood | src/core/engine_impl.cpp:1856-1882 | once a close() returned kOk nothing is in flight, nothing is ever admitted, and no live connection holds or can be given work of any request |
| Engine.DeregisteredForGood | src/core/engine_impl.cpp:335-350 | once a deregister_memory() returned kOk no request in flight holds the region, and no live connection holds or can be given work of a request that used it, now or later |
| Engine.BoundHolds | src/core/engine_impl.cpp:1115-1176 | with at most t submissions between check and insertion, at most t - 1 over the bound are in flight |
| Engine.BoundIsExactForOneCaller | src/core/engine_impl.cpp:1115-1176 | one caller at a time is held to the bound |
| Engine.CallersPassTheBound | src/core/engine_impl.cpp:1115-1176 | for every bound and every t, a run with at most t submissions at once that has exactly bound - 1 + t requests in flight |
| Engine.BoundKeptIffOneAtATime | src/core/engine_impl.cpp:1115-1176 | every run with at most t submissions at once keeps to the bound exactly if t is one |
| EngineProgress.CloseCanReturn | src/core/engine_impl.cpp:1856-1882 | from every state the engine can get to, its own threads and the transports alone can bring every request to its end, so that close() returns, any region can be deregistered, poll_completions empties its queue with every request through it once, and the counters balance |
| RdmaLine.ReportedExactlyOnce | src/transport/rdma/rdma_provider.cpp:1316-1363 | over any run what poll() reported is, in order, a first part of what was posted, each once, and no success before the adapter finished it and everything before it |
| RdmaLine.ReportedUpToTheHighest | src/transport/rdma/rdma_provider.cpp:1329-1363 | over any run and any order of handling, what is reported is exactly the requests up to the last one of which a completion was handled |
| RdmaLine.NextCompletionReports | src/transport/rdma/rdma_provider.cpp:1329-1363 | on a queue pair that is through and has no completion waiting, the next request to complete reports everything that waited |
| RdmaLine.StrandedIffUnsignalledTail | src/transport/rdma/rdma_provider.cpp:1155-1190 | without errors everything was reported exactly if the last request was signalled |
| RdmaLine.CapacityIsExact | src/transport/rdma/rdma_provider.cpp:343-373 | handled in order, posted - reclaimed is the backlog and never exceeds the depth |
| RdmaLine.ExactIffNotStale | src/transport/rdma/rdma_provider.cpp:1325-1363 | handling a completion leaves the counter exact exactly if nothing later was reported before; it never runs ahead |
| RdmaLine.StaleCompletionRewinds | src/transport/rdma/rdma_provider.cpp:1363-1363 | with a signal period of one, a reachable state in which a late completion has taken the counter back |
| RdmaLine.StaleCompletionPassesTheDepth | src/transport/rdma/rdma_provider.cpp:1217-1363 | with a signal period of one and four distinct requests, a reachable state of a queue of depth two with posted - reclaimed at three |
| RdmaLine.StepKeeps | src/transport/rdma/rdma_provider.cpp:1057-1200 | numbering, ledger and depth hold through every step |
| RdmaSubmit.RdmaConnection.constructor | src/transport/rdma/rdma_provider.h:294-307 | idle queue pairs and no claim of its own |
| RdmaSubmit.RdmaConnection.PickQueuePair | src/transport/rdma/rdma_provider.cpp:354-373 | the most room, the first such from the rotating start, none if none has any; the start moves on by one |
| RdmaSubmit.RdmaConnection.Capacity | src/transport/rdma/rdma_provider.cpp:343-352 | the sum of the room of all queue pairs |
| RdmaSubmit.RdmaConnection.PlanBatch | src/transport/rdma/rdma_provider.cpp:1062-1143 | plans a first part of the operations one by one, each registered, within the depth of its queue pair, let through by the controller at that time, and signalled exactly if the period is up or the queue nearly full; claims exactly those; stops only for a missing key, the controller or a full queue pair |
| RdmaSubmit.AnchorPlan | src/transport/rdma/rdma_provider.cpp:1145-1149 | signals what was signalled and the last operation of every queue pair the plan touches, and no other |
| RdmaSubmit.RdmaConnection.PostPlan | src/transport/rdma/rdma_provider.cpp:1151-1200 | posts up to the refused one, and each queue pair advances by what the plan put on it |
| RdmaSubmit.RdmaConnection.ReleaseUnposted | src/transport/rdma/rdma_provider.cpp:1202-1210 | gives back exactly what was claimed and not posted |
| RdmaSubmit.RdmaConnection.Submit | src/transport/rdma/rdma_provider.cpp:1037-1212 | with any controller: takes a prefix of a plan made as PlanBatch says and anchored; each queue pair gets what that deals it; kOk exactly for all of it, otherwise the reason; the controller ends where claiming the plan and giving back the rest leaves it, so the budget changes by exactly the bytes posted |
| RdmaSubmit.RdmaConnection.PopFront | src/transport/rdma/rdma_provider.cpp:1330-1344 | drops the oldest request and gives its budget back, with feedback if it succeeded |
| RdmaSubmit.RdmaConnection.RetireUpTo | src/transport/rdma/rdma_provider.cpp:1329-1361 | reports every request posted up to the completion, in order, and gives each one's budget back once |
| RdmaSubmit.RdmaConnection.HandleCompletion | src/transport/rdma/rdma_provider.cpp:1309-1364 | retires as RdmaLine says, marks the connection failed on an error, and keeps the budget equal to what is posted and not retired |
| RdmaSubmit.RefuseSecond | src/transport/rdma/rdma_provider.cpp:1113-1210 | for every depth and period from two on, a submit() of two operations whose second post is refused leaves the first posted, unsignalled and its budget claimed |
| RdmaPlan.AnchoredShare | src/transport/rdma/rdma_provider.cpp:1145-1149 | anchoring a plan changes what a queue pair gets in its last request only, which it signals |
| RdmaPlan.AnchoringAnchors | src/transport/rdma/rdma_provider.cpp:1130-1149 | after anchoring, a request is signalled exactly if it is the last on its queue pair, the period is up or the queue is nearly full |
| RdmaPlan.TailSignalledIff | src/transport/rdma/rdma_provider.cpp:1130-1179 | however many operations of a plan were posted, what a queue pair got ends signalled exactly if it got nothing, got all the plan had for it, or its last one was due a signal anyway |
| RdmaPlan.KeepsSignalling | src/transport/rdma/rdma_provider.cpp:1130-1149 | however many operations of a plan were posted, no queue pair goes a whole signal period unsignalled |
| RdmaPlan.PlansFit | src/transport/rdma/rdma_provider.cpp:1062-1143 | a plan leaves every queue pair within its depth and signals exactly where it has to |
| RdmaPlan.GiveBackTeaches | src/transport/rdma/rdma_provider.cpp:1334-1344 | only a success is a sample, and of its own direction; a failure changes the counter alone |
| RdmaProvider.Provider.constructor | src/transport/rdma/rdma_provider.cpp:399-411 | no connections |
| RdmaProvider.Provider.Connect | src/transport/rdma/rdma_provider.cpp:718-948 | one more connection, idle, on the same controller |
| RdmaProvider.Provider.EachIsValid | src/transport/rdma/rdma_provider.cpp:1113-1142 | while the controller counts what all connections have posted, each of them is in order |
| RdmaProvider.Provider.Submit | src/transport/rdma/rdma_provider.cpp:1037-1212 | a submit() on one connection changes no other, and the controller goes on counting exactly what all have posted and not retired |
| RdmaProvider.Provider.HandleCompletion | src/transport/rdma/rdma_provider.cpp:1309-1364 | so does handling a completion |
| RdmaFabric.ConnKeeps | src/transport/rdma/rdma_provider.cpp:1037-1364 | every step of submit(), poll() and the adapter keeps a connection's queue pairs consistent, its plan within their depths, its tails signalled unless a post was refused, and its ledger complete |
| RdmaFabric.OutMoves | src/transport/rdma/rdma_provider.cpp:1113-1210 | what a connection has outstanding changes by exactly what the step claims or gives back |
| RdmaFabric.CtlMoves | src/transport/cc/controller.cpp:67-98 | so does the controller's counter, and a release is never clamped |
| RdmaFabric.StepKeeps | src/transport/rdma/rdma_provider.cpp:1113-1210 | every step of any connection keeps the controller's counter equal to what all connections have outstanding |
| RdmaRuns.BudgetIsExact | src/transport/rdma/rdma_provider.cpp:1113-1142 | over every interleaving of any number of connections the budget is the bytes posted and not retired plus what calls in progress have claimed and not posted or retired and not given back; between calls it is the bytes posted; no connection owns more than is counted |
| RdmaRuns.AllowedIffItFits | src/transport/cc/controller.cpp:56-65 | over every run, with either controller, an operation is let through exactly if its time has come and it fits the window of that moment together with all bytes outstanding, or none are |
| RdmaRuns.AllowedFits | src/transport/rdma/rdma_provider.cpp:1121-1125 | whenever an operation of a connection is let through its time has come and it fits the window of that moment on top of all that is outstanding, or nothing is |
| RdmaRuns.ReportedExactlyOnce | src/transport/rdma/rdma_provider.cpp:1316-1363 | over every run each sub-operation is reported as often as its connection accepted it, less what still waits; in posting order, never before the adapter finished it, never a success that was none |
| RdmaRuns.NothingStranded | src/transport/rdma/rdma_provider.cpp:1145-1190 | a queue pair the adapter is through with has reported everything exactly if its last request was signalled; between calls it was, unless a post was refused |
| RdmaRuns.StrandedUntilMoreIsPosted | src/transport/rdma/rdma_provider.cpp:1173-1210 | what waits on a queue pair that is through and has no completion waiting stays unreported and its budget claimed through every run that posts nothing more on it, whatever the others do |
| RdmaRuns.CompletionReportsUpToIt | src/transport/rdma/rdma_provider.cpp:1329-1363 | in every run a handled completion brings the reports of its queue pair up to its own request, if they were not there yet |
| RdmaRuns.WithinDepth | src/transport/rdma/rdma_provider.cpp:343-373 | the adapter never holds more than the depth; with completions taken oldest first posted - reclaimed is what it holds |
| RdmaRuns.RoomIsThere | src/transport/rdma/rdma_provider.cpp:343-373 | the room a queue pair is taken to have is never more than the adapter has, and exactly that with completions taken oldest first |
| RdmaSignals.NearlyFullDrains | src/transport/rdma/rdma_provider.cpp:1130-1149 | over every run, whatever was refused, a queue pair holding three quarters of its depth or a whole signal period ends signalled, and once the adapter is through with it that completion waits to be handled |
| RdmaRuns.RefinesContract | src/transport/provider.h:168-183 | every step of every run is, for its whole connection, an accept of something new, a report of things held, or nothing in the transport contract |
| RdmaWindow.WindowBound | src/transport/cc/controller.cpp:56-70 | n connections on a window w, with operations of up to m bytes, never hold more than max(w, m) + (n - 1) m |
| RdmaWindow.OneConnectionKeepsTheWindow | src/transport/cc/controller.cpp:60-64 | one connection exceeds its window only with a single operation outstanding |
| RdmaWindow.BoundIsReached | src/transport/rdma/rdma_provider.cpp:1121-1125 | for every w and all m and n above zero, with queues of depth w + 1, a run that reaches that bound |
| RdmaWindow.WindowKeptIffOneConnection | src/transport/rdma/rdma_provider.cpp:1121-1125 | every run stays within the larger of the window and one operation exactly if there is one connection |
| RdmaCalls.SubmitIsARun | src/transport/rdma/rdma_provider.cpp:1037-1212 | what RdmaConnection.Submit promises of queue pairs and controller is a run of that connection's steps alone, for every plan and every refusal |
| RdmaCalls.HandleIsARun | src/transport/rdma/rdma_provider.cpp:1309-1364 | so is what RdmaConnection.HandleCompletion promises |
| RdmaCalls.RefusedPostStrands | src/transport/rdma/rdma_provider.cpp:1173-1210 | for every depth and period from two on, a run in which the adapter has finished an accepted operation, no completion waits and it is unreported |
| Controllers.Controller.Window | src/transport/cc/controller.cpp:10-54 | a controller without a limit or with a fixed window, nothing in flight |
| Controllers.Controller.Timely | src/transport/cc/controller.cpp:116-122 | a TIMELY controller, nothing in flight |
| Controllers.Controller.Allow | src/transport/cc/controller.h:41-43 | the verdict of whichever controller it is |
| Controllers.Controller.OnPost | src/transport/cc/controller.h:45-46 | claims with it |
| Controllers.Controller.OnFeedback | src/transport/cc/controller.h:48-53 | releases, and lets it learn |
| Controllers.Controller.OnError | src/transport/cc/controller.h:54-56 | releases only |
| Controllers.AllowsMeans | src/transport/cc/controller.h:36-62 | whichever it is, it lets an operation through exactly if its time has come and it fits the window of that moment or nothing is in flight |
| Controllers.FeedbackCounts | src/transport/cc/controller.cpp:152-158 | feedback releases its bytes in its own direction and leaves the rates positive |
| Congestion.WindowController.constructor | src/transport/cc/controller.cpp:10-54 | nothing in flight |
| Congestion.WindowController.Allow | src/transport/cc/controller.cpp:56-65 | allows what fits the window, and one larger than the window alone |
| Congestion.WindowController.OnPost | src/transport/cc/controller.cpp:67-70 | claims in its own direction only |
| Congestion.WindowController.OnRelease | src/transport/cc/controller.cpp:72-98 | releases in its own direction, never below zero |
| Timely.TimelyController.constructor | src/transport/cc/controller.cpp:116-122 | starts at ten increments with no sample |
| Timely.TimelyController.Allow | src/transport/cc/controller.cpp:126-136 | the verdict the pacing time and the window give |
| Timely.TimelyController.OnPost | src/transport/cc/controller.cpp:138-150 | claims, and moves the next send time on by what the bytes take |
| Timely.TimelyController.OnFeedback | src/transport/cc/controller.cpp:152-158 | releases and updates the rate |
| Timely.TimelyController.OnError | src/transport/cc/controller.cpp:160-166 | releases and leaves the rate alone |
| Timely.TimelyController.UpdateRate | src/transport/cc/controller.cpp:247-294 | no positive sample changes nothing; one is remembered with its time, the least delay and, from the second on, the smoothed difference; the rate becomes what the next four rows say |
| Timely.SampleIsRemembered | src/transport/cc/controller.cpp:247-268 | every field but the rate after a sample, in terms of the fields before it |
| Timely.RateGrows | src/transport/cc/controller.cpp:230-282 | below the low threshold, or up to the high one while the average difference is not positive, the rate gains the increment for each round trip since the last sample, fractions counted, none if the clock did not advance and at most 64, clamped |
| Timely.RateBacksOff | src/transport/cc/controller.cpp:271-275 | above the high threshold it is multiplied by 1 - beta (1 - high / delay), clamped |
| Timely.RateSlows | src/transport/cc/controller.cpp:276-287 | between them, while the average difference is positive, by 1 - beta times that difference over the least delay, clamped |
| Timely.SamplesAreRemembered | src/transport/cc/controller.cpp:247-268 | over any run the least delay is the least positive sample and the average is that of their successive differences |
| Timely.RampsUp | src/transport/cc/controller.cpp:230-282 | n samples below the low threshold, one least delay apart, raise the rate by n increments up to the highest, whatever is posted or fails in between |
| Timely.WindowMeans | src/transport/cc/controller.cpp:209-219 | the window is what the rate moves in the least delay, a millisecond without one, in whole bytes and never below 64 KiB |
| Timely.PostIs | src/transport/cc/controller.cpp:138-150 | a post claims its bytes and moves the next send time on, from now or from where it was, by the nanoseconds they take at the rate |
| Timely.PacingLetsGo | src/transport/cc/controller.cpp:138-150 | over any run pacing holds a post back no longer than everything posted so far takes at the lowest rate, counted from the last post |
| Timely.TimelyController.WindowLocked | src/transport/cc/controller.cpp:209-219 | rate times the least delay, never below 64 KiB |
| Timely.Reaction | src/transport/cc/controller.cpp:247-294 | a moved rate is in range; below the low threshold it never falls, above the high one it never rises, between them it follows the gradient |
| Timely.Rounds | src/transport/cc/controller.cpp:230-245 | between 0 and 64 whatever the clock did |
| Timely.PacingHolds | src/transport/cc/controller.cpp:116-150 | from a start in range the rate stays there over any run, the window keeps its floor, and at every allowed post all bytes posted before it fit the highest rate over the time since the first post, but for a nanosecond each |
| Timely.DefaultsStartInRange | src/transport/cc/controller.h:85-105 | the default parameters start in that range |
| Timely.WindowHolds | src/transport/cc/controller.cpp:126-166 | over any run the counter is the bytes claimed and not released, and a post is allowed exactly if its time has come and it fits the window of that moment with them, or there are none; it is paced exactly before its time |
| CompletionQueue.WrIdRoundTrip | src/transport/rdma/rdma_provider.cpp:1025-1035 | what index and sequence number an id gives back, for all inputs, and so when both come back |
| CompletionQueue.MintedIdIsATransfer | src/transport/rdma/rdma_provider.cpp:239-242 | exactly which minted ids would be taken for a receive or a verification |
| CompletionQueue.NothingLostNothingTwice | src/transport/rdma/rdma_provider.cpp:1217-1299 | for any number of polling and verifying threads every completion produced is in exactly one place, once |
| CompletionQueue.TransfersAreHandled | src/transport/rdma/rdma_provider.cpp:1258-1306 | a transfer's completion on a connection not forgotten is handled once as soon as it is not queued, stashed or in a reader's hands |
| CompletionQueue.VerificationsReachTheirOwner | src/transport/rdma/rdma_provider.cpp:294-340 | a verification completion in nobody's hands waits under its own queue pair or its own verify_path() has it |
| CompletionQueue.AnsweredWithOwn | src/transport/rdma/rdma_provider.cpp:296-336 | a verify_path() is only ever answered with its own queue pair's completion |
| CompletionQueue.AnsweredOnce | src/transport/rdma/rdma_provider.cpp:296-336 | and at most once |
| CompletionQueue.OnePoll | src/transport/rdma/rdma_provider.cpp:1258-1306 | from any reachable state, a poll() nobody interrupts takes the stash first and then the queue, retires the transfers of registered connections and drops the others, both in that order, and leaves every verification under its queue pair |
| CompletionQueue.OneVerifyTurn | src/transport/rdma/rdma_provider.cpp:294-336 | a turn of verify_path() nobody interrupts is answered from the table, or draws up to eight, sets transfers aside in order, leaves the verifications of others in the table and is answered exactly if its own was among them |
| Bytes.Put | src/control/control_message.cpp:7-18 | writes the low bytes, lowest first, and nothing else |
| Bytes.Get | src/control/control_message.cpp:19-31 | reads the number those bytes stand for |
| Bytes.UnLeOfLe | src/control/control_message.cpp:7-31 | a number comes back exactly if it fits |
| ControlMessage.EncodeHeader | src/control/control_message.cpp:35-41 | the twelve header bytes, leaving the rest of the buffer |
| ControlMessage.DecodeHeader | src/control/control_message.cpp:43-58 | the fields, refusing a foreign major version and an oversized payload |
| ControlMessage.HeaderRoundTrip | src/control/control_message.cpp:35-58 | a header comes back exactly if its fields fit |
| ControlMessage.SendableIff | src/transport/rdma/rdma_provider.cpp:1368-1383 | what may be sent is exactly what a reader accepts the header of |
| ControlMessage.ParsePrefix | src/transport/rdma/rdma_provider.cpp:1470-1488 | bytes that start a run of frames parse into the first of those messages, whole and in order, losing none, and into all that arrived whole |
| ControlOutbox.Outbox.constructor | src/transport/control_outbox.h:62-71 | nothing queued, no socket |
| ControlOutbox.Outbox.Reset | src/transport/control_outbox.cpp:10-18 | a new stream |
| ControlOutbox.Outbox.FlushLocked | src/transport/control_outbox.cpp:20-49 | the wire grows by what was owed, in order; it stops early only for a full or a broken socket |
| ControlOutbox.Outbox.Flush | src/transport/control_outbox.cpp:94-97 | the same for callers |
| ControlOutbox.Outbox.Post | src/transport/control_outbox.cpp:51-92 | kOk exactly if the message is owed in full from now on; otherwise it was not taken, and only a broken channel carries a start of it; the backlog keeps its bound unless it is one message |
| ControlOutbox.Outbox.PostDirect | src/transport/control_outbox.cpp:61-86 | written straight out, the rest queued whatever the bound says |
| ControlLink.BuildFrame | src/transport/rdma/rdma_provider.cpp:1375-1383 | header and payload in one buffer |
| ControlLink.Reader.Receive | src/transport/rdma/rdma_provider.cpp:1445-1468 | appends what arrived up to a short read, and notices the end of the connection |
| ControlLink.ReadsUntil | src/transport/rdma/rdma_provider.cpp:1445-1468 | reading goes on exactly through full and interrupted reads, takes in every byte up to and with the first other answer, and finds the connection over exactly if that answer says so |
| ControlLink.Reader.TakeMessages | src/transport/rdma/rdma_provider.cpp:1470-1488 | takes exactly the messages Parse finds, and keeps the rest |
| ControlLink.ReaderFollows | src/transport/rdma/rdma_provider.cpp:1443-1488 | what the reader hands out carries on from what it delivered, and is everything once all has arrived |
| ControlLink.Link.constructor | src/transport/rdma/rdma_provider.cpp:1368-1391 | nothing sent, nothing delivered |
| ControlLink.Link.SendControl | src/transport/rdma/rdma_provider.cpp:1368-1391 | a message is on its way in full exactly if kOk came back; what was delivered stays a first part of what was taken, even after a break inside a message |
| ControlLink.Link.PollControl | src/transport/rdma/rdma_provider.cpp:1418-1491 | for any fragmentation the messages delivered are a prefix, in order and whole, of those taken, and all of them once everything owed has arrived, even behind a start of a message that was never taken |
| Notify.StepKeeps | src/core/engine_impl.cpp:991-1028 | every step keeps each notification in one stage, each channel free of repeats, and each ending grounded in its own peer's reply |
| Notify.SuccessMeansQueued | src/core/engine_impl.cpp:1533-1588 | a notification that succeeded was queued with exactly its payload, exactly once, by the peer it was for and no other |
| Notify.RefusalMeansNeverQueued | src/core/engine_impl.cpp:1577-1588 | one that ended on a refusal was never queued anywhere |
| Notify.EndsOnce | src/core/engine_impl.cpp:991-1028 | acknowledgement, refusal, failed send, cancellation, departure and close end it once between them, for good; it is published once, or never if its send failed |
| Notify.ClosedForGood | src/core/engine_impl.cpp:1301-1312 | after close() has swept, nothing waits for an acknowledgement again |
| NotifyProgress.NothingWaitsInVain | src/core/engine_impl.cpp:1533-1588 | while every reply gets away, a notification that waits is being sent, in the channel to its peer, or answered with the answer in the channel back |
| NotifyProgress.EndsByItsReason | src/core/engine_impl.cpp:991-1028 | over every run each notification ends as what took it away says: acknowledged, refused, cancelled, or its peer gone with that status |
| NotifyProgress.CancelEndsIt | src/core/engine_impl.cpp:991-1028 | whatever it waits for, a pending notification can be cancelled and then ends cancelled |
| NotifyProgress.DepartureEndsIt | src/core/engine_impl.cpp:991-1028 | a peer that goes ends exactly what waited for it, with that status, or cancelled where that was asked for |
| NotifyProgress.CloseEndsIt | src/core/engine_impl.cpp:1301-1312 | close() ends everything cancelled and takes nothing new |
| NotifyProgress.QueueIsInOrder | src/core/engine_impl.cpp:1533-1576 | over every run a peer's queue stays within its depth, and what its application took is, in order, the first part of what was queued |
| NotifyProgress.DeliveryRoundTrip | src/core/engine_impl.cpp:1533-1588 | a run in which a notification is sent, queued, acknowledged, ended successfully and taken by the application |
| Ipc.StepKeeps | src/transport/ipc/ipc_provider.cpp:412-498 | every step of the two processes keeps what the importer knows equal to what was published to it and not withdrawn |
| Ipc.AcknowledgedMeansUnmapped | src/transport/ipc/ipc_provider.cpp:460-498 | after an acknowledged deregistration the peer does not know the key and holds no mapping, then and ever after |
| Ipc.OkMeansUnmappedIff | src/transport/ipc/ipc_provider.cpp:460-474 | any kOk keeps that promise exactly if it was acknowledged, the peer was never told of the key, or the peer is gone |
| Ipc.PeerKnowsWhatIsExported | src/transport/ipc/ipc_provider.cpp:412-498 | a peer that has handled every frame knows exactly the regions exported and those whose withdrawal could not be queued, each as registered |
| Ipc.WithdrawalRoundTrip | src/transport/ipc/ipc_provider.cpp:460-498 | for every region a run from a mapping that is open to one that is gone and an acknowledged deregistration |
| Ipc.WithdrawalGivenUp | src/transport/ipc/ipc_provider.cpp:475-498 | and one in which the peer leaves and the withdrawal times out |
| Ipc.RefusedWithdrawalLeavesTheMapping | src/transport/ipc/ipc_provider.cpp:471-474 | a reachable kOk with the peer still mapped |
| Ipc.Copier.constructor | src/transport/ipc/ipc_provider.h:97-145 | nothing imported |
| Ipc.Copier.Resolve | src/transport/ipc/ipc_provider.cpp:617-697 | opens the mapping if need be; kOk exactly if there is one and the range lies inside it |
| Ipc.Copier.Submit | src/transport/ipc/ipc_provider.cpp:630-756 | copies a prefix, each through an open mapping and inside the published range; the first that cannot be says why, unless the batch did not settle, which then is the status and is reported for every copy that had gone well |
| Ipc.Unsettled | src/transport/ipc/ipc_provider.cpp:741-753 | of a batch that did not settle every copy that had gone well is reported with that error, no bytes and a possibly modified target; the others as they were |
| Ipc.CopiesStayInside | src/transport/ipc/ipc_provider.cpp:677-697 | in every reachable state an operation let through stays inside a registered region whose withdrawal was not acknowledged |
| Copies.SplitCovers | src/core/engine_impl.cpp:793-840 | every byte of a segment is in exactly one of its chunks |
| Copies.SplitParts | src/core/engine_impl.cpp:793-840 | chunks stay inside their segment, are not empty and no longer than the limit |
| Copies.SplitAllBytes | src/core/engine_impl.cpp:789-840 | the chunks add up to the transfer |
| Copies.AnyOrderIsOneCopy | src/core/engine_impl.cpp:753-849 | chunks applied in any order leave every byte as copying the segments whole does, for targets disjoint from each other and from sources |
| Lanes.PickLane | src/core/engine_impl.cpp:801-812 | the lane whose bytes with this chunk, over its weight, are least, and the first of them |
| Lanes.CheapestMeans | src/core/engine_impl.cpp:801-812 | in terms of the weights themselves, where a lane without a positive one counts as 1e-9 |
| Lanes.CheapestUnique | src/core/engine_impl.cpp:801-812 | there is only one such lane |
| Lanes.PickKeepsBalance | src/core/engine_impl.cpp:798-840 | no lane gets ahead of another by more than one chunk per unit of weight |
| Lanes.BalanceMeans | src/core/engine_impl.cpp:801-812 | in terms of the weights themselves, where a lane without a positive one counts as 1e-9 |
| Lanes.ShareBound | src/core/engine_impl.cpp:754-766 | with positive weights no lane carries more than its weight over their sum of the total and one chunk for each other lane |
| Planning.LimitChunk | src/core/engine_impl.cpp:762-766 | the greatest chunk every lane can carry |
| Planning.CheckSegment | src/core/engine_impl.cpp:771-787 | kOk exactly if both regions are known and current, the remote one grants a write or a read as asked, and lengths and ranges agree; otherwise the status of the first of these that fails |
| Planning.OneReason | src/core/engine_impl.cpp:771-787 | a pair of segments has a reason to be refused exactly if it is not permitted, and then only one |
| Planning.AddSegment | src/core/engine_impl.cpp:793-840 | deals exactly the segment's chunks, each to the lane it costs least and with that lane's keys; kUnsupported exactly where the lane the next chunk costs least lacks a key |
| Planning.BuildSubops | src/core/engine_impl.cpp:744-850 | kOk only if every pair of segments is in order, with a writable remote region for a write and a readable one for a read, and always if they are and every lane has their keys; refused for the first pair not in order, with its own reason, or where the lane due the next chunk lacks a key; what is planned is exactly the chunks of all segments within every lane's limit, dealt by cost, with the keys of lane and segment |
| Planning.OpsStayInBounds | src/core/engine_impl.cpp:786-787 | every sub-operation stays inside its local and remote view and region |
| Planning.LaneShare | src/core/engine_impl.cpp:754-840 | in the bytes each lane is given and the weights themselves: no lane is ahead of another by more than a chunk, one without a positive weight counts as 1e-9, and with positive weights each stays within its share and one chunk for each other lane |
| Planning.AnyScheduleMovesTheSegments | src/core/engine_impl.cpp:744-850 | however the lanes' work is interleaved memory ends up as if every segment had been copied whole |
| Planning.TargetList.constructor | src/core/request_impl.h:141-208 | no targets |
| Planning.TargetList.AddRemoteTarget | src/core/request_impl.h:146-156 | names exactly the range's bytes in addition, joined where it follows on |
| Planning.TargetList.AddAll | src/core/engine_impl.cpp:1146-1158 | the ranges name exactly the bytes of the segments given, in order, none empty and none left unjoined |
| Planning.HandoffNamesWhatIsWritten | src/core/engine_impl.cpp:1146-1158 | for the segments of a planned write those are exactly the remote bytes its sub-operations write |
| Scheduler.CountSlice | src/core/engine_impl.cpp:893-900 | all operations that fit the quantum and at least one |
| Scheduler.SliceUnique | src/core/engine_impl.cpp:893-900 | that determines the number |
| Scheduler.TakeTurn | src/core/engine_impl.cpp:879-943 | one given up, or with a failed dependency, posts nothing and keeps nothing; one with a dependency unmet is left alone; any other posts exactly what the provider took, and is given up exactly if that fell short for another reason than back-pressure |
| Scheduler.TurnKeeps | src/core/engine_impl.cpp:893-925 | posted followed by remaining is kept, at most a quantum or one operation goes out, what is left shrinks whenever any is taken, and giving up loses only what was not posted |
| Scheduler.TurnMeans | src/core/engine_impl.cpp:879-943 | the same of the turns a run is made of |
| Scheduler.AbandonedPostsNothing | src/core/engine_impl.cpp:882-892 | from the first pass that meets its request being given up a piece posts nothing more, and it stops waiting in that pass |
| Scheduler.NoWorkLost | src/core/engine_impl.cpp:879-925 | through any number of passes a piece not given up has posted a first part of its operations and holds the rest, and all of them when it finishes |
| Scheduler.ProgressEnds | src/core/engine_impl.cpp:909-925 | a piece whose every turn gets something posted stops waiting within as many turns as it has operations, and finishes if the provider only ever falls short for back-pressure |
| Scheduler.Passes.constructor | src/core/engine_impl.h:247-250 | an empty queue |
| Scheduler.Passes.DrainPending | src/core/engine_impl.cpp:1041-1086 | one pass from the rotating start; what waits goes behind what arrived, in the order of the pass |
| Scheduler.AllWait | src/core/engine_impl.cpp:1041-1086 | a pass in which everybody goes on waiting only rotates the queue |
| Scheduler.EachGoesFirstOnce | src/core/engine_impl.cpp:1043-1057 | over any n passes that nobody joins and in which n pieces go on waiting, each goes first exactly once |
| Scheduler.FirstAgainIff | src/core/engine_impl.cpp:1038-1086 | a piece that went first and goes on waiting is first again exactly if one piece arrived in a pass over several, or none did and nobody else goes on waiting |
| Scheduler.OneArrivalPerPassPinsTheFirst | src/core/engine_impl.cpp:1038-1086 | from any queue of two or more and for any sequence of new pieces, one arriving in each pass, a run in which the same piece is always first |
| Codec.TailRoundTrip | src/core/region_impl.cpp:59-66 | a counted list of entries comes back exactly if its count and lengths fit 16 bits |
| Codec.TailIsExact | src/core/region_impl.cpp:99-122 | every cut through such a list is refused |
| Codec.ParsedTail | src/core/region_impl.cpp:99-122 | whatever parses is the encoding of what it parses to |
| Codec.ReadFields | src/core/region_impl.cpp:71-97 | fields read off a moving position are the unpacked ones |
| Codec.ReadItem | src/core/region_impl.cpp:106-120 | one entry at a position, or malformed, never reading past the end |
| Codec.WriteTail | src/core/region_impl.cpp:59-66 | pushes the count and the entries |
| Descriptor.EncodeDescriptor | src/core/region_impl.cpp:44-67 | the encoding at the current version |
| Descriptor.DecodeDescriptor | src/core/region_impl.cpp:69-123 | exactly what Decode says, for every buffer |
| Descriptor.DescriptorRoundTrip | src/core/region_impl.cpp:44-123 | decoding an encoding gives the descriptor back at version 2.0 exactly if the counts and lengths fit 16 bits |
| Descriptor.DescriptorIsExact | src/core/region_impl.cpp:69-123 | trailing bytes are refused, and every strict prefix but the bare fixed part |
| Descriptor.DecodedIsEncoded | src/core/region_impl.cpp:69-123 | whatever decodes is the encoding of what it decodes to, or its bare fixed part |
| Metadata.LocalMetadata | src/core/engine_impl.cpp:445-484 | the envelope of what there is to offer, and an error for nothing |
| Metadata.ReadMetadata | src/core/engine_impl.cpp:515-579 | exactly what Decode says, for every blob |
| Metadata.EnvelopeRoundTrip | src/core/engine_impl.cpp:445-579 | an envelope comes back exactly if its counts and lengths fit 16 bits |
| Metadata.EnvelopeIsExact | src/core/engine_impl.cpp:515-579 | trailing bytes are refused; a cut before the version ends reads as a transport's own bytes, any later cut is refused |
| Metadata.MagicMeans | src/core/engine_impl.cpp:515-545 | on the bytes: exactly those shorter than 32 or without the four magic bytes are a transport's own, and exactly those with another major version are unsupported |
| RegCache.CoversMeans | src/core/region_impl.cpp:125-147 | covering means the same device, every byte inside, every right held, remote rights equal |
| RegCache.CoversIff | src/core/region_impl.cpp:125-147 | and that is all it means |
| RegCache.FindRegistration | src/core/engine_impl.cpp:186-194 | the first cached registration that covers, or none |
| RegCache.EvictOver | src/core/engine_impl.cpp:196-216 | at or under the bound nothing changes; over it exactly the excess goes as far as there are entries nothing else holds, oldest first, and exactly what went is on its way out |
| RegCache.EvictionSparesUsed | src/core/engine_impl.cpp:201-216 | only entries nothing else holds go, and more than the bound stay only if all are in use |
| RegCache.EvictsTheExcess | src/core/engine_impl.cpp:196-216 | the same of the function every run uses, for every cache and bound |
| RegCache.HandleIsMade | src/core/engine_impl.cpp:262-315 | registering what nothing cached covers ends in a handle on a new registration of exactly that |
| RegCache.CacheIsReleased | src/core/engine_impl.cpp:422-440 | releasing the cache leaves in it only what is in use |
| RegCache.StepKeeps | src/core/engine_impl.cpp:247-315 | finding, creating, caching, handing out, dropping and releasing keep registrations alive exactly while referred to |
| RegCache.HandlesAreCovered | src/core/engine_impl.cpp:247-315 | in every run a handle's registration is live and covers what it was registered for |
| RegCache.KeysGivenBackOnce | src/core/engine_impl.cpp:285-300 | every provider key is given back once when the last reference goes, and not before |

## Left out

- Device backends, topology, host memory mapping and the UCX transport: their meaning lies in runtimes and libraries outside the repository.
- Queue-pair bring-up, GID selection, listening, dialling and handshakes: input and output without the accounting modelled here.
- Wall-clock waits, condition variables and timeouts: a wait is a step that may be taken at any time.
- Floating-point rounding in rates, windows and lane costs: they are exact reals.
- Statistics other than the request counters; `describe`, string tables, Python bindings, benchmarks and tools.
- Ready handoffs and region invalidation notices: they are sent on the modelled channel and change no modelled state; only the ranges a handoff names are here.
- 32- and 64-bit wrap-around of counters and sequence numbers outside the codecs and work-request ids: they count in unbounded integers.
- IPC frames: the IPC provider's own framing is taken as a queue of whole frames in order, the property proved of the control channel; its header differs only in layout.
- Reconnecting: an IPC run has one connection, an RDMA connection is not replaced. An RDMA connection is not destroyed either; the budget of what it still has outstanding then stays claimed.
- Descriptor.DescriptorRoundTrip: the device index is carried as its 32-bit pattern, not as a signed number.
- Timely.PacingHolds: claims and their pacing check by connections that share a controller may interleave; the bound is stated at posts that are allowed and counts all posts before them, checked or not.
- Planning.HandoffNamesWhatIsWritten: reads one table of remote regions for the plan and for the ranges; the engine looks each region up again when it names them, and a region dropped in between is then not named.
- LifecycleProgress.EveryRequestEnds: bounds the steps there are to take; that threads and transports are scheduled to take them is not modelled.
