# Order execution of a VDA 5050 vehicle, in Dafny

This project models how a VDA 5050 v2.0.0 vehicle library executes orders, and proves what its layers promise each
other. An order arrives as lists of nodes and edges with actions. It is checked, interpreted into a stream of events,
stored as a graph with a released base and a horizon, and scheduled: actions and navigation steps are started in
order, paused, cancelled and interrupted, as sections 6.6.2, 6.6.3, 6.11 and 6.12 of VDA 5050 describe.

| files | layer |
|---|---|
| `Vda`, `Events`, `KeyOrder` | orders, groups, queue items; published events; the order in which maps are iterated |
| `ActionTasks`, `NavigationTasks` | the automaton of one action and of one navigation step, as tables and as objects |
| `ActionDialogue`, `NavigationDialogue` | what is said to and heard from one action and one navigation, which the automata implement |
| `SchedulerModel` | the nine-state scheduler as a function from state to state |
| `SchedulerOperations` | what the operations of that model do, one level at a time |
| `SchedulerMoves` | every call as a chain of guarded moves, on which the run theorems rest |
| `SchedulerAccounts`, `SchedulerOwnership`, `SchedulerIdle`, `SchedulerBlocking`, `SchedulerHistory`, `SchedulerDriving`, `SchedulerReports`, `SchedulerStatus`, `SchedulerSegments`, `SchedulerAnnouncements`, `SchedulerCoverage` | one theorem over all runs each |
| `SchedulerDialogue`, `SchedulerReported`, `SchedulerPauses`, `SchedulerCommands`, `SchedulerOutcomes` | what was published against what was reported; what a pause means; what each call tells whom; where it leads |
| `SchedulerStops`, `SchedulerTidy`, `SchedulerThrows`, `SchedulerInterrupts` | exactly when segments lead past a group; what holds between calls; exactly when calls throw and what they leave; exactly when instant groups are left waiting |
| `SchedulerExamples`, `SchedulerRefusals` | concrete runs that show what does not hold |
| `Scheduler`, `SchedulerRuns` | the scheduler as an object with shared task objects, proved to do what `SchedulerModel` says |
| `Graph`, `OrderManager` | the order graph and its manager as objects; stitching, trimming, goal, and the event handlers |
| `OrderChecks`, `Acceptance` | the order check, and what it leaves open for the interpreter |
| `Interpretation`, `Trails`, `EventSteps`, `EventIter`, `Streams`, `Itineraries` | the recursive meaning of an order; what the iterator has compared so far; its steps; the twelve-state iterator that computes the meaning; its properties; the way it describes |
| `Pipeline`, `OrderJoins`, `StoredRoutes` | across the layers: from an accepted order to whole runs and to the stored graph; several orders behind each other in the queue and in the graph |
| `OrderExamples` | concrete orders and graphs that show what does not hold |
| `BlockingQueues` | the blocking queue over its semaphore, as interleaved steps of threads |

A run of the scheduler is any sequence of its public operations: one mutex makes each of them atomic. A throw is a
result that carries the state exactly as it was at the throw; its caller goes on with the next operation. Published
events are one sequence, oldest first. The history `hist` and the batch and instant marks of tasks only record what
happened; no branch reads them. `dafny verify dfyconfig.toml` checks the project.

## Where the code does not do what one would expect

The model follows the code in each of these; the members named state the exact condition or a concrete run.

- An instant group with ceiling NONE overwrites the remembered blocking type (scheduler.cpp:665), so that a step can
  start beside a SOFT order action: `StepBesideSoft`. Exactly when, for every step and
  every action of a run with unique ids: `StepsStartExactly`; `StepsStartClear` and `InstantTrusted` say what to avoid.
- A refused instant group stays queued (scheduler.cpp:801-805) and can outlast Idle: `IdleWithInterrupt`. Exactly when
  groups are left waiting: `RunStranded`; when calls are refused: `InterruptReturns`.
- Pausing and cancelling are not atomic (scheduler.cpp:95-119): `PauseHalfDone`, `CancelHalfDone`. When they throw:
  `PauseReturns`, `CancelReturns`; exactly when nothing has changed then: `PauseLeaves`, `CancelLeaves`.
- A report can throw after it was taken, when the scheduler resumes a navigation that is not paused
  (scheduler.cpp:489-493): `ReportHalfDone`. Exactly when: `ActionReturns`, `NavigationReturns`; for the other calls
  `CommitReturns` and `UpdateReturns`.
- A second commit can put a blocking group behind a step without a hint, and a segment then leads past the group:
  `SegmentPastBlockingGroup`. It does so exactly when the queue is not stopped: `SegmentSafeExactly`,
  `RunSegmentsExactly`. Hinted queues are those that stay stopped (`HintedExactly`), `JoinHinted` says which commits
  keep them so, `CommitJoinsExactly` and `OrdersJoinExactly` say it in terms of the orders, and one order always does.
- An extension can leave a gap when the stored base ends at the largest id (graph.cpp:139-145): `WrappedStitch`, and
  exactly when: `Stitch`. A goal id can wrap likewise, in a graph that reaches from node 0 to the last two ids:
  `WrappedGoal`, and exactly when: `GoalIsNearest`.
- `Graph::update` refuses to release a horizon element in place (graph.cpp:167-184): `FitsExactly`.
- A failed extension still changes the order update id (order_manager.cpp:142-143): `ExtendGraph`. A refused
  replacement has already replaced the graph (order_manager.cpp:152-174): `ReplaceGraph`.
- The order check accepts orders that begin or end, or whose base ends, with an edge (`EdgeAtTheEnd`,
  `BaseEndsWithEdge`), and lists that do not ascend. What is missing is stated by `InterpretableExactly`. Some of them
  make the interpreter throw (`NodesOutOfTurn`), others are driven in the order they are listed
  (`CrossedOrderIsDriven`); exactly which: `WalkableExactly`, with `Interpret`. The check refuses the full range of 2^32
  ids: `CountDecides`.
- An update that is nothing but the node it continues at has the actions of that node performed again
  (functional.cpp:354-358): exactly when, `PiecesMakeWhole`.
- Behind a stored base that ends with an edge, the check refuses the node that could be stitched (order.cpp:182):
  `NextNodeIsRefused`, and exactly when: `CheckOrderAppend`.
- An update whose stitching node is not released is accepted (`HorizonUpdate`) and stored before its announcement
  throws, and the vehicle then stands on a horizon node: `HorizonUpdateIsStored`, and exactly when: `AnnouncesExactly`.

## Model

| member | source | states |
|---|---|---|
| ActionTasks.EffectCounts | src/vda5050++/core/order/action_task.cpp:91-294 | Of the effects of all action states, exactly the two terminal ones publish ActionForget, exactly the initializing one publishes ActionStart, and none reports a passed node or an order status. |
| ActionTasks.ActionTask.Transition | src/vda5050++/core/order/action_task.cpp:307-314 | A transition is taken by exactly the states listed for it; a refused one is a throw that changes nothing. What is published depends on the transition alone: FINISHED with the result, FAILED, RUNNING, PAUSED or INITIALIZING for a report or the start, the passed-on command for a command. |
| NavigationTasks.EffectCounts | src/vda5050++/core/order/navigation_task.cpp:90-290 | Only completing a step reports a passed node, and it is the goal of the step; no navigation state starts or forgets an action. |
| NavigationTasks.NavigationTask.Transition | src/vda5050++/core/order/navigation_task.cpp:311-322 | As for actions; a pause, resume or cancel is passed on as just that, and a report of a node is taken only for the goal of the step, which it completes. |
| NavigationTasks.NavigationTask.SetSegment | src/vda5050++/core/order/navigation_task.cpp:306-309 | Changes the segment and nothing else of the task. |
| SchedulerMoves.PathApply | src/vda5050++/core/order/scheduler.cpp:680-838 | Every public operation, returning or throwing and from every state, is the acceptance of its arguments followed by a chain of eleven kinds of guarded moves; queues are cleared outside a cancel only after a navigation failure, and only a cancel in Idle changes the state unannounced. The run theorems rest on this decomposition. |
| SchedulerAccounts.Conservation | src/vda5050++/core/order/scheduler.cpp:390-427 | In every run, with throws: each action handed over is queued, live in the task store or forgotten, with exact counts (nothing lost, nothing doubled); ActionStart was published once per stored task. |
| SchedulerAccounts.EachActionOnce | src/vda5050++/core/order/scheduler.cpp:532-539 | For an id handed over once: it is in exactly one of queued, live, forgotten; ActionForget is published exactly once when it is done or cleared and never otherwise; ActionStart at most once, never while it is queued. |
| SchedulerAccounts.ClearBooks | src/vda5050++/core/order/scheduler.cpp:390-427 | Clearing the queues, with or without keeping the steps up to a stop, forgets exactly the queued actions. |
| SchedulerDialogue.StatusReported | src/vda5050++/core/order/action_task.cpp:91-294 | In every run with unique ids the last status published for an action that was started is the one due after the reports taken from it: INITIALIZING at first, then RUNNING, PAUSED, FINISHED with the result or FAILED as the last report says, a repeated initialization aside. It is FINISHED with a result, or FAILED, if and only if the last report says so. |
| SchedulerDialogue.SpokenInOrder | src/vda5050++/core/order/action_task.cpp:91-294 | In every run with unique ids what is said to and about an action is in order: INITIALIZING and the start first and once, a resume only while it is PAUSED, nothing but the end once it was told to cancel, and nothing behind the end. |
| SchedulerDialogue.ForgottenReported | src/vda5050++/core/order/action_task.cpp:246-294 | An action that was started is forgotten if and only if the last report taken from it is that of its end. |
| SchedulerReported.ReportPublishes | src/vda5050++/core/order/scheduler.cpp:758-774 | A report or command for an action is taken if and only if the action is active and its state has the transition; it is then announced first of all, an end directly before the forgetting. A call is refused when it throws and changes nothing. |
| SchedulerReported.CompletesExactly | src/vda5050++/core/order/navigation_task.cpp:93-290 | A report of a node is taken if and only if the vehicle is under way and the node is the goal of the step; it is then published as the last node. No other report passes a node. |
| SchedulerReported.RunFits | src/vda5050++/core/order/navigation_task.cpp:77-290 | In every run the state of the navigation fits the reports taken: paused, or told to resume, only when the last report was that it is paused, in progress again only when it was that it resumed, and between two steps stands the report of the end of the first. |
| SchedulerCommands.CommandsExactly | src/vda5050++/core/order/scheduler.cpp:680-838 | The exact sequence of pauses, resumes and cancels that each call tells actions and navigation, throws included: to the running, paused or active tasks in the order of their ids up to the first that refuses, then to the navigation; an instant group first pauses a navigation in its way, then cancels the HARD actions, or all if it is HARD; and the navigation is resumed if and only if the last task that interrupts it has ended and it is paused. |
| SchedulerCommands.ReturningReachesAll | src/vda5050++/core/order/scheduler.cpp:95-119 | A pause, resume or cancel that returns has told every one of the tasks. |
| SchedulerOwnership.RunOwned | src/vda5050++/core/order/scheduler.cpp:429-494 | In every run with unique ids the running and the paused map are disjoint and make up the active map, every task that is not terminal is in the active map, and every live blocking instant action is in the navigation-interrupting map. |
| SchedulerOwnership.UpdateTasksSplits | src/vda5050++/core/order/scheduler.cpp:429-476 | After updateTasks the paused map holds exactly the active tasks that have paused, or were told to resume since, and the running map the others; none is finished or failed, and a navigation task that is done or failed is gone. |
| SchedulerOwnership.PausingCompletes | src/vda5050++/core/order/scheduler.cpp:241-256 | Whenever Pausing becomes Paused, every active action has paused, or was told to resume since, and so has the navigation if there is one. |
| SchedulerPauses.PausingReported | src/vda5050++/core/order/scheduler.cpp:241-256 | In every run with unique ids, when a call takes the scheduler from Pausing to Paused, each active action was last published as PAUSED and its last report says so, and the last report about a navigation that is there says so too. |
| SchedulerPauses.ResumingReported | src/vda5050++/core/order/scheduler.cpp:202-215 | When a call takes the scheduler out of Resuming, no active action and no navigation has last reported that it is paused, unless it is told to cancel. |
| SchedulerPauses.RunPausedSaid | src/vda5050++/core/order/scheduler.cpp:430-455 | In every run with unique ids each action in the paused map was last published as PAUSED. |
| SchedulerIdle.IdleIsDrained | src/vda5050++/core/order/scheduler.cpp:731-746 | After every operation of every run with unique ids, returning or throwing, Idle implies an empty receive queue, four empty task maps and no navigation task: no committed work is stranded. Idle-paused implies that nothing is active. |
| SchedulerIdle.RunSettled | src/vda5050++/core/order/scheduler.cpp:731-746 | In every run, even with repeated ids: in the idle states nothing is active or driving and no interrupting task has ended, and in Idle nothing that is queued can start. |
| SchedulerIdle.FetchBlocked | src/vda5050++/core/order/scheduler.cpp:496-591 | Fetching stops only at an empty queue or at an item whose guards do not let it start. |
| SchedulerIdle.CancelIdleReturns | src/vda5050++/core/order/scheduler.cpp:165-176 | The update that follows a cancel in Idle returns and announces Idle; tasks, active actions, navigation and all queues are as before, the segment is dropped, and only the running and paused maps may be sorted anew. |
| SchedulerOutcomes.UpdateLeads | src/vda5050++/core/order/scheduler.cpp:43-358 | The state an update that returns leads to, exactly, by what is then active, driving, resting or waiting. |
| SchedulerOutcomes.UpdateFetches | src/vda5050++/core/order/scheduler.cpp:496-591 | An update that returns from a state in which work is started leaves nothing in front of the queue that could start, and the announced segment reaches as far as the queue lets it; a resuming scheduler that goes on starts work in the same call. |
| SchedulerOutcomes.CancelKeeps | src/vda5050++/core/order/scheduler.cpp:390-427 | A cancel that returns from Active or Paused leaves in the queue exactly the steps up to the first stop hint, from IdlePaused nothing; waiting instant groups are dropped and staged items stay. |
| SchedulerOutcomes.KeptEndsSegment | src/vda5050++/core/order/scheduler.cpp:390-427 | The last step a cancel keeps is the one a segment over the queue ends at. |
| SchedulerOutcomes.FailureClears | src/vda5050++/core/order/scheduler.cpp:466-476 | The report that the navigation has failed empties both queues and ends the step, in every state; the call returns. |
| SchedulerBlocking.RunExclusive | src/vda5050++/core/order/scheduler.cpp:515-541 | In every run whose groups carry their ceilings (with pauses, cancels, instant groups and throws), if an active task is HARD then all active tasks come from the same group. |
| SchedulerBlocking.InstantHardExclusive | src/vda5050++/core/order/scheduler.cpp:643-676 | Starting an instant group keeps this exclusivity. |
| SchedulerBlocking.HardRunsAlone | src/vda5050++/core/order/scheduler.cpp:515-541 | A HARD action whose group holds nothing else is the only active action. |
| SchedulerHistory.RunGuarded | src/vda5050++/core/order/scheduler.cpp:515-570 | The barrier: in every run with unique ids an order group was started only when every earlier action had ended, a blocking one only when no navigation task was there; a step was started only when no navigation task was there and no blocking instant action was live; an instant group only when no HARD action was live, none at all if it is HARD, and the navigation rested or was absent if it blocks. |
| SchedulerHistory.RunFifo | src/vda5050++/core/order/scheduler.cpp:815-837 | In every run without cancel and navigation failure, what was started, then the receive queue, then the staged items is exactly the enqueued sequence, in order. |
| SchedulerDriving.InstantTrusted | src/vda5050++/core/order/scheduler.cpp:643-676 | The exact condition under which starting an instant group keeps the remembered blocking type trustworthy: its ceiling is not NONE, or no blocking action is live. |
| SchedulerDriving.UntrustedStarts | src/vda5050++/core/order/scheduler.cpp:555-570 | After an instant group that breaks the condition, and until the next group starts, active actions hold no step back: a step is ready to start exactly when there is no navigation task and no interrupting task. |
| SchedulerDriving.StepsStartExactly | src/vda5050++/core/order/scheduler.cpp:543-570 | The exact condition, in every run whose groups carry their ceilings and whose ids are unique, for every recorded start of a step and every task: the task is a live SOFT or HARD action at that moment if and only if it has not ended and the group started last before the step is an instant group of ceiling NONE that was itself started while the task was live and blocking. |
| SchedulerDriving.StepsStartClear | src/vda5050++/core/order/scheduler.cpp:543-570 | Hence a step starts with no blocking action live when the group started last before it is no NONE instant group started beside one, whatever was started earlier. |
| SchedulerDriving.RunNoBlockedDriving | src/vda5050++/core/order/scheduler.cpp:515-570 | In every run without instant groups no SOFT or HARD action is live while a navigation task exists. |
| SchedulerStatus.StatusIsCurrent | src/vda5050++/core/order/scheduler.cpp:680-746 | After every operation of every run, returning or throwing, the last published order status is the state of the scheduler, although cancelling in Idle and staying in a state do not notify. |
| SchedulerStatus.CancelIdleAnnounced | src/vda5050++/core/order/scheduler.cpp:29-31 | A cancel of the idle scheduler enters Canceling unannounced, and the same call ends in an announced Idle, because nothing is active and nothing queued can start. |
| SchedulerReports.RunRoute | src/vda5050++/core/order/scheduler.cpp:390-427 | In every run the passed nodes, the current goal and the goals still queued, in this order, are the goals handed over with some dropped: no node is passed twice for one step, and none out of order. |
| SchedulerReports.PassedAscends | src/vda5050++/core/order/navigation_task.cpp:278-290 | The node ids published on completion follow the goals handed over in every run; where those ascend, as in one order with ascending lists, the published ids strictly ascend. |
| SchedulerSegments.SegmentEndAt | src/vda5050++/core/order/scheduler.cpp:576-589 | The prefetch loop ends at the first queued step with a stop hint, or at the last step when none has one. |
| SchedulerSegments.PrefetchSafe | src/vda5050++/core/order/scheduler.cpp:543-591 | If every blocking group is behind a hinted step, the announced segment ends at a queued step and no group queued before that step blocks. |
| SchedulerSegments.JoinHinted | src/vda5050++/core/order/scheduler.cpp:826-837 | Two queues joined are hinted (each step with a blocking group before the next step has a hint) if and only if both are and, should the second begin with a blocking group, the last step of the first is hinted. |
| SchedulerStops.SegmentSafeExactly | src/vda5050++/core/order/scheduler.cpp:575-589 | For a queue that starts with a step and has different goals, the segment found by the prefetch leads past no blocking group if and only if the queue is stopped: before every blocking group with a step behind it there is a step with a hint. |
| SchedulerStops.HintedExactly | src/vda5050++/core/order/scheduler.cpp:826-837 | A queue is hinted if and only if it is stopped whatever has been fetched from its front and when one more step is committed behind it: the form of the condition that survives fetching and later commits. |
| SchedulerStops.RunSegmentsExactly | src/vda5050++/core/order/scheduler.cpp:543-619 | In every run in which no commit brings a goal that is in the queue already (a later order may well start again at 0), with any updates, cancels, failures and throws, each announced segment or patch leads past no queued blocking group if and only if the queue was stopped at that moment. |
| SchedulerStops.AscendingSegmentsExactly | src/vda5050++/core/order/scheduler.cpp:543-619 | In particular in every run whose navigation goals ascend. |
| SchedulerSegments.RunSegmentsSafe | src/vda5050++/core/order/scheduler.cpp:543-619 | In every run whose commits join that way, with any cancels, pauses, failures, instant actions and throws, no announced segment or patch leads past a queued blocking group. |
| SchedulerAnnouncements.RunFaithful | src/vda5050++/core/order/navigation_task.cpp:120-132 | The navigation is told exactly the recorded steps and segments, in that order: the trace restricted to announcements equals the history, in every run. It ties the segment theorems to what is published. |
| SchedulerCoverage.EveryStepCovered | src/vda5050++/core/order/scheduler.cpp:543-619 | In every run each step the vehicle is told lies in the segment announced last, or its own is announced with it, and every other segment begins right behind the one announced last. The segment in force is the last one announced, and none once an order group started or the scheduler was idle. |
| SchedulerCoverage.StepAnnounces | src/vda5050++/core/order/scheduler.cpp:555-591 | The segment of a step is announced with it if and only if none is in force or the goal is beyond its end. |
| SchedulerCoverage.StartedAsGrouped | src/vda5050++/core/order/scheduler.cpp:515-541 | In every run the actions told to start are exactly those of the started groups, in their order. |
| SchedulerTidy.RunTidy | src/vda5050++/core/order/scheduler.cpp:680-838 | Between any two calls of any run: the idle states are settled, no navigation task has ended, Failed is never entered, and in Paused no interrupting task has ended. |
| SchedulerThrows.PauseReturns | src/vda5050++/core/order/scheduler.cpp:697-712 | pause returns if and only if the scheduler is idle, or active with no navigation or one in progress and every running task in a state that can pause; a throw leaves the scheduler state as it was. |
| SchedulerThrows.PauseLeaves | src/vda5050++/core/order/scheduler.cpp:109-119 | A pause that throws leaves everything as it was if and only if the state refuses it, nothing runs, or the running task with the smallest id refuses. |
| SchedulerThrows.CancelReturns | src/vda5050++/core/order/scheduler.cpp:680-695 | Between any two calls, cancel returns if and only if the scheduler is idle or idle-paused, or it is active or paused, none of the active actions is canceling or terminal and the navigation is not canceling. |
| SchedulerThrows.CancelLeaves | src/vda5050++/core/order/scheduler.cpp:95-108 | A cancel that throws leaves everything as it was if and only if the state refuses it, nothing is active, or the active task with the smallest id refuses. |
| SchedulerThrows.ResumeReturns | src/vda5050++/core/order/scheduler.cpp:714-729 | Between any two calls, resume returns if and only if the scheduler is idle-paused, or paused with every paused task able to resume and no navigation or a paused one; the update that follows does not throw. |
| SchedulerThrows.ResumeLeaves | src/vda5050++/core/order/scheduler.cpp:275-285 | A resume that throws leaves everything as it was if and only if the state refuses it, nothing is paused, or the paused task with the smallest id refuses. |
| SchedulerThrows.UpdateReturns | src/vda5050++/core/order/scheduler.cpp:731-746 | An update throws if and only if, in Active, Canceling, Resuming, Pausing or Paused, all interrupting tasks have ended and the navigation that is then to resume is there and not paused. |
| SchedulerThrows.ActionReturns | src/vda5050++/core/order/scheduler.cpp:758-774 | A report about an action returns if and only if the action is active, its automaton has the transition, and it is not the report that ends the last interrupting task while, in one of those five states, the navigation is there and not paused. |
| SchedulerThrows.NavigationReturns | src/vda5050++/core/order/scheduler.cpp:776-788 | A report about the navigation returns if and only if there is a navigation task, its automaton has the transition, and it does not leave the task unpaused while, in one of those states, all interrupting tasks have ended. |
| SchedulerThrows.CommitReturns | src/vda5050++/core/order/scheduler.cpp:826-837 | A commit returns if and only if an update would, whatever was staged. |
| SchedulerThrows.DoInterruptReturns | src/vda5050++/core/order/scheduler.cpp:621-641 | The interruption succeeds if and only if a blocking front group finds the navigation absent or in progress and all tasks it conflicts with can be cancelled. |
| SchedulerThrows.InterruptReturns | src/vda5050++/core/order/scheduler.cpp:790-813 | enqueueInterruptActions returns if and only if the scheduler is idle or active and the group at the front of the queue can interrupt; after a throw the new group is still queued and the scheduler state is the old one. |
| SchedulerThrows.InterruptLeaves | src/vda5050++/core/order/scheduler.cpp:621-641 | One that throws leaves everything but the interrupt queue as it was if and only if the state refuses it, the navigation has to pause and cannot, or need not and the first conflicting task refuses. |
| SchedulerInterrupts.ApplySettlesQueue | src/vda5050++/core/order/scheduler.cpp:790-813 | One call leaves groups waiting outside Interrupting if and only if it is a group refused there, or some waited already and the call is no accepted group, clearing cancel or navigation failure; the queue then is the old one with the refused group behind it. |
| SchedulerInterrupts.RunStranded | src/vda5050++/core/order/scheduler.cpp:801-805 | A run ends with groups waiting outside Interrupting, where no update starts them, if and only if one of its calls refused a group outside Interrupting and no later call drained the queue. |
| SchedulerInterrupts.AcceptedGroupsStart | src/vda5050++/core/order/scheduler.cpp:347-358 | In a run in which no instant group throws, groups wait only in Interrupting; an idle scheduler has none. |
| SchedulerRefusals.PauseHalfDone | src/vda5050++/core/order/scheduler.cpp:109-119 | A concrete run after which pause tells a running action to pause and then throws at the navigation. |
| SchedulerRefusals.CancelHalfDone | src/vda5050++/core/order/scheduler.cpp:95-108 | A concrete run after which cancel tells an action to cancel and then throws at another one. |
| SchedulerRefusals.ReportHalfDone | src/vda5050++/core/order/scheduler.cpp:489-493 | A concrete run after which the report that an interrupting action has finished is taken and then throws, because the vehicle resumed on its own. |
| SchedulerExamples.IdleWithInterrupt | src/vda5050++/core/order/scheduler.cpp:801-805 | A concrete run after which the scheduler is idle with a refused instant group still in its interrupt queue. |
| SchedulerExamples.StepBesideSoft | src/vda5050++/core/order/scheduler.cpp:665 | A concrete run in which a NONE instant group overwrites the blocking type and a step starts while a SOFT order action is live. |
| SchedulerExamples.SegmentPastBlockingGroup | src/vda5050++/core/order/scheduler.cpp:593-619 | A concrete run in which a second commit puts a blocking group behind a step without a hint and the patched segment reaches past the group. |
| Schedulers.Scheduler.TransitionTasks | src/vda5050++/core/order/scheduler.cpp:109-119 | The loop over a task map takes the transition for each task in key order and ends at the first throw, with the earlier transitions kept. |
| Schedulers.Scheduler.ClearQueues | src/vda5050++/core/order/scheduler.cpp:390-427 | Both queues end empty, except for the steps up to the first stop when asked; the queued actions are forgotten in the order of the queues. |
| Schedulers.Scheduler.UpdateTasks | src/vda5050++/core/order/scheduler.cpp:429-476 | The three erase-while-iterating loops leave the maps that UpdateTasksSplits is about, on the same shared task objects; a failed navigation clears the queues. |
| Schedulers.Scheduler.MovePaused | src/vda5050++/core/order/scheduler.cpp:430-442 | The first loop moves exactly the paused tasks out of the running map. |
| Schedulers.Scheduler.MoveRunning | src/vda5050++/core/order/scheduler.cpp:444-455 | The second loop moves exactly the tasks that run again out of the paused map. |
| Schedulers.Scheduler.DropEnded | src/vda5050++/core/order/scheduler.cpp:457-465 | The erase loop keeps exactly the tasks that have not ended. |
| Schedulers.Scheduler.UpdateTasksInterruptMapping | src/vda5050++/core/order/scheduler.cpp:478-494 | Drops the ended interrupting tasks, and resumes the navigation exactly when the last one went. |
| Schedulers.Scheduler.UpdateFetchNext | src/vda5050++/core/order/scheduler.cpp:496-513 | The mutually recursive fetch, in place, reaches the value the run theorems speak of, and terminates on the length of the queue. |
| Schedulers.Scheduler.FetchGroup | src/vda5050++/core/order/scheduler.cpp:515-541 | The group branch of the fetch: nothing changes when an action is active or a blocking group meets a navigation task; otherwise all its actions start and fetching goes on. |
| Schedulers.Scheduler.FetchStep | src/vda5050++/core/order/scheduler.cpp:543-591 | The step branch of the fetch: a patch of the segment while driving, nothing while an interrupting action or a blocking action is there, and otherwise a new navigation task. |
| Schedulers.Scheduler.Drive | src/vda5050++/core/order/scheduler.cpp:555-591 | Creates and starts the navigation task of the front step; it carries a new segment unless the current one already covers its goal. |
| Schedulers.Scheduler.PrefetchEnd | src/vda5050++/core/order/scheduler.cpp:575-584 | The prefetch loop computes the end that SegmentEndAt describes. |
| Schedulers.Scheduler.DoPatchSegment | src/vda5050++/core/order/scheduler.cpp:593-619 | Patches the current segment, and announces the growth when it grew. |
| Schedulers.Scheduler.DoInterrupt | src/vda5050++/core/order/scheduler.cpp:621-641 | Pauses the navigation before a blocking group and cancels the conflicting tasks in key order, up to the first throw. |
| Schedulers.Scheduler.HasConflict | src/vda5050++/core/order/scheduler.cpp:656-662 | Finds a conflict if and only if an active task or the group is HARD. |
| Schedulers.Scheduler.UpdateFetchNextInterrupt | src/vda5050++/core/order/scheduler.cpp:643-676 | Starts the front instant group exactly when the navigation allows it and no conflict is left; its blocking actions become interrupting ones. |
| Schedulers.Scheduler.CancelActiveTasks | src/vda5050++/core/order/scheduler.cpp:95-108 | Cancels the active tasks and the navigation and clears the queues; what happened before a throw stays. |
| Schedulers.Scheduler.PauseActiveTasks | src/vda5050++/core/order/scheduler.cpp:109-119 | Pauses the running tasks and the navigation; what happened before a throw stays. |
| Schedulers.Scheduler.ResumePausedTasks | src/vda5050++/core/order/scheduler.cpp:275-285 | Resumes the paused tasks and the navigation; what happened before a throw stays. |
| Schedulers.Scheduler.IdleUpdate | src/vda5050++/core/order/scheduler.cpp:43-52 | The update of Idle. |
| Schedulers.Scheduler.ActiveUpdate | src/vda5050++/core/order/scheduler.cpp:127-139 | The update of Active: back to Idle exactly when nothing is active or driving after fetching. |
| Schedulers.Scheduler.CancelingUpdate | src/vda5050++/core/order/scheduler.cpp:165-176 | The update of Canceling. |
| Schedulers.Scheduler.ResumingUpdate | src/vda5050++/core/order/scheduler.cpp:202-215 | The update of Resuming: Active once nothing is paused. |
| Schedulers.Scheduler.PausingUpdate | src/vda5050++/core/order/scheduler.cpp:241-256 | The update of Pausing: Paused once nothing runs and nothing drives. |
| Schedulers.Scheduler.PausedUpdate | src/vda5050++/core/order/scheduler.cpp:289-293 | The update of Paused. |
| Schedulers.Scheduler.InterruptingUpdate | src/vda5050++/core/order/scheduler.cpp:347-358 | The update of Interrupting. |
| Schedulers.Scheduler.Cancel | src/vda5050++/core/order/scheduler.cpp:680-695 | cancel in every state, with its throw and its follow-up update. |
| Schedulers.Scheduler.Pause | src/vda5050++/core/order/scheduler.cpp:697-712 | pause likewise. |
| Schedulers.Scheduler.Resume | src/vda5050++/core/order/scheduler.cpp:714-729 | resume likewise. |
| Schedulers.Scheduler.Update | src/vda5050++/core/order/scheduler.cpp:731-746 | update likewise, with the second round that leaving Resuming asks for. |
| Schedulers.Scheduler.ActionTransition | src/vda5050++/core/order/scheduler.cpp:758-774 | A transition for an unknown action is a throw; any other reaches the task and is followed by an update. |
| Schedulers.Scheduler.NavigationTransition | src/vda5050++/core/order/scheduler.cpp:776-788 | A transition without a navigation task is a throw; any other reaches it and is followed by an update. |
| Schedulers.Scheduler.EnqueueInterruptActions | src/vda5050++/core/order/scheduler.cpp:790-813 | The group is queued before the state can refuse it. |
| Schedulers.Scheduler.Enqueue | src/vda5050++/core/order/scheduler.cpp:815-824 | Stages one item behind the others and always returns. |
| Schedulers.Scheduler.CommitQueue | src/vda5050++/core/order/scheduler.cpp:826-837 | Moves the staged items behind the queued ones, in order, and updates. |
| SchedulerRuns.Execute | src/vda5050++/core/order/scheduler.cpp:680-838 | Any sequence of calls on a new scheduler object, throws included, leaves the object in the state of the model run; its fields and its trace then meet the status, partition and idle theorems. |
| SchedulerRuns.AfterRun | src/vda5050++/core/order/scheduler.cpp:429-476 | What the run theorems say about the model holds for the fields of the object: status current, maps partitioned, idle drained. |
| Graphs.FitsExactly | src/vda5050++/core/state/graph.cpp:167-184 | With the base before the horizon, the test of the two neighbours in update is exact for the whole map: it accepts an element if and only if the map with it still has its base before its horizon and no horizon element is released in place. |
| Graphs.CleanIsBase | src/vda5050++/core/state/graph.cpp:158-165 | Removing the horizon of any sound graph with a base leaves exactly the released elements. |
| Graphs.Stitch | src/vda5050++/core/state/graph.cpp:128-156 | Any accepted extension of a sound graph by a sound graph is the old base with the extension laid over it: the extension wins at an overlap and the old horizon is gone. It is contiguous with its base first, but for the one case in which the id after the base wraps to 0; there it is so if and only if the extension reaches up to the stored graph. |
| Graphs.WrappedStitch | src/vda5050++/core/state/graph.cpp:139-145 | A concrete accepted extension in that case, whose result has a gap. |
| Graphs.DeltaIsGrowth | src/vda5050++/core/state/graph.cpp:128-156 | When the extension begins in the base, the part between the two returned bounds is exactly the new base minus the old base, if and only if the stored base ends below the largest id or nothing released in the extension was stored before. |
| Graphs.VehicleStays | src/vda5050++/core/state/graph.cpp:128-156 | After any accepted extension the vehicle's node is still a released node, if and only if an extension that replaces that node replaces it by a released one; without the wrap only its first element can. |
| Graphs.BaseIsPrefix | src/vda5050++/core/state/graph.cpp:194-208 | The elements up to the last base element are exactly the base. |
| Graphs.FromSound | src/vda5050++/core/state/graph.cpp:331-338 | Trimming behind the vehicle keeps the graph contiguous and makes it start at the vehicle's node. |
| Graphs.GoalIsNearest | src/vda5050++/core/state/graph.cpp:272-293 | The current goal is the nearest released node ahead of the vehicle, or absent when none is ahead, if and only if the vehicle is not at one of the last two ids or there is no released node 0 for the goal id to wrap to. |
| Graphs.ReplayAscending | src/vda5050++/core/state/graph.cpp:310-338 | Along any strictly ascending list of released nodes every arrival is accepted; afterwards the graph is sound, starts at the last node and is what lies from it on. |
| Graphs.AcceptsExactly | src/vda5050++/core/state/graph.cpp:118-126 | Building a graph from a list of distinct elements succeeds if and only if the whole list has its base before its horizon, whatever the order of the list. |
| Graphs.ListedElements | src/vda5050++/core/state/graph.cpp:340-362 | The listed nodes and edges are all nodes and edges of the graph, each once and ascending. |
| Graphs.Graph.Create | src/vda5050++/core/state/graph.cpp:118-126 | A graph of the listed elements, or a throw for an empty list or a rejected element. |
| Graphs.Graph.Update | src/vda5050++/core/state/graph.cpp:167-184 | Inserts or replaces the element exactly when the neighbours allow it and changes nothing otherwise; sound keys and base-first stay. |
| Graphs.Graph.CleanHorizon | src/vda5050++/core/state/graph.cpp:158-165 | Erases what is behind the last base element; a graph without a base throws and keeps its elements. |
| Graphs.Graph.Extend | src/vda5050++/core/state/graph.cpp:128-156 | Stitches in place, or throws and changes neither elements nor vehicle; returns the first new id and the last id. |
| Graphs.Graph.SetAgvLastNodeSequenceId | src/vda5050++/core/state/graph.cpp:310-329 | Accepts exactly the released nodes of the graph. |
| Graphs.Graph.Trim | src/vda5050++/core/state/graph.cpp:331-338 | Erases exactly what is behind the vehicle. |
| Graphs.Graph.Subgraph | src/vda5050++/core/state/graph.cpp:231-255 | The elements between two known ids, with the vehicle if it is among them; a throw otherwise. |
| Graphs.Graph.GetNodes | src/vda5050++/core/state/graph.cpp:340-350 | Yields the nodes that ListedElements is about. |
| Graphs.Graph.GetEdges | src/vda5050++/core/state/graph.cpp:352-362 | Yields the edges that ListedElements is about. |
| OrderManagers.OrderManager.AddNewAction | src/vda5050++/core/state/order_manager.cpp:17-46 | A known id is a throw that changes nothing; otherwise the action is stored and waiting. Actions and action states keep the same ids. |
| OrderManagers.OrderManager.ClearActions | src/vda5050++/core/state/order_manager.cpp:258-264 | Both maps end empty. |
| OrderManagers.OrderManager.CancelWaitingActions | src/vda5050++/core/state/order_manager.cpp:241-256 | Exactly the waiting actions fail. |
| OrderManagers.OrderManager.ReplaceGraph | src/vda5050++/core/state/order_manager.cpp:152-174 | Installs the graph first; a throw for a missing released node 0 comes after that. |
| OrderManagers.OrderManager.ExtendGraph | src/vda5050++/core/state/order_manager.cpp:135-150 | Extends the stored graph or throws; the update id has changed in either case. |
| OrderManagers.OrderManager.SetAgvLastNode | src/vda5050++/core/state/order_manager.cpp:189-204 | Succeeds exactly for a released node of the stored graph; then the graph starts at it, keeps its base first, and it is the last node. A throw changes nothing. |
| OrderManagers.HandleGraphReplacement | src/vda5050++/core/state/state_event_handler.cpp:40-57 | Succeeds exactly for a graph with a base that holds a released node 0; it is stored as a copy with the vehicle on node 0 and its whole base is announced. Without a base nothing changes; without node 0 the graph is stored and nothing is announced. |
| OrderManagers.HandleGraphExtension | src/vda5050++/core/state/state_event_handler.cpp:15-38 | Announces exactly the part between the returned bounds, nothing when that is empty, and says what is left behind by each throw. |
| OrderManagers.AnnouncesExactly | src/vda5050++/core/state/state_event_handler.cpp:15-38 | The announcement of a stitched update succeeds if and only if its first element is released; otherwise a vehicle at the stitching node now stands on a horizon node. |
| OrderChecks.CheckOrderGraphConsistency | src/vda5050++/core/checks/order.cpp:15-122 | Finds nothing if and only if there are nodes, node ids are even and edge ids odd, all ids are distinct, they fill an interval, every base id is below every horizon id, and there are fewer than 2^32 elements; each finding has its cause. |
| OrderChecks.CheckNodes | src/vda5050++/core/checks/order.cpp:29-55 | The first loop collects exactly the base and horizon ids of the nodes, or stops at a node that is odd or known. |
| OrderChecks.CheckEdges | src/vda5050++/core/checks/order.cpp:57-83 | The second loop does so for the edges. |
| OrderChecks.CheckIds | src/vda5050++/core/checks/order.cpp:85-121 | The count and the comparison of the extremes decide contiguity and base-before-horizon of the whole order. |
| OrderChecks.FillsByCount | src/vda5050++/core/checks/order.cpp:85-106 | Pigeonhole: a finite set fills the interval between its extremes if and only if it has as many members as the interval. |
| OrderChecks.CountDecides | src/vda5050++/core/checks/order.cpp:85-106 | In 32-bit arithmetic the count decides this as well, except for the full range of ids, which wraps and is refused. |
| OrderChecks.CheckOrderAppend | src/vda5050++/core/checks/order.cpp:146-196 | The complete decision: known updates and orders without nodes are fine, another order is refused unless the scheduler is idle, a stored graph without a base throws, and all others are fine if and only if they begin at the last released element stored, or at node 0 while idle. For a consistent order that starts with a node: if and only if the stored graph can be extended by it and its base ends at a node id, or the order begins at 0 while idle. |
| OrderChecks.EndsBaseExtends | src/vda5050++/core/checks/order.cpp:176-185 | An order that starts with a node begins at the end of the stored base if and only if the stored graph can be extended by it and its base ends at an even id. |
| OrderChecks.AppendStitches | src/vda5050++/core/checks/order.cpp:146-196 | A consistent order whose first node is the last base node stitches if and only if its first element is a node. |
| OrderChecks.KindByParity | src/vda5050++/core/checks/order.cpp:29-83 | In the graph of a consistent order the even ids are its nodes and the odd ids its edges. |
| Acceptance.InterpretableExactly | src/vda5050++/core/checks/order.cpp:15-122 | A consistent order is well-formed for the interpreter if and only if its lists ascend and it begins and ends, and its base ends, with a node: what the check leaves open, exactly. |
| Acceptance.WalkableExactly | src/vda5050++/core/interpreter/functional.cpp:372-434 | Which consistent orders the interpreter comes through: exactly those with one node more than edges in which the first node comes before the first edge and, up to the first edge that is not released, every edge comes before the node listed behind it, which is released when the edge is; the lists need not ascend. |
| Acceptance.ConsistentAccepts | src/vda5050++/core/state/graph.cpp:167-184 | The collected graph takes the elements of a consistent order whatever order they are listed in: the interpreter never throws there. |
| Acceptance.CollectedGraph | src/vda5050++/core/interpreter/functional.cpp:372-434 | The graph collected while interpreting an accepted, well-formed order holds exactly the elements of the order and is sound. |
| Interpretation.CeilingIsStrongest | src/vda5050++/core/interpreter/functional.cpp:88-103 | The running ceiling ends at the strongest blocking type of the group. |
| Interpretation.GroupsAreGrouping | src/vda5050++/core/interpreter/functional.cpp:148-218 | The groups concatenate to the actions in order, each HARD action is alone, neighbouring groups cannot be merged, and each group carries its ceiling. |
| Interpretation.GroupsExactly | src/vda5050++/core/interpreter/functional.cpp:246-316 | These groups are the only grouping with those properties: a list of groups is proper and concatenates to the actions if and only if it is the computed one. |
| Interpretation.InterpretableWalks | src/vda5050++/core/interpreter/functional.cpp:396-420 | Every element of a well-formed order, consistent or not, is accepted by the collected graph when its turn comes. |
| EventIterators.EventIter.NextEvent | src/vda5050++/core/interpreter/functional.cpp:517-564 | Yields the first of the events still to come and leaves the others, ends exactly when none is left, and throws for no walkable order; what it has taken so far alternates. It terminates for every order, by a lexicographic measure over remaining nodes, state, actions and buffered groups. |
| EventIterators.EventIter.HandleInitial | src/vda5050++/core/interpreter/functional.cpp:338-370 | Clear for update id 0, and the skip of the stitching node of an update that has edges; keeps what is still to be yielded, or yields its first event; it throws for no walkable order, and an order it comes to the end of alternates as far as it looked. |
| EventIterators.EventIter.HandlePreNodeAction | src/vda5050++/core/interpreter/functional.cpp:220-244 | Entering a node: keeps what is still to be yielded, or yields its first event; it throws for no walkable order, and an order it comes to the end of alternates as far as it looked. |
| EventIterators.EventIter.HandleNodeAction | src/vda5050++/core/interpreter/functional.cpp:246-286 | Taking a node action into the group, a HARD one only into an empty one: keeps what is still to be yielded, or yields its first event; it throws for no walkable order, and an order it comes to the end of alternates as far as it looked. |
| EventIterators.EventIter.HandleNodeActionQueue | src/vda5050++/core/interpreter/functional.cpp:288-316 | Queueing the group of a node: keeps what is still to be yielded, or yields its first event; it throws for no walkable order, and an order it comes to the end of alternates as far as it looked. |
| EventIterators.EventIter.HandlePreEdgeAction | src/vda5050++/core/interpreter/functional.cpp:122-146 | Entering an edge: keeps what is still to be yielded, or yields its first event; it throws for no walkable order, and an order it comes to the end of alternates as far as it looked. |
| EventIterators.EventIter.HandleEdgeAction | src/vda5050++/core/interpreter/functional.cpp:148-188 | Taking an edge action: keeps what is still to be yielded, or yields its first event; it throws for no walkable order, and an order it comes to the end of alternates as far as it looked. |
| EventIterators.EventIter.HandleEdgeActionQueue | src/vda5050++/core/interpreter/functional.cpp:190-218 | Queueing the group of an edge: keeps what is still to be yielded, or yields its first event; it throws for no walkable order, and an order it comes to the end of alternates as far as it looked. |
| EventIterators.EventIter.HandleActionYield | src/vda5050++/core/interpreter/functional.cpp:318-336 | Yielding the buffered groups in order: keeps what is still to be yielded, or yields its first event; it throws for no walkable order, and an order it comes to the end of alternates as far as it looked. |
| EventIterators.EventIter.HandleTransition | src/vda5050++/core/interpreter/functional.cpp:372-434 | Going on to the next node, or over the horizon: keeps what is still to be yielded, or yields its first event; it throws for no walkable order, and an order it comes to the end of alternates as far as it looked. |
| EventIterators.EventIter.TakeNext | src/vda5050++/core/interpreter/functional.cpp:398-420 | Takes the next edge and the node behind it into the graph, or throws because the graph refuses one of them. |
| EventIterators.EventIter.SkipHorizon | src/vda5050++/core/interpreter/functional.cpp:398-405 | The loop takes the whole rest of a walkable order into the graph; where it comes to the end of both lists, what is pending stays as it was. |
| EventIterators.EventIter.HandleNavigation | src/vda5050++/core/interpreter/functional.cpp:436-467 | Yielding the step with its hint before the groups: keeps what is still to be yielded, or yields its first event; it throws for no walkable order, and an order it comes to the end of alternates as far as it looked. |
| EventIterators.EventIter.HandlePreDone | src/vda5050++/core/interpreter/functional.cpp:469-515 | The remaining step and groups, and the graph event as the last one: keeps what is still to be yielded, or yields its first event; it throws for no walkable order, and an order it comes to the end of alternates as far as it looked. |
| EventIterators.Interpret | src/vda5050++/core/interpreter/interpreter_event_handler.cpp:61-92 | The driving loop over any walkable order ends normally, and the dispatched events are exactly the recursively defined stream: Clear, then section by section new actions, step, groups, and the graph. With at most one node more than edges, as in every consistent order, it ends normally for no other order. |
| EventIterators.InstantGroup | src/vda5050++/core/interpreter/interpreter_event_handler.cpp:27-54 | Every instant action is announced as new, in order. The group holds each action that does not control the scheduler as often as it is listed and no other, at ascending places of the list, with its ceiling; nothing is dispatched if and only if all actions control the scheduler. |
| Streams.StreamHintsExact | src/vda5050++/core/interpreter/functional.cpp:436-467 | In the stream of every order with one node more than edges, ascending or not, a step carries the stop hint if and only if a group with a ceiling other than NONE follows before the next step. |
| Streams.StreamGoals | src/vda5050++/core/interpreter/functional.cpp:372-434 | The navigation goals of the stream are the base nodes behind the first one, in the order they are listed; they ascend in a well-formed order. |
| Streams.StreamActions | src/vda5050++/core/interpreter/functional.cpp:148-316 | The new actions and the actions in the groups are, in order, exactly the actions of the interpreted base elements: none lost, none added. |
| Streams.StreamGroupsFine | src/vda5050++/core/interpreter/functional.cpp:148-316 | Every group of the stream carries its ceiling and a HARD action is alone in its group. |
| Streams.StreamNewFirst | src/vda5050++/core/interpreter/functional.cpp:246-286 | Every action is announced as new before its group is yielded. |
| Itineraries.StreamItinerary | src/vda5050++/core/interpreter/functional.cpp:122-467 | The items of a stream describe exactly the way of the order: each base node is reached over the edge before it, then its actions are performed, then those of the edge that leaves it; the first node is not reached, and an update with edges leaves its actions out. |
| Itineraries.StreamFrame | src/vda5050++/core/interpreter/functional.cpp:338-515 | A stream begins with the clearing of actions if and only if the order is new, and ends with its one graph event: the replacement by a new order, the extension by an update, with the graph of all its elements. |
| Itineraries.PiecesMakeWhole | src/vda5050++/core/interpreter/functional.cpp:354-362 | An order in pieces is driven as if given whole: the way of an order, new or with a step of its own, followed by that of an update at its last base node is the way of the joined order, if and only if the update has edges or its node no actions. |
| Pipeline.CarriedCeilings | src/vda5050++/core/interpreter/interpreter_event_handler.cpp:44-53 | Runs whose groups are built as the interpreter builds them, with instant groups from the handler, meet the hypotheses of the blocking theorems. |
| Pipeline.HardOrderActionAlone | src/vda5050++/core/order/scheduler.cpp:515-541 | In every state of every such run, whatever orders and updates it is given, an active HARD order action is the only active action. |
| Pipeline.HardAloneInOrders | src/vda5050++/core/order/scheduler.cpp:515-541 | Hence so in every run that is given the streams of any number of interpreted orders and updates, one after the other. |
| Pipeline.OneOrderJoins | src/vda5050++/core/order/scheduler.cpp:826-837 | One interpreted order, committed once, meets the hypothesis of the segment theorem wherever in the run this happens. |
| Pipeline.OneOrderSegmentsSafe | src/vda5050++/core/order/scheduler.cpp:543-619 | Hence in every run of one order no announced segment leads past a queued blocking group. |
| OrderJoins.StreamBlocksFirst | src/vda5050++/core/interpreter/functional.cpp:436-467 | The stream of an order begins with a blocking group if and only if a blocking action is interpreted before its first step: on the first released node or the edge behind it. |
| OrderJoins.StreamEndsHinted | src/vda5050++/core/interpreter/functional.cpp:436-467 | The last step of a stream carries the hint if and only if a blocking action is interpreted behind it, or there is no step. |
| OrderJoins.CommitJoinsExactly | src/vda5050++/core/order/scheduler.cpp:826-837 | Which orders and updates keep a hinted queue hinted, in terms of their actions: exactly those with no blocking action before their first step, and all of them behind a queue whose last step has a hint. |
| OrderJoins.OrdersJoinExactly | src/vda5050++/core/order/scheduler.cpp:826-837 | For the streams of two orders queued whole: exactly if the second has no blocking action before its first step, or the first has one behind its last step. |
| OrderJoins.OrdersSegmentsSafe | src/vda5050++/core/order/scheduler.cpp:543-619 | In every run whose commits bring any number of orders and updates like that, each behind what is queued at that moment (behind an empty queue any order), no announced segment leads past a queued blocking group. |
| Pipeline.ReplacementWorks | src/vda5050++/core/state/state_event_handler.cpp:40-57 | The graph of every acceptable order is sound and has a base; storing it and placing the vehicle succeeds if and only if the order starts at node 0. |
| Pipeline.EveryPassedNodeIsFound | src/vda5050++/core/state/order_manager.cpp:189-204 | In every run of one acceptable order the reported nodes strictly ascend, each is a released node of the stored graph, so that no arrival throws, and the graph then is sound and starts at the vehicle's node. |
| Pipeline.UpdateWorks | src/vda5050++/core/state/state_event_handler.cpp:15-38 | An acceptable update at the last base node stitches and is announced without a throw, keeps the vehicle on a released node, and announces exactly the growth of the base. |
| StoredRoutes.StoredGraphFollows | src/vda5050++/core/state/order_manager.cpp:189-204 | In every run of a new order at node 0 and any number of updates, each at the last released node of the one before, stored by the event handlers and committed to the scheduler in one go, with arrivals and all other calls between them: no extension and no arrival throws, the passed nodes strictly ascend over all of them, and the stored graph is sound and starts at the node passed last. |
| Pipeline.EachOrderActionOnce | src/vda5050++/core/order/scheduler.cpp:390-427 | From order to trace: an action listed once in the interpreted part of a walkable order is, in every run that handed over its whole stream, in exactly one of queued, live, forgotten, and started at most once. |
| OrderExamples.EdgeAtTheEnd | src/vda5050++/core/checks/order.cpp:15-122 | Two concrete orders, of one node and an edge before or behind it, that pass the check and make the interpreter throw. |
| OrderExamples.BaseEndsWithEdge | src/vda5050++/core/checks/order.cpp:15-122 | A concrete order whose base ends with an edge: the same. |
| OrderExamples.NodesOutOfTurn | src/vda5050++/core/checks/order.cpp:15-122 | A concrete order with two nodes listed the wrong way round: the same. |
| OrderExamples.CrossedOrderIsDriven | src/vda5050++/core/interpreter/functional.cpp:372-434 | A concrete order that passes the check and is interpreted, and has the vehicle driven to nodes 2, 6 and 4 in this order. |
| OrderExamples.HorizonUpdate | src/vda5050++/core/checks/order.cpp:15-122 | A concrete update of one node that is not released: it passes the check and is interpreted as nothing but its graph. |
| OrderExamples.HorizonUpdateIsStored | src/vda5050++/core/state/state_event_handler.cpp:15-38 | The failing side of AnnouncesExactly: that update extends the stored graph and cannot be announced, and the vehicle then stands on a horizon node. |
| OrderExamples.WrappedGoal | src/vda5050++/core/state/graph.cpp:272-293 | The failing side of GoalIsNearest: in the graph of all 2^32 ids, which alternates as an order does, the goal of a vehicle at the last node is not the nearest released node ahead. |
| OrderExamples.NextNodeIsRefused | src/vda5050++/core/checks/order.cpp:176-185 | A concrete stored base that ends with an edge, and the node behind it: it could be stitched, and the check refuses it. |
| BlockingQueues.NextCounted | include/private/vda5050++/core/common/blocking_queue.h:100-149 | Every step of every thread keeps the queue as long as the semaphore count plus the threads that acquired but did not pop plus those that pushed but did not release; no popper meets an empty queue. |
| BlockingQueues.NextAttended | include/private/vda5050++/core/common/semaphore.h:67-95 | Every step keeps that a positive count with a sleeper always has a thread that will look at the count or notify. |
| BlockingQueues.EveryInterleaving | include/private/vda5050++/core/common/blocking_queue.h:100-149 | In every interleaving of any number of pushers and poppers no step meets an empty queue, the length equation holds and values leave in the order of the pushes. |
| BlockingQueues.NothingStranded | include/private/vda5050++/core/common/semaphore.h:147-153 | No lost wake-up: if every thread is outside or asleep and one is asleep, the queue is empty. |

## Left out

- MQTT, JSON, configuration, factsheets, logging and the texts of errors: no logic of the order layers.
- Event managers: events are an ordered trace; threads and synchronous re-entry are not modelled.
- Action, navigation and query handlers, sinks, observers and event control blocks: callers of the scheduler in any
  order; the model starts at `cancel`, `pause`, `resume` and the transitions.
- Timers, status managers, vehicle positions and the isOnNode test: wall-clock time and geometry.
- Action parameter validation, checkOrderId and checkOrderActionIds: string parsing and look-ups.
- handleOrderNewLastNodeId beyond its call of setAGVLastNode: it only forwards.
- Progress that needs a cooperative vehicle, such as a cancel that ends some time.
- SchedulerDialogue.StatusReported: without unique ids, reports about two actions with one id cannot be told apart.
- Action ids are naturals in place of strings; only their equality and their order are used.
- EventIterators.Interpret: the collected graph is a value, so that sharing it with the yielded event is not captured;
  the initial group blocking type is NONE, which functional.h:86 leaves uninitialised and every reset assigns; an order
  that starts with an edge, which would use a graph that is not there yet, is a throw; for orders that are not walkable
  and have two nodes or more beyond their edges, none of which is consistent, only termination is stated.
- StoredRoutes.StoredGraphFollows: a second new order in place of the first, which starts a stored graph of its own, and
  updates that come while a batch is staged, are not covered.
- Schedulers.Scheduler.Enqueue: items that are neither group nor step are not modelled, since none is enqueued.
- BlockingQueues.EveryInterleaving: timed pops are an attempt that may give up at any time, try_lock may fail at will,
  and copying and moving a queue are not modelled.
- Graphs.Graph.Extend: what is left in the moved-from graph is not stated.
- dumpTo and currentMap of the graph: reports over the same lists.
- Blocking types outside the three of the standard, for which the interpreter throws.
- BlockingQueues.NextAttended: the counter of the semaphore is unbounded.
