# The scheduler of reactor-rs, verified

This project models the logical-time scheduler of the reactor-rs runtime and proves that the fast machinery it runs on
does what the reactor semantics prescribes. It covers the path from assembly to shutdown:

1. Assembly records components and reactions as nodes of a dependency graph and gives them consecutive ids
   (`Assembly.dfy`). Port bindings change shared cells and the graph together (`Ports.dfy`, `Declarations.dfy`), and
   `BindingSequences.dfy` says what whole sequences of bindings lead to.
2. The graph is compiled. Each reaction gets a level, the length of the longest path that ends in it, and each trigger
   gets a plan: the reactions it triggers, sorted by level (`Graphs.dfy`, `Dataflow.dfy`). `Batches.dfy` is about which
   reactions of a reactor can meet in a level.
3. Plans are sorted vectors with position hints (`VecMap.dfy`, `Plans.dfy`), and pending events are a sorted list
   (`Events.dfy`).
4. A tag is processed level by level. The plan grows while it is executed, batches may be split and merged in any way,
   and the cursor may come from an older plan (`Context.dfy`, `Wave.dfy`). `Places.dfy` says when the order within a
   batch makes no difference to what the reactors hold.
5. The event loop takes tags from the queue, sleeps, is interrupted, and shuts down (`Scheduler.dfy`). It is proved to
   take the steps of an abstract machine whose state is only a set of pending jobs and stops (`Machine.dfy`).
6. Safety of all runs of that machine (`Runs.dfy`), agreement of action values and events (`Values.dfy`, `Actions.dfy`),
   timers (`Timers.dfy`), and what declared effects guarantee to readers of ports (`Effects.dfy`).
   `Requests.dfy` reads off the inputs of a run, and off the calls that reactions make, what is asked for, and proves
   that this is what the scheduler keeps; `Services.dfy`, `Ticks.dfy` and `Histories.dfy` say what follows for tags,
   ports, stops, timers and action values.
7. `Programs.dfy` puts the parts together: an assembled program is either rejected for a cycle or run as prescribed.

A reaction is user code. It is modelled as the sequence of calls it makes on its context, which may be any sequence
within its declared effects. What the channel, the sleep, the clock and the reactions contribute to a turn of the event
loop is an input of that turn. `Turn` and `IsRun` hold for all inputs. The safety theorems are about fair runs
(`Runs.Fair`): asynchronous events arrive for tags after the latest processed one, an event that interrupts the sleep is
not for the very tag that is waited for, the clock at the final shutdown is past the latest tag, and reactions schedule
for later tags.

Not all of this is in the hands of the environment. After an interruption by a later event, the loop processes the tag
it had taken without waiting for its time any longer (`src/scheduler/scheduler_impl.rs:214-217`). The latest processed
tag is then ahead of the clock, and a thread that sends an event for the time of the clock, as it should, sends it for a
tag before the latest one. The clock of the model is only what a turn takes as its input, so `Fair` states the condition
on the tags that arrive, and not on the times at which they are sent. The condition is exact:
`Runs.OrderedIffArrivedLater` says that the processed tags stay in order if and only if it holds.

Classes stand where the source updates an object in place: the vector map, the plans, the event queue, the reaction
context, the scheduler, ports with their shared cells, actions, and the assembler. Their methods are proved against the
functions and predicates on values that the lemmas are about.

## Where the code differs from its description

The model follows the code. These are the places where a comment, or an obvious expectation, says something else.

- An event that interrupts the sleep and has the tag that is waited for is queued on its own while the popped event is
  still processed, so that tag is processed a second time, or fails a debug assertion
  (`src/scheduler/scheduler_impl.rs:214-217`). Provided that asynchronous events arrive for tags after the latest
  processed one, this is the only way in which something stays pending for a processed tag: `Runs.InterruptForSameTag`
  is an equivalence. `Runs.InterruptForSameTagHappens` gives an instance.
- A tag with an empty plan is logged as processed without a cleanup, so values of actions for that tag stay
  (`src/scheduler/scheduler_impl.rs:414-417`). `Values.LeftBehind` is exact, and `Values.LeftBehindHappens` gives an
  instance.
- `forward_to` records only the downstream port itself in the upstream cell, although the comment on `downstreams`
  speaks of the transitive case (`src/ports.rs:290-306`). Ports may therefore end on a cell other than that of their
  root, and a cycle may go unnoticed. `BindingSequences.AllOnRootsIffFewMaxima` is the exact condition on the order of
  the bindings under which all ports are right, and `BindingSequences.CycleReportedIff` and
  `BindingSequences.AllCyclesReportedIff` are the exact conditions under which a cycle is reported.
  `BindingSequences.LateBindings` and `BindingSequences.CycleUnnoticed` are sequences that go wrong. Sequences in which
  no port is bound after something was bound below it are right (`BindingSequences.BindInOrder`).
- The successor of a tag without delay is called strictly greater (`src/scheduler/events.rs:83-86`), but a microstep is
  a 32-bit number: where overflow is not checked, the last one wraps around. `Events.SuccessorIsLater` is exact.
- `merge_plans_after` calls `x` the largest plan after the swap (`src/scheduler/dependencies.rs:694`); it is the one
  with the smaller greatest level.
- A timer says to be present at all microsteps of a time at which it fires, not only at microstep zero
  (`src/timers.rs:68-77`).
- Scheduling a physical action from a reaction does not add the minimum delay of the action
  (`src/scheduler/context.rs:707-717`). `Context.PhysicalDelayIsIgnored`: the tag is the documented one if and only if
  there is no such delay.
- No two reactions of one reactor are said to share a level (`src/scheduler/dependencies.rs:580-582`, and the safety
  comment at `src/scheduler/scheduler_impl.rs:478-480`). Only user-declared reactions are chained by priority
  (`src/scheduler/assembly_impl.rs:218-227`). `Batches.KeptApartIfDeclared` is the exact condition, over all programs,
  and `Batches.StartupMeets` a program in which two reactions of a reactor are in one batch at startup.
- An id for a reactor is a 16-bit number that wraps around where overflow is not checked (`src/ids.rs:59-64`). Ids are
  new as long as fewer than 2^16 were handed out (`Assembly.RootAssembler.NextReactorId`).

## Model

| member | source | states |
|---|---|---|
| `Programs.RunMain` | src/scheduler/scheduler_impl.rs:131-181 | a program is rejected exactly if its graph has a cycle; otherwise the tables hold, for every trigger, exactly the reactions it triggers at their levels, what the returned scheduler did on the inputs is a run of the abstract machine, and the last state of that run is what the scheduler holds |
| `Programs.TablesFit` | src/scheduler/dependencies.rs:390-418 | the compiled tables of an assembled graph are what the scheduler needs: compact plans, each reaction at its own level, startup and shutdown included |
| `Programs.BehaviourFits` | src/scheduler/assembly_impl.rs:345-348 | reactions that keep to their declared effects only ever make reactions of higher levels due |
| `Runs.RunSafety` | src/scheduler/scheduler_impl.rs:191-240 | at every point of every fair run: processed tags strictly increase; all jobs ever pushed for a tag at or before the latest one have run; whatever else was pushed is still pending and later; nothing runs after the shutdown tag, at which all shutdown reactions have run and which alone is marked as a shutdown; at each tag every reaction runs at most once and levels never decrease |
| `Runs.TurnIsSafe` | src/scheduler/scheduler_impl.rs:191-240 | one fair turn of the loop keeps the safety invariant or ends the run properly, whatever the channel, the sleep, the clock and the reactions contribute |
| `Runs.StartupIsSafe` | src/scheduler/scheduler_impl.rs:286-292 | the startup wave establishes the invariant |
| `Runs.RunIsSafe` | src/scheduler/scheduler_impl.rs:184-243 | the invariant holds between any two turns of a fair run |
| `Runs.EndedIsFinal` | src/scheduler/scheduler_impl.rs:223-243 | after the shutdown no further turn is possible |
| `Runs.EarliestStop` | src/scheduler/scheduler_impl.rs:199-243 | a run that ends does so at the least of the timeout tag and the tags of all terminate events ever pushed; if there is none, at the tag of the clock |
| `Runs.StopTaken` | src/scheduler/scheduler_impl.rs:223-225 | an event taken from the queue that ends the run carries the earliest stop |
| `Runs.TagTaken` | src/scheduler/scheduler_impl.rs:199-228 | processing the least tag runs everything that was pushed for it |
| `Runs.TagRunsItsJobs` | src/scheduler/scheduler_impl.rs:223-228 | what runs at a tag taken from the queue is exactly the closure of what was ever pushed for that tag, with the shutdown reactions if the tag ends the run; this holds in any environment |
| `Runs.RunIsExplained` | src/scheduler/scheduler_impl.rs:184-243 | in every fair run, at every processed tag, the startup and the shutdown included, exactly the closure of all that was ever pushed for it has run, each reaction once, in ascending order of levels |
| `Runs.TurnRunsItsRoots` | src/scheduler/scheduler_impl.rs:190-240 | a fair turn adds nothing to what was pushed up to the latest tag, and if it processes a tag, exactly the closure of all that was pushed for it runs |
| `Runs.InterruptForSameTag` | src/scheduler/scheduler_impl.rs:207-219 | provided that it is later than the latest processed tag, an event that interrupts the sleep leaves something pending at the tag just processed if and only if it has that very tag |
| `Runs.OrderedIffArrivedLater` | src/scheduler/scheduler_impl.rs:191-223 | a turn that processes a tag, in any environment, keeps the processed tags in order if and only if all events that had arrived are later than the latest processed tag |
| `Requests.TurnIsServed` | src/scheduler/scheduler_impl.rs:190-240 | in every turn, what was ever pending afterwards is exactly what was pending before, what reached the scheduler in the turn (all waiting events, the event that interrupted the sleep, the one received while nothing was pending) and what the calls of its reactions ask for: each with its tag, the reactions of its trigger, and its stop flag |
| `Requests.RunIsServed` | src/scheduler/scheduler_impl.rs:184-243 | the same over fair runs: what was ever pending is exactly what was requested, by events or by calls |
| `Requests.CallIsServed` | src/scheduler/context.rs:466-499 | each call schedules exactly what it asks for, told from the call alone: the first tag after the delay, the trigger, and whether to stop |
| `Requests.WaveIsServed` | src/scheduler/scheduler_impl.rs:447-449 | all that the reactions of a tag ask for is scheduled, and nothing else |
| `Requests.MadeIsListed` | src/scheduler/events.rs:176-183 | an event from a thread keeps its tag and stop flag, and gets the reactions of its trigger |
| `Services.RunRunsRequests` | src/scheduler/scheduler_impl.rs:184-243 | in every fair run, at every tag, exactly that runs which was requested for the tag, at startup and shutdown with their reactions, and what this sets off by setting ports and starting timers |
| `Services.ClosureIsCascade` | src/scheduler/context.rs:239-248 | the closure that a wave runs is the least set that contains, with each reaction, all reactions of the ports it sets and of the timers without offset that it starts |
| `Services.RunServesTags` | src/scheduler/scheduler_impl.rs:198-228 | exactly the tags of requests are processed, up to the latest one, apart from the origin and the last tag |
| `Services.RequestIsServed` | src/scheduler/scheduler_impl.rs:198-228 | once the tag of a request is reached, it has been processed, and the reactions of the trigger have run at it |
| `Services.DeliveredIsServed` | src/scheduler/scheduler_impl.rs:190-240 | in particular, no event that reaches the scheduler is lost |
| `Services.SetPortTriggers` | src/scheduler/context.rs:239-248 | when a reaction sets a port, every reaction that the port triggers in the graph runs at the same tag |
| `Services.StopsLieAhead` | src/scheduler/scheduler_impl.rs:198-228 | the program is not past any tag at which it is to stop, and stops no later than at the first |
| `Services.StopsAtFirst` | src/scheduler/scheduler_impl.rs:223-243 | it stops at the first tag for which a stop was requested, or at the timeout; at the clock only if there is neither |
| `Services.StopRequestIsKept` | src/scheduler/context.rs:466-471 | if a reaction that has run requested a stop, no tag later than the offset after the call is ever processed |
| `Services.TimeoutIsKept` | src/scheduler/scheduler_impl.rs:272-276 | no tag is later than the timeout, and the program has stopped once that is reached |
| `Ticks.SetOffIffFires` | src/scheduler/context.rs:478-499 | over fair runs, the reaction synthesized for a timer that is started at startup runs at a processed tag if and only if the timer fires then |
| `Ticks.TimerIsServed` | src/scheduler/context.rs:478-499 | all reactions to the timer have run at every tag at which it fires, up to the latest |
| `Runs.InterruptForSameTagHappens` | src/scheduler/scheduler_impl.rs:214-217 | a concrete turn where that happens, with an event that the runtime can send, so that the tag is processed again |
| `Values.TurnKeepsValues` | src/scheduler/scheduler_impl.rs:184-243 | between turns, each action value stored for a later tag is the one scheduled last, and an event with all the reactions of the action is pending at its tag |
| `Values.RunKeepsValues` | src/scheduler/scheduler_impl.rs:184-243 | the same at every point of every fair run before the shutdown |
| `Histories.ActionHoldsLast` | src/scheduler/context.rs:698-705 | at every point of every fair run before the shutdown, an action holds a value for a tag to come if and only if a call scheduled it for the tag, and it is the value of the last such call |
| `Histories.StoredIsLast` | src/scheduler/context.rs:698-705 | of several calls for an action and a tag the last one counts |
| `Values.WritesWithEvent` | src/scheduler/context.rs:698-705 | whoever stores a value for a tag also schedules the event that will make it noticed |
| `Values.PresentIffScheduled` | src/actions.rs:94-107 | while a tag executes, whatever has run of it, an action is present exactly if it was scheduled for the tag, with the last value |
| `Values.LeftBehind` | src/scheduler/scheduler_impl.rs:414-417 | a value for a processed tag stays behind if and only if nothing was due at the tag, because the cleanup is then skipped |
| `Values.LeftBehindHappens` | src/scheduler/scheduler_impl.rs:414-417 | a concrete fair turn, from a state in which action values and events agree, after which the value of a processed tag is still there |
| `Values.RunClearsPorts` | src/scheduler/scheduler_impl.rs:444-457 | between the turns of every run, in any environment, no port holds a value |
| `Scheduler.SyncScheduler.constructor` | src/scheduler/scheduler_impl.rs:248-281 | the initial state, with the shutdown tag that the timeout gives |
| `Scheduler.SyncScheduler.ProcessTag` | src/scheduler/scheduler_impl.rs:406-457 | processing a tag on levels, cursors and merged plans takes the step of the abstract machine: the closure runs, its events are pushed, the values of the tag are forgotten |
| `Scheduler.SyncScheduler.Startup` | src/scheduler/scheduler_impl.rs:286-292 | processes the startup reactions at the origin |
| `Scheduler.SyncScheduler.Shutdown` | src/scheduler/scheduler_impl.rs:294-306 | processes what is due together with the shutdown reactions, at the shutdown tag |
| `Scheduler.SyncScheduler.Flush` | src/scheduler/scheduler_impl.rs:191-196 | pushes all events that have arrived; only their set matters |
| `Scheduler.SyncScheduler.PushAll` | src/scheduler/scheduler_impl.rs:77-82 | pushes events one by one; only their set matters |
| `Scheduler.SyncScheduler.TakeTag` | src/scheduler/scheduler_impl.rs:198-228 | late events end the loop, an earlier asynchronous event sends both back to the queue, any other one is only queued |
| `Scheduler.SyncScheduler.LoopTurn` | src/scheduler/scheduler_impl.rs:190-240 | one iteration of the loop is one turn of the abstract machine, in which, by Requests.TurnIsServed, every event that reaches the scheduler becomes pending |
| `Scheduler.SyncScheduler.LaunchEventLoop` | src/scheduler/scheduler_impl.rs:184-243 | the loop on any inputs is a run of the abstract machine |
| `Scheduler.PutBack` | src/scheduler/scheduler_impl.rs:209-213 | pushing the event that was taken restores what was pending |
| `Scheduler.PushTwice` | src/scheduler/scheduler_impl.rs:77-82 | pushing in two steps is pushing at once |
| `Wave.RunWave` | src/scheduler/scheduler_impl.rs:406-445 | for every initial plan, behaviour and way of splitting batches, the reactions that run are exactly the least set that contains the plan and is closed under what its members trigger; each runs once, levels never decrease, the loop ends, and the events and action values are those of the reactions that ran |
| `Wave.ProcessLevel` | src/scheduler/scheduler_impl.rs:419-435 | after a level, the plan has at every higher level what it had together with what the batch made due |
| `Wave.OneMoreLevel` | src/scheduler/scheduler_impl.rs:419-435 | no triggered reaction is lost although merging drops levels that are already done |
| `Wave.AllLevelsDone` | src/scheduler/scheduler_impl.rs:419-435 | when no level is left, what ran is the closure |
| `Wave.LevelsRunOut` | src/scheduler/scheduler_impl.rs:419-435 | the remaining slots shrink with every level, which bounds the loop |
| `Wave.NextLevel` | src/scheduler/dependencies.rs:607-612 | from any cursor, of this plan or another, the next batch is the least level above the cursor |
| `Wave.FirstLevel` | src/scheduler/dependencies.rs:602-605 | the first batch is the lowest level of the plan |
| `Wave.RunFork` | src/scheduler/scheduler_impl.rs:467-491 | any tree of merges over any forks yields exactly what its reactions yield in sequence |
| `Wave.LeavesAreAll` | src/scheduler/scheduler_impl.rs:467-491 | what a tree of merges runs is what its forks run, wherever they are in the tree |
| `Wave.ProcessBatch` | src/scheduler/scheduler_impl.rs:467-491 | a batch run in parallel, split and merged in any way, which may differ between tags and levels, leaves the same due reactions above the current level and the same events as the sequential loop |
| `Wave.ExecuteAll` | src/scheduler/scheduler_impl.rs:436-442 | a batch runs each of its reactions once, in sequence or in parallel |
| `Context.ReactionCtx.EnqueueNow` | src/scheduler/context.rs:388-393 | the reactions of a trigger join those due at the current tag, at all levels above the current one |
| `Context.ReactionCtx.EnqueueEvent` | src/scheduler/context.rs:380-386 | an event for a later tag is added to those scheduled |
| `Context.ReactionCtx.Set` | src/scheduler/context.rs:239-248 | setting a port puts the value into its cell, and makes the reactions of its plan due at all levels above the current one |
| `Context.ReactionCtx.BootstrapTimer` | src/scheduler/context.rs:490-499 | a timer without offset makes its plan due now, any other one gets an event with its plan at its offset |
| `Context.ReactionCtx.RescheduleTimer` | src/scheduler/context.rs:478-483 | a periodic timer gets an event with its plan after its period, any other one nothing |
| `Context.ReactionCtx.ScheduleLogical` | src/scheduler/context.rs:698-705 | stores the value and schedules an event with the plan of the action for the same tag: the successor of the current one by the delay of the action and the offset |
| `Context.ReactionCtx.SchedulePhysical` | src/scheduler/context.rs:707-717 | stores the value and schedules an event with the plan of the action for the same tag: the time of the clock plus the offset, at microstep zero |
| `Context.ReactionCtx.RequestStop` | src/scheduler/context.rs:466-471 | schedules an event with the stop flag, and without reactions, for the successor tag by the offset |
| `Context.ReactionCtx.Execute` | src/scheduler/context.rs:503-513 | running a reaction yields exactly what its commands ask for |
| `Context.ReactionCtx.ExecuteBatch` | src/scheduler/scheduler_impl.rs:436-442 | the sequential loop yields the sum of what its reactions yield, and stores their values in order |
| `Context.MergeInsides` | src/scheduler/context.rs:579-589 | merging two forks joins what they made due and what they scheduled |
| `Context.BatchSplits` | src/scheduler/context.rs:579-589 | what a batch yields is the sum over any split of it |
| `Context.ScheduledIsLater` | src/scheduler/context.rs:399-401 | what is scheduled by delay is for a later tag if and only if the delay is positive or the microstep is not the last one; what is scheduled by the clock is, if and only if the clock with the offset is past the time of the current tag |
| `Context.PhysicalDelayIsIgnored` | src/scheduler/context.rs:707-717 | a physical action is scheduled for the documented tag if and only if it has no delay of its own |
| `Places.OrderIsIrrelevant` | src/scheduler/scheduler_impl.rs:467-491 | if no two reactions of a batch write to the same port, nor to the same action at the same tag, then every order in which the batch runs leaves the values of the sequential loop |
| `Places.OnlyWriter` | src/scheduler/context.rs:239-248 | a place that one reaction of a batch writes to ends up with what that reaction writes, whatever ran around it |
| `Effects.WriterBeforeReader` | src/scheduler/dependencies.rs:306-334 | a reaction that effects a port, directly or through its bank, has a strictly lower level than every reaction that is triggered by it, or uses it, or does so with a port bound below it |
| `Effects.StableRead` | src/ports.rs:71-79 | when a reader of a port starts, the cell of the port already has its final content for the tag |
| `Effects.EffectsAreCausal` | src/scheduler/dependencies.rs:253-281 | within declared effects, a reaction makes only reactions of strictly higher levels due |
| `Effects.TablesAreProper` | src/scheduler/dependencies.rs:390-418 | every plan of the compiled table is sorted, compact, and has each reaction at its level |
| `Graphs.NumberNodes` | src/scheduler/dependencies.rs:306-323 | the relaxation over any topological order gives every node the length of the longest path that ends in it |
| `Graphs.RelaxSuccessors` | src/scheduler/dependencies.rs:314-321 | one relaxation raises exactly the successors that are too low |
| `Graphs.DepthIsLeast` | src/scheduler/dependencies.rs:306-334 | levels are the pointwise least numbering that increases along every edge |
| `Graphs.DepthIsUnique` | src/scheduler/dependencies.rs:306-334 | levels do not depend on the topological order |
| `Graphs.DepthGrows` | src/scheduler/dependencies.rs:306-334 | levels increase along edges |
| `Graphs.DepthIsBounded` | src/scheduler/dependencies.rs:540-550 | levels are below the number of nodes |
| `Graphs.OrderedIsAcyclic` | src/scheduler/dependencies.rs:307-308 | a graph with a topological order has no cycle, so the error is exact |
| `Graphs.GrowsAlongPath` | src/scheduler/dependencies.rs:306-334 | a numbering that increases along edges bounds the length of paths |
| `Dataflow.NumberReactionsByLevel` | src/scheduler/dependencies.rs:306-334 | fails exactly on cyclic graphs, and otherwise gives each reaction its depth |
| `Dataflow.CollectReactionsRec` | src/scheduler/dependencies.rs:420-451 | adds to the plan exactly the reactions reachable through ports whose last edge is not a use; the recursion ends on acyclic graphs |
| `Dataflow.CollectDownstream` | src/scheduler/dependencies.rs:426-449 | one edge contributes what lies behind the port, or the reaction itself, or nothing if it is a use |
| `Dataflow.CollectTriggerToPlan` | src/scheduler/dependencies.rs:390-418 | the plan of each trigger lands at the index that is its id |
| `Dataflow.NewDataflowInfo` | src/scheduler/dependencies.rs:383-388 | compiles the table, or fails exactly on cyclic graphs |
| `Dataflow.AllEdgesTaken` | src/scheduler/dependencies.rs:420-451 | following all edges of a trigger finds exactly the reactions it triggers |
| `Assembly.RootAssembler.constructor` | src/scheduler/dependencies.rs:137-147 | startup and shutdown are the triggers 0 and 1, and the invariant holds |
| `Assembly.RootAssembler.NextCompId` | src/scheduler/assembly_impl.rs:471-480 | ids are consecutive, until 32 bits overflow |
| `Assembly.RootAssembler.NewComponent` | src/scheduler/assembly_impl.rs:414-468 | a port, action or timer gets the next id and one node, and the graph stays well formed |
| `Assembly.RootAssembler.NewPortBankComponent` | src/scheduler/assembly_impl.rs:440-450 | a channel gets the next id, a port node, and an edge from its bank |
| `Assembly.RootAssembler.NewMultiport` | src/scheduler/assembly_impl.rs:424-438 | for every width: succeeds exactly if it is positive and the ids of all channels fit, and then the range is recorded, and the ids in it are those of the channels, in order, each a port with an edge from the bank; reports the overflow exactly if the range does not fit, with the cast of the width to 32 bits; panics otherwise |
| `Assembly.RootAssembler.NewChannels` | src/scheduler/assembly_impl.rs:431-436 | the loop over the channels: it ends exactly if the ids fit, with one port and one edge more for each channel |
| `Assembly.RootAssembler.NewReactions` | src/scheduler/assembly_impl.rs:204-232 | records the reactions in order, chains exactly the user-declared ones by priority, and keeps the chains of all reactors recorded before |
| `Assembly.RootAssembler.NextReactorId` | src/ids.rs:59-64 | reactor ids are consecutive and wrap around at 16 bits; as long as fewer than 2^16 were handed out, no reaction with the id was recorded |
| `Assembly.RootAssembler.RecordReaction` | src/scheduler/dependencies.rs:227-229 | adds the node of a reaction and keeps the graph well formed |
| `Assembly.RootAssembler.ReactionPriority` | src/scheduler/dependencies.rs:232-235 | adds one edge from the first reaction to the second and keeps the graph well formed |
| `Assembly.RootAssembler.TriggerToReactionEdge` | src/scheduler/dependencies.rs:261-275 | a dependency on a bank adds one edge for each of its channels in order, any other dependency one edge; a use leaves unchanged what triggers what; any other dependency makes exactly that trigger the reaction, in addition, which leads through ports to the trigger, or to a channel of the bank |
| `Assembly.DependencyAdded` | src/scheduler/dependencies.rs:261-275 | the same for all graphs that assembly can build |
| `Assembly.EdgesToReaction` | src/scheduler/dependencies.rs:420-451 | new edges into a reaction change what triggers it, and nothing else, and that only if they are not uses |
| `Assembly.SourceTriggers` | src/scheduler/dependencies.rs:253-255 | after such a dependency the trigger triggers the reaction, and with it each channel of a bank |
| `Assembly.RootAssembler.ReactionEffects` | src/scheduler/dependencies.rs:277-281 | an effect is one edge from the reaction to the trigger |
| `Assembly.RootAssembler.PortBind` | src/scheduler/dependencies.rs:237-244 | a binding is one edge from the upstream port to the downstream one |
| `Assembly.BankIsItsChannels` | src/scheduler/dependencies.rs:265-271 | depending on a bank adds the very edges that depending on each channel adds |
| `Assembly.BankPlan` | src/scheduler/dependencies.rs:179-192 | in the compiled tables the plan of a bank is the union of the plans of its channels |
| `Assembly.BankTriggersChannel` | src/scheduler/dependencies.rs:209-213 | whatever a bank triggers, one of its channels triggers |
| `Assembly.ChannelTriggers` | src/scheduler/dependencies.rs:209-213 | whatever a channel triggers, its bank triggers |
| `Assembly.DeclarationOrder` | src/scheduler/assembly_impl.rs:218-227 | user-declared reactions of one reactor have strictly increasing levels in the order of their declaration |
| `Assembly.RecordsStay` | src/scheduler/assembly_impl.rs:218-227 | whatever is added to the graph later, the reactions of every recorded reactor stay recorded and chained |
| `Batches.DeclaredInOrder` | src/scheduler/assembly_impl.rs:218-227 | after any sequence of assembler calls, the user-declared reactions of every recorded reactor have strictly increasing levels in the order of their declaration |
| `Batches.KeptApartIfDeclared` | src/scheduler/dependencies.rs:580-582 | for all programs with a reactor of which k of n reactions are user-declared: no plan, and no batch merged from plans, ever has two reactions of the reactor in one level, if and only if k is n or n is at most one |
| `Batches.DeclaredKeptApart` | src/scheduler/scheduler_impl.rs:478-480 | the positive half: reactions of one level are equal if all reactions of their reactor are user-declared |
| `Batches.StartupMeets` | src/scheduler/scheduler_impl.rs:478-480 | the negative half: for every such reactor with a reaction that is not user-declared, a program whose startup plan has two of its reactions in level 1 |
| `Batches.AssembledIsProgram` | src/scheduler/dependencies.rs:383-388 | whatever an assembler recorded is within the scope of that equivalence |
| `Assembly.NodeRecorded` | src/scheduler/dependencies.rs:287-296 | a new node with the next id keeps the assembled graph consistent |
| `Assembly.EdgeRecorded` | src/scheduler/dependencies.rs:253-281 | a permitted edge keeps the assembled graph consistent |
| `Assembly.GlobalIsInjective` | src/ids.rs:129-140 | a reaction id determines its reactor and its local id |
| `Declarations.BindPorts` | src/scheduler/assembly_impl.rs:358-362 | the graph gets the one edge of a binding exactly if the cells could be bound, so bindings in the cells and in the graph agree |
| `Declarations.RootTriggersTree` | src/scheduler/dependencies.rs:426-431 | setting the root of a tree of bound ports makes everything due that any port of the tree triggers |
| `Declarations.TriggersFromAbove` | src/scheduler/dependencies.rs:426-431 | what a bound port triggers, every port above it triggers |
| `Ports.Port.constructor` | src/ports.rs:85-95 | a new port is free and has a cell of its own |
| `Ports.Port.ForwardTo` | src/ports.rs:188-227 | which of the two errors or success, and the exact change of the cells, including that the marks are made before a cycle is noticed |
| `Ports.PortCell.SetUpstream` | src/ports.rs:321-334 | every recorded port is redirected |
| `Ports.Port.ClearValue` | src/ports.rs:180-186 | clears the cell unless the port is bound |
| `Ports.Bind` | src/ports.rs:188-227 | on any network of ports, bindings change the heap as the specification function on cells and records says, and nothing else |
| `Ports.SoundAfterBinding` | src/ports.rs:215-225 | one step: a binding below a port of another tree leaves all ports on the right cell if and only if the downstream cell has recorded its whole tree |
| `Ports.ForestAfterBinding` | src/ports.rs:215-225 | in that case the ports are a forest again, in which each port uses the cell of its root |
| `Ports.CoveredAfterBinding` | src/ports.rs:215-218 | one step: from cells that record their whole trees, the new cells do so if and only if the downstream port was a leaf, as only the port itself is added |
| `Ports.NoRootInCycle` | src/ports.rs:300-306 | a cycle that is not reported leaves its ports without a settable root |
| `Ports.JoinedIsRooted` | src/ports.rs:290-306 | binding a root below a port of another tree joins the two trees |
| `Ports.NextInOrder` | src/ports.rs:188-227 | a binding in order never reports a cycle and keeps the forest |
| `BindingSequences.BindAll` | src/ports.rs:188-227 | any sequence of bindings, on any network of ports: it succeeds exactly if no port is bound twice and no cycle is reported, and then the heap is what the specification functions on the sequence say |
| `BindingSequences.AllOnRootsIffFewMaxima` | src/ports.rs:188-227 | after any bindings that form a forest, all ports use the cells of their roots if and only if the times of the bindings, on the path from each port to its root, have at most two left-to-right maxima |
| `BindingSequences.OnRootIffFollows` | src/ports.rs:188-227 | the exact condition for one port, by the times of the bindings above it alone |
| `BindingSequences.CycleReportedIff` | src/ports.rs:312-318 | a binding is reported as a cycle if and only if the upstream port is in the tree of the downstream port, is on the right cell, and the times on its path have one left-to-right maximum |
| `BindingSequences.AllCyclesReportedIff` | src/ports.rs:312-318 | every cycle that can be closed at a root is reported if and only if the times of the bindings only fall, on every path to the root |
| `BindingSequences.ForestTracks` | src/ports.rs:290-306 | what the cells and the records of all ports hold after any bindings that form a forest |
| `BindingSequences.ForestIsAccepted` | src/ports.rs:188-227 | bindings that form a forest are never rejected |
| `BindingSequences.InOrderFormForest` | src/ports.rs:188-227 | bindings in order form a forest, every port is on the cell of its root, and every cell records its whole tree |
| `BindingSequences.BindInOrder` | src/ports.rs:188-227 | any sequence in which no port is bound after something was bound below it succeeds exactly if no port is bound twice, and then every port uses the cell of the root of its tree |
| `BindingSequences.LateBindings` | src/ports.rs:215-218 | three bindings from the last port to the first: they are accepted, and the last port ends on the wrong cell |
| `BindingSequences.CycleUnnoticed` | src/ports.rs:312-318 | three bindings of which the last one closes a cycle: they are accepted |
| `Ports.LeafIfUnused` | src/ports.rs:288-306 | a port below which nothing was bound is a leaf |
| `Ports.RootIsUnique` | src/ports.rs:266-274 | for a set of ports bound together there is one writable port |
| `Ports.SetTree` | src/ports.rs:164-175 | setting an unbound port changes exactly the ports of its tree |
| `Ports.ClearTree` | src/ports.rs:180-186 | clearing a port clears its tree if it is unbound, and nothing otherwise |
| `Ports.ClearAll` | src/scheduler/context.rs:787-797 | after all ports were cleaned up, no port has a value |
| `Actions.Action.ScheduleFutureValue` | src/actions.rs:67-76 | the value for the tag is the new one, all others stay |
| `Actions.Action.ForgetValue` | src/actions.rs:79-81 | returns the value for the tag and removes it, all others stay |
| `Actions.Action.IsPresent` | src/actions.rs:96-98 | present exactly if something was stored for the tag, even without a value |
| `Actions.Action.GetValue` | src/actions.rs:101-106 | the stored value, if any |
| `Actions.ReverseIsInjective` | src/actions.rs:57 | reversed tags are distinct keys in the opposite order |
| `Plans.ExecutableReactions.AbsorbAfter` | src/scheduler/dependencies.rs:620-656 | levels from the minimum on become the union with the source, lower ones stay, keys stay ascending and levels sorted without duplicates, and every hint satisfies the assumptions of the hinted entry |
| `Plans.ExecutableReactions.AbsorbLevel` | src/scheduler/dependencies.rs:633-651 | one level of the source is inserted or united |
| `Plans.ExecutableReactions.Insert` | src/scheduler/dependencies.rs:658-669 | adds exactly one reaction at one level |
| `Plans.ExecutableReactions.NextBatch` | src/scheduler/dependencies.rs:607-612 | the next level above any cursor |
| `Plans.ExecutableReactions.MaxLevel` | src/scheduler/dependencies.rs:614-618 | the level of the last mapping, which no level of the plan exceeds, or zero for an empty plan |
| `Plans.MergePlansAfter` | src/scheduler/dependencies.rs:682-699 | through all its arms the result is the union from the minimum level on, and below it invents nothing |
| `Plans.MergeCows` | src/scheduler/dependencies.rs:672-674 | the union of both plans at all levels |
| `Plans.PlanIsCanonical` | src/scheduler/dependencies.rs:569-575 | two plans with the same reactions at the same levels are the same plan |
| `Plans.MergeLaws` | src/scheduler/dependencies.rs:671-674 | full merging is commutative, associative and idempotent, as equality of plans |
| `Plans.InsertReaction` | src/scheduler/dependencies.rs:487-500 | inserts in place, keeping the level sorted and free of duplicates |
| `Plans.SortDedup` | src/scheduler/dependencies.rs:506-514 | sorts, removes duplicates and keeps exactly the elements |
| `Plans.StrictIsCanonical` | src/scheduler/dependencies.rs:473-476 | two sorted duplicate-free levels with the same elements are equal |
| `VecMaps.VecMap.FindK` | src/util/vecmap.rs:186-206 | the index of the key, or the only place where it can be inserted |
| `VecMaps.VecMap.EntryOf` | src/util/vecmap.rs:49-54 | the entry of the key |
| `VecMaps.VecMap.EntryFromRef` | src/util/vecmap.rs:56-81 | under its two documented assumptions, the same entry that the binary search finds |
| `VecMaps.EntryIsUnique` | src/util/vecmap.rs:56-81 | a map has one entry for each key, so the two ways to find it agree |
| `VecMaps.VecMap.InsertVacant` | src/util/vecmap.rs:277-285 | inserts the mapping and keeps the keys strictly ascending |
| `VecMaps.VecMap.ReplaceOccupied` | src/util/vecmap.rs:287-295 | replaces the value and keeps the rest |
| `VecMaps.VecMap.Insert` | src/util/vecmap.rs:104-113 | refines the update of a finite map and returns the previous value |
| `VecMaps.VecMap.Remove` | src/util/vecmap.rs:116-121 | refines the removal from a finite map and returns the removed value |
| `VecMaps.VecMap.Get` | src/util/vecmap.rs:124-129 | refines the look-up in a finite map |
| `VecMaps.VecMap.ContainsKey` | src/util/vecmap.rs:132-134 | refines membership in a finite map |
| `VecMaps.VecMap.FindRandomMappingAfter` | src/util/vecmap.rs:86-100 | the first mapping at or above the key |
| `VecMaps.VecMap.NextMapping` | src/util/vecmap.rs:138-159 | the least key strictly above that of any cursor, even one of another map |
| `VecMaps.VecMap.MinEntry` | src/util/vecmap.rs:167-173 | the least key |
| `VecMaps.VecMap.MaxKey` | src/util/vecmap.rs:176-178 | the greatest key |
| `VecMaps.NextIsAdjacent` | src/util/vecmap.rs:138-151 | from an exact cursor the next mapping is the adjacent one |
| `Events.EventQueue.Push` | src/scheduler/events.rs:227-232 | after any pushes the pending tags, jobs and stops are those of all events pushed, in whatever order; tags stay strictly ascending |
| `Events.EventQueue.TakeEarliest` | src/scheduler/events.rs:211-213 | takes the least tag with all its work, and leaves everything else |
| `Events.EventQueue.FindTag` | src/scheduler/events.rs:228-231 | the event of the tag, or the place for it |
| `Events.AbsorbedAgenda` | src/scheduler/events.rs:147-152 | absorbing an event changes nothing about what is pending: plans are united and stop flags or-ed |
| `Events.EarliestFirst` | src/scheduler/events.rs:209-222 | the first event of the queue is the earliest |
| `Events.SuccessorIsLater` | src/scheduler/events.rs:87-104 | a successor is later if and only if the delay is positive or the microstep is not the last one |
| `Events.SuccessorIsNext` | src/scheduler/events.rs:87-104 | the successor by a delay is the first tag that is later than the given one and whose time is at least the delay later, unless there is no delay in the last microstep |
| `Events.RankKeepsOrder` | src/scheduler/events.rs:20-29 | tags are ordered lexicographically, by offset and microstep |
| `Timers.FiresWhenPresent` | src/timers.rs:67-77 | the tags at which bootstrapping and rescheduling make the timer fire are exactly the tags of microstep zero at which it says to be present |
| `Timers.PresentAtEveryMicrostep` | src/timers.rs:67-77 | the timer also says to be present at all later microsteps of such a time |

## Left out

- The real clock, sleeping, the channel, threads, mutex poisoning and `was_terminated` notifications: each turn takes
  what they contribute as an input, under the assumptions stated as `Fair`.
- Rayon and the unsafe sharing of reactors in the parallel runtime: a batch is split in any way and merged along any
  tree; reactions of one batch run one after the other within the model, in any order, and do not interleave.
- `Cow` and `Arc` sharing of plans: a plan is a value, and only the choice between owned and borrowed is kept.
- The level sets of the variant without `vec-id-sets` (hash sets), and ids wider than 32 bits.
- Keys of the vector map and level numbers are integers; the overflow of the 32-bit level counter is not modelled, as
  levels are below the number of nodes, which itself is a 32-bit index.
- Durations are natural numbers of nanoseconds; overflow of `Duration` and of `Instant` arithmetic is not modelled.
- petgraph: a graph is a sequence of nodes and a sequence of edges, and `toposort` returns any topological order, or an
  error if there is a cycle.
- User code of reactions and generated adapters: a sequence of commands. The assumption is that the cleanup reaches
  every component.
- The cells that bound ports share, inside the scheduler state: a value is stored under the id of the port that is set,
  which `Ports.SetTree` and `Declarations.RootTriggersTree` relate to its tree.
- Values that asynchronous threads store in physical actions: only the events they send are modelled.
- Ports.Port.ForwardTo: the error carries no ids; the debug assertion against setting a bound port is not modelled.
- `bind_ports_zip` and `bind_ports_iterated`: repeated `bind_ports` over iterators.
- `multiport_containment`: it is only written.
- The registration of reactors in a vector, nested assembly of children, and the debug registry.
- Tracing, `format_dot`, `Display` and `Debug` code, the `delay!` and `tag!` macros, parsing of ids, hashing.
