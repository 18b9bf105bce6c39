# Verification of the signal/slot event system

This project models the Qt-like event system of the repository and proves what its protocols promise: an event loop
whose objects die while events are in flight, posting threads that wake it, deferred calls that collapse, connections
that end from either side, timers that follow their objects across threads, and OS threads that are started, joined
and restarted. `dafny verify dfyconfig.toml` checks everything.

## How the model is built

Code that changes an object step by step is a class with the program's own fields and loops. Each of its methods is
proved equal to a function on values, and the properties are proved about that function over whole runs. Code whose
difficulty is interleaving (the wake protocols, stopping a thread, joining a thread) is a state machine whose steps are
the program's atomic accesses: one critical section, one exchange, one store, one system call. A run is any finite
list of steps; a step that is not enabled when its turn comes does not happen, so a lemma about all lists is a lemma
about all interleavings, with any number of callers.

| file | what it holds |
|---|---|
| `Basics.dfy` | what the other modules share: `Option`, object identities |
| `TimerList.dfy` | the dispatcher's timer list, the wait deadline, the firing rate over whole runs |
| `EventLoop.dfy` | the dispatcher's operations, user code and one pass of `processEvents()`, as functions |
| `EventLoopSafety.dfy` | what such a pass keeps for arbitrary user code: liveness, ownership, order |
| `DeferredDeletion.dfy` | the shutdown drain of deferred deletes |
| `LateLandings.dfy` | emits whose post lands after the destructor of their receiver, and which programs cannot have them |
| `DirectDeletion.dfy` | when a pass touches a dead object, and which programs cannot make it |
| `EventFates.dfy` | which way an event can end, and that no destructor runs twice |
| `EventLoopRuns.dfy` | whole runs of passes, drains and actions in between |
| `EventLoopService.dfy` | what a program gets from the loop: its events within two passes, its ticks in the first pass at or after the deadline |
| `EventDispatcherDefault.dfy` | the dispatcher object, proved to do what `EventLoop` and `DeferredDeletion` say |
| `WakeProtocol.dfy` | collapsing flag, wake token and mutex, on Linux and on Windows |
| `WakeUpCalls.dfy` | which `wakeUp()` calls a blocked loop sleeps through |
| `QuitProtocol.dfy` | `exit()` against `threadBody()` and `exec()` |
| `QuitWake.dfy` | `exit()` and the wake protocol as one machine: one `exit()` is enough to bring a run to its end |
| `ThreadPosix.dfy`, `ThreadWin.dfy` | `start()`, `wait()` and `setPriority()` on each platform |
| `CallLaterKeys.dfy`, `CallLater.dfy` | the keys of `callLater()`, and its registry, nodes and queue, with `~Object()` in two phases |
| `Connections.dfy` | signals' slots against receivers' `mIncoming`, with `~Object()` in two phases around its cleanup callbacks |
| `TimerMigration.dfy` | timers across `moveToThread()` |
| `TimerFacade.dfy` | the `Timer` object's activations |

User code is data: a `Program` gives, for every event and every object's cleanup, the list of operations performed, and
lemmas hold for every program. In `EventLoop` an event's number is its place in the log of all allocations, so order
and "exactly once" are statements about numbers and multisets.

## What the code does that its comments do not say

- `src/EventDispatcherLinux.cpp:216-218` argues that a racing waker either wrote before the read or finds the flag
  clear. There is a third case: between the read and the store a poster finds the flag still set and returns, and no
  wake is coming (`WakeProtocol.ThirdCase`). It is harmless only because the loop then takes the mutex again and looks
  at the queue. `CollapseOnlyInWindow` shows this window is the only one, and `NoLostWakeup` is proved with it.
- On Windows the flag is cleared after the queue was drained (`WakeUpCalls.SpentOnlyWhilePeeking`). An event is not
  lost there, because its state is tested again before the next wait, but a bare `wakeUp()` can be, wherever its
  exchange was made: the loop sleeps through a recorded request if and only if the flag has been cleared since the
  exchange of every call recorded so far (`SleepsThroughIff`). Three runs show the ways: the exchange collapses
  inside the window (`WakeProtocol.BareWakeUpCanBeLost`); the call posts its own message, after the drain, and the
  same peeking loop takes it (`LostThoughItPostedRuns`); the call is made before the drain of a pass that does not
  wait and so never consumes the request (`LostBeforeTheDrainRuns`). A request recorded while the loop is blocked is
  not lost (`WakeUpWhileBlockedIsNotLost`), and on Linux none is (`NeverOnLinux`).
- An emit that has found the life token alive can be overtaken by its receiver's destructor and post afterwards
  (`src/Object.h:979-995`, `src/Object.cpp:88-92, 656-683`); `postEvent()` does not ask (`src/EventDispatcherDefault.cpp:319-336`). The event then
  stays queued for a dead object, and the first pass that drains the queue dispatches to freed memory, whatever the
  program (`DirectDeletion.StrayFaults`), also one that uses `deleteLater()` throughout
  (`EventLoopRuns.EmitRaceFaults`). A run that does not fault has such an event queued if and only if an emit landed
  late (`RunStrayIff`).
- A handler or cleanup callback that destroys directly an object with entries left in the running batch makes the pass
  dispatch to freed memory (`EventLoopRuns.DirectDeleteFaults`). These are the only two ways
  (`DirectDeletion.PassFaultsIff`, `EventLoopRuns.RunFaultsIff`). A program whose handlers and callbacks destroy
  directly only objects that are never sent an event or given a timer is safe over every run in which no emit lands
  late (`CarefulProgramsKeepPromises`); `deleteLater()` throughout is enough for that (`DeleteLaterIsEnough`). Without
  any condition on the run it is enough when the objects that racing emits aim at are not those that get deleted
  (`SeparateTargetsAreEnough`).
- `~Object()` disconnects before it runs the cleanup callbacks (`src/Object.cpp:98-133`), and `connect()` does not ask
  whether its receiver is being destroyed (`src/Object.h:975-998`). A callback that connects a signal to the dying
  object leaves a slot behind for ever (`Connections.ConnectFromCallbackStays`); otherwise nothing leads to a
  destroyed receiver (`DestructorLeavesNothingIff`). `callLater()` from such a callback leaves nothing, because the
  registry is cleaned after the callbacks (`CallLater.DestructorLeavesNothing`).
- On Windows a restart that overlaps a `wait()` of the earlier run can leave that run's handle open for ever
  (`ThreadWin.OverlappingRestartLeaks`), and so can a timed `wait()` that gives up and leaves last
  (`TimedOutLeaverLeaks`). Without overlap the earlier handles are closed if and only if every restart found the
  handle null (`EarlierHandlesClosedIff`), which it always does without timed waits (`ClosedExactlyOnce`). In any run
  a handle is closed if and only if some `wait()` on it that saw its thread end was the last one out (`ClosedIff`).
- `moveToThread()` loses the timers it takes if and only if there are some and the target has no dispatcher
  (`TimerMigration.MoveConservesIff`); `killTimer()` finds its timer if and only if it is called on the object's own thread while the
  timer is not on its way (`KillFindsIff`); and
  a destroyed object stays named by every call still queued on a thread it had left (`DestroyedIsForgottenIff`).
- `src/Timer.cpp:89-90` says that `stop()` from another thread leaves the timer running. The dispatcher's timer does
  run on, but the object calls itself inactive and ignores its ticks (`TimerFacade.StopElsewhereIff`,
  `StaleTicksAreIgnored`).

## Model

| member | source | states |
|---|---|---|
| TimerList.ExpiredIsExact | src/EventDispatcherDefault.cpp:51-60 | a collection takes exactly the timers that are due, none early, none twice |
| TimerList.DueAgainIff | src/EventDispatcherDefault.cpp:49-60 | after a collection a timer is due again if and only if one interval from the clock it was collected by has passed; one that was not due keeps its deadline |
| TimerList.TimeoutIsTight | src/EventDispatcherDefault.cpp:62-107 | the timeout is -1 only without timers; otherwise it is in [0, INT_MAX], not past the earliest deadline and less than 1 ms short of it |
| TimerList.TimeoutOverRuns | src/EventDispatcherDefault.cpp:62-107 | the same over every run of timer operations from an empty list, whenever no timer is due |
| TimerList.RegisteredMembers | src/EventDispatcherDefault.cpp:259-292 | registering keeps ids distinct, replaces a known id, declines a negative interval, and leaves every other timer |
| TimerList.UnregisteredLength | src/EventDispatcherDefault.cpp:296-315 | unregisterTimer's answer is whether the id was registered |
| TimerList.TakeSplits | src/EventDispatcherDefault.cpp:376-410 | what is taken and what stays make up the list; the taken ones are exactly the receiver's, and exactly the others stay |
| TimerList.TimerRate | src/EventDispatcherDefault.cpp:49-60 | over any run ids stay distinct and a timer of interval I > 0 fires at most elapsed / I times |
| TimerList.RunKeepsRate | src/EventDispatcherDefault.cpp:49-85 | every operation and the passage of time keep the rate invariant of every timer |
| EventLoopSafety.PerformKeeps | src/Object.cpp:50-158 | arbitrary user code, nested destructors included, keeps liveness, ownership and order |
| EventLoopSafety.DestroyKeeps | src/Object.cpp:50-158 | a destructor with arbitrary cleanup callbacks keeps every invariant although it runs re-entrantly |
| EventLoopSafety.DispatchNextKeeps | src/EventDispatcherDefault.cpp:151-173 | a dispatched entry has a live receiver or is skipped, unless its receiver was dead when the batch was taken or was destroyed directly since: exactly then the turn faults |
| EventLoopSafety.DispatchDelivers | src/EventDispatcherDefault.cpp:149-192 | every batch entry is delivered or discarded with its dead receiver, and nothing else is delivered |
| EventLoopSafety.PassDelivers | src/EventDispatcherDefault.cpp:128-192 | a pass delivers what was queued when it drained the queue; what its handlers post waits for a later pass |
| EventLoopSafety.Bounded | src/EventDispatcherDefault.cpp:319-336 | everything queued, in flight or delivered was posted before the next allocation |
| DirectDeletion.StrikesKill | src/Object.cpp:50-158 | user code destroys an object the running batch names if and only if one of its destructions, nested ones included, meets that guard |
| DirectDeletion.TurnStrikesKill | src/EventDispatcherDefault.cpp:151-173 | the same for one turn of the dispatch loop |
| LateLandings.PerformStrayIff | src/Object.cpp:656-683 | user code and other threads leave an event queued for a dead object if and only if one was there or some emit posts after the destructor of its receiver |
| LateLandings.DispatchStrayIff | src/EventDispatcherDefault.cpp:149-192 | the same for a dispatch with arbitrary handlers |
| LateLandings.PassStrayIff | src/EventDispatcherDefault.cpp:27-195 | the same for a pass that meets no such event |
| LateLandings.DrainStrayIff | src/EventDispatcherDefault.cpp:414-460 | the same for a drain, which leaves such events queued |
| LateLandings.SeparateNeverLandsLate | src/Object.h:979-995 | where deletions and racing emits have different targets no emit lands late |
| DirectDeletion.DispatchFaultsIff | src/EventDispatcherDefault.cpp:149-192 | the dispatch loops touch a dead receiver if and only if the batch named one when it was taken or some turn destroys directly an object that entries after it name |
| DirectDeletion.PassFaultsIff | src/EventDispatcherDefault.cpp:27-195 | a whole pass faults if and only if the queue it drains names a dead object or a turn strikes so |
| DirectDeletion.StrayFaults | src/EventDispatcherDefault.cpp:128-164 | an event queued for a dead object makes the first pass that drains the queue fault, for every program |
| DirectDeletion.DrainLoopFaultsIff | src/EventDispatcherDefault.cpp:414-460 | so does a drain, if and only if the dispatch of one of its turns does |
| DirectDeletion.CarefulNeverStrikes | src/Object.cpp:125-133 | code that destroys directly only objects the batch does not name never meets the guard, whatever its callbacks do |
| DirectDeletion.PassQuiet | src/EventDispatcherDefault.cpp:27-195 | no turn of a pass of a careful program strikes, and nothing is left addressed to the objects it may destroy |
| DirectDeletion.DrainQuiet | src/EventDispatcherDefault.cpp:414-460 | nor does a drain |
| EventFates.PerformFates | src/Object.cpp:50-158 | no user code runs a destructor twice or puts a tick in the queue |
| EventFates.DispatchFates | src/EventDispatcherDefault.cpp:149-192 | a dispatch files every entry under the one heading its kind allows |
| EventFates.ProcessEventsFates | src/EventDispatcherDefault.cpp:27-195 | a pass drops only ticks, delivers only posted events and drains nothing |
| EventFates.DrainFates | src/EventDispatcherDefault.cpp:414-460 | a drain takes only deferred deletes |
| DeferredDeletion.TurnShrinks | src/EventDispatcherDefault.cpp:425-459 | each turn of the drain destroys every receiver it extracted, so at least one object more |
| DeferredDeletion.DrainLoopResult | src/EventDispatcherDefault.cpp:425-459 | the drain loop's result, with its termination over finitely many objects |
| DeferredDeletion.DrainCompletes | src/EventDispatcherDefault.cpp:414-460 | the drain ends with no DeferredDelete queued, every receiver that had one destroyed, and the other survivors in their old order |
| DeferredDeletion.DispatchKeepsQueue | src/Object.cpp:415-443 | during a dispatch the queue loses only entries of destroyed objects and grows only at its end |
| EventLoopRuns.StepFaultsIff | src/Thread.cpp:138-158 | the exact condition, on the program and the state before, for a pass, a drain or outside actions to touch a dead object: a turn strikes, or a pass drains an event that landed late |
| EventLoopRuns.RunFaultsIff | src/EventDispatcherDefault.cpp:27-195 | over every run: memory safety fails if and only if some turn destroys directly an object the entries after it name, or some pass drains an event that landed after its receiver's destructor |
| EventLoopRuns.RunStrayIff | src/Object.cpp:656-683 | a run that does not fault ends with an event queued for a dead object if and only if it began with one or some emit landed late |
| EventLoopRuns.RunPromises | src/EventDispatcherDefault.cpp:319-372 | every run that does not fault delivers in posting order, runs no destructor twice, keeps timers for live objects only, and every posted event has met exactly one end: queued, delivered, discarded with its dead receiver, or drained as a deferred delete; its queue names a dead object exactly if an emit landed late, and a run in which none does faults only by a strike |
| EventLoopRuns.CarefulProgramsKeepPromises | src/Object.cpp:415-443 | a program that destroys directly only objects that are sent nothing keeps all of this, and a queue of live receivers, over every run in which no emit lands late |
| EventLoopRuns.DeleteLaterIsEnough | src/Object.cpp:415-443 | in particular, under the same hypothesis, a program that deletes by deleteLater() only |
| EventLoopRuns.SeparateTargetsAreEnough | src/Object.cpp:88-92 | with no hypothesis on the run, if the objects that racing emits aim at are not those that are deleted |
| EventLoopRuns.EmitRaceFaults | src/Object.cpp:656-683 | for every program that deletes by deleteLater() only: a run that faults because an emit posts after the deferred delete |
| EventLoopRuns.OnePlace | src/EventDispatcherDefault.cpp:116-192 | at every step an allocated event is in exactly one place |
| EventLoopRuns.TeardownFreesEverything | src/EventDispatcherDefault.cpp:13-21 | destroying the dispatcher leaves every event ever allocated freed exactly once |
| EventLoopRuns.DestroyInBatchFaults | src/EventDispatcherDefault.cpp:138-173 | the simplest family of faulting batches: the next entry's handler begins by destroying a live receiver of an entry after it (DirectDeletion.DispatchFaultsIff is the general form) |
| EventLoopRuns.DirectDeleteFaults | src/EventDispatcherDefault.cpp:138-173 | a run of two posts and one pass that does fault |
| EventLoopService.PassGetsThrough | src/EventDispatcherDefault.cpp:128-192 | a pass that no interrupt ends delivers everything queued when it began, or frees it with its dead receiver |
| EventLoopService.InterruptCostsOnePass | src/EventDispatcherDefault.cpp:29-40 | over a run of two passes, with an interrupt pending or arriving meanwhile, every queued event is through: the interrupt is consumed by the one pass it ends |
| EventLoopService.TopTestEndsPass | src/EventDispatcherDefault.cpp:37-40 | a pass that finds the interrupt at its top clears it and does nothing else |
| EventLoopService.SecondTestEndsPass | src/EventDispatcherDefault.cpp:113-126 | a pass that finds it after the wait clears it, frees the collected ticks and leaves the queue alone |
| EventLoopService.InterruptSticks | src/EventDispatcherDefault.cpp:477-490 | an interrupt() anywhere in user code, nested destructors included, is pending afterwards |
| EventLoopService.CreatedReceives | src/EventDispatcherDefault.cpp:319-336 | an object that is created and sent an event gets it in the next pass, or was destroyed |
| EventLoopService.PostEndsTheWait | src/EventDispatcherDefault.cpp:62-133 | what is posted while the loop waits is through in the same pass |
| EventLoopService.WorkIsNotKeptWaiting | src/EventDispatcherDefault.cpp:62-111 | with something queued or due the pass does not wait: what would happen in a wait makes no difference |
| EventLoopService.PassTicksIff | src/EventDispatcherDefault.cpp:49-60 | an uninterrupted pass hands over a tick of a timer if and only if the timer was due when it looked at the clock |
| EventLoopService.StartedTimerTicksIff | src/EventDispatcherDefault.cpp:259-292 | a started timer ticks in a pass so much later if and only if its interval is not negative and over by then |
| EventLoopService.KilledTimerIsSilent | src/EventDispatcherDefault.cpp:296-315 | a killed timer does not tick although due, and every other due timer does |
| EventLoopService.TickedTimerIsRearmed | src/EventDispatcherDefault.cpp:58 | a timer that has ticked is due again exactly one interval after the clock it ticked by |
| EventLoopService.RunNumbered | src/Object.cpp:501-533 | over every run of any program no two registered timers share an id and every id was issued |
| EventLoopService.TimerChangesAreFlagged | src/EventDispatcherDefault.cpp:259-315 | user code that starts or kills timers leaves the change flag set whenever the list has changed |
| EventLoopService.ChangeFlagIsOneShot | src/EventDispatcherDefault.cpp:87-92 | the change flag is cleared by entering the wait and by nothing else in a pass |
| EventLoopService.WakeUpIsOneShot | src/EventDispatcherDefault.cpp:106-111 | a wakeUp() is remembered until a wait ends and no longer |
| EventDispatcher.EventDispatcherDefault.constructor | src/EventDispatcherDefault.cpp:10 | a fresh dispatcher is empty |
| EventDispatcher.EventDispatcherDefault.Clear | src/EventDispatcherDefault.cpp:13-21 | the destructor's loop frees the queue in order |
| EventDispatcher.EventDispatcherDefault.RegisterTimer | src/EventDispatcherDefault.cpp:259-292 | replaces in place or appends; declines null and negative intervals; flags the change |
| EventDispatcher.EventDispatcherDefault.UnregisterTimer | src/EventDispatcherDefault.cpp:296-315 | removes the id, answers whether it was there, and flags the change only then |
| EventDispatcher.EventDispatcherDefault.TakeTimersForReceiver | src/EventDispatcherDefault.cpp:376-410 | returns exactly the receiver's registrations and flags the change only if there were any |
| EventDispatcher.EventDispatcherDefault.PostEvent | src/EventDispatcherDefault.cpp:319-336 | appends, or refuses a null receiver or event |
| EventDispatcher.EventDispatcherDefault.RemoveEventsForReceiver | src/EventDispatcherDefault.cpp:339-372 | frees the receiver's events and removes its timers, nothing else |
| EventDispatcher.EventDispatcherDefault.RequestDelete | src/Object.cpp:415-443 | only the first deleteLater() posts |
| EventDispatcher.EventDispatcherDefault.Destruct | src/Object.cpp:120-133 | the life token goes first, then the callbacks run, then the dispatcher forgets the object (151-157); the disconnect loop is Connections, the registry erase CallLater |
| EventDispatcher.EventDispatcherDefault.HandleEvent | src/Object.cpp:451-481 | the three event types |
| EventDispatcher.EventDispatcherDefault.CollectExpired | src/EventDispatcherDefault.cpp:51-60 | the collecting loop allocates one tick per expired timer and rearms it in place |
| EventDispatcher.EventDispatcherDefault.WaitTimeout | src/EventDispatcherDefault.cpp:62-107 | the deadline scan finds the minimum |
| EventDispatcher.EventDispatcherDefault.DispatchEntry | src/EventDispatcherDefault.cpp:151-173 | one turn with deletedReceivers as a local set |
| EventDispatcher.EventDispatcherDefault.DeliverEntry | src/EventDispatcherDefault.cpp:158-173 | event(), then deletedReceivers remembers a deferred delete and the event is freed |
| EventDispatcher.EventDispatcherDefault.DispatchEntries | src/EventDispatcherDefault.cpp:149-192 | a dispatch loop; its answer is whether something was dispatched |
| EventDispatcher.EventDispatcherDefault.DrainQueue | src/EventDispatcherDefault.cpp:128-133 | takes the whole queue in order |
| EventDispatcher.EventDispatcherDefault.ProcessEvents | src/EventDispatcherDefault.cpp:27-195 | the whole pass, both interrupt tests included; true if and only if something was dispatched |
| EventDispatcher.EventDispatcherDefault.DrainTurn | src/EventDispatcherDefault.cpp:425-459 | one turn of the drain, its scan erasing while it walks |
| EventDispatcher.EventDispatcherDefault.DrainDeferredDeletes | src/EventDispatcherDefault.cpp:414-460 | the drain loop, with its termination |
| EventDispatcher.EraseDeferredDeletes | src/EventDispatcherDefault.cpp:428-441 | erasing during the scan extracts all deferred deletes and keeps all others, in order |
| EventDispatcher.CollectExpiredTimers | src/EventDispatcherDefault.cpp:51-60 | the collecting loop over the list |
| EventDispatcher.RemoveEventsByReceiver | src/EventDispatcherDefault.cpp:351-362 | the scan frees the receiver's entries and keeps the others, in order |
| EventDispatcher.RemoveTimersByReceiver | src/EventDispatcherDefault.cpp:388-401 | remove_if with its side effect: kept and taken timers, in order |
| WakeProtocol.NoLostWakeup | src/EventDispatcherLinux.cpp:115-220 | a loop blocked although an event, interrupt, timer change, source change (or, on Linux, a wakeUp()) is pending has a token or a write ahead of it |
| WakeProtocol.ReturnedMeansAwake | src/EventDispatcherLinux.cpp:180-206 | once every call has returned the token is there |
| WakeProtocol.CollapseOnlyInWindow | src/EventDispatcherLinux.cpp:209-220 | a set flag without token or write exists only between the read and the store |
| WakeProtocol.ThirdCase | src/EventDispatcherLinux.cpp:209-220 | the case the comment omits is reachable |
| WakeProtocol.BareWakeUpCanBeLost | src/EventDispatcherWin32.cpp:127-190 | on Windows a bare wakeUp() can be swallowed: a run in which it collapses between peek and store |
| WakeUpCalls.WakeComingIff | src/EventDispatcherWin32.cpp:127-152 | a blocked loop's wake is coming if and only if some recorded call's exchange has a flag not cleared since |
| WakeUpCalls.SleepsThroughIff | src/EventDispatcherDefault.cpp:463-474 | on either platform, after any run, a blocked loop sleeps through a wakeUp() if and only if one is recorded and the flag was cleared after every recorded call's exchange |
| WakeUpCalls.NeverOnLinux | src/EventDispatcherLinux.cpp:180-220 | on Linux that never happens |
| WakeUpCalls.WakeUpWhileBlockedIsNotLost | src/EventDispatcherWin32.cpp:90-152 | on Windows too, a wakeUp() recorded while the loop is blocked has its wake coming |
| WakeUpCalls.SpentOnlyWhilePeeking | src/EventDispatcherWin32.cpp:155-190 | on Windows the flag is cleared only between the drain of the queue and the last peek |
| WakeUpCalls.LostThoughItPostedRuns | src/EventDispatcherWin32.cpp:155-190 | a run in which the lost call did post its own message |
| WakeUpCalls.LostBeforeTheDrainRuns | src/EventDispatcherWin32.cpp:155-190 | a run in which the lost call came before the drain, outside the window |
| WakeProtocol.ExecKeepsWake | src/EventDispatcherDefault.cpp:463-490 | the invariant behind NoLostWakeup holds on every run of both platforms |
| WakeProtocol.IdlePassesAreBounded | src/EventDispatcherDefault.cpp:37-126 | passes that dispatch nothing: at most two per call plus one per wait not ended by the token |
| WakeProtocol.NoIdleSpin | src/EventDispatcherDefault.cpp:37-126 | without timers and ready sources, at most two empty passes per call |
| WakeProtocol.NoOversleep | src/EventDispatcherDefault.cpp:62-110 | a blocked loop's wake time is not past any timer's deadline, unless the list changed and the wake is coming |
| WakeProtocol.EnteredWaitIsTight | src/EventDispatcherDefault.cpp:62-106 | over every run a wait is entered without deadline if and only if no timer is registered, and otherwise for less than 1 ms short of the earliest deadline and not past it |
| WakeProtocol.NoEarlyWake | src/EventDispatcherDefault.cpp:62-110 | so, whatever others do meanwhile, a wait ended by its timeout ends less than 1 ms before the earliest deadline of the timers registered when it was entered |
| WakeProtocol.TimeoutEndsTheWaitIff | src/EventDispatcherLinux.cpp:145-177 | whatever others do meanwhile, the timeout ends a wait exactly when its time, counted from where it blocked, is up |
| WakeProtocol.WaitsIff | src/EventDispatcherDefault.cpp:62-65 | the loop waits if and only if nothing is queued and no timer is due |
| WakeProtocol.CallTakesEffectAndWakes | src/EventDispatcherDefault.cpp:259-336 | over every run a call changes what it is meant to, returns without waking if and only if that is nothing, and otherwise has a blocked loop woken |
| WakeProtocol.QueueIsTakenIff | src/EventDispatcherDefault.cpp:113-133 | queued events are taken, all at once, exactly by a pass that gets past its second interrupt test |
| WakeProtocol.StripTakes | src/EventDispatcherDefault.cpp:339-372 | a destroyed receiver takes its timers and events along, no others, and wakes nobody |
| WakeProtocol.CheckRearms | src/EventDispatcherDefault.cpp:51-60 | what the loop collects it rearms one interval after the clock it looked at |
| QuitProtocol.QuitIsNeverLost | src/Thread.cpp:184-197 | after exit() returned at most one pass completes, a blocked pass has its interrupt, and the next test leaves the loop, also during startup |
| QuitProtocol.ExecReturnsAnExitCode | src/Thread.cpp:444-455 | exec() returns a code stored by some exit() of this run, never a stale one |
| QuitProtocol.LastStoreWins | src/Thread.cpp:184-190 | of any number of overlapping exit() calls the last store decides the code, and nothing else touches it |
| QuitProtocol.ResultIsLastStored | src/Thread.cpp:444-455 | exec() returns the code stored last before it leaves, whatever is called afterwards |
| QuitProtocol.EveryStepLeadsOut | src/Thread.cpp:444-455 | after exit() returned every step of the thread brings exec() closer to its end |
| QuitProtocol.ExecKeeps | src/Thread.cpp:97-136 | the invariant over every interleaving of exit() calls with startup and the loop |
| QuitWake.ExitEndsTheWait | src/Thread.cpp:184-197 | exit() and the wake protocol as one machine: a loop blocked after an exit() returned has its wake coming, and the token once all calls are through |
| QuitWake.EveryStepLeadsOut | src/Thread.cpp:444-455 | from then on every step of the thread, inside processEvents() or out, brings exec() nearer its return |
| QuitWake.NeverStuck | src/EventDispatcherDefault.cpp:27-126 | and with all calls returned there is such a step: no one keeps the mutex and no wait lacks its token |
| QuitWake.ExecReturns | src/Thread.cpp:97-136 | so from any such state of any run the thread's own steps alone reach the end of exec() |
| QuitWake.OneExitIsEnough | src/Thread.cpp:184-197 | however a run stands, calls half-way through included, an exit() once called can return and exec() after it, by steps of calls already made and of the thread alone |
| QuitWake.ExitPokesAndWakes | src/Thread.cpp:191-196 | an exit() that saw a dispatcher leaves its interrupt and then its wake-up request with the wake protocol; one that saw none touches nothing |
| QuitWake.ExecKeeps | src/EventDispatcherDefault.cpp:477-490 | both invariants, the mutex and the shared interrupt flag stay in step over every interleaving |
| ThreadPosix.JoinedExactlyOnce | src/ThreadPosix.cpp:174-222 | every thread is joined exactly once, in order, before a new one is created |
| ThreadPosix.JoinNeverWaitsForItsOwnMutex | src/ThreadPosix.cpp:213-220 | a join under mPriorityMutex is only for a thread that no longer needs that mutex |
| ThreadPosix.JoinMakesProgress | src/ThreadPosix.cpp:213-220 | while a join blocks, the joined thread can take its next step |
| ThreadPosix.NoLostWaiter | src/Thread.cpp:169-173 | a waiter asleep although the flag is stored still has the notification ahead |
| ThreadPosix.TrueMeansJoined | src/ThreadPosix.cpp:174-222 | a true wait() leaves the thread it found joined |
| ThreadPosix.FalseMeansGaveUp | src/ThreadPosix.cpp:192-210 | over every run a wait() has returned false if and only if it was timed and, its time up, found the finished flag unset |
| ThreadPosix.FinishedMeansTrue | src/ThreadPosix.cpp:192-222 | a wait() that looks for the flag once it is stored can from then on only return true, with the run it looked for joined |
| ThreadPosix.EveryWaitCanReturn | src/ThreadPosix.cpp:174-222 | from any state of any run every wait() returns by steps of the thread and the waiters, without a timeout: no deadlock between the two mutexes and the join |
| ThreadPosix.StartCreates | src/Thread.cpp:57-88 | start() of a thread that is neither running nor unreaped creates a run; of a running one it does nothing |
| ThreadPosix.PriorityHandleIsSafe | src/Thread.cpp:236-253 | running and joinable under the mutex means a live, unjoined thread of the current run |
| ThreadPosix.ExecKeeps | src/ThreadPosix.cpp:82-222 | the invariant over every interleaving |
| ThreadWin.HandlesAreSafe | src/ThreadWin.cpp:112-157 | no handle is closed under a waiter or twice, with any waits and overlapping restarts |
| ThreadWin.NewHandleIsNotForgotten | src/ThreadWin.cpp:147-153 | the newest handle stays until it is closed itself |
| ThreadWin.LastOneOutCloses | src/ThreadWin.cpp:142-155 | a leaving waiter closes its handle if and only if its wait completed and no other waiter is inside |
| ThreadWin.ClosedIff | src/ThreadWin.cpp:112-157 | over every run, overlapping restarts and timed waits included, a handle is closed if and only if some wait() on it that saw its thread end left with no other wait() inside |
| ThreadWin.FalseMeansTimedOut | src/ThreadWin.cpp:130-156 | over every run a wait() that has returned says false if and only if its time ran out as it was blocked |
| ThreadWin.TrueMeansEnded | src/ThreadWin.cpp:112-156 | a wait() that returns true has outlasted every run created before it looked at the handle |
| ThreadWin.EveryWaitCanReturn | src/ThreadWin.cpp:112-157 | from any state of any run every wait() returns by steps of the thread, of a start() under way and its own, without a timeout |
| ThreadWin.StartCreates | src/Thread.cpp:57-88 | start() of a thread that is neither running nor unreaped creates a run with its own handle; of a running one it does nothing |
| ThreadWin.PriorityHandleIsSafe | src/Thread.cpp:236-253 | running with a handle present under the mutex means the current run's open handle and a live thread |
| ThreadWin.ClosedExactlyOnce | src/ThreadWin.cpp:112-157 | without overlapping restarts and timed waits every earlier handle is closed exactly once |
| ThreadWin.EarlierHandlesClosedIff | src/ThreadWin.cpp:112-157 | timed waits included: without overlapping restarts the earlier handles are all closed if and only if every restart found the handle null |
| ThreadWin.TimedOutLeaverLeaks | src/ThreadWin.cpp:142-155 | a run in which a timed-out waiter leaves last and a handle stays open for ever |
| ThreadWin.OldHandleLeaks | src/ThreadWin.cpp:142-155 | an old handle with no waiter left inside is never closed afterwards |
| ThreadWin.OverlappingRestartLeaks | src/ThreadWin.cpp:13-40 | a run in which a restart overlaps a wait and a handle stays open for ever |
| CallLaterKeys.Hash | src/Object.h:384-399 | the accumulating loop is the fold over the bytes in use |
| CallLaterKeys.KeyEquality | src/Object.h:366-381 | comparing the bytes in use is equality of keys, and equal keys hash alike |
| CallLater.BurstMeansFirstPlaceLastArgs | src/Object.cpp:210-282 | a burst leaves one call per key, in the order of first calls, with the arguments of the last |
| CallLater.BurstRuns | src/Object.cpp:210-282 | over a run: calls of any keys from a state with nothing pending leave one per key, in the order of first calls with the arguments of the last, and that is what the loop then runs, in order |
| CallLater.ScheduledIsPending | src/Object.cpp:222-282 | a call of an existing context, with a dispatcher or for a pending key, is pending with exactly its arguments, and no other key is touched |
| CallLater.NotScheduledIsNothing | src/Object.cpp:246-281 | any other call changes nothing |
| CallLater.LastCallIsNeverLost | src/Object.cpp:210-282 | over every run a live key's last accepted call is pending or was the last of its key to run; a key is pending at most once and runs no more often than it was called |
| CallLater.ReentrantCallRearms | src/Object.cpp:247-265 | a call from inside its own running invoker takes a new place at the end |
| CallLater.FailedCallCanBeRetried | src/Object.cpp:267-280 | a call without dispatcher changes nothing, and the next one is accepted |
| CallLater.ScheduledIsPut | src/Object.cpp:222-282 | registry, node and queue together do one map insertion and stay one-to-one, also for a context inside its own destructor |
| CallLater.RanIsRunHead | src/Object.cpp:247-265 | a metacall of an existing context always finds its invoker and takes the head of the map |
| CallLater.SkippedIsNothing | src/EventDispatcherDefault.cpp:151-173 | a metacall of a dead context is skipped and was no longer pending |
| CallLater.DestroyedIsDestroy | src/Object.cpp:135-157 | the end of the destructor removes exactly the context's calls from registry, queue and map, the taken batch included |
| CallLater.CallLaterRegistry.ScheduleCallLater | src/Object.cpp:210-282 | scheduleCallLater() is one step of the map, failure path included |
| CallLater.CallLaterRegistry.TakeBatch | src/EventDispatcherDefault.cpp:128-133 | draining the queue changes nothing that is pending |
| CallLater.CallLaterRegistry.RunNext | src/Object.cpp:247-265 | running a metacall is the map's head step; a dead context's is none |
| CallLater.ExpiredContextNeverRuns | src/Object.cpp:98-157 | once its destructor has begun no call of a context runs; once it has ended none is pending |
| CallLater.DestructorLeavesNothing | src/Object.cpp:125-157 | whatever the cleanup callbacks schedule, for the dying context too, nothing of it is pending or runs afterwards |
| CallLater.CallLaterRegistry.ExpireLife | src/Object.cpp:89-98 | the destructor's beginning |
| CallLater.CallLaterRegistry.DestroyContext | src/Object.cpp:135-157 | its end, after the callbacks, is the map's removal |
| CallLater.EraseContext | src/Object.cpp:135-149 | the erase loop removes exactly the context's keys |
| Connections.RunStaysExact | src/Object.cpp:98-207 | under any mix of operations every live object's mIncoming is exactly its connected slots, once each, in order |
| Connections.IndexIsDetermined | src/Object.h:526-534 | the signals' slots alone determine mIncoming |
| Connections.BeginDestroyKeepsExact | src/Object.cpp:98-118 | the disconnect loop leaves no slot to its receiver and every other index exact |
| Connections.EndDestroyKeepsExact | src/Object.cpp:120-158 | so does the end of the destructor |
| Connections.LeadsIffLeftOver | src/Object.cpp:166-207 | from the disconnect loop on, the slots that lead to an object are exactly the connections made since and not ended |
| Connections.DestructorLeavesNothingIff | src/Object.cpp:98-133 | over any continuation a slot leads to a destroyed receiver if and only if a cleanup callback connected it and nothing has ended it; all other indexes stay exact |
| Connections.ConnectFromCallbackStays | src/Object.h:975-998 | a callback that connects to the dying object leaves a slot for ever, unless that connection or its signal is ended |
| Connections.ConnectFromCallbackExample | src/Object.h:975-998 | the shortest such run |
| Connections.DisconnectKeepsExact | src/Object.cpp:194-207 | a manual disconnect keeps every index exact |
| Connections.DestroySignalKeepsExact | src/Object.cpp:194-207 | destroying a signal keeps every index exact |
| Connections.AddSlotKeepsExact | src/Object.cpp:166-186 | connecting keeps every index exact |
| Connections.SlotNext | src/Object.h:975-1007 | what each operation does to the slots of all signals, plain functions included: which it makes, which it ends, and that it leaves the others |
| Connections.SignalsNext | src/Object.cpp:98-207 | signals, objects and indexes exist from their creation to their end and no longer |
| Connections.NewSlotIsLast | src/Object.h:998 | a new slot comes after those its signal has |
| Connections.IndexIsOwner | src/Object.cpp:111-118 | removing the slots behind the swapped-out handles is removing all slots of the receiver |
| Connections.Switchboard.Connect | src/Object.h:975-998 | one new slot and one new handle, or nothing for a null receiver |
| Connections.Switchboard.DestroyCleanup | src/Object.cpp:194-207 | the Cleanup prunes its owner's list unless the life token has expired |
| Connections.Switchboard.DropSlot | src/Object.h:1000-1007 | a disconnect unlinks one slot, at most once, and runs its Cleanup |
| Connections.Switchboard.Disconnect | src/Object.h:1000-1007 | a manual disconnect on both sides |
| Connections.Switchboard.DestroySignal | src/Object.cpp:188-207 | destroying the slots one by one prunes exactly the signal's handles |
| Connections.Switchboard.DisconnectAll | src/Object.cpp:105-118 | with the life token expired the loop removes the slots of all swapped-out handles and touches no list of handles |
| Connections.Switchboard.DestroySlots | src/Object.cpp:188-207 | destroying slots one by one prunes exactly their handles |
| Connections.Switchboard.BeginDestroy | src/Object.cpp:90-118 | life token, swap and disconnect loop together are one step of the network of connections |
| Connections.Switchboard.EndDestroy | src/Object.cpp:120-158 | what callbacks put in mIncoming goes undisconnected |
| Connections.Switchboard.Destruct | src/Object.cpp:90-133 | the whole destructor is begin, its callbacks' operations in order, end |
| Connections.RemoveHandle | src/Object.cpp:204-206 | erase-remove of one handle |
| TimerMigration.EveryTimerInOnePlace | src/Object.cpp:317-395 | through any chain of moves to threads with dispatchers a timer started and not killed is in exactly one dispatcher, its object's, or one queued call, and on its object's thread once the calls drained |
| TimerMigration.ChainsOfMovesConserve | src/Object.cpp:346-392 | such chains lose and revive nothing: what is kept is what was started and not killed |
| TimerMigration.ExactlyOnePlace | src/Object.cpp:346-392 | over all runs, losing ones included, no timer is ever in two places |
| TimerMigration.DrainedTimersAreHome | src/Object.cpp:369-391 | without queued calls every kept timer is on its object's present thread |
| TimerMigration.MoveConservesIff | src/Object.cpp:346-392 | a move keeps all timers if and only if it took none or the target has a dispatcher |
| TimerMigration.RunConservesIff | src/Object.cpp:376-391 | a queued call keeps its timers if and only if its object then has a dispatcher |
| TimerMigration.KillFindsIff | src/Object.cpp:539-560 | killTimer() leaves no trace of a known timer if and only if it is called on the object's own thread and the timer is not between threads |
| TimerMigration.KillInFlightFindsNothing | src/Object.cpp:539-560 | killing a timer carried by a call changes nothing |
| TimerMigration.DestroyedIsForgottenIff | src/Object.cpp:151-157 | nothing names a destroyed object if and only if its queued calls were where it lived |
| TimerMigration.NextAgrees | src/Object.cpp:501-560 | every operation keeps lists, calls and ledger in agreement |
| TimerMigration.MoveIff | src/Object.cpp:331-344 | an object ends up in the thread asked for if and only if it lives there, its own thread asks, or it has none and the caller adopts it; a refused move changes nothing |
| TimerMigration.OnlyTheOwnerMoves | src/Object.cpp:331-344 | over all operations, only its own thread or adoption changes where an object lives |
| TimerMigration.MoveQueuesAtTarget | src/Object.cpp:346-391 | the timers taken along wait in one call on the thread the object now lives in, with their ids and intervals, and no list but the old one changes |
| TimerMigration.RunRestarts | src/Object.cpp:374-391 | the call restarts every timer it carries, its interval counted from now, where the object lives by then |
| TimerMigration.StartIff | src/Object.cpp:501-533 | startTimer() answers with a new id, registered unless the interval is negative, exactly on the own thread with a dispatcher; otherwise with -1, changing nothing |
| TimerMigration.FirstTimer | src/Object.cpp:501-533 | from nothing: an object of a thread that gets a dispatcher has its timer there, due exactly when its time is up |
| TimerMigration.CollectRearms | src/EventDispatcherDefault.cpp:51-60 | a pass rearms the timers of its own thread and no others |
| TimerMigration.TimerThreads.StartTimer | src/Object.cpp:501-533 | refused off-thread and without dispatcher; otherwise a fresh id and one registration |
| TimerMigration.TimerThreads.KillTimer | src/Object.cpp:539-560 | removes the id from the object's own dispatcher only |
| TimerMigration.TimerThreads.MoveToThread | src/Object.cpp:317-395 | the permission rule, and taking, re-homing and queueing in the program's order |
| TimerMigration.TimerThreads.RunNextCall | src/Object.cpp:374-391 | the loop registers every carried timer wherever the object lives by then |
| TimerFacade.EmitsIffCurrent | src/Timer.cpp:102-125 | timeout is emitted exactly for a tick of the current activation of an active timer |
| TimerFacade.StaleTicksAreIgnored | src/Timer.cpp:107-110 | an ended activation never emits again, however many of its ticks are still to come |
| TimerFacade.RestartEndsActivation | src/Timer.cpp:80-99 | start() and stop() end the present activation for good |
| TimerFacade.StartActivates | src/Timer.cpp:80-85 | start() on the own thread makes the timer active under an id never issued, registered with the interval unless that is negative, and the next tick of it is emitted |
| TimerFacade.StartElsewhere | src/Timer.cpp:80-85 | off the thread or without dispatcher it leaves the timer inactive, issues no id and registers nothing |
| TimerFacade.RepeatsForEveryTick | src/Timer.cpp:102-125 | left running, a repeating activation emits once for every tick of its own and for no other |
| TimerFacade.IntervalCountsFromStart | src/Timer.cpp:68-85 | an interval set now is that of the next start(); the present registration keeps its own |
| TimerFacade.ModeDecides | src/Timer.cpp:112-124 | the mode in force when a tick arrives decides whether it is the last of its activation |
| TimerFacade.SingleShotEmitsLast | src/Timer.cpp:112-124 | a single-shot emission finds the timer inactive and unregistered and is the last of its activation |
| TimerFacade.SingleShotEmitsOnce | src/Timer.cpp:112-124 | a single-shot activation emits at most once over any run that leaves the timer single-shot |
| TimerFacade.NoRegistrationIsLeftBehind | src/Timer.cpp:80-99 | used on its own thread a timer holds one registration while active and none after |
| TimerFacade.StopElsewhereIff | src/Timer.cpp:87-99 | stop() off the thread leaves a registration if and only if the timer was active |
| TimerFacade.RunKeepsValid | src/Timer.cpp:80-125 | active means a current, issued id, over every run |
| TimerFacade.Timer.Start | src/Timer.cpp:80-85 | stop, then a new activation, inactive if the id is -1 |
| TimerFacade.Timer.StartWith | src/Timer.cpp:68-75 | start(msec) is setInterval() and then start() |
| TimerFacade.Timer.Stop | src/Timer.cpp:91-99 | ends the activation and kills its registration where it can |
| TimerFacade.Timer.TimerEvent | src/Timer.cpp:102-125 | filters by id, stops a single-shot timer first, emits last |

## Left out

- User code acts through `Program` (posts, deleteLater, create, destroy, timers, wake-ups, interrupts) over a finite universe of objects; an action aimed at an object that does not exist is not performed, except the post of an emit that tested the life token earlier (Land); deleteLater() and the timer operations are called on the object itself, so calling them after its destructor is the caller's error. Slots do not re-enter processEvents(), whose deletedReceivers set is local.
- EventLoopService.InterruptCostsOnePass: the second pass begins at once and no other thread acts while it waits; an interrupt made then would cost one pass more.
- EventLoop has one dispatcher: no object moves to another thread while events for it are queued. TimerMigration shows what such a move does to timer calls.
- Object identities are fresh: an address is not reused while the drain or a queue still remembers it.
- EventLoop.ProcessEvents does not block; what other threads do while a pass waits is the `during` argument, and blocking itself is WakeProtocol. An interrupt at the second test discards collected ticks (EventLoopService.SecondTestEndsPass), so ticks are promised for passes that no interrupt ends.
- WakeProtocol.NoOversleep: the bound includes the time between sampling the clock and starting to block, because the program passes a relative timeout.
- WakeProtocol: the condition-variable wait of the base class, used when no eventfd or window exists, is not modelled; eventfd writes and PostMessage succeed; no EINTR; descriptor callbacks and WM_ messages act only through further calls; nested modal loops are left out.
- CallLater: scheduleCallLater() is one atomic step, so the window between its registry lock and its node lock is not modelled; the contexts share one dispatcher, which outlives its pending calls.
- CallLater.SkippedIsNothing: a dead context's entry of the running batch is taken as skipped, as it is when the context died by a deferred delete; a direct destruction in mid-batch is DirectDeletion.
- CallLaterKeys: the hash of the context pointer is an arbitrary function.
- Connections: boost's own locking and emission races are left out; a slot is destroyed when it is disconnected. Overload selection of connect() and callLater() is compile-time only; one of each stands for all.
- TimerMigration keeps only the re-registration calls of moveToThread() in its queues; a dispatcher is never removed, and killing takes any timer with the given id, as in the program. A whole moveToThread() -- taking, re-homing, queueing -- is one step of a run, so nothing another thread does falls between these three.
- QuitProtocol starts after start() has reset the exiting flag: an exit() racing that reset is not covered. Passes are abstract there; QuitWake puts the wait of WakeProtocol inside them.
- QuitWake: an exit() may go on to its wakeUp() before its interrupt() has written the token, which allows more runs than the program has.
- QuitWake.OneExitIsEnough, ThreadPosix.EveryWaitCanReturn and ThreadWin.EveryWaitCanReturn say that the return is always within reach of the steps named; that a scheduler takes them is not modelled.
- ThreadPosix: no start() overlaps another thread's wait(). ThreadWin: restarts may overlap waits of other threads, but WAIT_FAILED is not modelled. In both, one controller at a time is inside start(), which src/Thread.cpp:47 documents as thread-safe: two overlapping start() calls that both find the thread not running are not covered.
- deleteLater() without a dispatcher, which destroys at once, and null receivers inside the dispatch loops, which postEvent() never lets in.
- Timer ids are unbounded integers; no wrap-around.
- Scheduling priorities and their platform tables, object and thread names, adopted threads, CoreApplication, Timer::singleShot(), exceptions thrown by slots, and memory-order effects weaker than sequential consistency: easy or compile-time facts, or outside the protocols.
