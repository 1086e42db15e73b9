# Proofs about the framework kernel module and its D-Bus watcher

The repository holds a FreeBSD kernel module that dims the screen of a laptop when nobody uses it,
and a small program that listens to media players on D-Bus. This project models the parts of both
where a mistake is easy and hard to see, and proves what they do and do not guarantee.

The code changes shared state step by step, so the model does too: classes with the source's fields,
methods that modify them, loops with invariants, and heap nodes with forward and back links. Each
method is tied, by its postcondition, to a step on a plain value (`View()` before and after). What
holds over whole runs and over all interleavings of threads is then proved about those steps, and
carried back to the objects by methods that play a run on them (`Drive`).

| files | part of the system |
|---|---|
| `Screen`, `ScreenListeners` | brightness arithmetic on `uint32_t`; N listener threads between its two locked sections |
| `Backlight`, `KeyHandler` | the panel write that is skipped when the level seems right; the key table |
| `Dimming`, `DimmingEffects`, `DimmingTiming` | the thread that dims by sleeping, sampling and sleeping again, with input from other threads |
| `DimmingRace`, `DimmingPassTime` | the same thread with its pass split at the locks, and with passes that take time |
| `CalloutShutdown` | how the dimming thread is stopped and its structure freed |
| `ListenerShutdown`, `ListenerShutdownProofs`, `ListenerAtWork`, `EventThread` | what an input listener does with an input, and how it is stopped and its two structures freed |
| `EvdevDrain` | emptying the list of bindings while their listeners handle input |
| `ClientDisposal` | several calls that all try to take one client off its device |
| `LockOrder` | the order in which every function takes its locks |
| `DimBlock`, `DimBlockWriters` | the counter of hints that ask not to dim, serially and with any number of writers at once |
| `Lifecycle` | loading, undoing a failed load, unloading |
| `Signals` | from the arguments of a D-Bus signal to three C strings |
| `PlayerList`, `Watcher`, `WatcherStream`, `WatcherPlayers` | the players' linked list, the handlers, any stream of messages, and any number of players behind it |

A proof over all runs is of this form: a run is any sequence of events each of which is enabled when
it comes; time passes one second per event; a thread takes one step per event, and any other thread
may step in between. Nothing is assumed about scheduling, except in `Dimming`, where a lateness says
how many seconds after its wake-up time the thread gets to run at the latest, and in `DimmingPassTime`,
which also limits the seconds between a pass's decision and the start of its sleep.

## What the proofs found

Properties that the code does not have in full are stated with the exact condition under which they
hold, and with a run that fails otherwise:

- With passes that take no time, the level is dim exactly when the last input is as old as the timeout
  (`DimmingTiming.DimExactlyWhenIdle`). With passes as they are, it is in all histories if and only if no
  second passes between a pass's decision and its sleep and no input arrives between its sample and its
  decision (`DimmingPassTime.AlwaysExactIff`). The first makes the level dim late, by as many seconds
  (`DimmingPassTime.OverdueHighNeedsTickInWindow`, `DimmingPassTime.SlowPassDelaysDim`). The second dims
  it over the input, until the next one (`DimmingRace.EarlyDimNeedsRacingInput`,
  `DimmingRace.RacingInputIsDimmed`), while `man/framework.4:54` promises an immediate increase.
- Measured against the timeout configured now, the same rule holds in all runs if and only if there is
  only one timeout to configure (`DimmingTiming.FollowsConfiguredIff`): raising the timeout does not
  undo a dim, and lowering it does not bring the next pass forward.
- The panel differs from what is selected between two passes only if an input, a setting or a mode
  change came after the thread had fetched its brightness (`DimmingRace.StalePanelNeedsLateChange`).
  Whatever comes between fetch and push, the panel gets what was fetched, so it is wrong after the push
  exactly if that is then no longer selected (`DimmingRace.LateChangesAreOverwritten`).
- A key shows on the panel only with the input after it: after a run of inputs the panel is right exactly
  if the last key changed nothing (`DimmingTiming.PanelLagsOneKey`, `DimmingTiming.PanelIsCurrentIff`).
- Presses upwards by several listeners at once overshoot 100 by up to 10 per other listener
  (`ScreenListeners.BoundsAreReached`). Presses downwards can leave 0..100, by wrapping below zero, if
  and only if there are two listeners and the level is at least 10; presses in both directions if and
  only if there are two listeners; and with sysctl writes if there is one
  (`ScreenListeners.DownPressesWrapIff`, `ScreenListeners.PressesLeaveRangeIff`,
  `ScreenListeners.AnyEventsLeaveRangeIff`).
- Setting the panel to 0 while its level cannot be read reports success without any change
  (`Backlight.Panel.SetBrightness`).
- A listener that has announced its shutdown but not yet cleared its THREAD flag is overtaken by the
  destroyer, which frees the structures first (`ListenerShutdownProofs.FinishedUnlessShutdownBranch`,
  `ListenerShutdownProofs.FreedTooEarly`); no callback runs by then, though, on any branch
  (`ListenerShutdownProofs.NoCallbackOnceTearingDown`).
- A battery state other than 0, 1, 2 and 4 leaves the power mutex locked, and then, and only then, no
  thread that asks for it ever gets it (`LockOrder.PowerLockIsGivenBackIff`).
- Writing to `dimblock` a positive value equal to the counter changes nothing, although
  `man/framework.4:78-90` lets any number of players write 1 (`DimBlock.WriteAsDocumentedIff`,
  `DimBlock.RunAsDocumentedIff`, `DimBlock.TwoPlayersCountAsOne`). With several writers at once that is
  still all that goes wrong (`DimBlockWriters.AllWritesTakeEffectIff`).
- `framework_destroy` called twice after a successful load would destroy everything twice
  (`Lifecycle.SecondUnloadIff`), and a load that failed at the key handler would report no error
  (`Lifecycle.Module.Load`). Neither call comes up: the kernel unloads once, and the key handler's
  allocation waits for memory.
- The watcher takes the interface for the player's name, so all players share one entry
  (`WatcherPlayers.PlayersShareOneEntry`) and one player's stop ends the playing of all in the list
  (`WatcherPlayers.OnePlayersStopEndsAll`). Whether anybody plays can be told from the list in all runs
  if and only if there is at most one player (`WatcherPlayers.AlwaysRightIff`); after a given run the
  list is wrong exactly if somebody plays and the latest status of anybody was a stop
  (`WatcherPlayers.ListIsRightIff`).

## Model

| member | source | states |
|---|---|---|
| `Screen.ScreenConfig.ChangeBrightness` | kmod/framework_screen.c:109-161 | the level becomes the relative change in machine arithmetic; 0 is returned exactly if the change was neither refused nor capped |
| `Screen.ChangedIsClampedIff` | kmod/framework_screen.c:120-158 | for every level and every `int` change but the least, the machine result is the clamped sum if and only if lowering ends at 100 or below, and raising does not wrap, or wraps to 100 or more |
| `Screen.ChangedInRange` | kmod/framework_screen.c:120-158 | from 0..100 every change is the clamped sum and stays in 0..100 |
| `Screen.ClampIsNearest` | kmod/framework_screen.c:127-152 | the clamped value is the nearest in 0..100 |
| `Screen.AppliedIffInFull` | kmod/framework_screen.c:120-160 | from 0..100 a change is reported as applied if and only if it was added in full; otherwise the level is at the end of the range |
| `Screen.ScreenConfig.SysctlLow` | kmod/framework_sysctl.c:55-80 | a value up to 100 is taken, a larger one leaves the setting alone |
| `Screen.ScreenConfig.SysctlHigh` | kmod/framework_sysctl.c:55-80 | likewise for the upper level |
| `Screen.ScreenConfig.SysctlTimeout` | kmod/framework_sysctl.c:119-121 | every timeout is taken, 0 included |
| `ScreenListeners.SharedScreen.Read` | kmod/framework_screen.c:116-151 | the first locked section and the decision taken on the value it read, as one step |
| `ScreenListeners.SharedScreen.Write` | kmod/framework_screen.c:129-157 | the second locked section applies that decision to the level as it is by then |
| `ScreenListeners.UpPressesBound` | kmod/framework_screen.c:140-158 | N listeners pressing only "up" never exceed 100 + 10 (N - 1), in every interleaving |
| `ScreenListeners.UpPressesAndSysctlBound` | kmod/framework_sysctl.c:65-77 | with sysctl writes anywhere in between the bound is 100 + 10 N |
| `ScreenListeners.RunWithin` | kmod/framework_screen.c:140-158 | level plus 10 per pending addition stays within the limit at every point of every run |
| `ScreenListeners.BoundsAreReached` | kmod/framework_screen.c:140-158 | for every N there are runs that reach both bounds, so neither can be lowered |
| `ScreenListeners.UndisturbedPress` | kmod/framework_screen.c:109-161 | two sections back to back are the serial change |
| `ScreenListeners.OvertakenPress` | kmod/framework_screen.c:116-158 | what is left of a sysctl write between a press's two sections: a change comes on top of it, a capped one replaces it, a refused one leaves it |
| `ScreenListeners.RefusedSysctl` | kmod/framework_sysctl.c:71-77 | a write above 100 changes nothing at any point |
| `ScreenListeners.DownPressesWrap` | kmod/framework_screen.c:127-138 | from every level in 10..19 two of any number of listeners can wrap it below zero |
| `ScreenListeners.DownPressesWrapIff` | kmod/framework_screen.c:120-138 | some run of "down" presses by n listeners leaves 0..100 if and only if n >= 2 and the level is at least 10 |
| `ScreenListeners.PressesLeaveRangeIff` | kmod/framework_screen.c:116-158 | some run of presses in both directions leaves 0..100 if and only if n >= 2 |
| `ScreenListeners.AnyEventsLeaveRangeIff` | kmod/framework_sysctl.c:65-77 | with sysctl writes in between, if and only if n >= 1 |
| `ScreenListeners.SharedScreen.Store` | kmod/framework_sysctl.c:71-77 | the sysctl write as one section among the others |
| `ScreenListeners.SharedScreen.Drive` | kmod/framework_screen.c:109-161 | any interleaving of the sections, played on the fields, goes where the run goes |
| `ScreenListeners.PlayListeners` | kmod/framework_screen.c:109-161 | the overshoot bounds, and 0..100 for one listener, hold of the field after any such run |
| `Backlight.Panel.GetBrightness` | kmod/framework_backlight.c:95-109 | the panel's level, or 0 without a device or when reading fails |
| `Backlight.Panel.SetBrightness` | kmod/framework_backlight.c:114-134 | success means the panel shows the level, except exactly if the read failed and 0 was asked for; on an error nothing changed |
| `KeyHandler.HandleKey` | kmod/framework_keyhandler.c:86-159 | codes 225 and 224 raise and lower the upper level by 10 within 0..100, any other code is reported and changes nothing |
| `KeyHandler.AfterKeyInRange` | kmod/framework_keyhandler.c:51-65 | no key takes a level out of 0..100 |
| `Dimming.Dimmer.constructor` | kmod/framework_callout.c:287-319 | the thread starts with level High shown on the panel and its first pass due |
| `Dimming.Dimmer.GetBrightnessFor` | kmod/framework_callout.c:82-106 | of the four settings the one of the current power mode and level |
| `Dimming.Dimmer.Wire` | kmod/framework_callout.c:216-218 | from here on input reaches the callout |
| `Dimming.Dimmer.OnInput` | kmod/framework_callout.c:156-185 | input records its time, sets High, and puts on the panel the upper setting of the current mode from before the key is handled; before wiring it only records its time |
| `Dimming.Dimmer.ThreadPass` | kmod/framework_callout.c:221-275 | one turn of the thread's loop: it goes on if and only if the current mode's timeout is not 0, and then the panel shows the current mode's lower or upper setting |
| `Dimming.Dimmer.Tick` | kmod/framework_evdev.c:117 | one second passes, and nothing else |
| `Dimming.Dimmer.SysctlLow` | kmod/framework_sysctl.c:119 | a step of the dimming machine in the setting's power mode, and no other change |
| `Dimming.Dimmer.SysctlHigh` | kmod/framework_sysctl.c:120 | likewise |
| `Dimming.Dimmer.SysctlTimeout` | kmod/framework_sysctl.c:121 | likewise |
| `Dimming.Dimmer.SwitchMode` | kmod/framework_power.c:126-141 | the power source changes, and nothing else |
| `DimmingEffects.PassShowsOneOfFour` | kmod/framework_callout.c:92-106 | after any run, a pass leaves on the panel the lower setting if dim and the upper if not, of the mode in force, named field by field |
| `DimmingEffects.PassByTheClock` | kmod/framework_callout.c:237-274 | after any run, a pass dims if the last input is as old as that mode's timeout, wakes up next when that age can be reached, and changes nothing else |
| `DimmingEffects.InputWhenWired` | kmod/framework_callout.c:156-185 | an input sets High and shows the upper setting; 225 and 224 move that setting by 10 within 0..100, in the mode in force only |
| `DimmingEffects.InputBeforeWiring` | kmod/framework_evdev.c:116-128 | before the callback is installed an input changes nothing but its time |
| `DimmingEffects.SettingsAreLastWritten` | kmod/framework_sysctl.c:55-80 | over any run, each setting of each mode is the value last written to it and not refused, and the mode the last one switched to |
| `DimmingEffects.StopsIffZeroSampled` | kmod/framework_callout.c:230-235 | over any run, the thread has stopped if and only if one of its passes sampled a timeout of 0 |
| `DimmingEffects.StoppedNeverDims` | kmod/framework_callout.c:230-235 | that pass changes nothing else, and whatever happens afterwards the level is not set to Dim |
| `DimmingTiming.StepKeepsInv` | kmod/framework_callout.c:221-275 | every step keeps the link between wake-up time, last input and level |
| `DimmingTiming.DimExactlyWhenIdle` | kmod/framework_callout.c:221-275 | with a fixed timeout T and passes that take no time, whenever no pass is due: dim if and only if the last input is at least T seconds ago |
| `DimmingTiming.DimmedWithinBounds` | kmod/framework_callout.c:222-274 | with passes that take no time, under any timeouts in tmin..tmax and any mode changes: never dim before tmin, always dim after tmax plus the lateness, and the thread never stops |
| `DimmingTiming.UpperBoundIsReached` | kmod/framework_callout.c:266-274 | the level can stay High for exactly tmax plus the lateness, so the bound is the best possible |
| `DimmingTiming.FollowsConfiguredIff` | kmod/framework_callout.c:221-275 | with all configured and written timeouts in tmin..tmax, every run keeps "dim iff idle for the timeout configured now" whenever no pass is due, if and only if tmin = tmax |
| `DimmingTiming.RaisedTimeoutKeepsDim` | kmod/framework_callout.c:252-259 | from every start that is to dim, raising the timeout beyond the idle time leaves a dim below the configured timeout |
| `DimmingTiming.LoweredTimeoutStaysHigh` | kmod/framework_callout.c:266-274 | from every start that is not to dim, lowering the timeout to the idle time leaves High at or above it |
| `DimmingTiming.Drive` | kmod/framework_callout.c:200-282 | any run played on the object: thread alive, level within both bounds, and exactly by idle time with one timeout |
| `DimmingTiming.SleepsAreBounded` | kmod/framework_callout.c:267-274 | every sleep is at least one second and at most the largest timeout |
| `DimmingTiming.ActivePassesSeeNewInput` | kmod/framework_callout.c:237-274 | any two passes that find activity have sampled different last inputs, the later pass the later one |
| `DimmingTiming.PassesAreAmortised` | kmod/framework_callout.c:221-275 | passes number at most 2 + inputs + elapsed time / T, however late the wake-ups |
| `DimmingTiming.PassShowsSelected` | kmod/framework_callout.c:261-263 | after a pass the panel shows what level, mode and settings select |
| `DimmingTiming.PanelIsBroughtUpToDate` | kmod/framework_callout.c:261-274 | from any moment, over any further events: within tmax plus the lateness some pass leaves on the panel what is then selected |
| `DimmingTiming.ChangesReachThePanel` | kmod/framework_callout.c:261-274 | so whatever was changed before, and if no brightness, mode or key changes it meanwhile, the panel is right after that time |
| `DimmingTiming.PanelStaysInRange` | kmod/framework_callout.c:83-106 | over all runs of inputs, keys, settings, modes and passes the panel and the four levels stay in 0..100 |
| `DimmingTiming.PanelLagsOneKey` | kmod/framework_callout.c:171-182 | over a run of inputs the upper level follows the presses, each clamped to 0..100, and the panel shows the level from before the last one |
| `DimmingTiming.PanelIsCurrentIff` | kmod/framework_callout.c:171-182 | after a run of inputs the panel shows the present upper level if and only if the last key was none of the two, "up" at 100 or "down" at 0 |
| `DimmingTiming.ReleaseShowsPress` | kmod/framework_evdev_thread.c:82-93 | an input without key code, as a release gives, puts the preceding press on the panel |
| `DimmingRace.UninterruptedPass` | kmod/framework_callout.c:222-274 | the five sections of a pass back to back are the single pass of the coarse model |
| `DimmingRace.ZeroTimeoutStops` | kmod/framework_callout.c:230-235 | a sampled timeout of 0 ends the pass at once, as in the coarse model |
| `DimmingRace.EarlyDimNeedsRacingInput` | kmod/framework_callout.c:237-257 | in every interleaving a Dim level comes from a decision without input since; if idle time is below that pass's timeout, an input fell between its sample and its decision |
| `DimmingRace.RacingInputIsDimmed` | kmod/framework_callout.c:239-257 | whenever a pass is about to dim, an input just then is followed by Dim in the same second |
| `DimmingRace.StalePanelNeedsLateChange` | kmod/framework_callout.c:261-263 | in every interleaving, a panel that between two passes differs from what is selected means that an input, setting or mode change came after the latest fetch |
| `DimmingRace.LateChangesAreOverwritten` | kmod/framework_callout.c:262-263 | conversely, after any number of other threads' steps between fetch and push, the panel is right after the push if and only if what was fetched is still selected |
| `DimmingRace.RacingInputIsOverwritten` | kmod/framework_callout.c:261-263 | an input there leaves the level High, and the panel wrong if and only if the fetched brightness is not the upper level after the key |
| `DimmingRace.DimLastsUntilInput` | kmod/framework_callout.c:171-174 | no sequence of other steps takes a Dim level back, and the next input always does |
| `DimmingPassTime.OverdueHighNeedsTickInWindow` | kmod/framework_callout.c:246-274 | in every history, with no pass due: a High level is idle for less than tmax plus the seconds between the latest decision and its push; so if it is idle for tmax, such a second there was |
| `DimmingPassTime.DimmedWithinBoundsAndPassTime` | kmod/framework_callout.c:222-274 | at any moment after the first pass: never dim before tmin unless an input raced, always dim after tmax, window and lateness |
| `DimmingPassTime.UpperBoundWithPassTimeIsReached` | kmod/framework_callout.c:246-274 | for all limits there is a history that is High for exactly that long |
| `DimmingPassTime.SlowPassDelaysDim` | kmod/framework_callout.c:246-274 | for all limits there is a history that with no pass due is High for tmax + window - 1 seconds |
| `DimmingPassTime.RacedPassDimsEarly` | kmod/framework_callout.c:239-257 | for all timeouts there is a history that with no pass due is Dim in the very second of the input |
| `DimmingPassTime.AlwaysOnTimeIff` | kmod/framework_callout.c:246-274 | over all histories: Dim whenever idle for tmax and no pass due, if and only if no second passes between decision and push |
| `DimmingPassTime.NeverEarlyIff` | kmod/framework_callout.c:239-257 | over all histories: Dim only when idle for tmin, if and only if no input comes between sample and decision |
| `DimmingPassTime.AlwaysExactIff` | kmod/framework_callout.c:221-275 | over all histories with one timeout T: dim exactly when idle for T, if and only if both |
| `CalloutShutdown.Callout.StepLoop` | kmod/framework_callout.c:217-281 | one step of the loop thread between lock operations |
| `CalloutShutdown.Callout.StepDestroyer` | kmod/framework_callout.c:325-349 | one step of the destroyer |
| `CalloutShutdown.Callout.MSleep` | kmod/framework_callout.c:274 | gives the mutex up and sleeps in one step |
| `CalloutShutdown.Callout.WakeupAll` | kmod/framework_callout.c:278 | every sleeper must take the mutex again before it goes on, none is left asleep |
| `CalloutShutdown.Callout.SleepTimesOut` | kmod/framework_callout.c:274 | only the loop thread's sleep can end by itself |
| `CalloutShutdown.WorksOnPositiveTimeouts` | kmod/framework_callout.c:221-275 | as long as nobody destroys it and its timeouts are positive, the thread keeps its flag and never leaves its loop |
| `CalloutShutdown.ZeroTimeoutLeaves` | kmod/framework_callout.c:230-235 | on a timeout of 0 it clears the flag and leaves |
| `CalloutShutdown.TurnComesBack` | kmod/framework_callout.c:221-275 | a sleep that times out is followed by a whole turn and the next sleep, in the same state as the one before |
| `CalloutShutdown.ShutdownIsPrompt` | kmod/framework_callout.c:336-349 | the destroyer's wakeup ends a sleep: both threads come through without any timeout |
| `CalloutShutdown.StoppedIsNotAwaited` | kmod/framework_callout.c:336-349 | a thread that has stopped by itself is freed without waiting |
| `CalloutShutdown.StepKeepsInv` | kmod/framework_callout.c:217-349 | mutex, channel, flag and the positions of both threads agree after every step |
| `CalloutShutdown.NoTouchAfterFree` | kmod/framework_callout.c:276-281 | in every interleaving of loop thread and destroyer, the mutex is free and unawaited when it is destroyed, and the thread never touches the callout afterwards |
| `CalloutShutdown.AlwaysSomebodyGoesOn` | kmod/framework_callout.c:336-345 | until both threads are through one of them can step: no sleep stays unanswered |
| `CalloutShutdown.DestroyFinishes` | kmod/framework_callout.c:325-349 | once the flag is clear, by whichever thread, at most 21 steps and one timed sleep remain, and a run that cannot go on has freed the callout |
| `CalloutShutdown.Callout.Drive` | kmod/framework_callout.c:204-349 | any interleaving played on the object: once the callout is about to be freed, the thread neither touches, holds nor sleeps on it |
| `EventThread.EventThread.StepListenerSleep` | kmod/framework_evdev_thread.c:160-174 | one step: the check of the active flag and the sleep |
| `EventThread.EventThread.StepListenerRead` | kmod/framework_evdev_thread.c:177-193 | one step: key code and callback, the latter under both locks |
| `EventThread.EventThread.StepListenerCall` | kmod/framework_evdev_thread.c:193-206 | one step: the callback without the buffer mutex, and the loop condition |
| `EventThread.EventThread.StepListenerExit` | kmod/framework_evdev_thread.c:209-217 | one step: setting SHUTDOWN |
| `EventThread.EventThread.StepListenerFinal` | kmod/framework_evdev_thread.c:217-223 | one step: clearing THREAD and the wakeup |
| `EventThread.EventThread.StepDestroyerStop` | kmod/framework_evdev_thread.c:375-383 | one step: clearing the active flag and the callback |
| `EventThread.EventThread.StepDestroyerWait` | kmod/framework_evdev_thread.c:383-395 | one step: waking the listener, and waiting unless SHUTDOWN is set |
| `EventThread.EventThread.StepDestroyerTeardown` | kmod/framework_evdev_thread.c:395-436 | one step: clearing the kqueue, destroying and freeing |
| `EventThread.EventThread.DeliverInput` | kmod/framework_evdev_thread.c:170-174 | input wakes a client that is marked as blocked, and clears the mark |
| `ListenerAtWork.InputReachesCallback` | kmod/framework_evdev_thread.c:170-199 | from every state at rest, a delivered input and five steps of the listener end in the callback |
| `ListenerAtWork.ListenerComesBack` | kmod/framework_evdev_thread.c:160-206 | and six more steps later the listener is at rest again, in the very same state |
| `ListenerAtWork.FailedSleepIsNotReported` | kmod/framework_evdev_thread.c:177-179 | after a failed sleep nothing is called |
| `ListenerAtWork.NothingToCall` | kmod/framework_evdev_thread.c:186-202 | nor is it once the callback is cleared |
| `ListenerAtWork.DeliverOnce` | kmod/framework_evdev_thread.c:170-174 | a client that is not blocked is not woken again |
| `EventThread.EventThread.Drive` | kmod/framework_evdev_thread.c:142-439 | any interleaving played on the object goes where the run goes |
| `EventThread.PlayShutdown` | kmod/framework_evdev_thread.c:142-439 | of the fields after any such run: a sleeping destroyer is answered, the waiting path frees safely, and no callback runs once the destroyer tears down |
| `ListenerShutdownProofs.StepKeepsInv` | kmod/framework_evdev_thread.c:160-226 | two mutexes, channel, flags and the positions of both threads agree after every step |
| `ListenerShutdownProofs.NoLostWakeup` | kmod/framework_evdev_thread.c:160-174 | after the destroyer's wakeup the listener is neither asleep nor about to be, and a sleeping destroyer still has its answer ahead |
| `ListenerShutdownProofs.WaitingMakesFreeSafe` | kmod/framework_evdev_thread.c:386-436 | if the destroyer slept, the listener has exited and both mutexes are free before anything is freed |
| `ListenerShutdownProofs.FinishedUnlessShutdownBranch` | kmod/framework_evdev_thread.c:383-395 | when the destroyer goes on, the listener has finished if and only if THREAD and SHUTDOWN are not both set |
| `ListenerShutdownProofs.StagesFollowActive` | kmod/framework_evdev_thread.c:160-213 | in every step, input is taken up only while the active flag is set, and the loop is left only after it is cleared |
| `ListenerShutdownProofs.NoCallbackOnceTearingDown` | kmod/framework_evdev_thread.c:383-395 | on every branch, once the destroyer goes on the listener has left its loop for good |
| `ListenerShutdownProofs.NothingRegisteredAtFree` | kmod/framework_evdev_thread.c:353-361 | in every interleaving, CLIENTREG and KQUEUE are clear when everything is freed |
| `ListenerShutdownProofs.ShutdownBranchCanOvertake` | kmod/framework_evdev_thread.c:383-386 | from every state in that branch the destroyer alone can free everything while the listener waits for a mutex |
| `ListenerShutdownProofs.FreedTooEarly` | kmod/framework_evdev_thread.c:383-436 | a complete schedule from the start in which that happens |
| `ListenerShutdownProofs.AlwaysSomebodyGoesOn` | kmod/framework_evdev_thread.c:375-436 | once the active flag is clear some thread can step until both are through |
| `ListenerShutdownProofs.DestroyFinishes` | kmod/framework_evdev_thread.c:368-439 | boundedly many steps remain, and a run that cannot go on has ended the listener and freed everything |
| `EvdevDrain.Connector.TakeInput` | kmod/framework_evdev_thread.c:192-198 | input starts the handling of an event in a listener that is not being stopped |
| `EvdevDrain.Connector.StepListener` | kmod/framework_evdev.c:103-129 | one step of a listener around the connector's lock |
| `EvdevDrain.Connector.StepDestroyer` | kmod/framework_evdev.c:258-301 | one step of the destroyer: the list is emptied from its head, and the lock given up before waiting; what the wait ensures is `ListenerShutdownProofs.NoCallbackOnceTearingDown` |
| `EvdevDrain.InputCallsCallback` | kmod/framework_evdev.c:110-129 | an input to an active connector takes the lock, calls the callback if and only if one is set, and leaves everything as before |
| `EvdevDrain.InactiveDropsInput` | kmod/framework_evdev.c:110-113 | an input to an inactive one goes no further than the test |
| `EvdevDrain.StepKeepsInv` | kmod/framework_evdev.c:103-301 | lock, list, freed bindings and the positions of all threads agree after every step |
| `EvdevDrain.BindingsAreFreedOnce` | kmod/framework_evdev.c:271-292 | for any number of listeners and any interleaving, the freed bindings are a beginning of the list, all of it in the end, and none whose listener goes on |
| `EvdevDrain.MutexIsUnusedWhenDestroyed` | kmod/framework_evdev.c:293-296 | when the lock is destroyed nobody owns it and no listener can ask for it any more |
| `EvdevDrain.InnerStepIsMatched` | kmod/framework_evdev_thread.c:160-213 | every step of a listener with its own destroyer is matched by one enabled step of the connector's model, or by none, with the same stage and stop flag after it |
| `EvdevDrain.ListenersMoveInStages` | kmod/framework_evdev.c:279-285 | the connector's model moves a listener only between stages as `ListenerShutdownProofs.StagesFollowActive` allows |
| `EvdevDrain.WaitIsMatched` | kmod/framework_evdev_thread.c:383-395 | once a listener's own destroyer tears down, on any branch, the connector's destroyer can go on |
| `EvdevDrain.Connector.Drive` | kmod/framework_evdev.c:258-301 | any interleaving played on the object: all bindings freed in order, all listeners ended and the lock free when the destroyer is through |
| `EvdevDrain.NoCallbackStarts` | kmod/framework_evdev.c:120-128 | once the callback is cleared no run starts one; those in a callback were in it before |
| `EvdevDrain.AlwaysSomebodyGoesOn` | kmod/framework_evdev.c:279-285 | the destroyer never waits for a listener that waits for it: until it is through some step is possible |
| `EvdevDrain.DrainIsShort` | kmod/framework_evdev.c:271-293 | the number of steps is bounded by the starting state and the number of inputs |
| `ClientDisposal.Client.StepCall` | kmod/framework_evdev_thread.c:398-408 | one step of one call of the destructor or of destroy |
| `ClientDisposal.Client.Drive` | kmod/framework_evdev_thread.c:230-252 | any interleaving played on the object: at most one disposal, none once revoked |
| `ClientDisposal.DisposedAtMostOnce` | kmod/framework_evdev_thread.c:230-252 | any number of interleaved calls dispose of the client at most once, and exactly once if one came through and evdev did not revoke it |
| `ClientDisposal.NoDisposalOnceRevoked` | kmod/framework_evdev_thread.c:236-242 | after a revocation by anyone no disposal follows |
| `ClientDisposal.RevokedFromOutside` | kmod/framework_evdev_thread.c:236-242 | a revocation by evdev is final: the client stays revoked, and no disposal follows |
| `LockOrder.BodiesClimb` | kmod/framework_evdev_thread.c:160-223 | every function takes its locks in strictly climbing rank |
| `LockOrder.ClimbingIsInOrder` | kmod/framework_callout.c:92-103 | nested sections that climb give a sequence of lock operations in order, with everything given back |
| `LockOrder.NoCircularWait` | kmod/framework_evdev_thread.c:381-408 | scripts in order, in any number of threads and at any points: no cycle of threads waiting for each other |
| `LockOrder.SomeThreadCanStep` | kmod/framework_callout.c:252-257 | unless all are finished some thread can take its next step, writers preferred on the reader/writer lock |
| `LockOrder.StepsComeToAnEnd` | kmod/framework_callout.c:252-257 | every step brings the threads closer to the end, so they all get there |
| `LockOrder.ModuleNeverDeadlocks` | kmod/framework_evdev.c:267-294 | both for any threads running any sections of the module's functions in any order any number of times, hence also calls made in the unlocked gaps of others |
| `LockOrder.LocksExclude` | kmod/framework_callout.c:66-71 | under every schedule, of any scripts, no two threads hold a lock that one of them holds for itself |
| `LockOrder.EveryThreadGetsItsTurn` | kmod/framework_callout.c:220-276 | any unfinished thread can be brought to its next step by scheduling the others only |
| `LockOrder.ReadPowerModeIsBody` | kmod/framework_power.c:208-221 | with a recognised battery state, loading it and reading the mode are the two sections the module's function has |
| `LockOrder.BatteryInfoInOrderIff` | kmod/framework_power.c:122-150 | the power mutex is given back if and only if the battery state is 0, 1, 2 or 4 |
| `LockOrder.PowerLockIsGivenBackIff` | kmod/framework_power.c:142-145 | after a thread has loaded the state, a thread that asks for the power mutex, the same or another, gets it under some schedule if and only if the state is one of those |
| `LockOrder.UnidentifiedBatteryBlocks` | kmod/framework_power.c:142-145 | otherwise, under every schedule and whenever it asks, no thread can take it |
| `DimBlock.Hints.Increase` | kmod/framework_state.c:89-98 | one up, modulo 2^32 |
| `DimBlock.Hints.Decrease` | kmod/framework_state.c:103-116 | one down, but not below 0 |
| `DimBlock.Hints.Sysctl` | kmod/framework_sysctl.c:196-216 | for one writer at a time (several: `DimBlockWriters`), the written value selects the operation: none if it is the count, down if 0, up otherwise |
| `DimBlock.ReflectedWalk` | kmod/framework_state.c:89-116 | the counter is increments minus decrements, less the lowest point that difference ever had |
| `DimBlock.CountsExactlyIffNested` | kmod/framework_state.c:109-114 | it is the plain difference if and only if no prefix has more decrements than increments |
| `DimBlock.IncrementsWrap` | kmod/framework_state.c:96 | n increments count n modulo 2^32 |
| `DimBlock.WriteAsDocumentedIff` | kmod/framework_sysctl.c:205-213 | a write follows the manual page if and only if it is not a positive value equal to the count, or at the last count |
| `DimBlock.RunAsDocumentedIff` | kmod/framework_sysctl.c:205-213 | a run of writes agrees with the manual page throughout if and only if no write in it is such a value |
| `DimBlock.TwoPlayersCountAsOne` | man/framework.4:78-90 | the documented use by two players counts one, and the first to stop clears it |
| `DimBlockWriters.SharedHints.ReadCount` | kmod/framework_sysctl.c:200-206 | the first section of a write and the decision taken on the count it read |
| `DimBlockWriters.SharedHints.ChangeCount` | kmod/framework_state.c:89-116 | the second section changes the count as it is by then |
| `DimBlockWriters.SharedHints.Drive` | kmod/framework_sysctl.c:196-216 | any interleaving played on the object: the count is what the manual page makes of the effective writes |
| `DimBlockWriters.InterleavingIsSerial` | kmod/framework_sysctl.c:200-213 | any interleaving of N writers counts as its effective writes do serially, each taking effect in one of its two sections |
| `DimBlockWriters.WritesAreConserved` | kmod/framework_sysctl.c:200-213 | for every value: times written = times effective + times lost + times under way |
| `DimBlockWriters.AllWritesTakeEffectIff` | kmod/framework_sysctl.c:205-213 | after all writes are through, what took effect is all that was written if and only if no write met its own positive value as the count |
| `DimBlockWriters.UndisturbedWrite` | kmod/framework_sysctl.c:196-216 | two sections back to back are the serial write |
| `Lifecycle.Completed` | kmod/framework.c:85-152 | the number of stages before the first that fails: none below it fails, it does |
| `Lifecycle.Module.Load` | kmod/framework.c:74-182 | the stages up to the first failing one are created; if one fails those are destroyed in reverse, the status is 2 and the error is the failing stage's own, ENXIO for the callout and none for the key handler |
| `Lifecycle.ErrorsWrittenOut` | kmod/framework.c:85-152 | the error for each single failing stage |
| `Lifecycle.FullCycleWrittenOut` | kmod/framework.c:81-221 | the eight stages in their order of set-up, and in reverse |
| `Lifecycle.FailedLoadWrittenOut` | kmod/framework.c:114-182 | a load that fails at the backlight, stage by stage |
| `Lifecycle.Module.Attempt` | kmod/framework.c:79-156 | the undo counter is one less than the number of stages created |
| `Lifecycle.Module.Undo` | kmod/framework.c:159-177 | the fall-through destroys exactly the counted stages, latest first |
| `Lifecycle.Module.Unload` | kmod/framework.c:187-221 | only status 1 destroys, all eight stages, latest first; the status stays |
| `Lifecycle.LoadIsAllOrNothing` | kmod/framework.c:74-182 | played on a stack of live stages a load leaves all of them or none, whichever stage fails |
| `Lifecycle.CyclesAreClean` | kmod/framework.c:223-246 | over any number of loads, failing or not, each followed by an unload, no stage is destroyed twice, out of order or before its creation, and none is left |
| `Lifecycle.LoadAndUnload` | kmod/framework.c:223-246 | the same played on the object: its log is that of the loads and unloads, and leaves nothing live |
| `Lifecycle.UnloadTwice` | kmod/framework.c:190-194 | played on the object, a second unload breaks the log if and only if the load had succeeded |
| `Lifecycle.SecondUnloadIff` | kmod/framework.c:190-194 | a second call of the function would be harmless if and only if the load had failed |
| `Signals.MakeUpper` | dbus/framework_debus.c:118-126 | the C string in the buffer is upper-cased and nothing behind it is touched |
| `Signals.UpperOfAnyCase` | dbus/framework_debus.c:118-126 | a text in any mix of cases becomes the word in capitals |
| `Signals.UpperLeavesOthers` | dbus/framework_debus.c:118-126 | and what has no small letters stays |
| `Signals.StoredIsLongest` | dbus/framework_debus.c:280-282 | what is stored is the longest beginning of the text without a NUL that fits in 254 characters |
| `Signals.StrNCpy` | dbus/framework_debus.c:281-282 | copies up to the terminator or the limit and fills up with NUL |
| `Signals.Store` | dbus/framework_debus.c:280-282 | the buffer holds the text up to its first NUL, cut to 254 characters, and stays terminated |
| `Signals.ParsedSignal.ParseIter` | dbus/framework_debus.c:246-307 | the three strings are those of recording every string of the argument tree in visiting order, for any tree and any depth, with depth and position modulo 256 |
| `Signals.EachFieldIsTheLast` | dbus/framework_debus.c:279-296 | recording in order is the same as taking, for each field, the last string at its depth in first position, or leaving the field |
| `Signals.LastAtIsLast` | dbus/framework_debus.c:279-296 | "last" means: selected, and nothing selected after it; none means nothing selected at all |
| `Signals.NameIsAtEvery256th` | dbus/framework_debus.c:251-303 | at the top level a string is the name in first position and every 256th after it, and is skipped in any other |
| `Signals.DepthIsModulo256` | dbus/framework_debus.c:258-292 | inside n arrays a string is taken for the name, the property or the status as n modulo 256 is 0, 2 or 3, and skipped else |
| `Signals.PropertiesChangedParsed` | dbus/framework_debus.c:246-307 | for `sa{sv}as` the name is the interface and the status the last changed property with a string value, whichever property that is |
| `PlayerList.List.InsertHead` | dbus/framework_debus.c:157-163 | the new player is in front, forward and back links agree, the others keep their order |
| `PlayerList.List.RemoveAndFree` | dbus/framework_debus.c:172-176 | the others keep their order and their links, and the player, not freed before, is freed |
| `PlayerList.List.Search` | dbus/framework_debus.c:151-155 | the first player whose first 254 characters match, or none if none does |
| `PlayerList.List.FindPlayer` | dbus/framework_debus.c:146-166 | an existing player, or a fresh one in front with the cut name and state 0 |
| `PlayerList.List.Clear` | dbus/framework_debus.c:181-191 | the list is empty and every player ever made has been freed |
| `PlayerList.WithoutLinked` | dbus/framework_debus.c:174 | links that skip one node are the links of the list without it |
| `PlayerList.Find` | dbus/framework_debus.c:151-155 | the index returned matches the name and no earlier one does |
| `Watcher.Watcher.SignalStart` | dbus/framework_debus.c:196-210 | list and printed lines become those of starting the name |
| `Watcher.Watcher.SignalStop` | dbus/framework_debus.c:215-230 | list and printed lines become those of stopping the name |
| `Watcher.Watcher.ChooseHandler` | dbus/framework_debus.c:332-351 | the table's handlers that match the status have run, none if the status is empty |
| `Watcher.Watcher.Receive` | dbus/framework_debus.c:394-415 | zeroing, parsing and handling of one message |
| `Watcher.Watch` | dbus/framework_debus.c:390-416 | the main loop over any sequence of polls, those without a message included |
| `Watcher.Session` | dbus/framework_debus.c:356-424 | what the program prints over its life, and that in the end every player is freed |
| `WatcherStream.HandlersByMeaning` | dbus/framework_debus.c:100-113 | the table scan, which does not stop at a match, runs exactly one handler for a known status and none otherwise |
| `WatcherStream.OtherMessagesAreIgnored` | dbus/framework_debus.c:404-409 | a message of another kind or without arguments changes nothing |
| `WatcherStream.NewestInFront` | dbus/framework_debus.c:157-163 | a message puts at most its own name in front or takes it out; the other names keep their order |
| `WatcherStream.ListAndLinesTellWhatWasHeard` | dbus/framework_debus.c:146-230 | after any stream: names are unique, every entry, left-over ones included, is what the last two statuses of its name make it, and each name's lines are the changes between playing and not playing |
| `WatcherStream.ListedAsPlayingIsPlaying` | dbus/framework_debus.c:196-230 | the entries with state 1 are the plain set of playing names, those whose latest known status is PLAYING |
| `WatcherStream.LinesBalance` | dbus/framework_debus.c:204-228 | "started" lines less "stopped" lines is the number of names playing |
| `WatcherStream.LinesAlternate` | dbus/framework_debus.c:204-228 | per name the lines alternate, "started" first, and end on "started" if and only if it is playing |
| `WatcherPlayers.StatusSays` | dbus/framework_debus.c:290-292 | the three status words are understood in any mix of cases |
| `WatcherPlayers.StartIsPrinted` | dbus/framework_debus.c:196-210 | a player that starts is listed as playing and reported |
| `WatcherPlayers.StopIsPrinted` | dbus/framework_debus.c:215-230 | one that then pauses or stops is reported and dropped |
| `WatcherPlayers.AllAreHeardAsOne` | dbus/framework_debus.c:279-283 | under the interface's name the watcher hears the statuses of all senders in their order, under any other name nothing |
| `WatcherPlayers.PlayersShareOneEntry` | dbus/framework_debus.c:146-230 | whoever sends, the list has at most one entry, named after the interface, and it says "playing" if and only if the latest status of any sender does |
| `WatcherPlayers.OnePlayersStopEndsAll` | dbus/framework_debus.c:215-230 | after any run, one sender's stop leaves nothing listed as playing, and nothing changed in what was heard from the others |
| `WatcherPlayers.ListIsRightIff` | dbus/framework_debus.c:196-230 | after any run the list tells whether some sender's latest status is "playing", except exactly when one's is while the latest of all is a stop |
| `WatcherPlayers.AlwaysRightIff` | dbus/framework_debus.c:196-230 | for every set of senders: the list tells it in all their runs if and only if there is at most one of them |
| `WatcherPlayers.SecondPlayerIsForgotten` | dbus/framework_debus.c:215-230 | for any two senders there is such a run: both start, the first one pauses |

## Left out

- ACPI battery queries, the backlight driver, devfs walks, kqueues, `kthread_add` and `tvtohz` are foreign code; where they matter their results are parameters. Thread creation succeeds, a positive number of seconds is a positive number of ticks, and uptime stays below 2^32.
- `dev/evdev` is not part of this model; of it, `ListenerShutdown` knows only that input wakes a blocked client until the client is unregistered, and `ClientDisposal` that it may revoke the client.
- Memory safety of an input callback that is already in flight while the callout is freed: the code does not give it.
- Destroying a callout or a listener whose thread has not reached its loop: the code does not guard against it.
- The second read of `cbfunc` at kmod/framework_evdev_thread.c:197, after the check and without the lock: the model's call uses the copy.
- The unregistering of a client is one step in `ListenerShutdown`; its own locking is in `ClientDisposal` and `LockOrder`. The later read of CLIENTREG at kmod/framework_evdev_thread.c:399, which finds the flag clear, is not a step of its own.
- EvdevDrain.Connector.StepDestroyer: unregistering and stopping a listener is one step here, and waiting for it another; both are taken apart in `ListenerShutdown`, and `EvdevDrain.ListenersMoveInStages` says how the two fit. Bindings are only added while the module loads.
- ScreenListeners.UpPressesBound: the number of listeners is bounded so that the level cannot reach 2^32, which takes more than 400 million threads. The same bound is in ScreenListeners.UpPressesAndSysctlBound and ScreenListeners.BoundsAreReached.
- Dimming.Dimmer.ThreadPass: the backlight calls succeed, the battery state is recognised, and a pass is one step that takes no time; `DimmingRace` splits it, and `DimmingPassTime` lets time pass in it.
- DimmingTiming.DimExactlyWhenIdle: for passes that take no time; the exact condition with passes that do is `DimmingPassTime.AlwaysExactIff`.
- Dimming.Dimmer.OnInput: the handling of one input is one step, and the evdev connector is active.
- DimmingTiming.DimmedWithinBounds: for passes that take no time; with passes that do the bounds are those of `DimmingPassTime.DimmedWithinBoundsAndPassTime`. A sampled timeout is never 0; on timeout 0 the thread stops, which `Dimming.Dimmer.ThreadPass` and `CalloutShutdown` model.
- LockOrder.BodiesClimb: which locks a function takes, `LockOrder.Body`, is transcribed from the source by hand; nothing else in the project depends on it, so nothing else confirms it.
- LockOrder.ModuleNeverDeadlocks: for recognised battery states only (`LockOrder.PowerLockIsGivenBackIff`); sleeping on a channel is covered by the two shutdown models, and debug prints appear where a lock is held.
- Lifecycle.Module.Load: a stage is set up as a whole or not at all; a power stage or a sysctl stage that fails half-way is not undone by the code either.
- WatcherPlayers.AlwaysRightIff: for signals of one interface, such as the one that carries the playback status; values nest as in the next line.
- Signals.PropertiesChangedParsed: values are nested at most 250 deep, more than the 64 levels of containers that the D-Bus Specification, section "Valid Signatures", allows. `Signals.ParsedSignal.ParseIter` has no such limit.
- Signals.MakeUpper: `toupper` in the C locale.
- Allocation failures in the watcher, which end the program.
- Interface, path and signature of a message, stored by the parser and not used; the return value of the parser, which is always 0.
- A printed line carries no name; the name in `Watcher.Notice` exists only in the model.
- DimBlockWriters.AllWritesTakeEffectIff: for fewer than 2^32 sections, so that the counter does not wrap.
- Suppressing the dimming while the `dimblock` counter is positive: not implemented (man/framework.4:145).
- `expect_next_callout`, written and never read; debug printing beyond its lock; the construction of the sysctl tree; signal handlers and the D-Bus connection.
- `xss/framework_xss.c`: polling X11 and printing.
- Matching of device names and looking up device nodes: short linear searches.
