# RK3588 NPU driver: a verified model

A Dafny model of the out-of-tree `rocket` NPU driver with devfreq, and of the voltage probe
module beside it. Three NPU cores share one compute clock. A power domain that goes on or off
while that clock is above 200 MHz hangs the board, so the driver keeps all cores awake while it
boosts and hooks every domain switch with a notifier that forces the safe rate or vetoes the
switch. The project proves what that protocol, the busy-time meter, the job path, the slot
table, the voltage gate and the reference counts keep over every run, and names the runs in
which the code does not keep its promise.

| file | content |
|---|---|
| `Common.dfy` | rates, voltage gate, `Option` |
| `Slots.dfy` | slot table, whole histories of binds and unbinds, scheduler list, the driver's objects |
| `Protocol.dfy` | the clock and power-domain protocol, one atomic step per entry point |
| `ProtocolCore.dfy` | what every step keeps whatever clock writes fail: cover, boost references, reference balance |
| `ProtocolSafety.dfy` | the safe clock, and safety over whole runs |
| `ProtocolResults.dfy` | guarded switches, reference conservation, boost cover, voltage gate, no false boost, quiescence |
| `Effects.dfy` | exactly when each entry point succeeds, on its inputs, and what it then changes; jobs and references by history |
| `Lifecycle.dfy` | binding, registering, arming and removing, exactly; boards that can boost |
| `RemovalWindow.dfy` | removals in two critical sections: what may happen between them, and whole runs of such removals |
| `ProtocolRuns.dfy` | concrete runs from module load: a granted boost, sleep and work, a leaked reference, three unsafe switches |
| `Devfreq.dfy` | the devfreq layer as an object with in-place updates, proved against the protocol |
| `Interleaving.dfy` | phases of a rate change interleaved with every core's power transitions |
| `InterleavingRuns.dfy` | what the phases add up to undisturbed; boosts are reached |
| `LockOrder.dfy` | locks and power transitions as programs; no wait cycle, no stuck state |
| `BusyMeter.dfy` | the meter in 64-bit arithmetic against true busy time |
| `JobMachine.dfy` | one core's job path, interleaved at single writes inside the job lock |
| `JobRuns.dfy` | what the job path achieves undisturbed: completion, failed start, reset |
| `Job.dfy` | jobs and cores as objects with in-place updates |
| `VoltProbe.dfy` | the probe module, and the phases of two modules sharing one rail |
| `VoltCover.dfy` | joint runs of the clock protocol and the probe, refining those phases |
| `Lifetimes.dfy` | reference counts of domains and jobs |

A class stands for the source's structures and globals. Its methods are the source's functions,
with their loops and early exits, and each method's `ensures` equates the new state with a
function of the old one. The lemmas about whole runs are about those functions.

## Assumptions

Every clock, runtime-PM, notifier, regulator, OPP and allocation result is chosen freely by the
environment, within these limits.

- A failed `clk_set_rate` leaves the rate alone, and one that succeeds for 200 MHz yields exactly
  200 MHz. A success at any other rate may yield any rate.
- Nothing but this driver moves the clock away from 200 MHz. `ProtocolCore.StepKeepsCore`,
  `ProtocolResults.PmConserved`, `ProtocolResults.BoostMeansCover` and
  `ProtocolResults.GuardedSwitchesExact` do without this.
- A notifier's veto that a caller discards lets the switch go on. The source says of the noirq
  resume path only that it discards the veto; the model takes the worse outcome.
- `core_removed` is one atomic step with the rest of a removal in `Protocol`. `RemovalWindow`
  does without this: any steps may fall between the two, in any number of removals at once.
- A core is idle when it is removed. The scheduler's credit limit of one lets at most one job run
  per core. Requested rates come from the OPP table, whose lowest entry is 200 MHz.
- The board has as many NPU devices as slots, as the device-tree count makes it.
- A successful `regulator_set_voltage(u, u)` leaves the rail at `u` or above.

## Where the code does not meet its promise

- A removal whose safe-rate writes fail lets the removed core's domain go off at the fast rate,
  unseen (`ProtocolRuns.FailedRemoval`); exact condition of that switch in
  `ProtocolSafety.RemoveSwitchExact`.
- `core_removed` unlocks before it disarms, so a rate change can boost in between and the removed
  core's domain goes off at 600 MHz (`ProtocolRuns.BoostInWindow`). The exact condition of that
  switch is `RemovalWindow.RequestWindowSwitchExact` for one request, on its inputs, and
  `RemovalWindow.WindowSwitchExact` for any steps. `RequestWindowExact` and `WindowExact` beside
  them are about the whole invariant: a boost that came out at 200 MHz, or lost its clock since,
  is harmless to the switch and still leaves references that nobody accounts for.
- The noirq resume path discards a veto. With a foreign clock writer that lets a domain come on at
  600 MHz (`ProtocolRuns.IgnoredVeto`); without one, and with working removals, no reachable state
  has a fast clock and a domain to resume (`ProtocolSafety.NoSwitchAboveSafe`). Exact condition,
  foreign writers included, in `ProtocolResults.GuardedSwitchesExact`.
- `record_idle` (line 154) and `get_dev_status` (line 177) take their stamps before they wait for
  their locks. When another record overtakes one, a counter wraps and an idle core is reported
  fully busy (`BusyMeter.StaleStamp`, `BusyMeter.StalePoll`); exact condition, over all traces, in
  `BusyMeter.ReadingExact`.
- A new registration starts a window without clearing the counters, so its first poll can report
  an idle core fully busy with all stamps in order (`BusyMeter.StaleRestart`); exact condition in
  `BusyMeter.RestartExact`.
- A failed load of the voltage probe can lower the rail under a granted 1 GHz
  (`VoltProbe.UndoUnderBoost`), and so can an unload (`VoltProbe.UnloadUnderBoost`); exact condition, over all runs, in `VoltProbe.HighRateCovered`.
- `rocket_job_run` keeps its runtime-PM reference when the resume or the attach fails
  (`ProtocolRuns.LeakedReference`); exact condition in `ProtocolResults.StepLeaks`.

Two comments disagree with the code, and the model follows the code: the head of
`npu/volt/npu_volt_probe.c` (line 16) calls 850000 uV the cap, the code caps at 950000; the
repository's README promises a check of each OPP's own voltage, the driver has one threshold,
850000 uV above 700 MHz.

## Model

| member | source | states |
|---|---|---|
| `Slots.Driver.Probe` | npu/driver/rocket_drv.c:178-239 | succeeds exactly when no step fails, binding the device; otherwise reports the first error and undoes everything; the table's invariant is kept |
| `Slots.Driver.Remove` | npu/driver/rocket_drv.c:243-264 | frees the device's slot, and the shared device with the last one; the table's invariant is kept |
| `Slots.BindExact` | npu/driver/rocket_drv.c:178-239 | a bind returns 0 if and only if the shared device is or comes up and the core's set-up works, else the error of the first failing step; it takes the lowest free slot and moves no other device |
| `Slots.BindKeepsInv` | npu/driver/rocket_drv.c:199-239 | a successful bind adds exactly that device, a failed one changes nothing, the table never reports itself full |
| `Slots.UnbindKeepsInv` | npu/driver/rocket_drv.c:243-264 | an unbind takes away exactly that device |
| `Slots.UnbindSparesOthers` | npu/driver/rocket_drv.c:243-264 | an unbind moves no other device |
| `Slots.Rebinds` | npu/driver/rocket_drv.c:199-212 | a history in which devices land in other slots than their own and a freed slot is reused |
| `Slots.FreeSlotFound` | npu/driver/rocket_drv.c:203-212 | probing an unbound device always finds a free slot |
| `Slots.FullTable` | npu/driver/rocket_drv.c:208-216 | all slots are taken exactly when all devices are bound |
| `Slots.TableAfterAnyHistory` | npu/driver/rocket_drv.c:178-264 | after any order of binds, failed binds, unbinds and rebinds: num_cores counts the bound devices, look-ups return own slots, a free slot exists for each unbound device, the shared device exists exactly while something is bound |
| `Slots.Device.FindCoreForDev` | npu/driver/rocket_drv.c:280-290 | returns the device's slot, or -1 when it has none |
| `Slots.LookupOwnSlot` | npu/driver/rocket_drv.c:280-290 | looking up a live slot's device returns that slot |
| `Slots.Device.FirstLiveCore` | npu/driver/rocket_drv.c:73-80 | the first live slot; none exactly when nothing is bound |
| `Slots.Device.JobOpen` | npu/driver/rocket_job.c:507-522 | the list sized by num_cores is filled exactly with the live cores' schedulers, in order, without overrun or gap |
| `Slots.LiveSlotsExact` | npu/driver/rocket_job.c:515-517 | the live slots are counted by num_cores and listed in strictly ascending order |
| `Slots.Device.SchedToCore` | npu/driver/rocket_job.c:275-286 | returns the one live core whose embedded scheduler has the address, or none |
| `Slots.OpenThenFind` | npu/driver/rocket_job.c:275-286 | the look-up inverts the list: entry k maps back to the k-th live core |
| `Devfreq.Devfreq.constructor` | npu/driver/rocket_devfreq.c:72-103 | the object at module load is the protocol's boot state |
| `Devfreq.Devfreq.Notify` | npu/driver/rocket_devfreq.c:553-618 | an acting block leaves the clock safe or vetoes, and drops the requested rate; an orphan does nothing |
| `Devfreq.Devfreq.SwitchDomain` | npu/driver/rocket_devfreq.c:553-618 | a chain of any number of blocks acts as one and the switch follows unless vetoed |
| `Devfreq.Devfreq.HoldAllCores` | npu/driver/rocket_devfreq.c:242-263 | takes a reference on every live core, or after its rollback loop on none, at any holes and any failing index |
| `Devfreq.HoldCounts` | npu/driver/rocket_devfreq.c:242-263 | each live core's count rises by one on success, every count is unchanged on failure |
| `Protocol.HoldThenRelease` | npu/driver/rocket_devfreq.c:242-275 | releasing what a successful hold took leaves exactly the hold's wake-ups and no other trace |
| `Effects.HoldExact` | npu/driver/rocket_devfreq.c:242-263 | in every state of a trusted run a hold succeeds if and only if every live core's own resume does, at any holes |
| `Effects.FailingHold` | npu/driver/rocket_devfreq.c:242-263 | in any state a hold fails only with the error of a live core's own resume |
| `Effects.PowerUpExact` | npu/driver/rocket_drv.c:292-308 | a resume succeeds if and only if nothing in it fails, with one switch; a failure leaves every domain as it was |
| `Effects.NotifyExact` | npu/driver/rocket_devfreq.c:553-618 | a veto if and only if an acting block finds a fast clock and cannot lower it; books and clock afterwards |
| `Effects.FlipExact` | npu/driver/rocket_devfreq.c:604-612 | a switch happens unless a veto is given and obeyed, and is logged once |
| `Devfreq.Devfreq.ReleaseAllCores` | npu/driver/rocket_devfreq.c:265-275 | drops one reference on exactly the live cores |
| `Devfreq.Devfreq.EveryCoreGuarded` | npu/driver/rocket_devfreq.c:624-633 | counts the armed blocks against max_cores |
| `ProtocolCore.GuardedMeansCovered` | npu/driver/rocket_devfreq.c:620-633 | that count does test that every slot is live and guarded |
| `Devfreq.Devfreq.SetTarget` | npu/driver/rocket_devfreq.c:277-418 | early exit, refusals, hold, publish, write and settlement as one step of the protocol, with the rate reported back |
| `Effects.TargetExact` | npu/driver/rocket_devfreq.c:277-418 | a request returns 0 if and only if look-up, owner, guards, gate, hold and write all pass, or nothing is to be done; it then reports the rate the hardware runs at, and a failing one the rate asked for |
| `Effects.RefusalExact` | npu/driver/rocket_devfreq.c:285-354 | each refusal has its own code, in the order of the checks, and changes nothing |
| `Effects.TargetSucceeds` | npu/driver/rocket_devfreq.c:328-397 | in every state of a trusted run: success if and only if full cover, voltage, every core's own resume and the write |
| `Effects.FailedRequest` | npu/driver/rocket_devfreq.c:361-397 | a failing request leaves clock and books as they were or at 200 MHz |
| `Devfreq.Devfreq.Suspend` | npu/driver/rocket_devfreq.c:466-497 | the lock-free write, or a refusal |
| `Devfreq.Devfreq.RuntimeSuspend` | npu/driver/rocket_drv.c:310-330 | idle check, safe-rate write, then the domain goes off |
| `Effects.RuntimeOffExact` | npu/driver/rocket_drv.c:310-330 | a runtime or forced suspend takes the domain off, with one switch, if and only if the core is idle and its safe-rate write works or is not its to do; otherwise nothing changes |
| `Effects.SuspendExact` | npu/driver/rocket_devfreq.c:466-497 | the same for the callback and the power-off, with clock and books afterwards |
| `Devfreq.Devfreq.ShutdownCore` | npu/driver/rocket_devfreq.c:544-551 | leaves the clock safe for the next kernel when the owner is awake and the write works |
| `Effects.ShutdownExact` | npu/driver/rocket_devfreq.c:544-551 | a reboot writes the safe rate if and only if the owner goes down awake, and does nothing else |
| `Devfreq.Devfreq.ArmNotifiers` | npu/driver/rocket_devfreq.c:635-662 | arms each live unarmed slot, or disables boosting for good |
| `Lifecycle.ArmExact` | npu/driver/rocket_devfreq.c:635-662 | arms exactly the live unarmed slots whose registration works, in their own chains; the latch falls if and only if one fails |
| `Devfreq.Devfreq.InitDevfreq` | npu/driver/rocket_devfreq.c:750-856 | registers only at the safe rate, with each error exit |
| `Lifecycle.InitExact` | npu/driver/rocket_devfreq.c:750-856 | registers if and only if nothing fails; the regulator is known if and only if it was found once the clock was read safe |
| `Devfreq.Devfreq.CoreRemoved` | npu/driver/rocket_devfreq.c:671-726 | gives up the boost, then disarms the core's own block or disables boosting |
| `Lifecycle.DropBoostExact` | npu/driver/rocket_devfreq.c:682-705 | the boost is gone; the latch falls if and only if a needed write failed |
| `Lifecycle.DropBlockExact` | npu/driver/rocket_devfreq.c:707-725 | the own block, and no other, is freed, or the latch falls |
| `Devfreq.Devfreq.FiniDevfreq` | npu/driver/rocket_devfreq.c:500-541 | only the owner's removal returns references, writes the safe rate and disarms the rest |
| `Lifecycle.FiniExact` | npu/driver/rocket_devfreq.c:500-541 | only the owner's removal ends ownership and disarms, exactly the live blocks whose removal works |
| `Devfreq.Devfreq.DisarmNotifiers` | npu/driver/rocket_devfreq.c:728-740 | a block whose removal fails keeps its bookkeeping |
| `Devfreq.Devfreq.ProbeCore` | npu/driver/rocket_drv.c:208-231 | attach, slot, then init for slot 0 or arming for the others |
| `Lifecycle.ProbeExact` | npu/driver/rocket_drv.c:208-231 | a probe binds its device, into the lowest free slot, if and only if its attach is not vetoed and its core comes up |
| `Devfreq.Devfreq.RemoveCore` | npu/driver/rocket_drv.c:243-256 | core_removed, fini, then the slot is freed |
| `Lifecycle.RemoveExactly` | npu/driver/rocket_devfreq.c:671-740 | slots, owner, latch and every block after a whole removal |
| `Lifecycle.AllBoundBoosts` | npu/driver/rocket_devfreq.c:323-354 | after any life whose probes and removals met no failure, once all of at most four cores are bound, a request is granted if and only if voltage, resumes and write allow it |
| `Lifecycle.OthersFrame` | npu/driver/rocket_devfreq.c:277-497 | no other entry point touches slots, blocks, owner, latch or regulator |
| `ProtocolSafety.NoSwitchAboveSafe` | npu/driver/rocket_devfreq.c:6-29 | over every run with failures, forced suspends and resumes, removals and rebinds, each domain switch happened at 200 MHz; a faster clock is on the books with every slot live and armed and every core on and held; a forced resume always finds 200 MHz |
| `ProtocolCore.StepKeepsCore` | npu/driver/rocket_devfreq.c:277-418 | every entry point, with any failures and any foreign clock writes, keeps: a boost has its references, references need full cover, each core's count is exact |
| `ProtocolCore.RunKeepsCore` | npu/driver/rocket_devfreq.c:6-29 | the same over every run, the board keeping its size |
| `ProtocolSafety.StepKeepsClock` | npu/driver/rocket_devfreq.c:277-418 | every entry point keeps: a fast clock finds an owner, all slots live, all armed blocks in their own chains and all domains on, and each switch in the log was safe; only removals' safe-rate writes are trusted |
| `ProtocolSafety.CoveredWakes` | npu/driver/rocket_devfreq.c:361-366 | a hold that succeeds under full cover has every domain of the board on at once |
| `ProtocolSafety.StepOnBooks` | npu/driver/rocket_devfreq.c:377-397 | no step takes a boost off the books and leaves the clock fast |
| `ProtocolCore.CoveredHooks` | npu/driver/rocket_devfreq.c:323-338 | under full cover every domain of the board, not only every slot, is under a notifier |
| `ProtocolCore.TargetKeepsCore` | npu/driver/rocket_devfreq.c:277-418 | a request, whatever fails in it and whatever rate results, keeps cover and reference balance |
| `ProtocolCore.RemoveCalms` | npu/driver/rocket_devfreq.c:671-740 | a removal, whatever fails in it, leaves no boost, no boost reference and an uncovered board |
| `ProtocolSafety.RemoveExact` | npu/driver/rocket_devfreq.c:682-705 | a removal keeps the invariant if and only if one of its safe-rate writes succeeds or none is needed |
| `ProtocolSafety.RemoveSwitchExact` | npu/driver/rocket_devfreq.c:682-726 | the switch itself: the removed core's domain switches at 200 MHz under that same condition, and otherwise goes off at the fast rate with no notifier watching |
| `ProtocolResults.IgnoredVetoLogged` | npu/driver/rocket_devfreq.c:604-612 | a discarded veto of a needed, failed write lets the switch happen at the fast rate, with a notifier watching |
| `ProtocolResults.GuardedSwitchesExact` | npu/driver/rocket_devfreq.c:87-96 | in any run at all, foreign clock writers and failed removals included, every switch that a notifier saw happened at 200 MHz if and only if no needed veto was discarded |
| `ProtocolResults.PmConserved` | npu/driver/rocket_devfreq.c:399-413 | at every state of every run in which job starts succeed, failed and foreign clock writes included, each live core's usage count is one for the boost plus one for its job, and an unbound one's is zero |
| `Effects.PmConservedByHistory` | npu/driver/rocket_devfreq.c:399-413 | the same with the job side read off the run's own starts and completions |
| `Effects.RunInFlight` | npu/driver/rocket_job.c:314-351 | a core has a job in flight if and only if its last start or completion in the run was a clean start |
| `Effects.StartExact` | npu/driver/rocket_job.c:314-327 | a start takes one reference on its own core, in flight if nothing failed and leaked otherwise |
| `Effects.EndExact` | npu/driver/rocket_job.c:346-351 | a completion gives exactly that reference back |
| `ProtocolResults.StepLeaks` | npu/driver/rocket_job.c:314-320 | a step leaks a reference if and only if it is a job start whose resume or attach failed |
| `ProtocolResults.OnlyJobsTouchJobs` | npu/driver/rocket_devfreq.c:242-275 | no clock or power step changes the job side's references |
| `ProtocolResults.BoostMeansCover` | npu/driver/rocket_devfreq.c:323-338 | in every run, failed and foreign clock writes included, a boost has its references, and these imply all cores bound, live and armed, so none can be probed; with more than four cores there is never a boost |
| `ProtocolResults.UnsafeLatch` | npu/driver/rocket_devfreq.c:309-316 | once boosting is disabled it stays so, and books and clock stay at 200 MHz |
| `ProtocolResults.VoltGate` | npu/driver/rocket_devfreq.c:345-354 | books and clock go up above 700 MHz only on a sufficient reading; a refused request changes nothing |
| `ProtocolResults.NoFalseBoost` | npu/driver/rocket_devfreq.c:587-598 | with exact rates and no foreign writer or reboot, the books never claim a boost that the clock does not run at, although the suspend callback writes behind them |
| `ProtocolResults.RegistersOnlySafe` | npu/driver/rocket_devfreq.c:763-790 | registration needs a clock read at 200 MHz with the core awake; then every live core is armed or boosting is off |
| `Effects.HealsThenQuiet` | npu/driver/rocket_devfreq.c:297-321 | one request that succeeds on its inputs, its write exact, repairs any books, clock and references, and further requests for that rate change nothing |
| `ProtocolResults.TicksQuiet` | npu/driver/rocket_devfreq.c:297-321 | any number of governor ticks at the current rate leave the whole state alone; only an unsafe boost is refused |
| `RemovalWindow.RequestWindowSwitchExact` | npu/driver/rocket_devfreq.c:682-726 | the unsafe switch, on inputs: with one request between the unlock and the disarming the removed core's domain switches at 200 MHz if and only if the request was not granted, or came out at 200 MHz, or the owner is going and its write succeeds; after a failed first write, if and only if the request or the owner repairs the clock; otherwise it goes off at the fast rate unseen |
| `RemovalWindow.WindowSwitchExact` | npu/driver/rocket_devfreq.c:700-726 | the unsafe switch, any steps in the window: safe if and only if the second section finds a safe clock or is the owner's and its write succeeds |
| `RemovalWindow.RequestWindowExact` | npu/driver/rocket_devfreq.c:682-726 | invariant and references, one request: they survive if and only if the request was not granted, or the owner is going and its write succeeds or the clock came out safe; after a failed first write, if and only if the request or the owner repairs it |
| `RemovalWindow.RestSwitchExact` | npu/driver/rocket_devfreq.c:500-541 | the unsafe switch, second section alone: safe if and only if it finds a safe clock or is the owner's and its write succeeds |
| `RemovalWindow.RestExact` | npu/driver/rocket_devfreq.c:500-541 | invariant and references, second section alone: they survive if and only if it finds no boost set and a safe clock, or the owner is going and finds or makes the clock safe |
| `RemovalWindow.WindowExact` | npu/driver/rocket_devfreq.c:700-726 | invariant and references, any steps in the window: they survive if and only if the second section finds that; with a working first write, for a core that is not the owner, if and only if no boost set is held |
| `RemovalWindow.RequestFromQuiet` | npu/driver/rocket_devfreq.c:277-413 | from the safe rate without references, a boost results from a granted request and from nothing else |
| `RemovalWindow.NoSwitchAboveSafeSplit` | npu/driver/rocket_devfreq.c:671-740 | over every run with any number of removals in two sections at once: no switch above 200 MHz, if each second section finds what it must |
| `RemovalWindow.NoBoostInWindowsSafe` | npu/driver/rocket_devfreq.c:671-740 | the same on inputs: if no boost is granted inside a window and no needed first write fails |
| `ProtocolRuns.BoostGranted` | npu/driver/rocket_devfreq.c:361-404 | a boost is reachable from module load |
| `ProtocolRuns.Sleeps` | npu/driver/rocket_drv.c:310-330 | a run in which an idle core goes to sleep |
| `ProtocolRuns.Works` | npu/driver/rocket_job.c:314-351 | a run in which a job wakes it and its completion lets it sleep again |
| `ProtocolRuns.FailedRemoval` | npu/driver/rocket_devfreq.c:688-703 | a run from module load in which a removed core's domain goes off at 600 MHz |
| `ProtocolRuns.IgnoredVeto` | npu/driver/rocket_devfreq.c:604-612 | a run from module load with a system sleep and a foreign writer, in which a domain comes on at 600 MHz |
| `ProtocolRuns.LeakedReference` | npu/driver/rocket_job.c:314-320 | a run in which a failed attach keeps a core awake for good, with no job and no boost |
| `ProtocolRuns.BoostInWindow` | npu/driver/rocket_devfreq.c:705-723 | a run from module load in which all writes succeed and a removed core's domain still goes off at 600 MHz |
| `Interleaving.InterleavingSafe` | npu/driver/rocket_devfreq.c:474-483 | in every interleaving, failing suspend and resume callbacks included, each switch completes at 200 MHz and no lock-free write lands on a boost; a core in transition excludes a boost in progress |
| `Interleaving.StepKeepsInv` | npu/driver/rocket_devfreq.c:361-413 | each phase of a rate change and of a power transition keeps the interleaving invariant |
| `Interleaving.InTransition` | npu/driver/rocket_devfreq.c:474-483 | a core in transition finds clock and request at the safe rate and no boost set |
| `Interleaving.ReferencesBalance` | npu/driver/rocket_devfreq.c:399-413 | between rate changes a core's count is its users plus the boost, and a boost keeps every core active |
| `InterleavingRuns.RequestRuns` | npu/driver/rocket_devfreq.c:361-413 | undisturbed, the phases set clock and books as the write says and keep or drop the boost set on every core, for any number of cores |
| `InterleavingRuns.BoostReached` | npu/driver/rocket_devfreq.c:361-404 | any rate above 200 MHz is reached and held in the interleaved model |
| `InterleavingRuns.SuspendRuns` | npu/driver/rocket_devfreq.c:466-497 | undisturbed, an unused core goes off with one lock-free write and one switch |
| `InterleavingRuns.RefusedSuspendRuns` | npu/driver/rocket_devfreq.c:485-494 | a suspend whose write fails leaves its core on and switches nothing |
| `InterleavingRuns.ResumeRuns` | npu/driver/rocket_drv.c:292-308 | undisturbed, a sleeping core in use comes back with one switch |
| `InterleavingRuns.FailedResumeRuns` | npu/driver/rocket_drv.c:301-305 | a resume whose callback fails takes the domain off again, both switches safe |
| `LockOrder.DeadlockFree` | npu/driver/rocket_devfreq.c:474-483 | any number of entry points at once: no wait cycle, and an unfinished thread means some thread can step |
| `LockOrder.EntriesRise` | npu/driver/rocket_devfreq.c:571-600 | every entry point takes its locks and waits in rank order |
| `LockOrder.EntryTakes` | npu/driver/rocket_devfreq.c:361-397 | each entry point takes exactly the locks and waits of its row |
| `LockOrder.OuterHeld` | npu/driver/rocket_devfreq.c:285-418 | a rate change waits for cores and takes the clock mutex under the state mutex; likewise removals, job runs and timeouts under theirs |
| `LockOrder.RisingIsOrdered` | npu/driver/rocket_devfreq.c:571-600 | well-nested sections of rising rank are ordered programs that end holding nothing |
| `LockOrder.NoWaitCycle` | npu/driver/rocket_devfreq.c:474-483 | a chain of waits in a reachable state never closes |
| `LockOrder.LockedSuspendDeadlocks` | npu/driver/rocket_devfreq.c:474-477 | with the mutex in the suspend callback, a rate change and a suspend deadlock |
| `BusyMeter.BusyTime.RecordBusy` | npu/driver/rocket_devfreq.c:129-142 | sets the start stamp once; cores from index four on are ignored |
| `BusyMeter.BusyTime.RecordIdle` | npu/driver/rocket_devfreq.c:144-163 | closes the interval once, in 64-bit arithmetic |
| `BusyMeter.BusyTime.GetDevStatus` | npu/driver/rocket_devfreq.c:172-223 | drains exactly the counters of the first min(max_cores, 4) cores, none without an owner; reports their largest reading, clamped; total is at least 1 and busy at most total, whatever the stamps |
| `BusyMeter.ReportOf` | npu/driver/rocket_devfreq.c:209-220 | for any counters and any wrap-around, total is at least 1 and busy at most total |
| `BusyMeter.ExactAccounting` | npu/driver/rocket_devfreq.c:105-163 | over any ordered trace, drained plus accumulated plus in-progress time is the true busy time, and the stamp is set exactly while busy |
| `BusyMeter.ReportExact` | npu/driver/rocket_devfreq.c:165-220 | a poll reports the window and the largest overlap of a core's busy time with it; the clamp never bites |
| `BusyMeter.BoardReportExact` | npu/driver/rocket_devfreq.c:186-220 | the same for a board of any number of cores: the largest overlap over its first four |
| `BusyMeter.ExtraPollHarmless` | npu/driver/rocket_devfreq.c:190-207 | an extra poll anywhere leaves every core's total unchanged |
| `BusyMeter.AccountingWraps` | npu/driver/rocket_devfreq.c:129-207 | over any trace, stamps in any order: drained plus accumulated plus in-progress time is the signed busy time modulo 2^64 |
| `BusyMeter.ReadingExact` | npu/driver/rocket_devfreq.c:177-207 | stamps in any order: a poll reads a slot right if and only if the core's signed overlap with the window is in 0..2^64 |
| `BusyMeter.IdleExact` | npu/driver/rocket_devfreq.c:154-160 | stamps in any order: an idle core's counter is right if and only if its signed overlap is in 0..2^64 |
| `BusyMeter.WindowTotalExact` | npu/driver/rocket_devfreq.c:208-213 | a poll reports its window right if and only if its stamp is not older than the last poll's |
| `BusyMeter.ReportInRange` | npu/driver/rocket_devfreq.c:177-220 | stamps in any order: with no negative window or overlap the whole report is exact |
| `BusyMeter.StaleStamp` | npu/driver/rocket_devfreq.c:154-160 | a trace with a stale idle stamp in which an idle core is reported fully busy |
| `BusyMeter.BusyTime.RestartWindow` | npu/driver/rocket_devfreq.c:831 | begins a window and leaves every counter alone |
| `BusyMeter.RestartExact` | npu/driver/rocket_devfreq.c:831 | the first poll after a new registration reads the window's busy time plus all that the counter still held; it is right if and only if the core was idle from the last drain to the registration |
| `BusyMeter.RestartReport` | npu/driver/rocket_devfreq.c:831 | that poll reports the new window, and the largest of those readings clamped to it |
| `BusyMeter.StaleRestart` | npu/driver/rocket_devfreq.c:831 | a trace with ordered stamps in which an idle core is reported fully busy after a new registration |
| `BusyMeter.StalePoll` | npu/driver/rocket_devfreq.c:177-207 | a trace with a stale poll stamp in which a core busy for none of the window is reported fully busy |
| `Job.RocketCore.HwSubmit` | npu/driver/rocket_job.c:109-121 | starts the next task unless a reset is pending |
| `Job.RocketCore.Run` | npu/driver/rocket_job.c:288-330 | which exits return a fence, take a reference, and put the job in flight; meter and job agree |
| `Job.RocketCore.HandleIrq` | npu/driver/rocket_job.c:332-353 | continues, or completes with fence, reference and meter; does nothing without a job |
| `Job.RocketCore.Reset` | npu/driver/rocket_job.c:355-391 | drops the job and its reference if there is one, and stops the meter either way |
| `Job.RocketCore.TimedOut` | npu/driver/rocket_job.c:393-405 | leaves the core idle with its reference dropped once |
| `JobMachine.TasksInOrderOnce` | npu/driver/rocket_job.c:109-121 | across interrupts, skipped submits and resets, tasks start in order and at most once, and the fence is signalled at most once, after the last has started |
| `JobRuns.JobCompletes` | npu/driver/rocket_job.c:288-352 | undisturbed, a job starts every task in order, is signalled once, and gives back reference, meter and credit |
| `JobRuns.CheckExact` | npu/driver/rocket_job.c:296-304 | the run callback begins if and only if the job carries no error and has tasks left |
| `JobRuns.CompletionSignalled` | npu/driver/rocket_job.c:346-351 | in any run a job that leaves its core by completion has been signalled exactly once, after its last task |
| `JobRuns.FailedStartRuns` | npu/driver/rocket_job.c:314-320 | a failed start leaks its reference and starts nothing |
| `JobRuns.ResetRuns` | npu/driver/rocket_job.c:355-391 | a timeout takes the job and its reference off the core and lets the core run again |
| `JobMachine.BusyAgreesAndRefsBalance` | npu/driver/rocket_job.c:322-381 | whenever the job lock is free the meter runs exactly while a job is in flight, and references balance |
| `JobMachine.DroppedOnceWhoeverWins` | npu/driver/rocket_job.c:339-381 | however interrupt and reset interleave, an interrupt thread caught inside the lock included, the job's reference goes exactly once and the core ends idle |
| `JobMachine.StartsBounded` | npu/driver/rocket_job.c:339-344 | each accepted start uses up one submitted task, so no run starts more than were submitted |
| `JobMachine.StepLeft` | npu/driver/rocket_job.c:115-121 | the tasks left fall by one on each accepted start and never otherwise change |
| `JobMachine.StepKeepsInv` | npu/driver/rocket_job.c:288-391 | each write inside and outside the job lock keeps the invariant |
| `VoltProbe.Probe.Init` | npu/volt/npu_volt_probe.c:70-176 | its exact result and rail; never lowers the rail, keeps no reference when it fails, and leaves the rail between request and limit when it succeeds |
| `VoltProbe.LoadExact` | npu/volt/npu_volt_probe.c:70-176 | a load succeeds if and only if all look-ups and reads work and, unless it only reads, the request is in 800..950 mV, no step down, written, and reads back in bounds |
| `VoltProbe.Probe.Exit` | npu/volt/npu_volt_probe.c:178-194 | restores the found voltage only if it was changed, and returns all references |
| `VoltProbe.LoadUnload` | npu/volt/npu_volt_probe.c:70-194 | load and unload, any write results: no reference kept, the exact rail, never lower than found |
| `VoltProbe.LoadTakesSteps` | npu/volt/npu_volt_probe.c:70-176 | a whole load, with its result and rail, is a run of the small steps |
| `VoltCover.StepTakesSteps` | npu/driver/rocket_devfreq.c:345-413 | every entry point of the driver acts on the gate by a run of the gate's phases: request, lost boost, failed hold, publish, write |
| `VoltCover.HighRateHasVolts` | npu/driver/rocket_devfreq.c:345-354 | over joint runs of all entry points and all accesses of the probe, failed regulator readings included: a rate above 700 MHz on the books has 850 mV throughout if and only if no restoring write made under it settles below that |
| `VoltProbe.HighRateCovered` | npu/driver/rocket_devfreq.c:345-354 | a rate above 700 MHz has 850 mV in every state of a run if and only if no restoring write made while it is needed settles below that |
| `VoltProbe.PoliteIsCareful` | npu/driver/rocket_devfreq.c:345-354 | a probe that neither unloads nor undoes while the voltage is needed meets that condition whatever its writes do |
| `VoltProbe.StepExact` | npu/volt/npu_volt_probe.c:165-186 | a step keeps that cover if and only if it is not a successful restoring write, to below the gate, made while the voltage is needed |
| `VoltProbe.LoadNeverLowers` | npu/volt/npu_volt_probe.c:96-176 | a load in steps never brings the rail below what it found, whatever the driver does meanwhile |
| `VoltProbe.UndoUnderBoost` | npu/volt/npu_volt_probe.c:146-168 | a run in which a failed load leaves 1 GHz at 800 mV |
| `VoltProbe.UnloadUnderBoost` | npu/volt/npu_volt_probe.c:178-194 | a run in which an unload leaves 1 GHz at 800 mV |
| `Lifetimes.Submit` | npu/driver/rocket_job.c:589-599 | a pushed job lives on with the scheduler's reference, a refused one is freed and the domain is as before |
| `Lifetimes.JobPut` | npu/driver/rocket_job.c:231-264 | the last put frees the job and drops its domain reference |
| `Lifetimes.SubmitAndComplete` | npu/driver/rocket_job.c:266-273 | submission and completion leave the domain's count as it was |
| `Lifetimes.LifetimesExact` | npu/driver/rocket_drv.c:60-71 | the domain's count is open file plus buffers plus live jobs; domain and jobs are freed exactly once, with the last holder |
| `Lifetimes.HoldersFromHistory` | npu/driver/rocket_job.c:589-599 | who holds what is read off the run's own gets and puts |
| `Lifetimes.WholeLife` | npu/driver/rocket_drv.c:60-71 | a run in which the file closes under a running job and the last buffer takes the domain with it |
| `Lifetimes.NoUseAfterFree` | npu/driver/rocket_drv.c:60-71 | no step that can happen finds the domain, or the job it puts, already freed |

## Left out

- genpd, runtime PM, clk/SCMI, regulator, drm_sched, dma_fence and iommu: an environment with free
  results and explicit step rules, not code.
- Interleaving.InterleavingSafe: all cores are bound and guarded there; probes, removals, forced
  system suspends and foreign clock writers are atomic steps of `Protocol` instead.
- ProtocolSafety.NoSwitchAboveSafe: trusts that a removal's needed safe-rate write succeeds (exactly
  what `RemoveExact` shows it needs) and that no foreign writer raises the clock.
- VoltCover.HighRateHasVolts: each driver entry point is atomic there; `VoltProbe.HighRateCovered`
  interleaves the probe with the phases of a request. It speaks of the requested rate, not of a
  clock left fast by a failed safe-rate write.
- LockOrder.DeadlockFree: covers the locks and waits named in `Resource`; locks inside the kernel's
  frameworks are not modelled.
- A notifier block left in a chain after its removal failed and the shared device was freed: the
  model keeps the table, the pointer's validity is not part of it.
- Early submit and buffer-creation error paths: their clean-up does not balance, nothing is claimed.
- `iommu_group` references, of which each completion takes one that nobody drops.
- What drm_sched does with an interrupted job after a reset.
- Register packing, MMIO and task copying: bit masks and user-space access.
- Resource acquisition, OPP table, cooling and devfreq registration: library calls whose results
  are parameters.
- Benchmarks, scripts, measurement data, device-tree and GPU patches.
