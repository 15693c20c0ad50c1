# Battery charger firmware: a verified model

The firmware charges a lithium pack through a programmable buck converter and
feeds a load from the same output. This project models, and proves properties
of, the parts of it that decide something:

- **The charge supervisor in closed loop with the buck.** Twelve states and a
  transition table, driven once a second by a poll of the device. Every tick
  first agrees with what the output reports, then runs an ordered list of
  safety checks, then regulates. It answers with a single-use ticket; the
  ticket is committed only if the device write was acknowledged.
- **The timers under it**: a hard and a leaky debounce, and a budget on how
  often the buck may drop out and come back.
- **The step-down sequence and the boot sequence**, against a bus that may lose
  any write and a buck that may switch itself off between any two of them.
- **The history pipeline**: a fixed buffer that halves its resolution in place
  each time it fills, and finally slides.
- **The log ring** and **the network supervisor** with the radio and servers it
  drives.

## How it is laid out

| file | what it holds |
|---|---|
| `Timing.dfy`, `ChargeTypes.dfy`, `Wrappers.dfy` | constants, data types, `Option` and `Outcome` |
| `Debounce.dfy`, `HoldBudget.dfy` | the timers and what their counters mean |
| `ChargeState.dfy` | the transition table, and what every path through it obeys |
| `SupervisorSpec.dfy` | the supervisor as a function from one state to the next; a panic is the value `Panic` |
| `SupervisorInvariant.dfy` | its invariant, kept by every tick and commit |
| `SupervisorRuns.dfy` | what holds over every run |
| `SupervisorChecks.dfy` | exactly when each check, wait, move and fault applies |
| `SupervisorLimits.dfy` | how long what is wrong may go on, over every run |
| `SupervisorTimers.dfy` | every check's counter as a time in the poll history, and what it decides |
| `ChargeSupervisor.dfy` | the supervisor as an object updated in place, every method tied to the function above |
| `Buck.dfy` | the device, the V_SET sequence, booting |
| `ClosedLoop.dfy` | supervisor and device together |
| `FailingRuns.dfy` | concrete runs on which a documented promise fails |
| `History.dfy`, `SensorStore.dfy` | the history pipeline and the store that feeds it |
| `HistoryRows.dfy` | which samples each history row covers, and which rows are exact means |
| `SensorLoss.dfy` | monitor, main loop and charger's loop together, each on its own clock |
| `LogRing.dfy` | the log ring |
| `Net.dfy` | the network supervisor and its resources |

A run is a sequence of cycles with arbitrary polls, arbitrary elapsed times and
arbitrary losses. Each supervisor state carries a history variable (`trace`) of
the moves made and the times charged, so that a counter can be compared with the
history it stands for.

## What is assumed

- Time is a natural number of microseconds. Voltages and currents are reals; a
  battery sample has an explicit non-finite case, because the checks filter it.
- A bus write has one of four fates: done and acknowledged, done and not
  acknowledged, never received, acknowledged and not done. Theorems that need a
  truthful bus say which fate of which write they exclude. The buck may switch
  itself off before any transaction, and on or off between cycles and between
  the poll and the action; it does not switch itself on inside one write
  sequence.
- One status read brings setpoints and output together or not at all.
- `soc` is an arbitrary function of voltage. The two assertions of the
  supervisor's constructor are its precondition.

## Where the code and its documentation differ

The model follows the code.

- The supervisor's `fault` field is documented as set once, on entering
  `Tripping`. A park sets it earlier, and it is then replaced exactly when the
  parked output is found off for good or the gauntlet's ruling is another fault
  (`FaultIsReplacedExactly`); `ParkedFaultIsReplaced` is a run that does it. The
  machine has then latched, so it happens once (`FaultIsReplacedOnce`).
- `apply_update_voltage` documents one error callback per bus error. The first
  failed re-enable after a step-down is retried without one
  (`ReportsAllButTheFirstReEnable`).
- `inhibit()` is documented as `None` while regulating normally. While sourcing
  it reads `NoBatterySample` on a tick without a usable sample, and nothing else
  (`InhibitWhileSourcing`).
- `MAX_CHARGE` is documented as counted unconditionally. The time spent in an
  absorb is what the clock was charged plus the time of ticks without a usable
  sample (`AbsorbOutlastsByBlindTime`). What bounds it is the shortest tick: each
  sampled tick costs the clock that much and buys at most one whole missing-sample
  window (`AbsorbIsBounded`). At the loop's one-second turns runs of up to ten
  times the cap exist (`AbsorbOutlastsItsCap`).
- The best-practices note says an absorb timeout latches the buck off and that
  any dip resets its window. The code parks, and a dip only drains the window
  (`RegulatesExactly`).
- A committed step-down whose re-enable failed is documented to latch
  `OutputUnexpectedlyOff` on the next tick. It does exactly when the next cycle
  hears the buck, the buck is off and its cause does not clear itself
  (`FailedReEnableLatchesExactly`). A self-clearing cause is waited out, a
  re-enable that was done without being acknowledged leaves the buck on, and an
  unheard cycle leaves it dark without a fault (`DarkBuckGoesUnnoticed`).
- A glitch on a V_SET write is documented to retry instead of latching
  `SettingsDrift`. A write that was done without being acknowledged is retried and
  latches it in the next cycle that hears the buck on and is no flap, exactly when
  the two targets are far enough apart to tell (`UnheardWriteDriftsExactly`).
- The step-down is documented to survive a single bus glitch without dropping the
  load. It drops it exactly when the glitch is the lost acknowledgement of a
  disable that was done (`OneGlitchDropsLoadExactly`).
- Booting is documented to leave the buck coming back disabled even if the farewell
  write fails. It does exactly when the power-on default was off before or some
  attempt got it through (`RebootComesBackDisabledExactly`); a bus that loses
  every disable leaves everything as it was (`LostDisablesChangeNothing`).
- The sensor-loss budget is documented as the sum of the windows, whatever a loop
  does. One turn of each loop comes on top (`SensorLossIsBounded`): with a main
  loop held up for nine seconds a buck is still sourced eighteen seconds after the
  last reading (`DeadSensorOutlastsItsBudget`).
- A history row is called an average of its samples. It is their exact mean
  for every stream if and only if it covers a whole interval or exactly half of
  one (`RowsAreMeansExactly`); every other row gives its newest sample a whole
  interval's share (`RowFiftyOneIsNotAMean`).

## Model

| member | source | states |
|---|---|---|
| Debouncing.LeakyIsBestWindow | logic/src/charging/debounce.rs:42-57 | The leaky accumulator is the largest net time (true minus false) over all windows of the history that end now, floored at zero. |
| Debouncing.LeakyFiresExactly | logic/src/charging/debounce.rs:42-57 | The leaky gate stands at or past its timeout if and only if some window ending now nets that much time. |
| Debouncing.HardIsTrailingRun | logic/src/charging/debounce.rs:14-24 | The hard accumulator is the time of the unbroken true run that ends now, and of no longer one. |
| Debouncing.Debounce.Step | logic/src/charging/debounce.rs:14-24 | Adds or clears in place; fires only on a true condition at or past the timeout. |
| Debouncing.Debounce.Reset | logic/src/charging/debounce.rs:26-29 | Clears the window. |
| Debouncing.Debounce.StepLeaky | logic/src/charging/debounce.rs:42-57 | Adds or drains in place, floored at zero; the source's debug assertion is the precondition, which the supervisor is proved to meet. |
| HoldBudgets.OverBudgetIsFlapping | logic/src/charging/hold_budget.rs:26-45 | The two counters say over budget if and only if the last five holds exist and every gap between them, and since the last, is within the flap window. |
| HoldBudgets.FoldCountsTheChain | logic/src/charging/hold_budget.rs:16-45 | The counter is the length, saturated at 255, of the chain of short gaps ending now, and the timer is the last gap. |
| HoldBudgets.ToleratedHoldsTakeTime | logic/src/charging/hold_budget.rs:31-45 | A history asked after every hold and never found flapping has at most five holds per flap window of time. |
| HoldBudgets.HoldBudget.RecordHold | logic/src/charging/hold_budget.rs:25-29 | Records one hold on the history its counters stand for. |
| HoldBudgets.HoldBudget.Step | logic/src/charging/hold_budget.rs:39-45 | Answers whether the whole history of holds is a flap. |
| ChargeStates.LogIsFaithful | logic/src/charging/charge_state.rs:254-265 | The log of any path through the table is a word of a six-class automaton, and reading it ends in the class of the current state. |
| ChargeStates.StoppedIsForever | logic/src/charging/charge_state.rs:132-160 | From a stopped state no path leaves the stopped states, writes the absorb target or parks again; at most the outstanding step-down is still written. |
| ChargeStates.MovesAreBounded | logic/src/charging/charge_state.rs:132-160 | Any path trips on a fault at most once, parks at most once, and writes at most one step-down more than it took taper moves. |
| ChargeStates.GroupsPartition | logic/src/charging/charge_state.rs:287-318 | Sourcing, bringing up and latched are all the states and exclude each other; a setpoint is held outside the latch; an outstanding write moves away from it. |
| ChargeStates.TableIsCoherent | logic/src/charging/charge_state.rs:102-160 | Every cell of the table by what its event means: exactly where it may happen, and where it leads, in terms of the target held, the write owed and the park. |
| ChargeStates.HoldComesBack | logic/src/charging/charge_state.rs:107-116 | Out of a hold and back the machine is settled at the target the buck held, parked if it was, and is where it was unless a write was outstanding. |
| ChargeStates.LogsWhatItMeans | logic/src/charging/charge_state.rs:249-265 | What every move of the table records in the event log, by its event. |
| SupervisorInvariant.NeverPanics | logic/src/charging/charge_supervisor.rs:237-321 | For every sequence of polls, times and lost writes no table cell is missing, no `expect` fails, no assertion fails, and the invariant holds throughout. |
| SupervisorInvariant.TickKeeps | logic/src/charging/charge_supervisor.rs:344-375 | Every tick keeps the invariant and answers with an action whose commit must succeed; what a tick may do to fault, timers, holds and target is listed. |
| SupervisorInvariant.CommitKeeps | logic/src/charging/charge_supervisor.rs:286-321 | Committing the ticket just handed out succeeds, keeps the invariant and the fault, and moves the believed target exactly on a voltage ticket. |
| SupervisorInvariant.CycleKeeps | logic/src/charging/charge_supervisor.rs:286-375 | A tick followed by commit or drop keeps the invariant, only extends the history, and charges the phase clocks no more than the elapsed time. |
| SupervisorInvariant.ReconcileKeeps | logic/src/charging/charge_supervisor.rs:421-485 | Reconciling decides the tick only in a latching state; otherwise the machine now sources exactly if the buck reports on, with fault and target unchanged. |
| SupervisorInvariant.GauntletKeeps | logic/src/charging/charge_supervisor.rs:518-646 | The checks write only their own timers, never the state, and the verdict is one the state may act on. |
| SupervisorInvariant.RegulateKeeps | logic/src/charging/charge_supervisor.rs:651-706 | Regulating stays sourcing, never asks for an enable or disable, never trips the leaky assertion and leaves the believed target alone. |
| SupervisorInvariant.JudgeKeeps | logic/src/charging/charge_supervisor.rs:344-375 | A tick past reconciliation ends latched for flapping if and only if the budget is over, and an idle machine latches for nothing else. |
| SupervisorInvariant.OnFaultKeeps | logic/src/charging/charge_supervisor.rs:390-408 | A parking fault on an unparked machine parks it with the target unchanged; any other trips it. The fault shown is the one raised. |
| SupervisorRuns.StoppedForGood | logic/src/charging/charge_supervisor.rs:388-408 | Fault confinement: once stopped, every run stays stopped with a fault on show, never writes V_SET up, writes it at most once more, and asks only for what a charger that has given up may. |
| SupervisorRuns.LatchedForGood | logic/src/charging/charge_supervisor.rs:377-386 | Once tripping, every later action of every run is nothing or the same disable, and the fault is frozen. |
| SupervisorRuns.LogIsAWord | logic/src/charging/charge_supervisor.rs:237-251 | After any run the log is a word of the automaton ending in the state's class, and the buffer is its newest part. |
| SupervisorRuns.DrainLosesNothing | src/xy.rs:460-469 | If the buffer is drained every cycle, what was taken out is the whole log of the run. |
| SupervisorRuns.OutputCyclingIsBounded | logic/src/charging/charge_supervisor.rs:661-682 | In every run, taper moves times the exit debounce is at most the time handed in, and step-downs written exceed taper moves by at most one. |
| SupervisorRuns.ProtectionCyclingIsBounded | logic/src/charging/charge_supervisor.rs:263-270 | In every run of a machine still running, every five holds cost a whole flap window of the time handed in. |
| SupervisorRuns.FlappingAlwaysTrips | logic/src/charging/charge_supervisor.rs:519-532 | Between cycles a history that is a flap belongs to a machine that has tripped: never one tick late. |
| SupervisorRuns.FailsClosed | logic/src/charging/charge_supervisor.rs:546-569 | After any run a sourcing buck has had its setpoints read within one window, and a usable sample within the other since sourcing began. |
| SupervisorRuns.AbsorbIsCapped | logic/src/charging/charge_supervisor.rs:685-704 | In absorb, every window ending now is short of both leaky limits, and the whole stretch is short of the total cap. |
| SupervisorRuns.Reconciled | logic/src/charging/charge_supervisor.rs:410-485 | After any tick that read the output, the machine is latching or sources if and only if the buck does. |
| SupervisorRuns.IdleLatchIsFlapping | logic/src/charging/charge_supervisor.rs:506-532 | With the output off after reconciliation, a tick latches if and only if the holds are a flap, and for that reason. |
| SupervisorRuns.InhibitWhileSourcing | logic/src/charging/charge_supervisor.rs:126-137 | After a tick that sources, the reported wait is the missing sample if the sample is missing, and none otherwise. |
| SupervisorChecks.GauntletRules | logic/src/charging/charge_supervisor.rs:501-646 | The verdict is the first ruling, in the documented order, whose condition on poll, counters and hold history is true; without one the sample is cleared. |
| SupervisorChecks.TickFollowsRuling | logic/src/charging/charge_supervisor.rs:344-408 | What a tick does about each ruling on the machine that reconciliation leaves, moved or not (a hold that re-enabled itself included): wait in place, park once, or trip and owe the disable, with the fault and the inhibit it reports. |
| SupervisorChecks.DropOutExactly | logic/src/charging/charge_supervisor.rs:437-458 | A sourcing buck found off is waited out at its target if and only if the cause clears itself, no park's step-down was under way and this hold is within budget; otherwise it trips, with the exact fault. |
| SupervisorChecks.RegulatesExactly | logic/src/charging/charge_supervisor.rs:651-706 | From every sourcing state, where regulating goes, the fault it shows and the write it asks for: absorb ends on the tick some window nets the exit debounce, else the plateau limit, else the total cap, and on no other; float steps up on current alone; an owed write is repeated; a parked buck is left alone; the output is cycled exactly on the way down. |
| SupervisorChecks.InhibitExactly | logic/src/charging/charge_supervisor.rs:126-137 | What is reported as waited on after any cycle: this tick's waiting verdict, nothing on a tick that cleared, parked or latched, and after that no change. |
| SupervisorChecks.ComesBackExactly | logic/src/charging/charge_supervisor.rs:459-482 | A report of on: out of a hold the machine settles at the held target before this tick's checks, in boot it is the fault, elsewhere it moves nothing. |
| SupervisorChecks.DisableIsOwedExactly | logic/src/charging/charge_supervisor.rs:422-436 | A latched machine asks for its disable on every tick until confirmed and whenever the output is reported on, and otherwise for nothing. |
| SupervisorChecks.EnableLandsExactly | logic/src/charging/charge_supervisor.rs:274-292 | A committed enable ends parked out of a parked hold, in absorb if that target is held, and otherwise in float or owing the step up exactly as its ticket says. |
| SupervisorChecks.OwedStepUpTick | logic/src/charging/charge_supervisor.rs:652-659 | An owed step up is asked for on every tick that clears, kept through every tick that waits, and given up only by one that stops charging. |
| SupervisorChecks.StepUpStaysOwed | logic/src/charging/charge_supervisor.rs:294-309 | Over any run without an output reported off, the step up is still owed, or charging has stopped, or a cycle's ticket for it landed. |
| SupervisorChecks.FaultExactly | logic/src/charging/charge_supervisor.rs:344-408 | The fault on show after any cycle: a latched machine's own; otherwise the one the reported output is, or the gauntlet's ruling, or the cap that ends this absorb; otherwise the one before. |
| SupervisorChecks.FaultIsReplacedExactly | logic/src/charging/charge_supervisor.rs:67-69 | A fault on show is replaced by a cycle if and only if the machine had not latched and its parked output was found off for good, or the gauntlet's ruling is another fault; a park's own fault raised again latches without replacing it. |
| SupervisorChecks.FaultIsReplacedOnce | logic/src/charging/charge_supervisor.rs:67-69 | Over any run a fault on show ends up replaced if and only if one of the cycles replaces it, and the machine has then latched for good. |
| FailingRuns.ParkedFaultIsReplaced | logic/src/charging/charge_supervisor.rs:390-408 | A run of one-second turns from start-up that parks on too much current and then shows another fault. |
| SupervisorLimits.WrongIsCut | logic/src/charging/charge_supervisor.rs:571-622 | After any run, parked or not, the time a sourced battery has been over voltage, over current or its fitted temperature sensor unread is short of the limit; only the very tick that parks on current may overshoot, by its own length, until the next usable sample. |
| SupervisorTimers.CountersAreTimes | logic/src/charging/charge_supervisor.rs:530-613 | After any run each of the five debounce counters is the time charged by the ticks that got as far as its check since the last of them that found nothing wrong, and for the voltage since the last hold began. |
| SupervisorTimers.LatchesExactlyWhenDue | logic/src/charging/charge_supervisor.rs:530-613 | After any run the next tick of a sourcing machine rules a debounced fault if and only if it gets as far as the check, finds it wrong, and that time has reached the window: neither late nor early. |
| SupervisorTimers.EnablesExactly | logic/src/charging/charge_supervisor.rs:365-373 | After any run the next tick asks for the output if and only if nothing on it speaks against that (state, holds, report, readback, sample, a temperature in its window or not left unread too long); the resume flag is exact in current and charge. |
| SupervisorLimits.ChargeClockSkipsBlindTicks | logic/src/charging/charge_supervisor.rs:698-703 | The total-time clock is charged for a tick in absorb if and only if the tick had a usable sample, and starts at nothing out of a hold. |
| SupervisorLimits.AbsorbOutlastsByBlindTime | logic/src/charging/charge_supervisor.rs:698-703 | After any run in absorb, the time since this stretch began is the clock's plus the time of ticks without a usable sample, so it is short of the cap plus that time. |
| SupervisorLimits.AbsorbIsBounded | logic/src/charging/charge_supervisor.rs:561-569 | If every tick but the first lasts at least d, an absorb lasts less than the cap plus one missing-sample window for every d that fits in the cap, and one more. |
| SupervisorLimits.ClocksStayShort | logic/src/charging/charge_supervisor.rs:253-262 | Between ticks the taper, plateau and total clocks stand below their windows in every state of every run, latched ones included. |
| FailingRuns.AbsorbOutlastsItsCap | logic/src/charging/charge_supervisor.rs:698-703 | For every length short of ten caps there is a run of one-second turns from start-up whose present absorb has lasted that long. |
| ChargeSupervisors.ChargeSupervisor.constructor | logic/src/charging/charge_supervisor.rs:78-105 | A new supervisor is in the initial state with all timers distinct and the invariant established. |
| ChargeSupervisors.ChargeSupervisor.StepOn | logic/src/charging/charge_supervisor.rs:237-272 | The one writer of the state: the whole object after it is the specified move, whose resets CountersAreTimes, ClocksStayShort and LogIsAWord are about. |
| ChargeSupervisors.ChargeSupervisor.HandleFault | logic/src/charging/charge_supervisor.rs:390-408 | Fault handling in place, equal to the specified one that OnFaultKeeps describes. |
| ChargeSupervisors.ChargeSupervisor.AgreeWithDevice | logic/src/charging/charge_supervisor.rs:421-485 | Reconciliation in place, equal to the specified one that ReconcileKeeps describes. |
| ChargeSupervisors.ChargeSupervisor.CheckBus | logic/src/charging/charge_supervisor.rs:530-569 | Checks 1 to 4 in order with early returns; only their timers change. |
| ChargeSupervisors.ChargeSupervisor.CheckPack | logic/src/charging/charge_supervisor.rs:571-622 | Checks 5 to 7 in order with early returns; only their timers change. |
| ChargeSupervisors.ChargeSupervisor.RunGauntlet | logic/src/charging/charge_supervisor.rs:518-646 | All checks in order, equal to the specified list that GauntletRules characterises. |
| ChargeSupervisors.ChargeSupervisor.ApplyAbsorbCaps | logic/src/charging/charge_supervisor.rs:687-704 | The two caps in order, the second not charged when the first fires. |
| ChargeSupervisors.ChargeSupervisor.RunPhases | logic/src/charging/charge_supervisor.rs:651-706 | Regulation in place, equal to the specified one that RegulatesExactly characterises. |
| ChargeSupervisors.ChargeSupervisor.JudgeTick | logic/src/charging/charge_supervisor.rs:353-374 | The tick past reconciliation: verdict, inhibit bookkeeping, enable or regulate. |
| ChargeSupervisors.ChargeSupervisor.TickOnce | logic/src/charging/charge_supervisor.rs:344-375 | From any valid object a tick succeeds, leaves it valid and equal to the specified tick, and its ticket can be committed. |
| ChargeSupervisors.ChargeSupervisor.CommitTicket | logic/src/charging/charge_supervisor.rs:286-321 | Committing a ticket that fits cannot fail, leaves the object valid, and lands where EnableLandsExactly and TableIsCoherent say. |
| ChargeSupervisors.ChargeSupervisor.PopTransition | logic/src/charging/charge_supervisor.rs:139-144 | Takes the oldest undrained entry and nothing else. |
| ChargeSupervisors.ChargeSupervisor.RegulatingPhase | logic/src/charging/charge_state.rs:229-237 | A phase is shown if and only if the machine sources, and it is the target the device holds. |
| Bucks.StepDownIsSafeExactly | logic/src/charging/voltage_writer.rs:76-108 | A step-down lowers V_SET on a live output if and only if its disable was acknowledged but not done, the buck stayed on and the write arrived. |
| Bucks.LiveWriteIsSafeExactly | logic/src/charging/voltage_writer.rs:62-74 | A write without cycling does so if and only if it arrives at a buck that is on and holds more. |
| Bucks.OneWriteExactly | src/xy.rs:50-64 | Of all single writes, exactly a lower V_SET arriving at a live buck lowers it live. |
| Bucks.NeverLoweredJoins | logic/src/charging/voltage_writer.rs:76-108 | Two safe stretches of registers joined are safe exactly when the step between them is. |
| Bucks.CommittedMeansWritten | logic/src/charging/voltage_writer.rs:18-32 | The outcome is committed if and only if the V_SET write was made and acknowledged; the register is then the target, and after a retry unchanged unless a lost write was done. |
| Bucks.ReportsAllButTheFirstReEnable | logic/src/charging/voltage_writer.rs:50-107 | The errors reported are the failed writes by kind and in order, except for the first re-enable after a landed write; so they are as many if and only if that one did not fail. |
| Bucks.OneGlitchDropsLoadExactly | logic/src/charging/voltage_writer.rs:34-46 | With at most one failed write on a live buck the sequence ends with the output off if and only if that was the lost acknowledgement of a disable that was done. |
| Bucks.BootNeverLowersLive | src/xy.rs:320-435 | However often booting is retried and whatever becomes of its other writes, V_SET is never lowered live as long as no disable is acknowledged without being done. |
| Bucks.BootHandsOverExact | src/xy.rs:346-370 | What is handed over holds V_SET as commanded if no V_SET write was falsely acknowledged, and every register as commanded, off and off at power-on, if no write was; no stale protection cause is left if the buck did not trip meanwhile. |
| Bucks.BootHandsOverVerified | src/xy.rs:357-387 | Even a device that acknowledges what it did not do is handed over only if it reads back right, off, and with matching scales. |
| Bucks.AttemptHandsOverExactly | src/xy.rs:320-387 | One attempt hands over if and only if the scales suit, six writes are acknowledged, both reads arrive, and five registers read back within two hundredths with the output off. |
| Bucks.BootHandsOverExactly | src/xy.rs:412-421 | Booting hands over if and only if some attempt would on the registers the ones before it left. |
| Bucks.RebootComesBackDisabledExactly | src/xy.rs:405-430 | When booting gives up, the power-on default is off if and only if it was before or some attempt got it through. |
| Bucks.LostDisablesChangeNothing | src/xy.rs:405-430 | A bus that loses every disable leaves the registers as booting found them, output on if it was. |
| Bucks.Buck.Send | logic/src/charging/voltage_writer.rs:13-16 | One fallible device write: the new registers for each of its fates. |
| Bucks.Buck.ApplyUpdateVoltage | logic/src/charging/voltage_writer.rs:53-109 | The ordered writes with early returns: registers, outcome, error callbacks and every intermediate register state equal the specified sequence. |
| Bucks.Buck.Boot | src/xy.rs:320-371 | One boot attempt in place: the six writes in order, stopping at the first failure, then the read-back. |
| Bucks.Buck.BootOrReboot | src/xy.rs:412-435 | The retry loop: hands over on the first good attempt, otherwise makes the farewell disable and reboots. |
| ClosedLoop.LoopIsARun | src/xy.rs:460-469 | The loop never panics, and the supervisor's part of it is one of the supervisor's runs, so every statement about those holds of the loop. |
| ClosedLoop.TicketsCommitExactly | src/xy.rs:613-665 | After any cycle the machine sources after an enable, is latched after a disable and believes the new target after an update if and only if that write was made and acknowledged; otherwise it is where the tick left it. |
| ClosedLoop.CycleStaysInTune | src/xy.rs:613-665 | With nobody else at the output and no write lost halfway, one cycle keeps sourcing and output in agreement if and only if it is not a step-down that was left off. |
| ClosedLoop.SourcesExactlyWhileOn | src/xy.rs:460-469 | Over every such run from boot, a machine that is not tripping sources exactly while the output is on, however many writes are lost. |
| ClosedLoop.FailuresAreReported | src/xy.rs:619-664 | The event log hears of an enable or disable exactly if its write failed, and of an update whatever its sequence reports. |
| ClosedLoop.LowersLiveExactly | src/xy.rs:613-665 | One cycle lowers V_SET on a live output if and only if a step up finds the register above the absorb target, or a step-down's disable was falsely acknowledged. |
| ClosedLoop.VSetIsNeverLoweredLive | logic/src/charging/charge_supervisor.rs:215-226 | In every run of the loop, whatever is lost, retried or switched behind its back, V_SET is never lowered while the output is on. |
| ClosedLoop.BeliefBreaksExactly | logic/src/charging/charge_supervisor.rs:294-309 | With nobody at the panel one cycle breaks the agreement of belief and register if and only if the bus misreports its V_SET write; no drift fault arises from agreement. |
| ClosedLoop.BeliefMatchesRegister | logic/src/charging/charge_state.rs:209-227 | In every reachable state that holds a setpoint V_SET is that state's target, so no run of lost and retried writes raises a drift fault. |
| ClosedLoop.BeliefFromPowerOn | src/xy.rs:442-470 | From power-on: whatever the registers held and whatever became of the boot writes, falsely acknowledged ones included, a hand-over starts the loop in agreement to within the drift tolerance, and every honest run keeps it and raises no drift fault. |
| ClosedLoop.ExactFromPowerOn | src/xy.rs:442-470 | If no boot write was falsely acknowledged the agreement is exact. |
| ClosedLoop.AgreementIsKept | logic/src/charging/charge_supervisor.rs:294-309 | A device read back within the tolerance stays within it through every run of lost and retried writes, with no drift fault. |
| ClosedLoop.VSetIsSafeFromPowerOn | src/xy.rs:412-470 | Neither booting nor any cycle after the hand-over lowers V_SET on a live output. |
| ClosedLoop.FailedReEnableLatchesExactly | logic/src/charging/voltage_writer.rs:22-26 | After a committed step-down whose re-enable failed, the next cycle latches `OutputUnexpectedlyOff` if and only if it hears the buck, the buck is off and its cause does not clear itself. |
| ClosedLoop.UnheardWriteDriftsExactly | logic/src/charging/action.rs:83-87 | After a V_SET write that was done but not acknowledged, the next cycle that hears the buck on and is no flap latches `SettingsDrift` if and only if the two targets do not agree within the drift tolerance. |
| FailingRuns.DarkBuckGoesUnnoticed | logic/src/charging/voltage_writer.rs:94-108 | Booted from any registers, a run of one-second turns in which such a step-down is followed by an unheard cycle: dark buck, float, no fault. |
| ClosedLoop.LatchedMeansDark | logic/src/charging/charge_supervisor.rs:426-436 | A machine latched after a cycle that heard the buck has a dark buck, unless it came back on after it was heard. |
| ClosedLoop.ApplyAction | src/xy.rs:613-665 | Makes the writes of an action, reports its errors and commits its ticket exactly when they landed, as TicketsCommitExactly and FailuresAreReported say. |
| ClosedLoop.DrainLog | src/xy.rs:465-469 | Takes out the whole buffer, oldest first, and nothing else. |
| ClosedLoop.RunCycle | src/xy.rs:460-469 | One turn of the loop on the two objects; what it records is exactly what the supervisor logged this turn, and its errors those of its action. |
| Histories.EntriesStandForSpans | logic/src/data/history/mod.rs:102-147 | Stored entries and pending samples partition the stream (a suffix once sliding began); each span is between half and all of the interval, stamped by its last sample, bracketed in every field, and averaged exactly while it is full or exactly half. |
| Histories.OccupancyIsExact | logic/src/data/history/mod.rs:102-147 | Interval, length and pending count after any number of samples, in closed form. |
| HistoryRows.CutsExactly | logic/src/data/history/mod.rs:102-147 | Where every row begins and ends in the stream, in closed form, for any number of samples, sliding included. |
| HistoryRows.RowsAreMeansExactly | logic/src/data/history/mod.rs:48-61 | A row is the exact mean of the samples it covers for every stream of that length if and only if it covers a whole interval or exactly half of one. |
| HistoryRows.RowFiftyOneIsNotAMean | logic/src/data/history/mod.rs:133-147 | After 409 samples row 51 covers [204, 207); of a single one at 206 it holds a quarter, where the mean is a third. |
| HistoryRows.ReachesBackOverAnAbsorb | logic/src/data/history/mod.rs:17-21 | Once as many samples have come in as `MAX_ABSORB` has seconds, the first row begins at least that many back. |
| Histories.CommitIsChronological | logic/src/data/history/mod.rs:102-147 | A later-stamped sample keeps the stored stamps strictly increasing through accumulating, compacting and sliding. |
| Histories.History.Compact | logic/src/data/history/mod.rs:133-147 | Overwriting the buffer pair by pair in place yields the pairwise merges of what it held. |
| Histories.History.MakeSpace | logic/src/data/history/mod.rs:113-124 | A full buffer is coarsened below the cap and slid at it, after which a row fits. |
| Histories.History.StoreRow | logic/src/data/history/mod.rs:109-127 | Pushes the row and restarts the accumulator. |
| Histories.History.CommitSample | logic/src/data/history/mod.rs:99-128 | One sample fed into the object: the buffer and counters are the specified ones and the span invariant is kept. |
| SensorStore.HistoryIsChronological | logic/src/data/mod.rs:184-217 | For every interleaving of updates and ticks and any clock, absent, repeating or stepping back, stored stamps strictly increase and spans stay sound. |
| SensorStore.FedExactly | logic/src/data/mod.rs:184-217 | Over every interleaving the history is fed one sample for each tick whose clock is past the last stored stamp, in order, stamped with it, each field that of the last usable reading at most a window old and zero without one. |
| SensorStore.BatteryReadingExactly | logic/src/data/mod.rs:142-149 | A battery reading is offered if and only if a usable one was published, none later replaced it, and at most the stale window was ticked since; and it is that one. |
| SensorStore.PsReadingExactly | logic/src/data/mod.rs:151-156 | The same for the supply. |
| SensorLoss.SensorLossIsBounded | logic/src/charging/mod.rs:130-140 | Over every interleaving of monitor, main loop and charger's loop on their own clocks, a sourcing buck has had a usable reading, or begun sourcing, within the two windows and one turn of each loop. |
| FailingRuns.DeadSensorOutlastsItsBudget | logic/src/charging/mod.rs:130-140 | A run with a nine-second turn of the main loop in which the buck is still sourced eighteen seconds after the last reading. |
| SensorStore.SensorData.PublishBattery | logic/src/data/mod.rs:120-130 | Drops a non-finite reading with no effect at all; otherwise stores it as just heard. |
| SensorStore.SensorData.PublishPs | logic/src/data/mod.rs:132-140 | The same for the supply. |
| SensorStore.SensorData.BatteryReading | logic/src/data/mod.rs:142-149 | Over the object's whole history of updates and ticks: answers a reading if and only if it is the last usable one published and at most the stale window was ticked since. |
| SensorStore.SensorData.PsReading | logic/src/data/mod.rs:151-156 | The same for the supply. |
| SensorStore.SensorData.TickOnce | logic/src/data/mod.rs:184-217 | Ages both clocks, and feeds the sample that FedExactly describes unless the clock is absent or not past the last stored stamp. |
| LogRing.Ring.constructor | logic/src/log_ring/mod.rs:19-27 | An empty ring over a non-empty buffer. |
| LogRing.Ring.Write | logic/src/log_ring/mod.rs:29-53 | For writes of any size, oversize and exact fills included, the ring stays the newest bytes of everything written. |
| LogRing.Ring.CopyIn | logic/src/log_ring/mod.rs:38-52 | At most a bufferful copied in, with or without running over the end, makes the contents the newest bytes of contents and line. |
| LogRing.CopyKeepsNewest | logic/src/log_ring/mod.rs:38-52 | Whichever way a copy goes (inside the buffer, filling it exactly, or over its end), what is held after it is the newest bytes. |
| LogRing.Ring.Slices | logic/src/log_ring/mod.rs:55-65 | The two slices joined are the last bytes, as many as fit, of everything ever written. |
| Net.NeverOutOfStep | src/main.rs:181-271 | In every run the resource shape, the credentials on the radio and mDNS are those of the phase; no out-of-step branch is reached and mDNS is never taken twice. |
| Net.TurnKeepsStep | src/main.rs:210-218 | Every turn keeps phase and resources in step, and changes the stored credentials only to none on a reset or to the pair that just associated. |
| Net.StoredAreTheOnesInUse | src/main.rs:278-294 | On a network or fallen back from one, if resets come only from the dashboard, the credentials in use are the ones a reboot would load. |
| Net.TimersAreHistory | logic/src/net/net_supervisor.rs:112-202 | The times a phase carries are those of the poll that first missed the link, started the attempt, or of boot. |
| Net.FallsBackExactly | logic/src/net/net_supervisor.rs:183-200 | Serving falls back if and only if the link has been missing in every poll since a first miss a whole grace ago. |
| Net.ConnectingFallsBackExactly | logic/src/net/net_supervisor.rs:158-181 | Connecting since boot falls back if and only if no poll ever associated and a whole grace has passed since boot. |
| Net.AttemptFailsExactly | logic/src/net/net_supervisor.rs:121-142 | An attempt is given up if and only if nothing associated or was submitted and the budget has passed since the poll that started it. |
| Net.ResetForgets | src/net.rs:79-84 | Over every run a reset on a network ends, on its own poll, with a bare portal, nothing on the radio and nothing stored. |
| Net.AnswersExactly | logic/src/net/net_supervisor.rs:96-202 | When exactly a poll promotes, takes up submitted credentials, is forced back to the portal, starts mDNS or refreshes the scan, for which pair, and the phase that goes with it. |
| Net.PortalIsLeftAtOnce | logic/src/net/net_supervisor.rs:121-156 | Over every run the portal is left if and only if a poll associates while a pair is on the radio, on that very poll, with that pair in use and stored and dashboard and mDNS up. |
| Net.NetSupervisor.Tick | logic/src/net/net_supervisor.rs:87-94 | Replaces the phase and answers the action of the specified step, from every phase. |
| Net.Firmware.constructor | src/main.rs:181-197 | Boot selects resources that are in step with the boot phase. |
| Net.Firmware.ApplyNetAction | src/main.rs:225-313 | Carries out one action on the resources in place, or warns and leaves them. |
| Net.Firmware.Iterate | src/main.rs:210-218 | One turn of the main loop on the objects keeps them in step and reaches no warning. |

## Left out

- Saturation of `Duration`: times are unbounded, so a window that overflows is not modelled.
- Rounding of `f32`, and a non-finite pack temperature: the window comparisons do not test for one.
- Integer widths of the history's counters and of epoch seconds.
- The charge curve and the arithmetic of `Profile`: `soc` is any function and the full-rest level is `soc` of the float target less a margin.
- Derivation of the board's safety limits; booting takes them as given.
- `ProtectionLog`, event counters and all labels and display strings.
- Submission status, the mailbox and the HTTP handlers as threads of their own: a turn of the network loop sees their values as inputs, so a reset raised after a fallback is not ordered against it.
- The scan cache, DNS responder, form decoding and credential length checks.
- The LCD, HTTP, TLS, OTA, SNTP, the task watchdog and Modbus framing: the buck and the radio are small abstract registers with fallible writes.
- Pack temperature in the closed loop: the poll of this board never has one. The supervisor's own runs take any.
- SupervisorLimits.WrongIsCut: ticks that do not get as far as a check neither add to nor clear its time, as in the source.
- SupervisorRuns.FailsClosed: the sample window counts from the start of the present stretch of sourcing, because a hold may outlast it.
- ClosedLoop.VSetIsNeverLoweredLive: needs that nobody dials V_SET above the absorb target and that no disable is acknowledged without being done; LowersLiveExactly shows that both are needed.
- ClosedLoop.BeliefMatchesRegister: needs that an unacknowledged V_SET write was not done; BeliefBreaksExactly and UnheardWriteDriftsExactly say what happens to the belief and to the fault otherwise.
- SensorLoss.SensorLossIsBounded: counts from the start of the present stretch of sourcing, like FailsClosed; what a poll publishes about the supply is not in it, since it touches neither clock.
- ClosedLoop.VSetIsSafeFromPowerOn: if a V_SET write of booting may be falsely acknowledged, the two targets must be at least the read-back tolerance apart; closer ones could not be told apart at the hand-over.
- Net.StoredAreTheOnesInUse: a reset raised in a captive phase would clear the stored pair without a move, so resets are taken to come from the dashboard.
