# A verified model of the M2 cell controller

The LSST M2 cell controller switches the motor and the communication power of a mirror cell on and off,
watches voltages, currents and breakers in hardware snapshots, latches faults, and moves between system
states. Around this core it has a thread pool, a CSV reader and telemetry items. This project models that
code in Dafny and proves what it does, over all inputs and over all runs.

`dafny verify dfyconfig.toml` checks the whole project.

## How it is built

Each part of the program has two faces. Its control law is a set of functions on values, about which the
theorems are proved. The objects of the program are classes whose methods update fields, write bits and
loop as the program does; every method is proved to compute the matching function, so the theorems are
about the classes too.

| part | functions and theorems | classes |
|---|---|---|
| one power subsystem | `PowerLogic`, `PowerRuns`, `PowerGraph`, `PowerTrips`, `PassTable`, `Breakers` | `PowerSubsystem` |
| faults | `FaultStatusBits`, `FaultRecord`, `FaultMgr` | `FaultBitmap`, `FaultRecord`, `FaultMgr` |
| system states | `SystemStates` | `SystemStates` |
| the whole controller | `CellLogic`, `CellSafety`, `Requests`, `MotorOverComm`, `ConnectionLoss` | `Model` |
| simulator and closed loop | `SimLogic`, `LoopLogic`, `ClosedLoop`, `LoopRuns`, `BringUp` | `SimCore`, `FpgaLoop` |
| locks | `LockOrder` | |
| thread pool | `PoolLogic`, `PoolRuns`, `PoolSettles`, `PoolShutdown` | `ThreadPool` |
| CSV files | `CsvLogic` | `CsvFile` |
| telemetry | `TelemetryLogic` | `Telemetry` |

Seconds, volts and amperes are reals. A clock reading is a parameter of the call that makes it; time does
not go back. Port bitmaps are sequences of 8 or 32 bits, the 64-bit fault map is a set of positions.
Exceptions and error returns are outcomes.

## Where the code does not do what its comments say

Each of these is proved.

- `TURNING_OFF` is never reached and the fault for a relay stuck on is never raised: the off timer
  restarts on every pass (`PowerRuns.ActualStateGraph`).
- Power commanded on while the voltage still decays is ON at once, without ten passes and the delay. This
  happens exactly when the command finds the subsystem actually ON (`PowerRuns.OnAtOnceIff`); every other
  power-on is waited out (`PowerRuns.SequenceIsWaitedOut`). `PowerGraph.CommandDuringDecay` is a case.
- Motor power can be on without comm power: the guards look at actual states, which lag behind. The events
  that bring it about are exactly those of `MotorOverComm.MotorOverCommIff`, and clients' commands alone do
  it from the constructor (`BringUp.MotorOverCommHappens`). Only the correction in a later snapshot is sure
  (`CellSafety.DaqOnlyLowers`).
- The global fault summary does not latch: a power report drops its faults exactly when it differs from the
  last one in an enabled bit (`FaultMgr.GlobalFaultIsDroppedIff`). The power record does latch
  (`FaultRecord.SummaryIsHistory`).
- `goToASafeState` ignores a refusal and answers wrongly in an unfinished startup
  (`SystemStates.SafeAnswerIsCorrectIff`).
- `processDaq` of a subsystem answers FAULT whatever happens, and entering standby does not turn power
  off (`Model.Model.ProcessPass` and `Model.Model.EnterState`).
- Not every command sent before shutdown is sure to run (`PoolShutdown.ShutdownDrainsIff`), and a pool made
  with more threads than its maximum can lock up (`PoolSettles.SettlesIffRoom`).
- A CSV row that ends in an empty field does not survive printing and reading (`CsvLogic.RoundTripIff`),
  and a blank line ends reading without an error, an index or a row count (`CsvLogic.BlankLineIsSilent`).
- The comparison of telemetry groups is wrong exactly when only their ids differ
  (`TelemetryLogic.GroupsComparedIff`).

## Model

| member | source | states |
|---|---|---|
| `PowerRuns.RunKeepsInv` | src/LSST/control/PowerSubsystem.cpp:405-500 | over every run of commands, snapshots, passes and foreign port writes: the target is ON or OFF, a high power bit means target ON, a low reset line means target ON and actual RESET, the phase between passes is 1 or 2 |
| `PowerRuns.StepKeepsInv` | src/LSST/control/PowerSubsystem.cpp:405-500 | each single step keeps that invariant |
| `PowerRuns.ActualStateGraph` | src/LSST/control/PowerSubsystem.cpp:576-781 | in any run one step moves the actual state along at most one edge of the graph, only in a pass, OFF only on a snapshot with the power bit low and the voltage under the off level; TURNING_OFF is never reached and no relay fault is raised |
| `PowerGraph.GraphIsExact` | src/LSST/control/PowerSubsystem.cpp:576-781 | some run from the constructor changes the actual state from a to b in one pass if and only if the graph has that edge |
| `PowerGraph.EveryEdgeIsTaken` | src/LSST/control/PowerSubsystem.cpp:576-781 | each of the eight edges is taken by a run, for both subsystems |
| `PowerGraph.CommandDuringDecay` | src/LSST/control/PowerSubsystem.cpp:405-431 | a reachable case: a power-on command while the voltage decays makes the subsystem ON at once |
| `PowerRuns.OnAtOnceIff` | src/LSST/control/PowerSubsystem.cpp:405-431 | an accepted power-on command makes the subsystem ON at once if and only if it is actually ON already, that is, still decaying or on |
| `PowerRuns.SequenceIsWaitedOut` | src/LSST/control/PowerSubsystem.cpp:405-735 | in any run a subsystem that is ON as targeted was either actually ON at its latest accepted command, or has waited more than outputOnMaxDelay since it, and ten passes too unless that command fell into a breaker reset |
| `PowerRuns.BecomesOnOnlyWhenReady` | src/LSST/control/PowerSubsystem.cpp:540-735 | in any run a subsystem becomes ON only strictly later than outputOnMaxDelay after the latest accepted command, on a safe snapshot, and, unless out of a reset, with ten passes since that command |
| `PowerRuns.OnWasCommanded` | src/LSST/control/PowerSubsystem.cpp:405-431 | target ON means there was an accepted command; its time and at most the passes since it are what the state remembers |
| `PowerRuns.ResetPulseIsLongEnough` | src/LSST/control/PowerSubsystem.cpp:685-728 | once lowered the breaker reset line stays low past the pulse width, unless power is turned off or commanded on again |
| `PowerRuns.StepWritesOwnBits` | src/LSST/control/PowerSubsystem.cpp:405-451 | no step of a subsystem touches a bit of the other, the interlock bit or a spare bit |
| `PowerTrips.PassTripsIff` | src/LSST/control/PowerSubsystem.cpp:540-735 | a pass with the target ON leaves it ON if and only if voltage, current, output, breakers and timers are as StaysOn lists for its actual state |
| `PowerTrips.PassBitIff` | src/LSST/control/PowerSubsystem.cpp:480-503 | a pass never raises the power bit and leaves a high one high if and only if StaysOn |
| `PowerTrips.FaultsAreExplained` | src/LSST/control/PowerSubsystem.cpp:505-735 | the over-current fault is raised only over the current limit, the voltage fault only over the upper or under the lower voltage limit |
| `PowerTrips.PassRaises` | src/LSST/control/PowerSubsystem.cpp:480-781 | a pass adds exactly the faults that Raised lists one by one with their causes, none when the subsystem is to be off |
| `PassTable.ActualWhenOn` | src/LSST/control/PowerSubsystem.cpp:576-735 | the actual state after a pass with the target ON, for every snapshot: which passes go to TURNING_ON, ON and RESET, and that no other changes it |
| `PassTable.ActualWhenOff` | src/LSST/control/PowerSubsystem.cpp:737-781 | a pass with the target OFF becomes OFF exactly with the relay open and the voltage under the off level; it raises nothing, and its off timer restarts every time |
| `PassTable.StayingOn` | src/LSST/control/PowerSubsystem.cpp:576-728 | a pass that leaves the target ON: phase, timers, count of passes and breaker line, which goes low exactly on entering a reset and high exactly once its pulse is over |
| `PassTable.GoingOff` | src/LSST/control/PowerSubsystem.cpp:433-451 | a pass that does not leaves the power bit low, the breaker line high and the off timers started |
| `PassTable.UnreachedCases` | src/LSST/control/PowerSubsystem.cpp:646-781 | the branches for states no run reaches: the relay faults of turning off for too long, the third phase of turning on, a target neither ON nor OFF |
| `PassTable.PassSettles` | src/LSST/control/PowerSubsystem.cpp:591-618 | any pass that leaves an ON subsystem ON has it settled, in phase 2 |
| `PassTable.LowVoltageTrips` | src/LSST/control/PowerSubsystem.cpp:578-623 | in any run, of two passes that find a subsystem ON with nothing between that turns it off or commands it, the second turns it off when under the lower voltage limit, with the voltage fault unless the output is seen off, the current too high or a feed lost |
| `PassTable.ReadingsAre` | src/LSST/control/PowerSubsystem.cpp:305-377 | what a snapshot shows of a subsystem, by the bits of the two ports and its voltage and current |
| `PassTable.LostOutputTrips` | src/LSST/control/PowerSubsystem.cpp:366-377 | a subsystem that is on or resetting and is not shown on is turned off; the interlock fault is raised exactly when it should be on and the interlock relay is shown open |
| `PassTable.LimitsAre` | src/LSST/control/PowerSubsystem.cpp:136-290 | warning at 5 % and fault at 10 % off 24 V, breakers from 19 V, off under 12 V, currents and delays of each subsystem |
| `PassTable.FaultsOf` | src/LSST/faultmgr/FaultStatusBits.cpp:231-267 | the fault bits of each subsystem, and exactly which block it |
| `Breakers.BreakersAre` | src/LSST/control/PowerSubsystem.cpp:55-101 | by the bits of the input port: good if and only if all breakers are closed, a fault if and only if some feed has lost two, of comm both, and otherwise a warning |
| `Breakers.LostFeedTrips` | src/LSST/control/PowerSubsystem.cpp:505-532 | an ON subsystem at operating voltage within its limits: a lost feed turns it off with its breaker fault, another open breaker only warns, none raises neither |
| `PowerSubsystem.FpgaIo.WriteOutputPortBitPos` | src/LSST/control/FpgaIo.cpp:86-90 | the port changes in that bit alone |
| `PowerSubsystem.FpgaIo.EmergencyTurnOffAllPower` | src/LSST/control/FpgaIo.cpp:108-113 | lowers the two power bits and no other |
| `PowerSubsystem.PowerSubsystem.constructor` | src/LSST/control/PowerSubsystem.cpp:292-296 | a new subsystem has its power turned off |
| `PowerSubsystem.PowerSubsystem.SetPowerOff` | src/LSST/control/PowerSubsystem.cpp:433-451 | new state and port are those of TurnedOff; timers restart only when the target was not OFF |
| `PowerSubsystem.PowerSubsystem.SetPowerOn` | src/LSST/control/PowerSubsystem.cpp:398-431 | new state, port and answer are those of PowerOnTried: refused, and turned off, when blocked or without the interlock |
| `PowerSubsystem.PowerSubsystem.CheckForFaults` | src/LSST/control/PowerSubsystem.cpp:783-790 | finds a fault exactly when one in the subsystem mask other than the breaker fault is current or latched, or the connection is lost |
| `PowerSubsystem.PowerSubsystem.PowerShouldBeOn` | src/LSST/control/PowerSubsystem.cpp:366-377 | on exactly with relay, cRIO and interlock on; an open interlock alone adds the interlock fault |
| `PowerSubsystem.PowerSubsystem.UpdateFaults` | src/LSST/control/PowerSubsystem.cpp:534-538 | adds the voltage and hardware fault and turns off |
| `PowerSubsystem.PowerSubsystem.CheckForPowerOnBreakerFault` | src/LSST/control/PowerSubsystem.cpp:505-532 | state, port, faults and answer are those of BreakersChecked, with the breaker status that Breakers.BreakersAre describes by input bits |
| `PowerSubsystem.PowerSubsystem.ProcessWhileOn` | src/LSST/control/PowerSubsystem.cpp:578-623 | the pass of an ON subsystem is OnPass, which PassTable and PowerTrips describe part by part |
| `PowerSubsystem.PowerSubsystem.ProcessTurningOn` | src/LSST/control/PowerSubsystem.cpp:624-695 | the pass of a subsystem turning on is TurningOnPass, with the time in phase read before the tenth pass restarts it |
| `PowerSubsystem.PowerSubsystem.ProcessReset` | src/LSST/control/PowerSubsystem.cpp:696-728 | the pass of a breaker reset is ResetPass |
| `PowerSubsystem.PowerSubsystem.ProcessPowerOn` | src/LSST/control/PowerSubsystem.cpp:540-735 | the whole pass with target ON is PowerOnPass |
| `PowerSubsystem.PowerSubsystem.ProcessPowerOff` | src/LSST/control/PowerSubsystem.cpp:737-781 | the whole pass with target OFF is PowerOffPass |
| `PowerSubsystem.PowerSubsystem.TakeSnapshot` | src/LSST/control/PowerSubsystem.cpp:460-477 | keeps the snapshot, turns off on a blocking fault, and asks for a report exactly when a state changed since it was last noted |
| `PowerSubsystem.PowerSubsystem.ProcessPass` | src/LSST/control/PowerSubsystem.cpp:480-503 | the locked part is Pass, and the status is FAULT whatever happened |
| `FaultRecord.SummaryIsHistory` | src/LSST/faultmgr/BasicFaultMgr.cpp:75-102 | from an empty record over any history of reports, enables and resets: a fault bit is in the summary if and only if it was reported since its last reset, although updates are skipped when nothing enabled changed |
| `FaultRecord.HistoryStep` | src/LSST/faultmgr/BasicFaultMgr.cpp:75-102 | how one event changes "reported since the last reset" |
| `FaultRecord.StepOnBit` | src/LSST/faultmgr/BasicFaultMgr.cpp:75-102 | one report, reset or enable changes one summary bit exactly as the plain history says, skipped or not |
| `FaultRecord.GlobalStatusForgets` | src/LSST/faultmgr/BasicFaultMgr.cpp:104-127 | with the masks the power manager really has, a status update keeps no bit of the global summary: only a new voltage warning comes out |
| `FaultRecord.FaultStatusIs` | src/LSST/faultmgr/BasicFaultMgr.cpp:104-127 | whatever the masks, which bits a status update gives out and which it calls changed, bit by bit |
| `FaultMgr.PowerReportClearsGlobalSummary` | src/LSST/faultmgr/FaultMgr.cpp:133-203 | after a power report that differs from the last one kept in an enabled bit, the global summary holds exactly the voltage warnings that are current and were not in it before |
| `FaultMgr.GlobalFaultIsDroppedIff` | src/LSST/faultmgr/FaultMgr.cpp:133-203 | a power report drops a fault held by the global summary if and only if it differs from the last one kept in an enabled bit, whatever the fault |
| `FaultMgr.LostConnectionIsForgotten` | src/LSST/faultmgr/FaultMgr.cpp:96-203 | from the constructor: a lost connection is in the global summary until any power fault is reported |
| `FaultMgr.ConnectionsAre` | src/LSST/faultmgr/FaultMgr.cpp:96-113 | no connection: the global summary keeps its faults and has the lost connection, the power record is not touched; one or more: the lost connection is out of all three records and nothing else is |
| `FaultMgr.ResetAndEnableAre` | src/LSST/faultmgr/FaultMgr.cpp:73-94 | a reset takes exactly its mask out of all three summaries; an enable adds exactly its mask to all three |
| `FaultMgr.ReportLatches` | src/LSST/faultmgr/FaultMgr.cpp:133-147 | a reported fault stays in the power summary and blocks every mask that holds it |
| `FaultMgr.BlockedIff` | src/LSST/faultmgr/FaultMgr.cpp:205-225 | a subsystem is blocked exactly by the lost connection or an enabled fault of its mask that is current or latched in the power record |
| `FaultMgr.PowerReportIs` | src/LSST/faultmgr/FaultMgr.cpp:133-203 | every field of the records after a power report, fault by fault |
| `FaultMgr.EventsKeepValid` | src/LSST/faultmgr/FaultMgr.cpp:73-113 | updates, resets, enables and connection reports keep the key invariant: the last report kept is inside the summary |
| `FaultRecord.BasicFaultMgr.UpdateFaults` | src/LSST/faultmgr/BasicFaultMgr.cpp:75-92 | the new record and the answer are those of Updated |
| `FaultRecord.BasicFaultMgr.ResetFaults` | src/LSST/faultmgr/BasicFaultMgr.cpp:94-102 | the new record is Reset |
| `FaultRecord.BasicFaultMgr.MergeFaults` | src/LSST/faultmgr/BasicFaultMgr.cpp:129-144 | the summary grows by exactly the enabled bits that are new, and these are returned |
| `FaultRecord.BasicFaultMgr.SetMaskComm` | src/LSST/faultmgr/BasicFaultMgr.cpp:152-168 | the new record is CommMasked |
| `FaultRecord.BasicFaultMgr.EnableFaultsInMask` | src/LSST/faultmgr/BasicFaultMgr.cpp:170-177 | enables the mask and returns the bits that were not enabled before |
| `FaultRecord.BasicFaultMgr.Power` | src/LSST/faultmgr/BasicFaultMgr.cpp:191-198 | the power manager starts with the warning mask as its affected faults: the second assignment overwrites the first |
| `FaultMgr.FaultMgr.UpdatePowerFaults` | src/LSST/faultmgr/FaultMgr.cpp:133-203 | the new records and the call to safe mode are those of PowerUpdated |
| `FaultMgr.FaultMgr.ReportComConnectionCount` | src/LSST/faultmgr/FaultMgr.cpp:96-113 | the new records are ConnectionsReported; safe mode is asked for exactly with no connection |
| `FaultMgr.FaultMgr.ResetFaults` | src/LSST/faultmgr/FaultMgr.cpp:73-94 | all three records are reset |
| `FaultMgr.FaultMgr.EnableFaultsInMask` | src/LSST/faultmgr/FaultMgr.cpp:249-264 | all three records are enabled; the answer is what the global record gained |
| `FaultMgr.FaultMgr.CheckForPowerSubsystemFaults` | src/LSST/faultmgr/FaultMgr.cpp:205-225 | the answer is Blocked |
| `FaultBitmap.Bitmap.SetBit` | src/LSST/faultmgr/FaultStatusBits.cpp:68-79 | exactly that bit changes; a position outside the map is an error and changes nothing |
| `FaultBitmap.Bitmap.GetBit` | src/LSST/faultmgr/FaultStatusBits.cpp:111-118 | a bit inside the map, 0 outside |
| `FaultBitmap.Masks.GetMaskFaults` | src/LSST/faultmgr/FaultStatusBits.cpp:161-186 | whichever masks were built before, the fault mask is the same, and is kept |
| `FaultBitmap.Masks.GetMaskTelemetryOnlyControl` | src/LSST/faultmgr/FaultStatusBits.cpp:138-159 | likewise the telemetry-only mask |
| `FaultBitmap.Masks.GetMaskOpenLoopControl` | src/LSST/faultmgr/FaultStatusBits.cpp:120-136 | likewise the open-loop mask |
| `FaultBitmap.MasksPartition` | src/LSST/faultmgr/FaultStatusBits.cpp:161-229 | every used position is in exactly one of the fault, warning and information masks |
| `FaultBitmap.SubsystemMasksAreFaults` | src/LSST/faultmgr/FaultStatusBits.cpp:231-267 | what trips or blocks a subsystem are faults; the subsystems share the relay fault alone |
| `SystemStates.ChangeAnswersCorrectly` | src/LSST/state/StateMap.cpp:59-163 | changeState answers true if and only if the requested state is current afterwards |
| `SystemStates.EnteredFrom` | src/LSST/state/StateMap.cpp:92-163 | by the state asked for: from where it can be entered, with the hold of an unfinished startup |
| `SystemStates.SafeAnswerIsCorrectIff` | src/LSST/state/StateMap.cpp:183-197 | goToASafeState answers correctly if and only if it is not asked for standby, offline or startup during an unfinished startup |
| `SystemStates.SafeStateIsReached` | src/LSST/state/StateMap.cpp:183-197 | goToASafeState ends in a safe state except in an unfinished startup, and never leaves offline |
| `SystemStates.StartupUntilFinished` | src/LSST/state/StateMap.cpp:92-163 | in every run startup is not left before setup finishes |
| `SystemStates.StartupIsNotReentered` | src/LSST/state/StateMap.cpp:92-163 | in every run startup is never entered again |
| `SystemStates.IdleBeforeMotion` | src/LSST/state/StateMap.cpp:92-163 | in every run motion and pause are reached through idle |
| `SystemStates.StateMap.IsASafeState` | src/LSST/state/StateMap.cpp:174-181 | the loop finds exactly standby and offline |
| `SystemStates.StateMap.ChangeToMember` | src/LSST/state/StateMap.cpp:92-163 | the new current state and the answer are StateAfter and Enters |
| `SystemStates.StateMap.ChangeState` | src/LSST/state/StateMap.cpp:72-90 | a null pointer or one to a state outside the map changes nothing |
| `SystemStates.StateMap.GoToASafeState` | src/LSST/state/StateMap.cpp:183-197 | the new current state and the answer are those of SafeTarget and SafeAnswer |
| `CellSafety.RunIsSound` | src/LSST/state/Model.cpp:87-168 | every reachable controller, over every run of commands, snapshots, time-outs, connection reports, resets, state changes and emergencies, is sound: both subsystem invariants and the fault invariant hold |
| `CellSafety.NextKeeps` | src/LSST/state/Model.cpp:87-168 | one event: soundness is kept, off is ended only by an accepted power-on, none is accepted while blocked, a latch is lost only to a reset that covers it |
| `CellSafety.ReportAgrees` | src/LSST/state/Model.cpp:114-168 | after every completed power report: offline and startup have both targets OFF, idle, motion and pause have all four states ON, standby has not; a report that finds agreement changes nothing |
| `CellSafety.DaqOnlyLowers` | src/LSST/control/PowerSystem.cpp:155-184 | DAQ processing never raises a target or a power bit; motor power without comm power ends with the motor off; an over-limit snapshot ends with that subsystem off and its fault latched |
| `CellSafety.OverLimitIsRaised` | src/LSST/control/PowerSubsystem.cpp:549-574 | a subsystem that should be on and is over its limits raises its voltage or over-current fault |
| `CellSafety.OffUntilCarriedOut` | src/LSST/control/PowerSubsystem.cpp:405-451 | off stays off over every run until a power-on request is carried out |
| `CellSafety.LatchedStaysOff` | src/LSST/faultmgr/FaultMgr.cpp:133-147 | while a fault of its mask is latched an off subsystem stays off and every request is refused, until a reset that covers the fault |
| `CellSafety.TripStaysOff` | src/LSST/control/PowerSubsystem.cpp:540-574 | a voltage or over-current trip keeps the subsystem off over every later run until a reset that covers the fault it raised |
| `CellSafety.MotorWithoutCommStaysOff` | src/LSST/control/PowerSystem.cpp:164-171 | after a snapshot with motor power but no comm power the motor stays off until a motor power-on is carried out |
| `CellSafety.DisconnectedStaysOff` | src/LSST/faultmgr/FaultMgr.cpp:96-113 | after a report of no connections everything stays off and every request is refused until a report of at least one |
| `Requests.CommandIs` | src/LSST/control/PowerSystem.cpp:127-153 | a power command does something in standby and idle alone; off is always carried out, for comm with a motor that is not actually off; on exactly when no fault blocks, the interlock is enabled and, for the motor, comm is actually on |
| `Requests.OffAfterCommand` | src/LSST/control/PowerSystem.cpp:127-153 | in any run a subsystem commanded off stays off until a request for it is carried out |
| `Requests.TurnOffIs` | src/LSST/control/PowerSubsystem.cpp:433-451 | turning off: target, bits, timers, and nothing of the other subsystem |
| `Requests.TryOnIs` | src/LSST/control/PowerSubsystem.cpp:398-431 | a request to turn on: exactly when it is carried out, and the sequence it starts |
| `Requests.OthersAre` | src/LSST/control/FpgaIo.cpp:86-113 | setting up, the interlock bit and the emergency write change just that; resets and enables just the fault records |
| `Requests.ResetUnblocks` | src/LSST/faultmgr/FaultMgr.cpp:73-94 | a reset that covers the three faults of a subsystem unblocks it while connected: only a missing interlock then refuses a request |
| `Requests.SafeModeIs` | src/LSST/state/Model.cpp:87-97 | safe mode: everything off, offline kept, an unfinished startup kept, standby otherwise |
| `Requests.GoesSafe` | src/LSST/state/Model.cpp:87-97 | as an event: safe mode and the loss of the last connection end in that state with everything off |
| `Requests.ReportedFaults` | src/LSST/faultmgr/FaultMgr.cpp:133-203 | a power report goes safe exactly when it differs from the last one in an enabled bit and holds a supply fault; otherwise only the records change |
| `Requests.SafeAfter` | src/LSST/state/Model.cpp:87-97 | the same in every run |
| `Requests.ChangeIs` | src/LSST/state/Model.cpp:62-65 | a change to offline or startup that is made cuts all power, one to another state touches none, a refused one changes nothing |
| `Requests.ReportIs` | src/LSST/state/Model.cpp:114-168 | a power report state by state: offline and startup end with both targets off, standby becomes idle exactly with everything on, the others standby without |
| `Requests.SnapshotReports` | src/LSST/control/PowerSubsystem.cpp:460-478 | a snapshot reports whenever target or actual state differ from what was noted, after which state and power agree; otherwise the system state is kept |
| `Requests.UncoveredMotorTrips` | src/LSST/control/PowerSystem.cpp:164-171 | a snapshot with the power bit of the motor high and that of comm low ends with the motor off |
| `Requests.RestsWhileDisconnected` | src/LSST/faultmgr/FaultMgr.cpp:96-113 | in any run, from the loss of the last connection until one is reported the state stays offline, startup or standby unless a change is requested |
| `Requests.OffUntilConnected` | src/LSST/faultmgr/FaultMgr.cpp:96-113 | in any run everything is off and every request refused until a connection is reported |
| `Requests.HealthIs` | src/LSST/control/PowerSystem.cpp:196-234 | bit by bit from the six supply inputs: the load share fault, the health fault, and no other |
| `Requests.SupplyFaultTrips` | src/LSST/control/PowerSystem.cpp:155-184 | a snapshot with a supply fault latches it; when the last report kept did not have it everything ends off in the safe state |
| `Requests.SupplyFaultTripsInRun` | src/LSST/control/PowerSystem.cpp:155-184 | the same in every run |
| `MotorOverComm.MotorOverCommIff` | src/LSST/control/PowerSystem.cpp:127-184 | for every event in a sound state with comm under the motor: the motor bit ends high over a low comm bit if and only if the event is a motor power-on accepted while comm is only actually ON, one given directly over a low comm bit, a comm power-off while the motor is actually OFF or given directly, a refused comm power-on under a high motor bit, or a snapshot that trips comm and not the motor |
| `MotorOverComm.DaqBits` | src/LSST/control/PowerSystem.cpp:155-184 | the snapshot case, by what can be looked up before it: exactly which fault records, inputs, voltages, currents and timers let the motor last through all checks, reports and passes while comm goes; with an unhealthy supply that was reported before, no pass may raise an enabled fault more |
| `MotorOverComm.CommUnderMotorIff` | src/LSST/control/PowerSystem.cpp:127-184 | a whole run keeps comm power under motor power if and only if none of its events is one of those |
| `BringUp.MotorOverCommHappens` | src/LSST/control/PowerSystem.cpp:127-153 | both power commands do it in runs from the constructor: motor on over comm that was turned off, and comm off under a motor that was just turned on |
| `BringUp.TwoWays` | src/LSST/control/PowerSystem.cpp:127-153 | from any loop with comm up and the motor off, at any time |
| `ConnectionLoss.OffAfterReport` | src/LSST/faultmgr/FaultMgr.cpp:96-113 | with threads interleaved at the subsystem locks, and the connection flag and the power record read one after the other: once a report of no connections completes, and until one of at least one, both targets are OFF and both bits low, even if a power-on passed its fault check first |
| `ConnectionLoss.StepKeepsInv` | src/LSST/control/PowerSubsystem.cpp:398-451 | each lock operation keeps: a subsystem turned off by the reporter stays off, and nobody inside its lock is about to turn it on |
| `Model.Model.constructor` | src/LSST/state/Model.cpp:44-50 | a new model is the initial controller of the safety theorems |
| `Model.Model.TurnPowerOff` | src/LSST/state/Model.cpp:99-112 | turns off motor, then comm |
| `Model.Model.ChangeState` | src/LSST/state/Model.cpp:62-65 | state and power are those of CellLogic.ChangeState; accepted if and only if the state is current afterwards |
| `Model.Model.EnterState` | src/LSST/state/State.cpp:66-73 | entering offline or startup turns all power off; the other states leave it alone |
| `Model.Model.GoToSafeMode` | src/LSST/state/Model.cpp:87-97 | power off and a safe state, as CellLogic.GoToSafeMode, which Requests.SafeModeIs describes; the answer is false only when offline |
| `Model.Model.ReportPowerSystemStateChange` | src/LSST/state/Model.cpp:114-168 | the whole effect is Report |
| `Model.Model.UpdatePowerFaults` | src/LSST/faultmgr/FaultMgr.cpp:133-203 | with the call back into the model, the whole effect is UpdateFaults |
| `Model.Model.ReportComConnectionCount` | src/LSST/faultmgr/FaultMgr.cpp:96-113 | with the call back into the model, the whole effect is ConnectionsReported |
| `Model.Model.PowerMotor` | src/LSST/control/PowerSystem.cpp:127-140 | effect and answer are CellLogic.PowerMotor, described with PowerComm by Requests.CommandIs |
| `Model.Model.PowerComm` | src/LSST/control/PowerSystem.cpp:142-153 | effect and answer are CellLogic.PowerComm |
| `Model.Model.CmdPower` | src/LSST/state/State.cpp:85-103 | only standby and idle carry a power command out |
| `Model.Model.ProcessDaqHealthTelemetry` | src/LSST/control/PowerSystem.cpp:196-234 | the faults are HealthFaults, described bit by bit by Requests.HealthIs |
| `Model.Model.TakeSnapshot` | src/LSST/control/PowerSubsystem.cpp:460-478 | snapshot, fault check and report of one subsystem are SubsystemSnapshot |
| `Model.Model.ProcessDaq` | src/LSST/control/PowerSystem.cpp:155-184 | the whole effect is CellLogic.ProcessDaq: health, motor check, motor, comm, report, in this order |
| `Model.Model.CheckTimeout` | src/LSST/control/PowerSystem.cpp:114-125 | a time-out turns both off and reports the time-out fault |
| `Model.Model.DaqInfoRead` | src/LSST/control/PowerSystem.cpp:75-94 | the time of the read is kept; time-out check and processing of the snapshot held are DaqRead |
| `Model.Model.DaqTimeoutCheck` | src/LSST/control/PowerSystem.cpp:96-112 | power off and the snapshot held processed exactly when the last read is longer ago than the time-out |
| `Model.Model.Handle` | src/LSST/state/Model.cpp:44-168 | one call of any kind on the objects is one event of the safety theorems |
| `Model.Model.HandleAll` | src/LSST/state/Model.cpp:87-168 | any calls in any order on the objects: they stay sound, and a subsystem that was off with a fault of its mask latched is off with it latched at the end unless a reset covers the fault |
| `SimLogic.SimStaysWithinBounds` | src/LSST/simulator/SimPowerSubsystem.cpp:83-164 | one iteration, whatever the controller writes, keeps the voltage of an unforced simulator in [0, nominal] and its current at most 0.75 of the maximum; LoopRuns carries this over runs |
| `SimLogic.RatesFromConfig` | src/LSST/simulator/SimPowerSubsystem.cpp:56-81 | the rates used are the ones the setup derives from the configuration |
| `SimLogic.BreakersMove` | src/LSST/simulator/SimPowerSubsystem.cpp:83-127 | a low line opens the simulated breaker at once; a high one closes it when it has been high for more than half the breaker time; exactly its input bits follow |
| `SimLogic.VoltageMoves` | src/LSST/simulator/SimPowerSubsystem.cpp:129-164 | unforced: voltage up at its rate to nominal with power, down to zero without, current in proportion while the breaker is closed |
| `SimLogic.ForcedMoves` | src/LSST/simulator/SimPowerSubsystem.cpp:129-164 | with the force switches on: ten times the voltage and ten times the current |
| `SimLogic.IterationShows` | src/LSST/simulator/SimCore.cpp:81-120 | one iteration moves each subsystem by its own power bit and shows all of it in the new snapshot |
| `SimCore.SimPowerSubsystem.CalcBreakers` | src/LSST/simulator/SimPowerSubsystem.cpp:83-127 | breaker and input bits are BreakersCalculated |
| `SimCore.SimPowerSubsystem.WriteBreakerBits` | src/LSST/simulator/SimPowerSubsystem.cpp:115-126 | the loop writes every breaker bit of the input port and no other |
| `SimCore.SimPowerSubsystem.CalcVoltageCurrent` | src/LSST/simulator/SimPowerSubsystem.cpp:129-164 | the clamped updates are VoltageCalculated |
| `SimCore.SimCore.SimRunOnce` | src/LSST/simulator/SimCore.cpp:81-120 | one round of the loop, on shared ports, is Iterated |
| `LoopRuns.NeverOverLimit` | src/LSST/simulator/SimPowerSubsystem.cpp:129-164 | controller and unforced simulator from their constructors, any commands, reports, resets, rounds, queued reads, time-out checks and times: once a round fetched a snapshot of the simulator, no snapshot that a read or a late check processes is over a limit, no over-current fault is gathered, and a voltage fault only from a voltage under the lower limit |
| `LoopRuns.GatheredIsLow` | src/LSST/control/PowerSystem.cpp:155-184 | a snapshot within the bounds gathers no over-current fault in either pass, and a voltage fault only for a low voltage |
| `LoopRuns.TimeOutTurnsOff` | src/LSST/control/PowerSystem.cpp:75-125 | in these runs a time-out check more than 1.5 s after the last read, and a read of a snapshot more than 1.5 s old, leave both targets OFF, both power bits low and the time-out fault latched |
| `FpgaLoop.ReadWriteOnce` | src/LSST/control/FpgaIo.cpp:115-140 | the port goes out and the latest snapshot comes in; without a power system both power bits are low first |
| `FpgaLoop.Round` | src/LSST/control/FpgaIo.cpp:115-140 | a round of the loop is the step Exchange, which queues a read |
| `FpgaLoop.QueuedRead` | src/LSST/control/PowerSystem.cpp:75-94 | a queued read carried out by the event thread is the step Read |
| `FpgaLoop.QueuedCheck` | src/LSST/control/PowerSystem.cpp:96-112 | a queued time-out check carried out is the step Check |
| `ClosedLoop.PowerComesUpAndStays` | src/LSST/control/PowerSubsystem.cpp:540-735 | closed loop of rounds, reads, time-out checks and iterations in any order of times, no latched fault, interlock on, snapshots read at most 0.1 s old until up, no check late: power-on is accepted, the subsystem is turning on from the first read and ON exactly from the read that its ten passes and outputOnMaxDelay give (UpAfter), and it stays ON with its bit high, the other subsystem undisturbed and nothing blocked |
| `ClosedLoop.CommandIsAccepted` | src/LSST/control/PowerSystem.cpp:127-153 | from a quiet loop with no read queued the command is accepted and leaves the subsystem commanded |
| `ClosedLoop.ReadAdvances` | src/LSST/control/PowerSystem.cpp:75-94 | a queued read moves both subsystems to their next modes |
| `ClosedLoop.RoundKeeps` | src/LSST/control/FpgaIo.cpp:115-140 | one event of the loop: a read advances the modes, rounds, iterations and checks that are not late keep them |
| `ClosedLoop.DaqAdvances` | src/LSST/control/PowerSystem.cpp:155-184 | one snapshot advances both subsystems, writes nothing and blocks nothing |
| `ClosedLoop.RunModes` | src/LSST/control/PowerSubsystem.cpp:540-735 | in every stage of a run without a late check the subsystems are in the modes that the times of the reads give |
| `LoopLogic.NothingIsLate` | src/LSST/control/PowerSystem.cpp:96-112 | when every read of a run comes within the time-out of the one before, a time-out check at any moment of it does nothing |
| `LoopLogic.InTimeIsEnough` | src/LSST/control/PowerSystem.cpp:96-112 | so such a run has no late check, which is all that the theorems on power coming up ask |
| `BringUp.StaysOnIff` | src/LSST/control/PowerSystem.cpp:96-125 | from a reached loop: the commanded subsystem has target ON and its bit high if and only if no time-out check so far came more than the time-out after the last read |
| `BringUp.QuietIsReached` | src/LSST/simulator/SimCore.cpp:36-120 | every constructed controller and simulator has a run to the quiet loop the theorem starts from: connect, set up, standby, interlock, an iteration, a round, its read, an iteration |
| `BringUp.CommUpIsReached` | src/LSST/control/PowerSystem.cpp:142-153 | and a run on to the loop with comm up, from which the motor can be commanded |
| `BringUp.PowerBringsIdle` | src/LSST/state/Model.cpp:114-168 | for every schedule without a late check: comm commanded on and run until one read after it is up, motor commanded on and likewise; both are accepted, all four states are ON and the system is idle |
| `BringUp.IdleIsReached` | src/LSST/state/Model.cpp:44-168 | every constructed controller and simulator has a run to idle with everything ON |
| `LockOrder.NeverTrips` | src/LSST/util/VMutex.h:35-42 | however many threads make the calls and however they interleave, none locks a mutex it holds or trips a VMUTEX check |
| `LockOrder.NoWaitCycle` | src/LSST/state/Model.cpp:87-168 | no threads wait for each other in a circle |
| `LockOrder.SomeoneCanGoOn` | src/LSST/control/PowerSubsystem.cpp:398-500 | while a call is unfinished some thread can go on |
| `LockOrder.EntryKeeps` | src/LSST/control/PowerSubsystem.cpp:383-500 | every call takes its locks in increasing rank, passes its checks and gives back what it takes |
| `PoolRuns.RunKeeps` | src/LSST/util/ThreadPool.cpp:62-101 | over every run: each message taken was taken once by one thread and is either finished once or still run by that thread; each thread is in the pool or was handed to the joiner once; a wrong size always has its correction on the way; the pool keeps within its maximum |
| `PoolRuns.StepKeeps` | src/LSST/util/ThreadPool.cpp:160-233 | each step of the pool keeps that invariant |
| `PoolRuns.DequeueKeeps` | src/LSST/util/EventThread.h:78-99 | the k-th dequeue takes the k-th message queued |
| `PoolRuns.FinishKeeps` | src/LSST/util/EventThread.cpp:47-73 | a message is reported finished by the thread that took it, and was not before |
| `PoolRuns.ReleasedKeeps` | src/LSST/util/ThreadPool.cpp:160-180 | a released thread is out of the pool and with the joiner, and a size check is to come |
| `PoolRuns.ResizedKeeps` | src/LSST/util/ThreadPool.cpp:207-233 | after a size check the pool is at its target, or above it with an end message queued |
| `PoolRuns.HistoryOnlyGrows` | src/LSST/util/EventThread.cpp:98-124 | who took, finished, was handed over and joined never changes afterwards |
| `PoolRuns.SubmittedIsLast` | src/LSST/util/EventThread.h:78-84 | a command goes behind all others whenever it comes, also after shutdown |
| `PoolRuns.NewTarget` | src/LSST/util/ThreadPool.cpp:183-205 | a new target raises the maximum only where no room would be left, to one more than it; after shutdown it is zero |
| `PoolRuns.LeaveWaits` | src/LSST/util/ThreadPool.cpp:62-90 | a command that wants to leave the pool goes on exactly while no more threads than the maximum are not joined yet, those that left before included |
| `PoolSettles.PoolAlwaysSettles` | src/LSST/util/ThreadPool.cpp:160-233 | from any moment of any run the pool alone makes at most Work steps, and where it stops it holds exactly its target, all its threads idle, nothing unfinished, every other thread joined |
| `PoolSettles.StepWorks` | src/LSST/util/ThreadPool.cpp:160-233 | every step uses up work: surplus end messages are paid for by the shrinking they cause |
| `PoolSettles.StuckIsSettled` | src/LSST/util/ThreadPool.cpp:207-243 | a pool with room that cannot move has settled |
| `PoolSettles.SettlesIffRoom` | src/LSST/util/ThreadPool.cpp:260-268 | every stop is a settled one if and only if the pool was made with no more threads than may exist; otherwise commands that want to leave wait for ever |
| `PoolShutdown.ShutdownDrainsIff` | src/LSST/util/ThreadPool.cpp:152-158 | every run of a shutdown completes every command queued before and joins every thread if and only if the pool has more threads than can be lost before the last command is taken |
| `PoolShutdown.EnoughDrains` | src/LSST/util/ThreadPool.cpp:152-180 | with enough threads no schedule, later submission or resize keeps an earlier command from running |
| `PoolShutdown.RunsDry` | src/LSST/util/ThreadPool.cpp:62-101 | with too few threads there is a schedule that returns from shutdown with a command never taken |
| `PoolShutdown.AllFinished` | src/LSST/util/ThreadPool.cpp:152-158 | when shutdown returns every message taken is finished and every thread has ended and was joined |
| `PoolShutdown.QuietPoolHasEnough` | src/LSST/util/ThreadPool.h:124-135 | a pool with a thread, no end message pending and no leaving command has enough threads |
| `PoolShutdown.HeaderPromiseFails` | src/LSST/util/ThreadPool.h:124-135 | the unconditional promise fails for one thread that leaves with a command queued behind it |
| `ThreadPool.CommandQueue.QueCmd` | src/LSST/util/EventThread.h:78-84 | the message goes to the back of the queue |
| `ThreadPool.CommandQueue.GetCmd` | src/LSST/util/EventThread.h:88-99 | the message comes from the front of the queue, none from an empty one |
| `ThreadPool.EventThreadJoiner.AddThread` | src/LSST/util/EventThread.cpp:119-124 | the thread joins the end of the list and is counted |
| `ThreadPool.EventThreadJoiner.JoinFront` | src/LSST/util/EventThread.cpp:98-117 | threads are joined in the order they were handed over |
| `ThreadPool.ThreadPool.constructor` | src/LSST/util/ThreadPool.cpp:120-143 | a pool with a maximum |
| `ThreadPool.ThreadPool.Fixed` | src/LSST/util/ThreadPool.cpp:127-143 | a pool with a maximum of one more than its size |
| `ThreadPool.ThreadPool.AdjustSize` | src/LSST/util/ThreadPool.cpp:207-233 | the loop grows the pool to its target, or one end message is queued: Resized |
| `ThreadPool.ThreadPool.EraseAndHand` | src/LSST/util/ThreadPool.cpp:160-176 | find, erase and hand over are Released; found exactly when the thread was in the pool |
| `ThreadPool.ThreadPool.Release` | src/LSST/util/ThreadPool.cpp:160-180 | release is the two steps Release and Resize for a thread in the pool, and ends without a size check for one that is not; under the invariant it always finds its thread |
| `ThreadPool.ThreadPool.LeavePool` | src/LSST/util/ThreadPool.cpp:62-90 | leaving is the two steps Leave and Resize and keeps the invariant |
| `ThreadPool.ThreadPool.Resize` | src/LSST/util/ThreadPool.cpp:183-205 | a target at or over the maximum raises the maximum; after shutdown the target is 0 |
| `ThreadPool.ThreadPool.StartShutdown` | src/LSST/util/ThreadPool.cpp:152-156 | shutdown up to its wait |
| `ThreadPool.ThreadPool.TakeCommand` | src/LSST/util/EventThread.cpp:47-60 | taking a message is the step Dequeue |
| `ThreadPool.ThreadPool.FinishCommand` | src/LSST/util/EventThread.cpp:54-74 | the return of a command is the step Return, reported finished only if it was not before |
| `ThreadPool.ThreadPool.JoinOne` | src/LSST/util/EventThread.cpp:98-117 | joining the next thread is the step Join |
| `ThreadPool.FindThread` | src/LSST/util/ThreadPool.cpp:162-170 | the search finds the first place of the thread or none |
| `CsvLogic.RoundTripIff` | src/LSST/util/CsvFile.cpp:40-124 | reading back what dumpStr prints gives the same header and rows if and only if names are distinct, fields are free of commas and line ends, last fields are not empty, and rows have a field and are as wide as the header; the counts and the index then are right too |
| `CsvLogic.BlankLineIsSilent` | src/LSST/util/CsvFile.cpp:65-113 | whatever follows it, a blank line ends reading without an error: the rows before it are kept but not counted, no column can be looked up, and repeated names go unnoticed |
| `CsvLogic.ShortRowIsReported` | src/LSST/util/CsvFile.cpp:83-101 | whatever follows it, a row shorter than the header ends reading with an error that names it; the rows before it are kept, not counted, and nothing is indexed |
| `CsvLogic.FirstRepeated` | src/LSST/util/CsvFile.cpp:104-113 | the duplicate that is reported is the first name that repeats an earlier one |
| `CsvLogic.SecondReading` | src/LSST/util/CsvFile.cpp:65-113 | an object that has an index keeps it through any later reading, which adds columns and rows and, when it reads all of them, reports its own first column as a duplicate |
| `CsvLogic.LookupIs` | src/LSST/util/CsvFile.cpp:126-142 | exactly when a look-up finds no row, no column or a value |
| `CsvLogic.ReadIsClean` | src/LSST/util/CsvFile.cpp:58-102 | whatever the file, no field read holds a comma or a line end |
| `CsvLogic.JoinedReadsBack` | src/LSST/util/CsvFile.cpp:40-51 | a printed row reads back as itself without an empty last field |
| `CsvLogic.RowsReadBack` | src/LSST/util/CsvFile.cpp:83-101 | printed rows are read back if and only if each has a field, is wide enough and ends in a field that is not empty |
| `CsvLogic.OrganizedIs` | src/LSST/util/CsvFile.cpp:104-113 | the index is made, each name at its column, if and only if no name repeats |
| `CsvLogic.ReadIsIndexed` | src/LSST/util/CsvFile.cpp:65-113 | however a first reading ends, the index and the counts fit the rows, and no look-up runs past the end of a row |
| `CsvLogic.ValuesSurvive` | src/LSST/util/CsvFile.cpp:126-142 | after printing and reading back every value is found under its name and row |
| `CsvFile.TextStream.GetLine` | src/LSST/util/CsvFile.cpp:58-63 | one getline takes exactly the first piece of Split |
| `CsvFile.CsvFile.ReadRow` | src/LSST/util/CsvFile.cpp:58-63 | the loop appends the fields of the line |
| `CsvFile.CsvFile.ReadRows` | src/LSST/util/CsvFile.cpp:83-101 | the loop reads the rows of RowsRead and stops as it says |
| `CsvFile.CsvFile.Read` | src/LSST/util/CsvFile.cpp:65-102 | the new table and the outcome are ReadInto, errors and blank lines included |
| `CsvFile.CsvFile.Organize` | src/LSST/util/CsvFile.cpp:104-113 | the loop makes the index of Organized or names the first repeated column |
| `CsvFile.CsvFile.AppendRow` | src/LSST/util/CsvFile.cpp:40-51 | the loop appends the joined row and a line end |
| `CsvFile.CsvFile.DumpStr` | src/LSST/util/CsvFile.cpp:115-124 | the text is Dump |
| `CsvFile.CsvFile.GetValue` | src/LSST/util/CsvFile.cpp:126-142 | a value, the error for a row or a column that is not there, or PastEnd where the program indexes past the end of a row |
| `TelemetryLogic.MapsEqualIsSymmetric` | src/LSST/system/TelemetryItem.cpp:40-63 | comparing maps is symmetric although only one of them is walked |
| `TelemetryLogic.LeavesEqualIff` | src/LSST/system/TelemetryItem.cpp:40-63 | equal size and one-sided containment hold if and only if the members are the same |
| `TelemetryLogic.GroupsComparedIff` | src/LSST/system/TelemetryItem.h:144-153 | comparing groups answers whether class, id and members agree exactly unless only the ids differ |
| `TelemetryLogic.StatusesCompareEqual` | src/LSST/system/TelemetryItemDefs.h:38-66 | a power status and a raw power status with the same four values compare equal |
| `TelemetryLogic.ValueReadsBack` | src/LSST/system/TelemetryItem.h:190-213 | every value reads back from its JSON as itself; a JSON integer is read for a double, and integers wrap to 32 bits |
| `TelemetryLogic.ReadableIff` | src/LSST/system/TelemetryItem.h:190-213 | exactly which JSON values can be read for each kind of value |
| `TelemetryLogic.NumbersConvert` | src/LSST/system/TelemetryItem.h:190-213 | numbers of the other kind: an integer as a double, a fraction cut toward zero, 32-bit wrap, truth values as 1 and 0 |
| `TelemetryLogic.LeafSetIs` | src/LSST/system/TelemetryItem.h:198-213 | exactly when setting a member succeeds, fails or throws |
| `TelemetryLogic.VectorsKeepLength` | src/LSST/system/TelemetryItem.h:387-396 | a vector is taken whole exactly when its length is right, and never changes length |
| `TelemetryLogic.LeavesSetIs` | src/LSST/system/TelemetryItem.cpp:114-124 | every member before the first that throws is set on its own, past failures; those from there on are kept; success exactly when every member succeeds |
| `TelemetryLogic.GroupSetIs` | src/LSST/system/TelemetryItem.cpp:110-125 | a group: no id, a wrong id, or its members |
| `TelemetryLogic.MessageIs` | src/LSST/system/TelemetryMap.cpp:54-66 | a message changes at most the item it names; exactly when it asserts, throws and fails on its id |
| `TelemetryLogic.SingleIs` | src/LSST/system/TelemetryItem.h:215-222 | the message and the comparison of a single value |
| `TelemetryLogic.SetFromOtherIff` | src/LSST/system/TelemetryMap.cpp:54-66 | setting an item from the message of a different item of its shape gives exactly that item, no other change and success if and only if the message names the item |
| `TelemetryLogic.ReplayMakesEqual` | src/LSST/system/TelemetryMap.cpp:40-66 | replaying every message of a map of the same shape makes the maps equal |
| `TelemetryLogic.SingleIsRefused` | src/LSST/system/TelemetryItem.h:198-203 | a message for a single value at the top of a map is refused and changes nothing |
| `TelemetryLogic.JsonOf` | src/LSST/system/TelemetryItem.cpp:100-108 | the message of a group holds the value of every member, and its id unless a member is called "id" |
| `Telemetry.LeafItem.SetFromJson` | src/LSST/system/TelemetryItem.h:198-213 | new value and outcome are LeafSet |
| `Telemetry.LeafItem.SetVal` | src/LSST/system/TelemetryItem.h:387-396 | a vector of another length is refused; otherwise the whole value is replaced |
| `Telemetry.LeafItem.CompareItem` | src/LSST/system/TelemetryItem.h:215-222 | equal exactly with the same id, kind and value |
| `Telemetry.Insert` | src/LSST/system/TelemetryItem.cpp:65-74 | a duplicate id is refused; members are kept in the order of their ids |
| `Telemetry.ValidIsProper` | src/LSST/system/TelemetryItem.cpp:65-74 | so every group lists each member once, as the theorems ask |
| `Telemetry.GroupItem.GetJson` | src/LSST/system/TelemetryItem.cpp:100-108 | the loop builds ItemJson |
| `Telemetry.GroupItem.SetMembers` | src/LSST/system/TelemetryItem.cpp:114-124 | the loop sets, in the order of ids, every member it can, goes on after a failure and stops at an exception: LeavesSet |
| `Telemetry.GroupItem.SetFromJson` | src/LSST/system/TelemetryItem.cpp:110-125 | a missing id is the JSON assertion, a wrong one changes nothing; otherwise the members are set |
| `Telemetry.GroupItem.CompareItem` | src/LSST/system/TelemetryItem.cpp:40-63 | the walk over one map with look-ups in the other is ItemEqual |
| `Telemetry.TelemetryMap.SetItemFromJson` | src/LSST/system/TelemetryMap.cpp:54-66 | item found, set and outcome are MapSet, the missing id and the id of another type included; no other group changes |
| `Telemetry.TelemetryMap.CompareMaps` | src/LSST/system/TelemetryMap.cpp:40-42 | the answer is MapsEqual |

## Left out

- Clock: one call reads the clock once; the program reads it again inside some calls, microseconds later.
- CellSafety.TripStaysOff: each snapshot is processed as one step there; `ConnectionLoss` is the module that interleaves calls at their locks.
- ConnectionLoss.OffAfterReport: connection reports are taken one after another and each update of the fault records is one step, and a system state change appears as the turning off it causes.
- ClosedLoop.PowerComesUpAndStays: the command comes when no read is queued, a round finds the last read carried out and its output taken up by the simulator, and the force switches of the simulator stay off. No snapshot read is older than the time-out, which would turn the power off, nor older than 0.1 s while a subsystem is turning on. `LoopRuns` has none of these conditions but the force switches.
- LoopRuns.NeverOverLimit: holds once a round fetched a snapshot that the simulator made; what is held before that is memory the program has not set. The force switches stay off.
- PowerRuns.ActualStateGraph: a breaker trip turns power off but, not being in the checked mask, blocks no later command; that is the code's choice and is modelled so.
- LockOrder.EntryKeeps: the calls are the paths through their lock operations. An event thread that waits for a command is at rest. Locks of the motion engine, the servers, the loggers and the singletons are not part of this model.
- ThreadPool.ThreadPool.LeavePool: the call from inside the running command; the call from another thread, which may stop a different command's thread, is not modelled. A command leaves at most once.
- PoolLogic takes finding, erasing and handing over as one step, and taking an end message and ending the loop as one step. `waitForResize` reads the pool size under another lock than its writers use; this race is not modelled.
- TelemetryLogic.ReplayMakesEqual: values are exact reals and 32-bit integers; NaN, which is never equal to itself and is lost in JSON, is not modelled. Groups hold single values only, as every definition of the program does.
- TelemetryLogic.ValueReadsBack: a JSON fraction read for an integer is cut and wrapped; outside the 32-bit range the program leaves this conversion undefined.
- Telemetry.LeafItem.SetVal: sets the whole value; setting one element of a vector, whose bound check lets an index equal to the size through, is not modelled.
- CsvFile.CsvFile.Read: the file is its content, or cannot be opened; encodings and carriage returns are plain characters.
- The unsynchronised write of the snapshot in `processDaq`, against a power-on that reads it for the interlock bit.
- Bit positions outside a port, which throw, cannot be written by the modelled callers.
- TCP/IP servers and clients, JSON text, logging, configuration files, NetCommand classes, the motion engine, old mock DAQ classes and the tangent load cell checks: plumbing, unfinished or without structure to prove.
