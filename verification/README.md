# Seat service, broker feeder and mock engine: a verified model

This project models three parts of a vehicle services repository and proves what they promise over
whole runs.

**Closed-loop seat control.** The seat controller accepts a target position, drives the seat motor by CAN
frames and stops it when status frames say that it has arrived, stalled or timed out. The ECU simulator is
a fixed-point motor with end clamps and one-shot stops at 85% and 14%, from which the controller must
recover. `SeatController` and `SeatEngine` hold the two components: functions that say what each C function
does to its context, classes that update the context field by field and are proved to agree with them.
`ControllerRun` and `ControllerFrames` are the controller with an arbitrary bus and one caller, each of
which may run while the other sleeps, `ControllerCallbacks` its notifications, `ControllerOutcomes` and
`SimulatorOutcomes` what each event does, in figures. `ClosedLoop` is the product of controller and
simulator; `Landing`, `Recovery`, `Thresholds`, `OvershootRuns` and `Settling` hold its whole runs.
`ControllerThread` and `SeatBench` drive the objects through these runs. `TornWrites` interleaves the two
threads per field access.

**Store-and-forward feeder.** `Feeder` is the object with its maps and flags, `FeederRun` the step machine
of its thread, its callers, a shutdown and the subscriber that shares the client, `FeederThread` the proof
that the object goes through runs of that machine. `FeederOrder`, `FeederConnections`,
`FeederRegistration`, `FeederDiscipline` and `FeederBroker` hold what is guaranteed over whole runs,
`FeederWitnesses` runs that break an assumption. The feeder never looks into a value, so its run model is
generic in the value type and the ordering results run it on values stamped with the number of their feed.
`EndToEnd` puts the closed loop and the feeder together, `UnheardMove` is a run of both.

**Mock engine.** `Animator`, `Triggers` and `MockEngine` model the value animator, the clock and event
triggers, the behavior executor and one turn of the main loop, with floats as reals.

## Assumptions

- Time is read forwards and is positive. One caller at a time is inside the controller's API.
- In the closed loop sends succeed and reach the simulator at once, and a cycle of reading, handling and
  control loop, its sleep included, is one step. In `ControllerRun` sends may fail, and the caller may act
  during the sleep of the control loop.
- The generated range checks for SECU1_STAT accept every value that fits the signals, as the ranges in
  `seat_ecu.dbc` say (lines 122-134).
- `connected_` lives in a client that the feeder shares with the subscriber. The results on registration
  and loss assume that the inner loop is never entered, at line 98 of `data_broker_feeder.cc`, on a
  connection without ids for all configured names; connection discipline and the broker's value also
  assume that the test at line 145 never finds the link up after a failed send. `NoRaiseSuffices` derives
  both from complete registration replies and nobody but the feeder raising `connected_` between lines 89
  and 98 and between a failed send and line 145. `EntryRaiseRun` and `ExitRaiseRun` show what happens
  otherwise. The order of acknowledged values needs neither.

## Findings

- The control loop sleeps 100 ms between an OFF and its resend, and reads the desired direction again only
  then. A command committed meanwhile has its move sent twice, without an OFF in between; that is exactly
  when the order of frames is broken (`MovesFollowStops`, `OvertakenRun`). The elapsed time is not read
  again, so a loop that fell asleep over a command that had timed out stops the new one, however young
  (`StaleElapsed`).
- `seatctrl_close` clears `running` before it closes the socket and waits for the thread. A change of
  position in a frame handled in between is never notified, and after a reopen the last notification stays
  wrong until the next change (`CallbackStream`, `ChangeMissed`).
- The seat service starts its CAN thread before the data feeder subscribes to positions. A position notified
  in between is never fed, and a Move to it succeeds while the broker keeps its initial value
  (`BrokerMirrorsMotor`, `MoveUnheard`).
- Every new connection starts with the initial values for names that have nothing stored, so a reconnect
  puts an initial value over an acknowledged one until the next feed (`FirstBatch`); `BrokerHolds` says
  exactly when the broker holds which.
- A registration that fails goes back to the outer loop without the clean-up, so metadata of an earlier
  connection counts on a later one (`StaleMetadata`).
- A recurring clock that is checked late has its next interval lengthened by the time it was late, so lateness
  counts twice (`RecurringAfter`, `RecurringFires`).
- An animation in REPEAT mode depends on total time only as long as the last tick does not carry it past
  its second lap: the code subtracts the duration once (`RepeatPathIndependentIff`, `LongTickDiffers`).
- A stop by the control thread that overlaps a new command can leave the command fields half set, for
  certain overlaps and no others (`WholeUnlessTorn`, `OverlapLeavesRemnant`). `is_ctl_running` is never
  true of such a mixture (`TornWriteSafety`, `TrueAnswer`).
- Steps of more than 1024 raw units carry the motor past its target, by the bound of `OvershootBound` and
  no more, in runs of four acts (`OvershootRun`); exact landing holds from every start for steps of at most
  1024 and for steps too long to be taken at all, and for no others (`LandsFromEverywhereIff`). For a single
  start the condition is `LandsExactlyIff`.
- A comment at line 383 of `seat_controller.cc` names the upper stop of the real ECU as 80%; the simulator
  stops at 85%. The model follows the simulator.
- A move needs exactly ceil(distance / step) counted cycles, so a threshold stop costs none: either the
  cycle that travelled into the stop counts and answers it at once with OFF and the move again, or it
  was a start-up wait, and the later cycle that answers counts in its place.

## Model

| member | source | states |
|---|---|---|
| `SeatController.Controller.constructor` | seat_service/src/lib/seat_adjuster/seat_controller/seat_controller.cc:734-771 | A fresh context is idle, without socket, with position unknown. |
| `SeatController.Controller.SendCmd1` | seat_service/src/lib/seat_adjuster/seat_controller/seat_controller.cc:524-565 | Exactly one frame is attempted on an open socket and none otherwise; the result tells the three outcomes apart, and a failed write raises one CanError notification if there is a callback. No command field changes. |
| `SeatController.Controller.Stop` | seat_service/src/lib/seat_adjuster/seat_controller/seat_controller.cc:571-586 | One OFF frame, then an idle context, whether or not the send succeeds. |
| `SeatController.Controller.HandleSecuStat` | seat_service/src/lib/seat_adjuster/seat_controller/seat_controller.cc:226-271 | A plausible status frame replaces position, movement and learning state and raises a notification exactly if a running controller with a callback sees a new position; every other frame changes nothing and yields its error. |
| `SeatController.Controller.Judge` | seat_service/src/lib/seat_adjuster/seat_controller/seat_controller.cc:410-436 | The end of a turn: a command that has reached its target or is out of time is stopped and the remembered report forgotten; otherwise nothing happens. |
| `SeatController.Controller.Conclude` | seat_service/src/lib/seat_adjuster/seat_controller/seat_controller.cc:421-424 | Ending a command stops the motor and forgets the remembered report. |
| `SeatController.Controller.LoopBegin` | seat_service/src/lib/seat_adjuster/seat_controller/seat_controller.cc:359-409 | The control loop up to its sleep: nothing in the start-up wait; OFF and asleep, with the elapsed time, for a motor that went off short of the target and was not reacted to yet; otherwise the report is remembered and judged. |
| `SeatController.Controller.LoopResume` | seat_service/src/lib/seat_adjuster/seat_controller/seat_controller.cc:390-436 | The loop after its sleep: it sends the direction desired by now, remembers the report, and judges the command of now by the elapsed time of before. |
| `SeatController.Controller.ControlStep` | seat_service/src/lib/seat_adjuster/seat_controller/seat_controller.cc:333-439 | A turn at whose sleep nobody gets in is the two stretches in a row. |
| `SeatController.Controller.FrameRead` | seat_service/src/lib/seat_adjuster/seat_controller/seat_controller.cc:501-507 | The control loop begins exactly on accepted status frames, and may fall asleep. |
| `SeatController.Controller.SetPosition` | seat_service/src/lib/seat_adjuster/seat_controller/seat_controller.cc:591-603 | Targets outside 0..100 are refused without effect; others go on to wait for a position or stop the motor. |
| `SeatController.Controller.AwaitThenStop` | seat_service/src/lib/seat_adjuster/seat_controller/seat_controller.cc:606-635 | Up to 30 sleeps for a first position, then failure; otherwise OFF before anything else. |
| `SeatController.Controller.Commit` | seat_service/src/lib/seat_adjuster/seat_controller/seat_controller.cc:638-687 | Already there: idle, with OFF if the motor moves. Otherwise a complete command towards the target, kept even if its send fails. |
| `SeatController.LoopUndisturbed` | seat_service/src/lib/seat_adjuster/seat_controller/seat_controller.cc:359-437 | Begun and resumed at once, the two stretches are the whole turn: resend, finish or timeout, with the frames it attempts. |
| `ControllerRun.FrameKeepsInv` | seat_service/src/lib/seat_adjuster/seat_controller/seat_controller.cc:501-507 | Every frame keeps the run invariant. |
| `ControllerRun.StepKeepsInv` | seat_service/src/lib/seat_adjuster/seat_controller/seat_controller.cc:447-687 | Every step of the thread or of the caller keeps the run invariant, including steps between the sleeps of set_position and of the control loop and between the stretches of seatctrl_close. |
| `ControllerRun.WholeFrameIs` | seat_service/src/lib/seat_adjuster/seat_controller/seat_controller.cc:501-507 | A frame at whose sleep nobody gets in has the effect of handling and one whole turn. |
| `ControllerRun.ControllerRunInvariant` | seat_service/src/lib/seat_adjuster/seat_controller/seat_controller.cc:571-687 | In every reachable state the controller is wholly idle or wholly active, and its position is 0..100 or unknown. |
| `ControllerFrames.MovesFollowStops` | seat_service/src/lib/seat_adjuster/seat_controller/seat_controller.cc:384-397 | In the frames attempted so far every INC or DEC comes right after an OFF, even when sends fail, if and only if the loop has never woken to a command that was committed during its sleep and is still active. |
| `ControllerFrames.OvertakenRun` | seat_service/src/lib/seat_adjuster/seat_controller/seat_controller.cc:384-397 | A run with one caller in which that happens: the frames end OFF, OFF, DEC, DEC; and if the loop fell asleep over a command that had timed out, the new one is stopped at once. |
| `ControllerFrames.StoppedInTime` | seat_service/src/lib/seat_adjuster/seat_controller/seat_controller.cc:384-397 | A commit during the sleep that is stopped again before the loop wakes keeps the order. |
| `ControllerFrames.StaleElapsed` | seat_service/src/lib/seat_adjuster/seat_controller/seat_controller.cc:359-436 | A loop that falls asleep over a frame and wakes judges the command it then finds by the age of the command at the frame: that command ends if and only if its target is reached or the old one had timed out; if it was committed during the sleep, it is no older than the frame. |
| `ControllerRun.BoundedCommandLife` | seat_service/src/lib/seat_adjuster/seat_controller/seat_controller.cc:359-437 | However the motor reports and whether or not sends succeed, an accepted frame later than max(timeout, 499 ms) sends OFF and ends the command, at once or, if the loop falls asleep over it, when it wakes; only a frame handled after the socket is closed leaves it alone. |
| `ControllerOutcomes.FrameTaken` | seat_service/src/lib/seat_adjuster/seat_controller/seat_controller.cc:226-271 | A frame with id 0x712, a record, and a position of at most 100 or 255 sets what is known of the motor, and is notified if it is news; any other changes nothing. |
| `ControllerOutcomes.FrameAnswered` | seat_service/src/lib/seat_adjuster/seat_controller/seat_controller.cc:359-437 | The answer to a report on an active command, on the fields of the frame: nothing in the first 500 ms of a motor reported off short of the target; OFF and asleep if and only if it is otherwise reported off short of the target and was not reported so before; otherwise the report is remembered, and one OFF ends the command if and only if it has arrived or timed out. A moving motor is never answered with anything else. |
| `ControllerOutcomes.FrameUnanswered` | seat_service/src/lib/seat_adjuster/seat_controller/seat_controller.cc:359 | Without an active command or a socket a frame is not answered at all. |
| `ControllerOutcomes.WakeAnswered` | seat_service/src/lib/seat_adjuster/seat_controller/seat_controller.cc:390-436 | A loop that wakes sends the direction desired by then at the configured rpm, and OFF if it ends the command. |
| `ControllerOutcomes.CallAnswered` | seat_service/src/lib/seat_adjuster/seat_controller/seat_controller.cc:600-635 | A target outside 0..100 is refused and nothing happens; with the position unknown nothing happens yet; otherwise the motor is stopped first. |
| `ControllerOutcomes.WaitAnswered` | seat_service/src/lib/seat_adjuster/seat_controller/seat_controller.cc:609-623 | The caller waits for a position through 30 sleeps and no more. |
| `ControllerOutcomes.CommitAnswered` | seat_service/src/lib/seat_adjuster/seat_controller/seat_controller.cc:638-687 | A commit moves towards the target, dated now, at the configured rpm, and reports how its send went; if the seat is there it commits to nothing, with OFF only for a motor still reported moving. |
| `ControllerOutcomes.StopAnswered` | seat_service/src/lib/seat_adjuster/seat_controller/seat_controller.cc:571-586 | A stop leaves no command and sends one OFF. |
| `ControllerCallbacks.CallbackStream` | seat_service/src/lib/seat_adjuster/seat_controller/seat_controller.cc:258-265 | The notifications of a run are the accepted positions without consecutive repetitions, starting from unknown, if and only if no accepted frame changed the position while running was false; and then the last one is the position held. |
| `ControllerCallbacks.NotifiedOrMissed` | seat_service/src/lib/seat_adjuster/seat_controller/seat_controller.cc:258-265 | Notifications and changes missed that way add up to the changes of position. |
| `ControllerCallbacks.ChangeMissed` | seat_service/src/lib/seat_adjuster/seat_controller/seat_controller.cc:876-890 | A run in which one is missed: a change from 50% to 51% during a close is still not notified after a reopen and another report of 51%. |
| `ControllerCallbacks.DedupNoRepeats` | seat_service/src/lib/seat_adjuster/seat_controller/seat_controller.cc:258 | Removing repetitions leaves no value equal to its predecessor. |
| `ControllerCallbacks.DedupKeepsValues` | seat_service/src/lib/seat_adjuster/seat_controller/seat_controller.cc:258 | And drops nothing else: every change of position survives. |
| `ControllerThread.Driver.Execute` | seat_service/src/lib/seat_adjuster/seat_controller/seat_controller.cc:447-687 | Driven by any list of events, as far as they are possible, the controller object goes through a run of the model. |
| `SeatEngine.SpeedGrows` | seat_service/src/lib/seat_adjuster/seat_controller/tests/cansim/seatadjuster_engine.c:202-232 | From 30 rpm on, more rpm never take longer and never make a smaller step. |
| `SeatEngine.StepIsShare` | seat_service/src/lib/seat_adjuster/seat_controller/tests/cansim/seatadjuster_engine.c:214-232 | The step is the whole part of what one read covers when 100% take the estimated time. |
| `SeatEngine.Simulator.constructor` | seat_service/src/lib/seat_adjuster/seat_controller/tests/cansim/seatadjuster_engine.c:112-192 | A started simulator at its configured or an unknown position, motor off, both thresholds armed. |
| `SeatEngine.Simulator.ReadCb` | seat_service/src/lib/seat_adjuster/seat_controller/tests/cansim/seatadjuster_engine.c:235-381 | A read calibrates, re-arms thresholds, moves the motor and reports the result; it fails exactly if not started. |
| `SeatEngine.Simulator.Travel` | seat_service/src/lib/seat_adjuster/seat_controller/tests/cansim/seatadjuster_engine.c:274-305 | One increment or a clamp, then a stop at a threshold that is armed. |
| `SeatEngine.Simulator.WriteCb` | seat_service/src/lib/seat_adjuster/seat_controller/tests/cansim/seatadjuster_engine.c:384-460 | OFF, INC and DEC commands, with unhandled ones changing the rpm only. |
| `SeatEngine.TravelKeepsInv` | seat_service/src/lib/seat_adjuster/seat_controller/tests/cansim/seatadjuster_engine.c:274-305 | Moving keeps the motor in range, because a rising motor has no negative and a falling one no positive increment. |
| `SeatEngine.WriteKeepsInv` | seat_service/src/lib/seat_adjuster/seat_controller/tests/cansim/seatadjuster_engine.c:407-457 | So does any command frame, handled or not. |
| `SeatEngine.SimulatorRange` | seat_service/src/lib/seat_adjuster/seat_controller/tests/cansim/seatadjuster_engine.c:235-460 | From any start, under any reads and command frames, the raw position is in [0, 101 * 1024) after the first read and the reported byte is its percent. |
| `SimulatorOutcomes.ReadAtRest` | seat_service/src/lib/seat_adjuster/seat_controller/tests/cansim/seatadjuster_engine.c:255-272 | A read of a motor that is off moves it only from an unknown position to 42%, and arms a threshold again that it is inside of. |
| `SimulatorOutcomes.ReadRising` | seat_service/src/lib/seat_adjuster/seat_controller/tests/cansim/seatadjuster_engine.c:274-292 | A read of a rising motor: one increment if that stays below 101%, else it stays and goes off; it goes off at 85% if and only if it comes from below or has not been stopped there since. |
| `SimulatorOutcomes.ReadFalling` | seat_service/src/lib/seat_adjuster/seat_controller/tests/cansim/seatadjuster_engine.c:293-305 | The same downwards, at 0% and 14%. |
| `SimulatorOutcomes.ReadReports` | seat_service/src/lib/seat_adjuster/seat_controller/tests/cansim/seatadjuster_engine.c:307-350 | A read reports the percent, the movement and the learning state that it leaves. |
| `SimulatorOutcomes.IncrementIs` | seat_service/src/lib/seat_adjuster/seat_controller/tests/cansim/seatadjuster_engine.c:202-232 | The increment in figures: none below 30 rpm, 100% in 28 s less 200 ms per rpm up to 130 rpm, in 1 s beyond. |
| `SimulatorOutcomes.WriteTaken` | seat_service/src/lib/seat_adjuster/seat_controller/tests/cansim/seatadjuster_engine.c:407-457 | What each command sets: direction and increment, nothing but OFF, or the rpm only. |
| `ClosedLoop.CycleIsTurn` | seat_service/src/lib/seat_adjuster/seat_controller/seat_controller.cc:447-513 | One cycle of the two components together is: the engine moves, the controller hears of it, its frames reach the engine. |
| `ClosedLoop.HearingAgrees` | seat_service/src/lib/seat_adjuster/seat_controller/tests/cansim/seatadjuster_engine.c:274-305 | After a read the controller holds the percent of the raw position, and the target is passed by the overshoot bound at most. |
| `ClosedLoop.ReactionKeepsCoupled` | seat_service/src/lib/seat_adjuster/seat_controller/seat_controller.cc:359-437 | The loop keeps the joint invariant: idle means motor off; active means driven towards the target and short of it, or off. |
| `ClosedLoop.HearingIsAttentive` | seat_service/src/lib/seat_adjuster/seat_controller/tests/cansim/seatadjuster_engine.c:287-304 | A motor that goes off under an active command did so at an armed threshold, and last_ctl_pos and last_ctl_dir do not mask the report. |
| `ClosedLoop.ReactionKeepsRecoverable` | seat_service/src/lib/seat_adjuster/seat_controller/seat_controller.cc:374-409 | The loop never leaves behind a remembered report that could mask a later threshold stop. |
| `ClosedLoop.ReactionOutcome` | seat_service/src/lib/seat_adjuster/seat_controller/seat_controller.cc:363-436 | Within its time limit a command ends exactly if the target is reported; otherwise, start-up waits apart, its motor is driven afterwards. |
| `ClosedLoop.TurnKeeps` | seat_service/src/lib/seat_adjuster/seat_controller/seat_controller.cc:359-437 | One turn of both components keeps the joint invariants. |
| `ClosedLoop.TurnProgress` | seat_service/src/lib/seat_adjuster/seat_controller/seat_controller.cc:359-437 | Every cycle that is not a start-up wait takes exactly one off the measure of remaining cycles, through threshold stops. |
| `ClosedLoop.MovesIsCeiling` | seat_service/src/lib/seat_adjuster/seat_controller/tests/cansim/seatadjuster_engine.c:228-231 | The number of steps in the measure is the ceiling of distance over step size. |
| `ClosedLoop.TurnLands` | seat_service/src/lib/seat_adjuster/seat_controller/seat_controller.cc:410-436 | One cycle moves by one step or not at all, never past the target, and ends the command only on the target or by timeout. |
| `Landing.StepInv` | seat_service/src/lib/seat_adjuster/seat_controller/seat_controller.cc:447-687 | Every act of the closed loop (cycle, request, resume after a sleep, stop) keeps the joint invariant. |
| `Landing.OvershootBound` | seat_service/src/lib/seat_adjuster/seat_controller/seat_controller.cc:410-424 | For every step size s of at least 1 a command is never found more than ceil(s / 1024) - 1 percent past its target. |
| `OvershootRuns.OvershootRun` | seat_service/src/lib/seat_adjuster/seat_controller/tests/cansim/seatadjuster_engine.c:274-305 | From any start with room for one step, thresholds or not: four acts that pass the next percent, downwards by ceil(s / 1024) - 1 percent exactly. |
| `Landing.ExactLanding` | seat_service/src/lib/seat_adjuster/seat_controller/seat_controller.cc:333-439 | With steps of 1..1024 raw units, thresholds on or off: monotone movement, never past the target, and the command ends, motor off, only with the reported percent equal to the target or by timeout. |
| `OvershootRuns.LandsExactlyIff` | seat_service/src/lib/seat_adjuster/seat_controller/tests/cansim/seatadjuster_engine.c:274-305 | For every setup: all runs land exactly if and only if no two neighbouring positions that are whole steps away from the start, both in range, report percents more than 1 apart. |
| `OvershootRuns.RestsAt` | seat_service/src/lib/seat_adjuster/seat_controller/tests/cansim/seatadjuster_engine.c:274-305 | With steps of more than a percent the motor can be brought to rest at every position that is whole steps away from its start. |
| `OvershootRuns.LandsFromEverywhereIff` | seat_service/src/lib/seat_adjuster/seat_controller/tests/cansim/seatadjuster_engine.c:274-305 | All runs from all starts land exactly if and only if the step is at most 1024 raw units or at least 101 * 1024, when it is never taken. |
| `OvershootRuns.LongStepLands` | seat_service/src/lib/seat_adjuster/seat_controller/tests/cansim/seatadjuster_engine.c:274-305 | A step of more than one percent may do for a single start: 1028 raw units from 0%. |
| `Landing.Countdown` | seat_service/src/lib/seat_adjuster/seat_controller/seat_controller.cc:363-408 | From any active state, after any in-time cycles, measure and counted cycles add up to the initial measure, and the command lasts exactly while the measure is positive. |
| `Landing.CommandTerminates` | seat_service/src/lib/seat_adjuster/seat_controller/seat_controller.cc:591-687 | A move starting at raw distance d ends after exactly ceil(d / step) cycles that are not start-up waits, unless it times out: with fewer it is under way, with as many it is on the target. |
| `Landing.LateLast` | seat_service/src/lib/seat_adjuster/seat_controller/seat_controller.cc:363-370 | Once the start-up wait is over, a cycle takes one off the measure if there is anything left. |
| `Landing.LateCountdown` | seat_service/src/lib/seat_adjuster/seat_controller/seat_controller.cc:363-370 | Once the start-up wait is over, every cycle counts. |
| `Landing.NoWaitingNoDelay` | seat_service/src/lib/seat_adjuster/seat_controller/seat_controller.cc:359-437 | So the command is on its target after as many cycles as the measure says, and active before. |
| `Recovery.TurnFrames` | seat_service/src/lib/seat_adjuster/seat_controller/seat_controller.cc:374-424 | The frames of one cycle of a command in time: OFF and the move exactly if the motor is off short of the target and this is no start-up wait, OFF exactly if the command ends. |
| `Recovery.ThresholdFrames` | seat_service/src/lib/seat_adjuster/seat_controller/seat_controller.cc:382-397 | From any point of a command on, each threshold stop is met by exactly one OFF and resend, and nothing else is sent before the OFF that ends it. |
| `Recovery.LandedFrames` | seat_service/src/lib/seat_adjuster/seat_controller/seat_controller.cc:382-424 | A move that has landed has sent its start, one OFF and resend for each threshold stop on its way, and the closing OFF. |
| `Thresholds.CrossingStops` | seat_service/src/lib/seat_adjuster/seat_controller/tests/cansim/seatadjuster_engine.c:287-304 | In every run with thresholds on, whatever happened before, a cycle that carries a command across 85% upwards or 14% downwards finds the motor stopped there, and the controller hears of it. |
| `Thresholds.OneStop` | seat_service/src/lib/seat_adjuster/seat_controller/tests/cansim/seatadjuster_engine.c:287-304 | A command on its way across a threshold is stopped at the first cycle beyond it and nowhere else. |
| `Thresholds.ThresholdCrossed` | seat_service/src/lib/seat_adjuster/seat_controller/seat_controller.cc:382-424 | A move that starts on one side of a threshold and lands on the other is stopped exactly once, in the first cycle that reports 85 (or 14), and its frames are the move, one OFF and resend, and OFF. |
| `Settling.RequestStays` | seat_service/src/lib/seat_adjuster/seat_controller/seat_controller.cc:591-687 | An undisturbed request is always waiting for its target, under way to it, at rest on it, or failed for want of frames. |
| `Settling.RequestSettles` | seat_service/src/lib/seat_adjuster/seat_controller/seat_controller.cc:591-687 | A successful request that is no longer active has the motor off, reporting the target, whether it had to move or was already there. |
| `SeatBench.Bench.Execute` | seat_service/src/lib/seat_adjuster/seat_controller/seat_controller.cc:447-513 | Driven by any list of acts, as far as they are possible, controller and simulator objects go through a run of the closed loop. |
| `TornWrites.StepKeepsInv` | seat_service/src/lib/seat_adjuster/seat_controller/seat_controller.cc:571-586 | What every single field read or write of either thread keeps. |
| `TornWrites.TornWriteSafety` | seat_service/src/lib/seat_adjuster/seat_controller/seat_controller.cc:292-301 | With one setter and the control thread interleaved per field access, whenever timestamp, direction and position are all set they are complete and those of the most recently completed set_position. |
| `TornWrites.TrueAnswer` | seat_service/src/lib/seat_adjuster/seat_controller/seat_controller.cc:292-301 | The same when is_ctl_running, reading its three fields one by one, answers true. |
| `TornWrites.WholeUnlessTorn` | seat_service/src/lib/seat_adjuster/seat_controller/seat_controller.cc:659-662 | With both threads at rest the fields are all reset or the whole last command if and only if no stop of the control thread reset a field already published and none was half done when the publication completed. |
| `TornWrites.OverlapLeavesRemnant` | seat_service/src/lib/seat_adjuster/seat_controller/seat_controller.cc:580-583 | A run in which one does: it ends with both threads at rest, no timestamp, but a direction and a target. |
| `Feeder.Initials` | seat_service/src/lib/broker_feeder/data_broker_feeder.cc:395-399 | Every configured name and no other has an initial value. |
| `Feeder.InitialOf` | seat_service/src/lib/broker_feeder/data_broker_feeder.cc:395-399 | The first entry for a name gives its initial value. |
| `Feeder.DataBrokerFeeder.constructor` | seat_service/src/lib/broker_feeder/data_broker_feeder.cc:63-68 | Starts active, not ready, with empty maps. |
| `Feeder.DataBrokerFeeder.StoreValues` | seat_service/src/lib/broker_feeder/data_broker_feeder.cc:225-234 | All passed values are stored, replacing older ones; nothing else changes. |
| `Feeder.DataBrokerFeeder.FeedValue` | seat_service/src/lib/broker_feeder/data_broker_feeder.cc:208-221 | Stored if and only if the feeder is active. |
| `Feeder.DataBrokerFeeder.FeedValues` | seat_service/src/lib/broker_feeder/data_broker_feeder.cc:192-203 | The same for several values. |
| `Feeder.DataBrokerFeeder.InsertInitials` | seat_service/src/lib/broker_feeder/data_broker_feeder.cc:395-399 | Initial values are added for exactly the configured names that the batch lacks. |
| `Feeder.DataBrokerFeeder.TakeBatch` | seat_service/src/lib/broker_feeder/data_broker_feeder.cc:389-399 | Everything stored leaves the store into the batch, topped up on request. |
| `Feeder.DataBrokerFeeder.RestoreValues` | seat_service/src/lib/broker_feeder/data_broker_feeder.cc:478-482 | A failed batch comes back without replacing anything stored since. |
| `Feeder.DataBrokerFeeder.BuildRequest` | seat_service/src/lib/broker_feeder/data_broker_feeder.cc:411-437 | Every known name of the batch and nothing else is requested; with distinct ids each under its own id with its own value. |
| `Feeder.DataBrokerFeeder.HandleError` | seat_service/src/lib/broker_feeder/data_broker_feeder.cc:488-511 | Always disconnects; deactivates exactly on the three unrecoverable codes. |
| `Feeder.DataBrokerFeeder.GetMetadata` | seat_service/src/lib/broker_feeder/data_broker_feeder.cc:302-353 | Metadata accumulates on success; failure is handled; nothing is asked without configured datapoints. |
| `Feeder.DataBrokerFeeder.CheckDatapoints` | seat_service/src/lib/broker_feeder/data_broker_feeder.cc:355-384 | True if and only if every configured name is known with its configured type. |
| `Feeder.DataBrokerFeeder.AdoptRegistered` | seat_service/src/lib/broker_feeder/data_broker_feeder.cc:242-255 | If the broker knows every configured datapoint with its type, the ids come from the metadata. |
| `Feeder.DataBrokerFeeder.Register` | seat_service/src/lib/broker_feeder/data_broker_feeder.cc:257-294 | Otherwise from the registration reply; failure is handled. |
| `Feeder.DataBrokerFeeder.RegisterDatapoints` | seat_service/src/lib/broker_feeder/data_broker_feeder.cc:238-295 | Succeeds if and only if everything was registered already or the registration call succeeds; then, with a complete reply, every configured name has an id. |
| `Feeder.DataBrokerFeeder.Cleanup` | seat_service/src/lib/broker_feeder/data_broker_feeder.cc:156-164 | Ids, metadata and readiness are dropped; values are not. |
| `Feeder.DataBrokerFeeder.Shutdown` | seat_service/src/lib/broker_feeder/data_broker_feeder.cc:166-181 | Stored values are dropped and the feeder is inactive. |
| `FeederThread.Thread.Feed` | seat_service/src/lib/broker_feeder/data_broker_feeder.cc:192-203 | A feed is the feed step of the run model. |
| `FeederThread.Thread.FeedLate` | seat_service/src/lib/broker_feeder/data_broker_feeder.cc:192-203 | So is one that had passed the activity test when the feeder was shut down. |
| `FeederThread.Thread.RegisterAll` | seat_service/src/lib/broker_feeder/data_broker_feeder.cc:89-97 | The two in a row, the second only if needed, are registerDatapoints. |
| `FeederThread.Thread.AnswerMeta` | seat_service/src/lib/broker_feeder/data_broker_feeder.cc:242-255 | The first half of registration is the metadata step. |
| `FeederThread.Thread.AnswerIds` | seat_service/src/lib/broker_feeder/data_broker_feeder.cc:257-294 | The second half is the registration step. |
| `FeederThread.Thread.Execute` | seat_service/src/lib/broker_feeder/data_broker_feeder.cc:72-154 | Driven by any list of events, as far as they are possible, the object goes through a run of the model. |
| `FeederThread.Thread.SwapOut` | seat_service/src/lib/broker_feeder/data_broker_feeder.cc:389-399 | Taking a batch is the take step. |
| `FeederThread.Thread.Answer` | seat_service/src/lib/broker_feeder/data_broker_feeder.cc:437-476 | The answer of the broker is the reply step. |
| `FeederThread.Thread.Restore` | seat_service/src/lib/broker_feeder/data_broker_feeder.cc:400-408 | Putting a failed batch back is the put-back step. |
| `FeederRun.StepRefines` | seat_service/src/lib/broker_feeder/data_broker_feeder.cc:389-408 | Each step acts on "in flight overlaid by stored" as one operation of a plain map that steps by itself: a feed is an update, an acknowledgement leaves only what was fed since the batch was taken, taking a batch, losing it and putting it back change nothing. |
| `FeederRun.RunRefines` | seat_service/src/lib/broker_feeder/data_broker_feeder.cc:80-154 | Over any interleaving of feeds, batches, failures, reconnects and shutdowns the feeder holds what the plain map holds, whose operations depend on events and program points and never on the values held. |
| `FeederRun.BatchOutcome` | seat_service/src/lib/broker_feeder/data_broker_feeder.cc:389-408 | An acknowledgement leaves pending exactly what was fed since the batch was taken; a failure leaves the batch overlaid by those feeds. |
| `FeederOrder.StepKeepsCover` | seat_service/src/lib/broker_feeder/data_broker_feeder.cc:89-99 | Inside the inner loop every configured name has an id, unless the step entered it for the first time on a connection without them. |
| `FeederOrder.CoveredIff` | seat_service/src/lib/broker_feeder/data_broker_feeder.cc:89-99 | Throughout a run every configured name has an id inside the inner loop if and only if it had at every first entry. |
| `FeederOrder.StepKeepsOrder` | seat_service/src/lib/broker_feeder/data_broker_feeder.cc:389-482 | Every step keeps acknowledged, in-flight and stored updates in feed order per name. |
| `FeederOrder.NothingLost` | seat_service/src/lib/broker_feeder/data_broker_feeder.cc:80-154 | While the feeder is active, the latest value fed for a configured name is stored, in flight with nothing newer stored, or the last update acknowledged, across failures and reconnects. |
| `FeederOrder.NothingReordered` | seat_service/src/lib/broker_feeder/data_broker_feeder.cc:389-482 | Acknowledged updates of a name come in strictly increasing feed order over the whole run, and anything still pending is newer, however the subscriber uses connected_ and whatever the replies. |
| `FeederConnections.EveryBatchRegistered` | seat_service/src/lib/broker_feeder/data_broker_feeder.cc:89-99 | Every batch is sent with an id for each configured name and so carries all its configured values. |
| `FeederRegistration.IdsAreCurrent` | seat_service/src/lib/broker_feeder/data_broker_feeder.cc:156-164 | In every run no ids are held and the feeder is not ready outside the inner loop and its clean-up; inside, every id was given by a reply of the broker after the last clean-up. |
| `FeederRegistration.RegisteredIff` | seat_service/src/lib/broker_feeder/data_broker_feeder.cc:238-295 | A metadata reply is enough if and only if every configured name is then known with its configured type; otherwise only a failed call keeps registration from succeeding. |
| `FeederRegistration.FailureDisconnects` | seat_service/src/lib/broker_feeder/data_broker_feeder.cc:488-511 | A failed call disconnects, and ends the feeder if and only if its code is INTERNAL, UNAUTHENTICATED or UNIMPLEMENTED. |
| `FeederRegistration.WayOfRun` | seat_service/src/lib/broker_feeder/data_broker_feeder.cc:80-154 | The way of Run() through its two loops, test by test. |
| `FeederRegistration.StopDrops` | seat_service/src/lib/broker_feeder/data_broker_feeder.cc:166-203 | A shutdown drops what is stored; nobody is fed after that but by a caller that had passed the test before. |
| `FeederRegistration.StaleMetadata` | seat_service/src/lib/broker_feeder/data_broker_feeder.cc:89-95 | A run in which metadata of an earlier connection completes that of a later one, because a failed registration is not cleaned up. |
| `FeederConnections.ConnectionDiscipline` | seat_service/src/lib/broker_feeder/data_broker_feeder.cc:97-151 | Sends are ordered by connection, only the first of a connection carries initial values, and none follows a failed one on it. |
| `FeederDiscipline.DisciplinedIff` | seat_service/src/lib/broker_feeder/data_broker_feeder.cc:97-151 | In any run the sends are ordered by connection, with initial values in first batches only and none after a failed one, if and only if no connection is used further after the test that should have left it found the link up. |
| `FeederConnections.NoRaiseSuffices` | seat_service/src/lib/broker_feeder/data_broker_feeder.cc:89-99 | If nobody else raises connected_ between the tests at the entry and after a failed send, and registration replies are complete, no entry and no exit is a bad one. |
| `FeederConnections.FirstBatch` | seat_service/src/lib/broker_feeder/data_broker_feeder.cc:386-399 | A stored value is never overridden by an initial one; a name with nothing stored is sent its initial value again on every new connection. |
| `FeederConnections.RaiseAtEntryDropsValues` | seat_service/src/bin/seat_service/main.cc:164-178 | If the sharing subscriber raises connected_ at the entry of the inner loop, the first batch carries all configured names if and only if ids were there; otherwise values are dropped as acknowledged. |
| `FeederWitnesses.EntryRaiseRun` | seat_service/src/bin/seat_service/main.cc:164-178 | A whole run in which that happens: the latest value fed is neither pending nor acknowledged. |
| `FeederConnections.RaiseAtExitReusesConnection` | seat_service/src/lib/broker_feeder/data_broker_feeder.cc:400-408 | After a failed batch the connection ends if and only if nobody raised connected_ meanwhile; otherwise the inner loop continues with the whole batch stored. |
| `FeederWitnesses.ExitRaiseRun` | seat_service/src/lib/broker_feeder/data_broker_feeder.cc:400-408 | A whole run in which that happens: a second batch on the connection whose first one failed, with initial values. |
| `FeederBroker.StepKeepsSupply` | seat_service/src/lib/broker_feeder/data_broker_feeder.cc:389-408 | Once a connection has been used, every configured name is pending or acknowledged on it. |
| `FeederBroker.BrokerHolds` | seat_service/src/lib/broker_feeder/data_broker_feeder.cc:389-408 | For a configured name whose latest feed has left the feeder the broker holds that value if the connection that acknowledged it is still the current one, and the initial value if not. |
| `FeederBroker.NeverFedHolds` | seat_service/src/lib/broker_feeder/data_broker_feeder.cc:389-408 | For a configured name that was never fed and has nothing pending the broker holds the initial value, or nothing before the first connection. |
| `EndToEnd.PositionChanged` | seat_service/src/bin/seat_service/seat_data_feeder.cc:98-129 | The callback stores just that, if the feeder is active. |
| `EndToEnd.MoveAsksFor` | seat_service/src/lib/grpc_services/seats_grpc_service/seats_grpc_service.cc:82-89 | A Move is refused outside 0..1000 and otherwise asks for the nearest percent, the higher one half-way. |
| `EndToEnd.PositionIsFed` | seat_service/src/bin/seat_service/seat_data_feeder.cc:98-129 | A position of at most 100 is fed as ten times its percent, 255 as not available, any other as invalid. |
| `EndToEnd.LastNotification` | seat_service/src/lib/seat_adjuster/seat_adjuster.cc:195-206 | The last notified position is the one the controller holds. |
| `EndToEnd.OneNotification` | seat_service/src/lib/seat_adjuster/seat_controller/seat_controller.cc:258-261 | No act of the closed loop notifies more than one position. |
| `EndToEnd.FedAlong` | seat_service/src/bin/seat_service/seat_data_feeder.cc:98-129 | In a joint run, in which each notification since the subscription is fed as the callback does and earlier ones are dropped, an active feeder has been fed exactly the readings of all notifications since. |
| `EndToEnd.BrokerMirrorsMotor` | seat_service/src/bin/seat_service/seat_data_feeder.cc:98-129 | At any point of a joint run where nothing is pending for the seat, the broker holds ten times the motor percent if a position was notified since the subscription and the connection that took the last one is still up; otherwise the initial value, or nothing before the first connection. |
| `EndToEnd.MoveReachesBroker` | seat_service/src/lib/grpc_services/seats_grpc_service/seats_grpc_service.cc:82-89 | A Move to p in 0..1000 that has settled: the final motor percent times ten is within 5 of p, and the broker holds it if and only if a position was notified since the subscription and the connection that took the last one is still up, or the initial value is the same. |
| `UnheardMove.MoveUnheard` | seat_service/src/bin/seat_service/main.cc:164-170 | A joint run in which the only position is notified before the subscription: a Move to that percent succeeds, and the broker holds the initial value. |
| `Animator.InterpolateBounded` | mock_service/lib/animator.py:63-69 | The interpolation stays between the least and the greatest value. |
| `Animator.InterpolateAtKnot` | mock_service/lib/animator.py:63-69 | The values are spread evenly over the duration: for t (n - 1) = i duration it is the i-th value. |
| `Animator.InterpolateStraight` | mock_service/lib/animator.py:63-69 | Between two neighbours it is linear in time. |
| `Animator.InterpolateEnds` | mock_service/lib/animator.py:63-69 | It starts with the first value, ends with the last, and stays there. |
| `Animator.ValueAnimator.constructor` | mock_service/lib/animator.py:54-75 | Starts at time zero with the first value. |
| `Animator.ValueAnimator.Advance` | mock_service/lib/animator.py:77-93 | One tick, with the update callback exactly if the animation was not done. |
| `Animator.OnceAfter` | mock_service/lib/animator.py:77-93 | ONCE: time and value depend only on min(total, duration), however it is split into ticks; done exactly past the duration, and then holding the last value. |
| `Animator.RepeatAfter` | mock_service/lib/animator.py:77-93 | REPEAT, for any ticks: the time is the total less whole durations, and zero only if no time has passed. |
| `Animator.RepeatReducedIff` | mock_service/lib/animator.py:87-88 | After any ticks the time is within the duration if and only if the last tick did not carry it past the second lap. |
| `Animator.RepeatPathIndependentIff` | mock_service/lib/animator.py:77-93 | Against ticks that end within the duration, another split of the same total agrees in every respect if and only if its last tick did not carry it past the second lap. |
| `Animator.RepeatPathIndependent` | mock_service/lib/animator.py:77-93 | So splits into ticks of at most the duration agree. |
| `Animator.LongTickDiffers` | mock_service/lib/animator.py:87-88 | Over 2.5 seconds of a one-second animation from 0 to 1, one tick gives 1 and the ticks 1, 1, 0.5 give 0.5. |
| `Animator.Hull` | mock_service/lib/animator.py:77-93 | In either mode, for any non-negative ticks, the value stays within the bounds of the configured values. |
| `Triggers.ClockTrigger.constructor` | mock_service/lib/trigger.py:76-84 | A new clock has its whole interval to go. |
| `Triggers.ClockTrigger.Check` | mock_service/lib/trigger.py:89-102 | Counting down, firing, restarting or expiring. |
| `Triggers.ClockTrigger.Restart` | mock_service/lib/trigger.py:104-107 | A reset clock is as good as new. |
| `Triggers.OneShotAfter` | mock_service/lib/trigger.py:89-102 | A one-shot clock has fired once if the accumulated time has reached the interval and not at all otherwise. |
| `Triggers.OneShotFires` | mock_service/lib/trigger.py:89-102 | It fires exactly at the first check where it does. |
| `Triggers.RecurringAfter` | mock_service/lib/trigger.py:93-96 | Time left and accumulated time together are one interval more than the firings and twice their total lateness. |
| `Triggers.RecurringFires` | mock_service/lib/trigger.py:93-96 | A recurring clock fires exactly when the time left is used up, and then has its interval to go plus the time by which it was late. |
| `Triggers.RecurringRate` | mock_service/lib/trigger.py:93-96 | Firings times interval never exceed the accumulated time. |
| `MockEngine.TakeMatching` | mock_service/lib/trigger.py:145-161 | Settles on the last matching event and removes the first equal one; nothing is taken exactly if nothing matches; nothing else is lost. |
| `MockEngine.MockService.SetDatapoint` | mock_service/mock/mockservice.py:179-191 | Feeds the broker and removes at most one pending echo of that path. |
| `MockEngine.MockService.SetValue` | mock_service/lib/datapoint.py:40-45 | Only a change of value reaches the broker. |
| `MockEngine.MockService.CheckTrigger` | mock_service/lib/trigger.py:89-161 | Active exactly if the clock fires or a matching event is pending; the event it takes is the only one consumed. |
| `MockEngine.MockService.RunAction` | mock_service/lib/action.py:86-136 | The value that the resolver gives for the event and the old value, if any, is set, and fed if it is another; an animation made from them drives the datapoint; only echoes of its own feed disappear. |
| `MockEngine.MockService.TryBehavior` | mock_service/lib/behaviorexecutor.py:45-59 | A behavior runs exactly if its condition holds and its trigger is active, and then receives the event that was consumed. |
| `MockEngine.MockService.RunDatapoint` | mock_service/lib/behaviorexecutor.py:44-59 | The first ready behavior of a datapoint runs and no other; those before it were only checked. |
| `MockEngine.MockService.Execute` | mock_service/lib/behaviorexecutor.py:40-59 | In its turn each datapoint runs its first ready behavior, if any, and no other, with the effect that its action has on the event consumed; the turns account for every event and every value fed. |
| `MockEngine.TurnsOf` | mock_service/lib/behaviorexecutor.py:44-59 | The turns of an execution on the fields of the datapoints: the first behavior whose condition holds and whose clock runs out or event is pending is run on that event; triggers before it are watched where their condition holds; nothing else changes. |
| `MockEngine.MockService.TickAnimation` | mock_service/mock/mockservice.py:128-130 | An animation that is not done advances and drives its datapoint. |
| `MockEngine.MockService.TickDatapoint` | mock_service/mock/mockservice.py:126-130 | All animators of a datapoint advance, in order; it fails exactly if an animation action has no animator. |
| `MockEngine.PlayedIs` | mock_service/mock/mockservice.py:125-130 | After the animators of a datapoint have been ticked each that was not done has advanced by one tick, and the last that plays has left its value. |
| `MockEngine.MockService.TickAnimators` | mock_service/mock/mockservice.py:125-130 | The same for all datapoints. |
| `MockEngine.MockService.MainTurn` | mock_service/mock/mockservice.py:121-130 | In its turn each datapoint runs its first ready behavior, if any, then all animators advance, failing exactly if one is missing; events pending before are, as multisets, those pending after, those received by executed actions, and echoes removed for own feeds. |

## Left out

- SeatController.Controller.FrameRead: failed reads, their CanError notification and the end of the thread after some of them are not modelled; a frame handled during a close may be one of any number, where the source handles at most one more.
- SeatController.Controller.HandleSecuStat: status records arrive decoded; packing, unpacking and the generated range functions are not part of this model, nor are debug output and the learned-mode warnings with their static flag, which change nothing else.
- SeatController.Controller.SetPosition: the magic number and null checks of contexts are not part of this model.
- Landing.ExactLanding: like all results on the closed loop, for cycles in which nobody gets in at the sleep of the control loop; what can happen otherwise is the subject of `ControllerRun` and `ControllerFrames`.
- TornWrites.TornWriteSafety: field accesses are taken to be atomic and ordered as written; the compiler and the memory may reorder them.
- SeatEngine.StepIsShare: delays are taken from 0..20961 ms, for which the increment does not overflow an int; frames with other CAN ids, which the simulator ignores, do not occur, and start positions outside 0..100 percent are not considered.
- Feeder.DataBrokerFeeder.BuildRequest: names that share an id overwrite each other in an order that is not specified; the value per id is stated for distinct ids only. The run model records sends by name.
- FeederThread.Thread.Execute: waiting on the condition variable is not modelled, so nothing is claimed about when a batch is sent; the order of events is given instead.
- FeederRun.RunRefines: an RPC is an outcome and a reply; a successful call whose reply lists errors for single datapoints counts as acknowledged, as in the code.
- EndToEnd.MoveReachesBroker: the seat location check of Move, the mapping of error codes to gRPC statuses and the subscriber's path to set_position are left out. A notification and its feed are one step.
- Animator.ValueAnimator.Advance: reals instead of floats, at least two values, positive duration and non-negative ticks.
- MockEngine.MockService.MainTurn: reloading of mocks, exceptions raised by conditions, resolvers or RPCs, conditions that query the broker, and events that arrive during a turn are left out.
- MockEngine.TakeMatching: which of several matching events is taken is stated as the code has it, the order of the remaining values is not interpreted further.
- Triggers.RecurringRate: equality of triggers, behaviors and actions is left out.
- Sockets, ioctl, thread creation and joining, libc hooking, environment parsing: they connect the modelled code to the operating system and decide nothing about its states.
- Concurrent calls of set_position from the gRPC and subscriber threads: the source has no lock for them.
- HVAC service: passes a desired temperature and an air-conditioning flag on to the broker without keeping them; it shares no state with the seat or the feeder.
- The mock service's GUI, example clients, generated code, scripts and container files: they present, call, build or start the modelled services and hold no rules of their own.
