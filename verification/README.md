# Vehicle telemetry ECU: a verified model

The repository simulates a vehicle telemetry control unit three times over: a
host simulator on POSIX threads (`src/ecu_sim.c`, `src/queue.c`), an lm3s build
on FreeRTOS (`src/tasks/`, `src/printf.c`) and an STM32 build on FreeRTOS
(`firmware/src/`). Each is a pipeline: a sensor makes samples, a processor turns
them into telemetry frames, a logger prints them, and a watchdog waits for
everyone's heartbeat, while an operator injects faults and resets.

This project models that pipeline in Dafny and proves what holds of it in every
run, under every interleaving.

## How it is modelled

**The host simulator** (`HostModel.dfy`) is a machine of steps. Every thread has a
program counter; taking a mutex is a step of its own, and so is each stretch of
work that ends with giving one back; `++sensor_sequence`, which the source does
without a lock, is a load and a store. A run is any sequence of thread steps with
any clock readings, any reasons for a wait to end and any commands. Histories (samples made, items cleared, heartbeats recorded and checks of the
watchdog, what the counters stood at when they were last zeroed) are kept beside
the state, so that the laws also speak of runs with resets.

The machine's two queues are sequences and its heartbeats a map. The program has
ring buffers and arrays instead, and the project joins the two layer by layer:

- `MsgQueue.dfy` proves that a ring buffer of cells (head, tail and count over one
  block of storage) answers as a bounded first-in first-out queue, for any kind of
  cell, item size and capacity;
- `HostLayout.dfy` lays samples and frames out as machine words, one for each
  member of the structs, and the heartbeats as the two arrays of the source;
- `HostBuffers.dfy` is an object over two such rings and the two arrays, whose
  `Valid()` says which samples, frames and heartbeats they stand for;
- `EcuSim.dfy` is the simulator over these buffers, with its other fields updated in
  place; what it answers and leaves behind is the machine's step, and
  `HostSimulation.dfy` runs it under any schedule and finds the machine's state, with
  all that is proved of it.

What a run does is also told from outside the machine: `HostRounds.dfy`,
`HostLooks.dfy`, `HostCommands.dfy` and `HostSamples.dfy` read off a run what its steps
show (the modes read, the samples made, the looks of the watchdog, the commands
accepted) and prove that this is what the program promises: four samples in a round of
overflow, a look at each of the three tasks in each round of the watchdog, every part of
a reset in its order, each sample made under the fault mode asked for last.
`FirmwareRounds.dfy` and `Lm3sRounds.dfy` do so for the other two builds.

**The two FreeRTOS builds** (`Lm3sTasks.dfy`, `FirmwareTasks.dfy`) are machines too.
Queue, semaphore and event-group calls are atomic steps with their documented
meaning; a call that would block leaves its task where it is. `Lm3sApp.dfy` and
`FirmwareApp.dfy` are the two applications in place, with their statistics, queues
and event bits as fields, each turn of a task proved equal to a step of the machine. `Lm3sFlow.dfy`,
`FirmwareLog.dfy` and `HostLog.dfy` say of the three pipelines which samples end up
in the log and in what order.

**The arithmetic** (`Lcg.dfy`, `Isqrt.dfy`, `Lm3sData.dfy`, `FirmwareData.dfy`) is
done on integers, with every 32-bit and 16-bit conversion written out and with C's
truncating division. The loop of the square root and the clamped accumulator are
methods and classes that work in place.

**The two formatters** (`MiniPrintf.dfy`, `Console.dfy`) write their buffers in place
and are each proved against a pure formatter (`Format.dfy`), in which the argument
of `%f` is an exact real. `PrintfAgreement.dfy`
says when they print the same; `TelemetryLine.dfy` and `Lm3sLine.dfy` what the two
telemetry lines look like; `LogReader.dfy` and `Lm3sReader.dfy` what can be read back
from them; `FormatMeaning.dfy` what each directive of a format means.

**The recognisers** are the UART line assembler (`UartLines.dfy`) and the heartbeat
monitor (`Heartbeat.dfy`), objects that remember their input as a ghost history.

## Where the code and its documentation differ

The model follows the code.

- `src/tasks/processing_task.c:57-61` promises rpm = 700 + 17.5 temp + 125 mag; the
  code (62-64) divides the two terms by a further 10 and 100.
- `src/tasks/sensor_task.c:42` gives the temperature a period of about 6.28 s; the code's is
  6.3 s (46).
- `firmware/src/main.c:170` announces another magnitude than the mean of the three
  absolute values the code computes (171-174).
- `REPORT.md:410` says a stalled processor blocks indefinitely; the code waits 750 ms
  (`src/ecu_sim.c:248`) and 450 ms (`firmware/src/main.c:363`) and goes on.
- `REPORT.md:165` gives the overflow burst as 3 items; on the host it is 4
  (`src/ecu_sim.c:205`), in the STM32 build 3 (`firmware/src/main.c:317`).
- `%f` should round (section 7.21.6.1 of ISO C11); `src/printf.c:82-95` loses the carry
  when the fraction rounds up to a whole unit, so 1.96 with one decimal prints "1.0".
- `REPORT.md:154` describes the host watchdog as comparing beat counters; the code
  compares the time of the last beat with a deadline (`src/ecu_sim.c:299-304`).

## Model

| member | source | states |
|---|---|---|
| Fifo.FirstInFirstOut | src/queue.c:78-122 | as long as nothing clears the queue, what was there followed by what was accepted is what came out followed by what is there: first in, first out, nothing lost or made up |
| Fifo.NeverOverfull | src/queue.c:85-91 | no history of calls puts more items into a queue than its capacity |
| Fifo.AfterBoth | src/queue.c:78-154 | what a history of calls leaves behind is what its second part leaves of what its first part left |
| MsgQueues.WrapIsModulo | src/queue.c:87 | going round the ring by comparison is the source's remainder by the capacity |
| MsgQueues.OtherSlotsKept | src/queue.c:86 | bytes written inside one slot leave every other slot as it was, for any item size and capacity |
| MsgQueues.WindowGrows | src/queue.c:86-88 | overwriting the slot at the tail appends one item to those held |
| MsgQueues.WindowShrinks | src/queue.c:116-118 | the slot at the head is the oldest item, and moving the head on leaves the others |
| MsgQueues.MemCpy | src/queue.c:86 | the copied range equals the source range and no other byte changes |
| MsgQueues.MsgQueue.Create | src/queue.c:38-65 | null exactly for a zero item size, a zero capacity or a system that does not grant memory, mutex or condition; otherwise a fresh, valid, empty queue |
| MsgQueues.MsgQueue.Push | src/queue.c:78-94 | refuses exactly when full and then changes nothing; otherwise appends the item's bytes, touching only the slot at the old tail; tail stays (head + count) % capacity |
| MsgQueues.MsgQueue.TakeFirst | src/queue.c:116-118 | copies out the oldest item and leaves the rest in order |
| MsgQueues.MsgQueue.Count | src/queue.c:124-132 | the number of items held |
| MsgQueues.MsgQueue.Clear | src/queue.c:144-154 | the queue is empty and valid |
| MsgQueues.MsgQueue.Serve | src/queue.c:78-154 | one call gives the answer, and leaves the contents, of a bounded first-in first-out queue |
| MsgQueues.MsgQueue.ServeAll | src/queue.c:78-154 | any history of calls gets the answers of a bounded first-in first-out queue: the byte ring refines it |
| MsgQueues.MsgQueue.Pop | src/queue.c:96-122 | a waiting pop, with any calls of other threads during its waits, gives the result, the item and the contents of the waiting specification; the destination is untouched unless it succeeds |
| MsgQueues.PopSucceedsIff | src/queue.c:103-114 | a pop succeeds exactly when after some number of waits, none of them timed out, the calls of the other threads have left the queue nonempty; a timed-out wait gives up even if an item has arrived |
| MsgQueues.PopFoundItem | src/queue.c:103-121 | it then takes the oldest item at the first such moment and leaves the rest |
| HostTime.DeadlineIsExact | src/queue.c:25-36 | the deadline is exactly the timeout after the clock reading, to the nanosecond, whatever its sign |
| HostTime.DeadlineNormalisedIff | src/queue.c:29-34 | the deadline is normalised again exactly when the timeout is non-negative or its part of a second can be paid from the nanoseconds |
| HostTime.DiffOfDeadline | src/ecu_sim.c:42-47 | measured back in milliseconds, a deadline is its non-negative timeout away |
| HostTime.DiffRounds | src/ecu_sim.c:42-47 | the measured age is the true age rounded down when the nanoseconds have advanced and rounded up otherwise |
| HostTime.OverdueIff | src/ecu_sim.c:299-304 | the exact true ages at which a heartbeat is overdue: never before the deadline has passed, always one millisecond after it |
| HostLocks.LocksAlwaysAgree | src/ecu_sim.c:64-100 | in every run each mutex is owned by exactly the thread inside one of its critical sections |
| HostLocks.OneHolder | src/ecu_sim.c:154-192 | mutual exclusion: two threads inside critical sections of one mutex are the same thread |
| HostLocks.Nesting | src/ecu_sim.c:154-184 | a thread that wants a mutex while holding one holds `state_mutex` and wants a queue's: there is no other nesting |
| HostLocks.AsleepHoldsNothing | src/queue.c:101-114 | a thread asleep on a queue's condition owns no mutex at all |
| HostLocks.WaitChainEnds | src/ecu_sim.c:154-184 | a chain of threads waiting for each other's mutexes is at most two long |
| HostLocks.NoWaitCycle | src/ecu_sim.c:402-445 | in no run is there a cycle of threads, of any length, each waiting for a mutex the next one owns |
| HostLocks.SomeOwnerCanMove | src/ecu_sim.c:402-445 | whenever a thread is blocked, some owner of a mutex is not |
| HostCounts.CountsHold | src/ecu_sim.c:154-290 | in every run, resets and stops included: samples counted and dropped and in flight make up the numbers handed out since the counters were zeroed; the queues conserve; frames counted and dropped and in flight make up the samples taken |
| HostCounts.Conservation | src/ecu_sim.c:154-290 | without a reset and before a stop: `sensor_sequence` = samples + drops + in flight, accepted = popped + queued, popped = frames + drops + in flight, accepted frames = taken by the logger + queued |
| HostCounts.ControlResetCounts | src/ecu_sim.c:402-414 | zeroing the counters while workers are mid-flight and clearing the queues keep all the laws |
| HostCounts.SamplesDroppedIffFull | src/ecu_sim.c:206-210 | in every run a sample is dropped, changing nothing, exactly when 24 are queued, and otherwise joins the end |
| HostCounts.FramesDroppedIffFull | src/ecu_sim.c:252-255 | the same of a frame |
| HostRounds.BeatBeforeEachRound | src/ecu_sim.c:196-290 | in every run each worker records one heartbeat before each test of its loop, so one between any two rounds, and none besides |
| HostRounds.RoundsMakeTheirSamples | src/ecu_sim.c:201-228 | at the end of a round the sensor has numbered exactly four samples for each overflow it read and one for every other mode; a stop can only leave some out |
| HostRounds.FailureLinesWritten | src/ecu_sim.c:217-219 | the line about an invalid reading is written in exactly the rounds that read a sensor failure with the last number divisible by ten |
| HostRounds.ProcessorRoundsEnd | src/ecu_sim.c:238-243 | in every run each round of the processor pops one sample or gives up after one wait that timed out |
| HostRounds.StallsInjected | src/ecu_sim.c:245-249 | each sample popped is judged once, and the stalls announced are, in order, the samples judged under a stall whose number is divisible by eight |
| HostRounds.LoggerRoundsEnd | src/ecu_sim.c:267-273 | each round of the logger takes one frame or gives up after one wait that timed out |
| HostCommands.FaultIsAsked | src/ecu_sim.c:416-434 | in every run the fault mode is the one asked for last, none before any, and the snapshot shows the same |
| HostCommands.CallsDoTheirParts | src/ecu_sim.c:388-414 | a reset or stop has done, wherever it is, just the parts behind it, each at a moment of its own and in order |
| HostCommands.ResetDoesEverything | src/ecu_sim.c:402-414 | between the call of a reset and its return the counters were zero, then the numbering started again, then one queue was empty, then the other, then the heartbeats were forgotten |
| HostCommands.StopDoesEverything | src/ecu_sim.c:388-400 | a stop that has returned has emptied both queues and then seen every worker end |
| HostCommands.SnapshotShowsMoments | src/ecu_sim.c:436-445 | a snapshot makes one report, of three moments of the call in order: the counters and fault mode of the first, the samples queued at the second, the frames queued at the third |
| HostCommands.DepthsWereReal | src/ecu_sim.c:154-184 | each depth the workers leave in the snapshot is the length its own queue had at some moment |
| HostSamples.SamplesUnderTheirMode | src/ecu_sim.c:104-128 | in every run each sample was made at a moment of its own, with the number the sensor then carried: a failed sensor's sample exactly if the mode then, the one asked for last, was a sensor failure, otherwise a working sensor's with the readings of its number |
| HostSnapshot.OthersKeepCounters | src/ecu_sim.c:436-445 | while a snapshot holds `state_mutex` no other thread changes the counters it has copied |
| HostSnapshot.SnapshotsHold | src/ecu_sim.c:436-445 | the copy keeps up with the counters until the depth is read, and every report made is consistent with its depth |
| HostSnapshot.ReportsConsistent | src/ecu_sim.c:436-445 | without a reset, frames + drops + queued samples of every report are within one of the samples counted, from above and from below, although the queues keep moving |
| HostSnapshot.ReportWithResets | src/ecu_sim.c:402-445 | with resets the same holds of the report being made, up to exactly the samples accepted before the last zeroing and neither taken before it nor cleared |
| HostLog.LogLawHolds | src/ecu_sim.c:196-290 | in every run, resets included, everything from the log back to the sensor is a subsequence of the samples made, each as a sample or as the frame computed from it |
| HostLog.LogIsSubsequence | src/ecu_sim.c:262-290 | in every run the log is a subsequence of the samples made: each logged frame is what the processor computes from one sample, later than that of the frame before, and each sample was made under the fault mode of its moment |
| HostLog.LogInOrder | src/ecu_sim.c:206-225 | without a reset, whatever the fault changes, logged sequence numbers strictly increase and each logged frame is computed from the one sample generated with its number |
| Subsequences.Append | src/ecu_sim.c:104-128 | a sample made last joins the end of the pipeline's subsequence |
| Subsequences.Lose | src/ecu_sim.c:186-192 | dropping an item or clearing a queue leaves a subsequence |
| Subsequences.Become | src/ecu_sim.c:130-150 | turning a sample into its frame keeps its place |
| Subsequences.Start | src/ecu_sim.c:262-290 | the log, the front of the pipeline, is a subsequence of the samples made, with its places |
| HostWatchdog.WatchHolds | src/ecu_sim.c:292-325 | in every run, resets included: the time the watchdog reads is the last one the task recorded, every check judged a recorded time, and the warnings counted and under way are the checks that found a heartbeat overdue since the counters were zeroed |
| HostLooks.RoundsAreComplete | src/ecu_sim.c:312-325 | whenever the watchdog is about to report in itself, each round it has begun has looked once at the sensor, then at the processor, then at the logger |
| HostLooks.BeatsAreLast | src/ecu_sim.c:78-100 | in every run the heartbeat on record for a task is the one it recorded last, or none if it has recorded none since the last reset |
| HostLooks.LookFindsLastBeat | src/ecu_sim.c:292-300 | a look compares exactly that heartbeat, and comes to nothing exactly when there is none |
| HostLooks.LateRoundsAreWarned | src/ecu_sim.c:300-320 | without a reset the warnings, the one under way included, are at least the looks that found the sensor or the processor 901 ms old or the logger 1201 ms old, and at most those that found them older than 900 ms and 1200 ms |
| HostLooks.OverdueLinesWritten | src/ecu_sim.c:302-309 | in every run the tasks the log names as overdue are, in order, those whose checks found them so |
| HostWatchdog.LoggedAmountIsPositive | src/ecu_sim.c:305-311 | in every run the overdue amount logged is at least 1 ms and belongs to a heartbeat its task recorded and let grow too old |
| HostStop.RankFalls | src/ecu_sim.c:388-400 | once `stop` is set, every step of a thread that no mutex blocks brings it nearer its end, and no step of another thread takes it further away |
| HostStop.ThreadEnds | src/ecu_sim.c:196-325 | once `stop` is set a thread has ended after 25 of its own unblocked steps, whatever the others do, if a wait on an empty queue ends by its timeout |
| HostStop.StopReturns | src/ecu_sim.c:388-400 | so once every thread has had its steps, the joins of `ecu_stop` return |
| HostValues.SampleValues | src/ecu_sim.c:104-128 | whatever sine is, a sample is in its nominal ranges, or exactly the sentinel when the sensor has failed |
| HostValues.MagnitudeValues | src/ecu_sim.c:132-134 | the magnitude of a nominal sample lies in 9.6..10.02 and that of the sentinel in 7.27..7.28 |
| HostValues.FrameValues | src/ecu_sim.c:130-150 | rpm ranges of nominal and failed frames; the throttle's upper clamp always fires, so every frame shows 100 percent |
| HostValues.LoggedFramesUnderTheirMode | src/ecu_sim.c:104-150 | in every run each logged frame shows fault code 1 exactly if its sample was made under a sensor failure, the readings of its number, and the engine speed and throttle that follow from the readings it shows |
| HostValues.LoggedValues | src/ecu_sim.c:262-290 | in every run every frame logged shows throttle 100, and 155 degrees and an rpm of 4321..4322.5 exactly if its sample was made under a sensor failure, otherwise 64..80 degrees and 3020..3352.5 |
| HostLayout.SampleReadsBack | src/queue.c:86 | the words copied into the ring for a sample give that sample back |
| HostLayout.FrameReadsBack | src/queue.c:116 | and those for a frame, its sample included, that frame |
| HostLayout.SampleJoins | src/queue.c:86-88 | the words of a sample at the end of the ring are that sample at the end of the queue |
| HostLayout.FrameJoins | src/queue.c:86-88 | the same for a frame |
| HostLayout.BeatRecorded | src/ecu_sim.c:78-92 | writing a task's two array elements records its heartbeat and no other |
| HostLayout.OwnBeatUnwatched | src/ecu_sim.c:78-92 | the watchdog's own elements are none of the heartbeats it watches |
| HostLayout.NoBeats | src/ecu_sim.c:94-100 | arrays with every flag cleared record no heartbeat |
| HostBuffers.Buffers.constructor | src/ecu_sim.c:337-373 | new rings and arrays hold no sample, frame or heartbeat |
| HostBuffers.Buffers.PushSample | src/ecu_sim.c:207-210 | copying a sample's words into the ring is a push on the bounded queue of samples: refused exactly when full |
| HostBuffers.Buffers.PushFrame | src/ecu_sim.c:252-255 | the same for a frame |
| HostBuffers.Buffers.PopSample | src/ecu_sim.c:239-243 | the words copied out of the ring are the oldest sample, or the ring is empty and nothing changes |
| HostBuffers.Buffers.PopFrame | src/ecu_sim.c:266-275 | the same for a frame |
| HostBuffers.Buffers.ClearSamples | src/ecu_sim.c:388-414 | a cleared ring stands for no sample; the frames stay |
| HostBuffers.Buffers.ClearFrames | src/ecu_sim.c:388-414 | a cleared ring stands for no frame; the samples stay |
| HostBuffers.Buffers.SampleCount | src/ecu_sim.c:154-184 | the ring's count is the number of samples queued |
| HostBuffers.Buffers.FrameCount | src/ecu_sim.c:154-184 | the ring's count is the number of frames queued |
| HostBuffers.Buffers.Record | src/ecu_sim.c:78-92 | one report changes the arrays to stand for that task's new time and nothing else |
| HostBuffers.Buffers.RecordOwn | src/ecu_sim.c:78-92 | the watchdog's own report leaves every watched heartbeat |
| HostBuffers.Buffers.ForgetBeats | src/ecu_sim.c:94-100 | after a reset the arrays stand for no heartbeat |
| HostBuffers.Buffers.FindBeat | src/ecu_sim.c:292-304 | the array elements give the time recorded last, or that there is none |
| EcuSimObject.EcuSim.constructor | src/ecu_sim.c:337-386 | a created and started simulator, with its empty rings and arrays, stands for the machine's initial state |
| EcuSimObject.EcuSim.Step | src/ecu_sim.c:375-386 | any thread's turn on the rings, the arrays and the fields keeps them valid and leaves what they stand for in the state of the machine's step |
| HostSimulation.Simulate | src/ecu_sim.c:375-386 | under any schedule the object on its rings and arrays ends in the machine's state, so mutual exclusion, conservation, consistent reports, the order of the log and the laws of the warnings hold of it |
| Lcg.FullPeriod | src/tasks/sensor_task.c:12-16 | from every state the generator is back after k steps exactly when 2^32 divides k |
| Lcg.LowBitsStep | firmware/src/main.c:124-127 | one step is a bijection on the low j bits |
| Lcg.LowBitsIndependent | firmware/src/main.c:124-139 | the low j bits evolve on their own: states that agree on them agree for ever |
| Lcg.ClosedForm | src/tasks/sensor_task.c:12-16 | k steps of wrapping arithmetic are one affine map modulo 2^32 |
| Lcg.SumDivisibility | src/tasks/sensor_task.c:14 | the powers of two dividing the generator's geometric sum are those dividing its length |
| Isqrt.Isqrt32 | src/tasks/processing_task.c:11-21 | ends for every argument; the result is the floor of the square root, except for 2^32 - 1, where `x + 1` wraps and the loop divides by zero |
| Isqrt.NewtonAboveRoot | src/tasks/processing_task.c:18 | a Newton step from any positive guess never lands below the root |
| Isqrt.NoOverflow | src/tasks/processing_task.c:18 | `x + n / x` exceeds n + 1 for no guess the loop can hold |
| Isqrt.FloorRootUnique | src/tasks/processing_task.c:11-21 | r*r <= n < (r+1)*(r+1) determines r |
| Isqrt.FloorRootIsRoot | src/tasks/processing_task.c:11-21 | the root counted up one at a time, to which the Newton loop is compared, is the floor root |
| Lm3sData.SampleRange | src/tasks/sensor_task.c:31-64 | every sample, for any fault, clock and generator state, is nominal (20.0..80.0 C, axes in their bands) or exactly the failure sentinel |
| Lm3sData.TemperatureTriangle | src/tasks/sensor_task.c:43-54 | the temperature is 20.0 degrees in the first of 63 phases of 100 ms and 80.0 in the thirty-third, rises by 1.9 a phase before and falls by as much after, and comes again after 6.3 seconds |
| Lm3sData.NoiseSpread | src/tasks/sensor_task.c:56-63 | the accelerations spread the low halves of three successive generator states evenly over -1.00..1.00 and 9.60..10.00, rounded down |
| Lm3sData.SensorTask.Produce | src/tasks/sensor_task.c:31-64 | three generator calls in place give the sample of the specification; a failed sensor leaves the generator alone |
| Lm3sData.SensorTask.LcgRand | src/tasks/sensor_task.c:12-16 | the state advances once and is returned |
| Lm3sData.MagnitudeDomain | src/tasks/processing_task.c:40-47 | the sum of squares of any three int16 values is exact and inside the square root's domain; producible samples also keep int32 |
| Lm3sData.MagnitudeRange | src/tasks/processing_task.c:45-47 | magnitude 960..1009 for nominal samples, 727 for the sentinel |
| Lm3sData.SpeedDeltaRange | src/tasks/processing_task.c:52 | a nominal sample moves the speed by at most 2, the sentinel by exactly -25 before clamping |
| Lm3sData.RpmRange | src/tasks/processing_task.c:62-64 | no conversion changes the rpm of a producible sample; its formula and its range |
| Lm3sData.ThrottleRange | src/tasks/processing_task.c:67-71 | no clamp or conversion changes the throttle of a producible sample; its formula and its range |
| Lm3sData.FrameRange | src/tasks/processing_task.c:73-88 | every frame is in range, with fault code and validity in step, and invalid for a sentinel whatever the fault flag says by then |
| Lm3sData.FrameFigures | src/tasks/processing_task.c:40-88 | rpm and throttle follow from the readings shown, with the root of their squares rounded down; valid exactly up to 75.0 degrees while no sensor failure is on |
| Lm3sData.SpeedFigures | src/tasks/processing_task.c:52-55 | the accumulator changes by a tenth, cut off, of what that root exceeds 980 by, and stays in 0..2000 |
| Lm3sData.ProcessingTask.Process | src/tasks/processing_task.c:40-88 | the task's body in place, with the Newton square root, updates the accumulator and fills the frame as specified |
| Lm3sData.SpeedRunBounded | src/tasks/processing_task.c:53-55 | over any run the accumulator stays in 0..2000 |
| Lm3sData.SpeedRunDrift | src/tasks/processing_task.c:52-55 | along a run it drifts by at most 2 for each nominal sample and 25 for each sentinel |
| Lm3sData.FailureDrains | src/tasks/processing_task.c:52-55 | in a sustained failure it is exactly the starting speed less 25 a sample, stopping at zero |
| Lm3sData.FailureStopsWithin80 | src/tasks/processing_task.c:52-55 | eighty failed samples after any history bring it to zero and further ones keep it there |
| Lm3sTasks.HandshakeHolds | src/tasks/sensor_task.c:66-68 | in every interleaving: lost wake-ups - drops = queued - token - in sensor - in processor, and never more wake-ups under way than samples queued |
| Lm3sTasks.HandshakeConsequences | src/tasks/processing_task.c:31-38 | drops never exceed lost wake-ups, the receive after a wake-up always finds a sample so its failure branch is dead, and at rest the queue holds exactly the surplus |
| Lm3sTasks.BacklogNeverClears | src/ipc/ipc.c:47-57 | a backlog caused by lost wake-ups shrinks only by later drops, however the run goes on |
| Lm3sTasks.DataStaysInRange | src/tasks/processing_task.c:26-95 | in every run all data anywhere is producible or in range and the accumulator is what the processed samples make it |
| Lm3sTasks.PrintedFramesInRange | src/tasks/telemetry_task.c:16-47 | in every run printed frames are in range, the speed is in 0..2000, and zero once the last eighty processed samples have failed |
| Lm3sFlow.FlowHolds | src/tasks/processing_task.c:30-94 | in every run accepted samples are those processed, under way and queued, in order; sent frames likewise; and the frames sent are, in order, among those computed |
| Lm3sFlow.PrintedFrames | src/tasks/telemetry_task.c:14-56 | in every run printed frames are, in order, computed from processed samples, and the speed each shows is that of all samples processed up to its own, those of lost frames included |
| Lm3sFlow.OneMoreComputed | src/tasks/processing_task.c:40-88 | one more processed sample extends the accumulator's run and adds its frame |
| Lm3sRounds.RoundsHold | src/tasks/sensor_task.c:23-71 | in every run each kick taken brings one sample, and each sample one report |
| Lm3sRounds.OfferedWasBuilt | src/tasks/sensor_task.c:31-66 | in every run each sample offered to the queue was built at a moment of its own: with that moment's clock, the sentinel exactly under the fault set last, otherwise the triangle and the noise of the generator after three steps for each earlier working sample |
| Lm3sRounds.AcceptedWereOffered | src/tasks/sensor_task.c:66 | the samples accepted are those offered, in order, less the drops |
| Lm3sRounds.SamplesDroppedIffFull | src/ipc/ipc.c:5-6 | a sample is dropped, changing nothing, exactly when ten are queued, and otherwise joins the end |
| Lm3sRounds.FramesDroppedIffFull | src/tasks/processing_task.c:90 | the same of a frame |
| Lm3sRounds.FramesUnderTheirFault | src/tasks/processing_task.c:40-88 | in every run each frame was computed at a moment of its own from the sample of its place, valid by the fault set last before |
| Lm3sRounds.SpeedsFollow | src/tasks/processing_task.c:24-55 | in every run the speed of each frame is that of the frame before, zero for the first, changed by its own sample and kept in 0..2000 |
| Lm3sRounds.PrintedFramesTellTheRun | src/tasks/telemetry_task.c:14-47 | in every run each printed frame shows a sample built at some moment of the run, and figures computed from it at another |
| Lm3sTasks.BeatsCountWork | src/tasks/processing_task.c:90-93 | in every run the processing and telemetry tasks have set their bit once for each sample processed and frame printed, less the one under way |
| Lm3sTasks.HealthyMeansWork | src/tasks/health_monitor_task.c:18-31 | healthy verdicts never outnumber the frames printed or the samples processed |
| Lm3sApp.App.constructor | src/ipc/ipc.c:45-80 | new queues, semaphores and event bits are in the machine's initial state |
| Lm3sApp.App.BuildSample | src/tasks/sensor_task.c:31-64 | building a sample advances the generator in place as in the machine |
| Lm3sApp.App.RunSensor | src/tasks/sensor_task.c:18-73 | the sensor task's turn in place is the machine's |
| Lm3sApp.App.ProcessSample | src/tasks/processing_task.c:40-88 | processing in place updates the accumulator and produces the machine's frame |
| Lm3sApp.App.RunProcessor | src/tasks/processing_task.c:26-95 | the processing task's turn in place is the machine's |
| Lm3sApp.App.RunOutput | src/tasks/telemetry_task.c:10-57 | the telemetry task's turn in place is the machine's |
| Lm3sApp.App.Step | src/ipc/ipc.c:33-39 | any turn, timer tick, fault change or end of a wait is one step of the machine |
| Lm3sApp.Simulate | src/ipc/ipc.c:45-80 | under any schedule the object ends in the machine's state, so the handshake law, the ranges, the heartbeat counts and the flow of samples and frames hold of it |
| Heartbeat.BitMeansBeat | src/tasks/health_monitor_task.c:20-25 | a bit is set exactly when its task has reported in since the last healthy verdict or reset: timeouts lose nothing |
| Heartbeat.HealthyMeansAllBeat | src/tasks/health_monitor_task.c:27-31 | between two healthy verdicts every monitored task has reported in |
| Heartbeat.HealthyBounded | firmware/src/main.c:394-414 | healthy verdicts never outnumber any task's reports, which are one ahead while its bit is set |
| Heartbeat.HealthyAtMostWaits | firmware/src/main.c:394-422 | healthy verdicts never outnumber the completed waits |
| Heartbeat.HealthMonitor.SetBit | src/tasks/sensor_task.c:71 | reporting in keeps the monitor's bits and counters in step with its history |
| Heartbeat.HealthMonitor.WaitBits | src/tasks/health_monitor_task.c:20-25 | all bits are cleared exactly when all are set |
| Heartbeat.HealthMonitor.Pass | src/tasks/health_monitor_task.c:18-60 | the three beat counts stay equal to the healthy verdicts, and verdicts plus warnings to the completed waits |
| Lm3sLine.PrintsLine | src/tasks/telemetry_task.c:19-47 | the format and its arguments give the line made of the frame's decimal, fixed-point and hexadecimal fields, for every frame |
| Lm3sLine.LineFits | src/tasks/telemetry_task.c:17 | every line fits the 200-byte buffer with its terminator |
| Lm3sLine.PrintFrame | src/tasks/telemetry_task.c:17-47 | the formatter leaves the whole line, terminated, and returns its length |
| Lm3sReader.LineReadsBack | src/tasks/telemetry_task.c:19-47 | the value under each label of the line reads back as that value of the frame, but for the sign of a temperature between -1.0 and 0 and of accelerations between -1.00 and 0 |
| FirmwareData.NominalPayloadRange | firmware/src/main.c:133-150 | ranges of temperature and axes for every sequence number |
| FirmwareData.FirstAxisIff | firmware/src/main.c:134-135 | the first axis separates exactly the residues of the sequence number modulo 256 |
| FirmwareData.PayloadEqualIff | firmware/src/main.c:129-150 | two fault-free payloads are equal exactly when their numbers agree modulo 3840 |
| FirmwareData.LeastPeriod | firmware/src/main.c:129-150 | so the least period of the fault-free stream is 3840 from any start, while the number does not wrap |
| FirmwareData.MakeSampleGood | firmware/src/main.c:129-162 | a sample is the nominal payload of its number, or invalid with the sentinel, and invalid exactly in the sensor fault |
| FirmwareData.MagnitudeRange | firmware/src/main.c:168-182 | magnitude 33..139 for nominal payloads and 420 for the sentinel, unchanged by the conversion |
| FirmwareData.DerivedRange | firmware/src/main.c:186-204 | no clamp and no wrap changes rpm, throttle or speed |
| FirmwareData.GoodFrameInRange | firmware/src/main.c:184-221 | valid frames have rpm 1114..1519, throttle 136..189, speed 66..278; invalid ones rpm 2735, throttle 330, speed 840 |
| FirmwareData.NominalPayloadOfNumber | firmware/src/main.c:124-150 | the temperature climbs by 0.6 degrees from 63.0 through thirty numbers; the axes are low bits of three successive generator states started from the next number |
| FirmwareData.GoodFrameFigures | firmware/src/main.c:166-221 | rpm, throttle and speed follow from a third of the sum of the absolute accelerations the frame shows, and the payload is that of its number or the sentinel |
| FirmwareTasks.FramesAlwaysGood | firmware/src/main.c:304-392 | in every run, across faults and resets, every sample is the one generated with its number and every frame anywhere is the one computed from the sample of its number |
| FirmwareTasks.CountsHold | firmware/src/main.c:90-100 | in every run, relative to the last reset: samples, drops, frames and faults counted, with the work in flight, make up what was made and taken, and both queues conserve: accepted items are those taken, queued and cleared, frames down to the lines printed |
| FirmwareTasks.WithoutReset | firmware/src/main.c:304-377 | without a reset `sensor_faults` is the invalid samples dequeued less one in flight, every number handed out is accounted for, and so is every frame counted: printed, in the logger or queued |
| FirmwareTasks.SignalsHold | firmware/src/main.c:264-268 | in every run each beat counter is its task's bit-settings since the counters were zeroed, one ahead between the counter and the bit, and `warnings` is the waits that ended without all bits, less the one not yet counted |
| FirmwareTasks.HealthyWithinBeats | firmware/src/main.c:394-423 | without a reset healthy verdicts never outnumber any task's beat counter, and with the warnings they make up the waits |
| FirmwareRounds.ModeIsAsked | firmware/src/main.c:73-82 | in every run the fault mode is the one set last, or none after a reset |
| FirmwareRounds.KicksBringTheirSamples | firmware/src/main.c:309-341 | whenever the sensor waits, it has reported in once for each kick and made three samples for each overflow it read and one for every other mode |
| FirmwareRounds.SamplesUnderTheirMode | firmware/src/main.c:129-162 | in every run each sample has the next number and is a failed sensor's exactly if the mode of its moment was a sensor fault, otherwise it has the payload of its number |
| FirmwareRounds.PrintedFramesUnderTheirMode | firmware/src/main.c:166-248 | in every run each printed frame is valid exactly if its sample was made under no sensor fault, and all it shows follows from its number |
| FirmwareRounds.FramesShowTheirTime | firmware/src/main.c:206-218 | in every run each frame, printed or on its way, shows the tick at which it was computed from the sample of its number |
| FirmwareRounds.StallsInjected | firmware/src/main.c:360-364 | each sample taken is judged once, and the stalls announced are, in order, those judged under a stall whose number is divisible by six |
| FirmwareRounds.SamplesDroppedIffFull | firmware/src/main.c:319-327 | a sample is dropped, changing nothing, exactly when six are queued, and otherwise joins the end |
| FirmwareRounds.FramesDroppedIffFull | firmware/src/main.c:366-374 | the same of a frame |
| FirmwareRounds.ResetDoesEverything | firmware/src/main.c:90-100 | between the call of a reset and its return the statistics were zero with no fault, then one queue was empty, then the other, then every bit was clear |
| FirmwareApp.BitsAfter | firmware/src/main.c:400-407 | what a report, the end of a wait and a reset do to the event bits agrees with their history |
| FirmwareApp.NextNumber | firmware/src/main.c:307-332 | the wrapping 32-bit number is the count of samples made, reduced |
| FirmwareApp.App.constructor | firmware/src/main.c:307 | a new application is in the machine's initial state |
| FirmwareApp.App.SetBit | firmware/src/main.c:264-268 | setting a bit keeps the event bits in step with their history |
| FirmwareApp.App.MakeNext | firmware/src/main.c:319-332 | the next sample has the next number and the fault mode of the moment |
| FirmwareApp.App.RunSensor | firmware/src/main.c:304-342 | the sensor task's turn in place is the machine's |
| FirmwareApp.App.RunProcessor | firmware/src/main.c:344-377 | the processor task's turn in place is the machine's |
| FirmwareApp.App.RunLogger | firmware/src/main.c:379-392 | the logger task's turn in place is the machine's |
| FirmwareApp.App.RunWatchdog | firmware/src/main.c:394-423 | a wait clears all bits when all are set and leads to a warning otherwise |
| FirmwareApp.App.RunDiagnostics | firmware/src/main.c:90-100 | zeroing the statistics, resetting the queues and clearing the bits are separate steps of the machine |
| FirmwareApp.Simulate | firmware/src/main.c:304-423 | under any schedule the object ends in the machine's state, so the frame ranges, the counts, the beats and the order hold of it |
| FirmwareLog.LogLawHolds | firmware/src/main.c:304-392 | in every run, resets included, everything from the log back to the sensor is a subsequence of the samples made, each as a sample or as the frame computed from it |
| FirmwareLog.LogIsSubsequence | firmware/src/main.c:379-392 | in every run, across resets and the wrap of the numbering, each printed frame is computed from one sample made, later than that of the frame before |
| FirmwareLog.LogInOrder | firmware/src/main.c:379-392 | the printed numbers strictly increase, across faults and resets, as long as fewer than 2^32 samples have been made |
| FirmwareLog.PrintedLinesReadBack | firmware/src/main.c:228-248 | in every run each printed line reads back as its frame, but for the sign of a horizontal acceleration strictly between -100 and 0 |
| Format.DigitsReadBack | src/printf.c:47-54 | printing in base 10 or 16, in either case, loses nothing and makes no leading zero |
| Format.DigitsOf64Bits | src/printf.c:41 | twenty places are enough, so the 32-byte digit buffers never overflow |
| Format.FieldShape | src/printf.c:18-35 | a field holds its text at its side and nothing but padding beside it |
| Format.LastDigitsValue | src/printf.c:86-95 | the fraction's digits, padded with zeros, read as its units |
| Format.NearestIff | src/printf.c:67-96 | `%f` prints the decimal nearest to its argument exactly when the fraction does not round up to a whole unit, and otherwise a number too small by one |
| Format.CarryLost | src/printf.c:82-95 | such an argument: 1.96 with one decimal is printed as "1.0" |
| MiniPrintf.PutC | src/printf.c:10-16 | counts the character always and stores it only before the terminator's place |
| MiniPrintf.PutsN | src/printf.c:18-35 | prints the string as a field of its width, padded on the proper side |
| MiniPrintf.DigitsBackwards | src/printf.c:47-54 | the loop stores the number's digits, least significant first |
| MiniPrintf.FmtUint | src/printf.c:37-65 | prints the number's digits as a field of its width |
| MiniPrintf.FmtFloat | src/printf.c:67-96 | prints the sign, the whole part and the fraction's digits, at most nine, of the magnitude |
| MiniPrintf.ReadSpec | src/printf.c:107-140 | the pointer walk reads the flags, width, precision and length modifier of the grammar and stops at the conversion |
| MiniPrintf.Convert | src/printf.c:142-203 | every conversion prints its piece and takes its argument |
| MiniPrintf.ConvertSigned | src/printf.c:143-153 | the sign comes before any padding and is taken off the width |
| MiniPrintf.MiniVsnprintf | src/printf.c:98-210 | returns the untruncated length (section 7.21.6.12 of ISO C11), stores its first size - 1 characters and a terminator, touches no other cell, and nothing at all when the size is 0 |
| Console.AppendChar | firmware/src/console.c:10-18 | stores and terminates while there is room and otherwise changes nothing |
| Console.AppendString | firmware/src/console.c:20-31 | appends as much of the string as fits |
| Console.AppendUnsigned | firmware/src/console.c:33-63 | appends the number's digits as a field of its width |
| Console.AppendSigned | firmware/src/console.c:65-81 | the sign comes first and leaves the whole width to the digits |
| Console.ReadSpec | firmware/src/console.c:137-158 | reads the flag, the wrapping width and the length modifier of the grammar |
| Console.Convert | firmware/src/console.c:160-211 | every conversion appends its piece and takes its argument |
| Console.ConsoleWritef | firmware/src/console.c:121-216 | any nonempty text is left as a C string cut to 255 characters; an empty one leaves the buffer as it was, without a terminator |
| PrintfAgreement.ParsersAgree | src/printf.c:107-140 | on directives without '-', precision or "ll" both engines read the same conversion |
| PrintfAgreement.RenderingsAgreeIff | firmware/src/console.c:160-211 | a conversion both know prints the same exactly when each signed value is non-negative or leaves no room for padding and no string is padded |
| PrintfAgreement.SignedAgreeIff | firmware/src/console.c:65-81 | the two treatments of a sign agree exactly when the value is non-negative or the width does not exceed its digits |
| PrintfAgreement.FormatsAgree | src/printf.c:98-210 | on the shared formats and arguments both engines print the same text |
| PrintfAgreement.BothEngines | firmware/src/console.c:121-216 | called alike they leave the same C string in their 256-byte buffers, whatever these held before |
| FormatMeaning.MiniReadsDirective | src/printf.c:107-140 | a directive written from its flags, width, precision, modifier and conversion is read as just these |
| FormatMeaning.ConsoleReadsDirective | firmware/src/console.c:137-158 | the same of the console, without '-' and precision |
| FormatMeaning.DirectivePrints | src/printf.c:98-210 | a directive prints its piece, and the rest of the format goes on with the arguments left |
| FormatMeaning.ConsoleDirectivePrints | firmware/src/console.c:121-216 | the same of the console |
| FormatMeaning.MiniSigned | src/printf.c:142-154 | signed conversions print the number in decimal in a field; a minus sign comes first and takes one place off the width |
| FormatMeaning.ConsoleSigned | firmware/src/console.c:65-81 | in the console the minus sign leaves the digits the whole width |
| FormatMeaning.MiniUnsigned | src/printf.c:155-173 | unsigned conversions print in decimal, or in hexadecimal of lower or upper case, without a leading zero, at the proper side of the field |
| FormatMeaning.ConsoleUnsigned | firmware/src/console.c:160-211 | the same of the console |
| FormatMeaning.MiniPointer | src/printf.c:174-180 | a pointer is "0x" and at least eight hexadecimal digits |
| FormatMeaning.MiniDouble | src/printf.c:67-96 | a double is its sign, its whole part in decimal, a point and its fraction to one place or the precision, at most nine |
| FormatMeaning.OtherConversions | src/printf.c:181-203 | strings, characters, the percent sign and unknown conversions, in both engines |
| TelemetryLine.PrintsLine | firmware/src/main.c:228-248 | the format and its arguments give the line made of the frame's fields, for every frame |
| TelemetryLine.LineFits | firmware/src/main.c:228-248 | every line fits the 256-byte buffer with its terminator |
| TelemetryLine.PrintFrame | firmware/src/main.c:228-248 | the console leaves the whole line, terminated |
| LogReader.MatchesFilled | report_assets/csv/parse_logs.py:28-31 | a pattern whose literals end the groups before them finds exactly the fields it was filled with |
| LogReader.MatchesLine | report_assets/csv/parse_logs.py:28-31 | the log pattern matches the line of a frame exactly when its temperature is above -1.0 degrees, and then finds its ten fields |
| LogReader.ReadsBack | report_assets/csv/parse_logs.py:28-37 | a line reads back exactly in that case, as its frame except for the sign of a temperature between -1.0 and 0 and of accelerations strictly between -100 and 0 |
| LogReader.LineIdentifiesFrame | firmware/src/main.c:228-248 | two frames, of any temperature, share a line exactly when they differ in nothing but those signs |
| UartLines.SplitLosesNothing | src/tasks/diagnostics_task.c:102-119 | the finished pieces and the unfinished one, put together with line ends, are the stream |
| UartLines.PiecesHaveNoEnds | src/tasks/diagnostics_task.c:106 | no piece and no unfinished piece contains a carriage return or a newline |
| UartLines.EndsFinishPieces | src/tasks/diagnostics_task.c:106 | there are as many pieces as carriage returns and newlines |
| UartLines.PiecesStandInStream | src/tasks/diagnostics_task.c:102-119 | the pieces and the unfinished one stand in the stream where they did |
| UartLines.Diagnostics.PollUart | src/tasks/diagnostics_task.c:102-119 | one poll dispatches exactly the commands its bytes complete, and keeps the unfinished piece, cut to 63 bytes |
| UartLines.Diagnostics.Receive | src/tasks/diagnostics_task.c:105-117 | the same for one byte |
| UartLines.Diagnostics.Finish | src/tasks/diagnostics_task.c:107-113 | the command handed over is the buffer's piece, read as a C string, whatever lies behind its terminator |
| UartLines.Diagnostics.Store | src/tasks/diagnostics_task.c:115-117 | a byte beyond the 63rd is ignored |
| UartLines.Session | src/tasks/diagnostics_task.c:102-119 | however a stream is divided into polls, the commands dispatched are those of the whole stream |
| UartLines.NulFreeCommands | src/tasks/diagnostics_task.c:107-113 | the commands of a stream without NUL bytes are its nonempty pieces, in order, each cut to 63 bytes |
| UartLines.LineDispatched | src/tasks/diagnostics_task.c:105-117 | a text entered at the start of a line and ended by a carriage return or a newline dispatches exactly that text, or its first 63 bytes |
| UartLines.NulEndsCommand | src/tasks/diagnostics_task.c:108 | a NUL among the first 63 bytes ends the command there |
| UartLines.EmptyLineDispatchesNothing | src/tasks/diagnostics_task.c:107 | a second line end, as in CR LF, dispatches nothing |

## Left out

- FreeRTOS kernel internals, priorities, time slicing and stacks: its queue, semaphore and event-group calls are taken as atomic steps.
- `xSystemEventGroup` of the lm3s build: its bits are set and never waited for in the modelled tasks.
- Input and output: semihosting, UART registers, the command tables and their replies, status and report texts, the console's line reader, start-up code.
- The text of the host's log lines: the log is the sequence of frames printed.
- HostValues.SampleValues: exact reals stand for doubles, and sine is a parameter of which only its bounds are used.
- HostValues.MagnitudeValues: exact reals stand for doubles, and the square root is a parameter of which only its square is used.
- HostValues.FrameValues: exact reals stand for doubles, so rounding is not modelled.
- HostValues.LoggedValues: the same.
- Wrap-around of the 64-bit and 32-bit event counters: they are unbounded in the model.
- Host beat counters: they are incremented under `beat_mutex` but read and zeroed under `state_mutex`, so they obey no conservation law; the beat times are modelled.
- The `last_` values of the snapshots: copies of the sample or frame counted last.
- HostCounts.Conservation: excludes resets and stops, because `ecu_reset` races with the unlocked `++sensor_sequence`; HostCounts.CountsHold states the laws with resets.
- HostSnapshot.ReportsConsistent: excludes resets, because work in flight is counted after the counters are zeroed; HostSnapshot.ReportWithResets states the exact surplus.
- HostLog.LogInOrder: excludes resets, because they restart the numbering; HostLog.LogIsSubsequence states the order without numbers for every run.
- FirmwareLog.LogInOrder: ends at the wrap of the 32-bit numbering, which repeats the numbers; FirmwareLog.LogIsSubsequence has no such limit.
- HostStop.ThreadEnds: that a mutex is granted in the end, and that a wait on an empty queue times out, is assumed of the scheduler and the clock.
- A second start after `ecu_stop`, `ecu_destroy` and null arguments.
- MsgQueues.MsgQueue.Create: the queue's name is left out, and what the system grants is a parameter.
- Locks of the queue inside `MsgQueues.MsgQueue`: its methods are the critical sections; HostModel has the locks.
- MsgQueues.MsgQueue.Pop: what ends each wait is a parameter, so how long a pop with spurious wake-ups can last is not stated (each wait computes a new deadline).
- The bytes of a struct: a sample or frame in a ring is one word for each of its members, and padding and the encoding of a word in bytes are not modelled.
- Delays: sleeping, and the waiting of an injected stall, take no step of their own; that a stall is announced is modelled.
- Clock readings of the host need not advance: every property holds for any readings.
- MiniPrintf.MiniVsnprintf: formats ending inside a conversion, the least long, arguments of another type than the conversion's, a width beyond int and `%f` of a magnitude of 2^64 or more are undefined in C and excluded.
- MiniPrintf.FmtFloat: its argument is an exact real, so the rounding of doubles, infinities and NaN are not modelled; with a `long` of 32 bits C defines the conversion only below 2^32.
- Format.NearestIff: speaks of exact reals for the same reason.
- Console.ConsoleWritef: excludes the same formats and arguments.
- The search of the pattern inside a longer line: it is matched from the start of the line.
- String helpers of `src/syscalls.c` and `firmware/src/libc_shim.c`, the report, PDF and graph generators.
