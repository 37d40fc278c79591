# Verified models of the Galaxy Tab S9 Ultra port

A Dafny model of the port's stateful drivers and of its NPU session locking, with
proofs over all inputs and all runs.  `dafny verify dfyconfig.toml` checks all of it.

| module | what it models |
|---|---|
| `GlinkFifo` | the shared-memory ring between the SoC and the secure processor, and its refinement of a plain queue |
| `NpuSession` | the lock and counter protocol by which client processes share and restart the NPU service |
| `ChargeThermal`, `LearnedCapacity`, `Sm5714Charger` | the switching charger: temperature states, learned full scale, arbitration of the battery path, OTG boost |
| `PpsLoop`, `Sm5440Pump` | the direct charger: request arithmetic, regulation loop, handover with the switching charger |
| `Stm32Bootloader`, `PogoUpdate` | firmware update of the pogo controller against a bootloader automaton that owns the flash |
| `SpHlosHeap` | the heap whose pages are lent to the secure processor |
| `FodPanel` | the fingerprint display mode over the panel's lifetime |
| `PenProximity` | pen proximity inferred from frames, silence and docking |
| `DerReader` | the reader of Gatekeeper replies, against a printer of them |
| `CTypes` | machine integers and kernel macros |

Drivers that change their fields in place are classes whose methods follow the
source's functions.  A method is proved equal to a function of the old state, its
inputs and the fate of its transfers; the lemmas then say what that function means
over whole runs, mostly against a second definition that does not mention it: a
plain queue, the history of readings or frames, a printer, a partition of the
pages.  An I2C, DSI, SCM or allocator call that may fail is either a
nondeterministic method or an input, so every contract covers every pattern of
failures.

The NPU protocol has no class: between any two statements of a client another
process or the service may act, so each statement is a step of a transition system
over any number of clients.  The ring has both forms: a class for the pipe
operations, and a transition system that lets the reader run between any two bytes
the writer stores.

## Where the code and its comments differ

The models follow the code.

- `kernel/drivers/sm5714_battery.c:483-487` says the arbitration keeps the poll from
  closing Q4 behind the direct charger.  `Sm5714Charger.PathLostExactly` gives the
  exact exception, a configure pass outside the global lock, and `ExposedExactly` the
  three ways one comes to be due: a poll that sees the thermal state change
  (`WarmPackClosesQ4`, `TakeoverWhileReducedIsLost`), leaving OTG with a supply attached
  (`OtgReturnClosesQ4`), and a handover between a decision and its pass
  (`TakeoverInTheGapIsLost`).
- `kernel/drivers/sm5714_battery.c:310-316` says full current returns only below
  42.0 C; the code accepts 42.0 C itself.
- `kernel/drivers/sm5440_direct.c:7-8` says every failure turns the pump off.  The
  hand-back ignores the results of its own transfers, so the flags always come back
  but the pump may stay on.  `PumpIntoClosedQ4Exactly` says which steps, then or later,
  lead it into a closed Q4; `FailedPowerOffHazard` and `LateContractHazard` show that
  this can happen from any running state, by the return itself and after it.
- `kernel/drivers/sm5440_direct.c:563-595` keeps the target between a floor and a
  ceiling, but below a 3100 mV battery the floor is the higher of the two
  (`LimitsOrderedExactly`).  The loop still comes to rest exactly above 3080 mV
  (`RestsExactly`), below 3100 mV on one of the crossed limits.
- `scripts/gts9u-ai.py:50-52` and `scripts/gts9u-npu-app.py:61-63` empty the counter
  file before the new count is flushed, and `gts9u-npu-app.py:68-70` closes it after
  the unlock, which flushes what an exception or interrupt left in the buffer.  A client
  that ends in between loses the epoch's count, and one interrupted before its flush may
  write it late, over newer ones.  The limit of 40 goes with it exactly if the file is
  then below what a running service has granted (`BoundLostExactly`).  The loss is
  confined to its epoch: every start puts the count right (`StartRestores`), and the
  limit holds in every epoch without such a step (`AdmissionBound`).
- `kernel/drivers/panel-samsung-ana38407.c:239-244` takes the fingerprint mode for
  over even if the writes that end it failed, and a failed entry is undone by writes
  whose results are ignored.  `SyncLostExactly` says which writes matter, and
  `HighBrightnessStaysExactly` when high brightness outlives the next brightness update.
- `kernel/drivers/samsung_wacom_w90xx.c:46-50` says status bit 0 is not interpreted;
  the handler drops frames without it.

## Model

| member | source | states |
|---|---|---|
| `GlinkFifo.RunRefinesQueue` | kernel/drivers/qcom_glink_spss.c:111-175 | over every interleaving of one writer, storing bytes in any order between its room check and its head update, with one reader, and from any occupancy, the unread bytes at the end are those at the start followed by the published messages in order, each padded to a multiple of eight, less what the reader released |
| `GlinkFifo.OccupancyIsBounded` | kernel/drivers/qcom_glink_spss.c:111-132 | over every run nine bytes stay free, but for a start that had less, and then what it had: the ring never fills up |
| `GlinkFifo.PeekReturnsStream` | kernel/drivers/qcom_glink_spss.c:76-109 | in every run from a registration with an aligned head a peek inside the available count returns exactly the next bytes of what was there followed by the framed message stream |
| `GlinkFifo.StepRefines` | kernel/drivers/qcom_glink_spss.c:96-175 | one step of writer or reader, seen from the queue |
| `GlinkFifo.StepKeepsInvariant` | kernel/drivers/qcom_glink_spss.c:96-175 | a message that passed the room check keeps fitting and every byte stored so far is the message's, whatever step comes |
| `GlinkFifo.StepBoundsOccupancy` | kernel/drivers/qcom_glink_spss.c:96-175 | no step takes the occupancy past the larger of length minus nine and what it was |
| `GlinkFifo.WriteIsARun` | kernel/drivers/qcom_glink_spss.c:154-175 | a whole checked write is one run of the writer's steps that publishes just that message |
| `GlinkFifo.ReleaseIsARun` | kernel/drivers/qcom_glink_spss.c:96-109 | and a release of any part of the unread bytes is one of the reader's |
| `GlinkFifo.StoreKeepsUnread` | kernel/drivers/qcom_glink_spss.c:134-152 | no byte the writer stores lands on one the reader has yet to release, wherever the reader is |
| `GlinkFifo.PublishAppends` | kernel/drivers/qcom_glink_spss.c:166-174 | with every byte stored, the one head update appends the whole message |
| `GlinkFifo.WriterStartsExactly` | kernel/drivers/qcom_glink_spss.c:338-339 | the driver clears its head and leaves the peer's tail: the invariant starts wherever that tail stands, with what lies behind it unread, and nine bytes are free if and only if it is zero or at least nine |
| `GlinkFifo.ReaderStartsExactly` | kernel/drivers/qcom_glink_spss.c:338-339 | the driver clears its tail and leaves the peer's head: the invariant starts if and only if that head is aligned, and the bytes before it are unread |
| `GlinkFifo.WriteAppends` | kernel/drivers/qcom_glink_spss.c:154-175 | a message that fits is appended unchanged with fewer than eight bytes of padding, across any wrap of payload, head and tail |
| `GlinkFifo.WriteAppendsExactlyWhenItFits` | kernel/drivers/qcom_glink_spss.c:154-175 | the append holds if and only if occupancy plus the aligned length stays below the ring length |
| `GlinkFifo.AvailLeavesRoom` | kernel/drivers/qcom_glink_spss.c:126-131 | a size that passes the room check leaves nine bytes free after alignment |
| `GlinkFifo.CheckedWriteAppends` | kernel/drivers/qcom_glink_spss.c:111-175 | a write whose size passed the room check is an append |
| `GlinkFifo.TxAvailIsComplement` | kernel/drivers/qcom_glink_spss.c:111-132 | the room check yields max(0, length - unread - 16) on both sides of the wrap |
| `GlinkFifo.AdvanceDrops` | kernel/drivers/qcom_glink_spss.c:96-109 | releasing bytes drops exactly that prefix of the unread bytes |
| `GlinkFifo.PeekIsSlice` | kernel/drivers/qcom_glink_spss.c:76-94 | a peek is the slice of the unread bytes at its offset |
| `GlinkFifo.TwoWrites` | kernel/drivers/qcom_glink_spss.c:163-174 | header and data written one after the other, then aligned, are one write of their concatenation |
| `GlinkFifo.Pipe.Register` | kernel/drivers/qcom_glink_spss.c:338-339 | one word is cleared, the peer's is left; with that one zero too the pipe is empty |
| `GlinkFifo.Pipe.RxAvail` | kernel/drivers/qcom_glink_spss.c:61-74 | the number of unread bytes |
| `GlinkFifo.Pipe.RxPeak` | kernel/drivers/qcom_glink_spss.c:76-94 | copies the requested slice and touches nothing else of the destination |
| `GlinkFifo.Pipe.CopyOut` | kernel/drivers/qcom_glink_spss.c:84-93 | the one or two copies yield the bytes after the position, around the end if need be |
| `GlinkFifo.Pipe.RxAdvance` | kernel/drivers/qcom_glink_spss.c:96-109 | drops a prefix of the unread bytes, leaving the fifo alone |
| `GlinkFifo.Pipe.TxAvailable` | kernel/drivers/qcom_glink_spss.c:111-132 | max(0, length - unread - 16) |
| `GlinkFifo.Pipe.TxWriteOne` | kernel/drivers/qcom_glink_spss.c:134-152 | lays the bytes over the slots after the position, around the end if need be, and nothing else |
| `GlinkFifo.Pipe.TxWrite` | kernel/drivers/qcom_glink_spss.c:154-175 | writes header and data; if their size passed the room check, appends them to the unread bytes and leaves nine bytes free |
| `NpuSession.AdmissionBound` | scripts/gts9u-ai.py:29-59 | for any number of clients of both kinds, with the service dying or being started from outside at any point and clients failing, being interrupted or dying anywhere, at most 40 counts are recorded between any start of the service and the next, unless in that same epoch a client leaves the file below what the running service has granted, by ending between its truncate and its flush or by flushing on closing, without the lock; whatever happened in earlier epochs |
| `NpuSession.StartRestores` | scripts/gts9u-ai.py:40-48 | a start from any reachable state, after any number of lost counts, puts the count right again |
| `NpuSession.StepKeepsStructure` | scripts/gts9u-npu-app.py:32-70 | every step, those that lose a count included, leaves the locks consistent and a client that goes on with a count below the limit |
| `NpuSession.NothingBeforeFirstStart` | scripts/gts9u-npu-app.py:42-59 | before the first start nothing is recorded at all |
| `NpuSession.MarkerFollowsService` | scripts/gts9u-ai.py:42-48 | the ready marker appears only with a running service, a start waits for it, a stop takes both away, and a dying service may leave it behind |
| `NpuSession.SafeThroughoutExactly` | scripts/gts9u-npu-app.py:32-70 | from a start on, a run keeps the count at every point if and only if it has no undercounting step |
| `NpuSession.RestartsExactly` | scripts/gts9u-ai.py:37-48 | over every run from an initial state, told by what a client itself has read and found: it stops the service only if it is a restarting one that found it running and read 40 or more, and such a one has stopped it before it is admitted; it starts it under the exclusive lock exactly if it found it stopped or has stopped it; and the count it writes is one more than it read, or one if it started the service |
| `NpuSession.RefusesAtTheLimit` | scripts/gts9u-npu-app.py:42-45 | a refusing client that finds the service running and reads 40 or more is never admitted, ends failed with nothing to write, and leaves the service, its marker and the file alone |
| `NpuSession.CheckFailsExactly` | scripts/gts9u-npu-app.py:41-53 | no other finding makes the check fail, and which lock is waited for next follows from the finding |
| `NpuSession.VisitStandsInEveryRun` | scripts/gts9u-npu-app.py:32-70 | where a client stands agrees with what it has read, found and done, over every run |
| `NpuSession.BoundLostExactly` | scripts/gts9u-ai.py:49-59 | after a step, some run without a start or another such step admits more than 40 clients in the epoch if and only if the step left the file below the grants of the running service in one of those two ways |
| `NpuSession.LostCountOverruns` | scripts/gts9u-npu-app.py:60-70 | whichever client of either kind does, by failing, being interrupted, dying or writing late, and whoever else is inside, sessions of either kind then pass the limit |
| `NpuSession.StepSafeExactly` | scripts/gts9u-npu-app.py:32-70 | a step keeps the file from under-counting a running service's grants if and only if it is not such a step |
| `NpuSession.LostRecordBreaksBound` | scripts/gts9u-ai.py:49-52 | from an initial state, for both kinds of client and for failing, being interrupted and dying, a run with one start and more than 40 records after it |
| `NpuSession.LateWriteBreaksBound` | scripts/gts9u-npu-app.py:60-70 | the same when the first client is interrupted before its flush, losing nothing then, and its count is written on closing after two other sessions |
| `NpuSession.LateWriteFits` | scripts/gts9u-ai.py:57-59 | a late write breaks the count exactly when it is below the grants of a running service and nobody is about to write over it |
| `NpuSession.WayIsCleared` | scripts/gts9u-ai.py:29-59 | whoever holds a lock, a run without a start or such a step leads to a state in which a given client can begin |
| `NpuSession.OneSession` | scripts/gts9u-npu-app.py:32-70 | below the limit a client outside can go through a whole session whoever else is inside, leaving only its count |
| `NpuSession.Sessions` | scripts/gts9u-npu-app.py:32-70 | and so can as many one after the other as the count leaves room for |
| `NpuSession.RunIsSafe` | scripts/gts9u-ai.py:29-59 | the count invariant over every run without such a loss |
| `NpuSession.RestartIsExclusive` | scripts/gts9u-ai.py:40-45 | while a client may stop or start the service under the exclusive lock no other client holds the users lock in either mode or can get it |
| `NpuSession.ActKeepsLocks` | scripts/gts9u-ai.py:31-59 | every client step keeps the lock owners and the program points consistent, the unatomic exclusive-to-shared conversion and an interrupted client's locks included |
| `NpuSession.StepKeepsLocks` | scripts/gts9u-ai.py:31-59 | the same for steps of the environment |
| `NpuSession.InitIsConsistent` | scripts/gts9u-ai.py:29-32 | nobody inside is a consistent state |
| `NpuSession.UsersLockNeedsCounter` | scripts/gts9u-ai.py:32-47 | only the holder of the counter lock ever waits for the users lock; without it only an interrupted client on its way out can hold that exclusively |
| `NpuSession.NoDeadlock` | scripts/gts9u-ai.py:32-59 | while any client is inside, some client can take its next step; a client polling for a marker that is not there goes on by failing |
| `NpuSession.EveryoneCanLeave` | scripts/gts9u-npu-app.py:32-70 | from every reachable state all clients can finish without newcomers and without help from the service, none dying or interrupted, and none failing but one that polls for a marker that is not there; no failure at all if the marker is there or the service is still to be started |
| `NpuSession.ContinueKeepsMarker` | scripts/gts9u-npu-app.py:54-59 | if the marker is there or the service is still to be started, going on never fails and keeps that true |
| `NpuSession.WindowCounts` | scripts/gts9u-ai.py:49-52 | without a start in between, the recorded counts are exactly the grants added |
| `NpuSession.HolderActFits` | scripts/gts9u-npu-app.py:38-64 | each step of the counter lock's holder keeps a count it relies on at or above the grants of the epoch |
| `NpuSession.OutsiderFits` | scripts/gts9u-ai.py:113-117 | a client that begins, releases its session or goes does not disturb the count |
| `NpuSession.LostRecordFits` | scripts/gts9u-ai.py:50-52 | losing the record breaks the count exactly when the service runs and has granted more than the file then says |
| `ChargeThermal.StateFromHistory` | kernel/drivers/sm5714_battery.c:306-333 | the state is a property of the readings: Stop if and only if a reading of 50.0 C has not been followed by one below 46.0 C, Normal if and only if every reading of 46.0 C has been followed by one at or below 42.0 C |
| `ChargeThermal.NoChatter` | kernel/drivers/sm5714_battery.c:306-333 | over any trace the total downward movement of the readings is at least 4.0 C per level recovered |
| `ChargeThermal.CoolingCoversCredit` | kernel/drivers/sm5714_battery.c:306-333 | the same with the cooling already paid towards the next recovery |
| `LearnedCapacity.Gauge.Scaled` | kernel/drivers/sm5714_battery.c:690-700 | the percentage is the floor of raw over scale within 0..100, 100 exactly from the scale up; a full sample of 70.0 % or more teaches the scale on which it reads 102 %, within 70.0 % and 100.0 %, if it is the first of its episode or that moves the scale up; nothing else moves it |
| `LearnedCapacity.Gauge.StoreMaximum` | kernel/drivers/sm5714_battery.c:748-766 | only 700..1000 is accepted, and a store during a full indication changes nothing |
| `LearnedCapacity.Gauge.Probe` | kernel/drivers/sm5714_battery.c:690-692 | the gauge starts with an unlearned scale |
| `LearnedCapacity.ScaleIsEpisodeMaximum` | kernel/drivers/sm5714_battery.c:690-766 | in a full episode the scale is exactly what the greatest of its samples teaches, the 102 % rule spelled out; sysfs stores in between leave no trace |
| `LearnedCapacity.LearnedIsTaught` | kernel/drivers/sm5714_battery.c:693 | the learned scale m of a raw value is the one with 102 m <= 100 raw < 102 (m + 1), cut to 700 below 714 and to 1000 from 1020 up |
| `LearnedCapacity.MoreTeachesMore` | kernel/drivers/sm5714_battery.c:693 | a fuller sample never teaches less |
| `LearnedCapacity.ScaleStaysInRange` | kernel/drivers/sm5714_battery.c:690-766 | the scale stays in 700..1000 over every trace |
| `LearnedCapacity.LearnedBelowSoc` | kernel/drivers/sm5714_battery.c:690-698 | what a full sample teaches never exceeds the sample |
| `LearnedCapacity.RawSoc` | kernel/drivers/sm5714_battery.c:715-717 | the gauge's 16-bit Q8.8 reading in whole tenths of a percent, below 2560 |
| `Sm5714Charger.OtgHoldsInEveryRun` | kernel/drivers/sm5714_battery.c:200-258 | in every state reachable from outside OTG mode, whatever transfers fail, the flag says exactly whether CNTL2 is in OTG mode, and then Q4 is open, BC1.2 is off and the data lines are on the USB path |
| `Sm5714Charger.OtgOutcome` | kernel/drivers/sm5714_battery.c:541-642 | a request that finds the tablet not sourcing makes it source if and only if it asks for that with the path not handed over, no supply on the connector and all five updates going through; behind the direct charger or under incoming power it is refused with EBUSY and changes nothing, with an unreadable supply EIO; sourcing ends exactly if asked for and the mode could be left; charging is to be resumed exactly after a complete return with a supply attached |
| `Sm5714Charger.SourcingChangesExactly` | kernel/drivers/sm5714_battery.c:541-642 | over all steps sourcing begins only with such a request and ends only with one to end it |
| `Sm5714Charger.BoostSetting` | kernel/drivers/sm5714_battery.c:582-598 | the boost comes up at 5.1 V with the requested current limit and every other bit of its registers as it was |
| `Sm5714Charger.UsbTypeOfDetected` | kernel/drivers/sm5714_battery.c:260-289 | told by the MUIC bit by bit: above 5 V it is PD, else a CDP goes before an SDP and that before any dedicated charger, and nothing detected is unknown |
| `Sm5714Charger.UsbTypeUnread` | kernel/drivers/sm5714_battery.c:260-289 | no supply, and sourcing, is unknown; when a failed read is an error |
| `Sm5714Charger.LimitsOfSource` | kernel/drivers/sm5714_battery.c:378-407 | which input and battery current is decided on for which source, advertisement and thermal state |
| `Sm5714Charger.CodesAreClose` | kernel/drivers/sm5714_battery.c:291-304 | the register codes lose less than one step of either limit |
| `Sm5714Charger.Q4IsOneBit` | kernel/drivers/sm5714_battery.c:432-434 | closing and opening Q4 set and clear bit 3 of CNTL1 and nothing else |
| `Sm5714Charger.RoutedBits` | kernel/drivers/sm5714_battery.c:200-234 | a complete switch to the USB path sets BC12OFF and the manual path to the SoC and keeps the remaining bits |
| `Sm5714Charger.ReturnedBits` | kernel/drivers/sm5714_battery.c:608-620 | a complete way back leaves the charging mode, clears BC12OFF and the manual path and keeps the remaining bits |
| `Sm5714Charger.ConfiguredResult` | kernel/drivers/sm5714_battery.c:335-450 | a pass is refused with EBUSY exactly in OTG, and succeeds exactly if the source could be read and every write it needs went through |
| `Sm5714Charger.StatusMeans` | kernel/drivers/sm5714_battery.c:880-908 | what status the charger bits amount to: top-off before charging, the direct charger as charging, and sourcing as discharging whatever they say |
| `Sm5714Charger.ProbeRecoversExactly` | kernel/drivers/sm5714_battery.c:1171-1283 | from open, probe leaves Q4 closed if and only if a supply was found that the charger reports good but idle, and its pass got that far; everything else starts clear |
| `Sm5714Charger.LostCableOpensQ4` | kernel/drivers/sm5714_battery.c:1113-1126 | a poll that saw the cable go opens Q4 and remembers it; in every other case its last stage leaves the registers alone |
| `Sm5714Charger.OpenPathRecoversExactly` | kernel/drivers/sm5714_battery.c:1064-1126 | told by the readings: a poll with a supply attached closes an open path that is not handed over if and only if the thermal state moved and its pass closes it, or the charger reports a good supply with neither charging nor top-off, below the thermal stop, and the recovery closes it |
| `Sm5714Charger.UnsuppliedPathStaysOpen` | kernel/drivers/sm5714_battery.c:1064-1126 | and without a supply, or while the tablet sources, never |
| `Sm5714Charger.StepKeepsOtg` | kernel/drivers/sm5714_battery.c:541-642 | the same as an invariant of each locked section and of each stage of a poll |
| `Sm5714Charger.Q4ClosesExactly` | kernel/drivers/sm5714_battery.c:335-447 | from every state with Q4 open a step closes it if and only if it is a new contract or a path given back, with a supply and the path in the SM5714's hands, or a pass of the poll worker or of a returning set_otg outside the global lock, that gets as far as closing Q4; none does and leaves the thermal state at Stop |
| `Sm5714Charger.PathLostExactly` | kernel/drivers/sm5714_battery.c:454-528 | a step closes Q4 behind the direct charger if and only if it is a configure pass outside the global lock, of the poll worker or of a returning set_otg, that gets as far as closing Q4 |
| `Sm5714Charger.PathHeldInEveryRun` | kernel/drivers/sm5714_battery.c:454-528 | over every interleaving of polls, OTG switches, contracts and handovers, stage by stage, without such a pass Q4 stays open behind the direct charger |
| `Sm5714Charger.PathHeldThroughoutExactly` | kernel/drivers/sm5714_battery.c:454-642 | Q4 is open behind the direct charger at every point of a run if and only if the run has no such pass |
| `Sm5714Charger.ExposedExactly` | kernel/drivers/sm5714_battery.c:488-528 | such a pass comes to be due on a handed-over path if and only if a poll sees the thermal state move while it is, sourcing ends with a supply attached while it is, or the path is handed over between a decision and its pass |
| `Sm5714Charger.UnexposedPathIsHeld` | kernel/drivers/sm5714_battery.c:454-642 | over every interleaving without those three Q4 stays open behind the direct charger |
| `Sm5714Charger.TakeoverInTheGapIsLost` | kernel/drivers/sm5714_battery.c:628-640 | a path handed over after the poll worker or a returning set_otg has decided on a pass and before it gets the charger lock is lost to that pass |
| `Sm5714Charger.WarmPackClosesQ4` | kernel/drivers/sm5714_battery.c:1079-1090 | any battery between 46.0 C and 50.0 C read during direct charging has Q4 closed by the pass of that poll |
| `Sm5714Charger.TakeoverWhileReducedIsLost` | kernel/drivers/sm5714_battery.c:500-517 | any takeover accepted below 42.0 C while the thermal state is still Reduced is lost to the first poll that sees it return to Normal and can program the charger |
| `Sm5714Charger.OtgReturnClosesQ4` | kernel/drivers/sm5714_battery.c:541-642 | a path handed over while the tablet sources power is lost when it stops doing so with a supply attached |
| `Sm5714Charger.PollClosesExactly` | kernel/drivers/sm5714_battery.c:1064-1134 | the exact condition for one undisturbed poll |
| `Sm5714Charger.PollIsItsStages` | kernel/drivers/sm5714_battery.c:1064-1134 | a poll into which nothing falls is its five stages one after the other |
| `Sm5714Charger.OnlyTheHandoverMovesThePath` | kernel/drivers/sm5714_battery.c:454-642 | no contract, OTG switch, poll stage or pass changes who owns the path |
| `Sm5714Charger.HandoverKeepsPath` | kernel/drivers/sm5714_battery.c:488-528 | nor does taking or giving the path close Q4 behind the direct charger |
| `Sm5714Charger.OtgNeverCloses` | kernel/drivers/sm5714_battery.c:541-631 | the locked part of an OTG request never closes Q4 |
| `Sm5714Charger.DecisionsNeverClose` | kernel/drivers/sm5714_battery.c:1064-1134 | nor does a poll between its passes |
| `Sm5714Charger.PassedQ4` | kernel/drivers/sm5714_battery.c:335-447 | what a pass outside the global lock does to Q4, the thermal state and the rest |
| `Sm5714Charger.ConfiguredQ4` | kernel/drivers/sm5714_battery.c:335-447 | what a configure pass that fails after k updates leaves in Q4, the thermal state and the input limit |
| `Sm5714Charger.LimitSequence` | kernel/drivers/sm5714_battery.c:409-436 | the input limit is 500 mA from before Q4 closes until the last write, which sets the decided limits |
| `Sm5714Charger.LimitsAreConservative` | kernel/drivers/sm5714_battery.c:291-304 | the programmed limits never exceed the decided ones nor the advertisement, and an unidentified source gets 500 mA |
| `Sm5714Charger.DirectChargeOutcome` | kernel/drivers/sm5714_battery.c:488-528 | a successful takeover opens Q4 and holds the path, a takeover whose write fails gives the flag back, a release always clears it |
| `Sm5714Charger.OtgOnSequence` | kernel/drivers/sm5714_battery.c:575-600 | the mode changes only with the last update, by when the lines are routed and Q4 is open |
| `Sm5714Charger.OtgOffSequence` | kernel/drivers/sm5714_battery.c:612-624 | from the first update of the way back on, the mode is left |
| `Sm5714Charger.BoostSequence` | kernel/drivers/sm5714_battery.c:579-598 | of the boost updates the first opens Q4 and only the last changes the mode |
| `Sm5714Charger.OtgSwitchedKeepsOtg` | kernel/drivers/sm5714_battery.c:541-631 | the OTG invariant across a request that fails anywhere, its repair included |
| `Sm5714Charger.DecisionsKeepOtg` | kernel/drivers/sm5714_battery.c:1064-1134 | the OTG invariant across the poll between its passes |
| `Sm5714Charger.ConfiguredKeepsOtg` | kernel/drivers/sm5714_battery.c:335-447 | the OTG invariant across a configure pass |
| `Sm5714Charger.MuicUsbRoutes` | kernel/drivers/sm5714_battery.c:205-235 | both MUIC updates route the data lines to the SoC |
| `Sm5714Charger.Charger.Probe` | kernel/drivers/sm5714_battery.c:1270-1283 | a charger found outside OTG mode starts with both flags clear and puts an idle supply to use at once, whatever transfers fail |
| `Sm5714Charger.Charger.UpdateBits` | kernel/drivers/sm5714_battery.c:173-188 | the masked update, or no change on failure; no single write makes the registers unsafe |
| `Sm5714Charger.Charger.ProgramLimits` | kernel/drivers/sm5714_battery.c:409-436 | the limit sequence up to its first failure |
| `Sm5714Charger.Charger.ConfigureCharging` | kernel/drivers/sm5714_battery.c:335-447 | refused in OTG; else the thermal state follows the reading, and the registers hold exactly the updates of the stop or limit sequence before the first failure, which decides the result |
| `Sm5714Charger.Charger.SetPdContract` | kernel/drivers/sm5714_battery.c:454-480 | an out-of-range advertisement changes nothing; any other is remembered, and reprograms the charger only online and while it owns the path |
| `Sm5714Charger.Charger.SetDirectCharge` | kernel/drivers/sm5714_battery.c:488-528 | taking and returning the path, whatever transfer fails |
| `Sm5714Charger.Charger.TakePath` | kernel/drivers/sm5714_battery.c:500-517 | the path is handed over only from 10.0 C to below 42.0 C and only if Q4 opened |
| `Sm5714Charger.Charger.ReturnPath` | kernel/drivers/sm5714_battery.c:518-522 | returning the path reprograms the charger when online |
| `Sm5714Charger.Charger.RouteToUsb` | kernel/drivers/sm5714_battery.c:205-240 | the MUIC switch up to its first failure, with BC1.2 put back if that write succeeds |
| `Sm5714Charger.Charger.RouteAuto` | kernel/drivers/sm5714_battery.c:243-257 | the way back up to its first failure |
| `Sm5714Charger.Charger.EnterBoost` | kernel/drivers/sm5714_battery.c:579-598 | the boost updates up to their first failure |
| `Sm5714Charger.Charger.SwitchOtg` | kernel/drivers/sm5714_battery.c:541-631 | sourcing begins only with no supply read and the path not handed over; behind the direct charger or under incoming power it is refused with nothing changed; a failed start undoes the data switch; every register state passed through is safe; charging is to be resumed exactly after a complete return with a supply attached |
| `Sm5714Charger.Charger.SetOtg` | kernel/drivers/sm5714_battery.c:541-642 | the whole request with nothing falling between its locks |
| `Sm5714Charger.Charger.Pass` | kernel/drivers/sm5714_battery.c:335-447 | one pass outside the global lock, of either kind |
| `Sm5714Charger.Charger.PollWork` | kernel/drivers/sm5714_battery.c:1064-1134 | a poll into which nothing falls reacts to heat, then recovers the path, then notes the cable, whatever transfers fail, and keeps the OTG invariant |
| `Sm5714Charger.Charger.Look` | kernel/drivers/sm5714_battery.c:1069-1082 | a pass is due exactly if the thermal state moved |
| `Sm5714Charger.Charger.Check` | kernel/drivers/sm5714_battery.c:1092-1102 | a recovery is due only on an idle, open path that is not handed over and not stopped |
| `Sm5714Charger.Charger.ReactToHeat` | kernel/drivers/sm5714_battery.c:1079-1090 | a thermal change is followed by a configure pass |
| `Sm5714Charger.Charger.RecoverPath` | kernel/drivers/sm5714_battery.c:1092-1104 | and then is a configure pass |
| `Sm5714Charger.Charger.NoteCable` | kernel/drivers/sm5714_battery.c:1113-1126 | losing the cable opens Q4 |
| `PpsLoop.LoopConverges` | kernel/drivers/sm5440_direct.c:548-602 | for packs from 3100 mV and every admissible plant the loop is in the band or on the rail that hides it after one refresh per 40 mV between the limits and two more, and never moves again |
| `PpsLoop.SettledExactlyFixed` | kernel/drivers/sm5440_direct.c:580-595 | a target is settled if and only if a refresh leaves it alone |
| `PpsLoop.SettledStays` | kernel/drivers/sm5440_direct.c:580-595 | a settled target stays for ever |
| `PpsLoop.Climbs` | kernel/drivers/sm5440_direct.c:583-584 | climbing never overshoots the band |
| `PpsLoop.Descends` | kernel/drivers/sm5440_direct.c:585-587 | nor does descending |
| `PpsLoop.LimitsOrderedExactly` | kernel/drivers/sm5440_direct.c:407-413 | floor at most ceiling if and only if the battery is at 3100 mV or more |
| `PpsLoop.ReaimBounds` | kernel/drivers/sm5440_direct.c:563-602 | whatever the history and the reading, the target lies between the limits, at least twice the battery plus 1100 mV unless capped, never above 10.5 V |
| `PpsLoop.RequestCarriesFloorPower` | kernel/drivers/sm5440_direct.c:182-187 | target times current is at least 15 W, by the least multiple of 50 mA that does it beyond the knob |
| `PpsLoop.KnobsAreTaken` | kernel/drivers/sm5440_direct.c:100-175 | a knob within its range is taken as it is, a larger one as the end of the range, one that does not fit an int as the least; 1000 to 5000 mA and 800 to 4000 mA |
| `PpsLoop.RequestIsAsked` | kernel/drivers/sm5440_direct.c:182-187 | the requested current is the knob if its whole steps of 50 mA carry 15 W at the target, and the least multiple of 50 mA that does otherwise |
| `PpsLoop.TargetsOfBattery` | kernel/drivers/sm5440_direct.c:407-413 | the target is the least multiple of 20 mV that is twice the battery and 1100 mV more, within 8.2 V and 10.5 V; the ceiling is twice the battery and 2000 mV more, at most 10.5 V |
| `PpsLoop.ReaimMoves` | kernel/drivers/sm5440_direct.c:580-595 | a refresh moves the target by 40 mV towards the wanted current, and not at all within 150 mA of it or without a reading, unless a limit is in the way |
| `PpsLoop.RestsExactly` | kernel/drivers/sm5440_direct.c:548-602 | from every target and for every admissible plant the loop comes to rest if and only if the battery is above 3080 mV |
| `PpsLoop.NeverRests` | kernel/drivers/sm5440_direct.c:563-595 | at or below 3080 mV some admissible plant keeps the target moving for ever |
| `PpsLoop.CrossedLimitsCycle` | kernel/drivers/sm5440_direct.c:563-595 | and it swings between the two limits |
| `PpsLoop.NarrowlyCrossedLimitsRest` | kernel/drivers/sm5440_direct.c:563-595 | between 3081 and 3099 mV the loop rests on a limit within two refreshes |
| `Sm5440Pump.OwnersAgreeInEveryRun` | kernel/drivers/sm5440_direct.c:325-337 | over every interleaving of the two drivers, the stages of the SM5714's polls, its returns from OTG and TCPM's calls falling between any two steps of a start or a return and each of them failing anywhere, this driver holds the path exactly while the SM5714 has handed it over |
| `Sm5440Pump.StartsOnlyFrom` | kernel/drivers/sm5440_direct.c:506-518 | direct charging is not started exactly if one of the readings is out of its range, each named |
| `Sm5440Pump.StopsExactlyOn` | kernel/drivers/sm5440_direct.c:613-630 | a running pump is stopped by its readings exactly if one is missing, off or out of its range, each named |
| `Sm5440Pump.StepKeepsOwners` | kernel/drivers/sm5440_direct.c:325-337 | the same as an invariant of each step |
| `Sm5440Pump.PathLostExactly` | kernel/drivers/sm5440_direct.c:428-442 | from the handover on, the request and the settle wait included, Q4 is open, and a step closes it if and only if the SM5714 undercuts the handover |
| `Sm5440Pump.PathOpenInEveryRun` | kernel/drivers/sm5440_direct.c:428-442 | so over every run in which it does not, Q4 is open at the request, at the turning on and while the pump runs |
| `Sm5440Pump.GuardLostExactly` | kernel/drivers/sm5440_direct.c:325-337 | the pump is on only late in a start or while it runs, and with Q4 open; a step loses that if and only if it undercuts the handover or gives the path back with the pump still on |
| `Sm5440Pump.PumpIntoClosedQ4Exactly` | kernel/drivers/sm5440_direct.c:325-337 | from every state of the two drivers other than a pump on into a closed Q4, a step leads to one if and only if it turns the pump on with Q4 closed or closes Q4 with the pump on |
| `Sm5440Pump.HazardComesInThreeWays` | kernel/drivers/sm5440_direct.c:325-337 | while the path is open behind its holder, and with the pump on, those are: the SM5714 undercutting the handover, a return that closes Q4, and, after a return that did not turn the pump off, a contract or pass that closes it later |
| `Sm5440Pump.NeverIntoClosedQ4Exactly` | kernel/drivers/sm5440_direct.c:325-337 | a run stays clear of it throughout if and only if it has no such step |
| `Sm5440Pump.PumpGuardedInEveryRun` | kernel/drivers/sm5440_direct.c:325-337 | over every run without those two events the pump is on only while this driver holds the path and Q4 is open |
| `Sm5440Pump.FailedPowerOffHazard` | kernel/drivers/sm5440_direct.c:327-334 | from any running state a failed turning off and a recognised supply leave the pump on into a closed Q4 with neither driver active |
| `Sm5440Pump.LateContractHazard` | kernel/drivers/sm5440_direct.c:327-334 | and from any running state a failed turning off, a return that cannot read the supply and any contract TCPM then makes do, although no step undercuts the handover and the return closes nothing |
| `Sm5440Pump.GiveBackClears` | kernel/drivers/sm5440_direct.c:325-337 | giving back clears the SM5714's flag however its own transfers fare |
| `Sm5440Pump.ChargerStepKeepsOwner` | kernel/drivers/sm5714_battery.c:1064-1134 | nothing TCPM or the poll does on the SM5714 changes the owner |
| `Sm5440Pump.Pump.LetAll` | kernel/drivers/sm5714_battery.c:454-642 | whatever the SM5714 does in between, stage by stage, is part of the run and leaves the owner |
| `Sm5440Pump.Pump.Play` | kernel/drivers/sm5714_battery.c:454-642 | each such call or stage is one event of the SM5714 |
| `Sm5440Pump.Pump.RequestPps` | kernel/drivers/sm5440_direct.c:291-310 | callable only while the path is held, with Q4 open unless the SM5714 has undercut the handover; success means TCPM holds the programmable request |
| `Sm5440Pump.Pump.SetChgOn` | kernel/drivers/sm5440_direct.c:471-475 | the pump is turned on only under the same condition |
| `Sm5440Pump.Pump.RefreshPps` | kernel/drivers/sm5440_direct.c:312-323 | success means TCPM holds the current target |
| `Sm5440Pump.Pump.RestoreSwitching` | kernel/drivers/sm5440_direct.c:325-337 | both drivers' flags come back whatever fails and whatever the SM5714 does in between; the pump goes off only if its own write went through |
| `Sm5440Pump.Pump.StopPump` | kernel/drivers/sm5440_direct.c:327-330 | the pump goes off only if its own write went through |
| `Sm5440Pump.Pump.HandBack` | kernel/drivers/sm5440_direct.c:334 | the SM5714 has the path again |
| `Sm5440Pump.Pump.TakeOver` | kernel/drivers/sm5440_direct.c:435-437 | this driver holds the path exactly if the SM5714 handed it over, with Q4 open and from 10.0 C to below 42.0 C |
| `Sm5440Pump.Pump.Start` | kernel/drivers/sm5440_direct.c:415-504 | with the SM5714 running before any of its steps: active exactly on success, and then the bus has settled near the target, the current asked for is the knob or what 15 W need, the request is at the target, the pump and its watchdog are on, and Q4 is open unless the handover was undercut; it fails only for a reading that speaks against it or a transfer that failed, and then the path is given back |
| `Sm5440Pump.Pump.PowerUp` | kernel/drivers/sm5440_direct.c:439-492 | success only after the first bus reading within 500 mV of the target, all earlier ones below it; a timeout only when all thirty stayed below |
| `Sm5440Pump.Pump.AskPps` | kernel/drivers/sm5440_direct.c:446-451 | success means TCPM holds the request |
| `Sm5440Pump.Pump.SwitchOn` | kernel/drivers/sm5440_direct.c:471-475 | success means the pump is on |
| `Sm5440Pump.Pump.AwaitBus` | kernel/drivers/sm5440_direct.c:453-469 | the wait ends well if and only if some reading is the first near the target |
| `Sm5440Pump.Pump.TurnOn` | kernel/drivers/sm5440_direct.c:471-492 | success means pump and watchdog are on and the bus is good |
| `Sm5440Pump.Pump.AimAgain` | kernel/drivers/sm5440_direct.c:563-602 | the re-aimed target keeps the request bounds, and the current is the knob or what 15 W need |
| `Sm5440Pump.Pump.RefreshIfDue` | kernel/drivers/sm5440_direct.c:549-611 | every second pass re-aims at the battery, if it could be read, and puts the target to TCPM; the other passes request nothing |
| `Sm5440Pump.Pump.RunPass` | kernel/drivers/sm5440_direct.c:543-672 | a pass that leaves the pump active found every reading healthy and serviced the watchdog; any other gave the path back, and did so only for such a reading or a transfer that failed; so did one that a suspend fell into, wherever that was |
| `Sm5440Pump.Pump.CheckPass` | kernel/drivers/sm5440_direct.c:614-668 | the same for the part of it after the refresh |
| `Sm5440Pump.Pump.CutIn` | kernel/drivers/sm5440_direct.c:757-758 | a suspend that falls into a pass gives the path back there |
| `Sm5440Pump.Pump.Work` | kernel/drivers/sm5440_direct.c:520-675 | an ineligible battery is left alone, an eligible one started; the pump is left idle only for a reading or a transfer that failed; the two drivers agree afterwards |
| `Sm5440Pump.Pump.Suspend` | kernel/drivers/sm5440_direct.c:738-762 | with a pass under way or following, or none, the drivers agree; the pump is idle unless a pass found it idle and its battery eligible before the cancellation |
| `Sm5440Pump.Pump.CancelWork` | kernel/drivers/sm5440_direct.c:677-684 | after removal the pump is idle and the path given back |
| `PogoUpdate.Pogo.UpdateFirmware` | kernel/drivers/samsung_stm32_pogo.c:460-514 | no frame is ever refused; success means the flash holds the image, the rest of the 31 pages is erased and the version is the image's; nothing outside the 31 pages changes; every exit has left the bootloader with main flash selected and reset released; every failure has a transfer or programming fault behind it |
| `PogoUpdate.Pogo.StoreFirmwareUpdate` | kernel/drivers/samsung_stm32_pogo.c:516-576 | only the measured image, by size and version, is programmed, and only if the controller does not already run it, and then whether or not it succeeds main flash is selected and reset released; any other request leaves device and version alone |
| `PogoUpdate.Pogo.ProgramAll` | kernel/drivers/samsung_stm32_pogo.c:476-490 | each byte of the image is programmed once, onto erased cells |
| `PogoUpdate.Pogo.VerifyAll` | kernel/drivers/samsung_stm32_pogo.c:492-504 | success means the flash reads back as the image, EBADMSG that it does not |
| `PogoUpdate.Pogo.BootEraseApplication` | kernel/drivers/samsung_stm32_pogo.c:356-384 | success leaves exactly the 31 application pages erased |
| `PogoUpdate.Pogo.BootWriteMemory` | kernel/drivers/samsung_stm32_pogo.c:326-354 | success programs the block and nothing else |
| `PogoUpdate.Pogo.BootReadMemory` | kernel/drivers/samsung_stm32_pogo.c:295-324 | success returns the flash contents |
| `PogoUpdate.Pogo.BootConnect` | kernel/drivers/samsung_stm32_pogo.c:280-293 | success leaves the bootloader waiting for a command |
| `PogoUpdate.Pogo.EnterBootloader` | kernel/drivers/samsung_stm32_pogo.c:269-278 | the pin sequence starts the bootloader and drops the boot pin again |
| `PogoUpdate.Pogo.StartApplication` | kernel/drivers/samsung_stm32_pogo.c:198-211 | the pin sequence starts main flash |
| `PogoUpdate.Pogo.SendAddress` | kernel/drivers/samsung_stm32_pogo.c:299-312 | the command and address exchange is accepted for every address in flash |
| `PogoUpdate.Pogo.DataFrame` | kernel/drivers/samsung_stm32_pogo.c:335-346 | the packet announces its data, carries it and ends in its checksum |
| `PogoUpdate.Pogo.PageList` | kernel/drivers/samsung_stm32_pogo.c:361-369 | the page list names pages 0 to 30 in order and ends in its checksum |
| `PogoUpdate.Pogo.BootAck` | kernel/drivers/samsung_stm32_pogo.c:250-258 | only 0x79 is an acknowledgement |
| `PogoUpdate.ComputeChecksum` | kernel/drivers/samsung_stm32_pogo.c:260-267 | the XOR of all bytes |
| `PogoUpdate.AddressAccepted` | kernel/drivers/samsung_stm32_pogo.c:304-312 | the address frame decodes to the address |
| `PogoUpdate.CountFrame` | kernel/drivers/samsung_stm32_pogo.c:359-376 | the page count frame announces 31 pages |
| `PogoUpdate.PageListErasesApplication` | kernel/drivers/samsung_stm32_pogo.c:361-369 | the page list erases every application page and no other |
| `PogoUpdate.WroteOnwards` | kernel/drivers/samsung_stm32_pogo.c:476-490 | one more block extends the programmed prefix |
| `PogoUpdate.ReadsOnwards` | kernel/drivers/samsung_stm32_pogo.c:492-504 | one more matching block extends the verified prefix |
| `PogoUpdate.MeasuredMeans` | kernel/drivers/samsung_stm32_pogo.c:538-540 | the image taken for the measured one: its length and the four bytes of its version |
| `PogoUpdate.BlockOfImage` | kernel/drivers/samsung_stm32_pogo.c:498-501 | if the flash holds the image, every block read back is the image's |
| `SpHlosHeap.PagesAreConserved` | kernel/drivers/qcom_sp_hlos_heap.c:219-365 | over every run, with any number of allocations and releases under way and any call failing, each page is at every point in exactly one of pool, calls under way, live buffers, quarantine and other users; none that SPSS can reach is in the pool; quarantine only grows |
| `SpHlosHeap.StepKeepsPartition` | kernel/drivers/qcom_sp_hlos_heap.c:219-365 | the same for each single step of an allocation or a release |
| `SpHlosHeap.ExportsCleared` | kernel/drivers/qcom_sp_hlos_heap.c:296-336 | whatever other calls are under way, a run reaches its export cleared, lent to SPSS, out of the pool and overlapping nothing in use |
| `SpHlosHeap.AllocatedKeepsPartition` | kernel/drivers/qcom_sp_hlos_heap.c:263-365 | the same across one whole allocation |
| `SpHlosHeap.ReleasedKeepsPartition` | kernel/drivers/qcom_sp_hlos_heap.c:219-248 | the same across one whole release |
| `SpHlosHeap.FailedAllocateExactly` | kernel/drivers/qcom_sp_hlos_heap.c:326-365 | a failed allocation changes nothing but page contents, except that an export failure whose pages cannot be reclaimed quarantines all of them |
| `SpHlosHeap.ReleaseUndoesAllocate` | kernel/drivers/qcom_sp_hlos_heap.c:219-365 | releasing a new buffer restores the state but for page contents |
| `SpHlosHeap.ExportedBuffersAreZeroed` | kernel/drivers/qcom_sp_hlos_heap.c:296-336 | an exported buffer is cleared throughout, covers its length with less than a page to spare and overlaps no other |
| `SpHlosHeap.PageCountCovers` | kernel/drivers/qcom_sp_hlos_heap.c:281-289 | an accepted length needs 1 to 4096 pages |
| `SpHlosHeap.AllocationSucceedsExactly` | kernel/drivers/qcom_sp_hlos_heap.c:289-357 | which error an allocation ends with: EINVAL exactly for an empty or oversized length or any flag, ENOMEM exactly if nothing could be cleared, and beyond those the failure of the ownership call or the export |
| `SpHlosHeap.Heap.Allocate` | kernel/drivers/qcom_sp_hlos_heap.c:263-365 | a run of the step machine from the CMA allocation to the label that is reached, with the page array listing the run in order; for every failure point pool, sharing, quarantine and result come out as one net effect |
| `SpHlosHeap.Heap.TakeCleared` | kernel/drivers/qcom_sp_hlos_heap.c:296-306 | up to the clearing: the run is out of the pool and cleared |
| `SpHlosHeap.Heap.ShareAndExport` | kernel/drivers/qcom_sp_hlos_heap.c:316-364 | the same from the ownership call on |
| `SpHlosHeap.Heap.CmaAlloc` | kernel/drivers/qcom_sp_hlos_heap.c:296-299 | the run leaves the pool |
| `SpHlosHeap.Heap.CmaRelease` | kernel/drivers/qcom_sp_hlos_heap.c:355-356 | a run returns to the pool, and only one whose pages Linux alone reaches may |
| `SpHlosHeap.Heap.FreeCma` | kernel/drivers/qcom_sp_hlos_heap.c:353-359 | the labels that return the run hold only such pages |
| `SpHlosHeap.Heap.Lend` | kernel/drivers/qcom_sp_hlos_heap.c:316-322 | a cleared run is lent with its true owner presented; a failure changes nothing |
| `SpHlosHeap.Heap.TakeBack` | kernel/drivers/qcom_sp_hlos_heap.c:343-350 | a run is taken back with its true owners presented, or withdrawn for good |
| `SpHlosHeap.Heap.Release` | kernel/drivers/qcom_sp_hlos_heap.c:219-248 | a run of the step machine: the run returns to the pool exactly if SPSS gave it up, else it is quarantined |
| `SpHlosHeap.Heap.ClearPages` | kernel/drivers/qcom_sp_hlos_heap.c:301-306 | both clearing branches clear exactly the run |
| `SpHlosHeap.Heap.ReturnShared` | kernel/drivers/qcom_sp_hlos_heap.c:343-364 | the end of a buffer and of a failed export: taken back and released to the pool, or withdrawn |
| `SpHlosHeap.Buffer.Vmap` | kernel/drivers/qcom_sp_hlos_heap.c:181-204 | a mapping exists exactly while the count is positive, and nested maps share it |
| `SpHlosHeap.Buffer.Vunmap` | kernel/drivers/qcom_sp_hlos_heap.c:206-217 | the last unmap drops the mapping |
| `FodPanel.FodIsOrderedAndBounded` | kernel/drivers/panel-samsung-ana38407.c:158-268 | in every state, whatever writes fail and whatever gets the lock before an expired watchdog does, circle implies mode implies enabled implies prepared, the mode shows its own brightness and never lasts more than 15 s past the last store to a control |
| `FodPanel.StartedWorkEndsTheMode` | kernel/drivers/panel-samsung-ana38407.c:249-268 | a store that gets the lock before work that has started re-arms the watchdog, but the work ends the mode at once all the same |
| `FodPanel.WatchdogEndsTheMode` | kernel/drivers/panel-samsung-ana38407.c:249-268 | the watchdog of a control that is on is due within 15 s of the last store, can start then, and ends the mode |
| `FodPanel.SyncLostExactly` | kernel/drivers/panel-samsung-ana38407.c:228-247 | every event leaves the panel showing the user brightness, in normal brightness and without a stray circle, if and only if the writes it needs for that went through; which those are is spelled out for exits, failed entries, failed circles and brightness updates |
| `FodPanel.BrightnessIsRestored` | kernel/drivers/panel-samsung-ana38407.c:228-247 | so over every run of events with those writes the 0x51 level equals the latest user brightness in every prepared state outside the mode, values set during it included |
| `FodPanel.FailedEntryExactly` | kernel/drivers/panel-samsung-ana38407.c:659-699 | a failed entry is not on, and leaves the panel as it was if and only if it had written nothing yet, its undoing got past the level, or it got past the bit and the level was the user's anyway |
| `FodPanel.RestoringRunStaysSynced` | kernel/drivers/panel-samsung-ana38407.c:228-247 | restoring writes that all succeed are enough |
| `FodPanel.BrightnessFromProbe` | kernel/drivers/panel-samsung-ana38407.c:493-626 | the same from probe on |
| `FodPanel.ExitRestoresExactly` | kernel/drivers/panel-samsung-ana38407.c:228-247 | an exit, by store, disable or watchdog, restores the panel if and only if its level write, or the bit alone where the level is the user's anyway, and, for a lit circle, the circle write went through |
| `FodPanel.HighBrightnessStaysExactly` | kernel/drivers/panel-samsung-ana38407.c:228-247 | and the next brightness update leaves high brightness on if and only if the exit failed before or at its second write |
| `FodPanel.StepKeepsOrder` | kernel/drivers/panel-samsung-ana38407.c:430-551 | the ordering as an invariant of each event |
| `FodPanel.Panel.WriteFod` | kernel/drivers/panel-samsung-ana38407.c:158-188 | success leaves exactly the mode's or the user's brightness; a failure part way never shows the new level without the mode's own bit, and never touches the circle |
| `FodPanel.Panel.WriteFodCircle` | kernel/drivers/panel-samsung-ana38407.c:202-226 | success shows the circle as asked; a failed unlock changes nothing; brightness is never touched |
| `FodPanel.Panel.FodCleanup` | kernel/drivers/panel-samsung-ana38407.c:228-247 | both controls are off whatever the writes do; the panel is back at the user's brightness if the level write went through, and as it was if not even the second write did |
| `FodPanel.Panel.DoPrepare` | kernel/drivers/panel-samsung-ana38407.c:493-528 | prepared exactly if powered and initialised, showing the user brightness |
| `FodPanel.Panel.DoEnable` | kernel/drivers/panel-samsung-ana38407.c:430-456 | enabled only if prepared and the panel took the command |
| `FodPanel.Panel.DoDisable` | kernel/drivers/panel-samsung-ana38407.c:458-480 | an enabled panel leaves both fingerprint controls before it is disabled, whatever the writes do; the watchdog is cancelled afterwards |
| `FodPanel.Panel.DoUnprepare` | kernel/drivers/panel-samsung-ana38407.c:530-551 | the same before the panel is unprepared |
| `FodPanel.Panel.DoBlUpdate` | kernel/drivers/panel-samsung-ana38407.c:612-626 | the brightness is remembered always and written only outside the mode |
| `FodPanel.BrightnessPasses` | kernel/drivers/panel-samsung-ana38407.c:612-616 | an ordinary brightness passes unchanged, a greater one is cut to 2047, and only the low sixteen bits count |
| `FodPanel.Panel.DoFodModeStore` | kernel/drivers/panel-samsung-ana38407.c:659-699 | entering sticks only if every write went through and is otherwise undone; leaving always sticks; the watchdog is re-armed |
| `FodPanel.Panel.DoFodCircleStore` | kernel/drivers/panel-samsung-ana38407.c:714-751 | the circle needs the mode; a failed lighting is undone; the watchdog is re-armed |
| `FodPanel.Panel.SetCircle` | kernel/drivers/panel-samsung-ana38407.c:733-745 | the circle's flag follows a complete write only, and a failed lighting is undone |
| `FodPanel.Panel.DoWatchdogWork` | kernel/drivers/panel-samsung-ana38407.c:249-268 | both controls end when the expired work gets the lock, on the panel too if it is lit; a watchdog re-armed meanwhile stays armed |
| `FodPanel.Panel.WatchdogExpires` | kernel/drivers/panel-samsung-ana38407.c:249-256 | the work starts and waits for the lock |
| `FodPanel.Panel.StoreMode` | kernel/drivers/panel-samsung-ana38407.c:671-695 | a mode store under the lock |
| `FodPanel.Panel.StoreCircle` | kernel/drivers/panel-samsung-ana38407.c:725-746 | a circle store under the lock |
| `FodPanel.Panel.UpdateWatchdog` | kernel/drivers/panel-samsung-ana38407.c:637-644 | the watchdog is armed for 15 s from now exactly while a control is on |
| `PenProximity.InRangeExactly` | kernel/drivers/samsung_wacom_w90xx.c:755-859 | over every run from probe the pen is reported in range if and only if some accepted in-range frame is the latest and since then there was no timeout, no docked disable and fewer than three valid out-of-range frames; then the report is that frame's and the deadline is 250 ms after it |
| `PenProximity.LeavesOnlyForCause` | kernel/drivers/samsung_wacom_w90xx.c:704-753 | a pen that was in range is dropped only by its 250 ms deadline, a docked disable, or the third out-of-range frame |
| `PenProximity.SilenceTakesThePen` | kernel/drivers/samsung_wacom_w90xx.c:704-753 | with nothing more arriving, the deadline of a pen in range comes within 250 ms and takes it away |
| `PenProximity.SilenceIsBounded` | kernel/drivers/samsung_wacom_w90xx.c:817-824 | in range at any moment means an in-range frame within the last 250 ms |
| `PenProximity.AgreesInEveryRun` | kernel/drivers/samsung_wacom_w90xx.c:704-859 | BTN_TOOL_PEN, in_range and the global proximity flag agree after every handler, and the timer is armed exactly while they hold |
| `PenProximity.StepAgrees` | kernel/drivers/samsung_wacom_w90xx.c:704-859 | the same as an invariant of each handler |
| `PenProximity.OnlyPenFramesMatter` | kernel/drivers/samsung_wacom_w90xx.c:768-795 | failed reads, headers, torn reads, garage replies and cover notices change nothing about the pen |
| `PenProximity.DecodesPrinted` | kernel/drivers/samsung_wacom_w90xx.c:840-856 | reading undoes printing: position, pressure, tilts, distance, tip and barrel come back from the frame they were written to, whatever the meaningless bits are |
| `PenProximity.ClassOfPrinted` | kernel/drivers/samsung_wacom_w90xx.c:755-796 | which printed frames are taken for pen frames in range, out of range, cover notices, garage replies and headers |
| `PenProximity.ReportsPrinted` | kernel/drivers/samsung_wacom_w90xx.c:755-859 | every frame printed for a pen in range is reported exactly as measured, but for those that look like a cover notice, which move nothing |
| `PenProximity.FrameIsPrinted` | kernel/drivers/samsung_wacom_w90xx.c:755-859 | every frame is a printed one |
| `PenProximity.CoverFollowsNotice` | kernel/drivers/samsung_wacom_w90xx.c:476-508 | a notice sets the cover state to the top bit of its fourth byte and changes nothing else |
| `PenProximity.SettingsFollowHistory` | kernel/drivers/samsung_wacom_w90xx.c:722-743 | the digitiser is off exactly while the latest dock level and the latest stored option are both on |
| `PenProximity.HistoryToState` | kernel/drivers/samsung_wacom_w90xx.c:755-859 | a frame that holds fixes the miss count, the deadline and the whole report |
| `PenProximity.StateToHistory` | kernel/drivers/samsung_wacom_w90xx.c:755-859 | a pen in range has a frame that holds |
| `PenProximity.HoldsUnique` | kernel/drivers/samsung_wacom_w90xx.c:755-859 | only one frame can hold |
| `PenProximity.Wacom.HandleIrq` | kernel/drivers/samsung_wacom_w90xx.c:755-859 | the effect of every possible read on the pen, its timer, the report and the cover |
| `PenProximity.Wacom.CountMiss` | kernel/drivers/samsung_wacom_w90xx.c:797-815 | an out-of-range frame takes the pen away exactly when it is the third in a row |
| `PenProximity.Wacom.EnterRange` | kernel/drivers/samsung_wacom_w90xx.c:817-859 | an accepted frame puts the pen in range with its report and a fresh deadline |
| `PenProximity.Wacom.HandleCoverNoti` | kernel/drivers/samsung_wacom_w90xx.c:476-508 | a cover notice is claimed and sets the cover state, nothing else |
| `PenProximity.Wacom.LeaveRange` | kernel/drivers/samsung_wacom_w90xx.c:704-720 | afterwards all three views say the pen is gone and the report is released, its position kept, whether or not the pen was there |
| `PenProximity.Wacom.UpdateDigitizer` | kernel/drivers/samsung_wacom_w90xx.c:722-743 | re-establishes that the digitiser is off exactly while docked with the option on; the pen is dropped exactly then and otherwise left alone with its deadline |
| `PenProximity.Wacom.ProxTimeout` | kernel/drivers/samsung_wacom_w90xx.c:745-753 | the deadline drops the pen |
| `PenProximity.Wacom.PdctIrq` | kernel/drivers/samsung_wacom_w90xx.c:510-538 | duplicate edges are ignored, others re-evaluate the digitiser |
| `PenProximity.Wacom.DisableWhenDockedStore` | kernel/drivers/samsung_wacom_w90xx.c:657-671 | a value that does not parse changes nothing, others re-evaluate the digitiser |
| `DerReader.ExtractedExactly` | scripts/probe-qtee-load-securefp.c:550-590 | on arbitrary bytes something is extracted if and only if the frame prints as a reply whose sequence starts with unwanted elements and then a context-constructed one holding exactly one OCTET STRING of the requested size; it is that string |
| `DerReader.ReadsFirstWanted` | scripts/probe-qtee-load-securefp.c:550-590 | from any printed reply, short or long lengths, minimal or not, the first wanted element's octets are returned |
| `DerReader.ReadsNoneWanted` | scripts/probe-qtee-load-securefp.c:550-590 | and an error if no element is wanted |
| `DerReader.ReadsEncoding` | scripts/probe-qtee-load-securefp.c:526-548 | reading a printed element's header gives back its lengths whatever follows |
| `DerReader.ReadIsEncoding` | scripts/probe-qtee-load-securefp.c:526-548 | only printed elements can be read: the indefinite form, oversized counts and lengths past the end are refused |
| `DerReader.ShiftKeepsAll` | scripts/probe-qtee-load-securefp.c:543-544 | accumulating at most eight octets never shifts a bit out of a 64-bit size |
| `DerReader.DerLength` | scripts/probe-qtee-load-securefp.c:526-548 | the loop computes the header and value lengths of the element, in bounds, on any bytes |
| `DerReader.ExtractOctet` | scripts/probe-qtee-load-securefp.c:550-590 | the loop returns the offset of the first matching octets, in bounds, and ends on any bytes |
| `DerReader.PayloadExactly` | scripts/probe-qtee-load-securefp.c:577-586 | the inner test passes if and only if the element is wanted |
| `DerReader.FindPayload` | scripts/probe-qtee-load-securefp.c:569-586 | the loop body returns the wanted octets of one element |
| `DerReader.InnerReads` | scripts/probe-qtee-load-securefp.c:577-586 | the inner header of a wanted element is read back |
| `DerReader.ScanStep` | scripts/probe-qtee-load-securefp.c:568-588 | a wanted element is taken with its octets, an unwanted one passed over |
| `DerReader.ScanFinds` | scripts/probe-qtee-load-securefp.c:568-588 | the scan finds the first wanted element |
| `DerReader.ScanFound` | scripts/probe-qtee-load-securefp.c:568-588 | what the scan finds is the first wanted element |
| `DerReader.ScanSkips` | scripts/probe-qtee-load-securefp.c:568-588 | a run of unwanted elements is passed over |
| `DerReader.ExtractedOfReply` | scripts/probe-qtee-load-securefp.c:560-567 | a printed reply is scanned over exactly its sequence's content |
| `DerReader.ExtractedIsReply` | scripts/probe-qtee-load-securefp.c:560-567 | a frame from which something is extracted prints as a reply |

## Left out

- Lock-internal races inside one handler: each entry point or locked section is one step. In particular a pen frame whose handler has passed its disabled check while the digitiser is being switched off is not modelled.
- NpuSession.AdmissionBound: excludes the steps after which it is false; `BoundLostExactly` makes that boundary exact. A counter lock lost because opening the users file failed, and an interrupt inside the `finally` block, are the client's death. A late write starts where the file does and is at most as long as the counts that can be there, so it is modelled as replacing them. How long a client polls for the marker is not modelled: it may fail at any moment of it.
- The emergency `systemctl stop` of a timed-out inference (`scripts/gts9u-ai.py:89`) is the environment's stop.
- GlinkFifo.Pipe.Register: the fifo is an array of the model, and the peer's word is one the ring can hold. The ordering barrier before the head update is the order of the model's steps, and the native GLINK core that performs the room check is not part of this model.
- Sm5714Charger.Charger.Look: the readings of one stage of a poll are taken at one instant, and its update of the thermal state does not race that of a configure pass.
- Sm5714Charger.Charger.Write: a failed write changes nothing, and the chip does not change the modelled registers by itself. The SM5714 stays registered while the pump runs, so no call returns EPROBE_DEFER.
- Sm5440Pump.Pump.HwInit: the register sequence is reduced to its effect on the pump, its ADC and its watchdog; the reset is taken to clear the operating mode.
- Sm5440Pump.Pump.Suspend: the hand-back of a suspend falls between the refresh, the readings and the watchdog of a pass or around it, not between two transfers of one of them, and a pass does not fall into the hand-back.
- PpsLoop.LoopConverges: the battery voltage and the knob are fixed and the plant is a steady curve; battery dynamics are not modelled. The kernel's `clamp` is modelled as testing the upper limit first; its definition is not part of this repository.
- Stm32Bootloader: the automaton follows AN4221 and is an assumption about the device; sleeps, the option-byte and identity reads of the probe and the 0xff synchronisation timing are not modelled.
- SpHlosHeap: between its lending and its export nobody writes a run; attachments, scatter tables, CPU access and user mappings are not modelled; a failed ownership call changes nothing.
- FodPanel: initialisation is one step that succeeds or fails, a failed DSI write leaves the panel unchanged, and expired work gets the lock in no time, if not first; only the brightness level, the high-brightness bit and the circle of the panel are kept.
- PenProximity: the charging state machine of the docked pen, its orientation and the report rate command are not modelled, nor the axis transformation of reported positions. The proximity timer runs when it is due.
- DerReader: the Gatekeeper request and transport are not modelled; `size_t` is 64 bits and the host is little-endian.
- The reporting side of the battery and USB power supplies, sysfs formatting, log text and sleeps.
- The USB-PD driver's policy engine: TCPM is an environment that calls the charger's entry points.
- Packaging scripts, graphical applications, camera, benchmark and measurement tools.
- The remaining drivers (`qcom_spss.c`, `egis_el721.c`, `hi1337.c`, `ps5169.c`, `dw9808.c`): probe and teardown sequences and register tables, which would only add easy members.
