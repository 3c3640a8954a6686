# A verified model of the front-end monitor and control firmware

This project models the hard parts of the ALMA front-end firmware (`arcom_fe_mc`, C for a 16-bit
DOS board) in Dafny, and proves what they keep:

* **Power-amplifier limits** (`PaLimits`, `PaUploads`, `PaLimitsTable`, `CanPaLimits`, `LoSafety`,
  `LoOutcomes`, `LoDelivery`,
  `LoTables`, `LocalOscillator`): the growable limits table with its byte-wide counts, the interpolating search,
  the in-place CAN decoder, and the local oscillator commands that must respect the limits.
* **The cooperative scheduler** (`Scheduler`, `SchedulerRuns`, `AsyncLoop`) over three resumable state machines:
  cryostat sampling (`CryoSampling`, `CryoAsync`), cartridge power (`Cartridges`, `CartridgeOutcomes`,
  `CartridgeBudget`, `CartridgePower`, `CartridgeRuns`) and the thermal-interlock module (`FetimSampling`, `FetimAsync`).
* **The error history ring** (`ErrorLog`), **register shadows and interlocks** (`CryoValves`,
  `CryoControl`, `IfSwitch`, `Bits`), the **cold-head hours** (`ColdHead`) and the **hexadecimal
  parser** (`HexParser`).

Each stateful component is a class whose methods follow the firmware's functions statement by
statement. A method's contract equates its result and its whole new state with a step function on
values; the theorems are proved about runs of those step functions, and what each step does is also
stated without them, in register bits, payload bytes, volts, kelvins and counts. Answers of the hardware (serial
writes, timers, converter values, allocation) are parameters, so every statement holds for all of them.

`dafny verify dfyconfig.toml` checks everything.

## Where the code departs from its intent

The model follows the code. Where a promised property is false of it, lemmas give the exact
condition for all states and runs, and a run from startup in which it fails:

* The limits table wraps to empty on its 256th row (`UploadsFaithfulIff`, `FullTableWrapsToEmpty`).
* A drain voltage is stored as last commanded before it is sent. If the lowering writes are lost, a
  repeated retune finds nothing to lower (`StepHardwareSafeIff`, `LostWritesDefeatTheLimit`); the
  reported statuses tell when that cannot happen (`CarefulRunsAreSafe`).
* A retune in simulation moves the recorded tuning word alone, and later commands are limited by the
  record (`StepHardwareSafeIff`, `RunHardwareSafeIff`, `SimulatedRetuneDefeatsTheLimit`).
* A drain voltage below zero passes the clamp and comes out of the conversion to a byte as a large
  setting (`SoundIff`, `NegativeCommandDefeatsTheLimit`).
* An upload can put a limit below voltages already commanded (`UploadKeepsWithinIff`).
* The error ring addresses 256 slots and allocates 255 (`SlotPastAllocationIff`).
* Simulation mode can record a stopped backing pump as running, which defeats the guard of the valves
  and of the turbo pump (`StepKeepsInterlockIff`, `StepKeepsGuardIff`, `SimulationDefeatsInterlock`).
* A turbo-pump enable refused for its temperature clears the recorded state without writing the
  register; simulation records what it is told (`TurboStaysInAgreementIff`, `RefusalLosesTurbo`,
  `SimulatedEnableLosesTurbo`).
* A backing-pump switch-off that is abandoned reports no error (`BackingOffReport`, `SilentSwitchOff`).
* If the cryostat's configuration file cannot be read, startup ends before it records the vacuum
  controller as on and marks the sensors as not measured; SAFE can then be reported with nothing
  measured (`StartupAgreesIff`, `SafeMeansMeasured`, `SafeWithNothingMeasured`).
* Entering simulation in the middle of a conversion mixes channels (the two `StepKeepsCoherentIff`,
  `SimulationMixesInARun`).
* Saving the cold-head hours clears the mark even when the file update fails (`StepKeepsSavedIff`,
  `FailingSaveInARun`).
* A status report to the interlock module that fails is taken as delivered and never repeated
  (`ReportStaysCurrentIff`, `LostReportPersists`, `ReportLostInARun`).
* A cartridge sent to standby before its initialization has ended counts as ready without one
  (`StepKeepsTrustIff`, `ReadyMeansInitializedIff`, `ReadyWithoutInitialization`,
  `StandbyDuringInitialization`). The case at `pdModule.c:415-417` also falls through to the branch
  that stores a debugging error; that stored error is not modelled.
* A failed initialization switches off the module of the last power message, which may be another
  one or none, and always lowers the ordinary counter (`StepKeepsRecordsIff`, `StrangerInARun`,
  `SlotPastRecordsIff`, `RecordPastTheEnd`, `StepCountsIff`, `LimitExceededInARun`).
* A failed initialization lets the next power-up skip its wait (`StepKeepsRestedIff`, `StepWaitsIff`,
  `InitializedWithoutWaiting`).
* Without a cryostat the rotation stops (`RotationStops`).

## Model

| member | source | states |
|---|---|---|
| PaLimits.LookupTotal | arcom_fe_mc/lo.c:676-755 | The search answers for every table with a row in it, ordered or not; its past-the-end branch is dead |
| PaLimits.LookupIsPiecewiseLinear | arcom_fe_mc/lo.c:676-755 | On a strictly increasing table, a value is on the clamped piecewise-linear graph (defined by chords, without the search) if and only if it is the limit looked up |
| PaLimits.LimitBetweenNeighbours | arcom_fe_mc/lo.c:738-747 | For any table the limit lies between the values of two equal or adjacent rows, which enclose the tuning word when it is inside the table |
| PaLimits.LimitInRange | arcom_fe_mc/lo.c:738-747 | Interpolation never leaves the range of the stored maxima |
| PaLimits.LimitMonotone | arcom_fe_mc/lo.c:676-755 | Stored maxima that do not fall along the table give limits that do not fall |
| PaLimits.PrefixDecides | arcom_fe_mc/lo.c:676-755 | A table that only continues another answers alike up to the old last endpoint |
| PaUploads.UploadsFaithfulIff | arcom_fe_mc/lo.c:530-637 | After a reset the table is exactly one increasing row per tuning word that counted, holding the latest value of each polarization, if and only if at most 255 words counted |
| PaUploads.UploadSetsNamedPolarizations | arcom_fe_mc/lo.c:530-538 | An accepted upload sets the limit at its word for polarization 0, 1 or both as it says; the other keeps the merged row's value, or is zero in a new row of a clean table |
| PaUploads.FullTableWrapsToEmpty | arcom_fe_mc/lo.c:602-637 | 256 rising uploads make the row count wrap: the table reads as empty and no limit is in force |
| PaUploads.UploadKeepsLimitsBelow | arcom_fe_mc/lo.c:546-637 | One upload leaves every limit up to the old last endpoint as it was (below the second-to-last row when it overwrites, everywhere when it is rejected), unless it wraps the row count |
| PaUploads.UploadsKeepLimitsBelow | arcom_fe_mc/lo.c:546-637 | So does any run of uploads that does not wrap the row count, below the last two rows |
| PaUploads.UploadedLimitsInRange | arcom_fe_mc/can.c:696-714 | If every upload is between 0 and a bound, so is every limit ever looked up |
| PaLimitsTable.LimitsTable.Reset | arcom_fe_mc/lo.c:356-368 | The table is empty, without memory |
| PaLimitsTable.LimitsTable.AssignEntry | arcom_fe_mc/lo.c:530-538 | The row's word, its first maximum for polarization 0 or 2, its second for 1 or 2; the other maximum and every other row as they were |
| PaLimitsTable.LimitsTable.AddEntry | arcom_fe_mc/lo.c:546-637 | The heap table refines one step of the upload fold; rejection happens exactly below the last endpoint; failed allocation empties the table |
| PaLimitsTable.LimitsTable.FirstRow | arcom_fe_mc/lo.c:585-590 | The one row of a table that was empty |
| PaLimitsTable.LimitsTable.Merge | arcom_fe_mc/lo.c:592-600 | New maxima for the named polarizations of the last row, the others as they were |
| PaLimitsTable.LimitsTable.Append | arcom_fe_mc/lo.c:602-637 | A new row behind all old ones, with the byte-wide row count wrapping |
| PaLimitsTable.LimitsTable.Grow | arcom_fe_mc/lo.c:603-622 | Growing keeps every row and zeroes the new ones |
| PaLimitsTable.LimitsTable.FindMaxSafeEntry | arcom_fe_mc/lo.c:676-755 | The loop terminates and returns the looked-up row for any table |
| CanPaLimits.DecodeEncode | arcom_fe_mc/can.c:659-717 | Encoding then decoding hands on exactly the three values, or nothing exactly when one is out of range |
| CanPaLimits.DecodeBytes | arcom_fe_mc/can.c:668-714 | Byte by byte: polarization, word with its high byte first, float with its first byte as the most significant; accepted exactly up to 2, 4095 and between 0 and 2.5 |
| CanPaLimits.EncodeBytes | arcom_fe_mc/can.c:659-717 | The same layout, written |
| CanPaLimits.MessagesGiveSafeLimits | arcom_fe_mc/can.c:668-714 | Whatever messages arrive, every limit the table then gives lies in [0, 2.5], if the memory it reuses held values in that range; LiveTablesGiveSafeLimits does without the condition |
| CanPaLimits.LiveTablesGiveSafeLimits | arcom_fe_mc/can.c:668-714 | Every limit any live table gives lies in [0, 2.5], memory reused or not: the handlers keep every row of every table's memory, used or not, in that range |
| PaLimitsTable.LiveLimitsInRange | arcom_fe_mc/lo.c:738-747 | A live table gives no limit outside the range of its memory |
| CanPaLimits.ChangeEndian | arcom_fe_mc/globalDefinitions.c:56-62 | Four bytes reversed, the rest of the destination unchanged |
| CanPaLimits.ChangeEndianInt | arcom_fe_mc/globalDefinitions.c:70-76 | The bytes of each of two words swapped, the rest unchanged |
| CanPaLimits.CanInterface.ClearPaLimits | arcom_fe_mc/can.c:622-644 | Empties the addressed band's table, no other |
| CanPaLimits.CanInterface.DecodeEntry | arcom_fe_mc/can.c:659-714 | The decoder that shifts the payload in place reads the three big-endian fields of the original payload |
| CanPaLimits.CanInterface.SetPaLimitsEntry | arcom_fe_mc/can.c:646-722 | A payload out of range leaves every table unchanged; one in range adds its entry to the addressed band and no other |
| CanPaLimits.CanInterface.AddDecoded | arcom_fe_mc/can.c:715-718 | One step of the upload fold for the addressed band, no other band touched, and rows stay in range |
| LoSafety.LoweredBeforeTuning | arcom_fe_mc/lo.c:820-916 | Between the lowering and the tuning, also between the two lowering writes, commanded voltages respect the limits at the old word; after both also at the new one |
| LoSafety.SoundIff | arcom_fe_mc/loSerialInterface.h:223 | The byte conversion turns a voltage into a setting worth no more than it (or than zero) exactly if 102 times the voltage is above -1 or truncates to a multiple of 256 |
| LoOutcomes.ScaledInRange | arcom_fe_mc/loSerialInterface.h:223 | From 0 to 2.5 V the setting is 102 per volt, rounded down |
| LoOutcomes.ChannelsByBand | arcom_fe_mc/paChannel.c:291-313 | In bands 3, 4, 8, 9 and 10 the polarizations are wired crosswise, in the others straight |
| LoSafety.NegativeCommandWraps | arcom_fe_mc/loSerialInterface.h:223 | -0.01 V becomes 255, which is 2.5 V |
| LoSafety.StepKeepsWithin | arcom_fe_mc/yto.c:51-126 | Every command outside troubleshooting mode keeps the commanded voltages within the limits at the recorded tuning word |
| LoSafety.StepKeepsWithinIff | arcom_fe_mc/yto.c:51-126 | In every mode a command keeps the commanded voltages within the limits; in troubleshooting mode, which limits nothing, exactly if they fit by themselves |
| LoOutcomes.WarmIsRefused | arcom_fe_mc/paChannel.c:141-172 | In bands 3 to 10, outside troubleshooting, with neither stage between 0 and 30 K, a drain command is refused and changes nothing |
| LoOutcomes.ColdIsDriven | arcom_fe_mc/paChannel.c:141-206 | With one stage between 0 and 30 K, in bands 1 and 2, and in troubleshooting, the lesser of voltage and limit is recorded and sent, and the status says whether it was lowered or lost |
| LoOutcomes.TuningOutcome | arcom_fe_mc/lo.c:820-916 | Each polarization is brought down to its own limit at the new word, no further and only if above; the status tells of a lost write, else of any lowering |
| LoOutcomes.RetuneOutcome | arcom_fe_mc/yto.c:51-126 | Outside simulation and troubleshooting record and hardware are tuned exactly when the word is in range, no lowering write is lost and the tuning write is accepted |
| LoOutcomes.InitOutcome | arcom_fe_mc/lo.c:57-108 | Outside simulation an initialization succeeds exactly if no write fails, and leaves everything zero |
| LoOutcomes.GateOutcome | arcom_fe_mc/loSerialInterface.c:1355-1467 | A gate write delivers all pots |
| LoOutcomes.SimulationWritesNothing | arcom_fe_mc/loSerialInterface.c:1355-1467 | No simulated command reaches pots, amplifiers or oscillator |
| LoSafety.InitKeepsWithin | arcom_fe_mc/lo.c:57-108 | An initialization that stops anywhere keeps them too |
| LoSafety.InitEstablishesWithin | arcom_fe_mc/lo.c:57-169 | A completed initialization establishes them whatever came before |
| LoSafety.RunKeepsWithin | arcom_fe_mc/lo.c:767-916 | In every run outside troubleshooting mode, under arbitrary write failures, the last commanded voltages never exceed the limits at the recorded tuning word |
| LoSafety.UploadsKeepWithin | arcom_fe_mc/lo.c:546-637 | Uploads do not endanger voltages already commanded when tuned below the last two rows |
| LoSafety.RetuneHardwareSafeIff | arcom_fe_mc/lo.c:820-916 | A live retune (neither simulation nor troubleshooting) leaves the amplifiers within the limits unless the commanded voltages already fit the new word while an amplifier is above it: exactly then not |
| LoSafety.StepHardwareSafeIff | arcom_fe_mc/yto.c:51-126 | In every mode and under arbitrary write failures, a command keeps pots low, the recorded word true and commands and amplifiers within the limits exactly if it is safe: live retunes not treacherous, live drain commands not wrapping, simulated and troubleshooting ones under their own conditions on what is recorded, gate commands and live initializations always |
| LoSafety.RunHardwareSafeIff | arcom_fe_mc/lo.c:767-916 | Over whole runs in any mixture of modes, under arbitrary write failures: that state, hence the hardware's safety, holds throughout if and only if every step is safe |
| LoDelivery.StatusTellsDelivery | arcom_fe_mc/loSerialInterface.c:1440-1460 | A command that reports no error loses no pot write; a live drain, gate or initialization command that reports none makes up for those lost before |
| LoDelivery.KnownIsDelivered | arcom_fe_mc/paChannel.c:198-206 | No error since the last command that wrote the pots means the amplifiers hold what the pots hold |
| LoDelivery.DeliveredIsSafe | arcom_fe_mc/lo.c:820-916 | Then no live retune is treacherous |
| LoDelivery.CarefulRunsAreSafe | arcom_fe_mc/lo.c:812-813 | Outside simulation and troubleshooting, a caller who commands no wrapping voltage and retunes only while the reported statuses say so keeps the amplifiers within the limits throughout, whatever writes fail |
| LoDelivery.RunKeepsHardwareSafe | arcom_fe_mc/lo.c:812-813 | Outside simulation and troubleshooting, without lost writes and wrapping commands, the amplifiers hold what was commanded and respect the limits at the hardware's tuning word throughout |
| LoDelivery.StepKeepsPots | arcom_fe_mc/loSerialInterface.c:1355-1467 | Outside simulation drain, gate and tuning commands (not initializations) keep the settings of the commanded voltages in the pot register, lost writes or not |
| LoDelivery.InitKeepsPotsIff | arcom_fe_mc/lo.c:57-169 | Outside simulation an initialization does so exactly if it does not start, completes its drain writes, or fails to record as zero only what was set to zero |
| LoDelivery.LostWritesDefeatTheLimit | arcom_fe_mc/lo.c:759-760 | A run in which two lowering writes are lost and the command is repeated: 2.0 V stand at a 1.0 V limit |
| LoDelivery.SimulatedRetuneDefeatsTheLimit | arcom_fe_mc/loSerialInterface.c:186-232 | A run without a lost write: a simulated retune moves the record alone, and a live command clamped by it puts 2.0 V at a 1.0 V limit |
| LoDelivery.NegativeCommandDefeatsTheLimit | arcom_fe_mc/paChannel.c:174-199 | A run without a lost write: -0.01 V passes the clamp and puts 2.5 V at a 1.0 V limit |
| LoTables.UploadKeepsWithinIff | arcom_fe_mc/lo.c:546-637 | An upload leaves voltages within the limits in force exactly if it does not touch the limit at their word or they fit the new one, given by the uploaded row and its neighbour |
| LoTables.StepSafeIff | arcom_fe_mc/can.c:622-722 | One command, upload or clear keeps commands and amplifiers within the limits in force exactly if it is safe |
| LoTables.RunKeepsLimitsInForceIff | arcom_fe_mc/can.c:622-722 | Over every interleaving of commands in any mode with uploads and clears: throughout if and only if every step is safe |
| LoSafety.InitEstablishesGuard | arcom_fe_mc/lo.c:57-108 | Outside simulation a completed initialization establishes the state the run theorems start from |
| LocalOscillator.Oscillator.SetPaDrain | arcom_fe_mc/loSerialInterface.c:1355-1467 | One drain voltage scaled to its pot byte and sent; a lost write leaves it in the pot register |
| LocalOscillator.Oscillator.SetPaGate | arcom_fe_mc/loSerialInterface.c:1355-1467 | A gate write carries the whole pot register |
| LocalOscillator.Oscillator.SetYtoCoarseTune | arcom_fe_mc/loSerialInterface.c:186-232 | Shadow and hardware move together or not at all |
| LocalOscillator.Oscillator.LowerDrain | arcom_fe_mc/lo.c:846-893 | Lowers only a voltage above the maximum, stores before it sends |
| LocalOscillator.Oscillator.LimitSafeYtoTuning | arcom_fe_mc/lo.c:820-916 | Both polarizations brought to the limits at the new word, the conversion buffer handed back |
| LocalOscillator.Oscillator.YtoCoarseTuneHandler | arcom_fe_mc/yto.c:51-126 | Limit first, then tune, abort on error |
| LocalOscillator.Oscillator.LimitSafePaDrainVoltage | arcom_fe_mc/lo.c:767-809 | The voltage in the conversion buffer clamped to the limit in force |
| LocalOscillator.Oscillator.DrainVoltageHandler | arcom_fe_mc/paChannel.c:117-210 | Refused without effect when no stage is between 0 and 30 K, except in bands 1 and 2 and in troubleshooting; otherwise clamp, store as last commanded, send |
| LocalOscillator.Oscillator.CommandDrain | arcom_fe_mc/paChannel.c:174-210 | The accepted command: clamp, store, send |
| LocalOscillator.Oscillator.DriveEnabled | arcom_fe_mc/paChannel.c:141-172 | When the amplifiers may be driven at all |
| LocalOscillator.Oscillator.LoZeroPaDrainVoltage | arcom_fe_mc/lo.c:114-169 | Drains zeroed, stopping at the first failure |
| LocalOscillator.Oscillator.LoZeroPaGateVoltage | arcom_fe_mc/lo.c:175-210 | Gates zeroed, stopping at the first failure |
| LocalOscillator.Oscillator.LoInit | arcom_fe_mc/lo.c:57-108 | The initialization, refining its step function |
| ErrorLog.UnreadAreNewest | arcom_fe_mc/error.c:200-222 | In every run the unread errors are the newest stored ones, at most 255, in order; stored = delivered + lost + unread |
| ErrorLog.LossIffIncomplete | arcom_fe_mc/error.c:200-222 | Nothing was lost if and only if delivered and unread together are everything stored |
| ErrorLog.DeliveredInOrder | arcom_fe_mc/can.c:450-464 | Delivered errors are an in-order subsequence of those stored, all older than the unread ones |
| ErrorLog.RingStore | arcom_fe_mc/error.c:205-214 | Overwriting the oldest slot in the ring is keeping the newest 255 in the queue |
| ErrorLog.RingPop | arcom_fe_mc/can.c:455-460 | Advancing the oldest index is taking the head of the queue |
| ErrorLog.MarkerIffEmpty | arcom_fe_mc/can.c:455-459 | In every run the reader answers 0xFFFF exactly when nothing is unread |
| ErrorLog.CodeBytes | arcom_fe_mc/error.c:205-207 | A stored code carries the module number in its high byte and the error number in its low byte |
| ErrorLog.SlotPastAllocationIff | arcom_fe_mc/error.h:24 | The slot used for the n-th error, which StoreError writes, lies past the allocated 255 exactly when n is 255 modulo 256 |
| ErrorLog.ErrorHistory.constructor | arcom_fe_mc/error.c:114-151 | Empty history, or the one fixed code when there is no memory |
| ErrorLog.ErrorHistory.StoreError | arcom_fe_mc/error.c:200-222 | Appends to the queue, dropping the oldest beyond 255, and writes the slot of the number of errors stored so far; nothing when disabled |
| ErrorLog.ErrorHistory.GetErrorsNumber | arcom_fe_mc/can.c:439-449 | Equals the number of unread errors across the index wrap |
| ErrorLog.ErrorHistory.GetNextError | arcom_fe_mc/can.c:450-464 | Takes the oldest unread error, or answers 0xFFFF and changes nothing |
| HexParser.SumIsHorner | arcom_fe_mc/globalDefinitions.c:150-173 | For every string the sum of digits times powers of sixteen is its Horner value |
| HexParser.PartialSumsBounded | arcom_fe_mc/globalDefinitions.c:150-173 | No partial sum exceeds the value, so a value below 2^31 does not overflow the 32-bit accumulator on the way |
| HexParser.HornerOfHex | arcom_fe_mc/globalDefinitions.c:150-173 | The digits of n evaluate to n, in either case or mixed |
| HexParser.PrefixIsNeutral | arcom_fe_mc/globalDefinitions.c:150-173 | The prefix takes part in the loop and adds nothing |
| HexParser.HexRoundTrip | arcom_fe_mc/globalDefinitions.c:150-173 | Every n below 2^31 reads back from its prefixed hexadecimal digits |
| HexParser.PrefixMeansHexadecimal | arcom_fe_mc/globalDefinitions.c:150-173 | A string with the prefix anywhere in it is read as hexadecimal |
| HexParser.OtherwiseDecimal | arcom_fe_mc/globalDefinitions.c:150-173 | Every other string is read as decimal |
| HexParser.Htol | arcom_fe_mc/globalDefinitions.c:150-173 | The loop computes the Horner value of the part of the string its byte-wide length covers |
| IfSwitch.StopsAtFirstFailure | arcom_fe_mc/ifSwitch.c:127-147 | The command stops at k if and only if everything below k was in range and written and k was not |
| IfSwitch.AllSetIff | arcom_fe_mc/ifSwitch.c:127-147 | All four are set exactly when all bytes are at most 15 and all writes succeed |
| IfSwitch.ServoBits | arcom_fe_mc/ifSerialInterface.c:181-227 | Writing one servo's bit changes that servo and no other |
| IfSwitch.ServoRegister | arcom_fe_mc/ifSerialInterface.h:136-137 | Bit c of the register is servo c |
| IfSwitch.Switch.SetIfChannelAttenuation | arcom_fe_mc/ifSerialInterface.c:365-512 | Shadow, hardware and status change together for one channel, or not at all |
| IfSwitch.Switch.SetFromPayload | arcom_fe_mc/ifSwitch.c:130-147 | One turn of the loop, reading the channel's byte before overwriting the first one |
| IfSwitch.Switch.AllChannelsHandler | arcom_fe_mc/ifSwitch.c:117-149 | The attenuations become the first k payload bytes followed by the old values, k being the first bad byte or failed write; outside simulation registers, hardware and status agree throughout |
| IfSwitch.SpliceSlices | arcom_fe_mc/ifSwitch.c:127-147 | What the loop leaves is a prefix of the payload and the rest of the old values |
| IfSwitch.Switch.AllChannelsMonitor | arcom_fe_mc/ifSwitch.c:162-169 | The reply lists the four attenuations |
| IfSwitch.Switch.SetIfTempServoEnable | arcom_fe_mc/ifSerialInterface.c:181-227 | One servo's bit, rolled back on failure; outside simulation status, shadow and hardware in agreement |
| CryoValves.WriteView | arcom_fe_mc/cryostatSerialInterface.h:194-222 | Writing one bit field of the packed register changes that field and no other |
| CryoValves.RegisterBits | arcom_fe_mc/cryostatSerialInterface.h:194-222 | Which bit of the register is which device |
| CryoValves.GateOutcome | arcom_fe_mc/gateValve.c:54-124 | The gate valve's bit becomes what is commanded, both ways, exactly when the command is live, the pump recorded on, the sensors read and not moving and the write accepted, and exactly then no error is reported; no other bit changes |
| CryoValves.GateReading | arcom_fe_mc/cryostatSerialInterface.c:529-603 | What the four sensors are taken to say |
| CryoValves.SolenoidOutcome | arcom_fe_mc/solenoidValve.c:44-91 | The solenoid valve's bit follows the command both ways, when the pump is recorded on and the write accepted, and nothing else changes |
| CryoValves.TurboOutcome | arcom_fe_mc/turboPump.c:57-140 | The turbo pump's bit and record follow the command both ways, unless the backing pump is recorded off, an enable finds the pump outside 10 to 45 degrees, or the write fails |
| CryoValves.VacuumOutcome | arcom_fe_mc/vacuumController.c:58-88 | The inverted bit and the record follow the command both ways |
| CryoValves.BackingOutcome | arcom_fe_mc/backingPump.c:50-106 | Off means gate valve, solenoid valve, turbo pump and backing pump in this order, up to the first write that fails; on means the pump's bit alone |
| CryoValves.RunKeepsInterlock | arcom_fe_mc/backingPump.c:50-106 | In every run from startup, in any mixture of modes and under arbitrary write failures, in which simulation never records a stopped pump as running: backing-pump bit off means both valves commanded closed and the turbo pump off; the shadow never departs from the hardware |
| CryoValves.InterlockWithoutSimulatedEnable | arcom_fe_mc/backingPump.c:50-106 | So it is in every run without a simulated enable command for the backing pump |
| CryoValves.StepKeepsInterlockIff | arcom_fe_mc/gateValve.c:54-124 | One event breaks the interlock exactly when, outside simulation, it opens a valve or starts the turbo pump while the pump is recorded as running and is not |
| CryoValves.StepKeepsGuardIff | arcom_fe_mc/cryostatSerialInterface.c:300-349 | The record says running only of a running pump, and the interlock holds, until simulation switches on the record of a stopped pump: exactly then not |
| CryoValves.StepKeepsShadow | arcom_fe_mc/cryostatSerialInterface.c:300-349 | In every mode the shadow is the value the hardware last accepted |
| CryoValves.StepKeepsTracksIff | arcom_fe_mc/cryostatSerialInterface.c:300-349 | In every mode a command keeps shadow and backing-pump record equal to the hardware, except that a simulated pump command does so exactly if it records the pump's state |
| CryoValves.StartupAgreesIff | arcom_fe_mc/cryostat.c:216-290 | The recorded vacuum-controller state is right in the first state exactly when the configuration file could be read; pump records and interlock are right either way |
| CryoValves.VacuumAgreesIff | arcom_fe_mc/cryostatSerialInterface.c:904-953 | The vacuum-controller record is right after a command exactly when it was before or has just been commanded; after a simulated vacuum command exactly when it names the hardware's state |
| CryoValves.RunKeepsRecords | arcom_fe_mc/cryostat.c:216-290 | Outside simulation, from startup on shadow and backing-pump record agree with the hardware; the vacuum-controller record does exactly if the configuration file was read or a vacuum command was accepted |
| CryoValves.TurboStaysInAgreementIff | arcom_fe_mc/turboPump.c:100-140 | In every mode the recorded turbo-pump state stays true except when a running pump's enable command is refused for its temperature, or a simulated command records another state: exactly then it is lost |
| CryoValves.RunKeepsTurbo | arcom_fe_mc/turboPump.c:57-140 | In every run from startup, in any mixture of modes, without such a command the recorded turbo-pump state is the bit |
| CryoValves.RefusalLosesTurbo | arcom_fe_mc/turboPump.c:100-140 | A concrete run from startup: the turbo pump runs and is recorded as off |
| CryoValves.SimulatedEnableLosesTurbo | arcom_fe_mc/turboPump.c:57-140 | A concrete run from startup: a stopped turbo pump is recorded as running |
| CryoValves.BackingOffReport | arcom_fe_mc/backingPump.c:57-91 | An accepted switch-off is complete; but success is reported with the pump left on exactly when a preparing write failed |
| CryoValves.SilentSwitchOff | arcom_fe_mc/backingPump.c:57-75 | A concrete run: both pumps go on running and the switch-off reports no error |
| CryoValves.SimulationDefeatsInterlock | arcom_fe_mc/gateValve.c:54-124 | A concrete run: an enable recorded in simulation lets the gate valve open with the real pump off |
| CryoControl.Cryostat.WriteBReg | arcom_fe_mc/cryostatSerialInterface.c:300-349 | One field of the packed register, shadow rolled back on failure |
| CryoControl.Cryostat.CryostatStartup | arcom_fe_mc/cryostat.c:216-290 | The state startup leaves, with and without its configuration file |
| CryoControl.Cryostat.SetBackingPumpEnable | arcom_fe_mc/cryostatSerialInterface.c:300-349 | The backing-pump bit and its recorded state |
| CryoControl.Cryostat.SetTurboPumpEnable | arcom_fe_mc/cryostatSerialInterface.c:435-484 | The turbo-pump bit and its recorded state |
| CryoControl.Cryostat.SetVacuumControllerEnable | arcom_fe_mc/cryostatSerialInterface.c:904-953 | The inverted vacuum-controller bit and its recorded state |
| CryoControl.Cryostat.SetGateValveState | arcom_fe_mc/cryostatSerialInterface.c:683-723 | The gate-valve bit only |
| CryoControl.Cryostat.SetSolenoidValveState | arcom_fe_mc/cryostatSerialInterface.c:744-783 | The solenoid-valve bit only |
| CryoControl.Cryostat.BackingPumpHandler | arcom_fe_mc/backingPump.c:50-106 | The ordered shutdown with its early returns |
| CryoControl.Cryostat.GetGateValveState | arcom_fe_mc/cryostatSerialInterface.c:529-603 | The gate state derived from the two position sensors and the pump state |
| CryoControl.Cryostat.GateValveHandler | arcom_fe_mc/gateValve.c:47-124 | Guarded by the backing pump and by a known gate state |
| CryoControl.Cryostat.SolenoidValveHandler | arcom_fe_mc/solenoidValve.c:44-91 | Guarded by the backing pump |
| CryoControl.Cryostat.TurboPumpHandler | arcom_fe_mc/turboPump.c:57-140 | Guarded by the backing pump and, for enabling, by the pump's temperature |
| CryoControl.Cryostat.VacuumControllerHandler | arcom_fe_mc/vacuumController.c:58-88 | Unguarded |
| ColdHead.StepKeepsSavedIff | arcom_fe_mc/frontend.c:203-222 | An unmarked counter equals the file, except after a failing save of a new value: exactly then not |
| ColdHead.SaveOutcome | arcom_fe_mc/frontend.c:203-222 | A save that succeeds leaves the hours in the file and no mark |
| ColdHead.StartupOutcome | arcom_fe_mc/cryostat.c:183-214 | Hours that could be read are taken over unmarked, otherwise zero hours marked |
| ColdHead.ColdMeansTwoOfThree | arcom_fe_mc/cryostat.c:658-683 | An interval is cold when at least two of the three stages read between 0 and 265 K |
| ColdHead.FailingSaveInARun | arcom_fe_mc/frontend.c:203-222 | A concrete run from startup: hours set, save fails, mark gone, file old |
| ColdHead.RunKeepsSaved | arcom_fe_mc/cryostat.c:183-214 | In every run without failing saves, unmarked means saved |
| ColdHead.SavedHoursSurviveRestart | arcom_fe_mc/cryostat.c:183-214 | Hours saved before a restart are the hours after it |
| ColdHead.EveryIntervalJudgedOnce | arcom_fe_mc/cryostat.c:597-694 | Every expired interval is judged once: none skipped, none twice |
| ColdHead.HoursCountColdIntervals | arcom_fe_mc/cryostat.c:597-694 | Between set commands the hours grow by exactly the number of intervals at which two of three stages were cold, modulo 2^32 |
| ColdHead.HoursAfterSet | arcom_fe_mc/cryostat.c:398-447 | A set command discards what was counted before it |
| ColdHead.HoursLog.CryostatStartup | arcom_fe_mc/cryostat.c:183-214 | Missing or unreadable file: zero hours, marked for saving |
| ColdHead.HoursLog.CryostatAsyncLogHours | arcom_fe_mc/cryostat.c:597-694 | The interval machine in place: hours and mark change only when an expired interval is judged cold |
| ColdHead.HoursLog.ColdHeadHoursHandler | arcom_fe_mc/cryostat.c:398-447 | Sets and marks |
| ColdHead.HoursLog.FrontendWriteNVMemory | arcom_fe_mc/frontend.c:203-222 | Saves when marked and clears the mark whatever the file update returned |
| CryoSampling.AddressesDistinct | arcom_fe_mc/cryostatTemp.c:27-39 | The sixteen monitor-point addresses are pairwise different |
| CryoSampling.AddressTable | arcom_fe_mc/cryostatTemp.c:27-39 | The sixteen addresses |
| CryoSampling.PhasesInOrder | arcom_fe_mc/cryostatSerialInterface.c:55-279 | Address, wait started, wait run out, conversion, ready, read-out: in this order, each on its own condition, and every failure starts over |
| CryoSampling.SampleOutcome | arcom_fe_mc/cryostatSerialInterface.c:1016-1202 | A finished conversion stores its value for its channel and nothing else |
| CryoSampling.StagesAreCryocoolers | arcom_fe_mc/cryostat.c:658-660 | The hours look at sensors 0, 5 and 9 |
| CryoSampling.StepOrder | arcom_fe_mc/cryostat.c:473-594 | A visit that ends leads to the next channel, after the last one to the hours, and from there to channel 0 |
| CryoSampling.ChannelsInTurn | arcom_fe_mc/cryostat.c:473-594 | In every run from startup the visits end in the order 0 to 15 and round, none left out, and the turn is handed on after channel 15 and after the hours only |
| CryoSampling.SampleKeeps | arcom_fe_mc/cryostatSerialInterface.c:55-279 | One call towards a sample: the multiplexer keeps the channel's address while a conversion is under way |
| CryoSampling.StepKeepsCoherentIff | arcom_fe_mc/cryostat.c:456-563 | The shared converter stays with the current channel except when a simulated call falls into a conversion: exactly then not |
| CryoSampling.StepKeepsUnmixed | arcom_fe_mc/cryostat.c:473-563 | No call files a sample under another channel while the converter is with the current one |
| CryoSampling.NoTwoConversionsMix | arcom_fe_mc/cryostatSerialInterface.c:55-279 | Over all interleavings of serial errors, timer errors, busy polls and retries, with simulated calls only between conversions, every sample stored comes from a conversion started while the multiplexer held its own channel's address |
| CryoSampling.SimulationMixes | arcom_fe_mc/cryostatSerialInterface.c:1016-1202 | Entering simulation before the read-out files one channel's conversion under the next channel |
| CryoSampling.SimulationMixesInARun | arcom_fe_mc/cryostatSerialInterface.c:1016-1202 | Seven calls from startup that file the first temperature's conversion under the second |
| CryoAsync.CryostatMonitor.GetCryoAnalogMonitor | arcom_fe_mc/cryostatSerialInterface.c:55-279 | The static converter machine in place: every phase, its error exits back to the start, and the retry count that survives a failed poll |
| CryoAsync.CryostatMonitor.GetCryostatTemp | arcom_fe_mc/cryostatSerialInterface.c:1016-1202 | Stores only when the conversion is done, the failure mark on a domain error, and nothing else changes |
| CryoAsync.CryostatMonitor.GetVacuumSensor | arcom_fe_mc/cryostatSerialInterface.c:804-879 | The same for the current pressure channel |
| CryoAsync.CryostatMonitor.GetSupplyCurrent230V | arcom_fe_mc/cryostatSerialInterface.c:367-415 | The same for the supply current, which has no domain error |
| CryoAsync.CryostatMonitor.NextSensor | arcom_fe_mc/cryostat.c:502-507 | On to the next channel or task, cursors wrapping |
| CryoAsync.CryostatMonitor.CryostatAsync | arcom_fe_mc/cryostat.c:456-594 | A failed channel is passed over like a done one; only the last channel and the hours hand the turn on |
| FetimSampling.StepKeepsCoherentIff | arcom_fe_mc/fetimSerialInterface.c:664-747 | The selected monitor point stays the current one except when a simulated call falls between selecting and reading |
| FetimSampling.StepKeepsUnmixed | arcom_fe_mc/fetim.c:155-215 | No call files a reading under another point while the selected point is the current one |
| FetimSampling.StepOutcome | arcom_fe_mc/fetim.c:155-285 | The points are read in order, then the pressure is judged, then the shutdown request looked at, which ends the program exactly when it is there |
| FetimSampling.SampleOutcome | arcom_fe_mc/fetimSerialInterface.c:172-271 | A completed reading stores its value for its point and nothing else |
| FetimSampling.SafeMeans | arcom_fe_mc/vacuumSensor.h:31 | Safe means measured, valid and at most 0.0005 |
| FetimSampling.ReadingsBelongToTheirPoints | arcom_fe_mc/fetimSerialInterface.c:172-271 | Over all runs in which no simulated call falls between selecting a point and reading it, every temperature and pressure was read at the point selected for it |
| FetimSampling.StepKeepsBelief | arcom_fe_mc/fetim.c:217-260 | What the routine believes it reported is the verdict on the pressure judged last |
| FetimSampling.ReportStaysCurrentIff | arcom_fe_mc/fetim.c:217-260 | The reported status follows the verdict except when the write of a change fails: exactly then not |
| FetimSampling.StatusIsTheVerdict | arcom_fe_mc/fetim.c:217-260 | Without failing writes the status is SAFE exactly when the pressure last judged was initialised, valid and within the maximum |
| FetimSampling.LostReportPersists | arcom_fe_mc/fetim.c:250-256 | A lost report is never repeated while the verdict stays the same |
| FetimSampling.ReportLostInARun | arcom_fe_mc/fetim.c:217-260 | A concrete run from startup that loses a report |
| FetimAsync.FetimMonitor.GetFetimSerialMonitor | arcom_fe_mc/fetimSerialInterface.c:664-747 | A failed read goes back to selecting, a failed selection stays there |
| FetimAsync.FetimMonitor.GetFetimExtTemp | arcom_fe_mc/fetimSerialInterface.c:172-216 | Stores only a completed reading, from the point the hardware holds |
| FetimAsync.FetimMonitor.GetCompHe2Press | arcom_fe_mc/fetimSerialInterface.c:228-271 | The same for the tank pressure |
| FetimAsync.FetimMonitor.SetFeSafeStatus | arcom_fe_mc/fetimSerialInterface.c:351-394 | Status and shadow, rolled back on failure |
| FetimAsync.FetimMonitor.FetimAsync | arcom_fe_mc/fetim.c:136-292 | Reports only a changed verdict, ignores a failed report, and ends the program on a shutdown request |
| Cartridges.StepKeepsOneIniting | arcom_fe_mc/cartridge.c:570-791 | No step leaves a cartridge initializing other than the one the sweep is at |
| Cartridges.AtMostOneIniting | arcom_fe_mc/cartridge.c:585-692 | In every reachable state at most one cartridge is initializing, and it is the one the asynchronous process is parked on |
| CartridgeOutcomes.PowersUpOutcome | arcom_fe_mc/pdModule.c:243-318 | When exactly a cartridge that is off is powered up, by band, limits and write, and what is then on, powered and counted; otherwise nothing changes |
| CartridgeOutcomes.PowersDownOutcome | arcom_fe_mc/pdModule.c:423-480 | A cartridge that is on is switched off, unpowered and no longer counted, or faulty if the write fails |
| CartridgeOutcomes.ChangesOutcome | arcom_fe_mc/pdModule.c:320-417 | When exactly a cartridge that is on changes between ordinary and standby operation; a faulty one takes no command but off |
| CartridgeOutcomes.IdleOutcome | arcom_fe_mc/cartridge.c:585-607 | The sweep takes up cartridges that are on or to go to standby, and passes every other one |
| CartridgeOutcomes.InitOutcome | arcom_fe_mc/cartridge.c:696-791 | Wait, then initialize; ready exactly on success, off or faulty on failure |
| CartridgeOutcomes.LeavesOutcome | arcom_fe_mc/cartridge.c:794-892 | A cartridge switched off meanwhile stays off; one to go to standby is ready then |
| Cartridges.StepKeepsTrustIff | arcom_fe_mc/pdModule.c:104-490 | One step keeps ready and going-to-standby cartridges initialized, with what that rests on, except two kinds of power command, told by state and counters: standby for a cartridge still to be initialized, and power-on during its transition to standby. Exactly then not |
| Cartridges.SkippingShows | arcom_fe_mc/cartridge.c:570-692 | Each of those commands makes the property false at once or by the next call of the sweep, whatever the hardware answers |
| Cartridges.ReadyMeansInitializedIff | arcom_fe_mc/cartridge.c:585-692 | Over whole runs: the property holds after every event and after any further call of the sweep if and only if no command of the run skips an initialization |
| Cartridges.ReadyCartridgesAreInitialized | arcom_fe_mc/cartridge.c:760-778 | On every run without skipping commands every ready cartridge, and every one on its way to standby, has been initialized since its last power-on |
| Cartridges.StepKeepsRestedIff | arcom_fe_mc/cartridge.c:769-778 | The next power-up begins with its wait, except after an initialization that failed following its own wait |
| Cartridges.RunKeepsRested | arcom_fe_mc/cartridge.c:769-778 | So it does in every run without such a failure |
| Cartridges.StepWaitsIff | arcom_fe_mc/cartridge.c:696-791 | An initialization about to be carried out follows a wait begun after the power-on and run out, except after such a failure or after off and on between two calls: exactly then not |
| Cartridges.InitializationsFollowTheirWait | arcom_fe_mc/cartridge.c:696-791 | In every run without those steps every initialization carried out follows its own expired wait |
| CartridgeRuns.ReadyWithoutInitialization | arcom_fe_mc/pdModule.c:365-417 | A run from startup with at most one command between calls that makes band 6 ready without any initialization |
| CartridgeRuns.StandbyDuringInitialization | arcom_fe_mc/pdModule.c:365-417 | A run from startup that sends band 6 to standby, uninitialized, while its power-up wait runs |
| CartridgeRuns.InitializedWithoutWaiting | arcom_fe_mc/cartridge.c:769-778 | A run from startup in which band 1 fails its initialization and band 2 is then initialized without any wait |
| CartridgeBudget.StepKeepsRecordsIff | arcom_fe_mc/cartridge.c:613-660 | The record of powered modules matches the cartridge states, except after a failed initialization that switched off the module addressed last instead of its own |
| CartridgeBudget.RunKeepsRecords | arcom_fe_mc/cartridge.c:613-660 | In every run without such a failure the records match |
| CartridgeBudget.SlotPastRecordsIff | arcom_fe_mc/pdSerialInterface.c:223-228 | No event changes another record than the slot it writes, and that slot lies past the ten records exactly when an initialization fails while no module is addressed |
| CartridgeRuns.RecordPastTheEnd | arcom_fe_mc/pdSerialInterface.c:223-228 | A run from startup that writes the eleventh record |
| CartridgeBudget.StrangerLosesPower | arcom_fe_mc/pdSerialInterface.c:183-231 | Then a ready cartridge is recorded as unpowered, and the failed one as powered |
| CartridgeRuns.StrangerInARun | arcom_fe_mc/pdSerialInterface.c:183-231 | A run from startup that ends so |
| CartridgeBudget.TallyUpdate | arcom_fe_mc/powerDistribution.h:80-89 | How one cartridge's change moves the number of powered cartridges |
| CartridgeBudget.StepCountsIff | arcom_fe_mc/pdModule.c:104-490 | Both counters stay exact except after a failed switch-off of a standby cartridge or a failed initialization of an off or standby one: exactly then not |
| CartridgeBudget.PowerBudget | arcom_fe_mc/powerDistribution.h:37-38 | On every run without those steps and outside troubleshooting: counters exact, at most three cartridges ordinarily powered, at most one in standby, only band 6 |
| CartridgeBudget.FailedStandbyInit | arcom_fe_mc/cartridge.c:640-655 | A failed initialization in standby lowers the wrong counter and leaves standby counted as taken |
| CartridgeBudget.LimitExceeded | arcom_fe_mc/pdModule.c:67-88 | After it a fourth ordinary cartridge can be switched on outside troubleshooting |
| CartridgeRuns.LimitExceededInARun | arcom_fe_mc/pdModule.c:67-88 | A run from startup, operational mode only, that ends with four ordinary cartridges powered |
| CartridgePower.CartridgeMonitor.SetPdModuleEnable | arcom_fe_mc/pdSerialInterface.c:183-231 | Records the switch for the module addressed last, nothing on failure |
| CartridgePower.CartridgeMonitor.CartridgeStop | arcom_fe_mc/cartridge.c:195-213 | Off, out of standby, and nothing else |
| CartridgePower.CartridgeMonitor.AsyncCartridgeInit | arcom_fe_mc/cartridge.c:696-791 | The init machine in place: switched off meanwhile, timer failures back to the start, a failed initialization leaving the machine where it is |
| CartridgePower.CartridgeMonitor.AsyncCartridgeGoStandby2 | arcom_fe_mc/cartridge.c:794-892 | Ready, unless switched off meanwhile |
| CartridgePower.CartridgeMonitor.AbandonInit | arcom_fe_mc/cartridge.c:613-660 | What a failed initialization does to states, records and counters |
| CartridgePower.CartridgeMonitor.CartridgeAsync | arcom_fe_mc/cartridge.c:570-692 | The sweep in place: moves on unless a task is under way, gives up a failed initialization, and is done after the tenth cartridge |
| CartridgePower.CartridgeMonitor.EnableHandler | arcom_fe_mc/pdModule.c:104-480 | The power command, and whether it asks for the turn |
| CartridgePower.CartridgeMonitor.SwitchOn | arcom_fe_mc/pdModule.c:243-318 | Off to on or standby |
| CartridgePower.CartridgeMonitor.FromStandby | arcom_fe_mc/pdModule.c:322-363 | Standby to on |
| CartridgePower.CartridgeMonitor.ToStandby | arcom_fe_mc/pdModule.c:365-417 | On to standby |
| CartridgePower.CartridgeMonitor.SwitchOff | arcom_fe_mc/pdModule.c:423-480 | Any state to off |
| Scheduler.CryoProgress | arcom_fe_mc/cryostat.c:456-594 | A cryostat call that is not a poll of a running timer ends the visit or lowers its rank; busy polls count as progress, being at most eleven |
| Scheduler.SweepProgress | arcom_fe_mc/cartridge.c:570-692 | The same for the sweep, whatever the cartridges' states are and were changed to |
| Scheduler.FetimProgress | arcom_fe_mc/fetim.c:136-292 | The same for the interlock module |
| Scheduler.CallProgress | arcom_fe_mc/async.c:29-94 | Every call that does not merely poll a running timer hands the turn on or brings that nearer |
| Scheduler.TurnOutcome | arcom_fe_mc/async.c:29-94 | The turn goes from cryostat to cartridges to interlock module and back, exactly when the owner's routine is done or has failed; the switch turns the process off, and on again at the cryostat |
| Scheduler.WakeOutcome | arcom_fe_mc/pdModule.c:280-415 | Powering up and sending to standby, and no other power command, give the cartridges the turn, also when the process is off |
| Scheduler.OthersUntouched | arcom_fe_mc/async.c:29-94 | A call serves its owner alone |
| Scheduler.StepDistance | arcom_fe_mc/async.c:29-94 | The calls left until a given subsystem's turn fall with every productive call; a waking command adds at most two visits |
| Scheduler.DistanceBudget | arcom_fe_mc/async.c:29-94 | Summed over a run: productive calls spent plus calls left never exceed the initial distance plus two visits per waking command |
| Scheduler.EverySubsystemIsServed | arcom_fe_mc/async.c:29-94 | With the cryostat present, the process on and no shutdown, every subsystem has had the turn after more than 513 productive calls, and 512 more for each power command that takes the turn away, whatever the hardware answers |
| Scheduler.CallsAreProductive | arcom_fe_mc/timer.c:83-107 | With timers that expire within w polls, all calls are bounded by the productive ones |
| Scheduler.ServedWithinBound | arcom_fe_mc/async.c:29-94 | Under the same conditions and with timers that expire, every subsystem is served within boundedly many calls of any kind |
| Scheduler.SweepEffortFalls | arcom_fe_mc/cartridge.c:570-692 | A productive call of the sweep brings the end of a pending initialization nearer, across the sweep's wrap-around |
| Scheduler.EveryCartridgeIsAttended | arcom_fe_mc/cartridge.c:570-692 | Under the same conditions a cartridge switched on has left the states on and initializing after more than 1074 productive calls of any subsystem, however many power commands interleave |
| Scheduler.StepNearerSample | arcom_fe_mc/cryostat.c:456-594 | Every productive call of any subsystem brings the end of a given channel's visit nearer; a command that takes the turn costs at most two visits |
| Scheduler.EveryChannelIsSampled | arcom_fe_mc/cryostat.c:456-594 | Under the same conditions each of the sixteen channels has been sampled, or its sampling has failed, after more than 2052 productive calls, and 512 more for each command that takes the turn away |
| Scheduler.RotationStops | arcom_fe_mc/cryostat.c:466-467 | Without a cryostat, once it has the turn, and likewise while the process is switched off, no number of calls changes anything |
| Scheduler.StepKeepsHealthy | arcom_fe_mc/async.c:29-94 | One subsystem's step spoils no other's invariant |
| Scheduler.SubsystemsStayHealthy | arcom_fe_mc/async.c:29-94 | Over every interleaving of calls and commands outside simulation, samples belong to their channels, the interlock module's belief is the verdict on the pressure judged last, and at most the parked cartridge is initializing |
| Scheduler.StepKeepsSafeIsMeasured | arcom_fe_mc/fetim.c:217-260 | A pressure judged safe was sampled from the cryostat pressure's own channel, or was left by a startup that could not mark it |
| Scheduler.SafeMeansMeasured | arcom_fe_mc/fetim.c:217-260 | Over every interleaving outside simulation, status writes succeeding: SAFE means that the pressure judged last was valid, low enough and sampled with the multiplexer on its own address, unless startup could not read its file and nothing has been sampled |
| Scheduler.StepNearer | arcom_fe_mc/fetim.c:217-260 | While SAFE stands against an unsafe pressure, every productive call brings the judging of it nearer; a command that takes the turn costs at most two visits |
| Scheduler.UnsafePressureIsAnswered | arcom_fe_mc/fetim.c:217-260 | Under the same conditions and with status writes that succeed, an unsafe pressure takes SAFE back (or becomes safe) within 1034 productive calls, and 512 more for each command that takes the turn away |
| SchedulerRuns.SafeWithNothingMeasured | arcom_fe_mc/cryostat.c:216-290 | A run from such a startup that reports SAFE before any pressure is measured |
| AsyncLoop.FrontEnd.Async | arcom_fe_mc/async.c:29-94 | The loop body over the three live objects, switched off or on, refines the scheduler's step; the interlock module judges the pressure the cryostat stored last |
| AsyncLoop.FrontEnd.PowerHandler | arcom_fe_mc/pdModule.c:104-480 | The power command over the live objects, taking the turn at lines 284 and 415 |
| AsyncLoop.FrontEnd.ToggleAsync | arcom_fe_mc/console.c:135-141 | The console's switch |

## Left out

- Floating point: `float` is `real`. Rounding, infinities and NaN are not modelled; a NaN would pass the decoder's range test. The conversion of a drain voltage to its pot byte is modelled, out-of-range values wrapping as usual compilers do (C leaves them undefined); gate pots and the remapping for one supplier's amplifiers are left out.
- ErrorLog.ErrorHistory.StoreError: the array has 256 slots here; the firmware allocates 255 and writes one past the end, as SlotPastAllocationIff says.
- PaUploads.UploadsFaithfulIff: tables loaded from INI files are not checked for order and are not covered; the lemmas that do not ask for an increasing table do cover them.
- PaLimitsTable.LimitsTable.AddEntry: an allocation that fails leaves an empty table; nothing more is said about later calls.
- PaLimitsTable.LimitsTable.FindMaxSafeEntry: the interpolated row is returned as a value; the firmware returns a pointer into a static buffer that the next search overwrites.
- HexParser.Htol: the decimal branch (`atol`) is a parameter; the accumulator is unbounded here, and by PartialSumsBounded a 32-bit one does not overflow for values below 2^31; larger values are not claimed.
- CartridgePower.CartridgeMonitor.SetPdModuleEnable: the record of the switch is modelled, not the route of the serial write, which depends on the module the asynchronous routine has selected. A write past the ten records (SlotPastRecordsIff) is modelled as changing none of them; what it overwrites instead depends on the memory layout.
- Cartridges.InitStep: starting, querying and stopping a timer may fail here at any time. With the timer numbers in use `timer.c` never reports a failure of the query or the stop, so the failure cases are then unreachable.
- CryoAsync.CryostatMonitor.GetCryostatTemp: scaling, sensor tables and the error flag `errno`, which is never cleared, are one parameter each: the value, and whether a domain error is seen. The per-sensor error arrays are left out.
- Error reports stored by the handlers, the records of the last control message beyond their status, and replies to monitor requests on control addresses.
- CryoValves.StartupAgreesIff: the control register is assumed clear at startup. Nothing writes it then, so after a restart without a power cycle the board may hold other bits until the first accepted write.
- Startup: an attempt that ends with an error leaves the program without asynchronous calls and is not modelled; power distribution startup is the initial state with every module off.
- Monitor handlers for single points, compressor, lasers, LNA, SIS and magnet control: one repeated template.
- The bias register: its shadow is kept per cartridge but written per polarization, so shadow and hardware need not agree.
- The temperature conversion of the bias module and the out-of-range arm of the coefficient handler: both index past or beside the table they search.
- Port access, CAN transport, one-wire bus, INI and FTP access, console output.
