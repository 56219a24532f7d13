# HeIMDALL active capability: a verified model

This project models the parts of the HeIMDALL DAQ firmware whose behaviour ranges over every run, every
interleaving or every time value, and proves what they promise.

- **Transmit protocol** (`TxProtocol`, `TxRely`, `TxSafety`, `TxRaces`, `TxChanges`). `ActiveBackend._tx_change`, `command_window`,
  `invalidate_time` and `tx_burst` as a step machine over any number of threads with the two locks, of
  which the transmit lock is re-entrant through command windows. The safety controller is an environment
  that may trip, disarm, arm or shut down between any two steps; it moves its trip generation only upwards
  and enters TRANSMITTING only in `consume`. The proof is by rely and guarantee.
- **Backend bookkeeping and the coherence generation** (`Backend`, `Coherence`, `History`, `BackendObject`). Phase
  order, references, time loads, rates, tunes, LO sharing and integer delays, with every hook outcome. The
  class `ActiveBackend` updates its fields in place and is proved against the functions on values.
- **LO phases** (`LoPlan`, `SimLo`, `LoPhases`, `LoReproduction`, `LoExact`, `LoMoves`,
  `LoSharing`, `SimLoLaws`, `SimLoObject`). The share roles, the class a
  tune reports, the class the simulator draws, and what an unchanged generation says about phases.
  Seeded random streams are arbitrary functions of their keys.
- **Simulator clocks** (`DeviceClock`, `Pps`, `SimClock`, `SimTime`, `SimTimeLaws`, `SimClockObject`). Piecewise linear device
  clocks, PPS edges and gaps, pending latches, virtual time. Exact fractions are `real`.
- **Exact time and streams** (`DevTime`, `HalfEven`, `RxStream`, `Noise`).
- **Planning and policy** (`Groups`, `Regulatory`), the **INI editor** (`IniText`, `IniGrammar`, `IniSpec`,
  `IniLaws`, `IniDocument`) and the **watchdog** (`Watchdog`). `Results` and `Reals` hold what several of them use.

Code that computes a value is a function here; code that updates variables or fields step by step is a
method or a class, proved against a function whose properties are the lemmas.

`dafny verify dfyconfig.toml` checks everything.

## Where the code does not meet the property

Each names the lemma with the failing case and the one with the exact condition.

- A burst matches its permit at the send if and only if no open landed since its last check, or the device is
  read back, or the configured values happen to match (`TxSafety.SendMatchesPermit`): `open` and `close` take
  `_lock` only (`TxRaces.ReopenBeforeSend`). The simulator answers rate, centre and LO offset from its physical
  state, which an open does not reset, so it always matches (`TxSafety.PhysicalSendMatches`).
- `invalidate_time` takes no transmit lock, so the time alignment and the tune can be gone at the send
  (`TxRaces.InvalidationBeforeSend`); rate, centre and LO offset still match. They are there if and only if neither an
  open nor an invalidation landed since the first check (`TxSafety.SendIsAlignedExactly`).
- A clock source change clears loaded times only from TIME_SET on, so a partial load survives it
  (`Coherence.PartialLoadSurvivesClockChange`, exactly: `Coherence.ReferenceChangeForgetsTimeExactly`).
- An unchanged generation does not always keep the phase relation of two channels: after a re-open the first
  timed stable tune of a direction does not bump although it redraws the phases (`LoMoves.FirstTuneMovesUnbumped`),
  and a shared LO moves against unshared ones (`LoMoves.MixedRetuneMoves`). Exactly when it is kept:
  `LoExactness.PairReproducedExactly`, and for directions tuned since the open
  `LoExactness.UnbumpedPairReproducedExactly`.
- A reported phase class can outrank the drawn one outside the stated capability table
  (`LoPhases.OverratedDevice`, exactly: `LoPhases.ReportedOutranksExactly`).
- A clock does not always run at the rate of its device's reference: a second reference loss that does not name a
  device still unlocked counts it as locked but leaves its clock drifting (`SimTimeLaws.SecondLossLeavesDrift`,
  exactly: `SimTimeLaws.OnReferenceExactly`).
- Sample positions are recovered from time stamps exactly up to the tick rate (`RxStreams.TimesIdentifySamples`),
  and a grid change is undone exactly by grids at least as fine (`DevTimes.RoundTripExactly`).
- `set` twice differs from `set` once when a new key adopts an orphaned indented line or the value has leading
  blanks (`IniLaws.SetTwice`).
- A noise window of length zero raises or has two samples (`Noises.Noise`).
- The per-bin mask does not imply the interval check (`Regulatory.JoinedAllowBands`,
  `Regulatory.OverlappingAllowBands`): what is missing is that band and images lie in one allow band each and that
  the leakage passes (`Regulatory.CheckIsMaskAndCover`, `Regulatory.UnmaskedBandFailsExactly`). Deny bands have
  `lo < hi`, as `parse_bands_hz` demands (Firmware/_active/active_common.py:615-633).

`_invalidate_time` is documented as acting whenever time was set; the model follows the code, which looks at the
whole phase. The watchdog's help text speaks of consecutive failing runs; runs in which a chain is skipped neither count nor break the sequence.

## Model

| member | source | states |
|---|---|---|
| TxSafety.SendMatchesPermit | Firmware/_active/active_backend.py:1251-1328 | In every run of any number of threads and the safety controller, while a burst is at its send or sending, the TX rate reads within one part in 10^9 of the permit's, the centre within 1 Hz and, where the policy authorizes one, the LO offset within 1 Hz, if and only if no open landed since its last check, or they are read back from the devices, or the configured values fit as well. |
| TxSafety.RfCheckedExactly | Firmware/_active/active_backend.py:1149-1186 | The check under the backend lock lets a burst on if and only if the readings fit the permit within those tolerances, TX is tuned and no device of the permit has a command time; otherwise the burst is aborted. |
| TxSafety.PhysicalSendMatches | Firmware/_active/active_backend_sim.py:896-907 | For a backend that answers rate, centre and LO offset from the devices, which an open does not reset, those readings fit the permit at the send in every run. |
| TxSafety.SendMatchesWithoutReopen | Firmware/_active/active_backend.py:1303-1328 | From the last check to the send, with no open in between, the readings still fit the permit, whatever other threads did. |
| TxSafety.SendIsAlignedExactly | Firmware/_active/active_backend.py:442-457 | While a burst is at its send or sending, TX is tuned and time is aligned where required if and only if neither an open nor a time invalidation landed since the burst was first checked. |
| TxSafety.GainWriteIsAuthorized | Firmware/_active/active_backend.py:1303-1316 | Whenever a burst writes TX gains, the readings of rate, centre and LO offset fit its permit, TX is tuned and no command time is set on its devices. |
| TxSafety.MutualExclusion | Firmware/_active/active_backend.py:397-433 | No two threads are ever inside the transmit lock or a command window, nor inside the backend lock. |
| TxSafety.InterruptedBurstNeverReturns | Firmware/_active/active_backend.py:1300-1370 | A trip or disarm, by the controller or by any thread, landing on a burst between its consume and the check after its send: that burst never returns normally, however the run goes on. |
| TxSafety.InterruptedBurstIsNotSent | Firmware/_active/active_backend.py:1303-1328 | A burst interrupted before its last check is never sent, however the run goes on. |
| TxSafety.InterruptedBurstWritesNoGain | Firmware/_active/active_backend.py:1303-1316 | A burst interrupted before its check under the backend lock never writes gains, however the run goes on. |
| TxSafety.FailedBurstIsNotSent | Firmware/_active/active_backend.py:1303-1328 | A burst in which a hook or check fails before the send, the gain readback for one, is never sent and never returns normally. |
| TxSafety.FailedSendNeverReturns | Firmware/_active/active_backend.py:1322-1370 | A burst whose send fails never returns normally. |
| TxSafety.RaisingLeavesMinimumGain | Firmware/_active/active_backend.py:1329-1370 | When the failure handler of a burst re-raises, abort and minimum gain have been executed after the last gain write of anyone. |
| TxSafety.InterruptedBurstRaises | Firmware/_active/active_backend.py:1300-1383 | A trip or disarm landing on a burst between its consume and the check after its send: however the run goes on, the call ends only by raising, with abort and minimum gain executed after the last gain write; it ends neither by returning nor by a failing burst_complete. |
| TxSafety.WaysOut | Firmware/_active/active_backend.py:1302-1370 | In flight there are two ways out: completion, which needs an uninterrupted controller at the final check, or abort, then minimum gain, then the exception. |
| TxSafety.LandingHits | Firmware/_active/active_backend.py:1237-1249 | Whoever moves the trip generation or leaves TRANSMITTING, the burst in flight is the one hit. |
| TxRely.RunKeeps | Firmware/_active/active_backend.py:397-433 | The assertions of all threads (lock ownership, window, RF state, device state) are an invariant of every run. |
| TxRely.StepGrants | Firmware/_active/active_backend.py:811-884 | A step of one thread leaves every other thread what it relies on: its locks, the state under its lock, and under the transmit lock the TX settings unless an open resets them. |
| TxRely.RelyKeeps | Firmware/_active/active_backend.py:1149-1186 | The assertion of a thread survives everything others may do, the RF match of a checked burst included. |
| TxRely.OwnStep | Firmware/_active/active_backend.py:1251-1383 | Each step of a change, a command window or a burst establishes the assertion of its next step. |
| TxRely.PlainKeepsTx | Firmware/_active/active_backend.py:886-888 | An operation that takes the backend lock alone leaves the TX rate, centre and LO offset, except an open, which clears them unless they are read back from the devices. |
| TxRely.PlainKeepsTime | Firmware/_active/active_backend.py:886-888 | An operation that takes the backend lock alone leaves loaded times and the TX tune, except an open or a time invalidation, which drop both. |
| TxRaces.ReopenBeforeSend | Firmware/_active/active_backend.py:622-668 | From every initial state with the controller SAFE and the devices ready for the permit there is a run: arm, transmit up to the send, close and open by another thread, send. The burst goes out in a state that does not match, for every permit the configured values do not fit. |
| TxRaces.InvalidationBeforeSend | Firmware/_active/active_backend.py:442-457 | From every such initial state there is a run in which invalidate_time looks at the controller while it is SAFE, TX is armed, a burst of that arming gets to its send, the invalidation lands, and the burst goes out and returns normally with time alignment and tune gone. |
| TxRaces.BurstReachesSend | Firmware/_active/active_backend.py:1300-1328 | Undisturbed and with every hook succeeding, a burst gets from reading the trip generation to its send. |
| TxRaces.ArmedBurstReachesSend | Firmware/_active/active_backend.py:1251-1328 | Arming and an undisturbed transmit lead from idle threads to the send, with the backend otherwise unchanged and no other thread moved. |
| TxRaces.BurstReturns | Firmware/_active/active_backend.py:1328-1383 | Undisturbed, a burst gets from its send to its normal return. |
| TxChanges.ChangeTakesEffect | Firmware/_active/active_backend.py:397-421 | A guarded change that nobody disturbs ends idle with the locks as before and the backend as the operation makes it; on air it first takes TX to FAULT for the reference changes and to SAFE for the others, with the trip generation moved, the burst aborted and minimum gain. |
| TxChanges.RefusedAtTheDoor | Firmware/_active/active_backend.py:397-421 | A change that finds TX on air and cannot take it off changes nothing. |
| TxChanges.RefusedUnderLock | Firmware/_active/active_backend.py:397-421 | A change that finds TX armed again under both locks frees them and leaves the backend as it was. |
| TxChanges.BackendTouchedOnly | Firmware/_active/active_backend.py:397-421 | Only the body of a change, an operation under the backend lock, a command window and the first check of a burst touch the backend. |
| TxChanges.UnguardedLeavesTx | Firmware/_active/active_backend.py:886-888 | Whatever may run beside a burst, other than an open and a time invalidation, leaves TX settings, LO programming, TX delays, references and times alone. |
| TxChanges.RxIsUnguarded | Firmware/_active/active_backend.py:886-888 | RX rate, tune and delay changes run beside a burst. |
| TxChanges.InvalidationTakesEffect | Firmware/_active/active_backend.py:442-457 | An undisturbed invalidate_time trips TX that is on air, then drops times, tune and streaming with one bump and keeps all other settings. |
| TxChanges.DirectTakesEffect | Firmware/_active/active_backend.py:886-888 | An operation that takes the backend lock alone, undisturbed, leaves the backend as it makes it and everything else as it was. |
| TxChanges.WindowOpens | Firmware/_active/active_backend.py:424-433 | Opening a command window sets the time of exactly the target's devices and holds the transmit lock. |
| TxChanges.WindowCloses | Firmware/_active/active_backend.py:424-433 | Closing it clears exactly those; the transmit lock is freed with the outermost window. |
| TxChanges.WindowRefused | Firmware/_active/active_backend.py:424-433 | A window on an unknown target or closed devices changes nothing. |
| TxChanges.WindowFails | Firmware/_active/active_backend.py:424-433 | A window whose command time cannot be set frees what it took. |
| TxChanges.ControllerMayAct | Firmware/_active/active_backend.py:1237-1249 | The controller may trip at any point and enter any state but TRANSMITTING, and what is in flight is then hit. |
| TxChanges.MisplacedCalls | Firmware/_active/active_backend.py:397-421 | A change that needs no guard is not made as a guarded one, nor a guarded one without the guard. |
| TxChanges.InFlightIsABurst | Firmware/_active/active_backend.py:1300-1370 | In every run, what is recorded as in flight is a burst some thread is transmitting. |
| TxChanges.FirstCheckExactly | Firmware/_active/active_backend.py:1251-1300 | The first check lets a burst on if and only if the devices are open with both references on each, tuned, with time on each where alignment is required, chains and start are acceptable and the readings fit; otherwise nothing changes. |
| TxChanges.ConsumedExactly | Firmware/_active/active_backend.py:1300-1302 | Consume lets a burst on if and only if TX is armed, and then it transmits with the generation read before. |
| TxChanges.TransmittingOnlyFromArmed | Firmware/_active/active_backend.py:1300-1302 | TX goes on air only from ARMED, by a burst that consumes its permit. |
| TxChanges.DisabledRefuses | Firmware/_active/active_backend.py:1251-1300 | While the controller is disabled no burst begins. |
| TxChanges.BurstsAreAccepted | Firmware/_active/active_backend.py:1251-1300 | In every run, whatever is sent carries a permit whose chains and start were accepted. |
| TxChanges.CompletionFails | Firmware/_active/active_backend.py:1370-1383 | A burst whose completion the controller refuses does not return normally. |
| TxChanges.ArmedBurstCompletes | Firmware/_active/active_backend.py:1251-1383 | An undisturbed burst goes from idle to idle with nothing in flight and no lock held. |
| Coherence.StreamingIsSafe | Firmware/_active/active_backend.py:544-580 | In every state reachable from construction, streaming means open, both references set on every device and, where alignment is required, time set on every device. |
| Coherence.ApplyKeepsInv | Firmware/_active/active_backend.py:622-668 | Every operation, whether it returns or raises, keeps the phase invariant. |
| Coherence.RunKeepsInv | Firmware/_active/active_backend.py:622-1120 | So does every sequence of operations. |
| Coherence.ReferenceChangeDropsTime | Firmware/_active/active_backend.py:598-610 | A clock source, time source or master clock change from TIME_SET or later lands exactly in REFS_SET with exactly one bump, even when the device refuses it. |
| Coherence.ReferenceChangeForgetsTimeExactly | Firmware/_active/active_backend.py:598-610 | A reference change forgets every loaded time if and only if the phase had reached TIME_SET or no time was loaded. |
| Coherence.PartialLoadSurvivesClockChange | Firmware/_active/active_backend.py:689-697 | So one device's time loaded before a clock change still counts: loading the other device reaches TIME_SET, without a bump for the change. |
| Coherence.GenerationSteps | Firmware/_active/active_backend.py:254-266 | One operation moves the generation by nothing or by one. |
| Coherence.GenerationGrows | Firmware/_active/active_backend.py:239-266 | The generation never goes back over any operations. |
| Coherence.UnbumpedIsHarmless | Firmware/_active/active_backend.py:840-884 | An operation outside sync windows that leaves the generation alone loaded no time, changed no effective LO source, export or integer delay, was coherent if it tuned, and after a tune kept the tune and each direction's rate up to one part in 10^9. |
| Coherence.GenerationIsWitness | Firmware/_active/active_backend.py:239-266 | Over any operations outside sync windows with bumping calls, an unchanged generation means equal LO sources, exports and integer delays, no time load, only timed tunes of a stable unchanged class across no band edge or LO-share floor, and after a tune rates kept up to one part in 10^9 per change. |
| Coherence.RateMovedExactly | Firmware/_active/active_backend.py:811-838 | The comparison of rates is one part in 10^9 of the new rate, of 1 at least. |
| Coherence.EqualGenerationsInARun | Firmware/_active/active_backend.py:239-266 | The same between any two states of a run from construction. |
| Histories.LastWriteWins | Firmware/_active/active_backend.py:622-1120 | In every history every setting (rate, centre, LO offset, last tune, LO sources and exports, delays, command times) and every step of the phase order (open, references, times, tuned, streaming) reads as the last call that wrote it left it; the calls that write it are given with their guards. |
| Histories.UnwrittenReads | Firmware/_active/active_backend.py:622-1120 | What no call wrote reads as configured or off. |
| Histories.CallWrites | Firmware/_active/active_backend.py:622-1120 | A call writes exactly what that table says and leaves everything else, also when it raises. |
| Histories.GenerationCounts | Firmware/_active/active_backend.py:239-266 | In every history the generation is the number of calls that disturbed coherence, each described by the settings before it, and the sync depth the number of windows begun and not ended. |
| BackendObjects.CoherenceTracker.Bump | Firmware/_active/active_backend.py:254-266 | Adds one and appends the reason; the earlier reasons are kept, up to the last 256, which are consecutive generations. |
| BackendObjects.CompleteReport | Firmware/_active/active_backend.py:861-875 | The report of a tune as the base class completes it: late tunes count as untimed, class, band change and class change. |
| BackendObjects.ActiveBackend.constructor | Firmware/_active/active_backend.py:294-340 | A fresh object satisfies the invariant with nothing set. |
| BackendObjects.ActiveBackend.OpenDevices | Firmware/_active/active_backend.py:622-645 | The state after open, with the failing hook and the close when PA lines cannot be driven off; on success nothing is set and the generation moved by one exactly on a re-open. |
| BackendObjects.ActiveBackend.CloseDevices | Firmware/_active/active_backend.py:647-668 | Closed and not streaming, the invariant kept; closing twice changes nothing. |
| BackendObjects.ActiveBackend.InvalidateTime | Firmware/_active/active_backend.py:598-610 | The guarded invalidation: acts exactly from TIME_SET on, judged by the whole phase. |
| BackendObjects.ActiveBackend.ForgetTime | Firmware/_active/active_backend.py:442-457 | Stops streaming, forgets time and tune, one bump, unconditionally. |
| BackendObjects.ActiveBackend.SetClockSource | Firmware/_active/active_backend.py:689-697 | New state and error cases of a clock source change; from TIME_SET or later it ends in REFS_SET with one bump, also when the device refuses. |
| BackendObjects.ActiveBackend.SetTimeSource | Firmware/_active/active_backend.py:699-707 | New state and error cases of a time source change; from TIME_SET or later it ends in REFS_SET with one bump, also when the device refuses. |
| BackendObjects.ActiveBackend.SetMasterClockRate | Firmware/_active/active_backend.py:717-727 | New state and error cases of a master clock change; from TIME_SET or later it ends in REFS_SET with one bump, also when the device refuses. |
| BackendObjects.ActiveBackend.LoadTime | Firmware/_active/active_backend.py:743-779 | Succeeds exactly for a load that goes through; devices marked, and one bump exactly outside sync windows. |
| BackendObjects.ActiveBackend.SetSampleRate | Firmware/_active/active_backend.py:811-838 | After success the direction reads the actual rate and the other direction its old one; the generation moves by one exactly when the rate moved by more than one part in 10^9 after a tune; an RX rate that moved stops streaming and nothing else does. |
| BackendObjects.ActiveBackend.TuneTo | Firmware/_active/active_backend.py:840-884 | New state and report of a tune; a bumping call leaves the generation alone exactly when the tune was timed, of a stable unchanged class and across no band edge or floor. |
| BackendObjects.ActiveBackend.SetLoSourceOf | Firmware/_active/active_backend.py:965-986 | New state of an LO source change: done, refused, or broken half way. |
| BackendObjects.ActiveBackend.SetLoExportOf | Firmware/_active/active_backend.py:988-1007 | New state of an LO export change, with the same three outcomes. |
| BackendObjects.ActiveBackend.SetIntegerDelay | Firmware/_active/active_backend.py:1009-1030 | New state of an integer delay change. |
| BackendObjects.ActiveBackend.RxStart | Firmware/_active/active_backend.py:1089-1098 | Succeeds exactly when the phase allows streaming, nothing streams yet and the hook succeeds; streaming then has references and, where required, time. |
| BackendObjects.ActiveBackend.RxStop | Firmware/_active/active_backend.py:1112-1120 | Stops, also when the hook fails. |
| LoPlans.LoShareMembers | Firmware/_active/active_devices.py:390-430 | The five role lists in device order: each lists exactly the devices with that role. |
| LoPlans.SharedPass | Firmware/_active/active_devices.py:423-429 | The second pass collects exactly the shared devices: companions under TwinRX, else exporters and importers when some device exports. |
| LoSharing.RolesExactly | Firmware/_active/active_devices.py:390-430 | A device of the plan's family exports if and only if it can and is marked or named LO master, imports if and only if its LO comes from outside or, under TwinRX, from its companion, is outside if and only if it does neither, and shares if and only if it does one of them with some exporter there, or takes its companion's LO. |
| LoSharing.MembersExactly | Firmware/_active/active_backend.py:167-205 | The class of a direction is judged by exactly the devices with channels in it, by all when none has. |
| LoPlans.PickNames | Firmware/_active/active_devices.py:390-430 | A name is in a role list exactly when some device of that name has the role. |
| LoPlans.PhaseAfterTuneAt | Firmware/_active/active_backend.py:167-205 | The loop returns the class of the worst device: the minimum rank over the devices with channels in the direction, all devices when none has. |
| LoPlans.WorstExactly | Firmware/_active/active_backend.py:167-205 | One random device makes the direction random, else one ambiguous device makes it ambiguous; it is stable, or shared, if and only if every device is. |
| LoPlans.Worst | Firmware/_active/active_backend.py:203-205 | The worst class occurs in the list and no class of the list ranks below it. |
| SimLos.RunTracks | Firmware/_active/active_backend_sim.py:940-952 | In every reachable state the LO sources and exports tracked by the base class are the simulator's. |
| SimLos.TrackingKept | Firmware/_active/active_backend.py:965-1007 | Every operation keeps the tracked LO state equal to the physical one, refused changes and re-opens included. |
| LoPhases.LiveIsActive | Firmware/_active/active_backend.py:502-520 | The share the base class believes programmed is the share physically active. |
| LoPhases.ReportedOutranksExactly | Firmware/_active/active_backend_sim.py:783-814 | The class reported for a device ranks above the class drawn if and only if its external LO is in use outside the external-LO plan, it does not run from a shared LO, and its family has the 180 degree ambiguity yet would otherwise be stable. |
| LoPhases.OverratedDevice | Firmware/_active/active_backend_sim.py:783-814 | A device of such a family, opened and switched to its external LO under no plan, is reported deterministic at every frequency and draws an ambiguous phase. |
| LoPhases.TableMakesReportsSafe | Firmware/_active/active_backend_sim.py:783-814 | With families of 180 degree ambiguity otherwise random, the report never outranks the draw, and a stable report is the drawn class, also when a tune ran timed but was reported late. |
| LoPhases.ReportIsConservative | Firmware/_active/active_backend.py:871-881 | The class recorded by a tune never ranks above the class drawn for any device of the direction. |
| LoPhases.TuneDraws | Firmware/_active/active_backend_sim.py:853-894 | What a tune leaves per device: frequency, tune count and a class that, for a stable report, is the device's reported class. |
| SimLoLaws.TunesToTheNearest | Firmware/_active/active_backend_sim.py:853-894 | A tune ends on the frequency nearest to the one asked for that every device of the direction can reach; where there is none, on the least upper limit. |
| SimLoLaws.TimedExactly | Firmware/_active/active_backend_sim.py:853-894 | A tune counts as timed if and only if some device takes part, a time was given, and every device's command time is far enough ahead on a device that can tune timed. |
| SimLoLaws.BandExactly | Firmware/_active/active_backend_sim.py:853-894 | It crosses a band if and only if an edge of some device of the direction lies between the frequencies, up or down. |
| SimLoLaws.TuneRedraws | Firmware/_active/active_backend_sim.py:816-894 | Every device of the direction draws once more, at the frequency reached, as one common draw, in the class it has there. |
| SimLoLaws.FirstDrawIs | Firmware/_active/active_backend_sim.py:322-324 | A simulator just constructed has drawn every device once, untimed, at the configured frequency. |
| SimLoLaws.SourceHookExactly | Firmware/_active/active_backend_sim.py:940-946 | A source is set if and only if the channel is configured, the source known and, for one from elsewhere, the device can import. |
| SimLoLaws.ExportHookExactly | Firmware/_active/active_backend_sim.py:948-952 | An export is switched if and only if the channel is configured and, to switch on, the device can export. |
| SimLoLaws.TuneLeavesOthers | Firmware/_active/active_backend_sim.py:853-894 | Devices without channels in the direction, the other direction, LO sources and exports are as before. |
| LoReproduction.UnchangedGenerationReproducesPhases | Firmware/_active/active_backend_sim.py:816-840 | For distinct device names and capabilities in which families with the 180 degree ambiguity are otherwise random: from any reachable state, any operations with bumping calls that leave the generation unchanged and end on the same frequency reproduce every channel-to-channel LO phase of a tuned direction up to whole turns; only the two end states must not mix shared-LO devices with others. |
| LoReproduction.RunContinues | Firmware/_active/active_backend.py:840-884 | Over such operations a direction was not retuned, or was retuned in the same stable class. |
| LoReproduction.SysOkThroughout | Firmware/_active/active_backend_sim.py:853-894 | In every reachable state all devices of a direction were drawn together at the present frequency, and a stable recorded class bounds and meets their classes. |
| LoReproduction.FirstTogether | Firmware/_active/active_backend_sim.py:322-324 | The constructor draws every channel: both directions start with all devices drawn at the configured frequency. |
| LoReproduction.ClassesAgree | Firmware/_active/active_backend_sim.py:783-814 | Two states with the same stable recorded class and no mixed draws have the same class device by device. |
| LoExactness.SeedsDoNotSteer | Firmware/_active/active_backend_sim.py:816-840 | The seed changes phases only: every run leads to the same backend state and the same draws in all seeds. |
| LoExactness.DrawsReproducedExactly | Firmware/_active/active_backend_sim.py:816-840 | Two channels keep their phase relation in every seed if and only if both use the same random streams before and after, and a redraw of the shared LO concerns both or neither. |
| LoExactness.PairReproducedExactly | Firmware/_active/active_backend_sim.py:816-840 | Between any two states of a run, whatever the operations: the relation of two different channels is the same in every seed if and only if the direction was not tuned in between, or both kept a stable class, both or neither is on the shared LO, and the rounded frequency is the same where a phase depends on it. |
| LoExactness.UnbumpedPairReproducedExactly | Firmware/_active/active_backend_sim.py:816-840 | With an unchanged generation and the direction tuned before, this comes down to: not retuned, or both channels on the shared LO before and after, or neither ever and both phases fixed or the same rounded frequency. |
| LoExactness.MixedPhasesMove | Firmware/_active/active_backend_sim.py:827-831 | With an unchanged generation a retune moves a channel on the shared LO against one that is not, in some seed. |
| LoMoves.TuneReproducesExactly | Firmware/_active/active_backend_sim.py:853-894 | The exact condition for one tune of a reachable state, bumped or not. |
| LoMoves.FirstTuneIsUnbumped | Firmware/_active/active_backend.py:874-877 | A timed stable tune in a direction not tuned since the last open leaves the generation alone and draws a stable class for every device. |
| LoMoves.FirstTuneMovesUnbumped | Firmware/_active/active_backend.py:874-877 | A run of a TwinRX and a UBX device: open, references, untimed tune, close, open, references, timed tune. The last tune does not bump and moves the two devices against each other in some seed. |
| LoMoves.MixedRetuneMoves | Firmware/_active/active_backend_sim.py:827-831 | A run of the same devices with the TwinRX on its companion LO: the second of two timed tunes does not bump and moves them against each other in some seed. |
| LoSharing.SharingKeptBetweenTunes | Firmware/_active/active_backend.py:208-223 | From a tune on, outside sync windows and with an unchanged generation, every device of the direction runs from the shared LO after each later tune if and only if it did after the first. |
| LoSharing.PairAfterTuneReproducedExactly | Firmware/_active/active_backend_sim.py:816-840 | From a tune on with an unchanged generation, two channels keep their relation in every seed if and only if the direction was not tuned again, or both run from the shared LO, or neither does and both phases are fixed or the rounded frequency is the same. |
| LoSharing.FloorCrossedIsPhysical | Firmware/_active/active_backend.py:208-223 | With the star programmed on every sharing device, a retune crosses the floor if and only if some device of the direction starts or stops running from the shared LO. |
| LoSharing.TwinFloorIsConservative | Firmware/_active/active_backend.py:208-223 | Under TwinRX a retune crosses a floor if and only if one lies between the frequencies, although no device starts or stops sharing there. |
| LoSharing.FloorCrossedBothWays | Firmware/_active/active_backend.py:208-223 | A floor is crossed downwards as it is upwards. |
| LoSharing.AutoPlanExactly | Firmware/_active/active_devices.py:372-387 | A configured plan stands; auto gives TwinRX, the star, the external LO or no plan if and only if the devices are wired so and no earlier plan applies. |
| SimLoObjects.DrawChannel | Firmware/_active/active_backend_sim.py:825-839 | The stored phase of a channel by class, in the turn around zero: at least minus half a turn and less than half a turn. |
| SimLoObjects.DrawDevice | Firmware/_active/active_backend_sim.py:816-840 | Every channel of the device gets the phase of the draw; nothing else changes. |
| SimLoObjects.DrawAll | Firmware/_active/active_backend_sim.py:875-884 | The device loop draws each device of the direction once from the state before the tune. |
| SimLoObjects.Oscillators.constructor | Firmware/_active/active_backend_sim.py:322-324 | A fresh simulator has drawn every channel of both directions, untimed, at the configured frequency, and stores those phases. |
| SimLoObjects.Oscillators.Tune | Firmware/_active/active_backend_sim.py:853-894 | Report and new oscillator state of a tune; stored phases are those of the last draws. |
| SimLoObjects.Oscillators.SetLoSource | Firmware/_active/active_backend_sim.py:940-946 | Done exactly for a configured channel, a known source and a device that can import it. |
| SimLoObjects.Oscillators.SetLoExport | Firmware/_active/active_backend_sim.py:948-952 | Done exactly for a configured channel and, to switch on, a device that can export. |
| SimLoObjects.Oscillators.Open | Firmware/_active/active_backend_sim.py:645-655 | Sources and exports are reset; phases stay until the next tune. |
| DeviceClocks.DeviceTime | Firmware/_active/active_backend_sim.py:406-414 | The forward scan returns the reading of the last anchor at or before T. |
| DeviceClocks.TrueTime | Firmware/_active/active_backend_sim.py:416-428 | The backward scan returns the latest true time at which the device reads t whenever there is one, else the last line extended. |
| DeviceClocks.LoadWellformed | Firmware/_active/active_backend_sim.py:488 | A time load keeps the anchor list non-empty and sorted. |
| DeviceClocks.LoadReadings | Firmware/_active/active_backend_sim.py:482-489 | After a load the clock follows the loaded line; before it every reading stands. |
| DeviceClocks.ReanchorWellformed | Firmware/_active/active_backend_sim.py:396-404 | A rate change keeps the anchor list non-empty and sorted. |
| DeviceClocks.ReanchorKeepsHistory | Firmware/_active/active_backend_sim.py:396-404 | A rate change is continuous and leaves every earlier reading unchanged. |
| DeviceClocks.ReanchorFuture | Firmware/_active/active_backend_sim.py:396-404 | After a rate change the clock follows the new rate up to the next anchor, and anchors in the future keep their values. |
| Pps.EdgeAfter | Firmware/_active/active_backend_sim.py:454-464 | Jumping over gaps terminates and equals the plain scan for the least unsuppressed edge. |
| Pps.EdgeBefore | Firmware/_active/active_backend_sim.py:466-474 | Jumping back over gaps terminates and equals the plain scan for the greatest unsuppressed edge. |
| Pps.GapAt | Firmware/_active/active_backend_sim.py:448-452 | Finds a covering gap exactly when the edge is suppressed. |
| Pps.FirstEdgeStable | Firmware/_active/active_backend_sim.py:454-464 | Looking further ahead does not change the first edge. |
| Pps.FaultsKeepThePast | Firmware/_active/active_backend_sim.py:1641-1643 | Injecting or clearing a PPS fault never rewrites an edge strictly before now, and the present decides all edges to come. |
| SimClocks.AdvanceInAnySteps | Firmware/_active/active_backend_sim.py:476-494 | Advancing through any stops gives the same clocks, latches and loaded flags as one advance to the latest. |
| SimClocks.AdvanceSplit | Firmware/_active/active_backend_sim.py:476-494 | Stopping on the way changes nothing. |
| SimClocks.AdvanceValid | Firmware/_active/active_backend_sim.py:476-494 | Advancing keeps every clock well formed and at most one latch per device. |
| SimClocks.AdvancePointwise | Firmware/_active/active_backend_sim.py:482-490 | What advancing does to one device: its own latch and its own edge, whatever the list order. |
| SimTimes.UnknownPpsLoadsTheGroup | Firmware/_active/active_backend_sim.py:713-724 | The call fails exactly when PPS is missing; otherwise the whole group is loaded at one common edge, each device its latency later, none left waiting. |
| SimTimes.SlaveLagsByItsLatency | Firmware/_active/active_backend_sim.py:436-439 | After it, on a shared reference, each device differs from the master by exactly its latency, at every later time. |
| SimTimes.QueuePointwise | Firmware/_active/active_backend_sim.py:720-730 | After queueing, each device named waits for exactly the new latch and others are untouched. |
| SimTimes.ApplyKeeps | Firmware/_active/active_backend_sim.py:396-494 | Every time operation keeps clocks, latches and gaps well formed, time does not go back, and the PPS history stands. |
| SimTimes.RunKeeps | Firmware/_active/active_backend_sim.py:396-494 | So does every run. |
| SimTimeLaws.TimeNowReads | Firmware/_active/active_backend_sim.py:732-744 | After set_time_now a device named reads the value its own latency from now and runs on at the rate of its reference; its readings until then stand, it is loaded and waits for no latch. |
| SimTimeLaws.TimeNowOthers | Firmware/_active/active_backend_sim.py:732-744 | Every device not named keeps clock, latch, flag, source, tick and lock. |
| SimTimeLaws.NextPpsLoads | Firmware/_active/active_backend_sim.py:726-730 | After set_time_next_pps a device loads at the next whole second, its latency later, while PPS comes, and goes on waiting while it is missing. |
| SimTimeLaws.LatencyIs | Firmware/_active/active_backend_sim.py:436-439 | The master latches on the edge, every other device the skew in its own ticks later. |
| SimTimeLaws.RateOfReference | Firmware/_active/active_backend_sim.py:386-394 | Unlocked and internal devices run at their oscillator's rate, locked ones at the GPSDO's, or at none to speak of on an external or chassis reference. |
| SimTimeLaws.SourcePointwise | Firmware/_active/active_backend_sim.py:660-670 | The devices named get the source, those for which it is another one go on at its rate, nothing else changes. |
| SimTimeLaws.TickPointwise | Firmware/_active/active_backend_sim.py:688-702 | The devices named get the tick rate and their loaded time no longer counts. |
| SimTimeLaws.UnlockPointwise | Firmware/_active/active_backend_sim.py:1624-1628 | Exactly the devices named are unlocked from then on and go on at their own rate. |
| SimTimeLaws.ClearPointwise | Firmware/_active/active_backend_sim.py:1658-1667 | PPS comes again, every reference is locked and the devices that had lost it go on at its rate. |
| SimTimeLaws.PpsStopsAndComes | Firmware/_active/active_backend_sim.py:1641-1667 | A loss of PPS stops every edge from now on, clearing lets every edge from now on come, edges before stand, and a loss touches no clock. |
| SimTimeLaws.OnReferenceExactly | Firmware/_active/active_backend_sim.py:396-404 | Every time operation keeps a clock at the rate of its device's reference, except exactly a second loss of reference that does not name a device still unlocked. |
| SimTimeLaws.RunsOnItsReference | Firmware/_active/active_backend_sim.py:396-404 | So does every run without such a loss. |
| SimTimeLaws.SharedReferenceKeepsDistance | Firmware/_active/active_backend_sim.py:386-404 | Two devices on locked external or chassis references keep their distance. |
| SimTimeLaws.SecondLossLeavesDrift | Firmware/_active/active_backend_sim.py:1624-1628 | Losing the reference of one device and then of another: the first counts as locked and drifts. |
| SimClockObjects.CommitPending | Firmware/_active/active_backend_sim.py:481-490 | The pass over pending latches: due ones loaded, others kept in order. |
| SimClockObjects.SimClock.constructor | Firmware/_active/active_backend_sim.py:201-325 | Every clock boots at its own offset on the internal reference. |
| SimClockObjects.SimClock.Advance | Firmware/_active/active_backend_sim.py:476-494 | New time state after advancing; nothing happens backwards. |
| SimClockObjects.SimClock.ReanchorDevice | Firmware/_active/active_backend_sim.py:396-404 | New anchor list of the device, others untouched. |
| SimClockObjects.SimClock.SetClockSource | Firmware/_active/active_backend_sim.py:660-670 | Only devices whose source changes are re-anchored. |
| SimClockObjects.SimClock.QueueLatches | Firmware/_active/active_backend_sim.py:726-730 | New pending list. |
| SimClockObjects.SimClock.SetTimeUnknownPps | Firmware/_active/active_backend_sim.py:713-724 | Fault or new state. |
| SimClockObjects.SimClock.SetTimeNow | Firmware/_active/active_backend_sim.py:732-744 | Each device loaded at once after its own host latency. |
| SimClockObjects.SimClock.InjectPpsMissing | Firmware/_active/active_backend_sim.py:1641-1643 | Opens a gap unless one is open. |
| SimClockObjects.SimClock.InjectRefUnlock | Firmware/_active/active_backend_sim.py:1624-1628 | The named devices fall back to their own oscillators, continuously. |
| SimClockObjects.SimClock.ClearTimeFaults | Firmware/_active/active_backend_sim.py:1658-1667 | Closes the open gap now and relocks every reference. |
| DevTimes.Make | Firmware/_active/active_common.py:264-273 | Normalises, also for negative ticks, keeps the instant, refuses a rate that is not positive. |
| DevTimes.CompareIsCrossMultiplied | Firmware/_active/active_common.py:343-373 | Order and equality across tick rates are those of the cross-multiplied tick counts: a total order on exact instants. |
| DevTimes.OrderOnOneGrid | Firmware/_active/active_common.py:343-373 | On one grid it is the lexicographic order, and equal instants are identical values. |
| DevTimes.AddTicks | Firmware/_active/active_common.py:317-318 | Moves the tick count by n on the same grid. |
| DevTimes.DiffTicks | Firmware/_active/active_common.py:324-329 | The difference in ticks; an error exactly when the grids differ. |
| DevTimes.TicksActOnGrid | Firmware/_active/active_common.py:317-329 | Adding ticks is a free and transitive action of the integers, inverse to the difference. |
| DevTimes.FromSecondsIsNearest | Firmware/_active/active_common.py:276-283 | Conversion moves an instant by at most half a tick. |
| DevTimes.ConvertedTotal | Firmware/_active/active_common.py:320-322 | A grid change converts the tick count with one rounding. |
| DevTimes.WithTickRateMonotone | Firmware/_active/active_common.py:320-322 | A grid change never reverses two instants, whatever their grids. |
| DevTimes.FinerGridRoundTrip | Firmware/_active/active_common.py:320-322 | Going to a grid at least as fine and back is the identity; a multiple of the grid is a special case. |
| DevTimes.RoundTripExactly | Firmware/_active/active_common.py:320-322 | The change back undoes the change for all instants if and only if the other grid is at least as fine. |
| HalfEven.Round | Firmware/_active/active_common.py:282 | The nearest integer, ties to even. |
| HalfEven.NearestOnFinerGrid | Firmware/_active/active_common.py:335-340 | Rounding to a grid with spacing at least one and back recovers the integer. |
| RxStreams.StreamTimeWithinHalfTick | Firmware/_active/active_backend_sim.py:1382-1384 | However many samples went by, the reported time is within half a tick of the exact one. |
| RxStreams.PositionRecovered | Firmware/_active/active_common.py:335-340 | The sample index of the time of position pos is pos, up to a sample rate equal to the tick rate. |
| RxStreams.TimesIdentifySamples | Firmware/_active/active_common.py:335-340 | Every position is recovered if and only if the sample rate does not exceed the tick rate. |
| RxStreams.RxStream.constructor | Firmware/_active/active_backend_sim.py:1379-1380 | A stream starts at position 0. |
| RxStreams.RxStream.ReadSamples | Firmware/_active/active_backend_sim.py:1386-1416 | Position, drops and start time of a read: a reader too far behind skips the samples it missed, rounded up, an injected overflow loses one read, and both are reported. |
| RxStreams.NothingLostSilently | Firmware/_active/active_backend_sim.py:1386-1416 | Over any reads the position is the samples delivered plus those reported dropped. |
| RxStreams.GapsAreReported | Firmware/_active/active_backend_sim.py:1386-1416 | The gap before each read is exactly what it reports as dropped: the samples skipped and, on an overflow, one read. |
| Noises.WhiteRange | Firmware/_active/active_backend_sim.py:1059-1065 | White samples cut from segments are those of one infinite sequence, negative indices included; joining no segments raises. |
| Noises.Convolve | Firmware/_active/active_backend_sim.py:1071 | The valid convolution, with the operands exchanged when the taps are longer. |
| Noises.DotIsSum | Firmware/_active/active_backend_sim.py:1068-1071 | Each filtered sample is the filter sum of the infinite sequence centred on its absolute index. |
| Noises.Noise | Firmware/_active/active_backend_sim.py:1056-1071 | A window that is not empty is that window of one infinite filtered sequence; an empty one raises on a segment border or comes out two samples long. |
| Noises.OneTap | Firmware/_active/active_backend_sim.py:1068-1071 | One tap contributes its weight times the sample at its distance from the middle tap. |
| Noises.WhiteIsSegmented | Firmware/_active/active_backend_sim.py:1059-1065 | Segments follow each other without gap, also below zero. |
| Noises.WindowsAgree | Firmware/_active/active_backend_sim.py:1056-1071 | Two windows agree wherever both reach. |
| Noises.WindowsConcatenate | Firmware/_active/active_backend_sim.py:1056-1071 | Any number of consecutive windows concatenate to the window of the total length. |
| IniLaws.GetAfterSet | util/provision_instance.py:187-212 | For well-formed names, get after set returns the value, trimmed. |
| IniLaws.OthersUnchanged | util/provision_instance.py:187-212 | get of every other key in every section is unchanged, in place, inserted or appended. |
| IniLaws.LinesSurvive | util/provision_instance.py:187-212 | Every line outside the key's own line and its continuation lines survives in order. |
| IniLaws.SectionsKept | util/provision_instance.py:187-212 | set keeps the sections and their order and adds a missing one at the end. |
| IniLaws.SetTwice | util/provision_instance.py:199-212 | set twice is set once if and only if the value has no leading blanks and a new key does not adopt an orphaned indented line. |
| IniSpec.LookupAt | util/provision_instance.py:173-181 | Reading from the top is finding the first section of the name and the first line of the key in it. |
| IniGrammar.KeyLineExactly | util/provision_instance.py:102 | A key line starts with no blank, delimiter, comment sign or bracket and has a delimiter. |
| IniGrammar.HeaderExactly | util/provision_instance.py:101 | A header is a bracketed text without a closing bracket inside, blanks around aside; its name is that text, trimmed. |
| IniGrammar.IndentedExactly | util/provision_instance.py:105-107 | A comment starts with a semicolon or a hash, blanks aside; a continuation is indented and is neither blank nor a comment. |
| IniGrammar.BlankExactly | util/provision_instance.py:146-165 | A line is blank if and only if it holds blanks only. |
| IniGrammar.InsertExactly | util/provision_instance.py:211-212 | The place of a new key is the one behind the last key line of its section and that key's continuation lines, or right behind the header when there is no key. |
| IniText.ParseKeyLine | util/provision_instance.py:102 | A line put together from key, padding, delimiter and rest reads back as those parts. |
| IniText.KeyLineParts | util/provision_instance.py:102 | Every key line is put together that way, with a well-formed key. |
| IniText.FormatHolds | util/provision_instance.py:215-216 | A formatted line holds the key and the value. |
| IniText.RewriteHolds | util/provision_instance.py:201-209 | A rewritten line keeps the key spelling and the padding before the delimiter and holds the new value. |
| IniText.RewriteTwice | util/provision_instance.py:201-209 | Rewriting again changes nothing if and only if the value has no leading blanks. |
| IniText.HeaderReads | util/provision_instance.py:101 | A header written for a well-formed section name reads back as that name. |
| IniDocuments.Sections | util/provision_instance.py:129-138 | All headers in order, each section up to the next header. |
| IniDocuments.FindSection | util/provision_instance.py:140-144 | The first section of that name and its end, or none. |
| IniDocuments.KeyLines | util/provision_instance.py:146-165 | The key lines of a section in order, each with its last continuation line. |
| IniDocuments.FirstEntry | util/provision_instance.py:173-181 | The first list entry of a key is its first line in the section, with its continuation lines. |
| IniDocuments.InsertBehind | util/provision_instance.py:211-212 | The insertion point is behind the last key and its continuation lines, else right after the header. |
| IniDocuments.AddSection | util/provision_instance.py:191-198 | The lines after setting a key of a section that does not exist. |
| IniDocuments.EditSection | util/provision_instance.py:199-212 | The lines after setting a key of a section that exists. |
| IniDocuments.IniDocument.Get | util/provision_instance.py:173-181 | The value of the key as the document means it, or none. |
| IniDocuments.IniDocument.Set | util/provision_instance.py:187-212 | Refuses a value of several lines; otherwise the new lines and the trailing newline flag. |
| Regulatory.TxFrequencyIntervals | Firmware/_active/active_regulatory.py:91-122 | Occupied band, LO leakage and, with an offset, both LO candidates and both images; errors for a bad frequency or bandwidth. |
| Regulatory.MirrorReflects | Firmware/_active/active_regulatory.py:91-122 | The image of a band holds the images of its frequencies about the LO. |
| Regulatory.BandCheck | Firmware/_active/active_regulatory.py:140-182 | The issues of every interval, in order. |
| Regulatory.ErrorsAreForbidden | Firmware/_active/active_regulatory.py:140-182 | An error is reported if and only if some interval is not inside one allow band or hits a deny band that is not ignored. |
| Regulatory.OverlapIsCommonPart | Firmware/_active/active_regulatory.py:131-133 | Bands overlap if and only if some frequency lies strictly within both. |
| Regulatory.InsideIsContained | Firmware/_active/active_regulatory.py:155-164 | A band lies inside another if and only if every frequency of it does. |
| Regulatory.OverrideIsForConductedModes | Firmware/_active/active_regulatory.py:140-182 | In radiate mode the built-in bands are an error whatever the override says; with it, the conducted modes err exactly outside the allow bands or in a configured deny band. |
| Regulatory.ForbiddenIsUpward | Firmware/_active/active_regulatory.py:131-133 | A part of an interval that passes also passes. |
| Regulatory.TestBins | Firmware/_active/active_regulatory.py:203-211 | The vectorised test of all bins against all bands is the interval policy bin by bin. |
| Regulatory.ForbiddenMask | Firmware/_active/active_regulatory.py:185-219 | A bin is masked when it or its image about either LO candidate is forbidden. |
| Regulatory.MaskIsBandCheck | Firmware/_active/active_regulatory.py:185-219 | A bin is masked if and only if band_check reports an error on the bin and its images; with no offset, on the bin alone. |
| Regulatory.CleanCheckClearsTheMask | Firmware/_active/active_regulatory.py:91-122 | If band_check passes on the intervals of a transmission, no bin inside the occupied band is masked, images about both LO candidates included. |
| Regulatory.JoinedAllowBands | Firmware/_active/active_regulatory.py:155-164 | The converse fails on a grid: an occupied band across two adjoining allow bands fails band_check with no bin on either side masked. |
| Regulatory.OverlappingAllowBands | Firmware/_active/active_regulatory.py:155-164 | It fails for all bins: across two overlapping allow bands no bin up to the width of the overlap is masked, and band_check fails. |
| Regulatory.UnmaskedBandFailsExactly | Firmware/_active/active_regulatory.py:140-219 | When no bin inside the occupied band is masked, band_check of the band fails if and only if the band lies in no single allow band. |
| Regulatory.CheckIsMaskAndCover | Firmware/_active/active_regulatory.py:140-219 | For bins that cover the occupied band without leaving it: band_check passes all intervals of a transmission if and only if no bin is masked, the band and each image lie in one allow band each, and no leakage interval is forbidden. |
| Regulatory.TxErrorsAre | Firmware/_active/active_regulatory.py:91-122 | The intervals of a transmission pass if and only if the band, its images and the leakage of every LO candidate pass. |
| Groups.FreshName | Firmware/_active/active_devices.py:556-561 | The naming loop terminates with a free name: the base name if free, else the first free numbered one. |
| Groups.Buckets | Firmware/_active/active_devices.py:541-551 | Buckets in order of first device, each holding exactly the devices of its key in order. |
| Groups.DeviceGroups | Firmware/_active/active_devices.py:531-564 | The groups with their devices, family, compound flag and pairwise different names, each its own unless an earlier group bears it. |
| Groups.GroupsPartition | Firmware/_active/active_devices.py:531-564 | Each device is in exactly one group, and groups hold nothing else. |
| Groups.SharedGroupExactly | Firmware/_active/active_devices.py:531-564 | Two devices share a group if and only if both can share a compound radio and name the same group, or both name none and are of one family. |
| Groups.GlobalIndex | Firmware/_active/active_devices.py:502 | The dictionary gives each reference an index at which it stands. |
| Groups.ChannelMap | Firmware/_active/active_devices.py:493-520 | The channel map of a group; an error exactly when some channel is outside its board's channels. |
| Groups.NumberedByWidths | Firmware/_active/active_devices.py:503-519 | Each channel of a board has the MultiUSRP channel behind all channels of the boards before it in that direction. |
| Groups.RangeExactly | Firmware/_active/active_devices.py:503-519 | The channels are in range if and only if each board is wide enough for its own. |
| Groups.SlotChannelsDistinct | Firmware/_active/active_devices.py:503-519 | No MultiUSRP channel of a group occurs twice. |
| Groups.EveryIndexIsMapped | Firmware/_active/active_devices.py:493-520 | Every global index occurs in the channel map of some group. |
| Groups.IndicesDiffer | Firmware/_active/active_devices.py:493-520 | Different lines of the channel maps, of one group or two, have different global indices. |
| Groups.ChannelMapsAreABijection | Firmware/_active/active_devices.py:493-520 | With unique names and no repeated channel, the channel maps of all groups are a bijection between global indices and pairs of group and MultiUSRP channel. |
| Watchdogs.Watchdog.CheckEntry | util/heimdall_watchdog.py:370-421 | New counters and restart decision of one check; a failed restart clears the counter and is only reported. |
| Watchdogs.Watchdog.Stall | util/heimdall_watchdog.py:423-448 | New frame record and whether the chain counts as stalled. |
| Watchdogs.Watchdog.RunLocked | util/heimdall_watchdog.py:495-533 | The state after a run is rebuilt from the live entries; the restarts; the exit flag. |
| Watchdogs.FailsExactly | util/heimdall_watchdog.py:370-448 | A watched chain past its grace fails its check if and only if it does not answer, answers that it fails, or its frame count has stood still for the threshold; every failure counts, and the one that fills the limit restarts the unit and clears the count. |
| Watchdogs.GraceIs | util/heimdall_watchdog.py:379-399 | The grace is the time told, else three times the reported stale time (132 s unless reported), at least 120 s. |
| Watchdogs.CounterIsStreak | util/heimdall_watchdog.py:408-421 | In every sequence of runs the stored counter is the number of failing checks since the chain was last healthy or absent, modulo the limit. |
| Watchdogs.CountersStayBelow | util/heimdall_watchdog.py:408-421 | Stored counters stay below the limit. |
| Watchdogs.RestartsExactly | util/heimdall_watchdog.py:408-421 | A run restarts a chain if and only if its check fails and that streak has reached a multiple of the limit. |
| Watchdogs.StreakCounted | util/heimdall_watchdog.py:408-421 | The streak counted out: the failing checks after the last run that found the chain healthy or gone, skipped checks not counting. |
| Watchdogs.AfterIs | util/heimdall_watchdog.py:495-523 | After a run exactly the live chains have counters, each from its own entry. |
| Watchdogs.StallsAreReal | util/heimdall_watchdog.py:423-448 | A stall is reported only if a run at least the threshold ago compared the same frame count and none compared since differed. |
| Watchdogs.StoredFramesAreFrozen | util/heimdall_watchdog.py:440-444 | The stored frame count goes back to the run that first compared it, unchanged since. |

## Left out

- Floating point: rates, frequencies and times are exact rationals or reals; non-finite inputs appear only where a permit carries them.
- Hardware drivers behind the `_do_*` hooks: their outcomes are parameters. That a minimum-gain or abort call takes effect on the device is assumed; what is proved is that it is executed after the last gain write.
- The safety controller's own rules (arming, permits, duty, power): an environment with the assumptions named above. Its policy LO offset is fixed during a run.
- Asynchronous exceptions between `consume` returning and the try block, and exceptions inside the cleanup handlers.
- `_late_command` and the device-clock start check of `tx_burst`: their outcome is a parameter.
- RX and TX sample synthesis, gains, temperatures, telemetry, coupling, LO-unlock phase jumps, beamforming and DSP: numerical work.
- LoReproduction.UnchangedGenerationReproducesPhases: a device table outside the stated capabilities is covered only by LoExactness.PairReproducedExactly; LO-unlock faults are not modelled, and the frequency compared is the tuned centre rounded to whole hertz, as the random streams key it.
- SimTimes.RunKeeps: device lists named by a call are taken to exist; which values the host latencies take is a parameter.
- RxStreams.RxStream.ReadSamples: how far the reader is behind is a parameter, and the advance of virtual time by the read is not part of it.
- DevTimes.Make: arguments are integers; the refusal of other types is not modelled.
- IniDocuments.IniDocument.Set: lines are taken as `splitlines` gives them, without line ends, and names contain none; splitting and joining the text is not modelled. Case folding of keys is an arbitrary function.
- Watchdogs.RestartsExactly: no chain is listed twice in one run, runs are not dry and the state is saved; two live entries with one key would both be judged from the old counters.
- Watchdogs.Watchdog.RunLocked: registry files, process probing, STATUS transport and logging are inputs or left out.
- Groups.ChannelMap: the board width per direction (subdevice specification or family) and the compound capability are fields of a device.
- Regulatory.BandCheck: message texts are left out.
- Exposure limits and distances, configuration parsing, cluster planning, device argument strings, network rate budget: easy members or string plumbing.
