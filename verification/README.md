# ecu-sunspec, modelled and verified in Dafny

`ecu-sunspec` turns an APsystems ECU into a SunSpec device on Modbus: it encodes what the
ECU knows about its microinverters into register banks, and turns register writes back into
rows of the ECU's command tables. This project models that translation in both directions,
the two protocols that live between them (asynchronous write results and reversion timers),
and proves what they guarantee. `dafny verify dfyconfig.toml` checks everything.

How the files build on each other:

- **Words and state.** `Prelude` (16- and 32-bit arithmetic, saturating rounding),
  `Snapshots` (the ECU state), `Events` and `Params` (event flags and power, from text on).
- **Banks.** `Banks` (blocks and the growing bank), `DerTrip`, `FreqDroop`,
  `FreqWattCurve`, `Controls`, `Models` (the model emitters), `Encoder` (whole banks),
  `Walker` (the client's linked-list walk on arbitrary registers), `Layout` (fixed
  addresses for every fleet), `Publication` and `TripMargin` (what clients read there).
- **Writes.** `Commands` (the command tables, with every failure pattern), `Profiles`,
  `ControlsWriter`, `EnterServiceWriter`, `DroopWriter`, `CurveWriter`.
- **Protocols.** `Tracker` and `TrackerRuns` (asynchronous results, interleaved with each
  step of a refresh), `Reverter` and `TimerRuns` (timers, with expiry, the locked section
  of `fire` and each restore as separate steps), `Failsafe` (caps with a reversion time).
- **Server.** `Server` (publication, routing, handlers), `ReadBack` (what was written reads
  back where it was written), `ServerRuns` (whole runs of the server, and the history of
  the command queue) and `EndToEnd` (every such run is, step by step, a run of each of the
  protocols, so their theorems hold of the server, from a client's request to the
  registers a client reads).

Code that changes state is written as classes and loops, as in the program, and each method
is proved equal to a function of the old state; the theorems are about those functions and
about runs built from them. The lemmas named `...InRegisters` say what these functions do
in literal registers, units, codes and addresses, without the functions' own vocabulary. A run is a sequence of states joined by enabled events; clients,
time, failing statements and the contents of every snapshot are arbitrary.

What the proofs found out about the program, each with its exact condition:

- A request that fails can be answered as completed: if a refresh finds it failed later than
  one interval after its deadline, the same refresh prunes it and publishes the default
  (`TrackerRuns.FailureIsPublishedOnlyInTime`, a run in `TrackerRuns.FailureCanBeHidden`).
- A cap that is refreshed in time is still lifted if another unit's timer covers the
  inverter, for example one armed through the aggregate unit, or if a fire was already on
  its way (`Failsafe.NeverLiftedExactlyWhenQuiet`, a run in
  `Failsafe.FleetTimerLiftsRefreshedCap`).
- A stale fire can orphan a newer timer, which no cancel reaches
  (`TimerRuns.CancelDefeatedExactlyByStaleFires`, a run in `TimerRuns.CancelCanBeDefeated`).
- A window that ends at or past register 65535 is answered as applied without any effect
  (`Server.WrappedWritesChangeNothing`).
- Three of the four freq-watt curve points can never complete
  (`CurveWriter.OnlyHz4CanComplete`), and a reported mode just below 15 completes a request
  to disable while publishing it as enabled (`FreqDroop.EnaReadBack`).
- With 256 inverters or more the aggregate bank is overwritten (`Server.AggregateSurvives`).

Where the program and its comments disagree the model follows the program:
`freq_droop_writer.go:209-212` says that tracking precedes the writes, but it comes after
all of them; `write_tracker.go:109-112` says that a settled entry outlives its publication,
but the pruning comes first; a slope or delay for a QS1A is refused by
`profiles.go:107-144` whatever the inverter honours.


## Model

| member | source | states |
|---|---|---|
| `EndToEnd.CompletedIsSound` | internal/server/server.go:160-200 | From request to register, in every interleaving of requests, refreshes and timers: when a refresh completes a Model 711 request of unit u, there is the client request t that was accepted and queued for it, the last one before the reconciliation; the snapshot reports the value of t for the inverter at index u-2; and a client that reads the 22 registers at 40487 of unit u after the publication finds what t asked for (offsets 0, 12-13, 16) and COMPLETED with its counter (offsets 2, 1), counter 0 exactly if the pruning found it more than 900 s plus one interval after t, or IN_PROGRESS if the unit was asked again |
| `EndToEnd.ReportSettles` | internal/server/write_tracker.go:113-139 | Settling is exact in every run: a reconciliation that finds a Model 711 request of unit u in progress makes it COMPLETED if and only if its snapshot has an inverter at index u-2 whose record reports the value the last accepted command t asked for - DC in ofDroopStart, DD in ofDroopSlope, CV in ofDroopMode, each within 0.05, whatever else the snapshot holds; otherwise FAILED if and only if more than 900 s have passed since t |
| `EndToEnd.ReportSettlesCurve` | internal/server/write_tracker.go:113-139 | The same for Model 134 in every run: a request that wrote Hz4 is completed if and only if ofDroopEnd is reported (code CC) within 0.05 of the register over 100; the other three points never are |
| `EndToEnd.PublishedAnswers` | internal/server/server.go:160-200 | A refresh publishes exactly what is due: after its publication a client that reads Model 711 of unit u at 40487 finds the result and counter that the report, the deadline 900 s after t and the time of the pruning determine, unless the unit was asked again since the reconciliation; and if the value is reported, the registers show what t asked for |
| `EndToEnd.AggregateIsAlwaysCompleted` | internal/server/server.go:181-189 | After every publication of a fleet of at most 254 a client that reads Model 711 at 40519 on unit 1, unit 0 or any unit past the fleet finds 1 at offset 2 and 0 at offset 1 |
| `EndToEnd.EntriesComeFromRequests` | internal/server/write_tracker.go:78-91 | In every run each Model 711 entry carries the expectation of the last accepted, in-bounds command that the database took for its unit |
| `EndToEnd.OnlyAcceptedCommandsAreTracked` | internal/server/freq_droop_writer.go:93-245 | What a request tracks is the expectation of its accepted, in-bounds command, on its own unit; units 0 and 1 are never tracked |
| `EndToEnd.RequestTracksAtMostOnce` | internal/server/server.go:255-356 | A handled request leaves the tracker as it is or tracks exactly once |
| `EndToEnd.RunsAreTrackerRuns` | internal/server/server.go:160-200 | Every run of the server is, step by step, a run of the asynchronous result protocol |
| `EndToEnd.RunsAreCapRuns` | internal/server/server.go:255-356 | Every run of the server is, step by step, a run of the caps with expiry and `fire` apart |
| `EndToEnd.RunsAreTimerRuns` | internal/server/reverter.go:54-122 | Every run of the server is, step by step, a run of the timers, so the theorems of `TimerRuns` hold of it |
| `EndToEnd.RequestedCapsEnd` | internal/server/reverter.go:110-122 | A requested cap with a reversion time that is left alone: at rest after the time, its timer has restored every target, and the limit is 500 W if and only if some restore of the inverter was taken by the database, the requested limit otherwise - in every run of the server |
| `TrackerRuns.CompletedIsSound` | internal/server/server.go:160-200 | For a request that carries the expectation of an in-bounds command (all do: `EndToEnd.EntriesComeFromRequests`): when a refresh moves it to COMPLETED, the bank it publishes shows what was asked for (DbOf within 5 units, KOf = k or k+1, Ena exactly under a stated condition on the reported mode, always if that is integral), with COMPLETED and the request's counter in the result registers - counter 0 exactly if the request settled too late to survive the pruning |
| `TrackerRuns.AggregateIsAlwaysCompleted` | internal/server/server.go:181-189 | The same for the protocol alone, in which units 0 and 1 are never tracked |
| `TrackerRuns.ResultsArePublished` | internal/server/server.go:160-200 | For every mapped unit the published result registers are the verdict of that same refresh, or IN_PROGRESS for a unit written again since the reconciliation |
| `TrackerRuns.FailureIsPublishedOnlyInTime` | internal/server/server.go:170-172 | A request that a refresh fails is published as FAILED by that refresh exactly if the pruning comes no later than deadline plus interval; otherwise (COMPLETED, 0) is published, contrary to the comment at write_tracker.go:109-112; a unit written again meanwhile may show IN_PROGRESS |
| `TrackerRuns.FailureCanBeHidden` | internal/server/server.go:170-172 | A concrete run in which a request fails, is pruned by the same refresh, and its inverter's published result registers read (COMPLETED, 0) |
| `TrackerRuns.ResultHasWitness` | internal/server/write_tracker.go:78-139 | In every run a settled result has a witness: the last write of the key, and after it one reconciliation that found all expected values (COMPLETED) or, strictly past the deadline, not all of them (FAILED) |
| `TrackerRuns.StepMoves` | internal/server/write_tracker.go:113-156 | No step of any kind moves a request except a reconciliation from IN_PROGRESS; nothing else about it ever changes; it disappears only by pruning, settled and past deadline plus interval |
| `TrackerRuns.CounterCountsTracks` | internal/server/write_tracker.go:78-91 | In every run the request counter is the number of writes since the entry was created, modulo 2^16 |
| `TrackerRuns.EntriesAreNeverOld` | internal/server/server.go:160-175 | After every published refresh each remaining entry has deadline plus interval at or after the time of that refresh's reconciliation |
| `Tracker.WriteTracker.Track` | internal/server/write_tracker.go:78-91 | The whole new map: counter plus one modulo 2^16, IN_PROGRESS, the expectation, a deadline 15 minutes ahead |
| `Tracker.WriteTracker.Reconcile` | internal/server/write_tracker.go:113-139 | The loop over the entries, in any order, replaces every one by its settlement under snapshot and time; `Tracker.SettlesByReport` says from the report what that is |
| `Tracker.WriteTracker.PruneSettled` | internal/server/write_tracker.go:144-156 | The loop over the entries, in any order, drops exactly the settled ones past deadline plus grace |
| `Tracker.CheckMatchesAll` | internal/server/write_tracker.go:161-175 | The comparison loop, in any order, answers whether the expectation is nonempty and every code is reported within 0.05 |
| `Tracker.ReconcileMoves` | internal/server/write_tracker.go:113-139 | Keys, counters, expectations and deadlines stay, settled results stay, results move from IN_PROGRESS only; for any expectation: COMPLETED exactly if it is met, FAILED exactly if it is not and the deadline has strictly passed |
| `Tracker.SettlesByReport` | internal/server/write_tracker.go:113-175 | For every single-code expectation a request can have: completed if and only if the snapshot has the unit at index u-2 with a record that reports that code within 0.05 of the value, field by field, whatever else the snapshot holds; otherwise failed if and only if the deadline has strictly passed; DH, DI and CB never |
| `Tracker.TrackedStarts` | internal/server/write_tracker.go:78-91 | A write starts with the next counter modulo 65536, in progress, due 900 s later, and touches no other entry |
| `Tracker.PruneKeeps` | internal/server/write_tracker.go:144-156 | An entry stays, unchanged, exactly if it is in progress or not yet past deadline plus grace |
| `Tracker.RefreshBoundsAge` | internal/server/server.go:170-171 | What survives a reconciliation at t and a later pruning has deadline plus grace at or after t |
| `Tracker.CurveCodesNeverMatch` | internal/server/write_tracker.go:179-244 | A request that expects DH, DI or CB never completes: those codes have no case |
| `TimerRuns.FailSafe` | internal/server/reverter.go:54-122 | In every interleaving, after a schedule with positive delay and until the unit is handled again, that timer is armed, expired with its fire in flight, or firing - stale fires included; armed and overdue, it can expire |
| `TimerRuns.FiresAtMostOnce` | internal/server/reverter.go:110-122 | In every run each timer begins to fire at most once and never restores the same position twice |
| `TimerRuns.NeverEarly` | internal/server/reverter.go:54-122 | A fire or restore of a timer happens only after the full delay of the one schedule that made this timer, with that schedule's unit and targets |
| `TimerRuns.CancelWorksWithoutStaleFires` | internal/server/reverter.go:74-84 | In a run without a stale fire (one whose unit's entry already names a newer armed timer) no timer is orphaned and every cancel leaves its unit without armed timers |
| `TimerRuns.OrphansComeFromStaleFires` | internal/server/reverter.go:110-113 | In every run a timer is orphaned if and only if it is armed and some earlier stale fire took its entry away |
| `TimerRuns.CancelDefeatedExactlyByStaleFires` | internal/server/reverter.go:74-84 | In every run the timers of its unit that a cancel leaves armed are exactly the armed ones whose entry an earlier stale fire took away |
| `TimerRuns.CancelCanBeDefeated` | internal/server/reverter.go:110-113 | A concrete run in which a stale fire deletes the newer entry and the cancel after it leaves a timer armed |
| `TimerRuns.RunsExtend` | internal/server/reverter.go:54-122 | Every enabled event extends a run: the validity in the definition of a run excludes nothing |
| `Reverter.CancelDefeatsExactlyWithoutOrphans` | internal/server/reverter.go:74-84 | A cancel leaves no armed timer of its unit if and only if the unit has no orphaned timer |
| `Reverter.FireOrphansExactlyNewerEntries` | internal/server/reverter.go:110-113 | The locked section of `fire` orphans a timer exactly if the map names it, newer and armed, for the same unit |
| `Reverter.LockedOperationsKeepBijection` | internal/server/reverter.go:54-97 | Schedule, Cancel and Stop keep map entries and armed timers in bijection |
| `Reverter.AtomicExpiryKeepsBijection` | internal/server/reverter.go:110-113 | Expiry together with the locked section of `fire` keeps the bijection |
| `Reverter.Reverter.Schedule` | internal/server/reverter.go:54-71 | The old timer stopped and its entry gone; a new armed timer only for a positive delay and some target |
| `Reverter.Reverter.Cancel` | internal/server/reverter.go:74-84 | The unit's timer stopped and its entry gone, nothing else |
| `Reverter.Reverter.Stop` | internal/server/reverter.go:87-97 | The walk over the map, in any order, stops exactly the timers it names and empties it |
| `Reverter.Reverter.Fire` | internal/server/reverter.go:110-122 | The unit's entry goes, whichever timer it names, then every target is restored in order, failures skipped |
| `Failsafe.BijectionAlways` | internal/server/reverter.go:54-122 | In every state of a run with atomic expiry, map entries and armed timers are in bijection |
| `Failsafe.NeverLiftedExactlyWhenQuiet` | internal/server/controls_writer.go:61-75 | With atomic expiry and a database that takes every statement from the refresh on: a cap refreshed at gaps shorter than its reversion time is never lifted in any continuation if and only if, at the refresh, no timer of another unit covers the inverter and no fire in flight still has to restore it |
| `Failsafe.FleetTimerLiftsRefreshedCap` | internal/server/controls_writer.go:89-103 | A concrete start - a fleet cap with a reversion time, then the same on the one inverter - from which a run lifts the cap although it is always refreshed in time |
| `Failsafe.NeverLifted` | internal/server/controls_writer.go:61-75 | Under that condition, for every failure pattern, the inverter's limit never rises above the largest limit written for it |
| `Failsafe.UnrefreshedEndsAtFullPower` | internal/server/reverter.go:110-122 | For every failure pattern and with expiry and `fire` interleaved freely: once the time has passed and the goroutines are at rest, the refresh's own timer has restored every target, and the limit of a target is 500 W if and only if some restore of it was taken by the database, the written limit otherwise |
| `Failsafe.LimitUntilRestored` | internal/server/reverter.go:110-122 | The limit of an inverter that is left alone changes only by the first restore that the database takes |
| `Failsafe.GoroutinesAreFinite` | internal/server/reverter.go:110-122 | However they are scheduled, only a counted number of goroutine steps can follow each other |
| `Failsafe.ComesToRest` | internal/server/reverter.go:110-122 | Every run can be continued by goroutine steps alone to a state at rest |
| `Failsafe.RunsAreTimerRuns` | internal/server/reverter.go:54-122 | Every run of the caps is a run of the timers |
| `ControlsWriter.Apply` | internal/server/controls_writer.go:43-86 | Database, timers and answer are those of one function, for any window, snapshot, failure pattern and time; the lemmas `ControlsWriter.*InRegisters` say what it does, in units and registers |
| `ControlsWriter.FullEffect` | internal/server/controls_writer.go:43-149 | For any window a successful write changes exactly the caps with a row and the switches of its targets and the timer of its unit (whom and by how much: the next four rows) |
| `ControlsWriter.LimitsInRegisters` | internal/server/controls_writer.go:61-103 | The caps after a successful write, read off its registers: for the inverter at index unit-2 (for units 0 and 1: every inverter) 500 W if register 7 is 0, whatever the percentage, otherwise max(20, 5 * min(pct, 100)) W if register 3 is covered; every other inverter keeps its cap |
| `ControlsWriter.SwitchesInRegisters` | internal/server/controls_writer.go:77-149 | Likewise the switches: on exactly if register 2 is nonzero, for those inverters only, and nothing else |
| `ControlsWriter.TimersInRegisters` | internal/server/controls_writer.go:61-139 | Likewise the timers: register 7 = 0 leaves the unit none; otherwise with registers 3 and 5 covered, 0 and 0xFFFF in register 5 leave it none and any other value arms exactly one timer of that many seconds for exactly those inverters; other writes and other units change none |
| `ControlsWriter.SuccessInUnits` | internal/server/controls_writer.go:89-103 | With a database that takes every statement: success if and only if the unit is 2 or more with an inverter at index unit-2, or 0 or 1 with a nonempty fleet |
| `ControlsWriter.FailureFrame` | internal/server/controls_writer.go:43-149 | Whatever fails: parameters, other inverters and other units' timers untouched, caps old or new, no timer armed without every cap in place, an unmapped unit changes nothing |
| `ControlsWriter.SucceedsOnMappedUnits` | internal/server/controls_writer.go:89-103 | With a database that takes every statement a write succeeds exactly for a mapped unit or, for units 0 and 1, a nonempty fleet |
| `ControlsWriter.ApplyCap` | internal/server/controls_writer.go:114-128 | The loop attempts the clamped watts of a percentage for each target and stops at the first failure |
| `ControlsWriter.WindowTests` | internal/server/controls_writer.go:153-170 | The two window tests agree with plain membership of a field in the window |
| `Controls.AggregateControlsState` | internal/sunspec/controls.go:142-171 | Mean percentage, OR of the per-inverter enable flags, OR of the online flags |
| `Controls.ReadBackWithoutNameplate` | internal/sunspec/controls.go:109-134 | A written percentage reads back as max(4, min(pct, 100)) |
| `Controls.ReadBackWithNameplate` | internal/sunspec/controls.go:109-134 | With a rating of n watts - from the table, otherwise 730, 1460 or 880 by type - the percentage is the largest whole one of n that the cap of all panels, at most n, still reaches |
| `Controls.ReadBackIsMonotone` | internal/sunspec/controls.go:109-134 | In every case the percentage read back is in 0..100 and grows with the cap |
| `Controls.AggregatePctInRange` | internal/sunspec/controls.go:142-171 | The aggregate percentage stays in 0..100, so its register does not wrap |
| `Publication.ControlsReadBack` | internal/sunspec/per_inverter.go:147-150 | On an inverter's published bank, at its fixed addresses: the percentage register, the enable register and the connection register after a written limit is reported |
| `Commands.Writer.SetMaxPower` | internal/source/writer.go:69-81 | Out-of-range watts are refused; otherwise one statement that updates an existing row |
| `Commands.Writer.SetProtectionParam` | internal/source/writer.go:133-148 | An empty inverter identifier is refused; otherwise one statement that replaces or inserts the row |
| `Commands.NamesAreDistinct` | internal/source/writer.go:133-148 | The stored names tell the parameters apart |
| `Commands.AttemptAllWritesAPrefix` | internal/server/controls_writer.go:105-149 | Whatever fails, the rows written are a prefix of those asked for, all of them exactly on success |
| `Commands.CapsTakeEffect` | internal/server/controls_writer.go:114-128 | A completed batch of caps sets exactly the targets that have a row |
| `Commands.SwitchesTakeEffect` | internal/server/controls_writer.go:141-149 | A completed batch of switches sets exactly the targets |
| `DroopWriter.Apply` | internal/server/freq_droop_writer.go:93-245 | Database, tracker and answer are those of one function of unit, snapshot and window; the lemmas `DroopWriter.*InRegisters` say what it does, window by window |
| `DroopWriter.EnableInRegisters` | internal/server/freq_droop_writer.go:112-228 | Offset 0: if and only if the unit names an identified inverter of one of the fourteen known model codes that reports AK, one row: mode 15 for register 0, otherwise 13 where 13 <= ofDroopMode < 14, else 14; tracked under CV if the database takes it |
| `DroopWriter.DeadbandInRegisters` | internal/server/freq_droop_writer.go:112-179 | Offset 12, two registers n: the start 50 + n/100 Hz, if and only if it also lies above 50 and at most at the reported fast trip minus 0.5; tracked under DC |
| `DroopWriter.SlopeInRegisters` | internal/server/freq_droop_writer.go:112-195 | Offset 16: the slope k/10, if and only if 100 <= k <= 1500 and the model code is neither 0x08 nor 0x18; tracked under DD |
| `DroopWriter.DelayInRegisters` | internal/server/freq_droop_writer.go:112-207 | Offset 18, two registers: that many seconds, not for codes 0x08 and 0x18; never tracked |
| `DroopWriter.OtherWindowsInRegisters` | internal/server/freq_droop_writer.go:126-157 | The counter alone succeeds without effect on any inverter's unit; every other window is refused without effect |
| `DroopWriter.WriteIsAllOrNothing` | internal/server/freq_droop_writer.go:127-243 | For every window: success queues exactly one row (none only for the counter alone) and never applies half of a 32-bit field or two groups; failure queues and tracks nothing |
| `DroopWriter.ScanLeavesOneGroup` | internal/server/freq_droop_writer.go:127-157 | No contiguous window survives the read-only scan while covering two writable groups; the survivors that ask for something are exactly the five kinds of window with a meaning |
| `DroopWriter.SurvivorsAreCommands` | internal/server/freq_droop_writer.go:126-228 | What the program reads off a surviving window is that window's one meaning |
| `DroopWriter.AcceptedRowsAreSafe` | internal/server/freq_droop_writer.go:112-228 | An accepted start lies above 50 Hz and half a hertz below the fast trip, a slope in [10, 150], a mode in {13, 14, 15}; the row names the inverter at index unit-2 and no slope or delay goes to a QS1A |
| `DroopWriter.QueueFields` | internal/server/freq_droop_writer.go:164-228 | The chain of optional fields queues at most one row, that of the window's one command, and returns its expectation (the values: `DroopWriter.*InRegisters`) |
| `CurveWriter.Apply` | internal/server/freq_watt_curve_writer.go:61-148 | Database, tracker and answer are those of one function of unit, snapshot and window; `CurveWriter.WriteInRegisters` says what it does |
| `CurveWriter.AcceptanceCharacterised` | internal/server/freq_watt_curve_writer.go:61-148 | Success exactly for a mapped, identified inverter of known family and one nonzero register at offset 11, 13, 15 or 17; encoding the queued value gives back the register (which parameter: the next row) |
| `CurveWriter.WriteInRegisters` | internal/server/freq_watt_curve_writer.go:45-148 | Offsets 11, 13, 15 and 17 queue the stored names Under_Frequency_Watt_Low_set, Under_Frequency_Watt_High_set, Over_frequency_Watt_Low_set and Over_frequency_Watt_High_set with the register over 100, tracked under DH, DI, CB, CC, if and only if the register is alone and nonzero and the unit names an identified inverter of a known model code; otherwise refused without effect |
| `CurveWriter.PointReadsBack` | internal/sunspec/freq_watt_curve.go:167-250 | A record that reports the queued value for the written parameter (ofCurveUFLow, ofCurveUFHigh, ofCurveOFLow, ofDroopEnd) publishes the register at the offset it was written to |
| `CurveWriter.SurvivorsAreSinglePoints` | internal/server/freq_watt_curve_writer.go:79-100 | Writable and read-only registers alternate, so a surviving window that touches a point is that one register |
| `CurveWriter.OnlyHz4CanComplete` | internal/server/freq_watt_curve_writer.go:118-146 | A tracked request can be completed by some record if and only if it wrote Hz4 |
| `CurveWriter.CompletesExactlyForHz4` | internal/server/freq_watt_curve_writer.go:118-146 | A record completes a tracked request if and only if it wrote Hz4 and the record reports that value (code CC) within tolerance |
| `CurveWriter.QueuePoints` | internal/server/freq_watt_curve_writer.go:118-142 | The loop over the four points queues at most one row, the window's own (which one: `CurveWriter.WriteInRegisters`), and stops at a zero or a failure |
| `EnterServiceWriter.Apply` | internal/server/enter_service_writer.go:52-107 | Database and answer are those of one function of unit, snapshot and window; the next row says what it does |
| `EnterServiceWriter.WriteInRegisters` | internal/server/enter_service_writer.go:52-107 | Offset 7, exactly two registers that say 10 to 610: grid_recovery_time in seconds for the identified inverter at index unit-2; every other write is refused without effect |
| `EnterServiceWriter.Accepted` | internal/server/enter_service_writer.go:73-103 | The row names the inverter at index unit-2 and its value is in [10, 610] |
| `ServerRuns.QueueHistory` | internal/server/server.go:255-356 | Over every run of requests, refreshes, failures and timer steps, the step that queued a row is a permitted request whose own unit and snapshot justify it, or one restore of a timer, armed by a request that justifies it: caps in [20, 500] and switches for the unit's targets; parameters for the inverter at index unit-2, within their bounds against that snapshot, no slope or delay to a QS1A, no freq-watt parameter to an unknown family |
| `ServerRuns.TimersComeFromRequests` | internal/server/controls_writer.go:133-139 | Every timer was armed by the permitted request at which the pool grew by it, and covers exactly that request's targets |
| `Server.RoutingIsExact` | internal/server/server.go:326-351 | On every printed bank a window that ends inside the address space is routed to a model exactly if it lies in that model's body, at the right offset |
| `Server.BodiesAreDisjoint` | internal/server/server.go:283-351 | No window lies in two writable bodies |
| `Server.BodiesInBank` | internal/server/server.go:326-351 | The writable bodies lie inside the bank |
| `Server.WritesHitOneModel` | internal/server/server.go:255-356 | A request has the effect of the one model whose body contains it, and is refused without any change outside all bodies |
| `Server.WritesInOwnBank` | internal/server/server.go:255-356 | With the banks of a fleet of at most 254 published: a permitted write on mapped unit u has the effect of the one model among the bodies at 40264, 40468, 40487 and 40511 that contains its window (40296, 40500, 40519 and 40543 on any other unit), at the right offset, and is refused unchanged otherwise |
| `Server.ReadsInRegisters` | internal/server/server.go:204-249 | With the banks of a fleet of at most 254 published: a read on mapped unit u returns exactly banks[u][addr-40000..][..quantity] if the window is nonempty and lies inside that bank and is refused otherwise; any other unit reads banks[1] likewise |
| `Server.WrappedWritesChangeNothing` | internal/server/server.go:337-341 | A window whose end wraps past 65535 is routed to Model 123 far outside its body: it changes nothing, yet is answered as applied for any unit that stands for an inverter |
| `Server.Server.HandleWrite` | internal/server/server.go:255-356 | State and response are those of one function of gate, banks, snapshot and request (which bank and model: `Server.WritesInOwnBank`) |
| `Server.Server.HandleRead` | internal/server/server.go:236-249 | The answer is that of one function of banks and request (which bank and registers: `Server.ReadsInRegisters`) |
| `Server.Server.Refresh` | internal/server/server.go:160-175 | A failed build changes nothing; otherwise the tracker is reconciled and pruned before the banks are built from it |
| `Server.BuildBanks` | internal/server/server.go:181-200 | For fleets of any size each unit holds the bank of the last inverter with that 8-bit identifier, made with that unit's tracker answer |
| `Server.HolderIsOwn` | internal/server/server.go:190-191 | Up to 254 inverters the units are 2, 3, ... in order |
| `Server.AggregateSurvives` | internal/server/server.go:190-197 | The aggregate bank stays reachable if and only if there are at most 255 inverters |
| `Server.BanksArePrinted` | internal/server/server.go:181-200 | Up to 254 inverters every published bank is printed with one of two fixed layouts, and only unit 1 and the mapped units have one |
| `Layout.BankRoundTrip` | internal/server/server.go:360-379 | In every laid-out bank: declared lengths are true, the walk visits exactly the emitted models and ends on the end marker in the last two registers, a lookup succeeds exactly for emitted identifiers, at the first such header |
| `Layout.AggregateIsLaidOut` | internal/sunspec/encoder.go:193-349 | For every fleet of at most 254 inverters and every open choice: Models 123, 710, 703, 711, 134 at constant addresses, at most 641 + 20 panels + 10 inverters registers, panels at most 4 per inverter, everything inside the address space |
| `Layout.InverterIsLaidOut` | internal/sunspec/per_inverter.go:25-172 | The same for every inverter's own bank, at its own constant addresses |
| `Layout.WritableModelsAreFound` | internal/server/server.go:360-379 | Lookups of the writable models give those addresses |
| `Walker.FindModelInBank` | internal/server/server.go:360-379 | The loop terminates on any registers and computes the search; a found address holds the identifier |
| `Walker.FindIsSafe` | internal/server/server.go:360-379 | On arbitrary contents, wrapping lengths included, a successful search names a register inside the bank holding the identifier |
| `Walker.FindInPrinted` | internal/server/server.go:360-379 | In a printed bank a body value is never taken for a header |
| `Walker.WalkVisitsEveryModel` | internal/sunspec/encoder.go:193-349 | A client's walk visits exactly the emitted headers, in order |
| `Banks.Slice` | internal/sunspec/encoder.go:375-381 | The loop returns exactly the addressed registers of a contained read |
| `Encoder.Encode` | internal/sunspec/encoder.go:193-349 | The registers appended by all emitters together are the printed blocks of the aggregate bank |
| `Encoder.EncodePerInverter` | internal/sunspec/per_inverter.go:25-172 | Likewise for an inverter's own bank |
| `Encoder.DetectPhase` | internal/sunspec/encoder.go:470-496 | The smallest model that fits the phases with an online inverter |
| `Encoder.AggregateProtection` | internal/sunspec/der_trip.go:271-284 | The record of the first inverter that has one, otherwise any |
| `Encoder.NominalVRefV` | internal/source/snapshot.go:90-97 | The voltage backed out of any record that has the averaged limit, zero without one |
| `Encoder.InverterIsMeasured` | internal/sunspec/per_inverter.go:25-110 | Model 101 of an inverter, register by register: signed power at 12, voltage at 8, centi-hertz at 14, signed temperature at 31, state 2, 4 or 8 at 36, event flags at 38 |
| `Encoder.FleetIsMeasured` | internal/sunspec/encoder.go:193-300 | The fleet's inverter model, register by register: signed power, lifetime energy, state, total and per-phase currents with 0xFFFF for phases not in use, event flags |
| `Publication.InverterPublishes` | internal/sunspec/per_inverter.go:147-168 | Models 710, 703, 711 and 134 of every inverter, register by register at constant addresses |
| `Publication.AggregatePublishes` | internal/sunspec/encoder.go:331-334 | The tracker's answer for unit 1 at the aggregate bank's constant address |
| `ReadBack.WrittenReadsBack` | internal/server/server.go:255-356 | Write, report, read, for every protection parameter a client can set and read: if a permitted write of registers at an address on an inverter's unit queues one parameter row, and a later snapshot's record of that inverter reports the queued value, then reading the same address on the same unit returns exactly the registers written |
| `ReadBack.LimitIsRead` | internal/sunspec/per_inverter.go:147-150 | A limit once reported, as read at 40264: enabled exactly below 100 %, connected exactly if online, and the percentage max(4, min(pct, 100)) without a rating, otherwise the largest whole percentage of the rating that the panels may still produce |
| `TripMargin.MarginInRegisters` | internal/server/freq_droop_writer.go:164-175 | For every accepted start: once reported with the fast trip unchanged, the next bank's DbOf register + 5050 is at most its fast-point register if and only if the trip register does not saturate; within the tracker's tolerance the loss is at most 5 |
| `TripMargin.Published` | internal/sunspec/freq_droop.go:109-115 | DbOf and the fast trip point of a published bank, read at constant addresses, are the encodings of the reported values; the fast point is an active one |
| `FreqDroop.DbOfReadBack` | internal/sunspec/freq_droop.go:109-115 | A start reported within tolerance is published within five units |
| `FreqDroop.DbOfExact` | internal/sunspec/freq_droop.go:109-115 | A start reported exactly is published exactly |
| `FreqDroop.KOfReadBack` | internal/sunspec/freq_droop.go:116-130 | A slope reported within tolerance is published as k or k+1 |
| `FreqDroop.EnaReadBack` | internal/sunspec/freq_droop.go:75-85 | A mode reported within tolerance is published as requested if and only if it is 14 or not undershot |
| `FreqDroop.EnaCanMislead` | internal/sunspec/freq_droop.go:75-85 | A report of 14.96 matches a request to disable (15) and is published as enabled |
| `FreqWattCurve.HzCenti16RoundTrip` | internal/sunspec/freq_watt_curve.go:255-264 | Encoding a written centi-hertz value gives it back |
| `FreqWattCurve.PublishedPoints` | internal/sunspec/freq_watt_curve.go:167-250 | The four points at the offsets they are written to |
| `DerTrip.TripPointsFromProtection` | internal/sunspec/der_trip.go:191-254 | All four tiers are the packed prefixes of their candidate points, for every set of reported codes |
| `DerTrip.PackedIsUnique` | internal/sunspec/der_trip.go:191-254 | Counting exactly the reported points, in order at the front, zeros behind, leaves only one tier |
| `DerTrip.EncodersAreMonotone` | internal/sunspec/der_trip.go:139-179 | The three encoders are monotone |
| `DerTrip.EncodersAreNearest` | internal/sunspec/der_trip.go:139-179 | For positive input each of the three encoders is within half a unit below saturation, and saturates above |
| `DerTrip.LowVoltageInRegisters` | internal/sunspec/der_trip.go:191-254 | Model 707 in registers: slow point (AC with BB) before fast point (AQ with BD), each only if both codes are reported, point count and enable flag |
| `DerTrip.HighVoltageInRegisters` | internal/sunspec/der_trip.go:191-254 | Model 708 in registers: fast (AY, BE), slow (AD, BC), then the ten-minute average (AB) with 600 s |
| `DerTrip.LowFrequencyInRegisters` | internal/sunspec/der_trip.go:191-254 | Model 709 in registers: slow (AE, BJ), then fast (AJ, BH) |
| `DerTrip.HighFrequencyInRegisters` | internal/sunspec/der_trip.go:191-254 | Model 710 in registers: slow (AF, BK), then fast (AK, BI) |
| `DerTrip.EnterServiceInRegisters` | internal/sunspec/enter_service.go:42-76 | Model 703 in registers: reported flag, high and low voltage, high and low frequency of the reconnect window |
| `DerTrip.EnterServiceReadBack` | internal/sunspec/enter_service.go:42-76 | A recovery time written in whole seconds reads back in the registers it was written to |
| `Models.PublishedPowerIsConserved` | internal/sunspec/encoder.go:513-598 | For parsed inverters whose panel powers fit their registers, the power registers of Model 160 add up to the live system power and to the sum of the three phases |
| `Models.PanelsCarryThePower` | internal/sunspec/encoder.go:513-532 | The panel list of Model 160 carries exactly the fleet's panel powers, in order |
| `Models.FillChannels` | internal/sunspec/inverter_float.go:220-250 | The nested loop with two breaks yields exactly the first eight panels of that list |
| `Params.ParseInverterLine` | internal/source/params.go:74-150 | From already split fields: accepted exactly if the fixed fields are numbers; frequency, temperature and telemetry from their columns; for types 01 and 04 voltage from column 6, power from 5 + 7 and panels [5, 7], for type 03 power from 5 + 7 + 8 + 9 and panels in that order, zeros otherwise |
| `Params.PanelsAddUp` | internal/source/params.go:136-150 | For a parsed online inverter the panel powers add up to its AC power |
| `Params.PanelPowerIsConserved` | internal/source/snapshot_builder.go:208-216 | Panel list and live system power have the same total |
| `Params.PhasePowerIsConserved` | internal/sunspec/encoder.go:618-643 | The three phases together are the live system power |
| `Params.LiveSystemPowerW` | internal/source/snapshot_builder.go:208-216 | The loop computes the total, as an int32 |
| `Params.DerivePhaseCurrents` | internal/sunspec/encoder.go:618-643 | The loops compute total and phase currents |
| `Params.CurrentsAgree` | internal/sunspec/encoder.go:618-643 | Without overflow the total current differs from the sum of the phase currents by at most one unit |
| `Params.SplitCurrentsAgree` | internal/sunspec/encoder.go:618-643 | The same for any split of a total into three nonnegative parts |
| `Events.ParseEventBits` | internal/source/sqlite.go:231-244 | Bit i%32 of slot i/32 is set exactly if character i < 128 is '1' |
| `Events.ComputeAggregateEventBits` | internal/source/snapshot.go:14-22 | The loop computes the OR over the fleet |
| `Events.MapAPsystemsToSunSpecEvt1` | internal/sunspec/events.go:36-91 | The sequence of OR steps computes the standard flags, all below bit 16 |
| `Events.FlagsByPosition` | internal/sunspec/events.go:36-91 | The translation is one table from the 32 consulted positions to standard flags: a flag is raised if and only if some set position has it |
| `Events.TranslationIsHomomorphic` | internal/sunspec/events.go:36-91 | Translating the fleet's OR gives the OR of the translations |
| `Events.VendorBitsDoNotMatter` | internal/sunspec/events.go:36-91 | Vendor-only positions never influence the result |
| `Events.WordValueBits` | internal/sunspec/events.go:36-91 | The number published for a word has exactly the bits of the set |

## Steps the results rest on

Each method is proved to do exactly what its part of the program does:

- `Tracker.WriteTracker.Get`, internal/server/write_tracker.go:96-103: the entry's result and counter, (COMPLETED, 0) without an entry.
- `Failsafe.RunsExtend`, internal/server/reverter.go:54-122: every enabled event extends a run.
- `ControlsWriter.TargetUIDs`, internal/server/controls_writer.go:89-103: the whole fleet in order for units 0 and 1, the one inverter of a mapped unit, nothing otherwise.
- `ControlsWriter.RestoreFull`, internal/server/controls_writer.go:105-112: the loop attempts 500 W for each target in order and stops at the first failure.
- `ControlsWriter.ApplyConn`, internal/server/controls_writer.go:141-149: the loop attempts the switch for each target and stops at the first failure.
- `ControlsWriter.ArmOrCancelReversion`, internal/server/controls_writer.go:133-139: 0 and 0xFFFF cancel, any other value schedules that many seconds.
- `Controls.PerInverterControlsState`, internal/sunspec/controls.go:175-188: percentage, enable flag and connection of one inverter.
- `Controls.EmitControls`, internal/sunspec/controls.go:66-100: the registers appended are those of the block.
- `Commands.Writer.SetTurnOnOff`, internal/source/writer.go:87-99: one statement that replaces or inserts the row.
- `Commands.Writer.RestoreFullPower`, internal/source/writer.go:103-105: the statement that sets 500 W.
- `DroopWriter.Scan`, internal/server/freq_droop_writer.go:135-151: the loop over 22 offsets accepts exactly the windows without read-only registers.
- `DroopWriter.Dispatch`, internal/server/freq_droop_writer.go:109-124: one statement if the family's route is direct, otherwise an error and no change.
- `ServerRuns.RunsExtend`, internal/server/server.go:255-356: every enabled event extends a run.
- `Walker.PrintedBlock`, internal/sunspec/encoder.go:362-371: identifier, length and body of every block by absolute address.
- `Banks.Bank.Put16`, internal/sunspec/encoder.go:400-402: the registers appended.
- `Banks.Bank.PutAcc32`, internal/sunspec/encoder.go:404-408: two registers, high word first.
- `Banks.Bank.PutString`, internal/sunspec/encoder.go:410-417: the packing loop appends the string cut or zero-padded to the given registers.
- `FreqDroop.EmitFreqDroop`, internal/sunspec/freq_droop.go:72-143: the registers appended are those of the block.
- `FreqDroop.BodyFields`, internal/sunspec/freq_droop.go:72-143: where each published field is.
- `FreqWattCurve.EmitFreqWattCurve`, internal/sunspec/freq_watt_curve.go:167-250: the registers appended are those of the block.
- `DerTrip.EmitDERTripModels`, internal/sunspec/der_trip.go:257-263: the registers appended are those of the four blocks.
- `DerTrip.EmitEnterService`, internal/sunspec/enter_service.go:42-76: the registers appended are those of the block.
- `Models.CollectPanels`, internal/sunspec/encoder.go:513-531: the nested loop yields exactly the panel list.
- `Models.EmitMultiMPPT`, internal/sunspec/encoder.go:513-598: the registers appended are those of the block; nothing for an empty list.
- `Models.EmitVendor`, internal/sunspec/vendor.go:39-73: the registers appended are those of the block, 10 per inverter.

## Left out

- Modbus transport, coils, discrete inputs, logging, configuration and the decision of the write gate: a request carries whether it is permitted, and a permitted one has a database.
- SQLite: the three tables are maps; the success of every statement is an arbitrary function of its position, so any failure pattern is covered, and the ghost log records the rows written.
- File reading, timestamps and number parsing: parsing starts from split fields whose numeric values are parameters, snapshots from an already built value, model table and float32 encoding are parameters.
- Floating point: quantities are reals. Conversions to unsigned registers outside their range, which Go leaves to the machine, are truncations modulo the width; NaN is the absent value.
- Go's `int` is unbounded here; the widths that matter (uint8 units, uint16 addresses and lengths, uint32 and int32 registers) are modelled where they occur.
- Strings are packed by character code modulo 256: bytes, not UTF-8.
- Event words are sets of bit positions, with `Events.WordValue` for the number; the parameter names of the command table are constructors, with `Commands.ParamName` for the text.
- Map iteration order: the loops over maps are proved for any order, and the record standing for the fleet is any that `Encoder.IsAggregateProtection` and `Encoder.IsNominalVRef` admit.
- Register contents of Models 1, 101-103, 111-113, 114, 120, 121 and 64202 beyond lengths, identifiers and the values the lemmas name: long lists of constants and copies.
- `Encoder.Encode` and the other emitters build monitoring blocks as values before appending them; the order of the registers is the program's, the interleaving of computing and appending is not.
- The nil writer, tracker and reverter of a server without a database, and `SetSnapshot`, which the program itself does not call.
- `RouteGridProfile` and the curve table of `profiles.go`: the route is never returned and nothing in the program reads the table.
- The radio program: any snapshot may follow any other, so no theorem depends on what it accepts.
- EndToEnd.CompletedIsSound: says nothing about a completed request in later refreshes, whose snapshots may differ again, and compares with the inverter at the unit's index in the completing snapshot, as the program does; it takes a fleet of at most 254 inverters, beyond which unit identifiers wrap (`Server.BuildBanks` covers any size).
- ReadBack.WrittenReadsBack: needs a report of exactly the queued value; an Ena above 1, a request counter written with Ena and RspTms do not read back, because the program publishes a flag, its own counter and zeros there.
- TrackerRuns.ResultHasWitness: the witness is a snapshot reconciled after the write; it may have been built before it.
- Failsafe.NeverLiftedExactlyWhenQuiet: takes a write as one step, expiry together with the locked section of `fire`, and a database that takes every statement from the refresh on; the safe direction (`Failsafe.NeverLifted`) holds for every failure pattern, and `TimerRuns` shows what remains true with expiry apart.
- ServerRuns.QueueHistory: the snapshot a request sees is any snapshot, not only the one of the last refresh, so the statement covers more runs than the program has.
- Server.Server.Refresh: one uninterrupted refresh; `ServerRuns` interleaves its steps with requests and timers.
- Models.PublishedPowerIsConserved: for panel powers that fit a 16-bit register, because others are published as not implemented.
