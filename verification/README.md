# Runtime evidence, verified

A Dafny model of the runtime evidence pipeline of the UAV navigation tools: the side that
records evidence while the vehicle flies, the side that judges it afterwards, and the
mission scenario and geometry both rely on. The judging side must fail closed, so most
results say exactly when evidence is accepted, for every input or every interleaving.

`dafny verify dfyconfig.toml` checks everything.

## What is modelled

- **Evidence writer** (`Snapshots`, `EvidenceCategories`, `WriterProtocol`, `WriterSafety`,
  `WriterProgress`, `CounterRows`, `WriterAccounting`, `WriterRoster`, `EvidenceWriter`).
  Producers, one worker and closers are a step relation; each region under the lock is
  cut at the queue operation, because the worker takes items without the lock.
  Serialization, write, flush and worker failures are free choices. The class
  `EvidenceWriter.Writer` is the imperative form; its methods are tied to the same counter
  functions, and each region under the lock and each batch to runs of the protocol.
- **Writer checks** (`WriterIntegrity`, `JudgedCaptures`). The row loop of the integrity
  check rebinds the counters that the total check reads afterwards; the model keeps that,
  shows a report it lets through and states exactly when the total check fires.
- **Lifecycle reduction** (`LifecycleEvents`, `LifecycleOwners`, `LifecycleGroups`,
  `LifecycleVerdicts`, `LifecycleReduction`, `LifecycleClaims`, `LifecycleOrder`,
  `LifecycleReadings`, `LifecycleArrangements`, `LifecycleStability`, `LifecycleGlances`,
  `LifecycleWitnesses`). The reduction's `order_independent` flag claims more than the code
  does: the classification looks at the first event of each stage, and of repeated events the
  first is kept. Two recordings whose order matters are given, one for a verdict and one for
  the producer-owned references of a VALID transaction. For every recording, status, reasons,
  verdicts and all three sets of references are the same in every order exactly when, in every
  transaction, any two possible choices (a leading event per stage, a kept event per identity)
  are judged alike; recorded events come before the ones derived from the adapter trace and
  from emergency commits, so a derived event is a possible choice only where no recorded one
  is. A condition on the events alone, that those that can lead look alike to the
  classification and repetitions make the same claim, is enough.
- **World reduction** (`Rows`, `Sorting`, `WorldEvents`, `WorldGaps`, `WorldReduction`).
- **Time** (`TrackingCoverage`, `Heartbeats`).
- **Mission scenario** (`MissionSteps`, `MissionSafety`, `MissionRuns`, `MissionScenario`).
  Callbacks, ticks and interrupts are steps of one state; the history of ticks, commands,
  outcomes, markers and acknowledgements is part of it. `MissionScenario.Scenario` is the
  object; each of its methods takes the step of the state machine, and its invariant carries
  the theorems on runs over to the object's own record.
- **Geometry** (`RealMath`, `TernarySearch`, `CollisionGeometry`).
- **Reference generator** (`SmoothMotion`, `ArcProfile`, `Derivatives`, `ArcMotion`,
  `ReferenceTrajectory`, `ReferenceMotion`). A derivative is a slope with a uniform quadratic remainder.
- **Frames and diagnostics** (`Quaternions`, `PoseHistories`, `FrameWitness`,
  `DiagnosticsJoin`, `DiagnosticsRejoin`).

Nanosecond stamps are integers and floats are reals. Square root, cosine and sine are
function parameters with their defining identities and, for the arc, tangent bounds; clocks,
residuals, received messages and the success of I/O are parameters or free choices.
`RealMath.Prod` names a product so that proofs can treat it as a term of linear arithmetic.

## Model

| member | source | states |
|---|---|---|
| `Snapshots.SnapshotValue` | tools/runtime/evidence_writer.py:33-67 | the recursive copy through one mutable budget succeeds if and only if the value is supported (types, finiteness, text keys, depth at most 8) and its whole cost fits the bytes left; it charges exactly that cost and returns the frozen value in containers that did not exist before |
| `Snapshots.SnapshotSlots` | tools/runtime/evidence_writer.py:51-66 | the loops over mapping items and sequence elements: same if-and-only-if, same charge, element by element, and fresh containers only |
| `Snapshots.SnapshotRecord` | tools/runtime/evidence_writer.py:70-74 | a record is copied if and only if it is a mapping, supported and costs at most 262144 bytes; the copy shares no container with the record |
| `Snapshots.FreezeIsStable` | tools/runtime/evidence_writer.py:33-67 | a snapshot costs and is supported exactly like its source, and freezing it again is the identity |
| `Snapshots.SnapshotAgain` | tools/runtime/evidence_writer.py:70-74 | snapshotting a snapshot is accepted exactly like its source, costs the same and denotes the same value |
| `EvidenceCategories.RecordCategory` | tools/runtime/evidence_writer.py:77-85 | the writer's category is a prefix of at most 96 characters of the evaluator's category, and equal to it when that is short enough |
| `EvidenceCategories.CategoryIsStable` | tools/runtime/evidence_writer.py:77-85 | copying and stamping an envelope never moves it to another category, so submission and writing count it in the same one |
| `WriterSafety.HandshakeKept` | tools/runtime/evidence_writer.py:200-288 | every atomic step of producers, worker and closers keeps the close handshake: the sentinel is last, nothing is accepted once closing is set, a worker leaving without a fault has seen the writer closed and the queue empty |
| `WriterSafety.RunIsSafe` | tools/runtime/evidence_writer.py:122-355 | in every interleaving, without a fault the file followed by the records in the worker's hands and in the queue is the acceptance log, in order |
| `WriterSafety.CleanExitHoldsEverything` | tools/runtime/evidence_writer.py:235-288 | a worker exit without exception, serialization error or write error leaves the file holding exactly the accepted envelopes, once each, in acceptance order, with nothing queued; lost sentinels and timed-out closers included |
| `WriterSafety.CompleteCaptureIsTheLog` | tools/runtime/evidence_writer.py:283-288 | capture_complete implies exit after close, an empty queue, the file equal to the acceptance log, no error, no drop and accepted = written |
| `WriterProgress.OuterRoundsAfterClose` | tools/runtime/evidence_writer.py:241-264 | after the close region is left, the worker begins at most one more outer round than items were queued then |
| `WriterProgress.WorkerStepsCountDown` | tools/runtime/evidence_writer.py:235-315 | in a closed writer every worker step strictly decreases a rank that no other thread changes |
| `WriterProgress.ClosedRunIsBounded` | tools/runtime/evidence_writer.py:235-315 | whatever the other threads do, a closed worker takes at most rank-many further steps |
| `WriterProgress.SomebodyCanMove` | tools/runtime/evidence_writer.py:200-288 | no deadlock: a lock holder can always leave, otherwise the worker can move until it has exited |
| `CounterRows.BumpEffect` | tools/runtime/evidence_writer.py:167-177 | a bump moves one counter of one row by one, adds at most that row and fixes the row of the category for good |
| `CounterRows.BumpWrittenEffect` | tools/runtime/evidence_writer.py:312-315 | counting a written batch adds to each row exactly its records and to the written total exactly the batch size |
| `WriterAccounting.BalancedKept` | tools/runtime/evidence_writer.py:167-233 | every step keeps the books: flow of records, row tags, row balances and global balances |
| `WriterAccounting.BooksAlwaysAgree` | tools/runtime/evidence_writer.py:167-355 | at every lock release of every interleaving: submitted = accepted + dropped and written <= accepted, globally and per row, row sums equal the totals, at most 129 rows, drops split into their three causes, complete implies no error, no drop and accepted = written |
| `WriterRoster.RunIsRostered` | tools/runtime/evidence_writer.py:167-177 | every category seen so far is counted in its own row as long as at most 128 distinct ones were seen |
| `EvidenceWriter.Writer.BumpCategoryLocked` | tools/runtime/evidence_writer.py:167-177 | the row table after a bump |
| `EvidenceWriter.Writer.Enqueue` | tools/runtime/evidence_writer.py:179-233 | accepted exactly when the snapshot succeeds, the writer is open and the queue has room; the counters and the queue afterwards in each of the four outcomes |
| `EvidenceWriter.Writer.WriteBatch` | tools/runtime/evidence_writer.py:290-315 | the file and all counters after a batch, for any pattern of serialization failures and any write failure |
| `EvidenceWriter.Writer.Finalize` | tools/runtime/evidence_writer.py:283-288 | complete is set exactly when there is no error, no drop and nothing unwritten |
| `EvidenceWriter.Writer.CloseRegion` | tools/runtime/evidence_writer.py:338-348 | closing is set once and the sentinel joins the queue only if there is room |
| `EvidenceWriter.Writer.RecordTimeout` | tools/runtime/evidence_writer.py:350-354 | a timed-out close counts a write error and withdraws completeness |
| `EvidenceWriter.EnqueueIsARun` | tools/runtime/evidence_writer.py:200-233 | an undisturbed accepting call is the three producer actions of the protocol |
| `EvidenceWriter.EncodingIsARun` | tools/runtime/evidence_writer.py:291-303 | the encoding loop of a batch is one serialization action per record of the protocol |
| `EvidenceWriter.RejectIsARun` | tools/runtime/evidence_writer.py:187-199 | a refused snapshot is one producer action with the same counters |
| `EvidenceWriter.RefusalIsARun` | tools/runtime/evidence_writer.py:200-233 | a submission refused by the closed writer is one action, by the full queue two, with the same counters |
| `EvidenceWriter.CloseIsARun` | tools/runtime/evidence_writer.py:338-348 | the locked part of close is two actions the first time and one afterwards |
| `EvidenceWriter.TimeoutIsARun` | tools/runtime/evidence_writer.py:350-354 | a close that gives up is seeing the worker alive and recording the timeout |
| `EvidenceWriter.FinalizeIsARun` | tools/runtime/evidence_writer.py:283-288 | the exit block is the worker's last action |
| `EvidenceWriter.WritingIsARun` | tools/runtime/evidence_writer.py:304-315 | writing and counting the lines of a batch is two actions, a failed write one |
| `EvidenceWriter.BatchIsARun` | tools/runtime/evidence_writer.py:290-315 | a whole batch, for any pattern of serialization failures and any write failure, is a run that leaves the file and counters of the method |
| `WriterIntegrity.ParseCounters` | tools/runtime/evaluation.py:1104-1118 | which counters are readable and whether one is missing or invalid |
| `WriterIntegrity.JudgeRows` | tools/runtime/evaluation.py:1145-1170 | the reasons drawn by category rows and the sums over the readable ones |
| `WriterIntegrity.WriterIntegrityOf` | tools/runtime/evaluation.py:1093-1180 | the integrity check as its loops run it, including the rebinding of the counters by the row loop |
| `WriterIntegrity.AcceptedReport` | tools/runtime/evaluation.py:1093-1180 | no integrity reason if and only if the report is finalized and clean, each row readable and consistent, the (rebound) total check passes and the marker is present |
| `JudgedCaptures.ArtifactCountReasons` | tools/runtime/evaluation.py:1209-1234 | the artifact check against the records in the file |
| `JudgedCaptures.CompleteCaptureAccepted` | tools/runtime/evaluation.py:1093-1180 | a complete capture with its terminal marker draws no integrity reason |
| `JudgedCaptures.ArtifactAcceptedExactly` | tools/runtime/evaluation.py:1209-1234 | a complete capture draws no artifact-count reason if and only if the full category name of every record has a counter row |
| `JudgedCaptures.FewShortCategoriesMatch` | tools/runtime/evaluation.py:1209-1234 | categories of at most 96 characters and at most 128 distinct ones draw no artifact-count reason |
| `JudgedCaptures.EveryCompleteRunIsAccepted` | tools/runtime/evaluation.py:1093-1234 | for every interleaving of the writer: if the capture is complete, the evaluator accepts it |
| `JudgedCaptures.BadTotalsAccepted` | tools/runtime/evaluation.py:1149-1177 | a concrete report whose rows do not add up to its totals and which is accepted all the same |
| `JudgedCaptures.TotalCheckFires` | tools/runtime/evaluation.py:1149-1177 | exactly when the total check fires: without rows on non-zero totals, with rows only if the last row itself carries all ten counters and differs from the sums |
| `LifecycleEvents.NormalizeElems` | tools/runtime/evaluation.py:321-377 | normalization depends only on which events and trace events there are |
| `LifecycleOwners.CollectExporters` | tools/runtime/evaluation.py:383-397 | the exporting cycles of each exact bundle |
| `LifecycleOwners.CollectAuthorizers` | tools/runtime/evaluation.py:399-417 | the owners named by authorizations of each exact sample |
| `LifecycleOwners.ResolveOwners` | tools/runtime/evaluation.py:383-482 | every event is annotated with the owner that the set of all events determines |
| `LifecycleOwners.OwnersIgnoreOrder` | tools/runtime/evaluation.py:383-482 | the annotated owner of an event never depends on order or repetition |
| `LifecycleOwners.ResolvedOwnersHaveWitnesses` | tools/runtime/evaluation.py:419-482 | a resolved owner is the one exporter of that bundle or is named by the one authorization of that sample |
| `LifecycleGroups.GroupEvents` | tools/runtime/evaluation.py:483-574 | the grouping loop equals the fold over the events |
| `LifecycleGroups.JoinAllCollects` | tools/runtime/evaluation.py:483-574 | a transaction holds exactly events of its own key and stage, one per identity and signature, first event first |
| `LifecycleGroups.JoinAllNotes` | tools/runtime/evaluation.py:483-574 | contradictions and owner problems are noted on exactly the transactions concerned |
| `LifecycleGroups.ConflictExactly` | tools/runtime/evaluation.py:560-572 | a conflict is reported if and only if one event identity carries two signatures |
| `LifecycleVerdicts.SettledExactlyWithoutReasons` | tools/runtime/evaluation.py:583-960 | a transaction is VALID, VALID_TERMINAL or VALID_REJECT if and only if its reason list is empty; no reason collected before is lost; only VALID ones keep publications |
| `LifecycleReduction.ClassifyAll` | tools/runtime/evaluation.py:576-960 | the classification loop: verdict of each transaction, the valid, producer-owned and producer-authorized references and the reasons |
| `LifecycleReduction.ReduceLifecycle` | tools/runtime/evaluation.py:321-998 | the whole reduction as its loops run it |
| `LifecycleReduction.ValidTransaction` | tools/runtime/evaluation.py:810-954 | in a VALID transaction every publication is authorized with the same sample, bundle field and fully present world, and one bundle generation is named throughout |
| `LifecycleReduction.ReferencesAreBacked` | tools/runtime/evaluation.py:810-954 | lineage soundness: every valid reference comes from a publication of one VALID transaction whose publications are all so authorized and whose generations are all the reference's |
| `LifecycleClaims.OwnedAreBacked` | tools/runtime/evaluation.py:926-954 | ownership soundness: every producer-owned reference comes from a publication of a VALID transaction, authorized there with its full world, whose owner is named by all producer-declared authorizations of its exact sample, of which there is one at least; the transaction's leading authorization and its origin are the producer's |
| `LifecycleClaims.AuthorizedAreBacked` | tools/runtime/evaluation.py:905-924 | every producer-authorized reference comes from a producer-declared AUTHORIZED event of a VALID transaction with sample and world fully named, for the one generation of that transaction |
| `LifecycleReduction.FailClosed` | tools/runtime/evaluation.py:560-998 | settled exactly without reasons, contradictory evidence never settled, overall VALID exactly when no reason is left and some transaction is VALID |
| `LifecycleOrder.GroupingIgnoresOrder` | tools/runtime/evaluation.py:483-574 | keys, identity and signature pairs and the presence of a conflict depend only on which annotated events there are |
| `LifecycleOrder.ReductionCoreIgnoresOrder` | tools/runtime/evaluation.py:383-574 | permuting the input never changes an annotated owner, the keys, the attached pairs or whether the verdict is CONFLICTING |
| `LifecycleReadings.EvidenceIgnoresOrder` | tools/runtime/evaluation.py:483-574 | whatever the order, a transaction collects the same signatures at each stage and the same reasons |
| `LifecycleReadings.ChoiceAgrees` | tools/runtime/evaluation.py:583-960 | for the same choice of leading and kept events, transactions with the same signatures and reasons get the same verdict, samples and claims |
| `LifecycleReadings.ReferencesFollow` | tools/runtime/evaluation.py:926-935 | on the same evidence, the same verdict gives the same valid references |
| `LifecycleArrangements.JoinAllFirsts` | tools/runtime/evaluation.py:573-574 | the first event of a stage is the first one recorded with that key and stage, repeated and contradictory ones included |
| `LifecycleArrangements.JoinAllKeepsFirst` | tools/runtime/evaluation.py:560-574 | in a transaction without contradiction an event is collected exactly when it is the first of its identity |
| `LifecycleArrangements.OrderIsJudged` | tools/runtime/evaluation.py:583-960 | the verdict of a recording, its claims included, is the verdict for the choice its order makes |
| `LifecycleArrangements.FirstAnnotated` | tools/runtime/evaluation.py:321-377 | the first annotated event with any property: a recorded event, failing that an adapter publication, a planner emergency, a monitor emergency |
| `LifecycleArrangements.Arrange` | tools/runtime/evaluation.py:573-585 | compatible wishes for first events can all be met by reordering the recording |
| `LifecycleStability.OrderIsPossible` | tools/runtime/evaluation.py:560-600 | every order of the recording makes a possible choice |
| `LifecycleStability.Realize` | tools/runtime/evaluation.py:321-600 | every possible choice is made by some order, up to the planner outcome of a transaction of unknown cycle, which no verdict reads |
| `LifecycleStability.VerdictsDecide` | tools/runtime/evaluation.py:960-998 | over the same events, agreement of the verdicts carries over to status, reasons and all three sets of references |
| `LifecycleStability.OrderIndependentExactly` | tools/runtime/evaluation.py:560-998 | for every recording: status, reasons, the three sets of references and every verdict, with what it claims as owned and authorized, are the same in every order if and only if, in every transaction, any two possible choices are judged alike |
| `LifecycleGlances.GlancesDecide` | tools/runtime/evaluation.py:583-960 | the verdict reads of the leading events only what the glances hold |
| `LifecycleGlances.UnambiguousReductionIgnoresOrder` | tools/runtime/evaluation.py:560-998 | if the events that can lead a stage look alike to the classification, activations of one bundle agree on success and declaration, and repetitions of one authorization or publication make the same claim, then status, reasons, verdicts and the three sets of references do not depend on order; any number of authorizations and publications may differ in all else |
| `LifecycleWitnesses.OrderMatters` | tools/runtime/evaluation.py:573-997 | a rejected and an open request of one transaction: VALID_REJECT in one order, INCOMPLETE in the other |
| `LifecycleWitnesses.OwnershipOrderMatters` | tools/runtime/evaluation.py:926-954 | two authorizations of one cycle, one producer-declared, one resolved from the export: VALID with the same valid references in both orders, the command producer-owned only if the declared one comes first |
| `WorldEvents.IndexEvents` | tools/runtime/evaluation.py:1259-1346 | the event loop equals the fold that indexes events by runtime and sequence |
| `WorldEvents.IndexIsFaithful` | tools/runtime/evaluation.py:1318-1325 | the index holds exactly the observed identities, once each, each with a signature that some event carries |
| `WorldEvents.ClashesExactly` | tools/runtime/evaluation.py:1289-1325 | no conflict is recorded if and only if every identified event has its canonical key and no sequence carries two signatures |
| `WorldEvents.TransactionsExactly` | tools/runtime/evaluation.py:1325-1346 | without conflicts the transactions are exactly the keys the events name |
| `WorldGaps.GapsExactly` | tools/runtime/evaluation.py:1348-1357 | the reported ranges are exactly the integers missing between the least and greatest observed sequence of each runtime |
| `WorldGaps.GapsAreDisjoint` | tools/runtime/evaluation.py:1348-1357 | no reported range is empty and no two of one runtime overlap |
| `WorldReduction.GroupCounts` | tools/runtime/evaluation.py:1358-1365 | the counter values of each runtime, and one problem per unusable counter |
| `WorldReduction.ReduceWorldTransactions` | tools/runtime/evaluation.py:1237-1478 | the reduction; when required it is RESOLVED if and only if the evidence is fully witnessed |
| `WorldReduction.RequiredResolvedExactly` | tools/runtime/evaluation.py:1404-1478 | RESOLVED if and only if every event is whole and consistent, one runtime accounts for one contiguous run ending at its last counter, demanded kinds and transactions are there, and both writer accounts balance without loss |
| `TrackingCoverage.ValidIntervals` | tools/runtime/evaluation.py:2422-2425 | ordered intervals covering exactly the nanoseconds inside a close-enough consecutive pair |
| `TrackingCoverage.Uncovered` | tools/runtime/evaluation.py:2426-2433 | the cursor sweep yields ordered, separated, non-empty intervals that are exactly the rest of the window |
| `TrackingCoverage.TrackingCoverage` | tools/runtime/evaluation.py:2366-2459 | the result says why it is not measured, or measures exactly the covered nanoseconds, ratio, longest gap and availability |
| `TrackingCoverage.PairedIsCovered` | tools/runtime/evaluation.py:2419-2425 | pairing only neighbours covers the same nanoseconds as pairing any two stamps within the gap |
| `TrackingCoverage.DurationIsExact` | tools/runtime/evaluation.py:2434-2436 | covered plus uncovered nanoseconds are the window |
| `TrackingCoverage.SeparatedIsUnique` | tools/runtime/evaluation.py:2426-2433 | the list of uncovered intervals is determined by what is covered |
| `TrackingCoverage.UncoveredShrinks` | tools/runtime/evaluation.py:2417-2440 | more stamps or a wider gap never lengthen the total or the longest uncovered stretch; each new stretch lies within an old one |
| `TrackingCoverage.CoverageIsMonotone` | tools/runtime/evaluation.py:2417-2459 | adding stamps or enlarging the gap never turns AVAILABLE into NOT_EVALUABLE |
| `Heartbeats.CanonicalReferenceHeartbeats` | tools/runtime/evaluation.py:196-229 | the collapse loop; canonical plus collapsed rows are the raw rows |
| `Heartbeats.CanonicalIsSubsequence` | tools/runtime/evaluation.py:196-229 | the canonical rows are a subsequence that ends with the last row |
| `Heartbeats.EveryRowIsRepresented` | tools/runtime/evaluation.py:196-229 | every raw row stands in a run of one tick and one reference closed by a canonical row |
| `Heartbeats.ConflictIsRepeatedTick` | tools/runtime/evaluation.py:219-225 | a conflict is reported if and only if two neighbouring canonical rows share a tick |
| `Heartbeats.CollapseIsIdempotent` | tools/runtime/evaluation.py:196-229 | collapsing again changes, drops and reports nothing if and only if no conflict was reported |
| `Heartbeats.IdempotentExactly` | tools/runtime/evaluation.py:196-229 | for all rows, collapsing again changes nothing if and only if no two neighbouring runs of raw rows rejoin |
| `Heartbeats.RejoinIsASampleDip` | tools/runtime/evaluation.py:213-228 | runs that rejoin share tick and reference; the second starts at or below the last sample id of the first and ends above it |
| `Heartbeats.ConflictInRawRows` | tools/runtime/evaluation.py:213-228 | a conflict is reported if and only if some raw row shares the tick of the row before it without repeating it |
| `Heartbeats.ConflictBreaksIdempotence` | tools/runtime/evaluation.py:219-228 | with a conflict it can: samples 5, 3, 7 at one tick |
| `Heartbeats.SourceTimeStatus` | tools/runtime/evaluation.py:135-171 | the validator loop and its reasons |
| `Heartbeats.TimeReasonsExactly` | tools/runtime/evaluation.py:135-171 | on stamped rows of one epoch the strict validator reports a duplicate, respectively a regression, exactly when two neighbouring stamps are equal, respectively go back |
| `Heartbeats.CanonicalRowsAreStrict` | tools/runtime/evaluation.py:135-229 | for rows of one epoch whose positive stamps never go back, the canonical rows show no regression, and a duplicate if and only if a conflict was reported |
| `MissionScenario.Scenario.constructor` | tools/runtime/external_mode_scenario.py:395-500 | the initial fields are the start state |
| `MissionScenario.Scenario.RetryCommand` | tools/runtime/external_mode_scenario.py:2333-2337 | a command is sent and timed only when its period has passed |
| `MissionScenario.Scenario.MarkTerminalHandover` | tools/runtime/external_mode_scenario.py:2011-2019 | the first handover boundary is kept and recorded |
| `MissionScenario.Scenario.RecordHandoverRequest` | tools/runtime/external_mode_scenario.py:2021-2046 | the requested handover and its marker |
| `MissionScenario.Scenario.FinishOrWaitForHandover` | tools/runtime/external_mode_scenario.py:2048-2067 | assigns the outcome, marks the first one, then waits or finishes |
| `MissionScenario.Scenario.FinishScenario` | tools/runtime/external_mode_scenario.py:2913-2922 | finishes once; a terminal outcome takes precedence |
| `MissionScenario.Scenario.TickArm` | tools/runtime/external_mode_scenario.py:2612-2634 | the arming phase |
| `MissionScenario.Scenario.TickLocalTakeoff` | tools/runtime/external_mode_scenario.py:2637-2675 | the local-NED takeoff request |
| `MissionScenario.Scenario.TickNativeTakeoff` | tools/runtime/external_mode_scenario.py:2682-2713 | the native takeoff request: Hold, settle delay, altitude, NAV_TAKEOFF |
| `MissionScenario.Scenario.TickFlight` | tools/runtime/external_mode_scenario.py:2714-2739 | takeoff observation and the timeout branch that does not return |
| `MissionScenario.Scenario.TickWindows` | tools/runtime/external_mode_scenario.py:2740-2794 | stability and odometry windows, then activation or the end |
| `MissionScenario.Scenario.TickActivate` | tools/runtime/external_mode_scenario.py:2789-2806 | the airborne activation and its timeout |
| `MissionScenario.Scenario.TickTerminal` | tools/runtime/external_mode_scenario.py:2807-2867 | terminal outcomes in their order of precedence |
| `MissionScenario.Scenario.OnTick` | tools/runtime/external_mode_scenario.py:2553-2867 | the timer callback is one step of the state machine |
| `MissionScenario.Scenario.OnStatusMessage` | tools/runtime/external_mode_scenario.py:1438-1561 | mode discovery, entry and exit on a vehicle status |
| `MissionScenario.Scenario.OnModeStatusMessage` | tools/runtime/external_mode_scenario.py:1911-1946 | mode status and safety stop |
| `MissionScenario.Scenario.OnModeCompletedMessage` | tools/runtime/external_mode_scenario.py:1975-2009 | mode completion with failure |
| `MissionScenario.Scenario.UpdateLocalizationWatchdog` | tools/runtime/external_mode_scenario.py:1273-1436 | the divergence watchdog on given residuals |
| `MissionScenario.Scenario.OnAckMessage` | tools/runtime/external_mode_scenario.py:2261-2268 | the time of the last successful arm acknowledgement |
| `MissionScenario.Scenario.OnMissionCompleteMessage` | tools/runtime/external_mode_scenario.py:1905-1909 | mission completion |
| `MissionScenario.Scenario.OnInterrupt` | tools/runtime/external_mode_scenario.py:3224-3232 | an interrupt finishes with the terminal outcome, if there is one |
| `MissionScenario.Scenario.RecordIsDisciplined` | tools/runtime/external_mode_scenario.py:2553-2867 | of the object at any time: the command discipline and the activation windows, for every command on its record |
| `MissionScenario.Scenario.OutcomeIsEarned` | tools/runtime/external_mode_scenario.py:2011-2067 | of the object at any time: at most one outcome, earned, reported when finished, and one marker value |
| `MissionScenario.Scenario.PastIsSettled` | tools/runtime/external_mode_scenario.py:2011-2922 | since any earlier moment at which it was over, waiting or abandoned, the object has sent and assigned nothing |
| `MissionSafety.TimedOutKeeps` | tools/runtime/external_mode_scenario.py:2735-2794 | in the branch that finishes without returning no command is sent and no outcome assigned |
| `MissionSafety.WindowPhaseKeeps` | tools/runtime/external_mode_scenario.py:2740-2867 | the window phase keeps the invariant: open windows are what the ticks say |
| `MissionSafety.TickKeeps` | tools/runtime/external_mode_scenario.py:2553-2867 | every tick keeps the invariant |
| `MissionRuns.StepKeeps` | tools/runtime/external_mode_scenario.py:613-2922 | every callback and every tick keeps the invariant |
| `MissionRuns.RunIsSafe` | tools/runtime/external_mode_scenario.py:613-2922 | the invariant holds after every interleaving |
| `MissionRuns.CommandDiscipline` | tools/runtime/external_mode_scenario.py:2553-2867 | every command was sent while neither finished nor waiting and not after an unexpected exit in flight; NAV_TAKEOFF at most once, only after an arm ACK, an observed native Hold and the settle delay |
| `MissionRuns.ActivationNeedsWindows` | tools/runtime/external_mode_scenario.py:2593-2794 | every activation after takeoff found each tick since the stable-window start within the speed limit, each tick of the odometry window fresh as well, and both windows at least as long as configured |
| `MissionRuns.TerminalOutcome` | tools/runtime/external_mode_scenario.py:2011-2067 | the outcome is assigned at most once; COMPLETE implies takeoff and completion observed, Hold as last status, no divergence and a satisfied stable window; all recorded markers carry one value |
| `MissionRuns.PrefixSettles` | tools/runtime/external_mode_scenario.py:2011-2922 | once finished or waiting, the rest of the run sends nothing and assigns nothing; outcome and handover boundary are final |
| `MissionRuns.UnexpectedExitIsFinal` | tools/runtime/external_mode_scenario.py:2714-2867 | once takeoff was observed and an unexpected mode exit was latched, the rest of the run sends no vehicle command |
| `TernarySearch.Minimum` | tools/runtime/collision_geometry.py:42-50 | the search loop: the result is attained, and for a convex function with Lipschitz constant l at most l*(2/3)^72/2 above any value on the interval |
| `TernarySearch.KeepLeft` | tools/runtime/collision_geometry.py:46-47 | dropping the right third keeps every value on [0,1] matched or beaten |
| `TernarySearch.KeepRight` | tools/runtime/collision_geometry.py:48-49 | dropping the left third does too |
| `CollisionGeometry.RotateKeepsLength` | tools/runtime/collision_geometry.py:9-19 | the roll, pitch, yaw rotation keeps lengths |
| `CollisionGeometry.Support` | tools/runtime/collision_geometry.py:22-26 | every admissible weighting of the coordinate excesses bounds the distance from below |
| `CollisionGeometry.Attain` | tools/runtime/collision_geometry.py:22-26 | some admissible weighting attains it |
| `CollisionGeometry.BoxDistanceIsExact` | tools/runtime/collision_geometry.py:22-26 | positive exactly outside; no surface point is nearer than its size, and one is exactly as near if and only if no half extent is negative |
| `CollisionGeometry.BoxIsGentle` | tools/runtime/collision_geometry.py:22-26 | the box distance is convex and 1-Lipschitz |
| `CollisionGeometry.CylinderDistanceIsExact` | tools/runtime/collision_geometry.py:29-33 | the same for the cylinder, with radius and half height |
| `CollisionGeometry.CylinderIsGentle` | tools/runtime/collision_geometry.py:29-33 | the cylinder distance is convex and 1-Lipschitz |
| `CollisionGeometry.GentleSweep` | tools/runtime/collision_geometry.py:36-40 | along a segment such a distance is convex and Lipschitz with the segment length |
| `CollisionGeometry.SegmentMinSignedDistance` | tools/runtime/collision_geometry.py:36-50 | the result is attained on the segment and at most length*(2/3)^72/2 above the true minimum |
| `SmoothMotion.StepsAreDerivatives` | tools/runtime/closed_loop_characterization.py:47-55 | the four polynomials are a function and its first three derivatives, and the ramp polynomial is its integral, with a uniform quadratic remainder |
| `SmoothMotion.QuinticEnds` | tools/runtime/closed_loop_characterization.py:58-65 | quintic motion starts and ends at rest without acceleration where it should |
| `SmoothMotion.QuinticSpeed` | tools/runtime/closed_loop_characterization.py:58-65 | its speed never exceeds 1.875*|distance|/duration |
| `SmoothMotion.QuinticIsMotion` | tools/runtime/closed_loop_characterization.py:58-65 | velocity, acceleration and jerk are the derivatives of position, velocity and acceleration, throughout the motion |
| `ArcProfile.PhasesMeet` | tools/runtime/closed_loop_characterization.py:372-388 | the arc phases agree where they meet, in angle, rate, acceleration and jerk |
| `ArcProfile.ArcEnds` | tools/runtime/closed_loop_characterization.py:106-111 | an arc starts at angle 0 and ends at rest at the angle predicted by _arc_final_angle |
| `ArcProfile.UpIsMotion` | tools/runtime/closed_loop_characterization.py:372-378 | on the ramp up, rate, acceleration and jerk are the derivatives of angle, rate and acceleration |
| `ArcProfile.DownIsMotion` | tools/runtime/closed_loop_characterization.py:382-388 | on the ramp down as well |
| `ArcProfile.CircleSpeed` | tools/runtime/closed_loop_characterization.py:396-401 | the point stays on the circle and moves at right angles to its radius with rate times radius |
| `ArcProfile.CircleAcceleration` | tools/runtime/closed_loop_characterization.py:397-402 | centripetal and tangential acceleration |
| `ArcProfile.CircleJerk` | tools/runtime/closed_loop_characterization.py:397-403 | radial and tangential jerk |
| `ArcMotion.AngleIsMotion` | tools/runtime/closed_loop_characterization.py:372-388 | over the whole arc, rate, acceleration and jerk of the angle are the derivatives of angle, rate and acceleration |
| `ArcMotion.ArcIsMotion` | tools/runtime/closed_loop_characterization.py:372-403 | over the whole arc, across its three phases, velocity, acceleration and jerk are the derivatives of position, velocity and acceleration in both coordinates |
| `ReferenceMotion.CurveIsMotion` | tools/runtime/closed_loop_characterization.py:351-406 | every segment kind is a motion: velocity and acceleration are the derivatives of position and velocity in each coordinate |
| `ReferenceMotion.ReferenceIsMotion` | tools/runtime/closed_loop_characterization.py:305-406 | the looked-up reference of a regular profile, across all segments and up to any time before the end of LAND, has velocity and acceleration as the derivatives of position and velocity |
| `ArcProfile.SteadyIsExact` | tools/runtime/closed_loop_characterization.py:379-381 | the steady middle has exactly the requested speed |
| `ReferenceTrajectory.BuildSegments` | tools/runtime/closed_loop_characterization.py:202-226 | each segment starts when and where the legs before it end |
| `ReferenceTrajectory.FindSegment` | tools/runtime/closed_loop_characterization.py:305-309 | the first segment that has not ended, and the local time |
| `ReferenceTrajectory.StartsAtRest` | tools/runtime/closed_loop_characterization.py:351-406 | every segment starts at rest at its place, at the height its leg assumes |
| `ReferenceTrajectory.EndsAtRest` | tools/runtime/closed_loop_characterization.py:351-406 | every segment ends at rest where the next one is placed |
| `ReferenceTrajectory.BoundaryExactly` | tools/runtime/closed_loop_characterization.py:202-226 | position, velocity and acceleration agree across a boundary if and only if end and start heights agree |
| `ReferenceTrajectory.ReferenceFollowsCurve` | tools/runtime/closed_loop_characterization.py:305-406 | on the closed interval of a joining segment the looked-up reference is that segment's own curve |
| `ReferenceTrajectory.RegularProfileIsSmooth` | tools/runtime/closed_loop_characterization.py:180-226 | no jump up to and including the start of LAND; from LAND to DONE the reference jumps by two meters |
| `ReferenceTrajectory.ProfileLegs` | tools/runtime/closed_loop_characterization.py:181-201 | both profiles are of the regular shape |
| `ReferenceTrajectory.ArcTurnsAsRequested` | tools/runtime/closed_loop_characterization.py:192-197 | an arc turns through the requested angle if and only if the ramps alone do not exceed it |
| `Quaternions.NormalizedIsUnit` | tools/runtime/external_mode_scenario.py:105-115 | normalizing gives a unit quaternion or nothing |
| `Quaternions.ProductIsUnit` | tools/runtime/external_mode_scenario.py:118-130 | products and inverses of unit quaternions are unit quaternions |
| `Quaternions.UnitGivesRotation` | tools/runtime/external_mode_scenario.py:133-139 | the matrix of a unit quaternion is orthonormal in rows and columns with determinant 1 |
| `Quaternions.UnitPassesTest` | tools/runtime/evaluation.py:2198-2212 | so it passes the evaluator's test at any tolerance |
| `Quaternions.DirectionsUndoEachOther` | tools/runtime/evaluation.py:2215-2239 | the two directions of a transform undo each other, for positions and for free vectors |
| `Quaternions.TransformKeepsDistance` | tools/runtime/evaluation.py:2215-2239 | either direction keeps distances |
| `PoseHistories.SortFiltered` | tools/runtime/frame_witness.py:40-48 | sorting by stamp is stable: it commutes with dropping samples |
| `PoseHistories.BracketIs` | tools/runtime/frame_witness.py:52-55 | without an exact match the bracket is the last sample before and the first after the stamp |
| `FrameWitness.SlerpIsUnit` | tools/runtime/external_mode_scenario.py:146-173 | interpolated orientations are unit quaternions |
| `FrameWitness.InterpolatePositionInLoops` | tools/runtime/frame_witness.py:37-59 | the position query as its loops run it |
| `FrameWitness.PositionsAgree` | tools/runtime/external_mode_scenario.py:176-217 | both interpolations give the same position at a stamp, with and without the epoch filter, whenever the samples of the first are usable for the second |
| `FrameWitness.SameSamplesExactly` | tools/runtime/frame_witness.py:37-59 | both interpolations use the same samples if and only if the exact match, or both bracket ends, of the unfiltered history have a positive stamp and the epoch asked for |
| `FrameWitness.ZeroStampIsLost` | tools/runtime/external_mode_scenario.py:1090-1094 | a recorded stamp of zero: the pose query interpolates from it, the position query finds nothing |
| `FrameWitness.PositionExistsExactly` | tools/runtime/frame_witness.py:37-59 | a position is found if and only if usable samples lie at or before the stamp and at or after it |
| `FrameWitness.ErrorExistsExactly` | tools/runtime/frame_witness.py:88-150 | at its own reference stamp a witness yields a frame error if and only if both histories enclose the stamp with usable samples |
| `FrameWitness.NoErrorWithoutSamples` | tools/runtime/frame_witness.py:88-150 | histories and a localization state for which a witness is made and its own stamp has no frame error |
| `FrameWitness.WitnessIsRotation` | tools/runtime/external_mode_scenario.py:1318-1363 | the recorded rotation is exact and passes the consumers' tests |
| `FrameWitness.NoErrorAtReference` | tools/runtime/frame_witness.py:88-150 | at its own reference stamp the witness yields a frame error, and it is zero |
| `DiagnosticsJoin.IndexDiagnostics` | tools/runtime/command_diagnostics.py:27-42 | first diagnostic and disagreement per full identity, and one issue per incomplete identity |
| `DiagnosticsJoin.JoinExecutionDiagnostics` | tools/runtime/command_diagnostics.py:26-66 | in place: each command payload becomes its joined value, no other payload changes, and the issues in order; payload objects may be shared between events |
| `DiagnosticsJoin.ProtectedFieldsKept` | tools/runtime/command_diagnostics.py:12-23 | no protected control field is changed, added or removed |
| `DiagnosticsJoin.EnrichedExactly` | tools/runtime/command_diagnostics.py:43-65 | a command is enriched if and only if all diagnostics of its full identity are equal, there is one, and the stamps match; then exactly its unprotected fields are copied |
| `DiagnosticsJoin.JoinIgnoresOrder` | tools/runtime/command_diagnostics.py:26-66 | any order of the events gives the same payloads and the same issues equally often |
| `DiagnosticsRejoin.RejoinExactly` | tools/runtime/command_diagnostics.py:26-66 | for payloads shared in any way: a second run changes no payload and reports the same issues if and only if, for every command, its diagnostics disagree and still do with their marks, or agree and are written all or none or carry their marks already |
| `DiagnosticsRejoin.RejoinFreshExactly` | tools/runtime/command_diagnostics.py:26-66 | for diagnostics not marked before: if and only if, for every command, its diagnostics disagree, or all or none of them share a payload with a command |
| `DiagnosticsRejoin.JoinIsIdempotent` | tools/runtime/command_diagnostics.py:26-66 | with payloads of their own, joining twice is joining once, in payloads and in issues |
| `DiagnosticsRejoin.JoinTwice` | tools/runtime/command_diagnostics.py:26-66 | two runs in place: both if-and-only-ifs on the objects, met whenever no payload belongs to both a diagnostic and a command; with payloads of their own the objects then hold the joined values |
| `DiagnosticsRejoin.SharedPayloadConflicts` | tools/runtime/command_diagnostics.py:33-58 | two equal diagnostics, one sharing its payload with the command: the first run reports nothing, the second a conflict |
| `DiagnosticsRejoin.SharedPayloadRun` | tools/runtime/command_diagnostics.py:26-66 | the same on objects |

## Left out

- Numbers written as text are not parsed, non-finite floats do not occur in evidence rows, and magnitudes stay where an integer survives a round trip through a float.
- IEEE rounding: floats are reals throughout.
- Comparisons that raise TypeError in Python (`admission_goal_epoch` or snapshot versions against non-numbers) count as false, unhashable identity values do not occur, and equality of nested lists does not identify `True` with 1.
- The writer's worker only fails with the exceptions it catches (OSError, RuntimeError, ValueError); JSON text, file paths and UTF-8 encoding of lone surrogates are not modelled.
- A last category row that is text or a number instead of a dictionary is not distinguished from an unreadable row in the rebound total check.
- Whitespace in the coverage policy's texts means blank, tab, line feed or carriage return.
- LifecycleReduction.ReduceLifecycle: computes status, verdicts, the three sets of references and reasons; counts, conflict and unbound lists and per-transaction event lists are not computed.
- The world reduction's list of transactions is a map here: the order of its output and of missing kinds is left open, and the report fields that only copy counters are dropped.
- MissionScenario.Scenario.OnStatusMessage: takes the first advertised External Mode bit as an input instead of scanning the mask, and leaves out diagnostics (failsafe, RTL, Hold witness) and the exit request, which mission mode never sets.
- MissionScenario.Scenario.UpdateLocalizationWatchdog: takes the residuals as inputs instead of computing them, and leaves out residual statistics and the frame witness, which has its own module.
- MissionScenario.Scenario.FinishScenario: keeps the reported outcome only, not the summary, failure texts or exit code.
- MissionScenario.Scenario.constructor: starts from the fixed initial values; parsing the configuration is left out, and wall-clock readings are positive.
- Single-goal execution of the scenario: its configuration failure can finish and continue the same tick, so the command results are for mission mode.
- Setpoints streamed during a local takeoff are not vehicle commands and are not recorded in the history.
- FrameWitness.NoErrorAtReference: asks that the samples used at the reference stamp are usable for both queries; the scenario records stamps unguarded, so a zero stamp can occur, and FrameWitness.ErrorExistsExactly says when there is an error at all.
- ReferenceTrajectory.BuildSegments: for legs with positive durations and a non-zero arc radius; the code divides by them.
- ReferenceTrajectory.RegularProfileIsSmooth: does not call LAND to DONE continuous, because the code keeps the height offset.
- Evaluators built on these results (U1, U2, U4, planning, timing, motion quality, software qualification) and everything that renders, builds, packages or migrates.
