# Verified model of the task protocol

TokenShare runs a task as a graph of units. Its `ProtocolEngine` keeps no state of its own: every step
reads an append-only event ledger, decides, and appends events, singly or as one atomic batch. This
project models that engine, the rules it relies on, and two separate cores: the run lock and the
balanced range partition.

How the project is laid out:

- `Ledger` specifies the ledger (idempotent append, atomic batches); `EventLedgers` is the object that
  performs it in place.
- `Graphs`, `TaskGraphs`, `Expansion`, `Plans`, `Lifecycles`, `Snapshots`, `Scheduling`, `Projections`,
  `Verification`, `Batches`, `Merging`, `Contributions`, `Completions`, `Settlement`, `RootSettlement` and
  `Pruning` hold the rules. Loops of the source are methods with invariants, proved against
  specification functions; the lemmas say what those functions mean.
- `Steps` gives, for each protocol step, the ledger calls it makes on a given ledger (`...Writes`), and
  runs: a `Run` is the sequence of its steps with the ledger before each of them, and `IsRun` says that each
  ledger is the one before it after its step, whether or not the step raised. `Engine` is the engine
  object: each method leaves exactly the ledger its step specifies and succeeds exactly when the step does.
- `Runs`, `Races`, `Leasing`, `Retries`, `Moves`, `Provenance`, `Bindings`, `Payments`, `Ownership`, `Repeats`,
  `Crashes`, `Progress` and `Growth` prove the guarantees that span whole runs: for all ledgers reached by any of
  the modelled steps with any arguments, under the hypotheses each theorem names.
- `Scenario` follows one run from the empty ledger: a parent is expanded, a child and the merge task made from it
  become canonical, the parent's output is resolved. `DoublePayment` lets it go on and `Failures` lets it branch
  off; together they exhibit the inputs on which a guarantee fails.
- `RunLock` and `Partition` are two separate cores.

Where a guarantee does not hold for every caller, the project states exactly when it does, in most cases beside
an input on which it fails:

- an expansion's graph is refused, after its batch is on record, exactly when an edge names the empty output
  (`AppendedExpansionKeepsGraph`, `UnnamedOutputBreaksGraph`); colliding child ids are caught by the ledger
  (`CollidingChildrenAreRefused`, `DistinctKeysMayCollide`);
- a heartbeat on a lease the ledger has never seen gives a unit a second active lease exactly when the unit
  has one already (`HeartbeatKeepsSolo`, `UnseenHeartbeatDoublesLease`);
- a crash between the two appends of an accepted submission leaves its attempt open to an expiry exactly when
  the acceptance was new to the ledger; submitting again before the expiry closes it
  (`CrashLeavesRaceOpen`, `ResubmissionHeals`, `CrashThenExpiry`);
- a crash between the two appends of a canonical binding is not made up for by binding again, which finds the
  selection and stops, unless the attempt's event was on record before; the lost snapshot is never written, by
  whatever steps follow (`RebindDoesNotHeal`, `LostSnapshotStaysLost`), while a verification asked for again makes
  up for its crash (`ReverificationHeals`);
- a parent completion reopens a contribution exactly when one it is given has moved on from Pending in the
  ledger (`CompletionKeepsLines`); a contribution made up by the caller is then paid twice
  (`ForgedContributionIsPaidTwice`), one the ledger recorded at any time is not (`Ownership.PaidAtMostOnce`);
- the merge coordinator trusts the canonical events it is given: the link is backed by the ledger exactly when
  each of them commits to what the ledger holds at its position (`LinkIsGrounded`, `MadeUpInputIsLinked`);
- completing a unit keeps the graph live exactly when its outputs cover the dependencies that leave it
  (`TaskGraphs.CompletionKeepsLive`);
- a pruning asked again succeeds exactly with the first policy and time, and while nothing it cancelled has
  become canonical or settled, unlike a settlement, which replays at any time (`PruningAskedAgain`,
  `PruningAtAnotherTime`, `SettlementReplays`);
- two reclaimers between re-reading and removing a stale lock file can both end up holding the lock
  (`UnlinkKeepsOwners`, `TwoHolders`).

Modelling choices: idempotency keys and batch ids are structured values, one constructor for each
printed shape; digests are the digested values themselves; timestamps are strings read and printed by a
`Clock` parameter; an artifact saved and read back is the same value; an event's type, object and owning
task are fixed by its payload. `Err` stands for a raised ValueError. The phrase "eligible in-scope" means
of the root's task, Eligible, and credited no later than the root's completion.

## Model

| member | source | states |
|---|---|---|
| EventLedgers.EventLedger.Append | src/tokenshare/storage/events.py:167-238 | Appends one event, or finds the recorded one with the same key and payload; a key with another payload raises and changes nothing. |
| EventLedgers.EventLedger.AppendBatch | src/tokenshare/storage/events.py:240-298 | Appends all drafts of a batch or none: all keys recorded with matching batch fields returns them, a partly recorded batch, a repeated key or a taken batch id raises. |
| EventLedgers.EventLedger.BuildBatchEvents | src/tokenshare/storage/events.py:300-332 | Batch events get consecutive sequence numbers and the indexes 1..n of n. |
| Ledger.CommitKeepsWellFormed | src/tokenshare/storage/events.py:157-298 | Whatever a step appends, the ledger stays append-only with counted positions, unique keys and unbroken batches. |
| Ledger.CommitIdempotent | src/tokenshare/storage/events.py:184-282 | Repeating the ledger calls of a step that went through appends nothing and succeeds. |
| Steps.RunKeepsWellFormed | src/tokenshare/storage/events.py:157-298 | Every run of protocol steps, whatever its callers supply, keeps the ledger well formed and only extends it. |
| Graphs.CycleSearch.Visit | src/tokenshare/core/task_graph.py:111-121 | One visit either finishes the node and all it reaches, restoring the set being visited, or stops because the graph has a cycle; it terminates. |
| Graphs.IsAcyclic | src/tokenshare/core/task_graph.py:103-123 | The search over all nodes succeeds exactly on graphs without a cycle. |
| TaskGraphs.ValidateUnits | src/tokenshare/core/task_graph.py:69-81 | Accepts exactly the unit dicts with matching keys, one task and sizes and depths within the limits. |
| TaskGraphs.ValidateRelation | src/tokenshare/core/task_graph.py:83-101 | Accepts a relation exactly when its ends exist, a dependency is named and its target input is not bound yet. |
| TaskGraphs.BuildEdges | src/tokenshare/core/task_graph.py:24-48 | The constructor succeeds exactly on valid acyclic graphs and files every relation under both its ends. |
| TaskGraphs.DependenciesAreSatisfied | src/tokenshare/core/task_graph.py:125-135 | True exactly when every dependency entering the unit is supplied by its source's canonical outputs. |
| TaskGraphs.UnitsInState | src/tokenshare/core/task_graph.py:50-67 | The ready (or activatable) units, in dict order: those in the state whose dependencies are satisfied. |
| TaskGraphs.NoDeadlock | src/tokenshare/core/task_graph.py:50-67 | While no unit of a live graph is Processing and one is not Completed, some unit is ready or activatable. |
| TaskGraphs.CompletionKeepsLive | src/tokenshare/local_runtime/coordinator.py:2335-2353 | Completing a unit in Processing keeps the coordinator's graph live exactly when the outputs then filed for it cover the dependencies leaving it. |
| TaskGraphs.RoundsFinish | src/tokenshare/core/task_graph.py:50-67 | Rounds that make units Ready, take them up and complete them keep the graph live, are as many as there was work, and get stuck exactly when every unit is Completed. |
| Expansion.ValidateChildSpecs | src/tokenshare/core/expansion.py:704-736 | Accepts exactly specs with distinct non-empty keys, covered outputs, no authoritative payload keys and positive weight. |
| Expansion.CollectChildEdges | src/tokenshare/core/expansion.py:739-774 | Accepts exactly edges between children that name a declared output and feed each input once, and files them under their source. |
| Expansion.ValidateMergeSlots | src/tokenshare/core/expansion.py:796-816 | Accepts exactly required, blocking slots with distinct non-empty ids, each on a declared output of a child. |
| Expansion.ValidateExpectedOutputs | src/tokenshare/core/expansion.py:819-858 | Accepts exactly a non-empty list of distinctly named outputs, each taken from the parent, a child's declared output or a known merge slot. |
| Expansion.ValidateProposal | src/tokenshare/core/expansion.py:245-252 | The validators in turn succeed exactly when specs and edges hold, the child graph is acyclic, merge slots and expected outputs refer to it, and every promotion guard passed. |
| Expansion.BuildChildUnits | src/tokenshare/protocol_engine.py:3094-3147 | The loop builds the unit of each spec in order, or stops with the first error. |
| Expansion.ChildIdsCollide | src/tokenshare/protocol_engine.py:4770-4795 | Two children of one expansion get one unit id exactly when sanitizing makes their keys equal. |
| Expansion.DistinctKeysMayCollide | src/tokenshare/protocol_engine.py:4794-4795 | The sanitizer is not injective: the keys a-b and a_b give one unit id. |
| Expansion.ChildGraphAcyclic | src/tokenshare/protocol_engine.py:3175-3209 | With distinct ids, renaming keeps the child graph of an accepted proposal acyclic and closed. |
| Expansion.ExpansionKeepsGraph | src/tokenshare/protocol_engine.py:1107-1113 | After the document and limit checks, with new distinct ids, the expanded graph is accepted exactly when every edge names its source output. |
| Expansion.ReadyChildrenCanRun | src/tokenshare/core/expansion.py:455-483 | A child that starts Ready is ready in the expanded graph: no dependency holds it back. |
| Growth.AppendedExpansionKeepsGraph | src/tokenshare/protocol_engine.py:841-1122 | An expansion batch that was appended has distinct child ids; if they are new to the graph, it stays valid exactly when every edge names its source output. |
| Growth.CollidingChildrenAreRefused | src/tokenshare/protocol_engine.py:841-1122 | An expansion whose child keys sanitize to one id raises in the ledger and appends nothing. |
| Failures.UnnamedOutputBreaksGraph | src/tokenshare/protocol_engine.py:1107-1113 | A run from the empty ledger in which an expansion with fresh ids is appended and the graph built from it is then refused. |
| Progress.ReadinessIsActivation | src/tokenshare/protocol_engine.py:1333-1366 | On a valid current graph the engine makes a unit Ready exactly when it is activatable, and that is a round of the graph. |
| Progress.SchedulingIsStart | src/tokenshare/protocol_engine.py:1653-1719 | A unit the engine schedules is taken up by a round of the graph it is given. |
| Progress.CompletionIsFinish | src/tokenshare/protocol_engine.py:718-839 | A completion of a current unit is a round exactly when the canonical outputs cover the dependencies leaving it. |
| Progress.PerformedKeepsLive | src/tokenshare/local_runtime/coordinator.py:2335-2353 | The graph the coordinator keeps after such a step is live, a completed unit's exactly when its outputs cover. |
| Progress.PerformedIsRecorded | src/tokenshare/protocol_engine.py:1363-1397 | A round that changes the ledger leaves the unit there as it leaves it in the graph. |
| Progress.RunFinishes | src/tokenshare/core/task_graph.py:50-67 | In every run of such steps the graph changes at most as often as there was work, and a round is left exactly until every unit is Completed. |
| Progress.RetryingRunFinishes | src/tokenshare/core/recovery.py:132-142 | With failed attempts put back to Ready as well, the graph stays live and changes at most as often as the attempts its units have left allow. |
| Progress.StepIsLeft | src/tokenshare/protocol_engine.py:1639-1791 | A live unfinished graph without a unit in Processing and with a free capable client for each ready unit has an engine step that succeeds and makes a round: readiness or scheduling. |
| Progress.RunGoesOn | src/tokenshare/core/task_graph.py:50-67 | So a run of rounds and retries is never stuck while units are left and none of them is being worked on. |
| Moves.MoveSpends | src/tokenshare/core/state_machines.py:10-21 | Every legal state change lowers what a unit may still do: two changes for each attempt left, one for an attempt under way. |
| Moves.MovesBounded | src/tokenshare/core/recovery.py:132-142 | Over every run on latest snapshots, with failures, retries, expansions and prunings, a unit changes state at most 2 * max_retries + 4 times. |
| Moves.PlannedMovesBounded | src/tokenshare/experiments/cli.py:415-433 | So the planned units of a root together change state at most that often each. |
| Lifecycles.EvaluateRetry | src/tokenshare/core/recovery.py:118-142 | Every decision it makes passes the consistency check of retry decisions. |
| Lifecycles.HeartbeatOrExpire | src/tokenshare/core/leases.py:111-155 | For an Active lease with a live attempt exactly one of heartbeat and expiry is allowed at any time; expiry ends lease and attempt. |
| Lifecycles.HeartbeatRenews | src/tokenshare/core/leases.py:111-121 | After a heartbeat the lease can be renewed again exactly before now plus the ttl. |
| Snapshots.ArtifactRoundTrip | src/tokenshare/core/models.py:115-148 | A printed artifact reference is well shaped and reads back as itself. |
| Snapshots.AttemptRoundTrip | src/tokenshare/protocol_engine.py:2243-2290 | A printed attempt, artifact references included, can be read back exactly when its required fields are non-empty and its ordinal non-negative; it comes back with absent maps empty. |
| Snapshots.LeaseRoundTrip | src/tokenshare/protocol_engine.py:2293-2332 | A printed lease can be read back exactly when its required fields are non-empty and its counters non-negative; it comes back unchanged. |
| Snapshots.PrintNormalized | src/tokenshare/core/models.py:489-514 | Print, read, print gives the first snapshot again. |
| Snapshots.SnapshotsCompareAsObjects | src/tokenshare/core/models.py:489-514 | Two attempts have the same snapshot exactly when they differ at most in absent against empty maps. |
| Snapshots.LeaseSnapshotsCompareAsObjects | src/tokenshare/core/models.py:438-458 | Two leases have the same snapshot exactly when they are equal. |
| Scheduling.MatchedCapabilities | src/tokenshare/core/scheduling.py:115-126 | Returns the names of all requirements exactly when an available client meets every one. |
| Scheduling.SelectNext | src/tokenshare/core/scheduling.py:50-102 | The nested early-exit loops compute the selection that `SelectedIsLeast` describes. |
| Scheduling.SelectedIsLeast | src/tokenshare/core/scheduling.py:62-102 | The choice is an eligible pair, least by creation time and unit id, with the unit's first capable client; nothing is chosen exactly when no pair is eligible. |
| Projections.FindLatestAttempt | src/tokenshare/protocol_engine.py:2153-2166 | Scanning backwards finds the last recorded snapshot of the attempt. |
| Projections.FindLatestLease | src/tokenshare/protocol_engine.py:2169-2179 | Scanning backwards finds the last recorded snapshot of the lease. |
| Projections.FindAuthoritativeAttempt | src/tokenshare/protocol_engine.py:2349-2354 | The ledger's attempt when it has one it can read, else the caller's. |
| Projections.FindAuthoritativeLease | src/tokenshare/protocol_engine.py:2357-2362 | The ledger's lease when it has one it can read, else the caller's. |
| Projections.LatestLeases | src/tokenshare/protocol_engine.py:2132-2141 | The dict holds the last snapshot of every lease on record and of no other. |
| Projections.ActiveLeasesByUnit | src/tokenshare/protocol_engine.py:2131-2150 | Counts, for each unit, the leases whose last snapshot is Active; units without one are absent. |
| Verification.ValidatedIsSound | src/tokenshare/protocol_engine.py:2375-2433 | A report that passes is eligible exactly when its status passes and all six layers passed, and then covers its required outputs under a matching digest. |
| Verification.SelectFirstVerifiedBundle | src/tokenshare/core/verification.py:222-262 | Collecting and sorting the eligible reports computes the selection described by `SelectsEarliest`. |
| Verification.SelectsEarliest | src/tokenshare/core/verification.py:233-262 | With an eligible report presented, the selection commits to one no later than any other eligible one. |
| Verification.NothingToSelect | src/tokenshare/core/verification.py:241-242 | Without an eligible report selection raises. |
| Verification.CheckRecorded | src/tokenshare/protocol_engine.py:2450-2466 | Accepts the presented events exactly when each is the ledger's own verification event at its position. |
| Verification.FindCanonical | src/tokenshare/protocol_engine.py:2539-2547 | Finds the first canonical event of the unit. |
| Batches.OnlyWholeIsNumbered | src/tokenshare/protocol_engine.py:3545-3569 | Among the non-empty pieces of a batch, in any order, exactly the whole batch passes the size and index checks after sorting, which restores it. |
| Batches.OnlyWrittenOrderIsAccepted | src/tokenshare/core/contribution.py:628-645 | The contribution recogniser, which does not sort, accepts exactly the batch in written order. |
| Batches.OnlyWholeViewIsComplete | src/tokenshare/core/merge_coordinator.py:35-48 | A batch view is complete exactly when it holds the whole batch. |
| Batches.BatchStaysReadable | src/tokenshare/protocol_engine.py:3545-3553 | A batch is read back as written from every later well-formed ledger. |
| Merging.CollectCanonical | src/tokenshare/core/merge_coordinator.py:449-460 | Keeps the last canonical event presented for each unit. |
| Merging.BuildSlotBindings | src/tokenshare/core/merge_coordinator.py:236-294 | Succeeds exactly when every required slot, or exactly the selected children, can be bound to canonical outputs; the bindings are those of the wanted slots in order. |
| Merging.MergeUnitCanonicalFinds | src/tokenshare/protocol_engine.py:3298-3316 | The canonical event found is recorded, for the merge unit and selection, at the claimed position. |
| Merging.LinkOfPlanFinds | src/tokenshare/protocol_engine.py:3319-3334 | The link found is recorded, for the merge plan and link id. |
| Merging.TornResolutionIsSeen | src/tokenshare/protocol_engine.py:3545-3569 | The merge-resolution recogniser accepts a written batch exactly when all of it is there, in any order. |
| Completions.RecordedResolutions | src/tokenshare/protocol_engine.py:3639-3668 | The loop collects the resolutions of complete batches, or stops at a conflict. |
| Completions.RecordedAreCarried | src/tokenshare/protocol_engine.py:3639-3668 | Everything collected is carried by an event of a complete resolution batch. |
| Completions.ValidateResolutions | src/tokenshare/protocol_engine.py:3598-3636 | Accepts exactly when the supplied resolutions are one for each owned expected output, named like it and equal to the recorded one. |
| Completions.CollectEligible | src/tokenshare/protocol_engine.py:3671-3708 | Succeeds exactly on distinct pending expand contributions of the owner's decisions and makes each eligible, in id order. |
| Completions.FindCompletionConflict | src/tokenshare/protocol_engine.py:3572-3595 | Finds a conflict exactly when an earlier completion batch of the owner is torn or commits to other outputs. |
| Completions.TornCompletionIsSeen | src/tokenshare/protocol_engine.py:3817-3847 | The completion recogniser accepts a written batch exactly when all of it is there, in any order. |
| Contributions.ContributionOf | src/tokenshare/core/contribution.py:459-567 | A contribution created from a source batch has the kind asked for, that kind's initial state and an id that tells the kind. |
| Contributions.IdTellsKind | src/tokenshare/core/contribution.py:695-698 | Ids of contributions of different kinds differ. |
| Settlement.BuildSettlementEntries | src/tokenshare/core/contribution.py:381-439 | Filter, sort, floor and remainder loop compute the entries described by the lemmas below, with the same errors. |
| Settlement.RemainderIsSmall | src/tokenshare/core/contribution.py:411-416 | The remainder after all floors is at least 0 and smaller than the number of contributions. |
| Settlement.RewardsSumToBudget | src/tokenshare/core/contribution.py:411-424 | For any positive weights and any budget the rewards sum to the budget and each is the proportional floor or one more. |
| Settlement.EqualWeightReward | src/tokenshare/core/contribution.py:411-424 | With equal weights the i-th of n contributions in id order gets the floor of (budget + n - 1 - i) / n. |
| Settlement.EqualWeightsAreFair | src/tokenshare/core/contribution.py:411-424 | Equal-weight rewards differ by at most one, never favour a later id, and never fall when the budget grows. |
| Settlement.EntriesIgnoreOrder | src/tokenshare/core/contribution.py:400-408 | With ids that tell contributions apart the entries do not depend on the order of the input. |
| Settlement.ClientTotalsAddUp | src/tokenshare/protocol_engine.py:4240-4245 | The per-client totals of a settlement add up to all rewards. |
| RootSettlement.CollectInScope | src/tokenshare/protocol_engine.py:3850-3871 | The loop keeps one eligible in-scope contribution for each id, or stops at two different ones. |
| RootSettlement.CollectStates | src/tokenshare/protocol_engine.py:3914-3926 | The loop fills the contribution dict event by event. |
| RootSettlement.StatesAreLatest | src/tokenshare/protocol_engine.py:3914-3926 | The dict holds exactly the latest snapshot of each contribution, each once. |
| RootSettlement.RecordedIsSettling | src/tokenshare/protocol_engine.py:3895-3911 | What a settlement settles is exactly the ledger's eligible in-scope contributions, each once, in id order. |
| RootSettlement.WriterPassesReader | src/tokenshare/protocol_engine.py:3970-4093 | Every batch the writer emits passes the validator that reads settlements back, which returns its record. |
| RootSettlement.TornSettlementIsSeen | src/tokenshare/protocol_engine.py:3978-3994 | The settlement envelope check accepts a written batch exactly when all of it is there, in any order. |
| RootSettlement.SettlementIsFound | src/tokenshare/protocol_engine.py:3929-3967 | A recorded settlement is found, valid, in every later ledger. |
| RootSettlement.SettlementReplays | src/tokenshare/protocol_engine.py:1423-1459 | The same request with the same eligible snapshots, in any order and at any later time, succeeds without a ledger call. |
| Pruning.IsDescendant | src/tokenshare/protocol_engine.py:4459-4474 | The ancestor walk terminates even on cyclic parent links and is true exactly for units below the parent inside the candidate set. |
| Pruning.CollectUnits | src/tokenshare/protocol_engine.py:4449-4456 | The loop keeps one candidate for each id, or stops at two different ones. |
| Pruning.SelectCandidates | src/tokenshare/protocol_engine.py:4410-4446 | The loop computes the cancelled units and the preserved count described by `CandidatesAreComplete`. |
| Pruning.CandidatesAreComplete | src/tokenshare/protocol_engine.py:4425-4446 | Cancelled are exactly the unprotected Ready, Processing or Blocked descendants; with the preserved ones they are all descendants; every cancellation is a legal transition. |
| Pruning.PruningPassesReplay | src/tokenshare/protocol_engine.py:4580-4629 | Every pruning batch the writer emits passes its own replay validator. |
| Pruning.TornPruningIsSeen | src/tokenshare/protocol_engine.py:4586-4610 | The pruning envelope check accepts a written batch exactly when all of it is there, in any order. |
| Pruning.PruningRepeats | src/tokenshare/protocol_engine.py:4632-4641 | The same candidates asked again succeed, appending nothing, exactly when policy and time are the first ones and no unit cancelled then is canonical or settled now; otherwise the call raises. |
| Engine.ProtocolEngine.ScheduleReadyUnit | src/tokenshare/protocol_engine.py:1639-1791 | Reads active leases, selects, claims and appends the schedule batch with its scheduling decision: the new ledger is that of `ScheduleWrites`, success included. |
| Engine.ProtocolEngine.RecordLeaseHeartbeat | src/tokenshare/protocol_engine.py:1793-1825 | Renews the authoritative lease and appends its event, or raises, as `HeartbeatWrites` says. |
| Engine.ProtocolEngine.RecordSubmission | src/tokenshare/protocol_engine.py:322-423 | Judges the submission against the authoritative attempt and lease and appends one or two events as `SubmitWrites` says. |
| Engine.ProtocolEngine.RecordVerification | src/tokenshare/protocol_engine.py:425-536 | Validates the report and appends it, with the attempt's verdict unless it is an error. |
| Engine.ProtocolEngine.BindCanonicalOutputs | src/tokenshare/protocol_engine.py:538-667 | Binds the first verified bundle, returns an equal earlier commitment, or raises. |
| Engine.ProtocolEngine.RecordRecovery | src/tokenshare/protocol_engine.py:1827-2062 | Checks the decision and the latest snapshots and appends lease, attempt, recovery and unit in one batch. |
| Engine.ProtocolEngine.RecordCompleteDecision | src/tokenshare/protocol_engine.py:718-839 | Appends the decision and the completed unit in one batch. |
| Engine.ProtocolEngine.RecordExpandDecision | src/tokenshare/protocol_engine.py:841-1106 | Checks documents and limits and appends proposal, decision, plan, children, relations and marker in one batch. |
| Plans.ValidatePlan | src/tokenshare/core/expansion.py:586-630 | Accepts exactly plans with required, blocking slots under distinct non-empty keys and a non-empty mapping of distinctly named outputs, each merged from slots of the plan. |
| Engine.ProtocolEngine.CreateReadyMergeTask | src/tokenshare/core/merge_coordinator.py:95-162 | For one plan event: takes the view of the event's batch, validates the plan, binds its slots and appends the merge unit and its link in one batch. |
| Engine.ProtocolEngine.CreateReadyMergeTasks | src/tokenshare/core/merge_coordinator.py:74-164 | Does so for each plan event in turn, passing over other events, until one raises. |
| Engine.ProtocolEngine.ResolutionIsValid | src/tokenshare/protocol_engine.py:3261-3453 | Accepts exactly the record and resolutions that match the ledger's canonical event, link and bundle. |
| Engine.ProtocolEngine.RecordMergeResolution | src/tokenshare/protocol_engine.py:1126-1168 | Appends the merge record and its resolutions in one batch once they are valid. |
| Engine.ProtocolEngine.RecordParentCompletion | src/tokenshare/protocol_engine.py:1170-1236 | Appends the completed owner and its eligible contributions in one batch once every output is resolved. |
| Engine.ProtocolEngine.RecordParentFailure | src/tokenshare/protocol_engine.py:1238-1321 | Fails a parent on the recorded failure of a direct child. |
| Engine.ProtocolEngine.RecordDependencyReady | src/tokenshare/protocol_engine.py:1323-1398 | Moves an activatable unit to Ready. |
| Engine.ProtocolEngine.RecordContributions | src/tokenshare/core/contribution.py:104-157 | The ledger read once, one contribution for each source batch in turn until one raises: the same ledger as that of the steps made one by one. |
| Engine.ProtocolEngine.RecordContribution | src/tokenshare/core/contribution.py:160-204 | Appends the contribution a complete source batch earns. |
| Contributions.ReadOnceIsEnough | src/tokenshare/core/contribution.py:104-157 | What a batch earns does not depend on contributions appended since the ledger was read. |
| Engine.ProtocolEngine.FindSettlement | src/tokenshare/protocol_engine.py:3929-3967 | Finds and validates the recorded settlement of a root, or raises. |
| Engine.ProtocolEngine.RecordRootSettlement | src/tokenshare/protocol_engine.py:1400-1553 | Returns an equal recorded settlement, or settles all eligible contributions in one batch. |
| Engine.ProtocolEngine.FindPruning | src/tokenshare/protocol_engine.py:4543-4577 | Finds and validates the recorded pruning of a completion, or raises. |
| Engine.ProtocolEngine.RecordSubtreePruning | src/tokenshare/protocol_engine.py:1555-1637 | Returns an equal recorded pruning, or cancels the candidates in one batch. |
| Runs.RunIsKeyed | src/tokenshare/protocol_engine.py:1662-1790 | In every run each event stands under an idempotency key that names its object and change. |
| Races.RaceSafety | src/tokenshare/protocol_engine.py:332-423 | Over every run with fresh attempt ids, an attempt has at most one accepted submission and never both an accepted submission and a lease expiry. |
| Races.CrashLeavesRaceOpen | src/tokenshare/protocol_engine.py:357-409 | A crash between the two appends of an accepted submission breaks this exactly when the acceptance was new to the ledger. |
| Races.ResubmissionHeals | src/tokenshare/protocol_engine.py:332-423 | Submitting again after such a crash leaves the ledger as if there had been none. |
| Failures.CrashThenExpiry | src/tokenshare/protocol_engine.py:357-409 | A submission in time, the crash and an expiry after the deadline, from the empty ledger and under any configuration: two outcomes of one attempt. |
| Crashes.ReverificationHeals | src/tokenshare/protocol_engine.py:425-536 | A verification asked for again after a crash between its appends leaves the ledger as if there had been none. |
| Crashes.RebindDoesNotHeal | src/tokenshare/protocol_engine.py:569-583 | A binding asked for again after a crash between its appends writes nothing; the ledger is the undisturbed one exactly when the attempt's event had its key on record before. |
| Crashes.LostSnapshotStaysLost | src/tokenshare/protocol_engine.py:592-661 | No later run records the attempt snapshot lost in that crash, unless another unit's selection id is printed alike. |
| Races.RejectionChangesNothing | src/tokenshare/protocol_engine.py:380-388 | A rejected submission leaves every attempt, lease and unit projection unchanged. |
| Races.AuthoritativeIsLatest | src/tokenshare/protocol_engine.py:1868-1876 | In every run a lease and attempt taken from the ledger pass recovery's latest-snapshot comparison. |
| Leasing.ScheduledIsFree | src/tokenshare/protocol_engine.py:1653-1668 | Without a caller's map and shadow execution the unit picked has no active lease in the ledger. |
| Leasing.HeartbeatKeepsSolo | src/tokenshare/protocol_engine.py:1800-1804 | A heartbeat keeps one active lease per unit exactly when its lease is on record or its unit has no active lease. |
| Leasing.OneActiveLease | src/tokenshare/protocol_engine.py:1653-1679 | Over every such run, with heartbeats for leases on record or for units without an active one, no unit has two active leases. |
| Failures.UnseenHeartbeatDoublesLease | src/tokenshare/protocol_engine.py:1800-1804 | A run of two heartbeats from the empty ledger that gives a unit two active leases. |
| Retries.RetryVerdict | src/tokenshare/protocol_engine.py:1921-1927 | A recovered unit goes back to Ready exactly while its last ordinal is below max_retries, and fails otherwise. |
| Retries.RetryBound | src/tokenshare/core/leases.py:52-63 | Over every run on latest snapshots a unit's attempts are numbered 0, 1, 2, ... and are at most max_retries + 1. |
| Retries.AttemptsWithinCap | src/tokenshare/experiments/cli.py:415-433 | The attempts of a root's planned units never exceed its cap: four each when a worker is killed and at most three retries are set, one each without requeueing when nothing is recovered, else max_retries + 1 each. |
| Retries.FailedIsPermanent | src/tokenshare/core/state_machines.py:10-21 | A failed unit keeps its snapshot for the rest of every such run. |
| Provenance.SelectedIsTraced | src/tokenshare/protocol_engine.py:554-568 | A selection from recorded events commits to the ledger's own eligible report at its position. |
| Provenance.CompletedParentProvenance | src/tokenshare/protocol_engine.py:3261-3316 | In every run each output of a completed parent traces back through a complete merge batch, its record and the merge unit's canonical selection to a report with six passed layers and the same digest. |
| Bindings.LinkIsGrounded | src/tokenshare/core/merge_coordinator.py:236-294 | The link of a merge task is backed by the ledger exactly when each event presented for a slot commits to the same output as the ledger's event at its position. |
| Bindings.RecordedAreOwn | src/tokenshare/core/merge_coordinator.py:449-460 | Presenting the ledger's own canonical events is enough for that. |
| Bindings.MergeInputProvenance | src/tokenshare/core/merge_coordinator.py:236-294 | In every run of such merge tasks the chain behind a completed parent's output goes on, through each input of the merge, to the child's canonical event and a report with six passed layers carrying that artifact. |
| Failures.MadeUpInputIsLinked | src/tokenshare/core/merge_coordinator.py:74-164 | A run from the empty ledger in which a merge task, asked for before its child is bound, records a link to a canonical event the ledger does not hold. |
| Scenario.MergeTaskIsIssued | src/tokenshare/core/merge_coordinator.py:92-164 | The merge request of these runs is the one the coordinator's own loop issues for the plan event on record. |
| Provenance.CanonicalOnce | src/tokenshare/protocol_engine.py:601-609 | A unit has at most one canonical event. |
| Provenance.RebindIsStable | src/tokenshare/protocol_engine.py:569-583 | Re-binding recorded events returns the recorded commitment exactly when the earliest eligible one presented is the one selected; it appends nothing, else it raises. |
| Repeats.RebindingReturns | src/tokenshare/protocol_engine.py:554-583 | In every run, binding a unit again with the events presented first and any recorded since returns the first commitment and appends nothing. |
| Provenance.CanonicalIsPermanent | src/tokenshare/protocol_engine.py:2539-2547 | A canonical commitment made in a run is the one every later run finds. |
| Payments.CreatedOnce | src/tokenshare/core/contribution.py:160-204 | A contribution on record is never created a second time. |
| Payments.CompletionKeepsLines | src/tokenshare/protocol_engine.py:3671-3708 | An appended parent completion keeps every contribution's states in the order Pending, Eligible, Settled exactly when each one supplied is unknown to the ledger or pending there. |
| Payments.LateCreationReopens | src/tokenshare/core/contribution.py:160-204 | Creating a contribution that has states already breaks the order unless it was only Pending and becomes Eligible: why the run invariant also asks that states start with a creation. |
| Payments.CompletionKeepsCredits | src/tokenshare/protocol_engine.py:3671-3708 | An appended parent completion keeps every contribution both created and in order exactly when each one supplied is pending in the ledger. |
| Payments.SuppliedIdIsNotChecked | src/tokenshare/protocol_engine.py:3686-3700 | The engine accepts the same completion under any contribution id. |
| Ownership.CompletedOnce | src/tokenshare/protocol_engine.py:3572-3595 | Once a completion of an owner is on record no request appends another, whatever it supplies. |
| Ownership.ParentCompletedOnce | src/tokenshare/protocol_engine.py:1170-1236 | In every run a parent whose completion was appended is never completed again. |
| Ownership.PaidAtMostOnce | src/tokenshare/protocol_engine.py:1170-1553 | Over every run in which parent completions are given contributions as the ledger recorded them at some time, however stale, a contribution's states follow Pending, Eligible, Settled, each at most once. |
| DoublePayment.ForgedContributionIsPaidTwice | src/tokenshare/protocol_engine.py:3671-3708 | A run of fourteen steps from the empty ledger, with one made-up contribution and otherwise the ledger's own events, in which a contribution is settled twice and paid both times. |
| Payments.MoneyIsConserved | src/tokenshare/protocol_engine.py:1484-1545 | Over every run all rewards paid add up to the budgets of the settled roots. |
| Payments.SettlementIsPermanent | src/tokenshare/protocol_engine.py:1423-1459 | In every run an appended settlement is found at any later time and repeating it appends nothing. |
| Repeats.PruningAskedAgain | src/tokenshare/protocol_engine.py:1555-1637 | In every run a pruning asked again at any later point succeeds, appending nothing, exactly when policy and time are the first ones and no unit cancelled then has since become canonical or settled. |
| Failures.PruningAtAnotherTime | src/tokenshare/protocol_engine.py:4632-4641 | A run from the empty ledger that prunes below the parent it has completed: asked again, the pruning is answered at the same time and refused at any other. |
| RunLock.Lock.RemoveStale | src/tokenshare/experiments/cli.py:553-565 | Removes the file exactly when it still carries the stale token of a dead owner. |
| RunLock.Lock.Enter | src/tokenshare/experiments/cli.py:513-527 | Undisturbed, takes the lock exactly when it is free or stale, and otherwise changes nothing. |
| RunLock.Lock.Exit | src/tokenshare/experiments/cli.py:529-540 | Removes the file only while it carries this lock's token. |
| RunLock.UnlinkKeepsOwners | src/tokenshare/experiments/cli.py:553-565 | A reclaimer's unlink keeps every live owner's file exactly when no live process owns the file. |
| RunLock.OneReclaimerIsClean | src/tokenshare/experiments/cli.py:553-565 | With one reclaimer at a time every unlink removes the stale file it rechecked. |
| RunLock.MutualExclusion | src/tokenshare/experiments/cli.py:506-565 | Over all interleavings with one reclaimer at a time, or with clean unlinks, two live processes never both hold the lock. |
| RunLock.TwoHolders | src/tokenshare/experiments/cli.py:553-565 | A run with two reclaimers in the recheck window in which both end up holding the lock. |
| Partition.PartitionRanges | src/tokenshare/experiments/factorization_exp1_analysis.py:294-314 | Succeeds exactly when the count fits, with that many adjacent non-empty ranges over the interval, wider ones first, widths at most one apart. |
| Partition.CoveredOnce | src/tokenshare/experiments/factorization_exp1_analysis.py:294-314 | Each integer of the interval lies in exactly one range and no other integer lies in any. |

## Left out

- Printed keys and ids: keys and batch ids are compared as structures, so collisions between printed keys with separators inside an id are not modelled; the sanitized child ids are.
- Races.RaceSafety: a crash between the two appends of a submission is no step of a run; `Races.CrashLeavesRaceOpen` says exactly when it matters.
- Crashes inside one ledger call: a torn batch is considered as input to the recognisers, not produced by the ledger. Crashes between the two calls of a step are no steps of a run; `Races` and `Crashes` say what they leave.
- Steps.EveryStepRuns: runs are made of the seventeen modelled steps only; registry snapshots, split invocations and execution requests are no part of them.
- The hash chain, file format, fsync and reload of the ledger, JSON text, sha256 and ISO timestamps; a malformed timestamp does not raise here.
- Correlation, causation and actor fields of the event envelope beyond what keys use; a parent completion without a supplied cause names its own first event, which is not stated as causation.
- Required-field, schema-version, header, descriptor and invocation checks: each is settled by reading one branch; `documentsOk` and `policyDeclared` stand for them in the steps.
- Expansion.ValidateProposal: leaves out required-field lists, schema references, the header and plugin payloads: field checks with no deep invariant.
- Plans.ValidatePlan: leaves out the header, schema references, recording and validation requirements and the plugin payload, likewise.
- Engine.ProtocolEngine.RecordCompleteDecision: takes the document, descriptor and invocation checks as one answer of the caller.
- Lifecycles.TransitionAttempt: does not model `superseded_by_attempt_id`, which no engine step sets.
- Lifecycles.Claim: does not model the legacy path without a unit snapshot and the binding digest.
- Scheduling.MatchedCapabilities: the status is lower-cased as ASCII, which decides the comparison with "active" like Unicode does: no other character lower-cases to one of its letters.
- Snapshots.ReadArtifact: a field that is not text, or a size that is not a number, is malformed here; the source keeps the former and converts the latter.
- Engine.ProtocolEngine.RecordExpandDecision: takes the same checks as one answer of the caller and stops after the batch; whether the graph built next is accepted is what `Growth.AppendedExpansionKeepsGraph` states.
- Engine.ProtocolEngine.RecordSubtreePruning: takes the policy descriptor checks as one answer of the caller.
- Engine.ProtocolEngine.CreateReadyMergeTask: trusts the canonical events it is given, as the source does; `Bindings.LinkIsGrounded` states what follows. The artifact store is not modelled, so a bundle staged by a run that crashed before its batch does not conflict with one staged later; once the batch is on record the ledger's keys refuse another.
- Progress.RunFinishes: counts runs without failures, retries or expansions; `Progress.RetryingRunFinishes` adds retries, and `Moves.MovesBounded` bounds every unit's changes in all runs. A unit that has failed for good leaves the units behind it Blocked, so no graph with one is live.
- RunLock.MutualExclusion: a process is identified with its lock object, so pid reuse is not modelled; a file a crashed process left unwritten stays unreadable, as in the source.
- Registry snapshots, split-strategy invocations and execution requests: single appends that no modelled step reads back.
- `assign_input_scale_groups`, `nullable_sum` and the other row helpers of the analysis module: no deep invariant.
- Provider transport, subprocesses, worker backends, the run coordinator and the user interface: input and output.
