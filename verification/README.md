# Soma: verified model of jobs, RFC tickets, commands, host and migrations

A Dafny model of the stateful core of the service-operations back end, with proofs that hold over every run. SQL
tables are maps and sequences; a unit of work is one serialised step that commits or leaves everything as it was.

Each area has three layers: steps on values that say what one unit of work does (`JobSteps`, `RfcForest`,
`RfcCascade`, `RfcArchive`, `CommandSteps`, `HostLifecycle`, `InstanceLock`, `Migrations`, `SourcePresence`,
`SrProjection`), classes whose methods do the same in place and are proved to take exactly that step, and lemmas
about every run of the steps. Beside them the `*Effects` modules, `RfcCascadeAdmission` and `SrAcceptance` say exactly
when each operation goes through and what it then leaves, without naming the steps.

- **Durable jobs** (`Job*`): claims, checkpoints, retries, cancellation, crash recovery and restore, under any
  interleaving of coordinators and any clock. The ledger keeps the history of claims issued as a ghost table, which
  is what the attempt history is compared with.
- **RFC hierarchy and links** (`RfcForest*`, `RfcSiblings`, `RfcServices`): one forest invariant across the hierarchy, relationship,
  Customer and import services, with optimistic concurrency and reviewed commands.
- **Terminal cascade** (`RfcCascade*`): status authority, terminal epochs, proposal chains, and execution on an
  unchanged scope, interleaved with every hierarchy, archive and restore command.
- **Archive log** (`RfcArchive*`): events, members and archive state agree over every run.
- **Commands** (`Command*`, `UnitOfWork`, `Connections`, `StrictJson*`): exactly-once execution and exact replay when
  any statement may fail, down to admission, connections and canonical JSON.
- **Host** (`HostLifecycle`, `HostSafety`, `HostRuntime`, `HostRuns`, `InstanceLock`): ownership of the data instance
  through start, quiesce, shutdown and failed cleanup, over POSIX record locks.
- **Migrations** (`Migration*`): the database is always the manifest's statements executed up to its ledger.
- **Smaller algorithms**: `SourcePresence`, `SrProjection*`, `SrAcceptance`, `SlaEndpoint`.

## Assumptions

- `new_uuid4` never repeats. Identities are numbers ordered like their canonical texts. Row identities that collide
  with a primary key are modelled as a refused step; epochs carry freshness as a hypothesis.
- A SHA-256 fingerprint is identified with the value it covers, so it is injective.
- Callbacks, evidence providers, policies and participants are arbitrary pure functions; a raise is `None`.
- The clock is an arbitrary natural at every step. Closing a connection does not raise.
- Calls of `start`, `shutdown` and `retry_failed_cleanup` on one host come from one lifecycle thread.
- No uniqueness constraint of the database is assumed beyond primary keys: uniqueness is proved from the code.

## What the proofs found

- A material command whose result type is literally "NO_CHANGE" replays with the no-change flag set
  (`ReplayKeepsNoChange` gives the exact condition, `MaterialNoChangeExists` an instance).
- Two subordinates of one root can come to have different known Customers, by an add or a reparent (`RunAgrees` gives
  the exact condition, `SiblingsMayDiffer` and `ReparentMakesSiblingsDiffer` the instances).
- Two threads releasing one `DataInstanceLock` can unregister a lock acquired in between, after which a second lock can
  be held on the same file; an acquisition that cannot identify a descriptor it opened on a held file drops that file's
  lock (`SoundIffAllSafe`, `DoubleReleaseSharesFile`, `UnidentifiedLosesLock`).
- A registry publication that raises after its rename leaves the file published when the lock is released
  (`PublishedWithoutLockIff`, `LateFailureReachable`). Every other ownership property holds even then.
- A worker that shut the gate of one run and marks the host QUIESCING only in the next makes a shutdown skip its own
  quiesce and drain with the gate open (`ShutdownDrains` gives the exact condition, `LateQuiescerOpensDrain` a run).
- A host can report READY with its write gate shut, exactly when a worker's quiesce shuts it after `start` reopened it
  (`ReadyIsOpenIff`, `ReadyMayBeShut`).
- An accepted equal value does not refresh its chronology, so the projection is not last-writer-wins
  (`EqualValueKeepsChronology`, `NewerEqualValueIgnored`).
- From the terminal endpoint on everything is Resolved or Closed only if no other status occurs in the stretch.

## Model

The results come first. The rows of members inside a class, at the end, connect them to the code: each such method does
its statements in place and is proved to take exactly one step that the results are about.

| member | source | states |
|---|---|---|
| `JobGuarantees.AttemptHistoryIsImageOfClaims` | src/soma/foundation/jobs/coordinator.py:205-501 | over every run the recorded ordinals of a job are exactly 1..attempt count, minus the last while it runs; each is recorded once, with the run id and start time of the claim issued for it; claim fields are set iff running, a retry time iff in retry wait |
| `JobGuarantees.AttemptsNeverOverlap` | src/soma/foundation/jobs/coordinator.py:340-406 | over every run each attempt of a job finishes at or before the next one starts |
| `JobRetry.RetryNeverEarly` | src/soma/foundation/jobs/coordinator.py:205-305 | a failure deferred until a time: whatever runs in between, the next attempt of the job starts no earlier |
| `JobRetry.RunWaitsOut` | src/soma/foundation/jobs/coordinator.py:205-242 | a waiting job keeps its retry time until it ends or is claimed at that time or later |
| `JobGuarantees.UpdatedNeverDecreases` | src/soma/foundation/jobs/coordinator.py:1089-1094 | `updated_at` never decreases although clocks may regress, and completed, failed and cancelled rows never change again |
| `JobGuarantees.HolderIsLatest` | src/soma/foundation/jobs/coordinator.py:772-813 | a claim that passes revalidation is the most recent one issued for its job and its ordinal has no recorded end |
| `JobGuarantees.RevokedForever` | src/soma/foundation/jobs/coordinator.py:772-813 | a claim that has once stopped matching never matches again in any later state |
| `JobGuarantees.EndedOnce` | src/soma/foundation/jobs/coordinator.py:340-760 | completing, failing, cancelling, restoring or recovering ends the claim at once and for good: a second end reports a claim conflict |
| `JobGuarantees.EndRevokes` | src/soma/foundation/jobs/coordinator.py:340-760 | the step that ends an attempt, either recovery included, leaves its claim without a match |
| `JobGuarantees.LegacyRowsMayRun` | src/soma/foundation/jobs/coordinator.py:541-585 | a row from before dedupe identities may be running in a sound database, and recovering it records one interruption and revokes its claim |
| `JobGuarantees.UniqueWorkAlways` | src/soma/foundation/jobs/coordinator.py:133-203 | over every run at most one job per type, version and dedupe hash is in its contract's coalesce states |
| `JobGuarantees.EnqueuesCoalesce` | src/soma/foundation/jobs/coordinator.py:133-203 | two enqueues with one key return the same job for as long as the first remains coalescible, whatever ran in between |
| `JobGuarantees.EnqueueKeepsUniqueWork` | src/soma/foundation/jobs/coordinator.py:160-203 | an enqueue keeps work unique and never finds several matching jobs |
| `JobGuarantees.DatabaseNeverCorrupts` | src/soma/foundation/jobs/coordinator.py:503-760 | from an empty database under one registry the integrity failures are unreachable, except a regressed clock, a wrong job type from the caller or a misbehaving crash policy |
| `JobGuarantees.CorruptionUnreachable` | src/soma/foundation/jobs/coordinator.py:995-1072 | on a sound database no genuine step meets "already has terminal history", "conflicting attempt history" or "multiple durable jobs match" |
| `JobGuarantees.RunStaysSound` | src/soma/foundation/jobs/coordinator.py:121-760 | attempt history, persisted identities and unique work hold after every run under one registry |
| `JobHistory.RunMoves` | src/soma/foundation/jobs/coordinator.py:121-760 | every interleaving of coordinators keeps the row, claim and history invariants and only moves the ledger forward |
| `JobHistory.ClaimMoves` | src/soma/foundation/jobs/coordinator.py:205-305 | a claim is a fresh ordinal on the first due row, never before its retry time, and the row then carries exactly that claim |
| `JobHistory.NextDueIsFirst` | src/soma/foundation/jobs/coordinator.py:212-242 | the selected row is the least due row in the order of the claim query |
| `JobHistory.RecoverStaleMoves` | src/soma/foundation/jobs/coordinator.py:610-694 | recovering one foreign running row interrupts it exactly once, moves it to the decided state, and touches no other row |
| `JobHistory.SettleAllMoves` | src/soma/foundation/jobs/coordinator.py:701-760 | the restore loop cancels every listed row, interrupts exactly the running ones and touches nothing else |
| `JobHistory.RestoreAccounts` | src/soma/foundation/jobs/coordinator.py:701-760 | restore leaves no live job; examined plus unchanged terminal is all jobs; interrupted is the number that were running; terminal rows are untouched |
| `JobRecovery.RecoverBalances` | src/soma/foundation/jobs/coordinator.py:503-699 | even with arbitrary steps interleaved between its units of work, examined = queued + retry_wait + waiting_review + failed + skipped |
| `JobRecovery.SweepBalances` | src/soma/foundation/jobs/coordinator.py:503-699 | one recovery phase counts each listed row exactly once under interference |
| `JobRecovery.RecoverSettles` | src/soma/foundation/jobs/coordinator.py:503-699 | without interference a normal return leaves no live legacy row and no job running under a foreign run, and recorded exactly the interruptions it counted |
| `JobRecovery.SecondRecoveryExaminesNothing` | src/soma/foundation/jobs/coordinator.py:503-699 | a second recovery by the same run examines nothing and changes nothing |
| `JobEffects.CompleteDoes` | src/soma/foundation/jobs/coordinator.py:340-365 | a completion goes through exactly for a claim still held, and leaves the row completed without run, start, retry time or error, updated now, with exactly one attempt recorded as completed now; all else unchanged |
| `JobEffects.FailDoes` | src/soma/foundation/jobs/coordinator.py:367-406 | a failure goes through exactly for a held claim, a well-formed code, a retry time not past and an allowing policy; the row then waits for the retry time, or has failed, with the code, and the attempt is recorded as failed now |
| `JobEffects.CancelDoes` | src/soma/foundation/jobs/coordinator.py:408-501 | a cancellation goes through exactly for its own job type, policy and clock; a live row ends cancelled with its last error and a running attempt recorded, a settled one stays as it is |
| `JobEffects.CheckpointDoes` | src/soma/foundation/jobs/coordinator.py:307-338 | a checkpoint stores exactly the given value and time in the row of a held claim, and nothing else |
| `JobEffects.EnqueueDoes` | src/soma/foundation/jobs/coordinator.py:133-203 | an enqueue names a coalescible job of the same identity, or inserts exactly one queued job with the payload and identity given; it is invalid exactly for an unknown type, refused payload or wrong key |
| `JobEffects.ClaimDoes` | src/soma/foundation/jobs/coordinator.py:205-305 | a claim hands out the identity, payload and checkpoint of the due row, which then runs exactly under it; a due row no contract can run fails |
| `JobEffects.ClaimsIff` | src/soma/foundation/jobs/coordinator.py:205-305 | the due row is claimed or failed exactly unless it does not read back or the clock has gone back |
| `JobEffects.NextDueOrder` | src/soma/foundation/jobs/coordinator.py:212-242 | work without a retry time goes first, then the earlier retry time, the earlier creation, the smaller identity |
| `JobEffects.RecoverLegacyDoes` | src/soma/foundation/jobs/coordinator.py:524-585 | a live legacy row ends failed with the legacy code and its running attempt interrupted; any other row is skipped |
| `JobEffects.RecoverStaleDoes` | src/soma/foundation/jobs/coordinator.py:586-694 | a row of another run goes exactly where its crash policy decided, with its attempt interrupted, or fails without a contract; nothing else changes |
| `JobEffects.RestoreDoes` | src/soma/foundation/jobs/coordinator.py:701-760 | a restore cancels exactly the live rows with the restore code and records exactly the interruptions of the running ones, in order |
| `JobEffects.SweepCounts` | src/soma/foundation/jobs/coordinator.py:503-699 | under any interference each count of a recovery phase is the number of listed rows with that verdict |
| `JobTypes.BuildRegistry` | src/soma/foundation/jobs/coordinator.py:60-109 | the registry is exactly the given contracts, and refuses an invalid or repeated one |
| `RfcForestSafety.RunKeeps` | src/soma/tickets/rfc_hierarchy.py:163-446 | over every run of all hierarchy, link, Customer and import services: one parent per child, two levels, Customers agree per edge, links only on roots, one active link per pair, RFC numbers unique; rows and revisions never go back |
| `RfcForestSafety.SetCustomerKeeps` | src/soma/tickets/rfcs.py:206-252 | the branch check before a Customer change is enough for every edge of the changed RFC |
| `RfcForestSafety.AddKeeps` | src/soma/tickets/rfc_hierarchy.py:163-227 | adding a subordinate keeps the forest |
| `RfcForestSafety.ReparentKeeps` | src/soma/tickets/rfc_hierarchy.py:304-341 | reparenting keeps the forest |
| `RfcForestSafety.DetachKeeps` | src/soma/tickets/rfc_hierarchy.py:416-446 | detaching keeps the forest |
| `RfcForestSafety.LinkKeeps` | src/soma/tickets/relationships.py:506-555 | linking a Service Request keeps links on roots and single per pair |
| `RfcForestSafety.UnlinkKeeps` | src/soma/tickets/relationships.py:615-660 | unlinking keeps the forest |
| `RfcForestSafety.ImportLinkKeeps` | src/soma/tickets/rfc_import_mutations.py:568-607 | linking from an import review keeps links on governing roots |
| `RfcForestSafety.ImportCustomerKeeps` | src/soma/tickets/rfc_import_mutations.py:288-353 | an imported Customer keeps per-edge agreement |
| `RfcForestSafety.CreateKeeps` | src/soma/tickets/rfcs.py:114-150 | creating or adopting an identity keeps RFC numbers unique |
| `RfcForestGuarantees.ChainsHaveTwoLevels` | src/soma/tickets/rfc_hierarchy.py:163-227 | over every run no upward path has a third RFC, so the hierarchy has no cycle |
| `RfcForestGuarantees.GoverningRootSound` | src/soma/tickets/rfc_import_reader.py:123-183 | the governing root is never reported corrupt, is the RFC itself or its one parent, is its own root, and its link state is readable |
| `RfcForestGuarantees.ViewSound` | src/soma/tickets/queries/rfc_branches.py:205-260 | a parentless RFC's branch fingerprint never meets a Customer mismatch |
| `RfcForestGuarantees.AddAttaches` | src/soma/tickets/rfc_hierarchy.py:163-270 | add attaches exactly the named child under the named parent and never meets corruption |
| `RfcForestGuarantees.ReparentMoves` | src/soma/tickets/rfc_hierarchy.py:304-385 | reparent moves exactly the named child to exactly the named root, bumping exactly its three participants |
| `RfcForestGuarantees.DetachDetaches` | src/soma/tickets/rfc_hierarchy.py:416-488 | detach removes exactly the named child's parent |
| `RfcForestGuarantees.DetachUndoesAdd` | src/soma/tickets/rfc_hierarchy.py:131-488 | detaching what was attached restores the whole parent relation |
| `RfcForestGuarantees.ReparentBackRestores` | src/soma/tickets/rfc_hierarchy.py:272-385 | moving a child away and back restores the whole parent relation |
| `RfcForestGuarantees.StaleCommandsChangeNothing` | src/soma/tickets/rfc_hierarchy.py:121-129 | a command prepared against a superseded revision of a participating RFC changes nothing, however much ran in between |
| `RfcForestGuarantees.ReviewedReparentUnchanged` | src/soma/tickets/queries/relationship_previews.py:233-350 | a reparent accepted under a review sees exactly the reviewed edge, branches and history, and the review had no blocker |
| `RfcForestGuarantees.ReviewedLinkUnchanged` | src/soma/tickets/rfc_import_mutations.py:384-607 | a link accepted from an import review sees exactly the reviewed Service Request, root, branch and lifecycle |
| `RfcForestGuarantees.UnlinkUndoesLink` | src/soma/tickets/relationships.py:480-695 | unlinking what was linked restores every pair |
| `RfcForestEffects.SetCustomerDoes` | src/soma/tickets/rfcs.py:206-256 | a Customer change is applied exactly at the expected revision to another, active Customer with which every known one of the branch agrees; it leaves exactly that RFC with exactly that Customer at the next revision |
| `RfcForestEffects.ImportCustomerDoes` | src/soma/tickets/rfc_import_mutations.py:288-353 | an imported Customer likewise, exactly against the reviewed base |
| `RfcForestEffects.CustomerTokenPins` | src/soma/tickets/rfc_import_mutations.py:233-286 | equal base tokens of a Customer proposal mean the same RFC, organization and branch with its Customers and revisions |
| `RfcForestEffects.LinkDoes` | src/soma/tickets/relationships.py:480-589 | a link is made exactly to a root of one Customer at the expected revisions where there is none; a terminal ticket needs a review, and a review must have seen the present state; exactly the pair is added and both revisions rise |
| `RfcForestEffects.UnlinkDoes` | src/soma/tickets/relationships.py:593-660 | an unlink removes exactly the pair, at the expected revisions, from a root |
| `RfcForestEffects.ImportLinkDoes` | src/soma/tickets/rfc_import_mutations.py:568-607 | an imported link joins the request to the governing root of the named RFC |
| `RfcForestEffects.CreateDoes` | src/soma/tickets/rfcs.py:114-150 | an unknown number creates exactly one RFC of an active Customer at revision 1; a known one is adopted as it is |
| `RfcForestEffects.ImportIdentityDoes` | src/soma/tickets/rfc_import_mutations.py:151-204 | an import creates an unassigned RFC exactly when the number is still free, as it was reviewed |
| `RfcForestEffects.AddAppliedIff` | src/soma/tickets/rfc_hierarchy.py:163-227 | an add is applied exactly for an unattached child that may join, at exactly the current revisions |
| `RfcForestEffects.ReparentAppliedIff` | src/soma/tickets/rfc_hierarchy.py:88-341 | a reparent is applied exactly for an attached child that may join elsewhere, at exactly the current revisions, when the history is known, and under a review of the present state if the history is at risk |
| `RfcForestEffects.DetachAppliedIff` | src/soma/tickets/rfc_hierarchy.py:387-446 | a detach is applied exactly for an attached child, at exactly the current revisions, under the same rule for reviews |
| `RfcForestEffects.ViewPins` | src/soma/tickets/queries/rfc_branches.py:205-260 | equal branch views mean the same members, revisions, Customers, archive states and edges |
| `RfcSiblings.RunAgrees` | src/soma/tickets/rfc_hierarchy.py:163-446 | over every run of all services siblings agree throughout exactly if every child an applied add or reparent attaches has no known Customer other than those of the subordinates it joins |
| `RfcSiblings.StepAgrees` | src/soma/tickets/rfc_hierarchy.py:163-446 | siblings that agree still agree after a command exactly if a child it attached fits there; detaching, linking, Customer changes and imports always keep agreement |
| `RfcSiblings.SiblingAgreementAfterAdd` | src/soma/tickets/rfc_hierarchy.py:204-212 | after an add the siblings still agree exactly when no known sibling Customer differs from that of the child: agreement between siblings is not an invariant |
| `RfcSiblings.SiblingAgreementAfterReparent` | src/soma/tickets/rfc_hierarchy.py:304-341 | after a reparent likewise, for the subordinates of the new parent |
| `RfcSiblings.SiblingsMayDiffer` | src/soma/tickets/rfc_hierarchy.py:204-212 | a branch whose two subordinates come to have different Customers by an add |
| `RfcSiblings.ReparentMakesSiblingsDiffer` | src/soma/tickets/rfc_hierarchy.py:304-341 | and one where a reparent does it |
| `RfcCascadeSafety.RunMoves` | src/soma/tickets/rfc_source_projection.py:216-380 | over every run of acceptance, refresh, execution, hierarchy changes, archives and restores: epochs, proposal chains, stored scopes and archive log stay sound, settled proposals never change, no RFC revision comes back |
| `RfcCascadeGuarantees.EpochIffTerminal` | src/soma/tickets/rfc_source_projection.py:289-337 | an RFC has a terminal epoch exactly while its status is terminal, and every epoch has a captured proposal |
| `RfcCascadeGuarantees.OnePendingPerRfc` | src/soma/tickets/_rfc_terminal_cascade_state.py:492-510 | at most one proposal per RFC is pending and it belongs to the current epoch |
| `RfcCascadeGuarantees.EpochIsOneChain` | src/soma/tickets/_rfc_terminal_cascade_state.py:708-861 | the proposals of one epoch form one refresh chain: every older one was superseded by the command that created the next; at most one is ever executed |
| `RfcCascadeGuarantees.EnhancedForever` | src/soma/tickets/rfc_source_projection.py:263-274 | Enhanced RFC authority is never replaced by provisional authority |
| `RfcCascadeGuarantees.ReversalNeedsReview` | src/soma/tickets/rfc_source_projection.py:314-332 | only a reviewed acceptance takes a status out of the terminal classes |
| `RfcCascadeGuarantees.ExecutesOnlyUnchanged` | src/soma/tickets/_rfc_terminal_cascade_execution.py:234-265 | a successful execution saw exactly the captured status, evidence, epoch, branch with revisions, and WFM set |
| `RfcCascadeEffects.ExecuteDoes` | src/soma/tickets/_rfc_terminal_cascade_execution.py:225-382 | an execution goes through exactly for a pending proposal at the reviewed revision whose captured scope is the current one, with both participants ready, the preview and the deliberate-action proof valid and the effects applied; it marks exactly that proposal executed |
| `RfcCascadeEffects.MissingConsentRefused` | src/soma/tickets/_rfc_terminal_cascade_execution.py:248-353 | with the scope current each missing consent is refused with its own error, in order, and changes nothing |
| `RfcCascadeEffects.RefreshDoes` | src/soma/tickets/_rfc_terminal_cascade_state.py:708-861 | a refresh leaves a proposal with the current scope alone; otherwise it supersedes it and appends a pending one with the status, evidence and scope now current |
| `RfcCascadeEffects.ApplyDoes` | src/soma/tickets/rfc_source_projection.py:216-420 | an acceptance has only well-shaped valid deltas of different fields; it writes each value unless a provisional status meets an Enhanced one, keeps every other fact, turns the epoch and the proposals as the status demands, and reports exactly the fields changed |
| `RfcCascadeAdmission.AcceptanceSucceeds` | src/soma/tickets/rfc_source_projection.py:216-380 | well-formed deltas that open no terminal epoch go through, except an unreviewed reversal |
| `RfcCascadeAdmission.UnreviewedReversalRefused` | src/soma/tickets/rfc_source_projection.py:316-335 | an unreviewed reversal of a terminal status is refused as such |
| `RfcCascadeAdmission.OpeningSucceedsIff` | src/soma/tickets/rfc_source_projection.py:302-380 | a newly terminal status goes through exactly when a capture participant is there and the scope can be captured |
| `RfcCascadeAdmission.RefreshSucceedsIff` | src/soma/tickets/_rfc_terminal_cascade_state.py:708-861 | a pending proposal is refreshed exactly when its scope can be captured |
| `RfcCascadeAdmission.ProvisionalDoes` | src/soma/tickets/rfc_wfm_provisional.py:85-140 | provisional eligibility is accepted exactly for an active RFC in the reviewed state whose status may still be set, and then is its status without an epoch |
| `RfcCascadeAdmission.ProvisionalTokenPins` | src/soma/tickets/rfc_wfm_provisional.py:49-83 | equal base tokens mean the same archive state and accepted status with its evidence |
| `RfcCascadeAdmission.CaptureCoversBranch` | src/soma/tickets/_rfc_terminal_cascade_state.py:318-383 | a subordinate is captured alone, any other RFC with exactly its subordinates, each at its revision and in its role |
| `RfcCascadeAdmission.CapturedTasksOrdered` | src/soma/tickets/_rfc_terminal_cascade_state.py:385-444 | the stored Tasks are in the order of their RFCs and identities |
| `RfcCascadeGuarantees.ChangedMemberBlocksExecution` | src/soma/tickets/_rfc_terminal_cascade_execution.py:248-265 | once a captured RFC has a newer revision, by hierarchy, link, Customer, import, archive or restore, the execution is blocked whatever runs in between |
| `RfcCascadeGuarantees.StaleCommandsChangeNothing` | src/soma/tickets/rfc_hierarchy.py:121-129 | over runs of all services together, a hierarchy, link or Customer command against a superseded revision changes nothing |
| `RfcCascadeGuarantees.ArchiveStateAlwaysLogged` | src/soma/tickets/rfc_archive.py:276-467 | over runs of all services together an RFC is archived iff its last archive event says so |
| `RfcCascadeGuarantees.SettledOnce` | src/soma/tickets/_rfc_terminal_cascade_execution.py:354-382 | an executed or superseded proposal is never executed or refreshed again |
| `RfcCascadeGuarantees.AcceptMeans` | src/soma/tickets/rfc_source_projection.py:242-287 | the delta loop accepts exactly well-shaped, valid deltas of different fields and changes exactly what they choose |
| `RfcCascadeGuarantees.DeltaOrderIrrelevant` | src/soma/tickets/rfc_source_projection.py:216-426 | the order of the deltas of one command does not matter |
| `RfcCascadeScope.NormalizeOrderInsensitive` | src/soma/tickets/_rfc_terminal_cascade_state.py:385-444 | WFM normalisation does not depend on the order of the participant's answer |
| `RfcCascadeScope.NormalizeIdempotent` | src/soma/tickets/_rfc_terminal_cascade_state.py:385-444 | what is stored normalises to itself and keeps exactly the raw members |
| `RfcCascadeScope.CaptureOrderInsensitive` | src/soma/tickets/_rfc_terminal_cascade_state.py:446-490 | the captured scope and its fingerprint do not depend on the participant's order |
| `RfcCascadeScope.CapturedSnapshotOk` | src/soma/tickets/queries/rfc_terminal_cascade.py:885-986 | every captured proposal passes every check made when its members are read back |
| `RfcCascadeScope.CaptureRfcsSound` | src/soma/tickets/_rfc_terminal_cascade_state.py:318-382 | reading the branch scope never reports corruption in a sound hierarchy |
| `RfcCascadeSafety.RefreshMoves` | src/soma/tickets/_rfc_terminal_cascade_state.py:727-830 | a refresh adds one link to its chain and keeps everything else |
| `RfcCascadeSafety.ExecuteMoves` | src/soma/tickets/_rfc_terminal_cascade_execution.py:227-382 | execution settles one pending proposal, touches nothing else and finds no corruption |
| `RfcCascadeSafety.ApplyDeltasMoves` | src/soma/tickets/rfc_source_projection.py:216-380 | an acceptance keeps the invariants, changes only its own RFC's projection, keeps the epoch while terminal |
| `RfcCascadeSafety.ProvisionalMoves` | src/soma/tickets/rfc_wfm_provisional.py:85-151 | provisional eligibility never touches a terminal or Enhanced RFC status, and never returns no change |
| `RfcCascadeServices.NormalizeWfmMembers` | src/soma/tickets/_rfc_terminal_cascade_state.py:385-444 | the member loop over seen sets computes exactly the specified normalisation |
| `RfcArchive.LogAgreesWithState` | src/soma/tickets/rfc_archive.py:276-336 | over every run the events of an RFC alternate from archived at strictly increasing revisions; it is archived iff its last event is; member rows are exactly the RFCs the archived events name |
| `RfcArchive.LatestIsLast` | src/soma/tickets/queries/rfc_archive.py:719-745 | the event joined on by greatest revision is the last appended one |
| `RfcArchive.ArchiveDoes` | src/soma/tickets/rfc_archive.py:225-350 | an archive goes through exactly for the scope as reviewed, changes something exactly if a member is active, and then exactly the active members |
| `RfcArchive.ScopeCovers` | src/soma/tickets/queries/rfc_archive.py:300-414 | the scope is the RFC alone, or a parentless RFC with exactly its subordinates, each as it stands |
| `RfcArchive.ArchiveKeeps` | src/soma/tickets/rfc_archive.py:230-336 | an archive with a fresh operation identity turns over exactly the active members of the reviewed scope and never fails midway |
| `RfcArchive.RestoreKeeps` | src/soma/tickets/rfc_archive.py:395-467 | a restore turns over exactly the RFCs its operation still holds archived and never fails midway |
| `RfcArchive.RestoreUndoesArchive` | src/soma/tickets/rfc_archive.py:208-504 | restoring an operation right after it gives every RFC its former archive state |
| `CommandGuarantees.CallIsAtomic` | src/soma/foundation/application/command_boundary.py:274-353 | a call leaves the database untouched or commits one execution together: receipt of the request, exact result, exactly the emitted audit events, the tables its callbacks left composed in order, and the canonical form of its response |
| `CommandGuarantees.AtMostOneEffect` | src/soma/foundation/application/command_boundary.py:274-353 | over every sequence of calls that may fail anywhere, each command commits at most one effect |
| `CommandGuarantees.CommittedForever` | src/soma/foundation/application/command_receipts.py:30-105 | a committed command keeps its receipt, its result and exactly its own audit events |
| `CommandGuarantees.ReplayIsExact` | src/soma/foundation/application/command_boundary.py:281-296 | every matching replay returns the first call's result identity, schema, version and decoded response and changes nothing, even if the first caller saw an error |
| `CommandGuarantees.ReplayKeepsNoChange` | src/soma/foundation/application/command_boundary.py:292 | the replayed no-change flag is the first one exactly when the command is not material with result type "NO_CHANGE" |
| `CommandGuarantees.MaterialNoChangeExists` | src/soma/foundation/application/command_boundary.py:292 | such a command commits an effect and replays as no change |
| `CommandGuarantees.MismatchChangesNothing` | src/soma/foundation/application/command_boundary.py:260-272 | a mismatching reuse of a command identity is refused and changes nothing |
| `CommandGuarantees.ResultAlwaysAvailable` | src/soma/foundation/application/command_boundary.py:284-287 | the missing-result and integrity failures of a replay are unreachable |
| `CommandGuarantees.ProperCallSucceeds` | src/soma/foundation/application/command_boundary.py:274-353 | a new command whose callbacks return, whose events can be written and whose response fits its bounds is executed |
| `CommandGuarantees.CommitEnds` | src/soma/foundation/application/command_boundary.py:274-353 | a transaction that reached its COMMIT is kept and answered, not kept, or kept although an error is reported |
| `CommandGuarantees.ErrorsKeepNothing` | src/soma/foundation/application/command_boundary.py:274-353 | a call that reports an error has kept nothing, except one whose COMMIT took effect and then raised |
| `CommandGuarantees.MatchesIffSameRequest` | src/soma/foundation/application/command_boundary.py:260-272 | an envelope matches the receipt of a committed call exactly if it makes the same request |
| `CommandGuarantees.MalformedRefused` | src/soma/foundation/application/command_boundary.py:86-119 | a malformed envelope never reaches the database |
| `CommandGuarantees.IncoherentRefused` | src/soma/foundation/application/command_boundary.py:120-149 | an incoherent preparation is refused with nothing kept |
| `CommandGuarantees.DecodesIff` | src/soma/foundation/application/command_boundary.py:228-258 | a stored result decodes exactly if its digest is that of its text and the text canonical within the bounds of its schema |
| `CommandGuarantees.BoundsAllocated` | src/soma/foundation/application/command_boundary.py:193-203 | the response bounds of each schema and version |
| `CommandGuarantees.EncodeDecodes` | src/soma/foundation/application/command_boundary.py:205-258 | a stored response decodes to the value the first caller got |
| `CommandGuarantees.EncodeTotal` | src/soma/foundation/application/command_boundary.py:205-226 | encoding fails exactly when a response bound is exceeded |
| `CommandGuarantees.TransactCommits` | src/soma/foundation/application/command_boundary.py:274-353 | a transaction that reaches its COMMIT replayed without a trace or performed one whole execution of its callbacks |
| `StrictJsonRoundTrip.CanonicalTextsOnly` | src/soma/foundation/strict_json.py:136-156 | the canonical loader accepts only the dump of a proper value within the byte, depth and item bounds |
| `StrictJsonRoundTrip.DumpLoads` | src/soma/foundation/strict_json.py:77-156 | a dump within the bounds loads back as the canonical form of its value, and only then |
| `StrictJsonRoundTrip.DumpInjective` | src/soma/foundation/strict_json.py:77-92 | values with one canonical text are equal up to member order |
| `StrictJsonRoundTrip.ParsePrinted` | src/soma/foundation/strict_json.py:58-88 | parsing what was printed gives the value back |
| `StrictJsonRoundTrip.ParsedProper` | src/soma/foundation/strict_json.py:15-22 | a loaded value never has a repeated key |
| `StrictJsonRoundTrip.CanonicalSound` | src/soma/foundation/strict_json.py:77-88 | sorting keys is idempotent and keeps depth and item counts |
| `StrictJson.Measure` | src/soma/foundation/strict_json.py:95-115 | the worklist computes exactly the recursive depth, collection items and string bytes |
| `Connections.CountersAgree` | src/soma/foundation/persistence/connections.py:97-190 | over every interleaving of tracked connections the counters are the numbers of open and in-transaction connections and never underflow |
| `HostSafety.LiveImpliesLocked` | src/soma/foundation/runtime/host.py:293-709 | for any interleaving, whatever raises, a live server, executor, security run, flagged registry or active writer implies the lock is held; an open gate implies lock and verified schema |
| `HostSafety.RunKeeps` | src/soma/foundation/runtime/host.py:293-709 | the ownership invariant holds over every interleaving, whatever raises |
| `HostSafety.PublishedWithoutLockIff` | src/soma/foundation/runtime/host.py:350-363 | over every run without the lock a registry file exists iff the last publication that took effect raised after its rename; a cleanup that has come to its report leaves such a file without the lock iff besides it retained nothing |
| `HostSafety.ReopenMeetsNoWriter` | src/soma/foundation/runtime/host.py:326-329 | reopening the gate never meets an active writer, even after failed starts and retried cleanups |
| `HostSafety.DrainedUntilReopened` | src/soma/foundation/persistence/connections.py:63-84 | a shut gate without writers stays so until it is reopened; ShutdownDrains says when a shutdown gets there |
| `HostEffects.ShutdownShuts` | src/soma/foundation/runtime/host.py:465-495 | an accepted shutdown of a listening host refuses new writers and tasks at once and begins to drain; a refused call changes nothing |
| `HostEffects.QuiescerShuts` | src/soma/foundation/runtime/host.py:465-479 | a quiesce of a worker shuts the gate and then both executors |
| `HostEffects.ShutdownDrains` | src/soma/foundation/runtime/host.py:484-535 | over every run a shutdown past its writers drain has a shut gate and no writer until a reopening, unless its call found the host marked QUIESCING with the gate open and nobody shut it before the drain; exactly then the drain leaves the gate open |
| `HostEffects.PunctualShutdownDrains` | src/soma/foundation/runtime/host.py:465-535 | without a worker that marks the host QUIESCING after its gate was reopened every shutdown drains behind a shut gate |
| `HostEffects.ReadyOwnsAll` | src/soma/foundation/runtime/host.py:293-374 | a start that returns in READY owns executors, socket, security run, server and registry |
| `HostEffects.RaisingStartUnwinds` | src/soma/foundation/runtime/host.py:364-374 | a statement of a start that raises marks the host failed, shuts the gate and begins the cleanup |
| `HostEffects.CleanupGivesUp` | src/soma/foundation/runtime/host.py:568-709 | each cleanup statement gives up exactly its own resource and only if it does not fail; executors refuse work either way |
| `HostEffects.CleanupRemembers` | src/soma/foundation/runtime/host.py:568-709 | every cleanup failure is remembered, and retains what comes after exactly as ruled |
| `HostEffects.ReopeningNeedsNoWriter` | src/soma/foundation/runtime/host.py:326-329 | the gate is reopened exactly if no writer is active, else the start fails |
| `HostEffects.StartBegins` | src/soma/foundation/runtime/host.py:293-300 | a start is taken up exactly by a stopped host, or a failed one that owns nothing |
| `HostSafety.CleanReportMeansFree` | src/soma/foundation/runtime/host.py:568-709 | a cleanup that reports no failure has left nothing behind, except a registry file whose publication raised late |
| `HostRuns.LateFailureReachable` | src/soma/foundation/runtime/host.py:350-363 | a run that leaves the registry file published without the lock |
| `HostSafety.ReadyIsOpenIff` | src/soma/foundation/runtime/host.py:326-371 | for every run of a start from the reopening of the gate to its return in READY, the gate is open at return iff no quiescer shut it after it was reopened |
| `HostRuns.ReadyMayBeShut` | src/soma/foundation/runtime/host.py:364-371 | a run whose start returns READY with the gate shut |
| `HostRuns.LateQuiescerOpensDrain` | src/soma/foundation/runtime/host.py:465-500 | a run in which a writer enters after the writers drain of a shutdown has been reported |
| `HostRuntime.AfterIsRun` | src/soma/foundation/runtime/host.py:293-709 | a call of the runtime, statement by statement with other threads in between, is a run of the lifecycle state machine |
| `HostRuntime.CallKeepsOwnership` | src/soma/foundation/runtime/host.py:293-709 | a call that starts from an owned host ends in one, whatever raises and whatever others do in between |
| `InstanceLock.HeldUntilReleased` | src/soma/foundation/runtime/instance_lock.py:88-203 | under any interleaving of threads acquiring and releasing in two steps, over safe steps every held lock keeps its OS lock on its own descriptor until its own release, whatever is re-linked |
| `InstanceLock.SoundIffAllSafe` | src/soma/foundation/runtime/instance_lock.py:88-203 | over every run the held locks, the registered sets and the OS locks agree throughout iff every step is safe: no unidentified descriptor of a held file is closed, and no overtaken release meets a lock on its path or file |
| `InstanceLock.HeldLocksApart` | src/soma/foundation/runtime/instance_lock.py:100-174 | held locks are on different files and deferred handles exist only for held files |
| `InstanceLock.AcquireDoes` | src/soma/foundation/runtime/instance_lock.py:88-174 | an acquisition succeeds exactly for a path naming one file at both looks that this process does not hold and the operating system grants, and then holds exactly it |
| `InstanceLock.AcquireSafeIff` | src/soma/foundation/runtime/instance_lock.py:142-174 | an acquisition keeps every held lock iff it does not close an unidentified descriptor of a held file |
| `InstanceLock.OvertakenReleaseSafeIff` | src/soma/foundation/runtime/instance_lock.py:184-203 | a release whose handle a concurrent release took is safe iff no other held lock shares its path or file |
| `InstanceLock.UnidentifiedLosesLock` | src/soma/foundation/runtime/instance_lock.py:142-174 | a run in which a held lock loses its OS lock |
| `InstanceLock.DoubleReleaseSharesFile` | src/soma/foundation/runtime/instance_lock.py:184-203 | a run in which two threads release one lock and two locks come to be held on one file |
| `InstanceLock.ReleaseBodyKeeps` | src/soma/foundation/runtime/instance_lock.py:188-203 | a release drops its own lock and no other |
| `MigrationGuarantees.RunsRefineManifest` | src/soma/foundation/migrations/runner.py:114-231 | over any number of runs that may abort anywhere, with growing manifests, the ledger is a prefix of the manifest and the schema is the fold of its statements in order |
| `MigrationGuarantees.RunOnce` | src/soma/foundation/migrations/runner.py:114-207 | a normal return means the whole manifest applied once and verified; the canonical file first appears only like that; a non-prefix ledger is rejected unchanged |
| `MigrationGuarantees.AbortsLeaveNoTrace` | src/soma/foundation/migrations/runner.py:184-207 | a successful run after any aborted ones has exactly the schema of one clean run |
| `MigrationGuarantees.PrefixIffReconciles` | src/soma/foundation/migrations/runner.py:222-231 | reconciliation accepts exactly the prefixes of the manifest |
| `MigrationEffects.CalmRunIff` | src/soma/foundation/migrations/runner.py:114-207 | a run nothing cuts short succeeds exactly for an owned instance, a valid manifest, a prefix ledger and a script of all its statements that executes and verifies; it leaves exactly that schema |
| `MigrationEffects.FoldIsScript` | src/soma/foundation/migrations/runner.py:184-207 | the schema of a ledger is the one script of its texts executed once on an empty schema |
| `MigrationEffects.DisturbedRunFails` | src/soma/foundation/migrations/runner.py:114-207 | a run in which anything it goes through fails does not return normally, and a clean one leaves no file before it is verified and in place |
| `MigrationText.ContainsSqlToken` | src/soma/foundation/migrations/runner.py:21-80 | the scan finds exactly what its state machine specifies |
| `MigrationText.FindsIffSqlLexeme` | src/soma/foundation/migrations/runner.py:21-80 | the scan finds SQL iff some lexeme outside comments, quotes, blanks and semicolons exists |
| `MigrationGrammar.FindsIffSql` | src/soma/foundation/migrations/runner.py:21-80 | the scan finds SQL exactly in the texts that are not just comments, quoted texts, blanks and semicolons, the last perhaps unfinished, as an independent grammar describes them |
| `MigrationText.LexConserves` | src/soma/foundation/migrations/runner.py:21-80 | the lexemes make up the whole text |
| `MigrationText.IterMigrationStatements` | src/soma/foundation/migrations/runner.py:83-93 | the line loop yields exactly the specified statements or reports an unfinished tail |
| `MigrationText.ChunksConserve` | src/soma/foundation/migrations/runner.py:83-93 | no character is lost: the complete chunks and the tail make up the text |
| `MigrationText.OnlyEmptyChunksSkipped` | src/soma/foundation/migrations/runner.py:83-93 | every chunk with SQL is yielded once and in order |
| `SourcePresence.RunKeeps` | src/soma/tickets/sr_source_presence.py:251-338 | over every run the events of each request form one linear chain, alternating from disappearance |
| `SourcePresence.HeadIsLast` | src/soma/tickets/sr_source_presence.py:103-121 | the anti-join head exists iff the request has events, is unique, and is the last appended event |
| `SourcePresence.WarningIffLastDisappeared` | src/soma/tickets/sr_source_presence.py:121-144 | the warning is active iff the last event is a disappearance, and the head read never reports corruption |
| `SourcePresence.DisappearDoes` | src/soma/tickets/sr_source_presence.py:251-295 | a disappearance is appended exactly for a present request under its current base and valid evidence, naming its last event |
| `SourcePresence.ReappearDoes` | src/soma/tickets/sr_source_presence.py:297-338 | a reappearance is appended exactly for a missing request, naming its last disappearance |
| `SrProjectionGuarantees.ProjectionSound` | src/soma/tickets/sr_source_projection.py:215-328 | every pointer names an observation of the same request, field and kind; the revision is the number of material applications |
| `SrProjectionGuarantees.ChangesAreJustified` | src/soma/tickets/sr_source_projection.py:164-188 | a chronology-based change strictly increases chronology; terminal statuses change and a positive suspension drops to zero only by reviewed correction |
| `SrAcceptance.AcceptedDeltaSettles` | src/soma/tickets/sr_source_projection.py:215-328 | in an accepted call each field ends at a new observation made from its delta iff there was none or the value differs; else it stays where it was |
| `SrAcceptance.UnnamedFieldStays` | src/soma/tickets/sr_source_projection.py:215-328 | a field no delta names keeps its pointer |
| `SrAcceptance.AcceptedIff` | src/soma/tickets/sr_source_projection.py:98-328 | a call is accepted exactly for an officially identified request and well-shaped valid deltas of different fields, each reviewed, unchanged, first, or strictly newer and no protected fall |
| `SrAcceptance.OutcomeReports` | src/soma/tickets/sr_source_projection.py:300-328 | the answer gives the revision now and exactly the identities of the observations inserted |
| `SrAcceptance.EqualValueKeepsChronology` | src/soma/tickets/sr_source_projection.py:253-254 | after an accepted call a field carries the chronology of its delta iff the delta was material or equal in chronology too: not last-writer-wins |
| `SrAcceptance.NewerEqualValueIgnored` | src/soma/tickets/sr_source_projection.py:253-254 | a state in which a later equal value is accepted and the older chronology stands |
| `SrAcceptance.CurrentReadable` | src/soma/tickets/sr_source_projection.py:138-161 | on sound tables reading a field never reports a missing observation, finds one iff the field has one, and it is of that request, field and kind |
| `SlaEndpoint.TerminalEndpoint` | src/soma/tickets/service_request_sla_input.py:125-163 | the two loops find the least Resolved or Closed observation nothing interrupts up to the current status, or there is none |
| `SlaEndpoint.AbsentIffInterruptedNow` | src/soma/tickets/service_request_sla_input.py:145-160 | there is no endpoint exactly when an interrupting observation shares the current chronology |
| `SlaEndpoint.StretchIsTerminal` | src/soma/tickets/service_request_sla_input.py:145-163 | everything from the endpoint on is Resolved or Closed exactly when the stretch holds no status outside the four |
| `SlaEndpoint.StretchIsMaximal` | src/soma/tickets/service_request_sla_input.py:145-163 | no earlier observation starts an all-terminal stretch |
| `JobCoordinator.DurableJobCoordinator.EnqueueOrCoalesce` | src/soma/foundation/jobs/coordinator.py:133-203 | takes exactly the specified enqueue step |
| `JobCoordinator.DurableJobCoordinator.ClaimNext` | src/soma/foundation/jobs/coordinator.py:205-305 | takes exactly the specified claim step |
| `JobCoordinator.DurableJobCoordinator.VerifyHolder` | src/soma/foundation/jobs/coordinator.py:762-813 | finds exactly the specified first fault of a claim holder |
| `JobCoordinator.DurableJobCoordinator.Checkpoint` | src/soma/foundation/jobs/coordinator.py:319-338 | takes exactly the specified checkpoint step |
| `JobCoordinator.DurableJobCoordinator.Complete` | src/soma/foundation/jobs/coordinator.py:340-365 | takes exactly the specified completion step |
| `JobCoordinator.DurableJobCoordinator.Fail` | src/soma/foundation/jobs/coordinator.py:367-406 | takes exactly the specified failure step |
| `JobCoordinator.DurableJobCoordinator.Cancel` | src/soma/foundation/jobs/coordinator.py:408-501 | takes exactly the specified cancellation step |
| `JobCoordinator.DurableJobCoordinator.InsertAttempt` | src/soma/foundation/jobs/coordinator.py:995-1034 | appends the current attempt unless its ordinal is recorded |
| `JobCoordinator.DurableJobCoordinator.InsertInterruptedIfAbsent` | src/soma/foundation/jobs/coordinator.py:1036-1073 | records an interruption once, accepts its exact repetition, refuses a conflicting one |
| `JobCoordinator.DurableJobCoordinator.RecoverLegacyRow` | src/soma/foundation/jobs/coordinator.py:524-585 | takes exactly the specified legacy recovery step |
| `JobCoordinator.DurableJobCoordinator.RecoverStaleRow` | src/soma/foundation/jobs/coordinator.py:586-694 | takes exactly the specified stale recovery step |
| `JobCoordinator.DurableJobCoordinator.RecoverStaleClaims` | src/soma/foundation/jobs/coordinator.py:503-699 | both recovery loops with interleaved callers compute exactly the specified recovery |
| `JobCoordinator.DurableJobCoordinator.ReconcileRestoredJobs` | src/soma/foundation/jobs/coordinator.py:701-760 | the restore loop, all or nothing, computes exactly the specified reconciliation |
| `RfcServices.TicketTables.AddSubordinate` | src/soma/tickets/rfc_hierarchy.py:131-270 | takes exactly the specified add step |
| `RfcServices.TicketTables.ReparentSubordinate` | src/soma/tickets/rfc_hierarchy.py:272-385 | takes exactly the specified reparent step |
| `RfcServices.TicketTables.DetachSubordinate` | src/soma/tickets/rfc_hierarchy.py:387-488 | takes exactly the specified detach step |
| `RfcServices.TicketTables.Link` | src/soma/tickets/relationships.py:480-591 | takes exactly the specified link step |
| `RfcServices.TicketTables.Unlink` | src/soma/tickets/relationships.py:593-695 | takes exactly the specified unlink step |
| `RfcServices.TicketTables.CreateOrAdoptIdentity` | src/soma/tickets/rfcs.py:90-176 | takes exactly the specified creation step |
| `RfcServices.TicketTables.SetCustomer` | src/soma/tickets/rfcs.py:178-290 | takes exactly the specified Customer step |
| `RfcServices.TicketTables.BranchDisagrees` | src/soma/tickets/rfcs.py:236-250 | the branch loop refuses exactly when another member has a different known Customer |
| `RfcServices.TicketTables.CreateOrAdoptFromSource` | src/soma/tickets/rfc_import_mutations.py:151-203 | takes exactly the specified import identity step |
| `RfcServices.TicketTables.SetCustomerFromReview` | src/soma/tickets/rfc_import_mutations.py:288-381 | takes exactly the specified import Customer step |
| `RfcServices.TicketTables.LinkSrFromReview` | src/soma/tickets/rfc_import_mutations.py:568-639 | takes exactly the specified import link step |
| `RfcCascadeServices.CascadeTables.CaptureScope` | src/soma/tickets/_rfc_terminal_cascade_state.py:446-490 | computes exactly the specified scope |
| `RfcCascadeServices.CascadeTables.CapturePending` | src/soma/tickets/_rfc_terminal_cascade_state.py:492-567 | takes exactly the specified capture step |
| `RfcCascadeServices.CascadeTables.AcceptDeltas` | src/soma/tickets/rfc_source_projection.py:235-287 | the delta loop computes exactly the specified changes |
| `RfcCascadeServices.CascadeTables.ApplyAcceptedFieldDeltas` | src/soma/tickets/rfc_source_projection.py:216-426 | takes exactly the specified acceptance step |
| `RfcCascadeServices.CascadeTables.WriteProjection` | src/soma/tickets/rfc_source_projection.py:300-380 | the epoch turn, the projection write and the capture take exactly the specified step, or nothing |
| `RfcCascadeServices.CascadeTables.AcceptProvisionalImplementEligibility` | src/soma/tickets/rfc_wfm_provisional.py:85-151 | takes exactly the specified provisional step |
| `RfcCascadeServices.CascadeTables.Refresh` | src/soma/tickets/_rfc_terminal_cascade_state.py:708-861 | takes exactly the specified refresh step |
| `RfcCascadeServices.CascadeTables.Execute` | src/soma/tickets/_rfc_terminal_cascade_execution.py:199-422 | takes exactly the specified execution step |
| `RfcArchiveService.ArchiveTables.Archive` | src/soma/tickets/rfc_archive.py:208-373 | the member loop takes exactly the specified archive step |
| `RfcArchiveService.ArchiveTables.RestoreOperation` | src/soma/tickets/rfc_archive.py:375-504 | the member loop takes exactly the specified restore step |
| `CommandBoundary.CommandBoundary.Work` | src/soma/foundation/application/command_boundary.py:281-353 | the statements of one unit of work compute exactly the specified transaction |
| `CommandBoundary.CommandBoundary.WriteEvents` | src/soma/foundation/application/command_boundary.py:324-328 | the audit loop writes exactly the specified events or refuses |
| `CommandBoundary.CommandBoundary.Execute` | src/soma/foundation/application/command_boundary.py:274-353 | one call leaves the store and result specified, with guard, admission and counters given back on every path |
| `UnitOfWork.UnitOfWork.Enter` | src/soma/foundation/persistence/uow.py:67-86 | entering holds everything once, or gives everything back |
| `UnitOfWork.UnitOfWork.Commit` | src/soma/foundation/persistence/uow.py:88-100 | a COMMIT that raises is rolled back when still open |
| `UnitOfWork.UnitOfWork.Rollback` | src/soma/foundation/persistence/uow.py:102-111 | a failed rollback closes the connection |
| `UnitOfWork.UnitOfWork.Exit` | src/soma/foundation/persistence/uow.py:113-135 | leaving commits iff nothing is pending, and on every path closes the connection, resets the guard and gives the admission back once |
| `Connections.WriteAdmissionGate.Enter` | src/soma/foundation/persistence/connections.py:49-53 | admits and counts a writer exactly while accepting |
| `Connections.WriteAdmissionGate.Reopen` | src/soma/foundation/persistence/connections.py:69-73 | reopens exactly when no writer is active |
| `Connections.PersistenceMetrics.Closed` | src/soma/foundation/persistence/connections.py:107-115 | counts a closed connection, or reports an underflow |
| `HostRuntime.HostRuntime.constructor` | src/soma/foundation/runtime/host.py:163-213 | a new runtime is stopped with its gate shut |
| `HostRuntime.HostRuntime.Start` | src/soma/foundation/runtime/host.py:293-374 | takes exactly the specified start, with the handler and the cleanup of the first statement that raises; refuses exactly while active or owning resources |
| `HostRuntime.HostRuntime.CloseRuntimeResources` | src/soma/foundation/runtime/host.py:568-709 | the eleven cleanup statements take exactly the specified cleanup and report whether anything failed |
| `HostRuntime.HostRuntime.Quiesce` | src/soma/foundation/runtime/host.py:465-479 | shuts the gate and both executors at once, or refuses and changes nothing |
| `HostRuntime.HostRuntime.Shutdown` | src/soma/foundation/runtime/host.py:484-535 | takes exactly the specified drain, checkpoint and cleanup; normal return means stopped |
| `HostRuntime.HostRuntime.RetryFailedCleanup` | src/soma/foundation/runtime/host.py:559-566 | takes exactly the specified cleanup and says whether anything is still owned |
| `InstanceLock.ProcessLocks.AcquireLock` | src/soma/foundation/runtime/instance_lock.py:89-174 | takes exactly the specified acquisition |
| `InstanceLock.ProcessLocks.CheckRelease` | src/soma/foundation/runtime/instance_lock.py:184-187 | takes exactly the specified check in front of a release |
| `InstanceLock.ProcessLocks.FinishRelease` | src/soma/foundation/runtime/instance_lock.py:188-203 | takes exactly the specified release body, also when the handle is already gone |
| `MigrationRunner.MigrationRunner.ApplyEntry` | src/soma/foundation/migrations/runner.py:184-207 | one entry is applied with its ledger row, or not at all |
| `MigrationRunner.MigrationRunner.ReconcileLedger` | src/soma/foundation/migrations/runner.py:222-231 | the ledger loop finds exactly the specified mismatch |
| `MigrationRunner.MigrationRunner.InitializeOrMigrate` | src/soma/foundation/migrations/runner.py:114-182 | takes exactly the specified run and leaves no temporary file |
| `SourcePresence.PresenceService.ApplyDisappearance` | src/soma/tickets/sr_source_presence.py:251-295 | takes exactly the specified disappearance step |
| `SourcePresence.PresenceService.ApplyReappearance` | src/soma/tickets/sr_source_presence.py:297-338 | takes exactly the specified reappearance step |
| `SrProjectionService.ProjectionTables.ApplyAcceptedFieldDeltas` | src/soma/tickets/sr_source_projection.py:215-328 | takes exactly the specified application step |

## Left out

- Receipts required by nested participants (`_require_outer_receipt`): the boundary inserts the receipt first, so the check always passes inside a command.
- `assert_claim_current` and the in-unit-of-work checkpoint variant: the same revalidation as `Checkpoint`.
- Persisted-column type checks (canonical UUID, positive revision, hex text, length of reason categories): single-branch validators.
- Attempt row identifiers: rows are identified by position in the append-only table.
- Registries that change between runs: corruption is excluded only under one registry; unique work only needs one coalescing policy; all other job results allow any registry per step.
- JSON lexical syntax inside a token, and floats: a text is a sequence of tokens, each with the bytes it takes in UTF-8; other spellings and white space are kept so that non-canonical texts exist.
- `_validate_unicode`, `ObjectContract` and `ContractRegistry` of strict JSON: a walk and field checks without further state.
- `HostExecutor` as an object: an executor is whether it accepts and how many tasks are outstanding; which futures they are is not kept.
- Concurrent `start` and `shutdown` calls: the host does not synchronise them, and one lifecycle thread is assumed.
- Shutdown's WAL checkpoint, sockets, SQLCipher, Uvicorn, HTTP routes and file hashing: success or failure of the step only.
- `request_shutdown`: the audited command in front of `quiesce`.
- The comparison of schemas by the migration verifier: an arbitrary predicate on the schema.
- Sidecar files and WAL mode during migration; the removal of the temporary file is taken to succeed.
- White space beyond ASCII and Latin-1 in the migration scan.
- The order of `history()` of source presence, which sorts by recorded time rather than by chain.
- The exact contents of response pages and audit payloads; a branch response is its fingerprint's content.
- Effects of the Task and Communication participants of a cascade on their own tables.
- `rfc_hard_delete.py`, `working_notes.py`, `device_references.py`, `sr_references.py`, device reference links and `source_terminal_authority.py`: guarded single-row updates of the same pattern.
- Backup snapshots and runtime registry file writes.
