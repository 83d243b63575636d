# A verified model of the pull-request gate service

The service lets a pull request through only after its author has explained the risky parts of the change: a snapshot of
the pull request gets questions, answers are graded, a receipt is stored, an independent workflow verifies it, and a
status is published. Around this gate there are a multi-tenant gateway, a durable registry, an outbox with retries, an
offline import of older stores, a staged verification client and several exact algorithms. This project models those
parts in Dafny and proves what they promise over all inputs, all interleavings and all runs.

`dafny verify dfyconfig.toml` checks everything.

## How it is written

Each protocol has a state as a datatype, a function `Step` for one critical section or one atomic effect, a function
`Run` over any list of events, an invariant, and theorems about every run. Operations that the service writes as methods
on objects are methods on classes here; they are proved against the same functions (`View() == ...old(View())...`), so
the theorems about runs are theorems about them. What a decision means is stated once more without its definition, field
by field and in both directions (the lemmas ending in `Iff` and `Means`). Loops are loops with invariants. SQL tables are maps,
files are maps from names to opaque identities, and everything outside (GitHub, grading, discovery, clocks, faults) is an
arbitrary parameter of an event.

| module | subject |
|---|---|
| `ImportJournal`, `LegacyImport`, `LegacyOutbox` | journaled import over a database file and a registry row, with crashes and exceptions after every step; what it does to receipts and publications |
| `RegistryRows`, `RepositoryRegistry`, `RepoLocks` | generations of repository rows, caches beside them, and the reference-counted lock table |
| `TenantRuntime`, `TenantProgress` | single-flight creation, retirement and draining shutdown of tenant containers, as interleaved critical sections, and why they never deadlock |
| `ReceiptGate`, `PresentationCheck`, `PublicationOutbox` | submission, grading, receipts, verification and delivery; the mirrored check run; delivery discipline |
| `GlobPatterns` | the glob compiler against a directly defined glob, through a reader of the regular-expression text |
| `Texts`, `Utf8`, `GitPaths`, `UnifiedDiff`, `DiffRoundTrip` | anchors, path unquoting, the unified-diff parser, and its round trip with a printer |
| `EvidenceExcerpt`, `CodeOwners`, `JobTable` | window merging under a budget, static ownership analysis, the bounded job table |
| `ZoneTable`, `CoverageDashboard`, `CoverageRows`, `CoveragePage` | coverage counts over merge histories, the rows made of them, and the whole page |
| `StagedVerification` | five separately run steps chained through one state file |
| `JsonValues`, `SnapshotCodec` | the versioned snapshot codec whose identity is a content hash |

## Where the code does not keep what one would expect

Each of these is a lemma with a concrete family of inputs and, where possible, the exact condition under which the
property holds.

- An anchor does not read back when its file name is empty or contains a newline (`UnifiedDiff.AnchorRoundTripIff`).
- Git ends a file name line with a tab when the name has a space; the parser keeps the tab, so every changed path with
  a space comes back under another name (`DiffRoundTrip.SpacedNameGainsTab`).
- A change without hunks that is no rename (an empty or binary file, a mode) has no file name line and comes back
  without a name (`DiffRoundTrip.HunklessIsNameless`), which the snapshot codec writes and cannot read back
  (`SnapshotCodec.SnapshotRoundTripIff` gives the condition).
- A removed line `-- x` is taken for a file name line and lost (`DiffRoundTrip.RemovedCommentIsLost`). The exact
  condition for all three is `DiffRoundTrip.DiffRoundTripIff`.
- A "covers" verdict of a pattern with doubled slashes at an end is wrong (`CodeOwners.DoubledIsUnsound`,
  `CodeOwners.CoversIff`), and the rules before it then decide (`CodeOwners.DeclaredIsSound`, `CodeOwners.DeclaredIff`).
- For a module path of slashes only, a rooted rule counts as disjoint (`CodeOwners.EmptyModuleIsUnsound`); the exact
  condition is `CodeOwners.EmptyModuleIff`.
- The limit of three deliveries counts recorded attempts only: an error that the flush loop does not handle leaves the
  event due with its attempts unchanged (`PublicationOutbox.UnrecordedAttemptsAreUnbounded`; the exact bound on all
  attempts is `PublicationOutbox.AttemptBound`).
- The order by risk puts a gated zone with fifty or more people who can answer behind ungated ones
  (`CoverageRows.RiskOrder`).
- A context that nobody was ever issued, with a generation ahead of its row, can be rejected first and accepted later
  (`RegistryRows.AcceptedLaterIff`); contexts that were issued cannot (`RegistryRows.NoResurrection`).

## Model

| member | source | states |
|---|---|---|
| `ImportJournal.RecoveryNeverRefuses` | src/lasthuman/server/migration.py:363-385 | in every state that the protocol and its crashes leave, once the registry has rolled back its own cut transaction, neither the file validation nor the rollback nor the finish path refuses; the refusals are for foreign interference only |
| `ImportJournal.CutKeepsRecovered` | src/lasthuman/server/migration.py:394-418 | a recovery stopped after any number of its steps leaves a state with the same recovered disk as before |
| `ImportJournal.InterruptedRecovery` | src/lasthuman/server/migration.py:421-452 | any number of interrupted recoveries, cut anywhere, leave the outcome fixed, and a following full recovery gives exactly the disk that one undisturbed recovery gives |
| `ImportJournal.RecoveredIsSettled` | src/lasthuman/server/migration.py:394-452 | recovery ends without a journal, staged file or backup, with exactly (previous file, previous row) or (staged file, activated row), and with the new pair if and only if the committed marker was written |
| `ImportJournal.RefusalIff` | src/lasthuman/server/migration.py:363-385 | on any disk, also after interference: exactly what rollback and finish refuse |
| `ImportJournal.ForeignIsKept` | src/lasthuman/server/migration.py:394-418 | an attempt that is not refused leaves every file that the journal does not know as it was, wherever it is cut |
| `LegacyImport.ImportHost.RollbackImport` | src/lasthuman/server/migration.py:394-406 | stopped anywhere, it keeps what recovery leads to; completed, it leaves exactly that disk; undisturbed, it always completes |
| `LegacyImport.ImportHost.FinishCommittedImport` | src/lasthuman/server/migration.py:409-418 | the same for the finish path of a committed import |
| `LegacyImport.ImportHost.RecoverPendingImport` | src/lasthuman/server/migration.py:421-452 | recovery is total on protocol states, keeps the outcome however it fails, reports a finished import exactly when the committed marker was on disk, and leaves the disk after some number of the steps that the crash theorems are about |
| `LegacyImport.ImportHost.ForgetImport` | src/lasthuman/server/migration.py:388-391 | the last steps of both paths may stop anywhere and leave the same disk to be reached |
| `LegacyImport.ImportHost.WriteRow` | src/lasthuman/server/registry.py:145-179 | a registry transaction is all or nothing; one that was cut may leave the registry waiting for its own rollback |
| `LegacyImport.ImportHost.ExchangeFiles` | src/lasthuman/server/migration.py:236-242 | between the prepared and the committed marker every stopping point still recovers to the old pair, and a source that changed meanwhile always stops it |
| `LegacyImport.ImportHost.CommitImport` | src/lasthuman/server/migration.py:202-269 | wherever the commit stops its outcome is the old pair until the committed marker is written and the new pair afterwards; the new row is an active one of the same context, one revision on, or a first one; it succeeds, undisturbed, exactly when every check passes, an undisturbed refusal changes nothing, and it ends in a crash exactly when the process died |
| `LegacyImport.ImportHost.ImportLegacyDatabase` | src/lasthuman/server/migration.py:146-188 | a whole command leaves the outcome of the disk alone or moves it to a newly staged file with the old row refreshed or a first row made; an undisturbed command leaves no journal |
| `LegacyImport.ImportHost.GatewaySession` | src/lasthuman/server/runtime_lock.py:129-131 | the gateway starts exactly when no journal exists, so it only sees settled pairs |
| `LegacyImport.ImportHost.RunHistory` | src/lasthuman/server/migration.py:146-188 | over any history of imports and gateway sessions with failures and crashes anywhere: every disk is a protocol state, every file that a command installs is its own new one, each import that went through left an active row of its installation, and whenever no journal is left the pair on the disk is the first one, a session's, or the whole pair of one import |
| `LegacyImport.HistoryIsAccounted` | src/lasthuman/server/migration.py:146-188 | every pair of a history is the first one or was made whole by one command |
| `LegacyImport.PreflightIff` | src/lasthuman/server/registry.py:76-109 | which rows let an import begin: none if there is room for one, or an active one of the same owner, installation and, but for case, name |
| `LegacyOutbox.PendingIsBound` | src/lasthuman/server/migration.py:581-608 | after an import an event is pending exactly when it was, the App installation is proven, and a presentation target can be scoped; it then carries the activated generation and a presentation target below the repository path |
| `LegacyOutbox.EvidenceIsKept` | src/lasthuman/server/migration.py:660-672 | no event changes its kind or content, sent events keep their outcome, and a moved target keeps everything after the old origin |
| `LegacyOutbox.BoundStayUniqueIff` | src/lasthuman/server/migration.py:611-625 | binding receipts to one generation keeps their full keys unique if and only if the short keys were unique, which is what the check asks |
| `LegacyOutbox.ImportedIsStable` | src/lasthuman/server/migration.py:581-672 | importing an imported store again is accepted and changes nothing |
| `LegacyOutbox.PlanSettles` | src/lasthuman/server/migration.py:581-657 | applying the plan settles every planned event, exactly as if each were decided on its own, and leaves all others |
| `LegacyOutbox.StagedStore.ValidateReceiptGenerations` | src/lasthuman/server/migration.py:611-625 | the loop and the duplicate query accept exactly the receipts whose generations fit and whose keys differ |
| `LegacyOutbox.StagedStore.PlanLegacyOutbox` | src/lasthuman/server/migration.py:581-608 | the loop refuses exactly the stores with a foreign generation, an unreadable target or colliding receipts, and plans every change once |
| `LegacyOutbox.StagedStore.ApplyLegacyOutbox` | src/lasthuman/server/migration.py:628-657 | one transaction: refused without a trace, or receipts bound and the whole plan applied |
| `LegacyOutbox.StagedStore.RebindStore` | src/lasthuman/server/migration.py:216-220 | plan and application together settle all events or change nothing |
| `LegacyOutbox.SettledMeans` | src/lasthuman/server/migration.py:581-672 | everything that an import does to an event: which targets move where, which generation is filled in, which events are retired with which reason |
| `LegacyOutbox.ImportableIff` | src/lasthuman/server/migration.py:581-625 | exactly which stores can be imported |
| `LegacyOutbox.ChangeIff` | src/lasthuman/server/migration.py:581-608 | a change is planned exactly for the rows that change and for those without a generation |
| `RegistryRows.RunIsLater` | src/lasthuman/server/registry.py:345-396 | over any run each row keeps its generation or raises it, strictly on every change of identity or activity, and rows never exceed the limit |
| `RegistryRows.GenerationNamesOneIdentity` | src/lasthuman/server/registry.py:345-380 | two contexts accepted at any two times of a run with one repository and one generation are the same context |
| `RegistryRows.NoResurrection` | src/lasthuman/server/registry.py:274-284 | a context that was current and then rejected is never accepted again |
| `RegistryRows.AcceptedLaterIff` | src/lasthuman/server/registry.py:345-396 | which rejected contexts can still be accepted later: exactly those that are ahead of their row and that the policy admits |
| `RegistryRows.ActivateMeans` | src/lasthuman/server/registry.py:345-380 | an activation leaves the verified identity as the active row, one revision on, in a new generation exactly when identity or activity changed; otherwise nothing changes |
| `RegistryRows.RetireMeans` | src/lasthuman/server/registry.py:382-396 | a retirement takes exactly the active row of this generation, into a new one |
| `RepositoryRegistry.Registry.Register` | src/lasthuman/server/registry.py:210-241 | decides exactly as specified on rows, caches and discovery, whatever other threads write to rows and caches between its statements; a returned context is the active durable row of the verified identity and owner, is cached, and was either confirmed by discovery now or remembered by an entry that has not expired; rows only move later |
| `RepositoryRegistry.Registry.SettleRegistration` | src/lasthuman/server/registry.py:220-241 | a confirmed discovery activates the row, a denial is remembered and leaves no active row while nobody else activates it, an operational failure changes nothing |
| `RepositoryRegistry.Registry.Resolve` | src/lasthuman/server/registry.py:243-272 | decides exactly as specified, with other threads between its statements; a resolved context is the active durable row of an allowed owner, confirmed now or remembered by an entry that has not expired; without a row, and nobody else activating one, nothing is returned |
| `RepositoryRegistry.Registry.RequireCurrent` | src/lasthuman/server/registry.py:274-284 | passes only for a context that is the active row before and after and is confirmed or freshly remembered; a context of a disallowed owner ends retired |
| `RepositoryRegistry.Registry.FreshPositive` | src/lasthuman/server/registry.py:405-417 | a cached context is returned exactly while its entry has not expired and it equals the durable row |
| `RepositoryRegistry.Registry.RetireRow` | src/lasthuman/server/registry.py:382-396 | only the row of exactly this context is retired, and the context is not accepted afterwards |
| `RepositoryRegistry.PutLast` | src/lasthuman/server/registry.py:419-425 | the bounded ordered caches: the new entry is kept, every other kept entry is an old one of another key, and the limit holds |
| `RepositoryRegistry.Registry.SettleResolution` | src/lasthuman/server/registry.py:260-272 | the end of resolve: confirmed means activated, mismatched means retired, a failure changes nothing |
| `RepositoryRegistry.Registry.ActivateRow` | src/lasthuman/server/registry.py:345-380 | activation succeeds exactly for valid installations of allowed owners within the limit, and the cache then holds the active row |
| `RepositoryRegistry.LockedOnlyRetires` | src/lasthuman/server/registry.py:382-396 | while a repository lock keeps others from activating a row, it stays what it is or is retired |
| `RepositoryRegistry.Registry.RetireStored` | src/lasthuman/server/registry.py:398-403 | a context loaded before and retired later: it is not accepted afterwards, whatever came in between |
| `RepositoryRegistry.Registry.RegisterUncached` | src/lasthuman/server/registry.py:226-241 | register when the cache has no answer |
| `RepositoryRegistry.Registry.ResolveUncached` | src/lasthuman/server/registry.py:254-272 | resolve when the caches have no answer |
| `RepositoryRegistry.RegisteredIff` | src/lasthuman/server/registry.py:210-241 | exactly when a registration succeeds: identity, owner, a fresh entry for the row, or no recent denial and a confirmation with room for the row |
| `RepositoryRegistry.ResolvedIff` | src/lasthuman/server/registry.py:243-272 | exactly when a repository is resolved, and which failure each other case has |
| `RepositoryRegistry.DeniedIsRetired` | src/lasthuman/server/registry.py:243-272 | a context of an owner who is not allowed, or that discovery denies, is not accepted afterwards |
| `RepositoryRegistry.RequiredIff` | src/lasthuman/server/registry.py:274-284 | exactly when a context passes |
| `RepoLocks.PrunedKeepsReferenced` | src/lasthuman/server/registry.py:478-485 | pruning takes idle slots only, as many as the limit asks for, and stops short only when every slot is in use |
| `RepoLocks.RunKeepsInv` | src/lasthuman/server/registry.py:459-476 | over any run reference counts equal the callers holding or waiting, slots in use are present, and the table keeps its limit |
| `RepoLocks.MutualExclusion` | src/lasthuman/server/registry.py:459-476 | callers of one repository always contend on one lock object, so two that hold it are the same thread |
| `RepoLocks.LockTable.PruneIdleRepoLocks` | src/lasthuman/server/registry.py:478-485 | the loop prunes as specified |
| `RepoLocks.LockTable.EnterSection` | src/lasthuman/server/registry.py:459-469 | a caller gets the one lock of its repository with one more reference, or is refused because the table is full of slots in use |
| `RepoLocks.LockTable.LeaveSection` | src/lasthuman/server/registry.py:473-476 | leaving gives back exactly one reference |
| `TenantRuntime.Exclusive` | src/lasthuman/server/gateway.py:433-514 | in every interleaving: served, created and retiring repositories stay within the capacity, of two containers of one repository one has finished its shutdown, and a container being shut down has no operation |
| `TenantRuntime.PredecessorsAreFinished` | src/lasthuman/server/gateway.py:481-507 | when a creation may open a Store every earlier container of its repository has finished |
| `TenantRuntime.SingleFlight` | src/lasthuman/server/gateway.py:433-465 | until it ends, no event replaces the creation of a repository by another one |
| `TenantRuntime.BrokenBlocksForever` | src/lasthuman/server/gateway.py:509-514 | a container whose shutdown raised stays so, and its repository never gets another container |
| `TenantRuntime.StoppedForGood` | src/lasthuman/server/gateway.py:303-333 | after a successful gateway shutdown every container is finished and none is ever made |
| `TenantRuntime.RunKeepsInv` | src/lasthuman/server/gateway.py:433-514 | all of the above as one invariant over every run, including that no operation is counted on an unpublished or halted container and that waiting threads are inside no operation |
| `TenantRuntime.WaitingDescends` | src/lasthuman/server/gateway.py:359-409 | every thread waits only for threads of lower rank: operations wait for nobody, creators for operations, waiters for creators |
| `TenantRuntime.NoWaitCycle` | src/lasthuman/server/gateway.py:140-161 | in no reachable state do threads wait for each other in a circle, so a draining shutdown never takes part in one |
| `TenantRuntime.TenantManager.Decide` | src/lasthuman/server/gateway.py:437-454 | in every case of the tables the answer of the section: the served container only if it is of the asked context, a creation to wait for, a new creation, or a refusal |
| `TenantRuntime.TenantManager.Admission` | src/lasthuman/server/gateway.py:433-465 | the critical section returns a container of exactly the asked context, refuses, joins or creates, and changes the tables as the run model says |
| `TenantRuntime.TenantManager.BeginBuildSection` | src/lasthuman/server/gateway.py:481-488 | the published container is withdrawn before it is shut down |
| `TenantRuntime.TenantManager.ShutdownRetired` | src/lasthuman/server/gateway.py:509-514 | the retiring entry is dropped exactly when the shutdown did not raise |
| `TenantRuntime.TenantManager.PublishSection` | src/lasthuman/server/gateway.py:491-507 | published exactly when the context is still current and the gateway is open; otherwise handed over for shutdown |
| `TenantRuntime.TenantManager.EnterOperation` | src/lasthuman/server/gateway.py:98-109 | an operation is counted exactly when the container is open |
| `TenantRuntime.TenantManager.CollectSection` | src/lasthuman/server/gateway.py:303-328 | a gateway shutdown collects every container that is not finished |
| `TenantRuntime.ServesTheContext` | src/lasthuman/server/gateway.py:433-454 | in every reachable state a caller finds a container exactly when one of its very context is served, and that one is open; one of another context is refused or leads to a new creation |
| `TenantRuntime.StaleIsDrained` | src/lasthuman/server/gateway.py:433-488 | a served container of another context is withdrawn and drained by the creation that a request starts |
| `TenantRuntime.PublishedServes` | src/lasthuman/server/gateway.py:481-507 | what a creation publishes is a container of the context that it was started for |
| `TenantProgress.SomebodyGoesOn` | src/lasthuman/server/gateway.py:303-514 | no deadlock: in every reachable state in which somebody waits, creates or shuts down, something that has begun can go on |
| `TenantProgress.ReplacementCompletes` | src/lasthuman/server/gateway.py:433-514 | a container without operations can be replaced by one of another context, with nothing else changed |
| `TenantProgress.ShutdownCompletes` | src/lasthuman/server/gateway.py:303-333 | a gateway with one container and no operation stops, or has failed to stop when that container could not |
| `TenantProgress.WaitersWait` | src/lasthuman/server/gateway.py:433-465 | nobody who waits for a creation goes on before it has ended |
| `TenantProgress.WaitersGoOn` | src/lasthuman/server/gateway.py:433-465 | whoever waits for a creation that is not under way any more can go on, and then waits for nothing |
| `TenantProgress.OnlyShutdownCloses` | src/lasthuman/server/gateway.py:140-161 | a container stops serving only by its own shutdown, and only after its creator, its replacement or the gateway has called for it |
| `ReceiptGate.GateSafety` | src/lasthuman/server/service.py:1158-1262 | over any run: a success status for a triggered snapshot is sent only with a receipt of its author that is the current one, whose questions were all answered and passed first and which a `verify` then marked on equal submitted, stored and reread bindings and an open, unchanged pull request; when it is sent the pull request has the snapshot's author and head and is open with the same base and the same snapshot when read again, or closed |
| `ReceiptGate.VerifiedAtNeverChanges` | src/lasthuman/server/store.py:598-629 | receipts are never dropped or rewritten, and a verification time once set stays |
| `ReceiptGate.RunKeepsInv` | src/lasthuman/server/service.py:897-986 | over any run every stored receipt answers every question of its version with a pass on record, and every verified one has its verification on record |
| `ReceiptGate.GateOpens` | src/lasthuman/server/service.py:343-400 | the gate can be passed: a run of answering, grading, verification and delivery that sends the success exists for every triggered snapshot |
| `ReceiptGate.NormalizedSubmission` | src/lasthuman/server/service.py:1637-1672 | accepts exactly the submissions that answer each question once within the limits, and returns them in question order |
| `ReceiptGate.GradeAnswers` | src/lasthuman/server/service.py:911-958 | the grading loop computes the grading of its verdicts in order, stopping at an invalid one |
| `ReceiptGate.GradeAllIsGrading` | src/lasthuman/server/service.py:911-958 | the loop on lists and the interleaved turns on the shared state agree |
| `ReceiptGate.GateService.SaveReceipt` | src/lasthuman/server/store.py:373-508 | a receipt is stored once per key and storing it again returns the stored one |
| `ReceiptGate.GateService.MarkReceiptVerified` | src/lasthuman/server/store.py:598-629 | the time of the first verification is kept; other generations are refused |
| `ReceiptGate.GateService.Verify` | src/lasthuman/server/service.py:506-529 | succeeds exactly when the submitted, stored and reread bindings agree and the receipt is current, each failure with its own error and without effect |
| `ReceiptGate.GateService.Submit` | src/lasthuman/server/service.py:343-400 | accepts exactly when the author answers the current questions of a pending snapshot and a repeated request finds its own job or a new one finds a free place and an unchanged pull request; a repeated request changes nothing, a refusal changes nothing |
| `ReceiptGate.GateService.RunJob` | src/lasthuman/server/service.py:897-986 | the job as written has the effect of its turns and its last section |
| `ReceiptGate.GateService.EndJob` | src/lasthuman/server/service.py:960-986 | stale pull requests, missing answers and stored receipts lead to their states |
| `ReceiptGate.ArrangedIsUnique` | src/lasthuman/server/service.py:1637-1672 | an accepted submission has one arrangement, so comparing stored answers compares submissions |
| `ReceiptGate.StatusSawPull` | src/lasthuman/server/service.py:1158-1262 | over any run: every status, also a pending or neutral one, was sent by an event of this generation for what the pull request was at that time, and a success rests on a receipt or needs none |
| `ReceiptGate.VerifyIff` | src/lasthuman/server/service.py:506-529 | exactly when `verify` marks a receipt |
| `ReceiptGate.VerifyMeans` | src/lasthuman/server/service.py:506-529 | what it changes: the first time of this receipt and the jobs that made it |
| `ReceiptGate.SuccessStatusIff` | src/lasthuman/server/service.py:1219-1262 | exactly when a success event sends its status |
| `ReceiptGate.OtherStatusIff` | src/lasthuman/server/service.py:1186-1217 | exactly when a pending or neutral event sends its status, never over a verified receipt |
| `ReceiptGate.SyncMeans` | src/lasthuman/server/service.py:228-308 | what was read becomes the current snapshot; its questions stay unless new ones are asked for and no receipt has them |
| `ReceiptGate.SubmitMeans` | src/lasthuman/server/service.py:343-400 | a job starts exactly for the author of the current snapshot of an open, unchanged pull request |
| `ReceiptGate.GradeMeans` | src/lasthuman/server/service.py:911-958 | an answer passes exactly when it was given and judged so |
| `ReceiptGate.FinishStores` | src/lasthuman/server/service.py:960-986 | a job that passed stores its receipt, once |
| `ReceiptGate.FinishFails` | src/lasthuman/server/service.py:960-986 | a job that did not pass stores nothing and ends by its reason |
| `ReceiptGate.PurgedJobIsForgotten` | src/lasthuman/server/service.py:2075-2084 | an expired job is forgotten with its request and neither grading nor its last section has any effect afterwards |
| `ReceiptGate.RestartKeepsReceipts` | src/lasthuman/server/service.py:196-218 | a restart keeps what is stored and drops the jobs; under another app, installation or generation an earlier receipt neither verifies nor leads to a success |
| `PresentationCheck.CheckSafety` | src/lasthuman/server/service.py:1305-1363 | over any run a check run concludes success only with a verified receipt that is current for the snapshot and question version at that time, with its passes and its verification on record |
| `PresentationCheck.SuccessMatchesPull` | src/lasthuman/server/service.py:1512-1578 | a successful check saw the pull request open and unchanged, or closed on the snapshot's own head |
| `PresentationCheck.OpenSuccessIff` | src/lasthuman/server/service.py:1754-1774 | for an open unchanged pull request a current event concludes success exactly when the gate has been passed |
| `PresentationCheck.VerifiedPhaseStays` | src/lasthuman/server/service.py:1754-1804 | until the settings change, a snapshot in the verified phase never leaves it, whatever is submitted, graded, verified or delivered |
| `PresentationCheck.SuccessIff` | src/lasthuman/server/service.py:1305-1363 | exactly when a check concludes success, for any event and any pull request |
| `PresentationCheck.ShownMatchesPull` | src/lasthuman/server/service.py:1305-1363 | whatever is shown, the pull request is open and unchanged or closed on the snapshot's head as the event says |
| `PresentationCheck.PhaseIff` | src/lasthuman/server/service.py:1754-1774 | which phase an open pull request is shown in |
| `PresentationCheck.ClosedIsShown` | src/lasthuman/server/service.py:1775-1804 | a pull request closed as the event says is shown as verified exactly when the gate has been passed, and as closed otherwise |
| `PresentationCheck.ClosedShowsItsEnd` | src/lasthuman/server/service.py:1775-1804 | for an event about a closed pull request nothing is shown but its success or, when asked for, its closing |
| `PublicationOutbox.DeliveryBound` | src/lasthuman/server/service.py:531-650 | a dispatch has at most three recorded deliveries in any run, a presentation event at most three since its last reset |
| `PublicationOutbox.ResetNeedsFailure` | src/lasthuman/server/store.py:1180-1264 | attempts go back to zero only for a presentation event that had failed for good, by a request for it |
| `PublicationOutbox.SentIsFinal` | src/lasthuman/server/store.py:654-679 | an event sent without error, other than a dispatch, keeps its row for ever |
| `PublicationOutbox.ForeignEventsAreLeft` | src/lasthuman/server/service.py:652-653 | an event of another tenant generation is neither delivered nor overwritten |
| `PublicationOutbox.BackoffIsBounded` | src/lasthuman/server/service.py:2098-2100 | the delay doubles from five seconds and stays at five minutes |
| `PublicationOutbox.UnrecordedAttemptsAreUnbounded` | src/lasthuman/server/service.py:565-643 | counterexample for every n: errors outside the handled classes leave the attempt unrecorded, so the bound is on recorded ones |
| `PublicationOutbox.Outbox.QueuePublication` | src/lasthuman/server/store.py:1180-1264 | insert, refill, leave alone or refuse, as specified |
| `PublicationOutbox.Outbox.FlushOne` | src/lasthuman/server/service.py:537-649 | one turn of the loop |
| `PublicationOutbox.Outbox.FlushPublications` | src/lasthuman/server/service.py:531-650 | the loop counts the events that ended sent, and an unhandled error leaves its event and all later ones untouched |
| `PublicationOutbox.Outbox.RequeueUnverifiedDispatches` | src/lasthuman/server/store.py:844-904 | exactly the selected dispatches become pending and due now, with their attempts and content kept; nothing else changes |
| `PublicationOutbox.AttemptBound` | src/lasthuman/server/service.py:531-650 | all attempts of a dispatch in any run, recorded or not, are at most three and one for every unhandled error |
| `PublicationOutbox.TurnMeans` | src/lasthuman/server/service.py:537-649 | one turn changes its own event only, as its outcome says, and is on record exactly when a delivery was attempted |
| `PublicationOutbox.OnlyDueIsDelivered` | src/lasthuman/server/service.py:531-650 | a delivery is attempted only for a pending event of this generation that is due and has attempts left; what was sent becomes pending again only by a request after a failure or as an unverified dispatch |
| `PublicationOutbox.FlushAllAt` | src/lasthuman/server/service.py:531-650 | a flush does to each of its events what one turn does to it, and nothing to others |
| `GlobPatterns.GlobToRegex` | src/lasthuman/config.py:88-114 | the loop ends, and the text it builds parses to one construct per wildcard or character |
| `GlobPatterns.CompilationPreservesMeaning` | src/lasthuman/config.py:88-118 | for every pattern and path, matching the compiled text is equivalent to the directly defined glob |
| `GlobPatterns.ItemsMatchGlob` | src/lasthuman/config.py:88-114 | the same from every position of the path |
| `GlobPatterns.CompiledPieces` | src/lasthuman/config.py:88-114 | reading back the built text never runs two pieces together, whatever the pattern contains |
| `GlobPatterns.LiteralMatchesItself` | src/lasthuman/config.py:117-118 | a pattern without wildcards matches itself and nothing else |
| `GlobPatterns.SingleStarKeepsDepth` | src/lasthuman/config.py:97-113 | without `**` a match has as many slashes as the pattern |
| `GlobPatterns.EscapesAreStrict` | src/lasthuman/config.py:88-114 | the reader that gives the text its meaning refuses an escaped letter or digit instead of taking it literally |
| `Texts.LinesComeBackIff` | src/lasthuman/diff.py:135-135 | `splitlines` undoes joining exactly when no line holds a line break |
| `Texts.LineEnds` | src/lasthuman/diff.py:135-135 | any line break ends a line, and a carriage return takes the newline after it along |
| `Texts.RepositoryNameIff` | src/lasthuman/server/registry.py:570-573 | two parts with a slash between them are a repository name exactly when both consist of letters, digits and `._-` |
| `Utf8.DecodeEncoded` | src/lasthuman/diff.py:62-62 | decoding with replacement undoes encoding |
| `Utf8.DecodeFirstIff` | src/lasthuman/diff.py:62-62 | a character is read exactly when its encoding comes first; whatever else comes first is replaced |
| `GitPaths.Unquote` | src/lasthuman/diff.py:39-62 | the index loop computes the specified bytes, with its three exceptions |
| `GitPaths.PathRoundTrip` | src/lasthuman/diff.py:39-62 | every path, quoted as git quotes it, unquotes to itself |
| `GitPaths.OctalForms` | src/lasthuman/diff.py:39-62 | which digits after a backslash make a byte, with the underscores and blanks that `int` lets through |
| `UnifiedDiff.AnchorRoundTripIff` | src/lasthuman/diff.py:26-36 | an anchor reads back exactly when its file name is neither empty nor contains a newline |
| `UnifiedDiff.AnchorParsesAs` | src/lasthuman/diff.py:31-36 | only texts of the anchor form are read |
| `UnifiedDiff.AnchorReading` | src/lasthuman/diff.py:31-36 | a text has at most one reading |
| `UnifiedDiff.ParsedAnchorIsStable` | src/lasthuman/diff.py:26-36 | whatever is read makes an anchor with the same reading |
| `UnifiedDiff.ParseConserves` | src/lasthuman/diff.py:85-188 | for every text: summed file additions, deletions and hunk counts are those of the hunks, and each hunk lists exactly its marked body lines in order |
| `UnifiedDiff.DiffParser.CloseHunk` | src/lasthuman/diff.py:96-117 | a hunk is emitted exactly when it has changed lines, with the totals of its file |
| `UnifiedDiff.DiffParser.CloseFile` | src/lasthuman/diff.py:119-133 | a file is emitted once, after its last hunk |
| `UnifiedDiff.DiffParser.FeedLine` | src/lasthuman/diff.py:135-185 | one turn of the line loop on the parser state |
| `UnifiedDiff.DiffParser.ParseHunks` | src/lasthuman/diff.py:85-188 | the loop computes the specified result for every text |
| `DiffRoundTrip.DiffRoundTripIff` | src/lasthuman/diff.py:85-188 | changes of every kind, printed as git prints them (quoted paths, the tab after a name with a space, mode, similarity and blob lines, binary files, missing newlines), parse to themselves if and only if no body line reads as a file name line or holds another line break, no change with hunks has a space in its path, and every change without hunks is a rename |
| `DiffRoundTrip.RemovedCommentIsLost` | src/lasthuman/diff.py:160-167 | counterexample for every path: a removed line `-- x` is read as a file name line |
| `DiffRoundTrip.PrintedIsRead` | src/lasthuman/diff.py:85-188 | whatever the names and kinds of the changes, as long as their bodies are clean: exactly which files and hunks are read |
| `DiffRoundTrip.SpacedNameGainsTab` | src/lasthuman/diff.py:160-167 | counterexample for every path with a space: it comes back with a tab at its end, still in its quotes if it had to be quoted |
| `DiffRoundTrip.HunklessIsNameless` | src/lasthuman/diff.py:135-167 | counterexample for every change without hunks that is no rename: empty, binary and mode-only changes come back without a name |
| `DiffRoundTrip.HeaderIff` | src/lasthuman/diff.py:135-185 | a line opens a hunk exactly when it has the form of a header, with the starts of its ranges |
| `EvidenceExcerpt.ExcerptSegments` | src/lasthuman/server/service.py:163-190 | for every radius and budget: exactly the first lines of the wanted set, as slices of the file, in order and never adjacent |
| `EvidenceExcerpt.MergedWindows` | src/lasthuman/server/service.py:171-181 | merging the sorted windows covers exactly the wanted lines with gaps between windows |
| `EvidenceExcerpt.CutWindows` | src/lasthuman/server/service.py:182-190 | the budget takes a prefix of all window lines |
| `EvidenceExcerpt.WindowsAreWanted` | src/lasthuman/server/service.py:171-181 | separated windows with the same members list the wanted lines in order |
| `CodeOwners.DeclaredIsSound` | src/lasthuman/server/organization.py:333-355 | when owners are declared for a module and the deciding pattern has no doubled slashes, every file of it has exactly those owners under last-match-wins, whatever all other rules look like; with doubled slashes the rules before the deciding one decide |
| `CodeOwners.CoversIff` | src/lasthuman/server/organization.py:358-377 | a "covers" verdict is right for a file of the module exactly when the pattern has no doubled slashes at its ends |
| `CodeOwners.CoversIsJustified` | src/lasthuman/server/organization.py:358-377 | "covers" means that the pattern matches every file of the module |
| `CodeOwners.DisjointIsJustified` | src/lasthuman/server/organization.py:358-377 | "disjoint" means that it matches none |
| `CodeOwners.EmptyModuleIsUnsound` | src/lasthuman/server/organization.py:358-377 | counterexample at the module path `/`, which the caller lets through: a rooted rule counts as disjoint and owners are declared wrongly |
| `CodeOwners.DoubledIsUnsound` | src/lasthuman/server/organization.py:358-377 | for a pattern with doubled slashes "covers" is wrong for every file |
| `CodeOwners.DictionaryKeepsOwners` | src/lasthuman/server/github.py:152-155 | keeping only the last declaration of each pattern changes nobody's owners |
| `CodeOwners.DeclaredContacts` | src/lasthuman/server/organization.py:333-355 | the loops compute the declared owners and each accepted label of theirs once, in order of first appearance, with the note for the empty cases |
| `CodeOwners.AcceptedOnceMembers` | src/lasthuman/server/organization.py:344-354 | the contacts are exactly the accepted labels, each once |
| `CodeOwners.DeclaredIff` | src/lasthuman/server/organization.py:333-341 | declared owners are right for a file exactly when the deciding pattern has no doubled slashes or the rules before it agree |
| `CodeOwners.EmptyModuleIff` | src/lasthuman/server/organization.py:358-377 | for the empty module declared owners are right for every file exactly when each later rule with other owners can match nothing or is beaten by a still later one |
| `CodeOwners.EmptyModuleIsWrong` | src/lasthuman/server/organization.py:358-377 | otherwise a named file is a witness, with the owners of the rule in the way |
| `CodeOwners.RootedIsExact` | src/lasthuman/server/organization.py:358-377 | for rooted literal patterns the verdict is exact: covers when all files of the module match, disjoint when none does, uncertain when the pattern lies inside the module |
| `CodeOwners.DictionaryMembers` | src/lasthuman/server/github.py:152-155 | the dictionary holds exactly the last declaration of every pattern |
| `CodeOwners.LabelsComeBack` | src/lasthuman/server/organization.py:344-354 | owners written with blanks between them are the labels |
| `JobTable.IndexAgrees` | src/lasthuman/server/app.py:318-368 | in every reachable state jobs and index are inverse, with at most fifty jobs and one per key |
| `JobTable.ActiveIsNeverEvicted` | src/lasthuman/server/app.py:514-544 | over any run a queued or running job stays until its own end |
| `JobTable.ActiveStays` | src/lasthuman/server/app.py:318-544 | one step of anything else leaves an active job and its state alone |
| `JobTable.EnqueueOutcome` | src/lasthuman/server/app.py:318-368 | which request finds its job, gets a new one or is refused; refusal means fifty active jobs |
| `JobTable.TrimMakesRoom` | src/lasthuman/server/app.py:525-537 | trimming takes terminal jobs only, and leaves a full table only when all are active |
| `JobTable.SortedIsUnique` | src/lasthuman/server/app.py:525-537 | the sort by age and id has one result |
| `JobTable.RunKeepsInv` | src/lasthuman/server/app.py:514-544 | the invariant over every run |
| `JobTable.JobRegister.PurgeJobs` | src/lasthuman/server/app.py:514-523 | the loop drops exactly the expired terminal jobs and their keys |
| `JobTable.JobRegister.TrimTerminalJobs` | src/lasthuman/server/app.py:525-537 | the loop drops exactly the oldest terminal jobs that the limit asks for |
| `JobTable.JobRegister.EnqueueJob` | src/lasthuman/server/app.py:318-368 | expiry, replacement, trimming and insertion together |
| `JobTable.JobRegister.EndJob` | src/lasthuman/server/app.py:440-468 | a job that is gone is left gone; another one ends |
| `JobTable.TrimTakesOldest` | src/lasthuman/server/app.py:525-537 | at most one job is evicted, the oldest of the finished ones by age and id, and only from a full table |
| `JobTable.ClearedMembers` | src/lasthuman/server/app.py:318-345 | expiry takes exactly the finished jobs whose time is over, a request also the finished job that it replaces |
| `JobTable.JobLives` | src/lasthuman/server/app.py:318-544 | a job from its request to its expiry; without its end it outlives any expiry |
| `JobTable.OverStaysOver` | src/lasthuman/server/app.py:440-468 | a job that is over is never queued or running again |
| `ZoneTable.TotalsConserve` | src/lasthuman/server/service.py:734-780 | gated merges are attested or forced, merges are measured or not, over any history |
| `ZoneTable.TallyIsConsistent` | src/lasthuman/server/service.py:748-793 | per zone attested + forced <= gated <= merged, and no zone exceeds the totals |
| `ZoneTable.AnswerersIffAttested` | src/lasthuman/server/service.py:781-795 | a zone has answerers exactly when a merge was attested there |
| `ZoneTable.DashboardConserves` | src/lasthuman/server/service.py:726-795 | the three together for the tables that the loops build |
| `ZoneTable.CountMerge` | src/lasthuman/server/service.py:753-793 | the increments of one merge touch each zone as its facts say |
| `CoverageDashboard.ZoneOfIsMostSpecific` | src/lasthuman/ledger.py:132-140 | the chosen zone contains the path and no zone containing it is more specific |
| `CoverageDashboard.FindZone` | src/lasthuman/ledger.py:132-140 | the scan with its best candidate computes that zone |
| `CoverageDashboard.FactsAreReceipts` | src/lasthuman/server/service.py:763-793 | somebody is credited in a named, touched zone exactly when a verified receipt from before the merge has an answer of theirs anchored there |
| `CoverageDashboard.CreditMerge` | src/lasthuman/server/service.py:781-793 | the loops over receipts and answers collect those credits |
| `CoverageDashboard.CountMerges` | src/lasthuman/server/service.py:726-795 | the loop over merges computes totals, rows and people for any merge, snapshot and receipt history |
| `CoverageDashboard.TouchedMembers` | src/lasthuman/server/service.py:748-752 | a zone is touched exactly when it has a name and is the most specific one of a changed file |
| `CoverageDashboard.FactsMean` | src/lasthuman/server/service.py:734-793 | what counts for a merge: measured, gated, attested by a receipt in time, and who is credited where |
| `CoverageDashboard.BelongsIff` | src/lasthuman/ledger.py:132-140 | whatever slashes a zone is written with, the files below its directory are its own |
| `CoverageRows.LoadSeed` | src/lasthuman/server/coverage.py:81-121 | accepts exactly the seeds whose numbers fit together and changes none of them |
| `CoverageRows.FinalRowIsConsistent` | src/lasthuman/server/coverage.py:157-239 | adding an accepted seed to consistent live counts keeps the inequalities of every zone |
| `CoverageRows.MergedAt` | src/lasthuman/server/coverage.py:186-195 | adding the seed row by row gives each zone its live counts and everything the seed holds for it |
| `CoverageRows.RankIsTotal` | src/lasthuman/server/coverage.py:124-130 | the risk order compares any two rows, and ties only rows of one zone |
| `CoverageRows.RankIsTransitive` | src/lasthuman/server/coverage.py:124-130 | and is transitive |
| `CoverageRows.SortRows` | src/lasthuman/server/coverage.py:204-206 | the rows are those of the zones, once each, by risk |
| `CoverageRows.ActionsFor` | src/lasthuman/server/coverage.py:133-154 | the first five rows that need something, in order |
| `CoverageRows.Finalize` | src/lasthuman/server/coverage.py:157-239 | one row per zone of the union, sorted, with live and seed counts added and its rate; consistent counts and an accepted seed give consistent rows with rates in [0, 1] and a summary of the same kind |
| `CoverageRows.ShareIsShare` | src/lasthuman/server/coverage.py:207-207 | a rate is the attested share of the gated merges, between 0 and 1, and is shown from the minimum sample on |
| `CoverageRows.RiskOrder` | src/lasthuman/server/coverage.py:124-130 | of two gated rows the one with fewer answerers comes first, then with more exceptions, then with more merges; gated rows with fewer than fifty answerers come before the others |
| `CoverageRows.TextLeIff` | src/lasthuman/server/coverage.py:124-130 | names are ordered by the first place where they differ |
| `CoverageRows.FinalRowAdds` | src/lasthuman/server/coverage.py:157-239 | a zone ends up with its live counts and those of its seed entry, number by number |
| `CoverageRows.NeedingMembers` | src/lasthuman/server/coverage.py:133-154 | the actions are exactly those that the rows ask for |
| `CoveragePage.Dashboard` | src/lasthuman/server/service.py:689-835 | for any merge, snapshot and receipt history and any accepted seed: every row adds up its zone, is consistent and has a rate in [0, 1], and so has the summary; without a seed gated = attested + forced and a zone has answerers exactly when it was attested |
| `CoveragePage.LatestIsLast` | src/lasthuman/server/service.py:744-747 | the zones shown are those of the last of the latest measured merges |
| `CoveragePage.FindZones` | src/lasthuman/server/service.py:797-805 | the loop and the fallback to the last pending snapshot find those zones |
| `CoveragePage.LatestByTime` | src/lasthuman/server/service.py:744-747 | the same in times |
| `StagedVerification.PublicationIsEarned` | src/lasthuman/server/relay.py:388-671 | for any calls of the five steps in any order, repeated or failing: a file at the last stage was produced by the five steps in order, by one run on one unchanged receipt, with receipt binding = snapshot binding, actor = author, a verification of this receipt and pull request, and a published gate that matched the remote success status while the pull request was open with the same author, head and base before and after |
| `StagedVerification.WatchedIsMatched` | src/lasthuman/server/relay.py:589-671 | the accepted turn saw the published gate, the matching success status and an unchanged pull request before and after, and all earlier turns waited |
| `StagedVerification.StepsCanSucceed` | src/lasthuman/server/relay.py:437-671 | the chain can be completed for every receipt whose actor is the author |
| `StagedVerification.InvokedKeepsInv` | src/lasthuman/server/relay.py:388-434 | every successful step was justified by the file it found |
| `StagedVerification.DoneFollows` | src/lasthuman/server/relay.py:972-1049 | every later stage was reached from the one just before it, with receipt, run and snapshot kept |
| `StagedVerification.WatchPublication` | src/lasthuman/server/relay.py:589-671 | the polling loop decides as specified |
| `StagedVerification.PollActionsJob` | src/lasthuman/server/relay.py:719-772 | ends exactly as specified: a lost job is submitted again at most twice, and a result is taken only from a completed report of the job submitted last |
| `StagedVerification.StateFile.ReceiptStep` | src/lasthuman/server/relay.py:437-471 | the first step replaces the file exactly when the publication view is valid and its gate is not a refusal |
| `StagedVerification.StateFile.SnapshotStep` | src/lasthuman/server/relay.py:474-494 | the second step writes exactly a state that validates at its stage |
| `StagedVerification.StateFile.CompareStep` | src/lasthuman/server/relay.py:497-508 | the third step succeeds exactly when actor and author, receipt binding and snapshot binding agree |
| `StagedVerification.StateFile.VerifyStep` | src/lasthuman/server/relay.py:511-558 | the fourth step takes exactly a verified result for this receipt and pull request |
| `StagedVerification.StateFile.PublicationStep` | src/lasthuman/server/relay.py:561-671 | the last step writes exactly what the polling loop accepted |
| `StagedVerification.StateFile.RunVerificationStep` | src/lasthuman/server/relay.py:388-434 | a step that fails leaves the file alone, one that succeeds makes the next state of the run model |
| `StagedVerification.StateFile.RunAll` | src/lasthuman/server/relay.py:388-671 | the file after any calls is the file of the run that the chain theorem is about |
| `StagedVerification.JudgeIff` | src/lasthuman/server/relay.py:589-671 | exactly when a turn of the polling loop is accepted and when it waits |
| `StagedVerification.ReceiptWritten` | src/lasthuman/server/relay.py:437-471 | exactly which views a run may start from |
| `StagedVerification.HoldsIff` | src/lasthuman/server/relay.py:972-1049 | what a valid state file holds at each stage |
| `StagedVerification.StepWritten` | src/lasthuman/server/relay.py:474-671 | when each later step succeeds and what it writes |
| `StagedVerification.PolledIff` | src/lasthuman/server/relay.py:719-772 | polling gives a result exactly when a completed report of the current job comes after answers that carry on |
| `JsonValues.AllFaithful` | src/lasthuman/server/snapshot.py:899-913 | lists are faithful when their elements are |
| `JsonValues.DictFaithful` | src/lasthuman/server/snapshot.py:988-1001 | dictionaries are refused exactly for an empty key |
| `SnapshotCodec.SnapshotRoundTripIff` | src/lasthuman/server/snapshot.py:240-283 | a created snapshot reads back from its stored form if and only if all of its parts are storable |
| `SnapshotCodec.AcceptedIdIsDigest` | src/lasthuman/server/snapshot.py:155-168 | an accepted snapshot's id is the hash of its own payload |
| `SnapshotCodec.StoredPayloadIsStable` | src/lasthuman/server/snapshot.py:763-819 | an accepted payload whose id is the hash of its content is written back unchanged |
| `SnapshotCodec.OldSnapshotsStayValid` | src/lasthuman/server/snapshot.py:971-1007 | a payload from before `callees` existed reads back without callees under the same id |
| `SnapshotCodec.OldCalleesStayValid` | src/lasthuman/server/snapshot.py:1010-1031 | a callee from before `excerpt` existed reads back without one under the same id |
| `SnapshotCodec.ConfigFaithful` | src/lasthuman/server/snapshot.py:827-876 | decoding an encoded configuration returns it, or refuses exactly the ones that cannot be stored |
| `SnapshotCodec.RiskFaithful` | src/lasthuman/server/snapshot.py:879-896 | the same for the risk result |
| `SnapshotCodec.DiffFaithful` | src/lasthuman/server/snapshot.py:899-968 | the same for hunks and files |
| `SnapshotCodec.StructureFaithful` | src/lasthuman/server/snapshot.py:971-1048 | the same for symbols, callees and importers |

## Left out

- GitHub, Git, model and OIDC calls: their answers, failures and delays are arbitrary parameters of the events.
- SQLite, SQL text, schema upgrades and JSON text: tables are maps, transactions are atomic, JSON is a datatype whose
  objects are either records or dictionaries; key order and number formats are not modelled.
- File system: renames and unlinks are atomic and ordered, file stamps are opaque identities kept by rename; `fsync`
  reordering, permissions, symbolic links and the path checks are not modelled.
- Threads: a tenant container and the manager's threads are values in one state whose critical sections interleave;
  the scheduler's executor, its ticks and their health bookkeeping are not modelled.
- RepositoryRegistry.Registry.Register: others come in between any two statements, but not between the commit of an
  activation and the cache update that follows it; a cached context is compared with the row again before it is used.
- Digits, letters and case: decimal numbers are ASCII (Python's `\d` and `isdigit` accept other digits), repository
  names are held case-folded, lone surrogates do not occur.
- DiffRoundTrip.DiffRoundTripIff: section headings and modes hold none of the other line breaks of `splitlines`; paths
  that are not valid UTF-8, `core.quotePath=false`, submodules and combined diffs are not printed.
- ReceiptGate.GateSafety: snapshot ids and question versions are an injective constructor instead of SHA-256, and the
  random id of a receipt is identified with its unique key.
- SnapshotCodec.StoredPayloadIsStable: the hash is a parameter that is assumed not to collide on the two payloads compared.
- ReceiptGate.GateService.Submit: trimming of request ids and the expiry clock of jobs; expiry is an event of its own.
- ReceiptGate.GradeAnswers: hints and evidence attached to held answers.
- CodeOwners.DeclaredIsSound: patterns with wildcards match arbitrarily, and only the handle test of labels is a parameter.
- PublicationOutbox.Outbox.FlushPublications: which due events the query returns first and how many; any list of due
  events is considered.
- PublicationOutbox.Outbox.RequeueUnverifiedDispatches: which of the stalled dispatches the query selects, twenty at most
  and the oldest first; any list of them is considered.
- PresentationCheck.CheckSafety: the text of the check run, cards, and the cancelling of superseded check runs.
- StagedVerification.PublicationIsEarned: the syntax checks of strings, URLs and times in state files and answers, and
  the deadlines; a malformed answer is a failed one.
- JobTable.IndexAgrees: the identities that may read a job, and the job's result payloads.
- CoverageDashboard.CountMerges: pull request lists of zones and owners; `save_merge` is not modelled, any merge history
  is considered.
- CoverageRows.LoadSeed: reading the file, the shapes of its JSON objects, owner names and pull request lists.
- CoverageRows.Finalize: owner names and pull request lists.
- LegacyOutbox.StagedStore.PlanLegacyOutbox: the validation of the source database before it, and the dry-run counts.
- The model-call limiter of the gateway, `ledger.aggregate`, the organization views, presentation texts, risk scoring,
  symbol discovery, authentication, HTTP routes and command lines: they would add easy members, or depend on Python's
  own parsers and floats.
