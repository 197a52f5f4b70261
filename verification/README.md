# Verification of the control plane's core

A self-contained Dafny project that models the resource ledger, the workspace lifecycle over it, and six smaller
independent cores of the repository, and proves what they keep over all inputs, all runs and all interleavings.
`dafny verify dfyconfig.toml` checks everything.

## How it is built

- **The store and the ledger.** `Store` holds the tables (nodes, allocations, workspaces, audit log, projects), what each
  operation does to them as a function on the value `State`, and the mutable `MemStore`, each of whose methods is one
  atomic step under the store's mutex. `Placement` and `Ledger` rank, probe and reserve. `Conservation` is the law of the
  ledger: a node's used amounts equal the sum over its live allocations. `Projects` adds project deletion, which breaks it.
  `Reservers` interleaves many reservations, split at every store access.
- **The lifecycle.** `App` says what each call does to the store and the container runtime (`World`); `Service` has the
  same calls as methods over the mutable store, ledger and runtime, in the program's order of steps, and proves them equal
  to those functions. `AppInv` and `AppSteps` keep the invariant that a workspace's size is what its live allocation holds;
  `Outcomes`, `Calls`, `Resizes` and `Upkeep` say of every call exactly when it succeeds and what it leaves in every table, in
  terms of statuses, amounts and times written out; `Moves` is the complete table of status moves; `Review`, `ReviewRuns` and `Phases` are about destroy reviews and the
  approval machine; `Budget` about project budgets; `Reconcile` about the clean-up pass.
- **The race.** `Race` splits the provision worker and every destroy run at each store and runtime access, with any number
  of workspaces, one worker for each, any number of destroy runs, and all other calls in between as single steps.
  `RaceWorker`, `RaceDestroyers` and `RaceCalls` show that each kind of step keeps the invariant; `RaceRuns` has the results
  and `RaceLeak` and `RaceExact` what must be excluded, with the exact conditions. `RaceSerial` shows that a worker or destroy
  run that nothing interrupts does what the single call does.
- **Independent cores.** `Limiter` (login limiter against an event-history rule), `Yaml`, `YamlProofs`, `YamlKeys`,
  `YamlKinds` and `Sanitizer` (manifest sanitizing, on tree values and in place on linked nodes), `Status` (namespace status), `Tags` (node tags),
  `Users` (the user table's indexes), `Runtime` (the in-memory container runtime).
- **Witnesses.** `Witnesses` and `RaceWitnesses` have a concrete state or run for every property below that fails without its
  condition.

Clock readings, random identifiers and which of several equally good nodes is taken are parameters. Go maps are visited in
any order. Where a comment in the program promises more than its code does, the model follows the code.

## What does not hold, and exactly when it does

Each point names the lemma with the exact condition and, in brackets, the one with a concrete input.

- Expanding by a negative amount keeps the ledger balanced exactly when no dimension of the allocation would go below zero,
  except one it holds alone on its node (`ExpandConservesExactly`; `OverShrinkWitness`).
- Writing back a node that was deleted meanwhile brings its old used amounts back; the balance then holds exactly when they
  were zero (`UpsertConservesExactly`, `ResurrectedSnapshotBreaksBalance`; `ResurrectedSnapshotWitness`).
- A failing downgrade shrinks the allocation twice; a failed resize restores everything exactly when it was not a downgrade
  (`FailedResizeRestoresExactly`). The second shrink may go past zero and unbalance the ledger (`FailedDowngradeWitness`).
- Rejecting a destroy review restores the status it started from exactly when that was running, or was another operational
  status or failed and fewer than 80 newer entries about the workspace have been logged (`RejectRestoresExactly`;
  `LongReviewWitness`, with 80 logged commands). A review of a requested, provisioning or rejected workspace ends, when
  rejected, in running (`UnrestorableComesBackRunning`; `UnrestorableWitness`), although the comments say that the instance is
  restored or kept.
- An approval that comes between a destroy call's reading of a requested workspace and its first write can leave a live
  reservation that no workspace names, until the next reconciling pass (`ApprovalDuringDestroyLeaks`, `ReconcilingFreesLeak`;
  `LeakWitness`). An approval is free of that exactly when no destroy call stands at that point (`ApprovalIsSafeExactly`), and
  in runs without such an approval every reservation stays with its workspace (`NothingIsLeaked`).
- Stopping or starting a workspace while its worker is still at work leaves it, sooner or later, operational without an active
  allocation or without its instance; a stop or start that succeeds is free of that exactly when the worker is not at work
  (`PowerIsSafeExactly`; `EarlyStartWitness`). Rejecting a review does the same unless the workspace was operational before it,
  or failed is what is restored (`RejectIsSafeExactly`; `EarlyRejectWitness`). `RunningIsActive` is about all runs without such
  calls.
- Of a manifest that names `metadata` or `namespace` more than once, sanitizing rewrites one value only; every namespace in the
  result is the caller's exactly when all the others were already (`EveryNamespaceIsForced`; `TwoNamespacesWitness`).
- Stored tags keep their place in a heartbeat exactly when they are in canonical form, and merging twice equals merging once
  exactly when the merged list is not empty or nothing was stored (`StoredTagsStayPrefix`, `DoubleMergeIsSingle`;
  `RawTagWitness`). Tags that are not canonical get into the store with a node's first heartbeat, which stores them as sent
  (internal/service/service.go:1008-1020, internal/store/memory/memory.go:464-466); whoever edits them normalises first
  (internal/api/admin.go:281, cmd/ha-api/main.go:221).
- Deleting a project keeps the ledger balanced exactly when the project holds nothing live (`DropConservesExactly`;
  `DropProjectWitness`), which is never so when an owner who is no platform admin deletes it with a live workspace
  (`OwnerDeletionLosesUsage`; `OwnerDeletionWitness`).

Three more concern exported functions only, because their callers in the repository never pass the input in question:

- Probing with an empty architecture reports nothing although reserving with it may succeed (`EmptyArchProbe`;
  `EmptyArchWitness`). The only caller refuses an empty architecture (internal/service/availability.go:30-37).
- Updating a user keeps the indexes right exactly when it does not change the e-mail address while asking for a name that
  somebody else has: that update fails with the address index already moved (`UpdateKeepsIndexExactly`; `HalfDoneWitness`). No
  caller changes a name or an address (internal/service/users_admin.go:101-274, cmd/ha-api/main.go:162).
- The project-approval guard lets a request without a phase through, for which the transition table has no edge
  (`ProjectApprovalIsAnEdge`; `NoPhaseWitness`).

## Model

| member | source | states |
|---|---|---|
| Store.MemStore.UpsertNode | internal/store/memory/memory.go:445-469 | a known name keeps id, used amounts, machine type and remark, and merges tags; a new one is stored as given |
| Store.MemStore.DeleteNode | internal/store/memory/memory.go:517-538 | refused while a live allocation is on the node; otherwise the node and its released allocations go, nothing else |
| Store.MemStore.ReserveOnNode | internal/store/memory/memory.go:540-565 | takes the size on a ready node that has it free in every dimension, and records the allocation there; else nothing changes |
| Store.MemStore.ReserveBestNode | internal/store/memory/memory.go:567-616 | succeeds exactly when some node fits, on a fitting node that no fitting node is to be preferred to: more free memory wins, a direct path is worth 1 GiB of it and mains power 1 TiB |
| Store.MemStore.ListNodes | internal/store/memory/memory.go:507-515 | lists every node once |
| Store.MemStore.ActivateAllocation | internal/store/memory/memory.go:618-631 | a live allocation becomes active; a released one is refused |
| Store.MemStore.ReleaseAllocation | internal/store/memory/memory.go:633-663 | gives the size back once and marks the allocation released; repeating it changes nothing |
| Store.MemStore.ExpandAllocation | internal/store/memory/memory.go:676-725 | grows or shrinks a live allocation and its node alike, when the growing dimensions are free |
| Store.MemStore.CreateWorkspace | internal/store/memory/memory.go:727-739 | refused when a workspace of the project that is not destroyed has the name |
| Store.MemStore.UpdateWorkspace | internal/store/memory/memory.go:765-775 | writes a known workspace |
| Store.MemStore.UpdateWorkspaceIfStatus | internal/store/memory/memory.go:777-791 | writes only over the expected status |
| Store.MemStore.AddAudit | internal/store/memory/memory.go:808-822 | appends one entry |
| Store.MemStore.ListAuditByResource | internal/store/memory/memory.go:892-913 | the newest entries about a resource, at most limit of them, newest first |
| Conservation.StepConserves | internal/store/memory/memory.go:445-469 | no legal store step breaks the balance or reaches a clamp |
| Conservation.ConservationOverRuns | internal/store/memory/memory.go:517-725 | at every point of every run a node's used amounts equal the sum over its live allocations, all of which sit on existing nodes |
| Conservation.ClampsNeverFire | internal/store/memory/memory.go:644-656 | no step of any run makes the store clamp an amount to zero |
| Conservation.ExpandConservesExactly | internal/store/memory/memory.go:699-722 | an expansion keeps the balance if and only if no dimension is shrunk below zero, except one held alone |
| Conservation.UpsertConservesExactly | internal/store/memory/memory.go:445-469 | an upsert keeps the balance if and only if the name is known or nothing is reported used |
| Conservation.DeleteNodeConserves | internal/store/memory/memory.go:517-538 | deleting a node keeps the balance of all others |
| Conservation.DeleteNodeExactly | internal/store/memory/memory.go:517-538 | a node is deleted exactly when nothing live is on it, with its released allocations and nothing else |
| Conservation.LiveWithinUsed | internal/store/memory/memory.go:633-663 | a live allocation is never larger than what its node counts as used |
| Conservation.StaleSnapshotConserves | internal/service/health.go:17-65 | a node read before any run of steps and written back after it leaves every used amount alone, unless the node was deleted in between |
| Conservation.ResurrectedSnapshotBreaksBalance | internal/store/memory/memory.go:445-469 | when it was deleted, its old used amounts come back and the balance breaks unless they were zero |
| Conservation.StepNeverOversells | internal/store/memory/memory.go:540-565 | wherever a step raises a used amount, it ends within allocatable |
| Conservation.NeverOversold | internal/store/memory/memory.go:445-469 | when no heartbeat reports less than what is used, used stays within allocatable over every run |
| Tags.NormalizeNodeTags | internal/models/models.go:665-683 | trims and lower-cases, drops empty, long and repeated tags, and stops at 16 |
| Tags.NormalizedIsCanonical | internal/models/models.go:665-683 | the result is canonical, and canonical lists are exactly the fixed points |
| Tags.NormalizedHolds | internal/models/models.go:665-683 | the result holds the trimmed and lower-cased forms of the usable tags and nothing else, and leaves one out only when it has sixteen |
| Tags.DoubleMergeIsSingle | internal/store/memory/memory.go:448-460 | the heartbeat's merge followed by the store's equals one merge if and only if it is not empty or nothing was stored |
| Tags.StoredTagsStayPrefix | internal/service/service.go:1001-1010 | the merged list is canonical, and stored tags are a prefix of it if and only if they are canonical |
| Tags.RepeatedHeartbeatIsNoop | internal/service/service.go:997-1025 | the same heartbeat again changes no tag |
| Models.ResolveSpec | internal/models/models.go:427-442 | a resolved plan is inside the limits, and a custom one has the asked sizes |
| Calls.ResolvesExactly | internal/models/models.go:381-442 | which sizes and plan names are accepted, and what they resolve to, in milli-CPU and bytes |
| Calls.ArchExactly | internal/service/service.go:33-44 | which names mean which architecture |
| Calls.SpecExactly | internal/models/models.go:444-468 | a workspace reports its own size, or its plan's where it has none |
| Placement.RankingAgreesWithBest | internal/ledger/ledger.go:106-158 | the ranked list is empty exactly when the one-pass search finds nothing, and its head is one of its best nodes |
| Placement.BestIsPreferred | internal/store/memory/memory.go:578-601 | the best nodes are exactly the usable ones that no usable node is to be preferred to, by free memory, path and power with the bonuses written out |
| Placement.RankedByPreference | internal/ledger/ledger.go:106-158 | a ranking lists exactly the usable nodes, and nobody is to be preferred to one listed before |
| Placement.RefusalExactly | internal/ledger/ledger.go:78-92 | each reason for finding nothing is given exactly when no node meets that condition |
| Placement.MainsBeforeBattery | internal/store/memory/memory.go:586-601 | with less than 2^40 - 2^30 bytes free everywhere a battery node is chosen only when no mains node fits |
| Placement.FitsDropByOne | internal/ledger/ledger.go:48-72 | placing one copy on a candidate lowers the total by exactly one |
| Placement.FitsCountsCandidates | internal/ledger/ledger.go:48-72 | the total is positive exactly when some node fits |
| Placement.RankedCountIsFits | internal/ledger/ledger.go:48-72 | counting over the ranked candidates gives the total over all nodes |
| Ledger.Service.Scan | internal/ledger/ledger.go:106-144 | keeps exactly the usable nodes, with scores that order them by preference, and notes how far any node got through the filters |
| Ledger.Service.PickCandidates | internal/ledger/ledger.go:106-158 | all usable nodes, each once, nobody to be preferred to one listed before, or the reason why there is none |
| Ledger.Service.CountFits | internal/ledger/ledger.go:48-72 | the number of copies the listed nodes can take, and zero for a size that is not positive |
| Ledger.Service.Probe | internal/ledger/ledger.go:94-104 | changes nothing and reports how often the request fits over all nodes |
| Ledger.Service.TryListed | internal/ledger/ledger.go:200-232 | tries listed, possibly stale, nodes in order and stops at the first that does not lack capacity |
| Ledger.Service.Reserve | internal/ledger/ledger.go:168-233 | succeeds exactly when some node fits, on one that no usable node is to be preferred to; the second way never finds what the first did not |
| Ledger.Service.Release | internal/ledger/ledger.go:235-237 | releases in the store |
| Ledger.Service.Expand | internal/ledger/ledger.go:239-242 | expands in the store |
| Ledger.Service.Shrink | internal/ledger/ledger.go:244-249 | refuses negative amounts, otherwise expands by their negation |
| Ledger.ProbeIsExact | internal/ledger/ledger.go:94-104 | along consecutive successful reservations the reported number drops by exactly one each time, and the next succeeds exactly while it is positive |
| Ledger.EmptyArchProbe | internal/ledger/ledger.go:168-172 | a probe for the empty architecture, which only Reserve normalises, agrees with the normalised one if and only if nothing fits |
| Reservers.AccessIsReservation | internal/ledger/ledger.go:168-233 | each store access of a reserving call leaves the store alone or reserves the wanted size on one node |
| Reservers.UninterruptedReserves | internal/ledger/ledger.go:168-233 | the split call, when nothing comes in between, does what Reserve does: a reservation on a preferred node exactly when some node is usable |
| Reservers.NoOversellUnderConcurrency | internal/ledger/ledger.go:168-233 | in every interleaving no step oversells, a call that returned inserted exactly its allocation, and one that gave up none |
| Reservers.NeverOversoldUnderConcurrency | internal/ledger/ledger.go:168-233 | with heartbeats that do not report less than what is used, used stays within allocatable in every interleaving of the split calls |
| AppSteps.CreateKeepsInv | internal/service/service.go:214-303 | creating keeps the invariant, also when the name is taken after reserving |
| AppSteps.ApproveKeepsInv | internal/service/service.go:431-468 | approving keeps the invariant |
| AppSteps.FinishKeepsInv | internal/service/service.go:355-429 | finishing a provision, in success or failure, keeps the invariant |
| AppSteps.ApproveResizeKeepsInv | internal/service/service.go:562-626 | applying a resize, or rolling back an upgrade, keeps the invariant |
| AppSteps.ExecuteDestroyKeepsInv | internal/service/service.go:833-859 | destroying keeps the invariant |
| AppSteps.DoKeepsInv | internal/service/service.go:214-959 | every operation, except a failing downgrade, keeps the ledger balanced and every workspace's size equal to its live allocation |
| AppSteps.InvOverRuns | internal/service/service.go:494-660 | so does every run of operations |
| AppSteps.SpecEqualsAllocation | internal/models/models.go:444-468 | at every point of every run the size a workspace reports is that of its live allocation |
| AppSteps.ResizeClampsIdle | internal/store/memory/memory.go:699-722 | neither applying a resize nor rolling back an upgrade reaches a clamp of the store |
| AppSteps.ExpandRoundTrip | internal/service/service.go:608-616 | expanding and expanding back by the same amount restores the whole store |
| AppSteps.FailedResizeRestoresExactly | internal/service/service.go:608-616 | a resize that the runtime refuses restores everything if and only if it was not a downgrade |
| Calls.CreateExactly | internal/service/service.go:214-303 | creating succeeds exactly with a role, a purpose, an allowed size, a known architecture, room in the budget, a free name and, for approvers, a preferred node; what workspace, allocation and node then are |
| Calls.ApproveExactly | internal/service/service.go:431-468 | an approval succeeds exactly for a requested workspace that fits; it then holds a reservation of its own size on a preferred node |
| Calls.RejectExactly | internal/service/service.go:470-492 | exactly project admins reject exactly what is requested |
| Outcomes.ProvisionOutcome | internal/service/service.go:355-429 | a provision ends running, with an active allocation and a running instance; or failed, with the reservation given back to its node; or, found in another state, without instance and reservation and otherwise as it was |
| Resizes.ApproveResizeExactly | internal/service/service.go:562-626 | a resize is applied exactly when it is pending, approved by an admin, within budget and free capacity, and the runtime goes along; workspace, allocation and node then change by the same difference |
| Resizes.RequestResizeExactly | internal/service/service.go:494-555 | a resize is recorded exactly when it may be asked for; an admin's upgrade goes on to its approval |
| Resizes.RejectResizeExactly | internal/service/service.go:628-660 | exactly a pending resize is rejected, and then forgotten |
| Resizes.ClassifyExactly | internal/service/service.go:1075-1091 | a resize goes up or down in every dimension, and not both |
| Outcomes.DestroyOutcome | internal/service/service.go:833-859 | afterwards the workspace is destroyed, its instance gone and its reservation given back to its node; every other workspace, allocation, node and instance is as before |
| Outcomes.AdminRequestDestroys | internal/service/service.go:665-690 | a platform admin's request destroys so exactly what is neither gone nor under review |
| Outcomes.PlatformApprovalDestroys | internal/service/service.go:754-766 | the platform's approval destroys so exactly what is pending there |
| Outcomes.ForceDestroys | internal/service/service.go:862-871 | a platform admin may so destroy anything; everybody else only asks |
| Upkeep.AskingExactly | internal/service/service.go:665-719 | who may ask for which destruction, where the request goes, that a sleeping instance is started, and that the log keeps the status |
| Upkeep.PassingOnExactly | internal/service/service.go:722-751 | a project admin passes exactly a project's request on to the platform |
| Upkeep.StopExactly | internal/service/service.go:889-919 | who may stop what; the instance then stands still |
| Upkeep.StartExactly | internal/service/service.go:921-958 | who may start what; the instance then runs |
| Upkeep.WakeExactly | internal/service/idle.go:99-113 | exactly suspended and stopped workspaces with an instance are woken |
| Upkeep.SuspendExactly | internal/service/idle.go:25-96 | exactly the workspaces that run, have an instance and have been idle for their hours are suspended |
| Upkeep.HealthExactly | internal/service/workspace_health.go:61-97 | what each health of a node, or its absence, makes of each status |
| Upkeep.FailStuckExactly | internal/service/provision.go:60-93 | exactly what has been provisioning for twenty minutes fails, without its instance and its reservation |
| Moves.ExecuteDestroyTouches | internal/service/service.go:833-859 | a destroy run ends in destroyed and writes no other workspace |
| Moves.RequestDestroyTouches | internal/service/service.go:665-719 | asking for destruction moves to where the asker's role says, and only from outside a review |
| Moves.FinishTouches | internal/service/service.go:355-429 | a finished provision moves provisioning to running or failed, and nothing else |
| Moves.EveryMoveIsAllowed | internal/models/models.go:514-569 | the table of status moves is complete: no operation moves any status in another way, and only creating adds workspaces |
| Review.LimitedSearch | internal/store/memory/memory.go:892-913 | searching the newest entries finds the newest destroy request exactly when it is among them |
| Review.RestoredFromLog | internal/service/service.go:798-811 | a rejection restores what the newest request recorded if it is among the newest 80 entries, else running |
| Review.NewestExactly | internal/store/memory/memory.go:892-913 | the listed entries are the newest of all those about the resource, in that order |
| ReviewRuns.ReviewIsStable | internal/models/models.go:514-535 | while a review is in flight only an approver's decision changes the status; no other operation does |
| ReviewRuns.AskingLogsOrigin | internal/service/service.go:683-718 | entering a review logs the status it started from as the newest request |
| ReviewRuns.ReviewRemembersOrigin | internal/service/service.go:665-719 | at every point of a review the newest request records the status from before it |
| ReviewRuns.RejectRestoresExactly | internal/service/service.go:769-823 | after a rejection the workspace is stopped, degraded, suspended, lost or failed exactly if it was so before the review and fewer than 80 newer entries are logged, and running otherwise |
| ReviewRuns.RejectionWrites | internal/service/service.go:769-796 | who may reject which review; a rejection writes nothing but the status, a refused one nothing at all |
| ReviewRuns.UnrestorableComesBackRunning | internal/models/models.go:262-269 | a review of a requested, provisioning or rejected workspace ends, rejected, in running |
| Phases.DoneNeedsPlatform | internal/approval/machine.go:43-59 | on every path of the machine a destroy request that is done was pending at the platform |
| Phases.TransitionsExactly | internal/approval/machine.go:43-59 | the transitions that there are |
| Phases.PlatformGuardsExactly | internal/approval/types.go:21-28 | every complete path of a kind passes the platform if and only if the kind is dangerous |
| Phases.OperationsFollowMachine | internal/approval/machine.go:6-59 | every operation moves a destroy request along a path of the machine, possibly several edges at once |
| Phases.RequestFollowsMachine | internal/service/service.go:665-871 | over whole runs the phases of any destroy request form a path of the machine from no phase on, end refused or where the workspace's status says, and pass the platform before done |
| Phases.OnlyPlatformDestroys | internal/service/service.go:665-796 | only a platform admin's call makes a workspace destroying or destroyed |
| Phases.DestructionNeedsPlatformAdmin | internal/service/service.go:862-871 | over whole runs a workspace that is gone was destroyed at some step by a platform admin, who approved it while it was pending at the platform, or asked for it outside a review, or forced it |
| Phases.PendingWasPassedOn | internal/service/service.go:683-751 | whatever is pending at the platform was passed on by an approver of the project at some step and has stayed there since |
| Phases.TwoApprovals | internal/service/service.go:722-766 | a workspace destroyed by the platform's approval had an approver of the project pass it on before |
| Budget.HeldChanges | internal/service/extra.go:150-168 | when one workspace and its allocation change, the project's use changes by exactly its share |
| Budget.GivenBack | internal/service/service.go:298-301 | a reservation that is given back leaves all nodes and every project's use as they were |
| Budget.CreateUsesExactly | internal/service/service.go:256-303 | creating adds exactly the resolved size for admins, nothing for developers, and nothing at all on failure |
| Budget.ApproveUsesExactly | internal/service/service.go:431-468 | approving adds exactly the workspace's size |
| Budget.ResizeUsesExactly | internal/service/service.go:562-626 | an approved resize changes the use by exactly the difference; a failed one changes nothing |
| Budget.EveryOpStaysInBudget | internal/service/extra.go:126-148 | no operation pushes any project above a budgeted dimension |
| Budget.BudgetHoldsOverRuns | internal/service/extra.go:126-168 | a project within its budget stays within it over every run |
| Calls.BudgetAcceptsExactly | internal/service/extra.go:126-148 | an amount is accepted exactly when in no budgeted dimension it and what is used exceed the budget |
| Calls.UsedIsReportedSizes | internal/service/extra.go:150-168 | what is used is the sum of the sizes that the project's workspaces with a live allocation report |
| Reconcile.ReconcileReleasesExactly | internal/service/extra.go:285-312 | from any balanced ledger a pass releases exactly the live allocations that nobody needs, because no workspace names them or their workspaces are destroyed or failed, or whose owner is stuck, fails exactly the stuck workspaces, and keeps the balance |
| Reconcile.AfterwardsAllOwned | internal/service/extra.go:295-308 | afterwards every live allocation has an owner that is not destroyed, failed or stuck |
| Reconcile.SecondPassIsIdle | internal/service/extra.go:285-312 | a second pass changes nothing |
| Reconcile.FailedOwnerIsReleased | internal/service/extra.go:298-309 | with one owner at most, a destroyed or failed workspace holds nothing live afterwards |
| Reconcile.ReconcileKeepsInv | internal/service/extra.go:285-312 | a pass keeps the invariant of the lifecycle |
| Reconcile.ReconcileOutcome | internal/service/extra.go:285-312 | every workspace, allocation, node and instance after a pass: exactly the stuck workspaces have failed and lost their instances, exactly the allocations that no workspace needs are released |
| Projects.DropConservesExactly | internal/store/memory/memory.go:331-365 | deleting a project keeps the balance if and only if it holds nothing live |
| Projects.DropExactly | internal/store/memory/memory.go:331-365 | exactly the project, its workspaces and its allocations go |
| Projects.OwnerDeletionLosesUsage | internal/service/extra.go:96-124 | deletion by an owner who is no platform admin drops a live workspace without giving its usage back |
| Projects.NeverUncovered | internal/store/memory/memory.go:353-357 | with project deletion among the steps, live allocations never hold more than their node counts |
| RaceWorker.WorkerKeepsInv | internal/service/provision.go:37-58 | every step of a worker keeps the race invariant |
| RaceWorker.WorkerCommits | internal/service/service.go:343-353 | a compare-and-set away from provisioning keeps it, won or lost |
| RaceWorker.ActivateStep | internal/service/service.go:405-408 | activation succeeds exactly when the reservation is still live |
| RaceDestroyers.DestroyerKeepsInv | internal/service/service.go:833-859 | every step of a destroy run keeps it |
| RaceCalls.QuietCallKeepsInv | internal/service/service.go:769-959 | every call that only moves a status keeps it, in one step, including harmless rejections of reviews and stopping and starting when the worker is not at work |
| RaceCalls.FailStuckKeepsRace | internal/service/provision.go:70-92 | failing a stuck workspace keeps it |
| RaceCalls.OrphanKeepsRace | internal/service/extra.go:299-308 | releasing an orphaned allocation keeps it |
| RaceCalls.CreateKeepsRace | internal/service/service.go:281-303 | creating, with its worker, keeps it |
| RaceCalls.ApproveKeepsRace | internal/service/service.go:431-468 | approving keeps it, when no destroy call has just read the workspace |
| RaceRuns.RaceInvOverRuns | internal/service/service.go:336-429 | the invariant holds in every interleaving |
| RaceRuns.RunningIsActive | internal/service/service.go:405-428 | in every interleaving running (stopped, suspended, degraded, lost) means an active allocation and an instance, and provisioning a live reservation |
| RaceRuns.GoneIsForever | internal/service/service.go:386-395 | in every interleaving destroying or destroyed is never left for another status |
| RaceRuns.NothingIsLeaked | internal/service/service.go:833-859 | in every interleaving a provisioned reservation stays with its workspace and does not leak; when all have finished, nothing is destroying, and of whatever is destroyed or failed neither the allocation nor the worker's reservation is live and there is no instance |
| RaceRuns.WorkersFinish | internal/service/provision.go:37-58 | each of its own steps brings a worker closer to its end |
| RaceRuns.DestroyersFinish | internal/service/service.go:833-859 | each of its own steps brings a destroy run exactly one step closer to its end |
| RaceSerial.WorkerAloneFinishes | internal/service/service.go:355-429 | from its launch on, a worker that nothing interrupts leaves the same store and instances as FinishProvision |
| RaceSerial.DestroyerAloneDestroys | internal/service/service.go:833-859 | a destroy run that nothing interrupts leaves the same store and instances as ExecuteDestroy |
| RaceLeak.ApprovalDuringDestroyLeaks | internal/service/service.go:449-468 | an approval between a destroy call's reading and its first write leads, in six further permitted steps, to a live reservation that no workspace names |
| RaceLeak.ApprovalIsSafeExactly | internal/service/service.go:431-468 | a successful approval's reservation leaks in no permitted continuation if and only if no destroy call stands between reading and writing the workspace |
| RaceLeak.ReconcilingFreesLeak | internal/service/extra.go:299-308 | a reconciling pass releases what leaked |
| RaceExact.PowerIsSafeExactly | internal/service/service.go:889-958 | after a successful stop or start the workspace stays operational only with an active allocation and an instance, in every permitted continuation, if and only if its worker was not at work |
| RaceExact.RejectIsSafeExactly | internal/service/service.go:769-823 | after a successful rejection so does it, if and only if the workspace was operational before the review, or failed is what is restored |
| RaceWitnesses.LeakWitness | internal/service/service.go:449-468 | a reachable state in which an approval succeeds and can leak |
| RaceWitnesses.EarlyStartWitness | internal/service/service.go:921-958 | starting a launched, still provisioning workspace makes it run on an inactive allocation |
| RaceWitnesses.EarlyRejectWitness | internal/service/service.go:798-823 | rejecting a review begun while provisioning does too |
| Runtime.MemoryRuntime.Launch | internal/workspace/runtime.go:51-66 | a launch adds a running instance on a new port, with its keys and with a host key that depends on workspace and node only; a failing one leaves nothing |
| Runtime.MemoryRuntime.Stop | internal/workspace/runtime.go:68-78 | an instance stops; a missing one is an error |
| Runtime.MemoryRuntime.Start | internal/workspace/runtime.go:80-90 | an instance starts; a missing one is an error |
| Runtime.MemoryRuntime.Destroy | internal/workspace/runtime.go:92-98 | the instance and its keys are gone |
| Runtime.MemoryRuntime.Resize | internal/workspace/runtime.go:100-107 | fails without an instance, changes nothing |
| Runtime.MemoryRuntime.SyncKeys | internal/workspace/runtime.go:127-135 | replaces the keys of an instance |
| Service.Application.RequireReady | internal/service/service.go:190-199 | membership, then the project, then its purpose |
| Service.Application.ProjectUsed | internal/service/extra.go:150-168 | the sum of what the project's budgeted workspaces hold live |
| Service.Application.CheckProjectBudget | internal/service/extra.go:126-148 | refuses what exceeds a budgeted dimension |
| Service.Application.RequestWorkspace | internal/service/service.go:256-279 | stores a requested workspace without an allocation |
| Service.Application.ProvisionNewWorkspace | internal/service/service.go:281-303 | reserves, stores the workspace, and gives back when the name is taken |
| Service.Application.CreateWorkspace | internal/service/service.go:214-254 | readiness, plan, architecture and budget are checked in that order; admins get a provisioning workspace with a reservation on a best node, developers a requested one, and every refusal leaves nodes and workspaces alone |
| Service.Application.ApproveWorkspace | internal/service/service.go:431-468 | a requested workspace gets a reservation of its own size on a best node and becomes provisioning there; every refusal changes nothing |
| Service.Application.RejectWorkspace | internal/service/service.go:470-492 | a requested workspace is rejected by a project admin |
| Service.Application.DropAbortedProvision | internal/service/service.go:336-341 | removes the instance and releases the allocation |
| Service.Application.CommitProvisioningStatus | internal/service/service.go:343-353 | writes over provisioning only; the loser removes the instance |
| Service.Application.FinishProvision | internal/service/service.go:355-429 | a successful launch ends in running with an active allocation and a running instance, a failed one in failed with the size given back to the node, and a workspace found in another status loses instance and reservation and keeps its status |
| Service.Application.ApplyResize | internal/service/service.go:595-626 | ledger, runtime and rollback, including the second shrink after a failed downgrade |
| Service.Application.ApproveResize | internal/service/service.go:562-626 | a pending resize moves ledger and workspace by the same difference, or reports why not; a downgrade that would grow anything is refused |
| Service.Application.RequestResize | internal/service/service.go:494-555 | records the wish, and applies an admin's upgrade at once |
| Service.Application.RejectResize | internal/service/service.go:628-660 | clears the pending resize |
| Service.Application.ExecuteDestroy | internal/service/service.go:833-859 | marks, removes the instance, releases, marks destroyed and logs; afterwards the instance is gone, the size is given back and nothing else has changed |
| Service.Application.EnsureGuestRunningForDestroyReview | internal/service/service.go:873-887 | starts the instance of a stopped or suspended workspace |
| Service.Application.RequestDestroyWorkspace | internal/service/service.go:665-719 | destroys for platform admins, otherwise enters the review that the role calls for |
| Service.Application.ApproveDestroyProject | internal/service/service.go:722-751 | passes a request on to the platform |
| Service.Application.ApproveDestroyPlatform | internal/service/service.go:754-766 | destroys what is pending at the platform, for platform admins only |
| Service.Application.RestoreAfterDestroyReject | internal/service/service.go:798-823 | restores what the newest 80 entries say |
| Service.Application.RejectDestroyProject | internal/service/service.go:769-781 | restores a request, for project admins |
| Service.Application.RejectDestroyPlatform | internal/service/service.go:784-796 | restores a pending request, for platform admins |
| Service.Application.DestroyWorkspace | internal/service/service.go:862-871 | forces for platform admins, asks for everybody else |
| Service.Application.StopWorkspace | internal/service/service.go:889-919 | stops outside reviews and closed statuses |
| Service.Application.StartWorkspace | internal/service/service.go:921-958 | starts outside reviews and closed statuses |
| Service.Application.WakeWorkspaceIfSuspended | internal/service/idle.go:99-113 | wakes a suspended or stopped workspace |
| Service.Application.IsIdle | internal/service/idle.go:25-78 | whether a running workspace has been idle for its threshold |
| Service.Application.SuspendIdleWorkspaces | internal/service/idle.go:49-96 | suspends every idle workspace, one after the other, and counts exactly those |
| Service.Application.HealthOf | internal/service/workspace_health.go:61-97 | the status that a node's health implies for a workspace |
| Service.Application.ReconcileWorkspaceHealth | internal/service/workspace_health.go:55-114 | gives every workspace the status its node implies, and counts exactly those that moved |
| Service.Application.RefreshNodeHealth | internal/service/health.go:17-65 | ages every worker node by its heartbeat, then checks workspaces, and counts degraded and offline nodes exactly |
| Service.Application.ReconcileStuckProvisioning | internal/service/provision.go:60-93 | fails every stuck workspace, one after the other, and counts exactly those |
| Service.Application.ReleaseAndFail | internal/service/extra.go:285-316 | is one reconciling pass, and counts exactly what it released and failed |
| Service.Application.OwnersByAllocation | internal/service/extra.go:294-297 | maps every allocation that a workspace names to a workspace that names it |
| Service.Application.ReleaseIfOrphan | internal/service/extra.go:298-309 | releases a live allocation exactly when no workspace needs it |
| Service.Application.Reconcile | internal/service/extra.go:285-321 | a reconciling pass, then a refresh of node and workspace health |
| Service.Application.Heartbeat | internal/service/service.go:997-1025 | registers the node as ready and healthy with merged tags and unchanged used amounts |
| Service.HeartbeatExactly | internal/service/service.go:997-1025 | a heartbeat makes its node ready and healthy as of now; what is used there, its id and what admins set stays |
| Service.NodeAgesExactly | internal/service/health.go:17-65 | a worker node is ready exactly when heard of in the last 90 seconds, and offline after 180 |
| Service.CheckedExactly | internal/service/workspace_health.go:55-114 | checking all workspaces is checking each of them |
| Service.OrphanByOwner | internal/service/extra.go:294-303 | with one owner at most, the looked-up owner decides whether anybody needs an allocation |
| Limiter.LoginLimiter.Allow | internal/api/ratelimit.go:39-56 | answers by lock, window and count, and forgets an entry outside the window |
| Limiter.LoginLimiter.RecordFailure | internal/api/ratelimit.go:58-76 | counts a failure, starting over outside the window, and locks at five |
| Limiter.LoginLimiter.RecordSuccess | internal/api/ratelimit.go:78-82 | forgets the key |
| Limiter.BurstAtLeast | internal/api/ratelimit.go:28-33 | a burst has at least k failures exactly when the last k follow each other within the window |
| Limiter.KeysSeparate | internal/api/ratelimit.go:35-37 | two logins count together exactly when address and name are the same but for case and blanks |
| Limiter.TableReflectsHistory | internal/api/ratelimit.go:39-82 | the table always says of every key what its history of failures says |
| Limiter.LimiterFollowsHistory | internal/api/ratelimit.go:39-82 | for every history under a monotone clock a login is refused exactly when the current burst has five failures and its last is in the window |
| Limiter.LockNeverMatters | internal/api/ratelimit.go:48-50 | the lock never changes an answer |
| YamlProofs.NamespaceIsForced | internal/k8s/validate.go:119-126 | the first namespace in the first metadata is the caller's, and kind and name are what they were |
| YamlKeys.EveryNamespaceIsForced | internal/k8s/validate.go:208-249 | every namespace in the result is the caller's if and only if all values under repeated keys were already; so whenever each key occurs once |
| YamlProofs.PullSecretIsPresent | internal/k8s/validate.go:141-195 | where the kind's way leads to a pod template, it is still there and names the pull secret, with at most one entry added |
| YamlKinds.RegistryByKind | internal/k8s/validate.go:147-169 | the pull secret is named in the spec of a pod, in the template's spec of deployments, stateful, daemon and replica sets and jobs, and in the job template's template's spec of cron jobs; every other kind only gets its namespace |
| YamlKinds.RefusedExactly | internal/k8s/validate.go:104-118 | which manifests are accepted, and why others are refused, with the cluster-wide kinds listed |
| YamlProofs.AtMostOneEntry | internal/k8s/validate.go:171-195 | one entry is added exactly when none named the secret |
| YamlProofs.SanitizeIsIdempotent | internal/k8s/validate.go:99-139 | sanitizing again changes nothing |
| YamlProofs.NothingElseChanges | internal/k8s/validate.go:99-249 | every node is still there, at its place, with its kind, tag and value, except the namespace |
| YamlProofs.OnlyMissingPartsAreAdded | internal/k8s/validate.go:171-249 | the number of nodes grows by exactly the missing parts |
| YamlProofs.SetStringKeepsOthers | internal/k8s/validate.go:233-249 | setting one key changes what no other key reads as |
| Sanitizer.MappingString | internal/k8s/validate.go:221-231 | the trimmed value under the first such key |
| Sanitizer.MappingChild | internal/k8s/validate.go:197-219 | the first value of the wanted kind under a key |
| Sanitizer.SetMappingString | internal/k8s/validate.go:233-249 | in place: overwrites the first value under a key, or appends a pair |
| Sanitizer.EnsureImagePullSecret | internal/k8s/validate.go:171-195 | in place: adds the list and the entry that are missing |
| Sanitizer.NamesSecret | internal/k8s/validate.go:183-187 | whether an entry names the secret |
| Sanitizer.PodSpec | internal/k8s/validate.go:147-169 | the pod template of each kind |
| Sanitizer.InjectImagePullSecret | internal/k8s/validate.go:141-145 | in place: ensures the secret in the pod template |
| Sanitizer.SanitizeMapping | internal/k8s/validate.go:104-127 | checks everything, then writes exactly what the tree function describes |
| Sanitizer.SanitizeDocument | internal/k8s/validate.go:99-139 | refuses or sanitizes a document in place, touching nothing when it refuses |
| Status.NamespaceStatus.FinalizeStatus | internal/k8s/status.go:415-523 | sorts deployments, replica sets, pods, services and resources, counts pods and ready deployments, marks exactly the stale warning events, counts the others, and puts every line into the list that its staleness says |
| Status.NamespaceStatus.EventIsStale | internal/k8s/status.go:540-584 | judges a warning by the first object with its name, or by everything when it names none |
| Status.NamespaceStatus.LookAtPod | internal/k8s/status.go:487-506 | one pod is counted once and said once |
| Status.PodsAreCounted | internal/k8s/status.go:487-506 | running, pending and failed pods and those succeeded or without a phase are all pods |
| Status.ListsClassify | internal/k8s/status.go:456-472 | no duplicates, no text in both lists, every text in one, and the first line with a text decides which |
| Status.EveryWarningIsListed | internal/k8s/status.go:507-521 | every warning event's line ends up in exactly one of warnings and history |
| Status.StaleExactly | internal/k8s/status.go:540-584 | which warnings are history, by the first object with the name or by everything |
| Status.PodExactly | internal/k8s/status.go:487-506 | which counter each phase of a pod belongs to, and when there is a warning about it |
| Status.DeploymentExactly | internal/k8s/status.go:475-486 | when a deployment counts as ready, and which warnings there are about it |
| Status.SortedExactly | internal/k8s/status.go:440-453 | newest generations first, resources by kind and name, everything else by name |
| Status.EventLineExactly | internal/k8s/status.go:529-538 | what a warning event's line says |
| Users.UserStore.CreateUser | internal/store/memory/memory.go:134-151 | stores a user whose lower-cased name and address are both new |
| Users.UserStore.UpdateUser | internal/store/memory/memory.go:199-230 | moves the address index, then the name index, then writes the user |
| Users.CreateKeepsIndex | internal/store/memory/memory.go:134-151 | creating keeps both indexes right |
| Users.CreateExactly | internal/store/memory/memory.go:134-151 | while the indexes are right, a user with an address is accepted exactly when name and address are new but for case |
| Users.UpdateExactly | internal/store/memory/memory.go:199-230 | likewise an update, exactly when nobody else has them |
| Users.UpdateKeepsIndexExactly | internal/store/memory/memory.go:199-230 | updating keeps them right if and only if it does not change the address while the wanted name is taken |
| Users.LookupsAreExact | internal/store/memory/memory.go:164-184 | while they are right, both lookups find exactly the user with that name or address |
| Witnesses.OverShrinkWitness | internal/store/memory/memory.go:699-722 | a shrink that unbalances a ledger of one node and two reservations |
| Witnesses.ResurrectedSnapshotWitness | internal/service/health.go:17-65 | a node deleted after its reservation was released, and written back as it was read before |
| Witnesses.DropProjectWitness | internal/store/memory/memory.go:331-365 | deleting the project of both reservations unbalances it |
| Witnesses.EmptyArchWitness | internal/ledger/ledger.go:94-104 | one node that a probe for the empty architecture misses |
| Witnesses.FailedDowngradeWitness | internal/service/service.go:608-616 | a failed downgrade from 1000 to 100 milli-CPU that unbalances the ledger |
| Witnesses.OwnerDeletionWitness | internal/service/extra.go:96-124 | an owner's deletion that does |
| Witnesses.LongReviewWitness | internal/service/service.go:798-811 | a run in which a degraded workspace's review is to be rejected into running after 80 logged commands |
| Witnesses.UnrestorableWitness | internal/models/models.go:262-269 | a requested workspace that a rejected review leaves running without an allocation |
| Witnesses.RawTagWitness | internal/store/memory/memory.go:464-466 | a first heartbeat's tag that is stored as sent and that the next one does not keep, and a blank stored tag that one merge drops and two keep |
| Witnesses.HalfDoneWitness | internal/store/memory/memory.go:199-230 | two users and an update that breaks the address index |
| Witnesses.TwoNamespacesWitness | internal/k8s/validate.go:233-249 | a manifest with two namespaces, of which the second stays |

## Left out

- 64-bit wrap-around of amounts: amounts are unbounded integers; the program's sizes are limited to 32 CPUs, 64 GiB and 500 GiB per workspace.
- The Kubernetes branch of provisioning and destroying, and remote agents, kubectl, SSH and ingress: foreign calls; the runtime is the in-memory one.
- Authentication, sessions, invitations, membership changes and HTTP handling: they would add only easy members; a caller is an identity, a platform role and a rank in the project.
- Postgres storage, and saving and loading snapshots: SQL and file input and output.
- Audit entries carry only the resource, the workspace named in their meta data, the action and the recorded status; names, times and sequence numbers are not part of this model.
- Trimming and lower-casing work on ASCII text only.
- Ports, host keys and runtime references as fields of a workspace record: written together with the status and never read by the modelled code; the instance's own are in `Runtime`, the digest of a host key standing for what it is a digest of. ProbeWorkspaceExecs, which health refreshing ends with, only runs commands in guests.
- The name of a running instance's keys is a parameter of the calls that push them.
- Context cancellation of a worker appears as a failing launch.
- UpdateNodeMeta and the other table operations without a bearing on the ledger: they would add only easy members.
- App.Reserve: the independent size parameters of ReserveBestNode are those of the allocation, as in all callers.
- Store.MemStore.AddAudit: an entry's sequence number, time and address are not part of this model; nothing modelled reads them.
- RaceCalls.QuietCallKeepsInv: covers stopping and starting only when the workspace's worker is not at work, and rejecting a review only when that is harmless; `RaceExact.PowerIsSafeExactly` and `RaceExact.RejectIsSafeExactly` show that these are exactly the ones to exclude. Resizes appear as steps of the ledger.
- RaceCalls.ApproveKeepsRace: not for approvals while a destroy call has read the workspace and not yet written it; `RaceLeak.ApprovalIsSafeExactly` shows that these are exactly the ones to exclude.
- AppSteps.DoKeepsInv: does not cover a downgrade that the runtime refuses, which breaks the equality of sizes; FailedResizeRestoresExactly says what it leaves.
- Conservation.StepConserves: project deletion is not among its steps, because it breaks the law; Projects states what survives.
- Reservers.NoOversellUnderConcurrency: nobody releases or expands an allocation whose call has not returned yet; otherwise a call could report an error after inserting.
- Sanitizer.SanitizeDocument: parsing and printing are library code. Mappings are assumed to pair keys with values in the results of YamlProofs, which the parser guarantees; aliases are leaves, so what an alias of a rewritten namespace node stands for is not followed.
- Status.NamespaceStatus.FinalizeStatus: the quota and those fields of the listed objects that are only passed through.
- The wording of reasons and errors beyond the cases that callers can tell apart.
