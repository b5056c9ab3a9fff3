# Kairon reconcilers: model and proofs

Kairon runs virtual machines on Kubernetes. A controller and one agent per node bring
Machines, migrations, policies, snapshots, pools and quotas to their specified state by
small repeated steps; FluxVM on each node holds the virtual machines. Every call to the
API server, to FluxVM or to a peer may fail, and some answers may be lost after the call
took effect. This project models that logic in Dafny and proves what survives every run,
every interleaving and every failure, or, where a promise does not hold, the exact
condition under which it does.

Each area has modules of values, specification functions and theorems, and, where the
program works by changing things step by step, a module of methods proved against those
functions.

| files | area |
|---|---|
| `Migration`, `MigrationSafety`, `MigrationCold`, `MigrationLimits`, `MigrationAgents` | one Machine's migration: controller, source agent, target agent, peer and operator |
| `MigrationCaps`, `MigrationCapsSafety`, `MigrationLoad` | concurrency caps over many migrations |
| `NetworkPolicy`, `NetworkOutcome`, `NetworkFleet`, `NetworkAgent` | the network tick of one node, and several nodes on one policy |
| `ServiceFabric`, `FabricMembership`, `FabricAgent` | Service Fabric membership |
| `Quiesce`, `QuiesceSafety`, `SnapshotController` | guest freeze and thaw around snapshots |
| `MachineSet`, `MachineSetController` | MachineSet rollout |
| `Claims`, `ClaimStore`, `ClaimSafety`, `ClaimTick`, `Pools`, `PoolController`, `Sorting` | claims and warm pools |
| `Disks`, `DiskLaws`, `DiskAgent` | disk attach, detach, publish, unpublish |
| `Quota`, `QuotaController`, `Disruption`, `DisruptionLaws`, `DisruptionController` | admission arithmetic |
| `Hotplug`, `HotplugLaws`, `HotplugRuns`, `HotplugAgent` | CPU and memory growth |
| `AuditLog`, `AuditLaws`, `AuditFile`, `Baseline`, `BaselineLaws`, `BaselineMonitor`, `Conversion`, `AuthParams` | self-contained algorithms |
| `Options` | optional values, and what a JSON merge patch leaves stored |

`dafny verify dfyconfig.toml` checks the whole project.

## How the model reads the program

- A reconcile of one object is one atomic step; steps of all processes interleave freely.
  Within a controller tick over many migrations, and between controllers binding pool
  members, listings may be stale; elsewhere a reconcile reads what is stored.
- Outcomes a step cannot decide (an API write, a FluxVM call, a peer's answer, a timeout,
  a scheduler's choice) are fields of the step's environment, and the theorems hold for
  all their values unless a hypothesis says otherwise.
- When a reconcile ends in an error, its caller's status write of Failed or Error is part
  of the same step and may be lost too.
- A Machine has one non-terminal migration; the destination is a register of one session
  that is prepared, committed or aborted, and whose Commit may be applied with the answer
  lost. The `lost` flag records that some status write did not land.
- FluxVM does what a successful call says; a failed one changes nothing. A call about a
  runtime or service that is gone is tolerated where the client tolerates it.
- Status is written by JSON merge patch, and most list fields are omitted when empty, so
  an empty list never clears a stored one. `Options.MergePatchList` says this, and several
  results depend on it.
- Names are numbers with zero for the empty one; label selectors are the sets of label
  sets they match; the deny-list merge, the hash, the record encoding, the lower-casing and
  the desired-healthy computation are function parameters.
- Integers are unbounded except quota totals, which wrap at 32 and 64 bits as they do in
  the program. The baseline is over the reals.

## Where the program falls short of its comments

Each of these has its exact condition and a concrete input.

- A Cancelled migration still counts as in flight for the agent, so its Machine cannot be
  deleted while the migration object exists (`DeletionProceedsIff`, `CancelledNeverDeleted`).
- A live migration that ends short of its commit leaves the source network quiesced, for as
  long as that runtime exists, unless it is cancelled with a recorded runtime, gives up
  after Prepare succeeded, or is polled as stopped (`EndLeavesQuiesced`,
  `EndedStaysQuiesced`, `LeftQuiesced`).
- Every node writes its own names over a policy's one list of applied Machines, so a guest
  the policy drops keeps its rules once another node has written the list
  (`DroppedResetIff`, `OtherNodeForgets`); and the first node to see a deleting policy
  removes it, whatever the guests of other nodes hold (`VanishesCleanIff`, `VanishesEarly`).
- A deleting network policy listed after a current one resets a guest both select
  (`LaterDeletionWins`, `DeletionOrderMatters`), and a guest that is paused loses the rules
  of the one policy that selects it (`NotRunningTick`, `PausedLosesRules`).
- Service Fabric's returned list is not the whole truth after a partial failure
  (`RecoversFromPartialFailure`, `PartialFailureLeaks`, `PruneFailureLeaks`), and the stored
  list is never cleared, so it keeps retracting an address somebody else may have reused
  (`ListedAddressReused`, `AddressReusedTaken`).
- A snapshot leaves Thawing with the guest still frozen when what it names stops resolving,
  when the guest agent is switched off, or when a failed deletion is recorded
  (`FreezeThawSafety`, `ThawingLeftFrozenIff`, `ThawingFailsFrozen`,
  `SwitchedOffSucceedsFrozen`).
- The thaw is asked for only by a pass that made a volume snapshot, and an error outside
  Atlas leaves the guest frozen until the snapshot is deleted (`ThawAskedIffCreated`,
  `NothingMadeStaysFrozen`, `ErrorWhileFrozen`, `ErrorFailsFrozen`, `AbandonedRun`).
- With the guest agent switched off, or the Machine paused, a frozen guest stays frozen, and
  a snapshot that holds it cannot be deleted (`OffStaysFrozen`, `DeletionCompletes`).
- A claim whose status write is lost takes a second Machine (`LostStatusBindsAgain`,
  `LostStatusTakesTwo`).
- The last disk volume record is never cleared, and a recorded disk is attached without
  being published (`LastRecordLingers`, `PublishedIffUnrecorded`, `ReattachedUnpublished`,
  `ReattachedExample`).
- The resize check can deny a shrink (`ShrinkStillDenied`, `ShrinkDeniedExample`), and a
  total that wraps can be admitted past its limit (`PassStaysWithin`, `OverflowAdmits`). A
  Machine refused its CPU set stays charged for the pass (`PassIsRebuildIff`,
  `RefusedPinStaysCharged`).
- Disruption budgets count Machines of every namespace, a scale-down reserves only for the
  budget's own (`ReserveCoversIff`, `ForeignMachineUncovered`).
- A restart does not reach the prior size when a maximum is below it
  (`RestartReachesTargetIff`, `RestartClampedExample`), and one whose boot size cannot be
  computed leaves status at the size from before the halt (`StatusTellsSize`,
  `UnreadableRestart`); a lost status write makes the next reconcile grow a second time
  (`OvershootsIff`, `WithinUnlessDoubled`, `LostWriteOvershoots`).
- A successful append can make the audit log unreadable: a line of 4 MiB or more, and a
  record that does not decode to itself, as happens where a string is not valid UTF-8
  (`AppendsReplay`, `OversizedAppend`, `GarbledAppend`). An append that was written but not
  synced makes the next one break the chain, and one that stopped before its newline has
  the next one glued to it, even after a reopen (`VerifiesIffHealthy`,
  `UnsyncedBreaksChain`, `MissingNewline`).

## Model

| member | source | states |
|---|---|---|
| `MigrationSafety.AdoptOnlyGuard` | internal/controller/controller.go:519-552 | over every run, from the live cutover patch until the target agent reports Running on a runtime it found, the Machine carries adopt-only; no agent creates a runtime before the guard is lifted, and it is lifted only after that report |
| `MigrationSafety.CreatesOnlyUnguarded` | internal/agent/agent.go:279-435 | in any state, an agent step that makes a runtime appear makes it on its own node, for a Machine assigned there, not adopt-only, not being deleted and not asked to be stopped, paused or halted |
| `MigrationSafety.CommitEvidence` | internal/agent/agent.go:1053-1061 | over every run, a live migration in Cutover, Adopting or Succeeded had its Commit acknowledged or a ConfirmDestinationCommitted order, and an acknowledged Commit stands at the peer |
| `MigrationSafety.NoAbortAfterAck` | internal/agent/agent.go:1039-1072 | over every run in which all status writes land, no Abort is sent after an acknowledged Commit |
| `MigrationSafety.ParkedRecovery` | internal/agent/agent.go:1080-1195 | over every run, with Commit applied, applied with a lost answer, or not applied: no Commit, Abort, source delete or network resume for a parked migration without an attested order, and no source delete without an acknowledged or attested commit, nor on ForceAbort |
| `MigrationSafety.RunKeeps` | internal/agent/agent.go:896-1270 | the protocol invariant holds after every sequence of controller, source-agent, node-agent, operator and FluxVM steps |
| `MigrationCold.ColdMigrationSafety` | internal/controller/controller.go:501-572 | over every interleaving in which status writes land, two nodes never hold a runtime at once and a runtime is created only while none exists |
| `MigrationCold.CreatesOnAssignedNode` | internal/agent/agent.go:382-435 | during a cold migration nothing but the assigned node's own agent makes a runtime appear |
| `MigrationLimits.UnattestedStaysParked` | internal/agent/agent.go:1126-1152 | a step on a parked migration without an attested order changes nothing except, when the control plane is unreachable or the write is lost, its phase to Failed |
| `MigrationLimits.DeletionProceedsIff` | internal/agent/agent.go:725-789 | from any state, one controller step and one agent step that succeed remove a deleting Machine if and only if its migration is neither Cancelled nor parked |
| `MigrationLimits.CancelledBlocksDeletion` | internal/agent/agent.go:725-731 | over every run a Machine with a Cancelled migration is never removed |
| `MigrationLimits.CancelledNeverDeleted` | internal/agent/agent.go:1238-1270 | a run from a fresh state that is cancelled at once, then deleted, and whose Machine no later run removes |
| `MigrationLimits.SourceQuiesces` | internal/agent/agent.go:896-1270 | after any source-agent step, whatever fails, the source network is quiesced if and only if it was or this step quiesced it, no resume call of this step succeeded, and the step did not delete the runtime; the resume calls are those of a cancel, a back-out after Prepare and a transfer polled as stopped |
| `MigrationLimits.EndLeavesQuiesced` | internal/agent/agent.go:1197-1214 | a step of any process that ends a live migration as Failed, Blocked or Cancelled leaves the source network quiesced, against the comment, if and only if it was or became quiesced and the step neither cancels a recorded runtime, nor gives up after a Prepare that succeeded, nor polls the transfer as stopped |
| `MigrationLimits.EndedStaysQuiesced` | internal/agent/agent.go:1204-1208 | over every later run it stays quiesced if and only if that runtime exists throughout |
| `MigrationLimits.StartingLeavesQuiesced` | internal/agent/agent.go:956-1008 | a migration that ends in the Starting step leaves the source network quiesced if and only if the quiesce took effect and Prepare then failed |
| `MigrationLimits.RunningLeavesQuiesced` | internal/agent/agent.go:1016-1036 | a migration that ends in the Running step, Failed or Blocked, leaves the source network quiesced if and only if it ended other than by a transfer polled as stopped |
| `MigrationLimits.LeftQuiesced` | internal/agent/agent.go:896-1036 | three runs from a fresh state, a failed Prepare, a failed poll and a missing peer, each left quiesced exactly as long as the runtime exists |
| `MigrationLimits.RestartEndsQuiesce` | internal/agent/agent.go:582-592 | a concrete stop and start after which the Machine has a new runtime that is not quiesced |
| `MigrationLimits.LostWriteAllowsAbort` | internal/agent/agent.go:1052-1064 | a run in which two status writes are lost and an Abort follows an acknowledged Commit, so the hypothesis of NoAbortAfterAck is needed |
| `MigrationLimits.LostWriteAllowsTwoRuntimes` | internal/controller/controller.go:553-566 | a run from a fresh state in which status writes are lost and both nodes end with a runtime, so the hypothesis of ColdMigrationSafety is needed |
| `MigrationAgents.Cluster.ReconcileMigration` | internal/agent/agent.go:896-1037 | the source agent's reconcile, call by call, is the source step of the protocol, its errors recorded as Failed |
| `MigrationAgents.Cluster.ReconcileMachine` | internal/agent/agent.go:262-287 | deletion, stopped, paused, halted or running, as in the protocol's node step |
| `MigrationAgents.Cluster.ReconcileFromController` | internal/controller/controller.go:437-451 | settled phases are left alone, a missing or deleting Machine is an error, the rest advances |
| `MigrationCapsSafety.CapsHold` | internal/controller/controller.go:79-126 | over every run with any interleaving of ticks, agents, operators and lost writes, no capped scope (cluster, node counted as source or distinct target, policy) exceeds the larger of its first count and its cap |
| `MigrationCapsSafety.LoadOverApproximates` | internal/controller/controller.go:97-126 | at every point of a tick the counters are at least what a recount of the stored migrations gives, in every scope |
| `MigrationCapsSafety.AdmittedHadRoom` | internal/controller/controller.go:458-479 | a counter rises, by one, only where there was room under its cap |
| `MigrationCapsSafety.HandleCharges` | internal/controller/controller.go:454-512 | handling a listed copy adds to a scope at most what it charged to the counters, however the stored migration moved meanwhile |
| `MigrationCapsSafety.ListingCounts` | internal/controller/controller.go:97-112 | the counters built from a listing are its recount |
| `MigrationLoads.AgentStepMoves` | internal/agent/agent.go:896-1072 | no source-agent step makes an inactive migration active, moves one out of a phase agents do not own, or changes its nodes |
| `MigrationLoads.MachineStepMoves` | internal/agent/agent.go:262-287 | a node agent's reconcile of the Machine never changes a migration |
| `MigrationLoads.HandlingAgrees` | internal/controller/controller.go:437-576 | handling a listed copy that is still current is the protocol's controller step, with room read off the counters |
| `MigrationLoads.MigrationLoad.constructor` | internal/controller/controller.go:97-112 | newMigrationLoad's loop computes the recount, per node and in total |
| `MigrationLoads.MigrationLoad.Admit` | internal/controller/controller.go:118-126 | one more in total and on the source and the distinct target, and nowhere else |
| `MigrationLoads.AdmitMigrationPolicy` | internal/controller/migrationpolicy.go:53-68 | blocks exactly when some selecting policy is full, and then spends nothing; otherwise spends one of every selecting policy |
| `MigrationLoads.PolicyWithinMaximum` | internal/controller/migrationpolicy.go:59-66 | an admission leaves every selecting policy within its maximum and the others as they were |
| `NetworkOutcome.TickOutcome` | internal/agent/network.go:20-66 | a tick in which no call fails leaves every local guest with the outcome read off the listings, in any power state and with policies being deleted |
| `NetworkOutcome.SettledTick` | internal/agent/network.go:281-347 | with no policy being deleted, a running guest ends with the last policy that claims it merged with its tenant denies, else its fence, else default deny, else allow-all if some policy listed it, else unchanged |
| `NetworkOutcome.LaterDeletionWins` | internal/agent/network.go:239-268 | a running guest keeps the rules of its last claiming policy if and only if no later policy of the list is a deleting one that still selects it |
| `NetworkOutcome.DeletionOrderMatters` | internal/agent/network.go:239-268 | two concrete policies, one of them being deleted, whose order in the list decides whether the guest keeps its rules |
| `NetworkOutcome.NotRunningTick` | internal/agent/network.go:311-336 | a guest that is not Running is reset if and only if some turn frees it, and the one policy that still selects it frees it |
| `NetworkOutcome.PausedLosesRules` | internal/agent/network.go:311-336 | a concrete paused guest that loses the rules of the one policy that selects it |
| `NetworkOutcome.UnclaimedDespiteTrouble` | internal/agent/network.go:82-149 | a running guest that nobody claims is fenced if the fence call reaches it, else denied if the deny call does, whatever other calls fail, to the same guest or to others |
| `NetworkOutcome.ForeignUntouched` | internal/agent/network.go:20-66 | runtimes of no local Machine are never written, whatever fails |
| `NetworkFleet.DroppedResetIff` | internal/agent/network.go:282-355 | with any number of nodes taking turns on one stored policy: a guest nobody claims any more is put right by its node's next good tick if and only if no other node has replaced the stored list since, another policy resets it, or default deny or a fence applies; otherwise it keeps the old rules |
| `NetworkFleet.StillListedIff` | internal/agent/network.go:340-355 | a guest's name is still in the stored list if and only if its own node was the last to replace it |
| `NetworkFleet.OtherNodeForgets` | internal/agent/network.go:281-355 | a concrete policy and two nodes in which a guest keeps the rules of a policy that dropped it |
| `NetworkFleet.VanishesCleanIff` | internal/agent/network.go:239-268 | the first node's turn removes a deleting policy, and leaves no guest behind if and only if every guest it selects on another node was free of rules already |
| `NetworkFleet.DeletionReachesIff` | internal/agent/network.go:239-268 | that turn resets a selected guest if and only if it lives on that node or had nothing to reset |
| `NetworkFleet.LeftBehindStays` | internal/agent/network.go:20-66 | what such a policy left behind stays over every later run of ticks in which nothing else takes the guest up |
| `NetworkFleet.VanishesEarly` | internal/agent/network.go:239-268 | a concrete policy that vanishes while a guest on another node keeps its rules |
| `NetworkOutcome.ClaimedNotDropped` | internal/agent/network.go:389-402 | while somebody claims a running Machine no other policy resets it for having dropped it |
| `NetworkAgents.PolicyClaims` | internal/agent/network.go:157-167 | finds whether some current policy claims the Machine |
| `NetworkAgents.OtherPolicyClaims` | internal/agent/network.go:389-402 | finds whether some current policy other than the given one claims the Machine |
| `NetworkAgents.NetworkAgent.ReconcilePolicy` | internal/agent/network.go:238-362 | one policy's turn, stopping at the first refused push, and the applied list it records |
| `NetworkAgents.NetworkAgent.ReleaseSelected` | internal/agent/network.go:241-266 | the reset loop of a deleting policy |
| `NetworkAgents.NetworkAgent.PushSelected` | internal/agent/network.go:283-312 | the push loop and the names it applied to |
| `NetworkAgents.NetworkAgent.PruneDropped` | internal/agent/network.go:327-347 | the reset loop over previously applied names |
| `NetworkAgents.NetworkAgent.EnforceDefaultDeny` | internal/agent/network.go:133-149 | the default-deny pass, going on after refused pushes |
| `NetworkAgents.NetworkAgent.EnforceTenantFence` | internal/agent/network.go:82-102 | the tenant-fence pass, going on after refused pushes |
| `NetworkAgents.NetworkAgent.ReconcileNetworkResources` | internal/agent/network.go:20-66 | the policy loop and the two passes in their order |
| `FabricMembership.TickKeys` | internal/agent/network.go:536-593 | a tick whose calls succeed returns the spec's memberships at the guest address; afterwards a backend is registered if and only if it is one of them or was registered and not listed |
| `FabricMembership.TickContents` | internal/agent/network.go:548-575 | every service of the spec then holds the Machine's backend, enabled, ready and at the spec's weight, one when it gives none |
| `FabricMembership.OthersUntouched` | internal/agent/network.go:536-676 | whatever fails, backends neither listed nor wanted stay verbatim and in order |
| `FabricMembership.DeregisterKeys` | internal/agent/network.go:634-641 | deregistering leaves exactly the backends that were not listed |
| `FabricMembership.MembershipWhileRunning` | internal/agent/agent.go:543-551 | after any failure-free history a running tick leaves exactly the spec's services registered for the Machine; status lists exactly them if and only if the spec wants something or nothing was listed |
| `FabricMembership.MembershipAfterStop` | internal/agent/agent.go:592-609 | after any failure-free history a stop, halt or delete leaves no backend of the Machine; status agrees if and only if it listed none |
| `FabricMembership.ListedAddressReused` | internal/agent/network.go:536-676 | a backend somebody put at a listed address is removed by the next deregistration, and by the next good tick if and only if that does not want it |
| `FabricMembership.AddressReusedTaken` | internal/agent/network.go:578-591 | a concrete list that was never cleared and takes away another Machine's backend |
| `FabricMembership.RegisterComplete` | internal/agent/network.go:541-575 | registration succeeds if and only if every entry has a name, a port and an answering service, and then covers the spec |
| `FabricMembership.RecoversFromPartialFailure` | internal/agent/network.go:528-593 | after any tick that failed, registering or pruning, the next good tick leaves exactly the wanted backends if and only if each one that tick registered was listed before or is wanted again |
| `FabricMembership.RetractOnlyRemoves` | internal/agent/network.go:578-591 | taking back removes only listed backends and adds none, whatever fails |
| `FabricMembership.PartialFailureLeaks` | internal/agent/network.go:528-535 | a concrete history in which a partial failure leaves a backend at an old address for good, against the comment's claim |
| `FabricMembership.PruneFailureLeaks` | internal/agent/network.go:528-535 | a concrete history in which everything is registered, the pruning of a port of the same service fails, and the registered backend stays at an old address for good |
| `FabricAgents.FabricAgent.Register` | internal/agent/network.go:541-574 | fetch, edit in place or append, and put back, one service |
| `FabricAgents.FabricAgent.RemoveBackend` | internal/agent/network.go:649-676 | removes the first backend with that address and port, if service and backend exist |
| `FabricAgents.FabricAgent.RegisterServices` | internal/agent/network.go:540-576 | the registration loop, stopping at the first failure |
| `FabricAgents.FabricAgent.RetractListed` | internal/agent/network.go:578-591 | the pruning loop over listed memberships not kept |
| `FabricAgents.FabricAgent.ReconcileServiceFabric` | internal/agent/network.go:536-593 | register, then prune; on any failure the old list is returned |
| `FabricAgents.FabricAgent.Deregister` | internal/agent/network.go:634-641 | the deregistration loop |
| `FabricAgents.FindBackend` | internal/agent/network.go:655-664 | the first backend with an address and port, or none |
| `QuiesceSafety.FreezeThawSafety` | internal/controller/snapshot.go:75-171 | over every run, with the guest agent switched on and off at will: a requesting or freezing snapshot still has its finalizer; no finalizer is dropped while an annotation names its snapshot; confirmed-branch volume snapshots are taken frozen; Thawing was left with the guest frozen, to any phase, if and only if some reconcile met a named condition |
| `QuiesceSafety.ThawingLeftFrozenIff` | internal/controller/snapshot.go:37-64 | with the guest agent enabled, a snapshot not being deleted leaves Thawing with the guest frozen if and only if what it names no longer resolves and the failure is recorded |
| `QuiesceSafety.ThawingFailsFrozen` | internal/controller/snapshot.go:49-55 | a concrete run into Thawing that then goes to Failed with the guest frozen |
| `QuiesceSafety.SwitchedOffSucceedsFrozen` | internal/controller/snapshot.go:58-67 | a concrete run into Thawing that reaches Succeeded with the guest frozen once the guest agent is switched off |
| `QuiesceSafety.OffStaysFrozen` | internal/agent/quiesce.go:29-32 | with the guest agent switched off or the Machine paused, a frozen guest stays frozen over every run until that changes or the Machine goes |
| `QuiesceSafety.AgentThaws` | internal/agent/quiesce.go:29-58 | after any run, while the Machine is not paused, a successful agent step leaves the guest thawed without a standing request and frozen for its requester with one |
| `QuiesceSafety.DeletionCompletes` | internal/controller/snapshot.go:274-301 | a deleted snapshot is gone after a reconcile, an agent step and a reconcile that succeed, if and only if the guest agent is on and the Machine not paused, or the guest is not frozen for it |
| `QuiesceSafety.SnapshotCompletes` | internal/controller/snapshot.go:34-171 | five successful steps freeze, take, thaw and finish a fresh snapshot |
| `QuiesceSafety.TakeMeans` | internal/controller/snapshot.go:184-233 | the volume loop stops if and only if some volume errs; otherwise created and allReady say what they should |
| `QuiesceSafety.TakeRefs` | internal/controller/snapshot.go:184-233 | the recorded references are the volumes' readiness in order |
| `QuiesceSafety.ThawAskedIffCreated` | internal/controller/snapshot.go:235-240 | on the confirmed branch the thaw is asked for if and only if the pass made a volume snapshot |
| `QuiesceSafety.NothingMadeStaysFrozen` | internal/controller/snapshot.go:235-240 | a concrete snapshot that made nothing, Succeeded with its request standing and the guest frozen |
| `QuiesceSafety.ErrorWhileFrozen` | internal/controller/atlas_snapshot.go:113-130 | an error among the volumes fails the snapshot and leaves the guest frozen; the request is withdrawn if and only if the error came from Atlas |
| `QuiesceSafety.ErrorFailsFrozen` | internal/controller/snapshot.go:184-233 | a concrete failed create that leaves the request standing and the guest frozen |
| `QuiesceSafety.AbandonedRun` | internal/controller/snapshot.go:37-39 | a finished snapshot whose request stands keeps the guest frozen until it is deleted, the Machine goes, or another snapshot of the Machine is reconciled |
| `SnapshotControllers.Protocol.ReconcileSnapshot` | internal/controller/snapshot.go:34-68 | the reconcile's dispatch, call by call |
| `SnapshotControllers.Protocol.TakeEach` | internal/controller/snapshot.go:184-233 | the loop over the volumes |
| `SnapshotControllers.Protocol.ReconcileGuestQuiesce` | internal/agent/quiesce.go:29-58 | the agent's freeze, thaw or neither |
| `MachineSet.TickSafety` | internal/controller/machineset.go:227-286 | wherever the batch stops: a rolling deletion keeps ready current plus outdated at desired less maxUnavailable or more; the total never passes the larger of before and desired; no current replica goes while an outdated one remains |
| `MachineSet.OthersUntouched` | internal/controller/machineset.go:169-217 | Machines of other owners, and current ones while an outdated one remains, are left exactly as they were |
| `MachineSet.RolloutNeverSurges` | internal/controller/machineset.go:227-286 | over any number of ticks, whatever fails, the set never grows beyond the larger of its first count and desired |
| `MachineSet.RolloutConverges` | internal/controller/machineset.go:227-300 | from any list, with either strategy, if calls succeed and replicas come up between ticks, at most 2*outdated+2 ticks reach exactly desired current and no outdated replica |
| `MachineSet.TickProgress` | internal/controller/machineset.go:227-286 | a good tick strictly shortens the remaining rollout |
| `MachineSetControllers.Api.Partition` | internal/controller/machineset.go:180-193 | the partition into current and outdated, and the ready count |
| `MachineSetControllers.Api.DeleteMachines` | internal/controller/machineset.go:302-310 | deletes in order up to the first failure |
| `MachineSetControllers.Api.CreateReplicas` | internal/controller/machineset.go:312-331 | creates up to the first failure or taken name |
| `MachineSetControllers.Api.StepMachineSet` | internal/controller/machineset.go:227-286 | at most one batch: fill, replace or trim |
| `MachineSetControllers.Api.ReconcileMachineSet` | internal/controller/machineset.go:169-217 | finalizer first, then one step |
| `Claims.StepClaimBindsFirstEligible` | internal/agentplane/claimstep.go:88-111 | a well-formed pending claim binds the first member EligibleWarm accepts and waits if and only if it accepts none |
| `ClaimSafety.ClaimedNeverRebound` | internal/controller/machinepool.go:152-164 | for any number of controllers with listings however old, no bind lands on a Machine another claim holds |
| `ClaimSafety.HolderKeepsMachine` | internal/controller/machinepool.go:152-164 | a claim that holds a Machine keeps it over every run in which it is not released |
| `ClaimSafety.RebindsIffUnversioned` | internal/controller/machinepool.go:160-162 | a bind lands on a Machine held by another claim if and only if the listed copy carried no resourceVersion |
| `ClaimSafety.UnversionedListingsRebind` | internal/controller/machinepool.go:160-162 | a concrete run of two controllers without versions that binds one Machine twice |
| `ClaimTick.OldestFirst` | internal/controller/machinepool.go:130-147 | the first member tried is the oldest the claim may take |
| `ClaimTick.ServedIff` | internal/controller/machinepool.go:89-126 | a waiting claim takes the oldest member left for it, and goes without if and only if there is none |
| `ClaimTick.ArrivalOrder` | internal/controller/machinepool.go:28-32 | a claim that went without could not have used any Machine a later claim received |
| `ClaimTick.BoundOnce` | internal/controller/machinepool.go:89-106 | no Machine is bound twice in a tick |
| `ClaimTick.LostStatusBindsAgain` | internal/controller/machinepool.go:53-55 | a claim whose status write was lost takes a second Machine if and only if there is a member for it |
| `ClaimTick.LostStatusTakesTwo` | internal/controller/machinepool.go:22-128 | a concrete claim that ends with two Machines |
| `ClaimTick.TickHandoff` | internal/controller/machinepool.go:252-336 | after the claims of a tick the pool pass leaves exactly desired warm current members, none outdated, as many running as fit, and every Machine bound this tick untouched |
| `Pools.PoolLevels` | internal/controller/machinepool.go:272-336 | a pool pass whose calls succeed levels the pool exactly |
| `Pools.PoolSpares` | internal/controller/machinepool.go:278-300 | whatever fails, Machines bound this tick or not warm members are untouched |
| `Pools.RunningInFront` | internal/controller/machinepool.go:324-333 | the trim takes a running member only when no booting one is left |
| `Sorting.SortBySorts` | internal/controller/machinepool.go:142-144 | the sort orders and rearranges, and loses nothing |
| `Sorting.SortByStable` | internal/controller/machinepool.go:28-32 | elements with equal keys keep their order |
| `PoolControllers.WarmMembers` | internal/controller/machinepool.go:130-147 | the pool's running unclaimed members not bound this tick, oldest first |
| `PoolControllers.PoolController.BindMachine` | internal/controller/machinepool.go:152-164 | succeeds only on the version it carries |
| `PoolControllers.PoolController.BindAny` | internal/controller/machinepool.go:97-122 | tries members in turn, passing over those that changed |
| `PoolControllers.PoolController.ReconcileMachineClaim` | internal/controller/machinepool.go:53-126 | binds a claim without a Machine, and records it as bound this tick |
| `PoolControllers.PoolController.ReleaseMachineClaim` | internal/controller/machinepool.go:206-247 | unlabels or deletes the Machine the listing shows as the claim's |
| `PoolControllers.PoolController.ReconcileMachineClaims` | internal/controller/machinepool.go:22-51 | the claim pass, oldest claim first |
| `PoolControllers.PoolController.ReconcileMachinePool` | internal/controller/machinepool.go:272-336 | delete outdated, then fill or trim |
| `DiskLaws.OnlyDroppedDisksGo` | internal/agent/devices.go:56-100 | whatever fails: only recorded disks that left the spec are detached, only disks of the spec attached, and a volume is unpublished only when its disk is neither in the spec nor plugged in |
| `DiskLaws.RecordsConserved` | internal/agent/devices.go:45-106 | whatever fails, the local records are the old ones plus those published now less those unpublished now |
| `DiskLaws.RecordsStayTrue` | internal/agent/devices.go:59-100 | records that matched what is published still do, whatever fails |
| `DiskLaws.FullSuccess` | internal/agent/devices.go:56-119 | a pass without failure ends with exactly the spec attached, of what the Machine owns, and no volume of a dropped disk |
| `DiskLaws.AttachedMeans` | internal/agent/devices.go:107-117 | the returned names are exactly the plugged disks that are asked for or were recorded |
| `DiskLaws.LastRecordLingers` | internal/agent/devices.go:45-106 | after a pass from true records, whatever fails, the stored records are true if and only if the pass returned any or none were stored, because an empty list is never written |
| `DiskLaws.ReturnedReadBack` | internal/agent/devices.go:101-106 | splitting the returned list by node gives back the records of the pass |
| `DiskLaws.PublishedIffUnrecorded` | internal/agent/devices.go:59-150 | a CSI disk a pass plugs in has its volume published afterwards if and only if it was published before or no record named the disk |
| `DiskLaws.ReattachedUnpublished` | internal/agent/devices.go:45-150 | after a pass that returned no record although some were stored, a pass that asks for one of those disks again plugs it in without publishing its volume |
| `DiskLaws.ReattachedExample` | internal/agent/devices.go:45-150 | one concrete disk attached, dropped and asked for again |
| `DiskAgents.DiskAgent.ReconcileDisks` | internal/agent/devices.go:35-119 | the whole reconcile, including its early returns; other nodes' records come back verbatim |
| `DiskAgents.DiskAgent.AttachDisks` | internal/agent/devices.go:59-79 | the attach loop, each failure skipped over |
| `DiskAgents.DiskAgent.DetachDisks` | internal/agent/devices.go:80-90 | the detach loop, each failure skipped over |
| `DiskAgents.DiskAgent.UnpublishVolumes` | internal/agent/devices.go:91-100 | the unpublish loop, in any order of the map |
| `Quota.SeedIsSum` | internal/controller/quota.go:35-51 | the running totals are the plain sums modulo the word size |
| `Quota.ResizeIsRebuild` | internal/controller/quota.go:135-151 | the incremental resize check equals the check of trackers rebuilt with the Machine replaced, wrap-around included |
| `Quota.TargetCancels` | internal/agent/hotplug.go:160-172 | the (target, target) question asks about the totals themselves, whatever the target |
| `Quota.AgentAgreesWithWebhook` | internal/controller/webhook.go:377-395 | on a resize that grows something, the agent blocks after the update exactly what the webhook denies before it, if and only if every quota parses or the Machine does not count |
| `Quota.ShrinkStillDenied` | internal/controller/quota.go:133-135 | the resize check alone denies a shrink if and only if usage stays over a limit; the webhook lets every shrink through |
| `Quota.ShrinkDeniedExample` | internal/controller/quota.go:133-135 | a concrete shrink the resize check denies, against its comment |
| `Quota.PassIsRebuild` | internal/controller/quota.go:93-117 | after a pass every tracker is what a rebuild with every charged Machine counted would give: the seed plus what was admitted |
| `Quota.PassIsRebuildIff` | internal/controller/controller.go:308-361 | it is what a rebuild with the assigned Machines would give if and only if no Machine of its namespace was charged and then refused its CPU set |
| `Quota.RefusedPinStaysCharged` | internal/controller/controller.go:346-358 | a concrete pass in which a Machine that is refused its CPU set keeps another one out |
| `Quota.AdmissionStaysWithin` | internal/controller/quota.go:93-117 | an admission leaves a quota that was within its limits within them if and only if no limited total passes its word |
| `Quota.PassStaysWithin` | internal/controller/quota.go:93-117 | over a whole pass, in the same way, if and only if no limited total passes its word |
| `Quota.OverflowAdmits` | internal/controller/quota.go:101-104 | a concrete admission past a limit by 32-bit wrap-around |
| `QuotaControllers.BuildQuotaTrackers` | internal/controller/quota.go:35-66 | seeds every tracker and reports malformed limits |
| `QuotaControllers.AdmitQuota` | internal/controller/quota.go:93-118 | spends every tracker of the namespace or none |
| `QuotaControllers.AdmitQuotaResize` | internal/controller/quota.go:135-151 | the resize decision over the namespace's trackers |
| `DisruptionLaws.BudgetsHold` | internal/controller/disruption.go:64-113 | after any mix of admitted disruptions and scale-downs, whichever victims are picked, every budget keeps at least the smaller of its healthy and desired count |
| `DisruptionLaws.AllOrNothing` | internal/controller/disruption.go:99-113 | one matching budget without allowance leaves every allowance as it was; otherwise exactly one is taken from every matching budget and none from the others |
| `DisruptionLaws.AllowanceConserved` | internal/controller/disruption.go:99-113 | over any run every allowance is its start less one per admitted matching disruption and the reserve of each admitted scale-down, and never negative |
| `DisruptionLaws.ReserveCoversIff` | internal/controller/fleet.go:37-69 | a scale-down's reserve covers every choice of victims if and only if the targets in the budget's namespace are as many as it could take healthy ones |
| `DisruptionLaws.ForeignMachineUncovered` | internal/controller/fleet.go:44-46 | a concrete Machine of another namespace that a budget counts but a scale-down does not reserve for |
| `DisruptionControllers.LoadBudgetStates` | internal/controller/disruption.go:64-94 | totals, healthy and desired counts and allowances, or an error for a bad budget |
| `DisruptionControllers.AdmitDisruption` | internal/controller/disruption.go:99-113 | the check over all budgets, then the spending |
| `DisruptionControllers.AdmitScaleDown` | internal/controller/fleet.go:37-69 | the check over all budgets, then the reserving |
| `HotplugRuns.StatusTellsSize` | internal/agent/hotplug.go:16-139 | over any mix of spec edits, creations, growth, halts, restarts, removals and takeovers whose status writes land, status gives the running VM's size in a dimension if and only if it did at creation, takeover or the last restart, or the dimension has grown since |
| `HotplugRuns.ReadableRunTells` | internal/agent/hotplug.go:114-139 | over any such run without takeovers in which no VM is restarted while its boot size cannot be computed, status is exactly the running VM's size |
| `HotplugRuns.UnreadableRestart` | internal/agent/hotplug.go:126-129 | a concrete restart under a maximum that does not parse, after which status tells a size the VM does not have |
| `HotplugRuns.OvershootsIff` | internal/agent/hotplug.go:85-104 | whatever fails, a reconcile leaves the VM larger, in a dimension, than it was and than spec and status ask, if and only if it grows it while status is below it |
| `HotplugRuns.SecondGrowthIff` | internal/agent/hotplug.go:85-104 | for a running VM and calls that succeed, the VM ends past spec and its own size if and only if status was below both |
| `HotplugRuns.WithinUnlessDoubled` | internal/agent/hotplug.go:25-139 | over any run, lost status writes and takeovers included, without such a reconcile the VM never exceeds the largest size a spec, the first status or a takeover gave |
| `HotplugRuns.NeverPastAsked` | internal/agent/hotplug.go:85-104 | a run whose status writes land and that takes nothing over has no such reconcile, so the bound holds |
| `HotplugRuns.LostWriteOvershoots` | internal/agent/agent.go:504-505 | a concrete lost status write after which the VM is grown twice, past the spec, so the hypothesis is needed |
| `HotplugRuns.BlockedNeverGrows` | internal/agent/hotplug.go:70-81 | however the spec is edited, a VM with a recorded size keeps it for as long as the quota blocks |
| `HotplugLaws.GrowTruth` | internal/agent/hotplug.go:85-104 | whichever calls fail the VM never shrinks, and a returned dimension is the live one if and only if it was before or was grown |
| `HotplugLaws.HotplugTruthful` | internal/agent/hotplug.go:25-112 | a truthful status stays truthful on every path; without a baseline it is true if and only if the spec is realized |
| `HotplugLaws.RestartTruthful` | internal/agent/hotplug.go:121-139 | after a restart with a known boot size and a spec that parses, status is the live size on every path and never below boot |
| `HotplugLaws.RestartUnknown` | internal/agent/hotplug.go:122-129 | otherwise a dimension is true afterwards if and only if it was already or was grown |
| `HotplugLaws.RestartReaches` | internal/agent/hotplug.go:121-139 | an unblocked success ends at the larger of boot size and clamped target |
| `HotplugLaws.RestartReachesTargetIff` | internal/hotplugpersist/size.go:33-69 | it reaches the larger of spec and prior applied if and only if no maximum is below that or the boot was that large |
| `HotplugLaws.RestartClampedExample` | internal/hotplugpersist/size.go:50-67 | a concrete restart that comes back smaller because a maximum was lowered |
| `HotplugLaws.PersistRaises` | internal/hotplugpersist/size.go:79-110 | writing back never lowers the spec and raises it at most to what was realized |
| `HotplugAgents.Vm.ReconcileHotplug` | internal/agent/hotplug.go:25-112 | the reconcile, call by call |
| `HotplugAgents.Vm.ReconcileAfterRestart` | internal/agent/hotplug.go:121-139 | the reconcile after a restart, call by call |
| `AuditLaws.AppendsReplay` | internal/agentplane/filelog.go:44-146 | appends that all succeed verify if and only if each line is shorter than 4 MiB and decodes to the record that was hashed; replaying a claim is then the in-order filter of what was appended, otherwise nothing replays |
| `AuditLaws.OversizedAppend` | internal/agentplane/filelog.go:126-144 | an append of a line of exactly 4 MiB succeeds, and nothing replays or opens afterwards |
| `AuditLaws.GarbledAppend` | internal/agentplane/filelog.go:106-135 | an append of a record that does not decode to itself succeeds, and nothing replays or opens afterwards |
| `AuditLaws.SameLastSameLog` | internal/agentplane/filelog.go:106-146 | with an injective, never-empty hash, two logs that verify and share their last hash hold the same records |
| `AuditLaws.TamperingDetected` | internal/agentplane/filelog.go:18-21 | any edit, reorder, insertion or removal ahead of the last record no longer verifies |
| `AuditLaws.VerifiesIff` | internal/agentplane/filelog.go:115-146 | a log, changed or not, verifies if and only if every line decodes, fits, names the hash of the line before it and carries its own |
| `AuditLaws.RewrittenSuffixVerifies` | internal/agentplane/filelog.go:106-146 | whatever follows a point of a log can be replaced by any events with their hashes computed anew |
| `AuditLaws.TruncationVerifies` | internal/agentplane/filelog.go:115-146 | every prefix of a log that verifies verifies |
| `AuditLaws.VerifiesIffHealthy` | internal/agentplane/filelog.go:44-82 | after any mix of appends, however each ends, and reopens, the log verifies if and only if no write was cut, every record written reads back, none was written while the log was behind an unsynced one, and none was glued to a record whose newline is missing |
| `AuditLaws.UnsyncedBreaksChain` | internal/agentplane/filelog.go:69-75 | a concrete failed sync followed by a good append that breaks the chain |
| `AuditLaws.MissingNewline` | internal/agentplane/filelog.go:64-67 | a write that stops just before its newline leaves a log that verifies and opens, and that the next successful append damages |
| `AuditFiles.FileLog.AppendEvent` | internal/agentplane/filelog.go:44-82 | Append with each of the six ways it can end |
| `AuditFiles.FileLog.Scan` | internal/agentplane/filelog.go:115-146 | scanChain's loop, with its line cap and a last line without newline, verifies, counts and collects |
| `AuditFiles.FileLog.Open` | internal/agentplane/filelog.go:32-41 | opens only a log that verifies, at its last hash |
| `BaselineLaws.FlagsIsZScore` | internal/agentplane/baseline.go:113-116 | the test by squares is the z-score test against the floored standard deviation |
| `BaselineLaws.VarianceIsSpread` | internal/agentplane/baseline.go:123-131 | after any history, in every metric, variance plus squared mean is the mean of squares under the same weights |
| `BaselineLaws.MeanWithin` | internal/agentplane/baseline.go:127-131 | the mean stays within the range of the samples |
| `BaselineLaws.VarianceBounded` | internal/agentplane/baseline.go:127-131 | the variance lies between zero and (b-mean)(mean-a) |
| `BaselineLaws.WarmupNeverFlags` | internal/agentplane/baseline.go:112-113 | the samples of the warm-up are never flagged |
| `BaselineLaws.FlaggedGapShrinks` | internal/agentplane/baseline.go:123-131 | k flagged samples of one value shrink the gap by exactly (1-alpha/4)^k in every metric |
| `BaselineLaws.KeysAreIndependent` | internal/agentplane/baseline.go:96-133 | however observations interleave, a key's state is what its own samples lead to |
| `BaselineMonitors.Monitor.ObserveSample` | internal/agentplane/baseline.go:96-133 | scores, then folds in at full or quarter weight, one key only |
| `BaselineMonitors.Monitor.Deviations` | internal/agentplane/baseline.go:111-122 | the flagged metrics, none before the warm-up is over |
| `BaselineMonitors.Monitor.PruneOld` | internal/agentplane/baseline.go:137-145 | drops exactly the keys last seen before the given time |
| `Conversion.RoundTrip` | internal/conversion/machinequota.go:37-61 | v1alpha1 to v1 and back is the identity if and only if neither section already holds a v1 name |
| `Conversion.ThereAndBack` | internal/conversion/machinequota.go:67-86 | renaming with a table and its inverse is the identity if and only if no new name was present |
| `Conversion.OrderDoesNotMatter` | internal/conversion/machinequota.go:67-78 | the result does not depend on the order the table is walked in |
| `Conversion.RenameFields` | internal/conversion/machinequota.go:67-78 | the renaming loop in any order |
| `Conversion.InvertRenames` | internal/conversion/machinequota.go:80-86 | a table with distinct new names is inverted |
| `AuthParams.ParseInvertsPrint` | internal/agent/oci.go:152-178 | parsing a printed list of pairs with distinct keys gives every pair back and nothing else |
| `AuthParams.ParsePrinted` | internal/agent/oci.go:154-178 | parsing a printed list enters its pairs in order |
| `AuthParams.ParseAuthParams` | internal/agent/oci.go:154-178 | the loop ends on every input and computes the parse |
| `AuthParams.ValueSplits` | internal/agent/oci.go:163-174 | what is read as a value and its rest is the one split of the text into a quoted value up to its closing quote or the end, or a bare one up to the next comma |

## Left out

- A theorem that at most one guest executes during a live migration: ordinary Machine reconcile is not gated on the migration phase, so it depends on what FluxVM reports for a source after its transfer.
- The destination migration server, its heartbeat reaper beyond the act that expires a prepared session, and both migration adapters.
- Two migrations of one Machine at the same time, except as far as the caps count them.
- MigrationCapsSafety.CapsHold: policies and the Machines they select are fixed during a run, and a tick in which the policies cannot be listed is not modelled, because then the program enforces no policy at all.
- QuiesceSafety.FreezeThawSafety: the agent's FluxVM call and its annotation patch are one step, and a guest that reboots, or is halted or stopped while frozen, is left out; the release of Atlas snapshots before a deletion is left out.
- MigrationLimits.EndedStaysQuiesced: a quiesce is taken to outlast a halt of its runtime, which is FluxVM's to say.
- NetworkFleet.DroppedResetIff: a node's turn reads the list that is stored; a write by another node between its listing and its own write is left out.
- NetworkOutcome.TickOutcome: assumes distinct runtimes of local Machines and unique names, as the API server and FluxVM give them; CNP application, security groups and the read-back of applied policies are left out.
- FabricMembership.MembershipWhileRunning: status writes land, and no other writer registers the Machine's own address and port.
- MachineSet.RolloutConverges: the percentage rounding of maxUnavailable is not modelled; its parsed value is an input.
- ClaimTick.TickHandoff: the listing is current at the start of the tick and no other writer acts between the claim pass and the pool pass; egress policies and release snapshots are left out.
- DiskLaws.RecordsConserved: publish and unpublish are single calls, although each is several CSI calls that may stop half-way; network interfaces are left out.
- DisruptionLaws.BudgetsHold: one caller's pass; preemption, cordon, evacuation and fleet each compute their own states. The scale-down count is a natural number, as its only caller passes.
- HotplugLaws.HotplugTruthful: a failed hotplug call adds nothing, and a written size reads back as itself.
- HotplugRuns.StatusTellsSize: status writes land, because after a lost one the two numbers can also meet by accident; LostWriteOvershoots shows what a lost one does.
- The branch methods of `MigrationAgents` and `SnapshotControllers` have no rows of their own: each is proved equal to its branch of the step function, and the rows name the reconciles that call them.
- BaselineLaws.VarianceBounded: over the reals; floating-point rounding is not modelled.
- AuthParams.ParseInvertsPrint: white space is the Latin-1 set, not every Unicode space.
- AuditLaws.TamperingDetected: lines are compared as they decode, because an edit of white space or of an unknown field changes nothing the hash covers.
- Conversion.RoundTrip: the deep copy through JSON is taken to be exact.
- MachineSet and MachinePool deletion cascades, snapshot restore, backups, instance types, image download, attestation, Atlas jobs, console proxy, command line, charts and user interface.
- Logging, metrics, tracing and wall-clock formatting.
