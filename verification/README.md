# BMAC: a verified model of its host state machines

BMAC manages Proxmox clusters. This project models the state machines that run on
each host and keep durable state, and proves what they keep over every run. The
models follow the Python sources branch by branch; loops and objects that change
their fields are Dafny loops and classes, each proved equal to a specification
function, and the results are proved about those functions.

| files | what they model |
|---|---|
| RegistryTypes, RegistryValidator | the registry's records and its looping validator |
| RegistryPlans, RegistryStore | each registry command: which files it writes, and the class whose methods do it |
| RegistrySafety, RegistryRuns, RegistryWrites | the invariant, and why every write of every command keeps it, wherever a process dies |
| RegistryInstant, RegistryCleanup, RegistryLeases, RegistrySlots, RegistryFacts | what follows for instant restores, deferred cleanup, install leases, addresses, and every record's fields |
| RegistryAllocations, RegistrySnapshots, RegistryUpdates, RegistryRemovals, RegistryHolding | when each command is done, unchanged or refused, and what it then writes, on its arguments and the records alone |
| RegistryHazards, RegistryExamples | two ways in which commands leave what they then refuse, with exact conditions, and runs that end there |
| Lock | the allocator lock, any number of processes interleaved step by step |
| Text, SanitizedWords, PulseBody, PulseLayout, Agent, Ledger, Findings, PulseRate, Debounce, Hysteresis | the monitor agent: messages, ping bodies and how they read, the ledger of problems, what each finding does, the rate limit, debouncing |
| Switch, Drive | the live disk switch, request by request, with the guest and QEMU as environment |
| Zpool, ZpoolMonitor, ZpoolProblems | the two parsers of `zpool status`, and which devices are problems |
| Egress, Transfer | egress fallback, and monthly traffic accounting |
| Tunnel, TunnelRuns | the tunnel's routes, from the slots and the registry |

## How the pieces fit

A registry command is a plan: the list of file writes that the registry and the
policy it read make it do. `Safe` says what one write must respect. Every write of
every plan is safe when it is performed, safe writes keep the invariant `Inv` and
move things only forward (`Later`), and a run is any sequence of commands each of
which may die between two writes. The class `Registry` does the same with the
source's loops and copies, and each method is proved to end in exactly its plan.
RegistryAllocations, RegistrySnapshots, RegistryUpdates, RegistryRemovals and
RegistryHolding say of each command, without the plans' own functions, when it is done,
unchanged or refused and what it writes. `Lock` interleaves the processes' single steps and proves that the registry is
always one that a sequential run also makes, so the results about runs apply.

The agent's world is its state, the saved state, and what the server last handled;
each ping may be acknowledged, handled without the agent learning it, or lost, and
the process may die after any step. `Hysteresis` is the history meaning of counting
failures and passes, shared by the agent's debounce counters and the egress service.

In the switch, any batch of environment steps happens before each request. A moment
is recorded for each step and request, and all of them keep the invariant, up to the
first start, if any, that boots the VM from another disk than it last ran on; from there
on it is still exact which requests the guest notices.

## Findings

Where the code does not do what its documentation or names suggest, the model follows
the code, and the exact condition is proved:

- A queued RESOLVED is dropped when its key reopens and clears again before the next
  pulse (scripts/host_runtime/app_ha_monitor.py:2003); docs/MONITORING_AND_ALERTING.md:460
  says that nothing is lost.
- Pulses may be less than the 60 seconds apart of docs/MONITORING_AND_ALERTING.md:462:
  by a fraction of a second, exactly when the earlier one was not on a whole second,
  since times are saved in whole seconds (scripts/host_runtime/app_ha_monitor.py:2051,
  2101); and the same in its limit of twelve an hour.
- A pulse that the server handled without the agent's learning it, or whose time the
  agent did not live to save, is not counted: it is sent again at once
  (scripts/host_runtime/app_ha_monitor.py:2096-2114), though nothing is to be announced
  twice.
- `sanitize` says that it makes one line (scripts/host_runtime/app_ha_monitor.py:200);
  it does, exactly unless one of the line breaks U+0085, U+2028 and U+2029 stands between
  two characters that are neither spaces nor controls, in the part of the text that it
  keeps.
- A release that dies between its two removals leaves an orchestration record that
  makes the next guest of that name impossible to orchestrate or to release
  (scripts/host_runtime/cluster_registry.py:3246-3248).
- Allocations read the policy before they lock (lines 2061 and 2148 of the same file);
  after a change of the slots in between, the registry may be unreadable for good.
- The text of `tunnel_productions` (line 3698) says that domains are fixed from
  allocation to release, but an update may change them, and then a staging guest may
  have a host name that the tunnel does not serve.
- The routes can be refused for a registry that the validator accepts: a registered
  domain may be the host name of a staging slot.
- Between the commit's pivot and the config change of the disk switch, a VM that is
  restarted boots the overlay and may lose what it wrote since the pivot.
- After such a restart the helper takes the disk for one that was never switched. A
  rerun, which scripts/host_runtime/instant_switch.py:19-20 calls safe and :380 asks for,
  then reopens the overlay over a zvol with later writes on it: the running guest reads
  old and new blocks mixed, and the rerun may end without a complaint. It is safe exactly
  if every block that the overlay lacks was last written with what the restore point has,
  and again after another copy of the restore point
  (SwitchWorld.ARecopyMakesSwitchable), which
  scripts/user_callable/backups/full_recovery.sh:906-929 makes only if its own earlier look at the disk
  said backup.
- Such a restart just before the config change goes unnoticed, since that change
  compares only the old setting (scripts/host_runtime/instant_switch.py:345): the
  config then names the zvol while the VM runs on its overlay.
- The two parsers of `zpool status` differ on a line of a device called NAME.

Each has its exact condition, as an if-and-only-if. RegistryExamples has a run for each
of those about the registry and the tunnel, PulseRate.OnePulseIsRecorded one for the
fraction of a second, and Switch a guest whose write is lost and one whose disk is mixed.

## Model

| member | source | states |
|---|---|---|
| RegistryValidator.ValidateRegistry | scripts/host_runtime/cluster_registry.py:1681-1789 | The validator's two loops accept a list of records exactly when every two records differ in name, VMID, address, MAC, allocation id, purpose and every domain, each record's own domains differ, every staging source exists, and every two holders of a snapshot agree, although each holder is compared only with the first one kept. |
| RegistryValidator.ValidatorMeansConsistent | scripts/host_runtime/cluster_registry.py:1681-1789 | For well-formed records listed in any order, what the loops accept is the pairwise meaning `Consistent` that the other modules use. |
| RegistryValidator.UniqueFields | scripts/host_runtime/cluster_registry.py:1682-1729 | The first loop's dictionaries refuse a list exactly when two records, or two domains of one record, claim the same value of a unique field. |
| RegistryValidator.LinkOne | scripts/host_runtime/cluster_registry.py:1731-1789 | One record passes the second loop exactly when its source exists, its snapshot agrees with the source, and it shares well with every earlier holder; the kept holders stay correct. |
| RegistrySafety.SafeKeepsInv | scripts/host_runtime/cluster_registry.py:1681-1804 | A file write that is safe in its registry keeps the whole invariant: readable and consistent records, unique ids, no prod-linked guest under an instant restore, distinct cleanup keys, pending cleanups only for registered guests. |
| RegistrySafety.SafeIsLater | scripts/host_runtime/cluster_registry.py:54-62 | A safe write reuses no id, changes no guest's identity, loses or reopens no cleanup record of a registered guest, and takes no install phase back, where media-attached and installer-started count as the same stage, as the transitions allow a restart between them. |
| RegistryRuns.PlansAreSafe | scripts/host_runtime/cluster_registry.py:1994-3438 | Every single file write of every one of the fifteen commands is safe in the registry that is there when it is performed; release and reconcile, which write several files and do not validate again, included. |
| RegistryRuns.ReleaseIsSafe | scripts/host_runtime/cluster_registry.py:3168-3256 | Release, forced or not, validates nothing after its removals, and none of them breaks the invariant: nothing depends on the guest and no cleanup of it is pending. |
| RegistryRuns.DeferIsSafe | scripts/host_runtime/cluster_registry.py:3259-3311 | A new pending cleanup names a registered guest; a completed one is never reopened. |
| RegistryRuns.FinalizeIsSafe | scripts/host_runtime/cluster_registry.py:3314-3438 | The final release removes a staging guest only with nothing pending, and prunes only records of guests that are gone. |
| RegistryRuns.ReconcileIsSafe | scripts/host_runtime/cluster_registry.py:4347-4420 | Giving up stale reservations and completing cleanups one file at a time keeps the registry consistent at every point in between. |
| RegistryRuns.UpdateIsSafe | scripts/host_runtime/cluster_registry.py:2585-2862 | An accepted update keeps the record's identity, takes no instant restore back, and marks one only while no prod-linked guest exists. |
| RegistryRuns.ReconcileReadable | scripts/host_runtime/cluster_registry.py:4366-4370 | The result that reconcile validates before it writes is always valid. |
| RegistryRuns.EveryRunKeepsTheInvariant | scripts/host_runtime/cluster_registry.py:1681-1804 | In every reachable registry, with any command dying between any two of its writes, the whole invariant holds. |
| RegistryRuns.RunsMoveForward | scripts/host_runtime/cluster_registry.py:54-62 | From any point of a run to any later one ids are not reused, guests keep their identity, evidence and orchestration records, and install phases do not go back, except from installer-started to media-attached. |
| RegistryWrites.EveryWriteFits | scripts/host_runtime/cluster_registry.py:1994-4420 | A command writes only files of its own kind; all but four write at most one. |
| RegistryFacts.WhatAGuestHas | scripts/host_runtime/cluster_registry.py:1314-1593 | In every run, field by field: a guest has the address, MAC and number of its slot; names each domain once; names only nodes of its placement; belongs to its backup or instant restore as the kinds allow; and a staging guest's source is registered, and its snapshot is of that source's volume on its nodes, with one GUID for every volume and node once verified and none before. |
| RegistryFacts.WhatTwoGuestsHave | scripts/host_runtime/cluster_registry.py:1681-1789 | In every run two guests differ in VMID, address, MAC, id, allocation and every domain, two production guests in purpose, and two copies of one source that name the same snapshot both have it verified and say the same of it. |
| RegistryInstant.InstantRestoreHasNoLinkedGuest | scripts/host_runtime/cluster_registry.py:1564-1588 | In no reachable registry does a staging guest of a production guest under an instant restore clone its disk or claim its snapshot. No validator checks this; allocation and update hold it together. |
| RegistryInstant.CommandsStepInstant | scripts/host_runtime/cluster_registry.py:2704-2762 | Whatever command runs, and wherever it dies, an instant restore's phase does not go back, its restore point stays, and its mark is not cleared while freed. |
| RegistryInstant.FreedLastsUntilSwitched | scripts/host_runtime/cluster_registry.py:2704-2762 | In every run the mark of a freed disk stays as it is until its phase is switched or the guest is released. |
| RegistryCleanup.PruneLeavesTheBound | scripts/host_runtime/cluster_registry.py:954-975 | Pruning removes only the first completed records of guests that are gone, keeps all others in order, and leaves at most 512 completed ones or only those of registered guests. |
| RegistryCleanup.EvidenceLasts | scripts/host_runtime/cluster_registry.py:954-975 | While a guest is registered no cleanup record about it is lost or reopened, in every run. |
| RegistryCleanup.FinalReleaseSeesEverything | scripts/host_runtime/cluster_registry.py:3350-3433 | When a staging guest is finally released, every cleanup that was ever deferred for it is on record and completed. |
| RegistryCleanup.WhatAFinalReleaseShows | scripts/host_runtime/cluster_registry.py:3350-3433 | A final release shows the removal of the guest's VM, of its volume or overlay, and of its snapshot on every production node, with nothing pending. |
| RegistryLeases.AHeldRecordIsLeftAlone | scripts/host_runtime/cluster_registry.py:2988-3165 | In every run, while a lease is unexpired and unreleased only its nonce, or a take-over that names its owner, changes anything on the record. |
| RegistryLeases.OnlyTheHolderChangesThePhase | scripts/host_runtime/cluster_registry.py:3101-3138 | Whatever command runs, an install phase changes only by the current holder of a live lease, along the allowed transitions, with a confirmation when it restarts the installation. |
| RegistryLeases.EachRestartWasConfirmed | scripts/host_runtime/cluster_registry.py:54-62 | In every run a guest's restarts of the installation are at most its WIPE confirmations. |
| RegistryLeases.InstalledIsForGood | scripts/host_runtime/cluster_registry.py:54-62 | From a confirmed installation no run returns to an earlier phase, and a recorded VM contract never changes. |
| RegistryHazards.OrphansComeFromAnInterruptedRelease | scripts/host_runtime/cluster_registry.py:3244-3248 | An orchestration record outlives its guest if and only if a release dies between removing the guest's record and removing the orchestration record. |
| RegistryHazards.TheNextGuestIsStuck | scripts/host_runtime/cluster_registry.py:3244-3248 | The next guest allocated in that slot meets the other guest's orchestration record. |
| RegistryExamples.AStuckGuest | scripts/host_runtime/cluster_registry.py:3244-3248 | Such a guest is reachable: a run of four commands, one of them dying, ends in one. |
| RegistryHazards.AStuckGuestIsRefused | scripts/host_runtime/cluster_registry.py:2953-2965 | Such a guest can be neither orchestrated nor released, with or without force. |
| RegistryHazards.StuckForever | scripts/host_runtime/cluster_registry.py:3168-3256 | No later command mends it. |
| RegistryHazards.AllocationUnderAnOldPolicy | scripts/host_runtime/cluster_registry.py:2060-2061 | An allocation that read its policy before the slots were changed leaves the registry readable if and only if the slots still start at the same address and its slot still exists. |
| RegistryExamples.AnUnreadableRegistry | scripts/host_runtime/cluster_registry.py:2060-2061 | An input: an empty registry's slots are moved between an allocation's reading of the policy and its turn, and the registry is unreadable afterwards. |
| RegistryHazards.TimelyCommands | scripts/host_runtime/cluster_registry.py:2060-2148 | Whatever the command, under an older policy it writes what it writes under the current one, or nothing, unless it is an allocation whose slot was moved or removed. |
| RegistryHazards.OnlyAllocationsNeedTheCurrentPolicy | scripts/host_runtime/cluster_registry.py:2147-2148 | Every other command, under an old policy, does what it does under the current one or is refused. |
| RegistryHazards.UnreadableForGood | scripts/host_runtime/cluster_registry.py:914-926 | No command changes an unreadable registry again. |
| RegistrySlots.SlotsHaveTheirOwnAddresses | scripts/host_runtime/cluster_registry.py:984-997 | Under a valid policy slots have the same address if and only if they are the same slot, and never a host's or the gateway's. |
| RegistrySlots.GuestsNeverShareAnAddress | scripts/host_runtime/cluster_registry.py:1005-1031 | Two well-formed guests of different names have different addresses. |
| RegistrySlots.ChangedSlotsKeepTheStart | scripts/host_runtime/cluster_registry.py:1994-2027 | An accepted change of the slots of a registry with any guest keeps the start and every guest's slot. |
| RegistrySlots.NewProdGetsTheLowestSlot | scripts/host_runtime/cluster_registry.py:2060-2145 | Without a requested slot a new production guest gets the lowest free one. |
| RegistrySlots.NoSlotLeft | scripts/host_runtime/cluster_registry.py:2060-2145 | An allocation finds no slot exactly when all are taken. |
| RegistrySlots.NewStagingGetsTheLowestSlot | scripts/host_runtime/cluster_registry.py:2147-2260 | A new staging guest gets the lowest free slot of its source, its address, one node, and only under that node's limit. |
| RegistrySlots.ARetriedProdIsNotAllocatedTwice | scripts/host_runtime/cluster_registry.py:1964-1981 | An allocation repeated under its id changes nothing if its request is the same, and is refused if it is another. |
| RegistryAllocations.AProdIsAllocatedIff | scripts/host_runtime/cluster_registry.py:2060-2145 | A well-formed request under a new allocation id is done if and only if a slot is left for it and no registered guest has its VMID, its purpose or one of its domains; the written record is then the request's, in that slot, reserved, owning nothing. No other check ever refuses it. |
| RegistryAllocations.AMalformedProdIsRefused | scripts/host_runtime/cluster_registry.py:2061-2078 | A request that is not well formed is refused whatever is registered: no placement, foreign or repeated nodes, an initial node outside it, repeated domains, a VMID out of range. |
| RegistryAllocations.ARepeatedProdIff | scripts/host_runtime/cluster_registry.py:1964-1981 | Under a used allocation id nothing is written; the answer is unchanged if and only if the guest is a production guest that was asked for with the same VMID, purpose, domains, placement and initial node. |
| RegistryAllocations.AStagingIsAllocatedIff | scripts/host_runtime/cluster_registry.py:2147-2260 | A request that fits its source, under a new allocation id, is done if and only if the node has fewer staging guests than the limit, the source has a free slot, and neither the VMID nor the new domain is taken; the record is then the source's copy in the lowest free slot. |
| RegistryAllocations.AMisplacedStagingIsRefused | scripts/host_runtime/cluster_registry.py:2147-2193 | A request is refused for a source that is not registered, a node outside its placement or that owns it, half a restore point, or none while the source is under an instant restore. |
| RegistryAllocations.ARepeatedStagingIff | scripts/host_runtime/cluster_registry.py:1964-1981 | Under a used allocation id nothing is written, and unchanged is answered if and only if the guest is a copy asked for with the same source, VMID, node and restore point. |
| RegistryAllocations.SlotsAreChangedIff | scripts/host_runtime/cluster_registry.py:1994-2027 | The slots change if and only if they differ, every address of the new ones is in the network and neither a host's nor the gateway's, and every registered guest keeps its address and its slot. |
| RegistryStore.Registry.Load | scripts/host_runtime/cluster_registry.py:914-926 | Reading and validating all records succeeds exactly on a readable registry and lists every record once. |
| RegistryStore.Registry.Commit | scripts/host_runtime/cluster_registry.py:2785-2862 | A new or changed record is written if and only if it is valid and fits all the others; otherwise nothing changes. |
| RegistryStore.Registry.AllocateProd | scripts/host_runtime/cluster_registry.py:2060-2145 | The loops that look for the allocation id and the lowest slot, and the validation, end in exactly the plan's writes and outcome. |
| RegistryStore.Registry.AllocateStaging | scripts/host_runtime/cluster_registry.py:2147-2260 | The same for a staging guest, with the limit of guests on its node. |
| RegistryStore.Registry.UpdateSlots | scripts/host_runtime/cluster_registry.py:1994-2027 | The policy is replaced exactly when it stays valid with every registered guest in its slot. |
| RegistryStore.Registry.RecordSnapshotIntent | scripts/host_runtime/cluster_registry.py:2301-2398 | A snapshot claim that is not verified yet is recorded exactly when the plan says so. |
| RegistryStore.Registry.RecordSnapshot | scripts/host_runtime/cluster_registry.py:2401-2495 | A claim is completed with its identities and marked verified exactly when the plan says so. |
| RegistryStore.Registry.ShareSnapshot | scripts/host_runtime/cluster_registry.py:2503-2582 | A live holder's verified claim is taken over exactly when the plan says so. |
| RegistrySnapshots.AnIntentIsRecordedIff | scripts/host_runtime/cluster_registry.py:2301-2398 | An intent that fits the source's volume and placement is recorded, unverified and without GUIDs, if and only if the guest is snapshotting, has no snapshot and no backup, and no copy of the source has a snapshot of that name. |
| RegistrySnapshots.AnIntentThatDoesNotFit | scripts/host_runtime/cluster_registry.py:2301-2352 | Any other intent is refused. |
| RegistrySnapshots.ASnapshotIsVerifiedIff | scripts/host_runtime/cluster_registry.py:2401-2495 | A request that matches the intent on record, with one GUID for every intended volume on every node of the placement, verifies it if and only if it was not verified and the guest is snapshotting or replicating; no validation refuses that. |
| RegistrySnapshots.ASnapshotThatDoesNotMatch | scripts/host_runtime/cluster_registry.py:2401-2462 | Any other request is refused. |
| RegistrySnapshots.ASnapshotIsSharedIff | scripts/host_runtime/cluster_registry.py:2503-2582 | A verified snapshot of the source's present volume, which somebody keeps who is neither failed nor being cleaned up, is shared if and only if the guest is only reserved and has no snapshot and no backup; the guest then has the same snapshot with an entry of its own. |
| RegistrySnapshots.AShareThatMayNot | scripts/host_runtime/cluster_registry.py:2503-2550 | Any other share is refused. |
| RegistryStore.Registry.Update | scripts/host_runtime/cluster_registry.py:2585-2862 | The field by field changes on a copy end in exactly the plan's record or refusal, in the source's order of checks. |
| RegistryUpdates.WhatAnUpdateDoes | scripts/host_runtime/cluster_registry.py:2585-2862 | An update that is not permitted is refused; a permitted one writes the record it asks for if that is valid and fits the others; one that asks for nothing new is refused, except that a repeated step of an instant restore changes nothing. What is permitted is stated on the options and the records alone. |
| RegistryUpdates.AnUpdateWritesWhatIsAsked | scripts/host_runtime/cluster_registry.py:2607-2850 | Field by field, an accepted update sets what was given, empties what was cleared, leaves what nobody asked about, moves the initial node to the first of a placement that lost it, merges snapshot GUIDs with the new ones first, counts the revision up by one, and keeps the identity. |
| RegistryUpdates.OneRecordIsAsked | scripts/host_runtime/cluster_registry.py:2607-2850 | For a permitted update there is exactly one such record. |
| RegistryUpdates.StatesBefore | scripts/host_runtime/cluster_registry.py:117-152 | From which states a production guest and a staging guest may come to each state, which is the transition table read backwards. |
| RegistryStore.Registry.RecordOwner | scripts/host_runtime/cluster_registry.py:2871-2950 | The owner and its replication targets are recorded only for an active guest without a live lease. |
| RegistryUpdates.WhatRecordingAnOwnerDoes | scripts/host_runtime/cluster_registry.py:2871-2950 | An owner is recorded if and only if the guest is active, no live lease is on it, the node is in its placement, the targets fit, and something changes; by default the targets are the placement without the owner, in its order; it is refused if and only if the node or the targets do not belong there. |
| RegistryStore.Registry.PruneCompleted | scripts/host_runtime/cluster_registry.py:954-975 | The two loops over the completed records remove exactly the plan's victims. |
| RegistryRemovals.WhatPruningRemoves | scripts/host_runtime/cluster_registry.py:954-975 | Pruning removes only completed records of guests that are gone, an older one before a newer one; if it removes any, at least 512 completed ones are left, and if more are left, none of them may go. |
| RegistryStore.Registry.Release | scripts/host_runtime/cluster_registry.py:3168-3256 | The checks, the two removals and the pruning are exactly the plan's. |
| RegistryRemovals.AReleaseIsDoneIff | scripts/host_runtime/cluster_registry.py:3168-3232 | In a readable registry a release is done if and only if the guest is registered, has no copies and no pending cleanup, and its orchestration record, if any, is its own with no live lease; and, unless it is forced, the guest is reserved, stopped, failed or being cleaned up and its record names no owner, volume, snapshot, HA node or replication target. Otherwise it is refused. |
| RegistryRemovals.WhatAReleaseLeaves | scripts/host_runtime/cluster_registry.py:3233-3256 | A release removes exactly that guest and its orchestration record. |
| RegistryRemovals.HowAGuestLeaves | scripts/host_runtime/cluster_registry.py:3168-3438 | In every run, wherever a process dies, a guest leaves the registry only without copies and pending cleanups, by a release that was forced or found that the record owns nothing, or by a final release that found every removal. |
| RegistryStore.Registry.DeferCleanup | scripts/host_runtime/cluster_registry.py:3259-3311 | One record for each identity: a new one is appended, and the same one again changes nothing. |
| RegistryRemovals.ACleanupIsDeferredIff | scripts/host_runtime/cluster_registry.py:3259-3311 | A cleanup of a registered guest, on one of the hosts and with a target of its action, is unchanged if and only if it is on record, and otherwise appended, pending, if and only if pruning leaves fewer than 4096 records. |
| RegistryStore.Registry.Finalize | scripts/host_runtime/cluster_registry.py:3314-3438 | The loops over the pending and the required removals end in exactly the plan. |
| RegistryRemovals.AFinalReleaseIsDoneIff | scripts/host_runtime/cluster_registry.py:3314-3438 | A final release is done if and only if the staging guest of that name has that id, is being cleaned up, has nothing pending, and the removals of its VM, its volume or overlay, and its snapshot on every node of its source are on record; it is unchanged if and only if no such guest is registered. |
| RegistryStore.Registry.Reconcile | scripts/host_runtime/cluster_registry.py:4388-4420 | Giving up, completing, writing only changed files, and pruning are exactly the plan's writes. |
| RegistryRemovals.WhatReconcileDoes | scripts/host_runtime/cluster_registry.py:4347-4420 | Reconcile is always done: in what it writes, before it is pruned, exactly the stale reservations failed and exactly the pending cleanups that were seen done are completed, with one more attempt, and nothing else changed. |
| RegistryStore.Registry.Acquire | scripts/host_runtime/cluster_registry.py:2988-3087 | A lease is taken, renewed or taken over exactly when the plan says so, and the contract is set once. |
| RegistryHolding.AnAcquireHolds | scripts/host_runtime/cluster_registry.py:2988-3087 | An accepted request leaves a lease of its own nonce and owner until its time plus the seconds asked for, which are 60 to 172800, its contract, and the phase there was, or for a first lease the one asked for. |
| RegistryHolding.AnotherIsRefusedIff | scripts/host_runtime/cluster_registry.py:3019-3036 | While a lease is held, a request with the same contract by another nonce that does not name the owner is refused if and only if it comes before that time, in whole seconds. |
| RegistryHolding.WhoMayAcquire | scripts/host_runtime/cluster_registry.py:3019-3062 | The holder, or who names its owner, may acquire at any time, if and only if with the same contract. |
| RegistryHolding.TheHolderRecordsIff | scripts/host_runtime/cluster_registry.py:3089-3138 | The holder records the next phase if and only if its clock is before that time. |
| RegistryHolding.ALeaseLastsItsTime | scripts/host_runtime/cluster_registry.py:2988-3165 | In every run, from an accepted request on, its lease, its contract and its guest stay for that time, whatever other commands run and wherever they die, until its nonce or its owner's name comes back; so the two rows above hold throughout. |
| RegistryStore.Registry.SetPhase | scripts/host_runtime/cluster_registry.py:3101-3138 | A phase is recorded exactly along the plan. |
| RegistryHolding.APhaseIsRecordedIff | scripts/host_runtime/cluster_registry.py:3101-3138 | A phase is recorded if and only if the nonce holds a lease that has not run out, the installation is at a phase that may come just before, and the step has the WIPE confirmation where it starts over from an unknown or a started installation. |
| RegistryStore.Registry.ReleaseLease | scripts/host_runtime/cluster_registry.py:3141-3165 | Only the holder's nonce clears the lease. |
| RegistryHolding.ALeaseIsReleasedIff | scripts/host_runtime/cluster_registry.py:3141-3165 | A lease is cleared if and only if its nonce is given, and nothing changes if and only if there is none. |
| Lock.EveryInterleavingKeepsTheProtocol | scripts/host_runtime/cluster_registry.py:685-824 | For any number of processes, interleaved step by step, dying at any step, and changing the slots among other commands: one process holds the lock at most, the owner file is its own, and each write is the next of a plan made from the registry as it was read; provided that no allocation gives out a slot that was moved since it read the policy. |
| Lock.MutualExclusion | scripts/host_runtime/cluster_registry.py:774-824 | At most one process is in the critical section, and the check of the nonce on leaving never fails. |
| Lock.WritesFitWhatIsThere | scripts/host_runtime/cluster_registry.py:774-824 | Each file write was planned and validated against a registry that nobody else has changed since, and is safe when it is performed. |
| Lock.InterleavingsAreSequential | scripts/host_runtime/cluster_registry.py:774-824 | Every such interleaving leaves a registry that some sequence of commands, complete or cut short, also makes; so all results about runs hold of it. |
| Lock.TimelyIff | scripts/host_runtime/cluster_registry.py:2060-2145 | That proviso is exact: in every interleaving, an allocation about to plan leaves the registry readable if and only if its slot was neither moved nor removed since it read the policy. |
| Ledger.LedgerStaysSound | scripts/host_runtime/app_ha_monitor.py:1939-2029 | In every run of checks, pulses, heartbeats, lost pings and deaths, in memory and on disk: every open problem is announced or has a NEW queued, every queued NEW or REMINDER is about an open problem, each key has at most one of them and one RESOLVED, announced problems and RESOLVEDs are about openings whose NEW an acknowledged pulse carried, and while the server's last ping is /fail the clear is pending. |
| Ledger.DeliveredKeeps | scripts/host_runtime/app_ha_monitor.py:2101-2114 | An acknowledged pulse removes exactly the carried items, at least one when any was carried, and keeps the ledger. |
| Ledger.ClearsAreFollowedByHeartbeats | scripts/host_runtime/app_ha_monitor.py:2058-2123 | A pulse or heartbeat sends at most /fail, clear, heartbeat in this order, and each clear attempt is followed by a heartbeat attempt unless the process dies. |
| Ledger.WhenAResolvedIsDropped | scripts/host_runtime/app_ha_monitor.py:2003-2007 | A queued RESOLVED leaves the outbox undelivered if and only if its key had reopened and now clears again; it is replaced if that opening was announced. |
| Ledger.AResolvedStays | scripts/host_runtime/app_ha_monitor.py:1939-2123 | Over whole check runs, reminders, pulses and heartbeats that the process survives, a queued RESOLVED leaves the outbox only when a pulse delivers it, which is exact, or a check run resolves its key again. |
| Ledger.ACheckRunKeepsAResolvedIff | scripts/host_runtime/app_ha_monitor.py:1939-2012 | A whole check run keeps the queued RESOLVED of an opening if and only if none of what it tracks resolves the key again; if one does, nothing about that opening is queued or open any more, whatever else the run tracks. |
| Ledger.InEveryRunAResolvedStaysIff | scripts/host_runtime/app_ha_monitor.py:1939-2012 | The same at any check run in any run with deaths, where openings are always numbered upwards. |
| Ledger.AResolvedMayBeLost | scripts/host_runtime/app_ha_monitor.py:2003-2007 | So the RESOLVED of a problem that was told may never be sent. |
| Agent.Agent.TrackFinding | scripts/host_runtime/app_ha_monitor.py:1967-2012 | One finding changes counters, problems and outbox exactly as the specification `Track`, about which the ledger and the debounce history are proved. |
| Findings.WhatAFailureDoes | scripts/host_runtime/app_ha_monitor.py:1967-2000 | A failure is counted and a pass forgotten; the problem opens exactly at the threshold of its kind, with the finding's priority and message and the second; an open one takes the new priority and message; a NEW takes the place of its announcements exactly when it opens or becomes urgent; nothing about another key changes. |
| Findings.WhatAPassDoes | scripts/host_runtime/app_ha_monitor.py:1967-2012 | A pass is counted and a failure forgotten; an open problem closes exactly at the threshold, and then all that is queued about it is, if it was announced, a RESOLVED with its priority, the time it was open, and its message. |
| Findings.DurationsAreRounded | scripts/host_runtime/app_ha_monitor.py:180-197 | That time is printed in at most two units, rounded down to the smaller. |
| Findings.TimesOnRecord | scripts/host_runtime/app_ha_monitor.py:2000-2027 | A time that is not on record, or is the epoch, counts as now where a problem's age or its last reminder is looked at. |
| Findings.AnEscalationIsQueued | scripts/host_runtime/app_ha_monitor.py:1991-1996 | A failure of high priority of an open problem of low priority leaves exactly one announcement of its key, a NEW of high priority with the sanitized message. |
| Findings.UrgentProblemsAreTold | scripts/host_runtime/app_ha_monitor.py:1967-2123 | In every run, in memory and on disk, an open problem of high priority, whether it opened so or became so, has a NEW of high priority queued, or an acknowledged pulse carried one about this opening. |
| Agent.Agent.ApplyCheck | scripts/host_runtime/app_ha_monitor.py:1939-1965 | A check run tracks its findings, then the vanished keys it owns, then its own error key, in this order. |
| Findings.WhatACheckTracks | scripts/host_runtime/app_ha_monitor.py:1939-1965 | A check that works forgets the counters of its keys that it neither found nor are open, and tracks what it found, then as gone each open problem under its prefixes that it did not find, then that it works; one that fails tracks only that. |
| Agent.Agent.QueueItem | scripts/host_runtime/app_ha_monitor.py:2014-2019 | Queueing replaces the key's NEW or REMINDER, and a RESOLVED replaces everything of its key. |
| Agent.Agent.RemindAll | scripts/host_runtime/app_ha_monitor.py:2021-2029 | A reminder is queued exactly for announced problems that are due and have nothing queued. |
| Findings.WhatIsReminded | scripts/host_runtime/app_ha_monitor.py:2021-2029 | The reminders queued are exactly those of announced problems with nothing queued that were told, or reminded last, at least the configured hours ago. |
| Agent.Agent.Allowed | scripts/host_runtime/app_ha_monitor.py:2048-2056 | The rate limit's answer, with the old pulse times dropped. |
| Agent.Agent.MaybePulse | scripts/host_runtime/app_ha_monitor.py:2077-2123 | The order of saves, pings and state changes of a pulse, up to the step after which the process dies. |
| Findings.WhatADeliveryDoes | scripts/host_runtime/app_ha_monitor.py:2101-2114 | An acknowledged pulse removes exactly what it carried, marks the problems of its NEWs as announced and of its REMINDERs as reminded at its second, records that second, and ends the note about merged changes. |
| Agent.Agent.SendHeartbeat | scripts/host_runtime/app_ha_monitor.py:2058-2075 | The same for the routine ping, which sends a pending clear first. |
| PulseRate.TheLimitIs | scripts/host_runtime/app_ha_monitor.py:2048-2056 | At any moment of any run, with deaths anywhere and the list filtered at every check, the limit lets a pulse through if and only if a minute has passed since the second of every recorded pulse and an hour since that of the twelfth last. |
| PulseRate.PulsesAreLimited | scripts/host_runtime/app_ha_monitor.py:2048-2056 | In any run on a clock that does not go back, a pulse that the server handles comes more than 59 seconds after every recorded one and more than 3599 after the twelfth last recorded one; 60 and 3600 if those were on whole seconds. |
| PulseRate.AnEarlyPulseIff | scripts/host_runtime/app_ha_monitor.py:2048-2056 | In any run, another pulse may come within the minute after the last recorded one if and only if that one was not on a whole second, the clock is not past that minute, and the hour allows one more. |
| PulseRate.AThirteenthPulseIff | scripts/host_runtime/app_ha_monitor.py:2048-2056 | In any run, a thirteenth pulse may come within the hour after the twelfth last recorded one under the like condition and no other. |
| PulseRate.OnePulseIsRecorded | scripts/host_runtime/app_ha_monitor.py:2077-2123 | Such runs exist: a first pulse may be recorded at any time, and a second less than a minute later exactly if that was not a whole second. |
| PulseRate.APulseComesAgainIff | scripts/host_runtime/app_ha_monitor.py:2092-2114 | A pulse that the server handled is sent again at once if and only if it was not recorded: the agent did not learn that it arrived, or died before it saved its time. |
| Debounce.ProblemsFollowTheHistory | scripts/host_runtime/app_ha_monitor.py:1967-2012 | In every run with deaths, a key's problem is open, in memory and on disk, if and only if some run of failures of the threshold's length in its history was not followed by enough passes in a row or by its disappearance. |
| Debounce.CheckRunCounts | scripts/host_runtime/app_ha_monitor.py:1939-2012 | One check run makes of the counters and the problem what the observations it adds to the history make of them. |
| Debounce.AFailingCheckTouchesOnlyItsOwnKey | scripts/host_runtime/app_ha_monitor.py:1960-1965 | A check that fails changes nothing about any key but its own `agent:` key. |
| Debounce.WhoClosesAProblem | scripts/host_runtime/app_ha_monitor.py:1939-1965 | A problem closes only by a passing result about it, by its owner no longer reporting it, or, for an `agent:` key, by its check working again. |
| Debounce.AKeyHasOneOwner | scripts/host_runtime/app_ha_monitor.py:1514-1523 | Checks with distinct colon-free prefixes never own a key together. |
| Debounce.TablesAreDisjoint | scripts/host_runtime/app_ha_monitor.py:1526-1551 | The tables of all four roles are such checks. |
| Hysteresis.OpenIsOpenByHistory | scripts/host_runtime/app_ha_monitor.py:1979-2012 | Counting trailing failures and passes means the history statement about runs of them. |
| PulseBody.PulseCarriesWhatFits | scripts/host_runtime/app_ha_monitor.py:1726-1781 | A pulse of a non-empty outbox carries something in at most 8000 bytes of UTF-8: a prefix of each section, a less important section only where all more important ones are whole, no item dropped without need, and p1 exactly when a carried NEW or REMINDER is p1. |
| PulseBody.ComposeEventBody | scripts/host_runtime/app_ha_monitor.py:1726-1781 | The popping loops and the downgrade of the marker compute the specification of the previous row. |
| PulseBody.TrimDropsTheLeast | scripts/host_runtime/app_ha_monitor.py:1762-1770 | Dropping one item at a time, least important first, stops at the least number with which the body fits. |
| PulseBody.SingleItemFits | scripts/host_runtime/app_ha_monitor.py:1722-1781 | A body with one item always fits, whatever its key, message and header: so a non-empty outbox drains. |
| PulseBody.EventBodyMarkers | scripts/host_runtime/app_ha_monitor.py:1738-1781 | An event body's marker words are exactly the two of its first line, whatever names and messages it has. |
| PulseLayout.ABodyReadsAs | scripts/host_runtime/app_ha_monitor.py:1714-1760 | Read line by line, a body is its first line, the event line, the time line, the note about merged changes if any, then under each title that has items NEW, REMINDER, RESOLVED and ONGOING exactly the lines of that section's items, with priority, padded key and message, and the number of items left out. |
| PulseLayout.BytesAreCounted | scripts/host_runtime/app_ha_monitor.py:1764 | The length that is limited is that of the text in UTF-8. |
| PulseBody.QuietBodies | scripts/host_runtime/app_ha_monitor.py:1784-1793 | A heartbeat body has no marker word, and a clear body only its first. |
| Text.SanitizeCleans | scripts/host_runtime/app_ha_monitor.py:199-207 | The result has at most 300 characters, no control character below a space or 0x7F, no marker word in any letter case, and no edge or double spaces; exactly such texts are left alone, so sanitizing is idempotent. It is one line if and only if none of U+0085, U+2028 and U+2029 stands between two characters that are neither spaces nor controls, in the text itself or, when it is cut, in the 297 characters that are kept before the dots. |
| Text.OneLineStays | scripts/host_runtime/app_ha_monitor.py:199-207 | A text with no such break between such characters always becomes one line, cut or not; so a single line stays one. |
| SanitizedWords.SanitizingKeepsTheWords | scripts/host_runtime/app_ha_monitor.py:199-207 | Sanitizing keeps the words of a text in their order, but for letter case and hyphens; of a text that is cut, the words of its first 297 characters. |
| Text.SomeLineBreaksStay | scripts/host_runtime/app_ha_monitor.py:199-207 | An input for each: a, the break, b comes back as it is, on two lines. |
| Text.NoNewMarker | scripts/host_runtime/app_ha_monitor.py:87 | Breaking the marker words of a text makes no new one across the break. |
| SwitchWorld.EnvKeeps | scripts/host_runtime/instant_switch.py:225-245 | Whatever happens between two requests, guest writes, the commit job's copying, pivot or failure, and stops and starts of the VM included, the guest keeps reading what it wrote and the config names the zvol only if the zvol alone is its disk; a guest stays switchable unless its VM is booted from another disk than it last ran on. |
| SwitchWorld.CommandKeeps | scripts/host_runtime/instant_switch.py:247-354 | A request of the helper in a state in which it is allowed keeps the invariant and changes nothing that the guest has or reads. |
| SwitchWorld.CommandKeepsIff | scripts/host_runtime/instant_switch.py:247-354 | Those states are exact: an accepted request keeps the invariant and what the guest reads if and only if the zvol is filled where it is a reopen, and is the guest's whole disk where it points the config at it. |
| SwitchWorld.OnlyAReopenIsSeen | scripts/host_runtime/instant_switch.py:247-345 | In any world, also one no invariant holds in, the guest sees a request if and only if it is an accepted reopen over a zvol that is not filled. |
| SwitchWorld.ReopenIsInvisibleIff | scripts/host_runtime/instant_switch.py:266-273 | Reopening the overlay over the zvol is invisible to the guest if and only if the zvol has the restore point's data wherever the overlay has none. |
| SwitchWorld.PointingIsSafeUnlessReverted | scripts/host_runtime/instant_switch.py:339-345 | Whatever happens between the last look at a pivoted disk and the change of the config, an accepted change names the zvol while the running VM is on it if and only if the VM was not booted from its overlay meanwhile. |
| SwitchWorld.PointingAtADiskNotRunOn | scripts/host_runtime/instant_switch.py:339-345 | Such a restart goes unnoticed: the change is accepted, and the config names a disk that the VM does not run on. |
| SwitchWorld.ARestartBeforeTheConfigChange | scripts/host_runtime/instant_switch.py:366-383 | From the moment of the pivot, after any guest writes, a VM that is restarted before the config change keeps its disk if and only if the last write to every block, if any, put back what the block was at the pivot. |
| SwitchWorld.AWriteAfterThePivotMayBeLost | scripts/host_runtime/instant_switch.py:366-383 | An input: a guest of one block whose write after the pivot is lost. |
| SwitchWorld.AReopenAfterARestartIff | scripts/host_runtime/instant_switch.py:266-273 | From the moment of the pivot, after any guest writes, a restart of the VM from its overlay, and any further writes, a rerun's reopen is accepted; the guest does not see it, and the disk may be switched again at all, if and only if the last write since the pivot to every block that the overlay then lacks, if any, left there what the restore point has. |
| SwitchWorld.AMixedDisk | scripts/host_runtime/instant_switch.py:366-383 | An input: a reachable guest of two blocks that, once a rerun has reopened its overlay, reads one block as it booted and the other as it was written before the restart. |
| Switch.ARerunEndsOnTheMix | scripts/host_runtime/instant_switch.py:366-383 | That rerun ends with the config naming the zvol and the VM on it: every later request of it is accepted and every look shows what the helper expects, but the zvol is not the guest's disk. |
| Switch.Switch.Run | scripts/host_runtime/instant_switch.py:366-383 | From wherever an earlier run stopped, and whatever happens between its requests: it ends with the running guest on the zvol and the config naming it, or is refused; at every moment of it the invariant holds, no request changes what the guest reads, and another run could be started, up to the first start, if any, that boots the VM from another disk than it last ran on; after such a start too the guest sees no request but a reopen over a zvol that is not filled; once the disk is on the zvol another run asks for no block job; and in a helpful environment it is not refused. |
| Switch.EachMoment | scripts/host_runtime/instant_switch.py:366-383 | What a run's record tells: it leads without a gap from the first world to the last, each moment is a step of the environment or a request, and is what the previous row says of it. |
| Switch.Switch.State | scripts/host_runtime/instant_switch.py:225-245 | The answer, and whether there is one, is exactly that of the world at its three looks. Switched means that the zvol is the running VM's whole disk and backup that the zvol is filled, also after whatever happens between the looks, until a start that boots the VM from another disk than it last ran on. |
| Switch.Switch.Commit | scripts/host_runtime/instant_switch.py:313-337 | The job is started, waited for, completed and dismissed without changing what the guest reads; in a helpful environment the disk is on the zvol afterwards. |
| Switch.Switch.PointConfigAtTarget | scripts/host_runtime/instant_switch.py:339-345 | It succeeds if and only if the config is neither locked nor pending and names the zvol, or the overlay with one size and is free again when it is set; the config names the zvol afterwards exactly then, and the zvol is still the guest's whole disk unless the VM was booted from its overlay meanwhile. |
| Switch.Switch.CheckProxmoxAgrees | scripts/host_runtime/instant_switch.py:347-354 | It agrees if and only if the config names the zvol and the VM runs on its node; then, unless the VM reverted, the zvol is its whole disk. |
| Switch.Switch.Attach | scripts/host_runtime/instant_switch.py:356-364 | It succeeds if and only if the config is neither locked nor pending and names the overlay, or the zvol while the VM is stopped, with one size, and is free again when it is set; the config names the overlay afterwards exactly then, and otherwise what it named. |
| Switch.AHelpfulBatch | scripts/host_runtime/instant_switch.py:292-311 | Copying every block and letting the job advance is the progress that the helper waits for. |
| Drive.SwitchedDriveKeepsTheOptions | scripts/host_runtime/instant_switch.py:160-166 | The switched setting exists exactly when there is one size option; it names the new volume, keeps every other option in its place and has the device's size. |
| Drive.SwitchingTwice | scripts/host_runtime/instant_switch.py:160-166 | Switching back and forth forgets what was in between. |
| Drive.FormatSizeReadsBack | scripts/host_runtime/instant_switch.py:140-144 | A formatted size reads back as the exact byte count. |
| Drive.TheUnitIsTheLargest | scripts/host_runtime/instant_switch.py:140-144 | Its unit is the largest that divides the size. |
| Zpool.ForestOfFlatten | scripts/utilities/host_storage.py:76-135 | The indented printing of any forest, however deep, is read back as the same forest in the same order. |
| Zpool.ForestKeepsTheOrder | scripts/utilities/host_storage.py:104-135 | Whatever the indents, no entry is lost, doubled or moved. |
| Zpool.LexPrint | scripts/utilities/host_storage.py:92-110 | A printed entry is read back, whatever counts and notes follow it. |
| Zpool.ParseConfig | scripts/utilities/host_storage.py:88-135 | The loop with its stack of indents gives each section the forest its lines show, and refuses a listing exactly when a heading is missing or unknown. |
| Zpool.WhichHeadings | scripts/utilities/host_storage.py:55-123 | A heading is the pool's name or one of five words. |
| ZpoolMonitor.ListingIsReadBack | scripts/utilities/host_storage.py:88-135 | A printed listing of several sections is read back section by section. |
| ZpoolMonitor.ParsePool | scripts/host_runtime/app_ha_monitor.py:304-333 | The loop lists each line's name, depth and state as `LexFlat` reads them. |
| ZpoolMonitor.BothReadAlike | scripts/host_runtime/app_ha_monitor.py:304-333 | The flat list has the entries that the other parser reads, with their depths, wherever no line is a device called NAME with STATE among its notes. |
| ZpoolMonitor.BothReadLinesAlike | scripts/host_runtime/app_ha_monitor.py:319-331 | Both parsers read every line alike but one kind, and that kind is exactly described. |
| ZpoolMonitor.LeavesAreTheChildless | scripts/host_runtime/app_ha_monitor.py:336-343 | The tree's leaves are the entries that the flat list shows without children. |
| ZpoolMonitor.PoolProblemMembers | scripts/host_runtime/app_ha_monitor.py:336-359 | The loop over the flat list with its list of parents computes the specification `Scan`, which the next two rows are about. |
| ZpoolProblems.ExactlyTheProblemsAreTold | scripts/host_runtime/app_ha_monitor.py:336-359 | For every list, however indented: one line, in order, for each entry below a heading that has a state other than ONLINE, or AVAIL and INUSE under the spares, and is not DEGRADED with a deeper entry following; the line names the entry and its state. So nothing is told if and only if there is no such entry. |
| ZpoolProblems.TheTreesAreTold | scripts/host_runtime/app_ha_monitor.py:336-359 | For every printed listing, headings at no indent and two spaces a level, the lines are those of the trees in order, each with the parent that it has in its tree. |
| Egress.RotatedVisitsEachOnce | scripts/host_runtime/egress_health.py:188-196 | A probing order visits every active target exactly once. |
| Egress.Rotation.Check | scripts/host_runtime/egress_health.py:188-223 | The check succeeds exactly when an active target answers; it fails only after probing each once; strikes, retirement and the next position are exactly specified; the active count does not fall below five. |
| Egress.StrikesKeepEnoughTargets | scripts/host_runtime/egress_health.py:225-233 | Strikes retire only struck targets with enough strikes, and never leave fewer than five active. |
| Egress.WhatAStrikeDoes | scripts/host_runtime/egress_health.py:225-233 | A strike counts one more, and retires its target if and only if it is the fifth or a later one and more than five targets are in use. |
| Egress.WhatStrikesDo | scripts/host_runtime/egress_health.py:206-233 | Each failed target gets one strike, and one with five or more is still in use only where no more than five are. |
| Egress.WhatSettlingDoes | scripts/host_runtime/egress_health.py:199-223 | When a target answers, it has no strikes left, those asked before it have one more, and no other target changes. |
| Egress.FallbackOrderIsTheOtherHosts | scripts/host_runtime/egress_health.py:103-106 | The order is a permutation of the other hosts. |
| Egress.TheNearestIsFound | scripts/host_runtime/egress_health.py:286-299 | Of the other hosts that answer, the nearest after this one is chosen. |
| Egress.ModeFollowsTheHistory | scripts/host_runtime/egress_health.py:256-284 | Egress is off the own connection if and only if three failed checks in a row have not been followed by five good ones in a row. |
| Egress.RouteMatchesTheMode | scripts/host_runtime/egress_health.py:256-299 | After every tick the route set last matches mode and fallback, a fallback host answered in that tick and is the one kept or the nearest that answered, and egress is nowhere only when no other host answered. |
| Egress.Health.TickOnce | scripts/host_runtime/egress_health.py:256-284 | The updates of one tick, and its probes in order, are the specification that the two rows above are about. |
| Transfer.PeriodsPartitionTheCalendar | scripts/host_runtime/transfer_counter.py:49-61 | Today lies in its period, and a date has the same period start if and only if it lies between that start and the next reset, for all months and leap years. |
| Transfer.NextDayIsAdjacent | scripts/host_runtime/transfer_counter.py:49-61 | The day after a date is the least later date, and the day before undoes it: what a day's timedelta means. |
| Transfer.LaterDatesHaveLaterPeriods | scripts/host_runtime/transfer_counter.py:49-55 | Periods follow the dates' order. |
| Transfer.NeverOvercounts | scripts/host_runtime/transfer_counter.py:64-103 | In every run with restarts the counted bytes, summed over all periods, never exceed the true bytes, and equal them without a restart. |
| Transfer.ReadingError | scripts/host_runtime/transfer_counter.py:82-91 | What one reading misses, exactly, in every case. |
| Transfer.EachPeriodResetsOnce | scripts/host_runtime/transfer_counter.py:92-103 | While dates do not go back, each period's total is reset exactly once, when the next one begins. |
| Transfer.TheResetIsDated | scripts/host_runtime/transfer_counter.py:97-101 | The date of the last reset is that of the first reading in the current period, and there is none in the first period. |
| Tunnel.ProductionEntries | scripts/host_runtime/tunnel_config.py:102-129 | Rows are accepted exactly when each is in its slot and no number comes twice; the same rows come back in order. |
| Tunnel.Routes | scripts/host_runtime/tunnel_config.py:132-148 | The loop that fills the owners returns every host name with its owner and address, or refuses exactly when a name would have two owners. |
| Tunnel.WhichRoutes | scripts/host_runtime/tunnel_config.py:132-148 | The routes are exactly: each domain of a production guest to its address, and the host name of each of its staging slots to that slot's address. |
| Tunnel.StageHostsDiffer | scripts/host_runtime/tunnel_config.py:139-141 | No two staging slots have the same host name. |
| Tunnel.RoutesAreAcceptedIff | scripts/host_runtime/tunnel_config.py:132-148 | For rows that the registry accepts, the routes are refused if and only if a registered domain is the host name of a staging slot, taken or free. |
| RegistryExamples.RefusedRoutes | scripts/host_runtime/tunnel_config.py:132-148 | An input: a reachable, valid registry whose routes are refused. |
| Tunnel.RegistryRowsAreAccepted | scripts/host_runtime/cluster_registry.py:3695-3712 | Every reachable registry's rows are in their slots, distinct and in order. |
| Tunnel.StagingLeavesTheRoutesAlone | scripts/host_runtime/cluster_registry.py:3695-3712 | Allocating, releasing or finalizing a staging guest leaves the tunnel's rows and the policy's slots as they are, and so the routes. |
| Tunnel.NewStagingIsAlreadyRouted | scripts/host_runtime/cluster_registry.py:2226-2230 | A new staging guest's host name and address are among the routes before it is allocated, and the routes are accepted exactly when no registered domain is a staging slot's host name. |
| TunnelRuns.ServedIff | scripts/host_runtime/tunnel_config.py:132-148 | The tunnel serves a registered staging guest under its own name and address if and only if its name is under its source's present primary domain and no registered domain is a staging slot's host name. |
| TunnelRuns.StagingStaysNamedIff | scripts/host_runtime/cluster_registry.py:2646-2657 | Every command keeps all staging guests under their sources' present primary domains, except exactly an update of the primary domain of a staging guest or of a production guest that has one. |
| TunnelRuns.EveryStagingGuestIsServedIff | scripts/host_runtime/cluster_registry.py:3695-3712 | So in every run without such an update a registered staging guest is served exactly while no registered domain is a staging slot's host name. |
| TunnelRuns.ARenamedGuestIsNotServed | scripts/host_runtime/cluster_registry.py:2646-2657 | And such an update leaves a registered guest that the tunnel does not serve. |
| RegistryExamples.AGuestThatIsNotServed | scripts/host_runtime/cluster_registry.py:2646-2657 | An input: a reachable registry with such a guest. |

## Left out

Members whose contract is weaker than, or assumes more than, the source's promise:

- Switch.Switch.Run: after a start that boots the VM from another disk than it last ran on, it may end on a mixed disk (Switch.ARerunEndsOnTheMix); it then promises only that the guest notices no request but such a reopen. Exactly when that start loses data is stated by SwitchWorld.ARestartBeforeTheConfigChange, when a rerun mixes it by SwitchWorld.AReopenAfterARestartIff, and what the config change does by SwitchWorld.PointingIsSafeUnlessReverted. Its success needs an environment that makes progress at every look.
- Switch.Switch.State: after such a start the answer backup does not mean that the zvol is filled; SwitchWorld.AReopenAfterARestartIff says when it does.
- Switch.Switch.Commit: timeouts are a number of looks, not seconds.
- SwitchWorld.EnvKeeps: QEMU is an assumption: a commit job copies again what was written meanwhile and pivots only when everything is copied, and a request is done or refused as a whole.
- Drive.SwitchedDriveKeepsTheOptions: the text of the scsi0 setting is apart from the switch's state, which only knows whether there is a single size option.
- RegistryRuns.EveryRunKeepsTheInvariant: ids that are handed out are new (UUIDs), and a command's policy is the one in force; Lock drops the second condition.
- RegistryStore.Registry.Update: the options about sizes and monitoring only count as a change.
- RegistryStore.Registry.RecordOwner: recorded vCPUs, RAM and disk sizes are not modelled, so a change of these alone is no change.
- RegistryStore.Registry.Reconcile: which reservations are stale and which cleanups were seen completed are inputs; the report's list of issues is not modelled.
- RegistryCleanup.PruneLeavesTheBound: records are pruned in the order they were made; the source sorts by a creation time in whole seconds and then by id.
- RegistryStore.Registry.PruneCompleted: the same order.
- Lock.EveryInterleavingKeepsTheProtocol: stale locks are not broken, and a command reads the registry in one step under the lock.
- PulseRate.PulsesAreLimited: the clock does not go back.
- PulseBody.PulseCarriesWhatFits: the two lists together have fewer items than a machine word counts.
- Debounce.ProblemsFollowTheHistory: a key is always reported with one pair of thresholds.
- Zpool.ParseConfig: only the config part, by spaces and tabs; a child list is filled when its node is closed, where the source appends to it while it is shared with its parent.
- ZpoolMonitor.ParsePool: a member's counts and notes are not listed; only its name, depth and state.
- ZpoolProblems.TheTreesAreTold: printed listings only; ZpoolProblems.ExactlyTheProblemsAreTold holds for any indents, but leaves open which earlier entry a line names.
- Transfer.NeverOvercounts: a reading is taken at one instant, and counters only grow between restarts.
- Tunnel.ProductionEntries: the format of domain names is not validated.
- Tunnel.Routes: the same.

Not part of this model:

- Real files, pmxcfs, fsync, symbolic links, JSON and command lines; a file replacement is atomic, and saving is a copy.
- Breaking stale locks, which depends on file ages.
- Formats of domains (IDNA), MACs, GUIDs, volume names and other identifiers, beyond what an invariant needs; a MAC, which the source hashes from the name, is an injective function of it.
- Sizes, monitoring settings, timestamps, notes and history files in the registry's records; host slots and cluster control.
- A record's kind, index and source apart from its name, which decides them.
- `command_init`, `command_list` and the other commands that only report.
- The order of ONGOING items, the contents of log lines, the meaning that the mail filters give to markers, and `command_test_pulse`, which sends from another process.
- Python's surrogate characters and its range of years.
- QEMU's node names beyond whether the expected node is there; a zvol node that still has a backing node, which the source checks.
- The header of `zpool status`, member counts and notes, and the removal progress.
- HTTP, TLS, DNS, ping and route commands of the egress service; which targets answer is an input.
- Rendering of the tunnel's configuration file and its credentials.
- Check functions that parse tool output, renderers and reports, package building, the guest tree patcher and the user interface: each is a single branch or plumbing.
