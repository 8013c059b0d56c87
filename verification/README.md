# A model of node-disk-manager

This project models the parts of node-disk-manager in which several programs have to agree: the claim protocol
around BlockDevice and BlockDeviceClaim objects, the cleanup of released devices, and the node daemon that stores
what it finds on a node. It also models the daemon's supporting algorithms: device selection, partition tables,
mount table differences, mount attributes and feature gates. Everything below is proved for all inputs, all runs or
all reachable states; only the rows of `Scenarios` are single runs, which show that a stronger promise does not hold.

## How it is built

- `Objects.dfy` holds the two resources and the small writes on them.
- `Protocol.dfy` is the claim protocol as a state machine. The API server keeps every version ever stored, so a stale
  read is a read of any logged version, and an update goes through only if its version is current. A reconcile that
  writes twice leaves an intent between the writes; anything may happen before it is carried out, and it may be lost.
  Cleanup jobs are logged the same way, so a stale read of a job shows a state that a job of that name was once in.
- `Invariant.dfy`, `ClaimSafety.dfy`, `Cleanup.dfy`, `Conservation.dfy`, `Completion.dfy`, `Frames.dfy` and
  `DaemonFrame.dfy` prove what holds over whole runs. `Scenarios.dfy` gives concrete runs that show where stronger
  promises end, and `CleanupLimits.dfy` and `Conservation.dfy` say exactly which steps end them.
- `ApiServer.dfy` is the server as a class. Its ghost history is a run of the protocol, and between any two calls all
  other actors may act; `Interference.dfy` proves how far they can affect one caller. `quiet` is the case without
  interference and errors, for which the methods state their whole effect.
- `ClaimController.dfy` and `DeviceController.dfy` are the two reconcilers on top of that server, with the cleaner and
  the job controller. `Selection.dfy` is the choice of a device, and `ClaimOutcomes.dfy` says what a claim gets.
- `Daemon.dfy`, `DaemonStore.dfy`, `AddHandler.dfy`, `DeleteHandler.dfy` and `EventHandler.dfy` are the node daemon;
  `AddSafety.dfy` proves what an add event may do, `AddProgress.dfy` what it does, and `EventOutcomes.dfy` what whole
  events lead to. `Partition.dfy` writes partition tables.
- `MountDiff.dfy`, `MountMoves.dfy`, `MountTable.dfy`, `MountAttr.dfy`, `Features.dfy` and `Text.dfy` are the
  supporting algorithms.

Reads that may be stale, failing calls and interference are nondeterministic. Hashing, probing, label computation and
the daemon's own filters are uninterpreted functions given as parameters.

`Serial` is the discipline under which the cleanup promises hold: the device reconciler reads the current device and
the current job, the work queue hands out each device to one reconcile at a time, and deleting a job takes effect at
once. `Any` drops all of this; the claim promises hold under `Any`, and so do the cleanup promises in every run that
takes none of the steps `CleanupLimits.dfy` names.

## Where the code and its documentation differ

- The list of resources is documented to leave out unmanaged resources, but the requirement is added to a selector
  whose result is dropped (cmd/ndm_daemonset/controller/blockdevicestore.go:186-195). The model follows the code.
- Reconcile-disabled resources are documented to be removed from the list; of two neighbours the second stays.
- The device reconciler compares the reconcile annotation with `false` exactly, the daemon accepts any falsy word.

## Model

| member | source | states |
|---|---|---|
| Invariant.RunKeepsInv | pkg/controllers/blockdeviceclaim/blockdeviceclaim_controller.go:62-311 | In every state of every run, under any interleaving, stale reads and rejected writes, the protocol invariant holds: well-formed versions, claims whose newer versions keep what older ones say, every live bound claim backed by the device it names, every pending second write still safe |
| Invariant.StepKeepsInv | pkg/controllers/blockdeviceclaim/blockdeviceclaim_controller.go:62-311 | Every action of every actor (users, claim reconciler, device reconciler, cleanup, daemons, jobs) keeps the invariant |
| Invariant.ReleasedDeviceNotNeeded | pkg/controllers/blockdeviceclaim/blockdeviceclaim_controller.go:249-293 | The device a release writes is needed by no live bound claim and by no bind that could still succeed |
| Invariant.DeviceWriteOk | pkg/controllers/blockdeviceclaim/blockdeviceclaim_controller.go:281-305 | Whatever any actor writes to a device is well formed and takes it away from nobody who needs it |
| Invariant.ClaimWriteOk | pkg/controllers/blockdeviceclaim/blockdeviceclaim_controller.go:208-223 | Whatever is written to a claim removes it, or is a well-formed successor that, if live and bound, holds the device it names |
| ClaimSafety.LiveClaimHoldsItsDevice | pkg/controllers/blockdeviceclaim/blockdeviceclaim_controller.go:157-173 | In every reachable state a Bound claim not marked for deletion names a device that is Claimed with a reference carrying that claim's uid |
| ClaimSafety.NoDoubleClaim | pkg/controllers/blockdeviceclaim/blockdeviceclaim_controller.go:157-173 | Two live Bound claims never name the same device |
| ClaimSafety.StoredObjectsAreWellFormed | pkg/controllers/blockdeviceclaim/blockdeviceclaim_controller.go:229-246 | Every version ever stored: Claimed exactly if referenced, device finalizer exactly once while Claimed or Released and never while Unclaimed, claim finalizer exactly once while Bound |
| ClaimSafety.Lifecycle | pkg/controllers/blockdeviceclaim/blockdeviceclaim_controller.go:264-305 | Each step of each run moves a device only Unclaimed, Claimed, Released, Unclaimed; it is claimed for a claim that was searching, and released only after the claim named in its reference was marked for deletion with the system's finalizer the only one left |
| Cleanup.RunRefines | pkg/cleaner/cleaner.go:85-124 | With exclusive cleanup reconciles and fresh reads, every run seen from one device is a path of a seven-state automaton in which the only way from in use back to free leads through a started, succeeded and collected job |
| Cleanup.CleanupBeforeReuse | pkg/cleaner/cleaner.go:85-124 | Whenever the release of a device ends, a cleanup job was created and succeeded within that same release |
| Cleanup.JobsOnlyWhileReleased | pkg/cleaner/jobcontroller.go:187-252 | No cleanup job exists while its device is Claimed, Unclaimed or gone |
| Cleanup.JobsStartOnActiveDevices | pkg/cleaner/cleaner.go:106-123 | A job is only started for a Released device that its reconcile had read as Released and Active |
| Cleanup.ReleaseEnds | pkg/controllers/blockdevice/blockdevice_controller.go:87-95 | A device leaves Released only by the freeing write of a reconcile that has collected its cleanup job |
| Cleanup.StepKeepsCleanInv | pkg/cleaner/jobcontroller.go:187-252 | Jobs and cleanup reconciles exist only on released devices, one reconcile per device, and a collected job is gone |
| Conservation.Conserved | pkg/controllers/blockdeviceclaim/blockdeviceclaim_controller.go:125-206 | When claim and release reconciles run uninterrupted, bound claims and claimed devices correspond exactly, in both directions, through every step of every run |
| Conservation.AsManyBoundAsClaimed | pkg/controllers/blockdeviceclaim/blockdeviceclaim_controller.go:125-206 | In those runs there are always exactly as many Bound claims as Claimed devices |
| Conservation.MatchedStepIff | pkg/controllers/blockdeviceclaim/blockdeviceclaim_controller.go:125-206 | From a matched cluster, under any interleaving, one step keeps the correspondence if and only if it is not a device write of a claim or of a release, nor the claim write of a release, that goes through |
| Conservation.MatchedRunIff | pkg/controllers/blockdeviceclaim/blockdeviceclaim_controller.go:125-206 | A run keeps the correspondence in every state up to n if and only if none of its first n steps is such a write |
| Conservation.HolderNext | pkg/controllers/blockdeviceclaim/blockdeviceclaim_controller.go:281-305 | Only a claim write and a release write change who holds a device, and exactly as stated |
| Conservation.HoldingNext | pkg/controllers/blockdeviceclaim/blockdeviceclaim_controller.go:197-217 | Only the second write of a claim or of a release changes what a claim holds, and exactly as stated |
| Completion.CompletedIsMatched | pkg/controllers/blockdeviceclaim/blockdeviceclaim_controller.go:125-206 | In every state of every run, under any interleaving and stale reads: if every device write of a claim or release so far was followed at some later time by its claim write, bound claims and claimed devices correspond exactly |
| Completion.BoundToOne | pkg/controllers/blockdeviceclaim/blockdeviceclaim_controller.go:208-223 | Over a whole run a claim is bound to one device only, whatever was tried in between |
| Completion.BoundOnce | pkg/controllers/blockdeviceclaim/blockdeviceclaim_controller.go:208-223 | Once a claim was bound, no later bind of it goes through |
| Scenarios.InterruptedClaimLeavesDeviceClaimed | pkg/controllers/blockdeviceclaim/blockdeviceclaim_controller.go:165-173 | A run in which the claim write fails after the device write leaves a device claimed by a claim that is not bound |
| Scenarios.InterruptedClaimMisleadsRelease | pkg/controllers/blockdeviceclaim/blockdeviceclaim_controller.go:263-283 | After an interrupted claim the retry binds another device, the release frees the first one, and the claim is gone while the device it was bound to stays claimed |
| Scenarios.RetryRepairsInterruptedClaim | pkg/controllers/blockdeviceclaim/blockdeviceclaim_controller.go:249-293 | The converse of Completion.CompletedIsMatched fails: a run in which a device was taken but never bound, nothing is pending, and everything corresponds again because the retry of an interrupted release released a second device of the claim |
| Scenarios.StaleReadWipesDeviceInUse | pkg/cleaner/cleaner.go:106-121 | Without exclusive reconciles and fresh reads, a cleanup job exists for a device in use |
| Scenarios.StaleJobReadFreesUncleaned | pkg/cleaner/jobcontroller.go:187-234 | With fresh reads of the device and one reconcile at a time, a single stale read of the job, which shows the success of an earlier release, frees a device although no job has succeeded in this release |
| CleanupLimits.JobsReleasedStepIff | pkg/cleaner/cleaner.go:106-121 | Under any interleaving and stale reads, a step keeps cleanup jobs on released devices if and only if it neither starts a job for a device that is no longer released nor frees a device that has a job |
| CleanupLimits.ResultsTrueStepIff | pkg/cleaner/jobcontroller.go:208-234 | Likewise, a job a reconcile is about to collect has succeeded, and a step keeps this if and only if it neither takes an unfinished job for a successful one nor starts a new job in place of one seen to succeed |
| CleanupLimits.OrderlyRunIff | pkg/cleaner/cleaner.go:85-124 | Both hold in every state of a run up to n if and only if none of its first n steps is of those four kinds |
| CleanupLimits.SerialStepIsOrderly | pkg/cleaner/cleaner.go:85-124 | With fresh reads and one reconcile per device there is no such step |
| CleanupLimits.OrderlyRunsCleanBeforeReuse | pkg/cleaner/cleaner.go:85-124 | In every run without such steps, whatever is read, the release of a device ends only after a cleanup job was created and succeeded within it |
| CleanupLimits.NeverFreedUncleaned | pkg/cleaner/cleaner.go:85-124 | In every run, whatever is read and however reconciles overlap, no release of a device ends before some cleanup job of that device has succeeded, in this release or an earlier one |
| Frames.DeviceRun | pkg/controllers/blockdeviceclaim/blockdeviceclaim_controller.go:249-311 | In every step of every run the one device an action reaches changes as the action says and no other changes: claiming, releasing and freeing leave name, labels, annotations, state and every other field of the specification and every foreign finalizer alone; a refused write changes nothing |
| Frames.ControllersKeepTheRest | pkg/controllers/blockdevice/blockdevice_controller.go:87-127 | However often a device is claimed, released and freed, between the writes of users and daemons nothing but its claim data changes |
| Frames.ClaimRun | pkg/controllers/blockdeviceclaim/blockdeviceclaim_controller.go:208-223 | The same for claims: binding changes phase, bound device and the system's finalizer, waiting only the phase |
| Frames.MergeRefreshes | cmd/ndm_daemonset/controller/blockdevicestore.go:289-347 | A merge takes node, size, path, links and state from the probe, overlays labels and annotations key by key, and takes the rest of the specification from the probe exactly if the device is unclaimed |
| DaemonFrame.DaemonsKeepClaimData | cmd/ndm_daemonset/controller/blockdevicestore.go:86-134 | Any sequence of daemon writes keeps every device's reference, claim state and finalizers, and while it is in use its file system and details |
| DaemonFrame.MergeIsIdempotent | cmd/ndm_daemonset/controller/blockdevicestore.go:289-347 | Merging the same probe result again changes nothing |
| Interference.OthersInterfere | pkg/controllers/blockdeviceclaim/blockdeviceclaim_controller.go:62-121 | Any number of actions of other actors leaves a caller's pending writes and cleanup session in place, only adds versions, starts no second cleanup of its device and never replaces its job |
| ApiServer.Server.UpdateDevice | pkg/controllers/blockdeviceclaim/blockdeviceclaim_controller.go:285-289 | Whatever the others do, the update is the last step of the history; success means the version was current at that step, rejection that it was not, and an error leaves both open; the right to the second write is gained exactly if it was applied |
| ApiServer.Server.UpdateClaim | pkg/controllers/blockdeviceclaim/blockdeviceclaim_controller.go:217-222 | The same for claims; a second write uses up the intent its first write left, applied or not |
| ApiServer.Server.ListDevices | pkg/controllers/blockdeviceclaim/blockdeviceclaim_controller.go:329-360 | Every listed item was stored at some time and matches the selector; without interference the list is exactly the current matching devices |
| ApiServer.Server.DeleteJob | pkg/cleaner/jobcontroller.go:237-248 | Whatever the others do, a session that collects is marked cleaned exactly if the deletion is the last step of the history; otherwise the job is not there and the session is as before |
| ClaimController.Reconcile | pkg/controllers/blockdeviceclaim/blockdeviceclaim_controller.go:62-121 | A claim reconcile interleaved with all other actors is part of a run of the protocol; without interference its result, error and new state are as stated for every phase |
| ClaimController.ClaimDeviceForClaim | pkg/controllers/blockdeviceclaim/blockdeviceclaim_controller.go:125-174 | Invalid capacity sets Pending with an error; a bad selector is an error; an eligible device is claimed and the claim bound; none sets Pending |
| ClaimController.ClaimBlockDevice | pkg/controllers/blockdeviceclaim/blockdeviceclaim_controller.go:296-311 | The device write is the last step of the history and leaves the right to bind the claim exactly if it was applied, also when an error hides that it was |
| ClaimController.FinalizerHandling | pkg/controllers/blockdeviceclaim/blockdeviceclaim_controller.go:177-206 | A claim is released exactly if it is marked for deletion and the system's finalizer is the only one |
| ClaimController.ReleaseClaimedDevice | pkg/controllers/blockdeviceclaim/blockdeviceclaim_controller.go:249-293 | The device carrying the claim's reference is released; it is an error exactly if there is none; the scan never follows a missing reference |
| ClaimController.FindClaimed | pkg/controllers/blockdeviceclaim/blockdeviceclaim_controller.go:263-271 | The first device in the list whose name, uid and kind match, or none |
| ClaimController.GenerateSelector | pkg/controllers/blockdeviceclaim/blockdeviceclaim_controller.go:365-392 | The selector matches exactly the labels the claim's own selector matches, with the host name taken from the node attribute, else from the old field |
| ClaimController.ReconcileConserves | pkg/controllers/blockdeviceclaim/blockdeviceclaim_controller.go:62-121 | An uninterrupted reconcile keeps the exact correspondence of bound claims and claimed devices |
| ClaimController.ReconcileBinds | pkg/controllers/blockdeviceclaim/blockdeviceclaim_controller.go:157-173 | A searching claim with a candidate ends bound, to a candidate that is claimed for it |
| ClaimController.ReconcileReleases | pkg/controllers/blockdeviceclaim/blockdeviceclaim_controller.go:177-206 | In a matched cluster a release never fails: the device the claim names is Released and the claim no longer exists |
| ClaimOutcomes.BoundDeviceFits | pkg/select/blockdevice/select.go:25-98 | A searching claim that a reconcile binds got a device that was free, active and what it asked for: capacity, type, node, volume mode, labels, tag, or the very name; nothing else of claim and device changed and no other object did |
| ClaimOutcomes.FittingDeviceIsBound | pkg/select/blockdevice/select.go:25-98 | If some free device is what a searching claim with a valid selector asks for, the reconcile binds the claim to such a device without error |
| ClaimOutcomes.NoFitIsPending | pkg/controllers/blockdeviceclaim/blockdeviceclaim_controller.go:157-173 | A claim that no device fits becomes Pending without error, and nothing else changes |
| ClaimOutcomes.InvalidCapacityIsPending | pkg/controllers/blockdeviceclaim/blockdeviceclaim_controller.go:125-145 | A request for anything but a positive capacity is an error and leaves the claim Pending, and nothing else changes |
| ClaimOutcomes.InvalidPhaseIsPending | pkg/controllers/blockdeviceclaim/blockdeviceclaim_controller.go:102-111 | A claim in the phase for an invalid capacity becomes Pending |
| ClaimOutcomes.GivenUpOutcome | pkg/controllers/blockdeviceclaim/blockdeviceclaim_controller.go:177-293 | A claim marked for deletion that only the system protects: if a device carries its reference, one such device is released with nothing else of it changed and the claim is gone; if none does, it is an error and nothing changes |
| ClaimOutcomes.LeftAlone | pkg/controllers/blockdeviceclaim/blockdeviceclaim_controller.go:62-121 | A claim that is switched off, bound and still protected by others, or deleted before it was bound is left alone |
| DeviceController.Reconcile | pkg/controllers/blockdevice/blockdevice_controller.go:55-115 | A device reconcile interleaved with all other actors is part of a run of the protocol; without interference the new state is exactly as stated; the branch that adds a missing finalizer is dead for devices claimed by the system |
| DeviceController.ReleaseHandling | pkg/controllers/blockdevice/blockdevice_controller.go:76-99 | A released device is freed, with its finalizer removed, exactly if its cleanup job has succeeded |
| DeviceController.Clean | pkg/cleaner/cleaner.go:85-124 | Success is reported only after a succeeded job was deleted by this reconcile; a running job of an inactive device is cancelled; a job is started only for an active device on a known node; without interference the error is an unknown node where a job is needed |
| DeviceController.RunJob | pkg/cleaner/cleaner.go:144-159 | Starts the job exactly if the node is known and no job of that name exists, and otherwise gives an error |
| DeviceController.IsCleaningJobRunning | pkg/cleaner/jobcontroller.go:187-206 | A job that cannot be read counts as running; otherwise it runs until it has succeeded |
| DeviceController.RemoveJob | pkg/cleaner/jobcontroller.go:208-234 | Reports the state the job was found in and deletes it exactly if it had succeeded; under exclusive reconciles the running state cannot follow a check that found no running job |
| DeviceController.CancelJob | pkg/cleaner/jobcontroller.go:237-248 | A job that cannot be read is not deleted and gives an error |
| DeviceController.FreedOnlyAfterJob | pkg/controllers/blockdevice/blockdevice_controller.go:87-95 | A reconcile frees the device exactly if its job has succeeded, and touches no other device |
| DeviceController.JobAfterReconcile | pkg/cleaner/cleaner.go:85-159 | Exactly when a released device has a cleanup job after a reconcile; all other jobs are as they were |
| DeviceController.LeftAlone | pkg/controllers/blockdevice/blockdevice_controller.go:70-115 | A device that is not released or switched off is left alone |
| DeviceController.InactiveDeviceIsNotCleaned | pkg/cleaner/cleaner.go:88-113 | After a reconcile of an inactive released device no job is left |
| DeviceController.RepeatChangesNothing | pkg/cleaner/cleaner.go:88-98 | Repeating a reconcile before the job succeeds changes nothing, so at most one job is started |
| DeviceController.CleanupCompletes | pkg/cleaner/cleaner.go:85-124 | Reconcile, job success, reconcile takes an active released device on a known node to Unclaimed without finalizer and without job |
| DaemonStore.CreateBlockDevice | cmd/ndm_daemonset/controller/blockdevicestore.go:37-83 | Creates the device, or merges onto the existing one of that name |
| DaemonStore.UpdateBlockDevice | cmd/ndm_daemonset/controller/blockdevicestore.go:86-117 | Merges onto the given version, or the stored one; without interference it is applied exactly if that version is current, and otherwise reports a conflict exactly if the resource still exists |
| DaemonStore.DeactivateBlockDevice | cmd/ndm_daemonset/controller/blockdevicestore.go:120-134 | Whatever the others do, the last step of the history sets the state Inactive on that version, which goes through if the version is current; without interference nothing else changes |
| DaemonStore.MergeBlockDeviceData | cmd/ndm_daemonset/controller/blockdevicestore.go:289-305 | Field-by-field merge equals the merge function |
| DaemonStore.MergeMap | cmd/ndm_daemonset/controller/blockdevicestore.go:330-344 | Writing the new entries one by one, in any order, gives the union in which the new values win |
| DaemonStore.DropIgnored | cmd/ndm_daemonset/controller/blockdevicestore.go:208-214 | The removal loop, which skips the entry after each removed one, computes the thinned list |
| DaemonStore.ThinnedKeepsHeeded | cmd/ndm_daemonset/controller/blockdevicestore.go:208-214 | The loop loses no resource that should be kept and keeps their order |
| DaemonStore.ThinnedIsCleanIff | cmd/ndm_daemonset/controller/blockdevicestore.go:208-214 | The result is free of reconcile-disabled resources if and only if no two of them were next to each other |
| DaemonStore.FalsyIgnoresCase | pkg/util/util.go:44-57 | A word that switches reconciling off does so in any case |
| DaemonStore.FalsyWords | pkg/util/util.go:44-57 | The empty word, false and 0 switch off, true and 1 do not |
| DaemonStore.ListBlockDeviceResource | cmd/ndm_daemonset/controller/blockdevicestore.go:174-216 | Without interference: only current resources are listed, and every one of the node that is not disabled |
| DaemonStore.MarkBlockDeviceStatusToUnknown | cmd/ndm_daemonset/controller/blockdevicestore.go:267-282 | Without interference the state of every resource of the node that is not disabled, one after the other, becomes Unknown |
| DaemonStore.DeactivateStaleBlockDeviceResource | cmd/ndm_daemonset/controller/blockdevicestore.go:234-246 | Without interference exactly the listed resources of the node that are neither among the present devices nor among the node's sparse ones become Inactive |
| DaemonStore.AllSetMeans | cmd/ndm_daemonset/controller/blockdevicestore.go:267-282 | Marking a list of current resources changes the state of exactly those and nothing else of them |
| DaemonStore.GetExistingBlockDeviceResource | cmd/ndm_daemonset/controller/blockdevicestore.go:220-228 | The first resource of that name, or none |
| Daemon.ToDevice | cmd/ndm_daemonset/controller/blockdevice.go:79-90 | The resource has the device's uuid as its name and is active, unclaimed, unreferenced and without finalizers |
| Daemon.SameNameIff | cmd/ndm_daemonset/probe/uuid.go:31-105 | With a hash without collisions two devices of a kind get the same name exactly if the identifier of that kind agrees: path, mapper uuid, partition uuid, WWN with serial number, file system uuid or table uuid, in the order in which they are tried |
| Daemon.NameIsStable | cmd/ndm_daemonset/probe/uuid.go:31-105 | Except for loop devices the name does not depend on where the device is attached or what is done with it |
| Daemon.OldNameDependsOnPathIff | cmd/ndm_daemonset/probe/uuid.go:108-131 | The old name depends on the path exactly for devices without a persistent id and for three models of virtual disks |
| Daemon.SameOldNameIff | cmd/ndm_daemonset/probe/uuid.go:108-131 | Where the path does not matter, two devices have the same old name exactly if WWN, model, serial number and vendor together agree |
| Daemon.TableNameIff | cmd/ndm_daemonset/probe/uuid.go:135-141 | A partition table gives a name exactly if it has a uuid, and two tables share it exactly if their uuids agree; a disk without other identifiers is named by its table where that is switched on |
| AddHandler.AddBlockDevice | cmd/ndm_daemonset/probe/addhandler.go:64-260 | Whatever the server answers, the cache and the disks end up as the decision says; without interference the stored resources and the result do too |
| AddHandler.HandleUnmanagedDevices | cmd/ndm_daemonset/probe/addhandler.go:318-401 | Mayastor devices are left alone, ZFS devices are stored with a tag under their partition table's name, other devices go on; partitions need a cached parent |
| AddHandler.UpgradeBD | cmd/ndm_daemonset/probe/addhandler.go:289-515 | Devices in use by a local PV or cStor keep their old resource unless they already have a claimed new one; an unclaimed new one, or an unclaimed old one that does not depend on the path, is an error |
| AddHandler.IsParentDeviceInUse | cmd/ndm_daemonset/probe/addhandler.go:519-530 | Looks at the cached parent of a partition; a missing parent is an error |
| AddHandler.GetExistingBDWithAnnotation | cmd/ndm_daemonset/probe/addhandler.go:533-564 | The first resource with that annotation value; nothing for the empty value |
| AddHandler.FormatDisk | cmd/ndm_daemonset/probe/addhandler.go:109-138 | A table is written only without partitions and holders, and only to a blank disk; the rescan result only under the partition table scheme |
| AddHandler.AddNewPartition | cmd/ndm_daemonset/probe/addhandler.go:154-213 | A partition's resource is made only if its parent is unknown, unnamed or unclaimed; an unclaimed parent is deactivated first |
| AddHandler.AddIdentified | cmd/ndm_daemonset/probe/addhandler.go:144-258 | A resource in use is updated in place, one not in use through the list, a missing one is made unless the device has partitions or holders |
| AddHandler.CreateUnlessHeld | cmd/ndm_daemonset/probe/addhandler.go:264-285 | No resource for a device with holders |
| AddHandler.CreateOrUpdateWithAnnotation | cmd/ndm_daemonset/probe/addhandler.go:599-618 | The annotations replace those of the probed device, and the store is updated or created accordingly |
| AddHandler.AddBlockDeviceToHierarchyCache | cmd/ndm_daemonset/probe/addhandler.go:42-61 | The cache holds the device under its path and everything else as before |
| AddProgress.AddOutcome | cmd/ndm_daemonset/probe/addhandler.go:64-285 | What an add event does for a device that can be named, in the fields of device and resource: it is stored under that name, active and as probed, exactly if it should have a resource and the resource can be written; the unclaimed resource of a partition's parent becomes inactive; everything else stays |
| AddProgress.NewDeviceIsStored | cmd/ndm_daemonset/probe/addhandler.go:140-285 | A new device that nobody uses, without partitions and holders, gets an active, unclaimed resource with its path, size and scheme, and no other resource changes |
| AddProgress.NewPartitionIsStored | cmd/ndm_daemonset/probe/addhandler.go:154-213 | A new partition of an unused disk with an unclaimed resource gets an active resource, and the disk's becomes inactive |
| AddProgress.ResourceInUseIsRefreshed | cmd/ndm_daemonset/probe/addhandler.go:231-246 | A resource in use is updated with path, node and state, keeps its claim, and an outdated list does not matter |
| AddProgress.UpgradeOutcome | cmd/ndm_daemonset/probe/addhandler.go:289-515 | A device in use by a local PV or cStor without a new resource is stored under its old name or onto its old resource, marked so that it is found again, or it is an error, exactly as stated |
| AddProgress.LegacyResourceMeans | cmd/ndm_daemonset/probe/addhandler.go:405-564 | The old resource is a listed one marked with the device's file system or table, else one with its old name |
| AddProgress.ZfsOutcome | cmd/ndm_daemonset/probe/addhandler.go:354-401 | A device in use by ZFS is stored under its table's name with a tag, so that no claim is eligible for it unless its selector names the tag |
| AddProgress.ZfsNeedsTable | cmd/ndm_daemonset/probe/addhandler.go:354-401 | Without a partition table it is an error and nothing is stored |
| AddProgress.MayastorOutcome | cmd/ndm_daemonset/probe/addhandler.go:337-349 | A device in use by Mayastor is left alone |
| AddProgress.ParentDecides | cmd/ndm_daemonset/probe/addhandler.go:354-372 | A partition whose parent is unknown is an error, and one whose parent is in use is left alone |
| AddProgress.NamelessOutcome | cmd/ndm_daemonset/probe/addhandler.go:107-140 | A device that nothing identifies is not stored; the result says whether a table was written and whether a rescan is needed |
| AddProgress.CachedUnderItsName | cmd/ndm_daemonset/probe/addhandler.go:140-143 | The cache holds a device that goes on with its name, and is otherwise unchanged |
| AddSafety.GetsTableIff | cmd/ndm_daemonset/probe/addhandler.go:64-138 | Exactly which devices get a partition table: not in use by one of the four recognised engines, nothing that names them, no partitions, no holders |
| AddSafety.DestroysIff | cmd/ndm_daemonset/probe/addhandler.go:64-260 | The decision is destructive for exactly those devices, whatever the cache, the list and the stored resources hold |
| AddSafety.OnlyExpendableDisksChange | cmd/ndm_daemonset/probe/addhandler.go:64-138 | If a device in use is marked with a recognised engine, the only disk an add event changes is its own, and only if it is not in use, not a partition, loop or mapper device, without WWN and file system uuid, without partitions and holders, and blank |
| AddSafety.JivaDeviceIsOverwritten | cmd/ndm_daemonset/probe/addhandler.go:289-313 | Called for a blank disk tagged as in use by Jiva, the handler overwrites it, so the condition is needed; no probe sets that tag, only a caller that passes it gets there |
| AddSafety.EngineProtects | cmd/ndm_daemonset/probe/addhandler.go:289-349 | For a device in use with a blank disk and no name, the disk is left alone if and only if the engine is one of the four |
| AddSafety.WrittenOnce | pkg/partition/partition.go:132-145 | A disk that got a table is not written again by a further add event |
| AddSafety.StoredUnderItsName | cmd/ndm_daemonset/probe/addhandler.go:107-285 | Every stored device carries the scheme by which it was named and was named by it |
| AddSafety.NewResourceOnlyIf | cmd/ndm_daemonset/probe/addhandler.go:146-224 | A resource with a new name is made only for a device without partitions and holders, or for a partition whose cached parent is not in use and is nameless, without resource or unclaimed; holders are overlooked only where the parent is retired |
| AddSafety.RetiredIsUnclaimed | cmd/ndm_daemonset/probe/addhandler.go:190-213 | The only resource an add event deactivates is the unclaimed one of a partition's parent |
| AddSafety.InUseKeepsItsResource | cmd/ndm_daemonset/probe/addhandler.go:405-515 | A device in use by a local PV or cStor is stored under its new name only if the list already holds that resource, claimed |
| AddSafety.DecisionIsSound | cmd/ndm_daemonset/probe/addhandler.go:64-260 | Every merge goes to a logged version of the resource of the same name, with fresh unclaimed data |
| AddSafety.AddDisturbsNoClaim | cmd/ndm_daemonset/probe/addhandler.go:64-260 | An add event keeps the protocol invariant and every device's claim data |
| AddSafety.StoredIsActive | cmd/ndm_daemonset/probe/addhandler.go:599-618 | After a successful store the resource is there, active, the probed device or the stored one refreshed by it, and no other resource changed |
| AddSafety.StoringAgainChangesNothing | cmd/ndm_daemonset/probe/addhandler.go:599-618 | Storing the same probe result again leaves every resource as it is |
| DeleteHandler.DeleteBlockDevice | cmd/ndm_daemonset/probe/deletehandler.go:46-100 | The device leaves the cache; whatever the others do, if it was cached and a listed resource stands for it, the last step of the history deactivates that version of that resource, and otherwise no call is made at all |
| DeleteHandler.RemoveBlockDeviceFromHierarchyCache | cmd/ndm_daemonset/probe/deletehandler.go:28-38 | Exactly the device's path leaves the cache |
| DeleteHandler.TargetStandsFor | cmd/ndm_daemonset/probe/deletehandler.go:52-97 | A resource is deactivated exactly if one on the list stands for the device by new name, partition table name, annotation or old name; a partition is never taken for the disk whose table lists it |
| DeleteHandler.TargetOrder | cmd/ndm_daemonset/probe/deletehandler.go:52-97 | Of several resources that stand for the device the new name comes first, then the table's name, the file system mark, the table mark, and the old name last |
| DeleteHandler.AddThenDelete | cmd/ndm_daemonset/probe/deletehandler.go:46-61 | If an add stored a device under its new name, deleting the same device deactivates exactly that resource and changes no other |
| DeleteHandler.CacheForgets | cmd/ndm_daemonset/probe/deletehandler.go:28-38 | The cache forgets the device, whatever the add made of it |
| EventHandler.AddBlockDeviceEvent | cmd/ndm_daemonset/probe/eventhandler.go:53-118 | After an event whose list call succeeds every device is in the cache; exactly the admitted devices that depend on no earlier failure are processed, in order; a rescan is asked for exactly if the list failed or some device was not processed to the end; whatever the server answers, cache and disks end up as the single decisions say, and without interference so do the resources |
| EventHandler.ProcessDevice | cmd/ndm_daemonset/probe/eventhandler.go:84-112 | One device under the scheme in force: cache and disks as stated, and without interference the resources and the result |
| EventHandler.EventChangesOnlyExpendable | cmd/ndm_daemonset/probe/eventhandler.go:68-113 | If every processed device in use is marked with a recognised engine, each disk an event changes belongs to a device it processed that is not in use, has nothing that names it, neither partitions nor holders, and is blank |
| EventHandler.EventDisturbsNoClaim | cmd/ndm_daemonset/probe/eventhandler.go:68-113 | A whole event keeps the protocol invariant and every device's claim data |
| EventOutcomes.ProcessedIff | cmd/ndm_daemonset/probe/eventhandler.go:68-113 | A device of an event is processed exactly if the filters admit it and, under the new scheme, no earlier device of the event that is its parent or slave has failed |
| EventOutcomes.EventCaches | cmd/ndm_daemonset/probe/eventhandler.go:68-80 | After an event the cache holds under each path the last device of the event with that path, but for its name, and under all others what it held |
| EventOutcomes.OldSchemeOutcome | cmd/ndm_daemonset/probe/eventhandler.go:100-112 | Under the old scheme a device is stored as probed, exactly if its labels can be computed and the list holds no outdated version of its resource |
| EventOutcomes.DeletedIff | cmd/ndm_daemonset/probe/eventhandler.go:121-152 | A delete event turns inactive exactly the resources its devices stand for, each device once, and changes nothing else of them or of any other |
| EventHandler.IsParentOrSlaveDevice | cmd/ndm_daemonset/probe/eventhandler.go:192-202 | True exactly if the parent or a slave of the device is among the failed ones |
| EventHandler.PushBlockDeviceResource | cmd/ndm_daemonset/controller/blockdevicestore.go:251-263 | Under the old scheme a device is updated or created under the uuid it was probed with |
| EventHandler.DeleteBlockDeviceEvent | cmd/ndm_daemonset/probe/eventhandler.go:121-152 | Under the new scheme exactly the event's devices leave the cache and no rescan is asked for; under the old scheme a rescan is asked for exactly if a device has no resource; without interference the resources are those of the event's devices deactivated one after the other, a repeated device only once |
| Partition.Disk.CreateSinglePartition | pkg/partition/partition.go:125-166 | Succeeds, and changes the disk, exactly if it opens, holds neither table nor file system, has a size and accepts the write; the table then holds the one partition |
| Partition.Disk.CreatePartitionTable | pkg/partition/partition.go:169-203 | The same with an empty table |
| Partition.Disk.InitTable | pkg/partition/partition.go:78-95 | A disk of size zero is refused; without a block size 512 is taken |
| Partition.Disk.AddPartition | pkg/partition/partition.go:100-121 | The partition's end as computed in 64-bit arithmetic; only the first partition gets a proper start |
| Partition.PartitionFits | pkg/partition/partition.go:100-121 | For a block size dividing 16384 the partition starts at 1 MiB, and it lies after the primary table and ends at the last usable block before the backup table if and only if the disk has at least 1 MiB/LBS + 16384/LBS + 2 blocks |
| Partition.SmallDisk | pkg/partition/partition.go:107-111 | On a smaller disk the end is before the start, or wraps around to a block beyond the disk, exactly as stated |
| MountDiff.GenerateDiff | pkg/mount/libmount/mount_table_diff.go:68-126 | For any two tables the difference is exact: added sides are the new entries, each once and in order; removed sides the vanished entries, each once; remounts the changed entries; and no unmount could have been a move |
| MountDiff.GoneOrMoved | pkg/mount/libmount/mount_table_diff.go:109-123 | Turning mount entries into moves in place keeps the added sides and accounts for every vanished entry once |
| MountDiff.NewAndChanged | pkg/mount/libmount/mount_table_diff.go:98-107 | New mounts and remounts in the order of the new table |
| MountDiff.GetMountEntry | pkg/mount/libmount/mount_table_diff.go:52-62 | The first mount entry of the same source and id, or none |
| MountDiff.Find | pkg/mount/libmount/mount_table.go:152-166 | The first entry that passes all given filters, or none; without filters nothing is found |
| MountDiff.FindByKey | pkg/mount/libmount/mount_table.go:152-166 | With the source and target filters it is the first entry with that key |
| MountDiff.KeysPatched | pkg/mount/libmount/mount_table_diff.go:68-126 | Removing the old keys of unmounts and moves from the old key set and adding the new keys of mounts and moves gives the new key set |
| MountDiff.MovesPairKeys | pkg/mount/libmount/mount_table_diff.go:109-123 | Every move pairs a vanished key with a new key of the same source and another target |
| MountDiff.EachOnce | pkg/mount/libmount/mount_table_diff.go:68-126 | Every new, and every vanished, file system is accounted for exactly as often as its table lists it, so a mount entry becomes a move at most once |
| MountDiff.PatchGivesNewIff | pkg/mount/libmount/mount_table_diff.go:98-107 | Applying the difference to the old mounts and options gives the new ones if and only if, for every mount in both tables, the last new entry with other options shows those of the first |
| MountDiff.DistinctIsSettled | pkg/mount/libmount/mount_table_diff.go:98-107 | That holds in particular if the new table mentions no mount twice |
| MountMoves.AsManyMovesAsPossible | pkg/mount/libmount/mount_table_diff.go:109-123 | For every source and id the difference has as many moves as both its vanished and its new mounts allow, and mounts and unmounts only what is left over |
| MountMoves.NoMissedMove | pkg/mount/libmount/mount_table_diff.go:109-123 | No unmount and mount entry have source and id in common |
| MountDiff.LessMeans | pkg/mount/libmount/mount_table_diff.go:154-176 | The order is that of the first letter in which two strings differ, and a string comes after its beginnings |
| MountDiff.ListSources | pkg/mount/libmount/mount_table_diff.go:154-176 | Strictly sorted, and exactly the sources of the entries |
| MountDiff.SourcesAreAffected | pkg/mount/libmount/mount_table_diff.go:154-176 | A source is listed exactly if one of its targets is in only one table or some new entry differs in options from its first match in the old table |
| MountTable.MountTab.ApplyFilters | pkg/mount/libmount/mount_table.go:107-124 | Admitted exactly if no deny filter matches and, if there are allow filters, one does |
| MountTable.MountTab.AddFilesystem | pkg/mount/libmount/mount_table.go:127-143 | An entry is taken over exactly if it exists, belongs to no table and is admitted; each failure has its own error and changes nothing |
| MountTable.OneTableEach | pkg/mount/libmount/filesystem.go:94-98 | Two tables have no entry in common |
| Features.ValidateDependencies | pkg/features/features.go:157-175 | For any acyclic dependencies the answer, the flag and the memo agree with whether the feature and everything below it was requested; only unmet features are switched off |
| Features.SetFeatureFlag | pkg/features/features.go:111-153 | Fails exactly if some argument cannot be parsed; on success, in any order of validation, exactly the granted features are on and every memo value equals the final flag |
| Features.ApplyArguments | pkg/features/features.go:116-139 | The flags after the arguments up to the first that cannot be parsed |
| Features.ParseMeans | pkg/features/features.go:116-139 | A supported feature alone is switched on, with a value it is switched by the value, with two values or if it is not supported it is refused |
| Features.ParseOnlyIf | pkg/features/features.go:116-139 | Nothing else is accepted |
| Features.LastArgumentCounts | pkg/features/features.go:116-139 | Of several arguments for a feature the last one counts, and arguments for other features leave it alone |
| Features.TruthyIgnoresCase | pkg/util/util.go:31-41 | A word that switches on does so in any case |
| Features.TruthyWords | pkg/util/util.go:31-41 | The words true and 1 switch on, false and 0 do not |
| Features.GrantedIsGreatest | pkg/features/features.go:141-146 | The granted features are the largest dependency-closed subset of the requested ones |
| Features.ShippedHasNoCycle | pkg/features/features.go:80-84 | The shipped dependencies are acyclic |
| Features.NewFeatureGate | pkg/features/features.go:94-103 | A new gate holds exactly the defaults |
| Features.ShippedGrants | pkg/features/features.go:80-84 | Everything asked for is granted, except partition table uuids without GPT based uuids |
| Features.ShippedFeatureGates | pkg/features/features.go:91-153 | Started from the defaults with any arguments there is a flag for exactly the supported features, and on success exactly what was asked for is on, except partition table uuids without GPT based uuids |
| Features.PartitionTableNeedsGpt | pkg/features/features.go:80-84 | With the shipped dependencies, partition table uuids are never in force without GPT based uuids, and nothing else is switched off |
| Selection.Filter | pkg/select/blockdevice/select.go:25-98 | Selection returns the first device in list order that meets all criteria of the mode, and fails exactly if none does, despite chained passes and early stops |
| Selection.ChainedIsFiltered | pkg/select/blockdevice/filters.go:79-85 | A chain of filters of which only the last stops early keeps exactly what passes all their tests, in order |
| Selection.TestsMeanEligible | pkg/select/blockdevice/filters.go:88-375 | The tests behind the filters together ask exactly for what the claim asks for, stated in the fields of claim and device |
| Selection.CriteriaMeanEligible | pkg/select/blockdevice/select.go:43-98 | The filters of the mode together are the eligibility criteria |
| Selection.ApplyFilters | pkg/select/blockdevice/filters.go:79-85 | Applying the filters one after the other gives the chain |
| Selection.ApplyFilter | pkg/select/blockdevice/filters.go:88-349 | Each filter keeps the devices that pass its tests, in order, or the first of them |
| Selection.Keep | pkg/select/blockdevice/filters.go:188-223 | One pass over the list, with or without stopping at the first match |
| MountAttr.GetDeviceMountAttr | pkg/mount/mountutil.go:79-114 | Found exactly if a line names the device; the file system is the first one named, and the mount points are those of the device's lines with that file system, in file order |
| MountAttr.GetMountName | pkg/mount/mountutil.go:302-315 | The mount point and file system of a line that names the device |
| MountAttr.MountLine | pkg/mount/mountutil.go:302-315 | Of a line that names the device the second field is the mount point and the third the file system |
| MountAttr.OtherLine | pkg/mount/mountutil.go:302-315 | A line whose first field is another path does not name the device |
| MountAttr.Merge | pkg/mount/mountutil.go:360-373 | Device path and file system are set once; mount points are added only when both agree |

## Left out

- Kubernetes client, manager, watches, caches, owner references and events: replaced by the versioned store, stale reads and failing calls.
- Foreground propagation when a job is deleted: a deleted job is gone at once.
- Objects that exist before the first step: runs start from an empty cluster, so the branch that adds a missing finalizer to a device claimed by an earlier release is never taken.
- User edits of fields the system owns, for example removing its finalizers or changing a claim's status by hand: a user edit in the model leaves them alone.
- Updates that change nothing: the server gives every accepted update a new version.
- Liveness beyond single reconciles: no fairness is assumed, and a release whose second write fails may never be completed.
- Pod specification, tolerations, volume mode and shell commands of a cleanup job: a job is its name and its count of successes.
- Namespace, firmware, compliance and the kinds of device links: not part of the resource in this model.
- Sharing of label and annotation maps between the daemon's list and the merged object: a merge does not change the list in this model.
- MD5: hashing is uninterpreted, so different devices may get the same name, as they may in the code when a WWN and a serial run together.
- The change handler: its writes are actions of the protocol, its comparison of probe results is not modelled.
- Partition.Host.Write: does not model a failing write that leaves part of a table behind.
- Partition.PartitionFits: does not cover block sizes that do not divide 16384, for which the primary table itself has no whole number of blocks.
- MountAttr.GetDeviceMountAttr: does not cover lines that name the device but have fewer than three fields, on which the code fails with an index error.
- MountDiff.ListSources: sorts by repeated insertion where the code calls a library sort.
- Reading and parsing of mount files, of /proc/cmdline and of symbolic links: only the folds over their lines are modelled.
- Text.Upper: does not cover upper-casing of letters that cannot occur in the words it is compared with.
- Regular expressions, JSON paths and custom tags of the daemon's configuration: opaque filters and label functions.
- Exporters, metrics, gRPC services, udev, SMART, SPDK and the command line: plumbing and foreign calls.
