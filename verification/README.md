# A verified model of the cloud's control plane

The service in `api/internal/compute` and its rows in `api/internal/db` run a small
cloud on one Proxmox host. A single worker carries out pending actions one call at a
time; users, administrators and the reconciler change the same rows between any two of
those calls; and the worker may die at any point, forgetting everything but the rows
and what the hypervisor and NetBox hold. This project models that system as imperative
Dafny and proves what it promises, for every interleaving, every crash point and every
run.

## How the model is built

* `Backends.Cloud` is one object with the fields the service acts on: volume and
  instance rows, quarantined VMIDs, VMs with their descriptions, disk slots (VM and key
  to disk), addresses and seed images. Every method is **one** database, hypervisor,
  storage or address-manager call. A call takes full effect or none, may fail, and may
  take effect and lose its reply; making, moving, unplugging or destroying a disk may also be
  answered well without anything having happened, which only looking again tells.
  `Err(Crash)` stands for the process dying, after which nothing local is left.
* A disk carries the name Proxmox gives it, which changes whenever it moves, and an
  identity, which never does. `bound` remembers the identity each volume was first given.
* `CloudState.Safe` is the invariant between any two calls. `History.Step` is what one
  call may change, and a `History.Run` is a sequence of safe states joined by steps, each
  with the event it was: the recording of how an attempt at an action ended, a VM being
  started, stopped or seen to run, a guest being seen to wait or not to take or release a
  disk, or any other call. `Cloud.Valid` says that the states and events so far (ghost
  fields) are a run.
* Two ghost counters let a worker's contract say when it succeeds. `trouble` counts calls
  that failed, lost their reply or did nothing, and guests that would not let go of a disk;
  `unrecorded` counts attempts whose end could not be written. So "without trouble a delete
  is done" reads `c.trouble == old(c.trouble) ==> r.Ok?`, a failure is either `Troubled` or
  has a reason the contract names, and no action but a reboot succeeds over a failed call
  (`Steps.Accounted`). Lookups outside the model that find nothing (an image, an
  address range) count as trouble too. Every method that changes the cloud also says that
  `Past()`, the record of states and events, only grows.
* `Interference.Others` is any number of users' requests and reconciler corrections with
  any arguments. The worker's methods call it before each of their own calls, so nothing
  proved of them depends on the order. `Progress.Rely` says what others may change;
  `Progress.Follows` what may change while the worker deals with one volume.
* `DiskLemmas`, `RowLemmas` and `InstanceLemmas` prove each single effect safe under the
  knowledge its caller has; `Steps` pairs every call with that knowledge; `DiskSteps`,
  `VolumeWorker`, `InstanceWorker`, `Termination` and `Processing` are the worker itself.
  `Processing.Deploy` starts from an empty cloud and lets everything happen in any order.
* `Theorems` says what follows, for a state or for a whole run.
* `Reachability.OneCall` is one call the service makes: the checks a request has passed, or
  the point of an action at which the worker makes it, and exactly what it then does.
  `Leads` is any number of such calls, and `Reachable` means led to from an unused cloud.
  Every such path is a run (`PathIsRun`), but far from every run is such a path; not every
  call is listed, only those that `Scenario` needs. `Scenario` shows by such calls that the
  exceptions the theorems make are needed.
* Firewalls (`FirewallRules`, `FirewallState`, `FirewallSync`, `FirewallRequests`,
  `FirewallWorker`, `AddressPin`) and the NetBox ledger (`LedgerBook`, `LedgerSync`) are
  modelled the same way on objects of their own.

## What is assumed of the world outside

* One worker, one step at a time; API transactions and the reconciler interleave with it
  and are atomic. A VM or a disk changes only through the modelled calls.
* Listing VMs shows exactly those in the cloud pool; VMs outside it stay there and stay
  somebody else's.
* A disk that is made or moved gets a name no disk has and no live row still records
  (`CloudState.FreshName`, a postcondition of the calls). `Theorems.ReusedNameMisleads`
  shows that the recovery in `locate` needs this.
* NetBox never gives an address record's number out twice (`CloudState.FreshAddress`),
  and does not list two of the cloud's machines under one name.
* A firewall rule inserted without a position lands at the top, and a list is numbered
  from 0 without gaps.
* When a running guest does not let go of a disk, Proxmox may show the unplugging in the
  config as made already; whether the guest still holds on is only told by the pending key,
  whose answer can be anything (`Backends.Cloud.UnlinkDisk`, `PendingKey`).
* Limits do not change during a run.

## Promises with exact conditions

* Quotas. Giving up a resize writes the disk's real size back to the row. That keeps
  every limit in every cloud the row may be in if and only if the disk is no larger than
  was asked for (`Quotas.GiveUpResizeWithinIff`). `Theorems.LimitsKept` therefore bounds
  what an account holds by its limit and by how much its own disks turned out larger in
  resizes given up, and nothing else. `Scenario.OverTheLimit` leads from a request granted
  at exactly the limit of 17 GiB to a cloud in which the account holds 20.
* The size of a new disk. A create that was cut short may find a blank disk waiting at the
  slot it announced, made for another volume that announced the same one. A volume created
  has the size asked for if and only if no disk of another size waits there
  (`VolumeWorker.CreateVolumeDisk`). `Scenario.SharedSlot` leads from two creates that have
  announced one slot to an idle volume of 5 GiB with a disk of 10.
* Adopted VMs. The listing an adoption reads and the transaction that records it are apart,
  and only the rows are looked at again. An adopted instance has its VM until it is
  terminated if and only if the VM existed when the adoption committed
  (`Theorems.AdoptedKeepsVm`). Given an idle volume of the account and a free device, the
  service's calls can lead from a state to one in which the instance is terminated and the
  volume still names it if and only if the instance has no VM (`Scenario.NamesLeftIff`).
  `Scenario.AdoptedTwice` leads two adoptions of one VM there.
* Seed images. A terminate removes the VM and every address carrying the instance's ID,
  recorded or not, but only a seed image that is recorded: it leaves one behind if and only
  if one was uploaded and not recorded (`Termination.TerminateInstance`).
  `Scenario.SeedLeftBehind` leads from an upload whose record is missing to that.
* Settled volumes. A volume in use with nothing pending is plugged in under its device
  as long as its instance is not being terminated (`Theorems.SettledWhereItSays`). The
  condition cannot be dropped: unplugging is the first thing a terminate does
  (`Theorems.TerminateUnplugsInUse`), and `Scenario.TerminateInProgress` leads to the state
  between.
* Pinned source addresses. While an instance's set of source addresses is rewritten, what it
  held and is wanted is never missing (`AddressPin.PinAddress`), with one exception: an entry
  is recognized by its text without a length of 32, so a wanted network written with that
  length is taken out and put in again (`AddressPin.WrittenOutIsNotKept`).

## Model

| member | source | states |
|---|---|---|
| `Theorems.ExactlyOneDisk` | api/internal/compute/volume_worker.go:229-266 | in every safe state a live volume that was given a disk has exactly that one, at its recorded VM and name or at its announced destination under a name no live row records, unless a pending delete has destroyed it |
| `Theorems.SameDiskForEver` | api/internal/compute/volume_worker.go:18-25 | over any stretch of any run a volume's physical disk is the one it was first given, and it still exists exactly once |
| `Theorems.ReusedNameMisleads` | api/internal/compute/volume_worker.go:231-244 | if the old name were reused on the old VM before a move is recorded, the first look of `locate` would find another disk, and the state would be unsafe |
| `Theorems.NoMoreDisksThanVolumes` | api/internal/compute/volume_worker.go:357-397 | there are never more volume disks (blank ones on the holder included) than live volumes, and never more than 256, even when interrupted creates announced the same slot |
| `Theorems.NoSharedDisks` | api/internal/compute/volume_worker.go:220-228 | no two live volumes record the same disk name or were given the same disk; read off `CloudState.Safe`, with its content in the methods that keep `Cloud.Valid` |
| `Theorems.SettledWhereItSays` | api/internal/db/volumes.go:219-236 | with nothing pending, an in-use volume's own disk is under exactly its device on its instance's VM, or on one of that VM and the holder while the instance is being terminated; an available one's is on the holder |
| `Theorems.TerminateUnplugsInUse` | api/internal/compute/volume_worker.go:598-611 | the exception for terminating instances is needed: in any safe state, unplugging such an instance's volume leads to a safe one in which it is not at its device |
| `Scenario.TerminateInProgress` | api/internal/compute/volume_worker.go:598-611 | the service's calls lead from an unused cloud to a terminating instance with its volume at its device, and by one more call to the same rows with the volume no longer there |
| `Theorems.AtMostFifteenVolumes` | api/internal/compute/volumes.go:312-331 | at most 15 volumes name an instance, with pairwise distinct devices |
| `Theorems.OneVmOneAddress` | api/internal/compute/worker.go:147-200 | an instance never has two VMs or two addresses; once terminated neither a VM, an address nor a recorded seed image of it is left, and no volume names it unless it had been adopted; read off `CloudState.Safe`, with its content in the methods that keep `Cloud.Valid` |
| `Theorems.LaunchedIsComplete` | api/internal/compute/worker.go:147-200 | a launched instance past its launch and not being terminated has its own VM, its own address and its seed image; any instance's VMID is in the pool; read off `CloudState.Safe`, with its content in the methods that keep `Cloud.Valid` |
| `Theorems.AdoptedKeepsVm` | api/internal/compute/adopt.go:154-175 | over any stretch of any run an adopted instance not being terminated has its VM exactly if it had it at the start |
| `Theorems.AdoptedLeavesNoNames` | api/internal/compute/worker.go:602-632 | if an adopted instance had its VM, no volume names it once it is terminated |
| `Scenario.BodilessLeavesNames` | api/internal/compute/worker.go:602-632 | from every safe state in which an adopted instance has no VM, the service's calls lead on to one in which it is terminated and an idle volume of its account still names it |
| `Scenario.NamesLeftIff` | api/internal/compute/worker.go:602-632 | for an idle volume of an adopted instance's account: the calls can lead to the volume naming the terminated instance if and only if the instance has no VM |
| `Scenario.AdoptedTwice` | api/internal/compute/adopt.go:73-97 | from an unused cloud: two adoptions look at one VM and the first commits, which leads to the second committing with the VM deleted, which leads to its terminated instance being named by a volume |
| `Theorems.VmidsAreTheirOwn` | api/internal/db/instances.go:285-302 | live instances hold pairwise distinct VMIDs, none the holder's or a probe's; read off `CloudState.Safe`, with its content in the methods that keep `Cloud.Valid` |
| `Theorems.OnlyOwnVmsPowered` | api/internal/compute/worker.go:541-574 | in no run does the worker start or stop a VM or tell it whether to start with the host unless it is there, in the pool, not the holder, and a live instance's own and no other's; read off `History.Step`, with its content in the methods that keep `Cloud.Valid` |
| `Theorems.DeleteSparesVolumes` | api/internal/compute/worker.go:618-628 | what holds when a VM is deleted implies it is not the holder and that every live volume's disk survives unchanged |
| `Theorems.RunsOnlyGoOn` | api/internal/db/instances.go:347-392 | over any stretch of any run: terminated and deleted are absorbing, a requested terminate or delete ends in nothing else, rows keep account, token and hash |
| `Theorems.StateAndAction` | api/internal/db/instances.go:347-392 | an instance's state and pending action are always one of eight pairs; read off `CloudState.Safe`, with its content in the methods that keep `Cloud.Valid` |
| `Theorems.OnlyTerminateReplaces` | api/internal/compute/service.go:729-784 | between consecutive states a pending instance action stays, ends, or is replaced by a terminate and nothing else; the lemma reads this off `History.InstanceStep`, and its content is that every method that writes a row keeps `Cloud.Valid` |
| `Theorems.OnlyDetachReplaces` | api/internal/db/volumes.go:255-262 | a pending volume action stays, ends, or is an attach replaced by a detach; read off `History.VolumeStep`, with its content in the methods that keep `Cloud.Valid` |
| `Theorems.OneRowPerToken` | api/internal/compute/service.go:456-503 | across any two states of a run, two instances (or two volumes) of an account with one token are the same |
| `Theorems.LimitsKept` | api/internal/compute/service.go:576-618 | in every state of every run an account holds no more than its limit of anything, save GiB by exactly as much as its own disks were larger than the rows in resizes given up, and memory is within budget |
| `Theorems.HoldingsKept` | api/internal/db/instances.go:222-230 | said of the rows themselves: in every state of every run the number of an account's live instances and that of its live volumes are within its limits, and so are the sums of vCPUs, memory, root disks and volume sizes over exactly those rows (sizes but for disks that turned out larger) and everybody's memory |
| `Theorems.WithinUnlessGrown` | api/internal/compute/service.go:576-618 | in a run without such a resize everybody is within every limit in every state |
| `Scenario.OverTheLimit` | api/internal/compute/volume_worker.go:106-112 | from an unused cloud to a growth granted with the account at its limit of 17 GiB, and on to one in which it holds 20 |
| `Theorems.FailuresAreCounted` | api/internal/db/instances.go:365-374 | while an action stays pending its attempts column goes up by exactly the number of failed attempts at it that were recorded |
| `Theorems.BoundedAttempts` | api/internal/compute/worker.go:87-110 | a launch, start, stop or reboot is no longer pending when MaxAttempts failed attempts at it have been recorded, and while it is pending those before and since are fewer |
| `Theorems.BoundedVolumeAttempts` | api/internal/compute/volume_worker.go:80-116 | the same for a volume's create, attach and resize |
| `Theorems.NeverAbandoned` | api/internal/compute/volume_worker.go:84-88 | a terminate, detach or delete stays pending until it is done; read off the step relations, with its content in the methods that keep `Cloud.Valid` |
| `DiskSteps.Locate` | api/internal/compute/volume_worker.go:229-266 | wherever a crash left the disk, success means the row records exactly where it is; it is reported missing only when a pending delete has destroyed it; a volume without one receives the blank disk at its announced slot exactly if one waits there; only trouble makes it fail otherwise |
| `DiskSteps.LocateArrived` | api/internal/compute/volume_worker.go:246-261 | a disk at the announced destination is taken as this volume's exactly when no other live row records it |
| `DiskSteps.EnsureHolder` | api/internal/compute/volume_worker.go:188-218 | success means the VM on the holder's VMID says it is the holder; no disk is touched; it is given up exactly when somebody else's VM has that VMID, and fails otherwise only with a call |
| `DiskSteps.HolderHasRoom` | api/internal/compute/volumes.go:123-130 | a live volume's disk that is not on the holder always has a free unused slot there |
| `DiskSteps.FullSlotsFill` | api/internal/compute/volume_worker.go:284-287 | n full unused slots of the holder belong to n different live volumes |
| `DiskSteps.HandOver` | api/internal/compute/volume_worker.go:275-306 | a move ends recorded at the target under an unused key; it never runs out of slots when the target is the holder |
| `DiskSteps.CarryOver` | api/internal/compute/volume_worker.go:293-306 | an announced move is carried out, read back and recorded under the disk's new name |
| `DiskSteps.Unplug` | api/internal/compute/volume_worker.go:308-332 | success leaves the disk unused on the same VM and recorded so, and the guest has been seen to have let go of it; no disk is lost or changed; only a failed call or a guest that holds on prevents it |
| `DiskSteps.DiskKeyOf` | api/internal/compute/volume_worker.go:140-148 | finds a key holding the name exactly if there is one |
| `DiskSteps.FreeKey` | api/internal/compute/volume_worker.go:150-158 | the first free numbered key, and none exactly if all are taken |
| `VolumeWorker.CreateVolumeDisk` | api/internal/compute/volume_worker.go:357-397 | success means the volume's one disk is recorded unused on the holder; it has the size asked for exactly if no disk of another size waited at the announced slot; it is given up for good only if somebody else has the holder's VMID or there is no storage of the tier asked for, and fails otherwise only with a call or when the holder has no key free |
| `Scenario.SharedSlot` | api/internal/compute/volume_worker.go:366-395 | from an unused cloud to two creates that have announced one slot with no disk there, and on to an idle volume of 5 GiB with a disk of 10 |
| `VolumeWorker.MakeDisk` | api/internal/compute/volume_worker.go:366-395 | the slot is announced before the disk is made, and success means the disk found there is recorded and has the size asked for |
| `VolumeWorker.AttachVolumeDisk` | api/internal/compute/volume_worker.go:399-464 | success means the disk is under exactly the row's device on the VM of the named instance and of no other, which was not busy, and the guest has been seen to have taken it; it is given up for good only if the instance is on its way out or, not being busy, has no VM of its own or another disk under the device; it is busy only if the instance is, and fails otherwise only with a call or when the VM is gone or has no unused slot |
| `VolumeWorker.DetachVolumeDisk` | api/internal/compute/volume_worker.go:466-492 | success means the disk is recorded unused on the holder, where there is always room, that the guest has been seen to have let go of one that was plugged in, and that its instance was not busy if that was on its VM; it fails only with a call or while the disk is plugged in on the VM of an instance that is busy with something else, never for good |
| `VolumeWorker.BringHome` | api/internal/compute/volume_worker.go:481-491 | a disk is unplugged and handed to the holder, wherever it was; only trouble prevents it |
| `VolumeWorker.ResizeVolumeDisk` | api/internal/compute/volume_worker.go:494-541 | success means the volume's own disk has the size asked for, or the one it had if that is larger, and one on the holder is unused again; the disk known by name at the end is always the volume's own; it fails only with a call or, if the disk is too small, when the holder has no key free or while the disk is unplugged on an instance's VM, never for good |
| `VolumeWorker.DeleteVolumeDisk` | api/internal/compute/volume_worker.go:543-573 | success means no disk has the recorded name any more, or none was ever given and no blank one is left announced; it fails only with a call |
| `VolumeWorker.ProcessVolume` | api/internal/compute/volume_worker.go:57-116 | unless the process died or the write failed, a done create or detach leaves the volume available, an attach in use, a delete deleted; a failed attempt is counted by exactly one below MaxAttempts and not for good (always for detach and delete), and otherwise given up the action's own way; the run records it as such; a crash or a failed write leaves the row as it was. The action is done unless a call failed, which is never for good, or it was hindered in some state on the way; an attach that meets a busy instance stays pending unless the instance is terminated. A done attach or detach has been agreed to by the guest, and a resize given up without trouble leaves the size the volume's own disk has |
| `VolumeWorker.GiveUpVolume` | api/internal/compute/volume_worker.go:96-115 | create ends in error, attach becomes detach, resize takes the size of the volume's own disk, and leaves the one asked for only if that cannot be had |
| `VolumeWorker.Measured` | api/internal/compute/volume_worker.go:106-112 | the size a given-up resize writes is that of the physical disk the volume was given, or the row's own if a call failed or no disk goes by the name |
| `RowLemmas.FinishSafe` | api/internal/db/volumes.go:216-236 | finishing an action whose work is done keeps the cloud safe |
| `RowLemmas.IntentSafe` | api/internal/compute/volume_worker.go:288-292 | announcing a move before making it keeps the cloud safe |
| `RowLemmas.ArrivalSafe` | api/internal/compute/volume_worker.go:305-306 | recording where a moved disk has arrived keeps the cloud safe |
| `RowLemmas.ClaimSafe` | api/internal/compute/volume_worker.go:377-390 | giving a volume the blank disk at its announced slot keeps the cloud safe |
| `RowLemmas.AllocateSafe` | api/internal/compute/volume_worker.go:380-385 | making a blank disk at an announced slot keeps the cloud safe |
| `RowLemmas.GiveUpSafe` | api/internal/db/volumes.go:246-270 | each of the three give-ups keeps the cloud safe for any measured size |
| `RowLemmas.ReturnSafe` | api/internal/db/volumes.go:272-284 | freeing a volume whose disk is back on the holder keeps the cloud safe |
| `RowLemmas.RequestAttachSafe` | api/internal/db/volumes.go:185-192 | an attach to an established instance of the account under a free device keeps the cloud safe |
| `DiskLemmas.MoveSafe` | api/internal/proxmox/disks.go:35-53 | moving a disk to the slot its row announces keeps the cloud safe |
| `DiskLemmas.RekeySafe` | api/internal/compute/volume_worker.go:308-332 | plugging in or unplugging keeps the cloud safe unless the volume is settled in use |
| `DiskLemmas.DestroySafe` | api/internal/compute/volume_worker.go:563-565 | destroying the disk keeps the cloud safe while its delete is pending |
| `DiskLemmas.AnyResizeSafe` | api/internal/compute/worker.go:528-539 | resizing any disk, a volume's or not, keeps the cloud safe |
| `DiskLemmas.NamedDiskIsOwn` | api/internal/db/volumes.go:126-132 | a disk under a live row's recorded name is that volume's own, on its recorded VM |
| `InstanceLemmas.RemoveVmSafe` | api/internal/compute/worker.go:618-628 | deleting a terminating instance's VM keeps the cloud safe once no volume mentions it or names the instance |
| `InstanceLemmas.FinishTerminateSafe` | api/internal/db/instances.go:347-362 | recording a terminate as finished keeps the cloud safe when nothing is left |
| `InstanceLemmas.MoveVmidSafe` | api/internal/compute/worker.go:482-507 | quarantining a taken VMID and giving another keeps the cloud safe |
| `InstanceLemmas.AddAddressSafe` | api/internal/compute/worker.go:211-227 | taking an address for an instance that has none keeps the cloud safe |
| `InstanceWorker.Address` | api/internal/compute/worker.go:211-227 | an address carrying the instance's ID is reused or a new one taken, never a second |
| `InstanceWorker.GiveSeed` | api/internal/compute/worker.go:246-297 | a file an attempt cut short may have left goes first, and no image is uploaded over another; success means the image is uploaded and recorded |
| `InstanceWorker.GrowRoot` | api/internal/compute/worker.go:528-539 | success means the root disk has the size promised, or the one it had if that is larger; nothing else made for the launch changes |
| `InstanceWorker.CreateInstanceVm` | api/internal/compute/worker.go:430-480 | success means the VM on the instance's VMID carries its ID, made now or by an earlier attempt; without trouble it succeeds, or somebody else's VM has the VMID and the instance has got another one if any is open |
| `InstanceWorker.MoveVmid` | api/internal/compute/worker.go:482-507 | the attempt fails, and if the VMID was changed it is to another in range that the listing did not show, with the old one quarantined in the same transaction; without trouble it is changed unless none is open |
| `InstanceWorker.LaunchInstance` | api/internal/compute/worker.go:147-200 | address, seed image and VM are each skipped if an earlier attempt recorded them; success means all three are recorded and there, the root disk is at least as large as promised and the VM has been started or was running, with no other attempt counted meanwhile; without trouble it succeeds unless somebody else's VM had its VMID, which is another then if any is open, or the VM has no root disk |
| `Termination.ReturnOne` | api/internal/db/volumes.go:272-284 | one volume is brought home and freed: it is nobody's, what was in use is available, an attach or detach is over, and anything else pending, a resize say, stays with its attempts, size and account; every other row is left to others; only trouble prevents it |
| `Termination.ReturnVolumes` | api/internal/compute/volume_worker.go:575-615 | every volume that named the instance has been freed so and no other row is touched; no live volume has its VM as place or destination; only trouble prevents it, and no other VM or address is touched |
| `Termination.GrowthOutlives` | api/internal/db/volumes.go:272-284 | a volume waiting to be grown when its instance is terminated is still waiting afterwards, with the size asked for and its attempts, available and nobody's |
| `Termination.RefuseToDestroyVolumes` | api/internal/compute/volume_worker.go:617-637 | the last check keeps that so, and after the volumes have been returned it never refuses |
| `Termination.TakeDownVm` | api/internal/compute/worker.go:612-628 | success means the VM has been halted or was not running, its volumes have been freed as `ReturnVolumes` says, no VM carries the instance's ID and no volume names it; every other VM and every address is still whose it was |
| `Termination.TakeDownOwned` | api/internal/compute/worker.go:600-630 | a VM on the instance's VMID that is not its own is never touched |
| `Termination.ReleaseSeed` | api/internal/compute/worker.go:634-646 | the seed image goes if one is recorded; one that was uploaded and never recorded stays |
| `Termination.ReleaseAddresses` | api/internal/compute/worker.go:647-664 | success means no address carries the instance's ID, recorded or not; every address of anybody else is still theirs, whether it succeeds or not |
| `Termination.TerminateInstance` | api/internal/compute/worker.go:602-665 | success means nothing recorded of the instance is left, nor any VM or address of a launch that crashed before recording it, and its volumes are freed and keep a pending resize; a seed image is left exactly if there was one that had not been recorded; nothing of anybody else is touched; without trouble it succeeds |
| `Scenario.SeedLeftBehind` | api/internal/compute/worker.go:164-174 | from an unused cloud to a launch with its seed image uploaded and not recorded, and on to a terminated instance whose seed image is still there |
| `Processing.ProcessInstance` | api/internal/compute/worker.go:58-110 | unless the process died or the write failed, a done launch, start or reboot leaves the row running, a stop stopped and a terminate terminated; a failed one is counted by exactly one below MaxAttempts (always for a terminate), and the last leaves a start stopped, a stop or reboot running and a launch to be terminated; nothing else of the row changes but what a launch records, and the run records the attempt as such; or a terminate requested meanwhile has it. A done power action has been carried out on its VM or was so already; without trouble the action is done, and a reboot even if one call failed, unless prevented in some state on the way |
| `Processing.CarryOutFor` | api/internal/compute/worker.go:128-142 | a done action has been carried out on the instance's VM; a reboot fails only if restarting and resetting both do |
| `Processing.Powering` | api/internal/compute/worker.go:541-574 | a power action succeeds only on a VM that exists, is recorded and is the instance's own, and without trouble on every such VM; then that VM has been told exactly this, or was seen to be so already, and whether to start with the host; it is started only if seen stopped, and shut down only if seen running |
| `Processing.WorkOnce` | api/internal/compute/worker.go:36-56 | there is something to do exactly if some row has an action pending, an instance's before a volume's, and without trouble it ends with an attempt at one such action recorded |
| `Processing.Deploy` | api/internal/compute/worker.go:36-41 | from an empty cloud, any schedule of work and requests with any failures and crashes is a run |
| `Reachability.OneCallIsStep` | api/internal/compute/worker.go:45-50 | each listed call, made where its guard allows it, leaves the cloud safe and is a legal step of a run |
| `Reachability.PathIsRun` | api/internal/compute/worker.go:45-50 | any number of them one after another is a run |
| `InstanceRequests.RequestAction` | api/internal/compute/service.go:726-784 | granted exactly if what is asked is so already, or the instance is live and, but for a terminate, in the state the action needs with nothing pending; then the row is shutting down, stopping, pending or running with that action pending and no attempts, and otherwise as it was; the code says why not |
| `InstanceRequests.AskedPreempts` | api/internal/compute/service.go:741-767 | a terminate is never refused and replaces anything; nothing else is granted on a row with an action pending but what is pending already |
| `InstanceRequests.Reconcile` | api/internal/compute/reconcile.go:29-113 | a completed pass has corrected exactly the rows that are still settled as they were read and that both the listing and the VM's own status contradict, each to what the VM said, and touched nothing else, however stale its data; cut short it has corrected some of them |
| `InstanceRequests.Observe` | api/internal/db/instances.go:433-438 | a correction applies exactly if the row is still settled in the state observed from, and writes the state observed |
| `InstanceRequests.AllocateVmid` | api/internal/db/instances.go:285-302 | the lowest VMID in range that is not held, quarantined, reserved or visible; none exactly if there is none |
| `InstanceRequests.RunLocked` | api/internal/compute/service.go:490-551 | under the lock: a new row, as asked for and waiting to be launched, is made exactly if no instance has the token, the quota allows it and some VMID is open, and then with an open one; otherwise the token's instance is returned or refused by hash, or the code says which check failed |
| `InstanceRequests.AdoptLocked` | api/internal/compute/adopt.go:154-175 | the row, with the size read and running or stopped as the VM was, is added exactly if no live instance has the VMID and the quota allows it; the two refusals are told apart |
| `Admission.RunInstance` | api/internal/compute/service.go:441-568 | with anything happening between the two token checks, a successful caller has the one instance of its token, and a new one is as asked for; one whose token is known is answered without anything being touched; each refusal has its reason |
| `Admission.CreateVolume` | api/internal/compute/volumes.go:67-167 | the same for volumes; a request out of the size limits or of an unknown tier is refused and touches nothing |
| `Admission.Adopt` | api/internal/compute/adopt.go:41-190 | with anything happening between the look and the commit, a successful caller has the one live instance on that VMID, which is positive, was in the pool and is not reserved, with the size and state read; each refusal has its reason |
| `VolumeRequests.CreateVolumeLocked` | api/internal/compute/volumes.go:104-146 | under the lock: a row is added exactly if no volume has the token, the quota allows it and fewer than 256 volumes are live; otherwise the token's volume is returned or refused by hash, or the code says which check failed |
| `VolumeRequests.ModifyVolume` | api/internal/compute/volumes.go:185-237 | granted exactly to grow an idle volume within the maximum and the quota, and the row takes the size at once; each refusal has its code |
| `VolumeRequests.AttachVolume` | api/internal/compute/volumes.go:279-338 | granted exactly for an idle volume and a settled instance of one account with the device asked for free, or, if none is asked for, any of 15; then the lowest; each refusal has its code |
| `VolumeRequests.DetachVolume` | api/internal/compute/volumes.go:344-378 | granted exactly for an attached volume with nothing pending or a detach already pending; each refusal has its code |
| `VolumeRequests.DeleteVolume` | api/internal/compute/volumes.go:244-277 | granted exactly for an idle detached volume or one already being deleted; each refusal has its code |
| `Quotas.CheckQuota` | api/internal/compute/service.go:576-618 | admits exactly what leaves every limit that is set, and the memory budget, unexceeded; the size being replaced does not count |
| `Quotas.CheckVolumeQuota` | api/internal/compute/volumes.go:169-183 | the same for volume count and size: the number of the account's live volumes and the sum of their sizes |
| `Quotas.UsageCounts` | api/internal/db/instances.go:222-230 | what an account is said to use of instances and volumes is the number of its instances not terminated and of its volumes not deleted |
| `Quotas.UsageAddsUp` | api/internal/db/instances.go:222-230 | and what of vCPUs, memory, root disks and volume sizes is the sum of that one column over those rows |
| `Quotas.SizeAllowedMeans` | api/internal/compute/service.go:576-618 | said of the rows: the number of the account's live instances and the sums of their vCPUs, memory and root disks, and everybody's memory, without what is being replaced and with what is asked for |
| `Quotas.InstanceAdmitted` | api/internal/compute/service.go:583-618 | adding an admitted instance takes nobody over a limit or the budget |
| `Quotas.ReplacementAdmitted` | api/internal/compute/service.go:583-618 | giving an instance an admitted size in place of its old one takes nobody over a limit or the budget |
| `Quotas.VolumeAdmitted` | api/internal/compute/volumes.go:170-183 | adding or growing an admitted volume takes nobody over a limit |
| `Quotas.GiveUpResizeWithinIff` | api/internal/db/volumes.go:264-270 | giving up a resize keeps limits in every cloud exactly if the disk is no larger than asked for |
| `Quotas.GiveUpTooMuch` | api/internal/compute/volume_worker.go:106-112 | for any larger disk, rows and a limit that only giving up the resize breaks |
| `FirewallRules.RenderFirewall` | api/internal/compute/firewall.go:35-69 | the loop with its `seen` set computes the rendering |
| `FirewallRules.RenderingKeepsMeaning` | api/internal/compute/firewall.go:35-69 | a packet passes the rendered list exactly if some group rule allows it by direction, protocol, address block and port |
| `FirewallRules.RenderingKeepsOrder` | api/internal/compute/firewall.go:60-66 | the rendered rules are the first of each kind in order, no two say the same, none is missing |
| `FirewallRules.PortTextMeaning` | api/internal/compute/firewall.go:48-53 | the written port text read back lets through exactly the range, 0-65535 as no text included |
| `FirewallState.CleanMeansAllowed` | api/internal/db/securitygroups.go:295-304 | when the applied generation is the current one, a grouped instance's VM lets through on its network card exactly what its groups' present rules allow, and an ungrouped one everything |
| `FirewallState.RulesOfMembers` | api/internal/db/securitygroups.go:136-152 | the query returns exactly the rules of the groups |
| `FirewallState.RulesInOrder` | api/internal/db/securitygroups.go:136-152 | they come group by group, ingress before egress |
| `FirewallState.FwRelyKeeps` | api/internal/db/securitygroups.go:242-278 | whatever users change counts up every generation it makes stale |
| `FirewallSync.NoGapWhileReplacing` | api/internal/compute/firewall.go:186-188 | in every list a replacement goes through, what old and new both allow passes, and nothing neither allows does, whatever the old rules were |
| `FirewallSync.NoGapMidway` | api/internal/compute/firewall.go:122-147 | the same of a VM's whole firewall, switches included: the rules are in place before filtering is turned on, and filtering is off before they go |
| `FirewallWorker.ReplaceRules` | api/internal/compute/firewall.go:180-199 | it succeeds exactly if no call fails, and then, from any old list, the VM has exactly the new one; every list on the way is some of the new above all of the old or all of the new above some of the old |
| `FirewallWorker.SameRules` | api/internal/compute/firewall.go:71-83 | true exactly for equal lists |
| `FirewallWorker.ApplyFirewall` | api/internal/compute/firewall.go:99-147 | it succeeds exactly if the VM is the instance's own, it has an address if it has groups, and no call fails; then the VM is as wanted by what was read after the generation, which is current unless the generation moved on, and with groups its addresses are pinned; a VM that is not its own is left alone; every firewall on the way is one of those from the old to what was read |
| `FirewallWorker.WriteFirewall` | api/internal/compute/firewall.go:85-97 | it succeeds under the same conditions, and then the VM has caught up with every change made before the call; in every state during it, successful or not, nothing both the old firewall and what was read let through is shut out and nothing neither does is let in |
| `FirewallWorker.NoGapOnTheWay` | api/internal/compute/firewall.go:99-147 | that follows for a whole history from the firewalls it goes through |
| `FirewallWorker.RunFirewalls` | api/internal/compute/firewall.go:268-299 | any number of writings of any instances among anything users do, with any failures, keeps the invariant in every state |
| `FirewallSync.Firewalls.RecordFirewallApplied` | api/internal/db/securitygroups.go:297-304 | the applied generation only goes up |
| `FirewallRequests.ValidateRules` | api/internal/compute/securitygroups.go:152-198 | all requests become rules, in order, exactly if there are any and each is acceptable |
| `FirewallRequests.AuthorizeRules` | api/internal/compute/securitygroups.go:200-241 | granted exactly for acceptable rules of a group of the caller's, within 60 a direction and none twice; adds exactly those and counts up exactly the group's live members; each refusal has its code |
| `FirewallRequests.RevokeRule` | api/internal/compute/securitygroups.go:243-272 | takes out exactly the rule asked for and counts up exactly the group's live members |
| `FirewallRequests.OneRuleGoes` | api/internal/db/securitygroups.go:182-193 | a rule's number being its own, exactly that rule goes and the others keep their order |
| `FirewallRequests.ResolveGroups` | api/internal/compute/securitygroups.go:274-304 | one to five existing groups of the account, each once; none asked for means the account's default group, made if there is none yet |
| `FirewallRequests.SetInstanceGroups` | api/internal/compute/securitygroups.go:306-343 | granted exactly for an instance neither shutting down nor terminated and one to five groups of its account; replaces them and counts its generation up |
| `FirewallRequests.AddInstance` | api/internal/compute/service.go:516-540 | a new instance has one to five groups of its account, the default one if none was asked for, and starts behind its VM |
| `FirewallRequests.CreateSecurityGroup` | api/internal/compute/securitygroups.go:75-121 | refused exactly if the account has twenty groups; otherwise one more, and the default one if it was missing |
| `FirewallRequests.DeleteSecurityGroup` | api/internal/compute/securitygroups.go:123-150 | deletes a group exactly if it is not the default one and no live instance has it |
| `FirewallRequests.NewGroupAllowsOut` | api/internal/compute/securitygroups.go:100-107 | a new group's rules allow exactly what leaves the instance |
| `FirewallRequests.DefaultGroupAllowsAll` | api/internal/compute/securitygroups.go:60-72 | the default group's rules allow everything both ways |
| `AddressPin.PinAddress` | api/internal/compute/firewall.go:209-248 | it succeeds exactly if there is an address and no call fails, and then the set holds the address without its length, global IPv6 and the routed network, each once, and nothing else; in no state on the way is one of these missing that was there |
| `AddressPin.PinnedAdmits` | api/internal/compute/firewall.go:209-211 | the addresses a guest may send from are exactly those inside the wanted blocks |
| `LedgerSync.SyncLedger` | api/internal/compute/ledger.go:147-196 | a pass is in error exactly if a call failed; an error-free pass leaves the ledger in step; error or not, entries that are not the cloud's to change are untouched; a ledger in step is not written to |
| `LedgerSync.RegisterAll` | api/internal/compute/ledger.go:160-185 | every instance with an address gets its entry but those whose own call failed: a refusal does not keep the others out |
| `LedgerSync.RegisterInstance` | api/internal/compute/ledger.go:232-257 | success means a right entry with its address primary and hanging from its interface, and it fails only with a call; a right one is not written |
| `LedgerSync.SyncDNSNames` | api/internal/compute/ledger.go:198-230 | success means every listed address bears its instance's name; others keep theirs |
| `LedgerSync.RemoveDead` | api/internal/compute/ledger.go:186-194 | removes exactly the tagged, instance-named entries of instances that are gone |
| `LedgerSync.LedgerNamesAreIds` | api/internal/compute/ledger.go:35 | a name is an instance's exactly if it is `i-` and seventeen lower-case hexadecimal digits |
| `LedgerSync.LedgerTags` | api/internal/compute/ledger.go:279-293 | the cloud's tag and, for trusted accounts only, the site's tags for the name, each once |
| `LedgerSync.SameTagsRight` | api/internal/compute/ledger.go:295-302 | comparing tags regardless of order tells right from wrong entries |

## Left out

- Theorems.SettledWhereItSays: a disk's size is not part of it, since it may differ from the row's (`Scenario.SharedSlot`); `VolumeWorker.CreateVolumeDisk` says exactly when.
- Theorems.AdoptedLeavesNoNames: one way only, since without a VM a volume need not come to name the instance; `Scenario.NamesLeftIff` states both directions.
- Theorems.OnlyOwnVmsPowered: speaks of the worker's calls; the reconciler once sets whether a VM starts with the host from a row and a listing read earlier, without asking whose the VM is by then, and that call is not part of the model.
- InstanceRequests.Reconcile: the notes it leaves on rows whose VM is not listed are not part of the model, so that skipping a pass in which nothing is listed changes no row either way.
- Admission.Adopt: reads sizes as parameters and records no address; adopted addresses are entered later by the ledger pass, and groups belong to the firewall's model.
- Theorems.OneVmOneAddress: a seed image that was uploaded and never recorded may be left, as `Scenario.SeedLeftBehind` shows.
- InstanceWorker.LaunchInstance: writing the firewall before the first boot is not part of it; the firewall has its own model. What the seed image and the VM's config say is left out.
- FirewallWorker.WriteFirewall: the source addresses a filtered guest may send from are not part of what a firewall is said to let through, so the property without gaps is about rules and switches only.
- Processing.Powering: what a VM was told and how it was shown is on record, but a VM may start or stop by itself, so whether it runs is any answer; the guest's pending changes are likewise any answer.
- LedgerSync.LedgerDiffers: compares tags as multisets, where the code sorts both lists.
- Leases, back-off delays and wake-ups: which due piece of work comes next is any choice.
- Changing an instance's size: only its quota check is modelled; check and write are separate transactions by design, and the code says so.
- What storage a tier stands for, pool fullness and host capacity checks, key pairs, images and ISOs: foreign calls that only refuse or fail.
- Accounts' existence and authorisation: a parameter of each request.
- SQL text: each statement is one guarded update, each transaction one step.
- Buckets, databases, functions, services, HTTP handlers, sign-in, the command line, the portal and the site file: plumbing or easy members.
