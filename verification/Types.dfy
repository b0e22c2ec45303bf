/** The values every part of the control plane shares: identifiers, results, and
    the rows and hypervisor entries as they are stored. */
module Types {
  datatype Option<+T> = None | Some(value: T)

  /** How a step ends. Crash stands for the process dying, so nothing after it
      runs; Failed is any error a retry may cure; GiveUp is one it cannot. */
  datatype Error = Crash | Failed | Busy | GiveUp | DiskMissing | NoSlot

  datatype Outcome = Ok | Err(error: Error)

  type VolumeId = nat
  type InstanceId = nat
  type AccountId = nat
  type AddressId = nat
  type Token = nat
  type Hash = nat
  type Tier = nat
  type VmId = int

  /** The name Proxmox gives a disk, which changes whenever the owning VM does. */
  type DiskName = nat

  /** Which physical disk it is, whatever it is called at the moment. */
  type DiskIdent = nat

  /** The configuration keys that can hold a disk. */
  datatype Key = Virtio(n: nat) | Scsi(n: nat) | Sata(n: nat) | Ide(n: nat) | Unused(n: nat)

  predicate Plugged(k: Key) { !k.Unused? }

  datatype Slot = Slot(vm: VmId, key: Key)

  datatype Disk = Disk(name: DiskName, ident: DiskIdent, size: nat)

  /** What a VM's description says about whose it is. */
  datatype Owner = HolderVm | InstanceVm(instance: InstanceId) | ForeignVm

  /** Where a disk is recorded to be, and where it is about to be moved. */
  datatype Location = Location(
    vmid: Option<VmId>,
    key: Option<Key>,
    name: Option<DiskName>,
    moveVmid: Option<VmId>,
    moveKey: Option<Key>)

  const NOWHERE := Location(None, None, None, None, None)

  datatype VolumeState = Creating | Available | InUse | Deleting | Deleted | VolumeError
  datatype VolumeAction = Create | Attach | Detach | Resize | Delete
  datatype AttachmentState = Attaching | Attached | Detaching

  datatype Volume = Volume(
    account: AccountId,
    token: Option<Token>,
    hash: Hash,
    tier: Tier,
    size: nat,
    state: VolumeState,
    instance: Option<InstanceId>,
    device: Option<nat>,
    attachment: Option<AttachmentState>,
    pending: Option<VolumeAction>,
    attempts: nat,
    loc: Location)

  predicate LiveVolume(v: Volume) { !v.state.Deleted? }

  datatype InstanceState = Pending | Running | Stopping | Stopped | ShuttingDown | Terminated
  datatype InstanceAction = Launch | Start | Stop | Reboot | Terminate

  datatype Instance = Instance(
    account: AccountId,
    token: Option<Token>,
    hash: Hash,
    vcpus: nat,
    memory: nat,
    rootDisk: nat,
    state: InstanceState,
    pending: Option<InstanceAction>,
    attempts: nat,
    vmid: Option<VmId>,
    vmCreated: bool,
    address: Option<AddressId>,
    seed: bool,
    adopted: bool)

  predicate LiveInstance(i: Instance) { !i.state.Terminated? }

  /** What an account may hold, and what memory all together may; 0 is no limit. */
  datatype Limits = Limits(
    instances: nat,
    vcpus: nat,
    memory: nat,
    rootDisk: nat,
    volumes: nat,
    volumeGiB: nat,
    memoryBudget: nat,
    volumeMin: nat,
    volumeMax: nat)

  /** The deployment's own numbers. `outside` are the VMs outside the cloud pool,
      which listing does not show, and `tiers` the kinds of storage there are for volumes. */
  datatype Site = Site(
    holder: VmId,
    probes: set<VmId>,
    vmidFrom: VmId,
    vmidTo: VmId,
    outside: set<VmId>,
    tiers: set<Tier>,
    maxAttempts: nat,
    limits: Limits)

  // what users are answered

  datatype Code =
    | NotFound | InvalidParameter | IncorrectState | VolumeInUse | OtherAccount | IncorrectInstanceState
    | LimitExceeded | NoCapacity | AttachmentLimit | TokenMismatch | AlreadyAdopted
    | Duplicate | CannotDelete | DependencyViolation | Unavailable

  datatype Reply = Granted | Refused(code: Code)

  datatype Created = Made(id: nat) | Same(id: nat) | NotMade(code: Code)
}
