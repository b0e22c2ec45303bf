/** The whole state the control plane acts on (database rows, hypervisor,
    address manager), what must hold of it between any two calls, and the effect
    of each single call on it. */
module CloudState {
  import opened Types
  import opened Rows

  /** `bound` is bookkeeping of the proof: the physical disk each volume was first given. */
  datatype World = World(
    site: Site,
    volumes: map<VolumeId, Volume>,
    instances: map<InstanceId, Instance>,
    quarantine: set<VmId>,
    vms: map<VmId, Owner>,
    slots: map<Slot, Disk>,
    addresses: map<AddressId, InstanceId>,
    seeds: set<InstanceId>,
    bound: map<VolumeId, DiskIdent>)

  const HOLDER_SLOTS := 256
  const LAST_DEVICE := 15

  // ---------------------------------------------------------------- volumes

  predicate VolumeShape(v: Volume) {
    && v.instance.Some? == v.device.Some?
    && v.instance.Some? == v.attachment.Some?
    && match v.state
       case Creating => v.pending == Some(Create) && v.instance.None?
       case Available =>
         || ((v.pending.None? || v.pending == Some(Resize)) && v.instance.None?)
         || (v.pending == Some(Attach) && v.attachment == Some(Attaching))
         || (v.pending == Some(Detach) && v.attachment == Some(Detaching))
       case InUse =>
         || ((v.pending.None? || v.pending == Some(Resize)) && v.attachment == Some(Attached))
         || (v.pending == Some(Detach) && v.attachment == Some(Detaching))
       case Deleting => v.pending == Some(Delete) && v.instance.None?
       case Deleted => v.pending.None? && v.instance.None?
       case VolumeError => v.pending.None? && v.instance.None?
  }

  /** A location without a disk at most intends a plugged slot on the holder;
      one with a disk at most intends an unused slot somewhere. */
  predicate LocationShape(site: Site, l: Location) {
    && l.vmid.Some? == l.name.Some?
    && l.key.Some? == l.name.Some?
    && l.moveVmid.Some? == l.moveKey.Some?
    && (l.moveKey.Some? && l.name.Some? ==> l.moveKey.value.Unused?)
    && (l.moveKey.Some? && l.name.None? ==> l.moveKey.value.Scsi? && l.moveVmid.value == site.holder)
  }

  /** The VMID is the instance's to use: it was adopted with it, or the VM there says so. */
  ghost predicate Owned(w: World, i: InstanceId)
    requires i in w.instances
  {
    w.instances[i].adopted || HasVm(w, i)
  }

  /** The VM on its VMID exists and is its own. */
  predicate HasVm(w: World, i: InstanceId)
    requires i in w.instances
  {
    var inst := w.instances[i];
    inst.vmid.Some? && inst.vmid.value in w.vms && (inst.adopted || w.vms[inst.vmid.value] == InstanceVm(i))
  }

  /** The instance a volume names is live, or was adopted; one in use has the VM the disk is in. */
  ghost predicate NamingOK(w: World, v: Volume) {
    v.instance.Some? ==>
      var i := v.instance.value;
      && i in w.instances
      && w.instances[i].vmCreated
      && w.instances[i].account == v.account
      && (if LiveInstance(w.instances[i]) then Owned(w, i) else w.instances[i].adopted)
      && (v.state.InUse? ==> LiveInstance(w.instances[i]) && HasVm(w, i))
  }

  /** A disk may only go to the holder or to the VMID of the live instance its volume names. */
  predicate MayGo(w: World, v: Volume, m: VmId) {
    || m == w.site.holder
    || (&& v.instance.Some? && v.instance.value in w.instances
        && LiveInstance(w.instances[v.instance.value]) && w.instances[v.instance.value].vmid == Some(m))
  }

  predicate PlaceAllowed(w: World, v: Volume, m: VmId) { m in w.vms && MayGo(w, v, m) }

  predicate HolderReady(w: World) {
    w.site.holder in w.vms && w.vms[w.site.holder] == HolderVm
  }

  ghost predicate NameAbsent(w: World, name: DiskName) {
    forall p :: p in w.slots ==> w.slots[p].name != name
  }

  ghost predicate IdentAbsent(w: World, ident: DiskIdent) {
    forall p :: p in w.slots ==> w.slots[p].ident != ident
  }

  /** The disk is on the recorded VM, under the recorded name. */
  ghost predicate AtHome(w: World, id: VolumeId, l: Location)
    requires id in w.bound && l.vmid.Some? && l.name.Some?
  {
    exists p ::
      p in w.slots && p.vm == l.vmid.value && w.slots[p].name == l.name.value && w.slots[p].ident == w.bound[id]
  }

  /** The disk has already reached the recorded destination, under a new name. */
  ghost predicate Arrived(w: World, id: VolumeId, l: Location)
    requires id in w.bound && l.name.Some?
  {
    && l.moveVmid.Some? && l.moveKey.Some?
    && Slot(l.moveVmid.value, l.moveKey.value) in w.slots
    && w.slots[Slot(l.moveVmid.value, l.moveKey.value)].ident == w.bound[id]
    && NameAbsent(w, l.name.value)
  }

  /** A delete has destroyed the disk and not been recorded as finished yet. */
  ghost predicate Destroyed(w: World, id: VolumeId, v: Volume)
    requires id in w.bound && v.loc.name.Some?
  {
    && v.pending == Some(Delete)
    && v.loc.moveVmid.None?
    && NameAbsent(w, v.loc.name.value)
    && IdentAbsent(w, w.bound[id])
  }

  ghost predicate DiskKept(w: World, id: VolumeId, v: Volume)
    requires v.loc.name.Some? && v.loc.vmid.Some?
  {
    && HolderReady(w)
    && id in w.bound
    && PlaceAllowed(w, v, v.loc.vmid.value)
    && (v.loc.moveVmid.Some? ==> v.instance.Some? && PlaceAllowed(w, v, v.loc.moveVmid.value))
    && (AtHome(w, id, v.loc) || Arrived(w, id, v.loc) || Destroyed(w, id, v))
  }

  /** In use with nothing that moves it pending, on an instance not being terminated. */
  predicate SettledInUse(w: World, v: Volume) {
    && v.state.InUse? && (v.pending.None? || v.pending == Some(Resize))
    && v.instance.Some? && v.instance.value in w.instances
    && w.instances[v.instance.value].pending != Some(Terminate)
  }

  /** The disk is plugged into the named instance's VM under exactly the recorded device. */
  predicate AtDevice(w: World, v: Volume) {
    && v.instance.Some? && v.instance.value in w.instances && v.device.Some?
    && v.loc.vmid.Some? && v.loc.vmid == w.instances[v.instance.value].vmid
    && v.loc.key == Some(Virtio(v.device.value)) && v.loc.moveVmid.None? && v.loc.name.Some?
    && Slot(v.loc.vmid.value, Virtio(v.device.value)) in w.slots
    && w.slots[Slot(v.loc.vmid.value, Virtio(v.device.value))].name == v.loc.name.value
  }

  ghost predicate VolumeOK(w: World, id: VolumeId)
    requires id in w.volumes
  {
    var v := w.volumes[id];
    && VolumeShape(v)
    && LocationShape(w.site, v.loc)
    && (id in w.bound <==> v.loc.name.Some?)
    && (v.pending == Some(Create) || v.pending == Some(Attach) || v.pending == Some(Resize) ==>
         v.attempts < w.site.maxAttempts)
    && (v.state.Available? || v.state.InUse? ==> v.loc.name.Some?)
    && (v.device.Some? ==> 1 <= v.device.value <= LAST_DEVICE)
    && (v.state.Deleted? && id in w.bound ==> IdentAbsent(w, w.bound[id]))
    && (LiveVolume(v) ==>
          && NamingOK(w, v)
          && (v.loc.name.None? && v.loc.moveVmid.Some? ==> HolderReady(w))
          && (v.loc.name.Some? ==> DiskKept(w, id, v))
          && (SettledInUse(w, v) ==> AtDevice(w, v)))
  }

  function LiveVolumeIds(w: World): set<VolumeId> {
    set id | id in w.volumes && LiveVolume(w.volumes[id])
  }

  ghost predicate BoundDistinct(w: World) {
    forall a, b :: a in w.bound && b in w.bound && w.bound[a] == w.bound[b] ==> a == b
  }

  /** No two live volumes record the same disk. */
  ghost predicate NamesDistinct(w: World) {
    forall a, b | a in w.volumes && b in w.volumes && LiveVolume(w.volumes[a]) && LiveVolume(w.volumes[b])
      :: w.volumes[a].loc.name.Some? && w.volumes[a].loc.name == w.volumes[b].loc.name ==> a == b
  }

  /** Volumes naming the same instance have distinct devices. */
  ghost predicate DevicesDistinct(w: World) {
    forall a, b | a in w.volumes && b in w.volumes && w.volumes[a].instance.Some?
      :: w.volumes[a].instance == w.volumes[b].instance && w.volumes[a].device == w.volumes[b].device ==> a == b
  }

  predicate SameVolumeToken(v: Volume, u: Volume) { v.token == u.token && v.account == u.account }

  ghost predicate VolumeTokensDistinct(w: World) {
    forall a, b | a in w.volumes && b in w.volumes && w.volumes[a].token.Some?
      :: SameVolumeToken(w.volumes[a], w.volumes[b]) ==> a == b
  }

  // ------------------------------------------------------------- hypervisor

  /** What the hypervisor itself guarantees: disks sit on existing VMs, a name or
      an identity sits under at most one key, and VMs outside the pool stay. */
  ghost predicate HypervisorOK(w: World) {
    && (forall p :: p in w.slots ==> p.vm in w.vms)
    && (forall p, q :: p in w.slots && q in w.slots && w.slots[p].name == w.slots[q].name ==> p == q)
    && (forall p, q :: p in w.slots && q in w.slots && w.slots[p].ident == w.slots[q].ident ==> p == q)
    && (forall m :: m in w.vms && w.vms[m] == HolderVm ==> m == w.site.holder)
    && (forall m :: m in w.site.outside ==> m in w.vms && w.vms[m] == ForeignVm)
  }

  ghost predicate Claimed(w: World, ident: DiskIdent) {
    exists id :: id in w.bound && w.bound[id] == ident
  }

  predicate Intends(w: World, id: VolumeId, key: Key) {
    && id in w.volumes && LiveVolume(w.volumes[id])
    && w.volumes[id].loc.name.None? && w.volumes[id].loc.moveKey == Some(key)
  }

  /** Every disk on the holder is a volume's, or is a blank one that some live
      volume without a disk intends at exactly that slot. */
  ghost predicate HolderSlotsOK(w: World) {
    HolderReady(w) ==>
      forall k :: Slot(w.site.holder, k) in w.slots ==>
        || Claimed(w, w.slots[Slot(w.site.holder, k)].ident)
        || (k.Scsi? && exists id :: Intends(w, id, k))
  }

  // -------------------------------------------------------------- instances

  predicate InstanceShape(i: Instance) {
    match i.pending
    case None => i.state.Running? || i.state.Stopped? || i.state.Terminated?
    case Some(Launch) => i.state.Pending?
    case Some(Start) => i.state.Pending?
    case Some(Stop) => i.state.Stopping?
    case Some(Reboot) => i.state.Running?
    case Some(Terminate) => i.state.ShuttingDown?
  }

  /** Live and past its launch, and not being terminated either. */
  predicate Established(i: Instance) {
    LiveInstance(i) && i.pending != Some(Launch) && i.pending != Some(Terminate)
  }

  /** It has its VM and, unless it brought its own, its address and its seed image. */
  predicate Equipped(i: Instance) {
    i.vmCreated && (i.adopted || (i.address.Some? && i.seed))
  }

  ghost predicate InstanceOK(w: World, i: InstanceId)
    requires i in w.instances
  {
    var inst := w.instances[i];
    && InstanceShape(inst)
    && (inst.pending.Some? && inst.pending != Some(Terminate) ==> inst.attempts < w.site.maxAttempts)
    && (Established(inst) ==> Equipped(inst))
    && (inst.adopted ==> inst.vmCreated && !inst.seed && inst.pending != Some(Launch))
    && inst.vmid.Some? && inst.vmid.value != w.site.holder && inst.vmid.value !in w.site.probes
    && (LiveInstance(inst) ==>
          && (!inst.adopted ==> inst.vmid.value !in w.quarantine)
          && (inst.adopted ==> inst.vmid.value !in w.site.outside)
          && (inst.vmCreated && inst.pending != Some(Terminate) ==> Owned(w, i))
          && (inst.address.Some? && inst.pending != Some(Terminate) ==> inst.address.value in w.addresses)
          && (inst.seed && inst.pending != Some(Terminate) ==> i in w.seeds)
          && (inst.address.Some? && inst.address.value in w.addresses ==> w.addresses[inst.address.value] == i))
  }

  /** Live instances hold pairwise distinct VMIDs. */
  ghost predicate VmidsDistinct(w: World) {
    forall a, b | a in w.instances && b in w.instances && LiveInstance(w.instances[a]) && LiveInstance(w.instances[b])
      :: w.instances[a].vmid == w.instances[b].vmid ==> a == b
  }

  predicate SameInstanceToken(i: Instance, j: Instance) { i.token == j.token && i.account == j.account }

  ghost predicate InstanceTokensDistinct(w: World) {
    forall a, b | a in w.instances && b in w.instances && w.instances[a].token.Some?
      :: SameInstanceToken(w.instances[a], w.instances[b]) ==> a == b
  }

  /** A VM marked as an instance's is the one VM a live instance has. */
  ghost predicate VmOwnersOK(w: World) {
    forall m :: m in w.vms && w.vms[m].InstanceVm? ==>
      var i := w.vms[m].instance;
      i in w.instances && LiveInstance(w.instances[i]) && w.instances[i].vmid == Some(m) && !w.instances[i].adopted
  }

  /** Every address is a live instance's, and an instance has at most one. */
  ghost predicate AddressesOK(w: World) {
    && (forall a :: a in w.addresses ==> w.addresses[a] in w.instances && LiveInstance(w.instances[w.addresses[a]]))
    && (forall a, b :: a in w.addresses && b in w.addresses && w.addresses[a] == w.addresses[b] ==> a == b)
  }

  /** Every seed image is some instance's, and a terminated one has none that was recorded. */
  ghost predicate SeedsOK(w: World) {
    forall i :: i in w.seeds ==> i in w.instances && (LiveInstance(w.instances[i]) || !w.instances[i].seed)
  }

  predicate SiteOK(site: Site) {
    site.maxAttempts > 0 && site.holder !in site.probes
  }

  // ------------------------------------------------------------- everything

  ghost predicate VolumesOK(w: World) {
    && (forall id :: id in w.volumes ==> VolumeOK(w, id))
    && (forall id :: id in w.bound ==> id in w.volumes)
    && BoundDistinct(w)
    && NamesDistinct(w)
    && DevicesDistinct(w)
    && VolumeTokensDistinct(w)
    && |LiveVolumeIds(w)| <= HOLDER_SLOTS
  }

  ghost predicate InstancesOK(w: World) {
    && (forall i :: i in w.instances ==> InstanceOK(w, i))
    && VmidsDistinct(w)
    && InstanceTokensDistinct(w)
    && VmOwnersOK(w)
    && AddressesOK(w)
    && SeedsOK(w)
  }

  /** What holds in every reachable state, between any two calls. */
  ghost predicate Safe(w: World) {
    && SiteOK(w.site)
    && HypervisorOK(w)
    && HolderSlotsOK(w)
    && VolumesOK(w)
    && InstancesOK(w)
  }

  // ---------------------------------------------------- effects of one call

  function SetVolume(w: World, id: VolumeId, v: Volume): World {
    w.(volumes := w.volumes[id := v])
  }

  function SetInstance(w: World, i: InstanceId, inst: Instance): World {
    w.(instances := w.instances[i := inst])
  }

  /** The physical disk a volume is given is the one it first records. */
  ghost function Bind(w: World, id: VolumeId, l: Location): map<VolumeId, DiskIdent> {
    if l.name.Some? && id !in w.bound && exists p :: p in w.slots && w.slots[p].name == l.name.value then
      var p :| p in w.slots && w.slots[p].name == l.name.value;
      w.bound[id := w.slots[p].ident]
    else w.bound
  }

  ghost function Record(w: World, id: VolumeId, l: Location): World
    requires id in w.volumes
  {
    SetVolume(w, id, RecordLocation(w.volumes[id], l)).(bound := Bind(w, id, l))
  }

  /** move_disk: the disk goes to another VM and is renamed there. */
  function MoveTo(w: World, src: Slot, dst: Slot, name: DiskName): World
    requires src in w.slots
  {
    w.(slots := (w.slots - {src})[dst := w.slots[src].(name := name)])
  }

  /** Plugging in and unplugging: the same disk under another key of the same VM. */
  function Rekey(w: World, src: Slot, key: Key): World
    requires src in w.slots
  {
    w.(slots := (w.slots - {src})[Slot(src.vm, key) := w.slots[src]])
  }

  function AddDisk(w: World, p: Slot, d: Disk): World {
    w.(slots := w.slots[p := d])
  }

  function DestroyDisk(w: World, p: Slot): World {
    w.(slots := w.slots - {p})
  }

  function ResizeTo(w: World, p: Slot, size: nat): World
    requires p in w.slots
  {
    w.(slots := w.slots[p := w.slots[p].(size := size)])
  }

  /** The size of a VM's root disk, 0 if it has none. */
  function RootSize(w: World, m: VmId): nat {
    if Slot(m, Virtio(0)) in w.slots then w.slots[Slot(m, Virtio(0))].size else 0
  }

  function AddVm(w: World, m: VmId, owner: Owner, disks: map<Slot, Disk>): World {
    w.(vms := w.vms[m := owner], slots := w.slots + disks)
  }

  /** Deleting a VM destroys every disk it holds. */
  function RemoveVm(w: World, m: VmId): World {
    w.(vms := w.vms - {m}, slots := map p | p in w.slots && p.vm != m :: w.slots[p])
  }

  /** No disk has this name, and no live row still records it. */
  ghost predicate FreshName(w: World, name: DiskName) {
    && NameAbsent(w, name)
    && forall id :: id in w.volumes && LiveVolume(w.volumes[id]) ==> w.volumes[id].loc.name != Some(name)
  }

  /** An address record no instance has been given before. */
  ghost predicate FreshAddress(w: World, a: AddressId) {
    a !in w.addresses && forall i :: i in w.instances ==> w.instances[i].address != Some(a)
  }

  ghost predicate FreshIdent(w: World, ident: DiskIdent) {
    IdentAbsent(w, ident) && !Claimed(w, ident)
  }

  /** The disks a new VM comes with: its own, under names and identities nothing else has. */
  ghost predicate FreshDisks(w: World, m: VmId, disks: map<Slot, Disk>) {
    && (forall p :: p in disks ==> p.vm == m && FreshName(w, disks[p].name) && FreshIdent(w, disks[p].ident))
    && (forall p, q :: p in disks && q in disks && disks[p].name == disks[q].name ==> p == q)
    && (forall p, q :: p in disks && q in disks && disks[p].ident == disks[q].ident ==> p == q)
  }
}
