/** Every update of an instance row, and every creation or removal of a VM or an
    address, keeps the cloud safe when it is made under its caller's guard. */
module InstanceLemmas {
  import opened Types
  import opened Rows
  import opened CloudState
  import opened DiskLemmas
  import opened RowLemmas

  ghost predicate Names(w: World, b: VolumeId, i: InstanceId) {
    b in w.volumes && LiveVolume(w.volumes[b]) && w.volumes[b].instance == Some(i)
  }

  /** Adopted, but the VM it was adopted with is gone. */
  predicate Bodiless(w: World, i: InstanceId)
    requires i in w.instances
  {
    w.instances[i].adopted && w.instances[i].vmid.Some? && w.instances[i].vmid.value !in w.vms
  }

  /** What the rest of the cloud relies on in an instance's row survives its change to `inst'`. */
  ghost predicate InstanceChangeLegal(w: World, i: InstanceId, inst': Instance)
    requires i in w.instances
  {
    var inst := w.instances[i];
    && inst'.account == inst.account && inst'.token == inst.token && inst'.adopted == inst.adopted
    && (LiveInstance(inst') ==> LiveInstance(inst))
    && (inst'.vmid == inst.vmid
        || forall j :: j in w.instances && j != i && LiveInstance(w.instances[j]) ==> w.instances[j].vmid != inst'.vmid)
    && (forall m :: m in w.vms && w.vms[m] == InstanceVm(i) ==> LiveInstance(inst') && inst'.vmid == Some(m))
    && (forall a :: a in w.addresses && w.addresses[a] == i ==> LiveInstance(inst'))
    && (i in w.seeds ==> LiveInstance(inst') || !inst'.seed)
    && ((exists b :: Names(w, b, i)) ==>
          && inst'.vmCreated && inst'.vmid == inst.vmid
          && (LiveInstance(inst') || Bodiless(w, i))
          && (LiveInstance(inst') && inst'.pending != Some(Terminate) ==> inst.pending != Some(Terminate)))
  }

  lemma InstanceRowSafe(w: World, i: InstanceId, inst': Instance)
    requires Safe(w) && i in w.instances && InstanceChangeLegal(w, i, inst')
    requires InstanceOK(SetInstance(w, i, inst'), i)
    ensures Safe(SetInstance(w, i, inst'))
  {
    hide HypervisorOK, VolumesOK, InstancesOK, HolderSlotsOK, InstanceChangeLegal, InstanceOK;
    var w' := SetInstance(w, i, inst');
    HypervisorUntouched(w, w');
    HolderUntouched(w, w');
    VolumesAfterInstance(w, i, inst');
    InstancesAfter(w, i, inst');
  }

  lemma HolderUntouched(w: World, w': World)
    requires HolderSlotsOK(w) && w'.site == w.site && w'.slots == w.slots && w'.vms == w.vms
    requires w'.volumes == w.volumes && w'.bound == w.bound
    ensures HolderSlotsOK(w')
  {
    HolderCarriesOver(w, w');
  }

  lemma VolumesAfterInstance(w: World, i: InstanceId, inst': Instance)
    requires VolumesOK(w) && i in w.instances && InstanceChangeLegal(w, i, inst')
    ensures VolumesOK(SetInstance(w, i, inst'))
  {
    hide VolumeOK, InstanceChangeLegal;
    var w' := SetInstance(w, i, inst');
    forall b | b in w'.volumes ensures VolumeOK(w', b) {
      VolumeAfterInstance(w, i, inst', b);
    }
    assert LiveVolumeIds(w') == LiveVolumeIds(w);
  }

  lemma VolumeAfterInstance(w: World, i: InstanceId, inst': Instance, b: VolumeId)
    requires i in w.instances && InstanceChangeLegal(w, i, inst') && b in w.volumes && VolumeOK(w, b)
    ensures VolumeOK(SetInstance(w, i, inst'), b)
  {
    var w' := SetInstance(w, i, inst');
    var v := w.volumes[b];
    if LiveVolume(v) {
      assert v.instance == Some(i) ==> Names(w, b, i);
      if v.loc.name.Some? {
        assert AtHome(w, b, v.loc) ==> AtHome(w', b, v.loc);
      }
    }
  }

  lemma InstancesAfter(w: World, i: InstanceId, inst': Instance)
    requires InstancesOK(w) && i in w.instances && InstanceChangeLegal(w, i, inst')
    requires InstanceOK(SetInstance(w, i, inst'), i)
    ensures InstancesOK(SetInstance(w, i, inst'))
  {
    var w' := SetInstance(w, i, inst');
    forall j | j in w'.instances ensures InstanceOK(w', j) {
      assert j != i ==> InstanceOK(w, j);
    }
  }

  lemma NoVmNoVolumes(w: World, i: InstanceId)
    requires Safe(w) && i in w.instances && !w.instances[i].vmCreated
    ensures !exists b :: Names(w, b, i)
  {
    hide HypervisorOK, InstancesOK, HolderSlotsOK, DiskKept, SettledInUse;
    forall b | b in w.volumes ensures !Names(w, b, i) {
      assert VolumeOK(w, b);
    }
  }

  /** A change of state, pending action and attempts alone. */
  lemma InstanceStepSafe(w: World, i: InstanceId, inst': Instance)
    requires Safe(w) && i in w.instances && LiveInstance(w.instances[i]) && LiveInstance(inst')
    requires inst' == w.instances[i].(state := inst'.state, pending := inst'.pending, attempts := inst'.attempts)
    requires InstanceShape(inst') && (Established(inst') ==> Equipped(inst'))
    requires inst'.pending.Some? && inst'.pending != Some(Terminate) ==> inst'.attempts < w.site.maxAttempts
    requires w.instances[i].pending == Some(Terminate) ==> inst'.pending == Some(Terminate)
    requires inst'.pending == Some(Launch) ==> w.instances[i].pending == Some(Launch)
    ensures Safe(SetInstance(w, i, inst'))
  {
    hide Safe, HypervisorOK, VolumesOK, HolderSlotsOK;
    SafeInstance(w, i);
    InstanceFacts(w, i);
    InstanceRowSafe(w, i, inst');
  }

  /** What the rest of the state says about a live instance. */
  lemma InstanceFacts(w: World, i: InstanceId)
    requires Safe(w) && i in w.instances
    ensures forall m :: m in w.vms && w.vms[m] == InstanceVm(i) ==>
              LiveInstance(w.instances[i]) && w.instances[i].vmid == Some(m)
    ensures forall a :: a in w.addresses && w.addresses[a] == i ==> LiveInstance(w.instances[i])
    ensures i in w.seeds ==> LiveInstance(w.instances[i]) || !w.instances[i].seed
    ensures (exists b :: Names(w, b, i)) ==> w.instances[i].vmCreated
  {
    hide HypervisorOK, HolderSlotsOK, DiskKept, SettledInUse, InstanceOK;
    forall b | Names(w, b, i) ensures w.instances[i].vmCreated {
      assert VolumeOK(w, b);
    }
  }

  /** Nothing of an instance is left to remove: no VM, no address, no seed image that was
      recorded, and no volume, unless its VM had gone before a volume could have a disk there. */
  ghost predicate NothingLeft(w: World, i: InstanceId) {
    && (forall m :: m in w.vms ==> w.vms[m] != InstanceVm(i))
    && (forall a :: a in w.addresses ==> w.addresses[a] != i)
    && (i in w.seeds && i in w.instances ==> !w.instances[i].seed)
    && (forall b :: Names(w, b, i) ==> i in w.instances && Bodiless(w, i))
  }

  lemma FinishTerminateSafe(w: World, i: InstanceId)
    requires Safe(w) && i in w.instances && w.instances[i].pending == Some(Terminate) && NothingLeft(w, i)
    ensures Safe(SetInstance(w, i, FinishAction(w.instances[i], Terminate, Terminated)))
  {
    hide Safe, HypervisorOK, VolumesOK, HolderSlotsOK;
    SafeInstance(w, i);
    InstanceRowSafe(w, i, FinishAction(w.instances[i], Terminate, Terminated));
  }

  /** Recording what a launch has made so far. */
  lemma RecordResourcesSafe(w: World, i: InstanceId, created: bool, address: Option<AddressId>, seed: bool)
    requires Safe(w) && i in w.instances && LiveInstance(w.instances[i])
    requires (w.instances[i].vmCreated ==> created) && (w.instances[i].address.Some? ==> address.Some?)
    requires created ==> Owned(w, i)
    requires (w.instances[i].seed ==> seed) && (seed ==> i in w.seeds && !w.instances[i].adopted)
    requires address.Some? ==> address.value in w.addresses && w.addresses[address.value] == i
    ensures Safe(SetInstance(w, i, RecordResources(w.instances[i], w.instances[i].vmid, created, address, seed)))
  {
    hide Safe, HypervisorOK, VolumesOK, HolderSlotsOK;
    SafeInstance(w, i);
    InstanceFacts(w, i);
    InstanceRowSafe(w, i, RecordResources(w.instances[i], w.instances[i].vmid, created, address, seed));
  }

  /** Giving up a VMID that turned out to be taken, for a free one. */
  lemma MoveVmidSafe(w: World, i: InstanceId, vmid: VmId)
    requires Safe(w) && i in w.instances && w.instances[i].vmid.Some? && LiveInstance(w.instances[i])
    requires !w.instances[i].vmCreated && !w.instances[i].adopted
    requires w.instances[i].vmid.value in w.vms ==> w.vms[w.instances[i].vmid.value] != InstanceVm(i)
    requires VmidFree(w, vmid) && vmid != w.instances[i].vmid.value
    ensures var w1 := w.(quarantine := w.quarantine + {w.instances[i].vmid.value});
            Safe(SetInstance(w1, i, w.instances[i].(vmid := Some(vmid))))
  {
    hide Safe, HypervisorOK, VolumesOK, HolderSlotsOK;
    var inst := w.instances[i];
    var w1 := w.(quarantine := w.quarantine + {inst.vmid.value});
    assert inst.vmid.Some? by { SafeInstance(w, i); }
    var inst' := inst.(vmid := Some(vmid));
    var w' := SetInstance(w1, i, inst');
    // The order of the two writes does not matter, so the row is moved first.
    NoVmNoVolumes(w, i);
    SafeInstance(w, i);
    InstanceFacts(w, i);
    VmidsApart(w, i);
    assert InstanceOK(SetInstance(w, i, inst'), i);
    InstanceRowSafe(w, i, inst');
    QuarantineSafe(SetInstance(w, i, inst'), inst.vmid.value);
    assert w' == SetInstance(w, i, inst').(quarantine := w.quarantine + {inst.vmid.value});
  }

  lemma VmidsApart(w: World, i: InstanceId)
    requires Safe(w) && i in w.instances && LiveInstance(w.instances[i])
    ensures forall j :: j in w.instances && j != i && LiveInstance(w.instances[j]) ==>
              w.instances[j].vmid != w.instances[i].vmid
  {
    hide HypervisorOK, VolumesOK, HolderSlotsOK, InstanceOK;
  }

  /** No live instance holds it, it is not reserved, and it is not quarantined. */
  ghost predicate VmidFree(w: World, vmid: VmId) {
    && vmid != w.site.holder && vmid !in w.site.probes && vmid !in w.quarantine
    && forall j :: j in w.instances && LiveInstance(w.instances[j]) ==> w.instances[j].vmid != Some(vmid)
  }

  lemma QuarantineSafe(w: World, vmid: VmId)
    requires Safe(w)
    requires forall j :: j in w.instances && LiveInstance(w.instances[j]) ==> w.instances[j].vmid != Some(vmid)
    ensures Safe(w.(quarantine := w.quarantine + {vmid}))
  {
    hide HypervisorOK, VolumesOK, HolderSlotsOK;
    var w' := w.(quarantine := w.quarantine + {vmid});
    HypervisorUntouched(w, w');
    HolderUntouched(w, w');
    assert VolumesOK(w') by { VolumesUntouched(w, w'); }
    forall i | i in w'.instances ensures InstanceOK(w', i) {
      assert InstanceOK(w, i);
    }
  }

  /** Volumes do not depend on quarantined VMIDs or addresses. */
  lemma VolumesUntouched(w: World, w': World)
    requires VolumesOK(w) && w' == w.(quarantine := w'.quarantine, addresses := w'.addresses, seeds := w'.seeds)
    ensures VolumesOK(w')
  {
    hide VolumeOK;
    forall b | b in w'.volumes ensures VolumeOK(w', b) {
      OtherRowOK(w, w', b);
    }
    assert LiveVolumeIds(w') == LiveVolumeIds(w);
  }

  /** A live instance's own VM is one that the listing shows. */
  lemma OwnIsListed(w: World, i: InstanceId)
    requires Safe(w) && i in w.instances && LiveInstance(w.instances[i])
    ensures HasVm(w, i) ==> w.instances[i].vmid.value in w.vms.Keys - w.site.outside
  {
    hide Safe;
    SafeInstance(w, i);
    SafeHypervisor(w);
  }

  // ------------------------------------------------- new instances, VMs, addresses

  /** A launch is recorded before anything of it exists; an adoption, of a VM that was
      there when it was looked at. */
  ghost predicate NewInstance(w: World, i: InstanceId, inst: Instance) {
    && i !in w.instances
    && inst.vmid.Some? && inst.attempts == 0 && inst.address.None? && !inst.seed
    && inst.vmid.value != w.site.holder && inst.vmid.value !in w.site.probes
    && (forall j :: j in w.instances && LiveInstance(w.instances[j]) ==> w.instances[j].vmid != inst.vmid)
    && (inst.token.Some? ==>
          forall j :: j in w.instances ==> w.instances[j].token != inst.token || w.instances[j].account != inst.account)
    && (|| (inst.adopted && inst.vmCreated && inst.pending.None? && (inst.state.Running? || inst.state.Stopped?)
            && inst.vmid.value !in w.site.outside)
        || (!inst.adopted && !inst.vmCreated && inst.pending == Some(Launch) && inst.state.Pending?
             && inst.vmid.value !in w.quarantine))
  }

  lemma InsertInstanceSafe(w: World, i: InstanceId, inst: Instance)
    requires Safe(w) && NewInstance(w, i, inst)
    ensures Safe(SetInstance(w, i, inst))
  {
    hide HypervisorOK, VolumesOK, InstancesOK, HolderSlotsOK, NewInstance;
    var w' := SetInstance(w, i, inst);
    HypervisorUntouched(w, w');
    HolderUntouched(w, w');
    VolumesWithMoreInstances(w, i, inst);
    InstancesWithOneMore(w, i, inst);
  }

  lemma VolumesWithMoreInstances(w: World, i: InstanceId, inst: Instance)
    requires VolumesOK(w) && NewInstance(w, i, inst)
    ensures VolumesOK(SetInstance(w, i, inst))
  {
    hide VolumeOK, NewInstance;
    var w' := SetInstance(w, i, inst);
    forall b | b in w'.volumes ensures VolumeOK(w', b) {
      VolumeWithMoreInstances(w, i, inst, b);
    }
    assert LiveVolumeIds(w') == LiveVolumeIds(w);
  }

  lemma VolumeWithMoreInstances(w: World, i: InstanceId, inst: Instance, b: VolumeId)
    requires NewInstance(w, i, inst) && b in w.volumes && VolumeOK(w, b)
    ensures VolumeOK(SetInstance(w, i, inst), b)
  {
    var w' := SetInstance(w, i, inst);
    var v := w.volumes[b];
    if LiveVolume(v) && v.loc.name.Some? {
      assert AtHome(w, b, v.loc) ==> AtHome(w', b, v.loc);
    }
  }

  lemma InstancesWithOneMore(w: World, i: InstanceId, inst: Instance)
    requires InstancesOK(w) && SiteOK(w.site) && NewInstance(w, i, inst)
    ensures InstancesOK(SetInstance(w, i, inst))
  {
    var w' := SetInstance(w, i, inst);
    forall j | j in w'.instances ensures InstanceOK(w', j) {
      assert j != i ==> InstanceOK(w, j);
    }
  }

  lemma AddVmSafe(w: World, m: VmId, owner: Owner, disks: map<Slot, Disk>)
    requires Safe(w) && m !in w.vms && FreshDisks(w, m, disks)
    requires || (owner.HolderVm? && m == w.site.holder && disks == map[])
             || (owner.InstanceVm? && owner.instance in w.instances && w.instances[owner.instance].vmid == Some(m)
                 && LiveInstance(w.instances[owner.instance]) && !w.instances[owner.instance].adopted)
    ensures Safe(AddVm(w, m, owner, disks))
  {
    hide HypervisorOK, VolumesOK, InstancesOK, HolderSlotsOK, FreshDisks;
    var w' := AddVm(w, m, owner, disks);
    if owner.InstanceVm? {
      SafeInstance(w, owner.instance);
    }
    AddedVmHypervisor(w, m, owner, disks);
    VolumesWithVm(w, m, owner, disks);
    assert HolderSlotsOK(w') by {
      AddedVmHolder(w, m, owner, disks);
    }
    InstancesWithVm(w, m, owner, disks);
  }

  lemma AddedVmHypervisor(w: World, m: VmId, owner: Owner, disks: map<Slot, Disk>)
    requires HypervisorOK(w) && m !in w.vms && FreshDisks(w, m, disks) && (owner.HolderVm? ==> m == w.site.holder)
    ensures HypervisorOK(AddVm(w, m, owner, disks))
  {
    var w' := AddVm(w, m, owner, disks);
    forall p, q | p in w'.slots && q in w'.slots && p != q
      ensures w'.slots[p].name != w'.slots[q].name && w'.slots[p].ident != w'.slots[q].ident
    {
      hide FreshIdent, FreshName, NameAbsent, IdentAbsent;
      if p in disks && q !in disks {
        FreshIsAbsent(w, disks[p]);
        AbsentApart(w, disks[p], q);
      } else if q in disks && p !in disks {
        FreshIsAbsent(w, disks[q]);
        AbsentApart(w, disks[q], p);
      }
    }
  }

  lemma FreshIsAbsent(w: World, d: Disk)
    requires FreshName(w, d.name) && FreshIdent(w, d.ident)
    ensures NameAbsent(w, d.name) && IdentAbsent(w, d.ident)
  {
  }

  lemma AbsentApart(w: World, d: Disk, p: Slot)
    requires NameAbsent(w, d.name) && IdentAbsent(w, d.ident) && p in w.slots
    ensures w.slots[p].name != d.name && w.slots[p].ident != d.ident
  {
  }

  lemma VolumesWithVm(w: World, m: VmId, owner: Owner, disks: map<Slot, Disk>)
    requires VolumesOK(w) && HypervisorOK(w) && m !in w.vms && FreshDisks(w, m, disks)
    ensures VolumesOK(AddVm(w, m, owner, disks))
  {
    hide VolumeOK, FreshDisks, HypervisorOK, VolumeShape;
    var w' := AddVm(w, m, owner, disks);
    forall b | b in w'.volumes ensures VolumeOK(w', b) {
      VolumeWithVm(w, m, owner, disks, b);
    }
    assert LiveVolumeIds(w') == LiveVolumeIds(w);
  }

  lemma VolumeWithVm(w: World, m: VmId, owner: Owner, disks: map<Slot, Disk>, b: VolumeId)
    requires HypervisorOK(w) && m !in w.vms && FreshDisks(w, m, disks) && b in w.volumes && VolumeOK(w, b)
    ensures VolumeOK(AddVm(w, m, owner, disks), b)
  {
    hide NameAbsent, IdentAbsent, FreshName, FreshIdent, VolumeShape, HypervisorOK;
    var w' := AddVm(w, m, owner, disks);
    var v := w.volumes[b];
    OldDisksStay(w, m, owner, disks);
    if b in w.bound {
      StillIdentAbsent(w, w', disks, b);
    }
    if LiveVolume(v) && v.loc.name.Some? {
      StillNameAbsent(w, w', disks, b);
      assert AtHome(w, b, v.loc) ==> AtHome(w', b, v.loc);
    }
  }

  lemma OldDisksStay(w: World, m: VmId, owner: Owner, disks: map<Slot, Disk>)
    requires HypervisorOK(w) && m !in w.vms && forall p :: p in disks ==> p.vm == m
    ensures var w' := AddVm(w, m, owner, disks);
            forall p :: p in w.slots ==> p in w'.slots && w'.slots[p] == w.slots[p]
  {
  }

  lemma StillIdentAbsent(w: World, w': World, disks: map<Slot, Disk>, b: VolumeId)
    requires w'.slots == w.slots + disks && b in w.bound
    requires forall p :: p in disks ==> FreshIdent(w, disks[p].ident)
    ensures IdentAbsent(w, w.bound[b]) ==> IdentAbsent(w', w.bound[b])
  {
    forall p | p in disks ensures disks[p].ident != w.bound[b] {
      OtherNotFresh(w, b, disks[p].ident);
    }
  }

  lemma StillNameAbsent(w: World, w': World, disks: map<Slot, Disk>, b: VolumeId)
    requires w'.slots == w.slots + disks && LiveRow(w, b) && w.volumes[b].loc.name.Some?
    requires forall p :: p in disks ==> FreshName(w, disks[p].name)
    ensures NameAbsent(w, w.volumes[b].loc.name.value) ==> NameAbsent(w', w.volumes[b].loc.name.value)
  {
  }

  lemma AddedVmHolder(w: World, m: VmId, owner: Owner, disks: map<Slot, Disk>)
    requires HolderSlotsOK(w) && HypervisorOK(w) && m !in w.vms && FreshDisks(w, m, disks)
    requires m == w.site.holder ==> disks == map[]
    ensures HolderSlotsOK(AddVm(w, m, owner, disks))
  {
    if m != w.site.holder {
      HolderCarriesOver(w, AddVm(w, m, owner, disks));
    }
  }

  lemma InstancesWithVm(w: World, m: VmId, owner: Owner, disks: map<Slot, Disk>)
    requires InstancesOK(w) && m !in w.vms
    requires owner.InstanceVm? ==>
               && owner.instance in w.instances && w.instances[owner.instance].vmid == Some(m)
               && LiveInstance(w.instances[owner.instance]) && !w.instances[owner.instance].adopted
    ensures InstancesOK(AddVm(w, m, owner, disks))
  {
    var w' := AddVm(w, m, owner, disks);
    forall i | i in w'.instances ensures InstanceOK(w', i) {
      assert InstanceOK(w, i);
    }
  }

  /** No live volume's row mentions the VM, neither as a place nor as a destination. */
  ghost predicate Unmentioned(w: World, m: VmId) {
    forall b :: LiveRow(w, b) ==> w.volumes[b].loc.vmid != Some(m) && w.volumes[b].loc.moveVmid != Some(m)
  }

  /** Deleting a terminating instance's VM once no volume mentions it or names the instance. */
  lemma RemoveVmSafe(w: World, i: InstanceId, m: VmId)
    requires Safe(w) && i in w.instances && w.instances[i].pending == Some(Terminate) && w.instances[i].vmid == Some(m)
    requires Owned(w, i) && Unmentioned(w, m) && forall b :: !Names(w, b, i)
    ensures Safe(RemoveVm(w, m))
  {
    hide HypervisorOK, VolumesOK, InstancesOK, HolderSlotsOK;
    var w' := RemoveVm(w, m);
    SafeInstance(w, i);
    VmidsApart(w, i);
    assert HypervisorOK(w') by {
      InPool(w, i);
      RemovedVmHypervisor(w, m);
    }
    VolumesWithoutVm(w, i, m);
    assert HolderSlotsOK(w') by { RemovedVmHolder(w, m); }
    assert InstancesOK(w') by { InstancesWithoutVm(w, i, m); }
  }

  /** The VM an instance owns is in the cloud pool, so listing shows it. */
  lemma InPool(w: World, i: InstanceId)
    requires Safe(w) && i in w.instances && LiveInstance(w.instances[i]) && Owned(w, i)
    ensures w.instances[i].vmid.Some? && w.instances[i].vmid.value !in w.site.outside
  {
    hide VolumesOK, HolderSlotsOK;
    SafeInstance(w, i);
  }

  lemma RemovedVmHypervisor(w: World, m: VmId)
    requires HypervisorOK(w) && m !in w.site.outside
    ensures HypervisorOK(RemoveVm(w, m))
  {
  }

  lemma VolumesWithoutVm(w: World, i: InstanceId, m: VmId)
    requires VolumesOK(w) && i in w.instances && w.instances[i].vmid == Some(m) && LiveInstance(w.instances[i])
    requires forall j :: j in w.instances && j != i && LiveInstance(w.instances[j]) ==>
               w.instances[j].vmid != w.instances[i].vmid
    requires m != w.site.holder && Unmentioned(w, m) && forall b :: !Names(w, b, i)
    ensures VolumesOK(RemoveVm(w, m))
  {
    hide VolumeOK;
    var w' := RemoveVm(w, m);
    forall b | b in w'.volumes ensures VolumeOK(w', b) {
      VolumeWithoutVm(w, i, m, b);
    }
    assert LiveVolumeIds(w') == LiveVolumeIds(w);
  }

  lemma VolumeWithoutVm(w: World, i: InstanceId, m: VmId, b: VolumeId)
    requires i in w.instances && w.instances[i].vmid == Some(m) && LiveInstance(w.instances[i]) && m != w.site.holder
    requires forall j :: j in w.instances && j != i && LiveInstance(w.instances[j]) ==>
               w.instances[j].vmid != w.instances[i].vmid
    requires b in w.volumes && VolumeOK(w, b) && !Names(w, b, i)
    requires LiveRow(w, b) ==> w.volumes[b].loc.vmid != Some(m) && w.volumes[b].loc.moveVmid != Some(m)
    ensures VolumeOK(RemoveVm(w, m), b)
  {
    var w' := RemoveVm(w, m);
    var v := w.volumes[b];
    if LiveVolume(v) && v.loc.name.Some? {
      assert AtHome(w, b, v.loc) ==> AtHome(w', b, v.loc);
    }
  }

  lemma RemovedVmHolder(w: World, m: VmId)
    requires HolderSlotsOK(w) && m != w.site.holder
    ensures HolderSlotsOK(RemoveVm(w, m))
  {
    HolderCarriesOver(w, RemoveVm(w, m));
  }

  lemma InstancesWithoutVm(w: World, i: InstanceId, m: VmId)
    requires InstancesOK(w) && i in w.instances && w.instances[i].pending == Some(Terminate)
    requires w.instances[i].vmid == Some(m)
    requires LiveInstance(w.instances[i])
    ensures InstancesOK(RemoveVm(w, m))
  {
    var w' := RemoveVm(w, m);
    forall j | j in w'.instances ensures InstanceOK(w', j) {
      assert InstanceOK(w, j);
    }
  }

  /** Taking an address for an instance that has none. */
  lemma AddAddressSafe(w: World, a: AddressId, i: InstanceId)
    requires Safe(w) && FreshAddress(w, a) && i in w.instances && LiveInstance(w.instances[i])
    requires forall b :: b in w.addresses ==> w.addresses[b] != i
    ensures Safe(w.(addresses := w.addresses[a := i]))
  {
    hide HypervisorOK, VolumesOK, HolderSlotsOK, InstanceOK, VmidsDistinct, InstanceTokensDistinct;
    var w' := w.(addresses := w.addresses[a := i]);
    AddressesChanged(w, w');
    forall j | j in w'.instances ensures InstanceOK(w', j) {
      InstanceAfterAddress(w, w', j);
    }
  }

  /** Releasing a terminating instance's address. */
  lemma RemoveAddressSafe(w: World, a: AddressId, i: InstanceId)
    requires Safe(w) && i in w.instances && w.instances[i].pending == Some(Terminate)
    requires a in w.addresses ==> w.addresses[a] == i
    ensures Safe(w.(addresses := w.addresses - {a}))
  {
    hide HypervisorOK, VolumesOK, HolderSlotsOK, InstanceOK, VmidsDistinct, InstanceTokensDistinct;
    var w' := w.(addresses := w.addresses - {a});
    AddressesChanged(w, w');
    forall j | j in w'.instances ensures InstanceOK(w', j) {
      if j != i {
        assert forall b :: b in w.addresses && w.addresses[b] == j ==> b in w'.addresses;
      }
      InstanceAfterAddress(w, w', j);
    }
  }

  lemma InstanceAfterAddress(w: World, w': World, j: InstanceId)
    requires w' == w.(addresses := w'.addresses) && j in w.instances && InstanceOK(w, j)
    requires w.instances[j].pending == Some(Terminate) ||
             forall b :: b in w.addresses && w.addresses[b] == j ==> b in w'.addresses
    requires forall b :: b in w'.addresses && w.instances[j].address == Some(b) ==>
               b in w.addresses && w'.addresses[b] == w.addresses[b]
    ensures InstanceOK(w', j)
  {
  }

  /** Uploading a live instance's seed image. */
  lemma AddSeedSafe(w: World, i: InstanceId)
    requires Safe(w) && i in w.instances && LiveInstance(w.instances[i])
    ensures Safe(w.(seeds := w.seeds + {i}))
  {
    hide HypervisorOK, VolumesOK, HolderSlotsOK, VmidsDistinct, InstanceTokensDistinct;
    var w' := w.(seeds := w.seeds + {i});
    AddressesChanged(w, w');
    forall j | j in w'.instances ensures InstanceOK(w', j) {
      assert InstanceOK(w, j);
    }
  }

  /** Deleting one that is not recorded, or no longer needed. */
  lemma RemoveSeedSafe(w: World, i: InstanceId)
    requires Safe(w) && i in w.instances && (!w.instances[i].seed || w.instances[i].pending == Some(Terminate))
    ensures Safe(w.(seeds := w.seeds - {i}))
  {
    hide HypervisorOK, VolumesOK, HolderSlotsOK, VmidsDistinct, InstanceTokensDistinct;
    var w' := w.(seeds := w.seeds - {i});
    AddressesChanged(w, w');
    forall j | j in w'.instances ensures InstanceOK(w', j) {
      assert InstanceOK(w, j);
    }
  }

  lemma AddressesChanged(w: World, w': World)
    requires Safe(w) && w' == w.(addresses := w'.addresses, seeds := w'.seeds)
    ensures HypervisorOK(w') && HolderSlotsOK(w') && VolumesOK(w')
    ensures VmidsDistinct(w') && InstanceTokensDistinct(w')
  {
    hide HypervisorOK, VolumesOK, HolderSlotsOK, InstanceOK;
    HypervisorUntouched(w, w');
    HolderUntouched(w, w');
    VolumesUntouched(w, w');
  }
}
