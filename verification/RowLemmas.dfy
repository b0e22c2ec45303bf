/** Every single database update keeps the cloud safe when it is made under the
    guard its caller has checked. */
module RowLemmas {
  import opened Types
  import opened Rows
  import opened CloudState
  import opened DiskLemmas

  // -------------------------------------------------------------- one volume row

  /** `w'` differs only in the row of volume `id` and, perhaps, in the disk it is given. */
  ghost predicate VolumeRowChanged(w: World, w': World, id: VolumeId) {
    && id in w.volumes && id in w'.volumes
    && w' == w.(volumes := w.volumes[id := w'.volumes[id]], bound := w'.bound)
    && (forall b :: b != id ==> (b in w'.bound <==> b in w.bound))
    && (forall b :: b in w.bound ==> b in w'.bound && w'.bound[b] == w.bound[b])
  }

  lemma OtherRowOK(w: World, w': World, b: VolumeId)
    requires b in w.volumes && b in w'.volumes && w'.volumes[b] == w.volumes[b] && VolumeOK(w, b)
    requires w'.site == w.site && w'.slots == w.slots && w'.vms == w.vms && w'.instances == w.instances
    requires b in w.bound <==> b in w'.bound
    requires b in w.bound ==> w'.bound[b] == w.bound[b]
    ensures VolumeOK(w', b)
  {
    var v := w.volumes[b];
    if LiveVolume(v) && v.loc.name.Some? {
      assert AtHome(w, b, v.loc) ==> AtHome(w', b, v.loc);
    }
  }

  /** The volumes that take no part in a row change keep their distinct names and devices from it. */
  ghost predicate NoClash(w: World, id: VolumeId, v': Volume) {
    forall b :: b in w.volumes && b != id ==>
      && (LiveVolume(w.volumes[b]) && LiveVolume(v') && v'.loc.name.Some? ==> w.volumes[b].loc.name != v'.loc.name)
      && (v'.instance.Some? && w.volumes[b].instance == v'.instance ==> w.volumes[b].device != v'.device)
  }

  /** A blank disk on the holder that only this row intended is still intended by it or is now claimed. */
  ghost predicate IntentKept(w: World, w': World, id: VolumeId) {
    forall k :: Intends(w, id, k) && HolderReady(w) && Slot(w.site.holder, k) in w.slots ==>
      Claimed(w', w.slots[Slot(w.site.holder, k)].ident) || Intends(w', id, k)
  }

  lemma VolumeRowsStillOK(w: World, w': World, id: VolumeId)
    requires VolumesOK(w) && VolumeRowChanged(w, w', id) && VolumeOK(w', id)
    requires var v, v' := w.volumes[id], w'.volumes[id];
             v'.token == v.token && v'.account == v.account && (LiveVolume(v') ==> LiveVolume(v))
    requires NoClash(w, id, w'.volumes[id])
    requires id in w'.bound && id !in w.bound ==> !Claimed(w, w'.bound[id])
    ensures VolumesOK(w')
  {
    hide VolumeOK, NoClash, BoundDistinct, NamesDistinct, DevicesDistinct, VolumeTokensDistinct;
    forall b | b in w'.volumes ensures VolumeOK(w', b) {
      if b != id {
        OtherRowOK(w, w', b);
      }
    }
    DistinctKept(w, w', id);
    assert LiveVolumeIds(w') <= LiveVolumeIds(w);
    SubsetSmaller(LiveVolumeIds(w'), LiveVolumeIds(w));
  }

  lemma DistinctKept(w: World, w': World, id: VolumeId)
    requires VolumeRowChanged(w, w', id) && NoClash(w, id, w'.volumes[id])
    requires var v, v' := w.volumes[id], w'.volumes[id]; v'.token == v.token && v'.account == v.account
    requires BoundDistinct(w) && NamesDistinct(w) && DevicesDistinct(w) && VolumeTokensDistinct(w)
    requires id in w'.bound && id !in w.bound ==> !Claimed(w, w'.bound[id])
    ensures BoundDistinct(w') && NamesDistinct(w') && DevicesDistinct(w') && VolumeTokensDistinct(w')
  {
  }

  lemma SubsetSmaller<T>(a: set<T>, b: set<T>)
    requires a <= b
    ensures |a| <= |b|
  {
    assert b == a + (b - a);
  }

  lemma HolderStillOK(w: World, w': World, id: VolumeId)
    requires HolderSlotsOK(w) && VolumeRowChanged(w, w', id) && IntentKept(w, w', id)
    ensures HolderSlotsOK(w')
  {
    if HolderReady(w') {
      forall k | Slot(w.site.holder, k) in w'.slots
        ensures Claimed(w', w'.slots[Slot(w.site.holder, k)].ident) || (k.Scsi? && exists j :: Intends(w', j, k))
      {
        var e := w.slots[Slot(w.site.holder, k)].ident;
        if Claimed(w, e) {
          var j :| j in w.bound && w.bound[j] == e;
          assert w'.bound[j] == e;
        } else {
          var j :| Intends(w, j, k);
          assert j != id ==> Intends(w', j, k);
        }
      }
    }
  }

  /** A change of one volume's row, its location included, is safe if the row is
      in order afterwards and clashes with no other. */
  lemma VolumeRowSafe(w: World, w': World, id: VolumeId)
    requires Safe(w) && VolumeRowChanged(w, w', id) && VolumeOK(w', id)
    requires var v, v' := w.volumes[id], w'.volumes[id];
             v'.token == v.token && v'.account == v.account && (LiveVolume(v') ==> LiveVolume(v))
    requires NoClash(w, id, w'.volumes[id])
    requires id in w'.bound && id !in w.bound ==> !Claimed(w, w'.bound[id])
    requires IntentKept(w, w', id)
    ensures Safe(w')
  {
    hide VolumeOK, InstancesOK, HypervisorOK, VolumesOK, HolderSlotsOK, NoClash, IntentKept;
    HypervisorUntouched(w, w');
    InstancesUntouched(w, w');
    VolumeRowsStillOK(w, w', id);
    HolderStillOK(w, w', id);
  }

  // ------------------------------------------------------- recording a location

  /** A row keeps its own identity, instance and device when only its location is written. */
  lemma LocationRowSafe(w: World, id: VolumeId, l: Location)
    requires Safe(w) && LiveRow(w, id)
    requires var w' := Record(w, id, l); VolumeOK(w', id) && IntentKept(w, w', id)
    requires l.name.Some? ==> forall b :: LiveRow(w, b) && b != id ==> w.volumes[b].loc.name != l.name
    requires w.volumes[id].loc.name.Some? ==> l.name.Some?
    requires var w' := Record(w, id, l); id in w'.bound && id !in w.bound ==> !Claimed(w, w'.bound[id])
    ensures Safe(Record(w, id, l))
  {
    hide VolumeOK, InstancesOK, HypervisorOK, HolderSlotsOK, IntentKept, HolderReady, Claimed, Intends;
    VolumeRowSafe(w, Record(w, id, l), id);
  }

  /** The disk is under some key of its recorded VM: writing that key, and dropping any intent, is safe. */
  lemma HomeSafe(w: World, id: VolumeId, key: Key)
    requires Safe(w) && LiveRow(w, id) && w.volumes[id].loc.vmid.Some?
    requires var l := w.volumes[id].loc; AtSlot(w, l.(key := Some(key)))
    ensures var l := w.volumes[id].loc; Safe(Record(w, id, Location(l.vmid, Some(key), l.name, None, None)))
  {
    hide HolderSlotsOK, InstancesOK, Safe, VolumesOK;
    var v := w.volumes[id];
    var p := Slot(v.loc.vmid.value, key);
    var l' := Location(v.loc.vmid, Some(key), v.loc.name, None, None);
    var w' := Record(w, id, l');
    NamedDiskIsOwn(w, id, p);
    assert VolumeOK(w, id) by { SafeVolume(w, id); }
    assert VolumeOK(w', id) by {
      assert AtHome(w', id, l');
      if SettledInUse(w, v) {
        SafeHypervisor(w);
        assert Slot(v.loc.vmid.value, Virtio(v.device.value)) == p;
      }
    }
    OthersNamedApart(w, id);
    LocationRowSafe(w, id, l');
  }

  lemma SafeVolume(w: World, id: VolumeId)
    requires Safe(w) && id in w.volumes
    ensures VolumeOK(w, id)
  {
  }

  lemma OthersNamedApart(w: World, id: VolumeId)
    requires Safe(w) && LiveRow(w, id)
    ensures w.volumes[id].loc.name.Some? ==>
              forall b :: LiveRow(w, b) && b != id ==> w.volumes[b].loc.name != w.volumes[id].loc.name
  {
    hide HolderSlotsOK, InstancesOK, HypervisorOK, VolumeOK;
  }

  /** Writing where a disk is about to be moved, before moving it. */
  lemma IntentSafe(w: World, id: VolumeId, dst: Slot)
    requires Safe(w) && LiveRow(w, id) && AtSlot(w, w.volumes[id].loc)
    requires dst.key.Unused? && w.volumes[id].instance.Some? && PlaceAllowed(w, w.volumes[id], dst.vm)
    requires !SettledInUse(w, w.volumes[id])
    ensures Safe(Record(w, id, w.volumes[id].loc.(moveVmid := Some(dst.vm), moveKey := Some(dst.key))))
  {
    hide HolderSlotsOK, InstancesOK, Safe, VolumesOK;
    var v := w.volumes[id];
    var p := Slot(v.loc.vmid.value, v.loc.key.value);
    var l' := v.loc.(moveVmid := Some(dst.vm), moveKey := Some(dst.key));
    var w' := Record(w, id, l');
    NamedDiskIsOwn(w, id, p);
    SafeVolume(w, id);
    assert VolumeOK(w', id) by {
      assert AtHome(w', id, l');
    }
    OthersNamedApart(w, id);
    LocationRowSafe(w, id, l');
  }

  /** A disk whose name no live row records, though its row is live, has reached its destination. */
  lemma NewNameIsFree(w: World, id: VolumeId, p: Slot)
    requires Safe(w) && id in w.bound && p in w.slots && w.slots[p].ident == w.bound[id]
    requires LiveRow(w, id) && w.volumes[id].loc.name != Some(w.slots[p].name)
    ensures forall b :: LiveRow(w, b) ==> w.volumes[b].loc.name != Some(w.slots[p].name)
  {
    hide HolderSlotsOK, InstancesOK, VolumeOK, HypervisorOK;
    forall b | LiveRow(w, b) ensures w.volumes[b].loc.name != Some(w.slots[p].name) {
      if w.volumes[b].loc.name == Some(w.slots[p].name) {
        NamedDiskIsOwn(w, b, p);
      }
    }
  }

  /** Writing where a moved disk has arrived. */
  lemma ArrivalSafe(w: World, id: VolumeId)
    requires Safe(w) && LiveRow(w, id) && id in w.bound && w.volumes[id].loc.name.Some?
    requires Arrived(w, id, w.volumes[id].loc)
    ensures var l := w.volumes[id].loc; var dst := Slot(l.moveVmid.value, l.moveKey.value);
            Safe(Record(w, id, Location(l.moveVmid, l.moveKey, Some(w.slots[dst].name), None, None)))
  {
    hide HolderSlotsOK, InstancesOK, Safe, VolumesOK;
    var v := w.volumes[id];
    var dst := Slot(v.loc.moveVmid.value, v.loc.moveKey.value);
    var l' := Location(v.loc.moveVmid, v.loc.moveKey, Some(w.slots[dst].name), None, None);
    var w' := Record(w, id, l');
    SafeVolume(w, id);
    NewNameIsFree(w, id, dst);
    assert VolumeOK(w', id) by {
      assert AtHome(w', id, l');
    }
    LocationRowSafe(w, id, l');
  }

  /** Nothing blank is left at the slot a row without a disk last intended. */
  ghost predicate IntentSpent(w: World, l: Location) {
    l.name.None? && l.moveKey.Some? && Slot(w.site.holder, l.moveKey.value) in w.slots ==>
      Claimed(w, w.slots[Slot(w.site.holder, l.moveKey.value)].ident)
  }

  /** Writing the holder slot a new disk is about to be made at, before making it. */
  lemma CreateIntentSafe(w: World, id: VolumeId, key: Key)
    requires Safe(w) && LiveRow(w, id) && w.volumes[id].loc.name.None? && IntentSpent(w, w.volumes[id].loc)
    requires HolderReady(w) && key.Scsi?
    ensures Safe(Record(w, id, Location(None, None, None, Some(w.site.holder), Some(key))))
  {
    hide HolderSlotsOK, InstancesOK, Safe, VolumesOK;
    var l' := Location(None, None, None, Some(w.site.holder), Some(key));
    SafeVolume(w, id);
    assert VolumeOK(Record(w, id, l'), id);
    LocationRowSafe(w, id, l');
  }

  /** A disk on the holder at a plugged slot, whose name no live row records, is blank. */
  lemma UnrecordedIsBlank(w: World, key: Key)
    requires Safe(w) && key.Scsi? && Slot(w.site.holder, key) in w.slots
    requires forall b :: LiveRow(w, b) ==> w.volumes[b].loc.name != Some(w.slots[Slot(w.site.holder, key)].name)
    ensures !Claimed(w, w.slots[Slot(w.site.holder, key)].ident)
  {
    hide HolderSlotsOK, InstancesOK, NamingOK, PlaceAllowed, SettledInUse, VolumeShape;
    var p := Slot(w.site.holder, key);
    forall b | b in w.bound ensures w.bound[b] != w.slots[p].ident {
      assert VolumeOK(w, b);
    }
  }

  /** Giving a volume the blank disk at the slot it intends. */
  lemma ClaimSafe(w: World, id: VolumeId)
    requires Safe(w) && LiveRow(w, id) && w.volumes[id].loc.name.None? && w.volumes[id].loc.moveKey.Some?
    requires Slot(w.site.holder, w.volumes[id].loc.moveKey.value) in w.slots
    requires var d := w.slots[Slot(w.site.holder, w.volumes[id].loc.moveKey.value)];
             forall b :: LiveRow(w, b) && b != id ==> w.volumes[b].loc.name != Some(d.name)
    ensures var l := w.volumes[id].loc;
            var name := w.slots[Slot(w.site.holder, l.moveKey.value)].name;
            Safe(Record(w, id, Location(l.moveVmid, l.moveKey, Some(name), None, None)))
  {
    hide HolderSlotsOK, InstancesOK, Safe, VolumesOK;
    var v := w.volumes[id];
    SafeVolume(w, id);
    var p := Slot(w.site.holder, v.loc.moveKey.value);
    var l' := Location(v.loc.moveVmid, v.loc.moveKey, Some(w.slots[p].name), None, None);
    var w' := Record(w, id, l');
    UnrecordedIsBlank(w, v.loc.moveKey.value);
    SafeHypervisor(w);
    assert w'.bound == w.bound[id := w.slots[p].ident];
    assert VolumeOK(w', id) by {
      assert AtHome(w', id, l');
    }
    assert IntentKept(w, w', id) by {
      assert Claimed(w', w.slots[p].ident);
    }
    LocationRowSafe(w, id, l');
  }

  /** Making a blank disk at a slot of the holder that a live row intends. */
  lemma AllocateSafe(w: World, id: VolumeId, key: Key, d: Disk)
    requires Safe(w) && Intends(w, id, key) && key.Scsi? && HolderReady(w)
    requires Slot(w.site.holder, key) !in w.slots && FreshName(w, d.name) && FreshIdent(w, d.ident)
    ensures Safe(AddDisk(w, Slot(w.site.holder, key), d))
  {
    hide HolderSlotsOK, InstancesOK, VolumeOK, FreshIdent;
    var p := Slot(w.site.holder, key);
    var w' := AddDisk(w, p, d);
    assert OnlyDiskChanged(w, w', d.ident) && HypervisorOK(w') by { AddedDisk(w, p, d); }
    forall b | b in w.volumes ensures VolumeOK(w', b) {
      OtherNotFresh(w, b, d.ident);
      OtherVolumeOK(w, w', d.ident, b);
    }
    RowsUntouched(w, w');
    InstancesUntouched(w, w');
    assert HolderSlotsOK(w') by { BlankIntended(w, id, key, d); }
  }

  lemma OtherNotFresh(w: World, b: VolumeId, e: DiskIdent)
    requires FreshIdent(w, e)
    ensures b in w.bound ==> w.bound[b] != e
    ensures IdentAbsent(w, e)
  {
  }

  lemma AddedDisk(w: World, p: Slot, d: Disk)
    requires HypervisorOK(w) && p !in w.slots && p.vm in w.vms && NameAbsent(w, d.name) && FreshIdent(w, d.ident)
    ensures HypervisorOK(AddDisk(w, p, d)) && OnlyDiskChanged(w, AddDisk(w, p, d), d.ident)
  {
  }

  lemma BlankIntended(w: World, id: VolumeId, key: Key, d: Disk)
    requires HolderSlotsOK(w) && Intends(w, id, key) && key.Scsi?
    ensures HolderSlotsOK(AddDisk(w, Slot(w.site.holder, key), d))
  {
    var w' := AddDisk(w, Slot(w.site.holder, key), d);
    if HolderReady(w') {
      forall k | Slot(w.site.holder, k) in w'.slots
        ensures Claimed(w', w'.slots[Slot(w.site.holder, k)].ident) || (k.Scsi? && exists j :: Intends(w', j, k))
      {
        if k == key {
          assert Intends(w', id, k);
        } else if !Claimed(w, w.slots[Slot(w.site.holder, k)].ident) {
          var j :| Intends(w, j, k);
          assert Intends(w', j, k);
        } else {
          var j :| j in w.bound && w.bound[j] == w.slots[Slot(w.site.holder, k)].ident;
          assert w'.bound[j] == w.slots[Slot(w.site.holder, k)].ident;
        }
      }
    }
  }

  // --------------------------------------------- requests, results and give-ups

  /** A volume row may change in everything but its location, instance and device
      if its shape stays legal, a live row that a delete has already emptied keeps
      its delete, and a row that comes to rest in use has its disk at its device. */
  ghost predicate RowStepLegal(w: World, id: VolumeId, v': Volume)
    requires id in w.volumes
  {
    var v := w.volumes[id];
    && v'.loc == v.loc && v'.token == v.token && v'.account == v.account
    && v'.instance == v.instance && v'.device == v.device
    && LiveVolume(v) && LiveVolume(v')
    && VolumeShape(v')
    && (v'.pending == Some(Create) || v'.pending == Some(Attach) || v'.pending == Some(Resize) ==>
         v'.attempts < w.site.maxAttempts)
    && (v.pending == Some(Delete) ==> v'.pending == Some(Delete))
    && (v'.state.Available? || v'.state.InUse? ==> v.loc.name.Some?)
    && (SettledInUse(w, v') ==> AtDevice(w, v))
    && (v'.state.InUse? ==> v.state.InUse? || NamedHasVm(w, v))
  }

  predicate NamedHasVm(w: World, v: Volume) {
    && v.instance.Some? && v.instance.value in w.instances
    && LiveInstance(w.instances[v.instance.value]) && HasVm(w, v.instance.value)
  }

  /** A disk at its device is in the VM of a live instance. */
  lemma AtDeviceHasVm(w: World, id: VolumeId)
    requires Safe(w) && LiveRow(w, id) && AtDevice(w, w.volumes[id])
    ensures NamedHasVm(w, w.volumes[id])
  {
    hide HolderSlotsOK, VolumesOK, VmidsDistinct, InstanceTokensDistinct, VmOwnersOK, AddressesOK, SeedsOK;
    var v := w.volumes[id];
    SafeVolume(w, id);
    assert InstanceOK(w, v.instance.value);
    assert DiskKept(w, id, v);
  }

  lemma RowStepSafe(w: World, id: VolumeId, v': Volume)
    requires Safe(w) && id in w.volumes && RowStepLegal(w, id, v')
    ensures Safe(SetVolume(w, id, v'))
  {
    hide HolderSlotsOK, InstancesOK, Safe, VolumesOK;
    var w' := SetVolume(w, id, v');
    SafeVolume(w, id);
    OthersNamedApart(w, id);
    DevicesApart(w, id);
    assert VolumeOK(w', id) by { LegalRowOK(w, id, v'); }
    VolumeRowSafe(w, w', id);
  }

  lemma LegalRowOK(w: World, id: VolumeId, v': Volume)
    requires id in w.volumes && VolumeOK(w, id) && RowStepLegal(w, id, v')
    ensures VolumeOK(SetVolume(w, id, v'), id)
  {
    var w' := SetVolume(w, id, v');
    var v := w.volumes[id];
    if v.loc.name.Some? {
      assert AtHome(w, id, v.loc) ==> AtHome(w', id, v.loc);
    }
  }

  lemma DevicesApart(w: World, id: VolumeId)
    requires Safe(w) && id in w.volumes
    ensures w.volumes[id].instance.Some? ==>
              forall b :: b in w.volumes && b != id && w.volumes[b].instance == w.volumes[id].instance
                ==> w.volumes[b].device != w.volumes[id].device
  {
    hide HolderSlotsOK, InstancesOK, HypervisorOK, VolumeOK;
  }

  lemma RetryVolumeSafe(w: World, id: VolumeId, action: VolumeAction)
    requires Safe(w) && LiveRow(w, id)
    requires action.Detach? || action.Delete? || w.volumes[id].attempts + 1 < w.site.maxAttempts
    ensures Safe(SetVolume(w, id, RetryVolumeLater(w.volumes[id], action)))
  {
    hide HolderSlotsOK, InstancesOK, Safe, VolumesOK;
    SafeVolume(w, id);
    RowStepSafe(w, id, RetryVolumeLater(w.volumes[id], action));
  }

  lemma SafeSite(w: World)
    requires Safe(w)
    ensures SiteOK(w.site)
  {
  }

  lemma GiveUpSafe(w: World, id: VolumeId, actual: nat)
    requires Safe(w) && LiveRow(w, id)
    ensures Safe(SetVolume(w, id, GiveUpCreate(w.volumes[id])))
    ensures Safe(SetVolume(w, id, GiveUpAttach(w.volumes[id])))
    ensures Safe(SetVolume(w, id, GiveUpResize(w.volumes[id], actual)))
  {
    hide HolderSlotsOK, InstancesOK, Safe, VolumesOK, RowStepLegal, VolumeOK;
    GiveUpLegal(w, id, actual);
    RowStepSafe(w, id, GiveUpCreate(w.volumes[id]));
    RowStepSafe(w, id, GiveUpAttach(w.volumes[id]));
    RowStepSafe(w, id, GiveUpResize(w.volumes[id], actual));
  }

  lemma GiveUpLegal(w: World, id: VolumeId, actual: nat)
    requires Safe(w) && LiveRow(w, id)
    ensures RowStepLegal(w, id, GiveUpCreate(w.volumes[id]))
    ensures RowStepLegal(w, id, GiveUpAttach(w.volumes[id]))
    ensures RowStepLegal(w, id, GiveUpResize(w.volumes[id], actual))
  {
    hide HolderSlotsOK, InstancesOK, Safe, VolumesOK;
    SafeVolume(w, id);
    SafeSite(w);
  }

  /** What the worker has established by the time it records an action as finished. */
  ghost predicate WorkDone(w: World, id: VolumeId, action: VolumeAction)
    requires id in w.volumes
  {
    var v := w.volumes[id];
    match action
    case Create => AtSlot(w, v.loc) && v.loc.vmid.value == w.site.holder && v.loc.key.value.Unused?
        && v.loc.moveVmid.None?
    case Attach => AtDevice(w, v)
    case Detach => AtSlot(w, v.loc) && v.loc.vmid.value == w.site.holder && v.loc.key.value.Unused?
        && v.loc.moveVmid.None?
    case Resize => exists p :: p in w.slots && v.loc.name == Some(w.slots[p].name) && w.slots[p].size >= v.size
    case Delete => if v.loc.name.Some? then NameAbsent(w, v.loc.name.value) && v.loc.moveVmid.None?
        else IntentSpent(w, v.loc)
  }

  lemma FinishSafe(w: World, id: VolumeId, action: VolumeAction)
    requires Safe(w) && LiveRow(w, id) && w.volumes[id].pending == Some(action) && WorkDone(w, id, action)
    ensures Safe(SetVolume(w, id, FinishVolumeAction(w.volumes[id], action)))
  {
    hide HolderSlotsOK, InstancesOK, Safe, VolumesOK;
    SafeVolume(w, id);
    if action.Delete? {
      FinishDeleteSafe(w, id);
    } else if action.Detach? {
      FinishDetachSafe(w, id);
    } else {
      if action.Attach? {
        AtDeviceHasVm(w, id);
      }
      RowStepSafe(w, id, FinishVolumeAction(w.volumes[id], action));
    }
  }

  lemma FinishDetachSafe(w: World, id: VolumeId)
    requires Safe(w) && LiveRow(w, id) && w.volumes[id].pending == Some(Detach) && WorkDone(w, id, Detach)
    ensures Safe(SetVolume(w, id, FinishVolumeAction(w.volumes[id], Detach)))
  {
    FreedSafe(w, id, FinishVolumeAction(w.volumes[id], Detach));
  }

  /** A volume whose disk is recorded on the holder may be freed from its instance. */
  lemma FreedSafe(w: World, id: VolumeId, v': Volume)
    requires Safe(w) && LiveRow(w, id) && AtSlot(w, w.volumes[id].loc)
    requires w.volumes[id].loc.vmid.value == w.site.holder && w.volumes[id].loc.moveVmid.None?
    requires v'.loc == w.volumes[id].loc && v'.token == w.volumes[id].token && v'.account == w.volumes[id].account
    requires v'.instance.None? && VolumeShape(v') && v'.state.Available? && v'.attempts <= w.volumes[id].attempts
    requires v'.pending == Some(Resize) ==> w.volumes[id].pending == Some(Resize)
    ensures Safe(SetVolume(w, id, v'))
  {
    hide HolderSlotsOK, InstancesOK, Safe, VolumesOK;
    var v := w.volumes[id];
    var w' := SetVolume(w, id, v');
    SafeVolume(w, id);
    OthersNamedApart(w, id);
    NamedDiskIsOwn(w, id, Slot(v.loc.vmid.value, v.loc.key.value));
    assert VolumeOK(w', id) by {
      assert AtHome(w', id, v'.loc);
    }
    VolumeRowSafe(w, w', id);
  }

  lemma FinishDeleteSafe(w: World, id: VolumeId)
    requires Safe(w) && LiveRow(w, id) && w.volumes[id].pending == Some(Delete) && WorkDone(w, id, Delete)
    ensures Safe(SetVolume(w, id, FinishVolumeAction(w.volumes[id], Delete)))
  {
    hide HolderSlotsOK, InstancesOK, Safe, VolumesOK;
    var v := w.volumes[id];
    var w' := SetVolume(w, id, FinishVolumeAction(v, Delete));
    SafeVolume(w, id);
    assert VolumeOK(w', id);
    VolumeRowSafe(w, w', id);
  }

  /** Terminating an instance frees a volume whose disk is already back on the holder. */
  lemma ReturnSafe(w: World, id: VolumeId)
    requires Safe(w) && LiveRow(w, id) && AtSlot(w, w.volumes[id].loc) && w.volumes[id].instance.Some?
    requires w.volumes[id].loc.vmid.value == w.site.holder && w.volumes[id].loc.moveVmid.None?
    ensures Safe(SetVolume(w, id, ReturnToHolder(w.volumes[id], w.volumes[id].loc)))
  {
    hide HolderSlotsOK, InstancesOK, Safe, VolumesOK;
    var v := w.volumes[id];
    SafeVolume(w, id);
    assert v.loc.(moveVmid := None, moveKey := None) == v.loc;
    FreedSafe(w, id, ReturnToHolder(v, v.loc));
  }

  ghost predicate NewVolume(w: World, id: VolumeId, v: Volume) {
    && id !in w.volumes
    && v.state.Creating? && v.pending == Some(Create) && v.attempts == 0 && v.loc == NOWHERE
    && v.instance.None? && v.device.None? && v.attachment.None?
    && (v.token.Some? ==> forall b :: b in w.volumes ==>
         w.volumes[b].token != v.token || w.volumes[b].account != v.account)
  }

  lemma InsertVolumeSafe(w: World, id: VolumeId, v: Volume)
    requires Safe(w) && NewVolume(w, id, v) && |LiveVolumeIds(w)| < HOLDER_SLOTS
    ensures Safe(SetVolume(w, id, v))
  {
    hide HolderSlotsOK, InstancesOK, HypervisorOK, VolumesOK, NewVolume;
    var w' := SetVolume(w, id, v);
    HypervisorUntouched(w, w');
    InstancesUntouched(w, w');
    NewRowsOK(w, id, v);
    assert HolderSlotsOK(w') by {
      NewRowIsNew(w, id, v);
      NewRowHolder(w, id, v);
    }
  }

  lemma NewRowIsNew(w: World, id: VolumeId, v: Volume)
    requires NewVolume(w, id, v)
    ensures id !in w.volumes
  {
  }

  lemma NewRowsOK(w: World, id: VolumeId, v: Volume)
    requires VolumesOK(w) && SiteOK(w.site) && NewVolume(w, id, v) && |LiveVolumeIds(w)| < HOLDER_SLOTS
    ensures VolumesOK(SetVolume(w, id, v))
  {
    hide VolumeOK, BoundDistinct, NamesDistinct, DevicesDistinct, VolumeTokensDistinct;
    var w' := SetVolume(w, id, v);
    NewRowOK(w, id, v);
    forall b | b in w'.volumes ensures VolumeOK(w', b) {
      if b != id {
        OtherRowOK(w, w', b);
      }
    }
    NewRowDistinct(w, id, v);
    assert LiveVolumeIds(w') == LiveVolumeIds(w) + {id};
  }

  lemma NewRowOK(w: World, id: VolumeId, v: Volume)
    requires SiteOK(w.site) && NewVolume(w, id, v) && id !in w.bound
    ensures VolumeOK(SetVolume(w, id, v), id)
  {
  }

  lemma NewRowDistinct(w: World, id: VolumeId, v: Volume)
    requires BoundDistinct(w) && NamesDistinct(w) && DevicesDistinct(w) && VolumeTokensDistinct(w)
    requires NewVolume(w, id, v)
    ensures var w' := SetVolume(w, id, v);
            BoundDistinct(w') && NamesDistinct(w') && DevicesDistinct(w') && VolumeTokensDistinct(w')
  {
  }

  lemma NewRowHolder(w: World, id: VolumeId, v: Volume)
    requires HolderSlotsOK(w) && id !in w.volumes
    ensures HolderSlotsOK(SetVolume(w, id, v))
  {
    HolderCarriesOver(w, SetVolume(w, id, v));
  }

  /** An attach names an idle, running or stopped instance of the same account and a free device. */
  lemma RequestAttachSafe(w: World, id: VolumeId, i: InstanceId, device: nat)
    requires Safe(w) && LiveRow(w, id) && i in w.instances
    requires var v := w.volumes[id];
             v.state.Available? && v.pending.None? && v.instance.None? && v.account == w.instances[i].account
    requires Established(w.instances[i]) && 1 <= device <= LAST_DEVICE
    requires forall b :: b in w.volumes && w.volumes[b].instance == Some(i) ==> w.volumes[b].device != Some(device)
    ensures Safe(SetVolume(w, id, RequestAttach(w.volumes[id], i, device)))
  {
    hide HolderSlotsOK, Safe, VolumesOK, InstancesOK;
    var v := w.volumes[id];
    var v' := RequestAttach(v, i, device);
    var w' := SetVolume(w, id, v');
    SafeVolume(w, id);
    SafeSite(w);
    SafeInstance(w, i);
    OthersNamedApart(w, id);
    assert VolumeOK(w', id) by {
      assert AtHome(w, id, v.loc) ==> AtHome(w', id, v'.loc);
    }
    VolumeRowSafe(w, w', id);
  }

  lemma SafeInstance(w: World, i: InstanceId)
    requires Safe(w) && i in w.instances
    ensures InstanceOK(w, i)
  {
  }

  /** Detach, resize and delete are requested of a volume with nothing pending. */
  lemma RequestsSafe(w: World, id: VolumeId, size: nat)
    requires Safe(w) && LiveRow(w, id) && w.volumes[id].pending.None?
    ensures w.volumes[id].attachment == Some(Attached) ==> Safe(SetVolume(w, id, RequestDetach(w.volumes[id])))
    ensures w.volumes[id].state.Available? || w.volumes[id].state.InUse? ==>
              Safe(SetVolume(w, id, RequestResize(w.volumes[id], size)))
    ensures w.volumes[id].instance.None? ==> Safe(SetVolume(w, id, RequestDelete(w.volumes[id])))
  {
    hide HolderSlotsOK, InstancesOK, Safe, VolumesOK;
    var v := w.volumes[id];
    SafeVolume(w, id);
    SafeSite(w);
    if v.attachment == Some(Attached) {
      RowStepSafe(w, id, RequestDetach(v));
    }
    if v.state.Available? || v.state.InUse? {
      RowStepSafe(w, id, RequestResize(v, size));
    }
    if v.instance.None? {
      RowStepSafe(w, id, RequestDelete(v));
    }
  }
}
