/** Every single call that moves, makes or destroys a disk, or records where one
    is, keeps the cloud safe when it is made with the knowledge the worker has. */
module DiskLemmas {
  import opened Types
  import opened CloudState

  ghost predicate LiveRow(w: World, id: VolumeId) {
    id in w.volumes && LiveVolume(w.volumes[id])
  }

  /** The disk is at exactly the recorded slot, under the recorded name. */
  predicate AtSlot(w: World, l: Location) {
    && l.vmid.Some? && l.key.Some? && l.name.Some?
    && Slot(l.vmid.value, l.key.value) in w.slots
    && w.slots[Slot(l.vmid.value, l.key.value)].name == l.name.value
  }

  lemma SafeHypervisor(w: World)
    requires Safe(w)
    ensures HypervisorOK(w)
  {
  }

  lemma HypervisorUntouched(w: World, w': World)
    requires HypervisorOK(w) && w'.slots == w.slots && w'.vms == w.vms && w'.site == w.site
    ensures HypervisorOK(w')
  {
  }

  /** What justifies the holder's disks carries over if neither they nor their justifications change. */
  lemma HolderCarriesOver(w: World, w': World)
    requires HolderSlotsOK(w) && w'.site == w.site && (HolderReady(w') ==> HolderReady(w))
    requires forall k :: Slot(w.site.holder, k) in w'.slots ==>
               Slot(w.site.holder, k) in w.slots && w'.slots[Slot(w.site.holder, k)] == w.slots[Slot(w.site.holder, k)]
    requires forall b :: b in w.bound ==> b in w'.bound && w'.bound[b] == w.bound[b]
    requires forall b, k :: Intends(w, b, k) ==> Intends(w', b, k)
    ensures HolderSlotsOK(w')
  {
    if HolderReady(w') {
      forall k | Slot(w.site.holder, k) in w'.slots
        ensures Claimed(w', w'.slots[Slot(w.site.holder, k)].ident) || (k.Scsi? && exists j :: Intends(w', j, k))
      {
        if Claimed(w, w.slots[Slot(w.site.holder, k)].ident) {
          var j :| j in w.bound && w.bound[j] == w.slots[Slot(w.site.holder, k)].ident;
          assert w'.bound[j] == w.slots[Slot(w.site.holder, k)].ident;
        } else {
          var j :| Intends(w, j, k);
          assert Intends(w', j, k);
        }
      }
    }
  }

  // ------------------------------------------------ changes to one disk's entries

  /** Only entries of the physical disk `e` differ. */
  ghost predicate OnlyDiskChanged(w: World, w': World, e: DiskIdent) {
    && w' == w.(slots := w'.slots)
    && (forall p :: p in w.slots && w.slots[p].ident != e ==> p in w'.slots && w'.slots[p] == w.slots[p])
    && (forall p :: p in w'.slots && w'.slots[p].ident != e ==> p in w.slots && w'.slots[p] == w.slots[p])
  }

  /** Disk `e` does not go by the name a row records. */
  ghost predicate NotNamed(w: World, e: DiskIdent, v: Volume) {
    forall p :: p in w.slots && w.slots[p].ident == e ==> v.loc.name != Some(w.slots[p].name)
  }

  lemma OtherDiskKept(w: World, w': World, e: DiskIdent, b: VolumeId, v: Volume)
    requires OnlyDiskChanged(w, w', e) && b in w.bound && w.bound[b] != e
    requires v.loc.name.Some? && v.loc.vmid.Some? && DiskKept(w, b, v) && NotNamed(w', e, v)
    ensures DiskKept(w', b, v)
  {
    if AtHome(w, b, v.loc) {
      var p :|
        && p in w.slots && p.vm == v.loc.vmid.value
        && w.slots[p].name == v.loc.name.value && w.slots[p].ident == w.bound[b];
      assert p in w'.slots;
    }
  }

  lemma RowFactsKept(w: World, w': World, v: Volume)
    requires w' == w.(slots := w'.slots)
    ensures NamingOK(w', v) <==> NamingOK(w, v)
    ensures SettledInUse(w', v) <==> SettledInUse(w, v)
  {
  }

  lemma OtherVolumeOK(w: World, w': World, e: DiskIdent, b: VolumeId)
    requires OnlyDiskChanged(w, w', e)
    requires b in w.volumes && VolumeOK(w, b) && (b in w.bound ==> w.bound[b] != e)
    requires LiveVolume(w.volumes[b]) ==> NotNamed(w', e, w.volumes[b]) && NotNamed(w, e, w.volumes[b])
    ensures VolumeOK(w', b)
  {
    hide DiskKept, SettledInUse, NamingOK, PlaceAllowed, VolumeShape;
    var v := w.volumes[b];
    RowFactsKept(w, w', v);
    if LiveVolume(v) && v.loc.name.Some? {
      OtherDiskKept(w, w', e, b, v);
    }
  }

  /** A live volume's disk found anywhere under its recorded name is its own, on its recorded VM. */
  lemma NamedDiskIsOwn(w: World, id: VolumeId, p: Slot)
    requires Safe(w) && LiveRow(w, id)
    requires p in w.slots && w.volumes[id].loc.name == Some(w.slots[p].name)
    ensures id in w.bound && w.slots[p].ident == w.bound[id]
    ensures w.volumes[id].loc.vmid == Some(p.vm)
    ensures HolderReady(w)
  {
    hide InstancesOK, HolderSlotsOK, NamingOK, PlaceAllowed, SettledInUse, VolumeShape;
    assert VolumeOK(w, id);
    assert DiskKept(w, id, w.volumes[id]);
    assert AtHome(w, id, w.volumes[id].loc);
  }

  /** No other volume is touched by what happens to a volume's own disk. */
  lemma OthersUntouched(w: World, w': World, id: VolumeId)
    requires Safe(w) && id in w.bound && LiveRow(w, id) && OnlyDiskChanged(w, w', w.bound[id])
    requires exists p ::
               p in w.slots && w.slots[p].ident == w.bound[id] && w.volumes[id].loc.name == Some(w.slots[p].name)
    requires forall p :: p in w'.slots && w'.slots[p].ident == w.bound[id] ==>
               FreshName(w, w'.slots[p].name) || w.volumes[id].loc.name == Some(w'.slots[p].name)
    ensures forall b :: b in w.volumes && b != id ==> VolumeOK(w', b)
  {
    hide InstancesOK, HolderSlotsOK, VolumeOK;
    forall b | b in w.volumes && b != id ensures VolumeOK(w', b) {
      OtherVolumeOK(w, w', w.bound[id], b);
    }
  }

  lemma InstancesUntouched(w: World, w': World)
    requires InstancesOK(w) && w'.site == w.site && w'.instances == w.instances && w'.vms == w.vms
    requires w'.addresses == w.addresses && w'.seeds == w.seeds && w'.quarantine == w.quarantine
    ensures InstancesOK(w')
  {
    forall i | i in w'.instances ensures InstanceOK(w', i) {
      assert InstanceOK(w, i);
    }
  }

  lemma RowsUntouched(w: World, w': World)
    requires VolumesOK(w) && w' == w.(slots := w'.slots)
    requires forall b :: b in w.volumes ==> VolumeOK(w', b)
    ensures VolumesOK(w')
  {
    hide VolumeOK;
    assert LiveVolumeIds(w') == LiveVolumeIds(w);
  }

  /** A change to one volume's own disk is safe if that volume is still in order. */
  lemma DiskChangeSafe(w: World, w': World, id: VolumeId)
    requires Safe(w) && id in w.bound && LiveRow(w, id) && OnlyDiskChanged(w, w', w.bound[id])
    requires exists p ::
               p in w.slots && w.slots[p].ident == w.bound[id] && w.volumes[id].loc.name == Some(w.slots[p].name)
    requires forall p :: p in w'.slots && w'.slots[p].ident == w.bound[id] ==>
               FreshName(w, w'.slots[p].name) || w.volumes[id].loc.name == Some(w'.slots[p].name)
    requires HypervisorOK(w') && VolumeOK(w', id)
    ensures Safe(w')
  {
    hide HypervisorOK, VolumeOK, InstancesOK, FreshName;
    OthersUntouched(w, w', id);
    InstancesUntouched(w, w');
    RowsUntouched(w, w');
    assert HolderSlotsOK(w') by {
      if HolderReady(w') {
        forall k | Slot(w.site.holder, k) in w'.slots
          ensures Claimed(w', w'.slots[Slot(w.site.holder, k)].ident) || (k.Scsi? && exists j :: Intends(w', j, k))
        {
          if w'.slots[Slot(w.site.holder, k)].ident == w.bound[id] {
            assert Claimed(w', w.bound[id]);
          } else if !Claimed(w, w.slots[Slot(w.site.holder, k)].ident) {
            var j :| Intends(w, j, k);
            assert Intends(w', j, k);
          } else {
            var j :| j in w.bound && w.bound[j] == w.slots[Slot(w.site.holder, k)].ident;
            assert Claimed(w', w'.slots[Slot(w.site.holder, k)].ident);
          }
        }
      }
    }
  }

  /** `w'` has disk `d` at `dst` instead of the disk that was at `src`. */
  ghost predicate Replaced(w: World, w': World, src: Slot, dst: Slot, d: Disk) {
    && w' == w.(slots := w'.slots)
    && dst in w'.slots && w'.slots[dst] == d
    && (forall p :: p in w.slots && p != src ==> p in w'.slots && (p != dst ==> w'.slots[p] == w.slots[p]))
    && (forall p :: p in w'.slots && p != dst ==> p in w.slots && p != src)
  }

  lemma ReplaceHypervisor(w: World, w': World, src: Slot, dst: Slot, d: Disk)
    requires HypervisorOK(w) && Replaced(w, w', src, dst, d)
    requires src in w.slots && (dst == src || dst !in w.slots) && dst.vm in w.vms
    requires d.ident == w.slots[src].ident && (d.name == w.slots[src].name || NameAbsent(w, d.name))
    ensures HypervisorOK(w') && OnlyDiskChanged(w, w', d.ident)
    ensures forall p :: p in w'.slots && w'.slots[p].ident == d.ident ==> p == dst
  {
    forall p, q | p in w'.slots && q in w'.slots && p != q
      ensures w'.slots[p].name != w'.slots[q].name && w'.slots[p].ident != w'.slots[q].ident
    {
      var p0 := if p == dst then src else p;
      var q0 := if q == dst then src else q;
      assert p0 in w.slots && q0 in w.slots && p0 != q0;
    }
  }

  /** The same for a volume's own disk: all is safe if its row is still in order. */
  lemma ReplaceSafe(w: World, w': World, id: VolumeId, src: Slot, dst: Slot, d: Disk)
    requires Safe(w) && LiveRow(w, id) && src in w.slots && w.volumes[id].loc.name == Some(w.slots[src].name)
    requires Replaced(w, w', src, dst, d) && (dst == src || dst !in w.slots) && dst.vm in w.vms
    requires d.ident == w.slots[src].ident && (d.name == w.slots[src].name || FreshName(w, d.name))
    requires VolumeOK(w', id)
    ensures Safe(w')
  {
    hide HypervisorOK, VolumeOK, InstancesOK, VolumesOK, HolderSlotsOK, LiveVolumeIds;
    NamedDiskIsOwn(w, id, src);
    ReplaceHypervisor(w, w', src, dst, d);
    DiskChangeSafe(w, w', id);
  }

  // -------------------------------------------------------- the calls themselves

  /** Carrying out a recorded move keeps everything safe. */
  lemma MoveSafe(w: World, id: VolumeId, dst: Slot, name: DiskName)
    requires Safe(w) && LiveRow(w, id) && AtSlot(w, w.volumes[id].loc)
    requires w.volumes[id].loc.moveVmid == Some(dst.vm) && w.volumes[id].loc.moveKey == Some(dst.key)
    requires dst !in w.slots && dst.vm in w.vms && FreshName(w, name)
    ensures var l := w.volumes[id].loc; Safe(MoveTo(w, Slot(l.vmid.value, l.key.value), dst, name))
  {
    hide Safe, VolumeOK, FreshName;
    var l := w.volumes[id].loc;
    var src := Slot(l.vmid.value, l.key.value);
    MovedRowOK(w, id, dst, name);
    ReplaceSafe(w, MoveTo(w, src, dst, name), id, src, dst, w.slots[src].(name := name));
  }

  lemma MovedRowOK(w: World, id: VolumeId, dst: Slot, name: DiskName)
    requires Safe(w) && LiveRow(w, id) && AtSlot(w, w.volumes[id].loc)
    requires w.volumes[id].loc.moveVmid == Some(dst.vm) && w.volumes[id].loc.moveKey == Some(dst.key)
    requires dst !in w.slots && FreshName(w, name)
    ensures var l := w.volumes[id].loc; VolumeOK(MoveTo(w, Slot(l.vmid.value, l.key.value), dst, name), id)
  {
    hide InstancesOK, HolderSlotsOK, VolumeShape, NamingOK, SettledInUse;
    var v := w.volumes[id];
    var src := Slot(v.loc.vmid.value, v.loc.key.value);
    var w' := MoveTo(w, src, dst, name);
    assert VolumeOK(w, id);
    NamedDiskIsOwn(w, id, src);
    RowFactsKept(w, w', v);
    assert Arrived(w', id, v.loc) by {
      assert NameAbsent(w', v.loc.name.value);
    }
  }

  /** Plugging in or unplugging a volume's disk is safe unless it is settled in use. */
  lemma RekeySafe(w: World, id: VolumeId, src: Slot, key: Key)
    requires Safe(w) && LiveRow(w, id) && src in w.slots && w.volumes[id].loc.name == Some(w.slots[src].name)
    requires Slot(src.vm, key) !in w.slots && !SettledInUse(w, w.volumes[id])
    ensures Safe(Rekey(w, src, key))
  {
    hide Safe, VolumeOK, FreshName;
    var w' := Rekey(w, src, key);
    assert src.vm in w.vms by { SafeHypervisor(w); assert HypervisorOK(w); }
    assert VolumeOK(w', id) by { RekeyedRowOK(w, w', id, src, Slot(src.vm, key)); }
    ReplaceSafe(w, w', id, src, Slot(src.vm, key), w.slots[src]);
  }

  lemma RekeyedRowOK(w: World, w': World, id: VolumeId, src: Slot, dst: Slot)
    requires Safe(w) && LiveRow(w, id) && src in w.slots && w.volumes[id].loc.name == Some(w.slots[src].name)
    requires w' == w.(slots := w'.slots) && dst in w'.slots && dst.vm == src.vm
    requires w'.slots[dst].name == w.slots[src].name && w'.slots[dst].ident == w.slots[src].ident
    requires src == dst || !SettledInUse(w, w.volumes[id])
    ensures VolumeOK(w', id)
  {
    hide InstancesOK, HolderSlotsOK, VolumeShape, NamingOK, SettledInUse;
    var v := w.volumes[id];
    assert VolumeOK(w, id);
    NamedDiskIsOwn(w, id, src);
    RowFactsKept(w, w', v);
    assert AtHome(w', id, v.loc);
    if SettledInUse(w, v) {
      assert AtDevice(w, v);
      assert HypervisorOK(w);
      assert Slot(v.loc.vmid.value, Virtio(v.device.value)) == src;
      assert AtDevice(w', v);
    }
  }

  lemma ResizeSafe(w: World, id: VolumeId, p: Slot, size: nat)
    requires Safe(w) && LiveRow(w, id) && p in w.slots && w.volumes[id].loc.name == Some(w.slots[p].name)
    ensures Safe(ResizeTo(w, p, size))
  {
    hide Safe, VolumeOK, FreshName;
    var w' := ResizeTo(w, p, size);
    assert p.vm in w.vms by { SafeHypervisor(w); assert HypervisorOK(w); }
    RekeyedRowOK(w, w', id, p, p);
    ReplaceSafe(w, w', id, p, p, w.slots[p].(size := size));
  }

  /** Destroying the disk of a volume whose delete is pending. */
  lemma DestroySafe(w: World, id: VolumeId)
    requires Safe(w) && LiveRow(w, id) && AtSlot(w, w.volumes[id].loc)
    requires w.volumes[id].pending == Some(Delete) && w.volumes[id].loc.moveVmid.None?
    ensures var l := w.volumes[id].loc; Safe(DestroyDisk(w, Slot(l.vmid.value, l.key.value)))
  {
    hide Safe, FreshName, VolumesOK, InstancesOK, HolderSlotsOK;
    var v := w.volumes[id];
    var p := Slot(v.loc.vmid.value, v.loc.key.value);
    var w' := DestroyDisk(w, p);
    NamedDiskIsOwn(w, id, p);
    assert HypervisorOK(w) by { SafeHypervisor(w); }
    assert NameAbsent(w', v.loc.name.value) && IdentAbsent(w', w.bound[id]);
    assert VolumeOK(w', id) by { DestroyedRowOK(w, w', id); }
    DiskChangeSafe(w, w', id);
  }

  lemma DestroyedRowOK(w: World, w': World, id: VolumeId)
    requires Safe(w) && LiveRow(w, id) && id in w.bound && w.volumes[id].loc.name.Some?
    requires w' == w.(slots := w'.slots)
    requires w.volumes[id].pending == Some(Delete) && w.volumes[id].loc.moveVmid.None?
    requires NameAbsent(w', w.volumes[id].loc.name.value) && IdentAbsent(w', w.bound[id])
    ensures VolumeOK(w', id)
  {
    hide InstancesOK, HolderSlotsOK, NamingOK;
    assert VolumeOK(w, id);
    RowFactsKept(w, w', w.volumes[id]);
  }

  /** Resizing any disk, a volume's or not: nothing that must hold is about sizes. */
  lemma AnyResizeSafe(w: World, p: Slot, size: nat)
    requires Safe(w) && p in w.slots
    ensures Safe(ResizeTo(w, p, size))
  {
    hide VolumeOK, HolderSlotsOK, InstancesOK;
    var w' := ResizeTo(w, p, size);
    forall b | b in w'.volumes ensures VolumeOK(w', b) {
      ResizedRowOK(w, p, size, b);
    }
    RowsUntouched(w, w');
    InstancesUntouched(w, w');
    ResizedHolder(w, p, size);
  }

  lemma ResizedRowOK(w: World, p: Slot, size: nat, b: VolumeId)
    requires p in w.slots && b in w.volumes && VolumeOK(w, b)
    ensures VolumeOK(ResizeTo(w, p, size), b)
  {
    var w' := ResizeTo(w, p, size);
    var v := w.volumes[b];
    RowFactsKept(w, w', v);
    if LiveVolume(v) && v.loc.name.Some? && AtHome(w, b, v.loc) {
      var q :|
        && q in w.slots && q.vm == v.loc.vmid.value
        && w.slots[q].name == v.loc.name.value && w.slots[q].ident == w.bound[b];
      assert q in w'.slots && w'.slots[q].name == w.slots[q].name && w'.slots[q].ident == w.slots[q].ident;
    }
  }

  lemma ResizedHolder(w: World, p: Slot, size: nat)
    requires HolderSlotsOK(w) && p in w.slots
    ensures HolderSlotsOK(ResizeTo(w, p, size))
  {
    var w' := ResizeTo(w, p, size);
    if HolderReady(w') {
      forall k | Slot(w'.site.holder, k) in w'.slots
        ensures Claimed(w', w'.slots[Slot(w'.site.holder, k)].ident) || (k.Scsi? && exists id :: Intends(w', id, k))
      {
        assert Slot(w.site.holder, k) in w.slots;
        if !Claimed(w, w.slots[Slot(w.site.holder, k)].ident) {
          var id :| Intends(w, id, k);
          assert Intends(w', id, k);
        }
      }
    }
  }
}
