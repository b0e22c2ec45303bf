/** The calls the worker makes, each with the knowledge it makes it with. Under
    that knowledge every call leaves the cloud valid, whether it takes effect,
    fails, or takes effect and loses its reply. */
module Steps {
  import opened Types
  import opened CloudState
  import opened DiskLemmas
  import opened RowLemmas
  import opened InstanceLemmas
  import opened Progress
  import opened History
  import opened Backends

  /** One call has been answered: it fails only with trouble if it could be answered at
      all, and no attempt has gone unrecorded over it. */
  ghost predicate Managed(trouble: nat, unrecorded: nat, c: Cloud, r: Outcome, possible: bool)
    reads c
  {
    c.Answered(trouble, r, possible) && c.unrecorded == unrecorded
  }

  /** Looking whether a VM is running. */
  method SeeRunning(c: Cloud, m: VmId) returns (running: bool)
    requires c.Valid()
    modifies c
    ensures Extends(old(c.Past()), c.Past())
    ensures c.Valid() && c.Now() == old(c.Now()) && c.events == old(c.events) + [Shown(m, running)]
    ensures c.trouble == old(c.trouble) && c.unrecorded == old(c.unrecorded)
  {
    hide Safe, Step;
    ghost var h, es := c.history, c.events;
    running := c.ShowsRunning(m);
    EventOnly(c.Now(), Shown(m, running));
    RunGrows(h, es, c.Now(), Shown(m, running));
  }

  /** Asking whether the guest still has to take or release a key. */
  method AskGuest(c: Cloud, m: VmId, key: Key) returns (waiting: bool, r: Outcome)
    requires c.Valid()
    modifies c
    ensures Extends(old(c.Past()), c.Past())
    ensures c.Valid() && c.Now() == old(c.Now())
    ensures c.events == old(c.events) + [if r.Ok? then GuestShown(m, key, waiting) else Call]
    ensures c.trouble >= old(c.trouble) && c.unrecorded == old(c.unrecorded)
    ensures if r.Ok? && waiting then c.trouble > old(c.trouble) else c.Answered(old(c.trouble), r, true)
  {
    hide Safe, Step;
    ghost var h, es := c.history, c.events;
    waiting, r := c.PendingKey(m, key);
    EventOnly(c.Now(), c.events[|es|]);
    RunGrows(h, es, c.Now(), c.events[|es|]);
  }

  /** A call that changes nothing the model keeps, and no power but that of an instance's own VM. */
  lemma EventOnly(w: World, e: Event)
    requires !e.InstanceAttempt? && !e.VolumeAttempt? && PowersOwn(w, e)
    ensures Step(w, e, w)
  {
    StepSelf(w);
  }

  /** Starting, stopping or rebooting an instance's own VM, which has been seen to call for it. */
  method Power(c: Cloud, m: VmId, op: PowerOp, ghost since: nat) returns (r: Outcome)
    requires c.Valid() && SomebodysVm(c.Now(), m) && CalledFor(c.events, since, m, op)
    modifies c
    ensures Extends(old(c.Past()), c.Past())
    ensures c.Valid() && c.Now() == old(c.Now())
    ensures c.events == old(c.events) + [Powered(m, op)] || (c.events == old(c.events) + [Call] && !r.Ok?)
    ensures Managed(old(c.trouble), old(c.unrecorded), c, r, true)
  {
    hide Safe, Step, SomebodysVm;
    ghost var h, es := c.history, c.events;
    r := c.PowerVm(m, op);
    EventOnly(c.Now(), c.events[|es|]);
    RunGrows(h, es, c.Now(), c.events[|es|]);
  }

  /** Having an instance's own VM start with the host, or not. */
  method StartWithHost(c: Cloud, m: VmId, starts: bool) returns (r: Outcome)
    requires c.Valid() && SomebodysVm(c.Now(), m)
    modifies c
    ensures Extends(old(c.Past()), c.Past())
    ensures c.Valid() && c.Now() == old(c.Now())
    ensures || c.events == old(c.events) + [StartsWithHost(m, starts)]
            || (c.events == old(c.events) + [Call] && !r.Ok?)
    ensures Managed(old(c.trouble), old(c.unrecorded), c, r, true)
  {
    hide Safe, Step, SomebodysVm;
    ghost var h, es := c.history, c.events;
    r := c.SetStartsWithHost(m, starts);
    EventOnly(c.Now(), c.events[|es|]);
    RunGrows(h, es, c.Now(), c.events[|es|]);
  }

  /** Several have: nobody died without trouble, there was none if all went well, and no attempt
      has gone unrecorded. */
  ghost predicate Accounted(trouble: nat, unrecorded: nat, c: Cloud, r: Outcome)
    reads c
  {
    && (if r.Ok? then c.trouble == trouble else trouble <= c.trouble && (r == Err(Crash) ==> trouble < c.trouble))
    && c.unrecorded == unrecorded
  }

  /** A call has failed, which trying again may cure. */
  ghost predicate Troubled(trouble: nat, c: Cloud, r: Outcome)
    reads c
  {
    CallFailed(r) && trouble < c.trouble
  }

  /** Carrying out a move that the volume's row announces, of a disk that is not plugged in. */
  method Move(c: Cloud, id: VolumeId, dst: Slot, ghost w0: World) returns (r: Outcome)
    requires c.Valid() && Follows(w0, c.Now(), {id}) && LiveRow(c.Now(), id) && AtSlot(c.Now(), c.volumes[id].loc)
    requires c.volumes[id].loc.moveVmid == Some(dst.vm) && c.volumes[id].loc.moveKey == Some(dst.key)
    requires c.volumes[id].loc.key.value.Unused?
    modifies c
    ensures Extends(old(c.Past()), c.Past())
    ensures c.Valid() && Follows(w0, c.Now(), {id}) && Follows(old(c.Now()), c.Now(), {id})
    ensures var src := Slot(old(c.volumes)[id].loc.vmid.value, old(c.volumes)[id].loc.key.value);
            c.Now() == old(c.Now()) || DiskMoved(old(c.Now()), c.Now(), src, dst)
    ensures c.Alleged(old(c.trouble), r, dst !in old(c.slots) && dst.vm in old(c.vms), c.Now() != old(c.Now()))
    ensures c.unrecorded == old(c.unrecorded)
  {
    hide Safe, Run, Follows;
    ghost var h, es, w := c.history, c.events, c.Now();
    var src := Slot(c.volumes[id].loc.vmid.value, c.volumes[id].loc.key.value);
    r := c.MoveDisk(src, dst);
    if c.Now() != w {
      MoveSafe(w, id, dst, c.slots[dst].name);
    }
    FollowsSame(w, c.Now());
    FollowsOn(w0, w, c.Now(), {}, {id});
    FollowsRun(h, es, c.Now(), {});
  }

  lemma FollowsSame(w: World, w': World)
    requires w'.volumes == w.volumes && w'.instances == w.instances && w'.bound == w.bound && VmsFollow(w, w')
    ensures Follows(w, w', {})
  {
  }

  /** Making a blank disk at a holder slot that the volume's row announces. */
  method Allocate(c: Cloud, id: VolumeId, key: Key, size: nat, ghost w0: World) returns (r: Outcome)
    requires c.Valid() && Follows(w0, c.Now(), {id}) && Intends(c.Now(), id, key) && key.Scsi? && HolderReady(c.Now())
    modifies c
    ensures Extends(old(c.Past()), c.Past())
    ensures c.Valid() && Follows(w0, c.Now(), {id}) && Follows(old(c.Now()), c.Now(), {id})
    ensures c.Now() == old(c.Now()) || DiskMade(old(c.Now()), c.Now(), Slot(c.site.holder, key), size)
    ensures c.Alleged(old(c.trouble), r, Slot(c.site.holder, key) !in old(c.slots), c.Now() != old(c.Now()))
    ensures c.unrecorded == old(c.unrecorded)
  {
    hide Safe, Run, Follows, FreshName, FreshIdent;
    ghost var h, es, w := c.history, c.events, c.Now();
    var p := Slot(c.site.holder, key);
    r := c.AllocateDisk(p, size);
    if c.Now() != w {
      AllocateSafe(w, id, key, c.slots[p]);
    }
    FollowsSame(w, c.Now());
    FollowsOn(w0, w, c.Now(), {}, {id});
    FollowsRun(h, es, c.Now(), {});
  }

  /** Plugging the volume's disk in on the VM it is recorded on. */
  method Plug(c: Cloud, id: VolumeId, m: VmId, key: Key, name: DiskName, ghost w0: World) returns (r: Outcome)
    requires c.Valid() && Follows(w0, c.Now(), {id}) && LiveRow(c.Now(), id) && c.volumes[id].loc.name == Some(name)
    requires !SettledInUse(c.Now(), c.volumes[id])
    modifies c
    ensures Extends(old(c.Past()), c.Past())
    ensures c.Valid() && Follows(w0, c.Now(), {id}) && Follows(old(c.Now()), c.Now(), {id})
    ensures c.Now() == old(c.Now()) || DiskPlugged(old(c.Now()), c.Now(), m, key, name)
    ensures r.Ok? ==> DiskPlugged(old(c.Now()), c.Now(), m, key, name)
    ensures Managed(old(c.trouble), old(c.unrecorded), c, r,
                    old(Slot(m, key) !in c.slots && UnusedOn(c.slots, m, name)))
  {
    hide Safe, Run, Follows;
    ghost var h, es, w := c.history, c.events, c.Now();
    r := c.PlugDisk(m, key, name);
    if c.Now() != w {
      ghost var src :|
        src in w.slots && src.vm == m && src.key.Unused? && w.slots[src].name == name && c.Now() == Rekey(w, src, key);
      RekeySafe(w, id, src, key);
    }
    FollowsSame(w, c.Now());
    FollowsOn(w0, w, c.Now(), {}, {id});
    FollowsRun(h, es, c.Now(), {});
  }

  /** Unplugging the volume's disk. */
  method Unlink(c: Cloud, id: VolumeId, p: Slot, ghost w0: World) returns (r: Outcome)
    requires c.Valid() && Follows(w0, c.Now(), {id}) && LiveRow(c.Now(), id)
    requires p in c.slots && c.volumes[id].loc.name == Some(c.slots[p].name) && !SettledInUse(c.Now(), c.volumes[id])
    modifies c
    ensures Extends(old(c.Past()), c.Past())
    ensures c.Valid() && Follows(w0, c.Now(), {id}) && Follows(old(c.Now()), c.Now(), {id})
    ensures c.Now() == old(c.Now()) || DiskUnplugged(old(c.Now()), c.Now(), p.vm, p.key)
    ensures c.Alleged(old(c.trouble), r, true, DiskUnplugged(old(c.Now()), c.Now(), p.vm, p.key))
    ensures c.unrecorded == old(c.unrecorded)
  {
    hide Safe, Run, Follows;
    ghost var h, es, w := c.history, c.events, c.Now();
    r := c.UnlinkDisk(p.vm, p.key);
    if c.Now() != w {
      ghost var n: nat :| UnpluggedTo(w, c.Now(), Slot(p.vm, p.key), n);
      RekeySafe(w, id, p, Unused(n));
    }
    FollowsSame(w, c.Now());
    FollowsOn(w0, w, c.Now(), {}, {id});
    FollowsRun(h, es, c.Now(), {});
  }

  /** Destroying the disk of a volume being deleted. */
  method Destroy(c: Cloud, id: VolumeId, p: Slot, ghost w0: World) returns (r: Outcome)
    requires c.Valid() && Follows(w0, c.Now(), {id}) && LiveRow(c.Now(), id) && AtSlot(c.Now(), c.volumes[id].loc)
    requires c.volumes[id].pending == Some(Delete) && c.volumes[id].loc.moveVmid.None?
    requires p == Slot(c.volumes[id].loc.vmid.value, c.volumes[id].loc.key.value)
    modifies c
    ensures Extends(old(c.Past()), c.Past())
    ensures c.Valid() && Follows(w0, c.Now(), {id}) && Follows(old(c.Now()), c.Now(), {id})
    ensures c.Now() == old(c.Now()) || c.Now() == DestroyDisk(old(c.Now()), p)
    ensures c.Alleged(old(c.trouble), r, true, c.Now() != old(c.Now())) && c.unrecorded == old(c.unrecorded)
  {
    hide Safe, Run, Follows;
    ghost var h, es, w := c.history, c.events, c.Now();
    r := c.UnlinkAndDestroy(p);
    DestroySafe(w, id);
    FollowsSame(w, c.Now());
    FollowsOn(w0, w, c.Now(), {}, {id});
    FollowsRun(h, es, c.Now(), {});
  }

  method Enlarge(c: Cloud, id: VolumeId, p: Slot, size: nat, ghost w0: World) returns (r: Outcome)
    requires c.Valid() && Follows(w0, c.Now(), {id}) && LiveRow(c.Now(), id) && p in c.slots
    requires c.volumes[id].loc.name == Some(c.slots[p].name) && c.slots[p].size <= size
    modifies c
    ensures Extends(old(c.Past()), c.Past())
    ensures c.Valid() && Follows(w0, c.Now(), {id}) && Follows(old(c.Now()), c.Now(), {id})
    ensures c.Now() == old(c.Now()) || c.Now() == ResizeTo(old(c.Now()), p, size)
    ensures r.Ok? ==> c.Now() == ResizeTo(old(c.Now()), p, size)
    ensures r.Ok? ==> Plugged(p.key)
    ensures Managed(old(c.trouble), old(c.unrecorded), c, r, Plugged(p.key))
  {
    hide Safe, Run, Follows;
    ghost var h, es, w := c.history, c.events, c.Now();
    r := c.ResizeDisk(p, size);
    ResizeSafe(w, id, p, size);
    FollowsSame(w, c.Now());
    FollowsOn(w0, w, c.Now(), {}, {id});
    FollowsRun(h, es, c.Now(), {});
  }

  /** Writing a volume's location, once that is known to be safe. */
  method WriteLocation(c: Cloud, id: VolumeId, l: Location, ghost w0: World) returns (r: Outcome)
    requires c.Valid() && Follows(w0, c.Now(), {id}) && LiveRow(c.Now(), id) && Safe(Record(c.Now(), id, l))
    requires c.volumes[id].loc.name.Some? ==> l.name.Some?
    modifies c
    ensures Extends(old(c.Past()), c.Past())
    ensures c.Valid() && Follows(w0, c.Now(), {id}) && Follows(old(c.Now()), c.Now(), {id})
    ensures c.Now() == old(c.Now()) || c.Now() == Record(old(c.Now()), id, l)
    ensures r.Ok? ==> c.Now() == Record(old(c.Now()), id, l)
    ensures Managed(old(c.trouble), old(c.unrecorded), c, r, true)
  {
    hide Safe, Run, Follows;
    ghost var h, es, w := c.history, c.events, c.Now();
    SafeHypervisor(w);
    r := c.RecordLocation(id, l);
    LocationFollows(w, id, l);
    FollowsSelf(w, {id});
    FollowsOn(w0, w, c.Now(), {id}, {id});
    FollowsRun(h, es, c.Now(), {id});
  }

  lemma LocationFollows(w: World, id: VolumeId, l: Location)
    requires LiveRow(w, id) && (w.volumes[id].loc.name.Some? ==> l.name.Some?)
    ensures Follows(w, Record(w, id, l), {id})
  {
  }

  /** Writing anything else of a volume's row, once that is known to be safe. `e` says
      which attempt's end it records, if it does. */
  method WriteVolume(c: Cloud, id: VolumeId, update: Volume -> Volume, e: Event) returns (r: Outcome)
    requires c.Valid() && id in c.volumes && Safe(SetVolume(c.Now(), id, update(c.volumes[id])))
    requires Step(c.Now(), e, SetVolume(c.Now(), id, update(c.volumes[id])))
    modifies c
    ensures Extends(old(c.Past()), c.Past())
    ensures c.Valid()
    ensures || (c.Now() == SetVolume(old(c.Now()), id, update(old(c.volumes)[id])) && c.unrecorded == old(c.unrecorded)
                && c.events == old(c.events) + [e])
            || (c.Now() == old(c.Now()) && !r.Ok? && c.unrecorded == old(c.unrecorded) + if e.Call? then 0 else 1)
    ensures c.Answered(old(c.trouble), r, true)
  {
    hide Safe, Step;
    ghost var h, es := c.history, c.events;
    StepSelf(c.Now());
    r := c.UpdateVolume(id, update, e);
    RunGrows(h, es, c.Now(), c.events[|c.events| - 1]);
  }

  /** Writing an instance's row, once that is known to be safe. */
  method WriteInstance(c: Cloud, i: InstanceId, update: Instance -> Instance, e: Event) returns (r: Outcome)
    requires c.Valid() && i in c.instances && Safe(SetInstance(c.Now(), i, update(c.instances[i])))
    requires Step(c.Now(), e, SetInstance(c.Now(), i, update(c.instances[i])))
    modifies c
    ensures Extends(old(c.Past()), c.Past())
    ensures c.Valid()
    ensures || (c.Now() == SetInstance(old(c.Now()), i, update(old(c.instances)[i]))
                && c.unrecorded == old(c.unrecorded)
                && c.events == old(c.events) + [e])
            || (c.Now() == old(c.Now()) && !r.Ok? && c.unrecorded == old(c.unrecorded) + if e.Call? then 0 else 1)
    ensures c.Answered(old(c.trouble), r, true)
  {
    hide Safe, Step;
    ghost var h, es := c.history, c.events;
    StepSelf(c.Now());
    r := c.UpdateInstance(i, update, e);
    RunGrows(h, es, c.Now(), c.events[|c.events| - 1]);
  }

  /** A committed transaction that writes one volume's row. */
  method CommitVolume(c: Cloud, id: VolumeId, v: Volume)
    requires c.Valid() && Safe(SetVolume(c.Now(), id, v)) && Step(c.Now(), Call, SetVolume(c.Now(), id, v))
    modifies c
    ensures Extends(old(c.Past()), c.Past())
    ensures c.Valid() && c.Now() == SetVolume(old(c.Now()), id, v)
    ensures c.trouble == old(c.trouble) && c.unrecorded == old(c.unrecorded)
  {
    hide Safe, Step;
    ghost var h, es := c.history, c.events;
    c.volumes := c.volumes[id := v];
    c.history, c.events := c.history + [c.Now()], c.events + [Call];
    RunGrows(h, es, c.Now(), Call);
  }

  /** A committed transaction that writes one instance's row. */
  method CommitInstance(c: Cloud, i: InstanceId, inst: Instance)
    requires c.Valid() && Safe(SetInstance(c.Now(), i, inst)) && Step(c.Now(), Call, SetInstance(c.Now(), i, inst))
    modifies c
    ensures Extends(old(c.Past()), c.Past())
    ensures c.Valid() && c.Now() == SetInstance(old(c.Now()), i, inst)
    ensures c.trouble == old(c.trouble) && c.unrecorded == old(c.unrecorded)
  {
    hide Safe, Step;
    ghost var h, es := c.history, c.events;
    c.instances := c.instances[i := inst];
    c.history, c.events := c.history + [c.Now()], c.events + [Call];
    RunGrows(h, es, c.Now(), Call);
  }

  // ------------------------------------------------------------- VMs, addresses

  /** A change of neither rows nor the adopted instances' VMs is a legal step. */
  lemma SameRowsStep(w: World, w': World)
    requires w'.site == w.site && w'.volumes == w.volumes && w'.instances == w.instances && w'.bound == w.bound
    requires VmsStep(w, w')
    ensures Step(w, Call, w')
  {
    hide QuotaStep, VmsStep;
    QuietStep(w, w');
  }

  /** A new VM is the holder's or a launched instance's, so no adopted one's. */
  lemma AddVmStep(w: World, m: VmId, owner: Owner, disks: map<Slot, Disk>)
    requires Safe(w) && m !in w.vms
    requires || (owner.HolderVm? && m == w.site.holder)
             || (owner.InstanceVm? && owner.instance in w.instances && w.instances[owner.instance].vmid == Some(m)
                 && LiveInstance(w.instances[owner.instance]) && !w.instances[owner.instance].adopted)
    ensures VmsStep(w, AddVm(w, m, owner, disks))
  {
    hide HypervisorOK, HolderSlotsOK, VolumesOK, InstanceTokensDistinct, VmOwnersOK, AddressesOK, SeedsOK;
    var w' := AddVm(w, m, owner, disks);
    forall i | i in w.instances && w.instances[i].adopted && LiveInstance(w.instances[i])
      ensures AdoptedVmStep(w, w', i)
    {
      assert InstanceOK(w, i);
    }
  }

  /** Making the holder, or the VM of a live instance. */
  method MakeVm(c: Cloud, m: VmId, owner: Owner) returns (r: Outcome, taken: bool)
    requires c.Valid()
    requires || (owner.HolderVm? && m == c.site.holder)
             || (owner.InstanceVm? && owner.instance in c.instances && c.instances[owner.instance].vmid == Some(m)
                 && LiveInstance(c.instances[owner.instance]) && !c.instances[owner.instance].adopted)
    modifies c
    ensures Extends(old(c.Past()), c.Past())
    ensures c.Valid()
    ensures c.Now() == old(c.Now()) || VmMade(old(c.Now()), c.Now(), m, owner)
    ensures r.Ok? ==> VmMade(old(c.Now()), c.Now(), m, owner)
    ensures taken ==> !r.Ok? && m in old(c.vms) && c.Now() == old(c.Now())
    ensures Managed(old(c.trouble), old(c.unrecorded), c, r, m !in old(c.vms))
    ensures r.Ok? || taken || old(c.trouble) < c.trouble
  {
    hide Safe, Step, VmsStep, FreshDisks;
    ghost var h, es, w := c.history, c.events, c.Now();
    StepSelf(w);
    r, taken := c.CreateVm(m, owner);
    if c.Now() != w {
      ghost var disks :|
        FreshDisks(w, m, disks) && (owner.HolderVm? ==> disks == map[]) && c.Now() == AddVm(w, m, owner, disks);
      AddVmSafe(w, m, owner, disks);
      AddVmStep(w, m, owner, disks);
      SameRowsStep(w, c.Now());
    }
    RunGrows(h, es, c.Now(), Call);
  }

  /** An adopted instance's VM goes in its own terminate, when nothing names it. */
  lemma RemoveVmStep(w: World, i: InstanceId, m: VmId)
    requires Safe(w) && i in w.instances && LiveInstance(w.instances[i]) && w.instances[i].vmid == Some(m)
    requires w.instances[i].pending == Some(Terminate) && forall b :: !Names(w, b, i)
    ensures VmsStep(w, RemoveVm(w, m))
  {
    hide Safe;
    var w' := RemoveVm(w, m);
    VmidsApart(w, i);
    forall j | j in w.instances && w.instances[j].adopted && LiveInstance(w.instances[j])
      ensures AdoptedVmStep(w, w', j)
    {
      if HasVm(w, j) && !HasVm(w', j) {
        assert j == i;
        forall b | b in w'.volumes && LiveVolume(w'.volumes[b]) ensures w'.volumes[b].instance != Some(i) {
          assert !Names(w, b, i);
        }
      }
    }
  }

  /** Deleting the VM of an instance being terminated, once no volume is on it. */
  method DestroyVm(c: Cloud, i: InstanceId, m: VmId) returns (r: Outcome)
    requires c.Valid() && i in c.instances && c.instances[i].pending == Some(Terminate)
    requires c.instances[i].vmid == Some(m) && LiveInstance(c.instances[i])
    requires Owned(c.Now(), i) && Unmentioned(c.Now(), m) && forall b :: !Names(c.Now(), b, i)
    modifies c
    ensures Extends(old(c.Past()), c.Past())
    ensures c.Valid()
    ensures c.Now() == old(c.Now()) || c.Now() == RemoveVm(old(c.Now()), m)
    ensures r.Ok? ==> c.Now() == RemoveVm(old(c.Now()), m)
    ensures Managed(old(c.trouble), old(c.unrecorded), c, r, m in old(c.vms))
  {
    hide Safe, Step, VmsStep, Owned, Unmentioned;
    ghost var h, es, w := c.history, c.events, c.Now();
    StepSelf(w);
    r := c.DeleteVm(m);
    if c.Now() != w {
      RemoveVmSafe(w, i, m);
      RemoveVmStep(w, i, m);
      SameRowsStep(w, c.Now());
    }
    RunGrows(h, es, c.Now(), Call);
  }

  lemma SameVmsStep(w: World, w': World)
    requires w' == w.(slots := w'.slots, addresses := w'.addresses, seeds := w'.seeds)
    ensures VmsStep(w, w')
  {
  }

  /** Taking an address for a live instance that has none. */
  method TakeAddress(c: Cloud, i: InstanceId) returns (a: AddressId, r: Outcome)
    requires c.Valid() && i in c.instances && LiveInstance(c.instances[i])
    requires forall b :: b in c.addresses ==> c.addresses[b] != i
    modifies c
    ensures Extends(old(c.Past()), c.Past())
    ensures c.Valid()
    ensures c.Now() == old(c.Now()) || AddressTaken(old(c.Now()), c.Now(), a, i)
    ensures r.Ok? ==> AddressTaken(old(c.Now()), c.Now(), a, i)
    ensures Managed(old(c.trouble), old(c.unrecorded), c, r, true)
  {
    hide Safe, Step, VmsStep, FreshAddress;
    ghost var h, es, w := c.history, c.events, c.Now();
    a, r := c.AllocateAddress(i);
    if c.Now() != w {
      AddAddressSafe(w, a, i);
    }
    SameVmsStep(w, c.Now());
    SameRowsStep(w, c.Now());
    RunGrows(h, es, c.Now(), Call);
  }

  /** Releasing an address of an instance being terminated. */
  method DropAddress(c: Cloud, i: InstanceId, a: AddressId) returns (r: Outcome)
    requires c.Valid() && i in c.instances && c.instances[i].pending == Some(Terminate)
    requires a in c.addresses ==> c.addresses[a] == i
    modifies c
    ensures Extends(old(c.Past()), c.Past())
    ensures c.Valid()
    ensures c.Now() == old(c.Now()) || c.Now() == old(c.Now()).(addresses := old(c.addresses) - {a})
    ensures r.Ok? ==> c.Now() == old(c.Now()).(addresses := old(c.addresses) - {a})
    ensures Managed(old(c.trouble), old(c.unrecorded), c, r, true)
  {
    hide Safe, Step, VmsStep;
    ghost var h, es, w := c.history, c.events, c.Now();
    r := c.ReleaseAddress(a);
    RemoveAddressSafe(w, a, i);
    SameVmsStep(w, c.Now());
    SameRowsStep(w, c.Now());
    RunGrows(h, es, c.Now(), Call);
  }

  /** Enlarging a disk that may be no volume's. */
  method EnlargeRoot(c: Cloud, m: VmId, size: nat) returns (r: Outcome)
    requires c.Valid() && RootSize(c.Now(), m) <= size
    modifies c
    ensures Extends(old(c.Past()), c.Past())
    ensures c.Valid()
    ensures c.Now() == old(c.Now()).(slots := c.slots) && c.slots.Keys == old(c.slots).Keys
    ensures forall p :: p in c.slots && p != Slot(m, Virtio(0)) ==> c.slots[p] == old(c.slots)[p]
    ensures r.Ok? ==> RootSize(c.Now(), m) == size
    ensures Managed(old(c.trouble), old(c.unrecorded), c, r, Slot(m, Virtio(0)) in old(c.slots))
  {
    hide Safe, Step, VmsStep;
    ghost var h, es, w := c.history, c.events, c.Now();
    r := c.ResizeDisk(Slot(m, Virtio(0)), size);
    if c.Now() != w {
      AnyResizeSafe(w, Slot(m, Virtio(0)), size);
    }
    SameVmsStep(w, c.Now());
    SameRowsStep(w, c.Now());
    RunGrows(h, es, c.Now(), Call);
  }

  /** Uploading the seed image of a live instance, which replaces none. */
  method UploadSeed(c: Cloud, i: InstanceId) returns (r: Outcome)
    requires c.Valid() && i in c.instances && LiveInstance(c.instances[i]) && i !in c.seeds
    modifies c
    ensures Extends(old(c.Past()), c.Past())
    ensures c.Valid()
    ensures c.Now() == old(c.Now()) || c.Now() == old(c.Now()).(seeds := old(c.seeds) + {i})
    ensures r.Ok? ==> c.Now() == old(c.Now()).(seeds := old(c.seeds) + {i})
    ensures Managed(old(c.trouble), old(c.unrecorded), c, r, true)
  {
    hide Safe, Step, VmsStep;
    ghost var h, es, w := c.history, c.events, c.Now();
    r := c.UploadIso(i);
    AddSeedSafe(w, i);
    SameVmsStep(w, c.Now());
    SameRowsStep(w, c.Now());
    RunGrows(h, es, c.Now(), Call);
  }

  /** Deleting one that is not recorded, or whose instance is being terminated. */
  method DropSeed(c: Cloud, i: InstanceId) returns (r: Outcome)
    requires c.Valid() && i in c.instances
    requires !c.instances[i].seed || c.instances[i].pending == Some(Terminate)
    modifies c
    ensures Extends(old(c.Past()), c.Past())
    ensures c.Valid()
    ensures c.Now() == old(c.Now()) || c.Now() == old(c.Now()).(seeds := old(c.seeds) - {i})
    ensures r.Ok? ==> c.Now() == old(c.Now()).(seeds := old(c.seeds) - {i})
    ensures Managed(old(c.trouble), old(c.unrecorded), c, r, i in old(c.seeds))
  {
    hide Safe, Step, VmsStep;
    ghost var h, es, w := c.history, c.events, c.Now();
    r := c.DeleteIso(i);
    RemoveSeedSafe(w, i);
    SameVmsStep(w, c.Now());
    SameRowsStep(w, c.Now());
    RunGrows(h, es, c.Now(), Call);
  }
}
