/** The three systems the service talks to, as one object: the database pool, the
    hypervisor and the address manager. Each method is one call. A call takes full
    effect or none, and may fail either way, its reply lost or the process dead; a few may
    also be answered well and have done nothing. */
module Backends {
  import opened Types
  import opened CloudState
  import opened History

  class Cloud {
    const site: Site

    // the database
    var volumes: map<VolumeId, Volume>
    var instances: map<InstanceId, Instance>
    var quarantine: set<VmId>

    // the hypervisor
    var vms: map<VmId, Owner>
    var slots: map<Slot, Disk>

    // the address manager: which instance an address's description names
    var addresses: map<AddressId, InstanceId>

    // the image storage: which instances' seed images it holds
    var seeds: set<InstanceId>

    /** Bookkeeping of the proof: the physical disk each volume was first given. */
    var bound: map<VolumeId, DiskIdent>

    /** Every state there has been, one entry for each call that may have changed it. */
    ghost var history: seq<World>

    /** What each of those calls was. */
    ghost var events: seq<Event>

    /** How many calls have failed so far, lost their reply, done nothing, or met a guest that
        held on. */
    ghost var trouble: nat

    /** How many of them were to record how an attempt had ended, and did not. */
    ghost var unrecorded: nat

    ghost function Now(): World
      reads this
    {
      World(site, volumes, instances, quarantine, vms, slots, addresses, seeds, bound)
    }

    /** What has happened so far. */
    ghost function Past(): Log
      reads this`history, this`events
    {
      Log(history, events)
    }

    /** The calls so far make a run, and it has led to the present state. */
    ghost predicate Valid()
      reads this
    {
      && |history| > 0 && history[|history| - 1] == Now()
      && Run(history, events) && Safe(Now())
    }

    /** One more state, and the call that led to it. */
    ghost predicate Noted(h: seq<World>, es: seq<Event>, e: Event)
      reads this
    {
      history == h + [Now()] && events == es + [e]
    }

    /** A call that could be answered fails only with trouble, nobody dies of anything else, and
        there is none if it succeeds. */
    ghost predicate Answered(before: nat, r: Outcome, possible: bool)
      reads this`trouble
    {
      && (r.Ok? || CallFailed(r))
      && (if r.Ok? then trouble == before
          else before <= trouble && (possible || r == Err(Crash) ==> before < trouble))
    }

    /** The same of a call that may also be answered well without having done anything, which only
        looking again tells. */
    ghost predicate Alleged(before: nat, r: Outcome, possible: bool, done: bool)
      reads this`trouble
    {
      if r.Ok? && !done then possible && before < trouble else Answered(before, r, possible)
    }

    /** An empty cloud beside VMs somebody else made. */
    constructor (site: Site, foreign: map<VmId, Owner>, disks: map<Slot, Disk>)
      requires SiteOK(site)
      requires HypervisorOK(World(site, map[], map[], {}, foreign, disks, map[], {}, map[]))
      requires forall m :: m in foreign ==> foreign[m] == ForeignVm
      ensures Valid() && this.site == site
      ensures Now() == World(site, map[], map[], {}, foreign, disks, map[], {}, map[])
    {
      this.site := site;
      volumes, instances, quarantine := map[], map[], {};
      vms, slots, addresses, seeds, bound := foreign, disks, map[], {}, map[];
      history := [World(site, map[], map[], {}, foreign, disks, map[], {}, map[])];
      events := [Call];
      trouble, unrecorded := 0, 0;
      new;
      EmptyIsSafe(Now());
    }

    /** Whether a call gets through, or its reply back. */
    method Fate() returns (r: Outcome)
      modifies this`trouble
      ensures (r.Ok? && trouble == old(trouble)) || (CallFailed(r) && trouble == old(trouble) + 1)
    {
      var fine: bool := *;
      r := Ok;
      if !fine {
        r := Failure();
        trouble := trouble + 1;
      }
    }

    /** Something looked up outside the model: an image, a storage tier, an address range. */
    method LookUp() returns (found: bool)
      modifies this`trouble
      ensures if found then trouble == old(trouble) else trouble > old(trouble)
    {
      found := *;
      if !found {
        trouble := trouble + 1;
      }
    }

    // ------------------------------------------------------------- hypervisor

    /** The keys of a VM and the names of the disks under them. */
    method VmConfig(m: VmId) returns (config: map<Key, DiskName>, r: Outcome)
      modifies this`trouble
      ensures r.Ok? ==> m in vms && ConfigOf(m, config)
      ensures Answered(old(trouble), r, m in vms) && (r.Ok? ==> trouble == old(trouble))
    {
      config := map[];
      r := Fate();
      if r.Ok? && m !in vms {
        r := Err(Failed);
      } else if r.Ok? {
        config := map p | p in slots && p.vm == m :: p.key := slots[p].name;
        forall k | Slot(m, k) in slots ensures k in config {
          assert Slot(m, k).key == k;
        }
      }
    }

    ghost predicate ConfigOf(m: VmId, config: map<Key, DiskName>)
      reads this
    {
      && (forall k :: k in config <==> Slot(m, k) in slots)
      && (forall k :: k in config ==> config[k] == slots[Slot(m, k)].name)
    }

    /** Whose VM it is, as its description says. */
    method VmDescription(m: VmId) returns (owner: Owner, r: Outcome)
      modifies this`trouble
      ensures r.Ok? ==> m in vms && owner == vms[m]
      ensures Answered(old(trouble), r, m in vms)
    {
      owner := ForeignVm;
      r := Fate();
      if r.Ok? && m !in vms {
        r := Err(Failed);
      } else if r.Ok? {
        owner := vms[m];
      }
    }

    /** The VMs of the cloud pool. */
    method ListVms() returns (listed: set<VmId>, r: Outcome)
      modifies this`trouble
      ensures r.Ok? ==> listed == vms.Keys - site.outside
      ensures Answered(old(trouble), r, true) && (r.Ok? ==> trouble == old(trouble))
    {
      listed := vms.Keys - site.outside;
      r := Fate();
    }

    /** A disk's real size, if its storage holds a disk of that name. */
    method DiskSize(name: DiskName) returns (size: Option<nat>, r: Outcome)
      modifies this`trouble
      ensures r.Ok? && size.Some? ==> exists p :: p in slots && slots[p].name == name && slots[p].size == size.value
      ensures r.Ok? && size.None? ==> NameAbsent(Now(), name)
      ensures Answered(old(trouble), r, true)
    {
      size := None;
      r := Fate();
      if p :| p in slots && slots[p].name == name {
        size := Some(slots[p].size);
      }
    }

    /** The size a VM's config gives for its root disk, 0 if it names none. */
    method RootDiskSize(m: VmId) returns (size: nat, r: Outcome)
      modifies this`trouble
      ensures r.Ok? ==> m in vms && size == RootSize(Now(), m)
      ensures Answered(old(trouble), r, m in vms)
    {
      size := if Slot(m, Virtio(0)) in slots then slots[Slot(m, Virtio(0))].size else 0;
      r := Fate();
      if r.Ok? && m !in vms {
        r := Err(Failed);
      }
    }

    /** Whether the guest still has to take or release a key; no state of ours decides it. */
    method PendingKey(m: VmId, key: Key) returns (waiting: bool, r: Outcome)
      modifies this
      ensures Noted(old(history), old(events), if r.Ok? then GuestShown(m, key, waiting) else Call)
      ensures Now() == old(Now()) && unrecorded == old(unrecorded)
      ensures if r.Ok? && waiting then trouble > old(trouble) else Answered(old(trouble), r, true)
    {
      waiting := *;
      r := Fate();
      if waiting {
        trouble := trouble + 1;
      }
      history, events := history + [Now()], events + [if r.Ok? then GuestShown(m, key, waiting) else Call];
    }

    /** Whether a listing just read shows the VM running; no state of ours decides it. */
    method ShowsRunning(m: VmId) returns (running: bool)
      modifies this
      ensures Noted(old(history), old(events), Shown(m, running)) && Now() == old(Now())
      ensures trouble == old(trouble) && unrecorded == old(unrecorded)
    {
      running := *;
      history, events := history + [Now()], events + [Shown(m, running)];
    }

    /** Starting, stopping or rebooting a VM. */
    method PowerVm(m: VmId, op: PowerOp) returns (r: Outcome)
      modifies this
      ensures Noted(old(history), old(events), Powered(m, op)) || (Noted(old(history), old(events), Call) && !r.Ok?)
      ensures Now() == old(Now()) && unrecorded == old(unrecorded)
      ensures Answered(old(trouble), r, true)
    {
      var e := Call;
      r := Fate();
      if r.Ok? {
        e := Powered(m, op);
        r := Fate();
      }
      history, events := history + [Now()], events + [e];
    }

    /** Whether a VM starts with the host. */
    method SetStartsWithHost(m: VmId, starts: bool) returns (r: Outcome)
      modifies this
      ensures || Noted(old(history), old(events), StartsWithHost(m, starts))
              || (Noted(old(history), old(events), Call) && !r.Ok?)
      ensures Now() == old(Now()) && unrecorded == old(unrecorded)
      ensures Answered(old(trouble), r, true)
    {
      var e := Call;
      r := Fate();
      if r.Ok? {
        e := StartsWithHost(m, starts);
        r := Fate();
      }
      history, events := history + [Now()], events + [e];
    }

    /** move_disk. The disk is renamed at its new VM, to a name no live row records. */
    method MoveDisk(src: Slot, dst: Slot) returns (r: Outcome)
      modifies this
      ensures Noted(old(history), old(events), Call) && unrecorded == old(unrecorded)
      ensures Now() == old(Now()) || DiskMoved(old(Now()), Now(), src, dst)
      ensures Alleged(old(trouble), r, old(src in slots && dst !in slots && dst.vm in vms), Now() != old(Now()))
    {
      r := Fate();
      if r.Ok? {
        r := Err(Failed);
        if src in slots && dst !in slots && dst.vm in vms {
          var idle: bool := *;
          if idle {
            trouble := trouble + 1;
          } else {
            var name := NewName();
            slots := (slots - {src})[dst := slots[src].(name := name)];
          }
          r := Fate();
        }
      }
      history, events := history + [Now()], events + [Call];
    }

    /** Making a disk at a plugged key of a VM. */
    method AllocateDisk(p: Slot, size: nat) returns (r: Outcome)
      modifies this
      ensures Noted(old(history), old(events), Call) && unrecorded == old(unrecorded)
      ensures Now() == old(Now()) || DiskMade(old(Now()), Now(), p, size)
      ensures Alleged(old(trouble), r, old(p !in slots && p.vm in vms), Now() != old(Now()))
    {
      r := Fate();
      if r.Ok? {
        r := Err(Failed);
        if p !in slots && p.vm in vms {
          var idle: bool := *;
          if idle {
            trouble := trouble + 1;
          } else {
            var name := NewName();
            var ident := NewIdent();
            slots := slots[p := Disk(name, ident, size)];
          }
          r := Fate();
        }
      }
      history, events := history + [Now()], events + [Call];
    }

    /** Plugging an unused disk of a VM in under a free key. */
    method PlugDisk(m: VmId, key: Key, name: DiskName) returns (r: Outcome)
      modifies this
      ensures Noted(old(history), old(events), Call) && unrecorded == old(unrecorded)
      ensures Now() == old(Now()) || DiskPlugged(old(Now()), Now(), m, key, name)
      ensures r.Ok? ==> DiskPlugged(old(Now()), Now(), m, key, name)
      ensures Answered(old(trouble), r, old(Slot(m, key) !in slots && UnusedOn(slots, m, name)))
    {
      r := Fate();
      if r.Ok? {
        r := Err(Failed);
        if Slot(m, key) !in slots {
          if src :| src in slots && src.vm == m && src.key.Unused? && slots[src].name == name {
            slots := (slots - {src})[Slot(m, key) := slots[src]];
            r := Fate();
          }
        }
      }
      history, events := history + [Now()], events + [Call];
    }

    /** Unplugging a disk into a free unused key. A running guest may hold on to
        the disk, in which case the call succeeds, and the config may show the change as
        made already; only the pending key tells. */
    method UnlinkDisk(m: VmId, key: Key) returns (r: Outcome)
      modifies this
      ensures Noted(old(history), old(events), Call) && unrecorded == old(unrecorded)
      ensures Now() == old(Now()) || DiskUnplugged(old(Now()), Now(), m, key)
      ensures Alleged(old(trouble), r, Slot(m, key) in old(slots), DiskUnplugged(old(Now()), Now(), m, key))
    {
      r := Fate();
      if r.Ok? {
        r := Err(Failed);
        if Slot(m, key) in slots {
          var held, shown: bool := *, *;
          if !held || shown {
            var n := FreeUnused(m);
            slots := (slots - {Slot(m, key)})[Slot(m, Unused(n)) := slots[Slot(m, key)]];
            assert UnpluggedTo(old(Now()), Now(), Slot(m, key), n);
          }
          r := Fate();
          if held && !shown {
            trouble := trouble + 1;
          }
        }
      }
      history, events := history + [Now()], events + [Call];
    }

    /** Unlinking with force destroys the disk on its storage. */
    method UnlinkAndDestroy(p: Slot) returns (r: Outcome)
      modifies this
      ensures Noted(old(history), old(events), Call) && unrecorded == old(unrecorded)
      ensures Now() == old(Now()) || (p in old(slots) && Now() == DestroyDisk(old(Now()), p))
      ensures Alleged(old(trouble), r, p in old(slots), Now() != old(Now()))
    {
      r := Fate();
      if r.Ok? {
        r := Err(Failed);
        if p in slots {
          var idle: bool := *;
          if idle {
            trouble := trouble + 1;
          } else {
            slots := slots - {p};
          }
          r := Fate();
        }
      }
      history, events := history + [Now()], events + [Call];
    }

    /** Only a plugged disk can be resized. */
    method ResizeDisk(p: Slot, size: nat) returns (r: Outcome)
      modifies this
      ensures Noted(old(history), old(events), Call) && unrecorded == old(unrecorded)
      ensures Now() == old(Now()) || (p in old(slots) && Now() == ResizeTo(old(Now()), p, size))
      ensures r.Ok? ==> p in old(slots) && Plugged(p.key) && Now() == ResizeTo(old(Now()), p, size)
      ensures Answered(old(trouble), r, p in old(slots) && Plugged(p.key))
    {
      r := Fate();
      if r.Ok? {
        r := Err(Failed);
        if p in slots && Plugged(p.key) {
          slots := slots[p := slots[p].(size := size)];
          r := Fate();
        }
      }
      history, events := history + [Now()], events + [Call];
    }

    /** Making a VM; an instance's comes with a root disk and a CD. `taken` is the
        answer that there is a VM of that number already. */
    method CreateVm(m: VmId, owner: Owner) returns (r: Outcome, taken: bool)
      modifies this
      ensures Noted(old(history), old(events), Call) && unrecorded == old(unrecorded)
      ensures Now() == old(Now()) || VmMade(old(Now()), Now(), m, owner)
      ensures r.Ok? ==> VmMade(old(Now()), Now(), m, owner)
      ensures taken ==> !r.Ok? && m in old(vms) && Now() == old(Now())
      ensures Answered(old(trouble), r, m !in old(vms)) && (r.Ok? || taken || old(trouble) < trouble)
    {
      taken := false;
      r := Fate();
      if r.Ok? {
        if m in vms {
          taken, r := true, Err(Failed);
        } else {
          var disks := NewVmDisks(m, owner);
          vms := vms[m := owner];
          slots := slots + disks;
          assert Now() == AddVm(old(Now()), m, owner, disks);
          r := Fate();
        }
      }
      history, events := history + [Now()], events + [Call];
    }

    method NewVmDisks(m: VmId, owner: Owner) returns (disks: map<Slot, Disk>)
      ensures FreshDisks(Now(), m, disks) && (owner.HolderVm? ==> disks == map[])
    {
      disks := map[];
      if owner.InstanceVm? {
        var root := NewName();
        var cd := AnotherName(root);
        var rootIdent := NewIdent();
        var cdIdent := AnotherIdent(rootIdent);
        var size := AnyNat();
        disks := map[
          Slot(m, Virtio(0)) := Disk(root, rootIdent, size),
          Slot(m, Ide(2)) := Disk(cd, cdIdent, 0)];
      }
    }

    /** Deleting a VM destroys every disk it holds. */
    method DeleteVm(m: VmId) returns (r: Outcome)
      modifies this
      ensures Noted(old(history), old(events), Call) && unrecorded == old(unrecorded)
      ensures Now() == old(Now()) || (m in old(vms) && Now() == RemoveVm(old(Now()), m))
      ensures r.Ok? ==> m in old(vms) && Now() == RemoveVm(old(Now()), m)
      ensures Answered(old(trouble), r, m in old(vms))
    {
      r := Fate();
      if r.Ok? {
        r := Err(Failed);
        if m in vms {
          vms := vms - {m};
          slots := map p | p in slots && p.vm != m :: slots[p];
          r := Fate();
        }
      }
      history, events := history + [Now()], events + [Call];
    }

    // -------------------------------------------------------- address manager

    method AddressesOf(i: InstanceId) returns (found: set<AddressId>, r: Outcome)
      modifies this`trouble
      ensures r.Ok? ==> found == set a | a in addresses && addresses[a] == i
      ensures Answered(old(trouble), r, true)
    {
      found := set a | a in addresses && addresses[a] == i;
      r := Fate();
    }

    method AllocateAddress(i: InstanceId) returns (a: AddressId, r: Outcome)
      modifies this
      ensures Noted(old(history), old(events), Call) && unrecorded == old(unrecorded)
      ensures Now() == old(Now()) || AddressTaken(old(Now()), Now(), a, i)
      ensures r.Ok? ==> AddressTaken(old(Now()), Now(), a, i)
      ensures Answered(old(trouble), r, true)
    {
      a := 0;
      r := Fate();
      if r.Ok? {
        var given := set j | j in instances && instances[j].address.Some? :: instances[j].address.value;
        SomeNatOutside(addresses.Keys + given);
        a :| a !in addresses.Keys + given;
        assert FreshAddress(Now(), a) by {
          forall j | j in instances ensures instances[j].address != Some(a) {
            assert instances[j].address.Some? ==> instances[j].address.value in given;
          }
        }
        addresses := addresses[a := i];
        r := Fate();
      }
      history, events := history + [Now()], events + [Call];
    }

    /** Releasing an address that is gone already is no error. */
    method ReleaseAddress(a: AddressId) returns (r: Outcome)
      modifies this
      ensures Noted(old(history), old(events), Call) && unrecorded == old(unrecorded)
      ensures Now() == old(Now()) || Now() == old(Now()).(addresses := old(addresses) - {a})
      ensures r.Ok? ==> Now() == old(Now()).(addresses := old(addresses) - {a})
      ensures Answered(old(trouble), r, true)
    {
      r := Fate();
      if r.Ok? {
        addresses := addresses - {a};
        r := Fate();
      }
      history, events := history + [Now()], events + [Call];
    }

    // ------------------------------------------------------------ image storage

    /** The instances whose seed images the storage lists. */
    method ListSeeds() returns (found: set<InstanceId>, r: Outcome)
      modifies this`trouble
      ensures r.Ok? ==> found == seeds
      ensures Answered(old(trouble), r, true)
    {
      found := seeds;
      r := Fate();
    }

    /** Putting an image there under the name of its instance. */
    method UploadIso(i: InstanceId) returns (r: Outcome)
      modifies this
      ensures Noted(old(history), old(events), Call) && unrecorded == old(unrecorded)
      ensures Now() == old(Now()) || Now() == old(Now()).(seeds := old(seeds) + {i})
      ensures r.Ok? ==> Now() == old(Now()).(seeds := old(seeds) + {i})
      ensures Answered(old(trouble), r, true)
    {
      r := Fate();
      if r.Ok? {
        seeds := seeds + {i};
        r := Fate();
      }
      history, events := history + [Now()], events + [Call];
    }

    method DeleteIso(i: InstanceId) returns (r: Outcome)
      modifies this
      ensures Noted(old(history), old(events), Call) && unrecorded == old(unrecorded)
      ensures Now() == old(Now()) || Now() == old(Now()).(seeds := old(seeds) - {i})
      ensures r.Ok? ==> Now() == old(Now()).(seeds := old(seeds) - {i})
      ensures Answered(old(trouble), r, i in old(seeds))
    {
      r := Fate();
      if r.Ok? {
        r := Err(Failed);
        if i in seeds {
          seeds := seeds - {i};
          r := Fate();
        }
      }
      history, events := history + [Now()], events + [Call];
    }

    // --------------------------------------------------------------- database

    method ReadInstance(i: InstanceId) returns (inst: Option<Instance>, r: Outcome)
      modifies this`trouble
      ensures r.Ok? ==> i in instances && inst == Some(instances[i])
      ensures Answered(old(trouble), r, i in instances)
    {
      inst := None;
      r := Fate();
      if r.Ok? && i !in instances {
        r := Err(Failed);
      } else if r.Ok? {
        inst := Some(instances[i]);
      }
    }

    /** The live volume whose recorded disk has this name. */
    method VolumeByName(name: DiskName) returns (found: Option<VolumeId>, r: Outcome)
      modifies this`trouble
      ensures r.Ok? && found.Some? ==>
                && found.value in volumes && LiveVolume(volumes[found.value])
                && volumes[found.value].loc.name == Some(name)
      ensures r.Ok? && found.None? ==>
                forall id :: id in volumes && LiveVolume(volumes[id]) ==> volumes[id].loc.name != Some(name)
      ensures Answered(old(trouble), r, true)
    {
      found := None;
      r := Fate();
      if id :| id in volumes && LiveVolume(volumes[id]) && volumes[id].loc.name == Some(name) {
        found := Some(id);
      }
    }

    /** The live volumes recorded on a VM or on their way there. */
    method VolumesOnVm(m: VmId) returns (found: set<VolumeId>, r: Outcome)
      modifies this`trouble
      ensures r.Ok? ==> found == set id | id in volumes && OnOrToVm(volumes[id], m)
      ensures Answered(old(trouble), r, true)
    {
      found := set id | id in volumes && OnOrToVm(volumes[id], m);
      r := Fate();
    }

    method VolumesOfInstance(i: InstanceId) returns (found: set<VolumeId>, r: Outcome)
      modifies this`trouble
      ensures r.Ok? ==> found == set id | id in volumes && volumes[id].instance == Some(i)
      ensures Answered(old(trouble), r, true)
    {
      found := set id | id in volumes && volumes[id].instance == Some(i);
      r := Fate();
    }

    /** Writing where a volume's disk is. */
    method RecordLocation(id: VolumeId, l: Location) returns (r: Outcome)
      requires HypervisorOK(Now()) && id in volumes
      modifies this
      ensures Noted(old(history), old(events), Call) && unrecorded == old(unrecorded)
      ensures Now() == old(Now()) || Now() == Record(old(Now()), id, l)
      ensures r.Ok? ==> Now() == Record(old(Now()), id, l)
      ensures Answered(old(trouble), r, true)
    {
      hide HypervisorOK, Bind;
      r := Fate();
      if r.Ok? {
        var bound' := Binding(id, l);
        bound, volumes := bound', volumes[id := Rows.RecordLocation(volumes[id], l)];
        r := Fate();
      }
      history, events := history + [Now()], events + [Call];
    }

    /** Which disk the volume is given with this location, if it has none yet. */
    method Binding(id: VolumeId, l: Location) returns (b: map<VolumeId, DiskIdent>)
      requires HypervisorOK(Now())
      ensures b == Bind(Now(), id, l)
    {
      b := bound;
      if l.name.Some? && id !in bound {
        if p :| p in slots && slots[p].name == l.name.value {
          b := bound[id := slots[p].ident];
        }
      }
    }

    /** One guarded UPDATE of a volume's row. If it was to record how an attempt ended
        and nothing was written, the attempt goes unrecorded. */
    method UpdateVolume(id: VolumeId, update: Volume -> Volume, e: Event) returns (r: Outcome)
      requires id in volumes
      modifies this
      ensures || (Noted(old(history), old(events), e) && unrecorded == old(unrecorded)
                  && Now() == SetVolume(old(Now()), id, update(old(volumes)[id])))
              || (Noted(old(history), old(events), Call) && Now() == old(Now()) && !r.Ok?
                  && unrecorded == old(unrecorded) + if e.Call? then 0 else 1)
      ensures Answered(old(trouble), r, true)
    {
      r := Fate();
      if r.Ok? {
        volumes := volumes[id := update(volumes[id])];
        history, events := history + [Now()], events + [e];
        r := Fate();
      } else {
        history, events := history + [Now()], events + [Call];
        unrecorded := unrecorded + if e.Call? then 0 else 1;
      }
    }

    /** The same of an instance's row. */
    method UpdateInstance(i: InstanceId, update: Instance -> Instance, e: Event) returns (r: Outcome)
      requires i in instances
      modifies this
      ensures || (Noted(old(history), old(events), e) && unrecorded == old(unrecorded)
                  && Now() == SetInstance(old(Now()), i, update(old(instances)[i])))
              || (Noted(old(history), old(events), Call) && Now() == old(Now()) && !r.Ok?
                  && unrecorded == old(unrecorded) + if e.Call? then 0 else 1)
      ensures Answered(old(trouble), r, true)
    {
      r := Fate();
      if r.Ok? {
        instances := instances[i := update(instances[i])];
        history, events := history + [Now()], events + [e];
        r := Fate();
      } else {
        history, events := history + [Now()], events + [Call];
        unrecorded := unrecorded + if e.Call? then 0 else 1;
      }
    }

    // ------------------------------------------------------------ fresh names

    method NewName() returns (name: DiskName)
      ensures FreshName(Now(), name)
    {
      var used := UsedNames();
      SomeNatOutside(used);
      name :| name !in used;
    }

    method AnotherName(other: DiskName) returns (name: DiskName)
      ensures FreshName(Now(), name) && name != other
    {
      var used := UsedNames();
      SomeNatOutside(used + {other});
      name :| name !in used + {other};
    }

    method UsedNames() returns (used: set<DiskName>)
      ensures forall name :: name !in used ==> FreshName(Now(), name)
    {
      var onDisk := set p | p in slots :: slots[p].name;
      var recorded :=
        set id | id in volumes && LiveVolume(volumes[id]) && volumes[id].loc.name.Some? :: volumes[id].loc.name.value;
      used := onDisk + recorded;
      forall name | name !in used ensures FreshName(Now(), name) {
        forall p | p in slots ensures slots[p].name != name {
          assert slots[p].name in onDisk;
        }
        forall id | id in volumes && LiveVolume(volumes[id]) ensures volumes[id].loc.name != Some(name) {
          if volumes[id].loc.name.Some? {
            assert volumes[id].loc.name.value in recorded;
          }
        }
      }
    }

    method NewIdent() returns (ident: DiskIdent)
      ensures FreshIdent(Now(), ident)
    {
      var used := UsedIdents();
      SomeNatOutside(used);
      ident :| ident !in used;
    }

    method AnotherIdent(other: DiskIdent) returns (ident: DiskIdent)
      ensures FreshIdent(Now(), ident) && ident != other
    {
      var used := UsedIdents();
      SomeNatOutside(used + {other});
      ident :| ident !in used + {other};
    }

    method UsedIdents() returns (used: set<DiskIdent>)
      ensures forall ident :: ident !in used ==> FreshIdent(Now(), ident)
    {
      var onDisk := set p | p in slots :: slots[p].ident;
      used := onDisk + bound.Values;
      forall ident | ident !in used ensures FreshIdent(Now(), ident) {
        forall p | p in slots ensures slots[p].ident != ident {
          assert slots[p].ident in onDisk;
        }
      }
    }

    /** The number of an unused key the VM does not have. */
    method FreeUnused(m: VmId) returns (n: nat)
      ensures Slot(m, Unused(n)) !in slots
    {
      var taken := set p | p in slots && p.key.Unused? :: p.key.n;
      SomeNatOutside(taken);
      n :| n !in taken;
      assert Slot(m, Unused(n)) in slots ==> Slot(m, Unused(n)).key.n in taken;
    }
  }

  /** An empty cloud beside other people's VMs is a safe one to start from. */
  lemma EmptyIsSafe(w: World)
    requires SiteOK(w.site) && HypervisorOK(w) && forall m :: m in w.vms ==> w.vms[m] == ForeignVm
    requires w == World(w.site, map[], map[], {}, w.vms, w.slots, map[], {}, map[])
    ensures Safe(w) && WithinLimits(w)
  {
    assert LiveVolumeIds(w) == {};
    NobodyHoldsAnything(w.site.limits);
  }

  /** A disk of this name is under an unused key of the VM. */
  ghost predicate UnusedOn(slots: map<Slot, Disk>, m: VmId, name: DiskName) {
    exists src :: src in slots && src.vm == m && src.key.Unused? && slots[src].name == name
  }

  predicate CallFailed(r: Outcome) { r == Err(Failed) || r == Err(Crash) }

  predicate OnOrToVm(v: Volume, m: VmId) {
    LiveVolume(v) && (v.loc.vmid == Some(m) || v.loc.moveVmid == Some(m))
  }

  method Failure() returns (r: Outcome)
    ensures CallFailed(r)
  {
    var dead: bool := *;
    r := Err(if dead then Crash else Failed);
  }

  method AnyNat() returns (n: nat) {
    var k: int := *;
    n := if k < 0 then 0 else k;
  }

  lemma SomeNatOutside(s: set<nat>)
    ensures exists n: nat :: n !in s
  {
    var n := BoundOf(s);
    assert n !in s;
  }

  ghost function BoundOf(s: set<nat>): (n: nat)
    ensures forall m :: m in s ==> m < n
  {
    if s == {} then 0 else
      var x :| x in s;
      var rest := BoundOf(s - {x});
      assert forall m :: m in s ==> m == x || m in s - {x};
      if x < rest then rest else x + 1
  }

  // ----------------------------------------- what each hypervisor call promises

  ghost predicate DiskMoved(w: World, w': World, src: Slot, dst: Slot) {
    && src in w.slots && dst !in w.slots && dst.vm in w.vms && dst in w'.slots
    && FreshName(w, w'.slots[dst].name)
    && w' == MoveTo(w, src, dst, w'.slots[dst].name)
  }

  ghost predicate DiskMade(w: World, w': World, p: Slot, size: nat) {
    && p !in w.slots && p.vm in w.vms && p in w'.slots && w'.slots[p].size == size
    && FreshName(w, w'.slots[p].name) && FreshIdent(w, w'.slots[p].ident)
    && w' == AddDisk(w, p, w'.slots[p])
  }

  ghost predicate DiskPlugged(w: World, w': World, m: VmId, key: Key, name: DiskName) {
    && Slot(m, key) !in w.slots
    && exists src :: src in w.slots && src.vm == m && src.key.Unused? && w.slots[src].name == name
                     && w' == Rekey(w, src, key)
  }

  ghost predicate DiskUnplugged(w: World, w': World, m: VmId, key: Key) {
    Slot(m, key) in w.slots && exists n: nat :: UnpluggedTo(w, w', Slot(m, key), n)
  }

  ghost predicate UnpluggedTo(w: World, w': World, src: Slot, n: nat) {
    src in w.slots && Slot(src.vm, Unused(n)) !in w.slots && w' == Rekey(w, src, Unused(n))
  }

  ghost predicate VmMade(w: World, w': World, m: VmId, owner: Owner) {
    && m !in w.vms
    && exists disks ::
         FreshDisks(w, m, disks) && (owner.HolderVm? ==> disks == map[]) && w' == AddVm(w, m, owner, disks)
  }

  ghost predicate AddressTaken(w: World, w': World, a: AddressId, i: InstanceId) {
    FreshAddress(w, a) && w' == w.(addresses := w.addresses[a := i])
  }
}
