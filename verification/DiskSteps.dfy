/** Finding, moving and unplugging a volume's disk: the steps every volume action
    is made of. Others may act between any two calls, any call may be the last. */
module DiskSteps {
  import opened Types
  import opened CloudState
  import opened DiskLemmas
  import opened RowLemmas
  import opened Progress
  import opened History
  import opened Backends
  import opened Steps
  import opened Interference

  /** What `Locate` establishes: the disk is exactly where the row says and on no
      way elsewhere, or there is no disk and no blank one of this volume's either. */
  ghost predicate Found(w: World, id: VolumeId)
    requires id in w.volumes
  {
    var l := w.volumes[id].loc;
    if l.name.Some? then AtSlot(w, l) && l.moveVmid.None? else IntentSpent(w, l)
  }

  /** Nobody counts on the disk being plugged in where it is, nor will meanwhile. */
  predicate Loose(w: World, id: VolumeId)
    requires id in w.volumes
  {
    var v := w.volumes[id];
    || v.loc.vmid == Some(w.site.holder)
    || v.pending == Some(Create) || v.pending == Some(Attach) || v.pending == Some(Detach)
    || NamesLeaving(w, v)
  }

  lemma LooseNotSettled(w: World, id: VolumeId)
    requires Safe(w) && LiveRow(w, id) && Loose(w, id)
    ensures !SettledInUse(w, w.volumes[id])
  {
    hide HolderSlotsOK, HypervisorOK, Safe, DiskKept;
    var v := w.volumes[id];
    SafeVolume(w, id);
    if v.instance.Some? && v.instance.value in w.instances {
      SafeInstance(w, v.instance.value);
    }
  }

  /** Other people's requests leave all of this alone. */
  lemma RelyKeeps(w: World, w': World, id: VolumeId)
    requires Rely(w, w') && LiveRow(w, id)
    ensures LiveRow(w', id) && RowFollows(w.volumes[id], w'.volumes[id]) && w'.volumes[id].loc == w.volumes[id].loc
    ensures Found(w, id) ==> Found(w', id)
    ensures Loose(w, id) ==> Loose(w', id)
    ensures HolderReady(w) ==> HolderReady(w')
  {
    var v, v' := w.volumes[id], w'.volumes[id];
    assert RowFollows(v, v');
    if NamesLeaving(w, v) {
      assert InstanceFollows(w.instances[v.instance.value], w'.instances[v.instance.value]);
    }
  }

  /** Time for everybody else between two calls of the worker. */
  method Pause(c: Cloud, id: VolumeId, ghost w0: World)
    requires c.Valid() && Follows(w0, c.Now(), {id}) && LiveRow(c.Now(), id)
    modifies c
    ensures Extends(old(c.Past()), c.Past())
    ensures c.Valid() && Follows(w0, c.Now(), {id}) && Rely(old(c.Now()), c.Now())
    ensures c.trouble == old(c.trouble) && c.unrecorded == old(c.unrecorded)
    ensures c.slots == old(c.slots) && c.vms == old(c.vms) && c.bound == old(c.bound)
    ensures LiveRow(c.Now(), id) && RowFollows(old(c.volumes)[id], c.volumes[id])
    ensures c.volumes[id].loc == old(c.volumes)[id].loc
    ensures old(Found(c.Now(), id)) ==> Found(c.Now(), id)
    ensures old(Loose(c.Now(), id)) ==> Loose(c.Now(), id)
    ensures old(HolderReady(c.Now())) ==> HolderReady(c.Now())
  {
    hide Extends, Run, Follows, Found, Loose;
    Extending();
    ghost var w := c.Now();
    Others(c);
    RelyKeeps(w, c.Now(), id);
    FollowsOn(w0, w, c.Now(), {}, {id});
  }

  // ------------------------------------------------------------ reading configs

  /** The key under which a config holds the disk of this name. */
  method DiskKeyOf(config: map<Key, DiskName>, name: DiskName) returns (key: Option<Key>)
    ensures key.Some? ==> key.value in config && config[key.value] == name
    ensures key.None? ==> forall k :: k in config ==> config[k] != name
  {
    var rest := config.Keys;
    while rest != {}
      invariant rest <= config.Keys
      invariant forall k :: k in config && k !in rest ==> config[k] != name
      decreases |rest|
    {
      var k :| k in rest;
      if config[k] == name {
        return Some(k);
      }
      rest := rest - {k};
    }
    return None;
  }

  /** The first of the numbered keys that a config does not have. */
  method FreeKey(config: map<Key, DiskName>, numbered: nat -> Key, last: nat) returns (key: Option<Key>)
    ensures key.Some? ==> exists n: nat :: n <= last && key == Some(numbered(n)) && numbered(n) !in config
                                           && forall k: nat :: k < n ==> numbered(k) in config
    ensures key.None? <==> forall n: nat :: n <= last ==> numbered(n) in config
  {
    var n := 0;
    while n <= last
      invariant n <= last + 1
      invariant forall k: nat :: k < n ==> numbered(k) in config
    {
      if numbered(n) !in config {
        return Some(numbered(n));
      }
      n := n + 1;
    }
    return None;
  }

  // ------------------------------------------------------------------- locate

  /** With a move announced and the disk not at home, it has arrived under a name
      no live row records. */
  lemma NotHomeArrived(w: World, id: VolumeId)
    requires Safe(w) && LiveRow(w, id) && w.volumes[id].loc.name.Some? && w.volumes[id].loc.vmid.Some?
    requires w.volumes[id].loc.moveVmid.Some?
    requires var l := w.volumes[id].loc; forall k :: Slot(l.vmid.value, k) in w.slots ==>
               w.slots[Slot(l.vmid.value, k)].name != l.name.value
    ensures id in w.bound && Arrived(w, id, w.volumes[id].loc)
    ensures var l := w.volumes[id].loc; l.moveKey.Some? && Slot(l.moveVmid.value, l.moveKey.value) in w.slots
    ensures var l := w.volumes[id].loc;
            forall b :: LiveRow(w, b) ==>
                w.volumes[b].loc.name != Some(w.slots[Slot(l.moveVmid.value, l.moveKey.value)].name)
  {
    hide HolderSlotsOK, InstancesOK, Safe, NamingOK, VolumeShape, SettledInUse;
    var l := w.volumes[id].loc;
    SafeVolume(w, id);
    assert !AtHome(w, id, l);
    assert w.slots[Slot(l.moveVmid.value, l.moveKey.value)].name != l.name.value;
    NewNameIsFree(w, id, Slot(l.moveVmid.value, l.moveKey.value));
  }

  /** With no move announced and the disk not at home, a pending delete has destroyed it. */
  lemma NotHomeDestroyed(w: World, id: VolumeId)
    requires Safe(w) && LiveRow(w, id) && w.volumes[id].loc.name.Some? && w.volumes[id].loc.vmid.Some?
    requires w.volumes[id].loc.moveVmid.None?
    requires var l := w.volumes[id].loc; forall k :: Slot(l.vmid.value, k) in w.slots ==>
               w.slots[Slot(l.vmid.value, k)].name != l.name.value
    ensures id in w.bound && w.volumes[id].pending == Some(Delete) && Destroyed(w, id, w.volumes[id])
  {
    hide HolderSlotsOK, InstancesOK, Safe, NamingOK, VolumeShape, SettledInUse;
    SafeVolume(w, id);
    assert !AtHome(w, id, w.volumes[id].loc);
  }

  /** The disk of a row that records it is recorded on an existing volume's binding. */
  lemma RecordedIsClaimed(w: World, b: VolumeId, p: Slot)
    requires Safe(w) && LiveRow(w, b) && p in w.slots && w.volumes[b].loc.name == Some(w.slots[p].name)
    ensures Claimed(w, w.slots[p].ident)
  {
    NamedDiskIsOwn(w, b, p);
  }

  lemma ShapeOf(w: World, id: VolumeId)
    requires Safe(w) && LiveRow(w, id)
    ensures VolumeShape(w.volumes[id]) && LocationShape(w.site, w.volumes[id].loc)
    ensures w.volumes[id].state.Available? || w.volumes[id].state.InUse? ==> w.volumes[id].loc.name.Some?
    ensures id in w.bound <==> w.volumes[id].loc.name.Some?
  {
    hide HolderSlotsOK, InstancesOK, Safe, NamingOK, SettledInUse, DiskKept;
    SafeVolume(w, id);
  }

  /** The VMs a live row mentions all exist. */
  lemma PlacesExist(w: World, id: VolumeId)
    requires Safe(w) && LiveRow(w, id)
    ensures var l := w.volumes[id].loc;
            && (l.vmid.Some? ==> l.vmid.value in w.vms)
            && (l.moveVmid.Some? ==> l.moveVmid.value in w.vms)
            && (l.name.Some? ==> HolderReady(w))
  {
    hide HolderSlotsOK, InstancesOK, HypervisorOK, NamingOK, SettledInUse, VolumeShape, Safe;
    SafeVolume(w, id);
  }

  /** Whatever goes by this name is the volume's own disk. */
  ghost predicate OwnName(w: World, id: VolumeId, l: Location) {
    id in w.bound && l.name.Some? ==>
      forall p :: p in w.slots && w.slots[p].name == l.name.value ==> w.slots[p].ident == w.bound[id]
  }

  lemma RecordedIsOwn(w: World, id: VolumeId, l: Location)
    requires Safe(w) && LiveRow(w, id) && w.volumes[id].loc.name == l.name
    ensures OwnName(w, id, l)
  {
    hide Safe;
    if l.name.Some? {
      forall p | p in w.slots && w.slots[p].name == l.name.value
        ensures id in w.bound && w.slots[p].ident == w.bound[id]
      {
        NamedDiskIsOwn(w, id, p);
      }
    }
  }

  lemma ArrivedIsOwn(w: World, id: VolumeId, l: Location)
    requires Safe(w) && LiveRow(w, id) && id in w.bound && w.volumes[id].loc.name.Some?
    requires Arrived(w, id, w.volumes[id].loc)
    requires var from := w.volumes[id].loc;
             l.name == Some(w.slots[Slot(from.moveVmid.value, from.moveKey.value)].name)
    ensures OwnName(w, id, l)
  {
    hide Safe;
    SafeHypervisor(w);
  }

  /** Finding the disk again, wherever a crash has left it, and writing that down. It is
      reported missing only if a pending delete has destroyed it, and without trouble it
      is either found or that. */
  method Locate(c: Cloud, id: VolumeId, l: Location) returns (l': Location, r: Outcome)
    requires c.Valid() && LiveRow(c.Now(), id) && c.volumes[id].loc == l
    modifies c
    ensures Extends(old(c.Past()), c.Past())
    ensures c.Valid() && Follows(old(c.Now()), c.Now(), {id}) && LiveRow(c.Now(), id)
    ensures c.slots == old(c.slots) && c.vms == old(c.vms)
    ensures r.Ok? ==> c.volumes[id].loc == l' && Found(c.Now(), id) && (l.name.Some? ==> l'.name.Some?)
    ensures r == Err(DiskMissing) ==> l' == l && c.volumes[id].loc == l && id in c.bound && l.name.Some?
    ensures r == Err(DiskMissing) ==> c.volumes[id].pending == Some(Delete) && Destroyed(c.Now(), id, c.volumes[id])
    ensures r.Ok? || CallFailed(r) || r == Err(DiskMissing)
    ensures Accounted(old(c.trouble), old(c.unrecorded), c, r)
    ensures c.trouble == old(c.trouble) <==> r.Ok? || r == Err(DiskMissing)
    ensures r.Ok? ==> Received(old(c.Now()), l, l')
    ensures OwnName(c.Now(), id, l')
  {
    hide Extends, Safe, Run, Follows, Rely, Destroyed, Arrived, OwnName, IntentSpent;
    Extending();
    ghost var w0 := c.Now();
    FollowsSelf(w0, {id});
    l' := l;
    ShapeOf(c.Now(), id);
    PlacesExist(c.Now(), id);
    RecordedIsOwn(c.Now(), id, l);
    if l.vmid.Some? && l.name.Some? {
      Pause(c, id, w0);
      RecordedIsOwn(c.Now(), id, l);
      var config, read := c.VmConfig(l.vmid.value);
      if !read.Ok? {
        return l', read;
      }
      var key := DiskKeyOf(config, l.name.value);
      if key.Some? {
        if key == l.key && l.moveVmid.None? {
          return l', Ok;
        }
        Pause(c, id, w0);
        l' := Location(l.vmid, key, l.name, None, None);
        HomeSafe(c.Now(), id, key.value);
        r := WriteLocation(c, id, l', w0);
        RecordedIsOwn(c.Now(), id, l');
        return l', r;
      }
    }
    l', r := LocateElsewhere(c, id, l, w0);
  }

  /** A volume without a disk gets the blank one that waits at its announced slot, if any does. */
  ghost predicate Received(w: World, l: Location, l': Location) {
    l.name.None? ==>
      if IntentSpent(w, l) then l'.name.None?
      else l'.name.Some? && l'.vmid == l.moveVmid && l'.key == l.moveKey
  }

  lemma SameWaiting(w: World, w': World, l: Location)
    requires w'.site == w.site && w'.slots == w.slots && w'.bound == w.bound
    ensures IntentSpent(w', l) <==> IntentSpent(w, l)
  {
  }

  lemma NoneThere(w: World, l: Location)
    requires LocationShape(w.site, l) && l.name.None?
    requires l.moveVmid.Some? ==> Slot(l.moveVmid.value, l.moveKey.value) !in w.slots
    ensures IntentSpent(w, l)
  {
  }

  lemma ClaimedThere(w: World, l: Location)
    requires LocationShape(w.site, l) && l.name.None? && l.moveVmid.Some?
    requires Slot(l.moveVmid.value, l.moveKey.value) in w.slots
    requires Claimed(w, w.slots[Slot(l.moveVmid.value, l.moveKey.value)].ident)
    ensures IntentSpent(w, l)
  {
  }

  lemma BlankThere(w: World, id: VolumeId, l: Location, name: DiskName)
    requires Safe(w) && LiveRow(w, id) && w.volumes[id].loc == l && l.name.None? && l.moveVmid.Some?
    requires l.moveKey.Some? && Slot(l.moveVmid.value, l.moveKey.value) in w.slots
    requires w.slots[Slot(l.moveVmid.value, l.moveKey.value)].name == name
    requires forall b :: LiveRow(w, b) && b != id ==> w.volumes[b].loc.name != Some(name)
    ensures !IntentSpent(w, l)
  {
    hide Safe;
    ShapeOf(w, id);
    UnrecordedIsBlank(w, l.moveKey.value);
  }

  /** The disk is not on its recorded VM under its recorded name, if it has any. */
  ghost predicate NotHome(w: World, l: Location) {
    l.name.Some? && l.vmid.Some? ==>
      forall k :: Slot(l.vmid.value, k) in w.slots ==> w.slots[Slot(l.vmid.value, k)].name != l.name.value
  }

  /** Looking at the announced destination, if there is one. */
  method LocateElsewhere(c: Cloud, id: VolumeId, l: Location, ghost w0: World) returns (l': Location, r: Outcome)
    requires c.Valid() && Follows(w0, c.Now(), {id}) && LiveRow(c.Now(), id) && c.volumes[id].loc == l
    requires NotHome(c.Now(), l)
    modifies c
    ensures Extends(old(c.Past()), c.Past())
    ensures c.Valid() && Follows(w0, c.Now(), {id}) && LiveRow(c.Now(), id)
    ensures c.slots == old(c.slots) && c.vms == old(c.vms)
    ensures r.Ok? ==> c.volumes[id].loc == l' && Found(c.Now(), id) && (l.name.Some? ==> l'.name.Some?)
    ensures r == Err(DiskMissing) ==> l' == l && c.volumes[id].loc == l && id in c.bound && l.name.Some?
    ensures r == Err(DiskMissing) ==> c.volumes[id].pending == Some(Delete) && Destroyed(c.Now(), id, c.volumes[id])
    ensures r.Ok? || CallFailed(r) || r == Err(DiskMissing)
    ensures Accounted(old(c.trouble), old(c.unrecorded), c, r)
    ensures c.trouble == old(c.trouble) <==> r.Ok? || r == Err(DiskMissing)
    ensures r.Ok? ==> Received(old(c.Now()), l, l')
    ensures OwnName(c.Now(), id, l')
  {
    hide Extends, Safe, Run, Follows, Rely, Destroyed, Arrived, OwnName, HolderReady, RowFollows, IntentSpent;
    Extending();
    ghost var w := c.Now();
    l' := l;
    ShapeOf(c.Now(), id);
    PlacesExist(c.Now(), id);
    RecordedIsOwn(c.Now(), id, l);
    if l.moveVmid.Some? && l.moveKey.Some? {
      Pause(c, id, w0);
      RecordedIsOwn(c.Now(), id, l);
      var config, read := c.VmConfig(l.moveVmid.value);
      if !read.Ok? {
        return l', read;
      }
      if l.moveKey.value in config {
        SameWaiting(w, c.Now(), l);
        l', r := LocateArrived(c, id, l, config[l.moveKey.value], w0);
        return l', r;
      }
    }
    if l.name.None? {
      NoneThere(c.Now(), l);
      SameWaiting(w, c.Now(), l);
      return l', Ok;
    }
    assert l.moveVmid.None? by {
      if l.moveVmid.Some? {
        NotHomeArrived(c.Now(), id);
      }
    }
    NotHomeDestroyed(c.Now(), id);
    return l', Err(DiskMissing);
  }

  /** There is a disk at the announced destination: it is this volume's unless
      another live row records it. */
  method LocateArrived(c: Cloud, id: VolumeId, l: Location, name: DiskName, ghost w0: World)
    returns (l': Location, r: Outcome)
    requires c.Valid() && Follows(w0, c.Now(), {id}) && LiveRow(c.Now(), id) && c.volumes[id].loc == l
    requires l.moveVmid.Some? && l.moveKey.Some? && Slot(l.moveVmid.value, l.moveKey.value) in c.slots
    requires c.slots[Slot(l.moveVmid.value, l.moveKey.value)].name == name
    requires NotHome(c.Now(), l)
    modifies c
    ensures Extends(old(c.Past()), c.Past())
    ensures c.Valid() && Follows(w0, c.Now(), {id}) && LiveRow(c.Now(), id)
    ensures c.slots == old(c.slots) && c.vms == old(c.vms)
    ensures r.Ok? ==> c.volumes[id].loc == l' && Found(c.Now(), id) && (l.name.Some? ==> l'.name.Some?)
    ensures Managed(old(c.trouble), old(c.unrecorded), c, r, true)
    ensures r.Ok? ==> Received(old(c.Now()), l, l')
    ensures OwnName(c.Now(), id, l')
  {
    hide Extends, Safe, Run, Follows, Rely, Destroyed, Arrived, OwnName, HolderReady, RowFollows, IntentSpent;
    Extending();
    ghost var w := c.Now();
    l' := l;
    ShapeOf(c.Now(), id);
    Pause(c, id, w0);
    RecordedIsOwn(c.Now(), id, l);
    var other, read := c.VolumeByName(name);
    if !read.Ok? {
      return l', read;
    }
    if l.name.Some? {
      NotHomeArrived(c.Now(), id);
    }
    if other.None? || other.value == id {
      assert forall b :: LiveRow(c.Now(), b) && b != id ==> c.volumes[b].loc.name != Some(name) by {
        UnclaimedByOthers(c.Now(), id, name, other);
      }
      if l.name.None? {
        BlankThere(c.Now(), id, l, name);
        SameWaiting(w, c.Now(), l);
      }
      l', r := TakeArrived(c, id, l, name, w0);
      return l', r;
    }
    RecordedIsClaimed(c.Now(), other.value, Slot(l.moveVmid.value, l.moveKey.value));
    if l.name.None? {
      ClaimedThere(c.Now(), l);
      SameWaiting(w, c.Now(), l);
    }
    return l', Ok;
  }

  /** Recording the disk found at the announced destination as this volume's. */
  method TakeArrived(c: Cloud, id: VolumeId, l: Location, name: DiskName, ghost w0: World)
    returns (l': Location, r: Outcome)
    requires c.Valid() && Follows(w0, c.Now(), {id}) && LiveRow(c.Now(), id) && c.volumes[id].loc == l
    requires l.moveVmid.Some? && l.moveKey.Some? && Slot(l.moveVmid.value, l.moveKey.value) in c.slots
    requires c.slots[Slot(l.moveVmid.value, l.moveKey.value)].name == name
    requires NotHome(c.Now(), l)
    requires forall b :: LiveRow(c.Now(), b) && b != id ==> c.volumes[b].loc.name != Some(name)
    modifies c
    ensures Extends(old(c.Past()), c.Past())
    ensures c.Valid() && Follows(w0, c.Now(), {id}) && LiveRow(c.Now(), id)
    ensures c.slots == old(c.slots) && c.vms == old(c.vms)
    ensures r.Ok? ==> c.volumes[id].loc == l' && Found(c.Now(), id) && l'.name.Some?
    ensures Managed(old(c.trouble), old(c.unrecorded), c, r, true)
    ensures l' == Location(l.moveVmid, l.moveKey, Some(name), None, None)
    ensures OwnName(c.Now(), id, l')
  {
    hide Extends, Safe, Run, Follows, Rely, Destroyed, Arrived, OwnName, HolderReady, RowFollows, NameAbsent;
    Extending();
    ShapeOf(c.Now(), id);
    ghost var w := c.Now();
    Pause(c, id, w0);
    RelyUnrecordedByOthers(w, c.Now(), id, name);
    w := c.Now();
    ShapeOf(w, id);
    l' := Location(l.moveVmid, l.moveKey, Some(name), None, None);
    if l.name.Some? {
      NotHomeArrived(w, id);
      ArrivalSafe(w, id);
      ArrivedIsOwn(w, id, l');
    } else {
      ClaimSafe(w, id);
    }
    r := WriteLocation(c, id, l', w0);
    if c.Now() == w {
      if l.name.None? {
        UnboundOwns(w, id, l');
      }
    } else {
      RecordedIsOwn(c.Now(), id, l');
    }
  }

  lemma UnboundOwns(w: World, id: VolumeId, l: Location)
    requires id !in w.bound
    ensures OwnName(w, id, l)
  {
  }

  lemma UnclaimedByOthers(w: World, id: VolumeId, name: DiskName, found: Option<VolumeId>)
    requires Safe(w)
    requires found.Some? ==> found.value == id && LiveRow(w, id) && w.volumes[id].loc.name == Some(name)
    requires found.None? ==>
               forall b :: b in w.volumes && LiveVolume(w.volumes[b]) ==> w.volumes[b].loc.name != Some(name)
    ensures forall b :: LiveRow(w, b) && b != id ==> w.volumes[b].loc.name != Some(name)
  {
    hide Safe;
    if found.Some? {
      OthersNamedApart(w, id);
    }
  }

  lemma RelyUnrecordedByOthers(w: World, w': World, id: VolumeId, name: DiskName)
    requires Rely(w, w') && forall b :: LiveRow(w, b) && b != id ==> w.volumes[b].loc.name != Some(name)
    ensures forall b :: LiveRow(w', b) && b != id ==> w'.volumes[b].loc.name != Some(name)
  {
    forall b | LiveRow(w', b) && b != id ensures w'.volumes[b].loc.name != Some(name) {
      if b in w.volumes {
        assert RowFollows(w.volumes[b], w'.volumes[b]);
      }
    }
  }

  // ------------------------------------------------------------------- holder

  /** The holder is made the first time a volume needs it; a VM in its place that
      does not say it is the holder is never used. */
  method EnsureHolder(c: Cloud, id: VolumeId) returns (r: Outcome)
    requires c.Valid() && LiveRow(c.Now(), id)
    modifies c
    ensures Extends(old(c.Past()), c.Past())
    ensures c.Valid() && Follows(old(c.Now()), c.Now(), {id})
    ensures r.Ok? ==> HolderReady(c.Now())
    ensures c.slots == old(c.slots) && c.bound == old(c.bound)
    ensures LiveRow(c.Now(), id) && RowFollows(old(c.volumes)[id], c.volumes[id])
    ensures c.volumes[id].loc == old(c.volumes)[id].loc
    ensures old(Found(c.Now(), id)) ==> Found(c.Now(), id)
    ensures old(Loose(c.Now(), id)) ==> Loose(c.Now(), id)
    ensures r.Ok? || Troubled(old(c.trouble), c, r) || (r == Err(GiveUp) && HolderOccupied(old(c.Now())))
    ensures Accounted(old(c.trouble), old(c.unrecorded), c, r)
  {
    hide Extends, Safe, Run, Follows, Rely, Found, Loose;
    Extending();
    ghost var w0 := c.Now();
    FollowsSelf(w0, {id});
    HolderInPool(w0);
    Pause(c, id, w0);
    var listed, read := c.ListVms();
    if !read.Ok? {
      return read;
    }
    Pause(c, id, w0);
    if c.site.holder in listed {
      var owner, described := c.VmDescription(c.site.holder);
      if !described.Ok? {
        return described;
      }
      return if owner.HolderVm? then Ok else Err(GiveUp);
    }
    ghost var w := c.Now();
    assert c.site.holder in w.vms ==> HolderOccupied(w0);
    var taken;
    r, taken := MakeVm(c, c.site.holder, HolderVm);
    HolderFollows(w, c.Now(), id);
    FollowsOn(w0, w, c.Now(), {}, {id});
    return if taken then Err(GiveUp) else r;
  }

  /** Somebody else's VM has the holder's number. */
  predicate HolderOccupied(w: World) { w.site.holder in w.vms && w.vms[w.site.holder] != HolderVm }

  /** All the unused keys of a VM that the worker would use are taken. */
  predicate NoRoomOn(w: World, m: VmId) { forall n: nat :: n < 256 ==> Slot(m, Unused(n)) in w.slots }

  lemma HolderInPool(w: World)
    requires Safe(w)
    ensures HolderReady(w) ==> w.site.holder in w.vms.Keys - w.site.outside
  {
    hide HolderSlotsOK, InstancesOK, VolumesOK;
  }

  lemma HolderFollows(w: World, w': World, id: VolumeId)
    requires w' == w || VmMade(w, w', w.site.holder, HolderVm)
    ensures Follows(w, w', {}) && w'.slots == w.slots && w'.bound == w.bound
    ensures w' != w ==> HolderReady(w')
    ensures LiveRow(w, id) ==> (Found(w, id) ==> Found(w', id)) && (Loose(w, id) ==> Loose(w', id))
  {
    hide FreshDisks;
    if w' != w {
      var disks :| disks == map[] && w' == AddVm(w, w.site.holder, HolderVm, disks);
      assert w.slots + disks == w.slots;
    }
    FollowsSame(w, w');
  }

  // ------------------------------------------------- room on the holder, always

  /** Live volumes other than `id` whose disks fill the first `n` unused slots of the holder. */
  ghost predicate Fill(w: World, id: VolumeId, n: nat, who: set<VolumeId>) {
    && |who| == n && who <= LiveVolumeIds(w) - {id}
    && forall b :: b in who ==> exists k: nat :: k < n && UnusedHolds(w, k, b)
  }

  ghost predicate UnusedHolds(w: World, k: nat, b: VolumeId) {
    && Slot(w.site.holder, Unused(k)) in w.slots && b in w.bound
    && w.slots[Slot(w.site.holder, Unused(k))].ident == w.bound[b]
  }

  /** The disk in an unused slot of the holder is one live volume's. */
  lemma UnusedIsLive(w: World, k: nat) returns (b: VolumeId)
    requires Safe(w) && HolderReady(w) && Slot(w.site.holder, Unused(k)) in w.slots
    ensures b in LiveVolumeIds(w) && UnusedHolds(w, k, b)
  {
    hide InstancesOK, HypervisorOK, NamingOK, SettledInUse, VolumeShape, DiskKept;
    b :| b in w.bound && w.bound[b] == w.slots[Slot(w.site.holder, Unused(k))].ident;
    assert VolumeOK(w, b);
  }

  lemma {:induction false} FullSlotsFill(w: World, id: VolumeId, n: nat) returns (who: set<VolumeId>)
    requires Safe(w) && HolderReady(w) && forall k: nat :: k < n ==> Slot(w.site.holder, Unused(k)) in w.slots
    requires forall k: nat :: k < n ==> !UnusedHolds(w, k, id)
    ensures Fill(w, id, n, who)
  {
    hide Safe, HolderReady, LiveVolumeIds;
    who := {};
    if n > 0 {
      var fewer := FullSlotsFill(w, id, n - 1);
      var b := UnusedIsLive(w, n - 1);
      SafeHypervisor(w);
      assert b !in fewer;
      who := fewer + {b};
      forall a | a in who ensures exists k: nat :: k < n && UnusedHolds(w, k, a) {
        if a == b {
          assert UnusedHolds(w, n - 1, a);
        } else {
          var k: nat :| k < n - 1 && UnusedHolds(w, k, a);
        }
      }
    }
  }

  /** A disk that has to come home always finds a free slot: 256 full ones would
      be 256 live volumes besides its own, and there are at most 256 in all. */
  lemma HolderHasRoom(w: World, id: VolumeId)
    requires Safe(w) && LiveRow(w, id) && AtSlot(w, w.volumes[id].loc) && w.volumes[id].loc.vmid.value != w.site.holder
    ensures exists n: nat :: n < 256 && Slot(w.site.holder, Unused(n)) !in w.slots
  {
    hide Safe, Fill, LiveVolumeIds;
    if forall n: nat :: n < HOLDER_SLOTS ==> Slot(w.site.holder, Unused(n)) in w.slots {
      var l := w.volumes[id].loc;
      NamedDiskIsOwn(w, id, Slot(l.vmid.value, l.key.value));
      SafeHypervisor(w);
      var who := FullSlotsFill(w, id, HOLDER_SLOTS);
      FewerThanAll(w, id, HOLDER_SLOTS, who);
    }
  }

  lemma FewerThanAll(w: World, id: VolumeId, n: nat, who: set<VolumeId>)
    requires Safe(w) && LiveRow(w, id) && Fill(w, id, n, who)
    ensures n < HOLDER_SLOTS
  {
    hide HypervisorOK, HolderSlotsOK, InstancesOK, VolumeOK;
    SubsetSmaller(who + {id}, LiveVolumeIds(w));
  }

  // --------------------------------------------------------------------- move

  /** The volume names an instance it is on its way to or from. */
  predicate OnTheWay(w: World, id: VolumeId)
    requires id in w.volumes
  {
    && w.volumes[id].instance.Some?
    && (w.volumes[id].pending == Some(Attach) || w.volumes[id].pending == Some(Detach)
         || NamesLeaving(w, w.volumes[id]))
  }

  lemma OnTheWayKeeps(w: World, w': World, id: VolumeId, target: VmId)
    requires Rely(w, w') && LiveRow(w, id) && OnTheWay(w, id)
    ensures LiveRow(w', id) && OnTheWay(w', id)
    ensures MayGo(w, w.volumes[id], target) ==> MayGo(w', w'.volumes[id], target)
  {
    var v := w.volumes[id];
    assert RowFollows(v, w'.volumes[id]);
    if v.instance.value in w.instances {
      assert InstanceFollows(w.instances[v.instance.value], w'.instances[v.instance.value]);
    }
  }

  lemma OnTheWayIsLoose(w: World, id: VolumeId)
    requires id in w.volumes && OnTheWay(w, id)
    ensures Loose(w, id)
  {
  }

  /** A disk that has just been moved has arrived where its row announces. */
  lemma MovedArrived(w: World, w': World, id: VolumeId, dst: Slot)
    requires Safe(w) && LiveRow(w, id) && AtSlot(w, w.volumes[id].loc)
    requires w.volumes[id].loc.moveVmid == Some(dst.vm) && w.volumes[id].loc.moveKey == Some(dst.key)
    requires DiskMoved(w, w', Slot(w.volumes[id].loc.vmid.value, w.volumes[id].loc.key.value), dst)
    ensures id in w'.bound && LiveRow(w', id) && w'.volumes[id].loc == w.volumes[id].loc
    ensures Arrived(w', id, w'.volumes[id].loc)
  {
    hide Safe;
    var l := w.volumes[id].loc;
    NamedDiskIsOwn(w, id, Slot(l.vmid.value, l.key.value));
    SafeHypervisor(w);
  }

  lemma ArrivedKeeps(w: World, w': World, id: VolumeId)
    requires Rely(w, w') && LiveRow(w, id) && id in w.bound && w.volumes[id].loc.name.Some?
    requires Arrived(w, id, w.volumes[id].loc)
    ensures LiveRow(w', id) && id in w'.bound && w'.volumes[id].loc == w.volumes[id].loc
    ensures Arrived(w', id, w'.volumes[id].loc)
  {
    assert RowFollows(w.volumes[id], w'.volumes[id]);
  }

  /** Handing an unused disk to another VM: announced first, recorded afterwards.
      Without trouble it arrives, unless the VM is gone or has no slot left, which the
      holder always has. */
  method HandOver(c: Cloud, id: VolumeId, l: Location, target: VmId) returns (l': Location, r: Outcome)
    requires c.Valid() && LiveRow(c.Now(), id) && c.volumes[id].loc == l && Found(c.Now(), id) && l.name.Some?
    requires OnTheWay(c.Now(), id) && MayGo(c.Now(), c.volumes[id], target) && l.vmid != Some(target)
    modifies c
    ensures Extends(old(c.Past()), c.Past())
    ensures c.Valid() && Follows(old(c.Now()), c.Now(), {id}) && LiveRow(c.Now(), id)
    ensures r.Ok? ==> c.volumes[id].loc == l' && Found(c.Now(), id) && l'.vmid == Some(target)
    ensures r.Ok? ==> l'.key.Some? && l'.key.value.Unused? && l'.key.value.n < 256 && l'.name.Some?
    ensures r.Ok? || CallFailed(r) || (r == Err(NoSlot) && target != c.site.holder)
    ensures Accounted(old(c.trouble), old(c.unrecorded), c, r)
    ensures r == Err(NoSlot) ==> NoRoomOn(c.Now(), target)
    ensures c.trouble == old(c.trouble) && l.key.value.Unused? && target in old(c.vms) ==> r.Ok? || r == Err(NoSlot)
  {
    hide Extends, Safe, Run, Follows, Rely, Arrived, Loose, OnTheWay, MayGo;
    Extending();
    ghost var w0 := c.Now();
    FollowsSelf(w0, {id});
    l' := l;
    if !l.key.value.Unused? {
      return l', Err(Failed);
    }
    ghost var w := c.Now();
    Pause(c, id, w0);
    OnTheWayKeeps(w, c.Now(), id, target);
    var config, read := c.VmConfig(target);
    if !read.Ok? {
      return l', read;
    }
    var numbered := (n: nat) => Unused(n);
    var key := FreeKey(config, numbered, HOLDER_SLOTS - 1);
    if key.None? {
      forall n: nat | n < HOLDER_SLOTS ensures Slot(target, Unused(n)) in c.slots {
        assert numbered(n) in config;
      }
      assert target != c.site.holder by {
        if target == c.site.holder {
          HolderHasRoom(c.Now(), id);
        }
      }
      return l', Err(NoSlot);
    }
    l', r := HandOverTo(c, id, l, Slot(target, key.value), w0);
  }

  /** The same to a slot just seen free: announce, move, look, record. */
  method HandOverTo(c: Cloud, id: VolumeId, l: Location, dst: Slot, ghost w0: World)
    returns (l': Location, r: Outcome)
    requires c.Valid() && Follows(w0, c.Now(), {id}) && LiveRow(c.Now(), id) && c.volumes[id].loc == l
    requires Found(c.Now(), id) && l.name.Some? && dst.key.Unused? && dst !in c.slots && dst.vm in c.vms
    requires OnTheWay(c.Now(), id) && MayGo(c.Now(), c.volumes[id], dst.vm)
    requires l.key.value.Unused?
    modifies c
    ensures Extends(old(c.Past()), c.Past())
    ensures c.Valid() && Follows(w0, c.Now(), {id}) && LiveRow(c.Now(), id)
    ensures r.Ok? ==> c.volumes[id].loc == l' && Found(c.Now(), id) && l'.name.Some?
    ensures r.Ok? ==> l'.vmid == Some(dst.vm) && l'.key == Some(dst.key)
    ensures Managed(old(c.trouble), old(c.unrecorded), c, r, true)
  {
    hide Extends, Safe, Run, Follows, Rely, Arrived, Loose, OnTheWay, MayGo, SettledInUse, NameAbsent, FreshName,
         RowFollows;
    Extending();
    ghost var w := c.Now();
    Pause(c, id, w0);
    OnTheWayKeeps(w, c.Now(), id, dst.vm);
    l' := l.(moveVmid := Some(dst.vm), moveKey := Some(dst.key));
    NamesInstance(c.Now(), id);
    OnTheWayIsLoose(c.Now(), id);
    LooseNotSettled(c.Now(), id);
    IntentSafe(c.Now(), id, dst);
    r := WriteLocation(c, id, l', w0);
    if !r.Ok? {
      return l', r;
    }
    l', r := CarryOver(c, id, l', dst, w0);
  }

  /** Carrying out a move already announced. */
  method CarryOver(c: Cloud, id: VolumeId, l: Location, dst: Slot, ghost w0: World)
    returns (l': Location, r: Outcome)
    requires c.Valid() && Follows(w0, c.Now(), {id}) && LiveRow(c.Now(), id) && c.volumes[id].loc == l
    requires AtSlot(c.Now(), l) && l.moveVmid == Some(dst.vm) && l.moveKey == Some(dst.key)
    requires l.key.value.Unused?
    modifies c
    ensures Extends(old(c.Past()), c.Past())
    ensures c.Valid() && Follows(w0, c.Now(), {id}) && LiveRow(c.Now(), id)
    ensures r.Ok? ==> c.volumes[id].loc == l' && Found(c.Now(), id) && l'.name.Some?
    ensures r.Ok? ==> l'.vmid == Some(dst.vm) && l'.key == Some(dst.key)
    ensures Managed(old(c.trouble), old(c.unrecorded), c, r, old(dst !in c.slots && dst.vm in c.vms))
  {
    hide Extends, Safe, Run, Follows, Rely, Arrived, Loose, HolderReady, NameAbsent, FreshName, RowFollows;
    Extending();
    l' := l;
    Pause(c, id, w0);
    ghost var w := c.Now();
    r := Move(c, id, dst, w0);
    if !r.Ok? {
      return l', r;
    }
    ghost var moved := c.Now() != w;
    if moved {
      MovedArrived(w, c.Now(), id, dst);
    }
    w := c.Now();
    Pause(c, id, w0);
    if moved {
      ArrivedKeeps(w, c.Now(), id);
    }
    var config, read := c.VmConfig(dst.vm);
    if !read.Ok? {
      return l', read;
    }
    if dst.key !in config {
      return l', Err(Failed);
    }
    w := c.Now();
    Pause(c, id, w0);
    ArrivedKeeps(w, c.Now(), id);
    l' := Location(Some(dst.vm), Some(dst.key), Some(config[dst.key]), None, None);
    ArrivalSafe(c.Now(), id);
    r := WriteLocation(c, id, l', w0);
  }

  lemma NamesInstance(w: World, id: VolumeId)
    requires id in w.volumes && OnTheWay(w, id)
    ensures w.volumes[id].instance.Some?
  {
  }

  // ------------------------------------------------------------------- unplug

  /** No disk is lost or changed, whatever key it is under now. */
  ghost predicate DisksStay(w: World, w': World) {
    forall p :: p in w.slots ==> exists q :: q in w'.slots && w'.slots[q] == w.slots[p]
  }

  /** After an unplugging that took effect the disk is still on its VM. */
  lemma UnpluggedHome(w: World, w': World, id: VolumeId)
    requires Safe(w) && LiveRow(w, id) && Found(w, id) && w.volumes[id].loc.name.Some?
    requires w' == w || DiskUnplugged(w, w', w.volumes[id].loc.vmid.value, w.volumes[id].loc.key.value)
    ensures DisksStay(w, w') && LiveRow(w', id) && w'.volumes == w.volumes && w'.bound == w.bound && w'.vms == w.vms
  {
    hide Safe;
    if w' != w {
      var src := Slot(w.volumes[id].loc.vmid.value, w.volumes[id].loc.key.value);
      var n: nat :| UnpluggedTo(w, w', src, n);
      forall p | p in w.slots ensures exists q :: q in w'.slots && w'.slots[q] == w.slots[p] {
        var q := if p == src then Slot(src.vm, Unused(n)) else p;
        assert q in w'.slots && w'.slots[q] == w.slots[p];
      }
    }
  }

  /** The disk is under an unused key of its recorded VM. */
  ghost predicate UnusedHome(w: World, l: Location) {
    l.vmid.Some? && l.name.Some? && exists n: nat :: HeldAs(w, l.vmid.value, n, l.name.value)
  }

  ghost predicate HeldAs(w: World, m: VmId, n: nat, name: DiskName) {
    Slot(m, Unused(n)) in w.slots && w.slots[Slot(m, Unused(n))].name == name
  }

  lemma UnpluggedIsUnused(w: World, w': World, l: Location)
    requires AtSlot(w, l) && DiskUnplugged(w, w', l.vmid.value, l.key.value)
    ensures UnusedHome(w', l) && w'.vms == w.vms
  {
    var n: nat :| UnpluggedTo(w, w', Slot(l.vmid.value, l.key.value), n);
    assert HeldAs(w', l.vmid.value, n, l.name.value);
  }

  /** Turning a plugged disk into an unused one on the same VM, if the guest lets go of it. */
  method Unplug(c: Cloud, id: VolumeId, l: Location) returns (l': Location, r: Outcome)
    requires c.Valid() && LiveRow(c.Now(), id) && c.volumes[id].loc == l && Found(c.Now(), id) && Loose(c.Now(), id)
    modifies c
    ensures Extends(old(c.Past()), c.Past())
    ensures c.Valid() && Follows(old(c.Now()), c.Now(), {id}) && LiveRow(c.Now(), id)
    ensures r.Ok? ==> c.volumes[id].loc == l' && Found(c.Now(), id) && l'.vmid == l.vmid && l'.name == l.name
    ensures r.Ok? ==> DisksStay(old(c.Now()), c.Now()) && (l'.key.Some? ==> l'.key.value.Unused?)
    ensures HolderReady(old(c.Now())) ==> HolderReady(c.Now())
    ensures Managed(old(c.trouble), old(c.unrecorded), c, r, true)
    ensures OwnName(c.Now(), id, l')
    ensures r.Ok? && l.vmid.Some? && Plugged(l.key.value) ==>
              Since(c.events, |old(c.events)|, GuestShown(l.vmid.value, l.key.value, false))
  {
    hide Extends, Since, Safe, Run, Follows, Rely, Loose, SettledInUse, OwnName, RowFollows, UnusedHome;
    Extending();
    ghost var w0 := c.Now();
    FollowsSelf(w0, {id});
    l' := l;
    ShapeOf(w0, id);
    RecordedIsOwn(w0, id, l);
    if l.vmid.None? || !Plugged(l.key.value) {
      return l', Ok;
    }
    l', r := UnplugFrom(c, id, l, w0);
  }

  /** The part of it that tells the hypervisor, and then asks. */
  method UnplugFrom(c: Cloud, id: VolumeId, l: Location, ghost w0: World) returns (l': Location, r: Outcome)
    requires c.Valid() && Follows(w0, c.Now(), {id})
    requires LiveRow(c.Now(), id) && c.volumes[id].loc == l && Found(c.Now(), id) && Loose(c.Now(), id)
    requires l.vmid.Some? && l.key.Some? && l.name.Some? && Plugged(l.key.value)
    modifies c
    ensures Extends(old(c.Past()), c.Past())
    ensures c.Valid() && Follows(w0, c.Now(), {id}) && LiveRow(c.Now(), id)
    ensures r.Ok? ==> c.volumes[id].loc == l' && Found(c.Now(), id) && l'.vmid == l.vmid && l'.name == l.name
    ensures r.Ok? ==> DisksStay(old(c.Now()), c.Now()) && l'.key.Some? && l'.key.value.Unused?
    ensures HolderReady(old(c.Now())) ==> HolderReady(c.Now())
    ensures Managed(old(c.trouble), old(c.unrecorded), c, r, true)
    ensures OwnName(c.Now(), id, l')
    ensures r.Ok? ==> Since(c.events, |old(c.events)|, GuestShown(l.vmid.value, l.key.value, false))
  {
    hide Extends, Since, Safe, Run, Follows, Rely, Loose, SettledInUse, OwnName, RowFollows, UnusedHome,
         DisksStay;
    Extending();
    l' := l;
    ghost var before := c.Now();
    Pause(c, id, w0);
    LooseNotSettled(c.Now(), id);
    PlacesExist(c.Now(), id);
    ghost var w := c.Now();
    r := Unlink(c, id, Slot(l.vmid.value, l.key.value), w0);
    UnpluggedHome(w, c.Now(), id);
    RecordedIsOwn(c.Now(), id, l);
    if !r.Ok? {
      return l', r;
    }
    if DiskUnplugged(w, c.Now(), l.vmid.value, l.key.value) {
      UnpluggedIsUnused(w, c.Now(), l);
    }
    ghost var past := c.Past();
    ghost var w' := c.Now();
    l', r := ConfirmUnplugged(c, id, l, w0);
    if w' == w && r.Ok? {
      NotBoth(w', c.Now(), l, l');
    }
    StillStay(before, w, w', c.Now());
    Happened(old(c.Past()), past, c.Past());
  }

  /** A disk seen unused is not plugged in any more. */
  lemma NotBoth(w: World, w': World, l: Location, l': Location)
    requires Safe(w') && w'.slots == w.slots && AtSlot(w, l) && AtSlot(w', l') && l'.name == l.name
    ensures l'.vmid == l.vmid ==> l'.key == l.key
  {
    hide Safe;
    SafeHypervisor(w');
  }

  lemma StillStay(a: World, b: World, c: World, d: World)
    requires a.slots == b.slots && DisksStay(b, c) && c.slots == d.slots
    ensures DisksStay(a, d)
  {
  }

  /** Reading back where the disk is, and recording it if it is an unused one now. */
  method ConfirmUnplugged(c: Cloud, id: VolumeId, l: Location, ghost w0: World) returns (l': Location, r: Outcome)
    requires c.Valid() && Follows(w0, c.Now(), {id}) && LiveRow(c.Now(), id) && c.volumes[id].loc == l
    requires l.vmid.Some? && l.key.Some? && l.name.Some?
    modifies c
    ensures Extends(old(c.Past()), c.Past())
    ensures c.Valid() && Follows(w0, c.Now(), {id}) && LiveRow(c.Now(), id)
    ensures c.slots == old(c.slots) && c.vms == old(c.vms)
    ensures r.Ok? ==> c.volumes[id].loc == l' && Found(c.Now(), id) && l'.vmid == l.vmid && l'.name == l.name
    ensures r.Ok? ==> l'.key.Some? && l'.key.value.Unused?
    ensures Managed(old(c.trouble), old(c.unrecorded), c, r, old(UnusedHome(c.Now(), l)) && l.vmid.value in old(c.vms))
    ensures OwnName(c.Now(), id, l')
    ensures r.Ok? ==> Since(c.events, |old(c.events)|, GuestShown(l.vmid.value, l.key.value, false))
  {
    hide Extends, Since, Safe, Run, Follows, Rely, Loose, RowFollows, OwnName, Found, HolderReady, UnusedHome;
    Extending();
    ghost var w := c.Now();
    l' := l;
    Pause(c, id, w0);
    RecordedIsOwn(c.Now(), id, l);
    ghost var past := c.Past();
    Happened(old(c.Past()), past, past);
    JustHappened(c.events, |old(c.events)|, GuestShown(l.vmid.value, l.key.value, false));
    var waiting, asked := AskGuest(c, l.vmid.value, l.key.value);
    past := c.Past();
    if !asked.Ok? {
      return l', asked;
    }
    if waiting {
      return l', Err(Failed);
    }
    Pause(c, id, w0);
    RecordedIsOwn(c.Now(), id, l);
    var config, read := c.VmConfig(l.vmid.value);
    if !read.Ok? {
      return l', read;
    }
    var key := DiskKeyOf(config, l.name.value);
    if UnusedHome(w, l) {
      SlotsUnused(w, c.Now(), l);
      OnlyKey(c.Now(), l, config, key);
    }
    if key.None? || Plugged(key.value) {
      return l', Err(Failed);
    }
    l', r := RecordUnused(c, id, l, key.value, w0);
    Happened(old(c.Past()), past, c.Past());
  }

  method RecordUnused(c: Cloud, id: VolumeId, l: Location, key: Key, ghost w0: World) returns (l': Location, r: Outcome)
    requires c.Valid() && Follows(w0, c.Now(), {id}) && LiveRow(c.Now(), id) && c.volumes[id].loc == l
    requires l.vmid.Some? && l.name.Some? && AtSlot(c.Now(), l.(key := Some(key)))
    modifies c
    ensures Extends(old(c.Past()), c.Past())
    ensures c.Valid() && Follows(w0, c.Now(), {id}) && LiveRow(c.Now(), id)
    ensures c.slots == old(c.slots) && c.vms == old(c.vms)
    ensures l' == Location(l.vmid, Some(key), l.name, None, None)
    ensures r.Ok? ==> c.volumes[id].loc == l' && Found(c.Now(), id)
    ensures Managed(old(c.trouble), old(c.unrecorded), c, r, true)
    ensures OwnName(c.Now(), id, l')
  {
    hide Extends, Safe, Run, Follows, Rely, Loose, RowFollows, OwnName, HolderReady;
    Extending();
    Pause(c, id, w0);
    l' := Location(l.vmid, Some(key), l.name, None, None);
    HomeSafe(c.Now(), id, key);
    r := WriteLocation(c, id, l', w0);
    RecordedIsOwn(c.Now(), id, l');
  }

  lemma SlotsUnused(w: World, w': World, l: Location)
    requires w'.slots == w.slots && UnusedHome(w, l)
    ensures UnusedHome(w', l)
  {
    var n: nat :| HeldAs(w, l.vmid.value, n, l.name.value);
    assert HeldAs(w', l.vmid.value, n, l.name.value);
  }

  /** A name is under one key only, so a disk seen unused is found there. */
  lemma OnlyKey(w: World, l: Location, config: map<Key, DiskName>, key: Option<Key>)
    requires Safe(w) && UnusedHome(w, l)
    requires forall k :: k in config <==> Slot(l.vmid.value, k) in w.slots
    requires forall k :: k in config ==> config[k] == w.slots[Slot(l.vmid.value, k)].name
    requires key.Some? ==> key.value in config && config[key.value] == l.name.value
    requires key.None? ==> forall k :: k in config ==> config[k] != l.name.value
    ensures key.Some? && key.value.Unused?
  {
    hide Safe;
    SafeHypervisor(w);
    var n: nat :| HeldAs(w, l.vmid.value, n, l.name.value);
    assert Unused(n) in config;
    if key.Some? {
      assert Slot(l.vmid.value, key.value) in w.slots;
    }
  }
}
