/** The worker's volume actions: each finds the disk, takes it where the action
    wants it and only then has the action recorded as finished. */
module VolumeWorker {
  import opened Types
  import opened Rows
  import opened CloudState
  import opened DiskLemmas
  import opened RowLemmas
  import opened Progress
  import opened Quotas
  import opened History
  import opened Backends
  import opened Steps
  import opened Interference
  import opened VolumeRequests
  import opened DiskSteps

  const LAST_SCSI := 30

  /** The holder has no key left to plug a disk in under. */
  predicate HolderFull(w: World) { forall n: nat :: n <= 30 ==> Slot(w.site.holder, Scsi(n)) in w.slots }

  /** The first key of the holder that a disk can be plugged in under. */
  method FreeHolderKey(c: Cloud) returns (key: Option<Key>, r: Outcome)
    modifies c`trouble
    ensures r.Ok? && key.Some? ==> key.value.Scsi? && Slot(c.site.holder, key.value) !in c.slots
    ensures r.Ok? && key.None? ==> HolderFull(c.Now())
    ensures c.Answered(old(c.trouble), r, c.site.holder in c.vms)
  {
    key := None;
    var config;
    config, r := c.VmConfig(c.site.holder);
    if r.Ok? {
      var numbered := (n: nat) => Scsi(n);
      key := FreeKey(config, numbered, LAST_SCSI);
      if key.None? {
        AllScsiTaken(c.Now(), config, numbered);
      }
    }
  }

  lemma AllScsiTaken(w: World, config: map<Key, DiskName>, numbered: nat -> Key)
    requires forall n: nat :: numbered(n) == Scsi(n)
    requires forall k :: k in config <==> Slot(w.site.holder, k) in w.slots
    requires forall n: nat :: n <= LAST_SCSI ==> numbered(n) in config
    ensures HolderFull(w)
  {
    forall n: nat | n <= LAST_SCSI ensures Slot(w.site.holder, Scsi(n)) in w.slots {
      assert numbered(n) in config;
    }
  }

  /** One part of an action after another. */
  lemma Onward(w0: World, w: World, w': World, id: VolumeId)
    requires Follows(w0, w, {id}) && Follows(w, w', {id}) && LiveRow(w0, id)
    ensures Follows(w0, w', {id}) && LiveRow(w', id) && RowFollows(w0.volumes[id], w'.volumes[id])
    ensures HolderReady(w) ==> HolderReady(w')
  {
    FollowsOn(w0, w, w', {id}, {id});
  }

  lemma FollowedRow(w0: World, w: World, id: VolumeId)
    requires Follows(w0, w, {id}) && LiveRow(w0, id)
    ensures LiveRow(w, id) && RowFollows(w0.volumes[id], w.volumes[id])
  {
  }

  /** A live instance a volume names keeps its VMID while the worker deals with the volume. */
  lemma NamedInstanceStays(w0: World, w: World, id: VolumeId, i: InstanceId)
    requires Follows(w0, w, {id}) && LiveRow(w0, id) && w0.volumes[id].instance == Some(i) && i in w0.instances
    ensures i in w.instances && w.instances[i].vmid == w0.instances[i].vmid
    ensures w.instances[i].adopted == w0.instances[i].adopted
    ensures LiveInstance(w0.instances[i]) ==> LiveInstance(w.instances[i])
    ensures w0.instances[i].pending.Some? ==> w.instances[i].pending.Some?
    ensures LiveRow(w, id) && w.volumes[id].instance == Some(i) && w.volumes[id].device == w0.volumes[id].device
  {
    assert RowFollows(w0.volumes[id], w.volumes[id]);
    assert InstanceFollows(w0.instances[i], w.instances[i]);
  }

  // ------------------------------------------------------------------- create

  /** The size the disk of a volume that has none yet will have. */
  ghost function SizeToBe(w: World, v: Volume): nat {
    if NoneWaits(w, v) then v.size
    else w.slots[Slot(w.site.holder, v.loc.moveKey.value)].size
  }

  /** What keeps a disk from being made: for good, that somebody else's VM has the holder's number
      or there is no storage of the kind asked for; for now, that the holder is full. */
  ghost predicate NotCreated(w: World, w': World, v: Volume, e: Error) {
    || (e.GiveUp? && (HolderOccupied(w) || v.tier !in w'.site.tiers))
    || (e.Failed? && HolderFull(w'))
  }

  /** No disk waits for the volume at a slot it has announced. */
  ghost predicate NoneWaits(w: World, v: Volume) {
    IntentSpent(w, v.loc) || v.loc.moveKey.None? || Slot(w.site.holder, v.loc.moveKey.value) !in w.slots
  }

  /** A volume that has no disk yet gets the one that waits at its announced slot, or else
      one made for it: so it has the size asked for exactly if none of another size waits. */
  method CreateVolumeDisk(c: Cloud, id: VolumeId, v: Volume) returns (l: Location, r: Outcome)
    requires c.Valid() && LiveRow(c.Now(), id) && c.volumes[id] == v && v.pending == Some(Create)
    modifies c
    ensures Extends(old(c.Past()), c.Past())
    ensures c.Valid() && Follows(old(c.Now()), c.Now(), {id}) && LiveRow(c.Now(), id)
    ensures r.Ok? ==> c.volumes[id].loc == l && WorkDone(c.Now(), id, Create)
    ensures r.Ok? && v.loc.name.None? ==> OwnSize(c.Now(), id, SizeToBe(old(c.Now()), v))
    ensures r.Ok? && v.loc.name.None? && NoneWaits(old(c.Now()), v) ==> v.tier in c.site.tiers
    ensures r.Ok? && v.loc.name.None? ==> (OwnSize(c.Now(), id, v.size) <==> SizeToBe(old(c.Now()), v) == v.size)
    ensures r.Ok? || Troubled(old(c.trouble), c, r) || NotCreated(old(c.Now()), c.Now(), v, r.error)
    ensures Accounted(old(c.trouble), old(c.unrecorded), c, r)
  {
    hide Extends, Safe, Run, Follows, Rely, Destroyed, OwnName, OwnSize, SizeToBe;
    Extending();
    ghost var w0 := c.Now();
    FollowsSelf(w0, {id});
    l, r := FindOrMakeDisk(c, id, v);
    if !r.Ok? {
      return l, r;
    }
    ghost var w := c.Now();
    CreatingIsHome(w, id);
    l, r := Unplug(c, id, l);
    Onward(w0, w, c.Now(), id);
    if r.Ok? && v.loc.name.None? {
      SizeStays(w, c.Now(), id, SizeToBe(w0, v));
      OneSize(c.Now(), id, SizeToBe(w0, v), v.size);
    }
  }

  /** The part of a create that finds the volume's disk, or makes it. */
  method FindOrMakeDisk(c: Cloud, id: VolumeId, v: Volume) returns (l: Location, r: Outcome)
    requires c.Valid() && LiveRow(c.Now(), id) && c.volumes[id] == v && v.pending == Some(Create)
    modifies c
    ensures Extends(old(c.Past()), c.Past())
    ensures c.Valid() && Follows(old(c.Now()), c.Now(), {id}) && LiveRow(c.Now(), id)
    ensures r.Ok? ==> c.volumes[id].loc == l && Found(c.Now(), id) && l.name.Some?
    ensures r.Ok? ==> c.volumes[id].pending == Some(Create)
    ensures r.Ok? && v.loc.name.None? ==> OwnSize(c.Now(), id, SizeToBe(old(c.Now()), v))
    ensures r.Ok? && v.loc.name.None? && NoneWaits(old(c.Now()), v) ==> v.tier in c.site.tiers
    ensures r.Ok? || Troubled(old(c.trouble), c, r) || NotCreated(old(c.Now()), c.Now(), v, r.error)
    ensures Accounted(old(c.trouble), old(c.unrecorded), c, r)
  {
    hide Extends, Safe, Run, Follows, Rely, Destroyed, OwnName, OwnSize, IntentSpent;
    Extending();
    ghost var w0 := c.Now();
    FollowsSelf(w0, {id});
    ShapeOf(w0, id);
    l := v.loc;
    r := EnsureHolder(c, id);
    if !r.Ok? {
      return l, r;
    }
    ghost var w := c.Now();
    SameWaiting(w0, w, l);
    l, r := Locate(c, id, l);
    Onward(w0, w, c.Now(), id);
    if !r.Ok? {
      return l, r;
    }
    if l.name.None? {
      l, r := MakeDisk(c, id, l, v, w0);
    } else if v.loc.name.None? {
      WaitsThere(w, v.loc);
      SizeAt(c.Now(), id, SizeToBe(w0, v));
    }
  }

  lemma WaitsThere(w: World, l: Location)
    requires LocationShape(w.site, l) && l.name.None? && !IntentSpent(w, l)
    ensures l.moveKey.Some? && l.moveVmid == Some(w.site.holder) && Slot(w.site.holder, l.moveKey.value) in w.slots
  {
  }

  /** A size the volume's own disk has. */
  ghost predicate OwnSize(w: World, id: VolumeId, size: nat) {
    id in w.bound && exists p :: p in w.slots && w.slots[p].ident == w.bound[id] && w.slots[p].size == size
  }

  lemma SizeAt(w: World, id: VolumeId, size: nat)
    requires Safe(w) && LiveRow(w, id) && AtSlot(w, w.volumes[id].loc)
    requires w.slots[Slot(w.volumes[id].loc.vmid.value, w.volumes[id].loc.key.value)].size == size
    ensures OwnSize(w, id, size)
  {
    hide Safe;
    NamedDiskIsOwn(w, id, Slot(w.volumes[id].loc.vmid.value, w.volumes[id].loc.key.value));
  }

  lemma SizeStays(w: World, w': World, id: VolumeId, size: nat)
    requires OwnSize(w, id, size) && DisksStay(w, w') && Follows(w, w', {id})
    ensures OwnSize(w', id, size)
  {
    var p :| p in w.slots && w.slots[p].ident == w.bound[id] && w.slots[p].size == size;
    var q :| q in w'.slots && w'.slots[q] == w.slots[p];
  }

  /** A volume has one disk, and that has one size. */
  lemma OneSize(w: World, id: VolumeId, n: nat, m: nat)
    requires Safe(w) && OwnSize(w, id, n)
    ensures OwnSize(w, id, m) <==> n == m
  {
    hide Safe;
    SafeHypervisor(w);
  }

  /** A new volume's disk is nowhere but on the holder. */
  lemma CreatingIsHome(w: World, id: VolumeId)
    requires Safe(w) && LiveRow(w, id) && w.volumes[id].pending == Some(Create) && w.volumes[id].loc.name.Some?
    ensures Loose(w, id) && w.volumes[id].loc.vmid == Some(w.site.holder)
  {
    hide HolderSlotsOK, InstancesOK, HypervisorOK, NamingOK, SettledInUse;
    assert VolumeOK(w, id);
  }

  /** Announcing a slot of the holder, making a blank disk there and claiming it. */
  method MakeDisk(c: Cloud, id: VolumeId, l: Location, v: Volume, ghost w0: World)
    returns (l': Location, r: Outcome)
    requires c.Valid() && Follows(w0, c.Now(), {id}) && LiveRow(w0, id) && w0.volumes[id].pending == Some(Create)
    requires LiveRow(c.Now(), id) && c.volumes[id].loc == l && Found(c.Now(), id) && l.name.None?
    requires HolderReady(c.Now())
    modifies c
    ensures Extends(old(c.Past()), c.Past())
    ensures c.Valid() && Follows(w0, c.Now(), {id}) && LiveRow(c.Now(), id)
    ensures r.Ok? ==> c.volumes[id].loc == l' && Found(c.Now(), id) && l'.name.Some?
    ensures r.Ok? ==> OwnSize(c.Now(), id, v.size) && v.tier in c.site.tiers
    ensures r.Ok? ==> c.volumes[id].pending == Some(Create)
    ensures r.Ok? || Troubled(old(c.trouble), c, r) || NotCreated(w0, c.Now(), v, r.error)
    ensures Accounted(old(c.trouble), old(c.unrecorded), c, r)
  {
    hide Extends, HolderFull, Safe, Run, Follows, Rely, Destroyed, Loose, OwnName, OwnSize, IntentSpent;
    Extending();
    l' := l;
    Pause(c, id, w0);
    var key, read := FreeHolderKey(c);
    if !read.Ok? {
      return l', read;
    }
    if key.None? {
      return l', Err(Failed);
    }
    if v.tier !in c.site.tiers {
      return l', Err(GiveUp);
    }
    l', r := MakeAt(c, id, key.value, v.size, w0);
  }

  /** The same at a slot just seen free: announce, make, look. */
  method MakeAt(c: Cloud, id: VolumeId, key: Key, size: nat, ghost w0: World) returns (l': Location, r: Outcome)
    requires c.Valid() && Follows(w0, c.Now(), {id}) && LiveRow(w0, id) && w0.volumes[id].pending == Some(Create)
    requires LiveRow(c.Now(), id) && Found(c.Now(), id) && c.volumes[id].loc.name.None?
    requires HolderReady(c.Now()) && key.Scsi? && Slot(c.site.holder, key) !in c.slots
    modifies c
    ensures Extends(old(c.Past()), c.Past())
    ensures c.Valid() && Follows(w0, c.Now(), {id}) && LiveRow(c.Now(), id)
    ensures r.Ok? ==> c.volumes[id].loc == l' && Found(c.Now(), id) && l'.name.Some?
    ensures r.Ok? ==> OwnSize(c.Now(), id, size)
    ensures r.Ok? ==> c.volumes[id].pending == Some(Create)
    ensures r.Ok? || Troubled(old(c.trouble), c, r)
    ensures Accounted(old(c.trouble), old(c.unrecorded), c, r)
  {
    hide Extends, Safe, Run, Follows, Rely, Destroyed, Loose, OwnName, OwnSize, IntentSpent;
    Extending();
    Pause(c, id, w0);
    l' := Location(None, None, None, Some(c.site.holder), Some(key));
    CreateIntentSafe(c.Now(), id, key);
    r := WriteLocation(c, id, l', w0);
    if !r.Ok? {
      return l', r;
    }
    Pause(c, id, w0);
    ghost var w := c.Now();
    r := Allocate(c, id, key, size, w0);
    if !r.Ok? {
      return l', r;
    }
    ghost var made := c.Now() != w;
    if made {
      BlankWaits(w, c.Now(), id, l', size);
    } else {
      NothingWaits(w, l');
    }
    w := c.Now();
    l', r := Locate(c, id, l');
    Onward(w0, w, c.Now(), id);
    if !r.Ok? {
      return l', r;
    }
    if l'.name.None? {
      return l', Err(Failed);
    }
    SizeAt(c.Now(), id, size);
  }

  lemma NothingWaits(w: World, l: Location)
    requires l.moveKey.Some? ==> Slot(w.site.holder, l.moveKey.value) !in w.slots
    ensures IntentSpent(w, l)
  {
  }

  /** The disk just made is nobody's yet, so it waits to be taken. */
  lemma BlankWaits(w: World, w': World, id: VolumeId, l: Location, size: nat)
    requires l.name.None? && l.moveKey.Some? && DiskMade(w, w', Slot(w.site.holder, l.moveKey.value), size)
    ensures !IntentSpent(w', l)
  {
    hide FreshName, IdentAbsent;
  }

  // ------------------------------------------------------------------- detach

  /** The instance a volume names has something else pending than a terminate. */
  predicate InstanceBusy(w: World, id: VolumeId)
    requires id in w.volumes
  {
    var i := w.volumes[id].instance;
    && i.Some? && i.value in w.instances
    && w.instances[i.value].pending.Some? && w.instances[i.value].pending != Some(Terminate)
  }

  /** The disk is plugged in on another VM than the holder, and the instance is busy. */
  predicate HeldUp(w: World, id: VolumeId)
    requires id in w.volumes
  {
    var l := w.volumes[id].loc;
    InstanceBusy(w, id) && l.vmid != Some(w.site.holder) && l.key.Some? && Plugged(l.key.value)
  }

  /** The volume's own disk is there. */
  ghost predicate OwnDiskAt(w: World, id: VolumeId, p: Slot) {
    id in w.bound && p in w.slots && w.slots[p].ident == w.bound[id]
  }

  /** The guest has since been seen to have let go of the key, and the instance of a volume
      plugged in anywhere but on the holder was not busy in some state since. */
  ghost predicate LetGo(past: Log, now: Log, id: VolumeId, p: Slot, holder: VmId) {
    && Since(now.events, |past.events|, GuestShown(p.vm, p.key, false))
    && (p.vm != holder ==> FreeSince(now.states, |past.states| - 1, id))
  }

  ghost predicate FreeSince(h: seq<World>, since: int, id: VolumeId) {
    exists k :: 0 <= k < |h| && since <= k && FreeAt(h[k], id)
  }

  ghost predicate FreeAt(w: World, id: VolumeId) { id in w.volumes && !InstanceBusy(w, id) }

  lemma FreeThen(a: Log, b: Log, id: VolumeId)
    requires Extends(a, b) && |b.states| > 0 && FreeAt(b.states[|b.states| - 1], id)
    ensures FreeSince(b.states, |a.states| - 1, id)
  {
  }

  lemma FreeStays(a: Log, b: Log, c: Log, id: VolumeId)
    requires Extends(a, b) && Extends(b, c)
    ensures FreeSince(b.states, |a.states| - 1, id) ==> FreeSince(c.states, |a.states| - 1, id)
    ensures FreeSince(c.states, |b.states| - 1, id) ==> FreeSince(c.states, |a.states| - 1, id)
  {
    hide FreeAt;
    if FreeSince(b.states, |a.states| - 1, id) {
      var k :| 0 <= k < |b.states| && |a.states| - 1 <= k && FreeAt(b.states[k], id);
      assert c.states[k] == b.states[k];
    }
  }

  /** What a part of an action has seen, the whole has. */
  lemma LetGoStays(a: Log, b: Log, c: Log, id: VolumeId, p: Slot, holder: VmId)
    requires Extends(a, b) && Extends(b, c) && LetGo(b, c, id, p, holder)
    ensures LetGo(a, c, id, p, holder)
  {
    hide Since, FreeSince;
    Happened(a, b, c);
    FreeStays(a, b, c, id);
  }

  /** A volume's own disk is where it has been found. */
  lemma FoundAt(w: World, w': World, id: VolumeId, p: Slot)
    requires Safe(w') && LiveRow(w', id) && Found(w', id) && w'.volumes[id].loc.name.Some?
    requires w'.slots == w.slots && Follows(w, w', {id}) && OwnDiskAt(w, id, p)
    ensures var l := w'.volumes[id].loc; p == Slot(l.vmid.value, l.key.value)
  {
    hide Safe;
    var l := w'.volumes[id].loc;
    NamedDiskIsOwn(w', id, Slot(l.vmid.value, l.key.value));
    SafeHypervisor(w');
  }

  /** Without trouble a detach is done, or its instance is busy with something else. A disk that
      was plugged in has been let go of by the guest, and on an instance's VM at a time
      when the instance was not busy. */
  method DetachVolumeDisk(c: Cloud, id: VolumeId, v: Volume) returns (l: Location, r: Outcome)
    requires c.Valid() && LiveRow(c.Now(), id) && c.volumes[id] == v && v.pending == Some(Detach)
    modifies c
    ensures Extends(old(c.Past()), c.Past())
    ensures c.Valid() && Follows(old(c.Now()), c.Now(), {id}) && LiveRow(c.Now(), id)
    ensures r.Ok? ==> c.volumes[id].loc == l && WorkDone(c.Now(), id, Detach)
    ensures r.Ok? ==> forall p | OwnDiskAt(old(c.Now()), id, p) && Plugged(p.key) ::
              LetGo(old(c.Past()), c.Past(), id, p, c.site.holder)
    ensures Accounted(old(c.trouble), old(c.unrecorded), c, r)
    ensures r.Ok? || Troubled(old(c.trouble), c, r) || (r == Err(Busy) && HeldUp(c.Now(), id))
  {
    hide LetGo, OwnDiskAt, Extends, Safe, Run, Follows, Rely, Destroyed, OwnName, IntentSpent, Received;
    Extending();
    ghost var w0 := c.Now();
    FollowsSelf(w0, {id});
    ShapeOf(w0, id);
    NamedIsKnown(w0, id);
    l, r := Locate(c, id, v.loc);
    Onward(w0, w0, c.Now(), id);
    if !r.Ok? {
      return l, r;
    }
    w0 := c.Now();
    ghost var past := c.Past();
    l, r := DetachFound(c, id, l);
    Onward(old(c.Now()), w0, c.Now(), id);
    if r.Ok? {
      forall p | OwnDiskAt(old(c.Now()), id, p) && Plugged(p.key)
        ensures LetGo(old(c.Past()), c.Past(), id, p, c.site.holder)
      {
        FoundAt(old(c.Now()), w0, id, p);
        LetGoStays(old(c.Past()), past, c.Past(), id, p, c.site.holder);
      }
    }
  }

  /** The same once the disk has been found. */
  method DetachFound(c: Cloud, id: VolumeId, l0: Location) returns (l: Location, r: Outcome)
    requires c.Valid() && LiveRow(c.Now(), id) && c.volumes[id].loc == l0 && Found(c.Now(), id) && l0.name.Some?
    requires c.volumes[id].pending == Some(Detach)
    modifies c
    ensures Extends(old(c.Past()), c.Past())
    ensures c.Valid() && Follows(old(c.Now()), c.Now(), {id}) && LiveRow(c.Now(), id)
    ensures r.Ok? ==> c.volumes[id].loc == l && WorkDone(c.Now(), id, Detach)
    ensures r.Ok? && Plugged(l0.key.value) ==>
              LetGo(old(c.Past()), c.Past(), id, Slot(l0.vmid.value, l0.key.value), c.site.holder)
    ensures Accounted(old(c.trouble), old(c.unrecorded), c, r)
    ensures r.Ok? || Troubled(old(c.trouble), c, r) || (r == Err(Busy) && HeldUp(c.Now(), id))
  {
    hide Since, FreeSince, Extends, Safe, Run, Follows, Rely, Destroyed, OwnName, IntentSpent, Received;
    Extending();
    l := l0;
    ghost var w0 := c.Now();
    FollowsSelf(w0, {id});
    ShapeOf(w0, id);
    NamedIsKnown(w0, id);
    var i := c.volumes[id].instance.value;
    ghost var w, past := c.Now(), c.Past();
    if l.vmid.None? || l.vmid.value == c.site.holder {
      l, r := Unplug(c, id, l);
      Onward(w0, w, c.Now(), id);
      return l, r;
    }
    if Plugged(l.key.value) {
      Pause(c, id, w0);
      NamedInstanceStays(w0, c.Now(), id, i);
      var inst, read := c.ReadInstance(i);
      if !read.Ok? {
        return l, read;
      }
      if inst.value.pending.Some? && inst.value.pending != Some(Terminate) {
        return l, Err(Busy);
      }
      past := c.Past();
      FreeThen(old(c.Past()), past, id);
      Pause(c, id, w0);
    }
    w := c.Now();
    ghost var later := c.Past();
    l, r := BringHome(c, id, l);
    Onward(w0, w, c.Now(), id);
    Happened(old(c.Past()), later, c.Past());
    FreeStays(old(c.Past()), past, c.Past(), id);
  }

  /** Unplugging a disk from its instance's VM and moving it to the holder, where there
      is always room: only trouble prevents it. */
  method BringHome(c: Cloud, id: VolumeId, l: Location) returns (l': Location, r: Outcome)
    requires c.Valid() && LiveRow(c.Now(), id) && c.volumes[id].loc == l && Found(c.Now(), id) && l.name.Some?
    requires OnTheWay(c.Now(), id) && l.vmid != Some(c.site.holder)
    modifies c
    ensures Extends(old(c.Past()), c.Past())
    ensures c.Valid() && Follows(old(c.Now()), c.Now(), {id}) && LiveRow(c.Now(), id)
    ensures r.Ok? ==> c.volumes[id].loc == l' && Found(c.Now(), id) && l'.vmid == Some(c.site.holder)
    ensures r.Ok? ==> l'.key.Some? && l'.key.value.Unused? && l'.name.Some?
    ensures r.Ok? && Plugged(l.key.value) ==>
              Since(c.events, |old(c.events)|, GuestShown(l.vmid.value, l.key.value, false))
    ensures r.Ok? || Troubled(old(c.trouble), c, r)
    ensures Accounted(old(c.trouble), old(c.unrecorded), c, r)
  {
    hide Since, Extends, Safe, Run, Follows, Rely, MayGo, OnTheWay, Loose, OwnName;
    Extending();
    ghost var w0 := c.Now();
    FollowsSelf(w0, {id});
    OnTheWayIsLoose(w0, id);
    PlacesExist(w0, id);
    l', r := Unplug(c, id, l);
    if !r.Ok? {
      return l', r;
    }
    ghost var w, past := c.Now(), c.Past();
    r := EnsureHolder(c, id);
    Onward(w0, w, c.Now(), id);
    if !r.Ok? {
      return l', r;
    }
    w := c.Now();
    OnTheWayFollows(w0, w, id);
    HomeAllowed(w, id);
    l', r := HandOver(c, id, l', c.site.holder);
    Onward(w0, w, c.Now(), id);
    Happened(old(c.Past()), past, c.Past());
  }

  lemma OnTheWayFollows(w: World, w': World, id: VolumeId)
    requires Follows(w, w', {id}) && LiveRow(w, id) && OnTheWay(w, id)
    ensures LiveRow(w', id) && OnTheWay(w', id)
  {
    var v := w.volumes[id];
    assert RowFollows(v, w'.volumes[id]);
    if v.instance.value in w.instances {
      assert InstanceFollows(w.instances[v.instance.value], w'.instances[v.instance.value]);
    }
  }

  lemma HomeAllowed(w: World, id: VolumeId)
    requires id in w.volumes
    ensures MayGo(w, w.volumes[id], w.site.holder)
  {
  }

  // ------------------------------------------------------------------- delete

  /** Only trouble prevents a delete. */
  method DeleteVolumeDisk(c: Cloud, id: VolumeId, v: Volume) returns (l: Location, r: Outcome)
    requires c.Valid() && LiveRow(c.Now(), id) && c.volumes[id] == v && v.pending == Some(Delete)
    modifies c
    ensures Extends(old(c.Past()), c.Past())
    ensures c.Valid() && Follows(old(c.Now()), c.Now(), {id}) && LiveRow(c.Now(), id)
    ensures r.Ok? ==> WorkDone(c.Now(), id, Delete)
    ensures Accounted(old(c.trouble), old(c.unrecorded), c, r)
    ensures r.Ok? || Troubled(old(c.trouble), c, r) || (r == Err(DiskMissing) && c.trouble > old(c.trouble))
  {
    hide Extends, Safe, Run, Follows, Rely, OwnName, Loose;
    Extending();
    ghost var w0 := c.Now();
    FollowsSelf(w0, {id});
    l, r := Locate(c, id, v.loc);
    Onward(w0, w0, c.Now(), id);
    ShapeOf(c.Now(), id);
    if r == Err(DiskMissing) {
      Pause(c, id, w0);
      var size, measured := c.DiskSize(l.name.value);
      if measured.Ok? && size.None? {
        return l, Ok;
      }
      assert measured.Ok? ==> size.None?;
    }
    if !r.Ok? || l.name.None? {
      return l, r;
    }
    DeletingIsHome(c.Now(), id);
    if l.vmid != Some(c.site.holder) {
      return l, Err(Failed);
    }
    r := DestroyOnHolder(c, id, l, w0);
  }

  /** A volume being deleted names no instance, so its disk is nowhere but on the holder. */
  lemma DeletingIsHome(w: World, id: VolumeId)
    requires Safe(w) && LiveRow(w, id) && w.volumes[id].pending == Some(Delete) && w.volumes[id].loc.name.Some?
    ensures w.volumes[id].loc.vmid == Some(w.site.holder) && w.volumes[id].loc.moveVmid.None? && HolderReady(w)
  {
    hide HolderSlotsOK, InstancesOK, HypervisorOK, NamingOK, SettledInUse;
    assert VolumeOK(w, id);
  }

  method DestroyOnHolder(c: Cloud, id: VolumeId, l: Location, ghost w0: World) returns (r: Outcome)
    requires c.Valid() && Follows(w0, c.Now(), {id}) && LiveRow(w0, id) && w0.volumes[id].pending == Some(Delete)
    requires LiveRow(c.Now(), id) && c.volumes[id].loc == l && Found(c.Now(), id) && l.name.Some?
    requires l.vmid == Some(c.site.holder) && HolderReady(c.Now())
    modifies c
    ensures Extends(old(c.Past()), c.Past())
    ensures c.Valid() && Follows(w0, c.Now(), {id}) && LiveRow(c.Now(), id)
    ensures r.Ok? ==> WorkDone(c.Now(), id, Delete)
    ensures Managed(old(c.trouble), old(c.unrecorded), c, r, true)
  {
    hide Extends, Safe, Run, Follows, Rely, Loose;
    Extending();
    Pause(c, id, w0);
    FollowedRow(w0, c.Now(), id);
    ghost var w := c.Now();
    r := Destroy(c, id, Slot(c.site.holder, l.key.value), w0);
    if !r.Ok? {
      return r;
    }
    ghost var gone := c.Now() != w;
    if gone {
      GoneByName(w, c.Now(), id);
    }
    Pause(c, id, w0);
    FollowedRow(w0, c.Now(), id);
    var config, read := c.VmConfig(c.site.holder);
    if !read.Ok? {
      return read;
    }
    var key := DiskKeyOf(config, l.name.value);
    if key.Some? {
      return Err(Failed);
    }
  }

  lemma GoneByName(w: World, w': World, id: VolumeId)
    requires Safe(w) && LiveRow(w, id) && AtSlot(w, w.volumes[id].loc)
    requires w' == DestroyDisk(w, Slot(w.volumes[id].loc.vmid.value, w.volumes[id].loc.key.value))
    ensures NameAbsent(w', w.volumes[id].loc.name.value)
  {
    hide Safe;
    SafeHypervisor(w);
  }

  // ------------------------------------------------------------------- resize

  /** What keeps a disk that is too small from being resized, for now: the holder is full, or
      an instance's VM is letting go of the disk. */
  ghost predicate NotResized(w: World, id: VolumeId, e: Error)
    requires id in w.volumes
  {
    TooSmall(w, id) && ((e.Failed? && HolderFull(w)) || (e.Busy? && Elsewhere(w, id)))
  }

  /** The disk recorded is smaller than its row says. */
  ghost predicate TooSmall(w: World, id: VolumeId)
    requires id in w.volumes
  {
    exists p :: p in w.slots && w.volumes[id].loc.name == Some(w.slots[p].name) && w.slots[p].size < w.volumes[id].size
  }

  lemma IsTooSmall(w: World, id: VolumeId, p: Slot)
    requires id in w.volumes && p in w.slots && w.volumes[id].loc.name == Some(w.slots[p].name)
    requires w.slots[p].size < w.volumes[id].size
    ensures TooSmall(w, id)
  {
  }

  /** The disk known by this location is there. */
  ghost predicate Known(w: World, l: Location) { l.name.Some? && !NameAbsent(w, l.name.value) }

  lemma FoundIsKnown(w: World, id: VolumeId)
    requires id in w.volumes && Found(w, id) && w.volumes[id].loc.name.Some?
    ensures Known(w, w.volumes[id].loc)
  {
    var l := w.volumes[id].loc;
    assert w.slots[Slot(l.vmid.value, l.key.value)].name == l.name.value;
  }

  lemma StillKnown(w: World, w': World, l: Location, l': Location)
    requires Known(w, l) && l'.name == l.name && w'.slots == w.slots
    ensures Known(w', l')
  {
    var p :| p in w.slots && w.slots[p].name == l.name.value;
    assert p in w'.slots && w'.slots[p].name == l.name.value;
  }

  /** What is measured by name is the size of the disk at the recorded place. */
  lemma MeasuredHere(w: World, id: VolumeId, size: nat)
    requires Safe(w) && LiveRow(w, id) && Found(w, id) && w.volumes[id].loc.name.Some?
    requires exists p :: p in w.slots && w.volumes[id].loc.name == Some(w.slots[p].name) && w.slots[p].size == size
    ensures w.slots[Slot(w.volumes[id].loc.vmid.value, w.volumes[id].loc.key.value)].size == size
  {
    hide Safe;
    SafeHypervisor(w);
  }

  /** Where the disks stay, they have the sizes they had. */
  lemma MeasuredBefore(w: World, w': World, id: VolumeId, size: nat, n: nat)
    requires Safe(w') && Follows(w, w', {id}) && w'.slots == w.slots
    requires OwnSize(w', id, size) && OwnSize(w, id, n)
    ensures n == size
  {
    hide Safe;
    OneSize(w', id, size, n);
  }

  function Larger(a: nat, b: nat): nat { if a < b then b else a }

  /** The disk ends with the size asked for, or keeps its own if that is larger, and one
      waiting on the holder is unused again. Whatever happens, the disk known by name is the
      volume's own, and without trouble it is there. */
  method ResizeVolumeDisk(c: Cloud, id: VolumeId, v: Volume) returns (l: Location, r: Outcome)
    requires c.Valid() && LiveRow(c.Now(), id) && c.volumes[id] == v && v.pending == Some(Resize)
    modifies c
    ensures Extends(old(c.Past()), c.Past())
    ensures c.Valid() && Follows(old(c.Now()), c.Now(), {id}) && LiveRow(c.Now(), id)
    ensures r.Ok? ==> c.volumes[id].loc == l && WorkDone(c.Now(), id, Resize)
    ensures r.Ok? ==>
              forall n :: OwnSize(old(c.Now()), id, n) ==> OwnSize(c.Now(), id, Larger(n, v.size))
    ensures r.Ok? && l.vmid == Some(c.site.holder) ==> l.key.Some? && l.key.value.Unused?
    ensures OwnName(c.Now(), id, l)
    ensures r.Ok? || Troubled(old(c.trouble), c, r) || Known(c.Now(), l)
    ensures r.Ok? || Troubled(old(c.trouble), c, r) || NotResized(c.Now(), id, r.error)
    ensures Accounted(old(c.trouble), old(c.unrecorded), c, r)
  {
    hide TooSmall, OwnSize, Known, Extends, HolderFull, Elsewhere, Safe, Run, Follows, Rely, Destroyed, Loose, OwnName,
         Received, IntentSpent, NameAbsent, DisksStay;
    Extending();
    ghost var w0 := c.Now();
    FollowsSelf(w0, {id});
    ShapeOf(w0, id);
    l, r := Locate(c, id, v.loc);
    Onward(w0, w0, c.Now(), id);
    if !r.Ok? {
      return l, r;
    }
    if l.vmid.None? {
      return l, Err(GiveUp);
    }
    Pause(c, id, w0);
    RecordedIsOwn(c.Now(), id, l);
    var current, measured := c.DiskSize(l.name.value);
    if !measured.Ok? {
      return l, measured;
    }
    KnownByName(c.Now(), l, current);
    FoundIsKnown(c.Now(), id);
    ghost var here, seen := l, c.Now();
    if current.None? {
      return l, Err(Failed);
    }
    MeasuredHere(c.Now(), id, current.value);
    SizeAt(c.Now(), id, current.value);
    if current.value < v.size {
      l, r := Grow(c, id, v, l, w0);
      RecordedIsOwn(c.Now(), id, l);
      if !r.Ok? {
        if c.slots == seen.slots {
          StillKnown(seen, c.Now(), here, l);
        }
        return l, r;
      }
    }
    FollowedRow(w0, c.Now(), id);
    SizeAt(c.Now(), id, Larger(current.value, v.size));
    if l.vmid.value == c.site.holder {
      ghost var w := c.Now();
      assert Loose(w, id) by { HolderIsLoose(w, id); }
      assert WorkDone(w, id, Resize);
      l, r := Unplug(c, id, l);
      Onward(w0, w, c.Now(), id);
      if r.Ok? {
        StaysGrown(w, c.Now(), id);
        SizeStays(w, c.Now(), id, Larger(current.value, v.size));
      }
    }
    if r.Ok? {
      forall n | OwnSize(old(c.Now()), id, n) ensures OwnSize(c.Now(), id, Larger(n, v.size)) {
        MeasuredBefore(old(c.Now()), seen, id, current.value, n);
      }
    }
  }

  /** Its disk is neither plugged in nor on the holder: an instance's VM is letting go of it. */
  predicate Elsewhere(w: World, id: VolumeId)
    requires id in w.volumes
  {
    var l := w.volumes[id].loc;
    l.key.Some? && l.key.value.Unused? && l.vmid != Some(w.site.holder)
  }

  lemma KnownByName(w: World, l: Location, size: Option<nat>)
    requires AtSlot(w, l) && (size.None? ==> NameAbsent(w, l.name.value))
    ensures size.Some?
  {
  }

  lemma StaysGrown(w: World, w': World, id: VolumeId)
    requires LiveRow(w, id) && LiveRow(w', id) && WorkDone(w, id, Resize) && DisksStay(w, w')
    requires w'.volumes[id].size == w.volumes[id].size && w'.volumes[id].loc.name == w.volumes[id].loc.name
    ensures WorkDone(w', id, Resize)
  {
    var p :|
      p in w.slots && w.volumes[id].loc.name == Some(w.slots[p].name) && w.slots[p].size >= w.volumes[id].size;
    var q :| q in w'.slots && w'.slots[q] == w.slots[p];
  }

  lemma HolderIsLoose(w: World, id: VolumeId)
    requires id in w.volumes && w.volumes[id].loc.vmid == Some(w.site.holder)
    ensures Loose(w, id)
  {
  }

  /** Resizing the disk where it is plugged, plugging it in on the holder if it is not. */
  method Grow(c: Cloud, id: VolumeId, v: Volume, l: Location, ghost w0: World) returns (l': Location, r: Outcome)
    requires c.Valid() && Follows(w0, c.Now(), {id}) && LiveRow(w0, id) && w0.volumes[id] == v
    requires v.pending == Some(Resize) && LiveRow(c.Now(), id) && c.volumes[id].loc == l && Found(c.Now(), id)
    requires l.name.Some? && l.vmid.Some?
    requires c.slots[Slot(l.vmid.value, l.key.value)].size < v.size
    modifies c
    ensures Extends(old(c.Past()), c.Past())
    ensures c.Valid() && Follows(w0, c.Now(), {id}) && LiveRow(c.Now(), id)
    ensures l'.name == l.name && c.volumes[id].loc.name == l.name
    ensures r.Ok? ==> c.volumes[id].loc == l' && Found(c.Now(), id) && l'.vmid == l.vmid
    ensures r.Ok? ==> WorkDone(c.Now(), id, Resize) && c.slots[Slot(l'.vmid.value, l'.key.value)].size == v.size
    ensures r.Ok? || Troubled(old(c.trouble), c, r) || c.slots == old(c.slots)
    ensures r.Ok? || Troubled(old(c.trouble), c, r) || NotResized(c.Now(), id, r.error)
    ensures Accounted(old(c.trouble), old(c.unrecorded), c, r)
  {
    hide TooSmall, Extends, Safe, Run, Follows, Rely, Loose, SettledInUse;
    Extending();
    l' := l;
    if !Plugged(l.key.value) {
      if l.vmid.value != c.site.holder {
        FollowedRow(w0, c.Now(), id);
        IsTooSmall(c.Now(), id, Slot(l.vmid.value, l.key.value));
        return l', Err(Busy);
      }
      l', r := PlugOnHolder(c, id, l, w0);
      if !r.Ok? {
        FollowedRow(w0, c.Now(), id);
        if c.slots == old(c.slots) {
          IsTooSmall(c.Now(), id, Slot(l.vmid.value, l.key.value));
        }
        return l', r;
      }
    }
    Pause(c, id, w0);
    ghost var w := c.Now();
    var p := Slot(l'.vmid.value, l'.key.value);
    r := Enlarge(c, id, p, v.size, w0);
    assert r.Ok? ==> p in c.slots && c.slots[p].size == v.size;
    FollowedRow(w0, c.Now(), id);
  }

  /** Plugging an unused disk of the holder in there, so that it can be resized. */
  method PlugOnHolder(c: Cloud, id: VolumeId, l: Location, ghost w0: World) returns (l': Location, r: Outcome)
    requires c.Valid() && Follows(w0, c.Now(), {id})
    requires LiveRow(c.Now(), id) && c.volumes[id].loc == l && Found(c.Now(), id) && l.name.Some?
    requires l.vmid == Some(c.site.holder)
    modifies c
    ensures Extends(old(c.Past()), c.Past())
    ensures c.Valid() && Follows(w0, c.Now(), {id}) && LiveRow(c.Now(), id)
    ensures l'.name == l.name && c.volumes[id].loc.name == l.name
    ensures r.Ok? ==> c.volumes[id].loc == l' && Found(c.Now(), id) && l'.vmid == l.vmid
    ensures r.Ok? ==>
              c.slots[Slot(l'.vmid.value, l'.key.value)] == old(c.slots)[Slot(l.vmid.value, l.key.value)]
    ensures r.Ok? ==> Plugged(l'.key.value)
    ensures r.Ok? || CallFailed(r)
    ensures l.key.value.Unused? ==>
              || r.Ok? || Troubled(old(c.trouble), c, r)
              || (r == Err(Failed) && HolderFull(c.Now()) && c.slots == old(c.slots))
    ensures Accounted(old(c.trouble), old(c.unrecorded), c, r)
  {
    hide Extends, HolderFull, Safe, Run, Follows, Rely, Loose, SettledInUse, RowFollows;
    Extending();
    l' := l;
    HolderIsLoose(c.Now(), id);
    PlacesExist(c.Now(), id);
    Pause(c, id, w0);
    var key, read := FreeHolderKey(c);
    if !read.Ok? {
      return l', read;
    }
    if key.None? {
      return l', Err(Failed);
    }
    l', r := PlugAs(c, id, l, key.value, w0);
  }

  /** Plugging the disk in under a key of the VM it is on, and recording that. */
  method PlugAs(c: Cloud, id: VolumeId, l: Location, key: Key, ghost w0: World) returns (l': Location, r: Outcome)
    requires c.Valid() && Follows(w0, c.Now(), {id})
    requires LiveRow(c.Now(), id) && c.volumes[id].loc == l && Found(c.Now(), id) && l.name.Some?
    requires Loose(c.Now(), id)
    modifies c
    ensures Extends(old(c.Past()), c.Past())
    ensures c.Valid() && Follows(w0, c.Now(), {id}) && LiveRow(c.Now(), id)
    ensures l'.name == l.name && c.volumes[id].loc.name == l.name
    ensures r.Ok? ==> c.volumes[id].loc == l' && Found(c.Now(), id) && l'.vmid == l.vmid && l'.key == Some(key)
    ensures r.Ok? ==> c.slots[Slot(l.vmid.value, key)] == old(c.slots)[Slot(l.vmid.value, l.key.value)]
    ensures r.Ok? || CallFailed(r)
    ensures c.trouble == old(c.trouble) && l.key.value.Unused? && Slot(l.vmid.value, key) !in old(c.slots) ==> r.Ok?
    ensures Accounted(old(c.trouble), old(c.unrecorded), c, r)
  {
    hide Extends, Safe, Run, Follows, Rely, Loose, SettledInUse, RowFollows, HolderReady;
    Extending();
    l' := l;
    Pause(c, id, w0);
    LooseNotSettled(c.Now(), id);
    IsUnusedOn(c.Now(), l);
    ghost var w := c.Now();
    r := Plug(c, id, l.vmid.value, key, l.name.value, w0);
    if !r.Ok? {
      return l', r;
    }
    PluggedHome(w, c.Now(), l.vmid.value, key, l.name.value);
    SameDisk(w, c.Now(), l, key);
    Pause(c, id, w0);
    l' := Location(l.vmid, Some(key), l.name, None, None);
    HomeSafe(c.Now(), id, key);
    r := WriteLocation(c, id, l', w0);
  }

  lemma IsUnusedOn(w: World, l: Location)
    requires AtSlot(w, l)
    ensures l.key.value.Unused? ==> UnusedOn(w.slots, l.vmid.value, l.name.value)
  {
    if l.key.value.Unused? {
      var src := Slot(l.vmid.value, l.key.value);
      assert src in w.slots && src.vm == l.vmid.value && src.key.Unused? && w.slots[src].name == l.name.value;
    }
  }

  lemma PluggedHome(w: World, w': World, m: VmId, key: Key, name: DiskName)
    requires DiskPlugged(w, w', m, key, name)
    ensures Slot(m, key) in w'.slots && w'.slots[Slot(m, key)].name == name
    ensures w'.volumes == w.volumes && w'.instances == w.instances
  {
  }

  /** There is one disk of a name, so what is plugged in is the disk that was there. */
  lemma SameDisk(w: World, w': World, l: Location, key: Key)
    requires Safe(w) && AtSlot(w, l) && DiskPlugged(w, w', l.vmid.value, key, l.name.value)
    ensures w'.slots[Slot(l.vmid.value, key)] == w.slots[Slot(l.vmid.value, l.key.value)]
  {
    hide Safe;
    SafeHypervisor(w);
  }

  // ------------------------------------------------------------------- attach

  /** Whether the VM is the instance's to plug disks into. */
  method OwnedVm(c: Cloud, vmid: VmId, i: InstanceId, inst: Instance) returns (owned: bool, r: Outcome)
    modifies c`trouble
    ensures r.Ok? ==> inst.adopted || vmid in c.vms
    ensures r.Ok? ==> (owned <==> inst.adopted || c.vms[vmid] == InstanceVm(i))
    ensures c.Answered(old(c.trouble), r, vmid in c.vms)
  {
    if inst.adopted {
      return true, Ok;
    }
    var owner;
    owner, r := c.VmDescription(vmid);
    owned := owner == InstanceVm(i);
  }

  lemma NamedIsKnown(w: World, id: VolumeId)
    requires Safe(w) && LiveRow(w, id) && w.volumes[id].instance.Some?
    ensures w.volumes[id].instance.value in w.instances && w.volumes[id].device.Some?
  {
    hide HypervisorOK, HolderSlotsOK, InstancesOK, SettledInUse, DiskKept;
    assert VolumeOK(w, id);
  }

  lemma NamedVmAllowed(w: World, id: VolumeId, i: InstanceId, m: VmId)
    requires id in w.volumes && w.volumes[id].instance == Some(i) && i in w.instances
    requires LiveInstance(w.instances[i]) && w.instances[i].vmid == Some(m)
    ensures MayGo(w, w.volumes[id], m)
  {
  }

  /** Another disk is under the device on the VM, or this one is plugged in there under another. */
  predicate DeviceBlocked(w: World, id: VolumeId, vmid: VmId, device: nat) {
    && id in w.volumes
    && var l := w.volumes[id].loc;
       || (Slot(vmid, Virtio(device)) in w.slots && l.name != Some(w.slots[Slot(vmid, Virtio(device))].name))
       || (l.vmid == Some(vmid) && l.key.Some? && Plugged(l.key.value) && l.key != Some(Virtio(device)))
  }

  predicate SomebodyElses(w: World, vmid: VmId, i: InstanceId) {
    vmid in w.vms && w.vms[vmid] != InstanceVm(i) && !(i in w.instances && w.instances[i].adopted)
  }

  /** What keeps a disk from getting under a device of an instance's VM: for now, that the VM
      is not there or has no unused key left; for good, that it is somebody else's or that the
      device is blocked. */
  ghost predicate NoWayIn(w: World, w': World, id: VolumeId, i: InstanceId, vmid: VmId, device: nat, e: Error) {
    || (e.Failed? && vmid !in w.vms)
    || (e.NoSlot? && NoRoomOn(w', vmid))
    || (e.GiveUp? && (SomebodyElses(w', vmid, i) || DeviceBlocked(w', id, vmid, device)))
  }

  /** What keeps a volume from being attached: for now, that its instance is busy; for good,
      that it is on its way out or, if it was not busy, that it has no VM; or there is no way in. */
  ghost predicate NotAttached(w: World, w': World, id: VolumeId, i: InstanceId, device: nat, e: Error) {
    && id in w.volumes && id in w'.volumes && i in w.instances && i in w'.instances
    && var inst := w'.instances[i];
       || (e.Busy? && InstanceBusy(w', id))
       || (e.GiveUp? && Leaving(inst))
       || (e.GiveUp? && !InstanceBusy(w, id) && (!inst.vmCreated || inst.vmid.None?))
       || (!InstanceBusy(w, id) && inst.vmid.Some? && NoWayIn(w, w', id, i, inst.vmid.value, device, e))
  }

  lemma FoundHasKey(w: World, id: VolumeId)
    requires id in w.volumes && Found(w, id) && w.volumes[id].loc.name.Some?
    ensures w.volumes[id].loc.key.Some?
  {
  }

  lemma EndingIsLeaving(w: World, i: InstanceId)
    requires Safe(w) && i in w.instances && (w.instances[i].state.Terminated? || w.instances[i].state.ShuttingDown?)
    ensures Leaving(w.instances[i])
  {
    hide Safe;
    SafeInstance(w, i);
  }

  lemma PendingIsBusy(w: World, id: VolumeId, i: InstanceId)
    requires Safe(w) && id in w.volumes && w.volumes[id].instance == Some(i) && i in w.instances
    requires w.instances[i].pending.Some? && !w.instances[i].state.ShuttingDown?
    ensures InstanceBusy(w, id)
  {
    hide Safe;
    SafeInstance(w, i);
  }

  /** The VMs there are stay while the worker deals with a volume. */
  lemma VmRemains(w: World, w': World, id: VolumeId, m: VmId)
    requires Follows(w, w', {id}) && m in w.vms
    ensures m in w'.vms
  {
  }

  /** The guest has since been seen to have taken the disk under the device asked for. */
  ghost predicate Taken(past: Log, now: Log, v: Volume) {
    && v.loc.vmid.Some? && v.device.Some?
    && Since(now.events, |past.events|, GuestShown(v.loc.vmid.value, Virtio(v.device.value), false))
  }

  /** The VM the disk is on is another than its instance's. */
  predicate SomebodyElsesDisk(w: World, id: VolumeId)
    requires id in w.volumes
  {
    var v := w.volumes[id];
    v.loc.vmid.Some? && v.instance.Some? && SomebodyElses(w, v.loc.vmid.value, v.instance.value)
  }

  /** A volume is attached only to a VM of its instance's own that was not busy, and only once
      the guest has taken the disk. */
  method AttachVolumeDisk(c: Cloud, id: VolumeId, v: Volume) returns (l: Location, r: Outcome)
    requires c.Valid() && LiveRow(c.Now(), id) && c.volumes[id] == v && v.pending == Some(Attach)
    modifies c
    ensures Extends(old(c.Past()), c.Past())
    ensures c.Valid() && Follows(old(c.Now()), c.Now(), {id}) && LiveRow(c.Now(), id)
    ensures r.Ok? ==> c.volumes[id].loc == l && WorkDone(c.Now(), id, Attach) && !InstanceBusy(old(c.Now()), id)
    ensures v.instance.Some? && v.device.Some?
    ensures r.Ok? ==> Taken(old(c.Past()), c.Past(), c.volumes[id]) && !SomebodyElsesDisk(c.Now(), id)
    ensures || r.Ok? || Troubled(old(c.trouble), c, r)
            || NotAttached(old(c.Now()), c.Now(), id, v.instance.value, v.device.value, r.error)
    ensures Accounted(old(c.trouble), old(c.unrecorded), c, r)
  {
    hide Since, SomebodyElses, Extends, NoWayIn, Found, HolderReady, Safe, Run, Follows, Rely, MayGo, Loose, OwnName;
    Extending();
    ghost var w0 := c.Now();
    FollowsSelf(w0, {id});
    l := v.loc;
    ShapeOf(w0, id);
    NamedIsKnown(w0, id);
    var i := v.instance.value;
    Pause(c, id, w0);
    ghost var w1 := c.Now();
    NamedInstanceStays(w0, w1, id, i);
    var inst, read := c.ReadInstance(i);
    if !read.Ok? {
      return l, read;
    }
    if inst.value.state.Terminated? || inst.value.state.ShuttingDown? {
      EndingIsLeaving(c.Now(), i);
      return l, Err(GiveUp);
    } else if inst.value.pending.Some? {
      PendingIsBusy(c.Now(), id, i);
      return l, Err(Busy);
    } else if inst.value.vmid.None? || !inst.value.vmCreated {
      return l, Err(GiveUp);
    }
    ghost var past := c.Past();
    l, r := AttachToInstance(c, id, l, i, inst.value, v.device.value, w0);
    NamedInstanceStays(w0, c.Now(), id, i);
    Happened(old(c.Past()), past, c.Past());
  }

  /** An instance keeps its VM while the worker deals with a volume that names it. */
  lemma StillOwn(w1: World, w2: World, w: World, id: VolumeId, vmid: VmId, i: InstanceId)
    requires Follows(w1, w2, {id}) && Follows(w1, w, {id}) && w2.vms == w1.vms && i in w1.instances
    requires w1.instances[i].adopted || (vmid in w2.vms && w2.vms[vmid] == InstanceVm(i))
    ensures !SomebodyElses(w, vmid, i)
  {
    if w1.instances[i].adopted {
      assert InstanceFollows(w1.instances[i], w.instances[i]);
    }
  }

  /** The same once the instance is known to be neither busy nor going. */
  method AttachToInstance(
    c: Cloud, id: VolumeId, l0: Location, i: InstanceId, inst: Instance, device: nat, ghost w0: World)
    returns (l: Location, r: Outcome)
    requires c.Valid() && Rely(w0, c.Now()) && LiveRow(w0, id) && w0.volumes[id].pending == Some(Attach)
    requires w0.volumes[id].instance == Some(i) && w0.volumes[id].device == Some(device) && i in w0.instances
    requires i in c.instances && c.instances[i] == inst && LiveInstance(inst) && inst.vmid.Some?
    requires LiveRow(c.Now(), id) && c.volumes[id].loc == l0 && l0.name.Some? && c.volumes[id].pending == Some(Attach)
    requires c.volumes[id].instance == Some(i) && c.volumes[id].device == Some(device)
    modifies c
    ensures Extends(old(c.Past()), c.Past())
    ensures c.Valid() && Follows(w0, c.Now(), {id}) && LiveRow(c.Now(), id)
    ensures r.Ok? ==> c.volumes[id].loc == l && WorkDone(c.Now(), id, Attach)
    ensures r.Ok? ==> Since(c.events, |old(c.events)|, GuestShown(inst.vmid.value, Virtio(device), false))
    ensures r.Ok? ==> !SomebodyElses(c.Now(), inst.vmid.value, i)
    ensures || r.Ok? || Troubled(old(c.trouble), c, r)
            || NoWayIn(w0, c.Now(), id, i, inst.vmid.value, device, r.error)
    ensures Accounted(old(c.trouble), old(c.unrecorded), c, r)
  {
    hide Since, Extends, NoRoomOn, DeviceBlocked, Found, HolderReady, Safe, Run, Follows, Rely, MayGo, Loose,
         OwnName, HasVm;
    Extending();
    l := l0;
    var vmid := inst.vmid.value;
    ghost var w1 := c.Now();
    FollowsSelf(w1, {id});
    RelyFollows(w0, w1, id);
    Pause(c, id, w1);
    var owned, asked := OwnedVm(c, vmid, i, inst);
    if !asked.Ok? || !owned {
      Onward(w0, w1, c.Now(), id);
      NamedInstanceStays(w0, w1, id, i);
      NamedInstanceStays(w0, c.Now(), id, i);
      return l, if asked.Ok? then Err(GiveUp) else asked;
    }
    ghost var w2 := c.Now();
    ghost var past := c.Past();
    l, r := AttachTo(c, id, l, i, vmid, device, w1);
    Happened(old(c.Past()), past, c.Past());
    NamedInstanceStays(w0, w1, id, i);
    StillOwn(w1, w2, c.Now(), id, vmid, i);
    Onward(w0, w1, c.Now(), id);
  }

  lemma RelyFollows(w: World, w': World, id: VolumeId)
    requires Rely(w, w')
    ensures Follows(w, w', {id}) && w'.vms == w.vms
  {
    FollowsWider(w, w', {}, {id});
  }

  /** The same to a VM that has just been seen to be the instance's. */
  method AttachTo(c: Cloud, id: VolumeId, l0: Location, i: InstanceId, vmid: VmId, device: nat, ghost w0: World)
    returns (l: Location, r: Outcome)
    requires c.Valid() && Follows(w0, c.Now(), {id}) && LiveRow(w0, id) && w0.volumes[id].pending == Some(Attach)
    requires w0.volumes[id].instance == Some(i) && w0.volumes[id].device == Some(device)
    requires i in w0.instances && LiveInstance(w0.instances[i]) && w0.instances[i].vmid == Some(vmid)
    requires LiveRow(c.Now(), id) && c.volumes[id].loc == l0 && l0.name.Some?
    modifies c
    ensures Extends(old(c.Past()), c.Past())
    ensures c.Valid() && Follows(w0, c.Now(), {id}) && LiveRow(c.Now(), id)
    ensures r.Ok? ==> c.volumes[id].loc == l && WorkDone(c.Now(), id, Attach)
    ensures r.Ok? ==> Since(c.events, |old(c.events)|, GuestShown(vmid, Virtio(device), false))
    ensures || r.Ok? || Troubled(old(c.trouble), c, r)
            || NoWayIn(old(c.Now()), c.Now(), id, i, vmid, device, r.error)
    ensures Accounted(old(c.trouble), old(c.unrecorded), c, r)
  {
    hide Since, Extends, NoRoomOn, HolderReady, Safe, Run, Follows, Rely, MayGo, Loose, Found, OwnName, Received;
    Extending();
    ghost var w := c.Now();
    FollowedRow(w0, w, id);
    l, r := Locate(c, id, l0);
    Onward(w0, w, c.Now(), id);
    if !r.Ok? {
      return l, r;
    }
    if l.vmid != Some(vmid) {
      l, r := BringToInstance(c, id, l, vmid, w0);
      if !r.Ok? {
        return l, r;
      }
    }
    if l.key != Some(Virtio(device)) {
      l, r := PlugIntoInstance(c, id, l, vmid, device, w0);
      if !r.Ok? {
        return l, r;
      }
    }
    ghost var past := c.Past();
    r := SeeTaken(c, id, l, i, vmid, device, w0);
    Happened(old(c.Past()), past, c.Past());
  }

  /** Whether the guest has taken the disk: an attach is not done before. */
  method SeeTaken(c: Cloud, id: VolumeId, l: Location, i: InstanceId, vmid: VmId, device: nat, ghost w0: World)
    returns (r: Outcome)
    requires c.Valid() && Follows(w0, c.Now(), {id}) && LiveRow(w0, id) && w0.volumes[id].instance == Some(i)
    requires w0.volumes[id].device == Some(device) && i in w0.instances && w0.instances[i].vmid == Some(vmid)
    requires LiveRow(c.Now(), id) && c.volumes[id].loc == l && Found(c.Now(), id) && l.name.Some?
    requires l.vmid == Some(vmid) && l.key == Some(Virtio(device))
    modifies c
    ensures Extends(old(c.Past()), c.Past())
    ensures c.Valid() && Follows(w0, c.Now(), {id}) && LiveRow(c.Now(), id) && c.volumes[id].loc == l
    ensures r.Ok? ==> WorkDone(c.Now(), id, Attach)
    ensures r.Ok? ==> Since(c.events, |old(c.events)|, GuestShown(vmid, Virtio(device), false))
    ensures Managed(old(c.trouble), old(c.unrecorded), c, r, true)
  {
    hide Since, Extends, HolderReady, Safe, Run, Follows, Rely, MayGo, Loose, OwnName;
    Extending();
    Pause(c, id, w0);
    ghost var past := c.Past();
    JustHappened(c.events, |c.events|, GuestShown(vmid, Virtio(device), false));
    var waiting;
    waiting, r := AskGuest(c, vmid, Virtio(device));
    Happened(old(c.Past()), past, c.Past());
    if r.Ok? && waiting {
      return Err(Failed);
    }
    NamedInstanceStays(w0, c.Now(), id, i);
    if r.Ok? {
      AttachedDone(c.Now(), id, i, vmid, device);
    }
  }

  lemma AttachedDone(w: World, id: VolumeId, i: InstanceId, vmid: VmId, device: nat)
    requires id in w.volumes && Found(w, id)
    requires w.volumes[id].instance == Some(i) && w.volumes[id].device == Some(device)
    requires i in w.instances && w.instances[i].vmid == Some(vmid)
    requires var l := w.volumes[id].loc; l.vmid == Some(vmid) && l.key == Some(Virtio(device)) && l.name.Some?
    ensures WorkDone(w, id, Attach)
  {
  }

  /** Taking the disk from wherever it is to the instance's VM. */
  method BringToInstance(c: Cloud, id: VolumeId, l: Location, vmid: VmId, ghost w0: World)
    returns (l': Location, r: Outcome)
    requires c.Valid() && Follows(w0, c.Now(), {id}) && LiveRow(w0, id) && w0.volumes[id].pending == Some(Attach)
    requires w0.volumes[id].instance.Some? && w0.volumes[id].instance.value in w0.instances
    requires var inst := w0.instances[w0.volumes[id].instance.value]; LiveInstance(inst) && inst.vmid == Some(vmid)
    requires LiveRow(c.Now(), id) && c.volumes[id].loc == l && Found(c.Now(), id)
    requires l.name.Some? && l.vmid != Some(vmid)
    modifies c
    ensures Extends(old(c.Past()), c.Past())
    ensures c.Valid() && Follows(w0, c.Now(), {id}) && LiveRow(c.Now(), id)
    ensures r.Ok? ==> c.volumes[id].loc == l' && Found(c.Now(), id) && l'.name.Some? && l'.vmid == Some(vmid)
    ensures r.Ok? ==> l'.key.Some? && l'.key.value.Unused?
    ensures || r.Ok? || Troubled(old(c.trouble), c, r) || (r == Err(NoSlot) && NoRoomOn(c.Now(), vmid))
            || (r == Err(Failed) && vmid !in old(c.vms))
    ensures Accounted(old(c.trouble), old(c.unrecorded), c, r)
  {
    hide Extends, NoRoomOn, HolderReady, Safe, Run, Follows, Rely, MayGo, Found, OwnName, DisksStay;
    Extending();
    FollowedRow(w0, c.Now(), id);
    ghost var w := c.Now();
    l', r := Unplug(c, id, l);
    Onward(w0, w, c.Now(), id);
    if !r.Ok? {
      return l', r;
    }
    if vmid in w.vms {
      VmRemains(w, c.Now(), id, vmid);
    }
    w := c.Now();
    NamedInstanceStays(w0, w, id, w0.volumes[id].instance.value);
    FoundHasKey(w, id);
    NamedVmAllowed(w, id, w0.volumes[id].instance.value, vmid);
    l', r := HandOver(c, id, l', vmid);
    Onward(w0, w, c.Now(), id);
  }

  /** Plugging the disk in under exactly the device the row asks for. */
  method PlugIntoInstance(c: Cloud, id: VolumeId, l: Location, vmid: VmId, device: nat, ghost w0: World)
    returns (l': Location, r: Outcome)
    requires c.Valid() && Follows(w0, c.Now(), {id}) && LiveRow(w0, id) && w0.volumes[id].pending == Some(Attach)
    requires LiveRow(c.Now(), id) && c.volumes[id].loc == l && Found(c.Now(), id)
    requires l.name.Some? && l.vmid == Some(vmid) && l.key != Some(Virtio(device))
    modifies c
    ensures Extends(old(c.Past()), c.Past())
    ensures c.Valid() && Follows(w0, c.Now(), {id}) && LiveRow(c.Now(), id)
    ensures r.Ok? ==> c.volumes[id].loc == l' && Found(c.Now(), id) && l'.name.Some?
    ensures r.Ok? ==> l'.vmid == Some(vmid) && l'.key == Some(Virtio(device))
    ensures || r.Ok? || Troubled(old(c.trouble), c, r)
            || (r == Err(GiveUp) && DeviceBlocked(c.Now(), id, vmid, device))
    ensures Accounted(old(c.trouble), old(c.unrecorded), c, r)
  {
    hide Extends, NoRoomOn, Safe, Run, Follows, Rely, MayGo, SettledInUse;
    Extending();
    l' := l;
    if Plugged(l.key.value) {
      return l', Err(GiveUp);
    }
    FollowedRow(w0, c.Now(), id);
    Pause(c, id, w0);
    PlacesExist(c.Now(), id);
    var config, read := c.VmConfig(vmid);
    if !read.Ok? {
      return l', read;
    }
    if Virtio(device) in config {
      AnothersDisk(c.Now(), id, Slot(vmid, Virtio(device)));
      return l', Err(GiveUp);
    }
    l', r := PlugAs(c, id, l, Virtio(device), w0);
  }

  lemma AnothersDisk(w: World, id: VolumeId, p: Slot)
    requires Safe(w) && id in w.volumes && AtSlot(w, w.volumes[id].loc) && p in w.slots
    requires p != Slot(w.volumes[id].loc.vmid.value, w.volumes[id].loc.key.value)
    ensures w.volumes[id].loc.name != Some(w.slots[p].name)
  {
    hide Safe;
    SafeHypervisor(w);
  }

  // -------------------------------------------------------------- one attempt

  /** What was done stays done until it is recorded. */
  lemma DoneKeeps(w: World, w': World, id: VolumeId, action: VolumeAction)
    requires Rely(w, w') && LiveRow(w, id) && w.volumes[id].pending == Some(action) && WorkDone(w, id, action)
    ensures LiveRow(w', id) && w'.volumes[id] == w.volumes[id] && WorkDone(w', id, action)
  {
    assert RowFollows(w.volumes[id], w'.volumes[id]);
    if action.Attach? {
      var i := w.volumes[id].instance.value;
      assert InstanceFollows(w.instances[i], w'.instances[i]);
    }
  }

  /** What, besides a failed call, makes an attempt at a volume's action fail with `e`: nothing
      makes a delete, and only a busy instance a detach. */
  ghost predicate Hindered(w: World, w': World, id: VolumeId, v: Volume, e: Error)
    requires v.pending.Some?
  {
    && id in w.volumes && id in w'.volumes
    && match v.pending.value
       case Create => NotCreated(w, w', v, e)
       case Attach => v.instance.Some? && v.device.Some? && NotAttached(w, w', id, v.instance.value, v.device.value, e)
       case Detach => e.Busy? && HeldUp(w', id)
       case Resize => NotResized(w', id, e)
       case Delete => false
  }

  /** The guest has taken the disk of a volume that is attached now, and let go of the disk of one
      that is detached. */
  ghost predicate GuestAgreed(w: World, past: Log, now: Log, id: VolumeId, v: Volume, v': Volume)
    requires v.pending.Some?
  {
    match v.pending.value
    case Attach => Taken(past, now, v')
    case Detach => forall p | OwnDiskAt(w, id, p) && Plugged(p.key) :: LetGo(past, now, id, p, w.site.holder)
    case _ => true
  }

  lemma AgreedStays(w: World, w': World, a: Log, b: Log, c: Log, id: VolumeId, v: Volume, v': Volume, v'': Volume)
    requires v.pending.Some? && v'.pending == v.pending && v''.loc == v'.loc
    requires Extends(a, b) && Extends(b, c) && GuestAgreed(w, a, b, id, v, v')
    requires v'' == v' || Concluded(w', id, v', Ok, v'')
    ensures GuestAgreed(w, a, c, id, v, v'')
  {
    hide Since, FreeSince, OwnDiskAt;
    Happened(a, b, c);
    FreeStays(a, b, c, id);
  }

  /** An action is carried out unless a call fails or it is hindered. */
  method CarryOut(c: Cloud, id: VolumeId, v: Volume) returns (l: Location, r: Outcome)
    requires c.Valid() && LiveRow(c.Now(), id) && c.volumes[id] == v && v.pending.Some?
    modifies c
    ensures Extends(old(c.Past()), c.Past())
    ensures c.Valid() && Follows(old(c.Now()), c.Now(), {id}) && LiveRow(c.Now(), id)
    ensures r.Ok? ==> WorkDone(c.Now(), id, v.pending.value)
    ensures r.Ok? && v.pending == Some(Attach) ==> !InstanceBusy(old(c.Now()), id)
    ensures v.pending == Some(Resize) ==> OwnName(c.Now(), id, l)
    ensures r.Ok? ==> GuestAgreed(old(c.Now()), old(c.Past()), c.Past(), id, v, c.volumes[id])
    ensures r.Ok? || c.trouble > old(c.trouble) || (v.pending == Some(Resize) ==> Known(c.Now(), l))
    ensures Accounted(old(c.trouble), old(c.unrecorded), c, r)
    ensures || r.Ok? || (c.trouble > old(c.trouble) && Curable(r.error))
            || Hindered(old(c.Now()), c.Now(), id, v, r.error)
  {
    hide Taken, LetGo, OwnDiskAt, OwnSize, Known, Extends, NotCreated, NotAttached, NotResized, InstanceBusy,
         HeldUp, Safe, Run, Follows, WorkDone, OwnName;
    Extending();
    match v.pending.value {
      case Create => l, r := CreateVolumeDisk(c, id, v);
      case Attach => l, r := AttachVolumeDisk(c, id, v);
      case Detach => l, r := DetachVolumeDisk(c, id, v);
      case Resize => l, r := ResizeVolumeDisk(c, id, v);
      case Delete => l, r := DeleteVolumeDisk(c, id, v);
    }
  }

  /** The errors that failed calls end in. */
  predicate Curable(e: Error) { e.Crash? || e.Failed? || e.DiskMissing? }

  /** An update of one row by a legal step is a legal step of the whole, if it counts
      the attempt it records. */
  lemma VolumeUpdateStep(w: World, id: VolumeId, v': Volume, e: Event)
    requires LiveRow(w, id) && VolumeStep(w.volumes[id], v')
    requires v'.instance.Some? ==> v'.instance == w.volumes[id].instance
    requires e.Call? || (e.VolumeAttempt? && e.id == id)
    requires w.volumes[id].pending.Some? && v'.pending == w.volumes[id].pending ==>
               v'.attempts == w.volumes[id].attempts + OneIfVolumeFailed(e, id, v'.pending.value)
    requires QuotaStep(w, SetVolume(w, id, v'))
    ensures Step(w, e, SetVolume(w, id, v'))
  {
    hide QuotaStep;
    var w' := SetVolume(w, id, v');
    forall i | i in w.instances && NamedBySome(w', i) ensures NamedBySome(w, i) {
      var b :| b in w'.volumes && LiveVolume(w'.volumes[b]) && w'.volumes[b].instance == Some(i);
      assert b in w.volumes && LiveVolume(w.volumes[b]) && w.volumes[b].instance == Some(i);
    }
  }

  lemma FinishStep(w: World, id: VolumeId, action: VolumeAction)
    requires LiveRow(w, id) && w.volumes[id].pending == Some(action)
    ensures Step(w, VolumeAttempt(id, action, false), SetVolume(w, id, FinishVolumeAction(w.volumes[id], action)))
  {
    hide Step, QuotaStep;
    LighterRow(w, id, FinishVolumeAction(w.volumes[id], action));
    VolumeUpdateStep(w, id, FinishVolumeAction(w.volumes[id], action), VolumeAttempt(id, action, false));
  }

  lemma RetryStep(w: World, id: VolumeId, action: VolumeAction)
    requires LiveRow(w, id) && w.volumes[id].pending == Some(action)
    ensures Step(w, VolumeAttempt(id, action, true), SetVolume(w, id, RetryVolumeLater(w.volumes[id], action)))
  {
    hide Step, QuotaStep;
    LighterRow(w, id, RetryVolumeLater(w.volumes[id], action));
    VolumeUpdateStep(w, id, RetryVolumeLater(w.volumes[id], action), VolumeAttempt(id, action, true));
  }

  lemma GiveUpStep(w: World, id: VolumeId)
    requires LiveRow(w, id)
    ensures w.volumes[id].pending == Some(Create) ==>
              Step(w, VolumeAttempt(id, Create, true), SetVolume(w, id, GiveUpCreate(w.volumes[id])))
    ensures w.volumes[id].pending == Some(Attach) ==>
              Step(w, VolumeAttempt(id, Attach, true), SetVolume(w, id, GiveUpAttach(w.volumes[id])))
  {
    hide Step, QuotaStep;
    LighterRow(w, id, GiveUpCreate(w.volumes[id]));
    LighterRow(w, id, GiveUpAttach(w.volumes[id]));
    if w.volumes[id].pending == Some(Create) {
      VolumeUpdateStep(w, id, GiveUpCreate(w.volumes[id]), VolumeAttempt(id, Create, true));
    } else if w.volumes[id].pending == Some(Attach) {
      VolumeUpdateStep(w, id, GiveUpAttach(w.volumes[id]), VolumeAttempt(id, Attach, true));
    }
  }

  /** Giving up a resize keeps every limit, but for what the volume's own disk is larger. */
  lemma GiveUpResizeStep(w: World, id: VolumeId, actual: nat)
    requires LiveRow(w, id) && w.volumes[id].pending == Some(Resize)
    requires actual == w.volumes[id].size || OwnSize(w, id, actual)
    ensures Step(w, VolumeAttempt(id, Resize, true), SetVolume(w, id, GiveUpResize(w.volumes[id], actual)))
  {
    hide Step, StaysUnder, NothingAdded;
    var v := w.volumes[id];
    var w' := SetVolume(w, id, GiveUpResize(v, actual));
    if actual <= v.size {
      LighterRow(w, id, GiveUpResize(v, actual));
    } else {
      GrowthOnly(w, id, actual);
    }
    VolumeUpdateStep(w, id, GiveUpResize(v, actual), VolumeAttempt(id, Resize, true));
  }

  lemma GrowthOnly(w: World, id: VolumeId, actual: nat)
    requires LiveRow(w, id) && w.volumes[id].pending == Some(Resize)
    requires actual > w.volumes[id].size && OwnSize(w, id, actual)
    ensures QuotaStep(w, SetVolume(w, id, GiveUpResize(w.volumes[id], actual)))
  {
    hide Usage;
    var v := w.volumes[id];
    var w' := SetVolume(w, id, GiveUpResize(v, actual));
    assert GrewAt(w, w', id);
    forall a: AccountId, m: Measure | LimitOf(w.site.limits, m) > 0
      ensures StaysUnder(LimitOf(w.site.limits, m), w.volumes, w.instances, w'.volumes, w'.instances, Some(a), m)
              || (m.VolumeGiB? && GrewFor(w, w', a))
    {
      GiveUpAdds(w.volumes, w.instances, id, actual, Some(a), m);
    }
    GiveUpAdds(w.volumes, w.instances, id, actual, None, Memory);
  }

  /** Whether a failed attempt is to be repeated: a detach or delete always is, since
      giving up would strand the disk or leak its space. */
  predicate Retries(maxAttempts: nat, v: Volume, r: Outcome) {
    (r != Err(GiveUp) && v.attempts + 1 < maxAttempts) || v.pending == Some(Detach) || v.pending == Some(Delete)
  }

  /** What an attempt that ended in `r` makes of the row `v`: it is finished, or counted
      for a retry, or given up. */
  ghost predicate Concluded(w: World, id: VolumeId, v: Volume, r: Outcome, v': Volume)
    requires v.pending.Some?
  {
    if r.Ok? then Finished(v, v')
    else if Retries(w.site.maxAttempts, v, r) then v' == v.(attempts := v.attempts + 1)
    else GivenUp(w, id, v, v')
  }

  /** A volume created or detached is available and a detached one nobody's, an attached one
      is in use, a deleted one gone; a resize leaves everything else as it is. */
  predicate Finished(v: Volume, v': Volume)
    requires v.pending.Some?
  {
    match v.pending.value
    case Create => v' == v.(state := Available, pending := None, attempts := 0)
    case Attach => v' == v.(state := InUse, attachment := Some(Attached), pending := None, attempts := 0)
    case Detach =>
      v' == v.(state := Available, instance := None, device := None, attachment := None, pending := None, attempts := 0)
    case Resize => v' == v.(pending := None, attempts := 0)
    case Delete => v' == v.(state := Deleted, pending := None, attempts := 0)
  }

  /** A create ends in error, an attach becomes a detach, and a resize leaves the size
      asked for or takes the one the volume's own disk has. */
  ghost predicate GivenUp(w: World, id: VolumeId, v: Volume, v': Volume)
    requires v.pending.Some?
  {
    match v.pending.value
    case Create => v' == v.(state := VolumeError, pending := None, attempts := 0)
    case Attach => v' == v.(attachment := Some(Detaching), pending := Some(Detach), attempts := 0)
    case Resize =>
      && v' == v.(size := v'.size, pending := None, attempts := 0)
      && (v'.size == v.size || OwnSize(w, id, v'.size))
    case _ => false
  }

  /** One attempt at a volume's pending action. Unless the process died, the attempt is
      concluded and noted as one that failed or did not, or else the write that was to
      do so failed. The action is done unless a call failed, which is retried as long as there
      are attempts left, or it was hindered in some state on the way; so an attach that meets
      a busy instance stays pending, while nobody has the instance terminated. */
  method ProcessVolume(c: Cloud, id: VolumeId) returns (r: Outcome)
    requires c.Valid() && LiveRow(c.Now(), id) && c.volumes[id].pending.Some?
    modifies c
    ensures Extends(old(c.Past()), c.Past())
    ensures c.Valid() && id in c.volumes && InstancesFollow(old(c.Now()), c.Now())
    ensures var v, v' := old(c.volumes)[id].(loc := c.volumes[id].loc), c.volumes[id];
            && (v' == v || (r != Err(Crash) && Concluded(c.Now(), id, v, r, v')))
            && (r != Err(Crash) && c.unrecorded == old(c.unrecorded) ==>
                  && Concluded(c.Now(), id, v, r, v')
                  && c.events[|c.events| - 1] == VolumeAttempt(id, v.pending.value, !r.Ok?))
    ensures c.trouble >= old(c.trouble) && c.unrecorded >= old(c.unrecorded)
    ensures c.trouble == old(c.trouble) ==> r != Err(Crash) && c.unrecorded == old(c.unrecorded)
    ensures || r.Ok? || (c.trouble > old(c.trouble) && Curable(r.error))
            || HinderedSince(c.history, |old(c.history)| - 1, old(c.Now()), id, old(c.volumes)[id], r.error)
    ensures r.Ok? ==> GuestAgreed(old(c.Now()), old(c.Past()), c.Past(), id, old(c.volumes)[id], c.volumes[id])
    ensures var v := old(c.volumes)[id];
            c.trouble == old(c.trouble) && v.pending == Some(Resize) && !r.Ok? && !Retries(c.site.maxAttempts, v, r) ==>
              OwnSize(c.Now(), id, c.volumes[id].size)
    ensures var v := old(c.volumes)[id];
            BusyMeanwhile(old(c.Now()), id, v) && v.attempts + 1 < c.site.maxAttempts ==>
              || v.instance.value !in c.instances || Leaving(c.instances[v.instance.value])
              || (c.volumes[id].pending == Some(Attach) && c.volumes[id].instance == v.instance)
  {
    hide GuestAgreed, Known, OwnSize, Extends, Hindered, HinderedSince, Safe, Run, Step, Follows, Rely, WorkDone,
         OwnName, Concluded;
    Extending();
    ghost var w0 := c.Now();
    var v := c.volumes[id];
    var l;
    l, r := CarryOut(c, id, v);
    FollowedRow(w0, c.Now(), id);
    TheyFollow(w0, c.Now(), id);
    if r != Err(Crash) {
      ghost var before, h := c.Past(), c.history;
      var now := v.(loc := c.volumes[id].loc);
      Conclude(c, id, now, l, r);
      if r.Ok? {
        AgreedStays(w0, c.Now(), old(c.Past()), before, c.Past(), id, v, now, c.volumes[id]);
      }
      BusyStays(w0, h[|h| - 1], c.Now(), id, v);
      if v.pending == Some(Attach) && !r.Ok? && r != Err(GiveUp) && v.attempts + 1 < c.site.maxAttempts {
        RetriedOrNot(c.Now(), id, now, r, c.volumes[id]);
      }
      if !r.Ok? && Hindered(w0, h[|h| - 1], id, v, r.error) {
        PastExtends(old(c.Past()), before, c.Past());
        HinderedThen(h, c.history, |old(c.history)| - 1, w0, id, v, r.error);
      }
    }
  }

  lemma PastExtends(a: Log, b: Log, c: Log)
    requires Extends(a, b) && Extends(b, c)
    ensures |a.states| <= |b.states| && Extends(Log(b.states, []), Log(c.states, []))
  {
  }

  ghost predicate HinderedSince(h: seq<World>, since: int, w: World, id: VolumeId, v: Volume, e: Error)
    requires v.pending.Some?
  {
    exists k :: 0 <= k < |h| && since <= k && Hindered(w, h[k], id, v, e)
  }

  lemma HinderedThen(h: seq<World>, h': seq<World>, since: int, w: World, id: VolumeId, v: Volume, e: Error)
    requires v.pending.Some? && |h| > 0 && since < |h| && Extends(Log(h, []), Log(h', []))
    requires Hindered(w, h[|h| - 1], id, v, e)
    ensures HinderedSince(h', since, w, id, v, e)
  {
    hide Hindered;
    assert h'[|h| - 1] == h[|h| - 1];
  }

  lemma TheyFollow(w: World, w': World, id: VolumeId)
    requires Follows(w, w', {id})
    ensures InstancesFollow(w, w')
  {
  }

  lemma OthersFollow(w: World, w': World)
    requires Rely(w, w')
    ensures InstancesFollow(w, w')
  {
  }

  /** A busy instance keeps a volume from being attached for good only once it is terminated. */
  lemma BusyStays(w0: World, w: World, w': World, id: VolumeId, v: Volume)
    requires InstancesFollow(w0, w) && InstancesFollow(w, w') && id in w0.volumes && v.pending.Some?
    ensures InstancesFollow(w0, w')
    ensures BusyMeanwhile(w0, id, v) && Hindered(w0, w, id, v, GiveUp) ==> Leaving(w'.instances[v.instance.value])
  {
    hide NoWayIn, NotCreated, NotResized;
    if BusyMeanwhile(w0, id, v) && Hindered(w0, w, id, v, GiveUp) {
      assert InstanceFollows(w.instances[v.instance.value], w'.instances[v.instance.value]);
    }
  }

  predicate BusyMeanwhile(w: World, id: VolumeId, v: Volume) {
    v.pending == Some(Attach) && id in w.volumes && w.volumes[id].instance == v.instance && InstanceBusy(w, id)
  }

  lemma RetriedOrNot(w: World, id: VolumeId, v: Volume, r: Outcome, v': Volume)
    requires v.pending == Some(Attach) && !r.Ok? && r != Err(GiveUp) && v.attempts + 1 < w.site.maxAttempts
    requires v' == v || Concluded(w, id, v, r, v')
    ensures v'.pending == v.pending && v'.instance == v.instance
  {
  }

  /** Recording how an attempt has ended. */
  method Conclude(c: Cloud, id: VolumeId, v: Volume, l: Location, r: Outcome)
    requires c.Valid() && LiveRow(c.Now(), id) && c.volumes[id] == v && v.pending.Some?
    requires r.Ok? ==> WorkDone(c.Now(), id, v.pending.value)
    requires v.pending == Some(Resize) ==> OwnName(c.Now(), id, l)
    modifies c
    ensures Extends(old(c.Past()), c.Past())
    ensures c.Valid() && id in c.volumes && c.volumes[id].loc == v.loc && InstancesFollow(old(c.Now()), c.Now())
    ensures c.volumes[id] == v || Concluded(c.Now(), id, v, r, c.volumes[id])
    ensures c.unrecorded == old(c.unrecorded) ==>
              && Concluded(c.Now(), id, v, r, c.volumes[id])
              && c.events[|c.events| - 1] == VolumeAttempt(id, v.pending.value, !r.Ok?)
    ensures && c.trouble == old(c.trouble) && v.pending == Some(Resize)
            && !r.Ok? && !Retries(c.site.maxAttempts, v, r) && Known(old(c.Now()), l) ==>
              OwnSize(c.Now(), id, c.volumes[id].size)
    ensures c.trouble >= old(c.trouble) && c.unrecorded >= old(c.unrecorded)
    ensures c.trouble == old(c.trouble) ==> c.unrecorded == old(c.unrecorded)
  {
    hide Known, OwnSize, Extends, Safe, Run, Step, Follows, Rely, WorkDone, OwnName;
    Extending();
    ghost var w := c.Now();
    var action := v.pending.value;
    if r.Ok? {
      Others(c);
      OthersFollow(w, c.Now());
      DoneKeeps(w, c.Now(), id, action);
      FinishSafe(c.Now(), id, action);
      FinishStep(c.Now(), id, action);
      var _ := WriteVolume(c, id, row => FinishVolumeAction(row, action), VolumeAttempt(id, action, false));
      return;
    }
    var attempts := v.attempts + 1;
    var retry := (r != Err(GiveUp) && attempts < c.site.maxAttempts) || action.Detach? || action.Delete?;
    if retry {
      Others(c);
      OthersFollow(w, c.Now());
      RelyKeeps(w, c.Now(), id);
      RetryVolumeSafe(c.Now(), id, action);
      RetryStep(c.Now(), id, action);
      var _ := WriteVolume(c, id, row => RetryVolumeLater(row, action), VolumeAttempt(id, action, true));
      return;
    }
    GiveUpVolume(c, id, v, l);
  }

  lemma OwnSizeKeeps(w: World, w': World, id: VolumeId, size: nat)
    requires OwnSize(w, id, size) && w'.slots == w.slots && w'.bound == w.bound
    ensures OwnSize(w', id, size)
  {
  }

  lemma OwnSizeRelies(w: World, w': World, id: VolumeId, size: nat)
    requires OwnSize(w, id, size) && Rely(w, w')
    ensures OwnSize(w', id, size)
  {
    OwnSizeKeeps(w, w', id, size);
  }

  /** A failure retrying will not cure. */
  method GiveUpVolume(c: Cloud, id: VolumeId, v: Volume, l: Location)
    requires c.Valid() && LiveRow(c.Now(), id) && c.volumes[id] == v && v.pending.Some?
    requires !v.pending.value.Detach? && !v.pending.value.Delete?
    requires v.pending == Some(Resize) ==> OwnName(c.Now(), id, l)
    modifies c
    ensures Extends(old(c.Past()), c.Past())
    ensures c.Valid() && id in c.volumes && InstancesFollow(old(c.Now()), c.Now())
    ensures || (GivenUp(c.Now(), id, v, c.volumes[id]) && c.unrecorded == old(c.unrecorded)
                && c.events[|c.events| - 1] == VolumeAttempt(id, v.pending.value, true))
            || (c.volumes[id] == v && c.unrecorded > old(c.unrecorded))
    ensures c.trouble == old(c.trouble) && v.pending == Some(Resize) && Known(old(c.Now()), l) ==>
              OwnSize(c.Now(), id, c.volumes[id].size)
    ensures c.trouble >= old(c.trouble) && (c.trouble == old(c.trouble) ==> c.unrecorded == old(c.unrecorded))
  {
    hide Known, Extends, Safe, Run, Step, Follows, Rely, WorkDone, OwnSize;
    Extending();
    ghost var w := c.Now();
    match v.pending.value {
      case Create =>
        Others(c);
        OthersFollow(w, c.Now());
        RelyKeeps(w, c.Now(), id);
        GiveUpSafe(c.Now(), id, 0);
        GiveUpStep(c.Now(), id);
        var _ := WriteVolume(c, id, row => GiveUpCreate(row), VolumeAttempt(id, Create, true));
      case Attach =>
        Others(c);
        OthersFollow(w, c.Now());
        RelyKeeps(w, c.Now(), id);
        GiveUpSafe(c.Now(), id, 0);
        GiveUpStep(c.Now(), id);
        var _ := WriteVolume(c, id, row => GiveUpAttach(row), VolumeAttempt(id, Attach, true));
      case Resize => GiveUpResizing(c, id, v, l);
    }
  }

  /** A resize that is given up takes the size its disk has. */
  method GiveUpResizing(c: Cloud, id: VolumeId, v: Volume, l: Location)
    requires c.Valid() && LiveRow(c.Now(), id) && c.volumes[id] == v && v.pending == Some(Resize)
    requires OwnName(c.Now(), id, l)
    modifies c
    ensures Extends(old(c.Past()), c.Past())
    ensures c.Valid() && id in c.volumes && InstancesFollow(old(c.Now()), c.Now())
    ensures || (GivenUp(c.Now(), id, v, c.volumes[id]) && c.unrecorded == old(c.unrecorded)
                && c.events[|c.events| - 1] == VolumeAttempt(id, Resize, true))
            || (c.volumes[id] == v && c.unrecorded > old(c.unrecorded))
    ensures c.trouble == old(c.trouble) && Known(old(c.Now()), l) ==>
              OwnSize(c.Now(), id, c.volumes[id].size)
    ensures c.trouble >= old(c.trouble) && (c.trouble == old(c.trouble) ==> c.unrecorded == old(c.unrecorded))
  {
    hide Known, Extends, Safe, Run, Step, Follows, Rely, WorkDone, OwnSize, OwnName, Loose, Found;
    Extending();
    var actual := Measured(c, id, v, l);
    ghost var w := c.Now();
    Others(c);
    OthersFollow(w, c.Now());
    RelyKeeps(w, c.Now(), id);
    if OwnSize(w, id, actual) {
      OwnSizeRelies(w, c.Now(), id, actual);
    }
    w := c.Now();
    GiveUpSafe(w, id, actual);
    GiveUpResizeStep(w, id, actual);
    var _ := WriteVolume(c, id, row => GiveUpResize(row, actual), VolumeAttempt(id, Resize, true));
    if OwnSize(w, id, actual) {
      OwnSizeKeeps(w, c.Now(), id, actual);
    }
  }

  /** The real size of the disk known by name, or the size asked for if it cannot be had. */
  method Measured(c: Cloud, id: VolumeId, v: Volume, l: Location) returns (actual: nat)
    requires c.Valid() && LiveRow(c.Now(), id) && c.volumes[id] == v && v.pending == Some(Resize)
    requires OwnName(c.Now(), id, l)
    modifies c`trouble
    ensures c.Valid() && c.trouble >= old(c.trouble)
    ensures c.trouble == old(c.trouble) && Known(c.Now(), l) ==> OwnSize(c.Now(), id, actual)
    ensures actual == v.size || OwnSize(c.Now(), id, actual)
  {
    hide Safe, Run;
    ShapeOf(c.Now(), id);
    actual := v.size;
    if l.name.Some? {
      var size, measured := c.DiskSize(l.name.value);
      if measured.Ok? && size.Some? {
        actual := size.value;
      }
    }
  }
}
