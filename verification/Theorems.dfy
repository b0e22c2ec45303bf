/** What every reachable state and every run has, in the words a user of the cloud
    or an administrator would put it. */
module Theorems {
  import opened Types
  import opened CloudState
  import opened DiskLemmas
  import opened RowLemmas
  import opened InstanceLemmas
  import opened Quotas
  import opened History
  import opened DiskSteps

  // ---------------------------------------------------------- one state: disks

  /** The slot that holds a physical disk, and no other does. */
  ghost predicate OnlyAt(w: World, ident: DiskIdent, p: Slot) {
    p in w.slots && w.slots[p].ident == ident && forall q :: q in w.slots && w.slots[q].ident == ident ==> q == p
  }

  /** A live volume that was given a disk has exactly that one, on its recorded VM
      under its recorded name or at its announced destination, and `Locate` tells
      the two apart; the only exception is a disk a pending delete has destroyed. */
  lemma ExactlyOneDisk(w: World, id: VolumeId) returns (p: Slot)
    requires Safe(w) && LiveRow(w, id) && id in w.bound && w.volumes[id].loc.name.Some?
    requires !Destroyed(w, id, w.volumes[id])
    ensures OnlyAt(w, w.bound[id], p)
    ensures var l := w.volumes[id].loc;
            if AtHome(w, id, l) then p.vm == l.vmid.value && w.slots[p].name == l.name.value
            else l.moveVmid.Some? && p == Slot(l.moveVmid.value, l.moveKey.value) && NameAbsent(w, l.name.value)
                 && forall b :: LiveRow(w, b) ==> w.volumes[b].loc.name != Some(w.slots[p].name)
  {
    hide HolderSlotsOK, InstancesOK, NamingOK, VolumeShape, SettledInUse, Safe, NameAbsent;
    SafeVolume(w, id);
    SafeHypervisor(w);
    var l := w.volumes[id].loc;
    if AtHome(w, id, l) {
      p :| p in w.slots && p.vm == l.vmid.value && w.slots[p].name == l.name.value && w.slots[p].ident == w.bound[id];
    } else {
      p := Slot(l.moveVmid.value, l.moveKey.value);
      assert w.slots[p].name != l.name.value by { AbsentName(w, l.name.value, p); }
      NewNameIsFree(w, id, p);
    }
  }

  lemma AbsentName(w: World, name: DiskName, p: Slot)
    requires NameAbsent(w, name) && p in w.slots
    ensures w.slots[p].name != name
  {
  }

  /** Why a moved disk needs a fresh name: if its old one were reused on its old VM
      before the move is recorded, `Locate` would find the other disk first. */
  lemma ReusedNameMisleads(w: World, id: VolumeId, dst: Slot, name: DiskName, p: Slot, other: Disk)
    requires Safe(w) && LiveRow(w, id) && id in w.bound && AtSlot(w, w.volumes[id].loc)
    requires dst !in w.slots && FreshName(w, name) && FreshIdent(w, other.ident)
    requires p.vm == w.volumes[id].loc.vmid.value && p != dst && p !in w.slots
    requires other.name == w.volumes[id].loc.name.value
    ensures var src := Slot(w.volumes[id].loc.vmid.value, w.volumes[id].loc.key.value);
            var w' := AddDisk(MoveTo(w, src, dst, name), p, other);
            && w'.slots[p].name == w'.volumes[id].loc.name.value && p.vm == w'.volumes[id].loc.vmid.value
            && w'.slots[p].ident != w'.bound[id]
            && !Safe(w')
  {
    hide Safe;
    var src := Slot(w.volumes[id].loc.vmid.value, w.volumes[id].loc.key.value);
    var w' := AddDisk(MoveTo(w, src, dst, name), p, other);
    assert w'.slots[p].ident != w.bound[id];
    if Safe(w') {
      NamedDiskIsOwn(w', id, p);
    }
  }

  /** The volume a disk is or will be: its own, or one that intends a blank disk there. */
  ghost predicate UsedBy(w: World, p: Slot, id: VolumeId) {
    && id in LiveVolumeIds(w) && p in w.slots
    && if id in w.bound then w.slots[p].ident == w.bound[id]
       else p.vm == w.site.holder && Intends(w, id, p.key)
  }

  /** The disks that are volumes' or wait on the holder to become one's. */
  function VolumeDisks(w: World): set<Slot> {
    set p |
      && p in w.slots
      && ((HolderReady(w) && p.vm == w.site.holder) || exists id :: id in w.bound && w.bound[id] == w.slots[p].ident)
  }

  lemma UsedByOne(w: World, p: Slot) returns (id: VolumeId)
    requires Safe(w) && p in VolumeDisks(w)
    ensures UsedBy(w, p, id)
  {
    hide InstancesOK, HypervisorOK, NamingOK, SettledInUse, VolumeShape, PlaceAllowed;
    if Claimed(w, w.slots[p].ident) {
      id :| id in w.bound && w.bound[id] == w.slots[p].ident;
      assert VolumeOK(w, id);
    } else {
      assert p == Slot(w.site.holder, p.key);
      id :| Intends(w, id, p.key);
      assert VolumeOK(w, id);
    }
  }

  lemma {:induction false} InjectionCounts(w: World, disks: set<Slot>, owners: set<VolumeId>)
    requires forall p :: p in disks ==> exists id :: id in owners && UsedBy(w, p, id)
    requires forall p, q, id :: p in disks && q in disks && UsedBy(w, p, id) && UsedBy(w, q, id) ==> p == q
    ensures |disks| <= |owners|
    decreases |disks|
  {
    hide UsedBy;
    if disks != {} {
      var p :| p in disks;
      var id :| id in owners && UsedBy(w, p, id);
      forall q | q in disks - {p} ensures exists j :: j in owners - {id} && UsedBy(w, q, j) {
        var j :| j in owners && UsedBy(w, q, j);
        assert j != id;
      }
      InjectionCounts(w, disks - {p}, owners - {id});
    }
  }

  /** There are never more volume disks than live volumes, not even when two creates
      that were cut short have announced the same slot of the holder. */
  lemma NoMoreDisksThanVolumes(w: World)
    requires Safe(w)
    ensures |VolumeDisks(w)| <= |LiveVolumeIds(w)| <= 256
  {
    hide HypervisorOK, HolderSlotsOK, InstancesOK, VolumeOK, LiveVolumeIds, VolumeDisks, UsedBy;
    SafeHypervisor(w);
    forall p | p in VolumeDisks(w) ensures exists id :: id in LiveVolumeIds(w) && UsedBy(w, p, id) {
      var id := UsedByOne(w, p);
      UserIsLive(w, p, id);
    }
    forall p, q, id | UsedBy(w, p, id) && UsedBy(w, q, id) ensures p == q {
      UsesOne(w, p, q, id);
    }
    InjectionCounts(w, VolumeDisks(w), LiveVolumeIds(w));
  }

  lemma UserIsLive(w: World, p: Slot, id: VolumeId)
    requires UsedBy(w, p, id)
    ensures id in LiveVolumeIds(w)
  {
  }

  lemma UsesOne(w: World, p: Slot, q: Slot, id: VolumeId)
    requires HypervisorOK(w) && UsedBy(w, p, id) && UsedBy(w, q, id)
    ensures p == q
  {
  }

  /** No two live volumes record, or were given, the same disk. */
  lemma NoSharedDisks(w: World, a: VolumeId, b: VolumeId)
    requires Safe(w) && LiveRow(w, a) && LiveRow(w, b) && a != b
    ensures w.volumes[a].loc.name.Some? ==> w.volumes[a].loc.name != w.volumes[b].loc.name
    ensures a in w.bound && b in w.bound ==> w.bound[a] != w.bound[b]
  {
    hide HypervisorOK, HolderSlotsOK, InstancesOK, VolumeOK;
  }

  /** A settled volume is where its state says: plugged in under its device, or on the
      holder; while its instance is being terminated it is on one of the two VMs. */
  lemma SettledWhereItSays(w: World, id: VolumeId)
    requires Safe(w) && LiveRow(w, id) && w.volumes[id].pending.None?
    ensures var v := w.volumes[id];
            v.state.InUse? && w.instances[v.instance.value].pending != Some(Terminate) ==>
              && AtDevice(w, v) && id in w.bound
              && w.slots[Slot(w.instances[v.instance.value].vmid.value, Virtio(v.device.value))].ident == w.bound[id]
    ensures w.volumes[id].state.InUse? ==>
              id in w.bound && exists p :: OnlyAt(w, w.bound[id], p) && OnInstanceOrHolder(w, w.volumes[id], p.vm)
    ensures w.volumes[id].state.Available? ==>
              id in w.bound && exists p :: OnlyAt(w, w.bound[id], p) && p.vm == w.site.holder
  {
    hide HolderSlotsOK, InstancesOK, Safe, OnlyAt;
    var v := w.volumes[id];
    SafeVolume(w, id);
    SafeHypervisor(w);
    if SettledInUse(w, v) {
      NamedDiskIsOwn(w, id, Slot(v.loc.vmid.value, Virtio(v.device.value)));
    }
    if v.state.Available? || v.state.InUse? {
      var p := ExactlyOneDisk(w, id);
    }
  }

  /** One of the two VMs the disk of a volume in use can be on. */
  predicate OnInstanceOrHolder(w: World, v: Volume, m: VmId) {
    m == w.site.holder
    || (v.instance.Some? && v.instance.value in w.instances && w.instances[v.instance.value].vmid == Some(m))
  }

  /** Why a volume in use is only promised to be plugged in while its instance is not
      being terminated: unplugging it is the first thing a terminate does, and leaves
      a safe state. `Scenario.TerminateInProgress` is a run that reaches one. */
  lemma TerminateUnplugsInUse(w: World, id: VolumeId, n: nat)
    requires Safe(w) && LiveRow(w, id) && w.volumes[id].pending.None? && w.volumes[id].state.InUse?
    requires AtDevice(w, w.volumes[id])
    requires w.instances[w.volumes[id].instance.value].pending == Some(Terminate)
    requires Slot(w.volumes[id].loc.vmid.value, Unused(n)) !in w.slots
    ensures var v := w.volumes[id];
            var w' := Rekey(w, Slot(v.loc.vmid.value, Virtio(v.device.value)), Unused(n));
            Safe(w') && w'.volumes[id] == v && !AtDevice(w', v)
  {
    hide Safe;
    var v := w.volumes[id];
    RekeySafe(w, id, Slot(v.loc.vmid.value, Virtio(v.device.value)), Unused(n));
  }

  // ------------------------------------------------------ one state: instances

  function VolumesNaming(w: World, i: InstanceId): set<VolumeId> {
    set b | b in w.volumes && w.volumes[b].instance == Some(i)
  }

  lemma {:induction false} DevicesCount(w: World, ids: set<VolumeId>, devices: set<nat>)
    requires forall b :: b in ids ==>
               b in w.volumes && w.volumes[b].device.Some? && w.volumes[b].device.value in devices
    requires forall a, b :: a in ids && b in ids && w.volumes[a].device == w.volumes[b].device ==> a == b
    ensures |ids| <= |devices|
    decreases |ids|
  {
    if ids != {} {
      var b :| b in ids;
      DevicesCount(w, ids - {b}, devices - {w.volumes[b].device.value});
    }
  }

  /** At most fifteen volumes name an instance, each with a device of its own. */
  lemma AtMostFifteenVolumes(w: World, i: InstanceId)
    requires Safe(w)
    ensures |VolumesNaming(w, i)| <= 15
    ensures forall a, b | a in VolumesNaming(w, i) && b in VolumesNaming(w, i)
              :: w.volumes[a].device == w.volumes[b].device ==> a == b
  {
    hide HypervisorOK, HolderSlotsOK, InstancesOK, DiskKept, SettledInUse, NamingOK;
    forall b | b in VolumesNaming(w, i)
      ensures w.volumes[b].device.Some? && w.volumes[b].device.value in UpTo(LAST_DEVICE)
    {
      assert VolumeOK(w, b);
    }
    DevicesCount(w, VolumesNaming(w, i), UpTo(LAST_DEVICE));
  }

  ghost function UpTo(n: nat): (s: set<nat>)
    ensures |s| == n && forall k :: k in s <==> 1 <= k <= n
  {
    if n == 0 then {} else UpTo(n - 1) + {n}
  }

  /** However its launch was cut short and repeated, an instance has at most one VM
      and one address; once terminated it has neither, nor a seed image that was recorded,
      and no volume names it unless it had been adopted. */
  lemma OneVmOneAddress(w: World, i: InstanceId)
    requires Safe(w)
    ensures forall m, n :: m in w.vms && n in w.vms && w.vms[m] == InstanceVm(i) && w.vms[n] == InstanceVm(i) ==> m == n
    ensures forall a, b :: a in w.addresses && b in w.addresses && w.addresses[a] == i && w.addresses[b] == i ==> a == b
    ensures i in w.instances && w.instances[i].state.Terminated? ==>
              && (forall m :: m in w.vms ==> w.vms[m] != InstanceVm(i))
              && (forall a :: a in w.addresses ==> w.addresses[a] != i)
              && (w.instances[i].seed ==> i !in w.seeds)
              && (!w.instances[i].adopted ==> VolumesNaming(w, i) == {})
  {
    hide HypervisorOK, HolderSlotsOK, DiskKept, SettledInUse, InstanceOK;
    if i in w.instances && w.instances[i].state.Terminated? && !w.instances[i].adopted {
      forall b | b in w.volumes ensures w.volumes[b].instance != Some(i) {
        assert VolumeOK(w, b);
      }
    }
  }

  /** A launched instance past its launch and not being terminated has its own VM, address
      and seed image: no attempt that skipped a step got that far. */
  lemma LaunchedIsComplete(w: World, i: InstanceId)
    requires Safe(w) && i in w.instances && Established(w.instances[i])
    ensures w.instances[i].vmid.Some? && w.instances[i].vmid.value !in w.site.outside
    ensures !w.instances[i].adopted ==>
              && w.instances[i].vmid.value in w.vms && w.vms[w.instances[i].vmid.value] == InstanceVm(i)
              && w.instances[i].address.Some? && w.instances[i].address.value in w.addresses
              && w.addresses[w.instances[i].address.value] == i
              && w.instances[i].seed && i in w.seeds
  {
    hide Safe;
    SafeInstance(w, i);
    InPool(w, i);
  }

  /** Live instances hold VMIDs nobody else does, and none the cloud reserves. */
  lemma VmidsAreTheirOwn(w: World, i: InstanceId, j: InstanceId)
    requires Safe(w) && i in w.instances && j in w.instances && LiveInstance(w.instances[i])
    requires LiveInstance(w.instances[j])
    ensures w.instances[i].vmid.Some? && (w.instances[i].vmid == w.instances[j].vmid ==> i == j)
    ensures w.instances[i].vmid.value != w.site.holder && w.instances[i].vmid.value !in w.site.probes
  {
    hide Safe;
    SafeInstance(w, i);
    if i != j {
      VmidsApart(w, i);
    }
  }

  /** Deleting a terminating instance's VM when the worker does leaves the holder and
      every disk of every live volume alone. */
  lemma DeleteSparesVolumes(w: World, i: InstanceId, m: VmId)
    requires Safe(w) && i in w.instances && w.instances[i].pending == Some(Terminate) && w.instances[i].vmid == Some(m)
    requires Owned(w, i) && Unmentioned(w, m) && forall b :: !Names(w, b, i)
    ensures m != w.site.holder
    ensures forall b, p :: LiveRow(w, b) && b in w.bound && p in w.slots && w.slots[p].ident == w.bound[b] ==>
              p in RemoveVm(w, m).slots && RemoveVm(w, m).slots[p] == w.slots[p]
  {
    hide HolderSlotsOK, Safe, NamingOK, SettledInUse, VolumeShape, Owned;
    SafeInstance(w, i);
    SafeHypervisor(w);
    forall b, p | LiveRow(w, b) && b in w.bound && p in w.slots && w.slots[p].ident == w.bound[b]
      ensures p.vm != m
    {
      SafeVolume(w, b);
    }
  }

  // --------------------------------------------------------------- whole runs

  /** Rows stay what they are for ever; what has ended stays ended. */
  ghost predicate Later(w: World, w': World) {
    && w'.site == w.site
    && (forall id :: id in w.bound ==> id in w'.bound && w'.bound[id] == w.bound[id])
    && (forall id :: id in w.volumes ==> id in w'.volumes && VolumeLater(w.volumes[id], w'.volumes[id]))
    && (forall i :: i in w.instances ==> i in w'.instances && InstanceLater(w.instances[i], w'.instances[i]))
  }

  predicate VolumeLater(v: Volume, v': Volume) {
    && v'.account == v.account && v'.token == v.token && v'.hash == v.hash && v'.tier == v.tier
    && (!LiveVolume(v) ==> v' == v)
    && (v.pending == Some(Delete) ==> v'.pending == Some(Delete) || v'.state.Deleted?)
  }

  predicate InstanceLater(i: Instance, i': Instance) {
    && i'.account == i.account && i'.token == i.token && i'.hash == i.hash && i'.adopted == i.adopted
    && (!LiveInstance(i) ==> i' == i)
    && (i.vmCreated ==> i'.vmCreated && i'.vmid == i.vmid)
    && (i.pending == Some(Terminate) ==> i'.pending == Some(Terminate) || i'.state.Terminated?)
  }

  /** Over any stretch of any run: terminated and deleted are absorbing, a terminate
      or a delete once requested ends in nothing else, and no disk is ever exchanged. */
  lemma {:induction false} RunsOnlyGoOn(h: seq<World>, es: seq<Event>, j: nat, k: nat)
    requires Run(h, es) && j <= k < |h|
    ensures Later(h[j], h[k])
    decreases k
  {
    hide Safe, Run, RowsStep, AttemptsCounted, VmsStep, QuotaStep, Later;
    if j == k {
      LaterSelf(h[j]);
    } else {
      RunsOnlyGoOn(h, es, j, k - 1);
      StepAt(h, es, k);
      LaterStep(h[j], h[k - 1], h[k]);
    }
  }

  lemma LaterSelf(w: World)
    ensures Later(w, w)
  {
  }

  lemma LaterStep(a: World, b: World, c: World)
    requires Later(a, b) && RowsStep(b, c) && Safe(b)
    ensures Later(a, c)
  {
    hide VolumeOK, InstanceOK, HypervisorOK, HolderSlotsOK;
    forall i | i in a.instances ensures i in c.instances && InstanceLater(a.instances[i], c.instances[i]) {
      assert InstanceStep(b.instances[i], c.instances[i]);
    }
    forall id | id in a.volumes ensures id in c.volumes && VolumeLater(a.volumes[id], c.volumes[id]) {
      assert VolumeStep(b.volumes[id], c.volumes[id]);
    }
  }

  /** A volume's disk in any later state is the one it was first given, still whole. */
  lemma SameDiskForEver(h: seq<World>, es: seq<Event>, j: nat, k: nat, id: VolumeId)
    requires Run(h, es) && j <= k < |h| && id in h[j].bound
    ensures id in h[k].bound && h[k].bound[id] == h[j].bound[id]
    ensures LiveRow(h[k], id) && !(h[k].volumes[id].loc.name.Some? && Destroyed(h[k], id, h[k].volumes[id])) ==>
              exists p :: OnlyAt(h[k], h[j].bound[id], p)
  {
    hide Safe, Step, WithinLimits, OnlyAt;
    RunsOnlyGoOn(h, es, j, k);
    if LiveRow(h[k], id) && !(h[k].volumes[id].loc.name.Some? && Destroyed(h[k], id, h[k].volumes[id])) {
      ShapeOf(h[k], id);
      var p := ExactlyOneDisk(h[k], id);
    }
  }

  /** At most one instance ever exists for an account's token, and likewise for volumes. */
  lemma OneRowPerToken(h: seq<World>, es: seq<Event>, j: nat, k: nat)
    requires Run(h, es) && j <= k < |h|
    ensures forall a, b | a in h[j].instances && b in h[k].instances && h[j].instances[a].token.Some?
              :: SameInstanceToken(h[j].instances[a], h[k].instances[b]) ==> a == b
    ensures forall a, b | a in h[j].volumes && b in h[k].volumes && h[j].volumes[a].token.Some?
              :: SameVolumeToken(h[j].volumes[a], h[k].volumes[b]) ==> a == b
  {
    hide Step, WithinLimits, HypervisorOK, HolderSlotsOK, VolumeOK, InstanceOK;
    RunsOnlyGoOn(h, es, j, k);
    assert Safe(h[k]);
    forall a, b | a in h[j].instances && b in h[k].instances && h[j].instances[a].token.Some?
        && SameInstanceToken(h[j].instances[a], h[k].instances[b])
      ensures a == b
    {
      assert InstanceLater(h[j].instances[a], h[k].instances[a]);
    }
    forall a, b | a in h[j].volumes && b in h[k].volumes && h[j].volumes[a].token.Some?
        && SameVolumeToken(h[j].volumes[a], h[k].volumes[b])
      ensures a == b
    {
      assert VolumeLater(h[j].volumes[a], h[k].volumes[a]);
    }
  }

  // ------------------------------------------------------------ adopted VMs

  /** An adopted instance has its VM, until a terminate, exactly if it had it when it
      was adopted: nothing takes the VM away, and nothing brings a missing one back. */
  lemma {:induction false} AdoptedKeepsVm(h: seq<World>, es: seq<Event>, j: nat, k: nat, i: InstanceId)
    requires Run(h, es) && j <= k < |h| && i in h[j].instances && h[j].instances[i].adopted
    requires i in h[k].instances && !Leaving(h[k].instances[i])
    ensures HasVm(h[k], i) <==> HasVm(h[j], i)
    decreases k
  {
    hide Safe, Run, HasVm, Later;
    if j < k {
      LaterAt(h, es, j, k - 1, i);
      LaterAt(h, es, k - 1, k, i);
      AdoptedKeepsVm(h, es, j, k - 1, i);
      StepAt(h, es, k);
      assert AdoptedVmStep(h[k - 1], h[k], i);
    }
  }

  /** And if it had it then, no volume names the instance once it is terminated. */
  lemma {:induction false} AdoptedLeavesNoNames(h: seq<World>, es: seq<Event>, j: nat, k: nat, i: InstanceId)
    requires Run(h, es) && j <= k < |h| && i in h[j].instances && h[j].instances[i].adopted
    requires LiveInstance(h[j].instances[i]) && HasVm(h[j], i)
    ensures i in h[k].instances
    ensures !LiveInstance(h[k].instances[i]) || !HasVm(h[k], i) ==> Leaving(h[k].instances[i]) && !NamedBySome(h[k], i)
    ensures h[k].instances[i].state.Terminated? ==> VolumesNaming(h[k], i) == {}
    decreases k
  {
    hide Safe, Run, HasVm, Later, NamedBySome;
    if j < k {
      AdoptedLeavesNoNames(h, es, j, k - 1, i);
      LaterAt(h, es, j, k - 1, i);
      LaterAt(h, es, k - 1, k, i);
      StepAt(h, es, k);
      if LiveInstance(h[k - 1].instances[i]) {
        assert AdoptedVmStep(h[k - 1], h[k], i);
      }
    }
    if h[k].instances[i].state.Terminated? {
      UnnamedByAll(h[k], i);
    }
  }

  lemma UnnamedByAll(w: World, i: InstanceId)
    requires Safe(w) && !NamedBySome(w, i)
    ensures VolumesNaming(w, i) == {}
  {
    hide HypervisorOK, HolderSlotsOK, DiskKept, SettledInUse, InstancesOK, NamingOK;
    forall b | b in w.volumes ensures w.volumes[b].instance != Some(i) {
      assert VolumeOK(w, b);
    }
  }

  lemma LaterAt(h: seq<World>, es: seq<Event>, j: nat, k: nat, i: InstanceId)
    requires Run(h, es) && j <= k < |h| && i in h[j].instances
    ensures i in h[k].instances && InstanceLater(h[j].instances[i], h[k].instances[i])
  {
    hide Run, InstanceLater;
    RunsOnlyGoOn(h, es, j, k);
  }

  // ----------------------------------------------------------------- quotas

  /** By how much an account's GiB have grown up to state k in resizes given up on disks
      that had grown. */
  ghost function Overgrowth(h: seq<World>, k: nat, a: AccountId): nat
    requires k < |h|
    decreases k
  {
    if k == 0 then 0
    else Overgrowth(h, k - 1, a)
         + if GrewFor(h[k - 1], h[k], a) then Held(h[k], a, VolumeGiB) - Held(h[k - 1], a, VolumeGiB) else 0
  }

  /** Nobody is ever over a limit by more than their own disks turned out larger than
      was asked for when a resize was given up, and all together never over the budget. */
  lemma {:induction false} LimitsKept(h: seq<World>, es: seq<Event>, k: nat, a: AccountId, m: Measure)
    requires Run(h, es) && k < |h|
    ensures h[k].site == h[0].site
    ensures LimitOf(h[0].site.limits, m) > 0 ==>
              Held(h[k], a, m) <= LimitOf(h[0].site.limits, m) + if m.VolumeGiB? then Overgrowth(h, k, a) else 0
    ensures h[0].site.limits.memoryBudget > 0 ==>
              Usage(h[k].volumes, h[k].instances, None, Memory) <= h[0].site.limits.memoryBudget
    decreases k
  {
    hide Safe, Run, RowsStep, Usage;
    if k > 0 {
      LimitsKept(h, es, k - 1, a, m);
      StepAt(h, es, k);
      SiteStays(h[k - 1], h[k]);
    } else {
      StartsWithin(h, es);
    }
  }

  /** In particular an account's instances and volumes are never more than it may have, and
      each of the other figures is the sum of one column of theirs. */
  lemma HoldingsKept(h: seq<World>, es: seq<Event>, k: nat, a: AccountId)
    requires Run(h, es) && k < |h|
    ensures var limits, w := h[0].site.limits, h[k];
            && Fits(limits.instances, |InstancesOf(w.instances, Some(a))|)
            && Fits(limits.volumes, |VolumesOf(w.volumes, Some(a))|)
            && Fits(limits.vcpus, Sum(VcpusOf(w.instances, Some(a))))
            && Fits(limits.memory, Sum(MemoryOf(w.instances, Some(a))))
            && Fits(limits.rootDisk, Sum(RootDisksOf(w.instances, Some(a))))
            && Fits(limits.volumeGiB, Sum(SizesOf(w.volumes, Some(a))) - Overgrowth(h, k, a))
            && Fits(limits.memoryBudget, Sum(MemoryOf(w.instances, None)))
  {
    hide Run, Usage, InstancesOf, VolumesOf, VcpusOf, MemoryOf, RootDisksOf, SizesOf, Sum, Overgrowth;
    UsageCounts(h[k].volumes, h[k].instances, Some(a));
    UsageAddsUp(h[k].volumes, h[k].instances, Some(a));
    UsageAddsUp(h[k].volumes, h[k].instances, None);
    LimitsKept(h, es, k, a, Instances);
    LimitsKept(h, es, k, a, Volumes);
    LimitsKept(h, es, k, a, Vcpus);
    LimitsKept(h, es, k, a, Memory);
    LimitsKept(h, es, k, a, RootDisk);
    LimitsKept(h, es, k, a, VolumeGiB);
  }

  lemma SiteStays(w: World, w': World)
    requires RowsStep(w, w')
    ensures w'.site == w.site
  {
  }

  lemma StartsWithin(h: seq<World>, es: seq<Event>)
    requires Run(h, es)
    ensures WithinLimits(h[0])
  {
  }

  /** So as long as no such resize has been given up, everybody is within every limit. */
  lemma WithinUnlessGrown(h: seq<World>, es: seq<Event>, k: nat)
    requires Run(h, es) && k < |h|
    requires forall a :: NeverGrew(h, k, a)
    ensures WithinLimits(h[k])
  {
    hide Run, Usage, GrewFor, NeverGrew;
    forall a: AccountId, m: Measure | LimitOf(h[k].site.limits, m) > 0
      ensures Usage(h[k].volumes, h[k].instances, Some(a), m) <= LimitOf(h[k].site.limits, m)
    {
      LimitsKept(h, es, k, a, m);
      NoOvergrowth(h, k, a);
    }
    LimitsKept(h, es, k, 0, Memory);
  }

  ghost predicate NeverGrew(h: seq<World>, k: nat, a: AccountId)
    requires k < |h|
  {
    forall j :: 0 < j <= k ==> !GrewFor(h[j - 1], h[j], a)
  }

  lemma {:induction false} NoOvergrowth(h: seq<World>, k: nat, a: AccountId)
    requires k < |h| && NeverGrew(h, k, a)
    ensures Overgrowth(h, k, a) == 0
    decreases k
  {
    hide GrewFor;
    if k > 0 {
      NoOvergrowth(h, k - 1, a);
    }
  }

  lemma StepAt(h: seq<World>, es: seq<Event>, k: nat)
    requires Run(h, es) && 0 < k < |h|
    ensures RowsStep(h[k - 1], h[k]) && AttemptsCounted(h[k - 1], es[k], h[k]) && VmsStep(h[k - 1], h[k])
    ensures QuotaStep(h[k - 1], h[k]) && Safe(h[k - 1]) && Safe(h[k])
  {
    hide Safe, QuotaStep, WithinLimits, RowsStep, AttemptsCounted, VmsStep;
    assert Step(h[k - 1], es[k], h[k - 1 + 1]);
  }

  /** The VM is there, in the pool and not the holder, and this live instance's own and no other's. */
  ghost predicate OwnsAlone(w: World, i: InstanceId, m: VmId) {
    && i in w.instances && LiveInstance(w.instances[i]) && w.instances[i].vmid == Some(m)
    && m in w.vms && m != w.site.holder && m !in w.site.outside
    && (w.instances[i].adopted || w.vms[m] == InstanceVm(i))
    && forall j :: j in w.instances && LiveInstance(w.instances[j]) && w.instances[j].vmid == Some(m) ==> j == i
  }

  ghost predicate HasOwner(w: World, m: VmId) { exists i :: OwnsAlone(w, i, m) }

  /** In no run is any VM started, stopped or told whether to start with the host but one that
      is a live instance's own. */
  lemma OnlyOwnVmsPowered(h: seq<World>, es: seq<Event>, k: nat)
    requires Run(h, es) && 0 < k < |h| && (es[k].Powered? || es[k].StartsWithHost?)
    ensures HasOwner(h[k - 1], es[k].vm)
  {
    hide Safe, WithinLimits, RowsStep, AttemptsCounted, VmsStep, QuotaStep;
    var w, m := h[k - 1], es[k].vm;
    assert Step(h[k - 1], es[k], h[k]) && Safe(w);
    var i :| i in w.instances && LiveInstance(w.instances[i]) && w.instances[i].vmid == Some(m) && HasVm(w, i);
    SafeInstance(w, i);
    SafeHypervisor(w);
    VmidsApart(w, i);
    assert OwnsAlone(w, i, m);
  }

  /** An instance's state and the action pending on it are always one of eight pairs. */
  lemma StateAndAction(h: seq<World>, es: seq<Event>, k: nat, i: InstanceId)
    requires Run(h, es) && k < |h| && i in h[k].instances
    ensures (h[k].instances[i].state, h[k].instances[i].pending) in {
              (Running, None), (Stopped, None), (Terminated, None), (Pending, Some(Launch)), (Pending, Some(Start)),
              (Stopping, Some(Stop)), (Running, Some(Reboot)), (ShuttingDown, Some(Terminate))}
  {
    hide Safe, Step, WithinLimits;
    assert Safe(h[k]);
    SafeInstance(h[k], i);
  }

  /** While an action is pending only a terminate takes its place. */
  lemma OnlyTerminateReplaces(h: seq<World>, es: seq<Event>, k: nat, i: InstanceId)
    requires Run(h, es) && 0 < k < |h| && i in h[k - 1].instances && h[k - 1].instances[i].pending.Some?
    ensures i in h[k].instances
    ensures h[k].instances[i].pending == h[k - 1].instances[i].pending
            || h[k].instances[i].pending.None? || h[k].instances[i].pending == Some(Terminate)
  {
    hide Safe, Run;
    StepAt(h, es, k);
    SafeInstance(h[k], i);
  }

  /** The same for a volume: only the detach an abandoned attach becomes. */
  lemma OnlyDetachReplaces(h: seq<World>, es: seq<Event>, k: nat, id: VolumeId)
    requires Run(h, es) && 0 < k < |h| && id in h[k - 1].volumes && h[k - 1].volumes[id].pending.Some?
    ensures id in h[k].volumes
    ensures h[k].volumes[id].pending == h[k - 1].volumes[id].pending || h[k].volumes[id].pending.None?
            || (h[k - 1].volumes[id].pending == Some(Attach) && h[k].volumes[id].pending == Some(Detach))
  {
    hide Safe, Run;
    StepAt(h, es, k);
    ShapeWhilePending(h[k], id);
  }

  // ----------------------------------------------------------- bounded retries

  /** How many failed attempts at an instance's action were recorded from state j to state k. */
  function FailedAttempts(es: seq<Event>, i: InstanceId, action: InstanceAction, j: nat, k: nat): nat
    requires j <= k < |es|
    decreases k
  {
    if j == k then 0 else FailedAttempts(es, i, action, j, k - 1) + OneIfFailed(es[k], i, action)
  }

  ghost predicate StaysPending(h: seq<World>, i: InstanceId, action: InstanceAction, j: nat, k: nat)
    requires j <= k < |h|
  {
    forall n :: j <= n <= k ==> i in h[n].instances && h[n].instances[i].pending == Some(action)
  }

  /** While an action stays pending, its attempts column goes up by exactly the number
      of failed attempts that the worker has recorded. */
  lemma {:induction false} FailuresAreCounted(
    h: seq<World>, es: seq<Event>, i: InstanceId, action: InstanceAction, j: nat, k: nat)
    requires Run(h, es) && j <= k < |h| && StaysPending(h, i, action, j, k)
    ensures h[k].instances[i].attempts == h[j].instances[i].attempts + FailedAttempts(es, i, action, j, k)
    decreases k
  {
    hide Safe, Run, RowsStep, VmsStep, QuotaStep;
    if j < k {
      FailuresAreCounted(h, es, i, action, j, k - 1);
      StepAt(h, es, k);
    }
  }

  /** MaxAttempts recorded failures end a launch, start, stop or reboot, however long the
      run: it is no longer pending at the last of them, and fewer leave it so. */
  lemma BoundedAttempts(
    h: seq<World>, es: seq<Event>, i: InstanceId, action: InstanceAction, j: nat, k: nat)
    requires Run(h, es) && j <= k < |h| && !action.Terminate?
    ensures StaysPending(h, i, action, j, k) ==>
              h[j].instances[i].attempts + FailedAttempts(es, i, action, j, k) < h[k].site.maxAttempts
    ensures FailedAttempts(es, i, action, j, k) >= h[k].site.maxAttempts ==> !StaysPending(h, i, action, j, k)
  {
    hide Safe, Step, WithinLimits;
    if StaysPending(h, i, action, j, k) {
      FailuresAreCounted(h, es, i, action, j, k);
      assert h[k].instances[i].pending == Some(action);
      SafeInstance(h[k], i);
    }
  }

  function FailedVolumeAttempts(es: seq<Event>, id: VolumeId, action: VolumeAction, j: nat, k: nat): nat
    requires j <= k < |es|
    decreases k
  {
    if j == k then 0 else FailedVolumeAttempts(es, id, action, j, k - 1) + OneIfVolumeFailed(es[k], id, action)
  }

  ghost predicate VolumeStaysPending(h: seq<World>, id: VolumeId, action: VolumeAction, j: nat, k: nat)
    requires j <= k < |h|
  {
    forall n :: j <= n <= k ==> id in h[n].volumes && h[n].volumes[id].pending == Some(action)
  }

  lemma {:induction false} VolumeFailuresAreCounted(
    h: seq<World>, es: seq<Event>, id: VolumeId, action: VolumeAction, j: nat, k: nat)
    requires Run(h, es) && j <= k < |h| && VolumeStaysPending(h, id, action, j, k)
    ensures h[k].volumes[id].attempts == h[j].volumes[id].attempts + FailedVolumeAttempts(es, id, action, j, k)
    decreases k
  {
    hide Safe, Run, RowsStep, VmsStep, QuotaStep;
    if j < k {
      VolumeFailuresAreCounted(h, es, id, action, j, k - 1);
      StepAt(h, es, k);
    }
  }

  lemma ShapeWhilePending(w: World, id: VolumeId)
    requires Safe(w) && id in w.volumes
    ensures VolumeShape(w.volumes[id])
  {
    hide HolderSlotsOK, InstancesOK, Safe, NamingOK, SettledInUse, DiskKept;
    SafeVolume(w, id);
  }

  /** The same for a volume's create, attach or resize. */
  lemma BoundedVolumeAttempts(
    h: seq<World>, es: seq<Event>, id: VolumeId, action: VolumeAction, j: nat, k: nat)
    requires Run(h, es) && j <= k < |h| && !action.Detach? && !action.Delete?
    ensures VolumeStaysPending(h, id, action, j, k) ==>
              h[j].volumes[id].attempts + FailedVolumeAttempts(es, id, action, j, k) < h[k].site.maxAttempts
    ensures FailedVolumeAttempts(es, id, action, j, k) >= h[k].site.maxAttempts ==>
              !VolumeStaysPending(h, id, action, j, k)
  {
    hide Safe, Step, WithinLimits, DiskKept;
    if VolumeStaysPending(h, id, action, j, k) {
      VolumeFailuresAreCounted(h, es, id, action, j, k);
      assert h[k].volumes[id].pending == Some(action);
      SafeVolume(h[k], id);
    }
  }

  /** A terminate, detach or delete is never abandoned: it stays pending until it is done. */
  lemma NeverAbandoned(h: seq<World>, es: seq<Event>, k: nat, i: InstanceId, id: VolumeId)
    requires Run(h, es) && 0 < k < |h| && i in h[k - 1].instances && id in h[k - 1].volumes
    ensures i in h[k].instances && id in h[k].volumes
    ensures h[k - 1].instances[i].pending == Some(Terminate) ==>
              h[k].instances[i].pending == Some(Terminate) || h[k].instances[i].state.Terminated?
    ensures h[k - 1].volumes[id].pending == Some(Delete) ==>
              h[k].volumes[id].pending == Some(Delete) || h[k].volumes[id].state.Deleted?
    ensures h[k - 1].volumes[id].pending == Some(Detach) ==>
              || h[k].volumes[id].pending == Some(Detach)
              || (h[k].volumes[id].state.Available? && h[k].volumes[id].instance.None?)
  {
    hide Safe, Run;
    StepAt(h, es, k);
  }
}
