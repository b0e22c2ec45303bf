/** What stays the same while the worker and everyone else go on working: the
    relation every step and every run of steps keeps. */
module Progress {
  import opened Types
  import opened CloudState
  import opened Quotas
  import opened History

  /** What may happen to a volume's row, its location aside, while somebody else
      than its own finishing step writes it: nothing while an action is pending. */
  predicate RowFollows(v: Volume, v': Volume) {
    && v'.account == v.account && v'.token == v.token && v'.hash == v.hash && v'.tier == v.tier
    && (v.pending.Some? ==> v' == v.(loc := v'.loc))
    && (v.instance.Some? ==> v'.instance == v.instance && v'.device == v.device)
    && (!LiveVolume(v) ==> v' == v)
    && (LiveVolume(v) ==> LiveVolume(v'))
    && (v.loc.name.Some? ==> v'.loc.name.Some?)
  }

  /** What may happen to an instance's row while the worker is not finishing it:
      its resources stay, and a pending action stays unless a terminate replaces it. */
  predicate InstanceFollows(i: Instance, i': Instance) {
    && i'.account == i.account && i'.token == i.token && i'.hash == i.hash
    && i'.vmid == i.vmid && i'.vmCreated == i.vmCreated && i'.address == i.address && i'.seed == i.seed
    && i'.adopted == i.adopted && i'.vcpus == i.vcpus && i'.memory == i.memory && i'.rootDisk == i.rootDisk
    && (i.pending == Some(Terminate) || !LiveInstance(i) ==> i' == i)
    && (i.pending.Some? ==> i' == i || i' == i.(state := ShuttingDown, pending := Some(Terminate), attempts := 0))
    && (LiveInstance(i) ==> LiveInstance(i'))
  }

  /** Only the volumes in `moved` may have their location written, and new ones have none yet. */
  ghost predicate VolumesFollow(w: World, w': World, moved: set<VolumeId>) {
    && (forall id :: id in w.volumes ==> id in w'.volumes && RowFollows(w.volumes[id], w'.volumes[id]))
    && (forall id :: id in w.volumes && id !in moved ==> w'.volumes[id].loc == w.volumes[id].loc)
    && (forall id :: id in w'.volumes && id !in w.volumes && id !in moved ==> w'.volumes[id].loc == NOWHERE)
    && (forall id :: id in w.bound ==> id in w'.bound && w'.bound[id] == w.bound[id])
  }

  ghost predicate InstancesFollow(w: World, w': World) {
    forall i :: i in w.instances ==> i in w'.instances && InstanceFollows(w.instances[i], w'.instances[i])
  }

  /** No volume comes to name an instance that is being terminated, or has been. */
  ghost predicate NoLateAttach(w: World, w': World) {
    forall id | id in w'.volumes && NamesLeaving(w, w'.volumes[id])
      :: id in w.volumes && w.volumes[id].instance == w'.volumes[id].instance
  }

  predicate NamesLeaving(w: World, v: Volume) {
    v.instance.Some? && v.instance.value in w.instances && Leaving(w.instances[v.instance.value])
  }

  ghost predicate VmsFollow(w: World, w': World) {
    && w'.site == w.site && w'.quarantine == w.quarantine && w'.addresses == w.addresses && w'.seeds == w.seeds
    && (forall m :: m in w.vms ==> m in w'.vms && w'.vms[m] == w.vms[m])
    && (forall m :: m in w'.vms && m !in w.vms ==> w'.vms[m] == HolderVm)
  }

  ghost predicate Follows(w: World, w': World, moved: set<VolumeId>) {
    VolumesFollow(w, w', moved) && InstancesFollow(w, w') && NoLateAttach(w, w') && VmsFollow(w, w')
  }

  /** What anybody but the worker may do: no location, VM or disk changes. */
  ghost predicate Rely(w: World, w': World) {
    Follows(w, w', {}) && w'.slots == w.slots && w'.vms == w.vms && w'.bound == w.bound
  }

  lemma FollowsSelf(w: World, moved: set<VolumeId>)
    ensures Follows(w, w, moved)
  {
  }

  lemma FollowsTrans(a: World, b: World, c: World, moved: set<VolumeId>)
    requires Follows(a, b, moved) && Follows(b, c, moved)
    ensures Follows(a, c, moved)
  {
    hide VolumesFollow, NoLateAttach, InstancesFollow;
    VolumesFollowTrans(a, b, c, moved);
    RestFollowsTrans(a, b, c);
  }

  lemma VolumesFollowTrans(a: World, b: World, c: World, moved: set<VolumeId>)
    requires VolumesFollow(a, b, moved) && VolumesFollow(b, c, moved)
    ensures VolumesFollow(a, c, moved)
  {
  }

  lemma RestFollowsTrans(a: World, b: World, c: World)
    requires InstancesFollow(a, b) && InstancesFollow(b, c) && NoLateAttach(a, b) && NoLateAttach(b, c)
    ensures InstancesFollow(a, c) && NoLateAttach(a, c)
  {
  }

  lemma FollowsWider(a: World, b: World, moved: set<VolumeId>, more: set<VolumeId>)
    requires Follows(a, b, moved) && moved <= more
    ensures Follows(a, b, more)
  {
  }

  lemma FollowsOn(a: World, b: World, c: World, some: set<VolumeId>, more: set<VolumeId>)
    requires Follows(a, b, more) && Follows(b, c, some) && some <= more
    ensures Follows(a, c, more) && Follows(b, c, more)
  {
    hide Follows;
    FollowsWider(b, c, some, more);
    FollowsTrans(a, b, c, more);
  }

  lemma RelyTrans(a: World, b: World, c: World)
    requires Rely(a, b) && Rely(b, c)
    ensures Rely(a, c)
  {
    FollowsTrans(a, b, c, {});
  }

  /** What follows is made of legal steps. */
  lemma FollowsRows(w: World, w': World, moved: set<VolumeId>)
    requires Follows(w, w', moved)
    ensures RowsStep(w, w') && AttemptsCounted(w, Call, w')
  {
    forall i | i in w.instances ensures i in w'.instances && InstanceStep(w.instances[i], w'.instances[i]) {
      assert InstanceFollows(w.instances[i], w'.instances[i]);
    }
    forall id | id in w.volumes ensures id in w'.volumes && VolumeStep(w.volumes[id], w'.volumes[id]) {
      assert RowFollows(w.volumes[id], w'.volumes[id]);
    }
  }

  lemma FollowsVms(w: World, w': World, moved: set<VolumeId>)
    requires Follows(w, w', moved) && Safe(w) && Safe(w')
    ensures VmsStep(w, w')
  {
    hide HolderSlotsOK, VolumesOK, VmidsDistinct, InstanceTokensDistinct, VmOwnersOK, AddressesOK, SeedsOK;
    forall i | i in w.instances && w.instances[i].adopted && LiveInstance(w.instances[i])
      ensures AdoptedVmStep(w, w', i)
    {
      assert InstanceFollows(w.instances[i], w'.instances[i]);
      assert InstanceOK(w, i);
    }
    forall i | i in w.instances && Leaving(w.instances[i]) && NamedBySome(w', i) ensures NamedBySome(w, i) {
      var b :| b in w'.volumes && LiveVolume(w'.volumes[b]) && w'.volumes[b].instance == Some(i);
      assert NamesLeaving(w, w'.volumes[b]);
      assert RowFollows(w.volumes[b], w'.volumes[b]);
    }
  }

  /** A transaction of somebody else's is a step like any other. */
  lemma RelyStep(w: World, w': World)
    requires Rely(w, w') && Safe(w) && Safe(w') && QuotaStep(w, w')
    ensures Step(w, Call, w')
  {
    hide Safe, RowsStep, AttemptsCounted, VmsStep, QuotaStep, Follows;
    FollowsRows(w, w', {});
    FollowsVms(w, w', {});
  }

  /** A call that follows and adds nothing to what anybody holds is one more step of a run. */
  lemma FollowsRun(h: seq<World>, es: seq<Event>, w: World, moved: set<VolumeId>)
    requires Run(h, es) && Safe(w) && Follows(h[|h| - 1], w, moved)
    requires NothingAdded(h[|h| - 1].volumes, h[|h| - 1].instances, w.volumes, w.instances)
    ensures Run(h + [w], es + [Call])
  {
    hide Safe, RowsStep, AttemptsCounted, VmsStep, QuotaStep, Follows, NothingAdded, WithinLimits;
    var last := h[|h| - 1];
    FollowsRows(last, w, moved);
    FollowsVms(last, w, moved);
    QuietStep(last, w);
    RunGrows(h, es, w, Call);
  }
}
