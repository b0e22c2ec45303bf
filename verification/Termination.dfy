/** Terminating an instance: its volumes go home first, then the VM goes with
    every disk it still holds, then its addresses. */
module Termination {
  import opened Types
  import opened Rows
  import opened CloudState
  import opened DiskLemmas
  import opened RowLemmas
  import opened InstanceLemmas
  import opened Progress
  import opened History
  import opened Backends
  import opened Steps
  import opened Interference
  import opened DiskSteps
  import opened VolumeRequests
  import opened VolumeWorker

  /** The instance is being terminated and this is its row. */
  ghost predicate Ending(w: World, i: InstanceId, inst: Instance) {
    && i in w.instances && w.instances[i] == inst && inst.pending == Some(Terminate)
    && LiveInstance(inst) && inst.vmid.Some?
  }

  /** The same, and the VM on its VMID is there and its own. */
  ghost predicate Holding(w: World, i: InstanceId, inst: Instance) {
    Ending(w, i, inst) && HasVm(w, i)
  }

  lemma EndingFacts(w: World, i: InstanceId)
    requires Safe(w) && i in w.instances && w.instances[i].pending == Some(Terminate)
    ensures Ending(w, i, w.instances[i]) && w.instances[i].vmid.value != w.site.holder
  {
    hide Safe;
    SafeInstance(w, i);
  }

  lemma EndingFollows(w: World, w': World, i: InstanceId, inst: Instance, moved: set<VolumeId>)
    requires Follows(w, w', moved) && Ending(w, i, inst)
    ensures Ending(w', i, inst) && (HasVm(w, i) ==> HasVm(w', i)) && Kept(w, w')
    ensures forall b :: Names(w', b, i) ==> b in w.volumes && w.volumes[b].instance == Some(i)
    ensures forall b :: Names(w, b, i) ==> Names(w', b, i) && (b !in moved ==> w'.volumes[b].loc == w.volumes[b].loc)
  {
    assert InstanceFollows(w.instances[i], w'.instances[i]);
    assert Kept(w, w');
    if HasVm(w, i) {
      KeptAt(w, w', inst.vmid.value);
    }
    forall b | Names(w, b, i) ensures Names(w', b, i) {
      assert RowFollows(w.volumes[b], w'.volumes[b]);
    }
  }

  /** A volume on the terminating instance's VM, or on its way there, is one that names the instance. */
  lemma OnVmNames(w: World, i: InstanceId, inst: Instance, b: VolumeId)
    requires Safe(w) && Ending(w, i, inst) && LiveRow(w, b)
    requires w.volumes[b].loc.vmid == inst.vmid || w.volumes[b].loc.moveVmid == inst.vmid
    ensures Names(w, b, i)
  {
    hide HypervisorOK, HolderSlotsOK, SettledInUse, InstanceOK;
    EndingFacts(w, i);
    assert VolumeOK(w, b);
    VmidsApart(w, i);
  }

  lemma NamedHasDisk(w: World, b: VolumeId, i: InstanceId)
    requires Safe(w) && Names(w, b, i)
    ensures LiveRow(w, b) && w.volumes[b].loc.name.Some? && w.volumes[b].loc.vmid.Some?
    ensures w.volumes[b].pending != Some(Delete)
    ensures w.volumes[b].loc.vmid.value == w.site.holder
            || (i in w.instances && w.instances[i].vmid == w.volumes[b].loc.vmid)
  {
    hide HypervisorOK, HolderSlotsOK, SettledInUse, InstancesOK;
    assert VolumeOK(w, b);
  }

  // ------------------------------------------------------- what is left alone

  /** Every VM, address and seed image is still whose it was. */
  ghost predicate Kept(w: World, w': World) {
    && (forall m :: m in w.vms ==> m in w'.vms && w'.vms[m] == w.vms[m])
    && w'.addresses == w.addresses && w'.seeds == w.seeds
  }

  /** So are all but the VM on this VMID. */
  ghost predicate KeptBut(w: World, w': World, vmid: VmId) {
    && (forall m :: m in w.vms && m != vmid ==> m in w'.vms && w'.vms[m] == w.vms[m])
    && w'.addresses == w.addresses && w'.seeds == w.seeds
  }

  /** Every VM but the instance's own, and every address and seed image but the instance's,
      is still whose it was, and none has come to be anybody's. */
  ghost predicate OthersSpared(w: World, w': World, i: InstanceId)
    requires i in w.instances
  {
    && (forall m | m in w.vms
          :: (m in w'.vms && w'.vms[m] == w.vms[m]) || (HasVm(w, i) && w.instances[i].vmid == Some(m)))
    && OnlyReleased(w, w', i) && w'.seeds - {i} == w.seeds - {i}
  }

  ghost predicate OnlyReleased(w: World, w': World, i: InstanceId) {
    && (forall a :: a in w.addresses && w.addresses[a] != i ==> a in w'.addresses)
    && (forall a :: a in w'.addresses ==> a in w.addresses && w'.addresses[a] == w.addresses[a])
  }

  lemma KeptAt(w: World, w': World, m: VmId)
    requires Kept(w, w') && m in w.vms
    ensures m in w'.vms && w'.vms[m] == w.vms[m]
  {
  }

  // ------------------------------------------------------------ one volume home

  /** Only volume `id` has stopped naming the instance; the others are where they were. */
  ghost predicate OnlyFreed(w: World, w': World, i: InstanceId, id: VolumeId) {
    && (forall b :: Names(w', b, i) ==> b in w.volumes && w.volumes[b].instance == Some(i) && b != id)
    && (forall b :: Names(w, b, i) && b != id ==> Names(w', b, i) && w'.volumes[b].loc == w.volumes[b].loc)
  }

  /** What freeing makes of a volume whose disk is back on the holder: it is nobody's, and what
      was in use is available. An attach or a detach is over; anything else that is pending,
      a resize for instance, is still to be done, with the attempts it has had. */
  predicate Freed(v: Volume, v': Volume, holder: VmId) {
    && v'.account == v.account && v'.token == v.token && v'.hash == v.hash && v'.tier == v.tier && v'.size == v.size
    && v'.instance.None? && v'.device.None? && v'.attachment.None?
    && v'.state == (if v.state.InUse? then Available else v.state)
    && (if v.pending == Some(Attach) || v.pending == Some(Detach) then v'.pending.None? && v'.attempts == 0
        else v'.pending == v.pending && v'.attempts == v.attempts)
    && v'.loc.vmid == Some(holder) && v'.loc.key.Some? && v'.loc.name.Some?
    && v'.loc.moveVmid.None? && v'.loc.moveKey.None?
  }

  /** The row has been freed so, between things anybody may do to it. */
  ghost predicate WasFreed(v: Volume, v': Volume, holder: VmId) {
    exists a, b :: RowFollows(v, a) && Freed(a, b, holder) && RowFollows(b, v')
  }

  lemma RowOn(a: Volume, b: Volume, c: Volume, holder: VmId)
    requires RowFollows(b, c)
    ensures RowFollows(a, b) ==> RowFollows(a, c)
    ensures WasFreed(a, b, holder) ==> WasFreed(a, c, holder)
  {
    if WasFreed(a, b, holder) {
      var x, y :| RowFollows(a, x) && Freed(x, y, holder) && RowFollows(y, b);
      assert RowFollows(y, c);
    }
  }

  lemma RowBefore(a: Volume, b: Volume, c: Volume, holder: VmId)
    requires RowFollows(a, b)
    ensures RowFollows(b, c) ==> RowFollows(a, c)
    ensures WasFreed(b, c, holder) ==> WasFreed(a, c, holder)
  {
    if WasFreed(b, c, holder) {
      var x, y :| RowFollows(b, x) && Freed(x, y, holder) && RowFollows(y, c);
      assert RowFollows(a, x);
    }
  }

  /** Every row is as somebody else may have made it. */
  ghost predicate RowsFollow(w: World, w': World) {
    forall b :: b in w.volumes ==> b in w'.volumes && RowFollows(w.volumes[b], w'.volumes[b])
  }

  lemma RowsGoOn()
    ensures forall a: World, b: World :: a.volumes == b.volumes ==> RowsFollow(a, b)
    ensures forall a, b, c :: RowsFollow(a, b) && RowsFollow(b, c) ==> RowsFollow(a, c)
  {
  }

  /** So is every row but this one, which has been freed if that is done. */
  ghost predicate OneReturned(w: World, w': World, id: VolumeId, done: bool) {
    forall b | b in w.volumes ::
      && b in w'.volumes
      && ((b == id && WasFreed(w.volumes[b], w'.volumes[b], w.site.holder))
          || (!(done && b == id) && RowFollows(w.volumes[b], w'.volumes[b])))
  }

  /** So is every row but those that named the instance, each of which has been freed if
      that is done. */
  ghost predicate AllReturned(w: World, w': World, i: InstanceId, done: bool) {
    forall b | b in w.volumes ::
      && b in w'.volumes
      && ((Names(w, b, i) && WasFreed(w.volumes[b], w'.volumes[b], w.site.holder))
          || (!(done && Names(w, b, i)) && RowFollows(w.volumes[b], w'.volumes[b])))
  }

  /** So is every row but those that named the instance and are no longer in `rest`: each
      of them has been freed. */
  ghost predicate Returned(w: World, w': World, i: InstanceId, rest: set<VolumeId>) {
    && (forall b :: b in rest ==> Names(w, b, i))
    && forall b | b in w.volumes ::
         && b in w'.volumes
         && if Names(w, b, i) && b !in rest then WasFreed(w.volumes[b], w'.volumes[b], w.site.holder)
            else RowFollows(w.volumes[b], w'.volumes[b])
  }

  lemma NoneReturned(w: World, w': World, i: InstanceId, rest: set<VolumeId>)
    requires RowsFollow(w, w') && forall b :: Names(w, b, i) <==> b in rest
    ensures Returned(w, w', i, rest)
  {
  }

  lemma ReturnedOn(a: World, b: World, c: World, i: InstanceId, rest: set<VolumeId>)
    requires Returned(a, b, i, rest) && RowsFollow(b, c)
    ensures Returned(a, c, i, rest)
  {
    hide RowFollows, WasFreed;
    forall x | x in a.volumes
      ensures x in c.volumes
      ensures RowFollows(a.volumes[x], b.volumes[x]) ==> RowFollows(a.volumes[x], c.volumes[x])
      ensures WasFreed(a.volumes[x], b.volumes[x], a.site.holder) ==>
                WasFreed(a.volumes[x], c.volumes[x], a.site.holder)
    {
      RowOn(a.volumes[x], b.volumes[x], c.volumes[x], a.site.holder);
    }
  }

  lemma AllReturnedOn(a: World, b: World, c: World, i: InstanceId, done: bool)
    requires AllReturned(a, b, i, done) && RowsFollow(b, c)
    ensures AllReturned(a, c, i, done)
  {
    hide RowFollows, WasFreed;
    forall x | x in a.volumes
      ensures x in c.volumes
      ensures RowFollows(a.volumes[x], b.volumes[x]) ==> RowFollows(a.volumes[x], c.volumes[x])
      ensures WasFreed(a.volumes[x], b.volumes[x], a.site.holder) ==>
                WasFreed(a.volumes[x], c.volumes[x], a.site.holder)
    {
      RowOn(a.volumes[x], b.volumes[x], c.volumes[x], a.site.holder);
    }
  }

  lemma ReturnedLater(a: World, b: World, c: World, i: InstanceId, done: bool)
    requires RowsFollow(a, b) && AllReturned(b, c, i, done) && a.site == b.site
    requires forall x :: Names(a, x, i) <==> Names(b, x, i)
    ensures AllReturned(a, c, i, done)
  {
    hide RowFollows, WasFreed, Names;
    forall x | x in a.volumes
      ensures x in c.volumes
      ensures RowFollows(b.volumes[x], c.volumes[x]) ==> RowFollows(a.volumes[x], c.volumes[x])
      ensures WasFreed(b.volumes[x], c.volumes[x], a.site.holder) ==>
                WasFreed(a.volumes[x], c.volumes[x], a.site.holder)
    {
      RowBefore(a.volumes[x], b.volumes[x], c.volumes[x], a.site.holder);
    }
  }

  lemma OneMoreReturned(a: World, b: World, c: World, i: InstanceId, rest: set<VolumeId>, id: VolumeId, done: bool)
    requires Returned(a, b, i, rest) && OneReturned(b, c, id, done) && id in rest && a.site == b.site
    ensures if done then Returned(a, c, i, rest - {id}) else AllReturned(a, c, i, false)
  {
    hide RowFollows, WasFreed;
    forall x | x in a.volumes && x != id
      ensures x in c.volumes
      ensures RowFollows(a.volumes[x], b.volumes[x]) ==> RowFollows(a.volumes[x], c.volumes[x])
      ensures WasFreed(a.volumes[x], b.volumes[x], a.site.holder) ==>
                WasFreed(a.volumes[x], c.volumes[x], a.site.holder)
    {
      RowOn(a.volumes[x], b.volumes[x], c.volumes[x], a.site.holder);
    }
    RowBefore(a.volumes[id], b.volumes[id], c.volumes[id], a.site.holder);
  }

  /** A growth asked for outlives the instance: the row freed still has it pending, with the
      size asked for and the attempts made, and is now to be grown on the holder. */
  lemma GrowthOutlives(w: World, w': World, i: InstanceId, b: VolumeId)
    requires AllReturned(w, w', i, true) && Names(w, b, i) && w.volumes[b].pending == Some(Resize)
    ensures b in w'.volumes
    ensures var v, v' := w.volumes[b], w'.volumes[b];
            v' == v.(state := if v.state.InUse? then Available else v.state,
                     instance := None, device := None, attachment := None, loc := v'.loc)
  {
    var x, y :| RowFollows(w.volumes[b], x) && Freed(x, y, w.site.holder) && RowFollows(y, w'.volumes[b]);
  }

  lemma NothingReturned(w: World, w': World, i: InstanceId)
    requires RowsFollow(w, w')
    ensures AllReturned(w, w', i, false)
  {
    hide RowFollows, WasFreed;
  }

  lemma AllOrNot(w: World, w': World, i: InstanceId)
    requires AllReturned(w, w', i, true)
    ensures AllReturned(w, w', i, false)
  {
    hide RowFollows, WasFreed;
  }

  lemma ReturnedSoFar(a: World, b: World, i: InstanceId, rest: set<VolumeId>)
    requires Returned(a, b, i, rest)
    ensures AllReturned(a, b, i, rest == {})
  {
    hide RowFollows, WasFreed;
  }

  lemma ReturnStep(w: World, id: VolumeId, l: Location)
    requires LiveRow(w, id) && w.volumes[id].instance.Some? && w.volumes[id].loc.name.Some? && l.name.Some?
    requires VolumeShape(w.volumes[id])
    ensures Step(w, Call, SetVolume(w, id, ReturnToHolder(w.volumes[id], l)))
  {
    hide Step, QuotaStep;
    LighterRow(w, id, ReturnToHolder(w.volumes[id], l));
    VolumeUpdateStep(w, id, ReturnToHolder(w.volumes[id], l), Call);
  }

  lemma FreedOnly(w0: World, w: World, i: InstanceId, inst: Instance, id: VolumeId, l: Location)
    requires Follows(w0, w, {id}) && Ending(w0, i, inst) && Names(w0, id, i) && LiveRow(w, id)
    ensures OnlyFreed(w0, SetVolume(w, id, ReturnToHolder(w.volumes[id], l)), i, id)
  {
    var w' := SetVolume(w, id, ReturnToHolder(w.volumes[id], l));
    EndingFollows(w0, w, i, inst, {id});
    forall b | Names(w', b, i) ensures b in w0.volumes && w0.volumes[b].instance == Some(i) && b != id {
      assert b != id ==> Names(w, b, i);
    }
    forall b | Names(w0, b, i) && b != id ensures Names(w', b, i) && w'.volumes[b].loc == w0.volumes[b].loc {
      assert Names(w, b, i);
    }
  }

  /** Bringing one volume of a terminating instance home and freeing it, which only
      trouble can prevent. */
  method ReturnOne(c: Cloud, i: InstanceId, inst: Instance, id: VolumeId, l0: Location) returns (r: Outcome)
    requires c.Valid() && Holding(c.Now(), i, inst) && Names(c.Now(), id, i) && c.volumes[id].loc == l0
    modifies c
    ensures Extends(old(c.Past()), c.Past())
    ensures c.Valid() && Holding(c.Now(), i, inst) && Kept(old(c.Now()), c.Now())
    ensures r.Ok? ==> OnlyFreed(old(c.Now()), c.Now(), i, id)
    ensures OneReturned(old(c.Now()), c.Now(), id, r.Ok?)
    ensures Accounted(old(c.trouble), old(c.unrecorded), c, r)
    ensures c.trouble == old(c.trouble) ==> r.Ok?
  {
    hide Extends, Safe, Run, Follows, Rely, HasVm, Loose, Step, Destroyed, OnlyFreed, Kept, OwnName, OneReturned;
    Extending();
    ghost var w0 := c.Now();
    FollowsSelf(w0, {id});
    NamedHasDisk(w0, id, i);
    var l;
    l, r := Locate(c, id, l0);
    EndingFollows(w0, c.Now(), i, inst, {id});
    NamedHasDisk(c.Now(), id, i);
    FreesIt(w0, c.Now(), id);
    if !r.Ok? {
      return r;
    }
    if l.vmid == inst.vmid {
      ghost var w := c.Now();
      EndingFacts(w, i);
      NamesEnding(w, id, i, inst);
      l, r := BringHome(c, id, l);
      Onward(w0, w, c.Now(), id);
      EndingFollows(w0, c.Now(), i, inst, {id});
      FreesIt(w0, c.Now(), id);
      if !r.Ok? {
        return r;
      }
    }
    r := FreeVolume(c, i, inst, id, l, w0);
  }

  lemma NamesEnding(w: World, id: VolumeId, i: InstanceId, inst: Instance)
    requires Ending(w, i, inst) && Names(w, id, i)
    ensures OnTheWay(w, id)
  {
  }

  /** Its disk is back on the holder, so the row can be freed. */
  method FreeVolume(c: Cloud, i: InstanceId, inst: Instance, id: VolumeId, l: Location, ghost w0: World)
    returns (r: Outcome)
    requires c.Valid() && Follows(w0, c.Now(), {id}) && Holding(w0, i, inst) && Names(w0, id, i)
    requires LiveRow(c.Now(), id) && c.volumes[id].loc == l && Found(c.Now(), id)
    requires l.vmid == Some(c.site.holder) || l.vmid != inst.vmid
    modifies c
    ensures Extends(old(c.Past()), c.Past())
    ensures c.Valid() && Holding(c.Now(), i, inst) && Kept(w0, c.Now())
    ensures r.Ok? ==> OnlyFreed(w0, c.Now(), i, id)
    ensures OneReturned(w0, c.Now(), id, r.Ok?)
    ensures Managed(old(c.trouble), old(c.unrecorded), c, r, true)
  {
    hide Extends, Safe, Run, Follows, Rely, HasVm, Loose, Step, OnlyFreed, OneReturned;
    Extending();
    Pause(c, id, w0);
    EndingFollows(w0, c.Now(), i, inst, {id});
    NamedHasDisk(c.Now(), id, i);
    ShapeOf(c.Now(), id);
    ghost var w := c.Now();
    ReturnSafe(w, id);
    ReturnStep(w, id, l);
    FreedOnly(w0, w, i, inst, id, l);
    FreesIt(w0, w, id);
    assert l.key.Some? by { FoundHasKey(w, id); }
    r := WriteVolume(c, id, row => ReturnToHolder(row, l), Call);
    VmSame(w, c.Now(), i, inst);
    NotDone(w0, c.Now(), id);
  }

  /** Freeing the row of a volume whose disk is back on the holder. */
  lemma FreesIt(w0: World, w: World, id: VolumeId)
    requires Follows(w0, w, {id}) && LiveRow(w0, id) && LiveRow(w, id)
    ensures OneReturned(w0, w, id, false)
    ensures var l := w.volumes[id].loc;
            l.vmid == Some(w.site.holder) && l.key.Some? && l.name.Some? ==>
              OneReturned(w0, SetVolume(w, id, ReturnToHolder(w.volumes[id], l)), id, true)
  {
    hide NoLateAttach, InstancesFollow, VmsFollow, Freed, WasFreed;
    var v, l := w.volumes[id], w.volumes[id].loc;
    if l.vmid == Some(w.site.holder) && l.key.Some? && l.name.Some? {
      assert Freed(v, ReturnToHolder(v, l), w.site.holder) by { IsFreed(v, w.site.holder); }
      Frees(w0.volumes[id], v, ReturnToHolder(v, l), w.site.holder);
      assert w0.site == w.site by { SiteStays(w0, w, id); }
    }
  }

  lemma NotDone(w: World, w': World, id: VolumeId)
    ensures OneReturned(w, w', id, true) ==> OneReturned(w, w', id, false)
  {
    hide RowFollows, WasFreed;
  }

  lemma IsFreed(v: Volume, holder: VmId)
    requires v.loc.vmid == Some(holder) && v.loc.key.Some? && v.loc.name.Some?
    ensures Freed(v, ReturnToHolder(v, v.loc), holder)
  {
  }

  lemma Frees(a: Volume, b: Volume, c: Volume, holder: VmId)
    requires RowFollows(a, b) && Freed(b, c, holder)
    ensures WasFreed(a, c, holder)
  {
    assert RowFollows(c, c);
  }

  lemma SiteStays(w: World, w': World, id: VolumeId)
    requires Follows(w, w', {id})
    ensures w'.site == w.site
  {
  }

  lemma VmSame(w: World, w': World, i: InstanceId, inst: Instance)
    requires Ending(w, i, inst) && Ending(w', i, inst) && w'.vms == w.vms
    ensures HasVm(w', i) <==> HasVm(w, i)
  {
  }

  // -------------------------------------------------------- every volume home

  lemma NobodyMentions(w: World, i: InstanceId, inst: Instance)
    requires Safe(w) && Ending(w, i, inst) && forall b :: !Names(w, b, i)
    ensures inst.vmid.Some? && Unmentioned(w, inst.vmid.value)
  {
    hide Safe, Ending;
    HasVmid(w, i, inst);
    forall b | LiveRow(w, b)
      ensures w.volumes[b].loc.vmid != Some(inst.vmid.value) && w.volumes[b].loc.moveVmid != Some(inst.vmid.value)
    {
      if w.volumes[b].loc.vmid == inst.vmid || w.volumes[b].loc.moveVmid == inst.vmid {
        OnVmNames(w, i, inst, b);
      }
    }
  }

  lemma HasVmid(w: World, i: InstanceId, inst: Instance)
    requires Ending(w, i, inst)
    ensures inst.vmid.Some? && i in w.instances
  {
  }

  /** The volumes still to be brought home are all that name the instance, each
      where it was when they were listed. */
  ghost predicate StillToReturn(w: World, i: InstanceId, rest: set<VolumeId>, places: map<VolumeId, Location>) {
    && (forall b :: b in rest ==> Names(w, b, i) && b in places && w.volumes[b].loc == places[b])
    && (forall b :: Names(w, b, i) ==> b in rest)
  }

  lemma OneFewer(
    w: World, w': World, i: InstanceId, rest: set<VolumeId>, places: map<VolumeId, Location>, id: VolumeId)
    requires Safe(w) && StillToReturn(w, i, rest, places) && id in rest && OnlyFreed(w, w', i, id)
    ensures StillToReturn(w', i, rest - {id}, places)
  {
    hide Safe;
    forall b | Names(w', b, i) ensures b in rest - {id} {
      assert b in w.volumes && w.volumes[b].instance == Some(i);
      NamersAreLive(w, b);
      assert Names(w, b, i);
    }
  }

  lemma NamersAreLive(w: World, b: VolumeId)
    requires Safe(w) && b in w.volumes && w.volumes[b].instance.Some?
    ensures LiveVolume(w.volumes[b])
  {
    hide HypervisorOK, HolderSlotsOK, SettledInUse, InstancesOK, DiskKept;
    assert VolumeOK(w, b);
  }

  /** Bringing home every volume recorded on the VM, on its way there, or naming the
      instance, and then making sure: afterwards no volume has anything to do with it. */
  method ReturnVolumes(c: Cloud, i: InstanceId, inst: Instance) returns (r: Outcome)
    requires c.Valid() && Holding(c.Now(), i, inst)
    modifies c
    ensures Extends(old(c.Past()), c.Past())
    ensures c.Valid() && Holding(c.Now(), i, inst) && Kept(old(c.Now()), c.Now())
    ensures AllReturned(old(c.Now()), c.Now(), i, r.Ok?)
    ensures r.Ok? ==> Unmentioned(c.Now(), inst.vmid.value) && forall b :: !Names(c.Now(), b, i)
    ensures Accounted(old(c.trouble), old(c.unrecorded), c, r)
    ensures c.trouble == old(c.trouble) ==> r.Ok?
  {
    hide Extends, Safe, Run, Follows, Rely, HasVm, Ending, Unmentioned, OnlyFreed, StillToReturn, VolumeOK,
         RowsFollow, Returned, AllReturned, OneReturned, Names;
    Extending();
    var rest, places;
    ghost var w0 := c.Now();
    rest, places, r := ListVolumes(c, i, inst);
    NothingReturned(w0, c.Now(), i);
    if !r.Ok? {
      return r;
    }
    WhatToReturn(c.Now(), i, rest, places);
    NoneReturned(w0, c.Now(), i, rest);
    while rest != {}
      invariant Extends(old(c.Past()), c.Past())
      invariant c.Valid() && Holding(c.Now(), i, inst) && StillToReturn(c.Now(), i, rest, places)
      invariant Kept(old(c.Now()), c.Now()) && c.trouble == old(c.trouble) && c.unrecorded == old(c.unrecorded)
      invariant Returned(w0, c.Now(), i, rest)
      decreases |rest|
    {
      var id :| id in rest;
      ghost var w := c.Now();
      PauseToReturn(c, i, inst, rest, places);
      ReturnedOn(w0, w, c.Now(), i, rest);
      w := c.Now();
      FirstToReturn(w, i, rest, places, id);
      r := ReturnOne(c, i, inst, id, places[id]);
      OneMoreReturned(w0, w, c.Now(), i, rest, id, r.Ok?);
      if !r.Ok? {
        return r;
      }
      OneFewer(w, c.Now(), i, rest, places, id);
      rest := rest - {id};
    }
    NoneToReturn(c.Now(), i, places);
    ghost var w := c.Now();
    r := RefuseToDestroyVolumes(c, i, inst);
    ReturnedOn(w0, w, c.Now(), i, {});
    ReturnedSoFar(w0, c.Now(), i, {});
    AllOrNot(w0, c.Now(), i);
  }

  /** The volumes to be brought home, and where they are recorded. */
  method ListVolumes(c: Cloud, i: InstanceId, inst: Instance)
    returns (rest: set<VolumeId>, places: map<VolumeId, Location>, r: Outcome)
    requires c.Valid() && Holding(c.Now(), i, inst)
    modifies c
    ensures Extends(old(c.Past()), c.Past())
    ensures c.Valid() && Holding(c.Now(), i, inst) && Kept(old(c.Now()), c.Now())
    ensures RowsFollow(old(c.Now()), c.Now())
    ensures forall b :: Names(old(c.Now()), b, i) <==> Names(c.Now(), b, i)
    ensures r.Ok? ==> StillToReturn(c.Now(), i, rest, places)
    ensures Managed(old(c.trouble), old(c.unrecorded), c, r, true)
  {
    hide Extends, Safe, Run, Follows, Rely, HasVm, Ending, StillToReturn, VolumeOK, RowsFollow;
    Extending();
    RowsGoOn();
    HasVmid(c.Now(), i, inst);
    PauseEnding(c, i, inst);
    rest, places := {}, map[];
    var onVm;
    onVm, r := c.VolumesOnVm(inst.vmid.value);
    if !r.Ok? {
      return rest, places, r;
    }
    forall b | b in onVm ensures Names(c.Now(), b, i) {
      OnVmNames(c.Now(), i, inst, b);
    }
    PauseEnding(c, i, inst);
    var attached;
    attached, r := c.VolumesOfInstance(i);
    if !r.Ok? {
      return rest, places, r;
    }
    rest := onVm + attached;
    assert forall b :: b in rest ==> Names(c.Now(), b, i) by {
      forall b | b in attached ensures Names(c.Now(), b, i) {
        NamersAreLive(c.Now(), b);
      }
    }
    places := map b | b in rest :: c.volumes[b].loc;
    AllToReturn(c.Now(), i, rest, places);
  }

  lemma AllToReturn(w: World, i: InstanceId, rest: set<VolumeId>, places: map<VolumeId, Location>)
    requires forall b :: b in rest ==> Names(w, b, i) && b in places && w.volumes[b].loc == places[b]
    requires forall b :: b in w.volumes && w.volumes[b].instance == Some(i) ==> b in rest
    ensures StillToReturn(w, i, rest, places)
  {
  }

  lemma WhatToReturn(w: World, i: InstanceId, rest: set<VolumeId>, places: map<VolumeId, Location>)
    requires StillToReturn(w, i, rest, places)
    ensures forall b :: Names(w, b, i) <==> b in rest
  {
  }

  lemma FirstToReturn(w: World, i: InstanceId, rest: set<VolumeId>, places: map<VolumeId, Location>, id: VolumeId)
    requires StillToReturn(w, i, rest, places) && id in rest
    ensures Names(w, id, i) && id in places && w.volumes[id].loc == places[id]
  {
  }

  lemma NoneToReturn(w: World, i: InstanceId, places: map<VolumeId, Location>)
    requires StillToReturn(w, i, {}, places)
    ensures forall b :: !Names(w, b, i)
  {
  }

  method PauseEnding(c: Cloud, i: InstanceId, inst: Instance)
    requires c.Valid() && Ending(c.Now(), i, inst)
    modifies c
    ensures Extends(old(c.Past()), c.Past())
    ensures c.Valid() && Rely(old(c.Now()), c.Now()) && Ending(c.Now(), i, inst) && RowsFollow(old(c.Now()), c.Now())
    ensures c.trouble == old(c.trouble) && c.unrecorded == old(c.unrecorded)
    ensures HasVm(old(c.Now()), i) <==> HasVm(c.Now(), i)
    ensures c.vms == old(c.vms) && c.slots == old(c.slots)
    ensures c.addresses == old(c.addresses) && c.seeds == old(c.seeds)
    ensures forall b :: Names(old(c.Now()), b, i) ==> Names(c.Now(), b, i) && c.volumes[b].loc == old(c.volumes)[b].loc
    ensures forall b :: Names(c.Now(), b, i) ==> Names(old(c.Now()), b, i)
  {
    hide Extends, Safe, Run, Follows, HasVm, Ending, RowsFollow;
    Extending();
    ghost var w := c.Now();
    Others(c);
    RelyRows(w, c.Now());
    EndingFollows(w, c.Now(), i, inst, {});
    VmSame(w, c.Now(), i, inst);
    assert c.addresses == w.addresses && c.seeds == w.seeds by { SameAddresses(w, c.Now()); }
    assert forall b :: b in w.volumes && w.volumes[b].instance == Some(i) ==> Names(w, b, i) by {
      forall b | b in w.volumes && w.volumes[b].instance == Some(i) ensures Names(w, b, i) {
        NamersAreLive(w, b);
      }
    }
  }

  lemma RelyRows(w: World, w': World)
    requires Rely(w, w')
    ensures RowsFollow(w, w')
  {
    assert Follows(w, w', {});
  }

  lemma SameAddresses(w: World, w': World)
    requires Rely(w, w')
    ensures w'.addresses == w.addresses && w'.seeds == w.seeds
  {
    assert Follows(w, w', {});
  }

  method PauseToReturn(
    c: Cloud, i: InstanceId, inst: Instance, rest: set<VolumeId>, ghost places: map<VolumeId, Location>)
    requires c.Valid() && Holding(c.Now(), i, inst) && StillToReturn(c.Now(), i, rest, places)
    modifies c
    ensures Extends(old(c.Past()), c.Past())
    ensures c.Valid() && Holding(c.Now(), i, inst) && StillToReturn(c.Now(), i, rest, places)
    ensures RowsFollow(old(c.Now()), c.Now())
    ensures c.vms == old(c.vms) && c.addresses == old(c.addresses) && c.seeds == old(c.seeds)
    ensures c.trouble == old(c.trouble) && c.unrecorded == old(c.unrecorded)
  {
    hide Extends, Safe, Run, Follows, HasVm, Ending, Rely, RowsFollow;
    Extending();
    RowsGoOn();
    PauseEnding(c, i, inst);
  }

  /** The last check before a VM is deleted with its disks: none may be a volume's.
      After the volumes have been brought home it finds none. */
  method RefuseToDestroyVolumes(c: Cloud, i: InstanceId, inst: Instance) returns (r: Outcome)
    requires c.Valid() && Holding(c.Now(), i, inst) && forall b :: !Names(c.Now(), b, i)
    modifies c
    ensures Extends(old(c.Past()), c.Past())
    ensures c.Valid() && Holding(c.Now(), i, inst) && Kept(old(c.Now()), c.Now())
    ensures RowsFollow(old(c.Now()), c.Now())
    ensures Unmentioned(c.Now(), inst.vmid.value) && forall b :: !Names(c.Now(), b, i)
    ensures Managed(old(c.trouble), old(c.unrecorded), c, r, true)
  {
    hide Extends, Safe, Run, Follows, Rely, HasVm, Ending, Unmentioned, Names, RowsFollow;
    Extending();
    RowsGoOn();
    HasVmid(c.Now(), i, inst);
    PauseEnding(c, i, inst);
    NobodyMentions(c.Now(), i, inst);
    VmIsThere(c.Now(), i, inst);
    var config;
    config, r := c.VmConfig(inst.vmid.value);
    if !r.Ok? {
      return r;
    }
    var rest := config.Keys;
    while rest != {} && r.Ok?
      invariant Extends(old(c.Past()), c.Past()) && RowsFollow(old(c.Now()), c.Now())
      invariant c.Valid() && Holding(c.Now(), i, inst) && Kept(old(c.Now()), c.Now())
      invariant Unmentioned(c.Now(), inst.vmid.value) && forall b :: !Names(c.Now(), b, i)
      invariant rest <= config.Keys && forall k :: k in config ==> DiskAt(c.slots, inst.vmid.value, k, config[k])
      invariant Managed(old(c.trouble), old(c.unrecorded), c, r, true)
      decreases |rest|
    {
      var key :| key in rest;
      rest := rest - {key};
      PauseEnding(c, i, inst);
      NobodyMentions(c.Now(), i, inst);
      var found;
      found, r := c.VolumeByName(config[key]);
      if r.Ok? {
        NobodysDisk(c.Now(), Slot(inst.vmid.value, key), found);
        r := if found.Some? then Err(Failed) else Ok;
      }
    }
  }

  predicate DiskAt(slots: map<Slot, Disk>, m: VmId, key: Key, name: DiskName) {
    Slot(m, key) in slots && slots[Slot(m, key)].name == name
  }

  lemma VmIsThere(w: World, i: InstanceId, inst: Instance)
    requires Holding(w, i, inst)
    ensures inst.vmid.value in w.vms
  {
  }

  /** A disk on a VM no live row mentions is no live volume's. */
  lemma NobodysDisk(w: World, p: Slot, found: Option<VolumeId>)
    requires Safe(w) && p in w.slots && Unmentioned(w, p.vm)
    requires found.Some? ==> LiveRow(w, found.value) && w.volumes[found.value].loc.name == Some(w.slots[p].name)
    ensures found.None?
  {
    hide Safe;
    if found.Some? {
      NamedDiskIsOwn(w, found.value, p);
    }
  }

  // ---------------------------------------------------------------- terminate

  /** An instance without a VM has no disks to lose either: the volumes that name it,
      if any, name one whose VM was gone before they could. */
  lemma UnownedLeft(w: World, i: InstanceId, inst: Instance)
    requires Safe(w) && Ending(w, i, inst) && !HasVm(w, i)
    ensures OnlyAddresses(w, i, inst)
  {
    hide HypervisorOK, HolderSlotsOK, SettledInUse, DiskKept, InstanceOK;
    forall b | Names(w, b, i) ensures Bodiless(w, i) {
      assert VolumeOK(w, b);
    }
  }

  /** A VM the listing does not show is not the instance's. */
  lemma UnlistedUnowned(w: World, i: InstanceId, inst: Instance)
    requires Safe(w) && Ending(w, i, inst) && inst.vmid.value !in w.vms.Keys - w.site.outside
    ensures !HasVm(w, i)
  {
    hide Safe;
    SafeInstance(w, i);
    SafeHypervisor(w);
  }

  /** Nothing of the instance is left but, perhaps, addresses and a seed image. */
  ghost predicate OnlyAddresses(w: World, i: InstanceId, inst: Instance) {
    && Ending(w, i, inst)
    && (forall m :: m in w.vms ==> w.vms[m] != InstanceVm(i))
    && (forall b :: Names(w, b, i) ==> Bodiless(w, i))
  }

  lemma OnlyAddressesKept(w: World, w': World, i: InstanceId, inst: Instance)
    requires OnlyAddresses(w, i, inst) && Ending(w', i, inst) && w'.vms == w.vms
    requires forall b :: Names(w', b, i) ==> Names(w, b, i)
    ensures OnlyAddresses(w', i, inst)
  {
  }

  /** A VM that runs is stopped first. */
  method HaltVm(c: Cloud, i: InstanceId, inst: Instance) returns (r: Outcome)
    requires c.Valid() && Holding(c.Now(), i, inst)
    modifies c
    ensures Extends(old(c.Past()), c.Past())
    ensures c.Valid() && Holding(c.Now(), i, inst) && Kept(old(c.Now()), c.Now())
    ensures RowsFollow(old(c.Now()), c.Now())
    ensures forall b :: Names(old(c.Now()), b, i) <==> Names(c.Now(), b, i)
    ensures r.Ok? ==> PowerDone(c.events, |old(c.events)|, inst.vmid.value, Halt)
    ensures Managed(old(c.trouble), old(c.unrecorded), c, r, true)
  {
    hide Extends, Since, Safe, Run, Rely, Names, RowsFollow;
    Extending();
    RowsGoOn();
    var m := inst.vmid.value;
    ghost var past;
    PauseEnding(c, i, inst);
    past := c.Past();
    var running := SeeRunning(c, m);
    Happened(old(c.Past()), past, c.Past());
    JustHappened(past.events, |past.events|, Shown(m, running));
    r := Ok;
    if running {
      past := c.Past();
      PauseEnding(c, i, inst);
      assert SomebodysVm(c.Now(), m);
      Happened(old(c.Past()), past, c.Past());
      JustHappened(c.events, |old(c.events)|, Powered(m, Halt));
      r := Power(c, m, Halt, |old(c.events)|);
    }
  }

  method TakeDownVm(c: Cloud, i: InstanceId, inst: Instance) returns (r: Outcome)
    requires c.Valid() && Holding(c.Now(), i, inst)
    modifies c
    ensures Extends(old(c.Past()), c.Past())
    ensures c.Valid() && Ending(c.Now(), i, inst) && KeptBut(old(c.Now()), c.Now(), inst.vmid.value)
    ensures AllReturned(old(c.Now()), c.Now(), i, r.Ok?)
    ensures r.Ok? ==> OnlyAddresses(c.Now(), i, inst) && forall b :: !Names(c.Now(), b, i)
    ensures r.Ok? ==> PowerDone(c.events, |old(c.events)|, inst.vmid.value, Halt)
    ensures Accounted(old(c.trouble), old(c.unrecorded), c, r)
    ensures c.trouble == old(c.trouble) ==> r.Ok?
  {
    hide Extends, Since, Safe, Run, Rely, HasVm, Unmentioned, Names, OnlyAddresses, RowsFollow, AllReturned;
    Extending();
    ghost var w0 := c.Now();
    r := HaltVm(c, i, inst);
    NothingReturned(w0, c.Now(), i);
    if !r.Ok? {
      return r;
    }
    ghost var past := c.Past();
    ghost var w := c.Now();
    r := ReturnVolumes(c, i, inst);
    ReturnedLater(w0, w, c.Now(), i, r.Ok?);
    if !r.Ok? {
      return r;
    }
    w := c.Now();
    r := DestroyEmptied(c, i, inst);
    AllReturnedOn(w0, w, c.Now(), i, true);
    AllOrNot(w0, c.Now(), i);
    Happened(old(c.Past()), past, c.Past());
  }

  /** No volume has anything to do with the VM any more, so it can go. */
  method DestroyEmptied(c: Cloud, i: InstanceId, inst: Instance) returns (r: Outcome)
    requires c.Valid() && Holding(c.Now(), i, inst) && forall b :: !Names(c.Now(), b, i)
    modifies c
    ensures Extends(old(c.Past()), c.Past())
    ensures c.Valid() && Ending(c.Now(), i, inst) && KeptBut(old(c.Now()), c.Now(), inst.vmid.value)
    ensures RowsFollow(old(c.Now()), c.Now())
    ensures r.Ok? ==> OnlyAddresses(c.Now(), i, inst) && forall b :: !Names(c.Now(), b, i)
    ensures Managed(old(c.trouble), old(c.unrecorded), c, r, true)
  {
    hide Extends, Safe, Run, Rely, HasVm, Unmentioned, Names, OnlyAddresses, RowsFollow;
    Extending();
    RowsGoOn();
    PauseEnding(c, i, inst);
    NobodyMentions(c.Now(), i, inst);
    ghost var w := c.Now();
    VmIsThere(w, i, inst);
    IsOwned(w, i);
    r := DestroyVm(c, i, inst.vmid.value);
    SameNames(w, c.Now(), i);
    if r.Ok? {
      RemovedUnowned(w, c.Now(), i, inst);
      UnownedLeft(c.Now(), i, inst);
    }
  }

  lemma SameNames(w: World, w': World, i: InstanceId)
    requires w'.volumes == w.volumes
    ensures forall b :: Names(w', b, i) <==> Names(w, b, i)
  {
  }

  lemma IsOwned(w: World, i: InstanceId)
    requires i in w.instances && HasVm(w, i)
    ensures Owned(w, i)
  {
  }

  lemma RemovedUnowned(w: World, w': World, i: InstanceId, inst: Instance)
    requires Ending(w, i, inst) && w' == RemoveVm(w, inst.vmid.value)
    ensures !HasVm(w', i)
  {
  }

  /** The seed image, if one is recorded; one that was uploaded and never recorded stays. */
  method ReleaseSeed(c: Cloud, i: InstanceId, inst: Instance) returns (r: Outcome)
    requires c.Valid() && OnlyAddresses(c.Now(), i, inst)
    modifies c
    ensures Extends(old(c.Past()), c.Past())
    ensures c.Valid() && OnlyAddresses(c.Now(), i, inst) && c.vms == old(c.vms) && c.addresses == old(c.addresses)
    ensures RowsFollow(old(c.Now()), c.Now())
    ensures c.seeds == old(c.seeds) || (inst.seed && c.seeds == old(c.seeds) - {i})
    ensures r.Ok? && inst.seed ==> i !in c.seeds
    ensures Managed(old(c.trouble), old(c.unrecorded), c, r, true)
  {
    hide Extends, Safe, Run, Rely, Names, OnlyAddresses, RowsFollow;
    Extending();
    RowsGoOn();
    r := Ok;
    if inst.seed {
      ghost var w := c.Now();
      EndsWithAddresses(w, i, inst);
      PauseEnding(c, i, inst);
      OnlyAddressesKept(w, c.Now(), i, inst);
      var found;
      found, r := c.ListSeeds();
      if r.Ok? && i in found {
        w := c.Now();
        PauseEnding(c, i, inst);
        OnlyAddressesKept(w, c.Now(), i, inst);
        w := c.Now();
        r := DropSeed(c, i);
        SameNames(w, c.Now(), i);
        OnlyAddressesKept(w, c.Now(), i, inst);
      }
    }
  }

  /** Every address carrying the instance's ID, and nobody else's. */
  method ReleaseAddresses(c: Cloud, i: InstanceId, inst: Instance) returns (r: Outcome)
    requires c.Valid() && OnlyAddresses(c.Now(), i, inst) && (inst.seed ==> i !in c.seeds)
    modifies c
    ensures Extends(old(c.Past()), c.Past())
    ensures c.Valid() && Ending(c.Now(), i, inst) && c.vms == old(c.vms) && c.seeds == old(c.seeds)
    ensures RowsFollow(old(c.Now()), c.Now())
    ensures OnlyReleased(old(c.Now()), c.Now(), i)
    ensures r.Ok? ==> NothingLeft(c.Now(), i)
    ensures Managed(old(c.trouble), old(c.unrecorded), c, r, true)
  {
    hide Extends, Safe, Run, Rely, Names, Follows, OnlyAddresses, NothingLeft, RowsFollow;
    Extending();
    RowsGoOn();
    ghost var w := c.Now();
    EndsWithAddresses(w, i, inst);
    PauseEnding(c, i, inst);
    OnlyAddressesKept(w, c.Now(), i, inst);
    var found;
    found, r := c.AddressesOf(i);
    if !r.Ok? {
      return r;
    }
    r := ReleaseEach(c, i, inst, found);
    EndsWithAddresses(c.Now(), i, inst);
    if !r.Ok? {
      return r;
    }
    if inst.address.Some? && inst.address.value !in found {
      AddressIsOwn(c.Now(), i);
      r := Drop(c, i, inst, inst.address.value);
    }
    NothingElse(c.Now(), i, inst);
  }

  /** The addresses found under the instance's ID, one by one. */
  method ReleaseEach(c: Cloud, i: InstanceId, inst: Instance, found: set<AddressId>) returns (r: Outcome)
    requires c.Valid() && OnlyAddresses(c.Now(), i, inst)
    requires forall a :: a in found <==> a in c.addresses && c.addresses[a] == i
    modifies c
    ensures Extends(old(c.Past()), c.Past())
    ensures c.Valid() && OnlyAddresses(c.Now(), i, inst) && c.vms == old(c.vms) && c.seeds == old(c.seeds)
    ensures RowsFollow(old(c.Now()), c.Now())
    ensures OnlyReleased(old(c.Now()), c.Now(), i)
    ensures r.Ok? ==> forall a :: a in c.addresses ==> c.addresses[a] != i
    ensures Managed(old(c.trouble), old(c.unrecorded), c, r, true)
  {
    hide Extends, Safe, Run, Rely, Names, Follows, OnlyAddresses, NothingLeft, RowsFollow;
    Extending();
    RowsGoOn();
    var rest := found;
    r := Ok;
    while rest != {}
      invariant Extends(old(c.Past()), c.Past()) && RowsFollow(old(c.Now()), c.Now())
      invariant c.Valid() && OnlyAddresses(c.Now(), i, inst) && c.vms == old(c.vms) && c.seeds == old(c.seeds)
      invariant OnlyReleased(old(c.Now()), c.Now(), i) && Managed(old(c.trouble), old(c.unrecorded), c, r, true)
      invariant rest <= found && r.Ok?
      invariant forall a :: a in rest <==> a in c.addresses && c.addresses[a] == i
      decreases |rest|
    {
      var a :| a in rest;
      r := Drop(c, i, inst, a);
      if !r.Ok? {
        return r;
      }
      rest := rest - {a};
    }
  }

  lemma NothingElse(w: World, i: InstanceId, inst: Instance)
    requires OnlyAddresses(w, i, inst)
    ensures Ending(w, i, inst)
    ensures (forall a :: a in w.addresses ==> w.addresses[a] != i) && (inst.seed ==> i !in w.seeds) ==>
              NothingLeft(w, i)
  {
  }

  method Drop(c: Cloud, i: InstanceId, inst: Instance, a: AddressId) returns (r: Outcome)
    requires c.Valid() && OnlyAddresses(c.Now(), i, inst) && (a in c.addresses ==> c.addresses[a] == i)
    modifies c
    ensures Extends(old(c.Past()), c.Past())
    ensures c.Valid() && OnlyAddresses(c.Now(), i, inst) && c.vms == old(c.vms) && c.seeds == old(c.seeds)
    ensures RowsFollow(old(c.Now()), c.Now())
    ensures c.addresses == old(c.addresses) || c.addresses == old(c.addresses) - {a}
    ensures r.Ok? ==> c.addresses == old(c.addresses) - {a}
    ensures Managed(old(c.trouble), old(c.unrecorded), c, r, true)
  {
    hide Extends, Safe, Run, Rely, Names, OnlyAddresses, RowsFollow;
    Extending();
    RowsGoOn();
    ghost var w := c.Now();
    EndsWithAddresses(w, i, inst);
    PauseEnding(c, i, inst);
    OnlyAddressesKept(w, c.Now(), i, inst);
    w := c.Now();
    r := DropAddress(c, i, a);
    SameNames(w, c.Now(), i);
    OnlyAddressesKept(w, c.Now(), i, inst);
  }

  lemma EndsWithAddresses(w: World, i: InstanceId, inst: Instance)
    requires OnlyAddresses(w, i, inst)
    ensures Ending(w, i, inst)
  {
  }

  lemma AddressIsOwn(w: World, i: InstanceId)
    requires Safe(w) && i in w.instances && LiveInstance(w.instances[i]) && w.instances[i].address.Some?
    ensures var a := w.instances[i].address.value; a in w.addresses ==> w.addresses[a] == i
  {
    hide Safe;
    SafeInstance(w, i);
  }

  /** Removing the VM, if there is one and it is the instance's, the seed image and every
      address. Nothing of anybody else is touched, and only trouble can prevent it. A seed
      image is left behind exactly if there was one that had not been recorded. Volumes are
      freed only with their instance's VM, and every other row is left to others. */
  method TerminateInstance(c: Cloud, i: InstanceId, inst: Instance) returns (r: Outcome)
    requires c.Valid() && Ending(c.Now(), i, inst)
    modifies c
    ensures Extends(old(c.Past()), c.Past())
    ensures c.Valid() && Ending(c.Now(), i, inst) && OthersSpared(old(c.Now()), c.Now(), i)
    ensures if HasVm(old(c.Now()), i) then AllReturned(old(c.Now()), c.Now(), i, r.Ok?)
            else RowsFollow(old(c.Now()), c.Now())
    ensures r.Ok? ==> NothingLeft(c.Now(), i) && (i in c.seeds <==> i in old(c.seeds) && !inst.seed)
    ensures Accounted(old(c.trouble), old(c.unrecorded), c, r)
    ensures c.trouble == old(c.trouble) ==> r.Ok?
  {
    hide Extends, Safe, Run, Rely, HasVm, Names, NothingLeft, Follows, OnlyAddresses, RowsFollow, AllReturned;
    Extending();
    RowsGoOn();
    ghost var w0 := c.Now();
    r := TakeDownListed(c, i, inst);
    SparedSoFar(w0, c.Now(), i, inst);
    if !r.Ok? {
      return r;
    }
    ghost var w := c.Now();
    r := ReleaseRest(c, i, inst);
    SparedToo(w0, w, c.Now(), i);
    if HasVm(w0, i) {
      AllReturnedOn(w0, w, c.Now(), i, true);
      AllOrNot(w0, c.Now(), i);
    }
  }

  lemma SparedSoFar(w: World, w': World, i: InstanceId, inst: Instance)
    requires Ending(w, i, inst) && if HasVm(w, i) then KeptBut(w, w', inst.vmid.value) else Kept(w, w')
    ensures OthersSpared(w, w', i) && w'.seeds == w.seeds
  {
  }

  lemma SparedToo(w0: World, w: World, w': World, i: InstanceId)
    requires i in w0.instances && OthersSpared(w0, w, i) && w'.vms == w.vms
    requires OnlyReleased(w, w', i) && w'.seeds - {i} == w.seeds - {i}
    ensures OthersSpared(w0, w', i)
  {
  }

  /** The part that sees to the VM, if the pool has one of that number. */
  method TakeDownListed(c: Cloud, i: InstanceId, inst: Instance) returns (r: Outcome)
    requires c.Valid() && Ending(c.Now(), i, inst)
    modifies c
    ensures Extends(old(c.Past()), c.Past())
    ensures c.Valid() && Ending(c.Now(), i, inst)
    ensures if HasVm(old(c.Now()), i) then KeptBut(old(c.Now()), c.Now(), inst.vmid.value)
            else Kept(old(c.Now()), c.Now())
    ensures if HasVm(old(c.Now()), i) then AllReturned(old(c.Now()), c.Now(), i, r.Ok?)
            else RowsFollow(old(c.Now()), c.Now())
    ensures r.Ok? ==> OnlyAddresses(c.Now(), i, inst)
    ensures Accounted(old(c.trouble), old(c.unrecorded), c, r)
    ensures c.trouble == old(c.trouble) ==> r.Ok?
  {
    hide Extends, Safe, Run, Rely, HasVm, Names, Follows, OnlyAddresses, RowsFollow, AllReturned;
    Extending();
    RowsGoOn();
    ghost var w0 := c.Now();
    PauseEnding(c, i, inst);
    NothingReturned(w0, c.Now(), i);
    var listed;
    listed, r := c.ListVms();
    if !r.Ok? {
      return r;
    }
    if inst.vmid.value in listed {
      ghost var w := c.Now();
      r := TakeDownOwned(c, i, inst);
      if HasVm(w0, i) {
        ReturnedLater(w0, w, c.Now(), i, r.Ok?);
      }
    } else {
      UnlistedUnowned(c.Now(), i, inst);
      UnownedLeft(c.Now(), i, inst);
    }
  }

  /** What there is besides the VM. */
  method ReleaseRest(c: Cloud, i: InstanceId, inst: Instance) returns (r: Outcome)
    requires c.Valid() && OnlyAddresses(c.Now(), i, inst)
    modifies c
    ensures Extends(old(c.Past()), c.Past())
    ensures c.Valid() && Ending(c.Now(), i, inst) && c.vms == old(c.vms)
    ensures RowsFollow(old(c.Now()), c.Now())
    ensures OnlyReleased(old(c.Now()), c.Now(), i) && c.seeds - {i} == old(c.seeds) - {i}
    ensures r.Ok? ==> NothingLeft(c.Now(), i) && (i in c.seeds <==> i in old(c.seeds) && !inst.seed)
    ensures Managed(old(c.trouble), old(c.unrecorded), c, r, true)
  {
    hide Extends, Safe, Run, Rely, HasVm, Names, NothingLeft, Follows, OnlyAddresses, RowsFollow;
    Extending();
    RowsGoOn();
    r := ReleaseSeed(c, i, inst);
    EndsWithAddresses(c.Now(), i, inst);
    if r.Ok? {
      r := ReleaseAddresses(c, i, inst);
    }
  }

  /** The VM on the instance's VMID is taken down if it is the instance's, and is never
      touched otherwise. */
  method TakeDownOwned(c: Cloud, i: InstanceId, inst: Instance) returns (r: Outcome)
    requires c.Valid() && Ending(c.Now(), i, inst) && inst.vmid.value in c.vms
    modifies c
    ensures Extends(old(c.Past()), c.Past())
    ensures c.Valid() && Ending(c.Now(), i, inst)
    ensures if HasVm(old(c.Now()), i) then KeptBut(old(c.Now()), c.Now(), inst.vmid.value)
            else Kept(old(c.Now()), c.Now())
    ensures if HasVm(old(c.Now()), i) then AllReturned(old(c.Now()), c.Now(), i, r.Ok?)
            else RowsFollow(old(c.Now()), c.Now())
    ensures r.Ok? ==> OnlyAddresses(c.Now(), i, inst)
    ensures Accounted(old(c.trouble), old(c.unrecorded), c, r)
    ensures c.trouble == old(c.trouble) ==> r.Ok?
  {
    hide Extends, Safe, Run, Rely, Names, Follows, OnlyAddresses, RowsFollow, AllReturned;
    Extending();
    ghost var w0 := c.Now();
    PauseEnding(c, i, inst);
    NothingReturned(w0, c.Now(), i);
    var owned;
    owned, r := OwnedVm(c, inst.vmid.value, i, inst);
    if !r.Ok? {
      return r;
    }
    if owned {
      ghost var w := c.Now();
      r := TakeDownVm(c, i, inst);
      ReturnedLater(w0, w, c.Now(), i, r.Ok?);
    } else {
      UnownedLeft(c.Now(), i, inst);
    }
  }

  lemma NothingLeftKeeps(w: World, w': World, i: InstanceId, inst: Instance)
    requires NothingLeft(w, i) && w'.vms == w.vms && w'.addresses == w.addresses && w'.seeds == w.seeds
    requires Ending(w, i, inst) && Ending(w', i, inst) && forall b :: Names(w', b, i) ==> Names(w, b, i)
    ensures NothingLeft(w', i)
  {
  }
}
