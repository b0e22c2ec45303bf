/** Things that do happen, each shown by the service's own calls from an unused cloud: the
    exceptions that the theorems make are needed. */
module Scenario {
  import opened Types
  import opened Rows
  import opened CloudState
  import opened DiskLemmas
  import opened RowLemmas
  import opened InstanceLemmas
  import opened Quotas
  import opened History
  import opened VolumeRequests
  import opened InstanceRequests
  import opened Reachability
  import opened Theorems

  const OWNER: AccountId := 7
  const HOLDER: VmId := 100
  const VM: VmId := 200

  function SiteWith(volumeGiB: nat): Site {
    Site(HOLDER, {}, 200, 299, {}, {SSD}, 1, Limits(0, 0, 0, 0, 0, volumeGiB, 0, 1, 100))
  }

  /** Nothing but other people's VMs, and nobody looking at any. */
  function Start(volumeGiB: nat, vms: map<VmId, Owner>): Scene {
    Scene(World(SiteWith(volumeGiB), map[], map[], {}, vms, map[], map[], {}, map[]), multiset{})
  }

  lemma StartsUnspoilt(volumeGiB: nat, vms: map<VmId, Owner>)
    requires forall m :: m in vms ==> vms[m] == ForeignVm
    ensures Unspoilt(Start(volumeGiB, vms)) && Leads(Start(volumeGiB, vms), Start(volumeGiB, vms))
  {
    hide Leads, May, After;
    LeadsSelf(Start(volumeGiB, vms));
  }

  // ----------------------------------------- a volume at home, a VM adopted

  const ADOPTED := AdoptedInstance(OWNER, VM, true, 1, 1, 1)

  const ASKED := FreshVolume(OWNER, None, 0, SSD, 5)

  function Place(m: VmId, key: Key, name: DiskName): Location {
    Location(Some(m), Some(key), Some(name), None, None)
  }

  function Way(key: Key): Location { Location(None, None, None, Some(HOLDER), Some(key)) }

  const IDLE := FinishVolumeAction(ASKED.(loc := Place(HOLDER, Unused(0), 1)), Create)

  /** The VM is there and adopted, and the volume is available on the holder. */
  function Prepared(): World {
    World(SiteWith(0), map[1 := IDLE], map[1 := ADOPTED], {}, map[VM := ForeignVm, HOLDER := HolderVm],
          map[Slot(HOLDER, Unused(0)) := Disk(1, 1, 5)], map[], {}, map[1 := 1])
  }

  lemma NothingAsked(w: World, inst: Instance)
    requires w.site == SiteWith(0)
    ensures InstanceAllowed(w.site.limits, w.volumes, w.instances, inst)
    ensures VolumeAllowed(w.site.limits, w.volumes, w.instances, inst.account, 1, 5)
  {
  }

  /** The same before the volume has a disk. */
  function Started(): World {
    World(SiteWith(0), map[1 := ASKED.(loc := Way(Scsi(0)))], map[1 := ADOPTED], {},
          map[VM := ForeignVm, HOLDER := HolderVm], map[], map[], {}, map[])
  }

  const BEGIN := Start(0, map[VM := ForeignVm])

  /** Two adoptions have looked at the VM and the first has been recorded. */
  const LOOKED := Scene(SetInstance(BEGIN.world, 1, ADOPTED), multiset{VM})

  lemma LooksTwice()
    ensures Unspoilt(BEGIN) && Leads(BEGIN, LOOKED) && HasVm(LOOKED.world, 1)
  {
    hide Leads, InstanceAllowed;
    StartsUnspoilt(0, map[VM := ForeignVm]);
    LookLeads(BEGIN, BEGIN, VM, multiset{VM});
    var s := Scene(BEGIN.world, multiset{VM});
    LookLeads(BEGIN, s, VM, multiset{VM, VM});
    s := Scene(BEGIN.world, multiset{VM, VM});
    NothingAsked(s.world, ADOPTED);
    AdoptLeads(BEGIN, s, 1, OWNER, VM, true, 1, 1, 1, LOOKED);
  }

  lemma FirstCalls()
    ensures Leads(LOOKED, Scene(Started(), multiset{VM}))
  {
    hide Leads, May, After, InstanceAllowed;
    var s, w := LOOKED, SetVolume(LOOKED.world, 1, ASKED);
    VolumeMay();
    LeadsSelf(s);
    AskVolumeLeads(s, s, 1, OWNER, 5, w);
    s := s.(world := w);
    w := AddVm(w, HOLDER, HolderVm, map[]);
    MakeHolderLeads(LOOKED, s, 1, w);
    AnnounceSlotLeads(LOOKED, s.(world := w), 1, 0, Started());
  }

  lemma VolumeMay()
    ensures MayAskVolume(LOOKED.world, 1, OWNER, 5)
  {
    hide VolumeAllowed, InstanceAllowed;
    NothingAsked(LOOKED.world, ADOPTED);
    assert LiveVolumeIds(LOOKED.world) == {};
  }

  lemma FirstVolume()
    ensures Leads(LOOKED, Scene(Prepared(), multiset{VM}))
  {
    hide Leads, May, After;
    FirstCalls();
    var s := Scene(Started(), multiset{VM});
    var w := AddDisk(s.world, Slot(HOLDER, Scsi(0)), Disk(1, 1, 5));
    MakeDiskLeads(LOOKED, s, 1, 1, 1, w);
    s := s.(world := w);
    w := SetVolume(w, 1, ASKED.(loc := Place(HOLDER, Scsi(0), 1))).(bound := map[1 := 1]);
    TakeDiskLeads(LOOKED, s, 1, w);
    s := s.(world := w);
    w := Rekey(w, Slot(HOLDER, Scsi(0)), Unused(0));
    UnplugLeads(LOOKED, s, 1, 0, w);
    s := s.(world := w);
    w := SetVolume(w, 1, ASKED.(loc := Place(HOLDER, Unused(0), 1)));
    NoteKeyLeads(LOOKED, s, 1, Unused(0), w);
    FinishVolumeLeads(LOOKED, s.(world := w), 1, Prepared());
  }

  // ------------------------------------------ in use, and unplugged by a terminate

  const WANTED := RequestAttach(IDLE, 1, 1)

  const PLUGGED := FinishVolumeAction(WANTED.(loc := Place(VM, Virtio(1), 2)), Attach)

  /** The volume is in use, plugged in under its device. */
  function Attached(): World {
    Prepared().(volumes := map[1 := PLUGGED], slots := map[Slot(VM, Virtio(1)) := Disk(2, 1, 5)])
  }

  /** The disk has arrived on the VM, which is not recorded yet. */
  function Carried(): World {
    var l := IDLE.loc.(moveVmid := Some(VM), moveKey := Some(Unused(0)));
    Prepared().(volumes := map[1 := WANTED.(loc := l)], slots := map[Slot(VM, Unused(0)) := Disk(2, 1, 5)])
  }

  lemma CarriesOver()
    ensures Leads(LOOKED, Scene(Carried(), multiset{VM}))
  {
    hide Leads, May, After;
    FirstVolume();
    var s := Scene(Prepared(), multiset{VM});
    var w := SetVolume(s.world, 1, WANTED);
    AskAttachLeads(LOOKED, s, 1, 1, 1, w);
    s := s.(world := w);
    w := SetVolume(w, 1, WANTED.(loc := IDLE.loc.(moveVmid := Some(VM), moveKey := Some(Unused(0)))));
    AnnounceMoveLeads(LOOKED, s, 1, VM, 0, w);
    MoveLeads(LOOKED, s.(world := w), 1, 2, Carried());
  }

  /** It is plugged in, which is not recorded yet. */
  function InPlace(): World {
    Prepared().(volumes := map[1 := WANTED.(loc := Place(VM, Unused(0), 2))],
                slots := map[Slot(VM, Virtio(1)) := Disk(2, 1, 5)])
  }

  lemma Plugs()
    ensures Leads(LOOKED, Scene(InPlace(), multiset{VM}))
  {
    hide Leads, May, After;
    CarriesOver();
    var s := Scene(Carried(), multiset{VM});
    var w := SetVolume(s.world, 1, WANTED.(loc := Place(VM, Unused(0), 2)));
    NoteArrivalLeads(LOOKED, s, 1, w);
    PlugInLeads(LOOKED, s.(world := w), 1, InPlace());
  }

  lemma Attaches()
    ensures Leads(LOOKED, Scene(Attached(), multiset{VM}))
  {
    hide Leads, May, After;
    Plugs();
    var s := Scene(InPlace(), multiset{VM});
    var w := SetVolume(s.world, 1, WANTED.(loc := Place(VM, Virtio(1), 2)));
    NoteKeyLeads(LOOKED, s, 1, Virtio(1), w);
    FinishVolumeLeads(LOOKED, s.(world := w), 1, Attached());
  }

  /** A terminate that has begun leaves a volume that is in use, with nothing pending,
      no longer plugged in under its device. */
  lemma TerminateInProgress() returns (before: Scene, after: Scene)
    ensures Reachable(before) && Leads(before, after)
    ensures var w, w' := before.world, after.world;
            && w'.volumes == w.volumes && w'.instances == w.instances && 1 in w.volumes
            && w.volumes[1].state.InUse? && w.volumes[1].pending.None?
            && AtDevice(w, w.volumes[1]) && !AtDevice(w', w.volumes[1])
  {
    hide Leads, May, After;
    Attaches();
    LooksTwice();
    var w := SetInstance(Attached(), 1, SetAction(ADOPTED, ShuttingDown, Terminate));
    before := Scene(w, multiset{VM});
    AskTerminateLeads(LOOKED, Scene(Attached(), multiset{VM}), 1, w);
    LeadsTrans(BEGIN, LOOKED, before);
    LeadsSelf(before);
    UnplugLeads(before, before, 1, 0, Rekey(w, Slot(VM, Virtio(1)), Unused(0)));
    after := Scene(Rekey(w, Slot(VM, Virtio(1)), Unused(0)), multiset{VM});
  }

  // --------------------------------------------------- adopted without its VM

  /** The volume names the instance, which is terminated. */
  predicate LeftNaming(w: World, i: InstanceId, id: VolumeId) {
    && i in w.instances && w.instances[i].state.Terminated?
    && id in w.volumes && w.volumes[id].instance == Some(i)
  }

  /** An adopted instance that has no VM: an idle volume of its account can be attached to
      it and is left naming it once it is terminated, by calls that go on from there. */
  lemma BodilessLeavesNames(s: Scene, i: InstanceId, id: VolumeId, device: nat) returns (s': Scene)
    requires Safe(s.world) && Attachable(s.world, id, i) && s.world.instances[i].adopted && !HasVm(s.world, i)
    requires 1 <= device <= LAST_DEVICE && !DeviceTaken(s.world, i, device)
    ensures Leads(s, s') && LeftNaming(s'.world, i, id)
  {
    hide Leads, Safe, DeviceTaken, NothingLeft;
    var w := s.world;
    SafeInstance(w, i);
    LeadsSelf(s);
    s' := s.(world := SetVolume(w, id, RequestAttach(w.volumes[id], i, device)));
    AskAttachLeads(s, s, id, i, device, s'.world);
    SafeAfter(s, AsksAttach(id, i, device), s'.world);
    var w1 := SetInstance(s'.world, i, SetAction(w.instances[i], ShuttingDown, Terminate));
    AskTerminateLeads(s, s', i, w1);
    SafeAfter(s', AsksTerminate(i), w1);
    s' := LosesAddress(s, s'.(world := w1), i);
    BodilessHasNothing(s'.world, i);
    w1 := SetInstance(s'.world, i, FinishAction(s'.world.instances[i], Terminate, Terminated));
    EndTerminateLeads(s, s', i, w1);
    s' := s'.(world := w1);
  }

  lemma SafeAfter(s: Scene, d: Deed, w': World)
    requires Safe(s.world) && May(s, d) && w' == After(s, d)
    ensures Safe(w')
  {
    hide Safe, May, After;
    OneCallIsStep(s, d);
  }

  /** Its address, if it has any, is released first. */
  lemma LosesAddress(s0: Scene, s: Scene, i: InstanceId) returns (s': Scene)
    requires Leads(s0, s) && Safe(s.world) && BeingTerminated(s.world, Some(i))
    ensures Leads(s0, s') && Safe(s'.world) && s'.world == s.world.(addresses := s'.world.addresses)
    ensures forall a :: a in s'.world.addresses ==> s'.world.addresses[a] != i
  {
    hide Leads, Safe;
    s' := s;
    if a :| a in s.world.addresses && s.world.addresses[a] == i {
      s' := s.(world := s.world.(addresses := s.world.addresses - {a}));
      ReleaseAddressLeads(s0, s, i, a, s'.world);
      SafeAfter(s, ReleasesAddress(i, a), s'.world);
      OneAddress(s.world, i, a);
    }
  }

  lemma OneAddress(w: World, i: InstanceId, a: AddressId)
    requires Safe(w) && a in w.addresses && w.addresses[a] == i
    ensures forall b :: b in w.addresses && w.addresses[b] == i ==> b == a
  {
    hide HypervisorOK, HolderSlotsOK, VolumesOK, InstanceOK;
  }

  lemma BodilessHasNothing(w: World, i: InstanceId)
    requires Safe(w) && i in w.instances && LiveInstance(w.instances[i]) && w.instances[i].adopted
    requires !HasVm(w, i) && forall a :: a in w.addresses ==> w.addresses[a] != i
    ensures NothingLeft(w, i)
  {
    hide VolumesOK, HolderSlotsOK, HypervisorOK;
    SafeInstance(w, i);
  }

  /** So exactly the adopted instances without a VM can leave a volume naming them. */
  lemma NamesLeftIff(s: Scene, i: InstanceId, id: VolumeId, device: nat)
    requires Safe(s.world) && WithinLimits(s.world)
    requires Attachable(s.world, id, i) && s.world.instances[i].adopted
    requires 1 <= device <= LAST_DEVICE && !DeviceTaken(s.world, i, device)
    ensures !HasVm(s.world, i) <==> exists s' :: Leads(s, s') && LeftNaming(s'.world, i, id)
  {
    hide Leads, Safe, WithinLimits, DeviceTaken, HasVm, Run;
    if !HasVm(s.world, i) {
      var s' := BodilessLeavesNames(s, i, id, device);
    } else if s' :| Leads(s, s') && LeftNaming(s'.world, i, id) {
      var ws, es := LeadsSafely(s, s');
      RunIsLong(ws, es);
      AdoptedLeavesNoNames(ws, es, 0, |ws| - 1, i);
      assert id in VolumesNaming(s'.world, i);
    }
  }

  lemma RunIsLong(ws: seq<World>, es: seq<Event>)
    requires Run(ws, es)
    ensures |ws| > 0
  {
    hide Safe;
  }

  const TERMINATED := FinishAction(SetAction(ADOPTED, ShuttingDown, Terminate), Terminate, Terminated)

  /** The VM has gone with the first adoption's instance; the second is not committed yet. */
  function Vanished(): World {
    Prepared().(instances := map[1 := TERMINATED], vms := map[HOLDER := HolderVm])
  }

  lemma FirstGoes()
    ensures Leads(LOOKED, Scene(Vanished(), multiset{VM}))
  {
    hide Leads, May, After;
    FirstVolume();
    var s := Scene(Prepared(), multiset{VM});
    var w := SetInstance(s.world, 1, SetAction(ADOPTED, ShuttingDown, Terminate));
    AskTerminateLeads(LOOKED, s, 1, w);
    s := s.(world := w);
    w := RemoveVm(w, VM);
    DeleteVmLeads(LOOKED, s, 1, w);
    EndTerminateLeads(LOOKED, s.(world := w), 1, Vanished());
  }

  /** Two adoptions of one VM look at it at the same time. The first commits, its
      instance is terminated and the VM deleted with it; then the second commits. Its
      instance is live without a VM, and goes on to leave a volume that names it. */
  lemma AdoptedTwice() returns (live: Scene, dead: Scene)
    ensures Unspoilt(BEGIN) && Leads(BEGIN, LOOKED) && HasVm(LOOKED.world, 1) && Leads(LOOKED, live)
    ensures 2 in live.world.instances && Established(live.world.instances[2]) && !HasVm(live.world, 2)
    ensures Leads(live, dead) && LeftNaming(dead.world, 2, 1)
  {
    hide Leads, Safe, InstanceAllowed;
    LooksTwice();
    FirstGoes();
    var s := Scene(Vanished(), multiset{VM});
    NothingAsked(s.world, ADOPTED);
    live := Scene(SetInstance(Vanished(), 2, ADOPTED), multiset{});
    AdoptLeads(LOOKED, s, 2, OWNER, VM, true, 1, 1, 1, live);
    LeadsTrans(BEGIN, LOOKED, live);
    ReachedIsSafe(BEGIN, live);
    dead := BodilessLeavesNames(live, 2, 1, 1);
  }

  lemma ReachedIsSafe(s0: Scene, s: Scene)
    requires Unspoilt(s0) && Leads(s0, s)
    ensures Reachable(s) && Safe(s.world)
  {
    hide Leads, Safe;
    var _, _ := ReachableIsSafe(s);
  }

  // ----------------------------------------------------- a seed image forgotten

  const LAUNCHED := FreshInstance(OWNER, None, 0, 1, 1, 1, VM)

  const GIVEN := RecordResources(LAUNCHED, Some(VM), false, Some(0), false)

  /** The instance's address is recorded and its seed image uploaded, and then the worker died. */
  function Uploaded(): Scene {
    Scene(World(SiteWith(0), map[], map[1 := GIVEN], {}, map[], map[], map[0 := 1], {1}, map[]), multiset{})
  }

  lemma UploadsSeed()
    ensures Unspoilt(Start(0, map[])) && Leads(Start(0, map[]), Uploaded())
  {
    hide Leads, InstanceAllowed, VolumeAllowed;
    StartsUnspoilt(0, map[]);
    var s0 := Start(0, map[]);
    var s, w := s0, SetInstance(s0.world, 1, LAUNCHED);
    NothingAsked(s.world, LAUNCHED);
    LaunchLeads(s0, s, 1, OWNER, 1, 1, 1, VM, w);
    s := s.(world := w);
    w := w.(addresses := map[0 := 1]);
    TakeAddressLeads(s0, s, 1, 0, w);
    s := s.(world := w);
    w := SetInstance(w, 1, GIVEN);
    NoteAddressLeads(s0, s, 1, 0, w);
    UploadImageLeads(s0, s.(world := w), 1, Uploaded().world);
  }

  /** A terminate requested before the next attempt leaves the seed image behind for good. */
  lemma SeedLeftBehind() returns (s: Scene)
    ensures Reachable(Uploaded()) && GIVEN.pending == Some(Launch) && !GIVEN.seed && Leads(Uploaded(), s)
    ensures 1 in s.world.instances && s.world.instances[1].state.Terminated? && 1 in s.world.seeds
  {
    hide Leads, May, After;
    UploadsSeed();
    s := Uploaded();
    LeadsSelf(s);
    var w := SetInstance(s.world, 1, SetAction(GIVEN, ShuttingDown, Terminate));
    AskTerminateLeads(Uploaded(), s, 1, w);
    s := s.(world := w);
    w := w.(addresses := w.addresses - {0});
    ReleaseAddressLeads(Uploaded(), s, 1, 0, w);
    s := s.(world := w);
    w := SetInstance(w, 1, FinishAction(w.instances[1], Terminate, Terminated));
    EndTerminateLeads(Uploaded(), s, 1, w);
    s := s.(world := w);
  }

  // ------------------------------------------------ two creates, one slot

  const SMALL := FreshVolume(OWNER, None, 0, SSD, 5)
  const LARGE := FreshVolume(OWNER, None, 0, SSD, 10)

  function Shared(volumes: map<VolumeId, Volume>, slots: map<Slot, Disk>, bound: map<VolumeId, DiskIdent>): Scene {
    Scene(World(SiteWith(17), volumes, map[], {}, map[HOLDER := HolderVm], slots, map[], {}, bound), multiset{})
  }

  lemma TwoHold(volumes: map<VolumeId, Volume>)
    requires forall id :: id in volumes ==>
               (id == 1 || id == 2) && LiveVolume(volumes[id]) && volumes[id].account == OWNER
    ensures Usage(volumes, map[], Some(OWNER), VolumeGiB)
         == (if 1 in volumes then volumes[1].size else 0) + (if 2 in volumes then volumes[2].size else 0)
  {
    var sizes := VolumeHoldings(volumes, Some(OWNER), VolumeGiB);
    assert sizes.Keys == volumes.Keys;
    assert InstanceHoldings(map[], Some(OWNER), VolumeGiB) == map[];
    var rest := sizes - {1};
    if 1 in volumes {
      SumSplit(sizes, 1);
    } else {
      assert rest == sizes;
    }
    if 2 in volumes {
      SumSplit(rest, 2);
      assert rest - {2} == map[];
    } else {
      assert rest == map[];
    }
  }

  lemma TwoLive(w: World)
    requires w.volumes.Keys <= {1, 2}
    ensures |LiveVolumeIds(w)| < HOLDER_SLOTS
  {
    SubsetSmaller(LiveVolumeIds(w), {1, 2});
  }

  const BOTH := Shared(map[1 := SMALL, 2 := LARGE], map[], map[])

  lemma AskAlike()
    ensures Unspoilt(Start(17, map[])) && Leads(Start(17, map[]), BOTH)
  {
    hide Leads, Usage;
    StartsUnspoilt(17, map[]);
    var s0 := Start(17, map[]);
    var s, w := s0, SetVolume(s0.world, 1, SMALL);
    TwoHold(s.world.volumes);
    TwoLive(s.world);
    AskVolumeLeads(s0, s, 1, OWNER, 5, w);
    s := s.(world := w);
    w := SetVolume(w, 2, LARGE);
    TwoHold(s.world.volumes);
    TwoLive(s.world);
    AskVolumeLeads(s0, s, 2, OWNER, 10, w);
    MakeHolderLeads(s0, s.(world := w), 1, BOTH.world);
  }

  /** Both creates have announced slot 0 and neither has made its disk. */
  const ANNOUNCED := Shared(map[1 := SMALL.(loc := Way(Scsi(0))), 2 := LARGE.(loc := Way(Scsi(0)))], map[], map[])

  lemma AnnounceAlike()
    ensures Leads(BOTH, ANNOUNCED)
  {
    hide Leads, May, After;
    LeadsSelf(BOTH);
    var w := SetVolume(BOTH.world, 1, SMALL.(loc := Way(Scsi(0))));
    AnnounceSlotLeads(BOTH, BOTH, 1, 0, w);
    AnnounceSlotLeads(BOTH, BOTH.(world := w), 2, 0, ANNOUNCED.world);
  }

  const TAKEN := FinishVolumeAction(SMALL.(loc := Place(HOLDER, Unused(0), 1)), Create)

  /** The smaller create was resumed first and has taken the disk. */
  function Mistaken(v: Volume): Scene {
    Shared(map[1 := v, 2 := LARGE.(loc := Way(Scsi(0)))], map[Slot(HOLDER, Unused(0)) := Disk(1, 1, 10)], map[1 := 1])
  }

  /** The same with the disk still where it was made. */
  const WRONG := Shared(map[1 := SMALL.(loc := Place(HOLDER, Scsi(0), 1)), 2 := LARGE.(loc := Way(Scsi(0)))],
                        map[Slot(HOLDER, Scsi(0)) := Disk(1, 1, 10)], map[1 := 1])

  lemma TakesWrongDisk()
    ensures Leads(ANNOUNCED, WRONG)
  {
    hide Leads, May, After;
    LeadsSelf(ANNOUNCED);
    var w := AddDisk(ANNOUNCED.world, Slot(HOLDER, Scsi(0)), Disk(1, 1, 10));
    MakeDiskLeads(ANNOUNCED, ANNOUNCED, 2, 1, 1, w);
    TakeDiskLeads(ANNOUNCED, ANNOUNCED.(world := w), 1, WRONG.world);
  }

  lemma TakesWrongly()
    ensures Leads(ANNOUNCED, Mistaken(TAKEN))
  {
    hide Leads, May, After;
    TakesWrongDisk();
    var s, w := WRONG, Rekey(WRONG.world, Slot(HOLDER, Scsi(0)), Unused(0));
    UnplugLeads(ANNOUNCED, s, 1, 0, w);
    s := s.(world := w);
    w := SetVolume(w, 1, SMALL.(loc := Place(HOLDER, Unused(0), 1)));
    NoteKeyLeads(ANNOUNCED, s, 1, Unused(0), w);
    FinishVolumeLeads(ANNOUNCED, s.(world := w), 1, Mistaken(TAKEN).world);
  }

  /** From where two creates have announced one slot and neither has a disk, an idle volume
      can come to have a disk of another size than its row says. */
  lemma SharedSlot()
    ensures Reachable(ANNOUNCED) && Leads(ANNOUNCED, Mistaken(TAKEN))
    ensures TAKEN.state.Available? && TAKEN.pending.None? && TAKEN.size == 5
    ensures AtSlot(Mistaken(TAKEN).world, TAKEN.loc)
    ensures Mistaken(TAKEN).world.slots[Slot(HOLDER, Unused(0))].size == 10
  {
    hide Leads, May, After, Unspoilt;
    AskAlike();
    AnnounceAlike();
    LeadsTrans(Start(17, map[]), BOTH, ANNOUNCED);
    TakesWrongly();
  }

  /** And giving up a resize of it, within every limit when it was asked for, takes the
      account over the one on GiB. */
  lemma OverTheLimit() returns (asked: Scene, s: Scene)
    ensures Reachable(asked) && Leads(asked, s) && s.world.site.limits.volumeGiB == 17
    ensures Held(asked.world, OWNER, VolumeGiB) == 17 && Held(s.world, OWNER, VolumeGiB) == 20
  {
    hide Leads, May, After, Usage, Reachable;
    AsksForMore();
    asked := Mistaken(RequestResize(TAKEN, 7));
    TwoHold(asked.world.volumes);
    LeadsSelf(asked);
    var w := SetVolume(asked.world, 1, GiveUpResize(asked.world.volumes[1], 10));
    assert asked.world.slots[Slot(HOLDER, Unused(0))].ident == asked.world.bound[1];
    GiveUpGrowthLeads(asked, asked, 1, 10, w);
    s := asked.(world := w);
    TwoHold(w.volumes);
  }

  lemma AsksForMore()
    ensures Reachable(Mistaken(RequestResize(TAKEN, 7)))
  {
    hide Leads, May, After, Usage, Reachable;
    SharedSlot();
    var s, s' := Mistaken(TAKEN), Mistaken(RequestResize(TAKEN, 7));
    TwoHold(s.world.volumes);
    AskGrowthLeads(ANNOUNCED, s, 1, 7, s'.world);
    ReachesOn(ANNOUNCED, s');
  }

  lemma ReachesOn(s: Scene, s': Scene)
    requires Reachable(s) && Leads(s, s')
    ensures Reachable(s')
  {
    hide Leads, Unspoilt;
    var s0 :| Unspoilt(s0) && Leads(s0, s);
    LeadsTrans(s0, s, s');
  }
}
