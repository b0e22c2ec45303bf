/** Which states a cloud can be led to by the service's own calls: what each call is, when
    it may be the next, and what it does. Every such call is a legal step of a run. */
module Reachability {
  import opened Types
  import opened Rows
  import opened CloudState
  import opened DiskLemmas
  import opened RowLemmas
  import opened InstanceLemmas
  import opened Quotas
  import opened History
  import opened Backends
  import opened Progress
  import opened Steps
  import opened VolumeRequests
  import opened InstanceRequests
  import opened DiskSteps
  import opened VolumeWorker
  import opened InstanceWorker
  import opened Processing

  /** A cloud, and the adoptions that have looked at a VM and are not committed yet. */
  datatype Scene = Scene(world: World, looks: multiset<VmId>)

  datatype Deed =
    // requests, each with its checks passed
    | LooksAt(vm: VmId)
    | Adopts(i: InstanceId, account: AccountId, vm: VmId, running: bool, vcpus: nat, memory: nat, rootDisk: nat)
    | Launches(i: InstanceId, account: AccountId, vcpus: nat, memory: nat, rootDisk: nat, vm: VmId)
    | AsksVolume(id: VolumeId, account: AccountId, size: nat)
    | AsksAttach(id: VolumeId, i: InstanceId, device: nat)
    | AsksGrowth(id: VolumeId, size: nat)
    | AsksTerminate(i: InstanceId)
    // the worker's calls for a volume
    | MakesHolder(id: VolumeId)
    | AnnouncesSlot(id: VolumeId, n: nat)
    | MakesDisk(id: VolumeId, name: DiskName, ident: DiskIdent)
    | TakesDisk(id: VolumeId)
    | Unplugs(id: VolumeId, n: nat)
    | PlugsIn(id: VolumeId)
    | NotesKey(id: VolumeId, key: Key)
    | AnnouncesMove(id: VolumeId, vm: VmId, n: nat)
    | Moves(id: VolumeId, name: DiskName)
    | NotesArrival(id: VolumeId)
    | FinishesVolume(id: VolumeId)
    | GivesUpGrowth(id: VolumeId, actual: nat)
    // the worker's calls for an instance
    | TakesAddress(i: InstanceId, a: AddressId)
    | NotesAddress(i: InstanceId, a: AddressId)
    | UploadsImage(i: InstanceId)
    | DeletesVm(i: InstanceId)
    | ReleasesAddress(i: InstanceId, a: AddressId)
    | EndsTerminate(i: InstanceId)

  // --------------------------------------------------------------- when and what

  /** The worker has this volume in hand: for its own action, or for a terminate. */
  ghost predicate InHand(w: World, id: VolumeId) {
    && LiveRow(w, id)
    && (w.volumes[id].pending.Some? || BeingTerminated(w, w.volumes[id].instance))
  }

  predicate BeingTerminated(w: World, i: Option<InstanceId>) {
    i.Some? && i.value in w.instances && LiveInstance(w.instances[i.value])
    && w.instances[i.value].pending == Some(Terminate)
  }

  ghost predicate Pending(w: World, id: VolumeId, action: VolumeAction) {
    LiveRow(w, id) && w.volumes[id].pending == Some(action)
  }

  predicate Launching(w: World, i: InstanceId) {
    && i in w.instances && LiveInstance(w.instances[i]) && !w.instances[i].adopted
    && w.instances[i].pending == Some(Launch)
  }

  /** The first of the numbered keys the VM does not have, up to a last one. */
  predicate FirstFree(w: World, m: VmId, numbered: nat -> Key, n: nat, last: nat) {
    && n <= last && Slot(m, numbered(n)) !in w.slots
    && forall k: nat :: k < n ==> Slot(m, numbered(k)) in w.slots
  }

  ghost predicate MayLookAt(w: World, m: VmId) {
    && m > 0 && m != w.site.holder && m !in w.site.probes
    && m in w.vms && m !in w.site.outside && !VmidHeld(w, m)
  }

  ghost predicate MayAdopt(
    w: World, looks: multiset<VmId>, i: InstanceId, account: AccountId, m: VmId,
    running: bool, vcpus: nat, memory: nat, rootDisk: nat)
  {
    && m in looks && m != w.site.holder && m !in w.site.probes && m !in w.site.outside
    && i !in w.instances && !VmidHeld(w, m)
    && InstanceAllowed(w.site.limits, w.volumes, w.instances,
                       AdoptedInstance(account, m, running, vcpus, memory, rootDisk))
  }

  ghost predicate MayLaunch(
    w: World, i: InstanceId, account: AccountId, vcpus: nat, memory: nat, rootDisk: nat, m: VmId)
  {
    && i !in w.instances && VmidOpen(w, w.vms.Keys - w.site.outside, m)
    && InstanceAllowed(w.site.limits, w.volumes, w.instances,
                       FreshInstance(account, None, 0, vcpus, memory, rootDisk, m))
  }

  ghost predicate MayAskVolume(w: World, id: VolumeId, account: AccountId, size: nat) {
    && id !in w.volumes && SSD in w.site.tiers && w.site.limits.volumeMin <= size <= w.site.limits.volumeMax
    && |LiveVolumeIds(w)| < HOLDER_SLOTS
    && VolumeAllowed(w.site.limits, w.volumes, w.instances, account, 1, size)
  }

  ghost predicate MayAskAttach(w: World, id: VolumeId, i: InstanceId, device: nat) {
    Attachable(w, id, i) && 1 <= device <= LAST_DEVICE && !DeviceTaken(w, i, device)
  }

  ghost predicate MayAskGrowth(w: World, id: VolumeId, size: nat) {
    MayGrow(w, id, size)
  }

  ghost predicate MayAskTerminate(w: World, i: InstanceId) {
    i in w.instances && LiveInstance(w.instances[i]) && w.instances[i].pending != Some(Terminate)
  }

  ghost predicate MayMakeHolder(w: World, id: VolumeId) {
    Pending(w, id, Create) && w.site.holder !in w.vms
  }

  ghost predicate MayAnnounceSlot(w: World, id: VolumeId, n: nat) {
    && Pending(w, id, Create) && w.volumes[id].loc.name.None? && IntentSpent(w, w.volumes[id].loc)
    && HolderReady(w) && FirstFree(w, w.site.holder, (k: nat) => Scsi(k), n, LAST_SCSI)
    && w.volumes[id].tier in w.site.tiers
  }

  ghost predicate MayMakeDisk(w: World, id: VolumeId, name: DiskName, ident: DiskIdent) {
    && Pending(w, id, Create) && w.volumes[id].loc.name.None? && w.volumes[id].loc.moveKey.Some?
    && HolderReady(w) && Slot(w.site.holder, w.volumes[id].loc.moveKey.value) !in w.slots
    && FreshName(w, name) && FreshIdent(w, ident)
  }

  ghost predicate MayTakeDisk(w: World, id: VolumeId) {
    && Pending(w, id, Create) && w.volumes[id].loc.name.None? && w.volumes[id].loc.moveKey.Some?
    && var p := Slot(w.site.holder, w.volumes[id].loc.moveKey.value);
       p in w.slots && forall b :: LiveRow(w, b) && b != id ==> w.volumes[b].loc.name != Some(w.slots[p].name)
  }

  ghost predicate MayUnplug(w: World, id: VolumeId, n: nat) {
    && InHand(w, id) && Loose(w, id) && w.volumes[id].loc.moveVmid.None?
    && AtSlot(w, w.volumes[id].loc) && Plugged(w.volumes[id].loc.key.value)
    && Slot(w.volumes[id].loc.vmid.value, Unused(n)) !in w.slots
  }

  ghost predicate MayPlugIn(w: World, id: VolumeId) {
    && Pending(w, id, Attach) && w.volumes[id].loc.moveVmid.None? && w.volumes[id].device.Some?
    && AtSlot(w, w.volumes[id].loc) && w.volumes[id].loc.key.value.Unused?
    && w.volumes[id].instance.Some? && w.volumes[id].instance.value in w.instances
    && w.volumes[id].loc.vmid == w.instances[w.volumes[id].instance.value].vmid
    && Slot(w.volumes[id].loc.vmid.value, Virtio(w.volumes[id].device.value)) !in w.slots
  }

  ghost predicate MayNoteKey(w: World, id: VolumeId, key: Key) {
    InHand(w, id) && w.volumes[id].loc.vmid.Some? && AtSlot(w, w.volumes[id].loc.(key := Some(key)))
  }

  ghost predicate MayAnnounceMove(w: World, id: VolumeId, m: VmId, n: nat) {
    && InHand(w, id) && OnTheWay(w, id) && w.volumes[id].loc.moveVmid.None? && w.volumes[id].loc.vmid != Some(m)
    && AtSlot(w, w.volumes[id].loc) && w.volumes[id].loc.key.value.Unused?
    && (m == w.site.holder || Pending(w, id, Attach)) && PlaceAllowed(w, w.volumes[id], m)
    && FirstFree(w, m, (k: nat) => Unused(k), n, HOLDER_SLOTS - 1)
  }

  ghost predicate MayMove(w: World, id: VolumeId, name: DiskName) {
    && InHand(w, id) && AtSlot(w, w.volumes[id].loc)
    && w.volumes[id].loc.moveVmid.Some? && w.volumes[id].loc.moveKey.Some?
    && w.volumes[id].loc.moveVmid.value in w.vms && FreshName(w, name)
    && Slot(w.volumes[id].loc.moveVmid.value, w.volumes[id].loc.moveKey.value) !in w.slots
  }

  ghost predicate MayNoteArrival(w: World, id: VolumeId) {
    InHand(w, id) && id in w.bound && w.volumes[id].loc.name.Some? && Arrived(w, id, w.volumes[id].loc)
  }

  ghost predicate MayFinishVolume(w: World, id: VolumeId) {
    LiveRow(w, id) && w.volumes[id].pending.Some? && WorkDone(w, id, w.volumes[id].pending.value)
  }

  ghost predicate MayGiveUpGrowth(w: World, id: VolumeId, actual: nat) {
    && Pending(w, id, Resize) && w.volumes[id].attempts + 1 >= w.site.maxAttempts
    && (actual == w.volumes[id].size || OwnSize(w, id, actual))
  }

  ghost predicate MayTakeAddress(w: World, i: InstanceId, a: AddressId) {
    && Launching(w, i) && w.instances[i].address.None? && FreshAddress(w, a)
    && forall b :: b in w.addresses ==> w.addresses[b] != i
  }

  ghost predicate MayNoteAddress(w: World, i: InstanceId, a: AddressId) {
    Launching(w, i) && w.instances[i].address.None? && a in w.addresses && w.addresses[a] == i
  }

  ghost predicate MayUploadImage(w: World, i: InstanceId) {
    Launching(w, i) && w.instances[i].address.Some? && !w.instances[i].seed && i !in w.seeds
  }

  ghost predicate MayDeleteVm(w: World, i: InstanceId) {
    && BeingTerminated(w, Some(i)) && HasVm(w, i)
    && Unmentioned(w, w.instances[i].vmid.value) && forall b :: !Names(w, b, i)
  }

  ghost predicate MayReleaseAddress(w: World, i: InstanceId, a: AddressId) {
    BeingTerminated(w, Some(i)) && a in w.addresses && w.addresses[a] == i
  }

  ghost predicate MayEndTerminate(w: World, i: InstanceId) {
    BeingTerminated(w, Some(i)) && NothingLeft(w, i)
  }

  /** A call may be the next one: a request has passed its checks, the worker is at that
      point of an action it has in hand. */
  ghost predicate May(s: Scene, d: Deed) {
    match d
    case LooksAt(m) => MayLookAt(s.world, m)
    case Adopts(i, account, m, running, vcpus, memory, rootDisk) =>
      MayAdopt(s.world, s.looks, i, account, m, running, vcpus, memory, rootDisk)
    case Launches(i, account, vcpus, memory, rootDisk, m) =>
      MayLaunch(s.world, i, account, vcpus, memory, rootDisk, m)
    case AsksVolume(id, account, size) => MayAskVolume(s.world, id, account, size)
    case AsksAttach(id, i, device) => MayAskAttach(s.world, id, i, device)
    case AsksGrowth(id, size) => MayAskGrowth(s.world, id, size)
    case AsksTerminate(i) => MayAskTerminate(s.world, i)
    case MakesHolder(id) => MayMakeHolder(s.world, id)
    case AnnouncesSlot(id, n) => MayAnnounceSlot(s.world, id, n)
    case MakesDisk(id, name, ident) => MayMakeDisk(s.world, id, name, ident)
    case TakesDisk(id) => MayTakeDisk(s.world, id)
    case Unplugs(id, n) => MayUnplug(s.world, id, n)
    case PlugsIn(id) => MayPlugIn(s.world, id)
    case NotesKey(id, key) => MayNoteKey(s.world, id, key)
    case AnnouncesMove(id, m, n) => MayAnnounceMove(s.world, id, m, n)
    case Moves(id, name) => MayMove(s.world, id, name)
    case NotesArrival(id) => MayNoteArrival(s.world, id)
    case FinishesVolume(id) => MayFinishVolume(s.world, id)
    case GivesUpGrowth(id, actual) => MayGiveUpGrowth(s.world, id, actual)
    case TakesAddress(i, a) => MayTakeAddress(s.world, i, a)
    case NotesAddress(i, a) => MayNoteAddress(s.world, i, a)
    case UploadsImage(i) => MayUploadImage(s.world, i)
    case DeletesVm(i) => MayDeleteVm(s.world, i)
    case ReleasesAddress(i, a) => MayReleaseAddress(s.world, i, a)
    case EndsTerminate(i) => MayEndTerminate(s.world, i)
  }

  /** What the call does to the cloud. */
  ghost function After(s: Scene, d: Deed): World
    requires May(s, d)
  {
    var w := s.world;
    match d
    case LooksAt(_) => w
    case Adopts(i, account, m, running, vcpus, memory, rootDisk) =>
      SetInstance(w, i, AdoptedInstance(account, m, running, vcpus, memory, rootDisk))
    case Launches(i, account, vcpus, memory, rootDisk, m) =>
      SetInstance(w, i, FreshInstance(account, None, 0, vcpus, memory, rootDisk, m))
    case AsksVolume(id, account, size) => SetVolume(w, id, FreshVolume(account, None, 0, SSD, size))
    case AsksAttach(id, i, device) => SetVolume(w, id, RequestAttach(w.volumes[id], i, device))
    case AsksGrowth(id, size) => SetVolume(w, id, RequestResize(w.volumes[id], size))
    case AsksTerminate(i) => SetInstance(w, i, SetAction(w.instances[i], ShuttingDown, Terminate))
    case MakesHolder(_) => AddVm(w, w.site.holder, HolderVm, map[])
    case AnnouncesSlot(id, n) =>
      Placed(w, id, Location(None, None, None, Some(w.site.holder), Some(Scsi(n))))
    case MakesDisk(id, name, ident) =>
      AddDisk(w, Slot(w.site.holder, w.volumes[id].loc.moveKey.value), Disk(name, ident, w.volumes[id].size))
    case TakesDisk(id) =>
      var p := Slot(w.site.holder, w.volumes[id].loc.moveKey.value);
      Placed(w, id, Location(Some(p.vm), Some(p.key), Some(w.slots[p].name), None, None))
        .(bound := w.bound[id := w.slots[p].ident])
    case Unplugs(id, n) =>
      Rekey(w, Slot(w.volumes[id].loc.vmid.value, w.volumes[id].loc.key.value), Unused(n))
    case PlugsIn(id) =>
      Rekey(w, Slot(w.volumes[id].loc.vmid.value, w.volumes[id].loc.key.value), Virtio(w.volumes[id].device.value))
    case NotesKey(id, key) =>
      Placed(w, id, Location(w.volumes[id].loc.vmid, Some(key), w.volumes[id].loc.name, None, None))
    case AnnouncesMove(id, m, n) =>
      Placed(w, id, w.volumes[id].loc.(moveVmid := Some(m), moveKey := Some(Unused(n))))
    case Moves(id, name) =>
      var l := w.volumes[id].loc;
      MoveTo(w, Slot(l.vmid.value, l.key.value), Slot(l.moveVmid.value, l.moveKey.value), name)
    case NotesArrival(id) =>
      var l := w.volumes[id].loc;
      var name := w.slots[Slot(l.moveVmid.value, l.moveKey.value)].name;
      Placed(w, id, Location(l.moveVmid, l.moveKey, Some(name), None, None))
    case FinishesVolume(id) =>
      SetVolume(w, id, FinishVolumeAction(w.volumes[id], w.volumes[id].pending.value))
    case GivesUpGrowth(id, actual) => SetVolume(w, id, GiveUpResize(w.volumes[id], actual))
    case TakesAddress(i, a) => w.(addresses := w.addresses[a := i])
    case NotesAddress(i, a) =>
      var inst := w.instances[i];
      SetInstance(w, i, RecordResources(inst, inst.vmid, inst.vmCreated, Some(a), inst.seed))
    case UploadsImage(i) => w.(seeds := w.seeds + {i})
    case DeletesVm(i) => RemoveVm(w, w.instances[i].vmid.value)
    case ReleasesAddress(i, a) => w.(addresses := w.addresses - {a})
    case EndsTerminate(i) => SetInstance(w, i, FinishAction(w.instances[i], Terminate, Terminated))
  }

  function Placed(w: World, id: VolumeId, l: Location): World
    requires id in w.volumes
  {
    SetVolume(w, id, RecordLocation(w.volumes[id], l))
  }

  /** A look is remembered until the adoption it was for commits. */
  ghost function Done(s: Scene, d: Deed): Scene
    requires May(s, d)
  {
    Scene(After(s, d),
          if d.LooksAt? then s.looks + multiset{d.vm} else if d.Adopts? then s.looks - multiset{d.vm} else s.looks)
  }

  ghost function EventOf(s: Scene, d: Deed): Event
    requires May(s, d)
  {
    match d
    case FinishesVolume(id) => VolumeAttempt(id, s.world.volumes[id].pending.value, false)
    case GivesUpGrowth(id, _) => VolumeAttempt(id, Resize, true)
    case EndsTerminate(i) => InstanceAttempt(i, Terminate, false)
    case _ => Call
  }

  // ------------------------------------------------------- one call after another

  /** Each call leads from one scene to the next. */
  ghost predicate Path(h: seq<Scene>, ds: seq<Deed>) {
    && |h| == |ds| + 1
    && forall k :: 0 <= k < |ds| ==> OneCall(h[k], ds[k], h[k + 1])
  }

  ghost predicate OneCall(s: Scene, d: Deed, s': Scene) { May(s, d) && s' == Done(s, d) }

  ghost predicate PathFromTo(h: seq<Scene>, ds: seq<Deed>, s: Scene, s': Scene) {
    Path(h, ds) && h[0] == s && h[|h| - 1] == s'
  }

  /** Some calls lead from one scene to the other. */
  ghost predicate Leads(s: Scene, s': Scene) { exists h, ds :: PathFromTo(h, ds, s, s') }

  lemma LeadsSelf(s: Scene)
    ensures Leads(s, s)
  {
    assert PathFromTo([s], [], s, s);
  }

  lemma LeadsOn(s: Scene, s1: Scene, d: Deed)
    requires Leads(s, s1) && May(s1, d)
    ensures Leads(s, Done(s1, d))
  {
    hide May, Done;
    var h, ds :| PathFromTo(h, ds, s, s1);
    var h', ds' := h + [Done(s1, d)], ds + [d];
    forall k | 0 <= k < |ds'| ensures OneCall(h'[k], ds'[k], h'[k + 1]) {
      if k < |ds| {
        assert OneCall(h[k], ds[k], h[k + 1]);
      }
    }
    assert PathFromTo(h', ds', s, Done(s1, d));
  }

  lemma LeadsTrans(a: Scene, b: Scene, c: Scene)
    requires Leads(a, b) && Leads(b, c)
    ensures Leads(a, c)
  {
    hide May, Done;
    var h, ds :| PathFromTo(h, ds, a, b);
    var g, es :| PathFromTo(g, es, b, c);
    var h', ds' := h + g[1..], ds + es;
    forall k | 0 <= k < |ds'| ensures OneCall(h'[k], ds'[k], h'[k + 1]) {
      if k < |ds| {
        assert OneCall(h[k], ds[k], h[k + 1]);
      } else {
        assert OneCall(g[k - |ds|], es[k - |ds|], g[k - |ds| + 1]);
      }
    }
    assert PathFromTo(h', ds', a, c);
  }

  /** A cloud nobody has used yet, beside other people's VMs. */
  ghost predicate Unspoilt(s: Scene) {
    var w := s.world;
    && w == World(w.site, map[], map[], {}, w.vms, w.slots, map[], {}, map[]) && s.looks == multiset{}
    && SiteOK(w.site) && HypervisorOK(w) && forall m :: m in w.vms ==> w.vms[m] == ForeignVm
  }

  /** The service's own calls lead there from an unused cloud. */
  ghost predicate Reachable(s: Scene) { exists s0 :: Unspoilt(s0) && Leads(s0, s) }

  // -------------------------------------------------- what the calls have in common

  /** A legal step that leaves the cloud safe. */
  ghost predicate Good(s: Scene, d: Deed)
    requires May(s, d)
  {
    Safe(After(s, d)) && Step(s.world, EventOf(s, d), After(s, d))
  }

  /** Whatever call may be next is one. */
  lemma OneCallIsStep(s: Scene, d: Deed)
    requires Safe(s.world) && May(s, d)
    ensures Good(s, d)
  {
    hide Safe, Step, May, Good;
    match d
    case LooksAt(_) => LookIsStep(s, d);
    case Adopts(_, _, _, _, _, _, _) => InsertIsStep(s, d);
    case Launches(_, _, _, _, _, _) => InsertIsStep(s, d);
    case AsksVolume(_, _, _) => VolumeIsStep(s, d);
    case AsksAttach(_, _, _) => AttachIsStep(s, d);
    case AsksGrowth(_, _) => GrowthIsStep(s, d);
    case AsksTerminate(_) => TerminateIsStep(s, d);
    case MakesHolder(_) => HolderIsStep(s, d);
    case AnnouncesSlot(_, _) => AnnounceIsStep(s, d);
    case MakesDisk(_, _, _) => MakeIsStep(s, d);
    case TakesDisk(_) => TakeIsStep(s, d);
    case Unplugs(_, _) => UnplugIsStep(s, d);
    case PlugsIn(_) => PlugIsStep(s, d);
    case NotesKey(_, _) => NoteIsStep(s, d);
    case AnnouncesMove(_, _, _) => IntentIsStep(s, d);
    case Moves(_, _) => MoveIsStep(s, d);
    case NotesArrival(_) => ArrivalIsStep(s, d);
    case FinishesVolume(_) => FinishIsStep(s, d);
    case GivesUpGrowth(_, _) => GiveUpIsStep(s, d);
    case TakesAddress(_, _) => AddressIsStep(s, d);
    case NotesAddress(_, _) => RecordIsStep(s, d);
    case UploadsImage(_) => UploadIsStep(s, d);
    case DeletesVm(_) => DeleteIsStep(s, d);
    case ReleasesAddress(_, _) => ReleaseIsStep(s, d);
    case EndsTerminate(_) => EndIsStep(s, d);
  }

  /** So every path is a run, and all that holds of runs holds of it. */
  lemma {:induction false} PathIsRun(h: seq<Scene>, ds: seq<Deed>) returns (ws: seq<World>, es: seq<Event>)
    requires Path(h, ds) && Safe(h[0].world) && WithinLimits(h[0].world)
    ensures Run(ws, es) && |ws| == |h| && forall k :: 0 <= k < |h| ==> ws[k] == h[k].world
    decreases |ds|
  {
    hide Safe, Step, May, Run, WithinLimits;
    if ds == [] {
      ws, es := [h[0].world], [Call];
      OneState(h[0].world);
    } else {
      var n := |ds| - 1;
      assert Path(h[..n + 1], ds[..n]);
      ws, es := PathIsRun(h[..n + 1], ds[..n]);
      assert OneCall(h[n], ds[n], h[n + 1]);
      LastIsSafe(ws, es);
      OneCallIsStep(h[n], ds[n]);
      RunGrows(ws, es, h[n + 1].world, EventOf(h[n], ds[n]));
      ws, es := ws + [h[n + 1].world], es + [EventOf(h[n], ds[n])];
    }
  }

  lemma OneState(w: World)
    requires Safe(w) && WithinLimits(w)
    ensures Run([w], [Call])
  {
    hide Safe, WithinLimits;
  }

  lemma LastIsSafe(ws: seq<World>, es: seq<Event>)
    requires Run(ws, es)
    ensures |ws| > 0 && Safe(ws[|ws| - 1])
  {
    hide Safe;
  }

  lemma LeadsSafely(s: Scene, s': Scene) returns (ws: seq<World>, es: seq<Event>)
    requires Leads(s, s') && Safe(s.world) && WithinLimits(s.world)
    ensures Run(ws, es) && ws[0] == s.world && ws[|ws| - 1] == s'.world && Safe(s'.world)
  {
    hide Safe, Run, WithinLimits, Path;
    var h, ds :| PathFromTo(h, ds, s, s');
    assert |h| == |ds| + 1 by { PathLength(h, ds); }
    ws, es := PathIsRun(h, ds);
    LastIsSafe(ws, es);
  }

  lemma PathLength(h: seq<Scene>, ds: seq<Deed>)
    requires Path(h, ds)
    ensures |h| == |ds| + 1
  {
  }

  /** What is reachable is on a run from an unused cloud. */
  lemma ReachableIsSafe(s: Scene) returns (ws: seq<World>, es: seq<Event>)
    requires Reachable(s)
    ensures Safe(s.world) && Run(ws, es) && ws[|ws| - 1] == s.world
    ensures Unspoilt(Scene(ws[0], multiset{}))
  {
    hide Safe, Run, WithinLimits, Leads;
    var s0 :| Unspoilt(s0) && Leads(s0, s);
    EmptyIsSafe(s0.world);
    ws, es := LeadsSafely(s0, s);
  }

  // ----------------------------------------------------------------- requests

  lemma LookIsStep(s: Scene, d: Deed)
    requires Safe(s.world) && d.LooksAt? && May(s, d)
    ensures Good(s, d)
  {
    hide Safe, Step;
    StepSelf(s.world);
  }

  lemma InsertIsStep(s: Scene, d: Deed)
    requires Safe(s.world) && (d.Adopts? || d.Launches?) && May(s, d)
    ensures Good(s, d)
  {
    hide Safe, Step, InstanceAllowed, Rely;
    var w := s.world;
    var inst := After(s, d).instances[d.i];
    InsertInstanceSafe(w, d.i, inst);
    AdmittedInstance(w, d.i, inst);
  }

  lemma VolumeIsStep(s: Scene, d: Deed)
    requires Safe(s.world) && d.AsksVolume? && May(s, d)
    ensures Good(s, d)
  {
    hide Safe, Step, VolumeAllowed, Rely, QuotaStep;
    var w, v := s.world, FreshVolume(d.account, None, 0, SSD, d.size);
    InsertVolumeSafe(w, d.id, v);
    AdmittedRow(w, d.id, v);
    NewRowFollows(w, d.id, v);
    RelyStep(w, SetVolume(w, d.id, v));
  }

  lemma AttachIsStep(s: Scene, d: Deed)
    requires Safe(s.world) && d.AsksAttach? && May(s, d)
    ensures Good(s, d)
  {
    hide Safe, Step, Rely, QuotaStep;
    var w := s.world;
    var v' := RequestAttach(w.volumes[d.id], d.i, d.device);
    RequestAttachSafe(w, d.id, d.i, d.device);
    LighterRow(w, d.id, v');
    RequestFollows(w, d.id, v');
    RelyStep(w, SetVolume(w, d.id, v'));
  }

  lemma GrowthIsStep(s: Scene, d: Deed)
    requires Safe(s.world) && d.AsksGrowth? && May(s, d)
    ensures Good(s, d)
  {
    hide Safe, Step, Rely, QuotaStep, VolumeAllowed;
    var w := s.world;
    var v' := RequestResize(w.volumes[d.id], d.size);
    RequestsSafe(w, d.id, d.size);
    AdmittedRow(w, d.id, v');
    RequestFollows(w, d.id, v');
    RelyStep(w, SetVolume(w, d.id, v'));
  }

  lemma TerminateIsStep(s: Scene, d: Deed)
    requires Safe(s.world) && d.AsksTerminate? && May(s, d)
    ensures Good(s, d)
  {
    hide Safe, Step, Rely;
    var w := s.world;
    var inst' := SetAction(w.instances[d.i], ShuttingDown, Terminate);
    InstanceStepSafe(w, d.i, inst');
    RowRequestFollows(w, d.i, inst');
  }

  // ------------------------------------------------ the worker's calls for a volume

  /** A call that follows and adds nothing. */
  lemma FollowIsStep(w: World, w': World, moved: set<VolumeId>)
    requires Safe(w) && Safe(w') && Follows(w, w', moved)
    requires NothingAdded(w.volumes, w.instances, w'.volumes, w'.instances)
    ensures Step(w, Call, w')
  {
    hide Safe, RowsStep, AttemptsCounted, VmsStep, QuotaStep, Follows, NothingAdded;
    FollowsRows(w, w', moved);
    FollowsVms(w, w', moved);
    QuietStep(w, w');
  }

  /** Writing a location that is known to be safe. */
  lemma WriteIsStep(w: World, id: VolumeId, l: Location)
    requires Safe(w) && LiveRow(w, id) && Safe(Record(w, id, l))
    requires w.volumes[id].loc.name.Some? ==> l.name.Some?
    ensures Step(w, Call, Record(w, id, l))
  {
    hide Safe, Follows, Step;
    LocationFollows(w, id, l);
    FollowIsStep(w, Record(w, id, l), {id});
  }

  /** A change of disks alone. */
  lemma ShiftIsStep(w: World, w': World)
    requires Safe(w) && Safe(w') && w' == w.(slots := w'.slots)
    ensures Step(w, Call, w')
  {
    hide Safe, Follows, Step;
    FollowsSame(w, w');
    FollowIsStep(w, w', {});
  }

  /** A row has a disk exactly if one was given to it. */
  lemma GivenIfNamed(w: World, id: VolumeId)
    requires Safe(w) && LiveRow(w, id)
    ensures id in w.bound <==> w.volumes[id].loc.name.Some?
    ensures LocationShape(w.site, w.volumes[id].loc)
  {
    hide Safe;
    ShapeOf(w, id);
  }

  lemma HolderIsStep(s: Scene, d: Deed)
    requires Safe(s.world) && d.MakesHolder? && May(s, d)
    ensures Good(s, d)
  {
    hide Safe, Step, VmsStep;
    var w := s.world;
    AddVmSafe(w, w.site.holder, HolderVm, map[]);
    AddVmStep(w, w.site.holder, HolderVm, map[]);
    SameRowsStep(w, AddVm(w, w.site.holder, HolderVm, map[]));
  }

  lemma AnnounceIsStep(s: Scene, d: Deed)
    requires Safe(s.world) && d.AnnouncesSlot? && May(s, d)
    ensures Good(s, d)
  {
    hide Safe, Step, IntentSpent;
    var w := s.world;
    CreateIntentSafe(w, d.id, Scsi(d.n));
    WriteIsStep(w, d.id, Location(None, None, None, Some(w.site.holder), Some(Scsi(d.n))));
  }

  lemma MakeIsStep(s: Scene, d: Deed)
    requires Safe(s.world) && d.MakesDisk? && May(s, d)
    ensures Good(s, d)
  {
    hide Safe, Step, FreshName, FreshIdent;
    var w := s.world;
    GivenIfNamed(w, d.id);
    AllocateSafe(w, d.id, w.volumes[d.id].loc.moveKey.value, Disk(d.name, d.ident, w.volumes[d.id].size));
    ShiftIsStep(w, After(s, d));
  }

  lemma TakeIsStep(s: Scene, d: Deed)
    requires Safe(s.world) && d.TakesDisk? && May(s, d)
    ensures Good(s, d)
  {
    hide Safe, Step;
    var w := s.world;
    var p := Slot(w.site.holder, w.volumes[d.id].loc.moveKey.value);
    var l := Location(Some(p.vm), Some(p.key), Some(w.slots[p].name), None, None);
    GivenIfNamed(w, d.id);
    SafeHypervisor(w);
    ClaimSafe(w, d.id);
    assert Bind(w, d.id, l) == w.bound[d.id := w.slots[p].ident];
    WriteIsStep(w, d.id, l);
  }

  lemma UnplugIsStep(s: Scene, d: Deed)
    requires Safe(s.world) && d.Unplugs? && May(s, d)
    ensures Good(s, d)
  {
    hide Safe, Step, Loose, SettledInUse;
    var w, l := s.world, s.world.volumes[d.id].loc;
    LooseNotSettled(w, d.id);
    RekeySafe(w, d.id, Slot(l.vmid.value, l.key.value), Unused(d.n));
    ShiftIsStep(w, After(s, d));
  }

  lemma PlugIsStep(s: Scene, d: Deed)
    requires Safe(s.world) && d.PlugsIn? && May(s, d)
    ensures Good(s, d)
  {
    hide Safe, Step;
    var w, l := s.world, s.world.volumes[d.id].loc;
    RekeySafe(w, d.id, Slot(l.vmid.value, l.key.value), Virtio(w.volumes[d.id].device.value));
    ShiftIsStep(w, After(s, d));
  }

  lemma NoteIsStep(s: Scene, d: Deed)
    requires Safe(s.world) && d.NotesKey? && May(s, d)
    ensures Good(s, d)
  {
    hide Safe, Step, InHand;
    var w := s.world;
    HandIsLive(w, d.id);
    var l := w.volumes[d.id].loc;
    GivenIfNamed(w, d.id);
    HomeSafe(w, d.id, d.key);
    WriteIsStep(w, d.id, Location(l.vmid, Some(d.key), l.name, None, None));
  }

  lemma HandIsLive(w: World, id: VolumeId)
    requires InHand(w, id)
    ensures LiveRow(w, id)
  {
  }

  lemma IntentIsStep(s: Scene, d: Deed)
    requires Safe(s.world) && d.AnnouncesMove? && May(s, d)
    ensures Good(s, d)
  {
    hide Safe, Step, Loose, SettledInUse, PlaceAllowed;
    var w := s.world;
    GivenIfNamed(w, d.id);
    OnTheWayIsLoose(w, d.id);
    LooseNotSettled(w, d.id);
    IntentSafe(w, d.id, Slot(d.vm, Unused(d.n)));
    WriteIsStep(w, d.id, w.volumes[d.id].loc.(moveVmid := Some(d.vm), moveKey := Some(Unused(d.n))));
  }

  lemma MoveIsStep(s: Scene, d: Deed)
    requires Safe(s.world) && d.Moves? && May(s, d)
    ensures Good(s, d)
  {
    hide Safe, Step, FreshName;
    var w, l := s.world, s.world.volumes[d.id].loc;
    MoveSafe(w, d.id, Slot(l.moveVmid.value, l.moveKey.value), d.name);
    ShiftIsStep(w, After(s, d));
  }

  lemma ArrivalIsStep(s: Scene, d: Deed)
    requires Safe(s.world) && d.NotesArrival? && May(s, d)
    ensures Good(s, d)
  {
    hide Safe, Step, NameAbsent;
    var w, l := s.world, s.world.volumes[d.id].loc;
    ArrivalSafe(w, d.id);
    var name := w.slots[Slot(l.moveVmid.value, l.moveKey.value)].name;
    WriteIsStep(w, d.id, Location(l.moveVmid, l.moveKey, Some(name), None, None));
  }

  lemma FinishIsStep(s: Scene, d: Deed)
    requires Safe(s.world) && d.FinishesVolume? && May(s, d)
    ensures Good(s, d)
  {
    hide Safe, Step, WorkDone;
    var action := s.world.volumes[d.id].pending.value;
    FinishSafe(s.world, d.id, action);
    FinishStep(s.world, d.id, action);
  }

  lemma GiveUpIsStep(s: Scene, d: Deed)
    requires Safe(s.world) && d.GivesUpGrowth? && May(s, d)
    ensures Good(s, d)
  {
    hide Safe, Step, OwnSize;
    GiveUpSafe(s.world, d.id, d.actual);
    GiveUpResizeStep(s.world, d.id, d.actual);
  }

  // --------------------------------------------- the worker's calls for an instance

  /** A change of addresses and seed images alone. */
  lemma AroundIsStep(w: World, w': World)
    requires w' == w.(addresses := w'.addresses, seeds := w'.seeds)
    ensures Step(w, Call, w')
  {
    hide Step, VmsStep;
    SameVmsStep(w, w');
    SameRowsStep(w, w');
  }

  lemma AddressIsStep(s: Scene, d: Deed)
    requires Safe(s.world) && d.TakesAddress? && May(s, d)
    ensures Good(s, d)
  {
    hide Safe, Step;
    AddAddressSafe(s.world, d.a, d.i);
    AroundIsStep(s.world, After(s, d));
  }

  lemma RecordIsStep(s: Scene, d: Deed)
    requires Safe(s.world) && d.NotesAddress? && May(s, d)
    ensures Good(s, d)
  {
    hide Safe, Step;
    var w, inst := s.world, s.world.instances[d.i];
    SafeInstance(w, d.i);
    RecordResourcesSafe(w, d.i, inst.vmCreated, Some(d.a), inst.seed);
    InstanceUpdateStep(w, d.i, RecordResources(inst, inst.vmid, inst.vmCreated, Some(d.a), inst.seed), Call);
  }

  lemma UploadIsStep(s: Scene, d: Deed)
    requires Safe(s.world) && d.UploadsImage? && May(s, d)
    ensures Good(s, d)
  {
    hide Safe, Step;
    AddSeedSafe(s.world, d.i);
    AroundIsStep(s.world, After(s, d));
  }

  lemma DeleteIsStep(s: Scene, d: Deed)
    requires Safe(s.world) && d.DeletesVm? && May(s, d)
    ensures Good(s, d)
  {
    hide Safe, Step, VmsStep, Unmentioned;
    var w, m := s.world, s.world.instances[d.i].vmid.value;
    RemoveVmSafe(w, d.i, m);
    RemoveVmStep(w, d.i, m);
    SameRowsStep(w, RemoveVm(w, m));
  }

  lemma ReleaseIsStep(s: Scene, d: Deed)
    requires Safe(s.world) && d.ReleasesAddress? && May(s, d)
    ensures Good(s, d)
  {
    hide Safe, Step;
    RemoveAddressSafe(s.world, d.a, d.i);
    AroundIsStep(s.world, After(s, d));
  }

  lemma EndIsStep(s: Scene, d: Deed)
    requires Safe(s.world) && d.EndsTerminate? && May(s, d)
    ensures Good(s, d)
  {
    hide Safe, Step, NothingLeft;
    FinishTerminateSafe(s.world, d.i);
    FinishActionStep(s.world, d.i, Terminate);
  }

  // ------------------------------------------------------- each call, spelt out

  lemma LookLeads(s0: Scene, s: Scene, m: VmId, looks: multiset<VmId>)
    requires Leads(s0, s) && MayLookAt(s.world, m) && looks == s.looks + multiset{m}
    ensures Leads(s0, Scene(s.world, looks))
  {
    hide Leads;
    LeadsOn(s0, s, LooksAt(m));
  }

  lemma AdoptLeads(
    s0: Scene, s: Scene, i: InstanceId, account: AccountId, m: VmId,
    running: bool, vcpus: nat, memory: nat, rootDisk: nat, s': Scene)
    requires Leads(s0, s) && MayAdopt(s.world, s.looks, i, account, m, running, vcpus, memory, rootDisk)
    requires s'.world == SetInstance(s.world, i, AdoptedInstance(account, m, running, vcpus, memory, rootDisk))
    requires s'.looks == s.looks - multiset{m}
    ensures Leads(s0, s')
  {
    hide Leads;
    LeadsOn(s0, s, Adopts(i, account, m, running, vcpus, memory, rootDisk));
  }

  lemma LaunchLeads(
    s0: Scene, s: Scene, i: InstanceId, account: AccountId, vcpus: nat, memory: nat, rootDisk: nat, m: VmId, w': World)
    requires Leads(s0, s) && MayLaunch(s.world, i, account, vcpus, memory, rootDisk, m)
    requires w' == SetInstance(s.world, i, FreshInstance(account, None, 0, vcpus, memory, rootDisk, m))
    ensures Leads(s0, s.(world := w'))
  {
    hide Leads;
    LeadsOn(s0, s, Launches(i, account, vcpus, memory, rootDisk, m));
  }

  lemma AskVolumeLeads(s0: Scene, s: Scene, id: VolumeId, account: AccountId, size: nat, w': World)
    requires Leads(s0, s) && MayAskVolume(s.world, id, account, size)
    requires w' == SetVolume(s.world, id, FreshVolume(account, None, 0, SSD, size))
    ensures Leads(s0, s.(world := w'))
  {
    hide Leads;
    LeadsOn(s0, s, AsksVolume(id, account, size));
  }

  lemma AskAttachLeads(s0: Scene, s: Scene, id: VolumeId, i: InstanceId, device: nat, w': World)
    requires Leads(s0, s) && MayAskAttach(s.world, id, i, device)
    requires w' == SetVolume(s.world, id, RequestAttach(s.world.volumes[id], i, device))
    ensures Leads(s0, s.(world := w'))
  {
    hide Leads;
    LeadsOn(s0, s, AsksAttach(id, i, device));
  }

  lemma AskGrowthLeads(s0: Scene, s: Scene, id: VolumeId, size: nat, w': World)
    requires Leads(s0, s) && MayAskGrowth(s.world, id, size)
    requires w' == SetVolume(s.world, id, RequestResize(s.world.volumes[id], size))
    ensures Leads(s0, s.(world := w'))
  {
    hide Leads;
    LeadsOn(s0, s, AsksGrowth(id, size));
  }

  lemma AskTerminateLeads(s0: Scene, s: Scene, i: InstanceId, w': World)
    requires Leads(s0, s) && MayAskTerminate(s.world, i)
    requires w' == SetInstance(s.world, i, SetAction(s.world.instances[i], ShuttingDown, Terminate))
    ensures Leads(s0, s.(world := w'))
  {
    hide Leads;
    LeadsOn(s0, s, AsksTerminate(i));
  }

  lemma MakeHolderLeads(s0: Scene, s: Scene, id: VolumeId, w': World)
    requires Leads(s0, s) && MayMakeHolder(s.world, id)
    requires w' == AddVm(s.world, s.world.site.holder, HolderVm, map[])
    ensures Leads(s0, s.(world := w'))
  {
    hide Leads;
    LeadsOn(s0, s, MakesHolder(id));
  }

  lemma AnnounceSlotLeads(s0: Scene, s: Scene, id: VolumeId, n: nat, w': World)
    requires Leads(s0, s) && MayAnnounceSlot(s.world, id, n)
    requires w' == Placed(s.world, id, Location(None, None, None, Some(s.world.site.holder), Some(Scsi(n))))
    ensures Leads(s0, s.(world := w'))
  {
    hide Leads;
    LeadsOn(s0, s, AnnouncesSlot(id, n));
  }

  lemma MakeDiskLeads(s0: Scene, s: Scene, id: VolumeId, name: DiskName, ident: DiskIdent, w': World)
    requires Leads(s0, s) && MayMakeDisk(s.world, id, name, ident)
    requires var p := Slot(s.world.site.holder, s.world.volumes[id].loc.moveKey.value);
             w' == AddDisk(s.world, p, Disk(name, ident, s.world.volumes[id].size))
    ensures Leads(s0, s.(world := w'))
  {
    hide Leads;
    LeadsOn(s0, s, MakesDisk(id, name, ident));
  }

  lemma TakeDiskLeads(s0: Scene, s: Scene, id: VolumeId, w': World)
    requires Leads(s0, s) && MayTakeDisk(s.world, id)
    requires var p := Slot(s.world.site.holder, s.world.volumes[id].loc.moveKey.value);
             w' == Placed(s.world, id, Location(Some(p.vm), Some(p.key), Some(s.world.slots[p].name), None, None))
               .(bound := s.world.bound[id := s.world.slots[p].ident])
    ensures Leads(s0, s.(world := w'))
  {
    hide Leads;
    LeadsOn(s0, s, TakesDisk(id));
  }

  lemma UnplugLeads(s0: Scene, s: Scene, id: VolumeId, n: nat, w': World)
    requires Leads(s0, s) && MayUnplug(s.world, id, n)
    requires var l := s.world.volumes[id].loc;
             w' == Rekey(s.world, Slot(l.vmid.value, l.key.value), Unused(n))
    ensures Leads(s0, s.(world := w'))
  {
    hide Leads;
    LeadsOn(s0, s, Unplugs(id, n));
  }

  lemma PlugInLeads(s0: Scene, s: Scene, id: VolumeId, w': World)
    requires Leads(s0, s) && MayPlugIn(s.world, id)
    requires var l := s.world.volumes[id].loc;
             w' == Rekey(s.world, Slot(l.vmid.value, l.key.value), Virtio(s.world.volumes[id].device.value))
    ensures Leads(s0, s.(world := w'))
  {
    hide Leads;
    LeadsOn(s0, s, PlugsIn(id));
  }

  lemma NoteKeyLeads(s0: Scene, s: Scene, id: VolumeId, key: Key, w': World)
    requires Leads(s0, s) && MayNoteKey(s.world, id, key)
    requires var l := s.world.volumes[id].loc;
             w' == Placed(s.world, id, Location(l.vmid, Some(key), l.name, None, None))
    ensures Leads(s0, s.(world := w'))
  {
    hide Leads;
    LeadsOn(s0, s, NotesKey(id, key));
  }

  lemma AnnounceMoveLeads(s0: Scene, s: Scene, id: VolumeId, m: VmId, n: nat, w': World)
    requires Leads(s0, s) && MayAnnounceMove(s.world, id, m, n)
    requires w' == Placed(s.world, id, s.world.volumes[id].loc.(moveVmid := Some(m), moveKey := Some(Unused(n))))
    ensures Leads(s0, s.(world := w'))
  {
    hide Leads;
    LeadsOn(s0, s, AnnouncesMove(id, m, n));
  }

  lemma MoveLeads(s0: Scene, s: Scene, id: VolumeId, name: DiskName, w': World)
    requires Leads(s0, s) && MayMove(s.world, id, name)
    requires var l := s.world.volumes[id].loc;
             w' == MoveTo(s.world, Slot(l.vmid.value, l.key.value), Slot(l.moveVmid.value, l.moveKey.value), name)
    ensures Leads(s0, s.(world := w'))
  {
    hide Leads;
    LeadsOn(s0, s, Moves(id, name));
  }

  lemma NoteArrivalLeads(s0: Scene, s: Scene, id: VolumeId, w': World)
    requires Leads(s0, s) && MayNoteArrival(s.world, id)
    requires var l := s.world.volumes[id].loc;
             var name := s.world.slots[Slot(l.moveVmid.value, l.moveKey.value)].name;
             w' == Placed(s.world, id, Location(l.moveVmid, l.moveKey, Some(name), None, None))
    ensures Leads(s0, s.(world := w'))
  {
    hide Leads;
    LeadsOn(s0, s, NotesArrival(id));
  }

  lemma FinishVolumeLeads(s0: Scene, s: Scene, id: VolumeId, w': World)
    requires Leads(s0, s) && MayFinishVolume(s.world, id)
    requires w' == SetVolume(s.world, id, FinishVolumeAction(s.world.volumes[id], s.world.volumes[id].pending.value))
    ensures Leads(s0, s.(world := w'))
  {
    hide Leads;
    LeadsOn(s0, s, FinishesVolume(id));
  }

  lemma GiveUpGrowthLeads(s0: Scene, s: Scene, id: VolumeId, actual: nat, w': World)
    requires Leads(s0, s) && MayGiveUpGrowth(s.world, id, actual)
    requires w' == SetVolume(s.world, id, GiveUpResize(s.world.volumes[id], actual))
    ensures Leads(s0, s.(world := w'))
  {
    hide Leads;
    LeadsOn(s0, s, GivesUpGrowth(id, actual));
  }

  lemma TakeAddressLeads(s0: Scene, s: Scene, i: InstanceId, a: AddressId, w': World)
    requires Leads(s0, s) && MayTakeAddress(s.world, i, a)
    requires w' == s.world.(addresses := s.world.addresses[a := i])
    ensures Leads(s0, s.(world := w'))
  {
    hide Leads;
    LeadsOn(s0, s, TakesAddress(i, a));
  }

  lemma NoteAddressLeads(s0: Scene, s: Scene, i: InstanceId, a: AddressId, w': World)
    requires Leads(s0, s) && MayNoteAddress(s.world, i, a)
    requires var inst := s.world.instances[i];
             w' == SetInstance(s.world, i, RecordResources(inst, inst.vmid, inst.vmCreated, Some(a), inst.seed))
    ensures Leads(s0, s.(world := w'))
  {
    hide Leads;
    LeadsOn(s0, s, NotesAddress(i, a));
  }

  lemma UploadImageLeads(s0: Scene, s: Scene, i: InstanceId, w': World)
    requires Leads(s0, s) && MayUploadImage(s.world, i)
    requires w' == s.world.(seeds := s.world.seeds + {i})
    ensures Leads(s0, s.(world := w'))
  {
    hide Leads;
    LeadsOn(s0, s, UploadsImage(i));
  }

  lemma DeleteVmLeads(s0: Scene, s: Scene, i: InstanceId, w': World)
    requires Leads(s0, s) && MayDeleteVm(s.world, i)
    requires w' == RemoveVm(s.world, s.world.instances[i].vmid.value)
    ensures Leads(s0, s.(world := w'))
  {
    hide Leads;
    LeadsOn(s0, s, DeletesVm(i));
  }

  lemma ReleaseAddressLeads(s0: Scene, s: Scene, i: InstanceId, a: AddressId, w': World)
    requires Leads(s0, s) && MayReleaseAddress(s.world, i, a)
    requires w' == s.world.(addresses := s.world.addresses - {a})
    ensures Leads(s0, s.(world := w'))
  {
    hide Leads;
    LeadsOn(s0, s, ReleasesAddress(i, a));
  }

  lemma EndTerminateLeads(s0: Scene, s: Scene, i: InstanceId, w': World)
    requires Leads(s0, s) && MayEndTerminate(s.world, i)
    requires w' == SetInstance(s.world, i, FinishAction(s.world.instances[i], Terminate, Terminated))
    ensures Leads(s0, s.(world := w'))
  {
    hide Leads;
    LeadsOn(s0, s, EndsTerminate(i));
  }
}
