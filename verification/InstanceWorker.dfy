/** The worker's launch: each step picks up whatever an attempt that was cut short
    has left behind. */
module InstanceWorker {
  import opened Types
  import opened Rows
  import opened CloudState
  import opened RowLemmas
  import opened InstanceLemmas
  import opened Progress
  import opened History
  import opened Backends
  import opened Steps
  import opened InstanceRequests
  import opened Interference
  import opened VolumeWorker

  /** The claimed copy is still what the row says, unless a terminate has been requested. */
  ghost predicate Still(w: World, i: InstanceId, inst: Instance) {
    i in w.instances && LiveInstance(w.instances[i]) && InstanceFollows(inst, w.instances[i])
  }

  /** Whatever has been recorded since, no other attempt has been counted. */
  ghost predicate SameAttempt(w: World, i: InstanceId, inst: Instance) {
    && i in w.instances && LiveInstance(w.instances[i])
    && (Untouched(inst, w.instances[i]) || TakenOver(inst, w.instances[i]))
  }

  /** The row has come to this, and but for what a launch records of itself to nothing else. */
  predicate Became(
    inst: Instance, inst': Instance, state: InstanceState, pending: Option<InstanceAction>, attempts: nat)
  {
    var made := if inst.pending == Some(Launch) then inst' else inst;
    inst' == inst.(state := state, pending := pending, attempts := attempts,
                   vmid := made.vmid, vmCreated := made.vmCreated, address := made.address, seed := made.seed)
  }

  predicate Untouched(inst: Instance, inst': Instance) {
    Became(inst, inst', inst.state, inst.pending, inst.attempts)
  }

  /** A terminate has been requested since. */
  predicate TakenOver(inst: Instance, inst': Instance) {
    inst.pending != Some(Terminate) && Became(inst, inst', ShuttingDown, Some(Terminate), 0)
  }

  lemma StillSameAttempt(w: World, i: InstanceId, inst: Instance)
    requires Still(w, i, inst) && inst.pending.Some?
    ensures SameAttempt(w, i, inst)
  {
  }

  lemma RelyStill(w: World, w': World, i: InstanceId, inst: Instance)
    requires Rely(w, w') && i in w.instances && LiveInstance(w.instances[i])
    ensures i in w'.instances && InstanceFollows(w.instances[i], w'.instances[i]) && LiveInstance(w'.instances[i])
    ensures inst.pending.Some? && Still(w, i, inst) ==> Still(w', i, inst)
    ensures inst.pending.Some? && SameAttempt(w, i, inst) ==> SameAttempt(w', i, inst)
    ensures Owned(w, i) <==> Owned(w', i)
    ensures w'.slots == w.slots && w'.vms == w.vms && w'.addresses == w.addresses && w'.seeds == w.seeds
    ensures w'.site == w.site && w'.quarantine == w.quarantine
  {
    assert InstanceFollows(w.instances[i], w'.instances[i]);
  }

  /** Time for everybody else between two calls made for an instance. */
  method PauseFor(c: Cloud, i: InstanceId, inst: Instance)
    requires c.Valid() && i in c.instances && LiveInstance(c.instances[i]) && inst.pending.Some?
    modifies c
    ensures Extends(old(c.Past()), c.Past())
    ensures c.Valid() && Rely(old(c.Now()), c.Now())
    ensures c.trouble == old(c.trouble) && c.unrecorded == old(c.unrecorded)
    ensures i in c.instances && InstanceFollows(old(c.instances)[i], c.instances[i]) && LiveInstance(c.instances[i])
    ensures old(Still(c.Now(), i, inst)) ==> Still(c.Now(), i, inst)
    ensures old(SameAttempt(c.Now(), i, inst)) ==> SameAttempt(c.Now(), i, inst)
    ensures old(Owned(c.Now(), i)) <==> Owned(c.Now(), i)
    ensures c.slots == old(c.slots) && c.vms == old(c.vms) && c.addresses == old(c.addresses)
    ensures c.seeds == old(c.seeds) && c.quarantine == old(c.quarantine)
  {
    hide Extends, Run, Rely, Still, SameAttempt, Owned;
    Extending();
    ghost var w := c.Now();
    Others(c);
    RelyStill(w, c.Now(), i, inst);
  }

  /** An update of one instance's row by a legal step is a legal step of the whole, if it
      counts the attempt it records. */
  lemma InstanceUpdateStep(w: World, i: InstanceId, inst': Instance, e: Event)
    requires i in w.instances && InstanceStep(w.instances[i], inst')
    requires inst'.vmid == w.instances[i].vmid || !w.instances[i].adopted
    requires LiveInstance(inst') || !LiveInstance(w.instances[i]) || NothingLeft(w, i)
    requires inst'.vcpus == w.instances[i].vcpus && inst'.memory == w.instances[i].memory
    requires inst'.rootDisk == w.instances[i].rootDisk
    requires e.Call? || (e.InstanceAttempt? && e.i == i)
    requires w.instances[i].pending.Some? && inst'.pending == w.instances[i].pending ==>
               inst'.attempts == w.instances[i].attempts + OneIfFailed(e, i, inst'.pending.value)
    ensures Step(w, e, SetInstance(w, i, inst'))
  {
    hide QuotaStep, VmsStep, NothingLeft;
    QuietStep(w, SetInstance(w, i, inst'));
    InstanceUpdateVms(w, i, inst');
  }

  lemma InstanceUpdateVms(w: World, i: InstanceId, inst': Instance)
    requires i in w.instances && InstanceStep(w.instances[i], inst')
    requires inst'.vmid == w.instances[i].vmid || !w.instances[i].adopted
    requires LiveInstance(inst') || !LiveInstance(w.instances[i]) || NothingLeft(w, i)
    ensures VmsStep(w, SetInstance(w, i, inst'))
  {
    var w' := SetInstance(w, i, inst');
    forall j: InstanceId | NamedBySome(w', j) ensures NamedBySome(w, j) {
      var b :| b in w'.volumes && LiveVolume(w'.volumes[b]) && w'.volumes[b].instance == Some(j);
      assert b in w.volumes && LiveVolume(w.volumes[b]) && w.volumes[b].instance == Some(j);
    }
    if NothingLeft(w, i) && HasVm(w, i) {
      forall b | b in w.volumes && LiveVolume(w.volumes[b]) ensures w.volumes[b].instance != Some(i) {
        assert !Names(w, b, i);
      }
    }
  }

  // ------------------------------------------------------------------- launch

  /** Somebody else's VM has the number this instance was given. */
  predicate VmidOccupied(w: World, i: InstanceId, vmid: Option<VmId>) {
    vmid.Some? && vmid.value in w.vms && w.vms[vmid.value] != InstanceVm(i)
  }

  /** There is no root disk to enlarge. */
  predicate Rootless(w: World, vmid: Option<VmId>) {
    vmid.Some? && Slot(vmid.value, Virtio(0)) !in w.slots
  }

  ghost predicate HasAddress(w: World, i: InstanceId, address: Option<AddressId>) {
    address.Some? ==> address.value in w.addresses && w.addresses[address.value] == i
  }

  /** Writing down what the launch has made so far. */
  method Note(c: Cloud, i: InstanceId, inst: Instance, created: bool, address: Option<AddressId>, seed: bool)
    returns (inst': Instance, r: Outcome)
    requires c.Valid() && Still(c.Now(), i, inst) && inst.pending == Some(Launch)
    requires (inst.vmCreated ==> created) && (inst.address.Some? ==> address.Some?) && (inst.seed ==> seed)
    requires (created ==> Owned(c.Now(), i)) && HasAddress(c.Now(), i, address)
    requires seed ==> i in c.seeds && !inst.adopted
    modifies c
    ensures Extends(old(c.Past()), c.Past())
    ensures c.Valid() && SameAttempt(c.Now(), i, inst)
    ensures c.vms == old(c.vms) && c.addresses == old(c.addresses) && c.seeds == old(c.seeds)
    ensures Owned(old(c.Now()), i) ==> Owned(c.Now(), i)
    ensures r.Ok? ==> inst' == RecordResources(inst, inst.vmid, created, address, seed) && Still(c.Now(), i, inst')
    ensures Managed(old(c.trouble), old(c.unrecorded), c, r, true)
  {
    hide Extends, Safe, Run, Step;
    Extending();
    inst' := RecordResources(inst, inst.vmid, created, address, seed);
    RecordResourcesSafe(c.Now(), i, created, address, seed);
    InstanceUpdateStep(c.Now(), i, RecordResources(c.instances[i], inst.vmid, created, address, seed), Call);
    r := WriteInstance(c, i, row => RecordResources(row, inst.vmid, created, address, seed), Call);
  }

  /** Reusing an address an earlier attempt took for this instance, or taking one. */
  method Address(c: Cloud, i: InstanceId, inst: Instance) returns (a: AddressId, r: Outcome)
    requires c.Valid() && Still(c.Now(), i, inst) && inst.pending == Some(Launch)
    modifies c
    ensures Extends(old(c.Past()), c.Past())
    ensures c.Valid() && Still(c.Now(), i, inst) && (old(Owned(c.Now(), i)) ==> Owned(c.Now(), i))
    ensures c.seeds == old(c.seeds) && c.vms == old(c.vms)
    ensures c.trouble == old(c.trouble) ==> r.Ok?
    ensures r.Ok? ==> HasAddress(c.Now(), i, Some(a))
    ensures r.Ok? || CallFailed(r)
    ensures Accounted(old(c.trouble), old(c.unrecorded), c, r)
  {
    hide Extends, Safe, Run, Rely, FreshAddress, InstanceFollows;
    Extending();
    a := 0;
    PauseFor(c, i, inst);
    var existing, read := c.AddressesOf(i);
    if !read.Ok? {
      return a, read;
    }
    if existing != {} {
      a :| a in existing;
      return a, Ok;
    }
    var rangeFound := c.LookUp();
    if !rangeFound {
      return a, Err(Failed);
    }
    PauseFor(c, i, inst);
    assert forall b :: b in c.addresses ==> c.addresses[b] != i by {
      forall b | b in c.addresses ensures c.addresses[b] != i {
        assert b !in existing;
      }
    }
    a, r := TakeAddress(c, i);
  }

  /** Making the VM, unless an earlier attempt did; a VMID taken by somebody else is given up. */
  method CreateInstanceVm(c: Cloud, i: InstanceId, inst: Instance) returns (r: Outcome)
    requires c.Valid() && Still(c.Now(), i, inst) && inst.pending == Some(Launch) && !inst.vmCreated
    requires inst.vmid.Some? && !inst.adopted && HasAddress(c.Now(), i, inst.address)
    modifies c
    ensures Extends(old(c.Past()), c.Past())
    ensures c.Valid() && SameAttempt(c.Now(), i, inst)
    ensures r.Ok? ==> Still(c.Now(), i, inst) && Owned(c.Now(), i)
    ensures r.Ok? ==> c.addresses == old(c.addresses) && c.seeds == old(c.seeds)
    ensures r.Ok? || CallFailed(r)
    ensures c.trouble == old(c.trouble) ==> r.Ok? || Renumbered(old(c.Now()), c.Now(), i, inst.vmid)
    ensures Accounted(old(c.trouble), old(c.unrecorded), c, r)
  {
    hide MovedFrom, NoneOpen, Extends, Safe, Run, Rely;
    Extending();
    StillSameAttempt(c.Now(), i, inst);
    var imageFound := c.LookUp();
    if !imageFound {
      return Err(Failed);
    }
    PauseFor(c, i, inst);
    var listed, read := c.ListVms();
    if !read.Ok? {
      return read;
    }
    if inst.vmid.value in listed {
      PauseFor(c, i, inst);
      var owned, asked := OwnedVm(c, inst.vmid.value, i, inst);
      if !asked.Ok? || owned {
        return asked;
      }
      r := MoveVmid(c, i, inst, listed);
      return r;
    }
    PauseFor(c, i, inst);
    if inst.vmid.value in c.vms {
      OutsideIsForeign(c.Now(), inst.vmid.value);
    }
    ghost var w := c.Now();
    var taken;
    r, taken := MakeVm(c, inst.vmid.value, InstanceVm(i));
    MadeVm(w, c.Now(), i, inst);
    if taken {
      assert c.vms[inst.vmid.value] != InstanceVm(i) by { OutsideIsForeign(c.Now(), inst.vmid.value); }
      r := MoveVmid(c, i, inst, listed);
    }
  }

  lemma OutsideIsForeign(w: World, m: VmId)
    requires Safe(w) && m in w.vms
    ensures m in w.site.outside ==> w.vms[m] == ForeignVm
  {
    hide VolumesOK, HolderSlotsOK, InstancesOK;
  }

  lemma MadeVm(w: World, w': World, i: InstanceId, inst: Instance)
    requires Still(w, i, inst) && inst.vmid.Some? && (w' == w || VmMade(w, w', inst.vmid.value, InstanceVm(i)))
    ensures Still(w', i, inst) && w'.addresses == w.addresses && w'.seeds == w.seeds
    ensures VmMade(w, w', inst.vmid.value, InstanceVm(i)) ==> Owned(w', i)
  {
    hide FreshDisks;
  }

  /** Quarantining a VMID that turned out to be taken and allocating another, in
      one transaction. The attempt fails either way; the next one uses the new VMID. */
  method MoveVmid(c: Cloud, i: InstanceId, inst: Instance, visible: set<VmId>) returns (r: Outcome)
    requires c.Valid() && Still(c.Now(), i, inst) && inst.pending == Some(Launch) && !inst.vmCreated
    requires inst.vmid.Some? && !inst.adopted && HasAddress(c.Now(), i, inst.address)
    requires inst.vmid.value in c.vms ==> c.vms[inst.vmid.value] != InstanceVm(i)
    modifies c
    ensures Extends(old(c.Past()), c.Past())
    ensures c.Valid() && SameAttempt(c.Now(), i, inst) && CallFailed(r)
    ensures i in c.instances
    ensures c.instances[i].vmid == inst.vmid || MovedFrom(c.Now(), i, inst.vmid.value, visible)
    ensures c.trouble == old(c.trouble) ==>
              MovedFrom(c.Now(), i, inst.vmid.value, visible) || NoneOpen(c.Now(), visible)
    ensures c.vms == old(c.vms)
    ensures Accounted(old(c.trouble), old(c.unrecorded), c, r)
  {
    hide Extends, Safe, Run, Step, Rely, MovedFrom, VmidFree, NoneOpen;
    Extending();
    StillSameAttempt(c.Now(), i, inst);
    PauseFor(c, i, inst);
    r := c.Fate();
    if r.Ok? {
      r := Err(Failed);
      QuarantineVmid(c, i, inst, visible);
    }
  }

  /** The transaction that does so. */
  method QuarantineVmid(c: Cloud, i: InstanceId, inst: Instance, visible: set<VmId>)
    requires c.Valid() && Still(c.Now(), i, inst) && inst.pending == Some(Launch) && !inst.vmCreated
    requires inst.vmid.Some? && !inst.adopted
    requires inst.vmid.value in c.vms ==> c.vms[inst.vmid.value] != InstanceVm(i)
    modifies c
    ensures Extends(old(c.Past()), c.Past())
    ensures c.Valid() && SameAttempt(c.Now(), i, inst)
    ensures MovedFrom(c.Now(), i, inst.vmid.value, visible) || (c.Now() == old(c.Now()) && NoneOpen(c.Now(), visible))
    ensures c.vms == old(c.vms)
    ensures c.trouble == old(c.trouble) && c.unrecorded == old(c.unrecorded)
  {
    hide Safe, Run, Step, VmidFree;
    var vmid := AllocateVmid(c, visible);
    if vmid.Some? {
      ghost var h, es, w := c.history, c.events, c.Now();
      VmidOpenFacts(w, i, visible, vmid.value);
      MoveVmidSafe(w, i, vmid.value);
      VmidMoveStep(w, i, inst.vmid.value, vmid);
      c.quarantine := c.quarantine + {inst.vmid.value};
      c.instances := c.instances[i := RecordResources(c.instances[i], vmid, inst.vmCreated, inst.address, inst.seed)];
      c.history, c.events := c.history + [c.Now()], c.events + [Call];
      RunGrows(h, es, c.Now(), Call);
    }
  }

  lemma VmidOpenFacts(w: World, i: InstanceId, visible: set<VmId>, vmid: VmId)
    requires VmidOpen(w, visible, vmid) && i in w.instances && LiveInstance(w.instances[i])
    ensures VmidFree(w, vmid) && w.instances[i].vmid != Some(vmid) && vmid !in visible
    ensures w.site.vmidFrom <= vmid <= w.site.vmidTo
  {
  }

  /** There is no VMID left to give it. */
  ghost predicate NoneOpen(w: World, visible: set<VmId>) { forall m :: !VmidOpen(w, visible, m) }

  /** Somebody else has the number, so the instance has got another, if there is one. */
  ghost predicate Renumbered(w: World, w': World, i: InstanceId, vmid: Option<VmId>) {
    && VmidOccupied(w, i, vmid)
    && (MovedFrom(w', i, vmid.value, ListedVms(w')) || NoneOpen(w', ListedVms(w')))
  }

  lemma RenumberedSince(w0: World, w: World, w': World, i: InstanceId, vmid: Option<VmId>)
    requires w0.vms == w.vms
    ensures Renumbered(w, w', i, vmid) ==> Renumbered(w0, w', i, vmid)
  {
  }

  /** The VMs the cloud's own token sees. */
  function ListedVms(w: World): set<VmId> { w.vms.Keys - w.site.outside }

  /** The instance has another VMID in range that the listing did not show, and the old
      one is quarantined. */
  ghost predicate MovedFrom(w: World, i: InstanceId, taken: VmId, visible: set<VmId>) {
    && i in w.instances && w.instances[i].vmid.Some? && taken in w.quarantine && w.instances[i].vmid.value != taken
    && w.site.vmidFrom <= w.instances[i].vmid.value <= w.site.vmidTo && w.instances[i].vmid.value !in visible
  }

  lemma VmidMoveStep(w: World, i: InstanceId, taken: VmId, vmid: Option<VmId>)
    requires i in w.instances && !w.instances[i].vmCreated && LiveInstance(w.instances[i]) && !w.instances[i].adopted
    ensures Step(w, Call,
                 SetInstance(w.(quarantine := w.quarantine + {taken}), i, w.instances[i].(vmid := vmid)))
  {
    hide QuotaStep, VmsStep;
    var inst' := w.instances[i].(vmid := vmid);
    var w' := SetInstance(w.(quarantine := w.quarantine + {taken}), i, inst');
    QuietStep(w, w');
    InstanceUpdateVms(w, i, inst');
    VmsStepWithout(w, SetInstance(w, i, inst'), w');
  }

  /** Quarantined VMIDs have no part in it. */
  lemma VmsStepWithout(w: World, w1: World, w2: World)
    requires VmsStep(w, w1) && w2 == w1.(quarantine := w2.quarantine)
    ensures VmsStep(w, w2)
  {
    forall i | i in w.instances && w.instances[i].adopted && LiveInstance(w.instances[i])
      ensures AdoptedVmStep(w, w2, i)
    {
      assert AdoptedVmStep(w, w1, i);
    }
    forall j: InstanceId | NamedBySome(w2, j) ensures NamedBySome(w1, j) {
      var b :| b in w2.volumes && LiveVolume(w2.volumes[b]) && w2.volumes[b].instance == Some(j);
      assert b in w1.volumes && LiveVolume(w1.volumes[b]) && w1.volumes[b].instance == Some(j);
    }
  }

  lemma LaunchFacts(w: World, i: InstanceId)
    requires Safe(w) && i in w.instances && w.instances[i].pending == Some(Launch)
    ensures Still(w, i, w.instances[i]) && w.instances[i].vmid.Some? && HasAddress(w, i, w.instances[i].address)
    ensures !w.instances[i].adopted && (w.instances[i].seed ==> i in w.seeds)
    ensures w.instances[i].vmCreated ==> Owned(w, i)
  {
    hide Safe;
    SafeInstance(w, i);
  }

  /** What the launch has made and recorded so far is really there. */
  ghost predicate MadeSoFar(w: World, i: InstanceId, inst: Instance) {
    && Still(w, i, inst) && inst.pending == Some(Launch) && !inst.adopted && inst.vmid.Some?
    && (inst.vmCreated ==> Owned(w, i)) && HasAddress(w, i, inst.address) && (inst.seed ==> i in w.seeds)
  }

  /** Address, seed image, VM, root disk and power, each but the last two skipped if an
      earlier attempt recorded it. */
  method LaunchInstance(c: Cloud, i: InstanceId, claimed: Instance) returns (r: Outcome)
    requires c.Valid() && i in c.instances && c.instances[i] == claimed && claimed.pending == Some(Launch)
    modifies c
    ensures Extends(old(c.Past()), c.Past())
    ensures c.Valid() && SameAttempt(c.Now(), i, claimed)
    ensures r.Ok? ==> Equipped(c.instances[i]) && RootReady(c.Now(), c.instances[i])
    ensures r.Ok? || CallFailed(r)
    ensures c.trouble == old(c.trouble) ==>
              r.Ok? || Renumbered(old(c.Now()), c.Now(), i, claimed.vmid) || Rootless(c.Now(), claimed.vmid)
    ensures r.Ok? && claimed.vmid.Some? ==> PowerDone(c.events, |old(c.events)|, claimed.vmid.value, TurnOn)
    ensures Accounted(old(c.trouble), old(c.unrecorded), c, r)
  {
    hide Renumbered, Extends, Since, Rootless, Safe, Run, Rely, Owned, InstanceFollows, HasAddress, MadeSoFar;
    Extending();
    var inst := claimed;
    LaunchStarts(c.Now(), i);
    if inst.address.None? {
      inst, r := GiveAddress(c, i, inst);
      if !r.Ok? {
        return r;
      }
    }
    if !inst.seed {
      inst, r := GiveSeed(c, i, inst);
      if !r.Ok? {
        return r;
      }
    }
    if !inst.vmCreated {
      ghost var w := c.Now();
      inst, r := GiveVm(c, i, inst);
      if !r.Ok? {
        RenumberedSince(old(c.Now()), w, c.Now(), i, claimed.vmid);
        return r;
      }
    }
    ghost var past := c.Past();
    r := Boot(c, i, claimed, inst);
    Happened(old(c.Past()), past, c.Past());
  }

  /** With everything in place: the root disk, and power. */
  method Boot(c: Cloud, i: InstanceId, claimed: Instance, inst: Instance) returns (r: Outcome)
    requires c.Valid() && MadeSoFar(c.Now(), i, inst) && inst.vmCreated && inst.address.Some? && inst.seed
    requires inst == claimed.(vmCreated := true, address := inst.address, seed := true)
    modifies c
    ensures Extends(old(c.Past()), c.Past())
    ensures c.Valid() && SameAttempt(c.Now(), i, claimed)
    ensures r.Ok? ==> Equipped(c.instances[i]) && RootReady(c.Now(), c.instances[i])
    ensures r.Ok? || CallFailed(r)
    ensures c.trouble == old(c.trouble) ==> r.Ok? || Rootless(c.Now(), inst.vmid)
    ensures r.Ok? && inst.vmid.Some? ==> PowerDone(c.events, |old(c.events)|, inst.vmid.value, TurnOn)
    ensures Accounted(old(c.trouble), old(c.unrecorded), c, r)
  {
    hide Extends, Since, Safe, Run, Rely, Owned, InstanceFollows, HasAddress, MadeSoFar;
    Extending();
    r := GrowRoot(c, i, inst);
    LaunchedAttempt(c.Now(), i, claimed, inst);
    if !r.Ok? {
      return r;
    }
    ghost var past := c.Past();
    PauseMade(c, i, inst);
    LaunchedAttempt(c.Now(), i, claimed, inst);
    past := c.Past();
    r := TurnItOn(c, i, inst);
    Happened(old(c.Past()), past, c.Past());
    LaunchedAttempt(c.Now(), i, claimed, inst);
  }

  /** Its VM is started unless it is running. */
  method TurnItOn(c: Cloud, i: InstanceId, inst: Instance) returns (r: Outcome)
    requires c.Valid() && MadeSoFar(c.Now(), i, inst) && inst.vmCreated
    modifies c
    ensures Extends(old(c.Past()), c.Past())
    ensures c.Valid() && c.Now() == old(c.Now()) && |c.events| >= |old(c.events)|
    ensures r.Ok? ==> PowerDone(c.events, |old(c.events)|, inst.vmid.value, TurnOn)
    ensures Managed(old(c.trouble), old(c.unrecorded), c, r, true)
  {
    hide Extends, Since, Safe, Run, Rely, InstanceFollows, HasAddress;
    Extending();
    var m := inst.vmid.value;
    assert SomebodysVm(c.Now(), m) by { MadeIsOwn(c.Now(), i, inst); }
    ghost var es := c.events;
    r := c.Fate();
    if !r.Ok? {
      return;
    }
    var running := SeeRunning(c, m);
    JustHappened(es, |es|, Shown(m, running));
    if !running {
      JustHappened(c.events, |es|, Powered(m, TurnOn));
      r := Power(c, m, TurnOn, |es|);
    }
  }

  lemma MadeIsOwn(w: World, i: InstanceId, inst: Instance)
    requires MadeSoFar(w, i, inst) && inst.vmCreated
    ensures SomebodysVm(w, inst.vmid.value)
  {
    assert i in w.instances && HasVm(w, i);
  }

  lemma LaunchStarts(w: World, i: InstanceId)
    requires Safe(w) && i in w.instances && w.instances[i].pending == Some(Launch)
    ensures MadeSoFar(w, i, w.instances[i])
  {
    hide Safe;
    LaunchFacts(w, i);
  }

  /** The root disk is as large as the instance was promised. */
  predicate RootReady(w: World, inst: Instance) {
    inst.vmid.Some? && RootSize(w, inst.vmid.value) >= inst.rootDisk
  }

  method PauseMade(c: Cloud, i: InstanceId, inst: Instance)
    requires c.Valid() && MadeSoFar(c.Now(), i, inst)
    modifies c
    ensures Extends(old(c.Past()), c.Past())
    ensures c.Valid() && MadeSoFar(c.Now(), i, inst) && SameAttempt(c.Now(), i, inst)
    ensures c.slots == old(c.slots) && c.vms == old(c.vms) && c.seeds == old(c.seeds)
    ensures c.trouble == old(c.trouble) && c.unrecorded == old(c.unrecorded)
  {
    hide Extends, Safe, Run, Rely, Owned, InstanceFollows;
    Extending();
    StillSameAttempt(c.Now(), i, inst);
    PauseFor(c, i, inst);
  }

  /** The launch's first step: an address, recorded. */
  method GiveAddress(c: Cloud, i: InstanceId, inst: Instance) returns (inst': Instance, r: Outcome)
    requires c.Valid() && MadeSoFar(c.Now(), i, inst) && inst.address.None?
    modifies c
    ensures Extends(old(c.Past()), c.Past())
    ensures c.Valid() && SameAttempt(c.Now(), i, inst)
    ensures r.Ok? ==> MadeSoFar(c.Now(), i, inst')
    ensures r.Ok? ==> inst' == inst.(address := inst'.address) && inst'.address.Some?
    ensures r.Ok? || CallFailed(r)
    ensures c.vms == old(c.vms) && (c.trouble == old(c.trouble) ==> r.Ok?)
    ensures Accounted(old(c.trouble), old(c.unrecorded), c, r)
  {
    hide Extends, Safe, Run, Rely, Owned, InstanceFollows;
    Extending();
    inst' := inst;
    var a;
    a, r := Address(c, i, inst);
    StillSameAttempt(c.Now(), i, inst);
    if r.Ok? {
      PauseFor(c, i, inst);
      inst', r := Note(c, i, inst, inst.vmCreated, Some(a), inst.seed);
    }
  }

  /** The next: its seed image, uploaded and recorded. An attempt that died in between may
      have left a file, which goes first. */
  method GiveSeed(c: Cloud, i: InstanceId, inst: Instance) returns (inst': Instance, r: Outcome)
    requires c.Valid() && MadeSoFar(c.Now(), i, inst) && inst.address.Some? && !inst.seed
    modifies c
    ensures Extends(old(c.Past()), c.Past())
    ensures c.Valid() && SameAttempt(c.Now(), i, inst)
    ensures r.Ok? ==> MadeSoFar(c.Now(), i, inst') && inst' == inst.(seed := true)
    ensures r.Ok? || CallFailed(r)
    ensures c.vms == old(c.vms) && (c.trouble == old(c.trouble) ==> r.Ok?)
    ensures Accounted(old(c.trouble), old(c.unrecorded), c, r)
  {
    hide Extends, Safe, Run, Rely, Owned, InstanceFollows, HasAddress;
    Extending();
    inst' := inst;
    StillSameAttempt(c.Now(), i, inst);
    var built := c.LookUp();
    if !built {
      return inst', Err(Failed);
    }
    PauseMade(c, i, inst);
    var found;
    found, r := c.ListSeeds();
    if !r.Ok? {
      return inst', r;
    }
    if i in found {
      PauseMade(c, i, inst);
      r := RemoveOldSeed(c, i, inst);
      if !r.Ok? {
        return inst', r;
      }
    }
    inst', r := PutSeed(c, i, inst);
  }

  method RemoveOldSeed(c: Cloud, i: InstanceId, inst: Instance) returns (r: Outcome)
    requires c.Valid() && MadeSoFar(c.Now(), i, inst) && !inst.seed
    modifies c
    ensures Extends(old(c.Past()), c.Past())
    ensures c.Valid() && MadeSoFar(c.Now(), i, inst) && SameAttempt(c.Now(), i, inst)
    ensures c.vms == old(c.vms) && (r.Ok? ==> i !in c.seeds)
    ensures Managed(old(c.trouble), old(c.unrecorded), c, r, i in old(c.seeds))
  {
    hide Extends, Safe, Run, Rely;
    Extending();
    StillSameAttempt(c.Now(), i, inst);
    r := DropSeed(c, i);
  }

  method PutSeed(c: Cloud, i: InstanceId, inst: Instance) returns (inst': Instance, r: Outcome)
    requires c.Valid() && MadeSoFar(c.Now(), i, inst) && inst.address.Some? && !inst.seed && i !in c.seeds
    modifies c
    ensures Extends(old(c.Past()), c.Past())
    ensures c.Valid() && SameAttempt(c.Now(), i, inst)
    ensures r.Ok? ==> MadeSoFar(c.Now(), i, inst') && inst' == inst.(seed := true)
    ensures c.vms == old(c.vms)
    ensures Managed(old(c.trouble), old(c.unrecorded), c, r, true)
  {
    hide Extends, Safe, Run, Rely, InstanceFollows;
    Extending();
    inst' := inst;
    PauseMade(c, i, inst);
    r := UploadSeed(c, i);
    StillSameAttempt(c.Now(), i, inst);
    if r.Ok? {
      PauseFor(c, i, inst);
      inst', r := Note(c, i, inst, inst.vmCreated, inst.address, true);
    }
  }

  /** The next: its VM, recorded. */
  method GiveVm(c: Cloud, i: InstanceId, inst: Instance) returns (inst': Instance, r: Outcome)
    requires c.Valid() && MadeSoFar(c.Now(), i, inst) && !inst.vmCreated
    modifies c
    ensures Extends(old(c.Past()), c.Past())
    ensures c.Valid() && SameAttempt(c.Now(), i, inst)
    ensures r.Ok? ==> MadeSoFar(c.Now(), i, inst') && inst' == inst.(vmCreated := true)
    ensures r.Ok? || CallFailed(r)
    ensures c.trouble == old(c.trouble) ==> r.Ok? || Renumbered(old(c.Now()), c.Now(), i, inst.vmid)
    ensures Accounted(old(c.trouble), old(c.unrecorded), c, r)
  {
    hide Renumbered, Extends, Safe, Run, Rely, Owned, InstanceFollows;
    Extending();
    inst' := inst;
    r := CreateInstanceVm(c, i, inst);
    if r.Ok? {
      StillSameAttempt(c.Now(), i, inst);
      PauseFor(c, i, inst);
      inst', r := Note(c, i, inst, true, inst.address, inst.seed);
    }
  }

  /** Bringing the root disk up to the size promised, if it is smaller. */
  method GrowRoot(c: Cloud, i: InstanceId, inst: Instance) returns (r: Outcome)
    requires c.Valid() && MadeSoFar(c.Now(), i, inst) && inst.vmCreated
    modifies c
    ensures Extends(old(c.Past()), c.Past())
    ensures c.Valid() && MadeSoFar(c.Now(), i, inst) && SameAttempt(c.Now(), i, inst)
    ensures r.Ok? ==> RootReady(c.Now(), inst)
    ensures r.Ok? ==>
              RootSize(c.Now(), inst.vmid.value) == Larger(RootSize(old(c.Now()), inst.vmid.value), inst.rootDisk)
    ensures forall p :: p in old(c.slots) && p != Slot(inst.vmid.value, Virtio(0)) ==>
              p in c.slots && c.slots[p] == old(c.slots)[p]
    ensures r.Ok? || CallFailed(r)
    ensures c.trouble == old(c.trouble) ==> r.Ok? || Rootless(c.Now(), inst.vmid)
    ensures Accounted(old(c.trouble), old(c.unrecorded), c, r)
  {
    hide Extends, Safe, Run, Rely, InstanceFollows, HasAddress;
    Extending();
    PauseMade(c, i, inst);
    MadeIsThere(c.Now(), i, inst);
    var vmid := inst.vmid.value;
    var size;
    size, r := c.RootDiskSize(vmid);
    if !r.Ok? || size >= inst.rootDisk {
      return r;
    }
    PauseMade(c, i, inst);
    ghost var w := c.Now();
    r := EnlargeRoot(c, vmid, inst.rootDisk);
    MadeKeeps(w, c.Now(), i, inst);
  }

  lemma MadeIsThere(w: World, i: InstanceId, inst: Instance)
    requires MadeSoFar(w, i, inst) && inst.vmCreated
    ensures inst.vmid.value in w.vms
  {
  }

  lemma MadeKeeps(w: World, w': World, i: InstanceId, inst: Instance)
    requires MadeSoFar(w, i, inst) && w' == w.(slots := w'.slots)
    ensures MadeSoFar(w', i, inst) && SameAttempt(w', i, inst)
  {
    StillSameAttempt(w', i, inst);
  }

  lemma LaunchedAttempt(w: World, i: InstanceId, claimed: Instance, inst: Instance)
    requires MadeSoFar(w, i, inst) && inst.vmCreated && inst.address.Some? && inst.seed
    requires inst == claimed.(vmCreated := true, address := inst.address, seed := true)
    ensures SameAttempt(w, i, claimed) && Equipped(w.instances[i])
    ensures inst.vmid.Some? && (RootReady(w, inst) ==> RootReady(w, w.instances[i]))
  {
  }
}
