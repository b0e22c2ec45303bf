/** Runs: what any single call may change, and the states a cloud goes through.
    What holds over whole runs is proved from these in the module Theorems. */
module History {
  import opened Types
  import opened CloudState
  import opened Quotas

  datatype PowerOp = TurnOn | ShutDown | Halt | Restart | Reset

  /** What a step was: the write that records how an attempt at an action ended; a VM's power, or
      whether it starts with the host, being changed; a VM being seen running or not, or its
      guest still waiting or not to take or release a key; or any other call. Those about VMs
      change nothing the model keeps. */
  datatype Event =
    | Call
    | InstanceAttempt(i: InstanceId, instanceAction: InstanceAction, failed: bool)
    | VolumeAttempt(id: VolumeId, volumeAction: VolumeAction, failed: bool)
    | Powered(vm: VmId, op: PowerOp)
    | StartsWithHost(vm: VmId, starts: bool)
    | Shown(vm: VmId, running: bool)
    | GuestShown(vm: VmId, key: Key, waiting: bool)

  /** How a volume's row may change in one call. Detaches and deletes are never
      abandoned, and nothing but an attach's detach replaces a pending action. */
  predicate VolumeStep(v: Volume, v': Volume) {
    && v'.account == v.account && v'.token == v.token && v'.hash == v.hash && v'.tier == v.tier
    && (v.loc.name.Some? ==> v'.loc.name.Some?)
    && (!LiveVolume(v) ==> v' == v)
    && (!LiveVolume(v') ==> !LiveVolume(v) || v.pending == Some(Delete))
    && (v.instance.Some? && v'.instance.Some? ==> v'.instance == v.instance && v'.device == v.device)
    && (v.pending.Some? ==>
          || (v'.pending == v.pending && (v'.state == v.state || v.pending == Some(Resize)))
          || (v.pending != Some(Delete) && v.pending != Some(Detach) && v'.pending.None?)
          || (v.pending == Some(Detach) && v'.pending.None? && v'.instance.None? && v'.state.Available?)
          || (v.pending == Some(Delete) && v'.state.Deleted?)
          || (v.pending == Some(Attach) && v'.pending == Some(Detach) && v'.attempts == 0))
  }

  /** How an instance's row may change in one call: only terminate replaces a
      pending action, and a terminate ends in nothing but terminated. */
  predicate InstanceStep(i: Instance, i': Instance) {
    && i'.account == i.account && i'.token == i.token && i'.hash == i.hash && i'.adopted == i.adopted
    && (!LiveInstance(i) ==> i' == i)
    && (!LiveInstance(i') ==> !LiveInstance(i) || i.pending == Some(Terminate))
    && (i.vmCreated ==> i'.vmCreated && i'.vmid == i.vmid) && (i.seed ==> i'.seed)
    && (i.pending.Some? ==>
          || (i'.pending == i.pending && i'.state == i.state)
          || (i.pending != Some(Terminate) && i'.pending.None?)
          || (i'.pending == Some(Terminate) && i'.attempts == 0 && i.pending != Some(Terminate))
          || (i.pending == Some(Terminate) && i'.state.Terminated?))
  }

  ghost predicate RowsStep(w: World, w': World) {
    && w'.site == w.site
    && (forall id :: id in w.bound ==> id in w'.bound && w'.bound[id] == w.bound[id])
    && (forall id :: id in w.volumes ==> id in w'.volumes && VolumeStep(w.volumes[id], w'.volumes[id]))
    && (forall i :: i in w.instances ==> i in w'.instances && InstanceStep(w.instances[i], w'.instances[i]))
  }

  /** While an action stays pending, its attempts go up by one exactly when a failed
      attempt at it is recorded. */
  ghost predicate AttemptsCounted(w: World, e: Event, w': World) {
    && (forall i | i in w.instances && i in w'.instances && w.instances[i].pending.Some?
          :: w'.instances[i].pending == w.instances[i].pending ==>
               w'.instances[i].attempts == w.instances[i].attempts + OneIfFailed(e, i, w.instances[i].pending.value))
    && (forall id | id in w.volumes && id in w'.volumes && w.volumes[id].pending.Some?
          :: w'.volumes[id].pending == w.volumes[id].pending ==>
               w'.volumes[id].attempts ==
                 w.volumes[id].attempts + OneIfVolumeFailed(e, id, w.volumes[id].pending.value))
  }

  function OneIfFailed(e: Event, i: InstanceId, action: InstanceAction): nat {
    if e == InstanceAttempt(i, action, true) then 1 else 0
  }

  function OneIfVolumeFailed(e: Event, id: VolumeId, action: VolumeAction): nat {
    if e == VolumeAttempt(id, action, true) then 1 else 0
  }

  // ----------------------------------------------------------- adopted VMs, names

  ghost predicate NamedBySome(w: World, i: InstanceId) {
    exists b :: b in w.volumes && LiveVolume(w.volumes[b]) && w.volumes[b].instance == Some(i)
  }

  predicate Leaving(i: Instance) { i.pending == Some(Terminate) || !LiveInstance(i) }

  /** The VM of a live adopted instance goes only in its own terminate, with no volume
      naming it any more, and never comes back; the terminate does not end while there
      are both; and nothing comes to name an instance that is on its way out. */
  ghost predicate VmsStep(w: World, w': World) {
    && (forall i | i in w.instances && w.instances[i].adopted && LiveInstance(w.instances[i])
          :: AdoptedVmStep(w, w', i))
    && (forall i | i in w.instances && Leaving(w.instances[i]) :: NamedBySome(w', i) ==> NamedBySome(w, i))
  }

  ghost predicate AdoptedVmStep(w: World, w': World, i: InstanceId)
    requires i in w.instances
  {
    && (HasVm(w, i) && i in w'.instances && !HasVm(w', i) ==>
          w'.instances[i].pending == Some(Terminate) && !NamedBySome(w', i))
    && (!HasVm(w, i) && i in w'.instances && LiveInstance(w'.instances[i]) ==> !HasVm(w', i))
    && (HasVm(w, i) && i in w'.instances && !LiveInstance(w'.instances[i]) ==> !NamedBySome(w', i))
  }

  // ------------------------------------------------------------------- power

  /** The VM on this VMID is there and some live instance's own. */
  ghost predicate SomebodysVm(w: World, m: VmId) {
    exists i :: i in w.instances && LiveInstance(w.instances[i]) && w.instances[i].vmid == Some(m) && HasVm(w, i)
  }

  /** Nobody's VM is started, stopped or told what to start with but a live instance's own. */
  ghost predicate PowersOwn(w: World, e: Event) {
    e.Powered? || e.StartsWithHost? ==> SomebodysVm(w, e.vm)
  }

  /** There has been such an event since. */
  ghost predicate Since(es: seq<Event>, since: nat, e: Event) {
    exists k :: since <= k < |es| && es[k] == e
  }

  /** Starting and stopping a VM is called for: it has been seen since to be the other way. */
  ghost predicate CalledFor(es: seq<Event>, since: nat, m: VmId, op: PowerOp) {
    match op
    case TurnOn => Since(es, since, Shown(m, false))
    case ShutDown => Since(es, since, Shown(m, true))
    case Halt => Since(es, since, Shown(m, true))
    case _ => true
  }

  /** This has been done to the VM since, or it has been seen to be so already. */
  ghost predicate PowerDone(es: seq<Event>, since: nat, m: VmId, op: PowerOp) {
    || Since(es, since, Powered(m, op))
    || (op.TurnOn? && Since(es, since, Shown(m, true)))
    || ((op.ShutDown? || op.Halt?) && Since(es, since, Shown(m, false)))
  }

  // ------------------------------------------------------------------ quotas

  ghost predicate WithinLimits(w: World) {
    Within(w.site.limits, w.volumes, w.instances)
  }

  ghost function Held(w: World, a: AccountId, m: Measure): nat {
    Usage(w.volumes, w.instances, Some(a), m)
  }

  /** Giving up a resize found the volume's own disk larger than the row said. */
  ghost predicate GrewAt(w: World, w': World, id: VolumeId) {
    && id in w.volumes && id in w'.volumes && id in w.bound
    && w.volumes[id].pending == Some(Resize) && w'.volumes[id].pending.None?
    && w'.volumes[id].size > w.volumes[id].size
    && exists p :: p in w.slots && w.slots[p].ident == w.bound[id] && w.slots[p].size == w'.volumes[id].size
  }

  /** One of an account's volumes grew so, and its GiB by exactly as much. */
  ghost predicate GrewFor(w: World, w': World, a: AccountId) {
    exists id :: GrewAt(w, w', id) && w.volumes[id].account == a
      && Held(w', a, VolumeGiB) == Held(w, a, VolumeGiB) + w'.volumes[id].size - w.volumes[id].size
  }

  /** No call takes anybody over a limit, but for a resize given up on a disk that had grown. */
  ghost predicate QuotaStep(w: World, w': World) {
    && (forall a: AccountId, m: Measure | LimitOf(w.site.limits, m) > 0
          :: StaysUnder(LimitOf(w.site.limits, m), w.volumes, w.instances, w'.volumes, w'.instances, Some(a), m)
             || (m.VolumeGiB? && GrewFor(w, w', a)))
    && (w.site.limits.memoryBudget > 0 ==>
          StaysUnder(w.site.limits.memoryBudget, w.volumes, w.instances, w'.volumes, w'.instances, None, Memory))
  }

  lemma KeepsStep(w: World, w': World)
    requires Keeps(w.site.limits, w.volumes, w.instances, w'.volumes, w'.instances)
    ensures QuotaStep(w, w')
  {
    hide StaysUnder;
  }

  /** Most calls leave what everybody holds alone. */
  lemma QuietStep(w: World, w': World)
    requires NothingAdded(w.volumes, w.instances, w'.volumes, w'.instances)
    ensures QuotaStep(w, w')
  {
    hide QuotaStep, NothingAdded;
    NothingAddedKeeps(w.site.limits, w.volumes, w.instances, w'.volumes, w'.instances);
    KeepsStep(w, w');
  }

  lemma NobodyHoldsAnything(limits: Limits)
    ensures Within(limits, map[], map[])
  {
    forall whose, m ensures Usage(map[], map[], whose, m) == 0 {
      assert InstanceHoldings(map[], whose, m) == map[] && VolumeHoldings(map[], whose, m) == map[];
    }
  }

  // -------------------------------------------------------------------- runs

  ghost predicate Step(w: World, e: Event, w': World) {
    RowsStep(w, w') && AttemptsCounted(w, e, w') && VmsStep(w, w') && QuotaStep(w, w') && PowersOwn(w, e)
  }

  /** A run starts within every limit and goes through safe states by legal steps;
      `es[k]` is the call that led to `h[k]`. */
  ghost predicate Run(h: seq<World>, es: seq<Event>) {
    && |h| == |es| > 0 && WithinLimits(h[0])
    && (forall k :: 0 <= k < |h| ==> Safe(h[k]))
    && (forall k :: 0 < k < |h| ==> Step(h[k - 1], es[k], h[k]))
  }

  /** Everything that has happened so far. */
  datatype Log = Log(states: seq<World>, events: seq<Event>)

  /** Nothing that has happened is forgotten. */
  ghost predicate Extends(a: Log, b: Log) { a.states <= b.states && a.events <= b.events }

  /** What has happened since a time has happened since an earlier one, and stays so. */
  lemma Happened(a: Log, b: Log, c: Log)
    requires Extends(a, b) && Extends(b, c)
    ensures |a.events| <= |b.events| <= |c.events|
    ensures forall e :: Since(c.events, |b.events|, e) ==> Since(c.events, |a.events|, e)
    ensures forall e :: Since(b.events, |a.events|, e) ==> Since(c.events, |a.events|, e)
  {
    forall e | Since(b.events, |a.events|, e) ensures Since(c.events, |a.events|, e) {
      var k :| |a.events| <= k < |b.events| && b.events[k] == e;
      assert c.events[k] == e;
    }
  }

  lemma StillSeen(a: Log, b: Log, since: nat, e: Event)
    requires Extends(a, b) && Since(a.events, since, e)
    ensures Since(b.events, since, e)
  {
    var k :| since <= k < |a.events| && a.events[k] == e;
    assert b.events[k] == e;
  }

  lemma JustHappened(es: seq<Event>, since: nat, e: Event)
    requires since <= |es|
    ensures Since(es + [e], since, e)
  {
    assert (es + [e])[|es|] == e;
  }

  lemma Extending()
    ensures forall a :: Extends(a, a)
    ensures forall a, b, c :: Extends(a, b) && Extends(b, c) ==> Extends(a, c)
  {
  }

  lemma StepSelf(w: World)
    ensures Step(w, Call, w)
  {
  }

  lemma RunGrows(h: seq<World>, es: seq<Event>, w: World, e: Event)
    requires Run(h, es) && Safe(w) && Step(h[|h| - 1], e, w)
    ensures Run(h + [w], es + [e])
  {
    hide Safe, Step, WithinLimits;
    var h', es' := h + [w], es + [e];
    forall k | 0 < k < |h'| ensures Step(h'[k - 1], es'[k], h'[k]) {
      if k < |h| {
        assert Step(h[k - 1], es[k], h[k]);
      }
    }
  }
}
