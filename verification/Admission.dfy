/** A launch, a create or an adoption as its caller sees it: things are looked up
    without the lock, anything at all may happen, and some are again under the lock. */
module Admission {
  import opened Types
  import opened CloudState
  import opened Quotas
  import opened History
  import opened Backends
  import opened VolumeRequests
  import opened InstanceRequests
  import opened Processing

  /** Exactly one row of the account has the token, this one, and it was asked for alike. */
  ghost predicate TheInstance(w: World, made: nat, account: AccountId, token: Option<Token>, hash: Hash) {
    && made in w.instances && w.instances[made].account == account && w.instances[made].token == token
         && w.instances[made].hash == hash
    && (token.Some? ==> forall j ::
         j in w.instances && w.instances[j].token == token && w.instances[j].account == account ==> j == made)
  }

  ghost predicate TheVolume(w: World, made: nat, account: AccountId, token: Option<Token>, hash: Hash) {
    && made in w.volumes && w.volumes[made].account == account && w.volumes[made].token == token
         && w.volumes[made].hash == hash
    && (token.Some? ==> forall b ::
         b in w.volumes && w.volumes[b].token == token && w.volumes[b].account == account ==> b == made)
  }

  /** Why there is no new instance: the account's token stands for something else, its limits or
      the budget are used up, no VMID is open, or the hypervisor did not answer. */
  ghost predicate NotRun(w: World, visible: set<VmId>, wanted: Instance, answered: bool, code: Code) {
    match code
    case TokenMismatch =>
      exists j :: j in w.instances && SameInstanceToken(w.instances[j], wanted) && w.instances[j].hash != wanted.hash
    case LimitExceeded => !InstanceAllowed(w.site.limits, w.volumes, w.instances, wanted)
    case NoCapacity => forall n :: !VmidOpen(w, visible, n)
    case Unavailable => !answered
    case _ => false
  }

  /** Whoever is answered with an instance has the one instance of that token, and a new one is
      as asked for. A caller that asked for something else with the token is refused, and one
      whose token is known is answered without anything being touched. */
  method RunInstance(
    c: Cloud, account: AccountId, token: Option<Token>, hash: Hash, vcpus: nat, memory: nat, rootDisk: nat)
    returns (made: Created)
    requires c.Valid()
    modifies c
    ensures Extends(old(c.Past()), c.Past())
    ensures c.Valid()
    ensures !made.NotMade? ==> TheInstance(c.Now(), made.id, account, token, hash)
    ensures made.Made? ==>
              && Asked(c.instances[made.id], account, token, hash, vcpus, memory, rootDisk)
              && c.instances[made.id].pending == Some(Launch) && !c.instances[made.id].adopted
    ensures made.NotMade? ==>
              NotRun(c.Now(), old(c.vms).Keys - c.site.outside,
                     FreshInstance(account, token, hash, vcpus, memory, rootDisk, 0),
                     c.trouble == old(c.trouble), made.code)
    ensures InstanceTokenTaken(old(c.Now()), account, token) ==>
              && c.Now() == old(c.Now()) && c.trouble == old(c.trouble)
              && (made.Same? || made == NotMade(TokenMismatch))
  {
    hide Extends, Run, Safe, InstanceAllowed, VmidOpen, NotRun, MayRun, InstanceTokenTaken;
    Extending();
    ghost var wanted := FreshInstance(account, token, hash, vcpus, memory, rootDisk, 0);
    var known := KnownInstance(c, account, token, hash, wanted, c.vms.Keys - c.site.outside);
    if known.Some? {
      return known.value;
    }
    var listed, read := c.ListVms();
    if !read.Ok? {
      Unanswered(c.Now(), old(c.vms).Keys - c.site.outside, wanted);
      return NotMade(Unavailable);
    }
    var pieces := AnyNat();
    Operate(c, pieces);
    made := RunLocked(c, account, token, hash, vcpus, memory, rootDisk, listed);
    if !made.NotMade? {
      OneInstanceOfToken(c.Now(), made.id);
    } else {
      WhyNotRun(c.Now(), listed, account, token, hash, vcpus, memory, rootDisk, c.trouble == old(c.trouble), made.code);
    }
  }

  lemma WhyNotRun(
    w: World, visible: set<VmId>, account: AccountId, token: Option<Token>, hash: Hash,
    vcpus: nat, memory: nat, rootDisk: nat, answered: bool, code: Code)
    requires !MayRun(w, visible, account, token, vcpus, memory, rootDisk)
    requires var wanted := FreshInstance(account, token, hash, vcpus, memory, rootDisk, 0);
             code == if InstanceTokenTaken(w, account, token) then TokenMismatch
                     else if !InstanceAllowed(w.site.limits, w.volumes, w.instances, wanted)
                     then LimitExceeded else NoCapacity
    requires code.TokenMismatch? ==>
               exists j :: j in w.instances && w.instances[j].token == token && w.instances[j].account == account
                 && w.instances[j].hash != hash
    ensures NotRun(w, visible, FreshInstance(account, token, hash, vcpus, memory, rootDisk, 0), answered, code)
  {
    hide InstanceAllowed;
    var wanted := FreshInstance(account, token, hash, vcpus, memory, rootDisk, 0);
    SameWeight(w.site.limits, w.volumes, w.instances, wanted, wanted.(hash := 0));
    if code.TokenMismatch? {
      var j :| j in w.instances && w.instances[j].token == token && w.instances[j].account == account
               && w.instances[j].hash != hash;
      assert SameInstanceToken(w.instances[j], wanted);
    }
  }

  lemma Unanswered(w: World, visible: set<VmId>, wanted: Instance)
    ensures NotRun(w, visible, wanted, false, Unavailable)
  {
  }

  /** Whether the token stands for an instance already, and then for this one. */
  method KnownInstance(
    c: Cloud, account: AccountId, token: Option<Token>, hash: Hash, ghost wanted: Instance, ghost visible: set<VmId>)
    returns (known: Option<Created>)
    requires c.Valid() && wanted.account == account && wanted.token == token && wanted.hash == hash
    ensures known.Some? <==> InstanceTokenTaken(c.Now(), account, token)
    ensures known.Some? ==>
              match known.value
              case Same(i) => TheInstance(c.Now(), i, account, token, hash)
              case NotMade(code) => code.TokenMismatch? && NotRun(c.Now(), visible, wanted, true, code)
              case Made(_) => false
  {
    hide Run, Safe;
    if token.Some? {
      var existing := FindInstanceToken(c, account, token);
      if existing.Some? {
        OneInstanceOfToken(c.Now(), existing.value);
        if c.instances[existing.value].hash != hash {
          assert SameInstanceToken(c.instances[existing.value], wanted);
          return Some(NotMade(TokenMismatch));
        }
        return Some(Same(existing.value));
      }
    }
    return None;
  }

  lemma OneInstanceOfToken(w: World, i: nat)
    requires Safe(w) && i in w.instances
    ensures TheInstance(w, i, w.instances[i].account, w.instances[i].token, w.instances[i].hash)
  {
    hide HypervisorOK, HolderSlotsOK, VolumesOK, InstanceOK;
  }

  /** Why there is no new volume: the request is not valid, the account's token stands for
      something else, its limits are used up or the holder has no slot for one more. */
  ghost predicate NotCreated(
    w: World, account: AccountId, token: Option<Token>, hash: Hash, tier: Tier, size: nat, code: Code)
  {
    match code
    case InvalidParameter => !VolumeValid(w.site, tier, size)
    case TokenMismatch =>
      exists b :: b in w.volumes && w.volumes[b].token == token && w.volumes[b].account == account
        && w.volumes[b].hash != hash
    case LimitExceeded => !VolumeAllowed(w.site.limits, w.volumes, w.instances, account, 1, size)
    case NoCapacity => |LiveVolumeIds(w)| >= 256
    case _ => false
  }

  predicate VolumeValid(site: Site, tier: Tier, size: nat) {
    site.limits.volumeMin <= size <= site.limits.volumeMax && tier in site.tiers
  }

  /** The same for a volume. */
  method CreateVolume(c: Cloud, account: AccountId, token: Option<Token>, hash: Hash, tier: Tier, size: nat)
    returns (made: Created)
    requires c.Valid()
    modifies c
    ensures Extends(old(c.Past()), c.Past())
    ensures c.Valid()
    ensures !made.NotMade? ==> VolumeValid(c.site, tier, size) && TheVolume(c.Now(), made.id, account, token, hash)
    ensures made.Made? ==>
              var v := c.volumes[made.id];
              v.size == size && v.tier == tier && v.pending == Some(Create) && v.loc == NOWHERE
    ensures made.NotMade? ==> NotCreated(c.Now(), account, token, hash, tier, size, made.code)
    ensures !VolumeValid(c.site, tier, size) ==> c.Now() == old(c.Now()) && made == NotMade(InvalidParameter)
    ensures VolumeValid(c.site, tier, size) && TokenTaken(old(c.Now()), account, token) ==>
              c.Now() == old(c.Now()) && (made.Same? || made == NotMade(TokenMismatch))
  {
    hide Extends, Run, Safe, VolumeAllowed;
    Extending();
    if size < c.site.limits.volumeMin || size > c.site.limits.volumeMax || tier !in c.site.tiers {
      return NotMade(InvalidParameter);
    }
    if token.Some? {
      var existing := FindToken(c, account, token);
      if existing.Some? {
        OneVolumeOfToken(c.Now(), existing.value);
        return if c.volumes[existing.value].hash == hash then Same(existing.value) else NotMade(TokenMismatch);
      }
    }
    var pieces := AnyNat();
    Operate(c, pieces);
    made := CreateVolumeLocked(c, account, token, hash, tier, size);
    if !made.NotMade? {
      OneVolumeOfToken(c.Now(), made.id);
    }
  }

  lemma OneVolumeOfToken(w: World, id: nat)
    requires Safe(w) && id in w.volumes
    ensures TheVolume(w, id, w.volumes[id].account, w.volumes[id].token, w.volumes[id].hash)
  {
    hide HypervisorOK, HolderSlotsOK, InstancesOK, VolumeOK;
  }

  /** Why a VM is not adopted: the cloud reserves it or there is none of that number, it is not
      in the pool, a live instance has it, it is neither running nor stopped, the account's
      limits are used up, or the hypervisor did not answer. */
  ghost predicate NotAdopted(
    w: World, visible: set<VmId>, vmid: VmId, status: Status, wanted: Instance, answered: bool, code: Code)
  {
    match code
    case InvalidParameter => Reserved(w.site, vmid)
    case NotFound => vmid !in visible
    case AlreadyAdopted => VmidHeld(w, vmid)
    case IncorrectInstanceState => status.Unclear?
    case LimitExceeded => !InstanceAllowed(w.site.limits, w.volumes, w.instances, wanted)
    case Unavailable => !answered || vmid !in w.vms
    case _ => false
  }

  predicate Reserved(site: Site, vmid: VmId) { vmid <= 0 || vmid == site.holder || vmid in site.probes }

  /** Adopting a VM: it is looked at, anything at all may happen, the worker deleting it
      included, and the row is written if by then no other live one holds its VMID. `status` is
      what its own status was when it was read. */
  method Adopt(c: Cloud, account: AccountId, vmid: VmId, status: Status, vcpus: nat, memory: nat, rootDisk: nat)
    returns (made: Created)
    requires c.Valid()
    modifies c
    ensures Extends(old(c.Past()), c.Past())
    ensures c.Valid()
    ensures made.Made? ==>
              && !Reserved(c.site, vmid) && vmid in old(c.vms) && vmid !in c.site.outside && !status.Unclear?
              && TheAdopted(c.Now(), made.id, account, vmid, status.Up?, vcpus, memory, rootDisk)
    ensures made.NotMade? ==>
              NotAdopted(c.Now(), old(c.vms).Keys - c.site.outside, vmid, status,
                         AdoptedInstance(account, vmid, status.Up?, vcpus, memory, rootDisk),
                         c.trouble == old(c.trouble), made.code)
    ensures !made.Same?
  {
    hide Extends, Run, Safe, TheAdopted, VmidHeld, InstanceAllowed;
    Extending();
    ghost var wanted := AdoptedInstance(account, vmid, status.Up?, vcpus, memory, rootDisk);
    var refused := SizeUp(c, vmid, status, wanted);
    if refused.Some? {
      return NotMade(refused.value);
    }
    var pieces := AnyNat();
    Operate(c, pieces);
    ghost var w := c.Now();
    made := AdoptLocked(c, account, vmid, status.Up?, vcpus, memory, rootDisk);
    if made.Made? {
      AdoptedAlone(w, c.Now(), made.id, account, vmid, status.Up?, vcpus, memory, rootDisk);
    }
  }

  /** What speaks against it before the commit: first sight, and then its config and status. */
  method SizeUp(c: Cloud, vmid: VmId, status: Status, ghost wanted: Instance) returns (refused: Option<Code>)
    requires c.Valid()
    modifies c
    ensures Extends(old(c.Past()), c.Past())
    ensures c.Valid() && c.trouble >= old(c.trouble)
    ensures refused.None? ==>
              !Reserved(c.site, vmid) && vmid in old(c.vms) && vmid !in c.site.outside && !status.Unclear?
    ensures refused.None? ==> vmid in c.vms
    ensures refused.Some? ==>
              NotAdopted(c.Now(), old(c.vms).Keys - c.site.outside, vmid, status, wanted,
                         c.trouble == old(c.trouble), refused.value)
  {
    hide Extends, Run, Safe, VmidHeld, InstanceAllowed;
    Extending();
    refused := LookForVm(c, vmid);
    if refused.Some? {
      return;
    }
    var pieces := AnyNat();
    Operate(c, pieces);
    var _, read := c.VmConfig(vmid);
    if !read.Ok? {
      return Some(Unavailable);
    }
    if status.Unclear? {
      return Some(IncorrectInstanceState);
    }
  }

  /** What speaks against adopting this VM at first sight. */
  method LookForVm(c: Cloud, vmid: VmId) returns (refused: Option<Code>)
    modifies c`trouble
    ensures refused.None? ==> c.trouble == old(c.trouble)
    ensures c.trouble == old(c.trouble) ==>
              refused == if Reserved(c.site, vmid) then Some(InvalidParameter)
                         else if vmid !in c.vms || vmid in c.site.outside then Some(NotFound)
                         else if VmidHeld(c.Now(), vmid) then Some(AlreadyAdopted) else None
    ensures c.trouble != old(c.trouble) ==> c.trouble > old(c.trouble) && refused == Some(Unavailable)
  {
    if vmid <= 0 || vmid == c.site.holder || vmid in c.site.probes {
      return Some(InvalidParameter);
    }
    var listed, read := c.ListVms();
    if !read.Ok? {
      return Some(Unavailable);
    }
    if vmid !in listed {
      return Some(NotFound);
    }
    if exists j :: j in c.instances && LiveInstance(c.instances[j]) && c.instances[j].vmid == Some(vmid) {
      return Some(AlreadyAdopted);
    }
    return None;
  }

  /** The row is the adopted VM's, and no other live row has its VMID. */
  ghost predicate TheAdopted(
    w: World, made: nat, account: AccountId, vmid: VmId, running: bool, vcpus: nat, memory: nat, rootDisk: nat)
  {
    && made in w.instances
    && Asked(w.instances[made], account, None, 0, vcpus, memory, rootDisk)
    && w.instances[made].adopted && w.instances[made].vmCreated && w.instances[made].vmid == Some(vmid)
    && w.instances[made].state == (if running then Running else Stopped) && w.instances[made].pending.None?
    && forall j :: j in w.instances && LiveInstance(w.instances[j]) && w.instances[j].vmid == Some(vmid) ==> j == made
  }

  lemma AdoptedAlone(
    w: World, w': World, i: nat,
    account: AccountId, vmid: VmId, running: bool, vcpus: nat, memory: nat, rootDisk: nat)
    requires w' == SetInstance(w, i, AdoptedInstance(account, vmid, running, vcpus, memory, rootDisk)) && Safe(w')
    ensures TheAdopted(w', i, account, vmid, running, vcpus, memory, rootDisk)
  {
    hide HypervisorOK, HolderSlotsOK, VolumesOK, InstanceOK;
  }
}
