/** Everybody but the worker, between any two of its calls: any number of users'
    requests and corrections by the reconciler, with any arguments. */
module Interference {
  import opened Types
  import opened Progress
  import opened History
  import opened Backends
  import opened VolumeRequests
  import opened InstanceRequests

  datatype Request =
    | ForVolume(id: VolumeId, authorized: bool, volumeAsk: VolumeAsk)
    | ForInstance(i: InstanceId, authorized: bool, action: InstanceAction)
    | NewVolume(account: AccountId, token: Option<Token>, hash: Hash, tier: Tier, size: nat)
    | Launching(
        account: AccountId, token: Option<Token>, hash: Hash, vcpus: nat, memory: nat, rootDisk: nat,
        visible: set<VmId>)
    | Adopting(account: AccountId, vmid: VmId, running: bool, vcpus: nat, memory: nat, rootDisk: nat)
    | Reconciling(i: InstanceId, wasRunning: bool, running: bool)

  datatype VolumeAsk = ToDelete | ToDetach | ToGrow(size: nat) | ToAttach(instance: InstanceId, device: Option<nat>)

  method Others(c: Cloud)
    requires c.Valid()
    modifies c
    ensures Extends(old(c.Past()), c.Past())
    ensures c.Valid() && Rely(old(c.Now()), c.Now())
    ensures c.trouble == old(c.trouble) && c.unrecorded == old(c.unrecorded)
  {
    hide Extends, Rely, Run;
    Extending();
    RelySelf(c.Now());
    var more := AnyNat();
    while more > 0
      invariant Extends(old(c.Past()), c.Past())
      invariant c.Valid() && Rely(old(c.Now()), c.Now())
      invariant c.trouble == old(c.trouble) && c.unrecorded == old(c.unrecorded)
    {
      ghost var w := c.Now();
      var request: Request := *;
      Serve(c, request);
      RelyTrans(old(c.Now()), w, c.Now());
      more := more - 1;
    }
  }

  method Serve(c: Cloud, request: Request)
    requires c.Valid()
    modifies c
    ensures Extends(old(c.Past()), c.Past())
    ensures c.Valid() && Rely(old(c.Now()), c.Now())
    ensures c.trouble == old(c.trouble) && c.unrecorded == old(c.unrecorded)
  {
    hide Extends, Rely, Run;
    Extending();
    match request {
      case ForVolume(id, authorized, ask) => ServeVolume(c, id, authorized, ask);
      case ForInstance(i, authorized, action) =>
        var _ := RequestAction(c, i, action, authorized);
      case NewVolume(account, token, hash, tier, size) =>
        var _ := CreateVolumeLocked(c, account, token, hash, tier, size);
      case Launching(account, token, hash, vcpus, memory, rootDisk, visible) =>
        var _ := RunLocked(c, account, token, hash, vcpus, memory, rootDisk, visible);
      case Adopting(account, vmid, running, vcpus, memory, rootDisk) =>
        // A VM outside the pool, or one the cloud reserves, does not get past the first look.
        if vmid != c.site.holder && vmid !in c.site.probes && vmid !in c.site.outside {
          var _ := AdoptLocked(c, account, vmid, running, vcpus, memory, rootDisk);
        } else {
          RelySelf(c.Now());
        }
      case Reconciling(i, wasRunning, running) =>
        Observe(c, i, if wasRunning then Running else Stopped, if running then Running else Stopped);
    }
  }

  method ServeVolume(c: Cloud, id: VolumeId, authorized: bool, ask: VolumeAsk)
    requires c.Valid()
    modifies c
    ensures Extends(old(c.Past()), c.Past())
    ensures c.Valid() && Rely(old(c.Now()), c.Now())
    ensures c.trouble == old(c.trouble) && c.unrecorded == old(c.unrecorded)
  {
    hide Extends, Rely, Run;
    Extending();
    match ask {
      case ToDelete =>
        var _ := DeleteVolume(c, id, authorized);
      case ToDetach =>
        var _ := DetachVolume(c, id, authorized);
      case ToGrow(size) =>
        var _ := ModifyVolume(c, id, size, authorized);
      case ToAttach(instance, device) =>
        var _, _ := AttachVolume(c, id, instance, device, authorized);
    }
  }
}
