/** What users ask of volumes. Each request is one transaction: it checks the
    locked rows and either records the request or refuses and changes nothing. */
module VolumeRequests {
  import opened Types
  import opened Rows
  import opened CloudState
  import opened DiskLemmas
  import opened RowLemmas
  import opened Progress
  import opened Quotas
  import opened History
  import opened Backends
  import opened Steps

  // ------------------------------------------------------------------ delete

  predicate DeletedAlready(v: Volume) { v.state.Deleted? || v.pending == Some(Delete) }

  method DeleteVolume(c: Cloud, id: VolumeId, authorized: bool) returns (reply: Reply)
    requires c.Valid()
    modifies c
    ensures Extends(old(c.Past()), c.Past())
    ensures c.Valid() && Rely(old(c.Now()), c.Now())
    ensures c.trouble == old(c.trouble) && c.unrecorded == old(c.unrecorded)
    ensures reply.Refused? ==> c.Now() == old(c.Now())
    ensures reply.Granted? <==>
              && id in old(c.volumes) && authorized
              && var v := old(c.volumes)[id];
                 || DeletedAlready(v)
                 || (v.instance.None? && v.pending.None? && (v.state.Available? || v.state.VolumeError?))
    ensures reply.Refused? ==>
              reply.code == if id !in old(c.volumes) || !authorized then NotFound
                            else if old(c.volumes)[id].instance.Some? then VolumeInUse else IncorrectState
    ensures reply.Granted? ==>
              c.Now() == if DeletedAlready(old(c.volumes)[id]) then old(c.Now())
                         else SetVolume(old(c.Now()), id,
                                        old(c.volumes)[id].(state := Deleting, pending := Some(Delete), attempts := 0))
  {
    hide Extends, Safe, QuotaStep, Step, Follows, Rely;
    Extending();
    ghost var w := c.Now();
    RelySelf(w);
    if id !in c.volumes || !authorized {
      return Refused(NotFound);
    }
    var v := c.volumes[id];
    if v.state.Deleted? || v.pending == Some(Delete) {
      return Granted;
    } else if v.instance.Some? {
      return Refused(VolumeInUse);
    } else if (!v.state.Available? && !v.state.VolumeError?) || v.pending.Some? {
      return Refused(IncorrectState);
    }
    RequestsSafe(w, id, 0);
    LighterRow(w, id, RequestDelete(v));
    RequestFollows(w, id, RequestDelete(v));
    RelyStep(w, SetVolume(w, id, RequestDelete(v)));
    CommitVolume(c, id, RequestDelete(v));
    return Granted;
  }

  lemma RelySelf(w: World)
    ensures Rely(w, w)
  {
    FollowsSelf(w, {});
  }

  /** A request to a volume with nothing pending is what others may do meanwhile. */
  lemma RequestFollows(w: World, id: VolumeId, v': Volume)
    requires LiveRow(w, id) && w.volumes[id].pending.None? && LiveVolume(v')
    requires var v := w.volumes[id];
             && v'.account == v.account && v'.token == v.token && v'.hash == v.hash
             && v'.tier == v.tier && v'.loc == v.loc
    requires w.volumes[id].instance.Some? ==> v'.instance == w.volumes[id].instance && v'.device == w.volumes[id].device
    requires v'.instance.Some? && v'.instance.value in w.instances && v'.instance != w.volumes[id].instance ==>
               !Leaving(w.instances[v'.instance.value])
    ensures Rely(w, SetVolume(w, id, v'))
  {
  }

  /** A row that weighs no more keeps every limit. */
  lemma LighterRow(w: World, id: VolumeId, v': Volume)
    requires LiveRow(w, id) && v'.account == w.volumes[id].account && v'.size <= w.volumes[id].size
    ensures QuotaStep(w, SetVolume(w, id, v'))
  {
    hide QuotaStep;
    QuietStep(w, SetVolume(w, id, v'));
  }

  // ------------------------------------------------------------------ detach

  method DetachVolume(c: Cloud, id: VolumeId, authorized: bool) returns (reply: Reply)
    requires c.Valid()
    modifies c
    ensures Extends(old(c.Past()), c.Past())
    ensures c.Valid() && Rely(old(c.Now()), c.Now())
    ensures c.trouble == old(c.trouble) && c.unrecorded == old(c.unrecorded)
    ensures reply.Refused? ==> c.Now() == old(c.Now())
    ensures reply.Granted? <==>
              && id in old(c.volumes) && authorized
              && var v := old(c.volumes)[id];
                 v.pending == Some(Detach) || (v.pending.None? && v.attachment == Some(Attached))
    ensures reply.Refused? ==>
              reply.code == if id !in old(c.volumes) || !authorized then NotFound else IncorrectState
    ensures reply.Granted? ==>
              c.Now() == if old(c.volumes)[id].pending == Some(Detach) then old(c.Now())
                         else SetVolume(old(c.Now()), id,
                                        old(c.volumes)[id].(attachment := Some(Detaching), pending := Some(Detach),
                                                            attempts := 0))
    ensures reply.Granted? ==> id in c.volumes && c.volumes[id].instance.Some?
  {
    hide Extends, Safe, QuotaStep, Step, Follows, Rely;
    Extending();
    ghost var w := c.Now();
    RelySelf(w);
    if id !in c.volumes || !authorized {
      return Refused(NotFound);
    }
    var v := c.volumes[id];
    SafeVolume(w, id);
    if v.pending == Some(Detach) {
      return Granted;
    } else if v.instance.None? {
      return Refused(IncorrectState);
    } else if v.attachment != Some(Attached) || v.pending.Some? {
      return Refused(IncorrectState);
    }
    RequestsSafe(w, id, 0);
    LighterRow(w, id, RequestDetach(v));
    RequestFollows(w, id, RequestDetach(v));
    RelyStep(w, SetVolume(w, id, RequestDetach(v)));
    CommitVolume(c, id, RequestDetach(v));
    return Granted;
  }

  // ------------------------------------------------------------------ modify

  predicate Idle(v: Volume) { (v.state.Available? || v.state.InUse?) && v.pending.None? }

  /** An idle volume may only grow, up to the largest size and the account's share. */
  ghost predicate MayGrow(w: World, id: VolumeId, size: nat) {
    && id in w.volumes
    && var v := w.volumes[id];
       && Idle(v)
       && v.size < size <= w.site.limits.volumeMax
       && VolumeAllowed(w.site.limits, w.volumes, w.instances, v.account, 0, size - v.size)
  }

  method ModifyVolume(c: Cloud, id: VolumeId, size: nat, authorized: bool) returns (reply: Reply)
    requires c.Valid()
    modifies c
    ensures Extends(old(c.Past()), c.Past())
    ensures c.Valid() && Rely(old(c.Now()), c.Now())
    ensures c.trouble == old(c.trouble) && c.unrecorded == old(c.unrecorded)
    ensures reply.Refused? ==> c.Now() == old(c.Now())
    ensures reply.Granted? <==> authorized && MayGrow(old(c.Now()), id, size)
    ensures reply.Refused? ==>
              reply.code == if size > c.site.limits.volumeMax then InvalidParameter
                            else if id !in old(c.volumes) || !authorized then NotFound
                            else if !Idle(old(c.volumes)[id]) then IncorrectState
                            else if size <= old(c.volumes)[id].size then InvalidParameter else LimitExceeded
    ensures reply.Granted? ==>
              c.Now() == SetVolume(old(c.Now()), id,
                                   old(c.volumes)[id].(size := size, pending := Some(Resize), attempts := 0))
  {
    hide Extends, Safe, QuotaStep, Step, Follows, Rely, VolumeAllowed;
    Extending();
    ghost var w := c.Now();
    RelySelf(w);
    if size > c.site.limits.volumeMax {
      return Refused(InvalidParameter);
    }
    if id !in c.volumes || !authorized {
      return Refused(NotFound);
    }
    var v := c.volumes[id];
    if (!v.state.Available? && !v.state.InUse?) || v.pending.Some? {
      return Refused(IncorrectState);
    }
    if size <= v.size {
      return Refused(InvalidParameter);
    }
    var allowed := CheckVolumeQuota(c.site.limits, c.volumes, c.instances, v.account, 0, size - v.size);
    if !allowed {
      return Refused(LimitExceeded);
    }
    RequestsSafe(w, id, size);
    AdmittedRow(w, id, RequestResize(v, size));
    RequestFollows(w, id, RequestResize(v, size));
    RelyStep(w, SetVolume(w, id, RequestResize(v, size)));
    CommitVolume(c, id, RequestResize(v, size));
    return Granted;
  }

  /** A row admitted by the quota check keeps every limit. */
  lemma AdmittedRow(w: World, id: VolumeId, v': Volume)
    requires LiveVolume(v')
    requires id in w.volumes ==>
               LiveVolume(w.volumes[id]) && v'.account == w.volumes[id].account && w.volumes[id].size <= v'.size
    requires VolumeAllowed(w.site.limits, w.volumes, w.instances, v'.account, if id in w.volumes then 0 else 1,
                           if id in w.volumes then v'.size - w.volumes[id].size else v'.size)
    ensures QuotaStep(w, SetVolume(w, id, v'))
  {
    hide QuotaStep, Keeps;
    VolumeAdmitted(w.site.limits, w.volumes, w.instances, id, v');
    KeepsStep(w, SetVolume(w, id, v'));
  }

  // ------------------------------------------------------------------ create

  ghost predicate TokenTaken(w: World, account: AccountId, token: Option<Token>) {
    token.Some? && exists b :: b in w.volumes && w.volumes[b].token == token && w.volumes[b].account == account
  }

  /** The part of a create under the capacity lock: the token is looked up again. */
  method CreateVolumeLocked(c: Cloud, account: AccountId, token: Option<Token>, hash: Hash, tier: Tier, size: nat)
    returns (made: Created)
    requires c.Valid()
    modifies c
    ensures Extends(old(c.Past()), c.Past())
    ensures c.Valid() && Rely(old(c.Now()), c.Now())
    ensures c.trouble == old(c.trouble) && c.unrecorded == old(c.unrecorded)
    ensures made.Made? <==>
              && !TokenTaken(old(c.Now()), account, token)
              && VolumeAllowed(c.site.limits, old(c.volumes), old(c.instances), account, 1, size)
              && |LiveVolumeIds(old(c.Now()))| < 256
    ensures made.NotMade? ==>
              made.code == if TokenTaken(old(c.Now()), account, token) then TokenMismatch
                           else if !VolumeAllowed(c.site.limits, old(c.volumes), old(c.instances), account, 1, size)
                           then LimitExceeded else NoCapacity
    ensures !made.Made? ==> c.Now() == old(c.Now())
    ensures made.Made? ==>
              && made.id !in old(c.volumes) && !TokenTaken(old(c.Now()), account, token)
              && VolumeAllowed(c.site.limits, old(c.volumes), old(c.instances), account, 1, size)
              && |LiveVolumeIds(old(c.Now()))| < 256
              && made.id in c.volumes && c.Now() == SetVolume(old(c.Now()), made.id, c.volumes[made.id])
              && var v := c.volumes[made.id];
                 && v.account == account && v.token == token && v.hash == hash && v.tier == tier && v.size == size
                 && v.state.Creating? && v.pending == Some(Create) && v.attempts == 0
                 && v.instance.None? && v.device.None? && v.attachment.None? && v.loc == NOWHERE
    ensures made.Same? ==>
              && token.Some? && made.id in c.volumes && c.volumes[made.id].token == token
              && c.volumes[made.id].account == account && c.volumes[made.id].hash == hash
    ensures made == NotMade(TokenMismatch) ==>
              exists b :: b in c.volumes && c.volumes[b].token == token && c.volumes[b].account == account
                && c.volumes[b].hash != hash
  {
    hide Extends, Safe, QuotaStep, Step, Follows, Rely, VolumeAllowed;
    Extending();
    ghost var w := c.Now();
    RelySelf(w);
    if token.Some? {
      var existing := FindToken(c, account, token);
      if existing.Some? {
        return if c.volumes[existing.value].hash == hash then Same(existing.value) else NotMade(TokenMismatch);
      }
    }
    var allowed := CheckVolumeQuota(c.site.limits, c.volumes, c.instances, account, 1, size);
    if !allowed {
      return NotMade(LimitExceeded);
    }
    var live := set b | b in c.volumes && LiveVolume(c.volumes[b]);
    assert live == LiveVolumeIds(w);
    if |live| >= HOLDER_SLOTS {
      return NotMade(NoCapacity);
    }
    SomeNatOutside(c.volumes.Keys);
    var id :| id !in c.volumes.Keys;
    var v := FreshVolume(account, token, hash, tier, size);
    InsertVolumeSafe(w, id, v);
    AdmittedRow(w, id, v);
    NewRowFollows(w, id, v);
    RelyStep(w, SetVolume(w, id, v));
    CommitVolume(c, id, v);
    return Made(id);
  }

  /** The storage asked for when none is named. */
  const SSD: Tier := 0

  function FreshVolume(account: AccountId, token: Option<Token>, hash: Hash, tier: Tier, size: nat): Volume {
    Volume(account, token, hash, tier, size, Creating, None, None, None, Some(Create), 0, NOWHERE)
  }

  lemma NewRowFollows(w: World, id: VolumeId, v: Volume)
    requires id !in w.volumes && v.loc == NOWHERE && v.instance.None?
    ensures Rely(w, SetVolume(w, id, v))
  {
  }

  method FindToken(c: Cloud, account: AccountId, token: Option<Token>) returns (found: Option<VolumeId>)
    requires token.Some?
    ensures found.Some? ==>
              && found.value in c.volumes && c.volumes[found.value].token == token
              && c.volumes[found.value].account == account
    ensures found.None? ==> !TokenTaken(c.Now(), account, token)
  {
    if b :| b in c.volumes && c.volumes[b].token == token && c.volumes[b].account == account {
      found := Some(b);
    } else {
      found := None;
    }
  }

  // ------------------------------------------------------------------ attach

  ghost predicate DeviceTaken(w: World, i: InstanceId, n: nat) {
    exists b :: b in w.volumes && w.volumes[b].instance == Some(i) && w.volumes[b].device == Some(n)
  }

  predicate Attachable(w: World, id: VolumeId, i: InstanceId) {
    && id in w.volumes && i in w.instances
    && w.volumes[id].state.Available? && w.volumes[id].pending.None? && w.volumes[id].instance.None?
    && w.instances[i].account == w.volumes[id].account
    && (w.instances[i].state.Running? || w.instances[i].state.Stopped?) && w.instances[i].pending.None?
  }

  /** Why an attach is refused: the first thing that does not hold. */
  ghost function Refusal(w: World, id: VolumeId, i: InstanceId, asked: Option<nat>, authorized: bool): Code {
    if asked.Some? && !(1 <= asked.value <= 15) then InvalidParameter
    else if id !in w.volumes || !authorized then NotFound
    else if !w.volumes[id].state.Available? || w.volumes[id].pending.Some? || w.volumes[id].instance.Some?
    then IncorrectState
    else if i !in w.instances then NotFound
    else if w.instances[i].account != w.volumes[id].account then OtherAccount
    else if (!w.instances[i].state.Running? && !w.instances[i].state.Stopped?) || w.instances[i].pending.Some?
    then IncorrectInstanceState
    else if asked.None? then AttachmentLimit else InvalidParameter
  }

  method AttachVolume(c: Cloud, id: VolumeId, i: InstanceId, asked: Option<nat>, authorized: bool)
    returns (reply: Reply, device: nat)
    requires c.Valid()
    modifies c
    ensures Extends(old(c.Past()), c.Past())
    ensures c.Valid() && Rely(old(c.Now()), c.Now())
    ensures c.trouble == old(c.trouble) && c.unrecorded == old(c.unrecorded)
    ensures reply.Refused? ==> c.Now() == old(c.Now()) && reply.code == Refusal(old(c.Now()), id, i, asked, authorized)
    ensures reply.Granted? ==>
              && authorized && Attachable(old(c.Now()), id, i)
              && 1 <= device <= 15 && !DeviceTaken(old(c.Now()), i, device)
              && (asked.Some? ==> device == asked.value)
              && (asked.None? ==> forall n :: 1 <= n < device ==> DeviceTaken(old(c.Now()), i, n))
              && c.Now() == SetVolume(old(c.Now()), id,
                                      old(c.volumes)[id].(instance := Some(i), device := Some(device),
                                                          attachment := Some(Attaching), pending := Some(Attach),
                                                          attempts := 0))
    ensures reply.Granted? <==>
              && authorized && Attachable(old(c.Now()), id, i)
              && if asked.Some? then 1 <= asked.value <= 15 && !DeviceTaken(old(c.Now()), i, asked.value)
                 else exists n :: 1 <= n <= 15 && !DeviceTaken(old(c.Now()), i, n)
  {
    hide Extends, Safe, QuotaStep, Step, Follows, Rely;
    Extending();
    ghost var w := c.Now();
    RelySelf(w);
    device := 0;
    if asked.Some? && !(1 <= asked.value <= LAST_DEVICE) {
      return Refused(InvalidParameter), device;
    }
    if id !in c.volumes || !authorized {
      return Refused(NotFound), device;
    }
    var v := c.volumes[id];
    if !v.state.Available? || v.pending.Some? || v.instance.Some? {
      return Refused(IncorrectState), device;
    }
    if i !in c.instances {
      return Refused(NotFound), device;
    }
    var inst := c.instances[i];
    if inst.account != v.account {
      return Refused(OtherAccount), device;
    }
    if (!inst.state.Running? && !inst.state.Stopped?) || inst.pending.Some? {
      return Refused(IncorrectInstanceState), device;
    }
    var used := UsedDevices(c, i);
    if asked.None? {
      var n := 1;
      while n <= LAST_DEVICE && device == 0
        invariant Extends(old(c.Past()), c.Past())
        invariant 1 <= n <= LAST_DEVICE + 1
        invariant device == 0 ==> forall k :: 1 <= k < n ==> k in used
        invariant device != 0 ==>
                    1 <= device <= LAST_DEVICE && device !in used && forall k :: 1 <= k < device ==> k in used
        decreases LAST_DEVICE + 1 - n, device == 0
      {
        if n !in used {
          device := n;
        }
        n := n + 1;
      }
      if device == 0 {
        return Refused(AttachmentLimit), device;
      }
    } else {
      device := asked.value;
      if device in used {
        return Refused(InvalidParameter), device;
      }
    }
    RequestAttachSafe(w, id, i, device);
    LighterRow(w, id, RequestAttach(v, i, device));
    RequestFollows(w, id, RequestAttach(v, i, device));
    RelyStep(w, SetVolume(w, id, RequestAttach(v, i, device)));
    CommitVolume(c, id, RequestAttach(v, i, device));
    return Granted, device;
  }

  /** The devices of an instance's volumes, gathered one volume at a time. */
  method UsedDevices(c: Cloud, i: InstanceId) returns (used: set<nat>)
    ensures forall n :: n in used <==> DeviceTaken(c.Now(), i, n)
  {
    var rest := set b | b in c.volumes && c.volumes[b].instance == Some(i);
    used := {};
    while rest != {}
      invariant rest <= set b | b in c.volumes && c.volumes[b].instance == Some(i)
      invariant forall n :: n in used ==> DeviceTaken(c.Now(), i, n)
      invariant forall b ::
                  b in c.volumes && c.volumes[b].instance == Some(i) && b !in rest && c.volumes[b].device.Some?
                  ==> c.volumes[b].device.value in used
      decreases |rest|
    {
      var b :| b in rest;
      if c.volumes[b].device.Some? {
        used := used + {c.volumes[b].device.value};
      }
      rest := rest - {b};
    }
  }
}
