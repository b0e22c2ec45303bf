/** One attempt at an instance's pending action, and the worker as a whole. */
module Processing {
  import opened Types
  import opened Rows
  import opened CloudState
  import opened DiskLemmas
  import opened RowLemmas
  import opened InstanceLemmas
  import opened Progress
  import opened History
  import opened Backends
  import opened Steps
  import opened Interference
  import opened VolumeWorker
  import opened InstanceWorker
  import opened Termination

  /** What an instance's VM is to be told, at first; a reboot that fails is tried again as a reset. */
  function OpOf(action: InstanceAction): PowerOp {
    match action
    case Stop => ShutDown
    case Reboot => Restart
    case _ => TurnOn
  }

  /** Starting, stopping or rebooting, on a VM that is there and the instance's; no other VM
      is ever told anything. One that is running is not started, nor a stopped one stopped; and
      before it is, it is told whether to start with the host. */
  method Powering(c: Cloud, i: InstanceId, inst: Instance, op: PowerOp) returns (r: Outcome)
    requires c.Valid() && Still(c.Now(), i, inst) && inst.pending.Some? && !op.Halt?
    modifies c
    ensures Extends(old(c.Past()), c.Past())
    ensures c.Valid() && Still(c.Now(), i, inst)
    ensures r.Ok? ==> inst.vmCreated && HasVm(c.Now(), i)
    ensures r.Ok? ==> inst.vmid.Some? && PowerDone(c.events, |old(c.events)|, inst.vmid.value, op)
    ensures r.Ok? && (op.TurnOn? || op.ShutDown?) ==>
              Since(c.events, |old(c.events)|, StartsWithHost(inst.vmid.value, op.TurnOn?))
    ensures r.Ok? || CallFailed(r)
    ensures c.vms == old(c.vms)
    ensures c.trouble == old(c.trouble) && inst.vmCreated && HasVm(old(c.Now()), i) ==> r.Ok?
    ensures Accounted(old(c.trouble), old(c.unrecorded), c, r)
  {
    hide Extends, Safe, Run, Rely, InstanceFollows, Since;
    Extending();
    IsItsVm(c.Now(), i, inst);
    if inst.vmid.None? || !inst.vmCreated {
      return Err(Failed);
    }
    PauseFor(c, i, inst);
    OwnIsListed(c.Now(), i);
    IsItsVm(c.Now(), i, inst);
    var listed;
    listed, r := c.ListVms();
    if !r.Ok? {
      return r;
    }
    if inst.vmid.value !in listed {
      return Err(Failed);
    }
    ghost var past := c.Past();
    var running := SeeRunning(c, inst.vmid.value);
    JustHappened(past.events, |past.events|, Shown(inst.vmid.value, running));
    Happened(old(c.Past()), past, c.Past());
    past := c.Past();
    PauseFor(c, i, inst);
    IsItsVm(c.Now(), i, inst);
    var owned;
    owned, r := OwnedVm(c, inst.vmid.value, i, inst);
    if !r.Ok? {
      return r;
    }
    if !owned {
      return Err(Failed);
    }
    StillThere(c.Now(), i, inst);
    Happened(old(c.Past()), past, c.Past());
    past := c.Past();
    r := Tell(c, i, inst, op, running, |old(c.events)|);
    Happened(old(c.Past()), past, c.Past());
  }

  /** What is done once the VM has been seen to be the instance's own. */
  method Tell(c: Cloud, i: InstanceId, inst: Instance, op: PowerOp, running: bool, ghost since: nat)
    returns (r: Outcome)
    requires c.Valid() && Still(c.Now(), i, inst) && inst.pending.Some? && inst.vmid.Some? && HasVm(c.Now(), i)
    requires !op.Halt? && since <= |c.events| && Since(c.events, since, Shown(inst.vmid.value, running))
    modifies c
    ensures Extends(old(c.Past()), c.Past())
    ensures c.Valid() && Still(c.Now(), i, inst) && HasVm(c.Now(), i)
    ensures r.Ok? ==>
              || Since(c.events, |old(c.events)|, Powered(inst.vmid.value, op))
              || (op.TurnOn? && running) || (op.ShutDown? && !running)
    ensures r.Ok? && (op.TurnOn? || op.ShutDown?) ==>
              Since(c.events, |old(c.events)|, StartsWithHost(inst.vmid.value, op.TurnOn?))
    ensures c.vms == old(c.vms)
    ensures Managed(old(c.trouble), old(c.unrecorded), c, r, true)
  {
    hide Extends, Safe, Run, Rely, InstanceFollows, Since;
    Extending();
    var m := inst.vmid.value;
    r := Ok;
    IsItsVm(c.Now(), i, inst);
    PauseFor(c, i, inst);
    IsItsVm(c.Now(), i, inst);
    ghost var past := c.Past();
    Happened(old(c.Past()), old(c.Past()), past);
    StillSeen(old(c.Past()), past, since, Shown(m, running));
    if op.TurnOn? || op.ShutDown? {
      OwnIsSomebodys(c.Now(), i, inst);
      JustHappened(c.events, |old(c.events)|, StartsWithHost(m, op.TurnOn?));
      r := StartWithHost(c, m, op.TurnOn?);
      if !r.Ok? || op.TurnOn? == running {
        return;
      }
      past := c.Past();
      PauseFor(c, i, inst);
      IsItsVm(c.Now(), i, inst);
      Happened(old(c.Past()), past, c.Past());
      past := c.Past();
    }
    StillSeen(old(c.Past()), c.Past(), since, Shown(m, running));
    OwnIsSomebodys(c.Now(), i, inst);
    JustHappened(c.events, |old(c.events)|, Powered(m, op));
    r := Power(c, m, op, since);
    Happened(old(c.Past()), past, c.Past());
  }

  lemma OwnIsSomebodys(w: World, i: InstanceId, inst: Instance)
    requires Still(w, i, inst) && inst.vmid.Some? && HasVm(w, i)
    ensures SomebodysVm(w, inst.vmid.value)
  {
    assert i in w.instances && HasVm(w, i);
  }

  lemma IsItsVm(w: World, i: InstanceId, inst: Instance)
    requires Still(w, i, inst)
    ensures w.instances[i].vmid == inst.vmid
    ensures HasVm(w, i) <==> inst.vmid.Some? && inst.vmid.value in w.vms
                             && (inst.adopted || w.vms[inst.vmid.value] == InstanceVm(i))
  {
  }

  lemma StillThere(w: World, i: InstanceId, inst: Instance)
    requires Still(w, i, inst) && inst.vmid.Some? && inst.vmid.value in w.vms
    requires inst.adopted || w.vms[inst.vmid.value] == InstanceVm(i)
    ensures HasVm(w, i)
  {
  }

  /** The state an action ends in. */
  function EndState(action: InstanceAction): InstanceState {
    match action
    case Launch => Running
    case Start => Running
    case Stop => Stopped
    case Reboot => Running
    case Terminate => Terminated
  }

  /** The state giving an action up leaves a power action's instance in. */
  function FallBack(action: InstanceAction): InstanceState {
    if action.Start? then Stopped else Running
  }

  /** What an attempt that ended in `r` makes of the row. A launch, start or reboot that is
      done leaves it running, a stop stopped and a terminate terminated. Otherwise the attempt
      is counted for a retry, and the last one given up: a launch for a terminate, a start
      leaves the instance stopped, a stop or reboot running. */
  predicate AttemptEnds(maxAttempts: nat, inst: Instance, r: Outcome, inst': Instance)
    requires inst.pending.Some?
  {
    if r.Ok? then
      match inst.pending.value
      case Launch => Became(inst, inst', Running, None, 0)
      case Start => Became(inst, inst', Running, None, 0)
      case Stop => Became(inst, inst', Stopped, None, 0)
      case Reboot => Became(inst, inst', Running, None, 0)
      case Terminate => Became(inst, inst', Terminated, None, 0)
    else if inst.attempts + 1 < maxAttempts || inst.pending == Some(Terminate) then
      Became(inst, inst', inst.state, inst.pending, inst.attempts + 1)
    else
      match inst.pending.value
      case Launch => Became(inst, inst', ShuttingDown, Some(Terminate), 0)
      case Start => Became(inst, inst', Stopped, None, 0)
      case _ => Became(inst, inst', Running, None, 0)
  }

  /** The attempt's end has been recorded, as a failure or not, or the write failed. */
  ghost predicate Recorded(c: Cloud, unrecorded: nat, i: InstanceId, inst: Instance, r: Outcome)
    reads c
    requires inst.pending.Some?
  {
    && i in c.instances && unrecorded <= c.unrecorded
    && (Untouched(inst, c.instances[i]) || TakenOver(inst, c.instances[i])
        || AttemptEnds(c.site.maxAttempts, inst, r, c.instances[i]))
    && (c.unrecorded == unrecorded ==>
          && (AttemptEnds(c.site.maxAttempts, inst, r, c.instances[i]) || TakenOver(inst, c.instances[i]))
          && |c.events| > 0 && c.events[|c.events| - 1] == InstanceAttempt(i, inst.pending.value, !r.Ok?))
  }

  /** What, besides trouble, keeps an action on an instance from being done: nothing a
      terminate, a launch only a VMID somebody else has, which is another by then if there is
      one, or a VM without a root disk. */
  ghost predicate Prevented(w: World, w': World, i: InstanceId, inst: Instance)
    requires inst.pending.Some?
  {
    && i in w.instances
    && match inst.pending.value
       case Launch => Renumbered(w, w', i, inst.vmid) || Rootless(w', inst.vmid)
       case Terminate => false
       case _ => !HasVm(w, i)
  }

  /** What has been done to the instance's VM since, by the action: it has been started or
      was running, shut down or was stopped, restarted or reset. */
  ghost predicate PoweredFor(es: seq<Event>, since: nat, inst: Instance)
    requires inst.pending.Some?
  {
    match inst.pending.value
    case Launch => inst.vmid.Some? ==> PowerDone(es, since, inst.vmid.value, TurnOn)
    case Start => inst.vmid.Some? && PowerDone(es, since, inst.vmid.value, TurnOn)
    case Stop => inst.vmid.Some? && PowerDone(es, since, inst.vmid.value, ShutDown)
    case Reboot =>
      && inst.vmid.Some?
      && (PowerDone(es, since, inst.vmid.value, Restart) || PowerDone(es, since, inst.vmid.value, Reset))
    case Terminate => true
  }

  /** A reboot fails only if both ways of going about it do. */
  method CarryOutFor(c: Cloud, i: InstanceId, inst: Instance) returns (r: Outcome)
    requires c.Valid() && i in c.instances && c.instances[i] == inst && inst.pending.Some?
    modifies c
    ensures Extends(old(c.Past()), c.Past())
    ensures c.Valid() && SameAttempt(c.Now(), i, inst)
    ensures r.Ok? ==> if inst.pending == Some(Terminate) then NothingLeft(c.Now(), i) else Equipped(c.instances[i])
    ensures r.Ok? ==> PoweredFor(c.events, |old(c.events)|, inst)
    ensures c.trouble >= old(c.trouble) && c.unrecorded == old(c.unrecorded)
    ensures Accounted(old(c.trouble), old(c.unrecorded), c, r) || (r.Ok? && inst.pending == Some(Reboot))
    ensures inst.pending == Some(Reboot) && c.trouble < old(c.trouble) + 2 ==>
              r.Ok? || r == Err(Crash) || Prevented(old(c.Now()), c.Now(), i, inst)
    ensures c.trouble == old(c.trouble) ==> r.Ok? || Prevented(old(c.Now()), c.Now(), i, inst)
  {
    hide Extends, Renumbered, Rootless, Safe, Run, Rely, NothingLeft, InstanceFollows, HasVm, OthersSpared, Since;
    Extending();
    var action := inst.pending.value;
    if action.Terminate? {
      EndingFacts(c.Now(), i);
      r := TerminateInstance(c, i, inst);
    } else {
      LiveFacts(c.Now(), i);
      if action.Launch? {
        r := LaunchInstance(c, i, inst);
      } else {
        IsItsVm(c.Now(), i, inst);
        r := Powering(c, i, inst, OpOf(action));
        IsItsVm(c.Now(), i, inst);
        if action.Reboot? && !r.Ok? && r != Err(Crash) {
          ghost var past := c.Past();
          r := Powering(c, i, inst, Reset);
          Happened(old(c.Past()), past, c.Past());
        }
        StillSameAttempt(c.Now(), i, inst);
        if r.Ok? {
          VmStillThere(c.Now(), i, inst);
        }
      }
    }
  }

  lemma LiveFacts(w: World, i: InstanceId)
    requires Safe(w) && i in w.instances && w.instances[i].pending.Some?
    ensures Still(w, i, w.instances[i])
    ensures w.instances[i].pending != Some(Launch) && w.instances[i].pending != Some(Terminate) ==>
              Equipped(w.instances[i])
  {
    hide Safe;
    SafeInstance(w, i);
  }

  lemma VmStillThere(w: World, i: InstanceId, inst: Instance)
    requires Still(w, i, inst) && Equipped(inst)
    ensures Equipped(w.instances[i])
  {
  }

  // ------------------------------------------------- recording how it ended

  /** The row is still the attempt's, or a terminate's by now. */
  predicate OursOrTerminates(w: World, i: InstanceId, action: InstanceAction) {
    && i in w.instances && LiveInstance(w.instances[i])
    && (w.instances[i].pending == Some(action) || w.instances[i].pending == Some(Terminate))
  }

  lemma FinishActionStep(w: World, i: InstanceId, action: InstanceAction)
    requires OursOrTerminates(w, i, action) && (action.Terminate? ==> NothingLeft(w, i))
    ensures Step(w, InstanceAttempt(i, action, false),
                 SetInstance(w, i, FinishAction(w.instances[i], action, EndState(action))))
  {
    hide Step;
    InstanceUpdateStep(w, i, FinishAction(w.instances[i], action, EndState(action)), InstanceAttempt(i, action, false));
  }

  lemma FinishActionSafe(w: World, i: InstanceId, action: InstanceAction)
    requires Safe(w) && OursOrTerminates(w, i, action) && !action.Terminate?
    requires w.instances[i].pending == Some(action) ==> Equipped(w.instances[i])
    ensures Safe(SetInstance(w, i, FinishAction(w.instances[i], action, EndState(action))))
  {
    hide Safe;
    SafeInstance(w, i);
    InstanceStepSafe(w, i, FinishAction(w.instances[i], action, EndState(action)));
  }

  /** Recording that an action is finished, unless a terminate has replaced it. */
  method Finish(c: Cloud, i: InstanceId, inst: Instance)
    requires c.Valid() && inst.pending.Some? && SameAttempt(c.Now(), i, inst)
    requires if inst.pending == Some(Terminate) then NothingLeft(c.Now(), i) else Equipped(c.instances[i])
    modifies c
    ensures Extends(old(c.Past()), c.Past())
    ensures c.Valid() && Recorded(c, old(c.unrecorded), i, inst, Ok)
    ensures c.trouble >= old(c.trouble) && (c.trouble == old(c.trouble) ==> c.unrecorded == old(c.unrecorded))
  {
    hide Extends, Safe, Run, Rely, NothingLeft, HasVm, Step;
    Extending();
    var action := inst.pending.value;
    if action.Terminate? {
      PauseNothingLeft(c, i);
      FinishTerminateSafe(c.Now(), i);
    } else {
      PauseFor(c, i, inst);
      FinishActionSafe(c.Now(), i, action);
    }
    FinishActionStep(c.Now(), i, action);
    var _ := WriteInstance(c, i, row => FinishAction(row, action, EndState(action)), InstanceAttempt(i, action, false));
  }

  method PauseNothingLeft(c: Cloud, i: InstanceId)
    requires c.Valid() && i in c.instances && c.instances[i].pending == Some(Terminate) && NothingLeft(c.Now(), i)
    modifies c
    ensures Extends(old(c.Past()), c.Past())
    ensures c.Valid() && i in c.instances && c.instances[i] == old(c.instances)[i] && NothingLeft(c.Now(), i)
    ensures c.trouble == old(c.trouble) && c.unrecorded == old(c.unrecorded)
  {
    hide Extends, Safe, Run, Rely, NothingLeft, HasVm, Names;
    Extending();
    ghost var w := c.Now();
    EndingFacts(w, i);
    PauseEnding(c, i, c.instances[i]);
    NothingLeftKeeps(w, c.Now(), i, w.instances[i]);
  }

  lemma RetryLaterSafe(w: World, i: InstanceId, action: InstanceAction)
    requires Safe(w) && OursOrTerminates(w, i, action)
    requires w.instances[i].pending == Some(action) ==>
               action.Terminate? || w.instances[i].attempts + 1 < w.site.maxAttempts
    ensures var inst' := RetryLater(w.instances[i], action);
            Safe(SetInstance(w, i, inst')) && Step(w, InstanceAttempt(i, action, true), SetInstance(w, i, inst'))
  {
    hide Safe, Step;
    SafeInstance(w, i);
    InstanceStepSafe(w, i, RetryLater(w.instances[i], action));
    InstanceUpdateStep(w, i, RetryLater(w.instances[i], action), InstanceAttempt(i, action, true));
  }

  lemma AbandonLaunchSafe(w: World, i: InstanceId)
    requires Safe(w) && OursOrTerminates(w, i, Launch)
    ensures var inst' := AbandonLaunch(w.instances[i]);
            Safe(SetInstance(w, i, inst')) && Step(w, InstanceAttempt(i, Launch, true), SetInstance(w, i, inst'))
  {
    hide Safe, Step;
    SafeInstance(w, i);
    InstanceStepSafe(w, i, AbandonLaunch(w.instances[i]));
    InstanceUpdateStep(w, i, AbandonLaunch(w.instances[i]), InstanceAttempt(i, Launch, true));
  }

  lemma GiveUpActionSafe(w: World, i: InstanceId, action: InstanceAction)
    requires Safe(w) && OursOrTerminates(w, i, action) && !action.Launch? && !action.Terminate?
    ensures var inst' := GiveUpAction(w.instances[i], action, FallBack(action));
            Safe(SetInstance(w, i, inst')) && Step(w, InstanceAttempt(i, action, true), SetInstance(w, i, inst'))
  {
    hide Safe, Step;
    SafeInstance(w, i);
    InstanceStepSafe(w, i, GiveUpAction(w.instances[i], action, FallBack(action)));
    InstanceUpdateStep(w, i, GiveUpAction(w.instances[i], action, FallBack(action)), InstanceAttempt(i, action, true));
  }

  /** One attempt at an instance's pending action. Unless the process died, its end is
      recorded and noted as a failure or not, or else the write that was to do so failed;
      a terminate requested meanwhile wins. Without trouble the action is finished, and a reboot
      even if one call failed, unless it was prevented in some state on the way. */
  method ProcessInstance(c: Cloud, i: InstanceId) returns (r: Outcome)
    requires c.Valid() && i in c.instances && c.instances[i].pending.Some?
    modifies c
    ensures Extends(old(c.Past()), c.Past())
    ensures c.Valid() && i in c.instances
    ensures r != Err(Crash) ==> Recorded(c, old(c.unrecorded), i, old(c.instances)[i], r)
    ensures r == Err(Crash) ==>
              Untouched(old(c.instances)[i], c.instances[i]) || TakenOver(old(c.instances)[i], c.instances[i])
    ensures r.Ok? ==> PoweredFor(c.events, |old(c.events)|, old(c.instances)[i])
    ensures c.trouble >= old(c.trouble) && c.unrecorded >= old(c.unrecorded)
    ensures c.trouble == old(c.trouble) ==> r != Err(Crash) && c.unrecorded == old(c.unrecorded)
    ensures || c.trouble == old(c.trouble)
            || (old(c.instances)[i].pending == Some(Reboot) && c.trouble < old(c.trouble) + 2 && r != Err(Crash)) ==>
              r.Ok? || PreventedSince(c.history, |old(c.history)| - 1, old(c.Now()), i, old(c.instances)[i])
  {
    hide Extends, Since, Prevented, PreventedSince, Safe, Run, Rely, NothingLeft, Owned, Step, InstanceFollows;
    Extending();
    var inst := c.instances[i];
    r := CarryOutFor(c, i, inst);
    if r.Ok? {
      ghost var past := c.Past();
      Finish(c, i, inst);
      Happened(old(c.Past()), past, c.Past());
      return r;
    }
    if r != Err(Crash) {
      ghost var before, h := c.Past(), c.history;
      RecordFailure(c, i, inst, r);
      if Prevented(old(c.Now()), h[|h| - 1], i, inst) {
        PastExtends(old(c.Past()), before, c.Past());
        PreventedThen(h, c.history, |old(c.history)| - 1, old(c.Now()), i, inst);
      }
    }
  }

  ghost predicate PreventedSince(h: seq<World>, since: int, w: World, i: InstanceId, inst: Instance)
    requires inst.pending.Some?
  {
    exists k :: 0 <= k < |h| && since <= k && Prevented(w, h[k], i, inst)
  }

  lemma PreventedThen(h: seq<World>, h': seq<World>, since: int, w: World, i: InstanceId, inst: Instance)
    requires inst.pending.Some? && |h| > 0 && since < |h| && Extends(Log(h, []), Log(h', []))
    requires Prevented(w, h[|h| - 1], i, inst)
    ensures PreventedSince(h', since, w, i, inst)
  {
    hide Prevented;
    assert h'[|h| - 1] == h[|h| - 1];
  }

  /** What recording a failure writes, unless a terminate has been requested meanwhile. */
  function AfterFailure(maxAttempts: nat, inst: Instance, row: Instance): Instance
    requires inst.pending.Some?
  {
    var action := inst.pending.value;
    if inst.attempts + 1 < maxAttempts || action.Terminate? then RetryLater(row, action)
    else if action.Launch? then AbandonLaunch(row)
    else GiveUpAction(row, action, FallBack(action))
  }

  lemma FailureEnds(w: World, i: InstanceId, inst: Instance, r: Outcome)
    requires inst.pending.Some? && !r.Ok? && SameAttempt(w, i, inst)
    ensures OursOrTerminates(w, i, inst.pending.value)
    ensures w.instances[i].pending == inst.pending ==> w.instances[i].attempts == inst.attempts
    ensures var row' := AfterFailure(w.site.maxAttempts, inst, w.instances[i]);
            AttemptEnds(w.site.maxAttempts, inst, r, row') || TakenOver(inst, row')
  {
  }

  method RecordFailure(c: Cloud, i: InstanceId, inst: Instance, r: Outcome)
    requires c.Valid() && inst.pending.Some? && SameAttempt(c.Now(), i, inst) && !r.Ok?
    modifies c
    ensures Extends(old(c.Past()), c.Past())
    ensures c.Valid() && Recorded(c, old(c.unrecorded), i, inst, r)
    ensures c.trouble >= old(c.trouble) && (c.trouble == old(c.trouble) ==> c.unrecorded == old(c.unrecorded))
  {
    hide Extends, Safe, Run, Rely, Owned, Step, InstanceFollows, AttemptEnds, Untouched, TakenOver;
    Extending();
    PauseFor(c, i, inst);
    FailureEnds(c.Now(), i, inst, r);
    var attempts := inst.attempts + 1;
    var action := inst.pending.value;
    if attempts < c.site.maxAttempts || action.Terminate? {
      RetryLaterSafe(c.Now(), i, action);
      var _ := WriteInstance(c, i, row => RetryLater(row, action), InstanceAttempt(i, action, true));
    } else if action.Launch? {
      AbandonLaunchSafe(c.Now(), i);
      var _ := WriteInstance(c, i, row => AbandonLaunch(row), InstanceAttempt(i, Launch, true));
    } else {
      GiveUpActionSafe(c.Now(), i, action);
      var end := InstanceAttempt(i, action, true);
      var _ := WriteInstance(c, i, row => GiveUpAction(row, action, FallBack(action)), end);
    }
  }

  // ------------------------------------------------------------------- driver

  predicate Due(instances: map<InstanceId, Instance>, i: InstanceId, action: InstanceAction) {
    i in instances && instances[i].pending == Some(action)
  }

  predicate DueVolume(volumes: map<VolumeId, Volume>, id: VolumeId, action: VolumeAction) {
    id in volumes && volumes[id].pending == Some(action)
  }

  predicate InstanceWork(w: World) { exists i :: i in w.instances && w.instances[i].pending.Some? }

  predicate VolumeWork(w: World) { exists id :: id in w.volumes && w.volumes[id].pending.Some? }

  /** One piece of work: an instance's pending action first, then a volume's. There is something
      to do exactly if some row has an action pending, and without trouble it ends with an attempt
      at one recorded. */
  method WorkOnce(c: Cloud) returns (worked: bool)
    requires c.Valid()
    modifies c
    ensures Extends(old(c.Past()), c.Past())
    ensures c.Valid() && c.trouble >= old(c.trouble)
    ensures worked <==> InstanceWork(old(c.Now())) || VolumeWork(old(c.Now()))
    ensures !worked ==> c.Now() == old(c.Now())
    ensures c.trouble == old(c.trouble) && worked ==>
              && |c.events| > 0
              && var e := c.events[|c.events| - 1];
                 if InstanceWork(old(c.Now())) then e.InstanceAttempt? && Due(old(c.instances), e.i, e.instanceAction)
                 else e.VolumeAttempt? && DueVolume(old(c.volumes), e.id, e.volumeAction)
  {
    hide Extends, Safe, Step, PreventedSince, HinderedSince, Concluded;
    Extending();
    worked := true;
    if i :| i in c.instances && c.instances[i].pending.Some? {
      var _ := ProcessInstance(c, i);
    } else if id :| id in c.volumes && c.volumes[id].pending.Some? {
      PendingIsLive(c.Now(), id);
      var _ := ProcessVolume(c, id);
    } else {
      worked := false;
    }
  }

  lemma PendingIsLive(w: World, id: VolumeId)
    requires Safe(w) && id in w.volumes && w.volumes[id].pending.Some?
    ensures LiveRow(w, id)
  {
    hide HypervisorOK, HolderSlotsOK, SettledInUse, InstancesOK, DiskKept;
    assert VolumeOK(w, id);
  }

  /** Any number of pieces of work, of any rows that have some due, among any requests. */
  method Operate(c: Cloud, pieces: nat)
    requires c.Valid()
    modifies c
    ensures Extends(old(c.Past()), c.Past())
    ensures c.Valid() && c.trouble >= old(c.trouble)
  {
    hide Extends, Safe, Run;
    Extending();
    for k := 0 to pieces
      invariant Extends(old(c.Past()), c.Past())
      invariant c.Valid() && c.trouble >= old(c.trouble)
    {
      Others(c);
      var leased: bool := *;
      if leased {
        AnyWork(c);
      } else {
        var _ := WorkOnce(c);
      }
    }
  }

  /** The next due piece need not be the first: leases and back-off decide. */
  method AnyWork(c: Cloud)
    requires c.Valid()
    modifies c
    ensures Extends(old(c.Past()), c.Past())
    ensures c.Valid() && c.trouble >= old(c.trouble)
  {
    hide Extends, Safe, Run;
    Extending();
    var i := AnyNat();
    if i in c.instances && c.instances[i].pending.Some? {
      var _ := ProcessInstance(c, i);
    } else if i in c.volumes && c.volumes[i].pending.Some? {
      PendingIsLive(c.Now(), i);
      var _ := ProcessVolume(c, i);
    }
  }

  /** From an empty cloud beside somebody else's VMs, everything that can happen is a run. */
  method Deploy(site: Site, foreign: map<VmId, Owner>, disks: map<Slot, Disk>, pieces: nat) returns (c: Cloud)
    requires SiteOK(site) && forall m :: m in foreign ==> foreign[m] == ForeignVm
    requires HypervisorOK(World(site, map[], map[], {}, foreign, disks, map[], {}, map[]))
    ensures c.Valid() && Run(c.history, c.events)
  {
    c := new Cloud(site, foreign, disks);
    Operate(c, pieces);
  }
}
