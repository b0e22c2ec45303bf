/** What users, administrators and the reconciler ask of instances, each one a
    transaction that records what was asked or refuses and changes nothing. */
module InstanceRequests {
  import opened Types
  import opened Rows
  import opened CloudState
  import opened RowLemmas
  import opened InstanceLemmas
  import opened Progress
  import opened Quotas
  import opened History
  import opened Backends
  import opened Steps
  import opened VolumeRequests

  /** An update of state and pending action by anybody but the worker: what was
      pending stays, unless a terminate replaces it. */
  lemma RowRequestFollows(w: World, i: InstanceId, inst': Instance)
    requires i in w.instances && InstanceFollows(w.instances[i], inst')
    requires inst'.vcpus == w.instances[i].vcpus && inst'.memory == w.instances[i].memory
    requires inst'.rootDisk == w.instances[i].rootDisk
    requires Safe(w) && Safe(SetInstance(w, i, inst'))
    ensures Rely(w, SetInstance(w, i, inst')) && Step(w, Call, SetInstance(w, i, inst'))
  {
    hide Safe, QuotaStep, Step, RowFollows;
    var w' := SetInstance(w, i, inst');
    forall id | id in w.volumes ensures RowFollows(w.volumes[id], w.volumes[id]) {
      SameRowFollows(w.volumes[id]);
    }
    QuietStep(w, w');
    RelyStep(w, w');
  }

  lemma SameRowFollows(v: Volume)
    ensures RowFollows(v, v)
  {
  }

  // ------------------------------------------------ start, stop, reboot, terminate

  /** What is asked for has been asked for already, or is so. */
  predicate SoAlready(inst: Instance, action: InstanceAction) {
    || (action != Reboot && inst.pending == Some(action))
    || (action == Terminate && inst.state.Terminated?)
    || (action == Stop && inst.state.Stopped? && inst.pending.None?)
    || (action == Start && inst.state.Running? && inst.pending.None?)
  }

  /** A terminate is never refused. A stop or reboot needs a running instance and a start a
      stopped one, with nothing pending. */
  predicate MayAsk(inst: Instance, action: InstanceAction) {
    match action
    case Terminate => true
    case Launch => false
    case Stop => SoAlready(inst, Stop) || (inst.state.Running? && inst.pending.None?)
    case Reboot => inst.state.Running? && inst.pending.None?
    case Start => SoAlready(inst, Start) || (inst.state.Stopped? && inst.pending.None?)
  }

  /** The row once that has been asked for. */
  function Asking(inst: Instance, action: InstanceAction): Instance {
    match action
    case Terminate => inst.(state := ShuttingDown, pending := Some(Terminate), attempts := 0)
    case Stop => inst.(state := Stopping, pending := Some(Stop), attempts := 0)
    case Start => inst.(state := Pending, pending := Some(Start), attempts := 0)
    case Reboot => inst.(pending := Some(Reboot), attempts := 0)
    case Launch => inst
  }

  /** A terminate is never refused and replaces whatever is pending; nothing else does. */
  lemma AskedPreempts(inst: Instance, action: InstanceAction)
    requires InstanceShape(inst)
    ensures action.Terminate? ==>
              && MayAsk(inst, action)
              && (SoAlready(inst, action) <==> inst.state.Terminated? || inst.pending == Some(Terminate))
    ensures MayAsk(inst, action) && inst.pending.Some? && !action.Terminate? ==> SoAlready(inst, action)
    ensures MayAsk(inst, action) && !SoAlready(inst, action) ==>
              LiveInstance(inst) && InstanceShape(Asking(inst, action)) && Asking(inst, action).pending == Some(action)
  {
  }

  method RequestAction(c: Cloud, i: InstanceId, action: InstanceAction, authorized: bool) returns (reply: Reply)
    requires c.Valid()
    modifies c
    ensures Extends(old(c.Past()), c.Past())
    ensures c.Valid() && Rely(old(c.Now()), c.Now())
    ensures c.trouble == old(c.trouble) && c.unrecorded == old(c.unrecorded)
    ensures reply.Granted? <==> i in old(c.instances) && authorized && MayAsk(old(c.instances)[i], action)
    ensures reply.Refused? ==>
              reply.code == if i !in old(c.instances) || !authorized then NotFound
                            else if action.Launch? then InvalidParameter else IncorrectInstanceState
    ensures c.Now() == if reply.Granted? && !SoAlready(old(c.instances)[i], action)
                       then SetInstance(old(c.Now()), i, Asking(old(c.instances)[i], action))
                       else old(c.Now())
  {
    hide Extends, Safe, Step, Follows;
    Extending();
    ghost var w := c.Now();
    RelySelf(w);
    if i !in c.instances || !authorized {
      return Refused(NotFound);
    }
    var inst := c.instances[i];
    SafeInstance(w, i);
    var busy := inst.pending.Some?;
    match action {
      case Terminate =>
        if inst.state.Terminated? || inst.pending == Some(Terminate) {
          assert SetInstance(w, i, inst) == w;
          return Granted;
        }
        Ask(c, i, ShuttingDown, Terminate);
      case Stop =>
        if (inst.state.Stopped? && !busy) || inst.pending == Some(Stop) {
          assert SetInstance(w, i, inst) == w;
          return Granted;
        }
        if !inst.state.Running? || busy {
          return Refused(IncorrectInstanceState);
        }
        Ask(c, i, Stopping, Stop);
      case Start =>
        if (inst.state.Running? && !busy) || inst.pending == Some(Start) {
          assert SetInstance(w, i, inst) == w;
          return Granted;
        }
        if !inst.state.Stopped? || busy {
          return Refused(IncorrectInstanceState);
        }
        Ask(c, i, Pending, Start);
      case Reboot =>
        if !inst.state.Running? || busy {
          return Refused(IncorrectInstanceState);
        }
        Ask(c, i, Running, Reboot);
      case Launch =>
        return Refused(InvalidParameter);
    }
    return Granted;
  }

  /** Recording an action. Only a terminate may replace a pending one. */
  method Ask(c: Cloud, i: InstanceId, state: InstanceState, action: InstanceAction)
    requires c.Valid() && i in c.instances && LiveInstance(c.instances[i]) && c.instances[i].pending != Some(Terminate)
    requires (state == ShuttingDown && action.Terminate?)
             || (c.instances[i].pending.None? && !action.Launch? && !action.Terminate?)
    requires InstanceShape(SetAction(c.instances[i], state, action))
    modifies c
    ensures Extends(old(c.Past()), c.Past())
    ensures c.Valid() && Rely(old(c.Now()), c.Now())
    ensures c.trouble == old(c.trouble) && c.unrecorded == old(c.unrecorded)
    ensures c.Now() == SetInstance(old(c.Now()), i,
                                   old(c.instances)[i].(state := state, pending := Some(action), attempts := 0))
  {
    hide Extends, Safe, Step, Follows;
    Extending();
    var inst' := SetAction(c.instances[i], state, action);
    SafeInstance(c.Now(), i);
    SafeSite(c.Now());
    InstanceStepSafe(c.Now(), i, inst');
    RowRequestFollows(c.Now(), i, inst');
    CommitInstance(c, i, inst');
  }

  // -------------------------------------------------------------- reconciling

  predicate Settled(i: Instance) { (i.state.Running? || i.state.Stopped?) && i.pending.None? }

  /** Nothing but the state of settled instances differs, and they are still settled. */
  ghost predicate OnlyObserved(w: World, w': World) {
    && w' == w.(instances := w'.instances) && w'.instances.Keys == w.instances.Keys
    && forall i :: i in w.instances ==>
         || w'.instances[i] == w.instances[i]
         || (Settled(w.instances[i]) && Settled(w'.instances[i])
              && w'.instances[i] == w.instances[i].(state := w'.instances[i].state))
  }

  lemma OnlyObservedTrans(a: World, b: World, c: World)
    requires OnlyObserved(a, b) && OnlyObserved(b, c)
    ensures OnlyObserved(a, c)
  {
  }

  /** One correction of a settled row from what the hypervisor reported earlier. */
  method Observe(c: Cloud, i: InstanceId, from: InstanceState, to: InstanceState)
    requires c.Valid() && (from.Running? || from.Stopped?) && (to.Running? || to.Stopped?)
    modifies c
    ensures Extends(old(c.Past()), c.Past())
    ensures c.Valid() && Rely(old(c.Now()), c.Now()) && OnlyObserved(old(c.Now()), c.Now())
    ensures c.trouble == old(c.trouble) && c.unrecorded == old(c.unrecorded)
    ensures c.Now() == if i in old(c.instances) && old(c.instances)[i].state == from
                          && old(c.instances)[i].pending.None?
                       then SetInstance(old(c.Now()), i, old(c.instances)[i].(state := to))
                       else old(c.Now())
  {
    hide Extends, Safe, Step, Follows;
    Extending();
    ghost var w := c.Now();
    RelySelf(w);
    if i in c.instances {
      var inst := c.instances[i];
      assert SetInstance(w, i, inst) == w;
      if inst.state == from && inst.pending.None? {
        SafeInstance(w, i);
        InstanceStepSafe(w, i, inst.(state := to));
        RowRequestFollows(w, i, inst.(state := to));
        CommitInstance(c, i, inst.(state := to));
      }
    }
  }

  /** What the hypervisor says of a VM. */
  datatype Status = Up | Down | Unclear

  /** It says that the instance is in another state than its row. */
  predicate Differs(inst: Instance, status: Status) {
    (status.Up? && inst.state.Stopped?) || (status.Down? && inst.state.Running?)
  }

  /** A pass corrects a row it has read as `was` if both the listing and the VM's own status
      say otherwise and the row is still settled as it was; then it says what the VM does. */
  predicate Corrected(
    row: Instance, row': Instance, was: Instance, listing: map<VmId, Status>, live: map<VmId, Status>)
  {
    if was.vmid.Some? && was.vmid.value in listing && was.vmid.value in live
       && row.state == was.state && row.pending.None?
       && listing[was.vmid.value] == live[was.vmid.value] == (if was.state.Stopped? then Up else Down)
    then row' == row.(state := if was.state.Stopped? then Running else Stopped)
    else row' == row
  }

  /** A pass over rows read earlier, with a listing just as old, and each VM's own status where
      the listing differs from the row. It terminates nothing and touches nothing with an action
      pending, however stale all of it is, and if the listing shows none of several instances it
      changes nothing. Unless it is cut short by a failed call it has corrected every row. */
  method Reconcile(
    c: Cloud, settled: map<InstanceId, Instance>, listing: map<VmId, Status>, live: map<VmId, Status>)
    returns (r: Outcome)
    requires c.Valid() && forall i :: i in settled ==> Settled(settled[i])
    modifies c
    ensures Extends(old(c.Past()), c.Past())
    ensures c.Valid() && Rely(old(c.Now()), c.Now()) && OnlyObserved(old(c.Now()), c.Now())
    ensures c.unrecorded == old(c.unrecorded) && c.trouble >= old(c.trouble)
    ensures listing.Keys <= live.Keys && c.trouble == old(c.trouble) ==> r.Ok?
    ensures c.instances.Keys == old(c.instances).Keys
    ensures forall i :: i in old(c.instances) && i !in settled ==> c.instances[i] == old(c.instances)[i]
    ensures forall i | i in old(c.instances) && i in settled
              :: Corrected(old(c.instances)[i], c.instances[i], settled[i], listing, live)
                 || (!r.Ok? && c.instances[i] == old(c.instances)[i])
  {
    hide Extends, Safe, Run, Step, Follows, Rely, OnlyObserved, Corrected;
    Extending();
    NothingObserved(c.Now());
    RelySelf(c.Now());
    r := Ok;
    var missing := set i | i in settled && (settled[i].vmid.None? || settled[i].vmid.value !in listing);
    if |missing| == |settled.Keys| && |missing| > 1 {
      AllOfThem(missing, settled.Keys);
      NoneShown(c.instances, settled, listing, live);
      return;
    }
    var rest := settled.Keys;
    while rest != {}
      invariant Extends(old(c.Past()), c.Past())
      invariant rest <= settled.Keys && c.Valid() && r.Ok?
      invariant c.unrecorded == old(c.unrecorded) && c.trouble >= old(c.trouble)
      invariant Rely(old(c.Now()), c.Now()) && OnlyObserved(old(c.Now()), c.Now())
      invariant c.instances.Keys == old(c.instances).Keys
      invariant forall i :: i in old(c.instances) && (i !in settled || i in rest) ==>
                  c.instances[i] == old(c.instances)[i]
      invariant forall i | i in old(c.instances) && i in settled && i !in rest
                  :: Corrected(old(c.instances)[i], c.instances[i], settled[i], listing, live)
      decreases |rest|
    {
      var i :| i in rest;
      NotShown(c.instances, settled, i, listing, live);
      if i !in missing {
        r := ObserveOne(c, i, settled[i], listing, live, old(c.Now()));
        if !r.Ok? {
          return;
        }
      }
      rest := rest - {i};
    }
  }

  lemma NothingObserved(w: World)
    ensures OnlyObserved(w, w)
  {
  }

  lemma NotShown(
    rows: map<InstanceId, Instance>, settled: map<InstanceId, Instance>, i: InstanceId,
    listing: map<VmId, Status>, live: map<VmId, Status>)
    requires i in settled
    ensures i in rows && (settled[i].vmid.None? || settled[i].vmid.value !in listing) ==>
              Corrected(rows[i], rows[i], settled[i], listing, live)
  {
  }

  lemma NoneShown(
    rows: map<InstanceId, Instance>, settled: map<InstanceId, Instance>,
    listing: map<VmId, Status>, live: map<VmId, Status>)
    requires forall i :: i in settled ==> settled[i].vmid.None? || settled[i].vmid.value !in listing
    ensures forall i | i in rows && i in settled :: Corrected(rows[i], rows[i], settled[i], listing, live)
  {
  }

  lemma AllOfThem(some: set<InstanceId>, all: set<InstanceId>)
    requires some <= all && |some| == |all|
    ensures some == all
  {
    if x :| x in all && x !in some {
      assert some <= all - {x};
      FewerOf(some, all - {x});
    }
  }

  lemma {:induction false} FewerOf(some: set<InstanceId>, all: set<InstanceId>)
    requires some <= all
    ensures |some| <= |all|
    decreases |some|
  {
    if some != {} {
      var x :| x in some;
      FewerOf(some - {x}, all - {x});
    }
  }

  /** One row of a pass. */
  method ObserveOne(
    c: Cloud, i: InstanceId, was: Instance, listing: map<VmId, Status>, live: map<VmId, Status>, ghost since: World)
    returns (r: Outcome)
    requires c.Valid() && Settled(was) && was.vmid.Some? && was.vmid.value in listing
    requires Rely(since, c.Now()) && OnlyObserved(since, c.Now())
    modifies c
    ensures Extends(old(c.Past()), c.Past())
    ensures c.Valid() && Rely(since, c.Now()) && OnlyObserved(since, c.Now())
    ensures c.unrecorded == old(c.unrecorded) && c.trouble >= old(c.trouble)
    ensures listing.Keys <= live.Keys && c.trouble == old(c.trouble) ==> r.Ok?
    ensures c.instances.Keys == old(c.instances).Keys
    ensures forall j :: j in old(c.instances) && j != i ==> c.instances[j] == old(c.instances)[j]
    ensures i in old(c.instances) ==>
              || Corrected(old(c.instances)[i], c.instances[i], was, listing, live)
              || (!r.Ok? && c.instances[i] == old(c.instances)[i])
  {
    hide Extends, Safe, Run, Step, Follows, Rely, OnlyObserved;
    Extending();
    var observed;
    observed, r := Believe(c, was, listing[was.vmid.value], live);
    if !r.Ok? || observed.None? {
      return;
    }
    r := Correct(c, i, was.state, observed.value, since);
  }

  /** Correcting it, which may fail, or take effect and lose its reply. */
  method Correct(c: Cloud, i: InstanceId, from: InstanceState, to: InstanceState, ghost since: World)
    returns (r: Outcome)
    requires c.Valid() && (from.Running? || from.Stopped?) && (to.Running? || to.Stopped?)
    requires Rely(since, c.Now()) && OnlyObserved(since, c.Now())
    modifies c
    ensures Extends(old(c.Past()), c.Past())
    ensures c.Valid() && Rely(since, c.Now()) && OnlyObserved(since, c.Now())
    ensures c.unrecorded == old(c.unrecorded) && c.Answered(old(c.trouble), r, true)
    ensures c.instances.Keys == old(c.instances).Keys
    ensures forall j :: j in old(c.instances) && j != i ==> c.instances[j] == old(c.instances)[j]
    ensures i in old(c.instances) ==>
              var row, row' := old(c.instances)[i], c.instances[i];
              || row' == (if row.state == from && row.pending.None? then row.(state := to) else row)
              || (!r.Ok? && row' == row)
  {
    hide Extends, Safe, Run, Step, Follows, Rely, OnlyObserved;
    Extending();
    r := c.Fate();
    if !r.Ok? {
      return;
    }
    ghost var w := c.Now();
    Observe(c, i, from, to);
    RelyTrans(since, w, c.Now());
    OnlyObservedTrans(since, w, c.Now());
    r := c.Fate();
  }

  /** The state to correct a row to: where the listing differs, what the VM itself says. */
  method Believe(c: Cloud, was: Instance, listed: Status, live: map<VmId, Status>)
    returns (observed: Option<InstanceState>, r: Outcome)
    requires Settled(was) && was.vmid.Some?
    modifies c`trouble
    ensures c.Answered(old(c.trouble), r, was.vmid.value in live)
    ensures var m := was.vmid.value;
            r.Ok? ==>
              observed == if Differs(was, listed) && m in live && Differs(was, live[m])
                          then Some(if live[m].Up? then Running else Stopped) else None
  {
    observed, r := None, Ok;
    if !Differs(was, listed) {
      return;
    }
    r := c.Fate();
    if !r.Ok? || was.vmid.value !in live {
      r := if r.Ok? then Err(Failed) else r;
      return;
    }
    observed := match live[was.vmid.value]
                case Up => Some(Running)
                case Down => Some(Stopped)
                case Unclear => None;
    if observed == Some(was.state) {
      observed := None;
    }
  }

  // ------------------------------------------------------------- launch, adopt

  ghost predicate InstanceTokenTaken(w: World, account: AccountId, token: Option<Token>) {
    token.Some? && exists j :: j in w.instances && w.instances[j].token == token && w.instances[j].account == account
  }

  /** The columns that hold what was asked for. */
  predicate Asked(
    inst: Instance, account: AccountId, token: Option<Token>, hash: Hash, vcpus: nat, memory: nat, rootDisk: nat)
  {
    && inst.account == account && inst.token == token && inst.hash == hash
    && inst.vcpus == vcpus && inst.memory == memory && inst.rootDisk == rootDisk
  }

  function FreshInstance(
    account: AccountId, token: Option<Token>, hash: Hash, vcpus: nat, memory: nat, rootDisk: nat, vmid: VmId): Instance
  {
    Instance(account, token, hash, vcpus, memory, rootDisk,
             Pending, Some(Launch), 0, Some(vmid), false, None, false, false)
  }

  ghost predicate VmidOpen(w: World, skip: set<VmId>, vmid: VmId) {
    w.site.vmidFrom <= vmid <= w.site.vmidTo && vmid !in skip && VmidFree(w, vmid)
  }

  /** The lowest VMID in the range that nothing holds, reserves or is known to be on. */
  method AllocateVmid(c: Cloud, visible: set<VmId>) returns (vmid: Option<VmId>)
    ensures vmid.Some? ==>
              VmidOpen(c.Now(), visible, vmid.value) && forall n :: n < vmid.value ==> !VmidOpen(c.Now(), visible, n)
    ensures vmid.None? ==> forall n :: !VmidOpen(c.Now(), visible, n)
  {
    var skip := {c.site.holder} + c.site.probes + visible;
    var candidate := c.site.vmidFrom;
    vmid := None;
    while candidate <= c.site.vmidTo && vmid.None?
      invariant candidate >= c.site.vmidFrom
      invariant vmid.None? ==> forall n :: n < candidate ==> !VmidOpen(c.Now(), visible, n)
      invariant vmid.Some? ==>
                  && VmidOpen(c.Now(), visible, vmid.value)
                  && forall n :: n < vmid.value ==> !VmidOpen(c.Now(), visible, n)
      decreases c.site.vmidTo + 1 - candidate
    {
      var held := exists j ::
          j in c.instances && LiveInstance(c.instances[j]) && c.instances[j].vmid == Some(candidate);
      if candidate !in skip && !held && candidate !in c.quarantine {
        vmid := Some(candidate);
      }
      candidate := candidate + 1;
    }
  }

  /** What a launch is admitted on: no instance of its token, a size within the quota
      wherever it runs, and some VMID that is open. */
  ghost predicate MayRun(
    w: World, visible: set<VmId>, account: AccountId, token: Option<Token>, vcpus: nat, memory: nat, rootDisk: nat)
  {
    && !InstanceTokenTaken(w, account, token)
    && InstanceAllowed(w.site.limits, w.volumes, w.instances,
                       FreshInstance(account, token, 0, vcpus, memory, rootDisk, 0))
    && exists vmid :: VmidOpen(w, visible, vmid)
  }

  /** The part of a launch request under the capacity lock. `visible` is a listing
      made before, which may be out of date. */
  method RunLocked(
    c: Cloud, account: AccountId, token: Option<Token>, hash: Hash, vcpus: nat, memory: nat, rootDisk: nat,
    visible: set<VmId>)
    returns (made: Created)
    requires c.Valid()
    modifies c
    ensures Extends(old(c.Past()), c.Past())
    ensures c.Valid() && Rely(old(c.Now()), c.Now())
    ensures c.trouble == old(c.trouble) && c.unrecorded == old(c.unrecorded)
    ensures made.Made? <==> MayRun(old(c.Now()), visible, account, token, vcpus, memory, rootDisk)
    ensures made.NotMade? ==>
              made.code == if InstanceTokenTaken(old(c.Now()), account, token) then TokenMismatch
                           else if !InstanceAllowed(c.site.limits, old(c.volumes), old(c.instances),
                                                    FreshInstance(account, token, hash, vcpus, memory, rootDisk, 0))
                           then LimitExceeded else NoCapacity
    ensures !made.Made? ==> c.Now() == old(c.Now())
    ensures made.Made? ==>
              && made.id !in old(c.instances) && made.id in c.instances
                   && !InstanceTokenTaken(old(c.Now()), account, token)
              && var inst := c.instances[made.id];
                 && inst.vmid.Some? && VmidOpen(old(c.Now()), visible, inst.vmid.value)
                 && Asked(inst, account, token, hash, vcpus, memory, rootDisk)
                 && inst.state.Pending? && inst.pending == Some(Launch) && inst.attempts == 0
                 && !inst.vmCreated && inst.address.None? && !inst.seed && !inst.adopted
                 && InstanceAllowed(c.site.limits, old(c.volumes), old(c.instances), inst)
                 && c.Now() == SetInstance(old(c.Now()), made.id, inst)
    ensures made.Same? ==>
              && token.Some? && made.id in c.instances && c.instances[made.id].token == token
              && c.instances[made.id].account == account && c.instances[made.id].hash == hash
    ensures made == NotMade(TokenMismatch) ==>
              exists j :: j in c.instances && c.instances[j].token == token && c.instances[j].account == account
                && c.instances[j].hash != hash
  {
    hide Extends, Safe, Step, Follows, SizeAllowed;
    Extending();
    ghost var w := c.Now();
    RelySelf(w);
    if token.Some? {
      var existing := FindInstanceToken(c, account, token);
      if existing.Some? {
        return if c.instances[existing.value].hash == hash then Same(existing.value) else NotMade(TokenMismatch);
      }
    }
    var wanted := FreshInstance(account, token, hash, vcpus, memory, rootDisk, 0);
    SameWeight(c.site.limits, c.volumes, c.instances, wanted, wanted.(hash := 0));
    var allowed := CheckQuota(c.site.limits, c.volumes, c.instances, wanted, None);
    if !allowed {
      return NotMade(LimitExceeded);
    }
    var vmid := AllocateVmid(c, visible);
    if vmid.None? {
      return NotMade(NoCapacity);
    }
    SomeNatOutside(c.instances.Keys);
    var i :| i !in c.instances.Keys;
    var inst := wanted.(vmid := vmid);
    SameWeight(c.site.limits, c.volumes, c.instances, wanted, inst);
    InsertInstanceSafe(w, i, inst);
    AdmittedInstance(w, i, inst);
    CommitInstance(c, i, inst);
    return Made(i);
  }

  lemma SameWeight(
    limits: Limits, volumes: map<VolumeId, Volume>, instances: map<InstanceId, Instance>, a: Instance, b: Instance)
    requires b == a.(vmid := b.vmid, hash := b.hash)
    ensures InstanceAllowed(limits, volumes, instances, b) <==> InstanceAllowed(limits, volumes, instances, a)
  {
    hide Usage;
  }

  /** A new instance that passed the quota check keeps every limit. */
  lemma AdmittedInstance(w: World, i: InstanceId, inst: Instance)
    requires NewInstance(w, i, inst) && LiveInstance(inst)
    requires InstanceAllowed(w.site.limits, w.volumes, w.instances, inst)
    requires Safe(w) && Safe(SetInstance(w, i, inst))
    ensures Step(w, Call, SetInstance(w, i, inst)) && Rely(w, SetInstance(w, i, inst))
  {
    hide Safe, InstanceAllowed, Keeps, QuotaStep, Step;
    InstanceAdmitted(w.site.limits, w.volumes, w.instances, i, inst);
    KeepsStep(w, SetInstance(w, i, inst));
    RelyStep(w, SetInstance(w, i, inst));
  }

  method FindInstanceToken(c: Cloud, account: AccountId, token: Option<Token>) returns (found: Option<InstanceId>)
    requires token.Some?
    ensures found.Some? ==>
              && found.value in c.instances && c.instances[found.value].token == token
              && c.instances[found.value].account == account
    ensures found.None? ==> !InstanceTokenTaken(c.Now(), account, token)
  {
    if j :| j in c.instances && c.instances[j].token == token && c.instances[j].account == account {
      found := Some(j);
    } else {
      found := None;
    }
  }

  /** The part of an adoption under the capacity lock: only the rows are looked at
      again. The VM was seen in the pool before; whether it still is, nobody asks. */
  method AdoptLocked(
    c: Cloud, account: AccountId, vmid: VmId, running: bool, vcpus: nat, memory: nat, rootDisk: nat)
    returns (made: Created)
    requires c.Valid()
    requires vmid != c.site.holder && vmid !in c.site.probes && vmid !in c.site.outside
    modifies c
    ensures Extends(old(c.Past()), c.Past())
    ensures c.Valid() && Rely(old(c.Now()), c.Now())
    ensures c.trouble == old(c.trouble) && c.unrecorded == old(c.unrecorded)
    ensures !made.Made? ==> c.Now() == old(c.Now())
    ensures made.Made? <==>
              && InstanceAllowed(c.site.limits, old(c.volumes), old(c.instances),
                                 AdoptedInstance(account, vmid, running, vcpus, memory, rootDisk))
              && !VmidHeld(old(c.Now()), vmid)
    ensures !made.Made? ==> made == NotMade(if VmidHeld(old(c.Now()), vmid) then AlreadyAdopted else LimitExceeded)
    ensures made.Made? ==>
              && made.id !in old(c.instances) && made.id in c.instances
              && c.Now() == SetInstance(old(c.Now()), made.id, c.instances[made.id])
              && var inst := c.instances[made.id];
                 && inst == AdoptedInstance(account, vmid, running, vcpus, memory, rootDisk)
                 && Asked(inst, account, None, 0, vcpus, memory, rootDisk) && inst.vmid == Some(vmid)
                 && inst.state == (if running then Running else Stopped) && inst.pending.None? && inst.attempts == 0
                 && inst.vmCreated && inst.address.None? && !inst.seed && inst.adopted
  {
    hide Extends, Safe, Step, Follows, SizeAllowed;
    Extending();
    ghost var w := c.Now();
    RelySelf(w);
    if exists j :: j in c.instances && LiveInstance(c.instances[j]) && c.instances[j].vmid == Some(vmid) {
      return NotMade(AlreadyAdopted);
    }
    var inst := AdoptedInstance(account, vmid, running, vcpus, memory, rootDisk);
    var allowed := CheckQuota(c.site.limits, c.volumes, c.instances, inst, None);
    if !allowed {
      return NotMade(LimitExceeded);
    }
    SomeNatOutside(c.instances.Keys);
    var i :| i !in c.instances.Keys;
    InsertInstanceSafe(w, i, inst);
    AdmittedInstance(w, i, inst);
    CommitInstance(c, i, inst);
    return Made(i);
  }

  predicate VmidHeld(w: World, vmid: VmId) {
    exists j :: j in w.instances && LiveInstance(w.instances[j]) && w.instances[j].vmid == Some(vmid)
  }

  function AdoptedInstance(
    account: AccountId, vmid: VmId, running: bool, vcpus: nat, memory: nat, rootDisk: nat): Instance
  {
    Instance(account, None, 0, vcpus, memory, rootDisk,
             if running then Running else Stopped, None, 0, Some(vmid), true, None, false, true)
  }
}
