/** Quotas: what an account holds, how a request is admitted, and why no run of
    admitted requests and completed work takes anybody over a limit. */
module Quotas {
  import opened Types
  import opened Rows

  datatype Measure = Instances | Vcpus | Memory | RootDisk | Volumes | VolumeGiB

  function LimitOf(limits: Limits, m: Measure): nat {
    match m
    case Instances => limits.instances
    case Vcpus => limits.vcpus
    case Memory => limits.memory
    case RootDisk => limits.rootDisk
    case Volumes => limits.volumes
    case VolumeGiB => limits.volumeGiB
  }

  // -------------------------------------------------------------------- sums

  ghost function Sum(m: map<nat, nat>): nat {
    if m == map[] then 0 else
      var k :| k in m;
      m[k] + Sum(m - {k})
  }

  lemma {:induction false} SumSplit(m: map<nat, nat>, k: nat)
    requires k in m
    ensures Sum(m) == m[k] + Sum(m - {k})
    decreases |m|
  {
    var j :| j in m && Sum(m) == m[j] + Sum(m - {j});
    if j != k {
      SumSplit(m - {j}, k);
      SumSplit(m - {k}, j);
      assert (m - {j}) - {k} == (m - {k}) - {j};
    }
  }

  lemma SumPut(m: map<nat, nat>, k: nat, v: nat)
    ensures Sum(m[k := v]) == Sum(m - {k}) + v
  {
    SumSplit(m[k := v], k);
    assert m[k := v] - {k} == m - {k};
  }

  lemma {:induction false} SumMonotone(m: map<nat, nat>, m': map<nat, nat>)
    requires forall k :: k in m ==> k in m' && m[k] <= m'[k]
    ensures Sum(m) <= Sum(m')
    decreases |m|
  {
    if m != map[] {
      var k :| k in m;
      SumSplit(m, k);
      SumSplit(m', k);
      SumMonotone(m - {k}, m' - {k});
    }
  }

  /** Adding up a column, row by row. */
  method Add(m: map<nat, nat>) returns (total: nat)
    ensures total == Sum(m)
  {
    var rest := m;
    total := 0;
    while rest != map[]
      invariant total + Sum(rest) == Sum(m)
      decreases |rest|
    {
      var k :| k in rest;
      SumSplit(rest, k);
      total := total + rest[k];
      rest := rest - {k};
    }
  }

  // ------------------------------------------------------------------- usage

  function InstanceWeight(i: Instance, m: Measure): nat {
    match m
    case Instances => 1
    case Vcpus => i.vcpus
    case Memory => i.memory
    case RootDisk => i.rootDisk
    case _ => 0
  }

  function VolumeWeight(v: Volume, m: Measure): nat {
    match m
    case Volumes => 1
    case VolumeGiB => v.size
    case _ => 0
  }

  /** What one account's live instances (or everybody's) weigh, one by one. */
  function InstanceHoldings(instances: map<InstanceId, Instance>, whose: Option<AccountId>, m: Measure): map<nat, nat> {
    map i | i in instances && LiveInstance(instances[i]) && (whose.None? || instances[i].account == whose.value)
      :: InstanceWeight(instances[i], m)
  }

  function VolumeHoldings(volumes: map<VolumeId, Volume>, whose: Option<AccountId>, m: Measure): map<nat, nat> {
    map id | id in volumes && LiveVolume(volumes[id]) && (whose.None? || volumes[id].account == whose.value)
      :: VolumeWeight(volumes[id], m)
  }

  ghost function Usage(
    volumes: map<VolumeId, Volume>, instances: map<InstanceId, Instance>, whose: Option<AccountId>, m: Measure): nat
  {
    Sum(InstanceHoldings(instances, whose, m)) + Sum(VolumeHoldings(volumes, whose, m))
  }

  // ------------------------------------------------- what the measures stand for

  /** The instances of an account (or everybody's) that are not terminated. */
  function InstancesOf(instances: map<InstanceId, Instance>, whose: Option<AccountId>): set<InstanceId> {
    set i | i in instances && !instances[i].state.Terminated? && (whose == None || whose == Some(instances[i].account))
  }

  /** The volumes of an account (or everybody's) that are not deleted. */
  function VolumesOf(volumes: map<VolumeId, Volume>, whose: Option<AccountId>): set<VolumeId> {
    set id | id in volumes && !volumes[id].state.Deleted? && (whose == None || whose == Some(volumes[id].account))
  }

  /** Two of the measures count rows. */
  lemma UsageCounts(volumes: map<VolumeId, Volume>, instances: map<InstanceId, Instance>, whose: Option<AccountId>)
    ensures Usage(volumes, instances, whose, Instances) == |InstancesOf(instances, whose)|
    ensures Usage(volumes, instances, whose, Volumes) == |VolumesOf(volumes, whose)|
  {
    hide Sum;
    var ofInstances := InstanceHoldings(instances, whose, Instances);
    var ofVolumes := VolumeHoldings(volumes, whose, Volumes);
    assert ofInstances.Keys == InstancesOf(instances, whose) && ofVolumes.Keys == VolumesOf(volumes, whose);
    SumOfOnes(ofInstances);
    SumOfOnes(ofVolumes);
    SumOfNothing(InstanceHoldings(instances, whose, Volumes));
    SumOfNothing(VolumeHoldings(volumes, whose, Instances));
  }

  lemma {:induction false} SumOfOnes(m: map<nat, nat>)
    requires forall k :: k in m ==> m[k] == 1
    ensures Sum(m) == |m.Keys|
    decreases |m|
  {
    if m != map[] {
      var k :| k in m;
      SumSplit(m, k);
      SumOfOnes(m - {k});
      assert (m - {k}).Keys == m.Keys - {k};
    }
  }

  lemma {:induction false} SumOfNothing(m: map<nat, nat>)
    requires forall k :: k in m ==> m[k] == 0
    ensures Sum(m) == 0
    decreases |m|
  {
    if m != map[] {
      var k :| k in m;
      SumSplit(m, k);
      SumOfNothing(m - {k});
    }
  }

  /** One column of those rows each. */
  function VcpusOf(instances: map<InstanceId, Instance>, whose: Option<AccountId>): map<InstanceId, nat> {
    map i | i in InstancesOf(instances, whose) :: instances[i].vcpus
  }

  function MemoryOf(instances: map<InstanceId, Instance>, whose: Option<AccountId>): map<InstanceId, nat> {
    map i | i in InstancesOf(instances, whose) :: instances[i].memory
  }

  function RootDisksOf(instances: map<InstanceId, Instance>, whose: Option<AccountId>): map<InstanceId, nat> {
    map i | i in InstancesOf(instances, whose) :: instances[i].rootDisk
  }

  function SizesOf(volumes: map<VolumeId, Volume>, whose: Option<AccountId>): map<VolumeId, nat> {
    map id | id in VolumesOf(volumes, whose) :: volumes[id].size
  }

  lemma InstancesAddUp(instances: map<InstanceId, Instance>, whose: Option<AccountId>)
    ensures InstanceHoldings(instances, whose, Vcpus) == VcpusOf(instances, whose)
    ensures InstanceHoldings(instances, whose, Memory) == MemoryOf(instances, whose)
    ensures InstanceHoldings(instances, whose, RootDisk) == RootDisksOf(instances, whose)
    ensures Sum(InstanceHoldings(instances, whose, VolumeGiB)) == 0
  {
    hide Sum;
    SumOfNothing(InstanceHoldings(instances, whose, VolumeGiB));
  }

  lemma VolumesAddUp(volumes: map<VolumeId, Volume>, whose: Option<AccountId>)
    ensures VolumeHoldings(volumes, whose, VolumeGiB) == SizesOf(volumes, whose)
    ensures forall m: Measure :: m.Vcpus? || m.Memory? || m.RootDisk? ==> Sum(VolumeHoldings(volumes, whose, m)) == 0
  {
    hide Sum;
    forall m: Measure | m.Vcpus? || m.Memory? || m.RootDisk? ensures Sum(VolumeHoldings(volumes, whose, m)) == 0 {
      SumOfNothing(VolumeHoldings(volumes, whose, m));
    }
  }

  /** The other measures add up one of these columns each. */
  lemma UsageAddsUp(volumes: map<VolumeId, Volume>, instances: map<InstanceId, Instance>, whose: Option<AccountId>)
    ensures Usage(volumes, instances, whose, Vcpus) == Sum(VcpusOf(instances, whose))
    ensures Usage(volumes, instances, whose, Memory) == Sum(MemoryOf(instances, whose))
    ensures Usage(volumes, instances, whose, RootDisk) == Sum(RootDisksOf(instances, whose))
    ensures Usage(volumes, instances, whose, VolumeGiB) == Sum(SizesOf(volumes, whose))
  {
    hide Sum, InstanceHoldings, VolumeHoldings, VcpusOf, MemoryOf, RootDisksOf, SizesOf;
    InstancesAddUp(instances, whose);
    VolumesAddUp(volumes, whose);
  }

  /** Nobody holds more than a limit that is set, nor do all together more memory than the budget. */
  ghost predicate Within(limits: Limits, volumes: map<VolumeId, Volume>, instances: map<InstanceId, Instance>) {
    && (forall a: AccountId, m: Measure :: LimitOf(limits, m) > 0 ==>
         Usage(volumes, instances, Some(a), m) <= LimitOf(limits, m))
    && (limits.memoryBudget > 0 ==> Usage(volumes, instances, None, Memory) <= limits.memoryBudget)
  }

  /** Nobody comes to hold more than a limit by this change, nor all together more than the budget. */
  ghost predicate Keeps(
    limits: Limits,
    volumes: map<VolumeId, Volume>, instances: map<InstanceId, Instance>,
    volumes': map<VolumeId, Volume>, instances': map<InstanceId, Instance>)
  {
    && (forall a: AccountId, m: Measure | LimitOf(limits, m) > 0
          :: StaysUnder(LimitOf(limits, m), volumes, instances, volumes', instances', Some(a), m))
    && (limits.memoryBudget > 0 ==>
         StaysUnder(limits.memoryBudget, volumes, instances, volumes', instances', None, Memory))
  }

  ghost predicate StaysUnder(
    limit: nat,
    volumes: map<VolumeId, Volume>, instances: map<InstanceId, Instance>,
    volumes': map<VolumeId, Volume>, instances': map<InstanceId, Instance>,
    whose: Option<AccountId>, m: Measure)
  {
    || Usage(volumes', instances', whose, m) <= limit
    || Usage(volumes', instances', whose, m) <= Usage(volumes, instances, whose, m)
  }

  lemma KeepsWithin(
    limits: Limits,
    volumes: map<VolumeId, Volume>, instances: map<InstanceId, Instance>,
    volumes': map<VolumeId, Volume>, instances': map<InstanceId, Instance>)
    requires Within(limits, volumes, instances) && Keeps(limits, volumes, instances, volumes', instances')
    ensures Within(limits, volumes', instances')
  {
    hide Usage;
    forall a: AccountId, m: Measure | LimitOf(limits, m) > 0
      ensures Usage(volumes', instances', Some(a), m) <= LimitOf(limits, m)
    {
      assert StaysUnder(LimitOf(limits, m), volumes, instances, volumes', instances', Some(a), m);
    }
  }

  // --------------------------------------------------------------- admission

  /** The check of a size an instance is to have; what is being replaced does not count. */
  ghost predicate SizeAllowed(
    limits: Limits, volumes: map<VolumeId, Volume>, instances: map<InstanceId, Instance>,
    inst: Instance, replacing: Option<Instance>)
  {
    && Fits(limits.instances, UsageBut(volumes, instances, Some(inst.account), replacing, Instances) + 1)
    && Fits(limits.vcpus, UsageBut(volumes, instances, Some(inst.account), replacing, Vcpus) + inst.vcpus)
    && Fits(limits.memory, UsageBut(volumes, instances, Some(inst.account), replacing, Memory) + inst.memory)
    && Fits(limits.rootDisk, UsageBut(volumes, instances, Some(inst.account), replacing, RootDisk) + inst.rootDisk)
    && Fits(limits.memoryBudget, UsageBut(volumes, instances, None, replacing, Memory) + inst.memory)
  }

  /** A limit of 0 is none. */
  predicate Fits(limit: nat, total: int) { limit == 0 || total <= limit }

  ghost function UsageBut(
    volumes: map<VolumeId, Volume>, instances: map<InstanceId, Instance>,
    whose: Option<AccountId>, replacing: Option<Instance>, m: Measure): int
  {
    Usage(volumes, instances, whose, m) - Replaced(replacing, m)
  }

  /** That is, counting rows and adding up columns, and leaving the size being replaced out. */
  lemma SizeAllowedMeans(
    limits: Limits, volumes: map<VolumeId, Volume>, instances: map<InstanceId, Instance>,
    inst: Instance, replacing: Option<Instance>)
    ensures SizeAllowed(limits, volumes, instances, inst, replacing) <==>
              var whose := Some(inst.account);
              var (fewer, vcpus, memory, rootDisk) :=
                if replacing.Some? then (1, replacing.value.vcpus, replacing.value.memory, replacing.value.rootDisk)
                else (0, 0, 0, 0);
              && Fits(limits.instances, |InstancesOf(instances, whose)| - fewer + 1)
              && Fits(limits.vcpus, Sum(VcpusOf(instances, whose)) - vcpus + inst.vcpus)
              && Fits(limits.memory, Sum(MemoryOf(instances, whose)) - memory + inst.memory)
              && Fits(limits.rootDisk, Sum(RootDisksOf(instances, whose)) - rootDisk + inst.rootDisk)
              && Fits(limits.memoryBudget, Sum(MemoryOf(instances, None)) - memory + inst.memory)
  {
    hide Usage, Sum, InstancesOf, VcpusOf, MemoryOf, RootDisksOf;
    UsageCounts(volumes, instances, Some(inst.account));
    UsageAddsUp(volumes, instances, Some(inst.account));
    UsageAddsUp(volumes, instances, None);
  }

  function Replaced(replacing: Option<Instance>, m: Measure): nat {
    if replacing.Some? then InstanceWeight(replacing.value, m) else 0
  }

  /** The check a launch or adoption passes, under the capacity lock. */
  ghost predicate InstanceAllowed(
    limits: Limits, volumes: map<VolumeId, Volume>, instances: map<InstanceId, Instance>, inst: Instance)
  {
    SizeAllowed(limits, volumes, instances, inst, None)
  }

  /** The check a new or growing volume passes. */
  ghost predicate VolumeAllowed(
    limits: Limits, volumes: map<VolumeId, Volume>, instances: map<InstanceId, Instance>,
    account: AccountId, addVolumes: nat, addGiB: nat)
  {
    && (limits.volumes > 0 ==> Usage(volumes, instances, Some(account), Volumes) + addVolumes <= limits.volumes)
    && (limits.volumeGiB > 0 ==> Usage(volumes, instances, Some(account), VolumeGiB) + addGiB <= limits.volumeGiB)
  }

  method UsageOf(
    volumes: map<VolumeId, Volume>, instances: map<InstanceId, Instance>, whose: Option<AccountId>, m: Measure)
    returns (held: int)
    ensures held == Usage(volumes, instances, whose, m)
  {
    var ofInstances := Add(InstanceHoldings(instances, whose, m));
    var ofVolumes := Add(VolumeHoldings(volumes, whose, m));
    held := ofInstances + ofVolumes;
  }

  method CheckVolumeQuota(
    limits: Limits, volumes: map<VolumeId, Volume>, instances: map<InstanceId, Instance>,
    account: AccountId, addVolumes: nat, addGiB: nat)
    returns (allowed: bool)
    ensures allowed <==> VolumeAllowed(limits, volumes, instances, account, addVolumes, addGiB)
    ensures allowed <==>
              && Fits(limits.volumes, |VolumesOf(volumes, Some(account))| + addVolumes)
              && Fits(limits.volumeGiB, Sum(SizesOf(volumes, Some(account))) + addGiB)
  {
    hide Usage;
    UsageCounts(volumes, instances, Some(account));
    UsageAddsUp(volumes, instances, Some(account));
    var count := UsageOf(volumes, instances, Some(account), Volumes);
    var gib := UsageOf(volumes, instances, Some(account), VolumeGiB);
    if limits.volumes > 0 && count + addVolumes > limits.volumes {
      return false;
    } else if limits.volumeGiB > 0 && gib + addGiB > limits.volumeGiB {
      return false;
    }
    return true;
  }

  method CheckQuota(
    limits: Limits, volumes: map<VolumeId, Volume>, instances: map<InstanceId, Instance>,
    inst: Instance, replacing: Option<Instance>)
    returns (allowed: bool)
    ensures allowed <==> SizeAllowed(limits, volumes, instances, inst, replacing)
  {
    hide Usage;
    var count := UsageOf(volumes, instances, Some(inst.account), Instances);
    var vcpus := UsageOf(volumes, instances, Some(inst.account), Vcpus);
    var memory := UsageOf(volumes, instances, Some(inst.account), Memory);
    var disk := UsageOf(volumes, instances, Some(inst.account), RootDisk);
    var added := 1;
    if replacing.Some? {
      added := 0;
      vcpus := vcpus - replacing.value.vcpus;
      memory := memory - replacing.value.memory;
      disk := disk - replacing.value.rootDisk;
    }
    if limits.instances > 0 && count + added > limits.instances {
      return false;
    } else if limits.vcpus > 0 && vcpus + inst.vcpus > limits.vcpus {
      return false;
    } else if limits.memory > 0 && memory + inst.memory > limits.memory {
      return false;
    } else if limits.rootDisk > 0 && disk + inst.rootDisk > limits.rootDisk {
      return false;
    }
    var everybody := UsageOf(volumes, instances, None, Memory);
    if replacing.Some? {
      everybody := everybody - replacing.value.memory;
    }
    return limits.memoryBudget == 0 || everybody + inst.memory <= limits.memoryBudget;
  }

  // ------------------------------------------------------- why limits are kept

  /** No row is added, revived, moved to another account or made to weigh more. */
  ghost predicate NothingAdded(
    volumes: map<VolumeId, Volume>, instances: map<InstanceId, Instance>,
    volumes': map<VolumeId, Volume>, instances': map<InstanceId, Instance>)
  {
    && (forall id :: id in volumes' && LiveVolume(volumes'[id]) ==>
          && id in volumes && LiveVolume(volumes[id])
          && volumes'[id].account == volumes[id].account && volumes'[id].size <= volumes[id].size)
    && (forall i :: i in instances' && LiveInstance(instances'[i]) ==>
          && i in instances && LiveInstance(instances[i])
          && instances'[i].account == instances[i].account
          && instances'[i].vcpus == instances[i].vcpus && instances'[i].memory == instances[i].memory
          && instances'[i].rootDisk == instances[i].rootDisk)
  }

  lemma NothingAddedKeeps(
    limits: Limits,
    volumes: map<VolumeId, Volume>, instances: map<InstanceId, Instance>,
    volumes': map<VolumeId, Volume>, instances': map<InstanceId, Instance>)
    requires NothingAdded(volumes, instances, volumes', instances')
    ensures Keeps(limits, volumes, instances, volumes', instances')
  {
    hide Usage, NothingAdded;
    forall whose, m ensures Usage(volumes', instances', whose, m) <= Usage(volumes, instances, whose, m) {
      UsageMonotone(volumes, instances, volumes', instances', whose, m);
    }
  }

  lemma UsageMonotone(
    volumes: map<VolumeId, Volume>, instances: map<InstanceId, Instance>,
    volumes': map<VolumeId, Volume>, instances': map<InstanceId, Instance>,
    whose: Option<AccountId>, m: Measure)
    requires NothingAdded(volumes, instances, volumes', instances')
    ensures Usage(volumes', instances', whose, m) <= Usage(volumes, instances, whose, m)
  {
    SumMonotone(InstanceHoldings(instances', whose, m), InstanceHoldings(instances, whose, m));
    SumMonotone(VolumeHoldings(volumes', whose, m), VolumeHoldings(volumes, whose, m));
  }

  lemma InstanceAdds(
    volumes: map<VolumeId, Volume>, instances: map<InstanceId, Instance>, i: InstanceId, inst: Instance,
    whose: Option<AccountId>, m: Measure)
    requires i !in instances && LiveInstance(inst)
    ensures Usage(volumes, instances[i := inst], whose, m) ==
              Usage(volumes, instances, whose, m)
                + (if whose.None? || whose.value == inst.account then InstanceWeight(inst, m) else 0)
  {
    var before := InstanceHoldings(instances, whose, m);
    InstanceHoldingsPut(instances, i, inst, whose, m);
    if whose.None? || whose.value == inst.account {
      SumPut(before, i, InstanceWeight(inst, m));
      assert before - {i} == before;
    }
  }

  lemma InstanceHoldingsPut(
    instances: map<InstanceId, Instance>, i: InstanceId, inst: Instance, whose: Option<AccountId>, m: Measure)
    requires i !in instances && LiveInstance(inst)
    ensures var before := InstanceHoldings(instances, whose, m);
            InstanceHoldings(instances[i := inst], whose, m) ==
              if whose.None? || whose.value == inst.account then before[i := InstanceWeight(inst, m)] else before
  {
  }

  /** Adding an admitted instance takes nobody over a limit. */
  lemma InstanceAdmitted(
    limits: Limits, volumes: map<VolumeId, Volume>, instances: map<InstanceId, Instance>, i: InstanceId, inst: Instance)
    requires i !in instances && LiveInstance(inst) && InstanceAllowed(limits, volumes, instances, inst)
    ensures Keeps(limits, volumes, instances, volumes, instances[i := inst])
  {
    hide Usage;
    forall a: AccountId, m: Measure | LimitOf(limits, m) > 0
      ensures StaysUnder(LimitOf(limits, m), volumes, instances, volumes, instances[i := inst], Some(a), m)
    {
      InstanceAdds(volumes, instances, i, inst, Some(a), m);
    }
    InstanceAdds(volumes, instances, i, inst, None, Memory);
  }

  /** Giving an instance an admitted size in place of its old one takes nobody over a limit. */
  lemma ReplacementAdmitted(
    limits: Limits, volumes: map<VolumeId, Volume>, instances: map<InstanceId, Instance>, i: InstanceId, inst: Instance)
    requires i in instances && LiveInstance(instances[i]) && LiveInstance(inst) && inst.account == instances[i].account
    requires SizeAllowed(limits, volumes, instances, inst, Some(instances[i]))
    ensures Keeps(limits, volumes, instances, volumes, instances[i := inst])
  {
    hide Usage;
    var rest := instances - {i};
    assert rest[i := inst] == instances[i := inst] && rest[i := instances[i]] == instances;
    forall a: AccountId, m: Measure | LimitOf(limits, m) > 0
      ensures StaysUnder(LimitOf(limits, m), volumes, instances, volumes, instances[i := inst], Some(a), m)
    {
      InstanceAdds(volumes, rest, i, inst, Some(a), m);
      InstanceAdds(volumes, rest, i, instances[i], Some(a), m);
    }
    InstanceAdds(volumes, rest, i, inst, None, Memory);
    InstanceAdds(volumes, rest, i, instances[i], None, Memory);
  }

  /** Replacing or adding one live volume row changes usage by exactly the difference in weight. */
  lemma VolumeAdds(
    volumes: map<VolumeId, Volume>, instances: map<InstanceId, Instance>, id: VolumeId, v: Volume,
    whose: Option<AccountId>, m: Measure)
    requires LiveVolume(v) && (id in volumes ==> LiveVolume(volumes[id]) && volumes[id].account == v.account)
    ensures Usage(volumes[id := v], instances, whose, m) ==
              Usage(volumes, instances, whose, m)
                + (if whose.None? || whose.value == v.account then VolumeWeight(v, m) else 0)
                - if id in volumes && (whose.None? || whose.value == v.account)
                  then VolumeWeight(volumes[id], m) else 0
  {
    var before := VolumeHoldings(volumes, whose, m);
    VolumeHoldingsPut(volumes, id, v, whose, m);
    if whose.None? || whose.value == v.account {
      SumPut(before, id, VolumeWeight(v, m));
      if id in volumes {
        SumSplit(before, id);
      } else {
        assert before - {id} == before;
      }
    }
  }

  lemma VolumeHoldingsPut(volumes: map<VolumeId, Volume>, id: VolumeId, v: Volume, whose: Option<AccountId>, m: Measure)
    requires LiveVolume(v) && (id in volumes ==> LiveVolume(volumes[id]) && volumes[id].account == v.account)
    ensures var before := VolumeHoldings(volumes, whose, m);
            VolumeHoldings(volumes[id := v], whose, m) ==
              if whose.None? || whose.value == v.account then before[id := VolumeWeight(v, m)] else before
  {
  }

  /** Adding or growing an admitted volume takes nobody over a limit. */
  lemma VolumeAdmitted(
    limits: Limits, volumes: map<VolumeId, Volume>, instances: map<InstanceId, Instance>, id: VolumeId, v: Volume)
    requires LiveVolume(v)
    requires id in volumes ==>
               LiveVolume(volumes[id]) && volumes[id].account == v.account && volumes[id].size <= v.size
    requires VolumeAllowed(limits, volumes, instances, v.account, if id in volumes then 0 else 1,
                           if id in volumes then v.size - volumes[id].size else v.size)
    ensures Keeps(limits, volumes, instances, volumes[id := v], instances)
  {
    hide Usage;
    forall a: AccountId, m: Measure | LimitOf(limits, m) > 0
      ensures StaysUnder(LimitOf(limits, m), volumes, instances, volumes[id := v], instances, Some(a), m)
    {
      VolumeAdds(volumes, instances, id, v, Some(a), m);
    }
    VolumeAdds(volumes, instances, id, v, None, Memory);
  }

  /** Giving up a resize changes one figure only: its account's GiB, by what the disk differs. */
  lemma GiveUpAdds(
    volumes: map<VolumeId, Volume>, instances: map<InstanceId, Instance>, id: VolumeId, actual: nat,
    whose: Option<AccountId>, m: Measure)
    requires id in volumes && LiveVolume(volumes[id]) && volumes[id].pending == Some(Resize)
    ensures Usage(volumes[id := GiveUpResize(volumes[id], actual)], instances, whose, m) ==
              Usage(volumes, instances, whose, m)
                + if m.VolumeGiB? && (whose.None? || whose.value == volumes[id].account)
                  then actual - volumes[id].size else 0
  {
    VolumeAdds(volumes, instances, id, GiveUpResize(volumes[id], actual), whose, m);
  }

  /** Giving up a resize writes back the disk's real size. It keeps every limit in
      every cloud the row may be in exactly when that is no more than was asked for. */
  lemma GiveUpResizeWithinIff(v: Volume, actual: nat)
    requires LiveVolume(v) && v.pending == Some(Resize) && v.size > 0
    ensures actual <= v.size <==>
              forall limits, volumes, instances, id ::
                Within(limits, volumes, instances) && id in volumes && volumes[id] == v
                ==> Within(limits, volumes[id := GiveUpResize(v, actual)], instances)
  {
    var v' := GiveUpResize(v, actual);
    if actual <= v.size {
      forall limits, volumes, instances, id | Within(limits, volumes, instances) && id in volumes && volumes[id] == v
        ensures Within(limits, volumes[id := v'], instances)
      {
        NothingAddedKeeps(limits, volumes, instances, volumes[id := v'], instances);
        KeepsWithin(limits, volumes, instances, volumes[id := v'], instances);
      }
    } else {
      GiveUpTooMuch(v, actual);
      assert map[0 := v][0 := v'] == map[0 := v'];
    }
  }

  /** The account's limit a larger disk breaks: one GiB less than its size. */
  lemma GiveUpTooMuch(v: Volume, actual: nat)
    requires LiveVolume(v) && v.pending == Some(Resize) && 0 < v.size < actual
    ensures var limits := Limits(0, 0, 0, 0, 0, actual - 1, 0, 0, 0);
            && Within(limits, map[0 := v], map[])
            && !Within(limits, map[0 := GiveUpResize(v, actual)], map[])
  {
    var limits := Limits(0, 0, 0, 0, 0, actual - 1, 0, 0, 0);
    forall a: AccountId { OneVolume(v, a); }
    OneVolume(GiveUpResize(v, actual), v.account);
    assert LimitOf(limits, VolumeGiB) > 0;
  }

  lemma OneVolume(v: Volume, a: AccountId)
    requires LiveVolume(v)
    ensures Usage(map[0 := v], map[], Some(a), VolumeGiB) == if a == v.account then v.size else 0
  {
    var h := VolumeHoldings(map[0 := v], Some(a), VolumeGiB);
    assert InstanceHoldings(map[], Some(a), VolumeGiB) == map[];
    if a == v.account {
      assert h == map[0 := v.size];
      SumSplit(h, 0);
      assert h - {0} == map[];
    } else {
      assert h == map[];
    }
  }
}
