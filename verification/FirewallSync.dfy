/** Writing an instance's firewall to its VM while users go on changing groups and
    rules: rules first, above the old ones, then what turns filtering on. */
module FirewallSync {
  import opened Types
  import opened FirewallRules
  import opened FirewallState
  import opened Backends

  // ----------------------------------------------------------- replacing a list

  /** Every list a replacement goes through: some of the new rules above all of the
      old, or all of the new above some of the old. */
  ghost predicate Between(list: seq<VmRule>, current: seq<VmRule>, desired: seq<VmRule>) {
    || (exists k :: 0 <= k <= |desired| && list == desired[k..] + current)
    || (exists k :: 0 <= k <= |current| && list == desired + current[..k])
  }

  lemma {:induction false} PassesConcat(a: seq<VmRule>, b: seq<VmRule>, p: Packet)
    requires AcceptOnly(a)
    ensures Passes(a + b, p) <==> Passes(a, p) || Passes(b, p)
  {
    if a == [] {
      assert a + b == b;
    } else {
      PassesConcat(a[1..], b, p);
      assert (a + b)[1..] == a[1..] + b;
    }
  }

  /** Meanwhile nothing both the old and the new rules allow is ever shut out, and
      nothing neither allows is ever let in, whatever the old rules were. */
  lemma NoGapWhileReplacing(list: seq<VmRule>, current: seq<VmRule>, desired: seq<VmRule>, p: Packet)
    requires Between(list, current, desired) && AcceptOnly(desired)
    ensures Passes(current, p) && Passes(desired, p) ==> Passes(list, p)
    ensures Passes(list, p) ==> Passes(current, p) || Passes(desired, p)
  {
    hide Passes;
    if k :| 0 <= k <= |desired| && list == desired[k..] + current {
      PassesConcat(desired[..k], desired[k..], p);
      assert desired[..k] + desired[k..] == desired;
      PassesConcat(desired[k..], current, p);
    } else {
      var k :| 0 <= k <= |current| && list == desired + current[..k];
      PassesConcat(desired, current[..k], p);
      if Passes(current[..k], p) {
        PartPasses(current, k, p);
      }
    }
  }

  /** What the first rules of a list let through, the whole list does. */
  lemma {:induction false} PartPasses(list: seq<VmRule>, k: nat, p: Packet)
    requires k <= |list| && Passes(list[..k], p)
    ensures Passes(list, p)
  {
    if k > 0 && !Matches(list[0], p) {
      assert list[..k][1..] == list[1..][..k - 1];
      PartPasses(list[1..], k - 1, p);
    }
  }

  // -------------------------------------------------- from one firewall to another

  /** The goal: the rules in place and both switches on, or for an instance without groups
      the filter off. */
  predicate GoalLets(ids: set<GroupId>, want: seq<VmRule>, p: Packet) { ids == {} || Passes(want, p) }

  /** The firewalls a VM goes through on its way from `from`: with groups, first the list
      is replaced and then the switches turned on; without, the filter is turned off first. */
  ghost predicate Midway(fw: VmFirewall, from: VmFirewall, ids: set<GroupId>, want: seq<VmRule>) {
    || fw == from
    || (SwitchedAs(fw, from, ids) && Between(fw.list, from.list, want))
    || (ids != {} && fw.list == want && fw.on && fw.card == from.card && (from.nic ==> fw.nic))
  }

  predicate SwitchedAs(fw: VmFirewall, from: VmFirewall, ids: set<GroupId>) {
    fw.card == from.card && if ids == {} then !fw.on else fw.on == from.on && fw.nic == from.nic
  }

  /** On the way nothing that both the old firewall and the goal let through is shut out,
      and nothing that neither does is let through. */
  lemma NoGapMidway(fw: VmFirewall, from: VmFirewall, ids: set<GroupId>, want: seq<VmRule>, p: Packet)
    requires Midway(fw, from, ids, want) && AcceptOnly(want)
    ensures LetsThrough(from, p) && GoalLets(ids, want, p) ==> LetsThrough(fw, p)
    ensures LetsThrough(fw, p) ==> LetsThrough(from, p) || GoalLets(ids, want, p)
  {
    hide Between, Passes;
    if Between(fw.list, from.list, want) {
      NoGapWhileReplacing(fw.list, from.list, want, p);
    }
  }

  // ------------------------------------------------------------------ the class

  class Firewalls {
    var rows: map<InstanceId, FwRow>
    var rules: map<GroupId, seq<GroupRule>>
    var owners: map<GroupId, AccountId>
    var defaults: map<AccountId, GroupId>
    var vms: map<InstanceId, VmFirewall>

    /** Every state there has been. */
    ghost var history: seq<FwState>

    /** How many calls have failed so far, or lost their reply. */
    ghost var trouble: nat

    function Now(): FwState
      reads this
    {
      FwState(rows, rules, owners, defaults, vms)
    }

    ghost predicate Valid()
      reads this
    {
      |history| > 0 && history[|history| - 1] == Now() && forall k :: 0 <= k < |history| ==> FwOK(history[k])
    }

    /** Instances that were there before there were groups have none. */
    constructor (before: map<InstanceId, AccountId>, vms: map<InstanceId, VmFirewall>)
      requires before.Keys <= vms.Keys
      ensures Valid() && Now() == FwState(Ungrouped(before), map[], map[], map[], vms)
    {
      rows, rules, owners, defaults, this.vms := Ungrouped(before), map[], map[], map[], vms;
      history, trouble := [FwState(Ungrouped(before), map[], map[], map[], vms)], 0;
      new;
      assert forall a: AccountId :: GroupsOf(map[], a) == {};
    }

    /** No call has failed since, or the last one has. */
    ghost predicate Fared(before: nat, r: Outcome)
      reads this`trouble
    {
      if r.Ok? then trouble == before else CallFailed(r) && trouble > before
    }

    /** A call that only reads. */
    method Fate() returns (r: Outcome)
      modifies this`trouble
      ensures Fared(old(trouble), r)
    {
      var fails: bool := *;
      r := Ok;
      if fails {
        r := Failure();
        trouble := trouble + 1;
      }
    }

    /** One call to the hypervisor about a VM's firewall: full effect or none, the reply perhaps lost. */
    method Edit(i: InstanceId, fw: VmFirewall) returns (r: Outcome)
      requires Valid() && i in vms
      requires Clean(Now(), i) ==> fw == vms[i] || AsWanted(fw, rows[i].groups, Wanted(rules, rows[i].groups))
      modifies this
      ensures Valid() && history == old(history) + [Now()]
      ensures Now() == old(Now()) || Now() == old(Now()).(vms := old(vms)[i := fw])
      ensures r.Ok? ==> Now() == old(Now()).(vms := old(vms)[i := fw])
      ensures Fared(old(trouble), r)
    {
      var fails, lost: bool := *, *;
      r := Failure();
      if !fails {
        EditKeeps(Now(), i, fw);
        vms := vms[i := fw];
        if !lost {
          r := Ok;
        }
      }
      trouble := trouble + if r.Ok? then 0 else 1;
      history := history + [Now()];
    }

    /** Recording the generation written; a later one is never moved backwards. */
    method RecordFirewallApplied(i: InstanceId, generation: nat) returns (r: Outcome)
      requires Valid() && i in rows && generation <= rows[i].generation
      requires generation == rows[i].generation && generation > 0 && rows[i].live ==>
                 i in vms && AsWanted(vms[i], rows[i].groups, Wanted(rules, rows[i].groups))
      modifies this
      ensures Valid() && history == old(history) + [Now()]
      ensures Now() == old(Now()) || Now() == Recorded(old(Now()), i, generation)
      ensures r.Ok? ==> Now() == Recorded(old(Now()), i, generation)
      ensures Fared(old(trouble), r)
    {
      var fails, lost: bool := *, *;
      r := Failure();
      if !fails {
        RecordKeeps(Now(), i, generation);
        rows := rows[i := rows[i].(applied := if rows[i].applied < generation then generation else rows[i].applied)];
        if !lost {
          r := Ok;
        }
      }
      trouble := trouble + if r.Ok? then 0 else 1;
      history := history + [Now()];
    }

    /** Committing a transaction of somebody else's. */
    method Commit(s: FwState)
      requires Valid() && FwRely(Now(), s) && RulesValid(s.rules) && GroupsOK(s) && MembersOK(s)
      modifies this
      ensures Valid() && Now() == s && history == old(history) + [s] && trouble == old(trouble)
    {
      hide GroupsOK, MembersOK;
      FwRelyKeeps(Now(), s);
      rows, rules, owners, defaults, vms := s.rows, s.rules, s.owners, s.defaults, s.vms;
      history := history + [s];
    }
  }

  function Ungrouped(before: map<InstanceId, AccountId>): map<InstanceId, FwRow> {
    map i | i in before :: FwRow(before[i], {}, 0, 0, false, true)
  }

  function Recorded(s: FwState, i: InstanceId, generation: nat): FwState
    requires i in s.rows
  {
    var applied := if s.rows[i].applied < generation then generation else s.rows[i].applied;
    s.(rows := s.rows[i := s.rows[i].(applied := applied)])
  }

  lemma EditKeeps(s: FwState, i: InstanceId, fw: VmFirewall)
    requires FwOK(s) && i in s.vms
    requires Clean(s, i) ==> fw == s.vms[i] || AsWanted(fw, s.rows[i].groups, Wanted(s.rules, s.rows[i].groups))
    ensures FwOK(s.(vms := s.vms[i := fw]))
  {
  }

  lemma RecordKeeps(s: FwState, i: InstanceId, generation: nat)
    requires FwOK(s) && i in s.rows && generation <= s.rows[i].generation
    requires generation == s.rows[i].generation && generation > 0 && s.rows[i].live ==>
               i in s.vms && AsWanted(s.vms[i], s.rows[i].groups, Wanted(s.rules, s.rows[i].groups))
    ensures FwOK(Recorded(s, i, generation))
  {
    var s' := Recorded(s, i, generation);
    forall j | Clean(s', j)
      ensures j in s'.vms && AsWanted(s'.vms[j], s'.rows[j].groups, Wanted(s'.rules, s'.rows[j].groups))
    {
      if j != i || s.rows[i].applied >= generation {
        assert Clean(s, j);
      }
    }
  }
}
