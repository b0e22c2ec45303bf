/** Which firewall each instance should have and which one its VM has. */
module FirewallState {
  import opened Types
  import opened FirewallRules
  import opened Backends

  const MAX_GROUPS_PER_ACCOUNT := 20

  /** An instance's row as far as firewalls go: changes count `generation` up, and
      `applied` is the generation last written to the VM. `ending` while it is being
      terminated, no longer `live` afterwards. */
  datatype FwRow = FwRow(
    account: AccountId, groups: set<GroupId>, generation: nat, applied: nat, ending: bool, live: bool)

  /** A VM's firewall: its rules, whether filtering is turned on, whether the VM has a
      network card at all, and whether that passes through the filter. */
  datatype VmFirewall = VmFirewall(list: seq<VmRule>, on: bool, card: bool, nic: bool)

  /** `owners` says whose each group is, `defaults` which is an account's default one. */
  datatype FwState = FwState(
    rows: map<InstanceId, FwRow>,
    rules: map<GroupId, seq<GroupRule>>,
    owners: map<GroupId, AccountId>,
    defaults: map<AccountId, GroupId>,
    vms: map<InstanceId, VmFirewall>)

  // -------------------------------------------------- which rules a VM should have

  function Select(rules: seq<GroupRule>, d: Direction): seq<GroupRule> {
    if rules == [] then []
    else Select(rules[..|rules| - 1], d) + (if rules[|rules| - 1].direction == d then [rules[|rules| - 1]] else [])
  }

  /** Group by group in ascending order, ingress before egress, oldest first. */
  function RulesBelow(rules: map<GroupId, seq<GroupRule>>, ids: set<GroupId>, n: nat): seq<GroupRule> {
    if n == 0 then []
    else
      RulesBelow(rules, ids, n - 1)
      + if n - 1 in ids && n - 1 in rules then Select(rules[n - 1], Ingress) + Select(rules[n - 1], Egress) else []
  }

  ghost function RulesOf(rules: map<GroupId, seq<GroupRule>>, ids: set<GroupId>): seq<GroupRule> {
    RulesBelow(rules, ids, BoundOf(ids))
  }

  ghost predicate RulesValid(rules: map<GroupId, seq<GroupRule>>) {
    forall g :: g in rules ==> AllValidated(rules[g])
  }

  lemma {:induction false} SelectSound(rules: seq<GroupRule>, d: Direction)
    ensures forall r :: r in Select(rules, d) <==> r in rules && r.direction == d
  {
    if rules != [] {
      var n := |rules| - 1;
      SelectSound(rules[..n], d);
      assert rules == rules[..n] + [rules[n]];
    }
  }

  /** Rules keep their order when those of one direction are selected. */
  lemma {:induction false} SelectSplits(a: seq<GroupRule>, b: seq<GroupRule>, d: Direction)
    ensures Select(a + b, d) == Select(a, d) + Select(b, d)
  {
    if b == [] {
      assert a + b == a;
    } else {
      var n := |b| - 1;
      SelectSplits(a, b[..n], d);
      assert (a + b)[..|a + b| - 1] == a + b[..n];
    }
  }

  lemma {:induction false} SelectKeeps(rules: seq<GroupRule>, d: Direction)
    requires forall r :: r in rules ==> r.direction == d
    ensures Select(rules, d) == rules
  {
    if rules != [] {
      var n := |rules| - 1;
      SelectKeeps(rules[..n], d);
      assert rules == rules[..n] + [rules[n]];
    }
  }

  lemma {:induction false} RulesBelowMembers(rules: map<GroupId, seq<GroupRule>>, ids: set<GroupId>, n: nat)
    ensures forall r :: r in RulesBelow(rules, ids, n) <==>
              exists g: nat :: g < n && g in ids && g in rules && r in rules[g]
  {
    if n > 0 {
      RulesBelowMembers(rules, ids, n - 1);
      if n - 1 in rules {
        SelectSound(rules[n - 1], Ingress);
        SelectSound(rules[n - 1], Egress);
      }
    }
  }

  /** Exactly the rules of the groups, none lost and none made up. */
  lemma RulesOfMembers(rules: map<GroupId, seq<GroupRule>>, ids: set<GroupId>)
    ensures forall r :: r in RulesOf(rules, ids) <==> exists g :: g in ids && g in rules && r in rules[g]
    ensures RulesValid(rules) ==> AllValidated(RulesOf(rules, ids))
  {
    RulesBelowMembers(rules, ids, BoundOf(ids));
    if RulesValid(rules) {
      var all := RulesOf(rules, ids);
      forall k | 0 <= k < |all| ensures Validated(all[k]) {
        assert all[k] in all;
        var g :| g in ids && g in rules && all[k] in rules[g];
      }
    }
  }

  /** One rule may be written before another: by group, and ingress first. */
  predicate InOrder(a: GroupRule, b: GroupRule) {
    a.group < b.group || (a.group == b.group && (a.direction == b.direction || a.direction.Ingress?))
  }

  ghost predicate Ordered(rules: seq<GroupRule>) {
    forall j, k :: 0 <= j < k < |rules| ==> InOrder(rules[j], rules[k])
  }

  lemma OrderedThen(a: seq<GroupRule>, b: seq<GroupRule>)
    requires Ordered(a) && Ordered(b) && forall x, y :: x in a && y in b ==> InOrder(x, y)
    ensures Ordered(a + b)
  {
    hide InOrder;
  }

  lemma OneKind(rules: seq<GroupRule>, g: GroupId, d: Direction)
    requires forall r :: r in rules ==> r.group == g && r.direction == d
    ensures Ordered(rules)
  {
  }

  /** The rules come group by group, ingress before egress. */
  lemma {:induction false} RulesInOrder(rules: map<GroupId, seq<GroupRule>>, ids: set<GroupId>, n: nat)
    requires forall g, r :: g in rules && r in rules[g] ==> r.group == g
    ensures Ordered(RulesBelow(rules, ids, n)) && forall r :: r in RulesBelow(rules, ids, n) ==> r.group < n
  {
    hide Ordered, Select;
    if n == 0 {
      OneKind([], 0, Ingress);
    } else {
      RulesInOrder(rules, ids, n - 1);
      if n - 1 in ids && n - 1 in rules {
        var before := RulesBelow(rules, ids, n - 1);
        var ingress, egress := Select(rules[n - 1], Ingress), Select(rules[n - 1], Egress);
        SelectSound(rules[n - 1], Ingress);
        SelectSound(rules[n - 1], Egress);
        OneKind(ingress, n - 1, Ingress);
        OneKind(egress, n - 1, Egress);
        OrderedThen(ingress, egress);
        OrderedThen(before, ingress + egress);
      } else {
        assert RulesBelow(rules, ids, n) == RulesBelow(rules, ids, n - 1);
      }
    }
  }

  lemma {:induction false} SameRulesBelow(
    rules: map<GroupId, seq<GroupRule>>, rules': map<GroupId, seq<GroupRule>>, ids: set<GroupId>, n: nat)
    requires forall g :: g in ids ==> g in rules && g in rules' && rules'[g] == rules[g]
    ensures RulesBelow(rules', ids, n) == RulesBelow(rules, ids, n)
  {
    if n > 0 {
      SameRulesBelow(rules, rules', ids, n - 1);
    }
  }

  ghost function Wanted(rules: map<GroupId, seq<GroupRule>>, ids: set<GroupId>): seq<VmRule>
    requires RulesValid(rules)
  {
    RulesOfMembers(rules, ids);
    Rendered(RulesOf(rules, ids))
  }

  /** An instance without groups is not filtered at all; one with groups is. */
  ghost predicate AsWanted(fw: VmFirewall, ids: set<GroupId>, list: seq<VmRule>) {
    fw.list == list && fw.on == (ids != {}) && (ids != {} && fw.card ==> fw.nic)
  }

  /** What a VM's firewall lets through by its rules: everything a network card can carry,
      unless both switches are on. */
  predicate LetsThrough(fw: VmFirewall, p: Packet) { fw.card && (!fw.on || !fw.nic || Passes(fw.list, p)) }

  // ---------------------------------------------------------------- invariant

  /** What was written last is what the row now asks for. */
  predicate Clean(s: FwState, i: InstanceId) {
    i in s.rows && s.rows[i].live && s.rows[i].applied == s.rows[i].generation && s.rows[i].applied > 0
  }

  /** An account's groups. */
  function GroupsOf(owners: map<GroupId, AccountId>, account: AccountId): set<GroupId> {
    set g | g in owners && owners[g] == account
  }

  /** Every group is somebody's, who has a default one among at most twenty. */
  ghost predicate GroupsOK(s: FwState) {
    && s.owners.Keys == s.rules.Keys
    && (forall g :: g in s.owners ==> s.owners[g] in s.defaults)
    && (forall a :: a in s.defaults ==> s.defaults[a] in s.owners && s.owners[s.defaults[a]] == a)
    && (forall a: AccountId :: |GroupsOf(s.owners, a)| <= MAX_GROUPS_PER_ACCOUNT)
  }

  /** A live instance's groups exist and are its own account's. */
  ghost predicate MembersOK(s: FwState) {
    forall i, g :: i in s.rows && s.rows[i].live && g in s.rows[i].groups ==>
      g in s.owners && s.owners[g] == s.rows[i].account
  }

  ghost predicate FwOK(s: FwState) {
    && RulesValid(s.rules) && GroupsOK(s) && MembersOK(s)
    && (forall i :: i in s.rows ==> s.rows[i].applied <= s.rows[i].generation)
    && (forall i :: Clean(s, i) ==>
          i in s.vms && AsWanted(s.vms[i], s.rows[i].groups, Wanted(s.rules, s.rows[i].groups)))
  }

  /** What users may do to firewalls: whoever changes what an instance should have
      counts its generation up, and nobody but the worker touches a VM. */
  ghost predicate FwRely(s: FwState, s': FwState) {
    && (forall i :: i in s.rows ==> i in s'.rows && RowRely(s, s', i))
    && (forall i :: i in s'.rows && i !in s.rows ==> s'.rows[i].applied == 0)
    && (forall i :: i in s.vms ==> i in s'.vms && s'.vms[i] == s.vms[i])
  }

  ghost predicate RowRely(s: FwState, s': FwState, i: InstanceId)
    requires i in s.rows && i in s'.rows
  {
    var row, row' := s.rows[i], s'.rows[i];
    && row'.account == row.account && row'.applied == row.applied && row'.generation >= row.generation
    && (row'.live ==> row.live) && (row.ending ==> row'.ending)
    && (row'.live && row'.generation == row.generation ==> SameWish(s, s', i))
  }

  ghost predicate SameWish(s: FwState, s': FwState, i: InstanceId)
    requires i in s.rows && i in s'.rows
  {
    && s'.rows[i].groups == s.rows[i].groups
    && forall g :: g in s.rows[i].groups ==> g in s.rules && g in s'.rules && s'.rules[g] == s.rules[g]
  }

  lemma SameWishSameList(s: FwState, s': FwState, i: InstanceId)
    requires RulesValid(s.rules) && RulesValid(s'.rules) && i in s.rows && i in s'.rows && SameWish(s, s', i)
    ensures Wanted(s'.rules, s'.rows[i].groups) == Wanted(s.rules, s.rows[i].groups)
  {
    SameRulesBelow(s.rules, s'.rules, s.rows[i].groups, BoundOf(s.rows[i].groups));
  }

  lemma FwRelyTrans(a: FwState, b: FwState, c: FwState)
    requires FwRely(a, b) && FwRely(b, c)
    ensures FwRely(a, c)
  {
    forall i | i in a.rows ensures i in c.rows && RowRely(a, c, i) {
      assert RowRely(a, b, i) && RowRely(b, c, i);
    }
  }

  /** Others' transactions keep the invariant: what they change is no longer clean. */
  lemma FwRelyKeeps(s: FwState, s': FwState)
    requires FwOK(s) && FwRely(s, s') && RulesValid(s'.rules) && GroupsOK(s') && MembersOK(s')
    ensures FwOK(s')
  {
    hide GroupsOK, MembersOK;
    forall i | Clean(s', i)
      ensures i in s'.vms && AsWanted(s'.vms[i], s'.rows[i].groups, Wanted(s'.rules, s'.rows[i].groups))
    {
      assert i in s.rows && RowRely(s, s', i);
      assert Clean(s, i);
      SameWishSameList(s, s', i);
    }
    forall i | i in s'.rows ensures s'.rows[i].applied <= s'.rows[i].generation {
      if i in s.rows {
        assert RowRely(s, s', i);
      }
    }
  }

  /** With nothing left to write, an instance with groups lets through exactly what
      the rules its groups have now allow, and one without groups is not filtered. */
  lemma CleanMeansAllowed(s: FwState, i: InstanceId, p: Packet)
    requires FwOK(s) && Clean(s, i)
    ensures i in s.vms
    ensures s.rows[i].groups == {} ==>
              !s.vms[i].on && s.vms[i].list == [] && (s.vms[i].card ==> LetsThrough(s.vms[i], p))
    ensures s.rows[i].groups != {} && s.vms[i].card ==>
              && s.vms[i].on && s.vms[i].nic
              && (LetsThrough(s.vms[i], p) <==>
                 exists g, r :: g in s.rows[i].groups && g in s.rules && r in s.rules[g] && GroupAllows(r, p))
  {
    var ids := s.rows[i].groups;
    RulesOfMembers(s.rules, ids);
    var all := RulesOf(s.rules, ids);
    RenderingKeepsMeaning(all, p);
    if SomeRuleAllows(all, p) {
      var k :| 0 <= k < |all| && GroupAllows(all[k], p);
      assert all[k] in all;
    }
    if g, r :| g in ids && g in s.rules && r in s.rules[g] && GroupAllows(r, p) {
      assert r in all;
      var k :| 0 <= k < |all| && all[k] == r;
    }
    assert ids == {} ==> BoundOf(ids) == 0 && all == [];
  }
}
